/** How a device is greeted: the version it is asked for, what its answer does, and what becomes of segments that
    belong to no connection (src/device.c:562-594, 660-667, 830-860). */
module Greeting {
  import opened Basics
  import opened MuxPacket
  import opened Assembler
  import opened Environment
  import opened Daemon
  import D = Device

  function Next(env: Env, w: World, now: nat, e: Event): World { Step(env, w, Timed(now, e)) }

  /** A new device is sent one packet, which asks for version 2, and kept if it takes it. */
  lemma AttachGreets(env: Env, w: World, now: nat, info: seq<byte>)
    ensures
      var d, w' := w.nextDevice, Next(env, w, now, Attach(info));
      && w'.nextDevice == d + 1 && w'.conns == w.conns && w'.clients == w.clients
      && if !env.usbOk(d, 0) then w'.devices == w.devices
         else
           && d in w'.devices && w'.devices == w.devices[d := w'.devices[d]]
           && var dev := w'.devices[d];
              && dev.state.Starting? && !dev.visible && dev.info == info && dev.nextSport == 1 && dev.buf == []
              && |dev.h.wire| == 1 && |dev.h.wire[0]| >= 8 && Parse(0, dev.h.wire[0]) == VersionIn(2)
  {
    hide Parse, Build, VersionBytes;
    VersionRoundTrip(0, 2, 0, 0, 0);
  }

  /** A transfer completes this packet of a device. */
  predicate Completes(w: World, e: Event, pkt: seq<byte>)
  {
    && e.Transfer? && e.d in w.devices && Gather(w.devices[e.d].buf, e.chunk).packet == Some(pkt)
    && |pkt| >= 8
  }

  /** The SETUP packet that opens version 2: it carries a 7 and the first number. */
  predicate OpensNumbering(pkt: seq<byte>)
  {
    && |pkt| == 17 && UnBE32(pkt[0..4]) == 2 && UnBE32(pkt[4..8]) == 17 && UnBE32(pkt[8..12]) == 0xfeedface
    && NumberField(pkt) == 0 && SeenField(pkt) == 0xFFFF && pkt[16] == 7
  }

  /** The device's record once a packet has been gathered and its number noted. */
  function Noted(dev: D.Device, chunk: seq<byte>, pkt: seq<byte>): D.Device
  {
    var kept := dev.(buf := Gather(dev.buf, chunk).buf);
    if dev.version >= 2 && |pkt| >= 16 then kept.(rxSeq := Some(SeenField(pkt))) else kept
  }

  /** Only this device's record has changed. */
  predicate OnlyDevice(w: World, w': World, d: nat)
  {
    w'.conns == w.conns && w'.clients == w.clients && w'.devices - {d} == w.devices - {d}
  }

  lemma DeviceOnly(w: World, now: nat, d: nat, dev: D.Device)
    ensures OnlyDevice(w, SetDevice(w.(clock := now), d, dev), d)
    ensures OnlyDevice(w, SetDevice(w.(clock := now), d, dev).(devices := w.devices[d := dev] - {d}), d)
  {
    assert w.devices[d := dev] - {d} == w.devices - {d};
    assert w.devices[d := dev] - {d} - {d} == w.devices - {d};
  }

  lemma VersionStep(env: Env, w: World, now: nat, e: Event, pkt: seq<byte>, major: u32)
    requires Completes(w, e, pkt) && Parse(w.devices[e.d].version, pkt) == VersionIn(major)
    ensures Next(env, w, now, e) ==
            VersionInput(SetDevice(w.(clock := now), e.d, Noted(w.devices[e.d], e.chunk, pkt)), e.d, major)
  {
    hide Parse, Gather, SeenField;
    var kept := w.devices[e.d].(buf := Gather(w.devices[e.d].buf, e.chunk).buf);
    assert w.devices[e.d := kept][e.d := Noted(w.devices[e.d], e.chunk, pkt)] ==
           w.devices[e.d := Noted(w.devices[e.d], e.chunk, pkt)];
  }

  lemma TcpStep(env: Env, w: World, now: nat, e: Event, pkt: seq<byte>, th: TcpHeader, payload: seq<byte>)
    requires Completes(w, e, pkt) && Parse(w.devices[e.d].version, pkt) == TcpIn(th, payload)
    ensures Next(env, w, now, e) ==
            TcpInput(env, SetDevice(w.(clock := now), e.d, Noted(w.devices[e.d], e.chunk, pkt)), e.d, th, payload)
  {
    hide Parse, Gather, SeenField, TcpInput;
    var kept := w.devices[e.d].(buf := Gather(w.devices[e.d].buf, e.chunk).buf);
    assert w.devices[e.d := kept][e.d := Noted(w.devices[e.d], e.chunk, pkt)] ==
           w.devices[e.d := Noted(w.devices[e.d], e.chunk, pkt)];
  }

  /** What the answer to the greeting makes of a device: active with the version it names, which version 2 confirms
      with a SETUP packet. */
  predicate Greeted(dev: D.Device, dev': D.Device, major: nat)
  {
    && dev'.state.Active? && dev'.version == major && dev.h.wire <= dev'.h.wire
    && |dev'.h.wire| == |dev.h.wire| + (if major == 2 then 1 else 0)
    && (major == 2 ==> OpensNumbering(dev'.h.wire[|dev.h.wire|]))
  }

  lemma NegotiatedGreets(dev: D.Device, major: nat)
    requires 1 <= major <= 2
    ensures Greeted(dev, D.Negotiated(dev, major), major)
  {
    hide Build, NumberField, SeenField, UnBE32;
    BuildFields(2, Setup, [], [7], 0, 0xFFFF);
    SetupSeven();
  }

  /** Any other version drops the device, and a late answer is ignored. */
  lemma AnswersAreTaken(env: Env, w: World, now: nat, e: Event, pkt: seq<byte>, major: u32)
    requires Completes(w, e, pkt) && Parse(w.devices[e.d].version, pkt) == VersionIn(major)
    ensures
      var dev, w' := w.devices[e.d], Next(env, w, now, e);
      && OnlyDevice(w, w', e.d)
      && (dev.state.Starting? && major != 1 && major != 2 ==> e.d !in w'.devices)
      && (dev.state.Starting? && (major == 1 || major == 2) ==>
            e.d in w'.devices && Greeted(dev, w'.devices[e.d], major))
      && (!dev.state.Starting? ==>
            && e.d in w'.devices && w'.devices[e.d].state == dev.state
            && w'.devices[e.d].version == dev.version && w'.devices[e.d].h == dev.h)
  {
    hide Next, Gather, Parse, D.Negotiated, SeenField, OnlyDevice, OpensNumbering;
    VersionStep(env, w, now, e, pkt, major);
    var noted := Noted(w.devices[e.d], e.chunk, pkt);
    var w1 := SetDevice(w.(clock := now), e.d, noted);
    DeviceOnly(w, now, e.d, noted);
    if major == 1 || major == 2 {
      DeviceOnly(w, now, e.d, D.Negotiated(noted, major));
      NegotiatedGreets(noted, major);
      assert w.devices[e.d := noted][e.d := D.Negotiated(noted, major)] == w.devices[e.d := D.Negotiated(noted, major)];
    }
  }

  lemma SetupSeven()
    ensures
      var s := Build(2, Setup, [], [7], 0, 0xFFFF);
      |s| == 17 && s[16..] == [7] && s[16] == 7
  {
  }

  /** The packet is too short for what it says it is, or is neither a version packet nor a segment. */
  predicate Pointless(version: nat, pkt: seq<byte>)
    requires |pkt| >= 8
  {
    var proto, size := UnBE32(pkt[0..4]), if version < 2 then 8 else 16;
    (proto == 0 && |pkt| < size + 12) || (proto == 6 && |pkt| < size + 20) || (proto != 0 && proto != 6)
  }

  /** Such a packet has no effect beyond its number. */
  lemma PointlessPacketsAreDropped(env: Env, w: World, now: nat, e: Event, pkt: seq<byte>)
    requires Completes(w, e, pkt) && Pointless(w.devices[e.d].version, pkt)
    ensures Next(env, w, now, e) == SetDevice(w.(clock := now), e.d, Noted(w.devices[e.d], e.chunk, pkt))
    ensures OnlyDevice(w, Next(env, w, now, e), e.d)
  {
    hide Gather, SeenField, UnBE32, VersionInput, TcpInput, TcpFields;
    var dev := w.devices[e.d];
    var kept := dev.(buf := Gather(dev.buf, e.chunk).buf);
    assert w.devices[e.d := kept][e.d := Noted(dev, e.chunk, pkt)] == w.devices[e.d := Noted(dev, e.chunk, pkt)];
    DeviceOnly(w, now, e.d, Noted(dev, e.chunk, pkt));
  }

  /** No connection of the device has these ports. */
  predicate Unclaimed(w: World, d: nat, th: TcpHeader)
  {
    forall k :: k in w.conns && w.conns[k].dev == d ==> !(w.conns[k].sport == th.dport && w.conns[k].dport == th.sport)
  }

  /** The device has been sent one more packet, this reset, with the number last seen. */
  predicate SentReset(dev: D.Device, dev': D.Device, th: TcpHeader, pkt: seq<byte>)
  {
    && dev.h.wire <= dev'.h.wire && |dev'.h.wire| == |dev.h.wire| + 1
    && var reset := dev'.h.wire[|dev.h.wire|];
       && |reset| >= 8
       && Parse(dev.version, reset) == TcpIn(TcpHeader(th.dport, th.sport, 0, th.seqno, 4, 0), [])
       && (dev.version >= 2 && |pkt| >= 16 ==> |reset| >= 16 && SeenField(reset) == SeenField(pkt))
  }

  lemma ResetIsSent(dev: D.Device, chunk: seq<byte>, pkt: seq<byte>, th: TcpHeader)
    ensures
      var reset := TcpHeader(th.dport, th.sport, 0, th.seqno, 4, 0);
      var dev' := D.SendPacket(Noted(dev, chunk, pkt), Tcp, TcpBytes(reset), []);
      SentReset(dev, dev', th, pkt) && dev'.state == dev.state && dev'.version == dev.version
  {
    hide Parse, Build, Gather, TcpBytes, NumberField, SeenField;
    var noted, reset := Noted(dev, chunk, pkt), TcpHeader(th.dport, th.sport, 0, th.seqno, 4, 0);
    var number := if dev.version < 2 then 0 else D.Word(dev.txSeq);
    var seen := if dev.version < 2 then 0 else D.Word(noted.rxSeq);
    TcpRoundTrip(dev.version, reset, [], number, seen);
    BuildFields(dev.version, Tcp, TcpBytes(reset), [], number, seen);
  }

  /** A segment that belongs to no connection is answered with one reset that names its number, unless it is a reset
      itself or the device is not active. */
  lemma StraysAreReset(env: Env, w: World, now: nat, e: Event, pkt: seq<byte>, th: TcpHeader, payload: seq<byte>)
    requires Completes(w, e, pkt) && Parse(w.devices[e.d].version, pkt) == TcpIn(th, payload)
    requires Unclaimed(w, e.d, th) || !w.devices[e.d].state.Active?
    ensures
      var dev, w' := w.devices[e.d], Next(env, w, now, e);
      && OnlyDevice(w, w', e.d) && e.d in w'.devices
      && w'.devices[e.d].state == dev.state && w'.devices[e.d].version == dev.version
      && if dev.state.Active? && !HasRst(th.flags) then SentReset(dev, w'.devices[e.d], th, pkt)
         else w'.devices[e.d].h == dev.h
  {
    hide Next, Gather, Parse, D.SendPacket, SeenField, OnlyDevice, SentReset, Unclaimed, TcpBytes, HasRst;
    TcpStep(env, w, now, e, pkt, th, payload);
    var noted, reset := Noted(w.devices[e.d], e.chunk, pkt), TcpHeader(th.dport, th.sport, 0, th.seqno, 4, 0);
    var sent := D.SendPacket(noted, Tcp, TcpBytes(reset), []);
    var w1 := SetDevice(w.(clock := now), e.d, noted);
    DeviceOnly(w, now, e.d, noted);
    DeviceOnly(w, now, e.d, sent);
    ResetIsSent(w.devices[e.d], e.chunk, pkt, th);
    assert w.devices[e.d := noted][e.d := sent] == w.devices[e.d := sent];
    if w.devices[e.d].state.Active? {
      assert Unclaimed(w1, e.d, th) by { StillUnclaimed(w, w1, e.d, th); }
      NothingFound(w1, e.d, th, w.nextConn);
    }
  }

  lemma StillUnclaimed(w: World, w': World, d: nat, th: TcpHeader)
    requires Unclaimed(w, d, th) && w'.conns == w.conns
    ensures Unclaimed(w', d, th)
  {
  }

  lemma {:induction false} NothingFound(w: World, d: nat, th: TcpHeader, n: nat)
    requires Unclaimed(w, d, th)
    ensures FindPorts(w, d, th.dport, th.sport, n) == None
    decreases n
  {
    if n > 0 {
      NothingFound(w, d, th, n - 1);
    }
  }
}
