/** Steps that serve one connection: input from the device, data from and to the client, timers. */
module Serving {
  import opened Basics
  import opened MuxPacket
  import opened ClientMessage
  import opened Environment
  import opened Daemon
  import opened Invariant
  import opened Release
  import C = Connection
  import L = Client
  import D = Device

  /** The tables with one connection and its client replaced. */
  function WithPair(w: World, k: nat, c: nat, kn: C.Conn, cl: L.Client): World
  {
    SetClient(SetConn(w, k, kn), c, cl)
  }

  /** The device of a connection after a segment was handed to send_packet. */
  function DeviceAfter(w: World, kn: C.Conn, flags: byte, data: seq<byte>): D.Device
    requires kn.dev in w.devices
  {
    D.SendPacket(w.devices[kn.dev], Tcp, TcpBytes(C.SegmentHeader(kn, flags)), data)
  }

  lemma SendShape(env: Env, w: World, k: nat, c: nat, kn: C.Conn, cl: L.Client, flags: byte, data: seq<byte>)
    requires kn.dev in w.devices
    ensures
      var w1 := WithPair(w, k, c, kn, cl);
      var ok := TcpOk(env, w1, k, |data|);
      && ok == D.SendOk(env, kn.dev, w.devices[kn.dev], 20, |data|)
      && SendTcp(env, w1, k, flags, data) ==
         WithPair(SetDevice(w, kn.dev, DeviceAfter(w, kn, flags, data)), k, c,
             C.SendTcp(kn, flags, data, ok, w.clock), cl)
  {
    hide C.SendTcp, D.SendPacket, TcpBytes;
    var sent := C.SendTcp(kn, flags, data, TcpOk(env, WithPair(w, k, c, kn, cl), k, |data|), w.clock);
    assert w.conns[k := kn][k := sent] == w.conns[k := sent];
  }

  /** A connected pair whose derived fields may be out of date. */
  predicate Nearly(env: Env, kn: C.Conn, cl: L.Client)
  {
    && cl.connectDev == kn.dev && kn.sport != 0 && kn.state.Connected? && C.Streams(kn) && C.Confirmed(kn)
    && match cl.state
       case Connecting2 => L.Joining(env, cl) && kn.h.delivered == [] && kn.h.taken == []
       case Joined => L.InStream(env, cl, kn.h.delivered, kn.h.taken)
       case _ => false
  }

  /** update_connection brings them up to date. */
  lemma UpdateCompletes(env: Env, kn: C.Conn, cl: L.Client)
    requires Nearly(env, kn, cl)
    ensures PairOk(env, C.Update(kn), L.SetEvents(cl, C.Update(kn).events))
  {
    hide Stream, L.Answered, L.AllWhole, Concat, C.DataOf, C.Tiled, C.Resets, C.LastOk, C.AcksUpTo;
    var kn', cl' := C.Update(kn), L.SetEvents(cl, C.Update(kn).events);
    L.AnsweredFrame(env, cl.h, cl'.h);
  }

  lemma NearlyLeaves(env: Env, kn: C.Conn, cl: L.Client)
    requires Nearly(env, kn, cl) && C.Armed(kn)
    ensures C.Doomed(kn) && Leaving(env, kn, cl) && Linked(cl.state)
  {
    hide C.Streams, C.Doomed, Stream, L.Answered, L.AllWhole, Concat, L.Quits, L.Ordered, L.Granted, L.ToldOk;
    hide L.EndsInConnect;
    C.LiveIsDoomed(kn);
    if cl.state.Connecting2? {
      L.MayQuit(env, cl);
    } else {
      L.AnsweredInOrder(env, cl.h, []);
      L.JoinedIsGranted(env, cl);
    }
  }

  /** The end of every successful step on a connection. */
  lemma FinishKeeps(env: Env, w: World, k: nat, c: nat, kn: C.Conn, cl: L.Client)
    requires Inv(env, w) && k in w.conns && w.conns[k].client == Some(c)
    requires SameWires(w.conns[k], kn) && kn.lastAck <= w.clock && cl.h.conn == Some(k) && Nearly(env, kn, cl)
    requires kn.dev in w.devices
    ensures
      var w' := UpdateConnection(WithPair(w, k, c, kn, cl), k);
      && w' == WithPair(w, k, c, C.Update(kn), L.SetEvents(cl, C.Update(kn).events))
      && Inv(env, w') && Local(w, w', k, c, kn.dev) && w'.faults == w.faults
  {
    hide Inv, C.Streams, L.Joining, L.InStream, PairOk, C.Sendable;
    UpdateCompletes(env, kn, cl);
    var kn', cl' := C.Update(kn), L.SetEvents(cl, C.Update(kn).events);
    PairUpdated(env, w, k, c, kn', cl');
    assert w.conns[k := kn][k := kn'] == w.conns[k := kn'];
    assert w.clients[c := cl][c := cl'] == w.clients[c := cl'];
    assert w.conns[k := kn'] - {k} == w.conns - {k};
    assert w.clients[c := cl'] - {c} == w.clients - {c};
  }

  lemma LocalAfterSend(w: World, w': World, k: nat, c: nat, d: nat, dev: D.Device)
    requires d in w.devices && SameDevice(w.devices[d], dev)
    requires Local(SetDevice(w, d, dev), w', k, c, d)
    ensures Local(w, w', k, c, d)
  {
    assert w.devices[d := dev] - {d} == w.devices - {d};
  }

  /** send_tcp_ack */
  lemma AckKeeps(env: Env, w: World, k: nat, c: nat, kn: C.Conn, cl: L.Client)
    requires Inv(env, w) && k in w.conns && w.conns[k].client == Some(c)
    requires SameWires(w.conns[k], kn) && kn.lastAck <= w.clock && cl.h.conn == Some(k) && Nearly(env, kn, cl)
    requires kn.dev in w.devices
    requires C.Armed(kn)
    ensures
      var w' := SendTcpAck(env, WithPair(w, k, c, kn, cl), k);
      && Inv(env, w') && Local(w, w', k, c, kn.dev) && w'.faults == w.faults
      && (k in w'.conns ==> w'.conns[k] == C.Acknowledged(kn, w.clock))
      && (D.SendOk(env, kn.dev, w.devices[kn.dev], 20, 0) ==> k in w'.conns)
  {
    hide Inv, Nearly, Local, SameDevice, UpdateConnection, Teardown, SendTcp, TcpOk, C.Doomed, Leaving, DeviceAfter;
    hide C.Update, L.SetEvents;
    var w1 := WithPair(w, k, c, kn, cl);
    SendShape(env, w, k, c, kn, cl, ACK, []);
    var ok := TcpOk(env, w1, k, 0);
    var dev := DeviceAfter(w, kn, ACK, []);
    DeviceAfterKeeps(env, w, kn, ACK, []);
    var base := SetDevice(w, kn.dev, dev);
    AckedNearly(env, kn, cl, ok, w.clock);
    var sent := C.SendTcp(kn, ACK, [], ok, w.clock);
    if ok {
      FinishKeeps(env, base, k, c, sent, cl);
    } else {
      NearlyLeaves(env, sent, cl);
      TeardownKeeps(env, base, k, c, sent, cl);
    }
    LocalAfterSend(w, SendTcpAck(env, w1, k), k, c, kn.dev, dev);
  }

  lemma AckedNearly(env: Env, kn: C.Conn, cl: L.Client, ok: bool, now: nat)
    requires Nearly(env, kn, cl)
    ensures
      var sent := C.SendTcp(kn, ACK, [], ok, now);
      Nearly(env, sent, cl) && SameWires(kn, sent) && (kn.lastAck <= now ==> sent.lastAck <= now)
  {
    hide C.Streams, L.Joining, L.InStream;
    C.EmptySegmentStreams(kn, ACK, ok, now);
  }

  lemma DeviceAfterKeeps(env: Env, w: World, kn: C.Conn, flags: byte, data: seq<byte>)
    requires Inv(env, w) && kn.dev in w.devices
    ensures
      var dev := DeviceAfter(w, kn, flags, data);
      Inv(env, SetDevice(w, kn.dev, dev)) && SameDevice(w.devices[kn.dev], dev)
  {
    hide Inv, SameDevice, TcpBytes, D.SendPacket;
    SendKeepsInv(env, w, kn.dev, Tcp, TcpBytes(C.SegmentHeader(kn, flags)), data);
  }

  // ---- Segments from the device ----

  lemma PairIsNearly(env: Env, kn: C.Conn, cl: L.Client)
    requires PairOk(env, kn, cl)
    ensures kn.state.Connected? ==> Nearly(env, kn, cl) && C.Armed(kn)
    ensures !kn.state.Connected? ==>
              kn.state.Connecting? && cl.state.Connecting1? && C.Waiting(kn) && L.Pending(env, cl)
  {
    hide C.Streams, C.Waiting, L.Pending, L.Joining, L.InStream;
  }

  /** A connection through which nothing has passed yet. */
  predicate NewlyUp(kn: C.Conn)
  {
    && kn.state.Connected? && kn.h.accepted == []
    && |kn.h.tx| == 2 && C.IsSyn(kn.h.tx[0]) && C.IsHandshakeAck(kn.h.tx[1])
  }

  /** The SYN/ACK arm. */
  lemma EstablishKeeps(env: Env, w: World, k: nat, c: nat, kn: C.Conn, cl: L.Client)
    requires Inv(env, w) && k in w.conns && w.conns[k].client == Some(c) && kn.dev in w.devices
    requires c in w.clients && w.clients[c] == cl
    requires SameWires(w.conns[k], kn) && kn.lastAck <= w.clock && kn.state.Connecting? && C.Waiting(kn)
             && kn.sport != 0
    requires cl.h.conn == Some(k) && cl.connectDev == kn.dev && L.Pending(env, cl)
    ensures
      var w' := Establish(env, SetConn(w, k, kn), k);
      && Inv(env, w') && Local(w, w', k, c, kn.dev) && w'.faults == w.faults
      && (k in w'.conns ==> NewlyUp(w'.conns[k]))
      && (D.SendOk(env, kn.dev, w.devices[kn.dev], 20, 0) ==>
            k in w'.conns && c in w'.clients && w'.clients[c].state.Connecting2?)
  {
    hide Inv, C.Waiting, C.Streams, C.Doomed, L.Notify, Local, SameDevice, UpdateConnection, Teardown;
    hide SendTcp, TcpOk, DeviceAfter, C.Update, Stream, L.Talking, L.Awaits, L.Answered, L.AllWhole, Concat, D.SendOk;
    var shaken := C.Handshake(kn);
    assert SetConn(SetConn(w, k, kn), k, shaken) == WithPair(w, k, c, shaken, cl);
    var w1 := WithPair(w, k, c, shaken, cl);
    SendShape(env, w, k, c, shaken, cl, ACK, []);
    var ok := TcpOk(env, w1, k, 0);
    var dev := DeviceAfter(w, shaken, ACK, []);
    DeviceAfterKeeps(env, w, shaken, ACK, []);
    var base := SetDevice(w, kn.dev, dev);
    C.HandshakeEstablishes(kn, ok, w.clock);
    var sent := C.SendTcp(shaken, ACK, [], ok, w.clock);
    L.NotifyJoins(env, cl);
    if ok {
      var cl' := L.Notify(env, cl, RESULT_OK).value;
      var up := sent.(state := C.Connected);
      EstablishedNearly(env, kn, w.clock, cl');
      assert SetClient(SetConn(WithPair(base, k, c, sent, cl), k, up), c, cl') == WithPair(base, k, c, up, cl') by {
        assert base.conns[k := sent][k := up] == base.conns[k := up];
        assert base.clients[c := cl][c := cl'] == base.clients[c := cl'];
      }
      FinishKeeps(env, base, k, c, up, cl');
    } else {
      C.LiveIsDoomed(sent);
      TeardownKeeps(env, base, k, c, sent, cl);
    }
    LocalAfterSend(w, Establish(env, SetConn(w, k, kn), k), k, c, kn.dev, dev);
  }

  lemma EstablishedNearly(env: Env, kn: C.Conn, now: nat, cl: L.Client)
    requires C.Waiting(kn) && kn.sport != 0 && kn.lastAck <= now && cl.connectDev == kn.dev && L.Joining(env, cl)
    ensures
      var up := C.SendTcp(C.Handshake(kn), ACK, [], true, now).(state := C.Connected);
      Nearly(env, up, cl) && SameWires(kn, up) && up.lastAck <= now && NewlyUp(C.Update(up))
  {
    hide C.DataOf, C.Tiled, C.Resets, C.LastOk, C.AcksUpTo, Stream, L.Answered, L.AllWhole, Concat;
    C.HandshakeEstablishes(kn, true, now);
  }

  /** What the branches for an established connection come down to. */
  lemma SegmentShape(env: Env, w: World, k: nat, th: TcpHeader, payload: seq<byte>)
    requires k in w.conns && w.conns[k].state.Connected?
    ensures
      var noted := C.NoteHeader(w.conns[k], th);
      var torn := Teardown(env, SetConn(w, k, noted), k);
      var taken := UpdateConnection(SetConn(w, k, C.Accept(noted, payload)), k);
      Segment(env, w, k, th, payload) ==
        if th.flags != ACK
        then Teardown(env, SetConn(w, k, if HasRst(th.flags) then noted.(state := C.Dying) else noted), k)
        else if C.Overflows(noted, payload) then if k in torn.conns then SendTcpAck(env, torn, k) else Fault(torn)
        else SendTcpAck(env, taken, k)
  {
    hide Teardown, UpdateConnection, SendTcp, TcpOk, C.Accept, C.Overflows;
    var noted := C.NoteHeader(w.conns[k], th);
    assert w.conns[k := noted][k := C.Accept(noted, payload)] == w.conns[k := C.Accept(noted, payload)];
  }

  /** A segment for an established connection. */
  lemma DataKeeps(env: Env, w: World, k: nat, c: nat, th: TcpHeader, payload: seq<byte>)
    requires Inv(env, w) && k in w.conns && w.conns[k].client == Some(c) && c in w.clients
    requires w.conns[k].dev in w.devices && w.conns[k].lastAck <= w.clock && w.clients[c].h.conn == Some(k)
    requires Nearly(env, w.conns[k], w.clients[c])
    requires C.Armed(w.conns[k])
    ensures
      var w' := Segment(env, w, k, th, payload);
      && Inv(env, w') && Local(w, w', k, c, w.conns[k].dev)
      && w'.faults == w.faults + (if th.flags == ACK && C.Overflows(w.conns[k], payload) then 1 else 0)
      && (th.flags == ACK && !C.Overflows(w.conns[k], payload) ==>
            D.SendOk(env, w.conns[k].dev, w.devices[w.conns[k].dev], 20, 0) ==> k in w'.conns)
      && (k in w'.conns ==> th.flags == ACK && !C.Overflows(w.conns[k], payload)
                            && w'.conns[k] == C.Received(w.conns[k], th, payload, w.clock))
  {
    hide Inv, C.Streams, C.Doomed, Local, Teardown, Segment, UpdateConnection, SendTcpAck, L.Joining, L.InStream;
    hide C.Update, L.SetEvents, Leaving;
    SegmentShape(env, w, k, th, payload);
    var kn, cl := w.conns[k], w.clients[c];
    var noted := C.NoteHeader(kn, th);
    C.NoteKeeps(kn, th);
    NearlyLeaves(env, kn, cl);
    if th.flags != ACK || C.Overflows(noted, payload) {
      var last := if th.flags != ACK && HasRst(th.flags) then noted.(state := C.Dying) else noted;
      assert SetConn(w, k, last) == WithPair(w, k, c, last, cl);
      if !HasRst(th.flags) {
        C.LiveIsDoomed(noted);
      }
      StillLeaving(env, kn, last, cl);
      TeardownKeeps(env, w, k, c, last, cl);
      if th.flags == ACK {
        var torn := Teardown(env, SetConn(w, k, noted), k);
        FaultCounted(env, torn);
        LocalFault(w, torn, k, c, kn.dev);
      }
    } else {
      AcceptedKeeps(env, w, k, c, noted, payload);
    }
  }

  lemma StillLeaving(env: Env, kn: C.Conn, last: C.Conn, cl: L.Client)
    requires Leaving(env, kn, cl) && kn.state.Connected? && SameWires(kn, last)
    requires last.h.delivered == kn.h.delivered && last.h.taken == kn.h.taken
             && last.ib == kn.ib && last.events == kn.events
             && (last.state.Connected? || last.state.Dying?)
    ensures Leaving(env, last, cl)
  {
    hide L.Pending, Stream, Concat, L.Quits, L.Ordered, L.Granted;
  }

  /** connection_device_input and the prompt acknowledgement. */
  lemma AcceptedKeeps(env: Env, w: World, k: nat, c: nat, noted: C.Conn, payload: seq<byte>)
    requires Inv(env, w) && k in w.conns && w.conns[k].client == Some(c) && c in w.clients
    requires noted.dev in w.devices && noted.lastAck <= w.clock && w.clients[c].h.conn == Some(k)
    requires SameWires(w.conns[k], noted) && Nearly(env, noted, w.clients[c]) && !C.Overflows(noted, payload)
    ensures
      var taken := UpdateConnection(SetConn(w, k, C.Accept(noted, payload)), k);
      var w' := SendTcpAck(env, taken, k);
      && k in taken.conns && Inv(env, w') && Local(w, w', k, c, noted.dev) && w'.faults == w.faults
      && (D.SendOk(env, noted.dev, w.devices[noted.dev], 20, 0) ==> k in w'.conns)
      && (k in w'.conns ==> w'.conns[k] == C.Acknowledged(C.Update(C.Accept(noted, payload)), w.clock))
  {
    hide Inv, C.Streams, Local, UpdateConnection, SendTcpAck, L.Joining, L.InStream, C.Update, L.SetEvents, PairOk;
    var kn, cl := C.Accept(noted, payload), w.clients[c];
    C.AcceptKeeps(noted, payload);
    assert SetConn(w, k, kn) == WithPair(w, k, c, kn, cl);
    FinishKeeps(env, w, k, c, kn, cl);
    UpdateCompletes(env, kn, cl);
    var kn', cl' := C.Update(kn), L.SetEvents(cl, C.Update(kn).events);
    UpdateFrame(kn, cl);
    PairIsNearly(env, kn', cl');
    AckKeeps(env, w, k, c, kn', cl');
  }

  lemma UpdateFrame(kn: C.Conn, cl: L.Client)
    ensures SameWires(kn, C.Update(kn)) && C.Update(kn).lastAck == kn.lastAck && C.Update(kn).state == kn.state
    ensures C.Armed(C.Update(kn))
    ensures L.SetEvents(cl, C.Update(kn).events).h == cl.h
  {
  }

  /** device_tcp_input for the connection that matched. */
  lemma SegmentKeeps(env: Env, w: World, k: nat, th: TcpHeader, payload: seq<byte>)
    requires Inv(env, w) && k in w.conns
    ensures w.conns[k].client.Some?
    ensures
      var w' := Segment(env, w, k, th, payload);
      && Inv(env, w') && Local(w, w', k, w.conns[k].client.value, w.conns[k].dev)
      && w'.faults == w.faults + (if w.conns[k].state.Connected? && th.flags == ACK && C.Overflows(w.conns[k], payload)
                                  then 1 else 0)
      && (w.conns[k].state.Connected? && th.flags == ACK && !C.Overflows(w.conns[k], payload)
          && w.conns[k].dev in w.devices && D.SendOk(env, w.conns[k].dev, w.devices[w.conns[k].dev], 20, 0) ==>
            k in w'.conns)
      && (k in w'.conns && w.conns[k].state.Connected? ==>
            th.flags == ACK && !C.Overflows(w.conns[k], payload)
            && w'.conns[k] == C.Received(w.conns[k], th, payload, w.clock))
      && (k in w'.conns && w.conns[k].state.Connecting? ==> NewlyUp(w'.conns[k]))
      && (w.conns[k].state.Connecting? && th.flags == SYN_ACK && w.conns[k].dev in w.devices
          && D.SendOk(env, w.conns[k].dev, w.devices[w.conns[k].dev], 20, 0) ==>
            k in w'.conns && w.conns[k].client.value in w'.clients
            && w'.clients[w.conns[k].client.value].state.Connecting2?)
  {
    hide NewlyUp, D.SendOk, Inv, C.Waiting, C.Streams, C.Doomed, Local, Teardown, Establish, L.Pending, Nearly, Wired;
    InvWires(env, w, k);
    var c := w.conns[k].client.value;
    PairMayLeave(env, w, k, c);
    var kn, cl := w.conns[k], w.clients[c];
    PairBasics(env, kn, cl);
    PairIsNearly(env, kn, cl);
    if kn.state.Connected? {
      DataKeeps(env, w, k, c, th, payload);
    } else {
      var noted := C.NoteHeader(kn, th);
      C.NoteKeeps(kn, th);
      if th.flags == SYN_ACK {
        EstablishKeeps(env, w, k, c, noted, cl);
      } else {
        var last := if HasRst(th.flags) then noted.(state := C.Refused) else noted;
        assert SetConn(w, k, last) == WithPair(w, k, c, last, cl);
        if !HasRst(th.flags) {
          C.LiveIsDoomed(noted);
        }
        TeardownKeeps(env, w, k, c, last, cl);
      }
    }
  }

  lemma PairBasics(env: Env, kn: C.Conn, cl: L.Client)
    requires PairOk(env, kn, cl)
    ensures cl.connectDev == kn.dev && kn.sport != 0 && Linked(cl.state)
  {
    hide C.Waiting, C.Established, L.Pending, L.Joining, L.InStream;
  }

  // ---- device_client_process ----

  /** A pair in the raw stream phase whose sendable field is current. */
  predicate Streaming(env: Env, kn: C.Conn, cl: L.Client)
  {
    Nearly(env, kn, cl) && cl.state.Joined? && kn.sendable == C.Sendable(kn) && C.Armed(kn)
  }

  /** The arms of device_client_process: what they move, and whether the connection survives them. */
  function Written(kn: C.Conn, io: SocketResults): nat
  {
    if io.write.Some? && kn.ib != [] then io.write.value else 0
  }

  function Taken(kn: C.Conn, io: SocketResults): seq<byte>
  {
    if io.read.Some? && kn.sendable > 0 then io.read.value else []
  }

  predicate WritesWell(kn: C.Conn, io: SocketResults)
  {
    io.write.Some? && kn.ib != [] ==> 0 < io.write.value <= |kn.ib|
  }

  predicate ReadsWell(kn: C.Conn, io: SocketResults)
  {
    io.read.Some? && kn.sendable > 0 ==> 0 < |io.read.value| <= kn.sendable
  }

  predicate SendsWell(env: Env, w: World, kn: C.Conn, io: SocketResults)
    requires kn.dev in w.devices
  {
    Taken(kn, io) != [] ==> D.SendOk(env, kn.dev, w.devices[kn.dev], 20, |Taken(kn, io)|)
  }

  lemma WroteStreams(env: Env, kn: C.Conn, cl: L.Client, n: nat)
    requires Streaming(env, kn, cl) && n <= |kn.ib|
    ensures Streaming(env, C.Wrote(kn, n), L.RawSent(cl, kn.ib[..n]))
  {
    hide C.Streams, Stream, L.AllWhole, Concat;
    C.WroteKeeps(kn, n);
    L.AnsweredFrame(env, cl.h, L.RawSent(cl, kn.ib[..n]).h);
    assert Stream(env.xml, cl.h.msgs) + kn.h.delivered + kn.ib[..n] ==
           Stream(env.xml, cl.h.msgs) + (kn.h.delivered + kn.ib[..n]);
    hide L.Answered;
  }

  lemma TookStreams(env: Env, kn: C.Conn, cl: L.Client, data: seq<byte>, now: nat)
    requires Streaming(env, kn, cl) && 0 < |data| <= kn.sendable && kn.lastAck <= now
    ensures
      var sent := C.Advance(C.SendTcp(C.Took(kn, data), ACK, data, true, now), |data|);
      Nearly(env, sent, L.RawReceived(cl, data)) && SameWires(kn, sent) && sent.lastAck <= now
  {
    hide C.Streams, Stream, L.AllWhole, Concat;
    C.DataSegmentKeeps(kn, data, now);
    L.AnsweredFrame(env, cl.h, L.RawReceived(cl, data).h);
    var front := Concat(cl.h.cmds) + cl.h.lost;
    assert front + kn.h.taken + data == front + (kn.h.taken + data);
    hide L.Answered;
  }

  lemma LostLeaves(env: Env, kn: C.Conn, cl: L.Client, data: seq<byte>, now: nat)
    requires Streaming(env, kn, cl) && 0 < |data| <= kn.sendable
    ensures
      var lost := C.SendTcp(C.Took(kn, data), ACK, data, false, now);
      C.Doomed(lost) && Leaving(env, lost, L.RawReceived(cl, data)) && SameWires(kn, lost)
  {
    hide C.Streams, C.Doomed, Stream, L.AllWhole, Concat, L.Answered, L.Pending, L.Ordered, L.Quits, L.Granted;
    hide L.ToldOk, L.EndsInConnect;
    C.DataSegmentLost(kn, data, now);
    L.JoinedIsGranted(env, cl);
    L.GrantedFrame(env, cl.h, L.RawReceived(cl, data).h);
    L.AnsweredInOrder(env, cl.h, []);
    L.OrderedFrame(env, cl.h, L.RawReceived(cl, data).h);
    var front := Concat(cl.h.cmds) + cl.h.lost;
    assert front + kn.h.taken + data == front + (kn.h.taken + data);
  }

  lemma ProcessReadKeeps(env: Env, w: World, k: nat, c: nat, kn: C.Conn, cl: L.Client, io: SocketResults)
    requires Inv(env, w) && k in w.conns && w.conns[k].client == Some(c) && kn.dev in w.devices
    requires SameWires(w.conns[k], kn) && kn.lastAck <= w.clock && cl.h.conn == Some(k) && Streaming(env, kn, cl)
    ensures
      var w' := ProcessRead(env, WithPair(w, k, c, kn, cl), k, c, io);
      && Inv(env, w') && Local(w, w', k, c, kn.dev) && w'.faults == w.faults
      && (k in w'.conns <==> ReadsWell(kn, io) && SendsWell(env, w, kn, io))
      && (k in w'.conns ==> w'.conns[k] == C.Served(kn, 0, Taken(kn, io), w.clock))
  {
    hide Inv, C.Streams, C.Doomed, Leaving, Nearly, Local, SameDevice, Teardown, UpdateConnection, SendTcp, TcpOk;
    hide DeviceAfter, C.Sendable, C.Update, L.SetEvents;
    var w1 := WithPair(w, k, c, kn, cl);
    if io.read.Some? && kn.sendable > 0 {
      var data := io.read.value;
      if 0 < |data| <= kn.sendable {
        ReadKeeps(env, w, k, c, kn, cl, data);
      } else {
        NearlyLeaves(env, kn, cl);
        TeardownKeeps(env, w, k, c, kn, cl);
      }
    } else {
      FinishKeeps(env, w, k, c, kn, cl);
    }
  }

  lemma ReadKeeps(env: Env, w: World, k: nat, c: nat, kn: C.Conn, cl: L.Client, data: seq<byte>)
    requires Inv(env, w) && k in w.conns && w.conns[k].client == Some(c) && kn.dev in w.devices
    requires SameWires(w.conns[k], kn) && kn.lastAck <= w.clock && cl.h.conn == Some(k) && Streaming(env, kn, cl)
    requires 0 < |data| <= kn.sendable
    ensures
      var w' := ProcessRead(env, WithPair(w, k, c, kn, cl), k, c, SocketResults(None, Some(data)));
      && Inv(env, w') && Local(w, w', k, c, kn.dev) && w'.faults == w.faults
      && (k in w'.conns <==> D.SendOk(env, kn.dev, w.devices[kn.dev], 20, |data|))
      && (k in w'.conns ==> w'.conns[k] == C.Served(kn, 0, data, w.clock))
  {
    hide Inv, C.Streams, C.Doomed, Leaving, Nearly, Local, SameDevice, Teardown, UpdateConnection, SendTcp, TcpOk;
    hide DeviceAfter, C.Sendable, C.Update, L.SetEvents;
    var w1 := WithPair(w, k, c, kn, cl);
    var took, cl' := C.Took(kn, data), L.RawReceived(cl, data);
    assert ReadArm(w1, k, c, data) == WithPair(w, k, c, took, cl') by {
      assert w.conns[k := kn][k := took] == w.conns[k := took];
      assert w.clients[c := cl][c := cl'] == w.clients[c := cl'];
    }
    SendShape(env, w, k, c, took, cl', ACK, data);
    var ok := TcpOk(env, WithPair(w, k, c, took, cl'), k, |data|);
    var dev := DeviceAfter(w, took, ACK, data);
    DeviceAfterKeeps(env, w, took, ACK, data);
    var base := SetDevice(w, kn.dev, dev);
    var sent := C.SendTcp(took, ACK, data, ok, w.clock);
    if ok {
      TookStreams(env, kn, cl, data, w.clock);
      var moved := C.Advance(sent, |data|);
      assert AdvanceArm(WithPair(base, k, c, sent, cl'), k, |data|) == WithPair(base, k, c, moved, cl') by {
        assert base.conns[k := sent][k := moved] == base.conns[k := moved];
      }
      FinishKeeps(env, base, k, c, moved, cl');
    } else {
      LostLeaves(env, kn, cl, data, w.clock);
      TeardownKeeps(env, base, k, c, sent, cl');
    }
    LocalAfterSend(w, ProcessRead(env, w1, k, c, SocketResults(None, Some(data))), k, c, kn.dev, dev);
  }

  /** device_client_process for a joined client: it writes what the socket took, reads what it gave and sends that; the
      connection survives if and only if all three went well. */
  lemma ProcessKeeps(env: Env, w: World, k: nat, c: nat, io: SocketResults)
    requires Inv(env, w) && k in w.conns && w.conns[k].client == Some(c)
    requires c in w.clients && w.clients[c].state.Joined?
    ensures w.conns[k].dev in w.devices
    ensures
      var w' := ProcessWrite(env, w, k, c, io);
      && Inv(env, w') && Local(w, w', k, c, w.conns[k].dev) && w'.faults == w.faults
      && (k in w'.conns <==>
            WritesWell(w.conns[k], io) && ReadsWell(w.conns[k], io) && SendsWell(env, w, w.conns[k], io))
      && (k in w'.conns ==>
            w'.conns[k] == C.Served(w.conns[k], Written(w.conns[k], io), Taken(w.conns[k], io), w.clock))
  {
    hide Inv, C.Doomed, Leaving, Local, Teardown, ProcessRead, Nearly, C.Streams, L.Joining, L.InStream;
    PairMayLeave(env, w, k, c);
    var kn, cl := w.conns[k], w.clients[c];
    PairIsNearly(env, kn, cl);
    assert Streaming(env, kn, cl);
    if io.write.Some? && kn.ib != [] {
      var n := io.write.value;
      if 0 < n <= |kn.ib| {
        WroteStreams(env, kn, cl, n);
        ProcessReadKeeps(env, w, k, c, C.Wrote(kn, n), L.RawSent(cl, kn.ib[..n]), io);
      } else {
        TeardownAsIs(env, w, k);
      }
    } else {
      assert w == WithPair(w, k, c, kn, cl);
      ProcessReadKeeps(env, w, k, c, kn, cl, io);
    }
  }
}
