/** The TCP packets on a device's wire are the segments recorded for its connections: from the moment a connection is
    created, the packets with its ports are its segments, all of them and in order. */
module Traces {
  import opened Basics
  import opened MuxPacket
  import opened Assembler
  import opened ClientMessage
  import opened CommandFraming
  import opened Environment
  import opened Daemon
  import opened Invariant
  import opened ClientSteps
  import opened Reachable
  import Shapes
  import C = Connection
  import L = Client
  import D = Device

  /** A TCP packet as its receiver reads it. */
  datatype Datagram = Datagram(th: TcpHeader, data: seq<byte>)

  /** One packet, if it is a TCP packet with these ports. */
  function Pick(version: nat, pkt: seq<byte>, sport: u16, dport: u16): seq<Datagram>
  {
    if |pkt| < 8 then []
    else match Parse(version, pkt)
      case TcpIn(th, data) => if th.sport == sport && th.dport == dport then [Datagram(th, data)] else []
      case _ => []
  }

  /** The TCP packets with these ports. */
  function Selected(version: nat, pkts: seq<seq<byte>>, sport: u16, dport: u16): seq<Datagram>
  {
    if pkts == [] then []
    else Selected(version, pkts[..|pkts| - 1], sport, dport) + Pick(version, pkts[|pkts| - 1], sport, dport)
  }

  /** What is recorded for a connection. */
  function Recorded(tx: seq<C.Segment>): seq<Datagram>
  {
    seq(|tx|, i requires 0 <= i < |tx| => Datagram(tx[i].th, tx[i].data))
  }

  /** What the device of a line has been sent along it. */
  function Along(dev: D.Device, line: C.Line): seq<Datagram>
    requires line.born <= |dev.h.wire|
  {
    Selected(dev.version, dev.h.wire[line.born..], line.sport, line.dport)
  }

  /** As long as the device is there, a live connection has sent exactly what is recorded; after its end another one
      may use its ports. */
  predicate OnWire(devices: map<nat, D.Device>, h: C.ConnHistory, live: bool)
  {
    h.line.dev in devices ==>
      var dev := devices[h.line.dev];
      && !dev.state.Starting? && h.line.born <= |dev.h.wire|
      && if live then Along(dev, h.line) == Recorded(h.tx) else Recorded(h.tx) <= Along(dev, h.line)
  }

  predicate ConnTraced(w: World, k: nat)
    requires k in w.conns
  {
    var kn := w.conns[k];
    && k < w.nextConn && kn.dev < w.nextDevice && kn.sendable <= C.MAX_PAYLOAD
    && kn.h.line.dev == kn.dev && kn.h.line.sport == kn.sport && kn.h.line.dport == kn.dport
    && OnWire(w.devices, kn.h, true)
  }

  predicate PastTraced(w: World, k: nat)
    requires k in w.pastConns
  {
    w.pastConns[k].line.dev < w.nextDevice && OnWire(w.devices, w.pastConns[k], false)
  }

  ghost predicate Traced(w: World)
  {
    && PortsDistinct(w)
    && (forall k :: k in w.conns ==> ConnTraced(w, k))
    && (forall k :: k in w.pastConns ==> PastTraced(w, k))
  }

  // ---- Steps that send nothing ----

  /** Wires are as they were; connections kept what was recorded for them, or are gone with it. */
  ghost predicate Quiet(w: World, w': World)
  {
    && (forall d :: d in w'.devices ==>
          && d in w.devices && w'.devices[d].version == w.devices[d].version
          && w'.devices[d].h.wire == w.devices[d].h.wire
          && (w'.devices[d].state.Starting? ==> w.devices[d].state.Starting?))
    && (forall k :: k in w'.conns ==>
          && k in w.conns && SameWires(w.conns[k], w'.conns[k].(client := w.conns[k].client))
          && w'.conns[k].dport == w.conns[k].dport && w'.conns[k].sendable <= C.MAX_PAYLOAD
          && SameTrace(w.conns[k].h, w'.conns[k].h))
    && (forall k :: k in w'.pastConns ==>
          || (k in w.pastConns && SameTrace(w.pastConns[k], w'.pastConns[k]))
          || (k in w.conns && SameTrace(w.conns[k].h, w'.pastConns[k])))
    && w.nextConn <= w'.nextConn && w.nextDevice <= w'.nextDevice
  }

  predicate SameTrace(h: C.ConnHistory, h': C.ConnHistory) { h'.line == h.line && h'.tx == h.tx }

  lemma QuietTraced(w: World, w': World)
    requires Traced(w) && Quiet(w, w')
    ensures Traced(w')
  {
    hide Selected, Recorded;
    forall k | k in w'.conns
      ensures ConnTraced(w', k)
    {
      assert ConnTraced(w, k);
    }
    forall k | k in w'.pastConns
      ensures PastTraced(w', k)
    {
      if k in w.pastConns && SameTrace(w.pastConns[k], w'.pastConns[k]) {
        assert PastTraced(w, k);
      } else {
        assert ConnTraced(w, k);
      }
    }
  }

  /** A change to one connection that its device does not see. */
  lemma ConnChanged(w: World, k: nat, kn: C.Conn)
    requires Traced(w) && k in w.conns && SameTrace(w.conns[k].h, kn.h) && kn.sendable <= C.MAX_PAYLOAD
    requires kn.dev == w.conns[k].dev && kn.sport == w.conns[k].sport && kn.dport == w.conns[k].dport
    ensures Traced(SetConn(w, k, kn))
  {
    hide OnWire, PortsDistinct;
    forall j | j in w.conns
      ensures w.conns[j].sendable <= C.MAX_PAYLOAD
    {
      assert ConnTraced(w, j);
    }
    QuietTraced(w, SetConn(w, k, kn));
  }

  lemma SendableBound(w: World)
    requires Traced(w)
    ensures forall k :: k in w.conns ==> w.conns[k].sendable <= C.MAX_PAYLOAD
  {
    hide OnWire, PortsDistinct;
    forall k | k in w.conns
      ensures w.conns[k].sendable <= C.MAX_PAYLOAD
    {
      assert ConnTraced(w, k);
    }
  }

  lemma ClientsChanged(w: World, w': World)
    requires Traced(w) && w' == w.(clients := w'.clients, pastClients := w'.pastClients, clock := w'.clock,
                                   nextClient := w'.nextClient, faults := w'.faults)
    ensures Traced(w')
  {
    hide PortsDistinct, ConnTraced, PastTraced;
    SendableBound(w);
    QuietTraced(w, w');
  }

  // ---- One more packet ----

  lemma SelectedSnoc(version: nat, pkts: seq<seq<byte>>, pkt: seq<byte>, sport: u16, dport: u16)
    ensures Selected(version, pkts + [pkt], sport, dport)
            == Selected(version, pkts, sport, dport) + Pick(version, pkt, sport, dport)
  {
    hide Pick;
    assert (pkts + [pkt])[..|pkts|] == pkts;
  }

  lemma RecordedSnoc(tx: seq<C.Segment>, s: C.Segment)
    ensures Recorded(tx + [s]) == Recorded(tx) + [Datagram(s.th, s.data)]
  {
  }

  /** The device has been sent one more packet. */
  predicate Longer(dev: D.Device, dev': D.Device, pkt: seq<byte>)
  {
    && dev'.version == dev.version && dev'.h.wire == dev.h.wire + [pkt]
    && (dev'.state.Starting? ==> dev.state.Starting?)
  }

  lemma AlongSnoc(dev: D.Device, dev': D.Device, pkt: seq<byte>, line: C.Line)
    requires Longer(dev, dev', pkt) && line.born <= |dev.h.wire|
    ensures Along(dev', line) == Along(dev, line) + Pick(dev.version, pkt, line.sport, line.dport)
  {
    hide Selected, Pick;
    SelectedSnoc(dev.version, dev.h.wire[line.born..], pkt, line.sport, line.dport);
    assert dev'.h.wire[line.born..] == dev.h.wire[line.born..] + [pkt];
  }

  /** A packet that is not for connection h. */
  lemma StrayOnWire(devices: map<nat, D.Device>, h: C.ConnHistory, live: bool, d: nat, dev': D.Device, pkt: seq<byte>)
    requires OnWire(devices, h, live) && d in devices && Longer(devices[d], dev', pkt)
    requires live && h.line.dev == d ==> Pick(devices[d].version, pkt, h.line.sport, h.line.dport) == []
    ensures OnWire(devices[d := dev'], h, live)
  {
    hide Along, Pick, Recorded;
    if h.line.dev == d {
      AlongSnoc(devices[d], dev', pkt, h.line);
    }
  }

  lemma StrayTraced(w: World, d: nat, dev': D.Device, pkt: seq<byte>)
    requires Traced(w) && d in w.devices && Longer(w.devices[d], dev', pkt)
    requires forall k :: k in w.conns && w.conns[k].dev == d ==>
               Pick(w.devices[d].version, pkt, w.conns[k].sport, w.conns[k].dport) == []
    ensures Traced(SetDevice(w, d, dev'))
  {
    hide OnWire, Pick, PortsDistinct, Longer;
    var w' := SetDevice(w, d, dev');
    forall k | k in w.conns
      ensures ConnTraced(w', k)
    {
      assert ConnTraced(w, k);
      StrayOnWire(w.devices, w.conns[k].h, true, d, dev', pkt);
    }
    forall k | k in w.pastConns
      ensures PastTraced(w', k)
    {
      assert PastTraced(w, k);
      StrayOnWire(w.devices, w.pastConns[k], false, d, dev', pkt);
    }
    PortsKept(w, w');
  }

  /** send_packet of a TCP packet that fits. */
  function TcpPacket(dev: D.Device, th: TcpHeader, data: seq<byte>): seq<byte>
  {
    var v2 := dev.version >= 2;
    Build(dev.version, Tcp, TcpBytes(th), data,
          if v2 then D.Word(dev.txSeq) else 0, if v2 then D.Word(dev.rxSeq) else 0)
  }

  lemma PacketPicked(dev: D.Device, th: TcpHeader, data: seq<byte>, sport: u16, dport: u16)
    requires |data| <= C.MAX_PAYLOAD
    ensures Longer(dev, D.SendPacket(dev, Tcp, TcpBytes(th), data), TcpPacket(dev, th, data))
    ensures Pick(dev.version, TcpPacket(dev, th, data), sport, dport) ==
            if th.sport == sport && th.dport == dport then [Datagram(th, data)] else []
  {
    hide TcpBytes, Build, Parse;
    var v2 := dev.version >= 2;
    TcpRoundTrip(dev.version, th, data, if v2 then D.Word(dev.txSeq) else 0, if v2 then D.Word(dev.rxSeq) else 0);
  }

  /** send_tcp */
  lemma SendTraced(env: Env, w: World, k: nat, flags: byte, data: seq<byte>)
    requires Traced(w) && |data| <= C.MAX_PAYLOAD
    ensures Traced(SendTcp(env, w, k, flags, data))
  {
    hide OnWire, Pick, PortsDistinct, Longer, TcpBytes, D.SendPacket, TcpPacket, Recorded;
    if k !in w.conns || w.conns[k].dev !in w.devices {
      ClientsChanged(w, Fault(w));
    } else {
      var kn, d := w.conns[k], w.conns[k].dev;
      var th := C.SegmentHeader(kn, flags);
      var dev' := D.SendPacket(w.devices[d], Tcp, TcpBytes(th), data);
      var pkt := TcpPacket(w.devices[d], th, data);
      var w' := SendTcp(env, w, k, flags, data);
      PacketPicked(w.devices[d], th, data, kn.sport, kn.dport);
      assert ConnTraced(w, k);
      SegmentOnWire(w.devices, kn, flags, data, TcpOk(env, w, k, |data|), w.clock, d, dev', pkt);
      forall j | j in w.conns
        ensures ConnTraced(w', j)
      {
        assert ConnTraced(w, j);
        if j != k {
          if w.conns[j].dev == d {
            OtherPorts(w, j, k);
            PacketPicked(w.devices[d], th, data, w.conns[j].sport, w.conns[j].dport);
          }
          StrayOnWire(w.devices, w.conns[j].h, true, d, dev', pkt);
        }
      }
      forall j | j in w.pastConns
        ensures PastTraced(w', j)
      {
        assert PastTraced(w, j);
        StrayOnWire(w.devices, w.pastConns[j], false, d, dev', pkt);
      }
      PortsKept(w, w');
    }
  }

  lemma OtherPorts(w: World, j: nat, k: nat)
    requires PortsDistinct(w) && j in w.conns && k in w.conns && j != k && w.conns[j].dev == w.conns[k].dev
    ensures w.conns[j].sport != w.conns[k].sport
  {
  }

  lemma SegmentOnWire(devices: map<nat, D.Device>, kn: C.Conn, flags: byte, data: seq<byte>, ok: bool, now: nat, d: nat,
                      dev': D.Device, pkt: seq<byte>)
    requires OnWire(devices, kn.h, true) && kn.h.line.dev == d && d in devices && Longer(devices[d], dev', pkt)
    requires Pick(devices[d].version, pkt, kn.h.line.sport, kn.h.line.dport)
             == [Datagram(C.SegmentHeader(kn, flags), data)]
    ensures OnWire(devices[d := dev'], C.SendTcp(kn, flags, data, ok, now).h, true)
  {
    hide Along, Pick, Recorded;
    AlongSnoc(devices[d], dev', pkt, kn.h.line);
    RecordedSnoc(kn.h.tx, C.SegmentOf(kn, flags, data, ok, now));
  }

  // ---- Teardown and close ----

  lemma ResetTraced(env: Env, w: World, k: nat)
    requires Traced(w)
    ensures Traced(Reset(env, w, k))
  {
    hide Traced, SendTcp;
    SendTraced(env, w, k, RST, []);
    ClientsChanged(w, Fault(w));
  }

  lemma BuryTraced(env: Env, w: World, k: nat, c: nat)
    requires Traced(w) && k in w.conns
    ensures Traced(Bury(env, w, k, c))
  {
    hide Traced, FlushLength, L.RawSent;
    SendableBound(w);
    var kn := C.Flushed(w.conns[k], FlushLength(env, w, k, c)).(state := C.Dead);
    ConnChanged(w, k, kn);
    ClientsChanged(SetConn(w, k, kn), Bury(env, w, k, c));
  }

  /** Dropping a connection with what is recorded for it. */
  lemma DroppedTraced(w: World, k: nat, h: C.ConnHistory)
    requires Traced(w)
    requires if k in w.conns then SameTrace(w.conns[k].h, h) else k in w.pastConns && SameTrace(w.pastConns[k], h)
    ensures Traced(w.(conns := w.conns - {k}, pastConns := w.pastConns[k := h]))
  {
    hide OnWire;
    var w' := w.(conns := w.conns - {k}, pastConns := w.pastConns[k := h]);
    forall j | j in w'.conns
      ensures ConnTraced(w', j)
    {
      assert ConnTraced(w, j);
    }
    forall j | j in w'.pastConns
      ensures PastTraced(w', j)
    {
      if j != k {
        assert PastTraced(w, j);
      } else if k in w.conns {
        assert ConnTraced(w, k);
        LiveIsPast(w.devices, w.conns[k].h, h);
      } else {
        assert PastTraced(w, k);
        SameOnWire(w.devices, w.pastConns[k], h);
      }
    }
    PortsKept(w, w');
  }

  lemma LiveIsPast(devices: map<nat, D.Device>, h: C.ConnHistory, h': C.ConnHistory)
    requires OnWire(devices, h, true) && SameTrace(h, h')
    ensures OnWire(devices, h', false)
  {
    hide Along, Recorded;
  }

  lemma SameOnWire(devices: map<nat, D.Device>, h: C.ConnHistory, h': C.ConnHistory)
    requires OnWire(devices, h, false) && SameTrace(h, h')
    ensures OnWire(devices, h', false)
  {
    hide Along, Recorded;
  }

  lemma FreeTraced(w: World, k: nat)
    requires Traced(w)
    ensures Traced(FreeConn(w, k))
  {
    hide Traced;
    if k in w.conns || k in w.pastConns {
      var h := if k in w.conns then w.conns[k].h else w.pastConns[k];
      DroppedTraced(w, k, h.(frees := h.frees + 1));
      var w' := w.(conns := w.conns - {k}, pastConns := w.pastConns[k := h.(frees := h.frees + 1)]);
      assert k !in w.conns ==> w.conns - {k} == w.conns;
      ClientsChanged(w', Fault(w'));
    } else {
      ClientsChanged(w, Fault(w));
    }
  }

  lemma {:induction false} TeardownTraced(env: Env, w: World, k: nat)
    requires Traced(w)
    ensures Traced(Teardown(env, w, k))
    decreases Owned(w), 3
  {
    hide Traced, ClientClose, Bury, NotifyRefused, Reset, FreeConn;
    if k !in w.conns {
      ClientsChanged(w, Fault(w));
    } else if !w.conns[k].state.Dead? {
      var kn, quiet := w.conns[k], Reset(env, w, k);
      ResetTraced(env, w, k);
      if kn.client.None? {
        FreeTraced(quiet, k);
      } else if kn.state.Refused? || kn.state.Connecting? {
        NotifyTraced(env, quiet, kn.client.value);
        FreeTraced(NotifyRefused(env, quiet, kn.client.value), k);
      } else {
        var dead := Bury(env, quiet, k, kn.client.value);
        BuryTraced(env, quiet, k, kn.client.value);
        assert Owned(dead) == Owned(w);
        CloseTraced(env, dead, kn.client.value);
        FreeTraced(ClientClose(env, dead, kn.client.value), k);
      }
    }
  }

  lemma NotifyTraced(env: Env, w: World, c: nat)
    requires Traced(w)
    ensures Traced(NotifyRefused(env, w, c))
  {
    hide Traced, L.Notify;
    ClientsChanged(w, NotifyRefused(env, w, c));
  }

  lemma {:induction false} CloseTraced(env: Env, w: World, c: nat)
    requires Traced(w)
    ensures Traced(ClientClose(env, w, c))
    decreases Owned(w), 2
  {
    hide Traced, AbortConnect;
    if c in w.clients {
      var cl := w.clients[c];
      var w1 := w;
      if cl.state.Connecting1? || cl.state.Connecting2? {
        var gone := SetClient(w, c, cl.(state := L.Gone));
        ClientsChanged(w, gone);
        assert Owned(gone) == Owned(w);
        AbortTraced(env, gone, cl.connectDev, c);
        w1 := AbortConnect(env, gone, cl.connectDev, c);
      }
      ClientsChanged(w1, FreeClient(w1, c));
    }
  }

  lemma {:induction false} AbortTraced(env: Env, w: World, d: nat, c: nat)
    requires Traced(w)
    ensures Traced(AbortConnect(env, w, d, c))
    decreases Owned(w), 1
  {
    hide Traced, Teardown;
    var found := FindConn(w, d, c, w.nextConn);
    if found.Some? {
      var k := found.value;
      SendableBound(w);
      var orphaned := SetConn(w, k, w.conns[k].(client := None));
      ConnChanged(w, k, w.conns[k].(client := None));
      assert Owned(orphaned) == Owned(w) - {k};
      TeardownTraced(env, orphaned, k);
    }
  }

  // ---- Serving a connection ----

  lemma UpdateTraced(w: World, k: nat)
    requires Traced(w)
    ensures Traced(UpdateConnection(w, k))
  {
    hide Traced, L.SetEvents, C.InFlight;
    if k in w.conns {
      ConnChanged(w, k, C.Update(w.conns[k]));
      ClientsChanged(SetConn(w, k, C.Update(w.conns[k])), UpdateConnection(w, k));
    } else {
      ClientsChanged(w, Fault(w));
    }
  }

  lemma AckTraced(env: Env, w: World, k: nat)
    requires Traced(w)
    ensures Traced(SendTcpAck(env, w, k))
  {
    hide Traced, SendTcp, Teardown, UpdateConnection, TcpOk;
    SendTraced(env, w, k, ACK, []);
    UpdateTraced(SendTcp(env, w, k, ACK, []), k);
    TeardownTraced(env, SendTcp(env, w, k, ACK, []), k);
    ClientsChanged(w, Fault(w));
  }

  lemma ReadArmTraced(w: World, k: nat, c: nat, data: seq<byte>)
    requires Traced(w) && k in w.conns
    ensures Traced(ReadArm(w, k, c, data))
  {
    hide Traced, L.RawReceived;
    SendableBound(w);
    ConnChanged(w, k, C.Took(w.conns[k], data));
    ClientsChanged(SetConn(w, k, C.Took(w.conns[k], data)), ReadArm(w, k, c, data));
  }

  lemma WriteArmTraced(w: World, k: nat, c: nat, n: nat)
    requires Traced(w) && k in w.conns && n <= |w.conns[k].ib|
    ensures Traced(WriteArm(w, k, c, n))
  {
    hide Traced, L.RawSent;
    SendableBound(w);
    ConnChanged(w, k, C.Wrote(w.conns[k], n));
    ClientsChanged(SetConn(w, k, C.Wrote(w.conns[k], n)), WriteArm(w, k, c, n));
  }

  lemma AdvanceTraced(w: World, k: nat, n: nat)
    requires Traced(w)
    ensures Traced(AdvanceArm(w, k, n))
  {
    hide Traced;
    SendableBound(w);
    if k in w.conns {
      ConnChanged(w, k, C.Advance(w.conns[k], n));
    } else {
      ClientsChanged(w, Fault(w));
    }
  }

  lemma ReadTraced(env: Env, w: World, k: nat, c: nat, io: SocketResults)
    requires Traced(w) && k in w.conns
    ensures Traced(ProcessRead(env, w, k, c, io))
  {
    hide Traced, Teardown, UpdateConnection, SendTcp, TcpOk, ReadArm, AdvanceArm;
    UpdateTraced(w, k);
    TeardownTraced(env, w, k);
    ClientsChanged(w, Fault(w));
    TeardownTraced(env, Fault(w), k);
    SendableBound(w);
    if io.read.Some? && |io.read.value| <= w.conns[k].sendable {
      var data := io.read.value;
      var took := ReadArm(w, k, c, data);
      ReadArmTraced(w, k, c, data);
      SendTraced(env, took, k, ACK, data);
      var sent := SendTcp(env, took, k, ACK, data);
      TeardownTraced(env, sent, k);
      AdvanceTraced(sent, k, |data|);
      UpdateTraced(AdvanceArm(sent, k, |data|), k);
    }
  }

  lemma ProcessTraced(env: Env, w: World, d: nat, c: nat, io: SocketResults)
    requires Traced(w)
    ensures Traced(ClientProcess(env, w, d, c, io))
  {
    hide Traced, Teardown, ProcessRead;
    var found := FindConn(w, d, c, w.nextConn);
    if found.Some? {
      var k := found.value;
      TeardownTraced(env, w, k);
      ClientsChanged(w, Fault(w));
      TeardownTraced(env, Fault(w), k);
      ReadTraced(env, w, k, c, io);
      if io.write.Some? && 0 < io.write.value <= |w.conns[k].ib| {
        WriteArmTraced(w, k, c, io.write.value);
        ReadTraced(env, WriteArm(w, k, c, io.write.value), k, c, io);
      }
    }
  }

  // ---- Input from a device ----

  lemma EstablishTraced(env: Env, w: World, k: nat)
    requires Traced(w) && k in w.conns
    ensures Traced(Establish(env, w, k))
  {
    hide Traced, Teardown, UpdateConnection, SendTcp, D.SendOk, L.Notify;
    SendableBound(w);
    var shaken := SetConn(w, k, C.Handshake(w.conns[k]));
    ConnChanged(w, k, C.Handshake(w.conns[k]));
    SendTraced(env, shaken, k, ACK, []);
    var acked := SendTcp(env, shaken, k, ACK, []);
    TeardownTraced(env, acked, k);
    if TcpOk(env, shaken, k, 0) {
      Shapes.SendKeeps(env, shaken, k, ACK, []);
      UpTraced(env, w, acked, k);
    }
  }

  /** The rest of the handshake arm; the client is looked at before anything was sent. */
  lemma UpTraced(env: Env, w: World, acked: World, k: nat)
    requires Traced(acked) && k in acked.conns
    ensures
      var up := acked.conns[k].(state := C.Connected);
      && Traced(UpdateConnection(Fault(SetConn(acked, k, up)), k))
      && Traced(UpdateConnection(Teardown(env, SetConn(acked, k, up.(client := None)), k), k))
      && forall c, cl :: Traced(UpdateConnection(SetClient(SetConn(acked, k, up), c, cl), k))
  {
    hide Traced, Teardown, UpdateConnection;
    SendableBound(acked);
    var up := acked.conns[k].(state := C.Connected);
    ConnChanged(acked, k, up);
    ConnChanged(acked, k, up.(client := None));
    var raised := SetConn(acked, k, up);
    ClientsChanged(raised, Fault(raised));
    UpdateTraced(Fault(raised), k);
    TeardownTraced(env, SetConn(acked, k, up.(client := None)), k);
    UpdateTraced(Teardown(env, SetConn(acked, k, up.(client := None)), k), k);
    forall c, cl
      ensures Traced(UpdateConnection(SetClient(raised, c, cl), k))
    {
      ClientsChanged(raised, SetClient(raised, c, cl));
      UpdateTraced(SetClient(raised, c, cl), k);
    }
  }

  lemma SegmentTraced(env: Env, w: World, k: nat, th: TcpHeader, payload: seq<byte>)
    requires Traced(w) && k in w.conns
    ensures Traced(Segment(env, w, k, th, payload))
  {
    hide Traced, Teardown, Establish, SendTcpAck, UpdateConnection;
    SendableBound(w);
    var noted := C.NoteHeader(w.conns[k], th);
    ConnChanged(w, k, noted);
    ConnChanged(w, k, noted.(state := C.Refused));
    ConnChanged(w, k, noted.(state := C.Dying));
    TeardownTraced(env, SetConn(w, k, noted), k);
    TeardownTraced(env, SetConn(w, k, noted.(state := C.Refused)), k);
    TeardownTraced(env, SetConn(w, k, noted.(state := C.Dying)), k);
    EstablishTraced(env, SetConn(w, k, noted), k);
    InputTraced(env, SetConn(w, k, noted), k, payload);
    AckTraced(env, DeviceInput(env, SetConn(w, k, noted), k, payload), k);
  }

  lemma InputTraced(env: Env, w: World, k: nat, payload: seq<byte>)
    requires Traced(w) && k in w.conns
    ensures Traced(DeviceInput(env, w, k, payload))
  {
    hide Traced, Teardown, UpdateConnection;
    SendableBound(w);
    TeardownTraced(env, w, k);
    ConnChanged(w, k, C.Accept(w.conns[k], payload));
    UpdateTraced(SetConn(w, k, C.Accept(w.conns[k], payload)), k);
  }

  /** The reset for a segment without a connection meets no connection's ports. */
  lemma {:induction false} NoneFound(w: World, d: nat, sport: u16, dport: u16, n: nat)
    requires FindPorts(w, d, sport, dport, n).None?
    ensures forall k: nat :: k < n && k in w.conns && w.conns[k].dev == d ==>
              w.conns[k].sport != sport || w.conns[k].dport != dport
    decreases n
  {
    if n > 0 {
      NoneFound(w, d, sport, dport, n - 1);
    }
  }

  lemma TcpInputTraced(env: Env, w: World, d: nat, th: TcpHeader, payload: seq<byte>)
    requires Traced(w)
    ensures Traced(TcpInput(env, w, d, th, payload))
  {
    hide Traced, Segment, D.SendPacket, TcpBytes, FindPorts, Longer, Pick, TcpPacket;
    if d in w.devices && w.devices[d].state.Active? {
      match FindPorts(w, d, th.dport, th.sport, w.nextConn)
      case Some(k) => SegmentTraced(env, w, k, th, payload);
      case None =>
        var reset := TcpHeader(th.dport, th.sport, 0, th.seqno, RST, 0);
        var dev := w.devices[d];
        NoneFound(w, d, th.dport, th.sport, w.nextConn);
        BelowNext(w);
        forall k | k in w.conns && w.conns[k].dev == d
          ensures Pick(dev.version, TcpPacket(dev, reset, []), w.conns[k].sport, w.conns[k].dport) == []
        {
          PacketPicked(dev, reset, [], w.conns[k].sport, w.conns[k].dport);
        }
        PacketPicked(dev, reset, [], 0, 0);
        StrayTraced(w, d, D.SendPacket(dev, Tcp, TcpBytes(reset), []), TcpPacket(dev, reset, []));
    }
  }

  lemma BelowNext(w: World)
    requires Traced(w)
    ensures forall k :: k in w.conns ==> k < w.nextConn
  {
    hide OnWire, PortsDistinct;
    forall k | k in w.conns
      ensures k < w.nextConn
    {
      assert ConnTraced(w, k);
    }
  }

  /** A device that no connection has ever used may change in any way. */
  lemma FreshTraced(w: World, d: nat, dev: D.Device, next: nat)
    requires Traced(w) && w.nextDevice <= next
    requires (d in w.devices && w.devices[d].state.Starting?) || d >= w.nextDevice
    ensures Traced(SetDevice(w, d, dev).(nextDevice := next))
  {
    hide Along, Recorded;
    var w' := SetDevice(w, d, dev).(nextDevice := next);
    forall k | k in w'.conns
      ensures ConnTraced(w', k)
    {
      assert ConnTraced(w, k);
    }
    forall k | k in w'.pastConns
      ensures PastTraced(w', k)
    {
      assert PastTraced(w, k);
    }
    PortsKept(w, w');
  }

  /** Changes of devices that neither their wire nor their version show. */
  lemma DevicesTraced(w: World, w': World)
    requires Traced(w) && w' == w.(devices := w'.devices, nextDevice := w'.nextDevice)
    requires w.nextDevice <= w'.nextDevice
    requires forall d :: d in w'.devices ==>
               && d in w.devices && w'.devices[d].version == w.devices[d].version
               && w'.devices[d].h.wire == w.devices[d].h.wire
               && (w'.devices[d].state.Starting? ==> w.devices[d].state.Starting?)
    ensures Traced(w')
  {
    hide PortsDistinct, ConnTraced, PastTraced;
    SendableBound(w);
    QuietTraced(w, w');
  }

  lemma VersionTraced(w: World, d: nat, major: nat)
    requires Traced(w) && d in w.devices
    ensures Traced(VersionInput(w, d, major))
  {
    hide Traced, D.Negotiated;
    DevicesTraced(w, w.(devices := w.devices - {d}));
    if w.devices[d].state.Starting? {
      FreshTraced(w, d, D.Negotiated(w.devices[d], major), w.nextDevice);
    }
  }

  lemma PacketTraced(env: Env, w: World, d: nat, pkt: seq<byte>)
    requires Traced(w) && d in w.devices && |pkt| >= 8
    ensures Traced(PacketInput(env, w, d, pkt))
  {
    hide Traced, Parse, TcpInput, VersionInput, SeenField;
    var dev := w.devices[d];
    var seen := if dev.version >= 2 && |pkt| >= 16 then SetDevice(w, d, dev.(rxSeq := Some(SeenField(pkt)))) else w;
    DevicesTraced(w, seen);
    match Parse(dev.version, pkt)
    case VersionIn(major) => VersionTraced(seen, d, major);
    case TcpIn(th, payload) => TcpInputTraced(env, seen, d, th, payload);
    case _ =>
  }

  lemma DataInputTraced(env: Env, w: World, d: nat, chunk: seq<byte>)
    requires Traced(w)
    ensures Traced(DataInput(env, w, d, chunk))
  {
    hide Traced, Gather, PacketInput;
    if d in w.devices {
      var g := Gather(w.devices[d].buf, chunk);
      var kept := SetDevice(w, d, w.devices[d].(buf := g.buf));
      DevicesTraced(w, kept);
      if g.packet.Some? {
        PacketTraced(env, kept, d, g.packet.value);
      }
    }
  }

  // ---- Devices and timers ----

  lemma AddTraced(env: Env, w: World, info: seq<byte>)
    requires Traced(w)
    ensures Traced(DeviceAdd(env, w, info))
  {
    hide Traced, D.SendPacket, VersionBytes;
    var d := w.nextDevice;
    FreshTraced(w, d, D.SendPacket(D.NewDevice(info), Version, VersionBytes(2, 0), []), d + 1);
    DevicesTraced(w, w.(nextDevice := d + 1));
  }

  lemma AnnounceTraced(env: Env, w: World, d: nat, info: seq<byte>)
    requires Traced(w)
    ensures Traced(Announce(env, w, d, info))
  {
    hide Traced, L.Enqueue;
    var shown := if d in w.devices then SetDevice(w, d, w.devices[d].(visible := true)) else w;
    DevicesTraced(w, shown);
    ClientsChanged(shown, TellListeners(env, shown, Attached(d, info)));
  }

  lemma {:induction false} TeardownAllTraced(env: Env, w: World, d: nat, n: nat)
    requires Traced(w)
    ensures Traced(TeardownAll(env, w, d, n))
    decreases n
  {
    hide Traced, Teardown;
    if n > 0 {
      TeardownAllTraced(env, w, d, n - 1);
      TeardownTraced(env, TeardownAll(env, w, d, n - 1), n - 1);
    }
  }

  lemma RemoveTraced(env: Env, w: World, d: nat)
    requires Traced(w)
    ensures Traced(DeviceRemove(env, w, d))
  {
    hide Traced, TeardownAll, L.Enqueue;
    if d in w.devices {
      var clean := w;
      if w.devices[d].state.Active? {
        var gone := SetDevice(w, d, w.devices[d].(state := D.Removed));
        DevicesTraced(w, gone);
        TeardownAllTraced(env, gone, d, w.nextConn);
        var torn := TeardownAll(env, gone, d, w.nextConn);
        clean := TellListeners(env, torn, Detached(d));
        ClientsChanged(torn, clean);
      }
      DevicesTraced(clean, clean.(devices := clean.devices - {d}));
    }
  }

  lemma {:induction false} TickTraced(env: Env, w: World, n: nat)
    requires Traced(w)
    ensures Traced(CheckTimeouts(env, w, n))
    decreases n
  {
    hide Traced, SendTcpAck;
    if n > 0 {
      TickTraced(env, w, n - 1);
      AckTraced(env, CheckTimeouts(env, w, n - 1), n - 1);
    }
  }

  // ---- Commands ----

  /** device_start_connect: the SYN goes out on a port that no connection of the device has, and is the first packet
      of the new line. */
  lemma StartTraced(env: Env, w: World, d: nat, port: u16, c: nat)
    requires Traced(w) && (d in w.devices ==> !w.devices[d].state.Starting? && d < w.nextDevice)
    ensures Traced(StartConnect(env, w, d, port, c))
  {
    hide Traced, FindSport, D.SendPacket, TcpBytes, C.SendTcp, D.SendOk, PortsOf;
    if d in w.devices {
      var a := FindSport(w, d);
      var dev := w.devices[d].(nextSport := a.next);
      var moved := SetDevice(w, d, dev);
      DevicesTraced(w, moved);
      if a.port != 0 {
        var kn := C.NewConn(d, c, a.port, port, |dev.h.wire|);
        FreePort(w, d);
        SynTraced(moved, d, kn, w.clock);
        var dev' := D.SendPacket(dev, Tcp, TcpBytes(C.SegmentHeader(kn, SYN)), []);
        assert w.devices[d := dev][d := dev'] == w.devices[d := dev'];
      }
    }
  }

  lemma FreePort(w: World, d: nat)
    requires d in w.devices && FindSport(w, d).port != 0
    ensures forall k :: k in w.conns && w.conns[k].dev == d ==> w.conns[k].sport != FindSport(w, d).port
  {
    hide FindSport;
    FreshPort(w, d);
    forall k | k in w.conns && w.conns[k].dev == d
      ensures w.conns[k].sport in PortsOf(w, d)
    {
      assert k in ConnsOf(w, d);
    }
  }

  lemma SynTraced(w: World, d: nat, kn: C.Conn, now: nat)
    requires Traced(w) && d in w.devices && kn.dev == d && !w.devices[d].state.Starting? && d < w.nextDevice
    requires kn.h == C.NewHistory(C.Line(d, kn.sport, kn.dport, |w.devices[d].h.wire|)) && kn.sendable == 0
    requires forall k :: k in w.conns && w.conns[k].dev == d ==> w.conns[k].sport != kn.sport
    ensures
      var sent := SetDevice(w, d, D.SendPacket(w.devices[d], Tcp, TcpBytes(C.SegmentHeader(kn, SYN)), []));
      && Traced(sent)
      && Traced(SetConn(sent, w.nextConn, C.SendTcp(kn, SYN, [], true, now)).(nextConn := w.nextConn + 1))
  {
    hide Traced, D.SendPacket, TcpBytes, Longer, Pick, TcpPacket, C.SendTcp;
    var dev, th := w.devices[d], C.SegmentHeader(kn, SYN);
    var dev', pkt := D.SendPacket(dev, Tcp, TcpBytes(th), []), TcpPacket(dev, th, []);
    forall k | k in w.conns && w.conns[k].dev == d
      ensures Pick(dev.version, pkt, w.conns[k].sport, w.conns[k].dport) == []
    {
      PacketPicked(dev, th, [], w.conns[k].sport, w.conns[k].dport);
    }
    PacketPicked(dev, th, [], kn.sport, kn.dport);
    StrayTraced(w, d, dev', pkt);
    SynOnWire(w.devices, kn, now, d, dev', pkt);
    SynFrame(kn, now);
    NewTraced(SetDevice(w, d, dev'), C.SendTcp(kn, SYN, [], true, now));
  }

  lemma SynFrame(kn: C.Conn, now: nat)
    ensures
      var kn' := C.SendTcp(kn, SYN, [], true, now);
      kn'.dev == kn.dev && kn'.sport == kn.sport && kn'.dport == kn.dport && kn'.sendable == kn.sendable
      && kn'.h.line == kn.h.line
  {
  }

  /** A new line starts empty and has the SYN as its first packet. */
  lemma SynOnWire(devices: map<nat, D.Device>, kn: C.Conn, now: nat, d: nat, dev': D.Device, pkt: seq<byte>)
    requires d in devices && !devices[d].state.Starting? && Longer(devices[d], dev', pkt)
    requires kn.h == C.NewHistory(C.Line(d, kn.sport, kn.dport, |devices[d].h.wire|))
    requires Pick(devices[d].version, pkt, kn.sport, kn.dport) == [Datagram(C.SegmentHeader(kn, SYN), [])]
    ensures OnWire(devices[d := dev'], C.SendTcp(kn, SYN, [], true, now).h, true)
  {
    hide Pick;
    assert devices[d].h.wire[|devices[d].h.wire|..] == [];
    assert OnWire(devices, kn.h, true);
    SegmentOnWire(devices, kn, SYN, [], true, now, d, dev', pkt);
  }

  lemma NewTraced(w: World, kn: C.Conn)
    requires Traced(w) && kn.dev < w.nextDevice && kn.sendable <= C.MAX_PAYLOAD
    requires kn.h.line.dev == kn.dev && kn.h.line.sport == kn.sport && kn.h.line.dport == kn.dport
    requires OnWire(w.devices, kn.h, true)
    requires forall k :: k in w.conns && w.conns[k].dev == kn.dev ==> w.conns[k].sport != kn.sport
    ensures Traced(SetConn(w, w.nextConn, kn).(nextConn := w.nextConn + 1))
  {
    hide OnWire;
    var w' := SetConn(w, w.nextConn, kn).(nextConn := w.nextConn + 1);
    forall k | k in w'.conns
      ensures ConnTraced(w', k)
    {
      if k != w.nextConn {
        assert ConnTraced(w, k);
      }
    }
    forall k | k in w'.pastConns
      ensures PastTraced(w', k)
    {
      assert PastTraced(w, k);
    }
  }

  lemma ObeyTraced(env: Env, w: World, c: nat, cl: L.Client, m: Raw, o: Outside)
    requires Traced(w) && NamesActive(env, w, m, o.stale) && forall d :: d in w.devices ==> d < w.nextDevice
    ensures Traced(Obey(env, w, c, cl, m, o))
  {
    hide Traced, L.Interpret, L.Named, L.Enqueue, StartConnect, ConnectCode, AttachAll, ListDevices, TellPaired;
    hide D.SendPacket, FindSport;
    var w' := Obey(env, w, c, cl, m, o);
    match L.Interpret(env, m)
    case Connect =>
      var to := L.Named(env, m, o.stale);
      StartTraced(env, w, to.dev, to.port, c);
      ClientsChanged(StartConnect(env, w, to.dev, to.port, c), w');
    case Answer =>
      PairedTraced(env, w, o.paired);
      ClientsChanged(TellPaired(env, w, o.paired), w');
    case _ => ClientsChanged(w, w');
  }

  lemma PairedTraced(env: Env, w: World, paired: Option<nat>)
    requires Traced(w)
    ensures Traced(TellPaired(env, w, paired))
  {
    hide Traced, L.Enqueue;
    ClientsChanged(w, TellPaired(env, w, paired));
  }

  lemma ReadableTraced(env: Env, w: World, c: nat, got: seq<byte>, o: Outside)
    requires Traced(w) && forall d :: d in w.devices ==> d < w.nextDevice
    requires c in w.clients && w.clients[c].state.Commanding? ==> ConnectsToActive(env, w, c, got, o.stale)
    ensures Traced(Readable(env, w, c, got, o))
  {
    hide Traced, ClientClose, Obey, Decode, L.Enqueue, Need, NamesActive;
    if c in w.clients {
      var cl := w.clients[c];
      CloseTraced(env, w, c);
      if 0 < |got| <= Need(cl.ib) {
        match Receive(cl.ib, got)
        case Partial(ib) => ClientsChanged(w, SetClient(w, c, L.Buffered(cl, got, ib)));
        case BadLength =>
          ClientsChanged(w, SetClient(w, c, L.Spoilt(cl, got)));
          CloseTraced(env, SetClient(w, c, L.Spoilt(cl, got)), c);
        case Command(msg) =>
          WholeDecodes(msg);
          var cmd, m := L.Commanded(cl, got, msg), Decode(msg).value;
          if cl.state.Commanding? {
            ObeyTraced(env, w, c, L.Spoken(cmd, m), m, o);
          } else {
            var q := L.Enqueue(env, cmd, m.tag, Result(RESULT_BADCOMMAND));
            ClientsChanged(w, SetClient(w, c, q));
            CloseTraced(env, SetClient(w, c, q), c);
          }
          var done := HandleCommand(env, w, c, cmd, m, o);
          ClientsChanged(done, Fault(done));
      }
    }
  }

  lemma WritableTraced(env: Env, w: World, c: nat, n: nat)
    requires Traced(w)
    ensures Traced(Writable(env, w, c, n))
  {
    hide Traced, ClientClose, L.Sent;
    CloseTraced(env, w, c);
    if c in w.clients {
      var cl := w.clients[c];
      ClientsChanged(w, SetClient(w, c, cl.(events := cl.events.(pollOut := false))));
      if 0 < n <= |cl.ob| {
        ClientsChanged(w, SetClient(w, c, L.Sent(cl, n)));
      }
    }
  }

  // ---- Steps and runs ----

  lemma StepTraced(env: Env, w: World, t: Timed)
    requires Inv(env, w) && Traced(w) && Possible(env, w, t)
    ensures Traced(Step(env, w, t))
  {
    hide Inv, Traced, ConnectsToActive, Readable, Writable, ClientProcess, DeviceAdd, DataInput, Announce;
    hide DeviceRemove, CheckTimeouts;
    var w1 := w.(clock := t.now);
    ClientsChanged(w, w1);
    match t.event
    case Accept => ClientsChanged(w1, Act(env, w1, Event.Accept));
    case ClientReadable(c, got, o) =>
      if c in w.clients {
        ActiveFrame(env, w, t.now, c, got, o.stale);
      }
      VisibleBelowNext(env, w);
      ReadableTraced(env, w1, c, got, o);
    case ClientWritable(c, n) => WritableTraced(env, w1, c, n);
    case ClientServed(c, io) =>
      if c in w.clients {
        ProcessTraced(env, w1, w.clients[c].connectDev, c, io);
      }
    case Attach(info) => AddTraced(env, w1, info);
    case Transfer(d, chunk) => DataInputTraced(env, w1, d, chunk);
    case Show(d, info) => AnnounceTraced(env, w1, d, info);
    case Detach(d) => RemoveTraced(env, w1, d);
    case Tick => TickTraced(env, w1, w1.nextConn);
  }

  lemma {:induction false} RunTraced(env: Env, ts: seq<Timed>)
    requires PossibleRun(env, ts)
    ensures Traced(Run(env, ts))
    decreases |ts|
  {
    if ts != [] {
      hide Inv, Settled, Traced, Step, Possible;
      RunTraced(env, ts[..|ts| - 1]);
      RunKeeps(env, ts[..|ts| - 1]);
      StepTraced(env, Run(env, ts[..|ts| - 1]), ts[|ts| - 1]);
    }
  }

  /** Connection k is on the wire of its device as recorded. */
  ghost predicate LiveLine(w: World, k: nat)
    requires k in w.conns
  {
    var kn := w.conns[k];
    && kn.dev in w.devices && kn.h.line.born <= |w.devices[kn.dev].h.wire|
    && var dev := w.devices[kn.dev];
       Selected(dev.version, dev.h.wire[kn.h.line.born..], kn.sport, kn.dport) == Recorded(kn.h.tx)
  }

  /** So is a connection that is gone, as far as its device is still there. */
  ghost predicate PastLine(w: World, h: C.ConnHistory)
  {
    h.line.dev in w.devices ==>
      var dev := w.devices[h.line.dev];
      && h.line.born <= |dev.h.wire|
      && Recorded(h.tx) <= Selected(dev.version, dev.h.wire[h.line.born..], h.line.sport, h.line.dport)
  }

  /** After every run, the TCP packets that a device has been sent with the ports of a live connection, since that
      connection was created, are the segments recorded for it, all of them and in order; those of a connection that
      is gone begin with the segments recorded for it. */
  lemma WireCarriesRuns(env: Env, ts: seq<Timed>)
    requires PossibleRun(env, ts)
    ensures
      var w := Run(env, ts);
      && (forall k :: k in w.conns ==> LiveLine(w, k))
      && (forall k :: k in w.pastConns ==> PastLine(w, w.pastConns[k]))
  {
    hide Run, PossibleRun, Inv, Selected, Recorded;
    RunKeeps(env, ts);
    RunTraced(env, ts);
    var w := Run(env, ts);
    forall k | k in w.conns
      ensures LiveLine(w, k)
    {
      ConnFacts(env, w, k);
      assert ConnTraced(w, k);
    }
    forall k | k in w.pastConns
      ensures PastLine(w, w.pastConns[k])
    {
      assert PastTraced(w, k);
    }
  }
}
