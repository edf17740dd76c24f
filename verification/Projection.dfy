/** What one step of the daemon can do to one established connection. */
module Projection {
  import opened Basics
  import opened MuxPacket
  import opened Assembler
  import opened ClientMessage
  import opened CommandFraming
  import opened Environment
  import opened Daemon
  import opened Invariant
  import opened Release
  import opened Serving
  import opened DeviceSteps
  import opened ClientSteps
  import opened Reachable
  import C = Connection
  import L = Client
  import D = Device

  /** The connection that the segment in a transfer is for, if the transfer completes one. */
  datatype Arrival = Nothing | Arrival(k: nat, th: TcpHeader, payload: seq<byte>)

  function PacketArrival(w: World, d: nat, pkt: seq<byte>): Arrival
    requires d in w.devices && |pkt| >= 8
  {
    match Parse(w.devices[d].version, pkt)
    case TcpIn(th, payload) =>
      var found := FindPorts(w, d, th.dport, th.sport, w.nextConn);
      if w.devices[d].state.Active? && found.Some? then Arrival(found.value, th, payload) else Nothing
    case _ => Nothing
  }

  function ArrivalOf(w: World, e: Event): Arrival
  {
    if !e.Transfer? || e.d !in w.devices then Nothing
    else match Gather(w.devices[e.d].buf, e.chunk).packet
      case Some(pkt) => PacketArrival(w, e.d, pkt)
      case None => Nothing
  }

  /** No connection that survives has changed. */
  predicate KeepsConns(w: World, w': World)
  {
    forall k :: k in w.conns && k in w'.conns ==> w'.conns[k] == w.conns[k]
  }

  lemma LocalKeeps(w: World, w': World, k: nat, c: nat, d: nat)
    requires Local(w, w', k, c, d)
    ensures forall j :: j in w.conns && j in w'.conns && j != k ==> w'.conns[j] == w.conns[j]
    ensures forall j :: j != k ==> (j in w.conns <==> j in w'.conns)
    ensures k in w'.conns ==> k in w.conns && SameWires(w.conns[k], w'.conns[k])
  {
    forall j | j != k
      ensures j in w.conns <==> j in w'.conns
      ensures j in w.conns && j in w'.conns ==> w'.conns[j] == w.conns[j]
    {
      assert j in w.conns <==> j in w.conns - {k};
      assert j in w'.conns <==> j in w'.conns - {k};
    }
  }

  // ---- Steps of clients that are not joined ----

  lemma CloseConns(env: Env, w: World, c: nat, cl: L.Client)
    requires Inv(env, w) && c in w.clients && !w.clients[c].state.Joined?
    requires cl.state == w.clients[c].state && cl.connectDev == w.clients[c].connectDev
    requires cl.h.conn == w.clients[c].h.conn && L.Quits(env, cl.h)
    ensures KeepsConns(w, ClientClose(env, SetClient(w, c, cl), c))
  {
    hide Inv, ClientClose, Stream, Local, PairOk, L.Single, L.Quits;
    LinkOf(env, w, c);
    if Linked(cl.state) {
      var k := cl.h.conn.value;
      CloseKeeps(env, w, k, c, cl);
      LocalKeeps(w, ClientClose(env, SetClient(w, c, cl), c), k, c, w.conns[k].dev);
    } else {
      SingleCloses(env, w, c, cl);
    }
  }

  lemma ObeyConns(env: Env, w: World, c: nat, cl: L.Client, m: Raw, o: Outside)
    requires w.nextConn !in w.conns
    ensures KeepsConns(w, Obey(env, w, c, cl, m, o))
  {
    hide L.Interpret, AttachAll, L.Enqueue, FindSport, D.SendPacket, TcpBytes, C.SendTcp, ConnectCode, L.Named;
    hide ListDevices;
  }

  lemma ReadableConns(env: Env, w: World, c: nat, got: seq<byte>, o: Outside)
    requires Inv(env, w)
    requires c in w.clients ==> !w.clients[c].state.Joined? && w.clients[c].events.pollIn
    ensures KeepsConns(w, Readable(env, w, c, got, o))
  {
    hide Inv, ClientClose, Need, L.Single, L.Pending, Stream, Obey, KeepsConns, PairOk, Decode, L.Quits;
    NextConnIsFree(env, w);
    SameConns(w, c);
    if c in w.clients {
      var cl := w.clients[c];
      ReadersSpeak(env, w, c);
      L.MayQuit(env, cl);
      if !(0 < |got| <= Need(cl.ib)) {
        assert SetClient(w, c, cl) == w;
        CloseConns(env, w, c, cl);
      } else {
        match Receive(cl.ib, got)
        case Partial(ib) =>
        case BadLength =>
          L.SpoiltQuits(env, cl, got);
          CloseConns(env, w, c, L.Spoilt(cl, got));
        case Command(msg) =>
          WholeDecodes(msg);
          var cmd, m := L.Commanded(cl, got, msg), Decode(msg).value;
          if cl.state.Commanding? {
            ObeyConns(env, w, c, L.Spoken(cmd, m), m, o);
          } else {
            L.RebukeQuits(env, cl, got, msg, m);
            CloseConns(env, w, c, L.Enqueue(env, cmd, m.tag, Result(RESULT_BADCOMMAND)));
          }
          FaultConns(w, HandleCommand(env, w, c, cmd, m, o));
      }
    }
  }

  lemma FaultConns(w: World, w': World)
    requires KeepsConns(w, w')
    ensures KeepsConns(w, Fault(w'))
  {
  }

  lemma SameConns(w: World, c: nat)
    ensures KeepsConns(w, w)
    ensures forall cl :: KeepsConns(w, SetClient(w, c, cl))
  {
  }

  lemma WritableConns(env: Env, w: World, c: nat, n: nat)
    requires Inv(env, w)
    requires c in w.clients ==> !w.clients[c].state.Joined? && w.clients[c].events.pollOut
    ensures KeepsConns(w, Writable(env, w, c, n))
  {
    hide Inv, ClientClose, L.Answered, L.Awaits, Stream, L.AllWhole, Concat, AnnouncedOnce, Seen, C.Waiting;
    hide C.Established, KeepsConns;
    SameConns(w, c);
    if c in w.clients {
      LinkOf(env, w, c);
      var cl := w.clients[c];
      if cl.ob != [] && !(0 < n <= |cl.ob|) {
        assert SetClient(w, c, cl) == w;
        L.MayQuit(env, cl);
        CloseConns(env, w, c, cl);
      }
    }
  }

  // ---- Steps of devices ----

  lemma {:induction false} TeardownAllConns(env: Env, w: World, d: nat, n: nat)
    requires Inv(env, w)
    ensures Inv(env, TeardownAll(env, w, d, n)) && KeepsConns(w, TeardownAll(env, w, d, n))
    ensures TeardownAll(env, w, d, n).conns.Keys <= w.conns.Keys
    decreases n
  {
    hide Inv, Teardown, Local;
    if n > 0 {
      TeardownAllConns(env, w, d, n - 1);
      var w1 := TeardownAll(env, w, d, n - 1);
      var k := n - 1;
      if k in w1.conns && w1.conns[k].dev == d {
        TeardownAsIs(env, w1, k);
        LocalKeeps(w1, Teardown(env, w1, k), k, w1.conns[k].client.value, d);
      }
    }
  }

  lemma RemoveConns(env: Env, w: World, d: nat)
    requires Inv(env, w)
    ensures KeepsConns(w, DeviceRemove(env, w, d))
  {
    hide Inv, TeardownAll, TellListeners, D.Consistent;
    if d in w.devices && w.devices[d].state.Active? {
      var dev := w.devices[d].(state := D.Removed);
      ConsistentFrame(env, w, d, dev);
      DeviceUpdated(env, w, d, dev);
      var gone := SetDevice(w, d, dev);
      TeardownAllConns(env, gone, d, w.nextConn);
      ToldFrame(env, TeardownAll(env, gone, d, w.nextConn), Detached(d));
    }
  }

  lemma {:induction false} FindPortsFrame(w: World, w': World, d: nat, sport: u16, dport: u16, n: nat)
    requires w'.conns == w.conns
    ensures FindPorts(w', d, sport, dport, n) == FindPorts(w, d, sport, dport, n)
  {
    if n > 0 {
      FindPortsFrame(w, w', d, sport, dport, n - 1);
    }
  }

  /** The connection the segment is for is served or torn down; every other connection is left alone. */
  predicate ArrivalMoves(w: World, w': World, a: Arrival)
  {
    forall k :: k in w.conns && k in w'.conns ==>
      if a.Arrival? && k == a.k then
        && (w.conns[k].state.Connecting? ==> NewlyUp(w'.conns[k]))
        && (w.conns[k].state.Connected? ==>
              && a.th.flags == ACK && !C.Overflows(w.conns[k], a.payload)
              && w'.conns[k] == C.Received(w.conns[k], a.th, a.payload, w.clock))
      else w'.conns[k] == w.conns[k]
  }

  lemma TcpInputMoves(env: Env, w: World, d: nat, th: TcpHeader, payload: seq<byte>)
    requires Inv(env, w) && d in w.devices
    ensures
      var found := FindPorts(w, d, th.dport, th.sport, w.nextConn);
      var a := if w.devices[d].state.Active? && found.Some? then Arrival(found.value, th, payload) else Nothing;
      ArrivalMoves(w, TcpInput(env, w, d, th, payload), a)
  {
    hide Inv, Local, Segment, D.SendPacket, TcpBytes, C.Received, C.Overflows, NewlyUp;
    var found := FindPorts(w, d, th.dport, th.sport, w.nextConn);
    if w.devices[d].state.Active? && found.Some? {
      var k := found.value;
      SegmentKeeps(env, w, k, th, payload);
      LocalKeeps(w, Segment(env, w, k, th, payload), k, w.conns[k].client.value, d);
    }
  }

  lemma PacketMoves(env: Env, w: World, d: nat, pkt: seq<byte>)
    requires Inv(env, w) && Settled(w) && d in w.devices && |pkt| >= 8
    ensures ArrivalMoves(w, PacketInput(env, w, d, pkt), PacketArrival(w, d, pkt))
  {
    hide Inv, Settled, Parse, TcpInput, SeenField, C.Received, C.Overflows, FindPorts, D.Negotiated, NewlyUp;
    var dev := w.devices[d];
    var seen := if dev.version >= 2 && |pkt| >= 16 then SetDevice(w, d, dev.(rxSeq := Some(SeenField(pkt)))) else w;
    if dev.version >= 2 && |pkt| >= 16 {
      DeviceNoted(env, w, d, dev.(rxSeq := Some(SeenField(pkt))));
    }
    match Parse(dev.version, pkt)
    case TcpIn(th, payload) =>
      FindPortsFrame(w, seen, d, th.dport, th.sport, w.nextConn);
      TcpInputMoves(env, seen, d, th, payload);
    case _ =>
  }

  lemma DataInputMoves(env: Env, w: World, d: nat, chunk: seq<byte>)
    requires Inv(env, w) && Settled(w)
    ensures ArrivalMoves(w, DataInput(env, w, d, chunk), ArrivalOf(w, Transfer(d, chunk)))
  {
    hide Inv, Settled, Gather, PacketInput, C.Received, C.Overflows, FindPorts, Parse, NewlyUp;
    if d in w.devices {
      var g := Gather(w.devices[d].buf, chunk);
      DeviceNoted(env, w, d, w.devices[d].(buf := g.buf));
      var kept := SetDevice(w, d, w.devices[d].(buf := g.buf));
      if g.packet.Some? {
        var pkt := g.packet.value;
        PacketMoves(env, kept, d, pkt);
        match Parse(kept.devices[d].version, pkt)
        case TcpIn(th, payload) => FindPortsFrame(w, kept, d, th.dport, th.sport, w.nextConn);
        case _ =>
      }
    }
  }

  // ---- The timer and joined clients ----

  /** A connection after the timer has looked at the first n connections. */
  predicate Ticked(w: World, w': World, k: nat, n: nat)
  {
    k in w.conns && k in w'.conns ==>
      || w'.conns[k] == w.conns[k]
      || (k < n && w.conns[k].state.Connected? && w'.conns[k] == C.Acknowledged(w.conns[k], w.clock))
  }

  lemma {:induction false} TickMoves(env: Env, w: World, n: nat)
    requires Inv(env, w) && Settled(w)
    ensures
      var w' := CheckTimeouts(env, w, n);
      && Inv(env, w') && w'.clock == w.clock && w'.conns.Keys <= w.conns.Keys
      && forall k :: Ticked(w, w', k, n)
    decreases n
  {
    hide Inv, Settled, Local, SendTcpAck, C.Acknowledged;
    if n > 0 {
      TickMoves(env, w, n - 1);
      var w1 := CheckTimeouts(env, w, n - 1);
      if Overdue(w1, n - 1) {
        TimeoutKeeps(env, w1, n - 1);
        var w2 := SendTcpAck(env, w1, n - 1);
        var c, d := w1.conns[n - 1].client.value, w1.conns[n - 1].dev;
        LocalKeeps(w1, w2, n - 1, c, d);
        LocalClock(w1, w2, n - 1, c, d);
        forall k
          ensures Ticked(w, w2, k, n)
        {
          assert Ticked(w, w1, k, n - 1);
        }
      } else {
        forall k
          ensures Ticked(w, w1, k, n)
        {
          assert Ticked(w, w1, k, n - 1);
        }
      }
    }
  }

  lemma LocalClock(w: World, w': World, k: nat, c: nat, d: nat)
    requires Local(w, w', k, c, d)
    ensures w'.clock == w.clock
  {
  }

  /** Serving client c moves what its connection can move, and leaves every other connection alone. */
  predicate Serves(env: Env, w: World, w': World, c: nat, io: SocketResults, k: nat)
    requires k in w.conns
  {
    var kn := w.conns[k];
    if kn.client == Some(c) then
      && kn.state.Connected? && kn.dev in w.devices
      && (k in w'.conns <==> WritesWell(kn, io) && ReadsWell(kn, io) && SendsWell(env, w, kn, io))
      && (k in w'.conns ==> w'.conns[k] == C.Served(kn, Written(kn, io), Taken(kn, io), w.clock))
    else k in w'.conns && w'.conns[k] == kn
  }

  lemma ServedMoves(env: Env, w: World, c: nat, io: SocketResults, k: nat)
    requires Inv(env, w) && c in w.clients && w.clients[c].state.Joined? && k in w.conns
    ensures Serves(env, w, ClientProcess(env, w, w.clients[c].connectDev, c, io), c, io, k)
  {
    hide Inv, ProcessWrite, Local, L.Single, C.Served, C.Established, L.InStream;
    LinkOf(env, w, c);
    var j := w.clients[c].h.conn.value;
    InvWires(env, w, j);
    FindConnIs(w, j, c, w.nextConn);
    ProcessKeeps(env, w, j, c, io);
    LocalKeeps(w, ProcessWrite(env, w, j, c, io), j, c, w.conns[j].dev);
  }

  /** All that a step can do to an established connection that survives it. */
  predicate OneMove(kn: C.Conn, kn': C.Conn, a: Arrival, t: Timed, k: nat)
  {
    if a.Arrival? && a.k == k then
      a.th.flags == ACK && !C.Overflows(kn, a.payload) && kn' == C.Received(kn, a.th, a.payload, t.now)
    else
      || kn' == kn
      || (t.event.Tick? && kn' == C.Acknowledged(kn, t.now))
      || (t.event.ClientServed? && kn.client == Some(t.event.c)
          && WritesWell(kn, t.event.io) && ReadsWell(kn, t.event.io)
          && kn' == C.Served(kn, Written(kn, t.event.io), Taken(kn, t.event.io), t.now))
  }

  /** A step leaves an established connection alone unless a segment for it arrived, its client was served or
      its acknowledgement fell due; and then it does what the connection's own code says. A connection that
      waits for its handshake stays as it is or comes up empty. */
  lemma StepMoves(env: Env, w: World, t: Timed, k: nat)
    requires Inv(env, w) && Settled(w) && Possible(env, w, t) && k in w.conns && k in Step(env, w, t).conns
    ensures w.conns[k].state.Connected? ==> OneMove(w.conns[k], Step(env, w, t).conns[k], ArrivalOf(w, t.event), t, k)
    ensures w.conns[k].state.Connecting? ==>
              Step(env, w, t).conns[k] == w.conns[k] || NewlyUp(Step(env, w, t).conns[k])
  {
    hide Inv, Settled, ConnectsToActive, Readable, Writable, ClientProcess, DeviceAdd, DataInput, Announce;
    hide DeviceRemove, CheckTimeouts;
    hide ArrivalOf, C.Received, C.Acknowledged, C.Overflows, C.Served, NewlyUp;
    var w1 := w.(clock := t.now);
    ClockAdvanced(env, w, t.now);
    ClockSettled(w, t.now);
    NoArrival(w, t.event);
    match t.event
    case Accept =>
    case ClientReadable(c, got, o) => ReadableConns(env, w1, c, got, o);
    case ClientWritable(c, n) => WritableConns(env, w1, c, n);
    case ClientServed(c, io) =>
      if c in w.clients {
        ServedMoves(env, w1, c, io, k);
      }
    case Attach(info) => AddConns(env, w1, info);
    case Transfer(d, chunk) =>
      DataInputMoves(env, w1, d, chunk);
      ArrivalFrame(w, w1, t.event);
    case Show(d, info) => ShowConns(env, w1, d, info);
    case Detach(d) => RemoveConns(env, w1, d);
    case Tick =>
      TickMoves(env, w1, w1.nextConn);
      assert Ticked(w1, CheckTimeouts(env, w1, w1.nextConn), k, w1.nextConn);
  }

  lemma NoArrival(w: World, e: Event)
    ensures !e.Transfer? ==> ArrivalOf(w, e) == Nothing
  {
  }

  lemma AddConns(env: Env, w: World, info: seq<byte>)
    ensures DeviceAdd(env, w, info).conns == w.conns
  {
  }

  lemma ShowConns(env: Env, w: World, d: nat, info: seq<byte>)
    ensures Announce(env, w, d, info).conns == w.conns
  {
  }

  lemma ArrivalFrame(w: World, w': World, e: Event)
    requires w' == w.(clock := w'.clock)
    ensures ArrivalOf(w', e) == ArrivalOf(w, e)
  {
    hide Gather, Parse, FindPorts;
    if e.Transfer? && e.d in w.devices && Gather(w.devices[e.d].buf, e.chunk).packet.Some? {
      match Parse(w.devices[e.d].version, Gather(w.devices[e.d].buf, e.chunk).packet.value)
      case TcpIn(th, payload) => FindPortsFrame(w, w', e.d, th.dport, th.sport, w.nextConn);
      case _ =>
    }
  }
}
