/** When a step goes on to use a structure that it has freed: exactly when a segment overflows the input buffer of
    its connection, or a command is complete while its client may not give commands. */
module Faults {
  import opened Basics
  import opened MuxPacket
  import opened Assembler
  import opened ClientMessage
  import opened CommandFraming
  import opened Environment
  import opened Daemon
  import opened Invariant
  import opened Release
  import opened Serving
  import opened DeviceSteps
  import opened ClientSteps
  import opened Reachable
  import opened Projection
  import opened Progress
  import Window
  import Peer
  import C = Connection
  import L = Client
  import D = Device

  /** An ACK segment for an established connection does not fit its buffer: connection_device_input tears the
      connection down, and send_tcp_ack is called on it (src/device.c:713-716). */
  predicate Overflowing(w: World, e: Event) { Floods(w, ArrivalOf(w, e)) }

  predicate Floods(w: World, a: Arrival)
  {
    && a.Arrival? && a.k in w.conns && w.conns[a.k].state.Connected?
    && a.th.flags == ACK && C.Overflows(w.conns[a.k], a.payload)
  }

  /** A message is complete while its client listens or waits for a device: handle_command closes the client, and
      its buffer is emptied (src/client.c:953-954). */
  predicate Untimely(w: World, e: Event)
  {
    && e.ClientReadable? && e.c in w.clients && !w.clients[e.c].state.Commanding?
    && 0 < |e.got| <= Need(w.clients[e.c].ib) && Receive(w.clients[e.c].ib, e.got).Command?
  }

  predicate UsesFreed(w: World, e: Event) { Overflowing(w, e) || Untimely(w, e) }

  // ---- Teardown and close ----

  /** Whatever a step has done to a connection and its client, tearing the connection down follows no pointer to a
      freed structure, though it closes the client, which comes back to the connection. */
  lemma TeardownFaults(env: Env, w: World, k: nat, c: nat, kn: C.Conn, cl: L.Client)
    requires Inv(env, w) && k in w.conns && w.conns[k].client == Some(c)
    requires SameWires(w.conns[k], kn) && C.Doomed(kn)
    requires cl.h.conn == Some(k) && Leaving(env, kn, cl)
    ensures
      var w' := Teardown(env, SetClient(SetConn(w, k, kn), c, cl), k);
      w'.faults == w.faults && k !in w'.conns
  {
    hide Inv, Teardown, C.Doomed, Leaving, Local;
    TeardownKeeps(env, w, k, c, kn, cl);
  }

  /** Without its client the same teardown would: the count is not silent. */
  lemma StaleTeardownFaults(env: Env, w: World, k: nat, c: nat)
    requires k in w.conns && w.conns[k].dev in w.devices && w.conns[k].client == Some(c) && c !in w.clients
    requires w.conns[k].state.Connecting? || w.conns[k].state.Refused?
    ensures Teardown(env, w, k).faults == w.faults + 1
  {
    hide C.SendTcp, D.SendPacket, TcpBytes;
    ResetShape(env, w, k);
  }

  /** Closing a client that is not joined follows no such pointer either. */
  lemma CloseFaults(env: Env, w: World, c: nat, cl: L.Client)
    requires Inv(env, w) && Settled(w) && c in w.clients && !w.clients[c].state.Joined?
    requires cl.state == w.clients[c].state && cl.connectDev == w.clients[c].connectDev
    requires cl.h.conn == w.clients[c].h.conn && L.Quits(env, cl.h)
    ensures
      var w' := ClientClose(env, SetClient(w, c, cl), c);
      w'.faults == w.faults && c !in w'.clients
  {
    hide Inv, Settled, ClientClose, L.Quits;
    CloseStep(env, w, c, cl);
  }

  lemma ProcessFaults(env: Env, w: World, c: nat, io: SocketResults)
    requires Inv(env, w) && c in w.clients && w.clients[c].state.Joined?
    ensures ClientProcess(env, w, w.clients[c].connectDev, c, io).faults == w.faults
  {
    hide Inv, ProcessWrite, Local, L.Single, C.Established, L.InStream;
    LinkOf(env, w, c);
    var k := w.clients[c].h.conn.value;
    InvWires(env, w, k);
    FindConnIs(w, k, c, w.nextConn);
    ProcessKeeps(env, w, k, c, io);
  }

  // ---- Segments ----

  /** The handshake arm follows no such pointer: client_notify_connect does not fail, so nothing is torn down before
      the connection is updated. */
  lemma EstablishFaults(env: Env, w: World, k: nat, c: nat, kn: C.Conn, cl: L.Client)
    requires Inv(env, w) && k in w.conns && w.conns[k].client == Some(c) && kn.dev in w.devices
    requires c in w.clients && w.clients[c] == cl
    requires SameWires(w.conns[k], kn) && kn.lastAck <= w.clock && kn.state.Connecting? && C.Waiting(kn)
    requires kn.sport != 0 && cl.h.conn == Some(k) && cl.connectDev == kn.dev && L.Pending(env, cl)
    ensures Establish(env, SetConn(w, k, kn), k).faults == w.faults
  {
    hide Inv, Establish, C.Waiting, L.Pending, Local;
    EstablishKeeps(env, w, k, c, kn, cl);
  }

  lemma TcpInputFaults(env: Env, w: World, d: nat, th: TcpHeader, payload: seq<byte>)
    requires Inv(env, w) && d in w.devices
    ensures
      var found := FindPorts(w, d, th.dport, th.sport, w.nextConn);
      var a := if w.devices[d].state.Active? && found.Some? then Arrival(found.value, th, payload) else Nothing;
      TcpInput(env, w, d, th, payload).faults == w.faults + if Floods(w, a) then 1 else 0
  {
    hide Inv, Segment, D.SendPacket, TcpBytes, C.Overflows, Local, C.Received, NewlyUp, D.SendOk;
    var found := FindPorts(w, d, th.dport, th.sport, w.nextConn);
    if w.devices[d].state.Active? && found.Some? {
      SegmentKeeps(env, w, found.value, th, payload);
    }
  }

  lemma PacketFaults(env: Env, w: World, d: nat, pkt: seq<byte>)
    requires Inv(env, w) && Settled(w) && d in w.devices && |pkt| >= 8
    ensures PacketInput(env, w, d, pkt).faults == w.faults + if Floods(w, PacketArrival(w, d, pkt)) then 1 else 0
  {
    hide Inv, Settled, Parse, TcpInput, SeenField, C.Overflows, FindPorts, D.Negotiated;
    var dev := w.devices[d];
    var seen := if dev.version >= 2 && |pkt| >= 16 then SetDevice(w, d, dev.(rxSeq := Some(SeenField(pkt)))) else w;
    if dev.version >= 2 && |pkt| >= 16 {
      DeviceNoted(env, w, d, dev.(rxSeq := Some(SeenField(pkt))));
    }
    match Parse(dev.version, pkt)
    case TcpIn(th, payload) =>
      FindPortsFrame(w, seen, d, th.dport, th.sport, w.nextConn);
      TcpInputFaults(env, seen, d, th, payload);
    case _ =>
  }

  lemma DataInputFaults(env: Env, w: World, d: nat, chunk: seq<byte>)
    requires Inv(env, w) && Settled(w)
    ensures DataInput(env, w, d, chunk).faults == w.faults + if Overflowing(w, Transfer(d, chunk)) then 1 else 0
  {
    hide Inv, Settled, Gather, PacketInput, C.Overflows, FindPorts, Parse;
    if d in w.devices {
      var g := Gather(w.devices[d].buf, chunk);
      DeviceNoted(env, w, d, w.devices[d].(buf := g.buf));
      var kept := SetDevice(w, d, w.devices[d].(buf := g.buf));
      if g.packet.Some? {
        var pkt := g.packet.value;
        PacketFaults(env, kept, d, pkt);
        match Parse(kept.devices[d].version, pkt)
        case TcpIn(th, payload) => FindPortsFrame(w, kept, d, th.dport, th.sport, w.nextConn);
        case _ =>
      }
    }
  }

  // ---- Loops ----

  lemma RemoveFaults(env: Env, w: World, d: nat)
    requires Inv(env, w) && Settled(w)
    ensures DeviceRemove(env, w, d).faults == w.faults
  {
    hide Inv, TeardownAll, D.Consistent, VisibleDevices;
    if d in w.devices && w.devices[d].state.Active? {
      var dev := w.devices[d].(state := D.Removed);
      ConsistentFrame(env, w, d, dev);
      DeviceUpdated(env, w, d, dev);
      TeardownAllKeeps(env, SetDevice(w, d, dev), d, w.nextConn, VisibleDevices(w));
    }
  }

  // ---- Commands ----

  lemma ObeyFaults(env: Env, w: World, c: nat, cl: L.Client, m: Raw, o: Outside)
    requires c in w.clients
    ensures Obey(env, w, c, cl, m, o).faults == w.faults && c in Obey(env, w, c, cl, m, o).clients
  {
    hide L.Interpret, AttachAll, L.Enqueue, StartConnect, ConnectCode, L.Named, ListDevices, TellPaired;
    hide C.SendTcp, D.SendPacket, FindSport, TellListeners;
    match L.Interpret(env, m)
    case Answer => PairedFaults(env, w, o.paired);
    case Connect =>
      var to := L.Named(env, m, o.stale);
      StartFaults(env, w, to.dev, to.port, c);
    case _ =>
  }

  lemma StartFaults(env: Env, w: World, d: nat, port: u16, c: nat)
    ensures StartConnect(env, w, d, port, c).faults == w.faults
  {
    hide FindSport, D.SendPacket, TcpBytes, C.SendTcp;
  }

  lemma PairedFaults(env: Env, w: World, paired: Option<nat>)
    ensures TellPaired(env, w, paired).faults == w.faults
  {
  }

  lemma ReadableFaults(env: Env, w: World, c: nat, got: seq<byte>, o: Outside)
    requires Inv(env, w) && Settled(w)
    requires c in w.clients ==> !w.clients[c].state.Joined? && w.clients[c].events.pollIn
    ensures
      Readable(env, w, c, got, o).faults == w.faults + if Untimely(w, ClientReadable(c, got, o)) then 1 else 0
  {
    hide Inv, Settled, ClientClose, HandleCommand, Decode, Need, L.Single, L.Pending, L.Quits, Stream, L.Spoilt;
    if c in w.clients {
      var cl := w.clients[c];
      ReadersSpeak(env, w, c);
      L.MayQuit(env, cl);
      if !(0 < |got| <= Need(cl.ib)) {
        assert SetClient(w, c, cl) == w;
        CloseFaults(env, w, c, cl);
      } else {
        match Receive(cl.ib, got)
        case Partial(ib) =>
        case BadLength =>
          L.SpoiltQuits(env, cl, got);
          SpoiltState(cl, got);
          CloseFaults(env, w, c, L.Spoilt(cl, got));
        case Command(msg) =>
          WholeDecodes(msg);
          CommandFaults(env, w, c, got, msg, o);
      }
    }
  }

  lemma SpoiltState(cl: L.Client, got: seq<byte>)
    ensures
      var q := L.Spoilt(cl, got);
      q.state == cl.state && q.connectDev == cl.connectDev && q.h.conn == cl.h.conn
  {
  }

  lemma CommandFaults(env: Env, w: World, c: nat, got: seq<byte>, msg: seq<byte>, o: Outside)
    requires Inv(env, w) && Settled(w) && c in w.clients && msg == w.clients[c].ib + got && Whole(msg)
    requires L.Single(env, w.clients[c]) || L.Pending(env, w.clients[c])
    requires Decode(msg).Some? && !w.clients[c].state.Joined?
    ensures
      var done := HandleCommand(env, w, c, L.Commanded(w.clients[c], got, msg), Decode(msg).value, o);
      done.faults == w.faults && (c in done.clients <==> w.clients[c].state.Commanding?)
  {
    hide Inv, Settled, ClientClose, Obey, Decode, L.Enqueue, Whole, L.Single, L.Pending, L.Quits;
    var cl, m := w.clients[c], Decode(msg).value;
    var cmd := L.Commanded(cl, got, msg);
    if cl.state.Commanding? {
      ObeyFaults(env, w, c, L.Spoken(cmd, m), m, o);
    } else {
      L.RebukeQuits(env, cl, got, msg, m);
      EnqueueState(env, cmd, m.tag, Result(RESULT_BADCOMMAND));
      CloseFaults(env, w, c, L.Enqueue(env, cmd, m.tag, Result(RESULT_BADCOMMAND)));
    }
  }

  lemma WritableFaults(env: Env, w: World, c: nat, n: nat)
    requires Inv(env, w) && Settled(w) && (c in w.clients ==> !w.clients[c].state.Joined?)
    ensures Writable(env, w, c, n).faults == w.faults
  {
    hide Inv, Settled, ClientClose, L.Sent, L.Single, L.Pending, L.Joining, L.InStream, C.Waiting, C.Established;
    hide L.Quits;
    if c in w.clients {
      LinkOf(env, w, c);
      L.MayQuit(env, w.clients[c]);
      assert SetClient(w, c, w.clients[c]) == w;
      CloseFaults(env, w, c, w.clients[c]);
    }
  }

  // ---- Steps and runs ----

  /** A step uses a freed structure exactly when one of the two conditions holds before it. */
  lemma StepFaults(env: Env, w: World, t: Timed)
    requires Inv(env, w) && Settled(w) && Possible(env, w, t)
    ensures Step(env, w, t).faults == w.faults + if UsesFreed(w, t.event) then 1 else 0
  {
    hide Inv, Settled, ConnectsToActive, Readable, Writable, ClientProcess, DeviceAdd, DataInput, DeviceRemove;
    hide CheckTimeouts, Overflowing, Untimely;
    var w1 := w.(clock := t.now);
    ClockAdvanced(env, w, t.now);
    ClockSettled(w, t.now);
    ConditionFrame(w, w1, t.event);
    match t.event
    case Accept =>
    case ClientReadable(c, got, o) => ReadableFaults(env, w1, c, got, o);
    case ClientWritable(c, n) => WritableFaults(env, w1, c, n);
    case ClientServed(c, io) =>
      if c in w.clients {
        ProcessFaults(env, w1, c, io);
      }
    case Attach(info) => AddFaults(env, w1, info);
    case Transfer(d, chunk) => DataInputFaults(env, w1, d, chunk);
    case Show(d, info) =>
    case Detach(d) => RemoveFaults(env, w1, d);
    case Tick => CheckTimeoutsKeeps(env, w1, w1.nextConn);
  }

  lemma ConditionFrame(w: World, w': World, e: Event)
    requires w' == w.(clock := w'.clock)
    ensures Overflowing(w', e) == Overflowing(w, e) && Untimely(w', e) == Untimely(w, e)
    ensures !e.Transfer? ==> !Overflowing(w, e)
    ensures !e.ClientReadable? ==> !Untimely(w, e)
  {
    hide ArrivalOf, C.Overflows, Need, Receive;
    ArrivalFrame(w, w', e);
    NoArrival(w, e);
  }

  lemma AddFaults(env: Env, w: World, info: seq<byte>)
    ensures DeviceAdd(env, w, info).faults == w.faults
  {
  }

  /** No structure is used after it was freed, in a whole run, if and only if no step meets a condition. */
  lemma {:induction false} RunFaults(env: Env, ts: seq<Timed>)
    requires PossibleRun(env, ts)
    ensures Run(env, ts).faults == 0 <==> forall i :: 0 <= i < |ts| ==> !UsesFreed(Run(env, ts[..i]), ts[i].event)
    decreases |ts|
  {
    hide UsesFreed, Step, Possible;
    if ts != [] {
      var n := |ts| - 1;
      var before := ts[..n];
      RunFaults(env, before);
      RunKeeps(env, before);
      StepFaults(env, Run(env, before), ts[n]);
      forall i | 0 <= i < n
        ensures before[..i] == ts[..i] && before[i] == ts[i]
      {
      }
    }
  }

  // ---- The two conditions ----

  /** A message without a payload. */
  function Bare(kind: u32, tag: u32): seq<byte> { Encode(Raw(0, kind, tag, [])) }

  lemma BareReads(kind: u32, tag: u32)
    ensures |Bare(kind, tag)| == 16 == Need([]) && Receive([], Bare(kind, tag)) == Command(Bare(kind, tag))
    ensures Decode(Bare(kind, tag)) == Some(Raw(0, kind, tag, []))
  {
    var s := Bare(kind, tag);
    DecodeEncode(Raw(0, kind, tag, []), []);
    assert s + [] == s && [] + s == s;
    hide Encode, UnLE32, Decode;
  }

  /** Whatever further message a listener completes, it meets the second condition, in every reachable state. */
  lemma ListenersMessageFaults(env: Env, w: World, c: nat, got: seq<byte>, o: Outside)
    requires Inv(env, w) && Settled(w) && c in w.clients && w.clients[c].state.Listening?
    requires 0 < |got| <= Need(w.clients[c].ib) && Receive(w.clients[c].ib, got).Command?
    ensures
      var t := Timed(w.clock, ClientReadable(c, got, o));
      Possible(env, w, t) && Step(env, w, t).faults == w.faults + 1
  {
    hide Inv, Settled, Receive, Need, ConnectsToActive, Step, Overflowing, L.Single;
    LinkOf(env, w, c);
    ListenerIsPolled(env, w.clients[c]);
    StepFaults(env, w, Timed(w.clock, ClientReadable(c, got, o)));
  }

  lemma ListenerIsPolled(env: Env, cl: L.Client)
    requires cl.state.Listening? && L.Single(env, cl)
    ensures cl.events.pollIn
  {
    hide Stream, L.Answered, L.AllWhole, Concat, AnnouncedOnce, Seen;
  }

  lemma ListenMeans(env: Env, w: World, tag: u32, stale: Leftover)
    ensures L.Interpret(env, Raw(0, MESSAGE_LISTEN, tag, [])).Listen?
            && NamesActive(env, w, Raw(0, MESSAGE_LISTEN, tag, []), stale)
  {
    hide L.Named;
  }

  /** So a client that sends Listen twice makes the daemon use the client it has freed. */
  lemma ListeningTwiceFaults(env: Env, tag: u32, o: Outside)
    ensures exists w :: Reaches(env, w) && w.faults == 1
  {
    hide Reaches, Bare, Inv, Settled, NamesActive, L.Interpret, Step;
    NothingReached(env);
    ListenStarts(env, tag, o);
    var m := Bare(MESSAGE_LISTEN, tag);
    var w1 := Step(env, START, Timed(0, Accept));
    ReachesNext(env, START, Timed(0, Accept));
    ReachesNext(env, w1, Timed(0, ClientReadable(0, m, o)));
    var w2 := Step(env, w1, Timed(0, ClientReadable(0, m, o)));
    ReachesKeeps(env, w2);
    ListenMeans(env, w2, tag, o.stale);
    BareReads(MESSAGE_LISTEN, tag);
    ListenersMessageFaults(env, w2, 0, m, o);
    ReachesNext(env, w2, Timed(0, ClientReadable(0, m, o)));
    var w3 := Step(env, w2, Timed(0, ClientReadable(0, m, o)));
    assert Reaches(env, w3) && w3.faults == 1;
  }

  lemma ListenStarts(env: Env, tag: u32, o: Outside)
    ensures
      var w1 := Step(env, START, Timed(0, Accept));
      var t := Timed(0, ClientReadable(0, Bare(MESSAGE_LISTEN, tag), o));
      && Possible(env, START, Timed(0, Accept)) && Possible(env, w1, t)
      && var w2 := Step(env, w1, t);
         && w2.faults == 0 && w2.clock == 0 && 0 in w2.clients && w2.clients[0].state.Listening?
             && w2.clients[0].ib == []
  {
    hide Bare, Receive, Need, NamesActive, L.Interpret, Decode, L.Enqueue;
    BareReads(MESSAGE_LISTEN, tag);
    var w1 := Step(env, START, Timed(0, Accept));
    ListenMeans(env, w1, tag, o.stale);
    EnqueueState(env, L.Spoken(L.Commanded(L.NEW_CLIENT, Bare(MESSAGE_LISTEN, tag), Bare(MESSAGE_LISTEN, tag)),
                               Raw(0, MESSAGE_LISTEN, tag, [])), tag, Result(RESULT_OK));
  }

  lemma EnqueueState(env: Env, cl: L.Client, tag: u32, body: Body)
    ensures
      var q := L.Enqueue(env, cl, tag, body);
      q.state == cl.state && q.ib == cl.ib && q.connectDev == cl.connectDev && q.h.conn == cl.h.conn
  {
  }

  // ---- The first condition is met by a device that ignores the window ----

  /** Connection 0 is established and its buffer holds n bytes; nothing has gone wrong. */
  ghost predicate Filled(env: Env, w: World, n: nat)
  {
    && Reaches(env, w) && w.faults == 0
    && 0 in w.conns && w.conns[0].state.Connected? && |w.conns[0].ib| == n
    && w.conns[0].dev in w.devices && w.devices[w.conns[0].dev].buf == []
  }

  function OneByte(kn: C.Conn): TcpHeader { TcpHeader(kn.dport, kn.sport, 0, 0, ACK, 0) }

  function Pushed(w: World): Timed
    requires 0 in w.conns && w.conns[0].dev in w.devices
  {
    var kn := w.conns[0];
    Timed(w.clock, Transfer(kn.dev, Carried(w.devices[kn.dev], OneByte(kn), [0], 0, 0)))
  }

  lemma FilledTakes(env: Env, w: World, n: nat)
    requires Filled(env, w, n)
    ensures Takes(env, w, 0, OneByte(w.conns[0]))
  {
    hide Reaches, Inv, PairOk, ConnOk, L.Single;
    ReachesKeeps(env, w);
    ConnFacts(env, w, 0);
    NoneRemoved(w);
  }

  lemma NoneRemoved(w: World)
    requires Settled(w)
    ensures forall d :: d in w.devices ==> !w.devices[d].state.Removed?
  {
  }

  /** A segment of one byte goes to the buffer. */
  lemma ByteTaken(env: Env, w: World)
    requires 0 in w.conns && Takes(env, w, 0, OneByte(w.conns[0])) && w.conns[0].state.Connected?
    requires |w.conns[0].ib| < C.CONN_INBUF_SIZE && forall d, i :: env.usbOk(d, i)
    ensures
      var d := w.conns[0].dev;
      var w' := DataInput(env, w, d, Carried(w.devices[d], OneByte(w.conns[0]), [0], 0, 0));
      && w'.faults == w.faults
      && 0 in w'.conns && w'.conns[0].state.Connected? && |w'.conns[0].ib| == |w.conns[0].ib| + 1
      && w'.conns[0].dev == d && d in w'.devices && w'.devices[d].buf == []
  {
    hide Inv, Settled, Segment, Local, Carried, DataInput, ArrivalOf, SeenField, NewlyUp, C.Received, D.SendOk;
    var kn, d := w.conns[0], w.conns[0].dev;
    var th := OneByte(kn);
    SegmentArrives(env, w, 0, th, [0], 0, 0);
    var w2 := NotedBy(w, d, Carried(w.devices[d], th, [0], 0, 0));
    SendableSize(env, w2, d);
    SegmentKeeps(env, w2, 0, th, [0]);
    var w' := Segment(env, w2, 0, th, [0]);
    ReceivedSize(kn, th, [0], w.clock);
    LocalKeeps(w2, w', 0, kn.client.value, d);
    LocalDevice(w2, w', 0, kn.client.value, d);
  }

  lemma PushedIsPossible(env: Env, w: World)
    requires 0 in w.conns && Takes(env, w, 0, OneByte(w.conns[0]))
    ensures Possible(env, w, Pushed(w))
  {
    hide Inv, Settled, Carried, DataInput, ArrivalOf, Segment, NotedBy;
    SegmentArrives(env, w, 0, OneByte(w.conns[0]), [0], 0, 0);
  }

  /** One more byte. */
  lemma FillOne(env: Env, w: World, n: nat)
    requires Filled(env, w, n) && n < C.CONN_INBUF_SIZE && forall d, i :: env.usbOk(d, i)
    ensures Filled(env, Step(env, w, Pushed(w)), n + 1)
  {
    hide Reaches, Takes, Carried, DataInput, OneByte, Possible;
    FilledTakes(env, w, n);
    PushedIsPossible(env, w);
    ByteTaken(env, w);
    assert w.(clock := w.clock) == w;
    ReachesNext(env, w, Pushed(w));
  }

  lemma SendableSize(env: Env, w: World, d: nat)
    requires Inv(env, w) && d in w.devices && forall e, i :: env.usbOk(e, i)
    ensures D.SendOk(env, d, w.devices[d], 20, 0)
  {
    hide ConnsOk, ClientsOk, PortsDistinct, PastOk, Accounted;
  }

  lemma ReceivedSize(kn: C.Conn, th: TcpHeader, payload: seq<byte>, now: nat)
    ensures |C.Received(kn, th, payload, now).ib| == |kn.ib| + |payload|
    ensures C.Received(kn, th, payload, now).state == kn.state
  {
  }

  lemma {:induction false} FillUp(env: Env, n: nat)
    requires n <= C.CONN_INBUF_SIZE && forall d, i :: env.usbOk(d, i)
    ensures exists w :: Filled(env, w, n)
    decreases n
  {
    hide Filled, Step;
    if n == 0 {
      FillNone(env);
    } else {
      FillUp(env, n - 1);
      var w :| Filled(env, w, n - 1);
      FilledIsThere(env, w, n - 1);
      FillOne(env, w, n - 1);
      assert Filled(env, Step(env, w, Pushed(w)), n);
    }
  }

  lemma FilledIsThere(env: Env, w: World, n: nat)
    requires Filled(env, w, n)
    ensures 0 in w.conns && w.conns[0].dev in w.devices
  {
  }

  /** The run that joins a client ends with an empty buffer. */
  lemma FillNone(env: Env)
    requires forall d, i :: env.usbOk(d, i)
    ensures exists w :: Filled(env, w, 0)
  {
    hide Reaches;
    ConnectionsAreReached(env, 0, 0, Outside(Result(0), None, [0, 0, 0, 0, 0, 0]), [], 1);
    var w :| Reaches(env, w) && JoinedTo(w, 0, 0) && w.faults == 0;
    JoinedIsEmpty(env, w);
    assert Filled(env, w, 0);
  }

  lemma JoinedIsEmpty(env: Env, w: World)
    requires Reaches(env, w) && JoinedTo(w, 0, 0)
    ensures w.conns[0].ib == []
  {
    hide Reaches, Inv, C.DataOf, C.Tiled, C.Resets, C.LastOk, C.AcksUpTo, C.Update, L.InStream, L.Joining;
    ReachesKeeps(env, w);
    LinkOf(env, w, 0);
    PairMayLeave(env, w, 0, 0);
  }

  /** A state and an event at which the first fault of a run happens. */
  ghost predicate FirstFault(env: Env, w: World, t: Timed)
  {
    Reaches(env, w) && w.faults == 0 && Possible(env, w, t) && Step(env, w, t).faults == 1
  }

  /** A client that is never served and a device that ignores the window make the daemon use the connection it has
      freed. */
  lemma FloodingFaults(env: Env)
    requires forall d, i :: env.usbOk(d, i)
    ensures exists w, t :: FirstFault(env, w, t) && Overflowing(w, t.event)
  {
    hide Reaches, Takes, Step, Possible, Pushed, Overflowing, Untimely;
    FillUp(env, C.CONN_INBUF_SIZE);
    var w :| Filled(env, w, C.CONN_INBUF_SIZE);
    FilledTakes(env, w, C.CONN_INBUF_SIZE);
    PushedIsPossible(env, w);
    ByteFloods(env, w);
    ReachesKeeps(env, w);
    StepFaults(env, w, Pushed(w));
    assert FirstFault(env, w, Pushed(w));
  }

  lemma ByteFloods(env: Env, w: World)
    requires 0 in w.conns && Takes(env, w, 0, OneByte(w.conns[0])) && w.conns[0].state.Connected?
    requires |w.conns[0].ib| == C.CONN_INBUF_SIZE
    ensures Overflowing(w, Pushed(w).event)
  {
    hide Inv, Settled, Carried, DataInput, ArrivalOf, Segment, NotedBy;
    SegmentArrives(env, w, 0, OneByte(w.conns[0]), [0], 0, 0);
  }

  /** The first condition is never met by a device that respects the window. */
  lemma WindowPreventsFaults(env: Env, k: nat, y: Window.System, acts: seq<Window.Action>, t: Timed)
    requires Inv(env, y.w) && Settled(y.w) && k in y.w.conns && Peer.Fresh(Window.LinkAt(y, k))
    requires Window.Composed(env, k, y, acts)
             && Window.Conforms(env, k, Window.Compose(env, k, y, acts), Window.Host(t))
    ensures
      var w := Window.Compose(env, k, y, acts).w;
      ArrivalOf(w, t.event).Arrival? && ArrivalOf(w, t.event).k == k ==> !Overflowing(w, t.event)
  {
    hide Inv, Settled, Peer.Fresh, Window.Composed, Window.Compose, ArrivalOf, Possible;
    Window.WindowPreventsOverflow(env, k, y, acts);
  }
}
