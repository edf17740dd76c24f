/** Steps that start at a client keep the invariant. */
module ClientSteps {
  import opened Basics
  import opened MuxPacket
  import opened ClientMessage
  import opened CommandFraming
  import opened Environment
  import opened Daemon
  import opened Invariant
  import opened Release
  import opened DeviceSteps
  import C = Connection
  import L = Client
  import D = Device

  // ---- Changes of a single client ----

  /** A client without connection changed its record but did not start to listen. */
  lemma SingleSettled(w: World, c: nat, cl: L.Client)
    requires Settled(w)
    requires cl.state.Listening? ==> Seen(cl.h.msgs) == VisibleDevices(w)
    ensures Settled(SetClient(w, c, cl))
  {
    hide Seen;
    assert VisibleDevices(SetClient(w, c, cl)) == VisibleDevices(w);
  }

  lemma ClosedSettled(w: World, c: nat, past: map<nat, L.ClientHistory>)
    requires Settled(w)
    ensures Settled(w.(clients := w.clients - {c}, pastClients := past))
  {
    hide Seen;
    assert VisibleDevices(w.(clients := w.clients - {c}, pastClients := past)) == VisibleDevices(w);
  }

  /** A client that is not joined is closed; the step may already have changed its record. */
  lemma CloseStep(env: Env, w: World, c: nat, cl: L.Client)
    requires Inv(env, w) && Settled(w) && c in w.clients && !w.clients[c].state.Joined?
    requires cl.state == w.clients[c].state && cl.connectDev == w.clients[c].connectDev
    requires cl.h.conn == w.clients[c].h.conn && L.Quits(env, cl.h)
    ensures
      var w' := ClientClose(env, SetClient(w, c, cl), c);
      && Inv(env, w') && Settled(w') && c !in w'.clients && w'.faults == w.faults
      && (Linked(cl.state) ==> cl.h.conn.Some? && cl.h.conn.value in w.conns && cl.h.conn.value !in w'.conns)
  {
    hide Inv, Settled, ClientClose, Stream, Local, L.Quits;
    LinkOf(env, w, c);
    if Linked(cl.state) {
      var k := cl.h.conn.value;
      CloseKeeps(env, w, k, c, cl);
      LocalSettled(w, ClientClose(env, SetClient(w, c, cl), c), k, c, w.conns[k].dev);
    } else {
      SingleCloses(env, w, c, cl);
      ClosedSettled(w, c, w.pastClients[c := FreedClient(cl.h)]);
    }
  }

  /** What the invariant says about one client. */
  lemma LinkOf(env: Env, w: World, c: nat)
    requires Inv(env, w) && c in w.clients
    ensures !Linked(w.clients[c].state) ==> L.Single(env, w.clients[c])
    ensures Linked(w.clients[c].state) ==>
      && w.clients[c].h.conn.Some?
      && var k := w.clients[c].h.conn.value;
         && k in w.conns && w.conns[k].client == Some(c) && PairOk(env, w.conns[k], w.clients[c])
         && w.conns[k].dev in w.devices && w.conns[k].lastAck <= w.clock
  {
    hide PairOk, L.Single, PastOk, DevicesOk, PortsDistinct;
    assert ClientOk(env, w, c);
    if Linked(w.clients[c].state) {
      assert ConnOk(env, w, w.clients[c].h.conn.value);
    }
  }

  /** The record of a client in Connecting1 or Connecting2 changed, its connection did not. */
  lemma LinkedSettled(w: World, c: nat, cl: L.Client)
    requires Settled(w) && Linked(cl.state)
    ensures Settled(SetClient(w, c, cl))
  {
    SingleSettled(w, c, cl);
  }

  lemma LinkedUpdated(env: Env, w: World, c: nat, cl: L.Client)
    requires Inv(env, w) && Settled(w) && c in w.clients && Linked(w.clients[c].state) && Linked(cl.state)
    requires w.clients[c].h.conn.Some? && cl.h.conn == w.clients[c].h.conn
    requires cl.h.conn.value in w.conns && PairOk(env, w.conns[cl.h.conn.value], cl)
    ensures Inv(env, SetClient(w, c, cl)) && Settled(SetClient(w, c, cl))
  {
    hide Inv, Settled, PairOk;
    LinkOf(env, w, c);
    var k := cl.h.conn.value;
    assert SetConn(w, k, w.conns[k]) == w;
    PairUpdated(env, w, k, c, w.conns[k], cl);
    LinkedSettled(w, c, cl);
  }

  // ---- output_buffer_process ----

  lemma WritableKeeps(env: Env, w: World, c: nat, n: nat)
    requires Inv(env, w) && Settled(w)
    requires c in w.clients ==> !w.clients[c].state.Joined? && w.clients[c].events.pollOut
    ensures Inv(env, Writable(env, w, c, n)) && Settled(Writable(env, w, c, n))
  {
    hide Inv, Settled, ClientClose, L.Answered, L.Awaits, Stream, L.AllWhole, Concat, AnnouncedOnce, Seen, C.Waiting;
    hide C.Established;
    if c in w.clients {
      LinkOf(env, w, c);
      var cl := w.clients[c];
      assert cl.ob != [];
      if 0 < n <= |cl.ob| {
        SendingKeeps(env, w, c, n);
      } else {
        assert SetClient(w, c, cl) == w;
        L.MayQuit(env, cl);
        CloseStep(env, w, c, cl);
      }
    }
  }

  lemma SendingKeeps(env: Env, w: World, c: nat, n: nat)
    requires Inv(env, w) && Settled(w) && c in w.clients && !w.clients[c].state.Joined? && 0 < n <= |w.clients[c].ob|
    ensures Inv(env, SetClient(w, c, L.Sent(w.clients[c], n))) && Settled(SetClient(w, c, L.Sent(w.clients[c], n)))
  {
    hide Inv, L.Single, L.Pending, L.Joining, L.InStream, C.Waiting, C.Established, Seen;
    LinkOf(env, w, c);
    var cl := w.clients[c];
    var cl' := L.Sent(cl, n);
    L.SentKeeps(env, cl, n);
    if Linked(cl.state) {
      var kn := w.conns[cl.h.conn.value];
      SentPairs(env, kn, cl, n);
      LinkedUpdated(env, w, c, cl');
    } else {
      SingleUpdated(env, w, c, cl');
      SingleSettled(w, c, cl');
    }
  }

  /** Once the whole reply is out, the client joins the stream with the poll mask kept for it. */
  lemma SentPairs(env: Env, kn: C.Conn, cl: L.Client, n: nat)
    requires PairOk(env, kn, cl) && !cl.state.Joined? && 0 < n <= |cl.ob|
    ensures PairOk(env, kn, L.Sent(cl, n)) && Linked(L.Sent(cl, n).state)
  {
    hide L.Pending, L.Joining, L.InStream, C.Waiting, C.Established;
    L.SentKeeps(env, cl, n);
  }

  // ---- Commands ----

  /** start_listen tells a new listener about every visible device, once each. */
  lemma {:induction false} AttachAllTells(env: Env, w: World, cl: L.Client, n: nat)
    requires L.Single(env, cl) && cl.state.Listening? && Seen(cl.h.msgs) == {}
    ensures
      var cl' := AttachAll(env, w, cl, n);
      && L.Single(env, cl') && cl'.state.Listening?
      && Seen(cl'.h.msgs) == set d | d in VisibleDevices(w) && d < n
    decreases n
  {
    hide L.Single, Seen, L.Enqueue;
    if n > 0 {
      AttachAllTells(env, w, cl, n - 1);
      var cl' := AttachAll(env, w, cl, n - 1);
      if IsVisible(w, n - 1) {
        L.NoticeKeeps(env, cl', Attached(n - 1, w.devices[n - 1].info));
        assert (set d | d in VisibleDevices(w) && d < n) == (set d | d in VisibleDevices(w) && d < n - 1) + {n - 1};
      } else {
        assert (set d | d in VisibleDevices(w) && d < n) == (set d | d in VisibleDevices(w) && d < n - 1);
      }
    }
  }

  lemma ListenKeeps(env: Env, w: World, c: nat, cl: L.Client)
    requires Inv(env, w) && Settled(w) && c in w.clients && !Linked(w.clients[c].state)
    requires L.Single(env, cl) && cl.state.Commanding?
    ensures
      var w' := SetClient(w, c, AttachAll(env, w, cl.(state := L.Listening), w.nextDevice));
      Inv(env, w') && Settled(w')
  {
    hide Inv, Settled, Seen, AttachAll, L.Answered, Stream, L.AllWhole, Concat, AnnouncedOnce;
    var ready := cl.(state := L.Listening);
    assert L.Single(env, ready);
    AttachAllTells(env, w, ready, w.nextDevice);
    var cl' := AttachAll(env, w, ready, w.nextDevice);
    VisibleBelowNext(env, w);
    assert (set d | d in VisibleDevices(w) && d < w.nextDevice) == VisibleDevices(w);
    SingleUpdated(env, w, c, cl');
    SingleSettled(w, c, cl');
  }

  lemma VisibleBelowNext(env: Env, w: World)
    requires Inv(env, w)
    ensures forall d :: d in w.devices ==> d < w.nextDevice
  {
    hide ConnOk, ClientOk, PastOk, PortsDistinct, D.Consistent;
  }

  /** device_start_connect, as far as the device is concerned. */
  lemma StartedDevice(env: Env, w: World, d: nat, next: u16, send: bool, kn: C.Conn)
    requires Inv(env, w) && Settled(w) && d in w.devices
    ensures
      var dev := w.devices[d].(nextSport := next);
      var dev' := if send then D.SendPacket(dev, Tcp, TcpBytes(C.SegmentHeader(kn, SYN)), []) else dev;
      Inv(env, SetDevice(w, d, dev')) && Settled(SetDevice(w, d, dev')) && dev'.state == w.devices[d].state
  {
    hide Inv, Settled, TcpBytes, D.Consistent, SameDevice, D.SendPacket;
    var dev := w.devices[d].(nextSport := next);
    ConsistentFrame(env, w, d, dev);
    DeviceUpdated(env, w, d, dev);
    var w1 := SetDevice(w, d, dev);
    NextSettled(w, d, dev);
    if send {
      SendKeepsInv(env, w1, d, Tcp, TcpBytes(C.SegmentHeader(kn, SYN)), []);
      var dev' := D.SendPacket(dev, Tcp, TcpBytes(C.SegmentHeader(kn, SYN)), []);
      SentSettled(w1, d, dev');
      SameState(dev, dev');
      assert SetDevice(w1, d, dev') == SetDevice(w, d, dev') by {
        assert w.devices[d := dev][d := dev'] == w.devices[d := dev'];
      }
    }
  }

  lemma SameState(dev: D.Device, dev': D.Device)
    requires SameDevice(dev, dev')
    ensures dev'.state == dev.state
  {
  }

  lemma NextSettled(w: World, d: nat, dev: D.Device)
    requires Settled(w) && d in w.devices && dev.state == w.devices[d].state && dev.visible == w.devices[d].visible
    ensures Settled(SetDevice(w, d, dev))
  {
    assert VisibleDevices(SetDevice(w, d, dev)) == VisibleDevices(w);
  }

  /** The new connection and its waiting client. */
  lemma ConnectLinks(env: Env, w: World, c: nat, d: nat, sport: u16, dport: u16, born: nat, cl: L.Client)
    requires Inv(env, w) && Settled(w) && c in w.clients && !Linked(w.clients[c].state)
    requires d in w.devices && !w.devices[d].state.Starting? && sport != 0 && sport !in PortsOf(w, d)
    requires L.Pending(env, cl) && cl.h.conn == Some(w.nextConn) && cl.connectDev == d
    ensures
      var kn := C.SendTcp(C.NewConn(d, c, sport, dport, born), SYN, [], true, w.clock);
      var w' := SetClient(SetConn(w, w.nextConn, kn).(nextConn := w.nextConn + 1), c, cl);
      Inv(env, w') && Settled(w')
  {
    hide Inv, Settled, C.Waiting, L.Talking, L.Awaits, Seen;
    var kn := C.SendTcp(C.NewConn(d, c, sport, dport, born), SYN, [], true, w.clock);
    C.SynWaits(d, c, sport, dport, born, w.clock);
    forall j | j in w.conns && w.conns[j].dev == d
      ensures w.conns[j].sport != sport
    {
      assert j in ConnsOf(w, d);
    }
    PairAdded(env, w, c, kn, cl);
    var linked := SetConn(w, w.nextConn, kn).(nextConn := w.nextConn + 1);
    NewConnSettled(w, kn);
    LinkedSettled(linked, c, cl);
    assert SetClient(linked, c, cl) == SetClient(SetConn(w, w.nextConn, kn), c, cl).(nextConn := w.nextConn + 1);
  }

  lemma NewConnSettled(w: World, kn: C.Conn)
    requires Settled(w)
    ensures Settled(SetConn(w, w.nextConn, kn).(nextConn := w.nextConn + 1))
  {
    assert VisibleDevices(SetConn(w, w.nextConn, kn).(nextConn := w.nextConn + 1)) == VisibleDevices(w);
  }

  /** A reply to a command that changed nothing but perhaps a device's counters. */
  lemma ReplyKeeps(env: Env, w: World, c: nat, cl: L.Client, due: L.Due, body: Body)
    requires Inv(env, w) && Settled(w) && c in w.clients && !Linked(w.clients[c].state)
    requires L.Owing(env, cl, [due]) && L.Answers(due, Msg(cl.proto, due.tag, body))
    ensures
      var w' := SetClient(w, c, L.Enqueue(env, cl, due.tag, body));
      Inv(env, w') && Settled(w')
  {
    hide Inv, Settled, L.Owing, L.Answers, L.Single, L.Enqueue;
    L.ReplyClears(env, cl, due, body);
    SingleUpdated(env, w, c, L.Enqueue(env, cl, due.tag, body));
    SingleSettled(w, c, L.Enqueue(env, cl, due.tag, body));
  }

  lemma ConnectKeeps(env: Env, w: World, c: nat, cl: L.Client, due: L.Due, d: nat, port: u16)
    requires Inv(env, w) && Settled(w) && c in w.clients && !Linked(w.clients[c].state)
    requires L.Owing(env, cl, [due]) && due.order.Connect? && due.version == cl.proto
    requires L.EndsInConnect(env, cl.h.cmds, due.tag)
    requires d in w.devices ==> w.devices[d].state.Active?
    ensures
      var code := ConnectCode(env, w, d);
      var started := StartConnect(env, w, d, port, c);
      var w' := if code != RESULT_OK then SetClient(started, c, L.Enqueue(env, cl, due.tag, Result(code)))
                else SetClient(started, c, cl.(connectTag := due.tag, connectDev := d, state := L.Connecting1,
                                               h := cl.h.(conn := Some(w.nextConn))));
      Inv(env, w') && Settled(w')
  {
    hide Inv, Settled, L.Owing, L.Enqueue, FindSport, D.SendPacket, TcpBytes, C.SendTcp, PortsOf, ConnsOf;
    hide L.EndsInConnect;
    var code := ConnectCode(env, w, d);
    if d !in w.devices {
      ReplyKeeps(env, w, c, cl, due, Result(code));
    } else {
      var a := FindSport(w, d);
      FreshPort(w, d);
      var dev := w.devices[d].(nextSport := a.next);
      var kn := C.NewConn(d, c, a.port, port, |dev.h.wire|);
      StartedDevice(env, w, d, a.next, a.port != 0, kn);
      if code != RESULT_OK {
        ReplyKeeps(env, StartConnect(env, w, d, port, c), c, cl, due, Result(code));
      } else {
        var base := SetDevice(w, d, D.SendPacket(dev, Tcp, TcpBytes(C.SegmentHeader(kn, SYN)), []));
        L.ConnectPends(env, cl, due, d, w.nextConn);
        PortsFrame(w, base, d);
        ConnectLinks(env, base, c, d, a.port, port, |dev.h.wire|,
                     cl.(connectTag := due.tag, connectDev := d, state := L.Connecting1,
                         h := cl.h.(conn := Some(w.nextConn))));
      }
    }
  }

  lemma FreshPort(w: World, d: nat)
    requires d in w.devices
    ensures FindSport(w, d).port != 0 ==> FindSport(w, d).port !in PortsOf(w, d)
  {
    hide PortsOf, ConnsOf;
  }

  lemma PortsFrame(w: World, w': World, d: nat)
    requires w'.conns == w.conns
    ensures PortsOf(w', d) == PortsOf(w, d)
  {
  }

  /** handle_command in the state CLIENT_COMMAND. */
  lemma ObeyKeeps(env: Env, w: World, c: nat, cl: L.Client, msg: seq<byte>, m: Raw, o: Outside)
    requires Inv(env, w) && Settled(w) && c in w.clients && w.clients[c].state.Commanding?
    requires Decode(msg) == Some(m) && L.Owing(env, cl, L.DueFor(env, msg, cl.proto))
    requires |cl.h.cmds| > 0 && cl.h.cmds[|cl.h.cmds| - 1] == msg
    requires NamesActive(env, w, m, o.stale)
    ensures Inv(env, Obey(env, w, c, cl, m, o)) && Settled(Obey(env, w, c, cl, m, o))
    ensures c in Obey(env, w, c, cl, m, o).clients
  {
    hide Inv, Settled, L.Owing, L.Single, L.Enqueue, L.Interpret, Decode, StartConnect, ConnectCode, AttachAll;
    hide TellPaired, ListDevices, L.Named;
    var order := L.Interpret(env, m);
    var due := L.Due(m.tag, order, cl.proto);
    match order
    case Silent =>
      L.SilenceClears(env, cl);
      L.OwingCommands(env, cl, []);
      SingleUpdated(env, w, c, cl);
      SingleSettled(w, c, cl);
    case Refuse(code) => ReplyKeeps(env, w, c, cl, due, Result(code));
    case Answer =>
      PairedKeeps(env, w, o.paired, c);
      ReplyKeeps(env, TellPaired(env, w, o.paired), c, cl, due, o.answer);
    case ListDevices => ReplyKeeps(env, w, c, cl, due, DeviceList(ListDevices(w, w.nextDevice)));
    case Listen =>
      L.ReplyClears(env, cl, due, Result(RESULT_OK));
      ListenKeeps(env, w, c, L.Enqueue(env, cl, m.tag, Result(RESULT_OK)));
    case Connect =>
      var to := L.Named(env, m, o.stale);
      ConnectKeeps(env, w, c, cl, due, to.dev, to.port);
  }

  lemma PairedKeeps(env: Env, w: World, paired: Option<nat>, c: nat)
    requires Inv(env, w) && Settled(w) && c in w.clients && w.clients[c].state.Commanding?
    ensures
      var w' := TellPaired(env, w, paired);
      Inv(env, w') && Settled(w') && c in w'.clients && w'.clients[c] == w.clients[c]
  {
    hide Inv, TellListeners;
    if paired.Some? && paired.value in w.devices && w.devices[paired.value].state.Active? {
      var body := Body.Paired(paired.value);
      TellKeeps(env, w, body, VisibleDevices(w));
      assert VisibleDevices(TellListeners(env, w, body)) == VisibleDevices(w);
    }
  }

  // ---- input_buffer_process ----

  /** A command is obeyed in the state CLIENT_COMMAND; in any other state the client is closed, and its connection
      with it. */
  lemma HandleKeeps(env: Env, w: World, c: nat, got: seq<byte>, msg: seq<byte>, o: Outside)
    requires Inv(env, w) && Settled(w) && c in w.clients
    requires !w.clients[c].state.Joined? && w.clients[c].events.pollIn
    requires msg == w.clients[c].ib + got && Whole(msg) && Decode(msg).Some?
    requires w.clients[c].state.Commanding? ==> NamesActive(env, w, Decode(msg).value, o.stale)
    ensures
      var w' := HandleCommand(env, w, c, L.Commanded(w.clients[c], got, msg), Decode(msg).value, o);
      && Inv(env, w') && Settled(w')
      && (c in w'.clients <==> w.clients[c].state.Commanding?)
      && (w.clients[c].state.Connecting1? ==>
            w.clients[c].h.conn.Some? && w.clients[c].h.conn.value in w.conns && w.clients[c].h.conn.value !in w'.conns)
  {
    hide Inv, Settled, Obey, ClientClose, Decode, Whole, L.Single, L.Pending, Stream, C.Waiting, C.Established;
    hide L.Owing, L.DueFor, NamesActive, L.Quits;
    LinkOf(env, w, c);
    ReadersSpeak(env, w, c);
    var cl, m := w.clients[c], Decode(msg).value;
    var cmd := L.Commanded(cl, got, msg);
    if cl.state.Commanding? {
      L.CommandedOwes(env, cl, got, msg, m);
      ObeyKeeps(env, w, c, L.Spoken(cmd, m), msg, m, o);
    } else {
      L.RebukeQuits(env, cl, got, msg, m);
      CloseStep(env, w, c, L.Enqueue(env, cmd, m.tag, Result(RESULT_BADCOMMAND)));
    }
  }

  /** A client that is polled for input has no connection or one that is still being set up. */
  lemma ReadersSpeak(env: Env, w: World, c: nat)
    requires Inv(env, w) && c in w.clients && !w.clients[c].state.Joined? && w.clients[c].events.pollIn
    ensures if Linked(w.clients[c].state) then L.Pending(env, w.clients[c]) && w.clients[c].state.Connecting1?
            else L.Single(env, w.clients[c])
  {
    hide Inv, L.Single, L.Pending, Stream, C.Waiting, C.Established, L.Answered, L.AllWhole, Concat;
    LinkOf(env, w, c);
  }

  lemma ReadableKeeps(env: Env, w: World, c: nat, got: seq<byte>, o: Outside)
    requires Inv(env, w) && Settled(w)
    requires c in w.clients ==>
      && !w.clients[c].state.Joined? && w.clients[c].events.pollIn
      && (w.clients[c].state.Commanding? ==> ConnectsToActive(env, w, c, got, o.stale))
    ensures Inv(env, Readable(env, w, c, got, o)) && Settled(Readable(env, w, c, got, o))
  {
    hide Inv, Settled, HandleCommand, ClientClose, Need, L.Single, L.Pending, Stream, C.Waiting, C.Established;
    hide NamesActive, L.Quits;
    if c in w.clients {
      var cl := w.clients[c];
      LinkOf(env, w, c);
      ReadersSpeak(env, w, c);
      L.MayQuit(env, cl);
      if !(0 < |got| <= Need(cl.ib)) {
        assert SetClient(w, c, cl) == w;
        CloseStep(env, w, c, cl);
      } else {
        match Receive(cl.ib, got)
        case Partial(ib) =>
          L.BufferedKeeps(env, cl, got, ib);
          BufferedPairs(env, w, c, got, ib);
        case BadLength =>
          L.SpoiltQuits(env, cl, got);
          CloseStep(env, w, c, L.Spoilt(cl, got));
        case Command(msg) =>
          WholeDecodes(msg);
          HandleKeeps(env, w, c, got, msg, o);
          FaultCounted(env, HandleCommand(env, w, c, L.Commanded(cl, got, msg), Decode(msg).value, o));
      }
    }
  }

  lemma BufferedPairs(env: Env, w: World, c: nat, got: seq<byte>, ib: InBuffer)
    requires Inv(env, w) && Settled(w) && c in w.clients && ib == w.clients[c].ib + got
    requires !w.clients[c].state.Joined? && w.clients[c].events.pollIn
    ensures
      var w' := SetClient(w, c, L.Buffered(w.clients[c], got, ib));
      Inv(env, w') && Settled(w')
  {
    hide Inv, Settled, L.Single, L.Pending, L.Joining, L.InStream, C.Waiting, C.Established, Seen;
    LinkOf(env, w, c);
    ReadersSpeak(env, w, c);
    var cl := w.clients[c];
    var cl' := L.Buffered(cl, got, ib);
    L.BufferedKeeps(env, cl, got, ib);
    if Linked(cl.state) {
      LinkedUpdated(env, w, c, cl');
    } else {
      SingleUpdated(env, w, c, cl');
      ListenerFrame(w, c);
      SingleSettled(w, c, cl');
    }
  }

  lemma ListenerFrame(w: World, c: nat)
    requires Settled(w) && c in w.clients
    ensures w.clients[c].state.Listening? ==> Seen(w.clients[c].h.msgs) == VisibleDevices(w)
  {
    hide Seen;
  }
}
