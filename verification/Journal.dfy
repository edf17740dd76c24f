/** The histories of connections and clients, told from the events of a run alone: the bytes that arrived, the bytes
    that sockets gave and took, the headers heard, and the time of every segment. */
module Journal {
  import opened Basics
  import opened MuxPacket
  import opened ClientMessage
  import opened CommandFraming
  import opened Environment
  import opened Daemon
  import opened Invariant
  import opened Release
  import opened Serving
  import opened ClientSteps
  import opened Reachable
  import opened Projection
  import opened Ledger
  import C = Connection
  import L = Client
  import D = Device

  // ---- What an event brings ----

  /** The segment that an event brings to connection k. */
  predicate Reaches(w: World, e: Event, k: nat)
  {
    ArrivalOf(w, e).Arrival? && ArrivalOf(w, e).k == k && k in w.conns
  }

  /** Its header, if there is one. */
  function HeardNow(w: World, e: Event, k: nat): seq<TcpHeader>
  {
    if Reaches(w, e, k) then [ArrivalOf(w, e).th] else []
  }

  /** Its payload, if it is an ACK for an established connection that has room. */
  function ArrivedNow(w: World, e: Event, k: nat): seq<byte>
  {
    if Reaches(w, e, k) && w.conns[k].state.Connected? && ArrivalOf(w, e).th.flags == ACK
       && |w.conns[k].ib| + |ArrivalOf(w, e).payload| <= 262144
    then ArrivalOf(w, e).payload else []
  }

  /** The sequence number of a SYN/ACK that answers the connection's SYN. */
  function AnsweredNow(w: World, e: Event, k: nat): seq<u32>
  {
    if Reaches(w, e, k) && w.conns[k].state.Connecting? && ArrivalOf(w, e).th.flags == SYN_ACK
    then [ArrivalOf(w, e).th.seqno] else []
  }

  /** Connection k is the one that serves the client of this event. */
  predicate ServesNow(w: World, e: Event, k: nat)
  {
    && e.ClientServed? && e.c in w.clients && w.clients[e.c].state.Joined?
    && k in w.conns && w.conns[k].client == Some(e.c)
  }

  /** How many raw bytes the client's socket took, and which it gave. */
  function WrittenNow(w: World, e: Event, k: nat): nat
  {
    if ServesNow(w, e, k) && e.io.write.Some? && 0 < e.io.write.value <= |w.conns[k].ib| then e.io.write.value else 0
  }

  function TakenNow(w: World, e: Event, k: nat): seq<byte>
  {
    if ServesNow(w, e, k) && WritesWell(w.conns[k], e.io) && e.io.read.Some?
       && 0 < |e.io.read.value| <= w.conns[k].sendable
    then e.io.read.value else []
  }

  /** What a client's socket gave, and how much it took, in any phase. */
  function ReceivedNow(w: World, e: Event, c: nat): seq<byte>
  {
    if c !in w.clients then []
    else if e.ClientReadable? && e.c == c && 0 < |e.got| <= Need(w.clients[c].ib) then e.got
    else if e.ClientServed? && e.c == c && w.clients[c].h.conn.Some? then TakenNow(w, e, w.clients[c].h.conn.value)
    else []
  }

  function SentNow(w: World, e: Event, c: nat): nat
  {
    if c !in w.clients then 0
    else if e.ClientWritable? && e.c == c && 0 < e.n <= |w.clients[c].ob| then e.n
    else if e.ClientServed? && e.c == c && w.clients[c].h.conn.Some? then WrittenNow(w, e, w.clients[c].h.conn.value)
    else 0
  }

  // ---- The same, entered into the histories ----

  function Last<T>(before: T, more: seq<T>): T { if |more| == 0 then before else more[|more| - 1] }

  predicate Resetting(ths: seq<TcpHeader>) { exists i :: 0 <= i < |ths| && HasRst(ths[i].flags) }

  /** The inputs of h' are those of h and what the event brings. */
  predicate Entered(w: World, e: Event, k: nat, h: C.ConnHistory, h': C.ConnHistory)
  {
    && h'.accepted == h.accepted + ArrivedNow(w, e, k) && h'.taken == h.taken + TakenNow(w, e, k)
    && h'.heard == Last(h.heard, HeardNow(w, e, k)) && h'.isn == Last(h.isn, AnsweredNow(w, e, k))
    && h'.gotRst == (h.gotRst || Resetting(HeardNow(w, e, k))) && h'.line == h.line
  }

  predicate Blank(h: C.ConnHistory) { h == C.NewHistory(h.line) }

  predicate IsNew(kn: C.Conn) { Blank(kn.h) && kn.h.line.dev == kn.dev && kn.state.Connecting? }

  /** World b is w with what the event brings, a blank connection or client, or a device. */
  ghost predicate Begins(w: World, e: Event, b: World)
  {
    && b.clock == w.clock && b.pastConns == w.pastConns && b.pastClients == w.pastClients
    && (forall k :: k in w.conns ==> k in b.conns && BeginsConn(w, e, k, b.conns[k]))
    && (forall k :: k in b.conns && k !in w.conns ==> k !in w.pastConns && IsNew(b.conns[k]))
    && (forall c :: c in w.clients ==> c in b.clients && BeginsClient(w, e, c, b.clients[c]))
    && (forall c :: c in b.clients && c !in w.clients ==> c !in w.pastClients && b.clients[c] == L.NEW_CLIENT)
    && (forall d :: d in b.devices && d !in w.devices ==> d == w.nextDevice)
  }

  predicate BeginsConn(w: World, e: Event, k: nat, kn: C.Conn)
    requires k in w.conns
  {
    && Entered(w, e, k, w.conns[k].h, kn.h) && kn.h.tx == w.conns[k].h.tx && kn.dev == w.conns[k].dev
    && kn.state == w.conns[k].state && Direct(kn.h) == Direct(w.conns[k].h) + WrittenNow(w, e, k)
  }

  predicate BeginsClient(w: World, e: Event, c: nat, cl: L.Client)
    requires c in w.clients
  {
    && cl.h.received == w.clients[c].h.received + ReceivedNow(w, e, c)
    && |cl.h.sent| == |w.clients[c].h.sent| + SentNow(w, e, c)
  }

  /** An event that is neither a transfer nor a service brings nothing to connections. */
  lemma ConnsIdle(w: World, e: Event)
    requires !e.Transfer? && !e.ClientServed?
    ensures forall k :: k in w.conns ==> BeginsConn(w, e, k, w.conns[k])
  {
  }

  /** One that comes from no client's socket brings nothing to clients. */
  lemma ClientsIdle(w: World, e: Event, c: nat)
    requires e.ClientReadable? || e.ClientWritable? || e.ClientServed? ==> c != e.c
    ensures c in w.clients ==> BeginsClient(w, e, c, w.clients[c])
  {
  }

  lemma ConnsAlone(w: World, e: Event, b: World)
    requires b.conns == w.conns && b.pastConns == w.pastConns && b.clock == w.clock
    requires b.pastClients == w.pastClients && b.clients.Keys == w.clients.Keys && b.devices == w.devices
    requires !e.Transfer? && !e.ClientServed?
    requires forall c :: c in w.clients ==> BeginsClient(w, e, c, b.clients[c])
    ensures Begins(w, e, b)
  {
    hide BeginsConn, BeginsClient;
    ConnsIdle(w, e);
  }

  // ---- Events of clients ----

  /** The client's record with what it was sent. */
  function Fed(cl: L.Client, got: seq<byte>): L.Client { cl.(h := cl.h.(received := cl.h.received + got)) }

  lemma ClientOnly(w: World, c: nat, fed: L.Client, cl: L.Client)
    requires cl.h.received == fed.h.received && cl.h.sent == fed.h.sent
    ensures Steady(SetClient(w, c, fed), SetClient(w, c, cl), {}, {})
  {
    hide Steady;
    SetClientSteady(SetClient(w, c, fed), c, cl);
    assert w.clients[c := fed][c := cl] == w.clients[c := cl];
  }

  lemma {:induction false} AttachAllSteady(env: Env, w: World, cl: L.Client, d: nat)
    ensures AttachAll(env, w, cl, d).h.received == cl.h.received && AttachAll(env, w, cl, d).h.sent == cl.h.sent
    decreases d
  {
    if d > 0 {
      AttachAllSteady(env, w, cl, d - 1);
    }
  }

  lemma ClosedSteady(env: Env, w: World, c: nat, fed: L.Client, cl: L.Client)
    requires cl.h.received == fed.h.received && cl.h.sent == fed.h.sent
    ensures Steady(SetClient(w, c, fed), ClientClose(env, SetClient(w, c, cl), c), {}, {})
  {
    hide Steady, ClientClose;
    ClientOnly(w, c, fed, cl);
    CloseSteady(env, SetClient(w, c, cl), c);
    ThenSteady(SetClient(w, c, fed), SetClient(w, c, cl), ClientClose(env, SetClient(w, c, cl), c));
  }

  /** Everything but a successful Connect. */
  lemma OrderSteady(env: Env, w: World, c: nat, fed: L.Client, cl: L.Client, m: Raw, o: Outside)
    requires cl.h.received == fed.h.received && cl.h.sent == fed.h.sent && !L.Interpret(env, m).Connect?
    ensures Steady(SetClient(w, c, fed), Obey(env, w, c, cl, m, o), {}, {})
  {
    hide Steady, AttachAll, Encode, Wire, L.Interpret, ListDevices;
    match L.Interpret(env, m)
    case Silent => ClientOnly(w, c, fed, cl);
    case Refuse(code) => ClientOnly(w, c, fed, L.Enqueue(env, cl, m.tag, Result(code)));
    case Answer =>
      var told, answered := TellPaired(env, w, o.paired), L.Enqueue(env, cl, m.tag, o.answer);
      ClientOnly(told, c, fed, answered);
      RestSteady(SetClient(w, c, fed), SetClient(told, c, fed));
      ThenSteady(SetClient(w, c, fed), SetClient(told, c, fed), SetClient(told, c, answered));
    case ListDevices =>
      ClientOnly(w, c, fed, L.Enqueue(env, cl, m.tag, DeviceList(ListDevices(w, w.nextDevice))));
    case Listen =>
      var told := L.Enqueue(env, cl, m.tag, Result(RESULT_OK)).(state := L.Listening);
      AttachAllSteady(env, w, told, w.nextDevice);
      ClientOnly(w, c, fed, AttachAll(env, w, told, w.nextDevice));
  }

  /** A Connect that fails. */
  lemma DeclinedSteady(env: Env, w: World, c: nat, fed: L.Client, cl: L.Client, d: nat, port: u16)
    requires cl.h.received == fed.h.received && cl.h.sent == fed.h.sent && ConnectCode(env, w, d) != RESULT_OK
    ensures Steady(SetClient(w, c, fed), SetClient(StartConnect(env, w, d, port, c), c, cl), {}, {})
  {
    hide Steady, D.SendPacket, TcpBytes, FindSport;
    var started := StartConnect(env, w, d, port, c);
    if d in w.devices {
      var dev := w.devices[d].(nextSport := FindSport(w, d).next);
      var kn := C.NewConn(d, c, FindSport(w, d).port, port, |dev.h.wire|);
      SentState(dev, Tcp, TcpBytes(C.SegmentHeader(kn, SYN)), []);
    }
    ClientOnly(started, c, fed, cl);
    RestSteady(SetClient(w, c, fed), SetClient(started, c, fed));
    ThenSteady(SetClient(w, c, fed), SetClient(started, c, fed), SetClient(started, c, cl));
  }

  /** A Connect that starts a connection. */
  lemma StartedSteady(env: Env, w: World, c: nat, fed: L.Client, cl: L.Client, d: nat, port: u16) returns (kn: C.Conn)
    requires cl.h.received == fed.h.received && cl.h.sent == fed.h.sent && ConnectCode(env, w, d) == RESULT_OK
    ensures IsNew(kn)
    ensures Steady(SetClient(SetConn(w, w.nextConn, kn), c, fed),
                   SetClient(StartConnect(env, w, d, port, c), c, cl), {}, {})
  {
    hide Steady, D.SendPacket, TcpBytes, FindSport;
    var started := StartConnect(env, w, d, port, c);
    var dev := w.devices[d].(nextSport := FindSport(w, d).next);
    kn := C.NewConn(d, c, FindSport(w, d).port, port, |dev.h.wire|);
    SentState(dev, Tcp, TcpBytes(C.SegmentHeader(kn, SYN)), []);
    var open := SetConn(w, w.nextConn, C.SendTcp(kn, SYN, [], true, w.clock));
    PairReplaced(w, w.nextConn, c, kn, C.SendTcp(kn, SYN, [], true, w.clock), fed, cl);
    RestSteady(SetClient(open, c, cl), SetClient(started, c, cl));
    ThenSteady(SetClient(SetConn(w, w.nextConn, kn), c, fed), SetClient(open, c, cl), SetClient(started, c, cl));
  }

  /** The world before a command is obeyed: its bytes are read, and a connection that it starts is there, blank. */
  ghost predicate Opens(w: World, c: nat, fed: L.Client, b: World)
  {
    || b == SetClient(w, c, fed)
    || (w.nextConn in b.conns && IsNew(b.conns[w.nextConn])
        && b == SetClient(SetConn(w, w.nextConn, b.conns[w.nextConn]), c, fed))
  }

  lemma ObeySteady(env: Env, w: World, c: nat, fed: L.Client, cl: L.Client, m: Raw, o: Outside) returns (b: World)
    requires cl.h.received == fed.h.received && cl.h.sent == fed.h.sent
    ensures Opens(w, c, fed, b) && Steady(b, Obey(env, w, c, cl, m, o), {}, {})
  {
    hide Steady, Encode, Wire, L.Interpret, L.Named, StartConnect, ConnectCode, IsNew;
    b := SetClient(w, c, fed);
    if !L.Interpret(env, m).Connect? {
      OrderSteady(env, w, c, fed, cl, m, o);
    } else {
      var to := L.Named(env, m, o.stale);
      var code := ConnectCode(env, w, to.dev);
      if code != RESULT_OK {
        DeclinedSteady(env, w, c, fed, L.Enqueue(env, cl, m.tag, Result(code)), to.dev, to.port);
      } else {
        var kn := StartedSteady(env, w, c, fed, cl.(connectTag := m.tag, connectDev := to.dev, state := L.Connecting1,
                                                    h := cl.h.(conn := Some(w.nextConn))), to.dev, to.port);
        b := SetClient(SetConn(w, w.nextConn, kn), c, fed);
      }
    }
  }

  lemma FaultedSteady(b: World, w': World)
    requires Steady(b, w', {}, {})
    ensures Steady(b, Fault(w'), {}, {})
  {
    hide Steady;
    FaultSteady(w');
    ThenSteady(b, w', Fault(w'));
  }

  lemma ReadableSteady(env: Env, w: World, c: nat, got: seq<byte>, o: Outside) returns (b: World)
    requires c in w.clients
    ensures Steady(b, Readable(env, w, c, got, o), {}, {})
    ensures if 0 < |got| <= Need(w.clients[c].ib) then Opens(w, c, Fed(w.clients[c], got), b) else b == w
  {
    hide Steady, ClientClose, Need, Obey, Decode, Encode, Wire, Receive, Opens;
    var cl := w.clients[c];
    b := w;
    if !(0 < |got| <= Need(cl.ib)) {
      CloseSteady(env, w, c);
    } else {
      var fed := Fed(cl, got);
      b := SetClient(w, c, fed);
      assert Opens(w, c, fed, b) by { OpensAsIs(w, c, fed); }
      match Receive(cl.ib, got)
      case Partial(ib) => ClientOnly(w, c, fed, L.Buffered(cl, got, ib));
      case BadLength => ClosedSteady(env, w, c, fed, L.Spoilt(cl, got));
      case Command(msg) =>
        WholeDecodes(msg);
        var cmd, m := L.Commanded(cl, got, msg), Decode(msg).value;
        if cl.state.Commanding? {
          b := ObeySteady(env, w, c, fed, L.Spoken(cmd, m), m, o);
        } else {
          ClosedSteady(env, w, c, fed, L.Enqueue(env, cmd, m.tag, Result(RESULT_BADCOMMAND)));
        }
        FaultedSteady(b, HandleCommand(env, w, c, cmd, m, o));
    }
  }

  lemma OpensAsIs(w: World, c: nat, fed: L.Client)
    ensures Opens(w, c, fed, SetClient(w, c, fed))
  {
  }

  lemma FedBegins(w: World, e: Event, b: World)
    requires e.ClientReadable? && e.c in w.clients && 0 < |e.got| <= Need(w.clients[e.c].ib)
    requires w.nextConn !in w.conns && w.nextConn !in w.pastConns && Opens(w, e.c, Fed(w.clients[e.c], e.got), b)
    ensures Begins(w, e, b)
  {
    hide BeginsConn, BeginsClient, Need, IsNew;
    ConnsIdle(w, e);
    assert BeginsClient(w, e, e.c, Fed(w.clients[e.c], e.got)) by { FedIs(w, e); }
    forall c | c in w.clients && c != e.c
      ensures BeginsClient(w, e, c, w.clients[c])
    {
      ClientsIdle(w, e, c);
    }
  }

  lemma FedIs(w: World, e: Event)
    requires e.ClientReadable? && e.c in w.clients && 0 < |e.got| <= Need(w.clients[e.c].ib)
    ensures BeginsClient(w, e, e.c, Fed(w.clients[e.c], e.got))
  {
  }

  lemma ReadableBegins(env: Env, w: World, e: Event) returns (b: World)
    requires Inv(env, w) && e.ClientReadable?
    ensures Steady(b, Act(env, w, e), {}, {}) && Begins(w, e, b)
  {
    hide Steady, Need, Inv, Readable, Opens, Begins;
    NextConnIsFree(env, w);
    b := w;
    if e.c in w.clients {
      b := ReadableSteady(env, w, e.c, e.got, e.o);
      if 0 < |e.got| <= Need(w.clients[e.c].ib) {
        FedBegins(w, e, b);
      } else {
        IdleBegins(w, e);
      }
    } else {
      NothingSteady(w);
      IdleBegins(w, e);
      assert Readable(env, w, e.c, e.got, e.o) == w by { Absent(env, w, e.c, e.got, e.o); }
    }
  }

  /** An event that brings nothing at all. */
  lemma IdleBegins(w: World, e: Event)
    requires !e.Transfer? && !e.ClientServed?
    requires e.ClientReadable? && e.c in w.clients ==> !(0 < |e.got| <= Need(w.clients[e.c].ib))
    requires e.ClientWritable? && e.c in w.clients ==> !(0 < e.n <= |w.clients[e.c].ob|)
    ensures Begins(w, e, w)
  {
    hide BeginsConn, Begins, Need;
    ConnsAlone(w, e, w);
  }

  lemma Absent(env: Env, w: World, c: nat, got: seq<byte>, o: Outside)
    requires c !in w.clients
    ensures Readable(env, w, c, got, o) == w
  {
  }

  lemma WritableBegins(env: Env, w: World, e: Event) returns (b: World)
    requires e.ClientWritable?
    ensures Steady(b, Act(env, w, e), {}, {}) && Begins(w, e, b)
  {
    hide Steady, ClientClose, Begins;
    NothingSteady(w);
    b := w;
    if e.c in w.clients && 0 < e.n <= |w.clients[e.c].ob| {
      var cl := w.clients[e.c];
      var sent := L.RawSent(cl, cl.ob[..e.n]);
      b := SetClient(w, e.c, sent);
      ClientOnly(w, e.c, sent, L.Sent(cl, e.n));
      forall c | c in w.clients
        ensures BeginsClient(w, e, c, b.clients[c])
      {
        if c != e.c {
          ClientsIdle(w, e, c);
        }
      }
      ConnsAlone(w, e, b);
    } else {
      IdleBegins(w, e);
      if e.c in w.clients {
        var cl := w.clients[e.c];
        if cl.ob == [] {
          SetClientSteady(w, e.c, cl.(events := cl.events.(pollOut := false)));
        } else {
          CloseSteady(env, w, e.c);
        }
      }
    }
  }

  /** Connection k is the one that device_client_process finds for its client. */
  lemma MoveBegins(w: World, e: Event, k: nat)
    requires e.ClientServed? && e.c in w.clients && w.clients[e.c].state.Joined? && k in w.conns
    requires w.clients[e.c].h.conn == Some(k)
    requires forall j :: j in w.conns ==> (w.conns[j].client == Some(e.c) <==> j == k)
    ensures
      var kn := w.conns[k];
      var n := if WritesWell(kn, e.io) then Written(kn, e.io) else 0;
      var data := if WritesWell(kn, e.io) && ReadsWell(kn, e.io) then Taken(kn, e.io) else [];
      Begins(w, e, Move(w, k, e.c, n, data))
  {
    hide BeginsConn, BeginsClient, WritesWell, ReadsWell, Written, Taken;
    var kn := w.conns[k];
    var n := if WritesWell(kn, e.io) then Written(kn, e.io) else 0;
    var data := if WritesWell(kn, e.io) && ReadsWell(kn, e.io) then Taken(kn, e.io) else [];
    MovedNow(w, e, k);
    var b := Move(w, k, e.c, n, data);
    MoveConn(w, e, k, n, data);
    MoveClient(w, e, k, n, data);
    forall j | j in w.conns && j != k
      ensures BeginsConn(w, e, j, w.conns[j])
    {
      UnservedConn(w, e, j);
    }
    forall c | c in w.clients && c != e.c
      ensures BeginsClient(w, e, c, w.clients[c])
    {
      ClientsIdle(w, e, c);
    }
  }

  lemma MovedNow(w: World, e: Event, k: nat)
    requires ServesNow(w, e, k)
    ensures WrittenNow(w, e, k) == (if WritesWell(w.conns[k], e.io) then Written(w.conns[k], e.io) else 0)
    ensures TakenNow(w, e, k) ==
            (if WritesWell(w.conns[k], e.io) && ReadsWell(w.conns[k], e.io) then Taken(w.conns[k], e.io) else [])
    ensures WrittenNow(w, e, k) <= |w.conns[k].ib|
  {
  }

  lemma MoveConn(w: World, e: Event, k: nat, n: nat, data: seq<byte>)
    requires e.ClientServed? && k in w.conns && e.c in w.clients && n <= |w.conns[k].ib|
    requires n == WrittenNow(w, e, k) && data == TakenNow(w, e, k)
    ensures BeginsConn(w, e, k, Move(w, k, e.c, n, data).conns[k])
  {
    hide WrittenNow, TakenNow;
  }

  lemma MoveClient(w: World, e: Event, k: nat, n: nat, data: seq<byte>)
    requires e.ClientServed? && k in w.conns && e.c in w.clients && n <= |w.conns[k].ib|
    requires w.clients[e.c].h.conn == Some(k) && n == WrittenNow(w, e, k) && data == TakenNow(w, e, k)
    ensures BeginsClient(w, e, e.c, Move(w, k, e.c, n, data).clients[e.c])
  {
    hide WrittenNow, TakenNow;
  }

  lemma UnservedConn(w: World, e: Event, j: nat)
    requires e.ClientServed? && j in w.conns && w.conns[j].client != Some(e.c)
    ensures BeginsConn(w, e, j, w.conns[j])
  {
  }

  lemma ServedBegins(env: Env, w: World, e: Event) returns (b: World)
    requires Inv(env, w) && e.ClientServed? && (e.c in w.clients ==> w.clients[e.c].state.Joined?)
    ensures Steady(b, Act(env, w, e), {}, {}) && Begins(w, e, b)
  {
    hide Inv, Steady, Begins, ProcessWrite, Move, PairOk, L.Single, WritesWell, ReadsWell, Written, Taken;
    if e.c in w.clients {
      LinkOf(env, w, e.c);
      var k := w.clients[e.c].h.conn.value;
      InvWires(env, w, k);
      FindConnIs(w, k, e.c, w.nextConn);
      ProcessSteady(env, w, k, e.c, e.io);
      MoveBegins(w, e, k);
      var kn := w.conns[k];
      var n := if WritesWell(kn, e.io) then Written(kn, e.io) else 0;
      var data := if WritesWell(kn, e.io) && ReadsWell(kn, e.io) then Taken(kn, e.io) else [];
      b := Move(w, k, e.c, n, data);
    } else {
      b := w;
      NothingSteady(w);
      assert Begins(w, e, w) by { NoService(w, e); }
    }
  }

  lemma NoService(w: World, e: Event)
    requires e.ClientServed? && e.c !in w.clients
    ensures Begins(w, e, w)
  {
  }

  // ---- Events of devices ----

  lemma ArriveBegins(w: World, e: Event)
    requires e.Transfer?
    ensures Begins(w, e, Arrive(w, ArrivalOf(w, e)))
  {
    hide ArrivalOf, BeginsConn, BeginsClient, SegmentNote;
    forall k | k in w.conns
      ensures BeginsConn(w, e, k, Arrive(w, ArrivalOf(w, e)).conns[k])
    {
      ArriveConn(w, e, k);
    }
    forall c | c in w.clients
      ensures BeginsClient(w, e, c, w.clients[c])
    {
      ClientsIdle(w, e, c);
    }
  }

  lemma ArriveConn(w: World, e: Event, k: nat)
    requires e.Transfer? && k in w.conns
    ensures BeginsConn(w, e, k, Arrive(w, ArrivalOf(w, e)).conns[k])
  {
    hide ArrivalOf, HasRst;
    if Reaches(w, e, k) {
      ResettingOne(ArrivalOf(w, e).th);
    }
  }

  lemma ResettingOne(th: TcpHeader)
    ensures Resetting([th]) == HasRst(th.flags)
  {
    assert [th][0] == th;
  }

  lemma TransferBegins(env: Env, w: World, e: Event) returns (b: World)
    requires Inv(env, w) && e.Transfer?
    ensures Steady(b, Act(env, w, e), {}, {}) && Begins(w, e, b)
  {
    hide Inv, Steady, Begins, DataInput, Arrive, ArrivalOf, ConnOk;
    forall k | k in w.conns
      ensures w.conns[k].state.Connecting? || w.conns[k].state.Connected?
    {
      LiveState(env, w, k);
    }
    DataInputSteady(env, w, e.d, e.chunk);
    ArriveBegins(w, e);
    b := Arrive(w, ArrivalOf(w, e));
  }

  lemma LiveState(env: Env, w: World, k: nat)
    requires Inv(env, w) && k in w.conns
    ensures w.conns[k].state.Connecting? || w.conns[k].state.Connected?
  {
    hide Inv, C.Waiting, C.Established, L.Pending, L.Joining, L.InStream;
    ConnFacts(env, w, k);
  }

  lemma OtherBegins(env: Env, w: World, e: Event) returns (b: World)
    requires Inv(env, w) && (e.Accept? || e.Attach? || e.Show? || e.Detach? || e.Tick?)
    ensures Steady(b, Act(env, w, e), {}, {}) && Begins(w, e, b)
  {
    hide Inv, Steady, Begins, DeviceRemove, CheckTimeouts, DeviceAdd, Announce, Need;
    b := w;
    match e
    case Accept =>
      b := SetClient(w, w.nextClient, L.NEW_CLIENT);
      RestSteady(b, Act(env, w, e));
      NewClientBegins(env, w);
    case Attach(info) =>
      b := Act(env, w, e);
      NothingSteady(b);
      NewDeviceBegins(env, w, info);
    case Show(d, info) =>
      ShowSteady(env, w, d, info);
      IdleBegins(w, e);
    case Detach(d) =>
      RemoveSteady(env, w, d);
      IdleBegins(w, e);
    case Tick =>
      TickSteady(env, w, w.nextConn);
      IdleBegins(w, e);
  }

  lemma ShowSteady(env: Env, w: World, d: nat, info: seq<byte>)
    ensures Steady(w, Announce(env, w, d, info), {}, {})
  {
    hide Steady, Encode, Wire;
    RestSteady(w, Announce(env, w, d, info));
  }

  lemma NewClientBegins(env: Env, w: World)
    requires Inv(env, w)
    ensures Begins(w, Accept, SetClient(w, w.nextClient, L.NEW_CLIENT))
  {
    hide Inv, BeginsConn, BeginsClient;
    NextClientIsFree(env, w);
    ConnsIdle(w, Accept);
    forall c | c in w.clients
      ensures BeginsClient(w, Accept, c, w.clients[c])
    {
      ClientsIdle(w, Accept, c);
    }
  }

  lemma NewDeviceBegins(env: Env, w: World, info: seq<byte>)
    ensures Begins(w, Attach(info), DeviceAdd(env, w, info))
  {
    hide BeginsConn, BeginsClient, D.SendPacket, D.SendOk, VersionBytes;
    ConnsIdle(w, Attach(info));
    forall c | c in w.clients
      ensures BeginsClient(w, Attach(info), c, w.clients[c])
    {
      ClientsIdle(w, Attach(info), c);
    }
  }

  lemma ActBegins(env: Env, w: World, e: Event) returns (b: World)
    requires Inv(env, w) && Enabled(env, w, e)
    ensures Steady(b, Act(env, w, e), {}, {}) && Begins(w, e, b)
  {
    hide Inv, Steady, Begins, Act, ConnectsToActive;
    match e
    case ClientReadable(_, _, _) => b := ReadableBegins(env, w, e);
    case ClientWritable(_, _) => b := WritableBegins(env, w, e);
    case ClientServed(_, _) => b := ServedBegins(env, w, e);
    case Transfer(_, _) => b := TransferBegins(env, w, e);
    case _ => b := OtherBegins(env, w, e);
  }

  // ---- Steps ----

  /** What a step does to the history of connection k: what the event brings is entered, segments built now are added.
      A connection that was not there before starts blank. */
  ghost predicate ConnBooked(w: World, t: Timed, w': World, k: nat)
  {
    && (ConnH(w, k).Some? ==>
          && ConnH(w', k).Some? && Entered(w, t.event, k, ConnH(w, k).value, ConnH(w', k).value)
          && Grown(ConnH(w, k).value, ConnH(w', k).value, t.now)
          && Direct(ConnH(w', k).value) == Direct(ConnH(w, k).value) + WrittenNow(w, t.event, k))
    && (ConnH(w, k).None? && ConnH(w', k).Some? ==>
          var h, h' := C.NewHistory(ConnH(w', k).value.line), ConnH(w', k).value;
          SameInputs(h, h') && Grown(h, h', t.now) && Direct(h') == 0)
  }

  ghost predicate ClientBooked(w: World, t: Timed, w': World, c: nat)
  {
    && (ClientH(w, c).Some? ==>
          && ClientH(w', c).Some?
          && ClientH(w', c).value.received == ClientH(w, c).value.received + ReceivedNow(w, t.event, c))
    && (ClientH(w, c).None? && ClientH(w', c).Some? ==>
          ClientH(w', c).value.received == [] && (c in w'.clients ==> w'.clients[c].h.sent == []))
    && (c in w'.clients ==> (c in w.clients <==> ClientH(w, c).Some?))
    && (c in w'.clients && c in w.clients ==>
          |w'.clients[c].h.sent| == |w.clients[c].h.sent| + SentNow(w, t.event, c))
  }

  lemma BookConn(w: World, t: Timed, b: World, w': World, k: nat)
    requires Begins(w, t.event, b) && Steady(b, w', {}, {}) && w.clock == t.now
    requires k in w.conns ==> k !in w.pastConns
    ensures ConnBooked(w, t, w', k)
  {
    hide ArrivedNow, TakenNow, HeardNow, AnsweredNow, WrittenNow, Sound, Hung, ClientSteady, BeginsClient, Resetting;
    assert ConnSteady(b, w', k);
    if k in w.conns {
      assert BeginsConn(w, t.event, k, b.conns[k]);
    } else if k in w.pastConns {
      NothingForPast(w, t.event, k);
      assert k !in b.conns;
    }
  }

  lemma NothingForPast(w: World, e: Event, k: nat)
    requires k !in w.conns
    ensures ArrivedNow(w, e, k) == [] && TakenNow(w, e, k) == [] && HeardNow(w, e, k) == []
    ensures AnsweredNow(w, e, k) == [] && WrittenNow(w, e, k) == 0 && !Resetting(HeardNow(w, e, k))
  {
  }

  lemma BookClient(w: World, t: Timed, b: World, w': World, c: nat)
    requires Begins(w, t.event, b) && Steady(b, w', {}, {}) && w.clock == t.now
    requires c in w.clients ==> c !in w.pastClients
    ensures ClientBooked(w, t, w', c)
  {
    hide ReceivedNow, SentNow, Sound, Hung, ConnSteady, BeginsConn, IsNew, Grown, SameInputs;
    assert ClientSteady(b, w', c);
    if c in w.clients {
      assert BeginsClient(w, t.event, c, b.clients[c]);
    } else if c in w.pastClients {
      assert c !in b.clients;
      assert ReceivedNow(w, t.event, c) == [] by { NothingFromPast(w, t.event, c); }
    }
  }

  lemma NothingFromPast(w: World, e: Event, c: nat)
    requires c !in w.clients
    ensures ReceivedNow(w, e, c) == [] && SentNow(w, e, c) == 0
  {
  }

  /** The clock says nothing about what an event brings. */
  lemma ClockBooks(w: World, now: nat, t: Timed, w': World, k: nat)
    requires ConnBooked(w.(clock := now), t, w', k)
    ensures ConnBooked(w, t, w', k)
  {
    hide ArrivalOf, Grown, Resetting, WritesWell;
    ArrivalFrame(w, w.(clock := now), t.event);
  }

  lemma ClockBooksClient(w: World, now: nat, t: Timed, w': World, c: nat)
    requires ClientBooked(w.(clock := now), t, w', c)
    ensures ClientBooked(w, t, w', c)
  {
    hide WritesWell, Need;
  }

  /** A step of a reachable state books exactly what its event brings, for every connection and client. */
  lemma StepBooks(env: Env, w: World, t: Timed, k: nat, c: nat)
    requires Inv(env, w) && Possible(env, w, t)
    ensures ConnBooked(w, t, Step(env, w, t), k)
    ensures ClientBooked(w, t, Step(env, w, t), c)
  {
    hide Inv, Act, Begins, Steady, ConnBooked, ClientBooked, Enabled;
    var w1 := w.(clock := t.now);
    ClockAdvanced(env, w, t.now);
    ClockEnabled(env, w, t.now, t.event);
    var b := ActBegins(env, w1, t.event);
    NotPast(env, w1, k, c);
    BookConn(w1, t, b, Act(env, w1, t.event), k);
    BookClient(w1, t, b, Act(env, w1, t.event), c);
    ClockBooks(w, t.now, t, Act(env, w1, t.event), k);
    ClockBooksClient(w, t.now, t, Act(env, w1, t.event), c);
  }

  lemma NotPast(env: Env, w: World, k: nat, c: nat)
    requires Inv(env, w)
    ensures k in w.conns ==> k !in w.pastConns
    ensures c in w.clients ==> c !in w.pastClients
  {
    hide Inv, ConnOk, ClientOk;
    if k in w.conns {
      ConnFacts(env, w, k);
    }
    if c in w.clients {
      ClientFacts(env, w, c);
    }
  }

  lemma ClockEnabled(env: Env, w: World, now: nat, e: Event)
    requires Enabled(env, w, e)
    ensures Enabled(env, w.(clock := now), e)
  {
    hide ConnectsToActive;
    if e.ClientReadable? && e.c in w.clients {
      ActiveFrame(env, w, now, e.c, e.got, e.o.stale);
    }
  }

  // ---- Runs ----

  /** The payloads, in order, of the segments that arrived for connection k in a run, carried ACK alone, and found the
      connection established and with room. */
  function Arrived(env: Env, ts: seq<Timed>, k: nat): seq<byte>
  {
    if ts == [] then []
    else
      var was, t := ts[..|ts| - 1], ts[|ts| - 1];
      Arrived(env, was, k) + ArrivedNow(Run(env, was), t.event, k)
  }

  /** The headers of all segments for connection k, and the sequence numbers of those that answered its SYN. */
  function Headers(env: Env, ts: seq<Timed>, k: nat): seq<TcpHeader>
  {
    if ts == [] then []
    else
      var was, t := ts[..|ts| - 1], ts[|ts| - 1];
      Headers(env, was, k) + HeardNow(Run(env, was), t.event, k)
  }

  function Answers(env: Env, ts: seq<Timed>, k: nat): seq<u32>
  {
    if ts == [] then []
    else
      var was, t := ts[..|ts| - 1], ts[|ts| - 1];
      Answers(env, was, k) + AnsweredNow(Run(env, was), t.event, k)
  }

  /** The raw bytes that the client's socket gave while connection k served it, and how many it took. */
  function Gave(env: Env, ts: seq<Timed>, k: nat): seq<byte>
  {
    if ts == [] then []
    else
      var was, t := ts[..|ts| - 1], ts[|ts| - 1];
      Gave(env, was, k) + TakenNow(Run(env, was), t.event, k)
  }

  function Took(env: Env, ts: seq<Timed>, k: nat): nat
  {
    if ts == [] then 0
    else
      var was, t := ts[..|ts| - 1], ts[|ts| - 1];
      Took(env, was, k) + WrittenNow(Run(env, was), t.event, k)
  }

  /** All that the socket of client c gave, in every phase, and how much it took. */
  function Spoke(env: Env, ts: seq<Timed>, c: nat): seq<byte>
  {
    if ts == [] then []
    else
      var was, t := ts[..|ts| - 1], ts[|ts| - 1];
      Spoke(env, was, c) + ReceivedNow(Run(env, was), t.event, c)
  }

  function Listened(env: Env, ts: seq<Timed>, c: nat): nat
  {
    if ts == [] then 0
    else
      var was, t := ts[..|ts| - 1], ts[|ts| - 1];
      Listened(env, was, c) + SentNow(Run(env, was), t.event, c)
  }

  /** The history holds exactly these inputs. */
  predicate Holds(h: C.ConnHistory, bytes: seq<byte>, ths: seq<TcpHeader>, nums: seq<u32>, gave: seq<byte>)
  {
    && h.accepted == bytes && h.taken == gave && h.heard == Last(TcpHeader(0, 0, 0, 0, 0, 0), ths)
    && h.isn == Last(0, nums) && (h.gotRst <==> Resetting(ths))
  }

  /** The history of a connection, live or freed, holds exactly what the events brought to it. */
  ghost predicate ConnTold(env: Env, ts: seq<Timed>, k: nat)
  {
    var w := Run(env, ts);
    var bytes, ths, nums, gave :=
      Arrived(env, ts, k), Headers(env, ts, k), Answers(env, ts, k), Gave(env, ts, k);
    && (ConnH(w, k).None? ==> bytes == [] && ths == [] && nums == [] && gave == [] && Took(env, ts, k) == 0)
    && (ConnH(w, k).Some? ==>
          Holds(ConnH(w, k).value, bytes, ths, nums, gave) && Direct(ConnH(w, k).value) == Took(env, ts, k))
  }

  ghost predicate ClientTold(env: Env, ts: seq<Timed>, c: nat)
  {
    var w := Run(env, ts);
    && (ClientH(w, c).None? ==> Spoke(env, ts, c) == [] && Listened(env, ts, c) == 0)
    && (ClientH(w, c).Some? ==> ClientH(w, c).value.received == Spoke(env, ts, c))
    && (c in w.clients ==> |w.clients[c].h.sent| == Listened(env, ts, c))
  }

  lemma ResettingTwice(a: seq<TcpHeader>, b: seq<TcpHeader>)
    ensures Resetting(a + b) <==> Resetting(a) || Resetting(b)
  {
    if Resetting(a) {
      var i :| 0 <= i < |a| && HasRst(a[i].flags);
      assert (a + b)[i] == a[i];
    }
    if Resetting(b) {
      var i :| 0 <= i < |b| && HasRst(b[i].flags);
      assert (a + b)[|a| + i] == b[i];
    }
  }

  lemma HoldsOn(w: World, e: Event, k: nat, h: C.ConnHistory, h': C.ConnHistory, bytes: seq<byte>,
                ths: seq<TcpHeader>, nums: seq<u32>, gave: seq<byte>)
    requires Holds(h, bytes, ths, nums, gave) && Entered(w, e, k, h, h')
    ensures Holds(h', bytes + ArrivedNow(w, e, k), ths + HeardNow(w, e, k), nums + AnsweredNow(w, e, k),
                  gave + TakenNow(w, e, k))
  {
    hide ArrivedNow, TakenNow, HeardNow, AnsweredNow, Resetting;
    ResettingTwice(ths, HeardNow(w, e, k));
  }

  lemma HoldsNothing(h: C.ConnHistory, h': C.ConnHistory)
    requires Blank(h) && SameInputs(h, h')
    ensures Holds(h', [], [], [], [])
  {
  }

  lemma Unfolded(env: Env, ts: seq<Timed>, k: nat)
    requires ts != []
    ensures
      var was, e := ts[..|ts| - 1], ts[|ts| - 1].event;
      && Arrived(env, ts, k) == Arrived(env, was, k) + ArrivedNow(Run(env, was), e, k)
      && Headers(env, ts, k) == Headers(env, was, k) + HeardNow(Run(env, was), e, k)
      && Answers(env, ts, k) == Answers(env, was, k) + AnsweredNow(Run(env, was), e, k)
      && Gave(env, ts, k) == Gave(env, was, k) + TakenNow(Run(env, was), e, k)
      && Took(env, ts, k) == Took(env, was, k) + WrittenNow(Run(env, was), e, k)
  {
    hide Run, ArrivedNow, TakenNow, HeardNow, AnsweredNow, WrittenNow;
  }

  lemma ConnTellsOn(env: Env, ts: seq<Timed>, k: nat)
    requires ts != [] && ConnTold(env, ts[..|ts| - 1], k)
    requires ConnBooked(Run(env, ts[..|ts| - 1]), ts[|ts| - 1], Run(env, ts), k)
    ensures ConnTold(env, ts, k)
  {
    hide Run, ArrivedNow, TakenNow, HeardNow, AnsweredNow, WrittenNow, Grown, Holds, Entered, SameInputs;
    hide Arrived, Headers, Answers, Gave, Took;
    Unfolded(env, ts, k);
    var was, e := ts[..|ts| - 1], ts[|ts| - 1].event;
    var w, w' := Run(env, was), Run(env, ts);
    var bytes, ths, nums, gave :=
      Arrived(env, was, k), Headers(env, was, k), Answers(env, was, k), Gave(env, was, k);
    if k !in w.conns {
      NothingForPast(w, e, k);
    }
    if ConnH(w, k).Some? {
      HoldsOn(w, e, k, ConnH(w, k).value, ConnH(w', k).value, bytes, ths, nums, gave);
    } else if ConnH(w', k).Some? {
      HoldsNothing(C.NewHistory(ConnH(w', k).value.line), ConnH(w', k).value);
    }
  }

  lemma ClientTellsOn(env: Env, ts: seq<Timed>, c: nat)
    requires ts != [] && ClientTold(env, ts[..|ts| - 1], c)
    requires ClientBooked(Run(env, ts[..|ts| - 1]), ts[|ts| - 1], Run(env, ts), c)
    ensures ClientTold(env, ts, c)
  {
    hide Run, ReceivedNow, SentNow;
    var was, t := ts[..|ts| - 1], ts[|ts| - 1];
    if c !in Run(env, was).clients {
      NothingFromPast(Run(env, was), t.event, c);
    }
  }

  /** After every run. */
  lemma {:induction false} HistoriesAreTrue(env: Env, ts: seq<Timed>, k: nat, c: nat)
    requires PossibleRun(env, ts)
    ensures ConnTold(env, ts, k) && ClientTold(env, ts, c)
    decreases |ts|
  {
    hide ConnTold, ClientTold, ConnBooked, ClientBooked;
    if ts == [] {
      assert ConnTold(env, ts, k) && ClientTold(env, ts, c) by { Untold(env, k, c); }
    } else {
      hide Inv, Settled, Step, Possible;
      var was, t := ts[..|ts| - 1], ts[|ts| - 1];
      HistoriesAreTrue(env, was, k, c);
      RunKeeps(env, was);
      StepBooks(env, Run(env, was), t, k, c);
      ConnTellsOn(env, ts, k);
      ClientTellsOn(env, ts, c);
    }
  }

  lemma Untold(env: Env, k: nat, c: nat)
    ensures ConnTold(env, [], k) && ClientTold(env, [], c)
  {
  }
}
