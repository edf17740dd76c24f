/** How the step functions come apart into single updates of the tables, in the order a program makes them. */
module Shapes {
  import opened Basics
  import opened MuxPacket
  import opened ClientMessage
  import opened Environment
  import opened Daemon
  import C = Connection
  import L = Client
  import D = Device

  lemma BuryIs(env: Env, w: World, k: nat, c: nat)
    requires k in w.conns
    ensures
      var n := FlushLength(env, w, k, c);
      var flushed := C.Flushed(w.conns[k], n);
      var dead := SetConn(SetConn(w, k, flushed), k, flushed.(state := C.Dead));
      Bury(env, w, k, c) ==
        if c in w.clients then SetClient(dead, c, L.RawSent(w.clients[c], w.conns[k].ib[..n]))
        else if w.conns[k].events.pollOut && w.conns[k].ib != [] then Fault(dead)
        else dead
  {
    hide FlushLength, C.Flushed, L.RawSent;
    var flushed := C.Flushed(w.conns[k], FlushLength(env, w, k, c));
    assert w.conns[k := flushed][k := flushed.(state := C.Dead)] == w.conns[k := flushed.(state := C.Dead)];
  }

  lemma SameOwned(w: World, w': World)
    requires SameOwners(w, w')
    ensures Owned(w') == Owned(w)
  {
  }

  lemma SendKeeps(env: Env, w: World, k: nat, flags: byte, data: seq<byte>)
    requires k in w.conns
    ensures k in SendTcp(env, w, k, flags, data).conns
  {
    hide C.SendTcp, D.SendPacket, TcpBytes;
  }

  /** The client of a connection is there, but client_notify_connect fails for it. */
  predicate Unheard(env: Env, w: World, k: nat)
    requires k in w.conns
  {
    var client := w.conns[k].client;
    client.Some? && client.value in w.clients && L.Notify(env, w.clients[client.value], RESULT_OK).None?
  }

  /** The connection is up and its client has been told, if possible. */
  function Raised(env: Env, w: World, k: nat): (w': World)
    requires k in w.conns
    ensures k in w'.conns
  {
    var kn := w.conns[k].(state := C.Connected);
    var up := SetConn(w, k, kn);
    if kn.client.None? || kn.client.value !in w.clients then Fault(up)
    else match L.Notify(env, w.clients[kn.client.value], RESULT_OK)
      case Some(cl) => SetClient(up, kn.client.value, cl)
      case None => up
  }

  /** The handshake from the moment its last segment has been sent. */
  function ComesUp(env: Env, w: World, k: nat): World
    requires k in w.conns
  {
    var up := Raised(env, w, k);
    var last := if Unheard(env, w, k) then Teardown(env, SetConn(up, k, up.conns[k].(client := None)), k) else up;
    UpdateConnection(last, k)
  }

  lemma EstablishIs(env: Env, w: World, k: nat)
    requires k in w.conns
    ensures
      var shaken := SetConn(w, k, C.Handshake(w.conns[k]));
      var acked := SendTcp(env, shaken, k, ACK, []);
      && k in acked.conns
      && Establish(env, w, k) ==
           if TcpOk(env, shaken, k, 0) then ComesUp(env, acked, k) else Teardown(env, acked, k)
  {
    hide Teardown, UpdateConnection, L.Notify, C.SendTcp, D.SendPacket, TcpBytes, D.SendOk, C.Handshake;
    var acked := SendTcp(env, SetConn(w, k, C.Handshake(w.conns[k])), k, ACK, []);
    var up := acked.conns[k].(state := C.Connected);
    assert acked.conns[k := up][k := up.(client := None)] == acked.conns[k := up.(client := None)];
  }

  /** TellListeners when some clients have not had their turn. */
  function TellSome(env: Env, w: World, body: Body, todo: set<nat>): World
  {
    w.(clients := map c | c in w.clients ::
         if c !in todo && w.clients[c].state.Listening? then L.Enqueue(env, w.clients[c], 0, body) else w.clients[c])
  }

  lemma TellNone(env: Env, w: World, body: Body)
    ensures TellSome(env, w, body, {}) == TellListeners(env, w, body)
  {
    hide L.Enqueue;
  }

  lemma TellAll(env: Env, w: World, body: Body)
    ensures TellSome(env, w, body, w.clients.Keys) == w
  {
    hide L.Enqueue;
    assert TellSome(env, w, body, w.clients.Keys).clients == w.clients;
  }

  lemma TellOne(env: Env, w: World, body: Body, todo: set<nat>, c: nat)
    requires c in todo && c in w.clients
    ensures
      var before := TellSome(env, w, body, todo);
      && c in before.clients && before.clients[c] == w.clients[c]
      && TellSome(env, w, body, todo - {c}) ==
           if w.clients[c].state.Listening? then SetClient(before, c, L.Enqueue(env, before.clients[c], 0, body))
           else before
  {
    hide L.Enqueue;
    var before, after := TellSome(env, w, body, todo), TellSome(env, w, body, todo - {c});
    if w.clients[c].state.Listening? {
      assert after.clients == before.clients[c := L.Enqueue(env, w.clients[c], 0, body)];
    } else {
      assert after.clients == before.clients;
    }
  }

  lemma NoneCounted(w: World, d: nat)
    ensures ConnsOf(w, d) - w.conns.Keys == {}
  {
  }

  lemma InConnsOf(w: World, d: nat, k: nat)
    ensures k in ConnsOf(w, d) <==> k in w.conns && w.conns[k].dev == d
  {
  }

  lemma PortsBound(w: World, d: nat)
    ensures |PortsOf(w, d)| <= |ConnsOf(w, d)|
  {
    ImageSize(w, ConnsOf(w, d));
  }

  lemma OneLess(all: set<nat>, todo: set<nat>, k: nat)
    requires k in todo
    ensures |all - (todo - {k})| == |all - todo| + if k in all then 1 else 0
  {
    if k in all {
      assert all - (todo - {k}) == (all - todo) + {k};
    } else {
      assert all - (todo - {k}) == all - todo;
    }
  }

  /** device_start_connect as a sequence of updates. */
  lemma StartIs(env: Env, w: World, d: nat, port: u16, c: nat)
    ensures d !in w.devices ==> StartConnect(env, w, d, port, c) == w
    ensures d in w.devices ==>
      var a := FindSport(w, d);
      var moved := SetDevice(w, d, w.devices[d].(nextSport := a.next));
      var kn := C.NewConn(d, c, a.port, port, |w.devices[d].h.wire|);
      var sent := SetDevice(moved, d,
                    D.SendPacket(moved.devices[d], Tcp, TcpBytes(TcpHeader(a.port, port, 0, 0, SYN, C.TX_WIN / 256)),
                        []));
      && D.SendOk(env, d, moved.devices[d], 20, 0) == D.SendOk(env, d, w.devices[d], 20, 0)
      && StartConnect(env, w, d, port, c) ==
           if a.port == 0 then moved
           else if !D.SendOk(env, d, moved.devices[d], 20, 0) then sent
           else SetConn(sent, w.nextConn, C.SendTcp(kn, SYN, [], true, w.clock)).(nextConn := w.nextConn + 1)
  {
    hide FindSport, D.SendPacket, TcpBytes, C.SendTcp;
    if d in w.devices {
      var a := FindSport(w, d);
      var dev := w.devices[d].(nextSport := a.next);
      var dev' := D.SendPacket(dev, Tcp, TcpBytes(TcpHeader(a.port, port, 0, 0, SYN, C.TX_WIN / 256)), []);
      assert w.devices[d := dev][d := dev'] == w.devices[d := dev'];
    }
  }

  lemma SameVisible(w: World, w': World, d: nat)
    requires w'.devices == w.devices
    ensures IsVisible(w', d) == IsVisible(w, d)
  {
  }

  lemma VisibleIsListed(w: World, d: nat)
    requires IsVisible(w, d)
    ensures d in w.devices
  {
  }

  lemma Twice(w: World, c: nat, a: L.Client, b: L.Client)
    ensures SetClient(SetClient(w, c, a), c, b) == SetClient(w, c, b)
  {
    assert w.clients[c := a][c := b] == w.clients[c := b];
  }

  // ---- The record of the client that gives a command ----

  lemma PairedFrame(env: Env, w: World, paired: Option<nat>, c: nat)
    requires c in w.clients && !w.clients[c].state.Listening?
    ensures
      var w' := TellPaired(env, w, paired);
      c in w'.clients && w'.clients[c] == w.clients[c]
  {
    hide L.Enqueue;
  }

  lemma {:induction false} AttachFrame(env: Env, w: World, w': World, cl: L.Client, n: nat)
    requires w'.devices == w.devices
    ensures AttachAll(env, w', cl, n) == AttachAll(env, w, cl, n)
  {
    hide L.Enqueue;
    if n > 0 {
      AttachFrame(env, w, w', cl, n - 1);
    }
  }

  lemma ListenFrame(env: Env, w: World, c: nat, told: L.Client)
    ensures
      var w1, cl := SetClient(w, c, told), told.(state := L.Listening);
      SetClient(w1, c, AttachAll(env, w1, cl, w.nextDevice))
      == SetClient(w, c, AttachAll(env, w, cl, w.nextDevice))
  {
    hide AttachAll;
    var w1, cl := SetClient(w, c, told), told.(state := L.Listening);
    AttachFrame(env, w, w1, cl, w.nextDevice);
    Twice(w, c, told, AttachAll(env, w, cl, w.nextDevice));
  }

  lemma StartFrame(env: Env, w: World, d: nat, port: u16, c: nat)
    ensures StartConnect(env, w, d, port, c).clients == w.clients
  {
    hide FindSport, D.SendPacket, TcpBytes, C.SendTcp;
  }

  lemma SameAllocation(w: World, w': World, d: nat)
    requires w'.devices == w.devices && w'.conns == w.conns && d in w.devices
    ensures FindSport(w', d) == FindSport(w, d)
  {
    assert ConnsOf(w', d) == ConnsOf(w, d);
    assert PortsOf(w', d) == PortsOf(w, d);
  }

  lemma StartAfter(env: Env, w: World, c: nat, cl: L.Client, d: nat, port: u16)
    ensures
      var w1 := SetClient(w, c, cl);
      && ConnectCode(env, w1, d) == ConnectCode(env, w, d)
      && StartConnect(env, w1, d, port, c) == SetClient(StartConnect(env, w, d, port, c), c, cl)
  {
    hide FindSport, D.SendPacket, TcpBytes, C.SendTcp, C.NewConn, D.SendOk;
    if d in w.devices {
      var w1 := SetClient(w, c, cl);
      SameAllocation(w, w1, d);
      assert FindSport(w1, d) == FindSport(w, d);
    }
  }

  lemma PairedAfter(env: Env, w: World, c: nat, cl: L.Client, paired: Option<nat>, q: L.Client)
    ensures SetClient(TellPaired(env, SetClient(w, c, cl), paired), c, q)
            == SetClient(TellPaired(env, w, paired), c, q)
  {
    hide L.Enqueue;
    var one := TellPaired(env, SetClient(w, c, cl), paired);
    var two := TellPaired(env, w, paired);
    assert one.clients[c := q] == two.clients[c := q];
  }

  lemma {:induction false} ListAfter(w: World, w': World, n: nat)
    requires w'.devices == w.devices
    ensures ListDevices(w', n) == ListDevices(w, n)
  {
    if n > 0 {
      ListAfter(w, w', n - 1);
    }
  }

  /** handle_command does not look at the record it replaces. */
  lemma ObeyFrame(env: Env, w: World, c: nat, cl: L.Client, m: Raw, o: Outside)
    ensures Obey(env, SetClient(w, c, cl), c, cl, m, o) == Obey(env, w, c, cl, m, o)
  {
    hide L.Interpret, L.Named, L.Enqueue, StartConnect, ConnectCode, AttachAll, TellPaired;
    hide ListDevices;
    var w1 := SetClient(w, c, cl);
    match L.Interpret(env, m)
    case Silent => Twice(w, c, cl, cl);
    case Refuse(code) => Twice(w, c, cl, L.Enqueue(env, cl, m.tag, Result(code)));
    case Answer => PairedAfter(env, w, c, cl, o.paired, L.Enqueue(env, cl, m.tag, o.answer));
    case ListDevices =>
      ListAfter(w, w1, w.nextDevice);
      Twice(w, c, cl, L.Enqueue(env, cl, m.tag, DeviceList(ListDevices(w, w.nextDevice))));
    case Listen =>
      var told := L.Enqueue(env, cl, m.tag, Result(RESULT_OK)).(state := L.Listening);
      AttachFrame(env, w, w1, told, w.nextDevice);
      Twice(w, c, cl, AttachAll(env, w, told, w.nextDevice));
    case Connect => ConnectAfter(env, w, c, cl, m, o);
  }

  lemma ConnectAfter(env: Env, w: World, c: nat, cl: L.Client, m: Raw, o: Outside)
    requires L.Interpret(env, m).Connect?
    ensures Obey(env, SetClient(w, c, cl), c, cl, m, o) == Obey(env, w, c, cl, m, o)
  {
    hide L.Interpret, L.Named, L.Enqueue, StartConnect, ConnectCode;
    var to := L.Named(env, m, o.stale);
    StartAfter(env, w, c, cl, to.dev, to.port);
    var started, code := StartConnect(env, w, to.dev, to.port, c), ConnectCode(env, w, to.dev);
    Twice(started, c, cl, L.Enqueue(env, cl, m.tag, Result(code)));
    Twice(started, c, cl, cl.(connectTag := m.tag, connectDev := to.dev, state := L.Connecting1,
                              h := cl.h.(conn := Some(w.nextConn))));
  }

  lemma HandleFrame(env: Env, w: World, c: nat, cl: L.Client, m: Raw, o: Outside)
    ensures HandleCommand(env, SetClient(w, c, cl), c, cl, m, o) == HandleCommand(env, w, c, cl, m, o)
  {
    hide Obey, ClientClose, L.Enqueue;
    if cl.state.Commanding? {
      var said := L.Spoken(cl, m);
      ObeyFrame(env, w, c, said, m, o);
      ObeyFrame(env, SetClient(w, c, cl), c, said, m, o);
      Twice(w, c, cl, said);
    } else {
      Twice(w, c, cl, L.Enqueue(env, cl, m.tag, Result(RESULT_BADCOMMAND)));
    }
  }

  lemma {:induction false} PrefixPossible(env: Env, ts: seq<Timed>, n: nat)
    requires PossibleRun(env, ts) && n <= |ts|
    ensures PossibleRun(env, ts[..n])
    decreases |ts|
  {
    hide Possible;
    if n < |ts| {
      assert ts[..|ts| - 1][..n] == ts[..n];
      PrefixPossible(env, ts[..|ts| - 1], n);
    } else {
      assert ts[..n] == ts;
    }
  }

  lemma ReadArmKeys(w: World, k: nat, c: nat, data: seq<byte>)
    requires k in w.conns
    ensures k in ReadArm(w, k, c, data).conns
  {
  }

  lemma WriteArmKeys(w: World, k: nat, c: nat, n: nat)
    requires k in w.conns && n <= |w.conns[k].ib|
    ensures k in WriteArm(w, k, c, n).conns
  {
  }
}
