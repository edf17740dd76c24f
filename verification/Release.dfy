/** connection_teardown and client_close: what the mutual recursion amounts to, and that it keeps the invariant. */
module Release {
  import opened Basics
  import opened MuxPacket
  import opened ClientMessage
  import opened Environment
  import opened Daemon
  import opened Invariant
  import C = Connection
  import L = Client
  import D = Device

  /** Connection k and client c belong together, and only they do. */
  predicate Wired(w: World, k: nat, c: nat)
  {
    && k in w.conns && k < w.nextConn && w.conns[k].client == Some(c) && w.conns[k].dev in w.devices
    && c in w.clients && w.clients[c].connectDev == w.conns[k].dev
    && forall j :: j in w.conns && w.conns[j].client == Some(c) ==> j == k
  }

  lemma InvWires(env: Env, w: World, k: nat)
    requires Inv(env, w) && k in w.conns
    ensures w.conns[k].client.Some? && Wired(w, k, w.conns[k].client.value)
  {
    hide L.Single, PastOk, DevicesOk, PortsDistinct, C.Waiting, C.Established, L.Pending, L.Joining, L.InStream;
    assert ConnOk(env, w, k);
    forall j | j in w.conns && w.conns[j].client == w.conns[k].client
      ensures j == k
    {
      assert ConnOk(env, w, j);
    }
  }

  lemma {:induction false} FindConnIs(w: World, k: nat, c: nat, below: nat)
    requires Wired(w, k, c) && k < below
    ensures FindConn(w, w.conns[k].dev, c, below) == Some(k)
    decreases below
  {
    if k < below - 1 {
      FindConnIs(w, k, c, below - 1);
    }
  }

  // ---- Closed forms ----

  /** The connection and the devices after the RST that a teardown may send. */
  function ResetConn(env: Env, w: World, k: nat): C.Conn
    requires k in w.conns
  {
    Reset(env, w, k).conns[k]
  }

  function ResetDevices(env: Env, w: World, k: nat): map<nat, D.Device> { Reset(env, w, k).devices }

  lemma ResetShape(env: Env, w: World, k: nat)
    requires k in w.conns && w.conns[k].dev in w.devices
    ensures Reset(env, w, k) == SetConn(w, k, ResetConn(env, w, k)).(devices := ResetDevices(env, w, k))
    ensures ResetDevices(env, w, k).Keys == w.devices.Keys
  {
    assert w.conns == w.conns[k := w.conns[k]];
  }

  function Freed(h: C.ConnHistory): C.ConnHistory { h.(frees := h.frees + 1) }
  function FreedClient(h: L.ClientHistory): L.ClientHistory { h.(frees := h.frees + 1) }

  /** A connection that never got through: the client is told and stays. */
  lemma TeardownRefuses(env: Env, w: World, k: nat, c: nat)
    requires Wired(w, k, c) && w.clients[c].state.Connecting1?
    requires w.conns[k].state.Connecting? || w.conns[k].state.Refused?
    ensures
      Teardown(env, w, k) ==
      AfterRefusal(w, k, c, Freed(ResetConn(env, w, k).h), L.Notify(env, w.clients[c], RESULT_CONNREFUSED).value)
        .(devices := ResetDevices(env, w, k))
  {
    hide C.SendTcp, D.SendPacket, L.Enqueue;
    ResetShape(env, w, k);
    var q := Reset(env, w, k);
    assert q.conns - {k} == w.conns - {k};
    var cl := L.Notify(env, w.clients[c], RESULT_CONNREFUSED).value;
    assert NotifyRefused(env, q, c) == SetClient(q, c, cl);
    assert Teardown(env, w, k) == FreeConn(SetClient(q, c, cl), k);
  }

  /** An established connection: what can be flushed is, then connection and client are freed, once each. */
  lemma TeardownReleases(env: Env, w: World, k: nat, c: nat)
    requires Wired(w, k, c) && (w.clients[c].state.Joined? || w.clients[c].state.Connecting2?)
    requires w.conns[k].state.Connected? || w.conns[k].state.Dying?
    ensures
      var n := FlushLength(env, w, k, c);
      && n <= |ResetConn(env, w, k).ib|
      && Teardown(env, w, k) ==
         AfterRelease(w, k, c, Freed(C.Flushed(ResetConn(env, w, k), n).h),
                   FreedClient(L.RawSent(w.clients[c], w.conns[k].ib[..n]).h))
           .(devices := ResetDevices(env, w, k))
  {
    TeardownBuries(env, w, k, c);
    BuryShape(env, w, k, c);
    ResetShape(env, w, k);
    ResetKeepsBuffer(env, w, k);
    hide Reset, Bury, FlushLength, ClientClose, Teardown, FreeConn;
    var n := FlushLength(env, w, k, c);
    var kn := C.Flushed(ResetConn(env, w, k), n).(state := C.Dead);
    FreeBoth(env, w.(devices := ResetDevices(env, w, k)), k, c, kn, L.RawSent(w.clients[c], w.conns[k].ib[..n]));
  }

  /** Closing the client of a dead connection and then freeing the connection. */
  lemma FreeBoth(env: Env, w: World, k: nat, c: nat, kn: C.Conn, cl: L.Client)
    requires Wired(w, k, c) && SameWires(w.conns[k], kn) && kn.state.Dead?
    requires !cl.state.Connecting1? && cl.connectDev == kn.dev
    ensures FreeConn(ClientClose(env, SetClient(SetConn(w, k, kn), c, cl), c), k)
            == AfterRelease(w, k, c, Freed(kn.h), FreedClient(cl.h))
  {
    hide ClientClose;
    var dead := SetClient(SetConn(w, k, kn), c, cl);
    BuriedCloses(env, dead, k, c);
    assert dead.conns - {k} == w.conns - {k};
    assert dead.clients - {c} == w.clients - {c};
  }

  lemma TeardownBuries(env: Env, w: World, k: nat, c: nat)
    requires k in w.conns && w.conns[k].client == Some(c)
    requires w.conns[k].state.Connected? || w.conns[k].state.Dying?
    ensures Teardown(env, w, k) == FreeConn(ClientClose(env, Bury(env, Reset(env, w, k), k, c), c), k)
  {
    hide Reset, Bury, FreeConn, NotifyRefused;
  }

  lemma BuryShape(env: Env, w: World, k: nat, c: nat)
    requires k in w.conns && w.conns[k].dev in w.devices && c in w.clients
    ensures
      var n := FlushLength(env, w, k, c);
      && n <= |ResetConn(env, w, k).ib|
      && Bury(env, Reset(env, w, k), k, c) ==
         SetClient(SetConn(w, k, C.Flushed(ResetConn(env, w, k), n).(state := C.Dead)), c,
                   L.RawSent(w.clients[c], w.conns[k].ib[..n]))
           .(devices := ResetDevices(env, w, k))
  {
    ResetShape(env, w, k);
    ResetKeepsBuffer(env, w, k);
    hide Reset, ResetConn, ResetDevices, C.Flushed, L.RawSent;
    var q := Reset(env, w, k);
    assert q.conns == w.conns[k := ResetConn(env, w, k)];
    assert FlushLength(env, q, k, c) == FlushLength(env, w, k, c);
  }

  lemma ResetKeepsBuffer(env: Env, w: World, k: nat)
    requires k in w.conns
    ensures ResetConn(env, w, k).ib == w.conns[k].ib && ResetConn(env, w, k).events == w.conns[k].events
    ensures SameWires(w.conns[k], ResetConn(env, w, k)) && ResetConn(env, w, k).state == w.conns[k].state
  {
  }

  /** Closing the client of a dead connection does not come back to that connection. */
  lemma BuriedCloses(env: Env, w: World, k: nat, c: nat)
    requires Wired(w, k, c) && w.conns[k].state.Dead? && !w.clients[c].state.Connecting1?
    ensures
      var w' := ClientClose(env, w, c);
      && k in w'.conns && w'.conns[k].h == w.conns[k].h
      && w' == w.(conns := w'.conns, clients := w.clients - {c},
                  pastClients := w.pastClients[c := FreedClient(w.clients[c].h)])
      && w'.conns - {k} == w.conns - {k}
  {
    var cl := w.clients[c];
    if cl.state.Connecting2? {
      var gone := SetClient(w, c, cl.(state := L.Gone));
      FindConnIs(gone, k, c, w.nextConn);
      var orphaned := SetConn(gone, k, gone.conns[k].(client := None));
      assert Teardown(env, orphaned, k) == orphaned;
      assert AbortConnect(env, gone, cl.connectDev, c) == orphaned;
      assert ClientClose(env, w, c) == FreeClient(orphaned, c);
      assert gone.clients - {c} == w.clients - {c};
      assert orphaned.conns - {k} == w.conns - {k};
    }
  }

  /** A client that closes before it is joined takes its connection with it. */
  lemma CloseAborts(env: Env, w: World, k: nat, c: nat)
    requires Wired(w, k, c) && (w.clients[c].state.Connecting1? || w.clients[c].state.Connecting2?)
    requires w.conns[k].state.Connecting? || w.conns[k].state.Connected?
    ensures
      ClientClose(env, w, c) ==
      AfterRelease(w, k, c, Freed(ResetConn(env, w, k).h), FreedClient(w.clients[c].h))
        .(devices := ResetDevices(env, w, k))
  {
    var cl := w.clients[c];
    var gone := SetClient(w, c, cl.(state := L.Gone));
    FindConnIs(gone, k, c, w.nextConn);
    var orphaned := SetConn(gone, k, gone.conns[k].(client := None));
    ResetOrphan(env, w, orphaned, k);
    ResetShape(env, orphaned, k);
    OrphanFreed(env, orphaned, k);
    hide Reset, Teardown, FreeConn, FreeClient;
    var q := Reset(env, orphaned, k);
    assert ClientClose(env, w, c) == FreeClient(FreeConn(q, k), c);
    var kn := ResetConn(env, orphaned, k);
    var base := w.(devices := ResetDevices(env, w, k));
    assert q == SetClient(SetConn(base, k, kn), c, cl.(state := L.Gone));
    FreeTwo(base, k, c, kn, cl.(state := L.Gone));
  }

  lemma FreeTwo(w: World, k: nat, c: nat, kn: C.Conn, cl: L.Client)
    ensures FreeClient(FreeConn(SetClient(SetConn(w, k, kn), c, cl), k), c)
            == AfterRelease(w, k, c, Freed(kn.h), FreedClient(cl.h))
  {
    assert w.conns[k := kn] - {k} == w.conns - {k};
    assert w.clients[c := cl] - {c} == w.clients - {c};
  }

  lemma OrphanFreed(env: Env, w: World, k: nat)
    requires k in w.conns && w.conns[k].client == None && !w.conns[k].state.Dead?
    ensures Teardown(env, w, k) == FreeConn(Reset(env, w, k), k)
  {
    hide Reset, FreeConn;
  }

  /** The RST does not depend on the client. */
  lemma ResetOrphan(env: Env, w: World, o: World, k: nat)
    requires k in w.conns && k in o.conns && o.conns[k] == w.conns[k].(client := None)
    requires o.devices == w.devices && o.clock == w.clock
    ensures ResetConn(env, o, k).h == ResetConn(env, w, k).h
    ensures ResetDevices(env, o, k) == ResetDevices(env, w, k)
  {
    hide ResetConn, ResetDevices, TcpBytes, D.SendPacket;
    ResetConnIs(env, w, k);
    ResetConnIs(env, o, k);
  }

  // ---- Teardown keeps the invariant ----

  /** What may differ after something happened to connection k, its client c and its device. */
  predicate Local(w: World, w': World, k: nat, c: nat, d: nat)
  {
    && w'.conns - {k} == w.conns - {k}
    && (k in w'.conns ==> k in w.conns && SameWires(w.conns[k], w'.conns[k]))
    && w'.clients - {c} == w.clients - {c}
    && (c in w'.clients ==> !w'.clients[c].state.Listening?)
    && d in w.devices && d in w'.devices && w'.devices - {d} == w.devices - {d}
    && SameDevice(w.devices[d], w'.devices[d])
    && w'.pastConns - {k} == w.pastConns - {k} && w'.pastClients - {c} == w.pastClients - {c}
    && w'.nextConn == w.nextConn && w'.nextClient == w.nextClient
    && w'.nextDevice == w.nextDevice && w'.clock == w.clock
  }

  lemma LocalFault(w: World, w': World, k: nat, c: nat, d: nat)
    requires Local(w, w', k, c, d)
    ensures Local(w, Fault(w'), k, c, d)
  {
  }

  /** Only the send counters moved. */
  predicate SameDevice(dev: D.Device, dev': D.Device)
  {
    dev' == dev.(txSeq := dev'.txSeq, h := dev'.h)
  }

  /** The device side of any segment sent in a step. */
  lemma SendKeepsInv(env: Env, w: World, d: nat, p: Proto, header: seq<byte>, data: seq<byte>)
    requires Inv(env, w) && d in w.devices && p != Setup
    ensures
      var dev := D.SendPacket(w.devices[d], p, header, data);
      Inv(env, SetDevice(w, d, dev)) && SameDevice(w.devices[d], dev)
  {
    hide ConnOk, ClientOk, PastOk, PortsDistinct, Build, D.Consistent, TcpBytes;
    D.SendKeepsNumbers(w.devices[d], p, header, data);
    DeviceUpdated(env, w, d, D.SendPacket(w.devices[d], p, header, data));
  }

  /** A client and the connection it is about to lose. */
  predicate Leaving(env: Env, kn: C.Conn, cl: L.Client)
  {
    && cl.connectDev == kn.dev
    && match cl.state
       case Connecting1 => (kn.state.Connecting? || kn.state.Refused?) && L.Pending(env, cl)
       case Connecting2 => (kn.state.Connected? || kn.state.Dying?) && L.Quits(env, cl.h)
       case Joined =>
         && (kn.state.Connected? || kn.state.Dying?)
         && C.Armed(kn) && cl.h.sent == Stream(env.xml, cl.h.msgs) + kn.h.delivered
         && cl.h.received == Concat(cl.h.cmds) + cl.h.lost + kn.h.taken
         && L.Ordered(env, cl.h) && L.Granted(env, cl.h) && cl.h.joined && cl.h.frees == 0
       case _ => false
  }

  lemma ResetKeepsInv(env: Env, w: World, k: nat, kn: C.Conn, cl: L.Client, c: nat)
    requires Inv(env, w) && k in w.conns && kn.dev == w.conns[k].dev && kn.dev in w.devices
    ensures
      var w1 := SetClient(SetConn(w, k, kn), c, cl);
      var ds := ResetDevices(env, w1, k);
      && Inv(env, w.(devices := ds))
      && kn.dev in ds && ds - {kn.dev} == w.devices - {kn.dev} && SameDevice(w.devices[kn.dev], ds[kn.dev])
  {
    hide ConnOk, ClientOk, PastOk, PortsDistinct, DevicesOk, D.SendPacket, TcpBytes;
    SendKeepsInv(env, w, kn.dev, Tcp, TcpBytes(C.SegmentHeader(kn, RST)), []);
  }

  lemma ResetDoomed(env: Env, w: World, k: nat, n: nat)
    requires k in w.conns && C.Doomed(w.conns[k]) && n <= |w.conns[k].ib|
    ensures
      var kn := ResetConn(env, w, k);
      && n <= |kn.ib| && C.Released(Freed(C.Flushed(kn, n).h))
      && C.Flushed(kn, n).h.accepted == w.conns[k].h.accepted && C.Flushed(kn, n).h.taken == w.conns[k].h.taken
      && C.Flushed(kn, n).h.delivered == w.conns[k].h.delivered + w.conns[k].ib[..n]
      && C.Flushed(kn, n).h.flushed == n
      && (n == 0 ==> C.Flushed(kn, n).h == kn.h)
  {
    hide C.Released, C.Doomed, C.SendTcp, ResetConn, TcpOk;
    var kn := w.conns[k];
    ResetConnIs(env, w, k);
    DoomedNote(kn);
    C.DoomedReleases(kn, MayReset(w, kn), TcpOk(env, w, k, 0), w.clock, n);
    C.FlushNothing(ResetConn(env, w, k));
  }

  lemma ResetConnIs(env: Env, w: World, k: nat)
    requires k in w.conns
    ensures ResetConn(env, w, k) ==
            if MayReset(w, w.conns[k]) then C.SendTcp(w.conns[k], RST, [], TcpOk(env, w, k, 0), w.clock) else w.conns[k]
    ensures ResetConn(env, w, k).ib == w.conns[k].ib
    ensures ResetDevices(env, w, k) ==
            if MayReset(w, w.conns[k]) then
              w.devices[w.conns[k].dev := D.SendPacket(w.devices[w.conns[k].dev], Tcp,
                                                       TcpBytes(C.SegmentHeader(w.conns[k], RST)), [])]
            else w.devices
  {
    hide D.SendPacket, TcpBytes;
  }

  lemma DoomedNote(kn: C.Conn)
    requires C.Doomed(kn)
    ensures kn.h.gotRst ==> kn.state.Dying? || kn.state.Refused?
  {
  }

  /** Whatever a step has done to a connection and its client so far, tearing the connection down restores the
      invariant and touches nothing else. */
  lemma TeardownKeeps(env: Env, w: World, k: nat, c: nat, kn: C.Conn, cl: L.Client)
    requires Inv(env, w) && k in w.conns && w.conns[k].client == Some(c)
    requires SameWires(w.conns[k], kn) && C.Doomed(kn)
    requires cl.h.conn == Some(k) && Leaving(env, kn, cl)
    ensures
      var w' := Teardown(env, SetClient(SetConn(w, k, kn), c, cl), k);
      Inv(env, w') && Local(w, w', k, c, kn.dev) && k !in w'.conns && w'.faults == w.faults
  {
    InvWires(env, w, k);
    ResetKeepsInv(env, w, k, kn, cl, c);
    hide ConnOk, ClientOk, PastOk, PortsDistinct, DevicesOk, C.Released, Teardown;
    if cl.state.Connecting1? {
      RefusalKeeps(env, w, k, c, kn, cl);
    } else {
      ReleaseKeeps(env, w, k, c, kn, cl);
    }
  }

  lemma RefusalKeeps(env: Env, w: World, k: nat, c: nat, kn: C.Conn, cl: L.Client)
    requires Wired(w, k, c) && SameWires(w.conns[k], kn) && C.Doomed(kn)
    requires cl.h.conn == Some(k) && Leaving(env, kn, cl) && cl.state.Connecting1?
    requires
      var ds := ResetDevices(env, SetClient(SetConn(w, k, kn), c, cl), k);
      && Inv(env, w.(devices := ds))
      && kn.dev in ds && ds - {kn.dev} == w.devices - {kn.dev} && SameDevice(w.devices[kn.dev], ds[kn.dev])
    ensures
      var w' := Teardown(env, SetClient(SetConn(w, k, kn), c, cl), k);
      Inv(env, w') && Local(w, w', k, c, kn.dev) && k !in w'.conns && w'.faults == w.faults
  {
    hide Inv, C.Released, C.Doomed, L.Pending, L.Single, L.Notify, Teardown, ResetConn, ResetDevices, Local, SameDevice;
    var w1 := SetClient(SetConn(w, k, kn), c, cl);
    var base := w.(devices := ResetDevices(env, w1, k));
    ResetDoomed(env, w1, k, 0);
    L.RefusedIsSingle(env, cl);
    TeardownRefuses(env, w1, k, c);
    var kh := Freed(ResetConn(env, w1, k).h);
    var told := L.Notify(env, cl, RESULT_CONNREFUSED).value;
    PairRefused(env, base, k, c, kh, told);
    RefusedLocal(w, k, c, kn, cl, base.devices, kh, told);
  }

  lemma RefusedLocal(w: World, k: nat, c: nat, kn: C.Conn, cl: L.Client, ds: map<nat, D.Device>,
                     kh: C.ConnHistory, told: L.Client)
    requires kn.dev in w.devices && kn.dev in ds && !told.state.Listening?
    requires ds - {kn.dev} == w.devices - {kn.dev} && SameDevice(w.devices[kn.dev], ds[kn.dev])
    ensures
      var w' := AfterRefusal(w.(devices := ds), k, c, kh, told);
      && AfterRefusal(SetClient(SetConn(w, k, kn), c, cl), k, c, kh, told).(devices := ds) == w'
      && Local(w, w', k, c, kn.dev)
  {
    assert w.conns[k := kn] - {k} == w.conns - {k};
    assert w.clients[c := cl][c := told] == w.clients[c := told];
    assert w.clients[c := told] - {c} == w.clients - {c};
  }

  lemma ReleaseKeeps(env: Env, w: World, k: nat, c: nat, kn: C.Conn, cl: L.Client)
    requires Wired(w, k, c) && SameWires(w.conns[k], kn) && C.Doomed(kn)
    requires cl.h.conn == Some(k) && Leaving(env, kn, cl) && !cl.state.Connecting1?
    requires
      var ds := ResetDevices(env, SetClient(SetConn(w, k, kn), c, cl), k);
      && Inv(env, w.(devices := ds))
      && kn.dev in ds && ds - {kn.dev} == w.devices - {kn.dev} && SameDevice(w.devices[kn.dev], ds[kn.dev])
    ensures
      var w' := Teardown(env, SetClient(SetConn(w, k, kn), c, cl), k);
      Inv(env, w') && Local(w, w', k, c, kn.dev) && k !in w'.conns && w'.faults == w.faults
  {
    hide Inv, C.Released, C.Doomed, Teardown, ResetConn, ResetDevices, Departed, Local, SameDevice, L.Pending;
    hide Drained;
    var w1 := SetClient(SetConn(w, k, kn), c, cl);
    var base := w.(devices := ResetDevices(env, w1, k));
    var n := FlushLength(env, w1, k, c);
    ResetDoomed(env, w1, k, n);
    TeardownReleases(env, w1, k, c);
    var kh := Freed(C.Flushed(ResetConn(env, w1, k), n).h);
    if cl.state.Joined? {
      FlushIsFull(env, w1, k, c);
    }
    LeavingDeparts(env, kn, cl, n, k, base.pastConns[k := kh]);
    var ch := FreedClient(L.RawSent(cl, kn.ib[..n]).h);
    PairReleased(env, base, k, c, kh, ch);
    ReleasedLocal(w, k, c, kn, cl, base.devices, kh, ch);
  }

  lemma ReleasedLocal(w: World, k: nat, c: nat, kn: C.Conn, cl: L.Client, ds: map<nat, D.Device>,
                      kh: C.ConnHistory, ch: L.ClientHistory)
    requires kn.dev in w.devices && kn.dev in ds
    requires ds - {kn.dev} == w.devices - {kn.dev} && SameDevice(w.devices[kn.dev], ds[kn.dev])
    ensures
      var w' := AfterRelease(w.(devices := ds), k, c, kh, ch);
      && AfterRelease(SetClient(SetConn(w, k, kn), c, cl), k, c, kh, ch).(devices := ds) == w'
      && Local(w, w', k, c, kn.dev)
  {
    assert w.conns[k := kn] - {k} == w.conns - {k};
    assert w.clients[c := cl] - {c} == w.clients - {c};
  }

  /** The flush of a joined client writes the whole buffer unless it has to give up. */
  lemma FlushIsFull(env: Env, w: World, k: nat, c: nat)
    requires k in w.conns && c in w.clients && w.clients[c].state.Joined? && C.Armed(w.conns[k])
    ensures Drained(env.flush(k), |w.conns[k].ib|, FlushLength(env, w, k, c))
  {
    hide Flushable, Drained;
    FlushDrains(env.flush(k), |w.conns[k].ib|);
    NothingToFlush(env.flush(k));
  }

  /** What the client has been sent is a prefix of its messages followed by what the device sent. */
  lemma LeavingDeparts(env: Env, kn: C.Conn, cl: L.Client, n: nat, k: nat, past: map<nat, C.ConnHistory>)
    requires C.Doomed(kn) && Leaving(env, kn, cl) && n <= |kn.ib| && cl.h.conn == Some(k)
    requires cl.state.Joined? || (cl.state.Connecting2? && n == 0)
    requires k in past && past[k].taken == kn.h.taken && past[k].delivered == kn.h.delivered + kn.ib[..n]
    requires past[k].accepted == kn.h.accepted && past[k].flushed == n
    requires cl.state.Joined? ==> Drained(env.flush(k), |kn.ib|, n)
    ensures Departed(env, past, FreedClient(L.RawSent(cl, kn.ib[..n]).h))
  {
    hide Stream, C.DataOf, C.Tiled, C.Resets, C.LastOk, Concat, L.Ordered, L.Granted, Drained;
    L.OrderedFrame(env, cl.h, FreedClient(L.RawSent(cl, kn.ib[..n]).h));
    if cl.state.Joined? {
      L.GrantedFrame(env, cl.h, FreedClient(L.RawSent(cl, kn.ib[..n]).h));
      var s := Stream(env.xml, cl.h.msgs);
      assert cl.h.sent + kn.ib[..n] == s + (kn.h.delivered + kn.ib[..n]);
    } else {
      assert cl.h.sent + kn.ib[..0] == cl.h.sent;
    }
  }

  /** Every live connection could be torn down as it is. */
  lemma PairMayLeave(env: Env, w: World, k: nat, c: nat)
    requires Inv(env, w) && k in w.conns && w.conns[k].client == Some(c)
    ensures c in w.clients && w.clients[c].h.conn == Some(k) && PairOk(env, w.conns[k], w.clients[c])
    ensures w.conns[k].dev in w.devices && w.conns[k].lastAck <= w.clock
    ensures C.Doomed(w.conns[k]) && Leaving(env, w.conns[k], w.clients[c])
  {
    hide C.Waiting, C.Streams, C.Doomed, L.Pending, L.Quits, L.Ordered, Stream, L.Answered, L.AllWhole, Concat;
    hide PastOk, DevicesOk, PortsDistinct, L.Granted, L.ToldOk, L.EndsInConnect;
    assert ConnOk(env, w, k);
    C.LiveIsDoomed(w.conns[k]);
    var cl := w.clients[c];
    if cl.state.Connecting2? {
      L.MayQuit(env, cl);
    } else if cl.state.Joined? {
      L.AnsweredInOrder(env, cl.h, []);
      L.JoinedIsGranted(env, cl);
    }
  }

  /** Tearing down a connection as it stands. */
  lemma TeardownAsIs(env: Env, w: World, k: nat)
    requires Inv(env, w) && k in w.conns
    ensures w.conns[k].client.Some?
    ensures
      var w' := Teardown(env, w, k);
      && Inv(env, w') && Local(w, w', k, w.conns[k].client.value, w.conns[k].dev) && k !in w'.conns
      && w'.faults == w.faults
  {
    hide Inv, Teardown, C.Doomed, Leaving, Local, PairOk, Wired;
    InvWires(env, w, k);
    var c := w.conns[k].client.value;
    PairMayLeave(env, w, k, c);
    assert w == SetClient(SetConn(w, k, w.conns[k]), c, w.clients[c]);
    TeardownKeeps(env, w, k, c, w.conns[k], w.clients[c]);
  }

  /** client_close on a client whose connection is not joined yet; the step may already have changed its record. */
  lemma CloseKeeps(env: Env, w: World, k: nat, c: nat, cl: L.Client)
    requires Inv(env, w) && k in w.conns && w.conns[k].client == Some(c) && c in w.clients
    requires cl.state == w.clients[c].state && !cl.state.Joined? && cl.connectDev == w.clients[c].connectDev
    requires cl.h.conn == Some(k) && L.Quits(env, cl.h)
    ensures
      var w' := ClientClose(env, SetClient(w, c, cl), c);
      && Inv(env, w') && Local(w, w', k, c, w.conns[k].dev) && k !in w'.conns && c !in w'.clients
      && w'.faults == w.faults
  {
    hide Inv, C.Doomed, C.Released, C.Established, C.Waiting, L.Pending, L.Joining, L.InStream, ClientClose;
    hide ResetConn, ResetDevices, Local, SameDevice, Stream, Leaving, L.Ordered, Concat;
    InvWires(env, w, k);
    PairMayLeave(env, w, k, c);
    var kn := w.conns[k];
    assert SetConn(w, k, kn) == w;
    ResetKeepsInv(env, w, k, kn, cl, c);
    var w1 := SetClient(w, c, cl);
    CloseAborts(env, w1, k, c);
    ResetDoomed(env, w1, k, 0);
    var base := w.(devices := ResetDevices(env, w1, k));
    var kh, ch := Freed(ResetConn(env, w1, k).h), FreedClient(cl.h);
    L.OrderedFrame(env, cl.h, ch);
    PairReleased(env, base, k, c, kh, ch);
    ReleasedLocal(w, k, c, kn, cl, base.devices, kh, ch);
  }

  /** client_close on a client without a connection. */
  lemma SingleCloses(env: Env, w: World, c: nat, cl: L.Client)
    requires Inv(env, w) && c in w.clients && !Linked(w.clients[c].state) && !Linked(cl.state)
    requires L.Quits(env, cl.h)
    ensures
      var w' := ClientClose(env, SetClient(w, c, cl), c);
      && Inv(env, w')
      && w' == w.(clients := w.clients - {c}, pastClients := w.pastClients[c := FreedClient(cl.h)])
  {
    hide Inv, Stream, L.Ordered, Concat;
    L.OrderedFrame(env, cl.h, FreedClient(cl.h));
    SingleReleased(env, w, c, FreedClient(cl.h));
    assert w.clients[c := cl] - {c} == w.clients - {c};
  }
}
