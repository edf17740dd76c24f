/** What a step does to the histories, told from its event alone: the bytes that arrived, the bytes that sockets gave
    and took, the last header heard, and the time of every segment. */
module Ledger {
  import opened Basics
  import opened MuxPacket
  import opened Assembler
  import opened ClientMessage
  import opened Environment
  import opened Daemon
  import opened Serving
  import opened Projection
  import C = Connection
  import L = Client
  import D = Device

  /** The history of a connection or client, whether it is live or gone. */
  function ConnH(w: World, k: nat): Option<C.ConnHistory>
  {
    if k in w.conns then Some(w.conns[k].h) else if k in w.pastConns then Some(w.pastConns[k]) else None
  }

  function ClientH(w: World, c: nat): Option<L.ClientHistory>
  {
    if c in w.clients then Some(w.clients[c].h) else if c in w.pastClients then Some(w.pastClients[c]) else None
  }

  /** What came from outside is the same. */
  predicate SameInputs(h: C.ConnHistory, h': C.ConnHistory)
  {
    && h'.accepted == h.accepted && h'.taken == h.taken && h'.heard == h.heard && h'.gotRst == h.gotRst
    && h'.isn == h.isn && h'.line == h.line
  }

  /** What was delivered before the flush at the end. */
  function Direct(h: C.ConnHistory): int { |h.delivered| - h.flushed }

  /** Segments may have been added, all of them now. */
  predicate Grown(h: C.ConnHistory, h': C.ConnHistory, now: nat)
  {
    h.tx <= h'.tx && forall i :: |h.tx| <= i < |h'.tx| ==> h'.tx[i].at == now
  }

  /** A reset was built for this connection. */
  predicate HasReset(tx: seq<C.Segment>) { exists i :: 0 <= i < |tx| && tx[i].th.flags == RST }

  /** A connection that is gone was reset by its device, or its device was sent a reset, unless the device is gone. */
  predicate Hung(w: World, d: nat, k: nat)
  {
    && k in w.pastConns
    && (d in w.devices && !w.devices[d].state.Removed? ==> w.pastConns[k].gotRst || HasReset(w.pastConns[k].tx))
  }

  /** Only a reset from the device puts a connection into these states. */
  predicate Sound(kn: C.Conn) { kn.state.Dying? || kn.state.Refused? ==> kn.h.gotRst }

  ghost predicate ConnSteady(w: World, w': World, k: nat)
  {
    && (ConnH(w, k).Some? <==> ConnH(w', k).Some?)
    && (ConnH(w, k).Some? ==>
          && SameInputs(ConnH(w, k).value, ConnH(w', k).value)
          && Direct(ConnH(w', k).value) == Direct(ConnH(w, k).value)
          && Grown(ConnH(w, k).value, ConnH(w', k).value, w.clock))
    && (k in w'.conns ==>
          k in w.conns && w'.conns[k].dev == w.conns[k].dev && (Sound(w.conns[k]) ==> Sound(w'.conns[k])))
  }

  ghost predicate ClientSteady(w: World, w': World, c: nat)
  {
    && (ClientH(w, c).Some? <==> ClientH(w', c).Some?)
    && (ClientH(w, c).Some? ==> ClientH(w', c).value.received == ClientH(w, c).value.received)
    && (c in w'.clients ==> c in w.clients)
  }

  /** Nothing came from outside. The live clients that are not in `cs` were given nothing either, and the connections
      that are gone, except `ks`, were ended properly. */
  ghost predicate Steady(w: World, w': World, ks: set<nat>, cs: set<nat>)
  {
    && w'.clock == w.clock
    && (forall k :: ConnSteady(w, w', k))
    && (forall c :: ClientSteady(w, w', c))
    && (forall c :: c in w'.clients && c !in cs ==>
          c in w.clients && w'.clients[c].h.sent == w.clients[c].h.sent)
    && (forall k :: k in w.conns && k !in w'.conns && k !in ks && Sound(w.conns[k]) ==> Hung(w', w.conns[k].dev, k))
    && (forall d :: d in w'.devices ==>
          d in w.devices && (w.devices[d].state.Removed? ==> w'.devices[d].state.Removed?))
  }

  lemma GrownTwice(a: C.ConnHistory, b: C.ConnHistory, c: C.ConnHistory, now: nat)
    requires Grown(a, b, now) && Grown(b, c, now)
    ensures Grown(a, c, now) && (HasReset(b.tx) ==> HasReset(c.tx))
  {
    if HasReset(b.tx) {
      var i :| 0 <= i < |b.tx| && b.tx[i].th.flags == RST;
      assert c.tx[i] == b.tx[i];
    }
  }

  lemma ConnThen(a: World, b: World, c: World, k: nat)
    requires ConnSteady(a, b, k) && ConnSteady(b, c, k) && b.clock == a.clock
    ensures ConnSteady(a, c, k)
  {
    hide Grown;
    if ConnH(a, k).Some? {
      GrownTwice(ConnH(a, k).value, ConnH(b, k).value, ConnH(c, k).value, a.clock);
    }
  }

  /** One after the other. */
  lemma Then(a: World, b: World, c: World, k1: set<nat>, c1: set<nat>, k2: set<nat>, c2: set<nat>)
    requires Steady(a, b, k1, c1) && Steady(b, c, k2, c2)
    ensures Steady(a, c, k1 + k2, c1 + c2)
  {
    hide Sound, Grown, HasReset;
    forall k
      ensures ConnSteady(a, c, k)
    {
      assert ConnSteady(a, b, k) && ConnSteady(b, c, k);
      ConnThen(a, b, c, k);
    }
    forall x
      ensures ClientSteady(a, c, x)
    {
      assert ClientSteady(a, b, x) && ClientSteady(b, c, x);
    }
    forall k | k in a.conns && k !in c.conns && k !in k1 + k2 && Sound(a.conns[k])
      ensures Hung(c, a.conns[k].dev, k)
    {
      assert ConnSteady(a, b, k) && ConnSteady(b, c, k);
      if k !in b.conns {
        GrownTwice(ConnH(b, k).value, ConnH(b, k).value, ConnH(c, k).value, a.clock) by {
          GrownSelf(ConnH(b, k).value, a.clock);
        }
      }
    }
  }

  lemma GrownSelf(h: C.ConnHistory, now: nat)
    ensures Grown(h, h, now)
  {
  }

  lemma ThenSteady(a: World, b: World, c: World)
    requires Steady(a, b, {}, {}) && Steady(b, c, {}, {})
    ensures Steady(a, c, {}, {})
  {
    hide Steady;
    Then(a, b, c, {}, {}, {}, {});
    var none: set<nat> := {};
    assert none + none == none;
  }

  // ---- Single updates ----

  /** Updates that no history shows, and segments built now. */
  ghost predicate Same(w: World, w': World)
  {
    && w'.clock == w.clock && w'.pastConns == w.pastConns && w'.pastClients == w.pastClients
    && w'.conns.Keys == w.conns.Keys && w'.clients.Keys == w.clients.Keys
    && (forall k :: k in w.conns ==> SameConn(w.conns[k], w'.conns[k], w.clock))
    && (forall c :: c in w.clients ==>
          w'.clients[c].h.received == w.clients[c].h.received && w'.clients[c].h.sent == w.clients[c].h.sent)
    && (forall d :: d in w'.devices ==>
          d in w.devices && (w.devices[d].state.Removed? ==> w'.devices[d].state.Removed?))
  }

  predicate SameConn(kn: C.Conn, kn': C.Conn, now: nat)
  {
    && SameInputs(kn.h, kn'.h) && Grown(kn.h, kn'.h, now) && Direct(kn'.h) == Direct(kn.h) && kn'.dev == kn.dev
    && (Sound(kn) ==> Sound(kn'))
  }

  lemma SameSteady(w: World, w': World)
    requires Same(w, w')
    ensures Steady(w, w', {}, {})
  {
    hide Sound, HasReset;
    forall k
      ensures ConnSteady(w, w', k)
    {
      if k !in w.conns && k in w.pastConns {
        GrownSelf(w.pastConns[k], w.clock);
      }
    }
  }

  lemma SameSelf(kn: C.Conn, now: nat)
    ensures SameConn(kn, kn, now)
  {
  }

  lemma SetConnSteady(w: World, k: nat, kn: C.Conn)
    requires k in w.conns && SameConn(w.conns[k], kn, w.clock)
    ensures Steady(w, SetConn(w, k, kn), {}, {})
  {
    hide SameConn;
    forall j | j in w.conns
      ensures SameConn(w.conns[j], w.conns[j], w.clock)
    {
      SameSelf(w.conns[j], w.clock);
    }
    SameSteady(w, SetConn(w, k, kn));
  }

  lemma RestSteady(w: World, w': World)
    requires w' == w.(clients := w'.clients, devices := w'.devices, nextConn := w'.nextConn,
                      nextClient := w'.nextClient, nextDevice := w'.nextDevice, faults := w'.faults)
    requires w'.clients.Keys == w.clients.Keys
    requires forall c :: c in w.clients ==>
               w'.clients[c].h.received == w.clients[c].h.received && w'.clients[c].h.sent == w.clients[c].h.sent
    requires forall d :: d in w'.devices ==>
               d in w.devices && (w.devices[d].state.Removed? ==> w'.devices[d].state.Removed?)
    ensures Steady(w, w', {}, {})
  {
    hide SameConn;
    forall j | j in w.conns
      ensures SameConn(w.conns[j], w'.conns[j], w.clock)
    {
      SameSelf(w.conns[j], w.clock);
    }
    SameSteady(w, w');
  }

  lemma FaultSteady(w: World)
    ensures Steady(w, Fault(w), {}, {})
  {
    RestSteady(w, Fault(w));
  }

  lemma SetClientSteady(w: World, c: nat, cl: L.Client)
    requires c in w.clients && cl.h.received == w.clients[c].h.received && cl.h.sent == w.clients[c].h.sent
    ensures Steady(w, SetClient(w, c, cl), {}, {})
  {
    RestSteady(w, SetClient(w, c, cl));
  }

  /** send_tcp */
  lemma SendSteady(env: Env, w: World, k: nat, flags: byte, data: seq<byte>)
    ensures Steady(w, SendTcp(env, w, k, flags, data), {}, {})
    ensures
      var w' := SendTcp(env, w, k, flags, data);
      k in w.conns ==> k in w'.conns && w'.conns[k].dev == w.conns[k].dev && w'.conns[k].state == w.conns[k].state
                       && (w.conns[k].dev in w.devices && flags == RST ==> HasReset(w'.conns[k].h.tx))
    ensures SendTcp(env, w, k, flags, data).clients == w.clients
  {
    hide Steady, D.SendPacket, TcpBytes;
    if k in w.conns && w.conns[k].dev in w.devices {
      var kn, d := w.conns[k], w.conns[k].dev;
      var sent := C.SendTcp(kn, flags, data, TcpOk(env, w, k, |data|), w.clock);
      assert sent.h.tx[|kn.h.tx|].th.flags == flags;
      SetConnSteady(w, k, sent);
      var w1 := SetConn(w, k, sent);
      SentState(w.devices[d], Tcp, TcpBytes(C.SegmentHeader(kn, flags)), data);
      RestSteady(w1, SendTcp(env, w, k, flags, data));
      ThenSteady(w, w1, SendTcp(env, w, k, flags, data));
    } else {
      FaultSteady(w);
    }
  }

  lemma SentState(dev: D.Device, p: Proto, header: seq<byte>, data: seq<byte>)
    ensures D.SendPacket(dev, p, header, data).state == dev.state
  {
  }

  // ---- Teardown and close ----

  lemma ResetSteady(env: Env, w: World, k: nat)
    ensures Steady(w, Reset(env, w, k), {}, {})
    ensures
      var w' := Reset(env, w, k);
      k in w.conns ==>
        && k in w'.conns && w'.conns[k].dev == w.conns[k].dev
        && (w.conns[k].dev in w.devices && !w.devices[w.conns[k].dev].state.Removed? && Sound(w.conns[k]) ==>
              w'.conns[k].h.gotRst || HasReset(w'.conns[k].h.tx))
  {
    hide Steady, SendTcp, HasReset;
    SendSteady(env, w, k, RST, []);
    FaultSteady(w);
    NothingSteady(w);
  }

  lemma NothingSteady(w: World)
    ensures Steady(w, w, {}, {})
  {
    RestSteady(w, w);
  }

  lemma ConnsSame(w: World, w': World)
    requires w'.conns == w.conns && w'.pastConns == w.pastConns
    ensures forall k :: ConnSteady(w, w', k)
  {
    hide Grown, Sound;
    forall k
      ensures ConnSteady(w, w', k)
    {
      if ConnH(w, k).Some? {
        GrownSelf(ConnH(w, k).value, w.clock);
      }
    }
  }

  lemma ClientsSame(w: World, w': World)
    requires w'.clients == w.clients && w'.pastClients == w.pastClients
    ensures forall c :: ClientSteady(w, w', c)
  {
  }

  lemma ClientGiven(w: World, c: nat, cl: L.Client)
    requires c in w.clients && cl.h.received == w.clients[c].h.received
    ensures Steady(w, SetClient(w, c, cl), {}, {c})
  {
    hide HasReset, Grown, Sound, ConnSteady;
    ConnsSame(w, SetClient(w, c, cl));
  }

  lemma BurySteady(env: Env, w: World, k: nat, c: nat)
    requires k in w.conns
    ensures Steady(w, Bury(env, w, k, c), {}, {c})
  {
    hide Steady, FlushLength;
    var n := FlushLength(env, w, k, c);
    var kn := C.Flushed(w.conns[k], n).(state := C.Dead);
    var dead, w' := SetConn(w, k, kn), Bury(env, w, k, c);
    SetConnSteady(w, k, kn);
    if c in w.clients {
      ClientGiven(dead, c, L.RawSent(w.clients[c], w.conns[k].ib[..n]));
      Then(w, dead, w', {}, {}, {}, {c});
      var none: set<nat> := {};
      assert none + none == none && none + {c} == {c};
    } else {
      RestSteady(dead, w');
      ThenSteady(w, dead, w');
      MoreClients(w, w', {c});
    }
  }

  lemma MoreClients(w: World, w': World, cs: set<nat>)
    requires Steady(w, w', {}, {})
    ensures Steady(w, w', {}, cs)
  {
    hide ConnSteady, ClientSteady, Hung, Sound;
  }

  lemma FreeConnSteady(w: World, k: nat)
    ensures Steady(w, FreeConn(w, k), {k}, {})
  {
    hide Sound, ConnSteady, ClientSteady, Hung, FreeConn;
    var w' := FreeConn(w, k);
    FreeConnFrame(w, k);
    forall j
      ensures ConnSteady(w, w', j)
    {
      FreedSteady(w, k, j);
    }
    ClientsSame(w, w');
  }

  lemma FreeConnFrame(w: World, k: nat)
    ensures
      var w' := FreeConn(w, k);
      && w'.clock == w.clock && w'.clients == w.clients && w'.pastClients == w.pastClients && w'.devices == w.devices
      && w'.conns == (if k in w.conns then w.conns - {k} else w.conns)
  {
  }

  lemma FreedSteady(w: World, k: nat, j: nat)
    ensures ConnSteady(w, FreeConn(w, k), j)
  {
    hide Sound, Grown;
    if ConnH(w, j).Some? {
      var h := ConnH(w, j).value;
      GrownSelf(h, w.clock);
      GrownFrees(h, w.clock);
      if j != k {
        assert ConnH(FreeConn(w, k), j) == Some(h);
      } else {
        assert ConnH(FreeConn(w, k), j) == Some(h.(frees := h.frees + 1));
      }
    }
  }

  lemma GrownFrees(h: C.ConnHistory, now: nat)
    ensures Grown(h, h.(frees := h.frees + 1), now)
  {
  }

  lemma FreeClientSteady(w: World, c: nat)
    ensures Steady(w, FreeClient(w, c), {}, {})
  {
    hide Sound, ConnSteady, ClientSteady, Hung, FreeClient;
    var w' := FreeClient(w, c);
    FreeClientFrame(w, c);
    ConnsSame(w, w');
    forall x
      ensures ClientSteady(w, w', x)
    {
      FreedClientSteady(w, c, x);
    }
  }

  lemma FreeClientFrame(w: World, c: nat)
    ensures
      var w' := FreeClient(w, c);
      && w'.clock == w.clock && w'.conns == w.conns && w'.pastConns == w.pastConns && w'.devices == w.devices
      && w'.clients == (if c in w.clients then w.clients - {c} else w.clients)
  {
  }

  lemma FreedClientSteady(w: World, c: nat, x: nat)
    ensures ClientSteady(w, FreeClient(w, c), x)
  {
  }

  lemma NotifySteady(env: Env, w: World, c: nat)
    ensures Steady(w, NotifyRefused(env, w, c), {}, {})
  {
    hide Steady, Encode, Wire;
    FaultSteady(w);
    NothingSteady(w);
    if c in w.clients && L.Notify(env, w.clients[c], RESULT_CONNREFUSED).Some? {
      SetClientSteady(w, c, L.Notify(env, w.clients[c], RESULT_CONNREFUSED).value);
    }
  }

  /** Once the connection and the client are gone, nothing is left open. */
  lemma Discharge(w: World, w': World, k: nat, cs: set<nat>)
    requires Steady(w, w', {k}, cs) && k !in w'.conns && forall c :: c in cs ==> c !in w'.clients
    requires k in w.conns && Sound(w.conns[k]) ==> Hung(w', w.conns[k].dev, k)
    ensures Steady(w, w', {}, {})
  {
    hide ConnSteady, ClientSteady, Hung, Sound;
  }

  /** A connection that was ended properly stays so. */
  lemma StaysHung(w: World, quiet: World, w': World, k: nat, ks: set<nat>, cs: set<nat>)
    requires k in w.conns && k in quiet.conns && k !in w'.conns && quiet.conns[k].dev == w.conns[k].dev
    requires Steady(w, quiet, {}, {}) && Steady(quiet, w', ks, cs)
    requires w.conns[k].dev in w.devices && !w.devices[w.conns[k].dev].state.Removed? && Sound(w.conns[k]) ==>
               quiet.conns[k].h.gotRst || HasReset(quiet.conns[k].h.tx)
    ensures Sound(w.conns[k]) ==> Hung(w', w.conns[k].dev, k)
  {
    hide Sound, HasReset, Grown;
    assert ConnSteady(quiet, w', k);
    GrownSelf(quiet.conns[k].h, quiet.clock);
    GrownTwice(quiet.conns[k].h, quiet.conns[k].h, ConnH(w', k).value, quiet.clock);
  }

  lemma {:induction false} TeardownSteady(env: Env, w: World, k: nat)
    ensures Steady(w, Teardown(env, w, k), {}, {})
    decreases Owned(w), 3
  {
    hide Steady, ClientClose, Bury, NotifyRefused, Reset, FreeConn, Sound, HasReset, Hung;
    if k !in w.conns {
      FaultSteady(w);
    } else if w.conns[k].state.Dead? {
      NothingSteady(w);
    } else {
      var kn, quiet, w' := w.conns[k], Reset(env, w, k), Teardown(env, w, k);
      ResetSteady(env, w, k);
      var told := quiet;
      var cs: set<nat> := {};
      if kn.client.None? {
        NothingSteady(quiet);
        FreeSteady(quiet, quiet, k, {});
      } else if kn.state.Refused? || kn.state.Connecting? {
        told := NotifyRefused(env, quiet, kn.client.value);
        NotifySteady(env, quiet, kn.client.value);
        FreeSteady(quiet, told, k, {});
      } else {
        var c := kn.client.value;
        var dead := Bury(env, quiet, k, c);
        BurySteady(env, quiet, k, c);
        assert Owned(dead) == Owned(w);
        CloseSteady(env, dead, c);
        Then(quiet, dead, ClientClose(env, dead, c), {}, {c}, {}, {});
        var none: set<nat> := {};
        assert none + none == none && {c} + none == {c};
        told, cs := ClientClose(env, dead, c), {c};
        FreeSteady(quiet, told, k, {c});
      }
      FreedIsGone(told, k);
      StaysHung(w, quiet, w', k, {k}, cs);
      Then(w, quiet, w', {}, {}, {k}, cs);
      assert {} + {k} == {k} && {} + cs == cs;
      Discharge(w, w', k, cs);
    }
  }

  /** The end of a teardown. */
  lemma FreeSteady(w: World, told: World, k: nat, cs: set<nat>)
    requires Steady(w, told, {}, cs)
    ensures Steady(w, FreeConn(told, k), {k}, cs)
  {
    hide Steady, FreeConn;
    FreeConnSteady(told, k);
    Then(w, told, FreeConn(told, k), {}, cs, {k}, {});
    assert {} + {k} == {k} && cs + {} == cs;
  }

  lemma FreedIsGone(w: World, k: nat)
    ensures k !in FreeConn(w, k).conns && FreeConn(w, k).clients == w.clients
  {
  }

  lemma {:induction false} CloseSteady(env: Env, w: World, c: nat)
    ensures Steady(w, ClientClose(env, w, c), {}, {}) && c !in ClientClose(env, w, c).clients
    decreases Owned(w), 2
  {
    hide Steady, AbortConnect;
    NothingSteady(w);
    if c in w.clients {
      var cl := w.clients[c];
      var w1 := w;
      if cl.state.Connecting1? || cl.state.Connecting2? {
        var gone := SetClient(w, c, cl.(state := L.Gone));
        SetClientSteady(w, c, cl.(state := L.Gone));
        assert Owned(gone) == Owned(w);
        AbortSteady(env, gone, cl.connectDev, c);
        w1 := AbortConnect(env, gone, cl.connectDev, c);
        ThenSteady(w, gone, w1);
      }
      FreeClientSteady(w1, c);
      ThenSteady(w, w1, FreeClient(w1, c));
    }
  }

  lemma {:induction false} AbortSteady(env: Env, w: World, d: nat, c: nat)
    ensures Steady(w, AbortConnect(env, w, d, c), {}, {})
    decreases Owned(w), 1
  {
    hide Steady, Teardown;
    NothingSteady(w);
    var found := FindConn(w, d, c, w.nextConn);
    if found.Some? {
      var k := found.value;
      var orphaned := SetConn(w, k, w.conns[k].(client := None));
      SetConnSteady(w, k, w.conns[k].(client := None));
      assert Owned(orphaned) == Owned(w) - {k};
      TeardownSteady(env, orphaned, k);
      ThenSteady(w, orphaned, Teardown(env, orphaned, k));
    }
  }

  // ---- Serving a connection ----

  lemma UpdateSteady(w: World, k: nat)
    ensures Steady(w, UpdateConnection(w, k), {}, {})
  {
    hide Steady, C.Sendable;
    FaultSteady(w);
    if k in w.conns {
      var kn := C.Update(w.conns[k]);
      var w1 := SetConn(w, k, kn);
      SetConnSteady(w, k, kn);
      FaultSteady(w1);
      if kn.client.Some? && kn.client.value in w.clients {
        SetClientSteady(w1, kn.client.value, L.SetEvents(w.clients[kn.client.value], kn.events));
      }
      ThenSteady(w, w1, UpdateConnection(w, k));
    }
  }

  lemma AckSteady(env: Env, w: World, k: nat)
    ensures Steady(w, SendTcpAck(env, w, k), {}, {})
  {
    hide Steady, SendTcp, Teardown, UpdateConnection, TcpOk;
    FaultSteady(w);
    var sent := SendTcp(env, w, k, ACK, []);
    SendSteady(env, w, k, ACK, []);
    UpdateSteady(sent, k);
    ThenSteady(w, sent, UpdateConnection(sent, k));
    TeardownSteady(env, sent, k);
    ThenSteady(w, sent, Teardown(env, sent, k));
  }

  lemma AdvanceSteady(w: World, k: nat, n: nat)
    ensures Steady(w, AdvanceArm(w, k, n), {}, {})
  {
    hide Steady;
    FaultSteady(w);
    if k in w.conns {
      SetConnSteady(w, k, C.Advance(w.conns[k], n));
    }
  }

  // ---- Loops ----

  lemma {:induction false} TeardownAllSteady(env: Env, w: World, d: nat, n: nat)
    ensures Steady(w, TeardownAll(env, w, d, n), {}, {})
    decreases n
  {
    hide Steady, Teardown;
    if n == 0 {
      NothingSteady(w);
    } else {
      TeardownAllSteady(env, w, d, n - 1);
      var w1 := TeardownAll(env, w, d, n - 1);
      TeardownSteady(env, w1, n - 1);
      ThenSteady(w, w1, Teardown(env, w1, n - 1));
    }
  }

  lemma RemoveSteady(env: Env, w: World, d: nat)
    ensures Steady(w, DeviceRemove(env, w, d), {}, {})
  {
    hide Steady, TeardownAll, Encode, Wire;
    NothingSteady(w);
    if d in w.devices {
      var clean := w;
      if w.devices[d].state.Active? {
        var gone := SetDevice(w, d, w.devices[d].(state := D.Removed));
        RestSteady(w, gone);
        TeardownAllSteady(env, gone, d, w.nextConn);
        var torn := TeardownAll(env, gone, d, w.nextConn);
        ThenSteady(w, gone, torn);
        clean := TellListeners(env, torn, Detached(d));
        RestSteady(torn, clean);
        ThenSteady(w, torn, clean);
      }
      RestSteady(clean, clean.(devices := clean.devices - {d}));
      ThenSteady(w, clean, clean.(devices := clean.devices - {d}));
    }
  }

  lemma {:induction false} TickSteady(env: Env, w: World, n: nat)
    ensures Steady(w, CheckTimeouts(env, w, n), {}, {})
    decreases n
  {
    hide Steady, SendTcpAck;
    if n == 0 {
      NothingSteady(w);
    } else {
      TickSteady(env, w, n - 1);
      var w1 := CheckTimeouts(env, w, n - 1);
      AckSteady(env, w1, n - 1);
      ThenSteady(w, w1, SendTcpAck(env, w1, n - 1));
    }
  }

  // ---- Segments ----

  lemma EstablishSteady(env: Env, w: World, k: nat)
    requires k in w.conns
    ensures Steady(SetConn(w, k, C.Handshake(w.conns[k])), Establish(env, w, k), {}, {})
  {
    hide Steady, Teardown, UpdateConnection, SendTcp, TcpOk, L.Notify, C.Handshake;
    var shaken := SetConn(w, k, C.Handshake(w.conns[k]));
    SendSteady(env, shaken, k, ACK, []);
    var acked := SendTcp(env, shaken, k, ACK, []);
    TeardownSteady(env, acked, k);
    ThenSteady(shaken, acked, Teardown(env, acked, k));
    if TcpOk(env, shaken, k, 0) {
      UpSteady(env, w, shaken, acked, k);
    }
  }

  lemma UpSteady(env: Env, w: World, shaken: World, acked: World, k: nat)
    requires Steady(shaken, acked, {}, {}) && k in acked.conns && acked.clients == w.clients
    ensures
      var up := acked.conns[k].(state := C.Connected);
      && Steady(shaken, UpdateConnection(Fault(SetConn(acked, k, up)), k), {}, {})
      && Steady(shaken, UpdateConnection(Teardown(env, SetConn(acked, k, up.(client := None)), k), k), {}, {})
      && (up.client.Some? && up.client.value in w.clients ==>
            var told := L.Notify(env, w.clients[up.client.value], RESULT_OK);
            told.Some? ==>
              var w1 := SetClient(SetConn(acked, k, up), up.client.value, told.value);
              Steady(shaken, UpdateConnection(w1, k), {}, {}))
  {
    hide Steady, Teardown, UpdateConnection, Encode, Wire;
    var up := acked.conns[k].(state := C.Connected);
    var raised, orphaned := SetConn(acked, k, up), SetConn(acked, k, up.(client := None));
    SetConnSteady(acked, k, up);
    SetConnSteady(acked, k, up.(client := None));
    ThenSteady(shaken, acked, raised);
    ThenSteady(shaken, acked, orphaned);
    FaultSteady(raised);
    ThenSteady(shaken, raised, Fault(raised));
    UpdatedSteady(shaken, Fault(raised), k);
    TeardownSteady(env, orphaned, k);
    ThenSteady(shaken, orphaned, Teardown(env, orphaned, k));
    UpdatedSteady(shaken, Teardown(env, orphaned, k), k);
    if up.client.Some? && up.client.value in w.clients {
      var told := L.Notify(env, w.clients[up.client.value], RESULT_OK);
      if told.Some? {
        var w1 := SetClient(raised, up.client.value, told.value);
        SetClientSteady(raised, up.client.value, told.value);
        ThenSteady(shaken, raised, w1);
        UpdatedSteady(shaken, w1, k);
      }
    }
  }

  lemma UpdatedSteady(w: World, w1: World, k: nat)
    requires Steady(w, w1, {}, {})
    ensures Steady(w, UpdateConnection(w1, k), {}, {})
  {
    hide Steady, UpdateConnection;
    UpdateSteady(w1, k);
    ThenSteady(w, w1, UpdateConnection(w1, k));
  }

  /** What a segment brings to its connection. */
  function SegmentNote(kn: C.Conn, th: TcpHeader, payload: seq<byte>): C.Conn
  {
    var h := kn.h.(heard := th, gotRst := kn.h.gotRst || HasRst(th.flags));
    kn.(h := if kn.state.Connecting? && th.flags == SYN_ACK then h.(isn := th.seqno)
             else if kn.state.Connected? && th.flags == ACK && |kn.ib| + |payload| <= 262144
             then h.(accepted := kn.h.accepted + payload)
             else h)
  }

  lemma AnswerSteady(env: Env, w: World, k: nat, th: TcpHeader, payload: seq<byte>)
    requires k in w.conns && w.conns[k].state.Connecting? && th.flags == SYN_ACK
    ensures Steady(SetConn(w, k, SegmentNote(w.conns[k], th, payload)), Segment(env, w, k, th, payload), {}, {})
  {
    hide Steady, Establish;
    var noted := C.NoteHeader(w.conns[k], th);
    var note, shaken := SegmentNote(w.conns[k], th, payload), C.Handshake(noted);
    Replaced(w, k, note, shaken);
    EstablishSteady(env, SetConn(w, k, noted), k);
    assert w.conns[k := noted][k := shaken] == w.conns[k := shaken];
    ThenSteady(SetConn(w, k, note), SetConn(w, k, shaken), Segment(env, w, k, th, payload));
  }

  lemma PayloadSteady(env: Env, w: World, k: nat, th: TcpHeader, payload: seq<byte>)
    requires k in w.conns && w.conns[k].state.Connected? && th.flags == ACK && |w.conns[k].ib| + |payload| <= 262144
    ensures Steady(SetConn(w, k, SegmentNote(w.conns[k], th, payload)), Segment(env, w, k, th, payload), {}, {})
  {
    hide Steady, UpdateConnection, SendTcpAck;
    var noted := C.NoteHeader(w.conns[k], th);
    var note, full := SegmentNote(w.conns[k], th, payload), C.Accept(noted, payload);
    Replaced(w, k, note, full);
    assert w.conns[k := noted][k := full] == w.conns[k := full];
    UpdatedSteady(SetConn(w, k, note), SetConn(w, k, full), k);
    AckedSteady(env, SetConn(w, k, note), UpdateConnection(SetConn(w, k, full), k), k);
  }

  lemma EndSteady(env: Env, w: World, k: nat, th: TcpHeader, payload: seq<byte>)
    requires k in w.conns
    requires if w.conns[k].state.Connecting? then th.flags != SYN_ACK
             else w.conns[k].state.Connected? && (th.flags != ACK || |w.conns[k].ib| + |payload| > 262144)
    ensures Steady(SetConn(w, k, SegmentNote(w.conns[k], th, payload)), Segment(env, w, k, th, payload), {}, {})
  {
    hide Steady, Teardown, SendTcpAck;
    var kn := w.conns[k];
    var noted, note := C.NoteHeader(kn, th), SegmentNote(kn, th, payload);
    var last := if !HasRst(th.flags) || (kn.state.Connected? && th.flags == ACK) then noted
                else noted.(state := if kn.state.Connecting? then C.Refused else C.Dying);
    Replaced(w, k, note, last);
    TeardownSteady(env, SetConn(w, k, last), k);
    ThenSteady(SetConn(w, k, note), SetConn(w, k, last), Teardown(env, SetConn(w, k, last), k));
    AckedSteady(env, SetConn(w, k, note), Teardown(env, SetConn(w, k, last), k), k);
  }

  /** device_tcp_input on the connection that matched: the header is noted, the number of a SYN/ACK kept, the payload of
      an ACK that fits accepted, and nothing else comes from outside. */
  lemma SegmentSteady(env: Env, w: World, k: nat, th: TcpHeader, payload: seq<byte>)
    requires k in w.conns && (w.conns[k].state.Connecting? || w.conns[k].state.Connected?)
    ensures Steady(SetConn(w, k, SegmentNote(w.conns[k], th, payload)), Segment(env, w, k, th, payload), {}, {})
  {
    hide Steady, Segment, SegmentNote;
    var kn := w.conns[k];
    if kn.state.Connecting? && th.flags == SYN_ACK {
      AnswerSteady(env, w, k, th, payload);
    } else if kn.state.Connected? && th.flags == ACK && |kn.ib| + |payload| <= 262144 {
      PayloadSteady(env, w, k, th, payload);
    } else {
      EndSteady(env, w, k, th, payload);
    }
  }

  lemma AckedSteady(env: Env, w: World, w1: World, k: nat)
    requires Steady(w, w1, {}, {})
    ensures Steady(w, SendTcpAck(env, w1, k), {}, {})
  {
    hide Steady, SendTcpAck;
    AckSteady(env, w1, k);
    ThenSteady(w, w1, SendTcpAck(env, w1, k));
  }

  /** Two records of a connection with the same history. */
  lemma Replaced(w: World, k: nat, a: C.Conn, b: C.Conn)
    requires SameConn(a, b, w.clock)
    ensures Steady(SetConn(w, k, a), SetConn(w, k, b), {}, {})
  {
    hide Steady, SameConn;
    SetConnSteady(SetConn(w, k, a), k, b);
    assert w.conns[k := a][k := b] == w.conns[k := b];
  }

  /** The world with what an arrival brings. */
  function Arrive(w: World, a: Arrival): World
  {
    if a.Arrival? && a.k in w.conns then SetConn(w, a.k, SegmentNote(w.conns[a.k], a.th, a.payload)) else w
  }

  ghost predicate Talkative(w: World)
  {
    forall k :: k in w.conns ==> w.conns[k].state.Connecting? || w.conns[k].state.Connected?
  }

  lemma TcpInputSteady(env: Env, w: World, d: nat, th: TcpHeader, payload: seq<byte>)
    requires Talkative(w) && d in w.devices
    ensures
      var found := FindPorts(w, d, th.dport, th.sport, w.nextConn);
      var a := if w.devices[d].state.Active? && found.Some? then Arrival(found.value, th, payload) else Nothing;
      Steady(Arrive(w, a), TcpInput(env, w, d, th, payload), {}, {})
  {
    hide Steady, Segment, SegmentNote, D.SendPacket, TcpBytes;
    NothingSteady(w);
    var found := FindPorts(w, d, th.dport, th.sport, w.nextConn);
    if w.devices[d].state.Active? && found.Some? {
      SegmentSteady(env, w, found.value, th, payload);
    } else if w.devices[d].state.Active? && !HasRst(th.flags) {
      var reset := TcpHeader(th.dport, th.sport, 0, th.seqno, RST, 0);
      SentState(w.devices[d], Tcp, TcpBytes(reset), []);
      RestSteady(w, TcpInput(env, w, d, th, payload));
    }
  }

  lemma VersionSteady(w: World, d: nat, major: nat)
    requires d in w.devices
    ensures Steady(w, VersionInput(w, d, major), {}, {})
  {
    hide Steady, D.SendPacket;
    RestSteady(w, VersionInput(w, d, major));
  }

  lemma PacketSteady(env: Env, w: World, d: nat, pkt: seq<byte>)
    requires Talkative(w) && d in w.devices && |pkt| >= 8
    ensures Steady(Arrive(w, PacketArrival(w, d, pkt)), PacketInput(env, w, d, pkt), {}, {})
  {
    hide Steady, Parse, TcpInput, VersionInput, SeenField, SegmentNote, FindPorts;
    var dev := w.devices[d];
    var seen := if dev.version >= 2 && |pkt| >= 16 then SetDevice(w, d, dev.(rxSeq := Some(SeenField(pkt)))) else w;
    var a := PacketArrival(w, d, pkt);
    RestSteady(Arrive(w, a), Arrive(seen, a));
    match Parse(dev.version, pkt)
    case VersionIn(major) =>
      VersionSteady(seen, d, major);
      ThenSteady(w, seen, VersionInput(seen, d, major));
    case TcpIn(th, payload) =>
      FindPortsFrame(w, seen, d, th.dport, th.sport, w.nextConn);
      TcpInputSteady(env, seen, d, th, payload);
      ThenSteady(Arrive(w, a), Arrive(seen, a), PacketInput(env, w, d, pkt));
    case _ =>
  }

  lemma DataInputSteady(env: Env, w: World, d: nat, chunk: seq<byte>)
    requires Talkative(w)
    ensures Steady(Arrive(w, ArrivalOf(w, Transfer(d, chunk))), DataInput(env, w, d, chunk), {}, {})
  {
    hide Steady, Gather, PacketInput, SegmentNote, FindPorts, Parse;
    NothingSteady(w);
    if d in w.devices {
      var g := Gather(w.devices[d].buf, chunk);
      var kept := SetDevice(w, d, w.devices[d].(buf := g.buf));
      var a := ArrivalOf(w, Transfer(d, chunk));
      RestSteady(Arrive(w, a), Arrive(kept, a));
      if g.packet.Some? {
        var pkt := g.packet.value;
        PacketSteady(env, kept, d, pkt);
        match Parse(kept.devices[d].version, pkt) {
          case TcpIn(th, payload) => FindPortsFrame(w, kept, d, th.dport, th.sport, w.nextConn);
          case _ =>
        }
        ThenSteady(Arrive(w, a), Arrive(kept, a), DataInput(env, w, d, chunk));
      }
    }
  }

  // ---- Clients ----

  /** The world with what device_client_process moves. */
  function Move(w: World, k: nat, c: nat, n: nat, data: seq<byte>): World
    requires k in w.conns && c in w.clients && n <= |w.conns[k].ib|
  {
    var kn, cl := w.conns[k], w.clients[c];
    SetClient(SetConn(w, k, kn.(h := kn.h.(delivered := kn.h.delivered + kn.ib[..n], taken := kn.h.taken + data))),
              c, cl.(h := cl.h.(sent := cl.h.sent + kn.ib[..n], received := cl.h.received + data)))
  }

  /** Two records of a connection and its client with the same histories. */
  lemma PairReplaced(w: World, k: nat, c: nat, a: C.Conn, b: C.Conn, x: L.Client, y: L.Client)
    requires SameConn(a, b, w.clock) && y.h.received == x.h.received && y.h.sent == x.h.sent
    ensures Steady(SetClient(SetConn(w, k, a), c, x), SetClient(SetConn(w, k, b), c, y), {}, {})
  {
    hide Steady, SameConn;
    var one, two := SetClient(SetConn(w, k, a), c, x), SetClient(SetConn(w, k, b), c, x);
    SetConnSteady(one, k, b);
    assert w.conns[k := a][k := b] == w.conns[k := b];
    SetClientSteady(two, c, y);
    assert w.clients[c := x][c := y] == w.clients[c := y];
    ThenSteady(one, two, SetClient(SetConn(w, k, b), c, y));
  }

  lemma ProcessSteady(env: Env, w: World, k: nat, c: nat, io: SocketResults)
    requires k in w.conns && c in w.clients && w.clients[c].state.Joined?
    ensures
      var kn := w.conns[k];
      var n := if WritesWell(kn, io) then Written(kn, io) else 0;
      var data := if WritesWell(kn, io) && ReadsWell(kn, io) then Taken(kn, io) else [];
      n <= |kn.ib| && Steady(Move(w, k, c, n, data), ProcessWrite(env, w, k, c, io), {}, {})
  {
    hide Steady, Teardown, ProcessRead;
    var kn, cl := w.conns[k], w.clients[c];
    MoveNothing(w, k, c);
    if !WritesWell(kn, io) {
      TeardownSteady(env, w, k);
    } else if io.write.Some? && kn.ib != [] {
      var n := io.write.value;
      var w1 := WriteArm(w, k, c, n);
      ReadSteady(env, w1, k, c, io);
      var data := if ReadsWell(kn, io) then Taken(kn, io) else [];
      var kn1, cl1 := C.Wrote(kn, n), L.RawSent(cl, kn.ib[..n]);
      PairReplaced(w, k, c, kn.(h := kn.h.(delivered := kn.h.delivered + kn.ib[..n], taken := kn.h.taken + data)),
                   kn1.(h := kn1.h.(taken := kn1.h.taken + data)),
                   cl.(h := cl.h.(sent := cl.h.sent + kn.ib[..n], received := cl.h.received + data)),
                   cl1.(h := cl1.h.(received := cl1.h.received + data)));
      MoveAgain(w, k, c, n, data);
      ThenSteady(Move(w, k, c, n, data), Move(w1, k, c, 0, data), ProcessWrite(env, w, k, c, io));
    } else {
      ReadSteady(env, w, k, c, io);
    }
  }

  lemma MoveNothing(w: World, k: nat, c: nat)
    requires k in w.conns && c in w.clients
    ensures Move(w, k, c, 0, []) == w
  {
    var kn, cl := w.conns[k], w.clients[c];
    assert kn.h.delivered + kn.ib[..0] == kn.h.delivered && kn.h.taken + [] == kn.h.taken;
    assert cl.h.sent + kn.ib[..0] == cl.h.sent && cl.h.received + [] == cl.h.received;
    assert w.conns[k := kn] == w.conns && w.clients[c := cl] == w.clients;
  }

  lemma MoveAgain(w: World, k: nat, c: nat, n: nat, data: seq<byte>)
    requires k in w.conns && c in w.clients && n <= |w.conns[k].ib|
    ensures
      var w1 := WriteArm(w, k, c, n);
      var kn1, cl1 := C.Wrote(w.conns[k], n), L.RawSent(w.clients[c], w.conns[k].ib[..n]);
      && k in w1.conns && c in w1.clients
      && Move(w1, k, c, 0, data) ==
         SetClient(SetConn(w, k, kn1.(h := kn1.h.(taken := kn1.h.taken + data))), c,
                   cl1.(h := cl1.h.(received := cl1.h.received + data)))
  {
    var kn1, cl1 := C.Wrote(w.conns[k], n), L.RawSent(w.clients[c], w.conns[k].ib[..n]);
    assert kn1.h.delivered + kn1.ib[..0] == kn1.h.delivered;
    assert cl1.h.sent + kn1.ib[..0] == cl1.h.sent;
    var kn2 := kn1.(h := kn1.h.(taken := kn1.h.taken + data));
    var cl2 := cl1.(h := cl1.h.(received := cl1.h.received + data));
    assert w.conns[k := kn1][k := kn2] == w.conns[k := kn2];
    assert w.clients[c := cl1][c := cl2] == w.clients[c := cl2];
  }

  lemma ReadSteady(env: Env, w: World, k: nat, c: nat, io: SocketResults)
    requires k in w.conns && c in w.clients && w.clients[c].state.Joined?
    ensures
      var kn := w.conns[k];
      var data := if ReadsWell(kn, io) then Taken(kn, io) else [];
      Steady(Move(w, k, c, 0, data), ProcessRead(env, w, k, c, io), {}, {})
  {
    hide Steady, Teardown, UpdateConnection, SendTcp, TcpOk, AdvanceArm;
    var kn, cl := w.conns[k], w.clients[c];
    MoveNothing(w, k, c);
    if io.read.Some? && kn.sendable > 0 {
      if !ReadsWell(kn, io) {
        TeardownSteady(env, w, k);
      } else {
        var data := io.read.value;
        var took := ReadArm(w, k, c, data);
        assert Move(w, k, c, 0, data) == took by {
          assert kn.h.delivered + kn.ib[..0] == kn.h.delivered && cl.h.sent + kn.ib[..0] == cl.h.sent;
        }
        SendSteady(env, took, k, ACK, data);
        var sent := SendTcp(env, took, k, ACK, data);
        TeardownSteady(env, sent, k);
        ThenSteady(took, sent, Teardown(env, sent, k));
        AdvanceSteady(sent, k, |data|);
        ThenSteady(took, sent, AdvanceArm(sent, k, |data|));
        UpdatedSteady(took, AdvanceArm(sent, k, |data|), k);
      }
    } else {
      UpdateSteady(w, k);
    }
  }
}
