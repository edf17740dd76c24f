/** What every reachable state of the daemon satisfies, and how updates of the tables keep it. */
module Invariant {
  import opened Basics
  import opened ClientMessage
  import opened Environment
  import opened Daemon
  import C = Connection
  import L = Client
  import D = Device

  predicate Linked(s: L.ClientState) { s.Connecting1? || s.Connecting2? || s.Joined? }

  /** A connection and its client agree: on the device, on the phase they are in, on the bytes that passed
      between them and on the poll mask. */
  predicate PairOk(env: Env, kn: C.Conn, cl: L.Client)
  {
    && cl.connectDev == kn.dev
    && kn.sport != 0
    && match cl.state
       case Connecting1 => kn.state.Connecting? && C.Waiting(kn) && L.Pending(env, cl)
       case Connecting2 =>
         && kn.state.Connected? && C.Established(kn) && L.Joining(env, cl)
         && cl.devents == kn.events && kn.h.delivered == [] && kn.h.taken == []
       case Joined =>
         && kn.state.Connected? && C.Established(kn) && L.InStream(env, cl, kn.h.delivered, kn.h.taken)
         && cl.devents == kn.events
       case _ => false
  }

  predicate ConnOk(env: Env, w: World, k: nat)
    requires k in w.conns
  {
    var kn := w.conns[k];
    && k < w.nextConn && k !in w.pastConns
    && kn.dev in w.devices && !w.devices[kn.dev].state.Starting?
    && kn.lastAck <= w.clock
    && kn.client.Some? && kn.client.value in w.clients
    && var cl := w.clients[kn.client.value];
       cl.h.conn == Some(k) && Linked(cl.state) && PairOk(env, kn, cl)
  }

  predicate ClientOk(env: Env, w: World, c: nat)
    requires c in w.clients
  {
    var cl := w.clients[c];
    && c < w.nextClient && c !in w.pastClients
    && if Linked(cl.state)
       then cl.h.conn.Some? && cl.h.conn.value in w.conns && w.conns[cl.h.conn.value].client == Some(c)
       else L.Single(env, cl)
  }

  predicate PortsDistinct(w: World)
  {
    forall j, k :: j in w.conns && k in w.conns && j != k && w.conns[j].dev == w.conns[k].dev
      ==> w.conns[j].sport != w.conns[k].sport
  }

  /** A client that is no more: if it was joined, it was sent its messages and then what its connection delivered,
      all that the device sent unless the last flush gave up, otherwise a prefix of its messages; what it sent is
      accounted for; its replies came in the order of its commands, and if it was joined the last of them was Result OK
      for a Connect. */
  ghost predicate Departed(env: Env, past: map<nat, C.ConnHistory>, h: L.ClientHistory)
  {
    && h.frees == 1 && L.Ordered(env, h)
    && if h.joined then
         && h.conn.Some? && h.conn.value in past && L.Granted(env, h)
         && h.sent == Stream(env.xml, h.msgs) + past[h.conn.value].delivered
         && Emptied(env, h.conn.value, past[h.conn.value])
         && h.received == Concat(h.cmds) + h.lost + past[h.conn.value].taken
       else h.sent <= Stream(env.xml, h.msgs) && Concat(h.cmds) + h.lost <= h.received
  }

  /** The flush at the end of the connection wrote what was left of the bytes that the device sent, unless it had to
      give up. */
  ghost predicate Emptied(env: Env, k: nat, h: C.ConnHistory)
  {
    && h.flushed <= |h.delivered| <= |h.accepted|
    && Drained(env.flush(k), |h.accepted| - |h.delivered| + h.flushed, h.flushed)
  }

  ghost predicate PastOk(env: Env, w: World)
  {
    && (forall k :: k in w.pastConns ==> k < w.nextConn && C.Released(w.pastConns[k]))
    && (forall c :: c in w.pastClients ==>
          c < w.nextClient && Departed(env, w.pastConns, w.pastClients[c]))
  }

  predicate DevicesOk(w: World)
  {
    forall d :: d in w.devices ==> d < w.nextDevice && D.Consistent(w.devices[d])
  }

  /** Nothing leaks: what was ever allocated is live or has been freed. */
  predicate Accounted(w: World)
  {
    && (forall k: nat :: k < w.nextConn ==> k in w.conns || k in w.pastConns)
    && (forall c: nat :: c < w.nextClient ==> c in w.clients || c in w.pastClients)
  }

  ghost predicate ConnsOk(env: Env, w: World) { forall k :: k in w.conns ==> ConnOk(env, w, k) }
  ghost predicate ClientsOk(env: Env, w: World) { forall c :: c in w.clients ==> ClientOk(env, w, c) }

  ghost predicate Inv(env: Env, w: World)
  {
    ConnsOk(env, w) && ClientsOk(env, w) && PortsDistinct(w) && PastOk(env, w) && DevicesOk(w) && Accounted(w)
  }

  /** What every listening client has been told. */
  predicate ListenersSee(w: World, seen: set<nat>)
  {
    forall c :: c in w.clients && w.clients[c].state.Listening? ==> Seen(w.clients[c].h.msgs) == seen
  }

  /** Between steps, listeners know exactly the visible devices and no device is half removed. */
  predicate Settled(w: World)
  {
    && ListenersSee(w, VisibleDevices(w))
    && forall d :: d in w.devices ==> !w.devices[d].state.Removed?
  }

  // ---- Updates of the tables ----

  predicate SameWires(kn: C.Conn, kn': C.Conn)
  {
    kn'.dev == kn.dev && kn'.client == kn.client && kn'.sport == kn.sport
  }

  // Frames: one entry of a table that did not change.

  lemma ConnFrame(env: Env, w: World, w': World, j: nat)
    requires j in w.conns && ConnOk(env, w, j) && j in w'.conns && w'.conns[j] == w.conns[j]
    requires w.conns[j].client.value in w'.clients
    requires w'.clients[w.conns[j].client.value] == w.clients[w.conns[j].client.value]
    requires j !in w'.pastConns && w.nextConn <= w'.nextConn && w.clock <= w'.clock
    requires w.conns[j].dev in w'.devices && !w'.devices[w.conns[j].dev].state.Starting?
    ensures ConnOk(env, w', j)
  {
    hide PairOk;
  }

  lemma ClientFrame(env: Env, w: World, w': World, x: nat)
    requires x in w.clients && ClientOk(env, w, x) && x in w'.clients && w'.clients[x] == w.clients[x]
    requires x !in w'.pastClients && w.nextClient <= w'.nextClient
    requires Linked(w.clients[x].state) ==>
               w.clients[x].h.conn.value in w'.conns && w'.conns[w.clients[x].h.conn.value].client == Some(x)
    ensures ClientOk(env, w', x)
  {
    hide L.Single;
  }

  lemma PortsKept(w: World, w': World)
    requires PortsDistinct(w)
    requires forall k :: k in w'.conns ==>
               k in w.conns && w'.conns[k].dev == w.conns[k].dev && w'.conns[k].sport == w.conns[k].sport
    ensures PortsDistinct(w')
  {
  }

  /** The entries of the tables that mention connection j. */
  lemma ConnFacts(env: Env, w: World, j: nat)
    requires Inv(env, w) && j in w.conns
    ensures ConnOk(env, w, j)
    ensures j < w.nextConn && j !in w.pastConns && w.conns[j].dev in w.devices
    ensures !w.devices[w.conns[j].dev].state.Starting?
    ensures w.conns[j].client.Some? && w.conns[j].client.value in w.clients
    ensures w.clients[w.conns[j].client.value].h.conn == Some(j) && Linked(w.clients[w.conns[j].client.value].state)
  {
    hide PairOk, ClientsOk, PortsDistinct, PastOk, DevicesOk, Accounted;
    assert ConnOk(env, w, j);
  }

  lemma ClientFacts(env: Env, w: World, x: nat)
    requires Inv(env, w) && x in w.clients
    ensures ClientOk(env, w, x)
    ensures x < w.nextClient && x !in w.pastClients
    ensures !Linked(w.clients[x].state) ==> L.Single(env, w.clients[x])
    ensures Linked(w.clients[x].state) ==>
              && w.clients[x].h.conn.Some? && w.clients[x].h.conn.value in w.conns
              && w.conns[w.clients[x].h.conn.value].client == Some(x)
  {
    hide L.Single, ConnsOk, PortsDistinct, PastOk, DevicesOk, Accounted;
    assert ClientOk(env, w, x);
  }

  lemma PastFrame(env: Env, w: World, w': World)
    requires PastOk(env, w)
    requires w'.pastConns == w.pastConns && w'.pastClients == w.pastClients
    requires w'.nextConn >= w.nextConn && w'.nextClient >= w.nextClient
    ensures PastOk(env, w')
  {
    hide C.Released, Departed;
  }

  lemma DevicesFrame(w: World, w': World)
    requires DevicesOk(w) && w'.devices == w.devices && w'.nextDevice >= w.nextDevice
    ensures DevicesOk(w')
  {
    hide D.Consistent;
  }

  lemma AccountFrame(w: World, w': World)
    requires Accounted(w) && w'.nextConn == w.nextConn && w'.nextClient == w.nextClient
    requires w'.conns.Keys == w.conns.Keys && w'.clients.Keys == w.clients.Keys
    requires w'.pastConns == w.pastConns && w'.pastClients == w.pastClients
    ensures Accounted(w')
  {
  }

  lemma PairUpdated(env: Env, w: World, k: nat, c: nat, kn: C.Conn, cl: L.Client)
    requires Inv(env, w) && k in w.conns && w.conns[k].client == Some(c)
    requires SameWires(w.conns[k], kn) && kn.lastAck <= w.clock
    requires cl.h.conn == Some(k) && Linked(cl.state) && PairOk(env, kn, cl)
    ensures Inv(env, SetClient(SetConn(w, k, kn), c, cl))
  {
    hide PairOk, ConnOk, ClientOk, PortsDistinct, PastOk, DevicesOk, Accounted;
    var w' := SetClient(SetConn(w, k, kn), c, cl);
    ConnFacts(env, w, k);
    PairIsOk(env, w', k, c);
    forall j | j in w'.conns
      ensures ConnOk(env, w', j)
    {
      if j != k {
        ConnFacts(env, w, j);
        ConnFrame(env, w, w', j);
      }
    }
    ClientFacts(env, w, c);
    forall x | x in w'.clients
      ensures ClientOk(env, w', x)
    {
      if x != c {
        ClientFacts(env, w, x);
        ClientFrame(env, w, w', x);
      } else {
        LinkedIsOk(env, w', c, k);
      }
    }
    PortsKept(w, w');
    PastFrame(env, w, w');
    DevicesFrame(w, w');
    AccountFrame(w, w');
  }

  /** A new pair satisfies what is asked of its two entries. */
  lemma PairIsOk(env: Env, w: World, k: nat, c: nat)
    requires k in w.conns && c in w.clients && w.conns[k].client == Some(c) && k < w.nextConn && k !in w.pastConns
    requires w.conns[k].dev in w.devices && !w.devices[w.conns[k].dev].state.Starting? && w.conns[k].lastAck <= w.clock
    requires w.clients[c].h.conn == Some(k) && Linked(w.clients[c].state) && PairOk(env, w.conns[k], w.clients[c])
    ensures ConnOk(env, w, k)
  {
    hide PairOk;
  }

  lemma LinkedIsOk(env: Env, w: World, c: nat, k: nat)
    requires c in w.clients && c < w.nextClient && c !in w.pastClients && Linked(w.clients[c].state)
    requires w.clients[c].h.conn == Some(k) && k in w.conns && w.conns[k].client == Some(c)
    ensures ClientOk(env, w, c)
  {
  }

  lemma SingleIsOk(env: Env, w: World, c: nat)
    requires c in w.clients && c < w.nextClient && c !in w.pastClients
    requires !Linked(w.clients[c].state) && L.Single(env, w.clients[c])
    ensures ClientOk(env, w, c)
  {
    hide L.Single;
  }

  lemma SingleUpdated(env: Env, w: World, c: nat, cl: L.Client)
    requires Inv(env, w) && c in w.clients && !Linked(w.clients[c].state)
    requires !Linked(cl.state) && L.Single(env, cl)
    ensures Inv(env, SetClient(w, c, cl))
  {
    hide PairOk, L.Single, ConnOk, ClientOk, PortsDistinct, PastOk, DevicesOk, Accounted;
    var w' := SetClient(w, c, cl);
    ClientFacts(env, w, c);
    SingleIsOk(env, w', c);
    forall j | j in w'.conns
      ensures ConnOk(env, w', j)
    {
      ConnFacts(env, w, j);
      ConnFrame(env, w, w', j);
    }
    forall x | x in w'.clients
      ensures ClientOk(env, w', x)
    {
      if x != c {
        ClientFacts(env, w, x);
        ClientFrame(env, w, w', x);
      }
    }
    PortsKept(w, w');
    PastFrame(env, w, w');
    DevicesFrame(w, w');
    AccountFrame(w, w');
  }

  /** Changes of the device table, of the clock and of the fault count that no connection notices. */
  lemma DevicesChanged(env: Env, w: World, w': World)
    requires Inv(env, w) && DevicesOk(w') && w.clock <= w'.clock
    requires w' == w.(devices := w'.devices, nextDevice := w'.nextDevice, clock := w'.clock, faults := w'.faults)
    requires forall j :: j in w.conns && w.conns[j].dev in w.devices ==>
               && w.conns[j].dev in w'.devices
               && (w'.devices[w.conns[j].dev].state.Starting? ==> w.devices[w.conns[j].dev].state.Starting?)
    ensures Inv(env, w')
  {
    hide PairOk, L.Single, ConnOk, ClientOk, PortsDistinct, PastOk, DevicesOk, Accounted;
    forall j | j in w'.conns
      ensures ConnOk(env, w', j)
    {
      ConnFacts(env, w, j);
      ConnFrame(env, w, w', j);
    }
    forall x | x in w'.clients
      ensures ClientOk(env, w', x)
    {
      ClientFacts(env, w, x);
      ClientFrame(env, w, w', x);
    }
    PortsKept(w, w');
    PastFrame(env, w, w');
    AccountFrame(w, w');
  }

  lemma DeviceUpdated(env: Env, w: World, d: nat, dev: D.Device)
    requires Inv(env, w) && d in w.devices && D.Consistent(dev)
    requires dev.state.Starting? ==> w.devices[d].state.Starting?
    ensures Inv(env, SetDevice(w, d, dev))
  {
    hide ConnsOk, ClientsOk, PortsDistinct, PastOk, D.Consistent, Accounted;
    DevicesChanged(env, w, SetDevice(w, d, dev));
  }

  lemma DeviceDropped(env: Env, w: World, d: nat)
    requires Inv(env, w) && forall k :: k in w.conns ==> w.conns[k].dev != d
    ensures Inv(env, w.(devices := w.devices - {d}))
  {
    hide ConnsOk, ClientsOk, PortsDistinct, PastOk, D.Consistent, Accounted;
    DevicesChanged(env, w, w.(devices := w.devices - {d}));
  }

  lemma DeviceAdded(env: Env, w: World, dev: D.Device)
    requires Inv(env, w) && D.Consistent(dev)
    ensures Inv(env, SetDevice(w, w.nextDevice, dev).(nextDevice := w.nextDevice + 1))
  {
    hide ConnsOk, ClientsOk, PortsDistinct, PastOk, D.Consistent, Accounted;
    assert w.nextDevice !in w.devices;
    DevicesChanged(env, w, SetDevice(w, w.nextDevice, dev).(nextDevice := w.nextDevice + 1));
  }

  lemma ClockAdvanced(env: Env, w: World, now: nat)
    requires Inv(env, w) && w.clock <= now
    ensures Inv(env, w.(clock := now))
  {
    hide ConnsOk, ClientsOk, PortsDistinct, PastOk, D.Consistent, Accounted;
    DevicesChanged(env, w, w.(clock := now));
  }

  lemma FaultCounted(env: Env, w: World)
    requires Inv(env, w)
    ensures Inv(env, Fault(w))
    ensures Settled(w) ==> Settled(Fault(w))
  {
    hide ConnsOk, ClientsOk, PortsDistinct, PastOk, D.Consistent, Accounted;
    DevicesChanged(env, w, Fault(w));
    assert VisibleDevices(Fault(w)) == VisibleDevices(w);
  }

  lemma PairAdded(env: Env, w: World, c: nat, kn: C.Conn, cl: L.Client)
    requires Inv(env, w) && c in w.clients && !Linked(w.clients[c].state)
    requires kn.dev in w.devices && !w.devices[kn.dev].state.Starting? && kn.client == Some(c) && kn.lastAck <= w.clock
    requires forall j :: j in w.conns && w.conns[j].dev == kn.dev ==> w.conns[j].sport != kn.sport
    requires cl.h.conn == Some(w.nextConn) && Linked(cl.state) && PairOk(env, kn, cl)
    ensures Inv(env, SetClient(SetConn(w, w.nextConn, kn), c, cl).(nextConn := w.nextConn + 1))
  {
    hide PairOk, L.Single, ConnOk, ClientOk, PastOk, DevicesOk;
    var k := w.nextConn;
    var w' := SetClient(SetConn(w, k, kn), c, cl).(nextConn := k + 1);
    NextConnIsFree(env, w);
    PairIsOk(env, w', k, c);
    ClientFacts(env, w, c);
    LinkedIsOk(env, w', c, k);
    forall j | j in w'.conns
      ensures ConnOk(env, w', j)
    {
      if j != k {
        ConnFacts(env, w, j);
        ConnFrame(env, w, w', j);
      }
    }
    forall x | x in w'.clients
      ensures ClientOk(env, w', x)
    {
      if x != c {
        ClientFacts(env, w, x);
        ClientFrame(env, w, w', x);
      }
    }
    PastFrame(env, w, w');
    DevicesFrame(w, w');
  }

  lemma NextConnIsFree(env: Env, w: World)
    requires Inv(env, w)
    ensures w.nextConn !in w.conns && w.nextConn !in w.pastConns
  {
    hide PairOk, ClientsOk, PortsDistinct, DevicesOk, Accounted, C.Released, Departed;
  }

  lemma NextClientIsFree(env: Env, w: World)
    requires Inv(env, w)
    ensures w.nextClient !in w.clients && w.nextClient !in w.pastClients
  {
    hide PairOk, L.Single, ConnsOk, PortsDistinct, DevicesOk, Accounted, C.Released, Departed;
  }

  /** The tables after a connection and its client have both been freed. */
  function AfterRelease(w: World, k: nat, c: nat, kh: C.ConnHistory, ch: L.ClientHistory): World
  {
    w.(conns := w.conns - {k}, clients := w.clients - {c},
       pastConns := w.pastConns[k := kh], pastClients := w.pastClients[c := ch])
  }

  lemma PairReleased(env: Env, w: World, k: nat, c: nat, kh: C.ConnHistory, ch: L.ClientHistory)
    requires Inv(env, w) && k in w.conns && w.conns[k].client == Some(c)
    requires C.Released(kh) && Departed(env, w.pastConns[k := kh], ch)
    ensures Inv(env, AfterRelease(w, k, c, kh, ch))
  {
    hide PairOk, L.Single, ConnOk, ClientOk, PortsDistinct, PastOk, DevicesOk, C.Released, Departed;
    var w' := AfterRelease(w, k, c, kh, ch);
    ConnFacts(env, w, k);
    ClientFacts(env, w, c);
    forall j | j in w'.conns
      ensures ConnOk(env, w', j)
    {
      if j != k {
        ConnFacts(env, w, j);
        ConnFrame(env, w, w', j);
      }
    }
    forall x | x in w'.clients
      ensures ClientOk(env, w', x)
    {
      if x != c {
        ClientFacts(env, w, x);
        ClientFrame(env, w, w', x);
      }
    }
    PortsKept(w, w');
    PastConnAdded(env, w, k, kh);
    PastClientAdded(env, w.(pastConns := w.pastConns[k := kh]), c, ch);
    PastFrame(env, w.(pastConns := w'.pastConns, pastClients := w'.pastClients), w');
    DevicesFrame(w, w');
  }

  /** A client that is gone keeps its property when another connection is freed. */
  lemma PastConnAdded(env: Env, w: World, k: nat, kh: C.ConnHistory)
    requires PastOk(env, w) && k !in w.pastConns && k < w.nextConn && C.Released(kh)
    ensures PastOk(env, w.(pastConns := w.pastConns[k := kh]))
  {
    hide Stream, C.Released, L.Ordered, Concat;
    var w' := w.(pastConns := w.pastConns[k := kh]);
    forall c | c in w.pastClients
      ensures c < w.nextClient && Departed(env, w'.pastConns, w.pastClients[c])
    {
      assert Departed(env, w.pastConns, w.pastClients[c]);
    }
  }

  lemma PastClientAdded(env: Env, w: World, c: nat, ch: L.ClientHistory)
    requires PastOk(env, w) && c < w.nextClient && Departed(env, w.pastConns, ch)
    ensures PastOk(env, w.(pastClients := w.pastClients[c := ch]))
  {
    hide C.Released, Departed;
  }

  /** The tables after a connection has been refused and its client told so. */
  function AfterRefusal(w: World, k: nat, c: nat, kh: C.ConnHistory, cl: L.Client): World
  {
    w.(conns := w.conns - {k}, clients := w.clients[c := cl], pastConns := w.pastConns[k := kh])
  }

  lemma PairRefused(env: Env, w: World, k: nat, c: nat, kh: C.ConnHistory, cl: L.Client)
    requires Inv(env, w) && k in w.conns && w.conns[k].client == Some(c)
    requires C.Released(kh) && !Linked(cl.state) && L.Single(env, cl)
    ensures Inv(env, AfterRefusal(w, k, c, kh, cl))
  {
    hide PairOk, L.Single, ConnOk, ClientOk, PortsDistinct, PastOk, DevicesOk, C.Released;
    var w' := AfterRefusal(w, k, c, kh, cl);
    ConnFacts(env, w, k);
    ClientFacts(env, w, c);
    SingleIsOk(env, w', c);
    forall j | j in w'.conns
      ensures ConnOk(env, w', j)
    {
      if j != k {
        ConnFacts(env, w, j);
        ConnFrame(env, w, w', j);
      }
    }
    forall x | x in w'.clients
      ensures ClientOk(env, w', x)
    {
      if x != c {
        ClientFacts(env, w, x);
        ClientFrame(env, w, w', x);
      }
    }
    PortsKept(w, w');
    PastConnAdded(env, w, k, kh);
    PastFrame(env, w.(pastConns := w'.pastConns), w');
    DevicesFrame(w, w');
  }

  lemma SingleReleased(env: Env, w: World, c: nat, ch: L.ClientHistory)
    requires Inv(env, w) && c in w.clients && !Linked(w.clients[c].state)
    requires Departed(env, w.pastConns, ch)
    ensures Inv(env, w.(clients := w.clients - {c}, pastClients := w.pastClients[c := ch]))
  {
    hide PairOk, L.Single, ConnOk, ClientOk, PortsDistinct, PastOk, DevicesOk, Departed;
    var w' := w.(clients := w.clients - {c}, pastClients := w.pastClients[c := ch]);
    ClientFacts(env, w, c);
    forall j | j in w'.conns
      ensures ConnOk(env, w', j)
    {
      ConnFacts(env, w, j);
      ConnFrame(env, w, w', j);
    }
    forall x | x in w'.clients
      ensures ClientOk(env, w', x)
    {
      ClientFacts(env, w, x);
      ClientFrame(env, w, w', x);
    }
    PortsKept(w, w');
    PastClientAdded(env, w, c, ch);
    PastFrame(env, w.(pastClients := w'.pastClients), w');
    DevicesFrame(w, w');
  }

  lemma NewClientIsSingle(env: Env)
    ensures L.Single(env, L.NEW_CLIENT)
  {
    assert Stream(env.xml, []) == [];
  }

  lemma ClientAdded(env: Env, w: World)
    requires Inv(env, w)
    ensures Inv(env, SetClient(w, w.nextClient, L.NEW_CLIENT).(nextClient := w.nextClient + 1))
  {
    hide PairOk, L.Single, ConnOk, ClientOk, PortsDistinct, PastOk, DevicesOk;
    var c := w.nextClient;
    var w' := SetClient(w, c, L.NEW_CLIENT).(nextClient := c + 1);
    NextClientIsFree(env, w);
    NewClientIsSingle(env);
    SingleIsOk(env, w', c);
    forall j | j in w'.conns
      ensures ConnOk(env, w', j)
    {
      ConnFacts(env, w, j);
      ConnFrame(env, w, w', j);
    }
    forall x | x in w'.clients
      ensures ClientOk(env, w', x)
    {
      if x != c {
        ClientFacts(env, w, x);
        ClientFrame(env, w, w', x);
      }
    }
    PortsKept(w, w');
    PastFrame(env, w, w');
    DevicesFrame(w, w');
  }
}
