/** What holds after every run of the daemon. */
module Theorems {
  import opened Basics
  import opened MuxPacket
  import opened ClientMessage
  import opened CommandFraming
  import opened Environment
  import opened Daemon
  import opened Invariant
  import opened Release
  import opened Serving
  import opened DeviceSteps
  import opened ClientSteps
  import opened Reachable
  import opened Projection
  import C = Connection
  import L = Client
  import D = Device

  // ---- The two state machines agree ----

  /** The phases in which a connection and its client may be together. */
  predicate Matched(kn: C.Conn, cl: L.Client)
  {
    && cl.connectDev == kn.dev
    && ((kn.state.Connecting? && cl.state.Connecting1?)
        || (kn.state.Connected? && (cl.state.Connecting2? || cl.state.Joined?)))
  }

  /** Live connections and the clients in the three connection states are in one-to-one correspondence. */
  ghost predicate OneToOne(w: World)
  {
    && (forall k :: k in w.conns ==>
          && w.conns[k].client.Some? && w.conns[k].client.value in w.clients
          && Matched(w.conns[k], w.clients[w.conns[k].client.value])
          && w.conns[k].dev in w.devices && w.devices[w.conns[k].dev].state.Active?)
    && (forall j, k :: j in w.conns && k in w.conns && j != k ==> w.conns[j].client != w.conns[k].client)
    && (forall c :: c in w.clients && Linked(w.clients[c].state) ==>
          exists k :: k in w.conns && w.conns[k].client == Some(c))
  }

  lemma StatesCorrespond(env: Env, ts: seq<Timed>)
    requires PossibleRun(env, ts)
    ensures OneToOne(Run(env, ts))
  {
    hide Run, PossibleRun, Inv, PairOk, ConnOk, ClientOk;
    RunKeeps(env, ts);
    var w := Run(env, ts);
    forall k | k in w.conns
      ensures w.conns[k].client.Some? && w.conns[k].client.value in w.clients
      ensures Matched(w.conns[k], w.clients[w.conns[k].client.value])
      ensures w.conns[k].dev in w.devices && w.devices[w.conns[k].dev].state.Active?
      ensures w.clients[w.conns[k].client.value].h.conn == Some(k)
    {
      ConnFacts(env, w, k);
      PairMayLeave(env, w, k, w.conns[k].client.value);
      PairMatches(env, w.conns[k], w.clients[w.conns[k].client.value]);
    }
    forall c | c in w.clients && Linked(w.clients[c].state)
      ensures exists k :: k in w.conns && w.conns[k].client == Some(c)
    {
      ClientFacts(env, w, c);
      assert w.clients[c].h.conn.value in w.conns;
    }
  }

  lemma PairMatches(env: Env, kn: C.Conn, cl: L.Client)
    requires PairOk(env, kn, cl)
    ensures Matched(kn, cl)
  {
    hide C.Waiting, C.Established, L.Pending, L.Joining, L.InStream;
  }

  /** The state checks of client_notify_connect pass for exactly the connections whose handshake is still to end. */
  lemma NotifyNeverFails(env: Env, ts: seq<Timed>, k: nat, code: u32)
    requires PossibleRun(env, ts) && k in Run(env, ts).conns
    ensures
      var w := Run(env, ts);
      && w.conns[k].client.Some? && w.conns[k].client.value in w.clients
      && (L.Notify(env, w.clients[w.conns[k].client.value], code).Some? <==> w.conns[k].state.Connecting?)
  {
    hide Run, PossibleRun, L.Enqueue;
    StatesCorrespond(env, ts);
  }

  // ---- The bytes a client receives ----

  /** Before the stream phase a client is sent messages only; in it, all its messages, ending with Result OK for
      its Connect, and then what the device sent, in order; tx_ack and rx_recvd count those bytes. */
  ghost predicate ClientSeesStream(env: Env, w: World, c: nat)
    requires c in w.clients
  {
    var cl := w.clients[c];
    if !cl.state.Joined? then cl.h.sent + cl.ob == Stream(env.xml, cl.h.msgs)
    else
      && cl.h.conn.Some? && cl.h.conn.value in w.conns && L.ToldOk(cl)
      && var kn := w.conns[cl.h.conn.value];
         && kn.client == Some(c)
         && cl.h.sent == Stream(env.xml, cl.h.msgs) + kn.h.delivered
         && kn.h.delivered + kn.ib == kn.h.accepted
         && kn.txAck == (1 + |kn.h.delivered|) % WORD32
         && kn.rxRecvd == (kn.h.isn + |kn.h.delivered| + |kn.ib|) % WORD32
  }

  /** A closed client that had joined was sent all its messages and then exactly what its connection delivered, a
      prefix of what the device sent and all of it unless the last flush had to give up; any other was sent a prefix
      of its messages. */
  ghost predicate PastClientSaw(env: Env, w: World, h: L.ClientHistory)
  {
    if h.joined then
      && h.conn.Some? && h.conn.value in w.pastConns && L.Granted(env, h)
      && h.sent == Stream(env.xml, h.msgs) + w.pastConns[h.conn.value].delivered
      && w.pastConns[h.conn.value].delivered <= w.pastConns[h.conn.value].accepted
      && Emptied(env, h.conn.value, w.pastConns[h.conn.value])
    else h.sent <= Stream(env.xml, h.msgs)
  }

  lemma ClientsGetTheirStream(env: Env, ts: seq<Timed>)
    requires PossibleRun(env, ts)
    ensures
      var w := Run(env, ts);
      && (forall c :: c in w.clients ==> ClientSeesStream(env, w, c))
      && (forall c :: c in w.pastClients ==> PastClientSaw(env, w, w.pastClients[c]))
  {
    hide Run, PossibleRun, ConnsOk, ClientsOk, PortsDistinct, DevicesOk, Accounted, Stream;
    RunKeeps(env, ts);
    var w := Run(env, ts);
    forall c | c in w.clients
      ensures ClientSeesStream(env, w, c)
    {
      hide PastOk, L.Answered, L.Awaits, L.AllWhole, Concat, AnnouncedOnce, Seen, C.DataOf, C.Tiled, C.Resets, C.LastOk;
      hide C.Update, C.AcksUpTo;
      LinkOf(env, w, c);
    }
  }

  // ---- The bytes a device receives ----

  /** The data segments sent so far tile the sequence space from 1, each within the window and the packet size,
      and carry exactly what was read from the client in the stream phase. That in turn is what the client wrote
      after its commands, the last of which is its Connect, and after what was still in the command buffer when the
      connection came up; so it follows the Connect at once if the client had sent nothing more by then. */
  ghost predicate DeviceSeesStream(env: Env, w: World, k: nat)
    requires k in w.conns
  {
    var kn := w.conns[k];
    && (forall i :: 0 <= i < |kn.h.tx| ==> C.Placed(kn.h.tx[i], |C.DataOf(kn.h.tx[..i])|))
    && C.DataOf(kn.h.tx) == kn.h.taken
    && kn.client.Some? && kn.client.value in w.clients
    && var cl := w.clients[kn.client.value];
       (cl.state.Joined? ==>
         && L.EndsInConnect(env, cl.h.cmds, cl.connectTag)
         && cl.h.received == Concat(cl.h.cmds) + cl.h.lost + kn.h.taken
         && (cl.h.lost == [] ==> cl.h.received == Concat(cl.h.cmds) + kn.h.taken))
  }

  /** What a closed client sent: its commands, what was lost, and what was taken for the device. */
  predicate PastClientGave(env: Env, w: World, h: L.ClientHistory)
  {
    if h.joined then
      && h.conn.Some? && h.conn.value in w.pastConns && L.Granted(env, h)
      && h.received == Concat(h.cmds) + h.lost + w.pastConns[h.conn.value].taken
    else Concat(h.cmds) + h.lost <= h.received
  }

  lemma DevicesGetTheirStream(env: Env, ts: seq<Timed>)
    requires PossibleRun(env, ts)
    ensures
      var w := Run(env, ts);
      && (forall k :: k in w.conns ==> DeviceSeesStream(env, w, k))
      && (forall k :: k in w.pastConns ==>
            C.Tiled(w.pastConns[k].tx) && C.DataOf(w.pastConns[k].tx) <= w.pastConns[k].taken)
      && (forall c :: c in w.pastClients ==> PastClientGave(env, w, w.pastClients[c]))
  {
    hide Run, PossibleRun, ConnsOk, ClientsOk, PortsDistinct, DevicesOk, Accounted, Concat, Stream, C.DataOf, C.Tiled;
    hide C.Resets, L.Ordered;
    RunKeeps(env, ts);
    var w := Run(env, ts);
    forall k | k in w.conns
      ensures DeviceSeesStream(env, w, k)
    {
      hide PastOk, L.Answered, L.AllWhole, L.Pending, C.AcksUpTo, C.Update;
      ConnFacts(env, w, k);
      PairMayLeave(env, w, k, w.conns[k].client.value);
      forall i | 0 <= i < |w.conns[k].h.tx|
        ensures C.Placed(w.conns[k].h.tx[i], |C.DataOf(w.conns[k].h.tx[..i])|)
      {
        C.TiledAt(w.conns[k].h.tx, i);
      }
    }
  }

  // ---- Release ----

  /** Every connection and client ever created is live, or has been freed exactly once; at most one RST was
      attempted for a connection, and none for one that the device reset. */
  ghost predicate FreedOnce(w: World)
  {
    && (forall k: nat :: k < w.nextConn ==> (k in w.conns <==> k !in w.pastConns))
    && (forall c: nat :: c < w.nextClient ==> (c in w.clients <==> c !in w.pastClients))
    && (forall k :: k in w.conns ==> w.conns[k].h.frees == 0 && C.Resets(w.conns[k].h.tx) == 0)
    && (forall c :: c in w.clients ==> w.clients[c].h.frees == 0)
    && (forall c :: c in w.pastClients ==> w.pastClients[c].frees == 1)
    && (forall k :: k in w.pastConns ==>
          && w.pastConns[k].frees == 1 && C.Resets(w.pastConns[k].tx) <= 1
          && (w.pastConns[k].gotRst ==> C.Resets(w.pastConns[k].tx) == 0)
          && w.pastConns[k].delivered <= w.pastConns[k].accepted)
  }

  lemma EverythingIsFreedOnce(env: Env, ts: seq<Timed>)
    requires PossibleRun(env, ts)
    ensures FreedOnce(Run(env, ts))
  {
    hide Run, PossibleRun, ConnsOk, ClientsOk, PortsDistinct, DevicesOk, Stream, C.DataOf, C.Tiled, C.Resets, C.LastOk;
    RunKeeps(env, ts);
    var w := Run(env, ts);
    forall k | k in w.conns
      ensures k !in w.pastConns && w.conns[k].h.frees == 0 && C.Resets(w.conns[k].h.tx) == 0
    {
      hide PastOk, Accounted, PairOk, ConnOk, Leaving;
      ConnFacts(env, w, k);
      PairMayLeave(env, w, k, w.conns[k].client.value);
    }
    forall c | c in w.clients
      ensures c !in w.pastClients && w.clients[c].h.frees == 0
    {
      hide PastOk, Accounted, ClientOk, L.Answered, L.Awaits, L.AllWhole, Concat, AnnouncedOnce, Seen, C.Established;
      hide C.Waiting;
      ClientFacts(env, w, c);
      LinkOf(env, w, c);
    }
  }

  /** Tearing down a connection of a removed device sends nothing. */
  lemma SilentTeardown(env: Env, w: World, k: nat)
    requires Inv(env, w) && k in w.conns && w.conns[k].dev in w.devices && w.devices[w.conns[k].dev].state.Removed?
    ensures
      var w' := Teardown(env, w, k);
      k in w'.pastConns && w'.pastConns[k].tx == w.conns[k].h.tx
  {
    hide Inv, Teardown, C.Waiting, C.Established, L.Pending, L.Joining, L.InStream, C.Doomed, FlushLength;
    InvWires(env, w, k);
    var c := w.conns[k].client.value;
    PairMayLeave(env, w, k, c);
    ResetConnIs(env, w, k);
    hide ResetConn;
    if w.clients[c].state.Connecting1? {
      TeardownRefuses(env, w, k, c);
    } else {
      TeardownReleases(env, w, k, c);
    }
  }

  lemma {:induction false} SilentTeardownAll(env: Env, w: World, d: nat, n: nat, k: nat)
    requires Inv(env, w) && d in w.devices && w.devices[d].state.Removed? && k in w.conns && w.conns[k].dev == d
    ensures
      var w' := TeardownAll(env, w, d, n);
      && Inv(env, w') && d in w'.devices && w'.devices[d].state.Removed?
      && (k < n ==> k in w'.pastConns && w'.pastConns[k].tx == w.conns[k].h.tx)
      && (k >= n ==> k in w'.conns && w'.conns[k] == w.conns[k])
    decreases n
  {
    hide Inv, Teardown, Local;
    if n > 0 {
      SilentTeardownAll(env, w, d, n - 1, k);
      var w1, j := TeardownAll(env, w, d, n - 1), n - 1;
      if j in w1.conns && w1.conns[j].dev == d {
        TeardownAsIs(env, w1, j);
        var w2, c := Teardown(env, w1, j), w1.conns[j].client.value;
        LocalKeeps(w1, w2, j, c, d);
        LocalPast(w1, w2, j, c, d);
        SilentTeardown(env, w1, j);
      }
    }
  }

  lemma LocalPast(w: World, w': World, k: nat, c: nat, d: nat)
    requires Local(w, w', k, c, d)
    ensures forall j :: j in w.pastConns && j != k ==> j in w'.pastConns && w'.pastConns[j] == w.pastConns[j]
    ensures d in w'.devices && w'.devices[d].state == w.devices[d].state
  {
    forall j | j in w.pastConns && j != k
      ensures j in w'.pastConns && w'.pastConns[j] == w.pastConns[j]
    {
      assert j in w.pastConns - {k};
      assert j in w'.pastConns - {k};
    }
  }

  /** Unplugging a device frees all its connections without a RST. */
  lemma RemovalIsSilent(env: Env, w: World, d: nat, k: nat)
    requires Inv(env, w) && d in w.devices && w.devices[d].state.Active? && k in w.conns && w.conns[k].dev == d
    ensures
      var w' := DeviceRemove(env, w, d);
      k !in w'.conns && k in w'.pastConns && C.Resets(w'.pastConns[k].tx) == 0
  {
    hide Inv, TeardownAll, D.Consistent, Leaving, PairOk, C.DataOf, C.Tiled, C.Resets, C.LastOk;
    ConnFacts(env, w, k);
    PairMayLeave(env, w, k, w.conns[k].client.value);
    var dev := w.devices[d].(state := D.Removed);
    var gone := SetDevice(w, d, dev);
    ConsistentFrame(env, w, d, dev);
    DeviceUpdated(env, w, d, dev);
    SilentTeardownAll(env, gone, d, w.nextConn, k);
    var torn := TeardownAll(env, gone, d, w.nextConn);
    AllConnsPresent(env, torn, k);
  }

  lemma AllConnsPresent(env: Env, w: World, k: nat)
    requires Inv(env, w) && k in w.pastConns
    ensures k !in w.conns
  {
    hide PairOk, ClientsOk, PortsDistinct, PastOk, DevicesOk, Accounted;
    assert k in w.conns ==> ConnOk(env, w, k);
  }

  // ---- Commands and replies ----

  /** Every well-formed command has had exactly one reply, with its tag, in the order of the commands; only a
      Connect that waits for the device is still owed one. */
  ghost predicate RepliesMatch(env: Env, cl: L.Client)
  {
    var due, got := L.Dues(env, cl.h.cmds), Replies(cl.h.msgs);
    && (forall i :: 0 <= i < |got| && i < |due| ==> L.Answers(due[i], got[i]))
    && (if cl.state.Connecting1?
        then |due| == |got| + 1 && due[|got|].order.Connect? && due[|got|].tag == cl.connectTag
        else |due| == |got|)
  }

  lemma RepliesKeepOrder(env: Env, ts: seq<Timed>)
    requires PossibleRun(env, ts)
    ensures
      var w := Run(env, ts);
      && (forall c :: c in w.clients ==> RepliesMatch(env, w.clients[c]))
      && (forall c :: c in w.pastClients ==> L.Ordered(env, w.pastClients[c]))
  {
    hide Run, PossibleRun, ConnsOk, ClientsOk, PortsDistinct, DevicesOk, Accounted, L.Ordered, C.Released;
    RunKeeps(env, ts);
    var w := Run(env, ts);
    forall c | c in w.clients
      ensures RepliesMatch(env, w.clients[c])
    {
      hide PastOk, L.Dues, Replies, L.Answers, Stream, L.AllWhole, Concat, AnnouncedOnce, Seen, C.Established;
      hide C.Waiting, L.EndsInConnect;
      LinkOf(env, w, c);
    }
  }

  /** What handle_command has seen of a client is a prefix of the messages it sent, however they were split. */
  lemma CommandsAreTheMessagesSent(env: Env, ts: seq<Timed>, c: nat, msgs: seq<seq<byte>>)
    requires PossibleRun(env, ts) && c in Run(env, ts).clients
    requires L.AllWhole(msgs) && Run(env, ts).clients[c].h.received <= Concat(msgs)
    ensures Run(env, ts).clients[c].h.cmds <= msgs
  {
    hide Run, PossibleRun, Inv, L.Answered, L.Awaits, Stream, AnnouncedOnce, Seen, C.Established, C.Waiting, Concat;
    hide Whole;
    RunKeeps(env, ts);
    var cl := Run(env, ts).clients[c];
    LinkOf(env, Run(env, ts), c);
    var rest := if cl.state.Connecting2? then cl.h.lost
                else if cl.state.Joined? then cl.h.lost + cl.h.received[|Concat(cl.h.cmds)| + |cl.h.lost|..]
                else cl.ib;
    assert Concat(cl.h.cmds) + rest <= Concat(msgs);
    FramingIsUnique(cl.h.cmds, rest, msgs);
  }

  /** A refused client is told so with the tag of its Connect and may give commands again; nothing of the
      connection is left. `kn` is what the step has made of the connection so far: the device may have reset it, or
      the last segment of the handshake may have failed. */
  lemma RefusalReturnsClient(env: Env, w: World, k: nat, kn: C.Conn)
    requires Inv(env, w) && k in w.conns && w.conns[k].state.Connecting?
    requires SameWires(w.conns[k], kn) && (kn.state.Connecting? || kn.state.Refused?)
    ensures w.conns[k].client.Some? && w.conns[k].client.value in w.clients
    ensures
      ToldRefused(env, w, Teardown(env, SetConn(w, k, kn), k), k, w.conns[k].client.value)
  {
    hide Inv, Teardown, L.Enqueue, ResetConn, ResetDevices, C.Waiting, L.Pending;
    InvWires(env, w, k);
    var c := w.conns[k].client.value;
    PairMayLeave(env, w, k, c);
    TeardownRefuses(env, SetConn(w, k, kn), k, c);
  }

  /** Client c, whose Connect started connection k, has been told that it failed. */
  ghost predicate ToldRefused(env: Env, w: World, w': World, k: nat, c: nat)
    requires c in w.clients
  {
    && k !in w'.conns && c in w'.clients && w'.clients[c].state.Commanding?
    && w'.clients[c] == L.Enqueue(env, w.clients[c], w.clients[c].connectTag,
                                  Result(RESULT_CONNREFUSED)).(state := L.Commanding)
    && forall j :: j in w'.conns ==> w'.conns[j].client != Some(c)
  }

  /** Every segment that does not complete the handshake of a waiting connection refuses it: one with RST, any other
      answer than SYN/ACK, and a SYN/ACK that cannot be acknowledged. */
  lemma SegmentRefuses(env: Env, w: World, k: nat, th: TcpHeader, payload: seq<byte>)
    requires Inv(env, w) && k in w.conns && w.conns[k].state.Connecting?
    ensures w.conns[k].client.Some? && w.conns[k].client.value in w.clients && w.conns[k].dev in w.devices
    ensures
      var d := w.conns[k].dev;
      if th.flags == SYN_ACK && D.SendOk(env, d, w.devices[d], 20, 0)
      then k in Segment(env, w, k, th, payload).conns
      else ToldRefused(env, w, Segment(env, w, k, th, payload), k, w.conns[k].client.value)
  {
    hide Inv, Teardown, ToldRefused, SendTcp, Local, PairOk, D.SendOk, UpdateConnection, L.Notify;
    var kn, d := w.conns[k], w.conns[k].dev;
    ConnFacts(env, w, k);
    var noted := C.NoteHeader(kn, th);
    if th.flags != SYN_ACK {
      RefusalReturnsClient(env, w, k, if HasRst(th.flags) then noted.(state := C.Refused) else noted);
    } else if D.SendOk(env, d, w.devices[d], 20, 0) {
      SegmentKeeps(env, w, k, th, payload);
    } else {
      FailedAckRefuses(env, w, k, noted);
    }
  }

  /** The ACK that would complete the handshake could not be sent. */
  lemma FailedAckRefuses(env: Env, w: World, k: nat, kn: C.Conn)
    requires Inv(env, w) && k in w.conns && w.conns[k].state.Connecting? && w.conns[k].dev in w.devices
    requires SameWires(w.conns[k], kn) && kn.state.Connecting?
    requires !D.SendOk(env, kn.dev, w.devices[kn.dev], 20, 0)
    ensures w.conns[k].client.Some? && w.conns[k].client.value in w.clients
    ensures ToldRefused(env, w, Establish(env, SetConn(w, k, kn), k), k, w.conns[k].client.value)
  {
    hide Inv, Teardown, ToldRefused, D.SendPacket, TcpBytes, D.SendOk, L.Notify, UpdateConnection;
    ConnFacts(env, w, k);
    var c, d := w.conns[k].client.value, kn.dev;
    var shaken := C.Handshake(kn);
    assert w.conns[k := kn][k := shaken] == w.conns[k := shaken];
    var sent := C.SendTcp(shaken, ACK, [], false, w.clock);
    var dev := D.SendPacket(w.devices[d], Tcp, TcpBytes(C.SegmentHeader(shaken, ACK)), []);
    var base := SetDevice(w, d, dev);
    SendKeepsInv(env, w, d, Tcp, TcpBytes(C.SegmentHeader(shaken, ACK)), []);
    assert w.conns[k := shaken][k := sent] == w.conns[k := sent];
    RefusalReturnsClient(env, base, k, sent);
    SameRefusal(env, w, base, Teardown(env, SetConn(base, k, sent), k), k, c);
  }

  lemma SameRefusal(env: Env, w: World, base: World, w': World, k: nat, c: nat)
    requires base.clients == w.clients && c in w.clients && ToldRefused(env, base, w', k, c)
    ensures ToldRefused(env, w, w', k, c)
  {
    hide L.Enqueue;
  }

  // ---- Listeners ----

  /** Every listener has been told of exactly the devices that device_get_list would report now, and of none of
      them twice. */
  lemma ListenersAreUpToDate(env: Env, ts: seq<Timed>, c: nat)
    requires PossibleRun(env, ts) && c in Run(env, ts).clients && Run(env, ts).clients[c].state.Listening?
    ensures
      var w := Run(env, ts);
      Seen(w.clients[c].h.msgs) == VisibleDevices(w) && AnnouncedOnce(w.clients[c].h.msgs)
  {
    hide Run, PossibleRun, Inv, L.Answered, Stream, L.AllWhole, Concat, AnnouncedOnce, Seen, VisibleDevices;
    RunKeeps(env, ts);
    LinkOf(env, Run(env, ts), c);
  }

  /** client_device_add keeps a listener's view exact if and only if the device is listed and active when it is
      announced, and announces nothing twice if and only if the device was not visible yet. */
  lemma AnnounceExact(env: Env, w: World, d: nat, info: seq<byte>, c: nat)
    requires Inv(env, w) && Settled(w) && c in w.clients && w.clients[c].state.Listening?
    ensures
      var w' := Announce(env, w, d, info);
      && c in w'.clients
      && (Seen(w'.clients[c].h.msgs) == VisibleDevices(w') <==> d in w.devices && w.devices[d].state.Active?)
      && (AnnouncedOnce(w'.clients[c].h.msgs) <==> !IsVisible(w, d))
  {
    hide Inv, Announce, L.Single, AnnouncedOnce, Seen, VisibleDevices, IsVisible;
    LinkOf(env, w, c);
    ListenerIsExact(env, w, c);
    AnnounceTells(env, w, d, info, c);
    MsgsSnoc(w.clients[c].h.msgs, Msg(w.clients[c].proto, 0, Attached(d, info)));
    AnnounceShows(env, w, d, info);
  }

  lemma ListenerIsExact(env: Env, w: World, c: nat)
    requires Settled(w) && c in w.clients && w.clients[c].state.Listening? && L.Single(env, w.clients[c])
    ensures Seen(w.clients[c].h.msgs) == VisibleDevices(w) && AnnouncedOnce(w.clients[c].h.msgs)
  {
    hide AnnouncedOnce, Seen, VisibleDevices, Stream, L.Answered, L.AllWhole, Concat;
  }

  lemma AnnounceTells(env: Env, w: World, d: nat, info: seq<byte>, c: nat)
    requires c in w.clients && w.clients[c].state.Listening?
    ensures
      var w' := Announce(env, w, d, info);
      c in w'.clients && w'.clients[c].h.msgs == w.clients[c].h.msgs + [Msg(w.clients[c].proto, 0, Attached(d, info))]
  {
    hide Encode, Wire;
  }

  /** The listeners are told of a removal with one message each, once the device's connections are gone, and only if the
      device had come up. */
  lemma DetachTells(env: Env, w: World, d: nat, c: nat)
    requires Inv(env, w) && c in w.clients && w.clients[c].state.Listening?
    ensures
      var w' := DeviceRemove(env, w, d);
      && c in w'.clients && w'.clients[c].state.Listening? && d !in w'.devices
      && w'.clients[c].h.msgs == w.clients[c].h.msgs +
           (if d in w.devices && w.devices[d].state.Active? then [Msg(w.clients[c].proto, 0, Detached(d))] else [])
  {
    hide Inv, TeardownAll, D.Consistent, Encode, Wire;
    if d in w.devices && w.devices[d].state.Active? {
      var dev := w.devices[d].(state := D.Removed);
      ConsistentFrame(env, w, d, dev);
      DeviceUpdated(env, w, d, dev);
      ListenersStay(env, SetDevice(w, d, dev), d, w.nextConn, c);
    }
  }

  lemma {:induction false} ListenersStay(env: Env, w: World, d: nat, n: nat, c: nat)
    requires Inv(env, w) && c in w.clients && w.clients[c].state.Listening?
    ensures
      var w' := TeardownAll(env, w, d, n);
      Inv(env, w') && c in w'.clients && w'.clients[c] == w.clients[c]
    decreases n
  {
    hide Inv, Teardown, Local;
    if n > 0 {
      ListenersStay(env, w, d, n - 1, c);
      var w1, k := TeardownAll(env, w, d, n - 1), n - 1;
      if k in w1.conns && w1.conns[k].dev == d {
        ConnFacts(env, w1, k);
        TeardownAsIs(env, w1, k);
        LocalClient(w1, Teardown(env, w1, k), k, w1.conns[k].client.value, d, c);
      }
    }
  }

  lemma LocalClient(w: World, w': World, k: nat, x: nat, d: nat, c: nat)
    requires Local(w, w', k, x, d) && c in w.clients && c != x
    ensures c in w'.clients && w'.clients[c] == w.clients[c]
  {
    assert c in w.clients - {x};
  }

  /** Announcing a device makes it visible if and only if it is listed and active, and changes no device otherwise. */
  lemma AnnounceShows(env: Env, w: World, d: nat, info: seq<byte>)
    ensures
      var w' := Announce(env, w, d, info);
      && w'.conns == w.conns && w'.devices.Keys == w.devices.Keys
      && (forall x :: x in w.devices ==> w'.devices[x] == w.devices[x].(visible := w.devices[x].visible || x == d))
    ensures
      var w' := Announce(env, w, d, info);
      && (d in VisibleDevices(w) <==> IsVisible(w, d))
      && (d in VisibleDevices(w') <==> d in w.devices && w.devices[d].state.Active?)
      && (d in VisibleDevices(w') ==> VisibleDevices(w') == VisibleDevices(w) + {d})
  {
    hide L.Enqueue;
  }

  // ---- ListDevices ----

  /** A list of exactly the visible devices, once each, in the order they were attached. */
  ghost predicate Lists(w: World, l: seq<Listed>, below: nat)
  {
    && (forall i :: 0 <= i < |l| ==>
          l[i].id < below && IsVisible(w, l[i].id) && l[i].info == w.devices[l[i].id].info)
    && (forall i, j :: 0 <= i < j < |l| ==> l[i].id < l[j].id)
    && (forall d :: d in VisibleDevices(w) && d < below ==> exists i :: 0 <= i < |l| && l[i].id == d)
  }

  lemma {:induction false} ListIsExact(w: World, n: nat)
    ensures Lists(w, ListDevices(w, n), n)
    decreases n
  {
    if n > 0 {
      ListIsExact(w, n - 1);
      var l, l' := ListDevices(w, n - 1), ListDevices(w, n);
      forall d | d in VisibleDevices(w) && d < n
        ensures exists i :: 0 <= i < |l'| && l'[i].id == d
      {
        if d < n - 1 {
          var i :| 0 <= i < |l| && l[i].id == d;
          assert l'[i].id == d;
        } else {
          assert l'[|l|].id == d;
        }
      }
    }
  }

  // ---- Ports ----

  /** Live connections of a device have different, non-zero source ports, so the connection a segment is for does
      not depend on the order of the search. */
  lemma PortsIdentifyConnections(env: Env, ts: seq<Timed>, k: nat)
    requires PossibleRun(env, ts) && k in Run(env, ts).conns
    ensures
      var w := Run(env, ts);
      && w.conns[k].sport != 0
      && (forall j :: j in w.conns && j != k && w.conns[j].dev == w.conns[k].dev ==>
            w.conns[j].sport != w.conns[k].sport)
      && FindPorts(w, w.conns[k].dev, w.conns[k].sport, w.conns[k].dport, w.nextConn) == Some(k)
  {
    hide Run, PossibleRun, ConnsOk, ClientsOk, PastOk, DevicesOk, Accounted, PairOk, ConnOk, C.Doomed, Leaving;
    RunKeeps(env, ts);
    var w := Run(env, ts);
    ConnFacts(env, w, k);
    PairMayLeave(env, w, k, w.conns[k].client.value);
    PairBasics(env, w.conns[k], w.clients[w.conns[k].client.value]);
    FindPortsIs(w, k, w.nextConn);
  }

  lemma {:induction false} FindPortsIs(w: World, k: nat, n: nat)
    requires PortsDistinct(w) && k in w.conns && k < n
    ensures FindPorts(w, w.conns[k].dev, w.conns[k].sport, w.conns[k].dport, n) == Some(k)
    decreases n
  {
    if k < n - 1 {
      FindPortsIs(w, k, n - 1);
    }
  }

  // ---- Packet numbers ----

  /** Version-2 packets built since SETUP carry consecutive numbers from 0, modulo 2^16, and neither counter is
      read before it has been set. */
  lemma PacketsAreNumbered(env: Env, ts: seq<Timed>, d: nat)
    requires PossibleRun(env, ts) && d in Run(env, ts).devices && Run(env, ts).devices[d].version >= 2
    ensures
      var dev := Run(env, ts).devices[d];
      && dev.h.base < |dev.h.wire|
      && dev.txSeq.Some? && dev.rxSeq.Some? && dev.txSeq.value == (|dev.h.wire| - dev.h.base) % WORD16
      && forall i :: dev.h.base <= i < |dev.h.wire| ==>
           |dev.h.wire[i]| >= 16 && NumberField(dev.h.wire[i]) == (i - dev.h.base) % WORD16
  {
    hide Run, PossibleRun, ConnsOk, ClientsOk, PastOk, PortsDistinct, Accounted, NumberField;
    RunKeeps(env, ts);
  }

  /** The segments of a connection's history are what the device reads off the wire. */
  lemma WireCarriesSegments(env: Env, w: World, k: nat, flags: byte, data: seq<byte>)
    requires k in w.conns && w.conns[k].dev in w.devices && |data| <= C.MAX_PAYLOAD
    ensures
      var w' := SendTcp(env, w, k, flags, data);
      var version := w.devices[w.conns[k].dev].version;
      && k in w'.conns && w.conns[k].dev in w'.devices
      && var tx, wire := w'.conns[k].h.tx, w'.devices[w.conns[k].dev].h.wire;
         && |tx| > 0 && |wire| > 0 && tx[|tx| - 1].data == data && tx[|tx| - 1].th.flags == flags
         && wire == w.devices[w.conns[k].dev].h.wire + [wire[|wire| - 1]]
         && Parse(version, wire[|wire| - 1]) == TcpIn(tx[|tx| - 1].th, data)
  {
    hide TcpBytes, Build, Parse;
    var dev := w.devices[w.conns[k].dev];
    var v2 := dev.version >= 2;
    TcpRoundTrip(dev.version, C.SegmentHeader(w.conns[k], flags), data,
                 if v2 then D.Word(dev.txSeq) else 0, if v2 then D.Word(dev.rxSeq) else 0);
  }

  // ---- Poll masks ----

  /** No wake-up is lost: a joined client is polled for input exactly when the device has room, and for output
      exactly when there is something for it; a client that is about to join is polled until its reply is out and
      has that mask waiting; any other client is polled for input, and for output exactly when its queue is not
      empty. */
  ghost predicate Woken(w: World, c: nat)
    requires c in w.clients
  {
    var cl := w.clients[c];
    if cl.state.Joined? || cl.state.Connecting2? then
      && cl.h.conn.Some? && cl.h.conn.value in w.conns
      && var kn := w.conns[cl.h.conn.value];
         && kn.client == Some(c)
         && cl.devents == Mask(C.InFlight(kn) < kn.rxWin, kn.ib != [])
         && kn.ackPending == (kn.txAcked != kn.txAck)
         && cl.events == (if cl.state.Joined? then cl.devents else Mask(false, true))
         && (cl.state.Connecting2? ==> cl.ob != [])
    else cl.events == Mask(true, cl.ob != [])
  }

  lemma NoLostWakeUps(env: Env, ts: seq<Timed>)
    requires PossibleRun(env, ts)
    ensures var w := Run(env, ts); forall c :: c in w.clients ==> Woken(w, c)
  {
    hide Run, PossibleRun, Inv;
    RunKeeps(env, ts);
    var w := Run(env, ts);
    forall c | c in w.clients
      ensures Woken(w, c)
    {
      hide Stream, L.Answered, L.Awaits, L.AllWhole, Concat, AnnouncedOnce, Seen, C.Streams, C.Waiting, C.InFlight;
      LinkOf(env, w, c);
    }
  }
}
