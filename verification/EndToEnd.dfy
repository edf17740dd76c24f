/** The promises of a connection between its two ends, over every run: what arrives goes to the client, what the client
    writes goes to the device, the window is used up to its edge, and acknowledgements are sent when they are due. */
module EndToEnd {
  import opened Basics
  import opened MuxPacket
  import opened ClientMessage
  import opened CommandFraming
  import opened Environment
  import opened Daemon
  import opened Invariant
  import opened Release
  import opened Serving
  import opened Reachable
  import opened Projection
  import opened Timers
  import opened Ledger
  import opened Journal
  import opened Theorems
  import Commands
  import Traces
  import C = Connection
  import L = Client
  import D = Device

  // ---- From the device to the client ----

  /** A client in the stream phase has been sent its messages and then the first bytes that arrived for its connection,
      as many as its socket took. */
  ghost predicate GotStream(env: Env, ts: seq<Timed>, c: nat)
  {
    var w := Run(env, ts);
    c in w.clients && w.clients[c].state.Joined? ==>
      var h := w.clients[c].h;
      && h.conn.Some?
      && var bytes, n := Arrived(env, ts, h.conn.value), Took(env, ts, h.conn.value);
         n <= |bytes| && h.sent == Stream(env.xml, h.msgs) + bytes[..n]
  }

  /** When it is gone, it has been sent all that arrived, unless a write of the last flush failed, or took nothing more
      than a second after the last progress. */
  ghost predicate GotAll(env: Env, ts: seq<Timed>, c: nat)
  {
    var w := Run(env, ts);
    c in w.pastClients && w.pastClients[c].joined ==>
      var h := w.pastClients[c];
      && h.conn.Some?
      && var bytes, n, s := Arrived(env, ts, h.conn.value), Took(env, ts, h.conn.value), env.flush(h.conn.value);
         && n <= |bytes|
         && (!GivesUp(s, |bytes| - n) ==> h.sent == Stream(env.xml, h.msgs) + bytes)
         && (forall i: nat :: StopsAt(s, |bytes| - n, i) ==>
               h.sent == Stream(env.xml, h.msgs) + bytes[..n + Total(s, i)])
  }

  lemma WhatArrivesIsDelivered(env: Env, ts: seq<Timed>, c: nat)
    requires PossibleRun(env, ts)
    ensures GotStream(env, ts, c) && GotAll(env, ts, c)
  {
    hide Run, PossibleRun, Inv, Stream, ConnTold, ClientTold, Arrived, Took, ClientSeesStream, GivesUp, StopsAt, Total;
    hide PastClientSaw, Emptied, Drained;
    RunKeeps(env, ts);
    ClientsGetTheirStream(env, ts);
    var w := Run(env, ts);
    if c in w.clients && w.clients[c].state.Joined? {
      assert ClientSeesStream(env, w, c);
      JoinedGot(env, ts, c);
    }
    if c in w.pastClients && w.pastClients[c].joined {
      assert PastClientSaw(env, w, w.pastClients[c]);
      PastGot(env, ts, c);
    }
  }

  lemma JoinedGot(env: Env, ts: seq<Timed>, c: nat)
    requires PossibleRun(env, ts) && c in Run(env, ts).clients && Run(env, ts).clients[c].state.Joined?
    requires ClientSeesStream(env, Run(env, ts), c)
    ensures GotStream(env, ts, c)
  {
    hide Run, PossibleRun, Inv, Stream, Arrived, Took, Headers, Answers, Gave, Resetting;
    var w := Run(env, ts);
    var k := w.clients[c].h.conn.value;
    HistoriesAreTrue(env, ts, k, c);
    RunKeeps(env, ts);
    NoFlushYet(env, w, k);
    assert w.conns[k].h.accepted[..|w.conns[k].h.delivered|] == w.conns[k].h.delivered;
  }

  /** A live connection has not been flushed. */
  lemma NoFlushYet(env: Env, w: World, k: nat)
    requires Inv(env, w) && k in w.conns
    ensures w.conns[k].h.flushed == 0
  {
    hide Inv, Leaving, PairOk;
    ConnFacts(env, w, k);
    PairMayLeave(env, w, k, w.conns[k].client.value);
  }

  lemma PastGot(env: Env, ts: seq<Timed>, c: nat)
    requires PossibleRun(env, ts) && c in Run(env, ts).pastClients && Run(env, ts).pastClients[c].joined
    requires PastClientSaw(env, Run(env, ts), Run(env, ts).pastClients[c])
    ensures GotAll(env, ts, c)
  {
    hide Run, PossibleRun, Inv, Stream, Arrived, Took, Headers, Answers, Gave, Resetting, GivesUp, StopsAt, Total;
    var w := Run(env, ts);
    var k := w.pastClients[c].conn.value;
    HistoriesAreTrue(env, ts, k, c);
    RunKeeps(env, ts);
    NotPast(env, w, k, c);
    var h := w.pastConns[k];
    assert h.accepted[..|h.delivered|] == h.delivered;
    assert |h.delivered| == |h.accepted| ==> h.delivered == h.accepted;
  }

  // ---- From the client to the device ----

  /** The data that reached the device, in segments that tile the sequence space, is what the client's socket gave to
      this connection; and that is what the client wrote after its commands and after what was still in the command
      buffer when the connection came up. */
  ghost predicate GaveStream(env: Env, ts: seq<Timed>, k: nat)
  {
    var w := Run(env, ts);
    && (k in w.conns ==>
          && C.DataOf(w.conns[k].h.tx) == Gave(env, ts, k) && C.Tiled(w.conns[k].h.tx)
          && w.conns[k].client.Some? && w.conns[k].client.value in w.clients
          && var c := w.conns[k].client.value;
             (w.clients[c].state.Joined? ==>
                Spoke(env, ts, c) == Concat(w.clients[c].h.cmds) + w.clients[c].h.lost + Gave(env, ts, k)))
    && (k in w.pastConns ==> C.Tiled(w.pastConns[k].tx) && C.DataOf(w.pastConns[k].tx) <= Gave(env, ts, k))
  }

  lemma WhatIsWrittenIsSent(env: Env, ts: seq<Timed>, k: nat)
    requires PossibleRun(env, ts)
    ensures GaveStream(env, ts, k)
  {
    hide Run, PossibleRun, Inv, Concat, C.DataOf, C.Tiled, Arrived, Took, Headers, Answers, Gave, Spoke, Resetting;
    hide PastClientGave, Listened, L.EndsInConnect, C.Placed;
    DevicesGetTheirStream(env, ts);
    RunKeeps(env, ts);
    var w := Run(env, ts);
    NotPast(env, w, k, 0);
    if k in w.conns {
      assert DeviceSeesStream(env, w, k);
      LiveTiles(env, w, k);
      HistoriesAreTrue(env, ts, k, w.conns[k].client.value);
    } else {
      HistoriesAreTrue(env, ts, k, 0);
    }
  }

  lemma LiveTiles(env: Env, w: World, k: nat)
    requires Inv(env, w) && k in w.conns
    ensures C.Tiled(w.conns[k].h.tx)
  {
    hide Inv, Leaving, PairOk, C.Tiled, C.DataOf, C.Resets;
    ConnFacts(env, w, k);
    PairMayLeave(env, w, k, w.conns[k].client.value);
  }

  // ---- The window ----

  /** The last header that arrived for connection k, and the bytes that it leaves unacknowledged. */
  function Latest(env: Env, ts: seq<Timed>, k: nat): TcpHeader
  {
    Last(TcpHeader(0, 0, 0, 0, 0, 0), Headers(env, ts, k))
  }

  function Flying(env: Env, ts: seq<Timed>, k: nat): nat
  {
    (1 + |Gave(env, ts, k)| - Latest(env, ts, k).ackno) % WORD32
  }

  /** A segment of n bytes fits the send buffer, a packet, and what is left of the window. */
  predicate Fits(env: Env, ts: seq<Timed>, k: nat, n: nat)
  {
    n <= 65536 && 16 + 20 + n <= 49152 && Flying(env, ts, k) + n <= Latest(env, ts, k).win * 256
  }

  /** After every run an established connection may read exactly as many bytes as fit. */
  lemma WindowIsFilled(env: Env, ts: seq<Timed>, k: nat)
    requires PossibleRun(env, ts) && k in Run(env, ts).conns && Run(env, ts).conns[k].state.Connected?
    ensures forall n: nat :: 1 <= n ==> (Fits(env, ts, k, n) <==> n <= Run(env, ts).conns[k].sendable)
  {
    hide Run, PossibleRun, Inv, Headers, Gave, Arrived, Answers, Took, Resetting;
    var w := Run(env, ts);
    RunKeeps(env, ts);
    HistoriesAreTrue(env, ts, k, 0);
    LiveCounters(env, w, k);
    TakenInFlight(w.conns[k]);
  }

  lemma TakenInFlight(kn: C.Conn)
    requires kn.txSeq == (1 + |kn.h.taken|) % WORD32
    ensures C.InFlight(kn) == (1 + |kn.h.taken| - kn.rxAck) % WORD32
  {
    var x := 1 + |kn.h.taken|;
    assert x == WORD32 * (x / WORD32) + x % WORD32;
    ModShift(x % WORD32 - kn.rxAck, x / WORD32);
  }

  lemma ModShift(y: int, q: int)
    ensures (y + WORD32 * q) % WORD32 == y % WORD32
  {
    assert y == WORD32 * (y / WORD32) + y % WORD32;
  }

  lemma LiveCounters(env: Env, w: World, k: nat)
    requires Inv(env, w) && k in w.conns && w.conns[k].state.Connected?
    ensures
      var kn := w.conns[k];
      && C.Established(kn) && kn.sendable == C.Sendable(kn)
      && kn.txSeq == (1 + |kn.h.taken|) % WORD32 && kn.txAck == (1 + |kn.h.delivered|) % WORD32
      && kn.rxAck == kn.h.heard.ackno && kn.rxWin == kn.h.heard.win * 256
      && C.Stamped(kn) && C.Confirmed(kn)
    ensures w.conns[k].dev in w.devices && !w.devices[w.conns[k].dev].state.Starting?
  {
    hide Inv, C.Sendable, C.DataOf, C.Tiled, C.Resets, C.LastOk, C.AcksUpTo, C.Waiting, L.Joining, L.InStream;
    hide L.Pending;
    ConnFacts(env, w, k);
  }

  /** A segment that acknowledges all that the client has been given. */
  predicate Acknowledges(s: C.Segment, delivered: nat, now: nat)
  {
    s.ok && s.th.flags == ACK && s.th.ackno == (1 + delivered) % WORD32 && s.done == delivered && s.at == now
  }

  /** A read of at least one byte that fits goes out as one segment, right after the bytes before it. */
  lemma ReadsGoOut(env: Env, ts: seq<Timed>, t: Timed, k: nat)
    requires PossibleRun(env, ts) && Possible(env, Run(env, ts), t) && ServesNow(Run(env, ts), t.event, k)
    requires
      var w := Run(env, ts);
      && WritesWell(w.conns[k], t.event.io)
      && t.event.io.read.Some? && 1 <= |t.event.io.read.value| && Fits(env, ts, k, |t.event.io.read.value|)
      && w.conns[k].dev in w.devices && env.usbOk(w.conns[k].dev, |w.devices[w.conns[k].dev].h.wire|)
    ensures
      var w, w' := Run(env, ts), Step(env, Run(env, ts), t);
      && k in w'.conns && |w'.conns[k].h.tx| == |w.conns[k].h.tx| + 1
      && var s := w'.conns[k].h.tx[|w.conns[k].h.tx|];
         && w'.conns[k].h.tx == w.conns[k].h.tx + [s] && s.data == t.event.io.read.value
         && s.th.seqno == (1 + |Gave(env, ts, k)|) % WORD32
         && Acknowledges(s, |w'.conns[k].h.delivered|, t.now)
  {
    hide Run, PossibleRun, Inv, Headers, Gave, Arrived, Answers, Took, Resetting, ClientProcess, Fits, C.Established;
    hide C.Confirmed, C.Stamped;
    var w := Run(env, ts);
    var w1 := w.(clock := t.now);
    RunKeeps(env, ts);
    HistoriesAreTrue(env, ts, k, 0);
    ClockAdvanced(env, w, t.now);
    ServedMoves(env, w1, t.event.c, t.event.io, k);
    WindowIsFilled(env, ts, k);
    LiveCounters(env, w, k);
    var data := t.event.io.read.value;
    assert Fits(env, ts, k, |data|) && |data| <= w.conns[k].sendable;
    SendableFits(env, w1, k, |data|);
    ServedSends(w.conns[k], Written(w.conns[k], t.event.io), data, t.now);
  }

  lemma SendableFits(env: Env, w: World, k: nat, n: nat)
    requires Inv(env, w) && k in w.conns && w.conns[k].sendable == C.Sendable(w.conns[k]) && n <= w.conns[k].sendable
    requires w.conns[k].dev in w.devices && env.usbOk(w.conns[k].dev, |w.devices[w.conns[k].dev].h.wire|)
    ensures D.SendOk(env, w.conns[k].dev, w.devices[w.conns[k].dev], 20, n)
  {
    hide Inv;
  }

  lemma ServedSends(kn: C.Conn, n: nat, data: seq<byte>, now: nat)
    requires n <= |kn.ib| && data != [] && kn.txAck == (1 + |kn.h.delivered|) % WORD32
    requires kn.txSeq == (1 + |kn.h.taken|) % WORD32
    ensures
      var kn' := C.Served(kn, n, data, now);
      && |kn'.h.tx| == |kn.h.tx| + 1
      && var s := kn'.h.tx[|kn.h.tx|];
         && kn'.h.tx == kn.h.tx + [s] && s.data == data && s.th.seqno == (1 + |kn.h.taken|) % WORD32
         && Acknowledges(s, |kn'.h.delivered|, now)
  {
    Add32Counts(1 + |kn.h.delivered|, n);
  }

  // ---- Acknowledgements ----

  /** The last segment that went out, and whether the client has been given anything since, up to a multiple of the
      sequence space. */
  predicate Late(kn: C.Conn, now: nat)
  {
    && C.LastOk(kn.h.tx).Some?
    && var s := C.LastOk(kn.h.tx).value;
       now - s.at > 30 && (|kn.h.delivered| - s.done) % WORD32 != 0
  }

  /** The history of kn' is that of kn with one more segment, an acknowledgement without data. */
  predicate AcksNow(kn: C.Conn, kn': C.Conn, now: nat)
  {
    && |kn'.h.tx| == |kn.h.tx| + 1
    && var s := kn'.h.tx[|kn.h.tx|];
       kn'.h.tx == kn.h.tx + [s] && s.data == [] && Acknowledges(s, |kn'.h.delivered|, now)
  }

  /** last_ack_time is the time of the last segment that went out, in every reachable state. The timer leaves a
      connection alone unless that is more than 30 ms ago and bytes have been delivered since; then it sends an
      acknowledgement of all of them, or tears the connection down if the device cannot be sent one. */
  lemma TimerSendsWhenLate(env: Env, ts: seq<Timed>, now: nat, k: nat)
    requires PossibleRun(env, ts) && Run(env, ts).clock <= now
    requires k in Run(env, ts).conns && Run(env, ts).conns[k].state.Connected?
    ensures
      var w, w' := Run(env, ts), Step(env, Run(env, ts), Timed(now, Tick));
      && C.LastOk(w.conns[k].h.tx).Some? && w.conns[k].lastAck == C.LastOk(w.conns[k].h.tx).value.at
      && (!Late(w.conns[k], now) ==> k in w'.conns && w'.conns[k] == w.conns[k])
      && (Late(w.conns[k], now) && k in w'.conns ==> AcksNow(w.conns[k], w'.conns[k], now))
      && (Late(w.conns[k], now) && (forall i: nat :: env.usbOk(w.conns[k].dev, i)) ==> k in w'.conns)
  {
    hide Run, PossibleRun, Inv, CheckTimeouts, C.LastOk, C.Acknowledged, AcksNow;
    var w := Run(env, ts);
    var w1 := w.(clock := now);
    RunKeeps(env, ts);
    ClockAdvanced(env, w, now);
    ClockSettled(w, now);
    LiveCounters(env, w, k);
    ConnFacts(env, w, k);
    TicksExactly(env, w1, w1.nextConn, k);
    PendingIsBehind(w.conns[k]);
    AckIsSent(w.conns[k], now);
  }

  /** ACK_PENDING means that the client has been given bytes since the last segment went out. */
  lemma PendingIsBehind(kn: C.Conn)
    requires C.Established(kn) && C.Stamped(kn) && C.Confirmed(kn) && kn.txAck == (1 + |kn.h.delivered|) % WORD32
    ensures kn.ackPending <==> (|kn.h.delivered| - C.LastOk(kn.h.tx).value.done) % WORD32 != 0
  {
    hide C.LastOk, C.Streams, C.Sendable;
    SameCount(1 + |kn.h.delivered|, 1 + C.LastOk(kn.h.tx).value.done);
  }

  lemma SameCount(a: int, b: int)
    ensures a % WORD32 == b % WORD32 <==> (a - b) % WORD32 == 0
  {
    assert a == WORD32 * (a / WORD32) + a % WORD32 && b == WORD32 * (b / WORD32) + b % WORD32;
    ModShift(a % WORD32 - b % WORD32, a / WORD32 - b / WORD32);
  }

  lemma AckIsSent(kn: C.Conn, now: nat)
    requires kn.txAck == (1 + |kn.h.delivered|) % WORD32
    ensures AcksNow(kn, C.Acknowledged(kn, now), now)
  {
  }

  /** A segment that is accepted is acknowledged at once, whatever the timer. */
  lemma ArrivalsAreAcked(env: Env, ts: seq<Timed>, t: Timed, k: nat)
    requires PossibleRun(env, ts) && Possible(env, Run(env, ts), t) && Reaches(Run(env, ts), t.event, k)
    requires Run(env, ts).conns[k].state.Connected?
    ensures
      var w, w' := Run(env, ts), Step(env, Run(env, ts), t);
      k in w'.conns ==> AcksNow(w.conns[k], w'.conns[k], t.now)
  {
    hide Run, PossibleRun, Inv, Step, ArrivalOf, C.Received, AcksNow;
    var w := Run(env, ts);
    RunKeeps(env, ts);
    LiveCounters(env, w, k);
    if k in Step(env, w, t).conns {
      StepMoves(env, w, t, k);
      ReceiptIsAcked(w.conns[k], ArrivalOf(w, t.event).th, ArrivalOf(w, t.event).payload, t.now);
    }
  }

  lemma ReceiptIsAcked(kn: C.Conn, th: TcpHeader, payload: seq<byte>, now: nat)
    requires kn.txAck == (1 + |kn.h.delivered|) % WORD32
    ensures AcksNow(kn, C.Received(kn, th, payload, now), now)
  {
  }

  // ---- The end of a connection ----

  /** A connection that is gone was reset by its device, or its device was sent a reset, unless that is gone too. */
  predicate Ended(w: World, k: nat)
  {
    k in w.pastConns && w.pastConns[k].line.dev in w.devices ==>
      w.pastConns[k].gotRst || HasReset(w.pastConns[k].tx)
  }

  lemma BookEnd(w: World, e: Event, b: World, w': World, k: nat)
    requires Begins(w, e, b) && Steady(b, w', {}, {}) && Ended(w, k)
    requires k in w.conns ==>
               && k !in w.pastConns && w.conns[k].h.line.dev == w.conns[k].dev
               && (w.conns[k].state.Connecting? || w.conns[k].state.Connected?)
    requires k in w.pastConns ==> w.pastConns[k].line.dev < w.nextDevice
    requires forall d :: d in w'.devices ==> !w'.devices[d].state.Removed?
    ensures k !in w'.conns ==> Ended(w', k)
  {
    hide HasReset, Grown, BeginsClient, ClientSteady, Arrived, Blank, Resetting;
    assert ConnSteady(b, w', k);
    if k !in w'.conns {
      if k in w.conns {
        assert BeginsConn(w, e, k, b.conns[k]);
        assert Hung(w', b.conns[k].dev, k);
      } else if k in w.pastConns {
        assert k !in b.conns;
        GrownSelf(w.pastConns[k], b.clock);
        GrownTwice(w.pastConns[k], w.pastConns[k], w'.pastConns[k], b.clock);
      } else if k in b.conns {
        assert Hung(w', b.conns[k].dev, k);
      }
    }
  }

  lemma StepEnds(env: Env, w: World, t: Timed, k: nat)
    requires Inv(env, w) && Settled(w) && Traces.Traced(w) && Possible(env, w, t) && Ended(w, k)
    ensures Ended(Step(env, w, t), k)
  {
    hide Inv, Act, Begins, Steady, Enabled, HasReset, Traces.OnWire, PortsDistinct;
    var w1 := w.(clock := t.now);
    ClockAdvanced(env, w, t.now);
    ClockEnabled(env, w, t.now, t.event);
    StepKeeps(env, w, t);
    var b := ActBegins(env, w1, t.event);
    NotPast(env, w, k, 0);
    NotPast(env, Step(env, w, t), k, 0);
    if k in w.conns {
      LiveState(env, w, k);
      assert Traces.ConnTraced(w, k);
    } else if k in w.pastConns {
      assert Traces.PastTraced(w, k);
    }
    BookEnd(w1, t.event, b, Act(env, w1, t.event), k);
  }

  lemma {:induction false} RunEnds(env: Env, ts: seq<Timed>, k: nat)
    requires PossibleRun(env, ts)
    ensures Ended(Run(env, ts), k)
    decreases |ts|
  {
    if ts != [] {
      hide Inv, Settled, Step, Possible, Traces.Traced, Ended;
      var was := ts[..|ts| - 1];
      RunEnds(env, was, k);
      RunKeeps(env, was);
      Traces.RunTraced(env, was);
      StepEnds(env, Run(env, was), ts[|ts| - 1], k);
    }
  }

  lemma {:induction false} ResetsCount(tx: seq<C.Segment>)
    ensures HasReset(tx) <==> C.Resets(tx) > 0
    decreases |tx|
  {
    if tx != [] {
      var n := |tx| - 1;
      ResetsCount(tx[..n]);
      if HasReset(tx) {
        var i :| 0 <= i < |tx| && tx[i].th.flags == RST;
        assert i < n ==> tx[..n][i].th.flags == RST;
      }
      if HasReset(tx[..n]) {
        var i :| 0 <= i < n && tx[..n][i].th.flags == RST;
        assert tx[i].th.flags == RST;
      }
    }
  }

  /** A connection that ended while its device stayed attached: the device was sent exactly one reset, or none if it
      had sent one itself. */
  lemma EndsAreAnnounced(env: Env, ts: seq<Timed>, k: nat)
    requires PossibleRun(env, ts) && k in Run(env, ts).pastConns
    requires Run(env, ts).pastConns[k].line.dev in Run(env, ts).devices
    ensures C.Resets(Run(env, ts).pastConns[k].tx) == if Resetting(Headers(env, ts, k)) then 0 else 1
  {
    hide Run, PossibleRun, HasReset, C.Resets, Resetting, Headers, Arrived, Answers, Gave, Took;
    RunEnds(env, ts, k);
    EverythingIsFreedOnce(env, ts);
    RunKeeps(env, ts);
    NotPast(env, Run(env, ts), k, 0);
    HistoriesAreTrue(env, ts, k, 0);
    ResetsCount(Run(env, ts).pastConns[k].tx);
  }

  // ---- Clients come and go ----

  lemma AcceptAdds(env: Env, ts: seq<Timed>, now: nat)
    requires PossibleRun(env, ts)
    ensures
      var w, w' := Run(env, ts), Step(env, Run(env, ts), Timed(now, Accept));
      && w.nextClient !in w.clients && w.nextClient !in w.pastClients
      && w'.clients == w.clients[w.nextClient := w'.clients[w.nextClient]] && w'.conns == w.conns
      && var cl := w'.clients[w.nextClient];
         cl.state.Commanding? && cl.events == Mask(true, false) && cl.ob == [] && cl.ib == [] && cl.proto == 0
  {
    hide Run, PossibleRun, Inv;
    RunKeeps(env, ts);
    NextClientIsFree(env, Run(env, ts));
  }

  /** The socket of a client that is not joined fails, or brings an impossible length or a command at the wrong time. */
  predicate Breaks(cl: L.Client, e: Event)
  {
    if e.ClientReadable? then
      || !(0 < |e.got| <= Need(cl.ib))
      || Receive(cl.ib, e.got).BadLength?
      || (Receive(cl.ib, e.got).Command? && !cl.state.Commanding?)
    else e.ClientWritable? && cl.ob != [] && !(0 < e.n <= |cl.ob|)
  }

  /** Then the client is closed and its connection, if it has one, is torn down; otherwise it stays. */
  lemma BrokenClientsGo(env: Env, ts: seq<Timed>, t: Timed, c: nat)
    requires PossibleRun(env, ts) && Possible(env, Run(env, ts), t) && c in Run(env, ts).clients
    requires (t.event.ClientReadable? || t.event.ClientWritable?) && t.event.c == c
    ensures
      var w, w' := Run(env, ts), Step(env, Run(env, ts), t);
      if Breaks(w.clients[c], t.event) then
        c !in w'.clients && c in w'.pastClients && forall k :: k in w'.conns ==> w'.conns[k].client != Some(c)
      else c in w'.clients
  {
    hide Run, PossibleRun, Inv, Settled, Act, Enabled, Breaks, ClientBooked, ConnBooked;
    var w, w' := Run(env, ts), Step(env, Run(env, ts), t);
    RunKeeps(env, ts);
    StepKeeps(env, w, t);
    StepBooks(env, w, t, 0, c);
    var w1 := w.(clock := t.now);
    if t.event.ClientReadable? {
      ReadableBreaks(env, w1, t.event);
    } else {
      WritableBreaks(env, w1, t.event);
    }
    if Breaks(w.clients[c], t.event) {
      assert c in w'.pastClients by { StillKnown(w, t, w', c); }
      forall k | k in w'.conns
        ensures w'.conns[k].client != Some(c)
      {
        ConnFacts(env, w', k);
      }
    }
  }

  lemma StillKnown(w: World, t: Timed, w': World, c: nat)
    requires ClientBooked(w, t, w', c) && c in w.clients && c !in w'.clients
    ensures c in w'.pastClients
  {
  }

  lemma ReadableBreaks(env: Env, w: World, e: Event)
    requires e.ClientReadable? && e.c in w.clients
    ensures e.c in Act(env, w, e).clients <==> !Breaks(w.clients[e.c], e)
  {
    hide ClientClose, Need, Receive, Decode, Encode, Wire, Obey;
    var cl := w.clients[e.c];
    if !(0 < |e.got| <= Need(cl.ib)) {
      CloseSteady(env, w, e.c);
    } else {
      match Receive(cl.ib, e.got)
      case Partial(ib) =>
      case BadLength => CloseSteady(env, SetClient(w, e.c, L.Spoilt(cl, e.got)), e.c);
      case Command(msg) =>
        WholeDecodes(msg);
        var cmd, m := L.Commanded(cl, e.got, msg), Decode(msg).value;
        if cl.state.Commanding? {
          Commands.ClientStays(env, w, e.c, L.Spoken(cmd, m), m, e.o);
        } else {
          CloseSteady(env, SetClient(w, e.c, L.Enqueue(env, cmd, m.tag, Result(RESULT_BADCOMMAND))), e.c);
        }
    }
  }

  lemma WritableBreaks(env: Env, w: World, e: Event)
    requires e.ClientWritable? && e.c in w.clients
    ensures e.c in Act(env, w, e).clients <==> !Breaks(w.clients[e.c], e)
  {
    hide ClientClose;
    CloseSteady(env, w, e.c);
  }
}
