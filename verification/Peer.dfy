/** A connection composed with a device that respects the advertised window, over channels that keep order. */
module Peer {
  import opened Basics
  import opened MuxPacket
  import C = Connection

  /** `queue` holds the payloads on their way to the daemon; the device has received the first `seen` segments
      of the connection and works with 32-bit numbers only. */
  datatype Link = Link(kn: C.Conn, queue: seq<seq<byte>>, seen: nat, nxt: u32, una: u32, wnd: nat)

  datatype Move =
    | DeviceSends(payload: seq<byte>)
    | DeviceReceives
    | HostReceives(th: TcpHeader)                             // device_tcp_input, acknowledged at once
    | HostServes(wrote: nat, took: seq<byte>)                 // device_client_process
    | HostAcknowledges                                        // device_check_timeouts

  /** The moves the two sides may make. The window rule is the device's own: what it has sent beyond the last
      acknowledgement it received, in 32-bit arithmetic, never exceeds the last window it received. */
  predicate Allowed(l: Link, m: Move)
  {
    match m
    case DeviceSends(p) => Sub32(l.nxt, l.una) + |p| <= l.wnd
    case DeviceReceives => l.seen < |l.kn.h.tx|
    case HostReceives(th) => l.queue != [] && th.flags == ACK
    case HostServes(wrote, took) => wrote <= |l.kn.ib| && |took| <= l.kn.sendable
    case HostAcknowledges => true
  }

  function Moved(l: Link, m: Move, now: nat): Link
    requires Allowed(l, m)
  {
    match m
    case DeviceSends(p) => l.(queue := l.queue + [p], nxt := Add32(l.nxt, |p|))
    case DeviceReceives =>
      var s := l.kn.h.tx[l.seen];
      l.(seen := l.seen + 1, una := s.th.ackno, wnd := s.th.win * 256)
    case HostReceives(th) =>
      l.(kn := C.Received(l.kn, th, l.queue[0], now), queue := l.queue[1..])
    case HostServes(wrote, took) => l.(kn := C.Served(l.kn, wrote, took, now))
    case HostAcknowledges => l.(kn := C.Acknowledged(l.kn, now))
  }

  /** The daemon has completed the handshake. The device has received the SYN and answered it; the segment that
      acknowledges its answer is still on the way. It numbers its bytes from 1. */
  predicate Fresh(l: Link)
  {
    && l.kn.state.Connected? && C.Established(l.kn) && l.kn.h.accepted == []
    && |l.kn.h.tx| == 2 && C.IsHandshakeAck(l.kn.h.tx[1])
    && l.queue == [] && l.seen == 1 && l.nxt == 1
    && l.una == l.kn.h.tx[0].th.ackno == 0 && l.wnd == l.kn.h.tx[0].th.win * 256 == C.TX_WIN
  }

  /** Acknowledgements from segment `base` on carry the count of delivered bytes. */
  predicate Truthful(tx: seq<C.Segment>, base: nat)
  {
    forall i :: base <= i < |tx| ==> tx[i].th.ackno == (1 + tx[i].done) % WORD32 && tx[i].th.win * 256 == C.TX_WIN
  }

  /** How many bytes the last acknowledgement that the device received covers. */
  function Covered(l: Link, base: nat): nat
  {
    if base < l.seen <= |l.kn.h.tx| then l.kn.h.tx[l.seen - 1].done else 0
  }

  function Emitted(l: Link): nat { |l.kn.h.accepted| + |Concat(l.queue)| }

  predicate LinkOk(l: Link, base: nat)
  {
    && C.Established(l.kn)
    && base <= l.seen <= |l.kn.h.tx|
    && Truthful(l.kn.h.tx, base)
    && l.wnd == C.TX_WIN
    && l.una == (if l.seen == base then 0 else (1 + Covered(l, base)) % WORD32)
    && l.nxt == (1 + Emitted(l)) % WORD32
    && Emitted(l) - Covered(l, base) <= C.TX_WIN
  }

  /** The 32-bit difference is the true one as long as it is small. */
  lemma SmallDifference(a: nat, b: nat)
    requires b <= a < b + WORD32
    ensures Sub32((1 + a) % WORD32, (1 + b) % WORD32) == a - b
  {
    var qa, qb := (1 + a) / WORD32, (1 + b) / WORD32;
    var ra, rb := (1 + a) % WORD32, (1 + b) % WORD32;
    assert (1 + a) - (1 + b) == WORD32 * (qa - qb) + (ra - rb);
    ModUnique(ra - rb, qb - qa, a - b);
  }

  /** The device's knowledge is behind the daemon's, which is behind what was accepted. */
  lemma CoveredBelow(l: Link, base: nat)
    requires LinkOk(l, base)
    ensures Covered(l, base) <= |l.kn.h.delivered| <= |l.kn.h.accepted| <= Emitted(l)
  {
    hide C.DataOf, C.Tiled, C.Resets, C.LastOk, C.Update;
  }

  /** The buffer never holds more than the advertised window, however many bytes have passed. */
  lemma BufferWithinWindow(l: Link, base: nat)
    requires LinkOk(l, base)
    ensures |l.kn.ib| + |Concat(l.queue)| <= C.TX_WIN
  {
    hide C.DataOf, C.Tiled, C.Resets, C.LastOk, C.Update;
    CoveredBelow(l, base);
  }

  // ---- Moves of the daemon ----

  /** Update touches neither the streams nor itself. */
  lemma UpdateEstablishes(kn: C.Conn)
    requires C.Streams(kn) && C.Confirmed(kn)
    ensures C.Established(C.Update(kn)) && C.Update(kn).h == kn.h
  {
    hide C.DataOf, C.Tiled, C.Resets, C.LastOk, C.AcksUpTo;
  }

  lemma AcknowledgeEstablishes(kn: C.Conn, now: nat, base: nat)
    requires C.Streams(kn) && Truthful(kn.h.tx, base)
    ensures
      var kn' := C.Acknowledged(kn, now);
      && C.Established(kn') && kn.h.tx <= kn'.h.tx && Truthful(kn'.h.tx, base)
      && kn'.h.accepted == kn.h.accepted && kn'.state == kn.state
  {
    hide C.Established, C.Update, C.DataOf, C.Tiled, C.Resets, C.LastOk, C.AcksUpTo;
    C.EmptySegmentStreams(kn, ACK, true, now);
    UpdateEstablishes(C.SendTcp(kn, ACK, [], true, now));
    UpdateState(C.SendTcp(kn, ACK, [], true, now));
  }

  lemma UpdateState(kn: C.Conn)
    ensures C.Update(kn).state == kn.state
  {
  }

  lemma ServeEstablishes(kn: C.Conn, wrote: nat, took: seq<byte>, now: nat, base: nat)
    requires C.Established(kn) && wrote <= |kn.ib| && |took| <= kn.sendable && Truthful(kn.h.tx, base)
    ensures
      var kn' := C.Served(kn, wrote, took, now);
      && C.Established(kn') && kn.h.tx <= kn'.h.tx && Truthful(kn'.h.tx, base)
      && kn'.h.accepted == kn.h.accepted && kn'.state == kn.state
  {
    hide C.DataOf, C.Tiled, C.Resets, C.LastOk, C.AcksUpTo, C.Update;
    assert kn.sendable == C.Sendable(kn) by {
      SendableIsFresh(kn);
    }
    C.WroteKeeps(kn, wrote);
    var written := if wrote > 0 then C.Wrote(kn, wrote) else kn;
    var last := if took == [] then written
                else C.Advance(C.SendTcp(C.Took(written, took), ACK, took, true, now), |took|);
    if took != [] {
      C.DataSegmentKeeps(written, took, now);
    }
    UpdateEstablishes(last);
    UpdateState(last);
  }

  lemma SendableIsFresh(kn: C.Conn)
    requires C.Fresh(kn)
    ensures kn.sendable == C.Sendable(kn)
  {
  }

  /** Whatever the daemon does with the connection, the device's view of the window stays right. */
  lemma HostKeeps(l: Link, base: nat, kn: C.Conn, queue: seq<seq<byte>>, p: seq<byte>)
    requires LinkOk(l, base) && C.Established(kn) && l.kn.h.tx <= kn.h.tx && Truthful(kn.h.tx, base)
    requires kn.h.accepted == l.kn.h.accepted + p && |Concat(l.queue)| == |p| + |Concat(queue)|
    ensures LinkOk(l.(kn := kn, queue := queue), base)
  {
    hide C.Established, Concat;
  }

  lemma HostReceivesKeeps(l: Link, th: TcpHeader, now: nat, base: nat)
    requires LinkOk(l, base) && l.queue != [] && th.flags == ACK
    ensures !C.Overflows(C.NoteHeader(l.kn, th), l.queue[0])
    ensures LinkOk(Moved(l, HostReceives(th), now), base)
    ensures Moved(l, HostReceives(th), now).kn.state == l.kn.state
  {
    hide C.DataOf, C.Tiled, C.Resets, C.LastOk, C.AcksUpTo, C.Update, Concat, C.Acknowledged;
    BufferWithinWindow(l, base);
    var p, rest := l.queue[0], l.queue[1..];
    assert l.queue == [p] + rest;
    ConcatCons(p, rest);
    C.NoteKeeps(l.kn, th);
    var noted := C.NoteHeader(l.kn, th);
    C.AcceptKeeps(noted, p);
    var taken := C.Accept(noted, p);
    UpdateEstablishes(taken);
    UpdateState(taken);
    AcknowledgeEstablishes(C.Update(taken), now, base);
    HostKeeps(l, base, C.Acknowledged(C.Update(taken), now), rest, p);
  }

  // ---- Moves of the device ----

  lemma DeviceSendsKeeps(l: Link, p: seq<byte>, now: nat, base: nat)
    requires LinkOk(l, base) && Allowed(l, DeviceSends(p))
    ensures LinkOk(Moved(l, DeviceSends(p), now), base)
  {
    hide C.Established, Concat;
    CoveredBelow(l, base);
    SmallDifference(Emitted(l), Covered(l, base));
    Add32Counts(1 + Emitted(l), |p|);
    ConcatSnoc(l.queue, p);
  }

  lemma DeviceReceivesKeeps(l: Link, now: nat, base: nat)
    requires LinkOk(l, base) && l.seen < |l.kn.h.tx|
    ensures LinkOk(Moved(l, DeviceReceives, now), base)
  {
    hide C.DataOf, C.Tiled, C.Resets, C.LastOk, C.Update, Concat;
    CoveredBelow(l, base);
    var l' := Moved(l, DeviceReceives, now);
    assert Covered(l', base) == l.kn.h.tx[l.seen].done;
    assert Covered(l, base) <= Covered(l', base);
  }

  lemma MoveKeeps(l: Link, m: Move, now: nat, base: nat)
    requires LinkOk(l, base) && Allowed(l, m)
    ensures LinkOk(Moved(l, m, now), base) && Moved(l, m, now).kn.state == l.kn.state
  {
    hide C.Established, Concat;
    match m
    case DeviceSends(p) => DeviceSendsKeeps(l, p, now, base);
    case DeviceReceives => DeviceReceivesKeeps(l, now, base);
    case HostReceives(th) => HostReceivesKeeps(l, th, now, base);
    case HostServes(wrote, took) =>
      ServeEstablishes(l.kn, wrote, took, now, base);
      assert l.kn.h.accepted + [] == l.kn.h.accepted;
      HostKeeps(l, base, C.Served(l.kn, wrote, took, now), l.queue, []);
    case HostAcknowledges =>
      EstablishedStreams(l.kn);
      AcknowledgeEstablishes(l.kn, now, base);
      assert l.kn.h.accepted + [] == l.kn.h.accepted;
      HostKeeps(l, base, C.Acknowledged(l.kn, now), l.queue, []);
  }

  lemma EstablishedStreams(kn: C.Conn)
    requires C.Established(kn)
    ensures C.Streams(kn)
  {
  }

  lemma FreshIsOk(l: Link)
    requires Fresh(l)
    ensures LinkOk(l, 1)
  {
    hide C.Established;
  }
}
