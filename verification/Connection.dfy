/** One TCP-like connection of a device (struct mux_connection and the functions that update it), as a value.
    The field `h` is a history: the daemon's code never reads it. */
module Connection {
  import opened Basics
  import opened MuxPacket

  const MAX_PAYLOAD := USB_MTU - 16 - 20
  const CONN_INBUF_SIZE := 262144
  const CONN_OUTBUF_SIZE := 65536
  const TX_WIN := 131072

  datatype ConnState = Connecting | Connected | Refused | Dying | Dead

  /** A segment handed to send_packet. `una` and `wnd` record what the device had last acknowledged and
      advertised at that moment, `done` how many raw bytes the client had been given, `at` the time. */
  datatype Segment = Segment(th: TcpHeader, data: seq<byte>, ok: bool, una: u32, wnd: u32, done: nat, at: nat)

  /** Where to find the segments of a connection: the packets that its device was sent after the first `born`, with
      these ports. */
  datatype Line = Line(dev: nat, sport: u16, dport: u16, born: nat)

  datatype ConnHistory = ConnHistory(
    line: Line,
    tx: seq<Segment>,        // every segment built for this connection
    accepted: seq<byte>,     // payload bytes taken from the device
    delivered: seq<byte>,    // raw bytes written to the client's socket
    taken: seq<byte>,        // raw bytes read from the client's socket
    heard: TcpHeader,        // the last header the device sent
    gotRst: bool,            // the device reset this connection
    isn: u32,                // sequence number of the device's SYN/ACK
    flushed: nat,            // how many of the delivered bytes the flush at the end wrote
    frees: nat)              // how often the structure was freed

  datatype Conn = Conn(
    dev: nat, client: Option<nat>, state: ConnState, sport: u16, dport: u16,
    txSeq: u32, txAck: u32, txAcked: u32,
    rxSeq: u32, rxRecvd: u32, rxAck: u32, rxWin: u32,
    sendable: nat, ackPending: bool, ib: seq<byte>, events: Mask, lastAck: nat,
    h: ConnHistory)

  function NewHistory(line: Line): ConnHistory
  {
    ConnHistory(line, [], [], [], [], TcpHeader(0, 0, 0, 0, 0, 0), false, 0, 0, 0)
  }

  /** device_start_connect: the zeroed structure with its port numbers. */
  function NewConn(d: nat, c: nat, sport: u16, dport: u16, born: nat): Conn
  {
    Conn(d, Some(c), Connecting, sport, dport, 0, 0, 0, 0, 0, 0, 0, 0, false, [], Mask(false, false), 0,
         NewHistory(Line(d, sport, dport, born)))
  }

  /** The header send_tcp builds. */
  function SegmentHeader(kn: Conn, flags: byte): TcpHeader
  {
    TcpHeader(kn.sport, kn.dport, kn.txSeq, kn.txAck, flags, TX_WIN / 256)
  }

  function SegmentOf(kn: Conn, flags: byte, data: seq<byte>, ok: bool, now: nat): Segment
  {
    Segment(SegmentHeader(kn, flags), data, ok, kn.h.heard.ackno, kn.h.heard.win * 256, |kn.h.delivered|, now)
  }

  /** send_tcp, given whether send_packet succeeded. */
  function SendTcp(kn: Conn, flags: byte, data: seq<byte>, ok: bool, now: nat): Conn
  {
    var logged := kn.(h := kn.h.(tx := kn.h.tx + [SegmentOf(kn, flags, data, ok, now)]));
    if ok then logged.(txAcked := kn.txAck, lastAck := now, ackPending := false) else logged
  }

  /** The first lines of device_tcp_input for a matching connection. */
  function NoteHeader(kn: Conn, th: TcpHeader): Conn
  {
    kn.(rxSeq := th.seqno, rxAck := th.ackno, rxWin := th.win * 256,
        h := kn.h.(heard := th, gotRst := kn.h.gotRst || HasRst(th.flags)))
  }

  /** The SYN/ACK arm: both counters step over the SYN. */
  function Handshake(kn: Conn): Conn
  {
    kn.(txSeq := Add32(kn.txSeq, 1), txAck := Add32(kn.txAck, 1), rxRecvd := kn.rxSeq,
        h := kn.h.(isn := kn.h.heard.seqno))
  }

  predicate Overflows(kn: Conn, payload: seq<byte>) { |kn.ib| + |payload| > CONN_INBUF_SIZE }

  /** connection_device_input before update_connection. */
  function Accept(kn: Conn, payload: seq<byte>): Conn
  {
    kn.(ib := kn.ib + payload, rxRecvd := Add32(kn.rxRecvd, |payload|),
        h := kn.h.(accepted := kn.h.accepted + payload))
  }

  /** The POLLOUT arm of device_client_process after a write of n bytes. */
  function Wrote(kn: Conn, n: nat): Conn
    requires n <= |kn.ib|
  {
    kn.(txAck := Add32(kn.txAck, n), ib := kn.ib[n..], h := kn.h.(delivered := kn.h.delivered + kn.ib[..n]))
  }

  /** The teardown flush: bytes reach the client without tx_ack moving. */
  function Flushed(kn: Conn, n: nat): Conn
    requires n <= |kn.ib|
  {
    kn.(ib := kn.ib[n..], h := kn.h.(delivered := kn.h.delivered + kn.ib[..n], flushed := kn.h.flushed + n))
  }

  /** The POLLIN arm of device_client_process: what was read, and the counter once it was sent. */
  function Took(kn: Conn, data: seq<byte>): Conn { kn.(h := kn.h.(taken := kn.h.taken + data)) }
  function Advance(kn: Conn, n: nat): Conn { kn.(txSeq := Add32(kn.txSeq, n)) }

  function InFlight(kn: Conn): u32 { Sub32(kn.txSeq, kn.rxAck) }

  function Sendable(kn: Conn): nat
  {
    var room := if kn.rxWin > InFlight(kn) then kn.rxWin - InFlight(kn) else 0;
    Min(Min(room, CONN_OUTBUF_SIZE), MAX_PAYLOAD)
  }

  /** update_connection, without the call to client_set_events. */
  function Update(kn: Conn): Conn
  {
    kn.(sendable := Sendable(kn), events := Mask(Sendable(kn) > 0, kn.ib != []), ackPending := kn.txAcked != kn.txAck)
  }

  /** A whole successful step: device_client_process that wrote and took so much, ... */
  function Served(kn: Conn, wrote: nat, took: seq<byte>, now: nat): Conn
    requires wrote <= |kn.ib|
  {
    var written := if wrote > 0 then Wrote(kn, wrote) else kn;
    Update(if took == [] then written
           else Advance(SendTcp(Took(written, took), ACK, took, true, now), |took|))
  }

  /** ... send_tcp_ack, ... */
  function Acknowledged(kn: Conn, now: nat): Conn { Update(SendTcp(kn, ACK, [], true, now)) }

  /** ... and the ACK arm of device_tcp_input. */
  function Received(kn: Conn, th: TcpHeader, payload: seq<byte>, now: nat): Conn
  {
    Acknowledged(Update(Accept(NoteHeader(kn, th), payload)), now)
  }

  // ---- Properties of the segments sent ----

  /** The client bytes that reached the device. */
  function DataOf(tx: seq<Segment>): seq<byte>
  {
    if tx == [] then []
    else DataOf(tx[..|tx| - 1]) + if tx[|tx| - 1].ok then tx[|tx| - 1].data else []
  }

  function Resets(tx: seq<Segment>): nat
  {
    if tx == [] then 0 else Resets(tx[..|tx| - 1]) + if tx[|tx| - 1].th.flags == RST then 1 else 0
  }

  /** The last segment that went out. */
  function LastOk(tx: seq<Segment>): Option<Segment>
  {
    if tx == [] then None else if tx[|tx| - 1].ok then Some(tx[|tx| - 1]) else LastOk(tx[..|tx| - 1])
  }

  /** The time of the last acknowledgement and what it acknowledged are those of the last segment that went out. */
  predicate Stamped(kn: Conn)
  {
    && LastOk(kn.h.tx).Some?
    && var s := LastOk(kn.h.tx).value;
       && kn.lastAck == s.at && kn.txAcked == s.th.ackno
       && (s.th.flags != SYN ==> s.th.ackno == (1 + s.done) % WORD32)
  }

  /** The handshake has been completed by a segment that went out. */
  predicate Confirmed(kn: Conn) { LastOk(kn.h.tx).Some? && LastOk(kn.h.tx).value.th.flags != SYN }

  /** POLLOUT is armed when there is something to write. */
  predicate Armed(kn: Conn) { kn.ib != [] ==> kn.events.pollOut }

  /** A data segment starts where the data before it ended, fits a packet, and keeps the unacknowledged
      bytes within the window the device had advertised. */
  predicate Placed(s: Segment, before: nat)
  {
    s.data != [] ==>
      && s.th.seqno == (1 + before) % WORD32
      && |s.data| <= MAX_PAYLOAD
      && Sub32(Add32(s.th.seqno, |s.data|), s.una) <= s.wnd
  }

  /** Data segments tile the sequence space from 1, without gap or overlap. */
  predicate Tiled(tx: seq<Segment>)
  {
    tx == [] || (Tiled(tx[..|tx| - 1]) && Placed(tx[|tx| - 1], |DataOf(tx[..|tx| - 1])|))
  }

  /** Acknowledgements never run backwards nor ahead of what the client was given. */
  predicate AcksUpTo(tx: seq<Segment>, delivered: nat)
  {
    && (forall i :: 0 <= i < |tx| ==> tx[i].done <= delivered)
    && (forall i, j :: 0 <= i < j < |tx| ==> tx[i].done <= tx[j].done)
  }

  /** Every segment carries the ports of its connection. */
  predicate Addressed(tx: seq<Segment>, sport: u16, dport: u16)
  {
    forall i :: 0 <= i < |tx| ==> tx[i].th.sport == sport && tx[i].th.dport == dport
  }

  /** The rx fields are those of the last header received. */
  predicate Attentive(kn: Conn)
  {
    kn.rxSeq == kn.h.heard.seqno && kn.rxAck == kn.h.heard.ackno && kn.rxWin == kn.h.heard.win * 256
  }

  lemma TxSnoc(tx: seq<Segment>, s: Segment)
    ensures DataOf(tx + [s]) == DataOf(tx) + if s.ok then s.data else []
    ensures Resets(tx + [s]) == Resets(tx) + if s.th.flags == RST then 1 else 0
    ensures Tiled(tx + [s]) <==> Tiled(tx) && Placed(s, |DataOf(tx)|)
    ensures LastOk(tx + [s]) == if s.ok then Some(s) else LastOk(tx)
  {
    assert (tx + [s])[..|tx|] == tx;
  }

  /** Each data segment of a tiled history starts where the data sent before it ended. */
  lemma {:induction false} TiledAt(tx: seq<Segment>, i: nat)
    requires Tiled(tx) && i < |tx|
    ensures Placed(tx[i], |DataOf(tx[..i])|)
    decreases |tx|
  {
    var n := |tx| - 1;
    if i < n {
      assert tx[..n][..i] == tx[..i];
      TiledAt(tx[..n], i);
    }
  }

  // ---- The invariants ----

  /** A connection that has sent its SYN and waits for the answer. */
  predicate Waiting(kn: Conn)
  {
    && kn.txSeq == 0 && kn.txAck == 0 && kn.txAcked == 0 && kn.ib == [] && kn.events == Mask(false, false)
        && !kn.ackPending
    && kn.h.accepted == [] && kn.h.delivered == [] && kn.h.taken == []
    && DataOf(kn.h.tx) == [] && Tiled(kn.h.tx) && Resets(kn.h.tx) == 0 && AcksUpTo(kn.h.tx, 0)
    && !kn.h.gotRst && kn.h.flushed == 0 && kn.h.frees == 0
    && Attentive(kn) && Addressed(kn.h.tx, kn.sport, kn.dport)
    && |kn.h.tx| == 1 && IsSyn(kn.h.tx[0]) && Stamped(kn)
  }

  /** The first segment of a connection: it advertises the window and acknowledges nothing. */
  predicate IsSyn(s: Segment) { s.th.flags == SYN && s.th.ackno == 0 && s.th.win * 256 == TX_WIN }

  /** The segment that completes a handshake acknowledges the device's SYN. */
  predicate IsHandshakeAck(s: Segment)
  {
    s.th.flags == ACK && s.th.ackno == 1 && s.th.win * 256 == TX_WIN && s.done == 0
  }

  /** What an established connection keeps between steps, apart from the freshness of its derived fields. */
  predicate Streams(kn: Conn)
  {
    && kn.txAck == (1 + |kn.h.delivered|) % WORD32
    && kn.rxRecvd == (kn.h.isn + |kn.h.accepted|) % WORD32
    && kn.h.accepted == kn.h.delivered + kn.ib
    && |kn.ib| <= CONN_INBUF_SIZE
    && kn.txSeq == (1 + |kn.h.taken|) % WORD32
    && DataOf(kn.h.tx) == kn.h.taken
    && Tiled(kn.h.tx) && Resets(kn.h.tx) == 0 && AcksUpTo(kn.h.tx, |kn.h.delivered|)
    && !kn.h.gotRst && kn.h.flushed == 0 && kn.h.frees == 0
    && Attentive(kn) && Addressed(kn.h.tx, kn.sport, kn.dport) && Stamped(kn)
  }

  /** sendable, the poll mask and the ACK_PENDING flag are those update_connection would compute. */
  predicate Fresh(kn: Conn) { kn == Update(kn) }

  predicate Established(kn: Conn) { Streams(kn) && Fresh(kn) && Confirmed(kn) }

  /** What remains true of a connection once it has been freed. */
  predicate Released(h: ConnHistory)
  {
    && h.delivered <= h.accepted
    && DataOf(h.tx) <= h.taken
    && Tiled(h.tx)
    && Resets(h.tx) <= 1
    && (h.gotRst ==> Resets(h.tx) == 0)
    && h.frees == 1
  }

  /** A connection that a teardown may be given, in the middle of a step. */
  predicate Doomed(kn: Conn)
  {
    && kn.h.accepted == kn.h.delivered + kn.ib
    && DataOf(kn.h.tx) <= kn.h.taken
    && Tiled(kn.h.tx) && Resets(kn.h.tx) == 0 && kn.h.flushed == 0 && kn.h.frees == 0
    && (kn.h.gotRst ==> kn.state.Dying? || kn.state.Refused?)
  }

  // ---- One lemma per operation ----

  lemma LiveIsDoomed(kn: Conn)
    requires Waiting(kn) || Streams(kn)
    ensures Doomed(kn)
  {
    hide DataOf, Tiled, Resets, LastOk;
  }

  lemma FlushNothing(kn: Conn)
    ensures Flushed(kn, 0) == kn
  {
    assert kn.h.delivered + kn.ib[..0] == kn.h.delivered;
  }

  /** After the RST, if any, and the flush, nothing is left to go wrong. */
  lemma DoomedReleases(kn: Conn, reset: bool, ok: bool, now: nat, n: nat)
    requires Doomed(kn) && n <= |kn.ib| && (kn.h.gotRst ==> !reset)
    ensures
      var kn' := if reset then SendTcp(kn, RST, [], ok, now) else kn;
      && Released(Flushed(kn', n).h.(frees := 1))
      && Flushed(kn', n).h.accepted == kn.h.accepted && Flushed(kn', n).h.taken == kn.h.taken
      && Flushed(kn', n).h.delivered == kn.h.delivered + kn.ib[..n]
      && Flushed(kn', n).h.flushed == n && Flushed(kn', n).h.frees == 0
  {
    hide DataOf, Tiled, Resets, LastOk;
    TxSnoc(kn.h.tx, SegmentOf(kn, RST, [], ok, now));
    assert kn.ib == kn.ib[..n] + kn.ib[n..];
  }

  /** Noting a header changes no stream; a reset makes the connection one that must go. */
  lemma NoteKeeps(kn: Conn, th: TcpHeader)
    ensures Waiting(kn) && !HasRst(th.flags) ==> Waiting(NoteHeader(kn, th))
    ensures Streams(kn) && !HasRst(th.flags) ==> Streams(NoteHeader(kn, th))
    ensures (Waiting(kn) || Streams(kn)) && HasRst(th.flags) ==>
              Doomed(NoteHeader(kn, th).(state := Refused)) && Doomed(NoteHeader(kn, th).(state := Dying))
  {
    hide DataOf, Tiled, Resets, LastOk;
  }

  /** A connection whose SYN has been sent. */
  lemma SynWaits(d: nat, c: nat, sport: u16, dport: u16, born: nat, now: nat)
    ensures Waiting(SendTcp(NewConn(d, c, sport, dport, born), SYN, [], true, now))
  {
    var kn := NewConn(d, c, sport, dport, born);
    TxSnoc([], SegmentOf(kn, SYN, [], true, now));
    assert [] + [SegmentOf(kn, SYN, [], true, now)] == [SegmentOf(kn, SYN, [], true, now)];
  }

  /** A segment without data can always be sent. */
  lemma EmptySegmentStreams(kn: Conn, flags: byte, ok: bool, now: nat)
    requires Streams(kn) && flags != RST
    ensures Streams(SendTcp(kn, flags, [], ok, now))
    ensures flags != SYN && (ok || Confirmed(kn)) ==> Confirmed(SendTcp(kn, flags, [], ok, now))
  {
    hide DataOf, Tiled, Resets, LastOk;
    TxSnoc(kn.h.tx, SegmentOf(kn, flags, [], ok, now));
  }

  lemma HandshakeEstablishes(kn: Conn, ok: bool, now: nat)
    requires Waiting(kn)
    ensures
      var up := SendTcp(Handshake(kn), ACK, [], ok, now);
      && Streams(up) && |up.h.tx| == 2 && IsSyn(up.h.tx[0]) && IsHandshakeAck(up.h.tx[1])
      && (ok ==> Confirmed(up))
  {
    hide DataOf, Tiled, Resets, LastOk;
    Add32Counts(0, 1);
    Add32Counts(kn.rxSeq, 0);
    TxSnoc(kn.h.tx, SegmentOf(Handshake(kn), ACK, [], ok, now));
  }

  lemma AcceptKeeps(kn: Conn, payload: seq<byte>)
    requires Streams(kn) && !Overflows(kn, payload)
    ensures Streams(Accept(kn, payload))
  {
    hide DataOf, Tiled, Resets, LastOk;
    Add32Counts(kn.h.isn + |kn.h.accepted|, |payload|);
  }

  lemma WroteKeeps(kn: Conn, n: nat)
    requires Streams(kn) && n <= |kn.ib|
    ensures Streams(Wrote(kn, n))
  {
    hide DataOf, Tiled, Resets, LastOk;
    Add32Counts(1 + |kn.h.delivered|, n);
    assert kn.ib == kn.ib[..n] + kn.ib[n..];
    assert Wrote(kn, n).h.accepted == Wrote(kn, n).h.delivered + Wrote(kn, n).ib;
  }

  /** Sending what was just read keeps the segments tiled, whatever the device acknowledged or advertised. */
  lemma DataSegmentKeeps(kn: Conn, data: seq<byte>, now: nat)
    requires Streams(kn) && 0 < |data| <= Sendable(kn)
    ensures
      var sent := Advance(SendTcp(Took(kn, data), ACK, data, true, now), |data|);
      Streams(sent) && Confirmed(sent)
  {
    hide DataOf, Tiled, Resets, LastOk;
    var s := SegmentOf(Took(kn, data), ACK, data, true, now);
    Add32Counts(1 + |kn.h.taken|, |data|);
    TxSnoc(kn.h.tx, s);
    DataFits(kn, |data|);
  }

  /** Reading and failing to send leaves a connection fit only to be released. */
  lemma DataSegmentLost(kn: Conn, data: seq<byte>, now: nat)
    requires Streams(kn) && 0 < |data| <= Sendable(kn)
    ensures Doomed(SendTcp(Took(kn, data), ACK, data, false, now))
  {
    hide DataOf, Tiled, Resets, LastOk;
    TxSnoc(kn.h.tx, SegmentOf(Took(kn, data), ACK, data, false, now));
    DataFits(kn, |data|);
  }

  /** The window holds for every acknowledgement number the device may have sent, sensible or not. */
  lemma DataFits(kn: Conn, n: nat)
    requires 0 < n <= Sendable(kn)
    ensures Sub32(Add32(kn.txSeq, n), kn.rxAck) == InFlight(kn) + n
    ensures InFlight(kn) + n <= kn.rxWin
    ensures n <= MAX_PAYLOAD && n <= CONN_OUTBUF_SIZE
  {
  }
}
