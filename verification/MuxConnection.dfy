/** struct mux_connection and the functions of src/device.c that update it in place. */
module MuxConnections {
  import opened Basics
  import opened MuxPacket
  import opened Memory
  import opened Environment
  import C = Connection

  class MuxConnection {
    const dev: nat
    var client: Option<nat>
    var state: C.ConnState
    const sport: u16
    const dport: u16
    var txSeq: u32
    var txAck: u32
    var txAcked: u32
    var rxSeq: u32
    var rxRecvd: u32
    var rxAck: u32
    var rxWin: u32
    var sendable: nat
    var ackPending: bool
    const ibBuf: array<byte>
    var ibSize: nat
    var events: Mask
    var lastAck: nat
    ghost var h: C.ConnHistory

    ghost predicate Valid()
      reads this
    {
      ibBuf.Length == C.CONN_INBUF_SIZE && ibSize <= ibBuf.Length
    }

    /** The structure and its buffer. */
    ghost function Parts(): set<object> { {this, ibBuf} }

    ghost function View(): C.Conn
      reads this, ibBuf
      requires Valid()
    {
      C.Conn(dev, client, state, sport, dport, txSeq, txAck, txAcked, rxSeq, rxRecvd, rxAck, rxWin,
             sendable, ackPending, ibBuf[..ibSize], events, lastAck, h)
    }

    /** device_start_connect */
    constructor (d: nat, c: nat, sp: u16, dp: u16, ghost born: nat)
      ensures Valid() && fresh(ibBuf) && View() == C.NewConn(d, c, sp, dp, born)
    {
      dev, client, state, sport, dport := d, Some(c), C.Connecting, sp, dp;
      txSeq, txAck, txAcked, rxSeq, rxRecvd, rxAck, rxWin := 0, 0, 0, 0, 0, 0, 0;
      sendable, ackPending, events, lastAck := 0, false, Mask(false, false), 0;
      ibBuf, ibSize := new byte[C.CONN_INBUF_SIZE], 0;
      h := C.NewHistory(C.Line(d, sp, dp, born));
    }

    /** send_tcp, once send_packet has returned. */
    method SendTcp(flags: byte, data: seq<byte>, ok: bool, now: nat) returns (th: TcpHeader)
      requires Valid()
      modifies this
      ensures Valid() && View() == C.SendTcp(old(View()), flags, data, ok, now)
      ensures th == C.SegmentHeader(old(View()), flags)
    {
      th := TcpHeader(sport, dport, txSeq, txAck, flags, C.TX_WIN / 256);
      h := h.(tx := h.tx + [C.SegmentOf(View(), flags, data, ok, now)]);
      if ok {
        txAcked := txAck;
        lastAck := now;
        ackPending := false;
      }
    }

    /** update_connection */
    method UpdateConnection()
      requires Valid()
      modifies this`sendable, this`events, this`ackPending
      ensures Valid() && View() == C.Update(old(View()))
    {
      var sent := Sub32(txSeq, rxAck);
      if rxWin > sent {
        sendable := rxWin - sent;
      } else {
        sendable := 0;
      }
      if sendable > C.CONN_OUTBUF_SIZE {
        sendable := C.CONN_OUTBUF_SIZE;
      }
      if sendable > C.MAX_PAYLOAD {
        sendable := C.MAX_PAYLOAD;
      }
      events := events.(pollIn := sendable > 0);
      events := events.(pollOut := ibSize != 0);
      ackPending := txAcked != txAck;
    }

    /** connection_device_input */
    method DeviceInput(payload: seq<byte>) returns (ok: bool)
      requires Valid()
      modifies this, ibBuf
      ensures Valid() && ok == !C.Overflows(old(View()), payload)
      ensures View() == if ok then C.Accept(old(View()), payload) else old(View())
    {
      if ibSize + |payload| > ibBuf.Length {
        return false;
      }
      MemCopy(ibBuf, ibSize, payload);
      ibSize := ibSize + |payload|;
      rxRecvd := Add32(rxRecvd, |payload|);
      h := h.(accepted := h.accepted + payload);
      ok := true;
    }

    /** Take n bytes off the front of the input buffer. */
    method Drop(n: nat)
      requires Valid() && n <= ibSize
      modifies this`ibSize, ibBuf
      ensures Valid() && ibSize == old(ibSize) - n && ibBuf[..ibSize] == old(ibBuf[n..ibSize])
    {
      if n == ibSize {
        ibSize := 0;
      } else {
        ibSize := ibSize - n;
        MoveToFront(ibBuf, n, ibSize);
      }
    }

    /** The POLLOUT arm of device_client_process. */
    method Wrote(n: nat)
      requires Valid() && n <= ibSize
      modifies this, ibBuf
      ensures Valid() && View() == C.Wrote(old(View()), n)
    {
      h := h.(delivered := h.delivered + ibBuf[..n]);
      txAck := Add32(txAck, n);
      Drop(n);
    }

    /** The first lines of device_tcp_input for a matching connection. */
    method NoteHeader(th: TcpHeader)
      requires Valid()
      modifies this`rxSeq, this`rxAck, this`rxWin, this`h
      ensures Valid() && View() == C.NoteHeader(old(View()), th) && View().ib == old(View().ib)
    {
      rxSeq := th.seqno;
      rxAck := th.ackno;
      rxWin := th.win * 256;
      h := h.(heard := th, gotRst := h.gotRst || HasRst(th.flags));
    }

    /** The SYN/ACK arm of device_tcp_input. */
    method Handshake()
      requires Valid()
      modifies this`txSeq, this`txAck, this`rxRecvd, this`h
      ensures Valid() && View() == C.Handshake(old(View()))
    {
      txSeq := Add32(txSeq, 1);
      txAck := Add32(txAck, 1);
      rxRecvd := rxSeq;
      h := h.(isn := h.heard.seqno);
    }

    /** What client_read returned, and the counter once it was sent. */
    method Took(ghost data: seq<byte>)
      requires Valid()
      modifies this`h
      ensures Valid() && View() == C.Took(old(View()), data)
    {
      h := h.(taken := h.taken + data);
    }

    method Advance(n: nat)
      requires Valid()
      modifies this`txSeq
      ensures Valid() && View() == C.Advance(old(View()), n)
    {
      txSeq := Add32(txSeq, n);
    }

    /** One successful write of the flush loop. */
    method FlushSome(n: nat)
      requires Valid() && n <= ibSize
      modifies this`h, this`ibSize, ibBuf
      ensures Valid() && ibSize == old(ibSize) - n && View() == C.Flushed(old(View()), n)
    {
      h := h.(delivered := h.delivered + ibBuf[..n], flushed := h.flushed + n);
      Drop(n);
    }

    /** The flush loop of connection_teardown. */
    method Flush(s: FlushScript) returns (n: nat)
      requires Valid()
      modifies this`h, this`ibSize, ibBuf
      ensures Valid() && n == Flushable(s, |old(View()).ib|, 0, 1, s.clock(0))
      ensures View() == C.Flushed(old(View()), n)
    {
      hide C.Flushed;
      n := 0;
      ghost var start := View();
      C.FlushNothing(start);
      var calls: nat, ticks: nat, last: nat := 0, 1, s.clock(0);
      while ibSize > 0
        invariant Valid() && ibSize + n == |start.ib|
        invariant View() == C.Flushed(start, n)
        invariant n + Flushable(s, ibSize, calls, ticks, last) == Flushable(s, |start.ib|, 0, 1, s.clock(0))
        decreases ibSize, if s.clock(ticks) > last + 1000 then 0 else last + 1001 - s.clock(ticks)
      {
        var size := Min(s.writes(calls), ibSize);
        calls := calls + 1;
        if size < 0 {
          break;
        } else if size == 0 {
          var now := s.clock(ticks);
          if now - last > 1000 {
            break;
          }
        } else {
          FlushSome(size);
          FlushTwice(start, n, size);
          n := n + size;
          last := s.clock(ticks);
        }
        ticks := ticks + 1;
      }
    }
  }

  /** Bytes keep their order however the flush is cut. */
  lemma FlushTwice(kn: C.Conn, n: nat, m: nat)
    requires n + m <= |kn.ib|
    ensures C.Flushed(C.Flushed(kn, n), m) == C.Flushed(kn, n + m)
  {
    assert kn.ib[n..][m..] == kn.ib[n + m..];
    assert kn.h.delivered + kn.ib[..n] + kn.ib[n..][..m] == kn.h.delivered + kn.ib[..n + m];
  }
}
