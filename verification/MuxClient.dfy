/** struct mux_client and the functions of src/client.c that update it in place. */
module MuxClients {
  import opened Basics
  import opened ClientMessage
  import opened CommandFraming
  import opened Environment
  import opened Memory
  import L = Client

  const REPLY_BUF_SIZE := 0x10000

  /** The new capacity that output_buffer_add_message asks for, in unbounded and in 32-bit arithmetic. */
  function Grown(capacity: nat, extra: nat): (n: nat)
    ensures n >= capacity + extra
  {
    (capacity + extra + 4096) / 4096 * 4096
  }

  function Grown32(capacity: u32, extra: u32): nat { Add32(Add32(capacity, extra), 4096) / 4096 * 4096 }

  /** The 32-bit capacity is the unbounded one if and only if the sum fits; otherwise it is too small for the queue
      and the message together. */
  lemma GrowthFits(capacity: u32, extra: u32)
    ensures Grown32(capacity, extra) == Grown(capacity, extra) <==> capacity + extra + 4096 < WORD32
    ensures capacity + extra + 4096 >= WORD32 ==> Grown32(capacity, extra) < capacity + extra
  {
  }

  lemma Pieces(s: seq<byte>, header: seq<byte>, payload: seq<byte>)
    ensures s + header + payload == s + (header + payload)
  {
  }

  class MuxClient {
    var state: L.ClientState
    var obBuf: array<byte>
    var obSize: nat
    const ibBuf: array<byte>
    var ibSize: nat
    var events: Mask
    var devents: Mask
    var connectTag: u32
    var connectDev: nat
    var proto: u32
    ghost var h: L.ClientHistory

    ghost predicate Valid()
      reads this, ibBuf
    {
      && obSize <= obBuf.Length && obBuf != ibBuf
      && ibBuf.Length == CMD_BUF_SIZE && ibSize <= ibBuf.Length && Idle(ibBuf[..ibSize])
    }

    ghost function View(): L.Client
      reads this, obBuf, ibBuf
      requires Valid()
    {
      L.Client(state, obBuf[..obSize], ibBuf[..ibSize], events, devents, connectTag, connectDev, proto, h)
    }

    /** The structure and its buffers. */
    ghost function Parts(): set<object>
      reads this
    {
      {this, obBuf, ibBuf}
    }

    /** client_accept */
    constructor ()
      ensures Valid() && fresh(Parts() - {this}) && View() == L.NEW_CLIENT
    {
      state, events, devents := L.Commanding, Mask(true, false), Mask(false, false);
      connectTag, connectDev, proto := 0, 0, 0;
      obBuf, obSize := new byte[REPLY_BUF_SIZE], 0;
      ibBuf, ibSize := new byte[CMD_BUF_SIZE], 0;
      h := L.ClientHistory([], [], [], [], [], None, false, 0);
    }

    /** The growth step of output_buffer_add_message: the new buffer holds the old contents and has room for
        `extra` more bytes. */
    method Reserve(extra: nat)
      requires Valid()
      modifies this`obBuf
      ensures Valid() && View() == old(View())
      ensures obSize + extra <= obBuf.Length && (obBuf == old(obBuf) || fresh(obBuf))
    {
      hide Idle;
      var available := obBuf.Length - obSize;
      if available < extra {
        var bigger := new byte[Grown(obBuf.Length, extra)];
        MemCopy(bigger, 0, obBuf[..obSize]);
        obBuf := bigger;
      }
    }

    /** Copy bytes to the end of the queue. */
    method Put(s: seq<byte>)
      requires Valid() && obSize + |s| <= obBuf.Length
      modifies this`obSize, obBuf
      ensures Valid() && View() == old(View()).(ob := old(View()).ob + s) && obSize == old(obSize) + |s|
    {
      hide Idle;
      MemCopy(obBuf, obSize, s);
      obSize := obSize + |s|;
    }

    /** output_buffer_add_message */
    method AddMessage(env: Env, tag: u32, body: Body)
      requires Valid()
      modifies this, obBuf
      ensures Valid() && View() == L.Enqueue(env, old(View()), tag, body)
      ensures obBuf == old(obBuf) || fresh(obBuf)
    {
      hide Kind, Payload, Idle, LE32;
      var payload := Payload(env.xml, proto, body);
      var length := HEADER_SIZE + |payload|;
      var header := LE32(length) + LE32(proto) + LE32(Kind(proto, body)) + LE32(tag);
      Reserve(length);
      Put(header);
      Put(payload);
      Pieces(old(View()).ob, header, payload);
      events := events.(pollOut := true);
      h := h.(msgs := h.msgs + [Msg(proto, tag, body)]);
    }

    /** output_buffer_process, given that send wrote n bytes. */
    method OutputProcess(n: nat)
      requires Valid() && 0 < n <= obSize
      modifies this`obSize, this`state, this`events, this`h, obBuf
      ensures Valid() && View() == L.Sent(old(View()), n)
    {
      hide Idle;
      h := h.(sent := h.sent + obBuf[..n]);
      if n == obSize {
        obSize := 0;
        events := events.(pollOut := false);
        if state.Connecting2? {
          state := L.Joined;
          events := devents;
          h := h.(joined := true);
        }
      } else {
        obSize := obSize - n;
        MoveToFront(obBuf, n, obSize);
      }
    }

    /** client_set_events */
    method SetEvents(mask: Mask) returns (ok: bool)
      requires Valid()
      modifies this`events, this`devents
      ensures Valid() && View() == L.SetEvents(old(View()), mask)
      ensures ok == (state.Joined? || state.Connecting2?)
    {
      hide Idle;
      if !state.Joined? && !state.Connecting2? {
        return false;
      }
      devents := mask;
      if state.Joined? {
        events := mask;
      }
      ok := true;
    }

    /** client_notify_connect */
    method NotifyConnect(env: Env, code: u32) returns (ok: bool)
      requires Valid()
      modifies this, obBuf
      ensures Valid() && ok == L.Notify(env, old(View()), code).Some?
      ensures View() == if ok then L.Notify(env, old(View()), code).value else old(View())
      ensures obBuf == old(obBuf) || fresh(obBuf)
    {
      hide Payload, Encode, Wire;
      if !state.Connecting1? {
        return false;
      }
      AddMessage(env, connectTag, Result(code));
      if code == RESULT_OK {
        state := L.Connecting2;
        events := Mask(false, true);
        h := h.(lost := ibBuf[..ibSize]);
        ibSize := 0;
      } else {
        state := L.Commanding;
      }
      ok := true;
    }

    /** input_buffer_process up to the call of handle_command, given what recv returned. */
    method InputProcess(got: seq<byte>) returns (r: Framed)
      requires Valid() && 0 < |got| <= Need(View().ib)
      modifies this`ibSize, this`h, ibBuf
      ensures Valid() && r == Receive(old(View()).ib, got)
      ensures r.Partial? ==> View() == L.Buffered(old(View()), got, r.ib)
      ensures r.BadLength? ==> View() == L.Spoilt(old(View()), got)
      ensures r.Command? ==> View() == L.Commanded(old(View()), got, r.msg)
    {
      ghost var before := ibBuf[..ibSize];
      MemCopy(ibBuf, ibSize, got);
      ibSize := ibSize + |got|;
      h := h.(received := h.received + got);
      var all := ibBuf[..ibSize];
      assert all == before + got;
      if ibSize < HEADER_SIZE {
        return Partial(all);
      }
      var length := LengthOf(all);
      if length > CMD_BUF_SIZE || length < HEADER_SIZE {
        ibSize := 0; // never read again: the client is closed
        return BadLength;
      }
      if ibSize < length {
        return Partial(all);
      }
      h := h.(cmds := h.cmds + [all]);
      ibSize := 0;
      return Command(all);
    }

    /** handle_command once device_start_connect has succeeded; k is the new connection. */
    method BeginConnect(tag: u32, d: nat, ghost k: nat)
      requires Valid()
      modifies this`connectTag, this`connectDev, this`state, this`h
      ensures Valid()
      ensures View() == old(View()).(connectTag := tag, connectDev := d, state := L.Connecting1,
                                     h := old(h).(conn := Some(k)))
    {
      hide Idle;
      connectTag, connectDev, state := tag, d, L.Connecting1;
      h := h.(conn := Some(k));
    }

    /** client_write and client_read on a joined client. */
    method Wrote(ghost data: seq<byte>)
      requires Valid()
      modifies this`h
      ensures Valid() && View() == L.RawSent(old(View()), data)
    {
      h := h.(sent := h.sent + data);
    }

    method Took(ghost data: seq<byte>)
      requires Valid()
      modifies this`h
      ensures Valid() && View() == L.RawReceived(old(View()), data)
    {
      h := h.(received := h.received + data);
    }
  }
}
