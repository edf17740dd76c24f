/** How input_buffer_process cuts a client's byte stream into commands (src/client.c:906-955). */
module CommandFraming {
  import opened Basics
  import opened ClientMessage

  const CMD_BUF_SIZE := 0x10000

  /** The states of the input buffer between calls: the header, or the announced message, is incomplete. */
  predicate Idle(ib: seq<byte>)
  {
    |ib| < HEADER_SIZE || (HEADER_SIZE <= LengthOf(ib) <= CMD_BUF_SIZE && |ib| < LengthOf(ib))
  }

  type InBuffer = ib: seq<byte> | Idle(ib) witness []

  /** How many bytes the next recv asks for. */
  function Need(ib: InBuffer): (n: nat)
    ensures n > 0
  {
    if |ib| < HEADER_SIZE then HEADER_SIZE - |ib| else LengthOf(ib) - |ib|
  }

  datatype Framed = Partial(ib: InBuffer) | Command(msg: seq<byte>) | BadLength

  /** A message whose header announces its length. */
  predicate Whole(m: seq<byte>)
  {
    HEADER_SIZE <= |m| <= CMD_BUF_SIZE && LengthOf(m) == |m|
  }

  lemma WholeDecodes(msg: seq<byte>)
    requires Whole(msg)
    ensures Decode(msg).Some?
  {
  }

  /** One call of input_buffer_process whose recv returned `got`. */
  function Receive(ib: InBuffer, got: seq<byte>): (r: Framed)
    requires 0 < |got| <= Need(ib)
    ensures r.Command? ==> Whole(r.msg)
  {
    var all := ib + got;
    assert |ib| >= HEADER_SIZE ==> all[0..4] == ib[0..4];
    if |all| < HEADER_SIZE then Partial(all)
    else if LengthOf(all) > CMD_BUF_SIZE || LengthOf(all) < HEADER_SIZE then BadLength
    else if |all| < LengthOf(all) then Partial(all)
    else Command(all)
  }

  /** Once the header is there, a length is impossible if and only if it is below 16 or above 65536. */
  lemma LengthsAreLimited(ib: InBuffer, got: seq<byte>)
    requires 0 < |got| <= Need(ib) && |ib| + |got| >= 16
    ensures Receive(ib, got).BadLength? <==> FirstWord(ib + got) < 16 || FirstWord(ib + got) > 65536
  {
  }

  /** The next recv may bring the rest of the header, or of the message once that is known, and no more. */
  lemma NeedIsTheRest(m: seq<byte>, ib: InBuffer)
    requires Whole(m) && ib <= m && ib != m
    ensures |ib| + Need(ib) == if |ib| < 16 then 16 else |m|
    ensures |ib| + Need(ib) == |m| ==> Receive(ib, m[|ib|..]) == Command(m)
  {
    assert |ib| >= 16 ==> ib[0..4] == m[0..4];
    assert ib + m[|ib|..] == m;
  }

  /** What handle_command has been given so far, and what is still in the buffer. */
  datatype Intake = Intake(cmds: seq<seq<byte>>, ib: InBuffer, open: bool)

  /** The calls of recv are answered as the socket interface promises: at least one byte, at most what was asked. */
  predicate Served(gots: seq<seq<byte>>)
    decreases |gots|, 0
  {
    gots == [] ||
    (var n := |gots| - 1;
     Served(gots[..n]) && (Feed(gots[..n]).open ==> 0 < |gots[n]| <= Need(Feed(gots[..n]).ib)))
  }

  /** One more recv; nothing is read from a client whose message had an impossible length. */
  function Take(t: Intake, got: seq<byte>): Intake
    requires t.open ==> 0 < |got| <= Need(t.ib)
  {
    if !t.open then t
    else match Receive(t.ib, got)
      case Partial(ib) => t.(ib := ib)
      case Command(m) => Intake(t.cmds + [m], [], true)
      case BadLength => t.(open := false)
  }

  function Feed(gots: seq<seq<byte>>): Intake
    requires Served(gots)
    decreases |gots|, 1
  {
    if gots == [] then Intake([], [], true) else Take(Feed(gots[..|gots| - 1]), gots[|gots| - 1])
  }

  /** The shape of the intake when the client sends `msgs`: whole messages, then a proper prefix of the next. */
  ghost predicate OnTrack(msgs: seq<seq<byte>>, t: Intake)
  {
    var n := |t.cmds|;
    && t.open
    && n <= |msgs|
    && t.cmds == msgs[..n]
    && (if n == |msgs| then t.ib == [] else t.ib <= msgs[n] && t.ib != msgs[n])
  }

  /** However recv splits the stream, handle_command sees exactly the messages sent, in order, and no byte
      beyond the end of a message is consumed with it. */
  lemma {:induction false} FramingIgnoresChunking(msgs: seq<seq<byte>>, gots: seq<seq<byte>>)
    requires forall i :: 0 <= i < |msgs| ==> Whole(msgs[i])
    requires Served(gots) && Concat(gots) <= Concat(msgs)
    ensures OnTrack(msgs, Feed(gots))
    ensures Concat(gots) == Concat(Feed(gots).cmds) + Feed(gots).ib
    ensures Concat(gots) == Concat(msgs) ==> Feed(gots).cmds == msgs && Feed(gots).ib == []
    decreases |gots|
  {
    hide Take, Need, Whole;
    if gots != [] {
      var n := |gots| - 1;
      FramingIgnoresChunking(msgs, gots[..n]);
      ReceiveTracks(msgs, Feed(gots[..n]), gots[n]);
    } else if msgs != [] {
      NotEmpty(msgs[0]);
    }
    if Concat(gots) == Concat(msgs) {
      NothingLeft(msgs, Feed(gots));
    }
  }

  lemma NotEmpty(m: seq<byte>)
    requires Whole(m)
    ensures m != []
  {
  }

  /** The stream from message n on starts with that message. */
  lemma HeadFits(msgs: seq<seq<byte>>, n: nat)
    requires n < |msgs|
    ensures Concat(msgs) == Concat(msgs[..n]) + Concat(msgs[n..])
    ensures msgs[n] <= Concat(msgs[n..])
  {
    hide Concat;
    assert msgs == msgs[..n] + msgs[n..];
    ConcatAppend(msgs[..n], msgs[n..]);
    assert msgs[n..] == [msgs[n]] + msgs[n + 1..];
    ConcatCons(msgs[n], msgs[n + 1..]);
  }

  lemma ReceiveTracks(msgs: seq<seq<byte>>, t: Intake, got: seq<byte>)
    requires forall i :: 0 <= i < |msgs| ==> Whole(msgs[i])
    requires OnTrack(msgs, t) && 0 < |got| <= Need(t.ib)
    requires Concat(t.cmds) + (t.ib + got) <= Concat(msgs)
    ensures OnTrack(msgs, Take(t, got))
    ensures Concat(Take(t, got).cmds) + Take(t, got).ib == Concat(t.cmds) + (t.ib + got)
  {
    hide Concat, Receive, Idle, Need, Whole, OnTrack;
    ReceiveInside(msgs, t, got);
    if t.ib + got == msgs[|t.cmds|] {
      CommandTracks(msgs, t, t.ib + got);
    } else {
      PartialTracks(msgs, t, t.ib + got);
    }
  }

  /** The message that was arriving is complete. */
  lemma CommandTracks(msgs: seq<seq<byte>>, t: Intake, m: seq<byte>)
    requires forall i :: 0 <= i < |msgs| ==> Whole(msgs[i])
    requires OnTrack(msgs, t) && |t.cmds| < |msgs| && m == msgs[|t.cmds|]
    ensures OnTrack(msgs, Intake(t.cmds + [m], [], true))
    ensures Concat(t.cmds + [m]) + [] == Concat(t.cmds) + m
  {
    hide Concat, Idle, Whole;
    var n := |t.cmds|;
    if n + 1 < |msgs| {
      NotEmpty(msgs[n + 1]);
    }
    ConcatSnoc(t.cmds, m);
    assert msgs[..n] + [msgs[n]] == msgs[..n + 1];
  }

  /** It is not. */
  lemma PartialTracks(msgs: seq<seq<byte>>, t: Intake, ib: InBuffer)
    requires OnTrack(msgs, t) && |t.cmds| < |msgs| && ib <= msgs[|t.cmds|] && ib != msgs[|t.cmds|]
    ensures OnTrack(msgs, t.(ib := ib))
  {
  }

  lemma ReceiveInside(msgs: seq<seq<byte>>, t: Intake, got: seq<byte>)
    requires forall i :: 0 <= i < |msgs| ==> Whole(msgs[i])
    requires OnTrack(msgs, t) && 0 < |got| <= Need(t.ib)
    requires Concat(t.cmds) + (t.ib + got) <= Concat(msgs)
    ensures t.open && |t.cmds| < |msgs| && t.ib + got <= msgs[|t.cmds|]
    ensures t.ib + got == msgs[|t.cmds|] ==> Receive(t.ib, got) == Command(t.ib + got)
    ensures t.ib + got != msgs[|t.cmds|] ==> Idle(t.ib + got) && Receive(t.ib, got) == Partial(t.ib + got)
  {
    hide Concat, Receive, Need, LengthOf;
    var n, all := |t.cmds|, t.ib + got;
    assert msgs[..|msgs|] == msgs;
    if n < |msgs| {
      HeadFits(msgs, n);
      AfterCommon(Concat(t.cmds), all, Concat(msgs[n..]));
      ReceiveWithin(msgs[n], Concat(msgs[n..]), t.ib, got);
    }
  }

  lemma AfterCommon(a: seq<byte>, b: seq<byte>, c: seq<byte>)
    requires a + b <= a + c
    ensures b <= c
  {
    assert forall i :: 0 <= i < |b| ==> b[i] == (a + b)[|a| + i] == (a + c)[|a| + i];
  }

  /** While a whole message is arriving, a recv stays within it and only its last byte completes it. */
  lemma ReceiveWithin(m: seq<byte>, rest: seq<byte>, ib: InBuffer, got: seq<byte>)
    requires Whole(m) && m <= rest && ib <= m && ib != m
    requires 0 < |got| <= Need(ib) && ib + got <= rest
    ensures ib + got <= m
    ensures ib + got == m ==> Receive(ib, got) == Command(m)
    ensures ib + got != m ==> Idle(ib + got) && Receive(ib, got) == Partial(ib + got)
  {
    var all := ib + got;
    if |ib| >= HEADER_SIZE {
      assert ib[0..4] == m[0..4];
    }
    assert |all| <= |m|;
    assert all == m[..|all|];
    if |all| >= HEADER_SIZE {
      assert all[0..4] == m[0..4];
    }
  }

  lemma NothingLeft(msgs: seq<seq<byte>>, t: Intake)
    requires forall i :: 0 <= i < |msgs| ==> Whole(msgs[i])
    requires OnTrack(msgs, t) && Concat(t.cmds) + t.ib == Concat(msgs)
    ensures t.cmds == msgs && t.ib == []
  {
    var n := |t.cmds|;
    if n < |msgs| {
      HeadFits(msgs, n);
    } else {
      assert msgs[..n] == msgs;
    }
  }

  /** A stream can be cut into whole messages in one way only. */
  lemma {:induction false} FramingIsUnique(cmds: seq<seq<byte>>, ib: seq<byte>, msgs: seq<seq<byte>>)
    requires forall i :: 0 <= i < |cmds| ==> Whole(cmds[i])
    requires forall i :: 0 <= i < |msgs| ==> Whole(msgs[i])
    requires Concat(cmds) + ib <= Concat(msgs)
    ensures cmds <= msgs
    decreases |cmds|
  {
    if cmds != [] {
      hide Concat, Whole;
      var m, cmds' := cmds[0], cmds[1..];
      assert cmds == [m] + cmds';
      ConcatCons(m, cmds');
      assert Whole(m);
      NotEmpty(m);
      if msgs == [] {
        ConcatNil();
      } else {
        var n, msgs' := msgs[0], msgs[1..];
        assert msgs == [n] + msgs';
        ConcatCons(n, msgs');
        assert m + (Concat(cmds') + ib) == (m + Concat(cmds')) + ib;
        FirstWhole(m, Concat(cmds') + ib, n, Concat(msgs'));
        FramingIsUnique(cmds', ib, msgs');
      }
    }
  }

  lemma FirstWhole(m: seq<byte>, s: seq<byte>, n: seq<byte>, t: seq<byte>)
    requires Whole(m) && Whole(n) && m + s <= n + t
    ensures m == n && s <= t
  {
    var a, b := m + s, n + t;
    assert m[0..4] == a[0..4] == b[0..4] == n[0..4];
    assert m == a[..|m|] == b[..|m|] == n;
    AfterCommon(m, s, t);
  }
}
