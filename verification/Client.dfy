/** One client of the daemon (struct mux_client and the functions of src/client.c that update it), as a value.
    The field `h` is a history: the daemon's code never reads it. */
module Client {
  import opened Basics
  import opened ClientMessage
  import opened CommandFraming
  import opened Environment

  datatype ClientState = Commanding | Listening | Connecting1 | Connecting2 | Joined | Gone

  datatype ClientHistory = ClientHistory(
    received: seq<byte>,      // every byte read from the socket
    sent: seq<byte>,          // every byte written to the socket
    msgs: seq<Msg>,           // every message queued
    cmds: seq<seq<byte>>,     // every message given to handle_command
    lost: seq<byte>,          // what the input buffer held when it was discarded
    conn: Option<nat>,        // the connection last started
    joined: bool,             // the raw stream has started
    frees: nat)               // how often the structure was freed

  datatype Client = Client(
    state: ClientState, ob: seq<byte>, ib: InBuffer, events: Mask, devents: Mask,
    connectTag: u32, connectDev: nat, proto: u32, h: ClientHistory)

  /** client_accept */
  const NEW_CLIENT := Client(Commanding, [], [], Mask(true, false), Mask(false, false), 0, 0, 0,
                             ClientHistory([], [], [], [], [], None, false, 0))

  /** output_buffer_add_message */
  function Enqueue(env: Env, cl: Client, tag: u32, body: Body): Client
  {
    var m := Msg(cl.proto, tag, body);
    cl.(ob := cl.ob + Encode(Wire(env.xml, m)), events := cl.events.(pollOut := true),
        h := cl.h.(msgs := cl.h.msgs + [m]))
  }

  /** client_notify_connect; None when its state checks fail. */
  function Notify(env: Env, cl: Client, code: u32): Option<Client>
  {
    if !cl.state.Connecting1? then None
    else
      var told := Enqueue(env, cl, cl.connectTag, Result(code));
      if code == RESULT_OK
      then Some(told.(state := Connecting2, events := Mask(false, true), ib := [], h := told.h.(lost := cl.ib)))
      else Some(told.(state := Commanding))
  }

  /** client_set_events */
  function SetEvents(cl: Client, events: Mask): Client
  {
    if cl.state.Joined? then cl.(devents := events, events := events)
    else if cl.state.Connecting2? then cl.(devents := events)
    else cl
  }

  /** output_buffer_process when send wrote n bytes. */
  function Sent(cl: Client, n: nat): Client
    requires 0 < n <= |cl.ob|
  {
    var out := cl.(ob := cl.ob[n..], h := cl.h.(sent := cl.h.sent + cl.ob[..n]));
    if n < |cl.ob| then out
    else if cl.state.Connecting2? then out.(state := Joined, events := cl.devents, h := out.h.(joined := true))
    else out.(events := cl.events.(pollOut := false))
  }

  /** client_write and client_read on a joined client. */
  function RawSent(cl: Client, data: seq<byte>): Client { cl.(h := cl.h.(sent := cl.h.sent + data)) }
  function RawReceived(cl: Client, data: seq<byte>): Client { cl.(h := cl.h.(received := cl.h.received + data)) }

  /** input_buffer_process up to the call of handle_command: an impossible length, more of a command, or all of it.
      The buffer of a client that is about to be closed is shown empty. */
  function Spoilt(cl: Client, got: seq<byte>): Client { RawReceived(cl, got).(ib := []) }

  function Buffered(cl: Client, got: seq<byte>, ib: InBuffer): Client
  {
    cl.(ib := ib, h := cl.h.(received := cl.h.received + got))
  }

  function Commanded(cl: Client, got: seq<byte>, msg: seq<byte>): Client
  {
    cl.(ib := [], h := cl.h.(received := cl.h.received + got, cmds := cl.h.cmds + [msg]))
  }

  // ---- Commands ----

  datatype Order = Silent | Refuse(code: u32) | Answer | ListDevices | Listen | Connect

  /** How handle_command reads a message in the state CLIENT_COMMAND. */
  function Interpret(env: Env, m: Raw): Order
  {
    if m.version != 0 && m.version != 1 then Refuse(RESULT_BADVERSION)
    else if m.kind == MESSAGE_PLIST then
      match env.plist(m.payload)
      case Malformed => Silent
      case ListenRequest => Listen
      case ConnectRequest(None, _) => Refuse(RESULT_BADDEV)
      case ConnectRequest(Some(_), None) => Refuse(RESULT_BADCOMMAND)
      case ConnectRequest(Some(_), Some(_)) => Connect
      case DeviceListRequest => ListDevices
      case Query => Answer
      case UnknownRequest => Refuse(RESULT_BADCOMMAND)
    else if m.kind == MESSAGE_LISTEN then Listen
    else if m.kind == MESSAGE_CONNECT then Connect
    else Refuse(RESULT_BADCOMMAND)
  }

  datatype Target = Target(dev: nat, port: u16)

  /** The device and port that a Connect command names. The binary form is read as a structure, past the end of a
      message that is too short. */
  function Named(env: Env, m: Raw, stale: Leftover): Target
  {
    var asked := env.plist(m.payload);
    if m.kind == MESSAGE_PLIST && asked.ConnectRequest? && asked.dev.Some? && asked.port.Some?
    then Target(asked.dev.value, asked.port.value)
    else
      var s := m.payload + stale;
      Target(UnLE32(s[0..4]), UnBE16(s[4..6]))
  }

  /** A plist command switches the client to plist replies for good. */
  predicate IsPlist(m: Raw) { (m.version == 0 || m.version == 1) && m.kind == MESSAGE_PLIST }

  function Spoken(cl: Client, m: Raw): Client { if IsPlist(m) then cl.(proto := 1) else cl }

  /** The protocol version of the replies after these commands. */
  function Speaks(cmds: seq<seq<byte>>): u32
  {
    if cmds == [] then 0
    else if Decode(cmds[|cmds| - 1]).Some? && IsPlist(Decode(cmds[|cmds| - 1]).value) then 1
    else Speaks(cmds[..|cmds| - 1])
  }

  /** A command that is owed a reply. */
  datatype Due = Due(tag: u32, order: Order, version: u32)

  function DueFor(env: Env, cmd: seq<byte>, version: u32): seq<Due>
  {
    match Decode(cmd)
    case None => []
    case Some(m) => if Interpret(env, m).Silent? then [] else [Due(m.tag, Interpret(env, m), version)]
  }

  function Dues(env: Env, cmds: seq<seq<byte>>): seq<Due>
  {
    if cmds == [] then [] else Dues(env, cmds[..|cmds| - 1]) + DueFor(env, cmds[|cmds| - 1], Speaks(cmds))
  }

  /** A reply echoes the tag, uses the form the client asked for and says what the command may be told. */
  predicate Answers(d: Due, m: Msg)
  {
    && m.tag == d.tag && m.version == d.version
    && match d.order
       case Silent => false
       case Refuse(code) => m.body == Result(code)
       case Answer => m.body.Data? || m.body.Result?
       case ListDevices => m.body.DeviceList?
       case Listen => m.body == Result(RESULT_OK)
       case Connect => m.body in {Result(RESULT_OK), Result(RESULT_BADDEV), Result(RESULT_CONNREFUSED)}
  }

  /** Every command has had its one reply, in order, except those in `open`, which came last. */
  predicate Answered(env: Env, h: ClientHistory, open: seq<Due>)
  {
    var due, got := Dues(env, h.cmds), Replies(h.msgs);
    && |due| == |got| + |open|
    && due[|got|..] == open
    && forall i :: 0 <= i < |got| ==> Answers(due[i], got[i])
  }

  /** The one command without a reply is a Connect with this tag. */
  predicate Awaits(env: Env, h: ClientHistory, tag: u32)
  {
    var due, got := Dues(env, h.cmds), Replies(h.msgs);
    && |due| == |got| + 1
    && due[|got|].tag == tag && due[|got|].order.Connect? && due[|got|].version == Speaks(h.cmds)
    && Answered(env, h, [due[|got|]])
  }

  lemma DuesSnoc(env: Env, cmds: seq<seq<byte>>, cmd: seq<byte>)
    ensures Dues(env, cmds + [cmd]) == Dues(env, cmds) + DueFor(env, cmd, Speaks(cmds + [cmd]))
    ensures Speaks(cmds + [cmd]) == if Decode(cmd).Some? && IsPlist(Decode(cmd).value) then 1 else Speaks(cmds)
  {
    assert (cmds + [cmd])[..|cmds|] == cmds;
  }

  // ---- The invariants ----

  predicate AllWhole(cmds: seq<seq<byte>>) { forall i :: 0 <= i < |cmds| ==> Whole(cmds[i]) }

  /** A client that still speaks in messages: the queue holds what has not been sent, the buffer what has not
      been handled, and POLLOUT is armed exactly when there is something to send. */
  predicate Talking(env: Env, cl: Client)
  {
    && cl.h.sent + cl.ob == Stream(env.xml, cl.h.msgs)
    && cl.h.received == Concat(cl.h.cmds) + cl.ib
    && AllWhole(cl.h.cmds)
    && cl.proto == Speaks(cl.h.cmds)
    && cl.events == Mask(true, cl.ob != [])
    && AnnouncedOnce(cl.h.msgs)
    && cl.h.lost == [] && !cl.h.joined && cl.h.frees == 0
  }

  /** A client without a connection. */
  predicate Single(env: Env, cl: Client)
  {
    && (cl.state.Commanding? || cl.state.Listening?)
    && Talking(env, cl)
    && Answered(env, cl.h, [])
    && (cl.state.Commanding? ==> Seen(cl.h.msgs) == {})
  }

  /** The last command given to handle_command is a Connect with this tag. */
  predicate EndsInConnect(env: Env, cmds: seq<seq<byte>>, tag: u32)
  {
    && |cmds| > 0
    && var m := Decode(cmds[|cmds| - 1]);
       m.Some? && m.value.tag == tag && Interpret(env, m.value).Connect?
  }

  /** A client whose Connect command waits for the device. */
  predicate Pending(env: Env, cl: Client)
  {
    && cl.state.Connecting1?
    && Talking(env, cl)
    && Awaits(env, cl.h, cl.connectTag) && EndsInConnect(env, cl.h.cmds, cl.connectTag)
    && Seen(cl.h.msgs) == {}
  }

  /** The last message queued is the Result OK of the Connect command. */
  predicate ToldOk(cl: Client)
  {
    |cl.h.msgs| > 0 && cl.h.msgs[|cl.h.msgs| - 1].tag == cl.connectTag
    && cl.h.msgs[|cl.h.msgs| - 1].body == Result(RESULT_OK)
  }

  /** The same of a history: its last command is a Connect and its last message says that it succeeded. */
  predicate Granted(env: Env, h: ClientHistory)
  {
    && |h.cmds| > 0 && |h.msgs| > 0
    && EndsInConnect(env, h.cmds, h.msgs[|h.msgs| - 1].tag) && h.msgs[|h.msgs| - 1].body == Result(RESULT_OK)
  }

  /** A client whose connection is up, while the reply that says so has not been sent completely. */
  predicate Joining(env: Env, cl: Client)
  {
    && cl.state.Connecting2?
    && cl.h.sent + cl.ob == Stream(env.xml, cl.h.msgs) && cl.ob != []
    && cl.h.received == Concat(cl.h.cmds) + cl.h.lost
    && AllWhole(cl.h.cmds)
    && cl.events == Mask(false, true)
    && Answered(env, cl.h, []) && ToldOk(cl) && EndsInConnect(env, cl.h.cmds, cl.connectTag)
    && !cl.h.joined && cl.h.frees == 0
  }

  /** A client in the raw stream phase, given what went each way. */
  predicate InStream(env: Env, cl: Client, delivered: seq<byte>, taken: seq<byte>)
  {
    && cl.state.Joined?
    && cl.ob == [] && cl.h.sent == Stream(env.xml, cl.h.msgs) + delivered
    && cl.h.received == Concat(cl.h.cmds) + cl.h.lost + taken
    && AllWhole(cl.h.cmds)
    && cl.events == cl.devents
    && Answered(env, cl.h, []) && ToldOk(cl) && EndsInConnect(env, cl.h.cmds, cl.connectTag)
    && cl.h.joined && cl.h.frees == 0
  }

  /** The answer to a command that came at the wrong time, which is the last thing a client is told. */
  predicate IsRebuke(h: ClientHistory, m: Msg)
  {
    && m.body == Result(RESULT_BADCOMMAND)
    && |h.cmds| > 0 && Decode(h.cmds[|h.cmds| - 1]).Some? && Decode(h.cmds[|h.cmds| - 1]).value.tag == m.tag
  }

  /** The replies answer the commands in order; only the last may be a rebuke instead. */
  predicate Ordered(env: Env, h: ClientHistory)
  {
    var due, got := Dues(env, h.cmds), Replies(h.msgs);
    forall i :: 0 <= i < |got| ==> (i < |due| && Answers(due[i], got[i])) || (i == |got| - 1 && IsRebuke(h, got[i]))
  }

  /** What holds of a client that is closed before it joined. */
  predicate Quits(env: Env, h: ClientHistory)
  {
    && h.sent <= Stream(env.xml, h.msgs)
    && Concat(h.cmds) + h.lost <= h.received
    && Ordered(env, h)
    && !h.joined && h.frees == 0
  }

  // ---- One lemma per operation ----

  lemma EnqueueGrows(env: Env, cl: Client, tag: u32, body: Body)
    requires cl.h.sent + cl.ob == Stream(env.xml, cl.h.msgs)
    ensures
      var q := Enqueue(env, cl, tag, body);
      && q.h.sent + q.ob == Stream(env.xml, q.h.msgs)
      && q.ob != []
  {
    var m := Msg(cl.proto, tag, body);
    StreamSnoc(env.xml, cl.h.msgs, m);
    assert cl.h.sent + (cl.ob + Encode(Wire(env.xml, m))) == (cl.h.sent + cl.ob) + Encode(Wire(env.xml, m));
  }

  /** A notice changes what a listener has seen and nothing else. */
  lemma NoticeKeeps(env: Env, cl: Client, body: Body)
    requires Single(env, cl) && cl.state.Listening?
    requires body.Detached? || body.Paired? || (body.Attached? && body.id !in Seen(cl.h.msgs))
    ensures
      var q := Enqueue(env, cl, 0, body);
      && Single(env, q) && q.state.Listening?
      && Seen(q.h.msgs) == Believe(Seen(cl.h.msgs), body)
  {
    hide Stream, Seen, Replies, AnnouncedOnce, Dues, Concat, AllWhole;
    EnqueueGrows(env, cl, 0, body);
    MsgsSnoc(cl.h.msgs, Msg(cl.proto, 0, body));
  }

  /** Queueing the reply that the last command is owed. */
  lemma ReplyAnswers(env: Env, h: ClientHistory, due: Due, m: Msg)
    requires Answered(env, h, [due]) && Answers(due, m) && !IsNotice(m)
    ensures Answered(env, h.(msgs := h.msgs + [m]), [])
  {
    hide Dues, Replies, Answers;
    MsgsSnoc(h.msgs, m);
    var all, got := Dues(env, h.cmds), Replies(h.msgs);
    assert all[|got|..][0] == all[|got|];
  }

  lemma CommandOwes(env: Env, h: ClientHistory, cmd: seq<byte>)
    requires Answered(env, h, [])
    ensures Answered(env, h.(cmds := h.cmds + [cmd]), DueFor(env, cmd, Speaks(h.cmds + [cmd])))
  {
    hide Dues, Replies, DueFor, Answers, Speaks;
    DuesSnoc(env, h.cmds, cmd);
  }

  // ---- Commands ----

  /** A client in the middle of handle_command, which owes these replies. */
  predicate Owing(env: Env, cl: Client, due: seq<Due>)
  {
    && cl.state.Commanding?
    && Talking(env, cl)
    && Answered(env, cl.h, due)
    && Seen(cl.h.msgs) == {}
  }

  lemma CommandedOwes(env: Env, cl: Client, got: seq<byte>, msg: seq<byte>, m: Raw)
    requires Single(env, cl) && cl.state.Commanding? && msg == cl.ib + got && Whole(msg) && Decode(msg) == Some(m)
    ensures
      var cl' := Spoken(Commanded(cl, got, msg), m);
      Owing(env, cl', DueFor(env, msg, cl'.proto))
  {
    hide Stream, Seen, AnnouncedOnce, Concat, Dues, DueFor, Replies, Answers, Whole, Speaks, Decode;
    DuesSnoc(env, cl.h.cmds, msg);
    CommandOwes(env, cl.h, msg);
    ConcatSnoc(cl.h.cmds, msg);
    assert Concat(cl.h.cmds) + msg == (Concat(cl.h.cmds) + cl.ib) + got;
    assert Concat(cl.h.cmds) + msg + [] == Concat(cl.h.cmds) + msg;
  }

  /** The reply that is owed clears the debt. */
  lemma ReplyClears(env: Env, cl: Client, due: Due, body: Body)
    requires Owing(env, cl, [due]) && Answers(due, Msg(cl.proto, due.tag, body))
    ensures Single(env, Enqueue(env, cl, due.tag, body)) && Enqueue(env, cl, due.tag, body).state.Commanding?
  {
    var m := Msg(cl.proto, due.tag, body);
    var q := Enqueue(env, cl, due.tag, body);
    assert !IsNotice(m);
    ReplyAnswers(env, cl.h, due, m);
    hide Stream, Seen, Replies, AnnouncedOnce, Dues, Concat, AllWhole, Answered, Answers;
    EnqueueGrows(env, cl, due.tag, body);
    MsgsSnoc(cl.h.msgs, m);
    AnsweredFrame(env, cl.h.(msgs := cl.h.msgs + [m]), q.h);
  }

  lemma SilenceClears(env: Env, cl: Client)
    requires Owing(env, cl, [])
    ensures Single(env, cl)
  {
    hide Talking, Answered, Seen;
  }

  lemma OwingCommands(env: Env, cl: Client, due: seq<Due>)
    requires Owing(env, cl, due)
    ensures cl.state.Commanding?
  {
  }

  lemma ConnectPends(env: Env, cl: Client, due: Due, d: nat, k: nat)
    requires Owing(env, cl, [due]) && due.order.Connect? && due.version == cl.proto
    requires EndsInConnect(env, cl.h.cmds, due.tag)
    ensures Pending(env, cl.(connectTag := due.tag, connectDev := d, state := Connecting1, h := cl.h.(conn := Some(k))))
  {
    hide Stream, Seen, Replies, AnnouncedOnce, Dues, Concat, AllWhole, Answers;
    var all, got := Dues(env, cl.h.cmds), Replies(cl.h.msgs);
    assert all[|got|..][0] == all[|got|];
  }

  /** Sending n bytes of the queue. */
  lemma SentKeeps(env: Env, cl: Client, n: nat)
    requires 0 < n <= |cl.ob|
    ensures Single(env, cl) ==> Single(env, Sent(cl, n))
    ensures Pending(env, cl) ==> Pending(env, Sent(cl, n))
    ensures Joining(env, cl) && n < |cl.ob| ==> Joining(env, Sent(cl, n))
    ensures Joining(env, cl) && n == |cl.ob| ==> InStream(env, Sent(cl, n), [], [])
  {
    hide Stream, Seen, AnnouncedOnce, Concat, AllWhole, Dues, Replies, Answers;
    assert cl.ob == cl.ob[..n] + cl.ob[n..];
    assert cl.h.sent + cl.ob[..n] + cl.ob[n..] == cl.h.sent + cl.ob;
    assert Stream(env.xml, cl.h.msgs) + [] == Stream(env.xml, cl.h.msgs);
    assert Concat(cl.h.cmds) + cl.h.lost + [] == Concat(cl.h.cmds) + cl.h.lost;
  }

  /** A client that is not joined may be closed as it is. */
  lemma MayQuit(env: Env, cl: Client)
    requires Single(env, cl) || Pending(env, cl) || Joining(env, cl)
    ensures Quits(env, cl.h) && cl.h.sent + cl.ob == Stream(env.xml, cl.h.msgs)
  {
    hide Stream, Seen, AnnouncedOnce, Concat, AllWhole, Answered, Ordered;
    assert Stream(env.xml, cl.h.msgs) == cl.h.sent + cl.ob;
    assert Concat(cl.h.cmds) + [] == Concat(cl.h.cmds);
    if Pending(env, cl) {
      AnsweredInOrder(env, cl.h, [Dues(env, cl.h.cmds)[|Replies(cl.h.msgs)|]]);
    } else {
      AnsweredInOrder(env, cl.h, []);
    }
  }

  lemma AnsweredInOrder(env: Env, h: ClientHistory, open: seq<Due>)
    requires Answered(env, h, open)
    ensures Ordered(env, h)
  {
    hide Dues, Replies, Answers, IsRebuke;
  }

  /** Bytes of a message with an impossible length change nothing else. */
  lemma SpoiltQuits(env: Env, cl: Client, got: seq<byte>)
    requires Quits(env, cl.h)
    ensures Quits(env, Spoilt(cl, got).h)
  {
    hide Stream, Concat, Dues, Replies, Answers;
    PrefixGrows(Concat(cl.h.cmds) + cl.h.lost, cl.h.received, got);
  }

  /** A command at the wrong time is answered with an error, and the client may be closed. */
  lemma RebukeQuits(env: Env, cl: Client, got: seq<byte>, msg: seq<byte>, m: Raw)
    requires Single(env, cl) || Pending(env, cl)
    requires msg == cl.ib + got && Decode(msg) == Some(m)
    ensures Quits(env, Enqueue(env, Commanded(cl, got, msg), m.tag, Result(RESULT_BADCOMMAND)).h)
  {
    hide Seen, AnnouncedOnce, Concat, AllWhole, Answered, Ordered, Decode, Stream, Awaits, InStep;
    var cmd := Commanded(cl, got, msg);
    var q := Enqueue(env, cmd, m.tag, Result(RESULT_BADCOMMAND));
    TalkersInStep(env, cl);
    RebukeOrdered(env, cl.h, q.h, msg, Msg(cl.proto, m.tag, Result(RESULT_BADCOMMAND)));
    EnqueueGrows(env, cmd, m.tag, Result(RESULT_BADCOMMAND));
    assert Stream(env.xml, q.h.msgs) == q.h.sent + q.ob;
    ConcatSnoc(cl.h.cmds, msg);
    assert Concat(cl.h.cmds) + msg + [] == (Concat(cl.h.cmds) + cl.ib) + got;
  }

  /** No reply so far was a rebuke. */
  predicate InStep(env: Env, h: ClientHistory)
  {
    var due, got := Dues(env, h.cmds), Replies(h.msgs);
    |got| <= |due| && forall i :: 0 <= i < |got| ==> Answers(due[i], got[i])
  }

  lemma TalkersInStep(env: Env, cl: Client)
    requires Single(env, cl) || Pending(env, cl)
    ensures InStep(env, cl.h)
  {
    hide Talking, Seen, Dues, Replies, Answers;
  }

  lemma RebukeOrdered(env: Env, h: ClientHistory, h': ClientHistory, msg: seq<byte>, m: Msg)
    requires InStep(env, h)
    requires h'.cmds == h.cmds + [msg] && h'.msgs == h.msgs + [m]
    requires Decode(msg).Some? && Decode(msg).value.tag == m.tag && m.body == Result(RESULT_BADCOMMAND)
    ensures Ordered(env, h')
  {
    hide Dues, Replies, Answers, Decode, DueFor;
    DuesSnoc(env, h.cmds, msg);
    MsgsSnoc(h.msgs, m);
  }

  /** Reading part of a command. */
  lemma BufferedKeeps(env: Env, cl: Client, got: seq<byte>, ib: InBuffer)
    requires ib == cl.ib + got
    ensures Talking(env, cl) ==> Talking(env, Buffered(cl, got, ib))
    ensures Single(env, cl) ==> Single(env, Buffered(cl, got, ib))
    ensures Pending(env, cl) ==> Pending(env, Buffered(cl, got, ib))
  {
    hide Stream, Seen, AnnouncedOnce, Concat, AllWhole, Dues, Replies, Answers;
    assert Concat(cl.h.cmds) + ib == (Concat(cl.h.cmds) + cl.ib) + got;
  }

  /** A refused client is back where it was before the Connect command, with the reply queued. */
  lemma RefusedIsSingle(env: Env, cl: Client)
    requires Pending(env, cl)
    ensures
      var told := Notify(env, cl, RESULT_CONNREFUSED);
      told.Some? && Single(env, told.value) && told.value.state.Commanding? && told.value.h.conn == cl.h.conn
  {
    var m := Msg(cl.proto, cl.connectTag, Result(RESULT_CONNREFUSED));
    var due := Dues(env, cl.h.cmds)[|Replies(cl.h.msgs)|];
    ReplyAnswers(env, cl.h, due, m);
    hide Stream, Seen, Replies, AnnouncedOnce, Dues, Concat, AllWhole, Answered;
    EnqueueGrows(env, cl, cl.connectTag, Result(RESULT_CONNREFUSED));
    MsgsSnoc(cl.h.msgs, m);
    AnsweredFrame(env, cl.h.(msgs := cl.h.msgs + [m]), Notify(env, cl, RESULT_CONNREFUSED).value.h);
  }

  /** The client whose connection came up stops reading commands and waits for its reply to be sent. */
  lemma NotifyJoins(env: Env, cl: Client)
    requires Pending(env, cl)
    ensures
      var told := Notify(env, cl, RESULT_OK);
      && told.Some? && Joining(env, told.value)
      && told.value.h.conn == cl.h.conn && told.value.connectDev == cl.connectDev
  {
    var m := Msg(cl.proto, cl.connectTag, Result(RESULT_OK));
    var due := Dues(env, cl.h.cmds)[|Replies(cl.h.msgs)|];
    ReplyAnswers(env, cl.h, due, m);
    hide Stream, Seen, Replies, AnnouncedOnce, Dues, Concat, AllWhole, Answered;
    EnqueueGrows(env, cl, cl.connectTag, Result(RESULT_OK));
    AnsweredFrame(env, cl.h.(msgs := cl.h.msgs + [m]), Notify(env, cl, RESULT_OK).value.h);
  }

  lemma OrderedFrame(env: Env, h: ClientHistory, h': ClientHistory)
    requires h.cmds == h'.cmds && h.msgs == h'.msgs && Ordered(env, h)
    ensures Ordered(env, h')
  {
    hide Dues, Replies, Answers, Decode;
    var due, got := Dues(env, h'.cmds), Replies(h'.msgs);
    forall i | 0 <= i < |got|
      ensures (i < |due| && Answers(due[i], got[i])) || (i == |got| - 1 && IsRebuke(h', got[i]))
    {
      assert IsRebuke(h', got[i]) == IsRebuke(h, got[i]);
    }
  }

  lemma GrantedFrame(env: Env, h: ClientHistory, h': ClientHistory)
    requires h.cmds == h'.cmds && h.msgs == h'.msgs && Granted(env, h)
    ensures Granted(env, h')
  {
  }

  lemma JoinedIsGranted(env: Env, cl: Client)
    requires ToldOk(cl) && EndsInConnect(env, cl.h.cmds, cl.connectTag)
    ensures Granted(env, cl.h)
  {
  }

  /** Answered depends on the commands and messages only. */
  lemma AnsweredFrame(env: Env, h: ClientHistory, h': ClientHistory)
    requires h.cmds == h'.cmds && h.msgs == h'.msgs
    requires Answered(env, h, [])
    ensures Answered(env, h', [])
  {
  }
}
