/** The messages exchanged with clients (src/usbmuxd-proto.h) and the stream they form. */
module ClientMessage {
  import opened Basics

  const HEADER_SIZE := 16

  const RESULT_OK := 0
  const RESULT_BADCOMMAND := 1
  const RESULT_BADDEV := 2
  const RESULT_CONNREFUSED := 3
  const RESULT_BADVERSION := 6

  const MESSAGE_RESULT := 1
  const MESSAGE_CONNECT := 2
  const MESSAGE_LISTEN := 3
  const MESSAGE_DEVICE_ADD := 4
  const MESSAGE_DEVICE_REMOVE := 5
  const MESSAGE_DEVICE_PAIRED := 6
  const MESSAGE_PLIST := 8

  /** A message as its four header words and its payload describe it. */
  datatype Raw = Raw(version: u32, kind: u32, tag: u32, payload: seq<byte>)

  /** The length field does not overflow. */
  predicate Sized(m: Raw) { HEADER_SIZE + |m.payload| < WORD32 }

  function Encode(m: Raw): (s: seq<byte>)
    ensures |s| == HEADER_SIZE + |m.payload|
  {
    LE32(HEADER_SIZE + |m.payload|) + LE32(m.version) + LE32(m.kind) + LE32(m.tag) + m.payload
  }

  function LengthOf(s: seq<byte>): u32
    requires |s| >= HEADER_SIZE
  {
    UnLE32(s[0..4])
  }

  /** The first message of a stream, if all of it is there. */
  function Decode(s: seq<byte>): Option<Raw>
  {
    if |s| < HEADER_SIZE || LengthOf(s) < HEADER_SIZE || |s| < LengthOf(s) then None
    else Some(Raw(UnLE32(s[4..8]), UnLE32(s[8..12]), UnLE32(s[12..16]), s[16..LengthOf(s)]))
  }

  /** The complete messages a reader that goes by the header lengths finds in a stream. */
  function Unframe(s: seq<byte>): seq<Raw>
    decreases |s|
  {
    match Decode(s)
    case None => []
    case Some(m) => [m] + Unframe(s[LengthOf(s)..])
  }

  function Frames(ms: seq<Raw>): seq<byte>
  {
    if ms == [] then [] else Frames(ms[..|ms| - 1]) + Encode(ms[|ms| - 1])
  }

  lemma FramesSnoc(ms: seq<Raw>, m: Raw)
    ensures Frames(ms + [m]) == Frames(ms) + Encode(m)
  {
    assert (ms + [m])[..|ms|] == ms;
  }

  lemma {:induction false} FramesCons(m: Raw, ms: seq<Raw>)
    ensures Frames([m] + ms) == Encode(m) + Frames(ms)
  {
    if ms == [] {
      assert [m] + ms == [] + [m];
      FramesSnoc([], m);
    } else {
      hide Frames, Encode;
      var ms', last := ms[..|ms| - 1], ms[|ms| - 1];
      assert ms == ms' + [last];
      assert [m] + ms == ([m] + ms') + [last] by {
        Associates([m], ms', [last]);
      }
      FramesSnoc([m] + ms', last);
      FramesSnoc(ms', last);
      FramesCons(m, ms');
      Associates(Encode(m), Frames(ms'), Encode(last));
    }
  }

  lemma DecodeEncode(m: Raw, rest: seq<byte>)
    requires Sized(m)
    ensures Decode(Encode(m) + rest) == Some(m)
    ensures LengthOf(Encode(m) + rest) == |Encode(m)|
  {
    var s := Encode(m) + rest;
    assert s[0..4] == LE32(HEADER_SIZE + |m.payload|);
    assert s[4..8] == LE32(m.version);
    assert s[8..12] == LE32(m.kind);
    assert s[12..16] == LE32(m.tag);
    assert s[16..HEADER_SIZE + |m.payload|] == m.payload;
    LE32RoundTrip(HEADER_SIZE + |m.payload|);
    LE32RoundTrip(m.version);
    LE32RoundTrip(m.kind);
    LE32RoundTrip(m.tag);
  }

  /** A message cut short is not mistaken for a complete one. */
  lemma DecodeCut(m: Raw, n: nat)
    requires Sized(m) && n < |Encode(m)|
    ensures Decode(Encode(m)[..n]) == None
  {
    var s := Encode(m)[..n];
    if n >= HEADER_SIZE {
      assert s[0..4] == LE32(HEADER_SIZE + |m.payload|);
      LE32RoundTrip(HEADER_SIZE + |m.payload|);
    }
  }

  /** However a client's reading is cut off, it decodes a prefix of the messages queued for it,
      and all of them once it has read everything. */
  lemma {:induction false} StreamDecodes(ms: seq<Raw>, s: seq<byte>)
    requires forall i :: 0 <= i < |ms| ==> Sized(ms[i])
    requires s <= Frames(ms)
    ensures Unframe(s) <= ms
    ensures s == Frames(ms) ==> Unframe(s) == ms
    decreases |ms|
  {
    if ms == [] {
    } else {
      var m, rest := ms[0], ms[1..];
      assert ms == [m] + rest;
      FramesCons(m, rest);
      if |s| < |Encode(m)| {
        assert s == Encode(m)[..|s|];
        DecodeCut(m, |s|);
      } else {
        var t := s[|Encode(m)|..];
        assert s == Encode(m) + t;
        DecodeEncode(m, t);
        StreamDecodes(rest, t);
      }
    }
  }

  // ---- What the daemon says in them ----

  /** One entry of a device list. */
  datatype Listed = Listed(id: nat, info: seq<byte>)

  /** The contents of a message, before serialisation. `Data` stands for the documents whose contents are not
      modelled: the list of listeners, the system BUID and pair records. */
  datatype Body =
    | Result(code: u32)
    | Attached(id: nat, info: seq<byte>)
    | Detached(id: nat)
    | Paired(id: nat)
    | DeviceList(devices: seq<Listed>)
    | Data(data: seq<byte>)

  /** What a query may be answered with. */
  type Reply = b: Body | b.Data? || b.Result? witness Result(0)

  datatype Msg = Msg(version: u32, tag: u32, body: Body)

  type Serialiser = Body -> seq<byte>

  function Kind(version: u32, b: Body): u32
  {
    if version == 1 then MESSAGE_PLIST
    else match b
      case Result(_) => MESSAGE_RESULT
      case Attached(_, _) => MESSAGE_DEVICE_ADD
      case Detached(_) => MESSAGE_DEVICE_REMOVE
      case Paired(_) => MESSAGE_DEVICE_PAIRED
      case DeviceList(_) => MESSAGE_PLIST
      case Data(_) => MESSAGE_PLIST
  }

  function Payload(xml: Serialiser, version: u32, b: Body): seq<byte>
  {
    if version == 1 then xml(b)
    else match b
      case Result(code) => LE32(code)
      case Attached(id, info) => LE32(id) + info
      case Detached(id) => LE32(id)
      case Paired(id) => LE32(id)
      case DeviceList(_) => xml(b)
      case Data(_) => xml(b)
  }

  function Wire(xml: Serialiser, m: Msg): Raw
  {
    Raw(m.version, Kind(m.version, m.body), m.tag, Payload(xml, m.version, m.body))
  }

  function Wires(xml: Serialiser, ms: seq<Msg>): seq<Raw>
  {
    seq(|ms|, i requires 0 <= i < |ms| => Wire(xml, ms[i]))
  }

  /** The bytes of a list of messages. */
  function Stream(xml: Serialiser, ms: seq<Msg>): seq<byte> { Frames(Wires(xml, ms)) }

  lemma StreamSnoc(xml: Serialiser, ms: seq<Msg>, m: Msg)
    ensures Stream(xml, ms + [m]) == Stream(xml, ms) + Encode(Wire(xml, m))
  {
    assert Wires(xml, ms + [m]) == Wires(xml, ms) + [Wire(xml, m)];
    FramesSnoc(Wires(xml, ms), Wire(xml, m));
  }

  /** The number that the first four bytes spell, least significant first. */
  function FirstWord(s: seq<byte>): int
    requires |s| >= 4
  {
    (s[0] as int) + 256 * (s[1] as int) + 65536 * (s[2] as int) + 16777216 * (s[3] as int)
  }

  /** What a client reads in a message. In the binary form, a number that is a result code or a device, and the device's
      data for a notice that it is attached; from version 1 on, a plist of the same body. */
  lemma MessagesSayWhatTheyMean(xml: Serialiser, m: Msg)
    requires m.version == 0 || m.version == 1
    requires m.body.Attached? || m.body.Detached? || m.body.Paired? ==> m.body.id < WORD32
    ensures
      var r := Wire(xml, m);
      && r.version == m.version && r.tag == m.tag
      && if m.version == 1 || m.body.DeviceList? || m.body.Data? then r.kind == 8 && r.payload == xml(m.body)
         else
           && |r.payload| >= 4 && (!m.body.Attached? ==> |r.payload| == 4)
           && (m.body.Result? ==> r.kind == 1 && FirstWord(r.payload) == m.body.code)
           && (m.body.Attached? ==> r.kind == 4 && FirstWord(r.payload) == m.body.id && r.payload[4..] == m.body.info)
           && (m.body.Detached? ==> r.kind == 5 && FirstWord(r.payload) == m.body.id)
           && (m.body.Paired? ==> r.kind == 6 && FirstWord(r.payload) == m.body.id)
  {
    if m.body.Result? {
      Digits(m.body.code);
    } else if m.body.Attached? || m.body.Detached? || m.body.Paired? {
      Digits(m.body.id);
    }
  }

  // ---- Replies and notices ----

  predicate IsNotice(m: Msg) { m.body.Attached? || m.body.Detached? || m.body.Paired? }

  /** The messages that answer a command, in the order they were queued. */
  function Replies(ms: seq<Msg>): seq<Msg>
  {
    if ms == [] then []
    else Replies(ms[..|ms| - 1]) + if IsNotice(ms[|ms| - 1]) then [] else [ms[|ms| - 1]]
  }

  /** How one message changes the set of devices a listener believes attached. */
  function Believe(before: set<nat>, b: Body): set<nat>
  {
    if b.Attached? then before + {b.id} else if b.Detached? then before - {b.id} else before
  }

  /** The devices a listener believes attached after reading these messages. */
  function Seen(ms: seq<Msg>): set<nat>
  {
    if ms == [] then {} else Believe(Seen(ms[..|ms| - 1]), ms[|ms| - 1].body)
  }

  /** No device is announced while the listener already has it. */
  predicate AnnouncedOnce(ms: seq<Msg>)
  {
    ms == [] ||
    (AnnouncedOnce(ms[..|ms| - 1]) && (ms[|ms| - 1].body.Attached? ==> ms[|ms| - 1].body.id !in Seen(ms[..|ms| - 1])))
  }

  lemma MsgsSnoc(ms: seq<Msg>, m: Msg)
    ensures Replies(ms + [m]) == Replies(ms) + if IsNotice(m) then [] else [m]
    ensures Seen(ms + [m]) == Believe(Seen(ms), m.body)
    ensures AnnouncedOnce(ms + [m]) <==> AnnouncedOnce(ms) && (m.body.Attached? ==> m.body.id !in Seen(ms))
  {
    assert (ms + [m])[..|ms|] == ms;
  }
}
