/** Gathering USB transfers of at most 16384 bytes into mux packets (src/device.c:745-790). */
module Assembler {
  import opened Basics
  import opened MuxPacket

  /** The possible contents of pktbuf between transfers. */
  type PacketBuffer = p: seq<byte> | |p| % USB_MRU == 0 && |p| <= DEV_MRU witness []

  datatype Gathered = Gathered(buf: PacketBuffer, packet: Option<seq<byte>>)

  /** A packet is dispatched only when its length field says so. */
  function Deliver(p: seq<byte>): Option<seq<byte>>
  {
    if |p| >= 8 && LengthField(p) == |p| then Some(p) else None
  }

  /** device_data_input: what is kept, and the packet that is dispatched, if any. */
  function Gather(buf: PacketBuffer, chunk: seq<byte>): (r: Gathered)
    ensures r.packet.Some? ==> 8 <= |r.packet.value| <= DEV_MRU && LengthField(r.packet.value) == |r.packet.value|
    ensures 0 < |chunk| < USB_MRU ==> r.buf == []
  {
    if |chunk| == 0 || |chunk| > USB_MRU then Gathered(buf, None)
    else if |buf| > 0 then
      if |chunk| + |buf| > DEV_MRU then Gathered([], None)
      else
        var all := buf + chunk;
        if |chunk| < USB_MRU || LengthField(all) == |all| then Gathered([], Deliver(all)) else Gathered(all, None)
    else if |chunk| == USB_MRU && |chunk| < LengthField(chunk) then Gathered(chunk, None)
    else Gathered([], Deliver(chunk))
  }

  datatype Received = Received(buf: PacketBuffer, packets: seq<seq<byte>>)

  /** The packets dispatched for a history of transfers. */
  function GatherAll(buf: PacketBuffer, chunks: seq<seq<byte>>): Received
    decreases |chunks|
  {
    if chunks == [] then Received(buf, [])
    else
      var first := Gather(buf, chunks[0]);
      var rest := GatherAll(first.buf, chunks[1..]);
      Received(rest.buf, (if first.packet.Some? then [first.packet.value] else []) + rest.packets)
  }

  lemma {:induction false} GatherAppend(buf: PacketBuffer, a: seq<seq<byte>>, b: seq<seq<byte>>)
    ensures
      var first := GatherAll(buf, a);
      var second := GatherAll(first.buf, b);
      GatherAll(buf, a + b) == Received(second.buf, first.packets + second.packets)
    decreases |a|
  {
    if a == [] {
      assert a + b == b;
    } else {
      hide Gather;
      assert (a + b)[0] == a[0] && (a + b)[1..] == a[1..] + b;
      GatherAppend(Gather(buf, a[0]).buf, a[1..], b);
      var first := Gather(buf, a[0]);
      var here := if first.packet.Some? then [first.packet.value] else [];
      var more := GatherAll(first.buf, a[1..]);
      var last := GatherAll(more.buf, b);
      assert here + (more.packets + last.packets) == (here + more.packets) + last.packets;
    }
  }

  /** The transfers a packet arrives in. */
  function Split(p: seq<byte>): (chunks: seq<seq<byte>>)
    ensures |chunks| > 0
    decreases |p|
  {
    if |p| <= 16384 then [p] else [p[..16384]] + Split(p[16384..])
  }

  predicate MuxSized(p: seq<byte>) { 8 <= |p| <= 65536 && LengthField(p) == |p| }

  /** A packet and the empty transfer that may follow it. */
  datatype Sending = Sending(packet: seq<byte>, zlp: bool)

  function Transfers(s: Sending): seq<seq<byte>> { Split(s.packet) + if s.zlp then [[]] else [] }

  function AllTransfers(ss: seq<Sending>): seq<seq<byte>>
  {
    if ss == [] then [] else Transfers(ss[0]) + AllTransfers(ss[1..])
  }

  /** The remaining transfers of a packet complete it. */
  lemma {:induction false} RestCompletes(buf: PacketBuffer, rest: seq<byte>)
    requires |rest| > 0 && MuxSized(buf + rest)
    ensures GatherAll(buf, Split(rest)) == Received([], [buf + rest])
    decreases |rest|
  {
    var p := buf + rest;
    if |rest| <= USB_MRU {
      LastCompletes(buf, rest);
      GatherOne(buf, rest);
    } else {
      var chunk, more := rest[..USB_MRU], rest[USB_MRU..];
      var all := buf + chunk;
      assert all + more == p;
      MiddleIsKept(buf, chunk, more);
      hide Gather;
      RestCompletes(all, more);
      var cs := [chunk] + Split(more);
      assert cs[0] == chunk && cs[1..] == Split(more);
    }
  }

  lemma LastCompletes(buf: PacketBuffer, chunk: seq<byte>)
    requires 0 < |chunk| <= USB_MRU && MuxSized(buf + chunk)
    ensures Gather(buf, chunk) == Gathered([], Some(buf + chunk))
  {
    assert buf == [] ==> buf + chunk == chunk;
  }

  lemma MiddleIsKept(buf: PacketBuffer, chunk: seq<byte>, more: seq<byte>)
    requires |chunk| == USB_MRU && |more| > 0 && MuxSized(buf + chunk + more)
    ensures Gather(buf, chunk) == Gathered(buf + chunk, None)
  {
    assert (buf + chunk)[4..8] == (buf + chunk + more)[4..8];
    assert buf == [] ==> buf + chunk == chunk;
  }

  lemma GatherOne(buf: PacketBuffer, chunk: seq<byte>)
    ensures GatherAll(buf, [chunk]) == Received(Gather(buf, chunk).buf,
              if Gather(buf, chunk).packet.Some? then [Gather(buf, chunk).packet.value] else [])
  {
    assert [chunk][1..] == [];
  }

  /** Any sequence of packets is dispatched exactly, in order, whether or not the last transfer of a packet is
      full and whether or not an empty transfer follows it. */
  lemma {:induction false} PacketsSurviveSplitting(ss: seq<Sending>)
    requires forall i :: 0 <= i < |ss| ==> MuxSized(ss[i].packet)
    ensures GatherAll([], AllTransfers(ss)) == Received([], seq(|ss|, i requires 0 <= i < |ss| => ss[i].packet))
    decreases |ss|
  {
    hide Gather, Transfers;
    if ss != [] {
      var p, rest := ss[0].packet, ss[1..];
      TransfersComplete(ss[0]);
      PacketsSurviveSplitting(rest);
      GatherAppend([], Transfers(ss[0]), AllTransfers(rest));
      assert [p] + seq(|rest|, i requires 0 <= i < |rest| => rest[i].packet)
          == seq(|ss|, i requires 0 <= i < |ss| => ss[i].packet);
    }
  }

  lemma TransfersComplete(s: Sending)
    requires MuxSized(s.packet)
    ensures GatherAll([], Transfers(s)) == Received([], [s.packet])
  {
    assert [] + s.packet == s.packet;
    RestCompletes([], s.packet);
    if s.zlp {
      GatherAppend([], Split(s.packet), [[]]);
      GatherOne([], []);
    } else {
      assert Transfers(s) == Split(s.packet);
    }
  }

  /** Whatever was received before, one non-empty short transfer resynchronises the stream: everything sent
      after it is dispatched exactly. */
  lemma ShortTransferResynchronises(history: seq<seq<byte>>, short: seq<byte>, ss: seq<Sending>)
    requires 0 < |short| < USB_MRU
    requires forall i :: 0 <= i < |ss| ==> MuxSized(ss[i].packet)
    ensures
      var before := GatherAll([], history + [short]);
      GatherAll([], history + [short] + AllTransfers(ss))
        == Received([], before.packets + seq(|ss|, i requires 0 <= i < |ss| => ss[i].packet))
  {
    GatherAppend([], history, [short]);
    GatherOne(GatherAll([], history).buf, short);
    GatherAppend([], history + [short], AllTransfers(ss));
    PacketsSurviveSplitting(ss);
  }

  /** For every history of transfers the buffer stays within bounds and each dispatched packet has the length
      its header announces. */
  lemma {:induction false} DispatchedPacketsAreWhole(buf: PacketBuffer, chunks: seq<seq<byte>>)
    ensures
      var r := GatherAll(buf, chunks);
      && |r.buf| % USB_MRU == 0 && |r.buf| <= DEV_MRU
      && forall i :: 0 <= i < |r.packets| ==> MuxSized(r.packets[i])
    decreases |chunks|
  {
    if chunks != [] {
      DispatchedPacketsAreWhole(Gather(buf, chunks[0]).buf, chunks[1..]);
    }
  }
}
