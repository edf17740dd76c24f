/** memcpy and memmove on byte buffers. */
module Memory {
  import opened Basics

  /** memcpy of src to position `at` of dst. */
  method MemCopy(dst: array<byte>, at: nat, src: seq<byte>)
    requires at + |src| <= dst.Length
    modifies dst
    ensures dst[..at + |src|] == old(dst[..at]) + src
  {
    var i := 0;
    while i < |src|
      invariant i <= |src|
      invariant dst[..at] == old(dst[..at])
      invariant dst[at..at + i] == src[..i]
    {
      dst[at + i] := src[i];
      assert dst[at..at + i + 1] == dst[at..at + i] + [src[i]];
      i := i + 1;
    }
    assert dst[..at + |src|] == dst[..at] + dst[at..at + |src|];
  }

  /** memmove of n bytes from position `from` to the start of the buffer. */
  method MoveToFront(buf: array<byte>, from: nat, n: nat)
    requires from + n <= buf.Length
    modifies buf
    ensures buf[..n] == old(buf[from..from + n])
  {
    var i := 0;
    while i < n
      invariant i <= n
      invariant buf[..i] == old(buf[from..from + i])
      invariant buf[from + i..from + n] == old(buf[from + i..from + n])
    {
      assert buf[from + i] == buf[from + i..from + n][0] == old(buf[from + i]);
      buf[i] := buf[from + i];
      assert buf[..i + 1] == buf[..i] + [old(buf[from + i])];
      assert buf[from + i + 1..from + n] == old(buf[from + i..from + n])[1..];
      i := i + 1;
    }
  }
}
