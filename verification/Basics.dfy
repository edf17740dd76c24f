/** Machine words, byte strings and their two encodings. */
module Basics {

  datatype Option<+T> = None | Some(value: T)

  type byte = b: int | 0 <= b < 256

  const WORD16 := 0x1_0000
  const WORD32 := 0x1_0000_0000

  type u16 = x: int | 0 <= x < 0x1_0000
  type u32 = x: int | 0 <= x < 0x1_0000_0000

  /** Unsigned 32-bit addition and subtraction, wrapping as in C. */
  function Add32(a: u32, n: nat): u32 { (a + n) % WORD32 }
  function Sub32(a: u32, b: u32): u32 { (a - b) % WORD32 }

  /** A wrapping counter follows the unbounded count it stands for. */
  lemma Add32Counts(x: nat, n: nat)
    ensures Add32(x % WORD32, n) == (x + n) % WORD32
  {
    var y := x % WORD32 + n;
    var q := x / WORD32 + y / WORD32;
    assert x + n == WORD32 * q + y % WORD32;
    ModUnique(x + n, q, y % WORD32);
  }

  lemma ModUnique(x: int, q: int, r: u32)
    requires x == WORD32 * q + r
    ensures x % WORD32 == r
  {
    assert x / WORD32 == q;
  }

  function Min(a: int, b: int): int { if a <= b then a else b }

  /** A poll mask restricted to the two bits the daemon uses. */
  datatype Mask = Mask(pollIn: bool, pollOut: bool)

  /** The four bytes of a word, least significant first, truncating as a cast to uint32_t does. */
  function LE32(n: nat): (s: seq<byte>)
    ensures |s| == 4
  {
    [n % 256, n / 256 % 256, n / 65536 % 256, n / 16777216 % 256]
  }

  function UnLE32(s: seq<byte>): (n: u32)
    requires |s| == 4
  {
    (s[0] as int) + 256 * (s[1] as int) + 65536 * (s[2] as int) + 16777216 * (s[3] as int)
  }

  function BE16(n: nat): (s: seq<byte>)
    ensures |s| == 2
  {
    [n / 256 % 256, n % 256]
  }

  function UnBE16(s: seq<byte>): (n: u16)
    requires |s| == 2
  {
    256 * (s[0] as int) + (s[1] as int)
  }

  function BE32(n: nat): (s: seq<byte>)
    ensures |s| == 4
  {
    [n / 16777216 % 256, n / 65536 % 256, n / 256 % 256, n % 256]
  }

  function UnBE32(s: seq<byte>): (n: u32)
    requires |s| == 4
  {
    16777216 * (s[0] as int) + 65536 * (s[1] as int) + 256 * (s[2] as int) + (s[3] as int)
  }

  lemma LE32RoundTrip(n: u32)
    ensures UnLE32(LE32(n)) == n
  {
    Digits(n);
  }

  lemma BE32RoundTrip(n: u32)
    ensures UnBE32(BE32(n)) == n
  {
    Digits(n);
  }

  lemma BE16RoundTrip(n: u16)
    ensures UnBE16(BE16(n)) == n
  {
  }

  lemma Digits(n: u32)
    ensures n % 256 + 256 * (n / 256 % 256) + 65536 * (n / 65536 % 256) + 16777216 * (n / 16777216 % 256) == n
  {
    assert n / 65536 == n / 256 / 256;
    assert n / 16777216 == n / 65536 / 256;
  }

  /** Concatenation of a sequence of byte strings. */
  function Concat(parts: seq<seq<byte>>): seq<byte>
  {
    if parts == [] then [] else Concat(parts[..|parts| - 1]) + parts[|parts| - 1]
  }

  lemma ConcatSnoc(parts: seq<seq<byte>>, p: seq<byte>)
    ensures Concat(parts + [p]) == Concat(parts) + p
  {
    assert (parts + [p])[..|parts|] == parts;
  }

  lemma {:induction false} ConcatAppend(a: seq<seq<byte>>, b: seq<seq<byte>>)
    ensures Concat(a + b) == Concat(a) + Concat(b)
    decreases |b|
  {
    hide Concat;
    if b == [] {
      ConcatNil();
      assert a + b == a;
      assert Concat(a) + [] == Concat(a);
    } else {
      var b', last := b[..|b| - 1], b[|b| - 1];
      assert b == b' + [last];
      assert a + b == (a + b') + [last] by {
        Associates(a, b', [last]);
      }
      ConcatSnoc(a + b', last);
      ConcatSnoc(b', last);
      ConcatAppend(a, b');
      Associates(Concat(a), Concat(b'), last);
    }
  }

  lemma ConcatNil()
    ensures Concat([]) == []
  {
  }

  lemma Associates<T>(a: seq<T>, b: seq<T>, c: seq<T>)
    ensures a + (b + c) == (a + b) + c
  {
  }

  lemma ConcatCons(p: seq<byte>, parts: seq<seq<byte>>)
    ensures Concat([p] + parts) == p + Concat(parts)
  {
    ConcatAppend([p], parts);
    ConcatSnoc([], p);
    assert [] + [p] == [p];
  }

  /** A prefix of a string stays a prefix when the string grows. */
  lemma PrefixGrows(p: seq<byte>, s: seq<byte>, t: seq<byte>)
    requires p <= s
    ensures p <= s + t
  {
  }
}
