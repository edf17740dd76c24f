/** Allocation of source ports (src/device.c:243-260). */
module Ports {
  import opened Basics

  const MAX_CONNECTIONS := 65535

  function Next(p: u16): u16 { if p == 65535 then 0 else p + 1 }

  /** How far the cursor has to move, cyclically, to reach a port. */
  function Distance(from: u16, to: u16): nat { if from <= to then to - from else to - from + WORD16 }

  /** The first port that is free, looking upwards from `next`; `free` is some free port. */
  function FreeFrom(next: u16, used: set<u16>, free: u16): (p: u16)
    requires free !in used
    ensures p !in used
    ensures forall q: u16 :: Distance(next, q) < Distance(next, p) ==> q in used
    decreases Distance(next, free)
  {
    if next in used then FreeFrom(Next(next), used, free) else next
  }

  /** The numbers below n. */
  function Below(n: nat): (s: set<int>)
    ensures |s| == n
    ensures forall i :: i in s <==> 0 <= i < n
  {
    if n == 0 then {} else Below(n - 1) + {n - 1}
  }

  lemma SubsetSize<T>(a: set<T>, b: set<T>)
    requires a <= b
    ensures |a| <= |b|
  {
    assert b == a + (b - a);
  }

  /** A set that holds all ports from lo to hi - 1 is at least that large. */
  lemma FullRange(lo: nat, hi: nat, used: set<u16>)
    requires lo <= hi <= WORD16
    requires forall p: u16 :: lo <= p < hi ==> p in used
    ensures |used| >= hi - lo
  {
    var low, all := Below(lo), Below(hi);
    var wide: set<int> := used;
    assert all <= low + wide;
    SubsetSize(all, low + wide);
    assert |low + wide| <= |low| + |wide| by {
      assert low + wide == low + (wide - low);
      SubsetSize(wide - low, wide);
    }
  }

  /** Some port that is not in use. */
  function SomeFree(used: set<u16>, from: nat): (p: u16)
    requires |used| < WORD16 && from < WORD16
    requires forall q: u16 :: q < from ==> q in used
    ensures p !in used
    decreases WORD16 - from
  {
    if from in used then
      assert from + 1 < WORD16 by {
        if from + 1 == WORD16 {
          FullRange(0, WORD16, used);
        }
      }
      SomeFree(used, from + 1)
    else from
  }

  datatype Allocation = Allocation(port: u16, next: u16)

  /** find_sport: the port handed out and the new cursor. */
  function FindSport(next: u16, used: set<u16>, count: nat): (a: Allocation)
    requires |used| <= count
    ensures a.port != 0 ==> a.port !in used
    ensures count >= MAX_CONNECTIONS ==> a.port == 0
  {
    if count >= MAX_CONNECTIONS then Allocation(0, next)
    else
      var p := FreeFrom(next, used, SomeFree(used, 0));
      Allocation(p, Next(p))
  }

  /** Below the limit, a zero result only means that the cursor wrapped around: the next call succeeds. */
  lemma RetryAfterWrap(next: u16, used: set<u16>, count: nat)
    requires |used| <= count < MAX_CONNECTIONS
    requires FindSport(next, used, count).port == 0
    ensures
      var again := FindSport(FindSport(next, used, count).next, used, count);
      again.port != 0 && again.port !in used
  {
    var again := FindSport(1, used, count);
    if again.port == 0 {
      forall q: u16 | 1 <= q < WORD16
        ensures q in used
      {
        assert Distance(1, q) < Distance(1, 0);
      }
      FullRange(1, WORD16, used);
    }
  }
}
