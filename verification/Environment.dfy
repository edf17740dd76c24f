/** What the daemon cannot decide: results of system calls and of code outside the model. Every theorem
    holds for every environment. */
module Environment {
  import opened Basics
  import opened ClientMessage

  /** What a plist command asks for. `Query` stands for ListListeners, ReadBUID and the pair-record commands. */
  datatype Request =
    | Malformed
    | ListenRequest
    | ConnectRequest(dev: Option<u32>, port: Option<u16>)
    | DeviceListRequest
    | Query
    | UnknownRequest

  /** What the flush of a dying connection meets: the n-th client_write takes up to writes(n) bytes, 0 for a full
      socket and less for an error, and the n-th reading of the clock is clock(n). */
  datatype Script = Script(writes: nat -> int, clock: nat -> nat)

  /** The loop sleeps between attempts, so the clock advances. */
  ghost predicate Advances(s: Script) { forall i: nat, j: nat :: i < j ==> s.clock(i) < s.clock(j) }

  type FlushScript = s: Script | Advances(s) ghost witness Script((i: nat) => 0, (i: nat) => i)

  /** The bytes the flush of a buffer of this size writes in all, from call number `calls` and clock reading
      number `ticks` on, when the last progress was at time `last`: it gives up after an error, or after more
      than a second without progress. */
  function Flushable(s: FlushScript, size: nat, calls: nat, ticks: nat, last: nat): (n: nat)
    ensures n <= size
    decreases size, if s.clock(ticks) > last + 1000 then 0 else last + 1001 - s.clock(ticks)
  {
    if size == 0 then 0
    else
      var m := Min(s.writes(calls), size);
      if m < 0 then 0
      else if m > 0 then m + Flushable(s, size - m, calls + 1, ticks + 1, s.clock(ticks))
      else if s.clock(ticks) - last > 1000 then 0
      else Flushable(s, size, calls + 1, ticks + 1, last)
  }

  /** The reading of the clock that the flush compares with at call number n: the one after the last write that took
      something, or the first. */
  function LastProgress(s: FlushScript, n: nat): nat
  {
    if n == 0 then 0 else if s.writes(n - 1) > 0 then n else LastProgress(s, n - 1)
  }

  /** Call number n ends the flush: it fails, or it takes nothing more than a second after the last progress. */
  predicate FailsAt(s: FlushScript, n: nat)
  {
    s.writes(n) < 0 || (s.writes(n) == 0 && s.clock(n + 1) - s.clock(LastProgress(s, n)) > 1000)
  }

  /** What the calls before number n could take. */
  function Total(s: FlushScript, n: nat): nat
  {
    if n == 0 then 0 else Total(s, n - 1) + if s.writes(n - 1) > 0 then s.writes(n - 1) else 0
  }

  /** Call number n is the first that ends the flush, and so many bytes are not out by then. */
  ghost predicate StopsAt(s: FlushScript, size: nat, n: nat)
  {
    FailsAt(s, n) && (forall j: nat :: j < n ==> !FailsAt(s, j)) && Total(s, n) < size
  }

  ghost predicate GivesUp(s: FlushScript, size: nat) { exists n: nat :: StopsAt(s, size, n) }

  /** The rest of the flush after n calls that did not end it. */
  function After(s: FlushScript, size: nat, n: nat): nat
    requires Total(s, n) <= size
  {
    Flushable(s, size - Total(s, n), n, n + 1, s.clock(LastProgress(s, n)))
  }

  lemma AfterOne(s: FlushScript, size: nat, n: nat)
    requires Total(s, n) < size && !FailsAt(s, n)
    ensures if Total(s, n + 1) >= size then After(s, size, n) == size - Total(s, n)
            else After(s, size, n) == After(s, size, n + 1) + Total(s, n + 1) - Total(s, n)
  {
  }

  lemma {:induction false} FlushFrom(s: FlushScript, size: nat, i: nat, n: nat)
    requires i <= n && Total(s, i) < size && forall j: nat :: i <= j < n ==> !FailsAt(s, j)
    ensures Total(s, n) >= size ==> After(s, size, i) == size - Total(s, i)
    ensures Total(s, n) < size && FailsAt(s, n) ==> After(s, size, i) == Total(s, n) - Total(s, i)
    decreases n - i
  {
    hide Flushable, FailsAt;
    if i < n {
      AfterOne(s, size, i);
      if Total(s, i + 1) < size {
        FlushFrom(s, size, i + 1, n);
      } else {
        TotalGrows(s, i + 1, n);
      }
    } else {
      FailedAfter(s, size, i);
    }
  }

  lemma FailedAfter(s: FlushScript, size: nat, n: nat)
    requires Total(s, n) < size
    ensures FailsAt(s, n) ==> After(s, size, n) == 0
  {
  }

  lemma {:induction false} TotalGrows(s: FlushScript, i: nat, n: nat)
    requires i <= n
    ensures Total(s, i) <= Total(s, n)
    decreases n
  {
    if i < n {
      TotalGrows(s, i, n - 1);
    }
  }

  /** How much the flush of `size` bytes writes: all of it once the calls before the first that ends it can take that
      much, and otherwise what they took. */
  lemma FlushWrites(s: FlushScript, size: nat, n: nat)
    requires forall j: nat :: j < n ==> !FailsAt(s, j)
    ensures Total(s, n) >= size ==> Flushable(s, size, 0, 1, s.clock(0)) == size
    ensures StopsAt(s, size, n) ==> Flushable(s, size, 0, 1, s.clock(0)) == Total(s, n)
  {
    hide Flushable, FailsAt;
    if size > 0 {
      FlushFrom(s, size, 0, n);
    } else {
      NothingToFlush(s);
    }
  }

  lemma NothingToFlush(s: FlushScript)
    ensures Flushable(s, 0, 0, 1, s.clock(0)) == 0
  {
  }

  /** Everything is written unless some call ends the flush. */
  lemma FlushIsComplete(s: FlushScript, size: nat)
    ensures Flushable(s, size, 0, 1, s.clock(0)) == size || GivesUp(s, size)
  {
    hide Flushable, FailsAt;
    if size > 0 {
      FlushEnds(s, size, 0);
    } else {
      NothingToFlush(s);
    }
  }

  lemma {:induction false} FlushEnds(s: FlushScript, size: nat, n: nat)
    requires Total(s, n) < size && forall j: nat :: j < n ==> !FailsAt(s, j)
    ensures After(s, size, n) == size - Total(s, n) || GivesUp(s, size)
    decreases size - Total(s, n),
              if s.clock(n + 1) > s.clock(LastProgress(s, n)) + 1000 then 0
              else s.clock(LastProgress(s, n)) + 1001 - s.clock(n + 1)
  {
    hide Flushable;
    if FailsAt(s, n) {
      assert StopsAt(s, size, n);
    } else {
      AfterOne(s, size, n);
      if Total(s, n + 1) < size {
        FlushEnds(s, size, n + 1);
      }
    }
  }

  /** The flush of `size` bytes writes n: what was taken before the call that ends it early, or else everything. */
  ghost predicate Drained(s: FlushScript, size: nat, n: nat)
  {
    && (forall i: nat :: StopsAt(s, size, i) ==> n == Total(s, i))
    && (!GivesUp(s, size) ==> n == size)
  }

  lemma FlushDrains(s: FlushScript, size: nat)
    ensures Drained(s, size, Flushable(s, size, 0, 1, s.clock(0)))
  {
    hide Flushable, FailsAt, GivesUp;
    FlushIsComplete(s, size);
    forall i: nat | StopsAt(s, size, i)
      ensures Flushable(s, size, 0, 1, s.clock(0)) == Total(s, i)
    {
      FlushWrites(s, size, i);
    }
  }

  /** If the first write can take everything, everything is written. */
  lemma OneWriteDrains(s: FlushScript, size: nat, n: nat)
    requires Drained(s, size, n) && s.writes(0) >= size
    ensures n == size
  {
    forall i: nat
      ensures !StopsAt(s, size, i)
    {
      if i > 0 {
        TotalGrows(s, 1, i);
      }
    }
  }

  datatype Env = Env(
    usbOk: (nat, nat) -> bool,          // does the n-th usb_send to device d succeed
    flush: nat -> FlushScript,          // what the flush of a dying connection meets
    xml: Serialiser,                    // plist_to_xml
    plist: seq<byte> -> Request)        // plist_from_xml and the look-ups in the dictionary

  /** The bytes that follow a short message in the command buffer, left there by earlier commands. */
  type Leftover = s: seq<byte> | |s| == 6 witness [0, 0, 0, 0, 0, 0]

  /** What one call of handle_command learns from outside: the answer to a query, the device that a saved pair
      record belongs to, and the leftover bytes. */
  datatype Outside = Outside(answer: Reply, paired: Option<nat>, stale: Leftover)
}
