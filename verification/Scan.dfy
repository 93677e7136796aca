/**
 * Index arithmetic of the round-robin scan: a 64-bit ticket, a cyclic walk over n backends,
 * and the load that successive scans put on each backend.
 */
module Scan {
  import opened Text

  const WORD: nat := 0x1_0000_0000_0000_0000
  const MAX_LEN: nat := 0x7FFF_FFFF_FFFF_FFFF

  type ticket = x: int | 0 <= x < WORD

  /** The backend a scan looks at in round i: uint64 addition, then the remainder. */
  function Slot(start: ticket, i: nat, n: nat): (j: nat)
    requires n > 0
    ensures j < n
  {
    (start + i) % WORD % n
  }

  function Advance(t: ticket, steps: nat): ticket {
    (t + steps) % WORD
  }

  /** The first alive backend met from round i on. */
  function ScanFrom(alive: seq<bool>, start: ticket, i: nat): (r: Option<nat>)
    requires i <= |alive|
    ensures r.Some? ==> r.value < |alive| && alive[r.value]
    decreases |alive| - i
  {
    if i == |alive| then None
    else if alive[Slot(start, i, |alive|)] then Some(Slot(start, i, |alive|))
    else ScanFrom(alive, start, i + 1)
  }

  /** The scan's addition cannot wrap, or wraps without a seam. */
  predicate Seamless(start: ticket, n: nat)
    requires n > 0
  {
    start + n <= WORD || WORD % n == 0
  }

  ghost predicate Visits(start: ticket, n: nat, j: nat)
    requires n > 0
  {
    exists i :: 0 <= i < n && Slot(start, i, n) == j
  }

  ghost predicate Covers(start: ticket, n: nat)
    requires n > 0
  {
    forall j :: 0 <= j < n ==> Visits(start, n, j)
  }

  ghost predicate Injective(start: ticket, n: nat)
    requires n > 0
  {
    forall i, k :: 0 <= i < k < n ==> Slot(start, i, n) != Slot(start, k, n)
  }

  // ---------------------------------------------------------------- remainders

  lemma MulAtLeast(d: int, n: int)
    requires d >= 1 && n >= 1
    ensures d * n >= n
  {
  }

  lemma SmallMultiple(d: int, n: int)
    requires -n < d * n < n
    ensures d == 0
  {
    if d >= 1 {
      MulAtLeast(d, n);
    } else if d <= -1 {
      MulAtLeast(-d, n);
    }
  }

  lemma ModOf(x: int, q: int, r: int, n: int)
    requires 0 <= r < n && x == q * n + r
    ensures x % n == r && x / n == q
  {
    var d := x / n - q;
    assert x == (x / n) * n + x % n;
    assert d * n == (x / n) * n - q * n;
    SmallMultiple(d, n);
  }

  lemma ModPeriod(x: int, n: int)
    requires n > 0
    ensures (x + n) % n == x % n
  {
    ModOf(x + n, x / n + 1, x % n, n);
  }

  lemma ModShift(x: int, d: int, n: int)
    requires n > 0 && 0 <= x % n + d < n
    ensures (x + d) % n == x % n + d
  {
    ModOf(x + d, x / n, x % n + d, n);
  }

  lemma ModShiftDown(x: int, d: int, n: int)
    requires n > 0 && 0 <= x % n + d + n < n
    ensures (x + d) % n == x % n + d + n
  {
    ModOf(x + d, x / n - 1, x % n + d + n, n);
  }

  /** Reducing by WORD first is harmless when n divides WORD. */
  lemma ModThroughWord(x: nat, n: nat)
    requires n > 0 && WORD % n == 0
    ensures x % WORD % n == x % n
  {
    var q := x / WORD;
    var r := x % WORD;
    var c := WORD / n;
    assert WORD == c * n;
    assert x == q * WORD + r;
    assert q * WORD == (q * c) * n by {
      MulAssoc(q, c, n);
    }
    ModOf(x, q * c + r / n, r % n, n) by {
      assert r == (r / n) * n + r % n;
      assert (q * c + r / n) * n == (q * c) * n + (r / n) * n;
    }
  }

  lemma MulAssoc(a: int, b: int, c: int)
    ensures a * (b * c) == (a * b) * c
  {
  }

  /** With no seam a scan walks the backends cyclically, one after the other. */
  lemma SlotIsCyclic(start: ticket, i: nat, n: nat)
    requires 0 < n && i < n && Seamless(start, n)
    ensures Slot(start, i, n) == (start + i) % n
  {
    if start + n > WORD {
      ModThroughWord(start + i, n);
    }
  }

  // ---------------------------------------------------------------- the wrap-around bound

  lemma CyclicHits(start: nat, j: nat, n: nat) returns (i: nat)
    requires j < n
    ensures i < n && (start + i) % n == j
  {
    var r := start % n;
    if j >= r {
      i := j - r;
      ModShift(start, i, n);
    } else {
      i := j - r + n;
      ModPeriod(start + (j - r), n);
      ModShift(start, j - r, n);
    }
  }

  lemma CyclicDistinct(x: nat, d: nat, n: nat)
    requires 0 < d < n
    ensures (x + d) % n != x % n
  {
    if x % n + d < n {
      ModShift(x, d, n);
    } else {
      ModPeriod(x + d - n, n);
      ModShift(x, d - n, n);
    }
  }

  lemma SeamlessCovers(start: ticket, n: nat)
    requires 0 < n && Seamless(start, n)
    ensures Covers(start, n) && Injective(start, n)
  {
    forall j | 0 <= j < n
      ensures Visits(start, n, j)
    {
      var i := CyclicHits(start, j, n);
      SlotIsCyclic(start, i, n);
    }
    forall i, k | 0 <= i < k < n
      ensures Slot(start, i, n) != Slot(start, k, n)
    {
      SlotIsCyclic(start, i, n);
      SlotIsCyclic(start, k, n);
      CyclicDistinct(start + i, k - i, n);
    }
  }

  /** Where a seam falls: before it the residues run up to r - 1, after it they restart at 0. */
  lemma SlotAroundSeam(start: ticket, i: nat, n: nat)
    requires 0 < n <= MAX_LEN && i < n && start + n > WORD
    ensures
      var m := WORD - start;
      var r := WORD % n;
      Slot(start, i, n) ==
        if i >= m then i - m
        else if r + i >= m then r + i - m
        else r + i - m + n
  {
    var m := WORD - start;
    var r := WORD % n;
    if i >= m {
      assert (start + i) % WORD == i - m;
      ModOf(i - m, 0, i - m, n);
    } else {
      assert (start + i) % WORD == start + i == WORD + (i - m);
      if r + i >= m {
        ModShift(WORD, i - m, n);
      } else {
        ModShiftDown(WORD, i - m, n);
      }
    }
  }

  /** A backend no round of a scan across a seam ever looks at. */
  function Skipped(start: ticket, n: nat): nat
    requires 0 < n <= MAX_LEN && start + n > WORD && WORD % n != 0
  {
    var m := WORD - start;
    var r := WORD % n;
    if r >= m then n - 1 else if r <= n - m then n - m else r
  }

  lemma SeamSkips(start: ticket, n: nat)
    requires 0 < n <= MAX_LEN && !Seamless(start, n)
    ensures Skipped(start, n) < n
    ensures forall i :: 0 <= i < n ==> Slot(start, i, n) != Skipped(start, n)
    ensures !Covers(start, n)
  {
    forall i | 0 <= i < n
      ensures Slot(start, i, n) != Skipped(start, n)
    {
      SlotAroundSeam(start, i, n);
    }
    assert !Visits(start, n, Skipped(start, n));
  }

  lemma SeamRepeats(start: ticket, n: nat)
    requires 0 < n <= MAX_LEN && !Seamless(start, n)
    ensures !Injective(start, n)
  {
    var m := WORD - start;
    var r := WORD % n;
    var i, k := if r <= n - m then m - 1 else n - r - 1, if r <= n - m then m + r - 1 else n - 1;
    SlotAroundSeam(start, i, n);
    SlotAroundSeam(start, k, n);
    assert 0 <= i < k < n && Slot(start, i, n) == Slot(start, k, n);
  }

  /**
   * The n indices of one scan are a permutation of 0..n-1 exactly when the addition does not wrap
   * or n divides 2^64.
   */
  lemma ScanIsPermutationIff(start: ticket, n: nat)
    requires 0 < n <= MAX_LEN
    ensures Covers(start, n) <==> Seamless(start, n)
    ensures Injective(start, n) <==> Seamless(start, n)
  {
    if Seamless(start, n) {
      SeamlessCovers(start, n);
    } else {
      SeamSkips(start, n);
      SeamRepeats(start, n);
    }
  }

  lemma {:induction false} ScanMisses(alive: seq<bool>, start: ticket, i: nat)
    requires i <= |alive|
    requires forall k :: i <= k < |alive| ==> !alive[Slot(start, k, |alive|)]
    ensures ScanFrom(alive, start, i) == None
    decreases |alive| - i
  {
    if i < |alive| {
      ScanMisses(alive, start, i + 1);
    }
  }

  lemma {:induction false} ScanHits(alive: seq<bool>, start: ticket, i: nat, k: nat)
    requires i <= k < |alive| && alive[Slot(start, k, |alive|)]
    ensures ScanFrom(alive, start, i).Some?
    decreases k - i
  {
    if i < k {
      ScanHits(alive, start, i + 1, k);
    }
  }

  ghost predicate FindsWheneverAlive(start: ticket, n: nat)
    requires n > 0
  {
    forall alive: seq<bool> :: |alive| == n && true in alive ==> ScanFrom(alive, start, 0).Some?
  }

  /** "No alive backends" is never reported falsely, from a given ticket, exactly when its scan has no seam. */
  lemma NeverFalselyEmptyIff(start: ticket, n: nat)
    requires 0 < n <= MAX_LEN
    ensures FindsWheneverAlive(start, n) <==> Seamless(start, n)
  {
    if Seamless(start, n) {
      forall alive: seq<bool> | |alive| == n && true in alive
        ensures ScanFrom(alive, start, 0).Some?
      {
        SeamlessFinds(alive, start);
      }
    } else {
      SeamHides(start, n);
    }
  }

  lemma SeamlessFinds(alive: seq<bool>, start: ticket)
    requires true in alive && Seamless(start, |alive|)
    ensures ScanFrom(alive, start, 0).Some?
  {
    var j :| 0 <= j < |alive| && alive[j];
    SeamlessCovers(start, |alive|);
    assert Visits(start, |alive|, j);
    var i :| 0 <= i < |alive| && Slot(start, i, |alive|) == j;
    ScanHits(alive, start, 0, i);
  }

  lemma SeamHides(start: ticket, n: nat)
    requires 0 < n <= MAX_LEN && !Seamless(start, n)
    ensures !FindsWheneverAlive(start, n)
  {
    SeamSkips(start, n);
    var lone := seq(n, j => j == Skipped(start, n));
    assert lone[Skipped(start, n)];
    ScanMisses(lone, start, 0);
  }
}
