/** The load law of the round robin: how often each backend is returned over whole rounds of picks. */
module Balance {
  import opened Text
  import opened Scan

  /** The results of m picks in a row from a counter value, the alive flags staying as they are. */
  function Picks(alive: seq<bool>, rr: ticket, m: nat): (results: seq<Option<nat>>)
    requires alive != []
    ensures |results| == m
    ensures forall r :: r in results && r.Some? ==> r.value < |alive|
    decreases m
  {
    if m == 0 then [] else [ScanFrom(alive, rr, 0)] + Picks(alive, Advance(rr, 1), m - 1)
  }

  /** The backend at an unbounded position, counting cyclically. */
  predicate AliveAt(alive: seq<bool>, t: nat)
    requires alive != []
  {
    alive[t % |alive|]
  }

  /** How many backends just before j, going backwards cyclically, are dead. */
  function DeadBefore(alive: seq<bool>, j: nat): (g: nat)
    requires j < |alive|
    ensures g < |alive|
    ensures forall t :: j + |alive| - g <= t < j + |alive| ==> !AliveAt(alive, t)
    ensures g == |alive| - 1 || AliveAt(alive, j + |alive| - 1 - g)
  {
    j + |alive| - RunStart(alive, j, j + |alive|)
  }

  function RunStart(alive: seq<bool>, j: nat, p: nat): (q: nat)
    requires j < |alive| && j < p <= j + |alive|
    requires forall t :: p <= t < j + |alive| ==> !AliveAt(alive, t)
    ensures j < q <= p
    ensures forall t :: q <= t < j + |alive| ==> !AliveAt(alive, t)
    ensures q == j + 1 || AliveAt(alive, q - 1)
    decreases p
  {
    hide AliveAt;
    if p - 1 > j && !AliveAt(alive, p - 1) then RunStart(alive, j, p - 1) else p
  }

  /** Every one of m picks from rr scans without a seam and the counter itself does not wrap unevenly. */
  predicate NoWrap(rr: ticket, m: nat, n: nat)
    requires n > 0
  {
    WORD % n == 0 || rr + m + n - 1 <= WORD
  }

  // ---------------------------------------------------------------- scans over unbounded positions

  /** The scan of position t with no machine word in the way. */
  function Seek(alive: seq<bool>, t: nat, i: nat): Option<nat>
    requires i <= |alive| && alive != []
    decreases |alive| - i
  {
    if i == |alive| then None
    else if alive[(t + i) % |alive|] then Some((t + i) % |alive|)
    else Seek(alive, t, i + 1)
  }

  lemma {:induction false} ScanIsSeek(alive: seq<bool>, start: ticket, i: nat)
    requires alive != [] && i <= |alive| && Seamless(start, |alive|)
    ensures ScanFrom(alive, start, i) == Seek(alive, start, i)
    decreases |alive| - i
  {
    if i < |alive| {
      SlotIsCyclic(start, i, |alive|);
      ScanIsSeek(alive, start, i + 1);
    }
  }

  /** A position is served by its own backend if that is alive, else like the position after it. */
  lemma {:induction false} SeekStep(alive: seq<bool>, t: nat, i: nat)
    requires 0 < i <= |alive| && !alive[t % |alive|]
    ensures Seek(alive, t, i) == Seek(alive, t + 1, i - 1)
    decreases |alive| - i
  {
    if i < |alive| {
      assert t + i == t + 1 + (i - 1);
      SeekStep(alive, t, i + 1);
    } else {
      ModPeriod(t, |alive|);
      assert Seek(alive, t + 1, i - 1) == None;
    }
  }

  lemma {:induction false} SeekPeriod(alive: seq<bool>, t: nat, i: nat)
    requires i <= |alive| && alive != []
    ensures Seek(alive, t + |alive|, i) == Seek(alive, t, i)
    decreases |alive| - i
  {
    if i < |alive| {
      ModPeriod(t + i, |alive|);
      SeekPeriod(alive, t, i + 1);
    }
  }

  // ---------------------------------------------------------------- counting

  /** How many of the positions lo, ..., hi - 1 are served by backend j. */
  function Load(alive: seq<bool>, lo: nat, hi: nat, j: nat): nat
    requires alive != [] && lo <= hi
    decreases hi - lo
  {
    if lo == hi then 0
    else (if Seek(alive, lo, 0) == Some(j) then 1 else 0) + Load(alive, lo + 1, hi, j)
  }

  lemma {:induction false} LoadSplit(alive: seq<bool>, lo: nat, mid: nat, hi: nat, j: nat)
    requires alive != [] && lo <= mid <= hi
    ensures Load(alive, lo, hi, j) == Load(alive, lo, mid, j) + Load(alive, mid, hi, j)
    decreases mid - lo
  {
    if lo < mid {
      LoadSplit(alive, lo + 1, mid, hi, j);
    }
  }

  /** One full turn carries the same load wherever it begins. */
  lemma {:induction false} TurnAnywhere(alive: seq<bool>, s: nat, t: nat, j: nat)
    requires alive != [] && s <= t
    ensures Load(alive, s, s + |alive|, j) == Load(alive, t, t + |alive|, j)
    decreases t - s
  {
    if s < t {
      var n := |alive|;
      LoadSplit(alive, s, s + n, s + 1 + n, j);
      SeekPeriod(alive, s, 0);
      assert Load(alive, s + n, s + 1 + n, j) == Load(alive, s, s + 1, j);
      TurnAnywhere(alive, s + 1, t, j);
    }
  }

  lemma MulStep(k: nat, x: nat)
    requires k > 0
    ensures k * x == (k - 1) * x + x && (k - 1) * x >= 0
  {
  }

  lemma {:induction false} Turns(alive: seq<bool>, s: nat, k: nat, j: nat)
    requires alive != []
    ensures Load(alive, s, s + k * |alive|, j) == k * Load(alive, j + 1, j + 1 + |alive|, j)
    decreases k
  {
    var n := |alive|;
    if k > 0 {
      MulStep(k, n);
      MulStep(k, Load(alive, j + 1, j + 1 + n, j));
      LoadSplit(alive, s, s + n, s + k * n, j);
      Turns(alive, s + n, k - 1, j);
      if s <= j + 1 {
        TurnAnywhere(alive, s, j + 1, j);
      } else {
        TurnAnywhere(alive, j + 1, s, j);
      }
    }
  }

  /** In the turn that ends at j, the positions served by j are j itself and the dead run before it. */
  lemma {:induction false} TurnEndingAt(alive: seq<bool>, j: nat, lo: nat)
    requires j < |alive| && alive[j] && j < lo <= j + |alive|
    ensures
      var n := |alive|;
      var g := DeadBefore(alive, j);
      && (Seek(alive, lo, 0) == Some(j) <==> lo >= j + n - g)
      && Load(alive, lo, j + n + 1, j) == (if lo >= j + n - g then j + n + 1 - lo else 1 + g)
    decreases j + |alive| - lo
  {
    var n := |alive|;
    var g := DeadBefore(alive, j);
    ModOf(j, 0, j, n);
    ModPeriod(j, n);
    if lo == j + n {
      assert Load(alive, lo, lo + 1, j) == 1;
    } else {
      TurnEndingAt(alive, j, lo + 1);
      if !AliveAt(alive, lo) {
        SeekStep(alive, lo, 1);
      } else {
        assert lo < j + n - g;
        ServesAnother(alive, j, lo);
      }
    }
  }

  lemma ServesAnother(alive: seq<bool>, j: nat, lo: nat)
    requires j < |alive| && j < lo < j + |alive| && AliveAt(alive, lo)
    ensures Seek(alive, lo, 0).Some? && Seek(alive, lo, 0) != Some(j)
  {
    ModOf(j, 0, j, |alive|);
    CyclicDistinct(j, lo - j, |alive|);
  }

  lemma {:induction false} NoneServed(alive: seq<bool>, lo: nat, hi: nat, j: nat)
    requires alive != [] && lo <= hi && (j < |alive| ==> !alive[j])
    ensures Load(alive, lo, hi, j) == 0
    decreases hi - lo
  {
    if lo < hi {
      SeekResult(alive, lo, 0);
      NoneServed(alive, lo + 1, hi, j);
    }
  }

  lemma {:induction false} SeekResult(alive: seq<bool>, t: nat, i: nat)
    requires alive != [] && i <= |alive|
    ensures var r := Seek(alive, t, i); r.Some? ==> r.value < |alive| && alive[r.value]
    decreases |alive| - i
  {
    if i < |alive| {
      SeekResult(alive, t, i + 1);
    }
  }

  // ---------------------------------------------------------------- the law

  /** The ticket rr stands for the unbounded position t. */
  predicate StandsFor(rr: ticket, t: nat, n: nat)
    requires n > 0
  {
    t % WORD == rr && (t == rr || WORD % n == 0)
  }

  lemma TicketStandsForItself(rr: ticket, n: nat)
    requires n > 0
    ensures StandsFor(rr, rr, n)
  {
  }

  lemma NextPick(rr: ticket, t: nat, m: nat, n: nat)
    requires n > 0 && m > 1 && NoWrap(rr, m, n) && StandsFor(rr, t, n)
    ensures NoWrap(Advance(rr, 1), m - 1, n) && StandsFor(Advance(rr, 1), t + 1, n)
  {
  }

  lemma PickServes(alive: seq<bool>, rr: ticket, t: nat, m: nat)
    requires alive != [] && m > 0 && NoWrap(rr, m, |alive|) && StandsFor(rr, t, |alive|)
    ensures ScanFrom(alive, rr, 0) == Seek(alive, t, 0)
  {
    ScanIsSeek(alive, rr, 0);
    if t != rr {
      ModThroughWord(t, |alive|);
      SeekCongruent(alive, rr, t, 0);
    }
  }

  lemma {:induction false} PicksAreLoad(alive: seq<bool>, rr: ticket, t: nat, m: nat, j: nat)
    requires alive != [] && NoWrap(rr, m, |alive|) && StandsFor(rr, t, |alive|)
    ensures multiset(Picks(alive, rr, m))[Some(j)] == Load(alive, t, t + m, j)
    decreases m
  {
    hide NoWrap, StandsFor, Advance;
    if m > 0 {
      PickServes(alive, rr, t, m);
      if m > 1 {
        NextPick(rr, t, m, |alive|);
        PicksAreLoad(alive, Advance(rr, 1), t + 1, m - 1, j);
      }
      var rest := Picks(alive, Advance(rr, 1), m - 1);
      assert Picks(alive, rr, m) == [ScanFrom(alive, rr, 0)] + rest;
    }
  }

  lemma {:induction false} SeekCongruent(alive: seq<bool>, s: nat, t: nat, i: nat)
    requires alive != [] && i <= |alive| && s % |alive| == t % |alive|
    ensures Seek(alive, s, i) == Seek(alive, t, i)
    decreases |alive| - i
  {
    if i < |alive| {
      var n := |alive|;
      if s % n + i < n {
        ModShift(s, i, n);
        ModShift(t, i, n);
      } else {
        ModPeriod(s + i - n, n);
        ModPeriod(t + i - n, n);
        ModShift(s, i - n, n);
        ModShift(t, i - n, n);
      }
      SeekCongruent(alive, s, t, i + 1);
    }
  }

  /**
   * Over k whole rounds, from any counter value, with no wrap and a fixed set of alive backends,
   * a dead backend is never returned and an alive one exactly k times for itself and k times for each
   * dead backend in the run just before it.
   */
  lemma LoadLaw(alive: seq<bool>, rr: ticket, k: nat, j: nat)
    requires j < |alive| && NoWrap(rr, k * |alive|, |alive|)
    ensures multiset(Picks(alive, rr, k * |alive|))[Some(j)] ==
            if alive[j] then k * (1 + DeadBefore(alive, j)) else 0
  {
    hide Picks, Load, DeadBefore, StandsFor;
    var n := |alive|;
    TicketStandsForItself(rr, n);
    PicksAreLoad(alive, rr, rr, k * n, j);
    if alive[j] {
      Turns(alive, rr, k, j);
      TurnEndingAt(alive, j, j + 1);
      assert Load(alive, j + 1, j + 1 + n, j) == 1 + DeadBefore(alive, j);
    } else {
      NoneServed(alive, rr, rr + k * n, j);
    }
  }

  /** The sum, over all backends, of how often each was returned. */
  function Returned(alive: seq<bool>, results: multiset<Option<nat>>, upto: nat): nat {
    if upto == 0 then 0 else Returned(alive, results, upto - 1) + results[Some(upto - 1)]
  }

  lemma {:induction false} ReturnedAdds(alive: seq<bool>, r: Option<nat>, rest: multiset<Option<nat>>, upto: nat)
    ensures Returned(alive, multiset{r} + rest, upto) ==
            Returned(alive, rest, upto) + (if r.Some? && r.value < upto then 1 else 0)
  {
    if upto > 0 {
      ReturnedAdds(alive, r, rest, upto - 1);
    }
  }

  /** Nothing is lost: as long as some backend is alive, every one of the m picks lands on some backend. */
  lemma {:induction false} LoadsSumUp(alive: seq<bool>, rr: ticket, m: nat)
    requires true in alive && NoWrap(rr, m, |alive|)
    ensures Returned(alive, multiset(Picks(alive, rr, m)), |alive|) == m
    decreases m
  {
    if m > 0 {
      var n := |alive|;
      SeamlessFinds(alive, rr) by {
        assert Seamless(rr, n);
      }
      TicketStandsForItself(rr, n);
      hide NoWrap, StandsFor, Advance, Seamless;
      var first, rest := ScanFrom(alive, rr, 0), Picks(alive, Advance(rr, 1), m - 1);
      if m > 1 {
        NextPick(rr, rr, m, n);
        LoadsSumUp(alive, Advance(rr, 1), m - 1);
      } else {
        NothingReturned(alive, n);
      }
      assert multiset([first] + rest) == multiset{first} + multiset(rest);
      ReturnedAdds(alive, first, multiset(rest), n);
    } else {
      NothingReturned(alive, |alive|);
    }
  }

  lemma {:induction false} NothingReturned(alive: seq<bool>, upto: nat)
    ensures Returned(alive, multiset([]), upto) == 0
  {
    if upto > 0 {
      NothingReturned(alive, upto - 1);
    }
  }
}
