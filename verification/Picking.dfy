/**
 * Concurrent picks on one pool, one atomic operation a step: taking a ticket (AddUint64), looking at one
 * flag (LoadUint32), and a health update of one flag (SwapUint32), interleaved in any way.
 */
module Picking {
  import opened Text
  import opened Scan
  import opened Balance

  /** One goroutine inside Pick. `i` is the loop variable of its scan. */
  datatype Picker = Idle | Scanning(start: ticket, i: nat) | Done(start: ticket, result: Option<nat>)

  datatype State = State(rr: ticket, alive: seq<bool>, pickers: seq<Picker>)

  datatype Step = Take(p: nat) | Load(p: nat) | Swap(j: nat, to: bool)

  predicate Enabled(s: State, step: Step) {
    match step
    case Take(p) => p < |s.pickers| && s.pickers[p] == Idle
    case Load(p) => p < |s.pickers| && s.pickers[p].Scanning? && s.pickers[p].i < |s.alive|
    case Swap(j, _) => j < |s.alive|
  }

  function AfterLoad(alive: seq<bool>, start: ticket, i: nat): Picker
    requires i < |alive|
  {
    var idx := Slot(start, i, |alive|);
    if alive[idx] then Done(start, Some(idx))
    else if i + 1 == |alive| then Done(start, None)
    else Scanning(start, i + 1)
  }

  function Apply(s: State, step: Step): State
    requires Enabled(s, step)
  {
    match step
    case Take(p) => s.(rr := Advance(s.rr, 1), pickers := s.pickers[p := Scanning(s.rr, 0)])
    case Load(p) => s.(pickers := s.pickers[p := AfterLoad(s.alive, s.pickers[p].start, s.pickers[p].i)])
    case Swap(j, v) => s.(alive := s.alive[j := v])
  }

  predicate Quiet(s: State) {
    s.alive != [] && forall p :: 0 <= p < |s.pickers| ==> s.pickers[p] == Idle
  }

  /** A run from a state in which nobody is picking. */
  ghost predicate IsRun(states: seq<State>, steps: seq<Step>) {
    && |states| == |steps| + 1
    && Quiet(states[0])
    && forall k :: 0 <= k < |steps| ==> Enabled(states[k], steps[k]) && states[k + 1] == Apply(states[k], steps[k])
  }

  ghost predicate RunPrefix(states: seq<State>, steps: seq<Step>, k: nat) {
    IsRun(states, steps) && k <= |steps|
  }

  lemma {:induction false} SameShape(states: seq<State>, steps: seq<Step>, k: nat)
    requires RunPrefix(states, steps, k)
    ensures |states[k].alive| == |states[0].alive| && |states[k].pickers| == |states[0].pickers|
  {
    if k > 0 {
      SameShape(states, steps, k - 1);
    }
  }

  // ---------------------------------------------------------------- what a scan has seen

  /** Picker p's round i found its backend in state `is`, at some load before state k. */
  ghost predicate Saw(states: seq<State>, steps: seq<Step>, k: nat, p: nat, start: ticket, i: nat, found: bool)
    requires RunPrefix(states, steps, k)
  {
    exists c :: SawAt(states, steps, k, p, start, i, found, c)
  }

  ghost predicate SawAt(states: seq<State>, steps: seq<Step>, k: nat, p: nat, start: ticket, i: nat, found: bool,
                        c: int)
    requires RunPrefix(states, steps, k)
  {
    && 0 <= c < k && steps[c] == Load(p)
    && states[c].pickers[p] == Scanning(start, i)
    && states[c].alive[Slot(start, i, |states[c].alive|)] == found
  }

  ghost predicate Accounted(states: seq<State>, steps: seq<Step>, k: nat, p: nat)
    requires RunPrefix(states, steps, k) && p < |states[k].pickers|
  {
    var n := |states[k].alive|;
    match states[k].pickers[p]
    case Idle => true
    case Scanning(start, i) => i < n && forall r: nat :: r < i ==> Saw(states, steps, k, p, start, r, false)
    case Done(start, None) => forall r: nat :: r < n ==> Saw(states, steps, k, p, start, r, false)
    case Done(start, Some(j)) =>
      exists r: nat :: r < n && j == Slot(start, r, n) && Saw(states, steps, k, p, start, r, true)
  }

  lemma SawLater(states: seq<State>, steps: seq<Step>, k: nat, p: nat, start: ticket, i: nat, found: bool)
    requires RunPrefix(states, steps, k + 1) && Saw(states, steps, k, p, start, i, found)
    ensures Saw(states, steps, k + 1, p, start, i, found)
  {
    var c :| SawAt(states, steps, k, p, start, i, found, c);
    assert SawAt(states, steps, k + 1, p, start, i, found, c);
  }

  /** Every verdict of a scan rests on loads it made itself. */
  lemma {:induction false} ScansAreHonest(states: seq<State>, steps: seq<Step>, k: nat, p: nat)
    requires RunPrefix(states, steps, k) && p < |states[k].pickers|
    ensures Accounted(states, steps, k, p)
  {
    if k > 0 {
      SameShape(states, steps, k - 1);
      SameShape(states, steps, k);
      ScansAreHonest(states, steps, k - 1, p);
      var before := states[k - 1].pickers[p];
      forall start, r: nat, found | Saw(states, steps, k - 1, p, start, r, found)
        ensures Saw(states, steps, k, p, start, r, found)
      {
        SawLater(states, steps, k - 1, p, start, r, found);
      }
      if steps[k - 1] == Load(p) {
        var start, i := before.start, before.i;
        var found := states[k - 1].alive[Slot(start, i, |states[k - 1].alive|)];
        assert SawAt(states, steps, k, p, start, i, found, k - 1);
      }
    }
  }

  /** A failing pick saw every backend dead, each at a moment of its own scan. */
  lemma FailureSawAllDead(states: seq<State>, steps: seq<Step>, k: nat, p: nat, j: nat) returns (c: nat)
    requires RunPrefix(states, steps, k) && p < |states[k].pickers| && j < |states[0].alive|
    requires states[k].pickers[p].Done? && states[k].pickers[p].result == None
    requires Seamless(states[k].pickers[p].start, |states[0].alive|)
    ensures c < k && p < |states[c].pickers| && states[c].pickers[p].Scanning? && steps[c] == Load(p)
    ensures |states[c].alive| == |states[0].alive| && !states[c].alive[j]
  {
    var start, n := states[k].pickers[p].start, |states[0].alive|;
    SameShape(states, steps, k);
    ScansAreHonest(states, steps, k, p);
    SeamlessCovers(start, n);
    assert Visits(start, n, j);
    var i: nat :| i < n && Slot(start, i, n) == j;
    assert Saw(states, steps, k, p, start, i, false);
    var d :| SawAt(states, steps, k, p, start, i, false, d);
    SameShape(states, steps, d);
    c := d;
  }

  /** A pick that is never without an alive backend j while it scans does not fail, whatever else flips. */
  lemma NoFalseNoAlive(states: seq<State>, steps: seq<Step>, k: nat, p: nat, j: nat)
    requires RunPrefix(states, steps, k) && p < |states[k].pickers| && j < |states[0].alive|
    requires states[k].pickers[p].Done? && Seamless(states[k].pickers[p].start, |states[0].alive|)
    requires forall c :: 0 <= c < k && p < |states[c].pickers| && states[c].pickers[p].Scanning? ==>
               j < |states[c].alive| && states[c].alive[j]
    ensures states[k].pickers[p].result.Some?
  {
    if states[k].pickers[p].result == None {
      var c := FailureSawAllDead(states, steps, k, p, j);
      SameShape(states, steps, c);
      SameShape(states, steps, k);
      assert false;
    }
  }

  /** What a pick returns was alive at the very load that chose it. */
  lemma SuccessSawAlive(states: seq<State>, steps: seq<Step>, k: nat, p: nat) returns (c: nat)
    requires RunPrefix(states, steps, k) && p < |states[k].pickers|
    requires states[k].pickers[p].Done? && states[k].pickers[p].result.Some?
    ensures c < k && steps[c] == Load(p) && states[c + 1].pickers[p] == states[k].pickers[p]
    ensures var j := states[k].pickers[p].result.value; j < |states[c].alive| && states[c].alive[j]
  {
    var start, j, n := states[k].pickers[p].start, states[k].pickers[p].result.value, |states[k].alive|;
    ScansAreHonest(states, steps, k, p);
    SameShape(states, steps, k);
    var r: nat :| r < n && j == Slot(start, r, n) && Saw(states, steps, k, p, start, r, true);
    var d :| SawAt(states, steps, k, p, start, r, true, d);
    SameShape(states, steps, d);
    c := d;
  }

  // ---------------------------------------------------------------- tickets

  /** The pickers that took a ticket, in the order in which they did. */
  function Takers(steps: seq<Step>): seq<nat> {
    if steps == [] then []
    else
      var before := Takers(steps[..|steps| - 1]);
      var last := steps[|steps| - 1];
      if last.Take? then before + [last.p] else before
  }

  predicate HoldsTicket(s: State, p: nat, t: ticket) {
    p < |s.pickers| && s.pickers[p] != Idle && s.pickers[p].start == t
  }

  ghost predicate TicketsInOrder(s: State, r0: ticket, order: seq<nat>) {
    && s.rr == Advance(r0, |order|)
    && (forall x, y :: 0 <= x < y < |order| ==> order[x] != order[y])
    && (forall x :: 0 <= x < |order| ==> HoldsTicket(s, order[x], Advance(r0, x)))
    && (forall p :: 0 <= p < |s.pickers| && s.pickers[p] != Idle ==> p in order)
  }

  lemma AdvanceAdds(r: ticket, a: nat, b: nat)
    ensures Advance(Advance(r, a), b) == Advance(r, a + b)
  {
  }

  /** In every interleaving the tickets are distinct takers of consecutive counter values, modulo 2^64. */
  lemma {:induction false} TicketsAreContiguous(states: seq<State>, steps: seq<Step>, k: nat)
    requires RunPrefix(states, steps, k)
    ensures TicketsInOrder(states[k], states[0].rr, Takers(steps[..k]))
  {
    if k > 0 {
      TicketsAreContiguous(states, steps, k - 1);
      assert steps[..k][..k - 1] == steps[..k - 1];
      AdvanceAdds(states[0].rr, |Takers(steps[..k - 1])|, 1);
      var s, t, order := states[k - 1], states[k], Takers(steps[..k - 1]);
      match steps[k - 1] {
        case Take(p) =>
          assert p !in order;
        case Load(p) =>
          assert t.pickers[p].start == s.pickers[p].start && t.pickers[p] != Idle;
        case Swap(_, _) =>
      }
    }
  }

  // ---------------------------------------------------------------- schedule independence

  ghost predicate NoSwaps(steps: seq<Step>) {
    forall k :: 0 <= k < |steps| ==> !steps[k].Swap?
  }

  ghost predicate OnCourse(alive: seq<bool>, picker: Picker) {
    match picker
    case Idle => true
    case Scanning(start, i) => i <= |alive| && ScanFrom(alive, start, i) == ScanFrom(alive, start, 0)
    case Done(start, r) => r == ScanFrom(alive, start, 0)
  }

  lemma {:induction false} AllOnCourse(states: seq<State>, steps: seq<Step>, k: nat)
    requires RunPrefix(states, steps, k) && NoSwaps(steps)
    ensures states[k].alive == states[0].alive
    ensures forall p :: 0 <= p < |states[k].pickers| ==> OnCourse(states[0].alive, states[k].pickers[p])
  {
    if k > 0 {
      AllOnCourse(states, steps, k - 1);
      assert !steps[k - 1].Swap?;
      var s := states[k - 1];
      if steps[k - 1].Load? {
        LoadStaysOnCourse(s.alive, s.pickers[steps[k - 1].p]);
      }
      hide AfterLoad, ScanFrom, Advance;
      assert forall p :: 0 <= p < |s.pickers| ==> OnCourse(s.alive, s.pickers[p]);
    }
  }

  lemma LoadStaysOnCourse(alive: seq<bool>, picker: Picker)
    requires picker.Scanning? && picker.i < |alive| && OnCourse(alive, picker)
    ensures OnCourse(alive, AfterLoad(alive, picker.start, picker.i))
  {
    assert picker.i + 1 == |alive| ==> ScanFrom(alive, picker.start, picker.i + 1) == None;
  }

  function Results(s: State, order: seq<nat>): seq<Option<nat>>
    requires forall x :: 0 <= x < |order| ==> order[x] < |s.pickers| && s.pickers[order[x]].Done?
  {
    seq(|order|, x requires 0 <= x < |order| => s.pickers[order[x]].result)
  }

  lemma {:induction false} PicksAt(alive: seq<bool>, rr: ticket, m: nat, x: nat)
    requires alive != [] && x < m
    ensures Picks(alive, rr, m)[x] == ScanFrom(alive, Advance(rr, x), 0)
    decreases m
  {
    hide ScanFrom;
    if x > 0 {
      AdvanceAdds(rr, 1, x - 1);
      PicksAt(alive, Advance(rr, 1), m - 1, x - 1);
    }
  }

  lemma ResultsAreSequential(s: State, r0: ticket, order: seq<nat>)
    requires s.alive != []
    requires forall x :: 0 <= x < |order| ==> HoldsTicket(s, order[x], Advance(r0, x))
    requires forall x :: 0 <= x < |order| ==> order[x] < |s.pickers| && s.pickers[order[x]].Done?
    requires forall p :: 0 <= p < |s.pickers| ==> OnCourse(s.alive, s.pickers[p])
    ensures Results(s, order) == Picks(s.alive, r0, |order|)
  {
    forall x | 0 <= x < |order|
      ensures Results(s, order)[x] == Picks(s.alive, r0, |order|)[x]
    {
      PicksAt(s.alive, r0, |order|, x);
      assert OnCourse(s.alive, s.pickers[order[x]]);
      assert HoldsTicket(s, order[x], Advance(r0, x));
    }
  }

  /**
   * When no flag changes, every interleaving gives each ticket the very result a sequential caller
   * would have got for it.
   */
  lemma ScheduleIndependent(states: seq<State>, steps: seq<Step>)
    requires IsRun(states, steps) && NoSwaps(steps)
    requires forall p :: 0 <= p < |states[|steps|].pickers| ==> !states[|steps|].pickers[p].Scanning?
    ensures
      var last, order := states[|steps|], Takers(steps);
      && TicketsInOrder(last, states[0].rr, order)
      && (forall x :: 0 <= x < |order| ==> order[x] < |last.pickers| && last.pickers[order[x]].Done?)
      && Results(last, order) == Picks(states[0].alive, states[0].rr, |order|)
  {
    var k := |steps|;
    assert steps[..k] == steps;
    TicketsAreContiguous(states, steps, k);
    AllOnCourse(states, steps, k);
    ResultsAreSequential(states[k], states[0].rr, Takers(steps));
  }

  /** The pickers that ended up with backend j. */
  function Winners(s: State, j: nat): set<nat> {
    set p | 0 <= p < |s.pickers| && s.pickers[p].Done? && s.pickers[p].result == Some(j)
  }

  ghost predicate AllDone(s: State, order: seq<nat>) {
    && (forall x, y :: 0 <= x < y < |order| ==> order[x] != order[y])
    && (forall x :: 0 <= x < |order| ==> order[x] < |s.pickers| && s.pickers[order[x]].Done?)
  }

  function WinnersAmong(s: State, order: seq<nat>, j: nat): set<nat> {
    set p | p in order && p in Winners(s, j)
  }

  lemma {:induction false} WinnersCount(s: State, order: seq<nat>, j: nat)
    requires AllDone(s, order)
    ensures |WinnersAmong(s, order, j)| == multiset(Results(s, order))[Some(j)]
  {
    if order != [] {
      var m := |order| - 1;
      var init, last := order[..m], order[m];
      WinnersCount(s, init, j);
      OneMoreWinner(s, order, j);
      assert Results(s, order) == Results(s, init) + [s.pickers[last].result];
    }
  }

  lemma OneMoreWinner(s: State, order: seq<nat>, j: nat)
    requires AllDone(s, order) && order != []
    ensures var init, last := order[..|order| - 1], order[|order| - 1];
            |WinnersAmong(s, order, j)| ==
            |WinnersAmong(s, init, j)| + (if s.pickers[last].result == Some(j) then 1 else 0)
  {
    var init, last := order[..|order| - 1], order[|order| - 1];
    assert order == init + [last];
    var before := WinnersAmong(s, init, j);
    assert last !in before;
    if s.pickers[last].result == Some(j) {
      assert WinnersAmong(s, order, j) == before + {last};
    } else {
      assert WinnersAmong(s, order, j) == before;
    }
  }

  /**
   * The load law for concurrent callers: k * n picks, interleaved in any way over fixed flags and with no
   * wrap, leave backend j with exactly its share.
   */
  lemma ConcurrentLoadLaw(states: seq<State>, steps: seq<Step>, k: nat, j: nat)
    requires IsRun(states, steps) && NoSwaps(steps)
    requires forall p :: 0 <= p < |states[|steps|].pickers| ==> !states[|steps|].pickers[p].Scanning?
    requires var alive := states[0].alive;
             && j < |alive| && |Takers(steps)| == k * |alive|
             && NoWrap(states[0].rr, k * |alive|, |alive|)
    ensures var alive := states[0].alive;
            |Winners(states[|steps|], j)| == if alive[j] then k * (1 + DeadBefore(alive, j)) else 0
  {
    hide NoWrap, DeadBefore, Picks, Takers, Advance, Apply;
    var last, order := states[|steps|], Takers(steps);
    ScheduleIndependent(states, steps);
    LoadLaw(states[0].alive, states[0].rr, k, j);
    WinnersCount(last, order, j);
    assert WinnersAmong(last, order, j) == Winners(last, j);
  }
}
