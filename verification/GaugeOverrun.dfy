/**
 * The connection token is given back before the active gauge is decremented, so the gauge has no bound:
 * sessions that linger between the two still count as active while new ones are admitted.
 */
module GaugeOverrun {
  import opened Router
  import opened Metrics
  import opened Sessions

  ghost predicate Ends(states: seq<State>, steps: seq<Step>, st: State) {
    IsRun(states, steps) && states[|steps|] == st
  }

  lemma Extend(states: seq<State>, steps: seq<Step>, st: State, step: Step)
    returns (longer: seq<State>, more: seq<Step>)
    requires Ends(states, steps, st) && Legal(step) && Enabled(st, step)
    ensures Sound(st) && Ends(longer, more, Apply(st, step))
  {
    RunContinues(states, steps, step);
    longer, more := states + [Apply(st, step)], steps + [step];
    hide IsRun, Apply, Sound, Enabled, Legal;
    assert longer[|more|] == Apply(st, step);
  }

  lemma Accept(states: seq<State>, steps: seq<Step>, st: State, ev: AcceptEvent)
    returns (longer: seq<State>, more: seq<Step>, next: State)
    requires Ends(states, steps, st) && AcceptorCan(st.acceptor, ev)
    ensures next == AcceptorStep(st, ev) && Ends(longer, more, next)
  {
    hide Ends, AcceptorStep, AcceptorCan;
    longer, more := Extend(states, steps, st, ByAcceptor(ev));
    next := Apply(st, ByAcceptor(ev));
  }

  lemma Serve(states: seq<State>, steps: seq<Step>, st: State, i: nat, ev: Event)
    returns (longer: seq<State>, more: seq<Step>, next: State)
    requires Ends(states, steps, st) && i < |st.sessions| && SessionCan(st.sessions[i], ev)
    ensures RoutersOk(st.shared) && Fits(st.shared, st.sessions[i])
    ensures next == SessionStep(st, i, ev) && Ends(longer, more, next)
  {
    hide Ends, SessionStep, SessionCan, RoutersOk, Fits;
    longer, more := Extend(states, steps, st, BySession(i, ev));
    next := Apply(st, BySession(i, ev));
  }

  ghost predicate Ready(st: State) {
    st.acceptor.pc.Waiting? && st.acceptor.todo == [] && 0 == st.shared.tokens < st.limits.maxConnections
  }

  /** A connection is accepted, counted and given to a new session. */
  lemma Admit(states: seq<State>, steps: seq<Step>, st: State)
    returns (longer: seq<State>, more: seq<Step>, next: State)
    requires Ends(states, steps, st) && Ready(st)
    ensures Ends(longer, more, next)
    ensures next.acceptor == st.acceptor && next.limits == st.limits && next.sessions == st.sessions + [NEW_SESSION]
    ensures next.shared.tokens == 1 && next.shared.counters.active == st.shared.counters.active + 1
  {
    hide Ends, Bump;
    longer, more, next := Accept(states, steps, st, Arrive);
    longer, more, next := Accept(longer, more, next, Proceed);
    longer, more, next := Accept(longer, more, next, Proceed);
    longer, more, next := Accept(longer, more, next, Proceed);
    longer, more, next := Accept(longer, more, next, Proceed);
    longer, more, next := Accept(longer, more, next, Proceed);
    longer, more, next := Accept(longer, more, next, Proceed);
  }

  /** The session fails in its handshake and gives its token back; its gauge entry stays until its next step. */
  lemma Drain(states: seq<State>, steps: seq<Step>, st: State)
    returns (longer: seq<State>, more: seq<Step>, next: State)
    requires Ends(states, steps, st) && st.limits.maxConnections > 0
    requires st.sessions != [] && st.sessions[|st.sessions| - 1] == NEW_SESSION
    ensures Ends(longer, more, next)
    ensures next.acceptor == st.acceptor && next.limits == st.limits
    ensures next.shared.tokens == st.shared.tokens - 1 && next.shared.counters.active == st.shared.counters.active
  {
    hide Ends, Bump, RoutersOk;
    var i := |st.sessions| - 1;
    longer, more, next := Serve(states, steps, st, i, HelloDone(false));
    longer, more, next := Serve(longer, more, next, i, Tau);
    longer, more, next := Serve(longer, more, next, i, Tau);
  }

  /** Whatever the connection limit, for every bound there is a run in which the active gauge exceeds it. */
  lemma {:induction false} GaugeIsUnbounded(st0: State, bound: nat) returns (states: seq<State>, steps: seq<Step>)
    requires Initial(st0) && st0.limits.maxConnections > 0
    ensures IsRun(states, steps) && states[0].limits == st0.limits
    ensures states[|steps|].shared.counters.active > bound
  {
    hide *;
    var st;
    states, steps, st := Linger(st0, bound + 1);
    EndOf(states, steps, st, st0.limits);
  }

  lemma {:induction false} Linger(st0: State, n: nat) returns (states: seq<State>, steps: seq<Step>, st: State)
    requires Initial(st0) && st0.limits.maxConnections > 0
    ensures Ends(states, steps, st) && Ready(st) && st.limits == st0.limits && st.shared.counters.active == n
  {
    if n == 0 {
      states, steps, st := [st0], [], st0;
    } else {
      states, steps, st := Linger(st0, n - 1);
      hide Ends, Initial;
      states, steps, st := Admit(states, steps, st);
      states, steps, st := Drain(states, steps, st);
    }
  }

  lemma {:induction false} LimitsStay(states: seq<State>, steps: seq<Step>, k: nat)
    requires IsRun(states, steps) && k <= |steps|
    ensures states[k].limits == states[0].limits
  {
    if k > 0 {
      LimitsStay(states, steps, k - 1);
      assert states[k] == Apply(states[k - 1], steps[k - 1]);
      hide Turn, Log, SetAliveSpec, RoutersOk, Fits;
    }
  }

  lemma EndOf(states: seq<State>, steps: seq<Step>, st: State, lim: Limits)
    requires Ends(states, steps, st) && st.limits == lim
    ensures IsRun(states, steps) && states[|steps|] == st && states[0].limits == lim
  {
    hide IsRun;
    LimitsStay(states, steps, |steps|);
  }
}
