/** What the conservation law says to an operator: balanced ledgers, admission limits, and when Wait may be trusted. */
module AccountLaws {
  import opened Text
  import Addresses
  import Labels
  import opened Metrics
  import opened Sessions
  import opened Accounts

  ghost function Counted(st: State, col: Column): int {
    Read(st.shared.counters, col)
  }

  predicate AllGone(ss: seq<Session>) {
    forall i :: 0 <= i < |ss| ==> ss[i].pc.Gone?
  }

  predicate AcceptorIdle(a: Acceptor) {
    (a.pc.Waiting? || a.pc.Returned?) && a.todo == []
  }

  /** The sums that must agree once nothing is in flight; `n(col)` is what column col reads. */
  ghost predicate Balanced(n: Column -> int) {
    && n(InState(Syn)) == n(Connections)
    && n(InState(Syn)) == n(Errors(AtHandshake)) + n(Errors(AtRequest)) + n(Errors(AtBackendDial)) + n(Errors(AtReply))
                        + n(Errors(AtRelay)) + n(SessionsOver)
    && n(InState(Established)) == n(InState(Fin)) + n(InState(Rst))
    && n(InState(Established)) == n(Errors(AtRelay)) + n(SessionsOver)
    && n(Handshakes) == n(InState(Syn)) - n(Errors(AtHandshake))
    && n(Requests) == n(Dials)
    && n(RouteFails) == n(Errors(AtBackendDial))
    && n(Outcomes) == n(DialFails) + n(Errors(AtReply)) + n(Errors(AtRelay)) + n(SessionsOver)
    && n(ActiveGauge) == 0
  }

  lemma GoneBalances(lim: Limits, s: Session)
    requires Consistent(s) && s.pc.Gone?
    ensures Balanced(col => Share(lim, s, Counter(col)))
    ensures Share(lim, s, Tokens) == Share(lim, s, DialSlots) == Share(lim, s, WaitGroup) == 0
  {
    assert forall col :: Owed([], Counter(col)) == 0;
  }

  lemma {:induction false} GoneSumsBalance(lim: Limits, ss: seq<Session>)
    requires AllGone(ss) && forall i :: 0 <= i < |ss| ==> Consistent(ss[i])
    ensures Balanced(col => AllShares(lim, ss, Counter(col)))
    ensures AllShares(lim, ss, Tokens) == AllShares(lim, ss, DialSlots) == AllShares(lim, ss, WaitGroup) == 0
  {
    hide Share, Consistent;
    if ss != [] {
      var init, last := ss[..|ss| - 1], ss[|ss| - 1];
      GoneSumsBalance(lim, init);
      GoneBalances(lim, last);
    }
  }

  /**
   * After any run, once every session is over and the accept loop is idle, the ledger balances and nothing
   * is held: all semaphore tokens, dial slots and wait-group entries are back.
   */
  lemma LedgerBalances(states: seq<State>, steps: seq<Step>, k: nat)
    requires IsRun(states, steps) && k <= |steps|
    requires AllGone(states[k].sessions) && AcceptorIdle(states[k].acceptor)
    ensures Balanced(col => Counted(states[k], col))
    ensures var sh := states[k].shared; sh.tokens == sh.dials == sh.wg == 0
    ensures Counted(states[k], Errors(AtConnLimit)) == states[k].acceptor.rejected
  {
    RunKeepsInvariant(states, steps, k);
    hide IsRun, Balanced, Invariant, AllGone;
    SettledBalances(states[k]);
  }

  lemma IdleShare(lim: Limits, a: Acceptor, item: Item)
    requires AcceptorIdle(a)
    ensures AcceptorShare(lim, a, item) == if item == Counter(Errors(AtConnLimit)) then a.rejected else 0
  {
  }

  lemma SettledColumn(st: State, item: Item)
    requires Invariant(st) && AcceptorIdle(st.acceptor)
    ensures Value(st.shared, item) ==
            AllShares(st.limits, st.sessions, item)
                + (if item == Counter(Errors(AtConnLimit)) then st.acceptor.rejected else 0)
  {
    IdleShare(st.limits, st.acceptor, item);
    hide Consistent, AcceptorShare, Value, AllShares;
    assert Conserved(st, item);
  }

  lemma AllConsistent(st: State)
    requires Invariant(st)
    ensures forall i :: 0 <= i < |st.sessions| ==> Consistent(st.sessions[i])
  {
    hide Consistent, Conserved;
  }

  lemma SettledBalances(st: State)
    requires Invariant(st) && AllGone(st.sessions) && AcceptorIdle(st.acceptor)
    ensures Balanced(col => Counted(st, col))
    ensures st.shared.tokens == st.shared.dials == st.shared.wg == 0
    ensures Counted(st, Errors(AtConnLimit)) == st.acceptor.rejected
  {
    hide AllShares, Balanced, Invariant, Read, AllGone, AcceptorShare, Consistent;
    AllConsistent(st);
    GoneSumsBalance(st.limits, st.sessions);
    LimitErrorsAreTheAcceptors(st.limits, st.sessions);
    SettledColumn(st, Tokens);
    SettledColumn(st, DialSlots);
    SettledColumn(st, WaitGroup);
    SettledColumn(st, Counter(Errors(AtConnLimit)));
    forall col | col != Errors(AtConnLimit)
      ensures Counted(st, col) == AllShares(st.limits, st.sessions, Counter(col))
    {
      SettledColumn(st, Counter(col));
    }
    BalancedSame(col => AllShares(st.limits, st.sessions, Counter(col)), col => Counted(st, col));
  }

  lemma BalancedSame(f: Column -> int, g: Column -> int)
    requires Balanced(f) && forall col :: col != Errors(AtConnLimit) ==> f(col) == g(col)
    ensures Balanced(g)
  {
  }

  lemma {:induction false} LimitErrorsAreTheAcceptors(lim: Limits, ss: seq<Session>)
    requires AllGone(ss) && forall i :: 0 <= i < |ss| ==> Consistent(ss[i])
    ensures AllShares(lim, ss, Counter(Errors(AtConnLimit))) == 0
  {
    if ss != [] {
      LimitErrorsAreTheAcceptors(lim, ss[..|ss| - 1]);
    }
  }

  lemma ResetIsIgnorable(err: Option<string>)
    requires IsReset(err)
    ensures IsIgnorable(err)
  {
    hide Contains;
    var k :| 0 <= k < |RESET_TEXTS| && Contains(ToLower(err.value), RESET_TEXTS[k]);
    assert IGNORABLE_TEXTS[k + 1] == RESET_TEXTS[k];
  }

  /** A session whose copy directions end well or by a reset is a success, even when it is counted as rst. */
  lemma ResetsAreNoErrors(s: Session, err1: Option<string>, err2: Option<string>)
    requires (err1.None? || IsReset(err1)) && (err2.None? || IsReset(err2))
    ensures AfterRelay(s, err1, err2).end == Relayed(false, err1.Some? || err2.Some?)
    ensures SessionOver in AfterRelay(s, err1, err2).todo && ConnError(AtRelay) !in AfterRelay(s, err1, err2).todo
  {
    if err1.Some? {
      ResetIsIgnorable(err1);
    }
    if err2.Some? {
      ResetIsIgnorable(err2);
    }
    hide IsReset, IsIgnorable;
    assert err1.None? ==> IsIgnorable(err1) && !IsReset(err1) by {
      NoErrorIsIgnorable();
    }
    assert err2.None? ==> IsIgnorable(err2) && !IsReset(err2) by {
      NoErrorIsIgnorable();
    }
  }

  lemma NoErrorIsIgnorable()
    ensures IsIgnorable(None) && !IsReset(None)
  {
  }

  // ---------------------------------------------------------------- admission

  function Holders(ss: seq<Session>): nat {
    if ss == [] then 0 else Holders(ss[..|ss| - 1]) + (if Leaving(ss[|ss| - 1].pc) then 0 else 1)
  }

  function Diallers(ss: seq<Session>): nat {
    if ss == [] then 0
    else
      var pc := ss[|ss| - 1].pc;
      Diallers(ss[..|ss| - 1]) + (if InDial(pc) && !pc.Acquiring? then 1 else 0)
  }

  /** Sessions between giving back their connection token and leaving the active gauge. */
  function Draining(ss: seq<Session>): nat {
    if ss == [] then 0
    else
      var s := ss[|ss| - 1];
      Draining(ss[..|ss| - 1]) + (if s.pc.Parting? && s.todo == [Closed] then 1 else 0)
  }

  lemma {:induction false} SharesCount(lim: Limits, ss: seq<Session>)
    requires forall i :: 0 <= i < |ss| ==> Consistent(ss[i])
    ensures lim.maxConnections > 0 ==> AllShares(lim, ss, Tokens) == Holders(ss)
    ensures lim.maxDials > 0 ==> AllShares(lim, ss, DialSlots) == Diallers(ss)
    ensures AllShares(lim, ss, Counter(ActiveGauge)) == Holders(ss) + Draining(ss)
  {
    if ss != [] {
      var s := ss[|ss| - 1];
      SharesCount(lim, ss[..|ss| - 1]);
      ActiveShare(lim, s);
      hide Consistent, Due, Owed;
    }
  }

  lemma {:induction false} PlainOwesNoGauge(todo: seq<Metric>)
    requires Plain(todo)
    ensures Owed(todo, Counter(ActiveGauge)) == 0
  {
    if todo != [] {
      PlainOwesNoGauge(todo[1..]);
    }
  }

  lemma ActiveShare(lim: Limits, s: Session)
    requires Consistent(s)
    ensures Share(lim, s, Counter(ActiveGauge)) ==
            (if Leaving(s.pc) then 0 else 1) + (if s.pc.Parting? && s.todo == [Closed] then 1 else 0)
  {
    if s.pc.Parting? {
      Owes([Closed], Counter(ActiveGauge));
    } else {
      PlainOwesNoGauge(s.todo);
    }
  }

  /** The accept loop holds a token for a connection that it has not yet added to the gauge. */
  function Uncounted(a: Acceptor): int {
    One(Opened in a.todo)
  }

  /**
   * Admission, in every state of every run: connection tokens are held by exactly the sessions before their
   * release (and by the accept loop while it starts one), dial slots by exactly the sessions inside a dial;
   * neither exceeds its limit; and the active gauge is the tokens, plus the sessions draining, less the one
   * admitted but not yet counted.
   */
  lemma AdmissionHolds(states: seq<State>, steps: seq<Step>, k: nat)
    requires IsRun(states, steps) && k <= |steps|
    ensures
      var st := states[k];
      && (st.limits.maxConnections > 0 ==>
            && st.shared.tokens == Holders(st.sessions) + One(Started(st.acceptor))
            && st.shared.tokens <= st.limits.maxConnections
            && Counted(st, ActiveGauge) == st.shared.tokens + Draining(st.sessions) - Uncounted(st.acceptor))
      && (st.limits.maxDials > 0 ==>
            st.shared.dials == Diallers(st.sessions) && st.shared.dials <= st.limits.maxDials)
  {
    var st := states[k];
    RunKeepsInvariant(states, steps, k);
    SharesCount(st.limits, st.sessions);
    hide IsRun, Consistent, AllShares;
    assert Conserved(st, Tokens) && Conserved(st, DialSlots) && Conserved(st, Counter(ActiveGauge));
    if st.acceptor.pc.Admitted? {
      Owes(st.acceptor.todo, Counter(ActiveGauge));
    } else {
      PlainOwesNoGauge(st.acceptor.todo);
    }
    hide Owed;
  }

  /**
   * The gauge reads more than the connection limit exactly when there are more sessions draining than tokens
   * free, not counting the connection that is being added.
   */
  lemma GaugeExceedsIff(states: seq<State>, steps: seq<Step>, k: nat)
    requires IsRun(states, steps) && k <= |steps| && states[k].limits.maxConnections > 0
    ensures var st := states[k];
            Counted(st, ActiveGauge) > st.limits.maxConnections <==>
            Draining(st.sessions) > st.limits.maxConnections - st.shared.tokens + Uncounted(st.acceptor)
  {
    hide *;
    AdmissionHolds(states, steps, k);
  }

  /** A session makes at most two rounds, one discovery and one backend connection, whatever is reloaded meanwhile. */
  lemma AttemptsAreBounded(states: seq<State>, steps: seq<Step>, k: nat, i: nat)
    requires IsRun(states, steps) && k <= |steps| && i < |states[k].sessions|
    ensures var s := states[k].sessions[i]; s.rounds <= 2 && s.discovers <= 1 && s.conns <= 1
    ensures states[k].sessions[i].pc.Relaying? ==> states[k].sessions[i].conns == 1
  {
    RunKeepsInvariant(states, steps, k);
  }

  // ---------------------------------------------------------------- waiting for the end

  lemma {:induction false} WaitGroupCounts(lim: Limits, ss: seq<Session>)
    ensures AllShares(lim, ss, WaitGroup) >= 0
    ensures AllShares(lim, ss, WaitGroup) == 0 <==> AllGone(ss)
  {
    if ss != [] {
      var n := |ss| - 1;
      WaitGroupCounts(lim, ss[..n]);
      if AllGone(ss[..n]) && ss[n].pc.Gone? {
        forall i | 0 <= i < |ss|
          ensures ss[i].pc.Gone?
        {
          if i < n {
            assert ss[..n][i].pc.Gone?;
          }
        }
      }
    }
  }

  /** Once Serve has returned, an empty wait group means that no session is left - and none will ever come. */
  lemma WaitIsTrustworthy(states: seq<State>, steps: seq<Step>, k: nat)
    requires IsRun(states, steps) && k <= |steps| && states[k].acceptor.pc.Returned?
    ensures states[k].shared.wg == 0 <==> AllGone(states[k].sessions)
    ensures states[k].shared.wg == 0 ==> forall m :: k <= m <= |steps| ==> states[m].sessions == states[k].sessions
  {
    var st := states[k];
    RunKeepsInvariant(states, steps, k);
    WaitGroupCounts(st.limits, st.sessions);
    assert Conserved(st, WaitGroup);
    assert Owed(st.acceptor.todo, WaitGroup) == 0;
    if st.shared.wg == 0 {
      forall m | k <= m <= |steps|
        ensures states[m].sessions == st.sessions
      {
        NothingMoves(states, steps, k, m);
      }
    }
  }

  lemma {:induction false} NothingMoves(states: seq<State>, steps: seq<Step>, k: nat, m: nat)
    requires IsRun(states, steps) && k <= m <= |steps|
    requires states[k].acceptor.pc.Returned? && AllGone(states[k].sessions)
    requires states[k].acceptor.todo == [] && forall i :: 0 <= i < |states[k].sessions| ==>
             states[k].sessions[i].todo == []
    ensures states[m].sessions == states[k].sessions && states[m].acceptor == states[k].acceptor
    decreases m - k
  {
    if k < m {
      NothingMoves(states, steps, k, m - 1);
      hide Turn, Fits, RoutersOk, Log;
      assert Enabled(states[m - 1], steps[m - 1]);
    }
  }

  // ---------------------------------------------------------------- counters of different labels

  lemma SpelledWithoutComma(w: Word)
    ensures ',' !in Spell(w)
  {
  }

  /**
   * The keys under which sessions count outcomes tell client texts, backends and results apart, whatever the
   * client's host text holds: "unknown" and "none" stand in for empty texts, and backend addresses and results
   * have no comma.
   */
  lemma OutcomesKeptApart(h1: string, t1: string, w1: Word, h2: string, t2: string, w2: Word)
    requires ',' !in t1 && ',' !in t2
    requires ServedKey(h1, t1, Spell(w1)) == ServedKey(h2, t2, Spell(w2))
    ensures Or(h1, "unknown") == Or(h2, "unknown") && Or(t1, "none") == Or(t2, "none") && Spell(w1) == Spell(w2)
  {
    SpelledWithoutComma(w1);
    SpelledWithoutComma(w2);
    TriplesKeptApart(Or(h1, "unknown"), Or(t1, "none"), Or(Spell(w1), "unknown"),
                     Or(h2, "unknown"), Or(t2, "none"), Or(Spell(w2), "unknown"));
    assert Spell(w1) != [] && Spell(w2) != [];
  }

  lemma TriplesKeptApart(h1: string, t1: string, r1: string, h2: string, t2: string, r2: string)
    requires ',' !in t1 && ',' !in t2 && ',' !in r1 && ',' !in r2
    requires Labels.HostBackendResult(h1, t1, r1) == Labels.HostBackendResult(h2, t2, r2)
    ensures h1 == h2 && t1 == t2 && r1 == r2
  {
    hide Labels.Key;
    var x := [Labels.Label("host", h1), Labels.Label("backend", t1), Labels.Label("result", r1)];
    var y := [Labels.Label("host", h2), Labels.Label("backend", t2), Labels.Label("result", r2)];
    Labels.KeysInjective(x, y);
    assert x[0] == y[0] && x[1] == y[1] && x[2] == y[2];
  }

  /** The same for the keys of route failures and dial failures. */
  lemma FailuresKeptApart(h1: string, w1: Word, h2: string, w2: Word)
    requires Labels.HostReason(h1, Spell(w1)) == Labels.HostReason(h2, Spell(w2))
    ensures h1 == h2 && Spell(w1) == Spell(w2)
  {
    hide Labels.Key;
    SpelledWithoutComma(w1);
    SpelledWithoutComma(w2);
    var x := [Labels.Label("host", h1), Labels.Label("reason", Spell(w1))];
    var y := [Labels.Label("host", h2), Labels.Label("reason", Spell(w2))];
    Labels.KeysInjective(x, y);
    assert x[0] == y[0] && x[1] == y[1];
  }

  /** The IPv4 addresses that pools hold have no comma. */
  lemma QuadPortWithoutComma(q: Addresses.Quad, p: Addresses.port)
    ensures ',' !in Addresses.QuadPort(q, p)
  {
    Addresses.QuadPortChars(q, p);
  }
}
