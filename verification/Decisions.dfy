/**
 * Which way a session and the accept loop go at each step, over whole runs, in the terms an observer would
 * use: what the router held, how many sessions are open, what the client asked for, which texts are counted.
 */
module Decisions {
  import opened Text
  import opened Hosts
  import opened Addresses
  import opened Scan
  import opened Router
  import opened RouterLaws
  import opened Metrics
  import opened Wire
  import opened Sessions
  import opened Accounts
  import opened AccountLaws
  import opened RoutingSafety

  /** Session i's own step k: what it finds and what it leaves. */
  lemma OwnTurn(states: seq<State>, steps: seq<Step>, i: nat, k: nat)
    returns (sh: Shared, s: Session, tu: Shared, t: Session, ev: Event)
    requires Acts(states, steps, i, k)
    ensures sh == states[k].shared && s == states[k].sessions[i] && ev == steps[k].ev
    ensures RoutersOk(sh) && Fits(sh, s) && CanTurn(s, ev) && i < |states[k + 1].sessions|
    ensures tu == states[k + 1].shared && t == states[k + 1].sessions[i]
    ensures (tu, t) == Turn(states[k].limits, sh, s, ev)
  {
    hide Turn, RoutersOk, Fits, CanTurn, Legal;
    assert Sound(states[k]) && Enabled(states[k], steps[k]) && states[k + 1] == Apply(states[k], steps[k]);
    sh, s, ev := states[k].shared, states[k].sessions[i], steps[k].ev;
    tu, t := states[k + 1].shared, states[k + 1].sessions[i];
  }

  /** The session is over, in this way, and has these collector calls to make. */
  predicate Ended(t: Session, end: End, calls: seq<Metric>) {
    t.pc.Dropping? && t.end == end && t.todo == calls
  }

  /** The session goes on at `pc`, with these collector calls to make first. */
  predicate GoesOn(t: Session, pc: Pc, calls: seq<Metric>) {
    t.pc == pc && t.todo == calls && t.end.Open?
  }

  // ---------------------------------------------------------------- the request is read

  lemma GreetingDecides(states: seq<State>, steps: seq<Step>, i: nat, k: nat)
    requires Acts(states, steps, i, k) && states[k].sessions[i].pc.Hello?
    ensures steps[k].ev.HelloDone? && i < |states[k + 1].sessions|
    ensures var t := states[k + 1].sessions[i];
            if steps[k].ev.ok then GoesOn(t, Reading, []) else Ended(t, BadHello, [ConnError(AtHandshake)])
  {
    hide Acts, RoutersOk;
    AlwaysConsistent(states, steps, i, k);
    var sh, s, tu, t, ev := OwnTurn(states, steps, i, k);
  }

  lemma RequestDecides(states: seq<State>, steps: seq<Step>, i: nat, k: nat)
    requires Acts(states, steps, i, k) && states[k].sessions[i].pc.Reading?
    ensures steps[k].ev.ReadDone? && i < |states[k + 1].sessions|
    ensures var t := states[k + 1].sessions[i];
            match steps[k].ev.request
            case Some(req) => GoesOn(t, Routing, [Greeted]) && t.req == req
            case None => Ended(t, BadRequest, [Greeted, ConnError(AtRequest)])
  {
    hide Acts, RoutersOk;
    AlwaysConsistent(states, steps, i, k);
    var sh, s, tu, t, ev := OwnTurn(states, steps, i, k);
  }

  lemma AlwaysConsistent(states: seq<State>, steps: seq<Step>, i: nat, k: nat)
    requires Acts(states, steps, i, k)
    ensures Consistent(states[k].sessions[i])
  {
    hide Consistent, Conserved;
    RunKeepsInvariant(states, steps, k);
  }

  // ---------------------------------------------------------------- routing

  /**
   * A request by address: it goes on with the host that the installed router's index gives; it goes to
   * discovery exactly when the address is not in that index, discovery is on and this is the first attempt;
   * otherwise the session ends, counted as ip_not_in_routes.
   */
  lemma AddressRoutingDecides(states: seq<State>, steps: seq<Step>, i: nat, k: nat)
    requires Acts(states, steps, i, k) && states[k].sessions[i].pc.Routing? && states[k].sessions[i].req.atyp == 1
    ensures states[k].shared.current < |states[k].shared.routers| && i < |states[k + 1].sessions|
    ensures var s, t := states[k].sessions[i], states[k + 1].sessions[i];
            var addr := HostPort(s.req.host, s.req.port);
            var index := states[k].shared.routers[states[k].shared.current].index;
            && (t.pc.Acquiring? <==> addr in index)
            && (addr in index ==> GoesOn(t, Acquiring, [RequestSeen(Ipv4)]) && t.host == index[addr])
            && (t.pc.Discovering? <==> addr !in index && states[k].limits.discovery && s.attempt == 0)
            && (t.pc.Discovering? ==> GoesOn(t, Discovering(None), []))
            && (!t.pc.Acquiring? && !t.pc.Discovering? ==>
                  Ended(t, NoRoute, [RouteFailure(addr, "ip_not_in_routes"), ConnError(AtBackendDial)]))
  {
    hide Acts, HostPort, NormalizeHost, Fits;
    AlwaysConsistent(states, steps, i, k);
    var sh, s, tu, t, ev := OwnTurn(states, steps, i, k);
  }

  /** A request by name always goes on, with the name normalised once. */
  lemma NameRoutingDecides(states: seq<State>, steps: seq<Step>, i: nat, k: nat)
    requires Acts(states, steps, i, k) && states[k].sessions[i].pc.Routing? && states[k].sessions[i].req.atyp != 1
    ensures i < |states[k + 1].sessions|
    ensures var s, t := states[k].sessions[i], states[k + 1].sessions[i];
            GoesOn(t, Acquiring, [RequestSeen(Fqdn)]) && t.host == NormalizeHost(s.req.host)
  {
    hide Acts, HostPort, NormalizeHost, Fits, RoutersOk;
    AlwaysConsistent(states, steps, i, k);
    var sh, s, tu, t, ev := OwnTurn(states, steps, i, k);
  }

  // ---------------------------------------------------------------- admission to a dial

  /** A dial is refused exactly when there is a limit and as many sessions as it allows are inside a dial. */
  lemma DialSlotDecides(states: seq<State>, steps: seq<Step>, i: nat, k: nat)
    requires Acts(states, steps, i, k) && states[k].sessions[i].pc.Acquiring?
    ensures i < |states[k + 1].sessions|
    ensures var lim, t := states[k].limits, states[k + 1].sessions[i];
            && (t.pc.Judging? <==> lim.maxDials > 0 && Diallers(states[k].sessions) == lim.maxDials)
            && (t.pc.Judging? ==> GoesOn(t, Judging(LimitReached), [Dialled]) && t.target == "")
            && (!t.pc.Judging? ==> GoesOn(t, Entering, []))
  {
    hide Acts, RoutersOk;
    AlwaysConsistent(states, steps, i, k);
    ActsInRun(states, steps, i, k);
    AdmissionHolds(states, steps, k) by {
      hide *;
    }
    var sh, s, tu, t, ev := OwnTurn(states, steps, i, k);
  }

  lemma ActsInRun(states: seq<State>, steps: seq<Step>, i: nat, k: nat)
    requires Acts(states, steps, i, k)
    ensures IsRun(states, steps) && k < |steps|
  {
    hide IsRun;
  }

  // ---------------------------------------------------------------- pick and dial

  /** One pool's ticket counter has moved on by one, modulo 2^64, and nothing else about the routers has changed. */
  ghost predicate OneTicketTaken(sh: Shared, tu: Shared, r: nat, key: string) {
    && r < |sh.routers| && key in sh.routers[r].pools
    && |tu.routers| == |sh.routers| && tu.current == sh.current && tu.counters == sh.counters
    && (forall q :: 0 <= q < |sh.routers| && q != r ==> tu.routers[q] == sh.routers[q])
    && tu.routers[r].index == sh.routers[r].index && tu.routers[r].pools.Keys == sh.routers[r].pools.Keys
    && (forall h :: h in sh.routers[r].pools && h != key ==> tu.routers[r].pools[h] == sh.routers[r].pools[h])
    && var p, q := sh.routers[r].pools[key], tu.routers[r].pools[key];
       q.addresses == p.addresses && q.alive == p.alive && q.rr as int == (p.rr as int + 1) % 0x1_0000_0000_0000_0000
  }

  /** The ticket is the pool's counter; without a pool the route is not found. */
  lemma TicketDecides(states: seq<State>, steps: seq<Step>, i: nat, k: nat)
    requires Acts(states, steps, i, k) && states[k].sessions[i].pc.Ticketing?
    ensures i < |states[k + 1].sessions| && states[k].sessions[i].pc.router < |states[k].shared.routers|
    ensures var s, t := states[k].sessions[i], states[k + 1].sessions[i];
            var r, key := s.pc.router, NormalizeHost(NormalizeHost(s.host));
            var pools := states[k].shared.routers[r].pools;
            && t.host == s.host && t.req == s.req
            && (key in pools ==>
                  && GoesOn(t, Scanning(r, pools[key].rr, 0), [])
                  && OneTicketTaken(states[k].shared, states[k + 1].shared, r, key))
            && (key !in pools ==>
                  GoesOn(t, Releasing(NotFound), []) && t.target == "" && states[k + 1].shared == states[k].shared)
  {
    hide Acts, NormalizeHost, RoutersOk;
    AlwaysConsistent(states, steps, i, k);
    var sh, s, tu, t, ev := OwnTurn(states, steps, i, k);
  }

  /** A load dials its backend if the flag is set, else goes on to the next, and gives up after the last. */
  lemma LoadDecides(states: seq<State>, steps: seq<Step>, i: nat, k: nat)
    requires Acts(states, steps, i, k) && states[k].sessions[i].pc.Scanning?
    ensures i < |states[k + 1].sessions| && states[k + 1].shared == states[k].shared
    ensures var s, t := states[k].sessions[i], states[k + 1].sessions[i];
            var r, start, x := s.pc.router, s.pc.start, s.pc.i;
            && PoolSize(states[k].shared, s.host, r, |states[k].shared.routers[r].pools[PoolKey(s.host)].addresses|)
            && var p := states[k].shared.routers[r].pools[PoolKey(s.host)];
               var n := |p.addresses|;
               && x < n == |p.alive|
               && var j := (start as int + x) % 0x1_0000_0000_0000_0000 % n;
                  && (p.alive[j] ==> GoesOn(t, Dialling(r, j), []) && t.target == p.addresses[j])
                  && (!p.alive[j] && x + 1 < n ==> GoesOn(t, Scanning(r, start, x + 1), []))
                  && (!p.alive[j] && x + 1 == n ==> GoesOn(t, Releasing(NoAlive), []) && t.target == "")
  {
    hide Acts, PoolKey;
    AlwaysConsistent(states, steps, i, k);
    var sh, s, tu, t, ev := OwnTurn(states, steps, i, k);
    assert RouterOk(sh.routers[s.pc.router]);
  }

  /** The verdict of a dial is what the network said; then the slot is released and the dial counted. */
  lemma DialDecides(states: seq<State>, steps: seq<Step>, i: nat, k: nat)
    requires Acts(states, steps, i, k) && (states[k].sessions[i].pc.Dialling? || states[k].sessions[i].pc.Releasing?)
    ensures i < |states[k + 1].sessions|
    ensures var s, t := states[k].sessions[i], states[k + 1].sessions[i];
            && t.target == s.target
            && (s.pc.Dialling? ==>
                  && steps[k].ev.DialDone?
                  && GoesOn(t, Releasing(if steps[k].ev.ok then DialResult.Connected(s.target)
                                         else DialFailed(s.target, steps[k].ev.timeout)), []))
            && (s.pc.Releasing? ==> GoesOn(t, Judging(s.pc.result), [Dialled]))
  {
    hide Acts, RoutersOk, Fits;
    AlwaysConsistent(states, steps, i, k);
    var sh, s, tu, t, ev := OwnTurn(states, steps, i, k);
  }

  // ---------------------------------------------------------------- what a verdict rests on

  /** Step l is the session's latest lookup of its host's pool, in router r, and nothing was acquired since. */
  ghost predicate LookedUpAt(states: seq<State>, steps: seq<Step>, i: nat, l: nat, k: nat, host: string, r: nat,
                             found: bool) {
    && l < k && Acts(states, steps, i, l)
    && states[l].sessions[i].pc == Ticketing(r) && states[l].sessions[i].host == host
    && r < |states[l].shared.routers| && (found <==> PoolKey(host) in states[l].shared.routers[r].pools)
    && forall m :: l < m < k && Acts(states, steps, i, m) ==> !LooksOrAcquires(states, i, m)
  }

  ghost predicate LooksOrAcquires(states: seq<State>, i: nat, m: int) {
    && 0 <= m < |states| && i < |states[m].sessions|
    && (states[m].sessions[i].pc.Ticketing? || states[m].sessions[i].pc.Acquiring?)
  }

  /** Step c is the session's last: it found no free dial slot. */
  ghost predicate RefusedAt(states: seq<State>, steps: seq<Step>, i: nat, c: nat, k: nat) {
    && c < k && Acts(states, steps, i, c) && states[c].sessions[i].pc.Acquiring?
    && forall m :: c < m < k ==> !Acts(states, steps, i, m)
  }

  ghost predicate Found(states: seq<State>, steps: seq<Step>, i: nat, k: nat, host: string, r: nat) {
    exists l: nat :: LookedUpAt(states, steps, i, l, k, host, r, true)
  }

  /** The router that the session entered had no pool for its host. */
  ghost predicate Missing(states: seq<State>, steps: seq<Step>, i: nat, k: nat, host: string) {
    exists l: nat, r: nat :: LookedUpAt(states, steps, i, l, k, host, r, false)
  }

  ghost predicate Present(states: seq<State>, steps: seq<Step>, i: nat, k: nat, host: string) {
    exists r: nat :: Found(states, steps, i, k, host, r)
  }

  ghost predicate Refused(states: seq<State>, steps: seq<Step>, i: nat, k: nat) {
    exists c: nat :: RefusedAt(states, steps, i, c, k)
  }

  /** What the collector is told about the backend of this verdict. */
  function TargetOf(result: DialResult): string {
    match result
    case Connected(target) => target
    case DialFailed(target, _) => target
    case _ => ""
  }

  ghost predicate Judged(states: seq<State>, steps: seq<Step>, i: nat, k: nat, s: Session) {
    match s.pc
    case Scanning(r, _, _) => Found(states, steps, i, k, s.host, r)
    case Dialling(r, _) => Found(states, steps, i, k, s.host, r)
    case Releasing(result) =>
      && result != LimitReached && s.target == TargetOf(result)
      && (if result == NotFound then Missing(states, steps, i, k, s.host) else Present(states, steps, i, k, s.host))
    case Judging(result) =>
      && s.target == TargetOf(result)
      && (if result == NotFound then Missing(states, steps, i, k, s.host)
          else if result == LimitReached then Refused(states, steps, i, k)
          else Present(states, steps, i, k, s.host))
    case Discovering(Some(result)) => result == NotFound && s.target == ""
    case _ => true
  }

  lemma LookupStands(states: seq<State>, steps: seq<Step>, i: nat, l: nat, k: nat, host: string, r: nat, found: bool)
    requires LookedUpAt(states, steps, i, l, k, host, r, found)
    requires Acts(states, steps, i, k) ==> !LooksOrAcquires(states, i, k)
    ensures LookedUpAt(states, steps, i, l, k + 1, host, r, found)
  {
    hide Acts, LooksOrAcquires, PoolKey;
  }

  lemma FoundStands(states: seq<State>, steps: seq<Step>, i: nat, k: nat, host: string, r: nat)
    requires Found(states, steps, i, k, host, r)
    requires Acts(states, steps, i, k) ==> !LooksOrAcquires(states, i, k)
    ensures Found(states, steps, i, k + 1, host, r)
  {
    hide Acts, LooksOrAcquires, LookedUpAt;
    var l: nat :| LookedUpAt(states, steps, i, l, k, host, r, true);
    LookupStands(states, steps, i, l, k, host, r, true);
  }

  lemma VerdictStands(states: seq<State>, steps: seq<Step>, i: nat, k: nat, host: string)
    requires Acts(states, steps, i, k) ==> !LooksOrAcquires(states, i, k)
    ensures Missing(states, steps, i, k, host) ==> Missing(states, steps, i, k + 1, host)
    ensures Present(states, steps, i, k, host) ==> Present(states, steps, i, k + 1, host)
    ensures !Acts(states, steps, i, k) && Refused(states, steps, i, k) ==> Refused(states, steps, i, k + 1)
  {
    hide Acts, LooksOrAcquires, LookedUpAt, Found;
    if l: nat, r: nat :| LookedUpAt(states, steps, i, l, k, host, r, false) {
      LookupStands(states, steps, i, l, k, host, r, false);
    }
    if r: nat :| Found(states, steps, i, k, host, r) {
      FoundStands(states, steps, i, k, host, r);
    }
    if !Acts(states, steps, i, k) && Refused(states, steps, i, k) {
      var c: nat :| RefusedAt(states, steps, i, c, k);
      assert RefusedAt(states, steps, i, c, k + 1);
    }
  }

  lemma StillJudged(states: seq<State>, steps: seq<Step>, i: nat, k: nat, s: Session)
    requires Judged(states, steps, i, k, s) && !Acts(states, steps, i, k)
    ensures Judged(states, steps, i, k + 1, s)
  {
    hide Acts, Found, Missing, Present, Refused;
    VerdictStands(states, steps, i, k, s.host);
    match s.pc {
      case Scanning(r, _, _) => FoundStands(states, steps, i, k, s.host, r);
      case Dialling(r, _) => FoundStands(states, steps, i, k, s.host, r);
      case _ =>
    }
  }

  lemma TicketJudged(states: seq<State>, steps: seq<Step>, i: nat, k: nat)
    requires Acts(states, steps, i, k) && states[k].sessions[i].pc.Ticketing?
    ensures i < |states[k + 1].sessions| && Judged(states, steps, i, k + 1, states[k + 1].sessions[i])
  {
    TicketDecides(states, steps, i, k);
    hide Acts, PoolKey, OneTicketTaken;
    var s, t := states[k].sessions[i], states[k + 1].sessions[i];
    var r := s.pc.router;
    var found := PoolKey(s.host) in states[k].shared.routers[r].pools;
    assert LookedUpAt(states, steps, i, k, k + 1, s.host, r, found);
    assert found ==> Found(states, steps, i, k + 1, s.host, r);
  }

  lemma ScanJudged(states: seq<State>, steps: seq<Step>, i: nat, k: nat)
    requires Acts(states, steps, i, k) && Judged(states, steps, i, k, states[k].sessions[i])
    requires var pc := states[k].sessions[i].pc; pc.Scanning? || pc.Dialling? || pc.Releasing?
    ensures i < |states[k + 1].sessions| && Judged(states, steps, i, k + 1, states[k + 1].sessions[i])
  {
    hide Acts, Found, Missing, PoolKey, RoutersOk, CanTurn, Fits, Slot;
    var sh, s, tu, t, ev := OwnTurn(states, steps, i, k);
    VerdictStands(states, steps, i, k, s.host);
    if !s.pc.Releasing? {
      FoundStands(states, steps, i, k, s.host, s.pc.router);
      assert Present(states, steps, i, k + 1, s.host);
    }
  }

  lemma ElseJudged(states: seq<State>, steps: seq<Step>, i: nat, k: nat)
    requires Acts(states, steps, i, k) && Judged(states, steps, i, k, states[k].sessions[i])
    requires var pc := states[k].sessions[i].pc;
             !pc.Ticketing? && !pc.Scanning? && !pc.Dialling? && !pc.Releasing?
    ensures i < |states[k + 1].sessions| && Judged(states, steps, i, k + 1, states[k + 1].sessions[i])
  {
    hide Acts, Found, Missing, Present, HostPort, NormalizeHost, Spell, IsReset, IsIgnorable, RoutersOk, Fits,
      AfterLoad, AfterTicketing;
    var sh, s, tu, t, ev := OwnTurn(states, steps, i, k);
    if s.pc.Acquiring? {
      assert RefusedAt(states, steps, i, k, k + 1);
    }
  }

  lemma {:induction false} AlwaysJudged(states: seq<State>, steps: seq<Step>, i: nat, k: nat)
    requires IsRun(states, steps) && k <= |steps| && i < |states[k].sessions|
    ensures Judged(states, steps, i, k, states[k].sessions[i])
  {
    hide Apply, Sound, Enabled, Legal, Acts, Found, Missing, Present, Refused;
    if k > 0 {
      if i < |states[k - 1].sessions| {
        AlwaysJudged(states, steps, i, k - 1);
        var s := states[k - 1].sessions[i];
        if !Acts(states, steps, i, k - 1) {
          StillJudged(states, steps, i, k - 1, s);
          StaysPut(states, steps, i, k - 1);
        } else if s.pc.Ticketing? {
          TicketJudged(states, steps, i, k - 1);
        } else if s.pc.Scanning? || s.pc.Dialling? || s.pc.Releasing? {
          ScanJudged(states, steps, i, k - 1);
        } else {
          ElseJudged(states, steps, i, k - 1);
        }
      } else {
        NewUnjudged(states, steps, i, k);
      }
    }
  }

  lemma NewUnjudged(states: seq<State>, steps: seq<Step>, i: nat, k: nat)
    requires IsRun(states, steps) && 0 < k <= |steps| && |states[k - 1].sessions| <= i < |states[k].sessions|
    ensures Judged(states, steps, i, k, states[k].sessions[i])
  {
    hide Turn, Fits, RoutersOk, Log, SetAliveSpec;
    assert states[k] == Apply(states[k - 1], steps[k - 1]);
  }

  /** A latest lookup is unique, and excludes a refusal. */
  lemma OneVerdict(states: seq<State>, steps: seq<Step>, i: nat, k: nat, host: string)
    ensures !(Missing(states, steps, i, k, host) && Present(states, steps, i, k, host))
    ensures !(Missing(states, steps, i, k, host) && Refused(states, steps, i, k))
  {
    hide Acts, PoolKey, LooksOrAcquires;
    if l: nat, r: nat :| LookedUpAt(states, steps, i, l, k, host, r, false) {
      LooksNow(states, steps, i, l);
      if q: nat :| Found(states, steps, i, k, host, q) {
        var m: nat :| LookedUpAt(states, steps, i, m, k, host, q, true);
        LooksNow(states, steps, i, m);
        assert false;
      }
      if c: nat :| RefusedAt(states, steps, i, c, k) {
        LooksNow(states, steps, i, c);
        assert false;
      }
    }
  }

  lemma LooksNow(states: seq<State>, steps: seq<Step>, i: nat, k: nat)
    requires Acts(states, steps, i, k)
    requires states[k].sessions[i].pc.Ticketing? || states[k].sessions[i].pc.Acquiring?
    ensures LooksOrAcquires(states, i, k)
  {
  }

  lemma TurnSession(states: seq<State>, steps: seq<Step>, i: nat, k: nat)
    requires Acts(states, steps, i, k)
    ensures k < |states| && i < |states[k].sessions|
  {
  }

  /** The router of a lookup is one that the session entered while it was installed. */
  lemma LookupWasEntered(states: seq<State>, steps: seq<Step>, i: nat, l: nat, k: nat, host: string, r: nat,
                         found: bool)
    requires LookedUpAt(states, steps, i, l, k, host, r, found)
    ensures l < |states| && i < |states[l].sessions| && Entered(states, steps, i, l, states[l].sessions[i].req, host, r)
  {
    hide IsRun, Entered, PoolKey;
    TurnSession(states, steps, i, l);
    AlwaysTraced(states, steps, i, l);
  }

  // ---------------------------------------------------------------- the attempt loop

  /** The text under which a failed dial is counted. */
  predicate Reason(result: DialResult, text: string) {
    match result
    case NotFound => text == "route_not_found"
    case NoAlive => text == "no_alive_backends"
    case LimitReached => text == "dial_limit"
    case DialFailed(_, timeout) => text == if timeout then "timeout" else "dial_error"
    case Connected(_) => false
  }

  /** The session is over without a backend, and says so under this text. */
  ghost predicate Unserved(s: Session, t: Session, result: DialResult) {
    exists text :: Reason(result, text) &&
      Ended(t, NoBackend,
            [DialFailure(s.host, text), RouteFailure(s.host, text), Served(s.host, TargetOf(result), text),
             ConnError(AtBackendDial)])
  }

  lemma Spelled(result: DialResult)
    requires !result.Connected?
    ensures Reason(result, Spell(Because(result)))
  {
  }

  /**
   * After a dial: the client is answered exactly when there is a backend connection; the host is discovered
   * exactly when the router that the session entered had no pool for it, discovery is on and this is the first
   * attempt; otherwise the session is over, counted under the reason of its failure.
   */
  lemma VerdictDecides(states: seq<State>, steps: seq<Step>, i: nat, k: nat)
    requires Acts(states, steps, i, k) && states[k].sessions[i].pc.Judging?
    ensures i < |states[k + 1].sessions|
    ensures var s, t := states[k].sessions[i], states[k + 1].sessions[i];
            && (t.pc.Replying? <==> s.conns == 1)
            && (t.pc.Replying? ==> GoesOn(t, Replying, []))
            && (t.pc.Discovering? <==>
                  Missing(states, steps, i, k, s.host) && states[k].limits.discovery && s.attempt == 0)
            && (t.pc.Discovering? ==> GoesOn(t, Discovering(Some(NotFound)), []))
            && (!t.pc.Replying? && !t.pc.Discovering? ==> Unserved(s, t, s.pc.result))
            && (s.pc.result == NotFound <==> Missing(states, steps, i, k, s.host))
  {
    hide Acts, Spell, Reason, Missing, Present, Refused, RoutersOk, Fits, IsRun;
    AlwaysConsistent(states, steps, i, k);
    ActsInRun(states, steps, i, k);
    TurnSession(states, steps, i, k);
    AlwaysJudged(states, steps, i, k);
    var sh, s, tu, t, ev := OwnTurn(states, steps, i, k);
    OneVerdict(states, steps, i, k, s.host);
    if !s.pc.result.Connected? {
      Spelled(s.pc.result);
    }
  }

  /** A discovery sends the session back to routing exactly when it added the route; otherwise the session is over. */
  lemma DiscoveryDecides(states: seq<State>, steps: seq<Step>, i: nat, k: nat)
    requires Acts(states, steps, i, k) && states[k].sessions[i].pc.Discovering?
    ensures steps[k].ev.Discovered? && i < |states[k + 1].sessions|
    ensures var s, t := states[k].sessions[i], states[k + 1].sessions[i];
            && (t.pc.Routing? <==> steps[k].ev.added)
            && (t.pc.Routing? ==> GoesOn(t, Routing, []) && t.attempt == 1 && t.req == s.req)
            && (!t.pc.Routing? && s.pc.failed.None? ==>
                  Ended(t, NoRoute,
                      [RouteFailure(HostPort(s.req.host, s.req.port), "ip_not_in_routes"), ConnError(AtBackendDial)]))
            && (!t.pc.Routing? && s.pc.failed.Some? ==> s.pc.failed == Some(NotFound) && Unserved(s, t, NotFound))
  {
    hide Acts, Reason, RoutersOk, Fits, IsRun, HostPort;
    AlwaysConsistent(states, steps, i, k);
    ActsInRun(states, steps, i, k);
    TurnSession(states, steps, i, k);
    AlwaysJudged(states, steps, i, k);
    Spelled(NotFound);
    var sh, s, tu, t, ev := OwnTurn(states, steps, i, k);
  }

  // ---------------------------------------------------------------- reply and relay

  lemma ReplyDecides(states: seq<State>, steps: seq<Step>, i: nat, k: nat)
    requires Acts(states, steps, i, k) && states[k].sessions[i].pc.Replying?
    ensures steps[k].ev.ReplyDone? && i < |states[k + 1].sessions|
    ensures var s, t := states[k].sessions[i], states[k + 1].sessions[i];
            if steps[k].ev.ok then GoesOn(t, Pc.Relaying, [TcpState(Established)])
            else Ended(t, NoReply, [Served(s.host, s.target, "reply_error"), ConnError(AtReply)])
  {
    hide Acts, RoutersOk, Fits;
    AlwaysConsistent(states, steps, i, k);
    var sh, s, tu, t, ev := OwnTurn(states, steps, i, k);
  }

  /** The text occurs in the error, in any capitalisation. */
  ghost predicate Says(err: Option<string>, text: string) {
    err.Some? && exists at :: SaysAt(err.value, text, at)
  }

  ghost predicate SaysAt(e: string, text: string, at: int) {
    0 <= at && at + |text| <= |e| && forall j :: 0 <= j < |text| ==> CaseTwins(e[at + j], text[j])
  }

  /** The peer has reset the connection. */
  ghost predicate Reset(err: Option<string>) {
    || Says(err, "connection reset by peer")
    || Says(err, "broken pipe")
    || Says(err, "forcibly closed by the remote host")
  }

  /** A real failure: an error that is neither a reset nor a closed connection. */
  ghost predicate Broken(err: Option<string>) {
    err.Some? && !Reset(err) && !Says(err, "closed network connection")
  }

  ghost predicate Small(text: string) {
    forall j :: 0 <= j < |text| ==> !Capital(text[j])
  }

  lemma TwinFolds(c: char, d: char)
    requires !Capital(d)
    ensures CaseTwins(c, d) <==> LowerChar(c) == d
  {
  }

  lemma ContainsMeans(e: string, text: string)
    requires Small(text)
    ensures Contains(ToLower(e), text) <==> Says(Some(e), text)
  {
    var low := ToLower(e);
    forall at | 0 <= at <= |e|
      ensures text <= low[at..] <==> SaysAt(e, text, at)
    {
      if at + |text| <= |e| {
        forall j | 0 <= j < |text|
          ensures CaseTwins(e[at + j], text[j]) <==> low[at..][j] == text[j]
        {
          TwinFolds(e[at + j], text[j]);
        }
        assert text <= low[at..] <==> forall j :: 0 <= j < |text| ==> low[at..][j] == text[j];
      }
    }
    hide SaysAt;
    if Says(Some(e), text) {
      var at :| SaysAt(e, text, at);
      SaysInside(e, text, at);
    }
  }

  lemma SaysInside(e: string, text: string, at: int)
    requires SaysAt(e, text, at)
    ensures 0 <= at <= |e|
  {
  }

  lemma ResetMeans(err: Option<string>)
    ensures IsReset(err) <==> Reset(err)
  {
    hide Contains, Says, Small;
    if err.Some? {
      SmallTexts();
      ContainsMeans(err.value, "connection reset by peer");
      ContainsMeans(err.value, "broken pipe");
      ContainsMeans(err.value, "forcibly closed by the remote host");
      var low := ToLower(err.value);
      assert IsReset(err) <==>
        Contains(low, RESET_TEXTS[0]) || Contains(low, RESET_TEXTS[1]) || Contains(low, RESET_TEXTS[2]);
      assert err == Some(err.value);
    } else {
      NoErrorSays();
    }
  }

  lemma NoErrorSays()
    ensures forall text :: !Says(None, text)
  {
  }

  lemma SmallTexts()
    ensures Small("connection reset by peer") && Small("broken pipe") && Small("forcibly closed by the remote host")
    ensures Small("closed network connection")
  {
  }

  lemma IgnorableMeans(err: Option<string>)
    ensures IsIgnorable(err) <==> !Broken(err)
  {
    hide Contains, Says, Small, Reset;
    if err.Some? {
      SmallTexts();
      ResetMeans(err);
      ContainsMeans(err.value, "closed network connection");
      IgnorableTexts(ToLower(err.value));
      assert err == Some(err.value);
    }
  }

  lemma IgnorableTexts(low: string)
    ensures (exists k :: 0 <= k < |IGNORABLE_TEXTS| && Contains(low, IGNORABLE_TEXTS[k])) <==>
            Contains(low, "closed network connection") ||
            (exists k :: 0 <= k < |RESET_TEXTS| && Contains(low, RESET_TEXTS[k]))
  {
    hide Contains;
    assert IGNORABLE_TEXTS[0] == "closed network connection";
    assert forall k :: 0 <= k < |RESET_TEXTS| ==> IGNORABLE_TEXTS[k + 1] == RESET_TEXTS[k];
    if k :| 0 <= k < |RESET_TEXTS| && Contains(low, RESET_TEXTS[k]) {
      assert Contains(low, IGNORABLE_TEXTS[k + 1]);
    }
    if k :| 0 <= k < |IGNORABLE_TEXTS| && Contains(low, IGNORABLE_TEXTS[k]) {
      if k > 0 {
        assert Contains(low, RESET_TEXTS[k - 1]);
      }
    }
  }

  /**
   * A relay ends as an error exactly when one of the two copy errors is a real failure, and as "rst" exactly
   * when one of them is a reset; a success counts the session.
   */
  lemma RelayDecides(states: seq<State>, steps: seq<Step>, i: nat, k: nat)
    requires Acts(states, steps, i, k) && states[k].sessions[i].pc.Relaying?
    ensures steps[k].ev.RelayDone? && i < |states[k + 1].sessions|
    ensures var s, t := states[k].sessions[i], states[k + 1].sessions[i];
            var err1, err2 := steps[k].ev.err1, steps[k].ev.err2;
            var reset, broken := Reset(err1) || Reset(err2), Broken(err1) || Broken(err2);
            var close := TcpState(if reset then Rst else Fin);
            if broken then
              Ended(t, Relayed(true, reset), [close, Served(s.host, s.target, "relay_error"), ConnError(AtRelay)])
            else Ended(t, Relayed(false, reset), [close, Served(s.host, s.target, "success"), SessionOver])
  {
    hide Acts, RoutersOk, Fits, IsReset, IsIgnorable, Reset, Broken;
    var sh, s, tu, t, ev := OwnTurn(states, steps, i, k);
    ResetMeans(ev.err1);
    ResetMeans(ev.err2);
    IgnorableMeans(ev.err1);
    IgnorableMeans(ev.err2);
  }

  // ---------------------------------------------------------------- the accept loop

  /**
   * A connection that has arrived is refused exactly when there is a limit and as many sessions as it allows
   * hold a connection; otherwise it is admitted, to be counted as accepted, active and syn.
   */
  lemma AdmissionDecides(states: seq<State>, steps: seq<Step>, k: nat)
    requires IsRun(states, steps) && k < |steps| && steps[k].ByAcceptor?
    requires states[k].acceptor.pc.Arrived? && states[k].acceptor.todo == []
    ensures var lim, a, b := states[k].limits, states[k].acceptor, states[k + 1].acceptor;
            && (b.rejected == a.rejected + 1 <==>
                  lim.maxConnections > 0 && Holders(states[k].sessions) == lim.maxConnections)
            && (b.rejected == a.rejected + 1 ==> b.pc.Waiting? && b.todo == [ConnError(AtConnLimit)])
            && (b.rejected != a.rejected + 1 ==>
                  b.rejected == a.rejected && b.pc.Admitted? && b.todo == [Accepted, Opened, TcpState(Syn)])
            && states[k + 1].sessions == states[k].sessions
  {
    hide Turn, RoutersOk, Fits, Legal, Holders;
    AdmissionHolds(states, steps, k) by {
      hide *;
    }
    assert Enabled(states[k], steps[k]) && states[k + 1] == Apply(states[k], steps[k]);
  }

  /** An admitted connection, once counted, becomes a session that starts with its handshake. */
  lemma AdmittedIsServed(states: seq<State>, steps: seq<Step>, k: nat)
    requires IsRun(states, steps) && k < |steps| && steps[k].ByAcceptor? && states[k].acceptor.todo == []
    requires states[k].acceptor.pc.Admitted? || states[k].acceptor.pc.Spawning?
    ensures var b, n := states[k + 1].acceptor, |states[k].sessions|;
            && b.todo == [] && b.rejected == states[k].acceptor.rejected
            && (states[k].acceptor.pc.Admitted? ==>
                  && b.pc.Spawning? && states[k + 1].sessions == states[k].sessions
                  && states[k + 1].shared.wg == states[k].shared.wg + 1)
            && (states[k].acceptor.pc.Spawning? ==>
                  && b.pc.Waiting? && |states[k + 1].sessions| == n + 1
                  && states[k + 1].sessions[..n] == states[k].sessions
                  && GoesOn(states[k + 1].sessions[n], Hello, []) && states[k + 1].sessions[n].attempt == 0)
  {
    hide Turn, RoutersOk, Fits, Legal;
    assert Enabled(states[k], steps[k]) && states[k + 1] == Apply(states[k], steps[k]);
  }

  /** With nothing left to do the accept loop takes the next connection, or ends for good when accepting fails. */
  lemma AcceptDecides(states: seq<State>, steps: seq<Step>, k: nat)
    requires IsRun(states, steps) && k < |steps| && steps[k].ByAcceptor? && states[k].acceptor.todo == []
    requires states[k].acceptor.pc.Waiting?
    ensures steps[k].accept == Arrive || steps[k].accept == AcceptFailed
    ensures states[k + 1].acceptor.pc == if steps[k].accept == Arrive then Arrived else Returned
    ensures states[k + 1].shared == states[k].shared && states[k + 1].sessions == states[k].sessions
  {
    hide Turn, RoutersOk, Fits, Legal;
    assert Enabled(states[k], steps[k]) && states[k + 1] == Apply(states[k], steps[k]);
  }

  // ---------------------------------------------------------------- the world around

  /** An installed router is the one that lookups from then on use; no router before it is touched. */
  lemma InstallDecides(states: seq<State>, steps: seq<Step>, k: nat)
    requires IsRun(states, steps) && k < |steps| && steps[k].Install?
    ensures var sh, tu := states[k].shared, states[k + 1].shared;
            && |tu.routers| == |sh.routers| + 1 && tu.routers[..|sh.routers|] == sh.routers
            && tu.current < |tu.routers| && tu.routers[tu.current] == steps[k].router
            && tu.counters == sh.counters && tu.tokens == sh.tokens && tu.dials == sh.dials && tu.wg == sh.wg
    ensures states[k + 1].sessions == states[k].sessions && states[k + 1].acceptor == states[k].acceptor
  {
    hide Turn, Fits, RoutersOk;
    assert states[k + 1] == Apply(states[k], steps[k]);
  }

  /** A health update changes one router, by the update that `SetTouches` and the health table describe. */
  lemma HealthDecides(states: seq<State>, steps: seq<Step>, k: nat)
    requires IsRun(states, steps) && k < |steps| && steps[k].Health?
    ensures steps[k].r < |states[k].shared.routers| == |states[k + 1].shared.routers|
    ensures forall q :: 0 <= q < |states[k].shared.routers| && q != steps[k].r ==>
              states[k + 1].shared.routers[q] == states[k].shared.routers[q]
    ensures var v, w := states[k].shared.routers[steps[k].r], states[k + 1].shared.routers[steps[k].r];
            && RouterOk(v) && RouterOk(w)
            && w == SetAliveSpec(v, steps[k].host, steps[k].address, steps[k].alive).0
            && (DistinctAddresses(v) ==>
                  HealthOf(w) == DoHealth(HealthOf(v), SetAlive(steps[k].host, steps[k].address, steps[k].alive)))
    ensures states[k + 1].shared == states[k].shared.(routers := states[k + 1].shared.routers)
    ensures states[k + 1].sessions == states[k].sessions && states[k + 1].acceptor == states[k].acceptor
  {
    hide Turn, Fits, HealthOf, DoHealth, NormalizeHost, Justified, SetAliveSpec;
    assert Sound(states[k]) && states[k + 1] == Apply(states[k], steps[k]);
    var v := states[k].shared.routers[steps[k].r];
    Sessions.SetAliveSound(v, steps[k].host, steps[k].address, steps[k].alive);
    if DistinctAddresses(v) {
      StepRefines(v, SetAlive(steps[k].host, steps[k].address, steps[k].alive));
    }
  }

  // ---------------------------------------------------------------- collector calls

  /** Everything else stands still while a goroutine makes the first of its collector calls. */
  ghost predicate MakesCall(sh: Shared, tu: Shared, todo: seq<Metric>, rest: seq<Metric>) {
    && todo != [] && rest == todo[1..]
    && tu == sh.(counters := Record(sh.counters, todo[0]))
  }

  /** A session with collector calls to make makes exactly the first one, once, and does nothing else. */
  lemma SessionMakesCall(states: seq<State>, steps: seq<Step>, k: nat)
    requires IsRun(states, steps) && k < |steps| && steps[k].BySession?
    requires steps[k].i < |states[k].sessions| && states[k].sessions[steps[k].i].todo != []
    ensures |states[k + 1].sessions| == |states[k].sessions| && states[k + 1].acceptor == states[k].acceptor
    ensures var s, t := states[k].sessions[steps[k].i], states[k + 1].sessions[steps[k].i];
            t == s.(todo := t.todo) && MakesCall(states[k].shared, states[k + 1].shared, s.todo, t.todo)
    ensures forall j :: 0 <= j < |states[k].sessions| && j != steps[k].i ==>
              states[k + 1].sessions[j] == states[k].sessions[j]
  {
    hide Turn, Fits, RoutersOk, Record;
    assert states[k + 1] == Apply(states[k], steps[k]);
  }

  lemma AcceptorMakesCall(states: seq<State>, steps: seq<Step>, k: nat)
    requires IsRun(states, steps) && k < |steps| && steps[k].ByAcceptor? && states[k].acceptor.todo != []
    ensures states[k + 1].sessions == states[k].sessions
    ensures var a, b := states[k].acceptor, states[k + 1].acceptor;
            b == a.(todo := b.todo) && MakesCall(states[k].shared, states[k + 1].shared, a.todo, b.todo)
  {
    hide Turn, Fits, RoutersOk, Record;
    assert states[k + 1] == Apply(states[k], steps[k]);
  }
}
