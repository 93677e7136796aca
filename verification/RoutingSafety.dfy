/** Where dialled addresses come from, in every interleaving of sessions, router swaps and health updates. */
module RoutingSafety {
  import opened Hosts
  import opened Addresses
  import opened Scan
  import opened Router
  import opened Wire
  import opened Sessions

  ghost predicate Acts(states: seq<State>, steps: seq<Step>, i: nat, c: nat) {
    && IsRun(states, steps) && c < |steps| && i < |states[c].sessions|
    && steps[c].BySession? && steps[c].i == i && states[c].sessions[i].todo == []
  }

  /** Step c routes the request: by name, or by the index of the router current at that moment. */
  ghost predicate RoutedAt(states: seq<State>, steps: seq<Step>, i: nat, c: nat, req: Request, host: string) {
    && Acts(states, steps, i, c)
    && states[c].sessions[i].pc.Routing? && states[c].sessions[i].req == req
    && if req.atyp == ATYP_IPV4 then
         var sh := states[c].shared;
         var addr := HostPort(req.host, req.port);
         sh.current < |sh.routers| && addr in sh.routers[sh.current].index && host == sh.routers[sh.current].index[addr]
       else host == NormalizeHost(req.host)
  }

  /** Step c reads the current router inside DialRoute, and it is router r. */
  ghost predicate EnteredAt(states: seq<State>, steps: seq<Step>, i: nat, c: nat, host: string, r: nat) {
    && Acts(states, steps, i, c)
    && states[c].sessions[i].pc.Entering? && states[c].sessions[i].host == host
    && states[c].shared.current == r
  }

  /** Step c loads the flag of one backend in the pool of the session's host, and finds it alive. */
  ghost predicate ChosenAt(states: seq<State>, steps: seq<Step>, i: nat, c: nat, host: string, r: nat, slot: nat,
                           target: string) {
    && Acts(states, steps, i, c)
    && states[c].sessions[i].pc.Scanning? && states[c].sessions[i].pc.router == r && states[c].sessions[i].host == host
    && var sh := states[c].shared;
       && r < |sh.routers| && PoolKey(host) in sh.routers[r].pools
       && var p := sh.routers[r].pools[PoolKey(host)];
          slot < |p.addresses| && slot < |p.alive| && p.addresses[slot] == target && p.alive[slot]
  }

  ghost predicate Routed(states: seq<State>, steps: seq<Step>, i: nat, k: nat, req: Request, host: string) {
    exists a: nat :: a < k && RoutedAt(states, steps, i, a, req, host)
  }

  ghost predicate Entered(states: seq<State>, steps: seq<Step>, i: nat, k: nat, req: Request, host: string, r: nat) {
    exists b: nat :: b < k && EnteredAt(states, steps, i, b, host, r) && Routed(states, steps, i, b, req, host)
  }

  ghost predicate Chosen(states: seq<State>, steps: seq<Step>, i: nat, k: nat, req: Request, host: string, r: nat,
                         slot: nat, target: string) {
    exists c: nat :: c < k && ChosenAt(states, steps, i, c, host, r, slot, target)
        && Entered(states, steps, i, c, req, host, r)
  }

  /** What must have happened before a session could be where it is. */
  ghost predicate Traced(states: seq<State>, steps: seq<Step>, i: nat, k: nat, s: Session) {
    match s.pc
    case Acquiring => Routed(states, steps, i, k, s.req, s.host)
    case Entering => Routed(states, steps, i, k, s.req, s.host)
    case Ticketing(r) => Entered(states, steps, i, k, s.req, s.host, r)
    case Scanning(r, _, _) => Entered(states, steps, i, k, s.req, s.host, r)
    case Dialling(r, slot) => Chosen(states, steps, i, k, s.req, s.host, r, slot, s.target)
    case _ => true
  }

  lemma LaterTraced(states: seq<State>, steps: seq<Step>, i: nat, k: nat, s: Session)
    requires Traced(states, steps, i, k, s)
    ensures Traced(states, steps, i, k + 1, s)
  {
    hide RoutedAt, EnteredAt, ChosenAt;
  }

  lemma ActingTurn(states: seq<State>, steps: seq<Step>, i: nat, k: nat)
    returns (sh: Shared, s: Session, t: Session, ev: Event)
    requires Acts(states, steps, i, k)
    ensures sh == states[k].shared && s == states[k].sessions[i] && ev == steps[k].ev
    ensures RoutersOk(sh) && Fits(sh, s) && CanTurn(s, ev) && i < |states[k + 1].sessions|
    ensures t == states[k + 1].sessions[i] == Turn(states[k].limits, sh, s, ev).1
  {
    assert Sound(states[k]) && Enabled(states[k], steps[k]) && states[k + 1] == Apply(states[k], steps[k]);
    hide Turn, RoutersOk, Fits, CanTurn, IsRun;
    sh, s, ev := states[k].shared, states[k].sessions[i], steps[k].ev;
    t := states[k + 1].sessions[i];
  }

  lemma RoutingTraced(states: seq<State>, steps: seq<Step>, i: nat, k: nat)
    requires Acts(states, steps, i, k) && states[k].sessions[i].pc.Routing?
    ensures i < |states[k + 1].sessions|
    ensures var t := states[k + 1].sessions[i];
            (t.pc.Acquiring? && RoutedAt(states, steps, i, k, t.req, t.host)) || t.pc.Discovering? || t.pc.Dropping?
  {
    hide Acts, HostPort, NormalizeHost, Fits, CanTurn, MayDiscover;
    var sh, s, t, ev := ActingTurn(states, steps, i, k);
  }

  lemma LoadTraced(states: seq<State>, steps: seq<Step>, i: nat, k: nat)
    requires Acts(states, steps, i, k) && states[k].sessions[i].pc.Scanning?
    ensures i < |states[k + 1].sessions|
    ensures var s, t := states[k].sessions[i], states[k + 1].sessions[i];
            && t.req == s.req && t.host == s.host
            && match t.pc
               case Dialling(r, slot) => r == s.pc.router && ChosenAt(states, steps, i, k, t.host, r, slot, t.target)
               case Scanning(r, _, _) => r == s.pc.router
               case Releasing(_) => true
               case _ => false
  {
    hide Acts, PoolKey, Slot, CanTurn;
    var sh, s, t, ev := ActingTurn(states, steps, i, k);
    assert RouterOk(sh.routers[s.pc.router]);
  }

  lemma TicketTraced(states: seq<State>, steps: seq<Step>, i: nat, k: nat)
    requires Acts(states, steps, i, k)
    requires states[k].sessions[i].pc.Acquiring? || states[k].sessions[i].pc.Entering?
             || states[k].sessions[i].pc.Ticketing?
    ensures i < |states[k + 1].sessions|
    ensures var s, t := states[k].sessions[i], states[k + 1].sessions[i];
            && t.req == s.req && t.host == s.host
            && match (s.pc, t.pc)
               case (Acquiring, Entering) => true
               case (Entering, Ticketing(r)) => EnteredAt(states, steps, i, k, t.host, r)
               case (Ticketing(q), Scanning(r, _, _)) => q == r
               case (_, Judging(_)) => true
               case (_, Releasing(_)) => true
               case _ => false
  {
    hide Acts, PoolKey, CanTurn, RoutersOk;
    var sh, s, t, ev := ActingTurn(states, steps, i, k);
  }

  lemma ElseUntraced(states: seq<State>, steps: seq<Step>, i: nat, k: nat)
    requires Acts(states, steps, i, k)
    requires var pc := states[k].sessions[i].pc;
             !pc.Routing? && !pc.Acquiring? && !pc.Entering? && !pc.Ticketing? && !pc.Scanning?
    ensures i < |states[k + 1].sessions|
    ensures var pc := states[k + 1].sessions[i].pc;
            !pc.Acquiring? && !pc.Entering? && !pc.Ticketing? && !pc.Scanning? && !pc.Dialling?
  {
    hide Acts, Spell, HostPort, IsReset, IsIgnorable, RoutersOk, Fits, CanTurn, AfterLoad, AfterTicketing, AfterRouting;
    var sh, s, t, ev := ActingTurn(states, steps, i, k);
  }

  /** One step of the session's own goroutine extends its trace. */
  lemma TurnTraced(states: seq<State>, steps: seq<Step>, i: nat, k: nat)
    requires Acts(states, steps, i, k) && Traced(states, steps, i, k, states[k].sessions[i])
    ensures i < |states[k + 1].sessions| && Traced(states, steps, i, k + 1, states[k + 1].sessions[i])
  {
    var s := states[k].sessions[i];
    LaterTraced(states, steps, i, k, s);
    match s.pc {
      case Routing => RoutingTraced(states, steps, i, k);
      case Acquiring => TicketTraced(states, steps, i, k);
      case Entering => TicketTraced(states, steps, i, k);
      case Ticketing(_) => TicketTraced(states, steps, i, k);
      case Scanning(_, _, _) => LoadTraced(states, steps, i, k);
      case _ => ElseUntraced(states, steps, i, k);
    }
    hide Acts, RoutedAt, EnteredAt, ChosenAt;
  }

  /** Unless it is the session's own turn, its position, request, host and target stay. */
  lemma StaysPut(states: seq<State>, steps: seq<Step>, i: nat, k: nat)
    requires IsRun(states, steps) && k < |steps| && i < |states[k].sessions| && !Acts(states, steps, i, k)
    ensures i < |states[k + 1].sessions|
    ensures var s, t := states[k].sessions[i], states[k + 1].sessions[i];
            t.pc == s.pc && t.req == s.req && t.host == s.host && t.target == s.target
  {
    hide Turn, Fits, RoutersOk, Log, SetAliveSpec;
    assert Enabled(states[k], steps[k]) && states[k + 1] == Apply(states[k], steps[k]);
  }

  lemma NewUntraced(states: seq<State>, steps: seq<Step>, i: nat, k: nat)
    requires IsRun(states, steps) && 0 < k <= |steps| && |states[k - 1].sessions| <= i < |states[k].sessions|
    ensures Traced(states, steps, i, k, states[k].sessions[i])
  {
    hide Turn, Fits, RoutersOk, Log, SetAliveSpec;
    assert states[k] == Apply(states[k - 1], steps[k - 1]);
  }

  /** Every session is where its own past steps put it. */
  lemma {:induction false} AlwaysTraced(states: seq<State>, steps: seq<Step>, i: nat, k: nat)
    requires IsRun(states, steps) && k <= |steps| && i < |states[k].sessions|
    ensures Traced(states, steps, i, k, states[k].sessions[i])
  {
    hide Apply, Sound, Enabled, Legal, Acts, Routed, Entered, Chosen;
    if k > 0 {
      if i < |states[k - 1].sessions| {
        AlwaysTraced(states, steps, i, k - 1);
        if Acts(states, steps, i, k - 1) {
          TurnTraced(states, steps, i, k - 1);
        } else {
          LaterTraced(states, steps, i, k - 1, states[k - 1].sessions[i]);
          StaysPut(states, steps, i, k - 1);
        }
      } else {
        NewUntraced(states, steps, i, k);
      }
    }
  }

  /**
   * Routing safety: whatever a session is about to dial was alive at the load that chose it, is listed in the
   * pool of the session's own route host, in a router that was the installed one when DialRoute read it; and
   * the route host comes from the request, by name or through the index of the router installed at that time.
   */
  lemma DialledTargetIsRouted(states: seq<State>, steps: seq<Step>, i: nat, k: nat) returns (a: nat, b: nat, c: nat)
    requires IsRun(states, steps) && k <= |steps| && i < |states[k].sessions|
    requires states[k].sessions[i].pc.Dialling?
    ensures a < b < c < k
    ensures var s := states[k].sessions[i];
            && RoutedAt(states, steps, i, a, s.req, s.host)
            && EnteredAt(states, steps, i, b, s.host, s.pc.router)
            && ChosenAt(states, steps, i, c, s.host, s.pc.router, s.pc.slot, s.target)
  {
    AlwaysTraced(states, steps, i, k);
    var s := states[k].sessions[i];
    var r, slot := s.pc.router, s.pc.slot;
    assert Chosen(states, steps, i, k, s.req, s.host, r, slot, s.target);
    hide RoutedAt, EnteredAt, ChosenAt, IsRun;
    c :| c < k && ChosenAt(states, steps, i, c, s.host, r, slot, s.target)
        && Entered(states, steps, i, c, s.req, s.host, r);
    b :| b < c && EnteredAt(states, steps, i, b, s.host, r) && Routed(states, steps, i, b, s.req, s.host);
    a :| a < b && RoutedAt(states, steps, i, a, s.req, s.host);
  }

  /** A router swap never disturbs a pick under way: routers already read keep their pools and addresses. */
  lemma {:induction false} InstalledRoutersKeepTheirRoutes(states: seq<State>, steps: seq<Step>, j: nat, k: nat, r: nat)
    requires IsRun(states, steps) && j <= k <= |steps| && r < |states[j].shared.routers|
    ensures r < |states[k].shared.routers| && SameRoutes(states[j].shared.routers[r], states[k].shared.routers[r])
    decreases k - j
  {
    if j < k {
      InstalledRoutersKeepTheirRoutes(states, steps, j, k - 1, r);
      assert states[k] == Apply(states[k - 1], steps[k - 1]);
      StepSound(states[k - 1], steps[k - 1]);
      hide IsRun, Apply, Sound;
    }
  }

  // ---------------------------------------------------------------- "no alive backends"

  /** Step c is round x of the session's scan from `start` over the n backends of its pool, and finds one dead. */
  ghost predicate SawDeadAt(states: seq<State>, steps: seq<Step>, i: nat, c: nat, host: string, r: nat, start: ticket,
                            x: nat, n: nat) {
    && Acts(states, steps, i, c) && x < n
    && states[c].sessions[i].pc == Scanning(r, start, x) && states[c].sessions[i].host == host
    && var sh := states[c].shared;
       && r < |sh.routers| && PoolKey(host) in sh.routers[r].pools
       && var p := sh.routers[r].pools[PoolKey(host)];
          |p.addresses| == n == |p.alive| && !p.alive[Slot(start, x, n)]
  }

  ghost predicate SawDead(states: seq<State>, steps: seq<Step>, i: nat, k: nat, host: string, r: nat, start: ticket,
                          x: nat, n: nat) {
    exists c: nat :: c < k && SawDeadAt(states, steps, i, c, host, r, start, x, n)
  }

  /** The first `upto` rounds of that scan all found their backend dead. */
  ghost predicate AllSeenDead(states: seq<State>, steps: seq<Step>, i: nat, k: nat, host: string, r: nat, start: ticket,
                              upto: nat, n: nat) {
    upto <= n && forall x: nat :: x < upto ==> SawDead(states, steps, i, k, host, r, start, x, n)
  }

  ghost predicate ScanFailed(states: seq<State>, steps: seq<Step>, i: nat, k: nat, req: Request, host: string) {
    exists r, start, n :: FailedScan(states, steps, i, k, req, host, r, start, n)
  }

  ghost predicate FailedScan(states: seq<State>, steps: seq<Step>, i: nat, k: nat, req: Request, host: string, r: nat,
                             start: ticket, n: nat) {
    n > 0 && AllSeenDead(states, steps, i, k, host, r, start, n, n) && Entered(states, steps, i, k, req, host, r)
  }

  ghost predicate PoolSize(sh: Shared, host: string, r: nat, n: nat) {
    r < |sh.routers| && PoolKey(host) in sh.routers[r].pools && |sh.routers[r].pools[PoolKey(host)].addresses| == n
  }

  /** What the loads of a session's own scan have shown so far. */
  ghost predicate Searched(states: seq<State>, steps: seq<Step>, i: nat, k: nat, sh: Shared, s: Session) {
    match s.pc
    case Scanning(r, start, x) => exists n :: ScannedSoFar(states, steps, i, k, sh, s, r, start, x, n)
    case Releasing(NoAlive) => ScanFailed(states, steps, i, k, s.req, s.host)
    case Judging(NoAlive) => ScanFailed(states, steps, i, k, s.req, s.host)
    case _ => true
  }

  ghost predicate ScannedSoFar(states: seq<State>, steps: seq<Step>, i: nat, k: nat, sh: Shared, s: Session,
                               r: nat, start: ticket, x: nat, n: nat) {
    PoolSize(sh, s.host, r, n) && AllSeenDead(states, steps, i, k, s.host, r, start, x, n)
  }

  lemma StillAllSeenDead(states: seq<State>, steps: seq<Step>, i: nat, k: nat, host: string, r: nat, start: ticket,
                         upto: nat, n: nat)
    requires AllSeenDead(states, steps, i, k, host, r, start, upto, n)
    ensures AllSeenDead(states, steps, i, k + 1, host, r, start, upto, n)
  {
    hide SawDeadAt;
    var later := k + 1;
    forall x: nat | x < upto
      ensures SawDead(states, steps, i, later, host, r, start, x, n)
    {
      assert SawDead(states, steps, i, k, host, r, start, x, n);
    }
  }

  lemma StillFailed(states: seq<State>, steps: seq<Step>, i: nat, k: nat, req: Request, host: string)
    requires ScanFailed(states, steps, i, k, req, host)
    ensures ScanFailed(states, steps, i, k + 1, req, host)
  {
    hide AllSeenDead, EnteredAt, Routed;
    var r, start, n :| FailedScan(states, steps, i, k, req, host, r, start, n);
    StillAllSeenDead(states, steps, i, k, host, r, start, n, n);
    assert FailedScan(states, steps, i, k + 1, req, host, r, start, n);
  }

  lemma SamePoolSize(sh: Shared, tu: Shared, host: string, r: nat, n: nat)
    requires PoolSize(sh, host, r, n) && Extends(sh, tu)
    ensures PoolSize(tu, host, r, n)
  {
    hide PoolKey;
    assert SameRoutes(sh.routers[r], tu.routers[r]);
  }

  /** Steps of others leave a session's findings as they are. */
  lemma LaterSearched(states: seq<State>, steps: seq<Step>, i: nat, k: nat, sh: Shared, tu: Shared, s: Session)
    requires Searched(states, steps, i, k, sh, s) && Extends(sh, tu)
    ensures Searched(states, steps, i, k + 1, tu, s)
  {
    hide AllSeenDead, PoolSize, ScanFailed, Extends;
    match s.pc {
      case Scanning(r, start, x) =>
        var n :| ScannedSoFar(states, steps, i, k, sh, s, r, start, x, n);
        SamePoolSize(sh, tu, s.host, r, n);
        StillAllSeenDead(states, steps, i, k, s.host, r, start, x, n);
        assert ScannedSoFar(states, steps, i, k + 1, tu, s, r, start, x, n);
      case Releasing(NoAlive) => StillFailed(states, steps, i, k, s.req, s.host);
      case Judging(NoAlive) => StillFailed(states, steps, i, k, s.req, s.host);
      case _ =>
    }
  }

  /** A load of the scan either ends it with a live backend or adds one dead one to its findings. */
  lemma LoadSearched(states: seq<State>, steps: seq<Step>, i: nat, k: nat)
    requires Acts(states, steps, i, k) && states[k].sessions[i].pc.Scanning?
    requires Searched(states, steps, i, k, states[k].shared, states[k].sessions[i])
    requires Traced(states, steps, i, k, states[k].sessions[i])
    ensures i < |states[k + 1].sessions|
            && Searched(states, steps, i, k + 1, states[k + 1].shared, states[k + 1].sessions[i])
  {
    hide Acts, PoolKey, Slot, CanTurn, Extends, EnteredAt, Routed;
    var sh, s, t, ev := ActingTurn(states, steps, i, k);
    SharedStays(states, steps, i, k);
    var r, start, x := s.pc.router, s.pc.start, s.pc.i;
    var n :| ScannedSoFar(states, steps, i, k, sh, s, r, start, x, n);
    assert RouterOk(sh.routers[r]);
    StillAllSeenDead(states, steps, i, k, s.host, r, start, x, n);
    if !t.pc.Dialling? {
      assert SawDeadAt(states, steps, i, k, s.host, r, start, x, n);
      assert SawDead(states, steps, i, k + 1, s.host, r, start, x, n);
      if t.pc.Scanning? {
        assert ScannedSoFar(states, steps, i, k + 1, sh, t, r, start, x + 1, n);
      } else {
        assert FailedScan(states, steps, i, k + 1, t.req, t.host, r, start, n);
      }
    }
  }

  /** A load leaves the routers alone. */
  lemma SharedStays(states: seq<State>, steps: seq<Step>, i: nat, k: nat)
    requires Acts(states, steps, i, k) && states[k].sessions[i].pc.Scanning?
    ensures states[k + 1].shared == states[k].shared
  {
    hide AfterLoad, Fits, RoutersOk, CanTurn;
    assert Sound(states[k]) && Enabled(states[k], steps[k]) && states[k + 1] == Apply(states[k], steps[k]);
  }

  lemma OtherSearched(states: seq<State>, steps: seq<Step>, i: nat, k: nat)
    requires Acts(states, steps, i, k) && !states[k].sessions[i].pc.Scanning?
    requires Searched(states, steps, i, k, states[k].shared, states[k].sessions[i])
    ensures i < |states[k + 1].sessions|
            && Searched(states, steps, i, k + 1, states[k + 1].shared, states[k + 1].sessions[i])
  {
    hide Acts, ScanFailed, Extends, RoutersOk, CanTurn, HostPort, NormalizeHost, Spell, IsReset, IsIgnorable,
        AllSeenDead;
    var sh, s, t, ev := ActingTurn(states, steps, i, k);
    if s.pc.Ticketing? && t.pc.Scanning? {
      StartsUnsearched(states, steps, i, k);
    }
    if t.pc == Judging(NoAlive) {
      StillFailed(states, steps, i, k, s.req, s.host);
    }
  }

  lemma StartsUnsearched(states: seq<State>, steps: seq<Step>, i: nat, k: nat)
    requires Acts(states, steps, i, k) && states[k].sessions[i].pc.Ticketing?
    requires i < |states[k + 1].sessions| && states[k + 1].sessions[i].pc.Scanning?
    ensures Searched(states, steps, i, k + 1, states[k + 1].shared, states[k + 1].sessions[i])
  {
    hide PoolKey, RoutersOk, CanTurn;
    var sh, s, t, ev := ActingTurn(states, steps, i, k);
    assert states[k + 1] == Apply(states[k], steps[k]);
    var r := s.pc.router;
    var n := |states[k + 1].shared.routers[r].pools[PoolKey(t.host)].addresses|;
    assert ScannedSoFar(states, steps, i, k + 1, states[k + 1].shared, t, r, t.pc.start, 0, n);
  }

  lemma {:induction false} AlwaysSearched(states: seq<State>, steps: seq<Step>, i: nat, k: nat)
    requires IsRun(states, steps) && k <= |steps| && i < |states[k].sessions|
    ensures Searched(states, steps, i, k, states[k].shared, states[k].sessions[i])
  {
    if k > 0 {
      hide Turn, Searched, Traced, Extends, Fits, RoutersOk;
      var st, step := states[k - 1], steps[k - 1];
      assert Sound(st) && Enabled(st, step) && Legal(step) && states[k] == Apply(st, step);
      if i < |st.sessions| {
        AlwaysSearched(states, steps, i, k - 1);
        AlwaysTraced(states, steps, i, k - 1);
        StepSound(st, step);
        if Acts(states, steps, i, k - 1) {
          if st.sessions[i].pc.Scanning? {
            LoadSearched(states, steps, i, k - 1);
          } else {
            OtherSearched(states, steps, i, k - 1);
          }
        } else {
          LaterSearched(states, steps, i, k - 1, st.shared, states[k].shared, st.sessions[i]);
          SearchedAlike(states, steps, i, k, states[k].shared, st.sessions[i], states[k].sessions[i]);
        }
      } else {
        NewUnsearched(states, steps, i, k);
      }
    }
  }

  lemma SearchedAlike(states: seq<State>, steps: seq<Step>, i: nat, k: nat, sh: Shared, s: Session, t: Session)
    requires Searched(states, steps, i, k, sh, s) && t.pc == s.pc && t.req == s.req && t.host == s.host
    ensures Searched(states, steps, i, k, sh, t)
  {
    hide AllSeenDead, PoolSize, ScanFailed;
    if s.pc.Scanning? {
      var n :| ScannedSoFar(states, steps, i, k, sh, s, s.pc.router, s.pc.start, s.pc.i, n);
      assert ScannedSoFar(states, steps, i, k, sh, t, s.pc.router, s.pc.start, s.pc.i, n);
    }
  }

  lemma NewUnsearched(states: seq<State>, steps: seq<Step>, i: nat, k: nat)
    requires IsRun(states, steps) && 0 < k <= |steps| && |states[k - 1].sessions| <= i < |states[k].sessions|
    ensures Searched(states, steps, i, k, states[k].shared, states[k].sessions[i])
  {
    hide Turn, Fits, RoutersOk;
    assert states[k] == Apply(states[k - 1], steps[k - 1]);
  }

  /**
   * A session that reports "no alive backends" read some router while it was installed, and every round of its
   * own scan of that router's pool for its host loaded a dead flag.
   */
  lemma NoAliveIsHonest(states: seq<State>, steps: seq<Step>, i: nat, k: nat) returns (r: nat, start: ticket, n: nat)
    requires IsRun(states, steps) && k <= |steps| && i < |states[k].sessions|
    requires states[k].sessions[i].pc == Releasing(NoAlive) || states[k].sessions[i].pc == Judging(NoAlive)
    ensures var s := states[k].sessions[i]; FailedScan(states, steps, i, k, s.req, s.host, r, start, n)
  {
    AlwaysSearched(states, steps, i, k);
    hide IsRun, FailedScan;
    var s := states[k].sessions[i];
    assert ScanFailed(states, steps, i, k, s.req, s.host);
    r, start, n :| FailedScan(states, steps, i, k, s.req, s.host, r, start, n);
  }

  /** Unless the scan crossed a seam, each backend of the pool was dead at a step of the session's own scan. */
  lemma NoAliveSawAllDead(states: seq<State>, steps: seq<Step>, i: nat, k: nat, host: string, req: Request,
                          r: nat, start: ticket, n: nat, j: nat) returns (c: nat)
    requires FailedScan(states, steps, i, k, req, host, r, start, n) && j < n && Seamless(start, n)
    ensures c < k && Acts(states, steps, i, c) && states[c].sessions[i].pc.Scanning?
            && states[c].sessions[i].pc.start == start
    ensures PoolSize(states[c].shared, host, r, n)
    ensures var p := states[c].shared.routers[r].pools[PoolKey(host)]; |p.alive| == n && !p.alive[j]
  {
    hide Acts, Entered, PoolKey, Slot, Seamless;
    SeamlessCovers(start, n);
    assert Visits(start, n, j);
    var x: nat :| x < n && Slot(start, x, n) == j;
    assert SawDead(states, steps, i, k, host, r, start, x, n);
    c :| c < k && SawDeadAt(states, steps, i, c, host, r, start, x, n);
  }
}
