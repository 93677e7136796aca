/**
 * Reloads as steps of the whole process: the event loop's part of a reload, one step at a time, interleaved
 * with probe updates of every checker ever started and with picks on every router ever built.
 */
module ReloadLaws {
  import opened Text
  import opened Hosts
  import opened Addresses
  import Scan
  import opened Router
  import opened RouterLaws
  import opened Config
  import opened ConfigLaws
  import opened Health
  import opened Reload
  import Sessions

  // ---------------------------------------------------------------- the process

  datatype CheckerV = CheckerV(router: nat, workers: seq<Worker>, cancelled: bool)

  /** Where the event loop is; a `target` is what the reload under way switches to. */
  datatype Phase =
    | Idle
    | Built(target: Target)
    | Launched(target: Target)
    | Swapped(target: Target)
    | Recorded(previous: Option<nat>)
    | Halting
    | Stopped

  /** Routers and checkers are listed in the order in which they were made; `installed` and `live` are positions. */
  datatype Process = Process(
    cfg: RuntimeConfig, routers: seq<RouterV>, installed: nat, checkers: seq<CheckerV>, live: Option<nat>, phase: Phase)

  datatype Move =
    | Begin(outcome: Result<Target, ReloadError>)
    | Launch
    | Swap
    | Record
    | Retire
    | CancelRoot
    | StopChecker
    | Probe(c: nat, w: Worker, host: string, alive: bool)
    | Serve(r: nat, host: string)

  predicate Can(s: Process, m: Move) {
    match m
    case Begin(_) => s.phase.Idle?
    case Launch => s.phase.Built?
    case Swap => s.phase.Launched?
    case Record => s.phase.Swapped?
    case Retire => s.phase.Recorded?
    case CancelRoot => s.phase.Idle?
    case StopChecker => s.phase.Halting?
    case Probe(c, w, host, _) => c < |s.checkers| && w in s.checkers[c].workers && host in w.hosts
    case Serve(r, _) => r < |s.routers|
  }

  function Cancel(checkers: seq<CheckerV>, c: Option<nat>): seq<CheckerV> {
    if c.Some? && c.value < |checkers| then checkers[c.value := checkers[c.value].(cancelled := true)] else checkers
  }

  function CancelAll(checkers: seq<CheckerV>): seq<CheckerV> {
    seq(|checkers|, i requires 0 <= i < |checkers| => checkers[i].(cancelled := true))
  }

  ghost predicate WellFormed(s: Process) {
    && s.installed < |s.routers| && s.checkers != []
    && (forall r :: 0 <= r < |s.routers| ==> RouterOk(s.routers[r]))
    && forall c :: 0 <= c < |s.checkers| ==> s.checkers[c].router < |s.routers|
  }

  /** One step. A failed build leaves no trace; a cancelled checker may still be in the middle of a probe. */
  function Next(s: Process, m: Move): Process
    requires WellFormed(s) && Can(s, m)
  {
    match m
    case Begin(Err(_)) => s
    case Begin(Ok(t)) => s.(routers := s.routers + [t.router], phase := Built(t))
    case Launch =>
      s.(checkers := s.checkers + [CheckerV(|s.routers| - 1, s.phase.target.workers, false)],
          phase := Launched(s.phase.target))
    case Swap => s.(installed := |s.routers| - 1, phase := Swapped(s.phase.target))
    case Record =>
      s.(cfg := Merge(Fixed(s.cfg), Changeable(s.phase.target.cfg)), live := Some(|s.checkers| - 1),
          phase := Recorded(s.live))
    case Retire => s.(checkers := Cancel(s.checkers, s.phase.previous), phase := Idle)
    case CancelRoot => s.(checkers := CancelAll(s.checkers), phase := Halting)
    case StopChecker => s.(checkers := Cancel(s.checkers, s.live), live := None, phase := Stopped)
    case Probe(c, w, host, alive) =>
      var r := s.checkers[c].router;
      s.(routers := s.routers[r := SetAliveSpec(s.routers[r], host, w.address, alive).0])
    case Serve(r, host) => s.(routers := s.routers[r := PickSpec(s.routers[r], host).0])
  }

  /** What a reload can come up with: something loaded from some file, with names resolved in some way. */
  ghost predicate Buildable(t: Target) {
    exists resolve: Resolver, file: ConfigV, v: Visits :: BuiltFrom(t, resolve, file, v)
  }

  ghost predicate BuiltFrom(t: Target, resolve: Resolver, file: ConfigV, v: Visits) {
    AllFair(v) && ListsFit(Some(file)) && TargetSpec(resolve, Some(file), v) == Ok(t)
  }

  ghost predicate Legal(m: Move) {
    m.Begin? && m.outcome.Ok? ==> Buildable(m.outcome.value)
  }

  /** The process as it starts, with the first configuration's router installed and its checker running. */
  function Startup(t: Target): Process {
    Process(t.cfg, [t.router], 0, [CheckerV(0, t.workers, false)], Some(0), Idle)
  }

  ghost predicate Steps(s: Process, m: Move, next: Process) {
    WellFormed(s) && Legal(m) && Can(s, m) && next == Next(s, m)
  }

  ghost predicate IsRun(t0: Target, states: seq<Process>, moves: seq<Move>) {
    && |states| == |moves| + 1
    && Buildable(t0) && states[0] == Startup(t0)
    && forall k :: 0 <= k < |moves| ==> Steps(states[k], moves[k], states[k + 1])
  }

  /** A readable file is reloaded exactly when it is well formed and no host is emptied by two normalisations. */
  lemma ReloadSucceedsIff(resolve: Resolver, file: ConfigV, v: Visits)
    requires AllFair(v)
    ensures TargetSpec(resolve, Some(file), v).Ok? <==>
            Loadable(resolve, file) && forall h :: h in file.routes ==> NormalizeHost(NormalizeHost(h)) != []
  {
    hide Fair, Loadable, NormalizeHost, Compile, Enumerates, Build, Acceptable, Inverse, WorkersOf;
    FairEnumerates(v.groups, file.backends);
    FairEnumerates(v.routes, file.routes);
    var g, r := v.groups(file.backends.Keys), v.routes(file.routes.Keys);
    LoadsIff(resolve, file, g, r);
    if Compile(resolve, file, g, r).Ok? {
      RouterAcceptsIff(resolve, file, g, r, Compile(resolve, file, g, r).value);
    }
  }

  /** The smallest sensible file: one group of one address, one host. */
  function OneHostFile(host: string, address: string): ConfigV {
    ConfigV(
      Settings(address, 0, 0, Some(false), [], HealthSettings(0, 0, []), 0, 0, 0, 0, 0, 0, None),
      map["g" := BackendGroup([address], HealthSettings(0, 0, []))],
      map[host := "g"])
  }

  lemma OneHostFileLoads(resolve: Resolver, host: string, q: Quad, p: port)
    requires ResolvesLiterals(resolve) && q != Quad(0, 0, 0, 0) && IsNormal(host) && host != []
    ensures Loadable(resolve, OneHostFile(host, QuadPort(q, p))) && NormalKeys(OneHostFile(host, QuadPort(q, p)))
  {
    var a := QuadPort(q, p);
    QuadPortTrimmed(q, p);
    QuadPortChars(q, p);
    assert TrimSpace("g") == "g";
    assert resolve(a) == Some(TcpAddr(V4(q), p));
    hide QuadPort, NormalizeHost, TrimSpace, JoinHostPort;
    var file := OneHostFile(host, a);
    assert CompileAddress(resolve, a).Ok?;
    assert GroupOk(resolve, file.settings, "g", file.backends["g"]);
    assert RouteOk(file, host);
  }

  lemma ListingIsFair()
    ensures Fair(s => Listing(s))
  {
  }

  /** There are targets: with literal addresses resolving to themselves, any host can be served by any one backend. */
  lemma TargetsExist(resolve: Resolver, host: string, q: Quad, p: port) returns (t: Target)
    requires ResolvesLiterals(resolve) && q != Quad(0, 0, 0, 0) && IsNormal(host) && host != []
    ensures Buildable(t) && host in t.cfg.routes
  {
    var file := OneHostFile(host, QuadPort(q, p));
    assert ListsFit(Some(file)) && file.routes.Keys == {host};
    OneHostFileLoads(resolve, host, q, p);
    ListingIsFair();
    hide *;
    t := FileTarget(resolve, file, Visits(s => Listing(s), s => Listing(s), s => Listing(s), s => Listing(s)), host);
  }

  lemma FileTarget(resolve: Resolver, file: ConfigV, v: Visits, host: string) returns (t: Target)
    requires Fair(v.groups) && Fair(v.routes) && Fair(v.pools) && Fair(v.hosts) && ListsFit(Some(file))
    requires Loadable(resolve, file) && NormalKeys(file) && host in file.routes && file.routes.Keys == {host}
    requires IsNormal(host) && host != []
    ensures Buildable(t) && host in t.cfg.routes
  {
    hide Fair, Loadable, NormalKeys, NormalizeHost, ListsFit, Compile, Loaded, TargetSpec, Build, Inverse, WorkersOf,
        Enumerates;
    ReloadSucceedsIff(resolve, file, v);
    t := TargetSpec(resolve, Some(file), v).value;
    assert BuiltFrom(t, resolve, file, v);
    var g, r, order := FromFile(t, resolve, file, v);
    TableKeys(resolve, file, g, r, t.cfg);
    assert NormalizeHost(host) == host;
  }

  // ---------------------------------------------------------------- what every step keeps

  predicate Stopping(p: Phase) {
    p.Halting? || p.Stopped?
  }

  /** The position of the newest checker, and whether the one before it may still be running. */
  ghost predicate CheckersFit(s: Process) {
    var n := |s.routers|;
    && n > 0
    && |s.checkers| == (if s.phase.Built? then n - 1 else n)
    && (forall c :: 0 <= c < |s.checkers| ==> s.checkers[c].router == c)
    && s.installed == (if s.phase.Built? || s.phase.Launched? then n - 2 else n - 1)
    && match s.phase
       case Swapped(_) => s.live == Some(n - 2)
       case Recorded(previous) => s.live == Some(n - 1) && previous == Some(n - 2)
       case Stopped => s.live == None
       case _ => s.live == Some(s.installed)
  }

  /** Exactly these checkers are not cancelled. */
  ghost predicate Running(s: Process) {
    var n := |s.routers|;
    forall c :: 0 <= c < |s.checkers| ==>
      (!s.checkers[c].cancelled <==>
       match s.phase
       case Idle => c == n - 1
       case Built(_) => c == n - 2
       case Halting => false
       case Stopped => false
       case _ => c == n - 1 || c == n - 2)
  }

  /** Configuration, router and checker all come from one target. */
  ghost predicate InForce(cfg: RuntimeConfig, router: RouterV, workers: seq<Worker>, t: Target) {
    Changeable(cfg) == Changeable(t.cfg) && Sessions.SameRoutes(t.router, router) && workers == t.workers
  }

  /** The target of the last successful build, or the first one. */
  function LastTarget(t0: Target, moves: seq<Move>): Target {
    if moves == [] then t0
    else
      var m := moves[|moves| - 1];
      if m.Begin? && m.outcome.Ok? then m.outcome.value else LastTarget(t0, moves[..|moves| - 1])
  }

  /** The last target is being put in force piece by piece, or is. */
  ghost predicate Switching(s: Process, t: Target) {
    var n := |s.routers|;
    && n > 0 && Sessions.SameRoutes(t.router, s.routers[n - 1])
    && (!s.phase.Built? ==> |s.checkers| == n && s.checkers[n - 1].workers == t.workers)
    && match s.phase
       case Built(target) => target == t
       case Launched(target) => target == t
       case Swapped(target) => target == t
       case _ => Changeable(s.cfg) == Changeable(t.cfg)
  }

  lemma PickKeeps(v: RouterV, host: string)
    requires RouterOk(v)
    ensures RouterOk(PickSpec(v, host).0) && Sessions.SameRoutes(v, PickSpec(v, host).0)
  {
    hide NormalizeHost;
  }

  lemma TouchWellFormed(s: Process, r: nat, v: RouterV)
    requires WellFormed(s) && r < |s.routers| && RouterOk(v)
    ensures WellFormed(s.(routers := s.routers[r := v]))
  {
    hide RouterOk;
  }

  lemma StepWellFormed(s: Process, m: Move)
    requires WellFormed(s) && CheckersFit(s) && Legal(m) && Can(s, m)
    ensures WellFormed(Next(s, m))
  {
    match m {
      case Begin(Ok(t)) =>
        BuildableOk(t);
        LoopWellFormed(s, m);
      case Serve(r, host) =>
        PickKeeps(s.routers[r], host);
        hide RouterOk, PickSpec, WellFormed, CheckersFit;
        TouchWellFormed(s, r, PickSpec(s.routers[r], host).0);
      case Probe(c, w, host, alive) =>
        var r := s.checkers[c].router;
        Sessions.SetAliveSound(s.routers[r], host, w.address, alive);
        hide RouterOk, SetAliveSpec, WellFormed, CheckersFit;
        TouchWellFormed(s, r, SetAliveSpec(s.routers[r], host, w.address, alive).0);
      case _ => LoopWellFormed(s, m);
    }
  }

  lemma LoopWellFormed(s: Process, m: Move)
    requires WellFormed(s) && CheckersFit(s) && Can(s, m) && !m.Serve? && !m.Probe?
    requires m.Begin? && m.outcome.Ok? ==> RouterOk(m.outcome.value.router)
    ensures WellFormed(Next(s, m))
  {
    hide RouterOk, Merge, Fixed, Changeable;
  }

  lemma BuildableOk(t: Target)
    requires Buildable(t)
    ensures RouterOk(t.router)
  {
    var resolve: Resolver, file: ConfigV, v: Visits :| BuiltFrom(t, resolve, file, v);
    var g, r, order := FromFile(t, resolve, file, v);
    LoadedListsFit(resolve, file, g, r, t.cfg);
    BuiltRouterOk(t.cfg.routes, order);
  }

  /** What a target is made of. */
  lemma FromFile(t: Target, resolve: Resolver, file: ConfigV, v: Visits)
    returns (g: seq<string>, r: seq<string>, order: seq<string>)
    requires BuiltFrom(t, resolve, file, v)
    ensures Loaded(resolve, file, g, r, t.cfg) && Enumerates(order, t.cfg.routes)
    ensures Acceptable(t.cfg.routes) && t.router == Build(t.cfg.routes, order)
    ensures forall b :: b in file.backends ==> |file.backends[b].addresses| <= Scan.MAX_LEN
    ensures AllFair(v) && t.workers == WorkersOf(t.cfg.backendGroups, InverseBy(v.hosts, t.cfg.hostToGroup))
  {
    hide Compile, Build, Acceptable, Inverse, WorkersOf, Enumerates, Fair;
    FairEnumerates(v.groups, file.backends);
    FairEnumerates(v.routes, file.routes);
    g, r := v.groups(file.backends.Keys), v.routes(file.routes.Keys);
    FairEnumerates(v.pools, t.cfg.routes);
    order := v.pools(t.cfg.routes.Keys);
  }

  ghost function InverseBy(visit: Visit, hostToGroup: map<string, string>): map<string, seq<string>>
    requires Fair(visit)
  {
    FairEnumerates(visit, hostToGroup);
    Inverse(hostToGroup, visit(hostToGroup.Keys))
  }

  /** Only probes and picks touch a router, and they touch one; the event loop's own steps only add routers. */
  lemma StepFits(s: Process, m: Move)
    requires WellFormed(s) && CheckersFit(s) && Running(s) && Can(s, m)
    ensures CheckersFit(Next(s, m)) && Running(Next(s, m))
  {
    hide SetAliveSpec, PickSpec, RouterOk, Merge, Fixed, Changeable;
  }

  lemma SameRoutesChain(u: RouterV, v: RouterV, w: RouterV)
    requires Sessions.SameRoutes(u, v) && Sessions.SameRoutes(v, w)
    ensures Sessions.SameRoutes(u, w)
  {
  }

  lemma StepSwitches(s: Process, m: Move, t: Target)
    requires WellFormed(s) && CheckersFit(s) && Switching(s, t) && Can(s, m)
    ensures Switching(Next(s, m), if m.Begin? && m.outcome.Ok? then m.outcome.value else t)
  {
    hide SetAliveSpec, PickSpec, RouterOk, Fixed;
    var n := |s.routers| - 1;
    if m.Serve? {
      PickKeeps(s.routers[m.r], m.host);
      if m.r == n {
        SameRoutesChain(t.router, s.routers[n], PickSpec(s.routers[n], m.host).0);
      }
    }
    if m.Probe? {
      Sessions.SetAliveSound(s.routers[m.c], m.host, m.w.address, m.alive);
      if m.c == n {
        SameRoutesChain(t.router, s.routers[n], SetAliveSpec(s.routers[n], m.host, m.w.address, m.alive).0);
      }
    }
  }

  lemma {:induction false} RunKeeps(t0: Target, states: seq<Process>, moves: seq<Move>, k: nat)
    requires IsRun(t0, states, moves) && k <= |moves|
    ensures var s := states[k];
            && WellFormed(s) && CheckersFit(s) && Running(s)
            && Switching(s, LastTarget(t0, moves[..k]))
            && Fixed(s.cfg) == Fixed(t0.cfg)
  {
    hide *;
    if k == 0 {
      StartKeeps(t0, states, moves);
    } else {
      RunKeeps(t0, states, moves, k - 1);
      MoveTaken(t0, states, moves, k - 1);
      var s, m := states[k - 1], moves[k - 1];
      StepWellFormed(s, m);
      StepFits(s, m);
      StepSwitches(s, m, LastTarget(t0, moves[..k - 1]));
      FixedKept(s, m);
      NextTarget(t0, moves, k);
    }
  }

  lemma StartKeeps(t0: Target, states: seq<Process>, moves: seq<Move>)
    requires IsRun(t0, states, moves)
    ensures |states| == |moves| + 1
    ensures var s := states[0];
            && WellFormed(s) && CheckersFit(s) && Running(s)
            && Switching(s, LastTarget(t0, moves[..0]))
            && Fixed(s.cfg) == Fixed(t0.cfg)
  {
    hide Buildable, WellFormed, CheckersFit, Running, Switching, Startup, Legal, Can, Next, Fixed;
    StartupKeeps(t0);
  }

  lemma StartupKeeps(t0: Target)
    requires Buildable(t0)
    ensures var s := Startup(t0);
            WellFormed(s) && CheckersFit(s) && Running(s) && Switching(s, t0) && Fixed(s.cfg) == Fixed(t0.cfg)
  {
    BuildableOk(t0);
    hide *;
    StartupSwitches(t0);
    StartupFits(t0);
  }

  lemma StartupFits(t0: Target)
    requires RouterOk(t0.router)
    ensures var s := Startup(t0);
            WellFormed(s) && CheckersFit(s) && Running(s) && Fixed(s.cfg) == Fixed(t0.cfg)
  {
    hide RouterOk, Fixed;
  }

  lemma StartupSwitches(t0: Target)
    ensures Switching(Startup(t0), t0)
  {
    hide Changeable;
  }

  lemma MoveTaken(t0: Target, states: seq<Process>, moves: seq<Move>, k: nat)
    requires IsRun(t0, states, moves) && k < |moves|
    ensures |states| == |moves| + 1
    ensures WellFormed(states[k]) && Legal(moves[k]) && Can(states[k], moves[k])
            && states[k + 1] == Next(states[k], moves[k])
  {
    hide WellFormed, Legal, Can, Next, Buildable, Startup;
    assert Steps(states[k], moves[k], states[k + 1]);
  }

  lemma NextTarget(t0: Target, moves: seq<Move>, k: nat)
    requires 0 < k <= |moves|
    ensures var m := moves[k - 1];
            LastTarget(t0, moves[..k]) == if m.Begin? && m.outcome.Ok? then m.outcome.value
                else LastTarget(t0, moves[..k - 1])
  {
    assert moves[..k][..k - 1] == moves[..k - 1];
  }

  lemma FixedKept(s: Process, m: Move)
    requires WellFormed(s) && Can(s, m)
    ensures Fixed(Next(s, m).cfg) == Fixed(s.cfg)
  {
    hide SetAliveSpec, PickSpec, WellFormed;
  }

  // ---------------------------------------------------------------- the laws

  /** Any run can go on with any legal step: well-formedness never has to be assumed. */
  lemma RunContinues(t0: Target, states: seq<Process>, moves: seq<Move>, m: Move)
    requires IsRun(t0, states, moves) && Legal(m) && Can(states[|moves|], m)
    ensures WellFormed(states[|moves|])
    ensures IsRun(t0, states + [Next(states[|moves|], m)], moves + [m])
  {
    hide Next, WellFormed, Legal, Buildable, Startup, Can, LastTarget, Switching, CheckersFit, Running, Fixed;
    assert WellFormed(states[|moves|]) by {
      RunKeeps(t0, states, moves, |moves|);
    }
    var longer, more := states + [Next(states[|moves|], m)], moves + [m];
    forall k | 0 <= k < |more|
      ensures Steps(longer[k], more[k], longer[k + 1])
    {
      if k < |moves| {
        MoveTaken(t0, states, moves, k);
      }
    }
  }

  /**
   * Reload invariant. In every state of every run the restart-only fields are those of the start. Whenever no
   * reload is under way, the reloadable fields, the installed router's pools and index, and the workers of the
   * one checker that is not cancelled all come from the last successful load, and that checker writes to the
   * router that the server holds.
   */
  lemma ReloadInvariant(t0: Target, states: seq<Process>, moves: seq<Move>, k: nat)
    requires IsRun(t0, states, moves) && k <= |moves|
    ensures Fixed(states[k].cfg) == Fixed(t0.cfg)
    ensures states[k].phase.Idle? ==>
              var s := states[k];
              && s.live.Some? && s.live.value < |s.checkers| && s.installed < |s.routers|
              && s.checkers[s.live.value].router == s.installed
              && (forall c :: 0 <= c < |s.checkers| ==> (!s.checkers[c].cancelled <==> c == s.live.value))
              && InForce(s.cfg, s.routers[s.installed], s.checkers[s.live.value].workers, LastTarget(t0, moves[..k]))
    ensures Stopping(states[k].phase) ==> forall c :: 0 <= c < |states[k].checkers| ==> states[k].checkers[c].cancelled
  {
    hide IsRun, LastTarget, Fixed, Changeable, Sessions.SameRoutes;
    RunKeeps(t0, states, moves, k);
  }

  /** Only a probe by the installed router's own checker changes it; before shutdown, an uncancelled one. */
  lemma OnlyTheLiveCheckerWrites(t0: Target, states: seq<Process>, moves: seq<Move>, k: nat)
    requires IsRun(t0, states, moves) && k < |moves| && moves[k].Probe?
    requires states[k].installed < |states[k].routers|
    ensures states[k + 1].installed == states[k].installed && |states[k + 1].routers| == |states[k].routers|
    ensures var s := states[k];
            states[k + 1].routers[s.installed] != s.routers[s.installed] ==>
              moves[k].c == s.installed && moves[k].c < |s.checkers|
                  && (Stopping(s.phase) || !s.checkers[moves[k].c].cancelled)
  {
    hide *;
    RunKeeps(t0, states, moves, k);
    MoveTaken(t0, states, moves, k);
    ProbeWrites(states[k], moves[k]);
  }

  lemma ProbeWrites(s: Process, m: Move)
    requires WellFormed(s) && CheckersFit(s) && Running(s) && Can(s, m) && m.Probe?
    ensures Next(s, m).installed == s.installed < |s.routers| == |Next(s, m).routers|
    ensures Next(s, m).routers[s.installed] != s.routers[s.installed] ==>
              m.c == s.installed && m.c < |s.checkers| && (Stopping(s.phase) || !s.checkers[m.c].cancelled)
  {
    hide SetAliveSpec, RouterOk;
  }

  lemma {:induction false} InstalledAdvances(t0: Target, states: seq<Process>, moves: seq<Move>, j: nat, k: nat)
    requires IsRun(t0, states, moves) && j <= k <= |moves|
    ensures |states| == |moves| + 1
    ensures states[j].installed <= states[k].installed
    decreases k - j
  {
    hide *;
    RunLength(t0, states, moves);
    if j < k {
      InstalledAdvances(t0, states, moves, j, k - 1);
      NextAdvances(t0, states, moves, k - 1);
    }
  }

  lemma RunLength(t0: Target, states: seq<Process>, moves: seq<Move>)
    requires IsRun(t0, states, moves)
    ensures |states| == |moves| + 1
  {
    hide Buildable, Startup, Steps;
  }

  lemma NextAdvances(t0: Target, states: seq<Process>, moves: seq<Move>, k: nat)
    requires IsRun(t0, states, moves) && k < |moves|
    ensures |states| == |moves| + 1
    ensures states[k].installed <= states[k + 1].installed
  {
    hide *;
    RunKeeps(t0, states, moves, k);
    MoveTaken(t0, states, moves, k);
    StepAdvances(states[k], moves[k]);
  }

  lemma StepAdvances(s: Process, m: Move)
    requires WellFormed(s) && CheckersFit(s) && Can(s, m)
    ensures s.installed <= Next(s, m).installed
  {
    hide WellFormed, SetAliveSpec, PickSpec, Merge, Fixed, Changeable;
  }

  /** A checker that a reload has cancelled never again changes the router the server holds, even in a late probe. */
  lemma StaleCheckersAreHarmless(t0: Target, states: seq<Process>, moves: seq<Move>, j: nat, k: nat)
    requires IsRun(t0, states, moves) && j <= k < |moves| && moves[k].Probe?
    requires moves[k].c < |states[j].checkers| && states[j].checkers[moves[k].c].cancelled && !Stopping(states[j].phase)
    ensures states[k].installed < |states[k].routers|
    ensures states[k + 1].installed == states[k].installed && |states[k + 1].routers| == |states[k].routers|
    ensures states[k + 1].routers[states[k].installed] == states[k].routers[states[k].installed]
  {
    RunKeeps(t0, states, moves, j);
    RunKeeps(t0, states, moves, k);
    InstalledAdvances(t0, states, moves, j, k);
    assert moves[k].c < states[j].installed;
    hide IsRun, LastTarget, Switching, Running, Fixed;
    OnlyTheLiveCheckerWrites(t0, states, moves, k);
  }

  /** What RuntimeState.Reload does in one call, on values. */
  function ReloadAtOnce(s: Process, t: Target): Process {
    Process(
      Merge(Fixed(s.cfg), Changeable(t.cfg)), s.routers + [t.router], |s.routers|,
      Cancel(s.checkers, s.live) + [CheckerV(|s.routers|, t.workers, false)], Some(|s.checkers|), Idle)
  }

  /** Undisturbed, the five steps of the event loop add up to the call. */
  lemma FiveStepsAreOneReload(s: Process, t: Target) returns (states: seq<Process>, moves: seq<Move>)
    requires WellFormed(s) && CheckersFit(s) && s.phase.Idle? && RouterOk(t.router)
    ensures moves == [Begin(Ok(t)), Launch, Swap, Record, Retire] && |states| == 6 && states[0] == s
    ensures forall k :: 0 <= k < 5 ==>
            WellFormed(states[k]) && Can(states[k], moves[k]) && states[k + 1] == Next(states[k], moves[k])
    ensures states[5] == ReloadAtOnce(s, t)
  {
    hide RouterOk, Merge, Fixed, Changeable;
    var s1 := Next(s, Begin(Ok(t)));
    var s2 := Next(s1, Launch);
    var s3 := Next(s2, Swap);
    var s4 := Next(s3, Record);
    var s5 := Next(s4, Retire);
    assert s5.checkers == Cancel(s.checkers, s.live) + [CheckerV(|s.routers|, t.workers, false)];
    moves := [Begin(Ok(t)), Launch, Swap, Record, Retire];
    states := [s, s1, s2, s3, s4, s5];
  }

  // ---------------------------------------------------------------- router, checker and configuration agree

  lemma TargetWatches(t: Target, h: string, a: string)
    requires Buildable(t) && h in t.cfg.routes && a in t.cfg.routes[h]
    ensures SpeaksFor(t.workers, h, a)
  {
    var resolve: Resolver, file: ConfigV, v: Visits :| BuiltFrom(t, resolve, file, v);
    var g, r, order := FromFile(t, resolve, file, v);
    hide Loaded, Enumerates, BuiltFrom, SpeaksFor, WorkersOf, Inverse, Buildable;
    FairEnumerates(v.hosts, t.cfg.hostToGroup);
    EveryBackendIsProbed(resolve, file, g, r, t.cfg, h, a);
    WorkersCover(t.cfg, v.hosts(t.cfg.hostToGroup.Keys), h, a);
  }

  /** Where a backend in a target's router comes from. */
  lemma TargetBackend(t: Target, key: string, a: string) returns (h: string)
    requires Buildable(t) && key in t.router.pools && a in t.router.pools[key].addresses
    ensures h in t.cfg.routes && NormalizeHost(h) == key && a in t.cfg.routes[h]
  {
    hide Loaded, BuiltFrom, NormalizeHost, Build;
    var resolve: Resolver, file: ConfigV, v: Visits :| BuiltFrom(t, resolve, file, v);
    var g, r, order := FromFile(t, resolve, file, v);
    BuildPools(t.cfg.routes, order);
    assert HasLast(order, key);
    var i: nat :| LastNamed(order, i, key);
    h := order[i];
  }

  lemma {:induction false} LastTargetBuildable(t0: Target, states: seq<Process>, moves: seq<Move>, k: nat)
    requires IsRun(t0, states, moves) && k <= |moves|
    ensures Buildable(LastTarget(t0, moves[..k]))
  {
    hide Buildable, Can, Next, WellFormed;
    if k > 0 {
      LastTargetBuildable(t0, states, moves, k - 1);
      NextTarget(t0, moves, k);
      MoveTaken(t0, states, moves, k - 1);
    }
  }

  /**
   * Whenever no reload is under way, every backend that the server can pick is configured for its host, and the
   * one running checker has a worker that probes it on behalf of that host.
   */
  lemma EveryInstalledBackendIsWatched(t0: Target, states: seq<Process>, moves: seq<Move>, k: nat, key: string,
                                       a: string)
    returns (h: string)
    requires IsRun(t0, states, moves) && k <= |moves| && states[k].phase.Idle?
    requires var s := states[k];
             s.installed < |s.routers| && key in s.routers[s.installed].pools
                 && a in s.routers[s.installed].pools[key].addresses
    ensures var s := states[k];
            && h in s.cfg.routes && NormalizeHost(h) == key && a in s.cfg.routes[h]
            && s.live.Some? && s.live.value < |s.checkers|
            && SpeaksFor(s.checkers[s.live.value].workers, h, a)
  {
    hide IsRun, LastTarget, Buildable, SpeaksFor, NormalizeHost;
    ReloadInvariant(t0, states, moves, k);
    LastTargetBuildable(t0, states, moves, k);
    var t := LastTarget(t0, moves[..k]);
    h := TargetBackend(t, key, a);
    TargetWatches(t, h, a);
  }
}
