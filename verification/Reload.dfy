/** Hot reload: building the next router and checker, and switching the server over to them. */
module Reload {
  import opened Text
  import opened Addresses
  import Scan
  import opened Router
  import opened Config
  import opened ConfigLaws
  import opened Health

  // ---------------------------------------------------------------- what may change without a restart

  datatype RestartOnly = RestartOnly(
    listenAddr: string, metricsListenAddr: string, metricsEnabled: bool, maxConnections: int, maxInflightDials: int,
    dialTimeout: int, readTimeout: int, writeTimeout: int, idleTimeout: int, tcpKeepAlive: int)

  datatype Reloadable = Reloadable(
    autoDiscoveryEnabled: bool, shutdownGrace: int,
    routes: map<string, seq<string>>, backendGroups: seq<BackendGroupConfig>, hostToGroup: map<string, string>)

  function Fixed(rc: RuntimeConfig): RestartOnly {
    RestartOnly(rc.listenAddr, rc.metricsListenAddr, rc.metricsEnabled, rc.maxConnections, rc.maxInflightDials,
                rc.dialTimeout, rc.readTimeout, rc.writeTimeout, rc.idleTimeout, rc.tcpKeepAlive)
  }

  function Changeable(rc: RuntimeConfig): Reloadable {
    Reloadable(rc.autoDiscoveryEnabled, rc.shutdownGrace, rc.routes, rc.backendGroups, rc.hostToGroup)
  }

  /** The configuration with the restart-only part of one and the reloadable part of the other. */
  function Merge(fixed: RestartOnly, changeable: Reloadable): (rc: RuntimeConfig)
    ensures Fixed(rc) == fixed && Changeable(rc) == changeable
  {
    RuntimeConfig(
      fixed.listenAddr, fixed.metricsEnabled, fixed.metricsListenAddr, changeable.autoDiscoveryEnabled,
      fixed.maxConnections, fixed.maxInflightDials,
      fixed.dialTimeout, fixed.readTimeout, fixed.writeTimeout, fixed.idleTimeout, fixed.tcpKeepAlive,
      changeable.shutdownGrace, changeable.routes, changeable.backendGroups, changeable.hostToGroup)
  }

  datatype Field =
    | ListenAddr
    | MetricsListenAddr
    | MetricsEnabled
    | MaxConnections
    | MaxInflightDials
    | DialTimeout
    | ReadTimeout
    | WriteTimeout
    | IdleTimeout
    | TCPKeepAlive

  predicate Differs(f: Field, a: RuntimeConfig, b: RuntimeConfig) {
    match f
    case ListenAddr => a.listenAddr != b.listenAddr
    case MetricsListenAddr => a.metricsListenAddr != b.metricsListenAddr
    case MetricsEnabled => a.metricsEnabled != b.metricsEnabled
    case MaxConnections => a.maxConnections != b.maxConnections
    case MaxInflightDials => a.maxInflightDials != b.maxInflightDials
    case DialTimeout => a.dialTimeout != b.dialTimeout
    case ReadTimeout => a.readTimeout != b.readTimeout
    case WriteTimeout => a.writeTimeout != b.writeTimeout
    case IdleTimeout => a.idleTimeout != b.idleTimeout
    case TCPKeepAlive => a.tcpKeepAlive != b.tcpKeepAlive
  }

  function Rank(f: Field): nat {
    match f
    case ListenAddr => 0
    case MetricsListenAddr => 1
    case MetricsEnabled => 2
    case MaxConnections => 3
    case MaxInflightDials => 4
    case DialTimeout => 5
    case ReadTimeout => 6
    case WriteTimeout => 7
    case IdleTimeout => 8
    case TCPKeepAlive => 9
  }

  /** Exactly the fields of rank below k that differ, in the order of their ranks. */
  ghost predicate WarnsOf(warnings: seq<Field>, k: nat, a: RuntimeConfig, b: RuntimeConfig) {
    && (forall f :: f in warnings <==> Rank(f) < k && Differs(f, a, b))
    && (forall i, j :: 0 <= i < j < |warnings| ==> Rank(warnings[i]) < Rank(warnings[j]))
  }

  lemma WarnsNext(warnings: seq<Field>, f: Field, a: RuntimeConfig, b: RuntimeConfig)
    requires WarnsOf(warnings, Rank(f), a, b)
    ensures WarnsOf(if Differs(f, a, b) then warnings + [f] else warnings, Rank(f) + 1, a, b)
  {
    hide Differs;
    forall g | g in warnings
      ensures Rank(g) < Rank(f)
    {
    }
  }

  /** A restart-only field as it will be applied, and a warning if that is not the new value. */
  method Hold<T(==)>(f: Field, a: RuntimeConfig, b: RuntimeConfig, current: T, next: T, warnings: seq<Field>)
    returns (applied: T, held: seq<Field>)
    requires WarnsOf(warnings, Rank(f), a, b) && (current != next <==> Differs(f, a, b))
    ensures applied == current && WarnsOf(held, Rank(f) + 1, a, b)
  {
    WarnsNext(warnings, f, a, b);
    applied, held := next, warnings;
    if next != current {
      held := held + [f];
      applied := current;
    }
  }

  /** The listeners and the limits. */
  method HoldLimits(current: RuntimeConfig, next: RuntimeConfig)
    returns (listenAddr: string, metricsListenAddr: string, metricsEnabled: bool, maxConnections: int,
             maxInflightDials: int, held: seq<Field>)
    ensures listenAddr == current.listenAddr && metricsListenAddr == current.metricsListenAddr
    ensures metricsEnabled == current.metricsEnabled
    ensures maxConnections == current.maxConnections && maxInflightDials == current.maxInflightDials
    ensures WarnsOf(held, Rank(DialTimeout), current, next)
  {
    held := [];
    assert WarnsOf(held, Rank(ListenAddr), current, next);
    hide WarnsOf;
    listenAddr, held := Hold(ListenAddr, current, next, current.listenAddr, next.listenAddr, held);
    metricsListenAddr, held := Hold(MetricsListenAddr, current, next, current.metricsListenAddr,
        next.metricsListenAddr, held);
    metricsEnabled, held := Hold(Field.MetricsEnabled, current, next, current.metricsEnabled, next.metricsEnabled,
        held);
    maxConnections, held := Hold(MaxConnections, current, next, current.maxConnections, next.maxConnections, held);
    maxInflightDials, held := Hold(MaxInflightDials, current, next, current.maxInflightDials, next.maxInflightDials,
        held);
  }

  /** The timeouts. */
  method HoldTimeouts(current: RuntimeConfig, next: RuntimeConfig, warnings: seq<Field>)
    returns (dialTimeout: int, readTimeout: int, writeTimeout: int, idleTimeout: int, tcpKeepAlive: int,
        held: seq<Field>)
    requires WarnsOf(warnings, Rank(DialTimeout), current, next)
    ensures dialTimeout == current.dialTimeout && readTimeout == current.readTimeout
            && writeTimeout == current.writeTimeout
    ensures idleTimeout == current.idleTimeout && tcpKeepAlive == current.tcpKeepAlive
    ensures WarnsOf(held, Rank(TCPKeepAlive) + 1, current, next)
  {
    hide WarnsOf;
    held := warnings;
    dialTimeout, held := Hold(DialTimeout, current, next, current.dialTimeout, next.dialTimeout, held);
    readTimeout, held := Hold(ReadTimeout, current, next, current.readTimeout, next.readTimeout, held);
    writeTimeout, held := Hold(WriteTimeout, current, next, current.writeTimeout, next.writeTimeout, held);
    idleTimeout, held := Hold(IdleTimeout, current, next, current.idleTimeout, next.idleTimeout, held);
    tcpKeepAlive, held := Hold(TCPKeepAlive, current, next, current.tcpKeepAlive, next.tcpKeepAlive, held);
  }

  /** Restart-only fields stay, the others are taken over; the warnings name exactly the fields held back, in order. */
  method ApplyReloadPolicy(current: RuntimeConfig, next: RuntimeConfig)
    returns (applied: RuntimeConfig, warnings: seq<Field>)
    ensures applied == Merge(Fixed(current), Changeable(next))
    ensures WarnsOf(warnings, Rank(TCPKeepAlive) + 1, current, next)
  {
    hide WarnsOf, Differs;
    var listenAddr, metricsListenAddr, metricsEnabled, maxConnections, maxInflightDials, held :=
      HoldLimits(current, next);
    var dialTimeout, readTimeout, writeTimeout, idleTimeout, tcpKeepAlive, all := HoldTimeouts(current, next, held);
    warnings := all;
    applied := Merge(RestartOnly(listenAddr, metricsListenAddr, metricsEnabled, maxConnections, maxInflightDials,
                                 dialTimeout, readTimeout, writeTimeout, idleTimeout, tcpKeepAlive), Changeable(next));
  }

  // ---------------------------------------------------------------- building the target of a reload

  /** How `range` happens to visit the keys of a map. */
  type Visit = set<string> -> seq<string>

  ghost predicate Fair(visit: Visit) {
    forall s: set<string> :: Distinct(visit(s)) && forall k :: k in s <==> k in visit(s)
  }

  /** One visit for each of the four maps that a reload ranges over. */
  datatype Visits = Visits(groups: Visit, routes: Visit, pools: Visit, hosts: Visit)

  ghost predicate AllFair(v: Visits) {
    Fair(v.groups) && Fair(v.routes) && Fair(v.pools) && Fair(v.hosts)
  }

  lemma FairEnumerates<T>(visit: Visit, m: map<string, T>)
    requires Fair(visit)
    ensures Enumerates(visit(m.Keys), m)
  {
    assert forall k :: k in m.Keys <==> k in visit(m.Keys);
  }

  datatype ReloadError = Unreadable | ConfigError(e: LoadError) | RouterInit

  /** What a reload switches to: a configuration, its router, and the workers of its checker. */
  datatype Target = Target(cfg: RuntimeConfig, router: RouterV, workers: seq<Worker>)

  ghost function TargetSpec(resolve: Resolver, read: Option<ConfigV>, v: Visits): Result<Target, ReloadError>
    requires AllFair(v)
  {
    match read
    case None => Err(Unreadable)
    case Some(file) =>
      FairEnumerates(v.groups, file.backends);
      FairEnumerates(v.routes, file.routes);
      match Compile(resolve, file, v.groups(file.backends.Keys), v.routes(file.routes.Keys))
      case Err(e) => Err(ConfigError(e))
      case Ok(rc) =>
        if !Acceptable(rc.routes) then Err(RouterInit)
        else
          FairEnumerates(v.pools, rc.routes);
          FairEnumerates(v.hosts, rc.hostToGroup);
          Ok(Target(rc, Build(rc.routes, v.pools(rc.routes.Keys)),
                    WorkersOf(rc.backendGroups, Inverse(rc.hostToGroup, v.hosts(rc.hostToGroup.Keys)))))
  }

  /** Address lists are slices, so they have at most MAX_LEN elements. */
  ghost predicate ListsFit(read: Option<ConfigV>) {
    read.Some? ==> forall g :: g in read.value.backends ==> |read.value.backends[g].addresses| <= Scan.MAX_LEN
  }

  lemma LoadedListsFit(resolve: Resolver, cfg: ConfigV, g: seq<string>, r: seq<string>, rc: RuntimeConfig)
    requires Loaded(resolve, cfg, g, r, rc)
    requires forall b :: b in cfg.backends ==> |cfg.backends[b].addresses| <= Scan.MAX_LEN
    ensures forall k :: k in rc.routes ==> |rc.routes[k]| <= Scan.MAX_LEN
  {
    LoadedTables(resolve, cfg, g, r, rc);
    hide Loaded, TablesMirror, GroupsOk, RoutesOk, CompileAddresses, GroupOf, TrimSpace;
    forall k | k in rc.routes
      ensures |rc.routes[k]| <= Scan.MAX_LEN
    {
      var host := RouteOf(resolve, cfg, g, r, rc, k);
      GroupResolves(resolve, cfg, GroupOf(cfg, host));
      CompiledLength(resolve, cfg.backends[GroupOf(cfg, host)].addresses);
    }
  }

  method BuildReloadTarget(resolve: Resolver, read: Option<ConfigV>, v: Visits)
    returns (r: Result<RuntimeConfig, ReloadError>, router: Router?, checker: Checker?)
    requires AllFair(v) && ListsFit(read)
    ensures match TargetSpec(resolve, read, v)
            case Err(e) => r == Err(e)
            case Ok(t) =>
              && r == Ok(t.cfg)
              && router != null && fresh(router) && router.Valid() && fresh(router.Heap()) && router.Value() == t.router
              && checker != null && fresh(checker) && checker.router == router
              && WorkersOf(checker.groups, checker.groupToHosts) == t.workers
  {
    hide Compile, Build, Acceptable, Inverse, WorkersOf;
    router, checker := null, null;
    if read.None? {
      return Err(Unreadable), null, null;
    }
    var file := read.value;
    FairEnumerates(v.groups, file.backends);
    FairEnumerates(v.routes, file.routes);
    var loaded := NormalizeAndValidate(resolve, file, v.groups(file.backends.Keys), v.routes(file.routes.Keys));
    if loaded.Err? {
      return Err(ConfigError(loaded.error)), null, null;
    }
    var rc := loaded.value;
    LoadedListsFit(resolve, file, v.groups(file.backends.Keys), v.routes(file.routes.Keys), rc);
    FairEnumerates(v.pools, rc.routes);
    FairEnumerates(v.hosts, rc.hostToGroup);
    router := New(rc.routes, v.pools(rc.routes.Keys));
    if router == null {
      return Err(RouterInit), null, null;
    }
    checker := new Checker(router, rc.backendGroups, rc.hostToGroup, v.hosts(rc.hostToGroup.Keys));
    r := Ok(rc);
  }

  // ---------------------------------------------------------------- the objects that are switched

  /** The server, as far as reloads see it: the router its dialer reads. */
  class Server {
    var router: Router

    constructor (router: Router)
      ensures this.router == router
    {
      this.router := router;
    }

    method UpdateRouter(router: Router)
      modifies this
      ensures this.router == router
    {
      this.router := router;
    }
  }

  /** A started checker together with its cancel function. */
  class CheckerRun {
    const checker: Checker
    var cancelled: bool

    constructor (checker: Checker)
      ensures this.checker == checker && !cancelled
    {
      this.checker, this.cancelled := checker, false;
    }

    method Cancel()
      modifies this
      ensures cancelled
    {
      cancelled := true;
    }
  }

  class RuntimeState {
    const server: Server
    var cfg: RuntimeConfig
    var checkerCancel: CheckerRun?

    /** The live checker is not cancelled and writes to the very router that the server holds. */
    ghost predicate Valid()
      reads this, server, checkerCancel
    {
      checkerCancel != null ==> !checkerCancel.cancelled && checkerCancel.checker.router == server.router
    }

    constructor (server: Server, cfg: RuntimeConfig, checkerCancel: CheckerRun)
      requires !checkerCancel.cancelled && checkerCancel.checker.router == server.router
      ensures Valid() && this.server == server && this.cfg == cfg && this.checkerCancel == checkerCancel
    {
      this.server, this.cfg, this.checkerCancel := server, cfg, checkerCancel;
    }

    /** The locked part of a reload and the cancellation after it. */
    method Switch(next: RuntimeConfig, router: Router, checker: Checker) returns (warnings: seq<Field>)
      requires Valid() && checker.router == router
      modifies this, server, checkerCancel
      ensures Valid() && server.router == router
      ensures cfg == Merge(Fixed(old(cfg)), Changeable(next))
      ensures WarnsOf(warnings, Rank(TCPKeepAlive) + 1, old(cfg), next)
      ensures checkerCancel != null && fresh(checkerCancel) && checkerCancel.checker == checker
      ensures old(checkerCancel) != null ==> old(checkerCancel).cancelled
    {
      hide WarnsOf, Fixed, Changeable, Merge;
      var applied, held := ApplyReloadPolicy(cfg, next);
      var nextCancel := new CheckerRun(checker);
      var oldCancel := checkerCancel;
      server.UpdateRouter(router);
      cfg := applied;
      checkerCancel := nextCancel;
      warnings := held;
      if oldCancel != null {
        oldCancel.Cancel();
      }
    }

    /** A failed reload changes nothing; a successful one switches configuration, router and checker together. */
    method Reload(resolve: Resolver, read: Option<ConfigV>, v: Visits)
      returns (err: Option<ReloadError>, warnings: seq<Field>)
      requires Valid() && AllFair(v) && ListsFit(read)
      modifies this, server, checkerCancel
      ensures Valid()
      ensures match TargetSpec(resolve, read, v)
              case Err(e) =>
                && err == Some(e) && unchanged(this) && unchanged(server)
                && (old(checkerCancel) != null ==> unchanged(old(checkerCancel)))
              case Ok(t) =>
                && err == None
                && cfg == Merge(Fixed(old(cfg)), Changeable(t.cfg))
                && WarnsOf(warnings, Rank(TCPKeepAlive) + 1, old(cfg), t.cfg)
                && fresh(server.router) && server.router.Value() == t.router
                && checkerCancel != null && fresh(checkerCancel)
                && WorkersOf(checkerCancel.checker.groups, checkerCancel.checker.groupToHosts) == t.workers
                && (old(checkerCancel) != null ==> old(checkerCancel).cancelled)
    {
      hide TargetSpec, Fixed, Changeable, Merge, WarnsOf, WorkersOf, AllFair, ListsFit;
      var next, router, checker := BuildReloadTarget(resolve, read, v);
      if next.Err? {
        return Some(next.error), [];
      }
      ghost var built := router.Value();
      warnings := Switch(next.value, router, checker);
      assert router.Value() == built;
      err := None;
    }

    method StopChecker()
      modifies this`checkerCancel, checkerCancel
      ensures Valid() && checkerCancel == null
      ensures old(checkerCancel) != null ==> old(checkerCancel).cancelled
    {
      var cancel := checkerCancel;
      checkerCancel := null;
      if cancel != null {
        cancel.Cancel();
      }
    }
  }
}
