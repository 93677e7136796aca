/** The configuration compiler: from the file's groups and routes to what the router and the checker run on. */
module Config {
  import opened Text
  import opened Hosts
  import opened Addresses
  import opened Router

  /** Durations are in nanoseconds. */
  const MILLISECOND := 1_000_000
  const SECOND := 1_000 * MILLISECOND
  const DEFAULT_HEALTH_INTERVAL := 5 * SECOND
  const DEFAULT_HEALTH_TIMEOUT := 2 * SECOND
  const DEFAULT_DIAL_TIMEOUT := 4 * SECOND
  const DEFAULT_TCP_KEEP_ALIVE := 30 * SECOND
  const DEFAULT_SHUTDOWN_GRACE := 10 * SECOND
  const DEFAULT_READ_TIMEOUT := 10 * SECOND
  const DEFAULT_WRITE_TIMEOUT := 10 * SECOND
  const DEFAULT_IDLE_TIMEOUT := 300 * SECOND

  datatype HealthSettings = HealthSettings(intervalMS: int, timeoutMS: int, path: string)

  datatype BackendGroup = BackendGroup(addresses: seq<string>, health: HealthSettings)

  /** Everything in the file but groups and routes. */
  datatype Settings = Settings(
    listenAddr: string, maxConnections: int, maxInflightDials: int,
    metricsEnabled: Option<bool>, metricsListenAddr: string,
    health: HealthSettings, keepAliveMS: int,
    dialMS: int, shutdownGraceMS: int, readMS: int, writeMS: int, idleMS: int,
    autoDiscovery: Option<bool>)

  datatype ConfigV = ConfigV(settings: Settings, backends: map<string, BackendGroup>, routes: map<string, string>)

  datatype BackendGroupConfig = BackendGroupConfig(name: string, addresses: seq<string>, interval: int, timeout: int,
                                                   path: string)

  datatype RuntimeConfig = RuntimeConfig(
    listenAddr: string, metricsEnabled: bool, metricsListenAddr: string, autoDiscoveryEnabled: bool,
    maxConnections: int, maxInflightDials: int,
    dialTimeout: int, readTimeout: int, writeTimeout: int, idleTimeout: int, tcpKeepAlive: int, shutdownGrace: int,
    routes: map<string, seq<string>>, backendGroups: seq<BackendGroupConfig>, hostToGroup: map<string, string>)

  datatype LoadError =
    | NoListenAddr
    | BadListenAddr
    | BadMetricsAddr
    | BadHealthDefaults
    | NoBackends
    | NoRoutes
    | EmptyGroupName
    | NoAddresses
    | EmptyAddress
    | Unresolvable
    | NotConcrete
    | BadGroupHealth
    | EmptyHost
    | EmptyRouteGroup
    | UnknownGroup

  /** time.Duration is a 64-bit integer whose products wrap around. */
  function Wrapped(x: int): int {
    (x + 0x8000_0000_0000_0000) % 0x1_0000_0000_0000_0000 - 0x8000_0000_0000_0000
  }

  function DurationFromMS(ms: int, fallback: int): int {
    if ms <= 0 then fallback else Wrapped(ms * MILLISECOND)
  }

  function Slashed(path: string): string {
    var p := TrimSpace(path);
    if p != [] && p[0] != '/' then ['/'] + p else p
  }

  // ---------------------------------------------------------------- groups

  function CompileAddress(resolve: Resolver, raw: string): Result<string, LoadError> {
    var addr := TrimSpace(raw);
    if addr == [] then Err(EmptyAddress)
    else match resolve(addr)
      case None => Err(Unresolvable)
      case Some(tcp) => if Concrete(tcp) then Ok(JoinHostPort(tcp)) else Err(NotConcrete)
  }

  predicate AddressOk(resolve: Resolver, raw: string) {
    CompileAddress(resolve, raw).Ok?
  }

  function CompileAddresses(resolve: Resolver, raws: seq<string>): Result<seq<string>, LoadError> {
    if raws == [] then Ok([])
    else
      var init := CompileAddresses(resolve, raws[..|raws| - 1]);
      if init.Err? then init
      else match CompileAddress(resolve, raws[|raws| - 1])
        case Err(e) => Err(e)
        case Ok(a) => Ok(init.value + [a])
  }

  function GroupInterval(s: Settings, g: BackendGroup): int {
    DurationFromMS(g.health.intervalMS, DurationFromMS(s.health.intervalMS, DEFAULT_HEALTH_INTERVAL))
  }

  function GroupTimeout(s: Settings, g: BackendGroup): int {
    DurationFromMS(g.health.timeoutMS, DurationFromMS(s.health.timeoutMS, DEFAULT_HEALTH_TIMEOUT))
  }

  function GroupPath(s: Settings, g: BackendGroup): string {
    if Slashed(g.health.path) == [] then Slashed(s.health.path) else Slashed(g.health.path)
  }

  function CompileGroup(resolve: Resolver, s: Settings, key: string, g: BackendGroup)
    : Result<BackendGroupConfig, LoadError>
  {
    var name := TrimSpace(key);
    if name == [] then Err(EmptyGroupName)
    else if g.addresses == [] then Err(NoAddresses)
    else match CompileAddresses(resolve, g.addresses)
      case Err(e) => Err(e)
      case Ok(addresses) =>
        if GroupTimeout(s, g) > GroupInterval(s, g) then Err(BadGroupHealth)
        else Ok(BackendGroupConfig(name, addresses, GroupInterval(s, g), GroupTimeout(s, g), GroupPath(s, g)))
  }

  /** The groups named by `order`, compiled one after the other. */
  function CompileGroups(resolve: Resolver, cfg: ConfigV, order: seq<string>)
    : Result<seq<BackendGroupConfig>, LoadError>
    requires forall i :: 0 <= i < |order| ==> order[i] in cfg.backends
  {
    if order == [] then Ok([])
    else
      var init := CompileGroups(resolve, cfg, order[..|order| - 1]);
      if init.Err? then init
      else
        var key := order[|order| - 1];
        match CompileGroup(resolve, cfg.settings, key, cfg.backends[key])
        case Err(e) => Err(e)
        case Ok(g) => Ok(init.value + [g])
  }

  // ---------------------------------------------------------------- routes

  datatype RouteTables = RouteTables(routes: map<string, seq<string>>, hostToGroup: map<string, string>)

  function CheckRoute(cfg: ConfigV, host: string): Result<string, LoadError>
    requires host in cfg.routes
  {
    var group := TrimSpace(cfg.routes[host]);
    if NormalizeHost(host) == [] then Err(EmptyHost)
    else if group == [] then Err(EmptyRouteGroup)
    else if group !in cfg.backends then Err(UnknownGroup)
    else Ok(group)
  }

  /** The address list of a compiled group; empty if it does not compile. */
  function AddressesOf(resolve: Resolver, g: BackendGroup): seq<string> {
    match CompileAddresses(resolve, g.addresses)
    case Ok(a) => a
    case Err(_) => []
  }

  function CompileRoutes(resolve: Resolver, cfg: ConfigV, order: seq<string>): Result<RouteTables, LoadError>
    requires forall i :: 0 <= i < |order| ==> order[i] in cfg.routes
  {
    if order == [] then Ok(RouteTables(map[], map[]))
    else
      var init := CompileRoutes(resolve, cfg, order[..|order| - 1]);
      if init.Err? then init
      else
        var host := order[|order| - 1];
        match CheckRoute(cfg, host)
        case Err(e) => Err(e)
        case Ok(group) =>
          var key := NormalizeHost(host);
          Ok(RouteTables(init.value.routes[key := AddressesOf(resolve, cfg.backends[group])],
                         init.value.hostToGroup[key := group]))
  }

  // ---------------------------------------------------------------- the whole file

  function MetricsEnabled(s: Settings): bool {
    if s.metricsEnabled.Some? then s.metricsEnabled.value else true
  }

  function MetricsAddr(s: Settings): string {
    var addr := TrimSpace(s.metricsListenAddr);
    if MetricsEnabled(s) && addr == [] then "127.0.0.1:9090" else addr
  }

  function CheckSettings(resolve: Resolver, s: Settings): Option<LoadError> {
    if TrimSpace(s.listenAddr) == [] then Some(NoListenAddr)
    else if resolve(s.listenAddr).None? then Some(BadListenAddr)
    else if MetricsEnabled(s) && resolve(MetricsAddr(s)).None? then Some(BadMetricsAddr)
    else if DurationFromMS(s.health.timeoutMS, DEFAULT_HEALTH_TIMEOUT) >
            DurationFromMS(s.health.intervalMS, DEFAULT_HEALTH_INTERVAL)
    then Some(BadHealthDefaults)
    else None
  }

  function Assemble(s: Settings, groups: seq<BackendGroupConfig>, tables: RouteTables): RuntimeConfig {
    RuntimeConfig(
      s.listenAddr, MetricsEnabled(s), MetricsAddr(s), s.autoDiscovery == Some(true),
      s.maxConnections, s.maxInflightDials,
      DurationFromMS(s.dialMS, DEFAULT_DIAL_TIMEOUT), DurationFromMS(s.readMS, DEFAULT_READ_TIMEOUT),
      DurationFromMS(s.writeMS, DEFAULT_WRITE_TIMEOUT), DurationFromMS(s.idleMS, DEFAULT_IDLE_TIMEOUT),
      DurationFromMS(s.keepAliveMS, DEFAULT_TCP_KEEP_ALIVE), DurationFromMS(s.shutdownGraceMS, DEFAULT_SHUTDOWN_GRACE),
      tables.routes, groups, tables.hostToGroup)
  }

  /** The orders in which the two loops may visit their maps. */
  ghost predicate Orders(cfg: ConfigV, groupOrder: seq<string>, routeOrder: seq<string>) {
    Enumerates(groupOrder, cfg.backends) && Enumerates(routeOrder, cfg.routes)
  }

  ghost function Compile(resolve: Resolver, cfg: ConfigV, groupOrder: seq<string>, routeOrder: seq<string>)
    : Result<RuntimeConfig, LoadError>
    requires Orders(cfg, groupOrder, routeOrder)
  {
    var bad := CheckSettings(resolve, cfg.settings);
    if bad.Some? then Err(bad.value)
    else if cfg.backends == map[] then Err(NoBackends)
    else if cfg.routes == map[] then Err(NoRoutes)
    else match CompileGroups(resolve, cfg, groupOrder)
      case Err(e) => Err(e)
      case Ok(groups) =>
        match CompileRoutes(resolve, cfg, routeOrder)
        case Err(e) => Err(e)
        case Ok(tables) => Ok(Assemble(cfg.settings, groups, tables))
  }

  // ---------------------------------------------------------------- the loops

  lemma {:induction false} CompiledAddress(resolve: Resolver, raws: seq<string>, i: nat)
    requires CompileAddresses(resolve, raws).Ok? && i < |raws|
    ensures |CompileAddresses(resolve, raws).value| == |raws|
    ensures CompileAddress(resolve, raws[i]) == Ok(CompileAddresses(resolve, raws).value[i])
  {
    hide CompileAddress;
    var n := |raws| - 1;
    if i < n {
      CompiledAddress(resolve, raws[..n], i);
    } else if n > 0 {
      CompiledAddress(resolve, raws[..n], 0);
    }
  }

  lemma {:induction false} CompileAddressesPrefix(resolve: Resolver, raws: seq<string>, k: nat)
    requires k <= |raws| && CompileAddresses(resolve, raws[..k]).Err?
    ensures CompileAddresses(resolve, raws) == CompileAddresses(resolve, raws[..k])
    decreases |raws|
  {
    if k < |raws| {
      assert raws[..|raws| - 1][..k] == raws[..k];
      CompileAddressesPrefix(resolve, raws[..|raws| - 1], k);
    } else {
      assert raws[..k] == raws;
    }
  }

  method NormalizeAddresses(resolve: Resolver, raws: seq<string>) returns (r: Result<seq<string>, LoadError>)
    ensures r == CompileAddresses(resolve, raws)
  {
    var normalized: seq<string> := [];
    for k := 0 to |raws|
      invariant CompileAddresses(resolve, raws[..k]) == Ok(normalized)
    {
      assert raws[..k + 1][..k] == raws[..k];
      var addr := TrimSpace(raws[k]);
      if addr == "" {
        CompileAddressesPrefix(resolve, raws, k + 1);
        return Err(EmptyAddress);
      }
      var tcp := resolve(addr);
      if tcp.None? {
        CompileAddressesPrefix(resolve, raws, k + 1);
        return Err(Unresolvable);
      }
      if !Concrete(tcp.value) {
        CompileAddressesPrefix(resolve, raws, k + 1);
        return Err(NotConcrete);
      }
      normalized := normalized + [JoinHostPort(tcp.value)];
    }
    assert raws[..|raws|] == raws;
    r := Ok(normalized);
  }

  /** The second loop's pass over the addresses, which ignores errors: it needs every one to resolve to an IP. */
  method ReadAddresses(resolve: Resolver, raws: seq<string>) returns (r: seq<string>)
    requires CompileAddresses(resolve, raws).Ok?
    ensures r == CompileAddresses(resolve, raws).value
  {
    hide *;
    r := [];
    ghost var all := CompileAddresses(resolve, raws).value;
    CompiledLength(resolve, raws);
    for k := 0 to |raws|
      invariant r == all[..k]
    {
      CompiledAddress(resolve, raws, k);
      var tcp := resolve(TrimSpace(raws[k]));
      ResolvedHasIP(resolve, raws[k]);
      r := r + [JoinHostPort(tcp.value)];
    }
  }

  lemma ResolvedHasIP(resolve: Resolver, raw: string)
    requires CompileAddress(resolve, raw).Ok?
    ensures var tcp := resolve(TrimSpace(raw));
            tcp.Some? && tcp.value.ip != NoIP && CompileAddress(resolve, raw) == Ok(JoinHostPort(tcp.value))
  {
  }

  lemma CompiledLength(resolve: Resolver, raws: seq<string>)
    requires CompileAddresses(resolve, raws).Ok?
    ensures |CompileAddresses(resolve, raws).value| == |raws|
  {
    if raws != [] {
      CompiledAddress(resolve, raws, 0);
    }
  }

  lemma {:induction false} CompileGroupsPrefix(resolve: Resolver, cfg: ConfigV, order: seq<string>, k: nat)
    requires forall i :: 0 <= i < |order| ==> order[i] in cfg.backends
    requires k <= |order| && CompileGroups(resolve, cfg, order[..k]).Err?
    ensures CompileGroups(resolve, cfg, order) == CompileGroups(resolve, cfg, order[..k])
    decreases |order|
  {
    if k < |order| {
      assert order[..|order| - 1][..k] == order[..k];
      CompileGroupsPrefix(resolve, cfg, order[..|order| - 1], k);
    } else {
      assert order[..k] == order;
    }
  }

  lemma {:induction false} CompiledGroup(resolve: Resolver, cfg: ConfigV, order: seq<string>, i: nat)
    requires forall i :: 0 <= i < |order| ==> order[i] in cfg.backends
    requires CompileGroups(resolve, cfg, order).Ok? && i < |order|
    ensures |CompileGroups(resolve, cfg, order).value| == |order|
    ensures CompileGroup(resolve, cfg.settings, order[i], cfg.backends[order[i]]) ==
            Ok(CompileGroups(resolve, cfg, order).value[i])
  {
    hide CompileGroup;
    var n := |order| - 1;
    if i < n {
      CompiledGroup(resolve, cfg, order[..n], i);
    } else if n > 0 {
      CompiledGroup(resolve, cfg, order[..n], 0);
    }
  }

  method NormalizeGroup(resolve: Resolver, s: Settings, key: string, g: BackendGroup)
    returns (r: Result<BackendGroupConfig, LoadError>)
    ensures r == CompileGroup(resolve, s, key, g)
  {
    var name := TrimSpace(key);
    if name == "" {
      return Err(EmptyGroupName);
    }
    if |g.addresses| == 0 {
      return Err(NoAddresses);
    }
    var normalized := NormalizeAddresses(resolve, g.addresses);
    if normalized.Err? {
      return Err(normalized.error);
    }
    var interval := DurationFromMS(g.health.intervalMS, DurationFromMS(s.health.intervalMS, DEFAULT_HEALTH_INTERVAL));
    var timeout := DurationFromMS(g.health.timeoutMS, DurationFromMS(s.health.timeoutMS, DEFAULT_HEALTH_TIMEOUT));
    if timeout > interval {
      return Err(BadGroupHealth);
    }
    var path := Slashed(g.health.path);
    if path == "" {
      path := Slashed(s.health.path);
    }
    r := Ok(BackendGroupConfig(name, normalized.value, interval, timeout, path));
  }

  method NormalizeGroups(resolve: Resolver, cfg: ConfigV, order: seq<string>)
    returns (r: Result<seq<BackendGroupConfig>, LoadError>)
    requires forall i :: 0 <= i < |order| ==> order[i] in cfg.backends
    ensures r == CompileGroups(resolve, cfg, order)
  {
    hide CompileGroup;
    var groups: seq<BackendGroupConfig> := [];
    for k := 0 to |order|
      invariant CompileGroups(resolve, cfg, order[..k]) == Ok(groups)
    {
      assert order[..k + 1][..k] == order[..k];
      var g := NormalizeGroup(resolve, cfg.settings, order[k], cfg.backends[order[k]]);
      if g.Err? {
        CompileGroupsPrefix(resolve, cfg, order, k + 1);
        return Err(g.error);
      }
      groups := groups + [g.value];
    }
    assert order[..|order|] == order;
    r := Ok(groups);
  }

  lemma {:induction false} CompileRoutesPrefix(resolve: Resolver, cfg: ConfigV, order: seq<string>, k: nat)
    requires forall i :: 0 <= i < |order| ==> order[i] in cfg.routes
    requires k <= |order| && CompileRoutes(resolve, cfg, order[..k]).Err?
    ensures CompileRoutes(resolve, cfg, order) == CompileRoutes(resolve, cfg, order[..k])
    decreases |order|
  {
    hide CheckRoute;
    if k < |order| {
      assert order[..|order| - 1][..k] == order[..k];
      CompileRoutesPrefix(resolve, cfg, order[..|order| - 1], k);
    } else {
      assert order[..k] == order;
    }
  }

  method NormalizeRoutes(resolve: Resolver, cfg: ConfigV, order: seq<string>)
    returns (r: Result<RouteTables, LoadError>)
    requires forall i :: 0 <= i < |order| ==> order[i] in cfg.routes
    requires forall g :: g in cfg.backends ==> CompileAddresses(resolve, cfg.backends[g].addresses).Ok?
    ensures r == CompileRoutes(resolve, cfg, order)
  {
    hide NormalizeHost, TrimSpace;
    var routes: map<string, seq<string>> := map[];
    var hostToGroup: map<string, string> := map[];
    for k := 0 to |order|
      invariant CompileRoutes(resolve, cfg, order[..k]) == Ok(RouteTables(routes, hostToGroup))
    {
      assert order[..k + 1][..k] == order[..k];
      var host := order[k];
      var normalizedHost := NormalizeHost(host);
      var groupName := TrimSpace(cfg.routes[host]);
      if normalizedHost == [] {
        CompileRoutesPrefix(resolve, cfg, order, k + 1);
        return Err(EmptyHost);
      }
      if groupName == [] {
        CompileRoutesPrefix(resolve, cfg, order, k + 1);
        return Err(EmptyRouteGroup);
      }
      if groupName !in cfg.backends {
        CompileRoutesPrefix(resolve, cfg, order, k + 1);
        return Err(UnknownGroup);
      }
      var addresses := ReadAddresses(resolve, cfg.backends[groupName].addresses);
      routes := routes[normalizedHost := addresses];
      hostToGroup := hostToGroup[normalizedHost := groupName];
    }
    assert order[..|order|] == order;
    r := Ok(RouteTables(routes, hostToGroup));
  }

  lemma CompiledGroupsResolve(resolve: Resolver, cfg: ConfigV, order: seq<string>)
    requires Enumerates(order, cfg.backends) && CompileGroups(resolve, cfg, order).Ok?
    ensures forall g :: g in cfg.backends ==> CompileAddresses(resolve, cfg.backends[g].addresses).Ok?
  {
    forall g | g in cfg.backends
      ensures CompileAddresses(resolve, cfg.backends[g].addresses).Ok?
    {
      var i :| 0 <= i < |order| && order[i] == g;
      CompiledGroup(resolve, cfg, order, i);
    }
  }

  /**
   * normalizeAndValidate, with the orders in which the two maps happen to be visited. Its second loop
   * dereferences resolved addresses without a check; that it may do so is part of what is verified here.
   */
  method NormalizeAndValidate(resolve: Resolver, cfg: ConfigV, groupOrder: seq<string>, routeOrder: seq<string>)
    returns (r: Result<RuntimeConfig, LoadError>)
    requires Orders(cfg, groupOrder, routeOrder)
    ensures r == Compile(resolve, cfg, groupOrder, routeOrder)
  {
    var s := cfg.settings;
    var bad := CheckSettings(resolve, s);
    if bad.Some? {
      return Err(bad.value);
    }
    if |cfg.backends| == 0 {
      return Err(NoBackends);
    }
    if |cfg.routes| == 0 {
      return Err(NoRoutes);
    }
    var groups := NormalizeGroups(resolve, cfg, groupOrder);
    if groups.Err? {
      return Err(groups.error);
    }
    CompiledGroupsResolve(resolve, cfg, groupOrder);
    var tables := NormalizeRoutes(resolve, cfg, routeOrder);
    if tables.Err? {
      return Err(tables.error);
    }
    r := Ok(Assemble(s, groups.value, tables.value));
  }
}
