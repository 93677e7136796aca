/** What each field of a loaded configuration is, and which error a file is refused with, in literal values. */
module ConfigFields {
  import opened Text
  import opened Hosts
  import opened Addresses
  import opened Router
  import opened Config
  import opened ConfigLaws

  // ---------------------------------------------------------------- scalar fields

  function Turned(number: int, times: int): int {
    number + times * 0x1_0000_0000_0000_0000
  }

  /** The 64-bit value of a number: it fits, and differs from the number by a multiple of 2^64. */
  ghost predicate Fits64(value: int, number: int) {
    -0x8000_0000_0000_0000 <= value < 0x8000_0000_0000_0000 && exists k :: value == Turned(number, k)
  }

  /** A duration in nanoseconds: the file's milliseconds, as far as 64 bits go, if there are any; else the default. */
  ghost predicate Lasts(duration: int, ms: int, fallback: int) {
    && (ms > 0 ==> Fits64(duration, ms * 1_000_000))
    && (ms <= 0 ==> duration == fallback)
  }

  /** A file's duration is what it says exactly up to 9223372036854 milliseconds, some 292 years. */
  lemma LastsAsSaidIff(duration: int, ms: int, fallback: int)
    requires Lasts(duration, ms, fallback) && ms > 0
    ensures duration == ms * 1_000_000 <==> ms <= 9_223_372_036_854
  {
    SameIn64(duration, ms * 1_000_000);
  }

  lemma SameIn64(value: int, number: int)
    requires Fits64(value, number)
    ensures value == number <==> -0x8000_0000_0000_0000 <= number < 0x8000_0000_0000_0000
  {
    var k :| value == Turned(number, k);
    assert number == Turned(number, 0);
  }

  lemma OneDuration(x: int, y: int, ms: int, fallback: int)
    requires Lasts(x, ms, fallback) && Lasts(y, ms, fallback)
    ensures x == y
  {
    if ms > 0 {
      var k :| x == Turned(ms * 1_000_000, k);
      var l :| y == Turned(ms * 1_000_000, l);
    }
  }

  lemma DurationLasts(ms: int, fallback: int)
    ensures Lasts(DurationFromMS(ms, fallback), ms, fallback)
  {
    hide Wrapped, Fits64;
    WrappedFits(ms * 1_000_000);
  }

  lemma WrappedFits(x: int)
    ensures Fits64(Wrapped(x), x)
  {
    assert Wrapped(x) == Turned(x, -((x + 0x8000_0000_0000_0000) / 0x1_0000_0000_0000_0000));
  }

  /** Out-of-range milliseconds: this dial timeout is in the past. */
  lemma OverlongIsNegative(duration: int, fallback: int)
    requires Lasts(duration, 9_300_000_000_000, fallback)
    ensures duration < 0
  {
    DurationLasts(9_300_000_000_000, fallback);
    OneDuration(duration, DurationFromMS(9_300_000_000_000, fallback), 9_300_000_000_000, fallback);
  }

  /** Every scalar field of a loaded configuration. */
  lemma LoadedFields(resolve: Resolver, cfg: ConfigV, groupOrder: seq<string>, routeOrder: seq<string>,
                     rc: RuntimeConfig)
    requires Loaded(resolve, cfg, groupOrder, routeOrder, rc)
    ensures rc.listenAddr == cfg.settings.listenAddr
    ensures rc.maxConnections == cfg.settings.maxConnections
    ensures rc.maxInflightDials == cfg.settings.maxInflightDials
    ensures Lasts(rc.dialTimeout, cfg.settings.dialMS, 4_000_000_000)
    ensures Lasts(rc.readTimeout, cfg.settings.readMS, 10_000_000_000)
    ensures Lasts(rc.writeTimeout, cfg.settings.writeMS, 10_000_000_000)
    ensures Lasts(rc.idleTimeout, cfg.settings.idleMS, 300_000_000_000)
    ensures Lasts(rc.tcpKeepAlive, cfg.settings.keepAliveMS, 30_000_000_000)
    ensures Lasts(rc.shutdownGrace, cfg.settings.shutdownGraceMS, 10_000_000_000)
    ensures rc.metricsEnabled <==> cfg.settings.metricsEnabled != Some(false)
    ensures rc.autoDiscoveryEnabled <==> cfg.settings.autoDiscovery == Some(true)
    ensures var addr := TrimSpace(cfg.settings.metricsListenAddr);
            rc.metricsListenAddr == if addr == [] && rc.metricsEnabled then "127.0.0.1:9090" else addr
  {
    hide CheckSettings, CompileGroups, CompileRoutes, TrimSpace, DurationFromMS, Lasts;
    DurationLasts(cfg.settings.dialMS, 4_000_000_000);
    DurationLasts(cfg.settings.readMS, 10_000_000_000);
    DurationLasts(cfg.settings.writeMS, 10_000_000_000);
    DurationLasts(cfg.settings.idleMS, 300_000_000_000);
    DurationLasts(cfg.settings.keepAliveMS, 30_000_000_000);
    DurationLasts(cfg.settings.shutdownGraceMS, 10_000_000_000);
  }

  // ---------------------------------------------------------------- groups

  /** A path made absolute; no path stays none. */
  ghost predicate RootedAs(path: string, text: string) {
    && (text == [] ==> path == [])
    && (text != [] && text[0] == '/' ==> path == text)
    && (text != [] && text[0] != '/' ==> path == ['/'] + text)
  }

  /** How a group is probed: by its own settings, else by the file's, else every 5 s with 2 s of patience. */
  ghost predicate ProbedAsSet(s: Settings, h: HealthSettings, g: BackendGroupConfig) {
    && (if h.intervalMS > 0 then Fits64(g.interval, h.intervalMS * 1_000_000)
        else Lasts(g.interval, s.health.intervalMS, 5_000_000_000))
    && (if h.timeoutMS > 0 then Fits64(g.timeout, h.timeoutMS * 1_000_000)
        else Lasts(g.timeout, s.health.timeoutMS, 2_000_000_000))
    && g.timeout <= g.interval
    && RootedAs(g.path, if TrimSpace(h.path) != [] then TrimSpace(h.path) else TrimSpace(s.health.path))
  }

  lemma GroupIsProbedAsSet(resolve: Resolver, s: Settings, key: string, g: BackendGroup)
    requires CompileGroup(resolve, s, key, g).Ok?
    ensures ProbedAsSet(s, g.health, CompileGroup(resolve, s, key, g).value)
  {
    hide TrimSpace, CompileAddresses, Wrapped, Fits64;
    DurationLasts(s.health.intervalMS, 5_000_000_000);
    DurationLasts(s.health.timeoutMS, 2_000_000_000);
    DurationLasts(g.health.intervalMS, 0);
    DurationLasts(g.health.timeoutMS, 0);
  }

  /** A probing interval that a file can mean is positive, as the checker's ticker demands. */
  lemma IntervalsPositive(s: Settings, h: HealthSettings, g: BackendGroupConfig)
    requires ProbedAsSet(s, h, g)
    requires h.intervalMS <= 9_223_372_036_854 && s.health.intervalMS <= 9_223_372_036_854
    ensures g.interval > 0
  {
    hide Fits64, RootedAs;
    if h.intervalMS > 0 {
      SameIn64(g.interval, h.intervalMS * 1_000_000);
    } else if s.health.intervalMS > 0 {
      SameIn64(g.interval, s.health.intervalMS * 1_000_000);
    }
  }

  /** Beyond that a file with both settings too large loads, and the ticker gets a negative interval. */
  lemma OverlongIntervalLoads(resolve: Resolver, s: Settings, addr: string) returns (g: BackendGroup)
    requires AddressOk(resolve, addr)
    ensures CompileGroup(resolve, s, "g", g).Ok? && CompileGroup(resolve, s, "g", g).value.interval < 0
  {
    g := BackendGroup([addr], HealthSettings(9_300_000_000_000, 9_300_000_000_000, ""));
    assert TrimSpace("g") == "g";
    AddressesCompileIff(resolve, [addr]);
    hide CompileAddresses, TrimSpace, AddressOk, GroupPath;
  }

  /** The i-th group the checker gets is the i-th one visited: its trimmed name, its probing, its addresses in order. */
  lemma LoadedGroupFields(resolve: Resolver, cfg: ConfigV, groupOrder: seq<string>, routeOrder: seq<string>,
                          rc: RuntimeConfig, i: nat)
    requires Loaded(resolve, cfg, groupOrder, routeOrder, rc) && i < |groupOrder|
    ensures |rc.backendGroups| == |groupOrder| && groupOrder[i] in cfg.backends
    ensures var g, raw := rc.backendGroups[i], cfg.backends[groupOrder[i]];
            && g.name == TrimSpace(groupOrder[i])
            && ProbedAsSet(cfg.settings, raw.health, g)
            && |g.addresses| == |raw.addresses|
            && forall j :: 0 <= j < |raw.addresses| ==> ReadsAs(resolve, raw.addresses[j], g.addresses[j])
  {
    LoadedParts(resolve, cfg, groupOrder, routeOrder, rc);
    LoadedGroup(resolve, cfg, groupOrder, routeOrder, rc, i);
    CompiledGroup(resolve, cfg, groupOrder, i);
    var raw := cfg.backends[groupOrder[i]];
    GroupIsProbedAsSet(resolve, cfg.settings, groupOrder[i], raw);
    GroupAddressesRead(resolve, cfg.settings, groupOrder[i], raw);
    hide *;
  }

  /** A configured address and its compiled form: it resolves to a usable machine, whose text this is. */
  ghost predicate ReadsAs(resolve: Resolver, raw: string, addr: string) {
    && TrimSpace(raw) != [] && resolve(TrimSpace(raw)).Some?
    && var tcp := resolve(TrimSpace(raw)).value;
       && tcp.ip != NoIP && tcp.ip != V4(Quad(0, 0, 0, 0)) && (tcp.ip.V6? ==> !tcp.ip.unspecified)
       && addr == JoinHostPort(tcp)
  }

  lemma GroupAddressesRead(resolve: Resolver, s: Settings, key: string, g: BackendGroup)
    requires CompileGroup(resolve, s, key, g).Ok?
    ensures var r := CompileGroup(resolve, s, key, g).value;
            && |r.addresses| == |g.addresses|
            && forall j :: 0 <= j < |g.addresses| ==> ReadsAs(resolve, g.addresses[j], r.addresses[j])
  {
    hide TrimSpace, JoinHostPort;
    var all := CompileAddresses(resolve, g.addresses).value;
    CompiledLength(resolve, g.addresses);
    forall j | 0 <= j < |g.addresses|
      ensures ReadsAs(resolve, g.addresses[j], all[j])
    {
      CompiledAddress(resolve, g.addresses, j);
    }
  }

  // ---------------------------------------------------------------- routes

  /** Of the hosts with one normal form, the one visited last has its addresses and its group in the tables. */
  lemma {:induction false} LastNamesakeWins(resolve: Resolver, cfg: ConfigV, order: seq<string>, i: nat)
    requires forall j :: 0 <= j < |order| ==> order[j] in cfg.routes
    requires CompileRoutes(resolve, cfg, order).Ok? && i < |order|
    requires forall j :: i < j < |order| ==> NormalizeHost(order[j]) != NormalizeHost(order[i])
    ensures ComesFrom(resolve, cfg, CompileRoutes(resolve, cfg, order).value, NormalizeHost(order[i]), order[i])
    decreases |order|
  {
    hide CompileRoutes, NormalizeHost, GroupOf, HostAddresses;
    LastRoute(resolve, cfg, order);
    var n := |order| - 1;
    if i < n {
      LastNamesakeWins(resolve, cfg, order[..n], i);
    }
  }

  // ---------------------------------------------------------------- which error a file is refused with

  /** An address is refused with the first of three complaints that applies. */
  lemma AddressRefusedWith(resolve: Resolver, raw: string)
    ensures var r, text := CompileAddress(resolve, raw), TrimSpace(raw);
            && (r == Err(EmptyAddress) <==> text == [])
            && (r == Err(Unresolvable) <==> text != [] && resolve(text).None?)
            && (r.Err? && r.error != EmptyAddress && r.error != Unresolvable <==>
                  && text != [] && resolve(text).Some?
                  && (resolve(text).value.ip == NoIP || resolve(text).value.ip == V4(Quad(0, 0, 0, 0))
                      || (resolve(text).value.ip.V6? && resolve(text).value.ip.unspecified)))
            && (r.Err? ==> r.error == EmptyAddress || r.error == Unresolvable || r.error == NotConcrete)
  {
    hide TrimSpace, JoinHostPort;
  }

  /** A group is refused with the first of these complaints that applies. */
  lemma GroupRefusedWith(resolve: Resolver, s: Settings, key: string, g: BackendGroup)
    ensures var r, addresses := CompileGroup(resolve, s, key, g), CompileAddresses(resolve, g.addresses);
            && (r == Err(EmptyGroupName) <==> TrimSpace(key) == [])
            && (r == Err(NoAddresses) <==> TrimSpace(key) != [] && g.addresses == [])
            && (addresses.Err? && TrimSpace(key) != [] ==> r == Err(addresses.error))
            && (r == Err(BadGroupHealth) <==>
                  && TrimSpace(key) != [] && g.addresses != [] && addresses.Ok?
                  && GroupTimeout(s, g) > GroupInterval(s, g))
  {
    AddressErrors(resolve, g.addresses);
    if g.addresses == [] {
      assert CompileAddresses(resolve, g.addresses).Ok?;
    }
    hide TrimSpace, CompileAddresses, GroupTimeout, GroupInterval, GroupPath;
  }

  lemma {:induction false} AddressErrors(resolve: Resolver, raws: seq<string>)
    ensures var r := CompileAddresses(resolve, raws);
            r.Err? ==> r.error == EmptyAddress || r.error == Unresolvable || r.error == NotConcrete
  {
    hide CompileAddress;
    if raws != [] {
      AddressErrors(resolve, raws[..|raws| - 1]);
      AddressRefusedWith(resolve, raws[|raws| - 1]);
    }
  }

  /** Address k is the first that is refused, with this error. */
  ghost predicate FirstBad(resolve: Resolver, raws: seq<string>, k: nat, e: LoadError) {
    && k < |raws| && CompileAddress(resolve, raws[k]) == Err(e)
    && forall i :: 0 <= i < k ==> CompileAddress(resolve, raws[i]).Ok?
  }

  lemma {:induction false} FirstBadAddress(resolve: Resolver, raws: seq<string>, k: nat, e: LoadError)
    requires FirstBad(resolve, raws, k, e)
    ensures CompileAddresses(resolve, raws) == Err(e)
  {
    hide CompileAddress;
    var upTo := raws[..k + 1];
    assert upTo[..k] == raws[..k];
    forall i | 0 <= i < k
      ensures AddressOk(resolve, raws[..k][i])
    {
      assert raws[..k][i] == raws[i];
    }
    AddressesCompileIff(resolve, raws[..k]);
    assert CompileAddresses(resolve, upTo) == Err(e);
    CompileAddressesPrefix(resolve, raws, k + 1);
  }

  /** Group k is the first visited that is refused, with this error. */
  ghost predicate FirstBadGroup(resolve: Resolver, cfg: ConfigV, order: seq<string>, k: nat, e: LoadError) {
    && k < |order| && (forall i :: 0 <= i < |order| ==> order[i] in cfg.backends)
    && CompileGroup(resolve, cfg.settings, order[k], cfg.backends[order[k]]) == Err(e)
    && forall i :: 0 <= i < k ==> CompileGroup(resolve, cfg.settings, order[i], cfg.backends[order[i]]).Ok?
  }

  lemma {:induction false} FirstBadGroupDecides(resolve: Resolver, cfg: ConfigV, order: seq<string>, k: nat,
                                               e: LoadError)
    requires FirstBadGroup(resolve, cfg, order, k, e)
    ensures CompileGroups(resolve, cfg, order) == Err(e)
  {
    hide CompileGroup, GroupOk;
    var upTo := order[..k + 1];
    assert upTo[..k] == order[..k];
    forall i | 0 <= i < k
      ensures GroupOk(resolve, cfg.settings, order[..k][i], cfg.backends[order[..k][i]])
    {
      assert order[..k][i] == order[i];
      GroupCompilesIff(resolve, cfg.settings, order[i], cfg.backends[order[i]]);
    }
    GroupsCompileIff(resolve, cfg, order[..k]);
    assert CompileGroups(resolve, cfg, upTo) == Err(e);
    CompileGroupsPrefix(resolve, cfg, order, k + 1);
  }

  ghost predicate FirstBadRoute(cfg: ConfigV, order: seq<string>, k: nat, e: LoadError) {
    && k < |order| && (forall i :: 0 <= i < |order| ==> order[i] in cfg.routes)
    && CheckRoute(cfg, order[k]) == Err(e)
    && forall i :: 0 <= i < k ==> RouteOk(cfg, order[i])
  }

  lemma {:induction false} FirstBadRouteDecides(resolve: Resolver, cfg: ConfigV, order: seq<string>, k: nat,
                                               e: LoadError)
    requires FirstBadRoute(cfg, order, k, e)
    ensures CompileRoutes(resolve, cfg, order) == Err(e)
  {
    hide CheckRoute, RouteOk, NormalizeHost, AddressesOf;
    var upTo := order[..k + 1];
    assert upTo[..k] == order[..k];
    forall i | 0 <= i < k
      ensures RouteOk(cfg, order[..k][i])
    {
      assert order[..k][i] == order[i];
    }
    RoutesCompileIff(resolve, cfg, order[..k]);
    assert CompileRoutes(resolve, cfg, upTo) == Err(e);
    CompileRoutesPrefix(resolve, cfg, order, k + 1);
  }

  /** A route is refused with the first of three complaints that applies. */
  lemma RouteRefusedWith(cfg: ConfigV, host: string)
    requires host in cfg.routes
    ensures var r, group := CheckRoute(cfg, host), TrimSpace(cfg.routes[host]);
            && (r == Err(EmptyHost) <==> NormalizeHost(host) == [])
            && (r == Err(EmptyRouteGroup) <==> NormalizeHost(host) != [] && group == [])
            && (r == Err(UnknownGroup) <==> NormalizeHost(host) != [] && group != [] && group !in cfg.backends)
  {
    hide TrimSpace, NormalizeHost;
  }

  /** The address the metrics server would listen on. */
  ghost function MetricsText(s: Settings): string {
    if TrimSpace(s.metricsListenAddr) == [] then "127.0.0.1:9090" else TrimSpace(s.metricsListenAddr)
  }

  /** The file's own probing settings are out of order: less than the timeout between two probes. */
  ghost predicate HurriedProbes(s: Settings) {
    exists interval, timeout ::
      Lasts(interval, s.health.intervalMS, 5_000_000_000) && Lasts(timeout, s.health.timeoutMS, 2_000_000_000)
        && timeout > interval
  }

  /** The settings are refused with the first of four complaints that applies. */
  lemma SettingsRefusedWith(resolve: Resolver, s: Settings)
    ensures var r := CheckSettings(resolve, s);
            var deaf := TrimSpace(s.listenAddr) == [];
            var lost := resolve(s.listenAddr).None?;
            var mute := s.metricsEnabled != Some(false) && resolve(MetricsText(s)).None?;
            && (r == Some(NoListenAddr) <==> deaf)
            && (r == Some(BadListenAddr) <==> !deaf && lost)
            && (r == Some(BadMetricsAddr) <==> !deaf && !lost && mute)
            && (r == Some(BadHealthDefaults) <==> !deaf && !lost && !mute && HurriedProbes(s))
            && (r.None? <==> !deaf && !lost && !mute && !HurriedProbes(s))
  {
    hide TrimSpace, DurationFromMS, Lasts;
    var interval := DurationFromMS(s.health.intervalMS, 5_000_000_000);
    var timeout := DurationFromMS(s.health.timeoutMS, 2_000_000_000);
    DurationLasts(s.health.intervalMS, 5_000_000_000);
    DurationLasts(s.health.timeoutMS, 2_000_000_000);
    if HurriedProbes(s) {
      var i, p :| Lasts(i, s.health.intervalMS, 5_000_000_000) && Lasts(p, s.health.timeoutMS, 2_000_000_000) && p > i;
      OneDuration(i, interval, s.health.intervalMS, 5_000_000_000);
      OneDuration(p, timeout, s.health.timeoutMS, 2_000_000_000);
    }
  }

  /** In which order a whole file is judged: settings, then groups in their order, then routes in theirs. */
  lemma FileRefusedWith(resolve: Resolver, cfg: ConfigV, groupOrder: seq<string>, routeOrder: seq<string>, k: nat,
                        e: LoadError)
    requires Orders(cfg, groupOrder, routeOrder)
    ensures var r, bad := Compile(resolve, cfg, groupOrder, routeOrder), CheckSettings(resolve, cfg.settings);
            && (bad.Some? ==> r == Err(bad.value))
            && (bad.None? && cfg.backends == map[] ==> r == Err(NoBackends))
            && (bad.None? && cfg.backends != map[] && cfg.routes == map[] ==> r == Err(NoRoutes))
            && (bad.None? && cfg.backends != map[] && cfg.routes != map[] ==>
                  && (FirstBadGroup(resolve, cfg, groupOrder, k, e) ==> r == Err(e))
                  && (GroupsOk(resolve, cfg) && FirstBadRoute(cfg, routeOrder, k, e) ==> r == Err(e)))
  {
    AllGroups(resolve, cfg, groupOrder);
    if FirstBadGroup(resolve, cfg, groupOrder, k, e) {
      FirstBadGroupDecides(resolve, cfg, groupOrder, k, e);
    }
    if FirstBadRoute(cfg, routeOrder, k, e) {
      FirstBadRouteDecides(resolve, cfg, routeOrder, k, e);
    }
    hide CheckSettings, CompileGroups, CompileRoutes, FirstBadGroup, FirstBadRoute, GroupsOk, Enumerates, Assemble;
  }
}
