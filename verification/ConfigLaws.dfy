/** When a file loads, and how the loaded tables fit the router and the checker. */
module ConfigLaws {
  import opened Text
  import opened Hosts
  import opened Addresses
  import opened Router
  import opened RouterLaws
  import opened Config
  import Sessions

  // ---------------------------------------------------------------- which files load

  ghost predicate GroupOk(resolve: Resolver, s: Settings, key: string, g: BackendGroup) {
    && TrimSpace(key) != [] && g.addresses != []
    && (forall i :: 0 <= i < |g.addresses| ==> AddressOk(resolve, g.addresses[i]))
    && GroupTimeout(s, g) <= GroupInterval(s, g)
  }

  ghost predicate RouteOk(cfg: ConfigV, host: string)
    requires host in cfg.routes
  {
    NormalizeHost(host) != [] && TrimSpace(cfg.routes[host]) != [] && TrimSpace(cfg.routes[host]) in cfg.backends
  }

  ghost predicate GroupsOk(resolve: Resolver, cfg: ConfigV) {
    forall g :: g in cfg.backends ==> GroupOk(resolve, cfg.settings, g, cfg.backends[g])
  }

  ghost predicate RoutesOk(cfg: ConfigV) {
    forall h :: h in cfg.routes ==> RouteOk(cfg, h)
  }

  /** The file is well formed, judged without any order. */
  ghost predicate Loadable(resolve: Resolver, cfg: ConfigV) {
    && CheckSettings(resolve, cfg.settings).None?
    && cfg.backends != map[] && cfg.routes != map[]
    && GroupsOk(resolve, cfg) && RoutesOk(cfg)
  }

  lemma {:induction false} AddressesCompileIff(resolve: Resolver, raws: seq<string>)
    ensures CompileAddresses(resolve, raws).Ok? <==> forall i :: 0 <= i < |raws| ==> AddressOk(resolve, raws[i])
  {
    hide CompileAddress;
    if raws != [] {
      var n := |raws| - 1;
      AddressesCompileIff(resolve, raws[..n]);
      assert forall i :: 0 <= i < n ==> raws[..n][i] == raws[i];
    }
  }

  lemma GroupCompilesIff(resolve: Resolver, s: Settings, key: string, g: BackendGroup)
    ensures CompileGroup(resolve, s, key, g).Ok? <==> GroupOk(resolve, s, key, g)
  {
    AddressesCompileIff(resolve, g.addresses);
    hide TrimSpace, CompileAddresses, AddressOk, GroupPath, GroupTimeout, GroupInterval;
  }

  lemma LastGroup(resolve: Resolver, cfg: ConfigV, order: seq<string>)
    requires forall i :: 0 <= i < |order| ==> order[i] in cfg.backends
    ensures order == [] ==> CompileGroups(resolve, cfg, order).Ok?
    ensures order != [] ==> var n := |order| - 1;
              (CompileGroups(resolve, cfg, order).Ok? <==>
               CompileGroups(resolve, cfg, order[..n]).Ok?
                   && GroupOk(resolve, cfg.settings, order[n], cfg.backends[order[n]]))
  {
    hide CompileGroup, GroupOk;
    if order != [] {
      var n := |order| - 1;
      GroupCompilesIff(resolve, cfg.settings, order[n], cfg.backends[order[n]]);
    }
  }

  lemma {:induction false} GroupsCompileIff(resolve: Resolver, cfg: ConfigV, order: seq<string>)
    requires forall i :: 0 <= i < |order| ==> order[i] in cfg.backends
    ensures CompileGroups(resolve, cfg, order).Ok? <==>
            forall i :: 0 <= i < |order| ==> GroupOk(resolve, cfg.settings, order[i], cfg.backends[order[i]])
  {
    hide *;
    LastGroup(resolve, cfg, order);
    if order != [] {
      var n := |order| - 1;
      GroupsCompileIff(resolve, cfg, order[..n]);
      assert forall i :: 0 <= i < n ==> order[..n][i] == order[i];
    }
  }

  lemma RouteChecksIff(cfg: ConfigV, host: string)
    requires host in cfg.routes
    ensures CheckRoute(cfg, host).Ok? <==> RouteOk(cfg, host)
  {
    hide NormalizeHost, TrimSpace;
  }

  lemma {:induction false} RoutesCompileIff(resolve: Resolver, cfg: ConfigV, order: seq<string>)
    requires forall i :: 0 <= i < |order| ==> order[i] in cfg.routes
    ensures CompileRoutes(resolve, cfg, order).Ok? <==> forall i :: 0 <= i < |order| ==> RouteOk(cfg, order[i])
  {
    hide CheckRoute, RouteOk, NormalizeHost, AddressesOf;
    if order != [] {
      var n := |order| - 1;
      RoutesCompileIff(resolve, cfg, order[..n]);
      RouteChecksIff(cfg, order[n]);
      assert forall i :: 0 <= i < n ==> order[..n][i] == order[i];
    }
  }

  lemma AllGroups(resolve: Resolver, cfg: ConfigV, order: seq<string>)
    requires Enumerates(order, cfg.backends)
    ensures CompileGroups(resolve, cfg, order).Ok? <==> GroupsOk(resolve, cfg)
  {
    GroupsCompileIff(resolve, cfg, order);
    hide GroupOk, CompileGroups;
  }

  lemma AllRoutes(resolve: Resolver, cfg: ConfigV, order: seq<string>)
    requires Enumerates(order, cfg.routes)
    ensures CompileRoutes(resolve, cfg, order).Ok? <==> RoutesOk(cfg)
  {
    RoutesCompileIff(resolve, cfg, order);
    hide RouteOk, CompileRoutes;
  }

  /** Whether a file loads does not depend on the order in which its maps are visited. */
  lemma LoadsIff(resolve: Resolver, cfg: ConfigV, groupOrder: seq<string>, routeOrder: seq<string>)
    requires Orders(cfg, groupOrder, routeOrder)
    ensures Compile(resolve, cfg, groupOrder, routeOrder).Ok? <==> Loadable(resolve, cfg)
  {
    AllGroups(resolve, cfg, groupOrder);
    AllRoutes(resolve, cfg, routeOrder);
    hide GroupsOk, RoutesOk, CheckSettings, CompileGroups, CompileRoutes, Enumerates, Assemble;
  }

  // ---------------------------------------------------------------- what the tables hold

  function GroupOf(cfg: ConfigV, host: string): string
    requires host in cfg.routes
  {
    TrimSpace(cfg.routes[host])
  }

  /** The addresses the file gives a host, resolved. */
  function HostAddresses(resolve: Resolver, cfg: ConfigV, host: string): seq<string>
    requires host in cfg.routes && GroupOf(cfg, host) in cfg.backends
  {
    AddressesOf(resolve, cfg.backends[GroupOf(cfg, host)])
  }

  /** Table entry k comes from the route of `host`. */
  ghost predicate ComesFrom(resolve: Resolver, cfg: ConfigV, t: RouteTables, k: string, host: string) {
    && host in cfg.routes && NormalizeHost(host) == k && GroupOf(cfg, host) in cfg.backends
    && k in t.routes && t.routes[k] == HostAddresses(resolve, cfg, host)
    && k in t.hostToGroup && t.hostToGroup[k] == GroupOf(cfg, host)
  }

  ghost predicate RouteBehind(resolve: Resolver, cfg: ConfigV, order: seq<string>, t: RouteTables, k: string) {
    exists host :: host in order && ComesFrom(resolve, cfg, t, k, host)
  }

  ghost predicate TablesMirror(resolve: Resolver, cfg: ConfigV, order: seq<string>, t: RouteTables) {
    && t.routes.Keys == t.hostToGroup.Keys
    && (forall h :: h in order ==> NormalizeHost(h) in t.routes)
    && (forall k :: k in t.routes ==> RouteBehind(resolve, cfg, order, t, k))
  }

  lemma AddRouteMirrors(resolve: Resolver, cfg: ConfigV, order: seq<string>, t: RouteTables, host: string)
    requires TablesMirror(resolve, cfg, order, t) && host in cfg.routes && GroupOf(cfg, host) in cfg.backends
    ensures var key := NormalizeHost(host);
            var u := RouteTables(t.routes[key := HostAddresses(resolve, cfg, host)],
                t.hostToGroup[key := GroupOf(cfg, host)]);
            TablesMirror(resolve, cfg, order + [host], u)
  {
    hide NormalizeHost, HostAddresses, GroupOf;
    var key := NormalizeHost(host);
    var u := RouteTables(t.routes[key := HostAddresses(resolve, cfg, host)], t.hostToGroup[key := GroupOf(cfg, host)]);
    assert ComesFrom(resolve, cfg, u, key, host);
    forall k | k in t.routes && k != key
      ensures RouteBehind(resolve, cfg, order + [host], u, k)
    {
      assert RouteBehind(resolve, cfg, order, t, k);
      var h :| h in order && ComesFrom(resolve, cfg, t, k, h);
      assert ComesFrom(resolve, cfg, u, k, h) && h in order + [host];
    }
    assert host in order + [host];
  }

  lemma CheckedGroup(cfg: ConfigV, host: string)
    requires host in cfg.routes && CheckRoute(cfg, host).Ok?
    ensures CheckRoute(cfg, host).value == GroupOf(cfg, host) && GroupOf(cfg, host) in cfg.backends
  {
    hide TrimSpace, NormalizeHost;
  }

  lemma LastRoute(resolve: Resolver, cfg: ConfigV, order: seq<string>)
    requires forall i :: 0 <= i < |order| ==> order[i] in cfg.routes
    requires CompileRoutes(resolve, cfg, order).Ok? && order != []
    ensures var init, host := CompileRoutes(resolve, cfg, order[..|order| - 1]), order[|order| - 1];
            var key := NormalizeHost(host);
            && init.Ok? && GroupOf(cfg, host) in cfg.backends
            && CompileRoutes(resolve, cfg, order).value ==
               RouteTables(init.value.routes[key := HostAddresses(resolve, cfg, host)],
                           init.value.hostToGroup[key := GroupOf(cfg, host)])
  {
    CheckedGroup(cfg, order[|order| - 1]) by {
      hide NormalizeHost, TrimSpace;
    }
    hide CheckRoute, NormalizeHost, AddressesOf, GroupOf;
  }

  lemma NoTables(resolve: Resolver, cfg: ConfigV)
    ensures CompileRoutes(resolve, cfg, []) == Ok(RouteTables(map[], map[]))
    ensures TablesMirror(resolve, cfg, [], RouteTables(map[], map[]))
  {
    hide NormalizeHost;
  }

  lemma {:induction false} TablesMirrorRoutes(resolve: Resolver, cfg: ConfigV, order: seq<string>)
    requires forall i :: 0 <= i < |order| ==> order[i] in cfg.routes
    requires CompileRoutes(resolve, cfg, order).Ok?
    ensures TablesMirror(resolve, cfg, order, CompileRoutes(resolve, cfg, order).value)
  {
    hide *;
    if order == [] {
      NoTables(resolve, cfg);
    } else {
      var n := |order| - 1;
      LastRoute(resolve, cfg, order);
      TablesMirrorRoutes(resolve, cfg, order[..n]);
      AddRouteMirrors(resolve, cfg, order[..n], CompileRoutes(resolve, cfg, order[..n]).value, order[n]);
      assert order == order[..n] + [order[n]];
    }
  }

  function TablesOf(rc: RuntimeConfig): RouteTables {
    RouteTables(rc.routes, rc.hostToGroup)
  }

  ghost predicate Loaded(resolve: Resolver, cfg: ConfigV, groupOrder: seq<string>, routeOrder: seq<string>,
                         rc: RuntimeConfig) {
    Orders(cfg, groupOrder, routeOrder) && Compile(resolve, cfg, groupOrder, routeOrder) == Ok(rc)
  }

  lemma LoadedParts(resolve: Resolver, cfg: ConfigV, groupOrder: seq<string>, routeOrder: seq<string>,
                    rc: RuntimeConfig)
    requires Loaded(resolve, cfg, groupOrder, routeOrder, rc)
    ensures CompileGroups(resolve, cfg, groupOrder) == Ok(rc.backendGroups)
    ensures CompileRoutes(resolve, cfg, routeOrder) == Ok(TablesOf(rc))
  {
    hide CheckSettings, CompileGroups, CompileRoutes, MetricsEnabled, MetricsAddr, DurationFromMS;
  }

  lemma LoadedTables(resolve: Resolver, cfg: ConfigV, groupOrder: seq<string>, routeOrder: seq<string>,
                     rc: RuntimeConfig)
    requires Loaded(resolve, cfg, groupOrder, routeOrder, rc)
    ensures GroupsOk(resolve, cfg) && RoutesOk(cfg) && cfg.routes != map[]
    ensures TablesMirror(resolve, cfg, routeOrder, TablesOf(rc))
  {
    LoadsIff(resolve, cfg, groupOrder, routeOrder);
    LoadedParts(resolve, cfg, groupOrder, routeOrder, rc);
    TablesMirrorRoutes(resolve, cfg, routeOrder);
    hide TablesMirror, GroupsOk, RoutesOk, CheckSettings, CompileGroups, CompileRoutes, Compile, Enumerates;
  }

  /** Group i of the checker's list is the compiled form of the i-th group visited. */
  lemma LoadedGroup(resolve: Resolver, cfg: ConfigV, groupOrder: seq<string>, routeOrder: seq<string>,
                    rc: RuntimeConfig, i: nat)
    requires Loaded(resolve, cfg, groupOrder, routeOrder, rc) && (i < |groupOrder| || i < |rc.backendGroups|)
    ensures |rc.backendGroups| == |groupOrder| && groupOrder[i] in cfg.backends
    ensures rc.backendGroups[i].name == TrimSpace(groupOrder[i])
    ensures rc.backendGroups[i].addresses == AddressesOf(resolve, cfg.backends[groupOrder[i]]) != []
  {
    LoadedParts(resolve, cfg, groupOrder, routeOrder, rc);
    hide CompileGroup, Compile, CompileGroups;
    if groupOrder != [] {
      CompiledGroup(resolve, cfg, groupOrder, if i < |groupOrder| then i else 0);
      GroupAddresses(resolve, cfg.settings, groupOrder[if i < |groupOrder| then i else 0],
                     cfg.backends[groupOrder[if i < |groupOrder| then i else 0]]);
    } else {
      NoGroups(resolve, cfg);
    }
  }

  lemma NoGroups(resolve: Resolver, cfg: ConfigV)
    ensures CompileGroups(resolve, cfg, []) == Ok([])
  {
  }

  /** Where table entry k comes from. */
  lemma RouteOf(resolve: Resolver, cfg: ConfigV, groupOrder: seq<string>, routeOrder: seq<string>, rc: RuntimeConfig,
                k: string)
    returns (host: string)
    requires Loaded(resolve, cfg, groupOrder, routeOrder, rc) && k in rc.routes
    ensures ComesFrom(resolve, cfg, TablesOf(rc), k, host) && NormalizeHost(host) != []
    ensures TrimSpace(GroupOf(cfg, host)) == GroupOf(cfg, host)
  {
    LoadedTables(resolve, cfg, groupOrder, routeOrder, rc);
    hide ComesFrom, GroupsOk, Loaded, NormalizeHost, TrimSpace;
    assert RouteBehind(resolve, cfg, routeOrder, TablesOf(rc), k);
    host :| host in routeOrder && ComesFrom(resolve, cfg, TablesOf(rc), k, host);
    ComesFromRoute(resolve, cfg, TablesOf(rc), k, host);
    TrimTwice(cfg.routes[host]);
    assert RouteOk(cfg, host);
  }

  lemma ComesFromRoute(resolve: Resolver, cfg: ConfigV, t: RouteTables, k: string, host: string)
    requires ComesFrom(resolve, cfg, t, k, host)
    ensures host in cfg.routes && NormalizeHost(host) == k
  {
  }

  /** Every host's address list is the address list of the group the checker probes under its group name. */
  lemma RoutesAgreeWithGroups(resolve: Resolver, cfg: ConfigV, groupOrder: seq<string>, routeOrder: seq<string>,
                              rc: RuntimeConfig, k: string) returns (i: nat)
    requires Loaded(resolve, cfg, groupOrder, routeOrder, rc) && k in rc.routes
    ensures i < |rc.backendGroups| && k in rc.hostToGroup
    ensures rc.backendGroups[i].name == rc.hostToGroup[k] && rc.backendGroups[i].addresses == rc.routes[k]
    ensures rc.routes[k] != [] && k != []
  {
    var host := RouteOf(resolve, cfg, groupOrder, routeOrder, rc, k);
    var name := GroupOf(cfg, host);
    hide Compile, NormalizeHost, TrimSpace, GroupOf, AddressesOf;
    i :| 0 <= i < |groupOrder| && groupOrder[i] == name;
    LoadedGroup(resolve, cfg, groupOrder, routeOrder, rc, i);
  }

  lemma TrimTwice(s: string)
    ensures TrimSpace(TrimSpace(s)) == TrimSpace(s)
  {
    TrimSpaceResult(s);
    TrimSpaceResult(TrimSpace(s));
  }

  lemma GroupAddresses(resolve: Resolver, s: Settings, key: string, g: BackendGroup)
    requires CompileGroup(resolve, s, key, g).Ok?
    ensures var c := CompileGroup(resolve, s, key, g).value;
            c.name == TrimSpace(key) && c.addresses == AddressesOf(resolve, g) && c.addresses != []
  {
    CompiledLength(resolve, g.addresses);
    hide CompileAddresses, TrimSpace;
  }

  // ---------------------------------------------------------------- the three consumers

  /** Group names stay distinct when trimmed, so that one name means one group to the checker. */
  ghost predicate DistinctNames(cfg: ConfigV) {
    forall g, h :: g in cfg.backends && h in cfg.backends && TrimSpace(g) == TrimSpace(h) ==> g == h
  }

  /** A group whose trimmed name is that of a routed group has no address that the routed group lacks. */
  ghost predicate NamesakesAgree(resolve: Resolver, cfg: ConfigV) {
    forall h, g :: h in cfg.routes && g in cfg.backends ==> NamesakeAgrees(resolve, cfg, h, g)
  }

  ghost predicate NamesakeAgrees(resolve: Resolver, cfg: ConfigV, h: string, g: string)
    requires h in cfg.routes && g in cfg.backends
  {
    TrimSpace(g) == GroupOf(cfg, h) && GroupOf(cfg, h) in cfg.backends ==>
      forall a :: a in AddressesOf(resolve, cfg.backends[g]) ==> a in HostAddresses(resolve, cfg, h)
  }

  lemma DistinctNamesAgree(resolve: Resolver, cfg: ConfigV)
    requires DistinctNames(cfg)
    ensures NamesakesAgree(resolve, cfg)
  {
    forall h, g | h in cfg.routes && g in cfg.backends && TrimSpace(g) == GroupOf(cfg, h)
        && GroupOf(cfg, h) in cfg.backends
      ensures g == GroupOf(cfg, h)
    {
      TrimTwice(cfg.routes[h]);
    }
    hide TrimSpace, AddressesOf;
  }

  ghost predicate NormalKeys(cfg: ConfigV) {
    forall h :: h in cfg.routes ==> IsNormal(h)
  }

  lemma TableKeys(resolve: Resolver, cfg: ConfigV, groupOrder: seq<string>, routeOrder: seq<string>, rc: RuntimeConfig)
    requires Loaded(resolve, cfg, groupOrder, routeOrder, rc)
    ensures forall h :: h in cfg.routes ==> NormalizeHost(h) in rc.routes
    ensures rc.routes != map[] && rc.routes.Keys == rc.hostToGroup.Keys
  {
    LoadedTables(resolve, cfg, groupOrder, routeOrder, rc);
    hide GroupsOk, RoutesOk, Compile, NormalizeHost, RouteBehind;
    var h :| h in cfg.routes;
    assert NormalizeHost(h) in rc.routes;
  }

  /** router.New on loaded routes fails exactly if normalising a host twice empties it. */
  lemma RouterAcceptsIff(resolve: Resolver, cfg: ConfigV, groupOrder: seq<string>, routeOrder: seq<string>,
                         rc: RuntimeConfig)
    requires Loaded(resolve, cfg, groupOrder, routeOrder, rc)
    ensures Acceptable(rc.routes) <==> forall h :: h in cfg.routes ==> NormalizeHost(NormalizeHost(h)) != []
  {
    TableKeys(resolve, cfg, groupOrder, routeOrder, rc);
    hide NormalizeHost, Loaded;
    forall k | k in rc.routes
      ensures rc.routes[k] != []
      ensures exists h :: h in cfg.routes && NormalizeHost(h) == k
    {
      var i := RoutesAgreeWithGroups(resolve, cfg, groupOrder, routeOrder, rc, k);
      var h := RouteOf(resolve, cfg, groupOrder, routeOrder, rc, k);
      ComesFromRoute(resolve, cfg, TablesOf(rc), k, h);
    }
  }

  /** A probe of group i's address on behalf of host k. */
  ghost predicate Probed(rc: RuntimeConfig, i: nat, k: string, a: string) {
    && i < |rc.backendGroups| && a in rc.backendGroups[i].addresses
    && k in rc.hostToGroup && rc.hostToGroup[k] == rc.backendGroups[i].name
  }

  /** The router built from a normal table has one pool per host, under its own key. */
  lemma NormalRouter(rc: RuntimeConfig, order: seq<string>)
    requires Enumerates(order, rc.routes) && forall k :: k in rc.routes ==> IsNormal(k)
    ensures var v := Build(rc.routes, order);
            && v.pools.Keys == rc.routes.Keys
            && (forall k :: k in rc.routes ==> v.pools[k] == FreshPool(rc.routes[k]))
            && (forall a :: a in v.index <==> exists k :: k in v.pools && a in v.pools[k].addresses)
            && IndexSound(v)
  {
    hide NormalizeHost;
    assert DistinctNormalForms(rc.routes);
    RouterMirrorsRoutes(rc.routes, order);
    var v := Build(rc.routes, order);
    forall k | k in v.pools
      ensures k in rc.routes
    {
      var h :| h in rc.routes && NormalizeHost(h) == k;
      assert IsNormal(h);
    }
    forall k | k in rc.routes
      ensures k in v.pools && v.pools[k] == FreshPool(rc.routes[k])
    {
      assert IsNormal(k);
    }
  }

  lemma NormalTable(resolve: Resolver, cfg: ConfigV, groupOrder: seq<string>, routeOrder: seq<string>,
                    rc: RuntimeConfig)
    requires Loaded(resolve, cfg, groupOrder, routeOrder, rc) && NormalKeys(cfg)
    ensures rc.routes.Keys == cfg.routes.Keys == rc.hostToGroup.Keys
    ensures forall k :: k in rc.routes ==> IsNormal(k)
    ensures forall h :: h in cfg.routes ==> ComesFrom(resolve, cfg, TablesOf(rc), h, h)
  {
    TableKeys(resolve, cfg, groupOrder, routeOrder, rc);
    hide NormalizeHost, Loaded, ComesFrom;
    forall k | k in rc.routes
      ensures k in cfg.routes && IsNormal(k) && ComesFrom(resolve, cfg, TablesOf(rc), k, k)
    {
      var host := RouteOf(resolve, cfg, groupOrder, routeOrder, rc, k);
      ComesFromRoute(resolve, cfg, TablesOf(rc), k, host);
      assert IsNormal(host);
    }
    forall h | h in cfg.routes
      ensures h in rc.routes
    {
      assert IsNormal(h);
    }
  }

  /** No two host keys of the file become one in the tables. */
  ghost predicate DistinctKeys(cfg: ConfigV) {
    forall h, g :: h in cfg.routes && g in cfg.routes && NormalizeHost(h) == NormalizeHost(g) ==> h == g
  }

  lemma NormalKeysDistinct(cfg: ConfigV)
    requires NormalKeys(cfg)
    ensures DistinctKeys(cfg)
  {
    hide NormalizeHost;
    forall h, g | h in cfg.routes && g in cfg.routes && NormalizeHost(h) == NormalizeHost(g)
      ensures h == g
    {
      assert IsNormal(h) && IsNormal(g);
    }
  }

  ghost predicate SoleKey(cfg: ConfigV, h: string) {
    forall g :: g in cfg.routes && NormalizeHost(g) == NormalizeHost(h) ==> g == h
  }

  /** A host whose table key is its own has its group's addresses there. */
  lemma SoleRoute(resolve: Resolver, cfg: ConfigV, groupOrder: seq<string>, routeOrder: seq<string>,
                  rc: RuntimeConfig, h: string)
    requires Loaded(resolve, cfg, groupOrder, routeOrder, rc) && h in cfg.routes && SoleKey(cfg, h)
    ensures GroupOf(cfg, h) in cfg.backends && NormalizeHost(h) in rc.routes
    ensures rc.routes[NormalizeHost(h)] == HostAddresses(resolve, cfg, h)
  {
    hide NormalizeHost, Loaded, GroupOf, HostAddresses;
    TableKeys(resolve, cfg, groupOrder, routeOrder, rc);
    var host := RouteOf(resolve, cfg, groupOrder, routeOrder, rc, NormalizeHost(h));
    assert host == h by {
      ComesFromRoute(resolve, cfg, TablesOf(rc), NormalizeHost(h), host);
    }
  }

  lemma TableKeyHost(resolve: Resolver, cfg: ConfigV, groupOrder: seq<string>, routeOrder: seq<string>,
                     rc: RuntimeConfig, k: string)
    returns (h: string)
    requires Loaded(resolve, cfg, groupOrder, routeOrder, rc) && k in rc.routes
    ensures h in cfg.routes && NormalizeHost(h) == k
  {
    hide NormalizeHost, Loaded, ComesFrom;
    h := RouteOf(resolve, cfg, groupOrder, routeOrder, rc, k);
    ComesFromRoute(resolve, cfg, TablesOf(rc), k, h);
  }

  /** A table key that is alone in its pool fills it. */
  lemma SolePool(routes: map<string, seq<string>>, order: seq<string>, k: string)
    requires Enumerates(order, routes) && k in routes
    requires forall g :: g in routes && NormalizeHost(g) == NormalizeHost(k) ==> g == k
    ensures var v := Build(routes, order);
            NormalizeHost(k) in v.pools && v.pools[NormalizeHost(k)] == FreshPool(routes[k])
  {
    hide NormalizeHost, Build, FreshPool;
    BuildPools(routes, order);
    var i :| 0 <= i < |order| && order[i] == k;
    assert LastNamed(order, i, NormalizeHost(k));
  }

  ghost predicate ProbedBySome(rc: RuntimeConfig, k: string, a: string) {
    exists i: nat :: Probed(rc, i, k, a)
  }

  /** Every backend of every host has a health worker. */
  lemma EveryBackendIsProbed(resolve: Resolver, cfg: ConfigV, groupOrder: seq<string>, routeOrder: seq<string>,
                             rc: RuntimeConfig, k: string, a: string)
    requires Loaded(resolve, cfg, groupOrder, routeOrder, rc) && k in rc.routes && a in rc.routes[k]
    ensures ProbedBySome(rc, k, a)
  {
    var i := RoutesAgreeWithGroups(resolve, cfg, groupOrder, routeOrder, rc, k);
    assert Probed(rc, i, k, a);
  }

  /** If namesakes agree, what is probed under a host's group name is in the host's own list. */
  lemma ProbeFinds(resolve: Resolver, cfg: ConfigV, groupOrder: seq<string>, routeOrder: seq<string>, rc: RuntimeConfig,
                   i: nat, k: string, a: string)
    requires Loaded(resolve, cfg, groupOrder, routeOrder, rc) && NamesakesAgree(resolve, cfg) && Probed(rc, i, k, a)
    ensures k in rc.routes && a in rc.routes[k]
  {
    TableKeys(resolve, cfg, groupOrder, routeOrder, rc);
    var host := RouteOf(resolve, cfg, groupOrder, routeOrder, rc, k);
    LoadedGroup(resolve, cfg, groupOrder, routeOrder, rc, i);
    hide TrimSpace, NormalizeHost, Loaded, AddressesOf, GroupOf;
    assert NamesakeAgrees(resolve, cfg, host, groupOrder[i]);
  }

  /** A namesake with an address of its own is probed for a host that does not have it. */
  lemma StrayProbe(resolve: Resolver, cfg: ConfigV, groupOrder: seq<string>, routeOrder: seq<string>, rc: RuntimeConfig,
                   h: string, g: string, a: string) returns (i: nat)
    requires Loaded(resolve, cfg, groupOrder, routeOrder, rc) && NormalKeys(cfg)
    requires h in cfg.routes && g in cfg.backends && TrimSpace(g) == GroupOf(cfg, h) && GroupOf(cfg, h) in cfg.backends
    requires a in AddressesOf(resolve, cfg.backends[g]) && a !in HostAddresses(resolve, cfg, h)
    ensures Probed(rc, i, h, a) && h in rc.routes && a !in rc.routes[h]
  {
    NormalTable(resolve, cfg, groupOrder, routeOrder, rc);
    assert ComesFrom(resolve, cfg, TablesOf(rc), h, h);
    hide Compile, NormalizeHost, TrimSpace, GroupOf, AddressesOf, NormalKeys;
    i :| 0 <= i < |groupOrder| && groupOrder[i] == g;
    LoadedGroup(resolve, cfg, groupOrder, routeOrder, rc, i);
  }

  /** With normal host keys the router can be built from what was loaded. */
  lemma LoadedRouterBuilds(resolve: Resolver, cfg: ConfigV, groupOrder: seq<string>, routeOrder: seq<string>,
                           rc: RuntimeConfig)
    requires Loaded(resolve, cfg, groupOrder, routeOrder, rc) && NormalKeys(cfg)
    ensures Acceptable(rc.routes)
  {
    NormalTable(resolve, cfg, groupOrder, routeOrder, rc);
    RouterAcceptsIff(resolve, cfg, groupOrder, routeOrder, rc);
    hide Loaded, NormalizeHost, ComesFrom, Acceptable;
    forall h | h in cfg.routes
      ensures NormalizeHost(NormalizeHost(h)) != []
    {
      assert IsNormal(h);
      var i := RoutesAgreeWithGroups(resolve, cfg, groupOrder, routeOrder, rc, h);
    }
  }

  /** A worker's update succeeds exactly when its address is in the host's list. */
  lemma ProbeSucceedsIff(resolve: Resolver, cfg: ConfigV, groupOrder: seq<string>, routeOrder: seq<string>,
                         rc: RuntimeConfig, order: seq<string>, k: string, a: string, alive: bool)
    requires Loaded(resolve, cfg, groupOrder, routeOrder, rc) && NormalKeys(cfg) && Enumerates(order, rc.routes)
    requires k in rc.routes && RouterOk(Build(rc.routes, order))
    ensures SetAliveSpec(Build(rc.routes, order), k, a, alive).1.Ok? <==> a in rc.routes[k]
  {
    NormalTable(resolve, cfg, groupOrder, routeOrder, rc);
    NormalRouter(rc, order);
    hide Loaded, NormalizeHost, Build, IndexSound, ComesFrom, NormalKeys;
    assert IsNormal(k) && Build(rc.routes, order).pools[k] == FreshPool(rc.routes[k]);
  }

  ghost predicate EveryProbeSucceeds(rc: RuntimeConfig, v: RouterV)
    requires RouterOk(v)
  {
    forall i: nat, k, a, alive :: Probed(rc, i, k, a) ==> SetAliveSpec(v, k, a, alive).1.Ok?
  }

  /**
   * Whatever is probed for a host is in the list of every host that shares its pool - in particular in its own.
   */
  ghost predicate PoolsCoverProbes(rc: RuntimeConfig) {
    forall i: nat, k, g, a :: Probed(rc, i, k, a) && g in rc.routes && NormalizeHost(g) == NormalizeHost(k) ==>
      a in rc.routes[g]
  }

  /** An order in which a given key is visited last. */
  lemma LastOrder(routes: map<string, seq<string>>, g: string) returns (order: seq<string>)
    requires g in routes
    ensures Enumerates(order, routes) && order != [] && order[|order| - 1] == g
  {
    var init := Listing(routes.Keys - {g});
    order := init + [g];
    assert forall k :: k in routes ==> k == g || k in init;
    assert forall k :: k in init ==> k in routes.Keys - {g};
    forall i | 0 <= i < |order|
      ensures order[i] in routes
    {
      if i < |init| {
        assert init[i] in init;
      }
    }
  }

  lemma LastFillsPool(routes: map<string, seq<string>>, order: seq<string>)
    requires Enumerates(order, routes) && order != []
    ensures var g, v := order[|order| - 1], Build(routes, order);
            NormalizeHost(g) in v.pools && v.pools[NormalizeHost(g)] == FreshPool(routes[g])
  {
    hide NormalizeHost, Build, FreshPool;
    BuildPools(routes, order);
    assert LastNamed(order, |order| - 1, NormalizeHost(order[|order| - 1]));
  }

  lemma PoolFilledBySome(routes: map<string, seq<string>>, order: seq<string>, k: string) returns (g: string)
    requires Enumerates(order, routes) && k in routes
    ensures g in routes && NormalizeHost(g) == NormalizeHost(k)
    ensures var v := Build(routes, order);
            NormalizeHost(k) in v.pools && v.pools[NormalizeHost(k)] == FreshPool(routes[g])
  {
    hide NormalizeHost, Build, FreshPool;
    BuildPools(routes, order);
    var i :| 0 <= i < |order| && order[i] == k;
    LastExists(order, i);
    var j: nat :| LastNamed(order, j, NormalizeHost(k));
    g := order[j];
  }

  /** Every router that can be built from the tables accepts every update of every worker. */
  ghost predicate ProbesAlwaysSucceed(rc: RuntimeConfig) {
    forall order :: Enumerates(order, rc.routes) ==>
      RouterOk(Build(rc.routes, order)) && EveryProbeSucceeds(rc, Build(rc.routes, order))
  }

  lemma UpdateSucceedsIff(v: RouterV, k: string, a: string, alive: bool)
    requires RouterOk(v) && NormalizeHost(k) in v.pools
    ensures SetAliveSpec(v, k, a, alive).1.Ok? <==> a in v.pools[NormalizeHost(k)].addresses
  {
    hide NormalizeHost;
  }

  lemma CoveredProbesSucceed(rc: RuntimeConfig, order: seq<string>)
    requires Enumerates(order, rc.routes) && rc.routes.Keys == rc.hostToGroup.Keys && RouterOk(Build(rc.routes, order))
    requires PoolsCoverProbes(rc)
    ensures EveryProbeSucceeds(rc, Build(rc.routes, order))
  {
    hide NormalizeHost, Build, SetAliveSpec, RouterOk;
    var v := Build(rc.routes, order);
    forall i: nat, k, a, alive | Probed(rc, i, k, a)
      ensures SetAliveSpec(v, k, a, alive).1.Ok?
    {
      var g := PoolFilledBySome(rc.routes, order, k);
      UpdateSucceedsIff(v, k, a, alive);
    }
  }

  lemma StrayProbeFails(rc: RuntimeConfig, i: nat, k: string, g: string, a: string) returns (order: seq<string>)
    requires Acceptable(rc.routes) && forall h :: h in rc.routes ==> |rc.routes[h]| <= Scan.MAX_LEN
    requires Probed(rc, i, k, a) && g in rc.routes && NormalizeHost(g) == NormalizeHost(k) && a !in rc.routes[g]
    ensures Enumerates(order, rc.routes) && RouterOk(Build(rc.routes, order))
    ensures !EveryProbeSucceeds(rc, Build(rc.routes, order))
  {
    hide NormalizeHost, Build, SetAliveSpec, RouterOk, Acceptable, Probed;
    order := LastOrder(rc.routes, g);
    BuiltRouterOk(rc.routes, order);
    LastFillsPool(rc.routes, order);
    UpdateSucceedsIff(Build(rc.routes, order), k, a, true);
    assert !SetAliveSpec(Build(rc.routes, order), k, a, true).1.Ok?;
  }

  /**
   * Whatever the host keys: in every order in which the router may visit its routes, no update of any worker
   * fails exactly when whatever is probed for a host is in the list of every host that shares its pool.
   */
  lemma ProbesSucceedIff(rc: RuntimeConfig)
    requires rc.routes.Keys == rc.hostToGroup.Keys && Acceptable(rc.routes)
    requires forall h :: h in rc.routes ==> |rc.routes[h]| <= Scan.MAX_LEN
    ensures ProbesAlwaysSucceed(rc) <==> PoolsCoverProbes(rc)
  {
    hide NormalizeHost, Build, RouterOk, Acceptable, EveryProbeSucceeds, Probed;
    if PoolsCoverProbes(rc) {
      forall order | Enumerates(order, rc.routes)
        ensures RouterOk(Build(rc.routes, order)) && EveryProbeSucceeds(rc, Build(rc.routes, order))
      {
        BuiltRouterOk(rc.routes, order);
        CoveredProbesSucceed(rc, order);
      }
    } else {
      var i: nat, k, g, a :| Probed(rc, i, k, a) && g in rc.routes && NormalizeHost(g) == NormalizeHost(k) &&
                             a !in rc.routes[g];
      var order := StrayProbeFails(rc, i, k, g, a);
    }
  }

  /** With normal keys, no update of any worker ever fails exactly when namesakes agree. */
  lemma NormalProbesSucceedIff(resolve: Resolver, cfg: ConfigV, groupOrder: seq<string>, routeOrder: seq<string>,
                         rc: RuntimeConfig, order: seq<string>)
    requires Loaded(resolve, cfg, groupOrder, routeOrder, rc) && NormalKeys(cfg) && Enumerates(order, rc.routes)
    requires RouterOk(Build(rc.routes, order))
    ensures EveryProbeSucceeds(rc, Build(rc.routes, order)) <==> NamesakesAgree(resolve, cfg)
  {
    var v := Build(rc.routes, order);
    hide Loaded, NormalizeHost, Build, SetAliveSpec, NormalKeys, Enumerates, RouterOk, TrimSpace, AddressesOf,
        Probed, GroupOf, HostAddresses;
    if NamesakesAgree(resolve, cfg) {
      hide NamesakesAgree;
      forall i: nat, k, a, alive | Probed(rc, i, k, a)
        ensures SetAliveSpec(v, k, a, alive).1.Ok?
      {
        ProbeFinds(resolve, cfg, groupOrder, routeOrder, rc, i, k, a);
        ProbeSucceedsIff(resolve, cfg, groupOrder, routeOrder, rc, order, k, a, alive);
      }
    } else {
      var h, g :| h in cfg.routes && g in cfg.backends && !NamesakeAgrees(resolve, cfg, h, g);
      var a :| a in AddressesOf(resolve, cfg.backends[g]) && a !in HostAddresses(resolve, cfg, h);
      var i := StrayProbe(resolve, cfg, groupOrder, routeOrder, rc, h, g, a);
      ProbeSucceedsIff(resolve, cfg, groupOrder, routeOrder, rc, order, h, a, true);
      assert !SetAliveSpec(v, h, a, true).1.Ok?;
    }
  }

  lemma BuiltRouterOk(routes: map<string, seq<string>>, order: seq<string>)
    requires Enumerates(order, routes) && Acceptable(routes)
    requires forall h :: h in routes ==> |routes[h]| <= Scan.MAX_LEN
    ensures RouterOk(Build(routes, order))
  {
    hide NormalizeHost, Build;
    BuildPools(routes, order);
    var v := Build(routes, order);
    forall h | h in v.pools
      ensures PoolOk(v.pools[h])
    {
      assert HasLast(order, h);
      var i: nat :| LastNamed(order, i, h);
      assert order[i] in routes;
    }
  }

  /**
   * Agreement of the three consumers, with normal host keys: the router is built; every backend in it is
   * probed for its host; and all updates of all workers find their backend exactly when namesakes agree, as
   * they do when group names stay distinct when trimmed.
   */
  lemma CheckerCoversRouter(resolve: Resolver, cfg: ConfigV, groupOrder: seq<string>, routeOrder: seq<string>,
                            rc: RuntimeConfig, order: seq<string>)
    requires Loaded(resolve, cfg, groupOrder, routeOrder, rc) && NormalKeys(cfg) && Enumerates(order, rc.routes)
    requires forall h :: h in rc.routes ==> |rc.routes[h]| <= Scan.MAX_LEN
    ensures Acceptable(rc.routes)
    ensures var v := Build(rc.routes, order);
            && RouterOk(v)
            && (forall k, a :: k in v.pools && a in v.pools[k].addresses ==> ProbedBySome(rc, k, a))
            && (EveryProbeSucceeds(rc, v) <==> NamesakesAgree(resolve, cfg))
    ensures DistinctNames(cfg) ==> NamesakesAgree(resolve, cfg)
  {
    var v := Build(rc.routes, order);
    LoadedRouterBuilds(resolve, cfg, groupOrder, routeOrder, rc);
    BuiltRouterOk(rc.routes, order);
    NormalProbesSucceedIff(resolve, cfg, groupOrder, routeOrder, rc, order);
    if DistinctNames(cfg) {
      DistinctNamesAgree(resolve, cfg);
    }
    NormalTable(resolve, cfg, groupOrder, routeOrder, rc);
    NormalRouter(rc, order);
    hide Loaded, IsNormal, Build, IndexSound, ComesFrom, DistinctNames, Probed, Acceptable, ProbedBySome, SetAliveSpec,
      NamesakesAgree, EveryProbeSucceeds;
    forall k, a | k in v.pools && a in v.pools[k].addresses
      ensures ProbedBySome(rc, k, a)
    {
      EveryBackendIsProbed(resolve, cfg, groupOrder, routeOrder, rc, k, a);
    }
  }

  // ---------------------------------------------------------------- which requests find a route

  /** A name is looked up normalised three times; a configured host is stored normalised twice. */
  function NameKey(name: string): string {
    NormalizeHost(NormalizeHost(NormalizeHost(name)))
  }

  /** The router's pool keys are the configured hosts, normalised twice. */
  lemma PoolExistsIff(resolve: Resolver, cfg: ConfigV, groupOrder: seq<string>, routeOrder: seq<string>,
                      rc: RuntimeConfig, order: seq<string>, key: string)
    requires Loaded(resolve, cfg, groupOrder, routeOrder, rc) && Enumerates(order, rc.routes)
    ensures key in Build(rc.routes, order).pools <==>
            exists h :: h in cfg.routes && NormalizeHost(NormalizeHost(h)) == key
  {
    hide NormalizeHost, Build, Loaded;
    var v := Build(rc.routes, order);
    TableKeys(resolve, cfg, groupOrder, routeOrder, rc);
    BuildPools(rc.routes, order);
    if key in v.pools {
      assert HasLast(order, key);
      var i: nat :| LastNamed(order, i, key);
      assert order[i] in rc.routes;
      var h := RouteOf(resolve, cfg, groupOrder, routeOrder, rc, order[i]);
      ComesFromRoute(resolve, cfg, TablesOf(rc), order[i], h);
    }
    if h :| h in cfg.routes && NormalizeHost(NormalizeHost(h)) == key {
      var k := NormalizeHost(h);
      var i :| 0 <= i < |order| && order[i] == k;
      LastExists(order, i);
      var j: nat :| LastNamed(order, j, key);
    }
  }

  /** A name finds a pool exactly when some configured host, normalised twice, is the name normalised three times. */
  lemma NameRoutedIff(resolve: Resolver, cfg: ConfigV, groupOrder: seq<string>, routeOrder: seq<string>,
                      rc: RuntimeConfig, order: seq<string>, name: string)
    requires Loaded(resolve, cfg, groupOrder, routeOrder, rc) && Enumerates(order, rc.routes)
    ensures NameKey(name) in Build(rc.routes, order).pools <==>
            exists h :: h in cfg.routes && NormalizeHost(NormalizeHost(h)) == NameKey(name)
  {
    hide NormalizeHost, Build, Loaded, NameKey, Enumerates;
    PoolExistsIff(resolve, cfg, groupOrder, routeOrder, rc, order, NameKey(name));
  }

  /**
   * Every configured host has a pool. A request for the host by the very name it is configured with is looked
   * up under that pool's key exactly when two rounds settle the name; so a host alone in the file is reachable
   * under its own name exactly then.
   */
  lemma OwnNameRoutedIff(resolve: Resolver, cfg: ConfigV, groupOrder: seq<string>, routeOrder: seq<string>,
                         rc: RuntimeConfig, order: seq<string>, host: string)
    requires Loaded(resolve, cfg, groupOrder, routeOrder, rc) && Enumerates(order, rc.routes)
    requires host in cfg.routes
    ensures NormalizeHost(NormalizeHost(host)) in Build(rc.routes, order).pools
    ensures NameKey(host) == NormalizeHost(NormalizeHost(host)) <==> CleanTail(NormalizeHost(NormalizeHost(host)))
    ensures cfg.routes.Keys == {host} ==>
              (NameKey(host) in Build(rc.routes, order).pools <==> CleanTail(NormalizeHost(NormalizeHost(host))))
  {
    hide Build, Loaded, NormalizeHost, CleanTail, Enumerates;
    PoolExistsIff(resolve, cfg, groupOrder, routeOrder, rc, order, NormalizeHost(NormalizeHost(host)));
    NameRoutedIff(resolve, cfg, groupOrder, routeOrder, rc, order, host);
    NormalExactlyWhenTailClean(NormalizeHost(host));
  }

  lemma IndexedHostHasPool(routes: map<string, seq<string>>, order: seq<string>, a: string) returns (h: string)
    requires Enumerates(order, routes) && a in Build(routes, order).index
    ensures var v := Build(routes, order); h in routes && v.index[a] == NormalizeHost(h) && v.index[a] in v.pools
  {
    hide NormalizeHost, Build;
    BuildPools(routes, order);
    BuildIndex(routes, order);
    var v := Build(routes, order);
    assert ClaimedBy(routes, order, a, v.index[a]);
    var i: nat :| FirstListed(routes, order, i, a) && v.index[a] == NormalizeHost(order[i]);
    h := order[i];
    LastExists(order, i);
    var j: nat :| LastNamed(order, j, v.index[a]);
  }

  /**
   * Where an IPv4 request whose address is indexed goes: the indexed host has a pool; it is the pool that
   * DialRoute looks up exactly when that host ends in neither a dot nor white space; and DialRoute finds some
   * pool exactly when some configured host, normalised twice, is the indexed one normalised twice more.
   */
  lemma IndexHitRoutedIff(resolve: Resolver, cfg: ConfigV, groupOrder: seq<string>, routeOrder: seq<string>,
                          rc: RuntimeConfig, order: seq<string>, a: string)
    requires Loaded(resolve, cfg, groupOrder, routeOrder, rc) && Enumerates(order, rc.routes)
    requires a in Build(rc.routes, order).index
    ensures var v := Build(rc.routes, order);
            && v.index[a] in v.pools
            && (Sessions.PoolKey(v.index[a]) == v.index[a] <==> CleanTail(v.index[a]))
            && (Sessions.PoolKey(v.index[a]) in v.pools <==>
                exists h :: h in cfg.routes && NormalizeHost(NormalizeHost(h)) == Sessions.PoolKey(v.index[a]))
  {
    hide NormalizeHost, Build, Loaded, CleanTail;
    var v := Build(rc.routes, order);
    var h := IndexedHostHasPool(rc.routes, order, a);
    TwoRoundsKeepIff(h);
    PoolExistsIff(resolve, cfg, groupOrder, routeOrder, rc, order, Sessions.PoolKey(v.index[a]));
  }

  /** Some routed group lists, after resolution, this very IPv4 address and port. */
  ghost predicate ConfiguredBackend(resolve: Resolver, cfg: ConfigV, q: Quad, p: port) {
    exists h, i :: ListedBackend(resolve, cfg, q, p, h, i)
  }

  ghost predicate ListedBackend(resolve: Resolver, cfg: ConfigV, q: Quad, p: port, h: string, i: int) {
    && h in cfg.routes && GroupOf(cfg, h) in cfg.backends
    && 0 <= i < |cfg.backends[GroupOf(cfg, h)].addresses|
    && resolve(TrimSpace(cfg.backends[GroupOf(cfg, h)].addresses[i])) == Some(TcpAddr(V4(q), p))
  }

  lemma JoinedQuad(addr: TcpAddr, q: Quad, p: port)
    requires addr.ip != NoIP
    ensures JoinHostPort(addr) == QuadPort(q, p) <==> addr == TcpAddr(V4(q), p)
  {
    if addr.ip.V4? && JoinHostPort(addr) == QuadPort(q, p) {
      QuadPortInjective(addr.ip.quad, addr.port, q, p);
    }
    if addr.ip.V6? {
      QuadPortChars(q, p);
      assert JoinHostPort(addr)[0] == '[';
    }
  }

  lemma AddressListed(resolve: Resolver, g: BackendGroup, q: Quad, p: port)
    requires CompileAddresses(resolve, g.addresses).Ok?
    ensures QuadPort(q, p) in AddressesOf(resolve, g) <==>
            exists i :: 0 <= i < |g.addresses| && resolve(TrimSpace(g.addresses[i])) == Some(TcpAddr(V4(q), p))
  {
    var all := AddressesOf(resolve, g);
    CompiledLength(resolve, g.addresses);
    hide CompileAddresses, QuadPort, JoinHostPort, TrimSpace;
    forall i | 0 <= i < |all|
      ensures all[i] == QuadPort(q, p) <==> resolve(TrimSpace(g.addresses[i])) == Some(TcpAddr(V4(q), p))
    {
      CompiledAddress(resolve, g.addresses, i);
      ResolvedHasIP(resolve, g.addresses[i]);
      JoinedQuad(resolve(TrimSpace(g.addresses[i])).value, q, p);
    }
  }

  /** The address is indexed, and DialRoute's lookup of the indexed host finds a pool that holds it. */
  ghost predicate LeadsToPool(v: RouterV, a: string) {
    a in v.index && Sessions.PoolKey(v.index[a]) in v.pools && a in v.pools[Sessions.PoolKey(v.index[a])].addresses
  }

  /** With normal keys the host of an indexed address is its own pool key and its pool holds the address. */
  lemma IndexedHostIsNormal(resolve: Resolver, cfg: ConfigV, groupOrder: seq<string>, routeOrder: seq<string>,
                            rc: RuntimeConfig, order: seq<string>, a: string)
    requires Loaded(resolve, cfg, groupOrder, routeOrder, rc) && NormalKeys(cfg) && Enumerates(order, rc.routes)
    requires a in Build(rc.routes, order).index
    ensures LeadsToPool(Build(rc.routes, order), a)
  {
    hide Loaded, NormalizeHost, Build, ComesFrom, NormalKeys;
    NormalTable(resolve, cfg, groupOrder, routeOrder, rc);
    NormalRouter(rc, order);
    var v := Build(rc.routes, order);
    assert v.index[a] in v.pools;
    assert IsNormal(v.index[a]);
  }

  /**
   * With normal keys, a request for an IPv4 address is routed - it is indexed, and DialRoute then finds a pool
   * holding it - exactly when that address and port are a configured backend of some host.
   */
  lemma Ipv4RoutedIff(resolve: Resolver, cfg: ConfigV, groupOrder: seq<string>, routeOrder: seq<string>,
                      rc: RuntimeConfig, order: seq<string>, q: Quad, p: port)
    requires Loaded(resolve, cfg, groupOrder, routeOrder, rc) && NormalKeys(cfg) && Enumerates(order, rc.routes)
    ensures QuadPort(q, p) in Build(rc.routes, order).index <==> ConfiguredBackend(resolve, cfg, q, p)
    ensures ConfiguredBackend(resolve, cfg, q, p) ==> LeadsToPool(Build(rc.routes, order), QuadPort(q, p))
  {
    hide Loaded, NormalKeys, Build, QuadPort, LeadsToPool, ConfiguredBackend;
    IndexedIffConfigured(resolve, cfg, groupOrder, routeOrder, rc, order, q, p);
    if QuadPort(q, p) in Build(rc.routes, order).index {
      IndexedHostIsNormal(resolve, cfg, groupOrder, routeOrder, rc, order, QuadPort(q, p));
    }
  }

  lemma IndexedIffConfigured(resolve: Resolver, cfg: ConfigV, groupOrder: seq<string>, routeOrder: seq<string>,
                             rc: RuntimeConfig, order: seq<string>, q: Quad, p: port)
    requires Loaded(resolve, cfg, groupOrder, routeOrder, rc) && NormalKeys(cfg) && Enumerates(order, rc.routes)
    ensures QuadPort(q, p) in Build(rc.routes, order).index <==> ConfiguredBackend(resolve, cfg, q, p)
  {
    var v := Build(rc.routes, order);
    NormalTable(resolve, cfg, groupOrder, routeOrder, rc);
    NormalRouter(rc, order);
    LoadedTables(resolve, cfg, groupOrder, routeOrder, rc);
    hide IsNormal, Build, Loaded, IndexSound, TablesMirror, RoutesOk, QuadPort, AddressesOf, GroupOf, TrimSpace;
    forall h | h in cfg.routes
      ensures GroupOf(cfg, h) in cfg.backends
      ensures QuadPort(q, p) in v.pools[h].addresses <==> exists i :: ListedBackend(resolve, cfg, q, p, h, i)
    {
      assert ComesFrom(resolve, cfg, TablesOf(rc), h, h);
      var g := cfg.backends[GroupOf(cfg, h)];
      GroupResolves(resolve, cfg, GroupOf(cfg, h));
      AddressListed(resolve, g, q, p);
      assert forall i :: 0 <= i < |g.addresses| && resolve(TrimSpace(g.addresses[i])) == Some(TcpAddr(V4(q), p)) <==>
                    ListedBackend(resolve, cfg, q, p, h, i);
    }
  }

  lemma GroupResolves(resolve: Resolver, cfg: ConfigV, g: string)
    requires GroupsOk(resolve, cfg) && g in cfg.backends
    ensures CompileAddresses(resolve, cfg.backends[g].addresses).Ok?
  {
    assert GroupOk(resolve, cfg.settings, g, cfg.backends[g]);
    AddressesCompileIff(resolve, cfg.backends[g].addresses);
  }
}
