/** What a client gets from a discovery, end to end: the edited file, the reload that reads it, and the retry. */
module DiscoveredRequests {
  import opened Text
  import opened Hosts
  import opened Addresses
  import opened Router
  import opened Config
  import opened ConfigLaws
  import opened Discovery
  import opened DiscoveryLaws
  import Reload
  import ReloadLaws

  const NO_ADDRESS := Quad(0, 0, 0, 0)

  // ---------------------------------------------------------------- the edited file

  /** All kept addresses are usable exactly when 0.0.0.0 is not among those the host stands for. */
  lemma {:induction false} KeptUsableIff(resolve: Resolver, ips: seq<Literal>, p: port)
    requires ResolvesLiterals(resolve)
    ensures (forall i :: 0 <= i < |KeepQuads(ips, p)| ==> AddressOk(resolve, KeepQuads(ips, p)[i])) <==>
            Is4(NO_ADDRESS) !in ips
  {
    hide AddressOk, QuadPort;
    if ips != [] {
      var n := |ips| - 1;
      KeptUsableIff(resolve, ips[..n], p);
      assert ips == ips[..n] + [ips[n]];
      assert Is4(NO_ADDRESS) in ips <==> Is4(NO_ADDRESS) in ips[..n] || ips[n] == Is4(NO_ADDRESS);
      if ips[n].Is4? {
        QuadOk(resolve, ips[n].quad, p);
        AppendedUsable(resolve, KeepQuads(ips[..n], p), QuadPort(ips[n].quad, p));
        assert KeepQuads(ips, p) == KeepQuads(ips[..n], p) + [QuadPort(ips[n].quad, p)];
      } else {
        assert KeepQuads(ips, p) == KeepQuads(ips[..n], p);
      }
    }
  }

  lemma AppendedUsable(resolve: Resolver, addresses: seq<string>, a: string)
    ensures (forall i :: 0 <= i < |addresses + [a]| ==> AddressOk(resolve, (addresses + [a])[i])) <==>
            (forall i :: 0 <= i < |addresses| ==> AddressOk(resolve, addresses[i])) && AddressOk(resolve, a)
  {
    hide AddressOk;
    var longer := addresses + [a];
    assert longer[|addresses|] == a;
    assert forall i :: 0 <= i < |addresses| ==> longer[i] == addresses[i];
  }

  function KeyOf(net: Net, host: string, p: port): string {
    NormalizeHost(RouteHost(net, host, p))
  }

  /** The group that a discovered host is filed under. */
  function GroupFor(net: Net, cfg: ConfigV, host: string, p: port): string {
    ChosenName(cfg.backends, KeyOf(net, host, p))
  }

  /**
   * The file a discovery saves loads again exactly when: 0.0.0.0 is not among the addresses behind the host -
   * the address itself, or any address a lookup of the name returned; the key it is filed under does not
   * normalise away; and the new group name, trimmed, is a group.
   */
  lemma EditedFileLoadsIff(resolve: Resolver, net: Net, cfg: ConfigV, host: string, p: port, next: ConfigV)
    requires ResolvesLiterals(resolve) && KnowsLiterals(net) && Loadable(resolve, cfg)
    requires Edit(net, cfg, host, p) == Ok(Some(next))
    ensures Loadable(resolve, next) <==>
            && Is4(NO_ADDRESS) !in AddressesBehind(net, host)
            && NormalizeHost(KeyOf(net, host, p)) != []
            && TrimSpace(GroupFor(net, cfg, host, p)) in next.backends
  {
    hide ResolvesLiterals, KnowsLiterals, Loadable, Edit, NormalizeHost, RouteHost, TrimSpace, ChosenName, AddRoute,
      KeepQuads, AddressesBehind, AddressOk;
    EditAdds(net, cfg, host, p, next);
    ExtendedFileLoadsIff(resolve, cfg, KeyOf(net, host, p), KeepQuads(AddressesBehind(net, host), p));
    KeptUsableIff(resolve, AddressesBehind(net, host), p);
  }

  lemma TrimmedAuto()
    ensures TrimSpace("auto-a ") == "auto-a" && TrimSpace("a . ") == "a ."
  {
    TrimOne("auto-a");
    TrimOne("a .");
  }

  lemma TrimOne(s: string)
    requires s != [] && !IsSpace(s[0]) && !IsSpace(s[|s| - 1])
    ensures TrimSpace(s + " ") == s
  {
    assert (s + " ")[..|s|] == s;
    assert TrimRight(s + " ") == TrimRight(s) == s;
    assert TrimLeft(s + " ") == s + " ";
  }

  lemma SpacedName()
    ensures NormalizeHost("a . .") == "a . " && NormalizeHost("a . ") == "a "
    ensures TrimSpace("a . ") == "a ." && TrimSpace("auto-a ") == "auto-a"
    ensures BaseName("a ") == "auto-a "
  {
    TrimmedAuto();
    assert ToLower("a . .") == "a . ." && ToLower("a . ") == "a . ";
    TrimSpaceResult("a . .");
    assert TrimLeft("a . .") == "a . ." && TrimRight("a . .") == "a . .";
    assert "a . ."[..4] == "a . " && "a ."[..2] == "a ";
    assert Replace("a ", '.', '-') == "a " && Replace("a ", ':', '-') == "a ";
    assert "auto-" + "a " == "auto-a ";
  }

  /**
   * A name ending in dots and spaces spoils the file without 0.0.0.0: "a . ." is looked up as "a .", filed
   * under "a " in the group "auto-a ", and the group "auto-a" that its route is read as does not exist.
   */
  lemma SpacedNameSpoilsFile(resolve: Resolver, net: Net, cfg: ConfigV, q: Quad, p: port) returns (next: ConfigV)
    requires ResolvesLiterals(resolve) && KnowsLiterals(net) && Loadable(resolve, cfg)
    requires q != NO_ADDRESS && net.lookup("a .") == Some([Is4(q)])
    requires "a " !in cfg.routes && "auto-a " !in cfg.backends && "auto-a" !in cfg.backends
    ensures Edit(net, cfg, NormalizeHost("a . ."), p) == Ok(Some(next)) && !Loadable(resolve, next)
    ensures Is4(NO_ADDRESS) !in AddressesBehind(net, NormalizeHost("a . ."))
  {
    hide NormalizeHost, TrimSpace, BaseName, QuadPort, Loadable, ResolvesLiterals, AddRoute;
    SpacedName();
    assert EndsInDot("a .");
    assert net.parse("a .") == NotIP;
    OneKept(q, p);
    next := AddRoute(cfg, "a ", [QuadPort(q, p)]);
    SpacedAdded(cfg, [QuadPort(q, p)]);
    EditedFileLoadsIff(resolve, net, cfg, "a . ", p, next);
  }

  lemma SpacedAdded(cfg: ConfigV, addresses: seq<string>)
    requires "a " !in cfg.routes && "auto-a " !in cfg.backends && addresses != []
    ensures AddSpec(cfg, "a . ", addresses) == (AddRoute(cfg, "a ", addresses), Ok(true))
    ensures ChosenName(cfg.backends, "a ") == "auto-a "
    ensures AddRoute(cfg, "a ", addresses).backends.Keys == cfg.backends.Keys + {"auto-a "}
  {
    hide NormalizeHost, BaseName, DiscoveredGroup;
    SpacedName();
  }

  // ---------------------------------------------------------------- the reload that reads it

  /** A reload of the file succeeds: it is well formed and no host is emptied by two normalisations. */
  ghost predicate Servable(resolve: Resolver, file: ConfigV) {
    Loadable(resolve, file) && forall h :: h in file.routes ==> NormalizeHost(NormalizeHost(h)) != []
  }

  /** What must hold of a discovery for the file it saves to be of use. */
  ghost predicate Harmless(net: Net, cfg: ConfigV, host: string, p: port) {
    && Is4(NO_ADDRESS) !in AddressesBehind(net, host)
    && NormalizeHost(NormalizeHost(KeyOf(net, host, p))) != []
    && TrimSpace(GroupFor(net, cfg, host, p)) in cfg.backends.Keys + {GroupFor(net, cfg, host, p)}
  }

  lemma EmptyStaysEmpty()
    ensures NormalizeHost([]) == []
  {
  }

  lemma GroupsAdded(cfg: ConfigV, hostKey: string, addresses: seq<string>)
    ensures AddRoute(cfg, hostKey, addresses).backends.Keys == cfg.backends.Keys + {ChosenName(cfg.backends, hostKey)}
  {
    hide ChosenName, DiscoveredGroup;
  }

  lemma EditedFileServableIff(resolve: Resolver, net: Net, cfg: ConfigV, host: string, p: port, next: ConfigV)
    requires ResolvesLiterals(resolve) && KnowsLiterals(net) && Servable(resolve, cfg)
    requires Edit(net, cfg, host, p) == Ok(Some(next))
    ensures Servable(resolve, next) <==> Harmless(net, cfg, host, p)
  {
    hide ResolvesLiterals, KnowsLiterals, Loadable, Edit, NormalizeHost, RouteHost, TrimSpace, ChosenName, AddRoute,
      KeepQuads, AddressesBehind;
    EditAdds(net, cfg, host, p, next);
    EditedFileLoadsIff(resolve, net, cfg, host, p, next);
    RoutesAdded(cfg, KeyOf(net, host, p), KeepQuads(AddressesBehind(net, host), p));
    GroupsAdded(cfg, KeyOf(net, host, p), KeepQuads(AddressesBehind(net, host), p));
    EmptyStaysEmpty();
  }

  /** A discovery that may edit the file answers yes exactly when it is harmless. */
  lemma DiscoverySucceedsIff(resolve: Resolver, net: Net, cfg: ConfigV, v: Reload.Visits, host: string, p: port,
                             next: ConfigV)
    requires ResolvesLiterals(resolve) && KnowsLiterals(net) && Reload.AllFair(v)
    requires Servable(resolve, cfg) && Edit(net, cfg, host, p) == Ok(Some(next))
    ensures var (content, answer, target) := DiscoverSpec(net, resolve, v, false, cfg, host, p);
            && content == next
            && (answer == Ok(true) <==> Harmless(net, cfg, host, p))
            && (answer == Ok(true) <==> target.Some?)
            && (target.Some? ==> Reload.TargetSpec(resolve, Some(next), v) == Ok(target.value))
  {
    hide Edit, Reload.TargetSpec, Reload.AllFair, Loadable, NormalizeHost, Harmless, KnowsLiterals;
    EditedFileServableIff(resolve, net, cfg, host, p, next);
    ReloadLaws.ReloadSucceedsIff(resolve, next, v);
  }

  lemma TargetParts(resolve: Resolver, file: ConfigV, v: Reload.Visits, t: Reload.Target)
    returns (g: seq<string>, r: seq<string>, order: seq<string>)
    requires Reload.AllFair(v) && Reload.TargetSpec(resolve, Some(file), v) == Ok(t)
    ensures Loaded(resolve, file, g, r, t.cfg) && Enumerates(order, t.cfg.routes)
            && t.router == Build(t.cfg.routes, order)
  {
    hide Compile, Build, Acceptable, Enumerates, Reload.Fair;
    Reload.FairEnumerates(v.groups, file.backends);
    Reload.FairEnumerates(v.routes, file.routes);
    g, r := v.groups(file.backends.Keys), v.routes(file.routes.Keys);
    Reload.FairEnumerates(v.pools, t.cfg.routes);
    order := v.pools(t.cfg.routes.Keys);
  }

  // ---------------------------------------------------------------- one theorem for each kind of request

  /**
   * If no two host keys become one: every earlier host keeps its addresses exactly when no routed host refers
   * to the group that was written, or only such whose addresses are the new ones.
   */
  lemma EditKeepsHostsIff(resolve: Resolver, net: Net, cfg: ConfigV, host: string, p: port, next: ConfigV,
                          g0: seq<string>, r0: seq<string>, before: RuntimeConfig,
                          g1: seq<string>, r1: seq<string>, after: RuntimeConfig)
    requires KnowsLiterals(net) && Edit(net, cfg, host, p) == Ok(Some(next)) && DistinctKeys(next)
    requires Loaded(resolve, cfg, g0, r0, before) && Loaded(resolve, next, g1, r1, after)
    ensures HostsKept(before, after) <==>
            NobodyOverwritten(resolve, cfg, GroupFor(net, cfg, host, p), KeepQuads(AddressesBehind(net, host), p))
  {
    hide KnowsLiterals, Edit, Loaded, ChosenName, NormalizeHost, RouteHost, AddRoute, KeepQuads, AddressesBehind,
      NobodyOverwritten, HostsKept, DistinctKeys;
    EditAdds(net, cfg, host, p, next);
    HostsKeptIff(resolve, cfg, KeyOf(net, host, p), KeepQuads(AddressesBehind(net, host), p),
                 g0, r0, before, g1, r1, after);
  }

  lemma {:induction false} KeptStandForThemselves(resolve: Resolver, ips: seq<Literal>, p: port)
    requires ResolvesLiterals(resolve) && Is4(NO_ADDRESS) !in ips
    ensures CompileAddresses(resolve, KeepQuads(ips, p)) == Ok(KeepQuads(ips, p))
  {
    hide CompileAddress, QuadPort;
    if ips != [] {
      var n := |ips| - 1;
      KeptStandForThemselves(resolve, ips[..n], p);
      assert ips[n] in ips && forall ip :: ip in ips[..n] ==> ip in ips;
      if ips[n].Is4? {
        QuadStandsForItself(resolve, ips[n].quad, p);
        var kept := KeepQuads(ips, p);
        assert kept[..|kept| - 1] == KeepQuads(ips[..n], p);
      }
    }
  }

  lemma QuadStandsForItself(resolve: Resolver, q: Quad, p: port)
    requires ResolvesLiterals(resolve) && q != NO_ADDRESS
    ensures CompileAddress(resolve, QuadPort(q, p)) == Ok(QuadPort(q, p))
  {
    hide QuadPort, TrimSpace;
    QuadPortTrimmed(q, p);
    QuadPortChars(q, p);
    assert resolve(QuadPort(q, p)) == Some(TcpAddr(V4(q), p));
  }

  /** The group a route is read as is the one it was filed under, and its addresses stand for themselves. */
  lemma NewAddresses(resolve: Resolver, cfg: ConfigV, key: string, ips: seq<Literal>, p: port)
    requires ResolvesLiterals(resolve) && Is4(NO_ADDRESS) !in ips
    requires TrimSpace(ChosenName(cfg.backends, key)) == ChosenName(cfg.backends, key)
    ensures var next := AddRoute(cfg, key, KeepQuads(ips, p));
            && key in next.routes && GroupOf(next, key) in next.backends
            && HostAddresses(resolve, next, key) == KeepQuads(ips, p)
  {
    hide ChosenName, KeepQuads, CompileAddresses, TrimSpace;
    KeptStandForThemselves(resolve, ips, p);
  }

  /**
   * The pool a new name leads to: alone under its key, it holds what its group holds - the kept addresses, in
   * order, if the group name is trimmed.
   */
  lemma NewPool(resolve: Resolver, net: Net, cfg: ConfigV, name: string, p: port, next: ConfigV,
                g: seq<string>, r: seq<string>, after: RuntimeConfig, order: seq<string>)
    requires ResolvesLiterals(resolve) && KnowsLiterals(net) && Unrouted(cfg, name)
    requires Edit(net, cfg, NormalizeHost(name), p) == Ok(Some(next))
    requires Is4(NO_ADDRESS) !in AddressesBehind(net, NormalizeHost(name))
    requires Loaded(resolve, next, g, r, after) && Enumerates(order, after.routes)
    requires net.parse(TrimSpace(NormalizeHost(name))) == NotIP && CleanTail(NameKey(name))
    requires var group := GroupFor(net, cfg, NormalizeHost(name), p); TrimSpace(group) == group
    ensures NameKey(name) in Build(after.routes, order).pools
    ensures Build(after.routes, order).pools[NameKey(name)] ==
            FreshPool(KeepQuads(AddressesBehind(net, NormalizeHost(name)), p))
  {
    hide ResolvesLiterals, KnowsLiterals, Edit, Loaded, NormalizeHost, TrimSpace, RouteHost, AddRoute, KeepQuads,
      AddressesBehind, ChosenName, Build, FreshPool, GroupOf, HostAddresses, CleanTail;
    var host := NormalizeHost(name);
    var key := NormalizeHost(host);
    EditAdds(net, cfg, host, p, next);
    FiledKey(net, name, p);
    OwnKeyFoundIff(name);
    RoutesAdded(cfg, key, KeepQuads(AddressesBehind(net, host), p));
    NewAddresses(resolve, cfg, key, AddressesBehind(net, host), p);
    AloneUnderKey(cfg, name, key, next);
    SoleRoute(resolve, next, g, r, after, key);
    forall k | k in after.routes && NormalizeHost(k) == NormalizeHost(NormalizeHost(key))
      ensures k == NormalizeHost(key)
    {
      var h := TableKeyHost(resolve, next, g, r, after, k);
    }
    SolePool(after.routes, order, NormalizeHost(key));
  }

  /** No other host has the new key's table key or pool key, because the name was not routed. */
  lemma AloneUnderKey(cfg: ConfigV, name: string, key: string, next: ConfigV)
    requires Unrouted(cfg, name) && next.routes.Keys == cfg.routes.Keys + {key}
    requires key == NormalizeHost(NormalizeHost(name)) && NormalizeHost(NormalizeHost(key)) == NameKey(name)
    ensures SoleKey(next, key)
    ensures forall h :: h in next.routes && NormalizeHost(NormalizeHost(h)) == NameKey(name) ==> h == key
  {
    hide NormalizeHost;
  }

  /**
   * A request by a name that is not routed, on a file that is being served. If its discovery gets to save, it
   * answers yes exactly when it is harmless. If it does: the retry finds a pool exactly when the name is not
   * the text of an IP address and three rounds settle it - the pool of all IPv4 addresses that the lookup
   * returned, if the group name is trimmed; and, no two host keys becoming one, every earlier host keeps its
   * addresses exactly when nobody's group was overwritten with others.
   */
  lemma DiscoveredName(resolve: Resolver, net: Net, cfg: ConfigV, v: Reload.Visits, name: string, p: port,
                       next: ConfigV, g0: seq<string>, r0: seq<string>, before: RuntimeConfig)
    requires ResolvesLiterals(resolve) && KnowsLiterals(net) && Reload.AllFair(v)
    requires Servable(resolve, cfg) && Loaded(resolve, cfg, g0, r0, before) && Unrouted(cfg, name)
    requires Edit(net, cfg, NormalizeHost(name), p) == Ok(Some(next))
    ensures var host := NormalizeHost(name);
            var (content, answer, target) := DiscoverSpec(net, resolve, v, false, cfg, host, p);
            var kept, group := KeepQuads(AddressesBehind(net, host), p), GroupFor(net, cfg, host, p);
            var settled := net.parse(TrimSpace(host)) == NotIP && CleanTail(NameKey(name));
            && content == next
            && (answer == Ok(true) <==> Harmless(net, cfg, host, p))
            && (answer == Ok(true) <==> target.Some?)
            && (target.Some? ==> (NameKey(name) in target.value.router.pools <==> settled))
            && (target.Some? && settled && TrimSpace(group) == group ==>
                  target.value.router.pools[NameKey(name)] == FreshPool(kept))
            && (target.Some? && DistinctKeys(next) ==>
                  (HostsKept(before, target.value.cfg) <==> NobodyOverwritten(resolve, cfg, group, kept)))
  {
    hide ResolvesLiterals, KnowsLiterals, Reload.AllFair, Servable, Loaded, Unrouted, Edit, NormalizeHost, DiscoverSpec,
      KeepQuads, AddressesBehind, GroupFor, TrimSpace, CleanTail, NameKey, FreshPool, DistinctKeys, HostsKept,
      NobodyOverwritten, Reload.TargetSpec, Build, Enumerates;
    var host := NormalizeHost(name);
    DiscoverySucceedsIff(resolve, net, cfg, v, host, p, next);
    var target := DiscoverSpec(net, resolve, v, false, cfg, host, p).2;
    if target.Some? {
      var g, r, order := TargetParts(resolve, next, v, target.value);
      RetriedNameFoundIff(resolve, net, cfg, name, p, next, g, r, target.value.cfg, order);
      var group := GroupFor(net, cfg, host, p);
      if net.parse(TrimSpace(host)) == NotIP && CleanTail(NameKey(name)) && TrimSpace(group) == group {
        NewPool(resolve, net, cfg, name, p, next, g, r, target.value.cfg, order);
      }
      if DistinctKeys(next) {
        EditKeepsHostsIff(resolve, net, cfg, host, p, next, g0, r0, before, g, r, target.value.cfg);
      }
    }
  }

  lemma LoadedIsLoadable(resolve: Resolver, cfg: ConfigV, g: seq<string>, r: seq<string>, rc: RuntimeConfig)
    requires Loaded(resolve, cfg, g, r, rc)
    ensures Loadable(resolve, cfg)
  {
    hide Compile, Loadable, Enumerates;
    LoadsIff(resolve, cfg, g, r);
  }

  /** An IPv4 request that is not routed always gets its address and port added to the file. */
  lemma QuadAlwaysSaved(net: Net, cfg: ConfigV, q: Quad, p: port)
    requires KnowsLiterals(net) && QuadPort(q, p) !in cfg.routes
    ensures Edit(net, cfg, DottedQuad(q), p) == Ok(Some(AddRoute(cfg, QuadPort(q, p), [QuadPort(q, p)])))
    ensures AddressesBehind(net, DottedQuad(q)) == [Is4(q)]
            && NormalizeHost(RouteHost(net, DottedQuad(q), p)) == QuadPort(q, p)
  {
    hide DottedQuad, QuadPort, NormalizeHost, TrimSpace, AddRoute;
    QuadTextNormal(q);
    QuadKeyNormal(q, p);
    assert net.parse(DottedQuad(q)) == Is4(q);
    NewKeyAdded(cfg, QuadPort(q, p), [QuadPort(q, p)]);
  }

  lemma NormalFileServableIff(resolve: Resolver, file: ConfigV)
    requires NormalKeys(file)
    ensures Servable(resolve, file) <==> Loadable(resolve, file)
  {
    hide NormalizeHost, CheckSettings, GroupsOk, TrimSpace;
    if Loadable(resolve, file) {
      forall h | h in file.routes
        ensures NormalizeHost(NormalizeHost(h)) != []
      {
        assert IsNormal(h) && RouteOk(file, h);
      }
    }
  }

  /** For an address only 0.0.0.0 does harm. */
  lemma QuadHarmlessIff(net: Net, cfg: ConfigV, q: Quad, p: port)
    requires KnowsLiterals(net) && QuadPort(q, p) !in cfg.routes
    ensures Harmless(net, cfg, DottedQuad(q), p) <==> q != NO_ADDRESS
    ensures GroupFor(net, cfg, DottedQuad(q), p) == ChosenName(cfg.backends, QuadPort(q, p))
  {
    hide DottedQuad, QuadPort, NormalizeHost, TrimSpace, AddRoute, ChosenName, RouteHost, Edit, KnowsLiterals,
      AddressesBehind;
    QuadAlwaysSaved(net, cfg, q, p);
    QuadKeyNormal(q, p);
    assert NoTrailingSpace(QuadPort(q, p)) by {
      NormalTail(QuadPort(q, p));
    }
    AutoName(cfg.backends, QuadPort(q, p));
  }

  lemma NormalTail(s: string)
    requires IsNormal(s)
    ensures NoTrailingSpace(s)
  {
    NormalizedShape(s);
    FixpointIffCleanTail(s);
  }

  /**
   * A request for an IPv4 address that is not routed, on a file with normal keys that loads: its discovery
   * always saves, and answers yes exactly when the address is not 0.0.0.0. If it does, the retry finds a pool
   * that holds the address; and every earlier host keeps its addresses exactly when nobody's group was
   * overwritten with others.
   */
  lemma DiscoveredQuad(resolve: Resolver, net: Net, cfg: ConfigV, v: Reload.Visits, q: Quad, p: port,
                       g0: seq<string>, r0: seq<string>, before: RuntimeConfig)
    requires ResolvesLiterals(resolve) && KnowsLiterals(net) && Reload.AllFair(v)
    requires Loaded(resolve, cfg, g0, r0, before) && NormalKeys(cfg) && QuadPort(q, p) !in cfg.routes
    ensures var (content, answer, target) := DiscoverSpec(net, resolve, v, false, cfg, DottedQuad(q), p);
            && content == AddRoute(cfg, QuadPort(q, p), [QuadPort(q, p)])
            && (answer == Ok(true) <==> q != NO_ADDRESS)
            && (answer == Ok(true) <==> target.Some?)
            && (target.Some? ==> LeadsToPool(target.value.router, QuadPort(q, p)))
            && (target.Some? ==>
                  (HostsKept(before, target.value.cfg) <==>
                   NobodyOverwritten(resolve, cfg, ChosenName(cfg.backends, QuadPort(q, p)), [QuadPort(q, p)])))
  {
    hide *;
    QuadAlwaysSaved(net, cfg, q, p);
    LoadedIsLoadable(resolve, cfg, g0, r0, before);
    NormalFileServableIff(resolve, cfg);
    QuadHarmlessIff(net, cfg, q, p);
    OneKept(q, p);
    var next := AddRoute(cfg, QuadPort(q, p), [QuadPort(q, p)]);
    DiscoverySucceedsIff(resolve, net, cfg, v, DottedQuad(q), p, next);
    var target := DiscoverSpec(net, resolve, v, false, cfg, DottedQuad(q), p).2;
    if target.Some? {
      var g, r, order := TargetParts(resolve, next, v, target.value);
      RetriedQuadFound(resolve, cfg, q, p, g, r, target.value.cfg, order);
      QuadKeyNormal(q, p);
      NormalKeyKept(cfg, QuadPort(q, p), [QuadPort(q, p)]);
      NormalKeysDistinct(next);
      EditKeepsHostsIff(resolve, net, cfg, DottedQuad(q), p, next, g0, r0, before, g, r, target.value.cfg);
    }
  }
}
