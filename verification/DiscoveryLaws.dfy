/** What a discovered route changes, when the file still loads, and whether the retried request finds it. */
module DiscoveryLaws {
  import opened Text
  import opened Hosts
  import opened Addresses
  import opened Router
  import opened Config
  import opened ConfigLaws
  import opened Discovery

  // ---------------------------------------------------------------- what is kept

  /** Every group that was there is there unchanged. */
  ghost predicate GroupsKept(before: ConfigV, after: ConfigV) {
    forall g :: g in before.backends ==> g in after.backends && after.backends[g] == before.backends[g]
  }

  /** Adding a route keeps every group exactly when the chosen name is free, or its group is already the same. */
  lemma GroupsKeptIff(cfg: ConfigV, hostKey: string, addresses: seq<string>)
    ensures var name := ChosenName(cfg.backends, hostKey);
            GroupsKept(cfg, AddRoute(cfg, hostKey, addresses)) <==>
            name !in cfg.backends || cfg.backends[name] == DiscoveredGroup(addresses)
  {
    hide ChosenName, DiscoveredGroup;
  }

  /** The chosen name is free exactly when the base name or the fallback name is. */
  lemma FreeNameIff(cfg: ConfigV, hostKey: string)
    ensures ChosenName(cfg.backends, hostKey) !in cfg.backends <==>
            BaseName(hostKey) !in cfg.backends || FallbackName(BaseName(hostKey), |cfg.backends|) !in cfg.backends
  {
    hide BaseName, FallbackName;
  }

  lemma OneMoreGroup(m: map<string, BackendGroup>, k: string, g: BackendGroup)
    requires k !in m
    ensures |m[k := g]| == |m| + 1
  {
    assert m[k := g].Keys == m.Keys + {k};
  }

  lemma PlainKeyNormal(key: string)
    requires Lowered(key) && NoLeadingSpace(key) && CleanTail(key)
    ensures NormalizeHost(key) == key
  {
    FixpointIffCleanTail(key);
  }

  lemma NewKeyAdded(cfg: ConfigV, hostKey: string, addresses: seq<string>)
    requires NormalizeHost(hostKey) == hostKey != [] && hostKey !in cfg.routes && addresses != []
    ensures AddSpec(cfg, hostKey, addresses) == (AddRoute(cfg, hostKey, addresses), Ok(true))
  {
    hide NormalizeHost, AddRoute;
  }

  /**
   * The fallback name can collide: with one group in the file, discovering a-b, then a.b.3, then a.b puts
   * a.b's addresses under the group that a.b.3 is routed to.
   */
  lemma FallbackNameCollides(cfg: ConfigV, first: seq<string>, second: seq<string>, third: seq<string>)
    requires |cfg.backends| == 1 && "auto-a-b" !in cfg.backends && "auto-a-b-3" !in cfg.backends
    requires "a-b" !in cfg.routes && "a.b.3" !in cfg.routes && "a.b" !in cfg.routes
    requires first != [] && second != [] && third != []
    ensures var (c1, r1) := AddSpec(cfg, "a-b", first);
            var (c2, r2) := AddSpec(c1, "a.b.3", second);
            var (c3, r3) := AddSpec(c2, "a.b", third);
            && r1 == r2 == r3 == Ok(true)
            && "a.b.3" in c2.routes && "a.b.3" in c3.routes
            && "auto-a-b-3" in c2.backends && "auto-a-b-3" in c3.backends
            && c2.routes["a.b.3"] == c3.routes["a.b.3"] == "auto-a-b-3"
            && c2.backends["auto-a-b-3"] == DiscoveredGroup(second)
            && c3.backends["auto-a-b-3"] == DiscoveredGroup(third)
  {
    hide AddSpec, NormalizeHost, BaseName, FallbackName, DiscoveredGroup, ChosenName, AddRoute;
    PlainKeyNormal("a-b");
    PlainKeyNormal("a.b.3");
    PlainKeyNormal("a.b");
    CollidingAdditions(cfg, first, second, third);
    var c1 := AddRoute(cfg, "a-b", first);
    var c2 := AddRoute(c1, "a.b.3", second);
    RoutesAdded(cfg, "a-b", first);
    RoutesAdded(c1, "a.b.3", second);
    NewKeyAdded(cfg, "a-b", first);
    NewKeyAdded(c1, "a.b.3", second);
    NewKeyAdded(c2, "a.b", third);
  }

  lemma CollidingAdditions(cfg: ConfigV, first: seq<string>, second: seq<string>, third: seq<string>)
    requires |cfg.backends| == 1 && "auto-a-b" !in cfg.backends && "auto-a-b-3" !in cfg.backends
    ensures var c2 := AddRoute(AddRoute(cfg, "a-b", first), "a.b.3", second);
            var c3 := AddRoute(c2, "a.b", third);
            && "a.b.3" in c2.routes && "a.b.3" in c3.routes
            && c2.routes["a.b.3"] == c3.routes["a.b.3"] == "auto-a-b-3"
            && "auto-a-b-3" in c2.backends && c2.backends["auto-a-b-3"] == DiscoveredGroup(second)
            && "auto-a-b-3" in c3.backends && c3.backends["auto-a-b-3"] == DiscoveredGroup(third)
  {
    hide BaseName, FallbackName, DiscoveredGroup;
    CollidingNames();
    OneMoreGroup(cfg.backends, "auto-a-b", DiscoveredGroup(first));
    OneMoreGroup(cfg.backends["auto-a-b" := DiscoveredGroup(first)], "auto-a-b-3", DiscoveredGroup(second));
  }

  lemma CollidingNames()
    ensures BaseName("a-b") == BaseName("a.b") == "auto-a-b" && BaseName("a.b.3") == "auto-a-b-3"
    ensures FallbackName("auto-a-b", 3) == "auto-a-b-3"
  {
    assert Replace("a-b", '.', '-') == "a-b" && Replace("a-b", ':', '-') == "a-b";
    assert Replace("a.b", '.', '-') == "a-b";
    assert Replace("a.b.3", '.', '-') == "a-b-3" && Replace("a-b-3", ':', '-') == "a-b-3";
    assert "auto-" + "a-b" == "auto-a-b" && "auto-" + "a-b-3" == "auto-a-b-3";
    assert Decimal(3) == "3" && "auto-a-b" + "-" + "3" == "auto-a-b-3";
  }

  lemma RoutesAdded(cfg: ConfigV, hostKey: string, addresses: seq<string>)
    ensures AddRoute(cfg, hostKey, addresses).routes.Keys == cfg.routes.Keys + {hostKey}
  {
    hide ChosenName, DiscoveredGroup;
  }

  // ---------------------------------------------------------------- does the file still load?

  lemma AutoName(backends: map<string, BackendGroup>, hostKey: string)
    ensures var name := ChosenName(backends, hostKey);
            && TrimSpace(name) != []
            && (NoTrailingSpace(hostKey) ==> TrimSpace(name) == name)
  {
    var base := BaseName(hostKey);
    assert |base| == 5 + |hostKey| && base[0] == 'a';
    assert hostKey != [] && !IsSpace(hostKey[|hostKey| - 1]) ==> !IsSpace(base[|base| - 1]);
    assert hostKey == [] ==> base[|base| - 1] == '-';
    var name := ChosenName(backends, hostKey);
    DecimalReads(|backends|);
    assert name[0] == 'a' && (NoTrailingSpace(hostKey) ==> NoTrailingSpace(name));
    TrimSpaceResult(name);
    TrimStart(name);
  }

  lemma TrimStart(s: string)
    requires s != [] && !IsSpace(s[0])
    ensures TrimSpace(s) != []
  {
    TrimRightDropsSpaces(s);
  }

  lemma DiscoveredGroupOk(resolve: Resolver, s: Settings, key: string, addresses: seq<string>)
    requires CheckSettings(resolve, s).None? && TrimSpace(key) != [] && addresses != []
    ensures GroupOk(resolve, s, key, DiscoveredGroup(addresses)) <==>
            forall i :: 0 <= i < |addresses| ==> AddressOk(resolve, addresses[i])
  {
    hide AddressOk, TrimSpace;
  }

  /**
   * After adding a route to a file that loads, the file loads again exactly when every new address resolves to
   * a concrete IP, the new key does not normalise away, and the trimmed group name is a group.
   */
  lemma ExtendedFileLoadsIff(resolve: Resolver, cfg: ConfigV, hostKey: string, addresses: seq<string>)
    requires Loadable(resolve, cfg) && hostKey !in cfg.routes && addresses != []
    ensures var after := AddRoute(cfg, hostKey, addresses);
            Loadable(resolve, after) <==>
            && (forall i :: 0 <= i < |addresses| ==> AddressOk(resolve, addresses[i]))
            && NormalizeHost(hostKey) != []
            && TrimSpace(ChosenName(cfg.backends, hostKey)) in after.backends
  {
    hide NormalizeHost, TrimSpace, ChosenName, DiscoveredGroup, GroupOk, AddressOk, CheckSettings;
    var after, name := AddRoute(cfg, hostKey, addresses), ChosenName(cfg.backends, hostKey);
    AutoName(cfg.backends, hostKey);
    DiscoveredGroupOk(resolve, cfg.settings, name, addresses);
    assert GroupsOk(resolve, after) <==> GroupOk(resolve, cfg.settings, name, DiscoveredGroup(addresses)) by {
      assert after.backends[name] == DiscoveredGroup(addresses);
      assert forall g :: g in cfg.backends ==> GroupOk(resolve, cfg.settings, g, cfg.backends[g]);
    }
    assert RouteOk(after, hostKey) <==> NormalizeHost(hostKey) != [] && TrimSpace(name) in after.backends;
    assert RoutesOk(after) <==> RouteOk(after, hostKey) by {
      forall h | h in cfg.routes
        ensures RouteOk(after, h)
      {
        assert RouteOk(cfg, h);
      }
    }
  }

  /** For a key in normal form only the addresses matter. */
  lemma NormalKeyLoadsIff(resolve: Resolver, cfg: ConfigV, hostKey: string, addresses: seq<string>)
    requires Loadable(resolve, cfg) && hostKey !in cfg.routes && addresses != [] && IsNormal(hostKey) && hostKey != []
    ensures Loadable(resolve, AddRoute(cfg, hostKey, addresses)) <==>
            forall i :: 0 <= i < |addresses| ==> AddressOk(resolve, addresses[i])
  {
    ExtendedFileLoadsIff(resolve, cfg, hostKey, addresses);
    NormalizedShape(hostKey);
    FixpointIffCleanTail(hostKey);
    AutoName(cfg.backends, hostKey);
    hide Loadable, ChosenName, DiscoveredGroup, AddressOk;
  }

  /** A discovered IPv4 address always gets a loadable route, unless it is 0.0.0.0, which spoils the file. */
  lemma DiscoveredQuadLoadsIff(resolve: Resolver, cfg: ConfigV, q: Quad, p: port)
    requires Loadable(resolve, cfg) && ResolvesLiterals(resolve) && QuadPort(q, p) !in cfg.routes
    ensures Loadable(resolve, AddRoute(cfg, QuadPort(q, p), [QuadPort(q, p)])) <==> q != Quad(0, 0, 0, 0)
  {
    QuadKeyNormal(q, p);
    QuadPortTrimmed(q, p);
    hide QuadPort, Loadable, TrimSpace, NormalizeHost, AddRoute;
    NormalKeyLoadsIff(resolve, cfg, QuadPort(q, p), [QuadPort(q, p)]);
    QuadOk(resolve, q, p);
    assert [QuadPort(q, p)][0] == QuadPort(q, p);
  }

  lemma QuadOk(resolve: Resolver, q: Quad, p: port)
    requires ResolvesLiterals(resolve)
    ensures AddressOk(resolve, QuadPort(q, p)) <==> q != Quad(0, 0, 0, 0)
  {
    hide QuadPort, TrimSpace;
    QuadPortTrimmed(q, p);
    QuadPortChars(q, p);
    assert resolve(QuadPort(q, p)) == Some(TcpAddr(V4(q), p));
  }

  lemma QuadKeyNormal(q: Quad, p: port)
    ensures IsNormal(QuadPort(q, p)) && QuadPort(q, p) != []
  {
    var s := QuadPort(q, p);
    QuadPortChars(q, p);
    hide QuadPort;
    assert Lowered(s);
    FixpointIffCleanTail(s);
  }

  // ---------------------------------------------------------------- earlier hosts, and the new one

  lemma NormalKeyKept(cfg: ConfigV, hostKey: string, addresses: seq<string>)
    requires NormalKeys(cfg) && IsNormal(hostKey)
    ensures NormalKeys(AddRoute(cfg, hostKey, addresses))
  {
    hide NormalizeHost, ChosenName;
  }

  /** The new route's group is the discovered one; with a free name the earlier routes keep theirs. */
  lemma AddedAddresses(resolve: Resolver, cfg: ConfigV, hostKey: string, addresses: seq<string>)
    requires IsNormal(hostKey) && hostKey !in cfg.routes
    ensures var next := AddRoute(cfg, hostKey, addresses);
            && next.routes.Keys == cfg.routes.Keys + {hostKey}
            && GroupOf(next, hostKey) == ChosenName(cfg.backends, hostKey)
            && GroupOf(next, hostKey) in next.backends
            && next.backends[GroupOf(next, hostKey)] == DiscoveredGroup(addresses)
            && HostAddresses(resolve, next, hostKey) == AddressesOf(resolve, DiscoveredGroup(addresses))
    ensures var next := AddRoute(cfg, hostKey, addresses);
            ChosenName(cfg.backends, hostKey) !in cfg.backends ==>
              forall h :: h in cfg.routes && GroupOf(cfg, h) in cfg.backends ==>
                GroupOf(next, h) in next.backends && HostAddresses(resolve, next, h) == HostAddresses(resolve, cfg, h)
  {
    assert NoTrailingSpace(hostKey) by {
      NormalizedShape(hostKey);
      FixpointIffCleanTail(hostKey);
    }
    AutoName(cfg.backends, hostKey);
    hide NormalizeHost, ChosenName, DiscoveredGroup, AddressesOf, TrimSpace;
  }

  /** With normal keys a host's table entry is its group's address list. */
  lemma TableEntries(resolve: Resolver, cfg: ConfigV, groupOrder: seq<string>, routeOrder: seq<string>,
                     rc: RuntimeConfig)
    requires Loaded(resolve, cfg, groupOrder, routeOrder, rc) && NormalKeys(cfg)
    ensures rc.routes.Keys == cfg.routes.Keys
    ensures forall h :: h in cfg.routes ==>
            GroupOf(cfg, h) in cfg.backends && rc.routes[h] == HostAddresses(resolve, cfg, h)
  {
    NormalTable(resolve, cfg, groupOrder, routeOrder, rc);
    hide Loaded, IsNormal, NormalizeHost, GroupOf, HostAddresses, NormalKeys;
    forall h | h in cfg.routes
      ensures GroupOf(cfg, h) in cfg.backends && rc.routes[h] == HostAddresses(resolve, cfg, h)
    {
      assert ComesFrom(resolve, cfg, TablesOf(rc), h, h);
    }
  }

  /**
   * With normal keys and a free name: after the reload every earlier host has the very list it had, and the
   * new host has the discovered addresses.
   */
  lemma DiscoveryIsConservative(resolve: Resolver, cfg: ConfigV, hostKey: string, addresses: seq<string>,
                                g0: seq<string>, r0: seq<string>, before: RuntimeConfig,
                                g1: seq<string>, r1: seq<string>, after: RuntimeConfig)
    requires NormalKeys(cfg) && IsNormal(hostKey) && hostKey !in cfg.routes
    requires ChosenName(cfg.backends, hostKey) !in cfg.backends
    requires Loaded(resolve, cfg, g0, r0, before)
    requires Loaded(resolve, AddRoute(cfg, hostKey, addresses), g1, r1, after)
    ensures after.routes.Keys == before.routes.Keys + {hostKey}
    ensures forall h :: h in before.routes ==> after.routes[h] == before.routes[h]
    ensures after.routes[hostKey] == AddressesOf(resolve, DiscoveredGroup(addresses))
  {
    hide *;
    NormalKeyKept(cfg, hostKey, addresses);
    AddedAddresses(resolve, cfg, hostKey, addresses);
    TableEntries(resolve, cfg, g0, r0, before);
    TableEntries(resolve, AddRoute(cfg, hostKey, addresses), g1, r1, after);
  }

  /** Adding a route changes nothing about the other routes but what their group holds. */
  lemma OtherRoutes(resolve: Resolver, cfg: ConfigV, hostKey: string, addresses: seq<string>, h: string)
    requires hostKey !in cfg.routes && h in cfg.routes && GroupOf(cfg, h) in cfg.backends
    ensures var next, name := AddRoute(cfg, hostKey, addresses), ChosenName(cfg.backends, hostKey);
            && h in next.routes && GroupOf(next, h) == GroupOf(cfg, h) && GroupOf(cfg, h) in next.backends
            && HostAddresses(resolve, next, h) ==
               if GroupOf(cfg, h) == name then AddressesOf(resolve, DiscoveredGroup(addresses))
               else HostAddresses(resolve, cfg, h)
  {
    hide ChosenName, DiscoveredGroup, AddressesOf, TrimSpace;
  }

  ghost predicate HostsKept(before: RuntimeConfig, after: RuntimeConfig) {
    forall k :: k in before.routes ==> k in after.routes && after.routes[k] == before.routes[k]
  }

  /** No routed host refers to the group that is written, unless its addresses are the written ones anyway. */
  ghost predicate NobodyOverwritten(resolve: Resolver, cfg: ConfigV, name: string, addresses: seq<string>) {
    forall h :: h in cfg.routes && GroupOf(cfg, h) in cfg.backends && GroupOf(cfg, h) == name ==>
      HostAddresses(resolve, cfg, h) == AddressesOf(resolve, DiscoveredGroup(addresses))
  }

  /**
   * If no two host keys become one: after the reload every earlier host has the very list it had exactly when
   * no routed host refers to the group name that was chosen, or only such whose addresses are the new ones.
   */
  lemma HostsKeptIff(resolve: Resolver, cfg: ConfigV, hostKey: string, addresses: seq<string>,
                     g0: seq<string>, r0: seq<string>, before: RuntimeConfig,
                     g1: seq<string>, r1: seq<string>, after: RuntimeConfig)
    requires hostKey !in cfg.routes && DistinctKeys(AddRoute(cfg, hostKey, addresses))
    requires Loaded(resolve, cfg, g0, r0, before)
    requires Loaded(resolve, AddRoute(cfg, hostKey, addresses), g1, r1, after)
    ensures HostsKept(before, after) <==>
            NobodyOverwritten(resolve, cfg, ChosenName(cfg.backends, hostKey), addresses)
  {
    hide Loaded, NormalizeHost, ChosenName, DiscoveredGroup, AddRoute, AddressesOf, GroupOf, HostAddresses;
    var next := AddRoute(cfg, hostKey, addresses);
    RoutesAdded(cfg, hostKey, addresses);
    forall h | h in cfg.routes
      ensures GroupOf(cfg, h) in cfg.backends && NormalizeHost(h) in before.routes && NormalizeHost(h) in after.routes
      ensures after.routes[NormalizeHost(h)] == before.routes[NormalizeHost(h)] <==>
              (GroupOf(cfg, h) == ChosenName(cfg.backends, hostKey) ==>
                 HostAddresses(resolve, cfg, h) == AddressesOf(resolve, DiscoveredGroup(addresses)))
    {
      SoleRoute(resolve, cfg, g0, r0, before, h);
      SoleRoute(resolve, next, g1, r1, after, h);
      OtherRoutes(resolve, cfg, hostKey, addresses, h);
    }
    forall k | k in before.routes
      ensures exists h :: h in cfg.routes && NormalizeHost(h) == k
    {
      var h := TableKeyHost(resolve, cfg, g0, r0, before, k);
    }
  }

  predicate EndsInDot(s: string) {
    s != [] && s[|s| - 1] == '.'
  }

  /**
   * net.ParseIP reads back IPv4 texts, and neither an "ip:port" nor a text ending in a dot; and looking up an
   * IPv6 literal yields that literal.
   */
  ghost predicate KnowsLiterals(net: Net) {
    && ParsesQuads(net)
    && (forall q: Quad, p: port :: net.parse(QuadPort(q, p)) == NotIP)
    && (forall s :: EndsInDot(s) ==> net.parse(s) == NotIP)
    && (forall h :: net.parse(h).Is6? ==> net.lookup(h) == Some([net.parse(h)]))
  }

  /** A parser that knows IPv4 texts and nothing else. */
  ghost function QuadsOnly(s: string): Literal {
    if q: Quad :| s == DottedQuad(q) then Is4(q) else NotIP
  }

  /** There is such a library: no text stands for two addresses, and no "ip:port" for one. */
  lemma LiteralsAreKnown()
    ensures KnowsLiterals(Net(s => QuadsOnly(s), s => None))
  {
    hide DottedQuad, QuadPort;
    forall q: Quad
      ensures QuadsOnly(DottedQuad(q)) == Is4(q)
    {
      var s := DottedQuad(q);
      assert exists x: Quad :: s == DottedQuad(x);
      assert QuadsOnly(s).Is4? && s == DottedQuad(QuadsOnly(s).quad);
      DottedQuadInjective(q, QuadsOnly(s).quad);
    }
    forall q: Quad, p: port
      ensures QuadsOnly(QuadPort(q, p)) == NotIP
    {
      HasColon(q, p);
      if x: Quad :| QuadPort(q, p) == DottedQuad(x) {
        NoColon(x);
        assert false;
      }
    }
    forall s | EndsInDot(s)
      ensures QuadsOnly(s) == NotIP
    {
      if x: Quad :| s == DottedQuad(x) {
        NoColon(x);
        assert false;
      }
    }
  }

  lemma HasColon(q: Quad, p: port)
    ensures ':' in QuadPort(q, p)
  {
    assert QuadPort(q, p)[|DottedQuad(q)|] == ':';
  }

  lemma NoColon(q: Quad)
    ensures ':' !in DottedQuad(q) && !EndsInDot(DottedQuad(q))
  {
    DecimalReads(q.a); DecimalReads(q.b); DecimalReads(q.c); DecimalReads(q.d);
  }

  /** The addresses a host stands for. */
  function AddressesBehind(net: Net, host: string): seq<Literal> {
    var h := TrimSpace(host);
    if net.parse(h).Is4? then [net.parse(h)]
    else match net.lookup(h)
      case None => []
      case Some(ips) => ips
  }

  /** What has been added when a discovery gets to save. */
  lemma EditAdds(net: Net, cfg: ConfigV, host: string, p: port, next: ConfigV)
    requires KnowsLiterals(net) && Edit(net, cfg, host, p) == Ok(Some(next))
    ensures var key, kept := NormalizeHost(RouteHost(net, host, p)), KeepQuads(AddressesBehind(net, host), p);
            && key != [] && key !in cfg.routes && kept != [] && next == AddRoute(cfg, key, kept)
    ensures !net.parse(TrimSpace(host)).Is6?
  {
    var h := TrimSpace(host);
    hide NormalizeHost, TrimSpace, AddRoute, QuadPort, RouteHost;
    if net.parse(h).Is6? {
      assert net.lookup(h) == Some([net.parse(h)]);
      NothingKept(net.parse(h), p);
    }
    if net.parse(h).Is4? {
      OneKept(net.parse(h).quad, p);
    }
  }

  lemma NothingKept(ip: Literal, p: port)
    requires !ip.Is4?
    ensures KeepQuads([ip], p) == []
  {
    assert [ip][..0] == [];
  }

  lemma OneKept(q: Quad, p: port)
    ensures KeepQuads([Is4(q)], p) == [QuadPort(q, p)]
  {
    hide QuadPort;
    assert [Is4(q)][..0] == [];
  }

  /** The text of an address is settled after one more round. */
  lemma AddressTextSettles(net: Net, name: string)
    requires KnowsLiterals(net) && net.parse(TrimSpace(NormalizeHost(name))) != NotIP
    ensures var t := TrimSpace(NormalizeHost(name)); NormalizeHost(NormalizeHost(name)) == t && NameKey(name) == t
  {
    var h := NormalizeHost(name);
    var t := TrimSpace(h);
    NormalizedShape(name);
    TrimSpaceResult(h);
    assert !EndsInDot(t);
    LowerOfLowered(h);
    assert NormalizeHost(h) == t;
    assert Lowered(t) && NoLeadingSpace(t) && CleanTail(t);
    FixpointIffCleanTail(t);
  }

  /** A saved host's key: its own name, normalised once more, or the ip:port it stands for. */
  lemma FiledKey(net: Net, name: string, p: port)
    requires KnowsLiterals(net) && !net.parse(TrimSpace(NormalizeHost(name))).Is6?
    ensures var host := NormalizeHost(name);
            var key, ip := NormalizeHost(RouteHost(net, host, p)), net.parse(TrimSpace(host));
            && (ip == NotIP ==> key == NormalizeHost(host))
            && (ip.Is4? ==> key == QuadPort(ip.quad, p) && IsNormal(key) && NameKey(name) != key)
  {
    hide NormalizeHost, QuadPort, TrimSpace;
    var host := NormalizeHost(name);
    var ip := net.parse(TrimSpace(host));
    if ip.Is4? {
      QuadKeyNormal(ip.quad, p);
      AddressTextSettles(net, name);
      assert net.parse(QuadPort(ip.quad, p)) == NotIP;
    }
  }

  /** A request by the name finds no pool in a router built from the file. */
  ghost predicate Unrouted(cfg: ConfigV, name: string) {
    forall h :: h in cfg.routes ==> NormalizeHost(NormalizeHost(h)) != NameKey(name)
  }

  /** The name is found under the pool key of the key it was filed under, or not at all. */
  lemma FiledKeyDecides(resolve: Resolver, cfg: ConfigV, name: string, key: string, addresses: seq<string>,
                        g: seq<string>, r: seq<string>, after: RuntimeConfig, order: seq<string>)
    requires Unrouted(cfg, name)
    requires Loaded(resolve, AddRoute(cfg, key, addresses), g, r, after) && Enumerates(order, after.routes)
    ensures NameKey(name) in Build(after.routes, order).pools <==> NormalizeHost(NormalizeHost(key)) == NameKey(name)
  {
    hide Loaded, NormalizeHost, Build, NameKey, AddRoute;
    RoutesAdded(cfg, key, addresses);
    NameRoutedIff(resolve, AddRoute(cfg, key, addresses), g, r, after, order, name);
  }

  /** The pool key of a name filed under its own normal form is its lookup key exactly if that is a normal form. */
  lemma OwnKeyFoundIff(name: string)
    ensures var key := NormalizeHost(NormalizeHost(name));
            NormalizeHost(NormalizeHost(key)) == NameKey(name) <==> CleanTail(NameKey(name))
  {
    NormalExactlyWhenTailClean(NormalizeHost(NormalizeHost(name)));
    hide NormalizeHost, CleanTail;
  }

  /**
   * A name that was not routed is found on the retry exactly when it is not the text of an IP address and
   * three rounds of normalisation settle it.
   */
  lemma RetriedNameFoundIff(resolve: Resolver, net: Net, cfg: ConfigV, name: string, p: port, next: ConfigV,
                            g: seq<string>, r: seq<string>, after: RuntimeConfig, order: seq<string>)
    requires KnowsLiterals(net) && Unrouted(cfg, name)
    requires Edit(net, cfg, NormalizeHost(name), p) == Ok(Some(next))
    requires Loaded(resolve, next, g, r, after) && Enumerates(order, after.routes)
    ensures NameKey(name) in Build(after.routes, order).pools <==>
            net.parse(TrimSpace(NormalizeHost(name))) == NotIP && CleanTail(NameKey(name))
  {
    hide KnowsLiterals, Unrouted, Edit, NormalizeHost, TrimSpace, RouteHost, Loaded, Build, NameKey, KeepQuads,
      AddressesBehind, AddRoute, CleanTail, Enumerates;
    var host := NormalizeHost(name);
    EditAdds(net, cfg, host, p, next);
    FiledKey(net, name, p);
    OwnKeyFoundIff(name);
    FiledKeyDecides(resolve, cfg, name, NormalizeHost(RouteHost(net, host, p)),
                    KeepQuads(AddressesBehind(net, host), p), g, r, after, order);
  }

  /** An IPv4 request that was not routed is found on the retry once its address has been added. */
  lemma RetriedQuadFound(resolve: Resolver, cfg: ConfigV, q: Quad, p: port,
                         g: seq<string>, r: seq<string>, after: RuntimeConfig, order: seq<string>)
    requires ResolvesLiterals(resolve) && NormalKeys(cfg) && QuadPort(q, p) !in cfg.routes
    requires Loaded(resolve, AddRoute(cfg, QuadPort(q, p), [QuadPort(q, p)]), g, r, after)
             && Enumerates(order, after.routes)
    ensures LeadsToPool(Build(after.routes, order), QuadPort(q, p))
  {
    hide *;
    var a := QuadPort(q, p);
    QuadKeyNormal(q, p);
    NormalKeyKept(cfg, a, [a]);
    AddedIsConfigured(resolve, cfg, q, p);
    Ipv4RoutedIff(resolve, AddRoute(cfg, a, [a]), g, r, after, order, q, p);
  }

  lemma AddedIsConfigured(resolve: Resolver, cfg: ConfigV, q: Quad, p: port)
    requires ResolvesLiterals(resolve)
    ensures ConfiguredBackend(resolve, AddRoute(cfg, QuadPort(q, p), [QuadPort(q, p)]), q, p)
  {
    ListedBackendAdded(resolve, cfg, q, p);
    hide ListedBackend, QuadPort, AddRoute;
  }

  lemma ListedBackendAdded(resolve: Resolver, cfg: ConfigV, q: Quad, p: port)
    requires ResolvesLiterals(resolve)
    ensures ListedBackend(resolve, AddRoute(cfg, QuadPort(q, p), [QuadPort(q, p)]), q, p, QuadPort(q, p), 0)
  {
    var a := QuadPort(q, p);
    QuadKeyNormal(q, p);
    QuadPortTrimmed(q, p);
    NormalizedShape(a);
    FixpointIffCleanTail(a);
    AutoName(cfg.backends, a);
    assert resolve(a) == Some(TcpAddr(V4(q), p));
    hide QuadPort, TrimSpace, ChosenName, NormalizeHost;
    assert [a][0] == a;
  }

  /** Names spelled as IPv4 addresses are discovered in vain: filed with the port, they are not found on the retry. */
  lemma QuadNameNotFound(resolve: Resolver, net: Net, cfg: ConfigV, q: Quad, p: port, next: ConfigV,
                         g: seq<string>, r: seq<string>, after: RuntimeConfig, order: seq<string>)
    requires KnowsLiterals(net) && Unrouted(cfg, DottedQuad(q))
    requires Edit(net, cfg, DottedQuad(q), p) == Ok(Some(next))
    requires Loaded(resolve, next, g, r, after) && Enumerates(order, after.routes)
    ensures QuadPort(q, p) in next.routes
    ensures NameKey(DottedQuad(q)) !in Build(after.routes, order).pools
  {
    hide DottedQuad, QuadPort, NormalizeHost, TrimSpace, RouteHost, Edit, Loaded, Build, KeepQuads, NameKey, Unrouted,
      CleanTail;
    QuadTextNormal(q);
    assert net.parse(DottedQuad(q)) == Is4(q);
    RetriedNameFoundIff(resolve, net, cfg, DottedQuad(q), p, next, g, r, after, order);
    EditAdds(net, cfg, DottedQuad(q), p, next);
    FiledKey(net, DottedQuad(q), p);
    RoutesAdded(cfg, QuadPort(q, p), KeepQuads(AddressesBehind(net, DottedQuad(q)), p));
  }

  lemma QuadTextNormal(q: Quad)
    ensures IsNormal(DottedQuad(q)) && TrimSpace(DottedQuad(q)) == DottedQuad(q) != []
  {
    var s := DottedQuad(q);
    DecimalReads(q.a); DecimalReads(q.b); DecimalReads(q.c); DecimalReads(q.d);
    assert Lowered(s) && s != [];
    hide DottedQuad, Decimal;
    FixpointIffCleanTail(s);
    TrimSpaceResult(s);
  }

  // ---------------------------------------------------------------- overlapping discoveries

  /** A discovery past its guard: waiting to load, or holding the copy it loaded. */
  datatype Job =
    | ToLoad(hostKey: string, addresses: seq<string>)
    | Holding(hostKey: string, addresses: seq<string>, copy: ConfigV)

  datatype Desk = Desk(file: ConfigV, jobs: map<string, Job>)

  /** A discovery may give up at any point: its lookup, its load or its save fails. */
  datatype Move =
    | Start(key: string, hostKey: string, addresses: seq<string>)
    | Load(key: string)
    | Save(key: string)
    | GiveUp(key: string)

  predicate CanMove(d: Desk, m: Move) {
    match m
    case Start(key, _, _) => key !in d.jobs
    case Load(key) => key in d.jobs && d.jobs[key].ToLoad?
    case Save(key) => key in d.jobs && d.jobs[key].Holding?
    case GiveUp(key) => key in d.jobs
  }

  function MoveDesk(d: Desk, m: Move): Desk
    requires CanMove(d, m)
  {
    match m
    case Start(key, h, a) => d.(jobs := d.jobs[key := ToLoad(h, a)])
    case Load(key) => d.(jobs := d.jobs[key := Holding(d.jobs[key].hostKey, d.jobs[key].addresses, d.file)])
    case Save(key) =>
      var j := d.jobs[key];
      Desk(if j.hostKey in j.copy.routes then d.file else AddRoute(j.copy, j.hostKey, j.addresses), d.jobs - {key})
    case GiveUp(key) => d.(jobs := d.jobs - {key})
  }

  ghost predicate DeskRun(desks: seq<Desk>, moves: seq<Move>) {
    && |desks| == |moves| + 1 && desks[0].jobs == map[]
    && forall k :: 0 <= k < |moves| ==> CanMove(desks[k], moves[k]) && desks[k + 1] == MoveDesk(desks[k], moves[k])
  }

  /** No discovery loads while another one is between its load and its save. */
  ghost predicate NoOverlap(desks: seq<Desk>, moves: seq<Move>)
    requires DeskRun(desks, moves)
  {
    forall k :: 0 <= k < |moves| && moves[k].Load? ==>
      forall key :: key in desks[k].jobs ==> !desks[k].jobs[key].Holding?
  }

  ghost predicate UpToDate(d: Desk) {
    && (forall x, y :: x in d.jobs && y in d.jobs && d.jobs[x].Holding? && d.jobs[y].Holding? ==> x == y)
    && (forall x :: x in d.jobs && d.jobs[x].Holding? ==> d.jobs[x].copy == d.file)
  }

  lemma {:induction false} StaysUpToDate(desks: seq<Desk>, moves: seq<Move>, k: nat)
    requires DeskRun(desks, moves) && NoOverlap(desks, moves) && k <= |moves|
    ensures UpToDate(desks[k])
  {
    if k > 0 {
      StaysUpToDate(desks, moves, k - 1);
      assert CanMove(desks[k - 1], moves[k - 1]) && desks[k] == MoveDesk(desks[k - 1], moves[k - 1]);
      hide AddRoute;
    }
  }

  /** Without overlapping load-save windows no discovery ever loses a route that was in the file. */
  lemma {:induction false} NoRouteIsLost(desks: seq<Desk>, moves: seq<Move>, j: nat, k: nat, h: string)
    requires DeskRun(desks, moves) && NoOverlap(desks, moves) && j <= k <= |moves| && h in desks[j].file.routes
    ensures h in desks[k].file.routes && desks[k].file.routes[h] == desks[j].file.routes[h]
    decreases k - j
  {
    if j < k {
      NoRouteIsLost(desks, moves, j, k - 1, h);
      StaysUpToDate(desks, moves, k - 1);
      assert CanMove(desks[k - 1], moves[k - 1]) && desks[k] == MoveDesk(desks[k - 1], moves[k - 1]);
      hide ChosenName, DiscoveredGroup;
    }
  }

  // ---------------------------------------------------------------- exactly when nothing is lost

  /** The discoveries are of different hosts, none of which was in the file at first. */
  ghost predicate NewHosts(desks: seq<Desk>, moves: seq<Move>)
    requires |desks| > 0
  {
    && (forall k :: 0 <= k < |moves| && moves[k].Start? ==> moves[k].hostKey !in desks[0].file.routes)
    && forall j, k :: 0 <= j < k < |moves| && moves[j].Start? && moves[k].Start? ==>
        moves[j].hostKey != moves[k].hostKey
  }

  ghost predicate NothingLost(desks: seq<Desk>) {
    forall j, h :: 0 <= j < |desks| - 1 && h in desks[j].file.routes ==> h in desks[j + 1].file.routes
  }

  /** A host some discovery among the first k moves was started for. */
  ghost predicate Started(moves: seq<Move>, k: nat, h: string) {
    exists i :: 0 <= i < k && i < |moves| && moves[i].Start? && moves[i].hostKey == h
  }

  ghost predicate Known(file: ConfigV, moves: seq<Move>, k: nat, routes: map<string, string>) {
    forall h :: h in routes ==> h in file.routes || Started(moves, k, h)
  }

  /** Pending hosts are different from each other and in neither the file nor any copy of it. */
  ghost predicate Pending(d: Desk) {
    && (forall x :: x in d.jobs ==> d.jobs[x].hostKey !in d.file.routes)
    && (forall x, y :: x in d.jobs && y in d.jobs && d.jobs[y].Holding? ==> d.jobs[x].hostKey !in d.jobs[y].copy.routes)
    && (forall x, y :: x in d.jobs && y in d.jobs && x != y ==> d.jobs[x].hostKey != d.jobs[y].hostKey)
  }

  ghost predicate AllKnown(d: Desk, file: ConfigV, moves: seq<Move>, k: nat) {
    && Known(file, moves, k, d.file.routes)
    && (forall x :: x in d.jobs ==> Started(moves, k, d.jobs[x].hostKey))
    && (forall x :: x in d.jobs && d.jobs[x].Holding? ==> Known(file, moves, k, d.jobs[x].copy.routes))
  }

  lemma Moved(desks: seq<Desk>, moves: seq<Move>, k: nat)
    requires DeskRun(desks, moves) && k < |moves|
    ensures |desks| == |moves| + 1
    ensures CanMove(desks[k], moves[k]) && desks[k + 1] == MoveDesk(desks[k], moves[k])
  {
    hide MoveDesk;
  }

  lemma MovePending(d: Desk, m: Move)
    requires CanMove(d, m) && Pending(d)
    requires m.Start? ==>
               && m.hostKey !in d.file.routes
               && forall x :: x in d.jobs ==>
                    m.hostKey != d.jobs[x].hostKey && (d.jobs[x].Holding? ==> m.hostKey !in d.jobs[x].copy.routes)
    ensures Pending(MoveDesk(d, m))
  {
    hide AddRoute;
    if m.Save? {
      RoutesAdded(d.jobs[m.key].copy, d.jobs[m.key].hostKey, d.jobs[m.key].addresses);
    }
  }

  lemma StartedLater(moves: seq<Move>, k: nat)
    ensures forall h :: Started(moves, k, h) ==> Started(moves, k + 1, h)
  {
  }

  lemma MoveKnown(d: Desk, file: ConfigV, moves: seq<Move>, k: nat)
    requires k < |moves| && CanMove(d, moves[k]) && AllKnown(d, file, moves, k)
    ensures AllKnown(MoveDesk(d, moves[k]), file, moves, k + 1)
  {
    hide AddRoute;
    StartedLater(moves, k);
    var m := moves[k];
    match m {
      case Start(_, h, _) => assert Started(moves, k + 1, h);
      case Load(_) =>
      case GiveUp(_) =>
      case Save(key) => RoutesAdded(d.jobs[key].copy, d.jobs[key].hostKey, d.jobs[key].addresses);
    }
    hide Started;
  }

  /** A new host is in neither the file nor any copy, and no pending discovery is for it. */
  lemma StartIsNew(desks: seq<Desk>, moves: seq<Move>, k: nat)
    requires DeskRun(desks, moves) && NewHosts(desks, moves) && k < |moves| && moves[k].Start?
    requires AllKnown(desks[k], desks[0].file, moves, k)
    ensures var d, h := desks[k], moves[k].hostKey;
            && h !in d.file.routes
            && forall x :: x in d.jobs ==>
                 h != d.jobs[x].hostKey && (d.jobs[x].Holding? ==> h !in d.jobs[x].copy.routes)
  {
    hide MoveDesk, CanMove;
    assert !Started(moves, k, moves[k].hostKey);
    hide Started;
  }

  lemma FirstPending(desks: seq<Desk>, moves: seq<Move>)
    requires DeskRun(desks, moves)
    ensures Pending(desks[0]) && AllKnown(desks[0], desks[0].file, moves, 0)
  {
    hide MoveDesk, CanMove;
  }

  lemma {:induction false} AlwaysPending(desks: seq<Desk>, moves: seq<Move>, k: nat)
    requires DeskRun(desks, moves) && NewHosts(desks, moves) && k <= |moves|
    ensures Pending(desks[k]) && AllKnown(desks[k], desks[0].file, moves, k)
  {
    hide MoveDesk, CanMove, Pending, AllKnown, NewHosts;
    if k == 0 {
      FirstPending(desks, moves);
    } else {
      AlwaysPending(desks, moves, k - 1);
      Moved(desks, moves, k - 1);
      MoveKnown(desks[k - 1], desks[0].file, moves, k - 1);
      if moves[k - 1].Start? {
        StartIsNew(desks, moves, k - 1);
      }
      MovePending(desks[k - 1], moves[k - 1]);
    }
  }

  /** Discovery y makes no move between the two. */
  ghost predicate Silent(moves: seq<Move>, l: int, k: int, y: string) {
    forall i :: l < i < k && 0 <= i < |moves| ==> moves[i].key != y
  }

  /** Moves l and k are the load and the save of one discovery. */
  ghost predicate Window(moves: seq<Move>, l: int, k: int) {
    && 0 <= l < k < |moves| && moves[l].Load? && moves[k].Save? && moves[l].key == moves[k].key
    && Silent(moves, l, k, moves[k].key)
  }

  /** No discovery saves between the load and the save of another one. */
  ghost predicate WindowsUndisturbed(moves: seq<Move>) {
    forall l, k, j :: Window(moves, l, k) && l < j < k ==> !moves[j].Save?
  }

  /** A held copy is the file as it was at its own load, and still is if nobody saved since. */
  lemma {:induction false} LoadedAt(desks: seq<Desk>, moves: seq<Move>, k: nat, y: string) returns (l: nat)
    requires DeskRun(desks, moves) && k <= |moves| && y in desks[k].jobs && desks[k].jobs[y].Holding?
    ensures l < k && moves[l] == Load(y) && Silent(moves, l, k, y) && desks[k].jobs[y].copy == desks[l].file
    ensures (forall j :: l < j < k ==> !moves[j].Save?) ==> desks[k].file == desks[l].file
  {
    hide AddRoute;
    Moved(desks, moves, k - 1);
    if moves[k - 1] == Load(y) {
      l := k - 1;
    } else {
      l := LoadedAt(desks, moves, k - 1, y);
    }
  }

  /** A copy that lacks a route of the file loses it when it is saved, unless the route is lost before. */
  lemma {:induction false} StaleCopyLoses(desks: seq<Desk>, moves: seq<Move>, i: nat, k: nat, g: string)
    returns (j: nat, h: string)
    requires DeskRun(desks, moves) && NewHosts(desks, moves) && i <= k < |moves| && moves[k].Save?
    requires Silent(moves, i - 1, k, moves[k].key)
    requires moves[k].key in desks[i].jobs && desks[i].jobs[moves[k].key].Holding?
    requires g in desks[i].file.routes && g !in desks[i].jobs[moves[k].key].copy.routes
    ensures i <= j <= k && h in desks[j].file.routes && h !in desks[j + 1].file.routes
    decreases k - i
  {
    hide AddRoute, NewHosts, AllKnown;
    AlwaysPending(desks, moves, i);
    Moved(desks, moves, i);
    var d, m := desks[i], moves[i];
    if m.Save? {
      RoutesAdded(d.jobs[m.key].copy, d.jobs[m.key].hostKey, d.jobs[m.key].addresses);
    }
    if g !in desks[i + 1].file.routes {
      j, h := i, g;
    } else {
      j, h := StaleCopyLoses(desks, moves, i + 1, k, g);
    }
  }

  /** A save inside another discovery's window makes the file richer than the copy that will replace it. */
  lemma DisturbedWindowLoses(desks: seq<Desk>, moves: seq<Move>, l: nat, k: nat, j: nat) returns (i: nat, h: string)
    requires DeskRun(desks, moves) && NewHosts(desks, moves) && Window(moves, l, k) && l < j < k && moves[j].Save?
    ensures i < |moves| && h in desks[i].file.routes && h !in desks[i + 1].file.routes
  {
    hide AddRoute, NewHosts, AllKnown;
    var y := moves[k].key;
    StillHolding(desks, moves, l, j, y);
    AlwaysPending(desks, moves, j);
    Moved(desks, moves, j);
    var d, m := desks[j], moves[j];
    RoutesAdded(d.jobs[m.key].copy, d.jobs[m.key].hostKey, d.jobs[m.key].addresses);
    i, h := StaleCopyLoses(desks, moves, j + 1, k, d.jobs[m.key].hostKey);
  }

  lemma {:induction false} StillHolding(desks: seq<Desk>, moves: seq<Move>, l: nat, k: nat, y: string)
    requires DeskRun(desks, moves) && l < k <= |moves| && moves[l] == Load(y) && Silent(moves, l, k, y)
    ensures y in desks[k].jobs && desks[k].jobs[y].Holding?
    decreases k
  {
    hide AddRoute;
    Moved(desks, moves, k - 1);
    if l < k - 1 {
      StillHolding(desks, moves, l, k - 1, y);
    }
  }

  lemma UndisturbedMoveKeeps(desks: seq<Desk>, moves: seq<Move>, k: nat, h: string)
    requires DeskRun(desks, moves) && WindowsUndisturbed(moves) && k < |moves| && h in desks[k].file.routes
    ensures h in desks[k + 1].file.routes
  {
    hide AddRoute;
    Moved(desks, moves, k);
    if moves[k].Save? {
      var job := desks[k].jobs[moves[k].key];
      var l := LoadedAt(desks, moves, k, moves[k].key);
      assert Window(moves, l, k);
      RoutesAdded(job.copy, job.hostKey, job.addresses);
    }
  }

  /**
   * For any run of discoveries of different new hosts, some of which may fail: no route is ever lost exactly
   * when no discovery saves between the load and the save of another one.
   */
  lemma NothingLostIff(desks: seq<Desk>, moves: seq<Move>)
    requires DeskRun(desks, moves) && NewHosts(desks, moves)
    ensures NothingLost(desks) <==> WindowsUndisturbed(moves)
  {
    hide MoveDesk, NewHosts, Silent;
    if WindowsUndisturbed(moves) {
      forall j, h | 0 <= j < |desks| - 1 && h in desks[j].file.routes
        ensures h in desks[j + 1].file.routes
      {
        UndisturbedMoveKeeps(desks, moves, j, h);
      }
    } else {
      var l, k, j :| Window(moves, l, k) && l < j < k && moves[j].Save?;
      var i, h := DisturbedWindowLoses(desks, moves, l, k, j);
    }
  }

  /** In a run that is over and in which nobody gave up, a held copy is saved in the end. */
  lemma {:induction false} SavedInTheEnd(desks: seq<Desk>, moves: seq<Move>, i: nat, y: string) returns (k: nat)
    requires DeskRun(desks, moves) && desks[|moves|].jobs == map[] && i <= |moves|
    requires forall n :: 0 <= n < |moves| ==> !moves[n].GiveUp?
    requires y in desks[i].jobs && desks[i].jobs[y].Holding?
    ensures i <= k < |moves| && moves[k] == Save(y) && Silent(moves, i - 1, k, y)
    decreases |moves| - i
  {
    hide AddRoute;
    assert i < |moves|;
    Moved(desks, moves, i);
    if moves[i] == Save(y) {
      k := i;
    } else {
      k := SavedInTheEnd(desks, moves, i + 1, y);
    }
  }

  /**
   * When all of them have run to their end and none gave up, that is exactly when no discovery loaded the file
   * while another one was between its load and its save.
   */
  lemma NothingLostIffNoOverlap(desks: seq<Desk>, moves: seq<Move>)
    requires DeskRun(desks, moves) && NewHosts(desks, moves) && desks[|moves|].jobs == map[]
    requires forall n :: 0 <= n < |moves| ==> !moves[n].GiveUp?
    ensures NothingLost(desks) <==> NoOverlap(desks, moves)
  {
    hide MoveDesk, NewHosts;
    if NoOverlap(desks, moves) {
      forall j, h | 0 <= j < |desks| - 1 && h in desks[j].file.routes
        ensures h in desks[j + 1].file.routes
      {
        NoRouteIsLost(desks, moves, j, j + 1, h);
      }
    } else {
      var k, x :| 0 <= k < |moves| && moves[k].Load? && x in desks[k].jobs && desks[k].jobs[x].Holding?;
      OverlapDisturbs(desks, moves, k, x);
      NothingLostIff(desks, moves);
    }
  }

  /** Of two discoveries that hold copies at once the first to save does so inside the other's window. */
  lemma OverlapDisturbs(desks: seq<Desk>, moves: seq<Move>, k: nat, x: string)
    requires DeskRun(desks, moves) && desks[|moves|].jobs == map[]
    requires forall n :: 0 <= n < |moves| ==> !moves[n].GiveUp?
    requires k < |moves| && moves[k].Load? && x in desks[k].jobs && desks[k].jobs[x].Holding?
    ensures !WindowsUndisturbed(moves)
  {
    hide MoveDesk;
    var y := moves[k].key;
    BothHold(desks, moves, k, x);
    var lx := LoadedAt(desks, moves, k + 1, x);
    var sx := SavedInTheEnd(desks, moves, k + 1, x);
    var sy := SavedInTheEnd(desks, moves, k + 1, y);
    assert Window(moves, lx, sx) && Window(moves, k, sy);
  }

  lemma BothHold(desks: seq<Desk>, moves: seq<Move>, k: nat, x: string)
    requires DeskRun(desks, moves) && k < |moves| && moves[k].Load? && x in desks[k].jobs && desks[k].jobs[x].Holding?
    ensures k + 1 < |desks| && x != moves[k].key
    ensures var jobs := desks[k + 1].jobs;
            x in jobs && moves[k].key in jobs && jobs[x].Holding? && jobs[moves[k].key].Holding?
  {
    Moved(desks, moves, k);
  }

  /** With overlapping windows the guard does not help: two different hosts, both saved, and the first is gone. */
  lemma OverlapLosesARoute(file: ConfigV, k1: string, h1: string, a1: seq<string>, k2: string, h2: string,
                           a2: seq<string>)
    returns (desks: seq<Desk>, moves: seq<Move>)
    requires k1 != k2 && h1 != h2 && h1 !in file.routes && h2 !in file.routes
    ensures DeskRun(desks, moves) && desks[0].file == file
    ensures moves == [Start(k1, h1, a1), Start(k2, h2, a2), Load(k1), Load(k2), Save(k1), Save(k2)]
    ensures h1 in desks[5].file.routes && h1 !in desks[6].file.routes && h2 in desks[6].file.routes
  {
    hide ChosenName, DiscoveredGroup;
    moves := [Start(k1, h1, a1), Start(k2, h2, a2), Load(k1), Load(k2), Save(k1), Save(k2)];
    var d0 := Desk(file, map[]);
    var d1 := MoveDesk(d0, moves[0]);
    var d2 := MoveDesk(d1, moves[1]);
    var d3 := MoveDesk(d2, moves[2]);
    var d4 := MoveDesk(d3, moves[3]);
    var d5 := MoveDesk(d4, moves[4]);
    var d6 := MoveDesk(d5, moves[5]);
    desks := [d0, d1, d2, d3, d4, d5, d6];
  }

  // ---------------------------------------------------------------- routes and the groups behind them

  /** The file has lost no route, and no route or group of it has changed. */
  ghost predicate Kept(before: ConfigV, after: ConfigV) {
    && (forall h :: h in before.routes ==> h in after.routes && after.routes[h] == before.routes[h])
    && GroupsKept(before, after)
  }

  /** What a save writes goes under a name that is free in its copy, or whose group is the same anyway. */
  ghost predicate NameFree(job: Job)
    requires job.Holding?
  {
    var name := ChosenName(job.copy.backends, job.hostKey);
    name !in job.copy.backends || job.copy.backends[name] == DiscoveredGroup(job.addresses)
  }

  ghost predicate NamesFree(desks: seq<Desk>, moves: seq<Move>)
    requires DeskRun(desks, moves)
  {
    forall k :: 0 <= k < |moves| && moves[k].Save? ==> SavesFree(desks[k], moves[k])
  }

  ghost predicate SavesFree(d: Desk, m: Move) {
    m.Save? && m.key in d.jobs && d.jobs[m.key].Holding? && NameFree(d.jobs[m.key])
  }

  lemma AddKeepsIff(cfg: ConfigV, hostKey: string, addresses: seq<string>)
    requires hostKey !in cfg.routes
    ensures Kept(cfg, AddRoute(cfg, hostKey, addresses)) <==>
            var name := ChosenName(cfg.backends, hostKey);
            name !in cfg.backends || cfg.backends[name] == DiscoveredGroup(addresses)
  {
    hide ChosenName, DiscoveredGroup, GroupsKept;
    GroupsKeptIff(cfg, hostKey, addresses);
  }

  /** In an undisturbed run a save edits the very file that it replaces. */
  lemma SavesWhatItLoaded(desks: seq<Desk>, moves: seq<Move>, k: nat)
    requires DeskRun(desks, moves) && NewHosts(desks, moves) && WindowsUndisturbed(moves)
    requires k < |moves| && moves[k].Save?
    ensures |desks| == |moves| + 1 && moves[k].key in desks[k].jobs && desks[k].jobs[moves[k].key].Holding?
    ensures var job := desks[k].jobs[moves[k].key];
            && job.copy == desks[k].file && job.hostKey !in job.copy.routes
            && desks[k + 1].file == AddRoute(desks[k].file, job.hostKey, job.addresses)
  {
    hide AddRoute, NewHosts, AllKnown;
    Moved(desks, moves, k);
    AlwaysPending(desks, moves, k);
    var l := LoadedAt(desks, moves, k, moves[k].key);
    assert Window(moves, l, k);
  }

  lemma MoveKeepsIff(desks: seq<Desk>, moves: seq<Move>, k: nat)
    requires DeskRun(desks, moves) && NewHosts(desks, moves) && WindowsUndisturbed(moves) && k < |moves|
    ensures |desks| == |moves| + 1
    ensures Kept(desks[k].file, desks[k + 1].file) <==> (moves[k].Save? ==> SavesFree(desks[k], moves[k]))
  {
    hide AddRoute, NewHosts, WindowsUndisturbed, ChosenName, DiscoveredGroup;
    Moved(desks, moves, k);
    if moves[k].Save? {
      SavesWhatItLoaded(desks, moves, k);
      var job := desks[k].jobs[moves[k].key];
      AddKeepsIff(desks[k].file, job.hostKey, job.addresses);
    }
  }

  ghost predicate EverythingKept(desks: seq<Desk>) {
    forall k :: 0 <= k < |desks| - 1 ==> Kept(desks[k].file, desks[k + 1].file)
  }

  /**
   * For any run of discoveries of different new hosts: no route and no group of the file is ever lost or
   * changed exactly when no discovery saves between the load and the save of another one, and every group
   * name chosen at a save is free in the file or has that very group already.
   */
  lemma EverythingKeptIff(desks: seq<Desk>, moves: seq<Move>)
    requires DeskRun(desks, moves) && NewHosts(desks, moves)
    ensures EverythingKept(desks) <==> WindowsUndisturbed(moves) && NamesFree(desks, moves)
  {
    hide MoveDesk, NewHosts, SavesFree, WindowsUndisturbed, GroupsKept;
    NothingLostIff(desks, moves);
    if !WindowsUndisturbed(moves) {
      var j, h :| 0 <= j < |desks| - 1 && h in desks[j].file.routes && h !in desks[j + 1].file.routes;
      assert !Kept(desks[j].file, desks[j + 1].file);
    } else if NamesFree(desks, moves) {
      forall k | 0 <= k < |desks| - 1
        ensures Kept(desks[k].file, desks[k + 1].file)
      {
        MoveKeepsIff(desks, moves, k);
      }
    } else {
      var k :| 0 <= k < |moves| && moves[k].Save? && !SavesFree(desks[k], moves[k]);
      MoveKeepsIff(desks, moves, k);
      assert !Kept(desks[k].file, desks[k + 1].file);
    }
  }

  /** Then whatever was in the file at some time is there, unchanged, at any later time. */
  lemma {:induction false} KeptThroughout(desks: seq<Desk>, moves: seq<Move>, j: nat, k: nat)
    requires DeskRun(desks, moves) && NewHosts(desks, moves) && WindowsUndisturbed(moves) && NamesFree(desks, moves)
    requires j <= k <= |moves|
    ensures Kept(desks[j].file, desks[k].file)
    decreases k - j
  {
    hide MoveDesk, NewHosts, WindowsUndisturbed, NamesFree;
    if j < k {
      KeptThroughout(desks, moves, j, k - 1);
      EverythingKeptIff(desks, moves);
      assert Kept(desks[k - 1].file, desks[k].file);
    }
  }
}
