/** What a discovery writes, part by part: which addresses, under which names, and when it writes nothing. */
module EditLaws {
  import opened Text
  import opened Hosts
  import opened Addresses
  import opened Config
  import opened Discovery
  import Reload

  // ---------------------------------------------------------------- addresses

  /** These are the places of the IPv4 answers, all of them, in order. */
  ghost predicate QuadPlaces(ips: seq<Literal>, at: seq<nat>) {
    && (forall k :: 0 <= k < |at| ==> at[k] < |ips| && ips[at[k]].Is4?)
    && (forall k, l :: 0 <= k < l < |at| ==> at[k] < at[l])
    && (forall i: nat :: i < |ips| && ips[i].Is4? ==> i in at)
  }

  /** The addresses kept from a lookup are exactly its IPv4 answers, each with the port, in the order given. */
  lemma {:induction false} KeptInOrder(ips: seq<Literal>, p: port) returns (at: seq<nat>)
    ensures QuadPlaces(ips, at) && |KeepQuads(ips, p)| == |at|
    ensures forall k :: 0 <= k < |at| ==> KeepQuads(ips, p)[k] == QuadPort(ips[at[k]].quad, p)
  {
    hide QuadPort;
    if ips == [] {
      at := [];
    } else {
      var n := |ips| - 1;
      at := KeptInOrder(ips[..n], p);
      assert forall i: nat :: i < n ==> ips[..n][i] == ips[i];
      if ips[n].Is4? {
        at := at + [n];
      }
    }
  }

  /** What a discovery works on: the address itself, or what the lookup answers for the trimmed name. */
  lemma ResolvesAs(net: Net, host: string, p: port)
    ensures var r, h := ResolveSpec(net, host, p), TrimSpace(host);
            && (r == Err(EmptyName) <==> h == "")
            && (r == Err(LookupFailed) <==> h != "" && !net.parse(h).Is4? && net.lookup(h).None?)
            && (r.Err? ==> r.error == EmptyName || r.error == LookupFailed)
            && (h != "" && net.parse(h).Is4? ==> r == Ok([QuadPort(net.parse(h).quad, p)]))
            && (h != "" && !net.parse(h).Is4? && net.lookup(h).Some? ==> r == Ok(KeepQuads(net.lookup(h).value, p)))
  {
    hide KeepQuads, QuadPort, TrimSpace;
  }

  // ---------------------------------------------------------------- names

  /** The first choice of a group name: "auto-" and the key, with a dash for every dot and colon. */
  lemma GroupNameReads(key: string)
    ensures var name := BaseName(key);
            && |name| == 5 + |key| && name[..5] == "auto-"
            && forall k :: 0 <= k < |key| ==> name[5 + k] == if key[k] == '.' || key[k] == ':' then '-' else key[k]
  {
  }

  /** A taken name gets the number of groups appended. */
  lemma ChosenNameReads(backends: map<string, BackendGroup>, key: string) returns (n: string)
    ensures Numeral(n, |backends|)
    ensures ChosenName(backends, key) == if BaseName(key) in backends then BaseName(key) + "-" + n else BaseName(key)
  {
    n := Decimal(|backends|);
    DecimalIsNumeral(|backends|);
  }

  /** The key under which a host is filed: itself, unless it is an IP address; then with its port. */
  lemma FiledAs(net: Net, host: string, p: port) returns (n: string)
    ensures Numeral(n, p)
    ensures var ip := net.parse(TrimSpace(host));
            RouteHost(net, host, p) ==
              if ip.NotIP? then host else (if ip.Is4? then DottedQuad(ip.quad) else ip.text) + ":" + n
  {
    n := Decimal(p);
    DecimalIsNumeral(p);
  }

  // ---------------------------------------------------------------- the edit

  /** The later file is the earlier one with one more route, to a group that has the addresses and no settings. */
  ghost predicate FiledUnder(before: ConfigV, after: ConfigV, key: string, name: string, addresses: seq<string>) {
    && after.settings == before.settings
    && after.routes.Keys == before.routes.Keys + {key} && after.routes[key] == name
    && (forall h :: h in before.routes && h != key ==> after.routes[h] == before.routes[h])
    && after.backends.Keys == before.backends.Keys + {name}
    && after.backends[name].addresses == addresses
    && after.backends[name].health.intervalMS == 0 && after.backends[name].health.timeoutMS == 0
    && after.backends[name].health.path == ""
    && (forall g :: g in before.backends && g != name ==> after.backends[g] == before.backends[g])
  }

  /** When a file is extended, and with what; otherwise it stays as it was. */
  lemma AddDecides(cfg: ConfigV, host: string, addresses: seq<string>)
    ensures var key, (after, r) := NormalizeHost(host), AddSpec(cfg, host, addresses);
            && (r == Err(EmptyDiscoveredHost) <==> key == "")
            && (r == Err(NothingResolved) <==> key != "" && addresses == [])
            && (r == Ok(false) <==> key != "" && addresses != [] && key in cfg.routes)
            && (r == Ok(true) <==> key != "" && addresses != [] && key !in cfg.routes)
            && (r == Ok(true) ==> FiledUnder(cfg, after, key, ChosenName(cfg.backends, key), addresses))
            && (r != Ok(true) ==> after == cfg)
  {
    hide NormalizeHost, ChosenName;
  }

  // ---------------------------------------------------------------- the whole discovery

  /** Which discoveries write nothing, and what they answer. */
  lemma NothingWritten(net: Net, resolve: Resolver, v: Reload.Visits, busy: bool, file: ConfigV, host: string, p: port)
    requires Reload.AllFair(v)
    ensures var (content, answer, target) := DiscoverSpec(net, resolve, v, busy, file, host, p);
            var found, key := ResolveSpec(net, host, p), NormalizeHost(RouteHost(net, host, p));
            && (busy ==> content == file && answer == Ok(false) && target.None?)
            && (!busy && found.Err? ==> content == file && answer == Err(found.error) && target.None?)
            && (!busy && found == Ok([]) ==> content == file && answer == Err(NoUsableAddress) && target.None?)
            && (!busy && found.Ok? && found.value != [] && key == "" ==>
                  content == file && answer == Err(BadAdd(EmptyDiscoveredHost)) && target.None?)
            && (!busy && found.Ok? && found.value != [] && key != "" && key in file.routes ==>
                  content == file && answer == Ok(false) && target.None?)
  {
    hide NormalizeHost, RouteHost, ResolveSpec, Reload.TargetSpec, ChosenName;
  }

  /** Otherwise the extended file is saved, even if the reload that follows fails. */
  lemma WrittenAnyhow(net: Net, resolve: Resolver, v: Reload.Visits, file: ConfigV, host: string, p: port)
    requires Reload.AllFair(v)
    requires ResolveSpec(net, host, p).Ok? && ResolveSpec(net, host, p).value != []
    requires NormalizeHost(RouteHost(net, host, p)) != "" && NormalizeHost(RouteHost(net, host, p)) !in file.routes
    ensures var (content, answer, target) := DiscoverSpec(net, resolve, v, false, file, host, p);
            var key := NormalizeHost(RouteHost(net, host, p));
            && FiledUnder(file, content, key, ChosenName(file.backends, key), ResolveSpec(net, host, p).value)
            && (answer == Ok(true) <==> Reload.TargetSpec(resolve, Some(content), v).Ok?)
            && (answer != Ok(true) ==>
                  answer == Err(ReloadFailed(Reload.TargetSpec(resolve, Some(content), v).error)) && target.None?)
            && (answer == Ok(true) ==> target == Some(Reload.TargetSpec(resolve, Some(content), v).value))
  {
    AddDecides(file, RouteHost(net, host, p), ResolveSpec(net, host, p).value);
    hide NormalizeHost, RouteHost, ResolveSpec, Reload.TargetSpec, ChosenName, AddRoute, FiledUnder;
  }
}
