/** Auto-discovery: extending the configuration in place, and what that does to what is already there. */
module Discovery {
  import opened Text
  import opened Hosts
  import opened Addresses
  import Scan
  import opened Config
  import Reload

  datatype AddError = EmptyDiscoveredHost | NothingResolved

  // ---------------------------------------------------------------- AddAutoDiscoveredRoute

  /** strings.ReplaceAll for one character. */
  function Replace(s: string, from: char, to: char): string {
    seq(|s|, i requires 0 <= i < |s| => if s[i] == from then to else s[i])
  }

  function BaseName(hostKey: string): string {
    "auto-" + Replace(Replace(hostKey, '.', '-'), ':', '-')
  }

  function FallbackName(base: string, groups: nat): string {
    base + "-" + Decimal(groups)
  }

  /** The fallback name is not checked again. */
  function ChosenName(backends: map<string, BackendGroup>, hostKey: string): string {
    var base := BaseName(hostKey);
    if base in backends then FallbackName(base, |backends|) else base
  }

  function DiscoveredGroup(addresses: seq<string>): BackendGroup {
    BackendGroup(addresses, HealthSettings(0, 0, []))
  }

  function AddRoute(cfg: ConfigV, hostKey: string, addresses: seq<string>): ConfigV {
    var name := ChosenName(cfg.backends, hostKey);
    cfg.(backends := cfg.backends[name := DiscoveredGroup(addresses)], routes := cfg.routes[hostKey := name])
  }

  function AddSpec(cfg: ConfigV, host: string, addresses: seq<string>): (ConfigV, Result<bool, AddError>) {
    var hostKey := NormalizeHost(host);
    if hostKey == [] then (cfg, Err(EmptyDiscoveredHost))
    else if addresses == [] then (cfg, Err(NothingResolved))
    else if hostKey in cfg.routes then (cfg, Ok(false))
    else (AddRoute(cfg, hostKey, addresses), Ok(true))
  }

  /** The raw configuration as loaded for editing. */
  class RawConfig {
    const settings: Settings
    var backends: map<string, BackendGroup>
    var routes: map<string, string>

    function Value(): ConfigV
      reads this
    {
      ConfigV(settings, backends, routes)
    }

    constructor (v: ConfigV)
      ensures Value() == v
    {
      settings, backends, routes := v.settings, v.backends, v.routes;
    }

    method AddAutoDiscoveredRoute(host: string, addresses: seq<string>) returns (r: Result<bool, AddError>)
      modifies this
      ensures (Value(), r) == AddSpec(old(Value()), host, addresses)
    {
      var hostKey := NormalizeHost(host);
      if hostKey == [] {
        return Err(EmptyDiscoveredHost);
      }
      if |addresses| == 0 {
        return Err(NothingResolved);
      }
      if hostKey in routes {
        return Ok(false);
      }
      var groupName := BaseName(hostKey);
      if groupName in backends {
        groupName := groupName + "-" + Decimal(|backends|);
      }
      backends := backends[groupName := BackendGroup(addresses, HealthSettings(0, 0, ""))];
      routes := routes[hostKey := groupName];
      r := Ok(true);
    }
  }

  // ---------------------------------------------------------------- Discover

  /** net.ParseIP on a text. */
  datatype Literal = NotIP | Is4(quad: Quad) | Is6(text: string)

  /** The resolver library: literals and names. */
  datatype Net = Net(parse: string -> Literal, lookup: string -> Option<seq<Literal>>)

  ghost predicate ParsesQuads(net: Net) {
    forall q: Quad :: net.parse(DottedQuad(q)) == Is4(q)
  }

  datatype DiscoverError =
    | EmptyName
    | LookupFailed
    | NoUsableAddress
    | BadAdd(e: AddError)
    | ReloadFailed(why: Reload.ReloadError)

  function KeepQuads(ips: seq<Literal>, p: port): seq<string> {
    if ips == [] then []
    else
      var before := KeepQuads(ips[..|ips| - 1], p);
      match ips[|ips| - 1]
      case Is4(q) => before + [QuadPort(q, p)]
      case _ => before
  }

  function ResolveSpec(net: Net, host: string, p: port): Result<seq<string>, DiscoverError> {
    var h := TrimSpace(host);
    if h == [] then Err(EmptyName)
    else if net.parse(h).Is4? then Ok([QuadPort(net.parse(h).quad, p)])
    else match net.lookup(h)
      case None => Err(LookupFailed)
      case Some(ips) => Ok(KeepQuads(ips, p))
  }

  method Resolve(net: Net, host: string, p: port) returns (r: Result<seq<string>, DiscoverError>)
    ensures r == ResolveSpec(net, host, p)
  {
    var h := TrimSpace(host);
    if h == "" {
      return Err(EmptyName);
    }
    var literal := net.parse(h);
    if literal.Is4? {
      return Ok([QuadPort(literal.quad, p)]);
    }
    var found := net.lookup(h);
    if found.None? {
      return Err(LookupFailed);
    }
    var ips := found.value;
    var addresses: seq<string> := [];
    for i := 0 to |ips|
      invariant addresses == KeepQuads(ips[..i], p)
    {
      assert ips[..i + 1][..i] == ips[..i];
      if ips[i].Is4? {
        addresses := addresses + [QuadPort(ips[i].quad, p)];
      }
    }
    assert ips[..|ips|] == ips;
    r := Ok(addresses);
  }

  /** The route key of a discovered host: the name itself, or "ip:port" if it parses as an address. */
  function RouteHost(net: Net, host: string, p: port): string {
    match net.parse(TrimSpace(host))
    case NotIP => host
    case Is4(q) => QuadPort(q, p)
    case Is6(text) => HostPort(text, p)
  }

  /** What Discover would write: the new file, or an error; Ok(None) if nothing is to be written. */
  function Edit(net: Net, file: ConfigV, host: string, p: port): Result<Option<ConfigV>, DiscoverError> {
    match ResolveSpec(net, host, p)
    case Err(e) => Err(e)
    case Ok(addresses) =>
      if addresses == [] then Err(NoUsableAddress)
      else
        var (edited, r) := AddSpec(file, RouteHost(net, host, p), addresses);
        match r
        case Err(e) => Err(BadAdd(e))
        case Ok(added) => Ok(if added then Some(edited) else None)
  }

  /** The configuration file: it loads and saves exactly. */
  class File {
    var content: ConfigV

    constructor (v: ConfigV)
      ensures content == v
    {
      content := v;
    }
  }

  /** What looked-up lists and the file's lists have in common: they are slices. */
  ghost predicate SlicesFit(net: Net, file: ConfigV) {
    && Reload.ListsFit(Some(file))
    && forall h :: net.lookup(h).Some? ==> |net.lookup(h).value| <= Scan.MAX_LEN
  }

  /**
   * What one discovery leaves in the file, what it answers, and what the server is switched to, if anything.
   * The reload reads the very file that was saved.
   */
  ghost function DiscoverSpec(net: Net, resolve: Resolver, v: Reload.Visits, busy: bool, file: ConfigV, host: string,
                              p: port)
    : (ConfigV, Result<bool, DiscoverError>, Option<Reload.Target>)
    requires Reload.AllFair(v)
  {
    if busy then (file, Ok(false), None)
    else match Edit(net, file, host, p)
      case Err(e) => (file, Err(e), None)
      case Ok(None) => (file, Ok(false), None)
      case Ok(Some(edited)) =>
        match Reload.TargetSpec(resolve, Some(edited), v)
        case Err(e) => (edited, Err(ReloadFailed(e)), None)
        case Ok(t) => (edited, Ok(true), Some(t))
  }

  lemma {:induction false} KeepQuadsFits(ips: seq<Literal>, p: port)
    ensures |KeepQuads(ips, p)| <= |ips|
  {
    if ips != [] {
      KeepQuadsFits(ips[..|ips| - 1], p);
    }
  }

  lemma EditFits(net: Net, file: ConfigV, host: string, p: port)
    requires SlicesFit(net, file) && Edit(net, file, host, p).Ok? && Edit(net, file, host, p).value.Some?
    ensures Reload.ListsFit(Edit(net, file, host, p).value)
  {
    hide ChosenName, NormalizeHost, TrimSpace, KeepQuads, RouteHost, QuadPort;
    var h := TrimSpace(host);
    if !net.parse(h).Is4? {
      KeepQuadsFits(net.lookup(h).value, p);
    }
  }

  class Discoverer {
    const net: Net
    const file: File
    const state: Reload.RuntimeState
    var discovering: set<string>

    constructor (net: Net, file: File, state: Reload.RuntimeState)
      ensures this.net == net && this.file == file && this.state == state && discovering == {}
    {
      this.net, this.file, this.state, this.discovering := net, file, state, {};
    }

    /**
     * Discover, run without another discovery or reload between its load and its own reload. `resolve` and `v`
     * are what that reload meets: name resolution and the orders of its map visits.
     */
    method Discover(host: string, p: port, resolve: Resolver, v: Reload.Visits) returns (r: Result<bool, DiscoverError>)
      requires state.Valid() && Reload.AllFair(v) && SlicesFit(net, file.content)
      modifies this, file, state, state.server, state.checkerCancel
      ensures state.Valid() && discovering == old(discovering)
      ensures var (content, answer, target) :=
                DiscoverSpec(net, resolve, v, HostPort(host, p) in old(discovering), old(file.content), host, p);
              && file.content == content && r == answer
              && (target.None? ==> unchanged(state) && unchanged(state.server))
              && (target.Some? ==> InForce(target.value, old(state.cfg)))
    {
      hide Edit, Reload.TargetSpec;
      var key := HostPort(host, p);
      if key in discovering {
        return Ok(false);
      }
      discovering := discovering + {key};
      r := Attempt(host, p, resolve, v);
      discovering := discovering - {key};
    }

    /** The server is switched to the target, except for what needs a restart. */
    ghost predicate InForce(t: Reload.Target, before: RuntimeConfig)
      reads state, state.server, state.server.router.Heap()
    {
      && state.cfg == Reload.Merge(Reload.Fixed(before), Reload.Changeable(t.cfg))
      && state.server.router.Value() == t.router
    }

    method Attempt(host: string, p: port, resolve: Resolver, v: Reload.Visits) returns (r: Result<bool, DiscoverError>)
      requires state.Valid() && Reload.AllFair(v) && SlicesFit(net, file.content)
      modifies file, state, state.server, state.checkerCancel
      ensures state.Valid()
      ensures var (content, answer, target) := DiscoverSpec(net, resolve, v, false, old(file.content), host, p);
              && file.content == content && r == answer
              && (target.None? ==> unchanged(state) && unchanged(state.server))
              && (target.Some? ==> InForce(target.value, old(state.cfg)))
    {
      hide Reload.TargetSpec, Reload.Merge, Reload.Fixed, Reload.Changeable, Reload.WarnsOf, Reload.ListsFit,
        AddSpec, ResolveSpec, RouteHost;
      var addresses := Resolve(net, host, p);
      if addresses.Err? {
        return Err(addresses.error);
      }
      if |addresses.value| == 0 {
        return Err(NoUsableAddress);
      }
      var raw := new RawConfig(file.content);
      var added := raw.AddAutoDiscoveredRoute(RouteHost(net, host, p), addresses.value);
      if added.Err? {
        return Err(BadAdd(added.error));
      }
      if !added.value {
        return Ok(false);
      }
      EditFits(net, file.content, host, p);
      file.content := raw.Value();
      var err, warnings := state.Reload(resolve, Some(file.content), v);
      if err.Some? {
        return Err(ReloadFailed(err.value));
      }
      r := Ok(true);
    }
  }
}
