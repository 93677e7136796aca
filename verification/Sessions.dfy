/**
 * The running server as a step system: the accept loop, any number of client sessions, router swaps and
 * health updates, interleaved in any way. Each semaphore operation, wait-group operation, collector call,
 * read of the current router, ticket, flag load, dial and discovery is a step of its own.
 */
module Sessions {
  import opened Text
  import opened Hosts
  import opened Addresses
  import opened Scan
  import opened Router
  import opened Metrics
  import opened Wire

  // ---------------------------------------------------------------- errors of the two copy directions

  predicate Contains(s: string, part: string) {
    exists i :: 0 <= i <= |s| && part <= s[i..]
  }

  const RESET_TEXTS := ["connection reset by peer", "broken pipe", "forcibly closed by the remote host"]
  const IGNORABLE_TEXTS := ["closed network connection"] + RESET_TEXTS

  /** isRSTError, on the text of a copy error (None: no error). */
  predicate IsReset(err: Option<string>) {
    err.Some? && exists k :: 0 <= k < |RESET_TEXTS| && Contains(ToLower(err.value), RESET_TEXTS[k])
  }

  predicate IsIgnorable(err: Option<string>) {
    err.None? || exists k :: 0 <= k < |IGNORABLE_TEXTS| && Contains(ToLower(err.value), IGNORABLE_TEXTS[k])
  }

  // ---------------------------------------------------------------- sessions

  datatype DialResult = Connected(target: string) | NotFound | NoAlive | LimitReached | DialFailed(target: string,
                                  timeout: bool)

  /** How a session came to its end. */
  datatype End = Open | BadHello | BadRequest | NoRoute | NoBackend | NoReply | Relayed(broken: bool, reset: bool)

  /** Where a session's goroutine is. A `router` is a position in the list of routers ever installed. */
  datatype Pc =
    | Hello
    | Reading
    | Routing
    | Acquiring
    | Entering
    | Ticketing(router: nat)
    | Scanning(router: nat, start: ticket, i: nat)
    | Dialling(router: nat, slot: nat)
    | Releasing(result: DialResult)
    | Judging(result: DialResult)
    | Discovering(failed: Option<DialResult>)
    | Replying
    | Relaying
    | Dropping
    | Parting
    | Gone

  /** `todo` lists the collector calls to make, one a step, before the goroutine moves on from `pc`. */
  datatype Session = Session(
    pc: Pc, todo: seq<Metric>, req: Request, attempt: nat, rounds: nat, discovers: nat, conns: nat,
    host: string, target: string, end: End)

  datatype Limits = Limits(maxConnections: int, maxDials: int, discovery: bool)

  /** The server's shared state: counters, semaphores, wait group, and the routers installed so far. */
  datatype Shared = Shared(counters: Counters, tokens: int, dials: int, wg: int, routers: seq<RouterV>, current: nat)

  datatype AcceptorPc = Waiting | Arrived | Admitted | Spawning | Returned

  datatype Acceptor = Acceptor(pc: AcceptorPc, todo: seq<Metric>, rejected: nat)

  datatype State = State(limits: Limits, shared: Shared, acceptor: Acceptor, sessions: seq<Session>)

  /** What the world outside decides at a step. */
  datatype Event =
    | Tau
    | HelloDone(ok: bool)
    | ReadDone(request: Option<Request>)
    | Discovered(added: bool)
    | DialDone(ok: bool, timeout: bool)
    | ReplyDone(ok: bool)
    | RelayDone(err1: Option<string>, err2: Option<string>)

  datatype AcceptEvent = Arrive | AcceptFailed | Proceed

  datatype Step =
    | ByAcceptor(accept: AcceptEvent)
    | BySession(i: nat, ev: Event)
    | Install(router: RouterV)
    | Health(r: nat, host: string, address: string, alive: bool)

  function AtypLabel(req: Request): Atyp {
    if req.atyp == ATYP_IPV4 then Ipv4 else Fqdn
  }

  /** The texts used as `reason` and `result` labels. */
  datatype Word = Success | ReplyError | RelayError | IpNotInRoutes | Because(result: DialResult)

  function Spell(w: Word): string {
    match w
    case Success => "success"
    case ReplyError => "reply_error"
    case RelayError => "relay_error"
    case IpNotInRoutes => "ip_not_in_routes"
    case Because(NotFound) => "route_not_found"
    case Because(NoAlive) => "no_alive_backends"
    case Because(LimitReached) => "dial_limit"
    case Because(DialFailed(_, true)) => "timeout"
    case Because(_) => "dial_error"
  }

  /** DialRoute normalises the host, and Pick normalises it again. */
  function PoolKey(host: string): string {
    NormalizeHost(NormalizeHost(host))
  }

  function Fail(s: Session, end: End, todo: seq<Metric>): Session {
    s.(pc := Dropping, todo := todo, end := end)
  }

  function FailUnrouted(s: Session): Session {
    Fail(s, NoRoute, [RouteFailure(HostPort(s.req.host, s.req.port), Spell(IpNotInRoutes)), ConnError(AtBackendDial)])
  }

  function FailDial(s: Session, r: DialResult): Session {
    Fail(s, NoBackend, [DialFailure(s.host, Spell(Because(r))), RouteFailure(s.host, Spell(Because(r))),
                        Served(s.host, s.target, Spell(Because(r))), ConnError(AtBackendDial)])
  }

  predicate MayDiscover(lim: Limits, s: Session) {
    lim.discovery && s.attempt == 0
  }

  /** The session may take this step now. */
  predicate CanTurn(s: Session, ev: Event) {
    s.todo == [] &&
    match s.pc
    case Hello => ev.HelloDone?
    case Reading => ev.ReadDone? && (ev.request.Some? ==> ev.request.value.atyp in {ATYP_IPV4, ATYP_FQDN})
    case Discovering(_) => ev.Discovered?
    case Dialling(_, _) => ev.DialDone?
    case Replying => ev.ReplyDone?
    case Relaying => ev.RelayDone?
    case Gone => false
    case _ => ev == Tau
  }

  /** What a session's pc says about the routers it refers to. */
  ghost predicate Fits(sh: Shared, s: Session) {
    match s.pc
    case Ticketing(r) => r < |sh.routers|
    case Scanning(r, _, i) =>
      r < |sh.routers| && PoolKey(s.host) in sh.routers[r].pools && i < |sh.routers[r].pools[PoolKey(s.host)].addresses|
    case Dialling(r, slot) =>
      && r < |sh.routers| && PoolKey(s.host) in sh.routers[r].pools
      && slot < |sh.routers[r].pools[PoolKey(s.host)].addresses|
      && s.target == sh.routers[r].pools[PoolKey(s.host)].addresses[slot]
    case _ => true
  }

  ghost predicate RoutersOk(sh: Shared) {
    sh.current < |sh.routers| && forall r :: 0 <= r < |sh.routers| ==> RouterOk(sh.routers[r])
  }

  function SetPool(sh: Shared, r: nat, key: string, p: PoolV): Shared
    requires r < |sh.routers|
  {
    sh.(routers := sh.routers[r := sh.routers[r].(pools := sh.routers[r].pools[key := p])])
  }

  // One function for each pc: what its step does to the session, and to the shared state if it touches it.
  // Collector calls go to `todo`.

  function AfterHello(s: Session, ok: bool): Session {
    if ok then s.(pc := Reading) else Fail(s, BadHello, [ConnError(AtHandshake)])
  }

  function AfterReading(s: Session, request: Option<Request>): Session {
    if request.Some? then s.(pc := Routing, todo := [Greeted], req := request.value)
    else Fail(s, BadRequest, [Greeted, ConnError(AtRequest)])
  }

  function ToDial(s: Session, host: string): Session {
    s.(pc := Acquiring, todo := [RequestSeen(AtypLabel(s.req))], host := host, rounds := s.rounds + 1)
  }

  function ToDiscover(s: Session, failed: Option<DialResult>): Session {
    s.(pc := Discovering(failed), discovers := s.discovers + 1)
  }

  function AfterRouting(lim: Limits, index: map<string, string>, s: Session): Session {
    if s.req.atyp == ATYP_IPV4 then
      var addr := HostPort(s.req.host, s.req.port);
      if addr in index then ToDial(s, index[addr])
      else if MayDiscover(lim, s) then ToDiscover(s, None)
      else FailUnrouted(s)
    else ToDial(s, NormalizeHost(s.req.host))
  }

  function AfterAcquiring(lim: Limits, sh: Shared, s: Session): (Shared, Session) {
    if lim.maxDials <= 0 then (sh, s.(pc := Entering))
    else if sh.dials < lim.maxDials then (sh.(dials := sh.dials + 1), s.(pc := Entering))
    else (sh, s.(pc := Judging(LimitReached), todo := [Dialled], target := []))
  }

  function AfterTicketing(sh: Shared, s: Session, r: nat): (Shared, Session)
    requires r < |sh.routers|
  {
    var key := PoolKey(s.host);
    if key !in sh.routers[r].pools then (sh, s.(pc := Releasing(NotFound), target := []))
    else
      var p := sh.routers[r].pools[key];
      (SetPool(sh, r, key, p.(rr := Advance(p.rr, 1))), s.(pc := Scanning(r, p.rr, 0)))
  }

  function AfterLoad(p: PoolV, s: Session): Session
    requires PoolOk(p) && s.pc.Scanning?
  {
    var idx := Slot(s.pc.start, s.pc.i, |p.addresses|);
    if p.alive[idx] then s.(pc := Dialling(s.pc.router, idx), target := p.addresses[idx])
    else if s.pc.i + 1 == |p.addresses| then s.(pc := Releasing(NoAlive), target := [])
    else s.(pc := Scanning(s.pc.router, s.pc.start, s.pc.i + 1))
  }

  function AfterDial(s: Session, ok: bool, timeout: bool): Session {
    if ok then s.(pc := Releasing(DialResult.Connected(s.target)), conns := s.conns + 1)
    else s.(pc := Releasing(DialFailed(s.target, timeout)))
  }

  function AfterReleasing(lim: Limits, sh: Shared, s: Session, result: DialResult): (Shared, Session) {
    (if lim.maxDials > 0 then sh.(dials := sh.dials - 1) else sh, s.(pc := Judging(result), todo := [Dialled]))
  }

  function AfterJudging(lim: Limits, s: Session, result: DialResult): Session {
    if result.Connected? then s.(pc := Replying)
    else if result == NotFound && MayDiscover(lim, s) then ToDiscover(s, Some(result))
    else FailDial(s, result)
  }

  function AfterDiscovery(s: Session, failed: Option<DialResult>, added: bool): Session {
    if added then s.(pc := Routing, attempt := s.attempt + 1)
    else if failed.None? then FailUnrouted(s)
    else FailDial(s, failed.value)
  }

  function AfterReply(s: Session, ok: bool): Session {
    if ok then s.(pc := Pc.Relaying, todo := [TcpState(Established)])
    else Fail(s, NoReply, [Served(s.host, s.target, Spell(ReplyError)), ConnError(AtReply)])
  }

  /** The first non-ignorable copy error decides the outcome, any reset the close type. */
  function AfterRelay(s: Session, err1: Option<string>, err2: Option<string>): Session {
    var broken := !IsIgnorable(err1) || !IsIgnorable(err2);
    var close := if IsReset(err1) || IsReset(err2) then Rst else Fin;
    Fail(s, Relayed(broken, close == Rst),
         if broken then [TcpState(close), Served(s.host, s.target, Spell(RelayError)), ConnError(AtRelay)]
         else [TcpState(close), Served(s.host, s.target, Spell(Success)), SessionOver])
  }

  function AfterDropping(lim: Limits, sh: Shared, s: Session): (Shared, Session) {
    (if lim.maxConnections > 0 then sh.(tokens := sh.tokens - 1) else sh, s.(pc := Parting, todo := [Closed]))
  }

  /** One step of handleConnection and of serveClient's deferred calls. */
  function Turn(lim: Limits, sh: Shared, s: Session, ev: Event): (Shared, Session)
    requires RoutersOk(sh) && Fits(sh, s) && CanTurn(s, ev)
  {
    match s.pc
    case Hello => (sh, AfterHello(s, ev.ok))
    case Reading => (sh, AfterReading(s, ev.request))
    case Routing => (sh, AfterRouting(lim, sh.routers[sh.current].index, s))
    case Acquiring => AfterAcquiring(lim, sh, s)
    case Entering => (sh, s.(pc := Ticketing(sh.current)))
    case Ticketing(r) => AfterTicketing(sh, s, r)
    case Scanning(r, _, _) => (sh, AfterLoad(sh.routers[r].pools[PoolKey(s.host)], s))
    case Dialling(_, _) => (sh, AfterDial(s, ev.ok, ev.timeout))
    case Releasing(result) => AfterReleasing(lim, sh, s, result)
    case Judging(result) => (sh, AfterJudging(lim, s, result))
    case Discovering(failed) => (sh, AfterDiscovery(s, failed, ev.added))
    case Replying => (sh, AfterReply(s, ev.ok))
    case Relaying => (sh, AfterRelay(s, ev.err1, ev.err2))
    case Dropping => AfterDropping(lim, sh, s)
    case Parting => (sh.(wg := sh.wg - 1), s.(pc := Gone))
    case Gone => (sh, s)
  }

  /** The next collector call of a goroutine. */
  function Log(sh: Shared, e: Metric): Shared {
    sh.(counters := Record(sh.counters, e))
  }

  const NEW_SESSION := Session(Hello, [], Request(ATYP_FQDN, [], 0), 0, 0, 0, 0, [], [], Open)

  // ---------------------------------------------------------------- the whole system

  predicate AcceptorCan(a: Acceptor, ev: AcceptEvent) {
    if a.todo != [] then ev == Proceed
    else match a.pc
      case Waiting => ev == Arrive || ev == AcceptFailed
      case Returned => false
      case _ => ev == Proceed
  }

  predicate SessionCan(s: Session, ev: Event) {
    if s.todo != [] then ev == Tau else CanTurn(s, ev)
  }

  predicate Enabled(st: State, step: Step) {
    match step
    case ByAcceptor(ev) => AcceptorCan(st.acceptor, ev)
    case BySession(i, ev) => i < |st.sessions| && SessionCan(st.sessions[i], ev)
    case Install(_) => true
    case Health(r, _, _, _) => r < |st.shared.routers|
  }

  ghost predicate Legal(step: Step) {
    step.Install? ==> RouterOk(step.router)
  }

  function AcceptorStep(st: State, ev: AcceptEvent): State
    requires AcceptorCan(st.acceptor, ev)
  {
    var a, sh := st.acceptor, st.shared;
    if a.todo != [] then st.(shared := Log(sh, a.todo[0]), acceptor := a.(todo := a.todo[1..]))
    else match a.pc
      case Waiting => st.(acceptor := a.(pc := if ev == Arrive then Arrived else Returned))
      case Arrived =>
        if st.limits.maxConnections <= 0 then
          st.(acceptor := a.(pc := Admitted, todo := [Accepted, Opened, TcpState(Syn)]))
        else if sh.tokens < st.limits.maxConnections then
          st.(shared := sh.(tokens := sh.tokens + 1),
              acceptor := a.(pc := Admitted, todo := [Accepted, Opened, TcpState(Syn)]))
        else st.(acceptor := a.(pc := Waiting, todo := [ConnError(AtConnLimit)], rejected := a.rejected + 1))
      case Admitted => st.(shared := sh.(wg := sh.wg + 1), acceptor := a.(pc := Spawning))
      case Spawning => st.(acceptor := a.(pc := Waiting), sessions := st.sessions + [NEW_SESSION])
      case Returned => st
  }

  function SessionStep(st: State, i: nat, ev: Event): State
    requires RoutersOk(st.shared) && i < |st.sessions| && Fits(st.shared, st.sessions[i])
             && SessionCan(st.sessions[i], ev)
  {
    var s := st.sessions[i];
    if s.todo != [] then
      st.(shared := Log(st.shared, s.todo[0]), sessions := st.sessions[i := s.(todo := s.todo[1..])])
    else
      var (sh, t) := Turn(st.limits, st.shared, s, ev);
      st.(shared := sh, sessions := st.sessions[i := t])
  }

  ghost predicate Sound(st: State) {
    RoutersOk(st.shared) && forall i :: 0 <= i < |st.sessions| ==> Fits(st.shared, st.sessions[i])
  }

  function Apply(st: State, step: Step): State
    requires Sound(st) && Enabled(st, step)
  {
    match step
    case ByAcceptor(ev) => AcceptorStep(st, ev)
    case BySession(i, ev) => SessionStep(st, i, ev)
    case Install(rv) =>
      st.(shared := st.shared.(routers := st.shared.routers + [rv], current := |st.shared.routers|))
    case Health(r, h, a, b) =>
      st.(shared := st.shared.(routers := st.shared.routers[r := SetAliveSpec(st.shared.routers[r], h, a, b).0]))
  }

  /** A server that has just been created with its first router. */
  ghost predicate Initial(st: State) {
    && RoutersOk(st.shared) && st.sessions == []
    && st.shared.counters == NO_COUNTS && st.shared.tokens == st.shared.dials == st.shared.wg == 0
    && st.acceptor == Acceptor(Waiting, [], 0)
  }

  ghost predicate IsRun(states: seq<State>, steps: seq<Step>) {
    && |states| == |steps| + 1
    && Initial(states[0])
    && forall k :: 0 <= k < |steps| ==>
         Sound(states[k]) && Legal(steps[k]) && Enabled(states[k], steps[k])
             && states[k + 1] == Apply(states[k], steps[k])
  }

  // ---------------------------------------------------------------- steps stay well defined

  /** Routers keep their pools and address lists; only flags and counters move. */
  ghost predicate SameRoutes(v: RouterV, w: RouterV) {
    && v.index == w.index && v.pools.Keys == w.pools.Keys
    && forall h :: h in v.pools ==> v.pools[h].addresses == w.pools[h].addresses
  }

  ghost predicate Extends(sh: Shared, tu: Shared) {
    && |sh.routers| <= |tu.routers|
    && forall r :: 0 <= r < |sh.routers| ==> SameRoutes(sh.routers[r], tu.routers[r])
  }

  lemma FitsLater(sh: Shared, tu: Shared, s: Session)
    requires Fits(sh, s) && Extends(sh, tu)
    ensures Fits(tu, s)
  {
    match s.pc {
      case Scanning(r, _, _) => assert SameRoutes(sh.routers[r], tu.routers[r]);
      case Dialling(r, _) => assert SameRoutes(sh.routers[r], tu.routers[r]);
      case _ =>
    }
  }

  lemma TicketSound(sh: Shared, s: Session, r: nat)
    requires RoutersOk(sh) && r < |sh.routers| && s.pc == Ticketing(r)
    ensures var (tu, t) := AfterTicketing(sh, s, r);
            RoutersOk(tu) && Extends(sh, tu) && Fits(tu, t) && tu.counters == sh.counters && tu.current == sh.current
  {
    hide PoolKey;
  }

  lemma LoadSound(sh: Shared, s: Session)
    requires RoutersOk(sh) && Fits(sh, s) && s.pc.Scanning?
    ensures Fits(sh, AfterLoad(sh.routers[s.pc.router].pools[PoolKey(s.host)], s))
  {
    hide PoolKey, Slot;
  }

  lemma SameRouters(sh: Shared, tu: Shared)
    requires RoutersOk(sh) && tu.routers == sh.routers && tu.current == sh.current
    ensures RoutersOk(tu) && Extends(sh, tu)
  {
    hide RouterOk;
  }

  lemma TurnSound(lim: Limits, sh: Shared, s: Session, ev: Event)
    requires RoutersOk(sh) && Fits(sh, s) && CanTurn(s, ev)
    ensures var (tu, t) := Turn(lim, sh, s, ev); RoutersOk(tu) && Extends(sh, tu) && Fits(tu, t)
    ensures var (tu, t) := Turn(lim, sh, s, ev);
            tu.counters == sh.counters && tu.current == sh.current
  {
    hide NormalizeHost, IsReset, IsIgnorable, Spell, RouterOk, AfterTicketing, AfterLoad, Extends;
    match s.pc {
      case Ticketing(r) => TicketSound(sh, s, r);
      case Scanning(_, _, _) =>
        LoadSound(sh, s);
        SameRouters(sh, sh);
      case _ => SameRouters(sh, Turn(lim, sh, s, ev).0);
    }
  }

  lemma SetAliveSound(v: RouterV, h: string, a: string, b: bool)
    requires RouterOk(v)
    ensures RouterOk(SetAliveSpec(v, h, a, b).0) && SameRoutes(v, SetAliveSpec(v, h, a, b).0)
  {
  }

  /** No step of anyone can leave the system in a state from which a goroutine could not go on. */
  lemma StepSound(st: State, step: Step)
    requires Sound(st) && Legal(step) && Enabled(st, step)
    ensures Sound(Apply(st, step)) && Extends(st.shared, Apply(st, step).shared)
  {
    var next := Apply(st, step);
    match step {
      case ByAcceptor(_) =>
      case BySession(i, ev) =>
        if st.sessions[i].todo == [] {
          TurnSound(st.limits, st.shared, st.sessions[i], ev);
        }
      case Install(rv) =>
      case Health(r, h, a, b) => SetAliveSound(st.shared.routers[r], h, a, b);
    }
    hide Turn, SetAliveSpec, SessionCan, CanTurn;
    forall k | 0 <= k < |next.sessions|
      ensures Fits(next.shared, next.sessions[k])
    {
      if k < |st.sessions| && next.sessions[k] == st.sessions[k] {
        FitsLater(st.shared, next.shared, st.sessions[k]);
      }
    }
  }

  lemma {:induction false} RunSound(states: seq<State>, steps: seq<Step>, k: nat)
    requires IsRun(states, steps) && k <= |steps|
    ensures Sound(states[k])
  {
    if k > 0 {
      StepSound(states[k - 1], steps[k - 1]);
    }
  }

  /** Every run can be continued by every step that is enabled: soundness never has to be assumed. */
  lemma RunContinues(states: seq<State>, steps: seq<Step>, step: Step)
    requires IsRun(states, steps) && Legal(step) && Enabled(states[|steps|], step)
    ensures Sound(states[|steps|])
    ensures IsRun(states + [Apply(states[|steps|], step)], steps + [step])
  {
    hide Apply, Sound, Enabled, Legal, Initial;
    RunSound(states, steps, |steps|);
  }
}
