/**
 * One conservation law for the whole server: every counter, semaphore and wait group is, in every state of
 * every run, exactly the sum of what each session and the accept loop are accountable for.
 */
module Accounts {
  import opened Text
  import opened Metrics
  import opened Sessions

  /** A quantity of the shared state: a metrics column, the two semaphores, the wait group. */
  datatype Item = Counter(col: Column) | Tokens | DialSlots | WaitGroup

  ghost function Value(sh: Shared, item: Item): int {
    match item
    case Counter(col) => Read(sh.counters, col)
    case Tokens => sh.tokens
    case DialSlots => sh.dials
    case WaitGroup => sh.wg
  }

  /** The worth of collector calls still to be made. */
  function Owed(todo: seq<Metric>, item: Item): int {
    if todo == [] || !item.Counter? then 0 else Worth(todo[0], item.col) + Owed(todo[1..], item)
  }

  // ---------------------------------------------------------------- what one session is accountable for

  predicate InDial(pc: Pc) {
    pc.Acquiring? || pc.Entering? || pc.Ticketing? || pc.Scanning? || pc.Dialling? || pc.Releasing?
  }

  predicate Leaving(pc: Pc) {
    pc.Parting? || pc.Gone?
  }

  predicate Unserved(end: End) {
    end.NoRoute? || end.NoBackend?
  }

  /** What the session has counted once its outstanding calls are made; judged by where it is and how it ended. */
  function Due(s: Session, col: Column): int {
    match col
    case Connections => 1
    case ActiveGauge => One(!Leaving(s.pc))
    case InState(Syn) => 1
    case InState(Established) => One(s.pc.Relaying? || s.end.Relayed?)
    case InState(Fin) => One(s.end.Relayed? && !s.end.reset)
    case InState(Rst) => One(s.end.Relayed? && s.end.reset)
    case Errors(AtHandshake) => One(s.end.BadHello?)
    case Errors(AtRequest) => One(s.end.BadRequest?)
    case Errors(AtBackendDial) => One(Unserved(s.end))
    case Errors(AtReply) => One(s.end.NoReply?)
    case Errors(AtRelay) => One(s.end.Relayed? && s.end.broken)
    case Errors(AtConnLimit) => 0
    case Handshakes => One(!s.pc.Hello? && !s.pc.Reading? && !s.end.BadHello?)
    case Requests => s.rounds
    case Dials => s.rounds - One(InDial(s.pc))
    case RouteFails => One(Unserved(s.end))
    case DialFails => One(s.end.NoBackend?)
    case Outcomes => One(s.end.NoBackend? || s.end.NoReply? || s.end.Relayed?)
    case SessionsOver => One(s.end.Relayed? && !s.end.broken)
  }

  function Share(lim: Limits, s: Session, item: Item): int {
    match item
    case Counter(col) => Due(s, col) - Owed(s.todo, item)
    case Tokens => One(lim.maxConnections > 0 && !Leaving(s.pc))
    case DialSlots => One(lim.maxDials > 0 && InDial(s.pc) && !s.pc.Acquiring?)
    case WaitGroup => One(!s.pc.Gone?)
  }

  predicate Started(a: Acceptor) {
    a.pc.Admitted? || a.pc.Spawning?
  }

  function AcceptorShare(lim: Limits, a: Acceptor, item: Item): int {
    (match item
     case Tokens => One(lim.maxConnections > 0 && Started(a))
     case WaitGroup => One(a.pc.Spawning?)
     case Counter(Connections) => One(Started(a))
     case Counter(ActiveGauge) => One(Started(a))
     case Counter(InState(Syn)) => One(Started(a))
     case Counter(Errors(AtConnLimit)) => a.rejected
     case _ => 0) - Owed(a.todo, item)
  }

  function AllShares(lim: Limits, ss: seq<Session>, item: Item): int {
    if ss == [] then 0
    else AllShares(lim, ss[..|ss| - 1], item) + Share(lim, ss[|ss| - 1], item)
  }

  /** The conservation law for one quantity. */
  ghost predicate Conserved(st: State, item: Item) {
    Value(st.shared, item) ==
    AcceptorShare(st.limits, st.acceptor, item) + AllShares(st.limits, st.sessions, item)
  }

  // ---------------------------------------------------------------- what a session's fields say together

  predicate Plain(todo: seq<Metric>) {
    forall k :: 0 <= k < |todo| ==> !todo[k].Closed? && !todo[k].Opened?
  }

  predicate HasConnection(s: Session) {
    match s.pc
    case Releasing(r) => r.Connected?
    case Judging(r) => r.Connected?
    case Replying => true
    case Relaying => true
    case _ => s.end.NoReply? || s.end.Relayed?
  }

  /** At most two rounds, one discovery, one backend connection; an end exactly once the session is over. */
  predicate Consistent(s: Session) {
    && (s.end.Open? <==> !s.pc.Dropping? && !Leaving(s.pc))
    && s.attempt <= s.discovers <= 1
    && (s.discovers > s.attempt ==> s.pc.Discovering? || !s.end.Open?)
    && s.rounds <= s.attempt + 1
    && (s.pc.Hello? || s.pc.Reading? || s.end.BadHello? || s.end.BadRequest? ==> s.rounds == s.discovers == 0)
    && (s.pc.Routing? ==> s.rounds <= s.attempt)
    && (s.pc.Discovering? ==> s.attempt == 0 && s.discovers == 1)
    && (InDial(s.pc) ==> s.rounds >= 1)
    && s.conns == One(HasConnection(s))
    && (if s.pc.Parting? then s.todo == [Closed] || s.todo == [] else Plain(s.todo))
    && (s.pc.Gone? ==> s.todo == [])
  }

  predicate AcceptorConsistent(a: Acceptor) {
    if a.pc.Admitted? then
      || a.todo == [Accepted, Opened, TcpState(Syn)] || a.todo == [Opened, TcpState(Syn)]
      || a.todo == [TcpState(Syn)] || a.todo == []
    else a.todo == [] || (a.pc.Waiting? && a.todo == [ConnError(AtConnLimit)])
  }

  ghost predicate Invariant(st: State) {
    && (forall item :: Conserved(st, item))
    && AcceptorConsistent(st.acceptor)
    && (forall i :: 0 <= i < |st.sessions| ==> Consistent(st.sessions[i]))
    && (st.limits.maxConnections > 0 ==> st.shared.tokens <= st.limits.maxConnections)
    && (st.limits.maxDials > 0 ==> st.shared.dials <= st.limits.maxDials)
  }

  // ---------------------------------------------------------------- one turn of one session

  lemma Owes(todo: seq<Metric>, item: Item)
    requires item.Counter? && |todo| <= 4
    ensures Owed(todo, item) ==
            (if |todo| > 0 then Worth(todo[0], item.col) else 0) +
            (if |todo| > 1 then Worth(todo[1], item.col) else 0) +
            (if |todo| > 2 then Worth(todo[2], item.col) else 0) +
            (if |todo| > 3 then Worth(todo[3], item.col) else 0)
  {
    hide Worth;
    if todo != [] {
      Owes(todo[1..], item);
    }
  }

  /** Steps that leave the shared state alone leave the session's share alone. */
  lemma HelloShares(lim: Limits, s: Session, ok: bool, item: Item)
    requires s.pc.Hello? && s.todo == [] && s.end.Open?
    ensures Share(lim, AfterHello(s, ok), item) == Share(lim, s, item)
  {
    if item.Counter? {
      Owes(AfterHello(s, ok).todo, item);
    }
  }

  lemma ReadingShares(lim: Limits, s: Session, request: Option<Wire.Request>, item: Item)
    requires s.pc.Reading? && s.todo == [] && s.end.Open?
    ensures Share(lim, AfterReading(s, request), item) == Share(lim, s, item)
  {
    if item.Counter? {
      Owes(AfterReading(s, request).todo, item);
    }
  }

  lemma UnroutedShares(lim: Limits, s: Session, item: Item)
    requires s.todo == [] && s.end.Open? && (s.pc.Routing? || s.pc.Discovering?)
    ensures Share(lim, FailUnrouted(s), item) == Share(lim, s, item)
  {
    hide Spell, Addresses.HostPort;
    if item.Counter? {
      Owes(FailUnrouted(s).todo, item);
    }
  }

  lemma FailDialShares(lim: Limits, s: Session, r: DialResult, item: Item)
    requires s.todo == [] && s.end.Open? && (s.pc.Judging? || s.pc.Discovering?)
    ensures Share(lim, FailDial(s, r), item) == Share(lim, s, item)
  {
    hide Spell;
    if item.Counter? {
      Owes(FailDial(s, r).todo, item);
    }
  }

  lemma RoutingShares(lim: Limits, s: Session, index: map<string, string>, item: Item)
    requires s.pc.Routing? && s.todo == [] && s.end.Open?
    ensures Share(lim, AfterRouting(lim, index, s), item) == Share(lim, s, item)
  {
    hide FailUnrouted, Addresses.HostPort, Hosts.NormalizeHost, MayDiscover;
    UnroutedShares(lim, s, item);
    if item.Counter? {
      Owes([RequestSeen(AtypLabel(s.req))], item);
    }
  }

  lemma AcquiringShares(lim: Limits, sh: Shared, s: Session, item: Item)
    requires s.pc.Acquiring? && s.todo == [] && s.end.Open?
    ensures var (tu, t) := AfterAcquiring(lim, sh, s);
            Value(tu, item) - Value(sh, item) == Share(lim, t, item) - Share(lim, s, item)
  {
    hide Read;
    if item.Counter? {
      Owes([Dialled], item);
    }
  }

  lemma TicketingShares(lim: Limits, sh: Shared, s: Session, r: nat, item: Item)
    requires s.pc == Ticketing(r) && r < |sh.routers| && s.todo == [] && s.end.Open?
    ensures var (tu, t) := AfterTicketing(sh, s, r);
            Value(tu, item) == Value(sh, item) && Share(lim, t, item) == Share(lim, s, item)
  {
    hide Read, PoolKey, Scan.Advance;
  }

  lemma LoadShares(lim: Limits, p: Router.PoolV, s: Session, item: Item)
    requires s.pc.Scanning? && Router.PoolOk(p) && s.todo == [] && s.end.Open?
    ensures Share(lim, AfterLoad(p, s), item) == Share(lim, s, item)
  {
    hide Scan.Slot;
  }

  lemma DialShares(lim: Limits, s: Session, ok: bool, timeout: bool, item: Item)
    requires s.pc.Dialling? && s.todo == [] && s.end.Open?
    ensures Share(lim, AfterDial(s, ok, timeout), item) == Share(lim, s, item)
  {
  }

  lemma ReleasingShares(lim: Limits, sh: Shared, s: Session, r: DialResult, item: Item)
    requires s.pc == Releasing(r) && s.todo == [] && s.end.Open?
    ensures var (tu, t) := AfterReleasing(lim, sh, s, r);
            Value(tu, item) - Value(sh, item) == Share(lim, t, item) - Share(lim, s, item)
  {
    hide Read;
    if item.Counter? {
      Owes([Dialled], item);
    }
  }

  lemma VerdictShares(lim: Limits, s: Session, r: DialResult, item: Item)
    requires s.pc.Judging? && s.todo == [] && s.end.Open?
    ensures Share(lim, AfterJudging(lim, s, r), item) == Share(lim, s, item)
  {
    hide FailDial;
    FailDialShares(lim, s, r, item);
  }

  lemma DiscoveryShares(lim: Limits, s: Session, failed: Option<DialResult>, added: bool, item: Item)
    requires s.pc.Discovering? && s.todo == [] && s.end.Open?
    ensures Share(lim, AfterDiscovery(s, failed, added), item) == Share(lim, s, item)
  {
    hide FailDial, FailUnrouted;
    UnroutedShares(lim, s, item);
    if failed.Some? {
      FailDialShares(lim, s, failed.value, item);
    }
  }

  lemma ReplyShares(lim: Limits, s: Session, ok: bool, item: Item)
    requires s.pc.Replying? && s.todo == [] && s.end.Open?
    ensures Share(lim, AfterReply(s, ok), item) == Share(lim, s, item)
  {
    hide Spell;
    if item.Counter? {
      Owes(AfterReply(s, ok).todo, item);
    }
  }

  lemma RelayShares(lim: Limits, s: Session, err1: Option<string>, err2: Option<string>, item: Item)
    requires s.pc.Relaying? && s.todo == [] && s.end.Open?
    ensures Share(lim, AfterRelay(s, err1, err2), item) == Share(lim, s, item)
  {
    hide Spell, IsReset, IsIgnorable;
    if item.Counter? {
      Owes(AfterRelay(s, err1, err2).todo, item);
    }
  }

  lemma DroppingShares(lim: Limits, sh: Shared, s: Session, item: Item)
    requires s.pc.Dropping? && s.todo == []
    ensures var (tu, t) := AfterDropping(lim, sh, s);
            Value(tu, item) - Value(sh, item) == Share(lim, t, item) - Share(lim, s, item)
  {
    hide Read;
    if item.Counter? {
      Owes([Closed], item);
    }
  }

  lemma OpenUntilDropped(s: Session)
    requires Consistent(s)
    ensures s.end.Open? <==> !s.pc.Dropping? && !Leaving(s.pc)
  {
  }

  /** Every turn moves the session's share by exactly as much as it moves the shared quantity. */
  lemma TurnBalances(lim: Limits, sh: Shared, s: Session, ev: Event, item: Item)
    requires RoutersOk(sh) && Fits(sh, s) && CanTurn(s, ev) && Consistent(s)
    ensures var (tu, t) := Turn(lim, sh, s, ev);
            Value(tu, item) - Value(sh, item) == Share(lim, t, item) - Share(lim, s, item)
  {
    hide Read, Consistent, AfterHello, AfterReading, AfterRouting, AfterAcquiring, AfterTicketing, AfterLoad, AfterDial,
         AfterReleasing, AfterJudging, AfterDiscovery, AfterReply, AfterRelay, AfterDropping;
    OpenUntilDropped(s);
    match s.pc {
      case Hello => HelloShares(lim, s, ev.ok, item);
      case Reading => ReadingShares(lim, s, ev.request, item);
      case Routing => RoutingShares(lim, s, sh.routers[sh.current].index, item);
      case Acquiring => AcquiringShares(lim, sh, s, item);
      case Ticketing(r) => TicketingShares(lim, sh, s, r, item);
      case Scanning(r, _, _) => LoadShares(lim, sh.routers[r].pools[PoolKey(s.host)], s, item);
      case Dialling(_, _) => DialShares(lim, s, ev.ok, ev.timeout, item);
      case Releasing(r) => ReleasingShares(lim, sh, s, r, item);
      case Judging(r) => VerdictShares(lim, s, r, item);
      case Discovering(f) => DiscoveryShares(lim, s, f, ev.added, item);
      case Replying => ReplyShares(lim, s, ev.ok, item);
      case Relaying => RelayShares(lim, s, ev.err1, ev.err2, item);
      case Dropping => DroppingShares(lim, sh, s, item);
      case _ =>
    }
  }

  lemma EarlyConsistent(lim: Limits, index: map<string, string>, s: Session, ok: bool, request: Option<Wire.Request>)
    requires Consistent(s) && s.todo == []
    ensures s.pc.Hello? ==> Consistent(AfterHello(s, ok))
    ensures s.pc.Reading? ==> Consistent(AfterReading(s, request))
    ensures s.pc.Routing? ==> Consistent(AfterRouting(lim, index, s))
  {
    hide Spell, Addresses.HostPort, Hosts.NormalizeHost;
  }

  lemma PickConsistent(lim: Limits, sh: Shared, s: Session)
    requires Consistent(s) && s.todo == []
    ensures s.pc.Acquiring? ==> Consistent(AfterAcquiring(lim, sh, s).1)
    ensures s.pc.Ticketing? && s.pc.router < |sh.routers| ==> Consistent(AfterTicketing(sh, s, s.pc.router).1)
    ensures s.pc.Scanning? ==> forall p: Router.PoolV :: Router.PoolOk(p) ==> Consistent(AfterLoad(p, s))
  {
    hide PoolKey, Scan.Slot, Scan.Advance, SetPool;
  }

  lemma DialConsistent(lim: Limits, sh: Shared, s: Session, ok: bool, timeout: bool, added: bool)
    requires Consistent(s) && s.todo == []
    ensures s.pc.Dialling? ==> Consistent(AfterDial(s, ok, timeout))
    ensures s.pc.Releasing? ==> Consistent(AfterReleasing(lim, sh, s, s.pc.result).1)
    ensures s.pc.Judging? ==> Consistent(AfterJudging(lim, s, s.pc.result))
    ensures s.pc.Discovering? ==> Consistent(AfterDiscovery(s, s.pc.failed, added))
  {
    hide Spell, Addresses.HostPort;
  }

  lemma LateConsistent(lim: Limits, sh: Shared, s: Session, ok: bool, err1: Option<string>, err2: Option<string>)
    requires Consistent(s) && s.todo == []
    ensures s.pc.Replying? ==> Consistent(AfterReply(s, ok))
    ensures s.pc.Relaying? ==> Consistent(AfterRelay(s, err1, err2))
    ensures s.pc.Dropping? ==> Consistent(AfterDropping(lim, sh, s).1)
  {
    hide Spell, IsReset, IsIgnorable;
  }

  /** A turn keeps the session consistent and the semaphores within their limits. */
  lemma TurnConsistent(lim: Limits, sh: Shared, s: Session, ev: Event)
    requires RoutersOk(sh) && Fits(sh, s) && CanTurn(s, ev) && Consistent(s)
    ensures var (tu, t) := Turn(lim, sh, s, ev);
            && Consistent(t) && tu.tokens <= sh.tokens
            && (lim.maxDials > 0 && sh.dials <= lim.maxDials ==> tu.dials <= lim.maxDials)
  {
    match s.pc {
      case Hello => EarlyConsistent(lim, map[], s, ev.ok, None);
      case Reading => EarlyConsistent(lim, map[], s, true, ev.request);
      case Routing => EarlyConsistent(lim, sh.routers[sh.current].index, s, true, None);
      case Acquiring => PickConsistent(lim, sh, s);
      case Ticketing(_) => PickConsistent(lim, sh, s);
      case Scanning(_, _, _) => PickConsistent(lim, sh, s);
      case Dialling(_, _) => DialConsistent(lim, sh, s, ev.ok, ev.timeout, false);
      case Releasing(_) => DialConsistent(lim, sh, s, true, true, false);
      case Judging(_) => DialConsistent(lim, sh, s, true, true, false);
      case Discovering(_) => DialConsistent(lim, sh, s, true, true, ev.added);
      case Replying => LateConsistent(lim, sh, s, ev.ok, None, None);
      case Relaying => LateConsistent(lim, sh, s, true, ev.err1, ev.err2);
      case Dropping => LateConsistent(lim, sh, s, true, None, None);
      case _ =>
    }
    hide AfterHello, AfterReading, AfterRouting, AfterLoad, AfterDial, AfterJudging, AfterDiscovery, AfterReply,
        AfterRelay,  SetPool, PoolKey;
  }

  // ---------------------------------------------------------------- one step of the system

  lemma {:induction false} SharesUpdate(lim: Limits, ss: seq<Session>, i: nat, t: Session, item: Item)
    requires i < |ss|
    ensures AllShares(lim, ss[i := t], item) - AllShares(lim, ss, item) == Share(lim, t, item) - Share(lim, ss[i], item)
  {
    hide Share;
    var n := |ss| - 1;
    var us := ss[i := t];
    if i < n {
      SharesUpdate(lim, ss[..n], i, t, item);
      assert us[..n] == ss[..n][i := t];
    } else {
      assert us[..n] == ss[..n];
    }
  }

  lemma LogBalances(sh: Shared, todo: seq<Metric>, item: Item)
    requires todo != []
    ensures Value(Log(sh, todo[0]), item) - Value(sh, item) == Owed(todo, item) - Owed(todo[1..], item)
  {
    hide Read, Worth, Record;
    if item.Counter? {
      RecordAddsWorth(sh.counters, todo[0], item.col);
    }
  }

  /** Replacing session i by t while the shared quantity moves along keeps the law. */
  lemma MoveConserves(st: State, tu: Shared, i: nat, t: Session, item: Item)
    requires i < |st.sessions| && Conserved(st, item)
    requires Value(tu, item) - Value(st.shared, item) ==
             Share(st.limits, t, item) - Share(st.limits, st.sessions[i], item)
    ensures Conserved(st.(shared := tu, sessions := st.sessions[i := t]), item)
  {
    hide Value, Share, AcceptorShare;
    SharesUpdate(st.limits, st.sessions, i, t, item);
  }

  lemma SessionConserves(st: State, i: nat, ev: Event, item: Item)
    requires Sound(st) && Enabled(st, BySession(i, ev)) && Consistent(st.sessions[i]) && Conserved(st, item)
    ensures Conserved(SessionStep(st, i, ev), item)
  {
    hide Conserved, Consistent, Fits, RoutersOk, CanTurn, Turn, Value;
    var s := st.sessions[i];
    if s.todo != [] {
      LogBalances(st.shared, s.todo, item);
      LogShare(st.limits, s, item);
      MoveConserves(st, Log(st.shared, s.todo[0]), i, s.(todo := s.todo[1..]), item);
    } else {
      var (tu, t) := Turn(st.limits, st.shared, s, ev);
      TurnBalances(st.limits, st.shared, s, ev, item);
      MoveConserves(st, tu, i, t, item);
    }
  }

  lemma LogShare(lim: Limits, s: Session, item: Item)
    requires s.todo != []
    ensures Share(lim, s.(todo := s.todo[1..]), item) - Share(lim, s, item) ==
            Owed(s.todo, item) - Owed(s.todo[1..], item)
  {
    if !item.Counter? {
      assert Owed(s.todo, item) == Owed(s.todo[1..], item) == 0;
    }
  }

  lemma AdmissionConserves(st: State, ev: AcceptEvent, item: Item)
    requires AcceptorCan(st.acceptor, ev) && st.acceptor.todo == [] && st.acceptor.pc.Arrived? && Conserved(st, item)
    ensures Conserved(AcceptorStep(st, ev), item)
  {
    hide Read, AllShares;
    if item.Counter? {
      Owes([Accepted, Opened, TcpState(Syn)], item);
      Owes([ConnError(AtConnLimit)], item);
    }
  }

  lemma OneMoreShare(lim: Limits, ss: seq<Session>, s: Session, item: Item)
    ensures AllShares(lim, ss + [s], item) == AllShares(lim, ss, item) + Share(lim, s, item)
  {
    hide Share;
    assert (ss + [s])[..|ss|] == ss;
  }

  /** A new session takes over exactly what the accept loop was accountable for. */
  lemma SpawnShares(lim: Limits, a: Acceptor, item: Item)
    requires a.todo == [] && a.pc.Spawning?
    ensures AcceptorShare(lim, a, item) == AcceptorShare(lim, a.(pc := Waiting), item) + Share(lim, NEW_SESSION, item)
  {
  }

  lemma SpawnConserves(st: State, ev: AcceptEvent, item: Item)
    requires AcceptorCan(st.acceptor, ev) && st.acceptor.todo == [] && st.acceptor.pc.Spawning? && Conserved(st, item)
    ensures Conserved(AcceptorStep(st, ev), item)
  {
    OneMoreShare(st.limits, st.sessions, NEW_SESSION, item);
    SpawnShares(st.limits, st.acceptor, item);
    hide Value, AllShares, Share, AcceptorShare;
  }

  lemma AcceptorConserves(st: State, ev: AcceptEvent, item: Item)
    requires AcceptorCan(st.acceptor, ev) && AcceptorConsistent(st.acceptor) && Conserved(st, item)
    ensures Conserved(AcceptorStep(st, ev), item)
  {
    var a := st.acceptor;
    if a.todo != [] {
      LogBalances(st.shared, a.todo, item);
      hide Value, Log, AllShares;
      assert !item.Counter? ==> Owed(a.todo, item) == Owed(a.todo[1..], item) == 0;
      hide Owed;
    } else if a.pc.Arrived? {
      AdmissionConserves(st, ev, item);
    } else if a.pc.Spawning? {
      SpawnConserves(st, ev, item);
    } else {
      hide Read, AllShares;
    }
  }

  lemma StepKeepsInvariant(st: State, step: Step)
    requires Sound(st) && Enabled(st, step) && Invariant(st)
    ensures Invariant(Apply(st, step))
  {
    var next := Apply(st, step);
    match step {
      case ByAcceptor(ev) =>
        forall item
          ensures Conserved(next, item)
        {
          AcceptorConserves(st, ev, item);
        }
        assert Consistent(NEW_SESSION);
        hide Conserved, Consistent, Log;
      case BySession(i, ev) =>
        forall item
          ensures Conserved(next, item)
        {
          SessionConserves(st, i, ev, item);
        }
        var s := st.sessions[i];
        assert Consistent(s);
        if s.todo == [] {
          TurnConsistent(st.limits, st.shared, s, ev);
        } else {
          LogKeepsConsistent(s);
        }
        hide Conserved, Consistent, Turn, Sound, CanTurn, Fits, RoutersOk;
      case Install(rv) =>
        assert forall item :: Conserved(st, item) ==> Conserved(next, item);
        hide Conserved;
      case Health(r, h, a, b) =>
        assert forall item :: Conserved(st, item) ==> Conserved(next, item);
        hide Conserved;
    }
  }

  lemma LogKeepsConsistent(s: Session)
    requires Consistent(s) && s.todo != []
    ensures Consistent(s.(todo := s.todo[1..]))
  {
  }

  lemma {:induction false} RunKeepsInvariant(states: seq<State>, steps: seq<Step>, k: nat)
    requires IsRun(states, steps) && k <= |steps|
    ensures Invariant(states[k])
  {
    if k > 0 {
      RunKeepsInvariant(states, steps, k - 1);
      StepKeepsInvariant(states[k - 1], steps[k - 1]);
    } else {
      hide Read, Sum;
      forall item
        ensures Conserved(states[0], item)
      {
        if item.Counter? {
          FreshReadsZero(item.col);
        }
      }
    }
  }
}
