/** The collector: labelled counters, one increment at a time, and the totals read off them. */
module Metrics {
  import opened Labels

  type counts<K(==)> = map<K, nat>

  /** The constant label values the proxy uses. */
  datatype TcpLabel = Syn | Established | Fin | Rst

  datatype Stage = AtHandshake | AtRequest | AtBackendDial | AtReply | AtRelay | AtConnLimit

  datatype Atyp = Ipv4 | Fqdn

  /** One call of a collector method (one atomic or locked update). */
  datatype Metric =
    | Accepted
    | Opened
    | Closed
    | TcpState(state: TcpLabel)
    | Greeted
    | RequestSeen(atyp: Atyp)
    | Served(host: string, backend: string, result: string)
    | ConnError(stage: Stage)
    | RouteFailure(host: string, reason: string)
    | Dialled
    | DialFailure(host: string, reason: string)
    | SessionOver

  datatype Counters = Counters(
    total: nat,
    active: int,
    errors: counts<Stage>,
    requests: counts<Atyp>,
    byBackend: counts<string>,
    routeFailures: counts<string>,
    dialFailures: counts<string>,
    tcp: counts<TcpLabel>,
    handshakes: nat,
    dials: nat,
    sessions: nat
  )

  const NO_COUNTS := Counters(0, 0, map[], map[], map[], map[], map[], map[], 0, 0, 0)

  function Get<K>(m: counts<K>, k: K): nat {
    if k in m then m[k] else 0
  }

  function Bump<K>(m: counts<K>, k: K): counts<K> {
    m[k := Get(m, k) + 1]
  }

  function Or(s: string, default: string): string {
    if s == [] then default else s
  }

  function ServedKey(host: string, backend: string, result: string): string {
    HostBackendResult(Or(host, "unknown"), Or(backend, "none"), Or(result, "unknown"))
  }

  function Record(c: Counters, e: Metric): Counters {
    match e
    case Accepted => c.(total := c.total + 1)
    case Opened => c.(active := c.active + 1)
    case Closed => c.(active := c.active - 1)
    case TcpState(state) => c.(tcp := Bump(c.tcp, state))
    case Greeted => c.(handshakes := c.handshakes + 1)
    case RequestSeen(atyp) => c.(requests := Bump(c.requests, atyp))
    case Served(h, b, r) => c.(byBackend := Bump(c.byBackend, ServedKey(h, b, r)))
    case ConnError(stage) => c.(errors := Bump(c.errors, stage))
    case RouteFailure(h, r) => c.(routeFailures := Bump(c.routeFailures, HostReason(h, r)))
    case Dialled => c.(dials := c.dials + 1)
    case DialFailure(h, r) => c.(dialFailures := Bump(c.dialFailures, HostReason(h, r)))
    case SessionOver => c.(sessions := c.sessions + 1)
  }

  class Collector {
    var connectionsTotal: nat
    var connectionsActive: int
    var connectionErrors: counts<Stage>
    var requestsTotal: counts<Atyp>
    var requestsByBackend: counts<string>
    var routeFailures: counts<string>
    var backendDialFailed: counts<string>
    var tcpState: counts<TcpLabel>
    var handshakeCount: nat
    var dialCount: nat
    var sessionCount: nat

    function Value(): Counters
      reads this
    {
      Counters(connectionsTotal, connectionsActive, connectionErrors, requestsTotal, requestsByBackend,
               routeFailures, backendDialFailed, tcpState, handshakeCount, dialCount, sessionCount)
    }

    constructor ()
      ensures Value() == NO_COUNTS
      ensures forall col :: Read(Value(), col) == 0
    {
      connectionsTotal, connectionsActive := 0, 0;
      connectionErrors, requestsTotal, requestsByBackend := map[], map[], map[];
      routeFailures, backendDialFailed, tcpState := map[], map[], map[];
      handshakeCount, dialCount, sessionCount := 0, 0, 0;
    }

    method IncTCPState(state: TcpLabel)
      modifies this
      ensures Value() == Record(old(Value()), TcpState(state))
      ensures forall col :: Read(Value(), col) == old(Read(Value(), col)) + Worth(TcpState(state), col)
    {
      AddsWorth(Value(), TcpState(state));
      tcpState := Increment(tcpState, state);
    }

    method IncConnectionAccepted()
      modifies this
      ensures Value() == Record(Record(old(Value()), Accepted), Opened)
      ensures forall col ::
                Read(Value(), col) == old(Read(Value(), col)) + One(col == Connections || col == ActiveGauge)
    {
      AddsWorth(Value(), Accepted);
      AddsWorth(Record(Value(), Accepted), Opened);
      connectionsTotal := connectionsTotal + 1;
      connectionsActive := connectionsActive + 1;
    }

    method DecConnectionActive()
      modifies this
      ensures Value() == Record(old(Value()), Closed)
      ensures forall col :: Read(Value(), col) == old(Read(Value(), col)) + Worth(Closed, col)
    {
      AddsWorth(Value(), Closed);
      connectionsActive := connectionsActive - 1;
    }

    method ObserveHandshakeLatency()
      modifies this
      ensures Value() == Record(old(Value()), Greeted)
      ensures forall col :: Read(Value(), col) == old(Read(Value(), col)) + Worth(Greeted, col)
    {
      AddsWorth(Value(), Greeted);
      handshakeCount := handshakeCount + 1;
    }

    method IncRequest(atyp: Atyp)
      modifies this
      ensures Value() == Record(old(Value()), RequestSeen(atyp))
      ensures forall col :: Read(Value(), col) == old(Read(Value(), col)) + Worth(RequestSeen(atyp), col)
    {
      AddsWorth(Value(), RequestSeen(atyp));
      requestsTotal := Increment(requestsTotal, atyp);
    }

    method IncRequestByBackend(host: string, backend: string, result: string)
      modifies this
      ensures Value() == Record(old(Value()), Served(host, backend, result))
      ensures forall col :: Read(Value(), col) == old(Read(Value(), col)) + Worth(Served(host, backend, result), col)
    {
      hide Read, Worth, ServedKey;
      AddsWorth(Value(), Served(host, backend, result));
      var key := BackendKey(host, backend, result);
      requestsByBackend := Increment(requestsByBackend, key);
    }

    method IncConnectionError(stage: Stage)
      modifies this
      ensures Value() == Record(old(Value()), ConnError(stage))
      ensures forall col :: Read(Value(), col) == old(Read(Value(), col)) + Worth(ConnError(stage), col)
    {
      AddsWorth(Value(), ConnError(stage));
      connectionErrors := Increment(connectionErrors, stage);
    }

    method IncRouteFailure(host: string, reason: string)
      modifies this
      ensures Value() == Record(old(Value()), RouteFailure(host, reason))
      ensures forall col :: Read(Value(), col) == old(Read(Value(), col)) + Worth(RouteFailure(host, reason), col)
    {
      AddsWorth(Value(), RouteFailure(host, reason));
      routeFailures := Increment(routeFailures, HostReason(host, reason));
    }

    method ObserveBackendDialLatency()
      modifies this
      ensures Value() == Record(old(Value()), Dialled)
      ensures forall col :: Read(Value(), col) == old(Read(Value(), col)) + Worth(Dialled, col)
    {
      AddsWorth(Value(), Dialled);
      dialCount := dialCount + 1;
    }

    method IncBackendDialFailure(host: string, reason: string)
      modifies this
      ensures Value() == Record(old(Value()), DialFailure(host, reason))
      ensures forall col :: Read(Value(), col) == old(Read(Value(), col)) + Worth(DialFailure(host, reason), col)
    {
      AddsWorth(Value(), DialFailure(host, reason));
      backendDialFailed := Increment(backendDialFailed, HostReason(host, reason));
    }

    method ObserveSessionDuration()
      modifies this
      ensures Value() == Record(old(Value()), SessionOver)
      ensures forall col :: Read(Value(), col) == old(Read(Value(), col)) + Worth(SessionOver, col)
    {
      AddsWorth(Value(), SessionOver);
      sessionCount := sessionCount + 1;
    }
  }

  /** The key of requestsByBackend, with the texts that stand in for empty ones. */
  method BackendKey(host: string, backend: string, result: string) returns (key: string)
    ensures key == ServedKey(host, backend, result)
  {
    hide HostBackendResult;
    var h, b, r := host, backend, result;
    if h == "" {
      h := "unknown";
    }
    if b == "" {
      b := "none";
    }
    if r == "" {
      r := "unknown";
    }
    key := HostBackendResult(h, b, r);
  }

  /** m[k]++ on a Go map, where an absent key counts as zero. */
  method Increment<K(==)>(m: counts<K>, k: K) returns (r: counts<K>)
    ensures r == Bump(m, k)
  {
    var before := 0;
    if k in m {
      before := m[k];
    }
    r := m[k := before + 1];
  }

  // ---------------------------------------------------------------- totals

  ghost function Sum<K>(m: counts<K>): nat
    decreases |m|
  {
    if m == map[] then 0
    else
      var k :| k in m;
      m[k] + Sum(m - {k})
  }

  /** The sum does not depend on the order of summation. */
  lemma {:induction false} SumSplits<K>(m: counts<K>, k: K)
    requires k in m
    ensures Sum(m) == m[k] + Sum(m - {k})
    decreases |m|
  {
    var j :| j in m && Sum(m) == m[j] + Sum(m - {j});
    if j != k {
      SumSplits(m - {j}, k);
      SumSplits(m - {k}, j);
      assert m - {j} - {k} == m - {k} - {j};
    }
  }

  /** Adding one under any key adds one to the sum. */
  lemma BumpAddsOne<K>(m: counts<K>, k: K)
    ensures Sum(Bump(m, k)) == Sum(m) + 1
  {
    SumSplits(Bump(m, k), k);
    if k in m {
      SumSplits(m, k);
    }
    assert Bump(m, k) - {k} == m - {k};
    if k !in m {
      assert m - {k} == m;
    }
  }

  /** What an operator reads: single counters, and sums over all labels where the label does not matter. */
  datatype Column =
    | Connections
    | ActiveGauge
    | InState(state: TcpLabel)
    | Errors(stage: Stage)
    | Handshakes
    | Requests
    | Dials
    | RouteFails
    | DialFails
    | Outcomes
    | SessionsOver

  ghost function Read(c: Counters, col: Column): int {
    match col
    case Connections => c.total
    case ActiveGauge => c.active
    case InState(s) => Get(c.tcp, s)
    case Errors(s) => Get(c.errors, s)
    case Handshakes => c.handshakes
    case Requests => Sum(c.requests)
    case Dials => c.dials
    case RouteFails => Sum(c.routeFailures)
    case DialFails => Sum(c.dialFailures)
    case Outcomes => Sum(c.byBackend)
    case SessionsOver => c.sessions
  }

  function One(b: bool): int {
    if b then 1 else 0
  }

  /** What one collector call is worth in a column. */
  function Worth(e: Metric, col: Column): int {
    match e
    case Accepted => One(col == Connections)
    case Opened => One(col == ActiveGauge)
    case Closed => -One(col == ActiveGauge)
    case TcpState(s) => One(col == InState(s))
    case ConnError(s) => One(col == Errors(s))
    case Greeted => One(col == Handshakes)
    case RequestSeen(_) => One(col == Requests)
    case Served(_, _, _) => One(col == Outcomes)
    case RouteFailure(_, _) => One(col == RouteFails)
    case Dialled => One(col == Dials)
    case DialFailure(_, _) => One(col == DialFails)
    case SessionOver => One(col == SessionsOver)
  }

  /** Every collector call changes every column by exactly its worth, whatever its labels are. */
  lemma RecordAddsWorth(c: Counters, e: Metric, col: Column)
    ensures Read(Record(c, e), col) == Read(c, col) + Worth(e, col)
  {
    hide Sum, ServedKey, HostReason;
    match e {
      case RequestSeen(atyp) => BumpAddsOne(c.requests, atyp);
      case Served(h, b, r) => BumpAddsOne(c.byBackend, ServedKey(h, b, r));
      case RouteFailure(h, r) => BumpAddsOne(c.routeFailures, HostReason(h, r));
      case DialFailure(h, r) => BumpAddsOne(c.dialFailures, HostReason(h, r));
      case _ =>
    }
  }

  lemma AddsWorth(c: Counters, e: Metric)
    ensures forall col :: Read(Record(c, e), col) == Read(c, col) + Worth(e, col)
  {
    hide Read, Record, Worth;
    forall col
      ensures Read(Record(c, e), col) == Read(c, col) + Worth(e, col)
    {
      RecordAddsWorth(c, e, col);
    }
  }

  /** A new collector reads zero everywhere. */
  lemma FreshReadsZero(col: Column)
    ensures Read(NO_COUNTS, col) == 0
  {
  }
}
