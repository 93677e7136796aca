/** The health checker: whom a probe is for, what a round of probes does to the router, and when hosts agree. */
module Health {
  import opened Text
  import opened Hosts
  import Addresses
  import Scan
  import opened Router
  import opened RouterLaws
  import opened Config
  import opened ConfigLaws

  // ---------------------------------------------------------------- from groups to hosts

  /** A missing key reads as an empty list. */
  function HostsOf(m: map<string, seq<string>>, g: string): seq<string> {
    if g in m then m[g] else []
  }

  /** The hosts of each group, in the order in which the host table was visited. */
  function Inverse(hostToGroup: map<string, string>, order: seq<string>): map<string, seq<string>>
    requires forall i :: 0 <= i < |order| ==> order[i] in hostToGroup
  {
    if order == [] then map[]
    else
      var before := Inverse(hostToGroup, order[..|order| - 1]);
      var host := order[|order| - 1];
      var group := hostToGroup[host];
      before[group := HostsOf(before, group) + [host]]
  }

  /** The inverse map lists every host exactly once, under its own group, whatever the order. */
  lemma {:induction false} InverseIsExact(hostToGroup: map<string, string>, order: seq<string>, g: string)
    requires Distinct(order) && forall i :: 0 <= i < |order| ==> order[i] in hostToGroup
    ensures var hosts := HostsOf(Inverse(hostToGroup, order), g);
            && Distinct(hosts)
            && forall h :: h in hosts <==> h in order && hostToGroup[h] == g
  {
    if order != [] {
      var n := |order| - 1;
      InverseIsExact(hostToGroup, order[..n], g);
      assert order == order[..n] + [order[n]];
    }
  }

  /** One probing goroutine: an address, how it is probed, and the hosts it speaks for. */
  datatype Worker = Worker(address: string, path: string, hosts: seq<string>)

  function GroupWorkers(g: BackendGroupConfig, hosts: seq<string>): seq<Worker> {
    seq(|g.addresses|, j requires 0 <= j < |g.addresses| => Worker(g.addresses[j], g.path, hosts))
  }

  function WorkersOf(groups: seq<BackendGroupConfig>, groupToHosts: map<string, seq<string>>): seq<Worker> {
    if groups == [] then []
    else
      var g := groups[|groups| - 1];
      WorkersOf(groups[..|groups| - 1], groupToHosts) + GroupWorkers(g, HostsOf(groupToHosts, g.name))
  }

  ghost predicate SpeaksFor(workers: seq<Worker>, k: string, a: string) {
    exists w :: w in workers && w.address == a && k in w.hosts
  }

  lemma GroupSpeaksFor(g: BackendGroupConfig, hosts: seq<string>, k: string, a: string)
    ensures SpeaksFor(GroupWorkers(g, hosts), k, a) <==> a in g.addresses && k in hosts
  {
    var ws := GroupWorkers(g, hosts);
    if a in g.addresses && k in hosts {
      var j :| 0 <= j < |g.addresses| && g.addresses[j] == a;
      assert ws[j] == Worker(a, g.path, hosts);
    }
  }

  lemma SpeakTogether(left: seq<Worker>, right: seq<Worker>, k: string, a: string)
    ensures SpeaksFor(left + right, k, a) <==> SpeaksFor(left, k, a) || SpeaksFor(right, k, a)
  {
    if SpeaksFor(left, k, a) {
      var w :| w in left && w.address == a && k in w.hosts;
      assert w in left + right;
    }
    if SpeaksFor(right, k, a) {
      var w :| w in right && w.address == a && k in w.hosts;
      assert w in left + right;
    }
  }

  lemma {:induction false} WorkersSpeakFor(groups: seq<BackendGroupConfig>, groupToHosts: map<string, seq<string>>,
                                           k: string, a: string)
    ensures SpeaksFor(WorkersOf(groups, groupToHosts), k, a) <==>
            exists i :: 0 <= i < |groups| && a in groups[i].addresses && k in HostsOf(groupToHosts, groups[i].name)
  {
    if groups != [] {
      var n := |groups| - 1;
      var hosts := HostsOf(groupToHosts, groups[n].name);
      WorkersSpeakFor(groups[..n], groupToHosts, k, a);
      GroupSpeaksFor(groups[n], hosts, k, a);
      SpeakTogether(WorkersOf(groups[..n], groupToHosts), GroupWorkers(groups[n], hosts), k, a);
      hide SpeaksFor, GroupWorkers, HostsOf;
      assert forall i :: 0 <= i < n ==> groups[..n][i] == groups[i];
    }
  }

  /** The workers a checker starts speak for exactly the hosts and addresses that the configuration pairs. */
  lemma WorkersCover(rc: RuntimeConfig, order: seq<string>, k: string, a: string)
    requires Enumerates(order, rc.hostToGroup)
    ensures SpeaksFor(WorkersOf(rc.backendGroups, Inverse(rc.hostToGroup, order)), k, a) <==> ProbedBySome(rc, k, a)
  {
    var m := Inverse(rc.hostToGroup, order);
    WorkersSpeakFor(rc.backendGroups, m, k, a);
    forall i: nat | i < |rc.backendGroups|
      ensures Probed(rc, i, k, a) <==> a in rc.backendGroups[i].addresses && k in HostsOf(m, rc.backendGroups[i].name)
    {
      InverseIsExact(rc.hostToGroup, order, rc.backendGroups[i].name);
    }
    hide SpeaksFor, WorkersOf, HostsOf, Probed, Inverse, Enumerates;
    if SpeaksFor(WorkersOf(rc.backendGroups, m), k, a) {
      var i: nat :| i < |rc.backendGroups| && a in rc.backendGroups[i].addresses
          && k in HostsOf(m, rc.backendGroups[i].name);
      assert Probed(rc, i, k, a);
    }
    if i: nat :| Probed(rc, i, k, a) {
      ProbedInside(rc, i, k, a);
    }
  }

  lemma ProbedInside(rc: RuntimeConfig, i: nat, k: string, a: string)
    requires Probed(rc, i, k, a)
    ensures i < |rc.backendGroups|
  {
  }

  /** How many workers the first k groups need: one for each of their addresses. */
  function Need(groups: seq<BackendGroupConfig>, k: nat): nat
    requires k <= |groups|
  {
    if k == 0 then 0 else Need(groups, k - 1) + |groups[k - 1].addresses|
  }

  lemma {:induction false} NeedOfPrefix(groups: seq<BackendGroupConfig>, n: nat, k: nat)
    requires k <= n <= |groups|
    ensures Need(groups[..n], k) == Need(groups, k)
  {
    if k > 0 {
      NeedOfPrefix(groups, n, k - 1);
    }
  }

  /** Every address of every group has its own worker, which has the path and the hosts of that group. */
  lemma {:induction false} WorkerOf(groups: seq<BackendGroupConfig>, groupToHosts: map<string, seq<string>>, i: nat,
                                    j: nat)
    requires i < |groups| && j < |groups[i].addresses|
    ensures |WorkersOf(groups, groupToHosts)| == Need(groups, |groups|) && Need(groups, i) + j < Need(groups, |groups|)
    ensures var w := WorkersOf(groups, groupToHosts)[Need(groups, i) + j];
            w == Worker(groups[i].addresses[j], groups[i].path, HostsOf(groupToHosts, groups[i].name))
    decreases |groups|
  {
    hide HostsOf;
    var n := |groups| - 1;
    WorkersCount(groups[..n], groupToHosts);
    NeedOfPrefix(groups, n, n);
    if i < n {
      WorkerOf(groups[..n], groupToHosts, i, j);
      NeedOfPrefix(groups, n, i);
    }
  }

  lemma {:induction false} WorkersCount(groups: seq<BackendGroupConfig>, groupToHosts: map<string, seq<string>>)
    ensures |WorkersOf(groups, groupToHosts)| == Need(groups, |groups|)
  {
    if groups != [] {
      var n := |groups| - 1;
      WorkersCount(groups[..n], groupToHosts);
      NeedOfPrefix(groups, n, n);
    }
  }

  /** No worker stands for anything else. */
  lemma {:induction false} WorkerStandsFor(groups: seq<BackendGroupConfig>, groupToHosts: map<string, seq<string>>,
                                           x: nat)
    returns (i: nat, j: nat)
    requires x < |WorkersOf(groups, groupToHosts)|
    ensures i < |groups| && j < |groups[i].addresses| && x == Need(groups, i) + j
    decreases |groups|
  {
    var n := |groups| - 1;
    WorkersCount(groups[..n], groupToHosts);
    NeedOfPrefix(groups, n, n);
    if x < Need(groups, n) {
      i, j := WorkerStandsFor(groups[..n], groupToHosts, x);
      NeedOfPrefix(groups, n, i);
    } else {
      i, j := n, x - Need(groups, n);
    }
  }

  // ---------------------------------------------------------------- one probe

  /** What a probe does once its outcome is known: the new router and the hosts for which the flag flipped. */
  function ProbeSpec(v: RouterV, hosts: seq<string>, a: string, alive: bool): (r: (RouterV, seq<string>))
    requires RouterOk(v)
    ensures RouterOk(r.0)
  {
    if hosts == [] then (v, [])
    else
      var n := |hosts| - 1;
      var (w, flipped) := ProbeSpec(v, hosts[..n], a, alive);
      var (x, reply) := SetAliveSpec(w, hosts[n], a, alive);
      (x, if reply == Ok(true) then flipped + [hosts[n]] else flipped)
  }

  class Checker {
    const router: Router
    const groups: seq<BackendGroupConfig>
    const groupToHosts: map<string, seq<string>>

    constructor (router: Router, groups: seq<BackendGroupConfig>, hostToGroup: map<string, string>, order: seq<string>)
      requires Enumerates(order, hostToGroup)
      ensures this.router == router && this.groups == groups && groupToHosts == Inverse(hostToGroup, order)
    {
      var inverse: map<string, seq<string>> := map[];
      for k := 0 to |order|
        invariant inverse == Inverse(hostToGroup, order[..k])
      {
        assert order[..k + 1][..k] == order[..k];
        var group := hostToGroup[order[k]];
        inverse := inverse[group := (if group in inverse then inverse[group] else []) + [order[k]]];
      }
      assert order[..|order|] == order;
      this.router, this.groups, this.groupToHosts := router, groups, inverse;
    }

    /** The goroutines that Start launches before it waits for the end. */
    method Start() returns (workers: seq<Worker>)
      ensures workers == WorkersOf(groups, groupToHosts)
    {
      workers := [];
      for i := 0 to |groups|
        invariant workers == WorkersOf(groups[..i], groupToHosts)
      {
        assert groups[..i + 1][..i] == groups[..i];
        ghost var before := workers;
        var group := groups[i];
        var hosts := if group.name in groupToHosts then groupToHosts[group.name] else [];
        for j := 0 to |group.addresses|
          invariant workers == before + GroupWorkers(group, hosts)[..j]
        {
          workers := workers + [Worker(group.addresses[j], group.path, hosts)];
        }
      }
      assert groups[..|groups|] == groups;
    }

    /** A worker's probe, with the outcome of the connection attempt as `alive`; errors skip to the next host. */
    method Probe(w: Worker, alive: bool) returns (flipped: seq<string>)
      requires router.Valid()
      modifies router.Heap()
      ensures router.Valid()
      ensures (router.Value(), flipped) == ProbeSpec(old(router.Value()), w.hosts, w.address, alive)
    {
      hide SetAliveSpec, RouterOk, NormalizeHost;
      flipped := [];
      for i := 0 to |w.hosts|
        invariant router.Valid()
        invariant (router.Value(), flipped) == ProbeSpec(old(router.Value()), w.hosts[..i], w.address, alive)
      {
        assert w.hosts[..i + 1][..i] == w.hosts[..i];
        var changed := router.SetBackendAlive(w.hosts[i], w.address, alive);
        if changed.Err? {
          continue;
        }
        if changed.value {
          flipped := flipped + [w.hosts[i]];
        }
      }
      assert w.hosts[..|w.hosts|] == w.hosts;
    }
  }

  // ---------------------------------------------------------------- the last write wins

  predicate Writes(op: Op, k: string, a: string) {
    op.SetAlive? && NormalizeHost(op.host) == k && op.address == a
  }

  function LastWrite(ops: seq<Op>, k: string, a: string): Option<bool> {
    if ops == [] then None
    else
      var later := LastWrite(ops[1..], k, a);
      if later.Some? then later else if Writes(ops[0], k, a) then Some(ops[0].alive) else None
  }

  predicate Knows(m: RouterLaws.Health, k: string, a: string) {
    k in m && a in m[k]
  }

  lemma {:induction false} LastWriteInTable(m: RouterLaws.Health, ops: seq<Op>, k: string, a: string)
    ensures Knows(RunHealth(m, ops), k, a) <==> Knows(m, k, a)
    ensures Knows(m, k, a) ==>
              RunHealth(m, ops)[k][a] == match LastWrite(ops, k, a) case Some(b) => b case None => m[k][a]
  {
    hide NormalizeHost;
    if ops != [] {
      LastWriteInTable(DoHealth(m, ops[0]), ops[1..], k, a);
    }
  }

  /**
   * In any interleaving of picks and probe updates, a backend's flag for a host is what the last update of
   * that pair wrote, and the initial flag if there was none.
   */
  lemma LastWriteWins(v: RouterV, ops: seq<Op>, k: string, a: string)
    requires RouterOk(v) && DistinctAddresses(v) && Knows(HealthOf(v), k, a)
    ensures Knows(HealthOf(Run(v, ops)), k, a)
    ensures HealthOf(Run(v, ops))[k][a] == match LastWrite(ops, k, a) case Some(b) => b case None => HealthOf(v)[k][a]
  {
    RunRefines(v, ops);
    LastWriteInTable(HealthOf(v), ops, k, a);
    hide Run, HealthOf, DistinctAddresses, RouterOk, LastWrite;
  }

  // ---------------------------------------------------------------- a round is a run

  function ProbeOps(hosts: seq<string>, a: string, alive: bool): seq<Op> {
    seq(|hosts|, i requires 0 <= i < |hosts| => SetAlive(hosts[i], a, alive))
  }

  lemma {:induction false} RunAppend(v: RouterV, ops: seq<Op>, op: Op)
    requires RouterOk(v)
    ensures Run(v, ops + [op]) == Do(Run(v, ops), op).0
    decreases ops
  {
    hide Do;
    if ops == [] {
      assert ops + [op] == [op];
      assert Run(Do(v, op).0, []) == Do(v, op).0;
      assert [op][1..] == [];
    } else {
      RunAppend(Do(v, ops[0]).0, ops[1..], op);
      assert (ops + [op])[1..] == ops[1..] + [op];
    }
  }

  lemma {:induction false} ProbeIsRun(v: RouterV, hosts: seq<string>, a: string, alive: bool)
    requires RouterOk(v)
    ensures ProbeSpec(v, hosts, a, alive).0 == Run(v, ProbeOps(hosts, a, alive))
  {
    if hosts != [] {
      var n := |hosts| - 1;
      ProbeIsRun(v, hosts[..n], a, alive);
      RunAppend(v, ProbeOps(hosts[..n], a, alive), SetAlive(hosts[n], a, alive));
      assert ProbeOps(hosts, a, alive) == ProbeOps(hosts[..n], a, alive) + [SetAlive(hosts[n], a, alive)];
      hide Run, SetAliveSpec;
    }
  }

  ghost predicate Served(hosts: seq<string>, k: string) {
    exists h :: h in hosts && NormalizeHost(h) == k
  }

  lemma {:induction false} ProbeWrites(hosts: seq<string>, a: string, alive: bool, k: string, b: string)
    ensures LastWrite(ProbeOps(hosts, a, alive), k, b) == if b == a && Served(hosts, k) then Some(alive) else None
  {
    hide NormalizeHost;
    if hosts != [] {
      ProbeWrites(hosts[1..], a, alive, k, b);
      assert ProbeOps(hosts, a, alive)[1..] == ProbeOps(hosts[1..], a, alive);
      assert hosts == [hosts[0]] + hosts[1..];
      assert Served(hosts, k) <==> NormalizeHost(hosts[0]) == k || Served(hosts[1..], k);
    }
  }

  /** A probe sets the flag of its address for exactly its hosts, and no other flag of any host. */
  lemma ProbeSetsExactly(v: RouterV, hosts: seq<string>, a: string, alive: bool, k: string, b: string)
    requires RouterOk(v) && DistinctAddresses(v) && Knows(HealthOf(v), k, b)
    ensures var w := ProbeSpec(v, hosts, a, alive).0;
            && Knows(HealthOf(w), k, b)
            && HealthOf(w)[k][b] == if b == a && Served(hosts, k) then alive else HealthOf(v)[k][b]
  {
    ProbeIsRun(v, hosts, a, alive);
    LastWriteWins(v, ProbeOps(hosts, a, alive), k, b);
    ProbeWrites(hosts, a, alive, k, b);
    hide HealthOf, Run, DistinctAddresses, RouterOk, LastWrite, ProbeSpec, Served;
  }

  /** The probe's outcome is news for the host at this place: its flag differs, and no namesake came earlier. */
  ghost predicate IsNews(v: RouterV, hosts: seq<string>, a: string, alive: bool, i: nat)
    requires RouterOk(v)
  {
    && i < |hosts| && Knows(HealthOf(v), NormalizeHost(hosts[i]), a)
    && HealthOf(v)[NormalizeHost(hosts[i])][a] != alive
    && !Served(hosts[..i], NormalizeHost(hosts[i]))
  }

  /** A probe reports exactly the hosts for which its outcome is news, in their order. */
  lemma {:induction false} ReportsTheNews(v: RouterV, hosts: seq<string>, a: string, alive: bool) returns (at: seq<nat>)
    requires RouterOk(v) && DistinctAddresses(v)
    ensures var flipped := ProbeSpec(v, hosts, a, alive).1;
            && |flipped| == |at|
            && (forall k :: 0 <= k < |at| ==> at[k] < |hosts| && flipped[k] == hosts[at[k]])
            && (forall k, l :: 0 <= k < l < |at| ==> at[k] < at[l])
            && (forall i: nat :: i < |hosts| ==> (i in at <==> IsNews(v, hosts, a, alive, i)))
  {
    hide HealthOf, RouterOk, DistinctAddresses, NormalizeHost, SetAliveSpec, Served;
    if hosts == [] {
      at := [];
    } else {
      var n := |hosts| - 1;
      at := ReportsTheNews(v, hosts[..n], a, alive);
      LastIsNews(v, hosts, a, alive);
      forall i: nat | i < n
        ensures IsNews(v, hosts, a, alive, i) <==> IsNews(v, hosts[..n], a, alive, i)
      {
        assert hosts[..n][..i] == hosts[..i];
      }
      if IsNews(v, hosts, a, alive, n) {
        at := at + [n];
      }
    }
  }

  lemma LastIsNews(v: RouterV, hosts: seq<string>, a: string, alive: bool)
    requires RouterOk(v) && DistinctAddresses(v) && hosts != []
    ensures var n := |hosts| - 1;
            IsNews(v, hosts, a, alive, n) <==>
              SetAliveSpec(ProbeSpec(v, hosts[..n], a, alive).0, hosts[n], a, alive).1 == Ok(true)
  {
    var n := |hosts| - 1;
    var k, w := NormalizeHost(hosts[n]), ProbeSpec(v, hosts[..n], a, alive).0;
    ProbeIsRun(v, hosts[..n], a, alive);
    RunRefines(v, ProbeOps(hosts[..n], a, alive));
    LastWriteInTable(HealthOf(v), ProbeOps(hosts[..n], a, alive), k, a);
    ProbeWrites(hosts[..n], a, alive, k, a);
    StaysDistinct(v, hosts[..n], a, alive);
    StepRefines(w, SetAlive(hosts[n], a, alive));
    hide HealthOf, RouterOk, DistinctAddresses, NormalizeHost, SetAliveSpec, Served, Run, ProbeSpec, RunHealth,
      ProbeOps, LastWrite;
  }

  lemma {:induction false} StaysDistinct(v: RouterV, hosts: seq<string>, a: string, alive: bool)
    requires RouterOk(v) && DistinctAddresses(v)
    ensures DistinctAddresses(ProbeSpec(v, hosts, a, alive).0)
  {
    hide HealthOf, RouterOk, DistinctAddresses, NormalizeHost, SetAliveSpec;
    if hosts != [] {
      var n := |hosts| - 1;
      StaysDistinct(v, hosts[..n], a, alive);
      StepRefines(ProbeSpec(v, hosts[..n], a, alive).0, SetAlive(hosts[n], a, alive));
    }
  }

  // ---------------------------------------------------------------- agreement

  /** All of the round's updates are among the operations, in whatever order and mixed with anything. */
  ghost predicate Completed(ops: seq<Op>, w: Worker, alive: bool) {
    forall h :: h in w.hosts ==> SetAlive(h, w.address, alive) in ops
  }

  /** Nobody else reported something else about the same address for one of the worker's hosts. */
  ghost predicate Undisputed(ops: seq<Op>, w: Worker, alive: bool) {
    forall op :: op in ops && op.SetAlive? && op.address == w.address && Served(w.hosts, NormalizeHost(op.host)) ==>
        op.alive == alive
  }

  lemma {:induction false} WrittenOnce(ops: seq<Op>, k: string, a: string, alive: bool)
    requires forall op :: op in ops && Writes(op, k, a) ==> op.alive == alive
    ensures (exists op :: op in ops && Writes(op, k, a)) ==> LastWrite(ops, k, a) == Some(alive)
    ensures LastWrite(ops, k, a) == None || LastWrite(ops, k, a) == Some(alive)
  {
    hide Writes;
    if ops != [] {
      assert ops == [ops[0]] + ops[1..];
      WrittenOnce(ops[1..], k, a, alive);
    }
  }

  /**
   * After a completed round that nobody disputed, every host the worker speaks for shows the probed address as
   * the probe found it, whatever else was picked and probed meanwhile.
   */
  lemma RoundAgrees(v: RouterV, ops: seq<Op>, w: Worker, alive: bool, k: string)
    requires RouterOk(v) && DistinctAddresses(v) && Knows(HealthOf(v), k, w.address)
    requires Completed(ops, w, alive) && Undisputed(ops, w, alive) && Served(w.hosts, k)
    ensures Knows(HealthOf(Run(v, ops)), k, w.address) && HealthOf(Run(v, ops))[k][w.address] == alive
  {
    LastWriteWins(v, ops, k, w.address);
    hide NormalizeHost, HealthOf, Run, DistinctAddresses, RouterOk, LastWrite;
    var h :| h in w.hosts && NormalizeHost(h) == k;
    assert Writes(SetAlive(h, w.address, alive), k, w.address);
    WrittenOnce(ops, k, w.address, alive);
  }

  lemma WorkerFindsBackend(resolve: Addresses.Resolver, cfg: ConfigV, g: seq<string>, r: seq<string>, rc: RuntimeConfig,
                           hostOrder: seq<string>, w: Worker, k: string)
    requires Loaded(resolve, cfg, g, r, rc) && NamesakesAgree(resolve, cfg) && Enumerates(hostOrder, rc.hostToGroup)
    requires w in WorkersOf(rc.backendGroups, Inverse(rc.hostToGroup, hostOrder)) && k in w.hosts
    ensures k in rc.routes && w.address in rc.routes[k]
  {
    WorkersCover(rc, hostOrder, k, w.address);
    var i: nat :| Probed(rc, i, k, w.address);
    ProbeFinds(resolve, cfg, g, r, rc, i, k, w.address);
  }

  lemma FreshKnows(rc: RuntimeConfig, order: seq<string>, k: string, a: string)
    requires Enumerates(order, rc.routes) && (forall h :: h in rc.routes ==> IsNormal(h) && Distinct(rc.routes[h]))
    requires RouterOk(Build(rc.routes, order)) && k in rc.routes && a in rc.routes[k]
    ensures DistinctAddresses(Build(rc.routes, order)) && Knows(HealthOf(Build(rc.routes, order)), k, a)
  {
    hide Build, IndexSound, NormalizeHost, FirstWith;
    NormalRouter(rc, order);
  }

  /**
   * On a router built from a loaded file with normal host keys, namesakes that agree and no
   * address twice in a group: a worker's completed, undisputed round leaves all hosts of its group agreeing
   * on the address with what was found.
   */
  lemma GroupAgreesAfterRound(resolve: Addresses.Resolver, cfg: ConfigV, g: seq<string>, r: seq<string>,
                              rc: RuntimeConfig, order: seq<string>, hostOrder: seq<string>, ops: seq<Op>,
                              w: Worker, alive: bool, k: string)
    requires Loaded(resolve, cfg, g, r, rc) && NormalKeys(cfg) && NamesakesAgree(resolve, cfg)
    requires Enumerates(order, rc.routes) && Enumerates(hostOrder, rc.hostToGroup)
    requires forall h :: h in rc.routes ==> Distinct(rc.routes[h]) && |rc.routes[h]| <= Scan.MAX_LEN
    requires w in WorkersOf(rc.backendGroups, Inverse(rc.hostToGroup, hostOrder)) && k in w.hosts
    requires Completed(ops, w, alive) && Undisputed(ops, w, alive)
    ensures var v := Build(rc.routes, order);
            && RouterOk(v) && Knows(HealthOf(Run(v, ops)), k, w.address)
            && HealthOf(Run(v, ops))[k][w.address] == alive
  {
    WorkerFindsBackend(resolve, cfg, g, r, rc, hostOrder, w, k);
    NormalTable(resolve, cfg, g, r, rc);
    LoadedRouterBuilds(resolve, cfg, g, r, rc);
    assert Served(w.hosts, k) by {
      assert IsNormal(k);
    }
    hide *;
    BuiltRouterOk(rc.routes, order);
    FreshKnows(rc, order, k, w.address);
    RoundAgrees(Build(rc.routes, order), ops, w, alive, k);
  }

  // ---------------------------------------------------------------- exactly when hosts agree

  ghost predicate KnowsAll(v: RouterV, w: Worker)
    requires RouterOk(v)
  {
    forall k :: Served(w.hosts, k) ==> Knows(HealthOf(v), k, w.address)
  }

  /** Every host the worker speaks for shows the probed address as `alive`. */
  ghost predicate AllShow(v: RouterV, w: Worker, alive: bool)
    requires RouterOk(v)
  {
    forall k :: Served(w.hosts, k) ==> Knows(HealthOf(v), k, w.address) && HealthOf(v)[k][w.address] == alive
  }

  lemma {:induction false} LastWriteAppend(x: seq<Op>, y: seq<Op>, k: string, a: string)
    ensures LastWrite(x + y, k, a) == if LastWrite(y, k, a).Some? then LastWrite(y, k, a) else LastWrite(x, k, a)
  {
    hide Writes;
    if x == [] {
      assert x + y == y;
    } else {
      assert (x + y)[1..] == x[1..] + y && (x + y)[0] == x[0];
      LastWriteAppend(x[1..], y, k, a);
    }
  }

  lemma SingleWrite(op: Op, k: string, a: string)
    ensures LastWrite([op], k, a) == if Writes(op, k, a) then Some(op.alive) else None
  {
    hide Writes;
    assert [op][1..] == [];
  }

  lemma SameElements(x: seq<Op>, y: seq<Op>)
    requires multiset(x) == multiset(y)
    ensures forall op :: op in x <==> op in y
  {
    assert forall op :: op in x <==> op in multiset(x);
    assert forall op :: op in y <==> op in multiset(y);
  }

  lemma UndisputedShow(v: RouterV, ops: seq<Op>, w: Worker, alive: bool)
    requires RouterOk(v) && DistinctAddresses(v) && KnowsAll(v, w)
    requires Completed(ops, w, alive) && Undisputed(ops, w, alive)
    ensures AllShow(Run(v, ops), w, alive)
  {
    hide HealthOf, Run, DistinctAddresses, RouterOk, Completed, Undisputed, Served;
    forall k | Served(w.hosts, k)
      ensures Knows(HealthOf(Run(v, ops)), k, w.address) && HealthOf(Run(v, ops))[k][w.address] == alive
    {
      RoundAgrees(v, ops, w, alive, k);
    }
  }

  /** A contrary report, made last, is what its host shows. */
  lemma DisputeShows(v: RouterV, ops: seq<Op>, w: Worker, alive: bool, i: nat) returns (other: seq<Op>)
    requires RouterOk(v) && DistinctAddresses(v) && KnowsAll(v, w) && i < |ops| && ops[i].SetAlive?
    requires ops[i].address == w.address && Served(w.hosts, NormalizeHost(ops[i].host)) && ops[i].alive != alive
    ensures multiset(other) == multiset(ops) && !AllShow(Run(v, other), w, alive)
  {
    hide NormalizeHost, HealthOf, Run, DistinctAddresses, RouterOk, LastWrite, Served;
    var op := ops[i];
    var k := NormalizeHost(op.host);
    other := (ops[..i] + ops[i + 1..]) + [op];
    assert ops == ops[..i] + [op] + ops[i + 1..];
    LastWriteAppend(ops[..i] + ops[i + 1..], [op], k, w.address);
    SingleWrite(op, k, w.address);
    LastWriteWins(v, other, k, w.address);
  }

  /**
   * When nothing is known about the order in which the operations of a completed round and the others take
   * effect: all hosts of the worker are sure to show what the probe found exactly when nobody disputed it.
   */
  lemma AgreeInEveryOrderIff(v: RouterV, ops: seq<Op>, w: Worker, alive: bool)
    requires RouterOk(v) && DistinctAddresses(v) && KnowsAll(v, w) && Completed(ops, w, alive)
    ensures (forall other :: multiset(other) == multiset(ops) ==> AllShow(Run(v, other), w, alive)) <==>
            Undisputed(ops, w, alive)
  {
    hide NormalizeHost, AllShow, KnowsAll, Run, DistinctAddresses, RouterOk, Served;
    if Undisputed(ops, w, alive) {
      forall other | multiset(other) == multiset(ops)
        ensures AllShow(Run(v, other), w, alive)
      {
        SameElements(other, ops);
        UndisputedShow(v, other, w, alive);
      }
    } else {
      var op :| op in ops && op.SetAlive? && op.address == w.address && Served(w.hosts, NormalizeHost(op.host))
          && op.alive != alive;
      var i :| 0 <= i < |ops| && ops[i] == op;
      var other := DisputeShows(v, ops, w, alive, i);
    }
  }

  // ---------------------------------------------------------------- interleavings

  /** `ops` is an interleaving of two sequences, each in its own order. */
  ghost predicate Interleaves(x: seq<Op>, y: seq<Op>, ops: seq<Op>)
    decreases ops
  {
    if ops == [] then x == [] && y == []
    else
      || (x != [] && ops[0] == x[0] && Interleaves(x[1..], y, ops[1..]))
      || (y != [] && ops[0] == y[0] && Interleaves(x, y[1..], ops[1..]))
  }

  lemma {:induction false} OneAfterTheOther(x: seq<Op>, y: seq<Op>)
    ensures Interleaves(x, y, x + y)
    decreases |x| + |y|
  {
    if x != [] {
      assert (x + y)[1..] == x[1..] + y;
      OneAfterTheOther(x[1..], y);
    } else if y != [] {
      assert x + y == y && x + y[1..] == y[1..];
      OneAfterTheOther(x, y[1..]);
    }
  }

  /** The last write of an interleaving is the last write of one of the two. */
  lemma {:induction false} LastWriteMerged(x: seq<Op>, y: seq<Op>, ops: seq<Op>, k: string, a: string)
    requires Interleaves(x, y, ops)
    ensures LastWrite(ops, k, a) == None <==> LastWrite(x, k, a) == None && LastWrite(y, k, a) == None
    ensures LastWrite(ops, k, a) == LastWrite(x, k, a) || LastWrite(ops, k, a) == LastWrite(y, k, a)
    decreases ops
  {
    hide Writes;
    if ops != [] {
      if x != [] && ops[0] == x[0] && Interleaves(x[1..], y, ops[1..]) {
        LastWriteMerged(x[1..], y, ops[1..], k, a);
      } else {
        LastWriteMerged(x, y[1..], ops[1..], k, a);
      }
    }
  }

  /** The others' last report about one of the worker's hosts, if any, is the worker's own finding. */
  ghost predicate LastReportsConcur(rest: seq<Op>, w: Worker, alive: bool) {
    forall k :: Served(w.hosts, k) ==> LastWrite(rest, k, w.address) != Some(!alive)
  }

  lemma ConcurringShows(v: RouterV, w: Worker, alive: bool, rest: seq<Op>, ops: seq<Op>, k: string)
    requires RouterOk(v) && DistinctAddresses(v) && KnowsAll(v, w) && Served(w.hosts, k)
    requires Interleaves(ProbeOps(w.hosts, w.address, alive), rest, ops)
             && LastWrite(rest, k, w.address) != Some(!alive)
    ensures Knows(HealthOf(Run(v, ops)), k, w.address) && HealthOf(Run(v, ops))[k][w.address] == alive
  {
    hide HealthOf, Run, DistinctAddresses, RouterOk, LastWrite, Interleaves, ProbeOps, Served;
    ProbeWrites(w.hosts, w.address, alive, k, w.address);
    LastWriteMerged(ProbeOps(w.hosts, w.address, alive), rest, ops, k, w.address);
    LastWriteWins(v, ops, k, w.address);
  }

  lemma ContraryShows(v: RouterV, w: Worker, alive: bool, rest: seq<Op>, k: string) returns (ops: seq<Op>)
    requires RouterOk(v) && DistinctAddresses(v) && KnowsAll(v, w) && Served(w.hosts, k)
    requires LastWrite(rest, k, w.address) == Some(!alive)
    ensures Interleaves(ProbeOps(w.hosts, w.address, alive), rest, ops) && !AllShow(Run(v, ops), w, alive)
  {
    hide HealthOf, Run, DistinctAddresses, RouterOk, LastWrite, Interleaves, ProbeOps, Served;
    var round := ProbeOps(w.hosts, w.address, alive);
    ops := round + rest;
    OneAfterTheOther(round, rest);
    LastWriteAppend(round, rest, k, w.address);
    LastWriteWins(v, ops, k, w.address);
  }

  /**
   * A probe's loop runs in its own order, and so does everything else: whatever the interleaving, all hosts of
   * the worker show what the probe found exactly when no host's last other report says the opposite.
   */
  lemma AgreeInEveryInterleavingIff(v: RouterV, w: Worker, alive: bool, rest: seq<Op>)
    requires RouterOk(v) && DistinctAddresses(v) && KnowsAll(v, w)
    ensures (forall ops :: Interleaves(ProbeOps(w.hosts, w.address, alive), rest, ops) ==>
            AllShow(Run(v, ops), w, alive))
            <==> LastReportsConcur(rest, w, alive)
  {
    hide HealthOf, Run, DistinctAddresses, RouterOk, LastWrite, Interleaves, ProbeOps, KnowsAll, Served;
    if LastReportsConcur(rest, w, alive) {
      forall ops, k | Interleaves(ProbeOps(w.hosts, w.address, alive), rest, ops) && Served(w.hosts, k)
        ensures Knows(HealthOf(Run(v, ops)), k, w.address) && HealthOf(Run(v, ops))[k][w.address] == alive
      {
        ConcurringShows(v, w, alive, rest, ops, k);
      }
    } else {
      var k :| Served(w.hosts, k) && LastWrite(rest, k, w.address) == Some(!alive);
      var ops := ContraryShows(v, w, alive, rest, k);
    }
  }

  /**
   * Two rounds of one worker's hosts with opposite findings, interleaved, can leave the first host and any
   * later one disagreeing.
   */
  lemma DisputedRoundsDisagree(v: RouterV, w: Worker, k: string) returns (ops: seq<Op>)
    requires RouterOk(v) && DistinctAddresses(v) && KnowsAll(v, w) && w.hosts != []
    requires Served(w.hosts[1..], k) && !Served(w.hosts[1..], NormalizeHost(w.hosts[0]))
    ensures Interleaves(ProbeOps(w.hosts, w.address, true), ProbeOps(w.hosts, w.address, false), ops)
    ensures var m, first := HealthOf(Run(v, ops)), NormalizeHost(w.hosts[0]);
            && Knows(m, first, w.address) && Knows(m, k, w.address)
            && m[first][w.address] != m[k][w.address]
  {
    hide NormalizeHost, HealthOf, Run, DistinctAddresses, RouterOk, LastWrite, Interleaves, ProbeOps;
    var a, first := w.address, NormalizeHost(w.hosts[0]);
    var down, later := ProbeOps(w.hosts, a, false), ProbeOps(w.hosts[1..], a, true);
    ops := SplitRound(w.hosts, a);
    assert w.hosts[0] in w.hosts && forall h :: h in w.hosts[1..] ==> h in w.hosts;
    forall key | key == first || key == k
      ensures Knows(HealthOf(Run(v, ops)), key, a) && HealthOf(Run(v, ops))[key][a] == (key != first)
    {
      assert Served(w.hosts, key);
      ProbeWrites(w.hosts, a, false, key, a);
      ProbeWrites(w.hosts[1..], a, true, key, a);
      LastWriteAppend([SetAlive(w.hosts[0], a, true)] + down, later, key, a);
      LastWriteAppend([SetAlive(w.hosts[0], a, true)], down, key, a);
      LastWriteWins(v, ops, key, a);
    }
  }

  lemma SplitRound(hosts: seq<string>, a: string) returns (ops: seq<Op>)
    requires hosts != []
    ensures ops == [SetAlive(hosts[0], a, true)] + ProbeOps(hosts, a, false) + ProbeOps(hosts[1..], a, true)
    ensures Interleaves(ProbeOps(hosts, a, true), ProbeOps(hosts, a, false), ops)
  {
    var up, down, later := ProbeOps(hosts, a, true), ProbeOps(hosts, a, false), ProbeOps(hosts[1..], a, true);
    ops := [SetAlive(hosts[0], a, true)] + down + later;
    assert ops[1..] == down + later && up[1..] == later && up[0] == ops[0];
    Swapped(down, later);
  }

  lemma {:induction false} Swapped(x: seq<Op>, y: seq<Op>)
    ensures Interleaves(y, x, x + y)
    decreases |x| + |y|
  {
    if x != [] {
      assert (x + y)[1..] == x[1..] + y;
      Swapped(x[1..], y);
    } else if y != [] {
      assert x + y == y && x + y[1..] == y[1..];
      Swapped(x, y[1..]);
    }
  }
}
