/** What the router guarantees: the shape New builds, health as a simple map, and the load law by address. */
module RouterLaws {
  import opened Text
  import opened Hosts
  import opened Scan
  import opened Balance
  import opened Router

  // ---------------------------------------------------------------- what New builds

  ghost predicate LastNamed(order: seq<string>, i: nat, h: string) {
    && i < |order| && NormalizeHost(order[i]) == h
    && forall k :: i < k < |order| ==> NormalizeHost(order[k]) != h
  }

  ghost predicate HasLast(order: seq<string>, h: string) {
    exists i: nat :: LastNamed(order, i, h)
  }

  lemma {:induction false} LastExists(order: seq<string>, i: nat)
    requires i < |order|
    ensures HasLast(order, NormalizeHost(order[i]))
    decreases |order| - i
  {
    var h := NormalizeHost(order[i]);
    if k :| i < k < |order| && NormalizeHost(order[k]) == h {
      LastExists(order, k);
    } else {
      assert LastNamed(order, i, h);
    }
  }

  ghost predicate FirstListed(routes: map<string, seq<string>>, order: seq<string>, i: nat, a: string)
    requires InRoutes(routes, order)
  {
    && i < |order| && a in routes[order[i]]
    && forall k :: 0 <= k < i ==> a !in routes[order[k]]
  }

  /** Some route is the first to list the address, and `host` is its normal form. */
  ghost predicate ClaimedBy(routes: map<string, seq<string>>, order: seq<string>, a: string, host: string)
    requires InRoutes(routes, order)
  {
    exists i: nat :: FirstListed(routes, order, i, a) && host == NormalizeHost(order[i])
  }

  lemma {:induction false} ClaimResult(index: map<string, string>, addresses: seq<string>, host: string)
    ensures forall a :: a in Claim(index, addresses, host) <==> a in index || a in addresses
    ensures forall a :: a in Claim(index, addresses, host) ==>
              Claim(index, addresses, host)[a] == if a in index then index[a] else host
  {
    if addresses != [] {
      var init, last := addresses[..|addresses| - 1], addresses[|addresses| - 1];
      ClaimResult(index, init, host);
      assert addresses == init + [last];
    }
  }

  ghost predicate InRoutes(routes: map<string, seq<string>>, order: seq<string>) {
    forall i :: 0 <= i < |order| ==> order[i] in routes
  }

  /** The last route of a host decides its pool. */
  ghost predicate PoolsMirror(routes: map<string, seq<string>>, order: seq<string>, pools: map<string, PoolV>)
    requires InRoutes(routes, order)
  {
    && (forall h :: h in pools ==> HasLast(order, h))
    && (forall h, i: nat :: LastNamed(order, i, h) ==> h in pools && pools[h] == FreshPool(routes[order[i]]))
  }

  /** The first route that lists an address decides its index entry. */
  ghost predicate IndexMirrors(routes: map<string, seq<string>>, order: seq<string>, index: map<string, string>)
    requires InRoutes(routes, order)
  {
    && (forall i, a :: 0 <= i < |order| && a in routes[order[i]] ==> a in index)
    && (forall a :: a in index ==> ClaimedBy(routes, order, a, index[a]))
  }

  lemma {:induction false} BuildPools(routes: map<string, seq<string>>, order: seq<string>)
    requires InRoutes(routes, order)
    ensures PoolsMirror(routes, order, Build(routes, order).pools)
  {
    if order != [] {
      var n := |order| - 1;
      BuildPools(routes, order[..n]);
      AddMirrorsPool(routes, order, Build(routes, order[..n]).pools);
    }
  }

  lemma AddMirrorsPool(routes: map<string, seq<string>>, order: seq<string>, pools: map<string, PoolV>)
    requires order != [] && InRoutes(routes, order) && PoolsMirror(routes, order[..|order| - 1], pools)
    ensures var last := order[|order| - 1];
            PoolsMirror(routes, order, pools[NormalizeHost(last) := FreshPool(routes[last])])
  {
    hide NormalizeHost, FreshPool;
    var n := |order| - 1;
    var init := order[..n];
    var key := NormalizeHost(order[n]);
    assert LastNamed(order, n, key);
    forall h | h in pools && h != key
      ensures HasLast(order, h)
    {
      var i: nat :| LastNamed(init, i, h);
      assert LastNamed(order, i, h);
    }
    forall h, i: nat | LastNamed(order, i, h) && i < n
      ensures h in pools && h != key && pools[h] == FreshPool(routes[order[i]])
    {
      assert LastNamed(init, i, h);
    }
  }

  lemma {:induction false} BuildIndex(routes: map<string, seq<string>>, order: seq<string>)
    requires InRoutes(routes, order)
    ensures IndexMirrors(routes, order, Build(routes, order).index)
  {
    if order != [] {
      var n := |order| - 1;
      BuildIndex(routes, order[..n]);
      AddMirrorsIndex(routes, order, Build(routes, order[..n]).index);
    }
  }

  lemma AddMirrorsIndex(routes: map<string, seq<string>>, order: seq<string>, index: map<string, string>)
    requires order != [] && InRoutes(routes, order) && IndexMirrors(routes, order[..|order| - 1], index)
    ensures var last := order[|order| - 1];
            IndexMirrors(routes, order, Claim(index, routes[last], NormalizeHost(last)))
  {
    var n := |order| - 1;
    var init := order[..n];
    hide NormalizeHost, Claim;
    var claimed := Claim(index, routes[order[n]], NormalizeHost(order[n]));
    ClaimResult(index, routes[order[n]], NormalizeHost(order[n]));
    forall i, a | 0 <= i < |order| && a in routes[order[i]]
      ensures a in claimed
    {
      if i < n {
        assert order[i] == init[i];
      }
    }
    forall a | a in claimed
      ensures ClaimedBy(routes, order, a, claimed[a])
    {
      AddClaims(routes, order, index, a);
    }
  }

  lemma AddClaims(routes: map<string, seq<string>>, order: seq<string>, index: map<string, string>, a: string)
    requires order != [] && InRoutes(routes, order) && IndexMirrors(routes, order[..|order| - 1], index)
    requires a in index || a in routes[order[|order| - 1]]
    ensures ClaimedBy(routes, order, a, if a in index then index[a] else NormalizeHost(order[|order| - 1]))
  {
    hide NormalizeHost;
    var n := |order| - 1;
    var init := order[..n];
    if a in index {
      assert ClaimedBy(routes, init, a, index[a]);
      var i: nat :| FirstListed(routes, init, i, a) && index[a] == NormalizeHost(init[i]);
      assert FirstListed(routes, order, i, a);
    } else {
      forall k | 0 <= k < n
        ensures a !in routes[order[k]]
      {
        assert order[k] == init[k];
      }
      assert FirstListed(routes, order, n, a);
    }
  }

  /** Every index entry leads to a pool that really holds the address. */
  ghost predicate IndexSound(v: RouterV) {
    forall a :: a in v.index ==> v.index[a] in v.pools && a in v.pools[v.index[a]].addresses
  }

  ghost predicate CollidingHostsAgree(routes: map<string, seq<string>>) {
    forall h, g :: h in routes && g in routes && NormalizeHost(h) == NormalizeHost(g) ==>
      forall a :: a in routes[h] ==> a in routes[g]
  }

  lemma AgreementMakesSound(routes: map<string, seq<string>>, order: seq<string>)
    requires Enumerates(order, routes) && CollidingHostsAgree(routes)
    ensures IndexSound(Build(routes, order))
  {
    var v := Build(routes, order);
    BuildPools(routes, order);
    BuildIndex(routes, order);
    forall a | a in v.index
      ensures v.index[a] in v.pools && a in v.pools[v.index[a]].addresses
    {
      assert ClaimedBy(routes, order, a, v.index[a]);
      var i: nat :| FirstListed(routes, order, i, a) && v.index[a] == NormalizeHost(order[i]);
      LastExists(order, i);
      var k: nat :| LastNamed(order, k, v.index[a]);
      assert order[i] in routes && order[k] in routes;
    }
  }

  ghost function Listing(keys: set<string>): (order: seq<string>)
    ensures Distinct(order) && forall k :: k in keys <==> k in order
  {
    if keys == {} then []
    else
      var k :| k in keys;
      [k] + Listing(keys - {k})
  }

  /** The routes can be visited with h first and g last. */
  lemma FirstAndLast(routes: map<string, seq<string>>, h: string, g: string) returns (order: seq<string>)
    requires h in routes && g in routes && h != g
    ensures Enumerates(order, routes) && |order| >= 2 && order[0] == h && order[|order| - 1] == g
  {
    var middle := Listing(routes.Keys - {h, g});
    order := [h] + middle + [g];
    assert forall k :: k in routes ==> k == h || k == g || k in middle;
    assert forall k :: k in middle ==> k in routes.Keys - {h, g};
    forall i | 0 <= i < |order|
      ensures order[i] in routes
    {
      if 0 < i < |order| - 1 {
        assert order[i] == middle[i - 1];
        assert middle[i - 1] in middle;
      }
    }
  }

  lemma DisagreementBreaksIndex(routes: map<string, seq<string>>, order: seq<string>, h: string, g: string, a: string)
    requires h in routes && g in routes && NormalizeHost(h) == NormalizeHost(g)
    requires a in routes[h] && a !in routes[g]
    requires Enumerates(order, routes) && |order| >= 2 && order[0] == h && order[|order| - 1] == g
    ensures !IndexSound(Build(routes, order))
  {
    hide NormalizeHost, Build;
    BuildPools(routes, order);
    BuildIndex(routes, order);
    var v := Build(routes, order);
    assert LastNamed(order, |order| - 1, NormalizeHost(g));
    assert a in v.index;
    assert ClaimedBy(routes, order, a, v.index[a]);
    var i: nat :| FirstListed(routes, order, i, a) && v.index[a] == NormalizeHost(order[i]);
    assert i == 0;
  }

  /**
   * The reverse index is sound in whatever order the routes are visited exactly when hosts that share a
   * normal form list the same addresses.
   */
  lemma IndexSoundIff(routes: map<string, seq<string>>)
    ensures (forall order :: Enumerates(order, routes) ==> IndexSound(Build(routes, order)))
            <==> CollidingHostsAgree(routes)
  {
    if CollidingHostsAgree(routes) {
      forall order | Enumerates(order, routes)
        ensures IndexSound(Build(routes, order))
      {
        AgreementMakesSound(routes, order);
      }
    } else {
      var h, g :| h in routes && g in routes && NormalizeHost(h) == NormalizeHost(g) &&
                  !forall a :: a in routes[h] ==> a in routes[g];
      var a :| a in routes[h] && a !in routes[g];
      var order := FirstAndLast(routes, h, g);
      DisagreementBreaksIndex(routes, order, h, g, a);
    }
  }

  ghost predicate DistinctNormalForms(routes: map<string, seq<string>>) {
    forall h, g :: h in routes && g in routes && NormalizeHost(h) == NormalizeHost(g) ==> h == g
  }

  /** With distinct normal forms the visiting order does not matter for the pools, and the index is exact. */
  lemma RouterMirrorsRoutes(routes: map<string, seq<string>>, order: seq<string>)
    requires Enumerates(order, routes) && DistinctNormalForms(routes)
    ensures var v := Build(routes, order);
            && (forall h :: h in routes ==>
                  NormalizeHost(h) in v.pools && v.pools[NormalizeHost(h)] == FreshPool(routes[h]))
            && (forall k :: k in v.pools ==> exists h :: h in routes && NormalizeHost(h) == k)
            && (forall a :: a in v.index <==> exists k :: k in v.pools && a in v.pools[k].addresses)
            && IndexSound(v)
  {
    var v := Build(routes, order);
    BuildPools(routes, order);
    BuildIndex(routes, order);
    AgreementMakesSound(routes, order);
    forall h | h in routes
      ensures NormalizeHost(h) in v.pools && v.pools[NormalizeHost(h)] == FreshPool(routes[h])
    {
      var i :| 0 <= i < |order| && order[i] == h;
      assert LastNamed(order, i, NormalizeHost(h));
    }
    forall k | k in v.pools
      ensures exists h :: h in routes && NormalizeHost(h) == k
    {
      assert HasLast(order, k);
      var i: nat :| LastNamed(order, i, k);
      assert order[i] in routes;
    }
    forall k, a | k in v.pools && a in v.pools[k].addresses
      ensures a in v.index
    {
      assert HasLast(order, k);
      var i: nat :| LastNamed(order, i, k);
    }
  }

  // ---------------------------------------------------------------- health as a map

  type Health = map<string, map<string, bool>>

  ghost predicate DistinctAddresses(v: RouterV) {
    forall h :: h in v.pools ==> Distinct(v.pools[h].addresses)
  }

  function PoolHealth(p: PoolV): map<string, bool>
    requires |p.addresses| == |p.alive|
  {
    map a | a in p.addresses :: p.alive[FirstWith(p.addresses, a).value]
  }

  function HealthOf(v: RouterV): Health
    requires RouterOk(v)
  {
    map h | h in v.pools :: PoolHealth(v.pools[h])
  }

  datatype Op = SetAlive(host: string, address: string, alive: bool) | PickOne(host: string)

  datatype Reply = Changed(changed: Result<bool, SetError>) | Picked(picked: Result<string, PickError>)

  function Do(v: RouterV, op: Op): (r: (RouterV, Reply))
    requires RouterOk(v)
    ensures RouterOk(r.0)
  {
    match op
    case SetAlive(h, a, b) => var (w, r) := SetAliveSpec(v, h, a, b); (w, Changed(r))
    case PickOne(h) => var (w, r) := PickSpec(v, h); (w, Picked(r))
  }

  /** The simple machine the router refines: a table of booleans and nothing else. */
  function DoHealth(m: Health, op: Op): Health {
    match op
    case SetAlive(h, a, b) =>
      var key := NormalizeHost(h);
      if key in m && a in m[key] then m[key := m[key][a := b]] else m
    case PickOne(_) => m
  }

  /** What a reply may be, judged from the table alone. */
  ghost predicate Justified(m: Health, op: Op, reply: Reply, start: ticket, n: nat) {
    match op
    case SetAlive(h, a, b) =>
      var key := NormalizeHost(h);
      && reply.Changed?
      && reply.changed == (if key !in m then Err(UnknownHost)
                     else if a !in m[key] then Err(UnknownBackend)
                     else Ok(m[key][a] != b))
    case PickOne(h) =>
      var key := NormalizeHost(h);
      && reply.Picked?
      && (key !in m <==> reply.picked == Err(RouteNotFound))
      && (reply.picked.Ok? ==> key in m && reply.picked.value in m[key] && m[key][reply.picked.value])
      && (reply.picked == Err(NoAliveBackends) && n > 0 && Seamless(start, n) ==> forall a :: a in m[key] ==>
          !m[key][a])
  }

  function StartOf(v: RouterV, op: Op): ticket {
    var key := NormalizeHost(op.host);
    if key in v.pools then v.pools[key].rr else 0
  }

  function SizeOf(v: RouterV, op: Op): nat {
    var key := NormalizeHost(op.host);
    if key in v.pools then |v.pools[key].addresses| else 0
  }

  lemma DistinctFirst(addresses: seq<string>, i: nat)
    requires Distinct(addresses) && i < |addresses|
    ensures FirstWith(addresses, addresses[i]) == Some(i)
  {
    FirstIs(addresses, addresses[i], i);
  }

  lemma SwapRefines(p: PoolV, a: string, i: nat, b: bool)
    requires |p.addresses| == |p.alive| && Distinct(p.addresses) && FirstWith(p.addresses, a) == Some(i)
    ensures PoolHealth(p.(alive := p.alive[i := b])) == PoolHealth(p)[a := b]
  {
    var q := p.(alive := p.alive[i := b]);
    forall c | c in p.addresses && c != a
      ensures PoolHealth(q)[c] == PoolHealth(p)[c]
    {
      assert FirstWith(p.addresses, c).value != i;
    }
  }

  /** One operation on the router is one operation on the table, and its reply is what the table says. */
  lemma StepRefines(v: RouterV, op: Op)
    requires RouterOk(v) && DistinctAddresses(v)
    ensures var (w, reply) := Do(v, op);
            && RouterOk(w) && DistinctAddresses(w)
            && HealthOf(w) == DoHealth(HealthOf(v), op)
            && Justified(HealthOf(v), op, reply, StartOf(v, op), SizeOf(v, op))
  {
    match op
    case SetAlive(h, a, b) => SetRefines(v, h, a, b);
    case PickOne(h) => PickRefines(v, h);
  }

  lemma HealthUpdate(v: RouterV, key: string, q: PoolV)
    requires RouterOk(v) && key in v.pools && PoolOk(q)
    ensures HealthOf(v.(pools := v.pools[key := q])) == HealthOf(v)[key := PoolHealth(q)]
  {
  }

  lemma SetRefines(v: RouterV, h: string, a: string, b: bool)
    requires RouterOk(v) && DistinctAddresses(v)
    ensures var op := SetAlive(h, a, b);
            var (w, reply) := Do(v, op);
            && DistinctAddresses(w)
            && HealthOf(w) == DoHealth(HealthOf(v), op)
            && Justified(HealthOf(v), op, reply, 0, 0)
  {
    var key := NormalizeHost(h);
    if key in v.pools {
      var p := v.pools[key];
      var found := FirstWith(p.addresses, a);
      if found.Some? {
        SwapRefines(p, a, found.value, b);
        DistinctFirst(p.addresses, found.value);
        HealthUpdate(v, key, p.(alive := p.alive[found.value := b]));
      }
    }
  }

  lemma PickRefines(v: RouterV, h: string)
    requires RouterOk(v) && DistinctAddresses(v)
    ensures var op := PickOne(h);
            var (w, reply) := Do(v, op);
            && DistinctAddresses(w)
            && HealthOf(w) == HealthOf(v)
            && Justified(HealthOf(v), op, reply, StartOf(v, op), SizeOf(v, op))
  {
    var key := NormalizeHost(h);
    if key in v.pools {
      PickJustified(v.pools[key]);
      var p := v.pools[key];
      var q := p.(rr := Advance(p.rr, 1));
      assert PoolHealth(q) == PoolHealth(p);
      HealthUpdate(v, key, q);
    }
  }

  lemma PickJustified(p: PoolV)
    requires PoolOk(p) && Distinct(p.addresses)
    ensures match ScanFrom(p.alive, p.rr, 0)
            case Some(j) => PoolHealth(p)[p.addresses[j]]
            case None => Seamless(p.rr, |p.addresses|) ==> forall a :: a in p.addresses ==> !PoolHealth(p)[a]
  {
    match ScanFrom(p.alive, p.rr, 0) {
      case Some(j) => DistinctFirst(p.addresses, j);
      case None =>
        if Seamless(p.rr, |p.addresses|) && true in p.alive {
          SeamlessFinds(p.alive, p.rr);
        }
    }
  }

  function Run(v: RouterV, ops: seq<Op>): (w: RouterV)
    requires RouterOk(v)
    ensures RouterOk(w)
    decreases ops
  {
    if ops == [] then v else Run(Do(v, ops[0]).0, ops[1..])
  }

  function RunHealth(m: Health, ops: seq<Op>): Health {
    if ops == [] then m else RunHealth(DoHealth(m, ops[0]), ops[1..])
  }

  /** Over any sequence of picks and health updates the router's flags are exactly the table's entries. */
  lemma {:induction false} RunRefines(v: RouterV, ops: seq<Op>)
    requires RouterOk(v) && DistinctAddresses(v)
    ensures HealthOf(Run(v, ops)) == RunHealth(HealthOf(v), ops)
    decreases ops
  {
    if ops != [] {
      StepRefines(v, ops[0]);
      RunRefines(Do(v, ops[0]).0, ops[1..]);
    }
  }

  // ---------------------------------------------------------------- duplicate addresses

  /** The pool no longer offers the address. */
  ghost predicate Withdrawn(p: PoolV, a: string)
    requires |p.addresses| == |p.alive|
  {
    forall i :: 0 <= i < |p.addresses| && p.addresses[i] == a ==> !p.alive[i]
  }

  ghost predicate ListedOnce(addresses: seq<string>, a: string) {
    forall i, j :: 0 <= i < j < |addresses| && addresses[i] == a ==> addresses[j] != a
  }

  /** A dead flag sits only on the first entry of its address. */
  ghost predicate DeadAreFirst(p: PoolV)
    requires |p.addresses| == |p.alive|
  {
    forall i :: 0 <= i < |p.addresses| && !p.alive[i] ==> p.addresses[i] !in p.addresses[..i]
  }

  ghost predicate AllDeadAreFirst(v: RouterV)
    requires RouterOk(v)
  {
    forall h :: h in v.pools ==> DeadAreFirst(v.pools[h])
  }

  ghost predicate AllSet(v: RouterV)
    requires RouterOk(v)
  {
    forall h, i :: h in v.pools && 0 <= i < |v.pools[h].alive| ==> v.pools[h].alive[i]
  }

  lemma SwapKeepsDeadFirst(p: PoolV, a: string, b: bool)
    requires |p.addresses| == |p.alive| && DeadAreFirst(p) && FirstWith(p.addresses, a).Some?
    ensures DeadAreFirst(p.(alive := p.alive[FirstWith(p.addresses, a).value := b]))
  {
    hide FirstWith;
  }

  lemma StepKeepsDeadFirst(v: RouterV, op: Op)
    requires RouterOk(v) && AllDeadAreFirst(v)
    ensures AllDeadAreFirst(Do(v, op).0)
  {
    hide NormalizeHost, FirstWith, ScanFrom, DeadAreFirst, Advance;
    var key := NormalizeHost(op.host);
    if key in v.pools {
      var p := v.pools[key];
      match op {
        case SetAlive(_, a, b) =>
          if FirstWith(p.addresses, a).Some? {
            SwapKeepsDeadFirst(p, a, b);
          }
        case PickOne(_) => TicketKeepsDeadFirst(p);
      }
    }
  }

  lemma TicketKeepsDeadFirst(p: PoolV)
    requires |p.addresses| == |p.alive| && DeadAreFirst(p)
    ensures DeadAreFirst(p.(rr := Advance(p.rr, 1)))
  {
    hide Advance;
  }

  lemma {:induction false} RunKeepsDeadFirst(v: RouterV, ops: seq<Op>)
    requires RouterOk(v) && AllDeadAreFirst(v)
    ensures AllDeadAreFirst(Run(v, ops))
    decreases ops
  {
    hide AllDeadAreFirst, Do;
    if ops != [] {
      StepKeepsDeadFirst(v, ops[0]);
      RunKeepsDeadFirst(Do(v, ops[0]).0, ops[1..]);
    }
  }

  lemma WithdrawnIff(p: PoolV, a: string)
    requires |p.addresses| == |p.alive| && DeadAreFirst(p) && FirstWith(p.addresses, a).Some?
    ensures Withdrawn(p.(alive := p.alive[FirstWith(p.addresses, a).value := false]), a) <==> ListedOnce(p.addresses, a)
  {
    hide FirstWith;
    var i := FirstWith(p.addresses, a).value;
    var q := p.(alive := p.alive[i := false]);
    if j :| i < j < |p.addresses| && p.addresses[j] == a {
      assert p.addresses[..j][i] == a;
      assert p.alive[j] && q.alive[j];
    } else {
      assert forall j :: 0 <= j < i ==> p.addresses[..i][j] == p.addresses[j];
    }
  }

  /**
   * However a router that started with all flags set has been used since: marking an address dead takes it
   * out of a pool's rotation exactly when the pool lists the address once. Only the first entry is ever touched.
   */
  lemma MarkedDeadIff(v: RouterV, ops: seq<Op>, host: string, a: string)
    requires RouterOk(v) && AllSet(v)
    requires var w := Run(v, ops);
             NormalizeHost(host) in w.pools && a in w.pools[NormalizeHost(host)].addresses
    ensures var w, key := Run(v, ops), NormalizeHost(host);
            var x := Do(w, SetAlive(host, a, false)).0;
            && key in x.pools && x.pools[key].addresses == w.pools[key].addresses
            && (Withdrawn(x.pools[key], a) <==> ListedOnce(w.pools[key].addresses, a))
  {
    hide NormalizeHost, FirstWith, Run, Withdrawn, ListedOnce, DeadAreFirst;
    SetAreFirst(v);
    RunKeepsDeadFirst(v, ops);
    var w, key := Run(v, ops), NormalizeHost(host);
    WithdrawnIff(w.pools[key], a);
  }

  lemma SetAreFirst(v: RouterV)
    requires RouterOk(v) && AllSet(v)
    ensures AllDeadAreFirst(v)
  {
  }

  /** A router that has just been built has all flags set; so its health table starts all true. */
  lemma BuiltAllSet(routes: map<string, seq<string>>, order: seq<string>)
    requires InRoutes(routes, order) && RouterOk(Build(routes, order))
    ensures AllSet(Build(routes, order))
    ensures var m := HealthOf(Build(routes, order)); forall k, a :: k in m && a in m[k] ==> m[k][a]
  {
    hide NormalizeHost, Build, FirstWith;
    BuildPools(routes, order);
    var v := Build(routes, order);
    forall h, i | h in v.pools && 0 <= i < |v.pools[h].alive|
      ensures v.pools[h].alive[i]
    {
      assert HasLast(order, h);
      var j: nat :| LastNamed(order, j, h);
    }
  }

  // ---------------------------------------------------------------- the load law by address

  function PickMany(v: RouterV, host: string, m: nat): (RouterV, seq<Result<string, PickError>>)
    requires RouterOk(v)
    decreases m
  {
    if m == 0 then (v, [])
    else
      var (w, r) := PickSpec(v, host);
      var (x, rest) := PickMany(w, host, m - 1);
      (x, [r] + rest)
  }

  function Named(p: PoolV, r: Option<nat>): Result<string, PickError>
    requires r.Some? ==> r.value < |p.addresses|
  {
    match r
    case Some(j) => Ok(p.addresses[j])
    case None => Err(NoAliveBackends)
  }

  function NamedAll(p: PoolV, rs: seq<Option<nat>>): seq<Result<string, PickError>>
    requires forall r :: r in rs && r.Some? ==> r.value < |p.addresses|
  {
    if rs == [] then [] else [Named(p, rs[0])] + NamedAll(p, rs[1..])
  }

  lemma {:induction false} PickManyNames(v: RouterV, host: string, m: nat)
    requires RouterOk(v) && NormalizeHost(host) in v.pools
    ensures var p := v.pools[NormalizeHost(host)];
            var rs := Picks(p.alive, p.rr, m);
            && (forall r :: r in rs && r.Some? ==> r.value < |p.addresses|)
            && PickMany(v, host, m).1 == NamedAll(p, rs)
    decreases m
  {
    var p := v.pools[NormalizeHost(host)];
    if m > 0 {
      var (w, r) := PickSpec(v, host);
      var q := w.pools[NormalizeHost(host)];
      PickManyNames(w, host, m - 1);
      var rest := Picks(q.alive, q.rr, m - 1);
      SameNames(p, q, rest);
      assert Picks(p.alive, p.rr, m)[1..] == rest;
    }
  }

  lemma {:induction false} SameNames(p: PoolV, q: PoolV, rs: seq<Option<nat>>)
    requires p.addresses == q.addresses
    requires forall r :: r in rs && r.Some? ==> r.value < |p.addresses|
    ensures NamedAll(p, rs) == NamedAll(q, rs)
  {
    if rs != [] {
      SameNames(p, q, rs[1..]);
    }
  }

  /** With distinct addresses a name occurs as often as its slot. */
  lemma {:induction false} NamesCount(p: PoolV, rs: seq<Option<nat>>, j: nat)
    requires j < |p.addresses| && Distinct(p.addresses)
    requires forall r :: r in rs && r.Some? ==> r.value < |p.addresses|
    ensures multiset(NamedAll(p, rs))[Ok(p.addresses[j])] == multiset(rs)[Some(j)]
  {
    if rs != [] {
      NamesCount(p, rs[1..], j);
      var first, rest := Named(p, rs[0]), NamedAll(p, rs[1..]);
      assert first == Ok(p.addresses[j]) <==> rs[0] == Some(j);
      assert multiset([first] + rest) == multiset{first} + multiset(rest);
      assert rs == [rs[0]] + rs[1..];
    }
  }

  /** k whole rounds of Pick on a host: every backend gets exactly its own share plus that of the dead run before it. */
  lemma PickLoadLaw(v: RouterV, host: string, k: nat, j: nat)
    requires RouterOk(v) && NormalizeHost(host) in v.pools
    requires var p := v.pools[NormalizeHost(host)];
             && j < |p.addresses| && Distinct(p.addresses)
             && NoWrap(p.rr, k * |p.alive|, |p.alive|)
    ensures var p := v.pools[NormalizeHost(host)];
            multiset(PickMany(v, host, k * |p.alive|).1)[Ok(p.addresses[j])] ==
            if p.alive[j] then k * (1 + DeadBefore(p.alive, j)) else 0
  {
    var p := v.pools[NormalizeHost(host)];
    LoadLaw(p.alive, p.rr, k, j);
    PickManyCounts(v, host, k * |p.alive|, j);
  }

  lemma PickManyCounts(v: RouterV, host: string, m: nat, j: nat)
    requires RouterOk(v) && NormalizeHost(host) in v.pools
    requires var p := v.pools[NormalizeHost(host)]; j < |p.addresses| && Distinct(p.addresses)
    ensures var p := v.pools[NormalizeHost(host)];
            multiset(PickMany(v, host, m).1)[Ok(p.addresses[j])] == multiset(Picks(p.alive, p.rr, m))[Some(j)]
  {
    var p := v.pools[NormalizeHost(host)];
    PickManyNames(v, host, m);
    NamesCount(p, Picks(p.alive, p.rr, m), j);
  }

  // ---------------------------------------------------------------- capital letters

  /** Hosts that differ only in case are one host to every operation. */
  lemma CaseDoesNotMatter(v: RouterV, g: string, h: string, a: string, alive: bool)
    requires RouterOk(v) && SameButForCase(g, h)
    ensures PickSpec(v, g) == PickSpec(v, h) && SetAliveSpec(v, g, a, alive) == SetAliveSpec(v, h, a, alive)
  {
    hide NormalizeHost;
    CaseIsFolded(g, h);
  }

  /** A host that shares its normal form with no other is picked under any capitalisation, first backend first. */
  lemma PickedInAnyCase(routes: map<string, seq<string>>, order: seq<string>, host: string, name: string)
    requires Enumerates(order, routes) && Acceptable(routes) && DistinctNormalForms(routes)
    requires host in routes && SameButForCase(name, host) && RouterOk(Build(routes, order))
    ensures PickSpec(Build(routes, order), name).1 == Ok(routes[host][0])
  {
    hide NormalizeHost, Build, IndexSound;
    CaseIsFolded(name, host);
    RouterMirrorsRoutes(routes, order);
    var p := Build(routes, order).pools[NormalizeHost(host)];
    assert p == FreshPool(routes[host]);
    assert Slot(0, 0, |p.alive|) == 0;
    assert p.alive[0];
  }

  // ---------------------------------------------------------------- what one call touches

  /** The pools, addresses, flags and counters of the two routers agree everywhere but under this key. */
  ghost predicate SameElsewhere(v: RouterV, w: RouterV, key: string) {
    && w.index == v.index && w.pools.Keys == v.pools.Keys
    && forall h :: h in v.pools && h != key ==> w.pools[h] == v.pools[h]
  }

  /** The place of the backend met in round y, with the 64-bit addition of the code. */
  function Place(start: nat, y: nat, n: nat): (j: nat)
    requires n > 0
    ensures j < n
  {
    (start + y) % 0x1_0000_0000_0000_0000 % n
  }

  ghost predicate MeetsAlive(p: PoolV, start: nat, y: nat) {
    0 < |p.addresses| == |p.alive| && p.alive[Place(start, y, |p.alive|)]
  }

  /** The backend met in round x is alive, and those met before are dead. */
  ghost predicate FirstMet(p: PoolV, start: nat, x: nat) {
    x < |p.alive| && MeetsAlive(p, start, x) && forall y: nat :: y < x ==> !MeetsAlive(p, start, y)
  }

  lemma {:induction false} ScanMeets(p: PoolV, start: ticket, i: nat)
    requires 0 < |p.addresses| == |p.alive| && i <= |p.alive|
    requires forall y: nat :: y < i ==> !MeetsAlive(p, start, y)
    ensures match ScanFrom(p.alive, start, i)
            case Some(j) => exists x: nat :: FirstMet(p, start, x) && j == Place(start, x, |p.alive|)
            case None => forall y: nat :: y < |p.alive| ==> !MeetsAlive(p, start, y)
    decreases |p.alive| - i
  {
    if i < |p.alive| {
      PlaceIsSlot(start, i, |p.alive|);
      hide Slot, Place;
      if p.alive[Slot(start, i, |p.alive|)] {
        assert FirstMet(p, start, i);
      } else {
        ScanMeets(p, start, i + 1);
      }
    }
  }

  lemma PlaceIsSlot(start: ticket, i: nat, n: nat)
    requires n > 0
    ensures Place(start, i, n) == Slot(start, i, n)
  {
  }

  ghost predicate PicksFirstMet(p: PoolV, addr: string) {
    exists x: nat :: FirstMet(p, p.rr, x) && 0 < |p.addresses| == |p.alive| &&
      addr == p.addresses[Place(p.rr, x, |p.alive|)]
  }

  /**
   * A pick moves the counter of its own pool on by one, modulo 2^64, even if it fails, and touches nothing else;
   * it returns the first live backend from the counter on, and fails when it has met n dead ones.
   */
  lemma PickTouches(v: RouterV, host: string)
    requires RouterOk(v)
    ensures var (key, (w, r)) := (NormalizeHost(host), PickSpec(v, host));
            && SameElsewhere(v, w, key)
            && (r == Err(RouteNotFound) <==> key !in v.pools)
            && (key !in v.pools ==> w == v)
            && (key in v.pools ==>
                  var p, q := v.pools[key], w.pools[key];
                  && q.addresses == p.addresses && q.alive == p.alive
                  && q.rr as int == (p.rr as int + 1) % 0x1_0000_0000_0000_0000
                  && (r.Err? ==> r == Err(NoAliveBackends))
                  && (r.Err? ==> forall y: nat :: y < |p.alive| ==> !MeetsAlive(p, p.rr, y))
                  && (r.Ok? ==> PicksFirstMet(p, r.value)))
  {
    hide NormalizeHost, MeetsAlive, FirstMet, ScanFrom;
    var key := NormalizeHost(host);
    if key in v.pools {
      assert PoolOk(v.pools[key]);
      ScanMeets(v.pools[key], v.pools[key].rr, 0);
    }
  }

  /** An update sets one flag, that of the first entry with the address, and touches nothing else, counters included. */
  lemma SetTouches(v: RouterV, host: string, a: string, alive: bool)
    requires RouterOk(v)
    ensures var (key, (w, r)) := (NormalizeHost(host), SetAliveSpec(v, host, a, alive));
            && SameElsewhere(v, w, key)
            && (r == Err(UnknownHost) <==> key !in v.pools)
            && (r == Err(UnknownBackend) <==> key in v.pools && a !in v.pools[key].addresses)
            && (r.Err? ==> w == v)
            && (r.Ok? ==>
                  && key in v.pools
                  && var p, q := v.pools[key], w.pools[key];
                     && q.addresses == p.addresses && q.rr == p.rr && |q.alive| == |p.alive| == |p.addresses|
                     && exists i: nat :: i < |p.addresses| && p.addresses[i] == a && a !in p.addresses[..i]
                          && q.alive[i] == alive && (r.value <==> p.alive[i] != alive)
                          && forall j :: 0 <= j < |p.alive| && j != i ==> q.alive[j] == p.alive[j])
  {
    hide NormalizeHost;
    var key := NormalizeHost(host);
    if key in v.pools {
      assert PoolOk(v.pools[key]);
    }
  }
}
