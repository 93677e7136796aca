/** Backend pools, the address-to-host index and the operations on them, as values and as mutable objects. */
module Router {
  import opened Text
  import opened Hosts
  import opened Scan

  datatype PickError = RouteNotFound | NoAliveBackends

  datatype SetError = UnknownHost | UnknownBackend

  /** What a pool holds: parallel lists of addresses and alive flags, and the ticket counter. */
  datatype PoolV = PoolV(addresses: seq<string>, alive: seq<bool>, rr: ticket)

  datatype RouterV = RouterV(pools: map<string, PoolV>, index: map<string, string>)

  predicate PoolOk(p: PoolV) {
    0 < |p.addresses| == |p.alive| <= MAX_LEN
  }

  predicate RouterOk(v: RouterV) {
    forall h :: h in v.pools ==> PoolOk(v.pools[h])
  }

  predicate Distinct<T(==)>(s: seq<T>) {
    forall i, j :: 0 <= i < j < |s| ==> s[i] != s[j]
  }

  /** An order in which `range` may visit the keys of a map. */
  ghost predicate Enumerates<T, U>(order: seq<T>, m: map<T, U>) {
    && Distinct(order)
    && (forall i :: 0 <= i < |order| ==> order[i] in m)
    && (forall k :: k in m ==> k in order)
  }

  // ---------------------------------------------------------------- specification of New

  ghost predicate Acceptable(routes: map<string, seq<string>>) {
    && routes != map[]
    && forall h :: h in routes ==> NormalizeHost(h) != [] && routes[h] != []
  }

  function FreshPool(addresses: seq<string>): PoolV {
    PoolV(addresses, seq(|addresses|, i => true), 0)
  }

  /** The first host to claim an address keeps it. */
  function Claim(index: map<string, string>, addresses: seq<string>, host: string): map<string, string> {
    if addresses == [] then index
    else
      var before := Claim(index, addresses[..|addresses| - 1], host);
      var a := addresses[|addresses| - 1];
      if a in before then before else before[a := host]
  }

  function AddPool(v: RouterV, host: string, addresses: seq<string>): RouterV {
    RouterV(v.pools[NormalizeHost(host) := FreshPool(addresses)], Claim(v.index, addresses, NormalizeHost(host)))
  }

  /** The router after the routes named in `order` have been added one after the other. */
  function Build(routes: map<string, seq<string>>, order: seq<string>): RouterV
    requires forall i :: 0 <= i < |order| ==> order[i] in routes
  {
    if order == [] then RouterV(map[], map[])
    else
      var h := order[|order| - 1];
      AddPool(Build(routes, order[..|order| - 1]), h, routes[h])
  }

  // ---------------------------------------------------------------- specification of Pick and SetBackendAlive

  function PickSpec(v: RouterV, host: string): (RouterV, Result<string, PickError>)
    requires RouterOk(v)
  {
    var key := NormalizeHost(host);
    if key !in v.pools then (v, Err(RouteNotFound))
    else
      var p := v.pools[key];
      (v.(pools := v.pools[key := p.(rr := Advance(p.rr, 1))]),
       match ScanFrom(p.alive, p.rr, 0)
       case Some(j) => Ok(p.addresses[j])
       case None => Err(NoAliveBackends))
  }

  function FirstWith(addresses: seq<string>, a: string): (r: Option<nat>)
    ensures r.Some? ==> r.value < |addresses| && addresses[r.value] == a && a !in addresses[..r.value]
    ensures r.None? <==> a !in addresses
  {
    if addresses == [] then None
    else if addresses[0] == a then Some(0)
    else match FirstWith(addresses[1..], a)
      case None => None
      case Some(i) =>
        assert addresses[..i + 1] == [addresses[0]] + addresses[1..][..i];
        Some(i + 1)
  }

  function SetAliveSpec(v: RouterV, host: string, a: string, alive: bool): (RouterV, Result<bool, SetError>)
    requires RouterOk(v)
  {
    var key := NormalizeHost(host);
    if key !in v.pools then (v, Err(UnknownHost))
    else
      var p := v.pools[key];
      match FirstWith(p.addresses, a)
      case None => (v, Err(UnknownBackend))
      case Some(i) => (v.(pools := v.pools[key := p.(alive := p.alive[i := alive])]), Ok(p.alive[i] != alive))
  }

  // ---------------------------------------------------------------- the objects

  class Pool {
    const addresses: seq<string>
    const alive: array<bool>
    var rr: ticket

    ghost predicate Valid()
      reads this
    {
      0 < |addresses| == alive.Length <= MAX_LEN
    }

    ghost function Value(): PoolV
      reads this, alive
    {
      PoolV(addresses, alive[..], rr)
    }

    constructor (addresses: seq<string>)
      requires 0 < |addresses| <= MAX_LEN
      ensures Valid() && fresh(alive) && Value() == FreshPool(addresses)
    {
      this.addresses := addresses;
      this.alive := new bool[|addresses|](_ => true);
      this.rr := 0;
    }

    /** atomic.AddUint64(&p.rr, 1) - 1 */
    method TakeTicket() returns (start: ticket)
      modifies this
      ensures start == old(rr) && Value() == old(Value()).(rr := Advance(old(rr), 1))
    {
      rr := (rr + 1) % WORD;
      start := (rr + WORD - 1) % WORD;
    }

    /** The scan of Pick: the first alive backend from a ticket on, one flag load a turn. */
    method FirstAlive(start: ticket) returns (found: Option<nat>)
      requires Valid()
      ensures found == ScanFrom(alive[..], start, 0)
    {
      var n := |addresses|;
      for i := 0 to n
        invariant ScanFrom(alive[..], start, i) == ScanFrom(alive[..], start, 0)
      {
        var idx := (start + i) % WORD % n;
        if alive[idx] {
          return Some(idx);
        }
      }
      found := None;
    }

    /** atomic.SwapUint32 on one flag. */
    method Swap(i: nat, v: bool) returns (prev: bool)
      requires Valid() && i < |addresses|
      modifies alive
      ensures Value() == old(Value()).(alive := old(Value()).alive[i := v])
      ensures prev == old(Value()).alive[i]
    {
      prev := alive[i];
      alive[i] := v;
    }
  }

  /** No two hosts share a pool object. */
  ghost predicate Separate(pools: map<string, Pool>) {
    forall h, g :: h in pools && g in pools && h != g ==> pools[h] != pools[g] && pools[h].alive != pools[g].alive
  }

  ghost predicate Holds(pools: map<string, Pool>, values: map<string, PoolV>)
    reads set h | h in pools :: pools[h], set h | h in pools :: pools[h].alive
  {
    pools.Keys == values.Keys && forall h :: h in pools ==> pools[h].Valid() && pools[h].Value() == values[h]
  }

  class Router {
    const pools: map<string, Pool>
    const backendToHost: map<string, string>

    ghost function Heap(): set<object> {
      (set h | h in pools :: pools[h] as object) + (set h | h in pools :: pools[h].alive as object)
    }

    ghost predicate Valid()
      reads Heap()
    {
      && (forall h :: h in pools ==> pools[h].Valid())
      && Separate(pools)
    }

    ghost function Value(): (v: RouterV)
      reads Heap()
      ensures Valid() ==> RouterOk(v)
    {
      RouterV(map h | h in pools :: pools[h].Value(), backendToHost)
    }

    constructor (pools: map<string, Pool>, backendToHost: map<string, string>, ghost values: map<string, PoolV>)
      requires Separate(pools) && Holds(pools, values)
      ensures Valid() && this.pools == pools && Value() == RouterV(values, backendToHost)
    {
      this.pools := pools;
      this.backendToHost := backendToHost;
      new;
      assert Value().pools == values;
    }

    method HostForBackendAddr(addr: string) returns (host: Option<string>)
      ensures host == if addr in Value().index then Some(Value().index[addr]) else None
    {
      host := if addr in backendToHost then Some(backendToHost[addr]) else None;
    }

    method Pick(host: string) returns (r: Result<string, PickError>)
      requires Valid()
      modifies Heap()
      ensures Valid()
      ensures (Value(), r) == PickSpec(old(Value()), host)
    {
      hide NormalizeHost, ScanFrom, Advance;
      var key := NormalizeHost(host);
      if key !in pools {
        return Err(RouteNotFound);
      }
      var p := pools[key];
      var start := p.TakeTicket();
      assert forall h :: h in pools && h != key ==> pools[h].Value() == old(pools[h].Value());
      assert Value().pools == old(Value()).pools[key := p.Value()];
      var found := p.FirstAlive(start);
      if found.Some? {
        return Ok(p.addresses[found.value]);
      }
      r := Err(NoAliveBackends);
    }

    method SetBackendAlive(host: string, address: string, alive: bool) returns (r: Result<bool, SetError>)
      requires Valid()
      modifies Heap()
      ensures Valid()
      ensures (Value(), r) == SetAliveSpec(old(Value()), host, address, alive)
    {
      hide NormalizeHost, FirstWith;
      var key := NormalizeHost(host);
      if key !in pools {
        return Err(UnknownHost);
      }
      var p := pools[key];
      var i := 0;
      while i < |p.addresses| && p.addresses[i] != address
        invariant i <= |p.addresses|
        invariant address !in p.addresses[..i]
      {
        i := i + 1;
      }
      if i == |p.addresses| {
        assert p.addresses[..i] == p.addresses;
        return Err(UnknownBackend);
      }
      FirstIs(p.addresses, address, i);
      var prev := p.Swap(i, alive);
      assert Value().pools == old(Value()).pools[key := p.Value()];
      r := Ok(prev != alive);
    }
  }

  lemma {:induction false} FirstIs(addresses: seq<string>, a: string, i: nat)
    requires i < |addresses| && addresses[i] == a && a !in addresses[..i]
    ensures FirstWith(addresses, a) == Some(i)
  {
    if i > 0 {
      assert addresses[..i] == [addresses[0]] + addresses[1..][..i - 1];
      FirstIs(addresses[1..], a, i - 1);
    }
  }

  method ClaimAll(index: map<string, string>, addresses: seq<string>, host: string)
    returns (claimed: map<string, string>)
    ensures claimed == Claim(index, addresses, host)
  {
    claimed := index;
    for i := 0 to |addresses|
      invariant claimed == Claim(index, addresses[..i], host)
    {
      assert addresses[..i + 1][..i] == addresses[..i];
      if addresses[i] !in claimed {
        claimed := claimed[addresses[i] := host];
      }
    }
    assert addresses[..|addresses|] == addresses;
  }

  lemma BuildStep(routes: map<string, seq<string>>, order: seq<string>, k: nat)
    requires k < |order| && forall i :: 0 <= i < |order| ==> order[i] in routes
    ensures Build(routes, order[..k + 1]) == AddPool(Build(routes, order[..k]), order[k], routes[order[k]])
  {
    assert order[..k + 1][..k] == order[..k];
  }

  /** A pool object that is not shared yet may be added under any key. */
  lemma AddPoolObject(pools: map<string, Pool>, values: map<string, PoolV>, key: string, p: Pool)
    requires Separate(pools) && Holds(pools, values) && p.Valid()
    requires forall h :: h in pools ==> pools[h] != p && pools[h].alive != p.alive
    ensures Separate(pools[key := p]) && Holds(pools[key := p], values[key := p.Value()])
  {
  }

  lemma NoPools(routes: map<string, seq<string>>)
    ensures Separate(map[]) && Holds(map[], map[]) && Build(routes, []) == RouterV(map[], map[])
  {
  }

  method New(routes: map<string, seq<string>>, order: seq<string>) returns (r: Router?)
    requires Enumerates(order, routes)
    requires forall h :: h in routes ==> |routes[h]| <= MAX_LEN
    ensures r != null <==> Acceptable(routes)
    ensures r != null ==> r.Valid() && fresh(r) && fresh(r.Heap()) && r.Value() == Build(routes, order)
  {
    hide NormalizeHost, Build, Claim, FreshPool, Separate, Holds;
    if |routes| == 0 {
      return null;
    }
    var pools: map<string, Pool> := map[];
    var index: map<string, string> := map[];
    ghost var values: map<string, PoolV> := map[];
    NoPools(routes);
    assert order[..0] == [];
    for k := 0 to |order|
      invariant forall i :: 0 <= i < k ==> NormalizeHost(order[i]) != [] && routes[order[i]] != []
      invariant forall h :: h in pools ==> fresh(pools[h]) && fresh(pools[h].alive)
      invariant Separate(pools) && Holds(pools, values)
      invariant RouterV(values, index) == Build(routes, order[..k])
    {
      var host := order[k];
      var addresses := routes[host];
      var hostKey := NormalizeHost(host);
      if hostKey == "" || |addresses| == 0 {
        return null;
      }
      index := ClaimAll(index, addresses, hostKey);
      var p := new Pool(addresses);
      AddPoolObject(pools, values, hostKey, p);
      pools := pools[hostKey := p];
      values := values[hostKey := FreshPool(addresses)];
      BuildStep(routes, order, k);
    }
    assert order[..|order|] == order;
    r := new Router(pools, index, values);
  }
}
