/**
 * The Router's table: registered service instances, one pool per service, and
 * the routes of the calls in flight. Each method is what happens under the lock.
 */
module Router {

  import opened Wrappers

  // --- Order of instance ids ---------------------------------------------------------------------

  predicate Before(a: string, b: string) {
    b != "" && (a == "" || a[0] < b[0] || (a[0] == b[0] && Before(a[1..], b[1..])))
  }

  lemma {:induction false} BeforeTotal(a: string, b: string)
    ensures a != b ==> Before(a, b) || Before(b, a)
  {
    if a != "" && b != "" && a[0] == b[0] {
      BeforeTotal(a[1..], b[1..]);
      assert a == [a[0]] + a[1..] && b == [b[0]] + b[1..];
    }
  }

  lemma {:induction false} BeforeTransitive(a: string, b: string, c: string)
    requires Before(a, b) && Before(b, c)
    ensures Before(a, c)
  {
    if a != "" && a[0] == b[0] == c[0] {
      BeforeTransitive(a[1..], b[1..], c[1..]);
    }
  }

  lemma {:induction false} BeforeIrreflexive(a: string)
    ensures !Before(a, a)
  {
    if a != "" {
      BeforeIrreflexive(a[1..]);
    }
  }

  /** Ids compare as Python strings do: by the first character that differs, and a prefix comes first. */
  lemma {:induction false} BeforeMeans(a: string, b: string)
    ensures Before(a, b) <==>
            || (|a| < |b| && a == b[..|a|])
            || exists i :: 0 <= i < |a| && i < |b| && a[..i] == b[..i] && a[i] < b[i]
  {
    if a != "" && b != "" {
      var x, y := a[1..], b[1..];
      if a[0] == b[0] {
        BeforeMeans(x, y);
        if i :| 0 <= i < |x| && i < |y| && x[..i] == y[..i] && x[i] < y[i] {
          assert a[..i + 1] == [a[0]] + x[..i] && b[..i + 1] == [b[0]] + y[..i];
          assert a[i + 1] < b[i + 1];
        }
        if i :| 0 <= i < |a| && i < |b| && a[..i] == b[..i] && a[i] < b[i] {
          assert i > 0;
          assert x[..i - 1] == a[..i][1..] && y[..i - 1] == b[..i][1..];
          assert x[i - 1] < y[i - 1];
        }
        assert (|a| < |b| && a == b[..|a|]) <==> (|x| < |y| && x == y[..|x|]) by {
          if |x| < |y| && x == y[..|x|] { assert a == [a[0]] + x && b[..|a|] == [b[0]] + y[..|x|]; }
          if |a| < |b| && a == b[..|a|] { assert y[..|x|] == b[..|a|][1..]; }
        }
      } else {
        assert a[..0] == b[..0];
        assert forall i :: 0 < i < |a| && i < |b| ==> a[..i][0] == a[0] && b[..i][0] == b[0];
        assert |a| < |b| ==> b[..|a|][0] == b[0];
      }
    }
  }

  // --- Values ------------------------------------------------------------------------------------------

  datatype Balance = RoundRobin | LeastInflight | Random | Sticky | Disabled

  /** A service as registered: its methods with their balance policy. */
  datatype Signature = Signature(methods: map<string, Balance>)

  class ServiceInstance {
    const id: string
    const services: map<string, Signature>
    var inflight: int

    constructor (id: string, services: map<string, Signature>)
      ensures this.id == id && this.services == services && inflight == 0
    {
      this.id, this.services, inflight := id, services, 0;
    }
  }

  /** The route of one call; two calls that reuse an id have different routes. */
  class Route {
    const callId: string
    const client: nat
    const instance: ServiceInstance

    constructor (callId: string, client: nat, instance: ServiceInstance)
      ensures this.callId == callId && this.client == client && this.instance == instance
    {
      this.callId, this.client, this.instance := callId, client, instance;
    }
  }

  /** A service's instances, by id, and the round-robin cursor of each of its methods. */
  datatype Pool = Pool(signature: Signature, members: seq<string>, cursors: map<string, nat>)

  type Pools = map<string, Pool>

  /** What each registered instance provides. */
  type Offers = map<string, map<string, Signature>>

  // --- Pools ---------------------------------------------------------------------------------------------

  ghost predicate Sorted(ids: seq<string>) {
    ids == [] || ((forall id <- ids[1..] :: Before(ids[0], id)) && Sorted(ids[1..]))
  }

  /** Append and sort again. */
  function Insert(ids: seq<string>, x: string): seq<string> {
    if ids == [] then [x]
    else if Before(x, ids[0]) then [x] + ids
    else [ids[0]] + Insert(ids[1..], x)
  }

  function Without(ids: seq<string>, x: string): seq<string> {
    if ids == [] then []
    else if ids[0] == x then Without(ids[1..], x)
    else [ids[0]] + Without(ids[1..], x)
  }

  lemma SortedCons(head: string, tail: seq<string>)
    requires Sorted(tail) && forall id <- tail :: Before(head, id)
    ensures Sorted([head] + tail)
  {
    assert ([head] + tail)[1..] == tail;
  }

  lemma {:induction false} InsertMembers(ids: seq<string>, x: string)
    ensures forall id :: id in Insert(ids, x) <==> id in ids || id == x
  {
    if ids != [] {
      assert ids == [ids[0]] + ids[1..];
      InsertMembers(ids[1..], x);
    }
  }

  lemma {:induction false} WithoutMembers(ids: seq<string>, x: string)
    ensures forall id :: id in Without(ids, x) <==> id in ids && id != x
  {
    if ids != [] {
      assert ids == [ids[0]] + ids[1..];
      WithoutMembers(ids[1..], x);
    }
  }

  lemma AllAfter(head: string, tail: seq<string>, x: string)
    requires Sorted([head] + tail) && Before(x, head)
    ensures forall id <- [head] + tail :: Before(x, id)
  {
    assert ([head] + tail)[1..] == tail;
    forall id | id in [head] + tail ensures Before(x, id) {
      if id != head {
        BeforeTransitive(x, head, id);
      }
    }
  }

  lemma {:induction false} InsertSorted(ids: seq<string>, x: string)
    requires Sorted(ids) && x !in ids
    ensures Sorted(Insert(ids, x))
  {
    if ids != [] {
      var head, rest := ids[0], ids[1..];
      assert ids == [head] + rest;
      if Before(x, head) {
        AllAfter(head, rest, x);
        SortedCons(x, ids);
      } else {
        BeforeTotal(x, head);
        InsertSorted(rest, x);
        InsertMembers(rest, x);
        SortedCons(head, Insert(rest, x));
      }
    }
  }

  lemma {:induction false} WithoutSorted(ids: seq<string>, x: string)
    requires Sorted(ids)
    ensures Sorted(Without(ids, x))
  {
    if ids != [] {
      WithoutSorted(ids[1..], x);
      if ids[0] != x {
        WithoutMembers(ids[1..], x);
        SortedCons(ids[0], Without(ids[1..], x));
      }
    }
  }

  /** A pool has exactly the instances that provide the service with its signature, sorted by id. */
  ghost predicate PoolOk(offers: Offers, name: string, pool: Pool) {
    && pool.members != [] && Sorted(pool.members)
    && forall id <- pool.members :: id in offers && name in offers[id] && offers[id][name] == pool.signature
  }

  ghost predicate PoolsOk(offers: Offers, pools: Pools) {
    && (forall name :: name in pools ==> PoolOk(offers, name, pools[name]))
    && (forall id, name :: id in offers && name in offers[id] ==> name in pools && id in pools[name].members)
  }

  /** The pool of a service once `x` has joined it. */
  function JoinedPool(pools: Pools, x: string, name: string, signature: Signature): Pool {
    if name in pools then pools[name].(members := Insert(pools[name].members, x))
    else Pool(signature, [x], map[])
  }

  /** The pools once `x` has joined those of the services `names`. */
  function Joined(pools: Pools, x: string, services: map<string, Signature>, names: set<string>): Pools
    requires names <= services.Keys
  {
    map name | name in pools.Keys + names ::
      if name in names then JoinedPool(pools, x, name, services[name]) else pools[name]
  }

  predicate Compatible(pools: Pools, services: map<string, Signature>) {
    forall name :: name in services && name in pools ==> pools[name].signature == services[name]
  }

  lemma JoinPool(offers: Offers, pools: Pools, x: string, services: map<string, Signature>, name: string)
    requires PoolsOk(offers, pools) && x !in offers && name in services && Compatible(pools, services)
    ensures PoolOk(offers[x := services], name, JoinedPool(pools, x, name, services[name]))
    ensures forall id :: id in JoinedPool(pools, x, name, services[name]).members <==>
                         id == x || (name in pools && id in pools[name].members)
  {
    if name in pools {
      assert PoolOk(offers, name, pools[name]);
      InsertSorted(pools[name].members, x);
      InsertMembers(pools[name].members, x);
      assert x in Insert(pools[name].members, x);
    } else {
      SortedCons(x, []);
      assert [x] + [] == [x];
    }
  }

  lemma JoinOk(offers: Offers, pools: Pools, x: string, services: map<string, Signature>)
    requires PoolsOk(offers, pools) && x !in offers && Compatible(pools, services)
    ensures PoolsOk(offers[x := services], Joined(pools, x, services, services.Keys))
  {
    var offers', pools' := offers[x := services], Joined(pools, x, services, services.Keys);
    forall name | name in pools' ensures PoolOk(offers', name, pools'[name]) {
      if name in services {
        JoinPool(offers, pools, x, services, name);
      } else {
        assert PoolOk(offers, name, pools[name]);
      }
    }
    forall id, name | id in offers' && name in offers'[id]
      ensures name in pools' && id in pools'[name].members
    {
      if name in services { JoinPool(offers, pools, x, services, name); }
    }
  }

  /** The pools once `x` has left those of the services `names`; an empty pool goes. */
  function Left(pools: Pools, x: string, names: set<string>): Pools {
    map name | name in pools && !(name in names && Without(pools[name].members, x) == []) ::
      if name in names then pools[name].(members := Without(pools[name].members, x)) else pools[name]
  }

  lemma LeavePool(offers: Offers, pools: Pools, x: string, name: string)
    requires PoolsOk(offers, pools) && x in offers && name in Left(pools, x, offers[x].Keys)
    ensures PoolOk(offers - {x}, name, Left(pools, x, offers[x].Keys)[name])
  {
    assert PoolOk(offers, name, pools[name]);
    WithoutSorted(pools[name].members, x);
    WithoutMembers(pools[name].members, x);
  }

  lemma LeaveOk(offers: Offers, pools: Pools, x: string)
    requires PoolsOk(offers, pools) && x in offers
    ensures PoolsOk(offers - {x}, Left(pools, x, offers[x].Keys))
  {
    var offers', pools' := offers - {x}, Left(pools, x, offers[x].Keys);
    forall name | name in pools' ensures PoolOk(offers', name, pools'[name]) {
      LeavePool(offers, pools, x, name);
    }
    forall id, name | id in offers' && name in offers'[id]
      ensures name in pools' && id in pools'[name].members
    {
      WithoutMembers(pools[name].members, x);
    }
  }

  /** Joining changes the pools of the services joined, and in them only the members; a new pool starts from scratch. */
  lemma JoinedMeans(offers: Offers, pools: Pools, x: string, services: map<string, Signature>, name: string)
    requires PoolsOk(offers, pools) && x !in offers && Compatible(pools, services)
    ensures var pools' := Joined(pools, x, services, services.Keys);
            && (name in pools' <==> name in pools || name in services)
            && (name in pools && name !in services ==> pools'[name] == pools[name])
            && (name in pools && name in services ==>
                  && pools'[name].cursors == pools[name].cursors && pools'[name].signature == pools[name].signature
                  && forall id :: id in pools'[name].members <==> id in pools[name].members || id == x)
            && (name !in pools && name in services ==> pools'[name] == Pool(services[name], [x], map[]))
  {
    if name in services { JoinPool(offers, pools, x, services, name); }
  }

  /** Leaving changes the pools of the services left, and in them only the members; the last member takes the pool along. */
  lemma LeftMeans(offers: Offers, pools: Pools, x: string, name: string)
    requires PoolsOk(offers, pools) && x in offers && name in pools
    ensures var pools' := Left(pools, x, offers[x].Keys);
            && (name !in offers[x] ==> name in pools' && pools'[name] == pools[name])
            && (name in offers[x] ==>
                  && (name !in pools' <==> forall id <- pools[name].members :: id == x)
                  && (name in pools' ==>
                        && pools'[name].cursors == pools[name].cursors && pools'[name].signature == pools[name].signature
                        && forall id :: id in pools'[name].members <==> id in pools[name].members && id != x))
  {
    var members := pools[name].members;
    WithoutMembers(members, x);
    if Without(members, x) != [] { assert Without(members, x)[0] in Without(members, x); }
  }

  // --- Choosing an instance --------------------------------------------------------------------------------

  datatype Code = ProtocolError | Unavailable | MethodNotFound | BadStickyKey

  /** The cursor of a method that was not called before is zero. */
  function CursorOf(pool: Pool, operation: string): nat {
    if operation in pool.cursors then pool.cursors[operation] else 0
  }

  /** Why a call cannot be given to an instance, if it cannot. */
  function SelectError(pools: Pools, service: string, operation: string, sticky: Option<nat>): Option<Code> {
    if service !in pools then Some(Unavailable)
    else if operation !in pools[service].signature.methods then Some(MethodNotFound)
    else
      match pools[service].signature.methods[operation]
      case Sticky => if sticky.None? then Some(BadStickyKey) else None
      case Disabled => if |pools[service].members| != 1 then Some(Unavailable) else None
      case _ => None
  }

  /** Each reason to refuse a call, and when it is given. */
  lemma WhyRefused(pools: Pools, service: string, operation: string, sticky: Option<nat>)
    ensures var e := SelectError(pools, service, operation, sticky);
            && (e == Some(MethodNotFound) <==> service in pools && operation !in pools[service].signature.methods)
            && (e == Some(BadStickyKey) <==>
                  service in pools && operation in pools[service].signature.methods
                  && pools[service].signature.methods[operation] == Sticky && sticky == None)
            && (e == Some(Unavailable) <==>
                  service !in pools
                  || (operation in pools[service].signature.methods
                      && pools[service].signature.methods[operation] == Disabled && |pools[service].members| != 1))
            && e != Some(ProtocolError)
  {
  }

  /** The pools after a selection: only round robin moves a cursor. */
  function AfterSelect(pools: Pools, service: string, operation: string): Pools {
    if service !in pools || operation !in pools[service].signature.methods || pools[service].members == [] then pools
    else if pools[service].signature.methods[operation] != RoundRobin then pools
    else
      var pool := pools[service];
      pools[service := pool.(cursors :=
        pool.cursors[operation := CursorAfter(CursorOf(pool, operation), |pool.members|, 1)])]
  }

  /** Fewer calls, or as many and the smaller id. */
  predicate LessBusy(load: map<string, int>, a: string, b: string)
    requires a in load && b in load
  {
    load[a] < load[b] || (load[a] == load[b] && Before(a, b))
  }

  /** The instance under the cursor of the method. */
  function RoundRobinPick(pool: Pool, operation: string): string
    requires pool.members != []
  {
    pool.members[PickAt(CursorOf(pool, operation), |pool.members|, 0)]
  }

  /** The policy of the method chooses this instance; `load` is the calls in flight of each. */
  ghost predicate Chosen(pool: Pool, load: map<string, int>, operation: string, choice: nat, sticky: Option<nat>, id: string)
    requires operation in pool.signature.methods && pool.members != []
  {
    var n := |pool.members|;
    match pool.signature.methods[operation]
    case RoundRobin => id == RoundRobinPick(pool, operation)
    case LeastInflight =>
      id in pool.members && id in load && forall other <- pool.members :: other in load && !LessBusy(load, other, id)
    case Random => id == pool.members[choice % n]
    case Sticky => sticky.Some? && id == pool.members[sticky.value % n]
    case Disabled => pool.members == [id]
  }

  /** The cursor after `k` picks among `n` instances. */
  function CursorAfter(cursor: nat, n: nat, k: nat): nat
    requires n > 0
  {
    if k == 0 then cursor else (CursorAfter(cursor, n, k - 1) + 1) % n
  }

  /** The instance that the `k`-th pick from now takes. */
  function PickAt(cursor: nat, n: nat, k: nat): (p: nat)
    requires n > 0
    ensures p < n
  {
    CursorAfter(cursor, n, k) % n
  }

  lemma NextPick(cursor: nat, n: nat, k: nat)
    requires n > 0
    ensures PickAt(cursor, n, k + 1) == if PickAt(cursor, n, k) + 1 == n then 0 else PickAt(cursor, n, k) + 1
  {
    var c := CursorAfter(cursor, n, k);
    ModNext(c, n);
    var next := (c + 1) % n;
    ModUnique(next, n, 0, next);
  }

  lemma ModNext(c: nat, n: nat)
    requires n > 0
    ensures (c + 1) % n == if c % n + 1 == n then 0 else c % n + 1
  {
    var q, r := c / n, c % n;
    assert c == q * n + r;
    if r + 1 == n {
      assert c + 1 == (q + 1) * n;
      ModUnique(c + 1, n, q + 1, 0);
    } else {
      ModUnique(c + 1, n, q, r + 1);
    }
  }

  lemma ModUnique(x: nat, n: nat, q: nat, r: nat)
    requires n > 0 && x == q * n + r && r < n
    ensures x % n == r
  {
    var d := x / n - q;
    assert x == (x / n) * n + x % n;
    assert (x / n) * n == q * n + d * n;
    assert d > 0 ==> d * n >= n;
    assert d < 0 ==> d * n + n <= 0;
  }

  lemma {:induction false} PickFrom(cursor: nat, n: nat, k: nat)
    requires n > 0 && k < n
    ensures var p := PickAt(cursor, n, 0);
            PickAt(cursor, n, k) == if p + k < n then p + k else p + k - n
  {
    if k > 0 {
      PickFrom(cursor, n, k - 1);
      NextPick(cursor, n, k - 1);
    }
  }

  /** Among `n` picks in a row, each place comes up exactly once. */
  lemma PlacesInTurn(cursor: nat, n: nat, i: nat)
    requires i < n
    ensures exists k :: 0 <= k < n && PickAt(cursor, n, k) == i
    ensures forall k, l :: 0 <= k < n && 0 <= l < n && PickAt(cursor, n, k) == PickAt(cursor, n, l) ==> k == l
  {
    var p := PickAt(cursor, n, 0);
    var k := if p <= i then i - p else n - p + i;
    PickFrom(cursor, n, k);
    forall k, l | 0 <= k < n && 0 <= l < n && PickAt(cursor, n, k) == PickAt(cursor, n, l) ensures k == l {
      PickFrom(cursor, n, k);
      PickFrom(cursor, n, l);
    }
  }

  // --- A round of picks ------------------------------------------------------------------------------------

  /** What changes the pools: a call is routed, an instance joins, an instance leaves. */
  datatype Change =
    | Pick(service: string, operation: string)
    | Join(id: string, services: map<string, Signature>)
    | Leave(id: string, names: set<string>)

  function AfterChange(pools: Pools, change: Change): Pools {
    match change
    case Pick(service, operation) => AfterSelect(pools, service, operation)
    case Join(id, services) => if Compatible(pools, services) then Joined(pools, id, services, services.Keys) else pools
    case Leave(id, names) => Left(pools, id, names)
  }

  function AfterChanges(pools: Pools, changes: seq<Change>): Pools {
    if changes == [] then pools
    else AfterChange(AfterChanges(pools, changes[..|changes| - 1]), changes[|changes| - 1])
  }

  /** The change leaves the instances of the service as they are. */
  predicate KeepsMembers(service: string, change: Change) {
    match change
    case Pick(_, _) => true
    case Join(_, services) => service !in services
    case Leave(_, names) => service !in names
  }

  /** The instances that the calls of the method are given to, in order. */
  function Picks(pools: Pools, changes: seq<Change>, service: string, operation: string): seq<string> {
    if changes == [] then []
    else
      var n := |changes| - 1;
      var now := AfterChanges(pools, changes[..n]);
      Picks(pools, changes[..n], service, operation)
      + if changes[n] == Pick(service, operation) && service in now && now[service].members != []
        then [RoundRobinPick(now[service], operation)] else []
  }

  /** The method gives its calls to the instances in turn. */
  predicate TakesTurns(pools: Pools, service: string, operation: string) {
    && service in pools && pools[service].members != []
    && operation in pools[service].signature.methods
    && pools[service].signature.methods[operation] == RoundRobin
  }

  /** The pool of the service after `k` of its method's picks. */
  ghost predicate AfterPicks(pool: Pool, pool': Pool, operation: string, k: nat)
    requires pool.members != []
  {
    && pool'.members == pool.members && pool'.signature == pool.signature
    && CursorOf(pool', operation) == CursorAfter(CursorOf(pool, operation), |pool.members|, k)
  }

  /** The picks are those of `pool` in turn, and `pools` has the cursor after them. */
  ghost predicate InTurn(pool: Pool, pools: Pools, ids: seq<string>, service: string, operation: string)
    requires pool.members != []
  {
    && service in pools && AfterPicks(pool, pools[service], operation, |ids|)
    && forall k :: 0 <= k < |ids| ==> ids[k] == pool.members[PickAt(CursorOf(pool, operation), |pool.members|, k)]
  }

  lemma OtherChange(pool: Pool, pools: Pools, change: Change, ids: seq<string>, service: string, operation: string)
    requires pool.members != [] && InTurn(pool, pools, ids, service, operation)
    requires KeepsMembers(service, change) && change != Pick(service, operation)
    ensures InTurn(pool, AfterChange(pools, change), ids, service, operation)
  {
  }

  lemma NextInTurn(pool: Pool, pools: Pools, ids: seq<string>, service: string, operation: string)
    requires pool.members != [] && InTurn(pool, pools, ids, service, operation) && TakesTurns(pools, service, operation)
    ensures InTurn(pool, AfterSelect(pools, service, operation), ids + [RoundRobinPick(pools[service], operation)],
                   service, operation)
  {
    var n := |pool.members|;
    var c := CursorAfter(CursorOf(pool, operation), n, |ids|);
    assert CursorAfter(c, n, 1) == (CursorAfter(c, n, 0) + 1) % n;
  }

  lemma {:induction false} PicksInTurn(pools: Pools, changes: seq<Change>, service: string, operation: string)
    requires TakesTurns(pools, service, operation) && forall change <- changes :: KeepsMembers(service, change)
    ensures InTurn(pools[service], AfterChanges(pools, changes), Picks(pools, changes, service, operation),
                   service, operation)
  {
    if changes != [] {
      var n := |changes| - 1;
      assert changes[n] in changes && forall change <- changes[..n] :: change in changes;
      PicksInTurn(pools, changes[..n], service, operation);
      var now, ids := AfterChanges(pools, changes[..n]), Picks(pools, changes[..n], service, operation);
      if changes[n] == Pick(service, operation) {
        NextInTurn(pools[service], now, ids, service, operation);
      } else {
        OtherChange(pools[service], now, changes[n], ids, service, operation);
      }
    }
  }

  lemma {:induction false} PickFromZero(n: nat, k: nat)
    requires n > 0
    ensures PickAt(0, n, k) == k % n
  {
    if k > 0 {
      PickFromZero(n, k - 1);
      NextPick(0, n, k - 1);
      ModNext(k - 1, n);
    } else {
      ModUnique(0, n, 0, 0);
    }
  }

  /** The calls of a method that was not called before go to the instances in the order of their ids, round and round. */
  lemma FirstRounds(pools: Pools, changes: seq<Change>, service: string, operation: string, k: nat)
    requires TakesTurns(pools, service, operation) && operation !in pools[service].cursors
    requires forall change <- changes :: KeepsMembers(service, change)
    requires k < |Picks(pools, changes, service, operation)|
    ensures Picks(pools, changes, service, operation)[k] == pools[service].members[k % |pools[service].members|]
  {
    PicksInTurn(pools, changes, service, operation);
    PickFromZero(|pools[service].members|, k);
  }

  lemma {:induction false} SortedDiffers(ids: seq<string>, i: nat, j: nat)
    requires Sorted(ids) && i < j < |ids|
    ensures ids[i] != ids[j]
  {
    if i == 0 {
      assert ids[j] == ids[1..][j - 1];
      BeforeIrreflexive(ids[0]);
    } else {
      SortedDiffers(ids[1..], i - 1, j - 1);
    }
  }

  /**
   * As many calls of a round-robin method as its service has instances are given
   * to pairwise different instances, and every instance gets one, whatever
   * happens to other methods and other services in between.
   */
  lemma RoundIsFair(offers: Offers, pools: Pools, changes: seq<Change>, service: string, operation: string)
    requires PoolsOk(offers, pools) && TakesTurns(pools, service, operation)
    requires forall change <- changes :: KeepsMembers(service, change)
    requires |Picks(pools, changes, service, operation)| == |pools[service].members|
    ensures var ids := Picks(pools, changes, service, operation);
            && (forall k, l :: 0 <= k < l < |ids| ==> ids[k] != ids[l])
            && (forall id :: id in ids <==> id in pools[service].members)
  {
    var pool, ids := pools[service], Picks(pools, changes, service, operation);
    var c, n := CursorOf(pool, operation), |pool.members|;
    assert PoolOk(offers, service, pool);
    PicksInTurn(pools, changes, service, operation);
    forall k, l | 0 <= k < l < n ensures ids[k] != ids[l] {
      var i, j := PickAt(c, n, k), PickAt(c, n, l);
      PlacesInTurn(c, n, i);
      SortedDiffers(pool.members, if i < j then i else j, if i < j then j else i);
    }
    forall id | id in pool.members ensures id in ids {
      var i :| 0 <= i < n && pool.members[i] == id;
      PlacesInTurn(c, n, i);
      var k :| 0 <= k < n && PickAt(c, n, k) == i;
      assert ids[k] == id;
    }
  }

  // --- The table ---------------------------------------------------------------------------------------------

  type Instances = map<string, ServiceInstance>
  type Routes = map<string, Route>

  function OffersOf(instances: Instances): Offers { map id | id in instances :: instances[id].services }

  /** The calls routed to an instance. */
  function Calls(routes: Routes, id: string): set<string> { set c | c in routes && routes[c].instance.id == id }

  lemma CallsAdd(routes: Routes, c: string, route: Route, id: string)
    requires c !in routes
    ensures |Calls(routes[c := route], id)| == |Calls(routes, id)| + if route.instance.id == id then 1 else 0
  {
    assert Calls(routes[c := route], id) == Calls(routes, id) + if route.instance.id == id then {c} else {};
  }

  lemma CallsRemove(routes: Routes, c: string, id: string)
    requires c in routes
    ensures |Calls(routes - {c}, id)| == |Calls(routes, id)| - if routes[c].instance.id == id then 1 else 0
  {
    assert Calls(routes, id) == Calls(routes - {c}, id) + if routes[c].instance.id == id then {c} else {};
  }

  /** Every route leads to a registered instance. */
  ghost predicate Routed(instances: Instances, routes: Routes) {
    && (forall id :: id in instances ==> instances[id].id == id)
    && (forall c :: c in routes ==>
          var r := routes[c];
          r.callId == c && r.instance.id in instances && instances[r.instance.id] == r.instance)
  }

  function Max(a: int, b: int): int { if a >= b then a else b }

  datatype Registration = Added | Duplicate | Incompatible

  class Router {
    var instances: Instances
    var pools: Pools
    var routes: Routes

    ghost predicate Valid()
      reads this, instances.Values
    {
      && Routed(instances, routes)
      && (forall id :: id in instances ==> instances[id].inflight == |Calls(routes, id)|)
      && PoolsOk(OffersOf(instances), pools)
    }

    constructor ()
      ensures Valid() && instances == map[] && pools == map[] && routes == map[]
    {
      instances, pools, routes := map[], map[], map[];
    }

    /** A server registers: all its services, or none. */
    method AddInstance(x: ServiceInstance) returns (r: Registration)
      requires Valid() && x.inflight == 0
      modifies this
      ensures Valid() && routes == old(routes)
      ensures r == if x.id in old(instances) then Duplicate
                   else if !Compatible(old(pools), x.services) then Incompatible else Added
      ensures r == Added ==>
                instances == old(instances)[x.id := x] && pools == Joined(old(pools), x.id, x.services, x.services.Keys)
      ensures r != Added ==> instances == old(instances) && pools == old(pools)
    {
      if x.id in instances {
        return Duplicate;
      }
      var todo := x.services.Keys;
      while todo != {}
        invariant todo <= x.services.Keys && unchanged(this)
        invariant forall name :: name in x.services.Keys - todo && name in pools ==> pools[name].signature == x.services[name]
        decreases todo
      {
        var name :| name in todo;
        if name in pools && pools[name].signature != x.services[name] {
          return Incompatible;
        }
        todo := todo - {name};
      }
      JoinOk(OffersOf(instances), pools, x.id, x.services);
      NoCallsYet(instances, routes, x.id);
      assert OffersOf(instances[x.id := x]) == OffersOf(instances)[x.id := x.services];
      instances := instances[x.id := x];
      JoinPools(x);
      return Added;
    }

    method JoinPools(x: ServiceInstance)
      modifies this`pools
      ensures pools == Joined(old(pools), x.id, x.services, x.services.Keys)
    {
      var todo := x.services.Keys;
      while todo != {}
        invariant todo <= x.services.Keys
        invariant pools == Joined(old(pools), x.id, x.services, x.services.Keys - todo)
        decreases todo
      {
        var name :| name in todo;
        assert x.services.Keys - (todo - {name}) == (x.services.Keys - todo) + {name};
        pools := pools[name := JoinedPool(pools, x.id, name, x.services[name])];
        todo := todo - {name};
      }
      assert x.services.Keys - todo == x.services.Keys;
    }

    /** The calls in flight of each instance. */
    ghost function Load(): map<string, int>
      reads this, instances.Values
    {
      map id | id in instances :: instances[id].inflight
    }

    /** Open a call: choose an instance, and enter the route. */
    method OpenCall(client: nat, callId: string, service: string, operation: string, choice: nat, sticky: Option<nat>)
      returns (r: Result<Route, Code>)
      requires Valid()
      modifies this, instances.Values
      ensures Valid() && instances == old(instances)
      ensures r.Err? ==> routes == old(routes)
      ensures callId in old(routes) ==> r == Err(ProtocolError) && pools == old(pools)
      ensures callId !in old(routes) ==>
                && pools == AfterSelect(old(pools), service, operation)
                && match SelectError(old(pools), service, operation, sticky)
                   case Some(code) => r == Err(code)
                   case None => r.Ok? && Chosen(old(pools)[service], old(Load()), operation, choice, sticky, r.value.instance.id)
      ensures r.Ok? ==>
                && routes == old(routes)[callId := r.value]
                && fresh(r.value) && r.value.callId == callId && r.value.client == client
                && r.value.instance.id in instances && instances[r.value.instance.id] == r.value.instance
      ensures forall id :: id in instances ==>
                instances[id].inflight == old(instances[id].inflight) + if r.Ok? && r.value.instance == instances[id] then 1 else 0
    {
      if callId in routes {
        return Err(ProtocolError);
      }
      var selected := SelectInstance(service, operation, choice, sticky);
      if selected.Err? {
        return Err(selected.error);
      }
      var instance := instances[selected.value];
      var route := new Route(callId, client, instance);
      Enter(route);
      return Ok(route);
    }

    method Enter(route: Route)
      requires Valid() && route.callId !in routes
      requires route.instance.id in instances && instances[route.instance.id] == route.instance
      modifies this`routes, route.instance
      ensures Valid() && routes == old(routes)[route.callId := route]
      ensures route.instance.inflight == old(route.instance.inflight) + 1
    {
      var callId := route.callId;
      forall id | id in instances
        ensures |Calls(routes[callId := route], id)| == |Calls(routes, id)| + if route.instance.id == id then 1 else 0
      {
        CallsAdd(routes, callId, route, id);
      }
      routes := routes[callId := route];
      route.instance.inflight := route.instance.inflight + 1;
    }

    /** The instance that the method's balance policy chooses, or why there is none. */
    method SelectInstance(service: string, operation: string, choice: nat, sticky: Option<nat>)
      returns (r: Result<string, Code>)
      requires Valid()
      modifies this`pools
      ensures Valid() && pools == AfterSelect(old(pools), service, operation)
      ensures match SelectError(old(pools), service, operation, sticky)
              case Some(code) => r == Err(code)
              case None =>
                && r.Ok? && r.value in instances
                && old(pools)[service].members != []
                && Chosen(old(pools)[service], old(Load()), operation, choice, sticky, r.value)
    {
      if service !in pools {
        return Err(Unavailable);
      }
      var pool := pools[service];
      assert PoolOk(OffersOf(instances), service, pool);
      if operation !in pool.signature.methods {
        return Err(MethodNotFound);
      }
      var n := |pool.members|;
      assert forall i :: 0 <= i < n ==> pool.members[i] in pool.members && pool.members[i] in OffersOf(instances);
      match pool.signature.methods[operation]
      case RoundRobin =>
        var cursor := CursorOf(pool, operation);
        assert CursorAfter(cursor, n, 1) == (CursorAfter(cursor, n, 0) + 1) % n == (cursor + 1) % n;
        var selected := pool.members[cursor % n];
        SetCursor(service, operation, (cursor + 1) % n);
        return Ok(selected);
      case LeastInflight =>
        var least := Least(pool.members);
        return Ok(least);
      case Random => return Ok(pool.members[choice % n]);
      case Sticky =>
        if sticky.None? {
          return Err(BadStickyKey);
        }
        return Ok(pool.members[sticky.value % n]);
      case Disabled =>
        if n != 1 {
          return Err(Unavailable);
        }
        return Ok(pool.members[0]);
    }

    method SetCursor(service: string, operation: string, cursor: nat)
      requires Valid() && service in pools
      modifies this`pools
      ensures Valid()
      ensures pools == old(pools)[service := old(pools)[service].(cursors := old(pools)[service].cursors[operation := cursor])]
    {
      var pool := pools[service];
      CursorKeepsPools(OffersOf(instances), pools, service, pool.(cursors := pool.cursors[operation := cursor]));
      pools := pools[service := pool.(cursors := pool.cursors[operation := cursor])];
    }

    method Least(members: seq<string>) returns (least: string)
      requires members != [] && forall id <- members :: id in instances
      ensures least in members && forall id <- members :: !LessBusy(Load(), id, least)
    {
      least := members[0];
      BeforeIrreflexive(least);
      var i := 1;
      while i < |members|
        invariant 1 <= i <= |members| && least in members
        invariant forall k :: 0 <= k < i ==> !LessBusy(Load(), members[k], least)
      {
        var id := members[i];
        if instances[id].inflight < instances[least].inflight
           || (instances[id].inflight == instances[least].inflight && Before(id, least)) {
          forall k | 0 <= k < i ensures !LessBusy(Load(), members[k], id) {
            NotLessBusy(Load(), members[k], id, least);
          }
          BeforeIrreflexive(id);
          least := id;
        }
        i := i + 1;
      }
    }

    /** Take a route out of the table; the clamp at zero never changes the count. */
    method Drop(route: Route)
      requires Valid() && route.callId in routes && routes[route.callId] == route
      modifies this`routes, route.instance
      ensures Valid() && routes == old(routes) - {route.callId}
      ensures route.instance.inflight == old(route.instance.inflight) - 1 >= 0
    {
      forall id | id in instances
        ensures |Calls(routes - {route.callId}, id)| == |Calls(routes, id)| - if route.instance.id == id then 1 else 0
      {
        CallsRemove(routes, route.callId, id);
      }
      routes := routes - {route.callId};
      route.instance.inflight := Max(0, route.instance.inflight - 1);
    }

    /** A call is over; a route that another one has replaced is left alone. */
    method FinishRoute(route: Route)
      requires Valid()
      modifies this`routes, route.instance
      ensures Valid()
      ensures routes == if route.callId in old(routes) && old(routes)[route.callId] == route
                        then old(routes) - {route.callId} else old(routes)
      ensures routes == old(routes) ==> route.instance.inflight == old(route.instance.inflight)
    {
      if route.callId in routes && routes[route.callId] == route {
        Drop(route);
      }
    }

    /** A client is gone: its routes go with it. */
    method RemoveClient(client: nat)
      requires Valid()
      modifies this`routes, instances.Values
      ensures Valid() && instances == old(instances)
      ensures routes == map c | c in old(routes) && old(routes)[c].client != client :: old(routes)[c]
    {
      var todo := set c | c in routes && routes[c].client == client;
      ghost var all := todo;
      while todo != {}
        invariant todo <= all && Valid() && instances == old(instances)
        invariant routes == old(routes) - (all - todo)
        decreases todo
      {
        var c :| c in todo;
        OneLess(old(routes), all, todo, c);
        Drop(routes[c]);
        todo := todo - {c};
      }
      NoneLeft(old(routes), client, all, todo);
    }

    /** An instance is gone: it leaves its pools, and its routes go. Another one under its id is left alone. */
    method RemoveInstance(x: ServiceInstance)
      requires Valid()
      modifies this, x
      ensures Valid()
      ensures var known := x.id in old(instances) && old(instances)[x.id] == x;
              if known then
                && instances == old(instances) - {x.id} && x.inflight == 0
                && pools == Left(old(pools), x.id, x.services.Keys)
                && routes == map c | c in old(routes) && old(routes)[c].instance != x :: old(routes)[c]
              else instances == old(instances) && pools == old(pools) && routes == old(routes)
    {
      if x.id !in instances || instances[x.id] != x {
        return;
      }
      LeaveOk(OffersOf(instances), pools, x.id);
      assert OffersOf(instances - {x.id}) == OffersOf(instances) - {x.id};
      instances := instances - {x.id};
      LeavePools(x);
      RoutesLeave(old(instances), routes, x);
      routes := map c | c in routes && routes[c].instance != x :: routes[c];
      x.inflight := 0;
    }

    method LeavePools(x: ServiceInstance)
      modifies this`pools
      ensures pools == Left(old(pools), x.id, x.services.Keys)
    {
      var todo := x.services.Keys;
      while todo != {}
        invariant todo <= x.services.Keys
        invariant pools == Left(old(pools), x.id, x.services.Keys - todo)
        decreases todo
      {
        var name :| name in todo;
        assert x.services.Keys - (todo - {name}) == (x.services.Keys - todo) + {name};
        if name in pools {
          var members := Without(pools[name].members, x.id);
          if members == [] {
            pools := pools - {name};
          } else {
            pools := pools[name := pools[name].(members := members)];
          }
        }
        todo := todo - {name};
      }
      assert x.services.Keys - todo == x.services.Keys;
    }
  }

  lemma NotLessBusy(load: map<string, int>, a: string, b: string, c: string)
    requires a in load && b in load && c in load
    requires LessBusy(load, b, c) && !LessBusy(load, a, c)
    ensures !LessBusy(load, a, b)
  {
    if LessBusy(load, a, b) && load[a] == load[c] {
      BeforeTransitive(a, b, c);
    }
  }

  lemma OneLess(routes: Routes, all: set<string>, todo: set<string>, c: string)
    requires todo <= all && c in todo
    ensures routes - (all - (todo - {c})) == (routes - (all - todo)) - {c}
  {
  }

  lemma NoneLeft(routes: Routes, client: nat, all: set<string>, todo: set<string>)
    requires todo == {} && all == set c | c in routes && routes[c].client == client
    ensures routes - (all - todo) == map c | c in routes && routes[c].client != client :: routes[c]
  {
  }

  lemma RoutesLeave(instances: Instances, routes: Routes, x: ServiceInstance)
    requires Routed(instances, routes) && x.id in instances && instances[x.id] == x
    ensures var routes' := map c | c in routes && routes[c].instance != x :: routes[c];
            && Routed(instances - {x.id}, routes')
            && forall id :: id in instances && id != x.id ==> Calls(routes', id) == Calls(routes, id)
  {
  }

  lemma NoCallsYet(instances: Instances, routes: Routes, id: string)
    requires Routed(instances, routes) && id !in instances
    ensures Calls(routes, id) == {}
  {
  }

  lemma CursorKeepsPools(offers: Offers, pools: Pools, service: string, pool: Pool)
    requires PoolsOk(offers, pools) && service in pools && pool == pools[service].(cursors := pool.cursors)
    ensures PoolsOk(offers, pools[service := pool])
  {
    forall name | name in pools ensures PoolOk(offers, name, pools[service := pool][name]) {
      assert PoolOk(offers, name, pools[name]);
    }
  }
}
