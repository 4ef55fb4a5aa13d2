/**
 * Dependency injection of the Go runtime: the check for circular dependencies
 * at registration, and the resolution of a call's dependencies, which ends only
 * because of that check.
 */
module Dependency {

  import opened Wrappers

  type TypeId = string

  /** A provider: what it depends on; `meta` when it reads a header of the call. */
  datatype Spec = Spec(deps: seq<TypeId>, meta: bool)

  type Registry = map<TypeId, Spec>

  /** What a type's provider is given; nothing for a header or an unregistered type. */
  function Deps(reg: Registry, t: TypeId): seq<TypeId> {
    if t in reg && !reg[t].meta then reg[t].deps else []
  }

  // --- Cycles ---------------------------------------------------------------------------------

  /** Each type of the path depends on the next. */
  ghost predicate Walk(reg: Registry, path: seq<TypeId>) {
    forall i :: 0 <= i < |path| - 1 ==> path[i + 1] in Deps(reg, path[i])
  }

  ghost predicate IsCycle(reg: Registry, path: seq<TypeId>) {
    |path| >= 2 && Walk(reg, path) && path[0] == path[|path| - 1]
  }

  ghost predicate Cyclic(reg: Registry) { exists path :: IsCycle(reg, path) }

  /** A walk that comes back to a type it has passed. */
  ghost predicate Returns(reg: Registry, path: seq<TypeId>) {
    |path| >= 2 && Walk(reg, path) && path[|path| - 1] in path[..|path| - 1]
  }

  lemma ReturnsIsCyclic(reg: Registry, path: seq<TypeId>)
    requires Returns(reg, path)
    ensures Cyclic(reg)
  {
    var last := |path| - 1;
    var i :| 0 <= i < last && path[..last][i] == path[last];
    assert IsCycle(reg, path[i..]);
  }

  /** Every type comes after what it depends on. */
  ghost predicate Topological(reg: Registry, order: seq<TypeId>) {
    NoDuplicates(order) && forall i :: 0 <= i < |order| ==> Before(reg, order, i)
  }

  ghost predicate Before(reg: Registry, order: seq<TypeId>, i: nat)
    requires i < |order|
  {
    forall d <- Deps(reg, order[i]) :: d in order[..i]
  }

  /** One more than the position in the order; zero for a type that is not in it. */
  function Rank(order: seq<TypeId>, t: TypeId): (n: nat)
    ensures n <= |order|
    ensures n == 0 <==> t !in order
    ensures n > 0 ==> order[n - 1] == t
  {
    if order == [] then 0
    else if order[|order| - 1] == t then |order|
    else Rank(order[..|order| - 1], t)
  }

  lemma RankDecreases(reg: Registry, order: seq<TypeId>, t: TypeId, d: TypeId)
    requires Topological(reg, order) && t in order && d in Deps(reg, t)
    ensures d in order && Rank(order, d) < Rank(order, t)
  {
    var i := Rank(order, t) - 1;
    assert Before(reg, order, i);
    var j :| 0 <= j < i && order[..i][j] == d;
    assert order[j] == d;
    assert order[Rank(order, d) - 1] == d;
  }

  lemma {:induction false} WalkDescends(reg: Registry, order: seq<TypeId>, path: seq<TypeId>, i: nat)
    requires Topological(reg, order) && Walk(reg, path) && i < |path| && path[0] in order
    ensures path[i] in order && Rank(order, path[i]) + i <= Rank(order, path[0])
  {
    if i > 0 {
      WalkDescends(reg, order, path, i - 1);
      RankDecreases(reg, order, path[i - 1], path[i]);
    }
  }

  /** A topological order of all registered types leaves no room for a cycle. */
  lemma TopologicalIsAcyclic(reg: Registry, order: seq<TypeId>)
    requires Topological(reg, order) && forall t :: t in reg ==> t in order
    ensures !Cyclic(reg)
  {
    if Cyclic(reg) {
      var path :| IsCycle(reg, path);
      assert path[1] in Deps(reg, path[0]);
      WalkDescends(reg, order, path, |path| - 1);
      assert false;
    }
  }

  // --- Registration -------------------------------------------------------------------------------

  /** Registered types, and those they depend on. */
  function Types(reg: Registry): set<TypeId> {
    reg.Keys + set t, d | t in reg && d in reg[t].deps :: d
  }

  ghost predicate Covers(reg: Registry, types: set<TypeId>) {
    reg.Keys <= types && forall t, d :: d in Deps(reg, t) ==> d in types
  }

  datatype Mark = Visiting | Visited

  /** How many of the types have no mark. */
  ghost function Unvisited(types: set<TypeId>, marked: set<TypeId>): nat { |types - marked| }

  lemma NoMore(types: set<TypeId>, marked: set<TypeId>, marked': set<TypeId>)
    requires marked <= marked'
    ensures Unvisited(types, marked') <= Unvisited(types, marked)
  {
    SubsetSize(types - marked', types - marked);
  }

  lemma Fewer(types: set<TypeId>, marked: set<TypeId>, t: TypeId)
    requires t in types && t !in marked
    ensures Unvisited(types, marked + {t}) < Unvisited(types, marked)
  {
    assert types - marked == (types - (marked + {t})) + {t};
  }

  ghost predicate DoneUpTo(subs: seq<TypeId>, n: nat, finished: seq<TypeId>)
    requires n <= |subs|
  {
    forall k :: 0 <= k < n ==> subs[k] in finished
  }

  lemma DoneNext(subs: seq<TypeId>, n: nat, finished: seq<TypeId>, finished': seq<TypeId>)
    requires n < |subs| && DoneUpTo(subs, n, finished) && finished <= finished' && subs[n] in finished'
    ensures DoneUpTo(subs, n + 1, finished')
  {
    forall k | 0 <= k < n ensures subs[k] in finished' {
      assert subs[k] in finished;
    }
  }

  /** The search for cycles; a type without a mark is unvisited. */
  class CycleSearch {
    const reg: Registry
    ghost const types: set<TypeId>
    var state: map<TypeId, Mark>
    var stack: seq<TypeId>
    ghost var finished: seq<TypeId>

    ghost predicate Valid()
      reads this
    {
      && Walk(reg, stack) && NoDuplicates(stack)
      && (forall t :: t in stack <==> t in state && state[t] == Visiting)
      && (forall t :: t in finished <==> t in state && state[t] == Visited)
      && Topological(reg, finished)
      && state.Keys <= types && Covers(reg, types)
    }

    constructor (reg: Registry)
      ensures Valid() && this.reg == reg && stack == [] && finished == [] && state == map[]
    {
      this.reg, types := reg, Types(reg);
      state, stack, finished := map[], [], [];
    }

    /** Visit an unvisited type; a cycle is returned as the path that closes it. */
    method Visit(t: TypeId) returns (cycle: Option<seq<TypeId>>)
      requires Valid() && t !in state && t in types
      requires stack != [] ==> t in Deps(reg, stack[|stack| - 1])
      modifies this
      ensures cycle.Some? ==> Returns(reg, cycle.value)
      ensures cycle.None? ==> Valid() && stack == old(stack) && t in finished && Further(old(finished), old(state))
      decreases Unvisited(types, state.Keys), 0
    {
      Fewer(types, state.Keys, t);
      Enter(t);
      cycle := Explore(t, old(stack));
    }

    /** Look at what the type on top of the stack depends on, and finish with it. */
    method Explore(t: TypeId, ghost below: seq<TypeId>) returns (cycle: Option<seq<TypeId>>)
      requires Valid() && stack == below + [t]
      modifies this
      ensures cycle.Some? ==> Returns(reg, cycle.value)
      ensures cycle.None? ==> Valid() && stack == below && t in finished && Further(old(finished), old(state))
      decreases Unvisited(types, state.Keys), 3
    {
      cycle := FollowAll(t);
      if cycle.None? {
        Pop(below, t);
        Push(old(finished), finished, t);
        Leave(t);
      }
    }

    /** Look at the dependencies of the type that is being visited. */
    method FollowAll(t: TypeId) returns (cycle: Option<seq<TypeId>>)
      requires Valid() && stack != [] && stack[|stack| - 1] == t
      modifies this
      ensures cycle.Some? ==> Returns(reg, cycle.value)
      ensures cycle.None? ==> Valid() && stack == old(stack) && Further(old(finished), old(state))
      ensures cycle.None? ==> forall d <- Deps(reg, t) :: d in finished
      decreases Unvisited(types, state.Keys), 2
    {
      var subs := Deps(reg, t);
      var i := 0;
      while i < |subs|
        invariant 0 <= i <= |subs|
        invariant Valid() && stack == old(stack) && Further(old(finished), old(state))
        invariant DoneUpTo(subs, i, finished)
      {
        ghost var before := finished;
        NoMore(types, old(state).Keys, state.Keys);
        cycle := Follow(t, subs[i]);
        if cycle.Some? {
          return;
        }
        DoneNext(subs, i, before, finished);
        i := i + 1;
      }
      return None;
    }

    /** Look at one dependency of the type that is being visited. */
    method Follow(t: TypeId, sub: TypeId) returns (cycle: Option<seq<TypeId>>)
      requires Valid() && stack != [] && stack[|stack| - 1] == t && sub in Deps(reg, t)
      modifies this
      ensures cycle.Some? ==> Returns(reg, cycle.value)
      ensures cycle.None? ==> Valid() && stack == old(stack) && sub in finished && Further(old(finished), old(state))
      decreases Unvisited(types, state.Keys), 1
    {
      if sub in state && state[sub] == Visiting {
        Closing(reg, stack, sub);
        return Some(stack + [sub]);
      }
      if sub in state {
        return None;
      }
      cycle := Visit(sub);
    }

    /** The search has only gone on. */
    ghost predicate Further(finished0: seq<TypeId>, state0: map<TypeId, Mark>)
      reads this
    {
      finished0 <= finished && state0.Keys <= state.Keys
    }

    method Enter(t: TypeId)
      requires Valid() && t !in state && t in types
      requires stack != [] ==> t in Deps(reg, stack[|stack| - 1])
      modifies this
      ensures Valid() && stack == old(stack) + [t] && finished == old(finished)
      ensures state == old(state)[t := Visiting] && state.Keys == old(state).Keys + {t}
    {
      state := state[t := Visiting];
      stack := stack + [t];
    }

    method Leave(t: TypeId)
      requires Valid() && stack != [] && stack[|stack| - 1] == t
      requires forall d <- Deps(reg, t) :: d in finished
      modifies this
      ensures Valid() && stack == old(stack)[..|old(stack)| - 1] && finished == old(finished) + [t] && t in finished
      ensures state == old(state)[t := Visited] && old(state).Keys <= state.Keys
    {
      assert t in stack;
      FinishOne(reg, finished, t);
      stack := stack[..|stack| - 1];
      state := state[t := Visited];
      finished := finished + [t];
    }
  }

  lemma Pop(stack: seq<TypeId>, t: TypeId)
    ensures (stack + [t])[..|stack|] == stack
  {
  }

  lemma Push(finished: seq<TypeId>, finished': seq<TypeId>, t: TypeId)
    requires finished <= finished'
    ensures finished <= finished' + [t]
  {
  }

  lemma Closing(reg: Registry, stack: seq<TypeId>, sub: TypeId)
    requires Walk(reg, stack) && stack != [] && sub in Deps(reg, stack[|stack| - 1]) && sub in stack
    ensures Returns(reg, stack + [sub])
  {
    assert (stack + [sub])[..|stack|] == stack;
  }

  lemma FinishOne(reg: Registry, finished: seq<TypeId>, t: TypeId)
    requires Topological(reg, finished) && t !in finished && forall d <- Deps(reg, t) :: d in finished
    ensures Topological(reg, finished + [t])
  {
    var order := finished + [t];
    forall i | 0 <= i < |order| ensures Before(reg, order, i) {
      if i < |finished| {
        assert Before(reg, finished, i) && order[..i] == finished[..i];
      } else {
        assert order[..i] == finished;
      }
    }
  }

  /** The registry that a list of providers makes: the last one for a type counts. */
  function RegistryOf(providers: seq<Option<(TypeId, Spec)>>): Registry {
    if providers == [] then map[]
    else
      var reg := RegistryOf(providers[..|providers| - 1]);
      match providers[|providers| - 1]
      case None => reg
      case Some(p) => reg[p.0 := p.1]
  }

  /** Of the providers for a type, the last one is registered. */
  ghost predicate LastFor(providers: seq<Option<(TypeId, Spec)>>, t: TypeId, i: nat)
    requires i < |providers|
  {
    && providers[i].Some? && providers[i].value.0 == t
    && forall j :: i < j < |providers| && providers[j].Some? ==> providers[j].value.0 != t
  }

  lemma {:induction false} LastProviderCounts(providers: seq<Option<(TypeId, Spec)>>, t: TypeId, spec: Spec)
    ensures t in RegistryOf(providers) && RegistryOf(providers)[t] == spec
       <==> exists i :: 0 <= i < |providers| && LastFor(providers, t, i) && providers[i].value.1 == spec
  {
    if providers != [] {
      var n := |providers| - 1;
      var init := providers[..n];
      LastProviderCounts(init, t, spec);
      if providers[n].Some? && providers[n].value.0 == t {
        assert LastFor(providers, t, n);
      } else {
        assert forall i :: 0 <= i < n ==> (LastFor(init, t, i) <==> LastFor(providers, t, i));
      }
    }
  }

  /**
   * Registration succeeds exactly when no provider depends on itself, directly
   * or not. On success the order in which the search finished with the types is
   * topological; on failure the path reported comes back to one of its types.
   */
  method Register(providers: seq<Option<(TypeId, Spec)>>)
    returns (r: Result<Registry, seq<TypeId>>, ghost order: seq<TypeId>)
    ensures r.Ok? <==> !Cyclic(RegistryOf(providers))
    ensures r.Ok? ==> r.value == RegistryOf(providers) && Topological(r.value, order) && forall t :: t in r.value ==> t in order
    ensures r.Err? ==> Returns(RegistryOf(providers), r.error)
  {
    var reg: Registry := map[];
    var i := 0;
    while i < |providers|
      invariant 0 <= i <= |providers| && reg == RegistryOf(providers[..i])
    {
      assert providers[..i + 1][..i] == providers[..i];
      if providers[i].Some? {
        reg := reg[providers[i].value.0 := providers[i].value.1];
      }
      i := i + 1;
    }
    assert providers[..i] == providers;
    var search := new CycleSearch(reg);
    var rest := reg.Keys;
    while rest != {}
      invariant search.reg == reg && search.Valid() && search.stack == [] && rest <= reg.Keys
      invariant forall t :: t in reg && t !in rest ==> t in search.finished
      decreases rest
    {
      var t :| t in rest;
      if t !in search.state {
        var cycle := search.Visit(t);
        if cycle.Some? {
          ReturnsIsCyclic(reg, cycle.value);
          return Err(cycle.value), [];
        }
      }
      rest := rest - {t};
    }
    TopologicalIsAcyclic(reg, search.finished);
    return Ok(reg), search.finished;
  }
}
