/**
 * Resolving a call's dependencies: memoised recursion over the providers,
 * refined from plain evaluation, with the cleanups run in reverse at the end.
 */
module DependencyScope {

  import opened Wrappers
  import opened Dependency

  type Value(==, 0, !new)

  /** What a provider's function returns: an error, or a value, perhaps with a cleanup. */
  datatype Outcome = Refused | Provided(value: Value, cleanup: bool)

  /**
   * A registry that was accepted, with the order that shows it, and what the
   * providers and the call's headers return.
   */
  datatype World = World(
    reg: Registry,
    order: seq<TypeId>,
    provide: (TypeId, seq<Value>) -> Outcome,
    header: TypeId -> Option<Value>)

  ghost predicate Sound(w: World) {
    Topological(w.reg, w.order) && forall t :: t in w.reg ==> t in w.order
  }

  predicate IsMeta(w: World, t: TypeId) { t in w.reg && w.reg[t].meta }

  /** The types rank below `r`, so that evaluating them ends. */
  ghost predicate Below(w: World, types: seq<TypeId>, r: nat) {
    forall i :: 0 <= i < |types| ==> Rank(w.order, types[i]) < r
  }

  lemma DepsBelow(w: World, t: TypeId)
    requires Sound(w)
    ensures Below(w, Deps(w.reg, t), Rank(w.order, t))
  {
    forall i | 0 <= i < |Deps(w.reg, t)|
      ensures Rank(w.order, Deps(w.reg, t)[i]) < Rank(w.order, t)
    {
      RankDecreases(w.reg, w.order, t, Deps(w.reg, t)[i]);
    }
  }

  /** `MissingHeader` stands for every error in reading a header. */
  datatype Failure = Unregistered | MissingHeader | ProviderFailed

  /** One of the types is a header that the call does not have. */
  ghost predicate Lacks(w: World, types: seq<TypeId>) {
    exists i :: 0 <= i < |types| && LacksAt(w, types, i)
  }

  ghost predicate LacksAt(w: World, types: seq<TypeId>, i: nat)
    requires i < |types|
  {
    IsMeta(w, types[i]) && w.header(types[i]).None?
  }

  /** The value of a type, or the failure to have one, without a cache: headers come first. */
  ghost function Eval(w: World, t: TypeId): Result<Value, Failure>
    requires Sound(w)
    decreases Rank(w.order, t)
  {
    if t !in w.reg then Err(Unregistered)
    else if w.reg[t].meta then EvalHeader(w, t)
    else if Lacks(w, w.reg[t].deps) then Err(MissingHeader)
    else
      DepsBelow(w, t);
      match EvalAll(w, w.reg[t].deps, Rank(w.order, t))
      case Err(failure) => Err(failure)
      case Ok(args) => EvalProvider(w, t, args)
  }

  ghost function EvalHeader(w: World, t: TypeId): Result<Value, Failure> {
    match w.header(t) case None => Err(MissingHeader) case Some(v) => Ok(v)
  }

  ghost function EvalProvider(w: World, t: TypeId, args: seq<Value>): Result<Value, Failure> {
    match w.provide(t, args) case Refused => Err(ProviderFailed) case Provided(v, _) => Ok(v)
  }

  /** What each of the types evaluates to. */
  ghost function EvalEach(w: World, types: seq<TypeId>, r: nat): (rs: seq<Result<Value, Failure>>)
    requires Sound(w) && Below(w, types, r)
    ensures |rs| == |types|
    decreases r, 0
  {
    seq(|types|, i requires 0 <= i < |types| => Eval(w, types[i]))
  }

  /** The values of the types, or the first failure. */
  ghost function EvalAll(w: World, types: seq<TypeId>, r: nat): Result<seq<Value>, Failure>
    requires Sound(w) && Below(w, types, r)
    decreases r, 1
  {
    Collect(EvalEach(w, types, r))
  }

  /** The value of a type is what its header, or its provider given the values of its dependencies, returns. */
  lemma ValueMeans(w: World, t: TypeId, v: Value)
    requires Sound(w) && t in w.reg
    ensures w.reg[t].meta ==> (Eval(w, t) == Ok(v) <==> w.header(t) == Some(v))
    ensures !w.reg[t].meta ==>
              (Eval(w, t) == Ok(v) <==>
               exists args: seq<Value>, cleanup :: GivenArgs(w, t, args) && w.provide(t, args) == Provided(v, cleanup))
  {
    if !w.reg[t].meta {
      DepsBelow(w, t);
      AllValues(w, w.reg[t].deps, Rank(w.order, t));
      if Eval(w, t) == Ok(v) {
        var args := EvalAll(w, w.reg[t].deps, Rank(w.order, t)).value;
        assert GivenArgs(w, t, args) && w.provide(t, args) == Provided(v, w.provide(t, args).cleanup);
      }
      if args, cleanup :| GivenArgs(w, t, args) && w.provide(t, args) == Provided(v, cleanup) {
        assert args == EvalAll(w, w.reg[t].deps, Rank(w.order, t)).value;
      }
    }
  }

  /** The `i`-th argument is the value of the `i`-th dependency. */
  ghost predicate GivenArgs(w: World, t: TypeId, args: seq<Value>)
    requires Sound(w) && t in w.reg
  {
    && |args| == |w.reg[t].deps|
    && forall i :: 0 <= i < |args| ==> Eval(w, w.reg[t].deps[i]) == Ok(args[i])
  }

  /**
   * Without a value, the failure is that of the type itself, or of the first
   * dependency that fails; a header that is missing comes before all others.
   */
  lemma FailureMeans(w: World, t: TypeId)
    requires Sound(w) && Eval(w, t).Err?
    ensures t !in w.reg ==> Eval(w, t).error == Unregistered
    ensures t in w.reg && w.reg[t].meta ==> w.header(t).None? && Eval(w, t).error == MissingHeader
    ensures t in w.reg && !w.reg[t].meta && Lacks(w, w.reg[t].deps) ==> Eval(w, t).error == MissingHeader
    ensures t in w.reg && !w.reg[t].meta && !Lacks(w, w.reg[t].deps) ==>
              || (Eval(w, t).error == ProviderFailed
                  && exists args :: GivenArgs(w, t, args) && w.provide(t, args) == Refused)
              || exists i :: 0 <= i < |w.reg[t].deps| && FirstFailure(w, w.reg[t].deps, i)
                             && Eval(w, w.reg[t].deps[i]) == Eval(w, t)
  {
    if t in w.reg && !w.reg[t].meta && !Lacks(w, w.reg[t].deps) {
      DepsBelow(w, t);
      AllValues(w, w.reg[t].deps, Rank(w.order, t));
      if EvalAll(w, w.reg[t].deps, Rank(w.order, t)).Ok? {
        assert GivenArgs(w, t, EvalAll(w, w.reg[t].deps, Rank(w.order, t)).value);
      } else {
        var i := FirstDepFails(w, w.reg[t].deps, Rank(w.order, t));
      }
    }
  }

  lemma FirstDepFails(w: World, deps: seq<TypeId>, rank: nat) returns (i: nat)
    requires Sound(w) && Below(w, deps, rank) && EvalAll(w, deps, rank).Err?
    ensures i < |deps| && FirstFailure(w, deps, i) && Eval(w, deps[i]) == Err(EvalAll(w, deps, rank).error)
  {
    var all := EvalEach(w, deps, rank);
    i := FirstErr(all);
    CollectFirst(all, i);
    forall j | 0 <= j < i ensures Eval(w, deps[j]).Ok? {
      assert all[j].Ok?;
    }
  }

  ghost predicate FirstFailure(w: World, types: seq<TypeId>, i: nat)
    requires Sound(w) && i < |types|
  {
    Eval(w, types[i]).Err? && forall j :: 0 <= j < i ==> Eval(w, types[j]).Ok?
  }

  lemma {:induction false} FirstErr(rs: seq<Result<Value, Failure>>) returns (i: nat)
    requires Collect(rs).Err?
    ensures i < |rs| && rs[i].Err? && Collect(rs[..i]).Ok? && forall j :: 0 <= j < i ==> rs[j].Ok?
  {
    var n := |rs| - 1;
    if Collect(rs[..n]).Err? {
      i := FirstErr(rs[..n]);
      assert rs[..n][..i] == rs[..i];
    } else {
      i := n;
      CollectOf(rs[..n]);
      CollectOf(rs);
    }
  }

  // --- What happened in a scope -----------------------------------------------------------------

  /** A header was read, or a provider called with `args`; `ok` when it returned a value. */
  datatype Event = Header(t: TypeId) | Called(t: TypeId, args: seq<Value>, ok: bool, cleanup: bool)

  predicate Good(e: Event) { e.Header? || e.ok }

  function Obtained(events: seq<Event>): set<TypeId> {
    if events == [] then {}
    else
      var e := events[|events| - 1];
      Obtained(events[..|events| - 1]) + if Good(e) then {e.t} else {}
  }

  /** The types whose value came with a cleanup, in the order in which they were provided. */
  function Acquired(events: seq<Event>): seq<TypeId> {
    if events == [] then []
    else
      var e := events[|events| - 1];
      Acquired(events[..|events| - 1]) + if e.Called? && e.ok && e.cleanup then [e.t] else []
  }

  /** The arguments are the values of what the type depends on, in order, and the rest is what its provider returned. */
  ghost predicate Truthful(w: World, e: Event)
    requires Sound(w)
  {
    e.Called? ==>
      && |e.args| == |Deps(w.reg, e.t)|
      && (forall i :: 0 <= i < |e.args| ==> Eval(w, Deps(w.reg, e.t)[i]) == Ok(e.args[i]))
      && match w.provide(e.t, e.args) case Refused => !e.ok case Provided(_, cleanup) => e.ok && e.cleanup == cleanup
  }

  ghost predicate AllTruthful(w: World, events: seq<Event>)
    requires Sound(w)
  {
    forall i :: 0 <= i < |events| ==> Truthful(w, events[i])
  }

  lemma TruthfulSnoc(w: World, events: seq<Event>, e: Event)
    requires Sound(w) && AllTruthful(w, events) && Truthful(w, e)
    ensures AllTruthful(w, events + [e])
  {
  }

  /** No provider is called before it can be given all it depends on, and none again once it has a value. */
  ghost predicate Orderly(w: World, events: seq<Event>) {
    forall i :: 0 <= i < |events| ==> Timely(w, events, i)
  }

  ghost predicate Timely(w: World, events: seq<Event>, i: nat)
    requires i < |events|
  {
    var before := Obtained(events[..i]);
    events[i].t !in before && (events[i].Called? ==> forall d <- Deps(w.reg, events[i].t) :: d in before)
  }

  lemma OrderlySnoc(w: World, events: seq<Event>, e: Event)
    requires Orderly(w, events) && e.t !in Obtained(events)
    requires e.Called? ==> forall d <- Deps(w.reg, e.t) :: d in Obtained(events)
    ensures Orderly(w, events + [e])
    ensures Obtained(events + [e]) == if Good(e) then Obtained(events) + {e.t} else Obtained(events)
    ensures Acquired(events + [e]) == if e.Called? && e.ok && e.cleanup then Acquired(events) + [e.t] else Acquired(events)
  {
    var events' := events + [e];
    EventsSnoc(events, e);
    forall i | 0 <= i < |events'| ensures Timely(w, events', i) {
      if i < |events| {
        TimelyStays(w, events, e, i);
      } else {
        assert events'[..i] == events;
      }
    }
  }

  lemma EventsSnoc(events: seq<Event>, e: Event)
    ensures Obtained(events + [e]) == if Good(e) then Obtained(events) + {e.t} else Obtained(events)
    ensures Acquired(events + [e]) == if e.Called? && e.ok && e.cleanup then Acquired(events) + [e.t] else Acquired(events)
  {
    assert (events + [e])[..|events|] == events;
  }

  lemma TimelyStays(w: World, events: seq<Event>, e: Event, i: nat)
    requires Orderly(w, events) && i < |events|
    ensures Timely(w, events + [e], i)
  {
    assert Timely(w, events, i);
    assert (events + [e])[..i] == events[..i];
  }

  lemma {:induction false} AcquiredObtained(events: seq<Event>)
    ensures forall t <- Acquired(events) :: t in Obtained(events)
  {
    if events != [] {
      AcquiredObtained(events[..|events| - 1]);
    }
  }

  lemma OrderlyInit(w: World, events: seq<Event>, n: nat)
    requires Orderly(w, events) && n <= |events|
    ensures Orderly(w, events[..n])
  {
    forall i | 0 <= i < n ensures Timely(w, events[..n], i) {
      assert events[..n][..i] == events[..i] && Timely(w, events, i);
    }
  }

  /** What a type depends on comes before it. */
  ghost predicate DepsFirst(w: World, a: seq<TypeId>) {
    forall i, j :: 0 <= i < |a| && 0 <= j < |a| && a[j] in Deps(w.reg, a[i]) ==> j < i
  }

  /**
   * Each cleanup is registered once, and what a type depends on is registered
   * before it: run in reverse, cleanups of dependents come first.
   */
  lemma {:induction false} AcquiredInOrder(w: World, events: seq<Event>)
    requires Orderly(w, events)
    ensures NoDuplicates(Acquired(events))
    ensures DepsFirst(w, Acquired(events))
  {
    if events != [] {
      var n := |events| - 1;
      var init, e := events[..n], events[n];
      OrderlyInit(w, events, n);
      AcquiredInOrder(w, init);
      AcquiredObtained(init);
      assert Timely(w, events, n);
      var a, a' := Acquired(init), Acquired(events);
      if e.Called? && e.ok && e.cleanup {
        DependsOnEarlier(w, init, e);
        assert a' == a + [e.t];
        assert forall i :: 0 <= i < |a| ==> a'[i] == a[i] && a[i] in a;
      } else {
        assert a' == a;
      }
    }
  }

  /** Nothing acquired before depends on a type that had no value then. */
  lemma DependsOnEarlier(w: World, events: seq<Event>, e: Event)
    requires Orderly(w, events) && e.t !in Obtained(events)
    requires forall d <- Deps(w.reg, e.t) :: d in Obtained(events)
    ensures e.t !in Deps(w.reg, e.t)
    ensures forall t <- Acquired(events) :: e.t !in Deps(w.reg, t)
  {
    forall t | t in Acquired(events) ensures e.t !in Deps(w.reg, t) {
      DepsObtained(w, events, t);
    }
  }

  lemma {:induction false} DepsObtained(w: World, events: seq<Event>, t: TypeId)
    requires Orderly(w, events) && t in Acquired(events)
    ensures forall d <- Deps(w.reg, t) :: d in Obtained(events)
  {
    var n := |events| - 1;
    OrderlyInit(w, events, n);
    assert Timely(w, events, n);
    if t in Acquired(events[..n]) {
      DepsObtained(w, events[..n], t);
    }
  }

  function Reverse<T>(s: seq<T>): (r: seq<T>)
    ensures |r| == |s| && forall i :: 0 <= i < |s| ==> r[i] == s[|s| - 1 - i]
  {
    if s == [] then [] else [s[|s| - 1]] + Reverse(s[..|s| - 1])
  }

  /** Cleanups run once each, and a dependent's before those of what it depends on. */
  lemma CleanupsInReverse(w: World, events: seq<Event>)
    requires Orderly(w, events)
    ensures var run := Reverse(Acquired(events));
            && NoDuplicates(run)
            && (forall t :: t in run <==> t in Acquired(events))
            && (forall i, j :: 0 <= i < |run| && 0 <= j < |run| && run[j] in Deps(w.reg, run[i]) ==> i < j)
  {
    AcquiredInOrder(w, events);
    var a, run := Acquired(events), Reverse(Acquired(events));
    forall t ensures t in run <==> t in a {
      if t in run { var i :| 0 <= i < |run| && run[i] == t; assert a[|a| - 1 - i] == t; }
      if t in a { var i :| 0 <= i < |a| && a[i] == t; assert run[|a| - 1 - i] == t; }
    }
  }

  // --- The scope ------------------------------------------------------------------------------------

  /** A provider that fails is the last thing that happens. */
  ghost predicate Continues(events: seq<Event>, events': seq<Event>, ok: bool) {
    events <= events' && forall i :: |events| <= i < |events'| ==> Good(events'[i]) || (!ok && i == |events'| - 1)
  }

  ghost predicate NoCalls(events: seq<Event>, events': seq<Event>) {
    events <= events' && forall i :: |events| <= i < |events'| ==> events'[i].Header?
  }

  lemma {:induction false} ObtainedBefore(events: seq<Event>, i: nat, j: nat)
    requires i < j <= |events| && Good(events[i])
    ensures events[i].t in Obtained(events[..j])
  {
    assert events[..j][..j - 1] == events[..j - 1];
    if i < j - 1 {
      ObtainedBefore(events, i, j - 1);
    }
  }

  /** In one resolution of a new scope, every provider is called at most once. */
  lemma CalledOnce(w: World, events: seq<Event>, ok: bool, i: nat, j: nat)
    requires Orderly(w, events) && Continues([], events, ok) && i < j < |events|
    ensures events[i].t != events[j].t
  {
    assert Good(events[i]) && Timely(w, events, j);
    ObtainedBefore(events, i, j);
  }

  lemma OneMore(events: seq<Event>, e: Event)
    ensures Continues(events, events + [e], Good(e))
    ensures e.Header? ==> NoCalls(events, events + [e])
  {
  }

  lemma ContinuesOn(a: seq<Event>, b: seq<Event>, c: seq<Event>, ok: bool)
    requires Continues(a, b, true) && Continues(b, c, ok)
    ensures Continues(a, c, ok)
  {
  }

  lemma NoCallsOn(a: seq<Event>, b: seq<Event>, c: seq<Event>)
    requires NoCalls(a, b) && NoCalls(b, c)
    ensures NoCalls(a, c)
  {
  }

  ghost predicate Holds(w: World, cache: map<TypeId, Value>) {
    Sound(w) && forall t :: t in cache ==> Eval(w, t) == Ok(cache[t])
  }

  /** What one more good event does to the cache. */
  lemma CacheNext(w: World, cache: map<TypeId, Value>, t: TypeId, v: Value)
    requires Holds(w, cache) && Eval(w, t) == Ok(v)
    ensures Holds(w, cache[t := v])
  {
  }

  /** The first `n` types have their value in the cache. */
  ghost predicate CachedUpTo(cache: map<TypeId, Value>, types: seq<TypeId>, n: nat)
    requires n <= |types|
  {
    forall i :: 0 <= i < n ==> types[i] in cache
  }

  lemma CachedNext(cache: map<TypeId, Value>, cache': map<TypeId, Value>, types: seq<TypeId>, n: nat)
    requires n < |types| && CachedUpTo(cache, types, n) && cache.Keys <= cache'.Keys && types[n] in cache'
    ensures CachedUpTo(cache', types, n + 1)
  {
    forall i | 0 <= i < n ensures types[i] in cache' {
      assert types[i] in cache;
    }
  }

  /** Only types that rank below `r` got a value. */
  ghost predicate OnlyBelow(w: World, cache: map<TypeId, Value>, cache': map<TypeId, Value>, r: nat) {
    forall x :: x in cache' && x !in cache ==> Rank(w.order, x) < r
  }

  lemma EvalCall(w: World, t: TypeId, args: seq<Value>)
    requires Sound(w) && t in w.reg && !w.reg[t].meta && Below(w, w.reg[t].deps, Rank(w.order, t))
    requires EvalAll(w, w.reg[t].deps, Rank(w.order, t)) == Ok(args) && !Lacks(w, w.reg[t].deps)
    ensures Eval(w, t) == EvalProvider(w, t, args)
  {
  }

  class DepScope {
    const w: World
    var cache: map<TypeId, Value>
    var cleanups: seq<TypeId>
    ghost var events: seq<Event>
    ghost var ran: seq<TypeId>

    ghost predicate Valid()
      reads this
    {
      && Holds(w, cache) && Orderly(w, events) && AllTruthful(w, events)
      && cache.Keys == Obtained(events) && cleanups == Acquired(events)
    }

    constructor (w: World)
      requires Sound(w)
      ensures Valid() && this.w == w && events == [] && ran == [] && cache == map[]
    {
      this.w := w;
      cache, cleanups, events, ran := map[], [], [], [];
    }

    /** The value of a type, computed at most once; it is the value that evaluation without a cache gives. */
    method Resolve(t: TypeId) returns (r: Result<Value, Failure>)
      requires Valid()
      modifies this`cache, this`cleanups, this`events
      ensures Valid() && old(cache).Keys <= cache.Keys && Continues(old(events), events, r.Ok?)
      ensures OnlyBelow(w, old(cache), cache, Rank(w.order, t) + 1)
      ensures r == Eval(w, t) && (r.Ok? ==> t in cache)
      ensures IsMeta(w, t) ==> NoCalls(old(events), events)
      ensures t !in old(cache) && Lacks(w, Deps(w.reg, t)) ==> r.Err? && NoCalls(old(events), events)
      decreases Rank(w.order, t), 3
    {
      if t in cache {
        return Ok(cache[t]);
      }
      if t !in w.reg {
        return Err(Unregistered);
      }
      if w.reg[t].meta {
        r := ReadHeader(t);
      } else {
        r := Provide(t);
      }
    }

    method ReadHeader(t: TypeId) returns (r: Result<Value, Failure>)
      requires Valid() && IsMeta(w, t) && t !in cache
      modifies this`cache, this`cleanups, this`events
      ensures Valid() && old(cache).Keys <= cache.Keys && Continues(old(events), events, r.Ok?)
      ensures OnlyBelow(w, old(cache), cache, Rank(w.order, t) + 1) && NoCalls(old(events), events)
      ensures r == Eval(w, t) && (r.Ok? ==> t in cache)
    {
      var value := w.header(t);
      if value.None? {
        return Err(MissingHeader);
      }
      Keep(Header(t), t, value.value, false);
      return Ok(value.value);
    }

    /** Headers first, then the other dependencies, then the provider itself. */
    method Provide(t: TypeId) returns (r: Result<Value, Failure>)
      requires Valid() && t in w.reg && !w.reg[t].meta && t !in cache
      modifies this`cache, this`cleanups, this`events
      ensures Valid() && old(cache).Keys <= cache.Keys && Continues(old(events), events, r.Ok?)
      ensures OnlyBelow(w, old(cache), cache, Rank(w.order, t) + 1)
      ensures r == Eval(w, t) && (r.Ok? ==> t in cache)
      ensures Lacks(w, Deps(w.reg, t)) ==> r.Err? && NoCalls(old(events), events)
      decreases Rank(w.order, t), 2
    {
      var deps := w.reg[t].deps;
      ghost var rank := Rank(w.order, t);
      DepsBelow(w, t);
      var missing := ResolveHeaders(deps, rank);
      if missing.Some? {
        return Err(missing.value);
      }
      ghost var before := events;
      var args := ResolveEach(deps, rank);
      ContinuesOn(old(events), before, events, args.Ok?);
      if args.Err? {
        return Err(args.error);
      }
      ghost var called := events;
      r := Call(t, args.value);
      ContinuesOn(old(events), called, events, r.Ok?);
    }

    /** The first pass: read the headers among the types. */
    method ResolveHeaders(types: seq<TypeId>, ghost rank: nat) returns (missing: Option<Failure>)
      requires Valid() && Below(w, types, rank)
      modifies this`cache, this`cleanups, this`events
      ensures Valid() && old(cache).Keys <= cache.Keys && NoCalls(old(events), events)
      ensures Continues(old(events), events, missing.None?)
      ensures OnlyBelow(w, old(cache), cache, rank)
      ensures missing == if Lacks(w, types) then Some(MissingHeader) else None
      decreases rank, 0
    {
      var i := 0;
      while i < |types|
        invariant 0 <= i <= |types|
        invariant Valid() && old(cache).Keys <= cache.Keys && NoCalls(old(events), events)
        invariant Continues(old(events), events, true)
        invariant OnlyBelow(w, old(cache), cache, rank)
        invariant forall k :: 0 <= k < i ==> !LacksAt(w, types, k)
      {
        if types[i] in w.reg && w.reg[types[i]].meta {
          ghost var before := events;
          var v := Resolve(types[i]);
          NoCallsOn(old(events), before, events);
          ContinuesOn(old(events), before, events, v.Ok?);
          if v.Err? {
            assert LacksAt(w, types, i);
            return Some(v.error);
          }
        }
        i := i + 1;
      }
      return None;
    }

    /** The second pass: the value of each type, in order. */
    method ResolveEach(types: seq<TypeId>, ghost rank: nat) returns (r: Result<seq<Value>, Failure>)
      requires Valid() && Below(w, types, rank)
      modifies this`cache, this`cleanups, this`events
      ensures Valid() && old(cache).Keys <= cache.Keys && Continues(old(events), events, r.Ok?)
      ensures OnlyBelow(w, old(cache), cache, rank)
      ensures r == EvalAll(w, types, rank) && (r.Ok? ==> CachedUpTo(cache, types, |types|))
      decreases rank, 1
    {
      ghost var all := EvalEach(w, types, rank);
      var out: seq<Value> := [];
      var i := 0;
      while i < |types|
        invariant 0 <= i <= |types|
        invariant Valid() && old(cache).Keys <= cache.Keys && Continues(old(events), events, true)
        invariant OnlyBelow(w, old(cache), cache, rank)
        invariant Collect(all[..i]) == Ok(out) && CachedUpTo(cache, types, i)
      {
        ghost var before, cached := events, cache;
        var v := Resolve(types[i]);
        ContinuesOn(old(events), before, events, v.Ok?);
        CollectNext(all, i);
        if v.Err? {
          return Err(v.error);
        }
        CachedNext(cached, cache, types, i);
        out := out + [v.value];
        i := i + 1;
      }
      assert all[..i] == all;
      return Ok(out);
    }

    /** Call the provider; on an error neither its value nor its cleanup is kept. */
    method Call(t: TypeId, args: seq<Value>) returns (r: Result<Value, Failure>)
      requires Valid() && t in w.reg && !w.reg[t].meta && t !in cache
      requires Below(w, w.reg[t].deps, Rank(w.order, t)) && CachedUpTo(cache, w.reg[t].deps, |w.reg[t].deps|)
      requires EvalAll(w, w.reg[t].deps, Rank(w.order, t)) == Ok(args) && !Lacks(w, w.reg[t].deps)
      modifies this`cache, this`cleanups, this`events
      ensures Valid() && old(cache).Keys <= cache.Keys && Continues(old(events), events, r.Ok?)
      ensures cache.Keys <= old(cache).Keys + {t}
      ensures exists ok, cleanup :: events == old(events) + [Called(t, args, ok, cleanup)]
      ensures r == Eval(w, t) && (r.Ok? ==> t in cache)
    {
      EvalCall(w, t, args);
      AllValues(w, w.reg[t].deps, Rank(w.order, t));
      match w.provide(t, args)
      case Refused =>
        Refuse(t, args);
        return Err(ProviderFailed);
      case Provided(value, cleanup) =>
        Keep(Called(t, args, true, cleanup), t, value, cleanup);
        return Ok(value);
    }

    /** Nothing is kept of a call that failed. */
    ghost method Refuse(t: TypeId, args: seq<Value>)
      requires Valid() && t !in cache && forall d <- Deps(w.reg, t) :: d in cache
      requires Truthful(w, Called(t, args, false, false))
      modifies this`events
      ensures Valid() && Continues(old(events), events, false)
      ensures events == old(events) + [Called(t, args, false, false)]
    {
      var e := Called(t, args, false, false);
      OrderlySnoc(w, events, e);
      TruthfulSnoc(w, events, e);
      OneMore(events, e);
      events := events + [e];
    }

    /** Keep a value, and its cleanup if it has one. */
    method Keep(ghost e: Event, t: TypeId, value: Value, cleanup: bool)
      requires Valid() && t !in cache && Eval(w, t) == Ok(value)
      requires e.t == t && Good(e) && Truthful(w, e) && (cleanup <==> e.Called? && e.cleanup)
      requires e.Called? ==> forall d <- Deps(w.reg, t) :: d in cache
      modifies this`cache, this`cleanups, this`events
      ensures Valid() && cache == old(cache)[t := value]
      ensures events == old(events) + [e]
      ensures Continues(old(events), events, true) && (e.Header? ==> NoCalls(old(events), events))
    {
      CacheNext(w, cache, t, value);
      OrderlySnoc(w, events, e);
      TruthfulSnoc(w, events, e);
      OneMore(events, e);
      if cleanup {
        cleanups := cleanups + [t];
      }
      cache := cache[t := value];
      events := events + [e];
    }

    /**
     * The dependencies of a handler. If it asks for a header that the call does
     * not have, no provider is called.
     */
    method ResolveAll(types: seq<TypeId>) returns (r: Result<seq<Value>, Failure>)
      requires Valid()
      modifies this`cache, this`cleanups, this`events
      ensures Valid() && Continues(old(events), events, r.Ok?)
      ensures r == if Lacks(w, types) then Err(MissingHeader) else EvalAll(w, types, |w.order| + 1)
      ensures r.Ok? <==> forall i :: 0 <= i < |types| ==> Eval(w, types[i]).Ok?
      ensures r.Ok? ==> |r.value| == |types| && forall i :: 0 <= i < |types| ==> Eval(w, types[i]) == Ok(r.value[i])
      ensures Lacks(w, types) ==> r.Err? && NoCalls(old(events), events)
    {
      ghost var rank := |w.order| + 1;
      AllValues(w, types, rank);
      var missing := ResolveHeaders(types, rank);
      if missing.Some? {
        return Err(missing.value);
      }
      ghost var before := events;
      r := ResolveEach(types, rank);
      ContinuesOn(old(events), before, events, r.Ok?);
    }

    /** Run the cleanups, the last one first; a second time there are none. */
    method Close()
      modifies this`ran, this`cleanups
      ensures ran == old(ran) + Reverse(old(cleanups)) && cleanups == []
    {
      var i := |cleanups|;
      while i > 0
        invariant 0 <= i <= |cleanups| && cleanups == old(cleanups)
        invariant ran == old(ran) + Reverse(cleanups)[..|cleanups| - i]
      {
        ran := ran + [cleanups[i - 1]];
        i := i - 1;
      }
      assert Reverse(cleanups)[..|cleanups|] == Reverse(cleanups);
      cleanups := [];
    }
  }

  lemma AllValues(w: World, types: seq<TypeId>, rank: nat)
    requires Sound(w) && Below(w, types, rank)
    ensures EvalAll(w, types, rank).Ok? <==> forall i :: 0 <= i < |types| ==> Eval(w, types[i]).Ok?
    ensures EvalAll(w, types, rank).Ok? ==>
              && |EvalAll(w, types, rank).value| == |types|
              && forall i :: 0 <= i < |types| ==> Eval(w, types[i]) == Ok(EvalAll(w, types, rank).value[i])
    ensures Lacks(w, types) ==> EvalAll(w, types, rank).Err?
  {
    var all := EvalEach(w, types, rank);
    CollectOf(all);
    assert forall i :: 0 <= i < |types| ==> all[i] == Eval(w, types[i]);
    if Lacks(w, types) {
      var i :| 0 <= i < |types| && LacksAt(w, types, i);
      assert Eval(w, types[i]).Err?;
    }
  }

  /** Together: a scope that resolved what it was asked for, or failed midway, runs what it acquired in reverse. */
  method UseScope(w: World, types: seq<TypeId>) returns (r: Result<seq<Value>, Failure>, ghost s: DepScope)
    requires Sound(w)
    ensures r == if Lacks(w, types) then Err(MissingHeader) else EvalAll(w, types, |w.order| + 1)
    ensures Orderly(w, s.events) && AllTruthful(w, s.events) && Continues([], s.events, r.Ok?)
    ensures s.ran == Reverse(Acquired(s.events))
  {
    var scope := new DepScope(w);
    r := scope.ResolveAll(types);
    scope.Close();
    assert [] + Reverse(Acquired(scope.events)) == Reverse(Acquired(scope.events));
    s := scope;
  }
}
