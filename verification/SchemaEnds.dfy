/**
 * When the schema compiler comes to an end. A Go program can also name slices,
 * maps and pointers, and such a type can contain itself; the compiler looks
 * through the name, and remembers named structs only.
 */
module SchemaEnds {

  import opened Wrappers
  import Schema

  type TypeId = Schema.TypeId

  /** A type as written: `Leaf` has nothing inside, `Record` is an unnamed struct with the types of its fields. */
  datatype Type =
    | Leaf
    | Pointer(elem: Type)
    | List(elem: Type)
    | MapOf(elem: Type)
    | Record(fields: seq<Type>)
    | Defined(id: TypeId)

  /** A declaration names a struct, or some other type. */
  datatype Decl = Struct(fields: seq<Type>) | Other(underlying: Type)

  type Env = map<TypeId, Decl>

  /** The names that a type uses. */
  function Uses(t: Type): set<TypeId>
    decreases t
  {
    match t
    case Leaf => {}
    case Pointer(e) => Uses(e)
    case List(e) => Uses(e)
    case MapOf(e) => Uses(e)
    case Record(fields) => AllUse(fields)
    case Defined(id) => {id}
  }

  function AllUse(types: seq<Type>): set<TypeId>
    decreases types
  {
    if types == [] then {} else Uses(types[0]) + AllUse(types[1..])
  }

  function DeclUses(d: Decl): set<TypeId> {
    match d
    case Struct(fields) => AllUse(fields)
    case Other(t) => Uses(t)
  }

  predicate Closed(env: Env) { forall id :: id in env ==> DeclUses(env[id]) <= env.Keys }

  // --- The compiler's recursion --------------------------------------------------------------------

  /**
   * The calls of `typeSchema` and `define` on a type, nested through at most
   * `depth` declarations; `named` are the structs named so far, and the result
   * those named afterwards. `None` when the calls go deeper.
   */
  function Visit(env: Env, named: set<TypeId>, t: Type, depth: nat): Option<set<TypeId>>
    requires Closed(env) && Uses(t) <= env.Keys
    decreases depth, t
  {
    match t
    case Leaf => Some(named)
    case Pointer(e) => Visit(env, named, e, depth)
    case List(e) => Visit(env, named, e, depth)
    case MapOf(e) => Visit(env, named, e, depth)
    case Record(fields) => VisitAll(env, named, fields, depth)
    case Defined(id) =>
      match env[id]
      case Struct(fields) =>
        if id in named then Some(named)
        else if depth == 0 then None
        else VisitAll(env, named + {id}, fields, depth - 1)
      case Other(u) => if depth == 0 then None else Visit(env, named, u, depth - 1)
  }

  function VisitAll(env: Env, named: set<TypeId>, types: seq<Type>, depth: nat): Option<set<TypeId>>
    requires Closed(env) && AllUse(types) <= env.Keys
    decreases depth, types
  {
    if types == [] then Some(named)
    else
      match Visit(env, named, types[0], depth)
      case None => None
      case Some(named') => VisitAll(env, named', types[1..], depth)
  }

  /** Compiling the type comes to an end. */
  ghost predicate Ends(env: Env, t: Type)
    requires Closed(env) && Uses(t) <= env.Keys
  {
    exists depth :: Visit(env, {}, t, depth).Some?
  }

  // --- Cycles of declarations ------------------------------------------------------------------------

  /** Each declaration uses the next name. */
  predicate IsPath(env: Env, path: seq<TypeId>) {
    && path != [] && (forall id <- path :: id in env)
    && forall i :: 0 <= i < |path| - 1 ==> path[i + 1] in DeclUses(env[path[i]])
  }

  ghost predicate Reaches(env: Env, t: Type, id: TypeId) {
    exists path :: IsPath(env, path) && path[0] in Uses(t) && path[|path| - 1] == id
  }

  /** No struct is on the path. */
  predicate Structless(env: Env, path: seq<TypeId>)
    requires IsPath(env, path)
  {
    forall id <- path :: env[id].Other?
  }

  /** The name contains itself, and no named struct is in between. */
  ghost predicate Circular(env: Env, id: TypeId) {
    exists path :: IsPath(env, path) && |path| > 1 && path[0] == path[|path| - 1] == id && Structless(env, path)
  }

  // --- Types that unfold --------------------------------------------------------------------------------

  /** `t` unfolds within `depth` declarations, down to structs in `r`. */
  predicate Unfolds(env: Env, r: set<TypeId>, t: Type, depth: nat)
    requires Closed(env) && Uses(t) <= env.Keys
    decreases depth, t
  {
    match t
    case Leaf => true
    case Pointer(e) => Unfolds(env, r, e, depth)
    case List(e) => Unfolds(env, r, e, depth)
    case MapOf(e) => Unfolds(env, r, e, depth)
    case Record(fields) => AllUnfold(env, r, fields, depth)
    case Defined(id) =>
      match env[id]
      case Struct(_) => id in r
      case Other(u) => depth > 0 && Unfolds(env, r, u, depth - 1)
  }

  predicate AllUnfold(env: Env, r: set<TypeId>, types: seq<Type>, depth: nat)
    requires Closed(env) && AllUse(types) <= env.Keys
    decreases depth, types
  {
    types == [] || (Unfolds(env, r, types[0], depth) && AllUnfold(env, r, types[1..], depth))
  }

  /** The fields of the structs in `r`, but for those in `open`, unfold down to structs in `r`. */
  ghost predicate Settled(env: Env, r: set<TypeId>, open: set<TypeId>, depth: nat)
    requires Closed(env)
  {
    forall id :: id in r && id !in open && id in env && env[id].Struct? ==> AllUnfold(env, r, env[id].fields, depth)
  }

  lemma {:induction false} UnfoldsMore(env: Env, r: set<TypeId>, r': set<TypeId>, t: Type, depth: nat, depth': nat)
    requires Closed(env) && Uses(t) <= env.Keys && Unfolds(env, r, t, depth) && r <= r' && depth <= depth'
    ensures Unfolds(env, r', t, depth')
    decreases depth, t
  {
    match t
    case Leaf =>
    case Pointer(e) => UnfoldsMore(env, r, r', e, depth, depth');
    case List(e) => UnfoldsMore(env, r, r', e, depth, depth');
    case MapOf(e) => UnfoldsMore(env, r, r', e, depth, depth');
    case Record(fields) => AllUnfoldMore(env, r, r', fields, depth, depth');
    case Defined(id) => if env[id].Other? { UnfoldsMore(env, r, r', env[id].underlying, depth - 1, depth' - 1); }
  }

  lemma {:induction false} AllUnfoldMore(env: Env, r: set<TypeId>, r': set<TypeId>, types: seq<Type>, depth: nat, depth': nat)
    requires Closed(env) && AllUse(types) <= env.Keys && AllUnfold(env, r, types, depth) && r <= r' && depth <= depth'
    ensures AllUnfold(env, r', types, depth')
    decreases depth, types
  {
    if types != [] {
      UnfoldsMore(env, r, r', types[0], depth, depth');
      AllUnfoldMore(env, r, r', types[1..], depth, depth');
    }
  }

  lemma SettledMore(env: Env, r: set<TypeId>, r': set<TypeId>, open: set<TypeId>, depth: nat, depth': nat)
    requires Closed(env) && Settled(env, r, open, depth) && r <= r' && depth <= depth'
    ensures forall id :: id in r && id !in open && id in env && env[id].Struct? ==> AllUnfold(env, r', env[id].fields, depth')
  {
    forall id | id in r && id !in open && id in env && env[id].Struct? ensures AllUnfold(env, r', env[id].fields, depth') {
      AllUnfoldMore(env, r, r', env[id].fields, depth, depth');
    }
  }

  // --- What a compilation that ends has seen ---------------------------------------------------------------

  lemma {:induction false} VisitUnfolds(env: Env, named: set<TypeId>, t: Type, depth: nat)
    requires Closed(env) && Uses(t) <= env.Keys && Visit(env, named, t, depth).Some?
    ensures var r := Visit(env, named, t, depth).value;
            named <= r && Unfolds(env, r, t, depth) && Settled(env, r, named, depth)
    decreases depth, t
  {
    match t
    case Leaf =>
    case Pointer(e) => VisitUnfolds(env, named, e, depth);
    case List(e) => VisitUnfolds(env, named, e, depth);
    case MapOf(e) => VisitUnfolds(env, named, e, depth);
    case Record(fields) => VisitAllUnfold(env, named, fields, depth);
    case Defined(id) =>
      if env[id].Other? {
        VisitUnfolds(env, named, env[id].underlying, depth - 1);
        var r := Visit(env, named, t, depth).value;
        SettledMore(env, r, r, named, depth - 1, depth);
      } else if id !in named {
        VisitAllUnfold(env, named + {id}, env[id].fields, depth - 1);
        var r := Visit(env, named, t, depth).value;
        SettledMore(env, r, r, named + {id}, depth - 1, depth);
        AllUnfoldMore(env, r, r, env[id].fields, depth - 1, depth);
      }
  }

  lemma {:induction false} VisitAllUnfold(env: Env, named: set<TypeId>, types: seq<Type>, depth: nat)
    requires Closed(env) && AllUse(types) <= env.Keys && VisitAll(env, named, types, depth).Some?
    ensures var r := VisitAll(env, named, types, depth).value;
            named <= r && AllUnfold(env, r, types, depth) && Settled(env, r, named, depth)
    decreases depth, types
  {
    if types != [] {
      VisitUnfolds(env, named, types[0], depth);
      var named' := Visit(env, named, types[0], depth).value;
      VisitAllUnfold(env, named', types[1..], depth);
      var r := VisitAll(env, named, types, depth).value;
      UnfoldsMore(env, named', r, types[0], depth, depth);
      SettledMore(env, named', r, named, depth, depth);
    }
  }

  lemma {:induction false} UsedUnfolds(env: Env, r: set<TypeId>, t: Type, depth: nat, id: TypeId)
    requires Closed(env) && Uses(t) <= env.Keys && Unfolds(env, r, t, depth) && id in Uses(t)
    ensures Unfolds(env, r, Defined(id), depth)
    decreases t
  {
    match t
    case Pointer(e) => UsedUnfolds(env, r, e, depth, id);
    case List(e) => UsedUnfolds(env, r, e, depth, id);
    case MapOf(e) => UsedUnfolds(env, r, e, depth, id);
    case Record(fields) => AllUsedUnfold(env, r, fields, depth, id);
    case Defined(_) =>
  }

  lemma {:induction false} AllUsedUnfold(env: Env, r: set<TypeId>, types: seq<Type>, depth: nat, id: TypeId)
    requires Closed(env) && AllUse(types) <= env.Keys && AllUnfold(env, r, types, depth) && id in AllUse(types)
    ensures Unfolds(env, r, Defined(id), depth)
    decreases types
  {
    if id in Uses(types[0]) {
      UsedUnfolds(env, r, types[0], depth, id);
    } else {
      AllUsedUnfold(env, r, types[1..], depth, id);
    }
  }

  /** What can be reached from what unfolds, unfolds. */
  lemma {:induction false} PathUnfolds(env: Env, r: set<TypeId>, path: seq<TypeId>, depth: nat)
    requires Closed(env) && Settled(env, r, {}, depth) && IsPath(env, path) && Unfolds(env, r, Defined(path[0]), depth)
    ensures Unfolds(env, r, Defined(path[|path| - 1]), depth)
    decreases |path|
  {
    if |path| > 1 {
      var d := env[path[0]];
      if d.Struct? {
        AllUsedUnfold(env, r, d.fields, depth, path[1]);
      } else {
        UsedUnfolds(env, r, d.underlying, depth - 1, path[1]);
        UnfoldsMore(env, r, r, Defined(path[1]), depth - 1, depth);
      }
      PathUnfolds(env, r, path[1..], depth);
    }
  }

  /** Each name on a path without structs takes one declaration. */
  lemma {:induction false} PathTakes(env: Env, r: set<TypeId>, path: seq<TypeId>, depth: nat)
    requires Closed(env) && IsPath(env, path) && Structless(env, path) && Unfolds(env, r, Defined(path[0]), depth)
    ensures |path| <= depth && Unfolds(env, r, Defined(path[|path| - 1]), depth - (|path| - 1))
    decreases |path|
  {
    assert path[0] in path;
    if |path| > 1 {
      UsedUnfolds(env, r, env[path[0]].underlying, depth - 1, path[1]);
      assert forall id <- path[1..] :: id in path;
      PathTakes(env, r, path[1..], depth - 1);
    }
  }

  lemma {:induction false} CircularNeverUnfolds(env: Env, r: set<TypeId>, path: seq<TypeId>, depth: nat)
    requires Closed(env) && IsPath(env, path) && |path| > 1 && path[0] == path[|path| - 1] && Structless(env, path)
    ensures !Unfolds(env, r, Defined(path[0]), depth)
    decreases depth
  {
    if Unfolds(env, r, Defined(path[0]), depth) {
      PathTakes(env, r, path, depth);
      CircularNeverUnfolds(env, r, path, depth - (|path| - 1));
    }
  }

  lemma EndsNotCircular(env: Env, t: Type, depth: nat, id: TypeId)
    requires Closed(env) && Uses(t) <= env.Keys && Visit(env, {}, t, depth).Some? && Reaches(env, t, id)
    ensures !Circular(env, id)
  {
    var r := Visit(env, {}, t, depth).value;
    VisitUnfolds(env, {}, t, depth);
    var path :| IsPath(env, path) && path[0] in Uses(t) && path[|path| - 1] == id;
    UsedUnfolds(env, r, t, depth, path[0]);
    PathUnfolds(env, r, path, depth);
    forall loop | IsPath(env, loop) && |loop| > 1 && loop[0] == loop[|loop| - 1] == id ensures !Structless(env, loop) {
      if Structless(env, loop) { CircularNeverUnfolds(env, r, loop, depth); }
    }
  }

  // --- Without such cycles the compilation ends -----------------------------------------------------------------

  /** `u` has the names that its declarations use. */
  ghost predicate Whole(env: Env, u: set<TypeId>) {
    u <= env.Keys && forall id :: id in u ==> DeclUses(env[id]) <= u
  }

  /** What does not unfold has a long path without structs in it. */
  lemma {:induction false} LongPath(env: Env, u: set<TypeId>, t: Type, depth: nat) returns (path: seq<TypeId>)
    requires Closed(env) && Whole(env, u) && Uses(t) <= u && !Unfolds(env, u, t, depth)
    ensures |path| == depth + 1 && IsPath(env, path) && path[0] in Uses(t) && Structless(env, path)
    decreases depth, t
  {
    match t
    case Pointer(e) => path := LongPath(env, u, e, depth);
    case List(e) => path := LongPath(env, u, e, depth);
    case MapOf(e) => path := LongPath(env, u, e, depth);
    case Record(fields) => path := LongPathOfAll(env, u, fields, depth);
    case Defined(id) =>
      if depth == 0 {
        path := [id];
      } else {
        var rest := LongPath(env, u, env[id].underlying, depth - 1);
        path := [id] + rest;
      }
  }

  lemma {:induction false} LongPathOfAll(env: Env, u: set<TypeId>, types: seq<Type>, depth: nat) returns (path: seq<TypeId>)
    requires Closed(env) && Whole(env, u) && AllUse(types) <= u && !AllUnfold(env, u, types, depth)
    ensures |path| == depth + 1 && IsPath(env, path) && path[0] in AllUse(types) && Structless(env, path)
    decreases depth, types
  {
    if Unfolds(env, u, types[0], depth) {
      path := LongPathOfAll(env, u, types[1..], depth);
    } else {
      path := LongPath(env, u, types[0], depth);
    }
  }

  lemma SubPath(env: Env, path: seq<TypeId>, i: nat, j: nat)
    requires IsPath(env, path) && i <= j < |path|
    ensures IsPath(env, path[i..j + 1])
    ensures Structless(env, path) ==> Structless(env, path[i..j + 1])
  {
    assert forall id <- path[i..j + 1] :: id in path;
  }

  /** A path longer than there are names comes back to one of them. */
  lemma LongPathIsCircular(env: Env, path: seq<TypeId>) returns (i: nat)
    requires IsPath(env, path) && Structless(env, path) && |path| > |env|
    ensures i < |path| && Circular(env, path[i])
  {
    assert !NoDuplicates(path) by {
      if NoDuplicates(path) { DistinctWithin(path, env.Keys); }
    }
    var k, l :| 0 <= k < l < |path| && path[k] == path[l];
    SubPath(env, path, k, l);
    var loop := path[k..l + 1];
    assert loop[0] == loop[|loop| - 1] == path[k];
    return k;
  }

  ghost function Reached(env: Env, t: Type): set<TypeId> {
    set id | id in env && Reaches(env, t, id)
  }

  lemma ReachesUsed(env: Env, t: Type, id: TypeId)
    requires id in Uses(t) && id in env
    ensures Reaches(env, t, id)
  {
    var path := [id];
    assert IsPath(env, path) && path[0] in Uses(t) && path[|path| - 1] == id;
  }

  lemma ReachesNext(env: Env, t: Type, id: TypeId, next: TypeId)
    requires Reaches(env, t, id) && id in env && next in env && next in DeclUses(env[id])
    ensures Reaches(env, t, next)
  {
    var path :| IsPath(env, path) && path[0] in Uses(t) && path[|path| - 1] == id;
    var longer := path + [next];
    assert IsPath(env, longer) && longer[0] in Uses(t) && longer[|longer| - 1] == next;
  }

  lemma ReachedWhole(env: Env, t: Type)
    requires Closed(env) && Uses(t) <= env.Keys
    ensures Whole(env, Reached(env, t)) && Uses(t) <= Reached(env, t)
  {
    forall id | id in Uses(t) ensures id in Reached(env, t) {
      ReachesUsed(env, t, id);
    }
    forall id | id in Reached(env, t) ensures DeclUses(env[id]) <= Reached(env, t) {
      forall next | next in DeclUses(env[id]) ensures next in Reached(env, t) {
        ReachesNext(env, t, id, next);
      }
    }
  }

  lemma ReachedOn(env: Env, t: Type, path: seq<TypeId>, i: nat)
    requires Whole(env, Reached(env, t)) && IsPath(env, path) && path[0] in Reached(env, t) && i < |path|
    ensures Reaches(env, t, path[i])
    decreases i
  {
    if i > 0 {
      ReachedOn(env, t, path, i - 1);
      assert path[(i - 1) + 1] in DeclUses(env[path[i - 1]]);
    }
  }

  /** Where nothing reached is circular, everything reached unfolds. */
  lemma NotCircularUnfolds(env: Env, t: Type, types: seq<Type>)
    requires Closed(env) && Uses(t) <= env.Keys && forall id :: Reaches(env, t, id) ==> !Circular(env, id)
    requires AllUse(types) <= Reached(env, t)
    ensures AllUnfold(env, Reached(env, t), types, |env|)
  {
    var u := Reached(env, t);
    ReachedWhole(env, t);
    if !AllUnfold(env, u, types, |env|) {
      var path := LongPathOfAll(env, u, types, |env|);
      var i := LongPathIsCircular(env, path);
      ReachedOn(env, t, path, i);
    }
  }

  /** The depth needed while `free` structs have no name yet. */
  function Budget(free: nat, k: nat): nat { if free == 0 then 0 else Budget(free - 1, k) + k + 1 }

  lemma {:induction false} BudgetGrows(free: nat, free': nat, k: nat)
    requires free' <= free
    ensures Budget(free', k) <= Budget(free, k)
    ensures free' < free ==> Budget(free', k) + k + 1 <= Budget(free, k)
  {
    if free' < free {
      BudgetGrows(free - 1, free', k);
    }
  }

  ghost function Free(u: set<TypeId>, named: set<TypeId>): nat { |u - named| }

  lemma FreeLess(u: set<TypeId>, named: set<TypeId>, named': set<TypeId>)
    requires named <= named'
    ensures Free(u, named') <= Free(u, named)
    ensures (exists id :: id in u && id !in named && id in named') ==> Free(u, named') < Free(u, named)
  {
    SubsetSize(u - named', u - named);
    if id :| id in u && id !in named && id in named' {
      SubsetSize(u - named', u - named - {id});
    }
  }

  lemma {:induction false} VisitEnds(env: Env, u: set<TypeId>, k: nat, named: set<TypeId>, t: Type, i: nat, depth: nat)
    requires Closed(env) && Whole(env, u) && Settled(env, u, {}, k)
    requires Uses(t) <= u && Unfolds(env, u, t, i) && i <= k && depth >= i + Budget(Free(u, named), k)
    ensures Visit(env, named, t, depth).Some? && named <= Visit(env, named, t, depth).value
    decreases Free(u, named), i, t, 0
  {
    match t
    case Leaf =>
    case Pointer(e) => VisitEnds(env, u, k, named, e, i, depth);
    case List(e) => VisitEnds(env, u, k, named, e, i, depth);
    case MapOf(e) => VisitEnds(env, u, k, named, e, i, depth);
    case Record(fields) => VisitAllEnds(env, u, k, named, fields, i, depth);
    case Defined(id) =>
      if env[id].Other? {
        VisitEnds(env, u, k, named, env[id].underlying, i - 1, depth - 1);
      } else if id !in named {
        FreeLess(u, named, named + {id});
        BudgetGrows(Free(u, named), Free(u, named + {id}), k);
        VisitAllEnds(env, u, k, named + {id}, env[id].fields, k, depth - 1);
      }
  }

  lemma {:induction false} VisitAllEnds(
    env: Env, u: set<TypeId>, k: nat, named: set<TypeId>, types: seq<Type>, i: nat, depth: nat)
    requires Closed(env) && Whole(env, u) && Settled(env, u, {}, k)
    requires AllUse(types) <= u && AllUnfold(env, u, types, i) && i <= k && depth >= i + Budget(Free(u, named), k)
    ensures VisitAll(env, named, types, depth).Some? && named <= VisitAll(env, named, types, depth).value
    decreases Free(u, named), i, types, 0
  {
    if types != [] {
      VisitEnds(env, u, k, named, types[0], i, depth);
      var named' := Visit(env, named, types[0], depth).value;
      FreeLess(u, named, named');
      BudgetGrows(Free(u, named), Free(u, named'), k);
      VisitAllEnds(env, u, k, named', types[1..], i, depth);
    }
  }

  lemma NotCircularEnds(env: Env, t: Type)
    requires Closed(env) && Uses(t) <= env.Keys && forall id :: Reaches(env, t, id) ==> !Circular(env, id)
    ensures Ends(env, t)
  {
    var u, k := Reached(env, t), |env|;
    ReachedWhole(env, t);
    forall id | id in u && env[id].Struct? ensures AllUnfold(env, u, env[id].fields, k) {
      NotCircularUnfolds(env, t, env[id].fields);
    }
    assert [t][1..] == [];
    NotCircularUnfolds(env, t, [t]);
    VisitEnds(env, u, k, {}, t, k, k + Budget(Free(u, {}), k));
  }

  // --- The theorem ----------------------------------------------------------------------------------------------

  /**
   * Compiling a type ends if and only if no name that it reaches contains
   * itself without a named struct in between.
   */
  lemma EndsIffNotCircular(env: Env, t: Type)
    requires Closed(env) && Uses(t) <= env.Keys
    ensures Ends(env, t) <==> forall id :: Reaches(env, t, id) ==> !Circular(env, id)
  {
    if Ends(env, t) {
      var depth :| Visit(env, {}, t, depth).Some?;
      forall id | Reaches(env, t, id) ensures !Circular(env, id) {
        EndsNotCircular(env, t, depth, id);
      }
    } else if forall id :: Reaches(env, t, id) ==> !Circular(env, id) {
      NotCircularEnds(env, t);
    }
  }

  /** A named slice of itself: valid Go, and the compiler never returns. */
  lemma {:induction false} SliceOfItself(l: TypeId)
    ensures var env := map[l := Other(List(Defined(l)))];
            Closed(env) && !Ends(env, Defined(l))
  {
    var env := map[l := Other(List(Defined(l)))];
    var loop := [l, l];
    assert Uses(List(Defined(l))) == Uses(Defined(l)) == {l};
    assert IsPath(env, loop) && Structless(env, loop) && Circular(env, l);
    assert IsPath(env, [l]) && [l][0] in Uses(Defined(l)) && Reaches(env, Defined(l), l);
    EndsIffNotCircular(env, Defined(l));
  }
}
