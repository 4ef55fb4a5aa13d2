/**
 * The schema compiler and the validator as the Go runtime runs them: a builder
 * that names structs and fills in their definitions as it meets them, and a
 * validator that collects violations.
 */
module SchemaBuilder {

  import opened Wrappers
  import opened Schema

  function KeySet(keys: seq<string>): set<string> {
    if keys == [] then {} else {keys[0]} + KeySet(keys[1..])
  }

  predicate Distinct(keys: seq<string>) {
    keys == [] || (keys[0] !in KeySet(keys[1..]) && Distinct(keys[1..]))
  }

  lemma {:induction false} KeysSnoc(keys: seq<string>, key: string)
    ensures KeySet(keys + [key]) == KeySet(keys) + {key}
    ensures Distinct(keys) && key !in KeySet(keys) ==> Distinct(keys + [key])
  {
    if keys == [] {
      assert [key][1..] == [];
    } else {
      assert (keys + [key])[1..] == keys[1..] + [key];
      KeysSnoc(keys[1..], key);
    }
  }

  /** An object whose keys keep their order of insertion. */
  class OrderedObject<V> {
    var keys: seq<string>
    var values: map<string, V>

    ghost predicate Valid()
      reads this
    {
      Distinct(keys) && KeySet(keys) == values.Keys
    }

    constructor ()
      ensures Valid() && keys == [] && values == map[]
    {
      keys, values := [], map[];
    }

    method Set(key: string, value: V)
      requires Valid()
      modifies this
      ensures Valid() && values == old(values)[key := value]
      ensures keys == if key in old(values) then old(keys) else old(keys) + [key]
    {
      KeysSnoc(keys, key);
      if key !in values {
        keys := keys + [key];
      }
      values := values[key := value];
    }
  }

  /** The properties an ordered object of schemas lists. */
  function Listed(keys: seq<string>, values: map<string, Schema>): seq<Property>
    requires KeySet(keys) <= values.Keys
  {
    if keys == [] then []
    else [Property(keys[0], values[keys[0]])] + Listed(keys[1..], values)
  }

  lemma {:induction false} ListedElsewhere(keys: seq<string>, values: map<string, Schema>, key: string, s: Schema)
    requires KeySet(keys) <= values.Keys && key !in KeySet(keys)
    ensures Listed(keys, values[key := s]) == Listed(keys, values)
  {
    if keys != [] {
      ListedElsewhere(keys[1..], values, key, s);
    }
  }

  lemma {:induction false} ListedPut(keys: seq<string>, values: map<string, Schema>, key: string, s: Schema)
    requires KeySet(keys) <= values.Keys && Distinct(keys)
    ensures var keys' := if key in KeySet(keys) then keys else keys + [key];
            && KeySet(keys') <= values.Keys + {key}
            && Listed(keys', values[key := s]) == Put(Listed(keys, values), key, s)
  {
    KeysSnoc(keys, key);
    if keys != [] {
      var rest := keys[1..];
      if keys[0] == key {
        ListedElsewhere(rest, values, key, s);
      } else {
        ListedPut(rest, values, key, s);
        assert (keys + [key])[1..] == rest + [key];
      }
    }
  }

  // --- Numbered names -----------------------------------------------------------------------------

  function Atoi(s: string): nat {
    if s == "" then 0 else 10 * Atoi(s[..|s| - 1]) + DigitValue(s[|s| - 1])
  }

  function DigitValue(c: char): nat { if '0' <= c <= '9' then c as nat - '0' as nat else 0 }

  lemma {:induction false} AtoiItoa(n: nat)
    ensures Itoa(n) != "" && Atoi(Itoa(n)) == n
  {
    if n >= 10 {
      AtoiItoa(n / 10);
      var s := Itoa(n / 10) + [Digit(n % 10)];
      assert s[..|s| - 1] == Itoa(n / 10);
    } else {
      assert Itoa(n)[..0] == "";
    }
  }

  lemma NumberedDiffer(base: string, m: nat, n: nat)
    ensures m != n ==> base + Itoa(m) != base + Itoa(n)
    ensures base + Itoa(n) != base
  {
    AtoiItoa(m);
    AtoiItoa(n);
    assert (base + Itoa(m))[|base|..] == Itoa(m) && (base + Itoa(n))[|base|..] == Itoa(n);
  }

  // --- The builder ----------------------------------------------------------------------------------

  ghost predicate Extends(names: Names, names': Names) {
    names.Keys <= names'.Keys && forall id :: id in names ==> names'[id] == names[id]
  }

  /** More names do not change the schema of a type whose structs are named. */
  lemma {:induction false} ShapeExtends(names: Names, names': Names, t: GoType)
    requires Extends(names, names') && Mentions(t) <= names.Keys
    ensures Shape(names', t) == Shape(names, t)
    decreases t
  {
    match t
    case Pointer(e) => ShapeExtends(names, names', e);
    case List(e) => ShapeExtends(names, names', e);
    case MapOf(e) => ShapeExtends(names, names', e);
    case Record(fields) => PropertiesExtend(names, names', fields);
    case _ =>
  }

  lemma {:induction false} PropertiesExtend(names: Names, names': Names, fields: seq<Field>)
    requires Extends(names, names') && FieldsMention(fields) <= names.Keys
    ensures Properties(names', fields) == Properties(names, fields)
    decreases fields
  {
    if fields != [] {
      PropertiesExtend(names, names', fields[..|fields| - 1]);
      ShapeExtends(names, names', fields[|fields| - 1].typ);
    }
  }

  lemma Remaining(env: Env, names: Names, names': Names)
    requires names.Keys <= names'.Keys
    ensures |env.Keys - names'.Keys| <= |env.Keys - names.Keys|
    ensures forall id :: id in env && id in names' && id !in names ==>
              |env.Keys - names'.Keys| < |env.Keys - names.Keys|
  {
    SubsetSize(env.Keys - names'.Keys, env.Keys - names.Keys);
    forall id | id in env && id in names' && id !in names
      ensures |env.Keys - names'.Keys| < |env.Keys - names.Keys|
    {
      SubsetSize(env.Keys - names'.Keys, env.Keys - names.Keys - {id});
    }
  }

  lemma AddName(env: Env, names: Names, id: TypeId, name: string)
    requires id in env && id !in names
    ensures Extends(names, names[id := name])
    ensures |env.Keys - names[id := name].Keys| < |env.Keys - names.Keys|
  {
    assert id in names[id := name];
    Remaining(env, names, names[id := name]);
  }

  /** The name is the struct's own, or that with a number from 2 on. */
  ghost predicate Titled(name: string, base: string) {
    name == base || exists n :: 2 <= n && name == base + Itoa(n)
  }

  /** Every name is the name of one struct. */
  ghost predicate Owned(names: Names, taken: map<string, TypeId>) {
    forall id :: id in names ==> names[id] in taken && taken[names[id]] == id
  }

  type Slots = map<string, Option<Schema>>

  /** A struct's definition is its object schema, or is still to come. */
  ghost predicate Settled(env: Env, names: Names, slots: Slots, pending: set<TypeId>, id: TypeId)
    requires id in names && id in env
  {
    && names[id] in slots
    && if id in pending then slots[names[id]] == None
       else FieldsMention(env[id].fields) <= names.Keys && slots[names[id]] == Some(ObjectShape(names, env[id].fields))
  }

  /** Definitions are of structs only. */
  ghost predicate Plain(slots: Slots) {
    forall name :: name in slots && slots[name].Some? ==> slots[name].value.ref == None && slots[name].value.anyOf == []
  }

  ghost predicate Consistent(env: Env, names: Names, taken: map<string, TypeId>, slots: Slots, pending: set<TypeId>) {
    && pending <= names.Keys <= env.Keys
    && Owned(names, taken) && Plain(slots) && slots.Keys == taken.Keys
    && (forall id :: id in names ==> Titled(names[id], env[id].name))
    && forall id :: id in names ==> Settled(env, names, slots, pending, id)
  }

  lemma ReserveConsistent(env: Env, names: Names, taken: map<string, TypeId>, slots: Slots, pending: set<TypeId>,
                          id: TypeId, name: string)
    requires Consistent(env, names, taken, slots, pending)
    requires id in env && id !in names && name !in taken && Titled(name, env[id].name)
    ensures Consistent(env, names[id := name], taken[name := id], slots[name := None], pending + {id})
  {
    var names' := names[id := name];
    forall other | other in names'
      ensures Settled(env, names', slots[name := None], pending + {id}, other)
    {
      if other != id {
        assert Settled(env, names, slots, pending, other);
        if other !in pending {
          ShapeExtends(names, names', Record(env[other].fields));
        }
      }
    }
  }

  lemma FillConsistent(env: Env, names: Names, taken: map<string, TypeId>, slots: Slots, pending: set<TypeId>, id: TypeId)
    requires Consistent(env, names, taken, slots, pending)
    requires id in pending && FieldsMention(env[id].fields) <= names.Keys
    ensures Consistent(env, names, taken, slots[names[id] := Some(ObjectShape(names, env[id].fields))], pending - {id})
  {
    assert Settled(env, names, slots, pending, id);
    var slots' := slots[names[id] := Some(ObjectShape(names, env[id].fields))];
    forall other | other in names
      ensures Settled(env, names, slots', pending - {id}, other)
    {
      assert Settled(env, names, slots, pending, other);
    }
  }

  /** The name, or the name with the first number from 2 on that is free. */
  method FreeName(base: string, taken: map<string, TypeId>) returns (name: string)
    ensures name !in taken && Titled(name, base)
    ensures name == base || exists n :: FirstFree(base, taken, n, name)
  {
    name := base;
    var i := 2;
    ghost var tried: set<string> := {};
    while name in taken
      invariant i >= 2 && tried <= taken.Keys && name !in tried
      invariant name == Numbered(base, i - 1) && TakenBefore(base, taken, i - 1)
      invariant forall x :: x in tried ==> Tried(base, i - 1, x)
      decreases taken.Keys - tried
    {
      tried := tried + {name};
      NextNumber(base, i, tried);
      name := base + Itoa(i);
      i := i + 1;
    }
    if i > 2 { assert FirstFree(base, taken, i - 1, name); }
  }

  /** The `n`-th candidate: the name itself comes first. */
  ghost function Numbered(base: string, n: nat): string { if n <= 1 then base else base + Itoa(n) }

  /** All the candidates before the `n`-th are taken. */
  ghost predicate TakenBefore(base: string, taken: map<string, TypeId>, n: nat) {
    forall m :: 1 <= m < n ==> Numbered(base, m) in taken
  }

  /** The name is the one with number `n`, and those before it are taken. */
  ghost predicate FirstFree(base: string, taken: map<string, TypeId>, n: nat, name: string) {
    2 <= n && name == base + Itoa(n) && TakenBefore(base, taken, n)
  }

  /** A name that comes no later than the one with number `n`. */
  ghost predicate Tried(base: string, n: nat, x: string) {
    exists m :: 1 <= m <= n && x == Numbered(base, m)
  }

  lemma NumbersDiffer(base: string, m: nat, n: nat)
    requires 1 <= m < n
    ensures Numbered(base, m) != Numbered(base, n)
  {
    NumberedDiffer(base, m, n);
  }

  lemma NextNumber(base: string, i: nat, tried: set<string>)
    requires i >= 2 && forall x :: x in tried ==> Tried(base, i - 1, x) || x == Numbered(base, i - 1)
    ensures base + Itoa(i) !in tried && forall x :: x in tried ==> Tried(base, i, x)
  {
    forall x | x in tried ensures x != base + Itoa(i) && Tried(base, i, x) {
      assert Tried(base, i - 1, x);
      var m :| 1 <= m <= i - 1 && x == Numbered(base, m);
      NumbersDiffer(base, m, i);
    }
  }

  lemma RequiredNext(fields: seq<Field>, i: nat)
    requires i < |fields|
    ensures fields[..i + 1] == fields[..i] + [fields[i]]
    ensures RequiredNames(fields[..i + 1]) ==
            RequiredNames(fields[..i]) + if Required(fields[i]) then [fields[i].name] else []
  {
    assert fields[..i + 1] == fields[..i] + [fields[i]];
    assert fields[..i + 1][..i] == fields[..i];
  }

  lemma TakeAll(fields: seq<Field>)
    ensures fields[..|fields|] == fields
  {
  }

  lemma ExtendsOn(a: Names, b: Names, c: Names)
    requires Extends(a, b) && Extends(b, c)
    ensures Extends(a, c)
  {
  }

  /**
   * One compilation. `pending` are the structs whose definition is reserved but
   * not there yet: those on the stack of calls.
   */
  class SchemaBuilder {
    const env: Env
    const defs: OrderedObject<Option<Schema>>
    var names: Names
    var taken: map<string, TypeId>
    ghost var pending: set<TypeId>

    ghost predicate Valid()
      reads this, defs
    {
      defs.Valid() && Closed(env) && Consistent(env, names, taken, defs.values, pending)
    }

    constructor (env: Env)
      requires Closed(env)
      ensures Valid() && this.env == env && names == map[] && pending == {} && fresh(defs)
    {
      this.env := env;
      defs := new OrderedObject<Option<Schema>>();
      names, taken, pending := map[], map[], {};
    }

    method TypeSchema(t: GoType) returns (s: Schema)
      requires Valid() && Mentions(t) <= env.Keys
      modifies this, defs
      ensures Valid() && pending == old(pending) && Extends(old(names), names)
      ensures Mentions(t) <= names.Keys && s == Shape(names, t)
      decreases |env.Keys - names.Keys|, t, 1
    {
      match t
      case Timestamp => s := OfKind(Some(StringKind));
      case Raw => s := OfKind(None);
      case Any => s := OfKind(None);
      case String => s := OfKind(Some(StringKind));
      case Boolean => s := OfKind(Some(BooleanKind));
      case Integer => s := OfKind(Some(IntegerKind));
      case Float => s := OfKind(Some(NumberKind));
      case Bytes => s := OfKind(Some(StringKind));
      case Pointer(e) =>
        var inner := TypeSchema(e);
        s := Choice([inner, OfKind(Some(NullKind))]);
      case List(e) =>
        var inner := TypeSchema(e);
        s := OfKind(Some(ArrayKind)).(items := Some(inner));
      case MapOf(e) =>
        var inner := TypeSchema(e);
        s := OfKind(Some(ObjectKind)).(additional := Some(inner));
      case Record(fields) => s := StructSchema(fields);
      case Named(id) =>
        var name := Define(id);
        s := RefTo(name);
    }

    /** Put a struct's schema under "$defs" once, and return its name there. */
    method Define(id: TypeId) returns (name: string)
      requires Valid() && id in env
      modifies this, defs
      ensures Valid() && pending == old(pending) && Extends(old(names), names)
      ensures id in names && name == names[id]
      decreases |env.Keys - names.Keys|, Named(id), 0
    {
      if id in names {
        return names[id];
      }
      name := FreeName(env[id].name, taken);
      Reserve(id, name);
      Complete(id);
    }

    /** Compile a struct whose place is reserved. */
    method Complete(id: TypeId)
      requires Valid() && id in pending
      modifies this, defs
      ensures Valid() && pending == old(pending) - {id}
      ensures forall before :: Extends(before, old(names)) ==> Extends(before, names)
      ensures id in names && names[id] == old(names[id])
      decreases |env.Keys - names.Keys|
    {
      var s := StructSchema(env[id].fields);
      Fill(id, s);
    }

    /** Take the name and reserve its place, before the fields are looked at. */
    method Reserve(id: TypeId, name: string)
      requires Valid() && id in env && id !in names && name !in taken && Titled(name, env[id].name)
      modifies this, defs
      ensures Valid() && id !in old(pending) && pending == old(pending) + {id}
      ensures Extends(old(names), names) && id in names && names[id] == name
      ensures |env.Keys - names.Keys| < |env.Keys - old(names).Keys|
    {
      AddName(env, names, id, name);
      ReserveConsistent(env, names, taken, defs.values, pending, id, name);
      names := names[id := name];
      taken := taken[name := id];
      defs.Set(name, None);
      pending := pending + {id};
    }

    /** Replace the reservation by the struct's schema. */
    method Fill(id: TypeId, s: Schema)
      requires Valid() && id in pending && FieldsMention(env[id].fields) <= names.Keys
      requires s == ObjectShape(names, env[id].fields)
      modifies this, defs
      ensures Valid() && pending == old(pending) - {id} && names == old(names)
    {
      FillConsistent(env, names, taken, defs.values, pending, id);
      defs.Set(names[id], Some(s));
      pending := pending - {id};
    }

    /** Compile one more field of a struct; `done` are those compiled before. */
    method AddField(properties: OrderedObject<Schema>, f: Field, ghost done: seq<Field>)
      requires Valid() && properties.Valid() && FieldsMention(done) <= names.Keys && Mentions(f.typ) <= env.Keys
      requires Listed(properties.keys, properties.values) == Properties(names, done)
      modifies this, defs, properties
      ensures Valid() && pending == old(pending) && Extends(old(names), names)
      ensures properties.Valid() && FieldsMention(done + [f]) <= names.Keys
      ensures Listed(properties.keys, properties.values) == Properties(names, done + [f])
      decreases |env.Keys - names.Keys|, f.typ, 2
    {
      var p := TypeSchema(f.typ);
      PropertiesExtend(old(names), names, done);
      p := p.(enum := f.enum);
      ListedPut(properties.keys, properties.values, f.name, p);
      properties.Set(f.name, p);
      assert (done + [f])[..|done|] == done;
    }

    method StructSchema(fields: seq<Field>) returns (s: Schema)
      requires Valid() && FieldsMention(fields) <= env.Keys
      modifies this, defs
      ensures Valid() && pending == old(pending) && Extends(old(names), names)
      ensures FieldsMention(fields) <= names.Keys && s == ObjectShape(names, fields)
      decreases |env.Keys - names.Keys|, fields, 3
    {
      var properties := new OrderedObject<Schema>();
      var required := AddFields(properties, fields);
      s := ObjectSchema(Listed(properties.keys, properties.values), required);
    }

    method AddFields(properties: OrderedObject<Schema>, fields: seq<Field>) returns (required: seq<string>)
      requires Valid() && FieldsMention(fields) <= env.Keys
      requires properties.Valid() && properties.keys == []
      modifies this, defs, properties
      ensures Valid() && pending == old(pending) && Extends(old(names), names)
      ensures properties.Valid() && FieldsMention(fields) <= names.Keys
      ensures Listed(properties.keys, properties.values) == Properties(names, fields)
      ensures required == RequiredNames(fields)
      decreases |env.Keys - names.Keys|, fields, 2
    {
      required := [];
      var i := 0;
      while i < |fields|
        invariant 0 <= i <= |fields|
        invariant Valid() && pending == old(pending) && Extends(old(names), names)
        invariant properties.Valid() && FieldsMention(fields[..i]) <= names.Keys
        invariant Listed(properties.keys, properties.values) == Properties(names, fields[..i])
        invariant required == RequiredNames(fields[..i])
      {
        FieldMentioned(fields, fields[i]);
        Remaining(env, old(names), names);
        ghost var before := names;
        AddField(properties, fields[i], fields[..i]);
        ExtendsOn(old(names), before, names);
        RequiredNext(fields, i);
        if Required(fields[i]) {
          required := required + [fields[i].name];
        }
        i := i + 1;
      }
      TakeAll(fields);
    }
  }

  // --- A whole compilation ----------------------------------------------------------------------------

  /** A compiled type: the root schema, and the "$defs" beside it. */
  datatype Document = Document(root: Schema, defs: Slots)

  function Strip(t: GoType): GoType { if t.Pointer? then Strip(t.elem) else t }

  function DefsOf(slots: Slots): Defs { map name | name in slots && slots[name].Some? :: slots[name].value }

  /** The schema of the root: a struct is not put under "$defs" for being the root. */
  ghost predicate IsRoot(env: Env, names: Names, t: GoType, root: Schema)
    requires Closed(env) && Mentions(t) <= env.Keys
  {
    if t.Named? then FieldsMention(env[t.id].fields) <= names.Keys && root == ObjectShape(names, env[t.id].fields)
    else Mentions(t) <= names.Keys && root == Shape(names, t)
  }

  /**
   * Different structs have different names, each its own or that with a number;
   * every name stands for the object schema of its struct, and the root is the
   * schema of the type.
   */
  ghost predicate Compiles(env: Env, t: GoType, names: Names, doc: Document)
    requires Closed(env) && Mentions(t) <= env.Keys
  {
    && (forall a, b :: a in names && b in names && names[a] == names[b] ==> a == b)
    && (forall id :: id in names ==> id in env && Titled(names[id], env[id].name))
    && Ready(env, names, DefsOf(doc.defs))
    && IsRoot(env, names, t, doc.root)
  }

  lemma ConsistentCompiles(env: Env, names: Names, taken: map<string, TypeId>, slots: Slots, t: GoType, root: Schema)
    requires Closed(env) && Mentions(t) <= env.Keys
    requires Consistent(env, names, taken, slots, {}) && IsRoot(env, names, t, root)
    ensures Compiles(env, t, names, Document(root, slots))
  {
    var defs := DefsOf(slots);
    forall id | id in names
      ensures FieldsMention(env[id].fields) <= names.Keys && names[id] in defs
           && defs[names[id]] == ObjectShape(names, env[id].fields)
    {
      assert Settled(env, names, slots, {}, id);
    }
  }

  /** The value has no violation of the compiled schema. */
  predicate Accepts(doc: Document, j: Json)
    requires Flat(DefsOf(doc.defs))
  {
    Violations(DefsOf(doc.defs), doc.root, j, []) == []
  }

  lemma CompiledMeansType(env: Env, t: GoType, names: Names, doc: Document, j: Json)
    requires Closed(env) && Mentions(t) <= env.Keys && Compiles(env, t, names, doc)
    ensures Accepts(doc, j) <==> Conforms(env, t, j)
  {
    var defs := DefsOf(doc.defs);
    if t.Named? {
      StructRootMeans(env, names, defs, env[t.id].fields, j);
    } else {
      ShapeMeansType(env, names, defs, t, j, []);
    }
  }

  lemma StructRootMeans(env: Env, names: Names, defs: Defs, fields: seq<Field>, j: Json)
    requires Ready(env, names, defs) && FieldsMention(fields) <= names.Keys
    ensures Violations(defs, ObjectShape(names, fields), j, []) == [] <==> j.Obj? && StructConforms(env, fields, j.members)
  {
    if j.Obj? {
      StructMeansFields(env, names, defs, fields, j.members, []);
    } else {
      ObjectOnly(defs, names, fields, j, []);
    }
  }

  /** An object without members is a value of a struct exactly if every field is a pointer or may be omitted. */
  lemma EmptyObjectAccepted(env: Env, t: GoType, names: Names, doc: Document)
    requires Closed(env) && Mentions(t) <= env.Keys && Compiles(env, t, names, doc) && (t.Named? || t.Record?)
    ensures var fields := if t.Named? then env[t.id].fields else t.fields;
            Accepts(doc, Obj([])) <==> forall f <- fields :: f.typ.Pointer? || f.omitempty
  {
    CompiledMeansType(env, t, names, doc, Obj([]));
  }

  /**
   * Compile a type. Pointers around it are dropped. The result accepts exactly
   * the values of the type, for mutually recursive structs as well.
   */
  method SchemaOf(env: Env, t: GoType) returns (doc: Document, ghost names: Names)
    requires Closed(env) && Mentions(t) <= env.Keys
    ensures Mentions(Strip(t)) <= env.Keys && Compiles(env, Strip(t), names, doc)
    ensures forall j :: Accepts(doc, j) <==> Conforms(env, Strip(t), j)
  {
    var b := new SchemaBuilder(env);
    var u := t;
    while u.Pointer?
      invariant Strip(u) == Strip(t) && Mentions(u) <= env.Keys
      decreases u
    {
      u := u.elem;
    }
    var root;
    if u.Named? {
      root := b.StructSchema(env[u.id].fields);
    } else if u.Record? {
      root := b.StructSchema(u.fields);
    } else {
      root := b.TypeSchema(u);
    }
    doc := Document(root, b.defs.values);
    names := b.names;
    ConsistentCompiles(env, b.names, b.taken, b.defs.values, u, root);
    forall j ensures Accepts(doc, j) <==> Conforms(env, u, j) {
      CompiledMeansType(env, u, names, doc, j);
    }
  }

  // --- The validator --------------------------------------------------------------------------------------

  class Validator {
    const defs: Defs
    var out: seq<Violation>

    constructor (defs: Defs)
      ensures this.defs == defs && out == []
    {
      this.defs := defs;
      out := [];
    }

    method Fail(path: Path, code: Code)
      modifies this
      ensures out == old(out) + At(path, code)
    {
      out := out + [Violation(Join(path, "."), code)];
    }

    /** Report the violations of `s` by `value`, after those reported before. */
    method Check(s: Schema, value: Json, path: Path)
      requires Flat(defs)
      modifies this
      ensures out == old(out) + Violations(defs, s, value, path)
      decreases value, Unfolding(s), 1
    {
      if s.ref.Some? {
        var name := TrimPrefix(s.ref.value, PREFIX);
        if name in defs {
          assert Unfolding(defs[name]) == 0;
          Check(defs[name], value, path);
        } else {
          assert out == old(out) + [];
        }
        return;
      }
      if s.anyOf != [] {
        CheckChoice(s.anyOf, value, path);
        assert old(out) + [] == old(out);
        return;
      }
      if s.enum != [] && Printed(value) !in s.enum {
        Fail(path, NotListed);
        return;
      }
      CheckKind(s, value, path);
    }

    /** The last test: the type, and what is inside an array or an object. */
    method CheckKind(s: Schema, value: Json, path: Path)
      requires Flat(defs)
      modifies this
      ensures out == old(out) + KindViolations(defs, s, value, path)
      decreases value, 0, 0
    {
      match s.kind
      case None =>
      case Some(NullKind) => if !value.Null? { Fail(path, WrongType); }
      case Some(StringKind) => if !value.Text? { Fail(path, WrongType); }
      case Some(BooleanKind) => if !value.Bool? { Fail(path, WrongType); }
      case Some(IntegerKind) => if !(value.Number? && value.whole) { Fail(path, WrongType); }
      case Some(NumberKind) => if !value.Number? { Fail(path, WrongType); }
      case Some(ArrayKind) =>
        if !value.Arr? {
          Fail(path, WrongType);
        } else if s.items.Some? {
          CheckElements(s.items.value, value.elements, path);
        }
      case Some(ObjectKind) =>
        if !value.Obj? {
          Fail(path, WrongType);
        } else {
          CheckRequired(s.required, value.members, path);
          CheckMembers(s.properties, s.additional, value.members, path);
        }
    }

    /** Each alternative is probed with a validator of its own. */
    method CheckChoice(options: seq<Schema>, value: Json, path: Path)
      requires Flat(defs)
      modifies this
      ensures out == if AnyFits(defs, options, value, path) then old(out) else old(out) + At(path, WrongType)
      decreases value, Unfoldings(options), 0
    {
      var i := 0;
      while i < |options|
        invariant 0 <= i <= |options| && out == old(out)
        invariant forall n :: 0 <= n < i ==> !Fits(defs, options, n, value, path)
      {
        OptionUnfolds(options, i);
        var probe := new Validator(defs);
        probe.Check(options[i], value, path);
        if probe.out == [] {
          assert Fits(defs, options, i, value, path);
          return;
        }
        i := i + 1;
      }
      Fail(path, WrongType);
    }

    method CheckElements(item: Schema, elements: seq<Json>, path: Path)
      requires Flat(defs)
      modifies this
      ensures out == old(out) + ElementViolations(defs, item, elements, |elements|, path)
      decreases elements
    {
      var i := 0;
      while i < |elements|
        invariant 0 <= i <= |elements|
        invariant out == WithElements(defs, item, elements, i, path, old(out))
      {
        Check(item, elements[i], path + [Itoa(i)]);
        NextElement(defs, item, elements, i, path, old(out));
        i := i + 1;
      }
    }

    method CheckRequired(required: seq<string>, members: seq<Member>, path: Path)
      modifies this
      ensures out == old(out) + Missings(required, |required|, members, path)
    {
      var i := 0;
      while i < |required|
        invariant 0 <= i <= |required|
        invariant out == old(out) + Missings(required, i, members, path)
      {
        if !HasKey(members, required[i]) {
          Fail(path + [required[i]], Missing);
        }
        i := i + 1;
      }
    }

    method CheckMembers(properties: seq<Property>, additional: Option<Schema>, members: seq<Member>, path: Path)
      requires Flat(defs)
      modifies this
      ensures out == old(out) + MemberViolations(defs, properties, additional, members, |members|, path)
      decreases members
    {
      var i := 0;
      while i < |members|
        invariant 0 <= i <= |members|
        invariant out == WithMembers(defs, properties, additional, members, i, path, old(out))
      {
        CheckMember(properties, additional, members[i], path);
        NextMember(defs, properties, additional, members, i, path, old(out));
        i := i + 1;
      }
    }

    /** A member has its own schema, or the one for additional members, or none. */
    method CheckMember(properties: seq<Property>, additional: Option<Schema>, m: Member, path: Path)
      requires Flat(defs)
      modifies this
      ensures var sub := MemberSchema(properties, additional, m.key);
              out == if sub.Some? then old(out) + Violations(defs, sub.value, m.value, path + [m.key]) else old(out)
      decreases m
    {
      var p := Lookup(properties, m.key);
      if p.Some? {
        Check(p.value, m.value, path + [m.key]);
      } else if additional.Some? {
        Check(additional.value, m.value, path + [m.key]);
      }
    }
  }

  /** What is reported once the first `n` elements were checked. */
  ghost function WithElements(defs: Defs, item: Schema, elements: seq<Json>, n: nat, path: Path, before: seq<Violation>)
    : seq<Violation>
    requires Flat(defs) && n <= |elements|
  {
    before + ElementViolations(defs, item, elements, n, path)
  }

  lemma NextElement(defs: Defs, item: Schema, elements: seq<Json>, i: nat, path: Path, before: seq<Violation>)
    requires Flat(defs) && i < |elements|
    ensures WithElements(defs, item, elements, i + 1, path, before)
         == WithElements(defs, item, elements, i, path, before) + Violations(defs, item, elements[i], path + [Itoa(i)])
  {
  }

  /** What is reported once the first `n` members were checked. */
  ghost function WithMembers(
    defs: Defs, properties: seq<Property>, additional: Option<Schema>, members: seq<Member>, n: nat, path: Path,
    before: seq<Violation>): seq<Violation>
    requires Flat(defs) && n <= |members|
  {
    before + MemberViolations(defs, properties, additional, members, n, path)
  }

  lemma NextMember(defs: Defs, properties: seq<Property>, additional: Option<Schema>, members: seq<Member>, i: nat,
                   path: Path, before: seq<Violation>)
    requires Flat(defs) && i < |members|
    ensures var m := members[i];
            var sub := MemberSchema(properties, additional, m.key);
            var now := WithMembers(defs, properties, additional, members, i, path, before);
            WithMembers(defs, properties, additional, members, i + 1, path, before) ==
            if sub.Some? then now + Violations(defs, sub.value, m.value, path + [m.key]) else now
  {
  }

  /** Validate raw JSON, decoded if it is JSON at all, against a compiled schema. */
  method Validate(doc: Document, raw: Option<Json>) returns (violations: seq<Violation>)
    requires Flat(DefsOf(doc.defs))
    ensures raw.None? ==> violations == [Violation("", InvalidJson)]
    ensures raw.Some? ==> violations == Violations(DefsOf(doc.defs), doc.root, raw.value, [])
  {
    if raw.None? {
      return [Violation("", InvalidJson)];
    }
    var v := new Validator(DefsOf(doc.defs));
    v.Check(doc.root, raw.value, []);
    violations := v.out;
  }
}
