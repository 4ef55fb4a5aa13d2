/**
 * The schema compiler and the validator of the Go runtime: Go types become JSON
 * schemas with named structs under "$defs", and a schema is interpreted on a
 * JSON value. This module says what each computes and proves that compiling a
 * type preserves its meaning.
 */
module Schema {

  import opened Wrappers

  // --- Values ---------------------------------------------------------------------------------

  /**
   * A decoded JSON value. `whole` says that a number is finite as a 64-bit float
   * and has no fraction; the members of an object are listed in the order of
   * their keys.
   */
  datatype Json =
    | Null
    | Bool(value: bool)
    | Text(text: string)
    | Number(digits: string, whole: bool)
    | Arr(elements: seq<Json>)
    | Obj(members: seq<Member>)

  datatype Member = Member(key: string, value: Json)

  /** A value as `fmt.Sprint` shows it. */
  function Printed(j: Json): string
    decreases j
  {
    match j
    case Null => "<nil>"
    case Bool(b) => if b then "true" else "false"
    case Text(s) => s
    case Number(d, _) => d
    case Arr(elements) => "[" + PrintedElements(elements) + "]"
    case Obj(members) => "map[" + PrintedMembers(members) + "]"
  }

  function PrintedElements(elements: seq<Json>): string
    decreases elements
  {
    if elements == [] then ""
    else Printed(elements[0]) + (if |elements| == 1 then "" else " ") + PrintedElements(elements[1..])
  }

  function PrintedMembers(members: seq<Member>): string
    decreases members
  {
    if members == [] then ""
    else
      members[0].key + ":" + Printed(members[0].value)
      + (if |members| == 1 then "" else " ") + PrintedMembers(members[1..])
  }

  /** An array is shown as its elements between brackets, with spaces. */
  lemma {:induction false} PrintedArray(elements: seq<Json>)
    ensures Printed(Arr(elements)) ==
            "[" + Join(seq(|elements|, i requires 0 <= i < |elements| => Printed(elements[i])), " ") + "]"
  {
    var parts := seq(|elements|, i requires 0 <= i < |elements| => Printed(elements[i]));
    if |elements| > 1 {
      PrintedArray(elements[1..]);
      var rest := seq(|elements| - 1, i requires 0 <= i < |elements| - 1 => Printed(elements[1..][i]));
      assert parts[1..] == rest;
      Unbracket(PrintedElements(elements[1..]), Join(rest, " "), "[", "]");
    }
  }

  lemma Unbracket(a: string, b: string, open: string, close: string)
    requires open + a + close == open + b + close
    ensures a == b
  {
    assert |a| == |b|;
    assert (open + a + close)[|open|..|open| + |a|] == a && (open + b + close)[|open|..|open| + |b|] == b;
  }

  /** An object is shown as a Go map is. */
  lemma {:induction false} PrintedObject(members: seq<Member>)
    ensures Printed(Obj(members)) ==
            "map[" + Join(seq(|members|, i requires 0 <= i < |members| => members[i].key + ":" + Printed(members[i].value)), " ")
            + "]"
  {
    var parts := seq(|members|, i requires 0 <= i < |members| => members[i].key + ":" + Printed(members[i].value));
    if |members| > 1 {
      PrintedObject(members[1..]);
      var rest := seq(|members| - 1, i requires 0 <= i < |members| - 1 => members[1..][i].key + ":" + Printed(members[1..][i].value));
      assert parts[1..] == rest;
      Unbracket(PrintedMembers(members[1..]), Join(rest, " "), "map[", "]");
    }
  }

  // --- Types ------------------------------------------------------------------------------------

  type TypeId = string

  /**
   * A Go type. `Named` is a named struct, `Record` an unnamed one; `Bytes` is a
   * slice of bytes, `Timestamp` and `Raw` are time.Time and json.RawMessage, and
   * `Any` is an interface or anything else.
   */
  datatype GoType =
    | Timestamp
    | Raw
    | Any
    | String
    | Boolean
    | Integer
    | Float
    | Bytes
    | Pointer(elem: GoType)
    | List(elem: GoType)
    | MapOf(elem: GoType)
    | Record(fields: seq<Field>)
    | Named(id: TypeId)

  /** A field of a struct, after flattening; `enum` is empty without such a tag. */
  datatype Field = Field(name: string, typ: GoType, omitempty: bool, enum: seq<string>)

  /** The declaration of a named struct; two declarations may share a name. */
  datatype Decl = Decl(name: string, fields: seq<Field>)

  type Env = map<TypeId, Decl>

  /** The named structs a type mentions. */
  function Mentions(t: GoType): set<TypeId>
    decreases t
  {
    match t
    case Pointer(e) => Mentions(e)
    case List(e) => Mentions(e)
    case MapOf(e) => Mentions(e)
    case Record(fields) => FieldsMention(fields)
    case Named(id) => {id}
    case _ => {}
  }

  function FieldsMention(fields: seq<Field>): set<TypeId>
    decreases fields
  {
    if fields == [] then {}
    else FieldsMention(fields[..|fields| - 1]) + Mentions(fields[|fields| - 1].typ)
  }

  predicate Closed(env: Env) {
    forall id :: id in env ==> FieldsMention(env[id].fields) <= env.Keys
  }

  // --- What conforming to a type means ------------------------------------------------------------

  /** The last field of that name. */
  function FieldNamed(fields: seq<Field>, name: string): (r: Option<Field>)
    ensures r.Some? ==> r.value in fields && r.value.name == name
    ensures r.None? ==> forall f <- fields :: f.name != name
  {
    if fields == [] then None
    else if fields[|fields| - 1].name == name then Some(fields[|fields| - 1])
    else FieldNamed(fields[..|fields| - 1], name)
  }

  /** A tag that lists values does not bind where the schema is a choice or a reference. */
  predicate EnumAllows(f: Field, j: Json) {
    f.enum == [] || f.typ.Pointer? || f.typ.Named? || Printed(j) in f.enum
  }

  /**
   * `j` is a value of type `t`. Members that no field names are let through, and
   * a field that may be missing may not be null, unless it is a pointer.
   */
  ghost predicate Conforms(env: Env, t: GoType, j: Json)
    requires Closed(env) && Mentions(t) <= env.Keys
    decreases j, t
  {
    match t
    case Timestamp => j.Text?
    case Raw => true
    case Any => true
    case String => j.Text?
    case Boolean => j.Bool?
    case Integer => j.Number? && j.whole
    case Float => j.Number?
    case Bytes => j.Text?
    case Pointer(e) => j.Null? || Conforms(env, e, j)
    case List(e) => j.Arr? && forall x <- j.elements :: Conforms(env, e, x)
    case MapOf(e) => j.Obj? && forall m <- j.members :: Conforms(env, e, m.value)
    case Record(fields) => j.Obj? && StructConforms(env, fields, j.members)
    case Named(id) => j.Obj? && StructConforms(env, env[id].fields, j.members)
  }

  ghost predicate StructConforms(env: Env, fields: seq<Field>, members: seq<Member>)
    requires Closed(env) && FieldsMention(fields) <= env.Keys
    decreases members
  {
    && (forall f <- fields :: !f.omitempty && !f.typ.Pointer? ==> exists m <- members :: m.key == f.name)
    && (forall m <- members :: MemberConforms(env, fields, m))
  }

  ghost predicate MemberConforms(env: Env, fields: seq<Field>, m: Member)
    requires Closed(env) && FieldsMention(fields) <= env.Keys
    decreases m
  {
    var f := FieldNamed(fields, m.key);
    f.Some? ==>
      (FieldMentioned(fields, f.value);
       Conforms(env, f.value.typ, m.value) && EnumAllows(f.value, m.value))
  }

  lemma FieldMentioned(fields: seq<Field>, f: Field)
    requires f in fields
    ensures Mentions(f.typ) <= FieldsMention(fields)
  {
    if f != fields[|fields| - 1] {
      assert f in fields[..|fields| - 1];
      FieldMentioned(fields[..|fields| - 1], f);
    }
  }

  // --- Schemas ------------------------------------------------------------------------------------

  datatype Kind = NullKind | BooleanKind | StringKind | IntegerKind | NumberKind | ArrayKind | ObjectKind

  /**
   * A schema object, without annotations. An absent list is empty, which is
   * what an empty one means as well.
   */
  datatype Schema = Schema(
    ref: Option<string>,
    anyOf: seq<Schema>,
    enum: seq<string>,
    kind: Option<Kind>,
    items: Option<Schema>,
    additional: Option<Schema>,
    properties: seq<Property>,
    required: seq<string>)

  datatype Property = Property(name: string, schema: Schema)

  const PREFIX := "#/$defs/"

  function TrimPrefix(s: string, prefix: string): string {
    if prefix <= s then s[|prefix|..] else s
  }

  function OfKind(kind: Option<Kind>): Schema { Schema(None, [], [], kind, None, None, [], []) }

  function RefTo(name: string): Schema { Schema(Some(PREFIX + name), [], [], None, None, None, [], []) }

  function Choice(options: seq<Schema>): Schema { Schema(None, options, [], None, None, None, [], []) }

  function ObjectSchema(properties: seq<Property>, required: seq<string>): Schema {
    Schema(None, [], [], Some(ObjectKind), None, None, properties, required)
  }

  /** Set a property: a name that is there already keeps its place. */
  function Put(properties: seq<Property>, name: string, schema: Schema): seq<Property> {
    if properties == [] then [Property(name, schema)]
    else if properties[0].name == name then [Property(name, schema)] + properties[1..]
    else [properties[0]] + Put(properties[1..], name, schema)
  }

  function Lookup(properties: seq<Property>, name: string): Option<Schema> {
    if properties == [] then None
    else if properties[0].name == name then Some(properties[0].schema)
    else Lookup(properties[1..], name)
  }

  type Names = map<TypeId, string>

  /** The schema of a type, once its named structs have got their names. */
  function Shape(names: Names, t: GoType): (s: Schema)
    requires Mentions(t) <= names.Keys
    ensures s.enum == []
    decreases t
  {
    match t
    case Timestamp => OfKind(Some(StringKind))
    case Raw => OfKind(None)
    case Any => OfKind(None)
    case String => OfKind(Some(StringKind))
    case Boolean => OfKind(Some(BooleanKind))
    case Integer => OfKind(Some(IntegerKind))
    case Float => OfKind(Some(NumberKind))
    case Bytes => OfKind(Some(StringKind))
    case Pointer(e) => Choice([Shape(names, e), OfKind(Some(NullKind))])
    case List(e) => OfKind(Some(ArrayKind)).(items := Some(Shape(names, e)))
    case MapOf(e) => OfKind(Some(ObjectKind)).(additional := Some(Shape(names, e)))
    case Record(fields) => ObjectShape(names, fields)
    case Named(id) => RefTo(names[id])
  }

  function ObjectShape(names: Names, fields: seq<Field>): Schema
    requires FieldsMention(fields) <= names.Keys
    decreases fields, 1
  {
    ObjectSchema(Properties(names, fields), RequiredNames(fields))
  }

  function Properties(names: Names, fields: seq<Field>): seq<Property>
    requires FieldsMention(fields) <= names.Keys
    decreases fields, 0
  {
    if fields == [] then []
    else
      var f := fields[|fields| - 1];
      Put(Properties(names, fields[..|fields| - 1]), f.name, Shape(names, f.typ).(enum := f.enum))
  }

  /** The compiler lists the field under "required". */
  predicate Required(f: Field) { !f.omitempty && !f.typ.Pointer? }

  function RequiredNames(fields: seq<Field>): seq<string> {
    if fields == [] then []
    else
      var f := fields[|fields| - 1];
      RequiredNames(fields[..|fields| - 1]) + if Required(f) then [f.name] else []
  }

  // --- Validation -----------------------------------------------------------------------------------

  datatype Code = Missing | WrongType | NotListed | InvalidJson

  datatype Violation = Violation(path: string, code: Code)

  type Path = seq<string>

  type Defs = map<string, Schema>

  /** What makes following references end: none leads to another, or to a choice. */
  predicate Flat(defs: Defs) {
    forall name :: name in defs ==> defs[name].ref == None && defs[name].anyOf == []
  }

  /** How far references and choices reach before the value itself is looked at. */
  function Unfolding(s: Schema): nat
    decreases s
  {
    if s.ref.Some? then 1 else Unfoldings(s.anyOf)
  }

  function Unfoldings(options: seq<Schema>): nat
    decreases options
  {
    if options == [] then 0 else 1 + Unfolding(options[0]) + Unfoldings(options[1..])
  }

  lemma OptionUnfolds(options: seq<Schema>, i: nat)
    requires i < |options|
    ensures Unfolding(options[i]) < Unfoldings(options)
  {
    if i > 0 {
      OptionUnfolds(options[1..], i - 1);
    }
  }

  /** Decimal digits; `Itoa(n)` for a path and for the numbered names. */
  function Itoa(n: nat): string {
    if n < 10 then [Digit(n)] else Itoa(n / 10) + [Digit(n % 10)]
  }

  function Digit(d: nat): char
    requires d < 10
  {
    "0123456789"[d]
  }

  function At(path: Path, code: Code): seq<Violation> { [Violation(Join(path, "."), code)] }

  /** The violations of schema `s` by value `j`, in the order in which they are found. */
  function Violations(defs: Defs, s: Schema, j: Json, path: Path): seq<Violation>
    requires Flat(defs)
    decreases j, Unfolding(s), 2
  {
    if s.ref.Some? then
      var name := TrimPrefix(s.ref.value, PREFIX);
      if name in defs then
        assert Unfolding(defs[name]) == 0;
        Violations(defs, defs[name], j, path)
      else []
    else if s.anyOf != [] then
      if AnyFits(defs, s.anyOf, j, path) then [] else At(path, WrongType)
    else if s.enum != [] && Printed(j) !in s.enum then At(path, NotListed)
    else KindViolations(defs, s, j, path)
  }

  /** The last test: the type, and what is inside an array or an object. */
  function KindViolations(defs: Defs, s: Schema, j: Json, path: Path): seq<Violation>
    requires Flat(defs)
    decreases j, 0, 0
  {
    match s.kind
    case None => []
    case Some(NullKind) => if j.Null? then [] else At(path, WrongType)
    case Some(StringKind) => if j.Text? then [] else At(path, WrongType)
    case Some(BooleanKind) => if j.Bool? then [] else At(path, WrongType)
    case Some(IntegerKind) => if j.Number? && j.whole then [] else At(path, WrongType)
    case Some(NumberKind) => if j.Number? then [] else At(path, WrongType)
    case Some(ArrayKind) =>
      if !j.Arr? then At(path, WrongType)
      else if s.items.None? then []
      else ElementViolations(defs, s.items.value, j.elements, |j.elements|, path)
    case Some(ObjectKind) =>
      if !j.Obj? then At(path, WrongType)
      else
        Missings(s.required, |s.required|, j.members, path)
        + MemberViolations(defs, s.properties, s.additional, j.members, |j.members|, path)
  }

  predicate AnyFits(defs: Defs, options: seq<Schema>, j: Json, path: Path)
    requires Flat(defs)
    decreases j, Unfoldings(options), 1
  {
    exists i :: 0 <= i < |options| && Fits(defs, options, i, j, path)
  }

  /** The `i`-th alternative of a choice reports nothing. */
  predicate Fits(defs: Defs, options: seq<Schema>, i: nat, j: Json, path: Path)
    requires Flat(defs) && i < |options|
    decreases j, Unfoldings(options), 0
  {
    OptionUnfolds(options, i);
    Violations(defs, options[i], j, path) == []
  }

  /** The violations of the first `n` elements. */
  function ElementViolations(defs: Defs, item: Schema, elements: seq<Json>, n: nat, path: Path): seq<Violation>
    requires Flat(defs) && n <= |elements|
    decreases elements, n
  {
    if n == 0 then []
    else
      ElementViolations(defs, item, elements, n - 1, path)
      + Violations(defs, item, elements[n - 1], path + [Itoa(n - 1)])
  }

  /** The validator finds the key in the object. */
  predicate HasKey(members: seq<Member>, name: string) { exists m <- members :: m.key == name }

  /** The first `n` required names that are missing. */
  function Missings(required: seq<string>, n: nat, members: seq<Member>, path: Path): seq<Violation>
    requires n <= |required|
  {
    if n == 0 then []
    else
      Missings(required, n - 1, members, path)
      + if HasKey(members, required[n - 1]) then [] else At(path + [required[n - 1]], Missing)
  }

  /** The schema a member is checked against, if any. */
  function MemberSchema(properties: seq<Property>, additional: Option<Schema>, key: string): Option<Schema> {
    var p := Lookup(properties, key);
    if p.Some? then p else additional
  }

  /** The violations of the first `n` members. */
  function MemberViolations(defs: Defs, properties: seq<Property>, additional: Option<Schema>,
                            members: seq<Member>, n: nat, path: Path): seq<Violation>
    requires Flat(defs) && n <= |members|
    decreases members, n
  {
    if n == 0 then []
    else
      var m := members[n - 1];
      var sub := MemberSchema(properties, additional, m.key);
      MemberViolations(defs, properties, additional, members, n - 1, path)
      + if sub.Some? then Violations(defs, sub.value, m.value, path + [m.key]) else []
  }

  // --- A compiled type means what the type means ------------------------------------------------------

  /** Every definition is the object schema of the struct of that name. */
  predicate Resolves(env: Env, names: Names, defs: Defs)
    requires Closed(env)
  {
    && names.Keys <= env.Keys
    && (forall id :: id in names ==>
          && FieldsMention(env[id].fields) <= names.Keys
          && names[id] in defs
          && defs[names[id]] == ObjectShape(names, env[id].fields))
  }

  ghost predicate ElementClean(defs: Defs, item: Schema, elements: seq<Json>, i: nat, path: Path)
    requires Flat(defs) && i < |elements|
  {
    Violations(defs, item, elements[i], path + [Itoa(i)]) == []
  }

  ghost predicate MemberClean(defs: Defs, properties: seq<Property>, additional: Option<Schema>, m: Member, path: Path)
    requires Flat(defs)
  {
    var sub := MemberSchema(properties, additional, m.key);
    sub.Some? ==> Violations(defs, sub.value, m.value, path + [m.key]) == []
  }

  lemma {:induction false} ElementsClean(defs: Defs, item: Schema, elements: seq<Json>, n: nat, path: Path)
    requires Flat(defs) && n <= |elements|
    ensures ElementViolations(defs, item, elements, n, path) == []
       <==> forall i :: 0 <= i < n ==> ElementClean(defs, item, elements, i, path)
  {
    if n > 0 {
      ElementsClean(defs, item, elements, n - 1, path);
      assert ElementClean(defs, item, elements, n - 1, path) <==>
             Violations(defs, item, elements[n - 1], path + [Itoa(n - 1)]) == [];
    }
  }

  lemma {:induction false} MembersClean(defs: Defs, properties: seq<Property>, additional: Option<Schema>,
                                        members: seq<Member>, n: nat, path: Path)
    requires Flat(defs) && n <= |members|
    ensures MemberViolations(defs, properties, additional, members, n, path) == []
       <==> forall i :: 0 <= i < n ==> MemberClean(defs, properties, additional, members[i], path)
  {
    if n > 0 {
      MembersClean(defs, properties, additional, members, n - 1, path);
    }
  }

  lemma {:induction false} MissingsClean(required: seq<string>, n: nat, members: seq<Member>, path: Path)
    requires n <= |required|
    ensures Missings(required, n, members, path) == [] <==> forall i :: 0 <= i < n ==> HasKey(members, required[i])
  {
    if n > 0 {
      MissingsClean(required, n - 1, members, path);
    }
  }

  lemma {:induction false} LookupPut(properties: seq<Property>, name: string, schema: Schema, key: string)
    ensures Lookup(Put(properties, name, schema), key) == if key == name then Some(schema) else Lookup(properties, key)
  {
    if properties != [] && properties[0].name != name {
      LookupPut(properties[1..], name, schema, key);
      var rest := Put(properties[1..], name, schema);
      assert ([properties[0]] + rest)[1..] == rest;
    } else if properties != [] {
      assert ([Property(name, schema)] + properties[1..])[1..] == properties[1..];
    }
  }

  /** A property is there for the last field of its name. */
  lemma {:induction false} LookupProperties(names: Names, fields: seq<Field>, key: string)
    requires FieldsMention(fields) <= names.Keys
    ensures var f := FieldNamed(fields, key);
            && (f.None? ==> Lookup(Properties(names, fields), key) == None)
            && (f.Some? ==>
                  && Mentions(f.value.typ) <= names.Keys
                  && Lookup(Properties(names, fields), key) == Some(Shape(names, f.value.typ).(enum := f.value.enum)))
  {
    if fields != [] {
      var init, last := fields[..|fields| - 1], fields[|fields| - 1];
      LookupProperties(names, init, key);
      LookupPut(Properties(names, init), last.name, Shape(names, last.typ).(enum := last.enum), key);
    }
  }

  /** The names listed are those of the fields that are neither pointers nor may be omitted. */
  lemma {:induction false} RequiredExactly(fields: seq<Field>, name: string)
    ensures name in RequiredNames(fields) <==> exists f <- fields :: f.name == name && !f.omitempty && !f.typ.Pointer?
  {
    if fields != [] {
      var init, last := fields[..|fields| - 1], fields[|fields| - 1];
      RequiredExactly(init, name);
      assert fields == init + [last];
      if f :| f in init && f.name == name && !f.omitempty && !f.typ.Pointer? {
        assert f in fields;
      }
    }
  }

  lemma RequiredListed(fields: seq<Field>, members: seq<Member>)
    ensures (forall i :: 0 <= i < |RequiredNames(fields)| ==> HasKey(members, RequiredNames(fields)[i]))
       <==> (forall f <- fields :: !f.omitempty && !f.typ.Pointer? ==> exists m <- members :: m.key == f.name)
  {
    var names := RequiredNames(fields);
    forall f | f in fields && !f.omitempty && !f.typ.Pointer? ensures f.name in names {
      RequiredExactly(fields, f.name);
    }
    forall name | name in names ensures exists f <- fields :: f.name == name && !f.omitempty && !f.typ.Pointer? {
      RequiredExactly(fields, name);
    }
  }

  /** An enumeration is looked at after references and choices, and before the type. */
  lemma EnumFirst(defs: Defs, s: Schema, enum: seq<string>, j: Json, path: Path)
    requires Flat(defs) && s.enum == []
    ensures Violations(defs, s.(enum := enum), j, path) ==
            if s.ref.None? && s.anyOf == [] && enum != [] && Printed(j) !in enum then At(path, NotListed)
            else Violations(defs, s, j, path)
  {
  }

  /** A tag that lists values has no effect on a pointer or a named struct, whatever it lists. */
  lemma EnumShadowed(names: Names, defs: Defs, f: Field, j: Json, path: Path)
    requires Flat(defs) && Mentions(f.typ) <= names.Keys && (f.typ.Pointer? || f.typ.Named?)
    ensures Violations(defs, Shape(names, f.typ).(enum := f.enum), j, path) == Violations(defs, Shape(names, f.typ), j, path)
  {
    EnumFirst(defs, Shape(names, f.typ), f.enum, j, path);
  }

  /** So an optional field takes a value that its tag does not list, and a required one does not. */
  lemma EnumOnPointer(path: Path)
    ensures var j, enum := Text("blue"), ["red"];
            && Violations(map[], Shape(map[], Pointer(String)).(enum := enum), j, path) == []
            && Violations(map[], Shape(map[], String).(enum := enum), j, path) == At(path, NotListed)
  {
    var j, enum := Text("blue"), ["red"];
    assert Printed(j) == "blue" && "blue" !in enum by { assert "blue"[0] == 'b' && "red"[0] == 'r'; }
    EnumShadowed(map[], map[], Field("color", Pointer(String), false, enum), j, path);
    assert Fits(map[], Shape(map[], Pointer(String)).anyOf, 0, j, path);
  }

  /** What a tag that lists values means for the scalars: the listed text, as JSON shows it. */
  lemma EnumOnScalars(enum: seq<string>, j: Json, path: Path)
    requires enum != []
    ensures Violations(map[], Shape(map[], String).(enum := enum), j, path) == [] <==> j.Text? && j.text in enum
    ensures Violations(map[], Shape(map[], Boolean).(enum := enum), j, path) == [] <==>
            j.Bool? && (if j.value then "true" else "false") in enum
    ensures Violations(map[], Shape(map[], Integer).(enum := enum), j, path) == [] <==>
            j.Number? && j.whole && j.digits in enum
    ensures Violations(map[], Shape(map[], Any).(enum := enum), Null, path) == [] <==> "<nil>" in enum
  {
    EnumFirst(map[], Shape(map[], String), enum, j, path);
    EnumFirst(map[], Shape(map[], Boolean), enum, j, path);
    EnumFirst(map[], Shape(map[], Integer), enum, j, path);
    EnumFirst(map[], Shape(map[], Any), enum, Null, path);
  }

  ghost predicate Ready(env: Env, names: Names, defs: Defs) {
    Closed(env) && Resolves(env, names, defs) && Flat(defs)
  }

  lemma ListByIndex(env: Env, e: GoType, elements: seq<Json>)
    requires Closed(env) && Mentions(e) <= env.Keys
    ensures Conforms(env, List(e), Arr(elements)) <==> forall i :: 0 <= i < |elements| ==> Conforms(env, e, elements[i])
  {
    assert forall i :: 0 <= i < |elements| ==> elements[i] in elements;
  }

  lemma MapByIndex(env: Env, e: GoType, members: seq<Member>)
    requires Closed(env) && Mentions(e) <= env.Keys
    ensures Conforms(env, MapOf(e), Obj(members))
       <==> forall i :: 0 <= i < |members| ==> Conforms(env, e, members[i].value)
  {
    assert forall i :: 0 <= i < |members| ==> members[i] in members;
  }

  lemma ListMeansElements(env: Env, defs: Defs, e: GoType, item: Schema, j: Json, path: Path)
    requires Flat(defs) && Closed(env) && Mentions(e) <= env.Keys && j.Arr?
    requires forall i :: 0 <= i < |j.elements| ==>
               (ElementClean(defs, item, j.elements, i, path) <==> Conforms(env, e, j.elements[i]))
    ensures Violations(defs, OfKind(Some(ArrayKind)).(items := Some(item)), j, path) == [] <==> Conforms(env, List(e), j)
  {
    ElementsClean(defs, item, j.elements, |j.elements|, path);
    ListByIndex(env, e, j.elements);
  }

  lemma MapMeansMembers(env: Env, defs: Defs, e: GoType, item: Schema, j: Json, path: Path)
    requires Flat(defs) && Closed(env) && Mentions(e) <= env.Keys && j.Obj?
    requires forall i :: 0 <= i < |j.members| ==>
               (MemberClean(defs, [], Some(item), j.members[i], path) <==> Conforms(env, e, j.members[i].value))
    ensures Violations(defs, OfKind(Some(ObjectKind)).(additional := Some(item)), j, path) == []
       <==> Conforms(env, MapOf(e), j)
  {
    MembersClean(defs, [], Some(item), j.members, |j.members|, path);
    MapByIndex(env, e, j.members);
  }

  lemma ScalarMeansType(env: Env, names: Names, defs: Defs, t: GoType, j: Json, path: Path)
    requires Flat(defs) && Closed(env) && Mentions(t) <= names.Keys && names.Keys <= env.Keys
    requires !t.Pointer? && !t.Record? && !t.Named? && (t.List? ==> !j.Arr?) && (t.MapOf? ==> !j.Obj?)
    ensures Violations(defs, Shape(names, t), j, path) == [] <==> Conforms(env, t, j)
  {
  }

  lemma RefMeansDefinition(env: Env, names: Names, defs: Defs, id: TypeId, j: Json, path: Path)
    requires Ready(env, names, defs) && id in names
    ensures Violations(defs, Shape(names, Named(id)), j, path)
         == Violations(defs, ObjectShape(names, env[id].fields), j, path)
  {
    assert TrimPrefix(PREFIX + names[id], PREFIX) == names[id];
  }

  lemma ObjectOnly(defs: Defs, names: Names, fields: seq<Field>, j: Json, path: Path)
    requires Flat(defs) && FieldsMention(fields) <= names.Keys && !j.Obj?
    ensures Violations(defs, ObjectShape(names, fields), j, path) != []
  {
  }

  /**
   * Compiling preserves meaning: a value has no violation of a type's schema
   * exactly when it is a value of the type.
   */
  lemma {:induction false} ShapeMeansType(env: Env, names: Names, defs: Defs, t: GoType, j: Json, path: Path)
    requires Ready(env, names, defs) && Mentions(t) <= names.Keys
    ensures Violations(defs, Shape(names, t), j, path) == [] <==> Conforms(env, t, j)
    decreases j, t, 1
  {
    if t.Pointer? {
      ShapeMeansType(env, names, defs, t.elem, j, path);
      ChoiceMeansEither(defs, Shape(names, t.elem), j, path);
    } else if t.List? && j.Arr? {
      forall i | 0 <= i < |j.elements|
        ensures ElementClean(defs, Shape(names, t.elem), j.elements, i, path) <==> Conforms(env, t.elem, j.elements[i])
      {
        ShapeMeansType(env, names, defs, t.elem, j.elements[i], path + [Itoa(i)]);
      }
      ListMeansElements(env, defs, t.elem, Shape(names, t.elem), j, path);
    } else if t.MapOf? && j.Obj? {
      forall i | 0 <= i < |j.members|
        ensures MemberClean(defs, [], Some(Shape(names, t.elem)), j.members[i], path)
           <==> Conforms(env, t.elem, j.members[i].value)
      {
        ShapeMeansType(env, names, defs, t.elem, j.members[i].value, path + [j.members[i].key]);
      }
      MapMeansMembers(env, defs, t.elem, Shape(names, t.elem), j, path);
    } else if t.Record? {
      if j.Obj? {
        StructMeansFields(env, names, defs, t.fields, j.members, path);
      } else {
        ObjectOnly(defs, names, t.fields, j, path);
      }
    } else if t.Named? {
      RefMeansDefinition(env, names, defs, t.id, j, path);
      if j.Obj? {
        StructMeansFields(env, names, defs, env[t.id].fields, j.members, path);
      } else {
        ObjectOnly(defs, names, env[t.id].fields, j, path);
      }
    } else {
      ScalarMeansType(env, names, defs, t, j, path);
    }
  }

  lemma ChoiceMeansEither(defs: Defs, s: Schema, j: Json, path: Path)
    requires Flat(defs)
    ensures Violations(defs, Choice([s, OfKind(Some(NullKind))]), j, path) == []
       <==> Violations(defs, s, j, path) == [] || j.Null?
  {
    var options := [s, OfKind(Some(NullKind))];
    assert Fits(defs, options, 0, j, path) <==> Violations(defs, s, j, path) == [];
    assert Fits(defs, options, 1, j, path) <==> Violations(defs, OfKind(Some(NullKind)), j, path) == [];
  }

  lemma ObjectUnfolds(defs: Defs, names: Names, fields: seq<Field>, members: seq<Member>, path: Path)
    requires Flat(defs) && FieldsMention(fields) <= names.Keys
    ensures var required := RequiredNames(fields);
            Violations(defs, ObjectShape(names, fields), Obj(members), path) ==
            Missings(required, |required|, members, path)
            + MemberViolations(defs, Properties(names, fields), None, members, |members|, path)
  {
  }

  lemma ObjectViolations(defs: Defs, names: Names, fields: seq<Field>, members: seq<Member>, path: Path)
    requires Flat(defs) && FieldsMention(fields) <= names.Keys
    ensures Violations(defs, ObjectShape(names, fields), Obj(members), path) == []
       <==> && (forall f <- fields :: !f.omitempty && !f.typ.Pointer? ==> exists m <- members :: m.key == f.name)
            && (forall i :: 0 <= i < |members| ==> MemberClean(defs, Properties(names, fields), None, members[i], path))
  {
    var required := RequiredNames(fields);
    ObjectUnfolds(defs, names, fields, members, path);
    MissingsClean(required, |required|, members, path);
    RequiredListed(fields, members);
    MembersClean(defs, Properties(names, fields), None, members, |members|, path);
  }

  lemma {:induction false} StructMeansFields(env: Env, names: Names, defs: Defs, fields: seq<Field>, members: seq<Member>, path: Path)
    requires Ready(env, names, defs) && FieldsMention(fields) <= names.Keys
    ensures Violations(defs, ObjectShape(names, fields), Obj(members), path) == [] <==> StructConforms(env, fields, members)
    decreases members, 0, 0
  {
    ObjectViolations(defs, names, fields, members, path);
    forall i | 0 <= i < |members|
      ensures MemberClean(defs, Properties(names, fields), None, members[i], path) <==> MemberConforms(env, fields, members[i])
    {
      MemberMeansField(env, names, defs, fields, members[i], path);
    }
    MembersByIndex(env, fields, members);
  }

  lemma MembersByIndex(env: Env, fields: seq<Field>, members: seq<Member>)
    requires Closed(env) && FieldsMention(fields) <= env.Keys
    ensures (forall m <- members :: MemberConforms(env, fields, m))
       <==> forall i :: 0 <= i < |members| ==> MemberConforms(env, fields, members[i])
  {
    assert forall i :: 0 <= i < |members| ==> members[i] in members;
  }

  lemma MemberMeansField(env: Env, names: Names, defs: Defs, fields: seq<Field>, m: Member, path: Path)
    requires Ready(env, names, defs) && FieldsMention(fields) <= names.Keys
    ensures MemberClean(defs, Properties(names, fields), None, m, path) <==> MemberConforms(env, fields, m)
    decreases m, 0, 0
  {
    LookupProperties(names, fields, m.key);
    var f := FieldNamed(fields, m.key);
    if f.Some? {
      ShapeMeansType(env, names, defs, f.value.typ, m.value, path + [m.key]);
      EnumFirst(defs, Shape(names, f.value.typ), f.value.enum, m.value, path + [m.key]);
    }
  }
}
