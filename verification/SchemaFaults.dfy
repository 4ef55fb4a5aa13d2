/**
 * What is wrong with a value, place by place: a declarative reading of schemas
 * beside the validator that walks through them. A fault is a place in the
 * value, given by the steps that lead to it, and what is wrong there.
 */
module SchemaFaults {

  import opened Wrappers
  import opened Schema

  /** A member of that name is checked against this schema: its property, or else the one for additional members. */
  ghost predicate Governs(properties: seq<Property>, additional: Option<Schema>, key: string, sub: Schema) {
    || (exists i :: 0 <= i < |properties| && FirstOf(properties, key, i) && properties[i].schema == sub)
    || (additional == Some(sub) && forall p <- properties :: p.name != key)
  }

  ghost predicate FirstOf(properties: seq<Property>, key: string, i: nat)
    requires i < |properties|
  {
    properties[i].name == key && forall k :: 0 <= k < i ==> properties[k].name != key
  }

  predicate RightKind(kind: Kind, j: Json) {
    match kind
    case NullKind => j.Null?
    case BooleanKind => j.Bool?
    case StringKind => j.Text?
    case IntegerKind => j.Number? && j.whole
    case NumberKind => j.Number?
    case ArrayKind => j.Arr?
    case ObjectKind => j.Obj?
  }

  /**
   * Value `j` is at fault under schema `s`: the steps lead to the value, or to
   * the missing member, that the code is about.
   */
  ghost predicate Fault(defs: Defs, s: Schema, j: Json, steps: Path, code: Code)
    requires Flat(defs)
    decreases j, Unfolding(s), 3
  {
    if s.ref.Some? then
      var name := TrimPrefix(s.ref.value, PREFIX);
      name in defs && (assert Unfolding(defs[name]) == 0; Fault(defs, defs[name], j, steps, code))
    else if s.anyOf != [] then
      steps == [] && code == WrongType && AllFaulty(defs, s.anyOf, j)
    else if s.enum != [] && Printed(j) !in s.enum then steps == [] && code == NotListed
    else if s.kind.None? then false
    else if !RightKind(s.kind.value, j) then steps == [] && code == WrongType
    else InnerFault(defs, s, j, steps, code)
  }

  ghost predicate AllFaulty(defs: Defs, options: seq<Schema>, j: Json)
    requires Flat(defs)
    decreases j, Unfoldings(options), 1
  {
    forall i :: 0 <= i < |options| ==> OptionFaulty(defs, options, i, j)
  }

  /** The alternative has some fault. */
  ghost predicate OptionFaulty(defs: Defs, options: seq<Schema>, i: nat, j: Json)
    requires Flat(defs) && i < |options|
    decreases j, Unfoldings(options), 0
  {
    OptionUnfolds(options, i);
    exists steps, code :: Fault(defs, options[i], j, steps, code)
  }

  /** A fault inside an array or an object. */
  ghost predicate InnerFault(defs: Defs, s: Schema, j: Json, steps: Path, code: Code)
    requires Flat(defs)
    decreases j, 0, 2
  {
    && steps != []
    && match s.kind
       case Some(ArrayKind) =>
         j.Arr? && s.items.Some?
         && exists i :: 0 <= i < |j.elements| && ElementFault(defs, s.items.value, j.elements, i, steps, code)
       case Some(ObjectKind) =>
         j.Obj?
         && (|| (code == Missing && |steps| == 1 && steps[0] in s.required && forall m <- j.members :: m.key != steps[0])
             || exists i :: 0 <= i < |j.members| && MemberFault(defs, s, j.members, i, steps, code))
       case _ => false
  }

  ghost predicate ElementFault(defs: Defs, item: Schema, elements: seq<Json>, i: nat, steps: Path, code: Code)
    requires Flat(defs) && i < |elements| && steps != []
    decreases elements, 1
  {
    steps[0] == Itoa(i) && Fault(defs, item, elements[i], steps[1..], code)
  }

  ghost predicate MemberFault(defs: Defs, s: Schema, members: seq<Member>, i: nat, steps: Path, code: Code)
    requires Flat(defs) && i < |members| && steps != []
    decreases members, 1
  {
    && steps[0] == members[i].key
    && exists sub :: Governs(s.properties, s.additional, members[i].key, sub)
                     && Fault(defs, sub, members[i].value, steps[1..], code)
  }

  /** The violation tells of a fault below `path`. */
  ghost predicate Tells(defs: Defs, s: Schema, j: Json, path: Path, v: Violation)
    requires Flat(defs)
  {
    exists steps, code :: Fault(defs, s, j, steps, code) && v == Violation(Join(path + steps, "."), code)
  }

  // --- The validator finds the faults, and nothing else -------------------------------------------------

  lemma {:induction false} GovernsIsMemberSchema(properties: seq<Property>, additional: Option<Schema>, key: string, sub: Schema)
    ensures Governs(properties, additional, key, sub) <==> MemberSchema(properties, additional, key) == Some(sub)
  {
    LookupIsFirst(properties, key);
  }

  lemma {:induction false} LookupIsFirst(properties: seq<Property>, key: string)
    ensures Lookup(properties, key).None? <==> forall p <- properties :: p.name != key
    ensures forall i :: 0 <= i < |properties| && FirstOf(properties, key, i) ==> Lookup(properties, key) == Some(properties[i].schema)
    ensures Lookup(properties, key).Some? ==> exists i :: 0 <= i < |properties| && FirstOf(properties, key, i)
  {
    if properties != [] {
      LookupIsFirst(properties[1..], key);
      assert properties == [properties[0]] + properties[1..];
      if properties[0].name == key {
        assert FirstOf(properties, key, 0);
      } else {
        forall i | 0 <= i < |properties| && FirstOf(properties, key, i)
          ensures Lookup(properties, key) == Some(properties[i].schema)
        {
          assert FirstOf(properties[1..], key, i - 1);
        }
        if Lookup(properties, key).Some? {
          var i :| 0 <= i < |properties[1..]| && FirstOf(properties[1..], key, i);
          assert FirstOf(properties, key, i + 1);
        }
      }
    }
  }

  lemma StepsOnward(path: Path, steps: Path)
    requires steps != []
    ensures path + steps == (path + [steps[0]]) + steps[1..]
  {
  }

  ghost predicate ElementTells(defs: Defs, item: Schema, elements: seq<Json>, i: nat, path: Path, v: Violation)
    requires Flat(defs) && i < |elements|
  {
    v in Violations(defs, item, elements[i], path + [Itoa(i)])
  }

  lemma {:induction false} ElementsListed(defs: Defs, item: Schema, elements: seq<Json>, n: nat, path: Path, v: Violation)
    requires Flat(defs) && n <= |elements|
    ensures v in ElementViolations(defs, item, elements, n, path)
       <==> exists i :: 0 <= i < n && ElementTells(defs, item, elements, i, path, v)
  {
    if n > 0 {
      ElementsListed(defs, item, elements, n - 1, path, v);
      LastElement(defs, item, elements, n, path, v);
    }
  }

  lemma LastElement(defs: Defs, item: Schema, elements: seq<Json>, n: nat, path: Path, v: Violation)
    requires Flat(defs) && 0 < n <= |elements|
    ensures v in ElementViolations(defs, item, elements, n, path)
       <==> v in ElementViolations(defs, item, elements, n - 1, path) || ElementTells(defs, item, elements, n - 1, path, v)
  {
  }

  lemma {:induction false} MembersListed(
    defs: Defs, properties: seq<Property>, additional: Option<Schema>, members: seq<Member>, n: nat, path: Path, v: Violation)
    requires Flat(defs) && n <= |members|
    ensures v in MemberViolations(defs, properties, additional, members, n, path)
       <==> exists i :: 0 <= i < n && MemberTells(defs, properties, additional, members[i], path, v)
  {
    if n > 0 { MembersListed(defs, properties, additional, members, n - 1, path, v); }
  }

  ghost predicate MemberTells(
    defs: Defs, properties: seq<Property>, additional: Option<Schema>, m: Member, path: Path, v: Violation)
    requires Flat(defs)
  {
    var sub := MemberSchema(properties, additional, m.key);
    sub.Some? && v in Violations(defs, sub.value, m.value, path + [m.key])
  }

  lemma {:induction false} MissingsListed(required: seq<string>, n: nat, members: seq<Member>, path: Path, v: Violation)
    requires n <= |required|
    ensures v in Missings(required, n, members, path)
       <==> exists i :: 0 <= i < n && (forall m <- members :: m.key != required[i])
                        && v == Violation(Join(path + [required[i]], "."), Missing)
  {
    if n > 0 { MissingsListed(required, n - 1, members, path, v); }
  }

  /** Neither a reference nor a choice, and no fault of the value itself. */
  ghost predicate Opens(s: Schema, j: Json) {
    && s.ref.None? && s.anyOf == [] && (s.enum == [] || Printed(j) in s.enum)
    && s.kind.Some? && RightKind(s.kind.value, j)
  }

  lemma FaultInside(defs: Defs, s: Schema, j: Json, steps: Path, code: Code)
    requires Flat(defs) && Opens(s, j)
    ensures Fault(defs, s, j, steps, code) <==> InnerFault(defs, s, j, steps, code)
  {
  }

  lemma FaultHere(defs: Defs, s: Schema, j: Json, steps: Path, code: Code)
    requires Flat(defs) && s.ref.None? && s.anyOf == [] && !Opens(s, j)
    ensures Fault(defs, s, j, steps, code) <==>
            && steps == []
            && if s.enum != [] && Printed(j) !in s.enum then code == NotListed else s.kind.Some? && code == WrongType
  {
  }

  lemma ChoiceFault(defs: Defs, s: Schema, j: Json, steps: Path, code: Code)
    requires Flat(defs) && s.ref.None? && s.anyOf != []
    ensures Fault(defs, s, j, steps, code) <==>
            steps == [] && code == WrongType && AllFaulty(defs, s.anyOf, j)
  {
  }

  /** Faults of the elements, from the array. */
  lemma ElementFaults(defs: Defs, s: Schema, j: Json, path: Path, v: Violation)
    requires Flat(defs) && Opens(s, j) && s.kind == Some(ArrayKind) && s.items.Some?
    ensures Tells(defs, s, j, path, v)
       <==> exists i :: 0 <= i < |j.elements| && Tells(defs, s.items.value, j.elements[i], path + [Itoa(i)], v)
  {
    var item := s.items.value;
    if Tells(defs, s, j, path, v) {
      var steps, code :| Fault(defs, s, j, steps, code) && v == Violation(Join(path + steps, "."), code);
      FaultInside(defs, s, j, steps, code);
      var i :| 0 <= i < |j.elements| && ElementFault(defs, item, j.elements, i, steps, code);
      StepsOnward(path, steps);
      assert Tells(defs, item, j.elements[i], path + [Itoa(i)], v);
    }
    if i :| 0 <= i < |j.elements| && Tells(defs, item, j.elements[i], path + [Itoa(i)], v) {
      var rest, code :| Fault(defs, item, j.elements[i], rest, code) && v == Violation(Join((path + [Itoa(i)]) + rest, "."), code);
      var steps := [Itoa(i)] + rest;
      StepsOnward(path, steps);
      assert steps[1..] == rest;
      assert ElementFault(defs, item, j.elements, i, steps, code);
      FaultInside(defs, s, j, steps, code);
    }
  }

  /** A fault of the member, told from its object. */
  ghost predicate MemberHasFault(defs: Defs, s: Schema, m: Member, path: Path, v: Violation)
    requires Flat(defs)
  {
    exists sub :: Governs(s.properties, s.additional, m.key, sub) && Tells(defs, sub, m.value, path + [m.key], v)
  }

  ghost predicate IsMissing(required: seq<string>, members: seq<Member>, path: Path, v: Violation) {
    exists i :: 0 <= i < |required| && (forall m <- members :: m.key != required[i])
                && v == Violation(Join(path + [required[i]], "."), Missing)
  }

  ghost predicate AtObject(s: Schema, j: Json) { Opens(s, j) && s.kind == Some(ObjectKind) }

  lemma ObjectFaults(defs: Defs, s: Schema, j: Json, path: Path, v: Violation)
    requires Flat(defs) && AtObject(s, j)
    ensures Tells(defs, s, j, path, v) ==>
              || IsMissing(s.required, j.members, path, v)
              || exists i :: 0 <= i < |j.members| && MemberHasFault(defs, s, j.members[i], path, v)
  {
    if Tells(defs, s, j, path, v) {
      var steps, code :| Fault(defs, s, j, steps, code) && v == Violation(Join(path + steps, "."), code);
      FaultInside(defs, s, j, steps, code);
      StepsOnward(path, steps);
      if code == Missing && |steps| == 1 && steps[0] in s.required && forall m <- j.members :: m.key != steps[0] {
        var i :| 0 <= i < |s.required| && s.required[i] == steps[0];
        assert steps == [s.required[i]];
        assert IsMissing(s.required, j.members, path, v);
      } else {
        var i :| 0 <= i < |j.members| && MemberFault(defs, s, j.members, i, steps, code);
        MemberFaultTells(defs, s, j.members, i, steps, code, path, v);
      }
    }
  }

  lemma MemberFaultTells(
    defs: Defs, s: Schema, members: seq<Member>, i: nat, steps: Path, code: Code, path: Path, v: Violation)
    requires Flat(defs) && i < |members| && steps != [] && MemberFault(defs, s, members, i, steps, code)
    requires v == Violation(Join(path + steps, "."), code)
    ensures MemberHasFault(defs, s, members[i], path, v)
  {
    var sub :| Governs(s.properties, s.additional, members[i].key, sub)
               && Fault(defs, sub, members[i].value, steps[1..], code);
    StepsOnward(path, steps);
    assert Tells(defs, sub, members[i].value, path + [members[i].key], v);
  }

  lemma MissingIsFault(defs: Defs, s: Schema, j: Json, path: Path, v: Violation)
    requires Flat(defs) && AtObject(s, j) && IsMissing(s.required, j.members, path, v)
    ensures Tells(defs, s, j, path, v)
  {
    var i :| 0 <= i < |s.required| && (forall m <- j.members :: m.key != s.required[i])
             && v == Violation(Join(path + [s.required[i]], "."), Missing);
    FaultInside(defs, s, j, [s.required[i]], Missing);
  }

  lemma MemberIsFault(defs: Defs, s: Schema, j: Json, i: nat, path: Path, v: Violation)
    requires Flat(defs) && AtObject(s, j) && i < |j.members| && MemberHasFault(defs, s, j.members[i], path, v)
    ensures Tells(defs, s, j, path, v)
  {
    var m := j.members[i];
    var sub :| Governs(s.properties, s.additional, m.key, sub) && Tells(defs, sub, m.value, path + [m.key], v);
    var rest, code :| Fault(defs, sub, m.value, rest, code) && v == Violation(Join((path + [m.key]) + rest, "."), code);
    var steps := [m.key] + rest;
    StepsOnward(path, steps);
    assert steps[1..] == rest;
    assert MemberFault(defs, s, j.members, i, steps, code);
    FaultInside(defs, s, j, steps, code);
  }

  lemma ObjectViolationsListed(defs: Defs, s: Schema, j: Json, path: Path, v: Violation)
    requires Flat(defs) && AtObject(s, j)
    ensures v in Violations(defs, s, j, path)
       <==> || IsMissing(s.required, j.members, path, v)
            || exists i :: 0 <= i < |j.members| && MemberTells(defs, s.properties, s.additional, j.members[i], path, v)
  {
    MissingsListed(s.required, |s.required|, j.members, path, v);
    MembersListed(defs, s.properties, s.additional, j.members, |j.members|, path, v);
  }

  lemma ObjectViolationsAreFaults(defs: Defs, s: Schema, j: Json, path: Path, v: Violation)
    requires Flat(defs) && AtObject(s, j)
    requires forall i :: 0 <= i < |j.members| ==>
               (MemberTells(defs, s.properties, s.additional, j.members[i], path, v)
                <==> MemberHasFault(defs, s, j.members[i], path, v))
    ensures v in Violations(defs, s, j, path) <==> Tells(defs, s, j, path, v)
  {
    ObjectViolationsListed(defs, s, j, path, v);
    ObjectFaults(defs, s, j, path, v);
    if IsMissing(s.required, j.members, path, v) {
      MissingIsFault(defs, s, j, path, v);
    } else if i :| 0 <= i < |j.members| && MemberHasFault(defs, s, j.members[i], path, v) {
      MemberIsFault(defs, s, j, i, path, v);
    }
  }

  lemma ArrayViolationsAreFaults(defs: Defs, s: Schema, j: Json, path: Path, v: Violation)
    requires Flat(defs) && Opens(s, j) && s.kind == Some(ArrayKind) && s.items.Some?
    requires forall i :: 0 <= i < |j.elements| ==>
               (ElementTells(defs, s.items.value, j.elements, i, path, v)
                <==> Tells(defs, s.items.value, j.elements[i], path + [Itoa(i)], v))
    ensures v in Violations(defs, s, j, path) <==> Tells(defs, s, j, path, v)
  {
    ElementsListed(defs, s.items.value, j.elements, |j.elements|, path, v);
    ElementFaults(defs, s, j, path, v);
  }

  lemma ChoiceViolationsAreFaults(defs: Defs, s: Schema, j: Json, path: Path, v: Violation)
    requires Flat(defs) && s.ref.None? && s.anyOf != []
    requires forall i :: 0 <= i < |s.anyOf| ==> (OptionFaulty(defs, s.anyOf, i, j) <==> !Fits(defs, s.anyOf, i, j, path))
    ensures v in Violations(defs, s, j, path) <==> Tells(defs, s, j, path, v)
  {
    assert path + [] == path;
    ChoiceFault(defs, s, j, [], WrongType);
    if Tells(defs, s, j, path, v) {
      var steps, code :| Fault(defs, s, j, steps, code) && v == Violation(Join(path + steps, "."), code);
      ChoiceFault(defs, s, j, steps, code);
    }
    AllFaultyNoneFits(defs, s.anyOf, j, path);
  }

  lemma AllFaultyNoneFits(defs: Defs, options: seq<Schema>, j: Json, path: Path)
    requires Flat(defs)
    requires forall i :: 0 <= i < |options| ==> (OptionFaulty(defs, options, i, j) <==> !Fits(defs, options, i, j, path))
    ensures AllFaulty(defs, options, j) <==> !AnyFits(defs, options, j, path)
  {
  }

  lemma HereIsFault(defs: Defs, s: Schema, j: Json, path: Path, v: Violation)
    requires Flat(defs) && s.ref.None? && s.anyOf == [] && !Opens(s, j)
    ensures v in Violations(defs, s, j, path) <==> Tells(defs, s, j, path, v)
  {
    assert path + [] == path;
    FaultHere(defs, s, j, [], v.code);
    if Tells(defs, s, j, path, v) {
      var steps, code :| Fault(defs, s, j, steps, code) && v == Violation(Join(path + steps, "."), code);
      FaultHere(defs, s, j, steps, code);
    }
  }

  lemma NoFaultInside(defs: Defs, s: Schema, j: Json, path: Path, v: Violation)
    requires Flat(defs) && Opens(s, j) && s.kind != Some(ObjectKind) && (s.kind == Some(ArrayKind) ==> s.items.None?)
    ensures v !in Violations(defs, s, j, path) && !Tells(defs, s, j, path, v)
  {
    forall steps, code ensures !Fault(defs, s, j, steps, code) {
      FaultInside(defs, s, j, steps, code);
    }
  }

  /**
   * The validator reports a violation exactly for each fault of the value, with
   * the dotted path to its place.
   */
  lemma {:induction false} ViolationsAreFaults(defs: Defs, s: Schema, j: Json, path: Path, v: Violation)
    requires Flat(defs)
    ensures v in Violations(defs, s, j, path) <==> Tells(defs, s, j, path, v)
    decreases j, Unfolding(s), 4
  {
    if s.ref.Some? {
      RefViolationsAreFaults(defs, s, j, path, v);
    } else if s.anyOf != [] {
      forall i | 0 <= i < |s.anyOf| ensures OptionFaulty(defs, s.anyOf, i, j) <==> !Fits(defs, s.anyOf, i, j, path) {
        OptionUnfolds(s.anyOf, i);
        OptionIsFaulty(defs, s.anyOf, i, j, path);
      }
      ChoiceViolationsAreFaults(defs, s, j, path, v);
    } else if !Opens(s, j) {
      HereIsFault(defs, s, j, path, v);
    } else if s.kind == Some(ArrayKind) && s.items.Some? {
      forall i | 0 <= i < |j.elements|
        ensures ElementTells(defs, s.items.value, j.elements, i, path, v)
           <==> Tells(defs, s.items.value, j.elements[i], path + [Itoa(i)], v)
      {
        ViolationsAreFaults(defs, s.items.value, j.elements[i], path + [Itoa(i)], v);
      }
      ArrayViolationsAreFaults(defs, s, j, path, v);
    } else if AtObject(s, j) {
      forall i | 0 <= i < |j.members|
        ensures MemberTells(defs, s.properties, s.additional, j.members[i], path, v)
           <==> MemberHasFault(defs, s, j.members[i], path, v)
      {
        MemberIsFaulty(defs, s, j.members[i], path, v);
      }
      ObjectViolationsAreFaults(defs, s, j, path, v);
    } else {
      NoFaultInside(defs, s, j, path, v);
    }
  }

  lemma {:induction false} RefViolationsAreFaults(defs: Defs, s: Schema, j: Json, path: Path, v: Violation)
    requires Flat(defs) && s.ref.Some?
    ensures v in Violations(defs, s, j, path) <==> Tells(defs, s, j, path, v)
    decreases j, Unfolding(s), 3
  {
    var name := TrimPrefix(s.ref.value, PREFIX);
    if name in defs {
      assert Unfolding(defs[name]) == 0;
      ViolationsAreFaults(defs, defs[name], j, path, v);
      assert forall steps, code :: Fault(defs, s, j, steps, code) <==> Fault(defs, defs[name], j, steps, code);
    }
  }

  lemma {:induction false} OptionIsFaulty(defs: Defs, options: seq<Schema>, i: nat, j: Json, path: Path)
    requires Flat(defs) && i < |options|
    ensures OptionFaulty(defs, options, i, j) <==> !Fits(defs, options, i, j, path)
    decreases j, Unfoldings(options), 1
  {
    OptionUnfolds(options, i);
    var found := Violations(defs, options[i], j, path);
    if found != [] {
      ViolationsAreFaults(defs, options[i], j, path, found[0]);
    }
    if steps, code :| Fault(defs, options[i], j, steps, code) {
      var v := Violation(Join(path + steps, "."), code);
      ViolationsAreFaults(defs, options[i], j, path, v);
      assert Tells(defs, options[i], j, path, v);
    }
  }

  lemma {:induction false} MemberIsFaulty(defs: Defs, s: Schema, m: Member, path: Path, v: Violation)
    requires Flat(defs)
    ensures MemberTells(defs, s.properties, s.additional, m, path, v) <==> MemberHasFault(defs, s, m, path, v)
    decreases m, 0, 0
  {
    var found := MemberSchema(s.properties, s.additional, m.key);
    forall sub ensures Governs(s.properties, s.additional, m.key, sub) <==> found == Some(sub) {
      GovernsIsMemberSchema(s.properties, s.additional, m.key, sub);
    }
    if found.Some? {
      ViolationsAreFaults(defs, found.value, m.value, path + [m.key], v);
    }
  }
}
