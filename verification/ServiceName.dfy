/**
 * Service names: dotted segments with one version group, `v1` or `v1.2.0`.
 * Two runtimes normalise them, each in its own way.
 */
module ServiceName {

  import opened Wrappers

  // --- Segments -----------------------------------------------------------------------------------

  predicate IsLetter(c: char) { 'a' <= c <= 'z' || 'A' <= c <= 'Z' }

  predicate IsDigit(c: char) { '0' <= c <= '9' }

  predicate IsName(s: string) {
    s != "" && IsLetter(s[0]) && forall i :: 0 < i < |s| ==> IsLetter(s[i]) || IsDigit(s[i]) || s[i] == '_'
  }

  /** Decimal digits without a leading zero. */
  predicate IsNumeric(s: string) {
    s != "" && (forall i :: 0 <= i < |s| ==> IsDigit(s[i])) && (s[0] == '0' ==> |s| == 1)
  }

  predicate IsMajor(s: string) { s != "" && s[0] == 'v' && IsNumeric(s[1..]) }

  /** A number, or a number and a pre-release tag. */
  predicate IsPatch(s: string) {
    IsNumeric(s)
    || exists k :: 0 < k < |s| - 1 && s[k] == '-' && IsNumeric(s[..k])
         && forall i :: k < i < |s| ==> IsLetter(s[i]) || IsDigit(s[i]) || s[i] == '-'
  }

  function Split(s: string): (r: seq<string>)
    ensures r != []
  {
    if s == "" then [""]
    else
      var rest := Split(s[1..]);
      if s[0] == '.' then [""] + rest else [[s[0]] + rest[0]] + rest[1..]
  }

  lemma {:induction false} JoinSplit(s: string)
    ensures Join(Split(s), ".") == s
  {
    if s != "" {
      JoinSplit(s[1..]);
      var rest := Split(s[1..]);
      if s[0] == '.' {
        assert ([""] + rest)[1..] == rest;
      } else if |rest| > 1 {
        var head := [s[0]] + rest[0];
        assert ([head] + rest[1..])[1..] == rest[1..];
        assert head + "." + Join(rest[1..], ".") == [s[0]] + (rest[0] + "." + Join(rest[1..], "."));
      }
    }
  }

  predicate Dotless(s: string) { '.' !in s }

  lemma {:induction false} SplitAppend(s: string, tail: string)
    requires Dotless(tail)
    ensures Split(s + "." + tail) == Split(s) + [tail]
  {
    if s == "" {
      SplitDotless(tail);
      assert (s + "." + tail)[1..] == tail;
    } else {
      SplitAppend(s[1..], tail);
      assert (s + "." + tail)[1..] == s[1..] + "." + tail;
      assert (Split(s[1..]) + [tail])[1..] == Split(s[1..])[1..] + [tail];
    }
  }

  lemma {:induction false} SplitDotless(s: string)
    requires Dotless(s)
    ensures Split(s) == [s]
  {
    if s != "" {
      assert Dotless(s[1..]);
      SplitDotless(s[1..]);
      assert s == [s[0]] + s[1..];
      assert [s[1..]][1..] == [];
    }
  }

  // --- What normalising means ------------------------------------------------------------------------

  datatype Problem = SecondVersion | BadSegment | NoName

  datatype Normal = Normal(name: string, version: string)

  /** The length of the version group that starts with a major segment. */
  function GroupSize(segments: seq<string>, i: nat): (n: nat)
    requires i < |segments|
    ensures 1 <= n <= |segments| - i
  {
    if i + 2 < |segments| && IsNumeric(segments[i + 1]) && IsPatch(segments[i + 2]) then 3 else 1
  }

  /** The version that a major segment and its group spell. */
  function VersionAt(segments: seq<string>, i: nat): string
    requires i < |segments| && segments[i] != ""
  {
    if GroupSize(segments, i) == 3 then segments[i][1..] + "." + segments[i + 1] + "." + segments[i + 2]
    else segments[i][1..]
  }

  datatype Scanned = Scanned(version: Option<string>, names: nat)

  /** Read the segments from `i` on: version groups and name segments. */
  function Scan(segments: seq<string>, i: nat, before: Scanned): Result<Scanned, Problem>
    requires i <= |segments|
    decreases |segments| - i
  {
    if i == |segments| then Ok(before)
    else if IsMajor(segments[i]) then
      if before.version.Some? then Err(SecondVersion)
      else Scan(segments, i + GroupSize(segments, i), before.(version := Some(VersionAt(segments, i))))
    else if !IsName(segments[i]) then Err(BadSegment)
    else Scan(segments, i + 1, before.(names := before.names + 1))
  }

  function Normalize(name: string): Result<Normal, Problem> {
    match Scan(Split(name), 0, Scanned(None, 0))
    case Err(problem) => Err(problem)
    case Ok(s) =>
      if s.names == 0 then Err(NoName)
      else if s.version.None? then Ok(Normal(name + ".v0", "0"))
      else Ok(Normal(name, s.version.value))
  }

  // --- The two runtimes ---------------------------------------------------------------------------------

  /** The Go runtime counts the name segments as it goes. */
  method NormalizeCounting(name: string) returns (r: Result<Normal, Problem>)
    ensures r == Normalize(name)
  {
    var segments := Split(name);
    var normalized: seq<string> := [];
    var version, names := "", 0;
    var i := 0;
    while i < |segments|
      invariant 0 <= i <= |segments| && normalized == segments[..i]
      invariant Scan(segments, 0, Scanned(None, 0)) ==
                Scan(segments, i, Scanned(if version == "" then None else Some(version), names))
      decreases |segments| - i
    {
      var segment := segments[i];
      if IsMajor(segment) {
        if version != "" {
          return Err(SecondVersion);
        }
        if i + 2 < |segments| && IsNumeric(segments[i + 1]) && IsPatch(segments[i + 2]) {
          version := segment[1..] + "." + segments[i + 1] + "." + segments[i + 2];
          normalized := normalized + segments[i..i + 3];
          i := i + 3;
        } else {
          version := segment[1..];
          normalized := normalized + [segment];
          i := i + 1;
        }
        continue;
      }
      if !IsName(segment) {
        return Err(BadSegment);
      }
      normalized := normalized + [segment];
      names := names + 1;
      i := i + 1;
    }
    assert normalized == segments;
    JoinSplit(name);
    assert name + "." + "v0" == name + ".v0";
    if names == 0 {
      return Err(NoName);
    }
    if version == "" {
      version := "0";
      normalized := normalized + ["v0"];
      JoinSnoc(segments, "v0");
    }
    return Ok(Normal(Join(normalized, "."), version));
  }

  /** The TypeScript runtime looks for a name among the normalised segments afterwards. */
  method NormalizeLooking(name: string) returns (r: Result<Normal, Problem>)
    ensures r == Normalize(name)
  {
    var segments := Split(name);
    var normalized: seq<string> := [];
    var version: Option<string> := None;
    var i := 0;
    ghost var names := 0;
    while i < |segments|
      invariant 0 <= i <= |segments| && normalized == segments[..i]
      invariant Scan(segments, 0, Scanned(None, 0)) == Scan(segments, i, Scanned(version, names))
      invariant names > 0 <==> HasPlain(segments, i)
      decreases |segments| - i
    {
      var segment := segments[i];
      if IsMajor(segment) {
        if version.Some? {
          return Err(SecondVersion);
        }
        if i + 2 < |segments| && IsNumeric(segments[i + 1]) && IsPatch(segments[i + 2]) {
          NoPlainGroup(segments, i);
          TakeGroup(segments, i);
          version := Some(segment[1..] + "." + segments[i + 1] + "." + segments[i + 2]);
          normalized := normalized + [segment, segments[i + 1], segments[i + 2]];
          i := i + 3;
        } else {
          PlainNext(segments, i);
          TakeOne(segments, i);
          version := Some(segment[1..]);
          normalized := normalized + [segment];
          i := i + 1;
        }
        continue;
      }
      if !IsName(segment) {
        return Err(BadSegment);
      }
      PlainNext(segments, i);
      TakeOne(segments, i);
      normalized := normalized + [segment];
      names := names + 1;
      i := i + 1;
    }
    assert normalized == segments;
    r := FinishLooking(name, segments, version);
  }

  /** The test for a name segment, after the default version was added. */
  method FinishLooking(name: string, segments: seq<string>, found: Option<string>) returns (r: Result<Normal, Problem>)
    requires segments == Split(name)
    ensures r == if !HasPlain(segments, |segments|) then Err(NoName)
                 else if found.None? then Ok(Normal(name + ".v0", "0")) else Ok(Normal(name, found.value))
  {
    var version, normalized := found, segments;
    JoinSplit(name);
    assert name + "." + "v0" == name + ".v0";
    if version.None? {
      version := Some("0");
      normalized := normalized + ["v0"];
      JoinSnoc(segments, "v0");
    }
    var named := exists k :: 0 <= k < |normalized| && IsPlainName(normalized[k]);
    NoNameAdded(segments, normalized);
    if !named {
      return Err(NoName);
    }
    return Ok(Normal(Join(normalized, "."), version.value));
  }

  predicate IsPlainName(s: string) { IsName(s) && !IsMajor(s) }

  lemma TakeOne(segments: seq<string>, i: nat)
    requires i < |segments|
    ensures segments[..i + 1] == segments[..i] + [segments[i]]
  {
  }

  lemma TakeGroup(segments: seq<string>, i: nat)
    requires i + 2 < |segments|
    ensures segments[..i + 3] == segments[..i] + [segments[i], segments[i + 1], segments[i + 2]]
  {
  }

  /** One of the first `n` segments is a name. */
  ghost predicate HasPlain(segments: seq<string>, n: nat)
    requires n <= |segments|
  {
    exists k :: 0 <= k < n && IsPlainName(segments[k])
  }

  lemma PlainNext(segments: seq<string>, n: nat)
    requires n < |segments|
    ensures HasPlain(segments, n + 1) <==> HasPlain(segments, n) || IsPlainName(segments[n])
  {
  }

  lemma NoPlainGroup(segments: seq<string>, n: nat)
    requires n + 2 < |segments| && IsMajor(segments[n]) && IsNumeric(segments[n + 1]) && IsPatch(segments[n + 2])
    ensures HasPlain(segments, n + 3) <==> HasPlain(segments, n)
  {
    NumbersAreNoNames(segments[n + 1]);
    NumbersAreNoNames(segments[n + 2]);
    PlainNext(segments, n);
    PlainNext(segments, n + 1);
    PlainNext(segments, n + 2);
  }

  lemma NumbersAreNoNames(s: string)
    requires IsPatch(s)
    ensures !IsName(s) && !IsMajor(s)
  {
    assert IsDigit(s[0]);
  }

  lemma NoNameAdded(segments: seq<string>, normalized: seq<string>)
    requires normalized == segments || normalized == segments + ["v0"]
    ensures (exists k :: 0 <= k < |normalized| && IsPlainName(normalized[k]))
       <==> (exists k :: 0 <= k < |segments| && IsPlainName(segments[k]))
  {
    assert "v0"[1..] == "0" && IsMajor("v0");
    if k :| 0 <= k < |segments| && IsPlainName(segments[k]) {
      assert IsPlainName(normalized[k]);
    }
  }

  lemma {:induction false} JoinSnoc(segments: seq<string>, last: string)
    requires segments != []
    ensures Join(segments + [last], ".") == Join(segments, ".") + "." + last
  {
    if |segments| > 1 {
      JoinSnoc(segments[1..], last);
      assert (segments + [last])[1..] == segments[1..] + [last];
      assert segments[0] + "." + (Join(segments[1..], ".") + "." + last) == segments[0] + "." + Join(segments[1..], ".") + "." + last;
    } else {
      assert (segments + [last])[1..] == [last];
    }
  }

  // --- Properties ------------------------------------------------------------------------------------------

  lemma {:induction false} ScanSnoc(segments: seq<string>, i: nat, before: Scanned)
    requires i <= |segments| && Scan(segments, i, before).Ok? && Scan(segments, i, before).value.version.None?
    ensures Scan(segments + ["v0"], i, before) == Ok(Scan(segments, i, before).value.(version := Some("0")))
    decreases |segments| - i
  {
    var more := segments + ["v0"];
    if i == |segments| {
      assert "v0"[1..] == "0" && IsMajor("v0");
      assert more[i] == "v0";
    } else {
      assert more[i] == segments[i];
      if IsMajor(segments[i]) {
        ScanKeepsVersion(segments, i + GroupSize(segments, i), before.(version := Some(VersionAt(segments, i))));
      } else {
        ScanSnoc(segments, i + 1, before.(names := before.names + 1));
      }
    }
  }

  lemma {:induction false} ScanKeepsVersion(segments: seq<string>, i: nat, before: Scanned)
    requires i <= |segments| && before.version.Some?
    ensures Scan(segments, i, before).Ok? ==> Scan(segments, i, before).value.version == before.version
    ensures Scan(segments, i, before).Ok? ==> forall k :: i <= k < |segments| ==> !IsMajor(segments[k])
    decreases |segments| - i
  {
    if i < |segments| && !IsMajor(segments[i]) && IsName(segments[i]) {
      ScanKeepsVersion(segments, i + 1, before.(names := before.names + 1));
    }
  }

  /** Normalising a normalised name changes nothing, its version included. */
  lemma NormalizeIdempotent(name: string)
    requires Normalize(name).Ok?
    ensures Normalize(Normalize(name).value.name) == Normalize(name)
  {
    var s := Scan(Split(name), 0, Scanned(None, 0)).value;
    if s.version.None? {
      SplitAppend(name, "v0");
      assert name + "." + "v0" == name + ".v0";
      ScanSnoc(Split(name), 0, Scanned(None, 0));
    }
  }

  // --- Reading a name from left to right ---------------------------------------------------------------------

  predicate AllPlain(segments: seq<string>) { forall s <- segments :: IsPlainName(s) }

  /** `v` and a number, alone or with a minor and a patch segment. */
  predicate IsGroup(g: seq<string>) {
    || (|g| == 1 && IsMajor(g[0]))
    || (|g| == 3 && IsMajor(g[0]) && IsNumeric(g[1]) && IsPatch(g[2]))
  }

  /** The version of a group: its segments joined again, without the `v`. */
  function Spelled(g: seq<string>): string
    requires IsGroup(g)
  {
    Join([g[0][1..]] + g[1..], ".")
  }

  /** Name segments, at most one version group, and name segments. */
  predicate Parses(segments: seq<string>, a: seq<string>, g: seq<string>, b: seq<string>) {
    segments == a + g + b && AllPlain(a) && AllPlain(b) && (g == [] ==> b == []) && (g == [] || IsGroup(g))
  }

  /**
   * The first `k` segments are read as names, a group and names. The group is as
   * long as can be, and the next segment, if there is one, cannot be read.
   */
  predicate Reads(segments: seq<string>, a: seq<string>, g: seq<string>, b: seq<string>, k: nat) {
    && k <= |segments| && Parses(segments[..k], a, g, b)
    && (|g| == 1 && b == [] && k + 1 < |segments| ==> !(IsNumeric(segments[k]) && IsPatch(segments[k + 1])))
    && (k < |segments| ==> if IsMajor(segments[k]) then g != [] else !IsName(segments[k]))
  }

  /** What such a reading makes of the name. */
  function Outcome(name: string, segments: seq<string>, a: seq<string>, g: seq<string>, b: seq<string>, k: nat)
    : Result<Normal, Problem>
    requires Reads(segments, a, g, b, k)
  {
    if k < |segments| then Err(if IsMajor(segments[k]) then SecondVersion else BadSegment)
    else if a + b == [] then Err(NoName)
    else if g == [] then Ok(Normal(name + ".v0", "0"))
    else Ok(Normal(name, Spelled(g)))
  }

  lemma PlainAt(part: seq<string>, i: nat)
    requires AllPlain(part) && i < |part|
    ensures IsPlainName(part[i])
  {
  }

  /** Name segments are counted one by one. */
  lemma {:induction false} ScanPlain(segments: seq<string>, i: nat, j: nat, before: Scanned)
    requires i <= j <= |segments| && forall k :: i <= k < j ==> IsPlainName(segments[k])
    ensures Scan(segments, i, before) == Scan(segments, j, before.(names := before.names + (j - i)))
    decreases j - i
  {
    if i < j {
      ScanPlain(segments, i + 1, j, before.(names := before.names + 1));
    }
  }

  lemma GroupAt(segments: seq<string>, a: seq<string>, g: seq<string>, b: seq<string>, k: nat)
    requires Reads(segments, a, g, b, k) && g != []
    ensures segments[|a|] == g[0] && IsMajor(g[0])
    ensures GroupSize(segments, |a|) == |g| && VersionAt(segments, |a|) == Spelled(g)
  {
    assert forall i :: 0 <= i < |g| ==> segments[..k][|a| + i] == g[i];
    if |g| == 1 {
      assert [g[0][1..]] + g[1..] == [g[0][1..]];
      if b != [] {
        assert segments[..k][|a| + 1] == b[0];
        PlainAt(b, 0);
        if IsPatch(b[0]) { NumbersAreNoNames(b[0]); }
      }
    } else {
      assert [g[0][1..]] + g[1..] == [g[0][1..], g[1], g[2]];
      JoinThree(g[0][1..], g[1], g[2]);
    }
  }

  lemma JoinThree(x: string, y: string, z: string)
    ensures Join([x, y, z], ".") == x + "." + y + "." + z
  {
    assert [x, y, z][1..] == [y, z] && [y, z][1..] == [z];
    assert Join([y, z], ".") == y + "." + z;
    assert Join([x, y, z], ".") == x + "." + Join([y, z], ".");
    assert x + "." + (y + "." + z) == x + "." + y + "." + z;
  }

  lemma ScanReading(segments: seq<string>, a: seq<string>, g: seq<string>, b: seq<string>, k: nat)
    requires Reads(segments, a, g, b, k)
    ensures Scan(segments, 0, Scanned(None, 0)) ==
            Scan(segments, k, Scanned(if g == [] then None else Some(Spelled(g)), |a| + |b|))
  {
    assert forall i :: 0 <= i < |a| ==> segments[..k][i] == a[i];
    assert forall i :: 0 <= i < |b| ==> segments[..k][|a| + |g| + i] == b[i];
    forall i | 0 <= i < |a| ensures IsPlainName(segments[i]) { PlainAt(a, i); }
    ScanPlain(segments, 0, |a|, Scanned(None, 0));
    if g != [] {
      GroupAt(segments, a, g, b, k);
      forall i | |a| + |g| <= i < k ensures IsPlainName(segments[i]) { PlainAt(b, i - |a| - |g|); }
      ScanPlain(segments, |a| + |g|, k, Scanned(Some(Spelled(g)), |a|));
    }
  }

  /**
   * What a name is normalised to, or why it is refused, follows from reading its
   * segments: names, one version group, names, and then a segment that cannot be
   * read or the end.
   */
  lemma NormalizeReads(name: string, a: seq<string>, g: seq<string>, b: seq<string>, k: nat)
    requires Reads(Split(name), a, g, b, k)
    ensures Normalize(name) == Outcome(name, Split(name), a, g, b, k)
  {
    ScanReading(Split(name), a, g, b, k);
  }

  /** The first segment from `i` on that is no plain name. */
  lemma {:induction false} PlainFrom(segments: seq<string>, i: nat) returns (j: nat)
    requires i <= |segments|
    ensures i <= j <= |segments| && AllPlain(segments[i..j]) && (j < |segments| ==> !IsPlainName(segments[j]))
    decreases |segments| - i
  {
    j := i;
    if i < |segments| && IsPlainName(segments[i]) {
      j := PlainFrom(segments, i + 1);
      assert segments[i..j] == [segments[i]] + segments[i + 1..j];
    }
  }

  /** Every name has such a reading. */
  lemma ReadingExists(segments: seq<string>) returns (a: seq<string>, g: seq<string>, b: seq<string>, k: nat)
    ensures Reads(segments, a, g, b, k)
  {
    var i := PlainFrom(segments, 0);
    a := segments[0..i];
    if i == |segments| || !IsMajor(segments[i]) {
      g, b, k := [], [], i;
      assert segments[..k] == a + g + b;
    } else {
      var n := GroupSize(segments, i);
      k := PlainFrom(segments, i + n);
      g, b := segments[i..i + n], segments[i + n..k];
      assert segments[..k] == a + g + b;
    }
  }

  /** A normalised name has exactly one version group, which spells the version, between name segments. */
  lemma NormalizedHasOneVersion(name: string) returns (a: seq<string>, g: seq<string>, b: seq<string>)
    requires Normalize(name).Ok?
    ensures var r, segments := Normalize(name).value, Split(Normalize(name).value.name);
            && segments == a + g + b && AllPlain(a) && AllPlain(b) && a + b != []
            && IsGroup(g) && r.version == Spelled(g)
            && forall i :: 0 <= i < |segments| ==> (IsMajor(segments[i]) <==> i == |a|)
  {
    var r := Normalize(name).value;
    var segments := Split(r.name);
    var k;
    NormalizeIdempotent(name);
    a, g, b, k := ReadingExists(segments);
    NormalizeReads(r.name, a, g, b, k);
    assert segments[..k] == segments;
    assert |r.name + ".v0"| > |r.name|;
    OneMajor(a, g, b);
  }

  lemma OneMajor(a: seq<string>, g: seq<string>, b: seq<string>)
    requires AllPlain(a) && AllPlain(b) && IsGroup(g)
    ensures var segments := a + g + b; forall i :: 0 <= i < |segments| ==> (IsMajor(segments[i]) <==> i == |a|)
  {
    if |g| == 3 {
      NumbersAreNoNames(g[1]);
      NumbersAreNoNames(g[2]);
    }
    assert forall i :: 0 <= i < |a| ==> IsPlainName(a[i]);
    assert forall i :: 0 <= i < |b| ==> IsPlainName(b[i]);
  }

  // --- What segments look like ---------------------------------------------------------------------------------

  /** Names, read character by character. */
  lemma NameGrows(s: string, c: char)
    ensures IsName([c]) <==> IsLetter(c)
    ensures s != "" ==> (IsName(s + [c]) <==> IsName(s) && (IsLetter(c) || IsDigit(c) || c == '_'))
  {
    if s != "" {
      assert forall i :: 0 <= i < |s| ==> (s + [c])[i] == s[i];
      assert (s + [c])[|s|] == c;
    }
  }

  /** Numbers have no leading zero. */
  lemma NumberGrows(s: string, c: char)
    ensures IsNumeric([c]) <==> IsDigit(c)
    ensures s != "" ==> (IsNumeric(s + [c]) <==> IsNumeric(s) && s[0] != '0' && IsDigit(c))
  {
    if s != "" {
      assert forall i :: 0 <= i < |s| ==> (s + [c])[i] == s[i];
      assert (s + [c])[|s|] == c;
    }
  }

  /** A major segment is `v` and a number. */
  lemma MajorStarts(c: char, s: string)
    ensures IsMajor([c] + s) <==> c == 'v' && IsNumeric(s)
  {
    assert ([c] + s)[1..] == s;
  }

  /** A pre-release tag is not empty, and is separated by the first dash. */
  lemma PatchWithTag(number: string, tag: string)
    requires IsNumeric(number)
    ensures IsPatch(number) && !IsPatch(number + "-")
    ensures tag != "" ==>
              (IsPatch(number + "-" + tag) <==> forall i :: 0 <= i < |tag| ==> IsLetter(tag[i]) || IsDigit(tag[i]) || tag[i] == '-')
  {
    var s, n := number + "-" + tag, |number|;
    var t := number + "-";
    assert s[n] == t[n] == '-' && s[..n] == number && forall i :: 0 <= i < |tag| ==> s[n + 1 + i] == tag[i];
    assert forall k :: 0 <= k < n ==> s[k] == t[k] == number[k] && IsDigit(number[k]);
    assert forall k :: n < k <= |s| ==> s[..k][n] == '-';
    assert forall k :: n < k <= |t| ==> t[..k][n] == '-';
    assert !IsDigit('-');
  }
}
