/** Stable release versions: internal/update/update.go. */
module Versions {
  import opened Text

  const MAX_UINT64: nat := 0xFFFF_FFFF_FFFF_FFFF

  // ----- decimal numerals ---------------------------------------------------------------

  predicate IsDigit(c: char) { '0' <= c <= '9' }

  predicate AllDigits(s: string) {
    forall i :: 0 <= i < |s| ==> IsDigit(s[i])
  }

  /** The numeral a group of the release pattern accepts: no leading zero. */
  predicate Numeric(g: string) {
    AllDigits(g) && |g| > 0 && (g[0] != '0' || |g| == 1)
  }

  function Digit(d: nat): char
    requires d < 10
  {
    ('0' as int + d) as char
  }

  /** What strconv.ParseUint computes before it looks at the width. */
  function Value(g: string): nat
    requires AllDigits(g)
  {
    if g == "" then 0 else Value(g[..|g| - 1]) * 10 + (g[|g| - 1] as int - '0' as int)
  }

  /** The %d verb on an unsigned number. */
  function Decimal(n: nat): string {
    if n < 10 then [Digit(n)] else Decimal(n / 10) + [Digit(n % 10)]
  }

  lemma {:induction false} ValueOfDecimal(n: nat)
    ensures Numeric(Decimal(n)) && Value(Decimal(n)) == n
    ensures n > 0 ==> Decimal(n)[0] != '0'
  {
    if n >= 10 {
      ValueOfDecimal(n / 10);
      var d := Decimal(n);
      assert d[..|d| - 1] == Decimal(n / 10);
    } else {
      assert Decimal(n)[..0] == "";
    }
  }

  lemma {:induction false} ValuePositive(g: string)
    requires AllDigits(g) && |g| > 0 && g[0] != '0'
    ensures Value(g) > 0
  {
    if |g| > 1 {
      ValuePositive(g[..|g| - 1]);
    } else {
      assert g[..|g| - 1] == "";
    }
  }

  lemma {:induction false} DecimalOfValue(g: string)
    requires Numeric(g)
    ensures Decimal(Value(g)) == g
  {
    var init, last := g[..|g| - 1], g[|g| - 1] as int - '0' as int;
    assert g == init + [g[|g| - 1]];
    if |g| > 1 {
      ValuePositive(init);
      DecimalOfValue(init);
      assert Value(g) == Value(init) * 10 + last;
      assert Value(g) / 10 == Value(init) && Value(g) % 10 == last;
    } else {
      assert init == "";
      assert Value(g) == last;
    }
  }

  /** Two numerals of one length differ first at k, where the left one is smaller. */
  predicate SmallerAt(a: string, b: string, k: nat) {
    k < |a| == |b| && a[..k] == b[..k] && a[k] < b[k]
  }

  /** A numeral below another, as one reads them: shorter, or smaller where they first differ. */
  ghost predicate Below(a: string, b: string) { |a| < |b| || exists k: nat :: SmallerAt(a, b, k) }

  lemma {:induction false} LongerIsMore(a: string, b: string)
    requires AllDigits(a) && AllDigits(b) && |a| < |b| && b[0] != '0'
    ensures Value(a) < Value(b)
    decreases |a|
  {
    if a == "" {
      ValuePositive(b);
    } else {
      LongerIsMore(a[..|a| - 1], b[..|b| - 1]);
    }
  }

  lemma {:induction false} SameLengthReads(a: string, b: string)
    requires AllDigits(a) && AllDigits(b) && |a| == |b|
    ensures Value(a) < Value(b) <==> exists k: nat :: SmallerAt(a, b, k)
    ensures Value(a) == Value(b) ==> a == b
    decreases |a|
  {
    if a != "" {
      var n := |a| - 1;
      var i, j := a[..n], b[..n];
      SameLengthReads(i, j);
      SameLengthReads(j, i);
      assert a == i + [a[n]] && b == j + [b[n]];
      if k: nat :| SmallerAt(i, j, k) { assert SmallerAt(a, b, k); }
      if i == j && a[n] < b[n] { assert SmallerAt(a, b, n); }
      if k: nat :| SmallerAt(a, b, k) {
        if k < n { assert i[..k] == a[..k] && j[..k] == b[..k]; assert SmallerAt(i, j, k); }
      }
    }
  }

  /** Reading decimal numerals is what the comparison of parts comes down to. */
  lemma ValueReads(a: string, b: string)
    requires Numeric(a) && Numeric(b)
    ensures Value(a) < Value(b) <==> Below(a, b)
    ensures Value(a) == Value(b) <==> a == b
  {
    if |a| < |b| {
      LongerIsMore(a, b);
    } else if |b| < |a| {
      LongerIsMore(b, a);
    } else {
      SameLengthReads(a, b);
    }
  }

  // ----- the release pattern ------------------------------------------------------------

  predicate IsIdentifierChar(c: char) {
    IsDigit(c) || 'A' <= c <= 'Z' || 'a' <= c <= 'z' || c == '-'
  }

  /** One or more dot-separated, non-empty identifiers. */
  predicate IsBuild(b: string) {
    && |b| > 0 && b[0] != '.' && b[|b| - 1] != '.'
    && (forall i :: 0 <= i < |b| ==> IsIdentifierChar(b[i]) || b[i] == '.')
    && (forall i :: 0 < i < |b| ==> !(b[i - 1] == '.' && b[i] == '.'))
  }

  predicate IsIdentifier(s: string) { s != "" && forall i :: 0 <= i < |s| ==> IsIdentifierChar(s[i]) }

  /** An identifier, or an identifier, a dot and more of the same. */
  ghost predicate IsDotted(s: string)
    decreases |s|
  {
    || IsIdentifier(s)
    || exists k: nat :: k < |s| && s[k] == '.' && IsIdentifier(s[..k]) && IsDotted(s[k + 1..])
  }

  /** IsBuild says in one pass what the pattern says by repetition. */
  lemma {:induction false} BuildIsDotted(s: string)
    ensures IsBuild(s) <==> IsDotted(s)
    decreases |s|
  {
    if IsBuild(s) && !IsIdentifier(s) {
      var k := FirstDot(s);
      BuildAfterDot(s, k);
      BuildIsDotted(s[k + 1..]);
      assert s[k] == '.' && IsIdentifier(s[..k]) && IsDotted(s[k + 1..]);
    }
    if IsDotted(s) && !IsIdentifier(s) {
      var k: nat :| k < |s| && s[k] == '.' && IsIdentifier(s[..k]) && IsDotted(s[k + 1..]);
      BuildIsDotted(s[k + 1..]);
      BuildBeforeDot(s, k);
    }
  }

  /** Where the first identifier of a build ends. */
  lemma FirstDot(s: string) returns (k: nat)
    requires IsBuild(s) && !IsIdentifier(s)
    ensures 0 < k < |s| - 1 && s[k] == '.' && IsIdentifier(s[..k])
  {
    k := 0;
    while k < |s| && s[k] != '.'
      invariant k <= |s| && forall i :: 0 <= i < k ==> IsIdentifierChar(s[i])
    {
      k := k + 1;
    }
    assert k == |s| ==> IsIdentifier(s);
  }

  lemma BuildAfterDot(s: string, k: nat)
    requires IsBuild(s) && 0 < k < |s| - 1 && s[k] == '.'
    ensures IsBuild(s[k + 1..])
  {
    var t := s[k + 1..];
    assert forall i :: 0 <= i < |t| ==> t[i] == s[k + 1 + i];
    assert t[0] != '.' by { assert !(s[k] == '.' && s[k + 1] == '.'); }
    forall i | 0 < i < |t| ensures !(t[i - 1] == '.' && t[i] == '.') {
      assert t[i - 1] == s[(k + 1 + i) - 1] && t[i] == s[k + 1 + i];
    }
  }

  lemma BuildBeforeDot(s: string, k: nat)
    requires k < |s| && s[k] == '.' && IsIdentifier(s[..k]) && IsBuild(s[k + 1..])
    ensures IsBuild(s)
  {
    var t := s[k + 1..];
    assert s == s[..k] + ['.'] + t;
    forall i | 0 <= i < |s| ensures IsIdentifierChar(s[i]) || s[i] == '.' {
      if i < k { assert s[i] == s[..k][i]; }
      if i > k { assert s[i] == t[i - k - 1]; }
    }
    forall i | 0 < i < |s| ensures !(s[i - 1] == '.' && s[i] == '.') {
      if i <= k { assert s[i - 1] == s[..k][i - 1]; assert IsIdentifierChar(s[i - 1]); }
      else if i == k + 1 { assert s[i] == t[0]; }
      else { assert s[i] == t[i - k - 1] && s[i - 1] == t[i - k - 2]; }
    }
    assert s[0] == s[..k][0] && IsIdentifierChar(s[..k][0]);
  }

  datatype Groups = Groups(major: string, minor: string, patch: string) {
    predicate Valid() { Numeric(major) && Numeric(minor) && Numeric(patch) }

    predicate Fits()
      requires Valid()
    {
      Value(major) <= MAX_UINT64 && Value(minor) <= MAX_UINT64 && Value(patch) <= MAX_UINT64
    }

    function Core(): string { major + "." + minor + "." + patch }

    function Parts(): seq<nat>
      requires Valid()
    {
      [Value(major), Value(minor), Value(patch)]
    }

    /** The text the pattern accepts for these groups. */
    function Spelling(v: bool, build: Option<string>): string {
      (if v then "v" else "") + Core() + (if build.Some? then "+" + build.value else "")
    }
  }

  predicate BuildOk(build: Option<string>) { build.Some? ==> IsBuild(build.value) }

  /** Length of the longest run of digits at the start. */
  function DigitRun(s: string): (n: nat)
    ensures n <= |s| && AllDigits(s[..n]) && (n < |s| ==> !IsDigit(s[n]))
  {
    if s == "" || !IsDigit(s[0]) then 0
    else
      var n := DigitRun(s[1..]);
      assert s[..n + 1] == [s[0]] + s[1..][..n];
      n + 1
  }

  /** Splits a numeral and what follows it, or fails on a leading zero or no digit at all. */
  function TakeNumeral(s: string): Option<(string, string)> {
    var n := DigitRun(s);
    if Numeric(s[..n]) then Some((s[..n], s[n..])) else None
  }

  /** A numeral and the dot that must follow it. */
  function TakeDotted(s: string): Option<(string, string)> {
    var a := TakeNumeral(s);
    if a.None? || a.value.1 == "" || a.value.1[0] != '.' then None
    else Some((a.value.0, a.value.1[1..]))
  }

  /** FindStringSubmatch with the release pattern, on text already trimmed. */
  function Match(s: string): (r: Option<Groups>)
    ensures r.Some? ==> r.value.Valid()
  {
    var a := TakeDotted(TrimPrefix(s, "v"));
    if a.None? then None else
    var b := TakeDotted(a.value.1);
    if b.None? then None else
    var c := TakeNumeral(b.value.1);
    if c.Some? && (c.value.1 == "" || (c.value.1[0] == '+' && IsBuild(c.value.1[1..])))
    then Some(Groups(a.value.0, b.value.0, c.value.0)) else None
  }

  lemma {:induction false} DigitRunOf(g: string, rest: string)
    requires AllDigits(g) && (rest != "" ==> !IsDigit(rest[0]))
    ensures DigitRun(g + rest) == |g|
  {
    if g == "" {
      assert g + rest == rest;
    } else {
      assert (g + rest)[1..] == g[1..] + rest;
      DigitRunOf(g[1..], rest);
    }
  }

  lemma TakeNumeralOf(g: string, rest: string)
    requires Numeric(g) && (rest != "" ==> !IsDigit(rest[0]))
    ensures TakeNumeral(g + rest) == Some((g, rest))
  {
    DigitRunOf(g, rest);
    assert (g + rest)[..|g|] == g && (g + rest)[|g|..] == rest;
  }

  lemma TakeDottedOf(g: string, rest: string)
    requires Numeric(g)
    ensures TakeDotted(g + ("." + rest)) == Some((g, rest))
  {
    TakeNumeralOf(g, "." + rest);
    assert ("." + rest)[1..] == rest;
  }

  lemma TakeNumeralSound(s: string)
    requires TakeNumeral(s).Some?
    ensures var (g, rest) := TakeNumeral(s).value; Numeric(g) && s == g + rest
  {
    assert s == s[..DigitRun(s)] + s[DigitRun(s)..];
  }

  lemma TakeDottedSound(s: string)
    requires TakeDotted(s).Some?
    ensures var (g, rest) := TakeDotted(s).value; Numeric(g) && s == g + "." + rest
  {
    TakeNumeralSound(s);
    var a := TakeNumeral(s).value;
    assert a.1 == "." + a.1[1..];
  }

  function Tail(build: Option<string>): string {
    if build.Some? then "+" + build.value else ""
  }

  lemma TrimV(v: bool, core: string)
    requires core != "" && core[0] != 'v'
    ensures TrimPrefix((if v then "v" else "") + core, "v") == core
  {
    var s := (if v then "v" else "") + core;
    if v {
      assert s[..1] == "v" && s[1..] == core;
    } else {
      assert s == core;
    }
  }

  lemma MatchFields(s: string, s1: string, s2: string, s3: string, g: Groups, tail: string)
    requires g.Valid() && TrimPrefix(s, "v") == s1
    requires TakeDotted(s1) == Some((g.major, s2)) && TakeDotted(s2) == Some((g.minor, s3))
    requires TakeNumeral(s3) == Some((g.patch, tail))
    requires tail == "" || (tail[0] == '+' && IsBuild(tail[1..]))
    ensures Match(s) == Some(g)
  {
  }

  /** The scanner accepts every text of the pattern and reads its own groups back. */
  lemma MatchComplete(g: Groups, v: bool, build: Option<string>)
    requires g.Valid() && BuildOk(build)
    ensures Match(g.Spelling(v, build)) == Some(g)
  {
    var s3 := g.patch + Tail(build);
    var s2 := g.minor + ("." + s3);
    var s1 := g.major + ("." + s2);
    SpellingParts(g, v, build, (if v then "v" else "") + s1, s1, s2, s3);
    TrimV(v, s1);
    TakeDottedOf(g.major, s2);
    TakeDottedOf(g.minor, s3);
    TakeNumeralOf(g.patch, Tail(build));
    assert build.Some? ==> Tail(build)[1..] == build.value;
    MatchFields(g.Spelling(v, build), s1, s2, s3, g, Tail(build));
  }

  /** The scanner accepts nothing but the texts of the pattern. */
  lemma MatchSound(s: string) returns (v: bool, build: Option<string>)
    requires Match(s).Some?
    ensures BuildOk(build) && s == Match(s).value.Spelling(v, build)
  {
    hide TakeDotted, TakeNumeral, DigitRun, Numeric, IsBuild;
    v := "v" <= s;
    var s1 := TrimPrefix(s, "v");
    assert s == (if v then "v" else "") + s1;
    TakeDottedSound(s1);
    var s2 := TakeDotted(s1).value.1;
    TakeDottedSound(s2);
    var s3 := TakeDotted(s2).value.1;
    TakeNumeralSound(s3);
    var c := TakeNumeral(s3).value;
    build := if c.1 == "" then None else Some(c.1[1..]);
    assert c.1 == Tail(build);
    SpellingParts(Match(s).value, v, build, s, s1, s2, s3);
  }

  lemma SpellingParts(g: Groups, v: bool, build: Option<string>, s: string, s1: string, s2: string, s3: string)
    requires s == (if v then "v" else "") + s1 && s1 == g.major + "." + s2
    requires s2 == g.minor + "." + s3 && s3 == g.patch + Tail(build)
    ensures s == g.Spelling(v, build)
  {
  }

  // ----- parseStableVersion -------------------------------------------------------------

  datatype StableVersion = StableVersion(normalized: string, parts: seq<nat>)

  function Normalize(parts: seq<nat>): string
    requires |parts| == 3
  {
    Decimal(parts[0]) + "." + Decimal(parts[1]) + "." + Decimal(parts[2])
  }

  function Parse(value: string): Option<StableVersion> {
    var g := Match(TrimSpace(value));
    if g.None? then None
    else if g.value.Fits() then Some(StableVersion(Normalize(g.value.Parts()), g.value.Parts()))
    else None
  }

  /** parseStableVersion, filling the three parts one at a time. */
  method ParseStableVersion(value: string) returns (r: Option<StableVersion>)
    ensures r == Parse(value)
  {
    var found := Match(TrimSpace(value));
    if found.None? { return None; }
    r := ParseGroups(found.value);
  }

  method ParseGroups(found: Groups) returns (r: Option<StableVersion>)
    requires found.Valid()
    ensures r == if found.Fits() then Some(StableVersion(Normalize(found.Parts()), found.Parts())) else None
  {
    var groups := [found.major, found.minor, found.patch];
    var parts: seq<nat> := [0, 0, 0];
    var index := 0;
    while index < 3
      invariant 0 <= index <= 3 && |parts| == 3
      invariant forall k :: 0 <= k < index ==> Value(groups[k]) <= MAX_UINT64 && parts[k] == Value(groups[k])
    {
      var parsed := Value(groups[index]);
      if parsed > MAX_UINT64 { return None; }
      parts := parts[index := parsed];
      index := index + 1;
    }
    assert parts == found.Parts();
    return Some(StableVersion(Normalize(parts), parts));
  }

  lemma SpellingEdges(g: Groups, v: bool, build: Option<string>)
    requires g.Valid() && BuildOk(build)
    ensures var s := g.Spelling(v, build);
            s != "" && !IsSpace(s[0]) && !IsSpace(s[|s| - 1])
  {
    var s := g.Spelling(v, build);
    assert s[0] == if v then 'v' else g.major[0];
    if build.None? {
      assert s[|s| - 1] == g.patch[|g.patch| - 1];
    } else {
      assert s[|s| - 1] == build.value[|build.value| - 1];
    }
  }

  lemma NormalizeIsCore(g: Groups)
    requires g.Valid()
    ensures Normalize(g.Parts()) == g.Core()
  {
    DecimalOfValue(g.major);
    DecimalOfValue(g.minor);
    DecimalOfValue(g.patch);
  }

  /** Every spelling parses to its own numerals when they fit 64 bits, and is refused otherwise. */
  lemma ParseSpelling(left: string, g: Groups, v: bool, build: Option<string>, right: string)
    requires Blank(left) && Blank(right) && g.Valid() && BuildOk(build)
    ensures Parse(left + g.Spelling(v, build) + right) ==
            if g.Fits() then Some(StableVersion(g.Core(), g.Parts())) else None
  {
    SpellingEdges(g, v, build);
    TrimSpacePadding(left, g.Spelling(v, build), right);
    MatchComplete(g, v, build);
    NormalizeIsCore(g);
  }

  /** Only spellings parse: with ParseSpelling this says exactly what is accepted. */
  lemma ParseSound(value: string)
    returns (left: string, g: Groups, v: bool, build: Option<string>, right: string)
    requires Parse(value).Some?
    ensures Blank(left) && Blank(right) && g.Valid() && g.Fits() && BuildOk(build)
    ensures value == left + g.Spelling(v, build) + right
    ensures Parse(value).value == StableVersion(g.Core(), g.Parts())
  {
    left, right := TrimSpaceSplits(value);
    v, build := MatchSound(TrimSpace(value));
    g := Match(TrimSpace(value)).value;
    NormalizeIsCore(g);
  }

  predicate Fit64(parts: seq<nat>) {
    |parts| == 3 && parts[0] <= MAX_UINT64 && parts[1] <= MAX_UINT64 && parts[2] <= MAX_UINT64
  }

  /** Printing and parsing undo each other on every triple, and only 64-bit triples parse. */
  lemma PrintParse(parts: seq<nat>)
    requires |parts| == 3
    ensures Parse(Normalize(parts)) == if Fit64(parts) then Some(StableVersion(Normalize(parts), parts)) else None
  {
    var g := Groups(Decimal(parts[0]), Decimal(parts[1]), Decimal(parts[2]));
    ValueOfDecimal(parts[0]);
    ValueOfDecimal(parts[1]);
    ValueOfDecimal(parts[2]);
    assert g.Parts() == parts;
    assert "" + g.Spelling(false, None) + "" == Normalize(parts);
    ParseSpelling("", g, false, None, "");
  }

  lemma ParsedShape(value: string)
    requires Parse(value).Some?
    ensures var p := Parse(value).value; Fit64(p.parts) && p.normalized == Normalize(p.parts)
  {
  }

  lemma NormalizeInjective(a: seq<nat>, b: seq<nat>)
    requires Fit64(a) && Fit64(b) && Normalize(a) == Normalize(b)
    ensures a == b
  {
    PrintParse(a);
    PrintParse(b);
  }

  /** Normalising keeps the parts, and normalising twice changes nothing. */
  lemma ParseNormalized(value: string)
    requires Parse(value).Some?
    ensures Parse(Parse(value).value.normalized) == Parse(value)
  {
    hide Parse, Normalize;
    ParsedShape(value);
    PrintParse(Parse(value).value.parts);
  }

  // ----- CompareStable ------------------------------------------------------------------

  function CompareParts(left: seq<nat>, right: seq<nat>): int
    requires |left| == |right|
  {
    if left == [] then 0
    else if left[0] < right[0] then -1
    else if left[0] > right[0] then 1
    else CompareParts(left[1..], right[1..])
  }

  function Compare(left: string, right: string): Option<int> {
    if Parse(left).None? || Parse(right).None? then None
    else Some(CompareParts(Parse(left).value.parts, Parse(right).value.parts))
  }

  lemma {:induction false} ComparePartsAt(left: seq<nat>, right: seq<nat>, k: nat)
    requires |left| == |right| && k <= |left|
    requires forall i :: 0 <= i < k ==> left[i] == right[i]
    ensures CompareParts(left, right) == CompareParts(left[k..], right[k..])
  {
    if k > 0 {
      ComparePartsAt(left[1..], right[1..], k - 1);
      assert left[1..][k - 1..] == left[k..] && right[1..][k - 1..] == right[k..];
    } else {
      assert left[0..] == left && right[0..] == right;
    }
  }

  /** CompareStable: the first part that differs decides. */
  method CompareStable(left: string, right: string) returns (r: Option<int>)
    ensures r == Compare(left, right)
  {
    var leftVersion := ParseStableVersion(left);
    if leftVersion.None? { return None; }
    var rightVersion := ParseStableVersion(right);
    if rightVersion.None? { return None; }
    var l, r' := leftVersion.value.parts, rightVersion.value.parts;
    for index := 0 to 3
      invariant forall k :: 0 <= k < index ==> l[k] == r'[k]
    {
      ComparePartsAt(l, r', index);
      if l[index] < r'[index] { return Some(-1); }
      if l[index] > r'[index] { return Some(1); }
    }
    ComparePartsAt(l, r', 3);
    return Some(0);
  }

  lemma {:induction false} ComparePartsOrder(a: seq<nat>, b: seq<nat>, c: seq<nat>)
    requires |a| == |b| == |c|
    ensures CompareParts(a, b) == -CompareParts(b, a)
    ensures CompareParts(a, b) == 0 <==> a == b
    ensures CompareParts(a, b) <= 0 && CompareParts(b, c) <= 0 ==> CompareParts(a, c) <= 0
    ensures CompareParts(a, b) < 0 && CompareParts(b, c) <= 0 ==> CompareParts(a, c) < 0
    ensures CompareParts(a, b) <= 0 && CompareParts(b, c) < 0 ==> CompareParts(a, c) < 0
  {
    if a != [] {
      ComparePartsOrder(a[1..], b[1..], c[1..]);
      assert a == [a[0]] + a[1..] && b == [b[0]] + b[1..];
    }
  }

  lemma {:induction false} FirstPartDecides(p: seq<nat>, q: seq<nat>)
    requires |p| == |q|
    ensures CompareParts(p, q) < 0 <==> exists k :: 0 <= k < |p| && p[..k] == q[..k] && p[k] < q[k]
    decreases |p|
  {
    if p != [] {
      FirstPartDecides(p[1..], q[1..]);
      if k :| 0 <= k < |p| - 1 && p[1..][..k] == q[1..][..k] && p[1..][k] < q[1..][k] && p[0] == q[0] {
        assert p[..k + 1] == [p[0]] + p[1..][..k] && q[..k + 1] == [q[0]] + q[1..][..k];
        assert p[k + 1] < q[k + 1];
      }
      if k :| 0 <= k < |p| && p[..k] == q[..k] && p[k] < q[k] {
        if k > 0 {
          assert p[0] == p[..k][0] && q[0] == q[..k][0];
          assert p[1..][..k - 1] == p[..k][1..] && q[1..][..k - 1] == q[..k][1..];
          assert p[1..][k - 1] < q[1..][k - 1];
        } else {
          assert p[0] < q[0];
        }
      }
    }
  }

  /** The first part that differs decides: major, then minor, then patch. */
  lemma CompareDecides(a: string, b: string)
    requires Parse(a).Some? && Parse(b).Some?
    ensures var p, q := Parse(a).value.parts, Parse(b).value.parts;
            && |p| == |q| == 3 && Compare(a, b).Some?
            && (Compare(a, b).value < 0 <==> exists k :: 0 <= k < 3 && p[..k] == q[..k] && p[k] < q[k])
  {
    hide Parse, CompareParts;
    ParsedShape(a);
    ParsedShape(b);
    FirstPartDecides(Parse(a).value.parts, Parse(b).value.parts);
  }

  /** On the texts themselves: the numerals are compared left to right, as decimal numbers. */
  lemma CompareReads(x: string, y: string, z: string, u: string, v: string, w: string)
    requires Numeric(x) && Numeric(y) && Numeric(z) && Numeric(u) && Numeric(v) && Numeric(w)
    requires Parse(x + "." + y + "." + z).Some? && Parse(u + "." + v + "." + w).Some?
    ensures var c := Compare(x + "." + y + "." + z, u + "." + v + "." + w);
            c.Some? && (c.value < 0 <==> Below(x, u) || (x == u && (Below(y, v) || (y == v && Below(z, w)))))
  {
    hide Parse, CompareParts, Below, Value;
    TextParts(x, y, z);
    TextParts(u, v, w);
    ValueReads(x, u);
    ValueReads(y, v);
    ValueReads(z, w);
    var p, q := [Value(x), Value(y), Value(z)], [Value(u), Value(v), Value(w)];
    FirstPartDecides(p, q);
    TripleDecides(p, q);
  }

  lemma TripleDecides(p: seq<nat>, q: seq<nat>)
    requires |p| == |q| == 3
    ensures (exists k :: 0 <= k < 3 && p[..k] == q[..k] && p[k] < q[k]) <==>
            p[0] < q[0] || (p[0] == q[0] && (p[1] < q[1] || (p[1] == q[1] && p[2] < q[2])))
  {
    assert p[..0] == q[..0];
    assert p[..1] == q[..1] <==> p[0] == q[0];
    assert p[..2] == q[..2] <==> p[0] == q[0] && p[1] == q[1] by {
      if p[..2] == q[..2] { assert p[..2][0] == q[..2][0] && p[..2][1] == q[..2][1]; }
    }
  }

  lemma TextParts(x: string, y: string, z: string)
    requires Numeric(x) && Numeric(y) && Numeric(z) && Parse(x + "." + y + "." + z).Some?
    ensures Parse(x + "." + y + "." + z).value.parts == [Value(x), Value(y), Value(z)]
  {
    hide Parse, Value;
    var g := Groups(x, y, z);
    ParseSpelling("", g, false, None, "");
    assert "" + g.Spelling(false, None) + "" == x + "." + y + "." + z;
  }

  /** Swapping the arguments flips the answer. */
  lemma CompareSwaps(a: string, b: string)
    requires Parse(a).Some? && Parse(b).Some?
    ensures Compare(a, b).Some? && Compare(b, a) == Some(-Compare(a, b).value)
  {
    hide Parse, CompareParts;
    ParsedShape(a);
    ParsedShape(b);
    var p, q := Parse(a).value.parts, Parse(b).value.parts;
    ComparePartsOrder(p, q, q);
  }

  /** Not above is transitive, and stays strict when one step is. */
  lemma CompareTransitive(a: string, b: string, c: string)
    requires Compare(a, b).Some? && Compare(a, b).value <= 0
    requires Compare(b, c).Some? && Compare(b, c).value <= 0
    ensures Compare(a, c).Some? && Compare(a, c).value <= 0
    ensures Compare(a, b).value < 0 || Compare(b, c).value < 0 ==> Compare(a, c).value < 0
  {
    hide Parse, CompareParts;
    ParsedShape(a);
    ParsedShape(b);
    ParsedShape(c);
    ComparePartsOrder(Parse(a).value.parts, Parse(b).value.parts, Parse(c).value.parts);
  }

  /** Two versions tie exactly when they normalise to the same text. */
  lemma CompareTies(a: string, b: string)
    requires Parse(a).Some? && Parse(b).Some?
    ensures Compare(a, b) == Some(0) <==> Parse(a).value.normalized == Parse(b).value.normalized
  {
    hide Parse, CompareParts, Normalize;
    var p, q := Parse(a).value, Parse(b).value;
    ParsedShape(a);
    ParsedShape(b);
    TiesOnParts(p.parts, q.parts);
  }

  lemma TiesOnParts(p: seq<nat>, q: seq<nat>)
    requires Fit64(p) && Fit64(q)
    ensures CompareParts(p, q) == 0 <==> Normalize(p) == Normalize(q)
  {
    ComparePartsOrder(p, q, q);
    if Normalize(p) == Normalize(q) { NormalizeInjective(p, q); }
  }

  /** Comparing two normalized strings, as CheckLatest does, answers for the originals. */
  lemma CompareNormalized(a: string, b: string)
    requires Parse(a).Some? && Parse(b).Some?
    ensures Compare(Parse(a).value.normalized, Parse(b).value.normalized) == Compare(a, b)
  {
    hide Parse, CompareParts;
    ParseNormalized(a);
    ParseNormalized(b);
  }

  /** Build metadata, a leading v and surrounding space are invisible to comparison. */
  lemma CompareIgnoresBuild(left: string, g: Groups, v: bool, build: Option<string>, right: string, other: string)
    requires Blank(left) && Blank(right) && g.Valid() && BuildOk(build)
    ensures Compare(left + g.Spelling(v, build) + right, other) == Compare(g.Core(), other)
    ensures Compare(other, left + g.Spelling(v, build) + right) == Compare(other, g.Core())
  {
    hide Parse;
    ParseSpelling(left, g, v, build, right);
    ParseSpelling("", g, false, None, "");
    assert "" + g.Spelling(false, None) + "" == g.Core();
  }

  // ----- statusFromComparison -----------------------------------------------------------

  datatype Status = Available | Current | Ahead

  function StatusFromComparison(comparison: int): Status {
    if comparison < 0 then Available else if comparison > 0 then Ahead else Current
  }

  /** candidate is a stable version strictly above the running one. */
  predicate Newer(candidate: string, running: string) {
    Compare(running, candidate).Some? && Compare(running, candidate).value < 0
  }

  predicate IsDevelopmentBuild(version: string) { Parse(version).None? }
}
