/** Where a release can be fetched from: internal/update/mirror.go. */
module Mirrors {
  import opened Text
  import opened Versions

  const HTTPS := "https://"

  datatype Mirror = Mirror(name: string, manifestURL: string, assetBase: string) {
    predicate Valid() {
      name != "" && HTTPS <= manifestURL && HTTPS <= assetBase
    }
  }

  /** AssetURL: one slash between the base and the path, however each is written. */
  function AssetURL(m: Mirror, path: string): string {
    TrimSuffix(m.assetBase, "/") + "/" + TrimPrefix(path, "/")
  }

  lemma AssetURLJoinsOnce(name: string, manifestURL: string, base: string, path: string)
    requires base != "" && base[|base| - 1] != '/' && (path != "" ==> path[0] != '/')
    ensures forall b, p :: b in {base, base + "/"} && p in {path, "/" + path} ==>
              AssetURL(Mirror(name, manifestURL, b), p) == base + "/" + path
  {
    assert (base + "/")[..|base|] == base && (base + "/")[|base|..] == "/";
    assert base[|base| - 1..] != "/" by { assert base[|base| - 1..][0] != '/'; }
    assert ("/" + path)[1..] == path;
  }

  function BootstrapMirrors(): seq<Mirror> {
    [Mirror("r2",
            HTTPS + "dl.amigoer.com/mq-studio/latest.json",
            HTTPS + "dl.amigoer.com/mq-studio"),
     Mirror("github",
            HTTPS + "github.com/amigoer/mq-studio/releases/latest/download/manifest.json",
            HTTPS + "github.com/amigoer/mq-studio/releases/download")]
  }

  // ----- MergeMirrors -------------------------------------------------------------------

  ghost function Names(ms: seq<Mirror>): set<string> {
    set m | m in ms :: m.name
  }

  /** First valid entry of each name, in order, skipping names already seen. */
  function Distinct(ms: seq<Mirror>, seen: set<string>): seq<Mirror> {
    if ms == [] then []
    else if ms[0].Valid() && ms[0].name !in seen
    then [ms[0]] + Distinct(ms[1..], seen + {ms[0].name})
    else Distinct(ms[1..], seen)
  }

  function Merge(known: seq<Mirror>, learned: seq<Mirror>): seq<Mirror> {
    Distinct(known + learned, {})
  }

  /** MergeMirrors: two passes sharing one seen map. */
  method MergeMirrors(known: seq<Mirror>, learned: seq<Mirror>) returns (merged: seq<Mirror>)
    ensures merged == Merge(known, learned)
  {
    merged := [];
    var seen: set<string> := {};
    var all := known + learned;
    assert all[0..] == all;
    for index := 0 to |known|
      invariant Merge(known, learned) == merged + Distinct(all[index..], seen)
    {
      var mirror := known[index];
      assert all[index] == mirror && all[index..][1..] == all[index + 1..];
      if mirror.Valid() && mirror.name !in seen {
        seen := seen + {mirror.name};
        merged := merged + [mirror];
      }
    }
    for index := 0 to |learned|
      invariant Merge(known, learned) == merged + Distinct(all[|known| + index..], seen)
    {
      var mirror := learned[index];
      assert all[|known| + index] == mirror && all[|known| + index..][1..] == all[|known| + index + 1..];
      if mirror.Valid() && mirror.name !in seen {
        seen := seen + {mirror.name};
        merged := merged + [mirror];
      }
    }
  }

  /** Every entry is usable and every name appears once. */
  ghost predicate Clean(ms: seq<Mirror>) {
    && (forall i :: 0 <= i < |ms| ==> ms[i].Valid())
    && (forall i, j :: 0 <= i < j < |ms| ==> ms[i].name != ms[j].name)
  }

  /** Entry i is usable and no usable entry of its name comes before it. */
  ghost predicate FirstOfItsName(ms: seq<Mirror>, i: nat)
    requires i < |ms|
  {
    ms[i].Valid() && forall j :: 0 <= j < i && ms[j].Valid() ==> ms[j].name != ms[i].name
  }

  lemma {:induction false} DistinctClean(ms: seq<Mirror>, seen: set<string>)
    ensures Clean(Distinct(ms, seen))
    ensures forall m :: m in Distinct(ms, seen) ==> m in ms && m.name !in seen
  {
    if ms != [] {
      var seen' := if ms[0].Valid() && ms[0].name !in seen then seen + {ms[0].name} else seen;
      DistinctClean(ms[1..], seen');
      forall m | m in Distinct(ms, seen) ensures m in ms && m.name !in seen {
        if m in Distinct(ms[1..], seen') { assert m in ms[1..]; }
      }
    }
  }

  /** Merging keeps exactly the first usable entry of every name in either list. */
  lemma MergeKeepsFirsts(known: seq<Mirror>, learned: seq<Mirror>, m: Mirror)
    ensures Clean(Merge(known, learned))
    ensures m in Merge(known, learned) <==>
            exists i :: 0 <= i < |known + learned| && (known + learned)[i] == m && FirstOfItsName(known + learned, i)
  {
    DistinctClean(known + learned, {});
    DistinctFirsts(known + learned, {}, m);
  }

  lemma {:induction false} DistinctFirsts(ms: seq<Mirror>, seen: set<string>, m: Mirror)
    ensures m in Distinct(ms, seen) <==>
            m.name !in seen && exists i :: 0 <= i < |ms| && ms[i] == m && FirstOfItsName(ms, i)
  {
    if ms != [] {
      var take := ms[0].Valid() && ms[0].name !in seen;
      var seen' := if take then seen + {ms[0].name} else seen;
      DistinctFirsts(ms[1..], seen', m);
      if m in Distinct(ms[1..], seen') {
        var i :| 0 <= i < |ms[1..]| && ms[1..][i] == m && FirstOfItsName(ms[1..], i);
        assert ms[i + 1] == m;
        assert FirstOfItsName(ms, i + 1) by {
          forall j | 0 <= j < i + 1 && ms[j].Valid() ensures ms[j].name != m.name {
            if j > 0 { assert ms[1..][j - 1] == ms[j]; }
          }
        }
      }
      if m.name !in seen && exists i :: 0 <= i < |ms| && ms[i] == m && FirstOfItsName(ms, i) {
        var i :| 0 <= i < |ms| && ms[i] == m && FirstOfItsName(ms, i);
        if i > 0 {
          assert ms[1..][i - 1] == m;
          assert FirstOfItsName(ms[1..], i - 1) by {
            forall j | 0 <= j < i - 1 && ms[1..][j].Valid() ensures ms[1..][j].name != m.name {
              assert ms[j + 1] == ms[1..][j];
            }
          }
        }
      }
    }
  }

  lemma {:induction false} DistinctAppend(a: seq<Mirror>, b: seq<Mirror>, seen: set<string>)
    ensures Distinct(a + b, seen) == Distinct(a, seen) + Distinct(b, seen + Names(Distinct(a, seen)))
  {
    hide Names;
    NamesOfNone();
    if a == [] {
      assert a + b == b && seen + Names([]) == seen;
    } else {
      assert (a + b)[1..] == a[1..] + b;
      if a[0].Valid() && a[0].name !in seen {
        var seen' := seen + {a[0].name};
        var rest := Distinct(a[1..], seen');
        DistinctAppend(a[1..], b, seen');
        NamesCons(a[0], rest);
        assert seen' + Names(rest) == seen + Names(Distinct(a, seen));
      } else {
        DistinctAppend(a[1..], b, seen);
      }
    }
  }

  lemma NamesOfNone()
    ensures Names([]) == {}
  {
  }

  lemma NamesCons(m: Mirror, ms: seq<Mirror>)
    ensures Names([m] + ms) == {m.name} + Names(ms)
  {
    forall n ensures n in Names([m] + ms) <==> n in {m.name} + Names(ms) {
      if n in Names(ms) {
        var x :| x in ms && x.name == n;
        assert x in [m] + ms;
      }
      if n == m.name { assert m in [m] + ms; }
    }
  }

  lemma {:induction false} DistinctOfClean(ms: seq<Mirror>, seen: set<string>)
    requires Clean(ms) && forall m :: m in ms ==> m.name !in seen
    ensures Distinct(ms, seen) == ms
  {
    if ms != [] {
      assert ms[0] in ms;
      forall m | m in ms[1..] ensures m.name !in seen + {ms[0].name} {
        assert m in ms;
      }
      assert Clean(ms[1..]) by {
        forall i, j | 0 <= i < j < |ms[1..]| ensures ms[1..][i].name != ms[1..][j].name {
          assert ms[i + 1].name != ms[j + 1].name;
        }
      }
      DistinctOfClean(ms[1..], seen + {ms[0].name});
    }
  }

  /** A name seen for nothing, because it is filtered later anyway, does not change the result. */
  lemma {:induction false} DistinctTwice(ms: seq<Mirror>, inner: set<string>, outer: set<string>)
    requires inner <= outer
    ensures Distinct(Distinct(ms, inner), outer) == Distinct(ms, outer)
  {
    if ms != [] {
      if ms[0].Valid() && ms[0].name !in inner {
        var rest := Distinct(ms[1..], inner + {ms[0].name});
        assert Distinct(ms, inner)[1..] == rest;
        if ms[0].name !in outer {
          DistinctTwice(ms[1..], inner + {ms[0].name}, outer + {ms[0].name});
        } else {
          DistinctTwice(ms[1..], inner + {ms[0].name}, outer);
        }
      } else {
        DistinctTwice(ms[1..], inner, outer);
      }
    }
  }

  /** Cleaning either side first changes nothing. */
  lemma MergeAbsorbs(a: seq<Mirror>, b: seq<Mirror>)
    ensures Distinct(Distinct(a, {}) + b, {}) == Distinct(a + b, {})
    ensures Distinct(a + Distinct(b, {}), {}) == Distinct(a + b, {})
  {
    var d := Distinct(a, {});
    DistinctAppend(a, b, {});
    DistinctAppend(d, b, {});
    DistinctTwice(a, {}, {});
    DistinctAppend(a, Distinct(b, {}), {});
    DistinctTwice(b, {}, {} + Names(d));
  }

  /** Folding lists one after another or all at once is the same. */
  lemma MergeAssociative(a: seq<Mirror>, b: seq<Mirror>, c: seq<Mirror>)
    ensures Merge(Merge(a, b), c) == Merge(a, Merge(b, c))
  {
    hide Distinct;
    MergeAbsorbs(a + b, c);
    MergeAbsorbs(a, b + c);
    assert (a + b) + c == a + (b + c);
  }

  /** Learning the same list again adds nothing. */
  lemma MergeIdempotent(a: seq<Mirror>, b: seq<Mirror>)
    ensures Merge(Merge(a, b), b) == Merge(a, b)
    ensures Merge(Merge(a, b), []) == Merge(a, b)
  {
    hide Distinct;
    var m := Merge(a, b);
    MergeAbsorbs(a + b, b);
    assert (a + b) + b == a + (b + b);
    MergeAbsorbs(a, b + b);
    DistinctAppend(b, b, {});
    DistinctSeenAll(b, {} + Names(Distinct(b, {})));
    assert Distinct(b + b, {}) == Distinct(b, {});
    MergeAbsorbs(a, b);
    DistinctClean(a + b, {});
    DistinctOfClean(m, {});
    assert m + [] == m;
  }

  /** Nothing survives once every usable name has been seen. */
  lemma DistinctSeenAll(ms: seq<Mirror>, seen: set<string>)
    requires Names(Distinct(ms, {})) <= seen
    ensures Distinct(ms, seen) == []
  {
    DistinctTwice(ms, {}, seen);
    var d := Distinct(ms, {});
    forall m | m in d ensures m.name in seen { assert m.name in Names(d); }
    DistinctNoneLeft(d, seen);
  }

  lemma {:induction false} DistinctNoneLeft(ms: seq<Mirror>, seen: set<string>)
    requires forall m :: m in ms ==> m.name in seen
    ensures Distinct(ms, seen) == []
  {
    if ms != [] {
      assert ms[0] in ms;
      DistinctNoneLeft(ms[1..], seen);
    }
  }

  /** Whatever is learned, a clean list already known stays in front, in order and unchanged. */
  lemma MergeKeepsKnown(known: seq<Mirror>, learned: seq<Mirror>)
    requires Clean(known)
    ensures known <= Merge(known, learned)
  {
    DistinctAppend(known, learned, {});
    DistinctOfClean(known, {});
  }

  /** LearnedMirrors after a history of manifests, as rememberMirror folds them in. */
  function Learn(start: seq<Mirror>, history: seq<seq<Mirror>>): seq<Mirror>
    decreases |history|
  {
    if history == [] then start
    else
      var last := history[|history| - 1];
      var before := Learn(start, history[..|history| - 1]);
      if last == [] then before else Merge(before, last)
  }

  function Flatten(history: seq<seq<Mirror>>): seq<Mirror>
    decreases |history|
  {
    if history == [] then []
    else Flatten(history[..|history| - 1]) + history[|history| - 1]
  }

  /** The list plan works from: the compiled-in mirrors with the learned ones folded in. */
  function Plan(learned: seq<Mirror>): seq<Mirror> {
    Merge(BootstrapMirrors(), learned)
  }

  lemma BootstrapIsClean()
    ensures Clean(BootstrapMirrors())
  {
    var b := BootstrapMirrors();
    assert HTTPS <= b[0].manifestURL && HTTPS <= b[0].assetBase;
    assert HTTPS <= b[1].manifestURL && HTTPS <= b[1].assetBase;
    assert |b[0].name| != |b[1].name|;
  }

  /** Folding lists in one at a time leaves the same merge as folding in all they ever named. */
  lemma {:induction false} LearnIsOneMerge(known: seq<Mirror>, start: seq<Mirror>, history: seq<seq<Mirror>>)
    ensures Merge(known, Learn(start, history)) == Merge(known, start + Flatten(history))
    decreases |history|
  {
    hide Distinct;
    if history == [] {
      assert start + [] == start;
    } else {
      var last, init := history[|history| - 1], history[..|history| - 1];
      LearnIsOneMerge(known, start, init);
      var before, all := Learn(start, init), start + Flatten(init);
      assert all + last == start + Flatten(history);
      if last == [] {
        assert all + last == all;
      } else {
        MergeThen(known, before, last);
        MergeThen(known, all, last);
      }
    }
  }

  lemma MergeThen(known: seq<Mirror>, x: seq<Mirror>, last: seq<Mirror>)
    ensures Merge(known, Merge(x, last)) == Merge(Merge(known, x), last)
    ensures Merge(known, x + last) == Merge(Merge(known, x), last)
  {
    MergeAssociative(known, x, last);
    MergeAbsorbs(known, x + last);
  }

  /**
   * Folding manifests in one at a time plans the same list as merging all they ever named at
   * once, and the compiled-in mirrors lead it whatever the stored list held to begin with.
   */
  lemma PlanAfterHistory(start: seq<Mirror>, history: seq<seq<Mirror>>)
    ensures Plan(Learn(start, history)) == Merge(BootstrapMirrors(), start + Flatten(history))
    ensures BootstrapMirrors() <= Plan(Learn(start, history))
    ensures Clean(Plan(Learn(start, history)))
  {
    var boot := BootstrapMirrors();
    BootstrapIsClean();
    MergeKeepsKnown(boot, Learn(start, history));
    DistinctClean(boot + Learn(start, history), {});
    LearnIsOneMerge(boot, start, history);
  }

  // ----- orderFrom and findMirror -------------------------------------------------------

  function Others(ms: seq<Mirror>, name: string): seq<Mirror> {
    if ms == [] then []
    else (if ms[0].name != name then [ms[0]] else []) + Others(ms[1..], name)
  }

  method OrderFrom(mirrors: seq<Mirror>, winner: Mirror) returns (order: seq<Mirror>)
    ensures order == [winner] + Others(mirrors, winner.name)
  {
    order := [winner];
    assert mirrors[0..] == mirrors;
    for index := 0 to |mirrors|
      invariant order + Others(mirrors[index..], winner.name) == [winner] + Others(mirrors, winner.name)
    {
      assert mirrors[index..][1..] == mirrors[index + 1..];
      if mirrors[index].name != winner.name {
        order := order + [mirrors[index]];
      }
    }
  }

  lemma {:induction false} OthersOfAbsent(ms: seq<Mirror>, name: string)
    requires forall i :: 0 <= i < |ms| ==> ms[i].name != name
    ensures Others(ms, name) == ms
  {
    if ms != [] { OthersOfAbsent(ms[1..], name); }
  }

  lemma {:induction false} OthersAppend(a: seq<Mirror>, b: seq<Mirror>, name: string)
    ensures Others(a + b, name) == Others(a, name) + Others(b, name)
  {
    if a == [] {
      assert a + b == b;
    } else {
      assert (a + b)[1..] == a[1..] + b;
      OthersAppend(a[1..], b, name);
    }
  }

  /** With unique names the order is the winner followed by the list with just the winner cut out. */
  lemma OrderIsRotation(mirrors: seq<Mirror>, k: nat)
    requires Clean(mirrors) && k < |mirrors|
    ensures Others(mirrors, mirrors[k].name) == mirrors[..k] + mirrors[k + 1..]
    ensures multiset([mirrors[k]] + Others(mirrors, mirrors[k].name)) == multiset(mirrors)
  {
    var front, back := mirrors[..k], mirrors[k + 1..];
    forall i | 0 <= i < |back| ensures back[i].name != mirrors[k].name {
      assert back[i] == mirrors[k + 1 + i];
    }
    SplitAt(mirrors, k);
    OthersCutsOut(front, mirrors[k], back);
  }

  lemma SplitAt(ms: seq<Mirror>, k: nat)
    requires k < |ms|
    ensures ms == ms[..k] + ([ms[k]] + ms[k + 1..])
    ensures multiset([ms[k]] + (ms[..k] + ms[k + 1..])) == multiset(ms)
  {
    assert ms == ms[..k] + ([ms[k]] + ms[k + 1..]);
  }

  lemma OthersCutsOut(front: seq<Mirror>, m: Mirror, back: seq<Mirror>)
    requires forall i :: 0 <= i < |front| ==> front[i].name != m.name
    requires forall i :: 0 <= i < |back| ==> back[i].name != m.name
    ensures Others(front + ([m] + back), m.name) == front + back
  {
    OthersAppend(front, [m] + back, m.name);
    OthersOfAbsent(front, m.name);
    OthersSkipsHead(m, back);
  }

  lemma OthersSkipsHead(m: Mirror, back: seq<Mirror>)
    requires forall i :: 0 <= i < |back| ==> back[i].name != m.name
    ensures Others([m] + back, m.name) == back
  {
    OthersOfAbsent(back, m.name);
    assert ([m] + back)[1..] == back;
  }

  function FindMirror(ms: seq<Mirror>, name: string): (r: Option<Mirror>)
    ensures r.None? <==> name !in Names(ms)
    ensures r.Some? ==> r.value in ms && r.value.name == name
  {
    if ms == [] then None
    else if ms[0].name == name then Some(ms[0])
    else
      NamesCons(ms[0], ms[1..]);
      assert [ms[0]] + ms[1..] == ms;
      FindMirror(ms[1..], name)
  }

  // ----- manifests ----------------------------------------------------------------------

  datatype ManifestFile = ManifestFile(path: string, size: int, sha256: string)

  datatype Manifest = Manifest(
    schema: int, version: string, publishedAt: string, releaseURL: string, notes: string,
    mirrors: seq<Mirror>, files: map<string, ManifestFile>)

  datatype ManifestError = SchemaTooNew | NoSchema | NoStableVersion | NoPackages | NoPath(name: string) | NoChecksum(name: string)

  const SUPPORTED_SCHEMA := 1
  const HEX_SHA256 := 64

  /** What a usable manifest looks like. */
  ghost predicate Usable(m: Manifest) {
    && 1 <= m.schema <= SUPPORTED_SCHEMA
    && Parse(m.version).Some?
    && m.files != map[]
    && forall name :: name in m.files ==> m.files[name].path != "" && |m.files[name].sha256| == HEX_SHA256
  }

  /** The checks ParseManifest makes once the bytes are decoded; files come in any order. */
  method CheckManifest(m: Manifest) returns (r: Result<Manifest, ManifestError>)
    ensures r.Ok? <==> Usable(m)
    ensures r.Ok? ==> r.value == m
    ensures r == Err(SchemaTooNew) <==> m.schema > SUPPORTED_SCHEMA
    ensures r == Err(NoSchema) <==> m.schema < 1
    ensures r == Err(NoStableVersion) <==> 1 <= m.schema <= SUPPORTED_SCHEMA && Parse(m.version).None?
    ensures r == Err(NoPackages) <==>
            1 <= m.schema <= SUPPORTED_SCHEMA && Parse(m.version).Some? && m.files == map[]
    ensures r.Err? && r.error.NoPath? ==> r.error.name in m.files && m.files[r.error.name].path == ""
    ensures r.Err? && r.error.NoChecksum? ==>
              r.error.name in m.files && |m.files[r.error.name].sha256| != HEX_SHA256
  {
    hide Parse;
    if m.schema > SUPPORTED_SCHEMA { return Err(SchemaTooNew); }
    if m.schema < 1 { return Err(NoSchema); }
    var version := ParseStableVersion(m.version);
    if version.None? { return Err(NoStableVersion); }
    if |m.files| == 0 { return Err(NoPackages); }
    var names := m.files.Keys;
    while names != {}
      invariant names <= m.files.Keys
      invariant forall name :: name in m.files && name !in names ==>
                  m.files[name].path != "" && |m.files[name].sha256| == HEX_SHA256
      decreases names
    {
      var name :| name in names;
      if m.files[name].path == "" { return Err(NoPath(name)); }
      if |m.files[name].sha256| != HEX_SHA256 { return Err(NoChecksum(name)); }
      names := names - {name};
    }
    return Ok(m);
  }
}
