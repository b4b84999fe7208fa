/** Where the running build lives and which package it installs: internal/update/target.go. */
module Target {
  import opened Text
  import opened Versions

  datatype Kind = AppBundle | Installer | AppImage | Managed | Unknown

  datatype Blocker = NoBlocker | PackageManager | ReadOnly | NotPackaged | Unsupported

  datatype Target = Target(os: string, arch: string, ext: string) {
    function PackageName(version: string): string {
      "mq-studio-" + TrimPrefix(version, "v") + "-" + os + "-" + arch + "." + ext
    }
  }

  /** A path is the list of its elements, outermost first; the root is the empty list. */
  type Path = seq<string>

  datatype Location = Location(kind: Kind, target: Target, root: Option<Path>, blocker: Blocker) {
    predicate CanInstall() { blocker == NoBlocker }
  }

  // ----- bundleRoot ---------------------------------------------------------------------

  /** filepath.Ext of one path element: from its last dot, or nothing. */
  function Ext(element: string): string
    decreases |element|
  {
    if element == "" then ""
    else if element[|element| - 1] == '.' then "."
    else
      var init := Ext(element[..|element| - 1]);
      if init == "" then "" else init + [element[|element| - 1]]
  }

  /** What follows the last dot, dot included. */
  lemma {:induction false} ExtIsTheTail(stem: string, tail: string)
    requires '.' !in tail
    ensures Ext(tail) == "" && Ext(stem + "." + tail) == "." + tail
    decreases |tail|
  {
    var whole := stem + "." + tail;
    if tail == "" {
      assert whole[|whole| - 1] == '.';
    } else {
      var init, last := tail[..|tail| - 1], tail[|tail| - 1];
      assert last in tail;
      ExtIsTheTail(stem, init);
      assert whole[..|whole| - 1] == stem + "." + init && whole[|whole| - 1] == last;
      assert init + [last] == tail;
    }
  }

  predicate IsBundle(directory: Path) {
    directory != [] && EqualFold(Ext(directory[|directory| - 1]), ".app")
  }

  lemma {:induction false} ExtIsASuffix(element: string)
    ensures |Ext(element)| <= |element| && element[|element| - |Ext(element)|..] == Ext(element)
    ensures Ext(element) != "" ==> Ext(element)[0] == '.' && '.' !in Ext(element)[1..]
    decreases |element|
  {
    if element != "" && element[|element| - 1] != '.' { ExtIsASuffix(element[..|element| - 1]); }
  }

  /** A bundle ends in .app, in capitals or not. */
  lemma BundleByName(parent: Path, element: string)
    ensures IsBundle(parent + [element]) <==>
            var n := |element|;
            && n >= 4 && element[n - 4] == '.' && element[n - 3] in {'a', 'A'}
            && element[n - 2] in {'p', 'P'} && element[n - 1] in {'p', 'P'}
  {
    var n := |element|;
    assert (parent + [element])[|parent|] == element;
    ExtIsASuffix(element);
    if n >= 4 && element[n - 4] == '.' && '.' !in element[n - 3..] {
      ExtIsTheTail(element[..n - 4], element[n - 3..]);
      assert element == element[..n - 4] + "." + element[n - 3..];
    }
  }

  /** filepath.Dir: the root is its own parent. */
  function Dir(path: Path): Path {
    if path == [] then [] else path[..|path| - 1]
  }

  function BundleRootFrom(directory: Path): (r: Option<Path>)
    decreases |directory|
  {
    if IsBundle(directory) then Some(directory)
    else if directory == [] then None
    else BundleRootFrom(Dir(directory))
  }

  /** bundleRoot: walk up until a bundle or the root. */
  method BundleRoot(executable: Path) returns (r: Option<Path>)
    ensures r == BundleRootFrom(Dir(executable))
  {
    var directory := Dir(executable);
    while true
      invariant BundleRootFrom(directory) == BundleRootFrom(Dir(executable))
      decreases |directory|
    {
      if IsBundle(directory) { return Some(directory); }
      var parent := Dir(directory);
      if parent == directory { return None; }
      directory := parent;
    }
  }

  /** The walk finds the innermost bundle around the executable, and fails only when there is none. */
  lemma {:induction false} BundleRootIsInnermost(directory: Path)
    ensures var r := BundleRootFrom(directory);
            && (r.Some? ==> r.value <= directory && IsBundle(r.value)
                            && forall p: Path :: r.value < p <= directory ==> !IsBundle(p))
            && (r.None? ==> forall p: Path :: p <= directory ==> !IsBundle(p))
    decreases |directory|
  {
    if !IsBundle(directory) && directory != [] {
      BundleRootIsInnermost(Dir(directory));
      forall p: Path | IsBundle(p) && p <= directory && p != directory ensures p <= Dir(directory) {
        assert p == directory[..|p|] == Dir(directory)[..|p|];
      }
    }
  }

  // ----- locate -------------------------------------------------------------------------

  predicate Supported(goarch: string) { goarch == "amd64" || goarch == "arm64" }

  /**
   * locate. writableParent answers for the directory holding the bundle, writableImage for the
   * AppImage itself.
   */
  function Locate(goos: string, goarch: string, executable: Option<Path>, appImage: Option<Path>,
                  writable: Path -> bool): Location
  {
    var none := Target("", "", "");
    if !Supported(goarch) then Location(Unknown, none, None, Unsupported)
    else if goos == "darwin" then
      var target := Target("mac", goarch, "dmg");
      var root := if executable.Some? then BundleRootFrom(Dir(executable.value)) else None;
      if root.None? then Location(Unknown, target, None, NotPackaged)
      else Location(AppBundle, target, root, if writable(Dir(root.value)) then NoBlocker else ReadOnly)
    else if goos == "windows" then
      var target := Target("windows", goarch, "exe");
      if executable.None? then Location(Unknown, target, None, NotPackaged)
      else Location(Installer, target, executable, NoBlocker)
    else if goos == "linux" then
      if appImage.None? then Location(Managed, Target("linux", goarch, "deb"), None, PackageManager)
      else Location(AppImage, Target("linux", goarch, "AppImage"), appImage,
                    if writable(appImage.value) then NoBlocker else ReadOnly)
    else Location(Unknown, none, None, Unsupported)
  }

  predicate Released(t: Target) {
    && (t.arch == "amd64" || t.arch == "arm64")
    && ((t.os == "mac" && t.ext == "dmg") || (t.os == "windows" && t.ext == "exe") ||
        (t.os == "linux" && t.ext == "AppImage"))
  }

  /** A location that may install names a released target and something Apply can replace. */
  ghost predicate Installable(l: Location) {
    && Released(l.target) && l.root.Some?
    && (l.kind == AppBundle || l.kind == AppImage || l.kind == Installer)
  }

  /** The app may update itself in exactly three shapes of installation. */
  lemma LocateCanInstall(goos: string, goarch: string, executable: Option<Path>, appImage: Option<Path>,
                         writable: Path -> bool)
    ensures var l := Locate(goos, goarch, executable, appImage, writable);
            && (l.CanInstall() ==> Installable(l))
            && (l.CanInstall() <==>
                Supported(goarch) &&
                ((goos == "darwin" && executable.Some? &&
                  exists p: Path :: p <= Dir(executable.value) && IsBundle(p) && writable(Dir(p)) &&
                    forall q: Path :: p < q <= Dir(executable.value) ==> !IsBundle(q))
                 || (goos == "windows" && executable.Some?)
                 || (goos == "linux" && appImage.Some? && writable(appImage.value))))
  {
    if goos == "darwin" && executable.Some? {
      var d := Dir(executable.value);
      BundleRootIsInnermost(d);
      forall p: Path | p <= d && IsBundle(p) && forall q: Path :: p < q <= d ==> !IsBundle(q)
        ensures BundleRootFrom(d) == Some(p)
      {
        var r := BundleRootFrom(d).value;
        PrefixesCompare(p, r, d);
      }
    }
  }

  /** The target is the machine's own, and what is replaced is the installation that runs. */
  lemma LocateIsTheMachine(goos: string, goarch: string, executable: Option<Path>, appImage: Option<Path>,
                           writable: Path -> bool)
    ensures var l := Locate(goos, goarch, executable, appImage, writable);
            && (Supported(goarch) && goos in {"darwin", "windows", "linux"} ==>
                  && l.target.arch == goarch && l.target.os == if goos == "darwin" then "mac" else goos)
            && (l.CanInstall() && goos == "darwin" ==>
                  && l.kind == AppBundle && l.target.ext == "dmg" && executable.Some? && l.root.Some?
                  && l.root.value <= Dir(executable.value) && IsBundle(l.root.value)
                  && forall q: Path :: l.root.value < q <= Dir(executable.value) ==> !IsBundle(q))
            && (l.CanInstall() && goos == "windows" ==>
                  l.kind == Installer && l.target.ext == "exe" && l.root == executable)
            && (l.CanInstall() && goos == "linux" ==>
                  l.kind == AppImage && l.target.ext == "AppImage" && l.root == appImage)
  {
    if goos == "darwin" && executable.Some? { BundleRootIsInnermost(Dir(executable.value)); }
  }

  /** Why the app may not install, one reason a shape. */
  lemma LocateSaysWhyNot(goos: string, goarch: string, executable: Option<Path>, appImage: Option<Path>,
                         writable: Path -> bool)
    ensures var l := Locate(goos, goarch, executable, appImage, writable);
            && (l.blocker == Unsupported <==> !Supported(goarch) || goos !in {"darwin", "windows", "linux"})
            && (l.blocker == PackageManager <==> Supported(goarch) && goos == "linux" && appImage.None?)
            && (l.blocker == NotPackaged <==>
                  && Supported(goarch)
                  && (|| (goos == "windows" && executable.None?)
                      || (goos == "darwin" &&
                          (executable.Some? ==> forall p: Path :: p <= Dir(executable.value) ==> !IsBundle(p)))))
            && (l.blocker != NoBlocker && l.blocker != ReadOnly ==> l.root.None?)
  {
    if goos == "darwin" && executable.Some? { BundleRootIsInnermost(Dir(executable.value)); }
  }

  lemma PrefixesCompare(p: Path, q: Path, d: Path)
    requires p <= d && q <= d
    ensures p == q || p < q || q < p
  {
    if |p| <= |q| { assert q[..|p|] == d[..|p|]; } else { assert p[..|q|] == d[..|q|]; }
  }

  // ----- package names ------------------------------------------------------------------

  predicate NoDash(s: string) { forall i :: 0 <= i < |s| ==> s[i] != '-' }

  function FirstDash(s: string): nat {
    if s == "" || s[0] == '-' then 0 else 1 + FirstDash(s[1..])
  }

  lemma {:induction false} FirstDashAfter(a: string, x: string)
    requires NoDash(a)
    ensures FirstDash(a + ("-" + x)) == |a|
  {
    if a == "" {
      assert a + ("-" + x) == "-" + x;
    } else {
      assert (a + ("-" + x))[1..] == a[1..] + ("-" + x);
      FirstDashAfter(a[1..], x);
    }
  }

  /** Text up to the first dash and the text after it determine each other. */
  lemma SplitAtDash(a: string, x: string, b: string, y: string)
    requires NoDash(a) && NoDash(b) && a + ("-" + x) == b + ("-" + y)
    ensures a == b && x == y
  {
    FirstDashAfter(a, x);
    FirstDashAfter(b, y);
    var s := a + ("-" + x);
    assert s[..|a|] == a && s[..|b|] == b;
    assert s[|a| + 1..] == x && s[|b| + 1..] == y;
  }

  lemma NormalizedNoDash(value: string)
    requires Parse(value).Some?
    ensures var n := Parse(value).value.normalized; NoDash(n) && TrimPrefix(n, "v") == n
  {
    var parts := Parse(value).value.parts;
    ParsedShape(value);
    NormalNoDash(parts);
  }

  lemma NormalNoDash(parts: seq<nat>)
    requires |parts| == 3
    ensures NoDash(Normalize(parts)) && TrimPrefix(Normalize(parts), "v") == Normalize(parts)
  {
    ValueOfDecimal(parts[0]);
    ValueOfDecimal(parts[1]);
    ValueOfDecimal(parts[2]);
    assert Normalize(parts)[0] == Decimal(parts[0])[0];
  }

  /** The names the release workflow gives its packages, with and without a leading v. */
  lemma PackageNamesOfTheWorkflow(version: string)
    requires TrimPrefix(version, "v") == version
    ensures Target("mac", "arm64", "dmg").PackageName(version) == "mq-studio-" + version + "-mac-arm64.dmg"
    ensures Target("windows", "amd64", "exe").PackageName(version) == "mq-studio-" + version + "-windows-amd64.exe"
    ensures forall t: Target :: t.PackageName("v" + version) == t.PackageName(version)
  {
    assert ("v" + version)[1..] == version;
    assert "-" + "mac" + "-" + "arm64" + "." + "dmg" == "-mac-arm64.dmg";
    assert "-" + "windows" + "-" + "amd64" + "." + "exe" == "-windows-amd64.exe";
    var start := "mq-studio-" + version;
    assert start + "-" + "mac" + "-" + "arm64" + "." + "dmg" == start + ("-" + "mac" + "-" + "arm64" + "." + "dmg");
    assert start + "-" + "windows" + "-" + "amd64" + "." + "exe" ==
           start + ("-" + "windows" + "-" + "amd64" + "." + "exe");
  }

  /** What follows the version in a package name. */
  function Suffix(t: Target): string { t.os + "-" + t.arch + "." + t.ext }

  lemma NameShape(t: Target, version: string)
    requires TrimPrefix(version, "v") == version
    ensures t.PackageName(version) == "mq-studio-" + (version + ("-" + Suffix(t)))
  {
  }

  lemma CancelPrefix(p: string, x: string, y: string)
    requires p + x == p + y
    ensures x == y
  {
    assert (p + x)[|p|..] == x && (p + y)[|p|..] == y;
  }

  /** A package name tells its version: two releases never share one, whatever their targets. */
  lemma PackageNameInjective(t: Target, u: Target, a: string, b: string)
    requires Parse(a).Some? && Parse(b).Some?
    requires t.PackageName(Parse(a).value.normalized) == u.PackageName(Parse(b).value.normalized)
    ensures Parse(a).value.normalized == Parse(b).value.normalized && Suffix(t) == Suffix(u)
  {
    var m, n := Parse(a).value.normalized, Parse(b).value.normalized;
    NormalizedNoDash(a);
    NormalizedNoDash(b);
    NamesAgree(t, u, m, n);
  }

  lemma NamesAgree(t: Target, u: Target, m: string, n: string)
    requires NoDash(m) && TrimPrefix(m, "v") == m && NoDash(n) && TrimPrefix(n, "v") == n
    requires t.PackageName(m) == u.PackageName(n)
    ensures m == n && Suffix(t) == Suffix(u)
  {
    NameShape(t, m);
    NameShape(u, n);
    CancelPrefix("mq-studio-", m + ("-" + Suffix(t)), n + ("-" + Suffix(u)));
    SplitAtDash(m, Suffix(t), n, Suffix(u));
  }

  /** A released package is never a partial download and never the updater's own memory. */
  lemma PackageNameIsItsOwn(t: Target, version: string)
    requires Released(t)
    ensures var name := t.PackageName(version);
            !HasSuffix(name, ".part") && |name| > 11 && name[0] == 'm' && name != "update.json"
  {
    var name := t.PackageName(version);
    assert name[0] == 'm';
    assert name[|name| - 1] == t.ext[|t.ext| - 1];
    assert name[|name| - 5..][4] == name[|name| - 1];
  }
}
