/** What a check concludes from the manifest that won: internal/update/update.go, CheckLatest. */
module Checking {
  import opened Text
  import opened Versions
  import opened Mirrors
  import opened Race

  datatype Release = Release(
    status: Status, currentVersion: string, latestVersion: string,
    notes: string, publishedAt: string, releaseURL: string,
    manifest: Manifest, mirror: Mirror, order: seq<Mirror>)

  /** CheckLatest after the race; it compares the two normalized texts, not the originals. */
  function Conclude(currentVersion: string, fetched: Fetched): Option<Release> {
    var current, latest := Parse(currentVersion), Parse(fetched.manifest.version);
    if current.None? || latest.None? then None else
    var comparison := Compare(current.value.normalized, latest.value.normalized);
    if comparison.None? then None else
    Some(Release(
           StatusFromComparison(comparison.value), current.value.normalized, latest.value.normalized,
           TrimSpace(fetched.manifest.notes), TrimSpace(fetched.manifest.publishedAt),
           TrimSpace(fetched.manifest.releaseURL),
           fetched.manifest, fetched.mirror, fetched.order))
  }

  /** A version as CheckLatest reports it. */
  predicate Normal(version: string) { Parse(version).Some? && Parse(version).value.normalized == version }

  predicate Offers(m: Manifest, version: string) {
    Parse(m.version).Some? && Parse(m.version).value.normalized == version
  }

  /** The text without the space around it. */
  ghost predicate TrimmedFrom(text: string, raw: string) {
    && (text != "" ==> !IsSpace(text[0]) && !IsSpace(text[|text| - 1]))
    && exists left, right :: Blank(left) && Blank(right) && raw == left + text + right
  }

  lemma TrimSpaceTrims(raw: string)
    ensures TrimmedFrom(TrimSpace(raw), raw)
  {
    hide TrimSpace, IsSpace;
    var left, right := TrimSpaceSplits(raw);
    assert raw == left + TrimSpace(raw) + right;
  }

  /**
   * A usable manifest always concludes for a release build. The release is called available exactly
   * when its version compares strictly above the running one, current exactly when the two normalise
   * alike.
   */
  lemma ConcludeMeans(currentVersion: string, fetched: Fetched)
    requires Usable(fetched.manifest)
    ensures Conclude(currentVersion, fetched).None? <==> IsDevelopmentBuild(currentVersion)
    ensures Conclude(currentVersion, fetched).Some? ==>
              var r := Conclude(currentVersion, fetched).value;
              && Normal(r.latestVersion) && Offers(r.manifest, r.latestVersion)
              && (r.status == Available <==> Newer(r.latestVersion, currentVersion))
              && (r.status == Current <==> r.latestVersion == r.currentVersion)
              && Normal(r.currentVersion) && Compare(r.currentVersion, currentVersion) == Some(0)
              && r.manifest == fetched.manifest && r.mirror == fetched.mirror && r.order == fetched.order
              && TrimmedFrom(r.notes, fetched.manifest.notes)
              && TrimmedFrom(r.publishedAt, fetched.manifest.publishedAt)
              && TrimmedFrom(r.releaseURL, fetched.manifest.releaseURL)
  {
    hide Parse, TrimSpace, TrimmedFrom, CompareParts;
    TrimSpaceTrims(fetched.manifest.notes);
    TrimSpaceTrims(fetched.manifest.publishedAt);
    TrimSpaceTrims(fetched.manifest.releaseURL);
    if !IsDevelopmentBuild(currentVersion) {
      ParseNormalized(currentVersion);
      CompareTies(Parse(currentVersion).value.normalized, currentVersion);
      ParseNormalized(fetched.manifest.version);
      Agree(currentVersion, fetched.manifest.version);
    }
  }

  lemma Agree(a: string, b: string)
    requires Parse(a).Some? && Parse(b).Some?
    ensures var m, n := Parse(a).value.normalized, Parse(b).value.normalized;
            && Compare(m, n).Some? && Compare(a, n) == Compare(m, n)
            && (Compare(m, n) == Some(0) <==> m == n)
  {
    ParseNormalized(a);
    ParseNormalized(b);
    CompareTies(a, b);
  }
}
