/** What every step of the lifecycle keeps. */
module Invariants {
  import opened Text
  import opened Versions
  import opened Mirrors
  import opened Target
  import opened Disk
  import opened Checking
  import opened Sections
  import opened Lifecycle
  import D = Download
  import P = Publisher

  // ----- files --------------------------------------------------------------------------

  /** p is the download path of a released package of exactly this version. */
  ghost predicate PackagePath(directory: string, p: string, version: string) {
    Normal(version) && exists t: Target :: Released(t) && p == Join(directory, t.PackageName(version))
  }

  /** Manifest m publishes, for target t, a file at p whose digest this content has. */
  ghost predicate AttestedBy(sha: Bytes -> string, directory: string, m: Manifest, t: Target, p: string, f: File) {
    && Usable(m) && Released(t)
    && (var name := t.PackageName(Parse(m.version).value.normalized);
        p == Join(directory, name) && name in m.files && D.Matches(sha, f, m.files[name].sha256))
  }

  ghost predicate Attested(sha: Bytes -> string, directory: string, seen: set<Manifest>, p: string, f: File) {
    exists m, t :: m in seen && AttestedBy(sha, directory, m, t, p, f)
  }

  ghost predicate MemoryOk(directory: string, m: Memory) {
    if m.readyPath == "" then m.readyVersion == "" else PackagePath(directory, m.readyPath, m.readyVersion)
  }

  /** The only files there are: the memory, partial downloads, and packages a manifest vouched for. */
  ghost predicate FileOk(sha: Bytes -> string, directory: string, seen: set<Manifest>, p: string, f: File) {
    || (p == MemoryPath(directory) && (f.Memo? ==> MemoryOk(directory, f.memory)))
    || HasSuffix(p, ".part")
    || Attested(sha, directory, seen, p, f)
  }

  ghost predicate FilesOk(sha: Bytes -> string, directory: string, seen: set<Manifest>, files: Files) {
    forall p :: p in files ==> FileOk(sha, directory, seen, p, files[p])
  }

  // ----- calls in flight ----------------------------------------------------------------

  ghost predicate ListsOk(lists: seq<seq<Mirror>>) {
    forall k :: 0 <= k < |lists| ==> Clean(lists[k])
  }

  ghost predicate AllValid(ms: seq<Mirror>) { forall m :: m in ms ==> m.Valid() }

  ghost predicate ReleaseOk(session: Session, seen: set<Manifest>, r: Release) {
    && Normal(r.latestVersion) && r.manifest in seen && Usable(r.manifest)
    && Offers(r.manifest, r.latestVersion)
    && (r.status == Available ==> Newer(r.latestVersion, session.version))
    && AllValid(r.order) && r.mirror.Valid()
  }

  ghost predicate OpOk(session: Session, directory: string, seen: set<Manifest>, op: Op) {
    match op
    case CheckAsk(_, lists) => ListsOk(lists)
    case CheckTold(_, r) => ReleaseOk(session, seen, r)
    case PreAsk(lists) => ListsOk(lists)
    case Pending(r) => ReleaseOk(session, seen, r) && r.status == Available
    case Fetching(r, rest, at) =>
      && ReleaseOk(session, seen, r) && r.status == Available && session.location.CanInstall()
      && AllValid(rest) && (at.Trying? ==> at.mirror.Valid()) && (at.Sweeping? ==> rest != [])
      && (at.Unlisted? <==> session.location.target.PackageName(r.latestVersion) !in r.manifest.files)
    case Installing(p, v) => PackagePath(directory, p, v) && Newer(v, session.version)
    case Quitting(p, v) => PackagePath(directory, p, v) && Newer(v, session.version)
    case _ => true
  }

  ghost predicate OpsOk(session: Session, directory: string, seen: set<Manifest>, ops: map<nat, Op>) {
    forall i :: i in ops ==> OpOk(session, directory, seen, ops[i])
  }

  // ----- who does what ------------------------------------------------------------------

  /** Downloads are numbered once: which ones began, and who may be told to cancel. */
  ghost predicate CancelOk(w: World) {
    && (forall i :: i in w.ops ==> i < w.next)
    && (forall i :: i in w.begun ==> i < w.next)
    && (forall i :: i in w.ops ==> (IsDownload(w.ops[i]) <==> i in w.begun))
    && (forall i :: i in w.ops && w.ops[i].Cancelling? ==> w.ops[i].token in w.begun)
    && w.cancelled <= w.begun
  }

  /** busy is one call's, and cancel is that call's when it is a download. */
  ghost predicate OwnerOk(w: World) {
    && (w.sh.busy <==> w.owner.Some?)
    && (w.owner.Some? ==> w.owner.value in w.ops && Owns(w.ops[w.owner.value]))
    && (forall i :: i in w.ops && Owns(w.ops[i]) ==> w.owner == Some(i))
    && w.sh.cancel == (if w.owner.Some? && IsDownload(w.ops[w.owner.value]) then w.owner else None)
  }

  /** The phase names work that is really going on. */
  ghost predicate PhaseOk(w: World)
    requires w.owner.Some? ==> w.owner.value in w.ops
  {
    var s := w.sh.state;
    && (s.phase == PhaseChecking ==> w.owner.Some? && IsCheck(w.ops[w.owner.value]))
    && (s.phase == PhaseDownloading ==> w.owner.Some? && w.ops[w.owner.value].Fetching?)
    && (s.phase == PhaseInstalling ==> w.installer.Some? && w.installer.value in w.ops && w.ops[w.installer.value].Installing?)
    && (s.phase == PhaseReady ==>
          && w.sh.memory.readyPath != "" && s.latestVersion == w.sh.memory.readyVersion
          && (w.owner.Some? ==> w.ops[w.owner.value].Closing?))
    && (w.owner.Some? && w.ops[w.owner.value].Fetching? ==>
          s.latestVersion == w.ops[w.owner.value].release.latestVersion)
  }

  ghost predicate Control(w: World) { CancelOk(w) && OwnerOk(w) && PhaseOk(w) }

  // ----- the shared state ---------------------------------------------------------------

  /** What the user may be shown: nothing that is not newer, no error without its step. */
  ghost predicate Shown(version: string, s: State) {
    && (s.latestVersion != "" ==> Newer(s.latestVersion, version))
    && (s.phase == PhaseError ==> s.failedStep != StepNone)
  }

  ghost predicate StateOk(sh: Shared) {
    && Located(sh.session.location)
    && Shown(sh.session.version, sh.state)
    && MemoryOk(sh.directory, sh.memory)
    && (sh.memory.readyPath != "" ==> Newer(sh.memory.readyVersion, sh.session.version))
    && sh.state.skipped == sh.memory.skipped && sh.state.checkedAt == sh.memory.checkedAt
  }

  ghost predicate OnDisk(sh: Shared) {
    MemoryPath(sh.directory) in sh.files && sh.files[MemoryPath(sh.directory)] == Memo(sh.memory)
  }

  ghost predicate SlotOk(version: string, slot: P.Slot<State>) {
    && P.Inv(slot)
    && forall k :: 0 <= k < |slot.history| ==> Shown(version, slot.history[k])
  }

  ghost predicate SharedOk(sha: Bytes -> string, seen: set<Manifest>, synced: bool, sh: Shared) {
    && FilesOk(sha, sh.directory, seen, sh.files)
    && StateOk(sh)
    && (synced ==> OnDisk(sh))
    && SlotOk(sh.session.version, sh.slot)
  }

  /** The partial file of a running download is as its own progress says. */
  ghost predicate FetchOk(sha: Bytes -> string, sh: Shared, ops: map<nat, Op>) {
    forall i :: i in ops && ops[i].Fetching? && ops[i].at.Trying? ==>
      D.PartOk(sha, DestOf(sh, ops[i].release), WantOf(sh, ops[i].release), sh.files, ops[i].at.pc)
  }

  ghost predicate Inv(sha: Bytes -> string, w: World) {
    && Control(w)
    && SharedOk(sha, w.seen, w.synced, w.sh)
    && OpsOk(w.sh.session, w.sh.directory, w.seen, w.ops)
    && FetchOk(sha, w.sh, w.ops)
  }

  // ----- names --------------------------------------------------------------------------

  /** The memory, partial files and packages never get in each other's way. */
  lemma PackageIsApart(directory: string, t: Target, version: string)
    requires Released(t)
    ensures var p := Join(directory, t.PackageName(version));
            p != "" && p != MemoryPath(directory) && !HasSuffix(p, ".part")
  {
    var name := t.PackageName(version);
    PackageNameIsItsOwn(t, version);
    var p := Join(directory, name);
    if p == MemoryPath(directory) { JoinInjective(directory, name, MEMORY_FILE); }
    assert p[|p| - 5..] == name[|name| - 5..];
  }

  lemma PackagePathIsApart(directory: string, p: string, version: string)
    requires PackagePath(directory, p, version)
    ensures p != "" && p != MemoryPath(directory) && !HasSuffix(p, ".part")
  {
    var t: Target :| Released(t) && p == Join(directory, t.PackageName(version));
    PackageIsApart(directory, t, version);
  }

  lemma PartialIsPart(dest: string)
    ensures HasSuffix(D.Partial(dest), ".part")
  {
    var p := D.Partial(dest);
    assert p[|p| - 5..] == ".part";
  }

  lemma MemoryPathIsApart(directory: string)
    ensures !HasSuffix(MemoryPath(directory), ".part")
  {
    var p := MemoryPath(directory);
    assert p[|p| - 1] == MEMORY_FILE[|MEMORY_FILE| - 1] == 'n';
    assert |p| >= 5 ==> p[|p| - 5..][4] == 'n';
  }

  // ----- files are kept -----------------------------------------------------------------

  lemma FilesGrow(sha: Bytes -> string, directory: string, seen: set<Manifest>, more: set<Manifest>, files: Files)
    requires FilesOk(sha, directory, seen, files) && seen <= more
    ensures FilesOk(sha, directory, more, files)
  {
    forall p | p in files ensures FileOk(sha, directory, more, p, files[p]) {
      if Attested(sha, directory, seen, p, files[p]) {
        var m, t :| m in seen && AttestedBy(sha, directory, m, t, p, files[p]);
        assert m in more;
      }
    }
  }

  lemma FilesWithMemory(sha: Bytes -> string, directory: string, seen: set<Manifest>, files: Files, m: Memory,
                        wr: Write)
    requires FilesOk(sha, directory, seen, files) && MemoryOk(directory, m)
    ensures FilesOk(sha, directory, seen, WithMemory(files, directory, m, wr))
  {
  }

  lemma FilesWithout(sha: Bytes -> string, directory: string, seen: set<Manifest>, files: Files, p: string)
    requires FilesOk(sha, directory, seen, files)
    ensures FilesOk(sha, directory, seen, Without(files, p))
  {
  }

  /** A package path holds, if anything, content a manifest vouched for. */
  lemma PackageIsAttested(sha: Bytes -> string, directory: string, seen: set<Manifest>, files: Files, p: string,
                          version: string)
    requires FilesOk(sha, directory, seen, files) && PackagePath(directory, p, version) && p in files
    ensures Attested(sha, directory, seen, p, files[p])
  {
    PackagePathIsApart(directory, p, version);
    assert FileOk(sha, directory, seen, p, files[p]);
  }

  // ----- calls in flight are kept -------------------------------------------------------

  lemma OpsAdd(w: World, op: Op)
    requires OpsOk(w.sh.session, w.sh.directory, w.seen, w.ops) && OpOk(w.sh.session, w.sh.directory, w.seen, op)
    ensures OpsOk(w.sh.session, w.sh.directory, w.seen, w.Add(op).ops)
  {
  }

  lemma OpsPut(w: World, id: nat, op: Op)
    requires OpsOk(w.sh.session, w.sh.directory, w.seen, w.ops) && OpOk(w.sh.session, w.sh.directory, w.seen, op)
    ensures OpsOk(w.sh.session, w.sh.directory, w.seen, w.Put(id, op).ops)
  {
  }

  lemma OpsDrop(w: World, id: nat)
    requires OpsOk(w.sh.session, w.sh.directory, w.seen, w.ops)
    ensures OpsOk(w.sh.session, w.sh.directory, w.seen, w.Drop(id).ops)
  {
  }

  lemma OpsGrow(session: Session, directory: string, seen: set<Manifest>, more: set<Manifest>, ops: map<nat, Op>)
    requires OpsOk(session, directory, seen, ops) && seen <= more
    ensures OpsOk(session, directory, more, ops)
  {
  }

  ghost predicate SameParts(before: Files, after: Files) {
    forall p :: HasSuffix(p, ".part") ==> (p in before <==> p in after) && (p in before ==> before[p] == after[p])
  }

  /** Whoever leaves partial files and running downloads alone leaves FetchOk alone. */
  lemma FetchKept(sha: Bytes -> string, sh: Shared, sh': Shared, ops: map<nat, Op>, ops': map<nat, Op>)
    requires FetchOk(sha, sh, ops)
    requires sh'.session == sh.session && sh'.directory == sh.directory && SameParts(sh.files, sh'.files)
    requires forall i :: i in ops' && ops'[i].Fetching? && ops'[i].at.Trying? ==> i in ops && ops[i] == ops'[i]
    ensures FetchOk(sha, sh', ops')
  {
    forall i | i in ops' && ops'[i].Fetching? && ops'[i].at.Trying?
      ensures D.PartOk(sha, DestOf(sh', ops'[i].release), WantOf(sh', ops'[i].release), sh'.files, ops'[i].at.pc)
    {
      assert ops[i] == ops'[i];
      PartialIsPart(DestOf(sh, ops[i].release));
    }
  }

  lemma MemoryLeavesParts(files: Files, directory: string, m: Memory, wr: Write)
    ensures SameParts(files, WithMemory(files, directory, m, wr))
  {
    MemoryPathIsApart(directory);
  }

  // ----- each section keeps the shared state --------------------------------------------

  lemma PublishKeeps(sha: Bytes -> string, seen: set<Manifest>, synced: bool, sh: Shared, policy: Policy)
    requires SharedOk(sha, seen, synced, sh)
    ensures SharedOk(sha, seen, synced, Publish(sh, policy))
  {
    hide FilesOk, Newer, MemoryOk, Located;
    P.StepKeepsInv(sh.slot, P.Event.Publish(sh.state.(policy := policy)));
  }

  /** A new state value that may be shown, with the memory untouched. */
  lemma StateKeeps(sha: Bytes -> string, seen: set<Manifest>, synced: bool, sh: Shared, state: State)
    requires SharedOk(sha, seen, synced, sh)
    requires Shown(sh.session.version, state)
    requires state.skipped == sh.state.skipped && state.checkedAt == sh.state.checkedAt
    ensures SharedOk(sha, seen, synced, sh.(state := state))
  {
  }

  lemma ErrorKeeps(sha: Bytes -> string, seen: set<Manifest>, synced: bool, sh: Shared, step: FailedStep,
                   message: string, policy: Policy)
    requires SharedOk(sha, seen, synced, sh) && step != StepNone
    ensures SharedOk(sha, seen, synced, SetError(sh, step, message, policy))
  {
    var s := sh.state.(phase := PhaseError, failedStep := step, error := message);
    StateKeeps(sha, seen, synced, sh, s);
    PublishKeeps(sha, seen, synced, sh.(state := s), policy);
  }

  /** Memory and state changed together, then written. */
  lemma WriteKeeps(sha: Bytes -> string, seen: set<Manifest>, synced: bool, sh: Shared, memory: Memory, state: State,
                   wr: Write)
    requires SharedOk(sha, seen, synced, sh)
    requires StateOk(sh.(memory := memory, state := state))
    ensures SharedOk(sha, seen, wr.Wrote?, WriteMemory(sh.(memory := memory, state := state), wr))
  {
    FilesWithMemory(sha, sh.directory, seen, sh.files, memory, wr);
  }

  lemma BusyKeeps(sha: Bytes -> string, seen: set<Manifest>, synced: bool, sh: Shared, busy: bool, cancel: Option<nat>)
    requires SharedOk(sha, seen, synced, sh)
    ensures SharedOk(sha, seen, synced, sh.(busy := busy, cancel := cancel))
  {
  }

  lemma SeenKeeps(sha: Bytes -> string, seen: set<Manifest>, more: set<Manifest>, synced: bool, sh: Shared)
    requires SharedOk(sha, seen, synced, sh) && seen <= more
    ensures SharedOk(sha, more, synced, sh)
  {
    FilesGrow(sha, sh.directory, seen, more, sh.files);
  }

  lemma CheckBeginKeeps(sha: Bytes -> string, seen: set<Manifest>, synced: bool, sh: Shared, policy: Policy)
    requires SharedOk(sha, seen, synced, sh)
    ensures SharedOk(sha, seen, synced, CheckBegin(sh, policy).0)
  {
    var s := sh.state.(phase := PhaseChecking, error := "", failedStep := StepNone);
    StateKeeps(sha, seen, synced, sh, s);
    BusyKeeps(sha, seen, synced, sh.(state := s), true, sh.cancel);
    PublishKeeps(sha, seen, synced, sh.(state := s, busy := true), policy);
  }

  lemma RememberKeeps(sha: Bytes -> string, seen: set<Manifest>, synced: bool, sh: Shared, r: Release, now: string,
                      wr: Write)
    requires SharedOk(sha, seen, synced, sh)
    ensures SharedOk(sha, seen, wr.Wrote?, Remember(sh, r, now, wr))
  {
    hide FilesOk, SlotOk, OnDisk, Newer, PackagePath, Located, Merge;
    var memory := Remembered(sh.memory, r, now);
    WriteKeeps(sha, seen, synced, sh, memory, sh.state, wr);
  }

  lemma CheckFailedKeeps(sha: Bytes -> string, seen: set<Manifest>, synced: bool, sh: Shared, message: string,
                         now: string, wr: Write, policy: Policy)
    requires SharedOk(sha, seen, synced, sh)
    ensures SharedOk(sha, seen, wr.Wrote?, CheckFailed(sh, message, now, wr, policy))
  {
    var idle := sh.(busy := false);
    BusyKeeps(sha, seen, synced, sh, false, sh.cancel);
    var memory, state := sh.memory.(checkedAt := now), sh.state.(checkedAt := now);
    WriteKeeps(sha, seen, synced, idle, memory, state, wr);
    ErrorKeeps(sha, seen, wr.Wrote?, WriteMemory(idle.(memory := memory, state := state), wr), StepCheck, message, policy);
  }

  lemma ConcludedShown(sh: Shared, seen: set<Manifest>, r: Release, s: State)
    requires ReleaseOk(sh.session, seen, r) && (s.phase == PhaseError ==> s.failedStep != StepNone)
    ensures var c := Concluded(sh, r, s);
            Shown(sh.session.version, c) && c.skipped == s.skipped && c.checkedAt == s.checkedAt
  {
    hide Newer, Normal, Offers, Usable, AllValid;
  }

  lemma CheckDoneKeeps(sha: Bytes -> string, seen: set<Manifest>, synced: bool, sh: Shared, r: Release, manual: bool,
                       now: string, wr: Write, policy: Policy)
    requires SharedOk(sha, seen, synced, sh) && ReleaseOk(sh.session, seen, r)
    ensures SharedOk(sha, seen, wr.Wrote?, CheckDone(sh, r, manual, now, wr, policy))
  {
    hide FilesOk, SlotOk, OnDisk, Newer, Normal, Offers, Usable, AllValid, Located, Concluded, PackagePath;
    var idle := sh.(busy := false);
    BusyKeeps(sha, seen, synced, sh, false, sh.cancel);
    var unskip := manual && r.status == Available && sh.memory.skipped == r.latestVersion;
    var memory := sh.memory.(checkedAt := now, skipped := if unskip then "" else sh.memory.skipped);
    var state := sh.state.(checkedAt := now, releaseURL := r.releaseURL, outcome := Some(r.status),
                           skipped := if unskip then "" else sh.state.skipped);
    WriteKeeps(sha, seen, synced, idle, memory, state, wr);
    var sh2 := WriteMemory(idle.(memory := memory, state := state), wr);
    var last := Concluded(sh, r, sh2.state);
    ConcludedShown(sh, seen, r, sh2.state);
    StateKeeps(sha, seen, wr.Wrote?, sh2, last);
    PublishKeeps(sha, seen, wr.Wrote?, sh2.(state := last), policy);
  }

  lemma DownloadBeginKeeps(sha: Bytes -> string, seen: set<Manifest>, synced: bool, sh: Shared, r: Release, token: nat,
                           message: string, policy: Policy)
    requires SharedOk(sha, seen, synced, sh) && ReleaseOk(sh.session, seen, r) && r.status == Available
    ensures SharedOk(sha, seen, synced, DownloadBegin(sh, r, token, message, policy).0)
  {
    if !sh.busy && !sh.session.location.CanInstall() {
      ErrorKeeps(sha, seen, synced, sh, StepDownload, message, policy);
    } else if !sh.busy {
      var s := sh.state.(phase := PhaseDownloading, latestVersion := r.latestVersion,
                         notes := r.notes, publishedAt := r.publishedAt,
                         downloaded := 0, total := -1, error := "", failedStep := StepNone);
      StateKeeps(sha, seen, synced, sh, s);
      BusyKeeps(sha, seen, synced, sh.(state := s), true, Some(token));
      PublishKeeps(sha, seen, synced, sh.(state := s, busy := true, cancel := Some(token)), policy);
    }
  }

  lemma AttemptKeeps(sha: Bytes -> string, seen: set<Manifest>, synced: bool, sh: Shared, mirror: Mirror,
                     policy: Policy)
    requires SharedOk(sha, seen, synced, sh)
    ensures SharedOk(sha, seen, synced, AttemptBegin(sh, mirror, policy))
  {
    var s := sh.state.(mirror := mirror.name, downloaded := 0, total := -1);
    StateKeeps(sha, seen, synced, sh, s);
    PublishKeeps(sha, seen, synced, sh.(state := s), policy);
  }

  lemma ProgressKeeps(sha: Bytes -> string, seen: set<Manifest>, synced: bool, sh: Shared, done: int, total: int,
                      policy: Policy)
    requires SharedOk(sha, seen, synced, sh)
    ensures SharedOk(sha, seen, synced, Progress(sh, done, total, policy))
  {
    var s := sh.state.(downloaded := done, total := total);
    StateKeeps(sha, seen, synced, sh, s);
    PublishKeeps(sha, seen, synced, sh.(state := s), policy);
  }

  lemma DownloadFinishKeeps(sha: Bytes -> string, seen: set<Manifest>, synced: bool, sh: Shared, r: Release,
                            ending: Ending,
                            wr: Write, policy: Policy)
    requires SharedOk(sha, seen, synced, sh)
    requires ending.Fetched? ==> PackagePath(sh.directory, ending.path, r.latestVersion) && ending.path != "" &&
                                 Newer(r.latestVersion, sh.session.version)
    ensures SharedOk(sha, seen, if ending.Fetched? then wr.Wrote? else synced, DownloadFinish(sh, r, ending, wr, policy))
  {
    match ending
    case Cancelled =>
      var s := sh.state.(phase := PhaseAvailable, downloaded := 0, total := -1);
      StateKeeps(sha, seen, synced, sh, s);
      PublishKeeps(sha, seen, synced, sh.(state := s), policy);
    case Broken(message) => ErrorKeeps(sha, seen, synced, sh, StepDownload, message, policy);
    case Fetched(path) =>
      var memory := sh.memory.(readyVersion := r.latestVersion, readyPath := path);
      WriteKeeps(sha, seen, synced, sh, memory, sh.state, wr);
      var sh1 := WriteMemory(sh.(memory := memory), wr);
      var s := sh1.state.(phase := PhaseReady);
      StateKeeps(sha, seen, wr.Wrote?, sh1, s);
      PublishKeeps(sha, seen, wr.Wrote?, sh1.(state := s), policy);
  }

  lemma InstallBeginKeeps(sha: Bytes -> string, seen: set<Manifest>, synced: bool, sh: Shared, policy: Policy)
    requires SharedOk(sha, seen, synced, sh)
    ensures SharedOk(sha, seen, synced, InstallBegin(sh, policy).0)
  {
    hide Newer, FilesOk, SlotOk, OnDisk, MemoryOk, Located, IsDevelopmentBuild;
    var s := sh.state.(phase := PhaseInstalling);
    StateKeeps(sha, seen, synced, sh, s);
    PublishKeeps(sha, seen, synced, sh.(state := s), policy);
  }

  lemma InstallFailedKeeps(sha: Bytes -> string, seen: set<Manifest>, synced: bool, sh: Shared, message: string,
                           policy: Policy)
    requires SharedOk(sha, seen, synced, sh)
    ensures SharedOk(sha, seen, synced, InstallFailed(sh, message, policy))
  {
    var s := sh.state.(phase := PhaseReady);
    StateKeeps(sha, seen, synced, sh, s);
    ErrorKeeps(sha, seen, synced, sh.(state := s), StepInstall, message, policy);
  }

  /** Removing the ready package leaves the memory file alone. */
  lemma RemoveKeeps(sha: Bytes -> string, seen: set<Manifest>, synced: bool, sh: Shared, p: string)
    requires SharedOk(sha, seen, synced, sh) && p != MemoryPath(sh.directory)
    ensures SharedOk(sha, seen, synced, sh.(files := Without(sh.files, p)))
  {
    hide SlotOk, Newer;
    FilesWithout(sha, sh.directory, seen, sh.files, p);
  }

  lemma ReadyPathIsApart(sh: Shared)
    requires MemoryOk(sh.directory, sh.memory)
    ensures sh.memory.readyPath != MemoryPath(sh.directory) && !HasSuffix(sh.memory.readyPath, ".part")
  {
    if sh.memory.readyPath != "" {
      PackagePathIsApart(sh.directory, sh.memory.readyPath, sh.memory.readyVersion);
    }
  }

  lemma ForgetReadyKeeps(sha: Bytes -> string, seen: set<Manifest>, synced: bool, sh: Shared, removed: bool, wr: Write)
    requires SharedOk(sha, seen, synced, sh)
    ensures SharedOk(sha, seen, wr.Wrote?, ForgetReady(sh, removed, wr))
  {
    ReadyPathIsApart(sh);
    var sh0 := if removed then sh.(files := Without(sh.files, sh.memory.readyPath)) else sh;
    if removed { RemoveKeeps(sha, seen, synced, sh, sh.memory.readyPath); }
    var memory := sh.memory.(readyPath := "", readyVersion := "");
    WriteKeeps(sha, seen, synced, sh0, memory, sh.state, wr);
    var sh1 := WriteMemory(sh0.(memory := memory), wr);
    StateKeeps(sha, seen, wr.Wrote?, sh1, sh1.state.(phase := PhaseIdle, downloaded := 0, total := -1));
  }

  lemma SkipKeeps(sha: Bytes -> string, seen: set<Manifest>, synced: bool, sh: Shared, version: string, wr: Write,
                  policy: Policy)
    requires SharedOk(sha, seen, synced, sh)
    ensures SharedOk(sha, seen, wr.Wrote?, SkipVersion(sh, version, wr, policy))
  {
    var memory, state := sh.memory.(skipped := version), sh.state.(skipped := version);
    WriteKeeps(sha, seen, synced, sh, memory, state, wr);
    PublishKeeps(sha, seen, wr.Wrote?, WriteMemory(sh.(memory := memory, state := state), wr), policy);
  }

  /** A state shown by nobody yet, over a memory that holds no offer or a newer one. */
  lemma StartKeeps(sha: Bytes -> string, seen: set<Manifest>, sh: Shared)
    requires FilesOk(sha, sh.directory, seen, sh.files) && StateOk(sh) && sh.slot == P.Fresh()
    ensures SharedOk(sha, seen, false, sh) && SharedOk(sha, seen, OnDisk(sh), sh)
  {
    hide FilesOk, StateOk;
    assert P.Inv(sh.slot);
  }

  lemma SyncedAnyway(sha: Bytes -> string, seen: set<Manifest>, synced: bool, sh: Shared)
    requires SharedOk(sha, seen, synced, sh)
    ensures SharedOk(sha, seen, OnDisk(sh), sh)
  {
    hide FilesOk, StateOk, SlotOk;
  }

  /** A launch over any directory the lifecycle left behind starts well. */
  lemma BootKeeps(sha: Bytes -> string, seen: set<Manifest>, session: Session, directory: string, files: Files,
                  readable: bool, found: bool, removed: bool, wr: Write)
    requires FilesOk(sha, directory, seen, files) && Located(session.location)
    ensures var sh := Boot(session, directory, files, readable, found, removed, wr);
            SharedOk(sha, seen, OnDisk(sh), sh)
  {
    hide Newer, FilesOk, SlotOk, SharedOk, PackagePath, IsDevelopmentBuild, Located, OnDisk, ReadMemory, MemoryPath;
    MemoryIsNoPackage(sha, directory, seen, files);
    var memory := if readable then ReadMemory(files, directory) else NO_MEMORY;
    var cleared := memory.(readyPath := "", readyVersion := "");
    var sh := Boot(session, directory, files, readable, found, removed, wr);
    if memory.readyPath != "" && !(found && memory.readyPath in files && Newer(memory.readyVersion, session.version)) {
      FilesWithout(sha, directory, seen, files, memory.readyPath);
      var left := if removed then Without(files, memory.readyPath) else files;
      var start := Shared(session, directory, Initial(session, memory), cleared, false, None, P.Fresh(), left);
      StartKeeps(sha, seen, start);
      WriteKeeps(sha, seen, false, start, cleared, start.state, wr);
      assert sh == WriteMemory(start, wr);
      SyncedAnyway(sha, seen, wr.Wrote?, sh);
    } else {
      StartKeeps(sha, seen, sh);
    }
  }

  /** What is stored as memory was stored by the updater. */
  lemma MemoryIsNoPackage(sha: Bytes -> string, directory: string, seen: set<Manifest>, files: Files)
    requires FilesOk(sha, directory, seen, files)
    ensures MemoryOk(directory, ReadMemory(files, directory))
  {
    var path := MemoryPath(directory);
    MemoryPathIsApart(directory);
    if path in files && files[path].Memo? {
      assert FileOk(sha, directory, seen, path, files[path]);
    }
  }
}
