/** What the update lifecycle promises in every interleaving, over any number of sessions. */
module Guarantees {
  import opened Text
  import opened Versions
  import opened Mirrors
  import opened Target
  import opened Disk
  import opened Checking
  import opened Sections
  import opened Lifecycle
  import opened Invariants
  import opened Steps
  import D = Download
  import P = Publisher

  // ----- what is installed was vouched for ----------------------------------------------

  /** A manifest for exactly this version publishes, at this path, the digest this content has. */
  ghost predicate VouchedFor(sha: Bytes -> string, w: World, path: string, version: string, f: File) {
    exists m, t :: m in w.seen && Usable(m) && Released(t) && Offers(m, version) &&
      (var name := t.PackageName(version);
       path == Join(w.sh.directory, name) && name in m.files && D.Matches(sha, f, m.files[name].sha256))
  }

  lemma PackageIsVouchedFor(sha: Bytes -> string, w: World, path: string, version: string)
    requires SharedOk(sha, w.seen, w.synced, w.sh) && PackagePath(w.sh.directory, path, version) && path in w.sh.files
    ensures VouchedFor(sha, w, path, version, w.sh.files[path])
  {
    hide StateOk, SlotOk, OnDisk, IsDevelopmentBuild, Newer;
    PackageIsAttested(sha, w.sh.directory, w.seen, w.sh.files, path, version);
    var m, t :| m in w.seen && AttestedBy(sha, w.sh.directory, m, t, path, w.sh.files[path]);
    var u: Target :| Released(u) && path == Join(w.sh.directory, u.PackageName(version));
    SameName(w.sh.directory, t, u, m.version, version, path);
  }

  lemma SameName(directory: string, t: Target, u: Target, a: string, b: string, path: string)
    requires Parse(a).Some? && Normal(b)
    requires path == Join(directory, t.PackageName(Parse(a).value.normalized)) == Join(directory, u.PackageName(b))
    ensures Parse(a).value.normalized == b
  {
    var n := Parse(a).value.normalized;
    JoinInjective(directory, t.PackageName(n), u.PackageName(b));
    PackageNameInjective(t, u, a, b);
  }

  /**
   * A package offered for installation is for the version announced, that version is strictly newer
   * than the running build, and the file, when it is there, is content a manifest of that very
   * version published.
   */
  lemma ReadyIsVerified(sha: Bytes -> string, directory: string, session: Session, actions: seq<Action>)
    requires Located(session.location)
    ensures var w := Exec(sha, directory, session, actions);
            var m := w.sh.memory;
            w.sh.state.phase == PhaseReady ==>
              && m.readyPath != "" && w.sh.state.latestVersion == m.readyVersion
              && Newer(m.readyVersion, w.sh.session.version)
              && (m.readyPath in w.sh.files ==> VouchedFor(sha, w, m.readyPath, m.readyVersion, w.sh.files[m.readyPath]))
  {
    hide Exec, Newer, Normal, Located, VouchedFor;
    ReachableInv(sha, directory, session, actions);
    var w := Exec(sha, directory, session, actions);
    if w.sh.state.phase == PhaseReady && w.sh.memory.readyPath in w.sh.files {
      PackageIsVouchedFor(sha, w, w.sh.memory.readyPath, w.sh.memory.readyVersion);
    }
  }

  /** The same for whatever an Install or InstallOnQuit in flight reads, at any moment it reads it. */
  lemma AppliedIsVerified(sha: Bytes -> string, directory: string, session: Session, actions: seq<Action>, id: nat)
    requires Located(session.location)
    requires var w := Exec(sha, directory, session, actions);
             id in w.ops && (w.ops[id].Installing? || w.ops[id].Quitting?)
    ensures var w := Exec(sha, directory, session, actions);
            var op := w.ops[id];
            && Newer(op.version, w.sh.session.version)
            && (op.path in w.sh.files ==> VouchedFor(sha, w, op.path, op.version, w.sh.files[op.path]))
  {
    hide Exec, Newer, Normal, Located, VouchedFor, PackagePath;
    ReachableInv(sha, directory, session, actions);
    var w := Exec(sha, directory, session, actions);
    assert OpOk(w.sh.session, w.sh.directory, w.seen, w.ops[id]);
    if w.ops[id].path in w.sh.files {
      PackageIsVouchedFor(sha, w, w.ops[id].path, w.ops[id].version);
    }
  }

  /** Neither the state nor anything ever published or delivered names a version that is not newer. */
  lemma NeverOffersOlder(sha: Bytes -> string, directory: string, session: Session, actions: seq<Action>)
    requires Located(session.location)
    ensures var w := Exec(sha, directory, session, actions);
            && Shown(w.sh.session.version, w.sh.state)
            && (forall k :: 0 <= k < |w.sh.slot.history| ==> Shown(w.sh.session.version, w.sh.slot.history[k]))
            && (forall k :: 0 <= k < |w.sh.slot.emitted| ==> Shown(w.sh.session.version, w.sh.slot.emitted[k].1))
  {
    hide Exec, Shown;
    ReachableInv(sha, directory, session, actions);
  }

  // ----- no phase gets stuck ------------------------------------------------------------

  /** A busy phase always has its call at work, and an error its step. */
  lemma PhasesNameWork(sha: Bytes -> string, directory: string, session: Session, actions: seq<Action>)
    requires Located(session.location)
    ensures var w := Exec(sha, directory, session, actions);
            var phase := w.sh.state.phase;
            && (phase == PhaseChecking ==> exists i :: i in w.ops && IsCheck(w.ops[i]) && w.owner == Some(i))
            && (phase == PhaseDownloading ==> exists i :: i in w.ops && w.ops[i].Fetching? && w.owner == Some(i))
            && (phase == PhaseInstalling ==> exists i :: i in w.ops && w.ops[i].Installing?)
            && (phase == PhaseError ==> w.sh.state.failedStep != StepNone)
            && (w.ops == map[] ==> !w.sh.busy && (phase == PhaseIdle || phase == PhaseAvailable || phase == PhaseReady || phase == PhaseError))
  {
    hide Exec, Newer, FilesOk, OpsOk, FetchOk;
    ReachableInv(sha, directory, session, actions);
  }

  /** At most one Check or Download is between its busy sections, and busy says so exactly. */
  lemma OneAtATime(sha: Bytes -> string, directory: string, session: Session, actions: seq<Action>)
    requires Located(session.location)
    ensures var w := Exec(sha, directory, session, actions);
            && (w.sh.busy <==> exists i :: i in w.ops && Owns(w.ops[i]))
            && (forall i, j :: i in w.ops && j in w.ops && Owns(w.ops[i]) && Owns(w.ops[j]) ==> i == j)
            && (forall i :: w.sh.cancel == Some(i) <==> i in w.ops && IsDownload(w.ops[i]))
  {
    hide Exec, SharedOk, OpsOk, FetchOk;
    ReachableInv(sha, directory, session, actions);
  }

  /** No download begins already cancelled, and a call to Cancel only holds the function of one that began. */
  lemma CancelReachesOnlyItsDownload(sha: Bytes -> string, directory: string, session: Session, actions: seq<Action>)
    requires Located(session.location)
    ensures var w := Exec(sha, directory, session, actions);
            && (forall i :: i in w.ops && w.ops[i].Pending? ==>
                  i !in w.cancelled && forall j :: j in w.ops && w.ops[j].Cancelling? ==> w.ops[j].token != i)
            && (forall i :: i in w.cancelled ==> i in w.begun)
  {
    hide Exec, SharedOk, OpsOk, FetchOk;
    ReachableInv(sha, directory, session, actions);
  }

  /** Check takes busy and the phase with it, so a package at hand is never found still good. */
  lemma StillGoodNeverTaken(sha: Bytes -> string, directory: string, session: Session, actions: seq<Action>, id: nat)
    requires Located(session.location)
    requires var w := Exec(sha, directory, session, actions); id in w.ops && w.ops[id].CheckTold?
    ensures var w := Exec(sha, directory, session, actions); !StillGood(w.sh, w.ops[id].release)
  {
    hide Exec, SharedOk, OpsOk, FetchOk;
    ReachableInv(sha, directory, session, actions);
    OwnerIs(Exec(sha, directory, session, actions), id);
  }

  /** Until the pump has exited it can bring the listener to the last state published. */
  lemma ListenerCatchesUp(sha: Bytes -> string, directory: string, session: Session, actions: seq<Action>)
    requires Located(session.location)
    requires var s := Exec(sha, directory, session, actions).sh.slot; s.history != [] && !s.pump.Exited?
    ensures var s := Exec(sha, directory, session, actions).sh.slot;
            var d := P.Drain(s);
            && P.InOrder(s) && s.emitted <= d.emitted && d.emitted != []
            && d.emitted[|d.emitted| - 1].1 == s.history[|s.history| - 1]
            && (!s.notify && s.pump.Waiting? ==> s.emitted != [] && s.emitted[|s.emitted| - 1].1 == s.history[|s.history| - 1])
  {
    hide Exec, Control, FilesOk, StateOk, OpsOk, FetchOk, Shown;
    ReachableInv(sha, directory, session, actions);
    var s := Exec(sha, directory, session, actions).sh.slot;
    P.DrainDelivers(s);
    if !s.notify && s.pump.Waiting? { P.LastWord(s); }
  }

  // ----- restarts -----------------------------------------------------------------------

  /** A package ready, written down and still there is ready again after a crash and a relaunch. */
  lemma ReadySurvivesRestart(sha: Bytes -> string, w: World, removed: bool, wr: Write)
    requires Inv(sha, w) && w.sh.state.phase == PhaseReady && w.synced && w.sh.memory.readyPath in w.sh.files
    ensures var w' := DoRestart(w, w.sh.session, true, true, removed, wr);
            && w'.sh.state.phase == PhaseReady && w'.sh.memory == w.sh.memory && w'.sh.files == w.sh.files
            && w'.sh.state.latestVersion == w.sh.state.latestVersion
  {
    hide Newer, FilesOk, OpsOk, FetchOk, SlotOk, Located, IsDevelopmentBuild;
  }

  /** What was checked, skipped and learned survives a restart whenever its last write went through. */
  lemma MemorySurvivesRestart(sha: Bytes -> string, w: World, session: Session, found: bool, removed: bool, wr: Write)
    requires Inv(sha, w) && w.synced && Located(session.location)
    ensures var w' := DoRestart(w, session, true, found, removed, wr);
            && w'.sh.state.skipped == w.sh.state.skipped && w'.sh.state.checkedAt == w.sh.state.checkedAt
            && w'.sh.memory.learnedMirrors == w.sh.memory.learnedMirrors
            && (w'.sh.state.phase == PhaseReady <==>
                w.sh.memory.readyPath != "" && found && w.sh.memory.readyPath in w.sh.files &&
                Newer(w.sh.memory.readyVersion, session.version))
            && (w'.sh.state.phase != PhaseReady ==> w'.sh.memory.readyPath == "")
  {
    hide Newer, FilesOk, OpsOk, FetchOk, SlotOk, Located, IsDevelopmentBuild;
  }
}
