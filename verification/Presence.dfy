/**
 * When a package announced as ready is really there. An Install already in flight forgets whatever
 * package the memory names when it ends; if a Download of that same package has just renamed it into
 * place but not recorded it yet, the Download then announces a file that is gone. Nothing else can
 * lose it.
 */
module Presence {
  import opened Versions
  import opened Mirrors
  import opened Disk
  import opened Checking
  import opened Sections
  import opened Lifecycle
  import opened Invariants
  import opened Steps
  import D = Download
  import P = Publisher
  import R = Race

  /** A Download whose package is in place and not yet in the memory. */
  predicate Landed(op: Op) { op.Fetching? && op.at.Trying? && op.at.pc.Renamed? }

  ghost predicate Present(w: World) {
    && (w.sh.state.phase == PhaseReady ==> w.sh.memory.readyPath in w.sh.files)
    && (forall i :: i in w.ops && Landed(w.ops[i]) ==> DestOf(w.sh, w.ops[i].release) in w.sh.files)
  }

  /** The install that ends here is not about to remove a package that has just landed. */
  ghost predicate Quiet(w: World, a: Action) {
    a.Installed? && a.removed && a.id in w.ops && (w.ops[a.id].Installing? || w.ops[a.id].Quitting?) ==>
      forall i :: i in w.ops && Landed(w.ops[i]) ==> DestOf(w.sh, w.ops[i].release) != w.sh.memory.readyPath
  }

  /** Files only grow, and Ready is not announced anew. */
  predicate Mild(sh: Shared, sh': Shared) {
    && sh'.session == sh.session && sh'.directory == sh.directory
    && (forall p :: p in sh.files ==> p in sh'.files)
    && (sh'.state.phase == PhaseReady ==> sh.state.phase == PhaseReady && sh'.memory.readyPath == sh.memory.readyPath)
  }

  /** A mild change that lets no Download land. */
  lemma PresentFrame(w: World, w': World)
    requires Present(w) && Mild(w.sh, w'.sh)
    requires forall i :: i in w'.ops && Landed(w'.ops[i]) ==> i in w.ops && w.ops[i] == w'.ops[i]
    ensures Present(w')
  {
  }

  lemma NothingIsMild(sh: Shared)
    ensures Mild(sh, sh)
  {
  }

  lemma ErrorIsMild(sh: Shared, step: FailedStep, message: string, policy: Policy)
    ensures Mild(sh, SetError(sh, step, message, policy))
  {
  }

  lemma RememberIsMild(sh: Shared, r: Release, now: string, wr: Write)
    ensures Mild(sh, Remember(sh, r, now, wr))
  {
    hide Merge;
  }

  lemma CheckBeginIsMild(sh: Shared, policy: Policy)
    ensures Mild(sh, CheckBegin(sh, policy).0)
  {
    hide IsDevelopmentBuild;
  }

  lemma CheckFailedIsMild(sh: Shared, message: string, now: string, wr: Write, policy: Policy)
    ensures Mild(sh, CheckFailed(sh, message, now, wr, policy))
  {
  }

  lemma CheckDoneIsMild(sh: Shared, r: Release, manual: bool, now: string, wr: Write, policy: Policy)
    requires sh.state.phase != PhaseReady
    ensures Mild(sh, CheckDone(sh, r, manual, now, wr, policy))
  {
  }

  lemma DownloadBeginIsMild(sh: Shared, r: Release, token: nat, message: string, policy: Policy)
    ensures Mild(sh, DownloadBegin(sh, r, token, message, policy).0)
  {
  }

  lemma InstallFailedIsMild(sh: Shared, message: string, policy: Policy)
    ensures Mild(sh, InstallFailed(sh, message, policy))
  {
  }

  lemma StartCheckKeepsPresent(w: World, manual: bool, policy: Policy)
    requires Present(w)
    ensures Present(DoStartCheck(w, manual, policy))
  {
    hide Mild, CheckBegin;
    CheckBeginIsMild(w.sh, policy);
    NothingIsMild(w.sh);
    PresentFrame(w, DoStartCheck(w, manual, policy));
  }

  lemma PlanKeepsPresent(w: World, id: nat, recent: bool)
    requires Present(w)
    ensures Present(DoPlan(w, id, recent))
  {
    hide Mild, PlanMirrors;
    NothingIsMild(w.sh);
    PresentFrame(w, DoPlan(w, id, recent));
  }

  lemma AnswerKeepsPresent(w: World, id: nat, fetched: R.Fetched, now: string, wr: Write)
    requires Present(w)
    ensures Present(DoAnswer(w, id, fetched, now, wr))
  {
    hide Mild, Remember, Conclude, Answers;
    NothingIsMild(w.sh);
    if Conclude(w.sh.session.version, fetched).Some? {
      RememberIsMild(w.sh, Conclude(w.sh.session.version, fetched).value, now, wr);
    }
    PresentFrame(w, DoAnswer(w, id, fetched, now, wr));
  }

  lemma NoAnswerKeepsPresent(w: World, id: nat, message: string, now: string, wr: Write, policy: Policy)
    requires Present(w)
    ensures Present(DoNoAnswer(w, id, message, now, wr, policy))
  {
    hide Mild, CheckFailed, SetError;
    NothingIsMild(w.sh);
    CheckFailedIsMild(w.sh, message, now, wr, policy);
    ErrorIsMild(w.sh, StepDownload, message, policy);
    PresentFrame(w, DoNoAnswer(w, id, message, now, wr, policy));
  }

  lemma FinishCheckKeepsPresent(w: World, id: nat, now: string, wr: Write, policy: Policy, auto: Policy)
    requires Control(w) && Present(w)
    ensures Present(DoFinishCheck(w, id, now, wr, policy, auto))
  {
    hide Control, Mild, CheckDone, AutoDownload;
    if id in w.ops && w.ops[id].CheckTold? {
      OwnerIs(w, id);
      CheckDoneIsMild(w.sh, w.ops[id].release, w.ops[id].manual, now, wr, policy);
      PresentFrame(w, DoFinishCheck(w, id, now, wr, policy, auto));
    }
  }

  lemma BeginKeepsPresent(w: World, id: nat, message: string, policy: Policy)
    requires Present(w)
    ensures Present(DoBeginDownload(w, id, message, policy))
  {
    hide Mild, DownloadBegin;
    NothingIsMild(w.sh);
    if id in w.ops && w.ops[id].Pending? { DownloadBeginIsMild(w.sh, w.ops[id].release, id, message, policy); }
    PresentFrame(w, DoBeginDownload(w, id, message, policy));
  }

  lemma NextMirrorKeepsPresent(w: World, id: nat, policy: Policy)
    requires Present(w)
    ensures Present(DoNextMirror(w, id, policy))
  {
    PresentFrame(w, DoNextMirror(w, id, policy));
  }

  lemma ReportKeepsPresent(w: World, id: nat, total: int, policy: Policy)
    requires Present(w)
    ensures Present(DoReport(w, id, total, policy))
  {
    PresentFrame(w, DoReport(w, id, total, policy));
  }

  lemma ReleaseKeepsPresent(w: World, id: nat)
    requires Present(w)
    ensures Present(DoRelease(w, id))
  {
    PresentFrame(w, DoRelease(w, id));
  }

  lemma StartInstallKeepsPresent(w: World, policy: Policy)
    requires Present(w)
    ensures Present(DoStartInstall(w, policy))
  {
    PresentFrame(w, DoStartInstall(w, policy));
  }

  lemma StartQuitKeepsPresent(w: World, policy: Policy)
    requires Present(w)
    ensures Present(DoStartQuit(w, policy))
  {
    PresentFrame(w, DoStartQuit(w, policy));
  }

  lemma NotInstalledKeepsPresent(w: World, id: nat, message: string, policy: Policy)
    requires Present(w)
    ensures Present(DoNotInstalled(w, id, message, policy))
  {
    hide Mild, InstallFailed;
    NothingIsMild(w.sh);
    InstallFailedIsMild(w.sh, message, policy);
    PresentFrame(w, DoNotInstalled(w, id, message, policy));
  }

  lemma SkipKeepsPresent(w: World, version: string, wr: Write, policy: Policy)
    requires Present(w)
    ensures Present(w.(sh := SkipVersion(w.sh, version, wr, policy), synced := wr.Wrote?))
  {
    PresentFrame(w, w.(sh := SkipVersion(w.sh, version, wr, policy), synced := wr.Wrote?));
  }

  lemma CallCancelKeepsPresent(w: World, id: nat)
    requires Present(w)
    ensures Present(DoCallCancel(w, id))
  {
    PresentFrame(w, DoCallCancel(w, id));
  }

  lemma AddKeepsPresent(w: World, op: Op)
    requires Present(w) && !Landed(op)
    ensures Present(w.Add(op))
  {
    PresentFrame(w, w.Add(op));
  }

  lemma PumpKeepsPresent(w: World, e: P.Event<State>)
    requires Present(w)
    ensures Present(w.(sh := w.sh.(slot := P.Step(w.sh.slot, e))))
  {
    hide P.Step;
    PresentFrame(w, w.(sh := w.sh.(slot := P.Step(w.sh.slot, e))));
  }

  /** While a Download is fetching nothing is announced as ready. */
  lemma FetchingIsNotReady(w: World, id: nat)
    requires Control(w) && id in w.ops && w.ops[id].Fetching?
    ensures w.sh.state.phase != PhaseReady
  {
    OwnerIs(w, id);
  }

  lemma SweepKeepsPresent(w: World, id: nat, name: string)
    requires Control(w) && Present(w)
    ensures Present(DoSweep(w, id, name))
  {
    hide Control;
    if IsAt(w, id, true) {
      OnlyFetch(w, id);
      FetchingIsNotReady(w, id);
    }
  }

  lemma FileKeepsPresent(sha: Bytes -> string, w: World, id: nat, e: D.Event)
    requires Inv(sha, w) && Present(w)
    ensures Present(DoFile(sha, w, id, e))
  {
    hide Newer, FilesOk, OpsOk, SharedOk, Control;
    if IsAt(w, id, false) {
      OnlyFetch(w, id);
      FetchingIsNotReady(w, id);
    }
  }

  lemma FinishLeavesFiles(sh: Shared, r: Release, ending: Ending, wr: Write, policy: Policy)
    ensures var s := DownloadFinish(sh, r, ending, wr, policy);
            && s.session == sh.session && s.directory == sh.directory
            && (forall p :: p in sh.files ==> p in s.files)
            && (s.state.phase == PhaseReady ==> ending.Fetched? && s.memory.readyPath == ending.path)
  {
  }

  lemma FinishDownloadKeepsPresent(w: World, id: nat, message: string, wr: Write, policy: Policy)
    requires Control(w) && Present(w)
    ensures Present(DoFinishDownload(w, id, message, wr, policy))
  {
    hide Control, DownloadFinish;
    if id in w.ops && w.ops[id].Fetching? && EndingOf(w.sh, w.ops[id], message).Some? {
      OnlyFetch(w, id);
      FinishLeavesFiles(w.sh, w.ops[id].release, EndingOf(w.sh, w.ops[id], message).value, wr, policy);
    }
  }

  lemma InstalledKeepsPresent(w: World, id: nat, removed: bool, wr: Write)
    requires Present(w) && Quiet(w, Installed(id, removed, wr))
    ensures Present(DoInstalled(w, id, removed, wr))
  {
  }

  lemma RestartKeepsPresent(w: World, session: Session, readable: bool, found: bool, removed: bool, wr: Write)
    requires Present(w)
    ensures Present(DoRestart(w, session, readable, found, removed, wr))
  {
    hide Newer, IsDevelopmentBuild, Located;
  }

  lemma QuietStepKeepsPresent(sha: Bytes -> string, w: World, a: Action)
    requires Inv(sha, w) && Present(w) && Quiet(w, a)
    ensures Present(Step(sha, w, a))
  {
    hide Inv, Present, Quiet, Control, DoStartCheck, DoPlan, DoAnswer, DoNoAnswer, DoFinishCheck, DoBeginDownload;
    hide DoSweep;
    hide DoNextMirror, DoFile, DoReport, DoFinishDownload, DoRelease, DoStartInstall, DoStartQuit, DoInstalled;
    hide DoNotInstalled, DoCallCancel, DoRestart, SkipVersion, P.Step;
    ControlOf(sha, w);
    match a
    case StartCheck(manual, policy) => StartCheckKeepsPresent(w, manual, policy);
    case MakePlan(id, recent) => PlanKeepsPresent(w, id, recent);
    case Answer(id, fetched, now, wr) => AnswerKeepsPresent(w, id, fetched, now, wr);
    case NoAnswer(id, message, now, wr, policy) => NoAnswerKeepsPresent(w, id, message, now, wr, policy);
    case FinishCheck(id, now, wr, policy, auto) => FinishCheckKeepsPresent(w, id, now, wr, policy, auto);
    case StartDownload => AddKeepsPresent(w, PrePlan);
    case BeginDownload(id, message, policy) => BeginKeepsPresent(w, id, message, policy);
    case Sweep(id, name) => SweepKeepsPresent(w, id, name);
    case NextMirror(id, policy) => NextMirrorKeepsPresent(w, id, policy);
    case FileStep(id, e) => FileKeepsPresent(sha, w, id, e);
    case Report(id, total, policy) => ReportKeepsPresent(w, id, total, policy);
    case FinishDownload(id, message, wr, policy) => FinishDownloadKeepsPresent(w, id, message, wr, policy);
    case ReleaseDownload(id) => ReleaseKeepsPresent(w, id);
    case StartInstall(policy) => StartInstallKeepsPresent(w, policy);
    case StartQuit(policy) => StartQuitKeepsPresent(w, policy);
    case Installed(id, removed, wr) => InstalledKeepsPresent(w, id, removed, wr);
    case NotInstalled(id, message, policy) => NotInstalledKeepsPresent(w, id, message, policy);
    case Skip(version, wr, policy) => SkipKeepsPresent(w, version, wr, policy);
    case ReadCancel => if w.sh.cancel.Some? { AddKeepsPresent(w, Cancelling(w.sh.cancel.value)); }
    case CallCancel(id) => CallCancelKeepsPresent(w, id);
    case Pump(e) => PumpKeepsPresent(w, e);
    case Restart(session, readable, found, removed, wr) => RestartKeepsPresent(w, session, readable, found, removed, wr);
  }

  ghost predicate AllQuiet(sha: Bytes -> string, directory: string, session: Session, actions: seq<Action>) {
    forall k :: 0 <= k < |actions| ==> Quiet(Exec(sha, directory, session, actions[..k]), actions[k])
  }

  /** As long as no install ends over a package that has just landed, Ready means the file is there. */
  lemma {:induction false} ReadyMeansPresent(sha: Bytes -> string, directory: string, session: Session,
                                             actions: seq<Action>)
    requires Located(session.location) && AllQuiet(sha, directory, session, actions)
    ensures Present(Exec(sha, directory, session, actions))
    decreases |actions|
  {
    hide Inv, Quiet, Step, Launch, Located, Present;
    if actions == [] {
      LaunchPresent(directory, session);
    } else {
      var n := |actions| - 1;
      var init := actions[..n];
      forall k | 0 <= k < n ensures Quiet(Exec(sha, directory, session, init[..k]), init[k]) {
        assert actions[..k] == init[..k];
      }
      ReadyMeansPresent(sha, directory, session, init);
      ReachableInv(sha, directory, session, init);
      QuietStepKeepsPresent(sha, Exec(sha, directory, session, init), actions[n]);
    }
  }

  lemma LaunchPresent(directory: string, session: Session)
    ensures Present(Launch(directory, session))
  {
    hide Newer, IsDevelopmentBuild;
  }

  /** A package announced as ready is there. */
  predicate Announced(w: World) { w.sh.state.phase == PhaseReady ==> w.sh.memory.readyPath in w.sh.files }

  /**
   * And that is exactly the condition: an install that ends over a landed package lets that Download's
   * own last section announce a package that is not there.
   */
  lemma LostExactlyWhenNotQuiet(sha: Bytes -> string, w: World, a: Action)
    requires Inv(sha, w) && Present(w) && a.Installed?
    ensures Quiet(w, a) <==>
            forall i, message, wr, policy :: Announced(DoFinishDownload(Step(sha, w, a), i, message, wr, policy))
  {
    var w1 := Step(sha, w, a);
    if Quiet(w, a) {
      QuietStepKeepsPresent(sha, w, a);
      StepKeepsInv(sha, w, a);
      ControlOf(sha, w1);
      hide Inv, Step, Quiet, Control, DoFinishDownload;
      forall i, message, wr, policy ensures Announced(DoFinishDownload(w1, i, message, wr, policy)) {
        FinishDownloadKeepsPresent(w1, i, message, wr, policy);
      }
    } else {
      hide Inv, Step;
      var i := LoudStepLoses(sha, w, a);
    }
  }

  /** The download that a step which is not quiet betrays. */
  lemma LoudStepLoses(sha: Bytes -> string, w: World, a: Action) returns (i: nat)
    requires Inv(sha, w) && !Quiet(w, a)
    ensures !Announced(DoFinishDownload(Step(sha, w, a), i, "", NotWritten, PolicyOff))
  {
    hide Inv, Step;
    i :| i in w.ops && Landed(w.ops[i]) && DestOf(w.sh, w.ops[i].release) == w.sh.memory.readyPath;
    MemoryIsOk(sha, w);
    LandedThenLost(sha, w, a, i);
  }

  /**
   * Over whole runs: no install ends over a landed package exactly when no moment of the run, carried on by
   * any Download's last section, announces a package that is not there.
   */
  lemma RunLosesExactlyWhenNotQuiet(sha: Bytes -> string, directory: string, session: Session, actions: seq<Action>)
    requires Located(session.location)
    ensures AllQuiet(sha, directory, session, actions) <==>
            forall k, i, message, wr, policy :: 0 <= k <= |actions| ==>
              Announced(Exec(sha, directory, session, actions[..k] + [FinishDownload(i, message, wr, policy)]))
  {
    hide Inv, Step, Quiet, Located, Launch, Exec;
    if AllQuiet(sha, directory, session, actions) {
      forall k, i, message, wr, policy | 0 <= k <= |actions|
        ensures Announced(Exec(sha, directory, session, actions[..k] + [FinishDownload(i, message, wr, policy)]))
      {
        QuietPrefixAnnounces(sha, directory, session, actions, k, FinishDownload(i, message, wr, policy));
      }
    } else {
      var k :| 0 <= k < |actions| && !Quiet(Exec(sha, directory, session, actions[..k]), actions[k]);
      var w := Exec(sha, directory, session, actions[..k]);
      ReachableInv(sha, directory, session, actions[..k]);
      var i := LoudStepLoses(sha, w, actions[k]);
      var finish := FinishDownload(i, "", NotWritten, PolicyOff);
      assert actions[..k + 1][..k] == actions[..k];
      ExecSnoc(sha, directory, session, actions[..k], actions[k]);
      assert actions[..k] + [actions[k]] == actions[..k + 1];
      ExecSnoc(sha, directory, session, actions[..k + 1], finish);
      FetchStepIs(sha, Exec(sha, directory, session, actions[..k + 1]), finish);
      assert !Announced(Exec(sha, directory, session, actions[..k + 1] + [finish]));
    }
  }

  lemma QuietPrefixAnnounces(sha: Bytes -> string, directory: string, session: Session, actions: seq<Action>, k: nat,
                             finish: Action)
    requires Located(session.location) && AllQuiet(sha, directory, session, actions)
    requires k <= |actions| && finish.FinishDownload?
    ensures Announced(Exec(sha, directory, session, actions[..k] + [finish]))
  {
    hide Inv, Step, Located, Launch, Exec;
    var run := actions[..k] + [finish];
    forall j | 0 <= j < |run| ensures Quiet(Exec(sha, directory, session, run[..j]), run[j]) {
      if j < k { assert run[..j] == actions[..j] && run[j] == actions[j]; }
    }
    ReadyMeansPresent(sha, directory, session, run);
  }

  lemma ExecSnoc(sha: Bytes -> string, directory: string, session: Session, actions: seq<Action>, a: Action)
    ensures Exec(sha, directory, session, actions + [a]) == Step(sha, Exec(sha, directory, session, actions), a)
  {
    hide Step, Launch;
    assert (actions + [a])[..|actions|] == actions;
  }

  /** A landed Download announces its package in its last section, whatever became of the file. */
  lemma FinishAnnounces(w: World, i: nat)
    requires i in w.ops && Landed(w.ops[i])
    ensures var w' := DoFinishDownload(w, i, "", NotWritten, PolicyOff);
            && w'.sh.state.phase == PhaseReady && w'.sh.files == w.sh.files
            && w'.sh.memory.readyPath == DestOf(w.sh, w.ops[i].release)
  {
  }

  lemma ForgetRemoves(sh: Shared, wr: Write)
    requires sh.memory.readyPath != MemoryPath(sh.directory)
    ensures var s := ForgetReady(sh, true, wr);
            sh.memory.readyPath !in s.files && s.session == sh.session && s.directory == sh.directory
  {
  }

  lemma MemoryIsOk(sha: Bytes -> string, w: World)
    requires Inv(sha, w)
    ensures MemoryOk(w.sh.directory, w.sh.memory)
  {
  }

  lemma LandedThenLost(sha: Bytes -> string, w: World, a: Action, i: nat)
    requires MemoryOk(w.sh.directory, w.sh.memory) && a.Installed? && a.removed && a.id in w.ops && (w.ops[a.id].Installing? || w.ops[a.id].Quitting?)
    requires i in w.ops && Landed(w.ops[i]) && DestOf(w.sh, w.ops[i].release) == w.sh.memory.readyPath
    ensures var w2 := DoFinishDownload(Step(sha, w, a), i, "", NotWritten, PolicyOff);
            && w2.sh.state.phase == PhaseReady && w2.sh.memory.readyPath !in w2.sh.files && !Present(w2)
  {
    hide Normal, MemoryOk, ForgetReady, DoFinishDownload;
    ReadyPathIsApart(w.sh);
    ForgetRemoves(w.sh, a.wr);
    var w1 := Step(sha, w, a);
    assert w1.ops[i] == w.ops[i];
    FinishAnnounces(w1, i);
  }
}
