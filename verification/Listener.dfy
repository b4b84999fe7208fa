/**
 * Whether what a listener was last told is what the state is. Every section that changes the state
 * publishes it, but for forgetReady; after it the listener believes an old state until something else
 * is published.
 */
module Listener {
  import opened Versions
  import opened Mirrors
  import opened Disk
  import opened Checking
  import opened Sections
  import opened Lifecycle
  import R = Race
  import D = Download
  import P = Publisher

  /** The state, whatever the policy was when it was published. */
  function Bare(s: State): State { s.(policy := PolicyOff) }

  /** With somebody listening and something published, the last word is the state. */
  predicate Told(sh: Shared) {
    sh.session.emits && sh.slot.history != [] ==> Bare(sh.slot.history[|sh.slot.history| - 1]) == Bare(sh.state)
  }

  /** The state forgetReady leaves. */
  predicate Cleared(s: State) { s.phase == PhaseIdle && s.downloaded == 0 && s.total == -1 }

  // ----- section by section -------------------------------------------------------------

  /** forgetReady keeps the listener right exactly when nobody listens, nothing was said, or nothing changes. */
  lemma ForgetTellsExactly(sh: Shared, removed: bool, wr: Write)
    requires Told(sh)
    ensures Told(ForgetReady(sh, removed, wr)) <==>
            !sh.session.emits || sh.slot.history == [] || Cleared(sh.state)
  {
  }

  /** What a section may do to the listener: publish the state it leaves, or leave both alone. */
  predicate Tells(sh: Shared, sh': Shared) {
    && sh'.session == sh.session
    && (sh'.session.emits && |sh'.slot.history| > |sh.slot.history| ==> Told(sh'))
    && (sh'.session.emits && |sh'.slot.history| <= |sh.slot.history| ==>
          sh'.slot.history == sh.slot.history && Bare(sh'.state) == Bare(sh.state))
  }

  lemma CheckBeginTells(sh: Shared, policy: Policy)
    ensures Tells(sh, CheckBegin(sh, policy).0)
  {
    hide IsDevelopmentBuild;
  }

  lemma RememberTells(sh: Shared, r: Release, now: string, wr: Write)
    ensures Tells(sh, Remember(sh, r, now, wr))
  {
    hide Remembered;
  }

  lemma CheckFailedTells(sh: Shared, message: string, now: string, wr: Write, policy: Policy)
    ensures Tells(sh, CheckFailed(sh, message, now, wr, policy))
  {
  }

  lemma CheckDoneTells(sh: Shared, r: Release, manual: bool, now: string, wr: Write, policy: Policy)
    ensures Tells(sh, CheckDone(sh, r, manual, now, wr, policy))
  {
    hide Concluded;
  }

  lemma ErrorTells(sh: Shared, step: FailedStep, message: string, policy: Policy)
    ensures Tells(sh, SetError(sh, step, message, policy))
  {
  }

  lemma DownloadBeginTells(sh: Shared, r: Release, token: nat, message: string, policy: Policy)
    ensures Tells(sh, DownloadBegin(sh, r, token, message, policy).0)
  {
  }

  lemma AttemptTells(sh: Shared, mirror: Mirror, policy: Policy)
    ensures Tells(sh, AttemptBegin(sh, mirror, policy))
  {
  }

  lemma ProgressTells(sh: Shared, done: int, total: int, policy: Policy)
    ensures Tells(sh, Progress(sh, done, total, policy))
  {
  }

  lemma DownloadFinishTells(sh: Shared, r: Release, ending: Ending, wr: Write, policy: Policy)
    ensures Tells(sh, DownloadFinish(sh, r, ending, wr, policy))
  {
  }

  lemma InstallBeginTells(sh: Shared, policy: Policy)
    ensures Tells(sh, InstallBegin(sh, policy).0)
  {
  }

  lemma InstallFailedTells(sh: Shared, message: string, policy: Policy)
    ensures Tells(sh, InstallFailed(sh, message, policy))
  {
  }

  lemma SkipTells(sh: Shared, version: string, wr: Write, policy: Policy)
    ensures Tells(sh, SkipVersion(sh, version, wr, policy))
  {
  }

  // ----- step by step -------------------------------------------------------------------

  lemma NothingTells(sh: Shared)
    ensures Tells(sh, sh)
  {
  }

  lemma StartCheckTells(w: World, manual: bool, policy: Policy)
    ensures Tells(w.sh, DoStartCheck(w, manual, policy).sh)
  {
    hide Tells, CheckBegin;
    NothingTells(w.sh);
    CheckBeginTells(w.sh, policy);
  }

  lemma PlanTells(w: World, id: nat, recent: bool)
    ensures Tells(w.sh, DoPlan(w, id, recent).sh)
  {
    hide Tells, PlanMirrors;
    NothingTells(w.sh);
  }

  lemma AnswerTells(w: World, id: nat, fetched: R.Fetched, now: string, wr: Write)
    ensures Tells(w.sh, DoAnswer(w, id, fetched, now, wr).sh)
  {
    hide Tells, Remember, Conclude, Answers;
    NothingTells(w.sh);
    if Conclude(w.sh.session.version, fetched).Some? {
      RememberTells(w.sh, Conclude(w.sh.session.version, fetched).value, now, wr);
    }
  }

  lemma NoAnswerTells(w: World, id: nat, message: string, now: string, wr: Write, policy: Policy)
    ensures Tells(w.sh, DoNoAnswer(w, id, message, now, wr, policy).sh)
  {
    hide Tells, CheckFailed, SetError;
    NothingTells(w.sh);
    CheckFailedTells(w.sh, message, now, wr, policy);
    ErrorTells(w.sh, StepDownload, message, policy);
  }

  lemma FinishCheckTells(w: World, id: nat, now: string, wr: Write, policy: Policy, auto: Policy)
    ensures Tells(w.sh, DoFinishCheck(w, id, now, wr, policy, auto).sh)
  {
    hide Tells, CheckDone, AutoDownload;
    NothingTells(w.sh);
    if id in w.ops && w.ops[id].CheckTold? {
      CheckDoneTells(w.sh, w.ops[id].release, w.ops[id].manual, now, wr, policy);
    }
  }

  lemma BeginDownloadTells(w: World, id: nat, message: string, policy: Policy)
    ensures Tells(w.sh, DoBeginDownload(w, id, message, policy).sh)
  {
    hide Tells, DownloadBegin;
    NothingTells(w.sh);
    if id in w.ops && w.ops[id].Pending? { DownloadBeginTells(w.sh, w.ops[id].release, id, message, policy); }
  }

  lemma NextMirrorTells(w: World, id: nat, policy: Policy)
    ensures Tells(w.sh, DoNextMirror(w, id, policy).sh)
  {
    hide Tells, AttemptBegin;
    NothingTells(w.sh);
    if id in w.ops && w.ops[id].Fetching? && w.ops[id].rest != [] { AttemptTells(w.sh, w.ops[id].rest[0], policy); }
  }

  lemma ReportTells(w: World, id: nat, total: int, policy: Policy)
    ensures Tells(w.sh, DoReport(w, id, total, policy).sh)
  {
    hide Tells, Progress;
    NothingTells(w.sh);
    if IsAt(w, id, false) && w.ops[id].at.pc.Copying? { ProgressTells(w.sh, |w.ops[id].at.pc.stream|, total, policy); }
  }

  lemma FinishDownloadTells(w: World, id: nat, message: string, wr: Write, policy: Policy)
    ensures Tells(w.sh, DoFinishDownload(w, id, message, wr, policy).sh)
  {
    hide Tells, DownloadFinish;
    NothingTells(w.sh);
    if id in w.ops && w.ops[id].Fetching? && EndingOf(w.sh, w.ops[id], message).Some? {
      DownloadFinishTells(w.sh, w.ops[id].release, EndingOf(w.sh, w.ops[id], message).value, wr, policy);
    }
  }

  lemma StartInstallTells(w: World, policy: Policy)
    ensures Tells(w.sh, DoStartInstall(w, policy).sh)
  {
    hide Tells, InstallBegin;
    NothingTells(w.sh);
    InstallBeginTells(w.sh, policy);
  }

  lemma NotInstalledTells(w: World, id: nat, message: string, policy: Policy)
    ensures Tells(w.sh, DoNotInstalled(w, id, message, policy).sh)
  {
    hide Tells, InstallFailed;
    NothingTells(w.sh);
    InstallFailedTells(w.sh, message, policy);
  }

  /** Steps that touch neither the state nor what was published. */
  lemma QuietStepsTell(sha: Bytes -> string, w: World, a: Action)
    requires a.StartDownload? || a.Sweep? || a.FileStep? || a.ReleaseDownload? || a.StartQuit? || a.ReadCancel? || a.CallCancel?
    ensures Tells(w.sh, Step(sha, w, a).sh)
  {
    hide D.Step, QuitBegin, Step;
    OtherStepIs(sha, w, a);
    FetchStepIs(sha, w, a);
    InstallStepIs(sha, w, a);
  }

  lemma PumpTells(w: World, e: P.Event<State>)
    requires !e.Publish?
    ensures Tells(w.sh, w.sh.(slot := P.Step(w.sh.slot, e)))
  {
  }

  /** Every step but an install's end and a restart publishes the state it leaves, or leaves it alone. */
  lemma StepTells(sha: Bytes -> string, w: World, a: Action)
    requires !a.Installed? && !a.Restart?
    ensures Tells(w.sh, Step(sha, w, a).sh)
  {
    if a.StartDownload? || a.Sweep? || a.FileStep? || a.ReleaseDownload? || a.StartQuit? || a.ReadCancel? || a.CallCancel? {
      QuietStepsTell(sha, w, a);
    } else {
      LoudStepsTell(sha, w, a);
    }
  }

  lemma LoudStepsTell(sha: Bytes -> string, w: World, a: Action)
    requires !a.Installed? && !a.Restart?
    requires !(a.StartDownload? || a.Sweep? || a.FileStep? || a.ReleaseDownload? || a.StartQuit? || a.ReadCancel? || a.CallCancel?)
    ensures Tells(w.sh, Step(sha, w, a).sh)
  {
    hide Tells, DoStartCheck, DoPlan, DoAnswer, DoNoAnswer, DoFinishCheck, DoBeginDownload, DoSweep, DoNextMirror;
    hide DoFile;
    hide DoReport, DoFinishDownload, DoRelease, DoStartInstall, DoStartQuit, DoInstalled, DoNotInstalled, DoCallCancel;
    hide DoRestart, SkipVersion, P.Step;
    NothingTells(w.sh);
    match a
    case StartCheck(manual, policy) => StartCheckTells(w, manual, policy);
    case MakePlan(id, recent) => PlanTells(w, id, recent);
    case Answer(id, fetched, now, wr) => AnswerTells(w, id, fetched, now, wr);
    case NoAnswer(id, message, now, wr, policy) => NoAnswerTells(w, id, message, now, wr, policy);
    case FinishCheck(id, now, wr, policy, auto) => FinishCheckTells(w, id, now, wr, policy, auto);
    case BeginDownload(id, message, policy) => BeginDownloadTells(w, id, message, policy);
    case NextMirror(id, policy) => NextMirrorTells(w, id, policy);
    case Report(id, total, policy) => ReportTells(w, id, total, policy);
    case FinishDownload(id, message, wr, policy) => FinishDownloadTells(w, id, message, wr, policy);
    case StartInstall(policy) => StartInstallTells(w, policy);
    case NotInstalled(id, message, policy) => NotInstalledTells(w, id, message, policy);
    case Skip(version, wr, policy) => SkipTells(w.sh, version, wr, policy);
    case Pump(e) => if !e.Publish? { PumpTells(w, e); }
  }

  /** An install's end that changes the state behind the listener's back. */
  predicate Silent(w: World, a: Action) {
    && a.Installed? && a.id in w.ops && (w.ops[a.id].Installing? || w.ops[a.id].Quitting?)
    && w.sh.session.emits && w.sh.slot.history != [] && !Cleared(w.sh.state)
  }

  /** A step after which the listener has been told, or starts afresh. */
  ghost predicate Speaks(sha: Bytes -> string, w: World, a: Action) {
    var w' := Step(sha, w, a);
    |w'.sh.slot.history| > |w.sh.slot.history| || w'.sh.slot.history == []
  }

  lemma RestartIs(sha: Bytes -> string, w: World, a: Action)
    requires a.Restart?
    ensures Step(sha, w, a) == w || Step(sha, w, a).sh.slot.history == []
  {
    hide Located, Step, DoRestart;
    RestartHears(w, a.session, a.readable, a.found, a.removed, a.wr);
    InstallStepIs(sha, w, a);
  }

  lemma RestartHears(w: World, session: Session, readable: bool, found: bool, removed: bool, wr: Write)
    ensures DoRestart(w, session, readable, found, removed, wr) == w ||
            DoRestart(w, session, readable, found, removed, wr).sh.slot.history == []
  {
    hide Located, Newer, IsDevelopmentBuild;
  }

  lemma InstalledTells(w: World, id: nat, removed: bool, wr: Write)
    requires Told(w.sh) || Cleared(w.sh.state)
    ensures var a, w' := Installed(id, removed, wr), DoInstalled(w, id, removed, wr);
            && w'.sh.slot.history == w.sh.slot.history
            && (Silent(w, a) ==> !Told(w'.sh) && Cleared(w'.sh.state))
            && (!Silent(w, a) ==> (Told(w'.sh) <==> Told(w.sh)) && (Told(w'.sh) || Cleared(w'.sh.state)))
  {
  }

  /** What one step does to a listener who is right, or who only missed a forgetReady. */
  lemma StepIsHeard(sha: Bytes -> string, w: World, a: Action)
    requires Told(w.sh) || Cleared(w.sh.state)
    ensures var w' := Step(sha, w, a);
            && (Told(w'.sh) || Cleared(w'.sh.state))
            && (Told(w'.sh) <==> Speaks(sha, w, a) || (!Silent(w, a) && Told(w.sh)))
  {
    hide Step, DoInstalled;
    if a.Installed? {
      InstallStepIs(sha, w, a);
      InstalledTells(w, a.id, a.removed, a.wr);
    } else if a.Restart? {
      RestartIs(sha, w, a);
    } else {
      StepTells(sha, w, a);
    }
  }

  /** The last step of a run that either spoke or changed the state in silence, if any, spoke. */
  ghost predicate Heard(sha: Bytes -> string, directory: string, session: Session, actions: seq<Action>)
    decreases |actions|
  {
    actions != [] ==>
      var init, a := actions[..|actions| - 1], actions[|actions| - 1];
      var w := Exec(sha, directory, session, init);
      Speaks(sha, w, a) || (!Silent(w, a) && Heard(sha, directory, session, init))
  }

  /** In every reachable state the listener is right exactly when no install ended in silence since the last word. */
  lemma {:induction false} ToldExactlyWhenHeard(sha: Bytes -> string, directory: string, session: Session,
                                                actions: seq<Action>)
    ensures var w := Exec(sha, directory, session, actions);
            && (Told(w.sh) <==> Heard(sha, directory, session, actions))
            && (Told(w.sh) || Cleared(w.sh.state))
    decreases |actions|
  {
    hide Step, Launch, Speaks, Silent, Told, Cleared;
    if actions == [] {
      LaunchTells(directory, session);
    } else {
      ToldExactlyWhenHeard(sha, directory, session, actions[..|actions| - 1]);
      StepIsHeard(sha, Exec(sha, directory, session, actions[..|actions| - 1]), actions[|actions| - 1]);
    }
  }

  lemma LaunchTells(directory: string, session: Session)
    ensures Told(Launch(directory, session).sh)
  {
    hide Newer, IsDevelopmentBuild;
  }
}
