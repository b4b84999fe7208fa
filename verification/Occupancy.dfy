/**
 * Whether a busy Manager shows a busy phase. It need not: some calls set the phase without owning busy.
 */
module Occupancy {
  import opened Text
  import opened Versions
  import opened Disk
  import opened Checking
  import opened Sections
  import opened Lifecycle
  import opened Invariants
  import opened Steps
  import R = Race
  import D = Download
  import P = Publisher

  /** The owner of busy is still at its work: a Check, or a Download before its last section. */
  predicate Working(w: World) {
    w.owner.Some? && w.owner.value in w.ops && (IsCheck(w.ops[w.owner.value]) || w.ops[w.owner.value].Fetching?)
  }

  /** And the phase says so. */
  predicate InPhase(w: World) {
    Working(w) ==>
      w.sh.state.phase == if IsCheck(w.ops[w.owner.value]) then PhaseChecking else PhaseDownloading
  }

  /** Steps of calls that do not own busy and yet set the phase. */
  predicate Disturbs(w: World, a: Action) {
    || (a.NoAnswer? && a.id in w.ops && w.ops[a.id].PreAsk?)
    || (a.Installed? && a.id in w.ops && (w.ops[a.id].Installing? || w.ops[a.id].Quitting?))
    || (a.NotInstalled? && a.id in w.ops && w.ops[a.id].Installing?)
  }

  /** From w to w' the phase stays right exactly when nothing disturbed it. */
  predicate Keeps(w: World, w': World, disturbed: bool) {
    InPhase(w') <==> !Working(w') || (!disturbed && InPhase(w))
  }

  /** What is used of the invariant. */
  lemma OwnerFacts(w: World)
    requires Control(w)
    ensures w.owner.Some? ==> w.owner.value in w.ops && Owns(w.ops[w.owner.value]) && w.owner.value < w.next
    ensures forall i :: i in w.ops && Owns(w.ops[i]) ==> w.owner == Some(i)
    ensures !w.sh.busy ==> w.owner == None
    ensures Working(w) ==> w.sh.state.phase != PhaseReady
  {
  }

  /** Another call than the owner comes, goes or moves, or the owner moves within its work. */
  lemma KeepsFrame(w: World, w': World)
    requires w'.owner == w.owner && w'.sh.state.phase == w.sh.state.phase
    requires w.owner.Some? ==>
               && w.owner.value in w.ops && w.owner.value in w'.ops
               && (IsCheck(w'.ops[w.owner.value]) <==> IsCheck(w.ops[w.owner.value]))
               && (w'.ops[w.owner.value].Fetching? <==> w.ops[w.owner.value].Fetching?)
    ensures Keeps(w, w', false)
  {
  }

  lemma StartCheckKeeps(w: World, manual: bool, policy: Policy)
    requires Control(w)
    ensures Keeps(w, DoStartCheck(w, manual, policy), false)
  {
    OwnerFacts(w);
    hide Control, IsDevelopmentBuild;
  }

  lemma PlanKeeps(w: World, id: nat, recent: bool)
    requires Control(w)
    ensures Keeps(w, DoPlan(w, id, recent), false)
  {
    OwnerFacts(w);
    hide Control, Keeps, PlanMirrors;
    KeepsFrame(w, DoPlan(w, id, recent));
  }

  lemma RememberTouches(sh: Shared, r: Release, now: string, wr: Write)
    ensures Remember(sh, r, now, wr).state == sh.state
  {
    hide Remembered;
  }

  lemma AnswerMoves(w: World, id: nat, fetched: R.Fetched, now: string, wr: Write)
    ensures var w' := DoAnswer(w, id, fetched, now, wr);
            w' == w ||
            (&& w'.owner == w.owner && w'.sh.state == w.sh.state && id in w.ops
             && ((w.ops[id].CheckAsk? && id in w'.ops && w'.ops[id].CheckTold?) || w.ops[id].PreAsk?)
             && forall i :: i != id ==> (i in w.ops <==> i in w'.ops) && (i in w.ops ==> w'.ops[i] == w.ops[i]))
  {
    hide Conclude, Answers, Remember;
    if Conclude(w.sh.session.version, fetched).Some? {
      RememberTouches(w.sh, Conclude(w.sh.session.version, fetched).value, now, wr);
    }
  }

  lemma AnswerKeeps(w: World, id: nat, fetched: R.Fetched, now: string, wr: Write)
    requires Control(w)
    ensures Keeps(w, DoAnswer(w, id, fetched, now, wr), false)
  {
    OwnerFacts(w);
    AnswerMoves(w, id, fetched, now, wr);
    hide Control, Keeps, DoAnswer;
    KeepsFrame(w, DoAnswer(w, id, fetched, now, wr));
  }

  lemma NoAnswerKeeps(w: World, id: nat, message: string, now: string, wr: Write, policy: Policy)
    requires Control(w)
    ensures Keeps(w, DoNoAnswer(w, id, message, now, wr, policy), Disturbs(w, NoAnswer(id, message, now, wr, policy)))
  {
    OwnerFacts(w);
    ErrorTouches(w.sh, StepDownload, message, policy);
    hide Control, SetError, CheckFailed;
  }

  lemma FinishCheckKeeps(w: World, id: nat, now: string, wr: Write, policy: Policy, auto: Policy)
    requires Control(w)
    ensures Keeps(w, DoFinishCheck(w, id, now, wr, policy, auto), false)
  {
    OwnerFacts(w);
    hide Control, CheckDone, AutoDownload;
  }

  lemma BeginDownloadKeeps(w: World, id: nat, message: string, policy: Policy)
    requires Control(w)
    ensures Keeps(w, DoBeginDownload(w, id, message, policy), false)
  {
    OwnerFacts(w);
    if id in w.ops && w.ops[id].Pending? { DownloadBeginTouches(w.sh, w.ops[id].release, id, message, policy); }
    hide Control, DownloadBegin;
  }

  /** Steps of the download that owns busy, up to its last section. */
  lemma FetchKeeps(sha: Bytes -> string, w: World, id: nat)
    requires Control(w)
    ensures forall policy :: Keeps(w, DoNextMirror(w, id, policy), false)
    ensures forall e :: Keeps(w, DoFile(sha, w, id, e), false)
    ensures forall total, policy :: Keeps(w, DoReport(w, id, total, policy), false)
    ensures forall name :: Keeps(w, DoSweep(w, id, name), false)
  {
    OwnerFacts(w);
    hide Control, Keeps, D.Step;
    forall policy ensures Keeps(w, DoNextMirror(w, id, policy), false) { KeepsFrame(w, DoNextMirror(w, id, policy)); }
    forall e ensures Keeps(w, DoFile(sha, w, id, e), false) { KeepsFrame(w, DoFile(sha, w, id, e)); }
    forall total, policy ensures Keeps(w, DoReport(w, id, total, policy), false) { KeepsFrame(w, DoReport(w, id, total, policy)); }
    forall name ensures Keeps(w, DoSweep(w, id, name), false) { KeepsFrame(w, DoSweep(w, id, name)); }
  }

  lemma FinishDownloadKeeps(w: World, id: nat, message: string, wr: Write, policy: Policy)
    requires Control(w)
    ensures Keeps(w, DoFinishDownload(w, id, message, wr, policy), false)
  {
    OwnerFacts(w);
    hide Control, DownloadFinish;
  }

  lemma ReleaseKeeps(w: World, id: nat)
    requires Control(w)
    ensures Keeps(w, DoRelease(w, id), false)
  {
    OwnerFacts(w);
    hide Control;
  }

  lemma InstallsKeep(w: World, policy: Policy)
    requires Control(w)
    ensures Keeps(w, DoStartInstall(w, policy), false) && Keeps(w, DoStartQuit(w, policy), false)
  {
    OwnerFacts(w);
    hide Control;
  }

  lemma InstalledKeeps(w: World, id: nat, removed: bool, wr: Write)
    requires Control(w)
    ensures Keeps(w, DoInstalled(w, id, removed, wr), Disturbs(w, Installed(id, removed, wr)))
  {
    OwnerFacts(w);
    hide Control, WriteMemory;
  }

  lemma NotInstalledKeeps(w: World, id: nat, message: string, policy: Policy)
    requires Control(w)
    ensures Keeps(w, DoNotInstalled(w, id, message, policy), Disturbs(w, NotInstalled(id, message, policy)))
  {
    OwnerFacts(w);
    InstallFailedTouches(w.sh, message, policy);
    hide Control, InstallFailed;
  }

  lemma CancelKeeps(w: World, id: nat, token: nat)
    requires Control(w)
    ensures Keeps(w, DoCallCancel(w, id), false) && Keeps(w, w.Add(Cancelling(token)), false) && Keeps(w, w.Add(PrePlan), false)
  {
    OwnerFacts(w);
    hide Control;
  }

  /** The phase goes wrong exactly when a step of a call that does not own busy sets it during the owner's work. */
  lemma StepKeepsPhaseExactly(sha: Bytes -> string, w: World, a: Action)
    requires Control(w)
    ensures Keeps(w, Step(sha, w, a), Disturbs(w, a))
  {
    hide Control, Keeps, DoStartCheck, DoPlan, DoAnswer, DoNoAnswer, DoFinishCheck, DoBeginDownload, DoSweep;
    hide DoNextMirror;
    hide DoFile, DoReport, DoFinishDownload, DoRelease, DoStartInstall, DoStartQuit, DoInstalled, DoNotInstalled;
    hide DoCallCancel, DoRestart, SkipVersion, P.Step;
    match a
    case StartCheck(manual, policy) => StartCheckKeeps(w, manual, policy);
    case MakePlan(id, recent) => PlanKeeps(w, id, recent);
    case Answer(id, fetched, now, wr) => AnswerKeeps(w, id, fetched, now, wr);
    case NoAnswer(id, message, now, wr, policy) => NoAnswerKeeps(w, id, message, now, wr, policy);
    case FinishCheck(id, now, wr, policy, auto) => FinishCheckKeeps(w, id, now, wr, policy, auto);
    case StartDownload => CancelKeeps(w, 0, 0);
    case BeginDownload(id, message, policy) => BeginDownloadKeeps(w, id, message, policy);
    case Sweep(id, _) => FetchKeeps(sha, w, id);
    case NextMirror(id, _) => FetchKeeps(sha, w, id);
    case FileStep(id, _) => FetchKeeps(sha, w, id);
    case Report(id, _, _) => FetchKeeps(sha, w, id);
    case FinishDownload(id, message, wr, policy) => FinishDownloadKeeps(w, id, message, wr, policy);
    case ReleaseDownload(id) => ReleaseKeeps(w, id);
    case StartInstall(policy) => InstallsKeep(w, policy);
    case StartQuit(policy) => InstallsKeep(w, policy);
    case Installed(id, removed, wr) => InstalledKeeps(w, id, removed, wr);
    case NotInstalled(id, message, policy) => NotInstalledKeeps(w, id, message, policy);
    case Skip(version, wr, policy) => SkipKeeps(w, version, wr, policy);
    case ReadCancel => ReadKeeps(w);
    case CallCancel(id) => CancelKeeps(w, id, 0);
    case Pump(e) => PumpKeeps(w, e);
    case Restart(session, readable, found, removed, wr) => RestartKeeps(w, session, readable, found, removed, wr);
  }

  lemma SkipKeeps(w: World, version: string, wr: Write, policy: Policy)
    requires Control(w)
    ensures Keeps(w, w.(sh := SkipVersion(w.sh, version, wr, policy), synced := wr.Wrote?), false)
  {
    OwnerFacts(w);
    hide Control;
  }

  lemma ReadKeeps(w: World)
    requires Control(w)
    ensures Keeps(w, w, false) && (w.sh.cancel.Some? ==> Keeps(w, w.Add(Cancelling(w.sh.cancel.value)), false))
  {
    if w.sh.cancel.Some? { CancelKeeps(w, 0, w.sh.cancel.value); }
    hide Control;
  }

  lemma PumpKeeps(w: World, e: P.Event<State>)
    ensures Keeps(w, w, false) && Keeps(w, w.(sh := w.sh.(slot := P.Step(w.sh.slot, e))), false)
  {
    hide P.Step;
  }

  lemma RestartKeeps(w: World, session: Session, readable: bool, found: bool, removed: bool, wr: Write)
    ensures Keeps(w, DoRestart(w, session, readable, found, removed, wr), false)
  {
    hide Boot, Located;
  }

  /** Since the owner's work began, nothing disturbed the phase. */
  ghost predicate Undisturbed(sha: Bytes -> string, directory: string, session: Session, actions: seq<Action>)
    decreases |actions|
  {
    Working(Exec(sha, directory, session, actions)) && actions != [] ==>
      var init, a := actions[..|actions| - 1], actions[|actions| - 1];
      !Disturbs(Exec(sha, directory, session, init), a) && Undisturbed(sha, directory, session, init)
  }

  /** In every reachable state a working owner shows its phase exactly when nothing disturbed it. */
  lemma {:induction false} PhaseExactlyWhenUndisturbed(sha: Bytes -> string, directory: string, session: Session,
                                                       actions: seq<Action>)
    requires Located(session.location)
    ensures InPhase(Exec(sha, directory, session, actions)) <==> Undisturbed(sha, directory, session, actions)
    decreases |actions|
  {
    hide Step, Launch, Disturbs, Inv;
    if actions == [] {
      NobodyWorks(directory, session);
    } else {
      var init, a := actions[..|actions| - 1], actions[|actions| - 1];
      PhaseExactlyWhenUndisturbed(sha, directory, session, init);
      ReachableInv(sha, directory, session, init);
      ControlOf(sha, Exec(sha, directory, session, init));
      StepKeepsPhaseExactly(sha, Exec(sha, directory, session, init), a);
    }
  }

  lemma NobodyWorks(directory: string, session: Session)
    ensures !Working(Launch(directory, session))
  {
  }
}
