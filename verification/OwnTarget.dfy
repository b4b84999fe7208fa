/**
 * Whose package is ready. Nothing compares targets after a restart: the package remembered is the one of
 * the build that downloaded it, and stays ready for any other build that is older.
 */
module OwnTarget {
  import opened Versions
  import opened Mirrors
  import opened Target
  import opened Disk
  import opened Checking
  import opened Sections
  import opened Lifecycle
  import opened Invariants
  import opened Steps
  import opened Guarantees
  import R = Race
  import D = Download
  import P = Publisher

  /** The package remembered, if any, is the one of target t. */
  predicate Mine(t: Target, directory: string, m: Memory) {
    m.readyPath != "" ==> m.readyPath == Join(directory, t.PackageName(m.readyVersion))
  }

  /** So it is in the Manager and in the memory written down. */
  predicate MineAll(t: Target, sh: Shared) {
    && Mine(t, sh.directory, sh.memory)
    && (MemoryPath(sh.directory) in sh.files && sh.files[MemoryPath(sh.directory)].Memo? ==>
          Mine(t, sh.directory, sh.files[MemoryPath(sh.directory)].memory))
  }

  /** And so are the packages being installed. */
  predicate MineOp(t: Target, directory: string, op: Op) {
    match op
    case Installing(p, v) => p == Join(directory, t.PackageName(v))
    case Quitting(p, v) => p == Join(directory, t.PackageName(v))
    case _ => true
  }

  ghost predicate Own(t: Target, w: World) {
    && w.sh.session.location.target == t && MineAll(t, w.sh)
    && forall i :: i in w.ops ==> MineOp(t, w.sh.directory, w.ops[i])
  }

  // ----- section by section -------------------------------------------------------------

  /** What a section may do to what is remembered: nothing, or write it down. */
  predicate Careful(sh: Shared, sh': Shared) {
    && sh'.session == sh.session && sh'.directory == sh.directory
    && sh'.memory.readyPath == sh.memory.readyPath && sh'.memory.readyVersion == sh.memory.readyVersion
    && var p := MemoryPath(sh.directory);
       p in sh'.files && sh'.files[p].Memo? ==>
         (p in sh.files && sh'.files[p] == sh.files[p]) || sh'.files[p].memory == sh'.memory
  }

  lemma NothingIsCareful(sh: Shared)
    ensures Careful(sh, sh)
  {
  }

  lemma CheckBeginIsCareful(sh: Shared, policy: Policy)
    ensures Careful(sh, CheckBegin(sh, policy).0)
  {
    hide IsDevelopmentBuild, MemoryPath;
  }

  lemma RememberIsCareful(sh: Shared, r: Release, now: string, wr: Write)
    ensures Careful(sh, Remember(sh, r, now, wr))
  {
    hide Merge, MemoryPath;
  }

  lemma CheckFailedIsCareful(sh: Shared, message: string, now: string, wr: Write, policy: Policy)
    ensures Careful(sh, CheckFailed(sh, message, now, wr, policy))
  {
    hide MemoryPath;
  }

  lemma CheckDoneIsCareful(sh: Shared, r: Release, manual: bool, now: string, wr: Write, policy: Policy)
    ensures Careful(sh, CheckDone(sh, r, manual, now, wr, policy))
  {
    hide MemoryPath, Concluded;
  }

  lemma ErrorIsCareful(sh: Shared, step: FailedStep, message: string, policy: Policy)
    ensures Careful(sh, SetError(sh, step, message, policy))
  {
    hide MemoryPath;
  }

  lemma DownloadBeginIsCareful(sh: Shared, r: Release, token: nat, message: string, policy: Policy)
    ensures Careful(sh, DownloadBegin(sh, r, token, message, policy).0)
  {
    hide MemoryPath;
  }

  lemma InstallFailedIsCareful(sh: Shared, message: string, policy: Policy)
    ensures Careful(sh, InstallFailed(sh, message, policy))
  {
    hide MemoryPath;
  }

  lemma SkipIsCareful(sh: Shared, version: string, wr: Write, policy: Policy)
    ensures Careful(sh, SkipVersion(sh, version, wr, policy))
  {
    hide MemoryPath;
  }

  lemma DownloadFinishKeepsMine(t: Target, sh: Shared, r: Release, ending: Ending, wr: Write, policy: Policy)
    requires MineAll(t, sh) && (ending.Fetched? ==> ending.path == Join(sh.directory, t.PackageName(r.latestVersion)))
    ensures MineAll(t, DownloadFinish(sh, r, ending, wr, policy))
  {
    hide MemoryPath;
  }

  lemma ForgetKeepsMine(t: Target, sh: Shared, removed: bool, wr: Write)
    requires MineAll(t, sh)
    ensures MineAll(t, ForgetReady(sh, removed, wr))
  {
    hide MemoryPath;
  }

  lemma BootKeepsMine(t: Target, session: Session, directory: string, files: Files, readable: bool, found: bool,
                      removed: bool, wr: Write)
    requires MemoryPath(directory) in files && files[MemoryPath(directory)].Memo? ==>
               Mine(t, directory, files[MemoryPath(directory)].memory)
    ensures MineAll(t, Boot(session, directory, files, readable, found, removed, wr))
  {
    hide Newer, IsDevelopmentBuild, MemoryPath;
  }

  // ----- step by step -------------------------------------------------------------------

  lemma CarefulKeepsOwn(t: Target, w: World, w': World)
    requires Own(t, w) && Careful(w.sh, w'.sh)
    requires forall i :: i in w'.ops ==> (i in w.ops && w'.ops[i] == w.ops[i]) || MineOp(t, w.sh.directory, w'.ops[i])
    ensures Own(t, w')
  {
    hide MemoryPath;
  }

  lemma StartCheckKeepsOwn(t: Target, w: World, manual: bool, policy: Policy)
    requires Own(t, w)
    ensures Own(t, DoStartCheck(w, manual, policy))
  {
    hide Careful, CheckBegin;
    NothingIsCareful(w.sh);
    CheckBeginIsCareful(w.sh, policy);
    CarefulKeepsOwn(t, w, DoStartCheck(w, manual, policy));
  }

  lemma PlanKeepsOwn(t: Target, w: World, id: nat, recent: bool)
    requires Own(t, w)
    ensures Own(t, DoPlan(w, id, recent))
  {
    hide Careful, PlanMirrors;
    NothingIsCareful(w.sh);
    CarefulKeepsOwn(t, w, DoPlan(w, id, recent));
  }

  lemma AnswerKeepsOwn(t: Target, w: World, id: nat, fetched: R.Fetched, now: string, wr: Write)
    requires Own(t, w)
    ensures Own(t, DoAnswer(w, id, fetched, now, wr))
  {
    hide Own, Careful, Remember, Conclude, Answers;
    NothingIsCareful(w.sh);
    if Conclude(w.sh.session.version, fetched).Some? {
      RememberIsCareful(w.sh, Conclude(w.sh.session.version, fetched).value, now, wr);
    }
    CarefulKeepsOwn(t, w, DoAnswer(w, id, fetched, now, wr));
  }

  lemma NoAnswerKeepsOwn(t: Target, w: World, id: nat, message: string, now: string, wr: Write, policy: Policy)
    requires Own(t, w)
    ensures Own(t, DoNoAnswer(w, id, message, now, wr, policy))
  {
    hide Own, Careful, CheckFailed, SetError;
    NothingIsCareful(w.sh);
    CheckFailedIsCareful(w.sh, message, now, wr, policy);
    ErrorIsCareful(w.sh, StepDownload, message, policy);
    CarefulKeepsOwn(t, w, DoNoAnswer(w, id, message, now, wr, policy));
  }

  lemma FinishCheckKeepsOwn(t: Target, w: World, id: nat, now: string, wr: Write, policy: Policy, auto: Policy)
    requires Own(t, w)
    ensures Own(t, DoFinishCheck(w, id, now, wr, policy, auto))
  {
    hide Own, Careful, CheckDone, AutoDownload;
    if id in w.ops && w.ops[id].CheckTold? {
      CheckDoneIsCareful(w.sh, w.ops[id].release, w.ops[id].manual, now, wr, policy);
      CarefulKeepsOwn(t, w, DoFinishCheck(w, id, now, wr, policy, auto));
    }
  }

  lemma BeginKeepsOwn(t: Target, w: World, id: nat, message: string, policy: Policy)
    requires Own(t, w)
    ensures Own(t, DoBeginDownload(w, id, message, policy))
  {
    hide Own, Careful, DownloadBegin;
    if id in w.ops && w.ops[id].Pending? {
      DownloadBeginIsCareful(w.sh, w.ops[id].release, id, message, policy);
      CarefulKeepsOwn(t, w, DoBeginDownload(w, id, message, policy));
    }
  }

  lemma NextMirrorKeepsOwn(t: Target, w: World, id: nat, policy: Policy)
    requires Own(t, w)
    ensures Own(t, DoNextMirror(w, id, policy))
  {
    hide Own, MemoryPath;
    CarefulKeepsOwn(t, w, DoNextMirror(w, id, policy));
  }

  lemma ReportKeepsOwn(t: Target, w: World, id: nat, total: int, policy: Policy)
    requires Own(t, w)
    ensures Own(t, DoReport(w, id, total, policy))
  {
    hide Own, MemoryPath;
    CarefulKeepsOwn(t, w, DoReport(w, id, total, policy));
  }

  lemma SweepKeepsOwn(t: Target, w: World, id: nat, name: string)
    requires Own(t, w)
    ensures Own(t, DoSweep(w, id, name))
  {
    hide Own, MemoryPath;
    CarefulKeepsOwn(t, w, DoSweep(w, id, name));
  }

  /** A download writes only its package and its partial file. */
  lemma FileKeepsOwn(sha: Bytes -> string, t: Target, w: World, id: nat, e: D.Event)
    requires Inv(sha, w) && Own(t, w)
    ensures Own(t, DoFile(sha, w, id, e))
  {
    if IsAt(w, id, false) {
      FileLeavesMemory(sha, w, id, e);
      hide Own, MemoryPath, Inv, D.Step;
      CarefulKeepsOwn(t, w, DoFile(sha, w, id, e));
    }
  }

  lemma FileLeavesMemory(sha: Bytes -> string, w: World, id: nat, e: D.Event)
    requires Inv(sha, w) && IsAt(w, id, false)
    ensures var op, p := w.ops[id], MemoryPath(w.sh.directory);
            var f := D.Step(sha, DestOf(w.sh, op.release), WantOf(w.sh, op.release), w.sh.files, op.at.pc, e).0;
            (p in f <==> p in w.sh.files) && (p in f ==> f[p] == w.sh.files[p])
  {
    hide Newer, Normal, Offers, IsDevelopmentBuild, Usable, Clean, Attested, PackagePath, Control, SlotOk, FilesOk;
    var op := w.ops[id];
    var dest := DestOf(w.sh, op.release);
    assert D.PartOk(sha, dest, WantOf(w.sh, op.release), w.sh.files, op.at.pc);
    D.StepKeepsPart(sha, dest, WantOf(w.sh, op.release), w.sh.files, op.at.pc, e);
    DestIsPackage(w, id);
    PackagePathIsApart(w.sh.directory, dest, op.release.latestVersion);
    PartialIsPart(dest);
    MemoryPathIsApart(w.sh.directory);
    hide D.Step;
  }

  lemma FinishDownloadKeepsOwn(t: Target, w: World, id: nat, message: string, wr: Write, policy: Policy)
    requires Own(t, w)
    ensures Own(t, DoFinishDownload(w, id, message, wr, policy))
  {
    hide DownloadFinish, MineAll;
    if id in w.ops && w.ops[id].Fetching? && EndingOf(w.sh, w.ops[id], message).Some? {
      var r, ending := w.ops[id].release, EndingOf(w.sh, w.ops[id], message).value;
      DownloadFinishKeepsMine(t, w.sh, r, ending, wr, policy);
      FinishTouches(w.sh, r, ending, wr, policy);
    }
  }

  lemma ReleaseKeepsOwn(t: Target, w: World, id: nat)
    requires Own(t, w)
    ensures Own(t, DoRelease(w, id))
  {
    hide Own, MemoryPath;
    CarefulKeepsOwn(t, w, DoRelease(w, id));
  }

  lemma ReadyIsMine(t: Target, w: World)
    requires Own(t, w) && w.sh.memory.readyPath != ""
    ensures w.sh.memory.readyPath == Join(w.sh.directory, t.PackageName(w.sh.memory.readyVersion))
  {
    hide MemoryPath;
  }

  lemma StartInstallKeepsOwn(t: Target, w: World, policy: Policy)
    requires Own(t, w)
    ensures Own(t, DoStartInstall(w, policy))
  {
    hide Own, MemoryPath;
    if w.sh.memory.readyPath != "" { ReadyIsMine(t, w); }
    CarefulKeepsOwn(t, w, DoStartInstall(w, policy));
  }

  lemma StartQuitKeepsOwn(t: Target, w: World, policy: Policy)
    requires Own(t, w)
    ensures Own(t, DoStartQuit(w, policy))
  {
    hide Own, MemoryPath;
    if w.sh.memory.readyPath != "" { ReadyIsMine(t, w); }
    CarefulKeepsOwn(t, w, DoStartQuit(w, policy));
  }

  lemma InstalledKeepsOwn(t: Target, w: World, id: nat, removed: bool, wr: Write)
    requires Own(t, w)
    ensures Own(t, DoInstalled(w, id, removed, wr))
  {
    hide MineAll;
    ForgetKeepsMine(t, w.sh, removed, wr);
  }

  lemma NotInstalledKeepsOwn(t: Target, w: World, id: nat, message: string, policy: Policy)
    requires Own(t, w)
    ensures Own(t, DoNotInstalled(w, id, message, policy))
  {
    hide Own, Careful, InstallFailed;
    NothingIsCareful(w.sh);
    InstallFailedIsCareful(w.sh, message, policy);
    CarefulKeepsOwn(t, w, DoNotInstalled(w, id, message, policy));
  }

  lemma SkipKeepsOwn(t: Target, w: World, version: string, wr: Write, policy: Policy)
    requires Own(t, w)
    ensures Own(t, w.(sh := SkipVersion(w.sh, version, wr, policy), synced := wr.Wrote?))
  {
    hide Own, Careful, SkipVersion;
    SkipIsCareful(w.sh, version, wr, policy);
    CarefulKeepsOwn(t, w, w.(sh := SkipVersion(w.sh, version, wr, policy), synced := wr.Wrote?));
  }

  lemma CancelKeepsOwn(t: Target, w: World, id: nat, op: Op)
    requires Own(t, w) && (op.Cancelling? || op.PrePlan?)
    ensures Own(t, DoCallCancel(w, id)) && Own(t, w.Add(op))
  {
    hide Own, MemoryPath;
    CarefulKeepsOwn(t, w, DoCallCancel(w, id));
    CarefulKeepsOwn(t, w, w.Add(op));
  }

  lemma PumpKeepsOwn(t: Target, w: World, e: P.Event<State>)
    requires Own(t, w)
    ensures Own(t, w.(sh := w.sh.(slot := P.Step(w.sh.slot, e))))
  {
    hide Own, MemoryPath, P.Step;
    CarefulKeepsOwn(t, w, w.(sh := w.sh.(slot := P.Step(w.sh.slot, e))));
  }

  lemma RestartKeepsOwn(t: Target, w: World, session: Session, readable: bool, found: bool, removed: bool, wr: Write)
    requires Own(t, w) && session.location.target == t
    ensures Own(t, DoRestart(w, session, readable, found, removed, wr))
  {
    hide Boot, MineAll, Located;
    if Located(session.location) {
      DiskIsMine(t, w);
      BootKeepsMine(t, session, w.sh.directory, w.sh.files, readable, found, removed, wr);
      BootControl(session, w.sh.directory, w.sh.files, readable, found, removed, wr);
    }
  }

  lemma DiskIsMine(t: Target, w: World)
    requires Own(t, w)
    ensures MemoryPath(w.sh.directory) in w.sh.files && w.sh.files[MemoryPath(w.sh.directory)].Memo? ==>
              Mine(t, w.sh.directory, w.sh.files[MemoryPath(w.sh.directory)].memory)
  {
    hide MemoryPath, Mine;
  }

  /** Every step but a restart as another target's build keeps every package the target's own. */
  lemma StepKeepsOwn(sha: Bytes -> string, t: Target, w: World, a: Action)
    requires Inv(sha, w) && Own(t, w) && (a.Restart? ==> a.session.location.target == t)
    ensures Own(t, Step(sha, w, a))
  {
    hide Inv, Own, DoStartCheck, DoPlan, DoAnswer, DoNoAnswer, DoFinishCheck, DoBeginDownload, DoSweep, DoNextMirror;
    hide DoFile, DoReport, DoFinishDownload, DoRelease, DoStartInstall, DoStartQuit, DoInstalled, DoNotInstalled;
    hide DoCallCancel, DoRestart, SkipVersion, P.Step;
    match a
    case StartCheck(manual, policy) => StartCheckKeepsOwn(t, w, manual, policy);
    case MakePlan(id, recent) => PlanKeepsOwn(t, w, id, recent);
    case Answer(id, fetched, now, wr) => AnswerKeepsOwn(t, w, id, fetched, now, wr);
    case NoAnswer(id, message, now, wr, policy) => NoAnswerKeepsOwn(t, w, id, message, now, wr, policy);
    case FinishCheck(id, now, wr, policy, auto) => FinishCheckKeepsOwn(t, w, id, now, wr, policy, auto);
    case StartDownload => CancelKeepsOwn(t, w, 0, PrePlan);
    case BeginDownload(id, message, policy) => BeginKeepsOwn(t, w, id, message, policy);
    case Sweep(id, name) => SweepKeepsOwn(t, w, id, name);
    case NextMirror(id, policy) => NextMirrorKeepsOwn(t, w, id, policy);
    case FileStep(id, e) => FileKeepsOwn(sha, t, w, id, e);
    case Report(id, total, policy) => ReportKeepsOwn(t, w, id, total, policy);
    case FinishDownload(id, message, wr, policy) => FinishDownloadKeepsOwn(t, w, id, message, wr, policy);
    case ReleaseDownload(id) => ReleaseKeepsOwn(t, w, id);
    case StartInstall(policy) => StartInstallKeepsOwn(t, w, policy);
    case StartQuit(policy) => StartQuitKeepsOwn(t, w, policy);
    case Installed(id, removed, wr) => InstalledKeepsOwn(t, w, id, removed, wr);
    case NotInstalled(id, message, policy) => NotInstalledKeepsOwn(t, w, id, message, policy);
    case Skip(version, wr, policy) => SkipKeepsOwn(t, w, version, wr, policy);
    case ReadCancel => if w.sh.cancel.Some? { CancelKeepsOwn(t, w, 0, Cancelling(w.sh.cancel.value)); }
    case CallCancel(id) => CancelKeepsOwn(t, w, id, PrePlan);
    case Pump(e) => PumpKeepsOwn(t, w, e);
    case Restart(session, readable, found, removed, wr) => RestartKeepsOwn(t, w, session, readable, found, removed, wr);
  }

  predicate OneTarget(t: Target, actions: seq<Action>) {
    forall a :: a in actions && a.Restart? ==> a.session.location.target == t
  }

  lemma {:induction false} ReachableOwn(sha: Bytes -> string, directory: string, session: Session, actions: seq<Action>)
    requires Located(session.location) && OneTarget(session.location.target, actions)
    ensures Own(session.location.target, Exec(sha, directory, session, actions))
    decreases |actions|
  {
    hide Inv, Own, Launch, Step;
    if actions == [] {
      LaunchOwn(directory, session);
    } else {
      var init := actions[..|actions| - 1];
      ReachableOwn(sha, directory, session, init);
      ReachableInv(sha, directory, session, init);
      StepKeepsOwn(sha, session.location.target, Exec(sha, directory, session, init), actions[|actions| - 1]);
    }
  }

  lemma LaunchOwn(directory: string, session: Session)
    ensures Own(session.location.target, Launch(directory, session))
  {
    hide Boot, MineAll;
    BootKeepsMine(session.location.target, session, directory, map[], true, true, true, NotWritten);
    BootControl(session, directory, map[], true, true, true, NotWritten);
  }

  /** A manifest for exactly this version publishes this content as the package of target t. */
  ghost predicate VouchedForTarget(sha: Bytes -> string, w: World, t: Target, path: string, version: string, f: File) {
    && path == Join(w.sh.directory, t.PackageName(version))
    && exists m :: m in w.seen && Usable(m) && Offers(m, version) && t.PackageName(version) in m.files &&
         D.Matches(sha, f, m.files[t.PackageName(version)].sha256)
  }

  /** As long as only builds of one target run, a ready package is that target's, and was vouched for as that. */
  lemma ReadyIsOwn(sha: Bytes -> string, directory: string, session: Session, actions: seq<Action>)
    requires Located(session.location) && OneTarget(session.location.target, actions)
    ensures var w, t := Exec(sha, directory, session, actions), session.location.target;
            var m := w.sh.memory;
            w.sh.state.phase == PhaseReady ==>
              && m.readyPath == Join(w.sh.directory, t.PackageName(m.readyVersion))
              && (m.readyPath in w.sh.files ==>
                    VouchedForTarget(sha, w, t, m.readyPath, m.readyVersion, w.sh.files[m.readyPath]))
  {
    hide Exec, Newer, Normal, Located, VouchedFor, VouchedForTarget, Inv, Usable;
    ReachableOwn(sha, directory, session, actions);
    ReadyIsVerified(sha, directory, session, actions);
    var w := Exec(sha, directory, session, actions);
    if w.sh.state.phase == PhaseReady && w.sh.memory.readyPath in w.sh.files {
      VouchedAsOwn(sha, w, session.location.target, w.sh.memory.readyPath, w.sh.memory.readyVersion,
                   w.sh.files[w.sh.memory.readyPath]);
    }
  }

  lemma VouchedAsOwn(sha: Bytes -> string, w: World, t: Target, path: string, version: string, f: File)
    requires VouchedFor(sha, w, path, version, f) && path == Join(w.sh.directory, t.PackageName(version))
    ensures VouchedForTarget(sha, w, t, path, version, f)
  {
    hide Usable, Offers;
    var m, u :| m in w.seen && Usable(m) && Released(u) && Offers(m, version) &&
      (var name := u.PackageName(version);
       path == Join(w.sh.directory, name) && name in m.files && D.Matches(sha, f, m.files[name].sha256));
    JoinInjective(w.sh.directory, t.PackageName(version), u.PackageName(version));
  }

  /** The memory a launch finds. */
  function Found(sh: Shared, readable: bool): Memory {
    if readable then ReadMemory(sh.files, sh.directory) else NO_MEMORY
  }

  /**
   * A build of another target that starts over the same directory, whatever became of the last writes, is
   * offered the old target's package that the memory names, unless the two targets name their packages alike.
   */
  lemma OtherTargetsPackage(sha: Bytes -> string, w: World, t: Target, session: Session, readable: bool, found: bool,
                            removed: bool, wr: Write)
    requires Inv(sha, w) && Own(t, w) && Located(session.location)
    ensures var w', m := DoRestart(w, session, readable, found, removed, wr), Found(w.sh, readable);
            var u := session.location.target;
            && (w'.sh.state.phase == PhaseReady <==>
                  m.readyPath != "" && found && m.readyPath in w.sh.files && Newer(m.readyVersion, session.version))
            && (w'.sh.state.phase == PhaseReady ==>
                  && w'.sh.memory == m
                  && (m.readyPath == Join(w'.sh.directory, u.PackageName(m.readyVersion)) <==> Suffix(u) == Suffix(t)))
  {
    RestartReads(w, session, readable, found, removed, wr);
    FilesOfShared(sha, w.seen, w.synced, w.sh);
    MemoryIsNoPackage(sha, w.sh.directory, w.seen, w.sh.files);
    FoundIsMine(t, w, readable);
    var m := Found(w.sh, readable);
    if m.readyPath != "" {
      NamesTellTargets(w.sh.directory, t, session.location.target, m.readyPath, m.readyVersion);
    }
  }

  lemma FoundIsMine(t: Target, w: World, readable: bool)
    requires Own(t, w)
    ensures Mine(t, w.sh.directory, Found(w.sh, readable))
  {
    hide MemoryPath;
    DiskIsMine(t, w);
  }

  lemma RestartReads(w: World, session: Session, readable: bool, found: bool, removed: bool, wr: Write)
    requires Located(session.location)
    ensures var w', m := DoRestart(w, session, readable, found, removed, wr), Found(w.sh, readable);
            && w'.sh.directory == w.sh.directory
            && (w'.sh.state.phase == PhaseReady <==>
                  m.readyPath != "" && found && m.readyPath in w.sh.files && Newer(m.readyVersion, session.version))
            && (w'.sh.state.phase == PhaseReady ==> w'.sh.memory == m)
  {
    hide Newer, Located, IsDevelopmentBuild, MemoryPath;
  }

  lemma RestartRemembers(sha: Bytes -> string, w: World, session: Session, found: bool, removed: bool, wr: Write)
    requires Inv(sha, w) && w.synced && Located(session.location)
    ensures var w' := DoRestart(w, session, true, found, removed, wr);
            w'.sh.directory == w.sh.directory && (w'.sh.state.phase == PhaseReady ==> w'.sh.memory == w.sh.memory)
  {
    hide Newer, FilesOk, OpsOk, FetchOk, SlotOk, Located, IsDevelopmentBuild;
  }

  lemma NamesTellTargets(directory: string, t: Target, u: Target, path: string, version: string)
    requires Normal(version) && path == Join(directory, t.PackageName(version))
    ensures path == Join(directory, u.PackageName(version)) <==> Suffix(u) == Suffix(t)
  {
    if path == Join(directory, u.PackageName(version)) {
      JoinInjective(directory, t.PackageName(version), u.PackageName(version));
      PackageNameInjective(t, u, version, version);
    } else if Suffix(u) == Suffix(t) {
      NormalizedNoDash(version);
      NameShape(t, version);
      NameShape(u, version);
      assert false;
    }
  }
}
