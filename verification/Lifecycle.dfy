/**
 * The update lifecycle as a state machine: any number of Check, Download, Install, InstallOnQuit,
 * Skip and Cancel calls in flight, each between two of its critical sections, over one disk, with a
 * crash and restart possible between any two steps.
 */
module Lifecycle {
  import opened Text
  import opened Versions
  import opened Mirrors
  import opened Target
  import opened Disk
  import opened Checking
  import opened Sections
  import R = Race
  import D = Download
  import P = Publisher

  /** Where fetch is: nothing to fetch, sweeping, or at one mirror. */
  datatype FetchPc = Unlisted | Sweeping | Trying(mirror: Mirror, pc: D.Pc)

  /** A call in flight, named by the section it has just left. */
  datatype Op =
    | CheckPlan(manual: bool)                              // took busy
    | CheckAsk(manual: bool, lists: seq<seq<Mirror>>)      // took busy; requests out
    | CheckTold(manual: bool, release: Release)            // took busy; answer remembered
    | PrePlan                                              // zero-Result Download, not busy
    | PreAsk(lists: seq<seq<Mirror>>)
    | Pending(release: Release)                            // Download before its first section
    | Fetching(release: Release, rest: seq<Mirror>, at: FetchPc)   // took busy
    | Closing                                              // last section done, busy not yet given back
    | Installing(path: string, version: string)
    | Quitting(path: string, version: string)
    | Cancelling(token: nat)                               // Cancel has read the function, not called it

  predicate IsCheck(op: Op) { op.CheckPlan? || op.CheckAsk? || op.CheckTold? }
  predicate IsDownload(op: Op) { op.Fetching? || op.Closing? }
  predicate Owns(op: Op) { IsCheck(op) || IsDownload(op) }

  /**
   * `owner` is the call that took busy and `installer` the Install that last set the phase; `seen`
   * holds every manifest an answer brought, over all sessions; `begun` the Downloads that ever took
   * busy, `cancelled` those whose cancel function was called; `synced` says the last write of the
   * memory went through. None of these exists in the program.
   */
  datatype World = World(
    sh: Shared, ops: map<nat, Op>, next: nat,
    owner: Option<nat>, installer: Option<nat>, seen: set<Manifest>,
    begun: set<nat>, cancelled: set<nat>, synced: bool)
  {
    function Add(op: Op): World { this.(ops := ops[next := op], next := next + 1) }
    function Put(id: nat, op: Op): World { this.(ops := ops[id := op]) }
    function Drop(id: nat): World { this.(ops := ops - {id}) }
  }

  function NameOf(sh: Shared, r: Release): string { sh.session.location.target.PackageName(r.latestVersion) }
  function DestOf(sh: Shared, r: Release): string { Join(sh.directory, NameOf(sh, r)) }
  function WantOf(sh: Shared, r: Release): string {
    if NameOf(sh, r) in r.manifest.files then r.manifest.files[NameOf(sh, r)].sha256 else ""
  }

  // ----- what each step does ------------------------------------------------------------

  function DoStartCheck(w: World, manual: bool, policy: Policy): World {
    var (s, e) := CheckBegin(w.sh, policy);
    if e == Entered then w.(sh := s, owner := Some(w.next)).Add(CheckPlan(manual)) else w
  }

  function DoPlan(w: World, id: nat, recent: bool): World {
    if id !in w.ops then w else
    var (mirrors, preferred) := PlanMirrors(w.sh, recent);
    var lists := if preferred.Some? then [[preferred.value], mirrors] else [mirrors];
    match w.ops[id]
    case CheckPlan(manual) => w.Put(id, CheckAsk(manual, lists))
    case PrePlan => w.Put(id, PreAsk(lists))
    case _ => w
  }

  ghost predicate Answers(lists: seq<seq<Mirror>>, fetched: R.Fetched) {
    exists k :: 0 <= k < |lists| && R.CanWin(lists[k], fetched)
  }

  /** runCheck got an answer: rememberMirror, and Download returns at once unless it is newer. */
  ghost function DoAnswer(w: World, id: nat, fetched: R.Fetched, now: string, wr: Write): World {
    if id !in w.ops || Conclude(w.sh.session.version, fetched).None? then w else
    var r := Conclude(w.sh.session.version, fetched).value;
    var told := w.(sh := Remember(w.sh, r, now, wr), seen := w.seen + {r.manifest}, synced := wr.Wrote?);
    match w.ops[id]
    case CheckAsk(manual, lists) => if Answers(lists, fetched) then told.Put(id, CheckTold(manual, r)) else w
    case PreAsk(lists) =>
      if !Answers(lists, fetched) then w
      else if r.status == Available then told.Put(id, Pending(r)) else told.Drop(id)
    case _ => w
  }

  function DoNoAnswer(w: World, id: nat, message: string, now: string, wr: Write, policy: Policy): World {
    if id !in w.ops then w else
    match w.ops[id]
    case CheckAsk(_, _) =>
      w.(sh := CheckFailed(w.sh, message, now, wr, policy), owner := None, synced := wr.Wrote?).Drop(id)
    case PreAsk(_) => w.(sh := SetError(w.sh, StepDownload, message, policy)).Drop(id)
    case _ => w
  }

  function DoFinishCheck(w: World, id: nat, now: string, wr: Write, policy: Policy, auto: Policy): World {
    if id !in w.ops || !w.ops[id].CheckTold? then w else
    var r := w.ops[id].release;
    var s := CheckDone(w.sh, r, w.ops[id].manual, now, wr, policy);
    var done := w.(sh := s, owner := None, synced := wr.Wrote?).Drop(id);
    if AutoDownload(s, r, auto) then done.Add(Pending(r)) else done
  }

  function DoBeginDownload(w: World, id: nat, message: string, policy: Policy): World {
    if id !in w.ops || !w.ops[id].Pending? then w else
    var r := w.ops[id].release;
    var (s, e) := DownloadBegin(w.sh, r, id, message, policy);
    if e == Entered then
      var rest := if r.order == [] then [r.mirror] else r.order;
      var at := if NameOf(w.sh, r) in r.manifest.files then Sweeping else Unlisted;
      w.(sh := s, owner := Some(id), begun := w.begun + {id}).Put(id, Fetching(r, rest, at))
    else w.(sh := s).Drop(id)
  }

  predicate IsAt(w: World, id: nat, sweeping: bool) {
    id in w.ops && w.ops[id].Fetching? && (if sweeping then w.ops[id].at.Sweeping? else w.ops[id].at.Trying?)
  }

  /** sweep, one entry of the directory at a time; a removal that fails is no step at all. */
  function DoSweep(w: World, id: nat, name: string): World {
    if IsAt(w, id, true) && name != NameOf(w.sh, w.ops[id].release) && name != MEMORY_FILE
    then w.(sh := w.sh.(files := Without(w.sh.files, Join(w.sh.directory, name))))
    else w
  }

  function DoNextMirror(w: World, id: nat, policy: Policy): World {
    if id !in w.ops || !w.ops[id].Fetching? then w else
    var op := w.ops[id];
    if op.rest != [] &&
       (op.at.Sweeping? || (op.at.Trying? && op.at.pc.Failed? && op.at.pc.reason != D.Cancelled))
    then w.(sh := AttemptBegin(w.sh, op.rest[0], policy)).Put(id, op.(rest := op.rest[1..], at := Trying(op.rest[0], D.Connecting)))
    else w
  }

  /** A call only fails with Canceled once its cancel function was called. */
  predicate NeedsCancel(e: D.Event) { (e.GiveUp? || e.Stop?) && e.why == D.Cancelled }

  function DoFile(sha: Bytes -> string, w: World, id: nat, e: D.Event): World {
    if IsAt(w, id, false) && (NeedsCancel(e) ==> id in w.cancelled) then
      var op := w.ops[id];
      var (f, pc) := D.Step(sha, DestOf(w.sh, op.release), WantOf(w.sh, op.release), w.sh.files, op.at.pc, e);
      w.(sh := w.sh.(files := f)).Put(id, op.(at := Trying(op.at.mirror, pc)))
    else w
  }

  function DoReport(w: World, id: nat, total: int, policy: Policy): World {
    if IsAt(w, id, false) && w.ops[id].at.pc.Copying?
    then w.(sh := Progress(w.sh, |w.ops[id].at.pc.stream|, total, policy))
    else w
  }

  /** How fetch ends from here, if it does. */
  function EndingOf(sh: Shared, op: Op, message: string): Option<Ending>
    requires op.Fetching?
  {
    match op.at
    case Unlisted => Some(Broken(message))
    case Sweeping => None
    case Trying(_, pc) =>
      if pc.Renamed? then Some(Fetched(DestOf(sh, op.release)))
      else if pc.Failed? && pc.reason == D.Cancelled then Some(Ending.Cancelled)
      else if pc.Failed? && op.rest == [] then Some(Broken(message))
      else None
  }

  function DoFinishDownload(w: World, id: nat, message: string, wr: Write, policy: Policy): World {
    if id !in w.ops || !w.ops[id].Fetching? then w else
    var ending := EndingOf(w.sh, w.ops[id], message);
    if ending.None? then w
    else w.(sh := DownloadFinish(w.sh, w.ops[id].release, ending.value, wr, policy),
            synced := if ending.value.Fetched? then wr.Wrote? else w.synced).Put(id, Closing)
  }

  function DoRelease(w: World, id: nat): World {
    if id in w.ops && w.ops[id].Closing? then w.(sh := DownloadRelease(w.sh), owner := None).Drop(id) else w
  }

  function DoStartInstall(w: World, policy: Policy): World {
    var (s, path) := InstallBegin(w.sh, policy);
    if path.None? then w
    else w.(sh := s, installer := Some(w.next)).Add(Installing(path.value, w.sh.memory.readyVersion))
  }

  function DoStartQuit(w: World, policy: Policy): World {
    var path := QuitBegin(w.sh, policy);
    if path.None? then w else w.Add(Quitting(path.value, w.sh.memory.readyVersion))
  }

  /** Install or InstallOnQuit after Apply succeeded. */
  function DoInstalled(w: World, id: nat, removed: bool, wr: Write): World {
    if id in w.ops && (w.ops[id].Installing? || w.ops[id].Quitting?)
    then w.(sh := ForgetReady(w.sh, removed, wr), synced := wr.Wrote?).Drop(id)
    else w
  }

  /** The same after Apply failed: only Install touches the state. */
  function DoNotInstalled(w: World, id: nat, message: string, policy: Policy): World {
    if id !in w.ops then w
    else if w.ops[id].Installing? then w.(sh := InstallFailed(w.sh, message, policy)).Drop(id)
    else if w.ops[id].Quitting? then w.Drop(id)
    else w
  }

  function DoCallCancel(w: World, id: nat): World {
    if id in w.ops && w.ops[id].Cancelling?
    then w.(cancelled := w.cancelled + {w.ops[id].token}).Drop(id)
    else w
  }

  /** A location locate can answer with; see Target.LocateCanInstall. */
  ghost predicate Located(l: Location) { l.CanInstall() ==> Installable(l) }

  /** The process is gone, with every call in flight; the files stay. */
  ghost function DoRestart(w: World, session: Session, readable: bool, found: bool, removed: bool, wr: Write): World {
    if !Located(session.location) then w else
    var s := Boot(session, w.sh.directory, w.sh.files, readable, found, removed, wr);
    World(s, map[], w.next, None, None, w.seen, w.begun, w.cancelled,
          MemoryPath(w.sh.directory) in s.files && s.files[MemoryPath(w.sh.directory)] == Memo(s.memory))
  }

  datatype Action =
    | StartCheck(manual: bool, policy: Policy)
    | MakePlan(id: nat, recent: bool)
    | Answer(id: nat, fetched: R.Fetched, now: string, wr: Write)
    | NoAnswer(id: nat, message: string, now: string, wr: Write, policy: Policy)
    | FinishCheck(id: nat, now: string, wr: Write, policy: Policy, auto: Policy)
    | StartDownload
    | BeginDownload(id: nat, message: string, policy: Policy)
    | Sweep(id: nat, name: string)
    | NextMirror(id: nat, policy: Policy)
    | FileStep(id: nat, file: D.Event)
    | Report(id: nat, total: int, policy: Policy)
    | FinishDownload(id: nat, message: string, wr: Write, policy: Policy)
    | ReleaseDownload(id: nat)
    | StartInstall(policy: Policy)
    | StartQuit(policy: Policy)
    | Installed(id: nat, removed: bool, wr: Write)
    | NotInstalled(id: nat, message: string, policy: Policy)
    | Skip(version: string, wr: Write, policy: Policy)
    | ReadCancel
    | CallCancel(id: nat)
    | Pump(step: P.Event<State>)
    | Restart(session: Session, readable: bool, found: bool, removed: bool, wr: Write)

  /** One atomic step; an action that cannot happen here changes nothing. */
  ghost function Step(sha: Bytes -> string, w: World, a: Action): World {
    match a
    case StartCheck(manual, policy) => DoStartCheck(w, manual, policy)
    case MakePlan(id, recent) => DoPlan(w, id, recent)
    case Answer(id, fetched, now, wr) => DoAnswer(w, id, fetched, now, wr)
    case NoAnswer(id, message, now, wr, policy) => DoNoAnswer(w, id, message, now, wr, policy)
    case FinishCheck(id, now, wr, policy, auto) => DoFinishCheck(w, id, now, wr, policy, auto)
    case StartDownload => w.Add(PrePlan)
    case BeginDownload(id, message, policy) => DoBeginDownload(w, id, message, policy)
    case Sweep(id, name) => DoSweep(w, id, name)
    case NextMirror(id, policy) => DoNextMirror(w, id, policy)
    case FileStep(id, e) => DoFile(sha, w, id, e)
    case Report(id, total, policy) => DoReport(w, id, total, policy)
    case FinishDownload(id, message, wr, policy) => DoFinishDownload(w, id, message, wr, policy)
    case ReleaseDownload(id) => DoRelease(w, id)
    case StartInstall(policy) => DoStartInstall(w, policy)
    case StartQuit(policy) => DoStartQuit(w, policy)
    case Installed(id, removed, wr) => DoInstalled(w, id, removed, wr)
    case NotInstalled(id, message, policy) => DoNotInstalled(w, id, message, policy)
    case Skip(version, wr, policy) => w.(sh := SkipVersion(w.sh, version, wr, policy), synced := wr.Wrote?)
    case ReadCancel => if w.sh.cancel.Some? then w.Add(Cancelling(w.sh.cancel.value)) else w
    case CallCancel(id) => DoCallCancel(w, id)
    case Pump(e) => if e.Publish? then w else w.(sh := w.sh.(slot := P.Step(w.sh.slot, e)))
    case Restart(session, readable, found, removed, wr) => DoRestart(w, session, readable, found, removed, wr)
  }

  lemma CheckStepIs(sha: Bytes -> string, w: World, a: Action)
    ensures a.StartCheck? ==> Step(sha, w, a) == DoStartCheck(w, a.manual, a.policy)
    ensures a.MakePlan? ==> Step(sha, w, a) == DoPlan(w, a.id, a.recent)
    ensures a.Answer? ==> Step(sha, w, a) == DoAnswer(w, a.id, a.fetched, a.now, a.wr)
    ensures a.NoAnswer? ==> Step(sha, w, a) == DoNoAnswer(w, a.id, a.message, a.now, a.wr, a.policy)
    ensures a.FinishCheck? ==> Step(sha, w, a) == DoFinishCheck(w, a.id, a.now, a.wr, a.policy, a.auto)
  {
    hide DoStartCheck, DoPlan, DoAnswer, DoNoAnswer, DoFinishCheck;
  }

  lemma FetchStepIs(sha: Bytes -> string, w: World, a: Action)
    ensures a.BeginDownload? ==> Step(sha, w, a) == DoBeginDownload(w, a.id, a.message, a.policy)
    ensures a.NextMirror? ==> Step(sha, w, a) == DoNextMirror(w, a.id, a.policy)
    ensures a.FileStep? ==> Step(sha, w, a) == DoFile(sha, w, a.id, a.file)
    ensures a.FinishDownload? ==> Step(sha, w, a) == DoFinishDownload(w, a.id, a.message, a.wr, a.policy)
    ensures a.ReleaseDownload? ==> Step(sha, w, a) == DoRelease(w, a.id)
  {
    hide DoBeginDownload, DoNextMirror, DoFile, DoFinishDownload, DoRelease;
  }

  lemma InstallStepIs(sha: Bytes -> string, w: World, a: Action)
    ensures a.StartInstall? ==> Step(sha, w, a) == DoStartInstall(w, a.policy)
    ensures a.Installed? ==> Step(sha, w, a) == DoInstalled(w, a.id, a.removed, a.wr)
    ensures a.NotInstalled? ==> Step(sha, w, a) == DoNotInstalled(w, a.id, a.message, a.policy)
    ensures a.CallCancel? ==> Step(sha, w, a) == DoCallCancel(w, a.id)
    ensures a.Restart? ==> Step(sha, w, a) == DoRestart(w, a.session, a.readable, a.found, a.removed, a.wr)
  {
    hide DoStartInstall, DoInstalled, DoNotInstalled, DoCallCancel, DoRestart;
  }

  lemma OtherStepIs(sha: Bytes -> string, w: World, a: Action)
    ensures a.StartDownload? ==> Step(sha, w, a) == w.Add(PrePlan)
    ensures a.Sweep? ==> Step(sha, w, a) == DoSweep(w, a.id, a.name)
    ensures a.Report? ==> Step(sha, w, a) == DoReport(w, a.id, a.total, a.policy)
    ensures a.StartQuit? ==> Step(sha, w, a) == DoStartQuit(w, a.policy)
    ensures a.Skip? ==> Step(sha, w, a) == w.(sh := SkipVersion(w.sh, a.version, a.wr, a.policy), synced := a.wr.Wrote?)
    ensures a.ReadCancel? ==>
              Step(sha, w, a) == if w.sh.cancel.Some? then w.Add(Cancelling(w.sh.cancel.value)) else w
    ensures a.Pump? ==>
              Step(sha, w, a) == if a.step.Publish? then w else w.(sh := w.sh.(slot := P.Step(w.sh.slot, a.step)))
  {
    hide DoSweep, DoReport, DoStartQuit, SkipVersion, P.Step;
  }

  /** The first launch, over an empty download directory. */
  ghost function Launch(directory: string, session: Session): World {
    World(Boot(session, directory, map[], true, true, true, NotWritten), map[], 0, None, None, {}, {}, {}, false)
  }

  ghost function Exec(sha: Bytes -> string, directory: string, session: Session, actions: seq<Action>): World
    decreases |actions|
  {
    if actions == [] then Launch(directory, session)
    else Step(sha, Exec(sha, directory, session, actions[..|actions| - 1]), actions[|actions| - 1])
  }
}
