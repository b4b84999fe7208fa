/**
 * The state a Manager guards with its mutex and every critical section over it, as functions:
 * internal/update/manager.go. The class in Manager.dfy does the same step by step.
 */
module Sections {
  import opened Text
  import opened Versions
  import opened Mirrors
  import opened Target
  import opened Disk
  import opened Checking
  import P = Publisher

  datatype Phase =
    | PhaseIdle | PhaseChecking | PhaseAvailable | PhaseDownloading
    | PhaseReady | PhaseInstalling | PhaseError

  datatype FailedStep = StepNone | StepCheck | StepDownload | StepInstall

  datatype Policy = PolicyOff | PolicyNotify | PolicyDownload | PolicyAuto {
    predicate Downloads() { PolicyDownload? || PolicyAuto? }
  }

  datatype State = State(
    phase: Phase, policy: Policy, currentVersion: string, development: bool,
    latestVersion: string, notes: string, publishedAt: string, releaseURL: string,
    downloaded: int, total: int, mirror: string, outcome: Option<Status>,
    checkedAt: string, skipped: string, location: Location,
    error: string, failedStep: FailedStep)

  /** What one run of the application is given: its own version, where it lives, who listens. */
  datatype Session = Session(version: string, location: Location, emits: bool)

  /** The Manager's fields, and the files it shares with the rest of the process. */
  datatype Shared = Shared(
    session: Session, directory: string,
    state: State, memory: Memory, busy: bool, cancel: Option<nat>,
    slot: P.Slot<State>, files: Files)

  /** os.WriteFile of the memory: done, not begun, or cut short. */
  datatype Write = Wrote | NotWritten | Torn(bytes: Bytes)

  const MEMORY_FILE := "update.json"

  function MemoryPath(directory: string): string { Join(directory, MEMORY_FILE) }

  function WithMemory(files: Files, directory: string, memory: Memory, w: Write): Files {
    match w
    case Wrote => files[MemoryPath(directory) := Memo(memory)]
    case NotWritten => files
    case Torn(bytes) => files[MemoryPath(directory) := Data(bytes)]
  }

  function WriteMemory(sh: Shared, w: Write): Shared {
    sh.(files := WithMemory(sh.files, sh.directory, sh.memory, w))
  }

  /** publish: the snapshot carries the policy of the moment. */
  function Publish(sh: Shared, policy: Policy): Shared {
    if sh.session.emits then sh.(slot := P.Published(sh.slot, sh.state.(policy := policy))) else sh
  }

  function SetError(sh: Shared, step: FailedStep, message: string, policy: Policy): Shared {
    Publish(sh.(state := sh.state.(phase := PhaseError, failedStep := step, error := message)), policy)
  }

  // ----- New ----------------------------------------------------------------------------

  function ReadMemory(files: Files, directory: string): Memory {
    var path := MemoryPath(directory);
    if path in files && files[path].Memo? then files[path].memory else NO_MEMORY
  }

  function Initial(session: Session, memory: Memory): State {
    State(PhaseIdle, PolicyOff, session.version, IsDevelopmentBuild(session.version),
          "", "", "", "", 0, -1, "", None, memory.checkedAt, memory.skipped, session.location, "", StepNone)
  }

  /**
   * New and restoreReady. `readable` says whether the memory could be read, `found` whether Stat saw
   * a package that is there.
   */
  function Boot(session: Session, directory: string, files: Files, readable: bool, found: bool, removed: bool,
                w: Write): Shared {
    var memory := if readable then ReadMemory(files, directory) else NO_MEMORY;
    var sh := Shared(session, directory, Initial(session, memory), memory, false, None, P.Fresh(), files);
    if memory.readyPath == "" then sh
    else if !(found && memory.readyPath in files && Newer(memory.readyVersion, session.version)) then
      WriteMemory(sh.(memory := memory.(readyPath := "", readyVersion := ""),
                      files := if removed then Without(files, memory.readyPath) else files), w)
    else sh.(state := sh.state.(phase := PhaseReady, latestVersion := memory.readyVersion))
  }

  // ----- Check --------------------------------------------------------------------------

  datatype Entry = Refused | Busy | Entered

  function CheckBegin(sh: Shared, policy: Policy): (Shared, Entry) {
    if IsDevelopmentBuild(sh.session.version) then (sh, Refused)
    else if sh.busy then (sh, Busy)
    else (Publish(sh.(busy := true,
                      state := sh.state.(phase := PhaseChecking, error := "", failedStep := StepNone)), policy),
          Entered)
  }

  /** plan: the mirrors to race, and the remembered winner when it is recent enough to try alone. */
  function PlanMirrors(sh: Shared, recent: bool): (seq<Mirror>, Option<Mirror>) {
    var mirrors := Plan(sh.memory.learnedMirrors);
    if sh.memory.preferredMirror == "" || |mirrors| < 2 || !recent then (mirrors, None)
    else (mirrors, FindMirror(mirrors, sh.memory.preferredMirror))
  }

  function Remembered(m: Memory, r: Release, now: string): Memory {
    var m1 := if r.mirror.name != "" then m.(preferredMirror := r.mirror.name, mirrorMeasured := now) else m;
    if r.manifest.mirrors != []
    then m1.(learnedMirrors := Merge(m1.learnedMirrors, r.manifest.mirrors)) else m1
  }

  /** rememberMirror */
  function Remember(sh: Shared, r: Release, now: string, w: Write): Shared {
    WriteMemory(sh.(memory := Remembered(sh.memory, r, now)), w)
  }

  function CheckFailed(sh: Shared, message: string, now: string, w: Write, policy: Policy): Shared {
    var sh1 := sh.(busy := false, memory := sh.memory.(checkedAt := now), state := sh.state.(checkedAt := now));
    SetError(WriteMemory(sh1, w), StepCheck, message, policy)
  }

  /** busy given back, the check dated, the skip list mended, all written down. */
  function CheckNoted(sh: Shared, r: Release, manual: bool, now: string, w: Write): Shared {
    var unskip := manual && r.status == Available && sh.memory.skipped == r.latestVersion;
    WriteMemory(sh.(
                  busy := false,
                  memory := sh.memory.(checkedAt := now, skipped := if unskip then "" else sh.memory.skipped),
                  state := sh.state.(checkedAt := now, releaseURL := r.releaseURL, outcome := Some(r.status),
                                     skipped := if unskip then "" else sh.state.skipped)), w)
  }

  function CheckDone(sh: Shared, r: Release, manual: bool, now: string, w: Write, policy: Policy): Shared {
    var noted := CheckNoted(sh, r, manual, now, w);
    Publish(noted.(state := Concluded(sh, r, noted.state)), policy)
  }

  /** The state the answer leaves: nothing newer, still the package at hand, or an offer. */
  function Concluded(before: Shared, r: Release, s: State): State {
    if r.status != Available then s.(phase := PhaseIdle, latestVersion := "", notes := "", publishedAt := "")
    else
      var offered := s.(latestVersion := r.latestVersion, notes := r.notes, publishedAt := r.publishedAt);
      if StillGood(before, r) then offered else offered.(phase := PhaseAvailable)
  }

  /** The branch for a package downloaded earlier and still the newest. */
  predicate StillGood(sh: Shared, r: Release) {
    sh.state.phase == PhaseReady && sh.memory.readyVersion == r.latestVersion
  }

  /** Whether Check goes on to download by itself, judged on the state it just left behind. */
  predicate AutoDownload(sh: Shared, r: Release, policy: Policy) {
    && r.status == Available && sh.state.phase == PhaseAvailable
    && policy.Downloads() && sh.session.location.CanInstall() && r.latestVersion != sh.memory.skipped
  }

  // ----- Download -----------------------------------------------------------------------

  function DownloadBegin(sh: Shared, r: Release, token: nat, message: string, policy: Policy): (Shared, Entry) {
    if sh.busy then (sh, Busy)
    else if !sh.session.location.CanInstall() then (SetError(sh, StepDownload, message, policy), Refused)
    else (Publish(sh.(busy := true, cancel := Some(token),
                      state := sh.state.(phase := PhaseDownloading, latestVersion := r.latestVersion,
                                         notes := r.notes, publishedAt := r.publishedAt,
                                         downloaded := 0, total := -1, error := "", failedStep := StepNone)), policy),
          Entered)
  }

  function AttemptBegin(sh: Shared, mirror: Mirror, policy: Policy): Shared {
    Publish(sh.(state := sh.state.(mirror := mirror.name, downloaded := 0, total := -1)), policy)
  }

  function Progress(sh: Shared, done: int, total: int, policy: Policy): Shared {
    Publish(sh.(state := sh.state.(downloaded := done, total := total)), policy)
  }

  /** How fetch ended. */
  datatype Ending = Fetched(path: string) | Cancelled | Broken(message: string)

  function DownloadFinish(sh: Shared, r: Release, ending: Ending, w: Write, policy: Policy): Shared {
    match ending
    case Cancelled => Publish(sh.(state := sh.state.(phase := PhaseAvailable, downloaded := 0, total := -1)), policy)
    case Broken(message) => SetError(sh, StepDownload, message, policy)
    case Fetched(path) =>
      var sh1 := WriteMemory(sh.(memory := sh.memory.(readyVersion := r.latestVersion, readyPath := path)), w);
      Publish(sh1.(state := sh1.state.(phase := PhaseReady)), policy)
  }

  /** The deferred section that gives busy back. */
  function DownloadRelease(sh: Shared): Shared { sh.(busy := false, cancel := None) }

  // ----- Install, InstallOnQuit, Skip ---------------------------------------------------

  predicate ReadyToInstall(sh: Shared) { sh.state.phase == PhaseReady && sh.memory.readyPath != "" }

  function InstallBegin(sh: Shared, policy: Policy): (Shared, Option<string>) {
    if !ReadyToInstall(sh) then (sh, None)
    else (Publish(sh.(state := sh.state.(phase := PhaseInstalling)), policy), Some(sh.memory.readyPath))
  }

  function QuitBegin(sh: Shared, policy: Policy): Option<string> {
    if ReadyToInstall(sh) && policy == PolicyAuto then Some(sh.memory.readyPath) else None
  }

  function InstallFailed(sh: Shared, message: string, policy: Policy): Shared {
    SetError(sh.(state := sh.state.(phase := PhaseReady)), StepInstall, message, policy)
  }

  /** forgetReady publishes nothing. */
  function ForgetReady(sh: Shared, removed: bool, w: Write): Shared {
    var sh1 := WriteMemory(sh.(memory := sh.memory.(readyPath := "", readyVersion := ""),
                               files := if removed then Without(sh.files, sh.memory.readyPath) else sh.files), w);
    sh1.(state := sh1.state.(phase := PhaseIdle, downloaded := 0, total := -1))
  }

  function SkipVersion(sh: Shared, version: string, w: Write, policy: Policy): Shared {
    Publish(WriteMemory(sh.(memory := sh.memory.(skipped := version), state := sh.state.(skipped := version)), w), policy)
  }
}
