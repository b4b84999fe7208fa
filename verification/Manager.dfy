/**
 * The Manager with its fields, one method for each critical section and for each step of the pump.
 * Every section is shown to be the function of the same name in Sections, which is what Lifecycle
 * interleaves.
 */
module ManagerClass {
  import opened Text
  import opened Versions
  import opened Mirrors
  import opened Target
  import opened Disk
  import opened Checking
  import opened Sections
  import P = Publisher

  class Manager {
    const version: string
    const location: Location
    const directory: string
    const emits: bool

    var state: State
    var memory: Memory
    var busy: bool
    var cancel: Option<nat>

    var pending: Option<State>
    var notify: bool
    var stopped: bool
    // Where the pump goroutine is, and what was published and delivered so far.
    ghost var pump: P.Pump<State>
    ghost var emitted: seq<(nat, State)>
    ghost var history: seq<State>

    // The part of the file system the Manager shares with the rest of the process.
    var files: Files

    ghost function View(): Shared
      reads this
    {
      Shared(Session(version, location, emits), directory, state, memory, busy, cancel,
             P.Slot(history, pending, notify, pump, emitted, stopped), files)
    }

    /** New, with restoreReady. */
    constructor (session: Session, directory: string, files: Files, readable: bool, found: bool, removed: bool, w: Write)
      ensures View() == Boot(session, directory, files, readable, found, removed, w)
    {
      this.version := session.version;
      this.location := session.location;
      this.directory := directory;
      this.emits := session.emits;
      var stored := if readable then ReadMemory(files, directory) else NO_MEMORY;
      this.memory := stored;
      this.state := Initial(session, stored);
      this.busy := false;
      this.cancel := None;
      this.pending := None;
      this.notify := false;
      this.pump := P.Waiting;
      this.emitted := [];
      this.stopped := false;
      this.history := [];
      this.files := files;
      new;
      RestoreReady(found, removed, w);
    }

    method RestoreReady(found: bool, removed: bool, w: Write)
      modifies this
      ensures View() ==
              var sh := old(View());
              if sh.memory.readyPath == "" then sh
              else if !(found && sh.memory.readyPath in sh.files && Newer(sh.memory.readyVersion, sh.session.version)) then
                Sections.WriteMemory(sh.(memory := sh.memory.(readyPath := "", readyVersion := ""),
                                         files := if removed then Without(sh.files, sh.memory.readyPath) else sh.files), w)
              else sh.(state := sh.state.(phase := PhaseReady, latestVersion := sh.memory.readyVersion))
    {
      hide Parse;
      if memory.readyPath == "" { return; }
      var stale := true;
      if found && memory.readyPath in files {
        var comparison := CompareStable(version, memory.readyVersion);
        if comparison.Some? && comparison.value < 0 { stale := false; }
      }
      if stale {
        if removed { files := Without(files, memory.readyPath); }
        memory := memory.(readyPath := "", readyVersion := "");
        WriteMemory(w);
        return;
      }
      state := state.(phase := PhaseReady);
      state := state.(latestVersion := memory.readyVersion);
    }

    method WriteMemory(w: Write)
      modifies this`files
      ensures View() == Sections.WriteMemory(old(View()), w)
    {
      match w
      case Wrote => files := files[MemoryPath(directory) := Memo(memory)];
      case NotWritten =>
      case Torn(bytes) => files := files[MemoryPath(directory) := Data(bytes)];
    }

    method Publish(policy: Policy)
      modifies this`pending, this`notify, this`history
      ensures View() == Sections.Publish(old(View()), policy)
    {
      if !emits { return; }
      pending := Some(state.(policy := policy));
      notify := true;
      history := history + [state.(policy := policy)];
    }

    method SetError(step: FailedStep, message: string, policy: Policy)
      modifies this
      ensures View() == Sections.SetError(old(View()), step, message, policy)
    {
      state := state.(phase := PhaseError);
      state := state.(failedStep := step);
      state := state.(error := message);
      Publish(policy);
    }

    // ----- the pump -----

    /** The receive from notify. */
    method PumpWake() returns (woken: bool)
      requires pump.Waiting?
      modifies this`notify, this`pump
      ensures View() == old(View()).(slot := P.Step(old(View()).slot, P.Wake))
      ensures woken <==> old(pump.Waiting? && notify)
    {
      woken := notify;
      if notify {
        notify := false;
        pump := P.Woken;
      }
    }

    /** The section that copies pending. */
    method PumpTake() returns (newest: State)
      requires pump.Woken? && pending.Some? && history != []
      modifies this`pump
      ensures View() == old(View()).(slot := P.Step(old(View()).slot, P.Take))
      ensures pending == Some(newest)
    {
      newest := pending.value;
      pump := P.Holding(|history| - 1, newest);
    }

    /** emit, off the lock: the listener is given the copy. */
    method PumpEmit(newest: State) returns (delivered: State)
      requires pump.Holding? && pump.value == newest
      modifies this`pump, this`emitted
      ensures View() == old(View()).(slot := P.Step(old(View()).slot, P.Emit))
      ensures delivered == newest && emitted != [] && emitted[|emitted| - 1].1 == delivered
    {
      delivered := newest;
      emitted := emitted + [(pump.index, newest)];
      pump := P.Waiting;
    }

    /** Close: the pump may leave its select from now on, and a running download is cancelled. */
    method Close() returns (stopping: Option<nat>)
      modifies this`stopped
      ensures View() == old(View()).(slot := P.Step(old(View()).slot, P.Stop))
      ensures stopping == cancel
    {
      stopped := true;
      stopping := Cancel();
    }

    // ----- Check -----

    method BeginCheck(policy: Policy) returns (entry: Entry)
      modifies this
      ensures (View(), entry) == CheckBegin(old(View()), policy)
    {
      hide Parse;
      var parsed := ParseStableVersion(version);
      if parsed.None? { return Refused; }
      if busy { return Busy; }
      busy := true;
      state := state.(phase := PhaseChecking);
      state := state.(error := "", failedStep := StepNone);
      Publish(policy);
      return Entered;
    }

    /** plan */
    method MakePlan(recent: bool) returns (mirrors: seq<Mirror>, preferred: Option<Mirror>)
      ensures (mirrors, preferred) == PlanMirrors(View(), recent)
    {
      mirrors := MergeMirrors(BootstrapMirrors(), memory.learnedMirrors);
      if memory.preferredMirror == "" || |mirrors| < 2 { return mirrors, None; }
      if !recent { return mirrors, None; }
      preferred := FindMirror(mirrors, memory.preferredMirror);
    }

    method RememberMirror(r: Release, now: string, w: Write)
      modifies this
      ensures View() == Remember(old(View()), r, now, w)
    {
      if r.mirror.name != "" {
        memory := memory.(preferredMirror := r.mirror.name);
        memory := memory.(mirrorMeasured := now);
      }
      if |r.manifest.mirrors| > 0 {
        var merged := MergeMirrors(memory.learnedMirrors, r.manifest.mirrors);
        memory := memory.(learnedMirrors := merged);
      }
      WriteMemory(w);
    }

    method FailCheck(message: string, now: string, w: Write, policy: Policy)
      modifies this
      ensures View() == CheckFailed(old(View()), message, now, w, policy)
    {
      busy := false;
      memory := memory.(checkedAt := now);
      state := state.(checkedAt := memory.checkedAt);
      WriteMemory(w);
      SetError(StepCheck, message, policy);
    }

    method NoteCheck(r: Release, manual: bool, now: string, w: Write)
      modifies this
      ensures View() == CheckNoted(old(View()), r, manual, now, w)
    {
      busy := false;
      memory := memory.(checkedAt := now);
      state := state.(checkedAt := memory.checkedAt);
      state := state.(releaseURL := r.releaseURL);
      state := state.(outcome := Some(r.status));
      if manual && r.status == Available && memory.skipped == r.latestVersion {
        memory := memory.(skipped := "");
        state := state.(skipped := "");
      }
      WriteMemory(w);
    }

    method ConcludeCheck(r: Release, policy: Policy, auto: Policy) returns (download: bool)
      modifies this
      ensures View() == Sections.Publish(old(View()).(state := Concluded(old(View()), r, old(state))), policy)
      ensures download <==> !StillGood(old(View()), r) && AutoDownload(View(), r, auto)
    {
      if r.status != Available {
        state := state.(phase := PhaseIdle);
        state := state.(latestVersion := "");
        state := state.(notes := "", publishedAt := "");
        Publish(policy);
        return false;
      }
      state := state.(latestVersion := r.latestVersion);
      state := state.(notes := r.notes);
      state := state.(publishedAt := r.publishedAt);
      if state.phase == PhaseReady && memory.readyVersion == r.latestVersion {
        Publish(policy);
        return false;
      }
      state := state.(phase := PhaseAvailable);
      Publish(policy);
      return auto.Downloads() && location.CanInstall() && r.latestVersion != memory.skipped;
    }

    /** The last section of Check, and whether a download follows it. */
    method FinishCheck(r: Release, manual: bool, now: string, w: Write, policy: Policy, auto: Policy)
      returns (download: bool)
      modifies this
      ensures View() == CheckDone(old(View()), r, manual, now, w, policy)
      ensures download <==> !StillGood(old(View()), r) && AutoDownload(View(), r, auto)
    {
      NoteCheck(r, manual, now, w);
      download := ConcludeCheck(r, policy, auto);
    }

    // ----- Download -----

    method BeginDownload(r: Release, token: nat, message: string, policy: Policy) returns (entry: Entry)
      modifies this
      ensures (View(), entry) == DownloadBegin(old(View()), r, token, message, policy)
    {
      if busy { return Busy; }
      if !location.CanInstall() {
        SetError(StepDownload, message, policy);
        return Refused;
      }
      busy := true;
      cancel := Some(token);
      state := state.(phase := PhaseDownloading);
      state := state.(latestVersion := r.latestVersion);
      state := state.(notes := r.notes, publishedAt := r.publishedAt);
      state := state.(downloaded := 0, total := -1);
      state := state.(error := "", failedStep := StepNone);
      Publish(policy);
      return Entered;
    }

    method BeginAttempt(mirror: Mirror, policy: Policy)
      modifies this
      ensures View() == AttemptBegin(old(View()), mirror, policy)
    {
      state := state.(mirror := mirror.name);
      state := state.(downloaded := 0, total := -1);
      Publish(policy);
    }

    method ReportProgress(done: int, total: int, policy: Policy)
      modifies this
      ensures View() == Progress(old(View()), done, total, policy)
    {
      state := state.(downloaded := done, total := total);
      Publish(policy);
    }

    method FinishDownload(r: Release, ending: Ending, w: Write, policy: Policy)
      modifies this
      ensures View() == DownloadFinish(old(View()), r, ending, w, policy)
    {
      match ending
      case Cancelled =>
        state := state.(phase := PhaseAvailable);
        state := state.(downloaded := 0, total := -1);
        Publish(policy);
      case Broken(message) =>
        SetError(StepDownload, message, policy);
      case Fetched(path) =>
        memory := memory.(readyVersion := r.latestVersion, readyPath := path);
        WriteMemory(w);
        state := state.(phase := PhaseReady);
        Publish(policy);
    }

    method ReleaseDownload()
      modifies this`busy, this`cancel
      ensures View() == DownloadRelease(old(View()))
    {
      busy := false;
      cancel := None;
    }

    /** sweep of one directory listing: everything but the package to keep and the memory, as far as it may. */
    method Sweep(names: seq<string>, keep: string, allowed: seq<bool>)
      requires |allowed| == |names|
      modifies this`files
      ensures forall p :: p in files <==> p in old(files) && !Swept(names, keep, allowed, p)
      ensures forall p :: p in files ==> files[p] == old(files)[p]
      ensures Join(directory, keep) in old(files) ==> Join(directory, keep) in files
      ensures MemoryPath(directory) in old(files) ==> MemoryPath(directory) in files
    {
      for index := 0 to |names|
        invariant forall p :: p in files <==> p in old(files) && !Swept(names[..index], keep, allowed[..index], p)
        invariant forall p :: p in files ==> files[p] == old(files)[p]
      {
        var name := names[index];
        SweptMore(names, keep, allowed, index);
        if name == keep || name == MEMORY_FILE { continue; }
        if allowed[index] { files := Without(files, Join(directory, name)); }
      }
      assert names[..|names|] == names && allowed[..|names|] == allowed;
      forall name | name == keep || name == MEMORY_FILE ensures !Swept(names, keep, allowed, Join(directory, name)) {
        forall i | 0 <= i < |names| && Join(directory, names[i]) == Join(directory, name) ensures names[i] == name {
          JoinInjective(directory, names[i], name);
        }
      }
    }

    /** p is a listed entry that may go and is neither kept nor the memory. */
    ghost predicate Swept(names: seq<string>, keep: string, allowed: seq<bool>, p: string)
      requires |allowed| == |names|
    {
      exists i :: 0 <= i < |names| && allowed[i] && names[i] != keep && names[i] != MEMORY_FILE &&
        p == Join(directory, names[i])
    }

    lemma SweptMore(names: seq<string>, keep: string, allowed: seq<bool>, n: nat)
      requires |allowed| == |names| && n < |names|
      ensures forall p ::
                Swept(names[..n + 1], keep, allowed[..n + 1], p) <==>
                Swept(names[..n], keep, allowed[..n], p) ||
                (allowed[n] && names[n] != keep && names[n] != MEMORY_FILE && p == Join(directory, names[n]))
    {
      forall p | Swept(names[..n], keep, allowed[..n], p) ensures Swept(names[..n + 1], keep, allowed[..n + 1], p) {
        var i :| 0 <= i < n && allowed[i] && names[i] != keep && names[i] != MEMORY_FILE && p == Join(directory, names[i]);
        assert names[..n + 1][i] == names[i] && allowed[..n + 1][i];
      }
      forall p | Swept(names[..n + 1], keep, allowed[..n + 1], p)
        ensures Swept(names[..n], keep, allowed[..n], p) ||
                (allowed[n] && names[n] != keep && names[n] != MEMORY_FILE && p == Join(directory, names[n]))
      {
        var i :| 0 <= i < n + 1 && allowed[..n + 1][i] && names[..n + 1][i] != keep &&
          names[..n + 1][i] != MEMORY_FILE && p == Join(directory, names[..n + 1][i]);
        if i < n { assert names[..n][i] == names[i] && allowed[..n][i]; }
      }
      if allowed[n] && names[n] != keep && names[n] != MEMORY_FILE {
        assert names[..n + 1][n] == names[n] && allowed[..n + 1][n];
        assert Swept(names[..n + 1], keep, allowed[..n + 1], Join(directory, names[n]));
      }
    }

    /** The first section of Cancel: it only reads. */
    method Cancel() returns (token: Option<nat>)
      ensures token == cancel
    {
      token := cancel;
    }

    // ----- Install, InstallOnQuit, Skip -----

    method BeginInstall(policy: Policy) returns (path: Option<string>)
      modifies this
      ensures (View(), path) == InstallBegin(old(View()), policy)
    {
      if state.phase != PhaseReady || memory.readyPath == "" { return None; }
      state := state.(phase := PhaseInstalling);
      Publish(policy);
      return Some(memory.readyPath);
    }

    method BeginQuit(policy: Policy) returns (path: Option<string>)
      ensures path == QuitBegin(View(), policy)
    {
      var ready := state.phase == PhaseReady && memory.readyPath != "";
      if !ready || policy != PolicyAuto { return None; }
      return Some(memory.readyPath);
    }

    method FailInstall(message: string, policy: Policy)
      modifies this
      ensures View() == InstallFailed(old(View()), message, policy)
    {
      state := state.(phase := PhaseReady);
      SetError(StepInstall, message, policy);
    }

    method ForgetPackage(removed: bool, w: Write)
      modifies this
      ensures View() == ForgetReady(old(View()), removed, w)
    {
      if removed { files := Without(files, memory.readyPath); }
      memory := memory.(readyPath := "", readyVersion := "");
      WriteMemory(w);
      state := state.(phase := PhaseIdle);
      state := state.(downloaded := 0, total := -1);
    }

    method Skip(version: string, w: Write, policy: Policy)
      modifies this
      ensures View() == SkipVersion(old(View()), version, w, policy)
    {
      memory := memory.(skipped := version);
      state := state.(skipped := version);
      WriteMemory(w);
      Publish(policy);
    }
  }
}
