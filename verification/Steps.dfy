/** Every step of the lifecycle keeps its invariant. */
module Steps {
  import opened Text
  import opened Versions
  import opened Mirrors
  import opened Target
  import opened Disk
  import opened Checking
  import opened Sections
  import opened Lifecycle
  import opened Invariants
  import R = Race
  import D = Download
  import P = Publisher

  // ----- calls change hands -------------------------------------------------------------

  /** What Control looks at in a call. */
  predicate SameRole(a: Op, b: Op) {
    && (IsCheck(a) <==> IsCheck(b)) && (a.Fetching? <==> b.Fetching?) && (a.Closing? <==> b.Closing?)
    && (a.Installing? <==> b.Installing?) && (a.Cancelling? <==> b.Cancelling?)
    && (a.Cancelling? ==> a.token == b.token)
    && (a.Fetching? ==> a.release.latestVersion == b.release.latestVersion)
  }

  /** What Control looks at in the shared state. */
  predicate SameView(a: Shared, b: Shared) {
    && a.busy == b.busy && a.cancel == b.cancel
    && a.state.phase == b.state.phase && a.state.latestVersion == b.state.latestVersion
    && a.memory.readyPath == b.memory.readyPath && a.memory.readyVersion == b.memory.readyVersion
  }

  /** A call moves on within its role. */
  lemma ControlPut(w: World, sh: Shared, seen: set<Manifest>, synced: bool, id: nat, op: Op)
    requires Control(w) && id in w.ops && SameRole(w.ops[id], op) && SameView(w.sh, sh)
    ensures Control(w.(sh := sh, seen := seen, synced := synced).Put(id, op))
  {
  }

  /** A call that owns nothing ends. It may leave the phase alone or clear it. */
  lemma ControlDrop(w: World, sh: Shared, seen: set<Manifest>, cancelled: set<nat>, synced: bool, id: nat)
    requires Control(w) && id in w.ops && !Owns(w.ops[id])
    requires w.sh.busy == sh.busy && w.sh.cancel == sh.cancel && sh.state.latestVersion == w.sh.state.latestVersion
    requires cancelled <= w.begun
    requires || sh.state.phase == PhaseIdle || sh.state.phase == PhaseError
             || (SameView(w.sh, sh) && !w.ops[id].Installing?)
    ensures Control(w.(sh := sh, seen := seen, cancelled := cancelled, synced := synced).Drop(id))
  {
  }

  /** The owner ends, giving busy back with a phase that needs nobody. */
  lemma ControlEnd(w: World, sh: Shared, synced: bool, id: nat)
    requires Control(w) && w.owner == Some(id)
    requires !sh.busy && sh.cancel == None
    requires || sh.state.phase == PhaseIdle || sh.state.phase == PhaseError || sh.state.phase == PhaseAvailable
             || (w.ops[id].Closing? && SameView(w.sh.(busy := false, cancel := None), sh))
    ensures Control(w.(sh := sh, owner := None, synced := synced).Drop(id))
  {
  }

  /** Who owns busy, and that a check never owns it with a package ready. */
  lemma OwnerIs(w: World, id: nat)
    requires Control(w) && id in w.ops && Owns(w.ops[id])
    ensures w.owner == Some(id) && w.sh.busy
    ensures IsCheck(w.ops[id]) ==> w.sh.cancel == None && w.sh.state.phase != PhaseReady
  {
  }

  lemma CancelledBegan(w: World)
    requires Control(w)
    ensures w.cancelled <= w.begun
    ensures w.sh.cancel.Some? ==> w.sh.cancel.value in w.begun
    ensures forall i :: i in w.ops && w.ops[i].Cancelling? ==> w.ops[i].token in w.begun
  {
  }

  /** The shared state changes with no call moving. */
  lemma ControlStays(w: World, sh: Shared, synced: bool)
    requires Control(w) && SameView(w.sh, sh)
    ensures Control(w.(sh := sh, synced := synced))
  {
  }

  lemma NoOwner(w: World)
    requires Control(w) && !w.sh.busy
    ensures w.owner == None && w.sh.cancel == None
  {
  }

  /** A new call that owns nothing. */
  lemma ControlAdd(w: World, op: Op)
    requires Control(w) && !Owns(op) && (op.Cancelling? ==> op.token in w.begun)
    ensures Control(w.Add(op))
  {
  }

  /** What no section changes. */
  predicate SamePlace(a: Shared, b: Shared) {
    a.session == b.session && a.directory == b.directory && a.busy == b.busy && a.cancel == b.cancel
  }

  lemma ErrorTouches(sh: Shared, step: FailedStep, message: string, policy: Policy)
    ensures var s := SetError(sh, step, message, policy);
            && SamePlace(sh, s) && s.files == sh.files && s.state.phase == PhaseError
            && s.state.latestVersion == sh.state.latestVersion
  {
  }

  lemma SameFilesSameParts(before: Files, after: Files)
    requires before == after
    ensures SameParts(before, after)
  {
  }

  // ----- Check --------------------------------------------------------------------------

  lemma StartCheckControl(w: World, manual: bool, policy: Policy)
    requires Control(w)
    ensures Control(DoStartCheck(w, manual, policy))
  {
    hide Newer, Normal, Offers, IsDevelopmentBuild, Usable, Clean, Attested, PackagePath;
  }

  lemma StartCheckKeepsInv(sha: Bytes -> string, w: World, manual: bool, policy: Policy)
    requires Inv(sha, w)
    ensures Inv(sha, DoStartCheck(w, manual, policy))
  {
    hide Newer, Normal, Offers, IsDevelopmentBuild, Usable, Clean, Attested, PackagePath;
    hide CancelOk, OwnerOk, PhaseOk, FilesOk, SlotOk, FetchOk;
    var w' := DoStartCheck(w, manual, policy);
    StartCheckControl(w, manual, policy);
    CheckBeginKeeps(sha, w.seen, w.synced, w.sh, policy);
    OpsAdd(w, CheckPlan(manual));
    FetchKept(sha, w.sh, w'.sh, w.ops, w'.ops);
  }

  lemma PlanIsClean(sh: Shared, recent: bool)
    ensures var (mirrors, preferred) := PlanMirrors(sh, recent);
            Clean(mirrors) && (preferred.Some? ==> Clean([preferred.value]))
  {
    var mirrors := Plan(sh.memory.learnedMirrors);
    DistinctClean(BootstrapMirrors() + sh.memory.learnedMirrors, {});
    var preferred := FindMirror(mirrors, sh.memory.preferredMirror);
    if preferred.Some? {
      var k :| 0 <= k < |mirrors| && mirrors[k] == preferred.value;
    }
  }

  lemma PlanKeepsInv(sha: Bytes -> string, w: World, id: nat, recent: bool)
    requires Inv(sha, w)
    ensures Inv(sha, DoPlan(w, id, recent))
  {
    hide Newer, Normal, Offers, IsDevelopmentBuild, Usable, Clean, Attested, PackagePath;
    hide CancelOk, OwnerOk, PhaseOk, FilesOk, SlotOk, FetchOk;
    var w' := DoPlan(w, id, recent);
    PlanIsClean(w.sh, recent);
    if w' != w {
      assert OpOk(w.sh.session, w.sh.directory, w.seen, w'.ops[id]);
      OpsPut(w, id, w'.ops[id]);
      ControlPut(w, w.sh, w.seen, w.synced, id, w'.ops[id]);
    }
    FetchKept(sha, w.sh, w'.sh, w.ops, w'.ops);
  }

  lemma AnswerIsOk(session: Session, seen: set<Manifest>, lists: seq<seq<Mirror>>, fetched: R.Fetched)
    requires ListsOk(lists) && Answers(lists, fetched) && Conclude(session.version, fetched).Some?
    ensures var r := Conclude(session.version, fetched).value; ReleaseOk(session, seen + {r.manifest}, r)
  {
    var k :| 0 <= k < |lists| && R.CanWin(lists[k], fetched);
    ConcludeMeans(session.version, fetched);
    forall m | m in fetched.order ensures m.Valid() {
      assert m in multiset(fetched.order);
      assert m in lists[k];
    }
  }

  lemma AnswerShares(sha: Bytes -> string, w: World, r: Release, now: string, wr: Write)
    requires Inv(sha, w)
    ensures var sh, seen := Remember(w.sh, r, now, wr), w.seen + {r.manifest};
            && SharedOk(sha, seen, wr.Wrote?, sh) && OpsOk(w.sh.session, w.sh.directory, seen, w.ops)
            && SameView(w.sh, sh) && sh.session == w.sh.session && sh.directory == w.sh.directory
            && SameParts(w.sh.files, sh.files)
  {
    hide Newer, Normal, Offers, IsDevelopmentBuild, Usable, Clean, Attested, PackagePath;
    hide CancelOk, OwnerOk, PhaseOk, FilesOk, SlotOk;
    var sh, seen := Remember(w.sh, r, now, wr), w.seen + {r.manifest};
    RememberKeeps(sha, w.seen, w.synced, w.sh, r, now, wr);
    SeenKeeps(sha, w.seen, seen, wr.Wrote?, sh);
    OpsGrow(w.sh.session, w.sh.directory, w.seen, seen, w.ops);
    MemoryLeavesParts(w.sh.files, w.sh.directory, Remembered(w.sh.memory, r, now), wr);
  }

  lemma AnswerKeepsInv(sha: Bytes -> string, w: World, id: nat, fetched: R.Fetched, now: string, wr: Write)
    requires Inv(sha, w)
    ensures Inv(sha, DoAnswer(w, id, fetched, now, wr))
  {
    hide Newer, Normal, Offers, IsDevelopmentBuild, Usable, Clean, Attested, PackagePath;
    hide CancelOk, OwnerOk, PhaseOk, FilesOk, SlotOk, FetchOk;
    hide SharedOk, Remember, Conclude, Answers;
    var w' := DoAnswer(w, id, fetched, now, wr);
    if w' != w {
      var op := w.ops[id];
      var r := Conclude(w.sh.session.version, fetched).value;
      assert OpOk(w.sh.session, w.sh.directory, w.seen, op);
      AnswerIsOk(w.sh.session, w.seen, op.lists, fetched);
      AnswerShares(sha, w, r, now, wr);
      FetchKept(sha, w.sh, w'.sh, w.ops, w'.ops);
      AnswerMoves(w, w'.sh, w'.seen, wr.Wrote?, id, r);
    }
  }

  /** The caller of runCheck takes its answer. */
  lemma AnswerMoves(w: World, sh: Shared, seen: set<Manifest>, synced: bool, id: nat, r: Release)
    requires Control(w) && id in w.ops && (w.ops[id].CheckAsk? || w.ops[id].PreAsk?)
    requires SameView(w.sh, sh) && sh.session == w.sh.session && sh.directory == w.sh.directory
    requires OpsOk(w.sh.session, w.sh.directory, seen, w.ops) && ReleaseOk(w.sh.session, seen, r)
    ensures var told := w.(sh := sh, seen := seen, synced := synced);
            var w' := if w.ops[id].CheckAsk? then told.Put(id, CheckTold(w.ops[id].manual, r))
                      else if r.status == Available then told.Put(id, Pending(r)) else told.Drop(id);
            Control(w') && OpsOk(w.sh.session, w.sh.directory, seen, w'.ops)
  {
    hide Newer, Normal, Offers, IsDevelopmentBuild, Usable, Clean, Attested, PackagePath;
    var told := w.(sh := sh, seen := seen, synced := synced);
    if w.ops[id].CheckAsk? {
      ControlPut(w, sh, seen, synced, id, CheckTold(w.ops[id].manual, r));
      OpsPut(told, id, CheckTold(w.ops[id].manual, r));
    } else if r.status == Available {
      ControlPut(w, sh, seen, synced, id, Pending(r));
      OpsPut(told, id, Pending(r));
    } else {
      ControlDrop(w, sh, seen, w.cancelled, synced, id);
      OpsDrop(told, id);
    }
  }

  lemma CheckFailedTouches(sh: Shared, message: string, now: string, wr: Write, policy: Policy)
    ensures var s := CheckFailed(sh, message, now, wr, policy);
            && SamePlace(sh.(busy := false), s) && s.state.phase == PhaseError
            && s.state.latestVersion == sh.state.latestVersion && SameParts(sh.files, s.files)
  {
    hide SameParts;
    MemoryLeavesParts(sh.files, sh.directory, sh.memory.(checkedAt := now), wr);
  }

  lemma NoAnswerKeepsInv(sha: Bytes -> string, w: World, id: nat, message: string, now: string, wr: Write,
                         policy: Policy)
    requires Inv(sha, w)
    ensures Inv(sha, DoNoAnswer(w, id, message, now, wr, policy))
  {
    hide Control, SharedOk, OpsOk, FetchOk, SameParts, CheckFailed, SetError;
    var w' := DoNoAnswer(w, id, message, now, wr, policy);
    if id in w.ops && w.ops[id].CheckAsk? {
      CheckFailedKeeps(sha, w.seen, w.synced, w.sh, message, now, wr, policy);
      CheckFailedTouches(w.sh, message, now, wr, policy);
      OwnerIs(w, id);
      ControlEnd(w, w'.sh, wr.Wrote?, id);
      OpsDrop(w, id);
      FetchKept(sha, w.sh, w'.sh, w.ops, w'.ops);
    } else if id in w.ops && w.ops[id].PreAsk? {
      ErrorKeeps(sha, w.seen, w.synced, w.sh, StepDownload, message, policy);
      ErrorTouches(w.sh, StepDownload, message, policy);
      SameFilesSameParts(w.sh.files, w'.sh.files);
      CancelledBegan(w);
      ControlDrop(w, w'.sh, w.seen, w.cancelled, w.synced, id);
      OpsDrop(w, id);
      FetchKept(sha, w.sh, w'.sh, w.ops, w'.ops);
    }
  }

  lemma FinishCheckKeepsInv(sha: Bytes -> string, w: World, id: nat, now: string, wr: Write, policy: Policy,
                            auto: Policy)
    requires Inv(sha, w)
    ensures Inv(sha, DoFinishCheck(w, id, now, wr, policy, auto))
  {
    hide Newer, Normal, Offers, IsDevelopmentBuild, Usable, Clean, Attested, PackagePath;
    hide CancelOk, OwnerOk, PhaseOk, FilesOk, SlotOk, FetchOk, CheckDone;
    if id in w.ops && w.ops[id].CheckTold? {
      var r, manual := w.ops[id].release, w.ops[id].manual;
      var s := CheckDone(w.sh, r, manual, now, wr, policy);
      var done := w.(sh := s, owner := None, synced := wr.Wrote?).Drop(id);
      assert OpOk(w.sh.session, w.sh.directory, w.seen, w.ops[id]);
      CheckDoneKeeps(sha, w.seen, w.synced, w.sh, r, manual, now, wr, policy);
      CheckDoneSettles(w.sh, r, manual, now, wr, policy);
      OwnerIs(w, id);
      ControlEnd(w, s, wr.Wrote?, id);
      OpsDrop(w, id);
      FetchKept(sha, w.sh, s, w.ops, done.ops);
      if AutoDownload(s, r, auto) {
        ControlAdd(done, Pending(r));
        OpsAdd(done, Pending(r));
        FetchKept(sha, s, s, done.ops, done.Add(Pending(r)).ops);
      }
    }
  }

  /** A check always ends in a phase that needs nobody, unless it began with a package ready. */
  lemma CheckDoneSettles(sh: Shared, r: Release, manual: bool, now: string, wr: Write, policy: Policy)
    requires MemoryOk(sh.directory, sh.memory)
    ensures var s := CheckDone(sh, r, manual, now, wr, policy);
            && !s.busy && s.cancel == sh.cancel && s.session == sh.session && s.directory == sh.directory
            && (sh.state.phase != PhaseReady ==> s.state.phase == PhaseIdle || s.state.phase == PhaseAvailable)
            && SameParts(sh.files, s.files)
  {
    hide Newer, Normal, Offers, IsDevelopmentBuild, Usable, Clean, Attested, PackagePath;
    MemoryPathIsApart(sh.directory);
  }

  // ----- Download -----------------------------------------------------------------------

  lemma StartDownloadKeepsInv(sha: Bytes -> string, w: World)
    requires Inv(sha, w)
    ensures Inv(sha, w.Add(PrePlan))
  {
    hide Newer, Normal, Offers, IsDevelopmentBuild, Usable, Clean, Attested, PackagePath;
    hide CancelOk, OwnerOk, PhaseOk, FilesOk, SlotOk, FetchOk;
    ControlAdd(w, PrePlan);
    OpsAdd(w, PrePlan);
    FetchKept(sha, w.sh, w.sh, w.ops, w.Add(PrePlan).ops);
  }

  lemma BeginControl(w: World, sh: Shared, id: nat, op: Op)
    requires Control(w) && id in w.ops && w.ops[id].Pending? && w.owner == None
    requires op.Fetching? && sh.busy && sh.cancel == Some(id)
    requires sh.state.phase == PhaseDownloading && sh.state.latestVersion == op.release.latestVersion
    ensures Control(w.(sh := sh, owner := Some(id), begun := w.begun + {id}).Put(id, op))
  {
  }

  lemma DownloadBeginTouches(sh: Shared, r: Release, token: nat, message: string, policy: Policy)
    ensures var (s, e) := DownloadBegin(sh, r, token, message, policy);
            && s.session == sh.session && s.directory == sh.directory && s.files == sh.files
            && s.state.latestVersion == (if e == Entered then r.latestVersion else sh.state.latestVersion)
            && match e
               case Entered => !sh.busy && s.busy && s.cancel == Some(token) && s.state.phase == PhaseDownloading
                               && sh.session.location.CanInstall()
               case Busy => s == sh
               case Refused => s.busy == sh.busy && s.cancel == sh.cancel && s.state.phase == PhaseError
  {
  }

  lemma BegunIsOk(w: World, id: nat)
    requires OpsOk(w.sh.session, w.sh.directory, w.seen, w.ops) && id in w.ops && w.ops[id].Pending?
    requires w.sh.session.location.CanInstall()
    ensures var r := w.ops[id].release;
            var rest := if r.order == [] then [r.mirror] else r.order;
            var at := if NameOf(w.sh, r) in r.manifest.files then Sweeping else Unlisted;
            OpOk(w.sh.session, w.sh.directory, w.seen, Fetching(r, rest, at))
  {
    hide Newer, Normal, Offers, Usable;
    assert OpOk(w.sh.session, w.sh.directory, w.seen, w.ops[id]);
  }

  lemma PendingIsOk(w: World, id: nat)
    requires OpsOk(w.sh.session, w.sh.directory, w.seen, w.ops) && id in w.ops && w.ops[id].Pending?
    ensures ReleaseOk(w.sh.session, w.seen, w.ops[id].release) && w.ops[id].release.status == Available
  {
    hide ReleaseOk;
    assert OpOk(w.sh.session, w.sh.directory, w.seen, w.ops[id]);
  }

  lemma BeginDownloadKeepsInv(sha: Bytes -> string, w: World, id: nat, message: string, policy: Policy)
    requires Inv(sha, w)
    ensures Inv(sha, DoBeginDownload(w, id, message, policy))
  {
    hide Control, SharedOk, OpsOk, FetchOk, OpOk, ReleaseOk, SameParts, DownloadBegin;
    var w' := DoBeginDownload(w, id, message, policy);
    if id in w.ops && w.ops[id].Pending? {
      var r := w.ops[id].release;
      PendingIsOk(w, id);
      DownloadBeginKeeps(sha, w.seen, w.synced, w.sh, r, id, message, policy);
      DownloadBeginTouches(w.sh, r, id, message, policy);
      if DownloadBegin(w.sh, r, id, message, policy).1 == Entered {
        var op := w'.ops[id];
        NoOwner(w);
        BegunIsOk(w, id);
        BeginControl(w, w'.sh, id, op);
        OpsPut(w, id, op);
      } else {
        CancelledBegan(w);
        ControlDrop(w, w'.sh, w.seen, w.cancelled, w.synced, id);
        OpsDrop(w, id);
      }
      SameFilesSameParts(w.sh.files, w'.sh.files);
      FetchKept(sha, w.sh, w'.sh, w.ops, w'.ops);
    }
  }

  lemma SweepKeepsInv(sha: Bytes -> string, w: World, id: nat, name: string)
    requires Inv(sha, w)
    ensures Inv(sha, DoSweep(w, id, name))
  {
    hide Newer, Normal, Offers, IsDevelopmentBuild, Usable, Clean, Attested, PackagePath;
    hide CancelOk, OwnerOk, PhaseOk, FilesOk, SlotOk;
    if IsAt(w, id, true) && name != NameOf(w.sh, w.ops[id].release) && name != MEMORY_FILE {
      var p := Join(w.sh.directory, name);
      if p == MemoryPath(w.sh.directory) { JoinInjective(w.sh.directory, name, MEMORY_FILE); }
      RemoveKeeps(sha, w.seen, w.synced, w.sh, p);
      OnlyFetch(w, id);
      ControlPut(w, w.sh.(files := Without(w.sh.files, p)), w.seen, w.synced, id, w.ops[id]);
      assert w.ops[id := w.ops[id]] == w.ops;
    }
  }

  lemma NextMirrorKeepsInv(sha: Bytes -> string, w: World, id: nat, policy: Policy)
    requires Inv(sha, w)
    ensures Inv(sha, DoNextMirror(w, id, policy))
  {
    hide Newer, Normal, Offers, IsDevelopmentBuild, Usable, Clean, Attested, PackagePath;
    hide CancelOk, OwnerOk, PhaseOk, FilesOk, SlotOk;
    var w' := DoNextMirror(w, id, policy);
    if w' != w {
      var op := w.ops[id];
      assert OpOk(w.sh.session, w.sh.directory, w.seen, op);
      AttemptKeeps(sha, w.seen, w.synced, w.sh, op.rest[0], policy);
      ControlPut(w, w'.sh, w.seen, w.synced, id, w'.ops[id]);
      OpsPut(w, id, w'.ops[id]);
      OnlyFetch(w, id);
    }
  }

  /** There is only ever one Download between its busy sections. */
  lemma OnlyFetch(w: World, id: nat)
    requires Control(w) && id in w.ops && w.ops[id].Fetching?
    ensures forall i :: i in w.ops && w.ops[i].Fetching? ==> i == id
  {
    assert Owns(w.ops[id]);
  }

  /** The package of a running download is one the manifest vouches for. */
  lemma DestIsPackage(w: World, id: nat)
    requires OpsOk(w.sh.session, w.sh.directory, w.seen, w.ops) && Located(w.sh.session.location)
    requires id in w.ops && w.ops[id].Fetching?
    ensures var r := w.ops[id].release;
            && PackagePath(w.sh.directory, DestOf(w.sh, r), r.latestVersion)
            && r.manifest in w.seen && Newer(r.latestVersion, w.sh.session.version)
  {
    hide Newer, Normal, Offers, IsDevelopmentBuild, Usable;
    assert OpOk(w.sh.session, w.sh.directory, w.seen, w.ops[id]);
    assert Released(w.sh.session.location.target);
  }

  lemma MatchIsAttested(sha: Bytes -> string, w: World, id: nat, f: File)
    requires OpsOk(w.sh.session, w.sh.directory, w.seen, w.ops) && Located(w.sh.session.location)
    requires id in w.ops && w.ops[id].Fetching? && !w.ops[id].at.Unlisted?
    requires D.Matches(sha, f, WantOf(w.sh, w.ops[id].release))
    ensures Attested(sha, w.sh.directory, w.seen, DestOf(w.sh, w.ops[id].release), f)
  {
    hide Newer, IsDevelopmentBuild, Usable;
    var r := w.ops[id].release;
    assert OpOk(w.sh.session, w.sh.directory, w.seen, w.ops[id]);
    assert AttestedBy(sha, w.sh.directory, r.manifest, w.sh.session.location.target, DestOf(w.sh, r), f);
  }

  /** One step of an attempt keeps every file accounted for. */
  lemma FileShares(sha: Bytes -> string, w: World, id: nat, e: D.Event)
    requires Inv(sha, w) && IsAt(w, id, false)
    ensures var op := w.ops[id];
            var (f, pc) := D.Step(sha, DestOf(w.sh, op.release), WantOf(w.sh, op.release), w.sh.files, op.at.pc, e);
            && SharedOk(sha, w.seen, w.synced, w.sh.(files := f))
            && D.PartOk(sha, DestOf(w.sh, op.release), WantOf(w.sh, op.release), f, pc)
  {
    hide Newer, Normal, Offers, IsDevelopmentBuild, Usable, Clean, Attested, PackagePath;
    var op := w.ops[id];
    var dest, want := DestOf(w.sh, op.release), WantOf(w.sh, op.release);
    var (f, pc) := D.Step(sha, dest, want, w.sh.files, op.at.pc, e);
    D.StepKeepsPart(sha, dest, want, w.sh.files, op.at.pc, e);
    DestIsPackage(w, id);
    PackagePathIsApart(w.sh.directory, dest, op.release.latestVersion);
    PartialIsPart(dest);
    MemoryPathIsApart(w.sh.directory);
    forall p | p in f ensures FileOk(sha, w.sh.directory, w.seen, p, f[p]) {
      if p == dest && !(dest in w.sh.files && f[dest] == w.sh.files[dest]) {
        MatchIsAttested(sha, w, id, f[dest]);
      } else if p != D.Partial(dest) {
        assert FileOk(sha, w.sh.directory, w.seen, p, w.sh.files[p]);
      }
    }
  }

  lemma FileKeepsInv(sha: Bytes -> string, w: World, id: nat, e: D.Event)
    requires Inv(sha, w)
    ensures Inv(sha, DoFile(sha, w, id, e))
  {
    hide Newer, Normal, Offers, IsDevelopmentBuild, Usable, Clean, Attested, PackagePath;
    hide CancelOk, OwnerOk, PhaseOk, FilesOk, SlotOk;
    hide SharedOk, D.Step;
    if IsAt(w, id, false) {
      var w' := DoFile(sha, w, id, e);
      FileShares(sha, w, id, e);
      OnlyFetch(w, id);
      if w' != w {
        assert OpOk(w.sh.session, w.sh.directory, w.seen, w.ops[id]);
        ControlPut(w, w'.sh, w.seen, w.synced, id, w'.ops[id]);
        OpsPut(w, id, w'.ops[id]);
      }
    }
  }

  lemma FinishControl(w: World, sh: Shared, synced: bool, id: nat)
    requires Control(w) && id in w.ops && w.ops[id].Fetching?
    requires sh.busy == w.sh.busy && sh.cancel == w.sh.cancel && sh.state.latestVersion == w.sh.state.latestVersion
    requires || sh.state.phase == PhaseAvailable || sh.state.phase == PhaseError
             || (sh.state.phase == PhaseReady && sh.memory.readyPath != "" &&
                 sh.memory.readyVersion == w.ops[id].release.latestVersion)
    ensures Control(w.(sh := sh, synced := synced).Put(id, Closing))
  {
  }

  lemma FinishTouches(sh: Shared, r: Release, ending: Ending, wr: Write, policy: Policy)
    ensures var s := DownloadFinish(sh, r, ending, wr, policy);
            && s.busy == sh.busy && s.cancel == sh.cancel && s.session == sh.session && s.directory == sh.directory
            && s.state.latestVersion == sh.state.latestVersion && SameParts(sh.files, s.files)
            && s.state.phase == (match ending case Fetched(_) => PhaseReady case Cancelled => PhaseAvailable case Broken(_) => PhaseError)
            && (ending.Fetched? ==> s.memory.readyPath == ending.path && s.memory.readyVersion == r.latestVersion)
  {
    MemoryPathIsApart(sh.directory);
  }

  /** The package a finished download announces. */
  lemma FinishedIsPackage(sha: Bytes -> string, w: World, id: nat, message: string)
    requires SharedOk(sha, w.seen, w.synced, w.sh) && OpsOk(w.sh.session, w.sh.directory, w.seen, w.ops)
    requires id in w.ops && w.ops[id].Fetching? && EndingOf(w.sh, w.ops[id], message).Some?
    ensures var r, ending := w.ops[id].release, EndingOf(w.sh, w.ops[id], message).value;
            ending.Fetched? ==> PackagePath(w.sh.directory, ending.path, r.latestVersion) && ending.path != "" &&
                                Newer(r.latestVersion, w.sh.session.version)
  {
    hide Newer, PackagePath, FilesOk, SlotOk, OnDisk, Shown, MemoryOk, OpsOk;
    DestIsPackage(w, id);
    PackagePathIsApart(w.sh.directory, DestOf(w.sh, w.ops[id].release), w.ops[id].release.latestVersion);
  }

  lemma FinishDownloadKeepsInv(sha: Bytes -> string, w: World, id: nat, message: string, wr: Write, policy: Policy)
    requires Inv(sha, w)
    ensures Inv(sha, DoFinishDownload(w, id, message, wr, policy))
  {
    hide Control, SharedOk, OpsOk, FetchOk, PackagePath, Newer, SameParts, DownloadFinish;
    if id in w.ops && w.ops[id].Fetching? && EndingOf(w.sh, w.ops[id], message).Some? {
      var w' := DoFinishDownload(w, id, message, wr, policy);
      var r, ending := w.ops[id].release, EndingOf(w.sh, w.ops[id], message).value;
      FinishedIsPackage(sha, w, id, message);
      DownloadFinishKeeps(sha, w.seen, w.synced, w.sh, r, ending, wr, policy);
      FinishTouches(w.sh, r, ending, wr, policy);
      FinishControl(w, w'.sh, w'.synced, id);
      OpsPut(w, id, Closing);
      FetchKept(sha, w.sh, w'.sh, w.ops, w'.ops);
    }
  }

  lemma ReportKeepsInv(sha: Bytes -> string, w: World, id: nat, total: int, policy: Policy)
    requires Inv(sha, w)
    ensures Inv(sha, DoReport(w, id, total, policy))
  {
    hide Newer, Normal, Offers, IsDevelopmentBuild, Usable, Clean, Attested, PackagePath;
    hide CancelOk, OwnerOk, PhaseOk, FilesOk, SlotOk, FetchOk, OpOk, OpsOk;
    var w' := DoReport(w, id, total, policy);
    if w' != w {
      ProgressKeeps(sha, w.seen, w.synced, w.sh, |w.ops[id].at.pc.stream|, total, policy);
      ControlPut(w, w'.sh, w.seen, w.synced, id, w.ops[id]);
      assert w.ops[id := w.ops[id]] == w.ops;
      FetchKept(sha, w.sh, w'.sh, w.ops, w'.ops);
    }
  }

  lemma ReleaseKeepsInv(sha: Bytes -> string, w: World, id: nat)
    requires Inv(sha, w)
    ensures Inv(sha, DoRelease(w, id))
  {
    hide Newer, Normal, Offers, IsDevelopmentBuild, Usable, Clean, Attested, PackagePath;
    hide CancelOk, OwnerOk, PhaseOk, FilesOk, SlotOk, FetchOk, OpOk, OpsOk;
    var w' := DoRelease(w, id);
    if w' != w {
      BusyKeeps(sha, w.seen, w.synced, w.sh, false, None);
      ReleaseControl(w, id);
      OpsDrop(w, id);
      FetchKept(sha, w.sh, w'.sh, w.ops, w'.ops);
    }
  }

  lemma ReleaseControl(w: World, id: nat)
    requires Control(w) && id in w.ops && w.ops[id].Closing?
    ensures Control(DoRelease(w, id))
  {
  }

  // ----- Install, InstallOnQuit, Skip, Cancel -------------------------------------------

  lemma StartInstallKeepsInv(sha: Bytes -> string, w: World, policy: Policy)
    requires Inv(sha, w)
    ensures Inv(sha, DoStartInstall(w, policy))
  {
    hide Newer, Normal, Offers, IsDevelopmentBuild, Usable, Clean, Attested, PackagePath;
    hide CancelOk, OwnerOk, PhaseOk, FilesOk, SlotOk, FetchOk;
    var w' := DoStartInstall(w, policy);
    if w' != w {
      InstallBeginKeeps(sha, w.seen, w.synced, w.sh, policy);
      InstallControl(w, policy);
      OpsAdd(w, Installing(w.sh.memory.readyPath, w.sh.memory.readyVersion));
      FetchKept(sha, w.sh, w'.sh, w.ops, w'.ops);
    }
  }

  lemma InstallControl(w: World, policy: Policy)
    requires Control(w)
    ensures Control(DoStartInstall(w, policy))
  {
    hide Located, MemoryPath;
  }

  lemma StartQuitKeepsInv(sha: Bytes -> string, w: World, policy: Policy)
    requires Inv(sha, w)
    ensures Inv(sha, DoStartQuit(w, policy))
  {
    hide Newer, Normal, Offers, IsDevelopmentBuild, Usable, Clean, Attested, PackagePath;
    hide CancelOk, OwnerOk, PhaseOk, FilesOk, SlotOk, FetchOk;
    var w' := DoStartQuit(w, policy);
    if w' != w {
      var op := Quitting(w.sh.memory.readyPath, w.sh.memory.readyVersion);
      ControlAdd(w, op);
      OpsAdd(w, op);
      FetchKept(sha, w.sh, w.sh, w.ops, w'.ops);
    }
  }

  lemma ForgetTouches(sh: Shared, removed: bool, wr: Write)
    requires MemoryOk(sh.directory, sh.memory)
    ensures var s := ForgetReady(sh, removed, wr);
            && SamePlace(sh, s) && s.state.phase == PhaseIdle && s.state.latestVersion == sh.state.latestVersion
            && SameParts(sh.files, s.files)
  {
    hide MemoryOk, MemoryPath;
    ReadyPathIsApart(sh);
    MemoryPathIsApart(sh.directory);
  }

  lemma MemoryOf(sha: Bytes -> string, seen: set<Manifest>, synced: bool, sh: Shared)
    requires SharedOk(sha, seen, synced, sh)
    ensures MemoryOk(sh.directory, sh.memory)
  {
    hide FilesOk, SlotOk, OnDisk, MemoryOk, Newer;
  }

  lemma InstalledKeepsInv(sha: Bytes -> string, w: World, id: nat, removed: bool, wr: Write)
    requires Inv(sha, w)
    ensures Inv(sha, DoInstalled(w, id, removed, wr))
  {
    hide Control, SharedOk, OpsOk, FetchOk, MemoryOk, SameParts, ForgetReady;
    if id in w.ops && (w.ops[id].Installing? || w.ops[id].Quitting?) {
      var w' := DoInstalled(w, id, removed, wr);
      ForgetReadyKeeps(sha, w.seen, w.synced, w.sh, removed, wr);
      MemoryOf(sha, w.seen, w.synced, w.sh);
      ForgetTouches(w.sh, removed, wr);
      CancelledBegan(w);
      ControlDrop(w, w'.sh, w.seen, w.cancelled, wr.Wrote?, id);
      OpsDrop(w, id);
      FetchKept(sha, w.sh, w'.sh, w.ops, w'.ops);
    }
  }

  lemma InstallFailedTouches(sh: Shared, message: string, policy: Policy)
    ensures var s := InstallFailed(sh, message, policy);
            && SamePlace(sh, s) && s.files == sh.files && s.state.phase == PhaseError
            && s.state.latestVersion == sh.state.latestVersion
  {
  }

  lemma NotInstalledKeepsInv(sha: Bytes -> string, w: World, id: nat, message: string, policy: Policy)
    requires Inv(sha, w)
    ensures Inv(sha, DoNotInstalled(w, id, message, policy))
  {
    hide Control, SharedOk, OpsOk, FetchOk, SameParts, InstallFailed;
    if id in w.ops && (w.ops[id].Installing? || w.ops[id].Quitting?) {
      var w' := DoNotInstalled(w, id, message, policy);
      InstallFailedKeeps(sha, w.seen, w.synced, w.sh, message, policy);
      InstallFailedTouches(w.sh, message, policy);
      CancelledBegan(w);
      ControlDrop(w, w'.sh, w.seen, w.cancelled, w.synced, id);
      OpsDrop(w, id);
      SameFilesSameParts(w.sh.files, w'.sh.files);
      FetchKept(sha, w.sh, w'.sh, w.ops, w'.ops);
    }
  }

  lemma SkipKeepsInv(sha: Bytes -> string, w: World, version: string, wr: Write, policy: Policy)
    requires Inv(sha, w)
    ensures Inv(sha, w.(sh := SkipVersion(w.sh, version, wr, policy), synced := wr.Wrote?))
  {
    hide Newer, Normal, Offers, IsDevelopmentBuild, Usable, Clean, Attested, PackagePath;
    hide CancelOk, OwnerOk, PhaseOk, FilesOk, SlotOk, FetchOk, OpOk, OpsOk;
    var sh := SkipVersion(w.sh, version, wr, policy);
    SkipKeeps(sha, w.seen, w.synced, w.sh, version, wr, policy);
    MemoryLeavesParts(w.sh.files, w.sh.directory, w.sh.memory.(skipped := version), wr);
    FetchKept(sha, w.sh, sh, w.ops, w.ops);
    ControlStays(w, sh, wr.Wrote?);
  }

  lemma ReadCancelKeepsInv(sha: Bytes -> string, w: World)
    requires Inv(sha, w) && w.sh.cancel.Some?
    ensures Inv(sha, w.Add(Cancelling(w.sh.cancel.value)))
  {
    hide Newer, Normal, Offers, IsDevelopmentBuild, Usable, Clean, Attested, PackagePath;
    hide CancelOk, OwnerOk, PhaseOk, FilesOk, SlotOk, FetchOk;
    var op := Cancelling(w.sh.cancel.value);
    CancelledBegan(w);
    ControlAdd(w, op);
    OpsAdd(w, op);
    FetchKept(sha, w.sh, w.sh, w.ops, w.Add(op).ops);
  }

  lemma CallCancelKeepsInv(sha: Bytes -> string, w: World, id: nat)
    requires Inv(sha, w)
    ensures Inv(sha, DoCallCancel(w, id))
  {
    hide Newer, Normal, Offers, IsDevelopmentBuild, Usable, Clean, Attested, PackagePath;
    hide CancelOk, OwnerOk, PhaseOk, FilesOk, SlotOk, FetchOk;
    var w' := DoCallCancel(w, id);
    if id in w.ops && w.ops[id].Cancelling? {
      CancelledBegan(w);
      ControlDrop(w, w.sh, w.seen, w.cancelled + {w.ops[id].token}, w.synced, id);
      OpsDrop(w, id);
      FetchKept(sha, w.sh, w'.sh, w.ops, w'.ops);
    }
  }

  lemma PumpKeepsInv(sha: Bytes -> string, w: World, e: P.Event<State>)
    requires Inv(sha, w) && !e.Publish?
    ensures Inv(sha, w.(sh := w.sh.(slot := P.Step(w.sh.slot, e))))
  {
    hide Newer, Normal, Offers, IsDevelopmentBuild, Usable, Clean, Attested, PackagePath;
    hide P.Inv;
    var sh := w.sh.(slot := P.Step(w.sh.slot, e));
    P.StepKeepsInv(w.sh.slot, e);
    ControlStays(w, sh, w.synced);
    FetchKept(sha, w.sh, sh, w.ops, w.ops);
  }

  // ----- crash and restart --------------------------------------------------------------

  lemma FilesOfShared(sha: Bytes -> string, seen: set<Manifest>, synced: bool, sh: Shared)
    requires SharedOk(sha, seen, synced, sh)
    ensures FilesOk(sha, sh.directory, seen, sh.files)
  {
  }

  /** Nobody is at work just after a launch, and a package found ready is announced as the newest. */
  lemma BootControl(session: Session, directory: string, files: Files, readable: bool, found: bool, removed: bool,
                    wr: Write)
    ensures var sh := Boot(session, directory, files, readable, found, removed, wr);
            && !sh.busy && sh.cancel == None && sh.session == session && sh.directory == directory
            && (sh.state.phase == PhaseIdle ||
                (sh.state.phase == PhaseReady && sh.memory.readyPath != "" && sh.state.latestVersion == sh.memory.readyVersion))
  {
    hide Newer, IsDevelopmentBuild;
  }

  lemma RestartControl(w: World, session: Session, readable: bool, found: bool, removed: bool, wr: Write)
    requires Control(w)
    ensures Located(session.location) ==> Control(DoRestart(w, session, readable, found, removed, wr))
  {
    hide Newer, IsDevelopmentBuild, Located, Boot;
    BootControl(session, w.sh.directory, w.sh.files, readable, found, removed, wr);
  }

  lemma RestartKeepsInv(sha: Bytes -> string, w: World, session: Session, readable: bool, found: bool, removed: bool,
                        wr: Write)
    requires Inv(sha, w)
    ensures Inv(sha, DoRestart(w, session, readable, found, removed, wr))
  {
    hide Newer, Normal, Offers, IsDevelopmentBuild, Usable, Clean, Attested, PackagePath;
    hide SharedOk, Located, Boot, Control;
    if Located(session.location) {
      FilesOfShared(sha, w.seen, w.synced, w.sh);
      BootControl(session, w.sh.directory, w.sh.files, readable, found, removed, wr);
      BootKeeps(sha, w.seen, session, w.sh.directory, w.sh.files, readable, found, removed, wr);
      RestartControl(w, session, readable, found, removed, wr);
    }
  }

  lemma LaunchInv(sha: Bytes -> string, directory: string, session: Session)
    requires Located(session.location)
    ensures Inv(sha, Launch(directory, session))
  {
    hide Newer, Normal, Offers, IsDevelopmentBuild, Usable, Clean, Attested, PackagePath;
    BootKeeps(sha, {}, session, directory, map[], true, true, true, NotWritten);
  }

  /** Whatever happens next, the invariant holds after it. */
  lemma StepKeepsInv(sha: Bytes -> string, w: World, a: Action)
    requires Inv(sha, w)
    ensures Inv(sha, Step(sha, w, a))
  {
    hide Inv, DoStartCheck, DoPlan, DoAnswer, DoNoAnswer, DoFinishCheck, DoBeginDownload, DoSweep, DoNextMirror;
    hide DoFile, DoReport, DoFinishDownload, DoRelease, DoStartInstall, DoStartQuit, DoInstalled, DoNotInstalled;
    hide DoCallCancel, DoRestart, SkipVersion, P.Step;
    match a
    case StartCheck(manual, policy) => StartCheckKeepsInv(sha, w, manual, policy);
    case MakePlan(id, recent) => PlanKeepsInv(sha, w, id, recent);
    case Answer(id, fetched, now, wr) => AnswerKeepsInv(sha, w, id, fetched, now, wr);
    case NoAnswer(id, message, now, wr, policy) => NoAnswerKeepsInv(sha, w, id, message, now, wr, policy);
    case FinishCheck(id, now, wr, policy, auto) => FinishCheckKeepsInv(sha, w, id, now, wr, policy, auto);
    case StartDownload => StartDownloadKeepsInv(sha, w);
    case BeginDownload(id, message, policy) => BeginDownloadKeepsInv(sha, w, id, message, policy);
    case Sweep(id, name) => SweepKeepsInv(sha, w, id, name);
    case NextMirror(id, policy) => NextMirrorKeepsInv(sha, w, id, policy);
    case FileStep(id, e) => FileKeepsInv(sha, w, id, e);
    case Report(id, total, policy) => ReportKeepsInv(sha, w, id, total, policy);
    case FinishDownload(id, message, wr, policy) => FinishDownloadKeepsInv(sha, w, id, message, wr, policy);
    case ReleaseDownload(id) => ReleaseKeepsInv(sha, w, id);
    case StartInstall(policy) => StartInstallKeepsInv(sha, w, policy);
    case StartQuit(policy) => StartQuitKeepsInv(sha, w, policy);
    case Installed(id, removed, wr) => InstalledKeepsInv(sha, w, id, removed, wr);
    case NotInstalled(id, message, policy) => NotInstalledKeepsInv(sha, w, id, message, policy);
    case Skip(version, wr, policy) => SkipKeepsInv(sha, w, version, wr, policy);
    case ReadCancel => if w.sh.cancel.Some? { ReadCancelKeepsInv(sha, w); }
    case CallCancel(id) => CallCancelKeepsInv(sha, w, id);
    case Pump(e) => if !e.Publish? { PumpKeepsInv(sha, w, e); }
    case Restart(session, readable, found, removed, wr) => RestartKeepsInv(sha, w, session, readable, found, removed, wr);
  }

  lemma ControlOf(sha: Bytes -> string, w: World)
    requires Inv(sha, w)
    ensures Control(w)
  {
    hide Control, SharedOk, OpsOk, FetchOk;
  }

  /** Every reachable state, over any number of sessions, satisfies the invariant. */
  lemma {:induction false} ReachableInv(sha: Bytes -> string, directory: string, session: Session, actions: seq<Action>)
    requires Located(session.location)
    ensures Inv(sha, Exec(sha, directory, session, actions))
    decreases |actions|
  {
    hide Inv, Launch, Step;
    if actions == [] {
      LaunchInv(sha, directory, session);
    } else {
      ReachableInv(sha, directory, session, actions[..|actions| - 1]);
      StepKeepsInv(sha, Exec(sha, directory, session, actions[..|actions| - 1]), actions[|actions| - 1]);
    }
  }
}
