/**
 * What each step of a call does, in the user's terms: when a call gets anywhere, what the state and the
 * memory say afterwards, and what they go on saying.
 */
module Effects {
  import opened Text
  import opened Versions
  import opened Mirrors
  import opened Target
  import opened Disk
  import opened Checking
  import opened Sections
  import opened Lifecycle
  import opened Invariants
  import opened Steps
  import opened Listener
  import opened Completion
  import R = Race
  import D = Download
  import P = Publisher

  /** The state says nothing new about any release. */
  predicate SameOffer(s: State, s': State) {
    s'.latestVersion == s.latestVersion && s'.notes == s.notes && s'.publishedAt == s.publishedAt
  }

  /** Everything in the memory but what was downloaded. */
  predicate SameHistory(m: Memory, m': Memory) {
    && m'.skipped == m.skipped && m'.checkedAt == m.checkedAt && m'.preferredMirror == m.preferredMirror
    && m'.mirrorMeasured == m.mirrorMeasured && m'.learnedMirrors == m.learnedMirrors
  }

  predicate SamePackage(m: Memory, m': Memory) {
    m'.readyPath == m.readyPath && m'.readyVersion == m.readyVersion
  }

  predicate Reports(s: State, step: FailedStep, message: string) {
    s.phase == PhaseError && s.failedStep == step && s.error == message
  }

  predicate NoError(s: State) { s.error == "" && s.failedStep == StepNone }

  predicate MayInstall(l: Location) { l.blocker == NoBlocker }

  /** A publish says the state as it is, with the policy of the moment, once, and only to a listener. */
  lemma PublishMeans(sh: Shared, policy: Policy)
    ensures var sh' := Publish(sh, policy);
            && sh'.state == sh.state && sh'.memory == sh.memory && sh'.files == sh.files
            && (!sh.session.emits ==> sh' == sh)
            && (sh.session.emits ==>
                  && |sh'.slot.history| == |sh.slot.history| + 1 && sh.slot.history <= sh'.slot.history
                  && var last := sh'.slot.history[|sh.slot.history|];
                     last.policy == policy && Bare(last) == Bare(sh.state) && sh'.slot.notify && sh'.slot.pending == Some(last))
  {
  }

  /** A launch says who it is and what it remembers, and has nothing going on. */
  lemma LaunchMeans(session: Session, directory: string, files: Files, readable: bool, found: bool, removed: bool, wr: Write)
    ensures var sh := Boot(session, directory, files, readable, found, removed, wr);
            var s, m := sh.state, if readable then ReadMemory(files, directory) else NO_MEMORY;
            && s.currentVersion == session.version && (s.development <==> Parse(session.version).None?)
            && s.location == session.location && s.downloaded == 0 && s.total == -1 && NoError(s)
            && s.notes == "" && s.publishedAt == "" && s.outcome.None?
            && s.checkedAt == m.checkedAt && s.skipped == m.skipped && SameHistory(m, sh.memory)
            && (s.phase == PhaseReady || (s.phase == PhaseIdle && s.latestVersion == ""))
            && !sh.busy && sh.cancel == None && sh.slot.history == []
            && (s.phase != PhaseReady && m.readyPath != "" && m.readyPath != MemoryPath(directory) && removed ==>
                  m.readyPath !in sh.files)
  {
    hide Newer, Parse, MemoryPath;
  }

  // ----- Check --------------------------------------------------------------------------

  /** A check begins exactly for a release build with busy free; otherwise nothing happens. */
  lemma CheckStarts(sha: Bytes -> string, w: World, manual: bool, policy: Policy)
    requires Inv(sha, w)
    ensures var w' := Step(sha, w, StartCheck(manual, policy));
            && (w.next in w'.ops <==> Parse(w.sh.session.version).Some? && !w.sh.busy)
            && (w.next !in w'.ops ==> w' == w)
            && (w.next in w'.ops ==>
                  && w'.ops == w.ops[w.next := CheckPlan(manual)] && w'.sh.busy
                  && w'.sh.state.phase == PhaseChecking && NoError(w'.sh.state)
                  && SameOffer(w.sh.state, w'.sh.state) && w'.sh.memory == w.sh.memory && Told(w'.sh))
  {
    hide Inv, Step, Parse;
    AreNumbered(sha, w);
    CheckStepIs(sha, w, StartCheck(manual, policy));
    assert w.next !in w.ops;
  }

  /** The lists a call asks, and which mirror it asks alone first. */
  predicate Asks(sh: Shared, lists: seq<seq<Mirror>>, recent: bool) {
    && 1 <= |lists| <= 2
    && var all := lists[|lists| - 1];
       && BootstrapMirrors() <= all
       && (|lists| == 2 ==>
             |lists[0]| == 1 && lists[0][0] in all && lists[0][0].name == sh.memory.preferredMirror)
       && (|lists| == 2 <==>
             && recent && sh.memory.preferredMirror != "" && |all| >= 2
             && exists m :: m in all && m.name == sh.memory.preferredMirror)
  }

  /** The remembered winner is tried alone first exactly when it is recent, known and not the only one. */
  lemma PlanAsks(sha: Bytes -> string, w: World, id: nat, recent: bool)
    requires id in w.ops && (w.ops[id].CheckPlan? || w.ops[id].PrePlan?)
    ensures var w' := Step(sha, w, MakePlan(id, recent));
            && w'.sh == w.sh && id in w'.ops && w'.ops - {id} == w.ops - {id}
            && (w.ops[id].CheckPlan? ==> w'.ops[id].CheckAsk? && w'.ops[id].manual == w.ops[id].manual)
            && (w.ops[id].PrePlan? ==> w'.ops[id].PreAsk?)
            && Asks(w.sh, w'.ops[id].lists, recent)
  {
    hide Step;
    CheckStepIs(sha, w, MakePlan(id, recent));
    PlanIsAsked(w.sh, recent);
    hide PlanMirrors, Asks;
  }

  lemma PlanIsAsked(sh: Shared, recent: bool)
    ensures var (mirrors, preferred) := PlanMirrors(sh, recent);
            Asks(sh, if preferred.Some? then [[preferred.value], mirrors] else [mirrors], recent)
  {
    hide Merge, BootstrapMirrors;
    var mirrors := Plan(sh.memory.learnedMirrors);
    BootstrapLeads(sh.memory.learnedMirrors);
    var found := FindMirror(mirrors, sh.memory.preferredMirror);
    if m :| m in mirrors && m.name == sh.memory.preferredMirror { assert m.name in Names(mirrors); }
  }

  lemma BootstrapLeads(learned: seq<Mirror>)
    ensures BootstrapMirrors() <= Plan(learned)
  {
    BootstrapIsClean();
    MergeKeepsKnown(BootstrapMirrors(), learned);
  }

  /** What is remembered of an answer: who gave it and when, and every usable mirror it names. */
  ghost predicate Remembers(m: Memory, m': Memory, fetched: R.Fetched, now: string) {
    && m'.preferredMirror == fetched.mirror.name && m'.mirrorMeasured == now
    && m'.skipped == m.skipped && m'.checkedAt == m.checkedAt && SamePackage(m, m')
    && (forall x :: x in fetched.manifest.mirrors && x.Valid() ==> x.name in Names(m'.learnedMirrors))
    && (fetched.manifest.mirrors == [] ==> m'.learnedMirrors == m.learnedMirrors)
  }

  lemma RememberMeans(sh: Shared, r: Release, fetched: R.Fetched, now: string, wr: Write)
    requires r.manifest == fetched.manifest && r.mirror == fetched.mirror && r.mirror.name != ""
    ensures var sh' := Remember(sh, r, now, wr);
            && Remembers(sh.memory, sh'.memory, fetched, now) && sh'.state == sh.state && sh'.busy == sh.busy
  {
    MergeKnowsLearned(sh.memory.learnedMirrors, fetched.manifest.mirrors);
    hide Merge, Names, MemoryPath;
  }

  /**
   * An answer is remembered; a check goes on to tell it, and a Download that asked goes on exactly when the
   * release is newer.
   */
  lemma AnswerIsRemembered(sha: Bytes -> string, w: World, id: nat, fetched: R.Fetched, now: string, wr: Write)
    requires Inv(sha, w) && id in w.ops && (w.ops[id].CheckAsk? || w.ops[id].PreAsk?)
    requires Answers(w.ops[id].lists, fetched) && Conclude(w.sh.session.version, fetched).Some?
    ensures var r, w' := Conclude(w.sh.session.version, fetched).value, Step(sha, w, Answer(id, fetched, now, wr));
            && w'.sh.state == w.sh.state && w'.sh.busy == w.sh.busy && fetched.manifest in w'.seen
            && Remembers(w.sh.memory, w'.sh.memory, fetched, now) && w'.ops - {id} == w.ops - {id}
            && (w.ops[id].CheckAsk? ==> id in w'.ops && w'.ops[id] == CheckTold(w.ops[id].manual, r))
            && (w.ops[id].PreAsk? ==>
                  && (id in w'.ops <==> r.status == Available) && (id in w'.ops ==> w'.ops[id] == Pending(r)))
  {
    hide Inv, Step, Conclude, Answers, Remembers, Remember, DoAnswer;
    AnswerComesFromValid(sha, w, id, fetched);
    ConcludeKeeps(w.sh.session.version, fetched);
    RememberMeans(w.sh, Conclude(w.sh.session.version, fetched).value, fetched, now, wr);
    CheckStepIs(sha, w, Answer(id, fetched, now, wr));
    AnsweredOps(w, id, fetched, now, wr);
  }

  lemma AnsweredOps(w: World, id: nat, fetched: R.Fetched, now: string, wr: Write)
    requires id in w.ops && (w.ops[id].CheckAsk? || w.ops[id].PreAsk?)
    requires Answers(w.ops[id].lists, fetched) && Conclude(w.sh.session.version, fetched).Some?
    ensures var r, w' := Conclude(w.sh.session.version, fetched).value, DoAnswer(w, id, fetched, now, wr);
            && w'.sh == Remember(w.sh, r, now, wr) && w'.seen == w.seen + {r.manifest} && w'.ops - {id} == w.ops - {id}
            && (w.ops[id].CheckAsk? ==> id in w'.ops && w'.ops[id] == CheckTold(w.ops[id].manual, r))
            && (w.ops[id].PreAsk? ==>
                  && (id in w'.ops <==> r.status == Available) && (id in w'.ops ==> w'.ops[id] == Pending(r)))
  {
    hide Conclude, Answers, Remember;
  }

  lemma AnswerComesFromValid(sha: Bytes -> string, w: World, id: nat, fetched: R.Fetched)
    requires Inv(sha, w) && id in w.ops && (w.ops[id].CheckAsk? || w.ops[id].PreAsk?)
    requires Answers(w.ops[id].lists, fetched) && Conclude(w.sh.session.version, fetched).Some?
    ensures fetched.mirror.name != ""
  {
    hide Inv, Conclude, Usable, Clean;
    CallIsOk(sha, w, id);
    var lists := w.ops[id].lists;
    var k :| 0 <= k < |lists| && R.CanWin(lists[k], fetched);
    assert Clean(lists[k]);
    MirrorsHaveNames(lists[k]);
  }

  lemma MirrorsHaveNames(ms: seq<Mirror>)
    requires Clean(ms)
    ensures forall m :: m in ms ==> m.name != ""
  {
  }

  lemma CallIsOk(sha: Bytes -> string, w: World, id: nat)
    requires Inv(sha, w) && id in w.ops
    ensures OpOk(w.sh.session, w.sh.directory, w.seen, w.ops[id])
  {
    hide Control, SharedOk, FetchOk, OpOk;
  }

  lemma ConcludeKeeps(version: string, fetched: R.Fetched)
    requires Conclude(version, fetched).Some?
    ensures var r := Conclude(version, fetched).value;
            r.manifest == fetched.manifest && r.mirror == fetched.mirror && r.order == fetched.order
  {
    hide Parse, Compare, TrimSpace;
  }

  /** No usable mirror a manifest names is unknown after it is learned. */
  lemma MergeKnowsLearned(known: seq<Mirror>, learned: seq<Mirror>)
    ensures forall x :: x in learned && x.Valid() ==> x.name in Names(Merge(known, learned))
  {
    forall x | x in learned && x.Valid() ensures x.name in Names(Merge(known, learned)) {
      DistinctKnows(known + learned, {}, x);
    }
  }

  lemma {:induction false} DistinctKnows(ms: seq<Mirror>, seen: set<string>, x: Mirror)
    requires x in ms && x.Valid() && x.name !in seen
    ensures x.name in Names(Distinct(ms, seen))
    decreases |ms|
  {
    var d := Distinct(ms, seen);
    if ms[0].Valid() && ms[0].name !in seen {
      var rest := Distinct(ms[1..], seen + {ms[0].name});
      assert d == [ms[0]] + rest;
      NamesCons(ms[0], rest);
      if x.name != ms[0].name { DistinctKnows(ms[1..], seen + {ms[0].name}, x); }
    } else {
      DistinctKnows(ms[1..], seen, x);
    }
  }

  /**
   * How a check ends: offering the release exactly when it is newer, and with nothing on offer otherwise. A
   * manual check, and nothing else, takes the release off the skip list.
   */
  predicate Concludes(sh: Shared, sh': Shared, r: Release, manual: bool, now: string) {
    var s, m, m' := sh'.state, sh.memory, sh'.memory;
    && (r.status == Available ==>
          && s.phase == PhaseAvailable && s.latestVersion == r.latestVersion
          && s.notes == r.notes && s.publishedAt == r.publishedAt)
    && (r.status != Available ==>
          s.phase == PhaseIdle && s.latestVersion == "" && s.notes == "" && s.publishedAt == "")
    && s.outcome == Some(r.status) && s.releaseURL == r.releaseURL
    && s.checkedAt == now && m'.checkedAt == now && !sh'.busy && sh'.session == sh.session && Told(sh')
    && s.skipped == m'.skipped && SamePackage(m, m')
    && (r.status == Available && m.skipped == r.latestVersion ==> (m'.skipped == r.latestVersion <==> !manual))
    && (r.status != Available || m.skipped != r.latestVersion ==> m'.skipped == m.skipped)
  }

  /** A download follows a check by itself exactly when this holds of what the check leaves. */
  predicate Follows(sh': Shared, r: Release, auto: Policy) {
    && r.status == Available && (auto == PolicyDownload || auto == PolicyAuto)
    && MayInstall(sh'.session.location) && sh'.memory.skipped != r.latestVersion
  }

  lemma CheckEnds(sha: Bytes -> string, w: World, id: nat, now: string, wr: Write, policy: Policy, auto: Policy)
    requires Inv(sha, w) && id in w.ops && w.ops[id].CheckTold?
    ensures var r, w' := w.ops[id].release, Step(sha, w, FinishCheck(id, now, wr, policy, auto));
            && Concludes(w.sh, w'.sh, r, w.ops[id].manual, now)
            && (w.next in w'.ops <==> Follows(w'.sh, r, auto))
            && (w.next in w'.ops ==> w'.ops[w.next] == Pending(r))
            && w'.ops - {w.next} == w.ops - {id}
  {
    hide Inv, Control, Step, Concludes, Follows, CheckDone, AutoDownload;
    AreNumbered(sha, w);
    ControlOf(sha, w);
    OwnerIs(w, id);
    VersionIsSomething(sha, w, id);
    SkippedAlike(sha, w);
    var r, manual := w.ops[id].release, w.ops[id].manual;
    var sh' := CheckDone(w.sh, r, manual, now, wr, policy);
    CheckDoneMeans(w.sh, r, manual, now, wr, policy);
    FollowsExactly(w.sh, sh', r, manual, now, auto);
    CheckStepIs(sha, w, FinishCheck(id, now, wr, policy, auto));
    FinishedOps(w, id, now, wr, policy, auto);
  }

  lemma FinishedOps(w: World, id: nat, now: string, wr: Write, policy: Policy, auto: Policy)
    requires id in w.ops && w.ops[id].CheckTold? && w.next !in w.ops
    ensures var r, w' := w.ops[id].release, DoFinishCheck(w, id, now, wr, policy, auto);
            var sh' := CheckDone(w.sh, r, w.ops[id].manual, now, wr, policy);
            && w'.sh == sh' && (w.next in w'.ops <==> AutoDownload(sh', r, auto))
            && (w.next in w'.ops ==> w'.ops[w.next] == Pending(r)) && w'.ops - {w.next} == w.ops - {id}
  {
    hide CheckDone, AutoDownload;
  }

  lemma FollowsExactly(sh: Shared, sh': Shared, r: Release, manual: bool, now: string, auto: Policy)
    requires Concludes(sh, sh', r, manual, now)
    ensures AutoDownload(sh', r, auto) <==> Follows(sh', r, auto)
  {
  }

  lemma VersionIsSomething(sha: Bytes -> string, w: World, id: nat)
    requires Inv(sha, w) && id in w.ops && w.ops[id].CheckTold?
    ensures w.ops[id].release.latestVersion != ""
  {
    hide Control, SharedOk, FetchOk;
    var r := w.ops[id].release;
    assert OpOk(w.sh.session, w.sh.directory, w.seen, w.ops[id]);
    ParsedShape(r.latestVersion);
    assert |Normalize(Parse(r.latestVersion).value.parts)| > 0;
  }

  lemma SkippedAlike(sha: Bytes -> string, w: World)
    requires Inv(sha, w)
    ensures w.sh.state.skipped == w.sh.memory.skipped
  {
    hide Control, OpsOk, FetchOk, FilesOk, SlotOk, OnDisk, Newer;
  }

  lemma CheckDoneMeans(sh: Shared, r: Release, manual: bool, now: string, wr: Write, policy: Policy)
    requires sh.state.phase != PhaseReady && sh.state.skipped == sh.memory.skipped && r.latestVersion != ""
    ensures Concludes(sh, CheckDone(sh, r, manual, now, wr, policy), r, manual, now)
  {
    hide MemoryPath;
  }

  /** A check that gets no answer is dated and reported, and a Download that gets none is reported. */
  lemma NoAnswerMeans(sha: Bytes -> string, w: World, id: nat, message: string, now: string, wr: Write, policy: Policy)
    requires id in w.ops && (w.ops[id].CheckAsk? || w.ops[id].PreAsk?)
    ensures var w' := Step(sha, w, NoAnswer(id, message, now, wr, policy));
            && w'.ops == w.ops - {id} && SameOffer(w.sh.state, w'.sh.state) && SamePackage(w.sh.memory, w'.sh.memory)
            && w'.sh.memory.skipped == w.sh.memory.skipped && Told(w'.sh)
            && (w.ops[id].CheckAsk? ==>
                  && Reports(w'.sh.state, StepCheck, message) && !w'.sh.busy
                  && w'.sh.state.checkedAt == now && w'.sh.memory.checkedAt == now)
            && (w.ops[id].PreAsk? ==>
                  && Reports(w'.sh.state, StepDownload, message) && w'.sh.busy == w.sh.busy
                  && w'.sh.memory == w.sh.memory && w'.sh.files == w.sh.files)
  {
    hide Step, MemoryPath;
    CheckStepIs(sha, w, NoAnswer(id, message, now, wr, policy));
  }

  // ----- Download -----------------------------------------------------------------------

  /** The first busy section of a download: at work on this release, refused, or nothing. */
  ghost predicate Begins(sh: Shared, sh': Shared, r: Release, id: nat, message: string) {
    var s := sh'.state;
    && sh'.memory == sh.memory && sh'.files == sh.files
    && (!sh.busy && MayInstall(sh.session.location) ==>
          && sh'.busy && sh'.cancel == Some(id) && s.phase == PhaseDownloading && s.latestVersion == r.latestVersion
          && s.notes == r.notes && s.publishedAt == r.publishedAt && s.downloaded == 0 && s.total == -1
          && NoError(s) && Told(sh'))
    && (sh.busy ==> sh' == sh)
    && (!sh.busy && !MayInstall(sh.session.location) ==>
          Reports(s, StepDownload, message) && !sh'.busy && SameOffer(sh.state, s) && Told(sh'))
  }

  lemma DownloadBegins(sh: Shared, r: Release, id: nat, message: string, policy: Policy)
    ensures var (sh', e) := DownloadBegin(sh, r, id, message, policy);
            Begins(sh, sh', r, id, message) && (e == Entered <==> !sh.busy && MayInstall(sh.session.location))
  {
  }

  /** A download gets to work exactly with busy free and where it may install; it starts the bar from nothing. */
  lemma DownloadStarts(sha: Bytes -> string, w: World, id: nat, message: string, policy: Policy)
    requires id in w.ops && w.ops[id].Pending?
    ensures var r, w' := w.ops[id].release, Step(sha, w, BeginDownload(id, message, policy));
            && Begins(w.sh, w'.sh, r, id, message) && w'.ops - {id} == w.ops - {id}
            && (id in w'.ops <==> !w.sh.busy && MayInstall(w.sh.session.location))
            && (id in w'.ops ==> w'.ops[id].Fetching? && w'.ops[id].release == r)
            && (id in w'.ops ==>
                  (w'.ops[id].at.Unlisted? <==>
                   w.sh.session.location.target.PackageName(r.latestVersion) !in r.manifest.files))
  {
    hide Step, Begins, DownloadBegin;
    DownloadBegins(w.sh, w.ops[id].release, id, message, policy);
    FetchStepIs(sha, w, BeginDownload(id, message, policy));
  }

  /** Each attempt names its mirror and starts the bar from nothing. */
  lemma AttemptStarts(sha: Bytes -> string, w: World, id: nat, policy: Policy)
    ensures var w' := Step(sha, w, NextMirror(id, policy));
            w' == w ||
            (&& id in w.ops && w.ops[id].Fetching? && w.ops[id].rest != []
             && w'.sh.state.mirror == w.ops[id].rest[0].name && w'.sh.state.downloaded == 0 && w'.sh.state.total == -1
             && w'.sh.state.phase == w.sh.state.phase && SameOffer(w.sh.state, w'.sh.state)
             && w'.sh.memory == w.sh.memory && w'.sh.files == w.sh.files && Told(w'.sh))
  {
    hide Step;
    FetchStepIs(sha, w, NextMirror(id, policy));
  }

  lemma PartIsOk(sha: Bytes -> string, w: World, id: nat)
    requires Inv(sha, w) && IsAt(w, id, false)
    ensures D.PartOk(sha, DestOf(w.sh, w.ops[id].release), WantOf(w.sh, w.ops[id].release), w.sh.files, w.ops[id].at.pc)
  {
    hide Control, SharedOk, OpsOk;
  }

  /** What a report shows is what is on the disk. */
  lemma ProgressIsOnDisk(sha: Bytes -> string, w: World, id: nat, total: int, policy: Policy)
    requires Inv(sha, w) && IsAt(w, id, false) && w.ops[id].at.pc.Copying?
    ensures var w' := Step(sha, w, Report(id, total, policy));
            var part := D.Partial(DestOf(w.sh, w.ops[id].release));
            && part in w'.sh.files && w'.sh.files[part].Data?
            && w'.sh.state.downloaded == |w'.sh.files[part].bytes| && w'.sh.state.total == total
            && w'.sh.state.phase == w.sh.state.phase && w'.ops == w.ops && Told(w'.sh)
  {
    hide Inv, Step;
    PartIsOk(sha, w, id);
    OtherStepIs(sha, w, Report(id, total, policy));
  }

  /** How a download ends: ready and remembered, quietly back on offer, or with an error. */
  ghost predicate Closes(sh: Shared, sh': Shared, r: Release, ending: Ending) {
    var s, m, m' := sh'.state, sh.memory, sh'.memory;
    && SameHistory(m, m') && SameOffer(sh.state, s) && sh'.busy == sh.busy && Told(sh')
    && match ending
       case Fetched(path) => s.phase == PhaseReady && m'.readyVersion == r.latestVersion && m'.readyPath == path
       case Cancelled =>
         && s.phase == PhaseAvailable && s.downloaded == 0 && s.total == -1 && s.failedStep == sh.state.failedStep
         && m' == m && sh'.files == sh.files
       case Broken(message) => Reports(s, StepDownload, message) && m' == m && sh'.files == sh.files
  }

  lemma FinishCloses(sh: Shared, r: Release, ending: Ending, wr: Write, policy: Policy)
    ensures Closes(sh, DownloadFinish(sh, r, ending, wr, policy), r, ending)
  {
    hide MemoryPath;
  }

  lemma DownloadEnds(sha: Bytes -> string, w: World, id: nat, message: string, wr: Write, policy: Policy)
    requires id in w.ops && w.ops[id].Fetching?
    ensures var op, w' := w.ops[id], Step(sha, w, FinishDownload(id, message, wr, policy));
            && (op.at.Trying? && op.at.pc.Renamed? ==>
                  w'.ops == w.ops[id := Closing] && Closes(w.sh, w'.sh, op.release, Fetched(DestOf(w.sh, op.release))))
            && (op.at.Trying? && op.at.pc == D.Failed(D.Cancelled) ==>
                  w'.ops == w.ops[id := Closing] && Closes(w.sh, w'.sh, op.release, Ending.Cancelled))
            && (op.at.Unlisted? || (op.at.Trying? && op.at.pc.Failed? && op.at.pc.reason != D.Cancelled && op.rest == []) ==>
                  w'.ops == w.ops[id := Closing] && Closes(w.sh, w'.sh, op.release, Broken(message)))
            && (op.at.Sweeping? || (op.at.Trying? && !op.at.pc.Renamed? && !op.at.pc.Failed?) ==> w' == w)
  {
    var op := w.ops[id];
    FinishCloses(w.sh, op.release, Fetched(DestOf(w.sh, op.release)), wr, policy);
    FinishCloses(w.sh, op.release, Ending.Cancelled, wr, policy);
    FinishCloses(w.sh, op.release, Broken(message), wr, policy);
    hide Step, Closes, DownloadFinish;
    FetchStepIs(sha, w, FinishDownload(id, message, wr, policy));
  }

  lemma CancelIsSet(w: World, id: nat)
    requires Control(w) && id in w.ops && (w.ops[id].Fetching? || w.ops[id].Closing?)
    ensures w.sh.cancel == Some(id)
  {
    hide PhaseOk;
  }

  /** A Cancel during a download has a function to call, and calling it cancels that download. */
  lemma CancelReaches(sha: Bytes -> string, w: World, id: nat)
    requires Inv(sha, w) && id in w.ops && (w.ops[id].Fetching? || w.ops[id].Closing?)
    ensures var w' := Step(sha, w, ReadCancel);
            && w'.ops == w.ops[w.next := Cancelling(id)] && w'.sh == w.sh
            && var w'' := Step(sha, w', CallCancel(w.next));
               w''.ops == w.ops && w''.sh == w.sh && w''.cancelled == w.cancelled + {id}
  {
    hide Inv, Control, Step;
    AreNumbered(sha, w);
    ControlOf(sha, w);
    CancelIsSet(w, id);
    OtherStepIs(sha, w, ReadCancel);
    InstallStepIs(sha, Step(sha, w, ReadCancel), CallCancel(w.next));
    assert w.next !in w.ops;
  }

  // ----- Install, InstallOnQuit, Skip ---------------------------------------------------

  /** Install begins exactly with a package ready, whoever owns busy. */
  lemma InstallStarts(sha: Bytes -> string, w: World, policy: Policy)
    requires Inv(sha, w)
    ensures var w', m := Step(sha, w, StartInstall(policy)), w.sh.memory;
            && (w.next in w'.ops <==> w.sh.state.phase == PhaseReady && m.readyPath != "")
            && (w.next !in w'.ops ==> w' == w)
            && (w.next in w'.ops ==>
                  && w'.ops == w.ops[w.next := Installing(m.readyPath, m.readyVersion)]
                  && w'.sh.state.phase == PhaseInstalling && SameOffer(w.sh.state, w'.sh.state)
                  && w'.sh.memory == m && w'.sh.files == w.sh.files && w'.sh.busy == w.sh.busy && Told(w'.sh))
  {
    hide Inv, Step;
    AreNumbered(sha, w);
    InstallStepIs(sha, w, StartInstall(policy));
    assert w.next !in w.ops;
  }

  /** On quitting a package is installed exactly when one is ready and the policy is the automatic one. */
  lemma QuitStarts(sha: Bytes -> string, w: World, policy: Policy)
    requires Inv(sha, w)
    ensures var w', m := Step(sha, w, StartQuit(policy)), w.sh.memory;
            && w'.sh == w.sh
            && (w.next in w'.ops <==> w.sh.state.phase == PhaseReady && m.readyPath != "" && policy == PolicyAuto)
            && w'.ops == if w.next in w'.ops then w.ops[w.next := Quitting(m.readyPath, m.readyVersion)] else w.ops
  {
    hide Inv, Step;
    AreNumbered(sha, w);
    OtherStepIs(sha, w, StartQuit(policy));
    assert w.next !in w.ops;
  }

  lemma MemoryIsFine(sha: Bytes -> string, w: World)
    requires Inv(sha, w)
    ensures MemoryOk(w.sh.directory, w.sh.memory)
  {
    hide Control, OpsOk, FetchOk, FilesOk, SlotOk, OnDisk, MemoryOk, Newer;
  }

  /** After an install the package is forgotten and the rest of the memory kept. */
  lemma InstalledMeans(sha: Bytes -> string, w: World, id: nat, removed: bool, wr: Write)
    requires Inv(sha, w) && id in w.ops && (w.ops[id].Installing? || w.ops[id].Quitting?)
    ensures var w' := Step(sha, w, Installed(id, removed, wr));
            && w'.ops == w.ops - {id} && w'.sh.state.phase == PhaseIdle && w'.sh.memory.readyPath == ""
            && w'.sh.memory.readyVersion == "" && SameHistory(w.sh.memory, w'.sh.memory)
            && w'.sh.busy == w.sh.busy && SameOffer(w.sh.state, w'.sh.state)
            && (removed ==> w.sh.memory.readyPath !in w'.sh.files)
            && (!removed && w.sh.memory.readyPath in w.sh.files ==> w.sh.memory.readyPath in w'.sh.files)
  {
    hide Inv, Step, MemoryPath, MemoryOk;
    MemoryIsFine(sha, w);
    ReadyPathIsApart(w.sh);
    InstallStepIs(sha, w, Installed(id, removed, wr));
  }

  /** A failed Install is an error over a package kept; a failed one on quitting changes nothing. */
  lemma NotInstalledMeans(sha: Bytes -> string, w: World, id: nat, message: string, policy: Policy)
    requires id in w.ops && (w.ops[id].Installing? || w.ops[id].Quitting?)
    ensures var w' := Step(sha, w, NotInstalled(id, message, policy));
            && w'.ops == w.ops - {id} && w'.sh.memory == w.sh.memory && w'.sh.files == w.sh.files
            && SameOffer(w.sh.state, w'.sh.state) && w'.sh.busy == w.sh.busy
            && (w.ops[id].Installing? ==> Reports(w'.sh.state, StepInstall, message) && Told(w'.sh))
            && (w.ops[id].Quitting? ==> w'.sh == w.sh)
  {
    hide Step;
    InstallStepIs(sha, w, NotInstalled(id, message, policy));
  }

  /** The version given is the one skipped, in the state, in the memory and, once written, on the disk. */
  lemma SkipMeans(sha: Bytes -> string, w: World, version: string, wr: Write, policy: Policy)
    ensures var w' := Step(sha, w, Skip(version, wr, policy));
            var p := MemoryPath(w.sh.directory);
            && w'.ops == w.ops && w'.sh.state.skipped == version && w'.sh.memory.skipped == version
            && SamePackage(w.sh.memory, w'.sh.memory) && SameOffer(w.sh.state, w'.sh.state)
            && w'.sh.state.phase == w.sh.state.phase && w'.sh.memory.checkedAt == w.sh.memory.checkedAt
            && w'.sh.memory.learnedMirrors == w.sh.memory.learnedMirrors && Told(w'.sh)
            && (wr == Wrote ==> p in w'.sh.files && w'.sh.files[p] == Memo(w'.sh.memory))
  {
    hide Step, MemoryPath;
    OtherStepIs(sha, w, Skip(version, wr, policy));
  }

  /** One entry of the directory is swept: any but the package that is coming and the memory. */
  lemma SweepMeans(sha: Bytes -> string, w: World, id: nat, name: string)
    requires IsAt(w, id, true)
    ensures var keep, w' := w.sh.session.location.target.PackageName(w.ops[id].release.latestVersion), Step(sha, w, Sweep(id, name));
            && (name != keep && name != "update.json" ==> w'.sh.files == Without(w.sh.files, Join(w.sh.directory, name)))
            && (name == keep || name == "update.json" ==> w' == w)
            && w'.sh.state == w.sh.state && w'.sh.memory == w.sh.memory
  {
    hide Step;
    OtherStepIs(sha, w, Sweep(id, name));
  }

  /** A finished download gives back busy and its cancel function. */
  lemma ReleaseMeans(sha: Bytes -> string, w: World, id: nat)
    requires id in w.ops && w.ops[id].Closing?
    ensures var w' := Step(sha, w, ReleaseDownload(id));
            w'.ops == w.ops - {id} && !w'.sh.busy && w'.sh.cancel == None && w'.sh.state == w.sh.state
  {
    hide Step;
    FetchStepIs(sha, w, ReleaseDownload(id));
  }
}
