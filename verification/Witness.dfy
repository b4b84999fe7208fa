/**
 * Runs in which five things one might expect fail. A package announced as ready is not there: the same
 * release is downloaded, Install is pressed, the release is downloaded again, and the install ends between
 * that download's rename and its last section. Two installs are at work at a time. A listener is left
 * believing in an install that is over. A build for another processor is offered a package that is not its
 * own. And busy is taken in a phase that is not busy.
 */
module Witness {
  import opened Text
  import opened Versions
  import opened Mirrors
  import opened Target
  import opened Disk
  import opened Checking
  import opened Sections
  import opened Lifecycle
  import opened Invariants
  import opened Steps
  import opened Guarantees
  import opened Listener
  import opened Occupancy
  import opened OwnTarget
  import R = Race
  import D = Download

  ghost predicate Reached(sha: Bytes -> string, directory: string, session: Session, w: World) {
    exists actions :: w == Exec(sha, directory, session, actions)
  }

  lemma ReachStep(sha: Bytes -> string, directory: string, session: Session, w: World, a: Action)
    requires Reached(sha, directory, session, w)
    ensures Reached(sha, directory, session, Step(sha, w, a))
  {
    hide Step, Launch;
    var actions :| w == Exec(sha, directory, session, actions);
    assert (actions + [a])[..|actions|] == actions;
    assert Step(sha, w, a) == Exec(sha, directory, session, actions + [a]);
  }

  // ----- one release, one mirror list, one machine --------------------------------------

  function Digest(): string { seq(HEX_SHA256, i => '0') }

  function Sha(content: Bytes): string { Digest() }

  function Running(): string { Normalize([1, 0, 0]) }

  function Offered(): string { Normalize([2, 0, 0]) }

  function Machine(): Target { Target("windows", "amd64", "exe") }

  function Here(): Session { Session(Running(), Location(Installer, Machine(), Some([]), NoBlocker), false) }

  function Package(): string { Machine().PackageName(Offered()) }

  function TheManifest(): Manifest {
    Manifest(1, Offered(), "", "", "", [], map[Package() := ManifestFile("package", 0, Digest())])
  }

  function Answered(): R.Fetched { R.Fetched(TheManifest(), BootstrapMirrors()[0], BootstrapMirrors()) }

  lemma Versions12()
    ensures Parse(Running()) == Some(StableVersion(Running(), [1, 0, 0]))
    ensures Parse(Offered()) == Some(StableVersion(Offered(), [2, 0, 0]))
  {
    hide Parse, Normalize;
    PrintParse([1, 0, 0]);
    PrintParse([2, 0, 0]);
  }

  lemma CanAnswer()
    ensures R.CanWin(BootstrapMirrors(), Answered())
  {
    hide Parse, Offered, Package;
    Versions12();
    assert Package() in TheManifest().files;
  }

  lemma TheRelease() returns (r: Release)
    ensures Conclude(Running(), Answered()) == Some(r) && r.status == Available && r.latestVersion == Offered()
    ensures r.manifest == TheManifest() && r.mirror.name != "" && r.order == BootstrapMirrors()
  {
    hide Parse, Running, Offered, Package, TrimSpace;
    Versions12();
    r := Conclude(Running(), Answered()).value;
  }

  /** What all stages need and none of them changes. */
  ghost predicate Stage(w: World, directory: string) {
    w.sh.session == Here() && w.sh.directory == directory && w.sh.memory.learnedMirrors == [] && forall i :: i in w.ops ==> i < w.next
  }

  lemma PlanIsBootstrap()
    ensures Plan([]) == BootstrapMirrors()
  {
    BootstrapIsClean();
    DistinctOfClean(BootstrapMirrors(), {});
    assert BootstrapMirrors() + [] == BootstrapMirrors();
  }

  /** A zero-Result Download finds the release. */
  lemma Asks(directory: string, w: World, r: Release) returns (w': World)
    requires Reached(Sha, directory, Here(), w) && Stage(w, directory)
    requires Conclude(Running(), Answered()) == Some(r) && r.status == Available && r.manifest.mirrors == [] && r.mirror.name != ""
    requires R.CanWin(BootstrapMirrors(), Answered())
    ensures Reached(Sha, directory, Here(), w') && Stage(w', directory)
    ensures w'.ops == w.ops[w.next := Pending(r)] && w'.next == w.next + 1
    ensures w'.sh.busy == w.sh.busy && w'.sh.state == w.sh.state && w'.sh.memory.readyPath == w.sh.memory.readyPath
  {
    hide Launch, Conclude, R.CanWin, DoAnswer, Step, DoPlan, BootstrapMirrors;
    var n := w.next;
    var w2 := Requests(directory, w);
    ReachStep(Sha, directory, Here(), w2, Answer(n, Answered(), "", Wrote));
    w' := DoAnswer(w2, n, Answered(), "", Wrote);
    CheckStepIs(Sha, w2, Answer(n, Answered(), "", Wrote));
    AnswerIsPending(w2, n, r);
    assert w'.ops == w.ops[n := Pending(r)];
  }

  lemma Requests(directory: string, w: World) returns (w': World)
    requires Reached(Sha, directory, Here(), w) && Stage(w, directory)
    ensures Reached(Sha, directory, Here(), w')
    ensures w'.ops == w.ops[w.next := PreAsk([BootstrapMirrors()])] && w'.next == w.next + 1 && w'.sh == w.sh
  {
    hide Launch, BootstrapMirrors, Plan;
    var n := w.next;
    ReachStep(Sha, directory, Here(), w, StartDownload);
    var w1 := w.Add(PrePlan);
    ReachStep(Sha, directory, Here(), w1, MakePlan(n, false));
    w' := DoPlan(w1, n, false);
    PlanIsBootstrap();
  }

  lemma AnswerIsPending(w: World, n: nat, r: Release)
    requires n in w.ops && w.ops[n] == PreAsk([BootstrapMirrors()]) && w.sh.session == Here()
    requires w.sh.memory.learnedMirrors == []
    requires Conclude(Running(), Answered()) == Some(r) && r.status == Available && r.manifest.mirrors == [] && r.mirror.name != ""
    requires R.CanWin(BootstrapMirrors(), Answered())
    ensures var w' := DoAnswer(w, n, Answered(), "", Wrote);
            && w'.ops == w.ops[n := Pending(r)] && w'.next == w.next && w'.sh.session == w.sh.session
            && w'.sh.directory == w.sh.directory && w'.sh.memory.learnedMirrors == []
            && w'.sh.busy == w.sh.busy && w'.sh.state == w.sh.state && w'.sh.memory.readyPath == w.sh.memory.readyPath
  {
    hide Conclude, R.CanWin, BootstrapMirrors;
    assert [BootstrapMirrors()][0] == BootstrapMirrors();
    assert Answers([BootstrapMirrors()], Answered());
  }

  /** A Download that goes well up to its rename. */
  lemma Lands(directory: string, w: World, n: nat, r: Release) returns (w': World)
    requires Reached(Sha, directory, Here(), w) && Stage(w, directory)
    requires n in w.ops && w.ops[n] == Pending(r) && !w.sh.busy && r.order != []
    requires r.latestVersion == Offered() && r.manifest == TheManifest()
    ensures Reached(Sha, directory, Here(), w') && Stage(w', directory)
    ensures n in w'.ops && w'.ops[n].Fetching? && w'.ops[n].release == r
    ensures w'.ops[n].at.Trying? && w'.ops[n].at.pc.Renamed?
    ensures w'.ops - {n} == w.ops - {n} && w'.next == w.next && w'.sh.memory == w.sh.memory
    ensures Join(directory, Package()) in w'.sh.files
  {
    hide Launch, DoFile, Exec, Newer, IsDevelopmentBuild, Offered, Digest, MemoryPath, Package, TheManifest, Machine;
    hide DoBeginDownload;
    ReachStep(Sha, directory, Here(), w, BeginDownload(n, "", PolicyOff));
    var w1 := DoBeginDownload(w, n, "", PolicyOff);
    Enters(directory, w, n, r);
    ReachStep(Sha, directory, Here(), w1, NextMirror(n, PolicyOff));
    var w2 := DoNextMirror(w1, n, PolicyOff);
    var op := Fetching(r, r.order[1..], Trying(r.order[0], D.Connecting));
    assert w2.ops == w.ops[n := op];
    w' := Writes(directory, w2, n, r);
    assert w2.ops - {n} == w.ops - {n};
  }

  lemma Enters(directory: string, w: World, n: nat, r: Release)
    requires Stage(w, directory) && n in w.ops && w.ops[n] == Pending(r) && !w.sh.busy && r.order != []
    requires r.latestVersion == Offered() && r.manifest == TheManifest()
    ensures var w' := DoBeginDownload(w, n, "", PolicyOff);
            && Stage(w', directory) && w'.ops == w.ops[n := Fetching(r, r.order, Sweeping)]
            && w'.next == w.next && w'.sh.memory == w.sh.memory
  {
    hide Newer, IsDevelopmentBuild, Offered, Digest, MemoryPath;
    assert Package() in TheManifest().files;
  }

  lemma Writes(directory: string, w: World, n: nat, r: Release) returns (w': World)
    requires Reached(Sha, directory, Here(), w) && Stage(w, directory)
    requires n in w.ops && w.ops[n].Fetching? && w.ops[n].release == r
    requires w.ops[n].at.Trying? && w.ops[n].at.pc == D.Connecting
    requires r.latestVersion == Offered() && r.manifest == TheManifest()
    ensures Reached(Sha, directory, Here(), w') && Stage(w', directory)
    ensures n in w'.ops && w'.ops[n].Fetching? && w'.ops[n].release == r
    ensures w'.ops[n].at.Trying? && w'.ops[n].at.pc.Renamed?
    ensures w'.ops - {n} == w.ops - {n} && w'.next == w.next && w'.sh.memory == w.sh.memory
    ensures Join(directory, Package()) in w'.sh.files
  {
    hide Launch, DoFile, Here, Package, Offered, TheManifest, Step;
    var dest := Join(directory, Package());
    D.PartialDiffers(dest);
    ReachStep(Sha, directory, Here(), w, FileStep(n, D.CreatePart));
    var w1 := OneWrite(directory, w, n, r, D.CreatePart);
    ReachStep(Sha, directory, Here(), w1, FileStep(n, D.Finish));
    var w2 := OneWrite(directory, w1, n, r, D.Finish);
    ReachStep(Sha, directory, Here(), w2, FileStep(n, D.ClearDest(true)));
    var w3 := OneWrite(directory, w2, n, r, D.ClearDest(true));
    ReachStep(Sha, directory, Here(), w3, FileStep(n, D.Rename(true)));
    w' := OneWrite(directory, w3, n, r, D.Rename(true));
  }

  lemma OneWrite(directory: string, w: World, n: nat, r: Release, e: D.Event) returns (w': World)
    requires Stage(w, directory) && n in w.ops && w.ops[n].Fetching? && w.ops[n].release == r && w.ops[n].at.Trying?
    requires r.latestVersion == Offered() && r.manifest == TheManifest() && !NeedsCancel(e)
    ensures w' == Step(Sha, w, FileStep(n, e)) && Stage(w', directory)
    ensures n in w'.ops && w'.ops[n].Fetching? && w'.ops[n].release == r && w'.ops[n].at.Trying?
    ensures w'.ops - {n} == w.ops - {n} && w'.next == w.next && w'.sh.memory == w.sh.memory
    ensures (w'.sh.files, w'.ops[n].at.pc) == D.Step(Sha, Join(directory, Package()), Digest(), w.sh.files, w.ops[n].at.pc, e)
  {
    hide D.Step, Launch, Step;
    FetchStepIs(Sha, w, FileStep(n, e));
    w' := DoFile(Sha, w, n, e);
  }

  /** The first round: downloaded, recorded, and Install pressed. */
  lemma Installs(directory: string, r: Release) returns (w: World, k: nat)
    requires Conclude(Running(), Answered()) == Some(r) && r.status == Available && r.latestVersion == Offered()
    requires r.manifest == TheManifest() && r.mirror.name != "" && r.order == BootstrapMirrors()
    requires R.CanWin(BootstrapMirrors(), Answered())
    ensures Reached(Sha, directory, Here(), w) && Stage(w, directory)
    ensures w.ops == map[k := Installing(Join(directory, Package()), Offered())] && !w.sh.busy
    ensures w.sh.memory.readyPath == Join(directory, Package()) && w.synced && w.sh.memory.readyPath in w.sh.files
    ensures w.sh.memory.readyVersion == Offered()
  {
    hide Conclude, R.CanWin, Step;
    var w0 := Launch(directory, Here());
    assert Reached(Sha, directory, Here(), w0) by { assert w0 == Exec(Sha, directory, Here(), []); }
    var w1 := Asks(directory, w0, r);
    var w2 := Lands(directory, w1, 0, r);
    w, k := Records(directory, w2, r);
  }

  lemma Records(directory: string, w: World, r: Release) returns (w': World, k: nat)
    requires Reached(Sha, directory, Here(), w) && Stage(w, directory)
    requires 0 in w.ops && w.ops[0].Fetching? && w.ops[0].release == r && r.latestVersion == Offered()
    requires Join(directory, Package()) in w.sh.files
    requires w.ops[0].at.Trying? && w.ops[0].at.pc.Renamed? && w.ops - {0} == map[]
    ensures Reached(Sha, directory, Here(), w') && Stage(w', directory)
    ensures w'.ops == map[k := Installing(Join(directory, Package()), Offered())] && !w'.sh.busy
    ensures w'.sh.memory.readyPath == Join(directory, Package()) && w'.synced && w'.sh.memory.readyPath in w'.sh.files
    ensures w'.sh.memory.readyVersion == Offered()
  {
    hide Exec, Newer, IsDevelopmentBuild, Offered, TheManifest, Digest;
    hide Launch, Step;
    var finish, release, install := FinishDownload(0, "", Wrote, PolicyOff), ReleaseDownload(0), StartInstall(PolicyOff);
    ReachStep(Sha, directory, Here(), w, finish);
    FetchStepIs(Sha, w, finish);
    var w1 := DoFinishDownload(w, 0, "", Wrote, PolicyOff);
    ReachStep(Sha, directory, Here(), w1, release);
    FetchStepIs(Sha, w1, release);
    var w2 := DoRelease(w1, 0);
    assert w2.ops == map[];
    ReachStep(Sha, directory, Here(), w2, install);
    InstallStepIs(Sha, w2, install);
    w' := DoStartInstall(w2, PolicyOff);
    k := w2.next;
    assert Join(directory, Package()) != "" by { assert |Join(directory, Package())| > 0; }
  }

  /** A state where the app offers to install a file that does not exist is reachable. */
  lemma ReadyWithoutPackage(directory: string) returns (actions: seq<Action>)
    ensures var w := Exec(Sha, directory, Here(), actions);
            w.sh.state.phase == PhaseReady && w.sh.memory.readyPath !in w.sh.files
  {
    hide Conclude, R.CanWin, Step, Launch;
    var r := TheRelease();
    CanAnswer();
    var w0, k := Installs(directory, r);
    var n := w0.next;
    var w1 := Asks(directory, w0, r);
    var w2 := Lands(directory, w1, n, r);
    assert k in w2.ops - {n};
    var w3 := Loses(directory, w2, k, n, r);
    actions :| w3 == Exec(Sha, directory, Here(), actions);
  }

  lemma Loses(directory: string, w: World, k: nat, n: nat, r: Release) returns (w': World)
    requires Reached(Sha, directory, Here(), w) && Stage(w, directory) && k != n
    requires k in w.ops && w.ops[k].Installing? && w.sh.memory.readyPath == Join(directory, Package())
    requires n in w.ops && w.ops[n].Fetching? && w.ops[n].release == r && r.latestVersion == Offered()
    requires w.ops[n].at.Trying? && w.ops[n].at.pc.Renamed?
    ensures Reached(Sha, directory, Here(), w')
    ensures w'.sh.state.phase == PhaseReady && w'.sh.memory.readyPath !in w'.sh.files
  {
    hide Exec, Newer, IsDevelopmentBuild, Offered, TheManifest, Digest;
    hide Launch, Step;
    ReachStep(Sha, directory, Here(), w, Installed(k, true, NotWritten));
    InstallStepIs(Sha, w, Installed(k, true, NotWritten));
    var w1 := DoInstalled(w, k, true, NotWritten);
    ReachStep(Sha, directory, Here(), w1, FinishDownload(n, "", NotWritten, PolicyOff));
    FetchStepIs(Sha, w1, FinishDownload(n, "", NotWritten, PolicyOff));
    w' := DoFinishDownload(w1, n, "", NotWritten, PolicyOff);
  }

  // ----- two installs at a time ------------------------------------------------------------

  /** Install takes no busy, so a second one can begin while the first is at work. */
  lemma TwoInstalls(directory: string) returns (actions: seq<Action>, first: nat, second: nat)
    ensures var w := Exec(Sha, directory, Here(), actions);
            && first != second && first in w.ops && w.ops[first].Installing?
            && second in w.ops && w.ops[second].Installing?
  {
    hide Conclude, R.CanWin, Step, Launch;
    var r := TheRelease();
    CanAnswer();
    var w0;
    w0, first := Installs(directory, r);
    var n := w0.next;
    var w1 := Asks(directory, w0, r);
    var w2 := Lands(directory, w1, n, r);
    assert first in w2.ops - {n};
    var w3;
    w3, second := InstallsAgain(directory, w2, first, n, r);
    actions :| w3 == Exec(Sha, directory, Here(), actions);
  }

  lemma InstallsAgain(directory: string, w: World, first: nat, n: nat, r: Release) returns (w': World, second: nat)
    requires Reached(Sha, directory, Here(), w) && Stage(w, directory) && first != n
    requires first in w.ops && w.ops[first].Installing?
    requires n in w.ops && w.ops[n].Fetching? && w.ops[n].release == r && r.latestVersion == Offered()
    requires w.ops[n].at.Trying? && w.ops[n].at.pc.Renamed?
    ensures Reached(Sha, directory, Here(), w')
    ensures first != second && first in w'.ops && w'.ops[first].Installing?
    ensures second in w'.ops && w'.ops[second].Installing?
  {
    hide Exec, Newer, IsDevelopmentBuild, Offered, TheManifest, Digest, Launch, Step;
    var finish, install := FinishDownload(n, "", Wrote, PolicyOff), StartInstall(PolicyOff);
    ReachStep(Sha, directory, Here(), w, finish);
    FetchStepIs(Sha, w, finish);
    var w1 := DoFinishDownload(w, n, "", Wrote, PolicyOff);
    assert |Join(directory, Package())| > 0;
    ReachStep(Sha, directory, Here(), w1, install);
    InstallStepIs(Sha, w1, install);
    w' := DoStartInstall(w1, PolicyOff);
    second := w1.next;
  }

  // ----- a phase nobody is told of --------------------------------------------------------

  function Listening(): Session { Here().(emits := true) }

  lemma HereIsLocated()
    ensures Located(Here().location) && Located(Listening().location)
  {
    hide Running;
  }

  /** A package on disk is ready again for a session with a listener. */
  lemma Relaunches(directory: string, w: World) returns (w': World)
    requires Reached(Sha, directory, Here(), w) && Stage(w, directory) && w.synced
    requires w.sh.memory.readyPath != "" && w.sh.memory.readyPath in w.sh.files
    ensures Reached(Sha, directory, Here(), w') && w'.ops == map[] && w'.sh.session == Listening()
    ensures w'.sh.state.phase == PhaseReady && w'.sh.memory.readyPath != "" && w'.sh.slot.history == []
  {
    HereIsLocated();
    var a := Restart(Listening(), true, true, false, NotWritten);
    var actions :| w == Exec(Sha, directory, Here(), actions);
    ReachableInv(Sha, directory, Here(), actions);
    ReadyIsNewer(w);
    MemorySurvivesRestart(Sha, w, Listening(), true, false, NotWritten);
    ReachStep(Sha, directory, Here(), w, a);
    w' := Step(Sha, w, a);
    InstallStepIs(Sha, w, a);
    RestartEmpties(w, a);
    StepKeepsInv(Sha, w, a);
    ReadyIsNamed(w');
  }

  lemma RestartEmpties(w: World, a: Action)
    requires a.Restart? && Located(a.session.location)
    ensures var w' := DoRestart(w, a.session, a.readable, a.found, a.removed, a.wr);
            w'.ops == map[] && w'.sh.session == a.session && w'.sh.slot.history == []
  {
    hide Located, Newer, IsDevelopmentBuild;
  }

  lemma ReadyIsNewer(w: World)
    requires Inv(Sha, w) && w.sh.memory.readyPath != ""
    ensures Newer(w.sh.memory.readyVersion, w.sh.session.version)
  {
    hide Newer, FilesOk, SlotOk, OnDisk, Control, OpsOk, FetchOk, MemoryOk;
  }

  lemma ReadyIsNamed(w: World)
    requires Inv(Sha, w) && w.sh.state.phase == PhaseReady
    ensures w.sh.memory.readyPath != ""
  {
    hide SharedOk, OpsOk, FetchOk;
  }

  /** The listener can be left with an install that is over: Idle, nothing in flight, and Installing the last word. */
  lemma ListenerLeftBehind(directory: string) returns (actions: seq<Action>)
    ensures var w := Exec(Sha, directory, Here(), actions);
            && w.sh.session.emits && w.ops == map[] && w.sh.state.phase == PhaseIdle
            && w.sh.slot.history != [] && w.sh.slot.history[|w.sh.slot.history| - 1].phase == PhaseInstalling
            && !Told(w.sh)
  {
    hide Conclude, R.CanWin, Step, Launch, Exec;
    var r := TheRelease();
    CanAnswer();
    var w0, k := Installs(directory, r);
    assert Join(directory, Package()) != "" by { assert |Join(directory, Package())| > 0; }
    var w1 := Relaunches(directory, w0);
    var w3 := InstallsUnheard(directory, w1);
    actions :| w3 == Exec(Sha, directory, Here(), actions);
  }

  lemma InstallsUnheard(directory: string, w: World) returns (w': World)
    requires Reached(Sha, directory, Here(), w) && w.ops == map[] && w.sh.session == Listening()
    requires w.sh.state.phase == PhaseReady && w.sh.memory.readyPath != "" && w.sh.slot.history == []
    ensures Reached(Sha, directory, Here(), w')
    ensures w'.sh.session.emits && w'.ops == map[] && w'.sh.state.phase == PhaseIdle
    ensures |w'.sh.slot.history| == 1 && w'.sh.slot.history[0].phase == PhaseInstalling && !Told(w'.sh)
  {
    hide Exec, Launch, Step, Offered, Running, MemoryPath;
    var n := w.next;
    ReachStep(Sha, directory, Here(), w, StartInstall(PolicyOff));
    InstallStepIs(Sha, w, StartInstall(PolicyOff));
    var w1 := DoStartInstall(w, PolicyOff);
    assert w1.ops == map[n := Installing(w.sh.memory.readyPath, w.sh.memory.readyVersion)];
    ReachStep(Sha, directory, Here(), w1, Installed(n, true, NotWritten));
    InstallStepIs(Sha, w1, Installed(n, true, NotWritten));
    w' := DoInstalled(w1, n, true, NotWritten);
  }

  // ----- another target's package --------------------------------------------------------

  function Other(): Target { Target("windows", "arm64", "exe") }

  function Elsewhere(): Session { Session(Running(), Location(Installer, Other(), Some([]), NoBlocker), false) }

  lemma ElsewhereIsLocated()
    ensures Located(Elsewhere().location) && Located(Here().location) && Suffix(Other()) != Suffix(Machine())
  {
    hide Running;
    assert Suffix(Other())[9] == 'r' && Suffix(Machine())[9] == 'm';
  }

  /** A build for another processor is offered the package of the one before it. */
  lemma OthersPackage(directory: string) returns (actions: seq<Action>)
    ensures var w := Exec(Sha, directory, Here(), actions);
            && w.sh.session == Elsewhere() && w.sh.state.phase == PhaseReady
            && w.sh.memory.readyPath != Join(directory, Other().PackageName(w.sh.memory.readyVersion))
  {
    hide Conclude, R.CanWin, Step, Launch, Exec;
    var r := TheRelease();
    CanAnswer();
    var w0, k := Installs(directory, r);
    assert Join(directory, Package()) != "" by { assert |Join(directory, Package())| > 0; }
    var w1 := RestartsElsewhere(directory, w0);
    actions :| w1 == Exec(Sha, directory, Here(), actions);
  }

  lemma RestartsElsewhere(directory: string, w: World) returns (w': World)
    requires Reached(Sha, directory, Here(), w) && Stage(w, directory) && w.synced
    requires w.sh.memory.readyPath == Join(directory, Package()) && w.sh.memory.readyVersion == Offered()
    requires w.sh.memory.readyPath != "" && w.sh.memory.readyPath in w.sh.files
    ensures Reached(Sha, directory, Here(), w') && w'.sh.session == Elsewhere() && w'.sh.state.phase == PhaseReady
    ensures w'.sh.memory.readyPath != Join(directory, Other().PackageName(w'.sh.memory.readyVersion))
  {
    hide Exec, Inv, Step, DoRestart, Newer, Located, Suffix, Running, Offered, Parse;
    ElsewhereIsLocated();
    Versions12();
    var a := Restart(Elsewhere(), true, true, false, NotWritten);
    var actions :| w == Exec(Sha, directory, Here(), actions);
    ReachableInv(Sha, directory, Here(), actions);
    ReadyIsNewer(w);
    MemorySurvivesRestart(Sha, w, Elsewhere(), true, false, NotWritten);
    RestartRemembers(Sha, w, Elsewhere(), true, false, NotWritten);
    ReachStep(Sha, directory, Here(), w, a);
    InstallStepIs(Sha, w, a);
    RestartEmpties(w, a);
    w' := Step(Sha, w, a);
    NamesTellTargets(directory, Machine(), Other(), w.sh.memory.readyPath, Offered());
  }

  // ----- busy without a busy phase ------------------------------------------------------

  /** A Download still asking for the release fails while a Check owns busy: the phase is Error, the Check still at work. */
  lemma BusyInError(directory: string) returns (actions: seq<Action>)
    ensures var w := Exec(Sha, directory, Here(), actions);
            w.sh.busy && Working(w) && w.sh.state.phase == PhaseError && !InPhase(w)
  {
    hide Exec, Launch, Step;
    Versions12();
    var w0 := Launch(directory, Here());
    LaunchIsIdle(directory);
    assert Reached(Sha, directory, Here(), w0) by { NothingDone(directory); }
    var w1 := Asking(directory, w0);
    var w2 := Interrupts(directory, w1);
    actions :| w2 == Exec(Sha, directory, Here(), actions);
  }

  lemma NothingDone(directory: string)
    ensures Exec(Sha, directory, Here(), []) == Launch(directory, Here())
  {
    hide Launch;
  }

  lemma LaunchIsIdle(directory: string)
    ensures var w := Launch(directory, Here()); w.ops == map[] && w.next == 0 && !w.sh.busy && w.sh.session == Here()
  {
    hide Running;
  }

  lemma Asking(directory: string, w: World) returns (w': World)
    requires Reached(Sha, directory, Here(), w) && w.ops == map[] && w.next == 0 && !w.sh.busy && w.sh.session == Here()
    ensures Reached(Sha, directory, Here(), w') && !w'.sh.busy && w'.sh.session == Here() && w'.next == 1
    ensures 0 in w'.ops && w'.ops[0].PreAsk? && w'.ops - {0} == map[]
  {
    hide Exec, Launch, Here, PlanMirrors;
    ReachStep(Sha, directory, Here(), w, StartDownload);
    var w1 := w.Add(PrePlan);
    ReachStep(Sha, directory, Here(), w1, MakePlan(0, false));
    w' := DoPlan(w1, 0, false);
  }

  lemma Interrupts(directory: string, w: World) returns (w': World)
    requires Reached(Sha, directory, Here(), w) && !w.sh.busy && w.sh.session == Here() && w.next == 1
    requires 0 in w.ops && w.ops[0].PreAsk? && !IsDevelopmentBuild(Running())
    ensures Reached(Sha, directory, Here(), w')
    ensures w'.sh.busy && Working(w') && w'.sh.state.phase == PhaseError && !InPhase(w')
  {
    hide Exec, Launch, Step, IsDevelopmentBuild, Running;
    ReachStep(Sha, directory, Here(), w, StartCheck(true, PolicyOff));
    CheckStepIs(Sha, w, StartCheck(true, PolicyOff));
    var w1 := DoStartCheck(w, true, PolicyOff);
    assert w1.ops[1] == CheckPlan(true) && w1.owner == Some(1) && w1.ops[0] == w.ops[0];
    ReachStep(Sha, directory, Here(), w1, NoAnswer(0, "", "", NotWritten, PolicyOff));
    CheckStepIs(Sha, w1, NoAnswer(0, "", "", NotWritten, PolicyOff));
    w' := DoNoAnswer(w1, 0, "", "", NotWritten, PolicyOff);
  }
}
