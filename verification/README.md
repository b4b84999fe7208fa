# MQ Studio: update lifecycle, connections, capabilities, release notes

A Dafny model of the parts of MQ Studio that hold state over time, with proofs of what they keep in
every run. One module a file; `dafny verify dfyconfig.toml` checks everything.

## The update lifecycle

`Sections` is the state a `Manager` guards with its mutex and every critical section over it, as
functions. `ManagerClass.Manager` is the class with those fields; each of its methods does one section
step by step and is shown to be the function of that name. `Lifecycle` interleaves the sections: any
number of Check, Download, Install, InstallOnQuit, Skip and Cancel calls in flight, the pump goroutine,
a disk whose every call may fail, and a crash and restart between any two steps. A crash inside a
section is the same as its remaining disk writes failing and a crash after it, and every write may
fail or be cut short. SHA-256 is any function of the bytes. A digest, a mirror's answer, the policy
setting, the clock and every outcome of the file system are inputs of the step that reads them.

`Invariants`, `Steps` and `Cancellation` show what every step keeps; `Guarantees`, `Presence`,
`Listener`, `Occupancy`, `OwnTarget` and `Completion` state what follows for every reachable state of
every run, `FallThrough` that a download goes through the mirrors of its release in order, and `Effects`
what each step means to the user. `Witness` holds the runs in which an expectation fails. The lifecycle rests on smaller
models proved on their own: versions (`Versions`), mirrors and manifests (`Mirrors`), the race (`Race`),
where the app lives and what packages are called (`Target`), one verified download as steps (`Download`)
and as the loops it is (`Fetch`), swapping the installed app (`Apply`), several swaps at a time
(`Overlap`), quoting for the relaunch (`Shell`), and the one-slot publisher (`Publisher`).

Findings, all properties of the code as it is:

- A package announced as ready need not be there. Install never takes `busy`, so while it runs the
  same release can be checked for and downloaded again. If the install ends between that download's
  rename and its last section, `forgetReady` removes the file and the download then announces it.
  `Witness.ReadyWithoutPackage` is such a run; `Presence.ReadyMeansPresent`,
  `Presence.LostExactlyWhenNotQuiet` and `Presence.RunLosesExactlyWhenNotQuiet` give the condition. The
  content, when the file is there, is always one a manifest of that version vouched for.
- What a listener was last told need not be the state, because `forgetReady` publishes nothing. After an
  Install whose relaunch fails the state is Idle, nothing is in flight, and Installing is the last word
  (`Witness.ListenerLeftBehind`). Every other section publishes what it changes, so the listener is right
  exactly when no install has ended in silence since something was last published
  (`Listener.ToldExactlyWhenHeard`).
- A busy Manager need not show a busy phase: a Download still asking for its release, or an Install that
  ends, sets the phase during another call's work (`Witness.BusyInError`). The owner's phase is right
  exactly when no such step came since its work began (`Occupancy.PhaseExactlyWhenUndisturbed`).
- The branch of Check for a package downloaded earlier and "still good" is never taken, because Check
  has already overwritten the phase it asks about (`Guarantees.StillGoodNeverTaken`).
- A build of another architecture started over the same directory is offered the package of the build
  that downloaded it (`Witness.OthersPackage`, `OwnTarget.OtherTargetsPackage`). While builds of one
  target run, what is ready is that target's own (`OwnTarget.ReadyIsOwn`).
- Nothing keeps two installs apart: a second one can begin while the first is at work
  (`Witness.TwoInstalls`), and then both swaps go over the same paths. With no call failing they can leave
  no complete bundle anywhere (`Overlap.TwoSwapsLoseAll`), or a broken AppImage in place
  (`Overlap.TwoImagesLoseAll`). Over any interleaving of any number of swaps, failures and crashes, some
  complete bundle is sure to be left exactly when no swap sets to work beside another or with the bundle
  away (`Overlap.OverlapLosesExactly`), and an AppImage stays whole exactly when no swap opens the staged
  file while another may still rename it (`Overlap.ImageOverlapLosesExactly`). Every row of `Apply` speaks
  of one swap at a time.
- A bundle swap whose rollback fails leaves the only copies where the next swap, in the same process and
  over the location it already knows, deletes them first (`Apply.StrandedThenGone`). A series of swaps,
  one after another and each cut off anywhere, leaves the bundle complete exactly when none stopped with
  it moved aside (`Apply.SwapsCompose`).

## The rest

- `Registry` and `Runtime`: open connections. Closes happen outside the lock, so conservation is a
  claim over all interleavings. `ActiveID` cannot name a connection whose id is zero, and that is the
  only way it and `HasActive` disagree.
- `Sampling`: the same registry with the runtime's calls strung together section by section, so that what
  is sampled is a claim over all interleavings too.
- `Capabilities` and `Conformance`: what a connection declares and whether it implements it. Notes are
  heap maps, so "returns a copy" is about aliasing too.
- `Markdown` and `ReleaseNotes`: the block parser of the release notes over any answers of its regular
  expressions, and what its blocks say in terms of the lines alone.
- `BrokerData`: the generation guard of the boards. A render and its effect are two steps; between them
  the old page's data may still show. A refresh closure kept from another query passes the guard: the
  counter does not know which query a request was for (`BrokerData.KeptClosureShowsStale`). A refresh is
  harmless exactly when its closure is inactive or that of a query on the page
  (`BrokerData.RefreshIsHarmlessExactly`).

## Model
| member | source | states |
|---|---|---|
| Guarantees.ReadyIsVerified | internal/update/manager.go:529-547 | In every reachable state, over crashes and restarts, phase Ready names a path and a version strictly newer than the running one, equal to the version shown; the file, if there, has a digest some manifest of exactly that version published under that package's name |
| Guarantees.AppliedIsVerified | internal/update/manager.go:642-687 | The same for the path and version an Install or InstallOnQuit in flight hands to Apply, at whatever moment it is read |
| Guarantees.NeverOffersOlder | internal/update/manager.go:444-458 | Neither the state nor anything ever published or delivered names an equal or older version, and every error phase has its failed step |
| Guarantees.PhasesNameWork | internal/update/manager.go:402-548 | Checking, Downloading and Installing each have their call in flight (the owner of busy for the first two); with nothing in flight the phase is Idle, Available, Ready or Error and busy is free |
| Completion.NothingGetsStuck | internal/update/manager.go:402-697 | From every reachable state a continuation in which no request is answered and no write goes through ends every call in flight; then busy and cancel are free and the phase is Idle, Available, Ready or Error |
| Completion.CallMoves | internal/update/manager.go:558-608 | Every call in flight has a step of its own that, with everything failing, ends it or brings it nearer its end and leaves the others alone |
| Completion.NoCallGoesBack | internal/update/manager.go:402-697 | No step takes a call further from its end, and any that moves it brings it nearer, save for bytes that keep coming |
| Guarantees.OneAtATime | internal/update/manager.go:409-423 | busy exactly when some Check or Download is between its busy sections, never two of them, and cancel is set exactly to the Download that is |
| Guarantees.CancelReachesOnlyItsDownload | internal/update/manager.go:630-637 | No download that has not begun can be cancelled already or be the target of a Cancel in flight |
| Guarantees.StillGoodNeverTaken | internal/update/manager.go:459-465 | The "still good" branch is unreachable in every interleaving |
| FallThrough.ReachableInTurn | internal/update/manager.go:570-588 | In every reachable state a download has either tried nothing, with the whole order of its release to come, or is at some mirror of the order with exactly those after it to come |
| FallThrough.EarlierOnesFailed | internal/update/manager.go:588-606 | Whatever mirror a download is at, every one before it in the order was tried at some moment of the run, and failed |
| FallThrough.BrokenAfterEveryMirror | internal/update/manager.go:588-607 | A listed release fails to download only once every mirror of its order was tried and failed |
| Effects.LaunchMeans | internal/update/manager.go:244-298 | A launch shows its own version and place and what it remembers, is ready or idle, and has nothing going on |
| Effects.PublishMeans | internal/update/manager.go:307-327 | A publish hands on the state as it is, once, with the policy of the moment, and only to a listener |
| Effects.CheckStarts | internal/update/manager.go:402-418 | A check begins exactly for a release build with busy free, then shows Checking with no error; otherwise nothing happens |
| Effects.PlanAsks | internal/update/manager.go:338-356 | The remembered winner is asked alone first exactly when it is recent, known and not the only mirror; then all, the compiled-in ones leading |
| Effects.AnswerIsRemembered | internal/update/manager.go:383-394 | The mirror that answered is preferred from now, every usable mirror its manifest names is known, the rest of the memory stays; a Download that asked goes on exactly when the release is newer |
| Effects.CheckEnds | internal/update/manager.go:422-478 | A check ends Available with the release's version, notes and date exactly when it is newer, else Idle with them cleared; a download follows exactly when the release is newer, the policy downloads, the place can install and the release is not skipped; only a manual check takes it off the skip list |
| Effects.NoAnswerMeans | internal/update/manager.go:426-432 | A check without an answer is dated, gives busy back and reports a check error; a Download that asked reports a download error and touches nothing else |
| Effects.DownloadStarts | internal/update/manager.go:498-519 | A download gets to work exactly with busy free where it may install, showing this release and an empty bar; refused it reports, with busy taken it does nothing |
| Effects.AttemptStarts | internal/update/manager.go:588-595 | Each attempt shows its mirror and an empty bar and changes nothing else |
| Effects.ProgressIsOnDisk | internal/update/manager.go:580-585 | The count a report shows is the number of bytes in the partial file |
| Effects.CancelReaches | internal/update/manager.go:630-637 | While a download works, a Cancel has its function to call, and calling it cancels that download and changes nothing else |
| Effects.DownloadEnds | internal/update/manager.go:529-547 | Success is Ready with this package remembered; a cancel is Available with an empty bar and no error; anything else is a download error with memory and files as they were |
| Effects.ReleaseMeans | internal/update/manager.go:521-527 | A finished download gives back busy and its cancel function |
| Effects.SweepMeans | internal/update/manager.go:616-627 | Any entry but the package that is coming and the memory is swept |
| Effects.InstallStarts | internal/update/manager.go:642-651 | Install begins exactly with a package ready, whoever owns busy |
| Effects.QuitStarts | internal/update/manager.go:670-678 | On quitting a package is installed exactly when one is ready and the policy is the automatic one |
| Effects.InstalledMeans | internal/update/manager.go:691-697 | After an install the package is forgotten and removed as far as may be, and the rest of the memory stays |
| Effects.NotInstalledMeans | internal/update/manager.go:653-659 | A failed Install is an install error over a package kept; a failed one on quitting changes nothing |
| Effects.SkipMeans | internal/update/manager.go:700-707 | The version given is the one skipped, in the state, in the memory and, once written, on the disk; nothing else changes |
| Guarantees.ListenerCatchesUp | internal/update/manager.go:262-274 | In every reachable state the pump alone brings the listener to the last published state, keeping publish order; when quiet it already has it |
| Guarantees.ReadySurvivesRestart | internal/update/manager.go:278-298 | A ready package written to the memory and still on disk is ready again, with the same version, after a crash and relaunch |
| Guarantees.MemorySurvivesRestart | internal/update/manager.go:244-254 | After a restart the skip list, check date and learned mirrors are the old ones when the last write went through, and Ready comes back exactly when the file is found and still newer |
| Presence.ReadyMeansPresent | internal/update/manager.go:691-697 | As long as no install ends over a package just renamed and not yet recorded, Ready means the file exists |
| Presence.LostExactlyWhenNotQuiet | internal/update/manager.go:661-663 | From a state where all is present, an install's end lets some download's last section announce a package that is gone exactly when it removes the path of a download that has landed |
| Presence.RunLosesExactlyWhenNotQuiet | internal/update/manager.go:642-697 | Over whole runs: no moment, carried on by any download's last section, is Ready without its file exactly when no install ended that way |
| Listener.ForgetTellsExactly | internal/update/manager.go:691-697 | forgetReady keeps the listener right exactly when there is none, nothing was published, or the state was cleared already |
| Listener.StepTells | internal/update/manager.go:317-327 | Every step but an install's end and a restart publishes the state it leaves, or leaves both the state and what was published alone |
| Listener.StepIsHeard | internal/update/manager.go:661-664 | After any step the last state published is the state exactly when the step published, or the listener was right before and the step was no silent end of an install |
| Listener.ToldExactlyWhenHeard | internal/update/manager.go:314-327 | In every reachable state the last state published is the state exactly when no install ended in silence since |
| Occupancy.StepKeepsPhaseExactly | internal/update/manager.go:484-491 | The working owner's phase stays right over a step exactly when it was right and no call that does not own busy set it |
| Occupancy.PhaseExactlyWhenUndisturbed | internal/update/manager.go:409-418 | In every reachable state the working owner of busy shows its phase exactly when nothing disturbed it since its work began |
| OwnTarget.ReadyIsOwn | internal/update/manager.go:565-579 | While builds of one target run, over restarts, a ready package is that target's own and a manifest vouched for it as that |
| OwnTarget.StepKeepsOwn | internal/update/manager.go:530-547 | Every step but a restart as another target keeps every package remembered, written down or being installed the target's own |
| OwnTarget.OtherTargetsPackage | internal/update/manager.go:278-298 | After a restart as another target, over whatever memory the launch finds, the package it names is ready exactly when found and newer, and is the new target's own only if both name packages alike |
| Presence.QuietStepKeepsPresent | internal/update/manager.go:558-627 | Every step but such an install's end, sweep and failing writes included, keeps the ready file and every landed package where it is |
| Witness.ReadyWithoutPackage | internal/update/manager.go:642-697 | A concrete run to a state that is Ready with no file |
| Witness.TwoInstalls | internal/update/manager.go:642-651 | A concrete run to two Installs at work at a time |
| Witness.ListenerLeftBehind | internal/update/manager.go:661-664 | A concrete run to Idle with nothing in flight and Installing as the last state published |
| Witness.OthersPackage | internal/update/manager.go:278-298 | A concrete run in which a build for another processor is Ready with a package not its own |
| Witness.BusyInError | internal/update/manager.go:484-491 | A concrete run to phase Error with a Check at work and busy taken |
| Cancellation.CancelledWasAsked | internal/update/manager.go:533-538 | A download ends as cancelled only if it began and its own cancel function was called |
| Cancellation.OnlyItsReaderCancels | internal/update/manager.go:630-637 | The only step that cancels download i is a Cancel that read i's function |
| Cancellation.ReadersReadTheOwner | internal/update/manager.go:631-633 | What Cancel reads is the function of the Download that owns busy at that moment |
| Steps.StepKeepsInv | internal/update/manager.go:402-709 | Every section, disk step, pump step and restart keeps the whole invariant: files, memory, ownership, phases, calls in flight, publisher |
| Steps.ReachableInv | internal/update/manager.go:209-259 | The invariant holds after any run from a first launch |
| Invariants.BootKeeps | internal/update/manager.go:278-298 | A launch over any directory the lifecycle can leave behind starts in a good state |
| Invariants.CheckDoneKeeps | internal/update/manager.go:422-478 | The last section of Check keeps memory, state and publisher consistent whatever the write does |
| Invariants.DownloadFinishKeeps | internal/update/manager.go:530-547 | The last section of Download does, given the path is the package of a newer version |
| Invariants.ForgetReadyKeeps | internal/update/manager.go:691-697 | Forgetting a package leaves the updater's own memory file intact |
| Checking.ConcludeMeans | internal/update/update.go:142-160 | A usable manifest always concludes for a release build; Available exactly when strictly newer, Current exactly when both normalise alike; manifest, mirror and order are the race's and the texts are the manifest's, trimmed |
| ManagerClass.Manager.constructor | internal/update/manager.go:209-298 | New with restoreReady is Boot |
| ManagerClass.Manager.RestoreReady | internal/update/manager.go:278-298 | A remembered package is ready only if seen and strictly newer, else removed and forgotten |
| ManagerClass.Manager.Publish | internal/update/manager.go:317-327 | The snapshot replaces pending and the slot is signalled, only with a listener |
| ManagerClass.Manager.PumpWake | internal/update/manager.go:262-268 | The receive empties the slot |
| ManagerClass.Manager.PumpTake | internal/update/manager.go:268-270 | The pump takes whatever pending holds by then |
| ManagerClass.Manager.PumpEmit | internal/update/manager.go:271 | The listener is given exactly what was taken |
| ManagerClass.Manager.Close | internal/update/manager.go:740-743 | Close stops the pump and reads the cancel function |
| ManagerClass.Manager.BeginCheck | internal/update/manager.go:402-418 | First section of Check: refused for a development build, busy, or entered |
| ManagerClass.Manager.MakePlan | internal/update/manager.go:338-356 | The merged list, and the remembered winner only when recent, known and not alone |
| ManagerClass.Manager.RememberMirror | internal/update/manager.go:383-394 | rememberMirror is Remember |
| ManagerClass.Manager.FailCheck | internal/update/manager.go:422-432 | A failed check gives busy back, dates itself, and reports |
| ManagerClass.Manager.FinishCheck | internal/update/manager.go:422-478 | The last section is CheckDone, and a download follows exactly when policy, location and skip list allow |
| ManagerClass.Manager.BeginDownload | internal/update/manager.go:498-519 | First busy section of Download in its three outcomes |
| ManagerClass.Manager.BeginAttempt | internal/update/manager.go:589-595 | Each mirror's attempt starts from nothing |
| ManagerClass.Manager.ReportProgress | internal/update/manager.go:580-585 | A report publishes both counts |
| ManagerClass.Manager.FinishDownload | internal/update/manager.go:530-547 | Cancelled, broken or fetched, each with its state and memory |
| ManagerClass.Manager.ReleaseDownload | internal/update/manager.go:521-527 | The deferred section gives back busy and cancel and nothing else |
| ManagerClass.Manager.Sweep | internal/update/manager.go:616-627 | Exactly the listed entries that may be removed, other than the kept package and the memory, are gone; every other file is as it was |
| ManagerClass.Manager.Cancel | internal/update/manager.go:630-633 | Cancel reads the function and changes nothing |
| ManagerClass.Manager.BeginInstall | internal/update/manager.go:642-651 | Install starts only from Ready with a path, and takes no busy |
| ManagerClass.Manager.BeginQuit | internal/update/manager.go:670-678 | InstallOnQuit reads the path only when ready under the auto policy |
| ManagerClass.Manager.FailInstall | internal/update/manager.go:653-659 | A failed install is an install error |
| ManagerClass.Manager.ForgetPackage | internal/update/manager.go:691-697 | forgetReady is ForgetReady, publishing nothing |
| ManagerClass.Manager.Skip | internal/update/manager.go:700-707 | Skip changes memory and state alike, writes and publishes |
| Publisher.StepKeepsInv | internal/update/manager.go:262-274 | Every publish, pump step, stop and exit keeps the slot's bookkeeping |
| Publisher.LastWord | internal/update/manager.go:317-327 | Slot empty and pump idle: the last state delivered is the last one published |
| Publisher.DrainDelivers | internal/update/manager.go:262-274 | Before it exits the pump delivers the newest state on its own |
| Publisher.DeliveredInOrder | internal/update/manager.go:262-274 | Whatever happens later, deliveries stay, in publish order |
| Publisher.LeavesOnlyAfterStop | internal/update/manager.go:262-267 | The pump exits only after Close |
| Versions.MatchComplete | internal/update/update.go:23 | Every text of the pattern matches and its groups read back |
| Versions.MatchSound | internal/update/update.go:23 | Nothing else matches |
| Versions.BuildIsDotted | internal/update/update.go:23 | Build metadata is exactly a dot-separated list of non-empty identifiers |
| Versions.ParseStableVersion | internal/update/update.go:62-79 | The loop over the groups is Parse, rejecting parts above 2^64-1 |
| Versions.ParseSpelling | internal/update/update.go:62-79 | Any spelling, with v, build metadata and space around, parses to its core exactly when all parts fit 64 bits |
| Versions.ParseSound | internal/update/update.go:62-79 | Whatever parses is such a spelling |
| Versions.PrintParse | internal/update/update.go:70-79 | Parsing a printed triple gives it back exactly when it fits 64 bits (items 2 and 10 of Semantic Versioning 2.0.0) |
| Versions.ParseNormalized | internal/update/update.go:70-79 | Normalising is idempotent and keeps the parts |
| Versions.CompareStable | internal/update/update.go:82-100 | The loop is Compare, an error on either side included |
| Versions.CompareDecides | internal/update/update.go:91-98 | The first of major, minor and patch that differs decides (item 11) |
| Versions.CompareReads | internal/update/update.go:82-100 | On the texts: the numerals are compared left to right, each as a decimal number |
| Versions.ValueReads | internal/update/update.go:70-75 | A numeral is less than another exactly when it is shorter, or as long and smaller where they first differ |
| Versions.CompareSwaps | internal/update/update.go:82-100 | Comparison is total and antisymmetric (item 11) |
| Versions.CompareTransitive | internal/update/update.go:82-100 | And transitive, strictly when one step is strict |
| Versions.CompareTies | internal/update/update.go:82-100 | Two versions tie exactly when they normalise alike |
| Versions.CompareNormalized | internal/update/update.go:146-151 | Comparing normalized strings answers for the originals |
| Versions.CompareIgnoresBuild | internal/update/update.go:82-100 | Build metadata, a leading v and space do not matter |
| Mirrors.MergeMirrors | internal/update/mirror.go:302-318 | The two passes over one seen map are Merge |
| Mirrors.MergeKeepsFirsts | internal/update/mirror.go:302-318 | The merge holds exactly the first valid entry of every name, each name once |
| Mirrors.MergeAssociative | internal/update/mirror.go:302-318 | Merging is associative |
| Mirrors.MergeIdempotent | internal/update/mirror.go:302-318 | Merging the same list again adds nothing |
| Mirrors.MergeKeepsKnown | internal/update/mirror.go:302-318 | A clean known list stays in front, in order, unchanged |
| Mirrors.LearnIsOneMerge | internal/update/manager.go:390-392 | Folding manifests in one at a time is one merge of all they ever named |
| Mirrors.PlanAfterHistory | internal/update/manager.go:338-341 | After any history of manifests every compiled-in mirror still leads the plan, unchanged, and the plan has unique valid names |
| Mirrors.OrderFrom | internal/update/mirror.go:285-294 | The winner, then everyone of another name in order |
| Mirrors.OrderIsRotation | internal/update/mirror.go:285-294 | With unique names that is a permutation: the winner first, the rest as they were |
| Mirrors.FindMirror | internal/update/mirror.go:321-328 | Finds an entry of that name exactly when there is one |
| Mirrors.DistinctAppend | internal/update/mirror.go:302-318 | Entries are kept in the order listed: those of the first list, then what is new in the second |
| Mirrors.AssetURLJoinsOnce | internal/update/mirror.go:86-88 | Base and path are joined by exactly one slash however each is written |
| Mirrors.CheckManifest | internal/update/mirror.go:143-170 | Accepts exactly the usable manifests; too new a schema is told apart first, and each refusal says what is wrong |
| Race.Collect | internal/update/mirror.go:237-254 | The reader's loop is Decide, and the verdict is for whoever answered first: a win carries that mirror's manifest and puts it first in the order, a refusal is the first too-new answer with no success before it, and otherwise every failure is kept |
| Race.SendNeverBlocks | internal/update/mirror.go:217-235 | A goroutine that has not sent always finds room in the buffer |
| Race.ReaderNeverStuck | internal/update/mirror.go:238-254 | Before the verdict there is something to take or someone still to send |
| Race.VerdictFollowsArrival | internal/update/mirror.go:238-254 | Nothing sent is lost or reordered; the verdict is that of the arrival order |
| Race.VerdictIsTheFirstAnswer | internal/update/mirror.go:237-254 | In every interleaving the winner is the mirror whose success arrived first, with its own manifest, tried first and the rest as they were |
| Race.UsableMirrorsAre | internal/update/mirror.go:199-204 | A race is run over exactly the valid entries, as often as listed |
| Race.UsableMirrorsKeepOrder | internal/update/mirror.go:199-204 | And in the order listed |
| Race.FailureNamesEveryMirrorOnce | internal/update/mirror.go:237-254 | A race nobody won lists every usable mirror exactly once |
| Race.WinnerComesFromTheList | internal/update/mirror.go:240-246 | A winner is a listed mirror with a usable manifest, tried first, then all the others |
| Target.BundleRoot | internal/update/target.go:97-108 | The walk is BundleRootFrom |
| Target.BundleRootIsInnermost | internal/update/target.go:97-108 | It finds the innermost .app around the executable and fails only when there is none |
| Target.BundleByName | internal/update/target.go:97-108 | A directory is a bundle exactly when its name ends in .app, capital or small |
| Target.LocateCanInstall | internal/update/target.go:112-167 | The app may install exactly in three shapes of installation, always naming a released target and a root |
| Target.LocateIsTheMachine | internal/update/target.go:112-167 | System and architecture are the machine's own, and what is replaced is the installation that runs: the innermost bundle, the AppImage, the executable |
| Target.LocateSaysWhyNot | internal/update/target.go:112-167 | Each reason not to install is given in exactly its case |
| Target.ExtIsTheTail | internal/update/target.go:97-101 | An extension is what follows the last dot, dot included |
| Target.PackageNamesOfTheWorkflow | internal/update/target.go:66-68 | Package names are those the release workflow gives, with or without a leading v |
| Target.PackageNameInjective | internal/update/target.go:66-68 | A package name tells its version whatever the targets |
| Target.PackageNameIsItsOwn | internal/update/target.go:66-68 | It is never a partial file nor the updater's memory |
| Download.NeverWrong | internal/update/download.go:110-159 | After every step of every attempt dest is what it was, absent, or content with the wanted digest; nothing but it and its .part changed |
| Download.LostOnlyAfterVerifying | internal/update/download.go:153-158 | dest is only ever lost by an attempt whose own bytes already matched |
| Download.StepKeepsPart | internal/update/download.go:129-158 | Between steps others may touch other files without spoiling the attempt |
| Fetch.Folder.CopyWithProgress | internal/update/download.go:166-201 | It ends as the first turn that does not go on says; on success the partial file holds exactly the reads up to the first end of body, in order, and nothing else changed; interim reports are 204800 to 270335 bytes apart and the last one is the total; every way out is a run of the steps |
| Fetch.FateIsTheFirstStop | internal/update/download.go:175-200 | A copy succeeds exactly when the first turn that is cancelled, cannot be written or ends the body is a clean end of the body |
| Fetch.ConcatJoins | internal/update/download.go:175-186 | Bodies read one after another are their bytes one after another |
| Fetch.Folder.Download | internal/update/download.go:110-159 | It succeeds exactly when the digest has its length, every call does, the body ends and its digest matches; success leaves the body, read up to its first end, at dest, no partial file, nothing else changed, and whole reports; failure is a run of the steps, touches no other file, loses the old package only when a verified one could not be renamed, and leaves no partial file if removing it is allowed |
| Fetch.SpacedCount | internal/update/download.go:186-189 | Interim reports rise and number at most one per 204800 bytes |
| Fetch.WholeReportBounds | internal/update/download.go:164-195 | Reports never decrease, end at the total, and number at most total/204800 + 1 |
| Apply.SwapIsSafe | internal/update/apply.go:124-148 | With no other swap at work, from an intact bundle a complete app is at the bundle or `.old` after every step; success leaves the new, an error the old, at `.old` only if putting it back failed |
| Apply.SafeExactlyFromIntact | internal/update/apply.go:127-128 | A complete app survives every run exactly when the bundle was intact at entry |
| Apply.WholeUnlessAway | internal/update/apply.go:124-148 | However a swap ends or is cut off, the bundle is complete unless it stopped between the renames or stranded, and then it is gone |
| Apply.AwayStaysAway | internal/update/apply.go:137-140 | Once the bundle is away no later swap brings it back |
| Apply.StrandedThenGone | internal/update/apply.go:127-143 | From any complete bundle a stranded swap followed by another can leave no complete app anywhere |
| Apply.SwapsCompose | internal/update/apply.go:103-149 | After any series of swaps one after another, each cut off anywhere or not, the bundle is complete exactly when none of them stopped with it away |
| Apply.AppFolder.ApplyBundle | internal/update/apply.go:103-149 | The procedure is a run of those steps; over an intact bundle it succeeds, or fails for each reason, exactly when the calls answer so, and leaves what SwapIsSafe says; the staged or moved-aside copy is dropped as far as that goes |
| Apply.AppFolder.ApplyAppImage | internal/update/apply.go:154-165 | The procedure is a run of the image's steps; it succeeds exactly when the copy is whole and the rename allowed, leaving the new image and no staged file, and otherwise the old image |
| Apply.LocatedIsApplied | internal/update/apply.go:82-98 | Wherever the app may install, a package found is handed to that system's procedure over the installation that runs |
| Apply.Beside | internal/update/apply.go:124-126 | The three paths differ |
| Apply.ImageSwapIsAtomic | internal/update/apply.go:154-165 | With no other swap at work, an AppImage is complete at its own path at every moment, new exactly when done |
| Overlap.OverlapLosesExactly | internal/update/apply.go:103-149 | In any interleaving of bundle swaps, failures and crashes, a complete app is left whatever those at work go on to do, exactly when no swap set to work beside another or with the bundle away |
| Overlap.StartIsSafeExactly | internal/update/apply.go:124-128 | A swap may set to work without any orderly continuation losing every copy exactly when nobody else is at work and the bundle is in place |
| Overlap.PairLoses | internal/update/apply.go:127-147 | Whatever point the other swap is at, one that sets to work beside it can lose every copy |
| Overlap.TwoSwapsLoseAll | internal/update/apply.go:124-148 | Two swaps in which no call fails and nothing complete is left at any of the three paths |
| Overlap.ImageOverlapLosesExactly | internal/update/apply.go:154-165 | In any interleaving of AppImage swaps the image stays complete whatever those at work go on to do, exactly when none opened the staged file while another could still rename it |
| Overlap.TwoImagesLoseAll | internal/update/apply.go:154-165 | Two AppImage swaps in which no call fails, one done, and the image in place is broken |
| Shell.QuoteRoundTrip | internal/update/apply.go:214-216 | Splitting and quote removal give exactly one word, the value (sections 2.2.1 and 2.2.2 of the Shell Command Language, IEEE Std 1003.1-2017) |
| Shell.EscapedReadsBack | internal/update/apply.go:214-216 | Inside the quotes the escaped text reads back, whatever follows |
| Shell.RelaunchWords | internal/update/apply.go:195-206 | The relaunch command is one program and one path |
| Shell.QuoteInjective | internal/update/apply.go:214-216 | Different values are quoted differently |
| Registry.Conservation | internal/driver/registry.go:123-143 | In every interleaving each returned connection is in exactly one place: unstored, in the map under one id, owed a close by one call, or closed; none is closed twice |
| Registry.NothingFromNowhere | internal/driver/registry.go:123-224 | Only connections a driver returned are stored, owed or closed |
| Registry.NoLeaks | internal/driver/registry.go:195-224 | Once every call has returned, a connection was closed exactly when it is not in the map |
| Registry.ActiveNeverDangles | internal/driver/registry.go:162-180 | activeID is zero or a key of the map, and HasActive and ActiveID differ only on a connection stored under zero |
| Registry.Registry.Store | internal/driver/registry.go:133-136 | The locked section of Open hands back what it replaced |
| Registry.Registry.Take | internal/driver/registry.go:196-203 | The locked section of Close |
| Registry.Registry.TakeAll | internal/driver/registry.go:211-219 | The locked section of CloseAll takes every connection and empties the map |
| Registry.Registry.SetActive | internal/driver/registry.go:172-180 | Succeeds exactly on an open id |
| Registry.Registry.ActiveID | internal/driver/registry.go:162-169 | The active id while it is open, else zero |
| Registry.Registry.IDs | internal/driver/registry.go:184-193 | Every open id once, sorted |
| Registry.Registry.HasActive | internal/driver/registry.go:230-233 | Whether the active id is open |
| Runtime.Runtime.Connect | internal/app/runtime.go:60-69 | A dialled connection is stored and active, what it replaced is closed; a failed dial changes nothing |
| Runtime.Runtime.Remove | internal/app/runtime.go:76-89 | The connection is closed and, when no open id is active any more, the smallest remaining one becomes active |
| Runtime.Runtime.CloseAll | internal/driver/registry.go:211-224 | Every open connection is closed and none stays |
| Runtime.ConnectIsSampled | internal/app/runtime.go:63-68 | The connection just opened is the one sampled, and only the one it replaces is closed |
| Runtime.RemoveHandsOver | internal/app/runtime.go:76-89 | Removing what was sampled hands over to the smallest id left; removing another leaves it sampled |
| Sampling.SamplesWhateverIsOpen | internal/app/runtime.go:60-89 | In every interleaving of the sections of Connect, Remove and CloseAll, once all calls have returned HasActive says whether anything is open, and ActiveID does too unless what is sampled is stored under zero |
| Sampling.SomebodySeesToIt | internal/app/runtime.go:76-89 | At every moment in between, if something is open and none of it sampled, some call in flight will see to it |
| Runtime.HasActiveMeansOpen | internal/driver/registry.go:226-233 | After any sequence of calls one after another, with any ids, HasActive says whether a connection is open |
| Runtime.ActiveIDMeansOpen | internal/driver/registry.go:161-169 | ActiveID says the same exactly when the sampled id is not zero, so always with positive ids |
| Capabilities.Has | internal/model/capability.go:329-336 | True exactly for a supported capability |
| Capabilities.DegradedReason | internal/model/capability.go:339-342 | The reason recorded, if any |
| Capabilities.CloneCapabilityNotes | internal/model/capability.go:372-378 | A fresh map with the same notes, empty for nil |
| Capabilities.WithDegraded | internal/model/capability.go:352-363 | A set with the capability degraded and not supported, over fresh notes; no existing notes change |
| Capabilities.WithCaveat | internal/model/capability.go:366-370 | A set with the caveat, over fresh notes; no existing notes change |
| Capabilities.ChainMeans | internal/model/capability.go:324-370 | After any chain of calls: supported exactly when named at first and never degraded; the last reason and the last caveat win |
| Capabilities.ChainNeverBoth | internal/model/capability.go:350-351 | No chain of calls makes a capability both supported and degraded |
| Conformance.CheckConformance | internal/driver/conformance.go:155-200 | Reports every disagreement and nothing else, once each when every capability has one row |
| Conformance.CheckStates | internal/driver/conformance.go:159-166 | The first loop reports exactly the capabilities in both states |
| Conformance.CheckIfaces | internal/driver/conformance.go:192-198 | The last loop reports exactly the implemented interfaces nobody declares |
| Conformance.NoProblemsMeansConforms | internal/driver/conformance.go:153-154 | No problem exactly when no capability is in both states, every supported one is implemented, and every implemented interface is declared |
| Conformance.BuiltSetsConform | internal/driver/conformance.go:155-200 | The same in terms of the calls that built the declaration |
| Conformance.BuiltSetsNeverClash | internal/model/capability.go:350-363 | A declaration built by those calls is never reported as being in both states |
| Markdown.ParseBlocks | frontend/src/components/markdown.tsx:85-185 | The parser, moving one index, yields one block for each span of the reference definition |
| Markdown.ReadCode | frontend/src/components/markdown.tsx:101-111 | A fence runs to the next fence or the end |
| Markdown.ReadQuote | frontend/src/components/markdown.tsx:131-150 | A quote is the whole run of quoted lines, with its alert |
| Markdown.ReadList | frontend/src/components/markdown.tsx:152-178 | A list is the whole run of items and continuations, folded one at a time, equal to joining each item's lines |
| Markdown.ItemsGrow | frontend/src/components/markdown.tsx:156-174 | One more line starts an item or folds into the last |
| Markdown.JoinAll | frontend/src/components/markdown.tsx:67-75 | The reduce is JoinLines |
| Markdown.JoinSplits | frontend/src/components/markdown.tsx:67-75 | Non-empty lines join the same wherever they are cut: a gap depends only on its two lines |
| Markdown.FoldingIsJoining | frontend/src/components/markdown.tsx:172 | Folding continuations one at a time is joining all the lines of the item |
| Markdown.ParagraphsJoinAtTheCut | frontend/src/components/markdown.tsx:93-96 | The text of a paragraph splits at any line into two joins and their glue |
| Markdown.LinesKeepTheText | frontend/src/components/markdown.tsx:86 | No line holds a break, and the lines carry every other character in order |
| Markdown.SpansPartition | frontend/src/components/markdown.tsx:98-184 | Spans are in source order and disjoint; every line is in one or blank |
| Markdown.SpansAreTheOnly | frontend/src/components/markdown.tsx:98-184 | A list of spans is such a partition exactly when it is the parser's |
| Markdown.OneBlockASpan | frontend/src/components/markdown.tsx:98-184 | Each block is what its own span says, and every span has at least a line |
| Markdown.ListsAreGood | frontend/src/components/markdown.tsx:152-178 | A list has at least one item and no more than lines, at depth 0 or 1 |
| ReleaseNotes.BlocksMean | frontend/src/components/markdown.tsx:98-184 | Every block reaches exactly as far as the tests of its lines say, and says what their answers say: a fence its lines unjoined, a quote its alert and shown lines, a list each item's own lines, a paragraph its trimmed lines |
| ReleaseNotes.KindIsTheFirstTest | frontend/src/components/markdown.tsx:101-152 | A line begins the block of the first test it passes, in the order they are tried |
| ReleaseNotes.SeamIsClosedBetweenCJK | frontend/src/components/markdown.tsx:57-75 | Two lines join without a gap exactly when, markers aside, the last character of one and the first of the other are CJK |
| ReleaseNotes.LinesJoinBack | frontend/src/components/markdown.tsx:86 | Joining the lines with LF gives the source with its line breaks unified |
| ReleaseNotes.LinesSplitBack | frontend/src/components/markdown.tsx:86 | Lines without breaks survive being joined and split again |
| BrokerData.Board.Run | frontend/src/hooks/useBrokerData.ts:48-54 | A request takes the next generation, or nothing happens when the query is not active |
| BrokerData.Board.Land | frontend/src/hooks/useBrokerData.ts:54-67 | Only the reply to the newest request touches the board |
| BrokerData.Board.OnChange | frontend/src/hooks/useBrokerData.ts:74-90 | The effect clears the board, invalidates requests in flight, asks again and restarts the timer |
| BrokerData.Board.Render | frontend/src/hooks/useBrokerData.ts:35-46 | A render fixes whether the query is active, its connection and its load function; a pending effect runs first |
| BrokerData.ShowsTheNewest | frontend/src/hooks/useBrokerData.ts:45-70 | In every run data shown answers the newest request or that one is in flight; loading or refreshing exactly then; never data with an error |
| BrokerData.AnswerShows | frontend/src/hooks/useBrokerData.ts:54-67 | The newest request's value replaces what was there, its failure shows as an error with no data, and either leaves the board idle; any other answer changes nothing one sees |
| BrokerData.EffectAsksAnew | frontend/src/hooks/useBrokerData.ts:74-90 | A change of query clears the board and asks the page's query exactly when active; nothing asked before counts any more |
| BrokerData.RefreshAsksAgain | frontend/src/hooks/useBrokerData.ts:48-54 | A refresh asks once more and says so, leaving what shows |
| BrokerData.TimerRunsExactly | frontend/src/hooks/useBrokerData.ts:87-90 | In every run a timer asks the page's own query exactly while the page is active and wants refreshing |
| BrokerData.StaleNeverShows | frontend/src/hooks/useBrokerData.ts:43-46 | With current closures data shown was asked of the query on the page once its effect ran, and until then of that one or the one before |
| BrokerData.WindowShowsTheOldPage | frontend/src/hooks/useBrokerData.ts:74-90 | A concrete run in which the page before still shows between a render and its effect |
| BrokerData.OfflineIsEmpty | frontend/src/hooks/useBrokerData.ts:79-84 | With nothing dialled the board is empty and idle |
| BrokerData.RefreshIsHarmlessExactly | frontend/src/hooks/useBrokerData.ts:72 | In every state, a pending effect included, a refresh is followed only by data of queries on the page, in every continuation with current closures, exactly when its closure is inactive or that of a query on the page |
| BrokerData.KeptClosureShowsStale | frontend/src/hooks/useBrokerData.ts:72 | A concrete run in which a kept closure shows another connection's data |
| BrokerData.OldRepliesLeaveNoTrace | frontend/src/hooks/useBrokerData.ts:55-66 | In whatever order replies land, the board looks as if only the newest request had been answered |

## Left out
- Guarantees.ReadyIsVerified: does not say the file exists, because it may not, nor which target's package it is; see Presence and OwnTarget.
- BrokerData.StaleNeverShows: does not cover closures kept from earlier renders, for which it is false.
- JSON, HTTP, TLS, SHA-256, hdiutil, ditto, installers and process launch: functions or outcomes given to the step that uses them. A manifest arrives decoded, the memory is stored as a value.
- Time: stagger, timeouts, preference age and schedules are free choices, so nothing is said about how many requests a race makes.
- The context passed to Download is never cancelled from outside in the model, as neither of its callers can; a check cancelled from outside is a check that fails.
- The updater has its download directory to itself: other programs do not write there.
- Target.BundleRoot: paths are lists of components, so separators, `.` and `..` are not modelled.
- Text.EqualFold: folds ASCII letters only; no other character folds to a letter of `.app` or a hexadecimal digit, the two things compared with it.
- Apply: "complete" means the tree came whole out of ditto or the installation; files that a failed removal leaves inside a later copy, and the mounting and unmounting of the image, are not tracked. Nor is what a file opened by one AppImage swap becomes once another has renamed or removed it.
- applyInstaller and the Windows elevation prompt: one call, nothing to keep.
- Shell.RelaunchWords: reads only the last command of the relaunch; the wait loop before it is fixed text around a number.
- FetchChecksums, ParseChecksums: nothing in the lifecycle uses them.
- Conformance: the constant table of backings is a parameter; the proofs hold for every table.
- Registry: the catalogue of drivers, and dialling itself, are an outcome; connections are numbers.
- Markdown: the regular expressions, `inline`, `safeHref` and rendering. Lines are sequences of characters, not UTF-16 units; no CJK range reaches beyond the basic plane, so the joins agree.
- BrokerData: error texts and the online flag; state setters take effect at once, and unmounting is not modelled.
- present.go, crypto.go, profiles, the tray and window code, and the drivers: short case splits, or laws that would be assumed.
