/** A download only ever ends as cancelled because its own cancel function was called. */
module Cancellation {
  import opened Text
  import opened Disk
  import opened Checking
  import opened Sections
  import opened Lifecycle
  import opened Invariants
  import opened Steps
  import D = Download
  import P = Publisher

  predicate SaysCancelled(op: Op) {
    && op.Fetching? && op.at.Trying?
    && (op.at.pc == D.CleaningUp(D.Cancelled) || op.at.pc == D.Failed(D.Cancelled))
  }

  ghost predicate Honest(w: World) {
    forall i :: i in w.ops && SaysCancelled(w.ops[i]) ==> i in w.cancelled
  }

  lemma HonestFrame(w: World, w': World)
    requires Honest(w) && w.cancelled <= w'.cancelled
    requires forall i :: i in w'.ops && SaysCancelled(w'.ops[i]) ==> i in w.ops && w.ops[i] == w'.ops[i]
    ensures Honest(w')
  {
  }

  lemma ChecksKeepHonest(sha: Bytes -> string, w: World, a: Action)
    requires Honest(w) && (a.StartCheck? || a.MakePlan? || a.NoAnswer? || a.FinishCheck?)
    ensures Honest(Step(sha, w, a))
  {
    hide Step, CheckBegin, PlanMirrors, CheckFailed, SetError, CheckDone, AutoDownload;
    CheckStepIs(sha, w, a);
    HonestFrame(w, Step(sha, w, a));
  }

  lemma AnswersKeepHonest(sha: Bytes -> string, w: World, a: Action)
    requires Honest(w) && a.Answer?
    ensures Honest(Step(sha, w, a))
  {
    hide Step, Conclude, Remember, Answers;
    CheckStepIs(sha, w, a);
    HonestFrame(w, Step(sha, w, a));
  }

  lemma FetchesKeepHonest(sha: Bytes -> string, w: World, a: Action)
    requires Honest(w) && (a.BeginDownload? || a.NextMirror? || a.FinishDownload? || a.ReleaseDownload?)
    ensures Honest(Step(sha, w, a))
  {
    hide Step, DownloadBegin, AttemptBegin, DownloadFinish, DownloadRelease;
    FetchStepIs(sha, w, a);
    HonestFrame(w, Step(sha, w, a));
  }

  lemma InstallsKeepHonest(sha: Bytes -> string, w: World, a: Action)
    requires Honest(w) && (a.StartInstall? || a.Installed? || a.NotInstalled? || a.CallCancel? || a.Restart?)
    ensures Honest(Step(sha, w, a))
  {
    hide Step, InstallBegin, ForgetReady, InstallFailed, Boot, Located;
    InstallStepIs(sha, w, a);
    HonestFrame(w, Step(sha, w, a));
  }

  lemma RestKeepsHonest(sha: Bytes -> string, w: World, a: Action)
    requires Honest(w)
    requires a.StartDownload? || a.Sweep? || a.Report? || a.StartQuit? || a.Skip? || a.ReadCancel? || a.Pump?
    ensures Honest(Step(sha, w, a))
  {
    hide Step, Progress, QuitBegin, SkipVersion, P.Step;
    OtherStepIs(sha, w, a);
    HonestFrame(w, Step(sha, w, a));
  }

  /** An attempt that fails as cancelled does so at a step that needed the cancel. */
  lemma FileKeepsHonest(sha: Bytes -> string, w: World, id: nat, e: D.Event)
    requires Honest(w)
    ensures Honest(DoFile(sha, w, id, e))
  {
  }

  lemma StepKeepsHonest(sha: Bytes -> string, w: World, a: Action)
    requires Honest(w)
    ensures Honest(Step(sha, w, a))
  {
    hide Honest, Step, DoFile;
    if a.StartCheck? || a.MakePlan? || a.NoAnswer? || a.FinishCheck? { ChecksKeepHonest(sha, w, a); }
    else if a.Answer? { AnswersKeepHonest(sha, w, a); }
    else if a.BeginDownload? || a.NextMirror? || a.FinishDownload? || a.ReleaseDownload? { FetchesKeepHonest(sha, w, a); }
    else if a.FileStep? { FetchStepIs(sha, w, a); FileKeepsHonest(sha, w, a.id, a.file); }
    else if a.StartInstall? || a.Installed? || a.NotInstalled? || a.CallCancel? || a.Restart? { InstallsKeepHonest(sha, w, a); }
    else { RestKeepsHonest(sha, w, a); }
  }

  lemma {:induction false} ReachableHonest(sha: Bytes -> string, directory: string, session: Session,
                                           actions: seq<Action>)
    ensures Honest(Exec(sha, directory, session, actions))
    decreases |actions|
  {
    hide Step;
    if actions != [] {
      ReachableHonest(sha, directory, session, actions[..|actions| - 1]);
      StepKeepsHonest(sha, Exec(sha, directory, session, actions[..|actions| - 1]), actions[|actions| - 1]);
    }
  }

  /** The step that adds a download to the cancelled ones is a Cancel that read that download's function. */
  lemma OnlyItsReaderCancels(sha: Bytes -> string, w: World, a: Action, i: nat)
    requires i !in w.cancelled && i in Step(sha, w, a).cancelled
    ensures a.CallCancel? && a.id in w.ops && w.ops[a.id] == Cancelling(i)
  {
    hide CheckBegin, PlanMirrors, CheckFailed, SetError, Conclude, Remember, Answers, CheckDone, AutoDownload;
    hide DownloadBegin;
    hide AttemptBegin, Progress, DownloadFinish, InstallBegin, QuitBegin, ForgetReady, InstallFailed, SkipVersion;
    hide Boot, Located, D.Step;
  }

  /** And it read it in a section in which that download owned busy. */
  lemma ReadersReadTheOwner(sha: Bytes -> string, directory: string, session: Session, actions: seq<Action>)
    requires Located(session.location)
    ensures var w := Exec(sha, directory, session, actions);
            var w' := Step(sha, w, ReadCancel);
            w' != w ==> w.owner.Some? && w.owner.value in w.ops && IsDownload(w.ops[w.owner.value]) &&
                        w' == w.Add(Cancelling(w.owner.value))
  {
    hide Exec, SharedOk, OpsOk, FetchOk;
    ReachableInv(sha, directory, session, actions);
  }

  /** A download that ends as cancelled was begun and had its cancel function called. */
  lemma CancelledWasAsked(sha: Bytes -> string, directory: string, session: Session, actions: seq<Action>, id: nat,
                          message: string)
    requires Located(session.location)
    requires var w := Exec(sha, directory, session, actions);
             id in w.ops && w.ops[id].Fetching? && EndingOf(w.sh, w.ops[id], message) == Some(Ending.Cancelled)
    ensures var w := Exec(sha, directory, session, actions); id in w.cancelled && id in w.begun
  {
    hide Exec, SharedOk, OpsOk, FetchOk;
    ReachableHonest(sha, directory, session, actions);
    ReachableInv(sha, directory, session, actions);
  }
}
