/** A download tries the mirrors of its release one after another, in order, until one delivers. */
module FallThrough {
  import opened Text
  import opened Mirrors
  import opened Disk
  import opened Checking
  import opened Sections
  import opened Lifecycle
  import opened Invariants
  import opened Steps
  import opened Completion
  import D = Download
  import P = Publisher

  /** The mirrors fetch goes through. */
  function OrderOf(r: Release): seq<Mirror> { if r.order == [] then [r.mirror] else r.order }

  /** How many mirrors of the order were given up before the one at hand. */
  function GivenUp(op: Op): int
    requires op.Fetching?
  {
    |OrderOf(op.release)| - |op.rest| - 1
  }

  /** Nothing was tried yet, or the mirror at hand is the next of the order and the rest is still to come. */
  predicate InTurn(op: Op) {
    op.Fetching? ==>
      var order := OrderOf(op.release);
      match op.at
      case Trying(m, _) =>
        && 0 <= GivenUp(op) < |order| && m == order[GivenUp(op)] && op.rest == order[GivenUp(op) + 1..]
      case _ => op.rest == order
  }

  ghost predicate AllInTurn(w: World) { forall i :: i in w.ops ==> InTurn(w.ops[i]) }

  lemma TurnFrame(w: World, w': World)
    requires AllInTurn(w)
    requires forall i :: i in w'.ops ==> (i in w.ops && w'.ops[i] == w.ops[i]) || !w'.ops[i].Fetching?
    ensures AllInTurn(w')
  {
    hide InTurn;
    forall i | i in w'.ops ensures InTurn(w'.ops[i]) {
      if !w'.ops[i].Fetching? { NotFetching(w'.ops[i]); }
    }
  }

  lemma NotFetching(op: Op)
    requires !op.Fetching?
    ensures InTurn(op)
  {
  }

  lemma ChecksTakeTurns(sha: Bytes -> string, w: World, a: Action)
    requires AllInTurn(w) && (a.StartCheck? || a.MakePlan? || a.NoAnswer? || a.FinishCheck?)
    ensures AllInTurn(Step(sha, w, a))
  {
    hide Step, CheckBegin, PlanMirrors, CheckFailed, SetError, CheckDone, AutoDownload, AllInTurn;
    CheckStepIs(sha, w, a);
    TurnFrame(w, Step(sha, w, a));
  }

  lemma AnswersTakeTurns(sha: Bytes -> string, w: World, a: Action)
    requires AllInTurn(w) && a.Answer?
    ensures AllInTurn(Step(sha, w, a))
  {
    hide Step, Remember, Conclude, Answers, AllInTurn;
    CheckStepIs(sha, w, a);
    TurnFrame(w, Step(sha, w, a));
  }

  lemma BeginTakesTurns(w: World, id: nat, message: string, policy: Policy)
    requires AllInTurn(w)
    ensures AllInTurn(DoBeginDownload(w, id, message, policy))
  {
    hide DownloadBegin;
  }

  /** The next mirror is the next of the order, and none is thrown away. */
  lemma NextTakesTurns(w: World, id: nat, policy: Policy)
    requires AllInTurn(w)
    ensures AllInTurn(DoNextMirror(w, id, policy))
  {
    hide AttemptBegin, InTurn;
    if id in w.ops && w.ops[id].Fetching? && w.ops[id].rest != [] {
      NextInTurn(w.ops[id]);
    }
  }

  lemma NextInTurn(op: Op)
    requires op.Fetching? && InTurn(op) && op.rest != []
    ensures var op' := op.(rest := op.rest[1..], at := Trying(op.rest[0], D.Connecting));
            && (op.at.Sweeping? || op.at.Trying? ==> InTurn(op'))
            && (op.at.Trying? ==> GivenUp(op') == GivenUp(op) + 1)
            && (op.at.Sweeping? ==> GivenUp(op') == 0)
  {
    if op.at.Trying? {
      var order := OrderOf(op.release);
      assert op.rest[0] == order[GivenUp(op) + 1];
    }
  }

  lemma FileTakesTurns(sha: Bytes -> string, w: World, id: nat, e: D.Event)
    requires AllInTurn(w)
    ensures AllInTurn(DoFile(sha, w, id, e))
  {
    hide D.Step;
  }

  lemma RestTakesTurns(sha: Bytes -> string, w: World, a: Action)
    requires AllInTurn(w) && (a.FinishDownload? || a.ReleaseDownload? || a.StartInstall? || a.Installed? ||
                              a.NotInstalled? || a.CallCancel? || a.Restart?)
    ensures AllInTurn(Step(sha, w, a))
  {
    hide Step, DownloadFinish, DownloadRelease, InstallBegin, ForgetReady, InstallFailed, Boot, Located, AllInTurn;
    FetchStepIs(sha, w, a);
    InstallStepIs(sha, w, a);
    TurnFrame(w, Step(sha, w, a));
  }

  lemma OthersTakeTurns(sha: Bytes -> string, w: World, a: Action)
    requires AllInTurn(w) && (a.StartDownload? || a.Sweep? || a.Report? || a.StartQuit? || a.Skip? || a.ReadCancel? || a.Pump?)
    ensures AllInTurn(Step(sha, w, a))
  {
    hide Step, Progress, QuitBegin, SkipVersion, P.Step, AllInTurn;
    OtherStepIs(sha, w, a);
    TurnFrame(w, Step(sha, w, a));
  }

  lemma StepTakesTurns(sha: Bytes -> string, w: World, a: Action)
    requires AllInTurn(w)
    ensures AllInTurn(Step(sha, w, a))
  {
    hide Step, AllInTurn, DoBeginDownload, DoNextMirror, DoFile;
    FetchStepIs(sha, w, a);
    if a.StartCheck? || a.MakePlan? || a.NoAnswer? || a.FinishCheck? { ChecksTakeTurns(sha, w, a); }
    else if a.Answer? { AnswersTakeTurns(sha, w, a); }
    else if a.BeginDownload? { BeginTakesTurns(w, a.id, a.message, a.policy); }
    else if a.NextMirror? { NextTakesTurns(w, a.id, a.policy); }
    else if a.FileStep? { FileTakesTurns(sha, w, a.id, a.file); }
    else if a.StartDownload? || a.Sweep? || a.Report? || a.StartQuit? || a.Skip? || a.ReadCancel? || a.Pump? {
      OthersTakeTurns(sha, w, a);
    } else {
      RestTakesTurns(sha, w, a);
    }
  }

  /** In every reachable state every download is at the next mirror of its release's order. */
  lemma {:induction false} ReachableInTurn(sha: Bytes -> string, directory: string, session: Session,
                                           actions: seq<Action>)
    ensures AllInTurn(Exec(sha, directory, session, actions))
    decreases |actions|
  {
    hide Step, AllInTurn;
    if actions == [] {
      NobodyFetches(directory, session);
    } else {
      ReachableInTurn(sha, directory, session, actions[..|actions| - 1]);
      StepTakesTurns(sha, Exec(sha, directory, session, actions[..|actions| - 1]), actions[|actions| - 1]);
    }
  }

  lemma NobodyFetches(directory: string, session: Session)
    ensures AllInTurn(Launch(directory, session))
  {
  }

  // ----- every mirror had its turn ------------------------------------------------------

  /** At some moment of the run call id was at mirror j of its order, and the attempt had failed. */
  ghost predicate FailedAt(sha: Bytes -> string, directory: string, session: Session, actions: seq<Action>, id: nat,
                           r: Release, j: int)
  {
    exists t :: 0 <= t <= |actions| && HasFailed(Exec(sha, directory, session, actions[..t]), id, r, j)
  }

  predicate HasFailed(w: World, id: nat, r: Release, j: int) {
    && id in w.ops && w.ops[id].Fetching? && w.ops[id].release == r && GivenUp(w.ops[id]) == j
    && 0 <= j < |OrderOf(r)| && w.ops[id].at.Trying? && w.ops[id].at.mirror == OrderOf(r)[j]
    && w.ops[id].at.pc.Failed? && w.ops[id].at.pc.reason != D.Cancelled
  }

  /** A fetch moves on within its release, staying at its mirror or going on from one that failed. */
  lemma FetchMovesOn(sha: Bytes -> string, w: World, a: Action, id: nat)
    requires AllInTurn(w) && Numbered(w)
    requires id in Step(sha, w, a).ops && Step(sha, w, a).ops[id].Fetching? && Step(sha, w, a).ops[id].at.Trying?
    ensures id in w.ops
    ensures var op' := Step(sha, w, a).ops[id];
            || (&& w.ops[id].Fetching? && w.ops[id].release == op'.release && w.ops[id].at.Trying?
                && GivenUp(w.ops[id]) == GivenUp(op'))
            || (w.ops[id].Fetching? && w.ops[id].release == op'.release && w.ops[id].at.Sweeping? && GivenUp(op') == 0)
            || HasFailed(w, id, op'.release, GivenUp(op') - 1)
  {
    hide Step, AllInTurn, DoBeginDownload, DoNextMirror, DoFile;
    FetchStepIs(sha, w, a);
    if a.NextMirror? { NextMovesOn(w, a.id, a.policy, id); }
    else if a.FileStep? { FileMovesOn(sha, w, a.id, a.file, id); }
    else if a.BeginDownload? { BeginTriesNone(w, a.id, a.message, a.policy, id); }
    else { OthersStay(sha, w, a, id); }
  }

  lemma NextMovesOn(w: World, n: nat, policy: Policy, id: nat)
    requires AllInTurn(w)
    requires var w' := DoNextMirror(w, n, policy); id in w'.ops && w'.ops[id].Fetching? && w'.ops[id].at.Trying?
    ensures id in w.ops
    ensures var op' := DoNextMirror(w, n, policy).ops[id];
            || (&& w.ops[id].Fetching? && w.ops[id].release == op'.release && w.ops[id].at.Trying?
                && GivenUp(w.ops[id]) == GivenUp(op'))
            || (w.ops[id].Fetching? && w.ops[id].release == op'.release && w.ops[id].at.Sweeping? && GivenUp(op') == 0)
            || HasFailed(w, id, op'.release, GivenUp(op') - 1)
  {
    hide AttemptBegin;
    if n in w.ops && w.ops[n].Fetching? && w.ops[n].rest != [] { NextInTurn(w.ops[n]); }
    assert id in w.ops ==> InTurn(w.ops[id]);
  }

  lemma FileMovesOn(sha: Bytes -> string, w: World, n: nat, e: D.Event, id: nat)
    requires var w' := DoFile(sha, w, n, e); id in w'.ops && w'.ops[id].Fetching? && w'.ops[id].at.Trying?
    ensures id in w.ops
    ensures var op' := DoFile(sha, w, n, e).ops[id];
            && w.ops[id].Fetching? && w.ops[id].release == op'.release && w.ops[id].at.Trying?
            && GivenUp(w.ops[id]) == GivenUp(op')
  {
    hide D.Step;
  }

  lemma BeginTriesNone(w: World, n: nat, message: string, policy: Policy, id: nat)
    requires var w' := DoBeginDownload(w, n, message, policy); id in w'.ops && w'.ops[id].Fetching? && w'.ops[id].at.Trying?
    ensures id in w.ops && w.ops[id] == DoBeginDownload(w, n, message, policy).ops[id]
  {
    hide DownloadBegin;
  }

  lemma OthersStay(sha: Bytes -> string, w: World, a: Action, id: nat)
    requires Numbered(w) && !a.NextMirror? && !a.FileStep? && !a.BeginDownload?
    requires id in Step(sha, w, a).ops && Step(sha, w, a).ops[id].Fetching?
    ensures id in w.ops && w.ops[id] == Step(sha, w, a).ops[id]
  {
    hide Step, CheckBegin, PlanMirrors, CheckFailed, SetError, CheckDone, AutoDownload, Remember, Conclude, Answers;
    hide DownloadFinish, DownloadRelease, InstallBegin, ForgetReady, InstallFailed, Boot, Located;
    hide Progress, QuitBegin, SkipVersion, P.Step;
    if a.StartCheck? || a.MakePlan? || a.Answer? || a.NoAnswer? || a.FinishCheck? { CheckStepIs(sha, w, a); }
    else if a.FinishDownload? || a.ReleaseDownload? { FetchStepIs(sha, w, a); }
    else if a.StartInstall? || a.Installed? || a.NotInstalled? || a.CallCancel? || a.Restart? { InstallStepIs(sha, w, a); }
    else { OtherStepIs(sha, w, a); }
  }

  /** Whatever mirror a download is at, every one before it in the order was tried and failed. */
  lemma {:induction false} EarlierOnesFailed(sha: Bytes -> string, directory: string, session: Session,
                                             actions: seq<Action>, id: nat, j: nat)
    requires Located(session.location)
    requires var w := Exec(sha, directory, session, actions);
             id in w.ops && w.ops[id].Fetching? && w.ops[id].at.Trying? && j < GivenUp(w.ops[id])
    ensures FailedAt(sha, directory, session, actions, id, Exec(sha, directory, session, actions).ops[id].release, j)
    decreases |actions|
  {
    hide Step, Launch, AllInTurn, Inv, HasFailed, Located;
    if actions == [] {
      NobodyIsFetching(directory, session);
    } else {
      var init, a := actions[..|actions| - 1], actions[|actions| - 1];
      var w, w' := Exec(sha, directory, session, init), Exec(sha, directory, session, actions);
      ReachableInTurn(sha, directory, session, init);
      ReachableInv(sha, directory, session, init);
      AreNumbered(sha, w);
      FetchMovesOn(sha, w, a, id);
      var r := w'.ops[id].release;
      if HasFailed(w, id, r, GivenUp(w'.ops[id]) - 1) { FailureIsFetch(w, id, r, GivenUp(w'.ops[id]) - 1); }
      if HasFailed(w, id, r, GivenUp(w'.ops[id]) - 1) && j == GivenUp(w'.ops[id]) - 1 {
        assert actions[..|init|] == init;
      } else {
        EarlierOnesFailed(sha, directory, session, init, id, j);
        var t :| 0 <= t <= |init| && HasFailed(Exec(sha, directory, session, init[..t]), id, r, j);
        assert actions[..t] == init[..t];
      }
    }
  }

  lemma NobodyIsFetching(directory: string, session: Session)
    ensures Launch(directory, session).ops == map[]
  {
  }

  lemma FailureIsFetch(w: World, id: nat, r: Release, j: int)
    requires HasFailed(w, id, r, j)
    ensures id in w.ops && w.ops[id].Fetching? && w.ops[id].at.Trying? && GivenUp(w.ops[id]) == j && w.ops[id].release == r
  {
  }

  /** A listed release fails to download only once every mirror of its order was tried and failed. */
  lemma {:induction false} BrokenAfterEveryMirror(sha: Bytes -> string, directory: string, session: Session,
                                                  actions: seq<Action>, id: nat, message: string)
    requires Located(session.location)
    requires var w := Exec(sha, directory, session, actions);
             id in w.ops && w.ops[id].Fetching? && !w.ops[id].at.Unlisted?
             && EndingOf(w.sh, w.ops[id], message) == Some(Broken(message))
    ensures var r := Exec(sha, directory, session, actions).ops[id].release;
            forall j :: 0 <= j < |OrderOf(r)| ==> FailedAt(sha, directory, session, actions, id, r, j)
  {
    hide Step, Launch, Inv, Exec, Located;
    ReachableInTurn(sha, directory, session, actions);
    var w := Exec(sha, directory, session, actions);
    var op := w.ops[id];
    assert InTurn(op) && op.rest == [];
    var last := |OrderOf(op.release)| - 1;
    assert HasFailed(w, id, op.release, last);
    hide HasFailed, InTurn;
    forall j | 0 <= j < |OrderOf(op.release)| ensures FailedAt(sha, directory, session, actions, id, op.release, j) {
      if j == last {
        assert actions[..|actions|] == actions;
      } else {
        EarlierOnesFailed(sha, directory, session, actions, id, j);
      }
    }
  }
}
