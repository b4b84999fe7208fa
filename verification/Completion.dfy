/** No call is ever stuck: from every reachable state some continuation ends every call in flight. */
module Completion {
  import opened Text
  import opened Mirrors
  import opened Disk
  import opened Checking
  import opened Sections
  import opened Lifecycle
  import opened Invariants
  import opened Steps
  import opened Guarantees
  import D = Download
  import P = Publisher

  /** What a call does next on its own when nothing it asks for comes and nothing it writes goes through. */
  function NextFile(pc: D.Pc): D.Event {
    match pc
    case Connecting => D.GiveUp(D.Io(""))
    case Copying(_) => D.Stop(D.Io(""))
    case Verified(_) => D.ClearDest(false)
    case Cleared(_) => D.Event.Rename(false)
    case _ => D.RemovePart(false)
  }

  function NextFetch(id: nat, rest: seq<Mirror>, at: FetchPc): Action {
    var finish, next := FinishDownload(id, "", NotWritten, PolicyOff), NextMirror(id, PolicyOff);
    match at
    case Unlisted => finish
    case Sweeping => next
    case Trying(_, pc) =>
      if pc.Renamed? then finish
      else if !pc.Failed? then FileStep(id, NextFile(pc))
      else if rest != [] && pc.reason != D.Cancelled then next
      else finish
  }

  function NextStep(id: nat, op: Op): Action {
    match op
    case CheckPlan(_) => MakePlan(id, false)
    case CheckAsk(_, _) => NoAnswer(id, "", "", NotWritten, PolicyOff)
    case CheckTold(_, _) => FinishCheck(id, "", NotWritten, PolicyOff, PolicyOff)
    case PrePlan => MakePlan(id, false)
    case PreAsk(_) => NoAnswer(id, "", "", NotWritten, PolicyOff)
    case Pending(_) => BeginDownload(id, "", PolicyOff)
    case Fetching(_, rest, at) => NextFetch(id, rest, at)
    case Closing => ReleaseDownload(id)
    case Installing(_, _) => NotInstalled(id, "", PolicyOff)
    case Quitting(_, _) => NotInstalled(id, "", PolicyOff)
    case Cancelling(_) => CallCancel(id)
  }

  // ----- how much a call has left -------------------------------------------------------

  /** How many sections a call has before it. */
  function Stage(op: Op): nat {
    match op
    case PrePlan => 4
    case PreAsk(_) => 3
    case Pending(_) => 2
    case Fetching(_, _, _) => 1
    case CheckPlan(_) => 2
    case CheckAsk(_, _) => 1
    case _ => 0
  }

  function LeftOfFile(pc: D.Pc): nat {
    match pc
    case Connecting => 5
    case Copying(_) => 4
    case Verified(_) => 3
    case Cleared(_) => 2
    case CleaningUp(_) => 1
    case _ => 0
  }

  /** How much is left of a fetch: its mirrors, then the steps of the attempt under way. */
  function Left(op: Op): nat {
    if op.Fetching? then 8 * |op.rest| + (if op.at.Trying? then LeftOfFile(op.at.pc) else 0) else 0
  }

  /** Call a, moved on to b, has strictly less before it. */
  predicate Nearer(a: Op, b: Op) {
    Stage(b) < Stage(a) || (Stage(b) == Stage(a) && Left(b) < Left(a))
  }

  /** Call id has ended, or is nearer its end; the other calls are as they were. */
  predicate Moved(w: World, w': World, id: nat)
    requires id in w.ops
  {
    && w'.ops - {id} == w.ops - {id}
    && (id in w'.ops ==> Nearer(w.ops[id], w'.ops[id]))
  }

  predicate Checks(op: Op) { IsCheck(op) || op.PrePlan? || op.PreAsk? }

  lemma ChecksMove(sha: Bytes -> string, w: World, id: nat)
    requires id in w.ops && Checks(w.ops[id])
    ensures Moved(w, Step(sha, w, NextStep(id, w.ops[id])), id)
  {
    hide PlanMirrors, CheckFailed, SetError, CheckDone, Step;
    CheckStepIs(sha, w, NextStep(id, w.ops[id]));
  }

  lemma OthersMove(sha: Bytes -> string, w: World, id: nat)
    requires id in w.ops && !Checks(w.ops[id]) && !w.ops[id].Pending? && !w.ops[id].Fetching?
    ensures Moved(w, Step(sha, w, NextStep(id, w.ops[id])), id)
  {
    hide InstallFailed, DownloadRelease, Step;
    InstallStepIs(sha, w, NextStep(id, w.ops[id]));
    FetchStepIs(sha, w, NextStep(id, w.ops[id]));
  }

  lemma PendingMoves(sha: Bytes -> string, w: World, id: nat)
    requires id in w.ops && w.ops[id].Pending?
    ensures Moved(w, Step(sha, w, NextStep(id, w.ops[id])), id)
  {
    hide DownloadBegin, Step;
    FetchStepIs(sha, w, NextStep(id, w.ops[id]));
  }

  /** The attempt under way gives up. */
  lemma AttemptMoves(sha: Bytes -> string, w: World, id: nat, pc: D.Pc)
    requires IsAt(w, id, false) && w.ops[id].at.pc == pc && !pc.Failed? && !pc.Renamed?
    ensures Moved(w, DoFile(sha, w, id, NextFile(pc)), id)
  {
    var op := w.ops[id];
    var (f, pc') := D.Step(sha, DestOf(w.sh, op.release), WantOf(w.sh, op.release), w.sh.files, pc, NextFile(pc));
    assert LeftOfFile(pc') < LeftOfFile(pc);
    hide D.Step, NextFile, LeftOfFile;
  }

  lemma FetchMoves(sha: Bytes -> string, w: World, id: nat)
    requires id in w.ops && w.ops[id].Fetching? && (w.ops[id].at.Sweeping? ==> w.ops[id].rest != [])
    ensures Moved(w, Step(sha, w, NextStep(id, w.ops[id])), id)
  {
    hide AttemptBegin, DownloadFinish, Step, DoFile;
    FetchStepIs(sha, w, NextStep(id, w.ops[id]));
    var at := w.ops[id].at;
    if at.Trying? && !at.pc.Failed? && !at.pc.Renamed? { AttemptMoves(sha, w, id, at.pc); }
  }

  lemma CallMoves(sha: Bytes -> string, w: World, id: nat)
    requires Inv(sha, w) && id in w.ops
    ensures Moved(w, Step(sha, w, NextStep(id, w.ops[id])), id)
  {
    hide Step, Moved, NextStep, Control, SharedOk, FetchOk, ReleaseOk;
    assert OpOk(w.sh.session, w.sh.directory, w.seen, w.ops[id]);
    if w.ops[id].Pending? { PendingMoves(sha, w, id); }
    else if w.ops[id].Fetching? { FetchMoves(sha, w, id); }
    else if Checks(w.ops[id]) { ChecksMove(sha, w, id); }
    else { OthersMove(sha, w, id); }
  }

  // ----- whatever a call does, it gets nearer its end -----------------------------------

  /** Calls stay where they are, end, or get nearer their end. */
  predicate AllNearer(w: World, w': World) {
    forall id :: id in w.ops && id in w'.ops ==> w'.ops[id] == w.ops[id] || Nearer(w.ops[id], w'.ops[id])
  }

  ghost predicate Numbered(w: World) { forall id :: id in w.ops ==> id < w.next }

  lemma ChecksGetNearer(sha: Bytes -> string, w: World, a: Action)
    requires Numbered(w) && (a.StartCheck? || a.MakePlan? || a.NoAnswer? || a.FinishCheck?)
    ensures AllNearer(w, Step(sha, w, a))
  {
    hide Step, CheckBegin, PlanMirrors, CheckFailed, SetError, CheckDone, AutoDownload;
    CheckStepIs(sha, w, a);
  }

  lemma AnswersGetNearer(sha: Bytes -> string, w: World, a: Action)
    requires Numbered(w) && a.Answer?
    ensures AllNearer(w, Step(sha, w, a))
  {
    hide Step, Remember, Conclude, Answers;
    CheckStepIs(sha, w, a);
  }

  lemma FetchesGetNearer(sha: Bytes -> string, w: World, a: Action)
    requires Numbered(w) && (a.BeginDownload? || a.NextMirror? || a.FinishDownload? || a.ReleaseDownload?)
    ensures AllNearer(w, Step(sha, w, a))
  {
    hide Step, DownloadBegin, AttemptBegin, DownloadFinish, DownloadRelease;
    FetchStepIs(sha, w, a);
  }

  lemma AttemptsGetNearer(sha: Bytes -> string, w: World, a: Action)
    requires a.FileStep? && !a.file.Append?
    ensures AllNearer(w, Step(sha, w, a))
  {
    hide Step;
    FetchStepIs(sha, w, a);
  }

  lemma InstallsGetNearer(sha: Bytes -> string, w: World, a: Action)
    requires Numbered(w) && (a.StartInstall? || a.Installed? || a.NotInstalled? || a.CallCancel? || a.Restart?)
    ensures AllNearer(w, Step(sha, w, a))
  {
    hide Step, InstallBegin, ForgetReady, InstallFailed, Boot, Located;
    InstallStepIs(sha, w, a);
  }

  lemma RestGetNearer(sha: Bytes -> string, w: World, a: Action)
    requires Numbered(w) && (a.StartDownload? || a.Sweep? || a.Report? || a.StartQuit? || a.Skip? || a.ReadCancel? || a.Pump?)
    ensures AllNearer(w, Step(sha, w, a))
  {
    hide Step, Progress, QuitBegin, SkipVersion, P.Step;
    OtherStepIs(sha, w, a);
  }

  /**
   * No step of anything takes a call further from its end, and every step that moves a call brings it
   * nearer, save for bytes that keep coming: no call goes round in circles.
   */
  lemma NoCallGoesBack(sha: Bytes -> string, w: World, a: Action)
    requires Inv(sha, w) && !(a.FileStep? && a.file.Append?)
    ensures AllNearer(w, Step(sha, w, a))
  {
    AreNumbered(sha, w);
    hide Inv, Step, AllNearer;
    if a.StartCheck? || a.MakePlan? || a.NoAnswer? || a.FinishCheck? { ChecksGetNearer(sha, w, a); }
    else if a.Answer? { AnswersGetNearer(sha, w, a); }
    else if a.BeginDownload? || a.NextMirror? || a.FinishDownload? || a.ReleaseDownload? { FetchesGetNearer(sha, w, a); }
    else if a.FileStep? { AttemptsGetNearer(sha, w, a); }
    else if a.StartInstall? || a.Installed? || a.NotInstalled? || a.CallCancel? || a.Restart? { InstallsGetNearer(sha, w, a); }
    else { RestGetNearer(sha, w, a); }
  }

  lemma AreNumbered(sha: Bytes -> string, w: World)
    requires Inv(sha, w)
    ensures Numbered(w)
  {
    hide SharedOk, OpsOk, FetchOk, OwnerOk, PhaseOk;
  }

  // ----- until all have ended -----------------------------------------------------------

  ghost function RunOn(sha: Bytes -> string, w: World, more: seq<Action>): World
    decreases |more|
  {
    if more == [] then w else Step(sha, RunOn(sha, w, more[..|more| - 1]), more[|more| - 1])
  }

  /** Every action is the next step, as above, of some call in flight: no request is answered and no write goes through. */
  ghost predicate AllFailing(sha: Bytes -> string, w: World, more: seq<Action>)
    decreases |more|
  {
    more != [] ==>
      var init := more[..|more| - 1];
      && AllFailing(sha, w, init)
      && exists id :: id in RunOn(sha, w, init).ops && more[|more| - 1] == NextStep(id, RunOn(sha, w, init).ops[id])
  }

  lemma {:induction false} ExecGoesOn(sha: Bytes -> string, directory: string, session: Session,
                                      actions: seq<Action>, more: seq<Action>)
    ensures Exec(sha, directory, session, actions + more) == RunOn(sha, Exec(sha, directory, session, actions), more)
    decreases |more|
  {
    hide Step, Launch;
    if more == [] {
      assert actions + more == actions;
    } else {
      var init := more[..|more| - 1];
      assert (actions + more)[..|actions + more| - 1] == actions + init;
      ExecGoesOn(sha, directory, session, actions, init);
    }
  }

  lemma {:induction false} RunOnTwice(sha: Bytes -> string, w: World, a: seq<Action>, b: seq<Action>)
    ensures RunOn(sha, w, a + b) == RunOn(sha, RunOn(sha, w, a), b)
    ensures AllFailing(sha, w, a) && AllFailing(sha, RunOn(sha, w, a), b) ==> AllFailing(sha, w, a + b)
    decreases |b|
  {
    hide Step, NextStep;
    if b == [] {
      assert a + b == a;
    } else {
      assert (a + b)[..|a + b| - 1] == a + b[..|b| - 1];
      RunOnTwice(sha, w, a, b[..|b| - 1]);
    }
  }

  lemma RunOnOne(sha: Bytes -> string, w: World, id: nat)
    requires id in w.ops
    ensures var a := NextStep(id, w.ops[id]);
            RunOn(sha, w, [a]) == Step(sha, w, a) && AllFailing(sha, w, [a])
  {
    hide Step, NextStep;
    var a := NextStep(id, w.ops[id]);
    assert [a][..0] == [];
    assert RunOn(sha, w, []) == w && AllFailing(sha, w, []);
  }

  /** A call in flight can end, leaving the others alone. */
  lemma {:induction false} CallCanEnd(sha: Bytes -> string, w: World, id: nat) returns (more: seq<Action>)
    requires Inv(sha, w) && id in w.ops
    ensures AllFailing(sha, w, more)
    ensures Inv(sha, RunOn(sha, w, more)) && RunOn(sha, w, more).ops == w.ops - {id}
    decreases Stage(w.ops[id]), Left(w.ops[id])
  {
    hide Step, Inv, NextStep, Left, Stage, RunOn, AllFailing;
    var a := NextStep(id, w.ops[id]);
    var w' := Step(sha, w, a);
    CallMoves(sha, w, id);
    StepKeepsInv(sha, w, a);
    RunOnOne(sha, w, id);
    if id in w'.ops {
      var rest := CallCanEnd(sha, w', id);
      RunOnTwice(sha, w, [a], rest);
      more := [a] + rest;
    } else {
      assert w'.ops - {id} == w'.ops;
      more := [a];
    }
  }

  lemma {:induction false} CallsCanEnd(sha: Bytes -> string, w: World) returns (more: seq<Action>)
    requires Inv(sha, w)
    ensures AllFailing(sha, w, more)
    ensures Inv(sha, RunOn(sha, w, more)) && RunOn(sha, w, more).ops == map[]
    decreases |w.ops|
  {
    hide Step, Inv;
    if w.ops == map[] {
      more := [];
    } else {
      var id :| id in w.ops;
      var one := CallCanEnd(sha, w, id);
      assert |w.ops - {id}| < |w.ops| by { assert w.ops.Keys - {id} == (w.ops - {id}).Keys; }
      var rest := CallsCanEnd(sha, RunOn(sha, w, one));
      RunOnTwice(sha, w, one, rest);
      more := one + rest;
    }
  }

  /**
   * Whatever has happened so far, and though from now on every request goes unanswered and every write
   * fails, all calls can end, and then no phase claims work.
   */
  lemma NothingGetsStuck(sha: Bytes -> string, directory: string, session: Session, actions: seq<Action>)
    returns (more: seq<Action>)
    requires Located(session.location)
    ensures AllFailing(sha, Exec(sha, directory, session, actions), more)
    ensures var w := Exec(sha, directory, session, actions + more);
            var phase := w.sh.state.phase;
            && w.ops == map[] && !w.sh.busy && w.sh.cancel == None
            && (phase == PhaseIdle || phase == PhaseAvailable || phase == PhaseReady || phase == PhaseError)
  {
    hide Exec, Inv, RunOn, AllFailing;
    ReachableInv(sha, directory, session, actions);
    more := CallsCanEnd(sha, Exec(sha, directory, session, actions));
    ExecGoesOn(sha, directory, session, actions, more);
    PhasesNameWork(sha, directory, session, actions + more);
    OneAtATime(sha, directory, session, actions + more);
    assert Exec(sha, directory, session, actions + more).sh.cancel == None;
  }
}
