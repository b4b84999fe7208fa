/** Swapping the installed application for the downloaded one: internal/update/apply.go. */
module Apply {
  import opened Text
  import opened Target

  /** What is found at a path: a tree holding a complete application, or the remains of one. */
  datatype Tree = Holds(build: string) | Broken

  type Trees = map<string, Tree>

  /** The three paths a bundle swap moves between. */
  datatype Places = Places(bundle: string, staging: string, previous: string) {
    predicate Valid() { bundle != staging && bundle != previous && staging != previous }
  }

  /** .<name>.new and .<name>.old beside <name>. */
  function Beside(parent: string, name: string): (p: Places)
    ensures p.Valid()
  {
    var p := Places(parent + "/" + name, parent + "/." + name + ".new", parent + "/." + name + ".old");
    assert |p.bundle| < |p.staging| == |p.previous|;
    assert p.staging[|p.staging| - 1] == 'w' && p.previous[|p.previous| - 1] == 'd';
    p
  }

  predicate Complete(trees: Trees, path: string) { path in trees && trees[path].Holds? }

  predicate CompleteWith(trees: Trees, path: string, build: string) { path in trees && trees[path] == Holds(build) }

  // ----- applyBundle as atomic steps ----------------------------------------------------

  datatype Reason = NotOpened | NotCopied | NotMovedAside | NotMovedIn | Stranded

  datatype Pc =
    | Start
    | ClearNew            // RemoveAll(staging), leftovers of an earlier run
    | ClearOld            // RemoveAll(previous)
    | Copy                // ditto
    | MoveAside           // Rename(bundle, previous)
    | MoveIn              // Rename(staging, bundle)
    | PutBack             // Rename(previous, bundle)
    | DropNew(why: Reason)
    | DropOld
    | Done
    | Failed(reason: Reason)

  datatype Event =
    | Refuse              // mount, attach or the look inside the image failed
    | Mounted
    | Gnaw                // a removal got part way through a tree
    | Erased              // a removal finished
    | Leave               // a removal gave up; its error is ignored
    | CopyPart            // ditto wrote some of the tree
    | CopyFailed
    | Copied
    | Renamed
    | NotRenamed

  /** The tree a removal is working on at this point. */
  function Removing(at: Places, pc: Pc): Option<string> {
    match pc
    case ClearNew => Some(at.staging)
    case ClearOld => Some(at.previous)
    case DropNew(_) => Some(at.staging)
    case DropOld => Some(at.previous)
    case _ => None
  }

  function AfterRemoval(pc: Pc): Pc {
    match pc
    case ClearNew => ClearOld
    case ClearOld => Copy
    case DropNew(why) => Failed(why)
    case DropOld => Done
    case _ => pc
  }

  /**
   * A rename of one directory onto another only succeeds where nothing is in the way, or, on some systems,
   * an emptied directory.
   */
  predicate CanRename(trees: Trees, source: string, destination: string) {
    source in trees && !Complete(trees, destination)
  }

  function Moved(trees: Trees, source: string, destination: string): Trees
    requires source in trees
  {
    (trees - {source})[destination := trees[source]]
  }

  /** One atomic effect. `build` is what the mounted image holds. */
  function Step(at: Places, build: string, trees: Trees, pc: Pc, e: Event): (Trees, Pc) {
    if Removing(at, pc).Some? then
      var path := Removing(at, pc).value;
      match e
      case Gnaw => (if path in trees then trees[path := Broken] else trees, pc)
      case Erased => (trees - {path}, AfterRemoval(pc))
      case Leave => (trees, AfterRemoval(pc))
      case _ => (trees, pc)
    else
      match (pc, e)
      case (Start, Refuse) => (trees, Failed(NotOpened))
      case (Start, Mounted) => (trees, ClearNew)
      case (Copy, CopyPart) => (trees[at.staging := Broken], pc)
      case (Copy, CopyFailed) => (trees, DropNew(NotCopied))
      case (Copy, Copied) => (trees[at.staging := Holds(build)], MoveAside)
      case (MoveAside, Renamed) =>
        if CanRename(trees, at.bundle, at.previous) then (Moved(trees, at.bundle, at.previous), MoveIn)
        else (trees, DropNew(NotMovedAside))
      case (MoveAside, NotRenamed) => (trees, DropNew(NotMovedAside))
      case (MoveIn, Renamed) =>
        if CanRename(trees, at.staging, at.bundle) then (Moved(trees, at.staging, at.bundle), DropOld)
        else (trees, PutBack)
      case (MoveIn, NotRenamed) => (trees, PutBack)
      case (PutBack, Renamed) =>
        if CanRename(trees, at.previous, at.bundle) then (Moved(trees, at.previous, at.bundle), DropNew(NotMovedIn))
        else (trees, DropNew(Stranded))
      case (PutBack, NotRenamed) => (trees, DropNew(Stranded))
      case _ => (trees, pc)
  }

  function Run(at: Places, build: string, trees: Trees, pc: Pc, events: seq<Event>): (Trees, Pc)
    decreases |events|
  {
    if events == [] then (trees, pc)
    else
      var (t, p) := Run(at, build, trees, pc, events[..|events| - 1]);
      Step(at, build, t, p, events[|events| - 1])
  }

  lemma {:induction false} RunSnoc(at: Places, build: string, trees: Trees, pc: Pc, events: seq<Event>, e: Event)
    ensures var (t, p) := Run(at, build, trees, pc, events);
            Run(at, build, trees, pc, events + [e]) == Step(at, build, t, p, e)
  {
    assert (events + [e])[..|events|] == events;
  }

  lemma NothingRun(at: Places, build: string, trees: Trees)
    ensures Run(at, build, trees, Start, []) == (trees, Start)
  {
  }

  lemma Refused(at: Places, build: string, trees: Trees)
    ensures Step(at, build, trees, Start, Refuse) == (trees, Failed(NotOpened))
  {
  }

  /** A complete application the user can still be given back: the old one, or the new one in place. */
  predicate Safe(at: Places, old_: string, build: string, trees: Trees) {
    || CompleteWith(trees, at.bundle, old_)
    || CompleteWith(trees, at.previous, old_)
    || CompleteWith(trees, at.bundle, build)
  }

  ghost predicate Inv(at: Places, old_: string, build: string, trees: Trees, pc: Pc) {
    match pc
    case Start => CompleteWith(trees, at.bundle, old_)
    case ClearNew => CompleteWith(trees, at.bundle, old_)
    case ClearOld => CompleteWith(trees, at.bundle, old_)
    case Copy => CompleteWith(trees, at.bundle, old_)
    case MoveAside => CompleteWith(trees, at.bundle, old_) && CompleteWith(trees, at.staging, build)
    case MoveIn => at.bundle !in trees && CompleteWith(trees, at.previous, old_) && CompleteWith(trees, at.staging, build)
    case PutBack => at.bundle !in trees && CompleteWith(trees, at.previous, old_)
    case DropNew(why) => CompleteWith(trees, if why == Stranded then at.previous else at.bundle, old_)
    case DropOld => CompleteWith(trees, at.bundle, build)
    case Done => CompleteWith(trees, at.bundle, build)
    case Failed(why) => CompleteWith(trees, if why == Stranded then at.previous else at.bundle, old_)
  }

  /**
   * From an intact bundle, with no other swap at work, whatever fails and wherever it stops: a complete
   * old application is at the bundle or at .old, or the complete new one is at the bundle. Success leaves
   * the new one in place; an error leaves the old one in place, or at .old when putting it back failed too.
   */
  lemma {:induction false} SwapIsSafe(at: Places, old_: string, build: string, trees: Trees, events: seq<Event>)
    requires at.Valid() && CompleteWith(trees, at.bundle, old_)
    ensures var (t, p) := Run(at, build, trees, Start, events);
            && Inv(at, old_, build, t, p)
            && Safe(at, old_, build, t)
            && (p == Done ==> CompleteWith(t, at.bundle, build))
            && (p.Failed? && p.reason != Stranded ==> CompleteWith(t, at.bundle, old_))
            && (p == Failed(Stranded) ==> CompleteWith(t, at.previous, old_))
    decreases |events|
  {
    if events != [] {
      SwapIsSafe(at, old_, build, trees, events[..|events| - 1]);
    }
  }

  predicate AnyComplete(at: Places, trees: Trees) {
    Complete(trees, at.bundle) || Complete(trees, at.staging) || Complete(trees, at.previous)
  }

  /** The guarantee needs an intact bundle to start from, and that is all it needs. */
  lemma SafeExactlyFromIntact(at: Places, build: string, trees: Trees)
    requires at.Valid()
    ensures Complete(trees, at.bundle) <==>
            forall events: seq<Event> :: AnyComplete(at, Run(at, build, trees, Start, events).0)
  {
    if Complete(trees, at.bundle) {
      forall events: seq<Event> ensures AnyComplete(at, Run(at, build, trees, Start, events).0) {
        SwapIsSafe(at, trees[at.bundle].build, build, trees, events);
      }
    } else {
      // An earlier swap that stopped half way left its only copies where this one clears first.
      var e1, e2, e3 := [Mounted], [Mounted, Erased], [Mounted, Erased, Erased];
      RunSnoc(at, build, trees, Start, [], Mounted);
      RunSnoc(at, build, trees, Start, e1, Erased);
      RunSnoc(at, build, trees, Start, e2, Erased);
      assert [] + [Mounted] == e1 && e1 + [Erased] == e2 && e2 + [Erased] == e3;
      assert !AnyComplete(at, Run(at, build, trees, Start, e3).0);
    }
  }

  /** The bundle is away: between the renames, or left so by a rollback that failed. */
  predicate Away(pc: Pc) {
    pc.MoveIn? || pc.PutBack? || pc == DropNew(Stranded) || pc == Failed(Stranded)
  }

  /** However a swap ends or is cut off, the bundle is complete exactly when it did not stop with the bundle away. */
  lemma {:induction false} WholeUnlessAway(at: Places, build: string, trees: Trees, events: seq<Event>)
    requires at.Valid() && Complete(trees, at.bundle)
    ensures var (t, p) := Run(at, build, trees, Start, events);
            if Away(p) then at.bundle !in t else Complete(t, at.bundle)
    decreases |events|
  {
    SwapIsSafe(at, trees[at.bundle].build, build, trees, events);
    if events != [] { WholeUnlessAway(at, build, trees, events[..|events| - 1]); }
  }

  /** Once the bundle is away no later swap brings it back: there is nothing to move aside. */
  lemma {:induction false} AwayStaysAway(at: Places, build: string, trees: Trees, events: seq<Event>)
    requires at.Valid() && at.bundle !in trees
    ensures var (t, p) := Run(at, build, trees, Start, events);
            && at.bundle !in t
            && (p.Start? || p.ClearNew? || p.ClearOld? || p.Copy? || p.MoveAside?
                || (p.DropNew? && p.why != Stranded) || (p.Failed? && p.reason != Stranded))
    decreases |events|
  {
    if events != [] { AwayStaysAway(at, build, trees, events[..|events| - 1]); }
  }

  /** One swap after another, each cut off anywhere or not at all. */
  function RunMany(at: Places, trees: Trees, runs: seq<(string, seq<Event>)>): Trees
    decreases |runs|
  {
    if runs == [] then trees
    else
      var (build, events) := runs[|runs| - 1];
      Run(at, build, RunMany(at, trees, runs[..|runs| - 1]), Start, events).0
  }

  /** Where swap k of a series stopped. */
  function StopOf(at: Places, trees: Trees, runs: seq<(string, seq<Event>)>, k: nat): Pc
    requires k < |runs|
  {
    Run(at, runs[k].0, RunMany(at, trees, runs[..k]), Start, runs[k].1).1
  }

  /** After any series of swaps the bundle is complete exactly when none of them stopped with it away. */
  lemma {:induction false} SwapsCompose(at: Places, trees: Trees, runs: seq<(string, seq<Event>)>)
    requires at.Valid() && Complete(trees, at.bundle)
    ensures if forall k :: 0 <= k < |runs| ==> !Away(StopOf(at, trees, runs, k))
            then Complete(RunMany(at, trees, runs), at.bundle)
            else at.bundle !in RunMany(at, trees, runs)
    decreases |runs|
  {
    hide Run, Away;
    if runs != [] {
      var n := |runs| - 1;
      var init := runs[..n];
      forall k | 0 <= k < n ensures StopOf(at, trees, init, k) == StopOf(at, trees, runs, k) {
        assert init[..k] == runs[..k];
      }
      SwapsCompose(at, trees, init);
      var before := RunMany(at, trees, init);
      assert RunMany(at, trees, runs) == Run(at, runs[n].0, before, Start, runs[n].1).0;
      assert StopOf(at, trees, runs, n) == Run(at, runs[n].0, before, Start, runs[n].1).1;
      if Complete(before, at.bundle) {
        WholeUnlessAway(at, runs[n].0, before, runs[n].1);
      } else {
        AwayStaysAway(at, runs[n].0, before, runs[n].1);
      }
    }
  }

  /**
   * A stranded swap followed by another in the same process, whose location is known already, can leave
   * no complete application anywhere.
   */
  lemma {:induction false} StrandedThenGone(at: Places, build: string, again: string, trees: Trees)
    returns (first: seq<Event>, second: seq<Event>)
    requires at.Valid() && Complete(trees, at.bundle)
    ensures Run(at, build, trees, Start, first).1 == Failed(Stranded)
    ensures !AnyComplete(at, RunMany(at, trees, [(build, first), (again, second)]))
  {
    hide Run, Step;
    var cleared := Cleared(at, build, trees);
    first := Strands(at, build, trees, cleared);
    var away := Run(at, build, trees, Start, first).0;
    second := Cleared(at, again, away);
    var runs := [(build, first), (again, second)];
    assert runs[..1] == [(build, first)] && runs[..1][..0] == [];
    assert RunMany(at, trees, []) == trees;
    assert RunMany(at, trees, runs[..1]) == away;
  }

  /** Both renames into place and the way back fail, and the new application is dropped. */
  lemma {:induction false} Strands(at: Places, build: string, trees: Trees,
                                   cleared: seq<Event>) returns (events: seq<Event>)
    requires at.Valid() && Complete(trees, at.bundle)
    requires Run(at, build, trees, Start, cleared) == (trees - {at.staging} - {at.previous}, Copy)
    ensures Run(at, build, trees, Start, events).1 == Failed(Stranded)
    ensures at.bundle !in Run(at, build, trees, Start, events).0
    ensures at.staging !in Run(at, build, trees, Start, events).0
  {
    hide Run;
    var e1 := cleared + [Copied];
    RunSnoc(at, build, trees, Start, cleared, Copied);
    var e2 := e1 + [Renamed];
    RunSnoc(at, build, trees, Start, e1, Renamed);
    var (t2, p2) := Run(at, build, trees, Start, e2);
    assert p2 == MoveIn && at.bundle !in t2;
    var e3 := e2 + [NotRenamed];
    RunSnoc(at, build, trees, Start, e2, NotRenamed);
    var e4 := e3 + [NotRenamed];
    RunSnoc(at, build, trees, Start, e3, NotRenamed);
    events := e4 + [Erased];
    RunSnoc(at, build, trees, Start, e4, Erased);
  }

  /** A swap that has opened the image and cleared both neighbours away. */
  lemma {:induction false} Cleared(at: Places, build: string, trees: Trees) returns (events: seq<Event>)
    ensures Run(at, build, trees, Start, events) == (trees - {at.staging} - {at.previous}, Copy)
  {
    var none: seq<Event> := [];
    var e1, e2 := none + [Mounted], none + [Mounted] + [Erased];
    RunSnoc(at, build, trees, Start, none, Mounted);
    RunSnoc(at, build, trees, Start, e1, Erased);
    RunSnoc(at, build, trees, Start, e2, Erased);
    events := e2 + [Erased];
  }

  // ----- applyBundle as the procedure it is ---------------------------------------------

  /** How far a removal gets. */
  datatype Removal = Untouched | Spoiled | Gone

  /**
   * What the calls of one applyBundle answer: whether the image mounts and holds an application of our name,
   * how far the removals get, whether ditto begins and finishes, and which of the renames are allowed.
   */
  datatype Luck = Luck(
    image: bool, clearedNew: Removal, clearedOld: Removal, begun: bool, copied: bool,
    aside: bool, moved: bool, back: bool, droppedNew: Removal, droppedOld: Removal)

  /** The application can be moved aside: the rename is allowed and nothing complete is left in its way. */
  predicate CanMoveAside(at: Places, trees: Trees, luck: Luck) {
    luck.aside && !(Complete(trees, at.previous) && luck.clearedOld.Untouched?)
  }

  /** How applyBundle ends over an intact bundle. */
  ghost predicate EndsAs(at: Places, trees: Trees, luck: Luck, failed: Option<Reason>) {
    && (failed.None? <==> luck.image && luck.copied && CanMoveAside(at, trees, luck) && luck.moved)
    && (failed == Some(NotOpened) <==> !luck.image)
    && (failed == Some(NotCopied) <==> luck.image && !luck.copied)
    && (failed == Some(NotMovedAside) <==> luck.image && luck.copied && !CanMoveAside(at, trees, luck))
    && (failed == Some(NotMovedIn) <==>
          luck.image && luck.copied && CanMoveAside(at, trees, luck) && !luck.moved && luck.back)
    && (failed == Some(Stranded) <==>
          luck.image && luck.copied && CanMoveAside(at, trees, luck) && !luck.moved && !luck.back)
  }

  class AppFolder {
    var trees: Trees

    constructor (trees: Trees)
      ensures this.trees == trees
    {
      this.trees := trees;
    }

    /** os.RemoveAll: may stop anywhere, and its callers ignore the error. */
    method RemoveAll(at: Places, build: string, path: string, ghost start: Trees, ghost events: seq<Event>, how: Removal)
      returns (ghost events': seq<Event>)
      requires Run(at, build, start, Start, events).0 == trees
      requires Removing(at, Run(at, build, start, Start, events).1) == Some(path)
      modifies this
      ensures Run(at, build, start, Start, events') ==
              (trees, AfterRemoval(Run(at, build, start, Start, events).1))
      ensures how.Gone? ==> trees == old(trees) - {path}
      ensures how.Untouched? ==> trees == old(trees)
      ensures how.Spoiled? ==> trees == if path in old(trees) then old(trees)[path := Broken] else old(trees)
    {
      hide Run;
      events' := events;
      match how {
        case Untouched =>
          RunSnoc(at, build, start, Start, events', Leave);
          events' := events' + [Leave];
        case Spoiled =>
          RunSnoc(at, build, start, Start, events', Gnaw);
          events' := events' + [Gnaw];
          if path in trees { trees := trees[path := Broken]; }
          RunSnoc(at, build, start, Start, events', Leave);
          events' := events' + [Leave];
        case Gone =>
          RunSnoc(at, build, start, Start, events', Erased);
          events' := events' + [Erased];
          trees := trees - {path};
      }
    }

    /** os.Rename of a directory. */
    method Rename(source: string, destination: string, allowed: bool) returns (ok: bool)
      modifies this
      ensures ok <==> allowed && CanRename(old(trees), source, destination)
      ensures trees == if ok then Moved(old(trees), source, destination) else old(trees)
    {
      ok := allowed && source in trees && (destination !in trees || trees[destination] == Broken);
      if ok { trees := (trees - {source})[destination := trees[source]]; }
    }

    /** applyBundle. */
    method ApplyBundle(at: Places, build: string, luck: Luck) returns (failed: Option<Reason>, ghost events: seq<Event>)
      requires at.Valid()
      modifies this
      ensures Run(at, build, old(trees), Start, events) ==
              (trees, if failed.None? then Done else Failed(failed.value))
      ensures Complete(old(trees), at.bundle) ==> EndsAs(at, old(trees), luck, failed)
      ensures Complete(old(trees), at.bundle) && failed.None? ==> CompleteWith(trees, at.bundle, build)
      ensures Complete(old(trees), at.bundle) && failed.Some? && failed.value != Stranded ==>
                CompleteWith(trees, at.bundle, old(trees)[at.bundle].build)
      ensures Complete(old(trees), at.bundle) && failed == Some(Stranded) ==>
                CompleteWith(trees, at.previous, old(trees)[at.bundle].build)
      // What was only staged or moved aside is dropped, as far as it will go.
      ensures failed.Some? && luck.image && luck.droppedNew.Gone? ==> at.staging !in trees
      ensures failed.None? && luck.droppedOld.Gone? ==> at.previous !in trees
    {
      failed, events := Swap(at, build, luck);
      if Complete(old(trees), at.bundle) {
        SwapIsSafe(at, old(trees)[at.bundle].build, build, old(trees), events);
      }
    }

    method Swap(at: Places, build: string, luck: Luck) returns (failed: Option<Reason>, ghost events: seq<Event>)
      requires at.Valid()
      modifies this
      ensures Run(at, build, old(trees), Start, events) ==
              (trees, if failed.None? then Done else Failed(failed.value))
      ensures Complete(old(trees), at.bundle) ==> EndsAs(at, old(trees), luck, failed)
      ensures failed.Some? && luck.image && luck.droppedNew.Gone? ==> at.staging !in trees
      ensures failed.None? && luck.droppedOld.Gone? ==> at.previous !in trees
    {
      hide Run, Step;
      if !luck.image {
        NothingRun(at, build, trees);
        Refused(at, build, trees);
        RunSnoc(at, build, trees, Start, [], Refuse);
        return Some(NotOpened), [] + [Refuse];
      }
      events := Clear(at, build, luck);
      failed, events := Stage(at, build, old(trees), events, luck);
      if failed.None? { failed, events := Exchange(at, build, old(trees), events, luck); }
    }

    /** The leftovers of an earlier run go, as far as they will. */
    method Clear(at: Places, build: string, luck: Luck) returns (ghost events: seq<Event>)
      requires at.Valid()
      modifies this
      ensures Run(at, build, old(trees), Start, events) == (trees, Copy)
      ensures Complete(trees, at.previous) <==> Complete(old(trees), at.previous) && luck.clearedOld.Untouched?
      ensures Complete(trees, at.bundle) <==> Complete(old(trees), at.bundle)
    {
      hide Run;
      ghost var start := trees;
      events := [];
      NothingRun(at, build, start);
      RunSnoc(at, build, start, Start, events, Mounted);
      events := events + [Mounted];
      events := RemoveAll(at, build, at.staging, start, events, luck.clearedNew);
      events := RemoveAll(at, build, at.previous, start, events, luck.clearedOld);
    }

    /** ditto. */
    method Stage(at: Places, build: string, ghost start: Trees, ghost events: seq<Event>, luck: Luck)
      returns (failed: Option<Reason>, ghost events': seq<Event>)
      requires at.Valid() && Run(at, build, start, Start, events) == (trees, Copy)
      modifies this
      ensures Run(at, build, start, Start, events') ==
              (trees, if failed.None? then MoveAside else Failed(failed.value))
      ensures failed == if luck.copied then None else Some(NotCopied)
      ensures luck.copied ==> trees == old(trees)[at.staging := Holds(build)]
      ensures !luck.copied && luck.droppedNew.Gone? ==> at.staging !in trees
    {
      hide Run;
      events' := events;
      if luck.begun {
        RunSnoc(at, build, start, Start, events', CopyPart);
        events' := events' + [CopyPart];
        trees := trees[at.staging := Broken];
      }
      if !luck.copied {
        RunSnoc(at, build, start, Start, events', CopyFailed);
        events' := RemoveAll(at, build, at.staging, start, events' + [CopyFailed], luck.droppedNew);
        return Some(NotCopied), events';
      }
      RunSnoc(at, build, start, Start, events', Copied);
      events' := events' + [Copied];
      trees := trees[at.staging := Holds(build)];
      return None, events';
    }

    /** The two renames, the rollback and the cleanup. */
    method Exchange(at: Places, build: string, ghost start: Trees, ghost events: seq<Event>, luck: Luck)
      returns (failed: Option<Reason>, ghost events': seq<Event>)
      requires at.Valid() && Run(at, build, start, Start, events) == (trees, MoveAside)
      requires at.staging in trees
      modifies this
      ensures Run(at, build, start, Start, events') ==
              (trees, if failed.None? then Done else Failed(failed.value))
      ensures var aside := luck.aside && CanRename(old(trees), at.bundle, at.previous);
              && (failed == Some(NotMovedAside) <==> !aside)
              && (failed.None? <==> aside && luck.moved)
              && (failed == Some(NotMovedIn) <==> aside && !luck.moved && luck.back)
              && (failed == Some(Stranded) <==> aside && !luck.moved && !luck.back)
      ensures failed.Some? && luck.droppedNew.Gone? ==> at.staging !in trees
      ensures failed.None? && luck.droppedOld.Gone? ==> at.previous !in trees
    {
      hide Run;
      var aside := Rename(at.bundle, at.previous, luck.aside);
      if !aside {
        RunSnoc(at, build, start, Start, events, NotRenamed);
        events' := RemoveAll(at, build, at.staging, start, events + [NotRenamed], luck.droppedNew);
        return Some(NotMovedAside), events';
      }
      RunSnoc(at, build, start, Start, events, Renamed);
      failed, events' := Install(at, build, start, events + [Renamed], luck);
    }

    method Install(at: Places, build: string, ghost start: Trees, ghost events: seq<Event>, luck: Luck)
      returns (failed: Option<Reason>, ghost events': seq<Event>)
      requires at.Valid() && Run(at, build, start, Start, events) == (trees, MoveIn)
      requires at.bundle !in trees && at.staging in trees && at.previous in trees
      modifies this
      ensures Run(at, build, start, Start, events') ==
              (trees, if failed.None? then Done else Failed(failed.value))
      ensures failed == if luck.moved then None else if luck.back then Some(NotMovedIn) else Some(Stranded)
      ensures failed.Some? && luck.droppedNew.Gone? ==> at.staging !in trees
      ensures failed.None? && luck.droppedOld.Gone? ==> at.previous !in trees
    {
      hide Run;
      var in_ := Rename(at.staging, at.bundle, luck.moved);
      if in_ {
        RunSnoc(at, build, start, Start, events, Renamed);
        events' := RemoveAll(at, build, at.previous, start, events + [Renamed], luck.droppedOld);
        return None, events';
      }
      RunSnoc(at, build, start, Start, events, NotRenamed);
      failed, events' := RollBack(at, build, start, events + [NotRenamed], luck);
    }

    method RollBack(at: Places, build: string, ghost start: Trees, ghost events: seq<Event>, luck: Luck)
      returns (failed: Option<Reason>, ghost events': seq<Event>)
      requires at.Valid() && Run(at, build, start, Start, events) == (trees, PutBack)
      requires at.bundle !in trees && at.previous in trees
      modifies this
      ensures failed.Some? && Run(at, build, start, Start, events') == (trees, Failed(failed.value))
      ensures failed == if luck.back then Some(NotMovedIn) else Some(Stranded)
      ensures luck.droppedNew.Gone? ==> at.staging !in trees
    {
      hide Run;
      var back := Rename(at.previous, at.bundle, luck.back);
      var e := if back then Renamed else NotRenamed;
      RunSnoc(at, build, start, Start, events, e);
      events' := RemoveAll(at, build, at.staging, start, events + [e], luck.droppedNew);
      return Some(if back then NotMovedIn else Stranded), events';
    }

    /** applyAppImage: how the copy ends, whether the rename is allowed, and whether a failed copy can be dropped. */
    method ApplyAppImage(current: string, build: string, copy: CopyEnd, renamed: bool, dropped: bool)
      returns (ok: bool, ghost events: seq<ImageEvent>)
      modifies this
      ensures ImageRun(current, build, old(trees), events) == (trees, if ok then ImageDone else ImageFailed)
      ensures ok <==> copy.CopyWhole? && renamed
      ensures ok ==> current + ".new" !in trees && CompleteWith(trees, current, build)
      ensures Complete(old(trees), current) && !ok ==> CompleteWith(trees, current, old(trees)[current].build)
      ensures !ok && dropped ==> current + ".new" !in trees
    {
      hide ImageRun;
      var staging := current + ".new";
      assert |staging| > |current|;
      ghost var start := trees;
      ok, events := CopyFile(current, build, copy);
      if ok {
        var e := if renamed then ImageRenamed else ImageNotRenamed;
        ImageRunSnoc(current, build, start, events, e);
        events := events + [e];
        if renamed {
          trees := (trees - {staging})[current := trees[staging]];
          return true, events;
        }
      }
      ImageRunSnoc(current, build, start, events, StagingRemoved(dropped));
      events := events + [StagingRemoved(dropped)];
      if dropped { trees := trees - {staging}; }
      if Complete(start, current) { ImageSwapIsAtomic(current, start[current].build, build, start, events); }
      return false, events;
    }

    /** copyFile, into the staged file. */
    method CopyFile(current: string, build: string, copy: CopyEnd) returns (ok: bool, ghost events: seq<ImageEvent>)
      modifies this
      ensures ok <==> copy.CopyWhole?
      ensures ImageRun(current, build, old(trees), events) == (trees, if ok then ImageStaged else ImageDropping)
      ensures ok ==> trees == old(trees)[current + ".new" := Holds(build)]
    {
      hide ImageRun;
      var staging := current + ".new";
      ghost var start := trees;
      events := [];
      NoImageEvents(current, build, start);
      if copy.NeverOpened? {
        ImageRunSnoc(current, build, start, events, NotRead);
        return false, events + [NotRead];
      }
      ImageRunSnoc(current, build, start, events, Truncated);
      events := events + [Truncated];
      trees := trees[staging := Broken];
      if copy.StoppedShort? {
        ImageRunSnoc(current, build, start, events, CopyStopped);
        return false, events + [CopyStopped];
      }
      ImageRunSnoc(current, build, start, events, CopyClosed);
      events := events + [CopyClosed];
      trees := trees[staging := Holds(build)];
      if copy.NotMadeRunnable? {
        ImageRunSnoc(current, build, start, events, CopyStopped);
        return false, events + [CopyStopped];
      }
      return true, events;
    }
  }

  // ----- applyAppImage ------------------------------------------------------------------

  datatype ImagePc = ImageStart | ImageCopying | ImageStaged | ImageDropping | ImageDone | ImageFailed

  datatype ImageEvent =
    | NotRead | Truncated | Written | CopyStopped | CopyClosed | ImageRenamed | ImageNotRenamed
    | StagingRemoved(ok: bool)

  /** copyFile into <current>.new, then a rename over the running image. */
  function ImageStep(current: string, build: string, trees: Trees, pc: ImagePc, e: ImageEvent): (Trees, ImagePc) {
    var staging := current + ".new";
    match (pc, e)
    case (ImageStart, NotRead) => (trees, ImageDropping)
    case (ImageStart, Truncated) => (trees[staging := Broken], ImageCopying)
    case (ImageCopying, Written) => (trees[staging := Broken], pc)
    case (ImageCopying, CopyStopped) => (trees, ImageDropping)
    case (ImageCopying, CopyClosed) => (trees[staging := Holds(build)], ImageStaged)
    case (ImageStaged, CopyStopped) => (trees, ImageDropping)
    case (ImageStaged, ImageRenamed) =>
      if staging in trees then (Moved(trees, staging, current), ImageDone) else (trees, ImageDropping)
    case (ImageStaged, ImageNotRenamed) => (trees, ImageDropping)
    case (ImageDropping, StagingRemoved(ok)) => (if ok then trees - {staging} else trees, ImageFailed)
    case _ => (trees, pc)
  }

  function ImageRun(current: string, build: string, trees: Trees, events: seq<ImageEvent>): (Trees, ImagePc)
    decreases |events|
  {
    if events == [] then (trees, ImageStart)
    else
      var (t, p) := ImageRun(current, build, trees, events[..|events| - 1]);
      ImageStep(current, build, t, p, events[|events| - 1])
  }

  /** Swapped by nobody else meanwhile, an AppImage is complete at its path at every moment, and new exactly when done. */
  lemma {:induction false} ImageSwapIsAtomic(current: string, old_: string, build: string, trees: Trees,
                                             events: seq<ImageEvent>)
    requires CompleteWith(trees, current, old_)
    ensures var (t, p) := ImageRun(current, build, trees, events);
            && CompleteWith(t, current, if p == ImageDone then build else old_)
            && (p == ImageStaged ==> CompleteWith(t, current + ".new", build))
    decreases |events|
  {
    assert |current + ".new"| > |current|;
    if events != [] {
      ImageSwapIsAtomic(current, old_, build, trees, events[..|events| - 1]);
    }
  }
  /** How copyFile ends: before anything is opened for writing, in mid-copy, at the mode, or whole. */
  datatype CopyEnd = NeverOpened | StoppedShort | NotMadeRunnable | CopyWhole

  lemma ImageRunSnoc(current: string, build: string, trees: Trees, events: seq<ImageEvent>, e: ImageEvent)
    ensures var (t, p) := ImageRun(current, build, trees, events);
            ImageRun(current, build, trees, events + [e]) == ImageStep(current, build, t, p, e)
  {
    assert (events + [e])[..|events|] == events;
  }

  lemma NoImageEvents(current: string, build: string, trees: Trees)
    ensures ImageRun(current, build, trees, []) == (trees, ImageStart)
  {
  }

  // ----- Apply ----------------------------------------------------------------------------

  /** Which procedure a package is handed to, or why none is. */
  datatype Procedure = Bundle(root: Path) | Image(root: Path) | RunInstaller | NotInstallable | Missing

  /** Apply: a place that cannot install is refused before the package is looked for. */
  function ProcedureFor(l: Location, found: bool): Procedure {
    if !l.CanInstall() then NotInstallable
    else if !found then Missing
    else if l.kind == AppBundle && l.root.Some? then Bundle(l.root.value)
    else if l.kind == AppImage && l.root.Some? then Image(l.root.value)
    else if l.kind == Installer then RunInstaller
    else NotInstallable
  }

  /** On whatever machine it runs, a location that may install is handed to its system's procedure and replaces itself. */
  lemma LocatedIsApplied(goos: string, goarch: string, executable: Option<Path>, appImage: Option<Path>,
                         writable: Path -> bool, found: bool)
    ensures var l := Locate(goos, goarch, executable, appImage, writable);
            var how := ProcedureFor(l, found);
            && (how == NotInstallable <==> !l.CanInstall())
            && (how == Missing <==> l.CanInstall() && !found)
            && (l.CanInstall() && found ==>
                  && (goos == "darwin" ==>
                        && how.Bundle? && executable.Some? && how.root <= Dir(executable.value) && IsBundle(how.root))
                  && (goos == "linux" ==> how.Image? && appImage == Some(how.root))
                  && (goos == "windows" ==> how == RunInstaller))
  {
    LocateCanInstall(goos, goarch, executable, appImage, writable);
    LocateIsTheMachine(goos, goarch, executable, appImage, writable);
    hide Locate;
  }
}
