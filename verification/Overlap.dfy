/**
 * Several swaps of one installation at a time. Install takes no busy, so nothing keeps one from starting
 * while another is at work; internal/update/apply.go is safe alone and not so.
 */
module Overlap {
  import opened Text
  import opened Apply

  // ----- bundles ------------------------------------------------------------------------

  datatype Swap = Swap(build: string, pc: Pc)

  datatype Scene = Scene(trees: Trees, swaps: map<nat, Swap>)

  /** A swap is called, takes one of its steps, or the process dies with all of them. */
  datatype Act = Begin(id: nat, build: string) | Move(id: nat, event: Event) | Crash

  function Next(at: Places, s: Scene, a: Act): Scene {
    match a
    case Begin(id, build) => if id in s.swaps then s else s.(swaps := s.swaps[id := Swap(build, Start)])
    case Move(id, event) =>
      if id !in s.swaps then s
      else
        var swap := s.swaps[id];
        var (t, p) := Step(at, swap.build, s.trees, swap.pc, event);
        Scene(t, s.swaps[id := swap.(pc := p)])
    case Crash => s.(swaps := map[])
  }

  function Play(at: Places, s: Scene, acts: seq<Act>): Scene
    decreases |acts|
  {
    if acts == [] then s else Play(at, Next(at, s, acts[0]), acts[1..])
  }

  /** Between the first step that touches the disk and the last. */
  predicate AtWork(pc: Pc) { !pc.Start? && !pc.Done? && !pc.Failed? }

  predicate Idle(s: Scene) { forall i :: i in s.swaps ==> !AtWork(s.swaps[i].pc) }

  /** The step by which a swap sets to work. */
  predicate Starts(s: Scene, a: Act) {
    a.Move? && a.id in s.swaps && s.swaps[a.id].pc.Start? && a.event.Mounted?
  }

  /** No swap sets to work beside another, or with the bundle away. */
  predicate Fit(at: Places, s: Scene, a: Act) {
    Starts(s, a) ==> Idle(s) && Complete(s.trees, at.bundle)
  }

  predicate Orderly(at: Places, s: Scene, acts: seq<Act>)
    decreases |acts|
  {
    acts != [] ==> Fit(at, s, acts[0]) && Orderly(at, Next(at, s, acts[0]), acts[1..])
  }

  predicate NoStarts(at: Places, s: Scene, acts: seq<Act>)
    decreases |acts|
  {
    acts != [] ==> !Starts(s, acts[0]) && NoStarts(at, Next(at, s, acts[0]), acts[1..])
  }

  /** What stands where at each point of the one swap at work. */
  predicate Stands(at: Places, trees: Trees, pc: Pc) {
    match pc
    case MoveAside => Complete(trees, at.bundle) && Complete(trees, at.staging)
    case MoveIn => at.bundle !in trees && Complete(trees, at.previous) && Complete(trees, at.staging)
    case PutBack => at.bundle !in trees && Complete(trees, at.previous)
    case DropNew(why) =>
      if why == Stranded then at.bundle !in trees && Complete(trees, at.previous) else Complete(trees, at.bundle)
    case _ => Complete(trees, at.bundle)
  }

  predicate Sound(at: Places, s: Scene) {
    && (forall i, j :: i in s.swaps && j in s.swaps && AtWork(s.swaps[i].pc) && AtWork(s.swaps[j].pc) ==> i == j)
    && (forall i :: i in s.swaps && AtWork(s.swaps[i].pc) ==> Stands(at, s.trees, s.swaps[i].pc))
    && (Complete(s.trees, at.bundle) || Complete(s.trees, at.previous))
  }

  lemma StepStands(at: Places, build: string, trees: Trees, pc: Pc, e: Event)
    requires at.Valid() && AtWork(pc) && Stands(at, trees, pc)
    ensures var (t, p) := Step(at, build, trees, pc, e);
            && !p.Start? && (AtWork(p) ==> Stands(at, t, p))
            && (Complete(t, at.bundle) || Complete(t, at.previous))
  {
  }

  lemma RestingStep(at: Places, build: string, trees: Trees, pc: Pc, e: Event)
    requires !AtWork(pc)
    ensures var (t, p) := Step(at, build, trees, pc, e);
            t == trees && (p == ClearNew <==> pc.Start? && e.Mounted?) && (p != ClearNew ==> !AtWork(p))
  {
  }

  lemma NextKeepsSound(at: Places, s: Scene, a: Act)
    requires at.Valid() && Sound(at, s) && Fit(at, s, a)
    ensures Sound(at, Next(at, s, a))
  {
    hide Step, Stands;
    if a.Move? && a.id in s.swaps {
      var swap := s.swaps[a.id];
      if AtWork(swap.pc) {
        StepStands(at, swap.build, s.trees, swap.pc, a.event);
      } else {
        RestingStep(at, swap.build, s.trees, swap.pc, a.event);
        NewlyStands(at, s.trees);
      }
    }
  }

  lemma NewlyStands(at: Places, trees: Trees)
    ensures Stands(at, trees, ClearNew) <==> Complete(trees, at.bundle)
  {
  }

  lemma {:induction false} OrderlyKeepsSound(at: Places, s: Scene, acts: seq<Act>)
    requires at.Valid() && Sound(at, s) && Orderly(at, s, acts)
    ensures Sound(at, Play(at, s, acts))
    decreases |acts|
  {
    hide Sound, Next, Fit;
    if acts != [] {
      NextKeepsSound(at, s, acts[0]);
      OrderlyKeepsSound(at, Next(at, s, acts[0]), acts[1..]);
    }
  }

  lemma {:induction false} NoStartsIsOrderly(at: Places, s: Scene, acts: seq<Act>)
    requires NoStarts(at, s, acts)
    ensures Orderly(at, s, acts)
    decreases |acts|
  {
    hide Next, Starts;
    if acts != [] { NoStartsIsOrderly(at, Next(at, s, acts[0]), acts[1..]); }
  }

  // ----- a start out of order loses everything -----------------------------------------

  /** Swap i, already at work, and swap j, which has just set to work. */
  datatype Pair = Pair(trees: Trees, i: Pc, j: Pc)

  datatype Turn = I(event: Event) | J(event: Event)

  function Turned(at: Places, b: string, c: string, p: Pair, turn: Turn): Pair {
    match turn
    case I(e) => var (t, pc) := Step(at, b, p.trees, p.i, e); p.(trees := t, i := pc)
    case J(e) => var (t, pc) := Step(at, c, p.trees, p.j, e); p.(trees := t, j := pc)
  }

  function Turns(at: Places, b: string, c: string, p: Pair, turns: seq<Turn>): Pair
    decreases |turns|
  {
    if turns == [] then p else Turns(at, b, c, Turned(at, b, c, p, turns[0]), turns[1..])
  }

  lemma Go(at: Places, b: string, c: string, p: Pair, turn: Turn, turns: seq<Turn>)
    ensures Turns(at, b, c, p, [turn] + turns) == Turns(at, b, c, Turned(at, b, c, p, turn), turns)
  {
    hide Turned;
    assert ([turn] + turns)[1..] == turns;
  }

  /** j clears the neighbours while i has the old application aside. */
  lemma LoseAside(at: Places, b: string, c: string, p: Pair) returns (turns: seq<Turn>)
    requires at.Valid() && p.j == ClearNew && !Complete(p.trees, at.bundle)
    ensures !AnyComplete(at, Turns(at, b, c, p, turns).trees)
  {
    hide Turns;
    var rest: seq<Turn> := [];
    turns := [J(Erased)] + ([J(Erased)] + rest);
    Go(at, b, c, p, J(Erased), [J(Erased)] + rest);
    var p1 := Turned(at, b, c, p, J(Erased));
    Go(at, b, c, p1, J(Erased), rest);
    NoTurns(at, b, c, Turned(at, b, c, p1, J(Erased)));
  }

  lemma NoTurns(at: Places, b: string, c: string, p: Pair)
    ensures Turns(at, b, c, p, []) == p
  {
  }

  /** i installs what j has only begun to copy, and drops the old application. */
  lemma LoseMovedIn(at: Places, b: string, c: string, p: Pair) returns (turns: seq<Turn>)
    requires at.Valid() && p.i == MoveAside && p.j == Copy
    requires Complete(p.trees, at.bundle) && !Complete(p.trees, at.previous)
    ensures !AnyComplete(at, Turns(at, b, c, p, turns).trees)
  {
    hide Turns;
    var r0: seq<Turn> := [];
    var r1 := [I(Erased)] + r0;
    var r2 := [I(Renamed)] + r1;
    var r3 := [J(CopyPart)] + r2;
    turns := [I(Renamed)] + r3;
    Go(at, b, c, p, I(Renamed), r3);
    var p1 := Turned(at, b, c, p, I(Renamed));
    Go(at, b, c, p1, J(CopyPart), r2);
    var p2 := Turned(at, b, c, p1, J(CopyPart));
    Go(at, b, c, p2, I(Renamed), r1);
    var p3 := Turned(at, b, c, p2, I(Renamed));
    Go(at, b, c, p3, I(Erased), r0);
    NoTurns(at, b, c, Turned(at, b, c, p3, I(Erased)));
  }

  /** The same with i still about to copy. */
  lemma LoseCopied(at: Places, b: string, c: string, p: Pair) returns (turns: seq<Turn>)
    requires at.Valid() && p.i == Copy && p.j == Copy
    requires Complete(p.trees, at.bundle) && !Complete(p.trees, at.previous)
    ensures !AnyComplete(at, Turns(at, b, c, p, turns).trees)
  {
    hide Turns;
    var rest := LoseMovedIn(at, b, c, Turned(at, b, c, p, I(Copied)));
    Go(at, b, c, p, I(Copied), rest);
    turns := [I(Copied)] + rest;
  }

  /** j clears both neighbours first. */
  lemma ClearBoth(at: Places, b: string, c: string, p: Pair, rest: seq<Turn>) returns (turns: seq<Turn>)
    requires at.Valid() && p.j == ClearNew
    ensures Turns(at, b, c, p, turns) == Turns(at, b, c, Pair(p.trees - {at.staging} - {at.previous}, p.i, Copy), rest)
  {
    hide Turns;
    Go(at, b, c, p, J(Erased), [J(Erased)] + rest);
    Go(at, b, c, Turned(at, b, c, p, J(Erased)), J(Erased), rest);
    turns := [J(Erased)] + ([J(Erased)] + rest);
  }

  lemma LoseBeforeMove(at: Places, b: string, c: string, p: Pair) returns (turns: seq<Turn>)
    requires at.Valid() && (p.i == Copy || p.i == MoveAside) && p.j == ClearNew && Complete(p.trees, at.bundle)
    ensures !AnyComplete(at, Turns(at, b, c, p, turns).trees)
  {
    hide Turns, Turned;
    var q := Pair(p.trees - {at.staging} - {at.previous}, p.i, Copy);
    var rest;
    if p.i == Copy { rest := LoseCopied(at, b, c, q); } else { rest := LoseMovedIn(at, b, c, q); }
    turns := ClearBoth(at, b, c, p, rest);
  }

  /** i gives up its own clearing. */
  lemma LoseEarly(at: Places, b: string, c: string, p: Pair) returns (turns: seq<Turn>)
    requires at.Valid() && (p.i == ClearNew || p.i == ClearOld) && p.j == ClearNew && Complete(p.trees, at.bundle)
    ensures !AnyComplete(at, Turns(at, b, c, p, turns).trees)
    decreases if p.i == ClearNew then 1 else 0
  {
    hide Turns;
    var q := Turned(at, b, c, p, I(Leave));
    var rest;
    if p.i == ClearNew { rest := LoseEarly(at, b, c, q); } else { rest := LoseBeforeMove(at, b, c, q); }
    Go(at, b, c, p, I(Leave), rest);
    turns := [I(Leave)] + rest;
  }

  /** j has its application aside when i, done but for its last removal, removes it; then j's own way in fails. */
  lemma LoseDropOld(at: Places, b: string, c: string, p: Pair) returns (turns: seq<Turn>)
    requires at.Valid() && p.i == DropOld && p.j == ClearNew && Complete(p.trees, at.bundle)
    ensures !AnyComplete(at, Turns(at, b, c, p, turns).trees)
  {
    hide Turns;
    var q := Pair(p.trees - {at.staging} - {at.previous}, DropOld, Copy);
    var r0: seq<Turn> := [];
    var r1 := [J(Erased)] + r0;
    var r2 := [J(NotRenamed)] + r1;
    var r3 := [J(NotRenamed)] + r2;
    var r4 := [I(Erased)] + r3;
    var r5 := [J(Renamed)] + r4;
    var r6 := [J(Copied)] + r5;
    turns := ClearBoth(at, b, c, p, r6);
    Go(at, b, c, q, J(Copied), r5);
    var q1 := Turned(at, b, c, q, J(Copied));
    Go(at, b, c, q1, J(Renamed), r4);
    var q2 := Turned(at, b, c, q1, J(Renamed));
    Go(at, b, c, q2, I(Erased), r3);
    var q3 := Turned(at, b, c, q2, I(Erased));
    assert at.bundle !in q3.trees && at.previous !in q3.trees && q3.j == MoveIn;
    Go(at, b, c, q3, J(NotRenamed), r2);
    var q4 := Turned(at, b, c, q3, J(NotRenamed));
    Go(at, b, c, q4, J(NotRenamed), r1);
    var q5 := Turned(at, b, c, q4, J(NotRenamed));
    Go(at, b, c, q5, J(Erased), r0);
    NoTurns(at, b, c, Turned(at, b, c, q5, J(Erased)));
  }

  /** i, dropping its own copy, spoils j's just before j moves it in. */
  lemma LoseDropNew(at: Places, b: string, c: string, p: Pair) returns (turns: seq<Turn>)
    requires at.Valid() && p.i.DropNew? && p.j == ClearNew && Complete(p.trees, at.bundle)
    ensures !AnyComplete(at, Turns(at, b, c, p, turns).trees)
  {
    hide Turns;
    var q := Pair(p.trees - {at.staging} - {at.previous}, p.i, Copy);
    var r0: seq<Turn> := [];
    var r1 := [J(Erased)] + r0;
    var r2 := [J(Renamed)] + r1;
    var r3 := [I(Gnaw)] + r2;
    var r4 := [J(Renamed)] + r3;
    var r5 := [J(Copied)] + r4;
    turns := ClearBoth(at, b, c, p, r5);
    Go(at, b, c, q, J(Copied), r4);
    var q1 := Turned(at, b, c, q, J(Copied));
    Go(at, b, c, q1, J(Renamed), r3);
    var q2 := Turned(at, b, c, q1, J(Renamed));
    Go(at, b, c, q2, I(Gnaw), r2);
    var q3 := Turned(at, b, c, q2, I(Gnaw));
    assert q3.j == MoveIn && q3.trees[at.staging] == Broken && at.bundle !in q3.trees;
    Go(at, b, c, q3, J(Renamed), r1);
    var q4 := Turned(at, b, c, q3, J(Renamed));
    Go(at, b, c, q4, J(Erased), r0);
    NoTurns(at, b, c, Turned(at, b, c, q4, J(Erased)));
  }

  /** Whatever i is at. */
  lemma PairLoses(at: Places, b: string, c: string, p: Pair) returns (turns: seq<Turn>)
    requires at.Valid() && AtWork(p.i) && Stands(at, p.trees, p.i) && p.j == ClearNew
    ensures !AnyComplete(at, Turns(at, b, c, p, turns).trees)
  {
    hide Turns, Turned;
    if !Complete(p.trees, at.bundle) { turns := LoseAside(at, b, c, p); }
    else if p.i == ClearNew || p.i == ClearOld { turns := LoseEarly(at, b, c, p); }
    else if p.i == Copy || p.i == MoveAside { turns := LoseBeforeMove(at, b, c, p); }
    else if p.i == DropOld { turns := LoseDropOld(at, b, c, p); }
    else { turns := LoseDropNew(at, b, c, p); }
  }

  predicate IsPair(s: Scene, i: nat, j: nat, b: string, c: string, p: Pair) {
    && i != j && i in s.swaps && j in s.swaps && s.trees == p.trees
    && s.swaps[i] == Swap(b, p.i) && s.swaps[j] == Swap(c, p.j)
  }

  function Acts(i: nat, j: nat, turns: seq<Turn>): seq<Act> {
    if turns == [] then []
    else
      var turn := turns[0];
      [Move(if turn.I? then i else j, turn.event)] + Acts(i, j, turns[1..])
  }

  lemma StepLeavesStart(at: Places, build: string, trees: Trees, pc: Pc, e: Event)
    requires !pc.Start?
    ensures !Step(at, build, trees, pc, e).1.Start?
  {
  }

  lemma TurnIsAct(at: Places, s: Scene, i: nat, j: nat, b: string, c: string, p: Pair, turn: Turn)
    requires IsPair(s, i, j, b, c, p) && !p.i.Start? && !p.j.Start?
    ensures var a, q := Move(if turn.I? then i else j, turn.event), Turned(at, b, c, p, turn);
            IsPair(Next(at, s, a), i, j, b, c, q) && !q.i.Start? && !q.j.Start? && !Starts(s, a)
  {
    hide Step;
    match turn
    case I(e) => StepLeavesStart(at, b, p.trees, p.i, e);
    case J(e) => StepLeavesStart(at, c, p.trees, p.j, e);
  }

  lemma {:induction false} TurnsAreActs(at: Places, s: Scene, i: nat, j: nat, b: string, c: string, p: Pair,
                                        turns: seq<Turn>)
    requires IsPair(s, i, j, b, c, p) && !p.i.Start? && !p.j.Start?
    ensures Play(at, s, Acts(i, j, turns)).trees == Turns(at, b, c, p, turns).trees
    ensures NoStarts(at, s, Acts(i, j, turns))
    decreases |turns|
  {
    hide IsPair, Next, Turned, Starts;
    if turns == [] {
      SameTrees(s, i, j, b, c, p);
    } else {
      var a := Move(if turns[0].I? then i else j, turns[0].event);
      TurnIsAct(at, s, i, j, b, c, p, turns[0]);
      TurnsAreActs(at, Next(at, s, a), i, j, b, c, Turned(at, b, c, p, turns[0]), turns[1..]);
      var rest := Acts(i, j, turns[1..]);
      assert Acts(i, j, turns) == [a] + rest && ([a] + rest)[1..] == rest;
    }
  }

  lemma SameTrees(s: Scene, i: nat, j: nat, b: string, c: string, p: Pair)
    requires IsPair(s, i, j, b, c, p)
    ensures s.trees == p.trees
  {
  }

  /** With the bundle gone a swap that sets to work can clear the rest away. */
  lemma AloneLoses(at: Places, s: Scene, j: nat) returns (more: seq<Act>)
    requires at.Valid() && j in s.swaps && s.swaps[j].pc == ClearNew && !Complete(s.trees, at.bundle)
    ensures NoStarts(at, s, more) && !AnyComplete(at, Play(at, s, more).trees)
  {
    var a := Move(j, Erased);
    var s1 := Next(at, s, a);
    var s2 := Next(at, s1, a);
    more := [a, a];
    assert more[1..] == [a] && [a][1..] == [];
    assert Play(at, s, more) == Play(at, s1, [a]) && Play(at, s1, [a]) == Play(at, s2, []) && Play(at, s2, []) == s2;
    assert s1.swaps[j].pc == ClearOld;
    assert NoStarts(at, s2, []) && NoStarts(at, s1, [a]);
  }

  /** A swap that sets to work out of order can cost the user every copy, no further swap starting. */
  lemma UnfitLoses(at: Places, s: Scene, a: Act) returns (more: seq<Act>)
    requires at.Valid() && Sound(at, s) && !Fit(at, s, a)
    ensures NoStarts(at, Next(at, s, a), more) && !AnyComplete(at, Play(at, Next(at, s, a), more).trees)
  {
    var j := a.id;
    var s' := Next(at, s, a);
    assert s'.trees == s.trees && s'.swaps == s.swaps[j := s.swaps[j].(pc := ClearNew)];
    if i :| i in s.swaps && AtWork(s.swaps[i].pc) {
      var b, c := s.swaps[i].build, s.swaps[j].build;
      var p := Pair(s.trees, s.swaps[i].pc, ClearNew);
      var turns := PairLoses(at, b, c, p);
      more := Acts(i, j, turns);
      hide Turns, Play, NoStarts, Acts;
      TurnsAreActs(at, s', i, j, b, c, p, turns);
    } else {
      more := AloneLoses(at, s', j);
    }
  }

  /** Setting to work is safe exactly when nobody else is at work and the bundle is in place. */
  lemma StartIsSafeExactly(at: Places, s: Scene, j: nat)
    requires at.Valid() && Sound(at, s) && j in s.swaps && s.swaps[j].pc.Start?
    ensures Idle(s) && Complete(s.trees, at.bundle) <==>
            var s' := Next(at, s, Move(j, Mounted));
            forall more :: Orderly(at, s', more) ==> AnyComplete(at, Play(at, s', more).trees)
  {
    var a := Move(j, Mounted);
    var s' := Next(at, s, a);
    if Fit(at, s, a) {
      NextKeepsSound(at, s, a);
      hide Next, Sound, Play, Orderly;
      forall more | Orderly(at, s', more) ensures AnyComplete(at, Play(at, s', more).trees) {
        OrderlyKeepsSound(at, s', more);
        SoundIsComplete(at, Play(at, s', more));
      }
    } else {
      hide Next, Sound, Play, Orderly, NoStarts;
      var more := UnfitLoses(at, s, a);
      NoStartsIsOrderly(at, s', more);
    }
  }

  lemma SoundIsComplete(at: Places, s: Scene)
    requires Sound(at, s)
    ensures AnyComplete(at, s.trees)
  {
  }

  lemma {:induction false} PlaySplits(at: Places, s: Scene, acts: seq<Act>, k: nat)
    requires k <= |acts|
    ensures Orderly(at, s, acts) ==> Orderly(at, s, acts[..k])
    ensures k < |acts| ==> Play(at, s, acts[..k + 1]) == Next(at, Play(at, s, acts[..k]), acts[k])
    decreases k
  {
    hide Next, Fit;
    if k > 0 {
      PlaySplits(at, Next(at, s, acts[0]), acts[1..], k - 1);
      assert acts[..k][1..] == acts[1..][..k - 1];
      assert k < |acts| ==> acts[..k + 1][1..] == acts[1..][..k];
    } else if acts != [] {
      assert acts[..1][1..] == [];
    }
  }

  lemma {:induction false} FirstUnfit(at: Places, s: Scene, acts: seq<Act>) returns (k: nat)
    requires !Orderly(at, s, acts)
    ensures k < |acts| && Orderly(at, s, acts[..k]) && !Fit(at, Play(at, s, acts[..k]), acts[k])
    decreases |acts|
  {
    hide Next, Fit;
    if !Fit(at, s, acts[0]) {
      k := 0;
    } else {
      var m := FirstUnfit(at, Next(at, s, acts[0]), acts[1..]);
      k := m + 1;
      assert acts[..k][1..] == acts[1..][..m];
    }
  }

  /**
   * In any interleaving of any number of swaps, failures and crashes, some complete application is left
   * whatever those already at work go on to do, exactly when none set to work beside another or with the
   * bundle away.
   */
  lemma OverlapLosesExactly(at: Places, s: Scene, acts: seq<Act>)
    requires at.Valid() && Idle(s) && Complete(s.trees, at.bundle)
    ensures Orderly(at, s, acts) <==>
            forall k, more :: 0 <= k <= |acts| && NoStarts(at, Play(at, s, acts[..k]), more) ==>
              AnyComplete(at, Play(at, Play(at, s, acts[..k]), more).trees)
  {
    hide Next, Play, Orderly, NoStarts, Fit, AnyComplete;
    assert Sound(at, s);
    if Orderly(at, s, acts) {
      forall k, more | 0 <= k <= |acts| && NoStarts(at, Play(at, s, acts[..k]), more)
        ensures AnyComplete(at, Play(at, Play(at, s, acts[..k]), more).trees)
      {
        var now := Play(at, s, acts[..k]);
        PlaySplits(at, s, acts, k);
        OrderlyKeepsSound(at, s, acts[..k]);
        NoStartsIsOrderly(at, now, more);
        OrderlyKeepsSound(at, now, more);
        SoundIsComplete(at, Play(at, now, more));
      }
    } else {
      var k := FirstUnfit(at, s, acts);
      PlaySplits(at, s, acts, k);
      OrderlyKeepsSound(at, s, acts[..k]);
      var more := UnfitLoses(at, Play(at, s, acts[..k]), acts[k]);
      assert NoStarts(at, Play(at, s, acts[..k + 1]), more);
    }
  }

  lemma {:induction false} PlayJoined(at: Places, s: Scene, first: seq<Act>, second: seq<Act>)
    ensures Play(at, s, first + second) == Play(at, Play(at, s, first), second)
    decreases |first|
  {
    hide Next;
    if first == [] {
      assert first + second == second;
    } else {
      assert (first + second)[1..] == first[1..] + second;
      PlayJoined(at, Next(at, s, first[0]), first[1..], second);
    }
  }

  /** A swap that has opened the image and cleared the neighbours away. */
  function Clearing(id: nat): seq<Act> { [Move(id, Mounted), Move(id, Erased), Move(id, Erased)] }

  /** And then moves the application aside. */
  function Aside(id: nat): seq<Act> { [Move(id, Copied), Move(id, Renamed)] }

  lemma Clears(at: Places, s: Scene, id: nat)
    requires id in s.swaps && s.swaps[id].pc.Start?
    ensures Play(at, s, Clearing(id)) ==
              Scene(s.trees - {at.staging} - {at.previous}, s.swaps[id := Swap(s.swaps[id].build, Copy)])
  {
    var acts := Clearing(id);
    var s1 := Next(at, s, acts[0]);
    var s2 := Next(at, s1, acts[1]);
    var s3 := Next(at, s2, acts[2]);
    assert s1 == Scene(s.trees, s.swaps[id := Swap(s.swaps[id].build, ClearNew)]);
    assert s2 == Scene(s.trees - {at.staging}, s.swaps[id := Swap(s.swaps[id].build, ClearOld)]);
    assert s3 == Scene(s.trees - {at.staging} - {at.previous}, s.swaps[id := Swap(s.swaps[id].build, Copy)]);
    hide Next;
    assert acts[1..] == [acts[1], acts[2]] && acts[1..][1..] == [acts[2]] && acts[1..][1..][1..] == [];
    assert Play(at, s3, []) == s3;
    assert Play(at, s2, [acts[2]]) == s3;
    assert Play(at, s1, [acts[1], acts[2]]) == s3;
  }

  lemma MovesAside(at: Places, s: Scene, id: nat)
    requires at.Valid() && id in s.swaps && s.swaps[id].pc == Copy
    requires Complete(s.trees, at.bundle) && at.previous !in s.trees
    ensures at.bundle !in Play(at, s, Aside(id)).trees
    ensures Play(at, s, Aside(id)).swaps == s.swaps[id := Swap(s.swaps[id].build, MoveIn)]
  {
    var acts := Aside(id);
    var s1 := Next(at, s, acts[0]);
    var s2 := Next(at, s1, acts[1]);
    assert s1 == Scene(s.trees[at.staging := Holds(s.swaps[id].build)], s.swaps[id := Swap(s.swaps[id].build, MoveAside)]);
    assert at.bundle !in s2.trees && s2.swaps == s.swaps[id := Swap(s.swaps[id].build, MoveIn)];
    hide Next;
    assert acts[1..] == [acts[1]] && acts[1..][1..] == [];
    assert Play(at, s2, []) == s2;
  }

  /** Two swaps in which no call fails, and nothing complete is left at any of the three paths. */
  lemma {:induction false} TwoSwapsLoseAll(at: Places, a: string, b: string, trees: Trees)
    requires at.Valid() && Complete(trees, at.bundle)
    ensures var s := Scene(trees, map[0 := Swap(a, Start), 1 := Swap(b, Start)]);
            !AnyComplete(at, Play(at, s, Clearing(0) + Aside(0) + Clearing(1)).trees)
  {
    hide Next, Play, Clearing, Aside;
    var s := Scene(trees, map[0 := Swap(a, Start), 1 := Swap(b, Start)]);
    Clears(at, s, 0);
    var s1 := Play(at, s, Clearing(0));
    MovesAside(at, s1, 0);
    var s2 := Play(at, s1, Aside(0));
    Clears(at, s2, 1);
    PlayJoined(at, s, Clearing(0), Aside(0));
    PlayJoined(at, s, Clearing(0) + Aside(0), Clearing(1));
  }

  // ----- AppImages ----------------------------------------------------------------------

  datatype ImageSwap = ImageSwap(build: string, pc: ImagePc)

  datatype ImageScene = ImageScene(trees: Trees, swaps: map<nat, ImageSwap>)

  datatype ImageAct = ImageBegin(id: nat, build: string) | ImageMove(id: nat, event: ImageEvent) | ImageCrash

  function ImageNext(current: string, s: ImageScene, a: ImageAct): ImageScene {
    match a
    case ImageBegin(id, build) => if id in s.swaps then s else s.(swaps := s.swaps[id := ImageSwap(build, ImageStart)])
    case ImageMove(id, event) =>
      if id !in s.swaps then s
      else
        var swap := s.swaps[id];
        var (t, p) := ImageStep(current, swap.build, s.trees, swap.pc, event);
        ImageScene(t, s.swaps[id := swap.(pc := p)])
    case ImageCrash => s.(swaps := map[])
  }

  function ImagePlay(current: string, s: ImageScene, acts: seq<ImageAct>): ImageScene
    decreases |acts|
  {
    if acts == [] then s else ImagePlay(current, ImageNext(current, s, acts[0]), acts[1..])
  }

  /** A swap that may still rename the staged file over the image. */
  predicate MayRename(pc: ImagePc) { pc.ImageCopying? || pc.ImageStaged? }

  /** The step that opens the staged file, emptying it. */
  predicate Opens(s: ImageScene, a: ImageAct) {
    a.ImageMove? && a.id in s.swaps && s.swaps[a.id].pc.ImageStart? && a.event.Truncated?
  }

  /** Nobody empties the staged file while another swap may still rename it. */
  predicate ImageFit(s: ImageScene, a: ImageAct) {
    Opens(s, a) ==> forall i :: i in s.swaps ==> !MayRename(s.swaps[i].pc)
  }

  predicate ImageOrderly(current: string, s: ImageScene, acts: seq<ImageAct>)
    decreases |acts|
  {
    acts != [] ==> ImageFit(s, acts[0]) && ImageOrderly(current, ImageNext(current, s, acts[0]), acts[1..])
  }

  predicate NoOpens(current: string, s: ImageScene, acts: seq<ImageAct>)
    decreases |acts|
  {
    acts != [] ==> !Opens(s, acts[0]) && NoOpens(current, ImageNext(current, s, acts[0]), acts[1..])
  }

  predicate ImageSound(current: string, s: ImageScene) {
    && Complete(s.trees, current)
    && (forall i, j :: i in s.swaps && j in s.swaps && MayRename(s.swaps[i].pc) && MayRename(s.swaps[j].pc) ==> i == j)
    && (forall i :: i in s.swaps && s.swaps[i].pc.ImageStaged? && current + ".new" in s.trees ==>
          Complete(s.trees, current + ".new"))
  }

  lemma ImageNextKeepsSound(current: string, s: ImageScene, a: ImageAct)
    requires ImageSound(current, s) && ImageFit(s, a)
    ensures ImageSound(current, ImageNext(current, s, a))
  {
    assert |current + ".new"| > |current|;
  }

  lemma {:induction false} ImageOrderlyKeepsSound(current: string, s: ImageScene, acts: seq<ImageAct>)
    requires ImageSound(current, s) && ImageOrderly(current, s, acts)
    ensures ImageSound(current, ImagePlay(current, s, acts))
    decreases |acts|
  {
    hide ImageSound, ImageNext, ImageFit;
    if acts != [] {
      ImageNextKeepsSound(current, s, acts[0]);
      ImageOrderlyKeepsSound(current, ImageNext(current, s, acts[0]), acts[1..]);
    }
  }

  lemma {:induction false} NoOpensIsOrderly(current: string, s: ImageScene, acts: seq<ImageAct>)
    requires NoOpens(current, s, acts)
    ensures ImageOrderly(current, s, acts)
    decreases |acts|
  {
    hide ImageNext, Opens;
    if acts != [] { NoOpensIsOrderly(current, ImageNext(current, s, acts[0]), acts[1..]); }
  }

  lemma ImageGo(current: string, s: ImageScene, a: ImageAct, rest: seq<ImageAct>)
    ensures ImagePlay(current, s, [a] + rest) == ImagePlay(current, ImageNext(current, s, a), rest)
    ensures !Opens(s, a) && NoOpens(current, ImageNext(current, s, a), rest) ==> NoOpens(current, s, [a] + rest)
  {
    hide ImageNext, Opens;
    assert ([a] + rest)[1..] == rest;
  }

  lemma NoImageActs(current: string, s: ImageScene)
    ensures ImagePlay(current, s, []) == s && NoOpens(current, s, [])
  {
  }

  /** The other swap renames a file that holds nothing whole. */
  lemma StagedLoses(current: string, s: ImageScene, i: nat) returns (more: seq<ImageAct>)
    requires i in s.swaps && s.swaps[i].pc.ImageStaged?
    requires current + ".new" in s.trees && s.trees[current + ".new"] == Broken
    ensures NoOpens(current, s, more) && !Complete(ImagePlay(current, s, more).trees, current)
  {
    var a := ImageMove(i, ImageRenamed);
    var s' := ImageNext(current, s, a);
    assert !Complete(s'.trees, current);
    hide ImagePlay, NoOpens;
    NoImageActs(current, s');
    ImageGo(current, s, a, []);
    more := [a] + [];
  }

  /** After the other swap has closed its copy, this one goes on writing. */
  lemma CopyingLoses(current: string, s: ImageScene, i: nat, j: nat) returns (more: seq<ImageAct>)
    requires i in s.swaps && j in s.swaps && i != j && s.swaps[i].pc.ImageCopying? && s.swaps[j].pc.ImageCopying?
    ensures NoOpens(current, s, more) && !Complete(ImagePlay(current, s, more).trees, current)
  {
    var close, write := ImageMove(i, CopyClosed), ImageMove(j, Written);
    var s1 := ImageNext(current, s, close);
    var s2 := ImageNext(current, s1, write);
    assert s2.swaps[i].pc.ImageStaged? && s2.trees[current + ".new"] == Broken;
    assert !Opens(s, close) && !Opens(s1, write);
    hide ImagePlay, NoOpens, ImageNext;
    var rest := StagedLoses(current, s2, i);
    ImageGo(current, s1, write, rest);
    ImageGo(current, s, close, [write] + rest);
    more := [close] + ([write] + rest);
  }

  lemma UnfitImageLoses(current: string, s: ImageScene, a: ImageAct) returns (more: seq<ImageAct>)
    requires !ImageFit(s, a)
    ensures var s' := ImageNext(current, s, a);
            NoOpens(current, s', more) && !Complete(ImagePlay(current, s', more).trees, current)
  {
    var j := a.id;
    var s' := ImageNext(current, s, a);
    var i :| i in s.swaps && MayRename(s.swaps[i].pc);
    assert s'.swaps[j].pc.ImageCopying? && s'.swaps[i] == s.swaps[i] && s'.trees == s.trees[current + ".new" := Broken];
    hide ImagePlay, NoOpens, ImageNext;
    if s.swaps[i].pc.ImageStaged? { more := StagedLoses(current, s', i); }
    else { more := CopyingLoses(current, s', i, j); }
  }

  lemma {:induction false} ImagePlaySplits(current: string, s: ImageScene, acts: seq<ImageAct>, k: nat)
    requires k <= |acts|
    ensures ImageOrderly(current, s, acts) ==> ImageOrderly(current, s, acts[..k])
    ensures k < |acts| ==>
              ImagePlay(current, s, acts[..k + 1]) == ImageNext(current, ImagePlay(current, s, acts[..k]), acts[k])
    decreases k
  {
    hide ImageNext, ImageFit;
    if k > 0 {
      ImagePlaySplits(current, ImageNext(current, s, acts[0]), acts[1..], k - 1);
      assert acts[..k][1..] == acts[1..][..k - 1];
      assert k < |acts| ==> acts[..k + 1][1..] == acts[1..][..k];
    } else if acts != [] {
      assert acts[..1][1..] == [];
    }
  }

  lemma {:induction false} FirstUnfitImage(current: string, s: ImageScene, acts: seq<ImageAct>) returns (k: nat)
    requires !ImageOrderly(current, s, acts)
    ensures k < |acts| && !ImageFit(ImagePlay(current, s, acts[..k]), acts[k])
    decreases |acts|
  {
    hide ImageNext, ImageFit;
    if !ImageFit(s, acts[0]) {
      k := 0;
    } else {
      var m := FirstUnfitImage(current, ImageNext(current, s, acts[0]), acts[1..]);
      k := m + 1;
      assert acts[..k][1..] == acts[1..][..m];
    }
  }

  /**
   * In any interleaving of any number of swaps, failures and crashes, the image stays complete at its path
   * whatever those already at work go on to do, exactly when no swap opened the staged file while another
   * could still rename it.
   */
  lemma ImageOverlapLosesExactly(current: string, s: ImageScene, acts: seq<ImageAct>)
    requires Complete(s.trees, current) && forall i :: i in s.swaps ==> s.swaps[i].pc.ImageStart?
    ensures ImageOrderly(current, s, acts) <==>
            forall k, more :: 0 <= k <= |acts| && NoOpens(current, ImagePlay(current, s, acts[..k]), more) ==>
              Complete(ImagePlay(current, ImagePlay(current, s, acts[..k]), more).trees, current)
  {
    hide ImageNext, ImagePlay, ImageOrderly, NoOpens, ImageFit;
    assert ImageSound(current, s);
    if ImageOrderly(current, s, acts) {
      forall k, more | 0 <= k <= |acts| && NoOpens(current, ImagePlay(current, s, acts[..k]), more)
        ensures Complete(ImagePlay(current, ImagePlay(current, s, acts[..k]), more).trees, current)
      {
        var now := ImagePlay(current, s, acts[..k]);
        ImagePlaySplits(current, s, acts, k);
        ImageOrderlyKeepsSound(current, s, acts[..k]);
        NoOpensIsOrderly(current, now, more);
        ImageOrderlyKeepsSound(current, now, more);
      }
    } else {
      var k := FirstUnfitImage(current, s, acts);
      ImagePlaySplits(current, s, acts, k);
      var more := UnfitImageLoses(current, ImagePlay(current, s, acts[..k]), acts[k]);
      assert NoOpens(current, ImagePlay(current, s, acts[..k + 1]), more);
    }
  }

  /** Two swaps in which no call fails, one done, and the image it leaves holds nothing whole. */
  lemma {:induction false} TwoImagesLoseAll(current: string, a: string, b: string, trees: Trees)
    requires Complete(trees, current)
    ensures var s := ImageScene(trees, map[0 := ImageSwap(a, ImageStart), 1 := ImageSwap(b, ImageStart)]);
            var s' := ImagePlay(current, s, [ImageMove(0, Truncated)] + ([ImageMove(0, CopyClosed)] +
                                            ([ImageMove(1, Truncated)] + ([ImageMove(0, ImageRenamed)] + []))));
            0 in s'.swaps && s'.swaps[0].pc.ImageDone? && !Complete(s'.trees, current)
  {
    var s := ImageScene(trees, map[0 := ImageSwap(a, ImageStart), 1 := ImageSwap(b, ImageStart)]);
    var a0, a1, a2, a3 := ImageMove(0, Truncated), ImageMove(0, CopyClosed), ImageMove(1, Truncated), ImageMove(0, ImageRenamed);
    var s1 := ImageNext(current, s, a0);
    var s2 := ImageNext(current, s1, a1);
    var s3 := ImageNext(current, s2, a2);
    var s4 := ImageNext(current, s3, a3);
    assert s4.swaps[0].pc.ImageDone? && !Complete(s4.trees, current);
    hide ImageNext, ImagePlay, Complete;
    var none: seq<ImageAct> := [];
    ImageGo(current, s, a0, [a1] + ([a2] + ([a3] + none)));
    ImageGo(current, s1, a1, [a2] + ([a3] + none));
    ImageGo(current, s2, a2, [a3] + none);
    ImageGo(current, s3, a3, none);
    NoImageActs(current, s4);
  }
}
