/**
 * The one-slot publisher: `pending`, the one-place notify channel and the pump goroutine of
 * internal/update/manager.go.
 */
module Publisher {
  import opened Text

  /** Where the pump is: in its select, past the receive, or between unlock and emit. */
  datatype Pump<T> = Waiting | Woken | Holding(index: nat, value: T) | Exited

  /** history is every state ever published; emitted is what the listener was given, with its position. */
  datatype Slot<T> = Slot(
    history: seq<T>, pending: Option<T>, notify: bool,
    pump: Pump<T>, emitted: seq<(nat, T)>, stopped: bool)

  datatype Event<T> = Publish(value: T) | Wake | Take | Emit | Stop | Exit

  function Fresh<T>(): Slot<T> { Slot([], None, false, Waiting, [], false) }

  function Published<T>(s: Slot<T>, value: T): Slot<T> {
    s.(history := s.history + [value], pending := Some(value), notify := true)
  }

  /** One atomic step; one that cannot happen here changes nothing. */
  function Step<T>(s: Slot<T>, e: Event<T>): Slot<T> {
    match e
    case Publish(value) => Published(s, value)
    case Wake => if s.pump.Waiting? && s.notify then s.(notify := false, pump := Woken) else s
    case Take => if s.pump.Woken? && s.pending.Some? && s.history != []
                 then s.(pump := Holding(|s.history| - 1, s.pending.value)) else s
    case Emit => if s.pump.Holding? then s.(pump := Waiting, emitted := s.emitted + [(s.pump.index, s.pump.value)]) else s
    case Stop => s.(stopped := true)
    case Exit => if s.pump.Waiting? && s.stopped then s.(pump := Exited) else s
  }

  /** What the listener has seen is what was published, in order, with repeats and gaps allowed. */
  ghost predicate InOrder<T>(s: Slot<T>) {
    && (forall i :: 0 <= i < |s.emitted| ==> s.emitted[i].0 < |s.history| && s.emitted[i].1 == s.history[s.emitted[i].0])
    && (forall i, j :: 0 <= i < j < |s.emitted| ==> s.emitted[i].0 <= s.emitted[j].0)
  }

  function LastIndex<T>(s: Slot<T>): int {
    if s.emitted == [] then -1 else s.emitted[|s.emitted| - 1].0
  }

  ghost predicate Inv<T>(s: Slot<T>) {
    && InOrder(s)
    && (s.history == [] ==> !s.notify && s.pump != Woken && !s.pump.Holding? && s.pending == None)
    && (s.history != [] ==> s.pending == Some(s.history[|s.history| - 1]))
    && (s.pump.Holding? ==> s.pump.index < |s.history| && s.pump.value == s.history[s.pump.index]
                            && LastIndex(s) <= s.pump.index)
    && (!s.notify && s.pump.Holding? ==> s.pump.index == |s.history| - 1)
    && (!s.notify && s.pump.Waiting? ==> LastIndex(s) == |s.history| - 1)
  }

  lemma StepKeepsInv<T>(s: Slot<T>, e: Event<T>)
    requires Inv(s)
    ensures Inv(Step(s, e))
  {
  }

  function Run<T>(events: seq<Event<T>>): Slot<T>
    decreases |events|
  {
    if events == [] then Fresh() else Step(Run(events[..|events| - 1]), events[|events| - 1])
  }

  lemma {:induction false} RunKeepsInv<T>(events: seq<Event<T>>)
    ensures Inv(Run(events))
    decreases |events|
  {
    if events != [] {
      RunKeepsInv(events[..|events| - 1]);
      StepKeepsInv(Run(events[..|events| - 1]), events[|events| - 1]);
    }
  }

  /** The last word is never lost: once quiet, the listener has the newest state. */
  lemma LastWord<T>(s: Slot<T>)
    requires Inv(s) && s.history != [] && !s.notify && s.pump.Waiting?
    ensures s.emitted != [] && s.emitted[|s.emitted| - 1] == (|s.history| - 1, s.history[|s.history| - 1])
  {
  }

  /** The pump only ever leaves after Close. */
  lemma {:induction false} LeavesOnlyAfterStop<T>(events: seq<Event<T>>)
    ensures Run(events).stopped <==> Stop in events
    ensures Run(events).pump.Exited? ==> Stop in events
    decreases |events|
  {
    if events != [] {
      var init, e := events[..|events| - 1], events[|events| - 1];
      LeavesOnlyAfterStop(init);
      assert events == init + [e];
    }
  }

  /** The pump finishes what it holds. */
  function Settle<T>(s: Slot<T>): Slot<T> { Step(Step(s, Take), Emit) }

  /** What the pump does on its own until it has nothing left to deliver. */
  function Drain<T>(s: Slot<T>): Slot<T> { Settle(Step(Settle(s), Wake)) }

  lemma SettleWaits<T>(s: Slot<T>)
    requires Inv(s) && !s.pump.Exited?
    ensures var a := Settle(s);
            Inv(a) && a.pump.Waiting? && a.history == s.history && a.notify == s.notify && s.emitted <= a.emitted
  {
    StepKeepsInv(s, Take);
    StepKeepsInv(Step(s, Take), Emit);
  }

  /** Before Close the pump alone brings the listener up to date in at most five steps. */
  lemma DrainDelivers<T>(s: Slot<T>)
    requires Inv(s) && s.history != [] && !s.pump.Exited?
    ensures var d := Drain(s);
            && d.history == s.history && s.emitted <= d.emitted
            && d.emitted != [] && d.emitted[|d.emitted| - 1] == (|s.history| - 1, s.history[|s.history| - 1])
  {
    SettleWaits(s);
    var a := Settle(s);
    var b := Step(a, Wake);
    StepKeepsInv(a, Wake);
    SettleWaits(b);
    LastWord(Settle(b));
  }

  lemma StepExtends<T>(s: Slot<T>, e: Event<T>)
    ensures s.emitted <= Step(s, e).emitted && s.history <= Step(s, e).history
  {
  }

  /** Whatever happens, what was delivered stays delivered and in publish order. */
  lemma {:induction false} DeliveredInOrder<T>(events: seq<Event<T>>, more: seq<Event<T>>)
    ensures InOrder(Run(events + more))
    ensures Run(events).emitted <= Run(events + more).emitted && Run(events).history <= Run(events + more).history
    decreases |more|
  {
    RunKeepsInv(events + more);
    hide Step;
    if more == [] {
      assert events + more == events;
    } else {
      var init := more[..|more| - 1];
      assert (events + more)[..|events + more| - 1] == events + init;
      DeliveredInOrder(events, init);
      StepExtends(Run(events + init), more[|more| - 1]);
    }
  }
}
