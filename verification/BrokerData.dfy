/**
 * The request guard behind every board: frontend/src/hooks/useBrokerData.ts. A render fixes which query
 * the hook's closures read; its effect runs later, so ticks and replies can fall in between. React runs
 * a pending effect before it renders again.
 */
module BrokerData {
  import opened Text

  /** What `run` depends on: `load` stands for the identity of the load function. */
  datatype Query = Query(active: bool, conn: int, load: nat)

  /** The query of one render. */
  function QueryOf(enabled: bool, online: bool, conn: int, load: nat): Query {
    Query(enabled && online && conn != 0, conn, load)
  }

  /** What the effect depends on. */
  datatype Deps = Deps(query: Query, refreshMs: Option<nat>)

  /** A reply, with the number of the request it answers. */
  datatype Reply = Reply(request: nat, value: int)

  /**
   * `rendered` is the latest render's, `effected` the latest effect's (none before the first);
   * `asked` records the query of every request ever issued and `inFlight` those not yet answered.
   */
  datatype State = State(
    rendered: Deps, effected: Option<Deps>, timer: Option<Query>, generation: nat,
    data: Option<Reply>, error: Option<nat>, loading: bool, refreshing: bool,
    asked: map<nat, Query>, inFlight: set<nat>)
  {
    predicate Pending() { effected != Some(rendered) }
  }

  datatype Action =
    | Render(deps: Deps)
    | Effect
    | Tick
    | Refresh(query: Query)
    | Answer(request: nat, value: Option<int>)

  function Mounted(deps: Deps): State {
    State(deps, None, None, 0, None, None, true, false, map[], {})
  }

  function Ran(s: State, q: Query, silent: bool): State {
    if !q.active then s
    else
      var current := s.generation + 1;
      s.(generation := current, refreshing := s.refreshing || silent,
         asked := s.asked[current := q], inFlight := s.inFlight + {current})
  }

  /** The query-change effect, after the cleanup of the one before. */
  function Effected(s: State): State {
    if !s.Pending() then s
    else
      var q := s.rendered.query;
      var t := s.(effected := Some(s.rendered), timer := None, generation := s.generation + 1,
                  data := None, error := None, refreshing := false, loading := q.active);
      Ran(t, q, false).(timer := if q.active && s.rendered.refreshMs.Some? then Some(q) else None)
  }

  function Answered(s: State, request: nat, value: Option<int>): State {
    if request !in s.inFlight then s
    else
      var t := s.(inFlight := s.inFlight - {request});
      if request != s.generation then t
      else t.(data := if value.Some? then Some(Reply(request, value.value)) else None,
              error := if value.Some? then None else Some(request),
              loading := false, refreshing := false)
  }

  function Step(s: State, a: Action): State {
    match a
    case Render(deps) => Effected(s).(rendered := deps)
    case Effect => Effected(s)
    case Tick => if s.timer.Some? then Ran(s, s.timer.value, true) else s
    case Refresh(q) => Ran(s, q, true)
    case Answer(request, value) => Answered(s, request, value)
  }

  class Board {
    var rendered: Deps
    var effected: Option<Deps>
    var timer: Option<Query>
    var generation: nat
    var data: Option<Reply>
    var error: Option<nat>
    var loading: bool
    var refreshing: bool
    ghost var asked: map<nat, Query>
    ghost var inFlight: set<nat>

    ghost function View(): State
      reads this
    {
      State(rendered, effected, timer, generation, data, error, loading, refreshing, asked, inFlight)
    }

    constructor (deps: Deps)
      ensures View() == Mounted(deps)
    {
      rendered, effected, timer, generation := deps, None, None, 0;
      data, error, loading, refreshing := None, None, true, false;
      asked, inFlight := map[], {};
    }

    /** The part of run before its await; `request` is none when the closure's query is not active. */
    method Run(q: Query, silent: bool) returns (request: Option<nat>)
      modifies this
      ensures View() == Ran(old(View()), q, silent)
      ensures request == if q.active then Some(generation) else None
    {
      if !q.active { return None; }
      generation := generation + 1;
      asked, inFlight := asked[generation := q], inFlight + {generation};
      if silent { refreshing := true; }
      return Some(generation);
    }

    /** The part of run after its await; no value is a failure. */
    method Land(request: nat, value: Option<int>)
      requires request in inFlight
      modifies this
      ensures View() == Answered(old(View()), request, value)
    {
      inFlight := inFlight - {request};
      if request == generation {
        match value {
          case Some(v) =>
            data := Some(Reply(request, v));
            error := None;
          case None =>
            error := Some(request);
            data := None;
        }
      }
      if request == generation {
        loading := false;
        refreshing := false;
      }
    }

    method OnChange()
      modifies this
      ensures View() == Effected(old(View()))
    {
      if effected == Some(rendered) { return; }
      effected, timer := Some(rendered), None;
      generation := generation + 1;
      data, error, refreshing := None, None, false;
      if !rendered.query.active {
        loading := false;
        return;
      }
      loading := true;
      var _ := Run(rendered.query, false);
      if rendered.refreshMs.Some? { timer := Some(rendered.query); }
    }

    method Render(enabled: bool, online: bool, conn: int, load: nat, refreshMs: Option<nat>)
      modifies this
      ensures View() == Step(old(View()), Action.Render(Deps(QueryOf(enabled, online, conn, load), refreshMs)))
    {
      OnChange();
      var active := enabled && online && conn != 0;
      rendered := Deps(Query(active, conn, load), refreshMs);
    }

    method Tick()
      modifies this
      ensures View() == Step(old(View()), Action.Tick)
    {
      if timer.Some? { var _ := Run(timer.value, true); }
    }
  }

  // ----- every run ----------------------------------------------------------------------

  /** What holds whichever closures callers keep. */
  ghost predicate Guarded(s: State) {
    && (forall g: nat :: g in s.inFlight ==> g in s.asked)
    && (forall g: nat :: g in s.asked ==> g <= s.generation && s.asked[g].active)
    && (s.data.Some? ==>
          && s.data.value.request in s.asked
          && (s.data.value.request == s.generation || s.generation in s.inFlight))
    && (s.error.Some? ==> s.data.None?)
    && (s.effected.Some? ==> (s.loading || s.refreshing <==> s.generation in s.inFlight))
    && (s.effected.None? ==> s.timer.None?)
    && (s.loading ==> s.data.None? || s.effected.None?)
    && (s.timer.Some? ==> s.effected.Some? && s.timer.value == s.effected.value.query)
    && (s.effected.Some? ==>
          (s.timer.Some? <==> s.effected.value.query.active && s.effected.value.refreshMs.Some?))
  }

  /** The query of the latest render or of the latest effect: one and the same unless an effect is pending. */
  predicate OnThePage(s: State, q: Query) {
    q == s.rendered.query || (s.effected.Some? && q == s.effected.value.query)
  }

  /** What shows was asked of a query on the page. */
  predicate ShowsItsOwn(s: State) {
    s.data.Some? ==> s.data.value.request in s.asked && OnThePage(s, s.asked[s.data.value.request])
  }

  /** Everything live is about a query on the page. */
  ghost predicate Current(s: State) {
    && ShowsItsOwn(s)
    && (s.generation in s.inFlight ==> s.generation in s.asked && OnThePage(s, s.asked[s.generation]))
  }

  function Run(s: State, actions: seq<Action>): State
    decreases |actions|
  {
    if actions == [] then s else Run(Step(s, actions[0]), actions[1..])
  }

  /** Every refresh goes through the closure of the latest render. */
  predicate Prompt(s: State, actions: seq<Action>)
    decreases |actions|
  {
    actions != [] ==>
      && (actions[0].Refresh? ==> actions[0].query == s.rendered.query)
      && Prompt(Step(s, actions[0]), actions[1..])
  }

  lemma RanGuards(s: State, q: Query)
    requires Guarded(s)
    ensures Guarded(Ran(s, q, true))
  {
  }

  lemma EffectGuards(s: State)
    requires Guarded(s)
    ensures Guarded(Effected(s))
  {
  }

  lemma StepGuards(s: State, a: Action)
    requires Guarded(s)
    ensures Guarded(Step(s, a))
  {
    hide Ran, Effected;
    match a
    case Render(_) => EffectGuards(s);
    case Effect => EffectGuards(s);
    case Tick => if s.timer.Some? { RanGuards(s, s.timer.value); }
    case Refresh(q) => RanGuards(s, q);
    case Answer(_, _) =>
  }

  lemma RanKeepsCurrent(s: State, q: Query)
    requires Guarded(s) && Current(s) && (q.active ==> OnThePage(s, q))
    ensures Current(Ran(s, q, true))
  {
  }

  lemma EffectKeepsCurrent(s: State)
    requires Guarded(s) && Current(s)
    ensures Current(Effected(s)) && !Effected(s).Pending() && Effected(s).rendered == s.rendered
  {
  }

  lemma RenderKeepsCurrent(s: State, deps: Deps)
    requires Current(s) && !s.Pending()
    ensures Current(s.(rendered := deps))
  {
  }

  lemma AnswerKeepsCurrent(s: State, request: nat, value: Option<int>)
    requires Guarded(s) && Current(s)
    ensures Current(Answered(s, request, value))
  {
  }

  lemma StepKeepsCurrent(s: State, a: Action)
    requires Guarded(s) && Current(s) && (a.Refresh? && a.query.active ==> a.query == s.rendered.query)
    ensures Current(Step(s, a))
  {
    if a.Tick? && s.timer.Some? { RanKeepsCurrent(s, s.timer.value); }
    hide Guarded, Current, Ran, Effected, Answered;
    match a
    case Render(deps) =>
      EffectKeepsCurrent(s);
      RenderKeepsCurrent(Effected(s), deps);
    case Effect => EffectKeepsCurrent(s);
    case Tick =>
    case Refresh(q) => RanKeepsCurrent(s, q);
    case Answer(request, value) => AnswerKeepsCurrent(s, request, value);
  }

  lemma {:induction false} RunGuards(s: State, actions: seq<Action>)
    requires Guarded(s)
    ensures Guarded(Run(s, actions))
    ensures Current(s) && Prompt(s, actions) ==> Current(Run(s, actions))
    decreases |actions|
  {
    if actions != [] {
      StepGuards(s, actions[0]);
      if Current(s) && Prompt(s, actions) { StepKeepsCurrent(s, actions[0]); }
      RunGuards(Step(s, actions[0]), actions[1..]);
    }
  }

  /** No request newer than g was issued. */
  predicate IsNewest(s: State, g: nat) { forall h :: h in s.asked ==> h <= g }

  predicate NewestInFlight(s: State) { exists g :: g in s.inFlight && g == s.generation && IsNewest(s, g) }

  /** Data on show answers the newest request, or that one is still on its way and the board says so. */
  lemma {:induction false} ShowsTheNewest(deps: Deps, actions: seq<Action>)
    ensures var s := Run(Mounted(deps), actions);
            && (s.data.Some? ==> IsNewest(s, s.data.value.request) || NewestInFlight(s))
            && (s.effected.Some? ==> (s.loading || s.refreshing <==> NewestInFlight(s)))
            && !(s.data.Some? && s.error.Some?)
  {
    RunGuards(Mounted(deps), actions);
  }

  /**
   * With current closures, what shows was asked of the query on the page once its effect has run; until
   * then of that query or of the one the page showed just before.
   */
  lemma {:induction false} StaleNeverShows(deps: Deps, actions: seq<Action>)
    requires Prompt(Mounted(deps), actions)
    ensures var s := Run(Mounted(deps), actions);
            s.data.Some? ==>
              && s.data.value.request in s.asked
              && var q := s.asked[s.data.value.request];
                 && (!s.Pending() ==> q == s.rendered.query)
                 && (s.Pending() ==> q == s.rendered.query || (s.effected.Some? && q == s.effected.value.query))
  {
    RunGuards(Mounted(deps), actions);
  }

  /** The old page's data really can show for that moment. */
  lemma {:induction false} WindowShowsTheOldPage()
    ensures var one, two := Query(true, 1, 0), Query(true, 2, 0);
            var s := Run(Mounted(Deps(one, None)), [Effect, Answer(2, Some(7)), Render(Deps(two, None))]);
            s.Pending() && s.rendered.query == two && s.data == Some(Reply(2, 7)) && 2 in s.asked && s.asked[2] == one
  {
    var one, two := Query(true, 1, 0), Query(true, 2, 0);
    var s0 := Mounted(Deps(one, None));
    var s1 := Step(s0, Effect);
    var s2 := Step(s1, Answer(2, Some(7)));
    var s3 := Step(s2, Render(Deps(two, None)));
    var actions := [Effect, Answer(2, Some(7)), Render(Deps(two, None))];
    calc {
      Run(s0, actions);
      Run(s1, actions[1..]);
      Run(s2, actions[2..]);
      Run(s3, actions[3..]);
      s3;
    }
  }

  /** A timer runs exactly while the page is active and asks to be refreshed, and asks the page's own query. */
  lemma {:induction false} TimerRunsExactly(deps: Deps, actions: seq<Action>)
    ensures var s := Run(Mounted(deps), actions);
            !s.Pending() ==>
              && (s.timer.Some? <==> s.rendered.query.active && s.rendered.refreshMs.Some?)
              && (s.timer.Some? ==> s.timer.value == s.rendered.query)
  {
    RunGuards(Mounted(deps), actions);
  }

  /**
   * The newest request's answer shows: a value in place of what was there, a failure as its error and no data.
   * Either way the board is idle again. Any other answer changes nothing one sees.
   */
  lemma AnswerShows(s: State, request: nat, value: Option<int>)
    requires Guarded(s) && request in s.inFlight
    ensures var s' := Step(s, Answer(request, value));
            && request !in s'.inFlight && s'.generation == s.generation && s'.timer == s.timer
            && (IsNewest(s, request) && request == s.generation ==>
                  && !s'.loading && !s'.refreshing
                  && (value.Some? ==> s'.data == Some(Reply(request, value.value)) && s'.error.None?)
                  && (value.None? ==> s'.data.None? && s'.error == Some(request)))
            && (request != s.generation ==>
                  && s'.data == s.data && s'.error == s.error
                  && s'.loading == s.loading && s'.refreshing == s.refreshing)
  {
  }

  /** A change of query clears the board and asks anew exactly when the page is active; nothing older counts. */
  lemma EffectAsksAnew(s: State)
    requires Guarded(s) && s.Pending()
    ensures var s' := Step(s, Effect);
            && !s'.Pending() && s'.data.None? && s'.error.None? && !s'.refreshing
            && (s'.loading <==> s.rendered.query.active)
            && (forall g :: g in s.inFlight ==> g in s'.inFlight && g < s'.generation)
            && (s.rendered.query.active ==>
                  && s'.inFlight - s.inFlight == {s'.generation} && s'.generation in s'.asked
                  && s'.asked[s'.generation] == s.rendered.query)
            && (!s.rendered.query.active ==> s'.inFlight == s.inFlight)
  {
  }

  /** A refresh or a tick asks once more and says so, leaving what shows until the answer comes. */
  lemma RefreshAsksAgain(s: State, q: Query)
    requires Guarded(s) && q.active
    ensures var s' := Step(s, Refresh(q));
            && s'.refreshing && s'.data == s.data && s'.error == s.error && s'.loading == s.loading
            && s'.inFlight - s.inFlight == {s'.generation} && IsNewest(s', s'.generation)
            && s'.generation in s'.asked && s'.asked[s'.generation] == q
  {
  }

  /** With nothing dialled the page is empty and idle. */
  lemma {:induction false} OfflineIsEmpty(deps: Deps, actions: seq<Action>)
    requires Prompt(Mounted(deps), actions)
    ensures var s := Run(Mounted(deps), actions);
            !s.Pending() && !s.rendered.query.active ==> s.data.None? && !s.loading && !s.refreshing
  {
    RunGuards(Mounted(deps), actions);
  }

  /**
   * A refresh is harmless exactly when its closure is dead or is that of a query on the page, pending effect
   * or not: otherwise its own reply, with every later closure current, puts another query's data there.
   */
  lemma {:induction false} RefreshIsHarmlessExactly(s: State, q: Query)
    requires Guarded(s) && Current(s)
    ensures (!q.active || OnThePage(s, q)) <==>
            forall more :: Prompt(Step(s, Refresh(q)), more) ==> ShowsItsOwn(Run(Step(s, Refresh(q)), more))
  {
    var t := Step(s, Refresh(q));
    if !q.active || OnThePage(s, q) {
      StepGuards(s, Refresh(q));
      RanKeepsCurrent(s, q);
      hide Prompt, Step, Run;
      forall more | Prompt(t, more) ensures ShowsItsOwn(Run(t, more)) { RunGuards(t, more); }
    } else {
      var reply := Answer(t.generation, Some(0));
      ReplyAlone(t, reply);
      assert Step(t, reply).asked[t.generation] == q;
      hide Prompt, Run;
      assert Prompt(t, [reply]) && !ShowsItsOwn(Run(t, [reply]));
    }
  }

  lemma ReplyAlone(s: State, a: Action)
    requires a.Answer?
    ensures Prompt(s, [a]) && Run(s, [a]) == Step(s, a)
  {
    hide Step;
    assert [a][1..] == [];
    assert Prompt(Step(s, a), []) && Run(Step(s, a), []) == Step(s, a);
  }

  /** A closure kept from another connection puts that connection's data on this one's page. */
  lemma {:induction false} KeptClosureShowsStale()
    ensures var one, two := Query(true, 1, 0), Query(true, 2, 0);
            var s := Run(Mounted(Deps(one, None)),
                         [Effect, Render(Deps(two, None)), Effect, Refresh(one), Answer(5, Some(7))]);
            !s.Pending() && s.rendered.query == two && s.data == Some(Reply(5, 7)) && 5 in s.asked && s.asked[5] == one
  {
    var one, two := Query(true, 1, 0), Query(true, 2, 0);
    var s0 := Mounted(Deps(one, None));
    var s1 := Step(s0, Effect);
    var s2 := Step(s1, Render(Deps(two, None)));
    var s3 := Step(s2, Effect);
    var s4 := Step(s3, Refresh(one));
    var s5 := Step(s4, Answer(5, Some(7)));
    assert s4.generation == 5;
    var actions := [Effect, Render(Deps(two, None)), Effect, Refresh(one), Answer(5, Some(7))];
    calc {
      Run(s0, actions);
      Run(s1, actions[1..]);
      Run(s2, actions[2..]);
      Run(s3, actions[3..]);
      Run(s4, actions[4..]);
      Run(s5, actions[5..]);
      s5;
    }
  }

  predicate AllAnswers(actions: seq<Action>) { forall a :: a in actions ==> a.Answer? }

  /** Only the answers to request g. */
  function AnswersTo(actions: seq<Action>, g: nat): seq<Action> {
    if actions == [] then []
    else
      var a := actions[0];
      (if a.Answer? && a.request == g then [a] else []) + AnswersTo(actions[1..], g)
  }

  predicate LooksLike(s: State, t: State) {
    && s.data == t.data && s.error == t.error && s.loading == t.loading && s.refreshing == t.refreshing
    && s.generation == t.generation && (s.generation in s.inFlight <==> t.generation in t.inFlight)
  }

  /** In whatever order replies land, the page looks as if only the newest request had been answered. */
  lemma {:induction false} OldRepliesLeaveNoTrace(s: State, t: State, answers: seq<Action>)
    requires AllAnswers(answers) && LooksLike(s, t)
    ensures LooksLike(Run(s, answers), Run(t, AnswersTo(answers, s.generation)))
    decreases |answers|
  {
    if answers != [] {
      var a, rest := answers[0], answers[1..];
      assert a.Answer?;
      assert AllAnswers(rest);
      assert Step(s, a).generation == s.generation;
      var t' := if a.request == s.generation then Step(t, a) else t;
      OldRepliesLeaveNoTrace(Step(s, a), t', rest);
      if a.request == s.generation {
        var mine := AnswersTo(rest, s.generation);
        assert AnswersTo(answers, s.generation) == [a] + mine && ([a] + mine)[1..] == mine;
      } else {
        assert AnswersTo(answers, s.generation) == AnswersTo(rest, s.generation);
      }
    }
  }
}
