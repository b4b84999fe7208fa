/**
 * The connection service's runtime over the registry: internal/app/runtime.go. Calls run one after
 * another here; how registry calls interleave is the registry's business.
 */
module Runtime {
  import opened Registry

  /** The registry, how many connections drivers have returned, and which of them were closed. */
  datatype State = State(table: Table, returned: nat, closed: seq<nat>)

  datatype Call = Connect(id: int, dials: bool) | Remove(id: int) | CloseAll(order: seq<nat>)

  /** Removing hands sampling to the smallest id left, when it would otherwise name none. */
  ghost predicate Promotes(before: Table, id: int, after: Table) {
    var t := Removed(before, id);
    && after.conns == t.conns
    && (t.ActiveOr0() != 0 || t.conns == map[] ==> after == t)
    && (t.ActiveOr0() == 0 && t.conns != map[] ==>
          after.activeID in t.conns && forall k :: k in t.conns ==> after.activeID <= k)
  }

  /** One call takes one state to another: the specification the class below meets. */
  ghost predicate Next(s: State, call: Call, s': State) {
    match call
    case Connect(id, dials) =>
      if !dials then s' == s
      else
        && s'.table == Activated(Stored(s.table, id, s.returned), id)
        && s'.returned == s.returned + 1
        && s'.closed == s.closed + Closing(s.table, id)
    case Remove(id) =>
      && Promotes(s.table, id, s'.table)
      && s'.returned == s.returned
      && s'.closed == s.closed + Closing(s.table, id)
    case CloseAll(order) =>
      && s'.table == EMPTY
      && s'.returned == s.returned
      && s'.closed == s.closed + order
      && |order| == |s.table.conns|
      && forall c :: c in order <==> c in s.table.conns.Values
  }

  function Closing(t: Table, id: int): seq<nat> { if id in t.conns then [t.conns[id]] else [] }

  class Runtime {
    const registry: Registry
    var returned: nat
    var closed: seq<nat>

    constructor ()
      ensures fresh(registry) && View() == State(EMPTY, 0, [])
    {
      registry := new Registry();
      returned := 0;
      closed := [];
    }

    ghost function View(): State
      reads this, registry
    {
      State(registry.View(), returned, closed)
    }

    /** `dials` is what the driver answered. */
    method Connect(id: int, dials: bool) returns (ok: bool)
      modifies this, registry
      ensures Next(old(View()), Call.Connect(id, dials), View())
      ensures ok <==> dials
    {
      if !dials { return false; }
      var conn := returned;
      returned := returned + 1;
      var previous := registry.Store(id, conn);
      if previous.Some? { closed := closed + [previous.value]; }
      ok := registry.SetActive(id);
    }

    method Remove(id: int)
      modifies this, registry
      ensures Next(old(View()), Call.Remove(id), View())
    {
      var conn := registry.Take(id);
      if conn.Some? { closed := closed + [conn.value]; }
      var active := registry.ActiveID();
      if active != 0 { return; }
      var remaining := registry.IDs();
      ghost var after := registry.View();
      // With nothing running in between, the first id is taken.
      for i := 0 to |remaining|
        invariant i == 0 && registry.View() == after
        invariant returned == old(returned) && closed == old(closed) + Closing(old(registry.View()), id)
      {
        var ok := registry.SetActive(remaining[i]);
        assert remaining[0] in remaining;
        if ok {
          forall k | k in after.conns ensures remaining[0] <= k {
            assert k in remaining;
          }
          return;
        }
      }
      assert forall k :: k !in after.conns;
      assert after.conns == map[];
    }

    method CloseAll() returns (ghost order: seq<nat>)
      modifies this, registry
      ensures Next(old(View()), Call.CloseAll(order), View())
    {
      var taken := registry.TakeAll();
      order := taken;
      for i := 0 to |taken|
        invariant registry.View() == EMPTY && returned == old(returned)
        invariant closed == old(closed) + taken[..i]
      {
        closed := closed + [taken[i]];
      }
      assert taken[..|taken|] == taken;
    }
  }

  /** The connection just opened is the one sampled, and no other is touched but the one it replaces. */
  lemma ConnectIsSampled(s: State, id: int, s': State)
    requires Next(s, Call.Connect(id, true), s')
    ensures s'.table.activeID == id && id in s'.table.conns && s'.table.conns[id] == s.returned
    ensures s'.table.conns - {id} == s.table.conns - {id}
    ensures s'.closed == s.closed + if id in s.table.conns then [s.table.conns[id]] else []
  {
  }

  /** Removing what was sampled hands over to the smallest id left; removing another changes nothing else. */
  lemma RemoveHandsOver(s: State, id: int, s': State)
    requires Next(s, Call.Remove(id), s') && Kept(s.table)
    ensures s'.table.conns == s.table.conns - {id}
    ensures id != s.table.activeID && s.table.activeID != 0 && s.table.conns != map[] ==>
              s'.table.activeID == s.table.activeID
    ensures id == s.table.activeID && s'.table.conns != map[] ==>
              s'.table.activeID in s'.table.conns && forall k :: k in s'.table.conns ==> s'.table.activeID <= k
    ensures s'.closed == s.closed + if id in s.table.conns then [s.table.conns[id]] else []
  {
  }

  /** A run of calls, one state per call. */
  ghost predicate IsRun(states: seq<State>, calls: seq<Call>) {
    && |states| == |calls| + 1
    && states[0] == State(EMPTY, 0, [])
    && forall i :: 0 <= i < |calls| ==> Next(states[i], calls[i], states[i + 1])
  }

  /** Something is sampled exactly when something is open. */
  ghost predicate Sampled(t: Table) { t.Active() <==> t.conns != map[] }

  ghost predicate Kept(t: Table) { if t.conns == map[] then t.activeID == 0 else t.Active() }

  lemma {:induction false} RunKeeps(states: seq<State>, calls: seq<Call>)
    requires IsRun(states, calls)
    ensures Kept(states[|calls|].table)
    ensures (forall call :: call in calls && call.Connect? ==> call.id > 0) ==>
              forall k :: k in states[|calls|].table.conns ==> k > 0
    decreases |calls|
  {
    if calls != [] {
      var n := |calls| - 1;
      RunKeeps(states[..n + 1], calls[..n]);
      assert Next(states[n], calls[n], states[n + 1]);
      assert calls[n] in calls;
      var before, after := states[n].table, states[n + 1].table;
      match calls[n]
      case Connect(id, dials) => if dials { assert id in after.conns; }
      case Remove(id) => if before.Active() && before.activeID != id { assert before.activeID in after.conns; }
      case CloseAll(_) =>
    }
  }

  /** Whatever ids are used, HasActive says whether any connection is open. */
  lemma {:induction false} HasActiveMeansOpen(states: seq<State>, calls: seq<Call>)
    requires IsRun(states, calls)
    ensures Sampled(states[|calls|].table)
  {
    RunKeeps(states, calls);
  }

  /** ActiveID says the same exactly when the sampled connection is not numbered zero. */
  lemma {:induction false} ActiveIDMeansOpen(states: seq<State>, calls: seq<Call>)
    requires IsRun(states, calls)
    ensures var t := states[|calls|].table;
            (t.ActiveOr0() != 0 <==> t.conns != map[]) <==> !(t.activeID == 0 && 0 in t.conns)
    ensures (forall call :: call in calls && call.Connect? ==> call.id > 0) ==>
              var t := states[|calls|].table;
              (t.ActiveOr0() != 0 <==> t.conns != map[]) && (t.ActiveOr0() != 0 ==> t.ActiveOr0() in t.conns)
  {
    RunKeeps(states, calls);
  }
}
