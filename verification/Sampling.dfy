/**
 * Whether background sampling has a target, over every interleaving of the runtime's calls: the locked
 * sections of internal/driver/registry.go as internal/app/runtime.go strings them together.
 */
module Sampling {
  import opened Text
  import R = Registry

  /**
   * A call, named by what it still has to do. Its number is the registry's: until Opening and Taking end the
   * registry keeps what the call dials, holds or owes.
   */
  datatype Call =
    | Opening(id: int)            // Connect, inside Open
    | Activating(id: int)         // Connect, about to call SetActive
    | Taking                      // Remove, inside Close
    | TakingAll                   // CloseAll
    | Asking                      // Remove, about to call ActiveID
    | Listing                     // Remove, about to call IDs
    | Trying(ids: seq<int>)       // Remove, over the listing

  datatype Service = Service(registry: R.World, calls: map<nat, Call>)

  datatype Action =
    | StartConnect(id: int)
    | StartRemove(id: int)
    | StartCloseAll
    | Dial(call: nat, ok: bool)
    | Store(call: nat)
    | CloseOne(call: nat, conn: nat)
    | Return(call: nat)                     // from Open, Close or CloseAll
    | Activate(call: nat)
    | Ask(call: nat)
    | List(call: nat, ids: seq<int>)
    | Try(call: nat)

  const START := Service(R.START, map[])

  /** Open, Close or CloseAll has nothing left to close. */
  predicate Returning(s: Service, c: nat) { c in s.registry.ops && s.registry.ops[c] == R.Owing({}) }

  function Began(s: Service, a: R.Action, call: Call): Service {
    Service(R.Step(s.registry, a), s.calls[s.registry.next := call])
  }

  function Returned(s: Service, c: nat): Service
    requires c in s.calls
  {
    match s.calls[c]
    case Opening(id) => s.(calls := s.calls[c := Activating(id)])
    case Taking => s.(calls := s.calls[c := Asking])
    case TakingAll => s.(calls := s.calls - {c})
    case _ => s
  }

  /** One locked section, or one step between them; what cannot happen here changes nothing. */
  ghost function Step(s: Service, a: Action): Service {
    var t := s.registry.table;
    match a
    case StartConnect(id) => Began(s, R.Action.StartOpen(id), Opening(id))
    case StartRemove(id) => Began(s, R.Action.StartClose(id), Taking)
    case StartCloseAll => Began(s, R.Action.StartCloseAll, TakingAll)
    case Dial(c, ok) =>
      if c in s.calls && c in s.registry.ops && s.registry.ops[c].Dialling? then
        Service(R.Step(s.registry, R.Action.Dialled(c, ok)), if ok then s.calls else s.calls - {c})
      else s
    case Store(c) => if c in s.calls then s.(registry := R.Step(s.registry, R.Action.Store(c))) else s
    case CloseOne(c, conn) => s.(registry := R.Step(s.registry, R.Action.CloseOne(c, conn)))
    case Return(c) => if c in s.calls && Returning(s, c) then Returned(s, c) else s
    case Activate(c) =>
      if c in s.calls && s.calls[c].Activating? then
        Service(R.Step(s.registry, R.Action.Activate(s.calls[c].id)), s.calls - {c})
      else s
    case Ask(c) =>
      if c in s.calls && s.calls[c].Asking? then
        s.(calls := if t.ActiveOr0() != 0 then s.calls - {c} else s.calls[c := Listing])
      else s
    case List(c, ids) =>
      if c in s.calls && s.calls[c].Listing? && R.SortedStrictly(ids) && (forall k :: k in ids <==> k in t.conns) then
        s.(calls := s.calls[c := Trying(ids)])
      else s
    case Try(c) =>
      if c in s.calls && s.calls[c].Trying? then
        var ids := s.calls[c].ids;
        if ids == [] then s.(calls := s.calls - {c})
        else if ids[0] in t.conns then
          Service(R.Step(s.registry, R.Action.Activate(ids[0])), s.calls - {c})
        else s.(calls := s.calls[c := Trying(ids[1..])])
      else s
  }

  ghost function Run(actions: seq<Action>): Service
    decreases |actions|
  {
    if actions == [] then START else Step(Run(actions[..|actions| - 1]), actions[|actions| - 1])
  }

  // ----- somebody is seeing to it -------------------------------------------------------

  /** Call c will still point sampling at something open. */
  ghost predicate Tends(s: Service, c: nat) {
    && c in s.calls
    && match s.calls[c]
       case Opening(id) => c in s.registry.ops && s.registry.ops[c].Owing? && id in s.registry.table.conns
       case Activating(id) => id in s.registry.table.conns
       case Taking => true
       case TakingAll => false
       case Asking => true
       case Listing => true
       case Trying(ids) => exists k :: k in ids && k in s.registry.table.conns
  }

  /** What a call inside Open dials or holds is for its own id. */
  predicate Linked(s: Service, c: nat) {
    && c < s.registry.next
    && (c in s.calls && s.calls[c].Opening? && c in s.registry.ops ==>
          && (s.registry.ops[c].Dialling? ==> s.registry.ops[c].id == s.calls[c].id)
          && (s.registry.ops[c].Holding? ==> s.registry.ops[c].id == s.calls[c].id))
    && (c in s.calls && !s.calls[c].Opening? && c in s.registry.ops ==> s.registry.ops[c].Owing?)
  }

  ghost predicate Inv(s: Service) {
    && R.Inv(s.registry)
    && (forall c :: c in s.calls ==> Linked(s, c))
    && (forall c :: c in s.registry.ops && !s.registry.ops[c].Owing? ==> c in s.calls)
    && Tended(s)
  }

  /** Something is sampled, nothing is open, or some call will see to it. */
  ghost predicate Tended(s: Service) {
    s.registry.table.Active() || s.registry.table.conns == map[] || exists c :: Tends(s, c)
  }

  lemma SomeKey<K, V>(m: map<K, V>) returns (k: K)
    requires m != map[]
    ensures k in m
  {
    k :| k in m;
  }

  /** The table stays and call c moves or ends; the others go on as they were. */
  lemma OthersTend(s: Service, s': Service, c: nat)
    requires s'.registry.table == s.registry.table && s'.calls - {c} == s.calls - {c}
    requires forall d: nat :: d != c && d in s.registry.ops && s.registry.ops[d].Owing? ==>
               d in s'.registry.ops && s'.registry.ops[d].Owing?
    requires Tended(s) && (Tends(s, c) ==> Tended(s'))
    ensures Tended(s')
  {
    if !s.registry.table.Active() && s.registry.table.conns != map[] {
      var d :| Tends(s, d);
      if d != c {
        assert d in s.calls - {c};
        assert d in s'.calls && s'.calls[d] == (s'.calls - {c})[d] == (s.calls - {c})[d] == s.calls[d];
        assert Tends(s', d);
      }
    }
  }

  lemma StartConnectTends(s: Service, id: int)
    requires Inv(s)
    ensures Tended(Step(s, StartConnect(id)))
  {
    hide R.Inv;
    OthersTend(s, Step(s, StartConnect(id)), s.registry.next);
  }

  lemma DialTends(s: Service, c: nat, ok: bool)
    requires Inv(s)
    ensures Tended(Step(s, Dial(c, ok)))
  {
    hide R.Inv;
    var s' := Step(s, Dial(c, ok));
    if s' != s { OthersTend(s, s', c); }
  }

  lemma StoreTends(s: Service, c: nat)
    requires Inv(s)
    ensures Tended(Step(s, Store(c)))
  {
    hide R.Inv, R.Moved;
    var s' := Step(s, Store(c));
    if c in s.calls && c in s.registry.ops && s.registry.ops[c].Holding? {
      assert Linked(s, c);
      assert Tends(s', c);
    }
  }

  lemma CloseOneTends(s: Service, c: nat, conn: nat)
    requires Inv(s)
    ensures Tended(Step(s, CloseOne(c, conn)))
  {
    hide R.Inv;
    var s' := Step(s, CloseOne(c, conn));
    if Tends(s, c) { assert Tends(s', c); }
    OthersTend(s, s', c);
  }

  lemma ReturnTends(s: Service, c: nat)
    requires Inv(s)
    ensures Tended(Step(s, Return(c)))
  {
    hide R.Inv;
    var s' := Step(s, Return(c));
    if Tends(s, c) { assert Tends(s', c); }
    OthersTend(s, s', c);
  }

  lemma ActivateTends(s: Service, c: nat)
    requires Inv(s)
    ensures Tended(Step(s, Activate(c)))
  {
    hide R.Inv;
    var s' := Step(s, Activate(c));
    if s' != s && s.calls[c].id !in s.registry.table.conns { OthersTend(s, s', c); }
  }

  lemma AskTends(s: Service, c: nat)
    requires Inv(s)
    ensures Tended(Step(s, Ask(c)))
  {
    hide R.Inv;
    var s' := Step(s, Ask(c));
    if s' != s && s.registry.table.ActiveOr0() == 0 { assert Tends(s', c); }
  }

  lemma ListTends(s: Service, c: nat, ids: seq<int>)
    requires Inv(s)
    ensures Tended(Step(s, List(c, ids)))
  {
    hide R.Inv;
    var s' := Step(s, List(c, ids));
    if s' != s && s.registry.table.conns != map[] {
      var k := SomeKey(s.registry.table.conns);
      assert k in ids;
      assert Tends(s', c);
    }
  }

  lemma TryTends(s: Service, c: nat)
    requires Inv(s)
    ensures Tended(Step(s, Try(c)))
  {
    hide R.Inv;
    var s' := Step(s, Try(c));
    if c in s.calls && s.calls[c].Trying? {
      var ids := s.calls[c].ids;
      if ids == [] {
        OthersTend(s, s', c);
      } else if ids[0] !in s.registry.table.conns {
        if Tends(s, c) {
          var k :| k in ids && k in s.registry.table.conns;
          assert k in ids[1..];
          assert Tends(s', c);
        }
        OthersTend(s, s', c);
      }
    }
  }

  lemma StartRemoveTends(s: Service, id: int)
    ensures Tended(Step(s, StartRemove(id)))
  {
    assert Tends(Step(s, StartRemove(id)), s.registry.next);
  }

  /** Sections of the registry keep what links a call to what it dials. */
  lemma StepLinks(s: Service, a: Action)
    requires Inv(s)
    ensures var s' := Step(s, a);
            && (forall c :: c in s'.calls ==> Linked(s', c))
            && (forall c :: c in s'.registry.ops && !s'.registry.ops[c].Owing? ==> c in s'.calls)
  {
    hide R.Moved, Tended;
  }

  lemma RegistryKeepsInv(s: Service, a: Action)
    requires Inv(s)
    ensures R.Inv(Step(s, a).registry)
  {
    hide R.Inv, R.Step, Tended;
    match a
    case StartConnect(id) => R.StepKeepsInv(s.registry, R.Action.StartOpen(id));
    case StartRemove(id) => R.StepKeepsInv(s.registry, R.Action.StartClose(id));
    case StartCloseAll => R.StepKeepsInv(s.registry, R.Action.StartCloseAll);
    case Dial(c, ok) => R.StepKeepsInv(s.registry, R.Action.Dialled(c, ok));
    case Store(c) => R.StepKeepsInv(s.registry, R.Action.Store(c));
    case CloseOne(c, conn) => R.StepKeepsInv(s.registry, R.Action.CloseOne(c, conn));
    case Activate(c) =>
      if c in s.calls && s.calls[c].Activating? { R.StepKeepsInv(s.registry, R.Action.Activate(s.calls[c].id)); }
    case Try(c) =>
      if c in s.calls && s.calls[c].Trying? && s.calls[c].ids != [] {
        R.StepKeepsInv(s.registry, R.Action.Activate(s.calls[c].ids[0]));
      }
    case _ =>
  }

  lemma StepKeepsInv(s: Service, a: Action)
    requires Inv(s)
    ensures Inv(Step(s, a))
  {
    RegistryKeepsInv(s, a);
    StepLinks(s, a);
    StepTends(s, a);
    hide Step, Tended, R.Inv, Linked;
  }

  lemma StepTends(s: Service, a: Action)
    requires Inv(s)
    ensures Tended(Step(s, a))
  {
    hide Inv, Step, Tended;
    match a
    case StartConnect(id) => StartConnectTends(s, id);
    case StartRemove(id) => StartRemoveTends(s, id);
    case StartCloseAll => CloseAllTends(s);
    case Dial(c, ok) => DialTends(s, c, ok);
    case Store(c) => StoreTends(s, c);
    case CloseOne(c, conn) => CloseOneTends(s, c, conn);
    case Return(c) => ReturnTends(s, c);
    case Activate(c) => ActivateTends(s, c);
    case Ask(c) => AskTends(s, c);
    case List(c, ids) => ListTends(s, c, ids);
    case Try(c) => TryTends(s, c);
  }

  lemma CloseAllTends(s: Service)
    ensures Tended(Step(s, StartCloseAll))
  {
  }

  lemma {:induction false} RunKeepsInv(actions: seq<Action>)
    ensures Inv(Run(actions))
    decreases |actions|
  {
    hide Step;
    if actions == [] {
      assert Inv(START);
    } else {
      RunKeepsInv(actions[..|actions| - 1]);
      StepKeepsInv(Run(actions[..|actions| - 1]), actions[|actions| - 1]);
    }
  }

  /**
   * Whatever the interleaving, and whatever ids are used: once every call has returned, HasActive says
   * whether anything is open, and ActiveID says so too unless what is sampled is stored under zero.
   */
  lemma {:induction false} SamplesWhateverIsOpen(actions: seq<Action>)
    requires Run(actions).calls == map[]
    ensures var t := Run(actions).registry.table;
            && (t.Active() <==> t.conns != map[])
            && ((t.ActiveOr0() != 0 <==> t.conns != map[]) <==> !(t.activeID == 0 && 0 in t.conns))
  {
    RunKeepsInv(actions);
    hide Run;
    var s := Run(actions);
    assert forall c :: !Tends(s, c);
  }

  /** And while calls are in flight, whenever something open is not sampled some call will see to it. */
  lemma {:induction false} SomebodySeesToIt(actions: seq<Action>)
    ensures var s := Run(actions);
            s.registry.table.conns != map[] && !s.registry.table.Active() ==> exists c :: Tends(s, c)
  {
    RunKeepsInv(actions);
  }
}
