/**
 * Open broker connections, keyed by profile: internal/driver/registry.go. Connections are numbered in
 * the order drivers return them; closing them happens outside the lock.
 */
module Registry {
  import opened Text

  /** What the mutex guards. */
  datatype Table = Table(conns: map<int, nat>, activeID: int) {
    predicate Active() { activeID in conns }

    /** ActiveID() of the source. */
    function ActiveOr0(): int { if activeID in conns then activeID else 0 }
  }

  const EMPTY := Table(map[], 0)

  function Stored(t: Table, id: int, conn: nat): Table { t.(conns := t.conns[id := conn]) }

  function Removed(t: Table, id: int): Table {
    Table(t.conns - {id}, if t.activeID == id then 0 else t.activeID)
  }

  function Activated(t: Table, id: int): Table {
    if id in t.conns then t.(activeID := id) else t
  }

  function Lookup(t: Table, id: int): Option<nat> {
    if id in t.conns then Some(t.conns[id]) else None
  }

  function AsSet(o: Option<nat>): set<nat> { if o.Some? then {o.value} else {} }

  predicate SortedStrictly(ids: seq<int>) {
    forall i, j :: 0 <= i < j < |ids| ==> ids[i] < ids[j]
  }

  lemma KeyOf<K, V>(m: map<K, V>, v: V) returns (k: K)
    requires v in m.Values
    ensures k in m && m[k] == v
  {
    k :| k in m && m[k] == v;
  }

  /** The smallest of a set, as the sorted listing needs it. */
  method Least(s: set<int>) returns (least: int)
    requires s != {}
    ensures least in s && forall k :: k in s ==> least <= k
  {
    least := Pick(s);
    var rest := s - {least};
    while rest != {}
      invariant least in s && rest <= s
      invariant forall k :: k in s ==> k in rest || least <= k
      decreases rest
    {
      var k := Pick(rest);
      rest := rest - {k};
      if k < least { least := k; }
    }
  }

  class Registry {
    var conns: map<int, nat>
    var activeID: int

    ghost function View(): Table
      reads this
    {
      Table(conns, activeID)
    }

    constructor ()
      ensures View() == EMPTY
    {
      conns := map[];
      activeID := 0;
    }

    /** The locked section of Open: the connection it hands back is the caller's to close. */
    method Store(id: int, conn: nat) returns (previous: Option<nat>)
      modifies this
      ensures View() == Stored(old(View()), id, conn) && previous == Lookup(old(View()), id)
    {
      previous := if id in conns then Some(conns[id]) else None;
      conns := conns[id := conn];
    }

    /** The locked section of Close. */
    method Take(id: int) returns (conn: Option<nat>)
      modifies this
      ensures View() == Removed(old(View()), id) && conn == Lookup(old(View()), id)
    {
      conn := if id in conns then Some(conns[id]) else None;
      conns := conns - {id};
      if activeID == id { activeID := 0; }
    }

    /** The locked section of CloseAll: the connections come in whatever order the map yields them. */
    method TakeAll() returns (taken: seq<nat>)
      modifies this
      ensures View() == EMPTY
      ensures |taken| == |old(conns)|
      ensures forall c :: c in taken <==> c in old(conns).Values
    {
      taken := [];
      var keys := conns.Keys;
      ghost var seen: set<int> := {};
      while keys != {}
        invariant keys + seen == conns.Keys && keys !! seen && conns == old(conns)
        invariant |taken| == |seen|
        invariant forall k :: k in seen ==> conns[k] in taken
        invariant forall c :: c in taken ==> c in conns.Values
        decreases keys
      {
        var k := Pick(keys);
        keys, seen := keys - {k}, seen + {k};
        taken := taken + [conns[k]];
      }
      assert seen == conns.Keys;
      forall c | c in conns.Values ensures c in taken { var k := KeyOf(conns, c); }
      conns := map[];
      activeID := 0;
    }

    method SetActive(id: int) returns (ok: bool)
      modifies this`activeID
      ensures ok <==> id in conns
      ensures ok ==> activeID == id
      ensures View() == Activated(old(View()), id)
    {
      ok := id in conns;
      if ok { activeID := id; }
    }

    method ActiveID() returns (id: int)
      ensures id == View().ActiveOr0()
    {
      if activeID !in conns { return 0; }
      return activeID;
    }

    method HasActive() returns (yes: bool)
      ensures yes <==> View().Active()
    {
      yes := activeID in conns;
    }

    /** IDs: every open connection once, smallest first. */
    method IDs() returns (ids: seq<int>)
      ensures SortedStrictly(ids) && forall k :: k in ids <==> k in conns
    {
      ids := [];
      var keys := conns.Keys;
      while keys != {}
        invariant keys <= conns.Keys && SortedStrictly(ids)
        invariant forall k :: k in conns.Keys <==> k in ids || k in keys
        invariant forall i, k :: 0 <= i < |ids| && k in keys ==> ids[i] < k
        decreases keys
      {
        var least := Least(keys);
        keys := keys - {least};
        ids := ids + [least];
      }
    }
  }

  // ----- every interleaving of Open, Close, CloseAll and SetActive ----------------------

  /** A call in flight: dialling, holding a fresh connection, or owing closes to old ones. */
  datatype Op = Dialling(id: int) | Holding(id: int, conn: nat) | Owing(conns: set<nat>)

  /** Where a connection can be. */
  datatype Place = Unstored(op: nat) | InMap(id: int) | Owed(op: nat) | Done

  /**
   * `next` numbers calls and `returned` connections, both from zero; `closes` lists every Close a driver
   * saw; `place` is kept for the proof only.
   */
  datatype World = World(
    table: Table, ops: map<nat, Op>, next: nat, returned: nat, closes: seq<nat>, place: map<nat, Place>)

  datatype Action =
    | StartOpen(id: int)
    | Dialled(op: nat, ok: bool)
    | Store(op: nat)
    | StartClose(id: int)
    | StartCloseAll
    | CloseOne(op: nat, conn: nat)
    | Activate(id: int)

  const START := World(EMPTY, map[], 0, 0, [], map[])

  function Moved(place: map<nat, Place>, cs: set<nat>, to: Place): map<nat, Place> {
    map c | c in place :: if c in cs then to else place[c]
  }

  /** A critical section ends: the table is `table`, and call `op` owes `cs` their closes. */
  function Owe(w: World, table: Table, op: nat, cs: set<nat>): World {
    World(table, w.ops[op := Owing(cs)], if op == w.next then w.next + 1 else w.next, w.returned, w.closes,
          Moved(w.place, cs, Owed(op)))
  }

  function Step(w: World, a: Action): World {
    match a
    case StartOpen(id) => w.(ops := w.ops[w.next := Dialling(id)], next := w.next + 1)
    case Dialled(op, ok) =>
      if op !in w.ops || !w.ops[op].Dialling? then w
      else if !ok then w.(ops := w.ops - {op})
      else w.(ops := w.ops[op := Holding(w.ops[op].id, w.returned)], returned := w.returned + 1,
              place := w.place[w.returned := Unstored(op)])
    case Store(op) =>
      if op !in w.ops || !w.ops[op].Holding? then w
      else
        var id, conn := w.ops[op].id, w.ops[op].conn;
        var owing := Owe(w, Stored(w.table, id, conn), op, AsSet(Lookup(w.table, id)));
        owing.(place := owing.place[conn := InMap(id)])
    case StartClose(id) => Owe(w, Removed(w.table, id), w.next, AsSet(Lookup(w.table, id)))
    case StartCloseAll => Owe(w, EMPTY, w.next, w.table.conns.Values)
    case CloseOne(op, conn) =>
      if op !in w.ops || !w.ops[op].Owing? || conn !in w.ops[op].conns then w
      else w.(ops := w.ops[op := Owing(w.ops[op].conns - {conn})],
              closes := w.closes + [conn], place := w.place[conn := Done])
    case Activate(id) => w.(table := Activated(w.table, id))
  }

  predicate IsAt(w: World, c: nat, p: Place) {
    match p
    case Unstored(o) => o in w.ops && w.ops[o].Holding? && w.ops[o].conn == c
    case InMap(id) => id in w.table.conns && w.table.conns[id] == c
    case Owed(o) => o in w.ops && w.ops[o].Owing? && c in w.ops[o].conns
    case Done => c in w.closes
  }

  ghost predicate Inv(w: World) {
    && (forall c: nat :: c in w.place <==> c < w.returned)
    && (forall o: nat :: o in w.ops ==> o < w.next)
    && (forall c, p :: IsAt(w, c, p) ==> c in w.place && w.place[c] == p)
    && (forall c :: c in w.place ==> IsAt(w, c, w.place[c]))
    && NoRepeats(w.closes)
    && (w.table.activeID == 0 || w.table.activeID in w.table.conns)
  }

  /** What the critical sections of Open, Close and CloseAll share. */
  lemma OweKeepsPlaces(w: World, table: Table, op: nat, cs: set<nat>, w': World)
    requires Inv(w) && w' == Owe(w, table, op, cs) && op == w.next
    requires forall id :: id in table.conns ==> id in w.table.conns && w.table.conns[id] == table.conns[id]
    requires forall id :: id in w.table.conns ==> (id in table.conns <==> w.table.conns[id] !in cs)
    requires forall c :: c in cs ==> c in w.place && w.place[c].InMap?
    requires table.activeID == 0 || table.activeID in table.conns
    ensures Inv(w')
  {
    forall c, p | IsAt(w', c, p) ensures c in w'.place && w'.place[c] == p {
      if p != Owed(op) { assert IsAt(w, c, p); }
    }
    forall c | c in w'.place ensures IsAt(w', c, w'.place[c]) {
      assert IsAt(w, c, w.place[c]);
    }
  }

  lemma DialledKeepsInv(w: World, op: nat, ok: bool)
    requires Inv(w)
    ensures Inv(Step(w, Dialled(op, ok)))
  {
    var w' := Step(w, Dialled(op, ok));
    forall c, p | IsAt(w', c, p) ensures c in w'.place && w'.place[c] == p {
      if p != Unstored(op) { assert IsAt(w, c, p); }
    }
    forall c | c in w'.place ensures IsAt(w', c, w'.place[c]) {
      if c < w.returned { assert IsAt(w, c, w.place[c]); }
    }
  }

  lemma StoreKeepsInv(w: World, op: nat)
    requires Inv(w)
    ensures Inv(Step(w, Store(op)))
  {
    var w' := Step(w, Store(op));
    if op in w.ops && w.ops[op].Holding? {
      var id, conn := w.ops[op].id, w.ops[op].conn;
      assert IsAt(w, conn, Unstored(op));
      if id in w.table.conns { assert IsAt(w, w.table.conns[id], InMap(id)); }
      forall c, p | IsAt(w', c, p) ensures c in w'.place && w'.place[c] == p {
        if p != Owed(op) && p != InMap(id) { assert IsAt(w, c, p); }
      }
      forall c | c in w'.place ensures IsAt(w', c, w'.place[c]) {
        assert IsAt(w, c, w.place[c]);
      }
    }
  }

  lemma CloseOneKeepsInv(w: World, op: nat, conn: nat)
    requires Inv(w)
    ensures Inv(Step(w, CloseOne(op, conn)))
  {
    var w' := Step(w, CloseOne(op, conn));
    if op in w.ops && w.ops[op].Owing? && conn in w.ops[op].conns {
      assert IsAt(w, conn, Owed(op));
      forall c, p | IsAt(w', c, p) ensures c in w'.place && w'.place[c] == p {
        if c != conn { assert IsAt(w, c, p); }
        else if p != Done { assert IsAt(w, c, p); assert false; }
      }
      forall c | c in w'.place ensures IsAt(w', c, w'.place[c]) {
        assert IsAt(w, c, w.place[c]);
      }
      assert NoRepeats(w'.closes) by {
        if conn in w.closes { assert IsAt(w, conn, Done); assert false; }
      }
    }
  }

  lemma StepKeepsInv(w: World, a: Action)
    requires Inv(w)
    ensures Inv(Step(w, a))
  {
    match a
    case StartOpen(id) => StartOpenKeepsInv(w, id);
    case Dialled(op, ok) => DialledKeepsInv(w, op, ok);
    case Store(op) => StoreKeepsInv(w, op);
    case StartClose(id) =>
      if id in w.table.conns { assert IsAt(w, w.table.conns[id], InMap(id)); }
      MapIsInjective(w);
      OweKeepsPlaces(w, Removed(w.table, id), w.next, AsSet(Lookup(w.table, id)), Step(w, a));
    case StartCloseAll =>
      MapIsInjective(w);
      forall c | c in w.table.conns.Values ensures c in w.place && w.place[c].InMap? {
        var id := KeyOf(w.table.conns, c);
      }
      OweKeepsPlaces(w, EMPTY, w.next, w.table.conns.Values, Step(w, a));
    case CloseOne(op, conn) => CloseOneKeepsInv(w, op, conn);
    case Activate(id) =>
      var w' := Step(w, a);
      forall c, p | IsAt(w', c, p) ensures c in w'.place && w'.place[c] == p { assert IsAt(w, c, p); }
      forall c | c in w'.place ensures IsAt(w', c, w'.place[c]) { assert IsAt(w, c, w.place[c]); }
  }

  lemma StartOpenKeepsInv(w: World, id: int)
    requires Inv(w)
    ensures Inv(Step(w, StartOpen(id)))
  {
    var w' := Step(w, StartOpen(id));
    forall c, p | IsAt(w', c, p) ensures c in w'.place && w'.place[c] == p { assert IsAt(w, c, p); }
    forall c | c in w'.place ensures IsAt(w', c, w'.place[c]) { assert IsAt(w, c, w.place[c]); }
  }

  /** No connection is stored under two ids. */
  lemma MapIsInjective(w: World)
    requires Inv(w)
    ensures forall id :: id in w.table.conns ==>
              w.table.conns[id] in w.place && w.place[w.table.conns[id]] == InMap(id)
  {
    forall id | id in w.table.conns
      ensures w.table.conns[id] in w.place && w.place[w.table.conns[id]] == InMap(id)
    {
      assert IsAt(w, w.table.conns[id], InMap(id));
    }
  }

  function Run(w: World, actions: seq<Action>): World
    decreases |actions|
  {
    if actions == [] then w else Run(Step(w, actions[0]), actions[1..])
  }

  lemma {:induction false} RunKeepsInv(w: World, actions: seq<Action>)
    requires Inv(w)
    ensures Inv(Run(w, actions))
    decreases |actions|
  {
    if actions != [] {
      StepKeepsInv(w, actions[0]);
      RunKeepsInv(Step(w, actions[0]), actions[1..]);
    }
  }

  /** Every connection a driver returned is in exactly one place, and closed at most once. */
  lemma {:induction false} Conservation(actions: seq<Action>, c: nat)
    requires c < Run(START, actions).returned
    ensures exists p :: IsAt(Run(START, actions), c, p) && forall q :: IsAt(Run(START, actions), c, q) ==> q == p
    ensures NoRepeats(Run(START, actions).closes)
  {
    RunKeepsInv(START, actions);
    var w := Run(START, actions);
    assert IsAt(w, c, w.place[c]);
  }

  /** Only connections a driver returned are stored, owed or closed. */
  lemma {:induction false} NothingFromNowhere(actions: seq<Action>, c: nat, p: Place)
    requires IsAt(Run(START, actions), c, p)
    ensures c < Run(START, actions).returned
  {
    RunKeepsInv(START, actions);
  }

  predicate AllReturned(w: World) { forall o :: o in w.ops ==> w.ops[o] == Owing({}) }

  /** With every call returned, what is not open was closed: nothing leaks and nothing open was closed. */
  lemma {:induction false} NoLeaks(actions: seq<Action>, c: nat)
    requires AllReturned(Run(START, actions)) && c < Run(START, actions).returned
    ensures c in Run(START, actions).closes <==> c !in Run(START, actions).table.conns.Values
  {
    Conservation(actions, c);
    RunKeepsInv(START, actions);
    var w := Run(START, actions);
    var p := w.place[c];
    assert IsAt(w, c, p);
    match p
    case InMap(id) => if c in w.closes { assert IsAt(w, c, Done); assert false; }
    case Done =>
      if c in w.table.conns.Values {
        var id := KeyOf(w.table.conns, c);
        assert IsAt(w, c, InMap(id));
        assert false;
      }
    case Unstored(_) => assert false;
    case Owed(_) => assert false;
  }

  /** activeID never dangles, and HasActive and ActiveID differ only on a connection stored under zero. */
  lemma {:induction false} ActiveNeverDangles(actions: seq<Action>)
    ensures var t := Run(START, actions).table;
            && (t.activeID == 0 || t.activeID in t.conns)
            && ((t.Active() <==> t.ActiveOr0() != 0) <==> !(t.activeID == 0 && 0 in t.conns))
  {
    RunKeepsInv(START, actions);
  }
}
