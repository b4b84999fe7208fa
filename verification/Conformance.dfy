/**
 * Does a connection declare what it implements? internal/driver/conformance.go, over any table of
 * backings and any way of telling what a connection implements.
 */
module Conformance {
  import opened Text
  import opened Capabilities

  type Iface = string

  /** `implemented` is the source's type test, already answered for the connection at hand. */
  datatype Backing = Backing(capability: Capability, iface: Iface, implemented: bool)

  datatype Problem =
    | BothStates(capability: Capability)
    | NotImplemented(capability: Capability, iface: Iface)
    | NotDeclared(iface: Iface)

  predicate Declares(f: Facts, c: Capability) { c in f.supported || c in f.degraded }

  ghost predicate ImplementsIface(table: seq<Backing>, i: Iface) {
    exists b :: b in table && b.iface == i && b.implemented
  }

  ghost predicate DeclaresIface(f: Facts, table: seq<Backing>, i: Iface) {
    exists b :: b in table && b.iface == i && Declares(f, b.capability)
  }

  ghost predicate Lacks(f: Facts, table: seq<Backing>, c: Capability, i: Iface) {
    c in f.supported && exists b :: b in table && b.capability == c && b.iface == i && !b.implemented
  }

  /** What is wrong, from the declaration alone. */
  ghost predicate Wrong(f: Facts, table: seq<Backing>, p: Problem) {
    match p
    case BothStates(c) => c in f.degraded && c in f.supported
    case NotImplemented(c, i) => Lacks(f, table, c, i)
    case NotDeclared(i) => ImplementsIface(table, i) && !DeclaresIface(f, table, i)
  }

  predicate OneRowEach(table: seq<Backing>) {
    forall i, j :: 0 <= i < j < |table| ==> table[i].capability != table[j].capability
  }

  lemma NothingTold(f: Facts)
    ensures forall i :: !ImplementsIface([], i) && !DeclaresIface(f, [], i)
    ensures forall c, i :: !Lacks(f, [], c, i)
  {
  }

  /** What one more row adds. */
  lemma OneMore(f: Facts, table: seq<Backing>, b: Backing)
    ensures forall i :: ImplementsIface(table + [b], i) <==> ImplementsIface(table, i) || (i == b.iface && b.implemented)
    ensures forall i :: DeclaresIface(f, table + [b], i) <==>
                        DeclaresIface(f, table, i) || (i == b.iface && Declares(f, b.capability))
    ensures forall c, i :: Lacks(f, table + [b], c, i) <==>
                           Lacks(f, table, c, i) ||
                           (c in f.supported && c == b.capability && i == b.iface && !b.implemented)
    ensures forall c, i :: Lacks(f, table, c, i) ==> exists d :: d in table && d.capability == c
  {
    assert forall d :: d in table + [b] <==> d in table || d == b;
  }

  /** Every problem and nothing else; once each when the table gives a capability one row. */
  method CheckConformance(c: Capabilities, table: seq<Backing>) returns (problems: seq<Problem>)
    ensures forall p :: p in problems <==> Wrong(FactsOf(c), table, p)
    ensures OneRowEach(table) ==> NoRepeats(problems)
  {
    hide ImplementsIface, DeclaresIface, Lacks;
    ghost var f := FactsOf(c);
    problems := CheckStates(c);
    NothingTold(f);
    var implementedIfaces: set<Iface>, declaredIfaces: set<Iface> := {}, {};
    for n := 0 to |table|
      invariant forall i :: i in implementedIfaces <==> ImplementsIface(table[..n], i)
      invariant forall i :: i in declaredIfaces <==> DeclaresIface(f, table[..n], i)
      invariant forall p :: p in problems <==>
                  Wrong(f, [], p) || (p.NotImplemented? && Wrong(f, table[..n], p))
      invariant OneRowEach(table) ==> NoRepeats(problems)
    {
      var backing := table[n];
      assert table[..n + 1] == table[..n] + [backing];
      OneMore(f, table[..n], backing);
      if backing.implemented { implementedIfaces := implementedIfaces + {backing.iface}; }
      var supported := Has(c, backing.capability);
      var reason := DegradedReason(c, backing.capability);
      if supported || reason.Some? {
        declaredIfaces := declaredIfaces + {backing.iface};
        if supported && !backing.implemented {
          problems := problems + [NotImplemented(backing.capability, backing.iface)];
        }
      }
    }
    assert table[..|table|] == table;
    var undeclared := CheckIfaces(implementedIfaces, declaredIfaces);
    if OneRowEach(table) { NoRepeatsJoined(problems, undeclared); }
    problems := problems + undeclared;
  }

  lemma NoRepeatsJoined<T>(s: seq<T>, t: seq<T>)
    requires NoRepeats(s) && NoRepeats(t) && forall x :: x in s ==> x !in t
    ensures NoRepeats(s + t)
  {
    var u := s + t;
    forall i, j | 0 <= i < j < |u| ensures u[i] != u[j] {
      if i < |s| { assert s[i] in s; }
      if j >= |s| { assert t[j - |s|] in t; }
    }
  }

  /** The first loop: over the degraded map, in whatever order it yields. */
  method CheckStates(c: Capabilities) returns (problems: seq<Problem>)
    ensures forall p :: p in problems <==>
              p.BothStates? && p.capability in FactsOf(c).degraded && p.capability in c.supported
    ensures NoRepeats(problems)
  {
    problems := [];
    var keys := if c.degraded == null then {} else c.degraded.entries.Keys;
    ghost var all := keys;
    while keys != {}
      invariant keys <= all && NoRepeats(problems)
      invariant forall p :: p in problems <==>
                  p.BothStates? && p.capability in all && p.capability !in keys && p.capability in c.supported
      decreases keys
    {
      var k := Pick(keys);
      var both := Has(c, k);
      if both { problems := problems + [BothStates(k)]; }
      keys := keys - {k};
    }
  }

  /** The last loop. */
  method CheckIfaces(implemented: set<Iface>, declared: set<Iface>) returns (problems: seq<Problem>)
    ensures forall p :: p in problems <==> p.NotDeclared? && p.iface in implemented && p.iface !in declared
    ensures NoRepeats(problems)
  {
    problems := [];
    var rest := implemented;
    while rest != {}
      invariant rest <= implemented && NoRepeats(problems)
      invariant forall p :: p in problems <==>
                  p.NotDeclared? && p.iface in implemented && p.iface !in rest && p.iface !in declared
      decreases rest
    {
      var i := Pick(rest);
      if i !in declared { problems := problems + [NotDeclared(i)]; }
      rest := rest - {i};
    }
  }

  /** The declaration and the interfaces agree. */
  ghost predicate Conforms(f: Facts, table: seq<Backing>) {
    && (forall c :: c in f.degraded ==> c !in f.supported)
    && (forall b :: b in table && b.capability in f.supported ==> b.implemented)
    && (forall b :: b in table && b.implemented ==> exists d :: d in table && d.iface == b.iface && Declares(f, d.capability))
  }

  /** No problem is reported exactly when they agree. */
  lemma {:induction false} NoProblemsMeansConforms(f: Facts, table: seq<Backing>)
    ensures (forall p :: !Wrong(f, table, p)) <==> Conforms(f, table)
  {
    if Conforms(f, table) {
      forall p ensures !Wrong(f, table, p) {
        if p.NotDeclared? && ImplementsIface(table, p.iface) {
          var b :| b in table && b.iface == p.iface && b.implemented;
        }
      }
    }
    if forall p :: !Wrong(f, table, p) {
      forall c | c in f.degraded ensures c !in f.supported { assert !Wrong(f, table, BothStates(c)); }
      forall b | b in table && b.capability in f.supported ensures b.implemented {
        assert !Wrong(f, table, NotImplemented(b.capability, b.iface));
      }
      forall b | b in table && b.implemented
        ensures exists d :: d in table && d.iface == b.iface && Declares(f, d.capability)
      {
        assert !Wrong(f, table, NotDeclared(b.iface));
        assert ImplementsIface(table, b.iface);
      }
    }
  }

  /** A set built by the constructor and its two editors is never told off for both states at once. */
  lemma {:induction false} BuiltSetsNeverClash(supported: seq<Capability>, edits: seq<Edit>, table: seq<Backing>,
                                               c: Capability)
    ensures !Wrong(Built(supported, edits), table, BothStates(c))
  {
    ChainNeverBoth(supported, edits);
  }

  predicate NeverDegraded(edits: seq<Edit>, c: Capability) { LastText(edits, true, c).None? }

  /** What conformance asks of a driver, in terms of the calls that built its declaration. */
  lemma {:induction false} BuiltSetsConform(supported: seq<Capability>, edits: seq<Edit>, table: seq<Backing>)
    ensures Conforms(Built(supported, edits), table) <==>
            && (forall b :: b in table && b.capability in supported && NeverDegraded(edits, b.capability) ==> b.implemented)
            && (forall b :: b in table && b.implemented ==>
                  exists d :: d in table && d.iface == b.iface
                              && (d.capability in supported || !NeverDegraded(edits, d.capability)))
  {
    var f := Built(supported, edits);
    forall c
      ensures c in f.degraded <==> !NeverDegraded(edits, c)
      ensures c in f.supported <==> c in supported && NeverDegraded(edits, c)
    {
      ChainMeans(supported, edits, c);
    }
    forall d ensures Declares(f, d) <==> d in supported || !NeverDegraded(edits, d) {}
  }
}
