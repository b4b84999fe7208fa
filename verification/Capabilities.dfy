/**
 * What one live connection can do: internal/model/capability.go. Notes are maps on the heap, as in the
 * source, so that "returns a copy" is a claim about aliasing and not only about values.
 */
module Capabilities {
  import opened Text

  type Capability = string

  class Notes {
    var entries: map<Capability, string>

    constructor (entries: map<Capability, string>)
      ensures this.entries == entries
    {
      this.entries := entries;
    }

    method Set(capability: Capability, note: string)
      modifies this
      ensures entries == old(entries)[capability := note]
    {
      entries := entries[capability := note];
    }
  }

  /** A nil map is null. */
  datatype Capabilities = Capabilities(supported: seq<Capability>, degraded: Notes?, caveats: Notes?)

  /** The same three facts as values. */
  datatype Facts = Facts(supported: seq<Capability>, degraded: map<Capability, string>, caveats: map<Capability, string>)

  ghost function EntriesOf(notes: Notes?): map<Capability, string>
    reads notes
  {
    if notes == null then map[] else notes.entries
  }

  ghost function FactsOf(c: Capabilities): Facts
    reads c.degraded, c.caveats
  {
    Facts(c.supported, EntriesOf(c.degraded), EntriesOf(c.caveats))
  }

  function Dropped(supported: seq<Capability>, capability: Capability): (r: seq<Capability>)
    ensures forall x :: x in r <==> x in supported && x != capability
    ensures |r| <= |supported|
  {
    if supported == [] then []
    else
      var last := supported[|supported| - 1];
      Dropped(supported[..|supported| - 1], capability) + if last == capability then [] else [last]
  }

  function Degraded(f: Facts, capability: Capability, reason: string): Facts {
    f.(supported := Dropped(f.supported, capability), degraded := f.degraded[capability := reason])
  }

  function Annotated(f: Facts, capability: Capability, caveat: string): Facts {
    f.(caveats := f.caveats[capability := caveat])
  }

  method NewCapabilities(supported: seq<Capability>) returns (c: Capabilities)
    ensures FactsOf(c) == Facts(supported, map[], map[])
  {
    c := Capabilities(supported, null, null);
  }

  method Has(c: Capabilities, capability: Capability) returns (yes: bool)
    ensures yes <==> capability in c.supported
  {
    for i := 0 to |c.supported|
      invariant capability !in c.supported[..i]
    {
      if c.supported[i] == capability { return true; }
    }
    return false;
  }

  method DegradedReason(c: Capabilities, capability: Capability) returns (reason: Option<string>)
    ensures var notes := FactsOf(c).degraded;
            reason == if capability in notes then Some(notes[capability]) else None
  {
    if c.degraded != null && capability in c.degraded.entries {
      return Some(c.degraded.entries[capability]);
    }
    return None;
  }

  method CloneCapabilityNotes(notes: Notes?) returns (cloned: Notes)
    ensures fresh(cloned) && cloned.entries == EntriesOf(notes)
  {
    cloned := new Notes(map[]);
    if notes != null {
      var keys := notes.entries.Keys;
      while keys != {}
        invariant keys <= notes.entries.Keys && fresh(cloned)
        invariant cloned.entries == map k | k in notes.entries && k !in keys :: notes.entries[k]
        decreases keys
      {
        var k := Pick(keys);
        cloned.Set(k, notes.entries[k]);
        keys := keys - {k};
      }
      assert cloned.entries == notes.entries;
    }
  }

  /** No notes that existed before are written: `c`, and every other set, stays as it was. */
  method WithDegraded(c: Capabilities, capability: Capability, reason: string) returns (r: Capabilities)
    ensures FactsOf(r) == Degraded(FactsOf(c), capability, reason)
    ensures r.degraded != null && fresh(r.degraded) && r.caveats == c.caveats
  {
    var supported := [];
    for i := 0 to |c.supported|
      invariant supported == Dropped(c.supported[..i], capability)
    {
      assert c.supported[..i + 1][..i] == c.supported[..i];
      if c.supported[i] != capability { supported := supported + [c.supported[i]]; }
    }
    assert c.supported[..|c.supported|] == c.supported;
    var degraded := CloneCapabilityNotes(c.degraded);
    degraded.Set(capability, reason);
    r := c.(supported := supported, degraded := degraded);
  }

  method WithCaveat(c: Capabilities, capability: Capability, caveat: string) returns (r: Capabilities)
    ensures FactsOf(r) == Annotated(FactsOf(c), capability, caveat)
    ensures r.caveats != null && fresh(r.caveats) && r.degraded == c.degraded
  {
    var caveats := CloneCapabilityNotes(c.caveats);
    caveats.Set(capability, caveat);
    r := c.(caveats := caveats);
  }

  // ----- what a chain of calls builds -------------------------------------------------

  datatype Edit = Degrade(capability: Capability, text: string) | Annotate(capability: Capability, text: string)

  function Built(supported: seq<Capability>, edits: seq<Edit>): Facts {
    if edits == [] then Facts(supported, map[], map[])
    else
      var f, e := Built(supported, edits[..|edits| - 1]), edits[|edits| - 1];
      if e.Degrade? then Degraded(f, e.capability, e.text) else Annotated(f, e.capability, e.text)
  }

  /** The last edit of one sort that names a capability. */
  function LastText(edits: seq<Edit>, degrade: bool, capability: Capability): (text: Option<string>)
    ensures text.Some? <==> exists e :: e in edits && e.Degrade? == degrade && e.capability == capability
  {
    if edits == [] then None
    else
      var e := edits[|edits| - 1];
      if e.Degrade? == degrade && e.capability == capability then Some(e.text)
      else LastText(edits[..|edits| - 1], degrade, capability)
  }

  function AsNote(notes: map<Capability, string>, capability: Capability): Option<string> {
    if capability in notes then Some(notes[capability]) else None
  }

  /** Where each capability ends up: supported until degraded, for good; the last reason and caveat win. */
  lemma {:induction false} ChainMeans(supported: seq<Capability>, edits: seq<Edit>, capability: Capability)
    ensures var f := Built(supported, edits);
            && (capability in f.supported <==> capability in supported && LastText(edits, true, capability).None?)
            && AsNote(f.degraded, capability) == LastText(edits, true, capability)
            && AsNote(f.caveats, capability) == LastText(edits, false, capability)
    decreases |edits|
  {
    if edits != [] { ChainMeans(supported, edits[..|edits| - 1], capability); }
  }

  /** No capability is ever both supported and degraded in what these calls build. */
  lemma {:induction false} ChainNeverBoth(supported: seq<Capability>, edits: seq<Edit>)
    ensures forall c :: c in Built(supported, edits).degraded ==> c !in Built(supported, edits).supported
  {
    forall c | c in Built(supported, edits).degraded ensures c !in Built(supported, edits).supported {
      ChainMeans(supported, edits, c);
    }
  }
}
