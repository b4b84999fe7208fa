/** RaceManifest: one goroutine per mirror, one buffered channel, one reader. */
module Race {
  import opened Text
  import opened Mirrors

  /** Why a mirror did not answer; only the schema refusal is told apart. */
  datatype Failure = TooNew | Other(reason: string)

  /** What goroutine number `from` sent. */
  datatype Outcome = Outcome(from: nat, answer: Result<Manifest, Failure>)

  datatype Fetched = Fetched(manifest: Manifest, mirror: Mirror, order: seq<Mirror>)

  datatype Verdict =
    | Won(fetched: Fetched)
    | Refused
    | AllFailed(failed: seq<Outcome>)

  // ----- the reader's loop --------------------------------------------------------------

  predicate Decisive(o: Outcome) { o.answer.Ok? || o.answer.error == TooNew }

  /** Position of the first outcome that ends the race, or the length when none does. */
  function FirstDecisive(arrivals: seq<Outcome>): (k: nat)
    ensures k <= |arrivals|
    ensures forall j :: 0 <= j < k ==> !Decisive(arrivals[j])
    ensures k < |arrivals| ==> Decisive(arrivals[k])
  {
    if arrivals == [] then 0
    else if Decisive(arrivals[0]) then 0
    else 1 + FirstDecisive(arrivals[1..])
  }

  predicate InRange(usable: seq<Mirror>, os: seq<Outcome>) {
    forall k :: 0 <= k < |os| ==> os[k].from < |usable|
  }

  /** What the race must answer when outcomes arrive in this order; None while it still waits. */
  function Decide(usable: seq<Mirror>, arrivals: seq<Outcome>): Option<Verdict>
    requires InRange(usable, arrivals)
  {
    var k := FirstDecisive(arrivals);
    if k < |arrivals| then
      Some(match arrivals[k].answer
           case Err(_) => Refused
           case Ok(manifest) =>
             var winner := usable[arrivals[k].from];
             Won(Fetched(manifest, winner, [winner] + Others(usable, winner.name))))
    else if |arrivals| >= |usable| then Some(AllFailed(arrivals))
    else None
  }

  /** Outcome k is a success, and nothing before it either succeeded or was too new to read. */
  predicate WinsAt(arrivals: seq<Outcome>, k: nat) {
    && k < |arrivals| && arrivals[k].answer.Ok?
    && forall j :: 0 <= j < k ==> arrivals[j].answer.Err? && arrivals[j].answer.error != TooNew
  }

  /** The answer of the first success: its manifest, the mirror that sent it, and that mirror tried first. */
  ghost predicate AnsweredBy(usable: seq<Mirror>, arrivals: seq<Outcome>, k: nat, f: Fetched)
    requires WinsAt(arrivals, k) && InRange(usable, arrivals)
  {
    && arrivals[k].answer == Ok(f.manifest) && f.mirror == usable[arrivals[k].from]
    && f.order != [] && f.order[0] == f.mirror
    && (forall m :: m in f.order[1..] <==> m in usable && m.name != f.mirror.name)
    && (Clean(usable) ==>
          var i := arrivals[k].from; f.order == [usable[i]] + (usable[..i] + usable[i + 1..]))
  }

  predicate RefusedAt(arrivals: seq<Outcome>, k: nat) {
    && k < |arrivals| && arrivals[k].answer == Err(TooNew)
    && forall j :: 0 <= j < k ==> arrivals[j].answer.Err? && arrivals[j].answer.error != TooNew
  }

  /** Who wins, and when nobody does. */
  ghost predicate Judged(usable: seq<Mirror>, arrivals: seq<Outcome>, v: Verdict)
    requires InRange(usable, arrivals)
  {
    match v
    case Won(f) => exists k: nat :: WinsAt(arrivals, k) && AnsweredBy(usable, arrivals, k, f)
    case Refused => exists k: nat :: RefusedAt(arrivals, k)
    case AllFailed(failed) =>
      && failed == arrivals && |arrivals| >= |usable|
      && forall j :: 0 <= j < |arrivals| ==> arrivals[j].answer.Err? && arrivals[j].answer.error != TooNew
  }

  lemma {:induction false} OthersAre(ms: seq<Mirror>, name: string)
    ensures forall m :: m in Others(ms, name) <==> m in ms && m.name != name
  {
    if ms != [] { OthersAre(ms[1..], name); }
  }

  /** A verdict is for whoever answered first, whatever the arrivals. */
  lemma DecideJudges(usable: seq<Mirror>, arrivals: seq<Outcome>)
    requires InRange(usable, arrivals) && Decide(usable, arrivals).Some?
    ensures Judged(usable, arrivals, Decide(usable, arrivals).value)
  {
    var k := FirstDecisive(arrivals);
    if k < |arrivals| && arrivals[k].answer.Ok? {
      var winner := usable[arrivals[k].from];
      OthersAre(usable, winner.name);
      assert ([winner] + Others(usable, winner.name))[1..] == Others(usable, winner.name);
      if Clean(usable) { OrderIsRotation(usable, arrivals[k].from); }
      assert WinsAt(arrivals, k);
    } else if k < |arrivals| {
      assert RefusedAt(arrivals, k);
    }
  }

  /** The receive loop, given one outcome per usable mirror in arrival order. */
  method Collect(usable: seq<Mirror>, results: seq<Outcome>) returns (v: Verdict)
    requires |results| == |usable| && InRange(usable, results)
    ensures Decide(usable, results) == Some(v)
    ensures Judged(usable, results, v)
  {
    hide Judged, Others, FirstDecisive;
    var failed: seq<Outcome> := [];
    for i := 0 to |usable|
      invariant failed == results[..i]
      invariant forall j :: 0 <= j < i ==> !Decisive(results[j])
    {
      var got := results[i];
      var k := FirstDecisive(results);
      assert k >= i;
      if Decisive(got) { DecideJudges(usable, results); }
      if got.answer.Ok? {
        var winner := usable[got.from];
        var order := OrderFrom(usable, winner);
        return Won(Fetched(got.answer.value, winner, order));
      }
      if got.answer.error == TooNew { return Refused; }
      failed := failed + [got];
    }
    assert results[..|usable|] == results;
    var k := FirstDecisive(results);
    assert k == |usable|;
    DecideJudges(usable, results);
    return AllFailed(failed);
  }

  // ----- every interleaving of senders and reader ---------------------------------------

  ghost predicate Sent(os: seq<Outcome>, i: nat) { exists k :: 0 <= k < |os| && os[k].from == i }

  /** `log` is everything ever sent, in order; the channel holds what the reader has not taken. */
  datatype Race = Race(usable: seq<Mirror>, log: seq<Outcome>, channel: seq<Outcome>, received: seq<Outcome>)
  {
    ghost predicate HasSent(i: nat) { Sent(log, i) }

    function Verdict(): Option<Verdict>
      requires InRange(usable, received)
    {
      Decide(usable, received)
    }
  }

  /** FetchManifest only ever hands on a manifest that passed ParseManifest. */
  ghost predicate Checked(answer: Result<Manifest, Failure>) { answer.Ok? ==> Usable(answer.value) }

  datatype Event = Send(from: nat, answer: Result<Manifest, Failure>) | Receive

  function Start(usable: seq<Mirror>): Race { Race(usable, [], [], []) }

  /** A send on a full channel, or a receive on an empty one or after the verdict, does not happen. */
  ghost function Step(r: Race, e: Event): Race
    requires InRange(r.usable, r.received)
  {
    match e
    case Send(i, answer) =>
      if i < |r.usable| && !r.HasSent(i) && Checked(answer) && |r.channel| < |r.usable| then
        var o := Outcome(i, answer);
        r.(log := r.log + [o], channel := r.channel + [o])
      else r
    case Receive =>
      if r.channel != [] && r.Verdict().None? then
        r.(channel := r.channel[1..], received := r.received + [r.channel[0]])
      else r
  }

  ghost predicate Inv(r: Race) {
    && InRange(r.usable, r.log)
    && (forall k :: 0 <= k < |r.log| ==> Checked(r.log[k].answer))
    && r.log == r.received + r.channel
    && (forall j, k :: 0 <= j < k < |r.log| ==> r.log[j].from != r.log[k].from)
    && (forall j :: 0 <= j < |r.received| - 1 ==> !Decisive(r.received[j]))
  }

  lemma InvImpliesRange(r: Race)
    requires Inv(r)
    ensures InRange(r.usable, r.received)
  {
    forall k | 0 <= k < |r.received| ensures r.received[k].from < |r.usable| {
      assert r.log[k] == r.received[k];
    }
  }

  lemma StepKeepsInv(r: Race, e: Event)
    requires Inv(r) && InRange(r.usable, r.received)
    ensures Inv(Step(r, e))
  {
    var r' := Step(r, e);
    if e.Receive? && r' != r {
      assert r.received + r.channel == (r.received + [r.channel[0]]) + r.channel[1..];
      var k := FirstDecisive(r.received);
      assert k == |r.received|;
    } else if e.Send? && r' != r {
      assert (r.received + r.channel) + [Outcome(e.from, e.answer)] == r.received + (r.channel + [Outcome(e.from, e.answer)]);
      forall j, k | 0 <= j < k < |r'.log| ensures r'.log[j].from != r'.log[k].from {
        if k == |r.log| { assert r.log[j].from != e.from; }
      }
    }
  }

  ghost function Run(usable: seq<Mirror>, events: seq<Event>): (r: Race)
    ensures Inv(r) && InRange(r.usable, r.received) && r.usable == usable
    decreases |events|
  {
    if events == [] then Start(usable)
    else
      var before := Run(usable, events[..|events| - 1]);
      StepKeepsInv(before, events[|events| - 1]);
      InvImpliesRange(Step(before, events[|events| - 1]));
      Step(before, events[|events| - 1])
  }

  /** A set of numbers below n that is smaller than n misses one of them. */
  lemma {:induction false} Missing(s: set<nat>, n: nat) returns (i: nat)
    requires |s| < n && forall x :: x in s ==> x < n
    ensures i < n && i !in s
  {
    i := n - 1;
    if n - 1 in s { i := Missing(s - {n - 1}, n - 1); }
  }

  /** Numbers below n number at most n. */
  lemma {:induction false} AtMost(s: set<nat>, n: nat)
    requires forall x :: x in s ==> x < n
    ensures |s| <= n
  {
    if n == 0 {
      assert s == {};
    } else {
      AtMost(s - {n - 1}, n - 1);
    }
  }

  ghost function Senders(os: seq<Outcome>): set<nat> {
    set k | 0 <= k < |os| :: os[k].from
  }

  lemma {:induction false} SendersCount(os: seq<Outcome>)
    requires forall j, k :: 0 <= j < k < |os| ==> os[j].from != os[k].from
    ensures |Senders(os)| == |os|
  {
    if os != [] {
      var init := os[..|os| - 1];
      SendersCount(init);
      var last := os[|os| - 1].from;
      assert last !in Senders(init);
      assert Senders(os) == Senders(init) + {last} by {
        forall x | x in Senders(os) ensures x in Senders(init) + {last} {
          var k :| 0 <= k < |os| && os[k].from == x;
          if k < |os| - 1 { assert init[k].from == x; }
        }
        forall x | x in Senders(init) ensures x in Senders(os) {
          var k :| 0 <= k < |init| && init[k].from == x;
          assert os[k].from == x;
        }
      }
    }
  }

  lemma SendersAre(os: seq<Outcome>, i: nat)
    ensures i in Senders(os) <==> Sent(os, i)
  {
    if Sent(os, i) {
      var k :| 0 <= k < |os| && os[k].from == i;
      assert os[k].from in Senders(os);
    }
  }

  /** A goroutine that has not sent yet always finds room, however the rest interleave. */
  lemma SendNeverBlocks(usable: seq<Mirror>, events: seq<Event>, i: nat)
    requires i < |usable| && !Run(usable, events).HasSent(i)
    ensures |Run(usable, events).channel| < |usable|
  {
    var r := Run(usable, events);
    SendersCount(r.log);
    SendersAre(r.log, i);
    AtMost(Senders(r.log) + {i}, |usable|);
  }

  /** Before the verdict the reader either has something to take or someone still to hear from. */
  lemma ReaderNeverStuck(usable: seq<Mirror>, events: seq<Event>)
    requires Run(usable, events).Verdict().None?
    ensures Run(usable, events).channel != [] ||
            exists i :: 0 <= i < |usable| && !Run(usable, events).HasSent(i)
  {
    var r := Run(usable, events);
    if r.channel == [] {
      assert r.log == r.received;
      SendersCount(r.log);
      var i := Missing(Senders(r.log), |usable|);
      SendersAre(r.log, i);
      assert !Run(usable, events).HasSent(i);
    }
  }

  /** Nothing sent is lost or reordered, and the verdict is the one the arrival order decides. */
  lemma VerdictFollowsArrival(usable: seq<Mirror>, events: seq<Event>)
    ensures var r := Run(usable, events);
            r.log == r.received + r.channel && (r.Verdict().Some? ==> Decide(usable, r.log) == r.Verdict())
  {
    var r := Run(usable, events);
    if r.Verdict().Some? {
      var k := FirstDecisive(r.received);
      if k < |r.received| {
        assert r.log[k] == r.received[k];
        forall j | 0 <= j < k ensures !Decisive(r.log[j]) { assert r.log[j] == r.received[j]; }
        var k' := FirstDecisive(r.log);
        assert k' == k;
      } else {
        SendersCount(r.log);
        AtMost(Senders(r.log), |usable|);
        assert r.log == r.received;
      }
    }
  }

  /** In every interleaving the verdict is for the mirror whose answer arrived first. */
  lemma VerdictIsTheFirstAnswer(usable: seq<Mirror>, events: seq<Event>)
    requires Run(usable, events).Verdict().Some?
    ensures var r := Run(usable, events); Judged(usable, r.received, r.Verdict().value)
  {
    DecideJudges(usable, Run(usable, events).received);
  }

  /** A race nobody won names every usable mirror exactly once. */
  lemma FailureNamesEveryMirrorOnce(usable: seq<Mirror>, events: seq<Event>)
    requires var v := Run(usable, events).Verdict(); v.Some? && v.value.AllFailed?
    ensures var failed := Run(usable, events).Verdict().value.failed;
            && |failed| == |usable|
            && (forall i :: 0 <= i < |usable| ==> Sent(failed, i))
            && (forall j, k :: 0 <= j < k < |failed| ==> failed[j].from != failed[k].from)
            && (forall k :: 0 <= k < |failed| ==> failed[k].answer.Err? && failed[k].answer.error != TooNew)
  {
    var r := Run(usable, events);
    var failed := r.received;
    forall j, k | 0 <= j < k < |failed| ensures failed[j].from != failed[k].from {
      assert r.log[j] == failed[j] && r.log[k] == failed[k];
    }
    SendersCount(failed);
    AtMost(Senders(failed), |usable|);
    forall i | 0 <= i < |usable| ensures Sent(failed, i) {
      SendersAre(failed, i);
      AtMost(Senders(failed) + {i}, |usable|);
    }
  }

  /** The mirrors a race is run over: the usable ones of the list it was given. */
  function UsableMirrors(ms: seq<Mirror>): seq<Mirror> {
    if ms == [] then []
    else (if ms[0].Valid() then [ms[0]] else []) + UsableMirrors(ms[1..])
  }

  /** Every usable mirror stays, as often as it was listed, and nothing else. */
  lemma {:induction false} UsableMirrorsAre(ms: seq<Mirror>, m: Mirror)
    ensures multiset(UsableMirrors(ms))[m] == if m.Valid() then multiset(ms)[m] else 0
    decreases |ms|
  {
    if ms != [] {
      var first, rest := ms[0], ms[1..];
      UsableMirrorsAre(rest, m);
      assert ms == [first] + rest;
      assert multiset(ms)[m] == multiset([first])[m] + multiset(rest)[m];
      if first.Valid() {
        assert UsableMirrors(ms) == [first] + UsableMirrors(rest);
        assert multiset(UsableMirrors(ms))[m] == multiset([first])[m] + multiset(UsableMirrors(rest))[m];
      }
    }
  }

  lemma UsableMirrorsCons(m: Mirror, rest: seq<Mirror>)
    ensures UsableMirrors([m] + rest) == (if m.Valid() then [m] else []) + UsableMirrors(rest)
  {
    assert ([m] + rest)[1..] == rest;
  }

  /** And in the order it was listed. */
  lemma {:induction false} UsableMirrorsKeepOrder(ms: seq<Mirror>, more: seq<Mirror>)
    ensures UsableMirrors(ms + more) == UsableMirrors(ms) + UsableMirrors(more)
    decreases |ms|
  {
    if ms == [] {
      assert ms + more == more;
    } else {
      hide UsableMirrors;
      var m, rest := ms[0], ms[1..];
      UsableMirrorsKeepOrder(rest, more);
      UsableMirrorsCons(m, rest + more);
      UsableMirrorsCons(m, rest);
      assert ms == [m] + rest && ms + more == [m] + (rest + more);
    }
  }

  lemma {:induction false} UsableMirrorsOfClean(ms: seq<Mirror>)
    requires Clean(ms)
    ensures UsableMirrors(ms) == ms
  {
    if ms != [] {
      assert Clean(ms[1..]) by {
        forall i, j | 0 <= i < j < |ms[1..]| ensures ms[1..][i].name != ms[1..][j].name {
          assert ms[i + 1].name != ms[j + 1].name;
        }
      }
      UsableMirrorsOfClean(ms[1..]);
    }
  }

  /** The answers a race over a clean list of mirrors can give. */
  ghost predicate CanWin(mirrors: seq<Mirror>, f: Fetched) {
    && f.mirror in mirrors
    && f.order != [] && f.order[0] == f.mirror
    && multiset(f.order) == multiset(mirrors)
    && Usable(f.manifest)
  }

  /** A race that is won answers with a mirror it was given, tried first, then all the others. */
  lemma WinnerComesFromTheList(mirrors: seq<Mirror>, events: seq<Event>)
    requires Clean(mirrors)
    requires var v := Run(UsableMirrors(mirrors), events).Verdict(); v.Some? && v.value.Won?
    ensures CanWin(mirrors, Run(UsableMirrors(mirrors), events).Verdict().value.fetched)
  {
    UsableMirrorsOfClean(mirrors);
    var r := Run(mirrors, events);
    var k := FirstDecisive(r.received);
    assert r.log[k] == r.received[k];
    OrderIsRotation(mirrors, r.received[k].from);
  }
}
