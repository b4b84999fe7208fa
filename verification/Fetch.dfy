/**
 * Download and copyWithProgress as the loops they are, over a folder that may refuse any call.
 * What they do to the files is a run of the steps in module Download; what they report is bounded
 * here.
 */
module Fetch {
  import opened Text
  import opened Mirrors
  import opened Disk
  import opened Download

  const PROGRESS_INTERVAL := 204800
  const BUFFER := 65536

  datatype ReadEnd = More | Eof | Broken(error: Error)

  /**
   * One turn of the copy loop: whether the context was cancelled, what the body yields, and how much of it
   * the disk takes.
   */
  datatype Read = Read(cancelled: bool, bytes: Bytes, room: nat, end: ReadEnd)

  /** A server may send anything, at most a buffer at a time. */
  predicate Readable(body: seq<Read>) {
    forall i :: 0 <= i < |body| ==> |body[i].bytes| <= BUFFER
  }

  datatype Report = Report(done: int, total: int)

  /** The bytes of the first turns, one after another. */
  function Concat(body: seq<Read>): Bytes
    decreases |body|
  {
    if body == [] then [] else Concat(body[..|body| - 1]) + body[|body| - 1].bytes
  }

  /** Bodies read one after another are their bytes one after another. */
  lemma {:induction false} ConcatJoins(first: seq<Read>, second: seq<Read>)
    ensures Concat(first + second) == Concat(first) + Concat(second)
    ensures forall r :: Concat([r]) == r.bytes
    decreases |second|
  {
    forall r: Read ensures Concat([r]) == r.bytes {
      assert [r][..0] == [];
    }
    if second == [] {
      assert first + second == first;
    } else {
      var init := second[..|second| - 1];
      assert (first + second)[..|first + second| - 1] == first + init;
      ConcatJoins(first, init);
    }
  }

  /** How a copy of this body ends from turn i on: after how many turns, or with which error. */
  function Fate(body: seq<Read>, i: nat): (r: Result<nat, Error>)
    requires i <= |body|
    ensures r.Ok? ==> i < r.value <= |body|
    decreases |body| - i
  {
    if i == |body| then Err(Io("body"))
    else if body[i].cancelled then Err(Cancelled)
    else if body[i].room < |body[i].bytes| then Err(Io("write"))
    else
      match body[i].end
      case Eof => Ok(i + 1)
      case Broken(why) => Err(why)
      case More => Fate(body, i + 1)
  }

  /** Turn i neither stops the copy nor ends the body. */
  predicate GoesOn(r: Read) { !r.cancelled && |r.bytes| <= r.room && r.end == More }

  /** Turn t is the first that does not go on, and it ends the body well. */
  predicate EndsWell(body: seq<Read>, t: nat) {
    && t < |body| && (forall i :: 0 <= i < t ==> GoesOn(body[i]))
    && !body[t].cancelled && |body[t].bytes| <= body[t].room && body[t].end == Eof
  }

  lemma OnlyStop(body: seq<Read>, i: nat, t: nat)
    requires i < |body| && !GoesOn(body[i]) && (forall j :: 0 <= j < i ==> GoesOn(body[j])) && EndsWell(body, t)
    ensures t == i
  {
  }

  /** A copy succeeds exactly when the first turn that does not go on is the end of the body. */
  lemma {:induction false} FateIsTheFirstStop(body: seq<Read>, i: nat)
    requires i <= |body| && forall j :: 0 <= j < i ==> GoesOn(body[j])
    ensures Fate(body, i).Ok? ==> Fate(body, i).value > 0 && EndsWell(body, Fate(body, i).value - 1)
    ensures Fate(body, i).Err? ==> forall t: nat :: !EndsWell(body, t)
    decreases |body| - i
  {
    if i < |body| && GoesOn(body[i]) {
      FateIsTheFirstStop(body, i + 1);
    } else if i < |body| {
      forall t: nat | EndsWell(body, t) ensures t == i { OnlyStop(body, i, t); }
    }
  }

  /** Each report is at least an interval and less than an interval and a buffer after the one before. */
  ghost predicate Spaced(reports: seq<Report>) {
    forall i :: 0 <= i < |reports| ==>
      PROGRESS_INTERVAL <= Gap(reports, i) < PROGRESS_INTERVAL + BUFFER
  }

  function Gap(reports: seq<Report>, i: nat): int
    requires i < |reports|
  {
    reports[i].done - if i == 0 then 0 else reports[i - 1].done
  }

  function LastDone(reports: seq<Report>): int {
    if reports == [] then 0 else reports[|reports| - 1].done
  }

  /** Spaced reports are few: one per interval at most. */
  lemma {:induction false} SpacedCount(reports: seq<Report>)
    requires Spaced(reports)
    ensures |reports| * PROGRESS_INTERVAL <= LastDone(reports)
    ensures forall i, j :: 0 <= i < j < |reports| ==> reports[i].done < reports[j].done
    decreases |reports|
  {
    if reports != [] {
      var init := reports[..|reports| - 1];
      forall i | 0 <= i < |init| ensures PROGRESS_INTERVAL <= Gap(init, i) < PROGRESS_INTERVAL + BUFFER {
        assert Gap(init, i) == Gap(reports, i);
      }
      SpacedCount(init);
      assert PROGRESS_INTERVAL <= Gap(reports, |reports| - 1);
      forall i, j | 0 <= i < j < |reports| ensures reports[i].done < reports[j].done {
        if j < |init| {
          assert init[i].done < init[j].done;
        } else if i < |init| - 1 {
          assert init[i].done < init[|init| - 1].done;
        }
      }
    }
  }

  lemma SpacedMore(reports: seq<Report>, r: Report)
    requires Spaced(reports) && PROGRESS_INTERVAL <= r.done - LastDone(reports) < PROGRESS_INTERVAL + BUFFER
    ensures Spaced(reports + [r])
  {
    var more := reports + [r];
    forall i | 0 <= i < |more| ensures PROGRESS_INTERVAL <= Gap(more, i) < PROGRESS_INTERVAL + BUFFER {
      if i < |reports| { assert Gap(more, i) == Gap(reports, i); }
    }
  }

  /** What a whole copy of `done` bytes may report: spaced interim reports, then the total, once. */
  ghost predicate WholeReport(reports: seq<Report>, done: int) {
    && reports != []
    && LastDone(reports) == done
    && Spaced(reports[..|reports| - 1])
    && LastDone(reports[..|reports| - 1]) <= done
  }

  /** Reports of a whole copy never go back and number at most one per interval and one more. */
  lemma WholeReportBounds(reports: seq<Report>, done: nat)
    requires WholeReport(reports, done)
    ensures |reports| <= done / PROGRESS_INTERVAL + 1
    ensures forall i, j :: 0 <= i <= j < |reports| ==> reports[i].done <= reports[j].done <= done
  {
    var interim := reports[..|reports| - 1];
    SpacedCount(interim);
    assert |interim| * PROGRESS_INTERVAL <= done;
    forall i, j | 0 <= i <= j < |reports| ensures reports[i].done <= reports[j].done <= done {
      if i < |interim| { assert interim[i] == reports[i]; InterimBelow(interim, i); }
      if j < |interim| { assert interim[j] == reports[j]; InterimBelow(interim, j); }
    }
  }

  lemma InterimBelow(interim: seq<Report>, i: nat)
    requires i < |interim| && forall i, j :: 0 <= i < j < |interim| ==> interim[i].done < interim[j].done
    ensures interim[i].done <= LastDone(interim)
  {
  }

  lemma ConcatMore(body: seq<Read>, turns: nat)
    requires turns < |body|
    ensures Concat(body[..turns + 1]) == Concat(body[..turns]) + body[turns].bytes
  {
    assert body[..turns + 1][..turns] == body[..turns];
  }

  lemma NothingYet(sha: Bytes -> string, dest: string, want: string, files: Files)
    ensures forall pc :: Run(sha, dest, want, files, pc, []) == (files, pc)
    ensures Spaced([]) && Concat([]) == []
  {
  }

  /** The partial file of dest is there and holds these bytes. */
  predicate Holds(files: Files, dest: string, bytes: Bytes) {
    Partial(dest) in files && files[Partial(dest)] == Data(bytes)
  }

  /** While a copy goes on the partial file holds just what was copied, and nothing else changes. */
  lemma {:induction false} CopyingHolds(sha: Bytes -> string, dest: string, want: string, before: Files,
                                        events: seq<Event>)
    ensures var (f, p) := Run(sha, dest, want, before, Copying([]), events);
            && !p.Connecting?
            && (p.Copying? && Holds(before, dest, []) ==> f == before[Partial(dest) := Data(p.stream)])
    decreases |events|
  {
    if events == [] {
      assert Holds(before, dest, []) ==> before == before[Partial(dest) := Data([])];
    } else {
      CopyingHolds(sha, dest, want, before, events[..|events| - 1]);
    }
  }

  /** The bytes of a body read up to its end, and the turn that ended it. */
  ghost predicate WholeBody(body: seq<Read>, turns: nat, stream: Bytes) {
    && 0 < turns <= |body| && body[turns - 1].end == Eof
    && (forall i :: 0 <= i < turns - 1 ==> body[i].end == More)
    && stream == Concat(body[..turns])
  }

  /**
   * What the calls around the copy answer: whether the directory could be made, the request answered and the
   * partial file created; whether it closed; whether the old file could be removed, the new one renamed, and
   * a partial one dropped.
   */
  datatype Luck = Luck(reached: bool, closed: bool, removed: bool, renamed: bool, dropped: bool)

  /** The whole body came, was closed, and has the digest. */
  ghost predicate Verifies(sha: Bytes -> string, want: string, body: seq<Read>, luck: Luck) {
    && |want| == HEX_SHA256 && luck.reached && Fate(body, 0).Ok? && luck.closed
    && EqualFold(sha(Concat(body[..Fate(body, 0).value])), want)
  }

  class Folder {
    var files: Files

    constructor (files: Files)
      ensures this.files == files
    {
      this.files := files;
    }

    /** os.Remove: may be refused, and then changes nothing. */
    method Remove(path: string, allowed: bool)
      modifies this
      ensures files == if allowed then Without(old(files), path) else old(files)
    {
      if allowed { files := Without(files, path); }
    }

    /** One write of a chunk to a file, of which the disk takes no more than there is room for. */
    method Write(path: string, held: Bytes, chunk: Bytes, room: nat) returns (ok: bool, ghost kept: Bytes)
      modifies this
      ensures ok <==> |chunk| <= room
      ensures kept == if ok then chunk else chunk[..room]
      ensures files == old(files)[path := Data(held + kept)]
    {
      ok := |chunk| <= room;
      kept := if ok then chunk else chunk[..room];
      files := files[path := Data(held + if ok then chunk else chunk[..room])];
    }

    /**
     * copyWithProgress into an open, empty partial file. A body that runs out of script is a
     * connection that broke.
     */
    method CopyWithProgress(sha: Bytes -> string, dest: string, want: string, body: seq<Read>, total: int, report: bool)
      returns (error: Option<Error>, stream: Bytes, reports: seq<Report>, turns: nat, ghost events: seq<Event>)
      requires Readable(body)
      modifies this
      ensures Run(sha, dest, want, old(files), Copying([]), events) ==
              (files, if error.None? then Copying(stream) else CleaningUp(error.value))
      // The file holds what was read, whole, and no other file is touched.
      ensures error.None? && Holds(old(files), dest, []) ==> files == old(files)[Partial(dest) := Data(stream)]
      // On success the stream is everything the body yielded up to its end.
      ensures turns <= |body|
      ensures error == (match Fate(body, 0) case Ok(_) => None case Err(why) => Some(why))
      ensures error.None? ==> Fate(body, 0) == Ok(turns)
      ensures error.None? ==> WholeBody(body, turns, stream) && (report ==> WholeReport(reports, |stream|))
      ensures error.Some? ==> Spaced(reports)
      ensures forall r :: r in reports ==> r.total == total
      ensures !report ==> reports == []
      ensures SameExcept(old(files), files, {Partial(dest)})
    {
      hide Spaced, Concat, Run, Matches;
      stream, reports, turns, events := [], [], 0, [];
      NothingYet(sha, dest, want, files);
      var done, sinceReport := 0, 0;
      while turns < |body|
        invariant turns <= |body| && Fate(body, 0) == Fate(body, turns)
        invariant SameExcept(old(files), files, {Partial(dest)})
        invariant Run(sha, dest, want, old(files), Copying([]), events) == (files, Copying(stream))
        invariant forall i :: 0 <= i < turns ==> body[i].end == More
        invariant stream == Concat(body[..turns]) && done == |stream|
        invariant Spaced(reports) && 0 <= LastDone(reports) <= done
        invariant report ==> 0 <= sinceReport < PROGRESS_INTERVAL && sinceReport == done - LastDone(reports)
        invariant forall r :: r in reports ==> r.total == total
        invariant !report ==> reports == []
      {
        var turn := body[turns];
        ConcatMore(body, turns);
        if turn.cancelled {
          RunSnoc(sha, dest, want, old(files), Copying([]), events, Stop(Cancelled));
          events := events + [Stop(Cancelled)];
          return Some(Cancelled), stream, reports, turns, events;
        }
        if |turn.bytes| > 0 {
          ghost var before := files;
          var ok, kept := Write(Partial(dest), stream, turn.bytes, turn.room);
          if !ok {
            RunSnoc(sha, dest, want, old(files), Copying([]), events, Spoil(kept));
            events := events + [Spoil(kept)];
            return Some(Io("write")), stream, reports, turns, events;
          }
          RunSnoc(sha, dest, want, old(files), Copying([]), events, Append(turn.bytes));
          events := events + [Append(turn.bytes)];
          stream := stream + turn.bytes;
          done := done + |turn.bytes|;
          sinceReport := sinceReport + |turn.bytes|;
          if report && sinceReport >= PROGRESS_INTERVAL {
            sinceReport := 0;
            SpacedMore(reports, Report(done, total));
            reports := reports + [Report(done, total)];
          }
        } else {
          assert stream + turn.bytes == stream;
        }
        turns := turns + 1;
        match turn.end
        case More =>
        case Eof =>
          CopyingHolds(sha, dest, want, old(files), events);
          if report {
            ghost var interim := reports;
            reports := reports + [Report(done, total)];
            assert reports[..|reports| - 1] == interim;
          }
          return None, stream, reports, turns, events;
        case Broken(why) =>
          RunSnoc(sha, dest, want, old(files), Copying([]), events, Stop(why));
          events := events + [Stop(why)];
          return Some(why), stream, reports, turns, events;
      }
      RunSnoc(sha, dest, want, old(files), Copying([]), events, Stop(Io("body")));
      events := events + [Stop(Io("body"))];
      return Some(Io("body")), stream, reports, turns, events;
    }

    /** Download. */
    method Download(sha: Bytes -> string, dest: string, want: string, body: seq<Read>, total: int, luck: Luck)
      returns (error: Option<Error>, reports: seq<Report>, ghost events: seq<Event>)
      requires Readable(body)
      modifies this
      ensures Run(sha, dest, want, old(files), Connecting, events) ==
              (files, if error.None? then Renamed else Failed(error.value))
      // It succeeds exactly when every call does, the body ends and the digest matches.
      ensures error.None? <==> Verifies(sha, want, body, luck) && luck.renamed
      ensures error.None? ==>
                && dest in files && Matches(sha, files[dest], want)
                && exists turns, stream :: WholeBody(body, turns, stream) && WholeReport(reports, |stream|) &&
                     files == Without(old(files), Partial(dest))[dest := Data(stream)]
      ensures error.Some? ==> Spaced(reports) || exists done: nat :: WholeReport(reports, done)
      ensures forall r :: r in reports ==> r.total == total
      ensures |want| != HEX_SHA256 ==> error == Some(Unattested) && files == old(files)
      // A failure touches no other file; the old package only goes when a verified one could not be renamed.
      ensures error.Some? ==> SameExcept(old(files), files, {dest, Partial(dest)})
      ensures error.Some? && dest in old(files) ==>
                ((dest in files && files[dest] == old(files)[dest]) <==>
                 !(Verifies(sha, want, body, luck) && luck.removed))
      // It leaves no partial file behind, if removing it is allowed.
      ensures error.Some? && |want| == HEX_SHA256 && luck.reached && luck.dropped ==> Partial(dest) !in files
    {
      hide WholeReport, Spaced, Concat, Run, WholeBody, Fate;
      reports, events := [], [];
      PartialDiffers(dest);
      NothingYet(sha, dest, want, files);
      if |want| != HEX_SHA256 {
        RunSnoc(sha, dest, want, old(files), Connecting, events, GiveUp(Unattested));
        return Some(Unattested), reports, events + [GiveUp(Unattested)];
      }
      if !luck.reached {
        RunSnoc(sha, dest, want, old(files), Connecting, events, GiveUp(Io("connect")));
        return Some(Io("connect")), reports, events + [GiveUp(Io("connect"))];
      }
      var stream;
      ghost var turns;
      error, stream, reports, turns, events := Receive(sha, dest, want, body, total, luck);
      if error.Some? {
        error, events := CleanUp(sha, dest, want, old(files), error.value, events, luck);
        return;
      }
      BodyIsItsTurns(body, turns, stream);
      error, events := Settle(sha, dest, want, old(files), stream, events, luck);
      if error.Some? {
        error, events := CleanUp(sha, dest, want, old(files), error.value, events, luck);
      }
    }

    /** Up to the closed partial file. */
    method Receive(sha: Bytes -> string, dest: string, want: string, body: seq<Read>, total: int, luck: Luck)
      returns (error: Option<Error>, stream: Bytes, reports: seq<Report>, ghost turns: nat, ghost events: seq<Event>)
      requires Readable(body) && |want| == HEX_SHA256
      modifies this
      ensures Run(sha, dest, want, old(files), Connecting, events) ==
              (files, if error.None? then Copying(stream) else CleaningUp(error.value))
      ensures error.None? <==> Fate(body, 0).Ok? && luck.closed
      ensures error.None? ==>
                && Fate(body, 0) == Ok(turns) && WholeBody(body, turns, stream) && WholeReport(reports, |stream|)
                && files == old(files)[Partial(dest) := Data(stream)]
      ensures error.Some? ==> Spaced(reports) || exists done: nat :: WholeReport(reports, done)
      ensures forall r :: r in reports ==> r.total == total
      ensures SameExcept(old(files), files, {Partial(dest)})
    {
      hide WholeReport, Spaced, Concat, Run, WholeBody, Fate;
      NothingYet(sha, dest, want, files);
      RunSnoc(sha, dest, want, old(files), Connecting, [], CreatePart);
      events := [CreatePart];
      assert [] + [CreatePart] == events;
      files := files[Partial(dest) := Data([])];
      ghost var created := files;
      ghost var copying;
      error, stream, reports, turns, copying := CopyWithProgress(sha, dest, want, body, total, true);
      RunAppend(sha, dest, want, old(files), Connecting, events, copying);
      events := events + copying;
      if error.Some? { return; }
      assert created[Partial(dest) := Data(stream)] == old(files)[Partial(dest) := Data(stream)];
      if !luck.closed {
        RunSnoc(sha, dest, want, old(files), Connecting, events, Stop(Io("close")));
        error, events := Some(Io("close")), events + [Stop(Io("close"))];
      }
    }

    /** The digest, and the rename into place. */
    method Settle(sha: Bytes -> string, dest: string, want: string, ghost start: Files, stream: Bytes,
                  ghost events: seq<Event>, luck: Luck)
      returns (error: Option<Error>, ghost events': seq<Event>)
      requires Run(sha, dest, want, start, Connecting, events) == (files, Copying(stream))
      requires files == start[Partial(dest) := Data(stream)]
      modifies this
      ensures Run(sha, dest, want, start, Connecting, events') ==
              (files, if error.None? then Renamed else CleaningUp(error.value))
      ensures error.None? <==> EqualFold(sha(stream), want) && luck.renamed
      ensures error.None? ==> files == Without(start, Partial(dest))[dest := Data(stream)]
      ensures error.Some? ==>
                files == if EqualFold(sha(stream), want) && luck.removed then Without(old(files), dest) else old(files)
    {
      hide Run;
      PartialDiffers(dest);
      RunSnoc(sha, dest, want, start, Connecting, events, Finish);
      events' := events + [Finish];
      if !EqualFold(sha(stream), want) { return Some(Mismatch), events'; }
      Remove(dest, luck.removed);
      RunSnoc(sha, dest, want, start, Connecting, events', ClearDest(luck.removed));
      events' := events' + [ClearDest(luck.removed)];
      RunSnoc(sha, dest, want, start, Connecting, events', Event.Rename(luck.renamed));
      events' := events' + [Event.Rename(luck.renamed)];
      if !luck.renamed { return Some(Io("rename")), events'; }
      files := Without(files, Partial(dest))[dest := files[Partial(dest)]];
      assert files == Without(start, Partial(dest))[dest := Data(stream)];
      return None, events';
    }

    /** The deferred close and removal of the partial file. */
    method CleanUp(sha: Bytes -> string, dest: string, want: string, ghost start: Files, why: Error,
                   ghost events: seq<Event>, luck: Luck)
      returns (error: Option<Error>, ghost events': seq<Event>)
      requires Run(sha, dest, want, start, Connecting, events) == (files, CleaningUp(why))
      modifies this
      ensures error == Some(why)
      ensures Run(sha, dest, want, start, Connecting, events') == (files, Failed(why))
      ensures files == if luck.dropped then Without(old(files), Partial(dest)) else old(files)
    {
      hide Run;
      Remove(Partial(dest), luck.dropped);
      RunSnoc(sha, dest, want, start, Connecting, events, RemovePart(luck.dropped));
      return Some(why), events + [RemovePart(luck.dropped)];
    }
  }

  lemma BodyIsItsTurns(body: seq<Read>, turns: nat, stream: Bytes)
    requires WholeBody(body, turns, stream)
    ensures turns <= |body| && stream == Concat(body[..turns])
  {
  }

  lemma {:induction false} RunAppend(sha: Bytes -> string, dest: string, want: string, files: Files, pc: Pc,
                                     first: seq<Event>, second: seq<Event>)
    ensures var (f, p) := Run(sha, dest, want, files, pc, first);
            Run(sha, dest, want, files, pc, first + second) == Run(sha, dest, want, f, p, second)
    decreases |second|
  {
    if second == [] {
      assert first + second == first;
    } else {
      var init, last := second[..|second| - 1], second[|second| - 1];
      assert first + second == (first + init) + [last];
      RunAppend(sha, dest, want, files, pc, first, init);
      RunSnoc(sha, dest, want, files, pc, first + init, last);
    }
  }
}
