/** Fetching and verifying one package from one mirror: internal/update/download.go. */
module Download {
  import opened Text
  import opened Mirrors
  import opened Disk

  datatype Error = Cancelled | Mismatch | Unattested | Io(reason: string)

  function Partial(dest: string): string { dest + ".part" }

  /** The content's lowercase hex digest is the published one, in any letter case. */
  predicate Matches(sha: Bytes -> string, file: File, want: string) {
    file.Data? && EqualFold(sha(file.bytes), want)
  }

  // ----- the file steps of one attempt --------------------------------------------------

  datatype Pc =
    | Connecting
    | Copying(stream: Bytes)
    | Verified(stream: Bytes)
    | Cleared(stream: Bytes)
    | CleaningUp(error: Error)
    | Failed(reason: Error)
    | Renamed

  datatype Event =
    | GiveUp(why: Error)         // nothing was created
    | CreatePart
    | Append(chunk: Bytes)
    | Spoil(chunk: Bytes)        // a write that failed part way
    | Stop(why: Error)           // cancelled, broken body, failed close
    | Finish                     // end of body, file closed, digests compared
    | ClearDest(removed: bool)
    | Rename(ok: bool)
    | RemovePart(ok: bool)

  /** One atomic effect on the files. An event that cannot happen at this point changes nothing. */
  function Step(sha: Bytes -> string, dest: string, want: string, files: Files, pc: Pc, e: Event): (Files, Pc) {
    var part := Partial(dest);
    match (pc, e)
    case (Connecting, GiveUp(why)) => (files, Failed(why))
    case (Connecting, CreatePart) =>
      if |want| != HEX_SHA256 then (files, pc) else (files[part := Data([])], Copying([]))
    case (Copying(s), Append(chunk)) => (files[part := Data(s + chunk)], Copying(s + chunk))
    case (Copying(s), Spoil(chunk)) => (files[part := Data(s + chunk)], CleaningUp(Io("write")))
    case (Copying(s), Stop(why)) => (files, CleaningUp(why))
    case (Copying(s), Finish) =>
      (files, if EqualFold(sha(s), want) then Verified(s) else CleaningUp(Mismatch))
    case (Verified(s), ClearDest(removed)) =>
      (if removed then Without(files, dest) else files, Cleared(s))
    case (Cleared(s), Rename(ok)) =>
      if ok && part in files
      then (Without(files, part)[dest := files[part]], Renamed)
      else (files, CleaningUp(Io("rename")))
    case (CleaningUp(why), RemovePart(ok)) =>
      (if ok then Without(files, part) else files, Failed(why))
    case _ => (files, pc)
  }

  function Run(sha: Bytes -> string, dest: string, want: string, files: Files, pc: Pc, events: seq<Event>): (Files, Pc)
    decreases |events|
  {
    if events == [] then (files, pc)
    else
      var (f, p) := Run(sha, dest, want, files, pc, events[..|events| - 1]);
      Step(sha, dest, want, f, p, events[|events| - 1])
  }

  lemma {:induction false} RunSnoc(sha: Bytes -> string, dest: string, want: string, files: Files, pc: Pc,
                                   events: seq<Event>, e: Event)
    ensures var (f, p) := Run(sha, dest, want, files, pc, events);
            Run(sha, dest, want, files, pc, events + [e]) == Step(sha, dest, want, f, p, e)
  {
    assert (events + [e])[..|events|] == events;
  }

  lemma PartialDiffers(dest: string)
    ensures Partial(dest) != dest
  {
    assert |Partial(dest)| == |dest| + 5;
  }

  /** The partial file holds what was received so far, and is only moved once its digest matched. */
  ghost predicate PartOk(sha: Bytes -> string, dest: string, want: string, files: Files, pc: Pc) {
    var part := Partial(dest);
    match pc
    case Copying(s) => part in files && files[part] == Data(s)
    case Verified(s) => part in files && files[part] == Data(s) && EqualFold(sha(s), want)
    case Cleared(s) => part in files && files[part] == Data(s) && EqualFold(sha(s), want)
    case _ => true
  }

  /** What holds after every step: the crash point makes no difference. */
  ghost predicate Inv(sha: Bytes -> string, dest: string, want: string, before: Files, files: Files, pc: Pc) {
    && SameExcept(before, files, {dest, Partial(dest)})
    && (dest in files ==> (dest in before && files[dest] == before[dest]) || Matches(sha, files[dest], want))
    && PartOk(sha, dest, want, files, pc)
    && (pc == Connecting ==> files == before)
    && (pc == Renamed ==> dest in files && Partial(dest) !in files && Matches(sha, files[dest], want))
  }

  /** The partial file stays as described even when others touch other files between the steps. */
  lemma StepKeepsPart(sha: Bytes -> string, dest: string, want: string, files: Files, pc: Pc, e: Event)
    requires PartOk(sha, dest, want, files, pc)
    ensures var (f, p) := Step(sha, dest, want, files, pc, e); PartOk(sha, dest, want, f, p)
    ensures var (f, p) := Step(sha, dest, want, files, pc, e);
            && SameExcept(files, f, {dest, Partial(dest)})
            && (dest in f ==> (dest in files && f[dest] == files[dest]) || (p == Renamed && Matches(sha, f[dest], want)))
  {
    PartialDiffers(dest);
  }

  lemma StepKeepsInv(sha: Bytes -> string, dest: string, want: string, before: Files, files: Files, pc: Pc, e: Event)
    requires Inv(sha, dest, want, before, files, pc)
    ensures var (f, p) := Step(sha, dest, want, files, pc, e); Inv(sha, dest, want, before, f, p)
  {
    PartialDiffers(dest);
  }

  /**
   * At every point of every attempt, and so after a crash anywhere, the destination is what it
   * was, absent, or content with the published digest; nothing else but the partial file changed.
   */
  lemma {:induction false} NeverWrong(sha: Bytes -> string, dest: string, want: string, before: Files,
                                      events: seq<Event>)
    ensures var (f, p) := Run(sha, dest, want, before, Connecting, events);
            Inv(sha, dest, want, before, f, p)
    decreases |events|
  {
    if events != [] {
      var init := events[..|events| - 1];
      NeverWrong(sha, dest, want, before, init);
      var (f, p) := Run(sha, dest, want, before, Connecting, init);
      StepKeepsInv(sha, dest, want, before, f, p, events[|events| - 1]);
    }
  }

  /** The destination is only ever lost by an attempt whose own bytes already matched the digest. */
  lemma {:induction false} LostOnlyAfterVerifying(sha: Bytes -> string, dest: string, want: string, before: Files,
                                                  events: seq<Event>)
    requires dest in before
    ensures var (f, p) := Run(sha, dest, want, before, Connecting, events);
            (dest !in f || f[dest] != before[dest]) ==>
              exists k, s :: 0 <= k < |events| && EqualFold(sha(s), want) &&
                Run(sha, dest, want, before, Connecting, events[..k]).1 == Verified(s)
    decreases |events|
  {
    PartialDiffers(dest);
    if events != [] {
      var n := |events| - 1;
      var init := events[..n];
      LostOnlyAfterVerifying(sha, dest, want, before, init);
      NeverWrong(sha, dest, want, before, init);
      var (f, p) := Run(sha, dest, want, before, Connecting, init);
      var (f', p') := Run(sha, dest, want, before, Connecting, events);
      if dest in f && f[dest] == before[dest] && (dest !in f' || f'[dest] != before[dest]) {
        if p.Cleared? { ClearedCameFromVerified(sha, dest, want, before, init); }
        if p.Verified? { assert Run(sha, dest, want, before, Connecting, events[..n]).1 == Verified(p.stream); }
      }
      forall k | 0 <= k < n ensures events[..n][..k] == events[..k] {}
    }
  }

  lemma {:induction false} ClearedCameFromVerified(sha: Bytes -> string, dest: string, want: string, before: Files,
                                                   events: seq<Event>)
    requires Run(sha, dest, want, before, Connecting, events).1.Cleared?
    ensures exists k, s :: 0 <= k < |events| && EqualFold(sha(s), want) &&
              Run(sha, dest, want, before, Connecting, events[..k]).1 == Verified(s)
    decreases |events|
  {
    var n := |events| - 1;
    var init := events[..n];
    NeverWrong(sha, dest, want, before, init);
    var p := Run(sha, dest, want, before, Connecting, init).1;
    if p.Verified? {
      assert Run(sha, dest, want, before, Connecting, events[..n]).1 == Verified(p.stream);
    } else {
      ClearedCameFromVerified(sha, dest, want, before, init);
      forall k | 0 <= k < n ensures events[..n][..k] == events[..k] {}
    }
  }
}
