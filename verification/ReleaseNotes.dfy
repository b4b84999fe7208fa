/** What the parsed release notes say, in terms of the lines and the answers of the regular expressions alone. */
module ReleaseNotes {
  import opened Text
  import opened Markdown

  // ----- gaps ---------------------------------------------------------------------------

  /** Character i is CJK and only markers come after it: the last one a reader sees. */
  predicate SeenLast(s: string, i: nat) {
    i < |s| && IsCJK(s[i]) && forall k :: i < k < |s| ==> IsMarker(s[k])
  }

  /** Character i is CJK and only markers come before it. */
  predicate SeenFirst(s: string, i: nat) {
    i < |s| && IsCJK(s[i]) && forall k :: 0 <= k < i ==> IsMarker(s[k])
  }

  lemma {:induction false} EndsCJKMeans(s: string)
    ensures EndsCJK(s) <==> exists i: nat :: SeenLast(s, i)
    decreases |s|
  {
    if s != "" {
      var n := |s| - 1;
      if IsMarker(s[n]) {
        EndsCJKMeans(s[..n]);
        if i: nat :| SeenLast(s[..n], i) { assert SeenLast(s, i); }
        if i: nat :| SeenLast(s, i) { assert i < n; assert SeenLast(s[..n], i); }
      } else if IsCJK(s[n]) {
        assert SeenLast(s, n);
      }
    }
  }

  lemma {:induction false} StartsCJKMeans(s: string)
    ensures StartsCJK(s) <==> exists i: nat :: SeenFirst(s, i)
    decreases |s|
  {
    if s != "" {
      if IsMarker(s[0]) {
        StartsCJKMeans(s[1..]);
        if i: nat :| SeenFirst(s[1..], i) {
          assert s[i + 1] == s[1..][i];
          forall k | 0 <= k < i + 1 ensures IsMarker(s[k]) { if k > 0 { assert s[1..][k - 1] == s[k]; } }
          assert SeenFirst(s, i + 1);
        }
        if i: nat :| SeenFirst(s, i) { assert i > 0; assert SeenFirst(s[1..], i - 1); }
      } else if IsCJK(s[0]) {
        assert SeenFirst(s, 0);
      }
    }
  }

  /** Two lines join without a gap exactly when both characters a reader sees at the seam are CJK. */
  lemma SeamIsClosedBetweenCJK(a: string, b: string)
    requires a != "" && b != ""
    ensures JoinLines([a, b]) ==
              if (exists i: nat :: SeenLast(a, i)) && (exists j: nat :: SeenFirst(b, j)) then a + b else a + " " + b
  {
    hide EndsCJK, StartsCJK;
    EndsCJKMeans(a);
    StartsCJKMeans(b);
    JoinOne(a);
    JoinMore([a], b);
    assert [a] + [b] == [a, b] && a + "" + b == a + b;
  }

  // ----- lines --------------------------------------------------------------------------

  /** The source with CRLF and lone CR turned into LF. */
  function Unified(s: string): string
    decreases |s|
  {
    if s == "" then ""
    else if "\r\n" <= s then "\n" + Unified(s[2..])
    else if s[0] == '\r' then "\n" + Unified(s[1..])
    else [s[0]] + Unified(s[1..])
  }

  lemma {:induction false} JoinWithFront(first: string, rest: seq<string>, sep: string)
    requires rest != []
    ensures JoinWith([first] + rest, sep) == first + sep + JoinWith(rest, sep)
    decreases |rest|
  {
    var all := [first] + rest;
    assert all[..|all| - 1] == [first] + rest[..|rest| - 1];
    if |rest| > 1 {
      JoinWithFront(first, rest[..|rest| - 1], sep);
    } else {
      assert [first] + rest[..0] == [first];
      assert rest == [rest[0]];
    }
  }

  lemma JoinWithOne(line: string, sep: string)
    ensures JoinWith([line], sep) == line
  {
  }

  lemma JoinWithGrows(c: char, lines: seq<string>, sep: string)
    requires lines != []
    ensures JoinWith([[c] + lines[0]] + lines[1..], sep) == [c] + JoinWith(lines, sep)
  {
    assert lines == [lines[0]] + lines[1..];
    if |lines| > 1 {
      JoinWithFront([c] + lines[0], lines[1..], sep);
      JoinWithFront(lines[0], lines[1..], sep);
    } else {
      assert lines[1..] == [];
      assert [[c] + lines[0]] + lines[1..] == [[c] + lines[0]];
    }
  }

  /** Putting the line breaks back gives the source, and no line holds one: there is no other way to split it. */
  lemma {:induction false} LinesJoinBack(source: string)
    ensures JoinWith(LinesOf(source), "\n") == Unified(source)
    decreases |source|
  {
    hide JoinWith;
    if source == "" {
      JoinWithOne("", "\n");
    } else if IsBreak(source[0]) {
      var rest := if "\r\n" <= source then source[2..] else source[1..];
      LinesJoinBack(rest);
      JoinWithFront("", LinesOf(rest), "\n");
    } else {
      LinesJoinBack(source[1..]);
      JoinWithGrows(source[0], LinesOf(source[1..]), "\n");
    }
  }

  /** Lines without breaks survive being joined and split again. */
  lemma {:induction false} LinesSplitBack(lines: seq<string>)
    requires lines != [] && NoneBroken(lines)
    ensures LinesOf(JoinWith(lines, "\n")) == lines
    decreases |lines|, |lines[0]|
  {
    hide JoinWith;
    var line, rest := lines[0], lines[1..];
    assert lines == [line] + rest;
    if line != "" {
      var less := [line[1..]] + rest;
      assert NoneBroken(less);
      LinesSplitBack(less);
      JoinWithGrows(line[0], less, "\n");
      assert less[0] == line[1..] && less[1..] == rest && [line[0]] + line[1..] == line;
      assert [[line[0]] + less[0]] + less[1..] == lines;
      var all := JoinWith(lines, "\n");
      assert all == [line[0]] + JoinWith(less, "\n");
      assert all[1..] == JoinWith(less, "\n") && !IsBreak(all[0]);
    } else if rest == [] {
      assert lines == [""];
      JoinWithOne("", "\n");
    } else {
      LinesSplitBack(rest);
      JoinWithFront("", rest, "\n");
      var all := JoinWith(lines, "\n");
      assert all == "\n" + JoinWith(rest, "\n");
      assert all[0] == '\n' && all[1..] == JoinWith(rest, "\n");
      assert LinesOf(all) == [""] + LinesOf(all[1..]);
    }
  }

  // ----- which block a line begins --------------------------------------------------------

  const KINDS: seq<Kind> := [Fence, Blank, Ruled, Headed, Quoted, Listed, Worded]

  /** The tests, in the order they are put to a line. */
  function Tests(r: Rules, line: string): (tests: seq<bool>)
    ensures |tests| == |KINDS|
  {
    [r.fence(line), r.trim(line) == "", r.rule(line), r.heading(line).Some?, r.quote(line).Some?, r.item(line).Some?, true]
  }

  /** A line is of the kind of the first test it passes. */
  lemma KindIsTheFirstTest(r: Rules, line: string, k: nat)
    requires k < |KINDS|
    ensures KindOf(r, line) == KINDS[k] <==> Tests(r, line)[k] && forall j :: 0 <= j < k ==> !Tests(r, line)[j]
  {
    var t := Tests(r, line);
    if KindOf(r, line) != KINDS[k] && t[k] {
      if t[0] {} else if t[1] {} else if t[2] {} else if t[3] {} else if t[4] {} else if t[5] {}
    }
  }

  /** How far a block reaches, by the tests of its lines. */
  ghost predicate Reaches(r: Rules, lines: seq<string>, s: Span)
    requires s.start < s.end <= |lines|
  {
    match KindOf(r, lines[s.start])
    case Fence =>
      && (forall k :: s.start < k < s.end - 1 ==> !r.fence(lines[k]))
      && ((s.start < s.end - 1 && r.fence(lines[s.end - 1])) ||
          (s.end == |lines| && (s.start < s.end - 1 ==> !r.fence(lines[s.end - 1]))))
    case Quoted =>
      && (forall k :: s.start <= k < s.end ==> r.quote(lines[k]).Some?)
      && (s.end < |lines| ==> r.quote(lines[s.end]).None?)
    case Listed =>
      && r.item(lines[s.start]).Some?
      && (forall k :: s.start <= k < s.end ==> r.item(lines[k]).Some? || r.indented(lines[k]))
      && (s.end < |lines| ==> r.item(lines[s.end]).None? && !r.indented(lines[s.end]))
    case Worded =>
      && (forall k :: s.start <= k < s.end ==> KindOf(r, lines[k]) == Worded)
      && (s.end < |lines| ==> KindOf(r, lines[s.end]) != Worded)
    case _ => s.end == s.start + 1
  }

  lemma EndReaches(r: Rules, lines: seq<string>, i: nat)
    requires i < |lines|
    ensures Reaches(r, lines, Span(i, EndOf(r, lines, i)))
  {
    var j := EndOf(r, lines, i);
    match KindOf(r, lines[i])
    case Fence =>
      var close := Until(r, InFence, lines, i + 1);
      assert forall k :: i < k < close ==> GoesOn(r, InFence, lines[k]);
    case Quoted => assert forall k :: i < k < j ==> GoesOn(r, InQuote, lines[k]);
    case Listed => assert forall k :: i < k < j ==> GoesOn(r, InList, lines[k]);
    case Worded => assert forall k :: i < k < j ==> GoesOn(r, InParagraph, lines[k]);
    case _ =>
  }

  // ----- what a block says ----------------------------------------------------------------

  lemma {:induction false} QuotedTextAt(r: Rules, lines: seq<string>, k: nat)
    requires k < |lines|
    ensures QuotedText(r, lines)[k] == (var q := r.quote(lines[k]); if q.Some? then q.value else "")
    decreases |lines|
  {
    if k < |lines| - 1 { QuotedTextAt(r, lines[..|lines| - 1], k); }
  }

  /** Lines that show nothing are left out of a quote. */
  lemma ShownKeepsOne(r: Rules, line: string)
    ensures Shown(r, [line]) == if r.trim(line) != "" then [line] else []
  {
    assert [line][..0] == [];
  }

  /** And the others stay in order. */
  lemma {:induction false} ShownKeepsOrder(r: Rules, a: seq<string>, b: seq<string>)
    ensures Shown(r, a + b) == Shown(r, a) + Shown(r, b)
    decreases |b|
  {
    if b == [] {
      assert a + b == a;
    } else {
      var init := b[..|b| - 1];
      assert (a + b)[..|a + b| - 1] == a + init && (a + b)[|a + b| - 1] == b[|b| - 1];
      ShownKeepsOrder(r, a, init);
    }
  }

  /** An item says its marker's text and its trimmed continuations; its depth is 1 from two spaces on. */
  ghost predicate ItemSays(r: Rules, lines: seq<string>, item: Item)
    requires lines != []
  {
    && r.item(lines[0]).Some? && (item.depth == if r.item(lines[0]).value.indent >= 2 then 1 else 0)
    && exists more: seq<string> ::
         && |more| == |lines| - 1 && (forall k :: 0 <= k < |more| ==> more[k] == r.trim(lines[k + 1]))
         && item.text == JoinLines([r.item(lines[0]).value.text] + more)
  }

  /** The items of a list: each from its marked line up to the next. */
  ghost predicate ItemsSay(r: Rules, lines: seq<string>, items: seq<Item>)
    decreases |lines|
  {
    if lines == [] then items == []
    else
      && items != []
      && exists n: nat ::
           && 0 < n <= |lines| && ItemsOnce(r, lines, n) && ItemSays(r, lines[..n], items[0])
           && ItemsSay(r, lines[n..], items[1..])
  }

  /** The first line is marked, and the next marked one is line n. */
  predicate ItemsOnce(r: Rules, lines: seq<string>, n: nat)
    requires 0 < n <= |lines|
  {
    && r.item(lines[0]).Some? && (forall k :: 1 <= k < n ==> r.item(lines[k]).None?)
    && (n < |lines| ==> r.item(lines[n]).Some?)
  }

  lemma {:induction false} ItemsOfSay(r: Rules, lines: seq<string>)
    requires lines != [] ==> r.item(lines[0]).Some?
    ensures ItemsSay(r, lines, ItemsOf(r, lines))
    decreases |lines|
  {
    if lines != [] {
      var n := Until(r, InItem, lines, 1);
      forall k | 1 <= k < n ensures r.item(lines[k]).None? { assert GoesOn(r, InItem, lines[k]); }
      assert ItemsOnce(r, lines, n);
      ItemsOfSay(r, lines[n..]);
      ItemOfSays(r, lines[..n]);
      hide JoinLines, ItemOf;
      var items := ItemsOf(r, lines);
      assert items[1..] == ItemsOf(r, lines[n..]);
    }
  }

  lemma ItemOfSays(r: Rules, lines: seq<string>)
    requires lines != [] && r.item(lines[0]).Some?
    ensures ItemSays(r, lines, ItemOf(r, lines))
  {
    hide JoinLines;
    var more := Trimmed(r, lines[1..]);
    assert forall k :: 0 <= k < |more| ==> more[k] == r.trim(lines[k + 1]);
  }

  /** What a block says, by the answers for its lines. */
  ghost predicate Says(r: Rules, lines: seq<string>, s: Span, block: Block)
    requires s.start < s.end <= |lines|
  {
    var own := lines[s.start..s.end];
    match KindOf(r, own[0])
    case Fence =>
      var closed := s.start < s.end - 1 && r.fence(lines[s.end - 1]);
      var body := lines[s.start + 1..if closed then s.end - 1 else s.end];
      block.Code? && (body == [] ==> block.text == "") && (body != [] && NoneBroken(body) ==> LinesOf(block.text) == body)
    case Ruled => block == Rule
    case Headed => block.Heading? && r.heading(own[0]) == Some(block.text)
    case Quoted =>
      && block.Quote? && r.quote(own[0]).Some? && block.alert == r.alert(r.quote(own[0]).value)
      && exists texts: seq<string> ::
           && |texts| == |own| && (forall k :: 0 <= k < |own| ==> r.quote(own[k]) == Some(texts[k]))
           && block.text == JoinLines(Shown(r, if block.alert.None? then texts else texts[1..]))
    case Listed => block.List? && block.ordered == r.ordered(own[0]) && ItemsSay(r, own, block.items)
    case _ =>
      && block.Paragraph?
      && exists texts: seq<string> ::
           && |texts| == |own| && (forall k :: 0 <= k < |own| ==> texts[k] == r.trim(own[k]))
           && block.text == JoinLines(texts)
  }

  lemma CodeSays(r: Rules, lines: seq<string>, s: Span)
    requires s.start < s.end <= |lines| && KindOf(r, lines[s.start]) == Fence && s.end == EndOf(r, lines, s.start)
    ensures Says(r, lines, s, BlockOf(r, lines, s))
  {
    EndReaches(r, lines, s.start);
    var close := Until(r, InFence, lines, s.start + 1);
    var body := lines[s.start + 1..close];
    var closed := s.start < s.end - 1 && r.fence(lines[s.end - 1]);
    assert close == if closed then s.end - 1 else s.end by {
      assert forall k :: s.start < k < close ==> GoesOn(r, InFence, lines[k]);
    }
    if body != [] && NoneBroken(body) { LinesSplitBack(body); }
  }

  lemma QuoteSays(r: Rules, lines: seq<string>, s: Span)
    requires s.start < s.end <= |lines| && KindOf(r, lines[s.start]) == Quoted && s.end == EndOf(r, lines, s.start)
    ensures Says(r, lines, s, BlockOf(r, lines, s))
  {
    EndReaches(r, lines, s.start);
    hide JoinLines, Shown, QuotedText, EndOf;
    var own := lines[s.start..s.end];
    var texts := QuotedText(r, own);
    forall k | 0 <= k < |own| ensures r.quote(own[k]) == Some(texts[k]) {
      assert own[k] == lines[s.start + k];
      QuotedTextAt(r, own, k);
    }
  }

  lemma OthersSay(r: Rules, lines: seq<string>, s: Span)
    requires s.start < s.end <= |lines| && s.end == EndOf(r, lines, s.start)
    requires KindOf(r, lines[s.start]) !in {Fence, Quoted, Blank}
    ensures Says(r, lines, s, BlockOf(r, lines, s))
  {
    hide JoinLines, EndOf, ItemsOf;
    var own := lines[s.start..s.end];
    assert own[0] == lines[s.start];
    if KindOf(r, own[0]) == Listed { ItemsOfSay(r, own); }
    if KindOf(r, own[0]) == Worded { assert |Trimmed(r, own)| == |own|; }
  }

  /** Every block of a parse: where it reaches and what it says. */
  lemma {:induction false} BlocksMean(r: Rules, lines: seq<string>, k: nat)
    requires k < |BlocksFrom(r, lines, 0)|
    ensures k < |Spans(r, lines, 0)|
    ensures var s := Spans(r, lines, 0)[k];
            s.start < s.end <= |lines| && Reaches(r, lines, s) && Says(r, lines, s, BlocksFrom(r, lines, 0)[k])
  {
    OneBlockASpan(r, lines, 0);
    var s := Spans(r, lines, 0)[k];
    EndReaches(r, lines, s.start);
    hide BlockOf, EndOf, Reaches, Says;
    if KindOf(r, lines[s.start]) == Fence { CodeSays(r, lines, s); }
    else if KindOf(r, lines[s.start]) == Quoted { QuoteSays(r, lines, s); }
    else { OthersSay(r, lines, s); }
  }
}
