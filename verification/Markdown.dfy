/**
 * The release-notes block parser: frontend/src/components/markdown.tsx. What a line looks like is asked
 * of the regular expressions, so they come in as functions; everything below holds for any of them.
 */
module Markdown {
  import opened Text

  datatype Marker = Marker(indent: nat, text: string)

  /** The answers of FENCE, RULE, HEADING, QUOTE, ITEM, /^\s*\d/, /^\s+\S/, ALERT_MARKER and trim. */
  datatype Rules = Rules(
    fence: string -> bool, rule: string -> bool, heading: string -> Option<string>,
    quote: string -> Option<string>, item: string -> Option<Marker>, ordered: string -> bool,
    indented: string -> bool, alert: string -> Option<string>, trim: string -> string)

  datatype Item = Item(text: string, depth: nat)

  datatype Block =
    | Heading(text: string)
    | Paragraph(text: string)
    | List(ordered: bool, items: seq<Item>)
    | Quote(alert: Option<string>, text: string)
    | Code(text: string)
    | Rule

  // ----- joinLines ---------------------------------------------------------------------

  predicate IsMarker(c: char) { c == '*' || c == '_' || c == '`' || c == '~' }

  predicate IsCJK(c: char) {
    '\U{2E80}' <= c <= '\U{303F}' || '\U{3400}' <= c <= '\U{4DBF}' || '\U{4E00}' <= c <= '\U{9FFF}' ||
    '\U{F900}' <= c <= '\U{FAFF}' || '\U{FE30}' <= c <= '\U{FE4F}' || '\U{FF00}' <= c <= '\U{FFEF}'
  }

  /** Is the last character a reader sees CJK? */
  predicate EndsCJK(s: string) {
    s != "" && if IsMarker(s[|s| - 1]) then EndsCJK(s[..|s| - 1]) else IsCJK(s[|s| - 1])
  }

  predicate StartsCJK(s: string) {
    s != "" && if IsMarker(s[0]) then StartsCJK(s[1..]) else IsCJK(s[0])
  }

  function Glue(a: string, b: string): string { if EndsCJK(a) && StartsCJK(b) then "" else " " }

  function Joined(joined: string, line: string): string {
    if joined == "" then line else joined + Glue(joined, line) + line
  }

  /** The reduce of the source, as a function. */
  function JoinLines(lines: seq<string>): string {
    if lines == [] then "" else Joined(JoinLines(lines[..|lines| - 1]), lines[|lines| - 1])
  }

  method JoinAll(lines: seq<string>) returns (joined: string)
    ensures joined == JoinLines(lines)
  {
    joined := "";
    for i := 0 to |lines|
      invariant joined == JoinLines(lines[..i])
    {
      assert lines[..i + 1][..i] == lines[..i];
      joined := Joined(joined, lines[i]);
    }
    assert lines[..|lines|] == lines;
  }

  /** A line written after others ends as it would alone: the space between hides what came before. */
  lemma {:induction false} EndsAlone(a: string, b: string)
    requires b != ""
    ensures EndsCJK(a + Glue(a, b) + b) == EndsCJK(b)
  {
    if StartsCJK(b) {
      EndsAfter(a + Glue(a, b), b);
    } else {
      EndsAfter(a + " ", b);
      if OnlyMarkers(b) {
        EndsAfterMarkers(a + " ", b);
      }
    }
  }

  predicate OnlyMarkers(s: string) { forall i :: 0 <= i < |s| ==> IsMarker(s[i]) }

  /** Only a line of nothing but markers lets the text before it show. */
  lemma {:induction false} EndsAfter(a: string, b: string)
    ensures StartsCJK(b) ==> !OnlyMarkers(b)
    ensures !OnlyMarkers(b) ==> EndsCJK(a + b) == EndsCJK(b)
    decreases |b|
  {
    if b != "" {
      var init := b[..|b| - 1];
      assert (a + b)[..|a + b| - 1] == a + init;
      EndsAfter(a, init);
      StartsCJKNotOnlyMarkers(b);
    }
  }

  lemma {:induction false} StartsCJKNotOnlyMarkers(b: string)
    ensures StartsCJK(b) ==> !OnlyMarkers(b)
    decreases |b|
  {
    if b != "" && IsMarker(b[0]) {
      StartsCJKNotOnlyMarkers(b[1..]);
      if OnlyMarkers(b) { assert OnlyMarkers(b[1..]); }
    }
  }

  lemma {:induction false} EndsAfterMarkers(a: string, b: string)
    requires OnlyMarkers(b)
    ensures EndsCJK(a + b) == EndsCJK(a) && !EndsCJK(b)
    decreases |b|
  {
    if b == "" {
      assert a + b == a;
    } else {
      var init := b[..|b| - 1];
      assert (a + b)[..|a + b| - 1] == a + init;
      EndsAfterMarkers(a, init);
    }
  }

  predicate NoneEmpty(lines: seq<string>) { forall i :: 0 <= i < |lines| ==> lines[i] != "" }

  /** What a join ends with, for non-empty lines. */
  lemma {:induction false} JoinEnds(lines: seq<string>)
    requires lines != [] && NoneEmpty(lines)
    ensures JoinLines(lines) != "" && EndsCJK(JoinLines(lines)) == EndsCJK(lines[|lines| - 1])
    decreases |lines|
  {
    if |lines| > 1 {
      JoinEnds(lines[..|lines| - 1]);
      EndsAlone(JoinLines(lines[..|lines| - 1]), lines[|lines| - 1]);
    } else {
      assert lines[..0] == [];
    }
  }

  lemma JoinOne(line: string)
    ensures JoinLines([line]) == line
  {
    assert [line][..0] == [];
  }

  lemma JoinMore(lines: seq<string>, line: string)
    ensures JoinLines(lines + [line]) == Joined(JoinLines(lines), line)
  {
    assert (lines + [line])[..|lines + [line]| - 1] == lines;
  }

  /** Where lines are cut does not matter: each gap depends only on the two lines beside it. */
  lemma {:induction false} JoinSplits(xs: seq<string>, ys: seq<string>)
    requires xs != [] && ys != [] && NoneEmpty(xs) && NoneEmpty(ys)
    ensures JoinLines(xs + ys) == JoinLines(xs) + Glue(xs[|xs| - 1], ys[0]) + JoinLines(ys)
    decreases |ys|
  {
    hide JoinLines, EndsCJK, StartsCJK;
    var last := ys[|ys| - 1];
    var init := ys[..|ys| - 1];
    assert ys == init + [last] && xs + ys == (xs + init) + [last];
    JoinMore(xs + init, last);
    JoinMore(init, last);
    if init == [] {
      assert xs + init == xs && ys == [last];
      JoinOne(last);
      JoinEnds(xs);
    } else {
      JoinSplits(xs, init);
      JoinEnds(init);
      JoinEnds(xs + init);
      assert (xs + init)[|xs + init| - 1] == init[|init| - 1];
      assert Glue(JoinLines(xs + init), last) == Glue(JoinLines(init), last);
    }
  }

  /** Folding continuations one at a time is joining all the lines of the item. */
  lemma {:induction false} FoldingIsJoining(lines: seq<string>, line: string)
    ensures JoinLines([JoinLines(lines), line]) == JoinLines(lines + [line])
  {
    JoinOne(JoinLines(lines));
    JoinMore([JoinLines(lines)], line);
    JoinMore(lines, line);
  }

  // ----- which lines make a block --------------------------------------------------------

  datatype Kind = Fence | Blank | Ruled | Headed | Quoted | Listed | Worded

  /** The first test a line passes, in the order the parser tries them. */
  function KindOf(r: Rules, line: string): Kind {
    if r.fence(line) then Fence
    else if r.trim(line) == "" then Blank
    else if r.rule(line) then Ruled
    else if r.heading(line).Some? then Headed
    else if r.quote(line).Some? then Quoted
    else if r.item(line).Some? then Listed
    else Worded
  }

  datatype Run = InFence | InQuote | InList | InItem | InParagraph

  predicate GoesOn(r: Rules, run: Run, line: string) {
    match run
    case InFence => !r.fence(line)
    case InQuote => r.quote(line).Some?
    case InList => r.item(line).Some? || r.indented(line)
    case InItem => r.item(line).None?
    case InParagraph => KindOf(r, line) == Worded
  }

  /** The first line from i on at which a run stops. */
  function Until(r: Rules, run: Run, lines: seq<string>, i: nat): (j: nat)
    requires i <= |lines|
    ensures i <= j <= |lines|
    ensures forall k :: i <= k < j ==> GoesOn(r, run, lines[k])
    ensures j < |lines| ==> !GoesOn(r, run, lines[j])
    decreases |lines| - i
  {
    if i == |lines| || !GoesOn(r, run, lines[i]) then i else Until(r, run, lines, i + 1)
  }

  /** Where the block that starts at line i ends. */
  function EndOf(r: Rules, lines: seq<string>, i: nat): (j: nat)
    requires i < |lines|
    ensures i < j <= |lines|
  {
    match KindOf(r, lines[i])
    case Fence =>
      var close := Until(r, InFence, lines, i + 1);
      if close < |lines| then close + 1 else close
    case Quoted => Until(r, InQuote, lines, i + 1)
    case Listed => Until(r, InList, lines, i + 1)
    case Worded => Until(r, InParagraph, lines, i + 1)
    case _ => i + 1
  }

  datatype Span = Span(start: nat, end: nat)

  function Spans(r: Rules, lines: seq<string>, i: nat): seq<Span>
    requires i <= |lines|
    decreases |lines| - i
  {
    if i == |lines| then []
    else if KindOf(r, lines[i]) == Blank then Spans(r, lines, i + 1)
    else [Span(i, EndOf(r, lines, i))] + Spans(r, lines, EndOf(r, lines, i))
  }

  // ----- what a block says ------------------------------------------------------------

  function Trimmed(r: Rules, lines: seq<string>): (t: seq<string>)
    ensures |t| == |lines|
    ensures forall i :: 0 <= i < |t| ==> t[i] == r.trim(lines[i])
  {
    if lines == [] then []
    else Trimmed(r, lines[..|lines| - 1]) + [r.trim(lines[|lines| - 1])]
  }

  function QuotedText(r: Rules, lines: seq<string>): (t: seq<string>)
    ensures |t| == |lines|
  {
    if lines == [] then []
    else
      var inner := r.quote(lines[|lines| - 1]);
      QuotedText(r, lines[..|lines| - 1]) + [if inner.Some? then inner.value else ""]
  }

  function Shown(r: Rules, lines: seq<string>): seq<string> {
    if lines == [] then []
    else
      var last := lines[|lines| - 1];
      Shown(r, lines[..|lines| - 1]) + if r.trim(last) != "" then [last] else []
  }

  function QuoteOf(r: Rules, quoted: seq<string>): Block
    requires quoted != []
  {
    var alert := r.alert(quoted[0]);
    Quote(alert, JoinLines(Shown(r, if alert.None? then quoted else quoted[1..])))
  }

  function Depth(indent: nat): (d: nat)
    ensures d <= 1 && (d == 1 <==> indent >= 2)
  {
    if indent / 2 < 1 then indent / 2 else 1
  }

  /** An item is a marked line and the unmarked lines after it. */
  function ItemOf(r: Rules, lines: seq<string>): Item
    requires lines != [] && r.item(lines[0]).Some?
  {
    var marker := r.item(lines[0]).value;
    Item(JoinLines([marker.text] + Trimmed(r, lines[1..])), Depth(marker.indent))
  }

  function ItemsOf(r: Rules, lines: seq<string>): seq<Item>
    requires lines != [] ==> r.item(lines[0]).Some?
    decreases |lines|
  {
    if lines == [] then []
    else
      var n := Until(r, InItem, lines, 1);
      [ItemOf(r, lines[..n])] + ItemsOf(r, lines[n..])
  }

  function JoinWith(lines: seq<string>, sep: string): string {
    if lines == [] then ""
    else if |lines| == 1 then lines[0]
    else JoinWith(lines[..|lines| - 1], sep) + sep + lines[|lines| - 1]
  }

  function BlockOf(r: Rules, lines: seq<string>, s: Span): Block
    requires s.start < s.end <= |lines| && KindOf(r, lines[s.start]) != Blank
  {
    var own := lines[s.start..s.end];
    match KindOf(r, own[0])
    case Fence => Code(JoinWith(lines[s.start + 1..Until(r, InFence, lines, s.start + 1)], "\n"))
    case Ruled => Rule
    case Headed => Heading(r.heading(own[0]).value)
    case Quoted => QuoteOf(r, QuotedText(r, own))
    case Listed => List(r.ordered(own[0]), ItemsOf(r, own))
    case _ => Paragraph(JoinLines(Trimmed(r, own)))
  }

  function BlocksFrom(r: Rules, lines: seq<string>, i: nat): seq<Block>
    requires i <= |lines|
    decreases |lines| - i
  {
    if i == |lines| then []
    else if KindOf(r, lines[i]) == Blank then BlocksFrom(r, lines, i + 1)
    else
      var j := EndOf(r, lines, i);
      [BlockOf(r, lines, Span(i, j))] + BlocksFrom(r, lines, j)
  }

  // ----- the parser ---------------------------------------------------------------------

  /** Splitting on LF after CRLF and lone CR have become LF. */
  function LinesOf(source: string): (lines: seq<string>)
    ensures lines != []
    decreases |source|
  {
    if source == "" then [""]
    else if "\r\n" <= source then [""] + LinesOf(source[2..])
    else if source[0] == '\n' || source[0] == '\r' then [""] + LinesOf(source[1..])
    else
      var rest := LinesOf(source[1..]);
      [[source[0]] + rest[0]] + rest[1..]
  }

  /** No line keeps a line break, and the lines carry every other character of the source in order. */
  lemma {:induction false} LinesKeepTheText(source: string)
    ensures NoneBroken(LinesOf(source)) && Flat(LinesOf(source)) == Unbroken(source)
    decreases |source|
  {
    hide NoneBroken, Flat;
    if source == "" {
      OneLine();
    } else if IsBreak(source[0]) {
      var rest := if "\r\n" <= source then source[2..] else source[1..];
      LinesKeepTheText(rest);
      LineEnds(LinesOf(rest));
      BreakIsNoText(source);
    } else {
      LinesKeepTheText(source[1..]);
      LineGrows(source[0], LinesOf(source[1..]));
    }
  }

  lemma OneLine()
    ensures NoneBroken([""]) && Flat([""]) == ""
  {
  }

  lemma LineEnds(lines: seq<string>)
    requires NoneBroken(lines)
    ensures NoneBroken([""] + lines) && Flat([""] + lines) == Flat(lines)
  {
    assert ([""] + lines)[1..] == lines;
  }

  lemma LineGrows(c: char, lines: seq<string>)
    requires lines != [] && NoneBroken(lines) && !IsBreak(c)
    ensures NoneBroken([[c] + lines[0]] + lines[1..])
    ensures Flat([[c] + lines[0]] + lines[1..]) == [c] + Flat(lines)
  {
    assert ([[c] + lines[0]] + lines[1..])[1..] == lines[1..];
  }

  lemma BreakIsNoText(source: string)
    requires source != "" && IsBreak(source[0])
    ensures Unbroken(source) == Unbroken(source[1..])
    ensures "\r\n" <= source ==> Unbroken(source) == Unbroken(source[2..])
  {
    if "\r\n" <= source {
      assert source[1..][0] == '\n' && source[1..][1..] == source[2..];
    }
  }

  predicate IsBreak(c: char) { c == '\n' || c == '\r' }

  predicate NoneBroken(lines: seq<string>) {
    forall k, i :: 0 <= k < |lines| && 0 <= i < |lines[k]| ==> !IsBreak(lines[k][i])
  }

  function Unbroken(s: string): string {
    if s == "" then "" else (if IsBreak(s[0]) then "" else [s[0]]) + Unbroken(s[1..])
  }

  function Flat(lines: seq<string>): string {
    if lines == [] then "" else lines[0] + Flat(lines[1..])
  }

  lemma TrimmedMore(r: Rules, lines: seq<string>, from: nat, to: nat)
    requires from <= to < |lines|
    ensures Trimmed(r, lines[from..to + 1]) == Trimmed(r, lines[from..to]) + [r.trim(lines[to])]
  {
    assert lines[from..to + 1][..to - from] == lines[from..to];
  }

  lemma {:induction false} UntilIs(r: Rules, run: Run, lines: seq<string>, i: nat, j: nat)
    requires i <= j <= |lines|
    requires forall k :: i <= k < j ==> GoesOn(r, run, lines[k])
    requires j < |lines| ==> !GoesOn(r, run, lines[j])
    ensures Until(r, run, lines, i) == j
    decreases j - i
  {
    if i < j { UntilIs(r, run, lines, i + 1, j); }
  }

  lemma JoinWithMore(lines: seq<string>, from: nat, to: nat, sep: string)
    requires from <= to < |lines|
    ensures JoinWith(lines[from..to + 1], sep) ==
              if from == to then lines[to] else JoinWith(lines[from..to], sep) + sep + lines[to]
  {
    assert lines[from..to + 1][..to - from] == lines[from..to];
  }

  lemma NothingJoined()
    ensures forall sep :: JoinWith([], sep) == ""
  {
  }

  lemma NothingQuoted(r: Rules)
    ensures QuotedText(r, []) == []
  {
  }

  lemma QuotedMore(r: Rules, lines: seq<string>, from: nat, to: nat)
    requires from <= to < |lines| && r.quote(lines[to]).Some?
    ensures QuotedText(r, lines[from..to + 1]) == QuotedText(r, lines[from..to]) + [r.quote(lines[to]).value]
  {
    assert lines[from..to + 1][..to - from] == lines[from..to];
  }

  method ReadCode(r: Rules, lines: seq<string>, start: nat) returns (block: Block, next: nat)
    requires start < |lines| && KindOf(r, lines[start]) == Fence
    ensures next == EndOf(r, lines, start) && block == BlockOf(r, lines, Span(start, next))
  {
    hide JoinWith;
    assert lines[start + 1..start + 1] == [];
    NothingJoined();
    var body, index := "", start + 1;
    while index < |lines| && !r.fence(lines[index])
      invariant start < index <= |lines|
      invariant forall k :: start < k < index ==> GoesOn(r, InFence, lines[k])
      invariant body == JoinWith(lines[start + 1..index], "\n")
    {
      JoinWithMore(lines, start + 1, index, "\n");
      body := body + (if index == start + 1 then "" else "\n") + lines[index];
      index := index + 1;
    }
    UntilIs(r, InFence, lines, start + 1, index);
    next := if index < |lines| then index + 1 else index;
    block := Code(body);
  }

  method ReadQuote(r: Rules, lines: seq<string>, start: nat) returns (block: Block, next: nat)
    requires start < |lines| && KindOf(r, lines[start]) == Quoted
    ensures next == EndOf(r, lines, start) && block == BlockOf(r, lines, Span(start, next))
  {
    hide JoinLines, Shown, QuotedText;
    var quoted: seq<string> := [];
    next := start;
    assert lines[start..next] == [];
    NothingQuoted(r);
    while next < |lines|
      invariant start <= next <= |lines| && |quoted| == next - start
      invariant forall k :: start <= k < next ==> GoesOn(r, InQuote, lines[k])
      invariant quoted == QuotedText(r, lines[start..next])
    {
      var inner := r.quote(lines[next]);
      if inner.None? { break; }
      QuotedMore(r, lines, start, next);
      quoted := quoted + [inner.value];
      next := next + 1;
    }
    assert next > start;
    UntilIs(r, InQuote, lines, start + 1, next);
    var alert := r.alert(quoted[0]);
    var body := if alert.None? then quoted else quoted[1..];
    var shown := KeepShown(r, body);
    var text := JoinAll(shown);
    block := Quote(alert, text);
  }

  method KeepShown(r: Rules, body: seq<string>) returns (shown: seq<string>)
    ensures shown == Shown(r, body)
  {
    shown := [];
    for i := 0 to |body|
      invariant shown == Shown(r, body[..i])
    {
      assert body[..i + 1][..i] == body[..i];
      if r.trim(body[i]) != "" { shown := shown + [body[i]]; }
    }
    assert body[..|body|] == body;
  }

  /** One more line of a list: a marked one starts an item, any other folds into the last. */
  function Grown(r: Rules, items: seq<Item>, line: string): seq<Item> {
    match r.item(line)
    case Some(m) => items + [Item(m.text, Depth(m.indent))]
    case None =>
      if items == [] then []
      else
        var last := items[|items| - 1];
        items[..|items| - 1] + [last.(text := JoinLines([last.text, r.trim(line)]))]
  }

  lemma NoItems(r: Rules)
    ensures ItemsOf(r, []) == []
  {
  }

  lemma OneItem(r: Rules, line: string)
    requires r.item(line).Some?
    ensures ItemsOf(r, [line]) == Grown(r, [], line)
  {
    assert [line][1..] == [] && [line][..1] == [line];
    JoinOne(r.item(line).value.text);
  }

  lemma ItemFolds(r: Rules, lines: seq<string>, line: string)
    requires lines != [] && r.item(lines[0]).Some?
    ensures ItemOf(r, lines + [line]) ==
              var item := ItemOf(r, lines); item.(text := JoinLines([item.text, r.trim(line)]))
  {
    hide JoinLines;
    var text := [r.item(lines[0]).value.text];
    assert (lines + [line])[1..] == lines[1..] + [line];
    assert (lines[1..] + [line])[..|lines| - 1] == lines[1..];
    assert text + (Trimmed(r, lines[1..]) + [r.trim(line)]) == (text + Trimmed(r, lines[1..])) + [r.trim(line)];
    FoldingIsJoining(text + Trimmed(r, lines[1..]), r.trim(line));
  }

  lemma ItemsSplit(r: Rules, lines: seq<string>, n: nat)
    requires 0 < n <= |lines| && r.item(lines[0]).Some?
    requires forall k :: 1 <= k < n ==> r.item(lines[k]).None?
    requires n < |lines| ==> r.item(lines[n]).Some?
    ensures ItemsOf(r, lines) == [ItemOf(r, lines[..n])] + ItemsOf(r, lines[n..])
  {
    UntilIs(r, InItem, lines, 1, n);
  }

  lemma {:induction false} ItemsGrow(r: Rules, lines: seq<string>, line: string)
    requires lines != [] && r.item(lines[0]).Some?
    ensures ItemsOf(r, lines) != [] && ItemsOf(r, lines + [line]) == Grown(r, ItemsOf(r, lines), line)
    decreases |lines|
  {
    hide JoinLines, Trimmed, ItemOf, ItemsOf;
    var n, more := Until(r, InItem, lines, 1), lines + [line];
    ItemsSplit(r, lines, n);
    NoItems(r);
    if n < |lines| {
      ItemsSplit(r, more, n);
      assert more[..n] == lines[..n] && more[n..] == lines[n..] + [line];
      ItemsGrow(r, lines[n..], line);
    } else if r.item(line).Some? {
      ItemsSplit(r, more, n);
      assert more[..n] == lines && more[n..] == [line] && lines[..n] == lines && lines[n..] == [];
      OneItem(r, line);
    } else {
      ItemsSplit(r, more, n + 1);
      assert more[..n + 1] == more && more[n + 1..] == [] && lines[..n] == lines && lines[n..] == [];
      ItemFolds(r, lines, line);
    }
  }

  method ReadList(r: Rules, lines: seq<string>, start: nat) returns (block: Block, next: nat)
    requires start < |lines| && KindOf(r, lines[start]) == Listed
    ensures next == EndOf(r, lines, start) && block == BlockOf(r, lines, Span(start, next))
  {
    hide JoinLines, ItemsOf;
    NoItems(r);
    var items: seq<Item> := [];
    next := start;
    assert lines[start..next] == [];
    while next < |lines|
      invariant start <= next <= |lines| && (items == [] <==> next == start)
      invariant forall k :: start <= k < next ==> GoesOn(r, InList, lines[k])
      invariant items == ItemsOf(r, lines[start..next])
      decreases |lines| - next
    {
      var line := lines[next];
      assert lines[start..next + 1] == lines[start..next] + [line];
      if next > start {
        ItemsGrow(r, lines[start..next], line);
      } else {
        assert lines[start..next + 1] == [line];
        OneItem(r, line);
      }
      var marked := r.item(line);
      if marked.Some? {
        items := items + [Item(marked.value.text, Depth(marked.value.indent))];
        next := next + 1;
        continue;
      }
      if items == [] || !r.indented(line) { break; }
      var last := items[|items| - 1];
      var text := JoinAll([last.text, r.trim(line)]);
      items := items[|items| - 1 := last.(text := text)];
      next := next + 1;
    }
    UntilIs(r, InList, lines, start + 1, next);
    block := List(r.ordered(lines[start]), items);
  }

  /** A run of plain lines that has ended is one paragraph. */
  lemma {:induction false} Flushed(r: Rules, lines: seq<string>, from: nat, to: nat)
    requires from <= to <= |lines|
    requires forall k :: from <= k < to ==> KindOf(r, lines[k]) == Worded
    requires to < |lines| ==> KindOf(r, lines[to]) != Worded
    ensures BlocksFrom(r, lines, from) ==
              (if from == to then [] else [Paragraph(JoinLines(Trimmed(r, lines[from..to])))])
              + BlocksFrom(r, lines, to)
  {
    hide JoinLines, Trimmed;
    if from < to {
      UntilIs(r, InParagraph, lines, from + 1, to);
    }
  }

  method Flush(r: Rules, ghost lines: seq<string>, ghost from: nat, ghost to: nat, blocks: seq<Block>,
               paragraph: seq<string>) returns (flushed: seq<Block>)
    requires from <= to <= |lines| && paragraph == Trimmed(r, lines[from..to])
    requires forall k :: from <= k < to ==> KindOf(r, lines[k]) == Worded
    requires to < |lines| ==> KindOf(r, lines[to]) != Worded
    ensures flushed + BlocksFrom(r, lines, to) == blocks + BlocksFrom(r, lines, from)
  {
    hide BlocksFrom, BlockOf, EndOf, KindOf, JoinLines, Trimmed;
    flushed := blocks;
    Flushed(r, lines, from, to);
    if |paragraph| > 0 {
      var text := JoinAll(paragraph);
      flushed := flushed + [Paragraph(text)];
    }
  }

  /** One turn of the walk, for a line that is neither blank nor plain. */
  lemma BlocksGoOn(r: Rules, lines: seq<string>, i: nat)
    requires i < |lines|
    ensures KindOf(r, lines[i]) == Blank ==> BlocksFrom(r, lines, i) == BlocksFrom(r, lines, i + 1)
    ensures KindOf(r, lines[i]) != Blank ==>
              BlocksFrom(r, lines, i) ==
              [BlockOf(r, lines, Span(i, EndOf(r, lines, i)))] + BlocksFrom(r, lines, EndOf(r, lines, i))
    ensures KindOf(r, lines[i]) == Ruled ==>
              EndOf(r, lines, i) == i + 1 && BlockOf(r, lines, Span(i, i + 1)) == Rule
    ensures KindOf(r, lines[i]) == Headed ==>
              EndOf(r, lines, i) == i + 1 && r.heading(lines[i]).Some?
              && BlockOf(r, lines, Span(i, i + 1)) == Heading(r.heading(lines[i]).value)
  {
  }

  lemma NoBlocks(r: Rules, lines: seq<string>)
    ensures BlocksFrom(r, lines, |lines|) == []
  {
  }

  method ParseBlocks(r: Rules, source: string) returns (blocks: seq<Block>)
    ensures blocks == BlocksFrom(r, LinesOf(source), 0)
  {
    hide BlocksFrom, BlockOf, EndOf, KindOf, JoinLines, Trimmed, LinesOf;
    var lines := LinesOf(source);
    blocks := [];
    var paragraph: seq<string> := [];
    var index: nat := 0;
    ghost var from: nat := 0;
    while index < |lines|
      invariant from <= index <= |lines|
      invariant paragraph == Trimmed(r, lines[from..index])
      invariant forall k :: from <= k < index ==> KindOf(r, lines[k]) == Worded
      invariant BlocksFrom(r, lines, 0) == blocks + BlocksFrom(r, lines, from)
      decreases |lines| - index
    {
      var line := lines[index];
      var kind := KindOf(r, line);
      if kind == Worded {
        TrimmedMore(r, lines, from, index);
        paragraph := paragraph + [r.trim(line)];
        index := index + 1;
      } else {
        blocks := Flush(r, lines, from, index, blocks, paragraph);
        paragraph := [];
        BlocksGoOn(r, lines, index);
        if kind == Blank {
          index := index + 1;
        } else {
          var block;
          match kind {
            case Fence => block, index := ReadCode(r, lines, index);
            case Ruled => block, index := Rule, index + 1;
            case Headed => block, index := Heading(r.heading(line).value), index + 1;
            case Quoted => block, index := ReadQuote(r, lines, index);
            case Listed => block, index := ReadList(r, lines, index);
          }
          blocks := blocks + [block];
        }
        from := index;
      }
    }
    blocks := Flush(r, lines, from, index, blocks, paragraph);
    NoBlocks(r, lines);
  }

  // ----- what the blocks are ----------------------------------------------------------

  lemma {:induction false} OneBlockASpan(r: Rules, lines: seq<string>, i: nat)
    requires i <= |lines|
    ensures var spans, blocks := Spans(r, lines, i), BlocksFrom(r, lines, i);
            && |blocks| == |spans|
            && forall k :: 0 <= k < |spans| ==>
                 && i <= spans[k].start < spans[k].end <= |lines| && KindOf(r, lines[spans[k].start]) != Blank
                 && spans[k].end == EndOf(r, lines, spans[k].start)
                 && blocks[k] == BlockOf(r, lines, spans[k])
    decreases |lines| - i
  {
    hide BlockOf, EndOf, KindOf;
    if i < |lines| {
      OneBlockASpan(r, lines, if KindOf(r, lines[i]) == Blank then i + 1 else EndOf(r, lines, i));
    }
  }

  predicate Within(line: nat, s: Span) { s.start <= line < s.end }

  ghost predicate Covered(line: nat, spans: seq<Span>) { exists s :: s in spans && Within(line, s) }

  predicate InOrder(spans: seq<Span>) {
    forall j, k :: 0 <= j < k < |spans| ==> spans[j].end <= spans[k].start
  }

  lemma InOrderMore(s: Span, rest: seq<Span>)
    requires InOrder(rest) && forall t :: t in rest ==> s.end <= t.start
    ensures InOrder([s] + rest)
  {
    forall j, k | 0 <= j < k < |[s] + rest| ensures ([s] + rest)[j].end <= ([s] + rest)[k].start {
      assert rest[k - 1] in rest;
    }
  }

  lemma CoveredMore(line: nat, s: Span, rest: seq<Span>)
    ensures Covered(line, [s] + rest) <==> Within(line, s) || Covered(line, rest)
  {
    assert s in [s] + rest;
    if t :| t in rest && Within(line, t) { assert t in [s] + rest; }
  }

  /** In source order, without overlap; every line is in a block or blank. */
  lemma {:induction false} SpansPartition(r: Rules, lines: seq<string>, i: nat)
    requires i <= |lines|
    ensures InOrder(Spans(r, lines, i))
    ensures forall line: nat :: i <= line < |lines| ==>
              Covered(line, Spans(r, lines, i)) || KindOf(r, lines[line]) == Blank
    decreases |lines| - i
  {
    hide KindOf, EndOf, Covered;
    if i == |lines| {
    } else if KindOf(r, lines[i]) == Blank {
      SpansPartition(r, lines, i + 1);
    } else {
      var s := Span(i, EndOf(r, lines, i));
      var rest := Spans(r, lines, s.end);
      SpansPartition(r, lines, s.end);
      OneBlockASpan(r, lines, s.end);
      InOrderMore(s, rest);
      forall line: nat | i <= line < |lines| ensures Covered(line, [s] + rest) || KindOf(r, lines[line]) == Blank {
        CoveredMore(line, s, rest);
      }
    }
  }

  predicate GoodItems(items: seq<Item>) { items != [] && forall k :: 0 <= k < |items| ==> items[k].depth <= 1 }

  lemma {:induction false} ItemsAreGood(r: Rules, lines: seq<string>)
    requires lines != [] && r.item(lines[0]).Some?
    ensures GoodItems(ItemsOf(r, lines)) && |ItemsOf(r, lines)| <= |lines|
    decreases |lines|
  {
    var n := Until(r, InItem, lines, 1);
    if n < |lines| { ItemsAreGood(r, lines[n..]); }
    else { assert lines[n..] == []; }
  }

  /** Every block of a parse, and what its lines were. */
  lemma {:induction false} ListsAreGood(r: Rules, lines: seq<string>, k: nat)
    requires k < |BlocksFrom(r, lines, 0)|
    ensures k < |Spans(r, lines, 0)|
    ensures var block, s := BlocksFrom(r, lines, 0)[k], Spans(r, lines, 0)[k];
            block.List? ==> GoodItems(block.items) && |block.items| <= s.end - s.start
  {
    OneBlockASpan(r, lines, 0);
    var s := Spans(r, lines, 0)[k];
    if BlocksFrom(r, lines, 0)[k].List? {
      assert lines[s.start..s.end][0] == lines[s.start];
      ItemsAreGood(r, lines[s.start..s.end]);
    }
  }

  /** Spans in order, each ending where its block does, that leave out nothing from i on but blank lines. */
  ghost predicate IsPartition(r: Rules, lines: seq<string>, i: nat, spans: seq<Span>)
    requires i <= |lines|
  {
    && InOrder(spans)
    && (forall s :: s in spans ==>
          i <= s.start < |lines| && KindOf(r, lines[s.start]) != Blank && s.end == EndOf(r, lines, s.start))
    && (forall line: nat :: i <= line < |lines| ==> Covered(line, spans) || KindOf(r, lines[line]) == Blank)
  }

  lemma FirstCovers(r: Rules, lines: seq<string>, i: nat, spans: seq<Span>)
    requires i < |lines| && IsPartition(r, lines, i, spans) && KindOf(r, lines[i]) != Blank
    ensures spans != [] && spans[0] == Span(i, EndOf(r, lines, i))
  {
    hide KindOf, EndOf;
    assert Covered(i, spans);
    var k :| 0 <= k < |spans| && Within(i, spans[k]);
    assert spans[0] in spans && spans[k] in spans;
  }

  lemma RestPartitions(r: Rules, lines: seq<string>, i: nat, spans: seq<Span>)
    requires i < |lines| && IsPartition(r, lines, i, spans)
    requires spans != [] && spans[0] == Span(i, EndOf(r, lines, i))
    ensures IsPartition(r, lines, EndOf(r, lines, i), spans[1..])
  {
    hide KindOf, EndOf, Covered;
    var next, rest := EndOf(r, lines, i), spans[1..];
    assert spans == [spans[0]] + rest;
    forall s | s in rest ensures next <= s.start {
      var k :| 0 <= k < |rest| && rest[k] == s;
      assert spans[k + 1] == s;
    }
    assert InOrder(rest);
    forall line: nat | next <= line < |lines| ensures Covered(line, rest) || KindOf(r, lines[line]) == Blank {
      CoveredMore(line, spans[0], rest);
    }
  }

  lemma BlankPartitions(r: Rules, lines: seq<string>, i: nat, spans: seq<Span>)
    requires i < |lines| && IsPartition(r, lines, i, spans) && KindOf(r, lines[i]) == Blank
    ensures IsPartition(r, lines, i + 1, spans)
  {
    hide KindOf, EndOf, Covered, InOrder;
    forall s | s in spans ensures i + 1 <= s.start {}
  }

  lemma FirstIsInside(r: Rules, lines: seq<string>, i: nat, spans: seq<Span>)
    requires i <= |lines| && IsPartition(r, lines, i, spans) && spans != []
    ensures i <= spans[0].start < |lines|
  {
    hide KindOf, EndOf, Covered, InOrder;
    assert spans[0] in spans;
  }

  lemma {:induction false} PartitionIsSpans(r: Rules, lines: seq<string>, i: nat, spans: seq<Span>)
    requires i <= |lines| && IsPartition(r, lines, i, spans)
    ensures spans == Spans(r, lines, i)
    decreases |lines| - i
  {
    hide KindOf, EndOf, IsPartition, Covered, InOrder;
    if spans != [] { FirstIsInside(r, lines, i, spans); }
    if i == |lines| {
    } else if KindOf(r, lines[i]) == Blank {
      BlankPartitions(r, lines, i, spans);
      PartitionIsSpans(r, lines, i + 1, spans);
    } else {
      FirstCovers(r, lines, i, spans);
      RestPartitions(r, lines, i, spans);
      PartitionIsSpans(r, lines, EndOf(r, lines, i), spans[1..]);
      assert spans == [spans[0]] + spans[1..];
    }
  }

  /** There is one partition, and the parser's is it. */
  lemma {:induction false} SpansAreTheOnly(r: Rules, lines: seq<string>, spans: seq<Span>)
    ensures IsPartition(r, lines, 0, spans) <==> spans == Spans(r, lines, 0)
  {
    if spans == Spans(r, lines, 0) {
      hide KindOf, EndOf;
      SpansPartition(r, lines, 0);
      OneBlockASpan(r, lines, 0);
    } else if IsPartition(r, lines, 0, spans) {
      PartitionIsSpans(r, lines, 0, spans);
      assert false;
    }
  }

  /** Wrapping a paragraph elsewhere changes nothing but the glue at the cut. */
  lemma {:induction false} ParagraphsJoinAtTheCut(r: Rules, lines: seq<string>, from: nat, cut: nat, to: nat)
    requires from < cut < to <= |lines|
    requires forall k :: from <= k < to ==> KindOf(r, lines[k]) == Worded
    ensures JoinLines(Trimmed(r, lines[from..to])) ==
              JoinLines(Trimmed(r, lines[from..cut]))
              + Glue(r.trim(lines[cut - 1]), r.trim(lines[cut]))
              + JoinLines(Trimmed(r, lines[cut..to]))
  {
    hide JoinLines, EndsCJK, StartsCJK;
    var xs, ys := Trimmed(r, lines[from..cut]), Trimmed(r, lines[cut..to]);
    assert xs + ys == Trimmed(r, lines[from..to]);
    JoinSplits(xs, ys);
  }
}
