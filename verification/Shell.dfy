/** Quoting a path for /bin/sh: internal/update/apply.go, shellQuote. */
module Shell {
  import opened Text

  /** strings.ReplaceAll of every single quote by quote, backslash-quote, quote. */
  function EscapeQuotes(value: string): string {
    if value == "" then ""
    else (if value[0] == '\'' then "'\\''" else [value[0]]) + EscapeQuotes(value[1..])
  }

  function ShellQuote(value: string): string { "'" + (EscapeQuotes(value) + "'") }

  /** Where the shell is while it reads a simple command. */
  datatype Mode = Between | Word | Single | Double

  predicate IsBlank(c: char) { c == ' ' || c == '\t' }

  /** Characters that mean something else to the shell when they are not quoted. */
  predicate IsSpecial(c: char) {
    c == '|' || c == '&' || c == ';' || c == '<' || c == '>' || c == '(' || c == ')' || c == '$' ||
    c == '`' || c == '*' || c == '?' || c == '[' || c == '#' || c == '~' || c == '\n'
  }

  /** Inside double quotes a backslash only escapes these. */
  predicate EscapedInDouble(c: char) { c == '$' || c == '`' || c == '"' || c == '\\' }

  /**
   * The words of a simple command after quote removal, sections 2.2 and 2.6.7 of the Shell Command
   * Language in IEEE Std 1003.1-2017. Anything that would be expanded, redirected or run besides
   * is no simple command and gives nothing; neither does a quote left open or a NUL.
   */
  function Lex(s: string, mode: Mode, word: string, words: seq<string>): Option<seq<string>>
    decreases |s|
  {
    if s == "" then
      match mode
      case Between => Some(words)
      case Word => Some(words + [word])
      case _ => None
    else
      var c, rest := s[0], s[1..];
      if c == '\0' then None
      else match mode
        case Single => if c == '\'' then Lex(rest, Word, word, words) else Lex(rest, Single, word + [c], words)
        case Double =>
          if c == '"' then Lex(rest, Word, word, words)
          else if c == '$' || c == '`' then None
          else if c == '\\' && rest != "" && EscapedInDouble(rest[0]) then Lex(rest[1..], Double, word + [rest[0]], words)
          else if c == '\\' && rest != "" && rest[0] == '\n' then Lex(rest[1..], Double, word, words)
          else Lex(rest, Double, word + [c], words)
        case _ =>
          if c == '\'' then Lex(rest, Single, word, words)
          else if c == '"' then Lex(rest, Double, word, words)
          else if c == '\\' then
            if rest == "" || rest[0] == '\0' then None
            else if rest[0] == '\n' then Lex(rest[1..], mode, word, words)
            else Lex(rest[1..], Word, word + [rest[0]], words)
          else if IsBlank(c) then
            if mode == Word then Lex(rest, Between, "", words + [word]) else Lex(rest, Between, "", words)
          else if IsSpecial(c) then None
          else Lex(rest, Word, word + [c], words)
  }

  predicate NoNul(s: string) { forall i :: 0 <= i < |s| ==> s[i] != '\0' }

  lemma SingleStep(c: char, rest: string, word: string, words: seq<string>)
    requires c != '\0'
    ensures Lex([c] + rest, Single, word, words) ==
            if c == '\'' then Lex(rest, Word, word, words) else Lex(rest, Single, word + [c], words)
  {
    assert ([c] + rest)[1..] == rest;
  }

  /** Inside the quotes the escaped text reads back as the value, whatever comes after. */
  lemma {:induction false} EscapedReadsBack(value: string, rest: string, word: string, words: seq<string>)
    requires NoNul(value)
    ensures Lex(EscapeQuotes(value) + ("'" + rest), Single, word, words) == Lex(rest, Word, word + value, words)
    decreases |value|
  {
    hide Lex;
    var close := "'" + rest;
    if value == "" {
      assert EscapeQuotes(value) + close == close;
      SingleStep('\'', rest, word, words);
      assert word + value == word;
    } else {
      var c, tail := value[0], value[1..];
      EscapedReadsBack(tail, rest, word + [c], words);
      assert word + [c] + tail == word + value;
      var inner := EscapeQuotes(tail) + close;
      if c == '\'' {
        assert EscapeQuotes(value) + close == "'\\''" + inner;
        QuoteDance(inner, word, words);
      } else {
        assert EscapeQuotes(value) + close == [c] + inner;
        SingleStep(c, inner, word, words);
      }
    }
  }

  /** Closing the quotes, one escaped quote, and opening them again adds one quote to the word. */
  lemma QuoteDance(inner: string, word: string, words: seq<string>)
    ensures Lex("'\\''" + inner, Single, word, words) == Lex(inner, Single, word + "'", words)
  {
    var s := "'\\''" + inner;
    assert s[0] == '\'' && s[1..][0] == '\\' && s[1..][1..][0] == '\'' && s[1..][1..][1..][0] == '\'';
    assert s[1..][1..][1..][1..] == inner;
    var s1 := s[1..];
    var s3 := s1[1..][1..];
    assert Lex(s, Single, word, words) == Lex(s1, Word, word, words);
    assert Lex(s1, Word, word, words) == Lex(s3, Word, word + ['\''], words);
    assert Lex(s3, Word, word + ['\''], words) == Lex(inner, Single, word + ['\''], words);
  }

  /** A quoted value is exactly one word, the value itself, wherever it ends a command. */
  lemma QuoteRoundTrip(value: string, words: seq<string>)
    requires NoNul(value)
    ensures Lex(ShellQuote(value), Between, "", words) == Some(words + [value])
  {
    var s := ShellQuote(value);
    assert s[1..] == EscapeQuotes(value) + ("'" + "");
    EscapedReadsBack(value, "", "", words);
    assert "" + value == value;
  }

  predicate IsPlain(c: char) { 'a' <= c <= 'z' }

  lemma PlainStep(c: char, rest: string, mode: Mode, word: string, words: seq<string>)
    requires IsPlain(c) && (mode == Word || (mode == Between && word == ""))
    ensures Lex([c] + rest, mode, word, words) == Lex(rest, Word, word + [c], words)
  {
    assert ([c] + rest)[1..] == rest;
  }

  /** A program name of plain letters and a blank are one word, and reading goes on after them. */
  lemma {:induction false} PlainWord(name: string, rest: string, word: string)
    requires (name != "" || word != "") && forall i :: 0 <= i < |name| ==> IsPlain(name[i])
    ensures Lex(name + (" " + rest), if word == "" then Between else Word, word, []) ==
            Lex(rest, Between, "", [word + name])
  {
    var s := name + (" " + rest);
    if name == "" {
      assert s == " " + rest && s[1..] == rest;
      assert word + name == word && [] + [word] == [word];
    } else {
      var tail := name[1..] + (" " + rest);
      assert s == [name[0]] + tail;
      PlainStep(name[0], tail, if word == "" then Between else Word, word, []);
      PlainWord(name[1..], rest, word + [name[0]]);
      assert word + [name[0]] + name[1..] == word + name;
    }
  }

  /** The last command of the relaunch trampoline: one program name and one path. */
  lemma RelaunchWords(root: string)
    requires NoNul(root)
    ensures Lex("open" + (" " + ShellQuote(root)), Between, "", []) == Some(["open", root])
    ensures Lex("exec" + (" " + ShellQuote(root)), Between, "", []) == Some(["exec", root])
  {
    QuoteRoundTrip(root, ["open"]);
    QuoteRoundTrip(root, ["exec"]);
    CommandWords("open", ShellQuote(root), root);
    CommandWords("exec", ShellQuote(root), root);
  }

  lemma CommandWords(name: string, argument: string, root: string)
    requires Lex(argument, Between, "", [name]) == Some([name] + [root])
    requires name != "" && forall i :: 0 <= i < |name| ==> IsPlain(name[i])
    ensures Lex(name + (" " + argument), Between, "", []) == Some([name, root])
  {
    PlainWord(name, argument, "");
    assert "" + name == name;
    assert [name] + [root] == [name, root];
  }

  /** Different values are quoted differently. */
  lemma QuoteInjective(a: string, b: string)
    requires NoNul(a) && NoNul(b) && ShellQuote(a) == ShellQuote(b)
    ensures a == b
  {
    QuoteRoundTrip(a, []);
    QuoteRoundTrip(b, []);
    var none: seq<string> := [];
    assert (none + [a])[0] == a && (none + [b])[0] == b;
  }
}
