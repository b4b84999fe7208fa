/** String operations of the Go standard library, and what several modules share. */
module Text {
  datatype Option<+T> = None | Some(value: T)

  datatype Result<+T, +E> = Ok(value: T) | Err(error: E)

  predicate NoRepeats<T(==)>(s: seq<T>) { forall i, j :: 0 <= i < j < |s| ==> s[i] != s[j] }

  /** The next element of a collection that yields them in no particular order. */
  method Pick<T>(s: set<T>) returns (x: T)
    requires s != {}
    ensures x in s
  {
    x :| x in s;
  }

  /** strings.TrimPrefix */
  function TrimPrefix(s: string, prefix: string): string {
    if prefix <= s then s[|prefix|..] else s
  }

  /** strings.TrimSuffix */
  function TrimSuffix(s: string, suffix: string): string {
    if HasSuffix(s, suffix) then s[..|s| - |suffix|] else s
  }

  predicate HasSuffix(s: string, suffix: string) {
    |suffix| <= |s| && s[|s| - |suffix|..] == suffix
  }

  /** Lower case of an ASCII letter; every other character is left alone. */
  function Lower(c: char): char {
    if 'A' <= c <= 'Z' then ((c as int) + 32) as char else c
  }

  /** strings.EqualFold restricted to ASCII folding. */
  predicate EqualFold(s: string, t: string) {
    |s| == |t| && forall i :: 0 <= i < |s| ==> Lower(s[i]) == Lower(t[i])
  }

  /** unicode.IsSpace */
  predicate IsSpace(c: char) {
    '\t' <= c <= '\r' || c == ' ' || c == '\U{0085}' || c == '\U{00A0}' || c == '\U{1680}' ||
    '\U{2000}' <= c <= '\U{200A}' || c == '\U{2028}' || c == '\U{2029}' || c == '\U{202F}' ||
    c == '\U{205F}' || c == '\U{3000}'
  }

  predicate Blank(s: string) {
    forall c :: c in s ==> IsSpace(c)
  }

  /** strings.TrimSpace */
  function TrimSpace(s: string): string {
    if s == "" then ""
    else if IsSpace(s[0]) then TrimSpace(s[1..])
    else if IsSpace(s[|s| - 1]) then TrimSpace(s[..|s| - 1])
    else s
  }

  /** Surrounding space never reaches what is parsed, and nothing else is cut off. */
  lemma {:induction false} TrimSpacePadding(left: string, core: string, right: string)
    requires Blank(left) && Blank(right)
    requires core != "" && !IsSpace(core[0]) && !IsSpace(core[|core| - 1])
    ensures TrimSpace(left + core + right) == core
    decreases |left| + |right|
  {
    hide IsSpace;
    var s := left + core + right;
    if left != "" {
      assert s[1..] == left[1..] + core + right;
      assert left[0] in left;
      TrimSpacePadding(left[1..], core, right);
    } else if right != "" {
      assert s[..|s| - 1] == left + core + right[..|right| - 1];
      assert right[|right| - 1] in right;
      assert s[0] == core[0];
      assert s[|s| - 1] == right[|right| - 1];
      TrimSpacePadding(left, core, right[..|right| - 1]);
    } else {
      assert s == core;
    }
  }

  /** What TrimSpace returns sits in the original between two runs of space. */
  lemma {:induction false} TrimSpaceSplits(s: string) returns (left: string, right: string)
    ensures Blank(left) && Blank(right) && s == left + TrimSpace(s) + right
    ensures TrimSpace(s) != "" ==>
              !IsSpace(TrimSpace(s)[0]) && !IsSpace(TrimSpace(s)[|TrimSpace(s)| - 1])
    decreases |s|
  {
    hide IsSpace;
    if s == "" {
      left, right := "", "";
    } else if IsSpace(s[0]) {
      left, right := TrimSpaceSplits(s[1..]);
      left := [s[0]] + left;
    } else if IsSpace(s[|s| - 1]) {
      left, right := TrimSpaceSplits(s[..|s| - 1]);
      right := right + [s[|s| - 1]];
      assert s == s[..|s| - 1] + [s[|s| - 1]];
    } else {
      left, right := "", "";
      assert s == left + s + right;
    }
  }
}
