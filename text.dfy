/** String helpers from Rust's `str` that the core relies on: prefix test, `trim`, and `replace("\n", " ")`. */
module Text {

  /** `s.starts_with(p)`. */
  predicate StartsWith(s: string, p: string)
  {
    |p| <= |s| && s[..|p|] == p
  }

  /** Rust's `char::is_whitespace`: the characters with the Unicode White_Space property. */
  predicate IsWhitespace(c: char)
  {
    ('\t' <= c <= '\r') || c == ' ' || c == '\U{85}' || c == '\U{A0}' || c == '\U{1680}'
    || ('\U{2000}' <= c <= '\U{200A}') || c == '\U{2028}' || c == '\U{2029}'
    || c == '\U{202F}' || c == '\U{205F}' || c == '\U{3000}'
  }

  /**
   * The first index at or after `i` that holds no whitespace, or `|s|`: the forward search
   * `trim` uses for the start of what it keeps.
   */
  function FirstKept(s: string, i: nat): (j: nat)
    requires i <= |s|
    ensures i <= j <= |s|
    ensures forall k :: i <= k < j ==> IsWhitespace(s[k])
    ensures j == |s| || !IsWhitespace(s[j])
    decreases |s| - i
  {
    if i == |s| || !IsWhitespace(s[i]) then i else FirstKept(s, i + 1)
  }

  /**
   * The backward search for the end of what `trim` keeps: from `j` down to `lo`, the smallest
   * end whose suffix up to `j` is all whitespace.
   */
  function LastKeptEnd(s: string, lo: nat, j: nat): (e: nat)
    requires lo <= j <= |s|
    ensures lo <= e <= j
    ensures forall k :: e <= k < j ==> IsWhitespace(s[k])
    ensures e == lo || !IsWhitespace(s[e - 1])
    decreases j
  {
    if j == lo || !IsWhitespace(s[j - 1]) then j else LastKeptEnd(s, lo, j - 1)
  }

  /** `trim`: the slice of `s` from its first to its last non-whitespace character. */
  function Trim(s: string): string
  {
    var i := FirstKept(s, 0);
    s[i..LastKeptEnd(s, i, |s|)]
  }

  /**
   * `trim` drops only whitespace on either side of what it keeps, a slice of `s` that neither
   * starts nor ends with whitespace.
   */
  lemma TrimShape(s: string)
    ensures var r := Trim(s);
      var i := FirstKept(s, 0);
      && i + |r| <= |s|
      && r == s[i..i + |r|]
      && (forall k :: 0 <= k < i ==> IsWhitespace(s[k]))
      && (forall k :: i + |r| <= k < |s| ==> IsWhitespace(s[k]))
      && (r == [] || (!IsWhitespace(r[0]) && !IsWhitespace(r[|r| - 1])))
  {
  }

  /** `trim` adds no character: one that `s` lacks, its trim lacks too. */
  lemma TrimWithin(s: string, c: char)
    requires c !in s
    ensures c !in Trim(s)
  {
    TrimShape(s);
    var r, i := Trim(s), FirstKept(s, 0);
    forall k | 0 <= k < |r|
      ensures r[k] != c
    {
      assert r[k] == s[i + k];
    }
  }

  /** A string that neither starts nor ends with whitespace is its own trim. */
  lemma TrimKeeps(line: string)
    requires line == [] || (!IsWhitespace(line[0]) && !IsWhitespace(line[|line| - 1]))
    ensures Trim(line) == line
  {
    assert line[0..|line|] == line;
  }

  /** Trimming a trimmed string changes nothing. */
  lemma TrimIdempotent(s: string)
    ensures Trim(Trim(s)) == Trim(s)
  {
    TrimShape(s);
    TrimKeeps(Trim(s));
  }

  /** `replace("\n", " ")`. */
  function ReplaceNewlines(s: string): string
  {
    if s == [] then [] else [if s[0] == '\n' then ' ' else s[0]] + ReplaceNewlines(s[1..])
  }

  /** Every newline becomes a space and every other character stays, so no newline is left. */
  lemma {:induction false} NewlinesReplaced(s: string)
    ensures var r := ReplaceNewlines(s);
      && |r| == |s|
      && (forall k :: 0 <= k < |s| ==> r[k] == (if s[k] == '\n' then ' ' else s[k]))
      && '\n' !in r
  {
    if s != [] {
      var rest := s[1..];
      NewlinesReplaced(rest);
      var r := ReplaceNewlines(s);
      forall k | 1 <= k < |s|
        ensures r[k] == (if s[k] == '\n' then ' ' else s[k])
      {
        assert r[k] == ReplaceNewlines(rest)[k - 1] && s[k] == rest[k - 1];
      }
    }
  }
}
