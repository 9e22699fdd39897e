/**
 * The token estimator: the cost of a line is the number of pieces that
 * splitting it at every ' ' yields (src/main.rs:82, 96-106).
 */
module Tokens {

  /** Number of occurrences of `c` in `s`. */
  function Occurrences(s: string, c: char): nat
  {
    if s == [] then 0 else (if s[0] == c then 1 else 0) + Occurrences(s[1..], c)
  }

  /** Estimated token cost of a line: one more than its number of spaces. */
  function TokenCount(line: string): nat
  {
    Occurrences(line, ' ') + 1
  }

  /** Reference definition of splitting at a separator (every occurrence, empty pieces kept). */
  function Split(s: string, sep: char): (pieces: seq<string>)
    ensures |pieces| >= 1
  {
    if s == [] then [""]
    else
      var rest := Split(s[1..], sep);
      if s[0] == sep then [""] + rest
      else [[s[0]] + rest[0]] + rest[1..]
  }

  /** Joins pieces with the separator between consecutive ones. */
  function Join(pieces: seq<string>, sep: char): string
  {
    if pieces == [] then ""
    else if |pieces| == 1 then pieces[0]
    else pieces[0] + [sep] + Join(pieces[1..], sep)
  }

  /** The estimate counts exactly the pieces of a split at ' '. */
  lemma {:induction false} SplitCount(s: string, sep: char)
    ensures |Split(s, sep)| == Occurrences(s, sep) + 1
  {
    if s != [] {
      SplitCount(s[1..], sep);
    }
  }

  lemma TokenCountIsSplitCount(line: string)
    ensures TokenCount(line) == |Split(line, ' ')|
  {
    SplitCount(line, ' ');
  }

  /** No piece of a split contains the separator. */
  lemma {:induction false} SplitPiecesFree(s: string, sep: char)
    ensures forall k :: 0 <= k < |Split(s, sep)| ==> sep !in Split(s, sep)[k]
  {
    if s != [] {
      SplitPiecesFree(s[1..], sep);
      var rest := Split(s[1..], sep);
      if s[0] != sep {
        assert sep !in [s[0]] + rest[0];
      }
    }
  }

  /** Splitting loses nothing: joining the pieces gives the line back. */
  lemma {:induction false} SplitJoin(s: string, sep: char)
    ensures Join(Split(s, sep), sep) == s
  {
    if s != [] {
      SplitJoin(s[1..], sep);
      var rest := Split(s[1..], sep);
      if s[0] == sep {
        assert ([""] + rest)[1..] == rest;
      } else if |rest| == 1 {
      } else {
        var head := [s[0]] + rest[0];
        var pieces := [head] + rest[1..];
        assert pieces[1..] == rest[1..];
        calc {
          Join(pieces, sep);
          head + [sep] + Join(rest[1..], sep);
          [s[0]] + (rest[0] + [sep] + Join(rest[1..], sep));
          [s[0]] + Join(rest, sep);
        }
      }
    }
  }

  lemma {:induction false} OccurrencesAppend(a: string, b: string, c: char)
    ensures Occurrences(a + b, c) == Occurrences(a, c) + Occurrences(b, c)
  {
    if a != [] {
      assert (a + b)[1..] == a[1..] + b;
      OccurrencesAppend(a[1..], b, c);
    } else {
      assert a + b == b;
    }
  }

  /** Concatenating two lines merges the last piece of one with the first of the other. */
  lemma TokenCountAppend(a: string, b: string)
    ensures TokenCount(a + b) == TokenCount(a) + TokenCount(b) - 1
  {
    OccurrencesAppend(a, b, ' ');
  }
}
