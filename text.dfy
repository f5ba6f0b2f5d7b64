/** The string operations the processor uses on branch names: lower(),
    find() of one character and split() on one character, with Python's
    semantics for the cases that occur (lower() is ASCII-only here). */
module Text {

  function LowerChar(c: char): (l: char)
    ensures c == '/' <==> l == '/'
  {
    if 'A' <= c <= 'Z' then (c as int + 32) as char else c
  }

  /** str.lower() */
  function Lower(s: string): (r: string)
    ensures |r| == |s|
    ensures forall i :: 0 <= i < |s| ==> (r[i] == '/' <==> s[i] == '/')
  {
    seq(|s|, i requires 0 <= i < |s| => LowerChar(s[i]))
  }

  /** str.find(c): the index of the first occurrence of `c`, or -1. */
  function Find(s: string, c: char): (i: int)
    ensures -1 <= i < |s|
    ensures i == -1 <==> c !in s
    ensures 0 <= i ==> s[i] == c && c !in s[..i]
  {
    if |s| == 0 then -1
    else if s[0] == c then 0
    else
      var j := Find(s[1..], c);
      if j < 0 then -1
      else
        assert s[..j + 1] == [s[0]] + s[1..][..j];
        j + 1
  }

  /** str.split(sep): the pieces between the occurrences of `sep`, empty
      pieces included, so that there is always at least one piece. */
  function Split(s: string, sep: char): (parts: seq<string>)
    ensures |parts| >= 1
    ensures Find(s, sep) >= 0 <==> |parts| >= 2
    decreases |s|
  {
    var i := Find(s, sep);
    if i < 0 then [s]
    else [s[..i]] + Split(s[i + 1..], sep)
  }

  /** No piece of split() contains the separator. */
  lemma {:induction false} SplitPiecesFree(s: string, sep: char)
    ensures forall k :: 0 <= k < |Split(s, sep)| ==> sep !in Split(s, sep)[k]
    decreases |s|
  {
    var i := Find(s, sep);
    if i >= 0 {
      SplitPiecesFree(s[i + 1..], sep);
    }
  }

  /** sep.join(parts) */
  function Join(parts: seq<string>, sep: char): string
  {
    if parts == [] then ""
    else if |parts| == 1 then parts[0]
    else parts[0] + [sep] + Join(parts[1..], sep)
  }

  /** Splitting loses nothing: joining the pieces gives the string back. */
  lemma {:induction false} JoinSplit(s: string, sep: char)
    ensures Join(Split(s, sep), sep) == s
    decreases |s|
  {
    var i := Find(s, sep);
    if i >= 0 {
      JoinSplit(s[i + 1..], sep);
      assert s == s[..i] + [sep] + s[i + 1..];
    }
  }

  /** The first piece is everything before the first separator, or the
      whole string when there is none. */
  lemma FirstPiece(s: string, sep: char)
    ensures var piece := Split(s, sep)[0];
            && |piece| <= |s|
            && piece == s[..|piece|]
            && sep !in piece
            && (|piece| == |s| || s[|piece|] == sep)
  {
  }

  /** Unfolds one step of split(): the piece before the first separator,
      then the pieces of what follows it. */
  lemma SplitAtFirst(s: string, sep: char)
    requires sep in s
    ensures Split(s, sep) == [s[..Find(s, sep)]] + Split(s[Find(s, sep) + 1..], sep)
  {
  }

  /** The second piece is the first piece of what follows the first separator. */
  lemma SecondIsFirstOfRest(s: string, sep: char)
    requires sep in s
    ensures Split(s, sep)[1] == Split(s[Find(s, sep) + 1..], sep)[0]
  {
    SplitAtFirst(s, sep);
  }

  /** The second piece of split() is the text after the first separator,
      up to the next separator or the end. */
  lemma SecondPiece(s: string, sep: char)
    requires sep in s
    ensures var rest := s[Find(s, sep) + 1..];
            var piece := Split(s, sep)[1];
            && |piece| <= |rest|
            && piece == rest[..|piece|]
            && sep !in piece
            && (|piece| == |rest| || rest[|piece|] == sep)
  {
    SecondIsFirstOfRest(s, sep);
    FirstPiece(s[Find(s, sep) + 1..], sep);
  }
}
