/** Where memory-embedding-chunks.ts may cut a text: the last boundary of the strongest class in a window. */
module ChunkBoundaries {
  import opened Utf16

  datatype Class = Sentence | Clause

  predicate EndsSentence(u: Unit) { u == 0x2e || u == 0x21 || u == 0x3f || u == 0x2026 }

  predicate ClosesQuote(u: Unit) { u == 0x22 || u == 0xbb || u == 0x29 }

  predicate IsDash(u: Unit) { u == 0x2014 || u == 0x2013 || u == 0x2d }

  /** The length of the match of a class that starts at `i`, its trailing whitespace included; 0 when none. */
  function MatchLength(c: Class, s: Text, i: nat): (n: nat)
    ensures n > 0 ==> 2 <= n <= 3 && i + n <= |s| && IsSpace(s[i + n - 1])
  {
    match c
    case Sentence =>
      if i + 2 < |s| && EndsSentence(s[i]) && ClosesQuote(s[i + 1]) && IsSpace(s[i + 2]) then 3
      else if i + 1 < |s| && EndsSentence(s[i]) && IsSpace(s[i + 1]) then 2
      else 0
    case Clause =>
      if i + 1 < |s| && (s[i] == 0x3b || s[i] == 0x3a) && IsSpace(s[i + 1]) then 2
      else if i + 2 < |s| && IsSpace(s[i]) && IsDash(s[i + 1]) && IsSpace(s[i + 2]) then 3
      else 0
  }

  predicate MatchIn(c: Class, s: Text, i: int, to: nat) {
    0 <= i && MatchLength(c, s, i) > 0 && i + MatchLength(c, s, i) <= to
  }

  /** The end of the last match of a left-to-right scan without overlaps, `last` when it finds none. */
  function LastMatch(c: Class, s: Text, i: nat, to: nat, last: int): (r: int)
    requires to <= |s|
    ensures r == last || i < r <= to
    decreases |s| - i
  {
    if i >= to then last
    else if MatchIn(c, s, i, to) then LastMatch(c, s, i + MatchLength(c, s, i), to, i + MatchLength(c, s, i))
    else LastMatch(c, s, i + 1, to, last)
  }

  /** The last cut in the window right after a whitespace, or -1. */
  function LastSpace(s: Text, from: nat, to: nat): (r: int)
    requires to <= |s|
    ensures r != -1 ==> from < r <= to && IsSpace(s[r - 1])
    ensures forall k :: from <= k < to && IsSpace(s[k]) ==> k < r
  {
    if to <= from then -1 else if IsSpace(s[to - 1]) then to else LastSpace(s, from, to - 1)
  }

  function LastBoundary(s: Text, from: nat, to: nat): int
    requires to <= |s|
  {
    var sentence := LastMatch(Sentence, s, from, to, -1);
    var clause := LastMatch(Clause, s, from, to, -1);
    if sentence != -1 then sentence else if clause != -1 then clause else LastSpace(s, from, to)
  }

  method FindLastMatch(c: Class, s: Text, from: nat, to: nat) returns (last: int)
    requires to <= |s|
    ensures last == LastMatch(c, s, from, to, -1)
  {
    last := -1;
    var i := from;
    while i < to
      invariant LastMatch(c, s, i, to, last) == LastMatch(c, s, from, to, -1)
    {
      var n := MatchLength(c, s, i);
      if n > 0 && i + n <= to {
        i := i + n;
        last := i;
      } else {
        i := i + 1;
      }
    }
  }

  method FindLastBoundary(s: Text, from: nat, to: nat) returns (r: int)
    requires to <= |s|
    ensures r == LastBoundary(s, from, to)
  {
    r := FindLastMatch(Sentence, s, from, to);
    if r != -1 {
      return;
    }
    r := FindLastMatch(Clause, s, from, to);
    if r != -1 {
      return;
    }
    var index := to;
    while index > from
      invariant 0 <= index <= to && LastSpace(s, from, index) == LastSpace(s, from, to)
    {
      if IsSpace(s[index - 1]) {
        return index;
      }
      index := index - 1;
    }
    r := -1;
  }

  /** What a scan found is the end of a match inside the window. */
  lemma {:induction false} LastMatchEnds(c: Class, s: Text, i: nat, to: nat, last: int) returns (start: nat)
    requires to <= |s| && LastMatch(c, s, i, to, last) != last
    ensures i <= start && MatchIn(c, s, start, to) && LastMatch(c, s, i, to, last) == start + MatchLength(c, s, start)
    decreases |s| - i
  {
    if MatchIn(c, s, i, to) {
      var next := i + MatchLength(c, s, i);
      if LastMatch(c, s, next, to, next) == next {
        start := i;
      } else {
        start := LastMatchEnds(c, s, next, to, next);
      }
    } else {
      start := LastMatchEnds(c, s, i + 1, to, last);
    }
  }

  lemma SentencesApart(s: Text, i: nat, k: nat)
    requires MatchLength(Sentence, s, i) > 0 && i < k < i + MatchLength(Sentence, s, i)
    ensures MatchLength(Sentence, s, k) == 0
  {
  }

  /** A match anywhere in the window makes the scan end past its start; a sentence end is never skipped over. */
  lemma {:induction false} LastMatchPast(c: Class, s: Text, i: nat, to: nat, last: int, k: nat)
    requires to <= |s| && i <= k && MatchIn(c, s, k, to)
    ensures LastMatch(c, s, i, to, last) > k
    ensures c == Sentence ==> LastMatch(c, s, i, to, last) >= k + MatchLength(c, s, k)
    decreases |s| - i
  {
    if MatchIn(c, s, i, to) {
      var next := i + MatchLength(c, s, i);
      if next <= k {
        LastMatchPast(c, s, next, to, next, k);
      } else if c == Sentence && i < k {
        SentencesApart(s, i, k);
      }
    } else {
      LastMatchPast(c, s, i + 1, to, last, k);
    }
  }

  /** A boundary lies inside its window right after a whitespace; without one the window has no whitespace. */
  lemma BoundaryAfterSpace(s: Text, from: nat, to: nat)
    requires to <= |s|
    ensures var r := LastBoundary(s, from, to);
            if r == -1 then forall k :: from <= k < to ==> !IsSpace(s[k])
            else from < r <= to && IsSpace(s[r - 1])
  {
    if LastMatch(Sentence, s, from, to, -1) != -1 {
      var k := LastMatchEnds(Sentence, s, from, to, -1);
    } else if LastMatch(Clause, s, from, to, -1) != -1 {
      var k := LastMatchEnds(Clause, s, from, to, -1);
    }
  }

  /** The strongest class wins: with a sentence end in the window the boundary is the last of them. */
  lemma LastSentenceWins(s: Text, from: nat, to: nat, k: nat)
    requires to <= |s| && from <= k && MatchIn(Sentence, s, k, to)
    ensures LastBoundary(s, from, to) >= k + MatchLength(Sentence, s, k)
    ensures exists j: nat :: from <= j && MatchIn(Sentence, s, j, to) && LastBoundary(s, from, to) == j + MatchLength(Sentence, s, j)
  {
    LastMatchPast(Sentence, s, from, to, -1, k);
    var j := LastMatchEnds(Sentence, s, from, to, -1);
  }

  ghost predicate HasMatch(c: Class, s: Text, from: nat, to: nat) { exists k: nat :: from <= k && MatchIn(c, s, k, to) }

  /** `r` is right after a match of the class that starts behind every other one; no sentence end is behind it. */
  ghost predicate LastEnd(c: Class, s: Text, from: nat, to: nat, r: int) {
    && (exists j: nat :: from <= j && MatchIn(c, s, j, to) && r == j + MatchLength(c, s, j))
    && (forall k: nat :: from <= k && MatchIn(c, s, k, to) ==> k < r && (c == Sentence ==> k + MatchLength(c, s, k) <= r))
  }

  /** Where a text is cut: after the last sentence end of the window, else clause end, else whitespace, else elsewhere. */
  ghost predicate CutAt(s: Text, from: nat, to: nat, elsewhere: int, r: int)
    requires to <= |s|
  {
    if HasMatch(Sentence, s, from, to) then LastEnd(Sentence, s, from, to, r)
    else if HasMatch(Clause, s, from, to) then LastEnd(Clause, s, from, to, r)
    else if exists k :: from <= k < to && IsSpace(s[k]) then
      from < r <= to && IsSpace(s[r - 1]) && forall k :: r <= k < to ==> !IsSpace(s[k])
    else r == elsewhere
  }

  lemma LastMatchIs(c: Class, s: Text, from: nat, to: nat)
    requires to <= |s|
    ensures HasMatch(c, s, from, to) <==> LastMatch(c, s, from, to, -1) != -1
    ensures HasMatch(c, s, from, to) ==> LastEnd(c, s, from, to, LastMatch(c, s, from, to, -1))
  {
    forall k: nat | from <= k && MatchIn(c, s, k, to)
      ensures LastMatch(c, s, from, to, -1) > k
      ensures c == Sentence ==> LastMatch(c, s, from, to, -1) >= k + MatchLength(c, s, k)
    {
      LastMatchPast(c, s, from, to, -1, k);
    }
    if LastMatch(c, s, from, to, -1) != -1 { var j := LastMatchEnds(c, s, from, to, -1); }
  }

  /** The boundary of a window is the cut of its strongest class. */
  lemma BoundaryCuts(s: Text, from: nat, to: nat)
    requires to <= |s|
    ensures CutAt(s, from, to, -1, LastBoundary(s, from, to))
  {
    LastMatchIs(Sentence, s, from, to);
    LastMatchIs(Clause, s, from, to);
  }

  /** The marks themselves: `. ! ? …` with one of `" » )` behind them or not, `; :`, and a dash between spaces. */
  lemma Marks(space: Unit, mark: Unit, close: Unit)
    requires IsSpace(space)
    ensures mark in {0x2e, 0x21, 0x3f, 0x2026} ==> MatchLength(Sentence, [mark, space], 0) == 2
    ensures mark in {0x2e, 0x21, 0x3f, 0x2026} && close in {0x22, 0xbb, 0x29} ==> MatchLength(Sentence, [mark, close, space], 0) == 3
    ensures mark in {0x3b, 0x3a} ==> MatchLength(Clause, [mark, space], 0) == 2
    ensures mark in {0x2014, 0x2013, 0x2d} ==> MatchLength(Clause, [space, mark, space], 0) == 3
  {
  }
}
