/** Splitting a paragraph longer than the cap (`splitLongParagraph` of memory-embedding-chunks.ts). */
module LongParagraph {
  import opened Utf16
  import opened ChunkBoundaries

  datatype Span = Span(start: nat, end: nat)

  const MIN_BOUNDARY_CHARACTERS := 500
  const OVERLAP_CHARACTERS := 120

  function Min(a: int, b: int): int { if a < b then a else b }

  function Max(a: int, b: int): int { if a < b then b else a }

  function MinBoundary(cap: nat): nat { Min(MIN_BOUNDARY_CHARACTERS, cap / 2) }

  function Overlap(cap: nat): nat { Min(OVERLAP_CHARACTERS, cap / 4) }

  function WholeEnd(s: Text, end: nat): nat { if InsidePair(s, end) then end - 1 else end }

  function WholeStart(s: Text, start: nat): nat { if InsidePair(s, start) then start + 1 else start }

  /** The end of the span that starts at `start`. */
  function SpanEnd(s: Text, paragraphEnd: nat, start: nat, cap: nat): nat
    requires start < paragraphEnd <= |s|
  {
    var hardEnd := Min(start + cap, paragraphEnd);
    var boundary := if hardEnd < paragraphEnd then LastBoundary(s, start + MinBoundary(cap), hardEnd) else -1;
    WholeEnd(s, if boundary == -1 then hardEnd else boundary)
  }

  /** Back from `w` to the nearest position right after a whitespace, but not past `floor`. */
  function WalkBack(s: Text, w: nat, floor: nat): (r: nat)
    requires 1 <= floor <= w <= |s|
    ensures floor <= r <= w && (forall k :: r <= k < w ==> !IsSpace(s[k]))
    ensures r > floor ==> IsSpace(s[r - 1])
  {
    if w > floor && !IsSpace(s[w - 1]) then WalkBack(s, w - 1, floor) else w
  }

  function OverlapFrom(start: nat, end: nat, cap: nat): nat { Max(start + 1, end - Overlap(cap)) }

  function WordFloor(start: nat, end: nat, cap: nat): nat { Max(start + 1, end - 2 * Overlap(cap)) }

  function WordStart(s: Text, start: nat, end: nat, cap: nat): (w: nat)
    requires start <= end <= |s| && start < |s|
    ensures WordFloor(start, end, cap) <= w <= OverlapFrom(start, end, cap) <= Max(start + 1, end)
  {
    var from, floor := OverlapFrom(start, end, cap), WordFloor(start, end, cap);
    var w := WalkBack(s, from, floor);
    if w == floor && !IsSpace(s[w - 1]) then from else w
  }

  function NextStart(s: Text, start: nat, end: nat, cap: nat): nat
    requires start <= end <= |s| && start < |s| && end > 0
  {
    var w := WordStart(s, start, end, cap);
    var boundary := LastBoundary(s, w, end - 1);
    WholeStart(s, if boundary == -1 then w else boundary)
  }

  /** A paragraph, or a position in it, cuts no character in half. */
  predicate Whole(s: Text, p: Span) {
    p.start <= p.end <= |s| && !InsidePair(s, p.start) && !InsidePair(s, p.end)
  }

  /** The span has text, fits the cap, ends on a whole character and past the minimum unless the paragraph is over. */
  lemma EndFacts(s: Text, p: Span, start: nat, cap: nat)
    requires cap >= 2 && Whole(s, p) && p.start <= start < p.end && !InsidePair(s, start)
    ensures var end := SpanEnd(s, p.end, start, cap);
            && start < end <= p.end && end - start <= cap && !InsidePair(s, end)
            && (end < p.end ==> end >= start + MinBoundary(cap) + One(cap > 2) && start + cap < p.end)
            && (end < p.end && end < start + cap - 1 ==> IsSpace(s[end - 1]))
  {
    var hardEnd := Min(start + cap, p.end);
    if hardEnd < p.end {
      BoundaryAfterSpace(s, start + MinBoundary(cap), hardEnd);
    }
  }

  function One(b: bool): nat { if b then 1 else 0 }

  /** The next span starts after this one and no later than its end, on a whole character. */
  lemma NextFacts(s: Text, start: nat, end: nat, cap: nat)
    requires start < end <= |s| && !InsidePair(s, end)
    ensures var next := NextStart(s, start, end, cap);
            start < next <= end && next >= WordStart(s, start, end, cap) && next >= end - 2 * Overlap(cap) &&
            !InsidePair(s, next)
  {
    var w := WordStart(s, start, end, cap);
    if w <= end - 1 {
      BoundaryAfterSpace(s, w, end - 1);
    }
  }

  /** A span that is not the last ends at the strongest cut past half of the cap, or where the cap ends it. */
  lemma EndIsCut(s: Text, p: Span, start: nat, cap: nat)
    requires cap >= 2 && Whole(s, p) && p.start <= start < p.end && !InsidePair(s, start)
    ensures start + cap >= p.end ==> SpanEnd(s, p.end, start, cap) == p.end
    ensures start + cap < p.end ==>
              CutAt(s, start + Min(500, cap / 2), start + cap, WholeEnd(s, start + cap), SpanEnd(s, p.end, start, cap))
  {
    if start + cap < p.end {
      BoundaryCuts(s, start + MinBoundary(cap), start + cap);
      BoundaryAfterSpace(s, start + MinBoundary(cap), start + cap);
    }
  }

  /** Words are looked for in twice the overlap: right after the last whitespace before it, else the overlap itself. */
  lemma WordStartIs(s: Text, start: nat, end: nat, cap: nat)
    requires start < end <= |s|
    ensures var overlap := Min(120, cap / 4);
            var from, floor := Max(start + 1, end - overlap), Max(start + 1, end - 2 * overlap);
            var w := WordStart(s, start, end, cap);
            if exists k :: floor - 1 <= k < from && IsSpace(s[k])
            then floor <= w <= from && IsSpace(s[w - 1]) && forall k :: w <= k < from ==> !IsSpace(s[k])
            else w == from
  {
  }

  /** The next span starts at the strongest cut between that word start and the end of this one, or at the word start. */
  lemma NextIsCut(s: Text, start: nat, end: nat, cap: nat)
    requires start < end <= |s| && !InsidePair(s, end)
    ensures var w := WordStart(s, start, end, cap); CutAt(s, w, end - 1, WholeStart(s, w), NextStart(s, start, end, cap))
  {
    var w := WordStart(s, start, end, cap);
    BoundaryCuts(s, w, end - 1);
    BoundaryAfterSpace(s, w, end - 1);
  }

  /** Text without whitespace is overlapped by a fixed number of units, give or take half a character. */
  lemma NextWithoutSpace(s: Text, start: nat, end: nat, cap: nat)
    requires start < end <= |s| && !InsidePair(s, end)
    requires forall k :: Max(start, end - 2 * Min(120, cap / 4) - 1) <= k < end - 1 ==> !IsSpace(s[k])
    ensures NextStart(s, start, end, cap) == WholeStart(s, Max(start + 1, end - Min(120, cap / 4)))
  {
    WordStartIs(s, start, end, cap);
    var w := WordStart(s, start, end, cap);
    BoundaryAfterSpace(s, w, end - 1);
  }

  /** The next span starts before this one ends, whenever this one is longer than the overlap. */
  lemma NextOverlaps(s: Text, start: nat, end: nat, cap: nat)
    requires cap >= 8 && start + Min(120, cap / 4) < end <= |s| && !InsidePair(s, end)
    ensures NextStart(s, start, end, cap) < end
  {
    NextIsCut(s, start, end, cap);
    BoundaryAfterSpace(s, WordStart(s, start, end, cap), end - 1);
  }

  /** The spans from `start` on. */
  function SplitFrom(s: Text, p: Span, cap: nat, start: nat): seq<Span>
    requires cap >= 2 && Whole(s, p) && p.start <= start < p.end && !InsidePair(s, start)
    decreases p.end - start
  {
    EndFacts(s, p, start, cap);
    var end := SpanEnd(s, p.end, start, cap);
    if end >= p.end then [Span(start, end)]
    else
      NextFacts(s, start, end, cap);
      [Span(start, end)] + SplitFrom(s, p, cap, NextStart(s, start, end, cap))
  }

  method FindSpanEnd(s: Text, paragraphEnd: nat, start: nat, cap: nat, minBoundary: nat) returns (end: nat)
    requires start < paragraphEnd <= |s| && minBoundary == MinBoundary(cap)
    ensures end == SpanEnd(s, paragraphEnd, start, cap)
  {
    var hardEnd := Min(start + cap, paragraphEnd);
    end := hardEnd;
    if hardEnd < paragraphEnd {
      var boundary := FindLastBoundary(s, start + minBoundary, hardEnd);
      end := if boundary == -1 then hardEnd else boundary;
    }
    end := WholeEnd(s, end);
  }

  method FindWordStart(s: Text, start: nat, end: nat, overlap: nat, ghost cap: nat) returns (wordStart: nat)
    requires start < end <= |s| && overlap == Overlap(cap)
    ensures wordStart == WordStart(s, start, end, cap)
  {
    var overlapFrom := Max(start + 1, end - overlap);
    var wordSearchFloor := Max(start + 1, end - 2 * overlap);
    wordStart := overlapFrom;
    while wordStart > wordSearchFloor && !IsSpace(s[wordStart - 1])
      invariant wordSearchFloor <= wordStart <= overlapFrom
      invariant WalkBack(s, wordStart, wordSearchFloor) == WalkBack(s, overlapFrom, wordSearchFloor)
    {
      wordStart := wordStart - 1;
    }
    if wordStart == wordSearchFloor && !IsSpace(s[wordStart - 1]) {
      wordStart := overlapFrom;
    }
  }

  method FindNextStart(s: Text, start: nat, end: nat, overlap: nat, ghost cap: nat) returns (next: nat)
    requires start < end <= |s| && overlap == Overlap(cap)
    ensures next == NextStart(s, start, end, cap)
  {
    var wordStart := FindWordStart(s, start, end, overlap, cap);
    var boundary := FindLastBoundary(s, wordStart, end - 1);
    next := WholeStart(s, if boundary == -1 then wordStart else boundary);
  }

  method SplitLongParagraph(s: Text, p: Span, cap: nat) returns (spans: seq<Span>)
    requires cap >= 2 && Whole(s, p) && p.start < p.end
    ensures spans == SplitFrom(s, p, cap, p.start)
  {
    var minBoundary := Min(MIN_BOUNDARY_CHARACTERS, cap / 2);
    var overlap := Min(OVERLAP_CHARACTERS, cap / 4);
    spans := [];
    var start := p.start;
    while start < p.end
      invariant p.start <= start < p.end && !InsidePair(s, start)
      invariant SplitFrom(s, p, cap, p.start) == spans + SplitFrom(s, p, cap, start)
      decreases p.end - start
    {
      EndFacts(s, p, start, cap);
      var end := FindSpanEnd(s, p.end, start, cap, minBoundary);
      spans := spans + [Span(start, end)];
      if end >= p.end {
        return;
      }
      NextFacts(s, start, end, cap);
      start := FindNextStart(s, start, end, overlap, cap);
    }
  }
}
