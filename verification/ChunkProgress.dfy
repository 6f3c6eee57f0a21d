/** How fast a split paragraph moves on, and that it loses nothing. */
module ChunkProgress {
  import opened Utf16
  import opened ChunkBoundaries
  import opened LongParagraph

  predicate Follows(a: Span, b: Span) { a.start < b.start <= a.end < b.end }

  predicate SpanOk(s: Text, span: Span, cap: nat) {
    span.start < span.end && span.end - span.start <= cap && Whole(s, span)
  }

  /** Contiguous or overlapping, moving on at both ends, on whole characters, within the cap. */
  predicate Advancing(s: Text, spans: seq<Span>, cap: nat) {
    spans == [] ||
    (SpanOk(s, spans[0], cap) && (|spans| > 1 ==> Follows(spans[0], spans[1])) && Advancing(s, spans[1..], cap))
  }

  lemma {:induction false} AdvancingAt(s: Text, spans: seq<Span>, cap: nat, i: nat)
    requires Advancing(s, spans, cap) && i < |spans|
    ensures SpanOk(s, spans[i], cap) && (i + 1 < |spans| ==> Follows(spans[i], spans[i + 1]))
  {
    if i > 0 {
      AdvancingAt(s, spans[1..], cap, i - 1);
    }
  }

  /** The two ends both move on: the overlap is never more than a minimal span. */
  lemma EndsMoveOn(s: Text, p: Span, start: nat, cap: nat)
    requires cap >= 2 && Whole(s, p) && p.start <= start < p.end && !InsidePair(s, start)
    requires SpanEnd(s, p.end, start, cap) < p.end
    ensures var end := SpanEnd(s, p.end, start, cap);
            end > start && var next := NextStart(s, start, end, cap);
            start < next <= end && !InsidePair(s, next) && SpanEnd(s, p.end, next, cap) > end
  {
    EndFacts(s, p, start, cap);
    var end := SpanEnd(s, p.end, start, cap);
    NextFacts(s, start, end, cap);
    EndFacts(s, p, NextStart(s, start, end, cap), cap);
  }

  /** One step of the split, in terms of where it ends and where the next one starts. */
  lemma SplitStep(s: Text, p: Span, cap: nat, start: nat) returns (end: nat, next: nat)
    requires cap >= 2 && Whole(s, p) && p.start <= start < p.end && !InsidePair(s, start)
    ensures SpanOk(s, Span(start, end), cap) && end <= p.end
    ensures end == p.end ==> SplitFrom(s, p, cap, start) == [Span(start, end)]
    ensures end < p.end ==>
              && start < next <= end && !InsidePair(s, next)
              && SplitFrom(s, p, cap, start) == [Span(start, end)] + SplitFrom(s, p, cap, next)
              && SplitFrom(s, p, cap, next) != [] && Follows(Span(start, end), SplitFrom(s, p, cap, next)[0])
  {
    EndFacts(s, p, start, cap);
    end, next := SpanEnd(s, p.end, start, cap), 0;
    if end < p.end {
      EndsMoveOn(s, p, start, cap);
      next := NextStart(s, start, end, cap);
      assert SplitFrom(s, p, cap, next)[0] == Span(next, SpanEnd(s, p.end, next, cap));
    }
  }

  /** The spans run from the start position to the end of the paragraph without a gap. */
  lemma {:induction false} SplitAdvances(s: Text, p: Span, cap: nat, start: nat)
    requires cap >= 2 && Whole(s, p) && p.start <= start < p.end && !InsidePair(s, start)
    ensures var spans := SplitFrom(s, p, cap, start);
            spans != [] && spans[0].start == start && spans[|spans| - 1].end == p.end && Advancing(s, spans, cap)
    decreases p.end - start
  {
    var end, next := SplitStep(s, p, cap, start);
    if end < p.end {
      SplitAdvances(s, p, cap, next);
      assert SplitFrom(s, p, cap, start)[1..] == SplitFrom(s, p, cap, next);
    }
  }

  /** Each two neighbours share text, at most twice the overlap of it. */
  predicate Overlapping(spans: seq<Span>, most: nat) {
    |spans| < 2 || (0 < spans[0].end - spans[1].start <= most && Overlapping(spans[1..], most))
  }

  /** A thought that crosses a cut is whole in one of two spans: neighbours of a split paragraph always overlap. */
  lemma {:induction false} SplitOverlaps(s: Text, p: Span, cap: nat, start: nat)
    requires cap >= 8 && Whole(s, p) && p.start <= start < p.end && !InsidePair(s, start)
    ensures Overlapping(SplitFrom(s, p, cap, start), 2 * Min(120, cap / 4))
    decreases p.end - start
  {
    EndFacts(s, p, start, cap);
    var end := SpanEnd(s, p.end, start, cap);
    if end < p.end {
      var next := OverlapStep(s, p, cap, start, end);
      SplitOverlaps(s, p, cap, next);
      SplitAdvances(s, p, cap, next);
      assert SplitFrom(s, p, cap, start)[1..] == SplitFrom(s, p, cap, next);
    }
  }

  lemma OverlapStep(s: Text, p: Span, cap: nat, start: nat, end: nat) returns (next: nat)
    requires cap >= 8 && Whole(s, p) && p.start <= start < p.end && !InsidePair(s, start)
    requires end == SpanEnd(s, p.end, start, cap) < p.end && start < end
    ensures start < next < end <= next + 2 * Min(120, cap / 4) && !InsidePair(s, next)
    ensures SplitFrom(s, p, cap, start) == [Span(start, end)] + SplitFrom(s, p, cap, next)
  {
    EndFacts(s, p, start, cap);
    NextFacts(s, start, end, cap);
    NextOverlaps(s, start, end, cap);
    next := NextStart(s, start, end, cap);
  }

  predicate Holds(span: Span, k: int) { span.start <= k < span.end }

  /** Every position of the paragraph lies in a span. */
  lemma {:induction false} SplitCovers(s: Text, p: Span, cap: nat, start: nat, k: nat)
    requires cap >= 2 && Whole(s, p) && p.start <= start <= k < p.end && !InsidePair(s, start)
    ensures exists span :: span in SplitFrom(s, p, cap, start) && Holds(span, k)
    decreases p.end - start
  {
    var end, next := SplitStep(s, p, cap, start);
    if k < end {
      assert Span(start, end) in SplitFrom(s, p, cap, start) && Holds(Span(start, end), k);
    } else {
      SplitCovers(s, p, cap, next, k);
    }
  }

  const STORED_CAP := 1_000
  const NARROW_CAP := 400
  const STORED_STEP := 261
  const CONTENT_MAX := 4_000

  /** With the cap of stored records every step moves the start on by at least 261 units. */
  lemma StoredStep(s: Text, p: Span, start: nat)
    requires Whole(s, p) && p.start <= start < p.end && !InsidePair(s, start)
    requires SpanEnd(s, p.end, start, STORED_CAP) < p.end
    ensures var end := SpanEnd(s, p.end, start, STORED_CAP);
            start < end && NextStart(s, start, end, STORED_CAP) >= start + STORED_STEP
  {
    EndFacts(s, p, start, STORED_CAP);
    NextFacts(s, start, SpanEnd(s, p.end, start, STORED_CAP), STORED_CAP);
  }

  /** So a paragraph of `cap + 261 k` units gives at most `k + 1` spans. */
  lemma {:induction false} StoredSpanCount(s: Text, p: Span, start: nat, k: nat)
    requires Whole(s, p) && p.start <= start < p.end && !InsidePair(s, start)
    requires p.end - start <= STORED_CAP + STORED_STEP * k
    ensures |SplitFrom(s, p, STORED_CAP, start)| <= k + 1
    decreases p.end - start
  {
    EndFacts(s, p, start, STORED_CAP);
    var end := SpanEnd(s, p.end, start, STORED_CAP);
    if end < p.end {
      StoredStep(s, p, start);
      NextFacts(s, start, end, STORED_CAP);
      StoredSpanCount(s, p, NextStart(s, start, end, STORED_CAP), k - 1);
    }
  }

  /** The longest record allowed gives at most thirteen spans. */
  lemma AtMostThirteenSpans(s: Text, p: Span)
    requires Whole(s, p) && p.start < p.end <= p.start + CONTENT_MAX
    ensures |SplitFrom(s, p, STORED_CAP, p.start)| <= 13
  {
    StoredSpanCount(s, p, p.start, 12);
  }

  /** A word start before the overlap is right after a whitespace. */
  lemma EarlyWordStart(s: Text, start: nat, end: nat, cap: nat)
    requires start < end <= |s| && WordStart(s, start, end, cap) < OverlapFrom(start, end, cap)
    ensures IsSpace(s[WordStart(s, start, end, cap) - 1])
  {
  }

  /**
   * With the narrow cap one step may be short, but the step after it is not: any two steps together move
   * the start on by more than a hundred units. A word start the second step went back to is one the first
   * step would have gone back to already.
   */
  lemma TwoNarrowSteps(s: Text, p: Span, s0: nat, e0: nat, s1: nat, e1: nat, s2: nat)
    requires Whole(s, p) && p.start <= s0 < p.end && !InsidePair(s, s0)
    requires e0 == SpanEnd(s, p.end, s0, NARROW_CAP) < p.end && s0 < e0 && s1 == NextStart(s, s0, e0, NARROW_CAP)
    requires s1 < p.end && e1 == SpanEnd(s, p.end, s1, NARROW_CAP) < p.end && s1 < e1
    requires s2 == NextStart(s, s1, e1, NARROW_CAP)
    ensures s2 > s0 + 100
  {
    EndFacts(s, p, s0, NARROW_CAP);
    NextFacts(s, s0, e0, NARROW_CAP);
    EndFacts(s, p, s1, NARROW_CAP);
    NextFacts(s, s1, e1, NARROW_CAP);
    var w1 := WordStart(s, s1, e1, NARROW_CAP);
    if w1 < OverlapFrom(s1, e1, NARROW_CAP) {
      EarlyWordStart(s, s1, e1, NARROW_CAP);
    }
  }

  /** So with the narrow cap a paragraph of `cap + 101 k` units gives at most `2 k + 1` spans. */
  lemma {:induction false} NarrowSpanCount(s: Text, p: Span, start: nat, k: nat)
    requires Whole(s, p) && p.start <= start < p.end && !InsidePair(s, start)
    requires p.end - start <= NARROW_CAP + 101 * k
    ensures |SplitFrom(s, p, NARROW_CAP, start)| <= 2 * k + 1
    decreases p.end - start
  {
    EndFacts(s, p, start, NARROW_CAP);
    var e0 := SpanEnd(s, p.end, start, NARROW_CAP);
    if e0 < p.end {
      EndsMoveOn(s, p, start, NARROW_CAP);
      var s1 := NextStart(s, start, e0, NARROW_CAP);
      var e1 := SpanEnd(s, p.end, s1, NARROW_CAP);
      EndFacts(s, p, s1, NARROW_CAP);
      if e1 < p.end {
        NextFacts(s, s1, e1, NARROW_CAP);
        var s2 := NextStart(s, s1, e1, NARROW_CAP);
        TwoNarrowSteps(s, p, start, e0, s1, e1, s2);
        NarrowSpanCount(s, p, s2, k - 1);
      }
    }
  }

  /**
   * Two units is the least cap that loses nothing: with a cap of one, a span at a surrogate pair is empty
   * and the next one starts after the pair.
   */
  lemma CapOneLosesPair()
    ensures var s: Text := [0x61, 0xd83d, 0xde00, 0x61];
            SpanEnd(s, 4, 1, 1) == 1 && NextStart(s, 1, 1, 1) == 3
  {
    var s: Text := [0x61, 0xd83d, 0xde00, 0x61];
    assert LastBoundary(s, 1, 2) == -1;
    assert WordStart(s, 1, 1, 1) == 2;
    assert LastBoundary(s, 2, 0) == -1;
  }
}
