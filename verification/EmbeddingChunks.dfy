/** Chunking of memory text for embedding (memory-embedding-chunks.ts): nothing is lost, nothing is cut in half. */
module EmbeddingChunks {
  import opened Utf16
  import opened LongParagraph
  import opened ChunkProgress
  import opened Wrappers

  datatype Chunk = Chunk(chunkIndex: nat, content: Text, startOffset: nat, endOffset: nat)

  /** The source throws for text it cannot chunk. */
  datatype Chunked = InputInvalid | Chunks(chunks: seq<Chunk>)

  const MIN_PARAGRAPH_CHARACTERS := 120

  predicate IsParagraph(s: Text, p: Span) {
    && p.start < p.end <= |s| && LF !in s[p.start..p.end]
    && (p.start > 0 ==> s[p.start - 1] == LF) && (p.end < |s| ==> s[p.end] == LF)
  }

  ghost predicate InSome(spans: seq<Span>, k: int) { exists span :: span in spans && Holds(span, k) }

  lemma InSomeAppend(a: seq<Span>, b: seq<Span>, k: int)
    ensures InSome(a + b, k) <==> InSome(a, k) || InSome(b, k)
  {
    forall span | span in a && Holds(span, k)
      ensures span in a + b
    {
    }
  }

  /** The runs between line breaks, in order. */
  ghost predicate ParagraphsUpTo(s: Text, ps: seq<Span>, to: nat) {
    && (forall p :: p in ps ==> IsParagraph(s, p))
    && (forall i :: 0 <= i < |ps| ==> ps[i].end <= to)
    && (forall i, j :: 0 <= i < j < |ps| ==> ps[i].end < ps[j].start)
    && (forall k :: 0 <= k < to && k < |s| && s[k] != LF ==> InSome(ps, k))
  }

  method Paragraphs(s: Text) returns (ps: seq<Span>)
    ensures ParagraphsUpTo(s, ps, |s|)
  {
    ps := [];
    var start := 0;
    while start < |s|
      invariant start <= |s| && ParagraphsUpTo(s, ps, start)
      invariant start > 0 ==> s[start - 1] == LF
      invariant forall i :: 0 <= i < |ps| ==> ps[i].end < start
      decreases |s| - start
    {
      var breakAt := IndexOf(s, [LF], start);
      var end := if breakAt == -1 then |s| else breakAt;
      NoBreakBefore(s, start, end);
      assert end < |s| ==> s[end..end + 1] == [LF];
      assert end < |s| ==> s[end] == s[end..end + 1][0];
      ghost var before := ps;
      if end > start {
        ps := ps + [Span(start, end)];
      }
      PushParagraph(s, before, start, end);
      if breakAt == -1 {
        assert ps == before + if end > start then [Span(start, end)] else [];
        return;
      }
      start := SkipBreaks(s, end);
      MoreBreaks(s, ps, end, start);
    }
  }

  method SkipBreaks(s: Text, from: nat) returns (to: nat)
    requires from < |s| && s[from] == LF
    ensures from < to <= |s| && forall k :: from <= k < to ==> s[k] == LF
  {
    to := from;
    while to < |s| && s[to] == LF
      invariant from <= to <= |s| && forall k :: from <= k < to ==> s[k] == LF
    {
      to := to + 1;
    }
  }

  lemma NoBreakBefore(s: Text, start: nat, end: nat)
    requires start <= end <= |s|
    requires forall i :: start <= i < end ==> !At(s, [LF], i)
    ensures LF !in s[start..end]
  {
    forall k | start <= k < end
      ensures s[k] != LF
    {
      assert s[k..k + 1] == [s[k]];
      assert !At(s, [LF], k);
    }
  }

  lemma PushParagraph(s: Text, ps: seq<Span>, start: nat, end: nat)
    requires start <= end <= |s| && LF !in s[start..end] && ParagraphsUpTo(s, ps, start)
    requires start > 0 ==> s[start - 1] == LF
    requires end < |s| ==> s[end] == LF
    requires forall i :: 0 <= i < |ps| ==> ps[i].end < start
    ensures ParagraphsUpTo(s, ps + if end > start then [Span(start, end)] else [], end)
  {
    var more := if end > start then [Span(start, end)] else [];
    forall k | 0 <= k < end && s[k] != LF
      ensures InSome(ps + more, k)
    {
      InSomeAppend(ps, more, k);
      if k >= start {
        assert Span(start, end) in more && Holds(Span(start, end), k);
      }
    }
  }

  lemma MoreBreaks(s: Text, ps: seq<Span>, end: nat, start: nat)
    requires end <= start <= |s| && ParagraphsUpTo(s, ps, end) && forall k :: end <= k < start ==> s[k] == LF
    ensures ParagraphsUpTo(s, ps, start)
  {
  }

  /** The first position that is no whitespace, or the end. */
  function LeftOf(s: Text, from: nat, to: nat): (r: nat)
    requires from <= to <= |s|
    ensures from <= r <= to && (forall k :: from <= k < r ==> IsSpace(s[k])) && (r < to ==> !IsSpace(s[r]))
    decreases |s| - from
  {
    if from < to && IsSpace(s[from]) then LeftOf(s, from + 1, to) else from
  }

  function RightOf(s: Text, from: nat, to: nat): (r: nat)
    requires from <= to <= |s|
    ensures from <= r <= to && (forall k :: r <= k < to ==> IsSpace(s[k])) && (r > from ==> !IsSpace(s[r - 1]))
  {
    if from < to && IsSpace(s[to - 1]) then RightOf(s, from, to - 1) else to
  }

  function BoundsOf(s: Text, span: Span): Span
    requires span.start <= span.end <= |s|
  {
    var start := LeftOf(s, span.start, span.end);
    Span(start, RightOf(s, start, span.end))
  }

  /** Both ends without their whitespace. */
  method TrimmedSpan(s: Text, span: Span) returns (bounds: Span)
    requires span.start <= span.end <= |s|
    ensures span.start <= bounds.start <= bounds.end <= span.end
    ensures forall k :: span.start <= k < span.end && !Holds(bounds, k) ==> IsSpace(s[k])
    ensures bounds.start < bounds.end ==> !IsSpace(s[bounds.start]) && !IsSpace(s[bounds.end - 1])
    ensures bounds == BoundsOf(s, span)
  {
    var start, end := span.start, span.end;
    while start < end && IsSpace(s[start])
      invariant span.start <= start <= end && LeftOf(s, start, end) == LeftOf(s, span.start, span.end)
      invariant forall k :: span.start <= k < start ==> IsSpace(s[k])
    {
      start := start + 1;
    }
    while end > start && IsSpace(s[end - 1])
      invariant start <= end <= span.end && RightOf(s, start, end) == RightOf(s, start, span.end)
      invariant forall k :: end <= k < span.end ==> IsSpace(s[k])
    {
      end := end - 1;
    }
    bounds := Span(start, end);
  }

  /** An exact slice within the cap that neither starts nor ends with whitespace or inside a surrogate pair. */
  predicate ChunkOk(s: Text, c: Chunk, cap: nat) {
    && c.startOffset < c.endOffset <= |s| && c.content == s[c.startOffset..c.endOffset] && |c.content| <= cap
    && !InsidePair(s, c.startOffset) && !InsidePair(s, c.endOffset)
    && !IsSpace(s[c.startOffset]) && !IsSpace(s[c.endOffset - 1])
  }

  ghost predicate InChunk(chunks: seq<Chunk>, k: int) {
    exists i :: 0 <= i < |chunks| && chunks[i].startOffset <= k < chunks[i].endOffset
  }

  ghost predicate ChunksOk(s: Text, chunks: seq<Chunk>, cap: nat) {
    forall i :: 0 <= i < |chunks| ==> chunks[i].chunkIndex == i && ChunkOk(s, chunks[i], cap)
  }

  /** Every unit that is not whitespace lies in a chunk. */
  ghost predicate Lossless(s: Text, chunks: seq<Chunk>) {
    forall k :: 0 <= k < |s| && !IsSpace(s[k]) ==> InChunk(chunks, k)
  }

  ghost predicate SpansOk(s: Text, spans: seq<Span>, cap: nat) {
    forall span :: span in spans ==> SpanOk(s, span, cap)
  }

  function Opened(open: Option<Span>): seq<Span> { if open.Some? then [open.value] else [] }

  lemma LongSpansOk(s: Text, p: Span, cap: nat)
    requires cap >= 2 && IsParagraph(s, p)
    ensures Whole(s, p)
    ensures SpansOk(s, SplitFrom(s, p, cap, p.start), cap)
    ensures forall k :: Holds(p, k) ==> InSome(SplitFrom(s, p, cap, p.start), k)
  {
    var spans := SplitFrom(s, p, cap, p.start);
    SplitAdvances(s, p, cap, p.start);
    forall span | span in spans
      ensures SpanOk(s, span, cap)
    {
      var i :| 0 <= i < |spans| && spans[i] == span;
      AdvancingAt(s, spans, cap, i);
    }
    forall k | Holds(p, k)
      ensures InSome(spans, k)
    {
      SplitCovers(s, p, cap, p.start, k);
    }
  }

  // Spans of different paragraphs never overlap

  predicate NoBreak(s: Text, from: nat, to: nat) { forall k :: from <= k < to && k < |s| ==> s[k] != LF }

  /** One after the other, or pieces of one paragraph. */
  predicate Beside(s: Text, a: Span, b: Span) { a.end <= b.start || NoBreak(s, a.start, b.end) }

  ghost predicate AllBeside(s: Text, spans: seq<Span>) {
    forall i, j :: 0 <= i < j < |spans| ==> Beside(s, spans[i], spans[j])
  }

  predicate EndBy(spans: seq<Span>, to: nat) { forall i :: 0 <= i < |spans| ==> spans[i].end <= to }

  /** The spans so far, and the open one behind them all. */
  ghost predicate Gathered(s: Text, spans: seq<Span>, open: Option<Span>, to: nat) {
    && AllBeside(s, spans)
    && match open
       case None => EndBy(spans, to)
       case Some(span) => EndBy(spans, span.start) && span.start < span.end <= to
  }

  lemma {:induction false} SplitInside(s: Text, p: Span, cap: nat, start: nat)
    requires cap >= 2 && Whole(s, p) && p.start <= start < p.end && !InsidePair(s, start)
    ensures forall span :: span in SplitFrom(s, p, cap, start) ==> p.start <= span.start && span.end <= p.end
    decreases p.end - start
  {
    var end, next := SplitStep(s, p, cap, start);
    if end < p.end { SplitInside(s, p, cap, next); }
  }

  /** Pieces of one paragraph stand beside each other. */
  lemma PiecesBeside(s: Text, p: Span, pieces: seq<Span>)
    requires IsParagraph(s, p)
    requires forall i :: 0 <= i < |pieces| ==> p.start <= pieces[i].start && pieces[i].end <= p.end
    ensures AllBeside(s, pieces) && EndBy(pieces, p.end)
  {
    assert NoBreak(s, p.start, p.end) by {
      assert forall k :: p.start <= k < p.end ==> s[p.start..p.end][k - p.start] == s[k];
    }
  }

  lemma BesideJoin(s: Text, a: seq<Span>, b: seq<Span>, at: nat)
    requires AllBeside(s, a) && EndBy(a, at) && AllBeside(s, b)
    requires forall i :: 0 <= i < |b| ==> at <= b[i].start
    ensures AllBeside(s, a + b)
  {
  }

  lemma GatherLong(s: Text, p: Span, cap: nat, spans: seq<Span>, open: Option<Span>)
    requires cap >= 2 && IsParagraph(s, p) && Whole(s, p) && Gathered(s, spans, open, p.start)
    ensures Gathered(s, spans + Opened(open) + SplitFrom(s, p, cap, p.start), None, p.end)
  {
    var done, long := spans + Opened(open), SplitFrom(s, p, cap, p.start);
    SplitInside(s, p, cap, p.start);
    assert forall i :: 0 <= i < |long| ==> long[i] in long;
    PiecesBeside(s, p, long);
    assert AllBeside(s, done) && EndBy(done, p.start);
    BesideJoin(s, done, long, p.start);
  }

  lemma GatherOpened(s: Text, p: Span, spans: seq<Span>, open: Option<Span>)
    requires p.start < p.end && Gathered(s, spans, open, p.start)
    ensures Gathered(s, spans + Opened(open), Some(p), p.end)
  {
  }

  /** The rule for one paragraph: split a long one, join a short open span to the next one that fits, else start anew. */
  function Added(s: Text, p: Span, cap: nat, spans: seq<Span>, open: Option<Span>): (seq<Span>, Option<Span>)
    requires cap >= 2 && IsParagraph(s, p)
  {
    WholeParagraph(s, p);
    if p.end - p.start > cap then (spans + Opened(open) + SplitFrom(s, p, cap, p.start), None)
    else if open.Some? && open.value.end - open.value.start < MIN_PARAGRAPH_CHARACTERS && p.end - open.value.start <= cap
    then (spans, Some(Span(open.value.start, p.end)))
    else (spans + Opened(open), Some(p))
  }

  /** The spans of a list of paragraphs. */
  function Collected(s: Text, ps: seq<Span>, cap: nat): (seq<Span>, Option<Span>)
    requires cap >= 2 && forall p :: p in ps ==> IsParagraph(s, p)
  {
    if ps == [] then ([], None)
    else
      var (spans, open) := Collected(s, ps[..|ps| - 1], cap);
      Added(s, ps[|ps| - 1], cap, spans, open)
  }

  // The rule as a whole: paragraphs in groups

  predicate Long(p: Span, cap: nat) { p.end - p.start > cap }

  /** A long paragraph alone, or short ones of which all but the last make up less than a heading, within the cap. */
  predicate GroupOk(ps: seq<Span>, cap: nat, a: nat, b: nat)
    requires a < b <= |ps|
  {
    if Long(ps[a], cap) then b == a + 1
    else
      && (forall k :: a <= k < b ==> !Long(ps[k], cap))
      && (b > a + 1 ==> ps[b - 2].end - ps[a].start < 120 && ps[b - 1].end - ps[a].start <= cap)
  }

  /** A group ends because it is long, the next paragraph is, it is more than a heading, or the next one does not fit. */
  predicate GroupEnds(ps: seq<Span>, cap: nat, a: nat, b: nat)
    requires a < b < |ps|
  {
    || Long(ps[a], cap) || Long(ps[b], cap) || ps[b - 1].end - ps[a].start >= 120 || ps[b].end - ps[a].start > cap
  }

  /** The groups start at these paragraphs, the first at 0 and the last before `n`. */
  predicate Groups(ps: seq<Span>, cap: nat, starts: seq<nat>, n: nat)
    requires n <= |ps|
  {
    if starts == [] then n == 0
    else
      var front, a := starts[..|starts| - 1], starts[|starts| - 1];
      && a < n && GroupOk(ps, cap, a, n) && Groups(ps, cap, front, a)
      && (front != [] ==> front[|front| - 1] < a && GroupEnds(ps, cap, front[|front| - 1], a))
  }

  /** One span for a group of short paragraphs, the pieces of a long one. */
  function GroupSpans(s: Text, ps: seq<Span>, cap: nat, a: nat, b: nat): seq<Span>
    requires cap >= 2 && a < b <= |ps| && IsParagraph(s, ps[a])
  {
    WholeParagraph(s, ps[a]);
    if Long(ps[a], cap) then SplitFrom(s, ps[a], cap, ps[a].start) else [Span(ps[a].start, ps[b - 1].end)]
  }

  function AllSpans(s: Text, ps: seq<Span>, cap: nat, starts: seq<nat>, n: nat): seq<Span>
    requires cap >= 2 && n <= |ps| && Groups(ps, cap, starts, n) && forall p :: p in ps ==> IsParagraph(s, p)
  {
    if starts == [] then []
    else
      var a := starts[|starts| - 1];
      AllSpans(s, ps, cap, starts[..|starts| - 1], a) + GroupSpans(s, ps, cap, a, n)
  }

  /** What is collected of the first `n` paragraphs, with the last group still open when it is of short ones. */
  ghost predicate Grouped(s: Text, ps: seq<Span>, cap: nat, starts: seq<nat>, n: nat, spans: seq<Span>, open: Option<Span>)
    requires cap >= 2 && n <= |ps| && Groups(ps, cap, starts, n) && forall p :: p in ps ==> IsParagraph(s, p)
  {
    && AllSpans(s, ps, cap, starts, n) == spans + Opened(open)
    && (open.Some? <==> starts != [] && !Long(ps[starts[|starts| - 1]], cap))
    && (open.Some? ==> open.value == Span(ps[starts[|starts| - 1]].start, ps[n - 1].end))
  }

  lemma GroupStep(s: Text, ps: seq<Span>, cap: nat, starts: seq<nat>, n: nat, spans: seq<Span>, open: Option<Span>)
    returns (more: seq<nat>)
    requires cap >= 2 && n < |ps| && Groups(ps, cap, starts, n) && forall p :: p in ps ==> IsParagraph(s, p)
    requires Grouped(s, ps, cap, starts, n, spans, open)
    ensures Groups(ps, cap, more, n + 1)
    ensures var (spans', open') := Added(s, ps[n], cap, spans, open); Grouped(s, ps, cap, more, n + 1, spans', open')
  {
    if !Long(ps[n], cap) && open.Some? && open.value.end - open.value.start < 120 && ps[n].end - open.value.start <= cap {
      more := starts;
      GroupJoins(s, ps, cap, starts, n, spans, open.value);
    } else {
      more := starts + [n];
      GroupStarts(s, ps, cap, starts, n, spans, open);
    }
  }

  lemma GroupStarts(s: Text, ps: seq<Span>, cap: nat, starts: seq<nat>, n: nat, spans: seq<Span>, open: Option<Span>)
    requires cap >= 2 && n < |ps| && Groups(ps, cap, starts, n) && forall p :: p in ps ==> IsParagraph(s, p)
    requires Grouped(s, ps, cap, starts, n, spans, open)
    requires Long(ps[n], cap) || open.None? || open.value.end - open.value.start >= 120 || ps[n].end - open.value.start > cap
    ensures Groups(ps, cap, starts + [n], n + 1)
    ensures var (spans', open') := Added(s, ps[n], cap, spans, open); Grouped(s, ps, cap, starts + [n], n + 1, spans', open')
  {
    var more := starts + [n];
    NewGroup(ps, cap, starts, n, open);
    assert more[..|more| - 1] == starts && more[|more| - 1] == n;
    WholeParagraph(s, ps[n]);
    assert AllSpans(s, ps, cap, more, n + 1) == spans + Opened(open) + GroupSpans(s, ps, cap, n, n + 1);
  }

  lemma NewGroup(ps: seq<Span>, cap: nat, starts: seq<nat>, n: nat, open: Option<Span>)
    requires n < |ps| && Groups(ps, cap, starts, n)
    requires open.Some? <==> starts != [] && !Long(ps[starts[|starts| - 1]], cap)
    requires open.Some? ==> open.value == Span(ps[starts[|starts| - 1]].start, ps[n - 1].end)
    requires Long(ps[n], cap) || open.None? || open.value.end - open.value.start >= 120 || ps[n].end - open.value.start > cap
    ensures Groups(ps, cap, starts + [n], n + 1)
  {
    assert (starts + [n])[..|starts|] == starts;
  }

  lemma GroupJoins(s: Text, ps: seq<Span>, cap: nat, starts: seq<nat>, n: nat, spans: seq<Span>, open: Span)
    requires cap >= 2 && n < |ps| && Groups(ps, cap, starts, n) && forall p :: p in ps ==> IsParagraph(s, p)
    requires Grouped(s, ps, cap, starts, n, spans, Some(open))
    requires !Long(ps[n], cap) && open.end - open.start < 120 && ps[n].end - open.start <= cap
    ensures Groups(ps, cap, starts, n + 1)
    ensures Grouped(s, ps, cap, starts, n + 1, spans, Some(Span(open.start, ps[n].end)))
  {
    var front, a := starts[..|starts| - 1], starts[|starts| - 1];
    var done := AllSpans(s, ps, cap, front, a);
    assert done + [open] == spans + [open];
    assert done == (done + [open])[..|done|] && spans == (spans + [open])[..|spans|];
  }

  /** What is collected is exactly a greedy grouping: no group could have taken the paragraph behind it. */
  lemma {:induction false} CollectedGroups(s: Text, ps: seq<Span>, cap: nat, n: nat) returns (starts: seq<nat>)
    requires cap >= 2 && n <= |ps| && (forall p :: p in ps ==> IsParagraph(s, p)) && (forall p :: p in ps[..n] ==> IsParagraph(s, p))
    ensures Groups(ps, cap, starts, n)
    ensures var (spans, open) := Collected(s, ps[..n], cap); Grouped(s, ps, cap, starts, n, spans, open)
    decreases n
  {
    starts := [];
    if n > 0 {
      assert forall p :: p in ps[..n - 1] ==> p in ps;
      starts := CollectedGroups(s, ps, cap, n - 1);
      CollectedNext(s, ps, cap, n - 1);
      var c := Collected(s, ps[..n - 1], cap);
      starts := GroupStep(s, ps, cap, starts, n - 1, c.0, c.1);
    }
  }

  /** A paragraph that fits the cap lies whole in one group, and so in one span. */
  lemma {:induction false} FittingStaysWhole(s: Text, ps: seq<Span>, cap: nat, starts: seq<nat>, n: nat, i: nat)
    requires cap >= 2 && n <= |ps| && Groups(ps, cap, starts, n) && (forall p :: p in ps ==> IsParagraph(s, p))
    requires forall j, k :: 0 <= j < k < |ps| ==> ps[j].end < ps[k].start
    requires i < n && !Long(ps[i], cap)
    ensures exists span :: span in AllSpans(s, ps, cap, starts, n) && Inside(ps[i], span)
    decreases |starts|
  {
    var front, a := starts[..|starts| - 1], starts[|starts| - 1];
    if i < a {
      FittingStaysWhole(s, ps, cap, front, a, i);
    } else {
      var span := InOneGroup(s, ps, cap, a, n, i);
      assert span in AllSpans(s, ps, cap, starts, n);
    }
  }

  lemma InOneGroup(s: Text, ps: seq<Span>, cap: nat, a: nat, b: nat, i: nat) returns (span: Span)
    requires cap >= 2 && a <= i < b <= |ps| && GroupOk(ps, cap, a, b) && !Long(ps[i], cap)
    requires forall p :: p in ps ==> IsParagraph(s, p)
    requires forall j, k :: 0 <= j < k < |ps| ==> ps[j].end < ps[k].start
    ensures span in GroupSpans(s, ps, cap, a, b) && Inside(ps[i], span)
  {
    span := Span(ps[a].start, ps[b - 1].end);
    assert IsParagraph(s, ps[a]) && IsParagraph(s, ps[i]) && IsParagraph(s, ps[b - 1]);
  }

  lemma WholeParagraph(s: Text, p: Span)
    requires IsParagraph(s, p)
    ensures Whole(s, p)
  {
  }

  /** One paragraph added to the spans and the span still open to a next short paragraph. */
  method AddParagraph(s: Text, p: Span, cap: nat, spans: seq<Span>, open: Option<Span>)
    returns (spans': seq<Span>, open': Option<Span>)
    requires cap >= 2 && IsParagraph(s, p) && SpansOk(s, spans + Opened(open), cap)
    requires Gathered(s, spans, open, p.start)
    ensures (spans', open') == Added(s, p, cap, spans, open)
    ensures SpansOk(s, spans' + Opened(open'), cap) && Gathered(s, spans', open', p.end)
    ensures forall k :: InSome(spans + Opened(open), k) || Holds(p, k) ==> InSome(spans' + Opened(open'), k)
  {
    if p.end - p.start > cap {
      var long := SplitLongParagraph(s, p, cap);
      LongSpansOk(s, p, cap);
      GatherLong(s, p, cap, spans, open);
      spans', open' := spans + Opened(open) + long, None;
      forall k { InSomeAppend(spans + Opened(open), long, k); }
      return;
    }
    if open.Some? && open.value.end - open.value.start < MIN_PARAGRAPH_CHARACTERS && p.end - open.value.start <= cap {
      spans', open' := spans, Some(Span(open.value.start, p.end));
      JoinOpen(s, spans, open.value, p, cap);
      return;
    }
    spans', open' := spans + Opened(open), Some(p);
    GatherOpened(s, p, spans, open);
    forall k { InSomeAppend(spans', [p], k); }
    forall k | Holds(p, k) ensures InSome([p], k) { assert p in [p]; }
  }

  lemma JoinOpen(s: Text, spans: seq<Span>, open: Span, p: Span, cap: nat)
    requires IsParagraph(s, p) && SpansOk(s, spans + [open], cap) && open.end <= p.start && p.end - open.start <= cap
    ensures SpansOk(s, spans + [Span(open.start, p.end)], cap)
    ensures forall k :: InSome(spans + [open], k) || Holds(p, k) ==> InSome(spans + [Span(open.start, p.end)], k)
  {
    var joined := Span(open.start, p.end);
    assert open in spans + [open] && SpanOk(s, open, cap);
    forall span | span in spans
      ensures SpanOk(s, span, cap)
    {
      assert span in spans + [open];
    }
    forall k | InSome(spans + [open], k) || Holds(p, k)
      ensures InSome(spans + [joined], k)
    {
      InSomeAppend(spans, [open], k);
      InSomeAppend(spans, [joined], k);
      assert Holds(open, k) || Holds(p, k) ==> Holds(joined, k) && joined in [joined];
    }
  }

  /** The spans and the open one of the first `i` paragraphs: in order, and covering them. */
  ghost predicate Collecting(s: Text, ps: seq<Span>, i: nat, spans: seq<Span>, open: Option<Span>)
    requires i <= |ps|
  {
    && Gathered(s, spans, open, if i == 0 then 0 else ps[i - 1].end)
    && forall k :: InSome(ps[..i], k) ==> InSome(spans + Opened(open), k)
  }

  lemma CollectedNext(s: Text, ps: seq<Span>, cap: nat, i: nat)
    requires i < |ps| && cap >= 2 && (forall p :: p in ps[..i] ==> IsParagraph(s, p)) && IsParagraph(s, ps[i])
    ensures forall p :: p in ps[..i + 1] ==> IsParagraph(s, p)
    ensures var c := Collected(s, ps[..i], cap); Collected(s, ps[..i + 1], cap) == Added(s, ps[i], cap, c.0, c.1)
  {
    assert ps[..i + 1][..i] == ps[..i];
  }

  lemma CollectStep(s: Text, ps: seq<Span>, i: nat, before: seq<Span>, after: seq<Span>, spans: seq<Span>, open: Option<Span>)
    requires i < |ps| && after == spans + Opened(open) && Gathered(s, spans, open, ps[i].end)
    requires forall k :: InSome(ps[..i], k) ==> InSome(before, k)
    requires forall k :: InSome(before, k) || Holds(ps[i], k) ==> InSome(after, k)
    ensures Collecting(s, ps, i + 1, spans, open)
  {
    forall k | InSome(ps[..i + 1], k) ensures InSome(after, k) {
      InSomeNext(ps, i, k);
    }
  }

  lemma InSomeNext(ps: seq<Span>, i: nat, k: int)
    requires i < |ps| && InSome(ps[..i + 1], k)
    ensures InSome(ps[..i], k) || Holds(ps[i], k)
  {
    var span :| span in ps[..i + 1] && Holds(span, k);
    assert span in ps[..i] || span == ps[i];
  }

  method CollectSpans(s: Text, cap: nat) returns (spans: seq<Span>, ghost ps: seq<Span>)
    requires cap >= 2
    ensures ParagraphsUpTo(s, ps, |s|)
    ensures var (done, open) := Collected(s, ps, cap); spans == done + Opened(open)
    ensures SpansOk(s, spans, cap) && AllBeside(s, spans)
    ensures forall k :: 0 <= k < |s| && s[k] != LF ==> InSome(spans, k)
  {
    var paragraphs := Paragraphs(s);
    ps := paragraphs;
    spans := [];
    var open: Option<Span> := None;
    for i := 0 to |paragraphs|
      invariant Collecting(s, ps, i, spans, open) && SpansOk(s, spans + Opened(open), cap)
      invariant (forall p :: p in ps[..i] ==> IsParagraph(s, p)) && (spans, open) == Collected(s, ps[..i], cap)
    {
      assert IsParagraph(s, ps[i]) && (i > 0 ==> ps[i - 1].end < ps[i].start);
      GatheredBy(s, spans, open, if i == 0 then 0 else ps[i - 1].end, ps[i].start);
      CollectedNext(s, ps, cap, i);
      ghost var before := spans + Opened(open);
      spans, open := AddParagraph(s, paragraphs[i], cap, spans, open);
      CollectStep(s, ps, i, before, spans + Opened(open), spans, open);
    }
    assert ps[..|ps|] == ps;
    spans := spans + Opened(open);
  }

  lemma GatheredBy(s: Text, spans: seq<Span>, open: Option<Span>, to: nat, more: nat)
    requires Gathered(s, spans, open, to) && to <= more
    ensures Gathered(s, spans, open, more)
  {
  }

  method AddChunk(s: Text, cap: nat, chunks: seq<Chunk>, span: Span) returns (more: seq<Chunk>)
    requires ChunksOk(s, chunks, cap) && SpanOk(s, span, cap)
    ensures ChunksOk(s, more, cap) && chunks <= more
    ensures more == chunks || (exists c :: more == chunks + [c] && Inside(Bounds(c), span))
    ensures AllBounds(more) == AllBounds(chunks) + Shown(s, span)
    ensures forall k :: Holds(span, k) && !IsSpace(s[k]) ==> InChunk(more, k)
  {
    var bounds := TrimmedSpan(s, span);
    more := chunks;
    if bounds.start < bounds.end {
      WholeInside(s, span, bounds);
      more := chunks + [Slice(s, |chunks|, bounds)];
      assert Inside(Bounds(Slice(s, |chunks|, bounds)), span);
      PushChunk(s, cap, chunks, bounds);
      PushBounds(chunks, Slice(s, |chunks|, bounds));
    }
  }

  lemma PushBounds(chunks: seq<Chunk>, c: Chunk)
    ensures AllBounds(chunks + [c]) == AllBounds(chunks) + [Bounds(c)]
  {
  }

  /** What is left of a span without its outer whitespace. */
  function Shown(s: Text, span: Span): seq<Span>
    requires span.start <= span.end <= |s|
  {
    var bounds := BoundsOf(s, span);
    if bounds.start < bounds.end then [bounds] else []
  }

  function AllShown(s: Text, spans: seq<Span>): seq<Span>
    requires forall span :: span in spans ==> span.start <= span.end <= |s|
  {
    if spans == [] then [] else AllShown(s, spans[..|spans| - 1]) + Shown(s, spans[|spans| - 1])
  }

  function AllBounds(chunks: seq<Chunk>): seq<Span> { seq(|chunks|, i requires 0 <= i < |chunks| => Bounds(chunks[i])) }

  function Slice(s: Text, index: nat, bounds: Span): Chunk
    requires bounds.start <= bounds.end <= |s|
  {
    Chunk(index, s[bounds.start..bounds.end], bounds.start, bounds.end)
  }

  lemma PushChunk(s: Text, cap: nat, chunks: seq<Chunk>, bounds: Span)
    requires bounds.start < bounds.end <= |s| && ChunksOk(s, chunks, cap)
    requires ChunkOk(s, Slice(s, |chunks|, bounds), cap)
    ensures ChunksOk(s, chunks + [Slice(s, |chunks|, bounds)], cap)
    ensures forall k :: Holds(bounds, k) ==> InChunk(chunks + [Slice(s, |chunks|, bounds)], k)
  {
    var more := chunks + [Slice(s, |chunks|, bounds)];
    assert more[|chunks|] == Slice(s, |chunks|, bounds);
  }

  // Trimming moves an end only past whitespace, which is no half of a character.
  lemma WholeInside(s: Text, span: Span, bounds: Span)
    requires Whole(s, span) && span.start <= bounds.start < bounds.end <= span.end
    requires forall k :: span.start <= k < span.end && !Holds(bounds, k) ==> IsSpace(s[k])
    ensures !InsidePair(s, bounds.start) && !InsidePair(s, bounds.end)
  {
    if bounds.start > span.start { assert !Holds(bounds, bounds.start - 1); }
    if bounds.end < span.end { assert !Holds(bounds, bounds.end); }
  }

  /** Chunks overlap only inside one paragraph. */
  ghost predicate ChunksBeside(s: Text, chunks: seq<Chunk>) {
    forall i, j :: 0 <= i < j < |chunks| ==> Beside(s, Bounds(chunks[i]), Bounds(chunks[j]))
  }

  function Bounds(c: Chunk): Span { Span(c.startOffset, c.endOffset) }

  /** The chunks come from the first `i` spans and stand beside the rest. */
  ghost predicate BesideRest(s: Text, chunks: seq<Chunk>, spans: seq<Span>, i: nat) {
    && ChunksBeside(s, chunks)
    && forall k, j :: 0 <= k < |chunks| && i <= j < |spans| ==> Beside(s, Bounds(chunks[k]), spans[j])
  }

  lemma NextBeside(s: Text, chunks: seq<Chunk>, more: seq<Chunk>, spans: seq<Span>, i: nat)
    requires i < |spans| && AllBeside(s, spans) && BesideRest(s, chunks, spans, i)
    requires more == chunks || (exists c :: more == chunks + [c] && Inside(Bounds(c), spans[i]))
    ensures BesideRest(s, more, spans, i + 1)
  {
  }

  predicate Inside(a: Span, b: Span) { b.start <= a.start <= a.end <= b.end }

  method ChunkText(s: Text, cap: nat) returns (r: Chunked)
    requires cap >= 2
    ensures r.InputInvalid? <==> Trim(s) == []
    ensures r.Chunks? ==> r.chunks != [] && ChunksOk(s, r.chunks, cap) && Lossless(s, r.chunks) && ChunksBeside(s, r.chunks)
    ensures r.Chunks? ==> InGroups(s, cap, r.chunks)
  {
    if Trim(s) == [] {
      return InputInvalid;
    }
    var spans, ps := CollectSpans(s, cap);
    var chunks := TrimSpans(s, cap, spans);
    // The source throws once more when no chunk came out; text that is not all whitespace always gives one.
    SomeChunk(s, chunks);
    AreInGroups(s, cap, ps, chunks);
    r := Chunks(chunks);
  }

  /** The chunks are the trimmed spans of a greedy grouping of the paragraphs, in order. */
  ghost predicate InGroups(s: Text, cap: nat, chunks: seq<Chunk>) {
    exists ps: seq<Span>, starts: seq<nat> :: GroupedIn(s, cap, chunks, ps, starts)
  }

  ghost predicate GroupedIn(s: Text, cap: nat, chunks: seq<Chunk>, ps: seq<Span>, starts: seq<nat>) {
    && cap >= 2 && ParagraphsUpTo(s, ps, |s|) && Groups(ps, cap, starts, |ps|)
    && var spans := AllSpans(s, ps, cap, starts, |ps|);
       (forall span :: span in spans ==> span.start <= span.end <= |s|) && AllBounds(chunks) == AllShown(s, spans)
  }

  lemma AreInGroups(s: Text, cap: nat, ps: seq<Span>, chunks: seq<Chunk>)
    requires cap >= 2 && ParagraphsUpTo(s, ps, |s|)
    requires var (done, open) := Collected(s, ps, cap);
             var spans := done + Opened(open);
             SpansOk(s, spans, cap) && (forall span :: span in spans ==> span.start <= span.end <= |s|)
             && AllBounds(chunks) == AllShown(s, spans)
    ensures InGroups(s, cap, chunks)
  {
    assert ps[..|ps|] == ps;
    var starts := CollectedGroups(s, ps, cap, |ps|);
    assert GroupedIn(s, cap, chunks, ps, starts);
  }

  lemma SomeChunk(s: Text, chunks: seq<Chunk>)
    requires Trim(s) != [] && Lossless(s, chunks)
    ensures chunks != []
  {
    var k :| 0 <= k < |s| && !IsSpace(s[k]);
    assert InChunk(chunks, k);
  }

  method TrimSpans(s: Text, cap: nat, spans: seq<Span>) returns (chunks: seq<Chunk>)
    requires SpansOk(s, spans, cap) && AllBeside(s, spans)
    requires forall k :: 0 <= k < |s| && s[k] != LF ==> InSome(spans, k)
    ensures ChunksOk(s, chunks, cap) && Lossless(s, chunks) && ChunksBeside(s, chunks)
    ensures (forall span :: span in spans ==> span.start <= span.end <= |s|) && AllBounds(chunks) == AllShown(s, spans)
  {
    chunks := [];
    assert forall span :: span in spans ==> SpanOk(s, span, cap);
    for i := 0 to |spans|
      invariant ChunksOk(s, chunks, cap) && BesideRest(s, chunks, spans, i)
      invariant forall span :: span in spans[..i] ==> span.start <= span.end <= |s|
      invariant AllBounds(chunks) == AllShown(s, spans[..i])
      invariant forall k :: 0 <= k < |s| && !IsSpace(s[k]) && InSome(spans[..i], k) ==> InChunk(chunks, k)
    {
      assert SpanOk(s, spans[i], cap) && spans[..i + 1][..i] == spans[..i];
      ghost var before := chunks;
      chunks := AddChunk(s, cap, chunks, spans[i]);
      NextBeside(s, before, chunks, spans, i);
      GrownCoverage(s, spans, i, before, chunks);
    }
    assert spans[..|spans|] == spans;
  }

  lemma GrownCoverage(s: Text, spans: seq<Span>, i: nat, before: seq<Chunk>, chunks: seq<Chunk>)
    requires i < |spans| && before <= chunks && Whole(s, spans[i])
    requires forall k :: 0 <= k < |s| && !IsSpace(s[k]) && InSome(spans[..i], k) ==> InChunk(before, k)
    requires forall k :: Holds(spans[i], k) && !IsSpace(s[k]) ==> InChunk(chunks, k)
    ensures forall k :: 0 <= k < |s| && !IsSpace(s[k]) && InSome(spans[..i + 1], k) ==> InChunk(chunks, k)
  {
    assert spans[..i + 1] == spans[..i] + [spans[i]];
    forall k | 0 <= k < |s| && !IsSpace(s[k]) && InSome(spans[..i + 1], k)
      ensures InChunk(chunks, k)
    {
      InSomeAppend(spans[..i], [spans[i]], k);
      if InSome(spans[..i], k) {
        InChunkGrows(before, chunks, k);
      }
    }
  }

  lemma InChunkGrows(a: seq<Chunk>, b: seq<Chunk>, k: int)
    requires a <= b && InChunk(a, k)
    ensures InChunk(b, k)
  {
    var i :| 0 <= i < |a| && a[i].startOffset <= k < a[i].endOffset;
    assert b[i] == a[i];
  }

  /** Stored records: longer text than a record may have is refused. */
  method ChunkMemoryContent(s: Text, cap: nat) returns (r: Chunked)
    requires cap >= 2
    ensures r.InputInvalid? <==> Trim(s) == [] || |s| > CONTENT_MAX
    ensures r.Chunks? ==> r.chunks != [] && ChunksOk(s, r.chunks, cap) && Lossless(s, r.chunks) && ChunksBeside(s, r.chunks)
    ensures r.Chunks? ==> InGroups(s, cap, r.chunks)
  {
    if |s| > CONTENT_MAX {
      return InputInvalid;
    }
    r := ChunkText(s, cap);
  }
}
