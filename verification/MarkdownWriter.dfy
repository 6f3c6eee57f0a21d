/** The writer of html-markdown.ts: written parts, trailing line breaks per part, open spans, a budget. */
module MarkdownWriter {
  import opened Utf16

  /** What a writer holds, without the counts that only cache it. */
  datatype State = State(parts: seq<Text>, marks: seq<nat>, truncated: bool, preserve: bool)

  const INITIAL := State([], [], false, false)

  function Join(parts: seq<Text>): Text {
    if parts == [] then [] else Join(parts[..|parts| - 1]) + parts[|parts| - 1]
  }

  lemma JoinPush(parts: seq<Text>, part: Text)
    ensures Join(parts + [part]) == Join(parts) + part
  {
    assert (parts + [part])[..|parts|] == parts;
  }

  lemma {:induction false} JoinSplit(parts: seq<Text>, n: nat)
    requires n <= |parts|
    ensures Join(parts) == Join(parts[..n]) + Join(parts[n..])
    decreases |parts|
  {
    if n == |parts| {
      assert parts[..n] == parts;
    } else {
      var front := parts[..|parts| - 1];
      JoinSplit(front, n);
      assert front[..n] == parts[..n] && front[n..] == parts[n..][..|parts| - n - 1];
    }
  }

  function Trailing(s: Text, u: Unit): (n: nat)
    ensures n <= |s| && (forall i :: |s| - n <= i < |s| ==> s[i] == u)
    ensures n < |s| ==> s[|s| - n - 1] != u
  {
    if s != [] && s[|s| - 1] == u then Trailing(s[..|s| - 1], u) + 1 else 0
  }

  lemma {:induction false} TrailingIs(s: Text, u: Unit, n: nat)
    requires n <= |s| && (forall i :: |s| - n <= i < |s| ==> s[i] == u)
    requires n < |s| ==> s[|s| - n - 1] != u
    ensures Trailing(s, u) == n
  {
    if s != [] && s[|s| - 1] == u {
      assert n > 0;
      TrailingIs(s[..|s| - 1], u, n - 1);
    }
  }

  lemma TrailingOfAppend(a: Text, b: Text, u: Unit)
    ensures Trailing(a + b, u) == if Trailing(b, u) == |b| then Trailing(a, u) + |b| else Trailing(b, u)
  {
    TrailingIs(a + b, u, if Trailing(b, u) == |b| then Trailing(a, u) + |b| else Trailing(b, u));
  }

  function WithoutTrailing(s: Text, u: Unit): Text { s[..|s| - Trailing(s, u)] }

  /** The line breaks ending the output after each part. */
  function Counts(parts: seq<Text>): (c: seq<nat>)
    ensures |c| == |parts|
  {
    if parts == [] then [] else Counts(parts[..|parts| - 1]) + [Trailing(Join(parts), LF)]
  }

  lemma CountsPush(parts: seq<Text>, part: Text)
    ensures Counts(parts + [part]) == Counts(parts) + [Trailing(Join(parts) + part, LF)]
  {
    JoinPush(parts, part);
    assert (parts + [part])[..|parts|] == parts;
  }

  lemma CountOfPush(parts: seq<Text>, counts: seq<nat>, piece: Text, index: nat, count: nat)
    requires counts == Counts(parts) && index <= |piece| && |piece| - index == Trailing(piece, LF)
    requires count == if index == 0 then (if counts == [] then 0 else counts[|counts| - 1]) + |piece| else |piece| - index
    ensures Counts(parts + [piece]) == counts + [count] && Join(parts + [piece]) == Join(parts) + piece
  {
    CountsPush(parts, piece);
    JoinPush(parts, piece);
    TrailingOfAppend(Join(parts), piece, LF);
  }

  lemma {:induction false} CountsOfPrefix(parts: seq<Text>, n: nat)
    requires n <= |parts|
    ensures Counts(parts[..n]) == Counts(parts)[..n]
    decreases |parts|
  {
    if n == |parts| {
      assert parts[..n] == parts;
    } else {
      CountsOfPrefix(parts[..|parts| - 1], n);
      assert parts[..|parts| - 1][..n] == parts[..n];
    }
  }

  /** Each recorded count is the true one of the output up to that part. */
  lemma CountIsTrailing(parts: seq<Text>, i: nat)
    requires i < |parts|
    ensures Counts(parts)[i] == Trailing(Join(parts[..i + 1]), LF)
  {
    CountsOfPrefix(parts, i + 1);
    assert Counts(parts[..i + 1])[i] == Counts(parts)[i];
  }

  ghost predicate Stacked(marks: seq<nat>, limit: nat) {
    && (forall i :: 0 <= i < |marks| ==> marks[i] <= limit)
    && (forall i, j :: 0 <= i < j < |marks| ==> marks[i] <= marks[j])
  }

  function Cap(budget: int): nat { if budget < 0 then 0 else budget }

  /** The output is inside the budget, no part is empty, the open spans start in order within the parts. */
  ghost predicate Valid(s: State, budget: int) {
    |Join(s.parts)| <= Cap(budget) && [] !in s.parts && Stacked(s.marks, |s.parts|)
  }

  /** What fits of a text: all of it, or a prefix that does not end in half a surrogate pair. */
  function Fitting(text: Text, room: int): (piece: Text)
    ensures piece <= text && |piece| <= Cap(room)
    ensures |text| <= room ==> piece == text
    ensures |text| > room > 0 ==>
              if IsHighSurrogate(text[room - 1]) then |piece| == room - 1 else |piece| == room
  {
    if |text| <= room then text
    else
      var cut := Cap(room);
      if cut > 0 && IsHighSurrogate(text[cut - 1]) then text[..cut - 1] else text[..cut]
  }

  function Push(s: State, piece: Text): State {
    if piece == [] then s else s.(parts := s.parts + [piece])
  }

  function Write(s: State, budget: int, text: Text): State {
    var room := budget - |Join(s.parts)|;
    Push(s.(truncated := s.truncated || (text != [] && |text| > room)), Fitting(text, room))
  }

  lemma PushKeeps(s: State, budget: int, piece: Text)
    requires Valid(s, budget) && |Join(s.parts)| + |piece| <= Cap(budget)
    ensures Valid(Push(s, piece), budget) && Join(Push(s, piece).parts) == Join(s.parts) + piece
  {
    if piece == [] {
      assert Join(s.parts) + piece == Join(s.parts);
    } else {
      JoinPush(s.parts, piece);
    }
  }

  /** A write adds exactly what fits, and nothing ever passes the budget. */
  lemma WriteKeeps(s: State, budget: int, text: Text)
    requires Valid(s, budget)
    ensures Valid(Write(s, budget, text), budget)
    ensures Join(Write(s, budget, text).parts) == Join(s.parts) + Fitting(text, budget - |Join(s.parts)|)
  {
    var room := budget - |Join(s.parts)|;
    PushKeeps(s.(truncated := s.truncated || (text != [] && |text| > room)), budget, Fitting(text, room));
  }

  function Pushed(parts: seq<Text>, piece: Text): seq<Text> { if piece == [] then parts else parts + [piece] }

  lemma WriteParts(s: State, budget: int, text: Text, t: State)
    requires text != [] && t.marks == s.marks && t.preserve == s.preserve
    requires t.parts == Pushed(s.parts, Fitting(text, budget - |Join(s.parts)|))
    requires t.truncated == (s.truncated || |text| > budget - |Join(s.parts)|)
    ensures t == Write(s, budget, text)
  {
  }

  function Floor(s: State): nat { if s.marks == [] then 0 else s.marks[|s.marks| - 1] }

  function Pop(s: State): State
    requires s.parts != []
  {
    s.(parts := s.parts[..|s.parts| - 1])
  }

  lemma PopKeeps(s: State, budget: int)
    requires Valid(s, budget) && |s.parts| > Floor(s)
    ensures Valid(Pop(s), budget)
  {
    forall i | 0 <= i < |s.marks|
      ensures s.marks[i] <= |s.parts| - 1
    {
      assert s.marks[i] <= s.marks[|s.marks| - 1];
    }
  }

  /** Spaces ending the last line go, back to the innermost open span. */
  function TrimLineEnd(s: State): State
    decreases |s.parts|
  {
    if |s.parts| <= Floor(s) then s
    else
      var last := s.parts[|s.parts| - 1];
      var spaces := Trailing(last, SPACE);
      if spaces == 0 then s
      else if spaces < |last| then Push(Pop(s), WithoutTrailing(last, SPACE))
      else TrimLineEnd(Pop(s))
  }

  /** `t` is `s` up to some part of the innermost open span. */
  predicate CutFrom(s: State, t: State) {
    t == s.(parts := t.parts) && Floor(s) <= |t.parts| <= |s.parts| && t.parts[..Floor(s)] == s.parts[..Floor(s)]
  }

  lemma PopFloor(s: State)
    requires |s.parts| > Floor(s)
    ensures CutFrom(s, Pop(s))
    ensures forall t :: CutFrom(Pop(s), t) ==> CutFrom(s, t)
    ensures forall piece: Text :: piece != [] ==> CutFrom(s, Push(Pop(s), piece))
  {
  }

  /** Trimming keeps the invariant and everything below the innermost open span. */
  lemma {:induction false} TrimLineEndKeeps(s: State, budget: int)
    requires Valid(s, budget)
    ensures Valid(TrimLineEnd(s), budget) && CutFrom(s, TrimLineEnd(s))
    decreases |s.parts|
  {
    if |s.parts| > Floor(s) {
      var last := s.parts[|s.parts| - 1];
      var spaces := Trailing(last, SPACE);
      PopKeeps(s, budget);
      PopFloor(s);
      if spaces == |last| {
        TrimLineEndKeeps(Pop(s), budget);
      } else if spaces > 0 {
        PushKeeps(Pop(s), budget, last[..|last| - spaces]);
      }
    }
  }

  /** The output of the innermost open span. */
  function OpenText(s: State): Text
    requires Floor(s) <= |s.parts|
  {
    Join(s.parts[Floor(s)..])
  }

  lemma OpenTextStep(s: State)
    requires |s.parts| > Floor(s)
    ensures OpenText(s) == OpenText(Pop(s)) + s.parts[|s.parts| - 1]
  {
    JoinPush(s.parts[Floor(s)..|s.parts| - 1], s.parts[|s.parts| - 1]);
    assert s.parts[Floor(s)..] == s.parts[Floor(s)..|s.parts| - 1] + [s.parts[|s.parts| - 1]];
    assert Pop(s).parts[Floor(s)..] == s.parts[Floor(s)..|s.parts| - 1];
  }

  lemma OpenTextPush(s: State, piece: Text)
    requires Floor(s) <= |s.parts| && piece != []
    ensures OpenText(Push(s, piece)) == OpenText(s) + piece
  {
    OpenTextStep(Push(s, piece));
    assert Pop(Push(s, piece)).parts == s.parts;
  }

  lemma WithoutTrailingOfAppend(a: Text, b: Text, u: Unit)
    ensures WithoutTrailing(a + b, u) == if Trailing(b, u) == |b| then WithoutTrailing(a, u) else a + WithoutTrailing(b, u)
  {
    TrailingOfAppend(a, b, u);
  }

  /** The end of the open span, part by part. */
  lemma OpenTextTrimmed(s: State)
    requires |s.parts| > Floor(s)
    ensures var last := s.parts[|s.parts| - 1];
            WithoutTrailing(OpenText(s), SPACE) ==
              if Trailing(last, SPACE) == |last| then WithoutTrailing(OpenText(Pop(s)), SPACE)
              else OpenText(Pop(s)) + WithoutTrailing(last, SPACE)
  {
    OpenTextStep(s);
    WithoutTrailingOfAppend(OpenText(Pop(s)), s.parts[|s.parts| - 1], SPACE);
  }

  lemma TrimStep(s: State)
    requires |s.parts| > Floor(s)
    ensures var last := s.parts[|s.parts| - 1];
            TrimLineEnd(s) ==
              if Trailing(last, SPACE) == 0 then s
              else if Trailing(last, SPACE) < |last| then Push(Pop(s), WithoutTrailing(last, SPACE))
              else TrimLineEnd(Pop(s))
  {
  }

  /** A part that is not all spaces is where trimming ends. */
  lemma TrimEndsHere(s: State)
    requires |s.parts| > Floor(s) && Trailing(s.parts[|s.parts| - 1], SPACE) < |s.parts[|s.parts| - 1]|
    ensures Floor(TrimLineEnd(s)) == Floor(s) <= |TrimLineEnd(s).parts|
    ensures OpenText(TrimLineEnd(s)) == OpenText(Pop(s)) + WithoutTrailing(s.parts[|s.parts| - 1], SPACE)
  {
    var last := s.parts[|s.parts| - 1];
    TrimStep(s);
    if Trailing(last, SPACE) == 0 {
      OpenTextStep(s);
    } else {
      OpenTextPush(Pop(s), WithoutTrailing(last, SPACE));
    }
  }

  /** What trimming means for the output: exactly the spaces at the end of the open span go. */
  lemma {:induction false} TrimLineEndText(s: State)
    requires Floor(s) <= |s.parts| && [] !in s.parts
    ensures Floor(s) == Floor(TrimLineEnd(s)) <= |TrimLineEnd(s).parts|
    ensures OpenText(TrimLineEnd(s)) == WithoutTrailing(OpenText(s), SPACE)
    decreases |s.parts|
  {
    if |s.parts| == Floor(s) {
      assert s.parts[Floor(s)..] == [];
    } else {
      var last := s.parts[|s.parts| - 1];
      OpenTextTrimmed(s);
      if Trailing(last, SPACE) < |last| {
        TrimEndsHere(s);
      } else {
        assert last != [];
        TrimStep(s);
        TrimLineEndText(Pop(s));
      }
    }
  }

  function Trimmed(s: State): State { if s.preserve then s else TrimLineEnd(s) }

  function BreakLines(s: State, budget: int, count: nat): State {
    var t := Trimmed(s);
    var have := Trailing(Join(t.parts), LF);
    if t.parts == [] || have >= count then t else Write(t, budget, Repeat(LF, count - have))
  }

  lemma BreakLinesIs(s: State, budget: int, count: nat, t: State, have: nat)
    requires t == Trimmed(s) && have == Trailing(Join(t.parts), LF)
    ensures BreakLines(s, budget, count) ==
            if t.parts == [] || have >= count then t else Write(t, budget, Repeat(LF, count - have))
  {
  }

  lemma TrimmedKeeps(s: State, budget: int)
    requires Valid(s, budget)
    ensures Valid(Trimmed(s), budget)
  {
    TrimLineEndKeeps(s, budget);
  }

  lemma BreakLinesKeeps(s: State, budget: int, count: nat)
    requires Valid(s, budget)
    ensures Valid(BreakLines(s, budget, count), budget)
  {
    TrimmedKeeps(s, budget);
    var t := Trimmed(s);
    var have := Trailing(Join(t.parts), LF);
    BreakLinesIs(s, budget, count, t, have);
    if have < count {
      WriteKeeps(t, budget, Repeat(LF, count - have));
    }
  }

  lemma Lengthened(text: Text, had: nat, count: nat)
    requires had == Trailing(text, LF) && had < count
    ensures Trailing(text + Repeat(LF, count - had), LF) == count
  {
    TrailingIs(Repeat(LF, count - had), LF, count - had);
    TrailingOfAppend(text, Repeat(LF, count - had), LF);
  }

  /** A break with room for it leaves the empty output or one that ends in the asked line breaks, or in the more it had. */
  lemma BreakLinesBreaks(s: State, budget: int, count: nat)
    requires Valid(s, budget) && count <= budget - |Join(Trimmed(s).parts)|
    ensures var had := Trailing(Join(Trimmed(s).parts), LF);
            var out := Join(BreakLines(s, budget, count).parts);
            Trimmed(s).parts == [] == BreakLines(s, budget, count).parts ||
            Trailing(out, LF) == if had < count then count else had
  {
    TrimmedKeeps(s, budget);
    var t := Trimmed(s);
    var had := Trailing(Join(t.parts), LF);
    BreakLinesIs(s, budget, count, t, had);
    if had < count {
      WriteKeeps(t, budget, Repeat(LF, count - had));
      Lengthened(Join(t.parts), had, count);
    }
  }

  /** The output is empty or ends in a line break. */
  predicate AtStart(s: State) { Join(s.parts) == [] || Join(s.parts)[|Join(s.parts)| - 1] == LF }

  predicate EndsSpaced(s: State) { Join(s.parts) != [] && Join(s.parts)[|Join(s.parts)| - 1] == SPACE }

  function Open(s: State): State { s.(marks := s.marks + [|s.parts|]) }

  /** A handle that is no longer on the stack marks the end of the output. */
  function MarkOf(s: State, handle: nat): nat { if handle < |s.marks| then s.marks[handle] else |s.parts| }

  function TakenText(s: State, handle: nat): Text
    requires MarkOf(s, handle) <= |s.parts|
  {
    Join(s.parts[MarkOf(s, handle)..])
  }

  function Take(s: State, handle: nat): State
    requires MarkOf(s, handle) <= |s.parts|
  {
    s.(parts := s.parts[..MarkOf(s, handle)], marks := s.marks[..if handle < |s.marks| then handle else |s.marks|])
  }

  /** Taking cuts the output in two and loses nothing of it. */
  lemma TakeKeeps(s: State, budget: int, handle: nat)
    requires Valid(s, budget)
    ensures MarkOf(s, handle) <= |s.parts| && Valid(Take(s, handle), budget)
    ensures Join(s.parts) == Join(Take(s, handle).parts) + TakenText(s, handle)
  {
    JoinSplit(s.parts, MarkOf(s, handle));
  }

  /** A stale handle takes nothing and changes nothing, so closing a lost span is harmless. */
  lemma StaleTake(s: State, handle: nat)
    requires handle >= |s.marks|
    ensures TakenText(s, handle) == [] && Take(s, handle) == s
  {
    assert s.parts[|s.parts|..] == [];
    assert s.parts[..|s.parts|] == s.parts && s.marks[..|s.marks|] == s.marks;
  }

  // Everything a caller does to a writer between opening a span and taking it.
  datatype Op = DoWrite(text: Text) | DoBreak(count: nat) | DoOpen | DoTake(handle: nat) | DoPreserve(preserve: bool)

  ghost function Apply(s: State, budget: int, op: Op): State
    requires Valid(s, budget)
  {
    match op
    case DoWrite(text) => Write(s, budget, text)
    case DoBreak(count) => BreakLines(s, budget, count)
    case DoOpen => Open(s)
    case DoTake(handle) => TakeKeeps(s, budget, handle); Take(s, handle)
    case DoPreserve(preserve) => s.(preserve := preserve)
  }

  /** Every operation keeps the invariant; in particular no output is ever over the budget. */
  lemma ApplyKeeps(s: State, budget: int, op: Op)
    requires Valid(s, budget)
    ensures Valid(Apply(s, budget, op), budget)
  {
    match op
    case DoWrite(text) => WriteKeeps(s, budget, text);
    case DoBreak(count) => BreakLinesKeeps(s, budget, count);
    case DoOpen =>
    case DoTake(handle) => TakeKeeps(s, budget, handle);
    case DoPreserve(_) =>
  }

  ghost function Run(s: State, budget: int, ops: seq<Op>): (t: State)
    requires Valid(s, budget)
    ensures Valid(t, budget)
    decreases |ops|
  {
    if ops == [] then s
    else
      ApplyKeeps(s, budget, ops[0]);
      Run(Apply(s, budget, ops[0]), budget, ops[1..])
  }

  /** The span with this handle is still open over `base`, whose parts are untouched below it. */
  ghost predicate SpanOver(s: State, base: State, handle: nat) {
    && |base.marks| == handle < |s.marks| && s.marks[..handle] == base.marks && s.marks[handle] == |base.parts|
    && base.parts <= s.parts
  }

  lemma BreakAboveSpan(s: State, base: State, budget: int, handle: nat, count: nat)
    requires Valid(s, budget) && SpanOver(s, base, handle)
    ensures SpanOver(BreakLines(s, budget, count), base, handle)
  {
    var floor := Floor(s);
    assert s.marks[handle] <= s.marks[|s.marks| - 1];
    TrimLineEndKeeps(s, budget);
    var t := Trimmed(s);
    assert t.parts[..floor] == s.parts[..floor];
    assert base.parts == s.parts[..floor][..|base.parts|];
    assert base.parts <= t.parts;
  }

  lemma ApplyAboveSpan(s: State, base: State, budget: int, handle: nat, op: Op)
    requires Valid(s, budget) && SpanOver(s, base, handle)
    requires op.DoTake? ==> op.handle > handle
    ensures SpanOver(Apply(s, budget, op), base, handle)
  {
    match op
    case DoWrite(text) =>
    case DoBreak(count) => BreakAboveSpan(s, base, budget, handle, count);
    case DoOpen =>
    case DoTake(other) =>
      if other < |s.marks| { assert s.marks[handle] <= s.marks[other]; }
    case DoPreserve(_) =>
  }

  lemma {:induction false} RunAboveSpan(s: State, base: State, budget: int, handle: nat, ops: seq<Op>)
    requires Valid(s, budget) && SpanOver(s, base, handle)
    requires forall i :: 0 <= i < |ops| && ops[i].DoTake? ==> ops[i].handle > handle
    ensures SpanOver(Run(s, budget, ops), base, handle)
    decreases |ops|
  {
    if ops != [] {
      ApplyKeeps(s, budget, ops[0]);
      ApplyAboveSpan(s, base, budget, handle, ops[0]);
      RunAboveSpan(Apply(s, budget, ops[0]), base, budget, handle, ops[1..]);
    }
  }

  /**
   * Whatever is written, broken, opened and taken inside a span, taking the span returns exactly what
   * the output gained and puts back the state it was opened in.
   */
  lemma TakeRestores(base: State, budget: int, ops: seq<Op>)
    requires Valid(base, budget)
    requires forall i :: 0 <= i < |ops| && ops[i].DoTake? ==> ops[i].handle > |base.marks|
    ensures Valid(Open(base), budget)
    ensures var s := Run(Open(base), budget, ops);
            var handle := |base.marks|;
            && MarkOf(s, handle) <= |s.parts|
            && Take(s, handle) == base.(truncated := s.truncated, preserve := s.preserve)
            && Join(s.parts) == Join(base.parts) + TakenText(s, handle)
  {
    var handle := |base.marks|;
    RunAboveSpan(Open(base), base, budget, handle, ops);
    TakeKeeps(Run(Open(base), budget, ops), budget, handle);
  }

  class Writer {
    var parts: seq<Text>
    var newlinesAfter: seq<nat>
    var marks: seq<nat>
    var length: nat
    var truncated: bool
    var preserve: bool
    const maxCharacters: int

    ghost function Now(): State
      reads this
    {
      State(parts, marks, truncated, preserve)
    }

    /** The cached counts are those of the parts. */
    ghost predicate Sound()
      reads this
    {
      newlinesAfter == Counts(parts) && length == |Join(parts)| && Valid(Now(), maxCharacters)
    }

    constructor (maxCharacters: int)
      ensures Sound() && Now() == INITIAL && this.maxCharacters == maxCharacters
    {
      parts, newlinesAfter, marks, length, truncated, preserve := [], [], [], 0, false, false;
      this.maxCharacters := maxCharacters;
    }

    function TrailingNewlines(): nat
      reads this
    {
      if newlinesAfter == [] then 0 else newlinesAfter[|newlinesAfter| - 1]
    }

    predicate AtLineStart()
      reads this
    {
      parts == [] || TrailingNewlines() > 0
    }

    predicate EndsWithSpace()
      reads this
    {
      parts != [] && var last := parts[|parts| - 1]; last != [] && last[|last| - 1] == SPACE
    }

    /** The two cached readings are facts of the output itself. */
    lemma ReadingsAreTrue()
      requires Sound()
      ensures TrailingNewlines() == Trailing(Join(parts), LF)
      ensures EndsWithSpace() <==> EndsSpaced(Now())
      ensures AtLineStart() <==> AtStart(Now())
    {
      if parts != [] {
        var last := parts[|parts| - 1];
        assert last in parts && Join(parts)[|Join(parts)| - 1] == last[|last| - 1];
      }
    }

    /** The part of a text the budget has room for; a cut sets `truncated`. */
    method CutToRoom(text: Text) returns (piece: Text)
      modifies this`truncated
      ensures piece == Fitting(text, maxCharacters - length)
      ensures truncated == (old(truncated) || |text| > maxCharacters - length)
    {
      piece := text;
      var room := maxCharacters - length;
      if |piece| > room {
        truncated := true;
        var cut := if room < 0 then 0 else room;
        if cut > 0 && IsHighSurrogate(piece[cut - 1]) {
          cut := cut - 1;
        }
        piece := piece[..cut];
      }
    }

    method CountNewlines(piece: Text) returns (index: nat)
      requires piece != []
      ensures index <= |piece| && |piece| - index == Trailing(piece, LF)
    {
      index := |piece|;
      while index > 0 && piece[index - 1] == LF
        invariant 0 <= index <= |piece|
        invariant forall i :: index <= i < |piece| ==> piece[i] == LF
      {
        index := index - 1;
      }
      TrailingIs(piece, LF, |piece| - index);
    }

    method PushPiece(piece: Text)
      requires newlinesAfter == Counts(parts) && length == |Join(parts)| && piece != []
      modifies this`parts, this`newlinesAfter, this`length
      ensures newlinesAfter == Counts(parts) && length == |Join(parts)| && parts == old(parts) + [piece]
    {
      var index := CountNewlines(piece);
      var count := if index == 0 then TrailingNewlines() + |piece| else |piece| - index;
      CountOfPush(parts, newlinesAfter, piece, index, count);
      newlinesAfter := newlinesAfter + [count];
      parts := parts + [piece];
      length := length + |piece|;
    }

    /** The fields a write touches, with what it means left to `WriteText`. */
    method WriteFields(text: Text)
      requires newlinesAfter == Counts(parts) && length == |Join(parts)|
      modifies this`parts, this`newlinesAfter, this`length, this`truncated
      ensures newlinesAfter == Counts(parts) && length == |Join(parts)|
      ensures parts == Pushed(old(parts), Fitting(text, maxCharacters - |Join(old(parts))|))
      ensures truncated == (old(truncated) || |text| > maxCharacters - |Join(old(parts))|)
    {
      var piece := CutToRoom(text);
      if piece != [] {
        PushPiece(piece);
      }
    }

    method WriteText(text: Text)
      requires Sound()
      modifies this
      ensures Sound() && Now() == Write(old(Now()), maxCharacters, text)
    {
      ghost var before := Now();
      WriteKeeps(before, maxCharacters, text);
      if text == [] {
        assert Write(before, maxCharacters, text) == before;
        return;
      }
      WriteFields(text);
      WriteParts(before, maxCharacters, text, Now());
    }

    method PopPart()
      requires newlinesAfter == Counts(parts) && length == |Join(parts)| && parts != []
      modifies this`parts, this`newlinesAfter, this`length
      ensures newlinesAfter == Counts(parts) && length == |Join(parts)| && Now() == Pop(old(Now()))
    {
      var last := parts[|parts| - 1];
      parts, newlinesAfter := parts[..|parts| - 1], newlinesAfter[..|parts| - 1];
      length := length - |last|;
    }

    /** One part of the trim; `more` when all of it was spaces. */
    method TrimPart() returns (more: bool)
      requires newlinesAfter == Counts(parts) && length == |Join(parts)| && |parts| > Floor(Now())
      modifies this`parts, this`newlinesAfter, this`length
      ensures newlinesAfter == Counts(parts) && length == |Join(parts)|
      ensures if more then Now() == old(Pop(Now())) && TrimLineEnd(Now()) == old(TrimLineEnd(Now()))
              else Now() == old(TrimLineEnd(Now()))
    {
      var last := parts[|parts| - 1];
      var index := |last|;
      while index > 0 && last[index - 1] == SPACE
        invariant 0 <= index <= |last|
        invariant forall i :: index <= i < |last| ==> last[i] == SPACE
      {
        index := index - 1;
      }
      TrailingIs(last, SPACE, |last| - index);
      if index == |last| {
        return false;
      }
      PopPart();
      more := index == 0;
      if !more {
        // What is left always fits, so the write the source makes here cuts nothing.
        PushPiece(last[..index]);
      }
    }

    method TrimSpaces()
      requires Sound()
      modifies this
      ensures Sound() && Now() == TrimLineEnd(old(Now()))
    {
      TrimLineEndKeeps(Now(), maxCharacters);
      var floor := if marks == [] then 0 else marks[|marks| - 1];
      var more := true;
      while more && |parts| > floor
        invariant newlinesAfter == Counts(parts) && length == |Join(parts)| && floor == Floor(Now())
        invariant if more then TrimLineEnd(Now()) == TrimLineEnd(old(Now())) else Now() == TrimLineEnd(old(Now()))
        decreases more, |parts|
      {
        more := TrimPart();
      }
    }

    method Break(count: nat)
      requires Sound()
      modifies this
      ensures Sound() && Now() == BreakLines(old(Now()), maxCharacters, count)
    {
      ghost var before := Now();
      TrimLineEndKeeps(before, maxCharacters);
      if !preserve {
        TrimSpaces();
      }
      ReadingsAreTrue();
      BreakLinesIs(before, maxCharacters, count, Now(), TrailingNewlines());
      if parts != [] && TrailingNewlines() < count {
        WriteText(Repeat(LF, count - TrailingNewlines()));
      }
    }

    method SetPreserve(preserve: bool)
      requires Sound()
      modifies this`preserve
      ensures Sound() && Now() == old(Now()).(preserve := preserve)
    {
      this.preserve := preserve;
    }

    method OpenSpan() returns (handle: nat)
      requires Sound()
      modifies this
      ensures Sound() && Now() == Open(old(Now())) && handle == |old(marks)|
    {
      marks := marks + [|parts|];
      handle := |marks| - 1;
    }

    method TakeSpan(handle: nat) returns (taken: Text)
      requires Sound()
      modifies this
      ensures Sound() && old(MarkOf(Now(), handle) <= |parts|)
      ensures taken == TakenText(old(Now()), handle) && Now() == Take(old(Now()), handle)
    {
      TakeKeeps(Now(), maxCharacters, handle);
      var mark := if handle < |marks| then marks[handle] else |parts|;
      marks := marks[..if |marks| < handle then |marks| else handle];
      taken := SplitParts(mark);
    }

    method SplitParts(mark: nat) returns (taken: Text)
      requires newlinesAfter == Counts(parts) && length == |Join(parts)| && mark <= |parts|
      modifies this`parts, this`newlinesAfter, this`length
      ensures newlinesAfter == Counts(parts) && length == |Join(parts)|
      ensures parts == old(parts)[..mark] && taken == Join(old(parts)[mark..])
    {
      CountsOfPrefix(parts, mark);
      JoinSplit(parts, mark);
      taken := Join(parts[mark..]);
      parts := parts[..mark];
      newlinesAfter := newlinesAfter[..mark];
      length := length - |taken|;
    }

    method Result() returns (r: Text)
      requires Sound()
      ensures r == Trim(Join(parts)) && |r| <= Cap(maxCharacters)
    {
      r := Trim(Join(parts));
    }
  }
}
