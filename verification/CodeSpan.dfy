/** The code spans html-markdown.ts prints, read back by section 6.1 of CommonMark 0.31.2. */
module CodeSpan {
  import opened Utf16

  const BACKTICK: Unit := 0x60

  ghost predicate AllBackticks(s: Text, i: int, j: int)
    requires 0 <= i <= j <= |s|
  {
    forall k :: i <= k < j ==> s[k] == BACKTICK
  }

  /** No stretch of backticks in `s` is longer than `n`. */
  ghost predicate RunsAtMost(s: Text, n: nat) {
    forall i, j :: 0 <= i <= j <= |s| && AllBackticks(s, i, j) ==> j - i <= n
  }

  /** A delimiter of backticks longer than any run of backticks inside the text, and of at least `minimum`. */
  method BacktickFence(text: Text, minimum: nat) returns (fence: Text)
    ensures fence == Fence(text, minimum)
  {
    var longest, run := 0, 0;
    for index := 0 to |text|
      invariant run == RunEndingAt(text, index) <= longest == LongestRun(text[..index])
    {
      assert text[..index + 1][..index] == text[..index];
      RunOfPrefix(text, index + 1, index);
      run := if text[index] == BACKTICK then run + 1 else 0;
      if run > longest {
        longest := run;
      }
    }
    assert text[..|text|] == text;
    fence := Repeat(BACKTICK, if minimum > longest + 1 then minimum else longest + 1);
  }

  /** Backticks right before position `i`. */
  function RunEndingAt(s: Text, i: nat): (n: nat)
    requires i <= |s|
    ensures n <= i && AllBackticks(s, i - n, i) && (n < i ==> s[i - n - 1] != BACKTICK)
  {
    if i > 0 && s[i - 1] == BACKTICK then RunEndingAt(s, i - 1) + 1 else 0
  }

  lemma {:induction false} RunOfPrefix(s: Text, k: nat, i: nat)
    requires i <= k <= |s|
    ensures RunEndingAt(s[..k], i) == RunEndingAt(s, i)
  {
    if i > 0 { RunOfPrefix(s, k, i - 1); }
  }

  function LongestRun(s: Text): nat {
    if s == [] then 0
    else
      var front, here := LongestRun(s[..|s| - 1]), RunEndingAt(s, |s|);
      if here > front then here else front
  }

  lemma {:induction false} LongestRunBounds(s: Text)
    ensures RunsAtMost(s, LongestRun(s))
  {
    if s != [] {
      var front := s[..|s| - 1];
      LongestRunBounds(front);
      forall i, j | 0 <= i <= j <= |s| && AllBackticks(s, i, j)
        ensures j - i <= LongestRun(s)
      {
        if j < |s| {
          assert AllBackticks(front, i, j);
        }
      }
    }
  }

  function Fence(text: Text, minimum: nat): (fence: Text)
    ensures |fence| >= minimum && |fence| > LongestRun(text) && AllBackticks(fence, 0, |fence|)
  {
    Repeat(BACKTICK, if minimum > LongestRun(text) + 1 then minimum else LongestRun(text) + 1)
  }

  function Pad(text: Text): Text
    requires text != []
  {
    if text[0] == BACKTICK || text[|text| - 1] == BACKTICK then [SPACE] else []
  }

  function Body(text: Text): Text
    requires text != []
  {
    Pad(text) + text + Pad(text)
  }

  /** The printed span. */
  function Print(text: Text): Text
    requires text != []
  {
    Fence(text, 1) + Body(text) + Fence(text, 1)
  }

  method PrintSpan(text: Text) returns (span: Text)
    requires text != []
    ensures span == Print(text)
  {
    var fence := BacktickFence(text, 1);
    var pad := if text[0] == BACKTICK || text[|text| - 1] == BACKTICK then [SPACE] else [];
    span := fence + (pad + text + pad) + fence;
  }

  // The reader.

  /** The length of the backtick string at `i`. */
  function RunAt(s: Text, i: nat): (n: nat)
    requires i <= |s|
    ensures i + n <= |s| && AllBackticks(s, i, i + n) && (i + n < |s| ==> s[i + n] != BACKTICK)
    decreases |s| - i
  {
    if i < |s| && s[i] == BACKTICK then RunAt(s, i + 1) + 1 else 0
  }

  lemma RunIs(s: Text, i: nat, n: nat)
    requires i + n <= |s| && AllBackticks(s, i, i + n) && (i + n < |s| ==> s[i + n] != BACKTICK)
    ensures RunAt(s, i) == n
  {
    var r := RunAt(s, i);
  }

  /** The first backtick string of exactly `n` at or after `i`, which must not be inside one; -1 when none. */
  function Closer(s: Text, i: nat, n: nat): (r: int)
    requires i <= |s|
    ensures r == -1 || i <= r <= |s|
    decreases |s| - i
  {
    if i == |s| then -1
    else if s[i] != BACKTICK then Closer(s, i + 1, n)
    else if RunAt(s, i) == n then i
    else Closer(s, i + RunAt(s, i), n)
  }

  function LineEndingsAsSpaces(s: Text): (t: Text)
    ensures |t| == |s|
  {
    seq(|s|, i requires 0 <= i < |s| => if s[i] == LF || s[i] == CR then SPACE else s[i])
  }

  predicate AllSpaces(s: Text) { forall i :: 0 <= i < |s| ==> s[i] == SPACE }

  /** One space goes from each end when both ends have one and there is something else. */
  function Stripped(s: Text): Text {
    if |s| >= 2 && s[0] == SPACE && s[|s| - 1] == SPACE && !AllSpaces(s) then s[1..|s| - 1] else s
  }

  datatype Parsed = NoSpan | Span(content: Text, length: nat)

  function ParseCodeSpan(s: Text): Parsed {
    var n := RunAt(s, 0);
    var close := Closer(s, n, n);
    if n == 0 || close == -1 then NoSpan else Span(Stripped(LineEndingsAsSpaces(s[n..close])), close + n)
  }

  /** Nothing between `i` and `k` is a backtick string of `n`, so the closer is the one at `k`. */
  lemma {:induction false} CloserAt(s: Text, i: nat, k: nat, n: nat)
    requires i <= k && k + n <= |s| && n > 0
    requires AllBackticks(s, k, k + n) && (k + n < |s| ==> s[k + n] != BACKTICK)
    requires i < k ==> s[k - 1] != BACKTICK
    requires forall a, b :: i <= a <= b <= k && AllBackticks(s, a, b) ==> b - a < n
    ensures Closer(s, i, n) == k
    decreases k - i
  {
    if i == k {
      RunIs(s, k, n);
    } else if s[i] != BACKTICK {
      CloserAt(s, i + 1, k, n);
    } else {
      var r := RunAt(s, i);
      assert AllBackticks(s, i, i + r);
      CloserAt(s, i + r, k, n);
    }
  }

  lemma BodyReads(text: Text)
    requires text != [] && !IsSpace(text[0]) && !IsSpace(text[|text| - 1])
    requires forall i :: 0 <= i < |text| ==> text[i] != LF && text[i] != CR
    ensures Stripped(LineEndingsAsSpaces(Body(text))) == text
    ensures Body(text)[0] != BACKTICK && Body(text)[|Body(text)| - 1] != BACKTICK
  {
    if Pad(text) == [] {
      assert Body(text) == text;
      assert LineEndingsAsSpaces(text) == text;
      assert Stripped(text) == text;
    } else {
      PaddedReads(text);
    }
  }

  lemma PaddedReads(text: Text)
    requires text != [] && text[0] != SPACE
    requires forall i :: 0 <= i < |text| ==> text[i] != LF && text[i] != CR
    ensures Stripped(LineEndingsAsSpaces([SPACE] + text + [SPACE])) == text
  {
    var body := [SPACE] + text + [SPACE];
    assert LineEndingsAsSpaces(body) == body;
    assert body[1] != SPACE;
    assert body[1..|body| - 1] == text;
  }

  lemma BodyRuns(text: Text, fence: nat)
    requires text != [] && fence > LongestRun(text)
    ensures forall a, b :: 0 <= a <= b <= |Body(text)| && AllBackticks(Body(text), a, b) ==> b - a < fence
  {
    var body, p := Body(text), |Pad(text)|;
    assert body[p..p + |text|] == text;
    LongestRunBounds(text);
    RunsShift(body, text, p, fence);
    forall a, b | 0 <= a <= b <= |body| && AllBackticks(body, a, b)
      ensures b - a < fence
    {
      if p == 1 && a < b {
        assert body[0] == SPACE && body[|body| - 1] == SPACE;
        assert a >= 1 && b <= |body| - 1;
      }
    }
  }

  /** Delimiter, body, the same delimiter: the reader finds exactly the body. */
  lemma DelimitedBody(fence: Text, body: Text, rest: Text)
    requires fence != [] && AllBackticks(fence, 0, |fence|)
    requires body != [] && body[0] != BACKTICK && body[|body| - 1] != BACKTICK
    requires forall a, b :: 0 <= a <= b <= |body| && AllBackticks(body, a, b) ==> b - a < |fence|
    requires rest == [] || rest[0] != BACKTICK
    ensures var s := fence + body + fence + rest;
            ParseCodeSpan(s) == Span(Stripped(LineEndingsAsSpaces(body)), 2 * |fence| + |body|)
  {
    var s, n := fence + body + fence + rest, |fence|;
    var k := n + |body|;
    assert s[n..k] == body;
    assert s[n] == body[0] && s[k - 1] == body[|body| - 1];
    assert s[k..k + n] == fence;
    assert k + n < |s| ==> s[k + n] == rest[0];
    RunIs(s, 0, n);
    RunsShift(s, body, n, n);
    CloserAt(s, n, k, n);
  }

  lemma RunsShift(s: Text, body: Text, at: nat, n: nat)
    requires at + |body| <= |s| && s[at..at + |body|] == body
    requires forall a, b :: 0 <= a <= b <= |body| && AllBackticks(body, a, b) ==> b - a < n
    ensures forall a, b :: at <= a <= b <= at + |body| && AllBackticks(s, a, b) ==> b - a < n
  {
    forall a, b | at <= a <= b <= at + |body| && AllBackticks(s, a, b)
      ensures b - a < n
    {
      assert forall k :: 0 <= k < |body| ==> body[k] == s[at + k];
      assert AllBackticks(body, a - at, b - at);
    }
  }

  /**
   * A printed span reads back as its text: for every non-empty trimmed text without line breaks,
   * whatever follows the span short of another backtick.
   */
  lemma PrintParses(text: Text, rest: Text)
    requires text != [] && !IsSpace(text[0]) && !IsSpace(text[|text| - 1])
    requires forall i :: 0 <= i < |text| ==> text[i] != LF && text[i] != CR
    requires rest == [] || rest[0] != BACKTICK
    ensures ParseCodeSpan(Print(text) + rest) == Span(text, |Print(text)|)
  {
    var fence := Fence(text, 1);
    BodyReads(text);
    BodyRuns(text, |fence|);
    DelimitedBody(fence, Body(text), rest);
    assert Print(text) + rest == fence + Body(text) + fence + rest;
  }
}
