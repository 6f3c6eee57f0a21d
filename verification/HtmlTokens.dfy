/** The forward-only tokenizer of html-text.ts: what it yields, that it tiles the page, and what it reads. */
module HtmlTokens {
  import opened Utf16
  import opened HtmlStandard
  import opened HtmlTagEnd
  import opened Wrappers

  /**
   * The first occurrence of a pattern at or after a position, cached. `examined` counts the positions
   * its searches looked at; while callers move forward it never passes the frontier of the cache.
   */
  class ForwardFinder {
    const html: Text
    const pattern: Text
    var cacheFrom: int
    var cacheAt: int
    ghost var examined: nat

    ghost predicate Valid()
      reads this
    {
      cacheFrom == -1 || (0 <= cacheFrom && cacheAt == IndexOf(html, pattern, cacheFrom))
    }

    ghost function Frontier(): nat
      reads this
    {
      if cacheFrom < 0 then 0 else if cacheAt < 0 then |html| else cacheAt + 1
    }

    constructor (html: Text, pattern: Text)
      ensures this.html == html && this.pattern == pattern
      ensures Valid() && cacheFrom == -1 && examined == 0
    {
      this.html, this.pattern := html, pattern;
      cacheFrom, cacheAt, examined := -1, -1, 0;
    }

    /** Every answer is a fresh `indexOf`; forward calls examine each position of the page at most once. */
    method Find(from: nat) returns (at: int)
      requires Valid()
      modifies this
      ensures Valid() && at == IndexOf(html, pattern, from)
      ensures old(cacheFrom) <= from ==> cacheFrom <= from
      ensures pattern != [] && old(cacheFrom) <= from && old(examined <= Frontier()) ==> examined <= Frontier()
    {
      if cacheFrom != -1 && from >= cacheFrom && (cacheAt == -1 || cacheAt >= from) {
        IndexOfLater(html, pattern, cacheFrom, from);
        return cacheAt;
      }
      cacheFrom := from;
      cacheAt := IndexOf(html, pattern, from);
      examined := examined + if cacheAt != -1 then cacheAt + 1 - from else if from < |html| then |html| - from else 0;
      return cacheAt;
    }
  }

  /** A find is still the answer for every later position up to it. */
  lemma {:induction false} IndexOfLater(html: Text, pattern: Text, from: nat, later: nat)
    requires from <= later
    requires var at := IndexOf(html, pattern, from); at == -1 || later <= at
    ensures IndexOf(html, pattern, later) == IndexOf(html, pattern, from)
    decreases later - from
  {
    if from < later {
      IndexOfLater(html, pattern, from + 1, later);
    }
  }

  datatype Token =
    | Plain(from: nat, to: nat)
    | Cdata(from: nat, to: nat, contentTo: nat)
    | RawText(from: nat, to: nat)
    | Tag(from: nat, to: nat, closing: bool, name: Text, selfClosing: bool)
    | Skip(from: nat, to: nat)

  const SVG: Text := [0x73, 0x76, 0x67]
  const MATH: Text := [0x6d, 0x61, 0x74, 0x68]
  const TITLE: Text := [0x74, 0x69, 0x74, 0x6c, 0x65]
  const TEXTAREA: Text := [0x74, 0x65, 0x78, 0x74, 0x61, 0x72, 0x65, 0x61]
  const COMMENT_OPEN: Text := [LESS, BANG, DASH, DASH]
  const CDATA_OPEN: Text := [LESS, BANG, 0x5b, 0x43, 0x44, 0x41, 0x54, 0x41, 0x5b]
  const CDATA_CLOSE: Text := [0x5d, 0x5d, GREATER]
  const LONG_S: Unit := 0x17f
  const KELVIN: Unit := 0x212a

  predicate Foreign(name: Text) { name == SVG || name == MATH }

  predicate TextOnly(name: Text) { name == TITLE || name == TEXTAREA }

  function Lower(u: Unit): Unit { if 0x41 <= u <= 0x5a then u + 0x20 else if u == KELVIN then 0x6b else u }

  function LowerName(s: Text): (t: Text)
    ensures |t| == |s| && forall i :: 0 <= i < |s| ==> t[i] == Lower(s[i])
  {
    seq(|s|, i requires 0 <= i < |s| => Lower(s[i]))
  }

  /** Equality under the flags `iu`: simple case folding also joins U+017F to `s` and U+212A to `k`. */
  predicate Folds(u: Unit, letter: Unit) { Lower(u) == Lower(letter) || (u == LONG_S && Lower(letter) == 0x73) }

  predicate NextIs(html: Text, i: nat, u: Unit) { i + 1 < |html| && html[i + 1] == u }

  function NameStart(html: Text, i: nat): nat { i + if NextIs(html, i, SOLIDUS) then 2 else 1 }

  /** Markup starts at a `<` followed by `!`, `?` or an optional `/` and a letter. */
  predicate MarkupAt(html: Text, i: nat) {
    i < |html| && html[i] == LESS &&
    (NextIs(html, i, BANG) || NextIs(html, i, QUESTION) ||
     (NameStart(html, i) < |html| && IsAsciiAlpha(html[NameStart(html, i)])))
  }

  /** The program and the standard see markup at the same `<`, except at `</` before a unit that is no letter. */
  lemma OpensExactly(html: Text, i: nat)
    requires i < |html| && html[i] == LESS
    ensures (MarkupAt(html, i) <==> TagOpen(html, i) != LessThanText) <==>
            !(NextIs(html, i, SOLIDUS) && i + 2 < |html| && !IsAsciiAlpha(html[i + 2]))
    ensures IsTag(html, i) <==> TagOpen(html, i) == OpensStartTag || TagOpen(html, i) == OpensEndTag
  {
  }

  /** `</3>` is text for the program and a comment for the standard. */
  lemma EndTagOpenDiffers()
    ensures var html: Text := [LESS, SOLIDUS, 0x33, GREATER];
            !MarkupAt(html, 0) && TagOpen(html, 0) == BogusComment
  {
  }

  /** The `>` of the tag at `i`, where the tokenizer of the standard emits it; -1 when the page ends first. */
  function StandardEnd(html: Text, i: nat): int { EndOf(RunTag(html, NameStart(html, i), TagName)) }

  function NameOf(html: Text, i: nat): Text
    requires NameStart(html, i) <= |html|
  {
    LowerName(html[NameStart(html, i)..NameEnd(html, NameStart(html, i))])
  }

  /** `</name` with a delimiter behind it, under the folding of the program's pattern. */
  predicate EndTagAt(html: Text, name: Text, i: nat) {
    && i + 2 + |name| < |html|
    && html[i] == LESS && html[i + 1] == SOLIDUS
    && (forall k :: 0 <= k < |name| ==> Folds(html[i + 2 + k], name[k]))
    && IsNameDelimiter(html[i + 2 + |name|])
  }

  predicate IsAsciiLower(name: Text) { forall k :: 0 <= k < |name| ==> 0x61 <= name[k] <= 0x7a }

  /** The same end tag compared as the standard does: ASCII letters without case, nothing else. */
  predicate StandardEndTagAt(html: Text, name: Text, i: nat) {
    && i + 2 + |name| < |html|
    && html[i] == LESS && html[i + 1] == SOLIDUS
    && (forall k :: 0 <= k < |name| ==>
          html[i + 2 + k] == name[k] || (0x41 <= html[i + 2 + k] <= 0x5a && html[i + 2 + k] + 0x20 == name[k]))
    && IsNameDelimiter(html[i + 2 + |name|])
  }

  predicate HasFoldedLetter(html: Text, from: nat, to: nat) {
    exists k :: from <= k < to && k < |html| && (html[k] == LONG_S || html[k] == KELVIN)
  }

  /** The program's pattern ends an element where the standard does, except at a name written with U+017F or U+212A. */
  lemma EndTagExactly(html: Text, name: Text, i: nat)
    requires IsAsciiLower(name)
    ensures (EndTagAt(html, name, i) <==> StandardEndTagAt(html, name, i)) <==>
            !(EndTagAt(html, name, i) && HasFoldedLetter(html, i + 2, i + 2 + |name|))
  {
    if EndTagAt(html, name, i) && HasFoldedLetter(html, i + 2, i + 2 + |name|) {
      var k :| i + 2 <= k < i + 2 + |name| && k < |html| && (html[k] == LONG_S || html[k] == KELVIN);
      var m := k - i - 2;
      assert html[i + 2 + m] == html[k] && 0x61 <= name[m] <= 0x7a;
    } else if EndTagAt(html, name, i) {
      forall k | 0 <= k < |name|
        ensures html[i + 2 + k] == name[k] || (0x41 <= html[i + 2 + k] <= 0x5a && html[i + 2 + k] + 0x20 == name[k])
      {
        assert Folds(html[i + 2 + k], name[k]);
      }
    }
  }

  /** A name written with U+017F (long s) where `s` stands ends the element for the program only. */
  lemma LongSEndsElement()
    ensures var html: Text := [LESS, SOLIDUS, LONG_S, 0x76, 0x67, GREATER];
            EndTagAt(html, SVG, 0) && !StandardEndTagAt(html, SVG, 0)
  {
    var html: Text := [LESS, SOLIDUS, LONG_S, 0x76, 0x67, GREATER];
    assert Folds(html[2], SVG[0]) && Folds(html[3], SVG[1]) && Folds(html[4], SVG[2]);
    assert html[0 + 2 + 0] == LONG_S && SVG[0] == 0x73;
  }

  function FirstEndTag(html: Text, name: Text, from: nat): (r: int)
    ensures r != -1 ==> from <= r && EndTagAt(html, name, r)
    ensures forall i :: from <= i && (r == -1 || i < r) ==> !EndTagAt(html, name, i)
    decreases |html| - from
  {
    if from >= |html| then -1 else if EndTagAt(html, name, from) then from else FirstEndTag(html, name, from + 1)
  }

  /** Where the content of an element ends and where its end tag is over. */
  datatype ElementEnd = Missing | EndTag(contentEnd: nat, after: nat)

  function ElementEndOf(html: Text, name: Text, from: nat): (r: ElementEnd)
    ensures r.EndTag? ==> from <= r.contentEnd < r.after <= |html|
  {
    var found := FirstEndTag(html, name, from);
    if found == -1 then Missing
    else
      var end := EndOf(RunTag(html, found + 2 + |name|, BeforeAttributeName));
      if end == -1 then Missing else EndTag(found, end + 1)
  }

  method FindElementEnd(html: Text, name: Text, from: nat) returns (r: ElementEnd, ghost read: nat)
    requires from <= |html|
    ensures r == ElementEndOf(html, name, from)
    ensures read <= if r.EndTag? then r.after - from else |html| - from
  {
    var found := FirstEndTag(html, name, from);
    if found == -1 {
      return Missing, |html| - from;
    }
    var close, tagRead := TagEnd(html, found + 2 + |name|);
    read := found + 2 + |name| - from + tagRead;
    r := if close == -1 then Missing else EndTag(found, close + 1);
  }

  predicate IsComment(html: Text, i: nat) { At(html, COMMENT_OPEN, i) }

  predicate IsCdata(html: Text, i: nat) { !IsComment(html, i) && At(html, CDATA_OPEN, i) }

  predicate IsDeclaration(html: Text, i: nat) {
    (NextIs(html, i, BANG) || NextIs(html, i, QUESTION)) && !IsComment(html, i) && !IsCdata(html, i)
  }

  predicate IsTag(html: Text, i: nat) { MarkupAt(html, i) && !NextIs(html, i, BANG) && !NextIs(html, i, QUESTION) }

  /** The tag at `i`, ending at `end`, opens an element whose content is dropped. */
  predicate OpensSkipped(html: Text, skipped: set<Text>, i: nat, end: nat)
    requires IsTag(html, i) && 0 < end <= |html|
  {
    var name := NameOf(html, i);
    !NextIs(html, i, SOLIDUS) && name in skipped && !(html[end - 1] == SOLIDUS && Foreign(name))
  }

  /** Markup at `i` that the end of the page cuts off, so nothing of it is yielded. */
  predicate Unterminated(html: Text, skipped: set<Text>, i: nat) {
    MarkupAt(html, i) &&
    (|| (IsComment(html, i) && i + 4 <= |html| && RunComment(html, i + 4, CommentStart) == -1)
     || (IsDeclaration(html, i) && IndexOf(html, [GREATER], i + 2) == -1)
     || (IsTag(html, i) && TagCutOff(html, skipped, i)))
  }

  /** A tag without its `>`, or a dropped element without its end tag. */
  predicate TagCutOff(html: Text, skipped: set<Text>, i: nat)
    requires IsTag(html, i)
  {
    var end := StandardEnd(html, i);
    end == -1 ||
    (0 < end < |html| && OpensSkipped(html, skipped, i, end) && ElementEndOf(html, NameOf(html, i), end + 1) == Missing)
  }

  predicate IsSkippedElement(html: Text, skipped: set<Text>, from: nat, to: nat)
    requires IsTag(html, from)
  {
    var end := StandardEnd(html, from);
    0 < end < |html| && OpensSkipped(html, skipped, from, end) &&
    var e := ElementEndOf(html, NameOf(html, from), end + 1);
    e.EndTag? && to == e.after
  }

  /** What must stand next: text or markup, the text of a title or textarea, or the end tag of one. */
  datatype Expected = Anything | ContentOf(name: Text) | EndTagOf(name: Text)

  function Expects(tokens: seq<Token>, i: nat): Expected
    requires i <= |tokens|
  {
    if i == 0 then Anything
    else match tokens[i - 1]
      case Tag(_, _, closing, name, _) => if !closing && TextOnly(name) then ContentOf(name) else Anything
      case RawText(_, _) => if i > 1 && tokens[i - 2].Tag? then EndTagOf(tokens[i - 2].name) else Anything
      case _ => Anything
  }

  /** What a token is, in terms of the page and of what is expected where it stands. */
  predicate TokenOk(html: Text, skipped: set<Text>, expected: Expected, t: Token) {
    t.from <= t.to <= |html| &&
    match expected
    case Anything => MarkupOk(html, skipped, t)
    case ContentOf(name) =>
      var e := ElementEndOf(html, name, t.from);
      t.RawText? && t.to == if e.EndTag? then e.contentEnd else |html|
    case EndTagOf(name) =>
      && t == Tag(t.from, t.to, true, name, false) && EndTagAt(html, name, t.from)
      && t.to - 1 == EndOf(RunTag(html, t.from + 2 + |name|, BeforeAttributeName)) && t.to > 0
  }

  /** Text goes on to the next markup; markup is a CDATA section, a tag, or something dropped as a whole. */
  predicate MarkupOk(html: Text, skipped: set<Text>, t: Token)
    requires t.from <= t.to <= |html|
  {
    match t
    case Plain(from, to) =>
      from < to && (forall i :: from <= i < to ==> !MarkupAt(html, i)) && (to == |html| || MarkupAt(html, to))
    case Cdata(from, to, contentTo) =>
      var close := IndexOf(html, CDATA_CLOSE, from + 9);
      && MarkupAt(html, from) && IsCdata(html, from)
      && if close == -1 then contentTo == to == |html| else contentTo == close && to == close + 3
    case Skip(from, to) =>
      MarkupAt(html, from) && to > 0 &&
      (|| (IsComment(html, from) && from + 4 <= |html| && to == RunComment(html, from + 4, CommentStart) + 1)
       || (IsDeclaration(html, from) && to == IndexOf(html, [GREATER], from + 2) + 1)
       || (IsTag(html, from) && IsSkippedElement(html, skipped, from, to)))
    case RawText(_, _) => false
    case Tag(from, to, closing, name, selfClosing) =>
      to > 0 && html[to - 1] == GREATER &&
      IsTag(html, from) && to - 1 == StandardEnd(html, from) && from < to - 1 &&
      closing == NextIs(html, from, SOLIDUS) && name == NameOf(html, from) &&
      selfClosing == (html[to - 2] == SOLIDUS) && !OpensSkipped(html, skipped, from, to - 1)
  }

  function Covered(tokens: seq<Token>): nat { if tokens == [] then 0 else tokens[|tokens| - 1].to }

  /** Token `i` starts where the one before it ends and is what is expected there. */
  predicate Placed(html: Text, skipped: set<Text>, tokens: seq<Token>, i: nat)
    requires i < |tokens|
  {
    tokens[i].from == (if i == 0 then 0 else tokens[i - 1].to) && TokenOk(html, skipped, Expects(tokens, i), tokens[i])
  }

  /** In order, contiguous from 0, each token what is expected in its place. */
  ghost predicate Tiling(html: Text, skipped: set<Text>, tokens: seq<Token>) {
    forall i {:trigger Placed(html, skipped, tokens, i)} :: 0 <= i < |tokens| ==> Placed(html, skipped, tokens, i)
  }

  /** Nothing is left to yield: the page is over, or the end of the page cuts off the markup that comes next. */
  predicate Complete(html: Text, skipped: set<Text>, tokens: seq<Token>) {
    match Expects(tokens, |tokens|)
    case Anything => Covered(tokens) == |html| || Unterminated(html, skipped, Covered(tokens))
    case ContentOf(_) => false
    case EndTagOf(_) => Covered(tokens) == |html|
  }

  // The tokens of a page are one sequence only

  lemma SameMarkup(html: Text, skipped: set<Text>, t: Token, u: Token)
    requires t.from == u.from && t.from <= t.to <= |html| && u.to <= |html| && u.from <= u.to
    requires MarkupOk(html, skipped, t) && MarkupOk(html, skipped, u)
    ensures t == u
  {
    assert t.Plain? <==> !MarkupAt(html, t.from);
    if t.Plain? && u.Plain? {
      assert t.to < u.to ==> !MarkupAt(html, t.to);
      assert u.to < t.to ==> !MarkupAt(html, u.to);
    } else {
      BangOpens(html, t.from);
      assert t.Cdata? <==> At(html, CDATA_OPEN, t.from) && !IsComment(html, t.from);
      if IsTag(html, t.from) { SameTag(html, skipped, t, u); }
    }
  }

  lemma SameTag(html: Text, skipped: set<Text>, t: Token, u: Token)
    requires t.from == u.from && t.from <= t.to <= |html| && u.to <= |html| && u.from <= u.to && IsTag(html, t.from)
    requires MarkupOk(html, skipped, t) && MarkupOk(html, skipped, u)
    ensures t == u
  {
    BangOpens(html, t.from);
    assert t.Tag? <==> !OpensSkipped(html, skipped, t.from, StandardEnd(html, t.from));
  }

  lemma BangOpens(html: Text, i: nat)
    ensures IsComment(html, i) || At(html, CDATA_OPEN, i) ==> NextIs(html, i, BANG)
  {
    if At(html, COMMENT_OPEN, i) { assert html[i..i + 4][1] == BANG; }
    if At(html, CDATA_OPEN, i) { assert html[i..i + 9][1] == BANG; }
  }

  lemma SameToken(html: Text, skipped: set<Text>, expected: Expected, t: Token, u: Token)
    requires t.from == u.from && TokenOk(html, skipped, expected, t) && TokenOk(html, skipped, expected, u)
    ensures t == u
  {
    if expected.Anything? { SameMarkup(html, skipped, t, u); }
  }

  /** Where one tiling is complete no token can follow. */
  lemma NoneFollows(html: Text, skipped: set<Text>, tokens: seq<Token>, t: Token)
    requires Complete(html, skipped, tokens) && t.from == Covered(tokens)
    ensures !TokenOk(html, skipped, Expects(tokens, |tokens|), t)
  {
    if Expects(tokens, |tokens|).Anything? && t.to <= |html| && t.from <= t.to { NoMarkupFollows(html, skipped, t); }
  }

  lemma NoMarkupFollows(html: Text, skipped: set<Text>, t: Token)
    requires t.from <= t.to <= |html| && (t.from == |html| || Unterminated(html, skipped, t.from))
    ensures !MarkupOk(html, skipped, t)
  {
    if t.from < |html| { BangOpens(html, t.from); }
  }

  lemma SameExpects(a: seq<Token>, b: seq<Token>, i: nat)
    requires i <= |a| && i <= |b| && a[..i] == b[..i]
    ensures Expects(a, i) == Expects(b, i)
  {
    assert i > 0 ==> a[..i][i - 1] == b[..i][i - 1];
    assert i > 1 ==> a[..i][i - 2] == b[..i][i - 2];
  }

  lemma {:induction false} SamePrefix(html: Text, skipped: set<Text>, a: seq<Token>, b: seq<Token>, i: nat)
    requires Tiling(html, skipped, a) && Tiling(html, skipped, b) && i <= |a| && i <= |b|
    ensures a[..i] == b[..i]
    decreases i
  {
    if i > 0 {
      SamePrefix(html, skipped, a, b, i - 1);
      SameNext(html, skipped, a, b, i - 1);
      assert a[..i] == a[..i - 1] + [a[i - 1]] && b[..i] == b[..i - 1] + [b[i - 1]];
    }
  }

  lemma SameNext(html: Text, skipped: set<Text>, a: seq<Token>, b: seq<Token>, i: nat)
    requires Tiling(html, skipped, a) && Tiling(html, skipped, b) && i < |a| && i < |b| && a[..i] == b[..i]
    ensures a[i] == b[i]
  {
    SameExpects(a, b, i);
    assert Placed(html, skipped, a, i) && Placed(html, skipped, b, i);
    assert i > 0 ==> a[..i][i - 1] == b[..i][i - 1];
    SameToken(html, skipped, Expects(a, i), a[i], b[i]);
  }

  lemma NotShorter(html: Text, skipped: set<Text>, a: seq<Token>, b: seq<Token>)
    requires Tiling(html, skipped, a) && Complete(html, skipped, a) && Tiling(html, skipped, b)
    ensures |b| <= |a|
  {
    if |a| < |b| {
      SamePrefix(html, skipped, a, b, |a|);
      SameExpects(a, b, |a|);
      assert Placed(html, skipped, b, |a|);
      assert a[..|a|] == a && (|a| > 0 ==> b[..|a|][|a| - 1] == a[|a| - 1]);
      NoneFollows(html, skipped, a, b[|a|]);
    }
  }

  /** A page has one complete tiling: kinds, ranges, names and flags of its tokens are all determined. */
  lemma OneTiling(html: Text, skipped: set<Text>, a: seq<Token>, b: seq<Token>)
    requires Tiling(html, skipped, a) && Complete(html, skipped, a)
    requires Tiling(html, skipped, b) && Complete(html, skipped, b)
    ensures a == b
  {
    NotShorter(html, skipped, a, b);
    NotShorter(html, skipped, b, a);
    SamePrefix(html, skipped, a, b, |a|);
    assert a[..|a|] == a && b[..|a|] == b;
  }

  lemma OnlyTiling(html: Text, skipped: set<Text>, tokens: seq<Token>)
    requires Tiling(html, skipped, tokens) && Complete(html, skipped, tokens)
    ensures forall other :: Tiling(html, skipped, other) && Complete(html, skipped, other) ==> other == tokens
  {
    forall other | Tiling(html, skipped, other) && Complete(html, skipped, other) ensures other == tokens {
      OneTiling(html, skipped, other, tokens);
    }
  }

  /** An opening title or textarea is followed by its text, up to its end tag or the page end, and by that end tag. */
  lemma TextOnlyHoldsText(html: Text, skipped: set<Text>, tokens: seq<Token>, i: nat)
    requires Tiling(html, skipped, tokens) && Complete(html, skipped, tokens)
    requires i < |tokens| && tokens[i].Tag? && !tokens[i].closing && tokens[i].name in {TITLE, TEXTAREA}
    ensures i + 1 < |tokens| && tokens[i + 1].RawText? && tokens[i + 1].from == tokens[i].to
    ensures match ElementEndOf(html, tokens[i].name, tokens[i].to)
            case Missing => i + 2 == |tokens| && tokens[i + 1].to == |html|
            case EndTag(contentEnd, after) =>
              i + 2 < |tokens| && tokens[i + 1].to == contentEnd
              && tokens[i + 2] == Tag(contentEnd, after, true, tokens[i].name, false)
  {
    assert Expects(tokens, i + 1) == ContentOf(tokens[i].name);
    assert Placed(html, skipped, tokens, i + 1);
    assert Expects(tokens, i + 2) == EndTagOf(tokens[i].name);
    if i + 2 < |tokens| { assert Placed(html, skipped, tokens, i + 2); }
  }

  /** An opening dropped element is one skip up to the end of its own end tag; only SVG and MathML close with a `/`. */
  lemma DroppedAsAWhole(html: Text, skipped: set<Text>, tokens: seq<Token>, i: nat)
    requires Tiling(html, skipped, tokens) && i < |tokens| && Expects(tokens, i).Anything?
    requires IsTag(html, tokens[i].from) && !NextIs(html, tokens[i].from, SOLIDUS) && NameOf(html, tokens[i].from) in skipped
    ensures var end, name := StandardEnd(html, tokens[i].from), NameOf(html, tokens[i].from);
            && 0 < end < |html|
            && if html[end - 1] == SOLIDUS && name in {SVG, MATH} then tokens[i] == Tag(tokens[i].from, end + 1, false, name, true)
               else ElementEndOf(html, name, end + 1).EndTag?
                    && tokens[i] == Skip(tokens[i].from, ElementEndOf(html, name, end + 1).after)
  {
    assert Placed(html, skipped, tokens, i);
    BangOpens(html, tokens[i].from);
  }

  lemma Extend(html: Text, skipped: set<Text>, tokens: seq<Token>, t: Token)
    requires Tiling(html, skipped, tokens) && t.from == Covered(tokens)
    requires TokenOk(html, skipped, Expects(tokens, |tokens|), t)
    ensures Tiling(html, skipped, tokens + [t]) && Covered(tokens + [t]) == t.to
  {
    var all := tokens + [t];
    forall i | 0 <= i < |all|
      ensures Placed(html, skipped, all, i)
    {
      if i < |tokens| {
        assert Placed(html, skipped, tokens, i);
        assert all[i] == tokens[i] && (i > 0 ==> all[i - 1] == tokens[i - 1]);
        assert Expects(all, i) == Expects(tokens, i);
      } else {
        assert all[i] == t && Expects(all, i) == Expects(tokens, i);
      }
    }
  }

  /** Text or markup may follow. */
  predicate Ready(tokens: seq<Token>) { Expects(tokens, |tokens|).Anything? }

  // One lemma per kind of token the scan appends.
  ghost predicate Grown(html: Text, skipped: set<Text>, tokens: seq<Token>, t: Token) {
    Tiling(html, skipped, tokens + [t]) && Covered(tokens + [t]) == t.to
  }

  lemma PushComment(html: Text, skipped: set<Text>, tokens: seq<Token>, open: nat, after: nat)
    requires Tiling(html, skipped, tokens) && Covered(tokens) == open && Ready(tokens) && MarkupAt(html, open) && IsComment(html, open)
    requires open + 4 < after <= |html| && after == RunComment(html, open + 4, CommentStart) + 1
    ensures Grown(html, skipped, tokens, Skip(open, after))
  {
    Extend(html, skipped, tokens, Skip(open, after));
  }

  lemma PushDeclaration(html: Text, skipped: set<Text>, tokens: seq<Token>, open: nat, after: nat)
    requires Tiling(html, skipped, tokens) && Covered(tokens) == open && Ready(tokens) && MarkupAt(html, open) && IsDeclaration(html, open)
    requires open < after <= |html| && after == IndexOf(html, [GREATER], open + 2) + 1
    ensures Grown(html, skipped, tokens, Skip(open, after))
  {
    Extend(html, skipped, tokens, Skip(open, after));
  }

  lemma PushCdata(html: Text, skipped: set<Text>, tokens: seq<Token>, open: nat, contentTo: nat, after: nat)
    requires Tiling(html, skipped, tokens) && Covered(tokens) == open && Ready(tokens) && MarkupAt(html, open) && IsCdata(html, open)
    requires var close := IndexOf(html, CDATA_CLOSE, open + 9);
             if close == -1 then contentTo == after == |html| else contentTo == close && after == close + 3
    ensures open < after <= |html| && Grown(html, skipped, tokens, Cdata(open, after, contentTo))
  {
    Extend(html, skipped, tokens, Cdata(open, after, contentTo));
  }

  lemma PushSkippedElement(html: Text, skipped: set<Text>, tokens: seq<Token>, open: nat, end: nat)
    requires Tiling(html, skipped, tokens) && Covered(tokens) == open && Ready(tokens) && IsTag(html, open)
    requires open < end < |html| && end == StandardEnd(html, open) && OpensSkipped(html, skipped, open, end)
    requires ElementEndOf(html, NameOf(html, open), end + 1).EndTag?
    ensures Grown(html, skipped, tokens, Skip(open, ElementEndOf(html, NameOf(html, open), end + 1).after))
  {
    var after := ElementEndOf(html, NameOf(html, open), end + 1).after;
    assert IsSkippedElement(html, skipped, open, after);
    Extend(html, skipped, tokens, Skip(open, after));
  }

  lemma PushTag(html: Text, skipped: set<Text>, tokens: seq<Token>, open: nat, end: nat)
    requires Tiling(html, skipped, tokens) && Covered(tokens) == open && Ready(tokens) && IsTag(html, open)
    requires open < end < |html| && end == StandardEnd(html, open) && !OpensSkipped(html, skipped, open, end)
    ensures Grown(html, skipped, tokens,
                  Tag(open, end + 1, NextIs(html, open, SOLIDUS), NameOf(html, open), html[end - 1] == SOLIDUS))
  {
    Extend(html, skipped, tokens,
           Tag(open, end + 1, NextIs(html, open, SOLIDUS), NameOf(html, open), html[end - 1] == SOLIDUS));
  }

  lemma PushRawText(html: Text, skipped: set<Text>, tokens: seq<Token>, name: Text, t: Token)
    requires Tiling(html, skipped, tokens) && Expects(tokens, |tokens|) == ContentOf(name)
    requires t.RawText? && t.from == Covered(tokens) <= |html|
    requires var e := ElementEndOf(html, name, t.from); t.to == if e.EndTag? then e.contentEnd else |html|
    ensures Grown(html, skipped, tokens, t) && Expects(tokens + [t], |tokens| + 1) == EndTagOf(name)
  {
    Extend(html, skipped, tokens, t);
  }

  lemma PushEndTag(html: Text, skipped: set<Text>, tokens: seq<Token>, name: Text, from: nat)
    requires Tiling(html, skipped, tokens) && Expects(tokens, |tokens|) == EndTagOf(name)
    requires var e := ElementEndOf(html, name, from); e.EndTag? && Covered(tokens) == e.contentEnd
    ensures var e := ElementEndOf(html, name, from);
            Grown(html, skipped, tokens, Tag(e.contentEnd, e.after, true, name, false))
  {
    var e := ElementEndOf(html, name, from);
    Extend(html, skipped, tokens, Tag(e.contentEnd, e.after, true, name, false));
  }

  lemma OneUnit(html: Text, i: nat)
    requires i < |html|
    ensures At(html, [LESS], i) <==> html[i] == LESS
  {
    assert html[i..i + 1] == [html[i]];
  }

  /** No `<` between a position and the next find means no markup there either. */
  lemma NoMarkupBefore(html: Text, search: nat, open: int)
    requires open == IndexOf(html, [LESS], search)
    ensures forall i :: search <= i < (if open == -1 then |html| else open) ==> !MarkupAt(html, i)
  {
    forall i | search <= i < (if open == -1 then |html| else open)
      ensures !MarkupAt(html, i)
    {
      if i < |html| { OneUnit(html, i); }
    }
  }

  method FlushText(html: Text, ghost skipped: set<Text>, tokens: seq<Token>, textStart: nat, end: nat)
    returns (more: seq<Token>)
    requires Tiling(html, skipped, tokens) && Covered(tokens) == textStart && Ready(tokens)
    requires textStart <= end <= |html| && forall i :: textStart <= i < end ==> !MarkupAt(html, i)
    requires end == |html| || MarkupAt(html, end)
    ensures Tiling(html, skipped, more) && Covered(more) == end && Ready(more)
  {
    more := tokens;
    if end > textStart {
      Extend(html, skipped, tokens, Plain(textStart, end));
      more := more + [Plain(textStart, end)];
    }
  }

  // A finder with a non-empty pattern never looks past the end of the page.
  lemma FrontierInside(finder: ForwardFinder)
    requires finder.Valid() && finder.pattern != []
    ensures finder.Frontier() <= |finder.html|
  {
  }

  method ScanComment(html: Text, open: nat, finders: Finders) returns (after: int)
    requires IsComment(html, open) && finders.html == html && finders.Valid(open)
    modifies finders.Repr
    ensures finders.Valid(open + 4)
    ensures after == RunComment(html, open + 4, CommentStart) + 1 || (after == -1 && RunComment(html, open + 4, CommentStart) == -1)
    ensures after != -1 ==> open + 4 < after <= |html|
  {
    CommentEndsWithStandard(html, open + 4);
    if At(html, [GREATER], open + 4) {
      return open + 5;
    }
    if At(html, [DASH, GREATER], open + 4) {
      return open + 6;
    }
    var plain := finders.plainCommentEnd.Find(open + 4);
    var bang := finders.bangCommentEnd.Find(open + 4);
    if plain == -1 && bang == -1 {
      return -1;
    }
    after := if bang != -1 && (plain == -1 || bang < plain) then bang + 4 else plain + 3;
  }

  /** `<textarea>` and `<title>`: the text up to their own end tag, and that tag. */
  method ScanTextOnly(html: Text, ghost skipped: set<Text>, name: Text, tokens: seq<Token>)
    returns (more: seq<Token>, stop: bool, ghost read: nat)
    requires Tiling(html, skipped, tokens) && Covered(tokens) <= |html| && Expects(tokens, |tokens|) == ContentOf(name)
    ensures Tiling(html, skipped, more) && Covered(tokens) <= Covered(more) <= |html|
    ensures if stop then Covered(more) == |html| && Complete(html, skipped, more) else Ready(more)
    ensures read <= Covered(more) - Covered(tokens)
  {
    var from := Covered(tokens);
    var found, elementRead := FindElementEnd(html, name, from);
    read := elementRead;
    var text := RawText(from, if found.EndTag? then found.contentEnd else |html|);
    PushRawText(html, skipped, tokens, name, text);
    more := tokens + [text];
    stop := found == Missing;
    if !stop {
      PushEndTag(html, skipped, more, name, from);
      more := more + [Tag(found.contentEnd, found.after, true, name, false)];
    }
  }

  /** An element whose content is dropped up to its own end tag. */
  method ScanSkipped(html: Text, skipped: set<Text>, open: nat, end: nat, tokens: seq<Token>)
    returns (more: seq<Token>, stop: bool, ghost read: nat)
    requires IsTag(html, open) && Tiling(html, skipped, tokens) && Covered(tokens) == open && Ready(tokens)
    requires open < end < |html| && end == StandardEnd(html, open) && OpensSkipped(html, skipped, open, end)
    ensures Tiling(html, skipped, more) && Covered(more) <= |html|
    ensures !stop ==> Covered(more) > end && Ready(more) && read <= Covered(more) - end - 1
    ensures stop ==> more == tokens && TagCutOff(html, skipped, open) && read <= |html| - end - 1
  {
    var found;
    found, read := FindElementEnd(html, NameOf(html, open), end + 1);
    stop := found == Missing;
    more := tokens;
    if !stop {
      PushSkippedElement(html, skipped, tokens, open, end);
      more := tokens + [Skip(open, found.after)];
    }
  }

  /** A tag, with the element it opens when the content is dropped or is text only. */
  method ScanTag(html: Text, skipped: set<Text>, open: nat, tokens: seq<Token>)
    returns (more: seq<Token>, stop: bool, ghost read: nat)
    requires IsTag(html, open) && Tiling(html, skipped, tokens) && Covered(tokens) == open && Ready(tokens)
    ensures Tiling(html, skipped, more) && open <= Covered(more) <= |html|
    ensures !stop ==> Covered(more) > open && Ready(more) && read <= Covered(more) - open
    ensures stop ==> read <= |html| + 1 - open && Complete(html, skipped, more)
  {
    var nameStart := NameStart(html, open);
    var nameEnd := NameEnd(html, nameStart);
    NameThenTagEnd(html, nameStart);
    var end, tagRead := TagEnd(html, nameEnd);
    read := nameEnd + 1 - nameStart + tagRead;
    if end == -1 {
      return tokens, true, read;
    }
    var name := NameOf(html, open);
    var closing := NextIs(html, open, SOLIDUS);
    var selfClosing := html[end - 1] == SOLIDUS;
    ghost var elementRead;
    if !closing && name in skipped && !(selfClosing && Foreign(name)) {
      more, stop, elementRead := ScanSkipped(html, skipped, open, end, tokens);
      return more, stop, read + elementRead;
    }
    PushTag(html, skipped, tokens, open, end);
    more, stop := tokens + [Tag(open, end + 1, closing, name, selfClosing)], false;
    if !closing && TextOnly(name) {
      more, stop, elementRead := ScanTextOnly(html, skipped, name, more);
      read := read + elementRead;
    }
  }

  /** The three cached searches of one scan. */
  class Finders {
    const html: Text
    const closeAfter: ForwardFinder
    const plainCommentEnd: ForwardFinder
    const bangCommentEnd: ForwardFinder

    ghost const Repr: set<object>

    ghost predicate Valid(limit: nat)
      reads this, Repr
    {
      && {this, closeAfter, plainCommentEnd, bangCommentEnd} == Repr
      && plainCommentEnd != bangCommentEnd && closeAfter != plainCommentEnd && closeAfter != bangCommentEnd
      && Good(closeAfter, [GREATER], limit) && Good(plainCommentEnd, PLAIN_END, limit) && Good(bangCommentEnd, BANG_END, limit)
    }

    ghost predicate Good(finder: ForwardFinder, pattern: Text, limit: nat)
      reads finder
    {
      && finder.Valid() && finder.html == html && finder.pattern == pattern && finder.cacheFrom <= limit
      && finder.examined <= finder.Frontier()
    }

    ghost function Examined(): nat
      reads this, closeAfter, plainCommentEnd, bangCommentEnd
    {
      closeAfter.examined + plainCommentEnd.examined + bangCommentEnd.examined
    }

    constructor (html: Text)
      ensures this.html == html && Valid(0) && fresh(Repr)
    {
      this.html := html;
      var close := new ForwardFinder(html, [GREATER]);
      var plain := new ForwardFinder(html, PLAIN_END);
      var bang := new ForwardFinder(html, BANG_END);
      closeAfter, plainCommentEnd, bangCommentEnd := close, plain, bang;
      Repr := {this, close, plain, bang};
    }
  }

  method ScanCdata(html: Text, ghost skipped: set<Text>, open: nat, tokens: seq<Token>)
    returns (more: seq<Token>, stop: bool, ghost read: nat)
    requires MarkupAt(html, open) && IsCdata(html, open)
    requires Tiling(html, skipped, tokens) && Covered(tokens) == open && Ready(tokens)
    ensures Tiling(html, skipped, more) && open < Covered(more) <= |html| && Ready(more)
    ensures read <= Covered(more) - open
    ensures stop ==> Covered(more) == |html|
  {
    var end := IndexOf(html, CDATA_CLOSE, open + 9);
    var contentTo, after := if end == -1 then |html| else end, if end == -1 then |html| else end + 3;
    read := if end == -1 then |html| - open - 9 else end + 1 - open - 9;
    PushCdata(html, skipped, tokens, open, contentTo, after);
    more := tokens + [Cdata(open, after, contentTo)];
    stop := end == -1;
  }

  method ScanDeclaration(html: Text, ghost skipped: set<Text>, open: nat, tokens: seq<Token>, finders: Finders)
    returns (more: seq<Token>, stop: bool)
    requires MarkupAt(html, open) && IsDeclaration(html, open)
    requires Tiling(html, skipped, tokens) && Covered(tokens) == open && Ready(tokens)
    requires finders.html == html && finders.Valid(open)
    modifies finders.Repr
    ensures Tiling(html, skipped, more) && open <= Covered(more) <= |html|
    ensures finders.Valid(if stop then |html| else Covered(more))
    ensures if stop then Complete(html, skipped, more) else Covered(more) > open && Ready(more)
  {
    more := tokens;
    var end := finders.closeAfter.Find(open + 2);
    stop := end == -1;
    if !stop {
      PushDeclaration(html, skipped, tokens, open, end + 1);
      more := tokens + [Skip(open, end + 1)];
    }
  }

  /** A comment, a CDATA section, a declaration or a processing instruction. */
  method ScanDropped(html: Text, ghost skipped: set<Text>, open: nat, tokens: seq<Token>, finders: Finders)
    returns (more: seq<Token>, stop: bool, ghost read: nat)
    requires MarkupAt(html, open) && (NextIs(html, open, BANG) || NextIs(html, open, QUESTION))
    requires Tiling(html, skipped, tokens) && Covered(tokens) == open && Ready(tokens)
    requires finders.html == html && finders.Valid(open)
    modifies finders.Repr
    ensures Tiling(html, skipped, more) && open <= Covered(more) <= |html|
    ensures !stop ==> Covered(more) > open && Ready(more) && read <= Covered(more) - open
    ensures finders.Valid(if stop then |html| else Covered(more))
    ensures stop ==> read <= |html| - open && Complete(html, skipped, more)
  {
    more, stop, read := tokens, false, 0;
    if IsComment(html, open) {
      var after := ScanComment(html, open, finders);
      stop := after == -1;
      if !stop {
        PushComment(html, skipped, tokens, open, after);
        more := tokens + [Skip(open, after)];
      }
    } else if IsCdata(html, open) {
      more, stop, read := ScanCdata(html, skipped, open, tokens);
    } else {
      more, stop := ScanDeclaration(html, skipped, open, tokens, finders);
    }
  }

  /** The text before the markup at `open` and the tokens of that markup. */
  method ScanMarkup(html: Text, skipped: set<Text>, textStart: nat, open: nat, tokens: seq<Token>, finders: Finders)
    returns (more: seq<Token>, stop: bool, ghost read: nat)
    requires MarkupAt(html, open) && textStart <= open
    requires Tiling(html, skipped, tokens) && Covered(tokens) == textStart && Ready(tokens)
    requires forall i :: textStart <= i < open ==> !MarkupAt(html, i)
    requires finders.html == html && finders.Valid(open)
    modifies finders.Repr
    ensures Tiling(html, skipped, more) && open <= Covered(more) <= |html|
    ensures !stop ==> Covered(more) > open && Ready(more) && read <= Covered(more) - open
    ensures finders.Valid(if stop then |html| else Covered(more))
    ensures stop ==> read <= |html| + 1 - open && Complete(html, skipped, more)
  {
    more := FlushText(html, skipped, tokens, textStart, open);
    if NextIs(html, open, BANG) || NextIs(html, open, QUESTION) {
      more, stop, read := ScanDropped(html, skipped, open, more, finders);
    } else {
      more, stop, read := ScanTag(html, skipped, open, more);
    }
  }

  /** Everything before `textStart` is tokens, and from there to `search` it is text so far. */
  ghost predicate Scanning(html: Text, skipped: set<Text>, tokens: seq<Token>, textStart: nat, search: nat) {
    && textStart <= search <= |html|
    && Tiling(html, skipped, tokens) && Covered(tokens) == textStart && Ready(tokens)
    && forall i :: textStart <= i < search ==> !MarkupAt(html, i)
  }

  /**
   * The token stream of a page: the one complete tiling of it, which covers the page up to its end or to
   * the `<` of unterminated markup. The main scan examines `scanned` positions and each cached search at
   * most every position once, whatever the markup.
   */
  method Tokens(html: Text, skipped: set<Text>) returns (tokens: seq<Token>, ghost scanned: nat, ghost cached: nat)
    ensures Tiling(html, skipped, tokens) && Complete(html, skipped, tokens)
    ensures forall other :: Tiling(html, skipped, other) && Complete(html, skipped, other) ==> other == tokens
    ensures scanned <= 2 * |html| + 2 && cached <= 3 * |html|
  {
    var finders := new Finders(html);
    tokens, scanned := [], 0;
    var textStart, search := 0, 0;
    while search < |html|
      invariant Scanning(html, skipped, tokens, textStart, search) && scanned <= 2 * search
      invariant fresh(finders.Repr) && finders.html == html && finders.Valid(search)
    {
      var open := IndexOf(html, [LESS], search);
      NoMarkupBefore(html, search, open);
      if open == -1 {
        scanned, search := scanned + (|html| - search), |html|;
        break;
      }
      OneUnit(html, open);
      scanned := scanned + (open + 1 - search);
      if !MarkupAt(html, open) {
        search := open + 1;
        continue;
      }
      var stop;
      ghost var read;
      tokens, stop, read := ScanMarkup(html, skipped, textStart, open, tokens, finders);
      scanned := scanned + read;
      if stop {
        cached := ExaminedInside(finders, |html|);
        OnlyTiling(html, skipped, tokens);
        return;
      }
      search, textStart := Covered(tokens), Covered(tokens);
    }
    tokens := FlushText(html, skipped, tokens, textStart, |html|);
    cached := ExaminedInside(finders, |html|);
    OnlyTiling(html, skipped, tokens);
  }

  ghost method ExaminedInside(finders: Finders, limit: nat) returns (cached: nat)
    requires finders.Valid(limit)
    ensures cached == finders.Examined() <= 3 * |finders.html|
  {
    FrontierInside(finders.closeAfter);
    FrontierInside(finders.plainCommentEnd);
    FrontierInside(finders.bangCommentEnd);
    cached := finders.Examined();
  }
}
