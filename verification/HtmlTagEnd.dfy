/** Where the scanner of html-text.ts ends a tag and a comment, against the tokenizer of the standard. */
module HtmlTagEnd {
  import opened Utf16
  import opened HtmlStandard

  datatype ScanState = BeforeName | Name | AfterName | BeforeValue | UnquotedValue

  /** The state of the standard a scanner state stands for. */
  function Standard(s: ScanState): TagState {
    match s
    case BeforeName => BeforeAttributeName
    case Name => AttributeName
    case AfterName => AfterAttributeName
    case BeforeValue => BeforeAttributeValue
    case UnquotedValue => Unquoted
  }

  /** A tag name ends at whitespace, `/` or `>`. */
  predicate IsNameDelimiter(c: Unit) { IsWhite(c) || c == SOLIDUS || c == GREATER }

  function EndOf(r: TagRun): int { if r.TagAt? then r.at else -1 }

  // After a quoted value, after `/` and at the delimiter of the name the standard is in states of
  // their own; all three end the tag where "before attribute name" would.
  lemma SameEnd(html: Text, i: nat, s: TagState)
    requires s == AfterQuoted || s == SelfClosingStart || (s == TagName && (i >= |html| || IsNameDelimiter(html[i])))
    ensures EndOf(RunTag(html, i, s)) == EndOf(RunTag(html, i, BeforeAttributeName))
  {
  }

  // Reconsumption resolved, for a unit that ends no tag.
  lemma ConsumeTable(c: Unit)
    requires c != GREATER
    ensures TagConsume(BeforeAttributeName, c) ==
            In(if IsWhite(c) then BeforeAttributeName else if c == SOLIDUS then SelfClosingStart else AttributeName)
    ensures TagConsume(AttributeName, c) ==
            In(if IsWhite(c) then AfterAttributeName else if c == SOLIDUS then SelfClosingStart
               else if c == EQUALS then BeforeAttributeValue else AttributeName)
    ensures TagConsume(AfterAttributeName, c) ==
            In(if IsWhite(c) then AfterAttributeName else if c == SOLIDUS then SelfClosingStart
               else if c == EQUALS then BeforeAttributeValue else AttributeName)
    ensures TagConsume(BeforeAttributeValue, c) ==
            In(if IsWhite(c) then BeforeAttributeValue else if c == QUOTE then DoubleQuoted
               else if c == APOSTROPHE then SingleQuoted else Unquoted)
    ensures TagConsume(SelfClosingStart, c) == TagConsume(BeforeAttributeName, c)
    ensures TagConsume(AfterQuoted, c) == TagConsume(BeforeAttributeName, c)
  {
    assert TagConsume(Unquoted, c).In?;
    assert TagConsume(AfterAttributeName, c).In?;
    assert TagConsume(AttributeName, c).In?;
    assert TagConsume(BeforeAttributeName, c).In?;
  }

  lemma GreaterEmits(s: TagState)
    requires s != DoubleQuoted && s != SingleQuoted
    ensures TagConsume(s, GREATER) ==
            Emitted(if s == BeforeAttributeName || s == AttributeName then AfterAttributeName else s)
  {
    assert TagConsume(AfterAttributeName, GREATER).Emitted?;
  }

  function ScanNext(s: ScanState, code: Unit): ScanState {
    match s
    case BeforeName => if !IsWhite(code) && code != SOLIDUS then Name else s
    case Name =>
      if IsWhite(code) then AfterName else if code == SOLIDUS then BeforeName
      else if code == EQUALS then BeforeValue else s
    case AfterName =>
      if code == SOLIDUS then BeforeName else if code == EQUALS then BeforeValue
      else if !IsWhite(code) then Name else s
    case BeforeValue => if !IsWhite(code) then UnquotedValue else s
    case UnquotedValue => if IsWhite(code) then BeforeName else s
  }

  lemma ScanStep(html: Text, i: nat, s: ScanState)
    requires i < |html| && html[i] != GREATER
    requires !(s == BeforeValue && (html[i] == QUOTE || html[i] == APOSTROPHE))
    ensures EndOf(RunTag(html, i, Standard(s))) == EndOf(RunTag(html, i + 1, Standard(ScanNext(s, html[i]))))
  {
    ConsumeTable(html[i]);
    SameEnd(html, i + 1, SelfClosingStart);
  }

  /** Jumping to the closing quote is what the quoted states do one unit at a time. */
  lemma {:induction false} QuotedJump(html: Text, i: nat, quote: Unit, s: TagState)
    requires (quote == QUOTE && s == DoubleQuoted) || (quote == APOSTROPHE && s == SingleQuoted)
    ensures var close := IndexOf(html, [quote], i);
            RunTag(html, i, s) == if close == -1 then EndOfPage else RunTag(html, close + 1, AfterQuoted)
    decreases |html| - i
  {
    if i < |html| {
      assert At(html, [quote], i) <==> html[i] == quote by { assert html[i..i + 1] == [html[i]]; }
      if html[i] != quote {
        QuotedJump(html, i + 1, quote, s);
      }
    }
  }

  lemma QuoteStep(html: Text, i: nat)
    requires i < |html| && (html[i] == QUOTE || html[i] == APOSTROPHE)
    ensures var close := IndexOf(html, [html[i]], i + 1);
            EndOf(RunTag(html, i, BeforeAttributeValue)) ==
            if close == -1 then -1 else EndOf(RunTag(html, close + 1, BeforeAttributeName))
  {
    QuotedRun(html, i, html[i]);
    var close := IndexOf(html, [html[i]], i + 1);
    if close != -1 { SameEnd(html, close + 1, AfterQuoted); }
  }

  lemma QuotedRun(html: Text, i: nat, quote: Unit)
    requires i < |html| && html[i] == quote && (quote == QUOTE || quote == APOSTROPHE)
    ensures var close := IndexOf(html, [quote], i + 1);
            RunTag(html, i, BeforeAttributeValue) == if close == -1 then EndOfPage else RunTag(html, close + 1, AfterQuoted)
  {
    var quoted := if quote == QUOTE then DoubleQuoted else SingleQuoted;
    QuoteOpens(html, i, quoted);
    QuotedJump(html, i + 1, quote, quoted);
  }

  lemma QuoteOpens(html: Text, i: nat, quoted: TagState)
    requires i < |html| && (html[i] == QUOTE || html[i] == APOSTROPHE)
    requires quoted == if html[i] == QUOTE then DoubleQuoted else SingleQuoted
    ensures RunTag(html, i, BeforeAttributeValue) == RunTag(html, i + 1, quoted)
  {
    ConsumeTable(html[i]);
  }

  /**
   * The `>` that ends a tag whose name ends at `from`, or -1. `read` counts the positions examined:
   * each position of the tag once, whatever the markup.
   */
  method TagEnd(html: Text, from: nat) returns (end: int, ghost read: nat)
    ensures end == EndOf(RunTag(html, from, BeforeAttributeName))
    ensures end != -1 ==> read == end + 1 - from
    ensures end == -1 ==> read <= if from < |html| then |html| - from else 0
  {
    var state := BeforeName;
    var index := from;
    read := 0;
    while index < |html|
      invariant from <= index && (index <= |html| || index == from)
      invariant read == index - from
      invariant EndOf(RunTag(html, from, BeforeAttributeName)) == EndOf(RunTag(html, index, Standard(state)))
    {
      var code := html[index];
      read := read + 1;
      if code == GREATER {
        GreaterEmits(Standard(state));
        return index, read;
      }
      if state == BeforeValue && (code == QUOTE || code == APOSTROPHE) {
        var close := IndexOf(html, [code], index + 1);
        QuoteStep(html, index);
        if close == -1 {
          read := read + (|html| - index - 1);
          return -1, read;
        }
        read := read + (close - index);
        index := close + 1;
        state := BeforeName;
        continue;
      }
      ScanStep(html, index, state);
      match state {
        case BeforeName =>
          if !IsWhite(code) && code != SOLIDUS { state := Name; }
        case Name =>
          if IsWhite(code) { state := AfterName; }
          else if code == SOLIDUS { state := BeforeName; }
          else if code == EQUALS { state := BeforeValue; }
        case AfterName =>
          if code == SOLIDUS { state := BeforeName; }
          else if code == EQUALS { state := BeforeValue; }
          else if !IsWhite(code) { state := Name; }
        case BeforeValue =>
          if !IsWhite(code) { state := UnquotedValue; }
        case UnquotedValue =>
          if IsWhite(code) { state := BeforeName; }
      }
      index := index + 1;
    }
    return -1, read;
  }

  /** The end of the tag name that starts at `i`. */
  function NameEnd(html: Text, i: nat): (e: nat)
    ensures i <= e && (i <= |html| ==> e <= |html|)
    ensures e < |html| ==> IsNameDelimiter(html[e])
    ensures forall k :: i <= k < e && k < |html| ==> !IsNameDelimiter(html[k])
    decreases |html| - i
  {
    if i >= |html| || IsNameDelimiter(html[i]) then i else NameEnd(html, i + 1)
  }

  /** The scan of the name is the tag name state, so name scan and `TagEnd` together are the standard's run. */
  lemma {:induction false} NameThenTagEnd(html: Text, i: nat)
    ensures RunTag(html, i, TagName) == RunTag(html, NameEnd(html, i), TagName)
    ensures EndOf(RunTag(html, i, TagName)) == EndOf(RunTag(html, NameEnd(html, i), BeforeAttributeName))
    decreases |html| - i
  {
    if i < |html| && !IsNameDelimiter(html[i]) {
      NameThenTagEnd(html, i + 1);
    } else {
      SameEnd(html, i, TagName);
    }
  }

  // The program takes a `/` right before `>` for the self-closing flag.
  predicate SlashBeforeEnd(html: Text, r: TagRun)
    requires r.TagAt? && 0 < r.at <= |html|
  {
    html[r.at - 1] == SOLIDUS
  }

  /** The state a tag is emitted from remembers whether the unit before `>` is a `/` outside a value. */
  lemma {:induction false} SolidusState(html: Text, i: nat, s: TagState)
    requires 0 < i <= |html|
    requires s != Unquoted && s != DoubleQuoted && s != SingleQuoted ==> (html[i - 1] == SOLIDUS <==> s == SelfClosingStart)
    ensures var r := RunTag(html, i, s);
            r.TagAt? && r.state != Unquoted ==> (SlashBeforeEnd(html, r) <==> r.state == SelfClosingStart)
    decreases |html| - i
  {
    if i < |html| {
      if html[i] != GREATER { ConsumeTable(html[i]); } else if s != DoubleQuoted && s != SingleQuoted { GreaterEmits(s); }
      match TagConsume(s, html[i])
      case In(next) => SolidusState(html, i + 1, next);
      case Emitted(_) =>
    }
  }

  /**
   * The program's self-closing reading of a tag is the standard's flag exactly when the tag does not
   * end in an unquoted attribute value whose last character is `/`.
   */
  lemma SelfClosingExactly(html: Text, nameStart: nat)
    requires nameStart < |html| && IsAsciiAlpha(html[nameStart])
    ensures var r := RunTag(html, nameStart, TagName);
            r.TagAt? ==>
              && r.at > nameStart
              && ((SlashBeforeEnd(html, r) == SelfClosingFlag(r)) <==> !(r.state == Unquoted && SlashBeforeEnd(html, r)))
  {
    SolidusState(html, nameStart + 1, TagName);
  }

  /** `<svg a=b/>`: the `/` belongs to the value, the standard sets no flag and the program does. */
  lemma SelfClosingDiffers()
    ensures var html: Text := [0x3c, 0x73, 0x76, 0x67, 0x20, 0x61, 0x3d, 0x62, 0x2f, 0x3e];
            var r := RunTag(html, 1, TagName);
            r == TagAt(9, Unquoted) && SlashBeforeEnd(html, r) && !SelfClosingFlag(r)
  {
    var html: Text := [0x3c, 0x73, 0x76, 0x67, 0x20, 0x61, 0x3d, 0x62, 0x2f, 0x3e];
    assert RunTag(html, 9, Unquoted) == TagAt(9, Unquoted);
    assert RunTag(html, 7, BeforeAttributeValue) == RunTag(html, 9, Unquoted);
    assert RunTag(html, 5, BeforeAttributeName) == RunTag(html, 7, BeforeAttributeValue);
    assert RunTag(html, 4, TagName) == RunTag(html, 5, BeforeAttributeName);
    assert RunTag(html, 2, TagName) == RunTag(html, 4, TagName);
  }

  const PLAIN_END: Text := [DASH, DASH, GREATER]
  const BANG_END: Text := [DASH, DASH, BANG, GREATER]

  /** How the scanner ends a comment whose text starts at `p`: the position after it, or -1. */
  function CommentAfter(html: Text, p: nat): (after: int)
  {
    if At(html, [GREATER], p) then p + 1
    else if At(html, [DASH, GREATER], p) then p + 2
    else
      var plain := IndexOf(html, PLAIN_END, p);
      var bang := IndexOf(html, BANG_END, p);
      if plain == -1 && bang == -1 then -1
      else if bang != -1 && (plain == -1 || bang < plain) then bang + 4
      else plain + 3
  }

  predicate DashesBefore(html: Text, p: nat, i: nat)
    requires i <= |html|
  {
    p <= i - 2 && html[i - 1] == DASH && html[i - 2] == DASH
  }

  predicate BangBefore(html: Text, p: nat, i: nat)
    requires i <= |html|
  {
    p <= i - 3 && html[i - 1] == BANG && html[i - 2] == DASH && html[i - 3] == DASH
  }

  /** What each comment state knows about the text read since `p`. */
  predicate Remembers(html: Text, p: nat, i: nat, s: CommentState)
    requires p <= i <= |html|
  {
    match s
    case CommentStart => i == p
    case CommentStartDash => i == p + 1 && html[p] == DASH
    case Comment => i > p && html[i - 1] != DASH && !BangBefore(html, p, i)
    case LessThan => i > p && html[i - 1] == LESS
    case LessThanBang => i > p + 1 && html[i - 1] == BANG && html[i - 2] == LESS
    case LessThanBangDash => i > p + 2 && html[i - 1] == DASH && html[i - 2] == BANG
    case LessThanBangDashDash => DashesBefore(html, p, i)
    case CommentEndDash => i > p + 1 && html[i - 1] == DASH && !DashesBefore(html, p, i)
    case CommentEnd => DashesBefore(html, p, i)
    case CommentEndBang => BangBefore(html, p, i)
  }

  /** A `>` at `i` closes the comment whose text starts at `p`. */
  predicate ClosesAt(html: Text, p: nat, i: nat)
    requires p <= i < |html|
  {
    html[i] == GREATER &&
    (i == p || (i == p + 1 && html[p] == DASH) || DashesBefore(html, p, i) || BangBefore(html, p, i))
  }

  lemma CommentUnit(html: Text, p: nat, i: nat, s: CommentState)
    requires p <= i < |html| && Remembers(html, p, i, s)
    ensures match CommentConsume(s, html[i])
            case Closed => ClosesAt(html, p, i)
            case Inside(next) => !ClosesAt(html, p, i) && Remembers(html, p, i + 1, next)
  {
  }

  /** The comment states stop at the first closing `>`. */
  lemma {:induction false} CommentRun(html: Text, p: nat, i: nat, s: CommentState)
    requires p <= i <= |html| && Remembers(html, p, i, s)
    ensures var r := RunComment(html, i, s);
            && (r != -1 ==> ClosesAt(html, p, r))
            && forall k :: i <= k < |html| && (r == -1 || k < r) ==> !ClosesAt(html, p, k)
    decreases |html| - i
  {
    if i < |html| {
      CommentUnit(html, p, i, s);
      match CommentConsume(s, html[i])
      case Inside(next) => CommentRun(html, p, i + 1, next);
      case Closed =>
    }
  }

  lemma AtUnits(html: Text, k: nat)
    ensures At(html, [GREATER], k) <==> k < |html| && html[k] == GREATER
    ensures At(html, [DASH, GREATER], k) <==> k + 1 < |html| && html[k] == DASH && html[k + 1] == GREATER
    ensures At(html, PLAIN_END, k) <==> k + 2 < |html| && html[k] == DASH && html[k + 1] == DASH && html[k + 2] == GREATER
    ensures At(html, BANG_END, k) <==>
            k + 3 < |html| && html[k] == DASH && html[k + 1] == DASH && html[k + 2] == BANG && html[k + 3] == GREATER
  {
    if k < |html| { assert html[k..k + 1] == [html[k]]; }
    if k + 1 < |html| { assert html[k..k + 2] == [html[k], html[k + 1]]; }
    if k + 2 < |html| { assert html[k..k + 3] == [html[k], html[k + 1], html[k + 2]]; }
    if k + 3 < |html| { assert html[k..k + 4] == [html[k], html[k + 1], html[k + 2], html[k + 3]]; }
  }

  lemma FoundBy(html: Text, pattern: Text, p: nat, k: nat)
    requires p <= k && At(html, pattern, k)
    ensures p <= IndexOf(html, pattern, p) <= k
  {
  }

  lemma ScannerSeesEnd(html: Text, p: nat, i: nat)
    requires p <= i < |html| && ClosesAt(html, p, i)
    ensures CommentAfter(html, p) != -1 && CommentAfter(html, p) <= i + 1
  {
    AtUnits(html, p);
    if DashesBefore(html, p, i) {
      AtUnits(html, i - 2);
      FoundBy(html, PLAIN_END, p, i - 2);
    } else if BangBefore(html, p, i) {
      AtUnits(html, i - 3);
      FoundBy(html, BANG_END, p, i - 3);
    }
  }

  lemma ScannerEndCloses(html: Text, p: nat)
    requires CommentAfter(html, p) != -1
    ensures p < CommentAfter(html, p) <= |html| && ClosesAt(html, p, CommentAfter(html, p) - 1)
  {
    AtUnits(html, p);
    if !At(html, [GREATER], p) && !At(html, [DASH, GREATER], p) {
      var plain, bang := IndexOf(html, PLAIN_END, p), IndexOf(html, BANG_END, p);
      if plain != -1 { AtUnits(html, plain); }
      if bang != -1 { AtUnits(html, bang); }
    }
  }

  /** The comment branch ends where the comment states end: its searches together see every end. */
  lemma CommentEndsWithStandard(html: Text, p: nat)
    requires p <= |html|
    ensures var r := RunComment(html, p, CommentStart);
            CommentAfter(html, p) == if r == -1 then -1 else r + 1
  {
    CommentRun(html, p, p, CommentStart);
    var r := RunComment(html, p, CommentStart);
    if r != -1 {
      ScannerSeesEnd(html, p, r);
    }
    if CommentAfter(html, p) != -1 {
      ScannerEndCloses(html, p);
    }
  }
}
