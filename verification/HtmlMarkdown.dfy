/** The conversion of html-markdown.ts: open lists, quotes, cells and spans over a budgeted writer. */
module HtmlMarkdown {
  import opened Utf16
  import MW = MarkdownWriter
  import opened TextKept
  import CodeSpan
  import opened Wrappers

  /** A token with its text already decoded and its attributes already read. */
  datatype Token =
    | TextToken(text: Text)
    | SkipToken
    | TagToken(closing: bool, name: string, href: Text, src: Text, alt: Text)

  datatype LinkSpan = LinkSpan(handle: nat, href: Text, inPre: bool)
  datatype OpenList = OpenList(ordered: bool, count: nat, content: nat)

  const MAX_LIST_INDENT := 8
  const MAX_QUOTE_PREFIX := 4
  const MAX_TRACKED_LISTS := 32
  const BLOCKS: set<string> := {
    "address", "article", "aside", "details", "div", "dl", "fieldset", "figcaption", "figure",
    "footer", "form", "header", "main", "nav", "p", "section", "summary", "table"}
  const STRONG: set<string> := {"b", "strong"}
  const EMPHASIS: set<string> := {"cite", "dfn", "em", "i"}
  const INLINE_ELEMENTS: set<string> := {
    "a", "abbr", "b", "bdi", "bdo", "cite", "code", "data", "del", "dfn", "em", "font", "i", "ins",
    "kbd", "mark", "q", "s", "samp", "small", "span", "strong", "sub", "sup", "time", "u", "var"}

  function Heading(name: string): nat {
    match name
    case "h1" => 1
    case "h2" => 2
    case "h3" => 3
    case "h4" => 4
    case "h5" => 5
    case "h6" => 6
    case _ => 0
  }

  const HASH: Unit := 0x23
  const STAR: Unit := 0x2a
  const DASH: Unit := 0x2d
  const DOT: Unit := 0x2e
  const PIPE: Unit := 0x7c
  const BACKSLASH: Unit := 0x5c
  const BRACKET_OPEN: Unit := 0x5b
  const BRACKET_CLOSE: Unit := 0x5d
  const PAREN_OPEN: Unit := 0x28
  const PAREN_CLOSE: Unit := 0x29

  predicate IsCollapsed(u: Unit) { u == 0x20 || u == 0x09 || u == 0x0a || u == 0x0d || u == 0x0c }

  /** Whitespace runs become one space. */
  function Collapse(s: Text, inRun: bool := false): (t: Text)
    ensures forall i :: 0 <= i < |t| ==> t[i] != LF && t[i] != CR
  {
    if s == [] then []
    else if IsCollapsed(s[0]) then (if inRun then [] else [SPACE]) + Collapse(s[1..], true)
    else [s[0]] + Collapse(s[1..], false)
  }

  function EscapeBrackets(s: Text): Text {
    if s == [] then []
    else (if s[0] == BRACKET_OPEN || s[0] == BRACKET_CLOSE then [BACKSLASH, s[0]] else [s[0]]) + EscapeBrackets(s[1..])
  }

  function Decimal(n: nat): Text {
    if n < 10 then [0x30 + n] else Decimal(n / 10) + [0x30 + n % 10]
  }

  function Quotes(n: nat): Text { if n == 0 then [] else [0x3e, SPACE] + Quotes(n - 1) }

  /** One mark and a space for every quote the line stands in. */
  lemma {:induction false} QuotesAre(n: nat, i: nat)
    ensures |Quotes(n)| == 2 * n
    ensures i < n ==> Quotes(n)[2 * i] == 0x3e && Quotes(n)[2 * i + 1] == SPACE
    decreases n
  {
    if n > 0 { QuotesAre(n - 1, if i > 0 then i - 1 else 0); }
  }

  /** The number a row of decimal digits stands for. */
  function Value(s: Text): int { if s == [] then 0 else 10 * Value(s[..|s| - 1]) + s[|s| - 1] - 0x30 }

  /** An item's number reads back as the count, without a leading zero. */
  lemma {:induction false} DecimalReads(n: nat)
    ensures Value(Decimal(n)) == n && Decimal(n) != [] && forall i :: 0 <= i < |Decimal(n)| ==> 0x30 <= Decimal(n)[i] <= 0x39
    ensures n > 0 ==> Decimal(n)[0] != 0x30
    decreases n
  {
    var s := Decimal(n);
    if n >= 10 {
      DecimalReads(n / 10);
      assert s[..|s| - 1] == Decimal(n / 10) && s[|s| - 1] == 0x30 + n % 10;
    } else {
      assert s[..0] == [];
    }
  }

  function DropLeadingBreak(s: Text): Text {
    if s != [] && s[0] == LF then s[1..] else if |s| > 1 && s[0] == CR && s[1] == LF then s[2..] else s
  }

  /** The lines of a fenced block, each after the container prefix, an empty one after the trimmed prefix. */
  function PrefixLines(s: Text, prefix: Text, atStart: bool, first: bool): Text
    decreases |s|
  {
    var end := IndexOf(s, [LF], 0);
    var line := if end == -1 then s else s[..end];
    var lead := if first && !atStart then [] else if line == [] then TrimEnd(prefix) else prefix;
    if end == -1 then lead + line else lead + line + [LF] + PrefixLines(s[end + 1..], prefix, atStart, false)
  }

  function Edge(s: Text): Text { if s != [] && s[0] == SPACE then [SPACE] else [] }

  function LastEdge(s: Text): Text { if s != [] && s[|s| - 1] == SPACE then [SPACE] else [] }

  /** What a closed code span leaves in the output for the text taken out of it. */
  function CodeOutput(taken: Text): Text {
    if Trim(taken) == [] then taken else Edge(taken) + CodeSpan.Print(Trim(taken)) + LastEdge(taken)
  }

  function LinkOutput(taken: Text, href: Text, inPre: bool): Text {
    var text := Trim(taken);
    if href == [] || text == [] || inPre then taken
    else Edge(taken) + LabelledLink(text, href) + LastEdge(taken)
  }

  function LabelledLink(text: Text, href: Text): Text {
    if LF in text then text + ([SPACE, PAREN_OPEN] + href + [PAREN_CLOSE])
    else [BRACKET_OPEN] + text + ([BRACKET_CLOSE, PAREN_OPEN] + href + [PAREN_CLOSE])
  }

  /** A code span of one line reads back as the trimmed text it was opened over. */
  lemma CodeOutputReads(taken: Text, rest: Text)
    requires (exists i :: 0 <= i < |taken| && !IsSpace(taken[i])) && LF !in taken && CR !in taken
    requires rest == [] || rest[0] != CodeSpan.BACKTICK
    ensures CodeOutput(taken) == Edge(taken) + CodeSpan.Print(Trim(taken)) + LastEdge(taken)
    ensures CodeSpan.ParseCodeSpan(CodeSpan.Print(Trim(taken)) + (LastEdge(taken) + rest)) ==
            CodeSpan.Span(Trim(taken), |CodeSpan.Print(Trim(taken))|)
  {
    TrimInside(taken, LF);
    TrimInside(taken, CR);
    PrintReads(Trim(taken), taken, rest);
  }

  lemma PrintReads(text: Text, taken: Text, rest: Text)
    requires text != [] && !IsSpace(text[0]) && !IsSpace(text[|text| - 1]) && LF !in text && CR !in text
    requires rest == [] || rest[0] != CodeSpan.BACKTICK
    ensures CodeSpan.ParseCodeSpan(CodeSpan.Print(text) + (LastEdge(taken) + rest)) ==
            CodeSpan.Span(text, |CodeSpan.Print(text)|)
  {
    var after := LastEdge(taken) + rest;
    assert after == rest || after[0] == SPACE;
    CodeSpan.PrintParses(text, after);
  }

  // What the page shows is not lost on the way

  lemma {:induction false} CoversCollapse(s: Text, inRun: bool)
    ensures Covers(s, Collapse(s, inRun))
    decreases |s|
  {
    if s == [] {
      CoversNothing(s, Collapse(s, inRun));
    } else {
      assert s == [s[0]] + s[1..];
      if IsCollapsed(s[0]) {
        CoversCollapse(s[1..], true);
        CoversNothing([s[0]], if inRun then [] else [SPACE]);
        CoversJoin([s[0]], if inRun then [] else [SPACE], s[1..], Collapse(s[1..], true));
      } else {
        CoversCollapse(s[1..], false);
        CoversSelf([s[0]]);
        CoversJoin([s[0]], [s[0]], s[1..], Collapse(s[1..], false));
      }
    }
  }

  lemma {:induction false} CoversEscaped(s: Text)
    ensures Covers(s, EscapeBrackets(s))
    decreases |s|
  {
    if s == [] {
      CoversNothing(s, EscapeBrackets(s));
    } else {
      assert s == [s[0]] + s[1..];
      CoversEscaped(s[1..]);
      CoversSelf([s[0]]);
      CoversWrapped([s[0]], [BACKSLASH], [s[0]], []);
      assert [BACKSLASH] + [s[0]] + [] == [BACKSLASH, s[0]];
      CoversJoin([s[0]], if s[0] == BRACKET_OPEN || s[0] == BRACKET_CLOSE then [BACKSLASH, s[0]] else [s[0]],
                 s[1..], EscapeBrackets(s[1..]));
    }
  }

  lemma CoversDropped(s: Text)
    ensures Covers(s, DropLeadingBreak(s))
  {
    var rest := DropLeadingBreak(s);
    var lead := s[..|s| - |rest|];
    assert s == lead + rest;
    CoversNothing(lead, []);
    CoversSelf(rest);
    CoversJoin(lead, [], rest, rest);
    assert [] + rest == rest;
  }

  lemma CoversCode(taken: Text)
    ensures Covers(taken, CodeOutput(taken))
  {
    CoversSelf(taken);
    if Trim(taken) != [] {
      CoversTrim(taken);
      CoversPrint(taken, Trim(taken));
      CoversWrapped(taken, Edge(taken), CodeSpan.Print(Trim(taken)), LastEdge(taken));
    }
  }

  lemma CoversPrint(taken: Text, text: Text)
    requires Covers(taken, text) && text != []
    ensures Covers(taken, CodeSpan.Print(text))
  {
    var pad, fence := CodeSpan.Pad(text), CodeSpan.Fence(text, 1);
    CoversWrapped(taken, pad, text, pad);
    CoversWrapped(taken, fence, pad + text + pad, fence);
  }

  lemma CoversLabelled(taken: Text, text: Text, href: Text)
    requires Covers(taken, text)
    ensures Covers(taken, LabelledLink(text, href))
  {
    if LF in text {
      CoversWrapped(taken, [], text, [SPACE, PAREN_OPEN] + href + [PAREN_CLOSE]);
      assert [] + text == text;
    } else {
      CoversWrapped(taken, [BRACKET_OPEN], text, [BRACKET_CLOSE, PAREN_OPEN] + href + [PAREN_CLOSE]);
    }
  }

  lemma CoversLink(taken: Text, href: Text, inPre: bool)
    ensures Covers(taken, LinkOutput(taken, href, inPre))
  {
    var text := Trim(taken);
    if href == [] || text == [] || inPre {
      CoversSelf(taken);
    } else {
      CoversTrim(taken);
      CoversLabelled(taken, text, href);
      CoversWrapped(taken, Edge(taken), LabelledLink(text, href), LastEdge(taken));
    }
  }

  lemma {:induction false} CoversPrefixed(s: Text, prefix: Text, atStart: bool, first: bool)
    ensures Covers(s, PrefixLines(s, prefix, atStart, first))
    decreases |s|
  {
    var end := IndexOf(s, [LF], 0);
    var line := if end == -1 then s else s[..end];
    var lead := if first && !atStart then [] else if line == [] then TrimEnd(prefix) else prefix;
    CoversSelf(line);
    if end == -1 {
      CoversWrapped(line, lead, line, []);
      assert lead + line + [] == lead + line;
    } else {
      assert s[end] == LF;
      var rest := s[end + 1..];
      CoversPrefixed(rest, prefix, atStart, false);
      LineEnds(s, end);
      CoversLine(s, lead, line, rest, PrefixLines(rest, prefix, atStart, false));
    }
  }

  lemma LineEnds(s: Text, end: int)
    requires 0 <= end < |s| && s[end] == LF
    ensures s == s[..end] + [LF] + s[end + 1..]
  {
  }

  lemma CoversLine(s: Text, lead: Text, line: Text, rest: Text, prefixed: Text)
    requires s == line + [LF] + rest && Covers(rest, prefixed)
    ensures Covers(s, lead + line + [LF] + prefixed)
  {
    CoversSelf(line);
    CoversWrapped(line, lead, line, [LF]);
    CoversJoin(line, lead + line + [LF], rest, prefixed);
    CoversSame(s, line, rest);
  }

  lemma CoversSame(s: Text, line: Text, rest: Text)
    requires s == line + [LF] + rest
    ensures Visible(s) == Visible(line + rest)
  {
    NothingVisible([LF]);
    VisibleJoin(line, [LF]);
    VisibleJoin(line + [LF], rest);
    VisibleJoin(line, rest);
  }

  /** What a text token gives: as it is in a <pre>, otherwise on one line, with brackets escaped in a link label. */
  function TokenOutput(decoded: Text, inPre: bool, atPreStart: bool, spaced: bool, inLabel: bool): Text {
    if inPre then if atPreStart then DropLeadingBreak(decoded) else decoded
    else
      var started := if spaced then TrimStart(Collapse(decoded)) else Collapse(decoded);
      if inLabel then EscapeBrackets(started) else started
  }

  function Led(lead: Text, text: Text): Text { if text == [] then [] else lead + text }

  lemma CoversToken(decoded: Text, inPre: bool, atPreStart: bool, spaced: bool, inLabel: bool)
    ensures Covers(decoded, TokenOutput(decoded, inPre, atPreStart, spaced, inLabel))
  {
    CoversSelf(decoded);
    CoversDropped(decoded);
    var collapsed := Collapse(decoded);
    var started := if spaced then TrimStart(collapsed) else collapsed;
    CoversCollapse(decoded, false);
    CoversTrimStart(collapsed);
    CoversTrans(decoded, collapsed, TrimStart(collapsed));
    CoversEscaped(started);
    CoversTrans(decoded, started, EscapeBrackets(started));
  }

  lemma LedKeeps(p: Text, base: Text, decoded: Text, lead: Text, shown: Text, inPre: bool, atPreStart: bool, spaced: bool,
                 inLabel: bool)
    requires NoSpace(p) && Sub(p, base) && shown == TokenOutput(decoded, inPre, atPreStart, spaced, inLabel)
    ensures Sub(p + Visible(decoded), base + Led(lead, shown))
  {
    CoversToken(decoded, inPre, atPreStart, spaced, inLabel);
    CoversWrapped(decoded, if shown == [] then [] else lead, shown, []);
    assert Led(lead, shown) == (if shown == [] then [] else lead) + shown + [];
    AppendKeeps(p, base, decoded, Led(lead, shown));
  }

  /** An image with an address; one without, or one in a <pre>, is its alternative text. */
  function ImageOutput(src: Text, alt: Text, inPre: bool): Text {
    if src == [] || inPre then alt
    else [0x21, BRACKET_OPEN] + alt + [BRACKET_CLOSE, PAREN_OPEN] + src + [PAREN_CLOSE]
  }

  lemma CodeKeeps(p: Text, base: Text, taken: Text)
    requires NoSpace(p) && Sub(p, base + taken)
    ensures Sub(p, base + CodeOutput(taken))
  {
    CoversCode(taken);
    SwapKeeps(p, base, taken, CodeOutput(taken));
  }

  lemma LinkKeeps(p: Text, base: Text, taken: Text, href: Text, inPre: bool)
    requires NoSpace(p) && Sub(p, base + taken)
    ensures Sub(p, base + LinkOutput(taken, href, inPre))
  {
    CoversLink(taken, href, inPre);
    SwapKeeps(p, base, taken, LinkOutput(taken, href, inPre));
  }

  lemma Regroup(a: Text, b: Text, c: Text)
    ensures a + (b + c) == a + b + c
  {
  }

  function Ticked(text: Text, fence: Text): Text { fence + [SPACE] + text + [SPACE] + fence }

  lemma CoversTicked(content: Text, text: Text, fence: Text)
    requires Covers(content, text)
    ensures Covers(content, Ticked(text, fence))
  {
    CoversWrapped(content, fence + [SPACE], text, [SPACE] + fence);
    Regroup(fence + [SPACE] + text, [SPACE], fence);
  }

  lemma CoversOneLine(content: Text)
    ensures Covers(content, Trim(Collapse(content)))
  {
    CoversCollapse(content, false);
    CoversTrim(Collapse(content));
    CoversTrans(content, Collapse(content), Trim(Collapse(content)));
  }

  /** A <pre> in a table cell: its text on one line between backticks. */
  lemma CellCodeKeeps(p: Text, base: Text, content: Text, text: Text, space: Text, fence: Text)
    requires NoSpace(p) && Sub(p, base + content) && Covers(content, text)
    ensures Sub(p, if text == [] then base else base + space + Ticked(text, fence))
  {
    if text == [] {
      SwapKeeps(p, base, content, []);
      assert base + [] == base;
    } else {
      CoversTicked(content, text, fence);
      CoversWrapped(content, space, Ticked(text, fence), []);
      assert space + Ticked(text, fence) + [] == space + Ticked(text, fence);
      SwapKeeps(p, base, content, space + Ticked(text, fence));
      Regroup(base, space, Ticked(text, fence));
    }
  }

  lemma FencedKeeps(p: Text, base: Text, content: Text, fence: Text, last: Text, prefix: Text, atStart: bool)
    requires NoSpace(p) && Sub(p, base + content)
    ensures Sub(p, base + PrefixLines(fence + [LF] + content + last + fence, prefix, atStart, true))
  {
    CoversFenced(content, fence, last, prefix, atStart);
    SwapKeeps(p, base, content, PrefixLines(fence + [LF] + content + last + fence, prefix, atStart, true));
  }

  lemma CoversFenced(content: Text, fence: Text, last: Text, prefix: Text, atStart: bool)
    ensures Covers(content, PrefixLines(fence + [LF] + content + last + fence, prefix, atStart, true))
  {
    var lines := fence + [LF] + content + last + fence;
    CoversSelf(content);
    CoversWrapped(content, fence + [LF], content, last + fence);
    assert fence + [LF] + content + (last + fence) == lines;
    CoversPrefixed(lines, prefix, atStart, true);
    CoversTrans(content, lines, PrefixLines(lines, prefix, atStart, true));
  }

  /** Trimming the end of a line loses nothing visible. */
  lemma TrimKeepsText(s: MW.State, budget: int, p: Text)
    requires MW.Valid(s, budget) && NoSpace(p) && Sub(p, MW.Join(s.parts))
    ensures Sub(p, MW.Join(MW.TrimLineEnd(s).parts))
  {
    var t := MW.TrimLineEnd(s);
    var n := MW.Floor(s);
    MW.TrimLineEndKeeps(s, budget);
    MW.TrimLineEndText(s);
    MW.JoinSplit(s.parts, n);
    MW.JoinSplit(t.parts, n);
    CoversWithoutTrailing(MW.OpenText(s));
    SwapKeeps(p, MW.Join(s.parts[..n]), MW.OpenText(s), MW.OpenText(t));
  }

  lemma CoversWithoutTrailing(s: Text)
    ensures Covers(s, MW.WithoutTrailing(s, SPACE))
  {
    var cut := |s| - MW.Trailing(s, SPACE);
    assert s == s[..cut] + s[cut..];
    CoversNothing(s[cut..], []);
    CoversSelf(s[..cut]);
    CoversJoin(s[..cut], s[..cut], s[cut..], []);
    assert s[..cut] + [] == s[..cut];
  }

  lemma BreakKeepsText(s: MW.State, budget: int, count: nat, p: Text)
    requires MW.Valid(s, budget) && NoSpace(p) && (s.truncated || Sub(p, MW.Join(s.parts)))
    ensures var b := MW.BreakLines(s, budget, count); b.truncated || Sub(p, MW.Join(b.parts))
  {
    MW.TrimmedKeeps(s, budget);
    MW.TrimLineEndKeeps(s, budget);
    var t := MW.Trimmed(s);
    if !s.truncated { TrimKeepsText(s, budget, p); }
    assert t.truncated == s.truncated;
    var have := MW.Trailing(MW.Join(t.parts), LF);
    MW.BreakLinesIs(s, budget, count, t, have);
    if have < count {
      WriteKeepsText(t, budget, Repeat(LF, count - have), p);
    }
  }

  lemma BreakKeepsMarks(s: MW.State, budget: int, count: nat)
    requires MW.Valid(s, budget)
    ensures var b := MW.BreakLines(s, budget, count); b.marks == s.marks && (s.truncated ==> b.truncated)
  {
    MW.TrimLineEndKeeps(s, budget);
  }

  lemma WriteKeepsText(s: MW.State, budget: int, text: Text, p: Text)
    requires MW.Valid(s, budget) && (s.truncated || Sub(p, MW.Join(s.parts)))
    ensures var t := MW.Write(s, budget, text); t.truncated || Sub(p, MW.Join(t.parts))
  {
    MW.WriteKeeps(s, budget, text);
    if !s.truncated { MoreKeeps(p, MW.Join(s.parts), MW.Fitting(text, budget - |MW.Join(s.parts)|)); }
  }

  predicate EndsIn(s: Text, end: Text) { |end| <= |s| && s[|s| - |end|..] == end }

  lemma EndsInMore(s: Text, more: Text, end: Text)
    requires EndsIn(more, end)
    ensures EndsIn(s, more) ==> EndsIn(s, end)
  {
    if EndsIn(s, more) {
      assert s == s[..|s| - |more|] + more;
    }
  }

  function One(b: bool): nat { if b then 1 else 0 }

  /**
   * The marks of the writer belong to the open code span, link and <pre>, one each and in stack order: the
   * handles of the live ones are distinct and there are as many as marks, so there are never more than
   * three and no handle means another span's mark. Closing a span around a <pre> takes the <pre>'s mark
   * with it; its stale handle then stays past every mark a later link can get.
   */
  predicate Spans(marks: nat, pre: Option<nat>, link: Option<nat>, code: Option<nat>) {
    && (code.Some? ==> code.value < marks)
    && (link.Some? ==> link.value < marks)
    && (code.Some? && link.Some? ==> code.value != link.value)
    && (pre.Some? ==> pre.value < marks || marks + One(link.None?) <= pre.value)
    && (pre.Some? && code.Some? ==> code.value < pre.value)
    && (pre.Some? && link.Some? ==> link.value != pre.value)
    && marks == One(code.Some?) + One(link.Some?) + One(pre.Some? && pre.value < marks)
  }

  /** What closing the span at `handle` leaves of another one: a span opened inside it ends too. */
  function Outside(other: Option<nat>, handle: nat): Option<nat> {
    if other.Some? && other.value > handle then None else other
  }

  lemma SpansAfterLink(marks: nat, pre: Option<nat>, handle: nat, code: Option<nat>)
    requires Spans(marks, pre, Some(handle), code)
    ensures Spans(handle, pre, None, Outside(code, handle))
  {
  }

  lemma SpansAfterCode(marks: nat, link: Option<nat>, handle: nat)
    requires Spans(marks, None, link, Some(handle))
    ensures Spans(handle, None, Outside(link, handle), None)
  {
  }

  lemma SpansAfterPre(marks: nat, handle: nat, link: Option<nat>, code: Option<nat>)
    requires Spans(marks, Some(handle), link, code)
    ensures Spans(if handle < marks then handle else marks, None, Outside(link, handle), code)
  {
  }

  // What the steps write, in terms of the writer's state and of where in the page they stand

  /** `freshItem` behind an item's marker, `lead` the prefix of quotes and lists. */
  datatype Place = Place(max: int, inCell: bool, freshItem: bool, inPre: bool, lead: Text)

  /** A space, unless there is one or nothing to part. */
  function Spaced(p: Place, s: MW.State): MW.State {
    if MW.AtStart(s) || MW.EndsSpaced(s) then s else MW.Write(s, p.max, [SPACE])
  }

  /** The break of a block: none behind a fresh marker, a space in a cell, one line in a <pre>, else a blank line. */
  function Blocked(p: Place, s: MW.State): MW.State {
    if p.freshItem then s else if p.inCell then Spaced(p, s) else MW.BreakLines(s, p.max, if p.inPre then 1 else 2)
  }

  /** The container prefix goes before anything at a line start. */
  function Started(p: Place, s: MW.State): MW.State {
    if MW.AtStart(s) && !p.inPre then MW.Write(s, p.max, p.lead) else s
  }

  function Written(p: Place, s: MW.State, text: Text): MW.State { MW.Write(Started(p, s), p.max, text) }

  function Headed(p: Place, s: MW.State, closing: bool, level: nat): MW.State {
    var b := Blocked(p, s);
    if closing || p.inCell then b else Written(p, b, Repeat(HASH, level) + [SPACE])
  }

  function Ruled(p: Place, s: MW.State): MW.State {
    if p.inCell then Blocked(p, Blocked(p, s))
    else Blocked(p.(freshItem := false), Written(p, Blocked(p, s), [DASH, DASH, DASH]))
  }

  /** An item's prefix, indentation and marker on a line of their own. */
  function Itemed(max: int, s: MW.State, lead: Text): MW.State { MW.Write(MW.BreakLines(s, max, 1), max, lead) }

  function Pictured(p: Place, s: MW.State, src: Text, alt: Text): MW.State {
    if p.inPre then MW.Write(s, p.max, alt)
    else if src == [] && alt == [] then s
    else Written(p, s, ImageOutput(src, alt, false))
  }

  /** The bar in front of every cell of a row but the first. */
  function Celled(p: Place, s: MW.State, closing: bool, index: nat): MW.State {
    if closing || index == 0 then s else Barred(p.max, s)
  }

  function Barred(max: int, s: MW.State): MW.State {
    MW.Write(s, max, if MW.EndsSpaced(s) then [PIPE, SPACE] else [SPACE, PIPE, SPACE])
  }

  function Broken(p: Place, s: MW.State): MW.State {
    if p.inPre then MW.Write(s, p.max, [LF])
    else if p.inCell then Spaced(p, s)
    else MW.BreakLines(s, p.max, 1)
  }

  /** A finished <pre>: fenced with the prefix on every line, in a cell between backticks on one line. */
  function CodeBlock(p: Place, s: MW.State, content: Text): MW.State {
    if p.inCell then
      var text := Trim(Collapse(content));
      if text == [] then s else MW.Write(Spaced(p, s), p.max, Ticked(text, CodeSpan.Fence(text, 1)))
    else
      MW.BreakLines(MW.Write(s, p.max, Fenced(content, p.lead, MW.AtStart(s))), p.max, 2)
  }

  function Fenced(content: Text, lead: Text, atStart: bool): Text {
    var fence := CodeSpan.Fence(content, 3);
    var last := if content == [] || content[|content| - 1] == LF then [] else [LF];
    PrefixLines(fence + [LF] + content + last + fence, lead, atStart, true)
  }

  /** What a tag does, by its name, whether it closes, and whether it stands in a <pre>. */
  datatype TagKind =
    | HeadingTag(level: nat) | QuoteTag | BlockTag(endsCell: bool) | ListTag(ordered: bool) | ItemTag | BreakTag | RuleTag
    | PreTag | CodeTag | StrongTag | EmphasisTag | AnchorTag | ImageTag | RowTag | CellTag | SpaceTag | QuietTag

  function KindOf(name: string, closing: bool, inPre: bool): TagKind {
    if Heading(name) > 0 then HeadingTag(Heading(name))
    else if name in BLOCKS then BlockTag(name == "table")
    else if name == "blockquote" then QuoteTag
    else if name == "ul" || name == "ol" then ListTag(name == "ol")
    else if name == "li" && !closing then ItemTag
    else if name == "br" then BreakTag
    else if name == "hr" then RuleTag
    else if name == "pre" then PreTag
    else InlineKind(name, closing, inPre)
  }

  function InlineKind(name: string, closing: bool, inPre: bool): TagKind {
    if name == "code" && !inPre then CodeTag
    else if name in STRONG && !inPre then StrongTag
    else if name in EMPHASIS && !inPre then EmphasisTag
    else if name == "a" then AnchorTag
    else if name == "img" && !closing then ImageTag
    else if name == "tr" then RowTag
    else if name == "td" || name == "th" then CellTag
    else if name !in INLINE_ELEMENTS && !inPre then SpaceTag
    else QuietTag
  }

  /** The names themselves, as a page writes them. */
  lemma ListNames(closing: bool, inPre: bool)
    ensures KindOf("ul", closing, inPre) == ListTag(false) && KindOf("ol", closing, inPre) == ListTag(true)
    ensures KindOf("li", false, inPre) == ItemTag
  {
  }

  lemma BlockNames(closing: bool, inPre: bool)
    ensures KindOf("table", closing, inPre) == BlockTag(true) && KindOf("p", closing, inPre) == BlockTag(false)
    ensures KindOf("blockquote", closing, inPre) == QuoteTag
    ensures KindOf("h1", closing, inPre) == HeadingTag(1) && KindOf("h6", closing, inPre) == HeadingTag(6)
  {
  }

  lemma LineNames(closing: bool, inPre: bool)
    ensures KindOf("br", closing, inPre) == BreakTag && KindOf("hr", closing, inPre) == RuleTag
    ensures KindOf("pre", closing, inPre) == PreTag && KindOf("code", closing, false) == CodeTag
  {
  }

  lemma EmphasisNames(closing: bool)
    ensures KindOf("b", closing, false) == StrongTag && KindOf("strong", closing, false) == StrongTag
    ensures KindOf("i", closing, false) == EmphasisTag && KindOf("em", closing, false) == EmphasisTag
  {
  }

  lemma InlineNames(closing: bool, inPre: bool)
    ensures KindOf("a", closing, inPre) == AnchorTag && KindOf("img", false, inPre) == ImageTag
  {
  }

  lemma CellNames(closing: bool, inPre: bool)
    ensures KindOf("tr", closing, inPre) == RowTag
    ensures KindOf("td", closing, inPre) == CellTag && KindOf("th", closing, inPre) == CellTag
  {
  }

  /** An element the page's words join over, and one that parts them. */
  lemma OtherNames(closing: bool)
    ensures KindOf("span", closing, false) == QuietTag
  {
  }

  class Converter {
    const out: MW.Writer
    var lists: seq<OpenList>
    var untrackedLists: nat
    var quoteDepth: nat
    var preDepth: nat
    var preFresh: bool
    var pre: Option<nat>
    var link: Option<LinkSpan>
    var code: Option<nat>
    var cellIndex: nat
    var inCell: bool
    var freshItem: bool

    /** What the page has shown so far, without its whitespace. */
    ghost var page: Text

    /** All of it is in the output, in order, with `pending` still to be put; a full output may lack some. */
    ghost predicate KeptWith(pending: Text)
      reads this`page, out
    {
      NoSpace(page) && (out.truncated || Sub(page, MW.Join(out.parts) + pending))
    }

    ghost predicate Kept()
      reads this`page, out
    {
      NoSpace(page) && (out.truncated || Sub(page, MW.Join(out.parts)))
    }

    ghost predicate Steady()
      reads this, out
    {
      out.Sound() && Kept() && Bounded()
    }

    ghost predicate Bounded()
      reads this`lists, this`untrackedLists
    {
      |lists| <= MAX_TRACKED_LISTS &&
      (untrackedLists > 0 ==> |lists| == MAX_TRACKED_LISTS)
    }

    ghost predicate Sound()
      reads this, out
    {
      Settled() && (pre.Some? <==> preDepth > 0)
    }

    ghost predicate Settled()
      reads this, out
    {
      Steady() && Spans(|out.marks|, pre, Handle(link), code)
    }

    static function Handle(link: Option<LinkSpan>): Option<nat> {
      if link.Some? then Some(link.value.handle) else None
    }

    constructor (maxCharacters: int)
      ensures Sound() && fresh(out) && out.maxCharacters == maxCharacters && MW.Join(out.parts) == [] && page == []
    {
      lists, untrackedLists, quoteDepth, preDepth, preFresh := [], 0, 0, 0, false;
      pre, link, code, cellIndex, inCell, freshItem := None, None, None, 0, false, false;
      page := [];
      out := new MW.Writer(maxCharacters);
      new;
      assert Embeds([], page, MW.Join(out.parts));
    }

    ghost function Here(): Place
      reads this`inCell, this`freshItem, this`preDepth, this`quoteDepth, this`lists
    {
      Place(out.maxCharacters, inCell, freshItem, preDepth > 0, Continuation())
    }

    method Put(text: Text)
      requires out.Sound()
      modifies out
      ensures out.Now() == MW.Write(old(out.Now()), out.maxCharacters, text)
      ensures out.Sound() && out.marks == old(out.marks)
      ensures old(out.truncated) ==> out.truncated
      ensures !out.truncated ==> MW.Join(out.parts) == old(MW.Join(out.parts)) + text
      ensures old(Kept()) ==> Kept()
    {
      MW.WriteKeeps(out.Now(), out.maxCharacters, text);
      if Kept() { WriteKeepsText(out.Now(), out.maxCharacters, text, page); }
      out.WriteText(text);
    }

    method Lines(count: nat)
      requires out.Sound()
      modifies out
      ensures out.Now() == MW.BreakLines(old(out.Now()), out.maxCharacters, count)
      ensures out.Sound() && out.marks == old(out.marks)
      ensures old(Kept()) ==> Kept()
      ensures old(out.truncated) ==> out.truncated
    {
      BreakKeepsMarks(out.Now(), out.maxCharacters, count);
      if Kept() { BreakKeepsText(out.Now(), out.maxCharacters, count, page); }
      out.Break(count);
    }

    function QuotePrefix(): Text
      reads this`quoteDepth
    {
      Quotes(if quoteDepth < MAX_QUOTE_PREFIX then quoteDepth else MAX_QUOTE_PREFIX)
    }

    function ContentColumn(): nat
      reads this`lists
    {
      if lists == [] then 0 else lists[|lists| - 1].content
    }

    function Continuation(): Text
      reads this`quoteDepth, this`lists
    {
      QuotePrefix() + Repeat(SPACE, ContentColumn())
    }

    method Space()
      requires out.Sound()
      modifies out
      ensures out.Now() == Spaced(Here(), old(out.Now()))
      ensures out.Sound() && out.marks == old(out.marks)
      ensures old(out.truncated) ==> out.truncated
      ensures !out.truncated ==>
                MW.Join(out.parts) == old(MW.Join(out.parts)) + (if old(out.AtLineStart() || out.EndsWithSpace()) then [] else [SPACE])
      ensures old(Kept()) ==> Kept()
    {
      out.ReadingsAreTrue();
      if !out.AtLineStart() && !out.EndsWithSpace() {
        Put([SPACE]);
      }
    }

    method Block()
      requires out.Sound()
      modifies out
      ensures out.Now() == Blocked(Here(), old(out.Now()))
      ensures out.Sound() && out.marks == old(out.marks)
      ensures old(Kept()) ==> Kept()
    {
      if freshItem {
        return;
      }
      if inCell {
        Space();
      } else {
        Lines(if preDepth > 0 then 1 else 2);
      }
    }

    /** The container prefix goes before anything at a line start. */
    function Lead(): Text
      reads this`preDepth, this`quoteDepth, this`lists, out
    {
      if out.AtLineStart() && preDepth == 0 then Continuation() else []
    }

    method StartLine()
      requires out.Sound()
      modifies out
      ensures out.Now() == old(Started(Here(), out.Now()))
      ensures out.Sound() && out.marks == old(out.marks)
      ensures old(Kept()) ==> Kept()
      ensures old(out.truncated) ==> out.truncated
      ensures !out.truncated ==> MW.Join(out.parts) == old(MW.Join(out.parts)) + old(Lead())
    {
      out.ReadingsAreTrue();
      if out.AtLineStart() && preDepth == 0 {
        Put(Continuation());
      }
    }

    method WriteText(text: Text)
      requires out.Sound()
      modifies out, this`freshItem
      ensures out.Now() == old(Written(Here(), out.Now(), text)) && !freshItem
      ensures out.Sound() && out.marks == old(out.marks)
      ensures old(Kept()) ==> Kept()
      ensures old(out.truncated) ==> out.truncated
      ensures !out.truncated ==> MW.Join(out.parts) == old(MW.Join(out.parts)) + old(Lead()) + text
    {
      StartLine();
      Put(text);
      freshItem := false;
    }

    method Take(handle: nat) returns (taken: Text)
      requires out.Sound()
      modifies out
      ensures out.Sound() && |out.marks| == old(if handle < |out.marks| then handle else |out.marks|)
      ensures old(MW.MarkOf(out.Now(), handle) <= |out.parts|)
      ensures taken == old(MW.TakenText(out.Now(), handle)) && out.Now() == old(MW.Take(out.Now(), handle))
      ensures old(handle >= |out.marks|) ==> taken == []
      ensures old(Kept()) ==> KeptWith(taken)
      ensures old(out.truncated) ==> out.truncated
    {
      MW.TakeKeeps(out.Now(), out.maxCharacters, handle);
      if handle >= |out.marks| { MW.StaleTake(out.Now(), handle); }
      taken := out.TakeSpan(handle);
    }

    /** `Put`, for callers to whom only the text of the output matters. */
    method Append(text: Text)
      requires out.Sound()
      modifies out
      ensures out.Sound() && out.marks == old(out.marks)
      ensures old(out.truncated) ==> out.truncated
      ensures !out.truncated ==> MW.Join(out.parts) == old(MW.Join(out.parts)) + text
    {
      Put(text);
    }

    /** A wrapped span with the spaces of its edges outside. */
    method PutWrapped(taken: Text, wrapped: Text)
      requires out.Sound()
      modifies out
      ensures out.Sound() && out.marks == old(out.marks)
      ensures old(out.truncated) ==> out.truncated
      ensures out.truncated ||
              MW.Join(out.parts) == old(MW.Join(out.parts)) + (Edge(taken) + wrapped + LastEdge(taken))
    {
      ghost var base := MW.Join(out.parts);
      Append(Edge(taken));
      Append(wrapped);
      Append(LastEdge(taken));
      assert base + (Edge(taken) + wrapped + LastEdge(taken)) == base + Edge(taken) + wrapped + LastEdge(taken);
    }

    /** Closes a link over its own mark; a code span opened inside it ends too. */
    method CloseLink(span: LinkSpan, ghost openPre: Option<nat>, ghost openCode: Option<nat>)
      requires Steady() && Spans(|out.marks|, openPre, Some(span.handle), openCode)
      modifies out, this`code
      ensures Steady() && code == old(if code.Some? && code.value > span.handle then None else code)
      ensures Spans(|out.marks|, openPre, None, Outside(openCode, span.handle))
      ensures old(MW.MarkOf(out.Now(), span.handle) <= |out.parts|)
      ensures var taken := old(MW.TakenText(out.Now(), span.handle));
              out.truncated || MW.Join(out.parts) ==
              old(MW.Join(MW.Take(out.Now(), span.handle).parts)) + LinkOutput(taken, span.href, span.inPre)
      ensures old(out.truncated) ==> out.truncated
    {
      SpansAfterLink(|out.marks|, openPre, span.handle, openCode);
      if code.Some? && code.value > span.handle {
        code := None;
      }
      var taken := Take(span.handle);
      PutLink(taken, span);
    }

    method PutLink(taken: Text, span: LinkSpan)
      requires out.Sound()
      modifies out
      ensures out.Sound() && out.marks == old(out.marks)
      ensures out.truncated || MW.Join(out.parts) == old(MW.Join(out.parts)) + LinkOutput(taken, span.href, span.inPre)
      ensures old(KeptWith(taken)) ==> Kept()
      ensures old(out.truncated) ==> out.truncated
    {
      if KeptWith(taken) && !out.truncated { LinkKeeps(page, MW.Join(out.parts), taken, span.href, span.inPre); }
      var text := Trim(taken);
      if span.href == [] || text == [] || span.inPre {
        Append(taken);
      } else {
        PutWrapped(taken, LabelledLink(text, span.href));
      }
    }

    /** Closes a code span over its own mark; a link opened inside it ends too. */
    method CloseCode(handle: nat, ghost openLink: Option<nat>)
      requires Steady() && Spans(|out.marks|, None, openLink, Some(handle))
      modifies out, this`link
      ensures Steady() && link == old(if link.Some? && link.value.handle > handle then None else link)
      ensures Spans(|out.marks|, None, Outside(openLink, handle), None)
      ensures old(MW.MarkOf(out.Now(), handle) <= |out.parts|)
      ensures var taken := old(MW.TakenText(out.Now(), handle));
              out.truncated || MW.Join(out.parts) ==
              old(MW.Join(MW.Take(out.Now(), handle).parts)) + CodeOutput(taken)
      ensures old(out.truncated) ==> out.truncated
    {
      SpansAfterCode(|out.marks|, openLink, handle);
      DropLink(handle);
      var taken := Take(handle);
      PutCode(taken);
    }

    method PutCode(taken: Text)
      requires out.Sound()
      modifies out
      ensures out.Sound() && out.marks == old(out.marks)
      ensures out.truncated || MW.Join(out.parts) == old(MW.Join(out.parts)) + CodeOutput(taken)
      ensures old(KeptWith(taken)) ==> Kept()
      ensures old(out.truncated) ==> out.truncated
    {
      if KeptWith(taken) && !out.truncated { CodeKeeps(page, MW.Join(out.parts), taken); }
      var text := Trim(taken);
      if text == [] {
        Put(taken);
      } else {
        var span := CodeSpan.PrintSpan(text);
        PutWrapped(taken, span);
      }
    }

    /** Closes a <pre> over its own mark or, when a closed link took that mark, over nothing. */
    method ClosePre(handle: nat, ghost openLink: Option<nat>, ghost openCode: Option<nat>)
      requires Steady() && Spans(|out.marks|, Some(handle), openLink, openCode)
      modifies out, this`link, this`freshItem
      ensures Steady() && link == old(if link.Some? && link.value.handle > handle then None else link)
      ensures Spans(|out.marks|, None, Outside(openLink, handle), openCode)
      ensures old(out.truncated) ==> out.truncated
      ensures old(MW.MarkOf(out.Now(), handle) <= |out.parts|)
      ensures out.Now() == old(CodeBlock(Here(), MW.Take(out.Now(), handle).(preserve := false), MW.TakenText(out.Now(), handle)))
    {
      SpansAfterPre(|out.marks|, handle, openLink, openCode);
      DropLink(handle);
      RewritePre(handle);
    }

    /** A link opened inside the span at `handle` ends with it. */
    method DropLink(handle: nat)
      modifies this`link
      ensures link == old(if link.Some? && link.value.handle > handle then None else link)
      ensures Here() == old(Here()) && (old(Kept()) ==> Kept())
    {
      if link.Some? && link.value.handle > handle {
        link := None;
      }
    }

    /** The raw text goes out of the output and comes back as code. */
    method RewritePre(handle: nat)
      requires out.Sound() && Kept()
      modifies out, this`freshItem
      ensures out.Sound() && Kept() && |out.marks| == old(if handle < |out.marks| then handle else |out.marks|)
      ensures old(out.truncated) ==> out.truncated
      ensures old(MW.MarkOf(out.Now(), handle) <= |out.parts|)
      ensures out.Now() == old(CodeBlock(Here(), MW.Take(out.Now(), handle).(preserve := false), MW.TakenText(out.Now(), handle)))
    {
      var content := TakePre(handle);
      WriteBlockCode(content);
    }

    method TakePre(handle: nat) returns (content: Text)
      requires out.Sound() && Kept()
      modifies out
      ensures out.Sound() && |out.marks| == old(if handle < |out.marks| then handle else |out.marks|)
      ensures KeptWith(content) && (old(out.truncated) ==> out.truncated)
      ensures old(MW.MarkOf(out.Now(), handle) <= |out.parts|)
      ensures content == old(MW.TakenText(out.Now(), handle))
      ensures out.Now() == old(MW.Take(out.Now(), handle)).(preserve := false)
    {
      content := Take(handle);
      out.SetPreserve(false);
    }

    /** A fenced block with the container prefix on every line; in a cell inline code, so the row stays one line. */
    method WriteBlockCode(content: Text)
      requires out.Sound() && KeptWith(content)
      modifies out, this`freshItem
      ensures out.Now() == old(CodeBlock(Here(), out.Now(), content))
      ensures out.Sound() && out.marks == old(out.marks) && Kept()
      ensures old(out.truncated) ==> out.truncated
    {
      if inCell {
        WriteCellCode(content);
      } else {
        WriteFenced(content);
        freshItem := false;
        Lines(2);
      }
    }

    method WriteCellCode(content: Text)
      requires out.Sound() && KeptWith(content)
      modifies out
      ensures inCell ==> out.Now() == old(CodeBlock(Here(), out.Now(), content))
      ensures out.Sound() && out.marks == old(out.marks) && Kept()
      ensures old(out.truncated) ==> out.truncated
    {
      var text := Trim(Collapse(content));
      var fence := CodeSpan.BacktickFence(text, 1);
      if !out.truncated {
        CoversOneLine(content);
        CellCodeKeeps(page, MW.Join(out.parts), content, text,
                      if out.AtLineStart() || out.EndsWithSpace() then [] else [SPACE], fence);
      }
      if text != [] {
        Space();
        Put(Ticked(text, fence));
      }
    }

    method WriteFenced(content: Text)
      requires out.Sound() && KeptWith(content)
      modifies out
      ensures out.Now() == old(MW.Write(out.Now(), out.maxCharacters, Fenced(content, Continuation(), MW.AtStart(out.Now()))))
      ensures out.Sound() && out.marks == old(out.marks) && Kept()
      ensures old(out.truncated) ==> out.truncated
    {
      var fence := CodeSpan.BacktickFence(content, 3);
      var last := if content == [] || content[|content| - 1] == LF then [] else [LF];
      if !out.truncated {
        FencedKeeps(page, MW.Join(out.parts), content, fence, last, Continuation(), out.AtLineStart());
      }
      out.ReadingsAreTrue();
      Put(PrefixLines(fence + [LF] + content + last + fence, Continuation(), out.AtLineStart(), true));
    }

    /** The text of a token as it is written here. */
    function Shown(decoded: Text, atPreStart: bool): Text
      reads this`preDepth, this`link, this`code, out
    {
      TokenOutput(decoded, preDepth > 0, atPreStart, out.AtLineStart() || out.EndsWithSpace(), link.Some? && code.None?)
    }

    method StepText(decoded: Text, atPreStart: bool)
      requires Sound()
      modifies out, this`freshItem, this`page
      ensures Sound() && page == old(page) + Visible(decoded)
      ensures old(out.truncated) ==> out.truncated
      ensures !out.truncated ==>
                MW.Join(out.parts) == old(MW.Join(out.parts)) + Led(old(Lead()), old(Shown(decoded, atPreStart)))
    {
      ghost var base, lead := MW.Join(out.parts), Lead();
      var shown := ReadText(decoded, atPreStart);
      PutText(shown);
      if !out.truncated {
        LedKeeps(page, base, decoded, lead, shown, preDepth > 0, atPreStart, old(out.AtLineStart() || out.EndsWithSpace()),
                 link.Some? && code.None?);
      }
      VisibleHasNoSpace(decoded);
      page := page + Visible(decoded);
    }

    method ReadText(decoded: Text, atPreStart: bool) returns (text: Text)
      requires out.Sound()
      ensures text == Shown(decoded, atPreStart)
    {
      if preDepth > 0 {
        return if atPreStart then DropLeadingBreak(decoded) else decoded;
      }
      text := Collapse(decoded);
      if out.AtLineStart() || out.EndsWithSpace() {
        text := TrimStart(text);
      }
      if link.Some? && code.None? {
        text := EscapeBrackets(text);
      }
    }

    method PutText(text: Text)
      requires out.Sound()
      modifies out, this`freshItem
      ensures out.Sound() && out.marks == old(out.marks)
      ensures old(out.truncated) ==> out.truncated
      ensures !out.truncated ==> MW.Join(out.parts) == old(MW.Join(out.parts)) + Led(old(Lead()), text)
    {
      ghost var base, lead := MW.Join(out.parts), Lead();
      Regroup(base, lead, text);
      assert base + [] == base;
      if preDepth > 0 {
        assert lead == [] && lead + text == text;
        Put(text);
      } else if text != [] {
        WriteText(text);
      }
    }

    /** Open lists, the ones past the tracked depth included. */
    function Depth(): nat
      reads this`lists, this`untrackedLists
    {
      |lists| + untrackedLists
    }

    /** The tracked lists behind a list tag. */
    function Nested(closing: bool, ordered: bool): seq<OpenList>
      reads this`lists, this`untrackedLists
    {
      if closing then if untrackedLists > 0 || lists == [] then lists else lists[..|lists| - 1]
      else if |lists| < MAX_TRACKED_LISTS then lists + [OpenList(ordered, 0, ContentColumn())]
      else lists
    }

    method StepList(closing: bool, ordered: bool)
      requires out.Sound() && Bounded()
      modifies out, this`lists, this`untrackedLists, this`freshItem
      ensures out.Sound() && out.marks == old(out.marks) && (old(Kept()) ==> Kept()) && Bounded() && !freshItem
      ensures lists == old(Nested(closing, ordered))
      ensures out.Now() == if inCell then Spaced(Here(), old(out.Now()))
                           else MW.BreakLines(old(out.Now()), out.maxCharacters, if lists == [] then 2 else 1)
      ensures Depth() == if !closing then old(Depth()) + 1 else if old(Depth()) == 0 then 0 else old(Depth()) - 1
    {
      Nest(closing, ordered);
      freshItem := false;
      BreakList();
    }

    method Nest(closing: bool, ordered: bool)
      requires Bounded()
      modifies this`lists, this`untrackedLists
      ensures Bounded() && (old(Kept()) ==> Kept())
      ensures lists == old(Nested(closing, ordered))
      ensures Depth() == if !closing then old(Depth()) + 1 else if old(Depth()) == 0 then 0 else old(Depth()) - 1
      ensures !closing ==> ContentColumn() == old(ContentColumn())
    {
      if closing {
        if untrackedLists > 0 {
          untrackedLists := untrackedLists - 1;
        } else if lists != [] {
          lists := lists[..|lists| - 1];
        }
      } else if |lists| < MAX_TRACKED_LISTS {
        lists := lists + [OpenList(ordered, 0, ContentColumn())];
      } else {
        untrackedLists := untrackedLists + 1;
      }
    }

    method BreakList()
      requires out.Sound()
      modifies out
      ensures out.Now() == if inCell then Spaced(Here(), old(out.Now()))
                           else MW.BreakLines(old(out.Now()), out.maxCharacters, if lists == [] then 2 else 1)
      ensures out.Sound() && out.marks == old(out.marks)
      ensures old(Kept()) ==> Kept()
    {
      if inCell {
        Space();
      } else {
        Lines(if lists == [] then 2 else 1);
      }
    }

    /** The items of a list sit at the content column of the item around the list. */
    function ItemColumn(): nat
      reads this`lists
    {
      var column := if |lists| >= 2 then lists[|lists| - 2].content else 0;
      if column > MAX_LIST_INDENT * 3 then MAX_LIST_INDENT * 3 else column
    }

    function ItemMarker(): Text
      reads this`lists, this`untrackedLists
    {
      if lists != [] && untrackedLists == 0 && lists[|lists| - 1].ordered
      then Decimal(lists[|lists| - 1].count + 1) + [DOT, SPACE]
      else [DASH, SPACE]
    }

    /** The innermost list with its next item counted, when it is ordered, and its content column. */
    function Itemized(): seq<OpenList>
      reads this`lists, this`untrackedLists
    {
      if lists == [] || untrackedLists > 0 then lists
      else
        var last := lists[|lists| - 1];
        lists[|lists| - 1 := OpenList(last.ordered, last.count + One(last.ordered), ItemColumn() + |ItemMarker()|)]
    }

    function ItemLead(): Text
      reads this`quoteDepth, this`lists, this`untrackedLists
    {
      QuotePrefix() + Repeat(SPACE, ItemColumn()) + ItemMarker()
    }

    method StepItem()
      requires out.Sound() && Bounded()
      modifies out, this`lists, this`freshItem
      ensures out.Sound() && out.marks == old(out.marks) && (old(Kept()) ==> Kept()) && Bounded()
      ensures if old(inCell) then lists == old(lists) else lists == old(Itemized()) && freshItem
      ensures out.Now() == old(if inCell then Spaced(Here(), out.Now()) else Itemed(out.maxCharacters, out.Now(), ItemLead()))
      ensures !old(inCell) ==> out.truncated || EndsIn(MW.Join(out.parts), old(ItemLead()))
    {
      if inCell {
        Space();
      } else {
        PlaceItem();
      }
    }

    method PlaceItem()
      requires out.Sound()
      modifies out, this`lists, this`freshItem
      ensures out.Sound() && out.marks == old(out.marks) && (old(Kept()) ==> Kept())
      ensures lists == old(Itemized()) && freshItem
      ensures out.truncated || EndsIn(MW.Join(out.parts), old(ItemLead()))
      ensures out.Now() == old(Itemed(out.maxCharacters, out.Now(), ItemLead()))
    {
      Lines(1);
      assert ItemLead() == old(ItemLead()) && Itemized() == old(Itemized());
      StartItem();
    }

    method StartItem()
      requires out.Sound()
      modifies out, this`lists, this`freshItem
      ensures out.Sound() && out.marks == old(out.marks) && (old(Kept()) ==> Kept())
      ensures lists == old(Itemized()) && freshItem
      ensures out.truncated || EndsIn(MW.Join(out.parts), old(ItemLead()))
      ensures out.Now() == MW.Write(old(out.Now()), out.maxCharacters, old(ItemLead()))
    {
      var lead := NextLead();
      PutAtEnd(lead);
      freshItem := true;
    }

    method NextLead() returns (lead: Text)
      modifies this`lists
      ensures lead == old(ItemLead()) && lists == old(Itemized()) && (old(Kept()) ==> Kept())
    {
      var n := |lists|;
      var column := if n >= 2 then lists[n - 2].content else 0;
      if column > MAX_LIST_INDENT * 3 {
        column := MAX_LIST_INDENT * 3;
      }
      var marker := CountItem(column);
      lead := QuotePrefix() + Repeat(SPACE, column) + marker;
    }

    method PutAtEnd(text: Text)
      requires out.Sound()
      modifies out
      ensures out.Now() == MW.Write(old(out.Now()), out.maxCharacters, text)
      ensures out.Sound() && out.marks == old(out.marks) && (old(Kept()) ==> Kept())
      ensures out.truncated || EndsIn(MW.Join(out.parts), text)
    {
      Put(text);
    }

    method CountItem(column: nat) returns (marker: Text)
      requires column == ItemColumn()
      modifies this`lists
      ensures marker == old(ItemMarker()) && lists == old(Itemized())
    {
      var n := |lists|;
      marker := [DASH, SPACE];
      if n > 0 && untrackedLists == 0 {
        if lists[n - 1].ordered {
          marker := Decimal(lists[n - 1].count + 1) + [DOT, SPACE];
          lists := lists[n - 1 := lists[n - 1].(count := lists[n - 1].count + 1)];
        }
        lists := lists[n - 1 := lists[n - 1].(content := column + |marker|)];
      }
    }

    /** Opens a span behind the container prefix. */
    method BeginSpan() returns (handle: nat)
      requires out.Sound()
      modifies out
      ensures out.Sound() && (old(Kept()) ==> Kept())
      ensures handle == |old(out.marks)| && |out.marks| == handle + 1
    {
      StartLine();
      handle := out.OpenSpan();
    }

    method OpenPre() returns (handle: nat)
      requires out.Sound() && Kept()
      modifies out
      ensures out.Sound() && Kept() && out.preserve
      ensures handle == |old(out.marks)| && |out.marks| == handle + 1
    {
      Block();
      handle := BeginSpan();
      out.SetPreserve(true);
    }

    method StepPre(closing: bool)
      requires Sound()
      modifies out, this`preDepth, this`pre, this`preFresh, this`link, this`freshItem
      ensures Sound()
      ensures preDepth == if !closing then old(preDepth) + 1 else if old(preDepth) > 0 then old(preDepth) - 1 else 0
    {
      if !closing {
        if preDepth == 0 {
          var handle := OpenPre();
          pre := Some(handle);
          preFresh := true;
        }
        preDepth := preDepth + 1;
      } else if preDepth > 0 {
        preDepth := preDepth - 1;
        if preDepth == 0 && pre.Some? {
          EndPre();
        }
      }
    }

    method StepCode(closing: bool)
      requires Sound() && preDepth == 0
      modifies out, this`code, this`link
      ensures Sound() && (code.Some? <==> !closing)
    {
      if !closing && code.None? {
        var handle := BeginSpan();
        code := Some(handle);
      } else if closing && code.Some? {
        EndCode();
      }
    }

    method StepAnchor(closing: bool, href: Text)
      requires Sound()
      modifies out, this`link, this`code
      ensures Sound() && if closing then link == None else link.Some? && link.value.href == href
    {
      if link.Some? {
        EndLink();
      }
      if !closing {
        OpenLink(href);
      }
    }

    method OpenLink(href: Text)
      requires Sound() && link.None?
      modifies out, this`link
      ensures Sound() && link.Some? && link.value.href == href && link.value.inPre == (preDepth > 0)
    {
      var handle := BeginSpan();
      link := Some(LinkSpan(handle, href, preDepth > 0));
    }

    method StepImage(src: Text, alt: Text)
      requires out.Sound()
      modifies out, this`freshItem
      ensures out.Sound() && out.marks == old(out.marks) && (old(Kept()) ==> Kept())
      ensures out.truncated || EndsIn(MW.Join(out.parts), ImageOutput(src, alt, preDepth > 0))
      ensures out.Now() == old(Pictured(Here(), out.Now(), src, alt))
    {
      if preDepth > 0 {
        Put(alt);
      } else if src != [] {
        WriteAtEnd(ImageOutput(src, alt, false));
      } else if alt != [] {
        WriteAtEnd(alt);
      }
    }

    method StepBreak()
      requires out.Sound()
      modifies out, this`freshItem
      ensures out.Sound() && out.marks == old(out.marks) && (old(Kept()) ==> Kept())
      ensures out.Now() == old(Broken(Here(), out.Now()))
    {
      if preDepth > 0 {
        Put([LF]);
      } else if inCell {
        Space();
      } else {
        freshItem := false;
        Lines(1);
      }
    }

    method StepCell(closing: bool)
      requires out.Sound()
      modifies out, this`inCell, this`cellIndex
      ensures out.Sound() && out.marks == old(out.marks) && (old(Kept()) ==> Kept()) && inCell == !closing && cellIndex == old(cellIndex) + One(!closing)
      ensures !closing && old(cellIndex) > 0 ==> out.truncated || EndsIn(MW.Join(out.parts), [PIPE, SPACE])
      ensures out.Now() == old(Celled(Here(), out.Now(), closing, cellIndex))
    {
      inCell := !closing;
      if !closing {
        if cellIndex > 0 {
          PutBar();
        }
        cellIndex := cellIndex + 1;
      }
    }

    method PutBar()
      requires out.Sound()
      modifies out
      ensures out.Sound() && out.marks == old(out.marks) && (old(Kept()) ==> Kept())
      ensures out.truncated || EndsIn(MW.Join(out.parts), [PIPE, SPACE])
      ensures out.Now() == old(Barred(out.maxCharacters, out.Now()))
    {
      out.ReadingsAreTrue();
      var bar := if out.EndsWithSpace() then [PIPE, SPACE] else [SPACE, PIPE, SPACE];
      PutAtEnd(bar);
      EndsInMore(MW.Join(out.parts), bar, [PIPE, SPACE]);
    }

    method StepHeading(closing: bool, level: nat)
      requires out.Sound()
      modifies out, this`freshItem
      ensures out.Sound() && out.marks == old(out.marks) && (old(Kept()) ==> Kept())
      ensures !closing && !inCell ==> out.truncated || EndsIn(MW.Join(out.parts), Repeat(HASH, level) + [SPACE])
      ensures out.Now() == old(Headed(Here(), out.Now(), closing, level))
    {
      Block();
      if !closing && !inCell {
        WriteAtEnd(Repeat(HASH, level) + [SPACE]);
      }
    }

    method WriteAtEnd(text: Text)
      requires out.Sound()
      modifies out, this`freshItem
      ensures out.Now() == old(Written(Here(), out.Now(), text))
      ensures out.Sound() && out.marks == old(out.marks) && (old(Kept()) ==> Kept())
      ensures out.truncated || EndsIn(MW.Join(out.parts), text)
    {
      WriteText(text);
    }

    method StepRule()
      requires out.Sound()
      modifies out, this`freshItem
      ensures out.Sound() && out.marks == old(out.marks) && (old(Kept()) ==> Kept())
      ensures out.Now() == old(Ruled(Here(), out.Now()))
    {
      if inCell {
        Block();
      } else {
        WriteRule();
      }
      Block();
    }

    method WriteRule()
      requires out.Sound() && !inCell
      modifies out, this`freshItem
      ensures out.Sound() && out.marks == old(out.marks) && (old(Kept()) ==> Kept()) && !freshItem
      ensures out.Now() == old(Written(Here(), Blocked(Here(), out.Now()), [DASH, DASH, DASH]))
    {
      Block();
      WriteText([DASH, DASH, DASH]);
    }

    function ListsAfter(kind: TagKind, closing: bool): seq<OpenList>
      reads this`lists, this`untrackedLists, this`inCell
    {
      match kind
      case ListTag(ordered) => Nested(closing, ordered)
      case ItemTag => if inCell then lists else Itemized()
      case _ => lists
    }

    function QuotesAfter(kind: TagKind, closing: bool): nat
      reads this`quoteDepth
    {
      if !kind.QuoteTag? then quoteDepth else if !closing then quoteDepth + 1 else if quoteDepth > 0 then quoteDepth - 1 else 0
    }

    predicate InCellAfter(kind: TagKind, closing: bool)
      reads this`inCell
    {
      match kind
      case BlockTag(endsCell) => inCell && !endsCell
      case RowTag => false
      case CellTag => !closing
      case _ => inCell
    }

    function CellIndexAfter(kind: TagKind, closing: bool): nat
      reads this`cellIndex
    {
      if kind.RowTag? then 0 else if kind.CellTag? then cellIndex + One(!closing) else cellIndex
    }

    // The writer's state behind a tag that opens and closes no span

    ghost function NestOutput(kind: TagKind, closing: bool): MW.State
      requires kind.ListTag? || kind.ItemTag?
      reads this`inCell, this`freshItem, this`preDepth, this`quoteDepth, this`lists, this`untrackedLists, out
    {
      var p, s := Here(), out.Now();
      if inCell then Spaced(p, s)
      else if kind.ItemTag? then Itemed(p.max, s, ItemLead())
      else MW.BreakLines(s, p.max, if Nested(closing, kind.ordered) == [] then 2 else 1)
    }

    ghost function BlockOutput(kind: TagKind, closing: bool): MW.State
      requires kind.HeadingTag? || kind.QuoteTag? || kind.BlockTag?
      reads this`inCell, this`freshItem, this`preDepth, this`quoteDepth, this`lists, out
    {
      var p, s := Here(), out.Now();
      match kind
      case HeadingTag(level) => Headed(p, s, closing, level)
      case QuoteTag => Blocked(p, s)
      case BlockTag(endsCell) => Blocked(p.(inCell := inCell && !endsCell), s)
    }

    ghost function TextOutput(kind: TagKind, src: Text, alt: Text): MW.State
      requires kind.StrongTag? || kind.EmphasisTag? || kind.ImageTag?
      reads this`inCell, this`freshItem, this`preDepth, this`quoteDepth, this`lists, out
    {
      if kind.ImageTag? then Pictured(Here(), out.Now(), src, alt)
      else Written(Here(), out.Now(), if kind.StrongTag? then [STAR, STAR] else [STAR])
    }

    ghost function LineOutput(kind: TagKind): MW.State
      requires kind.BreakTag? || kind.RuleTag?
      reads this`inCell, this`freshItem, this`preDepth, this`quoteDepth, this`lists, out
    {
      if kind.BreakTag? then Broken(Here(), out.Now()) else Ruled(Here(), out.Now())
    }

    /** What a tag that opens and closes no span does to the output. */
    twostate predicate Outputs(kind: TagKind, closing: bool, src: Text, alt: Text)
      reads this, out
    {
      if OfFlow(kind) then FlowOutputs(kind, closing) else PhraseOutputs(kind, closing, src, alt)
    }

    twostate predicate FlowOutputs(kind: TagKind, closing: bool)
      reads this, out
    {
      && (kind.ListTag? || kind.ItemTag? ==> out.Now() == old(NestOutput(kind, closing)))
      && (kind.HeadingTag? || kind.QuoteTag? || kind.BlockTag? ==> out.Now() == old(BlockOutput(kind, closing)))
    }

    twostate predicate PhraseOutputs(kind: TagKind, closing: bool, src: Text, alt: Text)
      reads this, out
    {
      if OfCells(kind) then CellOutputs(kind, closing)
      else if kind.BreakTag? || kind.RuleTag? then out.Now() == old(LineOutput(kind))
      else kind.StrongTag? || kind.EmphasisTag? || kind.ImageTag? ==> out.Now() == old(TextOutput(kind, src, alt))
    }

    static predicate OfCells(kind: TagKind) { kind.RowTag? || kind.CellTag? || kind.SpaceTag? || kind.QuietTag? }

    twostate predicate CellOutputs(kind: TagKind, closing: bool)
      reads this, out
    {
      && (kind.RowTag? ==> out.Now() == old(MW.BreakLines(out.Now(), out.maxCharacters, 1)))
      && (kind.CellTag? ==> out.Now() == old(Celled(Here(), out.Now(), closing, cellIndex)))
      && (kind.SpaceTag? ==> out.Now() == old(Spaced(Here(), out.Now())))
      && (kind.QuietTag? ==> out.Now() == old(out.Now()))
    }

    /** A tag, by its kind. */
    method StepTag(closing: bool, name: string, href: Text, src: Text, alt: Text)
      requires Sound()
      modifies out, this`lists, this`untrackedLists, this`quoteDepth, this`preDepth, this`pre, this`preFresh, this`link, this`code
      modifies this`inCell, this`cellIndex, this`freshItem
      ensures Sound()
      ensures var kind := KindOf(name, closing, old(preDepth) > 0);
              && lists == old(ListsAfter(kind, closing)) && quoteDepth == old(QuotesAfter(kind, closing))
              && inCell == old(InCellAfter(kind, closing)) && cellIndex == old(CellIndexAfter(kind, closing))
              && preDepth == (if kind.PreTag? then old(DepthAfter(closing)) else old(preDepth))
              && (kind.CodeTag? ==> (code.Some? <==> !closing))
              && (kind.AnchorTag? ==> if closing then link == None else link.Some? && link.value.href == href)
              && Outputs(kind, closing, src, alt)
    {
      StepAny(KindOf(name, closing, preDepth > 0), closing, href, src, alt);
    }

    method StepAny(kind: TagKind, closing: bool, href: Text, src: Text, alt: Text)
      requires Sound() && (kind.CodeTag? ==> preDepth == 0)
      modifies out, this`lists, this`untrackedLists, this`quoteDepth, this`preDepth, this`pre, this`preFresh, this`link, this`code
      modifies this`inCell, this`cellIndex, this`freshItem
      ensures Sound() && Outputs(kind, closing, src, alt)
      ensures lists == old(ListsAfter(kind, closing)) && quoteDepth == old(QuotesAfter(kind, closing))
      ensures inCell == old(InCellAfter(kind, closing)) && cellIndex == old(CellIndexAfter(kind, closing))
      ensures preDepth == if kind.PreTag? then old(DepthAfter(closing)) else old(preDepth)
      ensures kind.CodeTag? ==> (code.Some? <==> !closing)
      ensures kind.AnchorTag? ==> if closing then link == None else link.Some? && link.value.href == href
    {
      if kind.PreTag? || kind.CodeTag? || kind.AnchorTag? {
        StepSpan(kind, closing, href);
      } else {
        StepKind(kind, closing, src, alt);
      }
    }


    method StepKind(kind: TagKind, closing: bool, src: Text, alt: Text)
      requires Sound() && !kind.PreTag? && !kind.CodeTag? && !kind.AnchorTag?
      modifies out, this`lists, this`untrackedLists, this`quoteDepth, this`inCell, this`cellIndex, this`freshItem
      ensures Sound()
      ensures lists == old(ListsAfter(kind, closing)) && quoteDepth == old(QuotesAfter(kind, closing))
      ensures inCell == old(InCellAfter(kind, closing)) && cellIndex == old(CellIndexAfter(kind, closing))
      ensures Outputs(kind, closing, src, alt)
    {
      ghost var marks := |out.marks|;
      StepPlain(kind, closing, src, alt);
      assert Kept() && Steady();
      assert |out.marks| == marks && Settled();
    }

    method StepPlain(kind: TagKind, closing: bool, src: Text, alt: Text)
      requires out.Sound() && Bounded() && !kind.PreTag? && !kind.CodeTag? && !kind.AnchorTag?
      modifies out, this`lists, this`untrackedLists, this`quoteDepth, this`inCell, this`cellIndex, this`freshItem
      ensures out.Sound() && out.marks == old(out.marks) && (old(Kept()) ==> Kept()) && Bounded()
      ensures if OfFlow(kind) then lists == old(ListsAfter(kind, closing)) && quoteDepth == old(QuotesAfter(kind, closing))
              else lists == old(lists) && quoteDepth == old(quoteDepth)
      ensures inCell == old(InCellAfter(kind, closing))
      ensures cellIndex == if OfFlow(kind) then old(cellIndex) else old(CellIndexAfter(kind, closing))
      ensures Outputs(kind, closing, src, alt)
    {
      if OfFlow(kind) {
        StepFlow(kind, closing);
      } else {
        StepPhrase(kind, closing, src, alt);
      }
    }

    method StepSpan(kind: TagKind, closing: bool, href: Text)
      requires Sound() && (kind.PreTag? || kind.CodeTag? || kind.AnchorTag?) && (kind.CodeTag? ==> preDepth == 0)
      modifies out, this`preDepth, this`pre, this`preFresh, this`link, this`code, this`freshItem
      ensures Sound()
      ensures preDepth == if kind.PreTag? then old(DepthAfter(closing)) else old(preDepth)
      ensures kind.CodeTag? ==> (code.Some? <==> !closing)
      ensures kind.AnchorTag? ==> if closing then link == None else link.Some? && link.value.href == href
    {
      if kind.PreTag? {
        StepPre(closing);
      } else if kind.CodeTag? {
        StepCode(closing);
      } else {
        StepAnchor(closing, href);
      }
    }

    function DepthAfter(closing: bool): nat
      reads this`preDepth
    {
      if !closing then preDepth + 1 else if preDepth > 0 then preDepth - 1 else 0
    }

    static predicate OfFlow(kind: TagKind) {
      kind.ListTag? || kind.ItemTag? || kind.HeadingTag? || kind.QuoteTag? || kind.BlockTag?
    }

    method StepFlow(kind: TagKind, closing: bool)
      requires out.Sound() && Bounded() && OfFlow(kind)
      modifies out, this`lists, this`untrackedLists, this`quoteDepth, this`inCell, this`freshItem
      ensures out.Sound() && out.marks == old(out.marks) && (old(Kept()) ==> Kept()) && Bounded()
      ensures lists == old(ListsAfter(kind, closing)) && quoteDepth == old(QuotesAfter(kind, closing))
      ensures inCell == old(InCellAfter(kind, closing))
      ensures FlowOutputs(kind, closing)
    {
      if kind.ListTag? || kind.ItemTag? {
        StepNest(kind, closing);
      } else {
        StepBlocks(kind, closing);
      }
    }

    method StepPhrase(kind: TagKind, closing: bool, src: Text, alt: Text)
      requires out.Sound() && !OfFlow(kind) && !kind.PreTag? && !kind.CodeTag? && !kind.AnchorTag?
      modifies out, this`inCell, this`cellIndex, this`freshItem
      ensures out.Sound() && out.marks == old(out.marks) && (old(Kept()) ==> Kept())
      ensures inCell == old(InCellAfter(kind, closing)) && cellIndex == old(CellIndexAfter(kind, closing))
      ensures PhraseOutputs(kind, closing, src, alt)
    {
      if OfCells(kind) {
        StepCells(kind, closing);
      } else if kind.BreakTag? || kind.RuleTag? {
        StepLine(kind);
      } else {
        StepWords(kind, src, alt);
      }
    }

    method StepCells(kind: TagKind, closing: bool)
      requires out.Sound() && OfCells(kind)
      modifies out, this`inCell, this`cellIndex
      ensures out.Sound() && out.marks == old(out.marks) && (old(Kept()) ==> Kept())
      ensures inCell == old(InCellAfter(kind, closing)) && cellIndex == old(CellIndexAfter(kind, closing))
      ensures CellOutputs(kind, closing)
    {
      if kind.RowTag? {
        StepRow();
      } else if kind.CellTag? {
        StepCell(closing);
      } else if kind.SpaceTag? {
        Space();
      }
    }

    method StepNest(kind: TagKind, closing: bool)
      requires out.Sound() && Bounded() && (kind.ListTag? || kind.ItemTag?)
      modifies out, this`lists, this`untrackedLists, this`freshItem
      ensures out.Sound() && out.marks == old(out.marks) && (old(Kept()) ==> Kept()) && Bounded()
      ensures lists == old(ListsAfter(kind, closing)) && out.Now() == old(NestOutput(kind, closing))
    {
      if kind.ListTag? {
        StepList(closing, kind.ordered);
      } else {
        StepItem();
      }
    }

    method StepBlocks(kind: TagKind, closing: bool)
      requires out.Sound() && (kind.HeadingTag? || kind.QuoteTag? || kind.BlockTag?)
      modifies out, this`quoteDepth, this`inCell, this`freshItem
      ensures out.Sound() && out.marks == old(out.marks) && (old(Kept()) ==> Kept())
      ensures quoteDepth == old(QuotesAfter(kind, closing)) && inCell == old(InCellAfter(kind, closing))
      ensures out.Now() == old(BlockOutput(kind, closing))
    {
      match kind
      case HeadingTag(level) => StepHeading(closing, level);
      case QuoteTag => StepQuote(closing);
      case BlockTag(endsCell) => StepBlock(endsCell);
    }

    method StepWords(kind: TagKind, src: Text, alt: Text)
      requires out.Sound() && (kind.StrongTag? || kind.EmphasisTag? || kind.ImageTag?)
      modifies out, this`freshItem
      ensures out.Sound() && out.marks == old(out.marks) && (old(Kept()) ==> Kept())
      ensures out.Now() == old(TextOutput(kind, src, alt))
    {
      if kind.ImageTag? {
        StepImage(src, alt);
      } else {
        WriteText(if kind.StrongTag? then [STAR, STAR] else [STAR]);
      }
    }

    method StepLine(kind: TagKind)
      requires out.Sound() && (kind.BreakTag? || kind.RuleTag?)
      modifies out, this`freshItem
      ensures out.Sound() && out.marks == old(out.marks) && (old(Kept()) ==> Kept())
      ensures out.Now() == old(LineOutput(kind))
    {
      if kind.BreakTag? {
        StepBreak();
      } else {
        StepRule();
      }
    }

    method StepQuote(closing: bool)
      requires out.Sound()
      modifies out, this`quoteDepth
      ensures out.Sound() && out.marks == old(out.marks) && (old(Kept()) ==> Kept())
      ensures quoteDepth == if !closing then old(quoteDepth) + 1 else if old(quoteDepth) > 0 then old(quoteDepth) - 1 else 0
      ensures out.Now() == Blocked(Here(), old(out.Now()))
    {
      quoteDepth := if !closing then quoteDepth + 1 else if quoteDepth > 0 then quoteDepth - 1 else 0;
      Block();
    }

    /** A table also ends the cell it stands in. */
    method StepBlock(endsCell: bool)
      requires out.Sound()
      modifies out, this`inCell
      ensures out.Sound() && out.marks == old(out.marks) && (old(Kept()) ==> Kept()) && inCell == (old(inCell) && !endsCell)
      ensures out.Now() == Blocked(Here(), old(out.Now()))
    {
      if endsCell {
        inCell := false;
      }
      Block();
    }

    method StepRow()
      requires out.Sound()
      modifies out, this`inCell, this`cellIndex
      ensures out.Sound() && out.marks == old(out.marks) && (old(Kept()) ==> Kept()) && !inCell && cellIndex == 0
      ensures out.Now() == MW.BreakLines(old(out.Now()), out.maxCharacters, 1)
    {
      inCell, cellIndex := false, 0;
      Lines(1);
    }

    method StepSkip()
      requires out.Sound()
      modifies out
      ensures out.Sound() && out.marks == old(out.marks) && (old(Kept()) ==> Kept())
      ensures out.Now() == old(if preDepth == 0 then Spaced(Here(), out.Now()) else out.Now())
    {
      if preDepth == 0 {
        Space();
      }
    }

    method StepToken(token: Token, atPreStart: bool)
      requires Sound()
      modifies out, this
      ensures Sound() && page == old(page) + ShownBy(token)
      ensures token.SkipToken? ==> out.Now() == old(if preDepth == 0 then Spaced(Here(), out.Now()) else out.Now())
      ensures token.TextToken? && !out.truncated ==>
                MW.Join(out.parts) == old(MW.Join(out.parts)) + Led(old(Lead()), old(Shown(token.text, atPreStart)))
      ensures token.TagToken? ==> lists == old(ListsAfter(KindOf(token.name, token.closing, preDepth > 0), token.closing))
    {
      if token.TextToken? {
        StepText(token.text, atPreStart);
      } else if token.TagToken? {
        StepTag(token.closing, token.name, token.href, token.src, token.alt);
        assert page + [] == page;
      } else {
        StepSkip();
        assert page + [] == page && Sound();
      }
    }

    method Step(token: Token)
      requires Sound()
      modifies out, this
      ensures Sound() && page == old(page) + ShownBy(token)
    {
      var atPreStart := preFresh;
      preFresh := false;
      StepToken(token, atPreStart);
    }

    method EndPre()
      requires Settled() && pre.Some?
      modifies out, this`pre, this`link, this`freshItem
      ensures Settled() && pre.None? && Handle(link) == old(Outside(Handle(link), pre.value))
      ensures old(out.truncated) ==> out.truncated
    {
      ghost var openLink := Outside(Handle(link), pre.value);
      ClosePre(pre.value, Handle(link), code);
      assert Steady() && Spans(|out.marks|, None, openLink, code);
      pre := None;
      assert Handle(link) == openLink && Settled();
    }

    method EndLink()
      requires Settled() && link.Some?
      modifies out, this`link, this`code
      ensures Settled() && link.None? && code == old(Outside(code, link.value.handle))
      ensures old(out.truncated) ==> out.truncated
    {
      CloseLink(link.value, pre, code);
      link := None;
    }

    method EndCode()
      requires Settled() && code.Some? && pre.None?
      modifies out, this`link, this`code
      ensures Settled() && code.None? && Handle(link) == old(Outside(Handle(link), code.value))
      ensures old(out.truncated) ==> out.truncated
    {
      CloseCode(code.value, Handle(link));
      code := None;
    }

    /** Spans still open at the end close from the innermost out. */
    method CloseAll()
      requires Settled()
      modifies out, this
      ensures out.Sound() && out.marks == [] && Kept() && page == old(page)
      ensures old(out.truncated) ==> out.truncated
    {
      if pre.Some? && (link.None? || pre.value > link.value.handle) {
        EndPre();
      }
      CloseLinkAndPre();
      CloseRest();
    }

    method CloseLinkAndPre()
      requires Settled()
      modifies out, this
      ensures Settled() && pre.None? && page == old(page)
      ensures old(out.truncated) ==> out.truncated
    {
      if link.Some? && (code.None? || link.value.handle > code.value) {
        EndLink();
      }
      if pre.Some? {
        EndPre();
      }
    }

    method CloseRest()
      requires Settled() && pre.None?
      modifies out, this
      ensures out.Sound() && out.marks == [] && Kept() && page == old(page)
      ensures old(out.truncated) ==> out.truncated
    {
      if code.Some? {
        EndCode();
      }
      if link.Some? {
        EndLink();
      }
    }

    /** The result of a finished page. */
    method Finish() returns (markdown: Text)
      requires Settled()
      modifies out, this
      ensures |markdown| <= MW.Cap(out.maxCharacters) && page == old(page)
      ensures old(out.truncated) ==> out.truncated
      ensures !out.truncated ==> Sub(page, markdown)
    {
      CloseAll();
      markdown := out.Result();
      if !out.truncated { TrimKeeps(page, MW.Join(out.parts)); }
    }
  }

  function ShownBy(token: Token): Text { if token.TextToken? then Visible(token.text) else [] }

  /** What a page shows: its text tokens without whitespace. */
  function PageText(tokens: seq<Token>): Text {
    if tokens == [] then [] else PageText(tokens[..|tokens| - 1]) + ShownBy(tokens[|tokens| - 1])
  }

  lemma PageTextNext(tokens: seq<Token>, i: nat)
    requires i < |tokens|
    ensures PageText(tokens[..i + 1]) == PageText(tokens[..i]) + ShownBy(tokens[i])
  {
    assert tokens[..i + 1][..i] == tokens[..i];
  }

  lemma AllTokens(tokens: seq<Token>)
    ensures PageText(tokens[..|tokens|]) == PageText(tokens) && PageText(tokens[..0]) == []
  {
    assert tokens[..|tokens|] == tokens && tokens[..0] == [];
  }

  /** The tokens one after the other, until the output is full. */
  method ConvertTokens(tokens: seq<Token>, maxOutputCharacters: int) returns (converter: Converter)
    ensures fresh(converter) && fresh(converter.out) && converter.Sound()
    ensures converter.out.maxCharacters == maxOutputCharacters
    ensures !converter.out.truncated ==> converter.page == PageText(tokens)
  {
    converter := new Converter(maxOutputCharacters);
    AllTokens(tokens);
    var i := 0;
    while i < |tokens| && !converter.out.truncated
      invariant i <= |tokens| && converter.Sound() && fresh(converter) && fresh(converter.out)
      invariant converter.out.maxCharacters == maxOutputCharacters
      invariant converter.page == PageText(tokens[..i])
    {
      PageTextNext(tokens, i);
      converter.Step(tokens[i]);
      i := i + 1;
    }
  }

  /**
   * The Markdown of a token stream. It always fits the budget, and unless it is marked as truncated every
   * character the page shows is in it, in order.
   */
  method HtmlToMarkdown(tokens: seq<Token>, maxOutputCharacters: int) returns (markdown: Text, truncated: bool)
    ensures |markdown| <= MW.Cap(maxOutputCharacters)
    ensures !truncated ==> Sub(PageText(tokens), markdown)
  {
    var converter := ConvertTokens(tokens, maxOutputCharacters);
    markdown := converter.Finish();
    truncated := converter.out.truncated;
  }
}
