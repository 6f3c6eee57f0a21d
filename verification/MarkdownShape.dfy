/** What the Markdown of html-markdown.ts looks like: spaces, line breaks, prefixes, labels and cells. */
module MarkdownShape {
  import opened Utf16
  import opened HtmlMarkdown
  import MW = MarkdownWriter
  import CodeSpan

  // Text

  predicate SingleSpaces(t: Text) {
    && (forall i :: 0 <= i < |t| ==> IsCollapsed(t[i]) ==> t[i] == SPACE)
    && (forall i :: 0 <= i < |t| - 1 ==> t[i] == SPACE ==> t[i + 1] != SPACE)
  }

  lemma OneMoreUnit(u: Unit, rest: Text)
    requires SingleSpaces(rest) && (IsCollapsed(u) ==> u == SPACE) && (u == SPACE && rest != [] ==> rest[0] != SPACE)
    ensures SingleSpaces([u] + rest)
  {
    var t := [u] + rest;
    forall i | 0 <= i < |t| - 1 && t[i] == SPACE ensures t[i + 1] != SPACE {
      if i > 0 { assert rest[i - 1] == SPACE; }
    }
  }

  /** Collapsed text has no whitespace but single spaces. */
  lemma {:induction false} CollapsedSpaces(s: Text, inRun: bool)
    ensures SingleSpaces(Collapse(s, inRun)) && (inRun && Collapse(s, inRun) != [] ==> Collapse(s, inRun)[0] != SPACE)
    decreases |s|
  {
    if s != [] {
      var rest := Collapse(s[1..], IsCollapsed(s[0]));
      CollapsedSpaces(s[1..], IsCollapsed(s[0]));
      if IsCollapsed(s[0]) {
        OneMoreUnit(SPACE, rest);
        assert [] + rest == rest;
      } else {
        OneMoreUnit(s[0], rest);
      }
    }
  }

  predicate IsBracket(u: Unit) { u == BRACKET_OPEN || u == BRACKET_CLOSE }

  /** In a link label every bracket stands behind a backslash. */
  lemma {:induction false} BracketsEscaped(s: Text, i: nat)
    requires i < |EscapeBrackets(s)| && IsBracket(EscapeBrackets(s)[i])
    ensures i > 0 && EscapeBrackets(s)[i - 1] == BACKSLASH
    decreases |s|
  {
    var head := if IsBracket(s[0]) then [BACKSLASH, s[0]] else [s[0]];
    assert EscapeBrackets(s) == head + EscapeBrackets(s[1..]);
    if i >= |head| { BracketsEscaped(s[1..], i - |head|); }
  }

  /** What stands in front of the address of a link, and the address. */
  function Shown(text: Text): Text { if LF in text then text + [SPACE] else [BRACKET_OPEN] + text + [BRACKET_CLOSE] }

  function Address(href: Text): Text { [PAREN_OPEN] + href + [PAREN_CLOSE] }

  /** A link shows its text and then its address, with the spaces of its edges outside. */
  lemma LinkShowsAddress(taken: Text, href: Text)
    requires href != [] && Trim(taken) != []
    ensures LinkOutput(taken, href, false) == Edge(taken) + (Shown(Trim(taken)) + Address(href)) + LastEdge(taken)
  {
    AddressLast(Trim(taken), href);
  }

  lemma AddressLast(text: Text, href: Text)
    ensures LabelledLink(text, href) == Shown(text) + Address(href)
  {
    var tail := href + [PAREN_CLOSE];
    if LF in text {
      assert [SPACE, PAREN_OPEN] + href + [PAREN_CLOSE] == [SPACE] + ([PAREN_OPEN] + tail);
      assert Address(href) == [PAREN_OPEN] + tail;
    } else {
      assert [BRACKET_CLOSE, PAREN_OPEN] + href + [PAREN_CLOSE] == [BRACKET_CLOSE] + ([PAREN_OPEN] + tail);
      assert Address(href) == [PAREN_OPEN] + tail;
    }
  }

  // Lines

  /** Behind every line break of a text stands `start`. */
  predicate EveryLine(t: Text, start: Text) { forall i :: 0 <= i < |t| && t[i] == LF ==> start <= t[i + 1..] }

  /** Behind every line break of a fenced block stands the container prefix, at least without its trailing spaces. */
  lemma {:induction false} PrefixOnEveryLine(s: Text, prefix: Text, atStart: bool, first: bool)
    requires LF !in prefix
    ensures EveryLine(PrefixLines(s, prefix, atStart, first), TrimEnd(prefix))
    decreases |s|
  {
    var end := IndexOf(s, [LF], 0);
    var line := if end == -1 then s else s[..end];
    var lead := if first && !atStart then [] else if line == [] then TrimEnd(prefix) else prefix;
    LineHasNone(s, end, line);
    assert LF !in lead + line;
    if end != -1 {
      PrefixOnEveryLine(s[end + 1..], prefix, atStart, false);
      BeginsPrefixed(s[end + 1..], prefix, atStart);
      OneMoreLine(lead + line, PrefixLines(s[end + 1..], prefix, atStart, false), TrimEnd(prefix));
    }
  }

  lemma OneMoreLine(line: Text, rest: Text, start: Text)
    requires LF !in line && start <= rest && EveryLine(rest, start)
    ensures EveryLine(line + [LF] + rest, start)
  {
    var t := line + [LF] + rest;
    forall i | 0 <= i < |t| && t[i] == LF ensures start <= t[i + 1..] {
      if i == |line| {
        assert t[i + 1..] == rest;
      } else {
        var k := i - |line| - 1;
        assert i > |line| && rest[k] == LF && t[i + 1..] == rest[k + 1..];
      }
    }
  }

  lemma LineHasNone(s: Text, end: int, line: Text)
    requires end == IndexOf(s, [LF], 0) && line == if end == -1 then s else s[..end]
    ensures LF !in line
  {
    forall i | 0 <= i < |line| ensures line[i] != LF {
      assert !At(s, [LF], i);
      assert s[i..i + 1] == [s[i]];
    }
  }

  lemma BeginsPrefixed(s: Text, prefix: Text, atStart: bool)
    ensures TrimEnd(prefix) <= PrefixLines(s, prefix, atStart, false)
  {
    var end := IndexOf(s, [LF], 0);
    var line := if end == -1 then s else s[..end];
    var lead := if line == [] then TrimEnd(prefix) else prefix;
    assert TrimEnd(prefix) <= lead;
    if end == -1 {
      assert PrefixLines(s, prefix, atStart, false) == lead + line;
    } else {
      assert PrefixLines(s, prefix, atStart, false) == lead + line + [LF] + PrefixLines(s[end + 1..], prefix, atStart, false);
    }
  }

  /** A block outside cells, <pre> and fresh items stands behind a blank line, or begins the output. */
  lemma BlankLine(p: Place, s: MW.State)
    requires MW.Valid(s, p.max) && !p.freshItem && !p.inCell && !p.inPre
    requires 2 <= p.max - |MW.Join(MW.Trimmed(s).parts)|
    ensures Blocked(p, s).parts == [] || MW.Trailing(MW.Join(Blocked(p, s).parts), LF) >= 2
  {
    MW.BreakLinesBreaks(s, p.max, 2);
  }

  /** A break first takes the spaces that end the line, down to the innermost open span, unless text is preserved. */
  lemma BreakTakesSpaces(s: MW.State, max: int, count: nat) returns (breaks: nat)
    requires MW.Valid(s, max)
    ensures breaks <= count
    ensures var n := MW.Floor(s);
            n <= |s.parts| && MW.Join(MW.BreakLines(s, max, count).parts) ==
              MW.Join(s.parts[..n]) + (if s.preserve then MW.OpenText(s) else MW.WithoutTrailing(MW.OpenText(s), SPACE))
              + Repeat(LF, breaks)
  {
    MW.TrimmedKeeps(s, max);
    TrimmedText(s, max);
    breaks := BreaksAdded(s, max, count, MW.Trimmed(s));
  }

  lemma BreaksAdded(s: MW.State, max: int, count: nat, t: MW.State) returns (breaks: nat)
    requires t == MW.Trimmed(s) && MW.Valid(t, max)
    ensures breaks <= count && MW.Join(MW.BreakLines(s, max, count).parts) == MW.Join(t.parts) + Repeat(LF, breaks)
  {
    var have, b := MW.Trailing(MW.Join(t.parts), LF), MW.BreakLines(s, max, count);
    MW.BreakLinesIs(s, max, count, t, have);
    if t.parts != [] && have < count {
      breaks := BreaksWritten(t, max, count - have);
      assert b == MW.Write(t, max, Repeat(LF, count - have));
    } else {
      breaks := 0;
      assert b == t && MW.Join(t.parts) + Repeat(LF, 0) == MW.Join(t.parts);
    }
  }

  lemma TrimmedText(s: MW.State, max: int)
    requires MW.Valid(s, max)
    ensures MW.Floor(s) <= |s.parts|
    ensures MW.Join(MW.Trimmed(s).parts) == MW.Join(s.parts[..MW.Floor(s)])
                                            + if s.preserve then MW.OpenText(s) else MW.WithoutTrailing(MW.OpenText(s), SPACE)
  {
    var t, n := MW.Trimmed(s), MW.Floor(s);
    MW.TrimLineEndKeeps(s, max);
    MW.TrimLineEndText(s);
    MW.JoinSplit(t.parts, n);
    assert t.parts[..n] == s.parts[..n];
  }

  lemma BreaksWritten(t: MW.State, max: int, count: nat) returns (breaks: nat)
    requires MW.Valid(t, max)
    ensures breaks <= count && MW.Join(MW.Write(t, max, Repeat(LF, count)).parts) == MW.Join(t.parts) + Repeat(LF, breaks)
  {
    var fitting := MW.Fitting(Repeat(LF, count), max - |MW.Join(t.parts)|);
    MW.WriteKeeps(t, max, Repeat(LF, count));
    breaks := |fitting|;
    assert fitting == Repeat(LF, breaks);
  }

  // Cells

  /** What a code block leaves in a cell stays on the row's line. */
  lemma CellCodeOneLine(content: Text)
    ensures var text := Trim(Collapse(content)); LF !in Ticked(text, CodeSpan.Fence(text, 1))
  {
    var text := Trim(Collapse(content));
    var fence := CodeSpan.Fence(text, 1);
    TrimInside(Collapse(content), LF);
    assert forall i :: 0 <= i < |fence| ==> fence[i] == CodeSpan.BACKTICK;
  }

  /** Nothing a block, a heading, a line break or a list writes in a cell breaks the row's line either: a space at most. */
  lemma CellStaysOneLine(p: Place, s: MW.State, closing: bool, level: nat)
    requires MW.Valid(s, p.max) && p.inCell && !p.inPre
    ensures AddsSpace(s, Blocked(p, s)) && AddsSpace(s, Headed(p, s, closing, level)) && AddsSpace(s, Broken(p, s))
  {
    SpaceAdded(p, s);
  }

  lemma SpaceAdded(p: Place, s: MW.State)
    requires MW.Valid(s, p.max)
    ensures AddsSpace(s, Spaced(p, s))
  {
    MW.WriteKeeps(s, p.max, [SPACE]);
    var fitting := MW.Fitting([SPACE], p.max - |MW.Join(s.parts)|);
    assert fitting == [] || fitting == [SPACE];
    assert MW.Join(s.parts) + [] == MW.Join(s.parts);
  }

  predicate AddsSpace(s: MW.State, t: MW.State) {
    MW.Join(t.parts) == MW.Join(s.parts) || MW.Join(t.parts) == MW.Join(s.parts) + [SPACE]
  }
}
