/** From a page to its Markdown: the tokenizer of html-text.ts feeding the converter of html-markdown.ts. */
module PageMarkdown {
  import opened Utf16
  import opened TextKept
  import HT = HtmlTokens
  import HM = HtmlMarkdown
  import MW = MarkdownWriter

  /** `noscript`, `script`, `style`, `template` and `svg`. */
  const SKIPPED_ELEMENTS: set<Text> := {
    [0x6e, 0x6f, 0x73, 0x63, 0x72, 0x69, 0x70, 0x74],
    [0x73, 0x63, 0x72, 0x69, 0x70, 0x74],
    [0x73, 0x74, 0x79, 0x6c, 0x65],
    [0x74, 0x65, 0x6d, 0x70, 0x6c, 0x61, 0x74, 0x65],
    HT.SVG}

  /** The address, image source and alternative text read out of a tag. */
  datatype Attributes = Attributes(href: Text, src: Text, alt: Text)

  /** A name as the converter compares it; units no element name has become one that matches nothing. */
  function NameOf(name: Text): string {
    seq(|name|, i requires 0 <= i < |name| => if 0 <= name[i] < 0xd800 then name[i] as char else '?')
  }

  predicate Inside(html: Text, t: HT.Token) {
    t.from <= t.to <= |html| && (t.Cdata? ==> t.from + 9 <= t.contentTo <= |html|)
  }

  predicate IsText(t: HT.Token) { t.Plain? || t.RawText? || t.Cdata? }

  /** The text of a token: a CDATA section as it is, any other with its entities decoded. */
  function TextOf(html: Text, t: HT.Token, decode: Text -> Text): Text
    requires Inside(html, t) && IsText(t)
  {
    if t.Cdata? then html[t.from + 9..t.contentTo] else decode(html[t.from..t.to])
  }

  function Read(html: Text, t: HT.Token, decode: Text -> Text, attributes: Text -> Attributes): HM.Token
    requires Inside(html, t)
  {
    match t
    case Tag(from, to, closing, name, _) =>
      var a := attributes(html[from..to]);
      HM.TagToken(closing, NameOf(name), a.href, a.src, a.alt)
    case Skip(_, _) => HM.SkipToken
    case _ => HM.TextToken(TextOf(html, t, decode))
  }

  function ReadAll(html: Text, tokens: seq<HT.Token>, decode: Text -> Text, attributes: Text -> Attributes): seq<HM.Token>
    requires forall t :: t in tokens ==> Inside(html, t)
  {
    if tokens == [] then []
    else ReadAll(html, tokens[..|tokens| - 1], decode, attributes) + [Read(html, tokens[|tokens| - 1], decode, attributes)]
  }

  /** What a page shows: the text between its markup, without whitespace. */
  function VisibleText(html: Text, tokens: seq<HT.Token>, decode: Text -> Text): Text
    requires forall t :: t in tokens ==> Inside(html, t)
  {
    if tokens == [] then []
    else
      var last := tokens[|tokens| - 1];
      VisibleText(html, tokens[..|tokens| - 1], decode) + if IsText(last) then Visible(TextOf(html, last, decode)) else []
  }

  lemma {:induction false} SameText(html: Text, tokens: seq<HT.Token>, decode: Text -> Text, attributes: Text -> Attributes)
    requires forall t :: t in tokens ==> Inside(html, t)
    ensures HM.PageText(ReadAll(html, tokens, decode, attributes)) == VisibleText(html, tokens, decode)
    decreases |tokens|
  {
    if tokens != [] {
      var rest := ReadAll(html, tokens[..|tokens| - 1], decode, attributes);
      var more := ReadAll(html, tokens, decode, attributes);
      SameText(html, tokens[..|tokens| - 1], decode, attributes);
      assert more[..|more| - 1] == rest;
    }
  }

  lemma TokensInside(html: Text, skipped: set<Text>, tokens: seq<HT.Token>)
    requires HT.Tiling(html, skipped, tokens)
    ensures forall t :: t in tokens ==> Inside(html, t)
  {
    forall i | 0 <= i < |tokens| ensures Inside(html, tokens[i]) {
      assert HT.Placed(html, skipped, tokens, i);
    }
  }

  /**
   * The whole way: the tokens are the one complete tiling of the page, and unless the result is marked as truncated every character the
   * page shows between its markup is in it, in order.
   */
  method PageToMarkdown(html: Text, decode: Text -> Text, attributes: Text -> Attributes, maxOutputCharacters: int)
    returns (markdown: Text, truncated: bool, ghost tokens: seq<HT.Token>)
    ensures HT.Tiling(html, SKIPPED_ELEMENTS, tokens) && HT.Complete(html, SKIPPED_ELEMENTS, tokens)
    ensures forall t :: t in tokens ==> Inside(html, t)
    ensures |markdown| <= MW.Cap(maxOutputCharacters)
    ensures !truncated ==> Sub(VisibleText(html, tokens, decode), markdown)
  {
    var yielded, scanned, cached := HT.Tokens(html, SKIPPED_ELEMENTS);
    tokens := yielded;
    TokensInside(html, SKIPPED_ELEMENTS, yielded);
    SameText(html, yielded, decode, attributes);
    markdown, truncated := HM.HtmlToMarkdown(ReadAll(html, yielded, decode, attributes), maxOutputCharacters);
  }
}
