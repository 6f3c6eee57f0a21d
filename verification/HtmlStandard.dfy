/** Tokenizer states of the HTML Standard, as the reference. */
module HtmlStandard {
  // Those that decide where markup begins (13.2.5.6 and 13.2.5.7) and where a tag and a comment end: tag name
  // (13.2.5.8), attributes (13.2.5.32-13.2.5.40) and comments (13.2.5.43-13.2.5.52). One code unit at a time,
  // written from the standard and not from the program.

  import opened Utf16

  const QUOTE: Unit := 0x22
  const APOSTROPHE: Unit := 0x27
  const SOLIDUS: Unit := 0x2f
  const EQUALS: Unit := 0x3d
  const LESS: Unit := 0x3c
  const GREATER: Unit := 0x3e
  const BANG: Unit := 0x21
  const QUESTION: Unit := 0x3f
  const DASH: Unit := 0x2d

  /** Whitespace of the standard; CR is here because the program does not normalize line breaks first. */
  predicate IsWhite(c: Unit) { c == 0x09 || c == 0x0a || c == 0x0c || c == 0x0d || c == 0x20 }

  predicate IsAsciiAlpha(c: Unit) { 0x61 <= c <= 0x7a || 0x41 <= c <= 0x5a }

  /** What a `<` turns out to be; `Dropped` is `</>`, of which nothing is emitted. */
  datatype Opening = LessThanText | MarkupDeclaration | BogusComment | OpensStartTag | OpensEndTag | Dropped

  /** The tag open state, behind the `<` at `i`. */
  function TagOpen(html: Text, i: nat): Opening {
    if i + 1 >= |html| then LessThanText
    else if html[i + 1] == BANG then MarkupDeclaration
    else if html[i + 1] == SOLIDUS then EndTagOpen(html, i)
    else if IsAsciiAlpha(html[i + 1]) then OpensStartTag
    else if html[i + 1] == QUESTION then BogusComment
    else LessThanText
  }

  /** The end tag open state, behind the `</` at `i`. */
  function EndTagOpen(html: Text, i: nat): Opening {
    if i + 2 >= |html| then LessThanText
    else if IsAsciiAlpha(html[i + 2]) then OpensEndTag
    else if html[i + 2] == GREATER then Dropped
    else BogusComment
  }

  datatype TagState =
    | TagName
    | BeforeAttributeName
    | AttributeName
    | AfterAttributeName
    | BeforeAttributeValue
    | DoubleQuoted
    | SingleQuoted
    | Unquoted
    | AfterQuoted
    | SelfClosingStart

  /** What a state does with a unit: consume it, hand it to another state, or emit the tag. */
  datatype TagAction = Switch(to: TagState) | Reconsume(to: TagState) | EmitTag

  function TagStep(s: TagState, c: Unit): TagAction {
    match s
    case TagName =>
      if IsWhite(c) then Switch(BeforeAttributeName)
      else if c == SOLIDUS then Switch(SelfClosingStart)
      else if c == GREATER then EmitTag
      else Switch(TagName)
    case BeforeAttributeName =>
      if IsWhite(c) then Switch(BeforeAttributeName)
      else if c == SOLIDUS || c == GREATER then Reconsume(AfterAttributeName)
      else if c == EQUALS then Switch(AttributeName)
      else Reconsume(AttributeName)
    case AttributeName =>
      if IsWhite(c) || c == SOLIDUS || c == GREATER then Reconsume(AfterAttributeName)
      else if c == EQUALS then Switch(BeforeAttributeValue)
      else Switch(AttributeName)
    case AfterAttributeName =>
      if IsWhite(c) then Switch(AfterAttributeName)
      else if c == SOLIDUS then Switch(SelfClosingStart)
      else if c == EQUALS then Switch(BeforeAttributeValue)
      else if c == GREATER then EmitTag
      else Reconsume(AttributeName)
    case BeforeAttributeValue =>
      if IsWhite(c) then Switch(BeforeAttributeValue)
      else if c == QUOTE then Switch(DoubleQuoted)
      else if c == APOSTROPHE then Switch(SingleQuoted)
      else if c == GREATER then EmitTag
      else Reconsume(Unquoted)
    case DoubleQuoted => Switch(if c == QUOTE then AfterQuoted else DoubleQuoted)
    case SingleQuoted => Switch(if c == APOSTROPHE then AfterQuoted else SingleQuoted)
    case Unquoted =>
      if IsWhite(c) then Switch(BeforeAttributeName)
      else if c == GREATER then EmitTag
      else Switch(Unquoted)
    case AfterQuoted =>
      if IsWhite(c) then Switch(BeforeAttributeName)
      else if c == SOLIDUS then Switch(SelfClosingStart)
      else if c == GREATER then EmitTag
      else Reconsume(BeforeAttributeName)
    case SelfClosingStart =>
      if c == GREATER then EmitTag
      else Reconsume(BeforeAttributeName)
  }

  /** One unit with its reconsumptions: the state after it, or the state the tag is emitted from. */
  datatype TagOutcome = In(state: TagState) | Emitted(state: TagState)

  function TagConsume(s: TagState, c: Unit): (r: TagOutcome)
    ensures r.Emitted? ==> c == GREATER
    decreases match s
              case AfterQuoted => 3
              case SelfClosingStart => 3
              case BeforeAttributeName => 2
              case AfterAttributeName => if c == GREATER || c == SOLIDUS || IsWhite(c) || c == EQUALS then 0 else 1
              case AttributeName => if c == GREATER || c == SOLIDUS || IsWhite(c) then 1 else 0
              case BeforeAttributeValue => 1
              case _ => 0
  {
    match TagStep(s, c)
    case Switch(to) => In(to)
    case Reconsume(to) => TagConsume(to, c)
    case EmitTag => Emitted(s)
  }

  /** Where a tag ends: the position of its `>` and the state that saw it. */
  datatype TagRun = EndOfPage | TagAt(at: nat, state: TagState)

  function RunTag(html: Text, i: nat, s: TagState): (r: TagRun)
    ensures r.TagAt? ==> i <= r.at < |html| && html[r.at] == GREATER
    decreases |html| - i
  {
    if i >= |html| then EndOfPage
    else match TagConsume(s, html[i])
      case In(next) => RunTag(html, i + 1, next)
      case Emitted(from) => TagAt(i, from)
  }

  /** The self-closing flag is set only in the self-closing start tag state. */
  predicate SelfClosingFlag(r: TagRun) { r.TagAt? && r.state == SelfClosingStart }

  datatype CommentState =
    | CommentStart
    | CommentStartDash
    | Comment
    | LessThan
    | LessThanBang
    | LessThanBangDash
    | LessThanBangDashDash
    | CommentEndDash
    | CommentEnd
    | CommentEndBang

  datatype CommentAction = Stay(to: CommentState) | Again(to: CommentState) | EmitComment

  function CommentStep(s: CommentState, c: Unit): CommentAction {
    match s
    case CommentStart =>
      if c == DASH then Stay(CommentStartDash) else if c == GREATER then EmitComment else Again(Comment)
    case CommentStartDash =>
      if c == DASH then Stay(CommentEnd) else if c == GREATER then EmitComment else Again(Comment)
    case Comment =>
      if c == LESS then Stay(LessThan) else if c == DASH then Stay(CommentEndDash) else Stay(Comment)
    case LessThan =>
      if c == BANG then Stay(LessThanBang) else if c == LESS then Stay(LessThan) else Again(Comment)
    case LessThanBang => if c == DASH then Stay(LessThanBangDash) else Again(Comment)
    case LessThanBangDash => if c == DASH then Stay(LessThanBangDashDash) else Again(CommentEndDash)
    case LessThanBangDashDash => Again(CommentEnd)
    case CommentEndDash => if c == DASH then Stay(CommentEnd) else Again(Comment)
    case CommentEnd =>
      if c == GREATER then EmitComment
      else if c == BANG then Stay(CommentEndBang)
      else if c == DASH then Stay(CommentEnd)
      else Again(Comment)
    case CommentEndBang =>
      if c == DASH then Stay(CommentEndDash) else if c == GREATER then EmitComment else Again(Comment)
  }

  datatype CommentOutcome = Inside(state: CommentState) | Closed

  function CommentConsume(s: CommentState, c: Unit): CommentOutcome
    decreases match s
              case Comment => 0
              case LessThanBangDash => 2
              case LessThanBangDashDash => 2
              case _ => 1
  {
    match CommentStep(s, c)
    case Stay(to) => Inside(to)
    case Again(to) => CommentConsume(to, c)
    case EmitComment => Closed
  }

  /** The position of the `>` that ends a comment whose text starts at `i`, or -1 at the end of the page. */
  function RunComment(html: Text, i: nat, s: CommentState): (r: int)
    ensures r == -1 || i <= r < |html|
    decreases |html| - i
  {
    if i >= |html| then -1
    else match CommentConsume(s, html[i])
      case Inside(next) => RunComment(html, i + 1, next)
      case Closed => i
  }
}
