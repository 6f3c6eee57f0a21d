# Verified model of the assistant's parsing, indexing and memory protocols

This project models, in Dafny, the parts of the assistant whose guarantees are easiest to break: the
hand-written HTML tokenizer and Markdown writer, the embedding chunker with its leased index jobs, the widening
semantic search, the write protocol of memory claims and their slot versions, the observers on model streams,
and the repair and assembly of prompts. Every function and loop below follows the branches, constants and error
cases of the source file named in its row.

Conventions:

- Text is a sequence of UTF-16 code units (`Utf16.Text`), as in JavaScript, so half a surrogate pair exists and
  can be spoken about.
- A table is a map, a transaction is one step, a crash is a caller that stops between steps, and time is a number
  that does not go back. A step that fails rolls back, so it leaves the tables as they were.
- Code that changes state is a class whose methods are proved equal to a function of the old state; the laws are
  lemmas about that function and about every run of steps. Loops stay loops.
- Distances are real numbers, UUIDs and tokens are natural numbers, and records are numbered in the order of their
  insertion where that order matters.

The modules, by component:

| component | modules |
|---|---|
| shared | `Wrappers` (`Option`), `Utf16` (text and its searches) |
| HTML tokenizer | `HtmlStandard` (the reference: sections 13.2.5.6 to 13.2.5.8 and 13.2.5.32 to 13.2.5.52 of the HTML Standard), `HtmlTagEnd`, `HtmlTokens` |
| Markdown | `MarkdownWriter`, `CodeSpan` (section 6.1 of CommonMark 0.31.2 as the reference), `TextKept`, `HtmlMarkdown`, `MarkdownShape` (what the output looks like), `PageMarkdown` (tokenizer and converter joined) |
| Embedding | `ChunkBoundaries`, `LongParagraph`, `ChunkProgress`, `EmbeddingChunks`, `EmbeddingIndex`, `EmbeddingWorker` |
| Search | `RetrievalWindow` |
| Memory writes | `ThreadAttempts`, `ClaimWriter`, `SlotVersions`, `SlotRuns` (runs from an empty memory that reach its limits) |
| Streams | `ResponseDeadline` (section 9.2.5 of the HTML Standard as the reference), `UsageLog` |
| Prompts | `HistoryRepair`, `ThreadContext`, `ProfileSelection` |

## Where the code and its own words differ

For each of these one lemma gives the exact condition under which the code does what is said of it, and another an
input or a run that shows the difference.

- A tag ending in an unquoted value with a last `/` (`<svg a=b/>`) is read as self-closing; the standard sets no
  such flag (`HtmlTagEnd.SelfClosingExactly`, `HtmlTagEnd.SelfClosingDiffers`).
- The end tag of a dropped element is matched with Unicode case folding, so a name written with U+017F or U+212A
  ends it too (`HtmlTokens.EndTagExactly`, `HtmlTokens.LongSEndsElement`).
- A comment in `html-text.ts` calls every `<` that starts no markup text. So does the model; the standard turns
  `</` before a character that is no letter into a comment, or drops `</>`, and differs nowhere else
  (`HtmlTokens.OpensExactly`, `HtmlTokens.EndTagOpenDiffers` at `</3>`).
- A timer can outlive the body: a read whose chunk is at hand when the reader cancels arms it again
  (`ResponseDeadline.EndedArmsExactly`, `ResponseDeadline.CancelLeavesTimer`). The header comment says that no
  timer outlives the body.
- The keep-alive scanner takes a leading byte order mark for an answer, so it differs from the grammar exactly on
  streams with one (`ResponseDeadline.StreamExactly`, `ResponseDeadline.MarkBeforeComment`).
- A streamed text is counted twice in `contentChars` exactly when the completed event repeats a text of which
  something was streamed (`UsageLog.CompletedResponse`, `UsageLog.CountedTwice` at two characters counted as four).
- A second pass of the history repair can drop an approval that the first one kept
  (`HistoryRepair.SecondPassExactly`, `HistoryRepair.ApprovalLosesTurn`).
- A replace whose text repeats an active record of its slot reinforces that record and retires none of the others
  (`SlotVersions.ReplaceExactly`, `SlotRuns.ReplaceKeepsBoth` with two records).
- A purge makes the records active again that the purged one had superseded (`SlotVersions.PurgeRevives`,
  `SlotVersions.PurgeCounts`, `SlotVersions.ReplacedReturns`), also past the limit of the slot
  (`SlotRuns.PurgeOverfills`: 99 records where 50 are allowed).
- A superseded record cannot be deleted, because the delete sets a status that the table admits only without a newer
  version (`SlotVersions.DeleteExactly`, `SlotRuns.ReplacedStays`).
- A slot passes its limit exactly by such a purge or by a correction that moves a record into a full slot
  (`SlotVersions.StepBounded`, `SlotVersions.FullSlotOverfills`); under the tool's contract such a move is the
  discussion summary corrected to a fact or back (`SlotRuns.SummaryOverfills`: a 51st record).
- The search and the unlimited scan differ exactly when a record left out ties with the edge of the nearest-chunk
  window and goes before a taken one by age and id (`RetrievalWindow.CutExactly`, `RetrievalWindow.TieAtEdge` with 201
  chunks at one distance).

A cap of one would make the chunker lose half of a surrogate pair (`ChunkProgress.CapOneLosesPair`). No caller passes
one, the caps in use being 1,000 and 400; the lemma only shows why the chunker's members ask for a cap of at least two.

## Model

| member | source | states |
|---|---|---|
| HtmlTagEnd.TagEnd | agent/lib/html-text.ts:178-211 | the returned `>` is the one where the standard's attribute states emit the tag, or -1 when the page ends first, though quoted values are jumped; each position is read once |
| HtmlTagEnd.QuotedJump | agent/lib/html-text.ts:178-211 | jumping to the next quote is the same as running the standard's quoted state unit by unit |
| HtmlTagEnd.NameThenTagEnd | agent/lib/html-text.ts:143-148 | the name scan followed by the tag scan is the standard's run from the tag name state |
| HtmlTagEnd.SelfClosingExactly | agent/lib/html-text.ts:150-152 | the `/` before the `>` is the standard's self-closing flag if and only if the tag does not end in an unquoted value with a last `/` |
| HtmlTagEnd.SelfClosingDiffers | agent/lib/html-text.ts:150-152 | `<svg a=b/>` shows the difference |
| HtmlTagEnd.CommentEndsWithStandard | agent/lib/html-text.ts:113-126 | the comment branch, with its two searches and two short forms, ends exactly where the standard's comment states end |
| HtmlTokens.ForwardFinder.Find | agent/lib/html-text.ts:62-71 | a cached search always equals a fresh `indexOf`, and forward searches together examine each position at most once |
| HtmlTokens.OpensExactly | agent/lib/html-text.ts:101-110 | at a `<` the code sees markup where the standard's tag open states do, except for `</` before a unit that is no letter; both see the same tags |
| HtmlTokens.EndTagOpenDiffers | agent/lib/html-text.ts:101-110 | `</3>` is text here and a comment there |
| HtmlTokens.EndTagExactly | agent/lib/html-text.ts:78-85 | the end-tag pattern agrees with the standard's appropriate end tag if and only if no letter of the name is a folded one |
| HtmlTokens.LongSEndsElement | agent/lib/html-text.ts:78-85 | an end tag with U+017F for `s` ends the element in the code only |
| HtmlTokens.FindElementEnd | agent/lib/html-text.ts:78-85 | the content end and the position after the first end tag of that name, or nothing; linear in what it covers |
| HtmlTokens.ScanComment | agent/lib/html-text.ts:113-126 | the comment branch with the cached searches ends where the standard's comment states end |
| HtmlTokens.ScanDropped | agent/lib/html-text.ts:112-142 | comments, CDATA sections and declarations: the token they give, or the cut-off markup that stops the page |
| HtmlTokens.ScanTextOnly | agent/lib/html-text.ts:161-168 | the text of a title or textarea up to its own end tag |
| HtmlTokens.ScanSkipped | agent/lib/html-text.ts:152-159 | a dropped element is skipped up to its own end tag, or hides the rest |
| HtmlTokens.ScanTag | agent/lib/html-text.ts:143-168 | a tag with the element it opens: a dropped one skipped whole, a title or textarea read as text with its end tag, else the tag alone |
| HtmlTokens.Tokens | agent/lib/html-text.ts:87-171 | the one complete tiling of the page: contiguous from 0, each token what is expected in its place, up to the page end or the `<` of unterminated markup, and no other token sequence is; the main scan reads at most 2n+2 positions and all cached searches together at most 3n |
| HtmlTokens.OneTiling | agent/lib/html-text.ts:87-171 | two complete tilings of a page are equal: kinds, ranges, names and flags of all tokens are determined |
| HtmlTokens.TextOnlyHoldsText | agent/lib/html-text.ts:161-168 | an opening title or textarea is followed by its text as one token, up to its own end tag and that tag, or to the page end |
| HtmlTokens.DroppedAsAWhole | agent/lib/html-text.ts:149-159 | an opening dropped element is one skip up to the end of its own end tag, unless it is svg or math and closes with `/` |
| MarkdownWriter.CountIsTrailing | agent/lib/html-markdown.ts:110-157 | each recorded count is the true number of line breaks ending the output at that part |
| MarkdownWriter.WriteKeeps | agent/lib/html-markdown.ts:138-157 | a write adds exactly what fits, never half a surrogate pair, and never passes the budget |
| MarkdownWriter.TrimLineEndKeeps | agent/lib/html-markdown.ts:159-175 | trimming keeps the invariant and touches nothing below the innermost open span |
| MarkdownWriter.TrimLineEndText | agent/lib/html-markdown.ts:159-175 | trimming removes exactly the spaces at the end of the open span, across parts |
| MarkdownWriter.BreakLinesBreaks | agent/lib/html-markdown.ts:178-182 | a break leaves the asked number of line breaks at the end, or the more there were, or an empty output |
| MarkdownWriter.TakeKeeps | agent/lib/html-markdown.ts:195-202 | taking cuts the output in two and loses nothing |
| MarkdownWriter.StaleTake | agent/lib/html-markdown.ts:195-202 | a stale handle takes nothing and changes nothing |
| MarkdownWriter.ApplyKeeps | agent/lib/html-markdown.ts:110-207 | every operation keeps budget, counts, non-empty parts and sorted marks |
| MarkdownWriter.TakeRestores | agent/lib/html-markdown.ts:189-202 | whatever happens inside a span, taking it returns what the output gained and restores the earlier state |
| MarkdownWriter.Writer.ReadingsAreTrue | agent/lib/html-markdown.ts:125-136 | the cached readings (line breaks, line start, last space) are facts of the output |
| MarkdownWriter.Writer.WriteText | agent/lib/html-markdown.ts:138-157 | the method is `Write` on the whole state |
| MarkdownWriter.Writer.TrimSpaces | agent/lib/html-markdown.ts:159-175 | the loop over parts is `TrimLineEnd` |
| MarkdownWriter.Writer.Break | agent/lib/html-markdown.ts:178-182 | the method is `BreakLines` |
| MarkdownWriter.Writer.OpenSpan | agent/lib/html-markdown.ts:189-192 | the handle is the span's place on the stack |
| MarkdownWriter.Writer.TakeSpan | agent/lib/html-markdown.ts:195-202 | the method is `Take` and returns the taken text |
| MarkdownWriter.Writer.Result | agent/lib/html-markdown.ts:204-206 | the trimmed output, within the budget |
| CodeSpan.BacktickFence | agent/lib/html-markdown.ts:96-103 | the loop gives the fence one longer than the longest run |
| CodeSpan.LongestRunBounds | agent/lib/html-markdown.ts:96-103 | no run of backticks in the text is longer than the counted one, so none reaches the fence |
| CodeSpan.BodyRuns | agent/lib/html-markdown.ts:269-282 | no run inside the padded span is as long as its delimiter |
| CodeSpan.PrintParses | agent/lib/html-markdown.ts:269-282 | printing and parsing an inline code span are inverse for every non-empty trimmed text without line breaks |
| HtmlMarkdown.CodeOutputReads | agent/lib/html-markdown.ts:269-282 | a closed code span reads back as the trimmed text it was opened over |
| HtmlMarkdown.SpansAfterLink | agent/lib/html-markdown.ts:257-268 | after closing a link the handles still mean their own spans, and a code span inside it is gone |
| HtmlMarkdown.SpansAfterCode | agent/lib/html-markdown.ts:269-282 | the same for a code span and a link inside it |
| HtmlMarkdown.SpansAfterPre | agent/lib/html-markdown.ts:285-304 | the same for a `<pre>`, also when a link already took its mark |
| HtmlMarkdown.Converter.CloseLink | agent/lib/html-markdown.ts:257-268 | the taken text comes back as a labelled link, as text with its address, or as it was, in place |
| HtmlMarkdown.Converter.CloseCode | agent/lib/html-markdown.ts:269-282 | the taken text comes back as a code span with its edge spaces outside |
| HtmlMarkdown.Converter.ClosePre | agent/lib/html-markdown.ts:285-304 | a `<pre>` closes over its own mark or over nothing; the taken text comes back fenced with the container prefix on every line, or in a cell as inline code, and the writer's state is exactly that |
| HtmlMarkdown.Converter.CloseAll | agent/lib/html-markdown.ts:439-445 | the spans left open close from the innermost out, and none stays open |
| HtmlMarkdown.CoversCollapse | agent/lib/html-markdown.ts:91-93 | collapsing whitespace keeps all that is visible, in order |
| HtmlMarkdown.CoversLink | agent/lib/html-markdown.ts:257-268 | a link keeps all that is visible of its text |
| HtmlMarkdown.CoversCode | agent/lib/html-markdown.ts:269-282 | a code span keeps all that is visible of its text |
| HtmlMarkdown.CoversFenced | agent/lib/html-markdown.ts:297-302 | a fenced block with prefixes on every line keeps all that is visible of its content |
| HtmlMarkdown.TrimKeepsText | agent/lib/html-markdown.ts:159-175 | trimming a line end loses nothing visible |
| HtmlMarkdown.Converter.StepText | agent/lib/html-markdown.ts:316-330 | a text token adds its container prefix and its own text, collapsed and escaped as its place asks |
| HtmlMarkdown.Converter.StepItem | agent/lib/html-markdown.ts:355-367 | an item goes on a line of its own, at the column of the list around it, with the next number of an ordered list, and the output gains exactly that; in a cell only a space |
| HtmlMarkdown.Converter.StepList | agent/lib/html-markdown.ts:343-354 | the list is pushed or popped, or counted past the tracked ones, the depth goes up or down by one, and the output gets one line break inside a list, a blank line outside, a space in a cell |
| HtmlMarkdown.Converter.StepHeading | agent/lib/html-markdown.ts:331-334 | the block's break, then for an opened heading outside a cell the prefix and the marker, and nothing else |
| HtmlMarkdown.Converter.StepImage | agent/lib/html-markdown.ts:418-423 | the container prefix and the image's Markdown, or its alternative text, and nothing else |
| HtmlMarkdown.Converter.StepCell | agent/lib/html-markdown.ts:428-433 | a further cell of a row is set off by a bar with one space in front of it, the first by nothing, and the rest of the output stays |
| HtmlMarkdown.Converter.StepRule | agent/lib/html-markdown.ts:375-378 | a rule stands between two block breaks, none in a cell |
| HtmlMarkdown.Converter.StepBreak | agent/lib/html-markdown.ts:368-374 | a line break is itself in a `<pre>`, a space in a cell, otherwise one line break and no fresh item |
| HtmlMarkdown.Converter.StepTag | agent/lib/html-markdown.ts:331-437 | what each kind of tag does to the lists, quotes, cells, depth and spans, and to the output exactly for every tag that opens and closes no span |
| HtmlMarkdown.ListNames | agent/lib/html-markdown.ts:343-367 | `ul` opens an unordered list and `ol` an ordered one; `li` begins an item |
| HtmlMarkdown.DecimalReads | agent/lib/html-markdown.ts:355-367 | an item's number is written so that it reads back as its count |
| HtmlMarkdown.HtmlToMarkdown | agent/lib/html-markdown.ts:213-447 | the result fits the budget, and unless it is marked as truncated every visible character of the page's text is in it, in order |
| MarkdownShape.CollapsedSpaces | agent/lib/html-markdown.ts:91-93 | collapsed text has no whitespace but single spaces |
| MarkdownShape.BracketsEscaped | agent/lib/html-markdown.ts:324-327 | in a link label every bracket stands behind a backslash |
| MarkdownShape.LinkShowsAddress | agent/lib/html-markdown.ts:257-268 | a closed link shows its text, then its address in parentheses, with the spaces of its edges outside |
| MarkdownShape.PrefixOnEveryLine | agent/lib/html-markdown.ts:297-302 | behind every line break of a fenced block stands the container prefix, at least without its trailing spaces |
| MarkdownShape.BlankLine | agent/lib/html-markdown.ts:240-244 | a block outside cells, `<pre>` and fresh items stands behind a blank line or begins the output |
| MarkdownShape.BreakTakesSpaces | agent/lib/html-markdown.ts:178-182 | a break takes the spaces ending the line, down to the innermost open span and unless text is preserved, and then adds line breaks only |
| MarkdownShape.CellCodeOneLine | agent/lib/html-markdown.ts:288-296 | code in a cell stays on the row's line |
| MarkdownShape.CellStaysOneLine | agent/lib/html-markdown.ts:237-244 | a block, a heading or a line break adds at most a space in a cell |
| PageMarkdown.SameText | agent/lib/html-markdown.ts:213-256 | the text tokens of the page are the text the converter gets, decoded, with CDATA sections as they are |
| PageMarkdown.PageToMarkdown | agent/lib/html-markdown.ts:213-447 | from the page itself: its tokens are the page's only complete tiling, the Markdown fits the budget, and unless truncated all visible text between the page's markup is in it, in order |
| ChunkBoundaries.FindLastBoundary | agent/lib/memory-embedding-chunks.ts:70-85 | the loops give the last boundary of the strongest class in the window |
| ChunkBoundaries.BoundaryAfterSpace | agent/lib/memory-embedding-chunks.ts:70-85 | a boundary lies in its window right after whitespace; without one the window has none |
| ChunkBoundaries.LastSentenceWins | agent/lib/memory-embedding-chunks.ts:70-85 | with a sentence end in the window the boundary is the last of them |
| ChunkBoundaries.BoundaryCuts | agent/lib/memory-embedding-chunks.ts:70-85 | after the last sentence end, without one after the last clause end found, without one after the last whitespace, else nowhere |
| ChunkBoundaries.Marks | agent/lib/memory-embedding-chunks.ts:45-46 | which marks end a sentence and a clause |
| LongParagraph.SplitLongParagraph | agent/lib/memory-embedding-chunks.ts:88-118 | the loop is the recursive split, and ends |
| LongParagraph.EndFacts | agent/lib/memory-embedding-chunks.ts:94-103 | a span has text, fits the cap, ends on a whole character and past the minimum unless the paragraph is over |
| LongParagraph.NextFacts | agent/lib/memory-embedding-chunks.ts:104-116 | the next span starts after this one's start, not after its end, not before the word start, on a whole character |
| LongParagraph.EndIsCut | agent/lib/memory-embedding-chunks.ts:94-103 | a span that is not the last ends at the strongest cut past its first 500 units (half of a smaller cap), or where the cap ends it |
| LongParagraph.WordStartIs | agent/lib/memory-embedding-chunks.ts:104-114 | the word start is right after the last whitespace in front of the overlap, within twice the overlap, else the overlap itself |
| LongParagraph.NextIsCut | agent/lib/memory-embedding-chunks.ts:115-116 | the next span starts at the strongest cut between the word start and the last unit of this span, else at the word start, moved off a surrogate pair |
| LongParagraph.NextWithoutSpace | agent/lib/memory-embedding-chunks.ts:104-116 | text without whitespace is overlapped by exactly 120 units (a quarter of a smaller cap), save half a pair |
| LongParagraph.NextOverlaps | agent/lib/memory-embedding-chunks.ts:104-116 | a span longer than the overlap is overlapped by the next one |
| ChunkProgress.EndsMoveOn | agent/lib/memory-embedding-chunks.ts:88-118 | starts and ends of the spans both strictly increase |
| ChunkProgress.SplitAdvances | agent/lib/memory-embedding-chunks.ts:88-118 | the spans run from the start of the paragraph to its end without a gap |
| ChunkProgress.SplitCovers | agent/lib/memory-embedding-chunks.ts:88-118 | every position of the paragraph lies in a span |
| ChunkProgress.SplitOverlaps | agent/lib/memory-embedding-chunks.ts:88-118 | any two neighbouring spans of a split paragraph share text, at most twice the overlap |
| ChunkProgress.StoredStep | agent/lib/memory-embedding-chunks.ts:88-118 | with the cap of 1,000 every step moves the start on by at least 261 units |
| ChunkProgress.AtMostThirteenSpans | agent/lib/memory-embedding-chunks.ts:88-118 | a paragraph of 4,000 units gives at most 13 spans |
| ChunkProgress.TwoNarrowSteps | agent/lib/memory-embedding-chunks.ts:104-116 | with the cap of 400 any two steps in a row move the start on by more than 100 units |
| ChunkProgress.NarrowSpanCount | agent/lib/memory-embedding-chunks.ts:88-118 | so the number of narrow spans is linear in the length |
| ChunkProgress.CapOneLosesPair | agent/lib/memory-embedding-chunks.ts:61-67 | with a cap of one a surrogate pair falls between two spans, so a cap of at least two is asked for everywhere else |
| EmbeddingChunks.Paragraphs | agent/lib/memory-embedding-chunks.ts:120-129 | exactly the maximal runs without line breaks, in order |
| EmbeddingChunks.TrimmedSpan | agent/lib/memory-embedding-chunks.ts:53-58 | both ends lose their whitespace and nothing else |
| EmbeddingChunks.AddParagraph | agent/lib/memory-embedding-chunks.ts:144-159 | long paragraphs are split alone, a short open span joins the next that fits; nothing covered is lost |
| EmbeddingChunks.CollectSpans | agent/lib/memory-embedding-chunks.ts:142-160 | the spans are that rule over all paragraphs, cover the text, and overlap only inside one paragraph |
| EmbeddingChunks.CollectedGroups | agent/lib/memory-embedding-chunks.ts:142-160 | the spans are a greedy grouping of the paragraphs: a long one alone in pieces, short ones together only while less than 120 units are gathered and the cap is kept, and no group could have taken the next paragraph |
| EmbeddingChunks.FittingStaysWhole | agent/lib/memory-embedding-chunks.ts:142-160 | a paragraph that fits the cap lies whole in one span |
| EmbeddingChunks.ChunkText | agent/lib/memory-embedding-chunks.ts:131-179 | refused if and only if blank; otherwise the trimmed spans of that grouping, exact slices within the cap on whole characters, every non-whitespace unit in one, overlapping only inside one paragraph; the closing error is unreachable |
| EmbeddingChunks.ChunkMemoryContent | agent/lib/memory-embedding-chunks.ts:181-192 | the same for stored records, refused also when too long |
| EmbeddingIndex.NextKeeps | agent/lib/memory-index-repository.ts:36-208 | create, claim, complete, fail, expiry, reindex, delete, clock and deploy keep: a live record has chunks exactly when indexed and a job exactly when not |
| EmbeddingIndex.EveryRun | agent/lib/memory-index-repository.ts:36-208 | so in every run from empty tables, with chunks that are slices of their record |
| EmbeddingIndex.ReindexKeeps | scripts/reindex-memory.ts:14-47 | the reset keeps the tables in agreement |
| EmbeddingIndex.DeleteKeeps | agent/lib/memory-repository.ts:291-302 | so does the soft delete |
| EmbeddingIndex.ReindexCurrent | scripts/reindex-memory.ts:14-47 | after a reset every chunk set of a live record is of the current model |
| EmbeddingIndex.CurrentUntilDeploy | agent/lib/memory-index-repository.ts:36-208 | and so it stays in every run without another deploy |
| EmbeddingIndex.ClaimedAtMostOnce | agent/lib/memory-index-repository.ts:44-87 | between two resets a job is handed out at most once, in every interleaving |
| EmbeddingIndex.TokenIsLost | agent/lib/memory-index-repository.ts:44-208 | completion, failure, expiry, reset and deletion each take the token away |
| EmbeddingIndex.LostTokenIsPowerless | agent/lib/memory-index-repository.ts:102-208 | after any further run a completion or failure with a lost token changes nothing |
| EmbeddingIndex.CreatedIsQueued | agent/lib/memory-claim-writer.ts:449-453 | a new record waits with a job of its own |
| EmbeddingIndex.ClaimedAreLeased | agent/lib/memory-index-repository.ts:61-87 | each claimed job is leased under a new token of its own, until now plus the lease |
| EmbeddingIndex.NewestAreHandedOut | agent/lib/memory-index-repository.ts:61-76 | a waiting job is handed out, or as many as asked are and none of them is older |
| EmbeddingIndex.ExpiredHaveFailed | agent/lib/memory-index-repository.ts:44-59 | exactly the jobs whose lease is over fail, with their records |
| EmbeddingIndex.CompletedExactly | agent/lib/memory-index-repository.ts:102-155 | completed if and only if the lease is held and the rows are of the deployed model, in order, and slices of the text; otherwise nothing changes |
| EmbeddingIndex.CompletedIsIndexed | agent/lib/memory-index-repository.ts:156-171 | the record is then indexed by exactly these rows, its job is gone, its text stays, and every other record is as before |
| EmbeddingIndex.FailedIsDropped | agent/lib/memory-index-repository.ts:179-208 | with the lease the record fails and has no chunks, nothing else changes; without it nothing does |
| EmbeddingIndex.ReindexQueues | scripts/reindex-memory.ts:14-47 | the reset queues every live record that is not indexed by the deployed model and leaves every other one as it is |
| EmbeddingIndex.DeletedIsHidden | agent/lib/memory-repository.ts:291-302 | a deleted record is hidden with its text and chunks kept and its job gone; every other record is as before |
| EmbeddingIndex.ClaimedGetsIndexed | agent/lib/memory-index-repository.ts:36-177 | claimed, then completed under the handed token with rows of its text, a record ends indexed by these rows |
| EmbeddingIndex.IndexStore.Claim | agent/lib/memory-index-repository.ts:36-100 | expired leases fail, then the newest waiting jobs of live records are leased in order, as many as asked or as there are |
| EmbeddingIndex.IndexStore.CompleteJob | agent/lib/memory-index-repository.ts:102-177 | refused, stale or completed exactly as specified, with the whole new state, which `CompletedIsIndexed` spells out |
| EmbeddingIndex.IndexStore.FailJob | agent/lib/memory-index-repository.ts:179-208 | stale exactly without the lease; otherwise job and record fail and the chunks go |
| EmbeddingIndex.IndexStore.ReindexAll | scripts/reindex-memory.ts:14-47 | the reset as one state, with the number queued |
| EmbeddingIndex.IndexStore.SoftDelete | agent/lib/memory-repository.ts:291-302 | the record is hidden and its job gone |
| EmbeddingWorker.OrderReply | agent/lib/memory-embedding-client.ts:140-164 | accepted if and only if the indexes are exactly 0..n with vectors of the right size; each vector lands at its own index |
| EmbeddingWorker.FindIndex | agent/lib/memory-embedding-client.ts:158-163 | by pigeonhole every position is filled, so the "incomplete result" branch cannot fire |
| EmbeddingWorker.EmbedTexts | agent/lib/memory-embedding-client.ts:57-164 | the i-th text gets the i-th vector whatever order the reply came in |
| EmbeddingWorker.EmbedChunks | scripts/memory-embedding-worker.ts:36-44 | batches of eight give every chunk the vector of its own passage |
| EmbeddingWorker.ChunkerOutputFits | agent/lib/memory-index-repository.ts:114-154 | chunker output with its vectors passes every order, offset and slice check for the same text |
| EmbeddingWorker.EmbedRecord | scripts/memory-embedding-worker.ts:51-62 | lossless rows with their passages' vectors, from the stored cap unless the provider called a text too long and then from the narrow one; with a provider that answers and takes narrow passages it never fails for a record with text of at most 4,000 units |
| EmbeddingWorker.ProcessJob | scripts/memory-embedding-worker.ts:64-105 | a job whose lease holds ends indexed by lossless rows of its text with their passages' vectors, or failed, and indexed when the provider answers; without the lease nothing changes, and no other record ever does |
| RetrievalWindow.Search | agent/lib/memory-retrieval-repository.ts:251-275 | windows of 200, 800 and 3,200, each wider one after starved ones; the answer is the unlimited scan's up to ties at the window's edge, and the same exactly when no tie goes before a taken record, unless the widest window was full, every record in it passed and fewer than 40 are in it |
| RetrievalWindow.UnlimitedIs | agent/lib/memory-retrieval-repository.ts:228-275 | the unlimited answer chunk by chunk: records at the distance of their nearest chunk, none below the floor, and one with a chunk above it is missing only when as many as are taken rank ahead by distance, age and id |
| RetrievalWindow.NotStarvedAnswers | agent/lib/memory-retrieval-repository.ts:180-183 | a window that is not starved already answers for all authorized chunks |
| RetrievalWindow.NotFullOrFailing | agent/lib/memory-retrieval-repository.ts:251-275 | a window that is not full, or in which some record fails the floor, holds every passing record |
| RetrievalWindow.WindowDistance | agent/lib/memory-retrieval-repository.ts:258-270 | a record seen in a nearest-first window is at its true distance |
| RetrievalWindow.CutAgrees | agent/lib/memory-retrieval-repository.ts:271-282 | with a full take the two answers agree in members and ranks below the edge, have the same size, and take nothing beyond it |
| RetrievalWindow.CutExactly | agent/lib/memory-retrieval-repository.ts:271-282 | and are equal, ranks included, if and only if no record left out at the edge goes before a taken one by age and id |
| RetrievalWindow.TieFreeIsEqual | agent/lib/memory-retrieval-repository.ts:251-282 | in particular when no chunk outside the window is at its edge |
| RetrievalWindow.TieAtEdge | agent/lib/memory-retrieval-repository.ts:258-275 | 201 chunks at one distance: the window of 200 is not starved and misses the record the unlimited scan ranks first |
| RetrievalWindow.NoRowIsNotStarved | agent/lib/memory-retrieval-repository.ts:180-183 | a search without rows had no starved window, so stopping there is right |
| ThreadAttempts.ReserveKeeps | agent/lib/memory-thread-creation-attempts.ts:216-274 | a reservation keeps the shapes, takes a free attempt number and holds the only pending row |
| ThreadAttempts.RecordKeeps | agent/lib/memory-thread-creation-attempts.ts:293-310 | recording candidates keeps the shapes |
| ThreadAttempts.CompleteKeeps | agent/lib/memory-thread-creation-attempts.ts:312-330 | completing keeps the shapes |
| ThreadAttempts.ReleaseKeeps | agent/lib/memory-thread-creation-attempts.ts:332-342 | releasing keeps the shapes |
| ThreadAttempts.CompleteAttachKeeps | agent/lib/memory-thread-creation-attempts.ts:386-400 | resolving the candidates keeps the shapes |
| ThreadAttempts.Shapes | agent/lib/memory-thread-creation-attempts.ts:205-400 | the attempts of one message are: none, pending, candidate, resolved, candidate then pending, candidate then candidate, candidate then completed, or both resolved |
| ThreadAttempts.OnePending | agent/lib/memory-thread-creation-attempts.ts:216-274 | at most one attempt of a message is pending |
| ThreadAttempts.ClosedRefuses | agent/lib/memory-thread-creation-attempts.ts:255-374 | once one is completed or resolved, no reserve and no attach is accepted |
| ThreadAttempts.StaysClosed | agent/lib/memory-thread-creation-attempts.ts:216-274 | and no later reservation, of whatever message, opens it again |
| ThreadAttempts.StaysClosedAfter | agent/lib/memory-thread-creation-attempts.ts:293-400 | nor does any other step |
| ThreadAttempts.PowerlessReservation | agent/lib/memory-thread-creation-attempts.ts:276-342 | a reservation that does not hold is refused everywhere and changes nothing |
| ThreadAttempts.LeaseExcludes | agent/lib/memory-thread-creation-attempts.ts:216-274 | for five minutes a reservation lets no call of its message in; afterwards its own call gets the same number again; other messages are untouched |
| ThreadAttempts.AdmittedExactly | agent/lib/memory-thread-creation-attempts.ts:246-262 | a new call is admitted if and only if what stands of its message is nothing or a first attempt with candidates |
| ThreadAttempts.ReleaseFrees | agent/lib/memory-thread-creation-attempts.ts:332-342 | a released reservation no longer holds, and its call is admitted again with the number it had |
| ThreadAttempts.CompleteSettles | agent/lib/memory-thread-creation-attempts.ts:312-330 | a finished first attempt leaves its message without attempts, a finished second one closes it |
| ThreadAttempts.AttachExactly | agent/lib/memory-thread-creation-attempts.ts:344-374 | an attach is accepted if and only if every attempt of the message is a candidate one and, when there is one, the thread was offered |
| ThreadAttempts.AttachCloses | agent/lib/memory-thread-creation-attempts.ts:386-400 | an accepted attach to a message with candidates closes it, each list kept, other messages untouched |
| ThreadAttempts.AttemptStore.ReserveAttempt | agent/lib/memory-thread-creation-attempts.ts:216-274 | reclaim or clear, check, insert: the step as specified, with nothing changed on refusal |
| ThreadAttempts.AttemptStore.RecordCandidates | agent/lib/memory-thread-creation-attempts.ts:293-310 | the step as specified; what it leaves is stated by `ClaimWriter.CandidatesStored` |
| ThreadAttempts.AttemptStore.CompleteAttempt | agent/lib/memory-thread-creation-attempts.ts:312-330 | the step as specified |
| ThreadAttempts.AttemptStore.ReleaseAttempt | agent/lib/memory-thread-creation-attempts.ts:332-342 | the step as specified |
| ThreadAttempts.AttemptStore.AttachCandidate | agent/lib/memory-thread-creation-attempts.ts:344-400 | begin and complete of an attach as one step |
| ClaimWriter.NextKeeps | agent/lib/memory-claim-writer.ts:165-491 | every step of every interleaving keeps the tables, calls and ledger in agreement |
| ClaimWriter.EveryRun | agent/lib/memory-claim-writer.ts:165-491 | so does every run |
| ClaimWriter.AtMostOneCommit | agent/lib/memory-claim-writer.ts:267-294 | no operation key commits two claims, whatever crashes, expires or is taken over |
| ClaimWriter.OneHolder | agent/lib/memory-claim-writer.ts:165-195 | at most one caller holds the reservation of a message |
| ClaimWriter.TakenOver | agent/lib/memory-thread-creation-attempts.ts:227-245 | taking over an expired call takes its reservation away |
| ClaimWriter.LostIsPowerless | agent/lib/memory-claim-writer.ts:464-491 | a caller whose reservation is lost can, at any later moment, neither commit a claim nor change an attempt row |
| ClaimWriter.StoredForever | agent/lib/memory-claim-writer.ts:92-139 | a committed operation answers every repeat with its own claim while it lives, and with "deleted" after |
| ClaimWriter.CommitIsStored | agent/lib/memory-claim-writer.ts:449-463 | a commit needs its reservation, ends it, and is what its repeat gets |
| ClaimWriter.AttachIsStored | agent/lib/memory-claim-writer.ts:267-463 | a committed attach is what its repeat gets, and closes a message with candidates |
| ClaimWriter.OnlyCommitWrites | agent/lib/memory-claim-writer.ts:267-491 | a commit adds its own claim and ledger row and nothing else; anything but a commit leaves claims and ledger as they were |
| ClaimWriter.DeletedForever | agent/lib/memory-claim-writer.ts:92-139 | once its claim is deleted or purged every repeat of the operation is told so, in every run |
| ClaimWriter.DeletionTells | agent/lib/memory-claim-writer.ts:92-139 | a deletion or a purge brings the operation there |
| ClaimWriter.OtherCallRefused | agent/lib/memory-thread-creation-attempts.ts:141-167 | a key in use answers only the call it is in use for, by source, place and hash |
| ClaimWriter.UnprovenWritesNothing | agent/lib/memory-claim-writer.ts:165-195 | without evidence of the source or without membership nothing is reserved or written |
| ClaimWriter.EndedHoldsNothing | agent/lib/memory-claim-writer.ts:464-491 | a call that ends by its own step holds no reservation, unless its candidate list was one no row can store |
| ClaimWriter.FailedRetries | agent/lib/memory-claim-writer.ts:197-212 | a held call that failed leaves no claim and can be made again at once with the number it had |
| ClaimWriter.CandidatesForever | agent/lib/memory-claim-writer.ts:165-188 | a candidate answer is given again, list for list, to every repeat, also once resolved |
| ClaimWriter.CandidatesStored | agent/lib/memory-thread-creation-attempts.ts:293-310 | a caller told of candidates has left exactly this list in its row, and no claim |
| ClaimWriter.CandidatesToldExactly | agent/lib/memory-thread-creation-attempts.ts:293-310 | a held call is told of the threads found if and only if they are one to three |
| ClaimWriter.OfferedAttaches | agent/lib/memory-thread-creation-attempts.ts:344-374 | a thread that was offered is never refused as one that was not |
| ClaimWriter.OffersLast | agent/lib/memory-claim-writer.ts:464-491 | from the write that answers with candidates on, in every run, the repeat gets the same list and each of its threads stays attachable as far as the message is open |
| ClaimWriter.ClosedForever | agent/lib/memory-thread-creation-attempts.ts:255-374 | a closed message stays closed in every run of the writer |
| ClaimWriter.NoDamagedState | agent/lib/memory-thread-creation-attempts.ts:169-178 | the "damaged state" error is never what a repeat gets, nor a write that succeeds |
| ClaimWriter.ClaimStore.ReplayBeforeTitleEmbedding | agent/lib/memory-claim-writer.ts:165-195 | the first transaction: replay, candidate answer, error or reservation |
| ClaimWriter.ClaimStore.CreateMemoryClaim | agent/lib/memory-claim-writer.ts:267-491 | the claim transaction: claim, ledger row and end of the reservation stand or fall together; a failed write is undone to the savepoint |
| SlotVersions.RequireExactly | agent/lib/memory-slot-supersede.ts:108-138 | accepted if and only if: nothing named and the slot empty; an addition naming a non-empty part with room left; a replacement naming exactly the slot |
| SlotVersions.RowsOfSlot | agent/lib/memory-slot-supersede.ts:26-55 | the locked rows are the slot's active records |
| SlotVersions.SlotWrite | agent/lib/memory-claim-writer.ts:327-350 | a replacement that inserts leaves its record alone in the slot, anything else retires none |
| SlotVersions.CreatedIs | agent/lib/memory-claim-writer.ts:395-446 | what a create inserts is the record of its input, active, and the newest version of exactly the records its replacement names; every other record is as before |
| SlotVersions.ReinforcedExactly | agent/lib/memory-claim-writer.ts:334-348 | a create reinforces if and only if an active record says the same in the same place, kind, slot and date; only an insert changes the table |
| SlotVersions.RefusedExactly | agent/lib/memory-slot-supersede.ts:108-138 | anything else is inserted if and only if nothing blocked it and its view fits what the slot holds |
| SlotVersions.OtherSlots | agent/lib/memory-slot-supersede.ts:140-177 | a write leaves every other slot as it is |
| SlotVersions.ReplaceExactly | agent/lib/memory-claim-writer.ts:337-350 | a successful replace leaves one record if and only if it does not reinforce one of several |
| SlotVersions.OnlyActiveIsSuperseded | agent/lib/memory-slot-supersede.ts:163-167 | only an active record becomes superseded, by the record the same step inserts |
| SlotVersions.EveryRun | agent/lib/memory-slot-supersede.ts:140-177 | in every run a superseded record points to a stored one inserted later |
| SlotVersions.Newest | agent/lib/memory-slot-supersede.ts:140-177 | following the versions always ends, so there is no cycle |
| SlotVersions.TextStaysForever | agent/lib/memory-repository.ts:447-516 | no run rewrites what a stored record says, and a purged record never returns |
| SlotVersions.CorrectCounts | agent/lib/memory-repository.ts:447-516 | a correction adds to a slot if and only if it changes the kind between episode and semantic and keeps the attribute |
| SlotVersions.CorrectedIs | agent/lib/memory-repository.ts:447-516 | the new version has the given text, the asked or old kind, the old place, the slot and event date its kind may keep; it is active and the newest version of the corrected record, and every other record is as before |
| SlotVersions.CorrectsActiveOnly | agent/lib/memory-repository.ts:389-492 | any other record is not corrected, and the table stays |
| SlotVersions.StepBounded | agent/lib/memory-slot-supersede.ts:131-137 | a step takes a slot over 50 if and only if it corrects a record into a full slot or purges one that superseded more of the slot's records than there is room for |
| SlotVersions.EveryRunBounded | agent/lib/memory-slot-supersede.ts:108-138 | a run keeps a slot within its limit throughout if and only if none of its steps is such a one |
| SlotVersions.OrdinarySlotsBounded | agent/lib/remember-contract.ts:167-173 | under the tool's contract a slot other than the discussion summary's two is never overfilled, whatever is corrected, if and only if every purge has room for what it revives |
| SlotVersions.FullSlotOverfills | agent/lib/memory-repository.ts:447-516 | a full slot stays within its limit if and only if the corrected record does not move into it |
| SlotVersions.PurgeRevives | migrations/051_r2a_provenance_extraction_foundation.sql:456-473 | a purge makes active exactly the records superseded by the purged one |
| SlotVersions.PurgeCounts | migrations/051_r2a_provenance_extraction_foundation.sql:456-473 | so every slot gains exactly its records that the purged one had superseded |
| SlotVersions.ReplacedReturns | migrations/051_r2a_provenance_extraction_foundation.sql:456-473 | so a replaced record returns when its replacement is deleted and purged |
| SlotVersions.DeleteExactly | agent/lib/memory-repository.ts:291-296 | a record can be deleted if and only if nothing supersedes it |
| SlotRuns.ReplaceKeepsBoth | agent/lib/memory-claim-writer.ts:327-350 | a run from an empty memory in which an accepted replace of two records leaves both |
| SlotRuns.ReplacedStays | agent/lib/memory-repository.ts:291-296 | a run after which a replaced record cannot be deleted |
| SlotRuns.SummaryOverfills | agent/lib/memory-repository.ts:447-516 | a run that ends with 51 active records in one slot by a correction |
| SlotRuns.PurgeOverfills | migrations/051_r2a_provenance_extraction_foundation.sql:456-473 | a run that ends with 99 active records in one slot by a purge |
| SlotVersions.MemoryItems.LockSlotClaims | agent/lib/memory-slot-supersede.ts:26-55 | the loop gives the slot's active records, oldest first |
| SlotVersions.MemoryItems.SupersedeSlotClaims | agent/lib/memory-slot-supersede.ts:140-177 | the loop retires exactly the given records |
| SlotVersions.MemoryItems.CreateMemoryClaim | agent/lib/memory-claim-writer.ts:327-463 | lock, reinforce, decide, insert and retire as one state |
| SlotVersions.MemoryItems.UpdateByRef | agent/lib/memory-repository.ts:389-516 | a correction as one state: the new version inserted, the old one retired; `CorrectedIs` says what is stored |
| ResponseDeadline.ScannerIsGrammar | agent/lib/model-response-deadline.ts:47-64 | the scanner finds exactly the bytes outside comment lines, line ends and blanks of the event-stream grammar |
| ResponseDeadline.ScanSplit | agent/lib/model-response-deadline.ts:47-64 | its verdict does not depend on how the stream is cut |
| ResponseDeadline.ChunkVerdict | agent/lib/model-response-deadline.ts:47-64 | a chunk counts as progress if and only if it brings an answer byte of the whole stream |
| ResponseDeadline.StreamExactly | agent/lib/model-response-deadline.ts:47-64 | the scanner agrees with the grammar of the whole stream if and only if there is no byte order mark |
| ResponseDeadline.MarkBeforeComment | agent/lib/model-response-deadline.ts:47-64 | a byte order mark and a comment: nothing answers, and the scanner finds an answer |
| ResponseDeadline.NextKeeps | agent/lib/model-response-deadline.ts:66-137 | until the body ends or the call is aborted the timer stands at the start deadline, after the first answer byte at the idle deadline from the last chunk that brought one |
| ResponseDeadline.EveryRun | agent/lib/model-response-deadline.ts:66-137 | so in every order of events |
| ResponseDeadline.OnlySilenceIsCut | agent/lib/model-response-deadline.ts:74-131 | an open stream is cut only after a whole limit without an answer byte |
| ResponseDeadline.OverdueIsCut | agent/lib/model-response-deadline.ts:74-109 | at its deadline a call that is neither over nor aborted is ended by the timer |
| ResponseDeadline.EndsExactly | agent/lib/model-response-deadline.ts:95-131 | an open body ends by its end, an error, a cancel or the timer and by nothing else, and stays ended |
| ResponseDeadline.EndedArmsExactly | agent/lib/model-response-deadline.ts:110-131 | after the end a timer is armed again if and only if an answer chunk arrives |
| ResponseDeadline.IdleEndStaysOff | agent/lib/model-response-deadline.ts:102-131 | with no read under way at the end there is never a timer again |
| ResponseDeadline.CancelLeavesTimer | agent/lib/model-response-deadline.ts:110-131 | read, cancel, chunk: the timer is armed after the end |
| ResponseDeadline.Watch.IsProgress | agent/lib/model-response-deadline.ts:47-64 | the loop over a chunk is the scanner |
| ResponseDeadline.Watch.Read | agent/lib/model-response-deadline.ts:110-127 | the continuation of a read as one step |
| ResponseDeadline.Watch.Expire | agent/lib/model-response-deadline.ts:74-109 | the timer's firing as one step |
| ResponseDeadline.Watch.CancelBody | agent/lib/model-response-deadline.ts:126-129 | a cancel as one step |
| UsageLog.SplitContinues | agent/lib/model-usage-log.ts:211-214 | splitting is a homomorphism: finished lines stay, the unfinished one goes on with what follows |
| UsageLog.CutsDoNotMatter | agent/lib/model-usage-log.ts:200-236 | the final usage and shape are those of the whole text for every way of cutting it |
| UsageLog.LinesApart | agent/lib/model-usage-log.ts:210-214 | a line goes up to LF or CR LF, and what follows is split the same way |
| UsageLog.MergedUsage | agent/lib/model-usage-log.ts:48-61 | prompt and cache counts are the last that are neither missing nor zero, completion and reasoning counts the last given |
| UsageLog.ItemsObserved | agent/lib/model-usage-log.ts:155-169 | what a finished response adds, item by item |
| UsageLog.ContentIsSum | agent/lib/model-usage-log.ts:136-176 | over any events the counted text is the sum of every delta, every message of every response and every choice |
| UsageLog.FinishIsLast | agent/lib/model-usage-log.ts:136-175 | the reported finish reason is the last one any event gave, by its type, its response or a choice |
| UsageLog.CompletedResponse | agent/lib/model-usage-log.ts:136-169 | tool calls and searches of a streamed response count once, whatever ends it; its text counts twice if and only if some of it was streamed and the last event repeats a text |
| UsageLog.CountedTwice | agent/lib/model-usage-log.ts:136-169 | created, two characters, completed with the same two: four characters are counted |
| UsageLog.Observer.ConsumeText | agent/lib/model-usage-log.ts:210-226 | the loop over lines is the fold |
| UsageLog.ClockBounded | agent/lib/model-usage-log.ts:317-338 | the clock never holds more markers than its bound, nor two for one key |
| UsageLog.MarkerSurvives | agent/lib/model-usage-log.ts:317-338 | a marker outlives any fewer other uses than the bound |
| UsageLog.StepClock.Start | agent/lib/model-usage-log.ts:329-336 | a new marker, with the oldest one gone at the bound |
| UsageLog.StepClock.Finish | agent/lib/model-usage-log.ts:323-328 | the time since the marker, which is forgotten, or nothing without one |
| HistoryRepair.RepairPairs | agent/lib/model-transport.ts:230-274 | after the repair calls and results match turn by turn |
| HistoryRepair.CallHasResult | agent/lib/model-transport.ts:230-274 | every retained call has its result in the tool messages directly behind its message |
| HistoryRepair.ResultHasCall | agent/lib/model-transport.ts:230-274 | every retained result has its call in the assistant message of its group |
| HistoryRepair.RepairKeepsWords | agent/lib/model-transport.ts:230-274 | user and system messages and all an assistant said beside calls are unchanged and in order |
| HistoryRepair.TurnExactly | agent/lib/model-transport.ts:246-268 | of a turn exactly the calls answered directly behind it stay, with exactly their results, whatever becomes of the others, and all else said and every approval |
| HistoryRepair.RepairSplits | agent/lib/model-transport.ts:230-274 | turns are repaired one by one: a prompt cut in front of any message but a tool message is repaired piece by piece |
| HistoryRepair.LooseToolsGo | agent/lib/model-transport.ts:234-241 | tool messages behind no assistant message go |
| HistoryRepair.SecondPassExactly | agent/lib/model-transport.ts:230-274 | a second pass changes nothing if and only if no approval is left behind an assistant message that vanishes without a turn in front of it |
| HistoryRepair.WithoutApprovals | agent/lib/model-transport.ts:230-274 | in particular on prompts without approvals |
| HistoryRepair.ApprovalLosesTurn | agent/lib/model-transport.ts:230-274 | a prompt on which the second pass drops an approval |
| HistoryRepair.RemoveUnresolvedToolCalls | agent/lib/model-transport.ts:230-274 | the index loop is the turn-by-turn repair |
| ThreadContext.AssembledOk | agent/lib/memory-thread-context.ts:83-174 | the total is the size of what is emitted, every limit holds (characters in all, per brief and per episode, 20 blocks and 3 episodes a thread), and no source entry or record is emitted twice |
| ThreadContext.AssembledOwn | agent/lib/memory-thread-context.ts:83-174 | the threads shown are selected ones in their order; an open one shows some of its first twenty blocks and first three episodes in their order, a completed one its completion, each with exactly the evidence its references name |
| ThreadContext.EvidenceExactly | agent/lib/memory-thread-context.ts:71-77 | the evidence of an item is that of its references, all of it |
| ThreadContext.CharactersAreText | agent/lib/memory-thread-context.ts:65-82 | what is counted is the length of titles, purposes, contents, conflicts and evidence as shown |
| ThreadContext.AheadMeans | agent/lib/memory-thread-context.ts:55-63 | a hinted thread goes first, then a named one, then the one with more hits, then by reference |
| ThreadContext.NothingElseFits | agent/lib/memory-thread-context.ts:83-174 | every considered thread and item left out would break a limit of the finished context or repeat one of its sources |
| ThreadContext.SelectedFirst | agent/lib/memory-thread-context.ts:55-87 | no candidate passed over goes ahead of a selected one |
| ThreadContext.SortOk | agent/lib/memory-thread-context.ts:55-87 | the candidates in relevance order, none lost |
| ThreadContext.Assembler.AddItem | agent/lib/memory-thread-context.ts:133-167 | one block or episode: skipped or emitted exactly as specified |
| ThreadContext.Assembler.LoadThread | agent/lib/memory-thread-context.ts:92-171 | one thread, completed or open |
| ThreadContext.AssembleMemoryThreadContext | agent/lib/memory-thread-context.ts:83-174 | the loops give that context: at most two threads, every limit of each, the total as the length of all text shown within 6,000 characters, only what is each thread's own, and nothing left out that would fit |
| ProfileSelection.SelectedOk | agent/lib/profile-selection.ts:131-166 | every budget holds, every claim is eligible and stands once, under its own subject, which stands once |
| ProfileSelection.OnlyShownClaims | agent/lib/profile-selection.ts:110-116 | no selected claim is ineligible, inactive, sensitive, an episode or unverified for sixty days |
| ProfileSelection.ShownIsCandidate | agent/lib/profile-selection.ts:110-121 | and every claim that may be shown is a candidate of its subject |
| ProfileSelection.CardOrder | agent/lib/profile-selection.ts:91-102 | communication style first, then by kind, slotted before free-form, confirmed, personal and recent first |
| ProfileSelection.SignalOrder | agent/lib/profile-selection.ts:122-129 | a subject whose strongest signal is stronger goes first: author, reply, mention, search |
| ProfileSelection.RenderShows | agent/lib/profile-selection.ts:86-89 | a claim is rendered with its origin, its slot if any and its text, and counted at that length |
| ProfileSelection.NothingElseFits | agent/lib/profile-selection.ts:138-154 | a candidate of a chosen subject is emitted or has no room in the finished selection |
| ProfileSelection.SubjectsFirst | agent/lib/profile-selection.ts:117-129 | the chosen subjects are at most four different ones in the order of their strongest signal, and none passed over goes ahead of a chosen one |
| ProfileSelection.FillMaximal | agent/lib/profile-selection.ts:142-154 | the same within one subject |
| ProfileSelection.DeduplicatedOk | agent/lib/profile-selection.ts:137-139 | every reference stays, once |
| ProfileSelection.LessOrders | agent/lib/profile-selection.ts:91-102 | the comparator is a total order |
| ProfileSelection.SubjectInOrder | agent/lib/profile-selection.ts:91-154 | the candidates of a subject come strictly in that order if and only if no record has all its readings between two readings of another, and what is emitted keeps the order |
| ProfileSelection.ReadingOutOfOrder | agent/lib/profile-selection.ts:137-139 | two readings of one record around another: the second takes the place of the first, ahead of the other |
| ProfileSelection.SelectProfileClaims | agent/lib/profile-selection.ts:104-166 | the loops give that selection: only claims that may be shown, the four subjects with the strongest signal, every budget kept, the exact total, and every candidate of a chosen subject emitted or without room |

## Left out

- HtmlMarkdown.HtmlToMarkdown: says for the whole page what is kept and that it fits; what each step writes is stated exactly for the steps that have a row, and not composed into one text.
- HtmlMarkdown: decoded text and the `href`, `src` and `alt` values come in as inputs. Entity decoding, `attribute` and `markdownUrl` are library-like string work whose rules differ from those of `tagEnd` on purpose.
- HtmlTokens.Tokens: names are lowered for ASCII letters and U+212A only; other letters do not occur in the names the code compares with.
- ChunkBoundaries.FindLastBoundary: the sentence and clause patterns are predicates on code units, without a regular-expression engine.
- EmbeddingChunks.ChunkText: asks for a cap of at least two, below which text is lost (`ChunkProgress.CapOneLosesPair`); both caps in use are larger.
- EmbeddingIndex.IndexStore.Claim: hands the jobs out in the order of the queue, which `UPDATE … RETURNING` does not promise; which jobs are handed out does not depend on it.
- EmbeddingIndex: `SKIP LOCKED` and transaction isolation are not modelled; a claim sees all waiting jobs.
- EmbeddingWorker.EmbedRecord: the provider is a function that, when it replies, replies honestly; timeouts, HTTP status and JSON parsing are its other answers. Polling, signals and thread titles are not part of this model.
- RetrievalWindow.Search: the index walk is an exact nearest-first list; full-text branches, fused scores and the collapse of duplicates are left out. At the ceiling a starved window promises nothing more.
- ClaimWriter: membership, evidence, near-duplicate and quota checks are the outcomes of a body that was denied, found candidates, broke or wrote, and a claim is visible to its caller as long as it lives. The source lock and row locks are implied by steps being atomic; the second ledger lookup of an attach, which only matters between lock and lookup, therefore coincides with the first.
- ThreadAttempts: deletion of a whole family or conversation, which erases its rows, is not a step.
- SlotVersions: retention windows and conflict resolution are left out, evidence, relations, thread entries and audit rows too; a purge is a step that may happen at any time after a delete.
- ResponseDeadline.OnlySilenceIsCut: the event loop may run late, so the deadline is a lower bound on the cut; what the provider's stream does after an abort is any event the model admits.
- UsageLog.CutsDoNotMatter: text decoding, JSON parsing and the projection of provider fields are one function of a line.
- HistoryRepair: content parts other than calls, results and approvals are opaque.
- ThreadContext: the collation of references is an input order.
- ProfileSelection: the priority and the label shown with a subject are left out.
- Telegram and review channels, hooks, instructions, environment setup and scripts other than the worker and the reset.
