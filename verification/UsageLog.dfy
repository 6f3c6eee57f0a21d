/** The usage observer of model-usage-log.ts. */
module UsageLog {
  // Lines out of a text stream cut anywhere, what they report put together, and the bounded clock of step markers.

  import opened Utf16
  import opened Wrappers

  datatype Usage = Usage(cacheHit: Option<int>, cacheMiss: Option<int>, completion: Option<int>, prompt: Option<int>,
                         reasoning: Option<int>)

  /** A message counts by the lengths of its text parts. */
  datatype Item = FunctionCall(name: Text) | WebSearch | Message(parts: seq<nat>) | OtherItem

  datatype Choice = Choice(finishReason: Option<Text>, contentChars: nat)

  datatype Response = Response(status: Text, output: seq<Item>)

  /** What the observer reads in one event: each field is there when the JSON has it in the expected shape. */
  datatype Payload = Payload(
    deltaChars: nat,
    ending: Option<Text>,
    doneItem: Option<Item>,
    final: Option<Response>,
    choices: seq<Choice>,
    usage: Option<Usage>)

  datatype Shape = Shape(contentChars: nat, finishReason: Option<Text>, toolCalls: seq<Text>, webSearchCalls: nat)

  // Lines

  function FirstLf(s: Text): (n: nat)
    ensures n <= |s| && (forall i :: 0 <= i < n ==> s[i] != LF) && (n < |s| ==> s[n] == LF)
  {
    if s == [] || s[0] == LF then 0 else 1 + FirstLf(s[1..])
  }

  /** A line without the carriage return of its end. */
  function DropCr(line: Text): Text {
    if line != [] && line[|line| - 1] == CR then line[..|line| - 1] else line
  }

  /** `split(/\r?\n/)` */
  function Split(s: Text): (lines: seq<Text>)
    ensures lines != []
    decreases |s|
  {
    var n := FirstLf(s);
    if n == |s| then [s] else [DropCr(s[..n])] + Split(s[n + 1..])
  }

  function Init<T>(s: seq<T>): seq<T> requires s != [] { s[..|s| - 1] }

  function Last<T>(s: seq<T>): T requires s != [] { s[|s| - 1] }

  lemma FirstLfOf(s: Text, n: nat)
    requires n < |s| && s[n] == LF && forall i :: 0 <= i < n ==> s[i] != LF
    ensures FirstLf(s) == n
  {
  }

  lemma Regroup<T>(a: seq<T>, b: seq<T>, c: seq<T>)
    ensures a + (b + c) == a + b + c
  {
  }

  /** The homomorphism: finished lines stay, and the unfinished one goes on with the text that follows. */
  lemma {:induction false} SplitContinues(a: Text, b: Text)
    ensures Split(a + b) == Init(Split(a)) + Split(Last(Split(a)) + b)
    decreases |a|
  {
    var n := FirstLf(a);
    if n == |a| {
      assert Init(Split(a)) == [];
    } else {
      FirstLfOf(a + b, n);
      var first, rest := [DropCr(a[..n])], a[n + 1..];
      assert (a + b)[..n] == a[..n] && (a + b)[n + 1..] == rest + b;
      SplitContinues(rest, b);
      assert Split(a) == first + Split(rest) && Split(a + b) == first + Split(rest + b);
      assert Init(Split(a)) == first + Init(Split(rest));
      Regroup(first, Init(Split(rest)), Split(Last(Split(rest)) + b));
    }
  }

  /** A line goes up to LF or CR LF, and what is behind is split the same way; without one the text is the line. */
  lemma LinesApart(line: Text, more: Text)
    requires LF !in line && (line == [] || line[|line| - 1] != CR)
    ensures Split(line) == [line]
    ensures Split(line + [LF] + more) == [line] + Split(more) && Split(line + [CR, LF] + more) == [line] + Split(more)
  {
    LineBreak(line, [LF], more);
    LineBreak(line, [CR, LF], more);
  }

  lemma LineBreak(line: Text, end: Text, more: Text)
    requires LF !in line && (line == [] || line[|line| - 1] != CR) && (end == [LF] || end == [CR, LF])
    ensures Split(line + end + more) == [line] + Split(more)
  {
    if end == [LF] {
      FrontLine(line, more);
    } else {
      FrontLine(line + [CR], more);
      CrLf(line, more);
    }
  }

  lemma CrLf(line: Text, more: Text)
    ensures line + [CR, LF] + more == line + [CR] + [LF] + more && DropCr(line + [CR]) == line
  {
  }

  lemma FrontLine(front: Text, more: Text)
    requires LF !in front
    ensures Split(front + [LF] + more) == [DropCr(front)] + Split(more)
  {
    var s := front + [LF] + more;
    assert s[..|front|] == front && s[|front|] == LF && s[|front| + 1..] == more;
    FirstLfOf(s, |front|);
  }

  // What lines report

  const DATA: Text := [0x64, 0x61, 0x74, 0x61, 0x3a]
  const DONE: Text := [0x5b, 0x44, 0x4f, 0x4e, 0x45, 0x5d]

  type Parser = Text -> Option<Payload>

  function DataPayload(line: Text, parse: Parser): Option<Payload> {
    if !(DATA <= line) then None
    else
      var payload := Trim(line[|DATA|..]);
      if payload == [] || payload == DONE then None else parse(payload)
  }

  /** JavaScript's `||` on counts: zero gives way like a missing count. */
  function Or(a: Option<int>, b: Option<int>): Option<int> { if a != None && a != Some(0) then a else b }

  /** `??` */
  function Coalesce(a: Option<int>, b: Option<int>): Option<int> { if a != None then a else b }

  function MergeUsage(previous: Option<Usage>, next: Option<Usage>): Option<Usage> {
    if next == None then previous
    else if previous == None then next
    else
      var p, n := previous.value, next.value;
      Some(Usage(Or(n.cacheHit, p.cacheHit), Or(n.cacheMiss, p.cacheMiss), Coalesce(n.completion, p.completion),
                 Or(n.prompt, p.prompt), Coalesce(n.reasoning, p.reasoning)))
  }

  function Sum(s: seq<nat>): nat { if s == [] then 0 else Sum(Init(s)) + Last(s) }

  function ObserveItem(shape: Shape, item: Item, streamed: bool): Shape {
    match item
    case FunctionCall(name) => if streamed then shape else shape.(toolCalls := shape.toolCalls + [name])
    case WebSearch => if streamed then shape else shape.(webSearchCalls := shape.webSearchCalls + 1)
    case Message(parts) => shape.(contentChars := shape.contentChars + Sum(parts))
    case OtherItem => shape
  }

  function ObserveItems(shape: Shape, items: seq<Item>, streamed: bool): Shape {
    if items == [] then shape else ObserveItem(ObserveItems(shape, Init(items), streamed), Last(items), streamed)
  }

  function ObserveChoice(shape: Shape, choice: Choice): Shape {
    shape.(finishReason := if choice.finishReason != None then choice.finishReason else shape.finishReason,
           contentChars := shape.contentChars + choice.contentChars)
  }

  function ObserveChoiceList(shape: Shape, choices: seq<Choice>): Shape {
    if choices == [] then shape else ObserveChoice(ObserveChoiceList(shape, Init(choices)), Last(choices))
  }

  /** Text deltas, the ending and a finished item of a streamed response. */
  function ObserveEvent(shape: Shape, p: Payload): Shape {
    var s := shape.(contentChars := shape.contentChars + p.deltaChars,
                    finishReason := if p.ending != None then p.ending else shape.finishReason);
    if p.doneItem == None || p.doneItem.value.Message? then s else ObserveItem(s, p.doneItem.value, false)
  }

  /** The completed event repeats every item. */
  function ObserveFinal(shape: Shape, final: Option<Response>): Shape {
    if final == None then shape
    else
      var streamed := shape.webSearchCalls > 0 || shape.toolCalls != [];
      ObserveItems(shape.(finishReason := Some(final.value.status)), final.value.output, streamed)
  }

  function ObserveChoices(shape: Shape, p: Payload): Shape {
    ObserveChoiceList(ObserveFinal(ObserveEvent(shape, p), p.final), p.choices)
  }

  datatype Seen = Seen(usage: Option<Usage>, shape: Shape)

  const NOTHING := Seen(None, Shape(0, None, [], 0))

  function ObserveLine(seen: Seen, line: Text, parse: Parser): Seen {
    var payload := DataPayload(line, parse);
    if payload == None then seen
    else Seen(MergeUsage(seen.usage, payload.value.usage), ObserveChoices(seen.shape, payload.value))
  }

  function ObserveLines(seen: Seen, lines: seq<Text>, parse: Parser): Seen {
    if lines == [] then seen else ObserveLine(ObserveLines(seen, Init(lines), parse), Last(lines), parse)
  }

  lemma {:induction false} ObserveSplit(seen: Seen, a: seq<Text>, b: seq<Text>, parse: Parser)
    ensures ObserveLines(seen, a + b, parse) == ObserveLines(ObserveLines(seen, a, parse), b, parse)
    decreases |b|
  {
    if b == [] {
      assert a + b == a;
    } else {
      assert Init(a + b) == a + Init(b) && Last(a + b) == Last(b);
      ObserveSplit(seen, a, Init(b), parse);
    }
  }

  // The stream

  datatype Observing = Observing(pending: Text, seen: Seen)

  function Consume(o: Observing, text: Text, parse: Parser): Observing {
    var lines := Split(o.pending + text);
    Observing(Last(lines), ObserveLines(o.seen, Init(lines), parse))
  }

  function Flush(o: Observing, text: Text, parse: Parser): Seen {
    ObserveLines(o.seen, Split(o.pending + text), parse)
  }

  function ConsumeAll(o: Observing, chunks: seq<Text>, parse: Parser): Observing {
    if chunks == [] then o else Consume(ConsumeAll(o, Init(chunks), parse), Last(chunks), parse)
  }

  function Joined(chunks: seq<Text>): Text { if chunks == [] then [] else Joined(Init(chunks)) + Last(chunks) }

  /** What has been read: the finished lines of the text so far, and the unfinished one. */
  lemma {:induction false} ConsumedLines(chunks: seq<Text>, parse: Parser)
    ensures var o := ConsumeAll(Observing([], NOTHING), chunks, parse);
            var lines := Split(Joined(chunks));
            o == Observing(Last(lines), ObserveLines(NOTHING, Init(lines), parse))
    decreases |chunks|
  {
    if chunks != [] {
      var before, text := Joined(Init(chunks)), Last(chunks);
      ConsumedLines(Init(chunks), parse);
      SplitContinues(before, text);
      var more := Split(Last(Split(before)) + text);
      assert Init(Split(before + text)) == Init(Split(before)) + Init(more);
      ObserveSplit(NOTHING, Init(Split(before)), Init(more), parse);
    }
  }

  /** The final report is that of the whole text, wherever it was cut: also between CR and LF. */
  lemma CutsDoNotMatter(chunks: seq<Text>, tail: Text, parse: Parser)
    ensures Flush(ConsumeAll(Observing([], NOTHING), chunks, parse), tail, parse)
            == ObserveLines(NOTHING, Split(Joined(chunks) + tail), parse)
  {
    ConsumedLines(chunks, parse);
    var before := Joined(chunks);
    SplitContinues(before, tail);
    ObserveSplit(NOTHING, Init(Split(before)), Split(Last(Split(before)) + tail), parse);
  }

  // What the report is

  function MergeAll(us: seq<Usage>): Option<Usage> {
    if us == [] then None else MergeUsage(MergeAll(Init(us)), Some(Last(us)))
  }

  /** The last count that is neither missing nor zero; the first record's count when there is none. */
  function LastTruthy(counts: seq<Option<int>>): Option<int>
    requires counts != []
  {
    if |counts| == 1 || (Last(counts) != None && Last(counts) != Some(0)) then Last(counts) else LastTruthy(Init(counts))
  }

  function LastGiven<T>(given: seq<Option<T>>): Option<T> {
    if given == [] then None else if Last(given).Some? then Last(given) else LastGiven(Init(given))
  }

  function Counts(us: seq<Usage>, count: Usage -> Option<int>): seq<Option<int>> {
    seq(|us|, i requires 0 <= i < |us| => count(us[i]))
  }

  /** A later partial record keeps earlier prompt-side counts, and its completion counts win even when they are zero. */
  lemma {:induction false} MergedUsage(us: seq<Usage>)
    requires us != []
    ensures MergeAll(us).Some?
    ensures var u := MergeAll(us).value;
            && u.prompt == LastTruthy(Counts(us, (u: Usage) => u.prompt))
            && u.cacheHit == LastTruthy(Counts(us, (u: Usage) => u.cacheHit))
            && u.cacheMiss == LastTruthy(Counts(us, (u: Usage) => u.cacheMiss))
            && u.completion == LastGiven(Counts(us, (u: Usage) => u.completion))
            && u.reasoning == LastGiven(Counts(us, (u: Usage) => u.reasoning))
  {
    CountsInit(us, (u: Usage) => u.prompt);
    CountsInit(us, (u: Usage) => u.cacheHit);
    CountsInit(us, (u: Usage) => u.cacheMiss);
    CountsInit(us, (u: Usage) => u.completion);
    CountsInit(us, (u: Usage) => u.reasoning);
    if |us| > 1 {
      MergedUsage(Init(us));
    } else {
      assert MergeAll(Init(us)) == None;
    }
  }

  lemma CountsInit(us: seq<Usage>, count: Usage -> Option<int>)
    requires us != []
    ensures Init(Counts(us, count)) == Counts(Init(us), count) && Last(Counts(us, count)) == count(Last(us))
  {
  }

  function Calls(items: seq<Item>): seq<Text> {
    if items == [] then []
    else if Last(items).FunctionCall? then Calls(Init(items)) + [Last(items).name]
    else Calls(Init(items))
  }

  function Searches(items: seq<Item>): nat {
    if items == [] then 0 else Searches(Init(items)) + if Last(items).WebSearch? then 1 else 0
  }

  function MessageChars(items: seq<Item>): nat {
    if items == [] then 0 else MessageChars(Init(items)) + if Last(items).Message? then Sum(Last(items).parts) else 0
  }

  lemma {:induction false} ItemsObserved(shape: Shape, items: seq<Item>, streamed: bool)
    ensures var s := ObserveItems(shape, items, streamed);
            && s.contentChars == shape.contentChars + MessageChars(items)
            && s.toolCalls == shape.toolCalls + (if streamed then [] else Calls(items))
            && s.webSearchCalls == shape.webSearchCalls + (if streamed then 0 else Searches(items))
            && s.finishReason == shape.finishReason
    decreases |items|
  {
    if items != [] { ItemsObserved(shape, Init(items), streamed); }
  }

  /**
   * An event of a streamed response before its end: deltas, finished items, and the created and in-progress
   * events, which carry a response whose output is still empty.
   */
  predicate StreamedEvent(p: Payload) { (p.final == None || p.final.value.output == []) && p.choices == [] }

  /** The event that ends it: by its type it has an ending, and neither a delta nor a finished item. */
  predicate CompletedEvent(p: Payload) {
    p.final.Some? && p.choices == [] && p.deltaChars == 0 && p.doneItem == None
  }

  function ObserveAll(shape: Shape, ps: seq<Payload>): Shape {
    if ps == [] then shape else ObserveChoices(ObserveAll(shape, Init(ps)), Last(ps))
  }

  function Deltas(ps: seq<Payload>): nat { if ps == [] then 0 else Deltas(Init(ps)) + Last(ps).deltaChars }

  function DoneItems(ps: seq<Payload>): seq<Item> {
    if ps == [] then [] else DoneItems(Init(ps)) + if Last(ps).doneItem == None then [] else [Last(ps).doneItem.value]
  }

  lemma {:induction false} EventsObserved(ps: seq<Payload>)
    requires forall i :: 0 <= i < |ps| ==> StreamedEvent(ps[i])
    ensures var s := ObserveAll(NOTHING.shape, ps);
            && s.contentChars == Deltas(ps)
            && s.toolCalls == Calls(DoneItems(ps))
            && s.webSearchCalls == Searches(DoneItems(ps))
    decreases |ps|
  {
    if ps != [] {
      EventsObserved(Init(ps));
      var before, p := DoneItems(Init(ps)), Last(ps);
      assert StreamedEvent(p);
      if p.doneItem != None {
        assert Init(before + [p.doneItem.value]) == before && Last(before + [p.doneItem.value]) == p.doneItem.value;
      } else {
        assert before + [] == before;
      }
    }
  }

  /**
   * A streamed response with its completed event: calls and searches are counted once, and the content is the
   * length of the streamed text plus that of the completed messages. It is counted twice, more than what was
   * streamed and more than what was completed, exactly when there is text in both.
   */
  lemma CompletedResponse(ps: seq<Payload>, last: Payload)
    requires forall i :: 0 <= i < |ps| ==> StreamedEvent(ps[i])
    requires CompletedEvent(last)
    ensures var s := ObserveAll(NOTHING.shape, ps + [last]);
            var output := last.final.value.output;
            var items := if Calls(DoneItems(ps)) != [] || Searches(DoneItems(ps)) > 0 then DoneItems(ps) else output;
            && s.toolCalls == Calls(items) && s.webSearchCalls == Searches(items)
            && s.finishReason == Some(last.final.value.status)
            && s.contentChars == Deltas(ps) + MessageChars(output)
            && (s.contentChars > Deltas(ps) && s.contentChars > MessageChars(output) <==>
                  Deltas(ps) > 0 && MessageChars(output) > 0)
  {
    EventsObserved(ps);
    ObserveOneMore(NOTHING.shape, ps, last);
    FinalObserved(ObserveAll(NOTHING.shape, ps), last);
  }

  /** Created, a delta of two characters, completed with the same two: four are reported. */
  lemma CountedTwice(status: Text, ended: Text)
    ensures var created := Payload(0, None, None, Some(Response(status, [])), [], None);
            var delta := Payload(2, None, None, None, [], None);
            var completed := Payload(0, Some(ended), None, Some(Response(ended, [Message([2])])), [], None);
            ObserveAll(NOTHING.shape, [created, delta, completed]).contentChars == 4
  {
    var created := Payload(0, None, None, Some(Response(status, [])), [], None);
    var delta := Payload(2, None, None, None, [], None);
    var completed := Payload(0, Some(ended), None, Some(Response(ended, [Message([2])])), [], None);
    var ps := [created, delta];
    assert Init(ps) == [created] && Deltas(ps) == Deltas([created]) + 2 && Deltas([created]) == 0;
    assert Sum([2]) == 2 && MessageChars([Message([2])]) == 2;
    CompletedResponse(ps, completed);
    assert ps + [completed] == [created, delta, completed];
  }

  /** The characters one event adds: a delta, the messages of a response and the content of choices. */
  function Counted(p: Payload): nat {
    p.deltaChars + (if p.final == None then 0 else MessageChars(p.final.value.output)) + ChoiceChars(p.choices)
  }

  function ChoiceChars(choices: seq<Choice>): nat {
    if choices == [] then 0 else ChoiceChars(Init(choices)) + Last(choices).contentChars
  }

  function CountedAll(ps: seq<Payload>): nat { if ps == [] then 0 else CountedAll(Init(ps)) + Counted(Last(ps)) }

  lemma {:induction false} ChoicesObserved(shape: Shape, choices: seq<Choice>)
    ensures ObserveChoiceList(shape, choices).contentChars == shape.contentChars + ChoiceChars(choices)
    decreases |choices|
  {
    if choices != [] { ChoicesObserved(shape, Init(choices)); }
  }

  /** Of every protocol and every stream: the content size is the sum of what its events add. */
  lemma {:induction false} ContentIsSum(ps: seq<Payload>)
    ensures ObserveAll(NOTHING.shape, ps).contentChars == CountedAll(ps)
    decreases |ps|
  {
    if ps != [] {
      var p := Last(ps);
      ContentIsSum(Init(ps));
      var s := ObserveEvent(ObserveAll(NOTHING.shape, Init(ps)), p);
      if p.final != None {
        ItemsObserved(s.(finishReason := Some(p.final.value.status)), p.final.value.output,
                      s.webSearchCalls > 0 || s.toolCalls != []);
      }
      ChoicesObserved(ObserveFinal(s, p.final), p.choices);
    }
  }

  /** The reasons an event gives: by its type, by the response it carries, and by each of its choices. */
  function Reasons(p: Payload): seq<Option<Text>> {
    [p.ending] + (if p.final == None then [] else [Some(p.final.value.status)]) + ChoiceReasons(p.choices)
  }

  function ChoiceReasons(choices: seq<Choice>): seq<Option<Text>> {
    if choices == [] then [] else ChoiceReasons(Init(choices)) + [Last(choices).finishReason]
  }

  function AllReasons(ps: seq<Payload>): seq<Option<Text>> { if ps == [] then [] else AllReasons(Init(ps)) + Reasons(Last(ps)) }

  function OrElse<T>(a: Option<T>, b: Option<T>): Option<T> { if a.Some? then a else b }

  lemma {:induction false} LastGivenJoin<T>(a: seq<Option<T>>, b: seq<Option<T>>)
    ensures LastGiven(a + b) == OrElse(LastGiven(b), LastGiven(a))
    decreases |b|
  {
    if b == [] {
      assert a + b == a;
    } else {
      assert Init(a + b) == a + Init(b) && Last(a + b) == Last(b);
      LastGivenJoin(a, Init(b));
    }
  }

  lemma {:induction false} ChoicesGive(shape: Shape, choices: seq<Choice>)
    ensures ObserveChoiceList(shape, choices).finishReason == OrElse(LastGiven(ChoiceReasons(choices)), shape.finishReason)
    decreases |choices|
  {
    if choices != [] {
      ChoicesGive(shape, Init(choices));
      LastGivenJoin(ChoiceReasons(Init(choices)), [Last(choices).finishReason]);
      assert Init([Last(choices).finishReason]) == [];
    }
  }

  lemma EventGives(shape: Shape, p: Payload)
    ensures ObserveChoices(shape, p).finishReason == OrElse(LastGiven(Reasons(p)), shape.finishReason)
  {
    var s := ObserveEvent(shape, p);
    var f := ObserveFinal(s, p.final);
    var status := if p.final == None then [] else [Some(p.final.value.status)];
    if p.final != None {
      ItemsObserved(s.(finishReason := Some(p.final.value.status)), p.final.value.output, s.webSearchCalls > 0 || s.toolCalls != []);
    }
    ChoicesGive(f, p.choices);
    LastGivenJoin([p.ending] + status, ChoiceReasons(p.choices));
    LastGivenJoin([p.ending], status);
    assert Init([p.ending]) == [] && (status != [] ==> Init(status) == []);
  }

  /** The reported finish reason is the last one any event gave. */
  lemma {:induction false} FinishIsLast(ps: seq<Payload>)
    ensures ObserveAll(NOTHING.shape, ps).finishReason == LastGiven(AllReasons(ps))
    decreases |ps|
  {
    if ps != [] {
      FinishIsLast(Init(ps));
      EventGives(ObserveAll(NOTHING.shape, Init(ps)), Last(ps));
      LastGivenJoin(AllReasons(Init(ps)), Reasons(Last(ps)));
    }
  }

  lemma ObserveOneMore(shape: Shape, ps: seq<Payload>, p: Payload)
    ensures ObserveAll(shape, ps + [p]) == ObserveChoices(ObserveAll(shape, ps), p)
  {
    assert Init(ps + [p]) == ps && Last(ps + [p]) == p;
  }

  lemma FinalObserved(shape: Shape, last: Payload)
    requires CompletedEvent(last)
    ensures var s := ObserveChoices(shape, last);
            var output := last.final.value.output;
            var streamed := shape.webSearchCalls > 0 || shape.toolCalls != [];
            && s.toolCalls == (if streamed then shape.toolCalls else Calls(output))
            && s.webSearchCalls == (if streamed then shape.webSearchCalls else Searches(output))
            && s.finishReason == Some(last.final.value.status)
            && s.contentChars == shape.contentChars + MessageChars(output)
  {
    var s := ObserveEvent(shape, last);
    var streamed := shape.webSearchCalls > 0 || shape.toolCalls != [];
    ItemsObserved(s.(finishReason := Some(last.final.value.status)), last.final.value.output, streamed);
    assert shape.toolCalls + [] == shape.toolCalls;
    assert shape.toolCalls == [] ==> shape.toolCalls + Calls(last.final.value.output) == Calls(last.final.value.output);
  }

  // The observer and the clock

  class Observer {
    const parse: Parser
    var pending: Text
    var seen: Seen

    constructor (parse: Parser)
      ensures this.parse == parse && pending == [] && seen == NOTHING
    {
      this.parse := parse;
      pending := [];
      seen := NOTHING;
    }

    ghost function Now(): Observing
      reads this
    {
      Observing(pending, seen)
    }

    method ObserveTextLine(line: Text)
      modifies this`seen
      ensures seen == ObserveLine(old(seen), line, parse)
    {
      var payload := DataPayload(line, parse);
      if payload != None {
        seen := Seen(MergeUsage(seen.usage, payload.value.usage), ObserveChoices(seen.shape, payload.value));
      }
    }

    method ConsumeText(text: Text, flush: bool)
      modifies this
      ensures flush ==> seen == Flush(old(Now()), text, parse) && pending == []
      ensures !flush ==> Now() == Consume(old(Now()), text, parse)
    {
      ghost var before := seen;
      var lines := Split(pending + text);
      if flush {
        pending := [];
      } else {
        pending := Last(lines);
        lines := Init(lines);
      }
      ghost var rest := pending;
      for i := 0 to |lines|
        invariant seen == ObserveLines(before, lines[..i], parse) && pending == rest
      {
        assert Init(lines[..i + 1]) == lines[..i] && Last(lines[..i + 1]) == lines[i];
        ObserveTextLine(lines[i]);
      }
      assert lines[..|lines|] == lines;
    }
  }

  type Key = nat

  /** A JavaScript `Map` in its insertion order. */
  datatype Marker = Marker(key: Key, at: int)

  predicate DistinctKeys(markers: seq<Marker>) { forall i, j :: 0 <= i < j < |markers| ==> markers[i].key != markers[j].key }

  function Without(markers: seq<Marker>, key: Key): seq<Marker> {
    if markers == [] then []
    else if markers[0].key == key then markers[1..]
    else [markers[0]] + Without(markers[1..], key)
  }

  lemma {:induction false} WithoutHolds(markers: seq<Marker>, key: Key)
    ensures forall m :: m in Without(markers, key) ==> m in markers
    ensures |markers| - 1 <= |Without(markers, key)| <= |markers|
    decreases |markers|
  {
    if markers != [] && markers[0].key != key { WithoutHolds(markers[1..], key); }
  }

  lemma {:induction false} WithoutKeeps(markers: seq<Marker>, key: Key)
    requires DistinctKeys(markers)
    ensures DistinctKeys(Without(markers, key))
    ensures forall i :: 0 <= i < |Without(markers, key)| ==> Without(markers, key)[i].key != key
    decreases |markers|
  {
    if markers != [] && markers[0].key != key {
      WithoutKeeps(markers[1..], key);
      WithoutHolds(markers[1..], key);
      var rest := Without(markers[1..], key);
      forall i | 0 <= i < |rest| ensures rest[i].key != markers[0].key {
        assert rest[i] in markers[1..];
      }
    }
  }

  datatype Use = StartUse(key: Key, at: int) | FinishUse(key: Key)

  function Started(markers: seq<Marker>, key: Key, at: int, bound: int): seq<Marker> {
    var rest := Without(markers, key);
    (if |rest| >= bound && rest != [] then rest[1..] else rest) + [Marker(key, at)]
  }

  function Used(markers: seq<Marker>, use: Use, bound: int): seq<Marker> {
    match use
    case StartUse(key, at) => Started(markers, key, at, bound)
    case FinishUse(key) => Without(markers, key)
  }

  function UsedAll(markers: seq<Marker>, uses: seq<Use>, bound: int): seq<Marker> {
    if uses == [] then markers else Used(UsedAll(markers, Init(uses), bound), Last(uses), bound)
  }

  function Bound(maxMarkers: int): nat { if maxMarkers < 1 then 1 else maxMarkers }

  /** However steps start and finish, the clock never holds more than its bound, and never less than one. */
  lemma {:induction false} ClockBounded(uses: seq<Use>, maxMarkers: int)
    ensures DistinctKeys(UsedAll([], uses, maxMarkers)) && |UsedAll([], uses, maxMarkers)| <= Bound(maxMarkers)
    decreases |uses|
  {
    if uses != [] {
      ClockBounded(Init(uses), maxMarkers);
      var before := UsedAll([], Init(uses), maxMarkers);
      WithoutKeeps(before, Last(uses).key);
      WithoutHolds(before, Last(uses).key);
    }
  }

  /** Markers behind the last occurrence: the younger ones. */
  predicate Young(markers: seq<Marker>, m: Marker, n: nat) {
    exists i :: 0 <= i < |markers| && markers[i] == m && |markers| - i - 1 <= n
  }

  lemma {:induction false} WithoutAges(markers: seq<Marker>, m: Marker, n: nat, key: Key)
    requires Young(markers, m, n) && key != m.key
    ensures Young(Without(markers, key), m, n)
    decreases |markers|
  {
    var i :| 0 <= i < |markers| && markers[i] == m && |markers| - i - 1 <= n;
    if i > 0 {
      assert markers[1..][i - 1] == m;
      if markers[0].key != key {
        WithoutAges(markers[1..], m, n, key);
        var rest := Without(markers[1..], key);
        var j :| 0 <= j < |rest| && rest[j] == m && |rest| - j - 1 <= n;
        assert Without(markers, key)[j + 1] == m;
      }
    } else {
      WithoutSize(markers[1..], key);
      assert Without(markers, key)[0] == m;
    }
  }

  lemma {:induction false} WithoutSize(markers: seq<Marker>, key: Key)
    ensures |Without(markers, key)| <= |markers|
    decreases |markers|
  {
    if markers != [] { WithoutSize(markers[1..], key); }
  }

  predicate Touches(use: Use, key: Key) { use.key == key }

  /** A marker outlives any mix of fewer other uses than the bound: a step is timed unless that many others came first. */
  lemma {:induction false} MarkerSurvives(markers: seq<Marker>, key: Key, at: int, uses: seq<Use>, maxMarkers: int)
    requires |uses| < Bound(maxMarkers) && forall i :: 0 <= i < |uses| ==> !Touches(uses[i], key)
    ensures Young(UsedAll(Started(markers, key, at, maxMarkers), uses, maxMarkers), Marker(key, at), |uses|)
    decreases |uses|
  {
    var m := Marker(key, at);
    if uses == [] {
      var s := Started(markers, key, at, maxMarkers);
      assert s[|s| - 1] == m;
    } else {
      var n := |uses| - 1;
      MarkerSurvives(markers, key, at, Init(uses), maxMarkers);
      var before := UsedAll(Started(markers, key, at, maxMarkers), Init(uses), maxMarkers);
      assert !Touches(uses[n], key);
      WithoutAges(before, m, n, Last(uses).key);
      var rest := Without(before, Last(uses).key);
      var i :| 0 <= i < |rest| && rest[i] == m && |rest| - i - 1 <= n;
      if Last(uses).StartUse? {
        var s := Started(before, Last(uses).key, Last(uses).at, maxMarkers);
        if |rest| >= maxMarkers {
          assert s[i - 1] == m;
        } else {
          assert s[i] == m;
        }
      } else {
        assert rest[i] == m;
      }
    }
  }

  class StepClock {
    const maxMarkers: int
    var started: seq<Marker>

    constructor (maxMarkers: int)
      ensures started == [] && this.maxMarkers == maxMarkers
    {
      this.maxMarkers := maxMarkers;
      started := [];
    }

    method Start(key: Key, now: int)
      modifies this
      ensures started == Used(old(started), StartUse(key, now), maxMarkers)
    {
      started := Without(started, key);
      if |started| >= maxMarkers && started != [] {
        started := started[1..];
      }
      started := started + [Marker(key, now)];
    }

    method Finish(key: Key, now: int) returns (elapsed: Option<int>)
      modifies this
      ensures started == Used(old(started), FinishUse(key), maxMarkers)
      ensures elapsed == None <==> forall m :: m in old(started) ==> m.key != key
      ensures elapsed != None ==> Marker(key, now - elapsed.value) in old(started)
    {
      elapsed := None;
      for i := 0 to |started|
        invariant elapsed == None <==> forall j :: 0 <= j < i ==> started[j].key != key
        invariant elapsed != None ==> Marker(key, now - elapsed.value) in started
        invariant started == old(started)
      {
        if started[i].key == key {
          elapsed := Some(now - started[i].at);
        }
      }
      started := Without(started, key);
    }
  }
}
