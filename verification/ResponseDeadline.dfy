/** The stream observer of model-response-deadline.ts. */
module ResponseDeadline {
  // The scanner that tells answer bytes from keep-alive, against the line grammar of section 9.2.5 of the HTML
  // Standard, and the timer over every order of events.

  import opened Wrappers

  type byte = b: int | 0 <= b < 256

  const NEWLINE: byte := 0x0a
  const CARRIAGE_RETURN: byte := 0x0d
  const SPACE: byte := 0x20
  const TAB: byte := 0x09
  const COLON: byte := 0x3a

  // The grammar of an event stream

  predicate IsEnd(b: byte) { b == NEWLINE || b == CARRIAGE_RETURN }

  /** Bytes before the first end of line. */
  function LineLength(s: seq<byte>): (n: nat)
    ensures n <= |s| && (forall i :: 0 <= i < n ==> !IsEnd(s[i])) && (n < |s| ==> IsEnd(s[n]))
  {
    if s == [] || IsEnd(s[0]) then 0 else 1 + LineLength(s[1..])
  }

  /** `end-of-line = ( cr lf / cr / lf )` */
  function EndLength(s: seq<byte>): (n: nat)
    ensures n <= |s| && (s != [] && IsEnd(s[0]) ==> n > 0)
  {
    if s == [] || !IsEnd(s[0]) then 0
    else if s[0] == CARRIAGE_RETURN && |s| > 1 && s[1] == NEWLINE then 2
    else 1
  }

  function Flags(n: nat, value: nat -> bool): (r: seq<bool>)
    ensures |r| == n && forall i :: 0 <= i < n ==> r[i] == value(i)
  {
    seq(n, i requires 0 <= i < n => value(i))
  }

  function NoFlags(n: nat): (r: seq<bool>)
    ensures |r| == n && forall i :: 0 <= i < n ==> !r[i]
  {
    seq(n, _ => false)
  }

  predicate IsBlank(b: byte) { b == SPACE || b == TAB }

  function LineAnswers(line: seq<byte>): seq<bool> {
    Flags(|line|, (i: nat) => i < |line| && line[0] != COLON && !IsBlank(line[i]))
  }

  /** Which bytes of a stream of lines answer: those outside comment lines, ends of lines and blanks. */
  function Answers(s: seq<byte>): (r: seq<bool>)
    ensures |r| == |s|
    decreases |s|
  {
    var n := LineLength(s);
    var e := EndLength(s[n..]);
    if n + e == 0 then []
    else LineAnswers(s[..n]) + NoFlags(e) + Answers(s[n + e..])
  }

  const BOM: seq<byte> := [0xef, 0xbb, 0xbf]

  /** `stream = [ bom ] *event`: a leading byte order mark is no part of the first line. */
  function StreamAnswers(s: seq<byte>): seq<bool> {
    if BOM <= s then NoFlags(3) + Answers(s[3..]) else Answers(s)
  }

  // The scanner

  datatype Scan = Scan(atLineStart: bool, inComment: bool)

  const SCAN_START := Scan(true, false)

  function ScanByte(s: Scan, b: byte): Scan {
    if IsEnd(b) then Scan(true, false) else Scan(false, s.inComment || (s.atLineStart && b == COLON))
  }

  predicate Progress(s: Scan, b: byte) { !IsEnd(b) && !ScanByte(s, b).inComment && !IsBlank(b) }

  function ScanAll(s: Scan, bytes: seq<byte>): Scan
    decreases |bytes|
  {
    if bytes == [] then s else ScanAll(ScanByte(s, bytes[0]), bytes[1..])
  }

  function Verdicts(s: Scan, bytes: seq<byte>): (r: seq<bool>)
    ensures |r| == |bytes|
    decreases |bytes|
  {
    if bytes == [] then [] else [Progress(s, bytes[0])] + Verdicts(ScanByte(s, bytes[0]), bytes[1..])
  }

  lemma {:induction false} ScanSplit(s: Scan, a: seq<byte>, b: seq<byte>)
    ensures ScanAll(s, a + b) == ScanAll(ScanAll(s, a), b)
    ensures Verdicts(s, a + b) == Verdicts(s, a) + Verdicts(ScanAll(s, a), b)
    decreases |a|
  {
    if a == [] {
      assert a + b == b;
    } else {
      assert (a + b)[0] == a[0] && (a + b)[1..] == a[1..] + b;
      ScanSplit(ScanByte(s, a[0]), a[1..], b);
    }
  }

  lemma {:induction false} LineVerdicts(s: Scan, line: seq<byte>, comment: bool)
    requires forall i :: 0 <= i < |line| ==> !IsEnd(line[i])
    requires if s.atLineStart then !s.inComment && comment == (line != [] && line[0] == COLON) else s.inComment == comment
    ensures forall i :: 0 <= i < |line| ==> Verdicts(s, line)[i] == (!comment && !IsBlank(line[i]))
    decreases |line|
  {
    if line != [] {
      LineVerdicts(ScanByte(s, line[0]), line[1..], comment);
    }
  }

  lemma EndVerdicts(s: Scan, end: seq<byte>)
    requires 1 <= |end| <= 2 && forall i :: 0 <= i < |end| ==> IsEnd(end[i])
    ensures ScanAll(s, end) == SCAN_START
    ensures Verdicts(s, end) == NoFlags(|end|)
  {
    if |end| == 2 {
      assert end[1..] == [end[1]];
      assert ScanAll(ScanByte(s, end[0]), end[1..]) == SCAN_START;
    } else {
      assert end[1..] == [];
    }
  }

  lemma LineIs(line: seq<byte>)
    requires forall i :: 0 <= i < |line| ==> !IsEnd(line[i])
    ensures Verdicts(SCAN_START, line) == LineAnswers(line)
  {
    LineVerdicts(SCAN_START, line, line != [] && line[0] == COLON);
  }

  /** A line with its end, and what follows from the start again. */
  lemma FirstLine(line: seq<byte>, end: seq<byte>, more: seq<byte>)
    requires forall i :: 0 <= i < |line| ==> !IsEnd(line[i])
    requires 1 <= |end| <= 2 && forall i :: 0 <= i < |end| ==> IsEnd(end[i])
    ensures Verdicts(SCAN_START, line + end + more)
            == LineAnswers(line) + NoFlags(|end|) + Verdicts(SCAN_START, more)
  {
    ScanSplit(SCAN_START, line + end, more);
    ScanSplit(SCAN_START, line, end);
    EndVerdicts(ScanAll(SCAN_START, line), end);
    LineIs(line);
  }

  lemma CutLine(s: seq<byte>, n: nat, e: nat)
    requires n + e <= |s|
    ensures s == s[..n] + s[n..n + e] + s[n + e..]
  {
  }

  lemma LineIsGrammar(s: seq<byte>, n: nat, e: nat)
    requires n == LineLength(s) && e == EndLength(s[n..]) && e > 0
    requires Verdicts(SCAN_START, s[n + e..]) == Answers(s[n + e..])
    ensures Verdicts(SCAN_START, s) == Answers(s)
  {
    CutLine(s, n, e);
    FirstLine(s[..n], s[n..n + e], s[n + e..]);
  }

  /** From the start of a line the scanner finds exactly the answer bytes of the grammar. */
  lemma {:induction false} ScannerIsGrammar(s: seq<byte>)
    ensures Verdicts(SCAN_START, s) == Answers(s)
    decreases |s|
  {
    var n := LineLength(s);
    var e := EndLength(s[n..]);
    if e > 0 {
      ScannerIsGrammar(s[n + e..]);
      LineIsGrammar(s, n, e);
    } else if n > 0 {
      assert s[..n] == s && s[n..] == [];
      LineIs(s);
    }
  }

  /** The scanner does not know the byte order mark, and differs from the grammar exactly on streams with one. */
  lemma StreamExactly(s: seq<byte>)
    ensures Verdicts(SCAN_START, s) == StreamAnswers(s) <==> !(BOM <= s)
  {
    ScannerIsGrammar(s);
    if BOM <= s {
      assert s[0] == 0xef && Verdicts(SCAN_START, s)[0];
      assert !StreamAnswers(s)[0];
    }
  }

  predicate Any(flags: seq<bool>) { exists i :: 0 <= i < |flags| && flags[i] }

  /** A stream of a byte order mark and a comment answers nothing; the scanner finds an answer. */
  lemma MarkBeforeComment(comment: seq<byte>)
    requires forall i :: 0 <= i < |comment| ==> !IsEnd(comment[i])
    ensures var s := BOM + [COLON] + comment; Any(Verdicts(SCAN_START, s)) && !Any(StreamAnswers(s))
  {
    var line := [COLON] + comment;
    var s := BOM + [COLON] + comment;
    assert s[0] == 0xef && Verdicts(SCAN_START, s)[0];
    assert s[3..] == line;
    LineVerdicts(SCAN_START, line, true);
    ScannerIsGrammar(line);
  }

  /** Does a chunk that follows `read` bring an answer byte? Stated on the stream, not on the scanner. */
  predicate Brings(read: seq<byte>, chunk: seq<byte>) { Any(Answers(read + chunk)[|read|..]) }

  lemma ChunkVerdict(read: seq<byte>, chunk: seq<byte>)
    ensures Any(Verdicts(ScanAll(SCAN_START, read), chunk)) <==> Brings(read, chunk)
  {
    ScannerIsGrammar(read + chunk);
    ScanSplit(SCAN_START, read, chunk);
    assert Answers(read + chunk)[|read|..] == Verdicts(ScanAll(SCAN_START, read), chunk);
  }

  // The timer

  datatype Stage = Start | Stream
  datatype Timer = Off | Armed(stage: Stage, due: int)

  /** `Fetching` until the headers; `Done` when no body was handed out; `Ended` when it closed, errored or was cancelled. */
  datatype Phase = Fetching | Done | Open | Ended

  datatype Limits = Limits(startMs: nat, idleMs: nat)

  /** `pulling`: a read of the provider's stream is under way. */
  datatype State = State(phase: Phase, timer: Timer, scan: Scan, pulling: bool, aborted: bool, now: int)

  datatype Event =
    | Tick(now: int)
    | FetchFails | NoBody | Headers
    | Abort
    | Pull
    | Chunk(bytes: seq<byte>) | End | ReadError
    | Cancel
    | Fire

  predicate Enabled(s: State, e: Event) {
    match e
    case Tick(now) => s.now <= now
    case FetchFails => s.phase == Fetching
    case NoBody => s.phase == Fetching
    case Headers => s.phase == Fetching
    case Abort => !s.aborted
    case Pull => s.phase == Open && !s.pulling
    case Chunk(_) => s.pulling
    case End => s.pulling
    case ReadError => s.pulling
    case Cancel => s.phase == Open
    case Fire => s.timer.Armed? && s.timer.due <= s.now
  }

  function Begin(limits: Limits, now: int): State {
    State(Fetching, Armed(Start, now + limits.startMs), SCAN_START, false, false, now)
  }

  /** The abort listener exists from the headers on. The chunk handler arms before it knows that the body has ended. */
  function Next(limits: Limits, s: State, e: Event): State {
    match e
    case Tick(now) => s.(now := now)
    case FetchFails => s.(phase := Done, timer := Off)
    case NoBody => s.(phase := Done, timer := Off)
    case Headers => s.(phase := Open)
    case Abort => s.(aborted := true, timer := if s.phase == Open || s.phase == Ended then Off else s.timer)
    case Pull => s.(pulling := true)
    case Chunk(bytes) =>
      s.(pulling := false, scan := ScanAll(s.scan, bytes),
         timer := if Any(Verdicts(s.scan, bytes)) then Armed(Stream, s.now + limits.idleMs) else s.timer)
    case End => s.(pulling := false, phase := Ended, timer := Off)
    case ReadError => s.(pulling := false, phase := Ended, timer := Off)
    case Cancel => s.(phase := Ended, timer := Off)
    case Fire => s.(aborted := true, timer := Off, phase := if s.phase == Fetching then Fetching else Ended)
  }

  /**
   * What happened so far, as the stream tells it. `late`: an answer chunk came after the body had ended, and
   * neither its timer nor an abort since.
   */
  datatype History = History(startedAt: int, read: seq<byte>, lastAnswer: Option<int>, late: bool)

  function Record(h: History, s: State, e: Event): History {
    match e
    case Chunk(bytes) =>
      var answer := Brings(h.read, bytes);
      h.(read := h.read + bytes,
         lastAnswer := if answer then Some(s.now) else h.lastAnswer,
         late := h.late || (answer && s.phase == Ended))
    case Fire => h.(late := false)
    case Abort => h.(late := false)
    case _ => h
  }

  function Deadline(limits: Limits, h: History): Timer {
    if h.lastAnswer == None then Armed(Start, h.startedAt + limits.startMs)
    else Armed(Stream, h.lastAnswer.value + limits.idleMs)
  }

  predicate Inv(limits: Limits, s: State, h: History) {
    && s.scan == ScanAll(SCAN_START, h.read)
    && (s.phase == Fetching ==> h.lastAnswer == None && !s.pulling)
    && (s.phase == Done ==> s.timer == Off && !s.pulling)
    && (s.phase in {Fetching, Open} && !s.aborted ==> s.timer == Deadline(limits, h))
    && (s.phase == Ended ==> (s.timer != Off <==> h.late) && (h.late ==> !s.pulling))
    && (s.phase != Ended ==> !h.late)
  }

  lemma NextKeeps(limits: Limits, s: State, h: History, e: Event)
    requires Inv(limits, s, h) && Enabled(s, e)
    ensures Inv(limits, Next(limits, s, e), Record(h, s, e))
  {
    if e.Chunk? {
      ChunkVerdict(h.read, e.bytes);
      ScanSplit(SCAN_START, h.read, e.bytes);
    }
  }

  predicate RunOk(limits: Limits, s: State, events: seq<Event>)
    decreases |events|
  {
    events != [] ==> Enabled(s, events[0]) && RunOk(limits, Next(limits, s, events[0]), events[1..])
  }

  function Run(limits: Limits, s: State, h: History, events: seq<Event>): (State, History)
    decreases |events|
  {
    if events == [] then (s, h)
    else Run(limits, Next(limits, s, events[0]), Record(h, s, events[0]), events[1..])
  }

  /**
   * In every run, until the body ends or the call is aborted, the timer stands at the start deadline as long as
   * no answer byte came, and afterwards at the idle deadline after the last chunk that brought one.
   */
  lemma {:induction false} EveryRun(limits: Limits, s: State, h: History, events: seq<Event>)
    requires Inv(limits, s, h) && RunOk(limits, s, events)
    ensures var (t, g) := Run(limits, s, h, events); Inv(limits, t, g)
    decreases |events|
  {
    if events != [] {
      NextKeeps(limits, s, h, events[0]);
      EveryRun(limits, Next(limits, s, events[0]), Record(h, s, events[0]), events[1..]);
    }
  }

  lemma BeginStarts(limits: Limits, now: int)
    ensures Inv(limits, Begin(limits, now), History(now, [], None, false))
  {
  }

  /** A stream is cut only by silence: no answer byte for the whole idle limit, or for the start limit from the start. */
  lemma OnlySilenceIsCut(limits: Limits, now: int, events: seq<Event>)
    requires RunOk(limits, Begin(limits, now), events)
    ensures var (s, h) := Run(limits, Begin(limits, now), History(now, [], None, false), events);
            s.phase == Open && !s.aborted && Enabled(s, Fire) ==>
              s.now >= if h.lastAnswer == None then now + limits.startMs else h.lastAnswer.value + limits.idleMs
  {
    BeginStarts(limits, now);
    EveryRun(limits, Begin(limits, now), History(now, [], None, false), events);
    StartedAt(limits, Begin(limits, now), History(now, [], None, false), events);
  }

  lemma {:induction false} StartedAt(limits: Limits, s: State, h: History, events: seq<Event>)
    ensures Run(limits, s, h, events).1.startedAt == h.startedAt
    decreases |events|
  {
    if events != [] {
      StartedAt(limits, Next(limits, s, events[0]), Record(h, s, events[0]), events[1..]);
    }
  }

  /** And silence is always cut: at its deadline a call that is neither over nor aborted is ended by the timer. */
  lemma OverdueIsCut(limits: Limits, s: State, h: History)
    requires Inv(limits, s, h) && s.phase in {Fetching, Open} && !s.aborted && s.now >= Deadline(limits, h).due
    ensures Enabled(s, Fire)
    ensures var t := Next(limits, s, Fire); t.aborted && t.timer == Off && (s.phase == Open ==> t.phase == Ended)
  {
  }

  /** An open body ends by its end, an error, a cancel or the timer, and by nothing else; once ended it stays so. */
  lemma EndsExactly(limits: Limits, s: State, h: History, e: Event)
    requires Inv(limits, s, h) && Enabled(s, e)
    ensures s.phase == Open ==> Next(limits, s, e).phase == if e in {End, ReadError, Cancel, Fire} then Ended else Open
    ensures s.phase == Ended ==> Next(limits, s, e).phase == Ended
    ensures s.phase == Fetching ==>
              Next(limits, s, e).phase == if e == Headers then Open else if e in {FetchFails, NoBody} then Done else Fetching
    ensures Next(limits, s, e).aborted <==> s.aborted || e in {Abort, Fire}
    ensures Next(limits, s, e).pulling <==> e == Pull || (s.pulling && !e.Chunk? && e !in {End, ReadError})
  {
  }

  /** After the body has ended, what arms a timer again is exactly an answer chunk whose read was still under way. */
  lemma EndedArmsExactly(limits: Limits, s: State, h: History, e: Event)
    requires Inv(limits, s, h) && Enabled(s, e) && s.phase == Ended && s.timer == Off
    ensures Next(limits, s, e).timer == Off <==> !(e.Chunk? && Brings(h.read, e.bytes))
  {
    if e.Chunk? { ChunkVerdict(h.read, e.bytes); }
  }

  /** No read under way when the body ended means no timer ever again. */
  lemma {:induction false} IdleEndStaysOff(limits: Limits, s: State, h: History, events: seq<Event>)
    requires Inv(limits, s, h) && RunOk(limits, s, events)
    requires s.phase == Ended && !s.pulling && s.timer == Off
    ensures var (t, g) := Run(limits, s, h, events); t.phase == Ended && t.timer == Off
    decreases |events|
  {
    if events != [] {
      NextKeeps(limits, s, h, events[0]);
      IdleEndStaysOff(limits, Next(limits, s, events[0]), Record(h, s, events[0]), events[1..]);
    }
  }

  /** A reader that cancels while its read has a chunk at hand leaves a timer behind. */
  lemma CancelLeavesTimer(limits: Limits, now: int, answer: byte)
    requires !IsEnd(answer) && !IsBlank(answer) && answer != COLON
    ensures RunOk(limits, Begin(limits, now), [Headers, Pull, Cancel, Chunk([answer])])
    ensures var (s, _) := Run(limits, Begin(limits, now), History(now, [], None, false), [Headers, Pull, Cancel, Chunk([answer])]);
            s.phase == Ended && s.timer == Armed(Stream, now + limits.idleMs)
  {
    var h := History(now, [], None, false);
    var reading := Next(limits, Begin(limits, now), Headers);
    var pulled := Next(limits, reading, Pull);
    var cancelled := Next(limits, pulled, Cancel);
    var last := [Chunk([answer])];
    var three := [Cancel] + last;
    var two := [Pull] + three;
    assert [Headers, Pull, Cancel, Chunk([answer])][1..] == two && two[1..] == three && three[1..] == last;
    assert Verdicts(SCAN_START, [answer])[0];
    assert RunOk(limits, cancelled, last) && RunOk(limits, pulled, three) && RunOk(limits, reading, two);
    var end := Next(limits, cancelled, last[0]);
    assert Run(limits, cancelled, h, last).0 == end;
    assert Run(limits, pulled, h, three) == Run(limits, cancelled, h, last);
    assert Run(limits, reading, h, two) == Run(limits, pulled, h, three);
  }

  /** The observer's own variables and handlers. */
  class Watch {
    const limits: Limits
    var phase: Phase
    var timer: Timer
    var atLineStart: bool
    var inComment: bool
    var pulling: bool
    var aborted: bool
    var now: int

    ghost function Now(): State
      reads this
    {
      State(phase, timer, Scan(atLineStart, inComment), pulling, aborted, now)
    }

    constructor (limits: Limits, now: int)
      ensures Now() == Begin(limits, now) && this.limits == limits
    {
      this.limits := limits;
      this.now := now;
      phase := Fetching;
      timer := Armed(Start, now + limits.startMs);
      atLineStart, inComment := true, false;
      pulling, aborted := false, false;
    }

    method IsProgress(chunk: seq<byte>) returns (progress: bool)
      modifies this`atLineStart, this`inComment
      ensures Scan(atLineStart, inComment) == ScanAll(old(Scan(atLineStart, inComment)), chunk)
      ensures progress == Any(Verdicts(old(Scan(atLineStart, inComment)), chunk))
    {
      ghost var from := Scan(atLineStart, inComment);
      progress := false;
      for i := 0 to |chunk|
        invariant Scan(atLineStart, inComment) == ScanAll(from, chunk[..i])
        invariant progress == Any(Verdicts(from, chunk[..i]))
      {
        var b := chunk[i];
        ghost var s := Scan(atLineStart, inComment);
        assert chunk[..i + 1] == chunk[..i] + [b];
        ScanSplit(from, chunk[..i], [b]);
        if IsEnd(b) {
          atLineStart, inComment := true, false;
        } else {
          if atLineStart && b == COLON {
            inComment := true;
          }
          atLineStart := false;
          if !inComment && b != SPACE && b != TAB {
            progress := true;
          }
        }
        OneVerdict(from, s, chunk[..i], b);
      }
      assert chunk[..|chunk|] == chunk;
    }

    method Arm(stage: Stage, ms: nat)
      modifies this`timer
      ensures timer == Armed(stage, now + ms)
    {
      timer := Armed(stage, now + ms);
    }

    method Disarm()
      modifies this`timer
      ensures timer == Off
    {
      timer := Off;
    }

    method Expire()
      requires Enabled(Now(), Fire)
      modifies this`timer, this`aborted, this`phase
      ensures Now() == Next(limits, old(Now()), Fire)
    {
      Disarm();
      aborted := true;
      if phase != Fetching {
        phase := Ended;
      }
    }

    /** The continuation of a read. */
    method Read(result: Event)
      requires Enabled(Now(), result) && (result.Chunk? || result.End? || result.ReadError?)
      modifies this`timer, this`phase, this`pulling, this`atLineStart, this`inComment
      ensures Now() == Next(limits, old(Now()), result)
    {
      pulling := false;
      if !result.Chunk? {
        Disarm();
        phase := Ended;
        return;
      }
      var progress := IsProgress(result.bytes);
      if progress {
        Arm(Stream, limits.idleMs);
      }
    }

    method CancelBody()
      requires Enabled(Now(), Cancel)
      modifies this`timer, this`phase
      ensures Now() == Next(limits, old(Now()), Cancel)
    {
      Disarm();
      phase := Ended;
    }
  }

  lemma OneVerdict(from: Scan, s: Scan, before: seq<byte>, b: byte)
    requires s == ScanAll(from, before)
    ensures Verdicts(from, before + [b]) == Verdicts(from, before) + [Progress(s, b)]
    ensures ScanAll(from, before + [b]) == ScanByte(s, b)
    ensures Any(Verdicts(from, before + [b])) == (Any(Verdicts(from, before)) || Progress(s, b))
  {
    ScanSplit(from, before, [b]);
    assert Verdicts(s, [b]) == [Progress(s, b)];
    var all := Verdicts(from, before + [b]);
    assert all[|before|] == Progress(s, b);
    forall i | 0 <= i < |before| ensures all[i] == Verdicts(from, before)[i] {}
  }
}
