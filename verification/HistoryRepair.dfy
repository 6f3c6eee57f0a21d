/** The history repair of model-transport.ts. */
module HistoryRepair {
  // Every call kept in a prompt has its result in the tool messages directly behind it, and the other way round.

  type CallId = nat

  /** `Other` is any part that is no call, result or approval: text, reasoning, files. */
  datatype Part = Call(id: CallId) | Result(id: CallId) | Approval(id: CallId) | Other(text: string)

  datatype Message = System(text: string) | User(text: string) | Assistant(parts: seq<Part>) | Tool(parts: seq<Part>)

  type Prompt = seq<Message>

  // The repair

  /** Contiguous tool messages at the head of a prompt. */
  function Tools(p: Prompt): (n: nat)
    ensures n <= |p| && (forall i :: 0 <= i < n ==> p[i].Tool?) && (n < |p| ==> !p[n].Tool?)
  {
    if p == [] || !p[0].Tool? then 0 else 1 + Tools(p[1..])
  }

  function Results(tools: Prompt): set<CallId> {
    set i, j | 0 <= i < |tools| && tools[i].Tool? && 0 <= j < |tools[i].parts| && tools[i].parts[j].Result? :: tools[i].parts[j].id
  }

  function Calls(parts: seq<Part>): set<CallId> {
    set j | 0 <= j < |parts| && parts[j].Call? :: parts[j].id
  }

  function KeepContent(parts: seq<Part>, retained: set<CallId>): seq<Part> {
    if parts == [] then []
    else (if parts[0].Call? && parts[0].id !in retained then [] else [parts[0]]) + KeepContent(parts[1..], retained)
  }

  function KeepTool(parts: seq<Part>, retained: set<CallId>): seq<Part> {
    if parts == [] then []
    else
      (if parts[0].Approval? || (!parts[0].Other? && parts[0].id in retained) then [parts[0]] else [])
      + KeepTool(parts[1..], retained)
  }

  /** What stays of one tool message: nothing, or a message that is not empty. */
  function KeepMessage(m: Message, retained: set<CallId>): Prompt {
    if m.Tool? && KeepTool(m.parts, retained) != [] then [Tool(KeepTool(m.parts, retained))] else []
  }

  function KeepTools(tools: Prompt, retained: set<CallId>): Prompt {
    if tools == [] then []
    else KeepMessage(tools[0], retained) + KeepTools(tools[1..], retained)
  }

  function Retained(parts: seq<Part>, tools: Prompt): set<CallId> { Calls(parts) * Results(tools) }

  /** One assistant turn with the tool messages directly behind it. */
  function Turn(parts: seq<Part>, tools: Prompt): Prompt {
    var retained := Retained(parts, tools);
    (if KeepContent(parts, retained) != [] then [Assistant(KeepContent(parts, retained))] else []) + KeepTools(tools, retained)
  }

  function Repair(p: Prompt): Prompt
    decreases |p|
  {
    if p == [] then []
    else if p[0].Tool? then Repair(p[1..])
    else if !p[0].Assistant? then [p[0]] + Repair(p[1..])
    else
      var n := Tools(p[1..]);
      Turn(p[0].parts, p[1..1 + n]) + Repair(p[1 + n..])
  }

  // What a provider asks of a prompt

  predicate IsTool(part: Part) { part.Result? || part.Approval? }

  /** Tool messages hold results and approvals only. */
  predicate Typed(p: Prompt) {
    forall i :: 0 <= i < |p| && p[i].Tool? ==> forall j :: 0 <= j < |p[i].parts| ==> IsTool(p[i].parts[j])
  }

  predicate Filled(p: Prompt) {
    forall i :: 0 <= i < |p| ==> (p[i].Tool? || p[i].Assistant? ==> p[i].parts != [])
  }

  /** Calls and results match turn by turn; tool messages outside a turn hold no results. */
  predicate Paired(p: Prompt)
    decreases |p|
  {
    if p == [] then true
    else if p[0].Assistant? then
      var n := Tools(p[1..]);
      Calls(p[0].parts) == Results(p[1..1 + n]) && Paired(p[1 + n..])
    else if p[0].Tool? then Results([p[0]]) == {} && Paired(p[1..])
    else Paired(p[1..])
  }

  lemma {:induction false} KeptContent(parts: seq<Part>, retained: set<CallId>)
    ensures Calls(KeepContent(parts, retained)) == Calls(parts) * retained
    decreases |parts|
  {
    if parts != [] {
      KeptContent(parts[1..], retained);
      var first := if parts[0].Call? && parts[0].id !in retained then [] else [parts[0]];
      CallsJoin([parts[0]], parts[1..]);
      CallsJoin(first, KeepContent(parts[1..], retained));
      assert [parts[0]] + parts[1..] == parts;
    }
  }

  lemma CallsJoin(a: seq<Part>, b: seq<Part>)
    ensures Calls(a + b) == Calls(a) + Calls(b)
  {
    forall id | id in Calls(b) ensures id in Calls(a + b) {
      var j :| 0 <= j < |b| && b[j].Call? && b[j].id == id;
      assert (a + b)[|a| + j] == b[j];
    }
    forall id | id in Calls(a) ensures id in Calls(a + b) {
      var j :| 0 <= j < |a| && a[j].Call? && a[j].id == id;
      assert (a + b)[j] == a[j];
    }
  }

  function ResultIds(parts: seq<Part>): set<CallId> {
    set j | 0 <= j < |parts| && parts[j].Result? :: parts[j].id
  }

  lemma ResultsHead(tools: Prompt)
    requires tools != []
    ensures Results(tools) == (if tools[0].Tool? then ResultIds(tools[0].parts) else {}) + Results(tools[1..])
  {
    forall id | id in Results(tools[1..]) ensures id in Results(tools) {
      var i, j :| 0 <= i < |tools[1..]| && tools[1..][i].Tool? && 0 <= j < |tools[1..][i].parts| && tools[1..][i].parts[j] == Result(id);
      assert tools[i + 1].parts[j] == Result(id);
    }
    forall id | id in Results(tools)
      ensures id in (if tools[0].Tool? then ResultIds(tools[0].parts) else {}) + Results(tools[1..])
    {
      var i, j :| 0 <= i < |tools| && tools[i].Tool? && 0 <= j < |tools[i].parts| && tools[i].parts[j] == Result(id);
      if i > 0 { assert tools[1..][i - 1].parts[j] == Result(id); }
    }
  }

  lemma Regroup<T>(a: seq<T>, b: seq<T>, c: seq<T>)
    ensures a + (b + c) == a + b + c
  {
  }

  lemma JoinTail<T>(a: seq<T>, b: seq<T>)
    ensures if a == [] then a + b == b else (a + b)[0] == a[0] && (a + b)[1..] == a[1..] + b
  {
  }

  lemma {:induction false} ResultsJoin(a: Prompt, b: Prompt)
    ensures Results(a + b) == Results(a) + Results(b)
    decreases |a|
  {
    if a == [] {
      assert a + b == b;
    } else {
      ResultsHead(a);
      ResultsHead(a + b);
      assert (a + b)[1..] == a[1..] + b;
      ResultsJoin(a[1..], b);
    }
  }

  lemma {:induction false} KeptToolParts(parts: seq<Part>, retained: set<CallId>)
    ensures ResultIds(KeepTool(parts, retained)) == ResultIds(parts) * retained
    decreases |parts|
  {
    if parts != [] {
      var kept := KeepTool(parts[1..], retained);
      KeptToolParts(parts[1..], retained);
      ResultIdsHead(parts);
      if KeepTool(parts, retained) != kept {
        ResultIdsHead(KeepTool(parts, retained));
        assert KeepTool(parts, retained)[1..] == kept;
      }
    }
  }

  lemma ResultIdsHead(parts: seq<Part>)
    requires parts != []
    ensures ResultIds(parts) == (if parts[0].Result? then {parts[0].id} else {}) + ResultIds(parts[1..])
  {
    forall id | id in ResultIds(parts[1..]) ensures id in ResultIds(parts) {
      var j :| 0 <= j < |parts[1..]| && parts[1..][j] == Result(id);
      assert parts[j + 1] == Result(id);
    }
    forall id | id in ResultIds(parts)
      ensures id in (if parts[0].Result? then {parts[0].id} else {}) + ResultIds(parts[1..])
    {
      var j :| 0 <= j < |parts| && parts[j] == Result(id);
      if j > 0 { assert parts[1..][j - 1] == Result(id); }
    }
  }

  lemma KeptMessage(m: Message, retained: set<CallId>)
    ensures Results(KeepMessage(m, retained)) == Results([m]) * retained
  {
    ResultsHead([m]);
    assert Results([m][1..]) == {};
    if m.Tool? {
      var kept := KeepTool(m.parts, retained);
      KeptToolParts(m.parts, retained);
      if kept == [] {
        assert ResultIds(kept) == {};
      } else {
        ResultsHead([Tool(kept)]);
        assert Results([Tool(kept)][1..]) == {};
      }
    }
  }

  lemma {:induction false} KeptResults(tools: Prompt, retained: set<CallId>)
    ensures Results(KeepTools(tools, retained)) == Results(tools) * retained
    decreases |tools|
  {
    if tools != [] {
      KeptResults(tools[1..], retained);
      KeptMessage(tools[0], retained);
      ResultsJoin([tools[0]], tools[1..]);
      assert tools == [tools[0]] + tools[1..];
      ResultsJoin(KeepMessage(tools[0], retained), KeepTools(tools[1..], retained));
    }
  }

  lemma {:induction false} KeptTools(tools: Prompt, retained: set<CallId>)
    ensures forall i :: 0 <= i < |KeepTools(tools, retained)| ==> KeepTools(tools, retained)[i].Tool?
    ensures Filled(KeepTools(tools, retained)) && |KeepTools(tools, retained)| <= |tools|
    decreases |tools|
  {
    if tools != [] { KeptTools(tools[1..], retained); }
  }

  /** Tool messages put in front of a paired prompt: its leading ones were without results already. */
  lemma {:induction false} LeadingTools(p: Prompt)
    requires Paired(p)
    ensures Results(p[..Tools(p)]) == {} && Paired(p[Tools(p)..])
    decreases |p|
  {
    var n := Tools(p);
    if n > 0 {
      LeadingTools(p[1..]);
      ResultsHead(p[..n]);
      ResultsHead([p[0]]);
      assert p[..n][1..] == p[1..][..n - 1] && p[n..] == p[1..][n - 1..];
    } else {
      assert p[n..] == p;
    }
  }

  lemma {:induction false} ToolsJoin(tools: Prompt, p: Prompt)
    requires forall i :: 0 <= i < |tools| ==> tools[i].Tool?
    ensures Tools(tools + p) == |tools| + Tools(p)
    decreases |tools|
  {
    if tools == [] {
      assert tools + p == p;
    } else {
      assert (tools + p)[1..] == tools[1..] + p;
      ToolsJoin(tools[1..], p);
    }
  }

  lemma FrontSlices<T>(x: T, s: seq<T>, t: seq<T>, m: nat)
    requires m <= |t|
    ensures var q := [x] + (s + t);
            && q[0] == x && q[1..] == s + t
            && q[1..1 + |s| + m] == s + t[..m] && q[1 + |s| + m..] == t[m..]
  {
  }

  /** A turn whose calls are its results stays paired in front of a paired prompt. */
  lemma PairedTurn(parts: seq<Part>, tools: Prompt, p: Prompt)
    requires Paired(p) && Calls(parts) == Results(tools) && forall i :: 0 <= i < |tools| ==> tools[i].Tool?
    ensures Paired([Assistant(parts)] + (tools + p))
  {
    var m := Tools(p);
    FrontSlices(Assistant(parts), tools, p, m);
    ToolsJoin(tools, p);
    LeadingTools(p);
    ResultsJoin(tools, p[..m]);
  }

  lemma {:induction false} PairedTools(tools: Prompt, p: Prompt)
    requires Paired(p) && Results(tools) == {} && forall i :: 0 <= i < |tools| ==> tools[i].Tool?
    ensures Paired(tools + p)
    decreases |tools|
  {
    if tools == [] {
      assert tools + p == p;
    } else {
      ResultsHead(tools);
      ResultsHead([tools[0]]);
      assert (tools + p)[1..] == tools[1..] + p;
      PairedTools(tools[1..], p);
    }
  }

  lemma PairedRepairedTurn(parts: seq<Part>, tools: Prompt, p: Prompt)
    requires Paired(p)
    ensures Paired(Turn(parts, tools) + p)
  {
    var retained := Retained(parts, tools);
    var content, kept := KeepContent(parts, retained), KeepTools(tools, retained);
    KeptContent(parts, retained);
    KeptTools(tools, retained);
    KeptResults(tools, retained);
    if content != [] {
      PairedTurn(content, kept, p);
      Regroup([Assistant(content)], kept, p);
    } else {
      PairedTools(kept, p);
      assert Turn(parts, tools) == kept;
    }
  }

  /** After the repair calls and results match, and no message is empty. */
  lemma {:induction false} RepairPairs(p: Prompt)
    ensures Paired(Repair(p))
    decreases |p|
  {
    if p != [] {
      if !p[0].Assistant? {
        RepairPairs(p[1..]);
        if !p[0].Tool? { JoinTail([p[0]], Repair(p[1..])); }
      } else {
        var parts, tools, rest := TurnOf(p);
        RepairPairs(rest);
        PairedRepairedTurn(parts, tools, Repair(rest));
      }
    }
  }

  /** The tool messages directly behind a message. */
  function Behind(p: Prompt, i: nat): Prompt
    requires i < |p|
  {
    p[i + 1..][..Tools(p[i + 1..])]
  }

  /** Pairing, as a provider reads it: a call in a message is answered in the tool messages directly behind it. */
  lemma {:induction false} CallHasResult(p: Prompt, i: nat, id: CallId)
    requires Paired(p) && i < |p| && p[i].Assistant? && id in Calls(p[i].parts)
    ensures id in Results(Behind(p, i))
    decreases |p|
  {
    var n := if p[0].Assistant? then 1 + Tools(p[1..]) else 1;
    if i == 0 {
      assert p[1..n] == Behind(p, 0);
    } else {
      assert forall k :: 1 <= k < n ==> p[k] == p[1..][k - 1] && p[k].Tool?;
      assert p[n..][i - n] == p[i] && p[n..][i - n + 1..] == p[i + 1..];
      CallHasResult(p[n..], i - n, id);
    }
  }

  /** And a result in a tool message answers a call of the assistant message its group follows. */
  lemma {:induction false} ResultHasCall(p: Prompt, i: nat, id: CallId) returns (a: nat)
    requires Paired(p) && i < |p| && p[i].Tool? && id in ResultIds(p[i].parts)
    ensures a < i && p[a].Assistant? && id in Calls(p[a].parts) && forall k :: a < k <= i ==> p[k].Tool?
    decreases |p|
  {
    if p[0].Assistant? && i <= Tools(p[1..]) {
      a := 0;
      var tools := p[1..1 + Tools(p[1..])];
      assert tools[i - 1] == p[i];
      assert forall k :: 0 < k <= i ==> p[k] == p[1..][k - 1];
      var j :| 0 <= j < |p[i].parts| && p[i].parts[j] == Result(id);
      assert tools[i - 1].Tool? && tools[i - 1].parts[j].Result? && tools[i - 1].parts[j].id == id;
      assert id in Results(tools);
    } else {
      var n := if p[0].Assistant? then 1 + Tools(p[1..]) else 1;
      if i == 0 { ResultsHead([p[0]]); }
      assert p[n..][i - n] == p[i];
      var b := ResultHasCall(p[n..], i - n, id);
      a := b + n;
      forall k | a < k <= i ensures p[k].Tool? { assert p[n..][k - n] == p[k]; }
    }
  }

  // What the repair leaves alone

  function Spoken(p: Prompt): Prompt {
    if p == [] then []
    else (if p[0].User? || p[0].System? then [p[0]] else []) + Spoken(p[1..])
  }

  function NonCalls(parts: seq<Part>): seq<Part> {
    if parts == [] then [] else (if parts[0].Call? then [] else [parts[0]]) + NonCalls(parts[1..])
  }

  /** Everything an assistant said that is no call, in order. */
  function Said(p: Prompt): seq<Part> {
    if p == [] then [] else (if p[0].Assistant? then NonCalls(p[0].parts) else []) + Said(p[1..])
  }

  lemma {:induction false} SpokenJoin(a: Prompt, b: Prompt)
    ensures Spoken(a + b) == Spoken(a) + Spoken(b)
    decreases |a|
  {
    JoinTail(a, b);
    if a != [] {
      SpokenJoin(a[1..], b);
      Regroup(if a[0].User? || a[0].System? then [a[0]] else [], Spoken(a[1..]), Spoken(b));
    }
  }

  lemma {:induction false} SaidJoin(a: Prompt, b: Prompt)
    ensures Said(a + b) == Said(a) + Said(b)
    decreases |a|
  {
    JoinTail(a, b);
    if a != [] {
      SaidJoin(a[1..], b);
      Regroup(if a[0].Assistant? then NonCalls(a[0].parts) else [], Said(a[1..]), Said(b));
    }
  }

  lemma {:induction false} ToolsAreSilent(tools: Prompt)
    requires forall i :: 0 <= i < |tools| ==> tools[i].Tool?
    ensures Spoken(tools) == [] && Said(tools) == []
    decreases |tools|
  {
    if tools != [] { ToolsAreSilent(tools[1..]); }
  }

  lemma {:induction false} KeptNonCalls(parts: seq<Part>, retained: set<CallId>)
    ensures NonCalls(KeepContent(parts, retained)) == NonCalls(parts)
    decreases |parts|
  {
    if parts != [] {
      KeptNonCalls(parts[1..], retained);
      var rest := KeepContent(parts[1..], retained);
      assert ([parts[0]] + rest)[1..] == rest;
      assert KeepContent(parts, retained) == rest || KeepContent(parts, retained) == [parts[0]] + rest;
      assert parts[0].Call? ==> NonCalls(parts) == NonCalls(parts[1..]);
    }
  }

  lemma TurnSaid(parts: seq<Part>, tools: Prompt)
    ensures Spoken(Turn(parts, tools)) == [] && Said(Turn(parts, tools)) == NonCalls(parts)
  {
    var retained := Retained(parts, tools);
    var content := KeepContent(parts, retained);
    var kept := KeepTools(tools, retained);
    KeptNonCalls(parts, retained);
    KeptTools(tools, retained);
    ToolsAreSilent(kept);
    var head := if content != [] then [Assistant(content)] else [];
    assert Turn(parts, tools) == head + kept;
    SpokenJoin(head, kept);
    SaidJoin(head, kept);
    assert Said(head) == NonCalls(content);
  }

  lemma TurnWords(parts: seq<Part>, tools: Prompt, p: Prompt)
    requires forall i :: 0 <= i < |tools| ==> tools[i].Tool?
    ensures Spoken([Assistant(parts)] + (tools + p)) == Spoken(p)
    ensures Said([Assistant(parts)] + (tools + p)) == NonCalls(parts) + Said(p)
  {
    var q := tools + p;
    SpokenJoin(tools, p);
    SaidJoin(tools, p);
    ToolsAreSilent(tools);
    assert ([Assistant(parts)] + q)[1..] == q;
    assert Said(q) == Said(p) && Spoken(q) == Spoken(p);
  }

  lemma RepairedTurnWords(parts: seq<Part>, tools: Prompt, p: Prompt)
    ensures Spoken(Turn(parts, tools) + p) == Spoken(p)
    ensures Said(Turn(parts, tools) + p) == NonCalls(parts) + Said(p)
  {
    TurnSaid(parts, tools);
    SpokenJoin(Turn(parts, tools), p);
    SaidJoin(Turn(parts, tools), p);
  }

  /** A prompt that begins with an assistant message, as its first turn and the rest. */
  lemma TurnOf(p: Prompt) returns (parts: seq<Part>, tools: Prompt, rest: Prompt)
    requires p != [] && p[0].Assistant?
    ensures p == [Assistant(parts)] + (tools + rest) && |rest| < |p| && (rest != [] ==> !rest[0].Tool?)
    ensures tools == p[1..1 + Tools(p[1..])] && rest == p[1 + Tools(p[1..])..] && parts == p[0].parts
    ensures forall i :: 0 <= i < |tools| ==> tools[i].Tool?
    ensures Repair(p) == Turn(parts, tools) + Repair(rest)
  {
    var n := Tools(p[1..]);
    parts, tools, rest := p[0].parts, p[1..1 + n], p[1 + n..];
  }

  predicate SameWords(a: Prompt, b: Prompt) { Spoken(a) == Spoken(b) && Said(a) == Said(b) }

  lemma TurnKeepsWords(parts: seq<Part>, tools: Prompt, a: Prompt, b: Prompt)
    requires SameWords(a, b) && forall i :: 0 <= i < |tools| ==> tools[i].Tool?
    ensures SameWords(Turn(parts, tools) + a, [Assistant(parts)] + (tools + b))
  {
    RepairedTurnWords(parts, tools, a);
    TurnWords(parts, tools, b);
  }

  lemma OtherKeepsWords(m: Message, a: Prompt, b: Prompt)
    requires SameWords(a, b) && !m.Assistant?
    ensures SameWords(if m.Tool? then a else [m] + a, [m] + b)
  {
    assert ([m] + a)[1..] == a && ([m] + b)[1..] == b;
  }

  /** User and system messages are unchanged and in order, and so is all an assistant said beside its calls. */
  lemma {:induction false} RepairKeepsWords(p: Prompt)
    ensures SameWords(Repair(p), p)
    decreases |p|
  {
    if p != [] && !p[0].Assistant? {
      RepairKeepsWords(p[1..]);
      OtherKeepsWords(p[0], Repair(p[1..]), p[1..]);
      assert p == [p[0]] + p[1..];
    } else if p != [] {
      var parts, tools, rest := TurnOf(p);
      RepairKeepsWords(rest);
      TurnKeepsWords(parts, tools, Repair(rest), rest);
    }
  }

  // What the repair keeps, part by part

  function Picked(parts: seq<Part>, keep: Part -> bool): seq<Part> {
    if parts == [] then [] else (if keep(parts[0]) then [parts[0]] else []) + Picked(parts[1..], keep)
  }

  /** The parts of all assistant messages, and of all tool messages, in order. */
  function Uttered(p: Prompt): seq<Part> {
    if p == [] then [] else (if p[0].Assistant? then p[0].parts else []) + Uttered(p[1..])
  }

  function Told(p: Prompt): seq<Part> {
    if p == [] then [] else (if p[0].Tool? then p[0].parts else []) + Told(p[1..])
  }

  lemma {:induction false} PickedJoin(a: seq<Part>, b: seq<Part>, keep: Part -> bool)
    ensures Picked(a + b, keep) == Picked(a, keep) + Picked(b, keep)
    decreases |a|
  {
    JoinTail(a, b);
    if a != [] {
      PickedJoin(a[1..], b, keep);
      Regroup(if keep(a[0]) then [a[0]] else [], Picked(a[1..], keep), Picked(b, keep));
    }
  }

  lemma {:induction false} KeepContentPicks(parts: seq<Part>, ids: set<CallId>, keep: Part -> bool)
    requires forall x :: x in parts ==> (keep(x) <==> (x.Call? ==> x.id in ids))
    ensures KeepContent(parts, ids) == Picked(parts, keep)
    decreases |parts|
  {
    if parts != [] { KeepContentPicks(parts[1..], ids, keep); }
  }

  lemma {:induction false} KeepToolPicks(parts: seq<Part>, ids: set<CallId>, keep: Part -> bool)
    requires forall x :: keep(x) <==> x.Approval? || (!x.Other? && x.id in ids)
    ensures KeepTool(parts, ids) == Picked(parts, keep)
    decreases |parts|
  {
    if parts != [] { KeepToolPicks(parts[1..], ids, keep); }
  }

  lemma {:induction false} KeepToolsPicks(tools: Prompt, ids: set<CallId>, keep: Part -> bool)
    requires forall x :: keep(x) <==> x.Approval? || (!x.Other? && x.id in ids)
    ensures Told(KeepTools(tools, ids)) == Picked(Told(tools), keep) && Uttered(KeepTools(tools, ids)) == []
    decreases |tools|
  {
    if tools != [] {
      KeepToolsPicks(tools[1..], ids, keep);
      var head, rest := KeepMessage(tools[0], ids), KeepTools(tools[1..], ids);
      var parts := if tools[0].Tool? then tools[0].parts else [];
      KeepToolPicks(parts, ids, keep);
      PickedJoin(parts, Told(tools[1..]), keep);
      MessageParts(head, rest);
      assert Picked(parts, keep) == if head == [] then [] else head[0].parts;
    }
  }

  lemma MessageParts(head: Prompt, rest: Prompt)
    requires |head| <= 1 && forall m :: m in head ==> m.Tool?
    ensures Told(head + rest) == (if head == [] then [] else head[0].parts) + Told(rest)
    ensures Uttered(head + rest) == Uttered(rest)
  {
    JoinTail(head, rest);
    assert head != [] ==> head[1..] + rest == rest;
  }

  /**
   * One turn: exactly the calls that a result directly behind them answers stay, whatever becomes of the others, with
   * exactly these results; all else that was said and every approval stays too.
   */
  lemma TurnExactly(parts: seq<Part>, tools: Prompt)
    requires forall i :: 0 <= i < |tools| ==> tools[i].Tool?
    ensures var r := Repair([Assistant(parts)] + tools);
            && Uttered(r) == Picked(parts, (x: Part) => x.Call? ==> x.id in Results(tools))
            && Told(r) == Picked(Told(tools), (x: Part) => x.Approval? || (!x.Other? && x.id in Calls(parts) * Results(tools)))
  {
    var ids := Retained(parts, tools);
    var said, told := (x: Part) => x.Call? ==> x.id in Results(tools), (x: Part) => x.Approval? || (!x.Other? && x.id in ids);
    WholeTurn(parts, tools);
    forall x | x in parts ensures said(x) <==> (x.Call? ==> x.id in ids) {
      var j :| 0 <= j < |parts| && parts[j] == x;
    }
    KeepContentPicks(parts, ids, said);
    KeepToolsPicks(tools, ids, told);
    TurnParts(KeepContent(parts, ids), KeepTools(tools, ids));
    assert told == (x: Part) => x.Approval? || (!x.Other? && x.id in Calls(parts) * Results(tools));
  }

  lemma WholeTurn(parts: seq<Part>, tools: Prompt)
    requires forall i :: 0 <= i < |tools| ==> tools[i].Tool?
    ensures Repair([Assistant(parts)] + tools) == Turn(parts, tools)
  {
    var p := [Assistant(parts)] + tools;
    ToolsAre(tools);
    assert p[0] == Assistant(parts) && p[1..] == tools;
    TurnAlone(p, parts, tools);
  }

  lemma TurnAlone(p: Prompt, parts: seq<Part>, tools: Prompt)
    requires p != [] && p[0] == Assistant(parts) && p[1..] == tools && Tools(tools) == |tools|
    ensures Repair(p) == Turn(parts, tools)
  {
    assert p[1..1 + |tools|] == tools && p[1 + |tools|..] == [];
  }

  lemma {:induction false} ToolsAre(tools: Prompt)
    requires forall i :: 0 <= i < |tools| ==> tools[i].Tool?
    ensures Tools(tools) == |tools|
    decreases |tools|
  {
    if tools != [] { ToolsAre(tools[1..]); }
  }

  lemma TurnParts(content: seq<Part>, kept: Prompt)
    requires Uttered(kept) == []
    ensures var r := (if content != [] then [Assistant(content)] else []) + kept; Uttered(r) == content && Told(r) == Told(kept)
  {
    assert ([Assistant(content)] + kept)[1..] == kept;
    assert [] + kept == kept;
  }

  /** Turns are repaired one by one: a prompt cut in front of a message that is no tool message is repaired piece by piece. */
  lemma {:induction false} RepairSplits(a: Prompt, b: Prompt)
    requires b != [] ==> !b[0].Tool?
    ensures Repair(a + b) == Repair(a) + Repair(b)
    decreases |a|
  {
    JoinTail(a, b);
    if a == [] {
      JoinTail(Repair(a), Repair(b));
    } else if !a[0].Assistant? {
      RepairSplits(a[1..], b);
      OtherInside(a, b);
      Regroup(if a[0].Tool? then [] else [a[0]], Repair(a[1..]), Repair(b));
    } else {
      var parts, tools, rest := TurnOf(a);
      TurnInside(a, b);
      RepairSplits(rest, b);
      Regroup(Turn(parts, tools), Repair(rest), Repair(b));
    }
  }

  lemma OtherInside(a: Prompt, b: Prompt)
    requires a != [] && !a[0].Assistant?
    ensures Repair(a) == (if a[0].Tool? then [] else [a[0]]) + Repair(a[1..])
    ensures Repair(a + b) == (if a[0].Tool? then [] else [a[0]]) + Repair(a[1..] + b)
  {
    JoinTail(a, b);
  }

  lemma TurnInside(a: Prompt, b: Prompt)
    requires a != [] && a[0].Assistant? && (b != [] ==> !b[0].Tool?)
    ensures var n := Tools(a[1..]);
            Repair(a + b) == Turn(a[0].parts, a[1..1 + n]) + Repair(a[1 + n..] + b)
  {
    var n := Tools(a[1..]);
    ToolsOfJoin(a[1..], b);
    SlicesOfJoin(a, b, n);
    var q := a + b;
    assert Tools(q[1..]) == n;
  }

  lemma SlicesOfJoin<T>(a: seq<T>, b: seq<T>, n: nat)
    requires 1 + n <= |a|
    ensures var q := a + b; q[0] == a[0] && q[1..] == a[1..] + b && q[1..1 + n] == a[1..1 + n] && q[1 + n..] == a[1 + n..] + b
  {
  }

  lemma {:induction false} ToolsOfJoin(a: Prompt, b: Prompt)
    requires b != [] ==> !b[0].Tool?
    ensures Tools(a + b) == Tools(a)
    decreases |a|
  {
    JoinTail(a, b);
    if a != [] && a[0].Tool? { ToolsOfJoin(a[1..], b); }
  }

  /** Tool messages that follow no assistant message go, approvals included. */
  lemma {:induction false} LooseToolsGo(tools: Prompt, p: Prompt)
    requires forall i :: 0 <= i < |tools| ==> tools[i].Tool?
    ensures Repair(tools + p) == Repair(p)
    decreases |tools|
  {
    JoinTail(tools, p);
    if tools != [] { LooseToolsGo(tools[1..], p); }
  }

  // A second pass

  /** Every tool message follows an assistant message or another tool message that does. */
  predicate Grouped(p: Prompt, after: bool)
    decreases |p|
  {
    p != [] ==> (p[0].Tool? ==> after) && Grouped(p[1..], p[0].Assistant? || p[0].Tool?)
  }

  predicate HasApproval(tools: Prompt) {
    exists i, j :: 0 <= i < |tools| && tools[i].Tool? && 0 <= j < |tools[i].parts| && tools[i].parts[j].Approval?
  }

  /** Nothing of an assistant message stays: it is empty, or all its parts are calls without results. */
  predicate Emptied(parts: seq<Part>, tools: Prompt) {
    forall j :: 0 <= j < |parts| ==> parts[j].Call? && parts[j].id !in Results(tools)
  }

  /**
   * No approval is left without a turn: one whose assistant message vanishes has a turn directly in front of it.
   * `after` says whether what is kept so far ends in a turn.
   */
  predicate Anchored(p: Prompt, after: bool)
    decreases |p|
  {
    if p == [] then true
    else if p[0].Tool? then Anchored(p[1..], after)
    else if !p[0].Assistant? then Anchored(p[1..], false)
    else
      var n := Tools(p[1..]);
      if !Emptied(p[0].parts, p[1..1 + n]) then Anchored(p[1 + n..], true)
      else if HasApproval(p[1..1 + n]) then after && Anchored(p[1 + n..], true)
      else Anchored(p[1 + n..], after)
  }

  lemma {:induction false} EmptiedIs(parts: seq<Part>, retained: set<CallId>)
    ensures KeepContent(parts, retained) == [] <==> forall j :: 0 <= j < |parts| ==> parts[j].Call? && parts[j].id !in retained
    decreases |parts|
  {
    if parts != [] {
      EmptiedIs(parts[1..], retained);
      if forall j :: 0 <= j < |parts[1..]| ==> parts[1..][j].Call? && parts[1..][j].id !in retained {
        assert forall j :: 1 <= j < |parts| ==> parts[j] == parts[1..][j - 1];
      } else {
        var j :| 0 <= j < |parts[1..]| && !(parts[1..][j].Call? && parts[1..][j].id !in retained);
        assert parts[j + 1] == parts[1..][j];
      }
    }
  }

  lemma EmptiedTurn(parts: seq<Part>, tools: Prompt)
    ensures Emptied(parts, tools) <==> KeepContent(parts, Retained(parts, tools)) == []
  {
    EmptiedIs(parts, Retained(parts, tools));
    forall j | 0 <= j < |parts| && parts[j].Call?
      ensures parts[j].id in Results(tools) <==> parts[j].id in Retained(parts, tools)
    {
      assert parts[j].id in Calls(parts);
    }
  }

  lemma {:induction false} KeptToolApproval(parts: seq<Part>, retained: set<CallId>)
    requires (forall j :: 0 <= j < |parts| ==> IsTool(parts[j])) && retained == {}
    ensures KeepTool(parts, retained) != [] <==> exists j :: 0 <= j < |parts| && parts[j].Approval?
    decreases |parts|
  {
    if parts != [] {
      KeptToolApproval(parts[1..], retained);
      assert forall j :: 1 <= j < |parts| ==> parts[j] == parts[1..][j - 1];
      if j :| 0 <= j < |parts[1..]| && parts[1..][j].Approval? {
        assert parts[j + 1].Approval?;
      }
    }
  }

  lemma {:induction false} KeptApprovals(tools: Prompt, retained: set<CallId>)
    requires Typed(tools) && retained == {}
    ensures KeepTools(tools, retained) != [] <==> HasApproval(tools)
    decreases |tools|
  {
    if tools != [] {
      KeptApprovals(tools[1..], retained);
      assert forall i :: 1 <= i < |tools| ==> tools[i] == tools[1..][i - 1];
      if tools[0].Tool? { KeptToolApproval(tools[0].parts, retained); }
      if i, j :| 0 <= i < |tools[1..]| && tools[1..][i].Tool? && 0 <= j < |tools[1..][i].parts| && tools[1..][i].parts[j].Approval? {
        assert tools[i + 1].parts[j].Approval?;
      }
    }
  }

  lemma {:induction false} GroupedTools(tools: Prompt, p: Prompt, after: bool)
    requires forall i :: 0 <= i < |tools| ==> tools[i].Tool?
    ensures Grouped(tools + p, after) <==> (tools != [] ==> after) && Grouped(p, after)
    decreases |tools|
  {
    if tools == [] {
      assert tools + p == p;
    } else {
      assert (tools + p)[1..] == tools[1..] + p;
      GroupedTools(tools[1..], p, true);
    }
  }

  lemma TypedParts(p: Prompt, i: nat, j: nat)
    requires Typed(p) && i <= j <= |p|
    ensures Typed(p[i..j])
  {
  }

  lemma {:induction false} AnchoredIsGrouped(p: Prompt, after: bool)
    requires Typed(p)
    ensures Grouped(Repair(p), after) <==> Anchored(p, after)
    decreases |p|
  {
    if p != [] {
      if p[0].Tool? {
        AnchoredIsGrouped(p[1..], after);
      } else if !p[0].Assistant? {
        AnchoredIsGrouped(p[1..], false);
        assert ([p[0]] + Repair(p[1..]))[1..] == Repair(p[1..]);
      } else {
        var n := Tools(p[1..]);
        AnchoredTurn(p[0].parts, p[1..1 + n], p[1 + n..], after);
        AnchoredIsGrouped(p[1 + n..], true);
        AnchoredIsGrouped(p[1 + n..], after);
      }
    }
  }

  lemma AnchoredTurn(parts: seq<Part>, tools: Prompt, rest: Prompt, after: bool)
    requires Typed(tools) && forall i :: 0 <= i < |tools| ==> tools[i].Tool?
    ensures Grouped(Turn(parts, tools) + Repair(rest), after) <==>
              if !Emptied(parts, tools) then Grouped(Repair(rest), true)
              else (HasApproval(tools) ==> after) && Grouped(Repair(rest), after)
  {
    var retained := Retained(parts, tools);
    var content, kept := KeepContent(parts, retained), KeepTools(tools, retained);
    EmptiedTurn(parts, tools);
    KeptTools(tools, retained);
    if content != [] {
      GroupedTurnOf(content, kept, Repair(rest), after);
      Regroup([Assistant(content)], kept, Repair(rest));
    } else {
      KeptContent(parts, retained);
      assert retained == Calls([]) == {};
      KeptApprovals(tools, retained);
      GroupedTools(kept, Repair(rest), after);
      assert Turn(parts, tools) == kept;
    }
  }

  lemma GroupedTurnOf(content: seq<Part>, tools: Prompt, p: Prompt, after: bool)
    requires forall i :: 0 <= i < |tools| ==> tools[i].Tool?
    ensures Grouped([Assistant(content)] + (tools + p), after) <==> Grouped(p, true)
  {
    JoinTail([Assistant(content)], tools + p);
    assert [Assistant(content)][1..] + (tools + p) == tools + p;
    GroupedTools(tools, p, true);
  }

  // A prompt that is paired and filled stays as it is, unless some of its tool messages have no turn

  lemma {:induction false} RepairShorter(p: Prompt)
    ensures |Repair(p)| <= |p|
    decreases |p|
  {
    if p != [] {
      if !p[0].Assistant? {
        RepairShorter(p[1..]);
      } else {
        var n := Tools(p[1..]);
        RepairShorter(p[1 + n..]);
        KeptTools(p[1..1 + n], Retained(p[0].parts, p[1..1 + n]));
      }
    }
  }

  lemma {:induction false} ContentStays(parts: seq<Part>, retained: set<CallId>)
    requires Calls(parts) <= retained
    ensures KeepContent(parts, retained) == parts
    decreases |parts|
  {
    if parts != [] {
      CallsJoin([parts[0]], parts[1..]);
      assert [parts[0]] + parts[1..] == parts;
      if parts[0].Call? { assert parts[0].id in Calls(parts); }
      ContentStays(parts[1..], retained);
    }
  }

  lemma {:induction false} ToolPartsStay(parts: seq<Part>, retained: set<CallId>)
    requires ResultIds(parts) <= retained && forall j :: 0 <= j < |parts| ==> IsTool(parts[j])
    ensures KeepTool(parts, retained) == parts
    decreases |parts|
  {
    if parts != [] {
      ResultIdsHead(parts);
      assert IsTool(parts[0]);
      ToolPartsStay(parts[1..], retained);
    }
  }

  lemma {:induction false} ToolsStay(tools: Prompt, retained: set<CallId>)
    requires Results(tools) <= retained && Typed(tools) && Filled(tools)
    requires forall i :: 0 <= i < |tools| ==> tools[i].Tool?
    ensures KeepTools(tools, retained) == tools
    decreases |tools|
  {
    if tools != [] {
      ResultsHead(tools);
      ToolPartsStay(tools[0].parts, retained);
      TypedParts(tools, 1, |tools|);
      ToolsStay(tools[1..], retained);
    }
  }

  lemma TurnStays(parts: seq<Part>, tools: Prompt)
    requires Calls(parts) == Results(tools) && parts != [] && Typed(tools) && Filled(tools)
    requires forall i :: 0 <= i < |tools| ==> tools[i].Tool?
    ensures Turn(parts, tools) == [Assistant(parts)] + tools
  {
    ContentStays(parts, Retained(parts, tools));
    ToolsStay(tools, Retained(parts, tools));
  }

  lemma PairedRest(p: Prompt)
    requires p != [] && p[0].Assistant? && Typed(p) && Filled(p) && Paired(p)
    ensures var tools, rest := p[1..1 + Tools(p[1..])], p[1 + Tools(p[1..])..];
            && Typed(tools) && Filled(tools) && Calls(p[0].parts) == Results(tools) && p[0].parts != []
            && Typed(rest) && Filled(rest) && Paired(rest)
  {
  }

  lemma FixedTurn(p: Prompt)
    requires p != [] && p[0].Assistant? && Typed(p) && Filled(p) && Paired(p)
    ensures Repair(p) == p <==> Repair(p[1 + Tools(p[1..])..]) == p[1 + Tools(p[1..])..]
  {
    PairedRest(p);
    var parts, tools, rest := TurnOf(p);
    TurnStays(parts, tools);
    TurnInFront([Assistant(parts)] + tools, Repair(rest), rest);
    Regroup([Assistant(parts)], tools, rest);
  }

  lemma {:induction false} FixedExactly(p: Prompt)
    requires Typed(p) && Filled(p) && Paired(p)
    ensures Repair(p) == p <==> Grouped(p, false)
    decreases |p|
  {
    if p != [] && p[0].Assistant? {
      PairedRest(p);
      FixedTurn(p);
      FixedExactly(p[1 + Tools(p[1..])..]);
      GroupedTurn(p);
    } else if p != [] && p[0].Tool? {
      RepairShorter(p[1..]);
    } else if p != [] {
      FixedExactly(p[1..]);
      TurnInFront([p[0]], Repair(p[1..]), p[1..]);
      assert p == [p[0]] + p[1..];
    }
  }

  lemma TurnInFront(turn: Prompt, a: Prompt, b: Prompt)
    ensures turn + a == turn + b <==> a == b
  {
    assert (turn + a)[|turn|..] == a && (turn + b)[|turn|..] == b;
  }

  lemma GroupedTurn(p: Prompt)
    requires p != [] && p[0].Assistant?
    ensures Grouped(p, false) <==> Grouped(p[1 + Tools(p[1..])..], false)
  {
    var parts, tools, rest := TurnOf(p);
    GroupedTurnOf(parts, tools, rest, false);
    assert Grouped(rest, true) == Grouped(rest, false);
  }

  lemma {:induction false} KeptIsTool(parts: seq<Part>, retained: set<CallId>)
    requires forall j :: 0 <= j < |parts| ==> IsTool(parts[j])
    ensures forall j :: 0 <= j < |KeepTool(parts, retained)| ==> IsTool(KeepTool(parts, retained)[j])
    decreases |parts|
  {
    if parts != [] {
      assert IsTool(parts[0]);
      KeptIsTool(parts[1..], retained);
    }
  }

  lemma {:induction false} KeptTyped(tools: Prompt, retained: set<CallId>)
    requires Typed(tools)
    ensures Typed(KeepTools(tools, retained))
    decreases |tools|
  {
    if tools != [] {
      TypedParts(tools, 1, |tools|);
      KeptTyped(tools[1..], retained);
      if tools[0].Tool? { KeptIsTool(tools[0].parts, retained); }
    }
  }

  lemma FilledTurn(parts: seq<Part>, tools: Prompt, p: Prompt)
    requires Typed(tools) && Typed(p) && Filled(p)
    ensures Typed(Turn(parts, tools) + p) && Filled(Turn(parts, tools) + p)
  {
    KeptTools(tools, Retained(parts, tools));
    KeptTyped(tools, Retained(parts, tools));
    FilledJoin(Turn(parts, tools), p);
  }

  lemma FilledJoin(a: Prompt, b: Prompt)
    requires Typed(a) && Filled(a) && Typed(b) && Filled(b)
    ensures Typed(a + b) && Filled(a + b)
  {
  }

  lemma {:induction false} RepairFills(p: Prompt)
    requires Typed(p)
    ensures Typed(Repair(p)) && Filled(Repair(p))
    decreases |p|
  {
    if p != [] {
      if !p[0].Assistant? {
        RepairFills(p[1..]);
      } else {
        var n := Tools(p[1..]);
        var tools := p[1..1 + n];
        RepairFills(p[1 + n..]);
        TypedParts(p, 1, 1 + n);
        FilledTurn(p[0].parts, tools, Repair(p[1 + n..]));
      }
    }
  }

  /** A second pass changes nothing exactly when no approval lost its turn. */
  lemma SecondPassExactly(p: Prompt)
    requires Typed(p)
    ensures Repair(Repair(p)) == Repair(p) <==> Anchored(p, false)
  {
    RepairPairs(p);
    RepairFills(p);
    FixedExactly(Repair(p));
    AnchoredIsGrouped(p, false);
  }

  lemma ApprovalInside(p: Prompt, i: nat, j: nat)
    requires i <= j <= |p| && !HasApproval(p)
    ensures !HasApproval(p[i..j])
  {
    forall k, l | 0 <= k < j - i && p[i..j][k].Tool? && 0 <= l < |p[i..j][k].parts| ensures !p[i..j][k].parts[l].Approval? {
      assert p[i + k] == p[i..j][k];
    }
  }

  /** In particular on prompts without approvals. */
  lemma {:induction false} WithoutApprovals(p: Prompt, after: bool)
    requires !HasApproval(p)
    ensures Anchored(p, after)
    decreases |p|
  {
    if p != [] {
      var n := if p[0].Assistant? then Tools(p[1..]) else 0;
      ApprovalInside(p, 1 + n, |p|);
      ApprovalInside(p, 1, 1 + n);
      WithoutApprovals(p[1 + n..], true);
      WithoutApprovals(p[1 + n..], after);
      WithoutApprovals(p[1 + n..], false);
    }
  }

  /** A first pass can leave an approval that the second drops. */
  lemma ApprovalLosesTurn(y: CallId)
    ensures var p := [Assistant([Call(y)]), Tool([Approval(y)])]; Repair(Repair(p)) != Repair(p)
  {
    var p := [Assistant([Call(y)]), Tool([Approval(y)])];
    var tools := p[1..2];
    assert p[1..] == tools && tools[1..] == [] && Tools(tools) == 1;
    assert p[2..] == [];
    assert Results(tools) == {};
    assert tools[0].parts[0].Approval?;
    assert !Anchored(p, false);
    SecondPassExactly(p);
  }

  // The loop

  method RemoveUnresolvedToolCalls(prompt: Prompt) returns (normalized: Prompt)
    ensures normalized == Repair(prompt)
  {
    normalized := [];
    var index := 0;
    while index < |prompt|
      invariant index <= |prompt| && normalized + Repair(prompt[index..]) == Repair(prompt)
    {
      var message := prompt[index];
      ghost var done := normalized;
      if !message.Assistant? {
        OtherAt(prompt, index);
        if !message.Tool? {
          normalized := normalized + [message];
          Regroup(done, [message], Repair(prompt[index + 1..]));
        }
        index := index + 1;
      } else {
        var nextIndex := NextNonTool(prompt, index + 1);
        var turn := RepairTurn(message.parts, prompt[index + 1..nextIndex]);
        TurnAt(prompt, index, nextIndex);
        Regroup(done, turn, Repair(prompt[nextIndex..]));
        normalized := normalized + turn;
        index := nextIndex;
      }
    }
  }

  lemma OtherAt(p: Prompt, index: nat)
    requires index < |p| && !p[index].Assistant?
    ensures Repair(p[index..]) == (if p[index].Tool? then [] else [p[index]]) + Repair(p[index + 1..])
  {
    assert p[index..][1..] == p[index + 1..];
  }

  lemma TurnAt(p: Prompt, index: nat, next: nat)
    requires index < |p| && p[index].Assistant? && next == index + 1 + Tools(p[index + 1..])
    ensures Repair(p[index..]) == Turn(p[index].parts, p[index + 1..next]) + Repair(p[next..])
  {
    Slices(p, index, next);
    var parts, tools, rest := TurnOf(p[index..]);
  }

  lemma Slices<T>(p: seq<T>, index: nat, next: nat)
    requires index < next <= |p|
    ensures p[index..][1..] == p[index + 1..]
    ensures p[index..][1..next - index] == p[index + 1..next]
    ensures p[index..][next - index..] == p[next..]
  {
  }

  method NextNonTool(prompt: Prompt, from: nat) returns (next: nat)
    requires from <= |prompt|
    ensures next == from + Tools(prompt[from..])
  {
    next := from;
    while next < |prompt| && prompt[next].Tool?
      invariant from <= next <= |prompt| && from + Tools(prompt[from..]) == next + Tools(prompt[next..])
    {
      assert prompt[next..][1..] == prompt[next + 1..];
      next := next + 1;
    }
  }

  method RepairTurn(parts: seq<Part>, tools: Prompt) returns (turn: Prompt)
    requires forall i :: 0 <= i < |tools| ==> tools[i].Tool?
    ensures turn == Turn(parts, tools)
  {
    var retained := RetainedIds(parts, Results(tools));
    var content := KeepContent(parts, retained);
    turn := if content != [] then [Assistant(content)] else [];
    var kept := RepairTools(tools, retained);
    turn := turn + kept;
  }

  method RepairTools(tools: Prompt, retained: set<CallId>) returns (kept: Prompt)
    requires forall i :: 0 <= i < |tools| ==> tools[i].Tool?
    ensures kept == KeepTools(tools, retained)
  {
    kept := [];
    for i := 0 to |tools|
      invariant kept + KeepTools(tools[i..], retained) == KeepTools(tools, retained)
    {
      var toolContent := KeepTool(tools[i].parts, retained);
      assert tools[i..][0] == tools[i] && tools[i..][1..] == tools[i + 1..];
      Regroup(kept, KeepMessage(tools[i], retained), KeepTools(tools[i + 1..], retained));
      if toolContent != [] {
        kept := kept + [Tool(toolContent)];
      }
    }
  }

  method RetainedIds(parts: seq<Part>, results: set<CallId>) returns (retained: set<CallId>)
    ensures retained == Calls(parts) * results
  {
    retained := {};
    for i := 0 to |parts|
      invariant retained == Calls(parts[..i]) * results
    {
      CallsJoin(parts[..i], [parts[i]]);
      assert parts[..i + 1] == parts[..i] + [parts[i]];
      if parts[i].Call? && parts[i].id in results {
        retained := retained + {parts[i].id};
      }
    }
    assert parts[..|parts|] == parts;
  }
}
