/** Versions of a memory slot (memory-slot-supersede.ts). */
module SlotVersions {
  // The slot decision, the insert and reinforcement of memory-claim-writer.ts, the correction and deletion of
  // memory-repository.ts, and the purge whose trigger clears the references to a purged record. Records are
  // numbered in the order of their insertion.

  import opened Wrappers

  const LIST_MAX_LIMIT := 50

  /** The attribute an episode may keep: `итог обсуждения` */
  const DISCUSSION_SUMMARY: nat := 0

  type Id = nat

  datatype Kind = Profile | Preference | Statement | Episode | FamilyShared
  datatype Status = Active | Superseded(newer: Id) | Retracted

  /** `place` is the scope, its partition, the project and the subject. */
  datatype Item = Item(place: nat, attribute: Option<nat>, kind: Kind, content: nat, occurredAt: Option<int>,
                       status: Status, deleted: bool)

  /** Semantic kinds share a slot; an episode slot only ever holds episodes. */
  datatype Slot = Slot(place: nat, attribute: nat, episode: bool)

  datatype State = State(items: map<Id, Item>, next: Id)

  datatype Update = NoUpdate | Add(named: set<Id>) | Replace(named: set<Id>)

  datatype Input = Input(place: nat, attribute: Option<nat>, kind: Kind, content: nat, occurredAt: Option<int>,
                         update: Update)

  datatype Error = ReviewRequired | SlotChanged | LimitReached | NotFound | UpdateFailed | ConstraintViolated | OtherError
  datatype Decision = Retire(ids: seq<Id>) | Refuse(error: Error)

  predicate InSlot(item: Item, slot: Slot) {
    item.place == slot.place && item.attribute == Some(slot.attribute) && (item.kind == Episode) == slot.episode
  }

  predicate IsActive(s: State, id: Id) { id in s.items && s.items[id].status == Active && !s.items[id].deleted }

  /** The records a slot holds now. */
  function ActiveIn(s: State, slot: Slot): set<Id> {
    set id | id in s.items && IsActive(s, id) && InSlot(s.items[id], slot)
  }

  /** The same as a list, oldest first, among the records numbered below `n`. */
  function RowsBelow(s: State, slot: Slot, n: nat): seq<Id> {
    if n == 0 then []
    else if n - 1 in ActiveIn(s, slot) then RowsBelow(s, slot, n - 1) + [n - 1]
    else RowsBelow(s, slot, n - 1)
  }

  function Rows(s: State, slot: Slot): seq<Id> { RowsBelow(s, slot, s.next) }

  function Elements(ids: seq<Id>): set<Id> { set id | id in ids }

  // The slot decision

  function RequireSlotUpdate(rows: seq<Id>, update: Update): Decision {
    var actual := Elements(rows);
    match update
    case NoUpdate => if |actual| > 0 then Refuse(ReviewRequired) else Retire([])
    case Add(named) =>
      if (exists ref :: ref in named && ref !in actual) || |named| == 0 then Refuse(SlotChanged)
      else if |actual| >= LIST_MAX_LIMIT then Refuse(LimitReached)
      else Retire([])
    case Replace(named) =>
      if (exists ref :: ref in named && ref !in actual) || |named| != |actual| then Refuse(SlotChanged)
      else Retire(rows)
  }

  /**
   * An unslotted view writes only into an empty slot, an addition must name some of what is there (so it can
   * never start a slot) and leave room, and a replacement must name exactly what is there.
   */
  lemma RequireExactly(rows: seq<Id>, update: Update)
    ensures RequireSlotUpdate(rows, update).Retire? <==>
              match update
              case NoUpdate => rows == []
              case Add(named) => {} < named <= Elements(rows) && |Elements(rows)| < LIST_MAX_LIMIT
              case Replace(named) => named == Elements(rows)
  {
    if rows != [] { assert rows[0] in Elements(rows); }
    if update.Replace? && update.named <= Elements(rows) && |update.named| == |Elements(rows)| {
      EqualSize(update.named, Elements(rows));
    }
  }

  lemma EqualSize<T>(a: set<T>, b: set<T>)
    requires a <= b && |a| == |b|
    ensures a == b
  {
    assert b == a + (b - a);
  }

  // The steps

  /** The identity under which a repeated text counts as a reinforcement. */
  predicate Matches(item: Item, input: Input) {
    && item.place == input.place && item.content == input.content && item.kind == input.kind
    && item.attribute == input.attribute && item.occurredAt == input.occurredAt
  }

  predicate Reinforces(s: State, input: Input) {
    exists id :: id in s.items && IsActive(s, id) && Matches(s.items[id], input)
  }

  function SlotOf(input: Input): Slot
    requires input.attribute.Some?
  {
    Slot(input.place, input.attribute.value, input.kind == Episode)
  }

  function Decide(s: State, input: Input): Decision {
    if input.attribute == None then Retire([]) else RequireSlotUpdate(Rows(s, SlotOf(input)), input.update)
  }

  datatype Created = Reinforced | Inserted(id: Id) | Failed(error: Error)

  /** `blocked`: the neighbour gate, the quota or another error stopped the write. */
  function CreateReply(s: State, input: Input, blocked: bool): Created {
    if Reinforces(s, input) then Reinforced
    else if Decide(s, input).Refuse? then Failed(Decide(s, input).error)
    else if blocked then Failed(OtherError)
    else Inserted(s.next)
  }

  function NewItem(input: Input): Item {
    Item(input.place, input.attribute, input.kind, input.content, input.occurredAt, Active, false)
  }

  function Supersede(items: map<Id, Item>, ids: set<Id>, newer: Id): map<Id, Item> {
    map id | id in items :: if id in ids then items[id].(status := Superseded(newer)) else items[id]
  }

  function Create(s: State, input: Input, blocked: bool): State {
    if CreateReply(s, input, blocked).Inserted?
    then State(Supersede(s.items, Elements(Decide(s, input).ids), s.next)[s.next := NewItem(input)], s.next + 1)
    else s
  }

  /** What a correction keeps of the old record; an episode's only slot is the discussion summary. */
  function Corrected(previous: Item, kind: Option<Kind>, content: nat): Item {
    var k := if kind.Some? then kind.value else previous.kind;
    Item(previous.place,
         if k == Episode && previous.attribute != Some(DISCUSSION_SUMMARY) then None else previous.attribute,
         k, content, if k == Episode then previous.occurredAt else None, Active, false)
  }

  function CorrectReply(s: State, id: Id): Created {
    if id !in s.items || s.items[id].deleted then Failed(NotFound)
    else if s.items[id].status != Active then Failed(UpdateFailed)
    else Inserted(s.next)
  }

  function Correct(s: State, id: Id, kind: Option<Kind>, content: nat): State {
    if CorrectReply(s, id).Inserted?
    then State(Supersede(s.items, {id}, s.next)[s.next := Corrected(s.items[id], kind, content)], s.next + 1)
    else s
  }

  /** The table's own check: a retracted record points to no newer version. The delete does not clear that pointer. */
  function DeleteCheck(s: State, id: Id): Option<Error> {
    if id !in s.items || s.items[id].deleted then Some(NotFound)
    else if s.items[id].status.Superseded? then Some(ConstraintViolated)
    else None
  }

  function Delete(s: State, id: Id): State {
    if DeleteCheck(s, id) == None
    then s.(items := s.items[id := s.items[id].(status := Retracted, deleted := true)])
    else s
  }

  /** A purge removes a deleted record; a trigger first makes the records it superseded active again. */
  function Purge(s: State, id: Id): State {
    if id in s.items && s.items[id].deleted
    then s.(items := map k | k in s.items && k != id ::
                       if s.items[k].status == Superseded(id) then s.items[k].(status := Active) else s.items[k])
    else s
  }

  datatype Step =
    | CreateStep(input: Input, blocked: bool)
    | CorrectStep(id: Id, kind: Option<Kind>, content: nat)
    | DeleteStep(id: Id)
    | PurgeStep(id: Id)

  function Next(s: State, step: Step): State {
    match step
    case CreateStep(input, blocked) => Create(s, input, blocked)
    case CorrectStep(id, kind, content) => Correct(s, id, kind, content)
    case DeleteStep(id) => Delete(s, id)
    case PurgeStep(id) => Purge(s, id)
  }

  // Version chains

  predicate Chained(s: State, id: Id)
    requires id in s.items
  {
    && id < s.next
    && (s.items[id].status.Superseded? ==> id < s.items[id].status.newer && s.items[id].status.newer in s.items)
    && (s.items[id].deleted ==> s.items[id].status == Retracted)
  }

  predicate Inv(s: State) { forall id :: id in s.items ==> Chained(s, id) }

  lemma {:induction false} RowsAre(s: State, slot: Slot, n: nat)
    ensures forall id: Id :: id in RowsBelow(s, slot, n) <==> id < n && id in ActiveIn(s, slot)
    ensures forall i, j :: 0 <= i < j < |RowsBelow(s, slot, n)| ==> RowsBelow(s, slot, n)[i] < RowsBelow(s, slot, n)[j]
  {
    if n > 0 {
      RowsAre(s, slot, n - 1);
      var below := RowsBelow(s, slot, n - 1);
      assert forall i :: 0 <= i < |below| ==> below[i] in below;
    }
  }

  /** The locked rows are the slot's active records, each once. */
  lemma RowsOfSlot(s: State, slot: Slot)
    requires Inv(s)
    ensures Elements(Rows(s, slot)) == ActiveIn(s, slot)
    ensures Rows(s, slot) == [] <==> ActiveIn(s, slot) == {}
  {
    RowsAre(s, slot, s.next);
    if Rows(s, slot) != [] { assert Rows(s, slot)[0] in ActiveIn(s, slot); }
  }

  lemma DecidedIds(s: State, input: Input)
    requires Inv(s) && Decide(s, input).Retire?
    ensures forall id :: id in Elements(Decide(s, input).ids) ==> IsActive(s, id) && id < s.next
  {
    if input.attribute.Some? { RowsOfSlot(s, SlotOf(input)); }
  }

  lemma NextKeeps(s: State, step: Step)
    requires Inv(s)
    ensures Inv(Next(s, step))
  {
    match step
    case CreateStep(input, blocked) =>
      if CreateReply(s, input, blocked).Inserted? { DecidedIds(s, input); }
    case _ =>
  }

  /** Only an active record becomes superseded, and only by the record the same step inserts. */
  lemma OnlyActiveIsSuperseded(s: State, step: Step, id: Id)
    requires Inv(s) && id in s.items && id in Next(s, step).items
    requires Next(s, step).items[id].status.Superseded? && Next(s, step).items[id].status != s.items[id].status
    ensures IsActive(s, id) && Next(s, step).items[id].status.newer == s.next && s.next in Next(s, step).items
  {
    if step.CreateStep? { DecidedIds(s, step.input); }
  }

  function Run(s: State, steps: seq<Step>): State
    decreases |steps|
  {
    if steps == [] then s else Run(Next(s, steps[0]), steps[1..])
  }

  const EMPTY := State(map[], 0)

  /** In every run a superseded record points to a stored one inserted after it. */
  lemma {:induction false} EveryRun(s: State, steps: seq<Step>)
    requires Inv(s)
    ensures Inv(Run(s, steps))
    decreases |steps|
  {
    if steps != [] {
      NextKeeps(s, steps[0]);
      EveryRun(Next(s, steps[0]), steps[1..]);
    }
  }

  /** The newest version of a record: the chain always ends, in a record that nothing supersedes. */
  function Newest(s: State, id: Id): (z: Id)
    requires Inv(s) && id in s.items
    ensures id <= z && z in s.items && !s.items[z].status.Superseded?
    decreases s.next - id
  {
    assert Chained(s, id);
    if s.items[id].status.Superseded? then
      assert Chained(s, s.items[id].status.newer);
      Newest(s, s.items[id].status.newer)
    else id
  }

  // What a write does to its slot, and to every other

  lemma CreateChanges(s: State, input: Input, blocked: bool, slot: Slot)
    requires Inv(s) && CreateReply(s, input, blocked).Inserted?
    ensures ActiveIn(Create(s, input, blocked), slot) ==
              ActiveIn(s, slot) - Elements(Decide(s, input).ids) + if InSlot(NewItem(input), slot) then {s.next} else {}
  {
    DecidedIds(s, input);
    var t := Create(s, input, blocked);
    forall id ensures id in ActiveIn(t, slot) <==>
                      id in ActiveIn(s, slot) - Elements(Decide(s, input).ids) + if InSlot(NewItem(input), slot) then {s.next} else {}
    {
      assert s.next in s.items ==> Chained(s, s.next);
    }
  }

  /** A replacement that inserts leaves its record alone in the slot; an addition or a first write retires none. */
  lemma SlotWrite(s: State, input: Input, blocked: bool)
    requires Inv(s) && input.attribute.Some? && CreateReply(s, input, blocked).Inserted?
    ensures var t := ActiveIn(Create(s, input, blocked), SlotOf(input));
            t == if input.update.Replace? then {s.next} else ActiveIn(s, SlotOf(input)) + {s.next}
    ensures input.update.Replace? ==> input.update.named == ActiveIn(s, SlotOf(input))
    ensures !input.update.Replace? ==> |ActiveIn(s, SlotOf(input))| < LIST_MAX_LIMIT
  {
    RowsOfSlot(s, SlotOf(input));
    RequireExactly(Rows(s, SlotOf(input)), input.update);
    CreateChanges(s, input, blocked, SlotOf(input));
  }

  /** A write into one slot leaves every other as it is. */
  lemma OtherSlots(s: State, input: Input, blocked: bool, slot: Slot)
    requires Inv(s) && (input.attribute.Some? ==> slot != SlotOf(input))
    ensures ActiveIn(Create(s, input, blocked), slot) == ActiveIn(s, slot)
  {
    if CreateReply(s, input, blocked).Inserted? {
      CreateChanges(s, input, blocked, slot);
      if input.attribute.Some? { RowsOfSlot(s, SlotOf(input)); }
    }
  }

  /**
   * A replacement succeeds without leaving one record exactly when its text repeats an active record of a slot
   * that holds others: it then counts as a reinforcement and retires nothing.
   */
  lemma ReplaceExactly(s: State, input: Input, blocked: bool)
    requires Inv(s) && input.attribute.Some? && input.update.Replace?
    requires !CreateReply(s, input, blocked).Failed?
    ensures |ActiveIn(Create(s, input, blocked), SlotOf(input))| == 1 <==>
              (Reinforces(s, input) ==> |ActiveIn(s, SlotOf(input))| <= 1)
  {
    if Reinforces(s, input) {
      var id :| id in s.items && IsActive(s, id) && Matches(s.items[id], input);
      assert id in ActiveIn(s, SlotOf(input));
    } else {
      SlotWrite(s, input, blocked);
    }
  }

  /** A correction takes its record out of one slot and puts the new version into the slot of its new kind. */
  lemma CorrectChanges(s: State, id: Id, kind: Option<Kind>, content: nat, slot: Slot)
    requires Inv(s) && CorrectReply(s, id).Inserted?
    ensures ActiveIn(Correct(s, id, kind, content), slot) ==
              ActiveIn(s, slot) - {id} + if InSlot(Corrected(s.items[id], kind, content), slot) then {s.next} else {}
  {
    var t := Correct(s, id, kind, content);
    forall k ensures k in ActiveIn(t, slot) <==>
                     k in ActiveIn(s, slot) - {id} + if InSlot(Corrected(s.items[id], kind, content), slot) then {s.next} else {}
    {
      assert s.next in s.items ==> Chained(s, s.next);
    }
  }

  /** The one way a correction enters a slot: its kind changes between episode and semantic and the attribute stays. */
  predicate MovesInto(s: State, id: Id, kind: Option<Kind>, slot: Slot)
    requires id in s.items
  {
    && s.items[id].place == slot.place && s.items[id].attribute == Some(slot.attribute)
    && kind.Some? && (kind.value == Episode) == slot.episode && (s.items[id].kind == Episode) != slot.episode
    && (slot.episode ==> slot.attribute == DISCUSSION_SUMMARY)
  }

  lemma MovesIntoIs(s: State, id: Id, kind: Option<Kind>, content: nat, slot: Slot)
    requires id in s.items
    ensures MovesInto(s, id, kind, slot) <==>
              InSlot(Corrected(s.items[id], kind, content), slot) && !InSlot(s.items[id], slot)
  {
  }

  lemma CorrectCounts(s: State, id: Id, kind: Option<Kind>, content: nat, slot: Slot)
    requires Inv(s) && CorrectReply(s, id).Inserted?
    ensures var before, after := |ActiveIn(s, slot)|, |ActiveIn(Correct(s, id, kind, content), slot)|;
            && (after > before <==> MovesInto(s, id, kind, slot))
            && after <= before + 1
  {
    CorrectChanges(s, id, kind, content, slot);
    MovesIntoIs(s, id, kind, content, slot);
    assert s.next !in s.items by { assert s.next in s.items ==> Chained(s, s.next); }
    var before := ActiveIn(s, slot);
    assert id in before <==> InSlot(s.items[id], slot);
    Exchange(before, id, s.next);
  }

  lemma Exchange<T>(s: set<T>, a: T, b: T)
    requires b !in s && a != b
    ensures |s - {a}| == (if a in s then |s| - 1 else |s|)
    ensures |s - {a} + {b}| == |s - {a}| + 1
    ensures s - {a} + {} == s - {a}
  {
    if a !in s { assert s - {a} == s; }
  }

  predicate Bounded(s: State, slot: Slot) { |ActiveIn(s, slot)| <= LIST_MAX_LIMIT }

  /** The records of a slot that the purge of `id` would make active again. */
  function RevivedIn(s: State, id: Id, slot: Slot): set<Id> {
    set k | k in s.items && s.items[k].status == Superseded(id) && InSlot(s.items[k], slot)
  }

  /** The two ways past the limit: a correction moves into a full slot, a purge revives more than there is room for. */
  predicate Overfills(s: State, step: Step, slot: Slot) {
    match step
    case CorrectStep(id, kind, _) =>
      CorrectReply(s, id).Inserted? && MovesInto(s, id, kind, slot) && |ActiveIn(s, slot)| == LIST_MAX_LIMIT
    case PurgeStep(id) =>
      id in s.items && s.items[id].deleted && |ActiveIn(s, slot)| + |RevivedIn(s, id, slot)| > LIST_MAX_LIMIT
    case _ => false
  }

  /** Purging a record makes active exactly the records it had superseded. */
  lemma PurgeRevives(s: State, id: Id, k: Id)
    requires Inv(s) && id in s.items && s.items[id].deleted
    ensures IsActive(Purge(s, id), k) <==> IsActive(s, k) || (k in s.items && s.items[k].status == Superseded(id))
  {
    if k in s.items { assert Chained(s, k); }
  }

  /** So a purge adds to every slot exactly the records of that slot it revives. */
  lemma PurgeCounts(s: State, id: Id, slot: Slot)
    requires Inv(s) && id in s.items && s.items[id].deleted
    ensures ActiveIn(Purge(s, id), slot) == ActiveIn(s, slot) + RevivedIn(s, id, slot)
    ensures |ActiveIn(Purge(s, id), slot)| == |ActiveIn(s, slot)| + |RevivedIn(s, id, slot)|
  {
    forall k ensures k in ActiveIn(Purge(s, id), slot) <==> k in ActiveIn(s, slot) + RevivedIn(s, id, slot) {
      PurgeRevives(s, id, k);
      assert k in s.items ==> Chained(s, k);
    }
    assert ActiveIn(s, slot) !! RevivedIn(s, id, slot);
  }

  /** A step keeps a slot within its limit exactly when it is not one of these two. */
  lemma StepBounded(s: State, step: Step, slot: Slot)
    requires Inv(s) && Bounded(s, slot)
    ensures Bounded(Next(s, step), slot) <==> !Overfills(s, step, slot)
  {
    match step
    case CreateStep(input, blocked) =>
      if input.attribute.Some? && slot == SlotOf(input) {
        if CreateReply(s, input, blocked).Inserted? { SlotWrite(s, input, blocked); }
      } else {
        OtherSlots(s, input, blocked, slot);
      }
    case CorrectStep(id, kind, content) =>
      if CorrectReply(s, id).Inserted? { CorrectCounts(s, id, kind, content, slot); }
    case DeleteStep(id) =>
      Fewer(ActiveIn(Delete(s, id), slot), ActiveIn(s, slot));
    case PurgeStep(id) =>
      if id in s.items && s.items[id].deleted { PurgeCounts(s, id, slot); }
  }

  lemma Fewer<T>(a: set<T>, b: set<T>)
    requires a <= b
    ensures |a| <= |b|
  {
    assert b == a + (b - a);
  }

  predicate NeverOverfills(s: State, steps: seq<Step>, slot: Slot)
    decreases |steps|
  {
    steps != [] ==> !Overfills(s, steps[0], slot) && NeverOverfills(Next(s, steps[0]), steps[1..], slot)
  }

  /** The slot stays within its limit after every step of the run. */
  predicate AlwaysBounded(s: State, steps: seq<Step>, slot: Slot)
    decreases |steps|
  {
    Bounded(s, slot) && (steps != [] ==> AlwaysBounded(Next(s, steps[0]), steps[1..], slot))
  }

  /** Over a whole run a slot stays within its limit exactly when no step overfills it. */
  lemma {:induction false} EveryRunBounded(s: State, steps: seq<Step>, slot: Slot)
    requires Inv(s) && Bounded(s, slot)
    ensures AlwaysBounded(s, steps, slot) <==> NeverOverfills(s, steps, slot)
    ensures NeverOverfills(s, steps, slot) ==> Bounded(Run(s, steps), slot)
    decreases |steps|
  {
    if steps != [] {
      StepBounded(s, steps[0], slot);
      NextKeeps(s, steps[0]);
      if !Overfills(s, steps[0], slot) { EveryRunBounded(Next(s, steps[0]), steps[1..], slot); }
    }
  }

  /** The tool's contract admits no other slot for an episode. */
  predicate Contracted(step: Step) {
    step.CreateStep? && step.input.kind == Episode ==> step.input.attribute in {None, Some(DISCUSSION_SUMMARY)}
  }

  predicate EpisodesOk(s: State) {
    forall id :: id in s.items && s.items[id].kind == Episode ==> s.items[id].attribute in {None, Some(DISCUSSION_SUMMARY)}
  }

  /** Every purge of the run has room for what it revives. */
  predicate PurgesFit(s: State, steps: seq<Step>, slot: Slot)
    decreases |steps|
  {
    steps != [] ==>
      (steps[0].PurgeStep? ==> !Overfills(s, steps[0], slot)) && PurgesFit(Next(s, steps[0]), steps[1..], slot)
  }

  /** Every slot but the discussion summary's two is overfilled by purges only, whatever is corrected. */
  lemma {:induction false} OrdinarySlotsBounded(s: State, steps: seq<Step>, slot: Slot)
    requires slot.attribute != DISCUSSION_SUMMARY && EpisodesOk(s)
    requires forall step :: step in steps ==> Contracted(step)
    ensures NeverOverfills(s, steps, slot) <==> PurgesFit(s, steps, slot)
    decreases |steps|
  {
    if steps != [] {
      assert steps[0] in steps;
      assert EpisodesOk(Next(s, steps[0]));
      assert steps[0].CorrectStep? ==> !Overfills(s, steps[0], slot);
      OrdinarySlotsBounded(Next(s, steps[0]), steps[1..], slot);
    }
  }

  /** A full slot that a corrected summary moves into holds one record too many. */
  lemma FullSlotOverfills(s: State, id: Id, kind: Option<Kind>, content: nat, slot: Slot)
    requires Inv(s) && CorrectReply(s, id).Inserted? && |ActiveIn(s, slot)| == LIST_MAX_LIMIT
    ensures Bounded(Correct(s, id, kind, content), slot) <==> !MovesInto(s, id, kind, slot)
  {
    CorrectCounts(s, id, kind, content, slot);
  }

  lemma ReplaceStep(s: State, input: Input, id: Id)
    requires Inv(s) && id in s.items && input.attribute.Some? && !Reinforces(s, input)
    requires ActiveIn(s, SlotOf(input)) == {id} && input.update == Replace({id})
    ensures Create(s, input, false) == State(s.items[id := s.items[id].(status := Superseded(s.next))][s.next := NewItem(input)], s.next + 1)
  {
    RowsOfSlot(s, SlotOf(input));
    RequireExactly(Rows(s, SlotOf(input)), input.update);
    assert Create(s, input, false).items == s.items[id := s.items[id].(status := Superseded(s.next))][s.next := NewItem(input)];
  }

  /** The only record of a slot, once replaced, is active again when its replacement has been deleted and purged. */
  lemma ReplacedReturns(s: State, input: Input, id: Id)
    requires Inv(s) && id in s.items && input.attribute.Some? && !Reinforces(s, input)
    requires ActiveIn(s, SlotOf(input)) == {id} && input.update == Replace({id})
    ensures !IsActive(Create(s, input, false), id)
    ensures IsActive(Purge(Delete(Create(s, input, false), s.next), s.next), id)
  {
    assert id in ActiveIn(s, SlotOf(input)) && Chained(s, id);
    NextKeeps(s, CreateStep(input, false));
    ReplaceStep(s, input, id);
    var t := Create(s, input, false);
    NextKeeps(t, DeleteStep(s.next));
    PurgeRevives(Delete(t, s.next), s.next, id);
  }

  /** A stored record can be deleted exactly when no newer version superseded it. */
  lemma DeleteExactly(s: State, id: Id)
    requires Inv(s) && id in s.items && !s.items[id].deleted
    ensures Delete(s, id) != s <==> Newest(s, id) == id
  {
    if s.items[id].status.Superseded? {
      assert Chained(s, id) && Chained(s, s.items[id].status.newer);
    } else {
      assert Delete(s, id).items[id].deleted;
    }
  }

  // What a write stores, and what it leaves alone

  predicate SameBut(s: State, t: State, ids: set<Id>) {
    && (forall k :: k in s.items && k !in ids ==> k in t.items && t.items[k] == s.items[k])
    && (forall k :: k in t.items && k !in ids ==> k in s.items)
  }

  /**
   * A correction of an active record stores one new version: its text, the asked kind or the old one, the old place,
   * the slot unless it became an episode of another one, the event date if it is an episode. It supersedes that record.
   */
  lemma CorrectedIs(s: State, id: Id, kind: Option<Kind>, content: nat)
    requires Inv(s) && IsActive(s, id)
    ensures CorrectReply(s, id) == Inserted(s.next) && s.next !in s.items
    ensures var t := Correct(s, id, kind, content);
            && Inv(t) && id in t.items && Newest(t, id) == s.next && IsActive(t, s.next)
            && t.items[id] == s.items[id].(status := Superseded(s.next)) && SameBut(s, t, {id, s.next})
            && IsVersionOf(t.items[s.next], s.items[id], kind, content)
  {
    assert Chained(s, id);
    assert s.next in s.items ==> Chained(s, s.next);
    NextKeeps(s, CorrectStep(id, kind, content));
  }

  predicate IsVersionOf(v: Item, was: Item, kind: Option<Kind>, content: nat) {
    && v.content == content && v.place == was.place && v.kind == (if kind == None then was.kind else kind.value)
    && (v.attribute == was.attribute || v.attribute == None)
    && (v.attribute != was.attribute <==> v.kind == Episode && was.attribute.Some? && was.attribute != Some(DISCUSSION_SUMMARY))
    && (v.kind == Episode ==> v.occurredAt == was.occurredAt) && (v.kind != Episode ==> v.occurredAt == None)
  }

  /** Any other record cannot be corrected, and the table stays. */
  lemma CorrectsActiveOnly(s: State, id: Id, kind: Option<Kind>, content: nat)
    requires Inv(s) && !IsActive(s, id)
    ensures Correct(s, id, kind, content) == s
    ensures CorrectReply(s, id) == Failed(if id in s.items && !s.items[id].deleted then UpdateFailed else NotFound)
  {
  }

  function Retired(input: Input): set<Id> {
    if input.attribute.Some? && input.update.Replace? then input.update.named else {}
  }

  lemma RetiredAre(s: State, input: Input)
    requires Inv(s) && Decide(s, input).Retire?
    ensures Elements(Decide(s, input).ids) == Retired(input)
    ensures forall k :: k in Retired(input) ==> IsActive(s, k)
  {
    DecidedIds(s, input);
    if input.attribute.Some? {
      RowsOfSlot(s, SlotOf(input));
      RequireExactly(Rows(s, SlotOf(input)), input.update);
    }
  }

  /** What a create inserts is the record of its input, active, ahead of exactly the records its replacement names. */
  lemma CreatedIs(s: State, input: Input, blocked: bool)
    requires Inv(s) && CreateReply(s, input, blocked).Inserted?
    ensures var t := Create(s, input, blocked);
            && s.next !in s.items && Inv(t) && IsActive(t, s.next) && SameBut(s, t, Retired(input) + {s.next})
            && t.items[s.next] == Item(input.place, input.attribute, input.kind, input.content, input.occurredAt, Active, false)
            && forall k :: k in Retired(input) ==>
                 k in s.items && k in t.items && t.items[k] == s.items[k].(status := Superseded(s.next)) && Newest(t, k) == s.next
  {
    assert s.next in s.items ==> Chained(s, s.next);
    NextKeeps(s, CreateStep(input, blocked));
    RetiredAre(s, input);
    assert forall k :: k in Retired(input) ==> IsActive(s, k) && Chained(s, k);
  }

  /** A repeat of what an active record says is a reinforcement, whatever its view of the slot, and changes nothing. */
  lemma ReinforcedExactly(s: State, input: Input, blocked: bool)
    ensures CreateReply(s, input, blocked) == Reinforced <==>
              exists id :: id in s.items && s.items[id] ==
                Item(input.place, input.attribute, input.kind, input.content, input.occurredAt, Active, false)
    ensures !CreateReply(s, input, blocked).Inserted? ==> Create(s, input, blocked) == s
  {
    if id :| id in s.items && s.items[id] ==
               Item(input.place, input.attribute, input.kind, input.content, input.occurredAt, Active, false) {
      assert IsActive(s, id) && Matches(s.items[id], input);
    }
  }

  /** Everything else is refused for the view of its slot, or for what stopped the write. */
  lemma RefusedExactly(s: State, input: Input, blocked: bool)
    requires Inv(s) && !Reinforces(s, input)
    ensures CreateReply(s, input, blocked) == Inserted(s.next) <==>
              (!blocked && (input.attribute == None || ViewFits(ActiveIn(s, SlotOf(input)), input.update)))
  {
    if input.attribute.Some? {
      RowsOfSlot(s, SlotOf(input));
      RequireExactly(Rows(s, SlotOf(input)), input.update);
    }
  }

  predicate ViewFits(held: set<Id>, update: Update) {
    match update
    case NoUpdate => held == {}
    case Add(named) => {} < named <= held && |held| < 50
    case Replace(named) => named == held
  }

  lemma DeletedIs(s: State, id: Id)
    requires Inv(s) && id in s.items && !s.items[id].deleted && !s.items[id].status.Superseded?
    ensures var t := Delete(s, id);
            t.items == s.items[id := s.items[id].(status := Retracted, deleted := true)] && t.next == s.next && !IsActive(t, id)
  {
  }

  predicate SameText(a: Item, b: Item) { a == b.(status := a.status, deleted := a.deleted) }

  /** No step rewrites what a stored record says: a correction is another record. */
  lemma TextStays(s: State, step: Step, id: Id)
    requires Inv(s) && id in s.items
    ensures id in Next(s, step).items ==> SameText(Next(s, step).items[id], s.items[id])
    ensures id !in Next(s, step).items <==> step == PurgeStep(id) && s.items[id].deleted
    ensures s.next <= Next(s, step).next
  {
    assert Chained(s, id);
  }

  /** Nor does any run: what is still stored says what it said. */
  lemma {:induction false} TextStaysForever(s: State, steps: seq<Step>, id: Id)
    requires Inv(s) && id in s.items
    ensures id in Run(s, steps).items ==> SameText(Run(s, steps).items[id], s.items[id])
    decreases |steps|
  {
    if steps != [] {
      var t := Next(s, steps[0]);
      TextStays(s, steps[0], id);
      NextKeeps(s, steps[0]);
      if id in t.items {
        TextStaysForever(t, steps[1..], id);
      } else {
        assert Chained(s, id);
        NeverReturns(t, steps[1..], id);
      }
    }
  }

  lemma {:induction false} NeverReturns(s: State, steps: seq<Step>, id: Id)
    requires Inv(s) && id !in s.items && id < s.next
    ensures id !in Run(s, steps).items
    decreases |steps|
  {
    if steps != [] {
      NextKeeps(s, steps[0]);
      NeverReturns(Next(s, steps[0]), steps[1..], id);
    }
  }

  // The same on the table

  class MemoryItems {
    var items: map<Id, Item>
    var next: Id

    ghost function Now(): State
      reads this
    {
      State(items, next)
    }

    method LockSlotClaims(slot: Slot) returns (rows: seq<Id>)
      ensures rows == Rows(Now(), slot)
    {
      rows := [];
      for id := 0 to next
        invariant rows == RowsBelow(Now(), slot, id)
      {
        if id in items && items[id].status == Active && !items[id].deleted && InSlot(items[id], slot) {
          rows := rows + [id];
        }
      }
    }

    method SupersedeSlotClaims(previous: seq<Id>, newClaim: Id)
      requires forall id :: id in previous ==> id in items
      modifies this`items
      ensures items == Supersede(old(items), Elements(previous), newClaim)
    {
      for i := 0 to |previous|
        invariant items == Supersede(old(items), Elements(previous[..i]), newClaim)
      {
        items := items[previous[i] := items[previous[i]].(status := Superseded(newClaim))];
        assert previous[..i + 1] == previous[..i] + [previous[i]];
      }
      assert previous[..|previous|] == previous;
    }

    method CreateMemoryClaim(input: Input, blocked: bool) returns (reply: Created)
      requires Inv(Now())
      modifies this
      ensures Now() == Create(old(Now()), input, blocked) && reply == CreateReply(old(Now()), input, blocked)
    {
      var previous := [];
      var rows := [];
      if input.attribute.Some? {
        rows := LockSlotClaims(SlotOf(input));
      }
      if exists id :: id in items && items[id].status == Active && !items[id].deleted && Matches(items[id], input) {
        assert exists id :: id in items && IsActive(Now(), id) && Matches(items[id], input);
        return Reinforced;
      }
      assert !Reinforces(Now(), input);
      if input.attribute.Some? {
        var decision := RequireSlotUpdate(rows, input.update);
        if decision.Refuse? {
          return Failed(decision.error);
        }
        previous := decision.ids;
      }
      if blocked {
        return Failed(OtherError);
      }
      ghost var s := Now();
      assert previous == Decide(s, input).ids;
      DecidedIds(s, input);
      assert forall id :: id in previous ==> id in Elements(previous);
      reply := Inserted(next);
      items := items[next := NewItem(input)];
      SupersedeSlotClaims(previous, next);
      next := next + 1;
      assert items == Create(s, input, blocked).items;
    }

    method UpdateByRef(id: Id, kind: Option<Kind>, content: nat) returns (reply: Created)
      requires Inv(Now())
      modifies this
      ensures Now() == Correct(old(Now()), id, kind, content) && reply == CorrectReply(old(Now()), id)
    {
      if id !in items || items[id].deleted {
        return Failed(NotFound);
      }
      if items[id].status != Active {
        return Failed(UpdateFailed);
      }
      ghost var s := Now();
      assert Chained(s, id);
      reply := Inserted(next);
      items := items[next := Corrected(items[id], kind, content)];
      items := items[id := items[id].(status := Superseded(next))];
      next := next + 1;
      assert items == Correct(s, id, kind, content).items;
    }
  }
}
