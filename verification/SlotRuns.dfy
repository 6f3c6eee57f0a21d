/** Runs from an empty memory that reach the limits of `SlotVersions`. */
module SlotRuns {
  import opened Wrappers
  import opened SlotVersions

  // One slot of facts, filled record by record

  function FactSlot(attribute: nat): Slot { Slot(1, attribute, false) }

  function Fact(attribute: nat, content: nat, update: Update): Input {
    Input(1, Some(attribute), Statement, content, None, update)
  }

  /** Records 0 to `n` of one slot; those below `m` were replaced by record `m`. */
  function Stage(attribute: nat, m: nat, n: nat): State {
    State(map i | 0 <= i < n ::
            NewItem(Fact(attribute, i, NoUpdate)).(status := if i < m then Superseded(m) else Active), n)
  }

  predicate Between(m: nat, i: nat, n: nat) { m <= i < n }

  function Range(m: nat, n: nat): set<Id> { set i: Id | m <= i < n && Between(m, i, n) }

  lemma {:induction false} RangeSize(m: nat, n: nat)
    requires m <= n
    ensures |Range(m, n)| == n - m
    decreases n
  {
    if m < n {
      RangeSize(m, n - 1);
      assert Range(m, n) == Range(m, n - 1) + {n - 1};
    } else {
      assert Range(m, n) == {};
    }
  }

  lemma StageSlot(attribute: nat, m: nat, n: nat)
    requires m < n
    ensures var s := Stage(attribute, m, n);
            && Inv(s)
            && ActiveIn(s, FactSlot(attribute)) == Range(m, n) && |ActiveIn(s, FactSlot(attribute))| == n - m
            && Elements(Rows(s, FactSlot(attribute))) == Range(m, n)
            && RevivedIn(s, m, FactSlot(attribute)) == Range(0, m)
  {
    var s := Stage(attribute, m, n);
    assert ActiveIn(s, FactSlot(attribute)) == Range(m, n);
    RangeSize(m, n);
    RowsOfSlot(s, FactSlot(attribute));
    assert RevivedIn(s, m, FactSlot(attribute)) == Range(0, m);
  }

  lemma FirstRecord(attribute: nat)
    ensures Create(EMPTY, Fact(attribute, 0, NoUpdate), false) == Stage(attribute, 0, 1)
  {
    var slot := FactSlot(attribute);
    assert ActiveIn(EMPTY, slot) == {};
    RowsOfSlot(EMPTY, slot);
    RequireExactly(Rows(EMPTY, slot), NoUpdate);
    assert Create(EMPTY, Fact(attribute, 0, NoUpdate), false).items == Stage(attribute, 0, 1).items;
  }

  lemma AddRecord(attribute: nat, m: nat, n: nat)
    requires m < n < m + LIST_MAX_LIMIT
    ensures Create(Stage(attribute, m, n), Fact(attribute, n, Add({m})), false) == Stage(attribute, m, n + 1)
  {
    var s, input := Stage(attribute, m, n), Fact(attribute, n, Add({m}));
    StageSlot(attribute, m, n);
    assert m in Range(m, n);
    RequireExactly(Rows(s, FactSlot(attribute)), input.update);
    assert !Reinforces(s, input);
    assert Create(s, input, false).items == Stage(attribute, m, n + 1).items;
  }

  lemma ReplaceRecords(attribute: nat, n: nat)
    requires n > 0
    ensures Create(Stage(attribute, 0, n), Fact(attribute, n, Replace(Range(0, n))), false) == Stage(attribute, n, n + 1)
  {
    var s, input := Stage(attribute, 0, n), Fact(attribute, n, Replace(Range(0, n)));
    StageSlot(attribute, 0, n);
    RequireExactly(Rows(s, FactSlot(attribute)), input.update);
    assert !Reinforces(s, input);
    assert Create(s, input, false).items == Stage(attribute, n, n + 1).items;
  }

  // Runs

  lemma {:induction false} RunJoin(s: State, a: seq<Step>, b: seq<Step>)
    ensures Run(s, a + b) == Run(Run(s, a), b)
    decreases |a|
  {
    if a == [] {
      assert a + b == b;
    } else {
      assert (a + b)[0] == a[0] && (a + b)[1..] == a[1..] + b;
      RunJoin(Next(s, a[0]), a[1..], b);
    }
  }

  lemma RunOne(s: State, steps: seq<Step>, step: Step)
    ensures Run(s, steps + [step]) == Next(Run(s, steps), step)
  {
    RunJoin(s, steps, [step]);
    assert [step][1..] == [];
  }

  lemma OneMore(s: State, steps: seq<Step>, mid: State, step: Step, t: State)
    requires Run(s, steps) == mid && Next(mid, step) == t
    ensures Run(s, steps + [step]) == t
  {
    RunOne(s, steps, step);
  }

  function Addition(attribute: nat, m: nat, n: nat): Step { CreateStep(Fact(attribute, n, Add({m})), false) }

  lemma NextAddition(attribute: nat, m: nat, n: nat)
    requires m < n < m + LIST_MAX_LIMIT
    ensures Next(Stage(attribute, m, n), Addition(attribute, m, n)) == Stage(attribute, m, n + 1)
  {
    AddRecord(attribute, m, n);
  }

  function Steps(step: nat -> Step, lo: nat, hi: nat): seq<Step> {
    if lo >= hi then [] else Steps(step, lo, hi - 1) + [step(hi - 1)]
  }

  /** States that follow from one another by numbered steps are where their run leads. */
  lemma {:induction false} RunSteps(stage: nat -> State, step: nat -> Step, lo: nat, hi: nat)
    requires lo <= hi && forall n :: lo <= n < hi ==> Next(stage(n), step(n)) == stage(n + 1)
    ensures Run(stage(lo), Steps(step, lo, hi)) == stage(hi)
    decreases hi
  {
    if lo < hi {
      RunSteps(stage, step, lo, hi - 1);
      OneMore(stage(lo), Steps(step, lo, hi - 1), stage(hi - 1), step(hi - 1), stage(hi));
    }
  }

  /** Additions that name record `m`. */
  function Additions(attribute: nat, m: nat, lo: nat, hi: nat): seq<Step> {
    Steps((n: nat) => Addition(attribute, m, n), lo, hi)
  }

  lemma RunAdditions(attribute: nat, m: nat, lo: nat, hi: nat)
    requires m < lo <= hi <= m + LIST_MAX_LIMIT
    ensures Run(Stage(attribute, m, lo), Additions(attribute, m, lo, hi)) == Stage(attribute, m, hi)
  {
    var stage, step := (n: nat) => Stage(attribute, m, n), (n: nat) => Addition(attribute, m, n);
    forall n | lo <= n < hi ensures Next(stage(n), step(n)) == stage(n + 1) {
      NextAddition(attribute, m, n);
    }
    RunSteps(stage, step, lo, hi);
  }

  /** A first record and additions to it, up to `n` records. */
  function Filling(attribute: nat, n: nat): seq<Step>
    requires n > 0
  {
    [CreateStep(Fact(attribute, 0, NoUpdate), false)] + Additions(attribute, 0, 1, n)
  }

  lemma RunFilling(attribute: nat, n: nat)
    requires 1 <= n <= LIST_MAX_LIMIT
    ensures Run(EMPTY, Filling(attribute, n)) == Stage(attribute, 0, n)
  {
    var first := [CreateStep(Fact(attribute, 0, NoUpdate), false)];
    RunJoin(EMPTY, first, Additions(attribute, 0, 1, n));
    assert first[1..] == [];
    FirstRecord(attribute);
    RunAdditions(attribute, 0, 1, n);
  }

  /** Two records, and a replacement that names both in the words of the first: it is accepted and retires neither. */
  lemma ReplaceKeepsBoth(attribute: nat)
    ensures var s := Run(EMPTY, Filling(attribute, 2));
            var replace := Fact(attribute, 0, Replace({0, 1}));
            && CreateReply(s, replace, false) == Reinforced
            && |ActiveIn(Run(EMPTY, Filling(attribute, 2) + [CreateStep(replace, false)]), FactSlot(attribute))| == 2
  {
    var s, replace := Stage(attribute, 0, 2), Fact(attribute, 0, Replace({0, 1}));
    RunFilling(attribute, 2);
    RunOne(EMPTY, Filling(attribute, 2), CreateStep(replace, false));
    StageSlot(attribute, 0, 2);
    assert IsActive(s, 0) && Matches(s.items[0], replace);
  }

  /** A record and its replacement: the replaced one cannot be deleted. */
  lemma ReplacedStays(attribute: nat)
    ensures var s := Run(EMPTY, Filling(attribute, 1) + [CreateStep(Fact(attribute, 1, Replace({0})), false)]);
            && 0 in s.items && !s.items[0].deleted
            && DeleteCheck(s, 0) == Some(ConstraintViolated) && Next(s, DeleteStep(0)) == s
  {
    RunFilling(attribute, 1);
    RunOne(EMPTY, Filling(attribute, 1), CreateStep(Fact(attribute, 1, Replace({0})), false));
    assert Range(0, 1) == {0};
    ReplaceRecords(attribute, 1);
  }

  /** Fifty facts in the slot of the discussion summary, a summary, and the summary corrected to a fact: 51 facts. */
  function SummaryRun(): seq<Step> {
    Filling(DISCUSSION_SUMMARY, LIST_MAX_LIMIT)
    + [CreateStep(Input(1, Some(DISCUSSION_SUMMARY), Episode, 0, None, NoUpdate), false)]
    + [CorrectStep(LIST_MAX_LIMIT, Some(Statement), 0)]
  }

  lemma SummaryOverfills()
    ensures |ActiveIn(Run(EMPTY, SummaryRun()), FactSlot(DISCUSSION_SUMMARY))| == LIST_MAX_LIMIT + 1
  {
    var slot := FactSlot(DISCUSSION_SUMMARY);
    var episode := Input(1, Some(DISCUSSION_SUMMARY), Episode, 0, None, NoUpdate);
    var filling := Filling(DISCUSSION_SUMMARY, LIST_MAX_LIMIT);
    var s := Stage(DISCUSSION_SUMMARY, 0, LIST_MAX_LIMIT);
    RunFilling(DISCUSSION_SUMMARY, LIST_MAX_LIMIT);
    RunOne(EMPTY, filling, CreateStep(episode, false));
    RunOne(EMPTY, filling + [CreateStep(episode, false)], CorrectStep(LIST_MAX_LIMIT, Some(Statement), 0));
    StageSlot(DISCUSSION_SUMMARY, 0, LIST_MAX_LIMIT);
    SummaryCreated(s, episode);
    var t := Create(s, episode, false);
    NextKeeps(s, CreateStep(episode, false));
    CorrectCounts(t, LIST_MAX_LIMIT, Some(Statement), 0, slot);
    OtherSlots(s, episode, false, slot);
  }

  lemma SummaryCreated(s: State, episode: Input)
    requires s == Stage(DISCUSSION_SUMMARY, 0, LIST_MAX_LIMIT)
    requires episode == Input(1, Some(DISCUSSION_SUMMARY), Episode, 0, None, NoUpdate)
    ensures var t := Create(s, episode, false);
            CorrectReply(t, LIST_MAX_LIMIT).Inserted? && t.items[LIST_MAX_LIMIT] == NewItem(episode)
  {
    StageSlot(DISCUSSION_SUMMARY, 0, LIST_MAX_LIMIT);
    assert ActiveIn(s, SlotOf(episode)) == {};
    RowsOfSlot(s, SlotOf(episode));
    RequireExactly(Rows(s, SlotOf(episode)), NoUpdate);
    assert !Reinforces(s, episode);
  }

  /** Fifty records, all replaced by one, and 49 additions to that. */
  function ReplacedRun(attribute: nat): seq<Step> {
    Filling(attribute, LIST_MAX_LIMIT)
    + [CreateStep(Fact(attribute, LIST_MAX_LIMIT, Replace(Range(0, LIST_MAX_LIMIT))), false)]
    + Additions(attribute, LIST_MAX_LIMIT, LIST_MAX_LIMIT + 1, 2 * LIST_MAX_LIMIT)
  }

  lemma RunReplaced(attribute: nat)
    ensures Run(EMPTY, ReplacedRun(attribute)) == Stage(attribute, LIST_MAX_LIMIT, 2 * LIST_MAX_LIMIT)
  {
    var n := LIST_MAX_LIMIT;
    var filling, replace := Filling(attribute, n), CreateStep(Fact(attribute, n, Replace(Range(0, n))), false);
    RunFilling(attribute, n);
    RunOne(EMPTY, filling, replace);
    ReplaceRecords(attribute, n);
    RunJoin(EMPTY, filling + [replace], Additions(attribute, n, n + 1, 2 * n));
    RunAdditions(attribute, n, n + 1, 2 * n);
  }

  /** Then the replacement deleted and purged: 99 records. */
  function PurgeRun(attribute: nat): seq<Step> {
    ReplacedRun(attribute) + [DeleteStep(LIST_MAX_LIMIT)] + [PurgeStep(LIST_MAX_LIMIT)]
  }

  lemma PurgedStage(attribute: nat, n: nat)
    requires n > 0
    ensures |ActiveIn(Purge(Delete(Stage(attribute, n, 2 * n), n), n), FactSlot(attribute))| == 2 * n - 1
  {
    var s, slot := Stage(attribute, n, 2 * n), FactSlot(attribute);
    StageSlot(attribute, n, 2 * n);
    NextKeeps(s, DeleteStep(n));
    DeletedStage(attribute, n);
    RangeSize(n + 1, 2 * n);
    RangeSize(0, n);
    PurgeCounts(Delete(s, n), n, slot);
  }

  lemma DeletedStage(attribute: nat, n: nat)
    requires n > 0
    ensures var t, slot := Delete(Stage(attribute, n, 2 * n), n), FactSlot(attribute);
            && n in t.items && t.items[n].deleted
            && ActiveIn(t, slot) == Range(n + 1, 2 * n) && RevivedIn(t, n, slot) == Range(0, n)
  {
  }

  lemma PurgeOverfills(attribute: nat)
    ensures |ActiveIn(Run(EMPTY, PurgeRun(attribute)), FactSlot(attribute))| == 2 * LIST_MAX_LIMIT - 1
  {
    RunReplaced(attribute);
    RunOne(EMPTY, ReplacedRun(attribute), DeleteStep(LIST_MAX_LIMIT));
    RunOne(EMPTY, ReplacedRun(attribute) + [DeleteStep(LIST_MAX_LIMIT)], PurgeStep(LIST_MAX_LIMIT));
    PurgedStage(attribute, LIST_MAX_LIMIT);
  }
}
