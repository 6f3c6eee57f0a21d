/** The leased embedding jobs of memory-index-repository.ts. */
module EmbeddingIndex {
  // With the reset of reindex-memory.ts and the soft delete of memory-repository.ts. Tables are maps and a
  // transaction is one step.

  import opened Utf16
  import EC = EmbeddingChunks

  type Id = nat
  type Token = nat
  type Model = nat
  type Vector = seq<real>

  const DIMENSIONS := 768

  datatype ItemStatus = Pending | Indexed | Failed
  datatype Item = Item(content: Text, status: ItemStatus, deleted: bool)

  /** A job row; only a leased one has a token and an expiry. */
  datatype JobStatus = Waiting | Leased(token: Token, expires: int) | Dead
  datatype Job = Job(status: JobStatus, attempts: nat, created: int)

  datatype StoredChunk = StoredChunk(chunk: EC.Chunk, embedding: Vector)
  datatype ChunkSet = ChunkSet(rows: seq<StoredChunk>, model: Model)

  datatype State = State(
    items: map<Id, Item>,
    jobs: map<Id, Job>,
    chunks: map<Id, ChunkSet>,
    model: Model,
    now: int,
    nextToken: Token)

  predicate Live(s: State, id: Id) { id in s.items && !s.items[id].deleted }

  /** The order, shape and slices `complete` asks of its chunks. */
  predicate WellOrdered(rows: seq<StoredChunk>) {
    rows != [] && forall i :: 0 <= i < |rows| ==>
      var c := rows[i].chunk;
      c.chunkIndex == i && Trim(c.content) != [] && c.endOffset > c.startOffset && |rows[i].embedding| == DIMENSIONS
  }

  predicate SliceOf(content: Text, c: EC.Chunk) {
    c.startOffset <= c.endOffset <= |content| && content[c.startOffset..c.endOffset] == c.content
  }

  predicate SlicesOf(content: Text, rows: seq<StoredChunk>) {
    forall i :: 0 <= i < |rows| ==> SliceOf(content, rows[i].chunk)
  }

  /** One live record: chunks exactly when indexed, a job exactly when not, the job's status telling the item's. */
  predicate RecordOk(s: State, id: Id)
    requires Live(s, id)
  {
    && (id in s.chunks <==> s.items[id].status == Indexed)
    && (id in s.jobs <==> s.items[id].status != Indexed)
    && (id in s.jobs ==> (s.jobs[id].status == Dead <==> s.items[id].status == Failed))
    && (id in s.jobs ==> s.jobs[id].attempts == if s.jobs[id].status == Waiting then 0 else 1)
    && (id in s.chunks ==> WellOrdered(s.chunks[id].rows) && SlicesOf(s.items[id].content, s.chunks[id].rows))
  }

  predicate HasLease(s: State, id: Id, token: Token) {
    id in s.jobs && s.jobs[id].status.Leased? && s.jobs[id].status.token == token
  }

  ghost predicate Inv(s: State) {
    && (forall id :: Live(s, id) ==> RecordOk(s, id))
    && (forall id :: id in s.jobs ==> Live(s, id))
    && (forall id: Id, token: Token :: HasLease(s, id, token) ==> token < s.nextToken)
    && (forall a: Id, b: Id, token: Token :: HasLease(s, a, token) && HasLease(s, b, token) ==> a == b)
  }

  // The steps. Each is the effect of one committed transaction.

  function Create(s: State, id: Id, content: Text): State {
    s.(items := s.items[id := Item(content, Pending, false)], jobs := s.jobs[id := Job(Waiting, 0, s.now)])
  }

  predicate Expired(s: State, id: Id) { id in s.jobs && s.jobs[id].status.Leased? && s.jobs[id].status.expires < s.now }

  /** An expired lease is ambiguous and becomes a terminal failure. */
  function ExpireLeases(s: State): State {
    s.(jobs := map id | id in s.jobs :: if Expired(s, id) then s.jobs[id].(status := Dead) else s.jobs[id],
       items := map id | id in s.items ::
         if Expired(s, id) && !s.items[id].deleted then s.items[id].(status := Failed) else s.items[id])
  }

  predicate Claimable(s: State, id: Id) {
    Live(s, id) && id in s.jobs && s.jobs[id].status == Waiting && s.jobs[id].attempts == 0
  }

  /** Newest job first, then by id. */
  predicate Before(s: State, a: Id, b: Id)
    requires a in s.jobs && b in s.jobs
  {
    s.jobs[a].created > s.jobs[b].created || (s.jobs[a].created == s.jobs[b].created && a < b)
  }

  /** The first `limit` claimable jobs in that order, all of them when there are fewer. */
  ghost predicate Selected(s: State, limit: nat, ids: seq<Id>) {
    && |ids| <= limit
    && (forall i :: 0 <= i < |ids| ==> Claimable(s, ids[i]))
    && (forall i, j :: 0 <= i < j < |ids| ==> Before(s, ids[i], ids[j]))
    && (forall id :: Claimable(s, id) && id !in ids ==> |ids| == limit && forall i :: 0 <= i < |ids| ==> Before(s, ids[i], id))
  }

  function LeaseOne(s: State, id: Id, lease: nat): State
    requires id in s.jobs
  {
    s.(jobs := s.jobs[id := s.jobs[id].(status := Leased(s.nextToken, s.now + lease), attempts := 1)],
       nextToken := s.nextToken + 1)
  }

  function LeaseAll(s: State, ids: seq<Id>, lease: nat): (t: State)
    requires forall id :: id in ids ==> id in s.jobs
    ensures t.jobs.Keys == s.jobs.Keys && t.items == s.items
  {
    if ids == [] then s else LeaseOne(LeaseAll(s, ids[..|ids| - 1], lease), ids[|ids| - 1], lease)
  }

  datatype CompleteResult = ChunksInvalid | Stale | Completed

  function CompleteOutcome(s: State, id: Id, token: Token, rows: seq<StoredChunk>, model: Model): CompleteResult {
    if model != s.model || !WellOrdered(rows) then ChunksInvalid
    else if !Live(s, id) || !HasLease(s, id, token) then Stale
    else if !SlicesOf(s.items[id].content, rows) then ChunksInvalid
    else Completed
  }

  function Complete(s: State, id: Id, token: Token, rows: seq<StoredChunk>, model: Model): State {
    if CompleteOutcome(s, id, token, rows, model) != Completed then s
    else
      s.(chunks := s.chunks[id := ChunkSet(rows, model)],
         items := s.items[id := s.items[id].(status := Indexed)],
         jobs := s.jobs - {id})
  }

  function Fail(s: State, id: Id, token: Token): State {
    if !HasLease(s, id, token) then s
    else
      s.(jobs := s.jobs[id := s.jobs[id].(status := Dead)],
         items := if Live(s, id) then s.items[id := s.items[id].(status := Failed)] else s.items,
         chunks := s.chunks - {id})
  }

  predicate NeedsReset(s: State, id: Id) {
    Live(s, id) && (s.items[id].status != Indexed || id !in s.chunks || s.chunks[id].model != s.model)
  }

  function Reindex(s: State): State {
    var reset := set id | id in s.items && NeedsReset(s, id);
    s.(chunks := s.chunks - reset,
       items := map id | id in s.items :: if id in reset then s.items[id].(status := Pending) else s.items[id],
       jobs := map id | id in s.jobs.Keys + reset ::
         if id !in reset then s.jobs[id]
         else if id in s.jobs then s.jobs[id].(status := Waiting, attempts := 0)
         else Job(Waiting, 0, s.now))
  }

  function Delete(s: State, id: Id): State {
    if !Live(s, id) then s
    else s.(items := s.items[id := s.items[id].(deleted := true)], jobs := s.jobs - {id})
  }

  datatype Step =
    | CreateStep(id: Id, content: Text)
    | ClaimStep(ids: seq<Id>, lease: nat)
    | CompleteStep(id: Id, token: Token, rows: seq<StoredChunk>, model: Model)
    | FailStep(id: Id, token: Token)
    | ReindexStep
    | DeleteStep(id: Id)
    | TickStep(now: int)
    | DeployStep(model: Model)

  ghost predicate Enabled(s: State, step: Step) {
    match step
    case CreateStep(id, _) => id !in s.items && id !in s.chunks
    case ClaimStep(ids, _) => exists limit: nat :: Selected(ExpireLeases(s), limit, ids)
    case TickStep(now) => s.now <= now
    case _ => true
  }

  ghost function Next(s: State, step: Step): State
    requires Enabled(s, step)
  {
    match step
    case CreateStep(id, content) => Create(s, id, content)
    case ClaimStep(ids, lease) => LeaseAll(ExpireLeases(s), ids, lease)
    case CompleteStep(id, token, rows, model) => Complete(s, id, token, rows, model)
    case FailStep(id, token) => Fail(s, id, token)
    case ReindexStep => Reindex(s)
    case DeleteStep(id) => Delete(s, id)
    case TickStep(now) => s.(now := now)
    case DeployStep(model) => s.(model := model)
  }

  lemma CreateKeeps(s: State, id: Id, content: Text)
    requires Inv(s) && id !in s.items && id !in s.chunks
    ensures Inv(Create(s, id, content))
  {
    var t := Create(s, id, content);
    assert forall other :: other != id ==> (Live(t, other) <==> Live(s, other));
    assert forall other: Id, token: Token :: HasLease(t, other, token) ==> HasLease(s, other, token);
  }

  lemma ExpireKeeps(s: State)
    requires Inv(s)
    ensures Inv(ExpireLeases(s))
  {
    var t := ExpireLeases(s);
    assert forall id :: Live(t, id) <==> Live(s, id);
    assert forall id: Id, token: Token :: HasLease(t, id, token) ==> HasLease(s, id, token);
  }

  lemma LeaseOneKeeps(s: State, id: Id, lease: nat)
    requires Inv(s) && Claimable(s, id)
    ensures Inv(LeaseOne(s, id, lease))
  {
    var t := LeaseOne(s, id, lease);
    assert forall other :: Live(t, other) <==> Live(s, other);
    assert forall other: Id, token: Token :: HasLease(t, other, token) ==> HasLease(s, other, token) || (other == id && token == s.nextToken);
  }

  /** Leasing different claimable jobs one after the other leaves the others claimable. */
  lemma {:induction false} LeaseAllKeeps(s: State, ids: seq<Id>, lease: nat)
    requires Inv(s) && (forall id :: id in ids ==> id in s.jobs) && (forall id :: id in ids ==> Claimable(s, id))
    requires forall i, j :: 0 <= i < j < |ids| ==> ids[i] != ids[j]
    ensures Inv(LeaseAll(s, ids, lease))
    ensures forall id :: id !in ids ==> (Claimable(LeaseAll(s, ids, lease), id) <==> Claimable(s, id))
  {
    if ids != [] {
      var front, last := ids[..|ids| - 1], ids[|ids| - 1];
      LeaseAllKeeps(s, front, lease);
      LeaseOneKeeps(LeaseAll(s, front, lease), last, lease);
    }
  }

  lemma CompleteKeeps(s: State, id: Id, token: Token, rows: seq<StoredChunk>, model: Model)
    requires Inv(s)
    ensures Inv(Complete(s, id, token, rows, model))
  {
    var t := Complete(s, id, token, rows, model);
    assert forall other :: Live(t, other) <==> Live(s, other);
    assert forall other: Id, tok: Token :: HasLease(t, other, tok) ==> HasLease(s, other, tok);
  }

  lemma FailKeeps(s: State, id: Id, token: Token)
    requires Inv(s)
    ensures Inv(Fail(s, id, token))
  {
    var t := Fail(s, id, token);
    assert forall other :: Live(t, other) <==> Live(s, other);
    assert forall other: Id, tok: Token :: HasLease(t, other, tok) ==> HasLease(s, other, tok);
  }

  lemma ReindexKeeps(s: State)
    requires Inv(s)
    ensures Inv(Reindex(s))
  {
    var t := Reindex(s);
    forall id | Live(t, id) ensures RecordOk(t, id) {
      ReindexRecord(s, id);
    }
    forall id | id in t.jobs ensures Live(t, id) {
      assert NeedsReset(s, id) || id in s.jobs;
    }
    ReindexLeases(s);
  }

  lemma ReindexRecord(s: State, id: Id)
    requires Live(s, id) && RecordOk(s, id)
    ensures Live(Reindex(s), id) && RecordOk(Reindex(s), id)
  {
  }

  lemma ReindexLeases(s: State)
    ensures forall id: Id, token: Token :: HasLease(Reindex(s), id, token) ==> HasLease(s, id, token)
  {
  }

  lemma DeleteKeeps(s: State, id: Id)
    requires Inv(s)
    ensures Inv(Delete(s, id))
  {
    var t := Delete(s, id);
    assert forall other :: other != id ==> (Live(t, other) <==> Live(s, other));
    assert forall other: Id, token: Token :: HasLease(t, other, token) ==> HasLease(s, other, token);
  }

  lemma SameTablesKeep(s: State, t: State)
    requires Inv(s) && t.items == s.items && t.jobs == s.jobs && t.chunks == s.chunks && t.nextToken == s.nextToken
    ensures Inv(t)
  {
    assert forall id :: Live(t, id) <==> Live(s, id);
    assert forall id: Id, token: Token :: HasLease(t, id, token) <==> HasLease(s, id, token);
  }

  /** Every step keeps the tables in agreement. */
  lemma NextKeeps(s: State, step: Step)
    requires Inv(s) && Enabled(s, step)
    ensures Inv(Next(s, step))
  {
    match step
    case CreateStep(id, content) => CreateKeeps(s, id, content);
    case ClaimStep(ids, lease) =>
      ExpireKeeps(s);
      LeaseAllKeeps(ExpireLeases(s), ids, lease);
    case CompleteStep(id, token, rows, model) => CompleteKeeps(s, id, token, rows, model);
    case FailStep(id, token) => FailKeeps(s, id, token);
    case ReindexStep => ReindexKeeps(s);
    case DeleteStep(id) => DeleteKeeps(s, id);
    case TickStep(now) => SameTablesKeep(s, s.(now := now));
    case DeployStep(model) => SameTablesKeep(s, s.(model := model));
  }

  ghost predicate RunOk(s: State, steps: seq<Step>)
    decreases |steps|
  {
    steps == [] || (Enabled(s, steps[0]) && RunOk(Next(s, steps[0]), steps[1..]))
  }

  ghost function Run(s: State, steps: seq<Step>): State
    requires RunOk(s, steps)
    decreases |steps|
  {
    if steps == [] then s else Run(Next(s, steps[0]), steps[1..])
  }

  const EMPTY := State(map[], map[], map[], 0, 0, 0)

  /**
   * In every run from empty tables a live record has chunks exactly when it is indexed and a job exactly
   * when it is not, and its chunks are slices of its text.
   */
  lemma {:induction false} EveryRun(s: State, steps: seq<Step>)
    requires Inv(s) && RunOk(s, steps)
    ensures Inv(Run(s, steps))
    decreases |steps|
  {
    if steps != [] {
      NextKeeps(s, steps[0]);
      EveryRun(Next(s, steps[0]), steps[1..]);
    }
  }

  lemma EmptyStarts()
    ensures Inv(EMPTY)
  {
    assert forall id :: !Live(EMPTY, id);
  }

  /** Every live indexed record has chunks of the model now deployed. */
  predicate Current(s: State) {
    forall id :: id in s.chunks && Live(s, id) ==> s.chunks[id].model == s.model
  }

  /** The reset leaves no index of an older model. */
  lemma ReindexCurrent(s: State)
    requires Inv(s)
    ensures Current(Reindex(s))
  {
    forall id | id in Reindex(s).chunks && Live(Reindex(s), id) ensures Reindex(s).chunks[id].model == s.model {
      assert Live(s, id) && !NeedsReset(s, id);
    }
  }

  predicate KeepsModel(s: State, step: Step) { step.DeployStep? ==> step.model == s.model }

  lemma NextCurrent(s: State, step: Step)
    requires Inv(s) && Enabled(s, step) && Current(s) && KeepsModel(s, step)
    ensures Current(Next(s, step))
  {
    match step
    case ClaimStep(ids, lease) => LeaseAllSame(ExpireLeases(s), ids, lease);
    case ReindexStep => ReindexCurrent(s);
    case _ =>
  }

  lemma {:induction false} LeaseAllSame(s: State, ids: seq<Id>, lease: nat)
    requires forall id :: id in ids ==> id in s.jobs
    ensures LeaseAll(s, ids, lease).chunks == s.chunks && LeaseAll(s, ids, lease).model == s.model
    decreases |ids|
  {
    if ids != [] { LeaseAllSame(s, ids[..|ids| - 1], lease); }
  }

  ghost predicate Undeployed(s: State, steps: seq<Step>)
    requires RunOk(s, steps)
    decreases |steps|
  {
    steps != [] ==> KeepsModel(s, steps[0]) && Undeployed(Next(s, steps[0]), steps[1..])
  }

  /** After a reset, and until another model is deployed, every index is that of the deployed model. */
  lemma {:induction false} CurrentUntilDeploy(s: State, steps: seq<Step>)
    requires Inv(s) && Current(s) && RunOk(s, steps) && Undeployed(s, steps)
    ensures Current(Run(s, steps))
    decreases |steps|
  {
    if steps != [] {
      NextCurrent(s, steps[0]);
      NextKeeps(s, steps[0]);
      CurrentUntilDeploy(Next(s, steps[0]), steps[1..]);
    }
  }

  function One(b: bool): nat { if b then 1 else 0 }

  ghost predicate Claims(step: Step, id: Id) { step.ClaimStep? && id in step.ids }

  /** A step that puts the record back at the start of its life as a job. */
  ghost predicate Resets(s: State, step: Step, id: Id) {
    (step.ReindexStep? && NeedsReset(s, id)) || (step.CreateStep? && step.id == id)
  }

  lemma ClaimUsesUp(s: State, step: Step, id: Id)
    requires Inv(s) && Enabled(s, step) && !Resets(s, step, id)
    ensures One(Claims(step, id)) + One(Claimable(Next(s, step), id)) <= One(Claimable(s, id))
  {
    if step.ClaimStep? {
      var e := ExpireLeases(s);
      ExpireKeeps(s);
      LeaseAllKeeps(e, step.ids, step.lease);
      assert Claimable(e, id) ==> Claimable(s, id);
      if id in step.ids {
        ClaimedIsLeased(e, step.ids, step.lease, id);
      }
    }
  }

  lemma {:induction false} ClaimedIsLeased(s: State, ids: seq<Id>, lease: nat, id: Id)
    requires (forall i :: 0 <= i < |ids| ==> ids[i] in s.jobs) && id in ids
    ensures !Claimable(LeaseAll(s, ids, lease), id)
  {
    if ids[|ids| - 1] != id {
      ClaimedIsLeased(s, ids[..|ids| - 1], lease, id);
    }
  }

  ghost function ClaimCount(s: State, steps: seq<Step>, id: Id): nat
    requires RunOk(s, steps)
    decreases |steps|
  {
    if steps == [] then 0 else One(Claims(steps[0], id)) + ClaimCount(Next(s, steps[0]), steps[1..], id)
  }

  ghost predicate NeverReset(s: State, steps: seq<Step>, id: Id)
    requires RunOk(s, steps)
    decreases |steps|
  {
    steps == [] || (!Resets(s, steps[0], id) && NeverReset(Next(s, steps[0]), steps[1..], id))
  }

  /** Between two resets a record is handed to a worker at most once, however the steps interleave. */
  lemma {:induction false} ClaimedAtMostOnce(s: State, steps: seq<Step>, id: Id)
    requires Inv(s) && RunOk(s, steps) && NeverReset(s, steps, id)
    ensures ClaimCount(s, steps, id) <= One(Claimable(s, id))
    decreases |steps|
  {
    if steps != [] {
      ClaimUsesUp(s, steps[0], id);
      NextKeeps(s, steps[0]);
      ClaimedAtMostOnce(Next(s, steps[0]), steps[1..], id);
    }
  }

  lemma {:induction false} LeaseAllTokens(s: State, ids: seq<Id>, lease: nat, id: Id, token: Token)
    requires forall i :: 0 <= i < |ids| ==> ids[i] in s.jobs
    requires token < s.nextToken && !HasLease(s, id, token)
    ensures var t := LeaseAll(s, ids, lease); token < t.nextToken && !HasLease(t, id, token)
  {
    if ids != [] {
      LeaseAllTokens(s, ids[..|ids| - 1], lease, id, token);
    }
  }

  /** A token that is no longer current never becomes current again. */
  lemma LostTokenStep(s: State, step: Step, id: Id, token: Token)
    requires Inv(s) && Enabled(s, step) && token < s.nextToken && !HasLease(s, id, token)
    ensures var t := Next(s, step); token < t.nextToken && !HasLease(t, id, token)
  {
    if step.ClaimStep? {
      LeaseAllTokens(ExpireLeases(s), step.ids, step.lease, id, token);
    }
  }

  /** So after any further run a completion or a failure that carries it changes nothing. */
  lemma {:induction false} LostTokenIsPowerless(s: State, steps: seq<Step>, id: Id, token: Token, rows: seq<StoredChunk>, model: Model)
    requires Inv(s) && RunOk(s, steps) && token < s.nextToken && !HasLease(s, id, token)
    ensures var t := Run(s, steps); Complete(t, id, token, rows, model) == t && Fail(t, id, token) == t
    decreases |steps|
  {
    if steps != [] {
      LostTokenStep(s, steps[0], id, token);
      NextKeeps(s, steps[0]);
      LostTokenIsPowerless(Next(s, steps[0]), steps[1..], id, token, rows, model);
    }
  }

  /** Expiry, completion, failure, reset and deletion each take the token away. */
  lemma TokenIsLost(s: State, id: Id, token: Token)
    requires Inv(s) && HasLease(s, id, token)
    ensures forall rows, model: Model ::
              CompleteOutcome(s, id, token, rows, model) == Completed ==> !HasLease(Complete(s, id, token, rows, model), id, token)
    ensures !HasLease(Fail(s, id, token), id, token)
    ensures Expired(s, id) ==> !HasLease(ExpireLeases(s), id, token)
    ensures !HasLease(Reindex(s), id, token) && !HasLease(Delete(s, id), id, token)
  {
    assert Live(s, id) && RecordOk(s, id);
  }

  datatype ClaimedJob = ClaimedJob(id: Id, token: Token, content: Text)

  /** The jobs one claim hands out: each with a token of its own and the text to embed. */
  function Handed(s: State, ids: seq<Id>): (r: seq<ClaimedJob>)
    requires forall id :: id in ids ==> id in s.items
    ensures |r| == |ids|
    ensures forall i :: 0 <= i < |ids| ==> r[i] == ClaimedJob(ids[i], s.nextToken + i, s.items[ids[i]].content)
  {
    if ids == [] then []
    else
      var last := ids[|ids| - 1];
      Handed(s, ids[..|ids| - 1]) + [ClaimedJob(last, s.nextToken + |ids| - 1, s.items[last].content)]
  }

  // What each step does to a record, and that it leaves every other one alone

  predicate SameRecord(s: State, t: State, id: Id) {
    && (id in s.items <==> id in t.items) && (id in s.items ==> s.items[id] == t.items[id])
    && (id in s.jobs <==> id in t.jobs) && (id in s.jobs ==> s.jobs[id] == t.jobs[id])
    && (id in s.chunks <==> id in t.chunks) && (id in s.chunks ==> s.chunks[id] == t.chunks[id])
  }

  ghost predicate OnlyRecord(s: State, t: State, id: Id) {
    && (forall other: Id :: other != id ==> SameRecord(s, t, other))
    && t.model == s.model && t.now == s.now && t.nextToken == s.nextToken
  }

  predicate IsQueued(s: State, id: Id) {
    && id in s.items && s.items[id].status == Pending && !s.items[id].deleted && id !in s.chunks
    && id in s.jobs && s.jobs[id].status == Waiting && s.jobs[id].attempts == 0
  }

  predicate IsIndexed(s: State, id: Id, rows: seq<StoredChunk>) {
    && id in s.items && s.items[id].status == Indexed && !s.items[id].deleted && id !in s.jobs
    && id in s.chunks && s.chunks[id] == ChunkSet(rows, s.model)
  }

  predicate HasFailed(s: State, id: Id) {
    && id in s.items && s.items[id].status == Failed && !s.items[id].deleted && id !in s.chunks
    && id in s.jobs && s.jobs[id].status == Dead
  }

  predicate SameContent(s: State, t: State, id: Id) {
    id in s.items && id in t.items && t.items[id].content == s.items[id].content
  }

  lemma CreatedIsQueued(s: State, id: Id, content: Text)
    requires id !in s.items && id !in s.chunks
    ensures var t := Create(s, id, content);
            IsQueued(t, id) && t.items[id].content == content && t.jobs[id].created == s.now && OnlyRecord(s, t, id)
  {
  }

  /** A completion is accepted exactly for rows of the deployed model that fit the text of a record whose lease is held. */
  lemma CompletedExactly(s: State, id: Id, token: Token, rows: seq<StoredChunk>, model: Model)
    requires Inv(s)
    ensures CompleteOutcome(s, id, token, rows, model) == Completed <==>
              HasLease(s, id, token) && model == s.model && WellOrdered(rows) && SlicesOf(s.items[id].content, rows)
    ensures CompleteOutcome(s, id, token, rows, model) != Completed ==> Complete(s, id, token, rows, model) == s
  {
    assert HasLease(s, id, token) ==> Live(s, id);
  }

  /** And then those rows are the record's index, and its job is done. */
  lemma CompletedIsIndexed(s: State, id: Id, token: Token, rows: seq<StoredChunk>, model: Model)
    requires CompleteOutcome(s, id, token, rows, model) == Completed
    ensures var t := Complete(s, id, token, rows, model);
            IsIndexed(t, id, rows) && SameContent(s, t, id) && OnlyRecord(s, t, id)
  {
    var t := Complete(s, id, token, rows, model);
    assert t.chunks == s.chunks[id := ChunkSet(rows, model)] && t.jobs == s.jobs - {id};
    assert t.items == s.items[id := s.items[id].(status := Indexed)];
    OthersSame(s, t, id);
  }

  lemma OthersSame(s: State, t: State, id: Id)
    requires id in s.items && id in t.items && id in t.chunks && t.model == s.model && t.now == s.now && t.nextToken == s.nextToken
    requires t.items == s.items[id := t.items[id]] && t.chunks == s.chunks[id := t.chunks[id]] && t.jobs == s.jobs - {id}
    ensures OnlyRecord(s, t, id)
  {
  }

  lemma FailedIsDropped(s: State, id: Id, token: Token)
    requires Inv(s)
    ensures var t := Fail(s, id, token);
            if HasLease(s, id, token) then HasFailed(t, id) && SameContent(s, t, id) && OnlyRecord(s, t, id) else t == s
  {
    assert HasLease(s, id, token) ==> Live(s, id) && RecordOk(s, id);
  }

  /** A lease that is over fails its record; nothing else expires. */
  lemma ExpiredHaveFailed(s: State, id: Id)
    requires Inv(s)
    ensures var t := ExpireLeases(s);
            if id in s.jobs && s.jobs[id].status.Leased? && s.jobs[id].status.expires < s.now
            then HasFailed(t, id) && SameContent(s, t, id)
            else SameRecord(s, t, id)
  {
    assert id in s.jobs ==> Live(s, id) && RecordOk(s, id);
  }

  /** The `i`-th job of a claim is leased to the caller under the token it is handed out with, until the lease is over. */
  lemma {:induction false} ClaimedAreLeased(s: State, ids: seq<Id>, lease: nat, i: nat)
    requires i < |ids| && (forall id :: id in ids ==> id in s.jobs && id in s.items)
    requires forall j, k :: 0 <= j < k < |ids| ==> ids[j] != ids[k]
    ensures LeaseAll(s, ids, lease).jobs[ids[i]] ==
            s.jobs[ids[i]].(status := Leased(s.nextToken + i, s.now + lease), attempts := 1)
    decreases |ids|
  {
    var front := ids[..|ids| - 1];
    if i < |front| {
      ClaimedAreLeased(s, front, lease, i);
      assert ids[|ids| - 1] != ids[i] && front[i] == ids[i];
    } else {
      LeaseCounts(s, front, lease);
      assert ids[i] !in front;
    }
  }

  lemma {:induction false} LeaseCounts(s: State, ids: seq<Id>, lease: nat)
    requires forall id :: id in ids ==> id in s.jobs && id in s.items
    ensures LeaseAll(s, ids, lease).nextToken == s.nextToken + |ids| && LeaseAll(s, ids, lease).now == s.now
    ensures forall id :: id in s.jobs && id !in ids ==> LeaseAll(s, ids, lease).jobs[id] == s.jobs[id]
    decreases |ids|
  {
    if ids != [] { LeaseCounts(s, ids[..|ids| - 1], lease); }
  }

  lemma OthersUnclaimed(s: State, ids: seq<Id>, lease: nat, other: Id)
    requires (forall id :: id in ids ==> id in s.jobs && id in s.items) && other !in ids
    ensures SameRecord(s, LeaseAll(s, ids, lease), other)
  {
    LeaseCounts(s, ids, lease);
    LeaseAllSame(s, ids, lease);
  }

  /** A claim takes the newest waiting jobs: a queued record is handed out, or as many as asked are, none of them older. */
  lemma NewestAreHandedOut(s: State, limit: nat, ids: seq<Id>, id: Id)
    requires Selected(s, limit, ids) && IsQueued(s, id)
    ensures id in ids || (|ids| == limit && forall i :: 0 <= i < |ids| ==> s.jobs[ids[i]].created >= s.jobs[id].created)
  {
  }

  /** The reset queues every live record that is not indexed by the deployed model, and leaves all others alone. */
  lemma ReindexQueues(s: State, id: Id)
    requires Inv(s)
    ensures var t := Reindex(s);
            if Live(s, id) && (s.items[id].status != Indexed || s.chunks[id].model != s.model)
            then IsQueued(t, id) && SameContent(s, t, id) && (id in s.jobs ==> t.jobs[id].created == s.jobs[id].created)
            else SameRecord(s, t, id)
  {
    assert Live(s, id) ==> RecordOk(s, id);
  }

  lemma DeletedIsHidden(s: State, id: Id)
    requires Inv(s)
    ensures var t := Delete(s, id);
            if Live(s, id)
            then !Live(t, id) && SameContent(s, t, id) && t.items[id].status == s.items[id].status
                 && id !in t.jobs && t.chunks == s.chunks && OnlyRecord(s, t, id)
            else t == s
  {
  }

  lemma ClaimedHolds(s: State, ids: seq<Id>, lease: nat, limit: nat, i: nat)
    requires Inv(s) && Selected(ExpireLeases(s), limit, ids) && i < |ids|
    ensures forall id :: id in ids ==> id in ExpireLeases(s).jobs && id in ExpireLeases(s).items
    ensures var e := ExpireLeases(s);
            var t := LeaseAll(e, ids, lease);
            HasLease(t, ids[i], Handed(e, ids)[i].token) && SameContent(s, t, ids[i]) && t.items == e.items
  {
    ExpireKeeps(s);
    var e := ExpireLeases(s);
    forall id | id in ids ensures id in e.jobs && id in e.items {
      assert Claimable(e, id);
    }
    ClaimedAreLeased(e, ids, lease, i);
    assert Handed(e, ids)[i].token == e.nextToken + i;
  }

  /** From the queue to the index: a record that is claimed and completed with rows of its text ends indexed by them. */
  lemma ClaimedGetsIndexed(s: State, ids: seq<Id>, lease: nat, limit: nat, i: nat, rows: seq<StoredChunk>)
    requires Inv(s) && Selected(ExpireLeases(s), limit, ids) && i < |ids| && ids[i] in s.items
    requires WellOrdered(rows) && SlicesOf(s.items[ids[i]].content, rows)
    ensures (forall id :: id in ids ==> id in ExpireLeases(s).jobs && id in ExpireLeases(s).items)
    ensures var e := ExpireLeases(s);
            var t, job := LeaseAll(e, ids, lease), Handed(e, ids)[i];
            job.id == ids[i] && job.content == s.items[ids[i]].content
            && IsIndexed(Complete(t, job.id, job.token, rows, t.model), job.id, rows)
  {
    ClaimedHolds(s, ids, lease, limit, i);
    var e := ExpireLeases(s);
    var t, job := LeaseAll(e, ids, lease), Handed(e, ids)[i];
    assert Enabled(s, ClaimStep(ids, lease));
    NextKeeps(s, ClaimStep(ids, lease));
    CompletedExactly(t, job.id, job.token, rows, t.model);
    CompletedIsIndexed(t, job.id, job.token, rows, t.model);
  }

  predicate IsFirst(s: State, ids: set<Id>, first: Id)
    requires first in ids && ids <= s.jobs.Keys
  {
    forall id :: id in ids && id != first ==> Before(s, first, id)
  }

  lemma FirstIs(s: State, ids: set<Id>, first: Id)
    requires first in ids && ids <= s.jobs.Keys && IsFirst(s, ids, first)
    ensures forall id :: id in ids && id != first ==> Before(s, first, id)
  {
  }

  lemma {:induction false} FirstExists(s: State, ids: set<Id>) returns (first: Id)
    requires ids != {} && ids <= s.jobs.Keys
    ensures first in ids && forall id :: id in ids && id != first ==> Before(s, first, id)
  {
    var some :| some in ids;
    assert forall id :: id in ids && id != some ==> id in ids - {some};
    if ids == {some} {
      first := some;
    } else {
      var rest := FirstExists(s, ids - {some});
      assert rest in ids && rest != some;
      first := if Before(s, some, rest) then some else rest;
    }
  }

  /** Part of a selection: `ids` in order, everything else claimable in `rest` and behind them. */
  ghost predicate Selecting(s: State, ids: seq<Id>, rest: set<Id>) {
    && (forall id :: id in rest ==> Claimable(s, id))
    && (forall id :: Claimable(s, id) ==> id in ids || id in rest)
    && (forall i :: 0 <= i < |ids| ==> Claimable(s, ids[i]))
    && (forall i, j :: 0 <= i < j < |ids| ==> Before(s, ids[i], ids[j]))
    && (forall i, id :: 0 <= i < |ids| && id in rest ==> Before(s, ids[i], id))
  }

  lemma SelectStep(s: State, ids: seq<Id>, rest: set<Id>, first: Id)
    requires Selecting(s, ids, rest) && first in rest
    requires forall id :: id in rest && id != first ==> Before(s, first, id)
    ensures Selecting(s, ids + [first], rest - {first})
  {
  }

  class IndexStore {
    var items: map<Id, Item>
    var jobs: map<Id, Job>
    var chunks: map<Id, ChunkSet>
    var model: Model
    var now: int
    var nextToken: Token

    ghost function Now(): State
      reads this
    {
      State(items, jobs, chunks, model, now, nextToken)
    }

    method Expire()
      modifies this`items, this`jobs
      ensures Now() == ExpireLeases(old(Now()))
    {
      var expired := set id | id in jobs && jobs[id].status.Leased? && jobs[id].status.expires < now;
      jobs := map id | id in jobs :: if id in expired then jobs[id].(status := Dead) else jobs[id];
      items := map id | id in items ::
        if id in expired && !items[id].deleted then items[id].(status := Failed) else items[id];
    }

    method FirstOf(ids: set<Id>) returns (first: Id)
      requires ids != {} && ids <= jobs.Keys
      ensures first in ids && forall id :: id in ids && id != first ==> Before(Now(), first, id)
    {
      var s := State(items, jobs, chunks, model, now, nextToken);
      ghost var least := FirstExists(s, ids);
      assert IsFirst(s, ids, least);
      first :| first in ids && IsFirst(s, ids, first);
      FirstIs(s, ids, first);
    }

    method SelectJobs(limit: nat) returns (ids: seq<Id>)
      ensures Selected(Now(), limit, ids)
    {
      var rest := set id | id in jobs && id in items && !items[id].deleted && jobs[id].status == Waiting && jobs[id].attempts == 0;
      ids := [];
      while |ids| < limit && rest != {}
        invariant |ids| <= limit && Selecting(Now(), ids, rest)
        decreases rest
      {
        var id := FirstOf(rest);
        SelectStep(Now(), ids, rest, id);
        ids := ids + [id];
        rest := rest - {id};
      }
    }

    method LeaseJob(id: Id, lease: nat) returns (token: Token)
      requires id in jobs
      modifies this`jobs, this`nextToken
      ensures Now() == LeaseOne(old(Now()), id, lease) && token == old(nextToken)
    {
      token := nextToken;
      jobs := jobs[id := jobs[id].(status := Leased(token, now + lease), attempts := 1)];
      nextToken := nextToken + 1;
    }

    method LeaseJobs(ids: seq<Id>, lease: nat) returns (claimed: seq<ClaimedJob>)
      requires (forall id :: id in ids ==> id in jobs) && (forall id :: id in ids ==> id in items)
      modifies this`jobs, this`nextToken
      ensures Now() == LeaseAll(old(Now()), ids, lease) && claimed == Handed(old(Now()), ids)
    {
      claimed := [];
      for i := 0 to |ids|
        invariant Now() == LeaseAll(old(Now()), ids[..i], lease) && nextToken == old(nextToken) + i
        invariant claimed == Handed(old(Now()), ids[..i])
      {
        assert ids[..i + 1][..i] == ids[..i] && ids[i] in ids;
        var token := LeaseJob(ids[i], lease);
        claimed := claimed + [ClaimedJob(ids[i], token, items[ids[i]].content)];
      }
      assert ids[..|ids|] == ids;
    }

    /** Expires old leases, then leases the newest waiting jobs of live records. */
    method Claim(limit: int, lease: int) returns (valid: bool, claimed: seq<ClaimedJob>, ghost ids: seq<Id>)
      modifies this
      ensures valid <==> limit >= 1 && lease >= 1
      ensures !valid ==> Now() == old(Now()) && claimed == []
      ensures valid ==>
                && (forall id :: id in ids ==> id in ExpireLeases(old(Now())).jobs && id in ExpireLeases(old(Now())).items)
                && Selected(ExpireLeases(old(Now())), limit, ids)
                && Now() == LeaseAll(ExpireLeases(old(Now())), ids, lease)
                && claimed == Handed(ExpireLeases(old(Now())), ids)
    {
      valid, claimed, ids := limit >= 1 && lease >= 1, [], [];
      if valid {
        Expire();
        var selected := SelectJobs(limit);
        assert forall id :: id in selected ==> Claimable(Now(), id);
        claimed := LeaseJobs(selected, lease);
        ids := selected;
      }
    }

    method CompleteJob(id: Id, token: Token, rows: seq<StoredChunk>, modelVersion: Model) returns (r: CompleteResult)
      requires Inv(Now())
      modifies this
      ensures r == old(CompleteOutcome(Now(), id, token, rows, modelVersion))
      ensures Now() == Complete(old(Now()), id, token, rows, modelVersion)
    {
      if modelVersion != model || !WellOrdered(rows) {
        return ChunksInvalid;
      }
      if id !in items || items[id].deleted || id !in jobs || !jobs[id].status.Leased? || jobs[id].status.token != token {
        return Stale;
      }
      if !SlicesOf(items[id].content, rows) {
        return ChunksInvalid;
      }
      r := Completed;
      StoreChunks(id, rows, modelVersion);
    }

    /** The writes of a completion: the old chunks go, the new ones come, the job ends. */
    method StoreChunks(id: Id, rows: seq<StoredChunk>, modelVersion: Model)
      requires id in items
      modifies this`chunks, this`items, this`jobs
      ensures chunks == old(chunks)[id := ChunkSet(rows, modelVersion)]
      ensures items == old(items)[id := old(items)[id].(status := Indexed)] && jobs == old(jobs) - {id}
    {
      chunks := chunks - {id};
      chunks := chunks[id := ChunkSet(rows, modelVersion)];
      items := items[id := items[id].(status := Indexed)];
      jobs := jobs - {id};
    }

    method FailJob(id: Id, token: Token) returns (stale: bool)
      modifies this
      ensures stale == !old(HasLease(Now(), id, token)) && Now() == Fail(old(Now()), id, token)
    {
      stale := id !in jobs || !jobs[id].status.Leased? || jobs[id].status.token != token;
      if !stale {
        jobs := jobs[id := jobs[id].(status := Dead)];
        if id in items && !items[id].deleted {
          items := items[id := items[id].(status := Failed)];
        }
        chunks := chunks - {id};
      }
    }

    method ReindexAll() returns (queued: nat)
      modifies this
      ensures Now() == Reindex(old(Now()))
      ensures queued == |set id | id in old(items) && NeedsReset(old(Now()), id)|
    {
      var reset := set id | id in items && !items[id].deleted &&
        (items[id].status != Indexed || id !in chunks || chunks[id].model != model);
      ghost var s := Now();
      assert reset == set id | id in s.items && NeedsReset(s, id);
      queued := |reset|;
      chunks := chunks - reset;
      items := map id | id in items :: if id in reset then items[id].(status := Pending) else items[id];
      jobs := map id | id in jobs.Keys + reset ::
        if id !in reset then jobs[id]
        else if id in jobs then jobs[id].(status := Waiting, attempts := 0)
        else Job(Waiting, 0, now);
    }

    /** The row is hidden, not removed, and its job goes. */
    method SoftDelete(id: Id)
      modifies this
      ensures Now() == Delete(old(Now()), id)
    {
      if id in items && !items[id].deleted {
        items := items[id := items[id].(deleted := true)];
        jobs := jobs - {id};
      }
    }
  }
}
