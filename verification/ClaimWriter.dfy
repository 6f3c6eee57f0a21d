/** Claim transactions of memory-claim-writer.ts, interleaved. */
module ClaimWriter {
  // Any number of callers interleave the transactions around the attempt table, with crashes, lease expiry,
  // deletion and other mutations in between.

  import opened ThreadAttempts
  import opened Wrappers

  type Id = nat
  type CallId = nat

  /** A row of the operation ledger; it loses its claim when the claim is purged. */
  datatype Op = Op(create: bool, hash: nat, claim: Option<Id>)

  /** `live` holds every stored claim, with false for a soft-deleted one. */
  datatype World = World(rows: Table, ops: map<Key, Op>, live: map<Id, bool>, now: int, nextToken: Token)

  datatype Existing = NotYet | Stored(id: Id) | Failed(error: Error)

  /** `MustRelease` is an error after a full rollback, with the release still to come in its own transaction. */
  datatype Reply =
    | Replayed(id: Id) | Committed(id: Id) | Refusal(error: Error) | Admitted(reservation: Reservation)
    | MustRelease(error: Error)

  /**
   * What the claim transaction meets: a membership that was revoked, before everything else; or, between its
   * checks and its commit, threads of a like title, an error that may come after a claim was written, or
   * success. A written claim may be a reinforced one.
   */
  datatype Body = Denied | FoundCandidates(found: seq<Thread>) | Broke(written: Option<Id>) | Wrote(id: Id)

  datatype Action = Attaches(ref: ThreadRef) | Plain

  function ExistingCreate(w: World, q: Request): Existing {
    if q.key !in w.ops then NotYet
    else
      var op := w.ops[q.key];
      if !op.create || op.hash != q.hash then Failed(ReplayMismatch)
      else if op.claim.None? || op.claim.value !in w.live || !w.live[op.claim.value] then Failed(ReplayCompleted)
      else Stored(op.claim.value)
  }

  // Before the title is embedded

  function PreflightReply(w: World, q: Request, evidence: bool): Reply {
    match ExistingCreate(w, q)
    case Stored(id) => Replayed(id)
    case Failed(error) => Refusal(error)
    case NotYet =>
      if Replay(w.rows, q, w.now) != Fine then Refusal(Replay(w.rows, q, w.now).error)
      else if !evidence then Refusal(OtherError)
      else if ReserveCheck(w.rows, q, w.now) != Fine then Refusal(ReserveCheck(w.rows, q, w.now).error)
      else Admitted(Reservation(ReserveNumber(w.rows, q, w.now), w.nextToken, q.key))
  }

  function Preflight(w: World, q: Request, evidence: bool): World {
    if PreflightReply(w, q, evidence).Admitted?
    then w.(rows := Reserve(w.rows, q, w.nextToken, w.now), nextToken := w.nextToken + 1)
    else w
  }

  // The claim transaction

  function Commit(w: World, q: Request, id: Id): World {
    w.(ops := w.ops[q.key := Op(true, q.hash, Some(id))], live := w.live[id := true])
  }

  function WriteReply(w: World, q: Request, res: Reservation, body: Body): Reply {
    if body.Denied? then MustRelease(OtherError)
    else match ExistingCreate(w, q)
    case Stored(id) => Replayed(id)
    case Failed(error) => MustRelease(error)
    case NotYet =>
      if Require(w.rows, q, res) != Fine then MustRelease(Require(w.rows, q, res).error)
      else match body
        case FoundCandidates(found) =>
          if RecordCheck(w.rows, res, found) != Fine then Refusal(StateInvalid) else Refusal(CandidateExists(found))
        case Broke(_) => Refusal(OtherError)
        case Denied => MustRelease(OtherError)
        case Wrote(id) => if CompleteCheck(w.rows, res) != Fine then Refusal(StateInvalid) else Committed(id)
  }

  /** A claim that broke is undone to the savepoint and its reservation ends with the same commit. */
  function Write(w: World, q: Request, res: Reservation, body: Body): World {
    match WriteReply(w, q, res, body)
    case Replayed(_) => w.(rows := Release(w.rows, res))
    case MustRelease(_) => w
    case Committed(id) => Commit(w, q, id).(rows := Complete(w.rows, res))
    case _ =>
      match body
      case FoundCandidates(found) => w.(rows := Record(w.rows, res, found))
      case _ => w.(rows := Release(w.rows, res))
  }

  function DirectReply(w: World, q: Request, action: Action, body: Body): Reply {
    if body.Denied? then Refusal(OtherError)
    else match ExistingCreate(w, q)
    case Stored(id) => Replayed(id)
    case Failed(error) => Refusal(error)
    case NotYet =>
      if action.Attaches? && BeginAttachCheck(w.rows, q.source, action.ref) != Fine
      then Refusal(BeginAttachCheck(w.rows, q.source, action.ref).error)
      else if body.Wrote? then Committed(body.id)
      else Refusal(OtherError)
  }

  function WriteDirect(w: World, q: Request, action: Action, body: Body): World {
    match DirectReply(w, q, action, body)
    case Committed(id) =>
      var c := Commit(w, q, id);
      if action.Attaches? && ResolvesCandidate(w.rows, q.source) then c.(rows := CompleteAttach(w.rows, q.source)) else c
    case _ => w
  }

  // Callers and their interleaving

  /** A thread-creating call between its transactions. */
  datatype Call =
    | Holding(q: Request, res: Reservation)
    | RolledBack(q: Request, res: Reservation)

  datatype Committing = Committing(key: Key, id: Id)

  datatype Machine = Machine(w: World, calls: map<CallId, Call>, log: seq<Committing>)

  datatype Step =
    | PreflightStep(call: CallId, q: Request, evidence: bool)
    | EmbeddingFails(call: CallId)
    | WriteStep(call: CallId, body: Body)
    | ReleaseStep(call: CallId)
    | Crash(call: CallId)  // also an error outside the release paths, as from embedding the content
    | DirectStep(q: Request, action: Action, body: Body)
    | OtherMutation(key: Key, hash: nat, id: Id)
    | SoftDelete(id: Id)
    | Purge(id: Id)
    | Tick(now: int)

  /** An inserted claim is new, a reinforced one lives. */
  predicate Writable(w: World, body: Body) { body.Wrote? && body.id in w.live ==> w.live[body.id] }

  predicate Enabled(m: Machine, step: Step) {
    match step
    case PreflightStep(call, _, _) => call !in m.calls
    case EmbeddingFails(call) => call in m.calls && m.calls[call].Holding?
    case WriteStep(call, body) => call in m.calls && m.calls[call].Holding? && Writable(m.w, body)
    case ReleaseStep(call) => call in m.calls && m.calls[call].RolledBack?
    case Crash(call) => call in m.calls
    case DirectStep(_, _, body) => Writable(m.w, body)
    case OtherMutation(key, _, id) => key !in m.w.ops && id in m.w.live
    case SoftDelete(id) => id in m.w.live
    case Purge(id) => id in m.w.live && !m.w.live[id]
    case Tick(now) => m.w.now <= now
  }

  function Forget(ops: map<Key, Op>, id: Id): map<Key, Op> {
    map k | k in ops :: if ops[k].claim == Some(id) then ops[k].(claim := None) else ops[k]
  }

  function Logged(log: seq<Committing>, key: Key, reply: Reply): seq<Committing> {
    if reply.Committed? then log + [Committing(key, reply.id)] else log
  }

  function Next(m: Machine, step: Step): Machine
    requires Enabled(m, step)
  {
    match step
    case PreflightStep(call, q, evidence) =>
      var reply := PreflightReply(m.w, q, evidence);
      m.(w := Preflight(m.w, q, evidence),
         calls := if reply.Admitted? then m.calls[call := Holding(q, reply.reservation)] else m.calls)
    case EmbeddingFails(call) =>
      m.(w := m.w.(rows := Release(m.w.rows, m.calls[call].res)), calls := m.calls - {call})
    case WriteStep(call, body) =>
      var c := m.calls[call];
      var reply := WriteReply(m.w, c.q, c.res, body);
      Machine(Write(m.w, c.q, c.res, body),
              if reply.MustRelease? then m.calls[call := RolledBack(c.q, c.res)] else m.calls - {call},
              Logged(m.log, c.q.key, reply))
    case ReleaseStep(call) =>
      m.(w := m.w.(rows := Release(m.w.rows, m.calls[call].res)), calls := m.calls - {call})
    case Crash(call) => m.(calls := m.calls - {call})
    case DirectStep(q, action, body) =>
      m.(w := WriteDirect(m.w, q, action, body), log := Logged(m.log, q.key, DirectReply(m.w, q, action, body)))
    case OtherMutation(key, hash, id) => m.(w := m.w.(ops := m.w.ops[key := Op(false, hash, Some(id))]))
    case SoftDelete(id) => m.(w := m.w.(live := m.w.live[id := false]))
    case Purge(id) => m.(w := m.w.(live := m.w.live - {id}, ops := Forget(m.w.ops, id)))
    case Tick(now) => m.(w := m.w.(now := now))
  }

  // The invariant

  /** A reservation that still holds is that of its own request. */
  predicate CallOk(w: World, c: Call) {
    && c.res.key == c.q.key
    && c.res.token < w.nextToken
    && (Holds(w.rows, c.res) ==>
          && w.rows[c.res.key].number == c.res.number
          && RequireSameRequest(w.rows[c.res.key], c.q) == Fine)
  }

  predicate OwnToken(m: Machine, a: CallId, b: CallId)
    requires a in m.calls && b in m.calls
  {
    m.calls[a].res.token == m.calls[b].res.token ==> a == b
  }

  /** A used-up retry is that of a committed operation. */
  predicate UsedUp(w: World, k: Key)
    requires k in w.rows
  {
    w.rows[k].status.Completed? ==> k in w.ops && w.ops[k].create && w.ops[k].hash == w.rows[k].hash
  }

  predicate LogOk(w: World, log: seq<Committing>, i: nat)
    requires i < |log|
  {
    && log[i].key in w.ops
    && w.ops[log[i].key].create
    && (w.ops[log[i].key].claim == None || w.ops[log[i].key].claim == Some(log[i].id))
  }

  predicate Distinct(log: seq<Committing>) { forall i, j :: 0 <= i < j < |log| ==> log[i].key != log[j].key }

  predicate Stores(w: World, k: Key)
    requires k in w.ops
  {
    w.ops[k].claim.Some? ==> w.ops[k].claim.value in w.live
  }

  ghost predicate MInv(m: Machine) {
    && Inv(m.w.rows, m.w.nextToken)
    && (forall c {:trigger CallOk(m.w, m.calls[c])} :: c in m.calls ==> CallOk(m.w, m.calls[c]))
    && (forall a, b {:trigger OwnToken(m, a, b)} :: a in m.calls && b in m.calls ==> OwnToken(m, a, b))
    && (forall k {:trigger UsedUp(m.w, k)} :: k in m.w.rows ==> UsedUp(m.w, k))
    && (forall i {:trigger LogOk(m.w, m.log, i)} :: 0 <= i < |m.log| ==> LogOk(m.w, m.log, i))
    && (forall k {:trigger Stores(m.w, k)} :: k in m.w.ops ==> Stores(m.w, k))
    && Distinct(m.log)
  }

  /** What a step may do to the table: a pending row appears under a fresh token only, and tokens do not return. */
  ghost predicate RowsStep(w: World, v: World) {
    && w.nextToken <= v.nextToken
    && Inv(v.rows, v.nextToken)
    && (forall k {:trigger k in v.rows} :: k in v.rows ==>
          || (k in w.rows && w.rows[k] == v.rows[k])
          || (v.rows[k].status.Pending? && w.nextToken <= v.rows[k].status.token)
          || (k in w.rows && SameButStatus(w.rows[k], v.rows[k]) && !v.rows[k].status.Pending?))
  }

  predicate SameButStatus(a: Row, b: Row) { a.(status := b.status) == b }

  lemma ReleaseRows(w: World, res: Reservation)
    requires Inv(w.rows, w.nextToken)
    ensures RowsStep(w, w.(rows := Release(w.rows, res)))
  {
    ReleaseKeeps(w.rows, w.nextToken, res);
  }

  lemma PreflightRows(w: World, q: Request, evidence: bool)
    requires Inv(w.rows, w.nextToken)
    ensures RowsStep(w, Preflight(w, q, evidence))
    ensures var reply := PreflightReply(w, q, evidence); reply.Admitted? ==>
              CallOk(Preflight(w, q, evidence), Holding(q, reply.reservation))
  {
    if PreflightReply(w, q, evidence).Admitted? {
      ReserveKeeps(w.rows, w.nextToken, q, w.now);
    }
  }

  lemma WriteRows(w: World, c: Call, body: Body)
    requires Inv(w.rows, w.nextToken) && CallOk(w, c)
    ensures RowsStep(w, Write(w, c.q, c.res, body))
  {
    ReleaseKeeps(w.rows, w.nextToken, c.res);
    CompleteKeeps(w.rows, w.nextToken, c.res);
    if body.FoundCandidates? { RecordKeeps(w.rows, w.nextToken, c.res, body.found); }
  }

  lemma DirectRows(w: World, q: Request, action: Action, body: Body)
    requires Inv(w.rows, w.nextToken)
    ensures RowsStep(w, WriteDirect(w, q, action, body))
  {
    if DirectReply(w, q, action, body).Committed? && action.Attaches? {
      CompleteAttachKeeps(w.rows, w.nextToken, q.source, action.ref);
    }
  }

  lemma NextRows(m: Machine, step: Step)
    requires MInv(m) && Enabled(m, step)
    ensures RowsStep(m.w, Next(m, step).w)
  {
    match step
    case PreflightStep(_, q, evidence) => PreflightRows(m.w, q, evidence);
    case EmbeddingFails(call) => ReleaseRows(m.w, m.calls[call].res);
    case WriteStep(call, body) => WriteRows(m.w, m.calls[call], body);
    case ReleaseStep(call) => ReleaseRows(m.w, m.calls[call].res);
    case DirectStep(q, action, body) => DirectRows(m.w, q, action, body);
    case _ =>
  }

  /** A call keeps its standing through any step that is not its own. */
  lemma CallStays(w: World, v: World, c: Call)
    requires CallOk(w, c) && RowsStep(w, v)
    ensures CallOk(v, c)
    ensures Holds(v.rows, c.res) ==> Holds(w.rows, c.res)
  {
  }

  lemma NextCalls(m: Machine, step: Step)
    requires MInv(m) && Enabled(m, step)
    ensures var n := Next(m, step);
            && (forall c :: c in n.calls ==> CallOk(n.w, n.calls[c]))
            && (forall a, b :: a in n.calls && b in n.calls ==> OwnToken(n, a, b))
  {
    var n := Next(m, step);
    NextRows(m, step);
    if step.PreflightStep? { PreflightRows(m.w, step.q, step.evidence); }
    forall c | c in n.calls ensures CallOk(n.w, n.calls[c]) {
      if c in m.calls {
        assert CallOk(m.w, m.calls[c]);
        CallStays(m.w, n.w, m.calls[c]);
      }
    }
    forall a, b | a in n.calls && b in n.calls ensures OwnToken(n, a, b) {
      if a in m.calls && b in m.calls { assert OwnToken(m, a, b); }
      if a in m.calls { assert CallOk(m.w, m.calls[a]); }
      if b in m.calls { assert CallOk(m.w, m.calls[b]); }
    }
  }

  /** What a step may do to the ledger: add a new operation, or forget a purged claim. */
  ghost predicate OpsStep(m: Machine, n: Machine) {
    && (forall k :: k in m.w.ops ==> k in n.w.ops && OpStays(m.w.ops[k], n.w.ops[k]))
    && (forall k :: k in n.w.ops ==> Stores(n.w, k))
    && (|| n.log == m.log
        || exists k, id :: n.log == m.log + [Committing(k, id)] && k !in m.w.ops && k in n.w.ops && IsCreate(n.w.ops[k], id))
  }

  predicate OpStays(a: Op, b: Op) { b == a || b == a.(claim := None) }

  predicate IsCreate(op: Op, id: Id) { op.create && op.claim == Some(id) }

  lemma CommitOps(m: Machine, n: Machine, q: Request, id: Id)
    requires MInv(m) && q.key !in m.w.ops
    requires n.w.ops == Commit(m.w, q, id).ops && n.w.live == Commit(m.w, q, id).live
    requires n.log == m.log + [Committing(q.key, id)]
    ensures OpsStep(m, n)
  {
    forall k | k in n.w.ops ensures Stores(n.w, k) {
      if k != q.key { assert Stores(m.w, k); }
    }
    assert IsCreate(n.w.ops[q.key], id);
  }

  lemma SameOps(m: Machine, n: Machine)
    requires MInv(m) && n.log == m.log
    requires forall k :: k in m.w.ops ==> k in n.w.ops && OpStays(m.w.ops[k], n.w.ops[k])
    requires forall k :: k in n.w.ops && n.w.ops[k].claim.Some? ==>
               n.w.ops[k].claim.value in n.w.live
    ensures OpsStep(m, n)
  {
  }

  lemma NextOps(m: Machine, step: Step)
    requires MInv(m) && Enabled(m, step)
    ensures OpsStep(m, Next(m, step))
  {
    var n := Next(m, step);
    forall k | k in m.w.ops ensures m.w.ops[k].claim.Some? ==> m.w.ops[k].claim.value in m.w.live {
      assert Stores(m.w, k);
    }
    match step
    case WriteStep(call, body) =>
      var c := m.calls[call];
      if WriteReply(m.w, c.q, c.res, body).Committed? { CommitOps(m, n, c.q, body.id); } else { SameOps(m, n); }
    case DirectStep(q, action, body) =>
      if DirectReply(m.w, q, action, body).Committed? { CommitOps(m, n, q, body.id); } else { SameOps(m, n); }
    case _ => SameOps(m, n);
  }

  lemma NextLog(m: Machine, step: Step)
    requires MInv(m) && Enabled(m, step)
    ensures var n := Next(m, step); Distinct(n.log) && forall i :: 0 <= i < |n.log| ==> LogOk(n.w, n.log, i)
  {
    var n := Next(m, step);
    NextOps(m, step);
    forall i | 0 <= i < |m.log| ensures LogOk(n.w, n.log, i) && n.log[i] == m.log[i] && m.log[i].key in m.w.ops {
      assert LogOk(m.w, m.log, i);
    }
  }

  lemma NextUsedUp(m: Machine, step: Step)
    requires MInv(m) && Enabled(m, step)
    ensures var n := Next(m, step); forall k :: k in n.w.rows ==> UsedUp(n.w, k)
  {
    var n := Next(m, step);
    NextRows(m, step);
    NextOps(m, step);
    forall k | k in n.w.rows && n.w.rows[k].status.Completed? ensures UsedUp(n.w, k) {
      assert k in m.w.rows && UsedUp(m.w, k);
      if !m.w.rows[k].status.Completed? {
        assert CallOk(m.w, m.calls[step.call]);
      }
    }
  }

  lemma NextKeeps(m: Machine, step: Step)
    requires MInv(m) && Enabled(m, step)
    ensures MInv(Next(m, step))
  {
    NextRows(m, step);
    NextCalls(m, step);
    NextOps(m, step);
    NextLog(m, step);
    NextUsedUp(m, step);
  }

  // Runs

  ghost predicate RunOk(m: Machine, steps: seq<Step>)
    decreases |steps|
  {
    steps != [] ==> Enabled(m, steps[0]) && RunOk(Next(m, steps[0]), steps[1..])
  }

  ghost function Run(m: Machine, steps: seq<Step>): Machine
    requires RunOk(m, steps)
    decreases |steps|
  {
    if steps == [] then m else Run(Next(m, steps[0]), steps[1..])
  }

  const EMPTY := Machine(World(map[], map[], map[], 0, 0), map[], [])

  lemma EmptyStarts()
    ensures MInv(EMPTY)
  {
  }

  lemma {:induction false} EveryRun(m: Machine, steps: seq<Step>)
    requires MInv(m) && RunOk(m, steps)
    ensures MInv(Run(m, steps))
    decreases |steps|
  {
    if steps != [] {
      NextKeeps(m, steps[0]);
      EveryRun(Next(m, steps[0]), steps[1..]);
    }
  }

  /** Whatever the interleaving, no operation key commits a claim twice. */
  lemma AtMostOneCommit(steps: seq<Step>, i: nat, j: nat)
    requires RunOk(EMPTY, steps)
    requires i < |Run(EMPTY, steps).log| && j < |Run(EMPTY, steps).log|
    requires Run(EMPTY, steps).log[i].key == Run(EMPTY, steps).log[j].key
    ensures i == j
  {
    EmptyStarts();
    EveryRun(EMPTY, steps);
  }

  /** At most one caller holds a message's reservation: its title is never embedded twice at once. */
  lemma OneHolder(m: Machine, a: CallId, b: CallId)
    requires MInv(m) && a in m.calls && b in m.calls
    requires Holds(m.w.rows, m.calls[a].res) && Holds(m.w.rows, m.calls[b].res)
    requires m.w.rows[m.calls[a].res.key].source == m.w.rows[m.calls[b].res.key].source
    ensures a == b
  {
    OnePending(m.w.rows, m.w.nextToken, m.calls[a].res.key, m.calls[b].res.key);
    assert OwnToken(m, a, b);
  }

  /** Taking over an expired call's key takes its reservation away. */
  lemma TakenOver(w: World, q: Request, evidence: bool, res: Reservation)
    requires Inv(w.rows, w.nextToken) && res.token < w.nextToken && res.key == q.key
    requires PreflightReply(w, q, evidence).Admitted?
    ensures !Holds(Preflight(w, q, evidence).rows, res)
  {
  }

  lemma {:induction false} LostForever(m: Machine, steps: seq<Step>, res: Reservation)
    requires MInv(m) && RunOk(m, steps)
    requires res.token < m.w.nextToken && !Holds(m.w.rows, res)
    ensures !Holds(Run(m, steps).w.rows, res)
    decreases |steps|
  {
    if steps != [] {
      NextRows(m, steps[0]);
      NextKeeps(m, steps[0]);
      LostForever(Next(m, steps[0]), steps[1..], res);
    }
  }

  predicate OwnStep(step: Step, call: CallId) {
    || (step.EmbeddingFails? && step.call == call)
    || (step.WriteStep? && step.call == call)
    || (step.ReleaseStep? && step.call == call)
  }

  /** A caller that lost its reservation, at whatever later moment it goes on, writes nothing at all. */
  lemma LostIsPowerless(m: Machine, steps: seq<Step>, call: CallId, res: Reservation, step: Step)
    requires MInv(m) && RunOk(m, steps)
    requires res.token < m.w.nextToken && !Holds(m.w.rows, res)
    requires var n := Run(m, steps); Enabled(n, step) && OwnStep(step, call) && call in n.calls && n.calls[call].res == res
    ensures var n := Run(m, steps); Next(n, step).w == n.w && Next(n, step).log == n.log
  {
    LostForever(m, steps, res);
    var n := Run(m, steps);
    assert Release(n.w.rows, res) == n.w.rows;
    if step.WriteStep? { PowerlessReservation(n.w.rows, res, [], n.calls[call].q); }
  }

  /** Once committed, an operation answers every repeat with its own claim, or says that it was deleted. */
  lemma {:induction false} StoredForever(m: Machine, steps: seq<Step>, q: Request, id: Id)
    requires MInv(m) && RunOk(m, steps) && q.key in m.w.ops
    requires m.w.ops[q.key].create && m.w.ops[q.key].hash == q.hash
    requires m.w.ops[q.key].claim == Some(id) || m.w.ops[q.key].claim == None
    ensures var w := Run(m, steps).w;
            && q.key in w.ops
            && (w.ops[q.key].claim == Some(id) || w.ops[q.key].claim == None)
            && ExistingCreate(w, q) ==
                 if w.ops[q.key].claim == Some(id) && id in w.live && w.live[id] then Stored(id) else Failed(ReplayCompleted)
    decreases |steps|
  {
    if steps == [] {
      assert Stores(m.w, q.key);
    } else {
      NextOps(m, steps[0]);
      NextKeeps(m, steps[0]);
      StoredForever(Next(m, steps[0]), steps[1..], q, id);
    }
  }

  /** The operation's claim is deleted, or already forgotten. */
  predicate Gone(w: World, key: Key) {
    && key in w.ops && w.ops[key].create
    && (w.ops[key].claim.Some? ==> w.ops[key].claim.value in w.live && !w.live[w.ops[key].claim.value])
  }

  lemma GoneStays(m: Machine, step: Step, key: Key)
    requires MInv(m) && Enabled(m, step) && Gone(m.w, key)
    ensures Gone(Next(m, step).w, key) && Next(m, step).w.ops[key].hash == m.w.ops[key].hash
  {
    assert Stores(m.w, key);
    NextOps(m, step);
  }

  /** Once its claim is deleted, every repeat of an operation is told so: no run writes it again or shows it. */
  lemma {:induction false} DeletedForever(m: Machine, steps: seq<Step>, q: Request, evidence: bool)
    requires MInv(m) && RunOk(m, steps) && Gone(m.w, q.key) && m.w.ops[q.key].hash == q.hash
    ensures PreflightReply(Run(m, steps).w, q, evidence) == Refusal(ReplayCompleted)
    decreases |steps|
  {
    if steps != [] {
      GoneStays(m, steps[0], q.key);
      NextKeeps(m, steps[0]);
      DeletedForever(Next(m, steps[0]), steps[1..], q, evidence);
    }
  }

  /** Deleting or purging a claim brings its operation there. */
  lemma DeletionTells(m: Machine, step: Step, key: Key)
    requires MInv(m) && Enabled(m, step) && key in m.w.ops && m.w.ops[key].create && m.w.ops[key].claim.Some?
    requires step == SoftDelete(m.w.ops[key].claim.value) || step == Purge(m.w.ops[key].claim.value)
    ensures Gone(Next(m, step).w, key)
    ensures step.Purge? ==> Next(m, step).w.ops[key].claim == None && step.id !in Next(m, step).w.live
  {
  }

  /** The last claim of a finished commit is what its repeat gets. */
  lemma CommitIsStored(w: World, q: Request, res: Reservation, body: Body)
    requires WriteReply(w, q, res, body).Committed?
    ensures ExistingCreate(Write(w, q, res, body), q) == Stored(body.id)
    ensures Holds(w.rows, res) && !Holds(Write(w, q, res, body).rows, res)
  {
  }

  predicate Answered(rows: Table, q: Request, found: seq<Thread>) {
    && q.key in rows
    && RequireSameRequest(rows[q.key], q) == Fine
    && (rows[q.key].status == Candidate(found) || rows[q.key].status == Resolved(found))
  }

  lemma AnsweredStays(m: Machine, step: Step, q: Request, found: seq<Thread>)
    requires MInv(m) && Enabled(m, step) && Answered(m.w.rows, q, found)
    ensures Answered(Next(m, step).w.rows, q, found)
  {
  }

  /** A candidate answer is given again, list for list, to every repeat of the call, also once it is resolved. */
  lemma {:induction false} CandidatesForever(m: Machine, steps: seq<Step>, q: Request, found: seq<Thread>, evidence: bool)
    requires MInv(m) && RunOk(m, steps) && Answered(m.w.rows, q, found)
    ensures var w := Run(m, steps).w;
            && Answered(w.rows, q, found)
            && (q.key !in w.ops ==> PreflightReply(w, q, evidence) == Refusal(CandidateExists(found)))
    decreases |steps|
  {
    if steps != [] {
      AnsweredStays(m, steps[0], q, found);
      NextKeeps(m, steps[0]);
      CandidatesForever(Next(m, steps[0]), steps[1..], q, found, evidence);
    }
  }

  /** A caller told of candidates has left exactly these in its row, whatever became of the claim it wrote. */
  lemma CandidatesStored(w: World, c: Call, body: Body, found: seq<Thread>)
    requires CallOk(w, c) && WriteReply(w, c.q, c.res, body) == Refusal(CandidateExists(found))
    ensures Answered(Write(w, c.q, c.res, body).rows, c.q, found)
    ensures Write(w, c.q, c.res, body).ops == w.ops && Write(w, c.q, c.res, body).live == w.live
  {
  }

  /** And a held call that finds threads is told of them exactly when they are one to three. */
  lemma CandidatesToldExactly(w: World, c: Call, found: seq<Thread>)
    requires CallOk(w, c) && Holds(w.rows, c.res) && c.q.key !in w.ops
    ensures WriteReply(w, c.q, c.res, FoundCandidates(found)) == Refusal(CandidateExists(found)) <==> 1 <= |found| <= 3
  {
  }

  /** A key that is in use answers only the call it is in use for. */
  lemma OtherCallRefused(w: World, q: Request, evidence: bool)
    requires q.key in w.rows && q.key !in w.ops
    ensures var row := w.rows[q.key];
            && (row.source != q.source || row.place != q.place ==> PreflightReply(w, q, evidence) == Refusal(OperationConflict))
            && (row.source == q.source && row.place == q.place && row.hash != q.hash ==>
                  PreflightReply(w, q, evidence) == Refusal(ReplayMismatch))
            && (PreflightReply(w, q, evidence).Admitted? ==> row.source == q.source && row.place == q.place && row.hash == q.hash)
  {
  }

  /** Without evidence of its source, or without membership, a call neither reserves nor writes. */
  lemma UnprovenWritesNothing(w: World, q: Request, res: Reservation, action: Action)
    ensures !PreflightReply(w, q, false).Admitted? && Preflight(w, q, false) == w
    ensures WriteReply(w, q, res, Denied) == MustRelease(OtherError) && Write(w, q, res, Denied) == w
    ensures WriteDirect(w, q, action, Denied) == w && DirectReply(w, q, action, Denied) == Refusal(OtherError)
  {
  }

  /** No offered thread is ever refused as one that was not offered. */
  lemma OfferedAttaches(w: World, q: Request, found: seq<Thread>, i: nat)
    requires Inv(w.rows, w.nextToken) && Answered(w.rows, q, found) && i < |found|
    ensures BeginAttachCheck(w.rows, q.source, found[i].ref) != Refused(CandidateMismatch)
    ensures BeginAttachCheck(w.rows, q.source, found[i].ref) == Fine <==>
              forall k :: k in w.rows && w.rows[k].source == q.source ==> w.rows[k].status.Candidate?
  {
    AttachExactly(w.rows, w.nextToken, q.source, found[i].ref);
    assert w.rows[q.key].status.Candidate? ==> Offers(w.rows, q.key, found[i].ref);
  }

  /**
   * What a caller was told stays true: after a write that answers with candidates, and any further run, the repeat
   * of the call gets the same list, and each thread of it can be attached unless the message is closed or waits.
   */
  lemma OffersLast(m: Machine, call: CallId, body: Body, steps: seq<Step>, evidence: bool, found: seq<Thread>, i: nat)
    requires MInv(m) && Enabled(m, WriteStep(call, body)) && i < |found|
    requires WriteReply(m.w, m.calls[call].q, m.calls[call].res, body) == Refusal(CandidateExists(found))
    requires RunOk(Next(m, WriteStep(call, body)), steps)
    ensures var q, w := m.calls[call].q, Run(Next(m, WriteStep(call, body)), steps).w;
            && (q.key !in w.ops ==> PreflightReply(w, q, evidence) == Refusal(CandidateExists(found)))
            && BeginAttachCheck(w.rows, q.source, found[i].ref) != Refused(CandidateMismatch)
  {
    var n := Next(m, WriteStep(call, body));
    CandidatesStored(m.w, m.calls[call], body, found);
    NextKeeps(m, WriteStep(call, body));
    CandidatesForever(n, steps, m.calls[call].q, found, evidence);
    EveryRun(n, steps);
    OfferedAttaches(Run(n, steps).w, m.calls[call].q, found, i);
  }

  /** A call that ends by its own step holds nothing any more, unless its candidate list was one no row can store. */
  lemma EndedHoldsNothing(m: Machine, step: Step, call: CallId)
    requires MInv(m) && Enabled(m, step) && OwnStep(step, call)
    ensures var n := Next(m, step); call in n.calls ==>
              n.calls[call] == RolledBack(m.calls[call].q, m.calls[call].res) && n.w == m.w
    ensures var c, n := m.calls[call], Next(m, step); call !in n.calls ==>
              (Holds(n.w.rows, c.res) <==>
                 Holds(m.w.rows, c.res) && step.WriteStep? && WriteReply(m.w, c.q, c.res, step.body) == Refusal(StateInvalid))
  {
    assert CallOk(m.w, m.calls[call]);
  }

  /** A held call that failed can be made again at once, with the number it had. */
  lemma FailedRetries(m: Machine, step: Step, call: CallId)
    requires MInv(m) && Enabled(m, step) && OwnStep(step, call) && Holds(m.w.rows, m.calls[call].res)
    requires m.calls[call].q.key !in m.w.ops
    requires step.WriteStep? ==> WriteReply(m.w, m.calls[call].q, m.calls[call].res, step.body) == Refusal(OtherError)
    ensures var q, n := m.calls[call].q, Next(m, step);
            n.w.live == m.w.live && n.w.ops == m.w.ops && PreflightReply(n.w, q, true) ==
              Admitted(Reservation(m.w.rows[m.calls[call].res.key].number, m.w.nextToken, q.key))
  {
    var c := m.calls[call];
    assert CallOk(m.w, c);
    ReleaseFrees(m.w.rows, m.w.nextToken, c.res, c.q, m.w.now);
  }

  /** A write that is not a commit leaves ledger and claims as they were; a commit adds its own claim and nothing else. */
  lemma OnlyCommitWrites(w: World, q: Request, res: Reservation, action: Action, body: Body)
    ensures !WriteReply(w, q, res, body).Committed? ==>
              Write(w, q, res, body).ops == w.ops && Write(w, q, res, body).live == w.live
    ensures !DirectReply(w, q, action, body).Committed? ==> WriteDirect(w, q, action, body) == w
    ensures WriteReply(w, q, res, body).Committed? ==> body.Wrote? && OneClaim(w, Write(w, q, res, body), q.key, body.id)
    ensures DirectReply(w, q, action, body).Committed? ==> body.Wrote? && OneClaim(w, WriteDirect(w, q, action, body), q.key, body.id)
  {
  }

  ghost predicate OneClaim(w: World, v: World, key: Key, id: Id) {
    && key !in w.ops && key in v.ops && id in v.live && v.live[id]
    && (forall k :: k != key ==> (k in v.ops <==> k in w.ops) && (k in w.ops ==> v.ops[k] == w.ops[k]))
    && (forall i :: i != id ==> (i in v.live <==> i in w.live) && (i in w.live ==> v.live[i] == w.live[i]))
  }

  /** A committed attach answers its repeats with its claim, and closes a message that had candidates. */
  lemma AttachIsStored(w: World, q: Request, action: Action, body: Body)
    requires DirectReply(w, q, action, body).Committed?
    ensures ExistingCreate(WriteDirect(w, q, action, body), q) == Stored(body.id)
    ensures action.Attaches? && ResolvesCandidate(w.rows, q.source) ==> Closed(WriteDirect(w, q, action, body).rows, q.source)
    ensures !(action.Attaches? && ResolvesCandidate(w.rows, q.source)) ==> WriteDirect(w, q, action, body).rows == w.rows
  {
    if action.Attaches? && ResolvesCandidate(w.rows, q.source) { AttachCloses(w.rows, q.source, action.ref); }
  }

  /** The "attempt state is damaged" error of a repeat is never reached, nor is it by a write that succeeds. */
  lemma NoDamagedState(m: Machine, q: Request, res: Reservation, evidence: bool, id: Id)
    requires MInv(m)
    ensures PreflightReply(m.w, q, evidence) != Refusal(StateInvalid)
    ensures WriteReply(m.w, q, res, Wrote(id)) != Refusal(StateInvalid)
  {
    if q.key in m.w.rows { assert UsedUp(m.w, q.key); }
  }

  /** A message closed by its refined attempt or its attach stays closed in every run. */
  lemma {:induction false} ClosedForever(m: Machine, steps: seq<Step>, source: Source)
    requires MInv(m) && RunOk(m, steps) && Closed(m.w.rows, source)
    ensures Closed(Run(m, steps).w.rows, source)
    decreases |steps|
  {
    if steps != [] {
      ClosedStep(m, steps[0], source);
      NextKeeps(m, steps[0]);
      ClosedForever(Next(m, steps[0]), steps[1..], source);
    }
  }

  lemma ClosedStep(m: Machine, step: Step, source: Source)
    requires MInv(m) && Enabled(m, step) && Closed(m.w.rows, source)
    ensures Closed(Next(m, step).w.rows, source)
  {
    var rows := m.w.rows;
    match step
    case PreflightStep(_, q, evidence) =>
      if PreflightReply(m.w, q, evidence).Admitted? { StaysClosed(rows, source, q, m.w.nextToken, m.w.now); }
    case EmbeddingFails(call) => StaysClosedAfter(rows, source, m.calls[call].res, [], source);
    case WriteStep(call, body) =>
      StaysClosedAfter(rows, source, m.calls[call].res, if body.FoundCandidates? then body.found else [], source);
    case ReleaseStep(call) => StaysClosedAfter(rows, source, m.calls[call].res, [], source);
    case DirectStep(q, _, _) => StaysClosedAfter(rows, source, Reservation(0, 0, 0), [], q.source);
    case _ =>
  }

  // The transaction on the tables

  class ClaimStore {
    var rows: Table
    var ops: map<Key, Op>
    var live: map<Id, bool>
    var now: int
    var nextToken: Token

    ghost function Now(): World
      reads this
    {
      World(rows, ops, live, now, nextToken)
    }

    method LookUp(q: Request) returns (existing: Existing)
      ensures existing == ExistingCreate(Now(), q)
    {
      if q.key !in ops {
        return NotYet;
      }
      var op := ops[q.key];
      if !op.create || op.hash != q.hash {
        return Failed(ReplayMismatch);
      }
      if op.claim.None? || op.claim.value !in live || !live[op.claim.value] {
        return Failed(ReplayCompleted);
      }
      existing := Stored(op.claim.value);
    }

    method ReplayBeforeTitleEmbedding(q: Request, evidence: bool) returns (reply: Reply)
      modifies this`rows, this`nextToken
      ensures Now() == Preflight(old(Now()), q, evidence)
      ensures reply == PreflightReply(old(Now()), q, evidence)
    {
      var existing := LookUp(q);
      if existing.Stored? {
        return Replayed(existing.id);
      }
      if existing.Failed? {
        return Refusal(existing.error);
      }
      var replay := Replay(rows, q, now);
      if replay != Fine {
        return Refusal(replay.error);
      }
      if !evidence {
        return Refusal(OtherError);
      }
      var check := ReserveCheck(rows, q, now);
      if check != Fine {
        return Refusal(check.error);
      }
      reply := Admitted(Reservation(ReserveNumber(rows, q, now), nextToken, q.key));
      rows := Reserve(rows, q, nextToken, now);
      nextToken := nextToken + 1;
    }

    /** What a failed write leaves behind is its candidate answer, or nothing of the reservation. */
    method Finalize(res: Reservation, body: Body) returns (reply: Reply)
      requires (body.Broke? || body.FoundCandidates?) && Holds(rows, res)
      modifies this`rows
      ensures body.Broke? ==> rows == Release(old(rows), res) && reply == Refusal(OtherError)
      ensures body.FoundCandidates? ==> rows == Record(old(rows), res, body.found)
      ensures body.FoundCandidates? ==>
                reply == if RecordCheck(old(rows), res, body.found) == Fine then Refusal(CandidateExists(body.found))
                         else Refusal(StateInvalid)
    {
      match body
      case FoundCandidates(found) =>
        var check := RecordCheck(rows, res, found);
        reply := if check == Fine then Refusal(CandidateExists(found)) else Refusal(StateInvalid);
        rows := Record(rows, res, found);
      case Broke(_) =>
        rows := Release(rows, res);
        reply := Refusal(OtherError);
    }

    method WriteRow(q: Request, id: Id)
      modifies this`ops, this`live
      ensures ops == old(ops)[q.key := Op(true, q.hash, Some(id))] && live == old(live)[id := true]
    {
      live := live[id := true];
      ops := ops[q.key := Op(true, q.hash, Some(id))];
    }

    /** The claim transaction: its writes stand only together with the end of its reservation. */
    method CreateMemoryClaim(q: Request, res: Reservation, body: Body) returns (reply: Reply)
      modifies this`rows, this`ops, this`live
      ensures Now() == Write(old(Now()), q, res, body)
      ensures reply == WriteReply(old(Now()), q, res, body)
    {
      if body.Denied? {
        return MustRelease(OtherError);
      }
      var existing := LookUp(q);
      if existing.Stored? {
        rows := Release(rows, res);
        return Replayed(existing.id);
      }
      if existing.Failed? {
        return MustRelease(existing.error);
      }
      var check := Require(rows, q, res);
      if check != Fine {
        return MustRelease(check.error);
      }
      var savepoint := (ops, live);
      if body.Broke? && body.written.Some? {
        WriteRow(q, body.written.value);
      }
      if body.Wrote? {
        WriteRow(q, body.id);
        rows := Complete(rows, res);
        return Committed(body.id);
      }
      ops, live := savepoint.0, savepoint.1;
      reply := Finalize(res, body);
    }
  }
}
