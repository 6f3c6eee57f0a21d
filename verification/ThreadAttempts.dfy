/** The attempt table of memory-thread-creation-attempts.ts. */
module ThreadAttempts {
  // At most one pending call per message, one refined retry after a candidate result, and the attach that
  // resolves the candidates. One family; each exported step is a function from the table before it to the table
  // it commits.

  const MAX_ATTEMPTS := 2
  const MAX_CANDIDATES := 3
  const LEASE_MILLISECONDS := 300000

  type Key = nat
  type Token = nat
  type ThreadRef = nat

  datatype Source = Source(conversation: nat, timelineEntry: nat)
  datatype Thread = Thread(ref: ThreadRef, title: string)

  /** `place` is the scope with its partition key, `hash` the hash of the whole input. */
  datatype Request = Request(key: Key, source: Source, place: nat, hash: nat)

  datatype Status =
    | Pending(token: Token, expires: int)
    | Candidate(found: seq<Thread>)
    | Completed
    | Resolved(found: seq<Thread>)

  datatype Row = Row(source: Source, place: nat, hash: nat, number: nat, status: Status)

  /** The rows by their operation key, which is unique in a family. */
  type Table = map<Key, Row>

  datatype Reservation = Reservation(number: nat, token: Token, key: Key)

  datatype Error =
    | OperationConflict | ReplayMismatch | ReplayCompleted | CandidateExists(found: seq<Thread>) | InProgress
    | StateInvalid | Stale | RetryExhausted | ResolutionCompleted | CandidateMismatch | OtherError

  datatype Check = Fine | Refused(error: Error)

  predicate SameSource(t: Table, a: Key, b: Key)
    requires a in t && b in t
  {
    t[a].source == t[b].source
  }

  /** The row shapes the table's own constraints admit. */
  predicate RowOk(r: Row) {
    && 1 <= r.number <= MAX_ATTEMPTS
    && (r.status.Completed? ==> r.number == 2)
    && (r.status.Candidate? || r.status.Resolved? ==> 1 <= |r.status.found| <= MAX_CANDIDATES)
  }

  /** What may stand beside each other in one message: `first` is attempt 1, `second` attempt 2. */
  predicate PairOk(first: Status, second: Status) {
    || (first.Candidate? && !second.Resolved?)
    || (first.Resolved? && second.Resolved?)
  }

  predicate SameToken(a: Status, b: Status) { a.Pending? && b.Pending? && a.token == b.token }

  predicate IsFirst(t: Table, k: Key, source: Source) { k in t && t[k].source == source && t[k].number == 1 }

  ghost predicate HasFirst(t: Table, source: Source) { exists k :: IsFirst(t, k, source) }

  ghost predicate RowFine(t: Table, nextToken: Token, k: Key)
    requires k in t
  {
    && RowOk(t[k])
    && (t[k].number == 2 ==> HasFirst(t, t[k].source))
    && (t[k].status.Pending? ==> t[k].status.token < nextToken)
  }

  predicate PairFine(t: Table, a: Key, b: Key)
    requires a in t && b in t
  {
    && (SameSource(t, a, b) && t[a].number == t[b].number ==> a == b)
    && (SameSource(t, a, b) && t[a].number < t[b].number ==> PairOk(t[a].status, t[b].status))
    && (SameToken(t[a].status, t[b].status) ==> a == b)
  }

  ghost predicate Inv(t: Table, nextToken: Token) {
    && (forall k {:trigger RowFine(t, nextToken, k)} :: k in t ==> RowFine(t, nextToken, k))
    && (forall a, b {:trigger PairFine(t, a, b)} :: a in t && b in t ==> PairFine(t, a, b))
  }

  // The steps

  function RequireSameRequest(row: Row, q: Request): Check {
    if row.source != q.source || row.place != q.place then Refused(OperationConflict)
    else if row.hash != q.hash then Refused(ReplayMismatch)
    else Fine
  }

  function ThrowForExistingAttempt(row: Row, q: Request, now: int): Check {
    if RequireSameRequest(row, q) != Fine then RequireSameRequest(row, q)
    else match row.status
      case Candidate(found) => Refused(CandidateExists(found))
      case Resolved(found) => Refused(CandidateExists(found))
      case Pending(_, expires) => if expires > now then Refused(InProgress) else Fine
      case Completed => Refused(StateInvalid)
  }

  /** The reply a repeated call gets before its title is embedded. */
  function Replay(t: Table, q: Request, now: int): Check {
    if q.key in t then ThrowForExistingAttempt(t[q.key], q, now) else Fine
  }

  predicate Abandoned(row: Row, source: Source, now: int) {
    row.source == source && row.status.Pending? && row.status.expires <= now
  }

  function Kept(t: Table, source: Source, now: int): Table {
    map k | k in t && !Abandoned(t[k], source, now) :: t[k]
  }

  function SourceKeys(t: Table, source: Source): set<Key> { set k | k in t && t[k].source == source }

  /** May a new operation start here, and as which attempt? The table has no abandoned rows left. */
  function Admission(t: Table, source: Source): Check {
    var keys := SourceKeys(t, source);
    if |keys| >= MAX_ATTEMPTS then Refused(RetryExhausted)
    else if exists k :: k in keys && t[k].status.Pending? then Refused(InProgress)
    else if |keys| == 1 && !(exists k :: k in keys && t[k].status.Candidate?) then Refused(RetryExhausted)
    else Fine
  }

  function ReserveCheck(t: Table, q: Request, now: int): Check {
    if q.key in t then ThrowForExistingAttempt(t[q.key], q, now) else Admission(Kept(t, q.source, now), q.source)
  }

  function ReserveNumber(t: Table, q: Request, now: int): nat {
    if q.key in t then t[q.key].number else |SourceKeys(Kept(t, q.source, now), q.source)| + 1
  }

  /** The table after an accepted reservation; a refused one is rolled back. */
  function Reserve(t: Table, q: Request, token: Token, now: int): Table
    requires ReserveCheck(t, q, now) == Fine
  {
    var pending := Pending(token, now + LEASE_MILLISECONDS);
    if q.key in t then t[q.key := t[q.key].(status := pending)]
    else Kept(t, q.source, now)[q.key := Row(q.source, q.place, q.hash, ReserveNumber(t, q, now), pending)]
  }

  /** The reservation is the pending call of its key. */
  predicate Holds(t: Table, res: Reservation) {
    && res.key in t && t[res.key].status.Pending? && t[res.key].status.token == res.token
  }

  function Require(t: Table, q: Request, res: Reservation): Check {
    if res.key !in t then Refused(Stale)
    else if RequireSameRequest(t[res.key], q) != Fine then RequireSameRequest(t[res.key], q)
    else if !Holds(t, res) || t[res.key].number != res.number then Refused(Stale)
    else Fine
  }

  function RecordCheck(t: Table, res: Reservation, found: seq<Thread>): Check {
    if found == [] || |found| > MAX_CANDIDATES || !Holds(t, res) then Refused(StateInvalid) else Fine
  }

  function Record(t: Table, res: Reservation, found: seq<Thread>): Table {
    if RecordCheck(t, res, found) != Fine then t else t[res.key := t[res.key].(status := Candidate(found))]
  }

  function CompleteCheck(t: Table, res: Reservation): Check {
    if !Holds(t, res) then Refused(StateInvalid) else Fine
  }

  /** A first attempt leaves no row behind; a second one stays as the mark that the retry is used up. */
  function Complete(t: Table, res: Reservation): Table {
    if !Holds(t, res) then t
    else if res.number == 1 then t - {res.key}
    else t[res.key := t[res.key].(status := Completed)]
  }

  function Release(t: Table, res: Reservation): Table {
    if Holds(t, res) then t - {res.key} else t
  }

  predicate Any(t: Table, source: Source, pick: Status -> bool) {
    exists k :: k in SourceKeys(t, source) && pick(t[k].status)
  }

  predicate Offers(t: Table, k: Key, ref: ThreadRef) {
    k in t && t[k].status.Candidate? && exists i :: 0 <= i < |t[k].status.found| && t[k].status.found[i].ref == ref
  }

  function BeginAttachCheck(t: Table, source: Source, ref: ThreadRef): Check {
    if Any(t, source, (s: Status) => s.Pending?) then Refused(InProgress)
    else if Any(t, source, (s: Status) => s.Completed? || s.Resolved?) then Refused(ResolutionCompleted)
    else if Any(t, source, (s: Status) => s.Candidate?)
            && !(exists k :: k in SourceKeys(t, source) && Offers(t, k, ref)) then Refused(CandidateMismatch)
    else Fine
  }

  /** Does this attach resolve candidates of its message? */
  predicate ResolvesCandidate(t: Table, source: Source) { Any(t, source, (s: Status) => s.Candidate?) }

  function CompleteAttach(t: Table, source: Source): Table {
    map k | k in t ::
      if t[k].source == source && t[k].status.Candidate? then t[k].(status := Resolved(t[k].status.found)) else t[k]
  }

  // Every step keeps the shapes

  lemma TwoIn<T>(s: set<T>, a: T, b: T)
    requires a in s && b in s && a != b
    ensures |s| >= 2
  {
    assert s == {a} + {b} + (s - {a} - {b});
  }

  /** A message with one attempt has its first. */
  lemma OneAttempt(t: Table, n: Token, source: Source, k: Key)
    requires Inv(t, n) && k in SourceKeys(t, source)
    ensures |SourceKeys(t, source)| >= 1
    ensures |SourceKeys(t, source)| == 1 ==> SourceKeys(t, source) == {k} && t[k].number == 1
  {
    var keys := SourceKeys(t, source);
    assert RowFine(t, n, k);
    if t[k].number == 2 {
      var a :| IsFirst(t, a, source);
      TwoIn(keys, a, k);
    }
    if j :| j in keys && j != k {
      TwoIn(keys, j, k);
    }
  }

  lemma FirstStays(t: Table, u: Table, n: Token, k: Key)
    requires Inv(t, n) && k in t && k in u && t[k].number == 2
    requires u[k].source == t[k].source
    requires forall a :: IsFirst(t, a, t[k].source) && PairOk(t[a].status, t[k].status) ==> IsFirst(u, a, t[k].source)
    ensures HasFirst(u, u[k].source)
  {
    assert RowFine(t, n, k);
    var a :| IsFirst(t, a, t[k].source);
    assert PairFine(t, a, k);
    assert IsFirst(u, a, t[k].source);
  }

  lemma KeptKeeps(t: Table, n: Token, source: Source, now: int)
    requires Inv(t, n)
    ensures Inv(Kept(t, source, now), n)
  {
    var u := Kept(t, source, now);
    forall k | k in u ensures RowFine(u, n, k) {
      assert RowFine(t, n, k);
      if t[k].number == 2 { FirstStays(t, u, n, k); }
    }
    forall a, b | a in u && b in u ensures PairFine(u, a, b) {
      assert PairFine(t, a, b);
    }
  }

  /** The number a new operation takes is free, and what it stands beside admits it. */
  lemma Admitted(t: Table, n: Token, source: Source, k: Key)
    requires Inv(t, n) && Admission(t, source) == Fine && k in t && t[k].source == source
    ensures IsFirst(t, k, source) && t[k].status.Candidate? && |SourceKeys(t, source)| == 1
  {
    assert k in SourceKeys(t, source);
    OneAttempt(t, n, source, k);
  }

  lemma NewRowKeeps(t: Table, n: Token, q: Request, expires: int)
    requires Inv(t, n) && q.key !in t && Admission(t, q.source) == Fine
    ensures Inv(t[q.key := Row(q.source, q.place, q.hash, |SourceKeys(t, q.source)| + 1, Pending(n, expires))], n + 1)
  {
    var keys := SourceKeys(t, q.source);
    var u := t[q.key := Row(q.source, q.place, q.hash, |keys| + 1, Pending(n, expires))];
    forall k | k in u ensures RowFine(u, n + 1, k) {
      if k != q.key {
        assert RowFine(t, n, k);
        if t[k].number == 2 { FirstStays(t, u, n, k); }
      } else if a :| a in keys {
        Admitted(t, n, q.source, a);
        assert IsFirst(u, a, q.source);
      } else {
        assert keys == {};
      }
    }
    forall a, b | a in u && b in u ensures PairFine(u, a, b) {
      if a in t { assert RowFine(t, n, a); }
      if b in t { assert RowFine(t, n, b); }
      if a != q.key && b != q.key {
        assert PairFine(t, a, b);
      } else if a in t && SameSource(u, a, b) {
        Admitted(t, n, q.source, a);
      } else if b in t && SameSource(u, a, b) {
        Admitted(t, n, q.source, b);
      }
    }
  }

  lemma ReserveKeeps(t: Table, n: Token, q: Request, now: int)
    requires Inv(t, n) && ReserveCheck(t, q, now) == Fine
    ensures Inv(Reserve(t, q, n, now), n + 1)
    ensures Holds(Reserve(t, q, n, now), Reservation(ReserveNumber(t, q, now), n, q.key))
  {
    if q.key in t {
      assert RowFine(t, n, q.key);
      StatusKeeps(t, n, q.key, Pending(n, now + LEASE_MILLISECONDS));
    } else {
      KeptKeeps(t, n, q.source, now);
      NewRowKeeps(Kept(t, q.source, now), n, q, now + LEASE_MILLISECONDS);
    }
  }

  /** A pending row may take a new token, a candidate list or, as the second one, its completion. */
  lemma StatusKeeps(t: Table, n: Token, key: Key, status: Status)
    requires Inv(t, n) && key in t && t[key].status.Pending?
    requires RowOk(t[key].(status := status)) && !status.Resolved?
    requires status.Pending? ==> status.token == n
    ensures Inv(t[key := t[key].(status := status)], if status.Pending? then n + 1 else n)
  {
    var u := t[key := t[key].(status := status)];
    var m := if status.Pending? then n + 1 else n;
    forall k | k in u ensures RowFine(u, m, k) {
      assert RowFine(t, n, k);
      if t[k].number == 2 { FirstStays(t, u, n, k); }
    }
    forall a, b | a in u && b in u ensures PairFine(u, a, b) {
      assert PairFine(t, a, b) && RowFine(t, n, a) && RowFine(t, n, b);
    }
  }

  lemma RemoveKeeps(t: Table, n: Token, key: Key)
    requires Inv(t, n) && key in t && t[key].status.Pending?
    ensures Inv(t - {key}, n)
  {
    var u := t - {key};
    forall k | k in u ensures RowFine(u, n, k) {
      assert RowFine(t, n, k);
      if t[k].number == 2 { FirstStays(t, u, n, k); }
    }
    forall a, b | a in u && b in u ensures PairFine(u, a, b) {
      assert PairFine(t, a, b);
    }
  }

  lemma CompleteKeeps(t: Table, n: Token, res: Reservation)
    requires Inv(t, n) && (Holds(t, res) ==> t[res.key].number == res.number)
    ensures Inv(Complete(t, res), n)
  {
    if Holds(t, res) {
      assert RowFine(t, n, res.key);
      if res.number == 1 { RemoveKeeps(t, n, res.key); } else { StatusKeeps(t, n, res.key, Completed); }
    }
  }

  lemma ReleaseKeeps(t: Table, n: Token, res: Reservation)
    requires Inv(t, n)
    ensures Inv(Release(t, res), n)
  {
    if Holds(t, res) { RemoveKeeps(t, n, res.key); }
  }

  lemma RecordKeeps(t: Table, n: Token, res: Reservation, found: seq<Thread>)
    requires Inv(t, n)
    ensures Inv(Record(t, res, found), n)
  {
    if RecordCheck(t, res, found) == Fine {
      assert RowFine(t, n, res.key);
      StatusKeeps(t, n, res.key, Candidate(found));
    }
  }

  lemma CompleteAttachKeeps(t: Table, n: Token, source: Source, ref: ThreadRef)
    requires Inv(t, n) && BeginAttachCheck(t, source, ref) == Fine
    ensures Inv(CompleteAttach(t, source), n)
  {
    var u := CompleteAttach(t, source);
    forall k | k in u ensures RowFine(u, n, k) {
      assert RowFine(t, n, k);
      if t[k].number == 2 { FirstStays(t, u, n, k); }
    }
    forall a, b | a in u && b in u ensures PairFine(u, a, b) {
      assert PairFine(t, a, b);
      assert t[b].source == source ==> b in SourceKeys(t, source);
    }
  }

  // What the shapes are

  predicate KnownShape(attempts: seq<Row>) {
    match |attempts|
    case 0 => true
    case 1 => !attempts[0].status.Completed?
    case 2 =>
      || (attempts[0].status.Candidate? && !attempts[1].status.Resolved?)
      || (attempts[0].status.Resolved? && attempts[1].status.Resolved?)
    case _ => false
  }

  /**
   * The attempts of one message, in order: none, pending, candidate, resolved, candidate then pending,
   * candidate then candidate, candidate then completed, or both resolved.
   */
  lemma Shapes(t: Table, n: Token, source: Source) returns (attempts: seq<Row>)
    requires Inv(t, n)
    ensures KnownShape(attempts)
    ensures forall i :: 0 <= i < |attempts| ==> attempts[i].number == i + 1 && attempts[i] in t.Values
    ensures forall i :: 0 <= i < |attempts| ==> attempts[i].source == source
    ensures forall k :: k in t && t[k].source == source ==> t[k] in attempts
  {
    attempts := [];
    if a :| IsFirst(t, a, source) {
      attempts := [t[a]];
      assert RowFine(t, n, a);
      forall k | k in t && t[k].source == source ensures RowFine(t, n, k) && PairFine(t, a, k) {}
      if b :| b in t && t[b].source == source && b != a {
        attempts := [t[a], t[b]];
        forall k | k in t && t[k].source == source ensures PairFine(t, b, k) {}
      }
    } else {
      forall k | k in t ensures t[k].source != source {
        assert RowFine(t, n, k) && !IsFirst(t, k, source);
      }
    }
  }

  /** The attempt a message is waiting for is the only one pending. */
  lemma OnePending(t: Table, n: Token, a: Key, b: Key)
    requires Inv(t, n) && a in t && b in t && SameSource(t, a, b)
    requires t[a].status.Pending? && t[b].status.Pending?
    ensures a == b
  {
    assert PairFine(t, a, b) && PairFine(t, b, a);
  }

  predicate Closed(t: Table, source: Source) { Any(t, source, (s: Status) => s.Completed? || s.Resolved?) }

  lemma ClosedHasNoPending(t: Table, n: Token, source: Source, z: Key, k: Key)
    requires Inv(t, n) && z in SourceKeys(t, source) && (t[z].status.Completed? || t[z].status.Resolved?)
    requires k in SourceKeys(t, source)
    ensures !t[k].status.Pending?
    ensures t[k].status.Candidate? ==> |SourceKeys(t, source)| >= 2
  {
    assert PairFine(t, z, k) && PairFine(t, k, z) && RowFine(t, n, k) && RowFine(t, n, z);
    if k != z { TwoIn(SourceKeys(t, source), k, z); }
  }

  /** A message whose refined attempt completed, or whose candidates were resolved, admits no further call. */
  lemma ClosedRefuses(t: Table, n: Token, q: Request, ref: ThreadRef, now: int)
    requires Inv(t, n) && Closed(t, q.source)
    ensures ReserveCheck(t, q, now) != Fine && BeginAttachCheck(t, q.source, ref) != Fine
  {
    var z :| z in SourceKeys(t, q.source) && (t[z].status.Completed? || t[z].status.Resolved?);
    if q.key in t {
      if q.key in SourceKeys(t, q.source) { ClosedHasNoPending(t, n, q.source, z, q.key); }
    } else {
      ClosedAdmitsNone(t, n, q.source, z, now);
    }
  }

  lemma ClosedAdmitsNone(t: Table, n: Token, source: Source, z: Key, now: int)
    requires Inv(t, n) && z in SourceKeys(t, source) && (t[z].status.Completed? || t[z].status.Resolved?)
    ensures Admission(Kept(t, source, now), source) != Fine
  {
    var u := Kept(t, source, now);
    KeptKeeps(t, n, source, now);
    assert z in SourceKeys(u, source);
    OneAttempt(u, n, source, z);
  }

  /** Closed for good: no step of any call opens the message again. */
  lemma StaysClosed(t: Table, source: Source, q: Request, token: Token, now: int)
    requires Closed(t, source) && ReserveCheck(t, q, now) == Fine
    ensures Closed(Reserve(t, q, token, now), source)
  {
    var z :| z in SourceKeys(t, source) && (t[z].status.Completed? || t[z].status.Resolved?);
    var u := Reserve(t, q, token, now);
    assert z in u && u[z] == t[z];
    assert z in SourceKeys(u, source);
  }

  lemma StaysClosedAfter(t: Table, source: Source, res: Reservation, found: seq<Thread>, other: Source)
    requires Closed(t, source)
    ensures Closed(Record(t, res, found), source) && Closed(Complete(t, res), source)
    ensures Closed(Release(t, res), source) && Closed(CompleteAttach(t, other), source)
  {
    var z :| z in SourceKeys(t, source) && (t[z].status.Completed? || t[z].status.Resolved?);
    assert z in SourceKeys(Record(t, res, found), source);
    assert z in SourceKeys(Complete(t, res), source);
    assert z in SourceKeys(Release(t, res), source);
    assert z in SourceKeys(CompleteAttach(t, other), source);
  }

  /** A reservation that does not hold changes nothing, whatever its step. */
  lemma PowerlessReservation(t: Table, res: Reservation, found: seq<Thread>, q: Request)
    requires !Holds(t, res)
    ensures Require(t, q, res) != Fine && RecordCheck(t, res, found) != Fine && CompleteCheck(t, res) != Fine
    ensures Record(t, res, found) == Complete(t, res) == Release(t, res) == t
  {
  }

  // What a step means for the message and for the calls after it

  /** A step leaves every row but those of one message as it is. */
  predicate OnlyMessage(t: Table, u: Table, source: Source) {
    && (forall k :: k in t && t[k].source != source ==> k in u && u[k] == t[k])
    && (forall k :: k in u && k !in t ==> u[k].source == source)
  }

  /** While a reservation's five minutes last nothing of its message is admitted; once it is over its own call is, with its number. */
  lemma LeaseExcludes(t: Table, n: Token, q: Request, now: int, later: int, other: Request)
    requires Inv(t, n) && ReserveCheck(t, q, now) == Fine
    ensures var u := Reserve(t, q, n, now);
            && OnlyMessage(t, u, q.source)
            && (later < now + 5 * 60 * 1000 ==> ReserveCheck(u, q, later) == Refused(InProgress))
            && (later >= now + 5 * 60 * 1000 ==>
                  ReserveCheck(u, q, later) == Fine && ReserveNumber(u, q, later) == ReserveNumber(t, q, now))
            && (other.source == q.source && other.key !in u && later < now + 5 * 60 * 1000 ==>
                  ReserveCheck(u, other, later) != Fine)
  {
    var u := Reserve(t, q, n, now);
    ReserveKeeps(t, n, q, now);
    var kept := Kept(u, q.source, later);
    if later < now + 5 * 60 * 1000 { assert q.key in SourceKeys(kept, q.source); }
  }

  /** A new call is admitted exactly when its message has no attempt left standing but a first one with candidates. */
  lemma AdmittedExactly(t: Table, n: Token, q: Request, now: int)
    requires Inv(t, n) && q.key !in t
    ensures ReserveCheck(t, q, now) == Fine <==>
              forall k :: k in t && t[k].source == q.source && !Abandoned(t[k], q.source, now) ==>
                t[k].status.Candidate? && t[k].number == 1
  {
    var u := Kept(t, q.source, now);
    var keys := SourceKeys(u, q.source);
    KeptKeeps(t, n, q.source, now);
    forall k | k in keys ensures |keys| >= 1 && (|keys| == 1 ==> keys == {k}) && (t[k].number == 2 ==> |keys| >= 2) {
      OneAttempt(u, n, q.source, k);
    }
    if ReserveCheck(t, q, now) == Fine {
      forall k | k in keys ensures t[k].status.Candidate? && t[k].number == 1 { Admitted(u, n, q.source, k); }
    } else if forall k :: k in keys ==> t[k].status.Candidate? && t[k].number == 1 {
      OnlyFirsts(u, n, q.source);
    }
  }

  lemma OnlyFirsts(t: Table, n: Token, source: Source)
    requires Inv(t, n) && forall k :: k in SourceKeys(t, source) ==> t[k].status.Candidate? && t[k].number == 1
    ensures Admission(t, source) == Fine
  {
    var keys := SourceKeys(t, source);
    if a :| a in keys {
      forall k | k in keys ensures k == a { assert PairFine(t, a, k); }
      assert keys == {a};
    }
  }

  /** A held reservation that is released is gone, and the same call is admitted again with the number it had. */
  lemma ReleaseFrees(t: Table, n: Token, res: Reservation, q: Request, now: int)
    requires Inv(t, n) && Holds(t, res) && q.key == res.key && q.source == t[res.key].source
    ensures var u := Release(t, res);
            && !Holds(u, res) && (forall k :: k in u <==> k in t && k != res.key) && (forall k :: k in u ==> u[k] == t[k])
            && ReserveCheck(u, q, now) == Fine && ReserveNumber(u, q, now) == t[res.key].number
  {
    var u := Release(t, res);
    ReleaseKeeps(t, n, res);
    forall k | k in u && u[k].source == q.source ensures u[k].status.Candidate? && u[k].number == 1 {
      assert PairFine(t, res.key, k) && PairFine(t, k, res.key) && RowFine(t, n, res.key) && RowFine(t, n, k);
    }
    AdmittedExactly(u, n, q, now);
    FreeNumber(t, n, res, now);
  }

  lemma FreeNumber(t: Table, n: Token, res: Reservation, now: int)
    requires Inv(t, n) && Holds(t, res)
    ensures var u := Release(t, res);
            |SourceKeys(Kept(u, t[res.key].source, now), t[res.key].source)| + 1 == t[res.key].number
  {
    var source := t[res.key].source;
    var keys := SourceKeys(Kept(Release(t, res), source, now), source);
    assert RowFine(t, n, res.key);
    forall k | k in keys ensures t[k].number == 1 && t[res.key].number == 2 {
      assert PairFine(t, res.key, k) && PairFine(t, k, res.key) && RowFine(t, n, k);
    }
    if t[res.key].number == 2 {
      var a: Key :| IsFirst(t, a, source);
      assert PairFine(t, a, res.key) && a in keys;
      forall k | k in keys ensures k == a { assert PairFine(t, a, k); }
      assert keys == {a};
    } else {
      assert keys == {};
    }
  }

  /** A finished first attempt leaves its message as if nothing had been; a finished second one closes it. */
  lemma CompleteSettles(t: Table, n: Token, res: Reservation)
    requires Inv(t, n) && Holds(t, res) && t[res.key].number == res.number
    ensures var u, source := Complete(t, res), t[res.key].source;
            && !Holds(u, res) && OnlyMessage(t, u, source)
            && (res.number == 1 ==> forall k :: k in u ==> u[k].source != source)
            && (res.number == 2 ==> Closed(u, source) && forall k :: k in t && k != res.key ==> k in u && u[k] == t[k])
  {
    assert RowFine(t, n, res.key);
    forall k | k in t && t[k].source == t[res.key].source ensures PairFine(t, res.key, k) && PairFine(t, k, res.key) && RowFine(t, n, k) {}
    if res.number == 2 { assert res.key in SourceKeys(Complete(t, res), t[res.key].source); }
  }

  /** An offered thread can be attached, and no other one, as long as the message waits for nothing and is open. */
  lemma AttachExactly(t: Table, n: Token, source: Source, ref: ThreadRef)
    requires Inv(t, n)
    ensures BeginAttachCheck(t, source, ref) == Fine <==>
              && (forall k :: k in t && t[k].source == source ==> t[k].status.Candidate?)
              && ((exists k :: k in t && t[k].source == source) ==> exists k :: k in t && t[k].source == source && Offers(t, k, ref))
    ensures BeginAttachCheck(t, source, ref) == Refused(CandidateMismatch) ==>
              forall k :: k in t && t[k].source == source ==> t[k].status.Candidate? && !Offers(t, k, ref)
  {
    if k :| k in t && t[k].source == source { assert k in SourceKeys(t, source); }
    forall k | k in t && t[k].source == source ensures k in SourceKeys(t, source) {}
  }

  /** An accepted attach to a message with candidates closes it: each candidate row is resolved with the list it had. */
  lemma AttachCloses(t: Table, source: Source, ref: ThreadRef)
    requires BeginAttachCheck(t, source, ref) == Fine && ResolvesCandidate(t, source)
    ensures var u := CompleteAttach(t, source);
            && Closed(u, source) && OnlyMessage(t, u, source)
            && (forall k :: k in t && t[k].source == source && t[k].status.Candidate? ==>
                  k in u && u[k] == t[k].(status := Resolved(t[k].status.found)))
            && (exists k :: k in t && t[k].source == source && Offers(t, k, ref))
  {
    var u := CompleteAttach(t, source);
    var k :| k in SourceKeys(t, source) && t[k].status.Candidate?;
    assert k in SourceKeys(u, source) && u[k].status.Resolved?;
  }

  // The steps on the table

  class AttemptStore {
    var rows: Table
    var nextToken: Token

    /** The exact expired call reclaims its own row; another call first clears the abandoned rows of its message. */
    method ReserveAttempt(q: Request, now: int) returns (check: Check, reservation: Reservation)
      modifies this
      ensures check == ReserveCheck(old(rows), q, now)
      ensures check != Fine ==> rows == old(rows) && nextToken == old(nextToken)
      ensures check == Fine ==>
                && rows == Reserve(old(rows), q, old(nextToken), now) && nextToken == old(nextToken) + 1
                && reservation == Reservation(ReserveNumber(old(rows), q, now), old(nextToken), q.key)
    {
      reservation := Reservation(0, nextToken, q.key);
      if q.key in rows {
        check := ThrowForExistingAttempt(rows[q.key], q, now);
        if check != Fine {
          return;
        }
        reservation := reservation.(number := rows[q.key].number);
        rows := rows[q.key := rows[q.key].(status := Pending(nextToken, now + LEASE_MILLISECONDS))];
      } else {
        var kept := map k | k in rows && !Abandoned(rows[k], q.source, now) :: rows[k];
        var keys := set k | k in kept && kept[k].source == q.source;
        assert kept == Kept(rows, q.source, now) && keys == SourceKeys(kept, q.source);
        if |keys| >= MAX_ATTEMPTS {
          return Refused(RetryExhausted), reservation;
        }
        if exists k :: k in keys && kept[k].status.Pending? {
          return Refused(InProgress), reservation;
        }
        if |keys| == 1 && !(exists k :: k in keys && kept[k].status.Candidate?) {
          return Refused(RetryExhausted), reservation;
        }
        check := Fine;
        reservation := reservation.(number := |keys| + 1);
        var pending := Pending(nextToken, now + LEASE_MILLISECONDS);
        rows := kept[q.key := Row(q.source, q.place, q.hash, |keys| + 1, pending)];
      }
      nextToken := nextToken + 1;
    }

    method RecordCandidates(res: Reservation, found: seq<Thread>) returns (check: Check)
      modifies this`rows
      ensures check == RecordCheck(old(rows), res, found) && rows == Record(old(rows), res, found)
    {
      if found == [] || |found| > MAX_CANDIDATES {
        return Refused(StateInvalid);
      }
      if res.key !in rows || !rows[res.key].status.Pending? || rows[res.key].status.token != res.token {
        return Refused(StateInvalid);
      }
      rows := rows[res.key := rows[res.key].(status := Candidate(found))];
      check := Fine;
    }

    method CompleteAttempt(res: Reservation) returns (check: Check)
      modifies this`rows
      ensures check == CompleteCheck(old(rows), res) && rows == Complete(old(rows), res)
    {
      if res.key !in rows || !rows[res.key].status.Pending? || rows[res.key].status.token != res.token {
        return Refused(StateInvalid);
      }
      if res.number == 1 {
        rows := rows - {res.key};
      } else {
        rows := rows[res.key := rows[res.key].(status := Completed)];
      }
      check := Fine;
    }

    method ReleaseAttempt(res: Reservation)
      modifies this`rows
      ensures rows == Release(old(rows), res)
    {
      if res.key in rows && rows[res.key].status.Pending? && rows[res.key].status.token == res.token {
        rows := rows - {res.key};
      }
    }

    /** The attach of a thread that was offered: all candidate rows of its message become resolved. */
    method AttachCandidate(source: Source, ref: ThreadRef) returns (check: Check, resolves: bool)
      modifies this`rows
      ensures check == BeginAttachCheck(old(rows), source, ref)
      ensures check != Fine ==> rows == old(rows) && !resolves
      ensures check == Fine ==> resolves == ResolvesCandidate(old(rows), source)
      ensures check == Fine ==> rows == if resolves then CompleteAttach(old(rows), source) else old(rows)
    {
      check := BeginAttachCheck(rows, source, ref);
      resolves := check == Fine && ResolvesCandidate(rows, source);
      if resolves {
        rows := map k | k in rows ::
          if rows[k].source == source && rows[k].status.Candidate? then rows[k].(status := Resolved(rows[k].status.found)) else rows[k];
      }
    }
  }
}
