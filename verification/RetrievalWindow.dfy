/** The widening search of memory-retrieval-repository.ts. */
module RetrievalWindow {
  // The semantic branch: a truncated nearest-chunk scan, the test that it was too narrow, and the loop that
  // widens it, against the scan of all authorized chunks.

  import opened Wrappers

  const CANDIDATE_LIMIT: nat := 40
  const CHUNK_CANDIDATES: nat := 200
  const CHUNK_CEILING: nat := 3200

  type Id = nat

  /** One stored chunk of an authorized record, at its distance from the query vector. */
  datatype Chunk = Chunk(record: Id, distance: real)

  /** A record with the distance of its best chunk. */
  datatype Entry = Entry(record: Id, distance: real, updated: int)

  predicate NearestFirst(chunks: seq<Chunk>) {
    forall i, j :: 0 <= i < j < |chunks| ==> chunks[i].distance <= chunks[j].distance
  }

  predicate Holds(window: seq<Chunk>, record: Id) {
    exists i :: 0 <= i < |window| && window[i].record == record
  }

  /** `MIN(distance) GROUP BY id` */
  function Distance(window: seq<Chunk>, record: Id): (d: real)
    requires Holds(window, record)
    ensures exists i :: 0 <= i < |window| && window[i] == Chunk(record, d)
    ensures forall i :: 0 <= i < |window| && window[i].record == record ==> d <= window[i].distance
  {
    var rest, last := window[..|window| - 1], window[|window| - 1];
    if last.record != record then
      assert forall i :: 0 <= i < |rest| ==> rest[i] == window[i];
      Distance(rest, record)
    else if Holds(rest, record) then
      var d := Distance(rest, record);
      if last.distance < d then last.distance else d
    else
      assert forall i :: 0 <= i < |rest| ==> rest[i] == window[i];
      last.distance
  }

  function Records(window: seq<Chunk>): (r: set<Id>)
    ensures forall id: Id :: id in r <==> Holds(window, id)
  {
    set i | 0 <= i < |window| :: window[i].record
  }

  /** `semantic_distances` */
  function Distances(window: seq<Chunk>, updated: Id -> int): (s: set<Entry>)
    ensures forall e :: e in s <==>
              Holds(window, e.record) && e.distance == Distance(window, e.record) && e.updated == updated(e.record)
  {
    set id | id in Records(window) :: Entry(id, Distance(window, id), updated(id))
  }

  predicate Passes(e: Entry, floor: real) { 1.0 - e.distance >= floor }

  function Passing(s: set<Entry>, floor: real): set<Entry> { set e | e in s && Passes(e, floor) }

  /** `ORDER BY similarity DESC, updated_at DESC, id DESC` */
  predicate Before(a: Entry, b: Entry) {
    || a.distance < b.distance
    || (a.distance == b.distance && (a.updated > b.updated || (a.updated == b.updated && a.record > b.record)))
  }

  function Ahead(s: set<Entry>, e: Entry): set<Entry> { set f | f in s && Before(f, e) }

  /** `row_number()` */
  function Ordinal(s: set<Entry>, e: Entry): nat { |Ahead(s, e)| + 1 }

  /** `ORDER BY … LIMIT take`: the entries with fewer than `take` others ahead of them. */
  function Taken(s: set<Entry>, take: nat): set<Entry> { set e | e in s && Ordinal(s, e) <= take }

  function Window(chunks: seq<Chunk>, limit: nat): seq<Chunk> {
    if |chunks| <= limit then chunks else chunks[..limit]
  }

  /** What the semantic branch gives when `limit` bounds its index walk. */
  function Semantic(chunks: seq<Chunk>, updated: Id -> int, floor: real, take: nat, limit: nat): set<Entry> {
    Taken(Passing(Distances(Window(chunks, limit), updated), floor), take)
  }

  /** The same branch over every authorized chunk. */
  function Unlimited(chunks: seq<Chunk>, updated: Id -> int, floor: real, take: nat): set<Entry> {
    Taken(Passing(Distances(chunks, updated), floor), take)
  }

  datatype WindowRow = WindowRow(windowChunks: nat, windowPassing: nat, windowRecords: nat)

  /** The counters travel on every result row, so a search without candidates shows none. */
  function FirstRow(chunks: seq<Chunk>, updated: Id -> int, floor: real, lexical: set<Id>, limit: nat): Option<WindowRow> {
    if lexical == {} && Semantic(chunks, updated, floor, CANDIDATE_LIMIT, limit) == {} then None
    else
      var distances := Distances(Window(chunks, limit), updated);
      Some(WindowRow(|Window(chunks, limit)|, |Passing(distances, floor)|, |distances|))
  }

  predicate SemanticWindowStarved(row: Option<WindowRow>, limit: nat) {
    && row.Some?
    && row.value.windowChunks >= limit
    && row.value.windowPassing == row.value.windowRecords
    && row.value.windowRecords < CANDIDATE_LIMIT
  }

  // A window against the whole

  /** A record seen in a nearest-first window is at its true distance. */
  lemma WindowDistance(chunks: seq<Chunk>, limit: nat, record: Id)
    requires NearestFirst(chunks) && Holds(Window(chunks, limit), record)
    ensures Holds(chunks, record) && Distance(chunks, record) == Distance(Window(chunks, limit), record)
  {
    var w := Window(chunks, limit);
    var i :| 0 <= i < |w| && w[i] == Chunk(record, Distance(w, record));
    assert chunks[i].record == record;
    var j :| 0 <= j < |chunks| && chunks[j] == Chunk(record, Distance(chunks, record));
    if j < |w| { assert w[j] == chunks[j]; }
  }

  /** A record the window does not show is no nearer than anything the window shows. */
  lemma OutsideIsFarther(chunks: seq<Chunk>, limit: nat, record: Id, i: nat)
    requires NearestFirst(chunks) && Holds(chunks, record) && !Holds(Window(chunks, limit), record)
    requires i < |Window(chunks, limit)|
    ensures Window(chunks, limit)[i].distance <= Distance(chunks, record)
  {
    var w := Window(chunks, limit);
    var j :| 0 <= j < |chunks| && chunks[j] == Chunk(record, Distance(chunks, record));
    assert j < |w| ==> w[j] == chunks[j] && Holds(w, record);
  }

  lemma WindowEntries(chunks: seq<Chunk>, updated: Id -> int, limit: nat)
    requires NearestFirst(chunks)
    ensures Distances(Window(chunks, limit), updated) <= Distances(chunks, updated)
    ensures forall e, i ::
              e in Distances(chunks, updated) && e !in Distances(Window(chunks, limit), updated) && 0 <= i < |Window(chunks, limit)|
              ==> Window(chunks, limit)[i].distance <= e.distance
  {
    var w := Window(chunks, limit);
    forall e | e in Distances(w, updated) ensures e in Distances(chunks, updated) {
      WindowDistance(chunks, limit, e.record);
    }
    forall e, i | e in Distances(chunks, updated) && e !in Distances(w, updated) && 0 <= i < |w|
      ensures w[i].distance <= e.distance
    {
      if Holds(w, e.record) { WindowDistance(chunks, limit, e.record); }
      OutsideIsFarther(chunks, limit, e.record, i);
    }
  }

  lemma PassesInside(chunks: seq<Chunk>, updated: Id -> int, floor: real, limit: nat, failing: Entry, e: Entry)
    requires NearestFirst(chunks) && failing in Distances(Window(chunks, limit), updated) && !Passes(failing, floor)
    requires e in Distances(chunks, updated) && Passes(e, floor)
    ensures e in Distances(Window(chunks, limit), updated)
  {
    var w := Window(chunks, limit);
    WindowEntries(chunks, updated, limit);
    var i :| 0 <= i < |w| && w[i] == Chunk(failing.record, failing.distance);
    assert e !in Distances(w, updated) ==> failing.distance <= e.distance;
  }

  /** Nothing passes outside a window in which some record fails, and nothing is outside one that is not full. */
  lemma NotFullOrFailing(chunks: seq<Chunk>, updated: Id -> int, floor: real, limit: nat)
    requires NearestFirst(chunks)
    requires || |Window(chunks, limit)| < limit
             || Passing(Distances(Window(chunks, limit), updated), floor) != Distances(Window(chunks, limit), updated)
    ensures Passing(Distances(Window(chunks, limit), updated), floor) == Passing(Distances(chunks, updated), floor)
  {
    var inside, all := Distances(Window(chunks, limit), updated), Distances(chunks, updated);
    if |Window(chunks, limit)| >= limit {
      var failing :| failing in inside && !Passes(failing, floor);
      WindowEntries(chunks, updated, limit);
      forall e | e in all && Passes(e, floor) ensures e in inside {
        PassesInside(chunks, updated, floor, limit, failing, e);
      }
    }
  }

  /** `part` is `whole` without some entries that are all at `edge` or beyond it, and itself ends there. */
  predicate Cut(part: set<Entry>, whole: set<Entry>, edge: real) {
    && part <= whole
    && (forall e :: e in part ==> e.distance <= edge)
    && (forall e :: e in whole && e !in part ==> edge <= e.distance)
  }

  lemma BelowEdge(part: set<Entry>, whole: set<Entry>, edge: real, e: Entry)
    requires Cut(part, whole, edge) && e in whole && e.distance < edge
    ensures e in part && Ahead(part, e) == Ahead(whole, e)
  {
  }

  /** In a set with `take` entries at `edge` or nearer, nothing beyond `edge` is taken. */
  lemma BeyondEdge(part: set<Entry>, whole: set<Entry>, edge: real, e: Entry, take: nat)
    requires Cut(part, whole, edge) && take <= |part| && e in whole && edge < e.distance
    ensures e !in Taken(whole, take)
  {
    Within(part, Ahead(whole, e));
  }

  lemma Within<T>(a: set<T>, b: set<T>)
    requires a <= b
    ensures |a| <= |b|
  {
    assert b == a + (b - a);
  }

  /** Two takes that agree up to ties at `edge`: the same entries, in the same places, below it; the rest at it. */
  ghost predicate SameUpToTies(part: set<Entry>, whole: set<Entry>, edge: real, take: nat) {
    && (forall e: Entry :: e.distance < edge ==> (e in Taken(part, take) <==> e in Taken(whole, take)))
    && (forall e: Entry :: e.distance < edge && e in Taken(whole, take) ==> Ordinal(part, e) == Ordinal(whole, e))
    && (forall e :: e in Taken(part, take) || e in Taken(whole, take) ==> e.distance <= edge)
    && |Taken(part, take)| == |Taken(whole, take)|
  }

  lemma CutAgrees(part: set<Entry>, whole: set<Entry>, edge: real, take: nat)
    requires Cut(part, whole, edge) && take <= |part|
    requires DistinctRecords(whole)
    ensures SameUpToTies(part, whole, edge, take)
  {
    forall e: Entry | e.distance < edge && (e in part || e in whole)
      ensures e in part && e in whole && Ordinal(part, e) == Ordinal(whole, e)
    {
      BelowEdge(part, whole, edge, e);
    }
    forall e | e in Taken(whole, take) ensures e.distance <= edge {
      if edge < e.distance { BeyondEdge(part, whole, edge, e, take); }
    }
    Within(part, whole);
    TakenSize(part, take);
    TakenSize(whole, take);
  }

  /** Some entry left out stands at the edge itself and goes before one that was taken. */
  ghost predicate Displaced(part: set<Entry>, whole: set<Entry>, edge: real, take: nat) {
    exists x, e :: x in whole && x !in part && x.distance == edge && e in Taken(part, take) && Before(x, e)
  }

  /** The two takes are equal, in members and ranks, exactly when no entry left out displaces a taken one. */
  lemma CutExactly(part: set<Entry>, whole: set<Entry>, edge: real, take: nat)
    requires Cut(part, whole, edge) && take <= |part| && DistinctRecords(whole)
    ensures Taken(part, take) == Taken(whole, take) <==> !Displaced(part, whole, edge, take)
    ensures Taken(part, take) == Taken(whole, take) ==> forall e :: e in Taken(part, take) ==> Ordinal(part, e) == Ordinal(whole, e)
  {
    if Displaced(part, whole, edge, take) {
      var x, e :| x in whole && x !in part && x.distance == edge && e in Taken(part, take) && Before(x, e);
      DisplacedDiffers(part, whole, take, x, e);
    } else {
      forall e | e in Taken(part, take) ensures Ahead(part, e) == Ahead(whole, e) {}
      Within(part, whole);
      TakenSize(part, take);
      TakenSize(whole, take);
      SameSize(Taken(part, take), Taken(whole, take));
    }
  }

  lemma DisplacedDiffers(part: set<Entry>, whole: set<Entry>, take: nat, x: Entry, e: Entry)
    requires part <= whole && x in whole && x !in part && e in Taken(part, take) && Before(x, e)
    ensures Taken(part, take) != Taken(whole, take)
  {
    if e in Taken(whole, take) {
      assert x !in Ahead(whole, x) && x in Ahead(whole, e);
      Within(Ahead(whole, x) + {x}, Ahead(whole, e));
      assert x in Taken(whole, take);
    }
  }

  lemma SameSize<T>(a: set<T>, b: set<T>)
    requires a <= b && |a| == |b|
    ensures a == b
  {
    assert b == a + (b - a);
  }

  predicate DistinctRecords(s: set<Entry>) {
    forall a, b :: a in s && b in s && a.record == b.record ==> a == b
  }

  lemma Last(s: set<Entry>) returns (z: Entry)
    requires s != {} && DistinctRecords(s)
    decreases s
    ensures z in s && forall e :: e in s && e != z ==> Before(e, z)
  {
    var a :| a in s;
    if s == {a} {
      z := a;
    } else {
      var rest := s - {a};
      var y := Last(rest);
      assert Before(a, y) || Before(y, a);
      z := if Before(a, y) then y else a;
      forall e | e in s && e != z ensures Before(e, z) {
        assert e != y ==> e == a || Before(e, y);
      }
    }
  }

  /** `LIMIT take` gives `take` entries, or all when there are fewer. */
  lemma {:induction false} TakenSize(s: set<Entry>, take: nat)
    requires DistinctRecords(s)
    ensures |Taken(s, take)| == if |s| <= take then |s| else take
  {
    if s == {} {
      assert Taken(s, take) == {};
    } else {
      var z := Last(s);
      var rest := s - {z};
      TakenSize(rest, take);
      assert Ahead(s, z) == rest;
      forall e | e in rest ensures Ahead(s, e) == Ahead(rest, e) {}
      if |s| <= take {
        assert Taken(s, take) == Taken(rest, take) + {z};
      } else {
        assert Taken(s, take) == Taken(rest, take);
      }
    }
  }

  /** Nearer first; at one distance the later updated, then the greater id. */
  predicate RanksAhead(e: Entry, distance: real, updated: int, record: Id) {
    || e.distance < distance
    || (e.distance == distance && e.updated > updated)
    || (e.distance == distance && e.updated == updated && e.record > record)
  }

  /**
   * What the unlimited branch answers, chunk by chunk: records at the distance of their nearest chunk, none below the
   * floor; and a record with a chunk above the floor is missing only when `take` others all rank ahead of that chunk.
   */
  lemma UnlimitedIs(chunks: seq<Chunk>, updated: Id -> int, floor: real, take: nat, k: nat)
    requires k < |chunks|
    ensures var u := Unlimited(chunks, updated, floor, take);
            && |u| <= take
            && (forall e :: e in u && e.record == chunks[k].record ==>
                  e.distance <= chunks[k].distance && e.updated == updated(e.record) && 1.0 - e.distance >= floor)
            && (1.0 - chunks[k].distance >= floor && (forall e :: e in u ==> e.record != chunks[k].record) ==>
                  |u| == take && forall e :: e in u ==> RanksAhead(e, chunks[k].distance, updated(chunks[k].record), chunks[k].record))
  {
    var passing := Passing(Distances(chunks, updated), floor);
    var u := Taken(passing, take);
    var record := chunks[k].record;
    assert Holds(chunks, record);
    var own := Entry(record, Distance(chunks, record), updated(record));
    PassingDistinct(chunks, updated, floor);
    TakenSize(passing, take);
    if 1.0 - chunks[k].distance >= floor && own !in u {
      assert own in passing;
      LeftOut(passing, take, own);
    }
  }

  /** An entry left out of a full take ranks behind every taken one. */
  lemma LeftOut(s: set<Entry>, take: nat, x: Entry)
    requires DistinctRecords(s) && x in s && x !in Taken(s, take)
    ensures |Taken(s, take)| == take && forall e :: e in Taken(s, take) ==> Before(e, x)
  {
    TakenSize(s, take);
    assert x !in Ahead(s, x);
    if |s| <= take {
      Within(Ahead(s, x) + {x}, s);
    }
    forall e | e in Taken(s, take) ensures Before(e, x) {
      if !Before(e, x) {
        assert Before(x, e) && x !in Ahead(s, x);
        Within(Ahead(s, x) + {x}, Ahead(s, e));
      }
    }
  }

  // The search

  lemma AllPassCount(s: set<Entry>, floor: real)
    ensures |Passing(s, floor)| == |s| <==> Passing(s, floor) == s
  {
    if Passing(s, floor) != s {
      var e :| e in s && e !in Passing(s, floor);
      Within(Passing(s, floor), s - {e});
    }
  }

  /** A search that shows no row has nothing to widen: the missing counters would not be starved either. */
  lemma NoRowIsNotStarved(chunks: seq<Chunk>, updated: Id -> int, floor: real, lexical: set<Id>, limit: nat)
    requires limit > 0 && FirstRow(chunks, updated, floor, lexical, limit).None?
    ensures |Window(chunks, limit)| < limit
            || Passing(Distances(Window(chunks, limit), updated), floor) != Distances(Window(chunks, limit), updated)
  {
    var w := Window(chunks, limit);
    if w != [] {
      assert Holds(w, w[0].record);
      assert Entry(w[0].record, Distance(w, w[0].record), updated(w[0].record)) in Distances(w, updated);
      TakenSize(Passing(Distances(w, updated), floor), CANDIDATE_LIMIT);
      assert Taken(Passing(Distances(w, updated), floor), CANDIDATE_LIMIT) == {};
    }
  }

  /**
   * The answer a stopped search owes: exact, or with a full take that agrees up to ties at the window's edge and
   * is equal exactly when no record left out at that edge goes before one that was taken.
   */
  ghost predicate Answers(chunks: seq<Chunk>, updated: Id -> int, floor: real, limit: nat) {
    var window := Window(chunks, limit);
    var part := Passing(Distances(window, updated), floor);
    var whole := Passing(Distances(chunks, updated), floor);
    || part == whole
    || (&& window != []
        && SameUpToTies(part, whole, window[|window| - 1].distance, CANDIDATE_LIMIT)
        && EqualExactly(part, whole, window[|window| - 1].distance, CANDIDATE_LIMIT))
  }

  ghost predicate EqualExactly(part: set<Entry>, whole: set<Entry>, edge: real, take: nat) {
    && (Taken(part, take) == Taken(whole, take) <==> !Displaced(part, whole, edge, take))
    && (Taken(part, take) == Taken(whole, take) ==>
          forall e :: e in Taken(part, take) ==> Ordinal(part, e) == Ordinal(whole, e))
  }

  /** The nearest chunk left out is strictly farther than the last one let in. */
  predicate TieFree(chunks: seq<Chunk>, limit: nat) {
    0 < limit < |chunks| ==> chunks[limit - 1].distance < chunks[limit].distance
  }

  lemma PassingDistinct(window: seq<Chunk>, updated: Id -> int, floor: real)
    ensures DistinctRecords(Passing(Distances(window, updated), floor))
  {
  }

  lemma {:induction false} FullTake(chunks: seq<Chunk>, updated: Id -> int, floor: real, limit: nat)
    requires NearestFirst(chunks) && limit > 0 && |Window(chunks, limit)| >= limit
    requires Passing(Distances(Window(chunks, limit), updated), floor) == Distances(Window(chunks, limit), updated)
    requires |Distances(Window(chunks, limit), updated)| >= CANDIDATE_LIMIT
    ensures Answers(chunks, updated, floor, limit)
  {
    var w := Window(chunks, limit);
    var edge := chunks[limit - 1].distance;
    var part, whole := Passing(Distances(w, updated), floor), Passing(Distances(chunks, updated), floor);
    assert |w| == limit && w[limit - 1] == chunks[limit - 1];
    EdgeCuts(chunks, updated, floor, limit);
    PassingDistinct(chunks, updated, floor);
    CutAgrees(part, whole, edge, CANDIDATE_LIMIT);
    CutExactly(part, whole, edge, CANDIDATE_LIMIT);
    FullAnswers(chunks, updated, floor, limit);
  }

  lemma {:induction false} FullAnswers(chunks: seq<Chunk>, updated: Id -> int, floor: real, limit: nat)
    requires limit > 0 && |Window(chunks, limit)| == limit
    requires var part := Passing(Distances(Window(chunks, limit), updated), floor);
             var whole := Passing(Distances(chunks, updated), floor);
             && SameUpToTies(part, whole, chunks[limit - 1].distance, CANDIDATE_LIMIT)
             && EqualExactly(part, whole, chunks[limit - 1].distance, CANDIDATE_LIMIT)
    ensures Answers(chunks, updated, floor, limit)
  {
  }

  /** In particular it is equal when the nearest chunk left out is farther than the last one let in. */
  lemma TieFreeIsEqual(chunks: seq<Chunk>, updated: Id -> int, floor: real, limit: nat)
    requires NearestFirst(chunks) && limit > 0 && TieFree(chunks, limit)
    requires |Passing(Distances(Window(chunks, limit), updated), floor)| >= CANDIDATE_LIMIT
    ensures Semantic(chunks, updated, floor, CANDIDATE_LIMIT, limit) == Unlimited(chunks, updated, floor, CANDIDATE_LIMIT)
  {
    if |Window(chunks, limit)| >= limit {
      var part := Passing(Distances(Window(chunks, limit), updated), floor);
      var whole := Passing(Distances(chunks, updated), floor);
      EdgeCuts(chunks, updated, floor, limit);
      forall e | e in whole && e !in part ensures e.distance != chunks[limit - 1].distance {
        NoTieOutside(chunks, updated, floor, limit, e);
      }
      CutExactly(part, whole, chunks[limit - 1].distance, CANDIDATE_LIMIT);
    }
  }

  lemma EdgeCuts(chunks: seq<Chunk>, updated: Id -> int, floor: real, limit: nat)
    requires NearestFirst(chunks) && limit > 0 && |Window(chunks, limit)| >= limit
    ensures Cut(Passing(Distances(Window(chunks, limit), updated), floor), Passing(Distances(chunks, updated), floor),
                chunks[limit - 1].distance)
  {
    var w := Window(chunks, limit);
    WindowEntries(chunks, updated, limit);
    assert w[limit - 1] == chunks[limit - 1];
    forall e | e in Distances(w, updated) ensures e.distance <= chunks[limit - 1].distance {
      var i :| 0 <= i < |w| && w[i] == Chunk(e.record, e.distance);
      assert w[i] == chunks[i];
    }
  }

  lemma NoTieOutside(chunks: seq<Chunk>, updated: Id -> int, floor: real, limit: nat, e: Entry)
    requires NearestFirst(chunks) && limit > 0 && |Window(chunks, limit)| >= limit && TieFree(chunks, limit)
    requires e in Distances(chunks, updated) && e !in Distances(Window(chunks, limit), updated)
    ensures e.distance != chunks[limit - 1].distance
  {
    var w := Window(chunks, limit);
    var j :| 0 <= j < |chunks| && chunks[j] == Chunk(e.record, e.distance);
    if j < |w| {
      assert w[j] == chunks[j];
      assert Holds(w, e.record);
      WindowDistance(chunks, limit, e.record);
    }
  }

  /** Once the window is not starved, widening it further cannot change the answer (up to ties at its edge). */
  lemma NotStarvedAnswers(chunks: seq<Chunk>, updated: Id -> int, floor: real, lexical: set<Id>, limit: nat)
    requires NearestFirst(chunks) && limit > 0
    requires !SemanticWindowStarved(FirstRow(chunks, updated, floor, lexical, limit), limit)
    ensures Answers(chunks, updated, floor, limit)
  {
    var distances := Distances(Window(chunks, limit), updated);
    AllPassCount(distances, floor);
    if FirstRow(chunks, updated, floor, lexical, limit).None? {
      NoRowIsNotStarved(chunks, updated, floor, lexical, limit);
    }
    if |Window(chunks, limit)| < limit || Passing(distances, floor) != distances {
      NotFullOrFailing(chunks, updated, floor, limit);
    } else {
      FullTake(chunks, updated, floor, limit);
    }
  }

  lemma SemanticSize(chunks: seq<Chunk>, updated: Id -> int, floor: real, limit: nat)
    ensures |Semantic(chunks, updated, floor, CANDIDATE_LIMIT, limit)| <= 40
    ensures |Semantic(chunks, updated, floor, CANDIDATE_LIMIT, limit)| < 40 ==>
              Semantic(chunks, updated, floor, CANDIDATE_LIMIT, limit) == Passing(Distances(Window(chunks, limit), updated), floor)
  {
    PassingDistinct(Window(chunks, limit), updated, floor);
    var passing := Passing(Distances(Window(chunks, limit), updated), floor);
    TakenSize(passing, CANDIDATE_LIMIT);
    if |Taken(passing, CANDIDATE_LIMIT)| < 40 { SameSize(Taken(passing, CANDIDATE_LIMIT), passing); }
  }

  /** No record of the window is below the floor. */
  ghost predicate AllPass(chunks: seq<Chunk>, updated: Id -> int, floor: real, limit: nat) {
    Passing(Distances(Window(chunks, limit), updated), floor) == Distances(Window(chunks, limit), updated)
  }

  /**
   * The widening loop: at most three queries, each wider one after a starved window, and the unlimited answer unless
   * the widest window was full and every record in it passed.
   */
  method Search(chunks: seq<Chunk>, updated: Id -> int, floor: real, lexical: set<Id>)
    returns (semantic: set<Entry>, chunkLimit: nat, queries: nat)
    requires NearestFirst(chunks)
    ensures semantic == Semantic(chunks, updated, floor, CANDIDATE_LIMIT, chunkLimit)
    ensures Widened(chunks, updated, floor, lexical, chunkLimit, queries) && |semantic| <= 40
    ensures || Answers(chunks, updated, floor, chunkLimit)
            || (chunkLimit == 3200 <= |chunks| && |semantic| < 40 && AllPass(chunks, updated, floor, chunkLimit))
  {
    chunkLimit := CHUNK_CANDIDATES;
    var row := FirstRow(chunks, updated, floor, lexical, chunkLimit);
    queries := 1;
    while chunkLimit < CHUNK_CEILING && SemanticWindowStarved(row, chunkLimit)
      invariant row == FirstRow(chunks, updated, floor, lexical, chunkLimit)
      invariant Widened(chunks, updated, floor, lexical, chunkLimit, queries)
      decreases CHUNK_CEILING - chunkLimit
    {
      chunkLimit := if chunkLimit * 4 < CHUNK_CEILING then chunkLimit * 4 else CHUNK_CEILING;
      row := FirstRow(chunks, updated, floor, lexical, chunkLimit);
      queries := queries + 1;
    }
    semantic := Semantic(chunks, updated, floor, CANDIDATE_LIMIT, chunkLimit);
    SemanticSize(chunks, updated, floor, chunkLimit);
    StoppedOwes(chunks, updated, floor, lexical, chunkLimit);
  }

  predicate StarvedAt(chunks: seq<Chunk>, updated: Id -> int, floor: real, lexical: set<Id>, limit: nat) {
    SemanticWindowStarved(FirstRow(chunks, updated, floor, lexical, limit), limit)
  }

  /** The first window, the second after a starved first, or the third after two starved ones. */
  predicate Widened(chunks: seq<Chunk>, updated: Id -> int, floor: real, lexical: set<Id>, limit: nat, queries: nat) {
    || (queries == 1 && limit == 200)
    || (queries == 2 && limit == 800 && StarvedAt(chunks, updated, floor, lexical, 200))
    || (queries == 3 && limit == 3200 && StarvedAt(chunks, updated, floor, lexical, 200)
        && StarvedAt(chunks, updated, floor, lexical, 800))
  }

  /** What a search owes that stops at this window, starved or not. */
  lemma StoppedOwes(chunks: seq<Chunk>, updated: Id -> int, floor: real, lexical: set<Id>, limit: nat)
    requires NearestFirst(chunks) && limit > 0
    ensures || Answers(chunks, updated, floor, limit)
            || (&& SemanticWindowStarved(FirstRow(chunks, updated, floor, lexical, limit), limit)
                && limit <= |chunks| && AllPass(chunks, updated, floor, limit)
                && |Semantic(chunks, updated, floor, CANDIDATE_LIMIT, limit)| < 40)
  {
    if SemanticWindowStarved(FirstRow(chunks, updated, floor, lexical, limit), limit) {
      Within(Semantic(chunks, updated, floor, CANDIDATE_LIMIT, limit), Distances(Window(chunks, limit), updated));
      AllPassCount(Distances(Window(chunks, limit), updated), floor);
    } else {
      NotStarvedAnswers(chunks, updated, floor, lexical, limit);
    }
  }

  /** `n` records, each with one chunk, all at the same distance. */
  function Level(n: nat): (chunks: seq<Chunk>)
    ensures |chunks| == n && forall i :: 0 <= i < n ==> chunks[i] == Chunk(i, 0.0)
  {
    seq(n, i requires 0 <= i < n => Chunk(i, 0.0))
  }

  lemma LevelEntries(n: nat, limit: nat, updated: Id -> int, e: Entry)
    requires limit <= n
    ensures e in Distances(Window(Level(n), limit), updated) <==> e.record < limit && e == Entry(e.record, 0.0, updated(e.record))
  {
    var w := Window(Level(n), limit);
    assert forall i :: 0 <= i < limit ==> w[i] == Chunk(i, 0.0);
    if e.record < limit { assert w[e.record].record == e.record; }
  }

  lemma {:induction false} AtLeast(s: set<Entry>, n: nat, updated: Id -> int)
    requires forall i: nat :: i < n ==> Entry(i, 0.0, updated(i)) in s
    ensures |s| >= n
    decreases n
  {
    if n > 0 {
      var last := Entry(n - 1, 0.0, updated(n - 1));
      AtLeast(s - {last}, n - 1, updated);
    }
  }

  /**
   * A tie at the edge is real: of 201 records at one distance, updated at one time, the first window shows 200
   * and is not starved, and the record it leaves out is the first one of the unlimited answer.
   */
  lemma TieAtEdge(updated: Id -> int, lexical: set<Id>, floor: real)
    requires floor <= 1.0 && forall id :: updated(id) == 0
    ensures var chunks := Level(CHUNK_CANDIDATES + 1);
            var first := Entry(CHUNK_CANDIDATES, 0.0, 0);
            && NearestFirst(chunks)
            && !SemanticWindowStarved(FirstRow(chunks, updated, floor, lexical, CHUNK_CANDIDATES), CHUNK_CANDIDATES)
            && first in Unlimited(chunks, updated, floor, CANDIDATE_LIMIT)
            && first !in Semantic(chunks, updated, floor, CANDIDATE_LIMIT, CHUNK_CANDIDATES)
  {
    var chunks := Level(CHUNK_CANDIDATES + 1);
    var first := Entry(CHUNK_CANDIDATES, 0.0, 0);
    var window := Distances(Window(chunks, CHUNK_CANDIDATES), updated);
    forall i: nat | i < CHUNK_CANDIDATES ensures Entry(i, 0.0, updated(i)) in window {
      LevelEntries(CHUNK_CANDIDATES + 1, CHUNK_CANDIDATES, updated, Entry(i, 0.0, updated(i)));
    }
    AtLeast(window, CHUNK_CANDIDATES, updated);
    LevelEntries(CHUNK_CANDIDATES + 1, CHUNK_CANDIDATES, updated, first);
    assert Window(chunks, CHUNK_CANDIDATES + 1) == chunks;
    LevelEntries(CHUNK_CANDIDATES + 1, CHUNK_CANDIDATES + 1, updated, first);
    var all := Passing(Distances(chunks, updated), floor);
    forall e | e in all ensures !Before(e, first) {
      LevelEntries(CHUNK_CANDIDATES + 1, CHUNK_CANDIDATES + 1, updated, e);
    }
    assert Ahead(all, first) == {};
  }
}
