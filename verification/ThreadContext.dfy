/**
 * The context assembly of memory-thread-context.ts: the first two threads by relevance, then whole blocks and
 * episodes within the brief, episode and total budgets, and no source entry or record twice across threads.
 * The finished context accounts for every character it emits, and nothing that was left out of it could
 * still be added whole.
 */
module ThreadContext {
  import opened Utf16
  import opened Wrappers

  const MAX_THREADS := 2
  const MAX_CHARACTERS := 6000
  const BRIEF_MAX_CHARACTERS := 3000
  const BRIEF_MAX_ITEMS := 20
  const EPISODES_PER_THREAD := 3
  const EPISODE_MAX_CHARACTERS := 2000

  datatype Evidence = Evidence(entryRef: Text, authorLabel: Text, kind: Text, observedAt: Text)

  /** A brief block or an episode; only blocks name conflicts. */
  datatype Item = Item(content: Text, entryRefs: seq<Text>, recordRefs: seq<Text>, conflictRefs: seq<Text>)

  datatype Relevance = Relevance(skillHint: bool, titleMatch: bool, retrievalHits: nat)

  /** `order` is the place of the thread's reference in the collation of references. */
  datatype Thread = Thread(
    title: Text, purpose: Text, completed: bool, blocks: seq<Item>, completion: Option<Item>, episodes: seq<Item>,
    evidence: seq<Evidence>, relevance: Relevance, order: nat)

  datatype Place = Brief | Completion | Episode

  datatype Piece = Piece(item: Item, evidence: seq<Evidence>)

  datatype Projected = Projected(thread: Thread, blocks: seq<Piece>, completion: Option<Piece>, episodes: seq<Piece>)

  // Sizes

  function Lengths(refs: seq<Text>): nat { if refs == [] then 0 else |refs[0]| + Lengths(refs[1..]) }

  function EvidenceFor(item: Item, evidence: seq<Evidence>): seq<Evidence> {
    if evidence == [] then []
    else (if evidence[0].entryRef in item.entryRefs then [evidence[0]] else []) + EvidenceFor(item, evidence[1..])
  }

  function EvidenceCharacters(evidence: seq<Evidence>): nat {
    if evidence == [] then 0
    else
      var e := evidence[0];
      |e.entryRef| + |e.authorLabel| + |e.kind| + |e.observedAt| + EvidenceCharacters(evidence[1..])
  }

  function PieceOf(item: Item, thread: Thread): Piece { Piece(item, EvidenceFor(item, thread.evidence)) }

  function PieceCharacters(p: Piece): nat {
    |p.item.content| + Lengths(p.item.conflictRefs) + EvidenceCharacters(p.evidence)
  }

  function Base(thread: Thread): nat { |thread.title| + |thread.purpose| }

  function Sum(pieces: seq<Piece>): nat { if pieces == [] then 0 else Sum(pieces[..|pieces| - 1]) + PieceCharacters(pieces[|pieces| - 1]) }

  function Pieces(p: Projected): seq<Piece> {
    p.blocks + (if p.completion == None then [] else [p.completion.value]) + p.episodes
  }

  function Characters(threads: seq<Projected>): nat {
    if threads == [] then 0
    else
      var last := threads[|threads| - 1];
      Characters(threads[..|threads| - 1]) + Base(last.thread) + Sum(last.blocks)
      + (if last.completion == None then 0 else PieceCharacters(last.completion.value)) + Sum(last.episodes)
  }

  function AllPieces(threads: seq<Projected>): seq<Piece> {
    if threads == [] then [] else AllPieces(threads[..|threads| - 1]) + Pieces(threads[|threads| - 1])
  }

  // The steps

  /** What is assembled so far, the thread being filled last; `total` counts it too. */
  datatype Assembly = Assembly(threads: seq<Projected>, total: nat, entries: set<Text>, records: set<Text>)

  const EMPTY := Assembly([], 0, {}, {})

  function Elements(refs: seq<Text>): set<Text> { set r | r in refs }

  predicate Repeats(a: Assembly, item: Item) {
    Elements(item.entryRefs) * a.entries != {} || Elements(item.recordRefs) * a.records != {}
  }

  function Begin(a: Assembly, thread: Thread): Assembly {
    a.(threads := a.threads + [Projected(thread, [], None, [])], total := a.total + Base(thread))
  }

  function Placed(p: Projected, place: Place, piece: Piece): Projected {
    match place
    case Brief => p.(blocks := p.blocks + [piece])
    case Completion => p.(completion := Some(piece))
    case Episode => p.(episodes := p.episodes + [piece])
  }

  function Push(a: Assembly, place: Place, piece: Piece): Assembly
    requires a.threads != []
  {
    var n := |a.threads| - 1;
    Assembly(a.threads[..n] + [Placed(a.threads[n], place, piece)], a.total + PieceCharacters(piece),
             a.entries + Elements(piece.item.entryRefs), a.records + Elements(piece.item.recordRefs))
  }

  /** Why an item stays out. `brief` is the size of its thread's blocks. */
  predicate StaysOut(a: Assembly, place: Place, piece: Piece, brief: nat) {
    || Repeats(a, piece.item)
    || (place != Brief && |piece.item.content| > EPISODE_MAX_CHARACTERS)
    || (place == Brief && brief + PieceCharacters(piece) > BRIEF_MAX_CHARACTERS)
    || a.total + PieceCharacters(piece) > MAX_CHARACTERS
  }

  function Add(a: Assembly, place: Place, item: Item): Assembly
    requires a.threads != []
  {
    var last := a.threads[|a.threads| - 1];
    var piece := PieceOf(item, last.thread);
    if StaysOut(a, place, piece, Sum(last.blocks)) then a else Push(a, place, piece)
  }

  function AddAll(a: Assembly, place: Place, items: seq<Item>): (b: Assembly)
    requires a.threads != []
    ensures b.threads != []
  {
    if items == [] then a else Add(AddAll(a, place, items[..|items| - 1]), place, items[|items| - 1])
  }

  function First(items: seq<Item>, n: nat): seq<Item> { if |items| <= n then items else items[..n] }

  function AddThread(a: Assembly, thread: Thread): Assembly {
    if a.total + Base(thread) > MAX_CHARACTERS then a
    else if thread.completed then
      if thread.completion == None || StaysOut(Begin(a, thread), Completion, PieceOf(thread.completion.value, thread), 0) then a
      else Push(Begin(a, thread), Completion, PieceOf(thread.completion.value, thread))
    else
      AddAll(AddAll(Begin(a, thread), Brief, First(thread.blocks, BRIEF_MAX_ITEMS)), Episode,
             First(thread.episodes, EPISODES_PER_THREAD))
  }

  function AddThreads(threads: seq<Thread>): Assembly {
    if threads == [] then EMPTY else AddThread(AddThreads(threads[..|threads| - 1]), threads[|threads| - 1])
  }

  // Totals, limits and sources

  predicate Apart(a: Piece, b: Piece) {
    && Elements(a.item.entryRefs) * Elements(b.item.entryRefs) == {}
    && Elements(a.item.recordRefs) * Elements(b.item.recordRefs) == {}
  }

  predicate WithinSizes(p: Projected) {
    && Sum(p.blocks) <= 3_000
    && (forall i :: 0 <= i < |p.episodes| ==> |p.episodes[i].item.content| <= 2_000)
    && (p.completion.Some? ==> |p.completion.value.item.content| <= 2_000)
  }

  /** At most so many blocks and episodes of one thread. */
  predicate FewItems(p: Projected) { |p.blocks| <= 20 && |p.episodes| <= 3 }

  /** Every limit of one thread. */
  predicate WithinLimits(p: Projected) { WithinSizes(p) && FewItems(p) }

  ghost predicate Inv(a: Assembly) {
    && a.total == Characters(a.threads) <= 6_000
    && (forall i :: 0 <= i < |a.threads| ==> WithinSizes(a.threads[i]))
    && SourcesOnce(a)
  }

  predicate Sourced(p: Piece, entries: set<Text>, records: set<Text>) {
    Elements(p.item.entryRefs) <= entries && Elements(p.item.recordRefs) <= records
  }

  ghost predicate Shown(all: seq<Piece>, entries: set<Text>, records: set<Text>) {
    && (forall r :: r in entries ==> exists i :: 0 <= i < |all| && r in all[i].item.entryRefs)
    && (forall r :: r in records ==> exists i :: 0 <= i < |all| && r in all[i].item.recordRefs)
  }

  predicate PairwiseApart(all: seq<Piece>) { forall i, j :: 0 <= i < j < |all| ==> Apart(all[i], all[j]) }

  /** The seen sources are those emitted, and no two emitted items share one. */
  ghost predicate Once(all: seq<Piece>, entries: set<Text>, records: set<Text>) {
    && (forall i :: 0 <= i < |all| ==> Sourced(all[i], entries, records))
    && PairwiseApart(all)
    && Shown(all, entries, records)
  }

  ghost predicate SourcesOnce(a: Assembly) { Once(AllPieces(a.threads), a.entries, a.records) }

  /** A place in `s` with one element put in at `k`, and the other way round. */
  function Back(k: nat, i: nat): nat { if i < k then i else i + 1 }

  lemma InsertedAt<T>(s: seq<T>, k: nat, x: T)
    requires k <= |s|
    ensures var t := s[..k] + [x] + s[k..];
            && t[k] == x && |t| == |s| + 1
            && (forall i :: 0 <= i < |s| ==> t[Back(k, i)] == s[i])
            && (forall i :: 0 <= i < k ==> t[i] == s[i])
            && (forall i :: k < i < |t| ==> t[i] == s[i - 1])
  {
  }

  lemma InsertedApart(s: seq<Piece>, k: nat, x: Piece)
    requires k <= |s| && (forall i :: 0 <= i < |s| ==> Apart(s[i], x)) && PairwiseApart(s)
    ensures PairwiseApart(s[..k] + [x] + s[k..])
  {
    InsertedAt(s, k, x);
  }

  lemma InsertedShown(s: seq<Piece>, k: nat, x: Piece, entries: set<Text>, records: set<Text>)
    requires k <= |s| && Shown(s, entries, records)
    ensures Shown(s[..k] + [x] + s[k..], entries + Elements(x.item.entryRefs), records + Elements(x.item.recordRefs))
  {
    var t := s[..k] + [x] + s[k..];
    InsertedAt(s, k, x);
    forall r | r in entries ensures exists i :: 0 <= i < |t| && r in t[i].item.entryRefs {
      var i :| 0 <= i < |s| && r in s[i].item.entryRefs;
      assert t[Back(k, i)] == s[i];
    }
    forall r | r in records ensures exists i :: 0 <= i < |t| && r in t[i].item.recordRefs {
      var i :| 0 <= i < |s| && r in s[i].item.recordRefs;
      assert t[Back(k, i)] == s[i];
    }
  }

  lemma InsertedOnce(s: seq<Piece>, k: nat, x: Piece, entries: set<Text>, records: set<Text>)
    requires k <= |s| && Once(s, entries, records)
    requires Elements(x.item.entryRefs) * entries == {} && Elements(x.item.recordRefs) * records == {}
    ensures Once(s[..k] + [x] + s[k..], entries + Elements(x.item.entryRefs), records + Elements(x.item.recordRefs))
  {
    forall i | 0 <= i < |s| ensures Apart(s[i], x) { assert Sourced(s[i], entries, records); }
    InsertedApart(s, k, x);
    InsertedShown(s, k, x, entries, records);
    forall p | p in s ensures Sourced(p, entries, records) {}
    assert forall i :: 0 <= i < |s| + 1 ==> (s[..k] + [x] + s[k..])[i] in s + [x];
  }

  /** Pushing puts one piece somewhere among those of the last thread. */
  lemma PlacedPieces(p: Projected, place: Place, piece: Piece) returns (k: nat)
    requires place == Completion ==> p.completion == None
    ensures k <= |Pieces(p)| && Pieces(Placed(p, place, piece)) == Pieces(p)[..k] + [piece] + Pieces(p)[k..]
  {
    k := if place == Episode then |Pieces(p)| else |p.blocks|;
    assert Pieces(p)[..|p.blocks|] == p.blocks;
    assert place == Episode ==> Pieces(p)[k..] == [];
  }

  lemma Behind(before: seq<Piece>, s: seq<Piece>, k: nat, x: Piece)
    requires k <= |s|
    ensures before + (s[..k] + [x] + s[k..]) == (before + s)[..|before| + k] + [x] + (before + s)[|before| + k..]
  {
    assert (before + s)[..|before| + k] == before + s[..k] && (before + s)[|before| + k..] == s[k..];
  }

  lemma PushedSources(a: Assembly, place: Place, piece: Piece)
    requires SourcesOnce(a) && a.threads != [] && !Repeats(a, piece.item)
    requires place == Completion ==> a.threads[|a.threads| - 1].completion == None
    ensures SourcesOnce(Push(a, place, piece))
  {
    var n := |a.threads| - 1;
    var before := AllPieces(a.threads[..n]);
    var t := Push(a, place, piece).threads;
    assert t[..n] == a.threads[..n] && t[n] == Placed(a.threads[n], place, piece);
    var k := PlacedPieces(a.threads[n], place, piece);
    Behind(before, Pieces(a.threads[n]), k, piece);
    InsertedOnce(AllPieces(a.threads), |before| + k, piece, a.entries, a.records);
  }

  lemma PushedCharacters(a: Assembly, place: Place, piece: Piece)
    requires a.threads != [] && (place == Completion ==> a.threads[|a.threads| - 1].completion == None)
    ensures Characters(Push(a, place, piece).threads) == Characters(a.threads) + PieceCharacters(piece)
  {
    var n := |a.threads| - 1;
    var p := a.threads[n];
    var t := Push(a, place, piece).threads;
    assert t[..n] == a.threads[..n] && t[n] == Placed(p, place, piece);
    assert (p.blocks + [piece])[..|p.blocks|] == p.blocks;
    assert (p.episodes + [piece])[..|p.episodes|] == p.episodes;
  }

  lemma PlacedWithin(p: Projected, place: Place, piece: Piece)
    requires WithinSizes(p)
    requires place == Brief ==> Sum(p.blocks) + PieceCharacters(piece) <= BRIEF_MAX_CHARACTERS
    requires place != Brief ==> |piece.item.content| <= EPISODE_MAX_CHARACTERS
    ensures WithinSizes(Placed(p, place, piece))
  {
    assert (p.blocks + [piece])[..|p.blocks|] == p.blocks;
  }

  lemma PushKeeps(a: Assembly, place: Place, piece: Piece)
    requires Inv(a) && a.threads != [] && !StaysOut(a, place, piece, Sum(a.threads[|a.threads| - 1].blocks))
    requires place == Completion ==> a.threads[|a.threads| - 1].completion == None
    ensures Inv(Push(a, place, piece))
  {
    PushedSources(a, place, piece);
    PushedCharacters(a, place, piece);
    PlacedWithin(a.threads[|a.threads| - 1], place, piece);
  }

  lemma BeginKeeps(a: Assembly, thread: Thread)
    requires Inv(a) && a.total + Base(thread) <= MAX_CHARACTERS
    ensures Inv(Begin(a, thread))
  {
    var t := Begin(a, thread).threads;
    assert t[..|a.threads|] == a.threads;
    assert AllPieces(t) == AllPieces(a.threads) + [];
    assert AllPieces(t) == AllPieces(a.threads);
  }

  lemma {:induction false} AddAllKeeps(a: Assembly, place: Place, items: seq<Item>)
    requires Inv(a) && a.threads != [] && place != Completion
    ensures Inv(AddAll(a, place, items))
    decreases |items|
  {
    if items != [] {
      var rest := items[..|items| - 1];
      AddAllKeeps(a, place, rest);
      var b := AddAll(a, place, rest);
      var last := b.threads[|b.threads| - 1];
      var piece := PieceOf(items[|items| - 1], last.thread);
      if !StaysOut(b, place, piece, Sum(last.blocks)) { PushKeeps(b, place, piece); }
    }
  }

  lemma CompletionKeeps(b: Assembly, piece: Piece)
    requires Inv(b) && b.threads != [] && b.threads[|b.threads| - 1].blocks == [] && b.threads[|b.threads| - 1].completion == None
    ensures !StaysOut(b, Completion, piece, 0) ==> Inv(Push(b, Completion, piece))
  {
    if !StaysOut(b, Completion, piece, 0) { PushKeeps(b, Completion, piece); }
  }

  lemma AddThreadKeeps(a: Assembly, thread: Thread)
    requires Inv(a)
    ensures Inv(AddThread(a, thread))
  {
    if a.total + Base(thread) <= MAX_CHARACTERS {
      BeginKeeps(a, thread);
      var b := Begin(a, thread);
      assert b.threads[|b.threads| - 1] == Projected(thread, [], None, []);
      if thread.completed {
        if thread.completion.Some? { CompletionKeeps(b, PieceOf(thread.completion.value, thread)); }
      } else {
        AddAllKeeps(b, Brief, First(thread.blocks, BRIEF_MAX_ITEMS));
        AddAllKeeps(AddAll(b, Brief, First(thread.blocks, BRIEF_MAX_ITEMS)), Episode,
                    First(thread.episodes, EPISODES_PER_THREAD));
      }
    }
  }

  /** Considering `items` adds at most that many to their place in the last thread, and nothing elsewhere. */
  lemma {:induction false} AddAllCounts(a: Assembly, place: Place, items: seq<Item>)
    requires a.threads != [] && place != Completion
    ensures var b, n := AddAll(a, place, items), |a.threads| - 1;
            && |b.threads| == |a.threads| && b.threads[..n] == a.threads[..n]
            && |b.threads[n].blocks| <= |a.threads[n].blocks| + (if place == Brief then |items| else 0)
            && |b.threads[n].episodes| <= |a.threads[n].episodes| + (if place == Episode then |items| else 0)
    decreases |items|
  {
    if items != [] { AddAllCounts(a, place, items[..|items| - 1]); }
  }

  ghost predicate AllFew(a: Assembly) { forall i :: 0 <= i < |a.threads| ==> FewItems(a.threads[i]) }

  lemma LastFew(a: Assembly, b: Assembly)
    requires AllFew(a) && |b.threads| == |a.threads| + 1 && b.threads[..|a.threads|] == a.threads
    requires FewItems(b.threads[|a.threads|])
    ensures AllFew(b)
  {
    forall i | 0 <= i < |a.threads| ensures FewItems(b.threads[i]) {
      assert b.threads[i] == b.threads[..|a.threads|][i];
    }
  }

  lemma OpenThreadFew(a: Assembly, thread: Thread, blocks: seq<Item>, episodes: seq<Item>)
    requires AllFew(a) && |blocks| <= BRIEF_MAX_ITEMS && |episodes| <= EPISODES_PER_THREAD
    ensures AllFew(AddAll(AddAll(Begin(a, thread), Brief, blocks), Episode, episodes))
  {
    var b := Begin(a, thread);
    assert b.threads[..|a.threads|] == a.threads;
    AddAllCounts(b, Brief, blocks);
    var c := AddAll(b, Brief, blocks);
    AddAllCounts(c, Episode, episodes);
    LastFew(a, AddAll(c, Episode, episodes));
  }

  lemma AddThreadFew(a: Assembly, thread: Thread)
    requires AllFew(a)
    ensures AllFew(AddThread(a, thread))
  {
    var b := Begin(a, thread);
    assert b.threads[..|a.threads|] == a.threads;
    if thread.completed {
      if thread.completion.Some? { LastFew(a, Push(b, Completion, PieceOf(thread.completion.value, thread))); }
    } else {
      OpenThreadFew(a, thread, First(thread.blocks, BRIEF_MAX_ITEMS), First(thread.episodes, EPISODES_PER_THREAD));
    }
  }

  /** The total is exactly the size of what is emitted, every limit holds and no source is emitted twice. */
  lemma {:induction false} AssembledOk(threads: seq<Thread>)
    ensures Inv(AddThreads(threads))
    ensures forall i :: 0 <= i < |AddThreads(threads).threads| ==> WithinLimits(AddThreads(threads).threads[i])
    decreases |threads|
  {
    if threads != [] {
      AssembledOk(threads[..|threads| - 1]);
      AddThreadKeeps(AddThreads(threads[..|threads| - 1]), threads[|threads| - 1]);
      AddThreadFew(AddThreads(threads[..|threads| - 1]), threads[|threads| - 1]);
    }
  }

  // The total is the length of all the text the model is shown

  function EvidenceText(evidence: seq<Evidence>): Text {
    if evidence == [] then []
    else
      var e := evidence[|evidence| - 1];
      EvidenceText(evidence[..|evidence| - 1]) + e.entryRef + e.authorLabel + e.kind + e.observedAt
  }

  function Joined(refs: seq<Text>): Text { if refs == [] then [] else Joined(refs[..|refs| - 1]) + refs[|refs| - 1] }

  function PieceText(p: Piece): Text { p.item.content + Joined(p.item.conflictRefs) + EvidenceText(p.evidence) }

  function PiecesText(pieces: seq<Piece>): Text {
    if pieces == [] then [] else PiecesText(pieces[..|pieces| - 1]) + PieceText(pieces[|pieces| - 1])
  }

  function TextOf(threads: seq<Projected>): Text {
    if threads == [] then []
    else
      var last := threads[|threads| - 1];
      TextOf(threads[..|threads| - 1]) + last.thread.title + last.thread.purpose + PiecesText(Pieces(last))
  }

  lemma {:induction false} EvidenceLength(evidence: seq<Evidence>)
    ensures |EvidenceText(evidence)| == EvidenceCharacters(evidence)
    decreases |evidence|
  {
    if evidence != [] {
      EvidenceLength(evidence[..|evidence| - 1]);
      EvidenceLast(evidence);
    }
  }

  lemma {:induction false} EvidenceLast(evidence: seq<Evidence>)
    requires evidence != []
    ensures var e := evidence[|evidence| - 1];
            EvidenceCharacters(evidence) == EvidenceCharacters(evidence[..|evidence| - 1])
                                            + |e.entryRef| + |e.authorLabel| + |e.kind| + |e.observedAt|
    decreases |evidence|
  {
    if |evidence| > 1 {
      EvidenceLast(evidence[1..]);
      assert evidence[1..][..|evidence| - 2] == evidence[..|evidence| - 1][1..];
    }
  }

  lemma {:induction false} RefsLength(refs: seq<Text>)
    ensures |Joined(refs)| == Lengths(refs)
    decreases |refs|
  {
    if refs != [] {
      RefsLength(refs[..|refs| - 1]);
      LengthsLast(refs);
    }
  }

  lemma {:induction false} LengthsLast(refs: seq<Text>)
    requires refs != []
    ensures Lengths(refs) == Lengths(refs[..|refs| - 1]) + |refs[|refs| - 1]|
    decreases |refs|
  {
    if |refs| > 1 {
      LengthsLast(refs[1..]);
      assert refs[1..][..|refs| - 2] == refs[..|refs| - 1][1..];
    }
  }

  lemma {:induction false} PiecesLength(pieces: seq<Piece>)
    ensures |PiecesText(pieces)| == Sum(pieces)
    decreases |pieces|
  {
    if pieces != [] {
      var last := pieces[|pieces| - 1];
      PiecesLength(pieces[..|pieces| - 1]);
      RefsLength(last.item.conflictRefs);
      EvidenceLength(last.evidence);
    }
  }

  lemma {:induction false} SumJoin(a: seq<Piece>, b: seq<Piece>)
    ensures Sum(a + b) == Sum(a) + Sum(b)
    decreases |b|
  {
    if b == [] {
      assert a + b == a;
    } else {
      assert (a + b)[..|a + b| - 1] == a + b[..|b| - 1];
      SumJoin(a, b[..|b| - 1]);
    }
  }

  lemma ProjectedLength(p: Projected)
    ensures |PiecesText(Pieces(p))| ==
              Sum(p.blocks) + (if p.completion == None then 0 else PieceCharacters(p.completion.value)) + Sum(p.episodes)
  {
    var middle := if p.completion == None then [] else [p.completion.value];
    PiecesLength(Pieces(p));
    SumJoin(p.blocks + middle, p.episodes);
    SumJoin(p.blocks, middle);
    assert middle != [] ==> middle[..0] == [];
  }

  /** Titles, purposes, contents, conflicts and evidence: what is counted is what is shown. */
  lemma {:induction false} CharactersAreText(threads: seq<Projected>)
    ensures |TextOf(threads)| == Characters(threads)
    decreases |threads|
  {
    if threads != [] {
      CharactersAreText(threads[..|threads| - 1]);
      ProjectedLength(threads[|threads| - 1]);
    }
  }

  // What is emitted is each thread's own

  /** The evidence of an item is that of its references, all of it, each record as often as the thread has it. */
  lemma {:induction false} EvidenceExactly(item: Item, evidence: seq<Evidence>, e: Evidence)
    ensures multiset(EvidenceFor(item, evidence))[e] == if e.entryRef in item.entryRefs then multiset(evidence)[e] else 0
    decreases |evidence|
  {
    if evidence != [] {
      EvidenceExactly(item, evidence[1..], e);
      assert evidence == [evidence[0]] + evidence[1..];
    }
  }

  /** `p` is what is left of `s` when some of it is passed over. */
  predicate PickedFrom<T(==)>(p: seq<T>, s: seq<T>) {
    || p == []
    || (s != [] && ((p[|p| - 1] == s[|s| - 1] && PickedFrom(p[..|p| - 1], s[..|s| - 1])) || PickedFrom(p, s[..|s| - 1])))
  }

  lemma {:induction false} PickedFromPrefix<T>(p: seq<T>, s: seq<T>, n: nat)
    requires n <= |s| && PickedFrom(p, s[..n])
    ensures PickedFrom(p, s)
    decreases |s|
  {
    if n < |s| {
      assert s[..|s| - 1][..n] == s[..n];
      PickedFromPrefix(p, s[..|s| - 1], n);
    } else {
      assert s[..n] == s;
    }
  }

  function ItemsOf(pieces: seq<Piece>): seq<Item> { seq(|pieces|, i requires 0 <= i < |pieces| => pieces[i].item) }

  /** A piece with exactly the evidence of its thread that its references name. */
  ghost predicate Evidenced(piece: Piece, evidence: seq<Evidence>) {
    forall e: Evidence ::
      multiset(piece.evidence)[e] == if e.entryRef in piece.item.entryRefs then multiset(evidence)[e] else 0
  }

  ghost predicate AllEvidenced(pieces: seq<Piece>, evidence: seq<Evidence>) {
    forall i :: 0 <= i < |pieces| ==> Evidenced(pieces[i], evidence)
  }

  /**
   * An open thread shows blocks among its first twenty and episodes among its first three, in their order; a completed
   * one shows its completion and nothing else; each with its evidence.
   */
  ghost predicate OwnContents(p: Projected) {
    && AllEvidenced(Pieces(p), p.thread.evidence)
    && if p.thread.completed
       then p.blocks == [] && p.episodes == [] && p.completion.Some? && p.thread.completion == Some(p.completion.value.item)
       else
         && p.completion == None
         && PickedFrom(ItemsOf(p.blocks), First(p.thread.blocks, 20))
         && PickedFrom(ItemsOf(p.episodes), First(p.thread.episodes, 3))
  }

  lemma PieceEvidenced(item: Item, thread: Thread)
    ensures Evidenced(PieceOf(item, thread), thread.evidence)
  {
    forall e: Evidence ensures multiset(EvidenceFor(item, thread.evidence))[e] ==
                               if e.entryRef in item.entryRefs then multiset(thread.evidence)[e] else 0 {
      EvidenceExactly(item, thread.evidence, e);
    }
  }

  lemma OneMoreItem(pieces: seq<Piece>, piece: Piece, evidence: seq<Evidence>, items: seq<Item>, item: Item)
    requires PickedFrom(ItemsOf(pieces), items) && AllEvidenced(pieces, evidence)
    requires piece.item == item && Evidenced(piece, evidence)
    ensures PickedFrom(ItemsOf(pieces + [piece]), items + [item]) && AllEvidenced(pieces + [piece], evidence)
  {
    var p, s := ItemsOf(pieces + [piece]), items + [item];
    assert p[..|p| - 1] == ItemsOf(pieces) && s[..|s| - 1] == items;
  }

  lemma PassedOver(p: seq<Item>, items: seq<Item>, item: Item)
    requires PickedFrom(p, items)
    ensures PickedFrom(p, items + [item])
  {
    assert (items + [item])[..|items|] == items;
  }

  /** The threads of `b` are those of `a`, the last one with more at one place. */
  predicate GrownAt(a: Assembly, b: Assembly, place: Place) {
    && 0 < |a.threads| == |b.threads| && b.threads[..|a.threads| - 1] == a.threads[..|a.threads| - 1]
    && var p, q := a.threads[|a.threads| - 1], b.threads[|a.threads| - 1];
       q == if place == Brief then p.(blocks := q.blocks) else p.(episodes := q.episodes)
  }

  /** The last thread of `b` shows at `place` what it took of `items`, with its evidence, and is else that of `a`. */
  ghost predicate Picks(a: Assembly, b: Assembly, place: Place, items: seq<Item>) {
    && GrownAt(a, b, place)
    && var q := b.threads[|b.threads| - 1];
       PickedFrom(ItemsOf(Emitted(q, place)), items) && AllEvidenced(Emitted(q, place), q.thread.evidence)
  }

  lemma {:induction false} AddAllPicks(a: Assembly, place: Place, items: seq<Item>)
    requires a.threads != [] && place != Completion && Emitted(a.threads[|a.threads| - 1], place) == []
    ensures Picks(a, AddAll(a, place, items), place, items)
    decreases |items|
  {
    if items != [] {
      var rest, item := items[..|items| - 1], items[|items| - 1];
      assert items == rest + [item];
      AddAllPicks(a, place, rest);
      AddPicks(a, AddAll(a, place, rest), place, rest, item);
    }
  }

  lemma AddPicks(a: Assembly, b: Assembly, place: Place, items: seq<Item>, item: Item)
    requires place != Completion && Picks(a, b, place, items)
    ensures Picks(a, Add(b, place, item), place, items + [item])
  {
    var q := b.threads[|b.threads| - 1];
    var piece := PieceOf(item, q.thread);
    if StaysOut(b, place, piece, Sum(q.blocks)) {
      PassedOver(ItemsOf(Emitted(q, place)), items, item);
    } else {
      PieceEvidenced(item, q.thread);
      OneMoreItem(Emitted(q, place), piece, q.thread.evidence, items, item);
      PushAt(a, b, place, piece);
    }
  }

  lemma PushAt(a: Assembly, b: Assembly, place: Place, piece: Piece)
    requires place != Completion && GrownAt(a, b, place)
    ensures var c, n := Push(b, place, piece), |b.threads| - 1;
            GrownAt(a, c, place) && |c.threads| == n + 1 && c.threads[n].thread == b.threads[n].thread
            && Emitted(c.threads[n], place) == Emitted(b.threads[n], place) + [piece]
  {
    var c, n := Push(b, place, piece), |b.threads| - 1;
    assert c.threads[..n] == b.threads[..n] && c.threads[n] == Placed(b.threads[n], place, piece);
  }

  lemma OpenOwn(p: Projected)
    requires !p.thread.completed && p.completion == None
    requires PickedFrom(ItemsOf(p.blocks), First(p.thread.blocks, 20)) && AllEvidenced(p.blocks, p.thread.evidence)
    requires PickedFrom(ItemsOf(p.episodes), First(p.thread.episodes, 3)) && AllEvidenced(p.episodes, p.thread.evidence)
    ensures OwnContents(p)
  {
    assert Pieces(p) == p.blocks + p.episodes;
    JoinEvidenced(p.blocks, p.episodes, p.thread.evidence);
  }

  lemma JoinEvidenced(a: seq<Piece>, b: seq<Piece>, evidence: seq<Evidence>)
    requires AllEvidenced(a, evidence) && AllEvidenced(b, evidence)
    ensures AllEvidenced(a + b, evidence)
  {
    forall i | 0 <= i < |a + b| ensures Evidenced((a + b)[i], evidence) {
      assert (a + b)[i] == if i < |a| then a[i] else b[i - |a|];
    }
  }

  lemma OpenThreadOwn(a: Assembly, thread: Thread, blocks: seq<Item>, episodes: seq<Item>)
    requires !thread.completed && blocks == First(thread.blocks, 20) && episodes == First(thread.episodes, 3)
    ensures var b := AddAll(AddAll(Begin(a, thread), Brief, blocks), Episode, episodes);
            |b.threads| == |a.threads| + 1 && b.threads[..|a.threads|] == a.threads
            && b.threads[|a.threads|].thread == thread && OwnContents(b.threads[|a.threads|])
  {
    var b, n := Begin(a, thread), |a.threads|;
    var c := AddAll(b, Brief, blocks);
    assert b.threads[..n] == a.threads && b.threads[n] == Projected(thread, [], None, []);
    AddAllPicks(b, Brief, blocks);
    AddAllPicks(c, Episode, episodes);
    OpenOwn(AddAll(c, Episode, episodes).threads[n]);
  }

  lemma CompletedThreadOwn(a: Assembly, thread: Thread)
    requires thread.completed && thread.completion.Some?
    ensures var b := Push(Begin(a, thread), Completion, PieceOf(thread.completion.value, thread));
            |b.threads| == |a.threads| + 1 && b.threads[..|a.threads|] == a.threads
            && b.threads[|a.threads|].thread == thread && OwnContents(b.threads[|a.threads|])
  {
    assert Begin(a, thread).threads[..|a.threads|] == a.threads;
    PieceEvidenced(thread.completion.value, thread);
  }

  ghost predicate AllOwn(threads: seq<Projected>) { forall i :: 0 <= i < |threads| ==> OwnContents(threads[i]) }

  function ThreadsOf(projected: seq<Projected>): seq<Thread> {
    seq(|projected|, i requires 0 <= i < |projected| => projected[i].thread)
  }

  /** The threads shown are selected ones in their order, and each shows what is its own. */
  lemma {:induction false} AssembledOwn(threads: seq<Thread>)
    ensures AllOwn(AddThreads(threads).threads) && PickedFrom(ThreadsOf(AddThreads(threads).threads), threads)
    decreases |threads|
  {
    if threads != [] {
      var rest, thread := threads[..|threads| - 1], threads[|threads| - 1];
      var a := AddThreads(rest);
      AssembledOwn(rest);
      if thread.completed {
        if thread.completion.Some? { CompletedThreadOwn(a, thread); }
      } else {
        OpenThreadOwn(a, thread, First(thread.blocks, BRIEF_MAX_ITEMS), First(thread.episodes, EPISODES_PER_THREAD));
      }
      ThreadPicked(a.threads, AddThreads(threads).threads, rest, thread);
      assert threads == rest + [thread];
    }
  }

  lemma ThreadPicked(a: seq<Projected>, b: seq<Projected>, threads: seq<Thread>, thread: Thread)
    requires AllOwn(a) && PickedFrom(ThreadsOf(a), threads)
    requires b == a || (|b| == |a| + 1 && b[..|a|] == a && b[|a|].thread == thread && OwnContents(b[|a|]))
    ensures AllOwn(b) && PickedFrom(ThreadsOf(b), threads + [thread])
  {
    assert (threads + [thread])[..|threads|] == threads;
    if b != a {
      assert ThreadsOf(b)[..|a|] == ThreadsOf(a);
      assert forall i :: 0 <= i < |a| ==> b[i] == b[..|a|][i];
    }
  }

  // What was left out could not have been let in

  /** `b` is `a` with more in its last thread or after it. */
  ghost predicate Grows(a: Assembly, b: Assembly) {
    && |a.threads| <= |b.threads| && a.total <= b.total && a.entries <= b.entries && a.records <= b.records
    && (forall i :: 0 <= i < |a.threads| ==> Within(a.threads[i], b.threads[i]))
    && (forall i :: 0 <= i < |a.threads| - 1 ==> a.threads[i] == b.threads[i])
  }

  predicate Within(p: Projected, q: Projected) {
    p.thread == q.thread && Sum(p.blocks) <= Sum(q.blocks) && p.blocks <= q.blocks && p.episodes <= q.episodes
    && (p.completion == None || p.completion == q.completion)
  }

  lemma PushGrows(a: Assembly, place: Place, piece: Piece)
    requires a.threads != [] && (place == Completion ==> a.threads[|a.threads| - 1].completion == None)
    ensures Grows(a, Push(a, place, piece))
  {
    var p := a.threads[|a.threads| - 1];
    assert (p.blocks + [piece])[..|p.blocks|] == p.blocks;
  }

  function Emitted(p: Projected, place: Place): seq<Piece> {
    match place
    case Brief => p.blocks
    case Completion => if p.completion == None then [] else [p.completion.value]
    case Episode => p.episodes
  }

  /** A source of the item is shown already, or the item is too long, for its brief or for the whole. */
  predicate NoRoom(a: Assembly, place: Place, piece: Piece, brief: nat) {
    || Elements(piece.item.entryRefs) * a.entries != {}
    || Elements(piece.item.recordRefs) * a.records != {}
    || (if place == Brief then brief + PieceCharacters(piece) > 3_000 else |piece.item.content| > 2_000)
    || a.total + PieceCharacters(piece) > 6_000
  }

  /** The item is in its thread's list, or the finished context has no room for it or one of its sources already. */
  predicate Settled(a: Assembly, p: Projected, place: Place, item: Item) {
    var piece := PieceOf(item, p.thread);
    piece in Emitted(p, place) || NoRoom(a, place, piece, Sum(p.blocks))
  }

  lemma SettledGrows(a: Assembly, b: Assembly, i: nat, place: Place, item: Item)
    requires Grows(a, b) && i < |a.threads| && Settled(a, a.threads[i], place, item)
    ensures Settled(b, b.threads[i], place, item)
  {
    assert Within(a.threads[i], b.threads[i]);
  }

  predicate AllSettled(a: Assembly, i: nat, place: Place, items: seq<Item>)
    requires i < |a.threads|
  {
    forall item :: item in items ==> Settled(a, a.threads[i], place, item)
  }

  lemma AllSettledGrows(a: Assembly, b: Assembly, i: nat, place: Place, items: seq<Item>)
    requires Grows(a, b) && i < |a.threads| && AllSettled(a, i, place, items)
    ensures AllSettled(b, i, place, items)
  {
    forall item | item in items ensures Settled(b, b.threads[i], place, item) {
      SettledGrows(a, b, i, place, item);
    }
  }

  /** One more item settles beside those already settled. */
  lemma OneMoreSettles(a: Assembly, b: Assembly, place: Place, items: seq<Item>, item: Item)
    requires a.threads != [] && place != Completion
    requires |b.threads| == |a.threads| && Grows(a, b) && AllSettled(b, |a.threads| - 1, place, items)
    ensures var c := Add(b, place, item);
            |c.threads| == |a.threads| && Grows(a, c) && AllSettled(c, |a.threads| - 1, place, items + [item])
  {
    var c, n := Add(b, place, item), |a.threads| - 1;
    AddSettles(b, place, item);
    GrowsOn(a, b, c);
    AllSettledGrows(b, c, n, place, items);
  }

  lemma {:induction false} AddAllSettles(a: Assembly, place: Place, items: seq<Item>)
    requires a.threads != [] && place != Completion
    ensures var b := AddAll(a, place, items);
            |b.threads| == |a.threads| && Grows(a, b) && AllSettled(b, |a.threads| - 1, place, items)
    decreases |items|
  {
    if items != [] {
      var rest, last := items[..|items| - 1], items[|items| - 1];
      AddAllSettles(a, place, rest);
      OneMoreSettles(a, AddAll(a, place, rest), place, rest, last);
      assert items == rest + [last];
    }
  }

  lemma GrowsOn(a: Assembly, b: Assembly, c: Assembly)
    requires Grows(a, b) && Grows(b, c)
    ensures Grows(a, c)
  {
    forall i | 0 <= i < |a.threads| ensures Within(a.threads[i], c.threads[i]) {
      assert Within(a.threads[i], b.threads[i]) && Within(b.threads[i], c.threads[i]);
    }
  }

  lemma AddSettles(a: Assembly, place: Place, item: Item)
    requires a.threads != [] && place != Completion
    ensures var b := Add(a, place, item); var n := |a.threads| - 1;
            && |b.threads| == |a.threads| && Grows(a, b)
            && Settled(b, b.threads[n], place, item)
  {
    var p := a.threads[|a.threads| - 1];
    var piece := PieceOf(item, p.thread);
    if !StaysOut(a, place, piece, Sum(p.blocks)) {
      PushGrows(a, place, piece);
      var e := Emitted(Placed(p, place, piece), place);
      assert e[|e| - 1] == piece;
    }
  }

  /** The thread is emitted with every considered item settled, or could not be added even now. */
  ghost predicate ThreadSettled(a: Assembly, thread: Thread) {
    || a.total + Base(thread) > 6_000
    || (thread.completed
        && (thread.completion == None || NoRoom(Begin(a, thread), Completion, PieceOf(thread.completion.value, thread), 0)))
    || exists i :: 0 <= i < |a.threads| && EmittedThread(a, i, thread)
  }

  predicate EmittedThread(a: Assembly, i: nat, thread: Thread)
    requires i < |a.threads|
  {
    && a.threads[i].thread == thread
    && (thread.completed ==> thread.completion.Some? && a.threads[i].completion == Some(PieceOf(thread.completion.value, thread)))
    && (!thread.completed ==>
          && AllSettled(a, i, Brief, First(thread.blocks, 20))
          && AllSettled(a, i, Episode, First(thread.episodes, 3)))
  }

  lemma EmittedGrows(a: Assembly, b: Assembly, thread: Thread)
    requires ThreadSettled(a, thread) && Grows(a, b)
    ensures ThreadSettled(b, thread)
  {
    if i :| 0 <= i < |a.threads| && EmittedThread(a, i, thread) {
      assert Within(a.threads[i], b.threads[i]);
      if !thread.completed {
        AllSettledGrows(a, b, i, Brief, First(thread.blocks, BRIEF_MAX_ITEMS));
        AllSettledGrows(a, b, i, Episode, First(thread.episodes, EPISODES_PER_THREAD));
      }
      assert EmittedThread(b, i, thread);
    }
  }

  lemma BeginGrows(a: Assembly, thread: Thread)
    ensures Grows(a, Begin(a, thread))
  {
  }

  lemma AddThreadSettles(a: Assembly, thread: Thread)
    ensures Grows(a, AddThread(a, thread)) && ThreadSettled(AddThread(a, thread), thread)
  {
    var b := Begin(a, thread);
    var n := |a.threads|;
    BeginGrows(a, thread);
    if a.total + Base(thread) <= MAX_CHARACTERS {
      if thread.completed {
        if thread.completion.Some? && !StaysOut(b, Completion, PieceOf(thread.completion.value, thread), 0) {
          PushGrows(b, Completion, PieceOf(thread.completion.value, thread));
          GrowsOn(a, b, AddThread(a, thread));
          assert EmittedThread(AddThread(a, thread), n, thread);
        }
      } else {
        OpenThreadSettles(a, thread);
      }
    }
  }

  lemma BothListsSettle(a: Assembly, blocks: seq<Item>, episodes: seq<Item>)
    requires a.threads != []
    ensures var b := AddAll(AddAll(a, Brief, blocks), Episode, episodes);
            && |b.threads| == |a.threads| && Grows(a, b)
            && AllSettled(b, |a.threads| - 1, Brief, blocks) && AllSettled(b, |a.threads| - 1, Episode, episodes)
  {
    AddAllSettles(a, Brief, blocks);
    var b := AddAll(a, Brief, blocks);
    AddAllSettles(b, Episode, episodes);
    BothSettle(a, b, AddAll(b, Episode, episodes), blocks);
  }

  lemma BothSettle(a: Assembly, b: Assembly, c: Assembly, blocks: seq<Item>)
    requires 0 < |a.threads| == |b.threads| == |c.threads| && Grows(a, b) && Grows(b, c)
    requires AllSettled(b, |a.threads| - 1, Brief, blocks)
    ensures Grows(a, c) && AllSettled(c, |a.threads| - 1, Brief, blocks)
  {
    GrowsOn(a, b, c);
    AllSettledGrows(b, c, |a.threads| - 1, Brief, blocks);
  }

  lemma OpenThreadSettles(a: Assembly, thread: Thread)
    requires !thread.completed && a.total + Base(thread) <= MAX_CHARACTERS
    ensures Grows(a, AddThread(a, thread)) && ThreadSettled(AddThread(a, thread), thread)
  {
    var b, n := Begin(a, thread), |a.threads|;
    BeginGrows(a, thread);
    BothListsSettle(b, First(thread.blocks, BRIEF_MAX_ITEMS), First(thread.episodes, EPISODES_PER_THREAD));
    GrowsOn(a, b, AddThread(a, thread));
    assert Within(b.threads[n], AddThread(a, thread).threads[n]);
    assert EmittedThread(AddThread(a, thread), n, thread);
  }

  /** Nothing that was left out of the finished context could still be added to it whole. */
  lemma {:induction false} NothingElseFits(threads: seq<Thread>)
    ensures forall i :: 0 <= i < |threads| ==> ThreadSettled(AddThreads(threads), threads[i])
    ensures |AddThreads(threads).threads| <= |threads|
    decreases |threads|
  {
    if threads != [] {
      var m := |threads| - 1;
      var before := AddThreads(threads[..m]);
      NothingElseFits(threads[..m]);
      AddThreadSettles(before, threads[m]);
      AddThreadCount(before, threads[m]);
      forall i | 0 <= i < m ensures ThreadSettled(AddThreads(threads), threads[i]) {
        assert threads[..m][i] == threads[i];
        EmittedGrows(before, AddThreads(threads), threads[i]);
      }
    }
  }

  lemma AddThreadCount(a: Assembly, thread: Thread)
    ensures |AddThread(a, thread).threads| <= |a.threads| + 1
  {
    var b := Begin(a, thread);
    AddAllSettles(b, Brief, First(thread.blocks, BRIEF_MAX_ITEMS));
    AddAllSettles(AddAll(b, Brief, First(thread.blocks, BRIEF_MAX_ITEMS)), Episode, First(thread.episodes, EPISODES_PER_THREAD));
  }

  // The choice of threads

  /** Skill hint, then title match, then retrieval hits, then the reference. */
  predicate Ahead(a: Thread, b: Thread) {
    if a.relevance.skillHint != b.relevance.skillHint then a.relevance.skillHint
    else if a.relevance.titleMatch != b.relevance.titleMatch then a.relevance.titleMatch
    else if a.relevance.retrievalHits != b.relevance.retrievalHits then a.relevance.retrievalHits > b.relevance.retrievalHits
    else a.order < b.order
  }

  /** A hinted thread goes ahead of one that is not, then a named one, then the one with more hits. */
  lemma AheadMeans(a: Thread, b: Thread)
    ensures a.relevance.skillHint && !b.relevance.skillHint ==> Ahead(a, b)
    ensures a.relevance.skillHint == b.relevance.skillHint && a.relevance.titleMatch && !b.relevance.titleMatch ==> Ahead(a, b)
    ensures a.relevance.retrievalHits > b.relevance.retrievalHits && a.relevance == b.relevance.(retrievalHits := a.relevance.retrievalHits)
            ==> Ahead(a, b)
    ensures a.relevance == b.relevance ==> (Ahead(a, b) <==> a.order < b.order)
    ensures Ahead(a, b) ==> !Ahead(b, a)
  {
  }

  function Insert(sorted: seq<Thread>, t: Thread): seq<Thread> {
    if sorted == [] || !Ahead(t, sorted[|sorted| - 1]) then sorted + [t]
    else Insert(sorted[..|sorted| - 1], t) + [sorted[|sorted| - 1]]
  }

  /** A stable sort. */
  function Sort(threads: seq<Thread>): seq<Thread> {
    if threads == [] then [] else Insert(Sort(threads[..|threads| - 1]), threads[|threads| - 1])
  }

  function Select(candidates: seq<Thread>): seq<Thread> {
    var sorted := Sort(candidates);
    if |sorted| <= MAX_THREADS then sorted else sorted[..MAX_THREADS]
  }

  predicate InOrder(s: seq<Thread>) { forall i, j :: 0 <= i < j < |s| ==> !Ahead(s[j], s[i]) }

  lemma {:induction false} InsertOrders(sorted: seq<Thread>, t: Thread)
    requires InOrder(sorted)
    ensures InOrder(Insert(sorted, t))
    ensures forall i :: 0 <= i < |Insert(sorted, t)| ==> Insert(sorted, t)[i] == t || Insert(sorted, t)[i] in sorted
    decreases |sorted|
  {
    if sorted != [] && Ahead(t, sorted[|sorted| - 1]) {
      InsertOrders(sorted[..|sorted| - 1], t);
    }
  }

  lemma {:induction false} InsertHolds(sorted: seq<Thread>, t: Thread)
    ensures multiset(Insert(sorted, t)) == multiset(sorted) + multiset{t}
    decreases |sorted|
  {
    if sorted != [] && Ahead(t, sorted[|sorted| - 1]) {
      assert sorted == sorted[..|sorted| - 1] + [sorted[|sorted| - 1]];
      InsertHolds(sorted[..|sorted| - 1], t);
    }
  }

  lemma {:induction false} SortOk(threads: seq<Thread>)
    ensures InOrder(Sort(threads)) && multiset(Sort(threads)) == multiset(threads)
    decreases |threads|
  {
    if threads != [] {
      var rest, last := threads[..|threads| - 1], threads[|threads| - 1];
      assert threads == rest + [last];
      SortOk(rest);
      InsertOrders(Sort(rest), last);
      InsertHolds(Sort(rest), last);
    }
  }

  /** No candidate passed over goes ahead of one that was selected. */
  lemma SelectedFirst(candidates: seq<Thread>, passed: Thread)
    requires passed in multiset(candidates) - multiset(Select(candidates))
    ensures |Select(candidates)| == MAX_THREADS && forall t :: t in Select(candidates) ==> !Ahead(passed, t)
  {
    SortOk(candidates);
    var sorted := Sort(candidates);
    if |sorted| > MAX_THREADS {
      assert sorted == Select(candidates) + sorted[MAX_THREADS..];
      assert passed in sorted[MAX_THREADS..];
    }
  }

  // The loops

  /** Does any reference occur among those seen? */
  method AnySeen(refs: seq<Text>, seen: set<Text>) returns (found: bool)
    ensures found <==> Elements(refs) * seen != {}
  {
    found := false;
    for i := 0 to |refs|
      invariant found <==> exists k :: 0 <= k < i && refs[k] in seen
    {
      if refs[i] in seen {
        found := true;
      }
    }
    if found {
      var k :| 0 <= k < |refs| && refs[k] in seen;
      assert refs[k] in Elements(refs) * seen;
    }
  }

  lemma PlacedBrief(p: Projected, place: Place, piece: Piece)
    ensures Sum(Placed(p, place, piece).blocks) == Sum(p.blocks) + if place == Brief then PieceCharacters(piece) else 0
  {
    assert (p.blocks + [piece])[..|p.blocks|] == p.blocks;
  }

  class Assembler {
    var threads: seq<Projected>
    var totalCharacters: nat
    var threadCharacters: nat
    var briefCharacters: nat
    var seenEntryRefs: set<Text>
    var seenSourceRecords: set<Text>

    /** Between threads `threadCharacters` is zero; inside one, its thread is the last. */
    ghost function Now(): Assembly
      reads this`threads, this`totalCharacters, this`threadCharacters, this`seenEntryRefs, this`seenSourceRecords
    {
      Assembly(threads, totalCharacters + threadCharacters, seenEntryRefs, seenSourceRecords)
    }

    constructor ()
      ensures Now() == EMPTY && threadCharacters == 0
    {
      threads := [];
      totalCharacters, threadCharacters, briefCharacters := 0, 0, 0;
      seenEntryRefs, seenSourceRecords := {}, {};
    }

    method RepeatsSource(item: Item) returns (repeats: bool)
      ensures repeats == Repeats(Now(), item)
    {
      repeats := AnySeen(item.entryRefs, seenEntryRefs);
      if !repeats {
        repeats := AnySeen(item.recordRefs, seenSourceRecords);
      }
    }

    method PushPiece(place: Place, piece: Piece)
      requires threads != []
      modifies this`threads, this`threadCharacters, this`seenEntryRefs, this`seenSourceRecords
      ensures Now() == Push(old(Now()), place, piece) && totalCharacters == old(totalCharacters)
      ensures |threads| == |old(threads)| && threads[|threads| - 1] == Placed(old(threads)[|threads| - 1], place, piece)
    {
      var n := |threads| - 1;
      threads := threads[..n] + [Placed(threads[n], place, piece)];
      threadCharacters := threadCharacters + PieceCharacters(piece);
      seenEntryRefs := seenEntryRefs + Elements(piece.item.entryRefs);
      seenSourceRecords := seenSourceRecords + Elements(piece.item.recordRefs);
    }

    method AddItem(place: Place, item: Item)
      requires threads != [] && place != Completion && briefCharacters == Sum(threads[|threads| - 1].blocks)
      modifies this
      ensures Now() == Add(old(Now()), place, item) && threads != []
      ensures briefCharacters == Sum(threads[|threads| - 1].blocks) && totalCharacters == old(totalCharacters)
    {
      var last := threads[|threads| - 1];
      var piece := PieceOf(item, last.thread);
      var stays := Stays(place, piece);
      if !stays {
        Keep(place, piece);
      }
    }

    method Keep(place: Place, piece: Piece)
      requires threads != [] && place != Completion && briefCharacters == Sum(threads[|threads| - 1].blocks)
      modifies this`threads, this`threadCharacters, this`briefCharacters, this`seenEntryRefs, this`seenSourceRecords
      ensures Now() == Push(old(Now()), place, piece) && threads != []
      ensures briefCharacters == Sum(threads[|threads| - 1].blocks)
    {
      ghost var last := threads[|threads| - 1];
      PushPiece(place, piece);
      PlacedBrief(last, place, piece);
      if place == Brief {
        briefCharacters := briefCharacters + PieceCharacters(piece);
      }
    }

    method Stays(place: Place, piece: Piece) returns (stays: bool)
      requires place != Completion
      ensures stays == StaysOut(Now(), place, piece, briefCharacters)
    {
      var characters := PieceCharacters(piece);
      stays := RepeatsSource(piece.item);
      if !stays {
        stays := || totalCharacters + threadCharacters + characters > MAX_CHARACTERS
                 || (if place == Brief then briefCharacters + characters > BRIEF_MAX_CHARACTERS
                     else |piece.item.content| > EPISODE_MAX_CHARACTERS);
      }
    }

    method AddItems(place: Place, items: seq<Item>)
      requires threads != [] && place != Completion && briefCharacters == Sum(threads[|threads| - 1].blocks)
      modifies this
      ensures Now() == AddAll(old(Now()), place, items) && threads != []
      ensures briefCharacters == Sum(threads[|threads| - 1].blocks) && totalCharacters == old(totalCharacters)
    {
      ghost var a := Now();
      for i := 0 to |items|
        invariant Now() == AddAll(a, place, items[..i]) && threads != []
        invariant briefCharacters == Sum(threads[|threads| - 1].blocks) && totalCharacters == old(totalCharacters)
      {
        assert items[..i + 1][..i] == items[..i];
        AddItem(place, items[i]);
      }
      assert items[..|items|] == items;
    }

    method OpenThread(thread: Thread)
      modifies this
      ensures Now() == Begin(old(Now()), thread) && threads != []
      ensures briefCharacters == 0 == Sum(threads[|threads| - 1].blocks) && totalCharacters == old(totalCharacters)
    {
      threads := threads + [Projected(thread, [], None, [])];
      threadCharacters := threadCharacters + Base(thread);
      briefCharacters := 0;
    }

    method CloseThread()
      modifies this
      ensures Now() == old(Now()) && threadCharacters == 0
    {
      totalCharacters := totalCharacters + threadCharacters;
      threadCharacters := 0;
    }

    method LoadThread(thread: Thread)
      requires threadCharacters == 0
      modifies this
      ensures Now() == AddThread(old(Now()), thread) && threadCharacters == 0
    {
      if totalCharacters + Base(thread) > MAX_CHARACTERS {
        return;
      }
      if !thread.completed {
        OpenThread(thread);
        AddItems(Brief, First(thread.blocks, BRIEF_MAX_ITEMS));
        AddItems(Episode, First(thread.episodes, EPISODES_PER_THREAD));
        CloseThread();
        return;
      }
      if thread.completion == None {
        return;
      }
      var piece := PieceOf(thread.completion.value, thread);
      var repeats := RepeatsSource(piece.item);
      if repeats || |piece.item.content| > EPISODE_MAX_CHARACTERS
         || totalCharacters + Base(thread) + PieceCharacters(piece) > MAX_CHARACTERS {
        return;
      }
      OpenThread(thread);
      PushPiece(Completion, piece);
      CloseThread();
    }

    method LoadThreads(selected: seq<Thread>)
      requires Now() == EMPTY && threadCharacters == 0
      modifies this
      ensures Now() == AddThreads(selected) && threadCharacters == 0
    {
      for i := 0 to |selected|
        invariant Now() == AddThreads(selected[..i]) && threadCharacters == 0
      {
        assert selected[..i + 1][..i] == selected[..i];
        LoadThread(selected[i]);
      }
      assert selected[..|selected|] == selected;
    }
  }

  /** An exact total, every limit, and no source twice. */
  ghost predicate Finished(threads: seq<Projected>, totalCharacters: nat) {
    && totalCharacters == |TextOf(threads)| <= 6_000
    && (forall i :: 0 <= i < |threads| ==> WithinLimits(threads[i]))
    && PairwiseApart(AllPieces(threads))
  }

  method AssembleMemoryThreadContext(candidates: seq<Thread>) returns (threads: seq<Projected>, totalCharacters: nat)
    ensures AddThreads(Select(candidates)).threads == threads && |threads| <= 2
    ensures Finished(threads, totalCharacters) && AllOwn(threads)
    ensures forall t :: t in Select(candidates) ==> ThreadSettled(AddThreads(Select(candidates)), t)
  {
    var selected := Select(candidates);
    var assembler := new Assembler();
    assembler.LoadThreads(selected);
    AssembledOk(selected);
    AssembledOwn(selected);
    CharactersAreText(AddThreads(selected).threads);
    NothingElseFits(selected);
    threads, totalCharacters := assembler.threads, assembler.totalCharacters;
  }
}
