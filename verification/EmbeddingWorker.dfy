/**
 * From text to stored chunks: the reply order of memory-embedding-client.ts and the batches, the narrow
 * retry and the completion of memory-embedding-worker.ts.
 */
module EmbeddingWorker {
  import opened Utf16
  import opened EmbeddingIndex
  import EC = EmbeddingChunks
  import CP = ChunkProgress
  import opened Wrappers

  const PROVIDER_BATCH_SIZE := 8

  /** `search_document: ` */
  const PASSAGE_PREFIX: Text :=
    [0x73, 0x65, 0x61, 0x72, 0x63, 0x68, 0x5f, 0x64, 0x6f, 0x63, 0x75, 0x6d, 0x65, 0x6e, 0x74, 0x3a, 0x20]

  /** One entry of a reply; an index that is no integer is none. */
  datatype ReplyItem = ReplyItem(index: Option<int>, embedding: Vector)

  datatype Answer = TooLong | Unavailable | Reply(data: seq<ReplyItem>)
  datatype Embedded = InputInvalid | InputTooLong | ResponseInvalid | ProviderFailed | Vectors(vectors: seq<Vector>)

  predicate IndexIn(item: ReplyItem, n: nat) { item.index.Some? && 0 <= item.index.value < n }

  predicate SameIndex(a: ReplyItem, b: ReplyItem) { a.index == b.index }

  /** The indexes of a reply form the sequence 0..n, in any order, each with a vector of the right size. */
  predicate CompleteReply(data: seq<ReplyItem>, n: nat) {
    && |data| == n
    && (forall i :: 0 <= i < n ==> IndexIn(data[i], n) && |data[i].embedding| == DIMENSIONS)
    && (forall i, j :: 0 <= i < j < n ==> !SameIndex(data[i], data[j]))
  }

  /** Pigeonhole: n different numbers below n are all of them. */
  lemma {:induction false} AllFilled(filled: set<int>, n: nat)
    requires |filled| == n && forall x :: x in filled ==> 0 <= x < n
    ensures forall x :: 0 <= x < n ==> x in filled
  {
    if n > 0 {
      if n - 1 in filled {
        AllFilled(filled - {n - 1}, n - 1);
      } else {
        Below(filled, n - 1);
      }
    }
  }

  lemma {:induction false} Below(filled: set<int>, n: nat)
    requires forall x :: x in filled ==> 0 <= x < n
    ensures |filled| <= n
  {
    if n > 0 {
      Below(filled - {n - 1}, n - 1);
    } else {
      forall x ensures x !in filled {}
      assert filled == {};
    }
  }

  /** A reply put in the order of its request; refused unless its indexes are exactly 0..n. */
  method OrderReply(data: seq<ReplyItem>, n: nat) returns (r: Embedded)
    ensures r.Vectors? || r.ResponseInvalid?
    ensures r.Vectors? <==> CompleteReply(data, n)
    ensures r.Vectors? ==> |r.vectors| == n && forall i :: 0 <= i < n ==> r.vectors[data[i].index.value] == data[i].embedding
  {
    if |data| != n {
      return ResponseInvalid;
    }
    var ordered := new Option<Vector>[n](_ => None);
    for k := 0 to n
      invariant Filed(data, n, k, ordered[..])
    {
      var item := data[k];
      if !IndexIn(item, n) || |item.embedding| != DIMENSIONS {
        return ResponseInvalid;
      }
      if ordered[item.index.value].Some? {
        RepeatedIndex(data, n, k, ordered[..]);
        return ResponseInvalid;
      }
      FileStep(data, n, k, ordered[..]);
      ordered[item.index.value] := Some(item.embedding);
    }
    // The source refuses an incomplete sequence here; n different indexes below n leave nothing undefined.
    forall x | 0 <= x < n ensures ordered[..][x].Some? {
      var i := FindIndex(data, n, x);
    }
    r := Vectors(seq(n, i requires 0 <= i < n && ordered[i].Some? reads ordered => ordered[i].value));
  }

  /** The first `k` entries are filed under their own indexes, and nothing else is. */
  ghost predicate Filed(data: seq<ReplyItem>, n: nat, k: nat, ordered: seq<Option<Vector>>)
    requires k <= |data|
  {
    && |ordered| == n
    && (forall i :: 0 <= i < k ==> IndexIn(data[i], n) && |data[i].embedding| == DIMENSIONS)
    && (forall i :: 0 <= i < k ==> ordered[data[i].index.value] == Some(data[i].embedding))
    && (forall i, j :: 0 <= i < j < k ==> !SameIndex(data[i], data[j]))
    && (forall x :: 0 <= x < n && ordered[x].Some? ==> exists i :: 0 <= i < k && data[i].index == Some(x))
  }

  lemma FileStep(data: seq<ReplyItem>, n: nat, k: nat, ordered: seq<Option<Vector>>)
    requires k < |data| && Filed(data, n, k, ordered)
    requires IndexIn(data[k], n) && |data[k].embedding| == DIMENSIONS && ordered[data[k].index.value].None?
    ensures Filed(data, n, k + 1, ordered[data[k].index.value := Some(data[k].embedding)])
  {
    forall i | 0 <= i < k ensures !SameIndex(data[i], data[k]) {
      assert ordered[data[i].index.value].Some?;
    }
  }

  lemma RepeatedIndex(data: seq<ReplyItem>, n: nat, k: nat, ordered: seq<Option<Vector>>)
    requires k < |data| && Filed(data, n, k, ordered)
    requires IndexIn(data[k], n) && ordered[data[k].index.value].Some?
    ensures exists i :: 0 <= i < k && SameIndex(data[i], data[k])
  {
    var i :| 0 <= i < k && data[i].index == data[k].index;
    assert SameIndex(data[i], data[k]);
  }

  type Provider = seq<Text> -> Answer

  /** A reply means what its indexes say: entry with index `k` embeds text `k` of the request. */
  ghost predicate Honest(ask: Provider, embedding: Text -> Vector) {
    forall texts: seq<Text>, i: nat :: ask(texts).Reply? && i < |ask(texts).data| && IndexIn(ask(texts).data[i], |texts|) ==>
      ask(texts).data[i].embedding == embedding(texts[ask(texts).data[i].index.value])
  }

  method EmbedTexts(texts: seq<Text>, ask: Provider, ghost embedding: Text -> Vector) returns (r: Embedded)
    requires Honest(ask, embedding)
    ensures r.InputInvalid? <==> texts == [] || exists i :: 0 <= i < |texts| && Trim(texts[i]) == []
    ensures r.Vectors? <==> !r.InputInvalid? && ask(texts).Reply? && CompleteReply(ask(texts).data, |texts|)
    ensures r.InputTooLong? <==> !r.InputInvalid? && ask(texts) == TooLong
    ensures r.Vectors? ==> |r.vectors| == |texts| && forall i :: 0 <= i < |texts| ==> r.vectors[i] == embedding(texts[i])
    ensures r.Vectors? ==> forall i :: 0 <= i < |texts| ==> |r.vectors[i]| == 768
  {
    if texts == [] || exists i :: 0 <= i < |texts| && Trim(texts[i]) == [] {
      return InputInvalid;
    }
    match ask(texts)
    case TooLong => r := InputTooLong;
    case Unavailable => r := ProviderFailed;
    case Reply(data) =>
      r := OrderReply(data, |texts|);
      if r.Vectors? {
        forall k | 0 <= k < |texts|
          ensures r.vectors[k] == embedding(texts[k]) && |r.vectors[k]| == DIMENSIONS
        {
          var i := FindIndex(data, |texts|, k);
          assert r.vectors[data[i].index.value] == data[i].embedding;
        }
      }
  }

  function IndexSet(data: seq<ReplyItem>, k: nat): set<int>
    requires k <= |data| && forall i :: 0 <= i < k ==> data[i].index.Some?
  {
    set i | 0 <= i < k :: data[i].index.value
  }

  lemma {:induction false} IndexSetSize(data: seq<ReplyItem>, k: nat)
    requires k <= |data| && forall i :: 0 <= i < k ==> data[i].index.Some?
    requires forall i, j :: 0 <= i < j < k ==> !SameIndex(data[i], data[j])
    ensures |IndexSet(data, k)| == k
  {
    if k > 0 {
      IndexSetSize(data, k - 1);
      assert IndexSet(data, k) == IndexSet(data, k - 1) + {data[k - 1].index.value};
    }
  }

  /** Every position of a complete reply is answered by some entry. */
  lemma FindIndex(data: seq<ReplyItem>, n: nat, k: nat) returns (i: nat)
    requires CompleteReply(data, n) && k < n
    ensures i < n && data[i].index == Some(k)
  {
    IndexSetSize(data, n);
    AllFilled(IndexSet(data, n), n);
    assert k in IndexSet(data, n);
    i :| i < n && data[i].index.value == k;
  }

  /** A provider that answers: completely, or that a text is too long, and then one longer than a narrow passage is. */
  ghost predicate Willing(ask: Provider) {
    forall texts: seq<Text> :: Answering(ask(texts), texts)
  }

  ghost predicate Answering(answer: Answer, texts: seq<Text>) {
    match answer
    case Reply(data) => CompleteReply(data, |texts|)
    case TooLong => exists i :: 0 <= i < |texts| && |texts[i]| > |PASSAGE_PREFIX| + CP.NARROW_CAP
    case Unavailable => false
  }

  ghost predicate HasWide(chunks: seq<EC.Chunk>) { exists i :: 0 <= i < |chunks| && |chunks[i].content| > CP.NARROW_CAP }

  lemma PassagesAsk(chunks: seq<EC.Chunk>, ask: Provider)
    ensures forall i :: 0 <= i < |chunks| ==> Trim(Passages(chunks)[i]) != []
    ensures Willing(ask) && ask(Passages(chunks)).TooLong? ==> HasWide(chunks)
  {
    forall i | 0 <= i < |chunks| ensures Trim(Passages(chunks)[i]) != [] {
      assert Passages(chunks)[i][0] == 0x73;
    }
    if Willing(ask) && ask(Passages(chunks)).TooLong? { assert Answering(TooLong, Passages(chunks)); }
  }

  function Passage(c: EC.Chunk): Text { PASSAGE_PREFIX + c.content }

  function Passages(chunks: seq<EC.Chunk>): (t: seq<Text>)
    ensures |t| == |chunks| && forall i :: 0 <= i < |t| ==> t[i] == Passage(chunks[i])
  {
    seq(|chunks|, i requires 0 <= i < |chunks| => Passage(chunks[i]))
  }

  ghost predicate SaidTooLong(ask: Provider) { exists texts: seq<Text> :: ask(texts) == TooLong }

  lemma WideInside(chunks: seq<EC.Chunk>, from: nat, to: nat)
    requires from <= to <= |chunks|
    ensures HasWide(chunks[from..to]) ==> HasWide(chunks)
  {
    if i :| 0 <= i < to - from && |chunks[from..to][i].content| > CP.NARROW_CAP {
      assert chunks[from + i] == chunks[from..to][i];
    }
  }

  method EmbedBatch(batch: seq<EC.Chunk>, ask: Provider, ghost embedding: Text -> Vector) returns (r: Embedded)
    requires Honest(ask, embedding) && 1 <= |batch| <= 8
    ensures r.Vectors? ==> VectorsOf(batch, r.vectors, embedding)
    ensures Willing(ask) ==> r.Vectors? || (r.InputTooLong? && HasWide(batch))
    ensures r.InputTooLong? ==> SaidTooLong(ask)
  {
    PassagesAsk(batch, ask);
    assert Willing(ask) ==> Answering(ask(Passages(batch)), Passages(batch));
    r := EmbedTexts(Passages(batch), ask, embedding);
  }

  /** In batches of eight; the i-th chunk gets the vector of its own passage, whatever order replies come in. */
  method EmbedChunks(chunks: seq<EC.Chunk>, ask: Provider, ghost embedding: Text -> Vector) returns (r: Embedded)
    requires Honest(ask, embedding)
    ensures r.Vectors? ==> VectorsOf(chunks, r.vectors, embedding)
    ensures Willing(ask) ==> r.Vectors? || (r.InputTooLong? && HasWide(chunks))
    ensures r.InputTooLong? ==> SaidTooLong(ask)
  {
    var embeddings := [];
    var offset := 0;
    while offset < |chunks|
      invariant offset <= |chunks| && VectorsOf(chunks[..offset], embeddings, embedding)
    {
      var end := if offset + PROVIDER_BATCH_SIZE < |chunks| then offset + PROVIDER_BATCH_SIZE else |chunks|;
      var batch := chunks[offset..end];
      r := EmbedBatch(batch, ask, embedding);
      WideInside(chunks, offset, end);
      if !r.Vectors? {
        return;
      }
      JoinVectors(chunks[..offset], embeddings, batch, r.vectors, embedding);
      assert chunks[..end] == chunks[..offset] + batch;
      embeddings := embeddings + r.vectors;
      offset := end;
    }
    assert chunks[..|chunks|] == chunks;
    r := Vectors(embeddings);
  }

  lemma JoinVectors(a: seq<EC.Chunk>, u: seq<Vector>, b: seq<EC.Chunk>, v: seq<Vector>, embedding: Text -> Vector)
    requires VectorsOf(a, u, embedding) && VectorsOf(b, v, embedding)
    ensures VectorsOf(a + b, u + v, embedding)
  {
  }

  function Rows(chunks: seq<EC.Chunk>, vectors: seq<Vector>): (rows: seq<StoredChunk>)
    requires |chunks| == |vectors|
    ensures |rows| == |chunks| && forall i :: 0 <= i < |rows| ==> rows[i] == StoredChunk(chunks[i], vectors[i])
  {
    seq(|chunks|, i requires 0 <= i < |chunks| => StoredChunk(chunks[i], vectors[i]))
  }

  /** The chunker's output with its vectors passes every check of the index for the same text. */
  lemma ChunkerOutputFits(s: Text, cap: nat, chunks: seq<EC.Chunk>, vectors: seq<Vector>)
    requires chunks != [] && EC.ChunksOk(s, chunks, cap) && |vectors| == |chunks|
    requires forall i :: 0 <= i < |vectors| ==> |vectors[i]| == DIMENSIONS
    ensures WellOrdered(Rows(chunks, vectors)) && SlicesOf(s, Rows(chunks, vectors))
  {
    forall i | 0 <= i < |chunks|
      ensures Trim(chunks[i].content) != [] && SliceOf(s, chunks[i])
    {
      assert EC.ChunkOk(s, chunks[i], cap);
      assert chunks[i].content[0] == s[chunks[i].startOffset];
    }
  }

  /** What the index is given for one text: checked rows that lose nothing, each with its passage's vector. */
  ghost predicate RowsOf(content: Text, rows: seq<StoredChunk>, embedding: Text -> Vector) {
    && WellOrdered(rows)
    && SlicesOf(content, rows)
    && EC.Lossless(content, Chunks(rows))
    && forall i :: 0 <= i < |rows| ==> rows[i].embedding == embedding(Passage(rows[i].chunk))
  }

  /** The i-th vector belongs to the i-th chunk. */
  ghost predicate VectorsOf(chunks: seq<EC.Chunk>, vectors: seq<Vector>, embedding: Text -> Vector) {
    && |vectors| == |chunks|
    && forall i :: 0 <= i < |chunks| ==> vectors[i] == embedding(Passage(chunks[i])) && |vectors[i]| == DIMENSIONS
  }

  lemma RowsFit(s: Text, cap: nat, chunks: seq<EC.Chunk>, vectors: seq<Vector>, embedding: Text -> Vector)
    requires chunks != [] && EC.ChunksOk(s, chunks, cap) && EC.Lossless(s, chunks)
    requires VectorsOf(chunks, vectors, embedding)
    ensures RowsOf(s, Rows(chunks, vectors), embedding) && Chunks(Rows(chunks, vectors)) == chunks
  {
    ChunkerOutputFits(s, cap, chunks, vectors);
    assert Chunks(Rows(chunks, vectors)) == chunks;
  }

  lemma NoneWide(s: Text, chunks: seq<EC.Chunk>, cap: nat)
    requires EC.ChunksOk(s, chunks, cap)
    ensures HasWide(chunks) ==> cap > CP.NARROW_CAP
  {
    forall i | 0 <= i < |chunks| ensures |chunks[i].content| <= cap {
      assert EC.ChunkOk(s, chunks[i], cap);
    }
  }

  predicate Chunkable(content: Text) { Trim(content) != [] && |content| <= 4_000 }

  datatype Record = RecordFailed | RecordRows(rows: seq<StoredChunk>)

  /**
   * One record: the stored cap first, the narrow cap when the provider finds a chunk too long. A record that has
   * text and fits fails only by the provider: not for its length as long as narrow passages are accepted.
   */
  method EmbedRecord(content: Text, ask: Provider, ghost embedding: Text -> Vector) returns (r: Record)
    requires Honest(ask, embedding)
    ensures r.RecordRows? ==> RowsOf(content, r.rows, embedding) && Chunkable(content)
    ensures Willing(ask) && Chunkable(content) ==> r.RecordRows?
    ensures r.RecordRows? ==> EC.InGroups(content, CP.STORED_CAP, Chunks(r.rows))
                              || (SaidTooLong(ask) && EC.InGroups(content, CP.NARROW_CAP, Chunks(r.rows)))
  {
    var retry;
    r, retry := EmbedWithCap(content, CP.STORED_CAP, ask, embedding);
    if retry {
      r, retry := EmbedWithCap(content, CP.NARROW_CAP, ask, embedding);
    }
  }

  function Chunks(rows: seq<StoredChunk>): (c: seq<EC.Chunk>)
    ensures |c| == |rows| && forall i :: 0 <= i < |c| ==> c[i] == rows[i].chunk
  {
    seq(|rows|, i requires 0 <= i < |rows| => rows[i].chunk)
  }

  method EmbedWithCap(content: Text, cap: nat, ask: Provider, ghost embedding: Text -> Vector)
    returns (r: Record, tooLong: bool)
    requires cap >= 2 && Honest(ask, embedding)
    ensures tooLong ==> r.RecordFailed? && SaidTooLong(ask)
    ensures r.RecordRows? ==> RowsOf(content, r.rows, embedding) && Chunkable(content)
    ensures r.RecordRows? ==> EC.InGroups(content, cap, Chunks(r.rows))
    ensures Willing(ask) && Chunkable(content) ==> r.RecordRows? || (tooLong && cap > CP.NARROW_CAP)
  {
    r, tooLong := RecordFailed, false;
    var chunked := EC.ChunkMemoryContent(content, cap);
    if chunked.Chunks? {
      r, tooLong := EmbedChunked(content, cap, chunked.chunks, ask, embedding);
    }
  }

  method EmbedChunked(content: Text, cap: nat, chunks: seq<EC.Chunk>, ask: Provider, ghost embedding: Text -> Vector)
    returns (r: Record, tooLong: bool)
    requires Honest(ask, embedding)
    requires chunks != [] && EC.ChunksOk(content, chunks, cap) && EC.Lossless(content, chunks)
    ensures tooLong ==> r.RecordFailed? && SaidTooLong(ask)
    ensures r.RecordRows? ==> RowsOf(content, r.rows, embedding) && Chunks(r.rows) == chunks
    ensures Willing(ask) ==> r.RecordRows? || (tooLong && cap > CP.NARROW_CAP)
  {
    r := RecordFailed;
    var embedded := EmbedChunks(chunks, ask, embedding);
    tooLong := embedded.InputTooLong?;
    NoneWide(content, chunks, cap);
    if embedded.Vectors? {
      RowsFit(content, cap, chunks, embedded.vectors, embedding);
      r := RecordRows(Rows(chunks, embedded.vectors));
    }
  }

  /**
   * One claimed job. While its lease holds, the record ends indexed by lossless rows of its own text with their
   * passages' vectors, or failed, and with a willing provider it ends indexed; after the lease is lost nothing
   * changes, and no other record ever does.
   */
  method ProcessJob(store: IndexStore, job: ClaimedJob, ask: Provider, ghost embedding: Text -> Vector)
    requires Inv(store.Now()) && Honest(ask, embedding)
    requires Live(store.Now(), job.id) ==> store.items[job.id].content == job.content
    modifies store
    ensures Inv(store.Now()) && OnlyRecord(old(store.Now()), store.Now(), job.id)
    ensures old(!HasLease(store.Now(), job.id, job.token)) ==> store.Now() == old(store.Now())
    ensures old(HasLease(store.Now(), job.id, job.token)) ==>
              HasFailed(store.Now(), job.id) || IndexedBy(store.Now(), job, embedding)
    ensures old(HasLease(store.Now(), job.id, job.token))
            && Willing(ask) && Chunkable(job.content) ==>
              IndexedBy(store.Now(), job, embedding)
  {
    ghost var s := store.Now();
    assert HasLease(s, job.id, job.token) ==> Live(s, job.id);
    var record := EmbedRecord(job.content, ask, embedding);
    if record.RecordRows? {
      CompleteKeeps(s, job.id, job.token, record.rows, s.model);
      CompletedExactly(s, job.id, job.token, record.rows, s.model);
      if HasLease(s, job.id, job.token) { CompletedIsIndexed(s, job.id, job.token, record.rows, s.model); }
      var done := store.CompleteJob(job.id, job.token, record.rows, store.model);
    } else {
      FailKeeps(s, job.id, job.token);
      FailedIsDropped(s, job.id, job.token);
      var stale := store.FailJob(job.id, job.token);
    }
  }

  ghost predicate IndexedBy(s: State, job: ClaimedJob, embedding: Text -> Vector) {
    && job.id in s.chunks && IsIndexed(s, job.id, s.chunks[job.id].rows)
    && RowsOf(job.content, s.chunks[job.id].rows, embedding)
  }
}
