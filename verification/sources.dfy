/** Ingestion bookkeeping of convex/sources.ts: `textLength`, `insert`, `add`,
    `addBatch`, `deleteSource` and the `patch` that marks a source saved. The
    embedding service is a function parameter; the external index is the
    store's `index` map. Concurrent steps (`Promise.all`, `pLimit`) run in
    order. */
module Sources {
  import opened Wrappers
  import opened Ids
  import opened Errors
  import opened Vectors
  import opened Store

  /** One element of the `chunks` argument: `{ text, lines }`. */
  datatype ChunkInput = ChunkInput(text: string, lines: Lines)

  /** `textLength(chunks)`: the sum of the chunks' text lengths. A model
      string stands for the UTF-16 code units of the JavaScript string, so
      its length is the JavaScript `length`. */
  function TextLength(chunks: seq<ChunkInput>): nat
  {
    if |chunks| == 0 then 0 else TextLength(chunks[..|chunks| - 1]) + |chunks[|chunks| - 1].text|
  }

  /** The total length is additive over concatenation. */
  lemma {:induction false} TextLengthConcat(a: seq<ChunkInput>, b: seq<ChunkInput>)
    ensures TextLength(a + b) == TextLength(a) + TextLength(b)
  {
    if |b| > 0 {
      assert (a + b)[..|a + b| - 1] == a + b[..|b| - 1];
      assert (a + b)[|a + b| - 1] == b[|b| - 1];
      TextLengthConcat(a, b[..|b| - 1]);
    } else {
      assert a + b == a;
    }
  }

  /** No chunk is longer than all of them together. */
  lemma {:induction false} TextLengthBounds(chunks: seq<ChunkInput>)
    ensures forall i :: 0 <= i < |chunks| ==> |chunks[i].text| <= TextLength(chunks)
  {
    if |chunks| > 0 {
      var init := chunks[..|chunks| - 1];
      TextLengthBounds(init);
      assert forall i :: 0 <= i < |init| ==> chunks[i] == init[i];
    }
  }

  /** `a * b` on naturals, as repeated addition; see `MulIsProduct`. Products
      are kept behind this function so that they reach only the proofs that
      are about them. */
  function Mul(a: nat, b: nat): nat
  {
    if b == 0 then 0 else Mul(a, b - 1) + a
  }

  lemma {:induction false} MulIsProduct(a: nat, b: nat)
    ensures Mul(a, b) == a * b
  {
    if b > 0 {
      MulIsProduct(a, b - 1);
    }
  }

  /** `Math.ceil(n / d)` on naturals, as repeated subtraction; see
      `CeilDivBounds`. */
  function CeilDiv(n: nat, d: nat): nat
    requires d > 0
    decreases n
  {
    if n == 0 then 0 else 1 + CeilDiv(if n <= d then 0 else n - d, d)
  }

  /** `CeilDiv(n, d)` is the least `r` with `r * d >= n`. */
  lemma {:induction false} CeilDivBounds(n: nat, d: nat)
    requires d > 0
    ensures CeilDiv(n, d) * d >= n
    ensures CeilDiv(n, d) * d < n + d
  {
    if n > 0 {
      var m := if n <= d then 0 else n - d;
      CeilDivBounds(m, d);
      assert (1 + CeilDiv(m, d)) * d == d + CeilDiv(m, d) * d;
    }
  }

  /** The share of `total` that `part` code units out of `whole` carry,
      rounded up. `0 / 0` and `NaN * x` are `NaN`, and `NaN` survives
      `Math.ceil`. The bounds are `ProRateBounds`. */
  function ProRate(total: Estimate, part: nat, whole: nat): (r: Estimate)
    ensures r.Known? <==> total.Known? && whole > 0
  {
    if total.NaN? || whole == 0 then Estimate.NaN
    else Known(CeilDiv(Mul(total.n, part), whole))
  }

  /** A known share is the exact share `total * part / whole` rounded up. */
  lemma {:induction false} ProRateBounds(total: Estimate, part: nat, whole: nat)
    requires total.Known? && whole > 0
    ensures ProRate(total, part, whole).n * whole >= total.n * part
    ensures ProRate(total, part, whole).n * whole < total.n * part + whole
  {
    MulIsProduct(total.n, part);
    CeilDivBounds(Mul(total.n, part), whole);
  }

  /** The share of the whole is the total. */
  lemma {:induction false} ProRateWhole(total: Estimate, whole: nat)
    requires total.Known? && whole > 0
    ensures ProRate(total, whole, whole) == total
  {
    ProRateBounds(total, whole, whole);
    CeilExact(total.n, whole, ProRate(total, whole, whole).n);
  }

  /** The ceiling of an exact quotient is the quotient. */
  lemma {:induction false} CeilExact(t: nat, d: nat, r: nat)
    requires d > 0
    requires r * d >= t * d && r * d < t * d + d
    ensures r == t
  {
    if r > t {
      MulMonotone(t + 1, r, d);
    }
  }

  lemma {:induction false} MulMonotone(x: nat, y: nat, d: nat)
    requires x <= y
    ensures x * d <= y * d
  {
    assert y * d - x * d == (y - x) * d;
  }

  /** The result of `insert`: the new store and `{ sourceId, chunkIds }`. */
  datatype Inserted = Inserted(store: Store, sourceId: SourceId, chunkIds: seq<ChunkId>)

  /** The chunk document `insert` writes for `chunks[i]`. */
  function NewChunk(sourceId: SourceId, chunks: seq<ChunkInput>, i: nat, totalTokens: Estimate): Chunk
    requires i < |chunks|
  {
    Chunk(chunks[i].text, sourceId, i, chunks[i].lines,
          ProRate(totalTokens, |chunks[i].text|, TextLength(chunks)))
  }

  /** The first `n` chunk documents, inserted one after the other with the
      ids following `sourceId`. */
  function InsertChunks(table: map<ChunkId, Chunk>, sourceId: SourceId, chunks: seq<ChunkInput>, totalTokens: Estimate, n: nat)
    : (r: map<ChunkId, Chunk>)
    requires n <= |chunks|
    ensures forall c :: c in r <==> c in table || sourceId < c <= sourceId + n
    ensures forall i :: 0 <= i < n ==> r[sourceId + 1 + i] == NewChunk(sourceId, chunks, i, totalTokens)
    ensures forall c :: c in table && !(sourceId < c <= sourceId + n) ==> r[c] == table[c]
  {
    if n == 0 then table
    else InsertChunks(table, sourceId, chunks, totalTokens, n - 1)[sourceId + n := NewChunk(sourceId, chunks, n - 1, totalTokens)]
  }

  /** `insert`: a source with `saved: false`, then one chunk per input in
      order, then the source patched with the chunk ids. Ids are taken from the
      store's counter: the source first, then the chunks. */
  function Insert(st: Store, name: string, chunks: seq<ChunkInput>, totalTokens: Estimate, embeddingMs: Estimate)
    : (r: Inserted)
    ensures r.sourceId == st.nextId
    ensures r.store.nextId == st.nextId + 1 + |chunks|
    ensures |r.chunkIds| == |chunks|
    ensures forall i :: 0 <= i < |chunks| ==> r.chunkIds[i] == r.sourceId + 1 + i
    ensures r.store.sources == st.sources[r.sourceId := Source(name, r.chunkIds, false, totalTokens, embeddingMs)]
    ensures forall i :: 0 <= i < |chunks| ==>
      && r.chunkIds[i] in r.store.chunks
      && r.store.chunks[r.chunkIds[i]] == NewChunk(r.sourceId, chunks, i, totalTokens)
    ensures forall c :: c in r.store.chunks <==> c in st.chunks || r.sourceId < c < r.store.nextId
    ensures forall c :: c in st.chunks && c < st.nextId ==> r.store.chunks[c] == st.chunks[c]
    ensures r.store.searches == st.searches && r.store.comparisons == st.comparisons
    ensures r.store.vectors == st.vectors && r.store.index == st.index && r.store.jobs == st.jobs
  {
    var sourceId := st.nextId;
    var chunkIds := seq(|chunks|, i => sourceId + 1 + i);
    var store := st.(
      sources := st.sources[sourceId := Source(name, chunkIds, false, totalTokens, embeddingMs)],
      chunks := InsertChunks(st.chunks, sourceId, chunks, totalTokens, |chunks|),
      nextId := sourceId + 1 + |chunks|);
    Inserted(store, sourceId, chunkIds)
  }

  /** `insert` keeps the store valid: the new ids are fresh, and the new source
      and its chunks point at each other. */
  lemma {:induction false} InsertValid(st: Store, name: string, chunks: seq<ChunkInput>, totalTokens: Estimate, embeddingMs: Estimate)
    requires Valid(st)
    ensures var r := Insert(st, name, chunks, totalTokens, embeddingMs);
      && Valid(r.store)
      && r.sourceId !in st.sources
      && (forall i :: 0 <= i < |chunks| ==> r.chunkIds[i] !in st.chunks)
      && (forall c :: c in st.chunks ==> r.store.chunks[c] == st.chunks[c])
  {
    var r := Insert(st, name, chunks, totalTokens, embeddingMs);
    InsertedValid(st, r, name, chunks, totalTokens, embeddingMs);
  }

  /** What `Insert` promises of its result is enough to keep a valid store
      valid. */
  lemma {:induction false} InsertedValid(st: Store, r: Inserted, name: string, chunks: seq<ChunkInput>,
                                         totalTokens: Estimate, embeddingMs: Estimate)
    requires Valid(st)
    requires r.sourceId == st.nextId && r.store.nextId == st.nextId + 1 + |chunks|
    requires |r.chunkIds| == |chunks| && forall i :: 0 <= i < |chunks| ==> r.chunkIds[i] == r.sourceId + 1 + i
    requires r.store.sources == st.sources[r.sourceId := Source(name, r.chunkIds, false, totalTokens, embeddingMs)]
    requires forall i :: 0 <= i < |chunks| ==>
      r.chunkIds[i] in r.store.chunks && r.store.chunks[r.chunkIds[i]] == NewChunk(r.sourceId, chunks, i, totalTokens)
    requires forall c :: c in r.store.chunks <==> c in st.chunks || r.sourceId < c < r.store.nextId
    requires forall c :: c in st.chunks && c < st.nextId ==> r.store.chunks[c] == st.chunks[c]
    requires r.store.searches == st.searches && r.store.comparisons == st.comparisons
    ensures Valid(r.store)
  {
    var s := r.store;
    forall c | c in s.chunks
      ensures s.chunks[c].sourceId in s.sources && c in s.sources[s.chunks[c].sourceId].chunkIds
    {
      if c in st.chunks {
        assert c !in r.chunkIds;
        assert s.chunks[c] == st.chunks[c];
      } else {
        assert r.chunkIds[c - r.sourceId - 1] == c;
      }
    }
    forall src, i | src in s.sources && 0 <= i < |s.sources[src].chunkIds|
      ensures ListedChunkBack(s, src, i)
    {
      if src != r.sourceId {
        ListedChunkKept(st, s, src, i);
      } else {
        assert s.chunks[r.chunkIds[i]] == NewChunk(r.sourceId, chunks, i, totalTokens);
      }
    }
  }

  /** Chunk `i` listed by source `src` exists, points back at `src` and
      carries position `i`. */
  ghost predicate ListedChunkBack(st: Store, src: SourceId, i: nat)
    requires src in st.sources && i < |st.sources[src].chunkIds|
  {
    && st.sources[src].chunkIds[i] in st.chunks
    && st.chunks[st.sources[src].chunkIds[i]].sourceId == src
    && st.chunks[st.sources[src].chunkIds[i]].chunkIndex == i
  }

  /** A source kept from a valid store, whose chunks are kept too, still
      lists chunks that point back at it. */
  lemma {:induction false} ListedChunkKept(st: Store, s: Store, src: SourceId, i: nat)
    requires Valid(st) && src in st.sources && src in s.sources && s.sources[src] == st.sources[src]
    requires i < |st.sources[src].chunkIds|
    requires forall c :: c in st.chunks ==> c in s.chunks && s.chunks[c] == st.chunks[c]
    ensures ListedChunkBack(s, src, i)
  {
    assert st.sources[src].chunkIds[i] in st.chunks;
  }

  /** `ceil(t * |text| / whole)` summed over the chunks in order. */
  function ShareSum(chunks: seq<ChunkInput>, t: nat, whole: nat): nat
    requires whole > 0 && TextLength(chunks) <= whole
  {
    if |chunks| == 0 then 0
    else
      ShareSum(chunks[..|chunks| - 1], t, whole) + CeilDiv(Mul(t, |chunks[|chunks| - 1].text|), whole)
  }

  /** Rounding every share up never loses tokens. */
  lemma {:induction false} ShareSumCovers(chunks: seq<ChunkInput>, t: nat, whole: nat)
    requires whole > 0 && TextLength(chunks) <= whole
    ensures ShareSum(chunks, t, whole) * whole >= t * TextLength(chunks)
  {
    if |chunks| > 0 {
      var init := chunks[..|chunks| - 1];
      var len := |chunks[|chunks| - 1].text|;
      ShareSumCovers(init, t, whole);
      TextLengthBounds(chunks);
      MulIsProduct(t, len);
      CeilDivBounds(Mul(t, len), whole);
      SumOfBounds(ShareSum(init, t, whole), CeilDiv(Mul(t, len), whole), whole, TextLength(init), len, t);
    }
  }

  lemma {:induction false} SumOfBounds(a: nat, c: nat, w: nat, x: nat, y: nat, t: nat)
    requires a * w >= t * x && c * w >= t * y
    ensures (a + c) * w >= t * (x + y)
  {
    assert (a + c) * w == a * w + c * w;
    assert t * (x + y) == t * x + t * y;
  }

  lemma {:induction false} MulCancel(s: nat, t: nat, d: nat)
    requires d > 0 && s * d >= t * d
    ensures s >= t
  {
    if s < t {
      MulMonotone(s + 1, t, d);
    }
  }

  /** The sum of the known token counts of the chunks `ids` name. */
  function TokenTotal(table: map<ChunkId, Chunk>, ids: seq<ChunkId>): nat
  {
    if |ids| == 0 then 0
    else
      var c := ids[|ids| - 1];
      TokenTotal(table, ids[..|ids| - 1]) + (if c in table && table[c].tokens.Known? then table[c].tokens.n else 0)
  }

  lemma {:induction false} TokenTotalIsShareSum(r: Inserted, chunks: seq<ChunkInput>, t: nat, n: nat)
    requires TextLength(chunks) > 0 && n <= |chunks| == |r.chunkIds|
    requires forall i :: 0 <= i < |chunks| ==>
      && r.chunkIds[i] in r.store.chunks
      && r.store.chunks[r.chunkIds[i]] == NewChunk(r.sourceId, chunks, i, Known(t))
    ensures TextLength(chunks[..n]) <= TextLength(chunks)
    ensures TokenTotal(r.store.chunks, r.chunkIds[..n]) == ShareSum(chunks[..n], t, TextLength(chunks))
  {
    assert chunks == chunks[..n] + chunks[n..];
    TextLengthConcat(chunks[..n], chunks[n..]);
    if n > 0 {
      TokenTotalIsShareSum(r, chunks, t, n - 1);
      var whole := TextLength(chunks);
      var c := r.chunkIds[n - 1];
      assert r.store.chunks[c].tokens == Known(CeilDiv(Mul(t, |chunks[n - 1].text|), whole));
      TokenTotalSnoc(r.store.chunks, r.chunkIds, n);
      ShareSumSnoc(chunks, t, whole, n);
    }
  }

  lemma {:induction false} TokenTotalSnoc(table: map<ChunkId, Chunk>, ids: seq<ChunkId>, n: nat)
    requires 0 < n <= |ids|
    ensures TokenTotal(table, ids[..n]) == TokenTotal(table, ids[..n - 1]) +
      (if ids[n - 1] in table && table[ids[n - 1]].tokens.Known? then table[ids[n - 1]].tokens.n else 0)
  {
    assert ids[..n][..n - 1] == ids[..n - 1];
  }

  lemma {:induction false} ShareSumSnoc(chunks: seq<ChunkInput>, t: nat, whole: nat, n: nat)
    requires 0 < n <= |chunks| && whole > 0
    requires TextLength(chunks[..n]) <= whole && TextLength(chunks[..n - 1]) <= whole
    ensures ShareSum(chunks[..n], t, whole) == ShareSum(chunks[..n - 1], t, whole) + CeilDiv(Mul(t, |chunks[n - 1].text|), whole)
  {
    assert chunks[..n][..n - 1] == chunks[..n - 1];
  }

  /** With a positive total length every chunk gets a token count, and the
      counts add up to at least the source's total. */
  lemma {:induction false} InsertTokensCoverTotal(st: Store, name: string, chunks: seq<ChunkInput>, t: nat, embeddingMs: Estimate)
    requires TextLength(chunks) > 0
    ensures var r := Insert(st, name, chunks, Known(t), embeddingMs);
      && (forall i :: 0 <= i < |chunks| ==> r.store.chunks[r.chunkIds[i]].tokens.Known?)
      && TokenTotal(r.store.chunks, r.chunkIds) >= t
  {
    var r := Insert(st, name, chunks, Known(t), embeddingMs);
    TokenTotalIsShareSum(r, chunks, t, |chunks|);
    assert chunks[..|chunks|] == chunks && r.chunkIds[..|chunks|] == r.chunkIds;
    ShareSumAtLeastTotal(chunks, t);
  }

  /** The rounded-up shares of all chunks add up to at least the total. */
  lemma {:induction false} ShareSumAtLeastTotal(chunks: seq<ChunkInput>, t: nat)
    requires TextLength(chunks) > 0
    ensures ShareSum(chunks, t, TextLength(chunks)) >= t
  {
    var whole := TextLength(chunks);
    ShareSumCovers(chunks, t, whole);
    MulCancel(ShareSum(chunks, t, whole), t, whole);
  }

  /** With a total length of 0 (every text empty), every token count is `NaN`. */
  lemma {:induction false} InsertTokensOfEmptyTexts(st: Store, name: string, chunks: seq<ChunkInput>, totalTokens: Estimate, embeddingMs: Estimate)
    requires TextLength(chunks) == 0
    ensures var r := Insert(st, name, chunks, totalTokens, embeddingMs);
      forall i :: 0 <= i < |chunks| ==> r.store.chunks[r.chunkIds[i]].tokens == Estimate.NaN
  {
  }

  /** What the orchestrators destructure from the embedding call:
      `{ embeddings, totalTokens, embeddingMs }`. */
  datatype Embedded = Embedded(embeddings: seq<Vector>, totalTokens: nat, embeddingMs: nat)

  /** The embedding service as the orchestrators see it: texts in, their
      embeddings and usage out, or a failure. */
  type Embedder = seq<string> -> Result<Embedded, Error>

  /** The service answered with one embedding per text sent, which
      `fetchEmbeddingBatch` checks before it returns. */
  predicate Answers(result: Result<Embedded, Error>, n: nat)
  {
    result.Success? ==> |result.value.embeddings| == n
  }

  /** `text.replace(/\n/g, " ")`. */
  function Normalize(text: string): (r: string)
    ensures |r| == |text|
    ensures forall i :: 0 <= i < |r| ==> r[i] != '\n'
    ensures forall i :: 0 <= i < |r| ==> text[i] != '\n' ==> r[i] == text[i]
    ensures forall i :: 0 <= i < |r| ==> text[i] == '\n' ==> r[i] == ' '
  {
    seq(|text|, i requires 0 <= i < |text| => if text[i] == '\n' then ' ' else text[i])
  }

  /** Normalising twice changes nothing more. */
  lemma {:induction false} NormalizeIdempotent(text: string)
    ensures Normalize(Normalize(text)) == Normalize(text)
  {
  }

  /** The texts `add` sends: every chunk's text, normalised, in order. */
  function EmbeddingInput(chunks: seq<ChunkInput>): (r: seq<string>)
    ensures |r| == |chunks|
    ensures forall i :: 0 <= i < |chunks| ==> r[i] == Normalize(chunks[i].text)
  {
    seq(|chunks|, i requires 0 <= i < |chunks| => Normalize(chunks[i].text))
  }

  /** One entry of an `upsertVectors` request. */
  datatype VectorUpsert = VectorUpsert(id: ChunkId, vector: IndexedVector)

  /** The id of entry `i` of a request. */
  function IdAt(vs: seq<VectorUpsert>, i: nat): ChunkId
    requires i < |vs|
  {
    vs[i].id
  }

  /** The request's ids strictly ascend. Stated through `IdAt`, so that the
      pairwise fact is used only where a proof names the ids it compares. */
  ghost predicate IdsAscend(vs: seq<VectorUpsert>)
  {
    forall i, m :: 0 <= i < m < |vs| ==> IdAt(vs, i) < IdAt(vs, m)
  }

  /** `upsertVectors("chunks", vectors)`: each entry is written under its id;
      when an id repeats the later entry wins; other ids keep their vector. */
  function UpsertVectors(index: map<ChunkId, IndexedVector>, vs: seq<VectorUpsert>): (r: map<ChunkId, IndexedVector>)
    ensures forall k :: k in r <==> k in index || exists i :: 0 <= i < |vs| && vs[i].id == k
  {
    if |vs| == 0 then index
    else
      var r := UpsertVectors(index, vs[..|vs| - 1])[vs[|vs| - 1].id := vs[|vs| - 1].vector];
      assert forall i :: 0 <= i < |vs| - 1 ==> vs[..|vs| - 1][i] == vs[i];
      r
  }

  /** The ids an upsert request names. */
  function Written(vs: seq<VectorUpsert>): set<ChunkId>
  {
    set i | 0 <= i < |vs| :: vs[i].id
  }

  /** A request whose ids are distinct writes each entry's vector under its id
      and leaves every other id alone. */
  lemma {:induction false} UpsertVectorsValues(index: map<ChunkId, IndexedVector>, vs: seq<VectorUpsert>)
    requires forall i, j :: 0 <= i < j < |vs| ==> vs[i].id != vs[j].id
    ensures forall i :: 0 <= i < |vs| ==> UpsertVectors(index, vs)[vs[i].id] == vs[i].vector
    ensures forall k :: k in index && k !in Written(vs) ==> UpsertVectors(index, vs)[k] == index[k]
  {
    if |vs| > 0 {
      var init := vs[..|vs| - 1];
      UpsertVectorsValues(index, init);
      assert forall i :: 0 <= i < |init| ==> init[i] == vs[i];
      assert Written(vs) == Written(init) + {vs[|vs| - 1].id};
    }
  }

  /** The value one upsert leaves under its id when the request's ids
      ascend. */
  lemma {:induction false} UpsertVectorsAt(index: map<ChunkId, IndexedVector>, vs: seq<VectorUpsert>, p: nat)
    requires IdsAscend(vs)
    requires p < |vs|
    ensures vs[p].id in UpsertVectors(index, vs)
    ensures UpsertVectors(index, vs)[vs[p].id] == vs[p].vector
  {
    forall i, m | 0 <= i < m < |vs|
      ensures vs[i].id != vs[m].id
    {
      assert IdAt(vs, i) < IdAt(vs, m);
    }
    UpsertVectorsValues(index, vs);
  }

  /** The entries written for one source: chunk `j` gets embedding
      `offset + j` and metadata `{ name, sourceId, chunkIndex: j }`. */
  function SourceVectors(name: string, sourceId: SourceId, chunkIds: seq<ChunkId>, embeddings: seq<Vector>, offset: nat)
    : seq<VectorUpsert>
    requires offset + |chunkIds| <= |embeddings|
  {
    seq(|chunkIds|, j requires 0 <= j < |chunkIds| =>
      VectorUpsert(chunkIds[j], IndexedVector(embeddings[offset + j], Metadata(name, sourceId, j))))
  }

  /** Upserting one source's entries writes exactly its chunk ids, each with
      its own vector, when the ids are distinct. */
  lemma {:induction false} SourceVectorsWritten(index: map<ChunkId, IndexedVector>, name: string, sourceId: SourceId,
                             chunkIds: seq<ChunkId>, embeddings: seq<Vector>, offset: nat)
    requires offset + |chunkIds| <= |embeddings|
    requires forall i, j :: 0 <= i < j < |chunkIds| ==> chunkIds[i] < chunkIds[j]
    ensures var r := UpsertVectors(index, SourceVectors(name, sourceId, chunkIds, embeddings, offset));
      && (forall k :: k in r <==> k in index || k in chunkIds)
      && (forall j :: 0 <= j < |chunkIds| ==>
            r[chunkIds[j]] == IndexedVector(embeddings[offset + j], Metadata(name, sourceId, j)))
      && (forall k :: k in index && k !in chunkIds ==> r[k] == index[k])
  {
    var vs := SourceVectors(name, sourceId, chunkIds, embeddings, offset);
    SourceVectorsIds(name, sourceId, chunkIds, embeddings, offset);
    SourceVectorsKeys(index, vs, chunkIds);
    SourceVectorsAt(index, name, sourceId, chunkIds, embeddings, offset);
  }

  lemma {:induction false} SourceVectorsIds(name: string, sourceId: SourceId, chunkIds: seq<ChunkId>, embeddings: seq<Vector>, offset: nat)
    requires offset + |chunkIds| <= |embeddings|
    ensures var vs := SourceVectors(name, sourceId, chunkIds, embeddings, offset);
      && |vs| == |chunkIds|
      && (forall i :: 0 <= i < |vs| ==> vs[i].id == chunkIds[i])
      && (forall i :: 0 <= i < |vs| ==> vs[i].vector == IndexedVector(embeddings[offset + i], Metadata(name, sourceId, i)))
  {
  }

  lemma {:induction false} SourceVectorsKeys(index: map<ChunkId, IndexedVector>, vs: seq<VectorUpsert>, chunkIds: seq<ChunkId>)
    requires |vs| == |chunkIds| && forall i :: 0 <= i < |vs| ==> vs[i].id == chunkIds[i]
    ensures forall k :: k in UpsertVectors(index, vs) <==> k in index || k in chunkIds
  {
    forall k
      ensures k in UpsertVectors(index, vs) <==> k in index || k in chunkIds
    {
      if k in chunkIds {
        var i :| 0 <= i < |chunkIds| && chunkIds[i] == k;
        assert vs[i].id == k;
      }
    }
  }

  lemma {:induction false} SourceVectorsAt(index: map<ChunkId, IndexedVector>, name: string, sourceId: SourceId,
                        chunkIds: seq<ChunkId>, embeddings: seq<Vector>, offset: nat)
    requires offset + |chunkIds| <= |embeddings|
    requires forall i, j :: 0 <= i < j < |chunkIds| ==> chunkIds[i] < chunkIds[j]
    ensures var r := UpsertVectors(index, SourceVectors(name, sourceId, chunkIds, embeddings, offset));
      && (forall j :: 0 <= j < |chunkIds| ==>
            chunkIds[j] in r && r[chunkIds[j]] == IndexedVector(embeddings[offset + j], Metadata(name, sourceId, j)))
      && (forall k :: k in index && k !in chunkIds ==> r[k] == index[k])
  {
    var vs := SourceVectors(name, sourceId, chunkIds, embeddings, offset);
    SourceVectorsIds(name, sourceId, chunkIds, embeddings, offset);
    SourceVectorsKeys(index, vs, chunkIds);
    UpsertVectorsValues(index, vs);
    var r := UpsertVectors(index, vs);
    forall j | 0 <= j < |chunkIds|
      ensures chunkIds[j] in r && r[chunkIds[j]] == IndexedVector(embeddings[offset + j], Metadata(name, sourceId, j))
    {
      assert r[vs[j].id] == vs[j].vector;
    }
    forall k | k in index && k !in chunkIds
      ensures r[k] == index[k]
    {
      assert k !in Written(vs);
    }
  }

  /** The patch that sets source `id`'s `saved` flag. `db.patch` of an id
      with no document throws. */
  function MarkSaved(st: Store, id: SourceId): (r: Result<Store, Error>)
    ensures r.Failure? <==> id !in st.sources
    ensures r.Failure? ==> r.error == PatchOfMissingDocument
    ensures r.Success? ==>
      && r.value.sources.Keys == st.sources.Keys
      && r.value.sources[id] == st.sources[id].(saved := true)
      && (forall s :: s in st.sources && s != id ==> r.value.sources[s] == st.sources[s])
      && r.value == st.(sources := r.value.sources)
  {
    if id !in st.sources then Failure(PatchOfMissingDocument)
    else Success(st.(sources := st.sources[id := st.sources[id].(saved := true)]))
  }

  /** Every source marked saved has a vector for each of its chunks. */
  ghost predicate SavedAreIndexed(st: Store)
  {
    forall s, i :: s in st.sources && st.sources[s].saved && 0 <= i < |st.sources[s].chunkIds| ==>
      st.sources[s].chunkIds[i] in st.index
  }

  /** The store after `add`'s insert and upsert, before the patch: chunk `i`
      has embedding `i`, every other vector is kept. */
  function AddIndexed(ins: Inserted, name: string, embedded: Embedded): (r: Store)
    requires |ins.chunkIds| <= |embedded.embeddings|
    requires forall i, j :: 0 <= i < j < |ins.chunkIds| ==> ins.chunkIds[i] < ins.chunkIds[j]
    ensures r == ins.store.(index := r.index)
    ensures forall k :: k in r.index <==> k in ins.store.index || k in ins.chunkIds
    ensures forall i :: 0 <= i < |ins.chunkIds| ==>
      r.index[ins.chunkIds[i]] == IndexedVector(embedded.embeddings[i], Metadata(name, ins.sourceId, i))
    ensures forall k :: k in ins.store.index && k !in ins.chunkIds ==> r.index[k] == ins.store.index[k]
  {
    SourceVectorsWritten(ins.store.index, name, ins.sourceId, ins.chunkIds, embedded.embeddings, 0);
    ins.store.(index := UpsertVectors(ins.store.index, SourceVectors(name, ins.sourceId, ins.chunkIds, embedded.embeddings, 0)))
  }

  /** `add` after the embedding call returned: insert the source and its
      chunks with the reported usage, upsert chunk `i`'s vector as embedding
      `i`, then mark the source saved, which cannot fail on the source just
      inserted. */
  function AddEmbedded(st: Store, name: string, chunks: seq<ChunkInput>, e: Embedded): (r: Result<Store, Error>)
    requires |e.embeddings| == |chunks|
    ensures r.Success?
    ensures var ins := Insert(st, name, chunks, Known(e.totalTokens), Known(e.embeddingMs));
      && r.value.chunks == ins.store.chunks
      && r.value.sources == st.sources[ins.sourceId := Source(name, ins.chunkIds, true, Known(e.totalTokens), Known(e.embeddingMs))]
      && (forall k :: k in r.value.index <==> k in st.index || k in ins.chunkIds)
      && (forall i :: 0 <= i < |chunks| ==>
            r.value.index[ins.chunkIds[i]] == IndexedVector(e.embeddings[i], Metadata(name, ins.sourceId, i)))
      && (forall k :: k in st.index && k !in ins.chunkIds ==> r.value.index[k] == st.index[k])
      && r.value.searches == st.searches && r.value.comparisons == st.comparisons
      && r.value.vectors == st.vectors && r.value.jobs == st.jobs
  {
    var ins := Insert(st, name, chunks, Known(e.totalTokens), Known(e.embeddingMs));
    MarkSaved(AddIndexed(ins, name, e), ins.sourceId)
  }

  /** What an action leaves behind: the store as its committed mutations left
      it, and the error it throws, if any. An action is not a transaction: a
      step that throws leaves the mutations before it in place. */
  datatype Outcome = Outcome(store: Store, thrown: Option<Error>)

  /** `add`: embed the normalised texts, insert the source and its chunks,
      upsert their vectors, then mark the source saved. The vector index is
      outside the model: `upsertError` is its answer to the upsert, `None`
      when it accepts it. A failed embedding call stops before anything is
      written; a rejected upsert leaves the inserted source unsaved and none
      of its chunks indexed. */
  function Add(st: Store, name: string, chunks: seq<ChunkInput>, embed: Embedder, upsertError: Option<Error>): (r: Outcome)
    requires Answers(embed(EmbeddingInput(chunks)), |chunks|)
    ensures embed(EmbeddingInput(chunks)).Failure? ==> r == Outcome(st, Some(embed(EmbeddingInput(chunks)).error))
    ensures embed(EmbeddingInput(chunks)).Success? ==> r.thrown == upsertError
    ensures embed(EmbeddingInput(chunks)).Success? && upsertError.Some? ==>
      var e := embed(EmbeddingInput(chunks)).value;
      var ins := Insert(st, name, chunks, Known(e.totalTokens), Known(e.embeddingMs));
      && r.store.sources == st.sources[ins.sourceId := Source(name, ins.chunkIds, false, Known(e.totalTokens), Known(e.embeddingMs))]
      && r.store.chunks == ins.store.chunks
      && r.store.index == st.index
    ensures embed(EmbeddingInput(chunks)).Success? && upsertError.None? ==>
      Success(r.store) == AddEmbedded(st, name, chunks, embed(EmbeddingInput(chunks)).value)
  {
    match embed(EmbeddingInput(chunks))
    case Failure(err) => Outcome(st, Some(err))
    case Success(e) =>
      if upsertError.Some? then
        Outcome(Insert(st, name, chunks, Known(e.totalTokens), Known(e.embeddingMs)).store, upsertError)
      else
        Outcome(AddEmbedded(st, name, chunks, e).value, None)
  }

  /** `saved` becomes true only once the vectors are upserted: a store in which
      every saved source is fully indexed stays so after each step of `add`,
      and after `add` whatever the embedding service and the index answer. */
  lemma {:induction false} AddSavesOnlyIndexed(st: Store, name: string, chunks: seq<ChunkInput>, embed: Embedder,
                                               upsertError: Option<Error>)
    requires Answers(embed(EmbeddingInput(chunks)), |chunks|)
    requires SavedAreIndexed(st)
    ensures SavedAreIndexed(Add(st, name, chunks, embed, upsertError).store)
    ensures embed(EmbeddingInput(chunks)).Success? ==>
      var e := embed(EmbeddingInput(chunks)).value;
      var ins := Insert(st, name, chunks, Known(e.totalTokens), Known(e.embeddingMs));
      && !ins.store.sources[ins.sourceId].saved
      && SavedAreIndexed(ins.store)
      && SavedAreIndexed(AddIndexed(ins, name, e))
  {
    if embed(EmbeddingInput(chunks)).Success? {
      var e := embed(EmbeddingInput(chunks)).value;
      var ins := Insert(st, name, chunks, Known(e.totalTokens), Known(e.embeddingMs));
      var mid := AddIndexed(ins, name, e);
      forall s, i | s in ins.store.sources && ins.store.sources[s].saved && 0 <= i < |ins.store.sources[s].chunkIds|
        ensures ins.store.sources[s].chunkIds[i] in ins.store.index
      {
        assert ins.store.sources[s] == st.sources[s];
      }
      assert SavedAreIndexed(mid);
      var done := MarkSaved(mid, ins.sourceId).value;
      forall s, i | s in done.sources && done.sources[s].saved && 0 <= i < |done.sources[s].chunkIds|
        ensures done.sources[s].chunkIds[i] in done.index
      {
        if s == ins.sourceId {
          assert done.sources[s].chunkIds[i] == ins.chunkIds[i];
        } else {
          assert done.sources[s] == mid.sources[s];
        }
      }
      if upsertError.None? {
        assert Add(st, name, chunks, embed, upsertError).store == done;
      } else {
        assert Add(st, name, chunks, embed, upsertError).store == ins.store;
      }
    }
  }

  /** One element of `addBatch`'s `batch`: a named source with all its chunks. */
  datatype SourceInput = SourceInput(name: string, chunks: seq<ChunkInput>)

  /** The texts `addBatch` sends: every source's normalised texts, in batch
      order. */
  function BatchInput(batch: seq<SourceInput>): seq<string>
  {
    if |batch| == 0 then [] else BatchInput(batch[..|batch| - 1]) + EmbeddingInput(batch[|batch| - 1].chunks)
  }

  /** The number of chunks in the batch. */
  function ChunkCount(batch: seq<SourceInput>): nat
  {
    if |batch| == 0 then 0 else ChunkCount(batch[..|batch| - 1]) + |batch[|batch| - 1].chunks|
  }

  /** The total text length of all the sources of the batch. */
  function BatchLength(batch: seq<SourceInput>): nat
  {
    if |batch| == 0 then 0 else BatchLength(batch[..|batch| - 1]) + TextLength(batch[|batch| - 1].chunks)
  }

  /** The request holds one text per chunk. */
  lemma {:induction false} BatchInputLength(batch: seq<SourceInput>)
    ensures |BatchInput(batch)| == ChunkCount(batch)
  {
    if |batch| > 0 {
      BatchInputLength(batch[..|batch| - 1]);
    }
  }

  /** No source is longer than the whole batch. */
  lemma {:induction false} BatchLengthBounds(batch: seq<SourceInput>)
    ensures forall idx :: 0 <= idx < |batch| ==> TextLength(batch[idx].chunks) <= BatchLength(batch)
  {
    if |batch| > 0 {
      var init := batch[..|batch| - 1];
      BatchLengthBounds(init);
      assert forall idx :: 0 <= idx < |init| ==> batch[idx] == init[idx];
    }
  }

  lemma {:induction false} ChunkCountStep(batch: seq<SourceInput>, a: nat)
    requires a < |batch|
    ensures ChunkCount(batch[..a + 1]) == ChunkCount(batch[..a]) + |batch[a].chunks|
  {
    assert batch[..a + 1][..a] == batch[..a];
  }

  lemma {:induction false} ChunkCountMonotone(batch: seq<SourceInput>, a: nat, b: nat)
    requires a <= b <= |batch|
    ensures ChunkCount(batch[..a]) <= ChunkCount(batch[..b])
  {
    if a < b {
      ChunkCountMonotone(batch, a, b - 1);
      ChunkCountStep(batch, b - 1);
    }
  }

  /** The offsets `addBatch` uses, as written: 0, followed by the chunk count
      of every source of the batch. */
  function AsWrittenOffsets(batch: seq<SourceInput>): (r: seq<nat>)
    ensures |r| == |batch| + 1
    ensures r[0] == 0
    ensures forall idx :: 0 < idx <= |batch| ==> r[idx] == |batch[idx - 1].chunks|
  {
    [0] + seq(|batch|, i requires 0 <= i < |batch| => |batch[i].chunks|)
  }

  /** Where each source's texts start in the request: the number of chunks of
      the sources before it. */
  function Offsets(batch: seq<SourceInput>): (r: seq<nat>)
    ensures |r| == |batch| + 1
    ensures forall idx :: 0 <= idx <= |batch| ==> r[idx] == ChunkCount(batch[..idx])
  {
    seq(|batch| + 1, i requires 0 <= i <= |batch| => ChunkCount(batch[..i]))
  }

  /** Every source's texts, read from its offset on, lie inside the response. */
  ghost predicate OffsetsFit(batch: seq<SourceInput>, offsets: seq<nat>)
  {
    && |offsets| >= |batch|
    && forall idx :: 0 <= idx < |batch| ==> offsets[idx] + |batch[idx].chunks| <= ChunkCount(batch)
  }

  lemma {:induction false} OffsetsFitBatch(batch: seq<SourceInput>)
    ensures OffsetsFit(batch, Offsets(batch))
  {
    forall idx | 0 <= idx < |batch|
      ensures Offsets(batch)[idx] + |batch[idx].chunks| <= ChunkCount(batch)
    {
      ChunkCountStep(batch, idx);
      ChunkCountMonotone(batch, idx + 1, |batch|);
      assert batch[..|batch|] == batch;
    }
  }

  /** The offsets as written stay inside the response too (so they misplace
      vectors rather than read past the end): the previous source and this
      one are two different sources of the batch. */
  lemma {:induction false} AsWrittenOffsetsFit(batch: seq<SourceInput>)
    ensures OffsetsFit(batch, AsWrittenOffsets(batch))
  {
    forall idx | 0 <= idx < |batch|
      ensures AsWrittenOffsets(batch)[idx] + |batch[idx].chunks| <= ChunkCount(batch)
    {
      ChunkCountStep(batch, idx);
      ChunkCountMonotone(batch, idx + 1, |batch|);
      assert batch[..|batch|] == batch;
      if idx > 0 {
        ChunkCountStep(batch, idx - 1);
      }
    }
  }

  /** The estimate `Math.ceil(x * portion)` with `portion = sourceLength /
      totalLength`, for source `idx` of the batch, taken as the exact ceiling
      of `x * sourceLength / totalLength`. The rounding of the floating-point
      quotient `portion` is not modelled. */
  function SourceShare(batch: seq<SourceInput>, idx: nat, x: nat): Estimate
    requires idx < |batch|
  {
    ProRate(Known(x), TextLength(batch[idx].chunks), BatchLength(batch))
  }

  /** Source `idx` of the batch is stored under `sid`, unsaved, with its share
      of the usage; its chunks follow it in id order and are stored as
      `insert` writes them. */
  ghost predicate SourceStored(store: Store, batch: seq<SourceInput>, e: Embedded, idx: nat, sid: SourceId)
    requires idx < |batch|
  {
    && sid in store.sources
    && sid + |batch[idx].chunks| < store.nextId
    && var src := store.sources[sid];
       && src == Source(batch[idx].name, src.chunkIds, false,
                        SourceShare(batch, idx, e.totalTokens), SourceShare(batch, idx, e.embeddingMs))
       && |src.chunkIds| == |batch[idx].chunks|
       && (forall j :: 0 <= j < |src.chunkIds| ==>
             && src.chunkIds[j] == sid + 1 + j
             && src.chunkIds[j] in store.chunks
             && store.chunks[src.chunkIds[j]] == NewChunk(sid, batch[idx].chunks, j, SourceShare(batch, idx, e.totalTokens)))
  }

  /** A later `insert` takes ids from the counter on, so it overwrites nothing
      stored before it. */
  lemma {:induction false} StoredSurvivesInsert(store: Store, batch: seq<SourceInput>, e: Embedded, idx: nat, sid: SourceId,
                             name: string, chunks: seq<ChunkInput>, totalTokens: Estimate, embeddingMs: Estimate)
    requires idx < |batch| && SourceStored(store, batch, e, idx, sid)
    ensures var after := Insert(store, name, chunks, totalTokens, embeddingMs).store;
      && SourceStored(after, batch, e, idx, sid)
      && after.sources[sid] == store.sources[sid]
  {
    var after := Insert(store, name, chunks, totalTokens, embeddingMs).store;
    var src := store.sources[sid];
    assert after.sources[sid] == src;
    forall j | 0 <= j < |src.chunkIds|
      ensures src.chunkIds[j] in after.chunks && after.chunks[src.chunkIds[j]] == store.chunks[src.chunkIds[j]]
    {
    }
  }

  /** The source `insert` just wrote is stored as `SourceStored` says. */
  lemma {:induction false} NewSourceStored(store: Store, batch: seq<SourceInput>, e: Embedded, k: nat)
    requires k < |batch|
    ensures var ins := Insert(store, batch[k].name, batch[k].chunks,
                              SourceShare(batch, k, e.totalTokens), SourceShare(batch, k, e.embeddingMs));
      SourceStored(ins.store, batch, e, k, ins.sourceId)
  {
  }

  /** The vector `addBatch` builds for chunk `j` of source `idx`: the
      chunk's id, the embedding at `offsets[idx] + j`, and its metadata. */
  function Laid(batch: seq<SourceInput>, e: Embedded, offsets: seq<nat>, ids: seq<SourceId>, idx: nat, j: nat): VectorUpsert
    requires idx < |batch| && idx < |ids| && j < |batch[idx].chunks|
    requires OffsetsFit(batch, offsets) && |e.embeddings| == ChunkCount(batch)
  {
    VectorUpsert(ids[idx] + 1 + j, IndexedVector(e.embeddings[offsets[idx] + j], Metadata(batch[idx].name, ids[idx], j)))
  }

  /** The vectors built for source `idx`, one per chunk. */
  function Block(batch: seq<SourceInput>, e: Embedded, offsets: seq<nat>, ids: seq<SourceId>, idx: nat): (r: seq<VectorUpsert>)
    requires idx < |batch| && idx < |ids|
    requires OffsetsFit(batch, offsets) && |e.embeddings| == ChunkCount(batch)
    ensures |r| == |batch[idx].chunks|
    ensures forall j :: 0 <= j < |r| ==> r[j] == Laid(batch, e, offsets, ids, idx, j)
  {
    seq(|batch[idx].chunks|, j requires 0 <= j < |batch[idx].chunks| => Laid(batch, e, offsets, ids, idx, j))
  }

  /** The vectors collected for the first `k` sources (whose ids are `ids`):
      the blocks of the sources, in batch order. */
  ghost predicate VectorsLaid(vs: seq<VectorUpsert>, batch: seq<SourceInput>, e: Embedded, offsets: seq<nat>,
                              ids: seq<SourceId>, k: nat)
    requires k <= |batch| && k == |ids| && OffsetsFit(batch, offsets) && |e.embeddings| == ChunkCount(batch)
    decreases k
  {
    if k == 0 then vs == []
    else
      && ChunkCount(batch[..k - 1]) <= |vs|
      && VectorsLaid(vs[..ChunkCount(batch[..k - 1])], batch, e, offsets, ids[..k - 1], k - 1)
      && vs[ChunkCount(batch[..k - 1])..] == Block(batch, e, offsets, ids, k - 1)
  }

  /** Chunk `j` of source `idx` sits at the source's place in the request. */
  lemma {:induction false} VectorsLaidAt(vs: seq<VectorUpsert>, batch: seq<SourceInput>, e: Embedded, offsets: seq<nat>,
                                         ids: seq<SourceId>, k: nat, idx: nat, j: nat)
    requires k <= |batch| && k == |ids| && OffsetsFit(batch, offsets) && |e.embeddings| == ChunkCount(batch)
    requires VectorsLaid(vs, batch, e, offsets, ids, k)
    requires idx < k && j < |batch[idx].chunks|
    ensures |vs| == ChunkCount(batch[..k])
    ensures ChunkCount(batch[..idx]) + j < |vs|
    ensures vs[ChunkCount(batch[..idx]) + j] == Laid(batch, e, offsets, ids, idx, j)
    decreases k
  {
    VectorsLaidLength(vs, batch, e, offsets, ids, k);
    if idx < k - 1 {
      var before := ChunkCount(batch[..k - 1]);
      var p := ChunkCount(batch[..idx]) + j;
      VectorsLaidAt(vs[..before], batch, e, offsets, ids[..k - 1], k - 1, idx, j);
      assert vs[..before][p] == vs[p];
      assert Laid(batch, e, offsets, ids[..k - 1], idx, j) == Laid(batch, e, offsets, ids, idx, j);
    } else {
      VectorsLaidAtLast(vs, batch, e, offsets, ids, k, j);
    }
  }

  /** The vectors of the first `k` sources are as many as their chunks. */
  lemma {:induction false} VectorsLaidLength(vs: seq<VectorUpsert>, batch: seq<SourceInput>, e: Embedded, offsets: seq<nat>,
                                             ids: seq<SourceId>, k: nat)
    requires 0 < k <= |batch| && k == |ids| && OffsetsFit(batch, offsets) && |e.embeddings| == ChunkCount(batch)
    requires VectorsLaid(vs, batch, e, offsets, ids, k)
    ensures |vs| == ChunkCount(batch[..k])
  {
    ChunkCountStep(batch, k - 1);
  }

  /** The last block laid is that of source `k - 1`. */
  lemma {:induction false} VectorsLaidAtLast(vs: seq<VectorUpsert>, batch: seq<SourceInput>, e: Embedded, offsets: seq<nat>,
                                             ids: seq<SourceId>, k: nat, j: nat)
    requires 0 < k <= |batch| && k == |ids| && OffsetsFit(batch, offsets) && |e.embeddings| == ChunkCount(batch)
    requires VectorsLaid(vs, batch, e, offsets, ids, k)
    requires j < |batch[k - 1].chunks|
    ensures ChunkCount(batch[..k - 1]) + j < |vs|
    ensures vs[ChunkCount(batch[..k - 1]) + j] == Laid(batch, e, offsets, ids, k - 1, j)
  {
    var before := ChunkCount(batch[..k - 1]);
    assert vs[before..][j] == Laid(batch, e, offsets, ids, k - 1, j);
  }

  /** What `addBatch`'s inserts produce: the store, the source ids in batch
      order, and the vectors to upsert. */
  datatype BatchInserted = BatchInserted(store: Store, sourceIds: seq<SourceId>, vectors: seq<VectorUpsert>)

  /** After the first `k` inserts of the batch: each source is stored, ids
      ascend from the counter on, the vectors are laid out in request order
      with ascending fresh ids, and nothing else has changed. */
  ghost predicate BatchProgress(st: Store, batch: seq<SourceInput>, e: Embedded, offsets: seq<nat>, r: BatchInserted, k: nat)
    requires OffsetsFit(batch, offsets) && |e.embeddings| == ChunkCount(batch)
  {
    && SourcesProgress(st, batch, e, r, k)
    && VectorsProgress(st, batch, e, offsets, r, k)
    && Unchanged(st, r.store)
    && (Valid(st) ==> Valid(r.store))
  }

  /** The first `k` sources are stored under ascending ids from the counter
      on. */
  ghost predicate SourcesProgress(st: Store, batch: seq<SourceInput>, e: Embedded, r: BatchInserted, k: nat)
  {
    && k <= |batch| && |r.sourceIds| == k
    && st.nextId <= r.store.nextId
    && (forall idx :: 0 <= idx < k ==> st.nextId <= r.sourceIds[idx] && SourceStored(r.store, batch, e, idx, r.sourceIds[idx]))
    && (forall a, b :: 0 <= a < b < k ==> r.sourceIds[a] < r.sourceIds[b])
  }

  /** The vectors of the first `k` sources are laid out in request order,
      with ascending ids taken since the counter stood at `st.nextId`. */
  ghost predicate VectorsProgress(st: Store, batch: seq<SourceInput>, e: Embedded, offsets: seq<nat>, r: BatchInserted, k: nat)
    requires OffsetsFit(batch, offsets) && |e.embeddings| == ChunkCount(batch)
  {
    && k <= |batch| && k == |r.sourceIds| && |r.vectors| == ChunkCount(batch[..k])
    && VectorsLaid(r.vectors, batch, e, offsets, r.sourceIds, k)
    && (forall i :: 0 <= i < |r.vectors| ==> st.nextId <= r.vectors[i].id < r.store.nextId)
    && IdsAscend(r.vectors)
  }

  /** Everything stored before a run of inserts is still there, and only the
      sources and chunks tables and the counter have changed. */
  ghost predicate Unchanged(st: Store, store: Store)
  {
    && (forall s :: s in st.sources && s < st.nextId ==> s in store.sources && store.sources[s] == st.sources[s])
    && (forall c :: c in st.chunks && c < st.nextId ==> c in store.chunks && store.chunks[c] == st.chunks[c])
    && store.searches == st.searches && store.comparisons == st.comparisons
    && store.vectors == st.vectors && store.index == st.index && store.jobs == st.jobs
  }

  /** The insert of source `k`, after the first `k`. */
  function BatchStep(batch: seq<SourceInput>, e: Embedded, offsets: seq<nat>, r: BatchInserted, k: nat): BatchInserted
    requires k < |batch| && OffsetsFit(batch, offsets) && |e.embeddings| == ChunkCount(batch)
  {
    var src := batch[k];
    var ins := Insert(r.store, src.name, src.chunks, SourceShare(batch, k, e.totalTokens), SourceShare(batch, k, e.embeddingMs));
    BatchInserted(ins.store, r.sourceIds + [ins.sourceId],
                  r.vectors + SourceVectors(src.name, ins.sourceId, ins.chunkIds, e.embeddings, offsets[k]))
  }

  /** The insert of `addBatch`: every source of the batch inserted with its
      share of the usage, and the vectors built from its chunk ids with the
      embeddings taken from `offsets`. The inserts are modelled one after the other, in batch
      order. */
  method InsertBatch(st: Store, batch: seq<SourceInput>, e: Embedded, offsets: seq<nat>) returns (r: BatchInserted)
    requires OffsetsFit(batch, offsets) && |e.embeddings| == ChunkCount(batch)
    ensures BatchProgress(st, batch, e, offsets, r, |batch|)
    ensures |r.vectors| == ChunkCount(batch)
  {
    r := BatchInserted(st, [], []);
    var k := 0;
    while k < |batch|
      invariant BatchProgress(st, batch, e, offsets, r, k)
    {
      BatchStepProgress(st, batch, e, offsets, r, k);
      r := BatchStep(batch, e, offsets, r, k);
      k := k + 1;
    }
    ProgressDone(st, batch, e, offsets, r);
  }

  lemma {:induction false} ProgressDone(st: Store, batch: seq<SourceInput>, e: Embedded, offsets: seq<nat>, r: BatchInserted)
    requires OffsetsFit(batch, offsets) && |e.embeddings| == ChunkCount(batch)
    requires BatchProgress(st, batch, e, offsets, r, |batch|)
    ensures |r.vectors| == ChunkCount(batch)
  {
    assert batch[..|batch|] == batch;
  }

  /** One more insert keeps `BatchProgress`. */
  lemma {:induction false} BatchStepProgress(st: Store, batch: seq<SourceInput>, e: Embedded, offsets: seq<nat>, r: BatchInserted, k: nat)
    requires OffsetsFit(batch, offsets) && |e.embeddings| == ChunkCount(batch) && k < |batch|
    requires BatchProgress(st, batch, e, offsets, r, k)
    ensures BatchProgress(st, batch, e, offsets, BatchStep(batch, e, offsets, r, k), k + 1)
  {
    StepStored(st, batch, e, offsets, r, k);
    StepVectors(st, batch, e, offsets, r, k);
    StepUnchanged(st, batch, e, offsets, r, k);
    if Valid(st) {
      StepValid(st, batch, e, offsets, r, k);
    }
  }

  lemma {:induction false} StepStored(st: Store, batch: seq<SourceInput>, e: Embedded, offsets: seq<nat>, r: BatchInserted, k: nat)
    requires OffsetsFit(batch, offsets) && |e.embeddings| == ChunkCount(batch) && k < |batch|
    requires SourcesProgress(st, batch, e, r, k)
    ensures SourcesProgress(st, batch, e, BatchStep(batch, e, offsets, r, k), k + 1)
  {
    var src := batch[k];
    var tt, ms := SourceShare(batch, k, e.totalTokens), SourceShare(batch, k, e.embeddingMs);
    var ins := Insert(r.store, src.name, src.chunks, tt, ms);
    forall idx | 0 <= idx < k
      ensures SourceStored(ins.store, batch, e, idx, r.sourceIds[idx])
    {
      StoredSurvivesInsert(r.store, batch, e, idx, r.sourceIds[idx], src.name, src.chunks, tt, ms);
    }
    NewSourceStored(r.store, batch, e, k);
  }

lemma {:induction false} StepVectors(st: Store, batch: seq<SourceInput>, e: Embedded, offsets: seq<nat>, r: BatchInserted, k: nat)
    requires OffsetsFit(batch, offsets) && |e.embeddings| == ChunkCount(batch) && k < |batch|
    requires |r.sourceIds| == k && st.nextId <= r.store.nextId && VectorsProgress(st, batch, e, offsets, r, k)
    ensures VectorsProgress(st, batch, e, offsets, BatchStep(batch, e, offsets, r, k), k + 1)
  {
    var src := batch[k];
    var ins := Insert(r.store, src.name, src.chunks, SourceShare(batch, k, e.totalTokens), SourceShare(batch, k, e.embeddingMs));
    var added := SourceVectors(src.name, ins.sourceId, ins.chunkIds, e.embeddings, offsets[k]);
    SourceVectorsAreBlock(batch, e, offsets, r.sourceIds, ins.sourceId, ins.chunkIds, k);
    ChunkCountStep(batch, k);
    VectorsLaidStep(r.vectors, added, batch, e, offsets, r.sourceIds, ins.sourceId, k);
    FreshAscendingAppend(r.vectors, added, st.nextId, r.store.nextId, ins.store.nextId);
  }

  /** The vectors built from source `k`'s chunk ids, inserted under
      `sid` with its chunks right after it, are the source's block. */
  lemma {:induction false} SourceVectorsAreBlock(batch: seq<SourceInput>, e: Embedded, offsets: seq<nat>, ids: seq<SourceId>,
                              sid: SourceId, chunkIds: seq<ChunkId>, k: nat)
    requires k < |batch| && |ids| == k && OffsetsFit(batch, offsets) && |e.embeddings| == ChunkCount(batch)
    requires |chunkIds| == |batch[k].chunks| && forall j :: 0 <= j < |chunkIds| ==> chunkIds[j] == sid + 1 + j
    ensures var added := SourceVectors(batch[k].name, sid, chunkIds, e.embeddings, offsets[k]);
      && added == Block(batch, e, offsets, ids + [sid], k)
      && forall j :: 0 <= j < |added| ==> added[j].id == sid + 1 + j
  {
    SourceVectorsIds(batch[k].name, sid, chunkIds, e.embeddings, offsets[k]);
  }

  /** Ids that ascend within two runs, the second run above the first, ascend
      across their concatenation. */
  lemma {:induction false} FreshAscendingAppend(vs: seq<VectorUpsert>, added: seq<VectorUpsert>, low: nat, mid: nat, high: nat)
    requires forall i :: 0 <= i < |vs| ==> low <= vs[i].id < mid
    requires IdsAscend(vs)
    requires forall i :: 0 <= i < |added| ==> mid <= added[i].id < high
    requires IdsAscend(added)
    requires low <= mid <= high
    ensures forall i :: 0 <= i < |vs + added| ==> low <= (vs + added)[i].id < high
    ensures IdsAscend(vs + added)
  {
    var w := vs + added;
    forall i | 0 <= i < |w|
      ensures low <= w[i].id < high
    {
      if i < |vs| {
        assert w[i] == vs[i];
      } else {
        assert w[i] == added[i - |vs|];
      }
    }
    forall i, m | 0 <= i < m < |w|
      ensures IdAt(w, i) < IdAt(w, m)
    {
      if m < |vs| {
        assert w[i] == vs[i] && w[m] == vs[m];
        assert IdAt(vs, i) < IdAt(vs, m);
      } else if i >= |vs| {
        assert w[i] == added[i - |vs|] && w[m] == added[m - |vs|];
        assert IdAt(added, i - |vs|) < IdAt(added, m - |vs|);
      } else {
        assert w[i] == vs[i] && w[m] == added[m - |vs|];
      }
    }
  }

  lemma {:induction false} StepUnchanged(st: Store, batch: seq<SourceInput>, e: Embedded, offsets: seq<nat>, r: BatchInserted, k: nat)
    requires OffsetsFit(batch, offsets) && |e.embeddings| == ChunkCount(batch) && k < |batch|
    requires st.nextId <= r.store.nextId && Unchanged(st, r.store)
    ensures Unchanged(st, BatchStep(batch, e, offsets, r, k).store)
  {
  }

  lemma {:induction false} StepValid(st: Store, batch: seq<SourceInput>, e: Embedded, offsets: seq<nat>, r: BatchInserted, k: nat)
    requires OffsetsFit(batch, offsets) && |e.embeddings| == ChunkCount(batch) && k < |batch|
    requires Valid(r.store)
    ensures Valid(BatchStep(batch, e, offsets, r, k).store)
  {
    InsertValid(r.store, batch[k].name, batch[k].chunks, SourceShare(batch, k, e.totalTokens), SourceShare(batch, k, e.embeddingMs));
  }

  /** Appending source `k`'s vectors keeps the earlier ones in place and lays
      out source `k`'s. */
  lemma {:induction false} VectorsLaidStep(vs: seq<VectorUpsert>, added: seq<VectorUpsert>, batch: seq<SourceInput>, e: Embedded,
                        offsets: seq<nat>, ids: seq<SourceId>, sid: SourceId, k: nat)
    requires k < |batch| && |ids| == k && OffsetsFit(batch, offsets) && |e.embeddings| == ChunkCount(batch)
    requires VectorsLaid(vs, batch, e, offsets, ids, k) && |vs| == ChunkCount(batch[..k])
    requires added == Block(batch, e, offsets, ids + [sid], k)
    ensures VectorsLaid(vs + added, batch, e, offsets, ids + [sid], k + 1)
  {
    assert (vs + added)[..|vs|] == vs;
    assert (vs + added)[|vs|..] == added;
    assert (ids + [sid])[..k] == ids;
  }

  /** The patches at the end of `addBatch`: every listed source marked
      saved; a missing one makes the whole call throw. */
  function MarkAllSaved(st: Store, ids: seq<SourceId>): (r: Result<Store, Error>)
    ensures r.Failure? <==> exists i :: 0 <= i < |ids| && ids[i] !in st.sources
    ensures r.Failure? ==> r.error == PatchOfMissingDocument
    ensures r.Success? ==>
      && r.value == st.(sources := r.value.sources)
      && r.value.sources.Keys == st.sources.Keys
      && (forall s :: s in st.sources ==>
            r.value.sources[s] == if s in ids then st.sources[s].(saved := true) else st.sources[s])
    decreases |ids|
  {
    if |ids| == 0 then Success(st)
    else
      var first :- MarkSaved(st, ids[0]);
      assert forall i :: 1 <= i < |ids| ==> ids[i] == ids[1..][i - 1];
      assert forall s :: s in ids <==> s == ids[0] || s in ids[1..];
      MarkAllSaved(first, ids[1..])
  }

  /** What `addBatch` leaves behind: the store as its committed mutations
      left it, the new sources' ids and the error it throws, if any. */
  datatype BatchAdded = BatchAdded(store: Store, sourceIds: seq<SourceId>, thrown: Option<Error>)

  /** Source `idx` of the batch is stored under `sid`, saved, with its share
      of the usage, and every one of its chunks has the vector `offsets` picks
      for it in the index. */
  ghost predicate SourceAdded(store: Store, batch: seq<SourceInput>, e: Embedded, offsets: seq<nat>, idx: nat, sid: SourceId)
    requires idx < |batch| && OffsetsFit(batch, offsets) && |e.embeddings| == ChunkCount(batch)
  {
    && sid in store.sources
    && var src := store.sources[sid];
       && src == Source(batch[idx].name, src.chunkIds, true,
                        SourceShare(batch, idx, e.totalTokens), SourceShare(batch, idx, e.embeddingMs))
       && |src.chunkIds| == |batch[idx].chunks|
       && (forall j :: 0 <= j < |src.chunkIds| ==>
             && src.chunkIds[j] == sid + 1 + j
             && src.chunkIds[j] in store.chunks
             && store.chunks[src.chunkIds[j]] == NewChunk(sid, batch[idx].chunks, j, SourceShare(batch, idx, e.totalTokens))
             && Indexed(store.index, batch, e, offsets, idx, sid, j))
  }

  /** Chunk `j` of source `idx`, stored under `sid`, has in the index the
      embedding `offsets` picks for it, with its metadata. */
  ghost predicate Indexed(index: map<ChunkId, IndexedVector>, batch: seq<SourceInput>, e: Embedded, offsets: seq<nat>,
                          idx: nat, sid: SourceId, j: nat)
    requires idx < |batch| && j < |batch[idx].chunks| && OffsetsFit(batch, offsets) && |e.embeddings| == ChunkCount(batch)
  {
    && sid + 1 + j in index
    && index[sid + 1 + j] == IndexedVector(e.embeddings[offsets[idx] + j], Metadata(batch[idx].name, sid, j))
  }

  /** Every source of the batch was added under ascending fresh ids, saved and
      with its chunks indexed. */
  ghost predicate SourcesAdded(st: Store, batch: seq<SourceInput>, e: Embedded, offsets: seq<nat>, r: BatchAdded)
    requires OffsetsFit(batch, offsets) && |e.embeddings| == ChunkCount(batch)
  {
    && |r.sourceIds| == |batch|
    && (forall a, b :: 0 <= a < b < |batch| ==> r.sourceIds[a] < r.sourceIds[b])
    && (forall idx :: 0 <= idx < |batch| ==>
          && st.nextId <= r.sourceIds[idx]
          && SourceAdded(r.store, batch, e, offsets, idx, r.sourceIds[idx]))
  }

  /** Every source of the batch was inserted under ascending fresh ids,
      unsaved, with its share of the usage and its chunks. */
  ghost predicate SourcesInserted(st: Store, batch: seq<SourceInput>, e: Embedded, r: BatchAdded)
  {
    && |r.sourceIds| == |batch|
    && (forall a, b :: 0 <= a < b < |batch| ==> r.sourceIds[a] < r.sourceIds[b])
    && (forall idx :: 0 <= idx < |batch| ==>
          st.nextId <= r.sourceIds[idx] && SourceStored(r.store, batch, e, idx, r.sourceIds[idx]))
  }

  /** Everything stored before the batch is still there, only the sources,
      chunks and index have changed, and validity is kept. */
  ghost predicate KeptBefore(st: Store, store: Store)
  {
    && (forall s :: s in st.sources && s < st.nextId ==> s in store.sources && store.sources[s] == st.sources[s])
    && (forall c :: c in st.chunks && c < st.nextId ==> c in store.chunks && store.chunks[c] == st.chunks[c])
    && (forall c :: c in st.index && c < st.nextId ==> c in store.index && store.index[c] == st.index[c])
    && store.searches == st.searches && store.comparisons == st.comparisons
    && store.vectors == st.vectors && store.jobs == st.jobs
    && (Valid(st) ==> Valid(store))
  }

  /** `addBatch` with the offsets it reads each source's embeddings from:
      embed every chunk of the batch in one request, insert the sources with
      their shares of the usage, upsert all vectors in one request, then mark
      every new source saved. `upsertError` is the vector index's answer to
      the upsert, `None` when it accepts it. A failed embedding call stops
      before anything is written; a rejected upsert leaves the inserted
      sources unsaved and the index as it was. */
  method AddBatchWith(st: Store, batch: seq<SourceInput>, embed: Embedder, upsertError: Option<Error>, offsets: seq<nat>)
    returns (r: BatchAdded)
    requires Answers(embed(BatchInput(batch)), ChunkCount(batch))
    requires OffsetsFit(batch, offsets)
    ensures embed(BatchInput(batch)).Failure? ==> r == BatchAdded(st, [], Some(embed(BatchInput(batch)).error))
    ensures embed(BatchInput(batch)).Success? ==>
      && |embed(BatchInput(batch)).value.embeddings| == ChunkCount(batch)
      && r.thrown == upsertError
      && KeptBefore(st, r.store)
    ensures embed(BatchInput(batch)).Success? && upsertError.Some? ==>
      && SourcesInserted(st, batch, embed(BatchInput(batch)).value, r)
      && r.store.index == st.index
    ensures embed(BatchInput(batch)).Success? && upsertError.None? ==>
      SourcesAdded(st, batch, embed(BatchInput(batch)).value, offsets, r)
  {
    var fetched := embed(BatchInput(batch));
    if fetched.Failure? {
      return BatchAdded(st, [], Some(fetched.error));
    }
    var e := fetched.value;
    BatchInputLength(batch);
    var ins := InsertBatch(st, batch, e, offsets);
    if upsertError.Some? {
      r := BatchAdded(ins.store, ins.sourceIds, upsertError);
      return;
    }
    BatchSourcesAdded(st, batch, e, offsets, ins);
    BatchKeptBefore(st, ins);
    r := BatchAdded(MarkAllSaved(Upserted(ins), ins.sourceIds).value, ins.sourceIds, None);
  }

  /** After the inserts, the upsert and the patches every source of the batch
      is added. */
  lemma {:induction false} BatchSourcesAdded(st: Store, batch: seq<SourceInput>, e: Embedded, offsets: seq<nat>, ins: BatchInserted)
    requires OffsetsFit(batch, offsets) && |e.embeddings| == ChunkCount(batch)
    requires BatchProgress(st, batch, e, offsets, ins, |batch|)
    ensures MarkAllSaved(Upserted(ins), ins.sourceIds).Success?
    ensures SourcesAdded(st, batch, e, offsets, BatchAdded(MarkAllSaved(Upserted(ins), ins.sourceIds).value, ins.sourceIds, None))
  {
    forall idx | 0 <= idx < |batch|
      ensures ins.sourceIds[idx] in Upserted(ins).sources
    {
    }
    forall idx | 0 <= idx < |batch|
      ensures SourceAdded(MarkAllSaved(Upserted(ins), ins.sourceIds).value, batch, e, offsets, idx, ins.sourceIds[idx])
    {
      BlockIndexed(batch, e, offsets, ins, idx);
      FinishAdded(batch, e, offsets, ins, idx);
    }
  }

  /** After the inserts, the upsert and the patches everything stored before
      the batch is kept. */
  lemma {:induction false} BatchKeptBefore(st: Store, ins: BatchInserted)
    requires Unchanged(st, ins.store) && (Valid(st) ==> Valid(ins.store))
    requires forall i :: 0 <= i < |ins.vectors| ==> st.nextId <= ins.vectors[i].id
    requires forall i :: 0 <= i < |ins.sourceIds| ==> st.nextId <= ins.sourceIds[i]
    requires MarkAllSaved(Upserted(ins), ins.sourceIds).Success?
    ensures KeptBefore(st, MarkAllSaved(Upserted(ins), ins.sourceIds).value)
  {
    var upserted := Upserted(ins);
    var done := MarkAllSaved(upserted, ins.sourceIds).value;
    assert done == upserted.(sources := done.sources);
    UpsertKeepsBelow(ins.store.index, ins.vectors, st.nextId);
    SavedKeepsOlder(upserted, ins.sourceIds, st.nextId);
    assert done.chunks == ins.store.chunks && done.index == upserted.index;
    if Valid(st) {
      SavedKeepsValid(upserted, done);
    }
  }

  /** `addBatch` as written: source `idx` reads its embeddings from
      `AsWrittenOffsets(batch)[idx]` on. */
  method AddBatchAsWritten(st: Store, batch: seq<SourceInput>, embed: Embedder, upsertError: Option<Error>)
    returns (r: BatchAdded)
    requires Answers(embed(BatchInput(batch)), ChunkCount(batch))
    ensures embed(BatchInput(batch)).Failure? ==> r == BatchAdded(st, [], Some(embed(BatchInput(batch)).error))
    ensures embed(BatchInput(batch)).Success? ==>
      && |embed(BatchInput(batch)).value.embeddings| == ChunkCount(batch)
      && r.thrown == upsertError
      && KeptBefore(st, r.store)
    ensures embed(BatchInput(batch)).Success? && upsertError.Some? ==>
      SourcesInserted(st, batch, embed(BatchInput(batch)).value, r) && r.store.index == st.index
    ensures embed(BatchInput(batch)).Success? && upsertError.None? ==>
      && OffsetsFit(batch, AsWrittenOffsets(batch))
      && SourcesAdded(st, batch, embed(BatchInput(batch)).value, AsWrittenOffsets(batch), r)
  {
    AsWrittenOffsetsFit(batch);
    r := AddBatchWith(st, batch, embed, upsertError, AsWrittenOffsets(batch));
  }

  /** `addBatch` with the offsets it evidently intends: source `idx` reads its
      embeddings from the number of chunks before it on, so every chunk reads
      the embedding at its own text's position in the request. */
  method AddBatch(st: Store, batch: seq<SourceInput>, embed: Embedder, upsertError: Option<Error>)
    returns (r: BatchAdded)
    requires Answers(embed(BatchInput(batch)), ChunkCount(batch))
    ensures embed(BatchInput(batch)).Failure? ==> r == BatchAdded(st, [], Some(embed(BatchInput(batch)).error))
    ensures embed(BatchInput(batch)).Success? ==>
      && |embed(BatchInput(batch)).value.embeddings| == ChunkCount(batch)
      && r.thrown == upsertError
      && KeptBefore(st, r.store)
    ensures embed(BatchInput(batch)).Success? && upsertError.Some? ==>
      SourcesInserted(st, batch, embed(BatchInput(batch)).value, r) && r.store.index == st.index
    ensures embed(BatchInput(batch)).Success? && upsertError.None? ==>
      && OffsetsFit(batch, Offsets(batch))
      && SourcesAdded(st, batch, embed(BatchInput(batch)).value, Offsets(batch), r)
    ensures forall idx, j :: 0 <= idx < |batch| && 0 <= j < |batch[idx].chunks| ==> LocatesText(batch, Offsets(batch), idx, j)
  {
    OffsetsFitBatch(batch);
    OffsetsLocateTexts(batch);
    r := AddBatchWith(st, batch, embed, upsertError, Offsets(batch));
  }

  /** Text `j` of source `idx` sits in the request after the texts of the
      sources before it. */
  lemma {:induction false} BatchInputAt(batch: seq<SourceInput>, idx: nat, j: nat)
    requires idx < |batch| && j < |batch[idx].chunks|
    ensures ChunkCount(batch[..idx]) + j < |BatchInput(batch)|
    ensures BatchInput(batch)[ChunkCount(batch[..idx]) + j] == Normalize(batch[idx].chunks[j].text)
  {
    var init := batch[..|batch| - 1];
    BatchInputLength(init);
    BatchInputLength(batch);
    if idx == |batch| - 1 {
      assert batch[..idx] == init;
    } else {
      BatchInputAt(init, idx, j);
      assert init[..idx] == batch[..idx];
    }
  }

  /** Text `j` of source `idx` is at `offsets[idx] + j` in the request. */
  ghost predicate LocatesText(batch: seq<SourceInput>, offsets: seq<nat>, idx: nat, j: nat)
    requires idx < |batch| && idx < |offsets| && j < |batch[idx].chunks|
  {
    && offsets[idx] + j < |BatchInput(batch)|
    && BatchInput(batch)[offsets[idx] + j] == Normalize(batch[idx].chunks[j].text)
  }

  /** `Offsets` points every chunk at its own text in the request. */
  lemma {:induction false} OffsetsLocateTexts(batch: seq<SourceInput>)
    ensures forall idx, j :: 0 <= idx < |batch| && 0 <= j < |batch[idx].chunks| ==> LocatesText(batch, Offsets(batch), idx, j)
  {
    forall idx, j | 0 <= idx < |batch| && 0 <= j < |batch[idx].chunks|
      ensures LocatesText(batch, Offsets(batch), idx, j)
    {
      BatchInputAt(batch, idx, j);
    }
  }

  /** The offsets as written agree with the intended ones at `idx > 0` exactly
      when no source before `idx - 1` has a chunk; in particular always at
      `idx <= 1`. */
  lemma {:induction false} AsWrittenOffsetsAgree(batch: seq<SourceInput>, idx: nat)
    requires idx <= |batch|
    ensures idx <= 1 ==> AsWrittenOffsets(batch)[idx] == Offsets(batch)[idx]
    ensures 0 < idx ==> (AsWrittenOffsets(batch)[idx] == Offsets(batch)[idx] <==> ChunkCount(batch[..idx - 1]) == 0)
  {
    if idx > 0 {
      ChunkCountStep(batch, idx - 1);
    }
    if idx == 1 {
      assert batch[..0] == [];
    }
  }

  /** Three one-chunk sources "a", "b", "c": as written, source 2 reads the
      embedding at position 1, which the request filled with "b". */
  lemma {:induction false} AsWrittenOffsetsMisplace()
    ensures var batch := [SourceInput("a", [ChunkInput("a", Lines(1, 1))]),
                          SourceInput("b", [ChunkInput("b", Lines(1, 1))]),
                          SourceInput("c", [ChunkInput("c", Lines(1, 1))])];
      && AsWrittenOffsets(batch)[2] == 1
      && Offsets(batch)[2] == 2
      && BatchInput(batch)[AsWrittenOffsets(batch)[2]] == "b"
      && !LocatesText(batch, AsWrittenOffsets(batch), 2, 0)
      && LocatesText(batch, Offsets(batch), 2, 0)
  {
    var batch := [SourceInput("a", [ChunkInput("a", Lines(1, 1))]),
                  SourceInput("b", [ChunkInput("b", Lines(1, 1))]),
                  SourceInput("c", [ChunkInput("c", Lines(1, 1))])];
    BatchInputAt(batch, 1, 0);
    BatchInputAt(batch, 2, 0);
    assert batch[..1] == [batch[0]];
    assert batch[..2] == [batch[0], batch[1]];
    assert [batch[0]][..0] == [];
    assert [batch[0], batch[1]][..1] == [batch[0]];
    assert Normalize("b") == "b";
    assert Normalize("c") == "c";
  }
  /** The embedding service answers in request order: position `p` of its
      answer is the vector `embedOne` gives the text at position `p` of the
      request. Nothing in the source guarantees this; it is the hypothesis
      under which `addBatch` stores every chunk's own embedding. */
  ghost predicate InRequestOrder(texts: seq<string>, e: Embedded, embedOne: string -> Vector)
  {
    && |e.embeddings| == |texts|
    && forall p :: 0 <= p < |texts| ==> e.embeddings[p] == embedOne(texts[p])
  }

  /** With an answer in request order, the intended offsets give every chunk
      of the batch the vector of its own normalised text. */
  lemma {:induction false} AddBatchEmbedsOwnText(st: Store, batch: seq<SourceInput>, e: Embedded, r: BatchAdded,
                                                 embedOne: string -> Vector)
    requires |e.embeddings| == ChunkCount(batch) && OffsetsFit(batch, Offsets(batch))
    requires InRequestOrder(BatchInput(batch), e, embedOne)
    requires SourcesAdded(st, batch, e, Offsets(batch), r)
    ensures forall idx, j :: 0 <= idx < |batch| && 0 <= j < |batch[idx].chunks| ==>
      && r.sourceIds[idx] in r.store.sources
      && j < |r.store.sources[r.sourceIds[idx]].chunkIds|
      && r.store.sources[r.sourceIds[idx]].chunkIds[j] in r.store.index
      && r.store.index[r.store.sources[r.sourceIds[idx]].chunkIds[j]].values == embedOne(Normalize(batch[idx].chunks[j].text))
  {
    forall idx, j | 0 <= idx < |batch| && 0 <= j < |batch[idx].chunks|
      ensures && r.sourceIds[idx] in r.store.sources
              && j < |r.store.sources[r.sourceIds[idx]].chunkIds|
              && r.store.sources[r.sourceIds[idx]].chunkIds[j] in r.store.index
              && r.store.index[r.store.sources[r.sourceIds[idx]].chunkIds[j]].values
                 == embedOne(Normalize(batch[idx].chunks[j].text))
    {
      var sid := r.sourceIds[idx];
      assert SourceAdded(r.store, batch, e, Offsets(batch), idx, sid);
      assert r.store.sources[sid].chunkIds[j] == sid + 1 + j;
      assert Indexed(r.store.index, batch, e, Offsets(batch), idx, sid, j);
      BatchInputAt(batch, idx, j);
    }
  }

  /** As written, with an answer in request order, the one chunk of source
      "c" in the batch "a", "b", "c" is stored with the vector of "b". */
  lemma {:induction false} AsWrittenEmbedsNeighbourText(st: Store, e: Embedded, r: BatchAdded, embedOne: string -> Vector)
    requires var batch := [SourceInput("a", [ChunkInput("a", Lines(1, 1))]),
                           SourceInput("b", [ChunkInput("b", Lines(1, 1))]),
                           SourceInput("c", [ChunkInput("c", Lines(1, 1))])];
      && |e.embeddings| == ChunkCount(batch) && OffsetsFit(batch, AsWrittenOffsets(batch))
      && InRequestOrder(BatchInput(batch), e, embedOne)
      && SourcesAdded(st, batch, e, AsWrittenOffsets(batch), r)
    ensures |r.sourceIds| == 3 && r.sourceIds[2] in r.store.sources
    ensures var chunkIds := r.store.sources[r.sourceIds[2]].chunkIds;
      |chunkIds| == 1 && chunkIds[0] in r.store.index && r.store.index[chunkIds[0]].values == embedOne("b")
  {
    var batch := [SourceInput("a", [ChunkInput("a", Lines(1, 1))]),
                  SourceInput("b", [ChunkInput("b", Lines(1, 1))]),
                  SourceInput("c", [ChunkInput("c", Lines(1, 1))])];
    AsWrittenOffsetsMisplace();
    var sid := r.sourceIds[2];
    assert SourceAdded(r.store, batch, e, AsWrittenOffsets(batch), 2, sid);
    assert Indexed(r.store.index, batch, e, AsWrittenOffsets(batch), 2, sid, 0);
  }


  /** The store after the batch's single upsert of all its vectors. */
  function Upserted(ins: BatchInserted): Store
  {
    ins.store.(index := UpsertVectors(ins.store.index, ins.vectors))
  }

  /** Source `idx`, stored by the inserts with its chunks indexed by the
      upsert, is saved once the patches have run. */
  lemma {:induction false} FinishAdded(batch: seq<SourceInput>, e: Embedded, offsets: seq<nat>, ins: BatchInserted, idx: nat)
    requires OffsetsFit(batch, offsets) && |e.embeddings| == ChunkCount(batch)
    requires idx < |batch| && idx < |ins.sourceIds| && SourceStored(ins.store, batch, e, idx, ins.sourceIds[idx])
    requires forall j :: 0 <= j < |batch[idx].chunks| ==>
      Indexed(UpsertVectors(ins.store.index, ins.vectors), batch, e, offsets, idx, ins.sourceIds[idx], j)
    requires MarkAllSaved(Upserted(ins), ins.sourceIds).Success?
    ensures SourceAdded(MarkAllSaved(Upserted(ins), ins.sourceIds).value, batch, e, offsets, idx, ins.sourceIds[idx])
  {
    var sid := ins.sourceIds[idx];
    var store := MarkAllSaved(Upserted(ins), ins.sourceIds).value;
    assert sid in ins.sourceIds;
    assert store.sources[sid] == ins.store.sources[sid].(saved := true);
  }

  /** Every chunk of source `idx` is indexed after the batch's upsert. */
  lemma {:induction false} BlockIndexed(batch: seq<SourceInput>, e: Embedded, offsets: seq<nat>, ins: BatchInserted, idx: nat)
    requires OffsetsFit(batch, offsets) && |e.embeddings| == ChunkCount(batch)
    requires |ins.sourceIds| == |batch| && VectorsLaid(ins.vectors, batch, e, offsets, ins.sourceIds, |batch|)
    requires IdsAscend(ins.vectors)
    requires idx < |batch|
    ensures forall j :: 0 <= j < |batch[idx].chunks| ==>
      Indexed(UpsertVectors(ins.store.index, ins.vectors), batch, e, offsets, idx, ins.sourceIds[idx], j)
  {
    forall j | 0 <= j < |batch[idx].chunks|
      ensures Indexed(UpsertVectors(ins.store.index, ins.vectors), batch, e, offsets, idx, ins.sourceIds[idx], j)
    {
      IndexedAfterUpsert(batch, e, offsets, ins, idx, j);
    }
  }

  /** An upsert whose ids are all at least `low` leaves every entry below
      `low` as it was. */
  lemma {:induction false} UpsertKeepsBelow(index: map<ChunkId, IndexedVector>, vs: seq<VectorUpsert>, low: nat)
    requires forall i :: 0 <= i < |vs| ==> low <= vs[i].id
    ensures forall c :: c in index && c < low ==>
      c in UpsertVectors(index, vs) && UpsertVectors(index, vs)[c] == index[c]
  {
    if |vs| > 0 {
      var init := vs[..|vs| - 1];
      assert forall i :: 0 <= i < |init| ==> init[i] == vs[i];
      UpsertKeepsBelow(index, init, low);
    }
  }

  /** Marking sources with ids of at least `low` saved leaves every source
      below `low` as it was. */
  lemma {:induction false} SavedKeepsOlder(st: Store, ids: seq<SourceId>, low: nat)
    requires forall i :: 0 <= i < |ids| ==> low <= ids[i]
    requires MarkAllSaved(st, ids).Success?
    ensures forall s :: s in st.sources && s < low ==>
      s in MarkAllSaved(st, ids).value.sources && MarkAllSaved(st, ids).value.sources[s] == st.sources[s]
  {
  }

  /** After the batch's upsert, chunk `j` of source `idx` carries its
      vector. */
  lemma {:induction false} IndexedAfterUpsert(batch: seq<SourceInput>, e: Embedded, offsets: seq<nat>, ins: BatchInserted,
                                              idx: nat, j: nat)
    requires OffsetsFit(batch, offsets) && |e.embeddings| == ChunkCount(batch)
    requires |ins.sourceIds| == |batch| && VectorsLaid(ins.vectors, batch, e, offsets, ins.sourceIds, |batch|)
    requires IdsAscend(ins.vectors)
    requires idx < |batch| && j < |batch[idx].chunks|
    ensures Indexed(UpsertVectors(ins.store.index, ins.vectors), batch, e, offsets, idx, ins.sourceIds[idx], j)
  {
    VectorsLaidAt(ins.vectors, batch, e, offsets, ins.sourceIds, |batch|, idx, j);
    IndexedFromLaid(ins.store.index, ins.vectors, batch, e, offsets, ins.sourceIds, idx, j, ChunkCount(batch[..idx]) + j);
  }

  /** The upsert of a request with ascending ids leaves chunk `j` of source
      `idx` indexed when the request carries the vector built for it. */
  lemma {:induction false} IndexedFromLaid(index: map<ChunkId, IndexedVector>, vs: seq<VectorUpsert>, batch: seq<SourceInput>,
                                           e: Embedded, offsets: seq<nat>, ids: seq<SourceId>, idx: nat, j: nat, p: nat)
    requires OffsetsFit(batch, offsets) && |e.embeddings| == ChunkCount(batch)
    requires idx < |batch| && idx < |ids| && j < |batch[idx].chunks|
    requires IdsAscend(vs) && p < |vs| && vs[p] == Laid(batch, e, offsets, ids, idx, j)
    ensures Indexed(UpsertVectors(index, vs), batch, e, offsets, idx, ids[idx], j)
  {
    UpsertVectorsAt(index, vs, p);
  }

  /** Marking sources saved changes no table `Valid` speaks of except the
      saved flags. */
  lemma {:induction false} SavedKeepsValid(before: Store, after: Store)
    requires Valid(before)
    requires after == before.(sources := after.sources)
    requires after.sources.Keys == before.sources.Keys
    requires forall s :: s in before.sources ==> after.sources[s].chunkIds == before.sources[s].chunkIds
    ensures Valid(after)
  {
  }

  /** No id is listed twice. */
  ghost predicate NoRepeats(ids: seq<ChunkId>)
  {
    forall i, m :: 0 <= i < m < |ids| ==> ids[i] != ids[m]
  }

  /** The deletes of the listed chunk ids, one after the other: deleting an id with no document (absent, or deleted earlier
      in the same call) fails the mutation, which then writes nothing. */
  function DeleteChunks(table: map<ChunkId, Chunk>, ids: seq<ChunkId>): (r: Result<map<ChunkId, Chunk>, Error>)
    ensures r.Success? <==> (forall i :: 0 <= i < |ids| ==> ids[i] in table) && NoRepeats(ids)
    ensures r.Failure? ==> r.error == DeleteOfMissingDocument
    ensures r.Success? ==> forall c :: (c in r.value <==> c in table && c !in ids)
    ensures r.Success? ==> forall c :: c in r.value ==> r.value[c] == table[c]
    decreases |ids|
  {
    if |ids| == 0 then Success(table)
    else if ids[0] !in table then Failure(DeleteOfMissingDocument)
    else
      var rest := DeleteChunks(table - {ids[0]}, ids[1..]);
      DeleteChunksStep(table, ids);
      rest
  }

  /** Success of the deletes, split into the first and the rest. */
  lemma {:induction false} DeleteChunksStep(table: map<ChunkId, Chunk>, ids: seq<ChunkId>)
    requires |ids| > 0 && ids[0] in table
    ensures ((forall i :: 0 <= i < |ids| ==> ids[i] in table) && NoRepeats(ids))
        <==> ((forall i :: 0 <= i < |ids| - 1 ==> ids[1..][i] in table - {ids[0]}) && NoRepeats(ids[1..]))
    ensures forall c :: c in ids <==> c == ids[0] || c in ids[1..]
  {
    var rest := ids[1..];
    assert forall i :: 0 <= i < |rest| ==> rest[i] == ids[i + 1];
    if (forall i :: 0 <= i < |rest| ==> rest[i] in table - {ids[0]}) && NoRepeats(rest) {
      forall i, m | 0 <= i < m < |ids|
        ensures ids[i] != ids[m]
      {
        if i > 0 {
          assert ids[i] == rest[i - 1] && ids[m] == rest[m - 1];
        } else {
          assert ids[m] == rest[m - 1];
        }
      }
    }
    if (forall i :: 0 <= i < |ids| ==> ids[i] in table) && NoRepeats(ids) {
      forall i | 0 <= i < |rest|
        ensures rest[i] in table - {ids[0]}
      {
        assert ids[0] != ids[i + 1];
      }
    }
  }

  /** `deleteSource(id)`: nothing happens when the source is gone; otherwise
      the source and every chunk it lists are deleted. The vectors table and
      the external index keep the chunks' vectors. */
  function DeleteSource(st: Store, id: SourceId): (r: Result<Store, Error>)
    ensures id !in st.sources ==> r == Success(st)
    ensures id in st.sources ==>
      (r.Success? <==> (forall i :: 0 <= i < |st.sources[id].chunkIds| ==> st.sources[id].chunkIds[i] in st.chunks)
                       && NoRepeats(st.sources[id].chunkIds))
    ensures r.Failure? ==> r.error == DeleteOfMissingDocument
    ensures r.Success? && id in st.sources ==>
      && r.value.sources == st.sources - {id}
      && (forall c :: c in r.value.chunks <==> c in st.chunks && c !in st.sources[id].chunkIds)
      && (forall c :: c in r.value.chunks ==> r.value.chunks[c] == st.chunks[c])
      && r.value == st.(sources := r.value.sources, chunks := r.value.chunks)
  {
    if id !in st.sources then Success(st)
    else
      var chunks :- DeleteChunks(st.chunks, st.sources[id].chunkIds);
      Success(st.(sources := st.sources - {id}, chunks := chunks))
  }

  /** In a valid store `deleteSource` succeeds, keeps the store valid, and
      leaves no chunk pointing at the deleted source. */
  lemma {:induction false} DeleteSourceValid(st: Store, id: SourceId)
    requires Valid(st)
    ensures DeleteSource(st, id).Success?
    ensures Valid(DeleteSource(st, id).value)
    ensures forall c :: c in DeleteSource(st, id).value.chunks ==> DeleteSource(st, id).value.chunks[c].sourceId != id
  {
    if id in st.sources {
      var ids := st.sources[id].chunkIds;
      forall i, m | 0 <= i < m < |ids|
        ensures ids[i] != ids[m]
      {
        assert st.chunks[ids[i]].chunkIndex == i && st.chunks[ids[m]].chunkIndex == m;
      }
      var after := DeleteSource(st, id).value;
      forall c | c in after.chunks
        ensures after.chunks[c].sourceId in after.sources
        ensures c in after.sources[after.chunks[c].sourceId].chunkIds
      {
        var s := st.chunks[c].sourceId;
        if s == id {
          assert false;
        }
      }
      forall s, i | s in after.sources && 0 <= i < |after.sources[s].chunkIds|
        ensures after.sources[s].chunkIds[i] in after.chunks
      {
        var c := st.sources[s].chunkIds[i];
        if c in ids {
          assert false;
        }
      }
    }
  }
  /** Reading back after `insert`: every new chunk id reads its new chunk,
      and every chunk stored before the insert reads as it did. */
  lemma {:induction false} InsertThenGetChunk(st: Store, name: string, chunks: seq<ChunkInput>, totalTokens: Estimate,
                                              embeddingMs: Estimate)
    ensures var ins := Insert(st, name, chunks, totalTokens, embeddingMs);
      forall i :: 0 <= i < |chunks| ==>
        GetChunk(ins.store, ins.chunkIds[i]) == Success(NewChunk(ins.sourceId, chunks, i, totalTokens))
    ensures var ins := Insert(st, name, chunks, totalTokens, embeddingMs);
      forall c: ChunkId :: c < st.nextId ==> GetChunk(ins.store, c) == GetChunk(st, c)
  {
    var ins := Insert(st, name, chunks, totalTokens, embeddingMs);
    forall c: ChunkId | c < st.nextId
      ensures GetChunk(ins.store, c) == GetChunk(st, c)
    {
      assert c in ins.store.chunks <==> c in st.chunks;
    }
  }

  /** Reading back after `deleteSource`: every chunk the deleted source listed
      is gone, and every other chunk reads as it did. */
  lemma {:induction false} DeleteSourceThenGetChunk(st: Store, id: SourceId)
    requires id in st.sources && DeleteSource(st, id).Success?
    ensures forall i :: 0 <= i < |st.sources[id].chunkIds| ==>
      GetChunk(DeleteSource(st, id).value, st.sources[id].chunkIds[i]) == Failure(DocumentNotFound(st.sources[id].chunkIds[i]))
    ensures forall c :: c !in st.sources[id].chunkIds ==> GetChunk(DeleteSource(st, id).value, c) == GetChunk(st, c)
  {
    var after := DeleteSource(st, id).value;
    forall i | 0 <= i < |st.sources[id].chunkIds|
      ensures GetChunk(after, st.sources[id].chunkIds[i]) == Failure(DocumentNotFound(st.sources[id].chunkIds[i]))
    {
      assert st.sources[id].chunkIds[i] !in after.chunks;
    }
    forall c | c !in st.sources[id].chunkIds
      ensures GetChunk(after, c) == GetChunk(st, c)
    {
      assert c in after.chunks <==> c in st.chunks;
    }
  }


  /** Deleting a source twice is deleting it once. */
  lemma {:induction false} DeleteSourceIdempotent(st: Store, id: SourceId)
    requires DeleteSource(st, id).Success?
    ensures DeleteSource(DeleteSource(st, id).value, id) == DeleteSource(st, id)
  {
  }
}
