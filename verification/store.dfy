/** The database the modelled functions read and write, as immutable maps from
    ids to documents, plus the two things outside the database they touch: the
    external vector index (Pinecone, keyed by chunk id) and the scheduler's
    queue of jobs. Also the read-time join of ranked chunk references with
    their chunk and source, shared by `semanticSearch` and `comparisons.get`. */
module Store {
  import opened Wrappers
  import opened Ids
  import opened Errors
  import opened Vectors
  import opened Utils

  /** `{ from, to }` line range of a chunk in its document. */
  datatype Lines = Lines(from: int, to: int)

  /** A number produced by `Math.ceil` of a pro-rated share: an integer, or
      `NaN` when the share divides by a total length of 0. */
  datatype Estimate = Known(n: nat) | NaN

  datatype Chunk = Chunk(text: string, sourceId: SourceId, chunkIndex: nat, lines: Lines, tokens: Estimate)

  datatype Source = Source(
    name: string,
    chunkIds: seq<ChunkId>,
    saved: bool,
    totalTokens: Estimate,
    embeddingMs: Estimate)

  /** A cached semantic search. `relatedChunks` is absent while the search is
      pending; the other optional fields are filled in with it. */
  datatype Search = Search(
    input: string,
    count: int,
    relatedChunks: Option<seq<Scored>>,
    float32Buffer: Option<Buffer>,
    inputTokens: Option<int>,
    embeddingMs: Option<int>)

  /** A cached comparison of one chunk against the corpus. */
  datatype Comparison = Comparison(
    target: ChunkId,
    count: int,
    relatedChunks: Option<seq<Scored>>,
    pineconeMs: Option<int>)

  /** Metadata stored with a vector in the external index. */
  datatype Metadata = Metadata(name: string, sourceId: SourceId, chunkIndex: nat)

  datatype IndexedVector = IndexedVector(values: Vector, metadata: Metadata)

  /** A unit of work handed to `scheduler.runAfter(0, ...)`. */
  datatype Job =
    | SearchJob(input: string, searchId: SearchId)
    | CompareJob(target: ChunkId, comparisonId: ComparisonId, topK: int)

  datatype Store = Store(
    sources: map<SourceId, Source>,
    chunks: map<ChunkId, Chunk>,
    searches: map<SearchId, Search>,
    comparisons: map<ComparisonId, Comparison>,
    vectors: seq<VectorRow>,
    index: map<ChunkId, IndexedVector>,
    jobs: seq<Job>,
    nextId: nat)

  /** The guarantees the database gives every state: ids are fresh (below the
      counter), and, because a source and its chunks are written and deleted in
      one transaction, every chunk's source exists and lists it, and every
      listed chunk exists, points back and carries its position. */
  ghost predicate Valid(st: Store)
  {
    && (forall id :: id in st.sources ==> id < st.nextId)
    && (forall id :: id in st.chunks ==> id < st.nextId)
    && (forall id :: id in st.searches ==> id < st.nextId)
    && (forall id :: id in st.comparisons ==> id < st.nextId)
    && (forall c :: c in st.chunks ==>
          st.chunks[c].sourceId in st.sources && c in st.sources[st.chunks[c].sourceId].chunkIds)
    && (forall s, i :: s in st.sources && 0 <= i < |st.sources[s].chunkIds| ==>
          && st.sources[s].chunkIds[i] in st.chunks
          && st.chunks[st.sources[s].chunkIds[i]].sourceId == s
          && st.chunks[st.sources[s].chunkIds[i]].chunkIndex == i)
  }

  /** The store with nothing in it. */
  function Empty(): (st: Store)
    ensures Valid(st)
    ensures st.sources == map[] && st.chunks == map[] && st.jobs == []
  {
    Store(map[], map[], map[], map[], [], map[], [], 0)
  }

  /** `db.get(id)` on the chunks table, as `getChunk` in convex/sources.ts. */
  function GetChunk(st: Store, id: ChunkId): (r: Result<Chunk, Error>)
    ensures r.Failure? <==> id !in st.chunks
    ensures r.Failure? ==> r.error == DocumentNotFound(id)
    ensures r.Success? ==> r.value == st.chunks[id]
  {
    if id in st.chunks then Success(st.chunks[id]) else Failure(DocumentNotFound(id))
  }

  /** The number of results asked for when no count is given. */
  const DefaultCount: int := 10

  /** `countOpt || 10` in both caches: an absent count and a count of 0 both ask for the
      default; any other count is kept. */
  function RequestedCount(countOpt: Option<int>): (r: int)
    ensures r != 0
    ensures countOpt.None? ==> r == DefaultCount
    ensures countOpt.Some? ==> r == if countOpt.value == 0 then DefaultCount else countOpt.value
  {
    if countOpt.Some? && countOpt.value != 0 then countOpt.value else DefaultCount
  }

  /** The least element of `ids`, found by counting up from `k`, below which
      `ids` has nothing, towards the element `w`. */
  function LeastFrom(ids: set<nat>, k: nat, w: nat): (m: nat)
    requires w in ids && k <= w
    requires forall y :: y in ids ==> k <= y
    ensures m in ids && forall y :: y in ids ==> m <= y
    decreases w - k
  {
    if k in ids then k else LeastFrom(ids, k + 1, w)
  }

  /** The least id of a non-empty set: the oldest document, since ids are
      handed out in creation order. */
  function Least(ids: set<nat>): (m: nat)
    requires ids != {}
    ensures m in ids
    ensures forall y :: y in ids ==> m <= y
  {
    var w :| w in ids;
    LeastFrom(ids, 0, w)
  }

  /** `.unique()` over the documents a query selects: `null` when there is
      none, the document when there is one, and an error when there are
      several. */
  function Unique(ids: set<nat>): (r: Result<Option<nat>, Error>)
    ensures r.Failure? <==> |ids| >= 2
    ensures r.Failure? ==> r.error == NotUnique
    ensures r == Success(None) <==> ids == {}
    ensures r.Success? && r.value.Some? ==> ids == {r.value.value}
  {
    if |ids| == 0 then Success(None)
    else if |ids| == 1 then
      var m := Least(ids);
      assert ids == {m} by {
        forall y | y in ids
          ensures y == m
        {
          if y != m {
            assert {y, m} <= ids;
            assert |{y, m}| == 2;
            SubsetCard({y, m}, ids);
          }
        }
      }
      Success(Some(m))
    else Failure(NotUnique)
  }

  lemma {:induction false} SubsetCard(a: set<nat>, b: set<nat>)
    requires a <= b
    ensures |a| <= |b|
  {
    if a != {} {
      var x :| x in a;
      SubsetCard(a - {x}, b - {x});
    }
  }

  /** A chunk as a read returns it: its id and fields, with the score and its
      source's name next to them. */
  datatype Hit = Hit(id: ChunkId, chunk: Chunk, score: real, sourceName: string)

  /** The reference of a hit, to compare it with the ranking it came from. */
  function RefOf(hit: Hit): Scored
  {
    Scored(hit.score, hit.id)
  }

  /** One element of the read-time join: read the chunk (`null` when it is
      gone), then its source, and copy the source's name next to the chunk
      and the score. The name is read without a null check, so a chunk whose
      source is gone throws. */
  function JoinOne(st: Store, ref: Scored): (r: Result<Option<Hit>, Error>)
    ensures r.Failure? <==> ref.id in st.chunks && st.chunks[ref.id].sourceId !in st.sources
    ensures r.Success? ==> (r.value.Some? <==> ref.id in st.chunks)
    ensures r.Success? && r.value.Some? ==>
      r.value.value == Hit(ref.id, st.chunks[ref.id], ref.score, st.sources[st.chunks[ref.id].sourceId].name)
  {
    if ref.id !in st.chunks then Success(None)
    else
      var chunk := st.chunks[ref.id];
      if chunk.sourceId !in st.sources then Failure(MissingSource)
      else Success(Some(Hit(ref.id, chunk, ref.score, st.sources[chunk.sourceId].name)))
  }

  /** The join of every ranked entry, in order, or the first failure. */
  function JoinAll(st: Store, refs: seq<Scored>): (r: Result<seq<Option<Hit>>, Error>)
    ensures r.Success? ==> |r.value| == |refs|
    ensures r.Success? ==> forall i :: 0 <= i < |refs| ==> JoinOne(st, refs[i]) == Success(r.value[i])
    ensures r.Failure? ==> exists i :: 0 <= i < |refs| && JoinOne(st, refs[i]).Failure?
    ensures r.Failure? ==> r.error == MissingSource
  {
    if |refs| == 0 then Success([])
    else
      var head :- JoinOne(st, refs[0]);
      var tail :- JoinAll(st, refs[1..]);
      assert forall i :: 1 <= i < |refs| ==> refs[i] == refs[1..][i - 1];
      Success([head] + tail)
  }

  /** The references whose chunk still exists, in order (reference definition
      for the pruned join). */
  function Present(st: Store, refs: seq<Scored>): seq<Scored>
  {
    if |refs| == 0 then []
    else (if refs[0].id in st.chunks then [refs[0]] else []) + Present(st, refs[1..])
  }

  /** Every kept reference comes from the ranking and names a chunk that
      exists. */
  lemma {:induction false} PresentFrom(st: Store, refs: seq<Scored>, i: nat)
    requires i < |Present(st, refs)|
    ensures Present(st, refs)[i] in refs
    ensures Present(st, refs)[i].id in st.chunks
    decreases |refs|
  {
    var head := if refs[0].id in st.chunks then [refs[0]] else [];
    if i >= |head| {
      PresentFrom(st, refs[1..], i - |head|);
    }
  }

  /** The join of a ranking with the current chunks and sources, deleted chunks
      pruned. */
  function JoinPresent(st: Store, refs: seq<Scored>): (r: Result<seq<Hit>, Error>)
    ensures r.Success? <==> forall i :: 0 <= i < |refs| ==> JoinOne(st, refs[i]).Success?
    ensures r.Failure? ==> r.error == MissingSource
  {
    var joined :- JoinAll(st, refs);
    Success(PruneNull(joined))
  }

  /** In a valid store the join never throws. */
  lemma {:induction false} JoinPresentTotal(st: Store, refs: seq<Scored>)
    requires Valid(st)
    ensures JoinPresent(st, refs).Success?
  {
  }

  /** `hit` is the join of `ref`: the same chunk id and score, the current
      chunk and the name of its source. */
  ghost predicate HitOf(st: Store, hit: Hit, ref: Scored)
  {
    && RefOf(hit) == ref
    && hit.id in st.chunks
    && hit.chunk == st.chunks[hit.id]
    && st.chunks[hit.id].sourceId in st.sources
    && hit.sourceName == st.sources[st.chunks[hit.id].sourceId].name
  }

  /** `hits` is the join of `refs`, element by element. */
  ghost predicate HitsOf(st: Store, hits: seq<Hit>, refs: seq<Scored>)
  {
    |hits| == |refs| && forall i :: 0 <= i < |hits| ==> HitOf(st, hits[i], refs[i])
  }

  /** The join keeps exactly the references whose chunk exists, in their order
      and with their scores, and attaches the current chunk and its source's
      name. */
  lemma {:induction false} JoinPresentIsPresent(st: Store, refs: seq<Scored>)
    requires JoinPresent(st, refs).Success?
    ensures HitsOf(st, JoinPresent(st, refs).value, Present(st, refs))
  {
    if |refs| > 0 {
      JoinAllUnfold(st, refs);
      JoinPresentIsPresent(st, refs[1..]);
      var head := JoinOne(st, refs[0]).value;
      var tail := JoinPresent(st, refs[1..]).value;
      PruneNullConcat([head], JoinAll(st, refs[1..]).value);
      assert JoinPresent(st, refs).value == PruneNull([head]) + tail;
      if refs[0].id in st.chunks {
        assert Present(st, refs) == [refs[0]] + Present(st, refs[1..]);
        ConsHitOf(st, head.value, refs[0], tail, Present(st, refs[1..]));
      } else {
        assert Present(st, refs) == Present(st, refs[1..]);
      }
    }
  }

  /** A successful join of a non-empty ranking is the join of its head
      followed by the join of its tail. */
  lemma {:induction false} JoinAllUnfold(st: Store, refs: seq<Scored>)
    requires |refs| > 0
    requires JoinPresent(st, refs).Success?
    ensures JoinOne(st, refs[0]).Success?
    ensures JoinPresent(st, refs[1..]).Success?
    ensures JoinAll(st, refs).value == [JoinOne(st, refs[0]).value] + JoinAll(st, refs[1..]).value
  {
    assert JoinOne(st, refs[0]).Success?;
    forall i | 0 <= i < |refs[1..]|
      ensures JoinOne(st, refs[1..][i]).Success?
    {
      assert refs[1..][i] == refs[i + 1];
    }
  }

  lemma {:induction false} ConsHitOf(st: Store, h: Hit, r: Scored, hits: seq<Hit>, refs: seq<Scored>)
    requires HitsOf(st, hits, refs)
    requires HitOf(st, h, r)
    ensures HitsOf(st, [h] + hits, [r] + refs)
  {
    forall i | 0 <= i < |[h] + hits|
      ensures HitOf(st, ([h] + hits)[i], ([r] + refs)[i])
    {
      if i > 0 {
        assert ([h] + hits)[i] == hits[i - 1];
        assert ([r] + refs)[i] == refs[i - 1];
      }
    }
  }
}
