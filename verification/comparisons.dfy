/** The chunk-comparison cache of convex/comparisons.ts: `upsert` reuses a
    cached comparison with enough results or inserts a pending one and
    schedules the `compare` action; the action asks the vector index for the
    nearest neighbours of the target chunk and patches them in; `get` reads
    the comparison back, the target itself left out and deleted chunks
    pruned. The vector index's answer is an input to the action. */
module Comparisons {
  import opened Wrappers
  import opened Ids
  import opened Errors
  import opened Vectors
  import opened Store

  /** The comparisons the lookup of `upsert` selects: the same target and at
      least `topK` results asked for. */
  function Reusable(st: Store, target: ChunkId, topK: int): set<ComparisonId>
  {
    set id | id in st.comparisons && st.comparisons[id].target == target && st.comparisons[id].count >= topK
  }

  /** A comparison inserted by `upsert`: `{ target, count: topK }`. */
  function Pending(target: ChunkId, topK: int): Comparison
  {
    Comparison(target, topK, None, None)
  }

  /** The store after `upsert` and the id it returns. */
  datatype Upserted = Upserted(store: Store, id: ComparisonId)

  /** Insert a pending comparison of `target` for `topK` results under a
      fresh id, and schedule one `compare` job for it with the same target
      and `topK`. */
  function Insert(st: Store, target: ChunkId, topK: int): Upserted
  {
    var id := st.nextId;
    Upserted(st.(comparisons := st.comparisons[id := Pending(target, topK)],
                 jobs := st.jobs + [CompareJob(target, id, topK)],
                 nextId := id + 1),
             id)
  }

  /** `upsert({ target, count })`: `topK` is `count || 10`; two reusable
      comparisons make `.unique()` throw, one is returned as it is, and with
      none a pending comparison is inserted and one `compare` job scheduled. */
  function Upsert(st: Store, target: ChunkId, countOpt: Option<int>): (r: Result<Upserted, Error>)
    ensures r.Failure? <==> |Reusable(st, target, RequestedCount(countOpt))| >= 2
    ensures r.Failure? ==> r.error == NotUnique
    ensures r.Success? && Reusable(st, target, RequestedCount(countOpt)) != {} ==>
      && r.value.store == st
      && Reusable(st, target, RequestedCount(countOpt)) == {r.value.id}
    ensures r.Success? && Reusable(st, target, RequestedCount(countOpt)) == {} ==>
      && r.value.id == st.nextId
      && r.value.store.comparisons == st.comparisons[r.value.id := Pending(target, RequestedCount(countOpt))]
      && r.value.store.jobs == st.jobs + [CompareJob(target, r.value.id, RequestedCount(countOpt))]
      && r.value.store == st.(comparisons := r.value.store.comparisons, jobs := r.value.store.jobs, nextId := st.nextId + 1)
  {
    var topK := RequestedCount(countOpt);
    var existing :- Unique(Reusable(st, target, topK));
    if existing.Some? then Success(Upserted(st, existing.value))
    else Success(Insert(st, target, topK))
  }

  /** The inserted comparison is reusable for its own target and count, and
      no other comparison becomes reusable. */
  lemma {:induction false} InsertReusable(st: Store, target: ChunkId, topK: int)
    ensures Reusable(Insert(st, target, topK).store, target, topK) == Reusable(st, target, topK) + {st.nextId}
  {
  }

  /** In a valid store `upsert` keeps the store valid, returns the id of a
      stored comparison of the target that asks for at least `topK` results,
      and schedules a job exactly when it inserts. */
  lemma {:induction false} UpsertValid(st: Store, target: ChunkId, countOpt: Option<int>)
    requires Valid(st)
    requires Upsert(st, target, countOpt).Success?
    ensures var r := Upsert(st, target, countOpt).value;
      && Valid(r.store)
      && r.id in r.store.comparisons
      && r.store.comparisons[r.id].target == target
      && r.store.comparisons[r.id].count >= RequestedCount(countOpt)
      && (r.id in st.comparisons <==> r.store.jobs == st.jobs)
      && (r.id !in st.comparisons <==> r.store.jobs == st.jobs + [CompareJob(target, r.id, RequestedCount(countOpt))])
  {
    var r := Upsert(st, target, countOpt).value;
    if Reusable(st, target, RequestedCount(countOpt)) != {} {
      assert r.id in Reusable(st, target, RequestedCount(countOpt));
    } else {
      assert st.nextId !in st.comparisons;
      assert |r.store.jobs| == |st.jobs| + 1;
    }
  }

  /** Asking again for what `upsert` just answered returns the same id and
      changes nothing. */
  lemma {:induction false} UpsertIdempotent(st: Store, target: ChunkId, countOpt: Option<int>)
    requires Valid(st)
    requires Upsert(st, target, countOpt).Success?
    ensures var r := Upsert(st, target, countOpt).value;
      Upsert(r.store, target, countOpt) == Success(r)
  {
    if Reusable(st, target, RequestedCount(countOpt)) == {} {
      InsertReusable(st, target, RequestedCount(countOpt));
    }
  }

  /** The lookup can fail: with cached comparisons of chunk 7 for 5 and 20
      results, asking with the default of 10 finds one; asking for 3 finds
      two and the mutation throws. */
  lemma {:induction false} UpsertNotUniqueExample()
    ensures var st := Empty().(comparisons := map[0 := Pending(7, 5), 1 := Pending(7, 20)], nextId := 2);
      && Valid(st)
      && Upsert(st, 7, None) == Success(Upserted(st, 1))
      && Upsert(st, 7, Some(3)) == Failure(NotUnique)
  {
    var st := Empty().(comparisons := map[0 := Pending(7, 5), 1 := Pending(7, 20)], nextId := 2);
    assert Reusable(st, 7, 10) == {1};
    assert {0, 1} <= Reusable(st, 7, 3);
    SubsetCard({0, 1}, Reusable(st, 7, 3));
  }

  /** `upsert` with the oldest reusable comparison taken instead of
      requiring there to be only one. */
  function UpsertFirst(st: Store, target: ChunkId, countOpt: Option<int>): (r: Upserted)
    ensures Reusable(st, target, RequestedCount(countOpt)) != {} ==>
      && r.store == st
      && r.id in Reusable(st, target, RequestedCount(countOpt))
      && forall id :: id in Reusable(st, target, RequestedCount(countOpt)) ==> r.id <= id
    ensures Reusable(st, target, RequestedCount(countOpt)) == {} ==>
      r == Insert(st, target, RequestedCount(countOpt))
  {
    var topK := RequestedCount(countOpt);
    var reusable := Reusable(st, target, topK);
    if reusable != {} then Upserted(st, Least(reusable))
    else Insert(st, target, topK)
  }

  /** The corrected `upsert` never fails, agrees with the original wherever
      the original does not fail, and is idempotent in a valid store. */
  lemma {:induction false} UpsertFirstCorrect(st: Store, target: ChunkId, countOpt: Option<int>)
    requires Valid(st)
    ensures Upsert(st, target, countOpt).Success? ==> Upsert(st, target, countOpt) == Success(UpsertFirst(st, target, countOpt))
    ensures var r := UpsertFirst(st, target, countOpt);
      && Valid(r.store)
      && UpsertFirst(r.store, target, countOpt) == r
  {
    var topK := RequestedCount(countOpt);
    if Reusable(st, target, topK) == {} {
      assert st.nextId !in st.comparisons;
      InsertReusable(st, target, topK);
    }
  }

  /** One match of the vector index's answer, `{ id, score }`. */
  datatype Match = Match(id: ChunkId, score: real)

  /** What the `compare` action writes and returns. */
  datatype Compared = Compared(store: Store, relatedChunks: seq<Scored>)

  /** The part of the `compare` action after the index query, given its
      `matches` (absent when the index sent none) and the elapsed time: map
      each match to `{ id, score }`, patch the comparison when an id is
      given, and return the mapped matches either way. */
  function RunCompare(st: Store, comparisonId: Option<ComparisonId>, matches: Option<seq<Match>>, pineconeMs: int)
    : (r: Result<Compared, Error>)
    ensures matches.None? ==> r == Failure(MatchesEmpty)
    ensures matches.Some? && comparisonId.Some? && comparisonId.value !in st.comparisons ==>
      r == Failure(PatchOfMissingDocument)
    ensures r.Success? ==>
      && matches.Some?
      && |r.value.relatedChunks| == |matches.value|
      && (forall i :: 0 <= i < |matches.value| ==>
            r.value.relatedChunks[i] == Scored(matches.value[i].score, matches.value[i].id))
    ensures r.Success? && comparisonId.None? ==> r.value.store == st
    ensures r.Success? && comparisonId.Some? ==>
      && var id := comparisonId.value;
         && id in st.comparisons
         && r.value.store == st.(comparisons := st.comparisons[id := st.comparisons[id].(
              relatedChunks := Some(r.value.relatedChunks), pineconeMs := Some(pineconeMs))])
  {
    if matches.None? then Failure(MatchesEmpty)
    else
      var related := seq(|matches.value|, i requires 0 <= i < |matches.value| =>
                           Scored(matches.value[i].score, matches.value[i].id));
      if comparisonId.None? then Success(Compared(st, related))
      else
        var id := comparisonId.value;
        if id !in st.comparisons then Failure(PatchOfMissingDocument)
        else
          var c := st.comparisons[id];
          Success(Compared(st.(comparisons := st.comparisons[id := c.(relatedChunks := Some(related),
                                                                         pineconeMs := Some(pineconeMs))]),
                           related))
  }

  /** The stored results without the entries whose id is the target. */
  function Others(refs: seq<Scored>, target: ChunkId): (r: seq<Scored>)
    ensures |r| <= |refs|
    ensures forall i :: 0 <= i < |r| ==> r[i].id != target && r[i] in refs
    ensures forall i :: 0 <= i < |refs| && refs[i].id != target ==> refs[i] in r
  {
    if |refs| == 0 then []
    else (if refs[0].id != target then [refs[0]] else []) + Others(refs[1..], target)
  }

  /** The filter keeps stored order: filtering a concatenation filters each
      part and concatenates the results. */
  lemma {:induction false} OthersConcat(a: seq<Scored>, b: seq<Scored>, target: ChunkId)
    ensures Others(a + b, target) == Others(a, target) + Others(b, target)
    decreases |a|
  {
    if |a| > 0 {
      assert (a + b)[0] == a[0];
      assert (a + b)[1..] == a[1..] + b;
      OthersConcat(a[1..], b, target);
    } else {
      assert a + b == b;
    }
  }

  /** A ranking without the target passes the filter unchanged, so filtering
      is idempotent. */
  lemma {:induction false} OthersWithoutTarget(refs: seq<Scored>, target: ChunkId)
    requires forall i :: 0 <= i < |refs| ==> refs[i].id != target
    ensures Others(refs, target) == refs
    decreases |refs|
  {
    if |refs| > 0 {
      OthersWithoutTarget(refs[1..], target);
    }
  }

  /** The target chunk with its source's name next to its fields. */
  datatype TargetChunk = TargetChunk(id: ChunkId, chunk: Chunk, sourceName: string)

  /** What `get` returns for a completed comparison: the comparison's own
      fields with `relatedChunks` and `target` replaced by their joins. */
  datatype ComparisonView = ComparisonView(
    id: ComparisonId,
    count: int,
    pineconeMs: Option<int>,
    target: TargetChunk,
    relatedChunks: seq<Hit>)

  /** `get(comparisonId)`: an unknown comparison throws; a pending one, or one
      whose target chunk is gone, reads as `null`; otherwise the related
      chunks other than the target are joined with their chunks and sources,
      deleted chunks pruned, and the target with its source's name. */
  function Get(st: Store, comparisonId: ComparisonId): (r: Result<Option<ComparisonView>, Error>)
    ensures r.Failure? && r.error == UnknownComparison <==> comparisonId !in st.comparisons
    ensures (&& comparisonId in st.comparisons
             && (st.comparisons[comparisonId].relatedChunks.None? || st.comparisons[comparisonId].target !in st.chunks))
            ==> r == Success(None)
    ensures r.Success? && r.value.Some? ==>
      && comparisonId in st.comparisons
      && var c := st.comparisons[comparisonId];
         && c.relatedChunks.Some?
         && c.target in st.chunks
         && st.chunks[c.target].sourceId in st.sources
         && r.value.value.id == comparisonId
         && r.value.value.count == c.count
         && r.value.value.pineconeMs == c.pineconeMs
         && r.value.value.target == TargetChunk(c.target, st.chunks[c.target], st.sources[st.chunks[c.target].sourceId].name)
         && JoinPresent(st, Others(c.relatedChunks.value, c.target)).Success?
         && r.value.value.relatedChunks == JoinPresent(st, Others(c.relatedChunks.value, c.target)).value
  {
    if comparisonId !in st.comparisons then Failure(UnknownComparison)
    else
      var c := st.comparisons[comparisonId];
      if c.relatedChunks.None? || c.target !in st.chunks then Success(None)
      else
        var hits :- JoinPresent(st, Others(c.relatedChunks.value, c.target));
        var chunk := st.chunks[c.target];
        if chunk.sourceId !in st.sources then Failure(MissingSource)
        else
          var target := TargetChunk(c.target, chunk, st.sources[chunk.sourceId].name);
          Success(Some(ComparisonView(comparisonId, c.count, c.pineconeMs, target, hits)))
  }

  /** In a valid store a completed comparison whose target exists reads back
      as the stored ranking with the target left out and deleted chunks
      pruned, in stored order with stored scores: no hit is the target. */
  lemma {:induction false} GetHits(st: Store, comparisonId: ComparisonId)
    requires Valid(st)
    requires comparisonId in st.comparisons
    requires st.comparisons[comparisonId].relatedChunks.Some?
    requires st.comparisons[comparisonId].target in st.chunks
    ensures Get(st, comparisonId).Success? && Get(st, comparisonId).value.Some?
    ensures var c := st.comparisons[comparisonId];
      var hits := Get(st, comparisonId).value.value.relatedChunks;
      var kept := Present(st, Others(c.relatedChunks.value, c.target));
      && |hits| == |kept|
      && forall i :: 0 <= i < |hits| ==>
           && RefOf(hits[i]) == kept[i]
           && hits[i].id != c.target
           && hits[i].id in st.chunks
           && hits[i].chunk == st.chunks[hits[i].id]
  {
    var c := st.comparisons[comparisonId];
    var others := Others(c.relatedChunks.value, c.target);
    JoinPresentTotal(st, others);
    JoinPresentIsPresent(st, others);
    var hits := Get(st, comparisonId).value.value.relatedChunks;
    forall i | 0 <= i < |hits|
      ensures hits[i].id != c.target
    {
      PresentFrom(st, others, i);
    }
  }

  /** The cache's round trip: after an `upsert` that inserts, running the job
      it scheduled with the index's matches completes the comparison, and
      while the target exists it reads back as those matches, minus the
      target and deleted chunks. */
  lemma {:induction false} ScheduledCompareCompletes(st: Store, target: ChunkId, countOpt: Option<int>,
                                                     matches: seq<Match>, pineconeMs: int)
    requires Valid(st)
    requires Reusable(st, target, RequestedCount(countOpt)) == {}
    requires target in st.chunks
    ensures Upsert(st, target, countOpt).Success?
    ensures var u := Upsert(st, target, countOpt).value;
      && u.store.jobs[|u.store.jobs| - 1] == CompareJob(target, u.id, RequestedCount(countOpt))
      && RunCompare(u.store, Some(u.id), Some(matches), pineconeMs).Success?
      && var done := RunCompare(u.store, Some(u.id), Some(matches), pineconeMs).value;
         && Get(done.store, u.id).Success?
         && Get(done.store, u.id).value.Some?
         && |Get(done.store, u.id).value.value.relatedChunks|
            == |Present(done.store, Others(done.relatedChunks, target))|
  {
    var u := Upsert(st, target, countOpt).value;
    UpsertValid(st, target, countOpt);
    var done := RunCompare(u.store, Some(u.id), Some(matches), pineconeMs).value;
    assert Valid(done.store);
    GetHits(done.store, u.id);
  }
}
