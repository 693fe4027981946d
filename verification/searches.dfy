/** The semantic-search cache of convex/searches.ts: `upsert` reuses a cached
    search with enough results or inserts a pending one and schedules the
    `search` action; the action embeds the input and `addResults` patches in
    the ranking; `semanticSearch` reads it back joined with the current
    chunks. The embedding call is an input to the action. */
module Searches {
  import opened Wrappers
  import opened Ids
  import opened Errors
  import opened Sorting
  import opened Vectors
  import opened Store

  /** The searches the lookup of `upsert` selects: the same input and at
      least `count` results asked for. */
  function Reusable(st: Store, input: string, count: int): set<SearchId>
  {
    set id | id in st.searches && st.searches[id].input == input && st.searches[id].count >= count
  }

  /** A search inserted by `upsert`: `{ input, count }`, nothing else yet. */
  function Pending(input: string, count: int): Search
  {
    Search(input, count, None, None, None, None)
  }

  /** The store after `upsert` and the id it returns. */
  datatype Upserted = Upserted(store: Store, id: SearchId)

  /** `upsert({ input, count })`. The lookup ends in `.unique()`, so two
      reusable searches make the mutation throw. One is returned as it is.
      With none, a pending search is inserted and one `search` job for it is
      scheduled. */
  function Upsert(st: Store, input: string, countOpt: Option<int>): (r: Result<Upserted, Error>)
    ensures r.Failure? <==> |Reusable(st, input, RequestedCount(countOpt))| >= 2
    ensures r.Failure? ==> r.error == NotUnique
    ensures r.Success? && Reusable(st, input, RequestedCount(countOpt)) != {} ==>
      && r.value.store == st
      && Reusable(st, input, RequestedCount(countOpt)) == {r.value.id}
    ensures r.Success? && Reusable(st, input, RequestedCount(countOpt)) == {} ==>
      && r.value.id == st.nextId
      && r.value.store.searches == st.searches[r.value.id := Pending(input, RequestedCount(countOpt))]
      && r.value.store.jobs == st.jobs + [SearchJob(input, r.value.id)]
      && r.value.store == st.(searches := r.value.store.searches, jobs := r.value.store.jobs, nextId := st.nextId + 1)
  {
    var count := RequestedCount(countOpt);
    var existing :- Unique(Reusable(st, input, count));
    if existing.Some? then Success(Upserted(st, existing.value))
    else Success(Insert(st, input, count))
  }

  /** Insert a pending search of `input` for `count` results under a fresh
      id, and schedule one `search` job for it. */
  function Insert(st: Store, input: string, count: int): Upserted
  {
    var id := st.nextId;
    Upserted(st.(searches := st.searches[id := Pending(input, count)],
                 jobs := st.jobs + [SearchJob(input, id)],
                 nextId := id + 1),
             id)
  }

  /** The inserted search is reusable for its own input and count, and no
      other search becomes reusable. */
  lemma {:induction false} InsertReusable(st: Store, input: string, count: int)
    ensures Reusable(Insert(st, input, count).store, input, count) == Reusable(st, input, count) + {st.nextId}
  {
  }

  /** In a valid store `upsert` keeps the store valid, returns the id of a
      stored search for the input that asks for at least the requested
      count, and schedules at most one job: one exactly when it inserts. */
  lemma {:induction false} UpsertValid(st: Store, input: string, countOpt: Option<int>)
    requires Valid(st)
    requires Upsert(st, input, countOpt).Success?
    ensures var r := Upsert(st, input, countOpt).value;
      && Valid(r.store)
      && r.id in r.store.searches
      && r.store.searches[r.id].input == input
      && r.store.searches[r.id].count >= RequestedCount(countOpt)
      && (r.id in st.searches <==> r.store.jobs == st.jobs)
      && (r.id !in st.searches <==> r.store.jobs == st.jobs + [SearchJob(input, r.id)])
  {
    var r := Upsert(st, input, countOpt).value;
    if Reusable(st, input, RequestedCount(countOpt)) != {} {
      assert r.id in Reusable(st, input, RequestedCount(countOpt));
    } else {
      assert st.nextId !in st.searches;
      assert |r.store.jobs| == |st.jobs| + 1;
    }
  }

  /** Asking again for what `upsert` just answered returns the same id and
      changes nothing: no second record, no second job. */
  lemma {:induction false} UpsertIdempotent(st: Store, input: string, countOpt: Option<int>)
    requires Valid(st)
    requires Upsert(st, input, countOpt).Success?
    ensures var r := Upsert(st, input, countOpt).value;
      Upsert(r.store, input, countOpt) == Success(r)
  {
    var count := RequestedCount(countOpt);
    var r := Upsert(st, input, countOpt).value;
    if Reusable(st, input, count) == {} {
      InsertReusable(st, input, count);
    }
  }

  /** The lookup can fail: with cached searches for "q" of 5 and 10 results,
      asking for 3 finds two reusable searches and the mutation throws,
      although either would do. */
  lemma {:induction false} UpsertNotUniqueExample()
    ensures var st := Empty().(searches := map[0 := Pending("q", 5), 1 := Pending("q", 10)], nextId := 2);
      && Valid(st)
      && Upsert(st, "q", Some(3)) == Failure(NotUnique)
  {
    var st := Empty().(searches := map[0 := Pending("q", 5), 1 := Pending("q", 10)], nextId := 2);
    assert {0, 1} <= Reusable(st, "q", 3);
    SubsetCard({0, 1}, Reusable(st, "q", 3));
  }

  /** `upsert` with the lookup evidently intended: reuse the oldest reusable
      search (`.first()` in index order, which is creation order) instead of
      requiring there to be only one. */
  function UpsertFirst(st: Store, input: string, countOpt: Option<int>): (r: Upserted)
    ensures Reusable(st, input, RequestedCount(countOpt)) != {} ==>
      && r.store == st
      && r.id in Reusable(st, input, RequestedCount(countOpt))
      && forall id :: id in Reusable(st, input, RequestedCount(countOpt)) ==> r.id <= id
    ensures Reusable(st, input, RequestedCount(countOpt)) == {} ==>
      r == Insert(st, input, RequestedCount(countOpt))
  {
    var count := RequestedCount(countOpt);
    var reusable := Reusable(st, input, count);
    if reusable != {} then Upserted(st, Least(reusable))
    else Insert(st, input, count)
  }

  /** The corrected `upsert` never fails, answers as the original wherever the
      original does not fail, and is idempotent in a valid store. */
  lemma {:induction false} UpsertFirstCorrect(st: Store, input: string, countOpt: Option<int>)
    requires Valid(st)
    ensures Upsert(st, input, countOpt).Success? ==> Upsert(st, input, countOpt) == Success(UpsertFirst(st, input, countOpt))
    ensures var r := UpsertFirst(st, input, countOpt);
      && Valid(r.store)
      && UpsertFirst(r.store, input, countOpt) == r
  {
    var count := RequestedCount(countOpt);
    var r := UpsertFirst(st, input, countOpt);
    if Reusable(st, input, count) == {} {
      InsertReusable(st, input, count);
    }
  }

  /** `results.slice(0, count)` keeps this many of `len` results: a negative
      count counts back from the end. */
  function SliceEnd(len: nat, count: int): (e: nat)
    ensures e <= len
    ensures count >= 0 ==> e == if count < len then count else len
    ensures count < 0 ==> e == if len + count > 0 then len + count else 0
  {
    if count >= 0 then (if count < len then count else len)
    else if len + count > 0 then len + count else 0
  }

  /** `addResults`: rank the stored vectors against the search's embedding,
      keep the first `search.count` entries, and patch them into the search
      with the embedding and the usage. */
  function AddResults(st: Store, searchId: SearchId, buffer: Buffer, inputTokens: int, embeddingMs: int)
    : (r: Result<Store, Error>)
    requires Comparable(View(buffer), Considered(st.vectors))
    ensures r.Failure? <==> searchId !in st.searches
    ensures r.Failure? ==> r.error == SearchNotFound
    ensures r.Success? ==>
      && r.value == st.(searches := r.value.searches)
      && r.value.searches.Keys == st.searches.Keys
      && (forall id :: id in st.searches && id != searchId ==> r.value.searches[id] == st.searches[id])
      && var search := r.value.searches[searchId];
         && search.input == st.searches[searchId].input
         && search.count == st.searches[searchId].count
         && search.relatedChunks.Some?
         && search.float32Buffer == Some(buffer)
         && search.inputTokens == Some(inputTokens)
         && search.embeddingMs == Some(embeddingMs)
  {
    if searchId !in st.searches then Failure(SearchNotFound)
    else
      var search := st.searches[searchId];
      var results := CompareTo(st.vectors, View(buffer));
      var related := results[..SliceEnd(|results|, search.count)];
      Success(st.(searches := st.searches[searchId := search.(relatedChunks := Some(related),
                                                                 float32Buffer := Some(buffer),
                                                                 inputTokens := Some(inputTokens),
                                                                 embeddingMs := Some(embeddingMs))]))
  }

  /** The stored results are the best of the ranking: a prefix of it, as
      long as the search's count allows, ordered by non-increasing score,
      and each entry carries the score of a considered row for its chunk. */
  lemma {:induction false} AddResultsRanked(st: Store, searchId: SearchId, buffer: Buffer, inputTokens: int, embeddingMs: int)
    requires Comparable(View(buffer), Considered(st.vectors))
    requires searchId in st.searches
    ensures var related := AddResults(st, searchId, buffer, inputTokens, embeddingMs).value.searches[searchId].relatedChunks.value;
      var ranking := CompareTo(st.vectors, View(buffer));
      var count := st.searches[searchId].count;
      && |related| == SliceEnd(|ranking|, count)
      && related == ranking[..|related|]
      && (count >= 0 ==> |related| <= count)
      && SortedDesc(related, ScoreOf)
      && forall i :: 0 <= i < |related| ==>
           exists j :: && 0 <= j < |Considered(st.vectors)|
                       && related[i].id == st.vectors[j].chunkId
                       && Compare(View(buffer), st.vectors[j].values) == Finite(related[i].score)
  {
    var related := AddResults(st, searchId, buffer, inputTokens, embeddingMs).value.searches[searchId].relatedChunks.value;
    var ranking := CompareTo(st.vectors, View(buffer));
    forall i | 0 <= i < |related|
      ensures exists j :: && 0 <= j < |Considered(st.vectors)|
                          && related[i].id == st.vectors[j].chunkId
                          && Compare(View(buffer), st.vectors[j].values) == Finite(related[i].score)
    {
      assert related[i] == ranking[i];
      CompareToScores(st.vectors, View(buffer), i);
    }
  }

  /** What the `search` action destructures from `fetchEmbedding(input)`. */
  datatype EmbeddedOne = EmbeddedOne(embedding: Vector, totalTokens: nat, embeddingMs: nat)

  /** The `search` action, given the answer of `fetchEmbedding(input)`: with a
      search id, `addResults` with the embedding as a Float32 buffer; without
      one, nothing is written. A failed embedding call writes nothing. */
  function RunSearch(st: Store, searchId: Option<SearchId>, fetched: Result<EmbeddedOne, Error>): (r: Result<Store, Error>)
    requires fetched.Success? && searchId.Some? ==> Comparable(fetched.value.embedding, Considered(st.vectors))
    ensures fetched.Failure? ==> r == Failure(fetched.error)
    ensures fetched.Success? && searchId.None? ==> r == Success(st)
    ensures fetched.Success? && searchId.Some? ==>
      r == AddResults(st, searchId.value, Buffer(fetched.value.embedding), fetched.value.totalTokens, fetched.value.embeddingMs)
  {
    var one :- fetched;
    if searchId.None? then Success(st)
    else AddResults(st, searchId.value, Buffer(one.embedding), one.totalTokens, one.embeddingMs)
  }

  /** `semanticSearch(searchId)`: an unknown search throws, a pending one
      reads as `null`, a completed one as its ranking joined with the
      current chunks and their sources, deleted chunks left out. */
  function SemanticSearch(st: Store, searchId: SearchId): (r: Result<Option<seq<Hit>>, Error>)
    ensures searchId !in st.searches ==> r == Failure(UnknownSearch(searchId))
    ensures searchId in st.searches && st.searches[searchId].relatedChunks.None? ==> r == Success(None)
    ensures searchId in st.searches && st.searches[searchId].relatedChunks.Some? ==>
      (r.Success? <==> JoinPresent(st, st.searches[searchId].relatedChunks.value).Success?)
    ensures r.Success? && r.value.Some? ==>
      && searchId in st.searches && st.searches[searchId].relatedChunks.Some?
      && r.value.value == JoinPresent(st, st.searches[searchId].relatedChunks.value).value
  {
    if searchId !in st.searches then Failure(UnknownSearch(searchId))
    else
      var search := st.searches[searchId];
      if search.relatedChunks.None? then Success(None)
      else
        var hits :- JoinPresent(st, search.relatedChunks.value);
        Success(Some(hits))
  }

  /** In a valid store a completed search reads back as the entries of its
      ranking whose chunk still exists, in ranking order, each with its score,
      its current chunk and its source's name. */
  lemma {:induction false} SemanticSearchHits(st: Store, searchId: SearchId)
    requires Valid(st)
    requires searchId in st.searches && st.searches[searchId].relatedChunks.Some?
    ensures SemanticSearch(st, searchId).Success? && SemanticSearch(st, searchId).value.Some?
    ensures var hits := SemanticSearch(st, searchId).value.value;
      var present := Present(st, st.searches[searchId].relatedChunks.value);
      && |hits| == |present|
      && forall i :: 0 <= i < |hits| ==>
           && RefOf(hits[i]) == present[i]
           && hits[i].id in st.chunks
           && hits[i].chunk == st.chunks[hits[i].id]
           && st.chunks[hits[i].id].sourceId in st.sources
           && hits[i].sourceName == st.sources[st.chunks[hits[i].id].sourceId].name
  {
    var related := st.searches[searchId].relatedChunks.value;
    JoinPresentTotal(st, related);
    JoinPresentIsPresent(st, related);
  }

  /** The cache's round trip: after an `upsert` that inserts, running the job
      it scheduled completes the search, which then reads back as results. */
  lemma {:induction false} ScheduledSearchCompletes(st: Store, input: string, countOpt: Option<int>, embedding: EmbeddedOne)
    requires Valid(st)
    requires Reusable(st, input, RequestedCount(countOpt)) == {}
    requires Comparable(embedding.embedding, Considered(st.vectors))
    ensures Upsert(st, input, countOpt).Success?
    ensures var u := Upsert(st, input, countOpt).value;
      && u.store.jobs[|u.store.jobs| - 1] == SearchJob(input, u.id)
      && RunSearch(u.store, Some(u.id), Success(embedding)).Success?
      && var done := RunSearch(u.store, Some(u.id), Success(embedding)).value;
         && done.searches[u.id].relatedChunks.Some?
         && SemanticSearch(done, u.id).Success?
         && SemanticSearch(done, u.id).value.Some?
  {
    var u := Upsert(st, input, countOpt).value;
    UpsertValid(st, input, countOpt);
    var done := RunSearch(u.store, Some(u.id), Success(embedding)).value;
    assert Valid(done);
    SemanticSearchHits(done, u.id);
  }
}
