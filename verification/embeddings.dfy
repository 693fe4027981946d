/** Post-processing of an embedding-service response: the part of
    `fetchEmbeddingBatch` / `fetchEmbedding` after the HTTP call, in both
    copies (convex/lib/embeddings.ts returns the vectors; convex/embeddings.ts
    returns them with stats), plus `getEmbedding`. The request itself is not
    modelled: the parsed response and the elapsed time are inputs. */
module Embeddings {
  import opened Wrappers
  import opened Ids
  import opened Errors
  import opened Sorting
  import opened Vectors

  /** One element of the response's `data`. */
  datatype EmbeddingItem = EmbeddingItem(embedding: Vector, index: int)

  /** The parsed response: `data` and `usage.total_tokens`. */
  datatype EmbeddingResponse = EmbeddingResponse(data: seq<EmbeddingItem>, totalTokens: int)

  function IndexKey(item: EmbeddingItem): real
  {
    item.index as real
  }

  /** The sum of the texts' lengths. A model string stands for the UTF-16
      code units of the JavaScript string, so its length is the JavaScript
      `length`. */
  function TotalLength(texts: seq<string>): nat
  {
    if |texts| == 0 then 0 else TotalLength(texts[..|texts| - 1]) + |texts[|texts| - 1]|
  }

  lemma {:induction false} TotalLengthConcat(a: seq<string>, b: seq<string>)
    ensures TotalLength(a + b) == TotalLength(a) + TotalLength(b)
  {
    if |b| > 0 {
      TotalLengthConcat(a, b[..|b| - 1]);
      assert (a + b)[..|a + b| - 1] == a + b[..|b| - 1];
    } else {
      assert a + b == a;
    }
  }

  /** The embeddings of `items`, in order. */
  function Project(items: seq<EmbeddingItem>): (r: seq<Vector>)
    ensures |r| == |items|
    ensures forall i :: 0 <= i < |items| ==> r[i] == items[i].embedding
  {
    seq(|items|, i requires 0 <= i < |items| => items[i].embedding)
  }

  /** The count check, then the items sorted by non-increasing `index`. */
  function SortResponse(texts: seq<string>, data: seq<EmbeddingItem>): (r: Result<seq<EmbeddingItem>, Error>)
    ensures r.Failure? <==> |data| != |texts|
    ensures r.Failure? ==> r.error == UnexpectedNumberOfEmbeddings
    ensures r.Success? ==> |r.value| == |texts|
    ensures r.Success? ==> multiset(r.value) == multiset(data)
    ensures r.Success? ==> SortedDesc(r.value, IndexKey)
  {
    if |data| != |texts| then Failure(UnexpectedNumberOfEmbeddings)
    else Success(SortDesc(data, IndexKey))
  }

  /** `fetchEmbeddingBatch(texts)` of convex/lib/embeddings.ts, after the fetch. */
  function FetchEmbeddingBatch(texts: seq<string>, response: EmbeddingResponse): (r: Result<seq<Vector>, Error>)
    ensures r.Failure? <==> |response.data| != |texts|
    ensures r.Failure? ==> r.error == UnexpectedNumberOfEmbeddings
    ensures r.Success? ==> |r.value| == |texts|
    ensures r.Success? ==> multiset(r.value) == multiset(Project(response.data))
    ensures r.Success? ==> exists items :: Arranged(items, response.data) && r.value == Project(items)
  {
    var sorted :- SortResponse(texts, response.data);
    ProjectPermutation(sorted, response.data);
    assert Arranged(sorted, response.data);
    Success(Project(sorted))
  }

  /** `items` is the response's items ordered by descending `index`. */
  ghost predicate Arranged(items: seq<EmbeddingItem>, data: seq<EmbeddingItem>)
  {
    multiset(items) == multiset(data) && SortedDesc(items, IndexKey)
  }

  /** `fetchEmbedding(text)` of convex/lib/embeddings.ts: element 0 of the batch
      for `[text]`, which is the one embedding of the response. */
  function FetchEmbedding(text: string, response: EmbeddingResponse): (r: Result<Vector, Error>)
    ensures r.Failure? <==> |response.data| != 1
    ensures r.Failure? ==> r.error == UnexpectedNumberOfEmbeddings
    ensures r.Success? ==> r.value == response.data[0].embedding
  {
    var embeddings :- FetchEmbeddingBatch([text], response);
    assert multiset(embeddings) == multiset([response.data[0].embedding]) by {
      assert Project(response.data) == [response.data[0].embedding];
    }
    assert embeddings[0] in multiset(embeddings);
    Success(embeddings[0])
  }

  /** `stats` of convex/embeddings.ts. */
  datatype Stats = Stats(numTexts: nat, totalTokens: int, totalLength: nat, elapsedMs: int)

  datatype BatchResult = BatchResult(embeddings: seq<Vector>, stats: Stats)

  datatype SingleResult = SingleResult(embedding: Vector, stats: Stats)

  /** `fetchEmbeddingBatch(texts)` of convex/embeddings.ts, after the fetch:
      the same embeddings, with the request's statistics. */
  function FetchEmbeddingBatchWithStats(texts: seq<string>, response: EmbeddingResponse, elapsedMs: int)
    : (r: Result<BatchResult, Error>)
    ensures r.Failure? <==> |response.data| != |texts|
    ensures r.Failure? ==> r.error == UnexpectedNumberOfEmbeddings
    ensures r.Success? ==> r.value.embeddings == FetchEmbeddingBatch(texts, response).value
    ensures r.Success? ==> r.value.stats.numTexts == |texts|
    ensures r.Success? ==> r.value.stats.totalTokens == response.totalTokens
    ensures r.Success? ==> r.value.stats.totalLength == TotalLength(texts)
    ensures r.Success? ==> r.value.stats.elapsedMs == elapsedMs
  {
    var embeddings :- FetchEmbeddingBatch(texts, response);
    Success(BatchResult(embeddings, Stats(|texts|, response.totalTokens, TotalLength(texts), elapsedMs)))
  }

  /** `fetchEmbedding(text)` of convex/embeddings.ts: `embeddings[0]` with the
      stats of the one-text batch. */
  function FetchEmbeddingWithStats(text: string, response: EmbeddingResponse, elapsedMs: int)
    : (r: Result<SingleResult, Error>)
    ensures r.Failure? <==> |response.data| != 1
    ensures r.Failure? ==> r.error == UnexpectedNumberOfEmbeddings
    ensures r.Success? ==> r.value.embedding == response.data[0].embedding
    ensures r.Success? ==> r.value.stats == Stats(1, response.totalTokens, |text|, elapsedMs)
  {
    var batch :- FetchEmbeddingBatchWithStats([text], response, elapsedMs);
    assert TotalLength([text]) == |text| by {
      assert [text][..0] == [];
    }
    assert batch.embeddings == FetchEmbeddingBatch([text], response).value;
    var _ := FetchEmbedding(text, response);
    Success(SingleResult(batch.embeddings[0], batch.stats))
  }

  /** `getEmbedding(db, embeddingId)` over the `embeddings` table. */
  function GetEmbedding(table: map<EmbeddingId, Buffer>, id: EmbeddingId): (r: Result<Vector, Error>)
    ensures r.Failure? <==> id !in table
    ensures r.Failure? ==> r.error == NoEmbeddingFound
    ensures r.Success? ==> r.value == View(table[id])
  {
    if id !in table then Failure(NoEmbeddingFound) else Success(View(table[id]))
  }

  /** The insert of `saveEmbedding` into the `embeddings` table: the vector's
      buffer under the fresh id `newId` the database picks. */
  function SaveEmbedding(table: map<EmbeddingId, Buffer>, newId: EmbeddingId, embedding: Vector)
    : (r: map<EmbeddingId, Buffer>)
    requires newId !in table
    ensures r.Keys == table.Keys + {newId}
    ensures View(r[newId]) == embedding
    ensures forall id :: id in table ==> r[id] == table[id]
  {
    table[newId := Buffer(embedding)]
  }

  /** Reading back after `saveEmbedding`: the new id reads the saved vector,
      every other id reads as it did. */
  lemma {:induction false} SaveThenGetEmbedding(table: map<EmbeddingId, Buffer>, newId: EmbeddingId, embedding: Vector)
    requires newId !in table
    ensures GetEmbedding(SaveEmbedding(table, newId, embedding), newId) == Success(embedding)
    ensures forall id :: id != newId ==> GetEmbedding(SaveEmbedding(table, newId, embedding), id) == GetEmbedding(table, id)
  {
  }

  // ---------------------------------------------------------------------------
  // The order of the returned embeddings.

  lemma {:induction false} MultisetRemove<T>(b: seq<T>, j: nat)
    requires j < |b|
    ensures multiset(b[..j] + b[j + 1..]) == multiset(b) - multiset{b[j]}
  {
    assert b == b[..j] + [b[j]] + b[j + 1..];
  }

  /** `s.map(f)`. */
  function MapSeq<A, B>(s: seq<A>, f: A -> B): (r: seq<B>)
    ensures |r| == |s|
    ensures forall i :: 0 <= i < |s| ==> r[i] == f(s[i])
  {
    seq(|s|, i requires 0 <= i < |s| => f(s[i]))
  }

  lemma {:induction false} MapSeqRemove<A, B>(b: seq<A>, j: nat, f: A -> B)
    requires j < |b|
    ensures MapSeq(b[..j] + b[j + 1..], f) == MapSeq(b, f)[..j] + MapSeq(b, f)[j + 1..]
  {
    var lhs := MapSeq(b[..j] + b[j + 1..], f);
    var rhs := MapSeq(b, f)[..j] + MapSeq(b, f)[j + 1..];
    assert |lhs| == |rhs|;
    forall i | 0 <= i < |lhs|
      ensures lhs[i] == rhs[i]
    {
      if i < j {
        assert (b[..j] + b[j + 1..])[i] == b[i];
      } else {
        assert (b[..j] + b[j + 1..])[i] == b[i + 1];
      }
    }
  }

  lemma {:induction false} MapPermutation<A, B>(a: seq<A>, b: seq<A>, f: A -> B)
    requires multiset(a) == multiset(b)
    ensures multiset(MapSeq(a, f)) == multiset(MapSeq(b, f))
  {
    if |a| == 0 {
      assert |b| == |multiset(b)| == 0;
    } else {
      var x := a[0];
      assert x in multiset(b);
      var j :| 0 <= j < |b| && b[j] == x;
      var rest := b[..j] + b[j + 1..];
      MultisetRemove(b, j);
      MultisetTail(a);
      MapPermutation(a[1..], rest, f);
      var ma, mb := MapSeq(a, f), MapSeq(b, f);
      var y := f(x);
      assert ma[0] == y && mb[j] == y;
      MapSeqRemove(b, j, f);
      MultisetTail(ma);
      MultisetRemove(mb, j);
      assert y in multiset(ma) && y in multiset(mb);
      assert MapSeq(a[1..], f) == ma[1..];
      assert multiset(ma[1..]) == multiset(ma) - multiset{y};
      assert multiset(MapSeq(rest, f)) == multiset(mb) - multiset{y};
      calc {
        multiset(ma);
        { MultisetAddBack(multiset(ma), y); }
        (multiset(ma) - multiset{y}) + multiset{y};
        multiset(MapSeq(a[1..], f)) + multiset{y};
        multiset(MapSeq(rest, f)) + multiset{y};
        (multiset(mb) - multiset{y}) + multiset{y};
        { MultisetAddBack(multiset(mb), y); }
        multiset(mb);
      }
    }
  }

  lemma {:induction false} MultisetTail<T>(s: seq<T>)
    requires |s| > 0
    ensures multiset(s[1..]) == multiset(s) - multiset{s[0]}
  {
    assert s == [s[0]] + s[1..];
  }

  lemma {:induction false} MultisetAddBack<T>(m: multiset<T>, y: T)
    requires y in m
    ensures (m - multiset{y}) + multiset{y} == m
  {
  }

  function EmbeddingOf(item: EmbeddingItem): Vector
  {
    item.embedding
  }

  /** Reordering the items reorders their embeddings: nothing is dropped or
      duplicated. */
  lemma {:induction false} ProjectPermutation(a: seq<EmbeddingItem>, b: seq<EmbeddingItem>)
    requires multiset(a) == multiset(b)
    ensures multiset(Project(a)) == multiset(Project(b))
  {
    MapPermutation(a, b, EmbeddingOf);
    assert Project(a) == MapSeq(a, EmbeddingOf);
    assert Project(b) == MapSeq(b, EmbeddingOf);
  }

  /** The response's indices are exactly `0 .. n-1`, each once. */
  ghost predicate IndicesAreRange(data: seq<EmbeddingItem>)
  {
    && (forall k :: 0 <= k < |data| ==> 0 <= data[k].index < |data|)
    && (forall k1, k2 :: 0 <= k1 < k2 < |data| ==> data[k1].index != data[k2].index)
  }

  lemma {:induction false} MultisetCountTwo<T>(s: seq<T>, i: nat, j: nat)
    requires i < j < |s| && s[i] == s[j]
    ensures multiset(s)[s[i]] >= 2
  {
    var x := s[i];
    assert s == s[..j] + s[j..];
    assert s[..j][i] == x;
    assert s[j..][0] == x;
    assert multiset(s[..j])[x] >= 1;
    assert multiset(s[j..])[x] >= 1;
  }

  lemma {:induction false} MultisetCountOne<T>(s: seq<T>, x: T)
    requires forall i, j :: 0 <= i < j < |s| ==> s[i] != s[j]
    ensures multiset(s)[x] <= 1
  {
    if |s| > 0 {
      var init := s[..|s| - 1];
      MultisetCountOne(init, x);
      assert s == init + [s[|s| - 1]];
      if x == s[|s| - 1] {
        assert x !in init;
      }
    }
  }

  lemma {:induction false} IndexGap(s: seq<EmbeddingItem>, i: nat, j: nat)
    requires forall p, q :: 0 <= p < q < |s| ==> s[p].index > s[q].index
    requires i <= j < |s|
    ensures s[i].index - s[j].index >= j - i
    decreases j - i
  {
    if i < j {
      IndexGap(s, i + 1, j);
    }
  }

  /** Sorting keeps every item of the response. */
  lemma {:induction false} SortedItemsFromData(data: seq<EmbeddingItem>, i: nat)
    requires i < |data|
    ensures exists k :: 0 <= k < |data| && data[k] == SortDesc(data, IndexKey)[i]
  {
    assert SortDesc(data, IndexKey)[i] in multiset(data);
  }

  /** With distinct indices, the sorted items' indices strictly decrease. */
  lemma {:induction false} SortedIndicesStrict(data: seq<EmbeddingItem>, p: nat, q: nat)
    requires IndicesAreRange(data)
    requires p < q < |data|
    ensures SortDesc(data, IndexKey)[p].index > SortDesc(data, IndexKey)[q].index
  {
    var s := SortDesc(data, IndexKey);
    assert IndexKey(s[p]) >= IndexKey(s[q]);
    if s[p].index == s[q].index {
      SortedItemsFromData(data, p);
      SortedItemsFromData(data, q);
      var k1 :| 0 <= k1 < |data| && data[k1] == s[p];
      var k2 :| 0 <= k2 < |data| && data[k2] == s[q];
      assert k1 == k2;
      MultisetCountTwo(s, p, q);
      MultisetCountOne(data, s[p]);
      assert false;
    }
  }

  /** When the indices are `0 .. n-1`, the sorted items carry the indices
      `n-1, n-2, ..., 0`. */
  lemma {:induction false} SortedIndicesDescend(data: seq<EmbeddingItem>)
    requires IndicesAreRange(data)
    ensures forall i :: 0 <= i < |data| ==> SortDesc(data, IndexKey)[i].index == |data| - 1 - i
  {
    var s := SortDesc(data, IndexKey);
    forall p, q | 0 <= p < q < |s|
      ensures s[p].index > s[q].index
    {
      SortedIndicesStrict(data, p, q);
    }
    forall i | 0 <= i < |s|
      ensures 0 <= s[i].index < |s|
    {
      SortedItemsFromData(data, i);
    }
    StrictRangeIsReverse(s);
  }

  /** Strictly decreasing indices drawn from `0 .. n-1`, `n` of them, are
      `n-1, ..., 0`. */
  lemma {:induction false} StrictRangeIsReverse(s: seq<EmbeddingItem>)
    requires forall p, q :: 0 <= p < q < |s| ==> s[p].index > s[q].index
    requires forall i :: 0 <= i < |s| ==> 0 <= s[i].index < |s|
    ensures forall i :: 0 <= i < |s| ==> s[i].index == |s| - 1 - i
  {
    forall i | 0 <= i < |s|
      ensures s[i].index == |s| - 1 - i
    {
      IndexGap(s, 0, i);
      IndexGap(s, i, |s| - 1);
    }
  }

  /** When the response's indices are `0 .. n-1`, output position `i` holds the
      embedding whose index is `n-1-i`: the batch comes back in reverse input
      order. */
  lemma {:induction false} FetchEmbeddingBatchReversesIndices(texts: seq<string>, response: EmbeddingResponse)
    requires |response.data| == |texts|
    requires IndicesAreRange(response.data)
    ensures FetchEmbeddingBatch(texts, response).Success?
    ensures forall i, k ::
              0 <= i < |texts| && 0 <= k < |texts| && response.data[k].index == |texts| - 1 - i ==>
                FetchEmbeddingBatch(texts, response).value[i] == response.data[k].embedding
  {
    var data := response.data;
    var n := |data|;
    var s := SortDesc(data, IndexKey);
    SortedIndicesDescend(data);
    assert FetchEmbeddingBatch(texts, response).value == Project(s);
    forall i, k | 0 <= i < n && 0 <= k < n && data[k].index == n - 1 - i
      ensures Project(s)[i] == data[k].embedding
    {
      SortedItemsFromData(data, i);
      var k' :| 0 <= k' < n && data[k'] == s[i];
      assert data[k'].index == data[k].index;
      assert k' == k;
    }
  }
}
