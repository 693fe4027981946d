# Embeddings in Convex: a Dafny model of the embedding-and-similarity core

The application stores documents as *sources* split into *chunks*. It embeds
every chunk with an embedding service and keeps the vectors in an external
vector index. It answers two kinds of query from caches kept in the database:

- a *search*, which ranks the stored vectors against the embedding of a
  query text;
- a *comparison*, which asks the vector index for the chunks nearest to a
  target chunk.

This project models that core as pure functions over an immutable store. The
store holds:

- maps from ids to sources, chunks, searches and comparisons;
- the `vectors` table, in table order;
- the external index, as a map from chunk id to vector and metadata;
- the list of jobs handed to the scheduler;
- one counter that hands out fresh ids.

The project proves what the code promises about each operation.

| file | module | what it models |
|---|---|---|
| `wrappers.dfy` | `Wrappers` | `Option` and `Result`; a thrown `Error` is a `Failure` |
| `ids.dfy` | `Ids` | document ids |
| `errors.dfy` | `Errors` | the errors the code throws, one constructor each |
| `sorting.dfy` | `Sorting` | the stable `Array.prototype.sort` with a descending key |
| `vectors.dfy` | `Vectors` | `compare`, `compareBuffers`, `compareTo` |
| `embeddings.dfy` | `Embeddings` | post-processing of an embedding response, `getEmbedding` |
| `utils.dfy` | `Utils` | `pruneNull` |
| `store.dfy` | `Store` | the tables, store validity, `getChunk`, `countOpt \|\| 10`, `.unique()`, the read-time join |
| `sources.dfy` | `Sources` | `textLength`, `insert`, `add`, `addBatch`, `patch`, `deleteSource` |
| `searches.dfy` | `Searches` | the search cache: `upsert`, `addResults`, `search`, `semanticSearch` |
| `comparisons.dfy` | `Comparisons` | the comparison cache: `upsert`, `compare`, `get` |
| `upload.dfy` | `Upload` | the batch-packing loop of `uploadDocuments` |

## Modelling choices

- **Numbers and external inputs**
  - Vectors and scores are exact `real`s.
  - The embedding service, the vector index's answers (to a query and to an
    upsert) and elapsed times are inputs.
  - A model string stands for the UTF-16 code units of the JavaScript string,
    so its length is the JavaScript `length`.
- **Actions are not transactions**
  - When a step of `add` or `addBatch` throws, the mutations before it stay
    committed. `Sources.Outcome` and `Sources.BatchAdded` carry the store
    those mutations leave together with the error thrown, if any.
  - The Convex scheduler is a list of jobs that an operation appends to.
- **NaN**
  - `compare` with a second vector shorter than the first gives `NaN`. `Score`
    models this as `Finite(x) | NaN`.
  - `Math.ceil(x * part / whole)` with `whole = 0` also gives `NaN`. `Estimate`
    models this as `Known(n) | NaN`.
- **Ids** are handed out in ascending creation order by a single counter.
  - `.unique()` sees the selected documents as a set of ids.
  - It answers `null` for none, the one id for one, and throws for two or more.
- **`Promise.all`** over a map of mutations is modelled as the mutations run one
  after the other, in array order.
- **Embedding results**
  - `convex/sources.ts` and `convex/searches.ts` import the
    `fetchEmbeddingBatch`/`fetchEmbedding` of `convex/lib/embeddings.ts`. Those
    return bare arrays.
  - Yet both files destructure `embeddings`/`embedding`, `totalTokens` and
    `embeddingMs` from the result.
  - The orchestrators therefore take an abstract answer record (`Sources.Embedded`,
    `Searches.EmbeddedOne`) rather than the result of `Embeddings.FetchEmbeddingBatch`.
- **Store validity**
  - `Store.Valid` collects what the database guarantees of every state: ids are
    fresh, and sources and their chunks point at each other.
  - Lemmas that need it take it as a precondition. The operations themselves
    model every failure the code can meet without it. For example, the join
    fails with `MissingSource` when `source!` would dereference a deleted
    source.

## Model

| member | source | states |
|---|---|---|
| Vectors.Compare | convex/lib/vectors.ts:22-24 | the score is a number exactly when every index of the first vector is an index of the second, and it is then the sum of `a[i]*b[i]` over the first vector's indices; an empty first vector scores 0 |
| Vectors.DotIsSumOfProducts | convex/lib/vectors.ts:23 | the left fold from 0 equals the index-wise sum of products (reference definition) |
| Vectors.DotSymmetric | convex/lib/vectors.ts:22-24 | for vectors of one length the dot product is symmetric under exact arithmetic |
| Vectors.CompareBuffers | convex/embeddings.ts:76-82 | scoring two buffers is scoring their decoded vectors: a number exactly when the first is no longer than the second, then the sum of products, 0 for an empty first vector |
| Vectors.Considered | convex/lib/vectors.ts:4 | at most 1300 rows are read, and they are the first ones in table order |
| Vectors.ScoreRows | convex/lib/vectors.ts:5-10 | one entry per considered row, in row order, carrying that row's chunk id and `compare(target, row)` as its score |
| Vectors.CompareTo | convex/lib/vectors.ts:3-12 | the ranking has one entry per considered row, is a permutation of the scored rows, and is sorted by non-increasing score |
| Vectors.CompareToScores | convex/lib/vectors.ts:5-11 | every ranked entry names the chunk of some considered row and carries exactly that row's score |
| Vectors.CompareToIgnoresLaterRows | convex/lib/vectors.ts:4 | appending rows after the first 1300 changes neither the rows considered nor the ranking |
| Vectors.CompareToTiesKeepTableOrder | convex/lib/vectors.ts:11 | with no id tie-break, the entries of equal score appear in table order |
| Sorting.SortDesc | convex/lib/vectors.ts:11 | the sort is a permutation of its input and orders it by non-increasing key |
| Sorting.SortDescStable | convex/lib/vectors.ts:11 | for every key value the entries with that key keep their input order (a stable sort) |
| Sorting.StableSortIsUnique | convex/lib/embeddings.ts:26 | two sequences sorted by one key with the same entries per key in the same order are equal, so any stable sort gives the result `SortDesc` gives |
| Embeddings.FetchEmbeddingBatch | convex/lib/embeddings.ts:18-33 | fails with "Unexpected number of embeddings" exactly when the response holds a different number of items than texts; otherwise it returns one embedding per text, and they are the response's embeddings, none dropped or duplicated, in the order of some arrangement of the response's items by non-increasing `index` |
| Embeddings.ProjectPermutation | convex/lib/embeddings.ts:26-33 | reordering the response items reorders their embeddings without dropping or duplicating any |
| Embeddings.FetchEmbeddingBatchReversesIndices | convex/lib/embeddings.ts:26-33 | when the response's indices are 0..n-1, output position i holds the embedding whose index is n-1-i (descending index order) |
| Embeddings.TotalLengthConcat | convex/embeddings.ts:45 | the logged total length of the texts is additive over concatenation |
| Embeddings.FetchEmbedding | convex/lib/embeddings.ts:36-39 | the one-text call fails exactly when the response does not hold one item, and otherwise returns that item's embedding |
| Embeddings.FetchEmbeddingBatchWithStats | convex/embeddings.ts:10-49 | the same count check and embeddings as the plain batch call, with `numTexts` the number of texts, `totalLength` the sum of their lengths, the service's token usage and the elapsed time |
| Embeddings.FetchEmbeddingWithStats | convex/embeddings.ts:51-54 | fails with "Unexpected number of embeddings" exactly when the response does not hold one item; otherwise the embedding of the one-text batch together with that batch's stats: one text, its length, the usage and the time |
| Embeddings.GetEmbedding | convex/embeddings.ts:113-122 | fails with "No embedding found" exactly when the id is absent; otherwise returns the stored buffer's vector |
| Embeddings.SaveEmbedding | convex/embeddings.ts:102-104 | the insert adds exactly the new id, whose buffer reads back as the saved vector, and keeps every other row |
| Embeddings.SaveThenGetEmbedding | convex/embeddings.ts:102-122 | after the insert, `getEmbedding` of the new id returns the saved vector, and every other id reads as before |
| Utils.PruneNull | convex/lib/utils.ts:6-8 | the result has no nulls by type, is no longer than the input, contains only the input's non-null values and keeps every one of them |
| Utils.PruneNullLength | convex/lib/utils.ts:7 | the result is as long as the input has non-null entries, and as long as the input exactly when the input has no null |
| Utils.PruneNullKeepsOrder | convex/lib/utils.ts:7 | the non-null entry at input position i lands at the position given by the number of non-null entries before it, so relative order is kept |
| Utils.PruneNullConcat | convex/lib/utils.ts:7 | pruning distributes over concatenation |
| Utils.PruneNullLift | convex/lib/utils.ts:7 | a list without nulls comes back unchanged |
| Utils.PruneNullIdempotent | convex/lib/utils.ts:7 | pruning a pruned list changes nothing |
| Store.GetChunk | convex/sources.ts:213-222 | fails with "Document not found" for exactly the absent ids; otherwise returns the stored chunk |
| Store.RequestedCount | convex/searches.ts:15 | an absent count and a count of 0 both become 10; any other count is kept |
| Store.Unique | convex/searches.ts:16-20 | `.unique()` throws exactly when two or more documents qualify, answers null exactly when none does, and otherwise answers the one that does |
| Store.JoinAll | convex/searches.ts:110-118 | the join of each ranked entry, in order, or a failure exactly when some entry's chunk points at a missing source |
| Store.JoinPresentTotal | convex/searches.ts:110-119 | in a valid store the join never throws |
| Store.JoinPresentIsPresent | convex/searches.ts:110-119 | the pruned join is, entry by entry, the join of the ranked entries whose chunk still exists, in ranking order: same id and score, the current chunk and its source's name |
| Sources.TextLengthConcat | convex/sources.ts:224-226 | the total text length is additive over concatenation |
| Sources.TextLengthBounds | convex/sources.ts:224-226 | no chunk's text is longer than the total |
| Sources.ProRateBounds | convex/sources.ts:57 | a pro-rated share is the exact share `total*part/whole` rounded up: at least it and less than one above it |
| Sources.ProRateWhole | convex/sources.ts:143-149 | the share of the whole is the total |
| Sources.Insert | convex/sources.ts:27-64 | writes an unsaved source with the given name and usage under a fresh id, then one chunk per input under the next ids, in input order, with the chunk's text, lines, position and source; the source lists exactly those chunk ids in order; nothing else changes |
| Sources.InsertValid | convex/sources.ts:42-62 | `insert` keeps the store valid, uses only fresh ids and overwrites no existing chunk |
| Sources.InsertTokensCoverTotal | convex/sources.ts:49-57 | with a positive total length every chunk gets a token count, and the counts add up to at least the source's total tokens |
| Sources.InsertTokensOfEmptyTexts | convex/sources.ts:49-57 | when every text is empty the total length is 0 and every chunk's token count is NaN |
| Sources.Normalize | convex/sources.ts:79 | every newline becomes a space and every other character is kept |
| Sources.NormalizeIdempotent | convex/sources.ts:79 | normalising twice is normalising once |
| Sources.EmbeddingInput | convex/sources.ts:78-80 | one text per chunk, in order, each the chunk's text normalised |
| Sources.UpsertVectorsValues | convex/sources.ts:92-99 | an upsert whose ids are distinct writes each entry's vector under its id and leaves every other id alone |
| Sources.AddIndexed | convex/sources.ts:92-99 | the upsert of `add` pairs chunk id i with embedding i and metadata `{ name, sourceId, chunkIndex: i }`, and keeps every other vector |
| Sources.MarkSaved | convex/sources.ts:173-178 | patching an absent source throws; otherwise only that source's `saved` flag changes, to true |
| Sources.AddEmbedded | convex/sources.ts:86-103 | after `add`, the store holds the inserted chunks, a saved source with the usage, and each chunk's embedding in the index; searches, comparisons, the vectors table and jobs are unchanged |
| Sources.Add | convex/sources.ts:67-105 | a failed embedding call throws its error and writes nothing; a rejected upsert throws its error after the insert, leaving the new source unsaved, its chunks stored and the index untouched; otherwise nothing is thrown and `add` stores the source as `AddEmbedded` describes, embedding the normalised texts |
| Sources.AddSavesOnlyIndexed | convex/sources.ts:92-103 | the source is unsaved after the insert and saved only after its vectors are upserted: a store in which every saved source has all its chunks indexed stays so after each step, and after `add` whatever the service and the index answer |
| Sources.BatchInputLength | convex/sources.ts:123-127 | the batch's embedding request holds one text per chunk |
| Sources.BatchInputAt | convex/sources.ts:123-127 | text j of source idx sits in the request after the texts of all earlier sources |
| Sources.Offsets | convex/sources.ts:138 | the corrected offset of source idx is the number of chunks of the sources before it |
| Sources.AsWrittenOffsets | convex/sources.ts:138 | the offsets as written: 0 for the first source and the chunk count of source idx-1 for source idx |
| Sources.InsertBatch | convex/sources.ts:139-159 | after the inserts every source of the batch is stored, unsaved, under ascending fresh ids, with its share of tokens and time, and the vectors are laid out source by source from the given offsets; nothing else changes |
| Sources.MarkAllSaved | convex/sources.ts:162-169 | the patches fail exactly when some source is missing; otherwise exactly the listed sources become saved |
| Sources.AddBatchAsWritten | convex/sources.ts:110-171 | `addBatch` as written: a failed embedding call throws its error and writes nothing; a rejected upsert throws its error after the inserts, leaving every source stored unsaved and the index untouched; otherwise every source is added, saved and indexed, with the embedding the as-written offsets pick; everything stored before is kept |
| Sources.AddBatch | convex/sources.ts:110-171 | `addBatch` with corrected offsets: the same outcomes, and every chunk reads the embedding at its own text's position in the request |
| Sources.AddBatchEmbedsOwnText | convex/sources.ts:122-153 | when the service answers in request order, the corrected `addBatch` stores every chunk with the vector of its own normalised text |
| Sources.AsWrittenEmbedsNeighbourText | convex/sources.ts:122-153 | when the service answers in request order, `addBatch` as written stores the one chunk of source "c" in the batch "a", "b", "c" with the vector of "b" |
| Sources.OffsetsLocateTexts | convex/sources.ts:138-153 | the corrected offsets point each chunk at its own normalised text in the request |
| Sources.AsWrittenOffsetsAgree | convex/sources.ts:138 | the as-written offset of source idx equals the corrected one exactly when idx is at most 1 or all sources before idx-1 are empty |
| Sources.AsWrittenOffsetsMisplace | convex/sources.ts:138-153 | for three one-chunk sources the third source reads the embedding of the second's text |
| Sources.DeleteChunks | convex/sources.ts:209 | the deletes succeed exactly when every id is present and none repeats; then exactly those chunks are gone and the others are unchanged |
| Sources.DeleteSource | convex/sources.ts:204-211 | deleting an absent source changes nothing; otherwise it removes the source and exactly its listed chunks, and every other table, the vectors included, is unchanged |
| Sources.DeleteSourceValid | convex/sources.ts:204-211 | in a valid store `deleteSource` succeeds, keeps the store valid and leaves no chunk of the deleted source |
| Sources.DeleteSourceIdempotent | convex/sources.ts:204-211 | deleting a source twice is deleting it once |
| Sources.InsertThenGetChunk | convex/sources.ts:42-62 | after `insert`, `getChunk` of each new chunk id returns the new chunk, and every id below the old counter reads as before |
| Sources.DeleteSourceThenGetChunk | convex/sources.ts:204-211 | after a successful `deleteSource`, `getChunk` of each chunk it listed throws "Document not found", and every other id reads as before |
| Searches.Upsert | convex/searches.ts:10-33 | fails when two or more cached searches qualify; reuses the one that does and changes nothing; otherwise inserts a pending `{ input, count }` under a fresh id and schedules exactly one search job for it |
| Searches.InsertReusable | convex/searches.ts:25 | the inserted search qualifies for its own input and count, and no other search starts to qualify |
| Searches.UpsertValid | convex/searches.ts:10-33 | in a valid store `upsert` keeps it valid and returns a search for the same input with at least the requested count; a job is scheduled exactly when the search is new |
| Searches.UpsertIdempotent | convex/searches.ts:16-24 | repeating the call returns the same id and changes nothing |
| Searches.UpsertNotUniqueExample | convex/searches.ts:16-20 | with cached searches of 5 and 10 results for one input, a request for 3 throws |
| Searches.UpsertFirstCorrect | convex/searches.ts:16-24 | the corrected lookup never fails, agrees with `upsert` wherever `upsert` succeeds, keeps the store valid and is idempotent |
| Searches.SliceEnd | convex/searches.ts:53 | `slice(0, count)` keeps `count` results, at most all of them, and for a negative count drops that many from the end |
| Searches.AddResults | convex/searches.ts:35-61 | fails with "Search not found" exactly when the id is absent; otherwise only that search changes: its results, buffer, tokens and time are set and its input and count are kept |
| Searches.AddResultsRanked | convex/searches.ts:52-53 | the stored results are a prefix of the ranking, as long as the slice allows, at most `count` for a non-negative count, non-increasing in score, each with a considered row's exact score for its chunk |
| Searches.RunSearch | convex/searches.ts:63-86 | a failed embedding call fails the action and writes nothing; without a search id nothing is written; otherwise the results are added to that search |
| Searches.SemanticSearch | convex/searches.ts:105-121 | an unknown search throws "Unknown search", a pending one reads as null, and a completed one reads as the pruned join of its results |
| Searches.SemanticSearchHits | convex/searches.ts:110-119 | in a valid store a completed search reads back as its stored results whose chunk still exists, in order and with their scores, each with its current chunk and source name |
| Searches.ScheduledSearchCompletes | convex/searches.ts:25-31 | after an `upsert` that inserts, the job it scheduled names the new search, and running it completes the search so that it reads back as results |
| Comparisons.Upsert | convex/comparisons.ts:8-31 | `topK` is `count \|\| 10`; fails when two or more cached comparisons qualify; reuses the one that does; otherwise inserts `{ target, count: topK }` and schedules exactly one compare job with that target, id and `topK` |
| Comparisons.InsertReusable | convex/comparisons.ts:20-23 | the inserted comparison qualifies for its own target and count, and no other starts to qualify |
| Comparisons.UpsertValid | convex/comparisons.ts:8-31 | in a valid store `upsert` keeps it valid and returns a comparison of the same target with at least `topK` results; a job is scheduled exactly when the comparison is new |
| Comparisons.UpsertIdempotent | convex/comparisons.ts:14-19 | repeating the call returns the same id and changes nothing |
| Comparisons.UpsertNotUniqueExample | convex/comparisons.ts:14-19 | with cached comparisons of 5 and 20 results for one chunk, the default request reuses the second and a request for 3 throws |
| Comparisons.UpsertFirstCorrect | convex/comparisons.ts:14-19 | the corrected lookup never fails, agrees with `upsert` wherever `upsert` succeeds, keeps the store valid and is idempotent |
| Comparisons.RunCompare | convex/comparisons.ts:51-70 | fails when the index's answer has no `matches` field (undefined); an empty list passes and yields no related chunks; otherwise the results are the matches in order with their ids and scores; they are stored only when an id is given, and patching a missing comparison throws |
| Comparisons.Others | convex/comparisons.ts:86 | the filter keeps exactly the entries that are not the target |
| Comparisons.OthersConcat | convex/comparisons.ts:86 | the filter keeps stored order: it distributes over concatenation |
| Comparisons.OthersWithoutTarget | convex/comparisons.ts:86 | a list without the target passes unchanged |
| Comparisons.Get | convex/comparisons.ts:74-102 | throws "Unknown comparison" exactly when the id is absent; reads null while pending or when the target chunk is gone; otherwise it returns the comparison with its non-target results joined and pruned and the target with its source's name |
| Comparisons.GetHits | convex/comparisons.ts:84-94 | in a valid store a completed comparison reads back as its stored results other than the target whose chunk exists, in stored order with their scores |
| Comparisons.ScheduledCompareCompletes | convex/comparisons.ts:20-29 | after an `upsert` that inserts, the scheduled job carries the target, the new id and `topK`, and running it completes the comparison so that it reads back |
| Upload.Entry | scripts/addFiles.ts:47-53 | a document's entry has its name and one chunk per split, in the splitter's order, with the split's text and lines |
| Upload.UploadDocuments | scripts/addFiles.ts:31-59 | the batches sent, laid end to end, are the documents' entries in load order; no batch is empty; a document joins a batch only while the total stays below 100 chunks; a new batch starts only when it would not |
| Upload.PackingBounds | scripts/addFiles.ts:38-53 | every sent batch of two documents or more holds fewer than 100 chunks |
| Upload.PackingUnique | scripts/addFiles.ts:31-59 | the description of the sent batches determines them: the loop's batches are the only ones meeting it |
| Upload.PackingEmpty | scripts/addFiles.ts:55-58 | nothing is sent exactly when there are no documents |
| Upload.FirstBatchLength | scripts/addFiles.ts:38-46 | the first batch is as long as the limit allows: each of its documents joined below 100 chunks, and the next document would have reached it |
| Upload.OversizedDocumentSentAlone | scripts/addFiles.ts:38-53 | a 150-chunk document after a 30-chunk one is sent alone, in a batch of more than 100 chunks |

## Left out

- The HTTP calls to the embedding service and the vector index (`fetch`, `pinecone.query`) and `Date.now`. Their answers and the elapsed times are inputs.
- `upsertVectors` and `pineconeIndex`, which convex/sources.ts and convex/comparisons.ts import from convex/lib/pinecone.ts. That file exports only `pineconeClient`, so their code is not part of this model. `Sources.UpsertVectors` gives the upsert the usual meaning: each entry's vector is written under its id, and a later entry wins. Whether the index accepts the upsert is an input.
- Sources.InsertBatch: each source's token and time estimates are the exact ceiling of `x * sourceLength / totalLength`. The code first computes the float64 quotient `sourceLength / totalLength` and rounds it, so its `Math.ceil` can be one higher. For lengths 7 and 93 with 100 tokens it gives 8 for the first source, the model 7. Sources.AddBatch and Sources.AddBatchAsWritten inherit this.
- Float32 arithmetic and the `ArrayBuffer` byte encoding. Vectors are exact reals, and a buffer is its sequence of floats.
- Vectors.CompareTo: requires every considered row to be at least as long as the target. A `NaN` score makes the comparator inconsistent, and the order `sort` then produces is implementation-defined.
- Concurrency. `pLimit(100)`, `Promise.all` and the scheduler's interleavings are left out; mutations run one after the other in array order.
- Sources.DeleteChunks: a delete of a missing or repeated id fails the whole mutation, which then writes nothing. This is the transactional reading of `db.delete` on a missing document.
- The `create` action of convex/embeddings.ts, and the text patch and stats row that `saveEmbedding` writes besides the embedding. They are plumbing around `fetchEmbedding`, which is modelled.
- `wordSearch`, the `paginate` queries, the generic `patch` mutations of searches, convex/lib/crud.ts, convex/texts.ts and convex/pinecone.ts. These are database and full-text-search plumbing outside the core.
- The schema, the generated API, the React UI and scripts/addURL.py.
- The text splitter and the directory loader of scripts/addFiles.ts and `path.parse`. A document enters `Upload.UploadDocuments` already split and named.
- Upload.UploadDocuments: returns the batches it would send rather than sending them. The `addBatch` call is `Sources.AddBatch`.
- Searches.RunSearch, Sources.Add, Sources.AddBatchAsWritten and Sources.AddBatch take the embedding service's answer as a record with embeddings, tokens and time. The helpers they import return bare arrays, and the model does not follow that mismatch.
- Sources.AddBatch: nothing in the code fixes the order of the service's answer, and the descending sort of convex/lib/embeddings.ts reverses the usual one. The contract says only that every chunk reads the embedding at its own text's position in the request; it stores the chunk's own embedding under the request-order hypothesis of `Sources.AddBatchEmbedsOwnText`.
- Searches.AddResults: requires the considered rows to be comparable with the search's embedding, for the reason given under `Vectors.CompareTo`.

## Findings

| source | as written | input that shows it | evidently intended | confidence | as-written member | corrected member |
|---|---|---|---|---|---|---|
| convex/sources.ts:138 | the offsets are 0 followed by each source's own chunk count, so source idx reads its embeddings from the chunk count of source idx-1 on | three one-chunk sources "a", "b", "c": source 2 reads position 1, the embedding of "b" | each source reads from the total chunk count of the sources before it, so each chunk reads the embedding at its own text's position in the request | high, not executed | Sources.AsWrittenEmbedsNeighbourText (with Sources.AsWrittenOffsetsMisplace) | Sources.AddBatchEmbedsOwnText (with Sources.OffsetsLocateTexts) |
| convex/searches.ts:16-20 | the lookup ends in `.unique()`, which throws when more than one cached search qualifies | cached searches for "q" with 5 and 10 results, then a request for 3 | reuse one qualifying search, for example the oldest | medium, not executed | Searches.UpsertNotUniqueExample | Searches.UpsertFirstCorrect |
| convex/comparisons.ts:14-18 | the same `.unique()` lookup for comparisons | cached comparisons of chunk 7 with 5 and 20 results, then a request for 3 | reuse one qualifying comparison | medium, not executed | Comparisons.UpsertNotUniqueExample | Comparisons.UpsertFirstCorrect |
