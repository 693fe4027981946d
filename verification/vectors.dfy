/** Vector scoring and ranking: `compare` (convex/lib/vectors.ts, repeated in
    convex/embeddings.ts), `compareBuffers` (convex/embeddings.ts) and
    `compareTo` (convex/lib/vectors.ts). Vectors hold exact reals; the Float32
    rounding of the source is not modelled. */
module Vectors {
  import opened Ids
  import opened Sorting

  type Vector = seq<real>

  /** The result of `compare`: a number, or `NaN` when the second vector is too
      short (`vectorB[idx]` is `undefined` and `cur * undefined` is `NaN`, which
      then swallows the rest of the fold). */
  datatype Score = Finite(value: real) | NaN

  /** The left fold of `compare`: starting from 0, add `a[i] * b[i]` for each
      index `i` of `a`, for vectors where every index of `a` is an index of
      `b`. */
  function Dot(a: Vector, b: Vector): real
    requires |a| <= |b|
  {
    if |a| == 0 then 0.0 else Dot(a[..|a| - 1], b) + a[|a| - 1] * b[|a| - 1]
  }

  /** Reference definition: the sum over the indices `i` of `a` of `a[i] * b[i]`. */
  function SumOfProducts(a: Vector, b: Vector): real
    requires |a| <= |b|
  {
    if |a| == 0 then 0.0 else a[0] * b[0] + SumOfProducts(a[1..], b[1..])
  }

  lemma {:induction false} SumOfProductsSnoc(a: Vector, b: Vector)
    requires 0 < |a| <= |b|
    ensures SumOfProducts(a, b)
         == SumOfProducts(a[..|a| - 1], b) + a[|a| - 1] * b[|a| - 1]
  {
    if |a| > 1 {
      SumOfProductsSnoc(a[1..], b[1..]);
      assert a[1..][..|a| - 2] == a[..|a| - 1][1..];
    }
  }

  /** The fold computes the sum of products. */
  lemma {:induction false} DotIsSumOfProducts(a: Vector, b: Vector)
    requires |a| <= |b|
    ensures Dot(a, b) == SumOfProducts(a, b)
  {
    if |a| > 0 {
      DotIsSumOfProducts(a[..|a| - 1], b);
      SumOfProductsSnoc(a, b);
    }
  }

  /** Under exact arithmetic the dot product of two vectors of one length is
      symmetric. */
  lemma {:induction false} DotSymmetric(a: Vector, b: Vector)
    requires |a| == |b|
    ensures Dot(a, b) == Dot(b, a)
  {
    DotIsSumOfProducts(a, b);
    DotIsSumOfProducts(b, a);
    SumOfProductsSymmetric(a, b);
  }

  lemma {:induction false} SumOfProductsSymmetric(a: Vector, b: Vector)
    requires |a| == |b|
    ensures SumOfProducts(a, b) == SumOfProducts(b, a)
  {
    if |a| > 0 {
      SumOfProductsSymmetric(a[1..], b[1..]);
    }
  }

  /** `compare(vectorA, vectorB)`. */
  function Compare(a: Vector, b: Vector): (r: Score)
    ensures r.Finite? <==> |a| <= |b|
    ensures r.Finite? ==> r.value == SumOfProducts(a, b)
    ensures |a| == 0 ==> r == Finite(0.0)
  {
    if |a| <= |b| then
      DotIsSumOfProducts(a, b);
      Finite(Dot(a, b))
    else
      NaN
  }

  /** An `ArrayBuffer` holding whole Float32 words; the byte-level encoding is
      not modelled, `View` is `new Float32Array(buffer)`. */
  datatype Buffer = Buffer(floats: seq<real>)

  function View(buffer: Buffer): Vector
  {
    buffer.floats
  }

  /** `compareBuffers(vectorA, vectorB)`: the score of the two decoded vectors. */
  function CompareBuffers(a: Buffer, b: Buffer): (r: Score)
    ensures r.Finite? <==> |View(a)| <= |View(b)|
    ensures r.Finite? ==> r.value == SumOfProducts(View(a), View(b))
    ensures |View(a)| == 0 ==> r == Finite(0.0)
  {
    Compare(View(a), View(b))
  }

  /** A row of the `vectors` table: the chunk it belongs to and its vector. */
  datatype VectorRow = VectorRow(chunkId: ChunkId, values: Vector)

  /** One entry of a ranking, `{ score, id }`. */
  datatype Scored = Scored(score: real, id: ChunkId)

  function ScoreOf(entry: Scored): real
  {
    entry.score
  }

  /** The read of the `vectors` table takes at most this many rows. */
  const TakeLimit: nat := 1300

  /** The rows `compareTo` reads: the first `TakeLimit` rows in table order. */
  function Considered(vectors: seq<VectorRow>): (r: seq<VectorRow>)
    ensures |r| <= TakeLimit
    ensures |r| == if |vectors| < TakeLimit then |vectors| else TakeLimit
    ensures r == vectors[..|r|]
  {
    if |vectors| <= TakeLimit then vectors else vectors[..TakeLimit]
  }

  /** Every row is at least as long as the target, so no score is `NaN`. This
      holds in a deployment where all vectors share one dimension. */
  ghost predicate Comparable(target: Vector, rows: seq<VectorRow>)
  {
    forall i :: 0 <= i < |rows| ==> |target| <= |rows[i].values|
  }

  /** Each row's score against the target, with the row's chunk id, in row
      order. */
  function ScoreRows(target: Vector, rows: seq<VectorRow>): (r: seq<Scored>)
    requires Comparable(target, rows)
    ensures |r| == |rows|
    ensures forall i :: 0 <= i < |rows| ==>
      r[i].id == rows[i].chunkId && Compare(target, rows[i].values) == Finite(r[i].score)
  {
    seq(|rows|, i requires 0 <= i < |rows| => Scored(Dot(target, rows[i].values), rows[i].chunkId))
  }

  /** `compareTo(db, target)`: score the considered rows, then sort them by
      non-increasing score; equal scores keep table order (no id tie-break). */
  function CompareTo(vectors: seq<VectorRow>, target: Vector): (r: seq<Scored>)
    requires Comparable(target, Considered(vectors))
    ensures |r| == |Considered(vectors)|
    ensures multiset(r) == multiset(ScoreRows(target, Considered(vectors)))
    ensures SortedDesc(r, ScoreOf)
  {
    SortDesc(ScoreRows(target, Considered(vectors)), ScoreOf)
  }

  /** Each ranked entry carries the score of one considered row for that row's
      chunk. */
  lemma {:induction false} CompareToScores(vectors: seq<VectorRow>, target: Vector, i: nat)
    requires Comparable(target, Considered(vectors))
    requires i < |CompareTo(vectors, target)|
    ensures exists j ::
              && 0 <= j < |Considered(vectors)|
              && CompareTo(vectors, target)[i].id == vectors[j].chunkId
              && Compare(target, vectors[j].values) == Finite(CompareTo(vectors, target)[i].score)
  {
    var rows := Considered(vectors);
    var scored := ScoreRows(target, rows);
    var r := CompareTo(vectors, target);
    assert r[i] in multiset(scored);
    var j :| 0 <= j < |scored| && scored[j] == r[i];
    assert rows[j] == vectors[j];
  }

  /** Rows past the first `TakeLimit` never influence the ranking. */
  lemma {:induction false} CompareToIgnoresLaterRows(vectors: seq<VectorRow>, more: seq<VectorRow>, target: Vector)
    requires |vectors| >= TakeLimit
    requires Comparable(target, Considered(vectors))
    ensures Considered(vectors + more) == Considered(vectors)
    ensures CompareTo(vectors + more, target) == CompareTo(vectors, target)
  {
    assert (vectors + more)[..TakeLimit] == vectors[..TakeLimit];
  }

  /** Ties keep table order: for each score, the entries with that score are in
      the order of their rows. */
  lemma {:induction false} CompareToTiesKeepTableOrder(vectors: seq<VectorRow>, target: Vector, score: real)
    requires Comparable(target, Considered(vectors))
    ensures WithKey(CompareTo(vectors, target), ScoreOf, score)
         == WithKey(ScoreRows(target, Considered(vectors)), ScoreOf, score)
  {
    SortDescStable(ScoreRows(target, Considered(vectors)), ScoreOf, score);
  }
}
