/** `pruneNull` from convex/lib/utils.ts: drop the `null` entries of a list.
    A list element that may be `null` is an `Option<T>`; the result type `seq<T>`
    has no room for `null`, which is the first promise of the function. */
module Utils {
  import opened Wrappers

  /** The number of non-null entries of `list`. */
  function CountSome<T>(list: seq<Option<T>>): nat
  {
    if |list| == 0 then 0
    else (if list[0].Some? then 1 else 0) + CountSome(list[1..])
  }

  /** Every element of `list` wrapped as non-null. */
  function Lift<T>(list: seq<T>): (r: seq<Option<T>>)
    ensures |r| == |list|
    ensures forall i :: 0 <= i < |r| ==> r[i] == Some(list[i])
  {
    seq(|list|, i requires 0 <= i < |list| => Some(list[i]))
  }

  /** `pruneNull(list)`: the entries of `list` that are not `null`, in order. */
  function PruneNull<T>(list: seq<Option<T>>): (r: seq<T>)
    ensures |r| <= |list|
    ensures forall j :: 0 <= j < |r| ==> Some(r[j]) in list
    ensures forall i :: 0 <= i < |list| && list[i].Some? ==> list[i].value in r
  {
    if |list| == 0 then []
    else
      var rest := PruneNull(list[1..]);
      assert forall i :: 1 <= i < |list| ==> list[i] == list[1..][i - 1];
      if list[0].Some? then [list[0].value] + rest else rest
  }

  /** The result is exactly as long as the number of non-null entries; so it is
      as long as the input iff the input holds no null. */
  lemma {:induction false} PruneNullLength<T>(list: seq<Option<T>>)
    ensures |PruneNull(list)| == CountSome(list)
    ensures |PruneNull(list)| == |list| <==> forall i :: 0 <= i < |list| ==> list[i].Some?
  {
    if |list| > 0 {
      PruneNullLength(list[1..]);
      if forall i :: 0 <= i < |list| ==> list[i].Some? {
        assert forall i :: 0 <= i < |list[1..]| ==> list[1..][i].Some? by {
          forall i | 0 <= i < |list[1..]|
            ensures list[1..][i].Some?
          {
            assert list[1..][i] == list[i + 1];
          }
        }
      }
      if list[0].Some? && |PruneNull(list)| == |list| {
        forall i | 0 <= i < |list|
          ensures list[i].Some?
        {
          if i > 0 {
            assert list[i] == list[1..][i - 1];
          }
        }
      }
      if list[0].None? {
        assert |PruneNull(list)| < |list|;
      }
    }
  }

  /** Each non-null entry is kept, at the position given by the number of
      non-null entries before it: order is preserved and nothing is moved. */
  lemma {:induction false} PruneNullKeepsOrder<T>(list: seq<Option<T>>, i: nat)
    requires i < |list| && list[i].Some?
    ensures CountSome(list[..i]) < |PruneNull(list)|
    ensures PruneNull(list)[CountSome(list[..i])] == list[i].value
  {
    if i == 0 {
      assert list[..i] == [];
    } else {
      PruneNullKeepsOrder(list[1..], i - 1);
      assert list[..i][1..] == list[1..][..i - 1];
      assert list[..i][0] == list[0];
      assert list[1..][i - 1] == list[i];
      var head := if list[0].Some? then [list[0].value] else [];
      assert PruneNull(list) == head + PruneNull(list[1..]);
      assert CountSome(list[..i]) == |head| + CountSome(list[1..][..i - 1]);
    }
  }

  /** `pruneNull` distributes over concatenation. */
  lemma {:induction false} PruneNullConcat<T>(a: seq<Option<T>>, b: seq<Option<T>>)
    ensures PruneNull(a + b) == PruneNull(a) + PruneNull(b)
  {
    if |a| > 0 {
      PruneNullConcat(a[1..], b);
      assert (a + b)[1..] == a[1..] + b;
      assert (a + b)[0] == a[0];
    } else {
      assert a + b == b;
    }
  }

  /** A list without nulls comes back unchanged. */
  lemma {:induction false} PruneNullLift<T>(list: seq<T>)
    ensures PruneNull(Lift(list)) == list
  {
    if |list| > 0 {
      PruneNullLift(list[1..]);
      assert Lift(list)[1..] == Lift(list[1..]);
    }
  }

  /** Pruning a pruned list changes nothing. */
  lemma {:induction false} PruneNullIdempotent<T>(list: seq<Option<T>>)
    ensures PruneNull(Lift(PruneNull(list))) == PruneNull(list)
  {
    PruneNullLift(PruneNull(list));
  }
}
