/** The sort the repository relies on: `Array.prototype.sort` with a comparator
    that subtracts the first key from the second, i.e. by non-increasing key. ECMAScript (since
    ES2019) requires this sort to be stable: elements with equal keys keep their
    input order. The model is a stable insertion sort; `StableSortIsUnique`
    shows that any sort with these two properties returns the same sequence,
    so the model agrees with whatever algorithm the runtime uses. */
module Sorting {

  /** `s` is ordered by non-increasing key. */
  ghost predicate SortedDesc<T>(s: seq<T>, key: T -> real)
  {
    forall i, j :: 0 <= i < j < |s| ==> key(s[i]) >= key(s[j])
  }

  /** The subsequence of the elements of `s` whose key is `k`, in order. */
  function WithKey<T>(s: seq<T>, key: T -> real, k: real): seq<T>
  {
    if |s| == 0 then []
    else (if key(s[0]) == k then [s[0]] else []) + WithKey(s[1..], key, k)
  }

  /** A first element at least as large as every key of a sorted tail keeps
      the sequence sorted. */
  lemma {:induction false} SortedCons<T>(h: T, t: seq<T>, key: T -> real)
    requires SortedDesc(t, key)
    requires forall i :: 0 <= i < |t| ==> key(h) >= key(t[i])
    ensures SortedDesc([h] + t, key)
  {
    var r := [h] + t;
    forall i, j | 0 <= i < j < |r|
      ensures key(r[i]) >= key(r[j])
    {
      assert r[j] == t[j - 1];
      if i > 0 {
        assert r[i] == t[i - 1];
      }
    }
  }

  /** Inserts `x` after every leading element whose key is at least `key(x)`. */
  function Insert<T>(x: T, s: seq<T>, key: T -> real): (r: seq<T>)
    ensures |r| == |s| + 1
    ensures multiset(r) == multiset(s) + multiset{x}
  {
    if |s| == 0 then [x]
    else if key(s[0]) >= key(x) then
      assert s == [s[0]] + s[1..];
      [s[0]] + Insert(x, s[1..], key)
    else [x] + s
  }

  lemma {:induction false} SortedTail<T>(s: seq<T>, key: T -> real)
    requires |s| > 0 && SortedDesc(s, key)
    ensures SortedDesc(s[1..], key)
    ensures forall i :: 0 <= i < |s| ==> key(s[0]) >= key(s[i])
  {
    forall i, j | 0 <= i < j < |s[1..]|
      ensures key(s[1..][i]) >= key(s[1..][j])
    {
      assert s[1..][i] == s[i + 1] && s[1..][j] == s[j + 1];
    }
  }

  /** Inserting into a sorted sequence keeps it sorted. */
  lemma {:induction false} InsertSorted<T>(x: T, s: seq<T>, key: T -> real)
    requires SortedDesc(s, key)
    ensures SortedDesc(Insert(x, s, key), key)
  {
    if |s| == 0 {
    } else if key(s[0]) >= key(x) {
      SortedTail(s, key);
      InsertSorted(x, s[1..], key);
      var rest := Insert(x, s[1..], key);
      forall i | 0 <= i < |rest|
        ensures key(s[0]) >= key(rest[i])
      {
        assert rest[i] in multiset(rest);
        if rest[i] != x {
          assert rest[i] in multiset(s[1..]);
          assert rest[i] in s[1..];
        }
      }
      SortedCons(s[0], rest, key);
    } else {
      SortedTail(s, key);
      SortedCons(x, s, key);
    }
  }

  /** Stable sort of `s` by non-increasing key. */
  function SortDesc<T>(s: seq<T>, key: T -> real): (r: seq<T>)
    ensures |r| == |s|
    ensures SortedDesc(r, key)
    ensures multiset(r) == multiset(s)
  {
    if |s| == 0 then []
    else
      assert s == s[..|s| - 1] + [s[|s| - 1]];
      var sorted := SortDesc(s[..|s| - 1], key);
      InsertSorted(s[|s| - 1], sorted, key);
      Insert(s[|s| - 1], sorted, key)
  }

  lemma {:induction false} WithKeyConcat<T>(a: seq<T>, b: seq<T>, key: T -> real, k: real)
    ensures WithKey(a + b, key, k) == WithKey(a, key, k) + WithKey(b, key, k)
  {
    if |a| > 0 {
      WithKeyConcat(a[1..], b, key, k);
      assert (a + b)[1..] == a[1..] + b;
    } else {
      assert a + b == b;
    }
  }

  lemma {:induction false} WithKeyAbsent<T>(s: seq<T>, key: T -> real, k: real)
    requires forall i :: 0 <= i < |s| ==> key(s[i]) < k
    ensures WithKey(s, key, k) == []
  {
    if |s| > 0 {
      WithKeyAbsent(s[1..], key, k);
    }
  }

  lemma {:induction false} WithKeySnoc<T>(s: seq<T>, key: T -> real, k: real)
    requires |s| > 0
    ensures WithKey(s, key, k)
         == WithKey(s[..|s| - 1], key, k) + (if key(s[|s| - 1]) == k then [s[|s| - 1]] else [])
  {
    var init, last := s[..|s| - 1], s[|s| - 1];
    assert s == init + [last];
    WithKeyConcat(init, [last], key, k);
    assert WithKey([last], key, k) == (if key(last) == k then [last] else []) + WithKey([], key, k);
  }

  lemma {:induction false} WithKeyOfHead<T>(s: seq<T>, key: T -> real)
    requires |s| > 0
    ensures WithKey(s, key, key(s[0])) != []
  {
  }

  /** In a sorted sequence, the first key is at least every key that occurs. */
  lemma {:induction false} WithKeyBelowHead<T>(s: seq<T>, key: T -> real, k: real)
    requires SortedDesc(s, key)
    requires WithKey(s, key, k) != []
    ensures |s| > 0 && key(s[0]) >= k
  {
    if |s| > 0 && key(s[0]) < k {
      WithKeyAbsent(s, key, k);
    }
  }

  /** Inserting `x` appends it to the elements of its own key and leaves the
      other keys' subsequences alone. */
  lemma {:induction false} InsertStable<T>(x: T, s: seq<T>, key: T -> real, k: real)
    requires SortedDesc(s, key)
    ensures WithKey(Insert(x, s, key), key, k)
         == WithKey(s, key, k) + (if key(x) == k then [x] else [])
  {
    if |s| == 0 {
      assert WithKey([x], key, k) == (if key(x) == k then [x] else []) + WithKey([x][1..], key, k);
    } else if key(s[0]) >= key(x) {
      SortedTail(s, key);
      InsertStable(x, s[1..], key, k);
      InsertAfterHead(x, s, key, k);
    } else {
      InsertAtFront(x, s, key, k);
    }
  }

  /** The step of `InsertStable` where `x` goes after the first element. */
  lemma {:induction false} InsertAfterHead<T>(x: T, s: seq<T>, key: T -> real, k: real)
    requires |s| > 0 && key(s[0]) >= key(x)
    requires WithKey(Insert(x, s[1..], key), key, k)
          == WithKey(s[1..], key, k) + (if key(x) == k then [x] else [])
    ensures WithKey(Insert(x, s, key), key, k)
         == WithKey(s, key, k) + (if key(x) == k then [x] else [])
  {
    var rest := Insert(x, s[1..], key);
    assert Insert(x, s, key) == [s[0]] + rest;
    assert s == [s[0]] + s[1..];
    WithKeyCons(s[0], rest, key, k);
    WithKeyCons(s[0], s[1..], key, k);
  }

  lemma {:induction false} WithKeyCons<T>(a: T, t: seq<T>, key: T -> real, k: real)
    ensures WithKey([a] + t, key, k) == (if key(a) == k then [a] else []) + WithKey(t, key, k)
  {
    assert ([a] + t)[0] == a;
    assert ([a] + t)[1..] == t;
  }

  /** The step of `InsertStable` where `x` goes first: every element of the
      sorted `s` has a smaller key, so none shares the key of `x`. */
  lemma {:induction false} InsertAtFront<T>(x: T, s: seq<T>, key: T -> real, k: real)
    requires SortedDesc(s, key)
    requires |s| > 0 && key(s[0]) < key(x)
    ensures WithKey(Insert(x, s, key), key, k)
         == WithKey(s, key, k) + (if key(x) == k then [x] else [])
  {
    var r := Insert(x, s, key);
    assert r[0] == x && r[1..] == s;
    if key(x) == k {
      SortedTail(s, key);
      WithKeyAbsent(s, key, k);
    }
  }

  /** Stability: for every key, the elements with that key appear in the output
      in the order they had in the input. */
  lemma {:induction false} SortDescStable<T>(s: seq<T>, key: T -> real, k: real)
    ensures WithKey(SortDesc(s, key), key, k) == WithKey(s, key, k)
  {
    if |s| > 0 {
      var init, last := s[..|s| - 1], s[|s| - 1];
      var sorted := SortDesc(init, key);
      var tail := if key(last) == k then [last] else [];
      assert SortDesc(s, key) == Insert(last, sorted, key);
      InsertStable(last, sorted, key, k);
      SortDescStable(init, key, k);
      WithKeySnoc(s, key, k);
    }
  }

  /** Two sorted sequences with the same per-key subsequences are equal. */
  lemma {:induction false} StableSortIsUnique<T>(a: seq<T>, b: seq<T>, key: T -> real)
    requires SortedDesc(a, key) && SortedDesc(b, key)
    requires forall k :: WithKey(a, key, k) == WithKey(b, key, k)
    ensures a == b
  {
    if |a| == 0 && |b| > 0 {
      assert false;
    } else if |a| > 0 && |b| == 0 {
      WithKeyOfHead(a, key);
      assert false;
    } else if |a| > 0 {
      var ka, kb := key(a[0]), key(b[0]);
      assert WithKey(a, key, ka) == [a[0]] + WithKey(a[1..], key, ka);
      assert WithKey(b, key, kb) == [b[0]] + WithKey(b[1..], key, kb);
      WithKeyBelowHead(b, key, ka);
      WithKeyBelowHead(a, key, kb);
      assert ka == kb;
      assert a[0] == WithKey(a, key, ka)[0] == WithKey(b, key, ka)[0] == b[0];
      forall k
        ensures WithKey(a[1..], key, k) == WithKey(b[1..], key, k)
      {
        var head := if key(a[0]) == k then [a[0]] else [];
        var ta, tb := WithKey(a[1..], key, k), WithKey(b[1..], key, k);
        assert WithKey(a, key, k) == head + ta;
        assert WithKey(b, key, k) == head + tb;
        assert ta == (head + ta)[|head|..];
        assert tb == (head + tb)[|head|..];
      }
      StableSortIsUnique(a[1..], b[1..], key);
      assert a == [a[0]] + a[1..] && b == [b[0]] + b[1..];
    }
  }
}
