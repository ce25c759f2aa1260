/**
 * Stable sorting by a key, as Python's `list.sort(key=...)` does it.
 *
 * `SortBy` is the reference definition (insertion of each element after
 * every element whose key is not greater). `InsertionSort` sorts an array in
 * place and is proved to produce exactly `SortBy` of the old contents: both
 * results are sorted and keep, for every key, the elements carrying that key
 * in their original order, and `SortedUnique` shows that these two facts
 * determine the sequence.
 */
module Sorting {

  ghost predicate StrictTotalOrder<K(!new)>(less: (K, K) -> bool)
  {
    && (forall x :: !less(x, x))
    && (forall x, y, z :: less(x, y) && less(y, z) ==> less(x, z))
    && (forall x, y :: x != y ==> less(x, y) || less(y, x))
  }

  /** No element has a key strictly below that of an element before it. */
  ghost predicate SortedBy<T, K>(s: seq<T>, key: T -> K, less: (K, K) -> bool)
  {
    forall i, j :: 0 <= i < j < |s| ==> !less(key(s[j]), key(s[i]))
  }

  /** The elements of `s` whose key is `k`, in their order in `s`. */
  ghost function WithKey<T, K>(s: seq<T>, key: T -> K, k: K): seq<T>
  {
    if |s| == 0 then [] else (if key(s[0]) == k then [s[0]] else []) + WithKey(s[1..], key, k)
  }

  /** For every key, `s` and `t` hold the same elements with that key in the same order. */
  ghost predicate SameKeyOrder<T, K(!new)>(s: seq<T>, t: seq<T>, key: T -> K)
  {
    forall k :: WithKey(s, key, k) == WithKey(t, key, k)
  }

  /** Puts `x` into `s` just before the first element whose key is strictly greater. */
  function Insert<T, K>(x: T, s: seq<T>, key: T -> K, less: (K, K) -> bool): seq<T>
  {
    if |s| == 0 then [x]
    else if less(key(x), key(s[0])) then [x] + s
    else [s[0]] + Insert(x, s[1..], key, less)
  }

  /** Stable sort: the elements of `s`, ordered by key, elements with equal keys in their order in `s`. */
  function SortBy<T, K>(s: seq<T>, key: T -> K, less: (K, K) -> bool): seq<T>
  {
    if |s| == 0 then [] else Insert(s[|s| - 1], SortBy(s[..|s| - 1], key, less), key, less)
  }

  lemma {:induction false} WithKeyConcat<T, K>(s: seq<T>, t: seq<T>, key: T -> K, k: K)
    ensures WithKey(s + t, key, k) == WithKey(s, key, k) + WithKey(t, key, k)
  {
    if |s| > 0 {
      assert (s + t)[0] == s[0];
      assert (s + t)[1..] == s[1..] + t;
      WithKeyConcat(s[1..], t, key, k);
      var h: seq<T> := if key(s[0]) == k then [s[0]] else [];
      calc {
        WithKey(s + t, key, k);
        h + WithKey(s[1..] + t, key, k);
        h + (WithKey(s[1..], key, k) + WithKey(t, key, k));
        (h + WithKey(s[1..], key, k)) + WithKey(t, key, k);
      }
    } else {
      assert s + t == t;
    }
  }

  lemma {:induction false} WithKeyMembers<T, K>(s: seq<T>, key: T -> K, k: K)
    ensures forall x :: x in WithKey(s, key, k) ==> x in s && key(x) == k
  {
    if |s| > 0 {
      WithKeyMembers(s[1..], key, k);
    }
  }

  lemma WithKeyHead<T, K>(s: seq<T>, key: T -> K)
    ensures |s| > 0 ==> WithKey(s, key, key(s[0])) == [s[0]] + WithKey(s[1..], key, key(s[0]))
  {
  }

  lemma {:induction false} InsertMultiset<T, K>(x: T, s: seq<T>, key: T -> K, less: (K, K) -> bool)
    ensures multiset(Insert(x, s, key, less)) == multiset(s) + multiset{x}
  {
    if |s| > 0 && !less(key(x), key(s[0])) {
      InsertMultiset(x, s[1..], key, less);
      assert s == [s[0]] + s[1..];
    }
  }

  /** An element whose key no key of a sorted sequence is below may go in front of it. */
  lemma PrependSorted<T, K>(y: T, t: seq<T>, key: T -> K, less: (K, K) -> bool)
    requires SortedBy(t, key, less)
    requires forall z :: z in t ==> !less(key(z), key(y))
    ensures SortedBy([y] + t, key, less)
  {
    var r := [y] + t;
    forall i, j | 0 <= i < j < |r| ensures !less(key(r[j]), key(r[i])) {
      if i == 0 {
        assert r[j] in t;
      } else {
        assert r[i] == t[i - 1] && r[j] == t[j - 1];
      }
    }
  }

  lemma {:induction false} InsertSorted<T, K(!new)>(x: T, s: seq<T>, key: T -> K, less: (K, K) -> bool)
    requires StrictTotalOrder(less)
    requires SortedBy(s, key, less)
    ensures SortedBy(Insert(x, s, key, less), key, less)
  {
    if |s| > 0 {
      if less(key(x), key(s[0])) {
        forall z | z in s ensures !less(key(z), key(x)) {
          var j :| 0 <= j < |s| && s[j] == z;
          assert j > 0 ==> !less(key(s[j]), key(s[0]));
        }
        PrependSorted(x, s, key, less);
      } else {
        InsertSorted(x, s[1..], key, less);
        InsertMultiset(x, s[1..], key, less);
        var tail := Insert(x, s[1..], key, less);
        forall y | y in tail ensures !less(key(y), key(s[0])) {
          assert y in multiset(tail);
          if y != x {
            var j :| 0 <= j < |s[1..]| && s[1..][j] == y;
            assert s[j + 1] == y;
          }
        }
        PrependSorted(s[0], tail, key, less);
      }
    }
  }

  lemma {:induction false} WithAbsentKey<T, K>(s: seq<T>, key: T -> K, k: K)
    requires forall i :: 0 <= i < |s| ==> key(s[i]) != k
    ensures WithKey(s, key, k) == []
  {
    if |s| > 0 {
      WithAbsentKey(s[1..], key, k);
    }
  }

  /** Keys of a sorted sequence that lie strictly below its first key do not occur in it. */
  lemma BelowFirstKeyAbsent<T, K(!new)>(s: seq<T>, key: T -> K, less: (K, K) -> bool, k: K)
    requires StrictTotalOrder(less)
    requires SortedBy(s, key, less)
    requires |s| > 0 && less(k, key(s[0]))
    ensures WithKey(s, key, k) == []
  {
    forall i | 0 <= i < |s| ensures key(s[i]) != k {
      assert i > 0 ==> !less(key(s[i]), key(s[0]));
    }
    WithAbsentKey(s, key, k);
  }

  lemma WithKeyCons<T, K>(y: T, t: seq<T>, key: T -> K, k: K)
    ensures WithKey([y] + t, key, k) == (if key(y) == k then [y] else []) + WithKey(t, key, k)
  {
    var r := [y] + t;
    assert r[0] == y && r[1..] == t;
  }

  lemma {:induction false} InsertWithKey<T, K(!new)>(x: T, s: seq<T>, key: T -> K, less: (K, K) -> bool, k: K)
    requires StrictTotalOrder(less)
    requires SortedBy(s, key, less)
    ensures WithKey(Insert(x, s, key, less), key, k)
         == WithKey(s, key, k) + (if key(x) == k then [x] else [])
  {
    if |s| == 0 {
    } else if less(key(x), key(s[0])) {
      WithKeyCons(x, s, key, k);
      if key(x) == k {
        BelowFirstKeyAbsent(s, key, less, k);
      }
    } else {
      var tail := Insert(x, s[1..], key, less);
      InsertWithKey(x, s[1..], key, less, k);
      WithKeyCons(s[0], tail, key, k);
      WithKeyHead(s, key);
      WithKeyCons(s[0], s[1..], key, k);
      assert s == [s[0]] + s[1..];
    }
  }

  lemma {:induction false} SortBySorted<T, K(!new)>(s: seq<T>, key: T -> K, less: (K, K) -> bool)
    requires StrictTotalOrder(less)
    ensures SortedBy(SortBy(s, key, less), key, less)
  {
    if |s| > 0 {
      SortBySorted(s[..|s| - 1], key, less);
      InsertSorted(s[|s| - 1], SortBy(s[..|s| - 1], key, less), key, less);
    }
  }

  lemma {:induction false} SortByKeyOrder<T, K(!new)>(s: seq<T>, key: T -> K, less: (K, K) -> bool)
    requires StrictTotalOrder(less)
    ensures SameKeyOrder(SortBy(s, key, less), s, key)
  {
    if |s| > 0 {
      var init := s[..|s| - 1];
      SortByKeyOrder(init, key, less);
      SortBySorted(init, key, less);
      forall k ensures WithKey(SortBy(s, key, less), key, k) == WithKey(s, key, k) {
        InsertWithKey(s[|s| - 1], SortBy(init, key, less), key, less, k);
        WithKeyConcat(init, [s[|s| - 1]], key, k);
        assert s == init + [s[|s| - 1]];
      }
    }
  }

  lemma {:induction false} SortByMultiset<T, K>(s: seq<T>, key: T -> K, less: (K, K) -> bool)
    ensures multiset(SortBy(s, key, less)) == multiset(s)
  {
    if |s| > 0 {
      SortByMultiset(s[..|s| - 1], key, less);
      InsertMultiset(s[|s| - 1], SortBy(s[..|s| - 1], key, less), key, less);
      assert s == s[..|s| - 1] + [s[|s| - 1]];
    }
  }

  lemma NonEmptyHasOwnKey<T, K>(s: seq<T>, key: T -> K)
    ensures |s| > 0 ==> WithKey(s, key, key(s[0])) != []
  {
  }

  /** In sorted sequences with the same elements per key, the first key of `s` is not below that of `t`. */
  lemma HeadKeyNotBelow<T, K(!new)>(s: seq<T>, t: seq<T>, key: T -> K, less: (K, K) -> bool)
    requires StrictTotalOrder(less)
    requires SortedBy(t, key, less)
    requires SameKeyOrder(s, t, key)
    requires |s| > 0 && |t| > 0
    ensures !less(key(s[0]), key(t[0]))
  {
    var ks := key(s[0]);
    NonEmptyHasOwnKey(s, key);
    assert WithKey(t, key, ks) == WithKey(s, key, ks);
    WithKeyMembers(t, key, ks);
    var y := WithKey(t, key, ks)[0];
    var j :| 0 <= j < |t| && t[j] == y;
    assert j > 0 ==> !less(key(t[j]), key(t[0]));
  }

  /** Dropping equal first elements keeps the same elements per key. */
  lemma SameKeyOrderTails<T, K(!new)>(s: seq<T>, t: seq<T>, key: T -> K)
    requires SameKeyOrder(s, t, key)
    requires |s| > 0 && |t| > 0 && s[0] == t[0]
    ensures SameKeyOrder(s[1..], t[1..], key)
  {
    forall k ensures WithKey(s[1..], key, k) == WithKey(t[1..], key, k) {
      var h: seq<T> := if key(s[0]) == k then [s[0]] else [];
      WithKeyCons(s[0], s[1..], key, k);
      WithKeyCons(t[0], t[1..], key, k);
      assert s == [s[0]] + s[1..] && t == [t[0]] + t[1..];
      assert (h + WithKey(s[1..], key, k))[|h|..] == WithKey(s[1..], key, k);
      assert (h + WithKey(t[1..], key, k))[|h|..] == WithKey(t[1..], key, k);
    }
  }

  /** A sorted sequence is determined by the order of the elements within each key. */
  lemma {:induction false} SortedUnique<T, K(!new)>(s: seq<T>, t: seq<T>, key: T -> K, less: (K, K) -> bool)
    requires StrictTotalOrder(less)
    requires SortedBy(s, key, less) && SortedBy(t, key, less)
    requires SameKeyOrder(s, t, key)
    ensures s == t
    decreases |s|
  {
    NonEmptyHasOwnKey(s, key);
    NonEmptyHasOwnKey(t, key);
    assert SameKeyOrder(t, s, key);
    if |s| > 0 && |t| > 0 {
      HeadKeyNotBelow(s, t, key, less);
      HeadKeyNotBelow(t, s, key, less);
      var k := key(s[0]);
      assert k == key(t[0]);
      WithKeyHead(s, key);
      WithKeyHead(t, key);
      assert WithKey(s, key, k)[0] == s[0] && WithKey(t, key, k)[0] == t[0];
      SameKeyOrderTails(s, t, key);
      SortedUnique(s[1..], t[1..], key, less);
      assert s == [s[0]] + s[1..] && t == [t[0]] + t[1..];
    }
  }

  /** Exchanging two neighbours with different keys keeps the order within each key. */
  lemma SwapKeepsKeyOrder<T, K(!new)>(s: seq<T>, j: nat, key: T -> K)
    requires 0 < j < |s| && key(s[j - 1]) != key(s[j])
    ensures SameKeyOrder(s[j - 1 := s[j]][j := s[j - 1]], s, key)
  {
    var a, b := s[..j - 1], s[j + 1..];
    var x, y := s[j - 1], s[j];
    assert s == a + [x, y] + b;
    assert s[j - 1 := s[j]][j := s[j - 1]] == a + [y, x] + b;
    forall k ensures WithKey(a + [y, x] + b, key, k) == WithKey(a + [x, y] + b, key, k) {
      WithKeyConcat(a + [y, x], b, key, k);
      WithKeyConcat(a, [y, x], key, k);
      WithKeyConcat(a + [x, y], b, key, k);
      WithKeyConcat(a, [x, y], key, k);
      assert [x, y][1..] == [y] && [y, x][1..] == [x];
    }
  }

  /**
   * Midway through one pass of the insertion sort: the element being moved
   * sits at `j`, everything before it and everything after it up to `i` is
   * sorted, nothing before it exceeds anything after it, and it is below
   * everything after it.
   */
  ghost predicate Sinking<T, K>(s: seq<T>, j: nat, i: nat, key: T -> K, less: (K, K) -> bool)
    requires j <= i < |s|
  {
    && (forall p, q :: 0 <= p < q < j ==> !less(key(s[q]), key(s[p])))
    && (forall p, q :: j < p < q <= i ==> !less(key(s[q]), key(s[p])))
    && (forall p, q :: 0 <= p < j < q <= i ==> !less(key(s[q]), key(s[p])))
    && (forall q :: j < q <= i ==> less(key(s[j]), key(s[q])))
  }

  /** Exchanging the moving element with a greater one before it keeps the pass's invariant. */
  lemma SinkStep<T, K(!new)>(s: seq<T>, j: nat, i: nat, key: T -> K, less: (K, K) -> bool)
    requires StrictTotalOrder(less)
    requires 0 < j <= i < |s| && Sinking(s, j, i, key, less)
    requires less(key(s[j]), key(s[j - 1]))
    ensures Sinking(s[j - 1 := s[j]][j := s[j - 1]], j - 1, i, key, less)
  {
  }

  /** A pass stops once the moving element is first or not below its predecessor: `s[..i+1]` is sorted. */
  lemma SinkDone<T, K(!new)>(s: seq<T>, j: nat, i: nat, key: T -> K, less: (K, K) -> bool)
    requires StrictTotalOrder(less)
    requires j <= i < |s| && Sinking(s, j, i, key, less)
    requires j == 0 || !less(key(s[j]), key(s[j - 1]))
    ensures forall p, q :: 0 <= p < q <= i ==> !less(key(s[q]), key(s[p]))
  {
  }

  /** One pass of the insertion sort: `a[i]` sinks below every element before it with a greater key. */
  method SinkLast<T, K(!new)>(a: array<T>, i: nat, key: T -> K, less: (K, K) -> bool)
    requires StrictTotalOrder(less)
    requires i < a.Length
    requires forall p, q :: 0 <= p < q < i ==> !less(key(a[q]), key(a[p]))
    modifies a
    ensures forall p, q :: 0 <= p < q <= i ==> !less(key(a[q]), key(a[p]))
    ensures SameKeyOrder(a[..], old(a[..]), key)
  {
    var j := i;
    while j > 0 && less(key(a[j]), key(a[j - 1]))
      invariant 0 <= j <= i
      invariant Sinking(a[..], j, i, key, less)
      invariant SameKeyOrder(a[..], old(a[..]), key)
    {
      SwapKeepsKeyOrder(a[..], j, key);
      SinkStep(a[..], j, i, key, less);
      a[j - 1], a[j] := a[j], a[j - 1];
      j := j - 1;
    }
    SinkDone(a[..], j, i, key, less);
  }

  /** `list.sort(key=key)` on an array, in place: a stable insertion sort by adjacent exchanges. */
  method InsertionSort<T, K(!new)>(a: array<T>, key: T -> K, less: (K, K) -> bool)
    requires StrictTotalOrder(less)
    modifies a
    ensures a[..] == SortBy(old(a[..]), key, less)
  {
    var i := 0;
    while i < a.Length
      invariant 0 <= i <= a.Length
      invariant forall p, q :: 0 <= p < q < i ==> !less(key(a[q]), key(a[p]))
      invariant SameKeyOrder(a[..], old(a[..]), key)
    {
      ghost var before := a[..];
      SinkLast(a, i, key, less);
      assert forall k :: WithKey(a[..], key, k) == WithKey(before, key, k) == WithKey(old(a[..]), key, k);
      i := i + 1;
    }
    SortBySorted(old(a[..]), key, less);
    SortByKeyOrder(old(a[..]), key, less);
    SortedUnique(a[..], SortBy(old(a[..]), key, less), key, less);
  }
}
