/** Stable sorting by a key, as the annotator gets it from its library. */
module Sorting {

  /** `x` behind everything in the sorted list `s` whose key is not above its own. */
  function InsertSorted<T>(s: seq<T>, x: T, key: T -> int): (r: seq<T>)
    ensures |r| == |s| + 1
  {
    if s == [] || key(s[|s| - 1]) <= key(x) then s + [x]
    else InsertSorted(s[..|s| - 1], x, key) + [s[|s| - 1]]
  }

  function StableSort<T>(s: seq<T>, key: T -> int): (r: seq<T>)
    ensures |r| == |s|
  {
    if s == [] then [] else InsertSorted(StableSort(s[..|s| - 1], key), s[|s| - 1], key)
  }

  predicate SortedBy<T>(s: seq<T>, key: T -> int) {
    forall i, j :: 0 <= i < j < |s| ==> key(s[i]) <= key(s[j])
  }

  lemma SortedAt<T>(s: seq<T>, key: T -> int, i: nat, j: nat)
    requires SortedBy(s, key) && i <= j < |s|
    ensures key(s[i]) <= key(s[j])
  {
  }

  lemma {:induction false} InsertPermutes<T>(s: seq<T>, x: T, key: T -> int)
    ensures multiset(InsertSorted(s, x, key)) == multiset(s) + multiset{x}
  {
    if s == [] || key(s[|s| - 1]) <= key(x) {
    } else {
      var init, last := s[..|s| - 1], s[|s| - 1];
      assert s == init + [last];
      InsertPermutes(init, x, key);
    }
  }

  lemma {:induction false} InsertBelow<T>(s: seq<T>, x: T, key: T -> int, top: int)
    requires key(x) <= top && forall i :: 0 <= i < |s| ==> key(s[i]) <= top
    ensures forall i :: 0 <= i <= |s| ==> key(InsertSorted(s, x, key)[i]) <= top
  {
    if s == [] || key(s[|s| - 1]) <= key(x) {
    } else {
      InsertBelow(s[..|s| - 1], x, key, top);
    }
  }

  lemma {:induction false} InsertKeepsSorted<T>(s: seq<T>, x: T, key: T -> int)
    requires SortedBy(s, key)
    ensures SortedBy(InsertSorted(s, x, key), key)
  {
    if s == [] || key(s[|s| - 1]) <= key(x) {
    } else {
      var init, last := s[..|s| - 1], s[|s| - 1];
      InsertKeepsSorted(init, x, key);
      InsertBelow(init, x, key, key(last));
    }
  }

  /** The result is sorted and a permutation. */
  lemma {:induction false} StableSortSorts<T>(s: seq<T>, key: T -> int)
    ensures SortedBy(StableSort(s, key), key) && multiset(StableSort(s, key)) == multiset(s)
  {
    if s != [] {
      assert s == s[..|s| - 1] + [s[|s| - 1]];
      StableSortSorts(s[..|s| - 1], key);
      InsertKeepsSorted(StableSort(s[..|s| - 1], key), s[|s| - 1], key);
      InsertPermutes(StableSort(s[..|s| - 1], key), s[|s| - 1], key);
    }
  }

  /** A sorted list is left as it is. */
  lemma {:induction false} StableSortKeeps<T>(s: seq<T>, key: T -> int)
    requires SortedBy(s, key)
    ensures StableSort(s, key) == s
  {
    if s != [] {
      StableSortKeeps(s[..|s| - 1], key);
      assert s == s[..|s| - 1] + [s[|s| - 1]];
    }
  }

  /** Where an element goes: right behind the part of the list that is not above it. */
  lemma {:induction false} InsertSplits<T>(low: seq<T>, high: seq<T>, x: T, key: T -> int)
    requires forall i :: 0 <= i < |low| ==> key(low[i]) <= key(x)
    requires forall i :: 0 <= i < |high| ==> key(high[i]) > key(x)
    ensures InsertSorted(low + high, x, key) == low + [x] + high
    decreases |high|
  {
    if high == [] {
      assert low + high == low;
    } else {
      var init, last := high[..|high| - 1], high[|high| - 1];
      assert (low + high)[..|low + high| - 1] == low + init;
      InsertSplits(low, init, x, key);
      assert low + [x] + init + [last] == low + [x] + high;
    }
  }

  /** Sorting one more element at the end. */
  lemma SortAppends<T>(s: seq<T>, x: T, low: seq<T>, high: seq<T>, key: T -> int)
    requires StableSort(s, key) == low + high
    requires forall i :: 0 <= i < |low| ==> key(low[i]) <= key(x)
    requires forall i :: 0 <= i < |high| ==> key(high[i]) > key(x)
    ensures StableSort(s + [x], key) == low + [x] + high
  {
    assert (s + [x])[..|s|] == s;
    InsertSplits(low, high, x, key);
  }

  /** The elements with a given key keep their order, which is what makes the sort stable. */
  function WithKey<T>(s: seq<T>, key: T -> int, k: int): seq<T> {
    if s == [] then []
    else WithKey(s[..|s| - 1], key, k) + (if key(s[|s| - 1]) == k then [s[|s| - 1]] else [])
  }

  lemma {:induction false} InsertIsStable<T>(s: seq<T>, x: T, key: T -> int, k: int)
    requires SortedBy(s, key)
    ensures WithKey(InsertSorted(s, x, key), key, k) == WithKey(s, key, k) + (if key(x) == k then [x] else [])
  {
    var r := InsertSorted(s, x, key);
    if s == [] || key(s[|s| - 1]) <= key(x) {
      assert r[..|r| - 1] == s;
    } else {
      var init, last := s[..|s| - 1], s[|s| - 1];
      assert r[..|r| - 1] == InsertSorted(init, x, key);
      InsertIsStable(init, x, key, k);
      if key(x) == k && key(last) == k {
        assert false;
      }
      if key(last) == k {
        assert WithKey(init, key, k) + [] + [last] == WithKey(s, key, k);
      }
    }
  }

  lemma {:induction false} StableSortIsStable<T>(s: seq<T>, key: T -> int, k: int)
    ensures WithKey(StableSort(s, key), key, k) == WithKey(s, key, k)
  {
    if s != [] {
      StableSortIsStable(s[..|s| - 1], key, k);
      StableSortSorts(s[..|s| - 1], key);
      InsertIsStable(StableSort(s[..|s| - 1], key), s[|s| - 1], key, k);
    }
  }

  lemma {:induction false} WithKeyCounts<T>(s: seq<T>, key: T -> int, k: int, x: T)
    ensures multiset(WithKey(s, key, k))[x] == if key(x) == k then multiset(s)[x] else 0
  {
    if s != [] {
      WithKeyCounts(s[..|s| - 1], key, k, x);
      assert s == s[..|s| - 1] + [s[|s| - 1]];
    }
  }

  /** Permutations have the same number of elements with a given key. */
  lemma WithKeyPermutes<T(!new)>(s: seq<T>, t: seq<T>, key: T -> int, k: int)
    requires multiset(s) == multiset(t)
    ensures |WithKey(s, key, k)| == |WithKey(t, key, k)|
  {
    var a, b := WithKey(s, key, k), WithKey(t, key, k);
    forall x
      ensures multiset(a)[x] == multiset(b)[x]
    {
      WithKeyCounts(s, key, k, x);
      WithKeyCounts(t, key, k, x);
    }
    assert multiset(a) == multiset(b);
    assert |multiset(a)| == |a| && |multiset(b)| == |b|;
  }
}
