/** `Array.prototype.sort` with a comparator that subtracts two integer keys
    (`(a, b) => key(a) - key(b)`): a stable sort into ascending key order.
    `SortByKey` is the reference definition (insertion from the back, so
    that equal keys keep their order) and `InsertionSort` sorts an array in
    place to the same result. */
module Sorting {

  predicate SortedBy<T>(s: seq<T>, key: T -> int) {
    forall i, j :: 0 <= i < j < |s| ==> key(s[i]) <= key(s[j])
  }

  /** The elements of `s` whose key is `k`, in their order in `s`. */
  function WithKey<T>(s: seq<T>, key: T -> int, k: int): (r: seq<T>)
    ensures |r| <= |s|
    ensures forall i :: 0 <= i < |r| ==> key(r[i]) == k
  {
    if s == [] then []
    else WithKey(s[..|s| - 1], key, k) + (if key(s[|s| - 1]) == k then [s[|s| - 1]] else [])
  }

  /** `x` placed after the last element of `s` whose key does not exceed its
      own: the elements it passes all have a larger key. */
  function InsertByKey<T>(s: seq<T>, x: T, key: T -> int): (r: seq<T>)
    ensures |r| == |s| + 1
    decreases |s|
  {
    if s == [] || key(s[|s| - 1]) <= key(x) then s + [x]
    else InsertByKey(s[..|s| - 1], x, key) + [s[|s| - 1]]
  }

  /** The stable ascending sort of `s` by `key`. */
  function SortByKey<T>(s: seq<T>, key: T -> int): (r: seq<T>)
    ensures |r| == |s|
    decreases |s|
  {
    if s == [] then []
    else InsertByKey(SortByKey(s[..|s| - 1], key), s[|s| - 1], key)
  }

  /** Insertion adds the element and loses nothing. */
  lemma {:induction false} InsertIsPermutation<T>(s: seq<T>, x: T, key: T -> int)
    ensures multiset(InsertByKey(s, x, key)) == multiset(s) + multiset{x}
    decreases |s|
  {
    if s != [] && key(s[|s| - 1]) > key(x) {
      var init := s[..|s| - 1];
      InsertIsPermutation(init, x, key);
      assert s == init + [s[|s| - 1]];
    }
  }

  /** The sort is a permutation of its input. */
  lemma {:induction false} SortIsPermutation<T>(s: seq<T>, key: T -> int)
    ensures multiset(SortByKey(s, key)) == multiset(s)
    decreases |s|
  {
    if s != [] {
      var init := s[..|s| - 1];
      var last := s[|s| - 1];
      SortIsPermutation(init, key);
      InsertIsPermutation(SortByKey(init, key), last, key);
      assert SortByKey(s, key) == InsertByKey(SortByKey(init, key), last, key);
      assert s == init + [last];
      assert multiset(s) == multiset(init) + multiset{last};
    }
  }

  lemma WithKeyAppend<T>(s: seq<T>, t: seq<T>, key: T -> int, k: int)
    ensures WithKey(s + t, key, k) == WithKey(s, key, k) + WithKey(t, key, k)
    decreases |t|
  {
    if t == [] {
      assert s + t == s;
    } else {
      var t' := t[..|t| - 1];
      assert (s + t)[..|s + t| - 1] == s + t';
      WithKeyAppend(s, t', key, k);
    }
  }

  /** Inserting into a sorted sequence keeps it sorted. */
  lemma {:induction false} InsertKeepsSorted<T>(s: seq<T>, x: T, key: T -> int)
    requires SortedBy(s, key)
    ensures SortedBy(InsertByKey(s, x, key), key)
    decreases |s|
  {
    if s == [] || key(s[|s| - 1]) <= key(x) {
    } else {
      var init := s[..|s| - 1];
      InsertKeepsSorted(init, x, key);
      InsertIsPermutation(init, x, key);
      var r := InsertByKey(init, x, key);
      assert forall i :: 0 <= i < |r| ==> key(r[i]) <= key(s[|s| - 1]) by {
        forall i | 0 <= i < |r|
          ensures key(r[i]) <= key(s[|s| - 1])
        {
          assert r[i] in multiset(r);
          assert r[i] in multiset(init) || r[i] == x;
          if r[i] != x {
            var m :| 0 <= m < |init| && init[m] == r[i];
            assert s[m] == r[i];
          }
        }
      }
    }
  }

  /** Insertion keeps the order of equal keys: the inserted element comes
      after every element with its key. */
  lemma {:induction false} InsertKeepsKeyOrder<T>(s: seq<T>, x: T, key: T -> int, k: int)
    ensures WithKey(InsertByKey(s, x, key), key, k)
         == WithKey(s, key, k) + (if key(x) == k then [x] else [])
    decreases |s|
  {
    if s == [] || key(s[|s| - 1]) <= key(x) {
      WithKeyAppend(s, [x], key, k);
    } else {
      var init := s[..|s| - 1];
      var last := s[|s| - 1];
      assert s == init + [last];
      InsertKeepsKeyOrder(init, x, key, k);
      PassedKeepsKeyOrder(init, last, InsertByKey(init, x, key), x, key, k);
    }
  }

  /** An element passed by the insertion, having a larger key than the
      inserted one, does not change how the elements of key `k` are
      ordered. */
  lemma PassedKeepsKeyOrder<T>(init: seq<T>, last: T, inserted: seq<T>, x: T, key: T -> int, k: int)
    requires key(last) > key(x)
    requires WithKey(inserted, key, k) == WithKey(init, key, k) + (if key(x) == k then [x] else [])
    ensures WithKey(inserted + [last], key, k)
         == WithKey(init + [last], key, k) + (if key(x) == k then [x] else [])
  {
    WithKeyAppend(inserted, [last], key, k);
    WithKeyAppend(init, [last], key, k);
    if key(x) == k {
      assert WithKey([last], key, k) == [];
    }
  }

  /** The sort orders by key. */
  lemma {:induction false} SortIsSorted<T>(s: seq<T>, key: T -> int)
    ensures SortedBy(SortByKey(s, key), key)
    decreases |s|
  {
    if s != [] {
      SortIsSorted(s[..|s| - 1], key);
      InsertKeepsSorted(SortByKey(s[..|s| - 1], key), s[|s| - 1], key);
    }
  }

  /** The sort is stable: elements with the same key keep their relative
      order. With `SortIsSorted` and the multiset contract this determines
      the result. */
  lemma {:induction false} SortIsStable<T>(s: seq<T>, key: T -> int, k: int)
    ensures WithKey(SortByKey(s, key), key, k) == WithKey(s, key, k)
    decreases |s|
  {
    if s != [] {
      var init, last := s[..|s| - 1], s[|s| - 1];
      SortIsStable(init, key, k);
      InsertKeepsKeyOrder(SortByKey(init, key), last, key, k);
    }
  }

  /** A sequence already in key order is left as it is. */
  lemma {:induction false} SortedIsFixed<T>(s: seq<T>, key: T -> int)
    requires SortedBy(s, key)
    ensures SortByKey(s, key) == s
    decreases |s|
  {
    if s != [] {
      var init, last := s[..|s| - 1], s[|s| - 1];
      assert SortedBy(init, key) by {
        forall i, j | 0 <= i < j < |init|
          ensures key(init[i]) <= key(init[j])
        {
          assert init[i] == s[i] && init[j] == s[j];
        }
      }
      SortedIsFixed(init, key);
      if init != [] {
        assert key(s[|s| - 2]) <= key(last);
      }
      assert s == init + [last];
    }
  }

  /** A sequence that holds `s` with `x` at position `j` is that splice. */
  lemma SplicedLayout<T>(s: seq<T>, j: int, x: T, b: seq<T>)
    requires 0 <= j <= |s| && |b| == |s| + 1 && b[j] == x
    requires forall k :: 0 <= k < j ==> b[k] == s[k]
    requires forall k :: j < k <= |s| ==> b[k] == s[k - 1]
    ensures b == s[..j] + [x] + s[j..]
  {
    var spliced := s[..j] + [x] + s[j..];
    forall k | 0 <= k < |b|
      ensures b[k] == spliced[k]
    {
      if k < j {
        assert spliced[k] == s[k];
      } else if k > j {
        assert spliced[k] == s[k - 1];
      }
    }
  }

  /** Two sequences that agree from `from` on have the same suffix. */
  lemma UnchangedSuffix<T>(s: seq<T>, t: seq<T>, from: int)
    requires 0 <= from <= |s| == |t|
    requires forall k :: from <= k < |s| ==> s[k] == t[k]
    ensures s[from..] == t[from..]
  {
  }

  /** Moves `a[i]` down past the elements before it with a larger key:
      the first `i + 1` elements become the insertion of `a[i]` into the
      first `i`. */
  method InsertAt<T>(a: array<T>, i: int, key: T -> int)
    requires 0 <= i < a.Length
    modifies a
    ensures a[..i + 1] == InsertByKey(old(a[..i]), old(a[i]), key)
    ensures a[i + 1..] == old(a[i + 1..])
  {
    ghost var sorted := a[..i];
    var x := a[i];
    var j := ShiftLarger(a, i, x, key, sorted);
    a[j] := x;
    SplicedLayout(sorted, j, x, a[..i + 1]);
  }

  /** Shifts the elements before `a[i]` whose key is larger than that of
      `x` one place up, and returns the gap they leave: the place where the
      insertion of `x` puts it. */
  method ShiftLarger<T>(a: array<T>, i: int, x: T, key: T -> int, ghost sorted: seq<T>) returns (j: int)
    requires 0 <= i < a.Length && sorted == a[..i]
    modifies a
    ensures 0 <= j <= i
    ensures forall k :: 0 <= k < j ==> a[k] == sorted[k]
    ensures forall k :: j < k <= i ==> a[k] == sorted[k - 1]
    ensures a[i + 1..] == old(a[i + 1..])
    ensures InsertByKey(sorted, x, key) == sorted[..j] + [x] + sorted[j..]
  {
    j := i;
    while j > 0 && key(a[j - 1]) > key(x)
      invariant 0 <= j <= i
      invariant forall k :: 0 <= k < j ==> a[k] == sorted[k]
      invariant forall k :: j < k <= i ==> a[k] == sorted[k - 1]
      invariant a[i + 1..] == old(a[i + 1..])
      invariant forall k :: j <= k < i ==> key(sorted[k]) > key(x)
    {
      a[j] := a[j - 1];
      j := j - 1;
    }
    InsertLands(sorted, j, x, key);
  }

  /** Insertion puts `x` behind the last element whose key does not exceed
      its own, after which every key is larger. */
  lemma {:induction false} InsertLands<T>(s: seq<T>, j: int, x: T, key: T -> int)
    requires 0 <= j <= |s|
    requires j == 0 || key(s[j - 1]) <= key(x)
    requires forall k :: j <= k < |s| ==> key(s[k]) > key(x)
    ensures InsertByKey(s, x, key) == s[..j] + [x] + s[j..]
    decreases |s|
  {
    if j == |s| {
      assert s[..j] == s && s[j..] == [];
    } else {
      var init, last := s[..|s| - 1], s[|s| - 1];
      assert init[..j] == s[..j];
      if j > 0 {
        assert init[j - 1] == s[j - 1];
      }
      InsertLands(init, j, x, key);
      assert s[j..] == init[j..] + [last];
    }
  }

  /** Sorts `a` in place, stably, by ascending key. */
  method InsertionSort<T>(a: array<T>, key: T -> int)
    modifies a
    ensures a[..] == SortByKey(old(a[..]), key)
  {
    ghost var original := a[..];
    var i := 0;
    while i < a.Length
      invariant 0 <= i <= a.Length
      invariant a[..i] == SortByKey(original[..i], key)
      invariant a[i..] == original[i..]
    {
      assert a[i] == original[i] && a[i + 1..] == original[i + 1..];
      InsertAt(a, i, key);
      SortPrefixStep(original, i, key);
      i := i + 1;
    }
    assert a[..] == a[..a.Length];
    assert original == original[..a.Length];
  }

  /** Sorting one more element of a prefix inserts it into the sorted
      shorter prefix. */
  lemma SortPrefixStep<T>(s: seq<T>, i: int, key: T -> int)
    requires 0 <= i < |s|
    ensures SortByKey(s[..i + 1], key) == InsertByKey(SortByKey(s[..i], key), s[i], key)
  {
    assert s[..i + 1][..i] == s[..i];
  }

  /** An element that occurs twice in `s` sits at two positions of it. */
  lemma TwoOccurrences<T>(s: seq<T>, x: T)
    requires multiset(s)[x] >= 2
    ensures exists p, q :: 0 <= p < q < |s| && s[p] == x && s[q] == x
  {
    assert x in multiset(s);
    var p :| 0 <= p < |s| && s[p] == x;
    var rest := s[..p] + s[p + 1..];
    assert s == s[..p] + [x] + s[p + 1..];
    assert multiset(rest)[x] >= 1;
    assert x in multiset(rest);
    var k :| 0 <= k < |rest| && rest[k] == x;
    if k < p {
      assert s[k] == x;
    } else {
      assert s[k + 1] == x;
    }
  }

  /** Two positions of a permutation come from two positions of the
      original. */
  lemma PermutationPositions<T>(s: seq<T>, t: seq<T>, i: int, j: int)
    requires multiset(s) == multiset(t)
    requires 0 <= i < j < |t|
    ensures exists p, q :: 0 <= p < |s| && 0 <= q < |s| && p != q && s[p] == t[i] && s[q] == t[j]
  {
    assert t[i] in multiset(t) && t[j] in multiset(t);
    if t[i] == t[j] {
      assert t == t[..j] + [t[j]] + t[j + 1..];
      assert t[..j] == t[..i] + [t[i]] + t[i + 1..j];
      assert multiset(t)[t[i]] >= 2;
      TwoOccurrences(s, t[i]);
    } else {
      assert t[i] in multiset(s) && t[j] in multiset(s);
      var p :| 0 <= p < |s| && s[p] == t[i];
      var q :| 0 <= q < |s| && s[q] == t[j];
    }
  }
}
