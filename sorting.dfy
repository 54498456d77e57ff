/**
 * Python's `sorted(xs, key=...)`: an insertion sort on a real-valued key,
 * with the facts callers rely on: sortedness, permutation and stability.
 */
module Sorting {

  predicate SortedBy<T>(s: seq<T>, key: T -> real)
  {
    forall i, j | 0 <= i < j < |s| :: key(s[i]) <= key(s[j])
  }

  /** Insert `x` after every element whose key is at most x's key (so equal keys keep input order). */
  function InsertBy<T>(x: T, s: seq<T>, key: T -> real): seq<T>
  {
    if s == [] then [x]
    else if key(x) < key(s[0]) then [x] + s
    else [s[0]] + InsertBy(x, s[1..], key)
  }

  /** Inserting adds x and nothing else. */
  lemma {:induction false} InsertByPermutes<T>(x: T, s: seq<T>, key: T -> real)
    ensures multiset(InsertBy(x, s, key)) == multiset(s) + multiset{x}
    ensures |InsertBy(x, s, key)| == |s| + 1
  {
    if s != [] && key(x) >= key(s[0]) {
      InsertByPermutes(x, s[1..], key);
      assert s == [s[0]] + s[1..];
    }
  }

  function SortBy<T>(s: seq<T>, key: T -> real): (r: seq<T>)
    ensures multiset(r) == multiset(s)
    ensures |r| == |s|
  {
    if s == [] then []
    else
      assert s == s[..|s| - 1] + [s[|s| - 1]];
      InsertByPermutes(s[|s| - 1], SortBy(s[..|s| - 1], key), key);
      InsertBy(s[|s| - 1], SortBy(s[..|s| - 1], key), key)
  }

  lemma {:induction false} InsertBySorted<T>(x: T, s: seq<T>, key: T -> real)
    requires SortedBy(s, key)
    ensures SortedBy(InsertBy(x, s, key), key)
  {
    if s != [] && key(x) >= key(s[0]) {
      InsertBySorted(x, s[1..], key);
      InsertByAbove(x, s[1..], key, key(s[0]));
      var r := InsertBy(x, s[1..], key);
      assert InsertBy(x, s, key) == [s[0]] + r;
    }
  }

  /** Inserting into keys at or above `lo` a key at or above `lo` keeps every key at or above `lo`. */
  lemma {:induction false} InsertByAbove<T>(x: T, s: seq<T>, key: T -> real, lo: real)
    requires lo <= key(x) && forall i | 0 <= i < |s| :: lo <= key(s[i])
    ensures forall j | 0 <= j < |InsertBy(x, s, key)| :: lo <= key(InsertBy(x, s, key)[j])
  {
    if s != [] && key(x) >= key(s[0]) {
      InsertByAbove(x, s[1..], key, lo);
      var r := InsertBy(x, s[1..], key);
      assert InsertBy(x, s, key) == [s[0]] + r;
    }
  }

  /** The sorted output is in ascending key order. */
  lemma {:induction false} SortBySorted<T>(s: seq<T>, key: T -> real)
    ensures SortedBy(SortBy(s, key), key)
  {
    if s != [] {
      SortBySorted(s[..|s| - 1], key);
      InsertBySorted(s[|s| - 1], SortBy(s[..|s| - 1], key), key);
    }
  }

  /** The head of a sorted non-empty sequence has the least key of all its elements. */
  lemma {:induction false} SortedHeadIsLeast<T>(s: seq<T>, key: T -> real, x: T)
    requires x in multiset(s)
    ensures |SortBy(s, key)| > 0
    ensures key(SortBy(s, key)[0]) <= key(x)
  {
    var r := SortBy(s, key);
    SortBySorted(s, key);
    assert x in multiset(r);
    var j :| 0 <= j < |r| && r[j] == x;
    if j > 0 {
      assert key(r[0]) <= key(r[j]);
    }
  }

  /** The elements whose key is exactly k, in order. */
  function WithKey<T>(s: seq<T>, key: T -> real, k: real): seq<T>
  {
    if s == [] then [] else (if key(s[0]) == k then [s[0]] else []) + WithKey(s[1..], key, k)
  }

  lemma {:induction false} WithKeyAppend<T>(a: seq<T>, b: seq<T>, key: T -> real, k: real)
    ensures WithKey(a + b, key, k) == WithKey(a, key, k) + WithKey(b, key, k)
  {
    if a != [] {
      assert (a + b)[0] == a[0] && (a + b)[1..] == a[1..] + b;
      WithKeyAppend(a[1..], b, key, k);
    } else {
      assert a + b == b;
    }
  }

  /** No element has key k when every key lies above k. */
  lemma {:induction false} WithKeyAbove<T>(s: seq<T>, key: T -> real, k: real)
    requires forall i | 0 <= i < |s| :: k < key(s[i])
    ensures WithKey(s, key, k) == []
  {
    if s != [] {
      WithKeyAbove(s[1..], key, k);
    }
  }

  /** Inserting x into a sorted sequence puts it after every element of equal key. */
  lemma {:induction false} InsertByWithKey<T>(x: T, s: seq<T>, key: T -> real, k: real)
    requires SortedBy(s, key)
    ensures WithKey(InsertBy(x, s, key), key, k) == WithKey(s, key, k) + (if key(x) == k then [x] else [])
  {
    if s == [] {
      WithKeySingle(x, key, k);
    } else if key(x) < key(s[0]) {
      InsertFrontWithKey(x, s, key, k);
    } else {
      var r := InsertBy(x, s[1..], key);
      InsertByWithKey(x, s[1..], key, k);
      ConsKeepsWithKey(s[0], s[1..], r, if key(x) == k then [x] else [], key, k);
      assert InsertBy(x, s, key) == [s[0]] + r;
      assert [s[0]] + s[1..] == s;
    }
  }

  /** x goes in front when its key is below the least key, which also makes it the last of its key. */
  lemma InsertFrontWithKey<T>(x: T, s: seq<T>, key: T -> real, k: real)
    requires SortedBy(s, key) && s != [] && key(x) < key(s[0])
    ensures WithKey(InsertBy(x, s, key), key, k) == WithKey(s, key, k) + (if key(x) == k then [x] else [])
  {
    if key(x) == k {
      WithKeyAbove(s, key, k);
    }
    WithKeyCons(x, s, key, k);
  }

  /** Putting the same element in front of both sides keeps a "same elements of key k, then t" relation. */
  lemma ConsKeepsWithKey<T>(y: T, s: seq<T>, r: seq<T>, t: seq<T>, key: T -> real, k: real)
    requires WithKey(r, key, k) == WithKey(s, key, k) + t
    ensures WithKey([y] + r, key, k) == WithKey([y] + s, key, k) + t
  {
    var h := if key(y) == k then [y] else [];
    WithKeyCons(y, r, key, k);
    WithKeyCons(y, s, key, k);
    assert h + (WithKey(s, key, k) + t) == (h + WithKey(s, key, k)) + t;
  }

  lemma WithKeyCons<T>(x: T, s: seq<T>, key: T -> real, k: real)
    ensures WithKey([x] + s, key, k) == (if key(x) == k then [x] else []) + WithKey(s, key, k)
  {
    assert ([x] + s)[0] == x && ([x] + s)[1..] == s;
  }

  lemma WithKeySingle<T>(x: T, key: T -> real, k: real)
    ensures WithKey([x], key, k) == if key(x) == k then [x] else []
  {
    assert [x][1..] == [];
  }

  /**
   * The sort is stable: the elements of any one key come out in the order
   * they went in.
   */
  lemma {:induction false} SortByStable<T>(s: seq<T>, key: T -> real, k: real)
    ensures WithKey(SortBy(s, key), key, k) == WithKey(s, key, k)
  {
    if s != [] {
      var init, last := s[..|s| - 1], s[|s| - 1];
      SortByStable(init, key, k);
      SortBySorted(init, key);
      StableStep(init, last, SortBy(init, key), key, k);
      assert s == init + [last];
    }
  }

  /** One step of the sort: inserting the last element into a stable sort of the rest. */
  lemma StableStep<T>(init: seq<T>, last: T, sorted: seq<T>, key: T -> real, k: real)
    requires SortedBy(sorted, key) && WithKey(sorted, key, k) == WithKey(init, key, k)
    ensures WithKey(InsertBy(last, sorted, key), key, k) == WithKey(init + [last], key, k)
  {
    InsertByWithKey(last, sorted, key, k);
    WithKeyAppend(init, [last], key, k);
    WithKeySingle(last, key, k);
  }
}
