/** The stable sort the engine applies to a copy of its input.

    `Array.prototype.sort` has been stable since the 2019 edition of ECMA-262,
    so `[...transactions].sort((a, b) => time(a) - time(b))` orders by
    timestamp and keeps the input order among equal timestamps. Here that is
    an insertion sort on an immutable sequence, specified by what stability
    means: the result is non-decreasing by key, and for every key the
    subsequence of elements carrying that key is the same as in the input. */
module StableSort {

  /** Non-decreasing by `key`. */
  predicate SortedBy<T>(s: seq<T>, key: T -> int) {
    forall i, j :: 0 <= i < j < |s| ==> key(s[i]) <= key(s[j])
  }

  /** The elements of `s` whose key is `k`, in their order in `s`. */
  function WithKey<T>(s: seq<T>, key: T -> int, k: int): (r: seq<T>)
    ensures |r| <= |s|
    ensures forall i :: 0 <= i < |r| ==> key(r[i]) == k
  {
    if |s| == 0 then []
    else (if key(s[0]) == k then [s[0]] else []) + WithKey(s[1..], key, k)
  }

  /** How many elements of `s` satisfy `p`. */
  function Count<T>(s: seq<T>, p: T -> bool): (n: nat)
    ensures n <= |s|
  {
    if |s| == 0 then 0
    else (if p(s[0]) then 1 else 0) + Count(s[1..], p)
  }

  /** Puts `x` into the sorted `s` in front of the first element whose key is
      not smaller than `key(x)`, so `x` precedes every element of equal key. */
  function Insert<T>(x: T, s: seq<T>, key: T -> int): (r: seq<T>)
    ensures |r| == |s| + 1
    ensures r[0] == x || (|s| > 0 && r[0] == s[0])
    ensures multiset(r) == multiset(s) + multiset{x}
  {
    if |s| == 0 || key(x) <= key(s[0]) then
      [x] + s
    else
      assert s == [s[0]] + s[1..];
      [s[0]] + Insert(x, s[1..], key)
  }

  /** Insertion keeps a sorted sequence sorted. */
  lemma {:induction false} InsertSorted<T>(x: T, s: seq<T>, key: T -> int)
    requires SortedBy(s, key)
    ensures SortedBy(Insert(x, s, key), key)
    decreases |s|
  {
    if |s| > 0 && key(x) > key(s[0]) {
      var tail := Insert(x, s[1..], key);
      InsertSorted(x, s[1..], key);
      var r := [s[0]] + tail;
      assert key(s[0]) <= key(tail[0]);
      forall i, j | 0 <= i < j < |r|
        ensures key(r[i]) <= key(r[j])
      {
        if i > 0 {
          assert r[i] == tail[i - 1] && r[j] == tail[j - 1];
        } else {
          assert r[j] == tail[j - 1];
        }
      }
    }
  }

  /** Filtering by key distributes over a leading element. */
  lemma WithKeyCons<T>(x: T, s: seq<T>, key: T -> int, k: int)
    ensures WithKey([x] + s, key, k) == (if key(x) == k then [x] else []) + WithKey(s, key, k)
  {
    assert ([x] + s)[1..] == s;
  }

  /** An element no greater than the head goes in front. */
  lemma InsertFront<T>(x: T, s: seq<T>, key: T -> int)
    requires |s| == 0 || key(x) <= key(s[0])
    ensures Insert(x, s, key) == [x] + s
  {
  }

  /** Insertion puts `x` first among the elements of its key and leaves every
      other key's subsequence alone. */
  lemma {:induction false} InsertWithKey<T>(x: T, s: seq<T>, key: T -> int, k: int)
    ensures WithKey(Insert(x, s, key), key, k) == (if key(x) == k then [x] else []) + WithKey(s, key, k)
    decreases |s|
  {
    if |s| == 0 || key(x) <= key(s[0]) {
      InsertFront(x, s, key);
      WithKeyCons(x, s, key, k);
    } else {
      var tail := Insert(x, s[1..], key);
      assert Insert(x, s, key) == [s[0]] + tail;
      WithKeyCons(s[0], tail, key, k);
      InsertWithKey(x, s[1..], key, k);
      assert s == [s[0]] + s[1..];
      WithKeyCons(s[0], s[1..], key, k);
      if key(x) == k {
        assert key(s[0]) != k;
      }
    }
  }

  /** One step of the sort: inserting the head into the sorted rest keeps the
      sort's contract. */
  lemma SortStep<T>(s: seq<T>, rest: seq<T>, key: T -> int)
    requires |s| > 0 && SortedBy(rest, key)
    requires multiset(rest) == multiset(s[1..])
    requires forall k :: WithKey(rest, key, k) == WithKey(s[1..], key, k)
    ensures SortedBy(Insert(s[0], rest, key), key)
    ensures multiset(Insert(s[0], rest, key)) == multiset(s)
    ensures forall k :: WithKey(Insert(s[0], rest, key), key, k) == WithKey(s, key, k)
  {
    InsertSorted(s[0], rest, key);
    assert s == [s[0]] + s[1..];
    forall k ensures WithKey(Insert(s[0], rest, key), key, k) == WithKey(s, key, k) {
      InsertWithKey(s[0], rest, key, k);
      WithKeyCons(s[0], s[1..], key, k);
    }
  }

  /** A stable sort of `s` by `key`. */
  function SortBy<T>(s: seq<T>, key: T -> int): (r: seq<T>)
    ensures |r| == |s|
    ensures SortedBy(r, key)
    ensures multiset(r) == multiset(s)
    ensures forall k :: WithKey(r, key, k) == WithKey(s, key, k)
  {
    if |s| == 0 then []
    else
      var rest := SortBy(s[1..], key);
      SortStep(s, rest, key);
      Insert(s[0], rest, key)
  }

  /** A sequence already sorted by `key` is left as it is; in particular
      sorting twice is sorting once. */
  lemma {:induction false} SortSortedIsIdentity<T>(s: seq<T>, key: T -> int)
    requires SortedBy(s, key)
    ensures SortBy(s, key) == s
    decreases |s|
  {
    if |s| > 0 {
      assert SortedBy(s[1..], key);
      SortSortedIsIdentity(s[1..], key);
      InsertFront(s[0], s[1..], key);
      assert s == [s[0]] + s[1..];
    }
  }

  /** Sorting is idempotent. */
  lemma SortIdempotent<T>(s: seq<T>, key: T -> int)
    ensures SortBy(SortBy(s, key), key) == SortBy(s, key)
  {
    SortSortedIsIdentity(SortBy(s, key), key);
  }

  /** Inserting one element adds one to the count exactly when it qualifies. */
  lemma {:induction false} InsertCount<T>(x: T, s: seq<T>, key: T -> int, p: T -> bool)
    ensures Count(Insert(x, s, key), p) == (if p(x) then 1 else 0) + Count(s, p)
    decreases |s|
  {
    var r := Insert(x, s, key);
    if |s| == 0 || key(x) <= key(s[0]) {
      assert r[1..] == s;
    } else {
      assert r[1..] == Insert(x, s[1..], key);
      InsertCount(x, s[1..], key, p);
    }
  }

  /** Sorting neither adds nor drops elements satisfying any predicate. */
  lemma {:induction false} SortPreservesCount<T>(s: seq<T>, key: T -> int, p: T -> bool)
    ensures Count(SortBy(s, key), p) == Count(s, p)
    decreases |s|
  {
    if |s| > 0 {
      SortPreservesCount(s[1..], key, p);
      InsertCount(s[0], SortBy(s[1..], key), key, p);
    }
  }

  /** Counting distributes over concatenation. */
  lemma {:induction false} CountConcat<T>(a: seq<T>, b: seq<T>, p: T -> bool)
    ensures Count(a + b, p) == Count(a, p) + Count(b, p)
    decreases |a|
  {
    if |a| > 0 {
      assert (a + b)[1..] == a[1..] + b;
      CountConcat(a[1..], b, p);
    } else {
      assert a + b == b;
    }
  }
}
