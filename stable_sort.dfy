/** A stable sort by an integer key, the behaviour of Python's `sorted(xs,
    key=k)`. Python's `sorted(xs, key=k, reverse=True)` is also stable: it
    orders by descending key while elements with equal keys keep their input
    order, which is exactly a stable ascending sort by the negated key. */
module StableSort {
  import opened Sequences

  /** Keys never decrease from left to right. */
  ghost predicate Ordered<T>(s: seq<T>, key: T -> int)
  {
    forall i, j :: 0 <= i < j < |s| ==> key(s[i]) <= key(s[j])
  }

  /** The elements of `s` whose key is `k`, in their order in `s`. */
  function WithKey<T(!new)>(s: seq<T>, key: T -> int, k: int): seq<T>
  {
    Filter(s, x => key(x) == k)
  }

  /** The elements with one key value form a subsequence of `s`. */
  lemma WithKeyIsSubsequence<T(!new)>(s: seq<T>, key: T -> int, k: int)
    ensures IsSubsequence(WithKey(s, key, k), s)
  {
    var hasKey := (x: T) => key(x) == k;
    assert WithKey(s, key, k) == Filter(s, hasKey);
    FilterIsSubsequence(s, hasKey);
  }

  /** A stable sort of `s` by `key`: ordered, and every group of elements with
      one key value appears in the same relative order as in `s`. */
  ghost predicate IsStableSortOf<T(!new)>(r: seq<T>, s: seq<T>, key: T -> int)
  {
    && multiset(r) == multiset(s)
    && Ordered(r, key)
    && forall k :: WithKey(r, key, k) == WithKey(s, key, k)
  }

  /** Inserts `x` in front of the first element whose key is at least its own. */
  function Insert<T>(x: T, t: seq<T>, key: T -> int): (r: seq<T>)
    ensures |r| == |t| + 1
  {
    if t == [] then [x]
    else if key(x) <= key(t[0]) then [x] + t
    else [t[0]] + Insert(x, t[1..], key)
  }

  lemma {:induction false} InsertPermutes<T>(x: T, t: seq<T>, key: T -> int)
    ensures multiset(Insert(x, t, key)) == multiset(t) + multiset{x}
  {
    if t != [] && key(t[0]) < key(x) {
      InsertPermutes(x, t[1..], key);
      assert t == [t[0]] + t[1..];
    }
  }

  lemma {:induction false} InsertOrdered<T>(x: T, t: seq<T>, key: T -> int)
    requires Ordered(t, key)
    ensures Ordered(Insert(x, t, key), key)
  {
    if t != [] && key(t[0]) < key(x) {
      var rest := Insert(x, t[1..], key);
      InsertOrdered(x, t[1..], key);
      InsertPermutes(x, t[1..], key);
      forall j | 0 <= j < |rest| ensures key(t[0]) <= key(rest[j]) {
        assert rest[j] in multiset(rest);
        assert rest[j] == x || rest[j] in multiset(t[1..]);
        if rest[j] != x {
          var i :| 0 <= i < |t[1..]| && t[1..][i] == rest[j];
          assert t[i + 1] == rest[j];
        }
      }
      var r := [t[0]] + rest;
      forall i, j | 0 <= i < j < |r| ensures key(r[i]) <= key(r[j]) {
        if i > 0 {
          assert r[i] == rest[i - 1];
        }
        assert r[j] == rest[j - 1];
      }
    }
  }

  /** Insertion sort from the back: the head of `s` is inserted before every
      later element of equal key, so ties keep their input order. */
  function SortBy<T>(s: seq<T>, key: T -> int): (r: seq<T>)
    ensures |r| == |s|
  {
    if s == [] then []
    else Insert(s[0], SortBy(s[1..], key), key)
  }

  /** Sorting neither loses nor duplicates an element. */
  lemma {:induction false} SortByPermutes<T>(s: seq<T>, key: T -> int)
    ensures multiset(SortBy(s, key)) == multiset(s)
  {
    if s != [] {
      SortByPermutes(s[1..], key);
      InsertPermutes(s[0], SortBy(s[1..], key), key);
      assert s == [s[0]] + s[1..];
    }
  }

  /** The keys of a sorted sequence never decrease. */
  lemma {:induction false} SortByOrdered<T>(s: seq<T>, key: T -> int)
    ensures Ordered(SortBy(s, key), key)
  {
    if s != [] {
      SortByOrdered(s[1..], key);
      InsertOrdered(s[0], SortBy(s[1..], key), key);
    }
  }

  lemma {:induction false} InsertOtherKey<T(!new)>(x: T, t: seq<T>, key: T -> int, k: int)
    requires key(x) != k
    ensures WithKey(Insert(x, t, key), key, k) == WithKey(t, key, k)
  {
    if t != [] && key(t[0]) < key(x) {
      InsertOtherKey(x, t[1..], key, k);
      var rest := Insert(x, t[1..], key);
      assert ([t[0]] + rest)[1..] == rest;
      assert t == [t[0]] + t[1..];
    } else if t != [] {
      assert ([x] + t)[1..] == t;
    }
  }

  lemma {:induction false} InsertSameKey<T(!new)>(x: T, t: seq<T>, key: T -> int)
    ensures WithKey(Insert(x, t, key), key, key(x)) == [x] + WithKey(t, key, key(x))
  {
    if t == [] {
    } else if key(x) <= key(t[0]) {
      assert ([x] + t)[1..] == t;
    } else {
      InsertSameKey(x, t[1..], key);
      var rest := Insert(x, t[1..], key);
      assert ([t[0]] + rest)[1..] == rest;
      assert t == [t[0]] + t[1..];
    }
  }

  /** Sorting never reorders two elements with the same key. */
  lemma {:induction false} SortByStable<T(!new)>(s: seq<T>, key: T -> int, k: int)
    ensures WithKey(SortBy(s, key), key, k) == WithKey(s, key, k)
  {
    if s != [] {
      SortByStable(s[1..], key, k);
      var sorted := SortBy(s[1..], key);
      if key(s[0]) == k {
        InsertSameKey(s[0], sorted, key);
      } else {
        InsertOtherKey(s[0], sorted, key, k);
      }
      assert s == [s[0]] + s[1..];
    }
  }

  lemma SortByIsStableSort<T(!new)>(s: seq<T>, key: T -> int)
    ensures IsStableSortOf(SortBy(s, key), s, key)
  {
    SortByPermutes(s, key);
    SortByOrdered(s, key);
    forall k ensures WithKey(SortBy(s, key), key, k) == WithKey(s, key, k) {
      SortByStable(s, key, k);
    }
  }
}
