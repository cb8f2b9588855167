/**
 * A stable sort by a numeric key: the order `Array.prototype.sort` must
 * produce (it is stable since ECMA-262 10th edition, section 22.1.3.27) when
 * its comparator is a difference of keys. Insertion sort is used as the
 * reference definition; `SortUnique` shows that every sorted, stable
 * permutation is this one.
 */
module StableSort {

  predicate SortedBy<T>(s: seq<T>, key: T -> real) {
    forall i, j :: 0 <= i < j < |s| ==> key(s[i]) <= key(s[j])
  }

  /** The elements of `s` whose key is `k`, in their order in `s`. */
  function WithKey<T(!new)>(s: seq<T>, key: T -> real, k: real): (r: seq<T>)
    ensures |r| <= |s|
  {
    if s == [] then []
    else (if key(s[0]) == k then [s[0]] else []) + WithKey(s[1..], key, k)
  }

  /** `WithKey` selects exactly the elements with key `k`. */
  lemma {:induction false} WithKeyMembers<T(!new)>(s: seq<T>, key: T -> real, k: real)
    ensures forall x :: x in WithKey(s, key, k) <==> x in s && key(x) == k
  {
    if s != [] {
      WithKeyMembers(s[1..], key, k);
      assert s == [s[0]] + s[1..];
    }
  }

  /** `x` placed before the first element whose key is not smaller. */
  function Insert<T>(x: T, s: seq<T>, key: T -> real): (r: seq<T>)
    ensures |r| == |s| + 1
  {
    if s == [] then [x]
    else if key(x) <= key(s[0]) then [x] + s
    else [s[0]] + Insert(x, s[1..], key)
  }

  function Sort<T>(s: seq<T>, key: T -> real): (r: seq<T>)
    ensures |r| == |s|
  {
    if s == [] then [] else Insert(s[0], Sort(s[1..], key), key)
  }

  lemma {:induction false} InsertPermutes<T>(x: T, s: seq<T>, key: T -> real)
    ensures multiset(Insert(x, s, key)) == multiset(s) + multiset{x}
  {
    if s != [] && key(s[0]) < key(x) {
      InsertPermutes(x, s[1..], key);
      assert s == [s[0]] + s[1..];
    }
  }

  lemma {:induction false} InsertSorted<T>(x: T, s: seq<T>, key: T -> real)
    requires SortedBy(s, key)
    ensures SortedBy(Insert(x, s, key), key)
    ensures s != [] ==> Insert(x, s, key)[0] == (if key(x) <= key(s[0]) then x else s[0])
  {
    if s != [] && key(s[0]) < key(x) {
      var tail := Insert(x, s[1..], key);
      InsertSorted(x, s[1..], key);
      assert key(s[0]) <= key(tail[0]);
      assert forall i :: 0 <= i < |tail| ==> key(tail[0]) <= key(tail[i]);
    }
  }

  /** One step of `WithKey` on a sequence with a known head. */
  lemma WithKeyCons<T(!new)>(h: T, rest: seq<T>, key: T -> real, k: real)
    ensures WithKey([h] + rest, key, k) == (if key(h) == k then [h] else []) + WithKey(rest, key, k)
  {
    assert ([h] + rest)[1..] == rest;
  }

  lemma {:induction false} InsertKeepsKeyOrder<T(!new)>(x: T, s: seq<T>, key: T -> real, k: real)
    ensures WithKey(Insert(x, s, key), key, k) == (if key(x) == k then [x] else []) + WithKey(s, key, k)
  {
    if s == [] {
      WithKeyCons(x, [], key, k);
      assert [x] + [] == [x];
    } else if key(x) <= key(s[0]) {
      WithKeyCons(x, s, key, k);
    } else {
      var tail := Insert(x, s[1..], key);
      InsertKeepsKeyOrder(x, s[1..], key, k);
      WithKeyCons(s[0], tail, key, k);
      WithKeyCons(s[0], s[1..], key, k);
      assert s == [s[0]] + s[1..];
      if key(x) == k {
        assert key(s[0]) != k;
      } else {
        assert [] + WithKey(s[1..], key, k) == WithKey(s[1..], key, k);
      }
    }
  }

  lemma {:induction false} SortSortedPermutes<T>(s: seq<T>, key: T -> real)
    ensures SortedBy(Sort(s, key), key)
    ensures multiset(Sort(s, key)) == multiset(s)
  {
    if s != [] {
      SortSortedPermutes(s[1..], key);
      InsertSorted(s[0], Sort(s[1..], key), key);
      InsertPermutes(s[0], Sort(s[1..], key), key);
      assert s == [s[0]] + s[1..];
    }
  }

  lemma {:induction false} SortKeepsKeyOrder<T(!new)>(s: seq<T>, key: T -> real, k: real)
    ensures WithKey(Sort(s, key), key, k) == WithKey(s, key, k)
  {
    if s != [] {
      SortKeepsKeyOrder(s[1..], key, k);
      InsertKeepsKeyOrder(s[0], Sort(s[1..], key), key, k);
      WithKeyCons(s[0], s[1..], key, k);
      assert s == [s[0]] + s[1..];
    }
  }

  /** The result is ordered by key, is a permutation of the input, and keeps
      the input order among elements with equal keys. */
  lemma SortCorrect<T(!new)>(s: seq<T>, key: T -> real)
    ensures SortedBy(Sort(s, key), key)
    ensures multiset(Sort(s, key)) == multiset(s)
    ensures forall k :: WithKey(Sort(s, key), key, k) == WithKey(s, key, k)
  {
    SortSortedPermutes(s, key);
    forall k ensures WithKey(Sort(s, key), key, k) == WithKey(s, key, k) {
      SortKeepsKeyOrder(s, key, k);
    }
  }

  /** Two sequences sorted by key that agree on the order within every key
      are equal: a stable sort has exactly one possible result. */
  lemma {:induction false} SortUnique<T(!new)>(a: seq<T>, b: seq<T>, key: T -> real)
    requires SortedBy(a, key) && SortedBy(b, key)
    requires forall k :: WithKey(a, key, k) == WithKey(b, key, k)
    ensures a == b
  {
    assert a != [] ==> WithKey(a, key, key(a[0])) != [];
    assert b != [] ==> WithKey(b, key, key(b[0])) != [];
    if a != [] && b != [] {
      var m, n := key(a[0]), key(b[0]);
      WithKeyMembers(a, key, n);
      WithKeyMembers(b, key, m);
      assert a[0] in WithKey(a, key, m);
      assert b[0] in WithKey(b, key, n);
      assert m <= n && n <= m;
      assert WithKey(a, key, m)[0] == a[0];
      assert WithKey(b, key, m)[0] == b[0];
      assert a[0] == b[0];
      forall k ensures WithKey(a[1..], key, k) == WithKey(b[1..], key, k) {
        assert WithKey(a, key, k) == WithKey(b, key, k);
        if k == m {
          assert WithKey(a[1..], key, k) == WithKey(a, key, k)[1..];
          assert WithKey(b[1..], key, k) == WithKey(b, key, k)[1..];
        } else {
          assert WithKey(a[1..], key, k) == WithKey(a, key, k);
          assert WithKey(b[1..], key, k) == WithKey(b, key, k);
        }
      }
      SortUnique(a[1..], b[1..], key);
      assert a == [a[0]] + a[1..];
      assert b == [b[0]] + b[1..];
    }
  }

  /** Any sorted permutation that keeps equal-key order is `Sort`'s result. */
  lemma StableSortIsSort<T(!new)>(s: seq<T>, r: seq<T>, key: T -> real)
    requires SortedBy(r, key)
    requires forall k :: WithKey(r, key, k) == WithKey(s, key, k)
    ensures r == Sort(s, key)
  {
    SortCorrect(s, key);
    SortUnique(r, Sort(s, key), key);
  }
}
