/**
 * The stable sort by a key that both runtimes provide (`Array.prototype.sort` with a
 * difference comparator, Python's `sorted(key=...)`): a permutation of the input in
 * non-decreasing key order. Stability is stated as: for every key value, the elements
 * with that key come out in the order they went in.
 */
module Sorting {

  predicate SortedBy<T>(s: seq<T>, key: T -> real) {
    forall i, j :: 0 <= i < j < |s| ==> key(s[i]) <= key(s[j])
  }

  /** Puts `x` before the first element whose key is not below its own. */
  function Insert<T(==,!new)>(x: T, t: seq<T>, key: T -> real): (r: seq<T>)
    requires SortedBy(t, key)
    ensures SortedBy(r, key)
    ensures |r| == |t| + 1
    ensures forall y :: y in r <==> y == x || y in t
  {
    if t == [] then [x]
    else if key(x) <= key(t[0]) then
      assert SortedBy([x] + t, key) by {
        forall i, j | 0 <= i < j < |t| + 1 ensures key(([x] + t)[i]) <= key(([x] + t)[j]) {
          if i > 0 { assert ([x] + t)[i] == t[i - 1]; }
          assert ([x] + t)[j] == t[j - 1];
        }
      }
      [x] + t
    else
      var rest := Insert(x, t[1..], key);
      assert t == [t[0]] + t[1..];
      var lo := key(t[0]);
      assert forall k :: 0 <= k < |rest| ==> lo <= key(rest[k]) by {
        forall k | 0 <= k < |rest| ensures lo <= key(rest[k]) {
          if rest[k] != x {
            assert rest[k] in t[1..];
            var m :| 0 <= m < |t[1..]| && t[1..][m] == rest[k];
            assert t[m + 1] == rest[k];
          }
        }
      }
      var r := [t[0]] + rest;
      assert SortedBy(r, key) by {
        forall i, j | 0 <= i < j < |r| ensures key(r[i]) <= key(r[j]) {
          assert r[j] == rest[j - 1];
          if i > 0 { assert r[i] == rest[i - 1]; }
        }
      }
      r
  }

  /** Inserting adds exactly one copy of `x`. */
  lemma {:induction false} InsertPermutes<T(!new)>(x: T, t: seq<T>, key: T -> real)
    requires SortedBy(t, key)
    ensures multiset(Insert(x, t, key)) == multiset(t) + multiset{x}
  {
    if t != [] && key(x) > key(t[0]) {
      InsertPastHead(x, t, key);
      InsertPermutes(x, t[1..], key);
      assert t == [t[0]] + t[1..];
    }
  }

  function Sort<T(==,!new)>(s: seq<T>, key: T -> real): (r: seq<T>)
    ensures SortedBy(r, key)
    ensures |r| == |s|
    ensures forall y :: y in r <==> y in s
  {
    if s == [] then []
    else
      assert s == [s[0]] + s[1..];
      Insert(s[0], Sort(s[1..], key), key)
  }

  /** The sorted copy holds the same elements, each as often as before. */
  lemma {:induction false} SortPermutes<T(!new)>(s: seq<T>, key: T -> real)
    ensures multiset(Sort(s, key)) == multiset(s)
  {
    if s != [] {
      var t := Sort(s[1..], key);
      assert multiset(t) == multiset(s[1..]) by { SortPermutes(s[1..], key); }
      assert multiset(Insert(s[0], t, key)) == multiset(t) + multiset{s[0]} by { InsertPermutes(s[0], t, key); }
      assert multiset(s) == multiset(s[1..]) + multiset{s[0]} by { assert s == [s[0]] + s[1..]; }
    }
  }

  /** The elements of `s` whose key is `k`, in their order in `s`. */
  function WithKey<T>(s: seq<T>, key: T -> real, k: real): (r: seq<T>)
    ensures |r| <= |s|
  {
    if s == [] then []
    else (if key(s[0]) == k then [s[0]] else []) + WithKey(s[1..], key, k)
  }

  /** Filtering a list with one more element in front. */
  lemma WithKeyCons<T>(x: T, t: seq<T>, key: T -> real, k: real)
    ensures WithKey([x] + t, key, k) == (if key(x) == k then [x] else []) + WithKey(t, key, k)
  {
    assert ([x] + t)[0] == x && ([x] + t)[1..] == t;
  }

  /** Past a smaller head, inserting goes on in the tail. */
  lemma InsertPastHead<T(!new)>(x: T, t: seq<T>, key: T -> real)
    requires SortedBy(t, key) && t != [] && key(t[0]) < key(x)
    ensures SortedBy(t[1..], key)
    ensures Insert(x, t, key) == [t[0]] + Insert(x, t[1..], key)
  {
    assert t == [t[0]] + t[1..];
  }

  /** Inserting `x` puts it before every element of its own key. */
  lemma {:induction false} InsertWithKey<T(!new)>(x: T, t: seq<T>, key: T -> real, k: real)
    requires SortedBy(t, key)
    ensures WithKey(Insert(x, t, key), key, k) == (if key(x) == k then [x] else []) + WithKey(t, key, k)
  {
    if t == [] {
    } else if key(x) <= key(t[0]) {
      WithKeyCons(x, t, key, k);
    } else {
      InsertPastHead(x, t, key);
      InsertWithKey(x, t[1..], key, k);
      WithKeyPastHead(x, t[0], t[1..], Insert(x, t[1..], key), key, k);
      assert t == [t[0]] + t[1..];
    }
  }

  /** A head with a smaller key than `x` and `x` never share a key class, so they commute. */
  lemma WithKeyPastHead<T>(x: T, head: T, tail: seq<T>, rest: seq<T>, key: T -> real, k: real)
    requires key(head) < key(x)
    requires WithKey(rest, key, k) == (if key(x) == k then [x] else []) + WithKey(tail, key, k)
    ensures WithKey([head] + rest, key, k) == (if key(x) == k then [x] else []) + WithKey([head] + tail, key, k)
  {
    WithKeyCons(head, rest, key, k);
    WithKeyCons(head, tail, key, k);
  }

  /**
   * The sort is stable: for every key value, the elements with that key keep their
   * relative order.
   */
  lemma {:induction false} SortStable<T(!new)>(s: seq<T>, key: T -> real, k: real)
    ensures WithKey(Sort(s, key), key, k) == WithKey(s, key, k)
  {
    if s != [] {
      SortStable(s[1..], key, k);
      InsertWithKey(s[0], Sort(s[1..], key), key, k);
    }
  }

  /** When every key is the same, the stable sort keeps the input order. */
  lemma {:induction false} EqualKeysKeepOrder<T(!new)>(s: seq<T>, key: T -> real)
    requires forall i :: 0 <= i < |s| ==> key(s[i]) == key(s[0])
    ensures Sort(s, key) == s
  {
    if s != [] {
      assert forall i :: 0 <= i < |s[1..]| ==> key(s[1..][i]) == key(s[0]);
      if |s| > 1 {
        assert forall i :: 0 <= i < |s[1..]| ==> key(s[1..][i]) == key(s[1..][0]);
      }
      EqualKeysKeepOrder(s[1..], key);
      assert s == [s[0]] + s[1..];
    }
  }

  /** Sorting depends on the key's values only. */
  lemma {:induction false} SameKeysSameSort<T(!new)>(s: seq<T>, k1: T -> real, k2: T -> real)
    requires forall x :: k1(x) == k2(x)
    ensures Sort(s, k1) == Sort(s, k2)
  {
    if s != [] {
      SameKeysSameSort(s[1..], k1, k2);
      SameKeysSameInsert(s[0], Sort(s[1..], k1), k1, k2);
    }
  }

  lemma {:induction false} SameKeysSameInsert<T(!new)>(x: T, t: seq<T>, k1: T -> real, k2: T -> real)
    requires forall y :: k1(y) == k2(y)
    requires SortedBy(t, k1)
    ensures SortedBy(t, k2) && Insert(x, t, k1) == Insert(x, t, k2)
  {
    if t != [] {
      SameKeysSameInsert(x, t[1..], k1, k2);
    }
  }
}
