/**
 * List operations the source writes inline with `includes`, `filter`, spread and `new Set`:
 * removing every copy of a value, the add-if-absent / remove-if-present toggle of the
 * cross-filter protocol, and order-preserving de-duplication.
 */
module Seqs {
  import opened Wrappers

  /** No value occurs twice. */
  predicate NoDups<T(==,!new)>(s: seq<T>) {
    forall i, j :: 0 <= i < j < |s| ==> s[i] != s[j]
  }

  /** `s.filter(y => y !== x)`: every copy of `x` removed, the rest kept in order. */
  function Remove<T(==,!new)>(s: seq<T>, x: T): (r: seq<T>)
    ensures x !in r
    ensures forall y :: y in r <==> y in s && y != x
    ensures |r| <= |s|
  {
    if s == [] then []
    else if s[|s| - 1] == x then Remove(s[..|s| - 1], x)
    else Remove(s[..|s| - 1], x) + [s[|s| - 1]]
  }

  /** `s.filter(y => !xs.includes(y))`: every value of `xs` removed, the rest kept in order. */
  function RemoveAll<T(==,!new)>(s: seq<T>, xs: seq<T>): (r: seq<T>)
    ensures forall y :: y in r <==> y in s && y !in xs
  {
    if s == [] then []
    else if s[|s| - 1] in xs then RemoveAll(s[..|s| - 1], xs)
    else RemoveAll(s[..|s| - 1], xs) + [s[|s| - 1]]
  }

  /** `s.filter(y => !ks.includes(key(y)))`: the elements whose key is not in `ks`, in order. */
  function RemoveByKey<T(==,!new), K(==)>(s: seq<T>, key: T -> K, ks: seq<K>): (r: seq<T>)
    ensures forall y :: y in r <==> y in s && key(y) !in ks
    ensures forall y :: multiset(r)[y] == if key(y) in ks then 0 else multiset(s)[y]
    ensures Subseq(r, s)
    ensures |r| <= |s|
  {
    if s == [] then []
    else
      var init := s[..|s| - 1];
      var rest := RemoveByKey(init, key, ks);
      var last := s[|s| - 1];
      assert s == init + [last];
      assert multiset(s) == multiset(init) + multiset{last};
      if key(last) in ks then rest
      else
        var r := rest + [last];
        assert r[..|r| - 1] == rest;
        r
  }

  /** `s.find(y => key(y) === k)`: the first element whose key is `k`, or none when no element has it. */
  function FindFirst<T(==,!new), K(==)>(s: seq<T>, key: T -> K, k: K): (r: Option<T>)
    ensures r.Some? ==> key(r.value) == k && exists i :: (0 <= i < |s| && s[i] == r.value
      && forall j :: 0 <= j < i ==> key(s[j]) != k)
    ensures r.None? ==> forall y :: y in s ==> key(y) != k
  {
    if s == [] then None
    else if key(s[0]) == k then Some(s[0])
    else
      var r := FindFirst(s[1..], key, k);
      assert r.Some? ==> exists i :: (0 <= i < |s| && s[i] == r.value
        && forall j :: 0 <= j < i ==> key(s[j]) != k) by {
        if r.Some? {
          var i :| 0 <= i < |s[1..]| && s[1..][i] == r.value
            && forall j :: 0 <= j < i ==> key(s[1..][j]) != k;
          assert forall j :: 0 <= j < i + 1 ==> key(s[j]) != k by {
            forall j | 0 <= j < i + 1 ensures key(s[j]) != k {
              if j > 0 { assert s[j] == s[1..][j - 1]; }
            }
          }
        }
      }
      r
  }

  /** `s.includes(x) ? s.filter(y => y !== x) : [...s, x]` */
  function Toggle<T(==,!new)>(s: seq<T>, x: T): seq<T> {
    if x in s then Remove(s, x) else s + [x]
  }

  /** `[...new Set(s)]`: the first copy of every value, in order of first appearance. */
  function Dedup<T(==,!new)>(s: seq<T>): (r: seq<T>)
    ensures NoDups(r)
    ensures forall y :: y in r <==> y in s
    ensures |r| <= |s|
  {
    if s == [] then []
    else
      var d := Dedup(s[..|s| - 1]);
      if s[|s| - 1] in d then d else d + [s[|s| - 1]]
  }

  /** De-duplicating one more value keeps the earlier result and adds the value only when it is new. */
  lemma DedupSnoc<T(!new)>(s: seq<T>, x: T)
    ensures Dedup(s + [x]) == if x in Dedup(s) then Dedup(s) else Dedup(s) + [x]
  {
    assert (s + [x])[..|s|] == s;
  }

  /** Index of the first copy of `x` in `s`. */
  function FirstIndex<T(==,!new)>(s: seq<T>, x: T): (i: nat)
    requires x in s
    ensures i < |s| && s[i] == x && x !in s[..i]
  {
    if s[0] == x then 0 else 1 + FirstIndex(s[1..], x)
  }

  lemma {:induction false} RemoveAbsent<T(!new)>(s: seq<T>, x: T)
    requires x !in s
    ensures Remove(s, x) == s
  {
    if s != [] {
      RemoveAbsent(s[..|s| - 1], x);
      assert s == s[..|s| - 1] + [s[|s| - 1]];
    }
  }

  lemma {:induction false} RemoveKeepsNoDups<T(!new)>(s: seq<T>, x: T)
    requires NoDups(s)
    ensures NoDups(Remove(s, x))
  {
    if s != [] {
      var init := s[..|s| - 1];
      assert NoDups(init) && s[|s| - 1] !in init;
      RemoveKeepsNoDups(init, x);
    }
  }

  lemma {:induction false} RemoveAllKeepsNoDups<T(!new)>(s: seq<T>, xs: seq<T>)
    requires NoDups(s)
    ensures NoDups(RemoveAll(s, xs))
  {
    if s != [] {
      var init := s[..|s| - 1];
      assert NoDups(init) && s[|s| - 1] !in init;
      RemoveAllKeepsNoDups(init, xs);
    }
  }

  /** Removal works element by element: it distributes over concatenation, so order is kept. */
  lemma {:induction false} RemoveAppend<T(!new)>(a: seq<T>, b: seq<T>, x: T)
    ensures Remove(a + b, x) == Remove(a, x) + Remove(b, x)
  {
    if b == [] {
      assert a + b == a;
    } else {
      var init := b[..|b| - 1];
      assert (a + b)[..|a + b| - 1] == a + init;
      assert (a + b)[|a + b| - 1] == b[|b| - 1];
      RemoveAppend(a, init, x);
    }
  }

  /** Every copy of `x` goes and every other value keeps its number of copies. */
  lemma {:induction false} RemoveCounts<T(!new)>(s: seq<T>, x: T)
    ensures multiset(Remove(s, x)) == multiset(s)[x := 0]
  {
    if s != [] {
      var init := s[..|s| - 1];
      assert s == init + [s[|s| - 1]];
      RemoveCounts(init, x);
    }
  }

  /** `RemoveAll` distributes over concatenation, so the kept values stay in order. */
  lemma {:induction false} RemoveAllAppend<T(!new)>(a: seq<T>, b: seq<T>, xs: seq<T>)
    ensures RemoveAll(a + b, xs) == RemoveAll(a, xs) + RemoveAll(b, xs)
  {
    if b == [] {
      assert a + b == a;
    } else {
      var init := b[..|b| - 1];
      assert (a + b)[..|a + b| - 1] == a + init;
      assert (a + b)[|a + b| - 1] == b[|b| - 1];
      RemoveAllAppend(a, init, xs);
    }
  }

  /** Values of `xs` lose every copy; every other value keeps its number of copies. */
  lemma {:induction false} RemoveAllCounts<T(!new)>(s: seq<T>, xs: seq<T>, y: T)
    ensures multiset(RemoveAll(s, xs))[y] == if y in xs then 0 else multiset(s)[y]
  {
    if s != [] {
      var init := s[..|s| - 1];
      assert s == init + [s[|s| - 1]];
      RemoveAllCounts(init, xs, y);
    }
  }

  /** `r` is `s` with some elements left out: what remains keeps its order. */
  predicate Subseq<T(==)>(r: seq<T>, s: seq<T>)
    decreases |s|
  {
    r == [] ||
    (s != [] &&
     ((r[|r| - 1] == s[|s| - 1] && Subseq(r[..|r| - 1], s[..|s| - 1])) || Subseq(r, s[..|s| - 1])))
  }

  /** What `Remove` keeps stays in its order. */
  lemma {:induction false} RemoveSubseq<T(!new)>(s: seq<T>, x: T)
    ensures Subseq(Remove(s, x), s)
  {
    if s != [] {
      RemoveSubseq(s[..|s| - 1], x);
    }
  }

  /** What `RemoveAll` keeps stays in its order. */
  lemma {:induction false} RemoveAllSubseq<T(!new)>(s: seq<T>, xs: seq<T>)
    ensures Subseq(RemoveAll(s, xs), s)
  {
    if s != [] {
      RemoveAllSubseq(s[..|s| - 1], xs);
    }
  }

  /** Toggling removes a present value and adds an absent one. */
  lemma ToggleMembership<T(!new)>(s: seq<T>, x: T)
    ensures x in Toggle(s, x) <==> x !in s
    ensures forall y :: y != x ==> (y in Toggle(s, x) <==> y in s)
  {
  }

  /** Toggling an absent value twice restores the list (add-then-remove cancels). */
  lemma ToggleTwiceRestores<T(!new)>(s: seq<T>, x: T)
    requires x !in s
    ensures Toggle(Toggle(s, x), x) == s
  {
    assert (s + [x])[..|s + [x]| - 1] == s;
    RemoveAbsent(s, x);
  }

  /** A toggle never creates a duplicate. */
  lemma ToggleKeepsNoDups<T(!new)>(s: seq<T>, x: T)
    requires NoDups(s)
    ensures NoDups(Toggle(s, x))
  {
    if x in s { RemoveKeepsNoDups(s, x); }
  }

  /** Over a list without duplicates, `new Set` changes nothing. */
  lemma {:induction false} DedupOfNoDups<T(!new)>(s: seq<T>)
    requires NoDups(s)
    ensures Dedup(s) == s
  {
    if s != [] {
      var init := s[..|s| - 1];
      assert NoDups(init);
      DedupOfNoDups(init);
      assert s == init + [s[|s| - 1]];
    }
  }

  /** De-duplicating `a + b` keeps the de-duplicated `a` as a prefix: existing items come first. */
  lemma {:induction false} DedupPrefix<T(!new)>(a: seq<T>, b: seq<T>)
    ensures |Dedup(a)| <= |Dedup(a + b)| && Dedup(a + b)[..|Dedup(a)|] == Dedup(a)
  {
    if b == [] {
      assert a + b == a;
    } else {
      var b' := b[..|b| - 1];
      DedupPrefix(a, b');
      assert (a + b)[..|a + b| - 1] == a + b';
    }
  }

  /** The de-duplicated list lists values in the order of their first appearance in the input. */
  lemma {:induction false} DedupFirstAppearanceOrder<T(!new)>(s: seq<T>, i: nat, j: nat)
    requires i < j < |Dedup(s)|
    ensures FirstIndex(s, Dedup(s)[i]) < FirstIndex(s, Dedup(s)[j])
  {
    var init := s[..|s| - 1];
    var d := Dedup(init);
    var last := s[|s| - 1];
    assert s == init + [last];
    FirstIndexOfPrefix(init, last, Dedup(s)[i]);
    if j < |d| {
      FirstIndexOfPrefix(init, last, Dedup(s)[j]);
      DedupFirstAppearanceOrder(init, i, j);
    } else {
      // Dedup(s)[j] is `last`, seen for the first time at the end of s.
      assert Dedup(s)[j] == last && last !in init;
      FirstIndexAtEnd(init, last);
    }
  }

  lemma {:induction false} FirstIndexOfPrefix<T(!new)>(init: seq<T>, last: T, x: T)
    requires x in init
    ensures FirstIndex(init + [last], x) == FirstIndex(init, x)
  {
    if init[0] != x {
      assert (init + [last])[1..] == init[1..] + [last];
      FirstIndexOfPrefix(init[1..], last, x);
    }
  }

  lemma {:induction false} FirstIndexAtEnd<T(!new)>(init: seq<T>, last: T)
    requires last !in init
    ensures FirstIndex(init + [last], last) == |init|
  {
    if init != [] {
      assert (init + [last])[1..] == init[1..] + [last];
      FirstIndexAtEnd(init[1..], last);
    }
  }

  /** In a list without duplicates, removing a value drops exactly one element if it is present. */
  lemma {:induction false} RemoveLengthNoDups<T(!new)>(s: seq<T>, x: T)
    requires NoDups(s)
    ensures |Remove(s, x)| == if x in s then |s| - 1 else |s|
  {
    if s != [] {
      var init := s[..|s| - 1];
      assert s == init + [s[|s| - 1]];
      assert NoDups(init);
      RemoveLengthNoDups(init, x);
      if s[|s| - 1] == x {
        assert x !in init;
        RemoveAbsent(init, x);
      }
    }
  }
}
