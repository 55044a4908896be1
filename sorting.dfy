/**
 * Python's `sorted(xs, key=...)` and `xs.sort(key=...)`: a stable sort by an
 * integer key. `sorted(xs, key=k, reverse=True)` keeps equal keys in their
 * original order too, so it is the stable ascending sort by `-k`.
 */
module Sorting {
  import opened Common

  ghost predicate SortedBy<T>(s: seq<T>, key: T -> int) {
    forall i, j :: 0 <= i < j < |s| ==> key(s[i]) <= key(s[j])
  }

  /** The predicate "has key `k`", as one term so that filters by it can be compared. */
  function KeyIs<T>(key: T -> int, k: int): T -> bool {
    x => key(x) == k
  }

  /** Inserts `x` into sorted `s` after every element whose key is at most `x`'s. */
  function Insert<T>(x: T, s: seq<T>, key: T -> int): (r: seq<T>)
    requires SortedBy(s, key)
    ensures SortedBy(r, key)
    ensures multiset(r) == multiset(s) + multiset{x}
    ensures |r| == |s| + 1
  {
    if s == [] then [x]
    else if key(s[|s| - 1]) <= key(x) then s + [x]
    else
      var last := s[|s| - 1];
      var init := s[..|s| - 1];
      assert s == init + [last];
      var front := Insert(x, init, key);
      BoundedByLast(front, x, init, last, key);
      SortedAppend(front, last, key);
      assert multiset(front + [last]) == multiset(front) + multiset{last};
      front + [last]
  }

  lemma BoundedByLast<T>(front: seq<T>, x: T, init: seq<T>, last: T, key: T -> int)
    requires multiset(front) == multiset(init) + multiset{x}
    requires SortedBy(init + [last], key) && key(x) < key(last)
    ensures forall y :: y in front ==> key(y) <= key(last)
  {
    forall y | y in front ensures key(y) <= key(last) {
      assert y in multiset(front);
      if y != x {
        assert y in multiset(init);
        var i :| 0 <= i < |init| && init[i] == y;
        assert (init + [last])[i] == y && (init + [last])[|init|] == last;
      }
    }
  }

  lemma SortedAppend<T>(s: seq<T>, last: T, key: T -> int)
    requires SortedBy(s, key)
    requires forall y :: y in s ==> key(y) <= key(last)
    ensures SortedBy(s + [last], key)
  {
    var r := s + [last];
    forall i, j | 0 <= i < j < |r| ensures key(r[i]) <= key(r[j]) {
      if j == |s| {
        assert r[i] in s;
      }
    }
  }

  /** Stable sort of `s` by `key` (insertion sort, as a specification). */
  function SortBy<T>(s: seq<T>, key: T -> int): (r: seq<T>)
    ensures SortedBy(r, key)
    ensures multiset(r) == multiset(s)
    ensures |r| == |s|
  {
    if s == [] then []
    else
      var init := s[..|s| - 1];
      assert s == init + [s[|s| - 1]];
      Insert(s[|s| - 1], SortBy(init, key), key)
  }

  /** Lemma: sorting keeps exactly the same elements. */
  lemma SortByMembers<T>(s: seq<T>, key: T -> int)
    ensures forall x :: x in SortBy(s, key) <==> x in s
  {
    var r := SortBy(s, key);
    forall x ensures x in r <==> x in s {
      assert x in r <==> x in multiset(r);
      assert x in s <==> x in multiset(s);
    }
  }

  lemma {:induction false} InsertStable<T(!new)>(x: T, s: seq<T>, key: T -> int, k: int)
    requires SortedBy(s, key)
    ensures Filter(Insert(x, s, key), KeyIs(key, k))
         == Filter(s, KeyIs(key, k)) + Filter([x], KeyIs(key, k))
  {
    var p := KeyIs(key, k);
    if s == [] {
    } else if key(s[|s| - 1]) <= key(x) {
      FilterAppend(s, [x], p);
    } else {
      var last := s[|s| - 1];
      var init := s[..|s| - 1];
      assert s == init + [last];
      assert Insert(x, s, key) == Insert(x, init, key) + [last];
      InsertStable(x, init, key, k);
      SwapPast(x, last, init, Insert(x, init, key), key, k);
    }
  }

  /** The step of InsertStable where `x` moves in front of a larger `last`. */
  lemma SwapPast<T(!new)>(x: T, last: T, init: seq<T>, ins: seq<T>, key: T -> int, k: int)
    requires key(x) < key(last)
    requires Filter(ins, KeyIs(key, k)) == Filter(init, KeyIs(key, k)) + Filter([x], KeyIs(key, k))
    ensures Filter(ins + [last], KeyIs(key, k))
         == Filter(init + [last], KeyIs(key, k)) + Filter([x], KeyIs(key, k))
  {
    var p := KeyIs(key, k);
    FilterAppend(ins, [last], p);
    FilterAppend(init, [last], p);
    FilterSingleton(x, p);
    FilterSingleton(last, p);
    if p(last) {
      assert Filter([x], p) == [];
      assert Filter(ins, p) == Filter(init, p) + [];
    } else {
      assert Filter([last], p) == [];
      assert Filter(ins + [last], p) == Filter(ins, p) + [];
      assert Filter(init + [last], p) == Filter(init, p) + [];
    }
  }

  lemma FilterSingleton<T(!new)>(x: T, p: T -> bool)
    ensures Filter([x], p) == if p(x) then [x] else []
  {
    assert [x][1..] == [];
  }

  /**
   * Stability: for every key value, the elements with that key appear in the
   * result in the same order as in the input.
   */
  lemma {:induction false} SortByStable<T(!new)>(s: seq<T>, key: T -> int, k: int)
    ensures Filter(SortBy(s, key), KeyIs(key, k)) == Filter(s, KeyIs(key, k))
  {
    if s != [] {
      var init := s[..|s| - 1];
      assert s == init + [s[|s| - 1]];
      SortByStable(init, key, k);
      InsertStable(s[|s| - 1], SortBy(init, key), key, k);
      FilterAppend(init, [s[|s| - 1]], KeyIs(key, k));
    }
  }
}
