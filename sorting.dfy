/** Stable sorting by an integer key.

    The program sorts with the runtime's built-in array sort and a comparator
    `(a, b) => key(a) - key(b)`; the language standard has required that sort to be
    stable since its 2019 edition. This module gives that sort as an insertion sort
    over sequences and proves the three facts the callers rely on: the result is
    ordered by key, it is a permutation of the input, and any sub-sequence that was
    already ordered by key (in particular every group of equal keys) keeps its order. */
module Sorting {

  /** `s` is ordered by `key`, ties allowed. */
  ghost predicate SortedBy<T>(s: seq<T>, key: T -> int) {
    forall i, j :: 0 <= i < j < |s| ==> key(s[i]) <= key(s[j])
  }

  /** The elements of `s` that satisfy `p`, in their original order. */
  function Filter<T>(s: seq<T>, p: T -> bool): (r: seq<T>)
    ensures |r| <= |s|
  {
    if s == [] then []
    else Filter(s[..|s| - 1], p) + (if p(s[|s| - 1]) then [s[|s| - 1]] else [])
  }

  lemma {:induction false} FilterAppend<T>(a: seq<T>, b: seq<T>, p: T -> bool)
    ensures Filter(a + b, p) == Filter(a, p) + Filter(b, p)
  {
    if b == [] {
      assert a + b == a;
    } else {
      var n := |b| - 1;
      assert (a + b)[..|a + b| - 1] == a + b[..n];
      assert (a + b)[|a + b| - 1] == b[n];
      FilterAppend(a, b[..n], p);
    }
  }

  /** Inserts `x` into `t` just before the first element, counted from the back,
      whose key is not greater than `key(x)`: every element of equal key stays in
      front of `x`. */
  function Insert<T>(t: seq<T>, x: T, key: T -> int): (r: seq<T>)
    ensures |r| == |t| + 1
    ensures multiset(r) == multiset(t) + multiset{x}
    decreases |t|
  {
    if t == [] || key(t[|t| - 1]) <= key(x) then t + [x]
    else
      assert t == t[..|t| - 1] + [t[|t| - 1]];
      Insert(t[..|t| - 1], x, key) + [t[|t| - 1]]
  }

  /** Sorts by inserting the elements one at a time, left to right. */
  function SortBy<T>(s: seq<T>, key: T -> int): (r: seq<T>)
    ensures |r| == |s|
    ensures multiset(r) == multiset(s)
  {
    if s == [] then []
    else
      assert s == s[..|s| - 1] + [s[|s| - 1]];
      Insert(SortBy(s[..|s| - 1], key), s[|s| - 1], key)
  }

  lemma {:induction false} InsertSorted<T>(t: seq<T>, x: T, key: T -> int)
    requires SortedBy(t, key)
    ensures SortedBy(Insert(t, x, key), key)
    decreases |t|
  {
    if t == [] || key(t[|t| - 1]) <= key(x) {
    } else {
      var t' := t[..|t| - 1];
      var y := t[|t| - 1];
      InsertSorted(t', x, key);
      var u := Insert(t', x, key);
      forall z | z in u ensures key(z) <= key(y) {
        assert z in multiset(u);
        assert z in multiset(t') + multiset{x};
        if z in multiset(t') {
          var k :| 0 <= k < |t'| && t'[k] == z;
          assert t[k] == z;
        }
      }
      var r := u + [y];
      forall i, j | 0 <= i < j < |r| ensures key(r[i]) <= key(r[j]) {
        if j == |r| - 1 {
          assert r[i] == u[i] && r[i] in u;
        } else {
          assert r[i] == u[i] && r[j] == u[j];
        }
      }
    }
  }

  /** The result of SortBy is ordered by key. */
  lemma {:induction false} SortBySorted<T>(s: seq<T>, key: T -> int)
    ensures SortedBy(SortBy(s, key), key)
  {
    if s != [] {
      SortBySorted(s[..|s| - 1], key);
      InsertSorted(SortBy(s[..|s| - 1], key), s[|s| - 1], key);
    }
  }

  lemma {:induction false} FilterInsert<T>(t: seq<T>, x: T, key: T -> int, p: T -> bool)
    requires p(x) ==> forall y :: y in t && p(y) ==> key(y) <= key(x)
    ensures Filter(Insert(t, x, key), p) == Filter(t, p) + Filter([x], p)
    decreases |t|
  {
    if t == [] || key(t[|t| - 1]) <= key(x) {
      FilterAppend(t, [x], p);
    } else {
      var t' := t[..|t| - 1];
      var y := t[|t| - 1];
      assert t == t' + [y];
      assert p(x) ==> !p(y);
      PrefixKeepsBound(t, x, key, p);
      FilterInsert(t', x, key, p);
      FilterAppend(Insert(t', x, key), [y], p);
      FilterAppend(t', [y], p);
      FilterCommute(Filter(t', p), x, y, p);
    }
  }

  lemma PrefixKeepsBound<T>(t: seq<T>, x: T, key: T -> int, p: T -> bool)
    requires t != []
    requires p(x) ==> forall y :: y in t && p(y) ==> key(y) <= key(x)
    ensures p(x) ==> forall y :: y in t[..|t| - 1] && p(y) ==> key(y) <= key(x)
  {
    forall z | z in t[..|t| - 1] ensures z in t {
      var k :| 0 <= k < |t| - 1 && t[..|t| - 1][k] == z;
      assert t[k] == z;
    }
  }

  /** Two single elements of which at most one passes `p` can be filtered in either order. */
  lemma FilterCommute<T>(a: seq<T>, x: T, y: T, p: T -> bool)
    requires !(p(x) && p(y))
    ensures a + Filter([x], p) + Filter([y], p) == a + Filter([y], p) + Filter([x], p)
  {
    FilterSingle(x, p);
    FilterSingle(y, p);
  }

  lemma FilterSingle<T>(z: T, p: T -> bool)
    ensures Filter([z], p) == if p(z) then [z] else []
  {
    assert [z][..0] == [];
  }

  /** Stability: a sub-sequence picked out by `p` that the input already holds in key
      order comes out of the sort unchanged. Taking `p` to be "has key v" shows that
      equal keys keep their input order. */
  lemma {:induction false} SortByKeepsOrderedFilter<T>(s: seq<T>, key: T -> int, p: T -> bool)
    requires SortedBy(Filter(s, p), key)
    ensures Filter(SortBy(s, key), p) == Filter(s, p)
  {
    if s != [] {
      var s' := s[..|s| - 1];
      var x := s[|s| - 1];
      assert s == s' + [x];
      FilterAppend(s', [x], p);
      SortedSplit(Filter(s', p), Filter([x], p), key);
      SortByKeepsOrderedFilter(s', key, p);
      var t := SortBy(s', key);
      if p(x) {
        FilterSingle(x, p);
        assert x in Filter([x], p);
        forall y | y in t && p(y) ensures key(y) <= key(x) {
          FilterHas(t, p, y);
        }
      }
      FilterInsert(t, x, key, p);
    }
  }

  lemma SortedSplit<T>(a: seq<T>, b: seq<T>, key: T -> int)
    requires SortedBy(a + b, key)
    ensures SortedBy(a, key)
    ensures forall y, z :: y in a && z in b ==> key(y) <= key(z)
  {
    forall i, j | 0 <= i < j < |a| ensures key(a[i]) <= key(a[j]) {
      assert (a + b)[i] == a[i] && (a + b)[j] == a[j];
    }
    forall y, z | y in a && z in b ensures key(y) <= key(z) {
      var i :| 0 <= i < |a| && a[i] == y;
      var j :| 0 <= j < |b| && b[j] == z;
      assert (a + b)[i] == y && (a + b)[|a| + j] == z;
    }
  }

  lemma {:induction false} FilterHas<T>(s: seq<T>, p: T -> bool, y: T)
    requires y in s && p(y)
    ensures y in Filter(s, p)
  {
    var n := |s| - 1;
    if s[n] != y {
      assert y in s[..n] by {
        var k :| 0 <= k < |s| && s[k] == y;
        assert k < n;
        assert s[..n][k] == y;
      }
      FilterHas(s[..n], p, y);
    }
  }

  lemma {:induction false} FilterSatisfies<T>(s: seq<T>, p: T -> bool)
    ensures forall i :: 0 <= i < |Filter(s, p)| ==> p(Filter(s, p)[i])
  {
    if s != [] {
      FilterSatisfies(s[..|s| - 1], p);
    }
  }

  lemma {:induction false} FilterNone<T>(s: seq<T>, p: T -> bool)
    requires forall i :: 0 <= i < |s| ==> !p(s[i])
    ensures Filter(s, p) == []
  {
    if s != [] {
      FilterNone(s[..|s| - 1], p);
    }
  }

  lemma {:induction false} FilterAll<T>(s: seq<T>, p: T -> bool)
    requires forall i :: 0 <= i < |s| ==> p(s[i])
    ensures Filter(s, p) == s
  {
    if s != [] {
      FilterAll(s[..|s| - 1], p);
      assert s[..|s| - 1] + [s[|s| - 1]] == s;
    }
  }

  /** Filtering by a stronger test after a weaker one is filtering by the stronger. */
  lemma {:induction false} FilterFilter<T>(s: seq<T>, p: T -> bool, q: T -> bool)
    requires forall x :: q(x) ==> p(x)
    ensures Filter(Filter(s, p), q) == Filter(s, q)
  {
    if s != [] {
      var n := |s| - 1;
      FilterFilter(s[..n], p, q);
      FilterAppend(Filter(s[..n], p), if p(s[n]) then [s[n]] else [], q);
      assert Filter([s[n]], q) == (if q(s[n]) then [s[n]] else []) by {
        assert [s[n]][..0] == [];
      }
    }
  }

  /** Everything a filter keeps comes from its input. */
  lemma {:induction false} FilterWithin<T>(s: seq<T>, p: T -> bool, x: T)
    requires x in Filter(s, p)
    ensures x in s
  {
    var n := |s| - 1;
    if x != s[n] {
      FilterWithin(s[..n], p, x);
    }
  }

  /** A filter of `x` followed by more. */
  lemma FilterCons<T>(x: T, s: seq<T>, p: T -> bool)
    ensures Filter([x] + s, p) == (if p(x) then [x] else []) + Filter(s, p)
  {
    var one := [x];
    assert one[..|one| - 1] == [];
    assert Filter(one, p) == (if p(x) then [x] else []);
    FilterAppend(one, s, p);
  }

  /** Equal keys keep their input order: the elements picked by any `p` that holds
      only of elements with key `v` come out of the sort as they went in. */
  lemma SortByStable<T>(s: seq<T>, key: T -> int, p: T -> bool, v: int)
    requires forall x :: p(x) ==> key(x) == v
    ensures Filter(SortBy(s, key), p) == Filter(s, p)
  {
    var f := Filter(s, p);
    FilterSatisfies(s, p);
    forall i, j | 0 <= i < j < |f| ensures key(f[i]) <= key(f[j]) {
      KeyOfPicked(key, p, v, f[i]);
      KeyOfPicked(key, p, v, f[j]);
    }
    SortByKeepsOrderedFilter(s, key, p);
  }

  lemma KeyOfPicked<T>(key: T -> int, p: T -> bool, v: int, y: T)
    requires forall x :: p(x) ==> key(x) == v
    requires p(y)
    ensures key(y) == v
  {
  }
}
