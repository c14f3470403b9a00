/** Sequence facts shared by the models: JavaScript's stable `sort` and lists without repeats. */
module Seqs {
  predicate Sorted<T>(s: seq<T>, key: T -> int) {
    forall i, j :: 0 <= i < j < |s| ==> key(s[i]) <= key(s[j])
  }

  predicate StrictlySorted<T>(s: seq<T>, key: T -> int) {
    forall i, j :: 0 <= i < j < |s| ==> key(s[i]) < key(s[j])
  }

  predicate Distinct<T(==)>(s: seq<T>) {
    forall i, j :: 0 <= i < j < |s| ==> s[i] != s[j]
  }

  /** `picked` are the elements of `s` at these places, in order. */
  predicate AtPlaces<T(==)>(s: seq<T>, picked: seq<T>, places: seq<nat>) {
    && |places| == |picked|
    && (forall i, j :: 0 <= i < j < |places| ==> places[i] < places[j])
    && forall k :: 0 <= k < |places| ==> places[k] < |s| && s[places[k]] == picked[k]
  }

  lemma OnePlaceMore<T>(s: seq<T>, picked: seq<T>, places: seq<nat>, x: T)
    requires AtPlaces(s, picked, places)
    ensures AtPlaces(s + [x], picked, places) && AtPlaces(s + [x], picked + [x], places + [|s|])
    ensures forall i :: i in places ==> i < |s|
    ensures forall i: nat :: i in places + [|s|] <==> i in places || i == |s|
  {
  }

  /** `x` placed after every element whose key is not larger. */
  function InsertSorted<T>(s: seq<T>, x: T, key: T -> int): seq<T> {
    if s == [] || key(s[|s| - 1]) <= key(x) then s + [x]
    else InsertSorted(s[..|s| - 1], x, key) + [s[|s| - 1]]
  }

  /** A stable sort by `key`, as `Array.prototype.sort` does with `(a, b) => key(a) - key(b)`. */
  function StableSort<T>(s: seq<T>, key: T -> int): seq<T> {
    if s == [] then [] else InsertSorted(StableSort(s[..|s| - 1], key), s[|s| - 1], key)
  }

  lemma AddLast<T>(s: seq<T>, elements: multiset<T>, last: T, key: T -> int)
    requires Sorted(s, key) && multiset(s) == elements
    requires forall x :: x in elements ==> key(x) <= key(last)
    ensures Sorted(s + [last], key)
  {
    forall i | 0 <= i < |s| ensures key(s[i]) <= key(last) {
      assert s[i] in multiset(s);
    }
  }

  lemma {:induction false} InsertSortedKeeps<T>(s: seq<T>, x: T, key: T -> int)
    ensures multiset(InsertSorted(s, x, key)) == multiset(s) + multiset{x}
  {
    if s != [] {
      var front, last := s[..|s| - 1], s[|s| - 1];
      assert s == front + [last];
      InsertSortedKeeps(front, x, key);
    }
  }

  /** The two ways of `InsertSorted`. */
  lemma InsertSortedIs<T>(s: seq<T>, x: T, key: T -> int)
    ensures InsertSorted(s, x, key) == if s == [] || key(s[|s| - 1]) <= key(x) then s + [x]
                                       else InsertSorted(s[..|s| - 1], x, key) + [s[|s| - 1]]
  {
  }

  lemma SortedFront<T>(s: seq<T>, key: T -> int)
    requires Sorted(s, key) && s != []
    ensures Sorted(s[..|s| - 1], key)
    ensures forall y :: y in multiset(s) ==> key(y) <= key(s[|s| - 1])
  {
    forall y | y in multiset(s) ensures key(y) <= key(s[|s| - 1]) {
      assert y in s;
    }
  }

  lemma SortedEnd<T>(s: seq<T>, x: T, key: T -> int)
    requires Sorted(s, key) && (s != [] ==> key(s[|s| - 1]) <= key(x))
    ensures Sorted(s + [x], key)
  {
  }

  lemma {:induction false} InsertSortedSorts<T>(s: seq<T>, x: T, key: T -> int)
    requires Sorted(s, key)
    ensures Sorted(InsertSorted(s, x, key), key)
    ensures multiset(InsertSorted(s, x, key)) == multiset(s) + multiset{x}
  {
    hide InsertSorted, Sorted;
    InsertSortedKeeps(s, x, key);
    InsertSortedIs(s, x, key);
    if s == [] {
      SortedEnd(s, x, key);
    } else {
      SortedFront(s, key);
      if key(s[|s| - 1]) <= key(x) {
        SortedEnd(s, x, key);
      } else {
        var front, last := s[..|s| - 1], s[|s| - 1];
        assert s == front + [last];
        InsertSortedSorts(front, x, key);
        AddLast(InsertSorted(front, x, key), multiset(front) + multiset{x}, last, key);
      }
    }
  }

  lemma {:induction false} StableSortSorts<T>(s: seq<T>, key: T -> int)
    ensures Sorted(StableSort(s, key), key)
    ensures multiset(StableSort(s, key)) == multiset(s)
  {
    if s != [] {
      var front, last := s[..|s| - 1], s[|s| - 1];
      assert s == front + [last];
      StableSortSorts(front, key);
      InsertSortedSorts(StableSort(front, key), last, key);
    }
  }

  /** The elements with one key, in order. */
  function OfKey<T>(s: seq<T>, key: T -> int, k: int): seq<T> {
    if s == [] then []
    else OfKey(s[..|s| - 1], key, k) + (if key(s[|s| - 1]) == k then [s[|s| - 1]] else [])
  }

  lemma OfKeyEnd<T>(s: seq<T>, x: T, key: T -> int, k: int)
    ensures OfKey(s + [x], key, k) == OfKey(s, key, k) + (if key(x) == k then [x] else [])
  {
    var longer := s + [x];
    assert longer[..|longer| - 1] == s;
  }

  lemma {:induction false} InsertSortedStable<T>(s: seq<T>, x: T, key: T -> int, k: int)
    requires Sorted(s, key)
    ensures OfKey(InsertSorted(s, x, key), key, k) == OfKey(s, key, k) + (if key(x) == k then [x] else [])
  {
    if s == [] || key(s[|s| - 1]) <= key(x) {
      OfKeyEnd(s, x, key, k);
    } else {
      var front, last := s[..|s| - 1], s[|s| - 1];
      InsertSortedStable(front, x, key, k);
      OfKeyEnd(InsertSorted(front, x, key), last, key, k);
    }
  }

  /** Sorting is stable: elements with equal keys keep their order. */
  lemma {:induction false} StableSortIsStable<T>(s: seq<T>, key: T -> int)
    ensures forall k :: OfKey(StableSort(s, key), key, k) == OfKey(s, key, k)
  {
    if s != [] {
      var front, last := s[..|s| - 1], s[|s| - 1];
      StableSortIsStable(front, key);
      StableSortSorts(front, key);
      forall k ensures OfKey(StableSort(s, key), key, k) == OfKey(s, key, k) {
        InsertSortedStable(StableSort(front, key), last, key, k);
      }
    }
  }

  lemma StableSortKeeps<T>(s: seq<T>, key: T -> int)
    ensures |StableSort(s, key)| == |s|
    ensures forall x :: x in StableSort(s, key) <==> x in s
  {
    StableSortSorts(s, key);
    var sorted := StableSort(s, key);
    assert |sorted| == |multiset(sorted)| == |multiset(s)| == |s|;
    forall x ensures x in sorted <==> x in s {
      assert x in sorted <==> x in multiset(sorted);
      assert x in s <==> x in multiset(s);
    }
  }

  predicate DistinctKeys<T>(s: seq<T>, key: T -> int) {
    forall i, j :: 0 <= i < j < |s| ==> key(s[i]) != key(s[j])
  }

  lemma {:induction false} InsertSortedStrict<T(!new)>(s: seq<T>, x: T, key: T -> int)
    requires StrictlySorted(s, key) && forall y :: y in s ==> key(y) != key(x)
    ensures StrictlySorted(InsertSorted(s, x, key), key)
    ensures forall y :: y in InsertSorted(s, x, key) <==> y in s || y == x
  {
    if s == [] || key(s[|s| - 1]) <= key(x) {
    } else {
      var front, last := s[..|s| - 1], s[|s| - 1];
      assert s == front + [last];
      InsertSortedStrict(front, x, key);
      var rest := InsertSorted(front, x, key);
      forall y | y in rest ensures key(y) < key(last) {
        if y != x {
          var i :| 0 <= i < |front| && front[i] == y;
          assert s[i] == y;
        }
      }
      assert forall i :: 0 <= i < |rest| ==> rest[i] in rest;
    }
  }

  lemma {:induction false} StableSortStrict<T(!new)>(s: seq<T>, key: T -> int)
    requires DistinctKeys(s, key)
    ensures StrictlySorted(StableSort(s, key), key)
    ensures forall x :: x in StableSort(s, key) <==> x in s
  {
    if s != [] {
      var front, last := s[..|s| - 1], s[|s| - 1];
      assert s == front + [last];
      StableSortStrict(front, key);
      forall x | x in front ensures key(x) != key(last) {
        var i :| 0 <= i < |front| && front[i] == x;
        assert s[i] == x && s[|s| - 1] == last;
      }
      InsertSortedStrict(StableSort(front, key), last, key);
    }
  }

  lemma SortOne<T>(x: T, key: T -> int)
    ensures StableSort([x], key) == [x]
  {
    assert [x][..0] == [];
  }

  lemma HasAnElement<T>(s: seq<T>)
    ensures s != [] ==> exists x :: x in s
  {
    if s != [] { assert s[0] in s; }
  }

  /** A list sorted without ties is fixed by its elements. */
  lemma {:induction false} StrictlySortedUnique<T>(s: seq<T>, t: seq<T>, key: T -> int)
    requires StrictlySorted(s, key) && StrictlySorted(t, key)
    requires forall x :: x in s <==> x in t
    ensures s == t
    decreases |s|
  {
    if s == [] {
      HasAnElement(t);
    } else {
      assert t != [] by { assert s[0] in t; }
      var s', t' := s[..|s| - 1], t[..|t| - 1];
      var x, y := s[|s| - 1], t[|t| - 1];
      assert x == y by {
        assert x in t && y in s;
      }
      forall z ensures z in s' <==> z in t' {
        if z in s' { assert z in s && key(z) < key(x); }
        if z in t' { assert z in t && key(z) < key(y); }
      }
      StrictlySortedUnique(s', t', key);
      assert s == s' + [x] && t == t' + [y];
    }
  }
}
