/** The stable sort by a numeric key, and the order of sizes of sets. */
module Sorting {

  ghost predicate Sorted<T(!new)>(s: seq<T>, key: T -> real) {
    forall i, j :: 0 <= i < j < |s| ==> key(s[i]) <= key(s[j])
  }

  /** Put `x` after every element whose key is not greater. */
  function Insert<T>(x: T, s: seq<T>, key: T -> real): seq<T> {
    if s == [] || key(s[|s| - 1]) <= key(x) then s + [x]
    else Insert(x, s[..|s| - 1], key) + [s[|s| - 1]]
  }

  function Sort<T>(s: seq<T>, key: T -> real): seq<T> {
    if s == [] then [] else Insert(s[|s| - 1], Sort(s[..|s| - 1], key), key)
  }

  lemma {:induction false} InsertAdds<T(!new)>(x: T, s: seq<T>, key: T -> real)
    ensures multiset(Insert(x, s, key)) == multiset(s) + multiset{x} && |Insert(x, s, key)| == |s| + 1
  {
    if s != [] && key(s[|s| - 1]) > key(x) {
      InsertAdds(x, s[..|s| - 1], key);
      assert s == s[..|s| - 1] + [s[|s| - 1]];
    }
  }

  lemma InsertBounded<T(!new)>(x: T, s: seq<T>, key: T -> real, top: real)
    requires key(x) <= top && forall i :: 0 <= i < |s| ==> key(s[i]) <= top
    ensures forall i :: 0 <= i < |Insert(x, s, key)| ==> key(Insert(x, s, key)[i]) <= top
  {
    InsertAdds(x, s, key);
    var r := Insert(x, s, key);
    forall i | 0 <= i < |r| ensures key(r[i]) <= top {
      assert r[i] in multiset(r);
    }
  }

  lemma {:induction false} InsertSorts<T(!new)>(x: T, s: seq<T>, key: T -> real)
    requires Sorted(s, key)
    ensures Sorted(Insert(x, s, key), key)
  {
    if s != [] && key(s[|s| - 1]) > key(x) {
      InsertSorts(x, s[..|s| - 1], key);
      InsertBounded(x, s[..|s| - 1], key, key(s[|s| - 1]));
    }
  }

  lemma {:induction false} SortSorts<T(!new)>(s: seq<T>, key: T -> real)
    ensures Sorted(Sort(s, key), key) && multiset(Sort(s, key)) == multiset(s) && |Sort(s, key)| == |s|
  {
    if s != [] {
      var init, last := s[..|s| - 1], s[|s| - 1];
      SortSorts(init, key);
      InsertAdds(last, Sort(init, key), key);
      InsertSorts(last, Sort(init, key), key);
      assert s == init + [last];
    }
  }

  // ----- sorting by two keys -----

  /** In order of the first key, and where that is equal of the second. */
  ghost predicate SortedBoth<T(!new)>(s: seq<T>, key: T -> real, next: T -> real) {
    forall i, j :: 0 <= i < j < |s| ==>
      key(s[i]) < key(s[j]) || (key(s[i]) == key(s[j]) && next(s[i]) <= next(s[j]))
  }

  lemma {:induction false} InsertSortsBoth<T(!new)>(x: T, s: seq<T>, key: T -> real, next: T -> real)
    requires SortedBoth(s, key, next) && forall i :: 0 <= i < |s| ==> next(s[i]) <= next(x)
    ensures SortedBoth(Insert(x, s, key), key, next)
  {
    if s != [] && key(s[|s| - 1]) > key(x) {
      var init, last := s[..|s| - 1], s[|s| - 1];
      InsertSortsBoth(x, init, key, next);
      InsertAdds(x, init, key);
      var r := Insert(x, init, key);
      forall i | 0 <= i < |r| ensures key(r[i]) < key(last) || (key(r[i]) == key(last) && next(r[i]) <= next(last)) {
        assert r[i] in multiset(r);
      }
    }
  }

  /** The sort is stable: sorting by one key what is sorted by another sorts by both. */
  lemma {:induction false} SortIsStable<T(!new)>(s: seq<T>, key: T -> real, next: T -> real)
    requires Sorted(s, next)
    ensures SortedBoth(Sort(s, key), key, next)
  {
    if s != [] {
      var init, last := s[..|s| - 1], s[|s| - 1];
      SortIsStable(init, key, next);
      SortSorts(init, key);
      var r := Sort(init, key);
      forall i | 0 <= i < |r| ensures next(r[i]) <= next(last) { assert r[i] in multiset(r) && r[i] in init; }
      InsertSortsBoth(last, r, key, next);
    }
  }

  lemma {:induction false} SmallerSet<T>(a: set<T>, b: set<T>)
    requires a <= b
    ensures |a| <= |b|
  {
    if a != {} {
      var x :| x in a;
      SmallerSet(a - {x}, b - {x});
    }
  }
}
