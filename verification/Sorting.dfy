/** Python's `sorted` with a key: a stable insertion of one element after another. */
module Sorting {
  import opened Prelude

  function InsertBy<T>(key: T -> int, s: seq<T>, x: T): seq<T> {
    if s == [] then [x]
    else if key(s[|s| - 1]) <= key(x) then s + [x]
    else InsertBy(key, s[..|s| - 1], x) + [s[|s| - 1]]
  }

  function SortedBy<T>(key: T -> int, s: seq<T>): seq<T> {
    if s == [] then [] else InsertBy(key, SortedBy(key, s[..|s| - 1]), s[|s| - 1])
  }

  ghost predicate InOrderBy<T>(key: T -> int, s: seq<T>) {
    forall i, j :: 0 <= i < j < |s| ==> key(s[i]) <= key(s[j])
  }

  /** The elements of one key, in the order in which they stand. */
  function WithKey<T>(key: T -> int, s: seq<T>, k: int): seq<T> {
    if s == [] then []
    else WithKey(key, s[..|s| - 1], k) + if key(s[|s| - 1]) == k then [s[|s| - 1]] else []
  }

  lemma {:induction false} InsertKeeps<T>(key: T -> int, s: seq<T>, x: T)
    ensures multiset(InsertBy(key, s, x)) == multiset(s) + multiset{x}
  {
    if s != [] && key(s[|s| - 1]) > key(x) {
      SplitLast(s);
      InsertKeeps(key, s[..|s| - 1], x);
    }
  }

  lemma {:induction false} InsertSorts<T>(key: T -> int, s: seq<T>, x: T)
    requires InOrderBy(key, s)
    ensures InOrderBy(key, InsertBy(key, s, x))
  {
    if s != [] && key(s[|s| - 1]) > key(x) {
      var init, last := s[..|s| - 1], s[|s| - 1];
      InsertSorts(key, init, x);
      InsertKeeps(key, init, x);
      var r := InsertBy(key, init, x);
      forall i | 0 <= i < |r|
        ensures key(r[i]) <= key(last)
      {
        assert r[i] in multiset(r);
        assert r[i] in init || r[i] == x;
      }
    }
  }

  lemma {:induction false} InsertIsStable<T>(key: T -> int, s: seq<T>, x: T, k: int)
    ensures WithKey(key, InsertBy(key, s, x), k) == WithKey(key, s, k) + if key(x) == k then [x] else []
  {
    if s != [] && key(s[|s| - 1]) > key(x) {
      var init, last := s[..|s| - 1], s[|s| - 1];
      InsertIsStable(key, init, x, k);
      var r := InsertBy(key, init, x);
      assert (r + [last])[..|r|] == r;
    } else {
      assert (s + [x])[..|s|] == s;
    }
  }

  /** A sorted list holds the same elements in ascending order of their keys, and those of one key
      in the order in which they stood. */
  lemma {:induction false} SortSorts<T>(key: T -> int, s: seq<T>)
    ensures InOrderBy(key, SortedBy(key, s)) && multiset(SortedBy(key, s)) == multiset(s)
    ensures forall k :: WithKey(key, SortedBy(key, s), k) == WithKey(key, s, k)
  {
    if s != [] {
      hide InsertBy, InOrderBy;
      var init, last := s[..|s| - 1], s[|s| - 1];
      SplitLast(s);
      SortSorts(key, init);
      InsertSorts(key, SortedBy(key, init), last);
      InsertKeeps(key, SortedBy(key, init), last);
      forall k
        ensures WithKey(key, SortedBy(key, s), k) == WithKey(key, s, k)
      {
        InsertIsStable(key, SortedBy(key, init), last, k);
      }
    }
  }

  lemma {:induction false} SomeWithKey<T>(key: T -> int, s: seq<T>, k: int)
    ensures WithKey(key, s, k) != [] <==> exists x :: x in s && key(x) == k
  {
    if s != [] {
      SplitLast(s);
      SomeWithKey(key, s[..|s| - 1], k);
    }
  }

  lemma SameEnd<T>(s: seq<T>, x: T, t: seq<T>, y: T)
    requires s + [x] == t + [y]
    ensures s == t && x == y
  {
    assert (s + [x])[..|s|] == s && (t + [y])[..|t|] == t;
    assert (s + [x])[|s|] == x && (t + [y])[|t|] == y;
  }

  /** There is only one such list. */
  lemma {:induction false} SortedIsUnique<T>(key: T -> int, s: seq<T>, t: seq<T>)
    requires InOrderBy(key, s) && InOrderBy(key, t) && forall k :: WithKey(key, s, k) == WithKey(key, t, k)
    ensures s == t
  {
    if s == [] || t == [] {
      if s != [] { SomeWithKey(key, s, key(s[0])); }
      if t != [] { SomeWithKey(key, t, key(t[0])); }
    } else {
      var x, y := s[|s| - 1], t[|t| - 1];
      SomeWithKey(key, t, key(x));
      SomeWithKey(key, s, key(y));
      assert key(x) == key(y);
      var s', t' := s[..|s| - 1], t[..|t| - 1];
      SameEnd(WithKey(key, s', key(x)), x, WithKey(key, t', key(x)), y);
      forall k
        ensures WithKey(key, s', k) == WithKey(key, t', k)
      {
        assert WithKey(key, s, k) == WithKey(key, t, k);
        if k == key(x) {
          SameEnd(WithKey(key, s', k), x, WithKey(key, t', k), y);
        } else {
          assert WithKey(key, s, k) == WithKey(key, s', k) && WithKey(key, t, k) == WithKey(key, t', k);
        }
      }
      SortedIsUnique(key, s', t');
    }
  }
}
