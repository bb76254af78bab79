/** The in-memory candle series of backend/app/services/market_data/hub.py: merging backfilled
    rows, and confirming polled bars. */
module Hubs {
  import opened Prelude
  import opened Models
  import opened Sorting
  import Gaps

  ghost predicate Ascending(s: seq<Candle>) { forall i, j :: 0 <= i < j < |s| ==> s[i].tsMs < s[j].tsMs }

  predicate HasTs(s: seq<Candle>, ts: int) { exists c :: c in s && c.tsMs == ts }

  /** The last `n` elements: what a deque of bounded length keeps. */
  function Newest(s: seq<Candle>, n: nat): seq<Candle> { if |s| <= n then s else s[|s| - n..] }

  function TsOf(c: Candle): int { c.tsMs }

  /** `merge_candle` on the series of one symbol. */
  function Merged(s: seq<Candle>, row: Candle, maxlen: nat): seq<Candle> {
    if HasTs(s, row.tsMs) then s else Newest(SortedBy(TsOf, s + [row]), maxlen)
  }

  function MergedAll(s: seq<Candle>, rows: seq<Candle>, maxlen: nat): seq<Candle> {
    if rows == [] then s else Merged(MergedAll(s, rows[..|rows| - 1], maxlen), rows[|rows| - 1], maxlen)
  }

  // ---- Sorting ---------------------------------------------------------------------------

  ghost function Elements(s: seq<Candle>): set<Candle> { set c | c in s }

  lemma SameTimeSameCandle(s: seq<Candle>)
    requires Ascending(s)
    ensures forall x, y :: x in s && y in s && x.tsMs == y.tsMs ==> x == y
  {
    forall x, y | x in s && y in s && x.tsMs == y.tsMs
      ensures x == y
    {
      var i :| 0 <= i < |s| && s[i] == x;
      var j :| 0 <= j < |s| && s[j] == y;
    }
  }

  /** Inserting a candle of a new time into an ascending series keeps it ascending and adds
      just that candle. */
  lemma {:induction false} InsertKeepsOrder(s: seq<Candle>, c: Candle)
    requires Ascending(s) && !HasTs(s, c.tsMs)
    ensures Ascending(InsertBy(TsOf, s, c)) && |InsertBy(TsOf, s, c)| == |s| + 1
    ensures forall x :: x in InsertBy(TsOf, s, c) <==> x in s || x == c
  {
    if s == [] || s[|s| - 1].tsMs <= c.tsMs {
      assert s != [] ==> s[|s| - 1] in s;
      assert InsertBy(TsOf, s, c) == s + [c];
      hide InsertBy, HasTs;
      AppendNewest(s, c);
    } else {
      var init, last := s[..|s| - 1], s[|s| - 1];
      assert s == init + [last];
      InsertKeepsOrder(init, c);
      assert forall x :: x in init ==> x.tsMs < last.tsMs;
      AppendNewest(InsertBy(TsOf, init, c), last);
    }
  }

  lemma AppendNewest(s: seq<Candle>, c: Candle)
    requires Ascending(s) && forall x :: x in s ==> x.tsMs < c.tsMs
    ensures Ascending(s + [c]) && forall x :: x in s + [c] <==> x in s || x == c
  {
    assert forall i :: 0 <= i < |s| ==> s[i] in s;
  }

  lemma {:induction false} SortedIsFixed(s: seq<Candle>)
    requires Ascending(s)
    ensures SortedBy(TsOf, s) == s
  {
    if s != [] {
      var init := s[..|s| - 1];
      SortedIsFixed(init);
      assert init + [s[|s| - 1]] == s;
    }
  }

  lemma SortAfterAppend(s: seq<Candle>, c: Candle)
    requires Ascending(s)
    ensures SortedBy(TsOf, s + [c]) == InsertBy(TsOf, s, c)
  {
    SortedIsFixed(s);
    assert (s + [c])[..|s|] == s;
  }

  // ---- The newest of a union -----------------------------------------------------------------

  /** `s` holds, in ascending order, exactly the `n` newest candles of `u` (all, if fewer). */
  ghost predicate IsNewest(s: seq<Candle>, u: set<Candle>, n: nat) {
    && Ascending(s) && Elements(s) <= u
    && |s| == (if |u| <= n then |u| else n)
    && forall x, y :: x in u && x !in s && y in s ==> x.tsMs < y.tsMs
  }

  lemma {:induction false} DistinctElements(s: seq<Candle>)
    requires Ascending(s)
    ensures |Elements(s)| == |s|
  {
    if s != [] {
      var init, last := s[..|s| - 1], s[|s| - 1];
      assert s == init + [last];
      DistinctElements(init);
      assert last !in init;
      assert Elements(s) == Elements(init) + {last};
    }
  }

  lemma SubsetOfSameSize<T>(a: set<T>, b: set<T>)
    requires a <= b && |a| >= |b|
    ensures a == b
  {
    assert b == a + (b - a);
    assert |b| == |a| + |b - a|;
  }

  lemma ProperSubsetIsSmaller<T>(a: set<T>, b: set<T>, x: T)
    requires a <= b && x in b && x !in a
    ensures |a| < |b|
  {
    assert b == a + (b - a);
    assert x in b - a;
    assert |b| == |a| + |b - a|;
  }

  lemma LastIsNewest(s: seq<Candle>)
    requires Ascending(s) && s != []
    ensures s[|s| - 1] in Elements(s) && forall x :: x in Elements(s) ==> x.tsMs <= s[|s| - 1].tsMs
    ensures Elements(s[..|s| - 1]) == Elements(s) - {s[|s| - 1]}
  {
    var init, last := s[..|s| - 1], s[|s| - 1];
    assert s == init + [last];
    assert forall x :: x in init ==> x.tsMs < last.tsMs;
  }

  /** Two ascending series with the same candles are the same series. */
  lemma {:induction false} SameElementsSameSeries(s: seq<Candle>, t: seq<Candle>)
    requires Ascending(s) && Ascending(t) && Elements(s) == Elements(t)
    ensures s == t
  {
    DistinctElements(s);
    DistinctElements(t);
    if s != [] {
      SameLast(s, t);
      var s', t', last := s[..|s| - 1], t[..|t| - 1], s[|s| - 1];
      assert Ascending(s') && Ascending(t');
      SplitLast(s);
      SplitLast(t);
      hide Ascending;
      SameElementsSameSeries(s', t');
    }
  }

  lemma SameLast(s: seq<Candle>, t: seq<Candle>)
    requires Ascending(s) && Ascending(t) && s != [] && t != [] && Elements(s) == Elements(t)
    ensures s[|s| - 1] == t[|t| - 1]
    ensures Elements(s[..|s| - 1]) == Elements(t[..|t| - 1])
  {
    LastIsNewest(s);
    LastIsNewest(t);
    SameTimeSameCandle(s);
    var x, y := s[|s| - 1], t[|t| - 1];
    assert x in Elements(t) && y in Elements(s);
    assert x.tsMs == y.tsMs;
  }

  /** Of two series that are each upwards closed in `u`, one holds the other. */
  lemma NewestAreNested(s: seq<Candle>, t: seq<Candle>, u: set<Candle>, n: nat)
    requires IsNewest(s, u, n) && IsNewest(t, u, n)
    ensures Elements(s) <= Elements(t) || Elements(t) <= Elements(s)
  {
    if x :| x in s && x !in t {
      assert x in Elements(s);
      forall y | y in Elements(t)
        ensures y in Elements(s)
      {
      }
    }
  }

  lemma NewestIsUnique(s: seq<Candle>, t: seq<Candle>, u: set<Candle>, n: nat)
    requires IsNewest(s, u, n) && IsNewest(t, u, n)
    ensures s == t
  {
    DistinctElements(s);
    DistinctElements(t);
    NewestAreNested(s, t, u, n);
    var a, b := Elements(s), Elements(t);
    if a <= b { SubsetOfSameSize(a, b); } else { SubsetOfSameSize(b, a); }
    SameElementsSameSeries(s, t);
  }

  /** Merging a candle of a new time: the newest of the enlarged union. */
  lemma MergeNew(s: seq<Candle>, u: set<Candle>, n: nat, row: Candle)
    requires IsNewest(s, u, n) && forall x :: x in u ==> x.tsMs != row.tsMs
    ensures IsNewest(Merged(s, row, n), u + {row}, n)
  {
    DistinctElements(s);
    assert forall x :: x in s ==> x in Elements(s);
    assert !HasTs(s, row.tsMs);
    assert row !in u;
    SortAfterAppend(s, row);
    var t := InsertBy(TsOf, s, row);
    InsertKeepsOrder(s, row);
    assert Merged(s, row, n) == Newest(t, n);
    hide SortedBy, InsertBy, HasTs, Merged, Elements;
    if |t| <= n { AddToAll(t, s, u, n, row); } else { DropOldest(t, s, u, n, row); }
  }

  /** A series that is not full holds the whole union. */
  lemma AddToAll(t: seq<Candle>, s: seq<Candle>, u: set<Candle>, n: nat, row: Candle)
    requires IsNewest(s, u, n) && |s| < n && |t| == |s| + 1 && row !in u
    requires Ascending(t) && forall x :: x in t <==> x in s || x == row
    ensures IsNewest(t, u + {row}, n)
  {
    DistinctElements(s);
    hide Ascending;
    SubsetOfSameSize(Elements(s), u);
    assert forall x :: x in s <==> x in u;
    assert |u + {row}| == |u| + 1;
  }

  /** Of a full series and a new candle the oldest goes, be it the new one. */
  lemma DropOldest(t: seq<Candle>, s: seq<Candle>, u: set<Candle>, n: nat, row: Candle)
    requires IsNewest(s, u, n) && |s| == n && |t| == n + 1 && row !in u
    requires Ascending(t) && forall x :: x in t <==> x in s || x == row
    ensures IsNewest(Newest(t, n), u + {row}, n)
  {
    hide SortedBy, InsertBy, HasTs, Merged;
    var v, r, first := u + {row}, t[1..], t[0];
    assert t == [first] + r;
    assert forall x :: x in t <==> x == first || x in r;
    assert forall x :: x in s <==> x in Elements(s);
    assert |v| == |u| + 1;
    assert Ascending(r);
    forall x, y | x in v && x !in r && y in r
      ensures x.tsMs < y.tsMs
    {
      FirstIsOldest(first, r, y);
      assert x in s || x == row ==> x == first;
      assert x != first ==> first == row || first.tsMs > x.tsMs;
      assert y in s || y == row;
    }
  }

  lemma FirstIsOldest(first: Candle, r: seq<Candle>, y: Candle)
    requires Ascending([first] + r) && y in r
    ensures first.tsMs < y.tsMs
  {
    var i :| 0 <= i < |r| && r[i] == y;
    assert ([first] + r)[i + 1] == y && ([first] + r)[0] == first;
  }

  lemma {:induction false} InsertOldest(s: seq<Candle>, c: Candle)
    requires forall i :: 0 <= i < |s| ==> c.tsMs < s[i].tsMs
    ensures InsertBy(TsOf, s, c) == [c] + s
  {
    if s != [] {
      InsertOldest(s[..|s| - 1], c);
      assert [c] + s[..|s| - 1] + [s[|s| - 1]] == [c] + s;
    }
  }

  /** Merging a candle of a time that the union already has changes nothing, even when the
      candle of that time has long been dropped from the series. */
  lemma MergeKnown(s: seq<Candle>, u: set<Candle>, n: nat, row: Candle, known: Candle)
    requires IsNewest(s, u, n) && known in u && known.tsMs == row.tsMs
    ensures Merged(s, row, n) == s
  {
    if !HasTs(s, row.tsMs) {
      assert known !in s;
      DistinctElements(s);
      ProperSubsetIsSmaller(Elements(s), u, known);
      SortAfterAppend(s, row);
      InsertOldest(s, row);
      assert |[row] + s| == n + 1 && ([row] + s)[1..] == s;
    }
  }

  // ---- Merging a batch -----------------------------------------------------------------------

  ghost predicate DistinctRows(rows: seq<Candle>) {
    forall i, j :: 0 <= i < j < |rows| ==> rows[i].tsMs != rows[j].tsMs
  }

  /** The series together with the rows whose times it does not have. */
  ghost function Union(s: seq<Candle>, rows: seq<Candle>): set<Candle> {
    Elements(s) + set r | r in rows && !HasTs(s, r.tsMs)
  }

  /** One more row: its time is known to the union already, or the union grows by the row. */
  lemma UnionGrows(s: seq<Candle>, init: seq<Candle>, row: Candle)
    requires DistinctRows(init + [row])
    ensures HasTs(s, row.tsMs) ==> Union(s, init + [row]) == Union(s, init)
    ensures !HasTs(s, row.tsMs) ==> Union(s, init + [row]) == Union(s, init) + {row}
    ensures !HasTs(s, row.tsMs) ==> forall x :: x in Union(s, init) ==> x.tsMs != row.tsMs
  {
    var rows := init + [row];
    assert forall x :: x in rows <==> x in init || x == row;
    forall x | x in init
      ensures x.tsMs != row.tsMs
    {
      var i :| 0 <= i < |init| && init[i] == x;
      assert rows[i] == x && rows[|init|] == row;
    }
  }

  /** Merging rows of pairwise distinct times into an ascending series within its bound leaves
      exactly the newest `n` candles of their union, ascending and without repeats. */
  lemma {:induction false} MergingKeepsNewest(s: seq<Candle>, rows: seq<Candle>, n: nat)
    requires Ascending(s) && |s| <= n && DistinctRows(rows)
    ensures IsNewest(MergedAll(s, rows, n), Union(s, rows), n)
  {
    hide Merged;
    if rows == [] {
      DistinctElements(s);
      assert Union(s, rows) == Elements(s);
    } else {
      var init, row := rows[..|rows| - 1], rows[|rows| - 1];
      MergingKeepsNewest(s, init, n);
      assert init + [row] == rows;
      UnionGrows(s, init, row);
      MergeOneMore(s, MergedAll(s, init, n), Union(s, init), n, row);
    }
  }

  lemma MergeOneMore(s: seq<Candle>, t: seq<Candle>, u: set<Candle>, n: nat, row: Candle)
    requires IsNewest(t, u, n) && Elements(s) <= u
    requires !HasTs(s, row.tsMs) ==> forall x :: x in u ==> x.tsMs != row.tsMs
    ensures IsNewest(Merged(t, row, n), if HasTs(s, row.tsMs) then u else u + {row}, n)
  {
    if HasTs(s, row.tsMs) {
      var k :| k in s && k.tsMs == row.tsMs;
      assert k in Elements(s);
      MergeKnown(t, u, n, row, k);
    } else {
      MergeNew(t, u, n, row);
    }
  }

  /** The order of merging does not matter. */
  lemma MergingIsOrderIndependent(s: seq<Candle>, rows: seq<Candle>, rows': seq<Candle>, n: nat)
    requires Ascending(s) && |s| <= n && DistinctRows(rows) && DistinctRows(rows')
    requires forall r :: r in rows <==> r in rows'
    ensures MergedAll(s, rows, n) == MergedAll(s, rows', n)
  {
    MergingKeepsNewest(s, rows, n);
    MergingKeepsNewest(s, rows', n);
    assert Union(s, rows) == Union(s, rows');
    NewestIsUnique(MergedAll(s, rows, n), MergedAll(s, rows', n), Union(s, rows), n);
  }

  lemma {:induction false} MergingKnownRows(t: seq<Candle>, u: set<Candle>, n: nat, rows: seq<Candle>)
    requires IsNewest(t, u, n)
    requires forall i :: 0 <= i < |rows| ==> exists k :: k in u && k.tsMs == rows[i].tsMs
    ensures MergedAll(t, rows, n) == t
  {
    hide Merged, IsNewest;
    if rows != [] {
      var init, row := rows[..|rows| - 1], rows[|rows| - 1];
      MergingKnownRows(t, u, n, init);
      var k :| k in u && k.tsMs == row.tsMs;
      MergeKnown(t, u, n, row, k);
    }
  }

  /** Merging the same rows once more changes nothing. */
  lemma MergingIsIdempotent(s: seq<Candle>, rows: seq<Candle>, n: nat)
    requires Ascending(s) && |s| <= n && DistinctRows(rows)
    ensures MergedAll(MergedAll(s, rows, n), rows, n) == MergedAll(s, rows, n)
  {
    hide Merged, IsNewest;
    MergingKeepsNewest(s, rows, n);
    var u := Union(s, rows);
    forall i | 0 <= i < |rows|
      ensures exists k :: k in u && k.tsMs == rows[i].tsMs
    {
      if k :| k in s && k.tsMs == rows[i].tsMs {
        assert k in u;
      } else {
        assert rows[i] in u;
      }
    }
    MergingKnownRows(MergedAll(s, rows, n), u, n, rows);
  }

  // ---- Merging into a series as polling leaves it ------------------------------------------------

  /** `s` holds, in order of time, `n` newest of the candles `all` (all, if fewer). */
  ghost predicate IsNewestOf(s: seq<Candle>, all: multiset<Candle>, n: nat) {
    && InOrderBy(TsOf, s) && multiset(s) <= all
    && |s| == (if |all| <= n then |all| else n)
    && forall x, y :: x in all - multiset(s) && y in s ==> x.tsMs <= y.tsMs
  }

  lemma SplitInOrder(t: seq<Candle>, older: seq<Candle>, newer: seq<Candle>)
    requires InOrderBy(TsOf, t) && t == older + newer
    ensures InOrderBy(TsOf, newer) && multiset(t) - multiset(newer) == multiset(older)
    ensures forall x, y :: x in multiset(older) && y in newer ==> x.tsMs <= y.tsMs
  {
    assert forall j :: 0 <= j < |newer| ==> newer[j] == t[|older| + j];
    forall x, y | x in multiset(older) && y in newer
      ensures x.tsMs <= y.tsMs
    {
      assert x in older;
      var i :| 0 <= i < |older| && older[i] == x;
      var j :| 0 <= j < |newer| && newer[j] == y;
      assert TsOf(t[i]) <= TsOf(t[|older| + j]);
    }
  }

  lemma NewestInOrder(t: seq<Candle>, n: nat)
    requires InOrderBy(TsOf, t)
    ensures IsNewestOf(Newest(t, n), multiset(t), n)
  {
    if |t| > n {
      var k := |t| - n;
      SplitInOrder(t, t[..k], t[k..]);
      assert t == t[..k] + t[k..];
    }
  }

  /** Merging a candle of a new time orders any series, be it out of order and with repeats, and
      leaves its newest candles. */
  lemma MergingOrders(s: seq<Candle>, row: Candle, n: nat)
    requires !HasTs(s, row.tsMs)
    ensures IsNewestOf(Merged(s, row, n), multiset(s) + multiset{row}, n)
  {
    hide SortedBy, InOrderBy, IsNewestOf, Newest;
    SortSorts(TsOf, s + [row]);
    NewestInOrder(SortedBy(TsOf, s + [row]), n);
  }

  ghost function TimeSet(s: seq<Candle>): set<int> { set c | c in s :: c.tsMs }

  /** The times of `s` are times of `all`, with none left out that is later than one of them, and
      none at all while `s` is not full. */
  ghost predicate KeepsNewestTimes(s: seq<Candle>, all: set<int>, n: nat) {
    && |s| <= n && TimeSet(s) <= all
    && (forall t :: t in all && !HasTs(s, t) ==> |s| == n && OlderThan(t, s))
  }

  ghost predicate OlderThan(t: int, s: seq<Candle>) { forall x :: x in s ==> t < x.tsMs }

  lemma MergeKeepsNewestTimes(s: seq<Candle>, all: set<int>, n: nat, row: Candle)
    requires KeepsNewestTimes(s, all, n)
    ensures KeepsNewestTimes(Merged(s, row, n), all + {row.tsMs}, n)
  {
    if HasTs(s, row.tsMs) {
      assert row.tsMs in TimeSet(s);
      assert all + {row.tsMs} == all;
    } else {
      MergingOrders(s, row, n);
      var m, rest := Merged(s, row, n), multiset(s) + multiset{row} - multiset(Merged(s, row, n));
      hide Merged;
      SplitByMerge(s, row, m, rest);
      forall t | t in all + {row.tsMs} && !HasTs(m, t)
        ensures |m| == n && OlderThan(t, m)
      {
        DroppedIsOlder(s, all, n, row, m, rest, t);
      }
    }
  }

  lemma SplitByMerge(s: seq<Candle>, row: Candle, m: seq<Candle>, rest: multiset<Candle>)
    requires multiset(m) <= multiset(s) + multiset{row} && rest == multiset(s) + multiset{row} - multiset(m)
    ensures forall x :: x in s || x == row <==> x in m || x in rest
    ensures |rest| == |s| + 1 - |m|
  {
    assert multiset(m) + rest == multiset(s) + multiset{row};
    assert forall x :: x in multiset(m) + rest <==> x in multiset(s) + multiset{row};
    assert |multiset(m) + rest| == |multiset(m)| + |rest|;
    assert |multiset(s) + multiset{row}| == |s| + 1;
  }

  lemma DroppedIsOlder(s: seq<Candle>, all: set<int>, n: nat, row: Candle, m: seq<Candle>, rest: multiset<Candle>, t: int)
    requires KeepsNewestTimes(s, all, n) && !HasTs(s, row.tsMs)
    requires IsNewestOf(m, multiset(s) + multiset{row}, n) && rest == multiset(s) + multiset{row} - multiset(m)
    requires forall x :: x in s || x == row <==> x in m || x in rest
    requires |rest| == |s| + 1 - |m| && t in all + {row.tsMs} && !HasTs(m, t)
    ensures |m| == n && OlderThan(t, m)
  {
    hide InOrderBy;
    if HasTs(s, t) || t == row.tsMs {
      var c := if t == row.tsMs then row else var c :| c in s && c.tsMs == t; c;
      assert c in rest;
    } else {
      assert |s| == n && OlderThan(t, s);
      assert |rest| == 1;
      var c :| c in rest;
      assert m != [] && row in m ==> c != row by { RowOnce(s, row, m, rest); }
    }
  }

  lemma RowOnce(s: seq<Candle>, row: Candle, m: seq<Candle>, rest: multiset<Candle>)
    requires !HasTs(s, row.tsMs) && rest == multiset(s) + multiset{row} - multiset(m)
    ensures row in m ==> row !in rest
  {
    assert row !in s;
    assert (multiset(s) + multiset{row})[row] == 1;
  }

  /** Merging any rows into any series keeps the newest of all their times. */
  lemma {:induction false} MergingKeepsNewestTimes(s: seq<Candle>, rows: seq<Candle>, n: nat)
    requires |s| <= n
    ensures KeepsNewestTimes(MergedAll(s, rows, n), TimeSet(s) + TimeSet(rows), n)
  {
    hide Merged;
    if rows == [] {
      assert TimeSet(s) + TimeSet([]) == TimeSet(s);
    } else {
      var init, row := rows[..|rows| - 1], rows[|rows| - 1];
      MergingKeepsNewestTimes(s, init, n);
      MergeKeepsNewestTimes(MergedAll(s, init, n), TimeSet(s) + TimeSet(init), n, row);
      assert rows == init + [row];
      assert TimeSet(rows) == TimeSet(init) + {row.tsMs};
      assert TimeSet(s) + TimeSet(init) + {row.tsMs} == TimeSet(s) + TimeSet(rows);
    }
  }

  /** Reconciling a series against a provider that has every candle of its span, and merging what it
      returned, leaves no gap, whatever the order of the series and however little of it is kept. */
  lemma ReconcilingLeavesNoGap(s: seq<Candle>, lo: int, hi: int, base: int, tf: int, provider: Gaps.Provider, n: nat)
    requires tf > 0 && |s| <= n && Gaps.AllOnGrid(Gaps.Times(s), base, tf)
    requires Gaps.Between(Gaps.Times(s), lo, hi) && Gaps.Serves(provider, lo, hi, base, tf)
    ensures var m := MergedAll(s, Gaps.BackfilledRows(Gaps.Times(s), tf, provider), n);
            Gaps.GapsOf(Gaps.SortedDistinct(Gaps.Times(m)), tf) == []
  {
    hide Gaps.GapsOf, Gaps.SortedDistinct, Gaps.Serves, Gaps.BackfilledRows, MergedAll;
    var rows := Gaps.BackfilledRows(Gaps.Times(s), tf, provider);
    var m, all := MergedAll(s, rows, n), Gaps.Times(s) + Gaps.Times(rows);
    Gaps.ReconcileRepairs(Gaps.Times(s), lo, hi, base, tf, provider);
    Gaps.GapsVanishExactly(all, tf);
    MergingKeepsNewestTimes(s, rows, n);
    TimesAsSet(s);
    TimesAsSet(rows);
    TimesAsSet(m);
    LaterTimesAreKept(m, TimeSet(s) + TimeSet(rows), n);
    Gaps.LaterPartIsGapless(Gaps.Times(m), all, tf);
    Gaps.GapsVanishExactly(Gaps.Times(m), tf);
  }

  lemma TimesAsSet(s: seq<Candle>)
    ensures forall t :: t in Gaps.Times(s) <==> t in TimeSet(s)
    ensures forall t :: HasTs(s, t) <==> t in TimeSet(s)
  {
    var times := Gaps.Times(s);
    forall t
      ensures t in times <==> t in TimeSet(s)
    {
      if t in times { var i :| 0 <= i < |times| && times[i] == t; assert s[i] in s; }
      if c :| c in s && c.tsMs == t { var i :| 0 <= i < |s| && s[i] == c; assert times[i] == t; }
    }
  }

  lemma LaterTimesAreKept(m: seq<Candle>, all: set<int>, n: nat)
    requires KeepsNewestTimes(m, all, n)
    ensures TimeSet(m) <= all && forall t, u :: t in TimeSet(m) && u in all && t < u ==> u in TimeSet(m)
  {
    TimesAsSet(m);
  }

  // ---- Showing bars in the series -------------------------------------------------------------

  /** `_klines` for one bar: an update of the forming bar, or the next bar. */
  function Shown(s: seq<Candle>, c: Candle, maxlen: nat): seq<Candle> {
    if s != [] && s[|s| - 1].tsMs == c.tsMs then s[..|s| - 1] + [c] else Newest(s + [c], maxlen)
  }

  function ShownAll(s: seq<Candle>, bars: seq<Candle>, maxlen: nat): seq<Candle> {
    if bars == [] then s else Shown(ShownAll(s, bars[..|bars| - 1], maxlen), bars[|bars| - 1], maxlen)
  }

  /** What of `s` precedes a poll whose first bar is `c`: `c` replaces a bar of the same time only
      at the end. */
  function Kept(s: seq<Candle>, c: Candle): seq<Candle> {
    if s != [] && s[|s| - 1].tsMs == c.tsMs then s[..|s| - 1] else s
  }

  lemma AppendToNewest(s: seq<Candle>, c: Candle, n: nat)
    ensures Newest(Newest(s, n) + [c], n) == Newest(s + [c], n)
  {
    if n < |s| {
      var t := s[|s| - n..];
      assert s + [c] == s[..|s| - n] + (t + [c]);
    }
  }

  lemma {:induction false} ShownAllAppends(s: seq<Candle>, bars: seq<Candle>, n: nat)
    requires |s| <= n && bars != [] && Ascending(bars)
    ensures ShownAll(s, bars, n) == Newest(Kept(s, bars[0]) + bars, n)
  {
    hide Newest, Shown, Kept;
    var init, c := bars[..|bars| - 1], bars[|bars| - 1];
    assert bars == init + [c];
    if init == [] {
      assert bars == [c];
      assert ShownAll(s, init, n) == s;
      FirstShown(s, c, n);
    } else {
      ShownAllAppends(s, init, n);
      NextShown(Kept(s, bars[0]), init, c, n);
    }
  }

  lemma FirstShown(s: seq<Candle>, c: Candle, n: nat)
    requires |s| <= n
    ensures Shown(s, c, n) == Newest(Kept(s, c) + [c], n)
  {
  }

  lemma NextShown(kept: seq<Candle>, init: seq<Candle>, c: Candle, n: nat)
    requires init != [] && init[|init| - 1].tsMs < c.tsMs
    ensures Shown(Newest(kept + init, n), c, n) == Newest(kept + (init + [c]), n)
  {
    var t := Newest(kept + init, n);
    assert t != [] ==> t[|t| - 1] == init[|init| - 1];
    hide Newest;
    ShownLater(t, init[|init| - 1], c, n);
    AppendToNewest(kept + init, c, n);
    assert (kept + init) + [c] == kept + (init + [c]);
  }

  lemma ShownLater(t: seq<Candle>, last: Candle, c: Candle, n: nat)
    requires t != [] ==> t[|t| - 1] == last
    requires last.tsMs < c.tsMs
    ensures Shown(t, c, n) == Newest(t + [c], n)
  {
  }

  /** A poll of ascending bars keeps an ascending series ascending exactly when it starts no
      earlier than the series ends, or replaces the series altogether. */
  lemma PollKeepsOrderExactly(s: seq<Candle>, bars: seq<Candle>, n: nat)
    requires Ascending(s) && |s| <= n && bars != [] && Ascending(bars)
    ensures Ascending(ShownAll(s, bars, n)) <==> s == [] || s[|s| - 1].tsMs <= bars[0].tsMs || n <= |bars|
  {
    hide ShownAll;
    ShownAllAppends(s, bars, n);
    var kept := Kept(s, bars[0]);
    var all := kept + bars;
    var t := Newest(all, n);
    if n <= |bars| {
      assert t == Newest(bars, n);
    } else if s == [] || s[|s| - 1].tsMs <= bars[0].tsMs {
      assert Ascending(all);
    } else {
      var k := |t| - |bars|;
      assert t[k] == bars[0] && t[k - 1] == s[|s| - 1];
    }
  }

  /** The ordinary case breaks it: the same bars polled twice, less the oldest. */
  lemma RepollingDisorders()
    ensures exists a, b, c :: var s := ShownAll([], [a, b, c], 500);
              Ascending([a, b, c]) && s == [a, b, c] && !Ascending(ShownAll(s, [b, c], 500))
  {
    hide ShownAll;
    var a := Candle(0, 1.0, 1.0, 1.0, 1.0, 1.0);
    var b, c := a.(tsMs := 60000), a.(tsMs := 120000);
    FirstPoll([a, b, c], 500);
    PollKeepsOrderExactly([a, b, c], [b, c], 500);
  }

  lemma FirstPoll(bars: seq<Candle>, n: nat)
    requires bars != [] && Ascending(bars) && |bars| <= n
    ensures ShownAll([], bars, n) == bars
  {
    hide ShownAll;
    ShownAllAppends([], bars, n);
    assert Kept([], bars[0]) + bars == bars;
  }

  /** A bar of a stream message, marked when it is complete. */
  datatype Bar = Bar(candle: Candle, confirm: bool)

  function CandlesOf(message: seq<Bar>): seq<Candle> {
    if message == [] then [] else CandlesOf(message[..|message| - 1]) + [message[|message| - 1].candle]
  }

  function MarkedOf(message: seq<Bar>): seq<Candle> {
    if message == [] then []
    else
      var m := message[|message| - 1];
      MarkedOf(message[..|message| - 1]) + if m.confirm then [m.candle] else []
  }

  // ---- Confirming polled bars -----------------------------------------------------------------

  predicate After(last: Option<int>, ts: int) { last.None? || last.value < ts }

  /** The bars that a poll confirms, given its newest start and the last start confirmed before. */
  function Fires(bars: seq<Candle>, newest: int, last: Option<int>): seq<Candle> {
    if bars == [] then [] else
    var c := bars[|bars| - 1];
    Fires(bars[..|bars| - 1], newest, last) + if c.tsMs < newest && After(last, c.tsMs) then [c] else []
  }

  function LastStart(bars: seq<Candle>, otherwise: Option<int>): Option<int> {
    if bars == [] then otherwise else Some(bars[|bars| - 1].tsMs)
  }

  /** The bars one poll confirms; an empty poll is ignored. */
  function Poll(bars: seq<Candle>, last: Option<int>): seq<Candle> {
    if bars == [] then [] else Fires(bars, bars[|bars| - 1].tsMs, last)
  }

  /** All the bars confirmed over a run of polls of one symbol. */
  function Closings(polls: seq<seq<Candle>>): seq<Candle> {
    if polls == [] then [] else
    var before := Closings(polls[..|polls| - 1]);
    before + Poll(polls[|polls| - 1], LastStart(before, None))
  }

  lemma {:induction false} FiresExactly(bars: seq<Candle>, newest: int, last: Option<int>)
    requires Ascending(bars)
    ensures Ascending(Fires(bars, newest, last))
    ensures forall c :: c in Fires(bars, newest, last) <==> c in bars && c.tsMs < newest && After(last, c.tsMs)
  {
    if bars != [] {
      var init, c := bars[..|bars| - 1], bars[|bars| - 1];
      assert bars == init + [c];
      FiresExactly(init, newest, last);
      var f := Fires(init, newest, last);
      assert forall i :: 0 <= i < |f| ==> f[i] in f;
      assert forall x :: x in init ==> x.tsMs < c.tsMs;
    }
  }

  /** The bars that a poll shows complete: all but its newest. */
  ghost function Complete(bars: seq<Candle>): set<Candle> {
    set c | c in bars && c.tsMs < bars[|bars| - 1].tsMs
  }

  ghost function CompleteIn(polls: seq<seq<Candle>>): set<Candle> {
    if polls == [] then {} else CompleteIn(polls[..|polls| - 1]) + Complete(polls[|polls| - 1])
  }

  /** Poll `k` shows `c` complete, and no poll before it showed a bar as late complete. */
  ghost predicate ClosedBy(polls: seq<seq<Candle>>, k: int, c: Candle)
    requires 0 <= k < |polls|
  {
    c in Complete(polls[k]) && forall x :: x in CompleteIn(polls[..k]) ==> x.tsMs < c.tsMs
  }

  lemma PollExactly(bars: seq<Candle>, last: Option<int>)
    requires Ascending(bars)
    ensures Ascending(Poll(bars, last))
    ensures forall c :: c in Poll(bars, last) <==> c in Complete(bars) && After(last, c.tsMs)
  {
    if bars != [] { FiresExactly(bars, bars[|bars| - 1].tsMs, last); }
  }

  /** The last of `closings` is the latest of `complete`. */
  ghost predicate EndsWithLatest(closings: seq<Candle>, complete: set<Candle>) {
    && (closings == [] ==> complete == {})
    && (closings != [] ==> closings[|closings| - 1] in complete
                           && forall x :: x in complete ==> x.tsMs <= closings[|closings| - 1].tsMs)
  }

  /** A later ascending run behind an ascending run. */
  lemma AppendLater(s: seq<Candle>, t: seq<Candle>)
    requires Ascending(s) && Ascending(t)
    requires forall c :: c in t ==> After(LastStart(s, None), c.tsMs)
    ensures Ascending(s + t)
  {
    assert forall i :: 0 <= i < |t| ==> t[i] in t;
  }

  lemma LatestGrows(before: seq<Candle>, shown: set<Candle>, now: seq<Candle>, showing: set<Candle>)
    requires EndsWithLatest(before, shown) && Ascending(now)
    requires forall c :: c in now <==> c in showing && After(LastStart(before, None), c.tsMs)
    ensures EndsWithLatest(before + now, shown + showing)
  {
    var all := before + now;
    if now != [] {
      LastIsNewest(now);
      assert all[|all| - 1] == now[|now| - 1];
    } else {
      assert all == before;
    }
  }

  /** The last bar confirmed is the latest that any poll has shown complete. */
  lemma {:induction false} LastClosingIsLatest(polls: seq<seq<Candle>>)
    requires forall k :: 0 <= k < |polls| ==> Ascending(polls[k])
    ensures Ascending(Closings(polls)) && EndsWithLatest(Closings(polls), CompleteIn(polls))
  {
    if polls != [] {
      hide EndsWithLatest, Poll, Complete, Ascending;
      var init, bars := polls[..|polls| - 1], polls[|polls| - 1];
      LastClosingIsLatest(init);
      var before := Closings(init);
      var now := Poll(bars, LastStart(before, None));
      PollExactly(bars, LastStart(before, None));
      AppendLater(before, now);
      LatestGrows(before, CompleteIn(init), now, Complete(bars));
    }
  }

  /** Over any run of ascending polls the confirmations are in ascending order, so no bar is
      confirmed twice, and they are exactly the bars that some poll showed complete before any
      poll had shown a bar as late complete. */
  lemma {:induction false} EachBarClosesOnce(polls: seq<seq<Candle>>)
    requires forall k :: 0 <= k < |polls| ==> Ascending(polls[k])
    ensures Ascending(Closings(polls))
    ensures forall c :: c in Closings(polls) <==> exists k :: 0 <= k < |polls| && ClosedBy(polls, k, c)
  {
    hide Poll, ClosedBy, Ascending;
    LastClosingIsLatest(polls);
    if polls != [] {
      var n := |polls| - 1;
      var init := polls[..n];
      EachBarClosesOnce(init);
      var before := Closings(init);
      var now := Poll(polls[n], LastStart(before, None));
      forall c
        ensures c in before + now <==> exists k :: 0 <= k < |polls| && ClosedBy(polls, k, c)
      {
        ClosedEarlierOrNow(polls, n, c);
        LastPollCloses(polls, n, c);
      }
    }
  }

  lemma ClosedEarlierOrNow(polls: seq<seq<Candle>>, n: nat, c: Candle)
    requires n + 1 == |polls|
    ensures (exists k :: 0 <= k < |polls| && ClosedBy(polls, k, c))
       <==> (exists k :: 0 <= k < n && ClosedBy(polls[..n], k, c)) || ClosedBy(polls, n, c)
  {
    forall k | 0 <= k < n
      ensures ClosedBy(polls[..n], k, c) == ClosedBy(polls, k, c)
    {
      assert polls[..n][..k] == polls[..k];
    }
  }

  lemma LastPollCloses(polls: seq<seq<Candle>>, n: nat, c: Candle)
    requires n < |polls| && forall k :: 0 <= k < |polls| ==> Ascending(polls[k])
    ensures ClosedBy(polls, n, c) <==> c in Poll(polls[n], LastStart(Closings(polls[..n]), None))
  {
    LastClosingIsLatest(polls[..n]);
    PollExactly(polls[n], LastStart(Closings(polls[..n]), None));
  }

  lemma OneMoreStep(s: seq<Candle>, bars: seq<Candle>, i: nat, n: nat, newest: int, last: Option<int>)
    requires i < |bars|
    ensures ShownAll(s, bars[..i + 1], n) == Shown(ShownAll(s, bars[..i], n), bars[i], n)
    ensures Fires(bars[..i + 1], newest, last)
            == Fires(bars[..i], newest, last) + if bars[i].tsMs < newest && After(last, bars[i].tsMs) then [bars[i]] else []
  {
    assert bars[..i + 1][..i] == bars[..i] && bars[..i + 1][i] == bars[i];
  }

  /** What one more bar of a poll adds to the series and to the confirmations. */
  lemma OneMoreBar(s: seq<Candle>, bars: seq<Candle>, i: nat, n: nat, newest: int, last: Option<int>, symbol: Symbol,
                   log: seq<(Symbol, Candle)>)
    requires i < |bars|
    ensures ShownAll(s, bars[..i + 1], n) == Shown(ShownAll(s, bars[..i], n), bars[i], n)
    ensures var fired := Fires(bars[..i], newest, last);
            var fires := bars[i].tsMs < newest && After(last, bars[i].tsMs);
            && log + Tagged(symbol, Fires(bars[..i + 1], newest, last))
               == log + Tagged(symbol, fired) + (if fires then [(symbol, bars[i])] else [])
            && LastStart(Fires(bars[..i + 1], newest, last), last)
               == if fires then Some(bars[i].tsMs) else LastStart(fired, last)
  {
    OneMoreStep(s, bars, i, n, newest, last);
    hide Fires, Shown, ShownAll;
    var fired := Fires(bars[..i], newest, last);
    if bars[i].tsMs < newest && After(last, bars[i].tsMs) {
      assert (fired + [bars[i]])[..|fired|] == fired;
      assert Tagged(symbol, fired + [bars[i]]) == Tagged(symbol, fired) + [(symbol, bars[i])];
      Reassociate(log, Tagged(symbol, fired), [(symbol, bars[i])]);
    }
  }

  lemma TaggedAppends(symbol: Symbol, s: seq<Candle>, t: seq<Candle>)
    ensures Tagged(symbol, s + t) == Tagged(symbol, s) + Tagged(symbol, t)
  {
  }

  lemma OneMorePoll(polls: seq<seq<Candle>>, i: nat, symbol: Symbol, log: seq<(Symbol, Candle)>)
    requires i < |polls|
    ensures var before := Closings(polls[..i]);
            var now := Poll(polls[i], LastStart(before, None));
            && log + Tagged(symbol, Closings(polls[..i + 1])) == log + Tagged(symbol, before) + Tagged(symbol, now)
            && LastStart(Closings(polls[..i + 1]), None) == LastStart(now, LastStart(before, None))
            && (polls[i] == [] ==> now == [])
    ensures Tagged(symbol, []) == []
  {
    assert polls[..i + 1][..i] == polls[..i] && polls[..i + 1][i] == polls[i];
    var before := Closings(polls[..i]);
    var now := Poll(polls[i], LastStart(before, None));
    assert Closings(polls[..i + 1]) == before + now;
    hide Closings, Poll, Tagged;
    TaggedAppends(symbol, before, now);
    Reassociate(log, Tagged(symbol, before), Tagged(symbol, now));
  }

  lemma Reassociate<T>(a: seq<T>, b: seq<T>, c: seq<T>)
    ensures (a + b) + c == a + (b + c)
  {
  }

  lemma NoMessageYet(s: seq<Candle>, message: seq<Bar>, n: nat, symbol: Symbol)
    ensures ShownAll(s, CandlesOf(message[..0]), n) == s && Tagged(symbol, MarkedOf(message[..0])) == []
    ensures message[..|message|] == message
  {
  }

  lemma OneMoreInMessage(s: seq<Candle>, message: seq<Bar>, i: nat, n: nat, symbol: Symbol, log: seq<(Symbol, Candle)>)
    requires i < |message|
    ensures ShownAll(s, CandlesOf(message[..i + 1]), n) == Shown(ShownAll(s, CandlesOf(message[..i]), n), message[i].candle, n)
    ensures log + Tagged(symbol, MarkedOf(message[..i + 1]))
            == log + Tagged(symbol, MarkedOf(message[..i])) + if message[i].confirm then [(symbol, message[i].candle)] else []
  {
    assert message[..i + 1][..i] == message[..i] && message[..i + 1][i] == message[i];
    var shown, marked := CandlesOf(message[..i]), MarkedOf(message[..i]);
    assert (shown + [message[i].candle])[..|shown|] == shown;
    hide Shown;
    if message[i].confirm {
      TaggedAppends(symbol, marked, [message[i].candle]);
      TaggedOne(symbol, message[i].candle);
      Reassociate(log, Tagged(symbol, marked), [(symbol, message[i].candle)]);
    }
  }

  lemma TaggedOne(symbol: Symbol, c: Candle)
    ensures Tagged(symbol, [c]) == [(symbol, c)]
  {
  }

  lemma NoBarsYet(s: seq<Candle>, bars: seq<Candle>, n: nat, last: Option<int>, symbol: Symbol)
    requires bars != []
    ensures ShownAll(s, bars[..0], n) == s
    ensures var newest := bars[|bars| - 1].tsMs;
            && Fires(bars[..0], newest, last) == []
            && Poll(bars, last) == Fires(bars, newest, last)
    ensures Tagged(symbol, []) == []
  {
  }

  // ---- The hub -----------------------------------------------------------------------------------

  class MarketHub {
    const history: nat
    var candles: map<Symbol, seq<Candle>>
    var finalKlineTs: map<Symbol, int>
    /** What `on_candle_closed` has been called with. */
    var closed: seq<(Symbol, Candle)>

    function LastFinal(symbol: Symbol): Option<int>
      reads this
    {
      if symbol in finalKlineTs then Some(finalKlineTs[symbol]) else None
    }

    constructor (symbols: set<Symbol>, history: nat)
      ensures this.history == history && candles == map s | s in symbols :: []
      ensures finalKlineTs == map[] && closed == []
    {
      this.history := history;
      candles := map s | s in symbols :: [];
      finalKlineTs := map[];
      closed := [];
    }

    /** `merge_candle`. */
    method MergeCandle(symbol: Symbol, row: Candle)
      modifies this
      ensures candles == if symbol !in old(candles) then old(candles)
                         else old(candles)[symbol := Merged(old(candles)[symbol], row, history)]
      ensures finalKlineTs == old(finalKlineTs) && closed == old(closed)
    {
      if symbol !in candles { return; }
      var dq := candles[symbol];
      var i := 0;
      while i < |dq|
        invariant 0 <= i <= |dq|
        invariant forall j :: 0 <= j < i ==> dq[j].tsMs != row.tsMs
        modifies {}
      {
        if dq[i].tsMs == row.tsMs {
          assert dq[i] in dq;
          return;
        }
        i := i + 1;
      }
      assert !HasTs(dq, row.tsMs);
      candles := candles[symbol := Newest(SortedBy(TsOf, dq + [row]), history)];
    }

    /** The loop that merges what the reconciler fetched. */
    method MergeRows(symbol: Symbol, rows: seq<Candle>)
      modifies this
      ensures candles == if symbol !in old(candles) then old(candles)
                         else old(candles)[symbol := MergedAll(old(candles)[symbol], rows, history)]
      ensures finalKlineTs == old(finalKlineTs) && closed == old(closed)
    {
      hide Merged;
      for i := 0 to |rows|
        invariant candles == if symbol !in old(candles) then old(candles)
                             else old(candles)[symbol := MergedAll(old(candles)[symbol], rows[..i], history)]
        invariant finalKlineTs == old(finalKlineTs) && closed == old(closed)
      {
        assert rows[..i + 1][..i] == rows[..i];
        MergeCandle(symbol, rows[i]);
      }
      assert rows[..|rows|] == rows;
    }

    /** The body of the loop of `_klines`; an unknown symbol raises. */
    method Kline(symbol: Symbol, c: Candle, confirm: bool) returns (raised: bool)
      modifies this
      ensures raised == (symbol !in old(candles))
      ensures raised ==> candles == old(candles) && closed == old(closed)
      ensures !raised ==> candles == old(candles)[symbol := Shown(old(candles)[symbol], c, history)]
      ensures !raised ==> closed == old(closed) + if confirm then [(symbol, c)] else []
      ensures finalKlineTs == old(finalKlineTs)
    {
      if symbol !in candles { return true; }
      var dq := candles[symbol];
      if dq != [] && dq[|dq| - 1].tsMs == c.tsMs {
        dq := dq[..|dq| - 1] + [c];
      } else {
        dq := Newest(dq + [c], history);
      }
      candles := candles[symbol := dq];
      if confirm { closed := closed + [(symbol, c)]; }
      raised := false;
    }

    /** `_klines`: every bar of a message is shown, and the ones marked are handed on as closed. */
    method Klines(symbol: Symbol, message: seq<Bar>) returns (raised: bool)
      modifies this
      ensures raised == (message != [] && symbol !in old(candles))
      ensures raised || message == [] ==> candles == old(candles) && closed == old(closed)
      ensures !raised && message != [] ==>
        && candles == old(candles)[symbol := ShownAll(old(candles)[symbol], CandlesOf(message), history)]
        && closed == old(closed) + Tagged(symbol, MarkedOf(message))
      ensures finalKlineTs == old(finalKlineTs)
    {
      hide Shown, ShownAll, Tagged, CandlesOf, MarkedOf;
      if message == [] { return false; }
      if symbol !in candles { return true; }
      NoMessageYet(old(candles)[symbol], message, history, symbol);
      var i := 0;
      while i < |message|
        invariant 0 <= i <= |message|
        invariant symbol in candles && finalKlineTs == old(finalKlineTs)
        invariant candles == old(candles)[symbol := ShownAll(old(candles)[symbol], CandlesOf(message[..i]), history)]
        invariant closed == old(closed) + Tagged(symbol, MarkedOf(message[..i]))
      {
        OneMoreInMessage(old(candles)[symbol], message, i, history, symbol, old(closed));
        raised := Kline(symbol, message[i].candle, message[i].confirm);
        i := i + 1;
      }
      raised := false;
    }

    /** The body of the loop over a poll. */
    method PolledBar(symbol: Symbol, k: Candle, newest: int, lastFinal: Option<int>)
      requires symbol in candles
      modifies this
      ensures candles == old(candles)[symbol := Shown(old(candles)[symbol], k, history)]
      ensures var fires := k.tsMs < newest && After(lastFinal, k.tsMs);
              && closed == old(closed) + (if fires then [(symbol, k)] else [])
              && LastFinal(symbol) == (if fires then Some(k.tsMs) else old(LastFinal(symbol)))
      ensures finalKlineTs - {symbol} == old(finalKlineTs) - {symbol}
    {
      hide Shown;
      var confirmed := k.tsMs < newest && After(lastFinal, k.tsMs);
      var raised := Kline(symbol, k, confirmed);
      if confirmed {
        finalKlineTs := finalKlineTs[symbol := k.tsMs];
      }
    }

    /** `ingest_polled_klines`. */
    method IngestPolledKlines(symbol: Symbol, klines: seq<Candle>) returns (raised: bool)
      modifies this
      ensures raised == (klines != [] && symbol !in old(candles))
      ensures raised || klines == [] ==> candles == old(candles) && closed == old(closed)
      ensures raised || klines == [] ==> finalKlineTs == old(finalKlineTs)
      ensures !raised && klines != [] ==>
        && candles == old(candles)[symbol := ShownAll(old(candles)[symbol], klines, history)]
        && closed == old(closed) + Tagged(symbol, Poll(klines, old(LastFinal(symbol))))
        && LastFinal(symbol) == LastStart(Poll(klines, old(LastFinal(symbol))), old(LastFinal(symbol)))
        && finalKlineTs - {symbol} == old(finalKlineTs) - {symbol}
    {
      hide Fires, Shown, ShownAll, Tagged, Poll, After;
      if klines == [] { return false; }
      if symbol !in candles { return true; }
      var newest := klines[|klines| - 1].tsMs;
      var lastFinal := LastFinal(symbol);
      var i := 0;
      NoBarsYet(old(candles)[symbol], klines, history, lastFinal, symbol);
      while i < |klines|
        invariant 0 <= i <= |klines|
        invariant symbol in candles
        invariant candles == old(candles)[symbol := ShownAll(old(candles)[symbol], klines[..i], history)]
        invariant closed == old(closed) + Tagged(symbol, Fires(klines[..i], newest, lastFinal))
        invariant LastFinal(symbol) == LastStart(Fires(klines[..i], newest, lastFinal), lastFinal)
        invariant finalKlineTs - {symbol} == old(finalKlineTs) - {symbol}
      {
        var k := klines[i];
        OneMoreBar(old(candles)[symbol], klines, i, history, newest, lastFinal, symbol, old(closed));
        PolledBar(symbol, k, newest, lastFinal);
        i := i + 1;
      }
      assert klines[..|klines|] == klines;
      raised := false;
    }

    /** The polling fallback for one symbol: what reaches `on_candle_closed` over a run of polls is
        what `EachBarClosesOnce` is about. */
    method PollLoop(symbol: Symbol, polls: seq<seq<Candle>>)
      requires symbol in candles && symbol !in finalKlineTs
      modifies this
      ensures closed == old(closed) + Tagged(symbol, Closings(polls))
      ensures LastFinal(symbol) == LastStart(Closings(polls), None)
    {
      var i := 0;
      assert Tagged(symbol, Closings(polls[..0])) == [];
      hide Closings, Tagged, Poll, ShownAll;
      while i < |polls|
        invariant 0 <= i <= |polls|
        invariant symbol in candles
        invariant closed == old(closed) + Tagged(symbol, Closings(polls[..i]))
        invariant LastFinal(symbol) == LastStart(Closings(polls[..i]), None)
      {
        OneMorePoll(polls, i, symbol, old(closed));
        var raised := IngestPolledKlines(symbol, polls[i]);
        i := i + 1;
      }
      assert polls[..|polls|] == polls;
    }
  }

  /** One symbol of the reconciling loop of the runtime. */
  method ReconcileSymbol(hub: MarketHub, reconciler: Gaps.CandleReconciler, symbol: Symbol, provider: Gaps.Provider,
                         ghost lo: int, ghost hi: int, ghost base: int)
    modifies hub, reconciler
    ensures symbol !in old(hub.candles) ==> hub.candles == old(hub.candles)
    ensures symbol in old(hub.candles) ==>
      var s := old(hub.candles)[symbol];
      var rows := Gaps.BackfilledRows(Gaps.Times(s), reconciler.tf, provider);
      && hub.candles == old(hub.candles)[symbol := MergedAll(s, rows, hub.history)]
      && reconciler.backfilled == old(reconciler.backfilled) + |rows|
    ensures symbol in old(hub.candles) && |old(hub.candles)[symbol]| <= hub.history && reconciler.tf > 0
            && Gaps.AllOnGrid(Gaps.Times(old(hub.candles)[symbol]), base, reconciler.tf)
            && Gaps.Between(Gaps.Times(old(hub.candles)[symbol]), lo, hi)
            && Gaps.Serves(provider, lo, hi, base, reconciler.tf)
            ==> Gaps.GapsOf(Gaps.SortedDistinct(Gaps.Times(hub.candles[symbol])), reconciler.tf) == []
  {
    hide Gaps.GapsOf, Gaps.SortedDistinct, Gaps.Serves, Gaps.BackfilledRows, MergedAll;
    if symbol !in hub.candles {
      var none := reconciler.Reconcile([], provider);
      hub.MergeRows(symbol, none);
      return;
    }
    ghost var s := hub.candles[symbol];
    if |s| <= hub.history && reconciler.tf > 0 && Gaps.AllOnGrid(Gaps.Times(s), base, reconciler.tf)
       && Gaps.Between(Gaps.Times(s), lo, hi) && Gaps.Serves(provider, lo, hi, base, reconciler.tf) {
      ReconcilingLeavesNoGap(s, lo, hi, base, reconciler.tf, provider, hub.history);
    }
    var filled := reconciler.Reconcile(Gaps.Times(hub.candles[symbol]), provider);
    hub.MergeRows(symbol, filled);
  }

  function Tagged(symbol: Symbol, bars: seq<Candle>): (r: seq<(Symbol, Candle)>)
    ensures |r| == |bars| && forall i :: 0 <= i < |r| ==> r[i] == (symbol, bars[i])
  {
    if bars == [] then [] else Tagged(symbol, bars[..|bars| - 1]) + [(symbol, bars[|bars| - 1])]
  }
}
