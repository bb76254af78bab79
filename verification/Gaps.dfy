/** Candle gap detection: backend/app/services/market_data/reconciler.py. */
module Gaps {
  import opened Models

  datatype Gap = Gap(start: int, end: int)

  ghost predicate StrictlyAscending(s: seq<int>) { forall i, j :: 0 <= i < j < |s| ==> s[i] < s[j] }

  function Elements(s: seq<int>): set<int> { set i | 0 <= i < |s| :: s[i] }

  // ---- sorted(set(timestamps)) ----------------------------------------------------------

  function Insert(s: seq<int>, x: int): seq<int> {
    if s == [] || x < s[0] then [x] + s
    else if x == s[0] then s
    else [s[0]] + Insert(s[1..], x)
  }

  function SortedDistinct(s: seq<int>): seq<int> {
    if s == [] then [] else Insert(SortedDistinct(s[1..]), s[0])
  }

  lemma {:induction false} InsertSorts(s: seq<int>, x: int)
    requires StrictlyAscending(s)
    ensures StrictlyAscending(Insert(s, x))
    ensures forall y :: y in Insert(s, x) <==> y in s || y == x
  {
    if s != [] && x > s[0] {
      InsertSorts(s[1..], x);
      var t := Insert(s[1..], x);
      forall j | 0 <= j < |t|
        ensures s[0] < t[j]
      {
        assert t[j] in t;
      }
    }
  }

  lemma {:induction false} SortedDistinctSorts(s: seq<int>)
    ensures StrictlyAscending(SortedDistinct(s))
    ensures forall y :: y in SortedDistinct(s) <==> y in s
  {
    if s != [] {
      SortedDistinctSorts(s[1..]);
      InsertSorts(SortedDistinct(s[1..]), s[0]);
    }
  }

  // ---- The gaps between consecutive stored candles ----------------------------------------

  function GapsOf(ordered: seq<int>, tf: int): seq<Gap> {
    if |ordered| < 2 then []
    else
      var prev, cur := ordered[|ordered| - 2], ordered[|ordered| - 1];
      GapsOf(ordered[..|ordered| - 1], tf) + if cur > prev + tf then [Gap(prev + tf, cur - tf)] else []
  }

  /** `find_gaps`, on timestamps in any order, repeated or not. */
  method FindGaps(timestamps: seq<int>, tf: int) returns (gaps: seq<Gap>)
    ensures gaps == if |timestamps| < 2 || tf <= 0 then [] else GapsOf(SortedDistinct(timestamps), tf)
  {
    if |timestamps| < 2 || tf <= 0 { return []; }
    var ordered := SortedDistinct(timestamps);
    gaps := [];
    if ordered == [] { return; }
    for i := 1 to |ordered|
      invariant gaps == GapsOf(ordered[..i], tf)
    {
      assert ordered[..i + 1][..i] == ordered[..i];
      var expected := ordered[i - 1] + tf;
      if ordered[i] > expected {
        gaps := gaps + [Gap(expected, ordered[i] - tf)];
      }
    }
    assert ordered[..|ordered|] == ordered;
  }

  /** Whole intervals in a span of time. */
  function Steps(span: int, tf: int): int
    requires tf > 0
  {
    span / tf
  }

  predicate Multiple(d: int, tf: int)
    requires tf > 0
  {
    d % tf == 0
  }

  function CountMissing(gaps: seq<Gap>, tf: int): int
    requires tf > 0
  {
    if gaps == [] then 0
    else CountMissing(gaps[..|gaps| - 1], tf) + Steps(gaps[|gaps| - 1].end - gaps[|gaps| - 1].start, tf) + 1
  }

  // ---- What the gaps are --------------------------------------------------------------------

  predicate OnGrid(t: int, base: int, tf: int)
    requires tf > 0
  {
    (t - base) % tf == 0
  }

  ghost predicate AllOnGrid(s: seq<int>, base: int, tf: int)
    requires tf > 0
  {
    forall i :: 0 <= i < |s| ==> OnGrid(s[i], base, tf)
  }

  /** `t` is one of the candle times that the range `g` stands for. */
  predicate InGap(g: Gap, t: int, tf: int)
    requires tf > 0
  {
    g.start <= t <= g.end && (t - g.start) % tf == 0
  }

  ghost predicate Covered(gaps: seq<Gap>, t: int, tf: int)
    requires tf > 0
  {
    exists k :: 0 <= k < |gaps| && InGap(gaps[k], t, tf)
  }

  ghost predicate AscendingGaps(gaps: seq<Gap>) {
    && (forall k :: 0 <= k < |gaps| ==> gaps[k].start <= gaps[k].end)
    && (forall j, k :: 0 <= j < k < |gaps| ==> gaps[j].end < gaps[k].start)
  }

  lemma ModShift(a: int, b: int, tf: int)
    requires tf > 0 && a % tf == 0 && b % tf == 0
    ensures (a - b) % tf == 0 && (a + b) % tf == 0
  {
    var x, y := a / tf, b / tf;
    assert a == x * tf && b == y * tf;
    assert a - b == (x - y) * tf && a + b == (x + y) * tf;
    ModMultiple(x - y, tf);
    ModMultiple(x + y, tf);
  }

  lemma ModMultiple(k: int, tf: int)
    requires tf > 0
    ensures (k * tf) % tf == 0 && (k * tf) / tf == k
  {
    var q, r := (k * tf) / tf, (k * tf) % tf;
    assert k * tf == q * tf + r;
    assert (k - q) * tf == r;
    if k - q >= 1 { Product(1, k - q, tf); }
    if k - q <= -1 { Product(k - q, -1, tf); }
  }

  lemma Product(a: int, b: int, tf: int)
    requires a <= b && tf > 0
    ensures a * tf <= b * tf
  {
  }

  /** Between two neighbours on the grid, the grid points are those the gap, if any, stands for. */
  lemma BetweenNeighbours(prev: int, cur: int, t: int, base: int, tf: int)
    requires tf > 0 && OnGrid(prev, base, tf) && OnGrid(cur, base, tf) && prev < cur
    ensures cur >= prev + tf
    ensures prev < t < cur && OnGrid(t, base, tf) <==> cur > prev + tf && InGap(Gap(prev + tf, cur - tf), t, tf)
    ensures (cur - prev) % tf == 0
  {
    ModShift(cur - base, prev - base, tf);
    PositiveMultiple(cur - prev, tf);
    if OnGrid(t, base, tf) {
      ModShift(t - base, prev - base, tf);
      ModShift(t - prev, tf, tf) by { ModMultiple(1, tf); }
      ModShift(cur - base, t - base, tf);
      if prev < t < cur {
        PositiveMultiple(t - prev, tf);
        PositiveMultiple(cur - t, tf);
      }
    } else if (t - (prev + tf)) % tf == 0 {
      ModMultiple(1, tf);
      ModShift(t - (prev + tf), tf, tf);
      ModShift(t - prev, prev - base, tf);
    }
  }

  lemma PositiveMultiple(d: int, tf: int)
    requires tf > 0 && d % tf == 0 && d > 0
    ensures d >= tf
  {
  }

  lemma {:induction false} GapsAscend(ordered: seq<int>, base: int, tf: int)
    requires tf > 0 && ordered != [] && StrictlyAscending(ordered) && AllOnGrid(ordered, base, tf)
    ensures AscendingGaps(GapsOf(ordered, tf))
    ensures forall k :: 0 <= k < |GapsOf(ordered, tf)| ==> GapsOf(ordered, tf)[k].end < ordered[|ordered| - 1]
  {
    if |ordered| >= 2 {
      var prev, cur := ordered[|ordered| - 2], ordered[|ordered| - 1];
      GapsAscend(ordered[..|ordered| - 1], base, tf);
      GridDistance(prev, cur, base, tf);
      hide OnGrid;
    }
  }

  lemma GridDistance(prev: int, cur: int, base: int, tf: int)
    requires tf > 0 && OnGrid(prev, base, tf) && OnGrid(cur, base, tf) && prev < cur
    ensures Multiple(cur - prev, tf) && cur >= prev + tf
    ensures cur > prev + tf ==> cur >= prev + 2 * tf
  {
    ModShift(cur - base, prev - base, tf);
    var k := (cur - prev) / tf;
    assert cur - prev == k * tf;
    if k <= 0 { Product(k, 0, tf); }
    if k >= 2 { Product(2, k, tf); }
  }

  /** For candle times on one grid: the ranges stand for exactly the grid points between the
      first and the last stored time that are not stored. */
  lemma {:induction false} GapsAreExactlyTheMissing(ordered: seq<int>, base: int, tf: int, t: int)
    requires tf > 0 && ordered != [] && StrictlyAscending(ordered) && AllOnGrid(ordered, base, tf)
    ensures Covered(GapsOf(ordered, tf), t, tf) <==>
              ordered[0] < t < ordered[|ordered| - 1] && OnGrid(t, base, tf) && t !in ordered
  {
    if |ordered| >= 2 {
      var init, prev, cur := ordered[..|ordered| - 1], ordered[|ordered| - 2], ordered[|ordered| - 1];
      GapsAreExactlyTheMissing(init, base, tf, t);
      BetweenNeighbours(prev, cur, t, base, tf);
      CoveredAppend(GapsOf(init, tf), Gap(prev + tf, cur - tf), t, tf);
      assert ordered[0] <= prev;
      assert GapsOf(init, tf) + [] == GapsOf(init, tf);
      hide OnGrid, InGap, Covered, StrictlyAscending;
      assert t in ordered <==> t in init || t == cur;
      assert prev in init && init[|init| - 1] == prev;
      if prev < t { assert t !in init by { NotAmong(init, t); } }
    }
  }

  lemma NotAmong(s: seq<int>, t: int)
    requires s != [] && StrictlyAscending(s) && t > s[|s| - 1]
    ensures t !in s
  {
  }

  lemma CoveredAppend(gaps: seq<Gap>, g: Gap, t: int, tf: int)
    requires tf > 0
    ensures Covered(gaps + [g], t, tf) <==> Covered(gaps, t, tf) || InGap(g, t, tf)
  {
    var all := gaps + [g];
    assert all[|gaps|] == g;
    if k :| 0 <= k < |gaps| && InGap(gaps[k], t, tf) { assert all[k] == gaps[k]; }
  }

  lemma CountGrows(ordered: seq<int>, tf: int)
    requires tf > 0 && |ordered| >= 2
    ensures var init, prev, cur := ordered[..|ordered| - 1], ordered[|ordered| - 2], ordered[|ordered| - 1];
            CountMissing(GapsOf(ordered, tf), tf)
            == CountMissing(GapsOf(init, tf), tf) + if cur > prev + tf then Steps(cur - prev - 2 * tf, tf) + 1 else 0
  {
    hide Steps;
    var init, prev, cur := ordered[..|ordered| - 1], ordered[|ordered| - 2], ordered[|ordered| - 1];
    var before, gaps := GapsOf(init, tf), GapsOf(ordered, tf);
    if cur > prev + tf {
      assert gaps == before + [Gap(prev + tf, cur - tf)];
      assert gaps[..|gaps| - 1] == before;
      assert (cur - tf) - (prev + tf) == cur - prev - 2 * tf;
    } else {
      assert gaps == before;
    }
  }

  lemma {:induction false} CountIsSpanLessStored(ordered: seq<int>, base: int, tf: int)
    requires tf > 0 && ordered != [] && StrictlyAscending(ordered) && AllOnGrid(ordered, base, tf)
    ensures Multiple(ordered[|ordered| - 1] - ordered[0], tf)
    ensures CountMissing(GapsOf(ordered, tf), tf) == Steps(ordered[|ordered| - 1] - ordered[0], tf) + 1 - |ordered|
  {
    hide OnGrid, Steps, Multiple;
    StepsOfNothing(tf);
    if |ordered| >= 2 {
      var init, prev, cur := ordered[..|ordered| - 1], ordered[|ordered| - 2], ordered[|ordered| - 1];
      CountIsSpanLessStored(init, base, tf);
      CountGrows(ordered, tf);
      hide CountMissing, GapsOf;
      GridDistance(prev, cur, base, tf);
      StepsAdd(prev - ordered[0], cur - prev, tf);
      StepsInside(cur - prev, tf);
      assert (prev - ordered[0]) + (cur - prev) == cur - ordered[0];
    }
  }

  lemma StepsOfNothing(tf: int)
    requires tf > 0
    ensures Steps(0, tf) == 0 && Multiple(0, tf)
  {
    ModMultiple(0, tf);
  }

  lemma StepsAdd(a: int, b: int, tf: int)
    requires tf > 0 && Multiple(a, tf) && Multiple(b, tf)
    ensures Steps(a + b, tf) == Steps(a, tf) + Steps(b, tf) && Multiple(a + b, tf)
  {
    var x, y := a / tf, b / tf;
    assert a + b == (x + y) * tf;
    ModMultiple(x + y, tf);
  }

  lemma StepsInside(b: int, tf: int)
    requires tf > 0 && Multiple(b, tf)
    ensures Steps(b - 2 * tf, tf) == Steps(b, tf) - 2
    ensures b == tf ==> Steps(b, tf) == 1
  {
    ModMultiple(-2, tf);
    StepsAdd(b, -2 * tf, tf);
    ModMultiple(1, tf);
  }

  lemma {:induction false} DistinctCount(ordered: seq<int>)
    requires StrictlyAscending(ordered)
    ensures |Elements(ordered)| == |ordered|
  {
    if ordered != [] {
      var init, last := ordered[..|ordered| - 1], ordered[|ordered| - 1];
      DistinctCount(init);
      assert Elements(ordered) == Elements(init) + {last};
      assert last !in Elements(init);
    }
  }

  lemma SortedOnGrid(s: seq<int>, base: int, tf: int)
    requires tf > 0 && AllOnGrid(s, base, tf)
    ensures StrictlyAscending(SortedDistinct(s)) && AllOnGrid(SortedDistinct(s), base, tf)
    ensures forall y :: y in SortedDistinct(s) <==> y in s
  {
    hide OnGrid;
    SortedDistinctSorts(s);
    var ordered := SortedDistinct(s);
    forall i | 0 <= i < |ordered|
      ensures OnGrid(ordered[i], base, tf)
    {
      assert ordered[i] in ordered;
      var j :| 0 <= j < |s| && s[j] == ordered[i];
    }
  }

  /** The whole of gap detection on a list of times of one grid, in any order and with repeats:
      the ranges expand to exactly the missing times, and their count is the length of the span
      less the number of distinct stored times. */
  lemma GapDetection(timestamps: seq<int>, base: int, tf: int)
    requires tf > 0 && timestamps != [] && AllOnGrid(timestamps, base, tf)
    ensures var ordered := SortedDistinct(timestamps);
            var gaps := GapsOf(ordered, tf);
            && ordered != []
            && (forall t :: t in timestamps ==> ordered[0] <= t <= ordered[|ordered| - 1])
            && ordered[0] in timestamps && ordered[|ordered| - 1] in timestamps
            && AscendingGaps(gaps)
            && (forall t :: Covered(gaps, t, tf) <==>
                  ordered[0] < t < ordered[|ordered| - 1] && OnGrid(t, base, tf) && t !in timestamps)
            && CountMissing(gaps, tf) == Steps(ordered[|ordered| - 1] - ordered[0], tf) + 1 - |Elements(timestamps)|
  {
    hide Covered, GapsOf, OnGrid, Steps, Multiple, CountMissing, SortedDistinct, AscendingGaps;
    SortedOnGrid(timestamps, base, tf);
    var ordered := SortedDistinct(timestamps);
    assert timestamps[0] in ordered;
    GapsAscend(ordered, base, tf);
    CountIsSpanLessStored(ordered, base, tf);
    DistinctCount(ordered);
    forall t
      ensures Covered(GapsOf(ordered, tf), t, tf) <==>
                ordered[0] < t < ordered[|ordered| - 1] && OnGrid(t, base, tf) && t !in timestamps
    {
      GapsAreExactlyTheMissing(ordered, base, tf, t);
    }
    assert Elements(ordered) == Elements(timestamps) by {
      assert forall t :: t in ordered <==> t in Elements(ordered);
      assert forall t :: t in timestamps <==> t in Elements(timestamps);
    }
    forall t | t in timestamps
      ensures ordered[0] <= t <= ordered[|ordered| - 1]
    {
      assert t in ordered;
    }
  }

  lemma {:induction false} NoneMissingNoGaps(ordered: seq<int>, tf: int)
    requires tf > 0
    requires forall i :: 0 < i < |ordered| ==> ordered[i] == ordered[i - 1] + tf
    ensures GapsOf(ordered, tf) == []
  {
    if |ordered| >= 2 { NoneMissingNoGaps(ordered[..|ordered| - 1], tf); }
  }

  /** Ascending times, each but the last followed by the next time of the grid, leave no gap. */
  lemma FilledGridHasNoGaps(all: seq<int>, lo: int, hi: int, base: int, tf: int)
    requires tf > 0 && StrictlyAscending(all) && AllOnGrid(all, base, tf)
    requires forall t :: t in all <==> lo <= t <= hi && OnGrid(t, base, tf)
    ensures GapsOf(all, tf) == []
  {
    hide OnGrid, GapsOf;
    forall i | 0 < i < |all|
      ensures all[i] == all[i - 1] + tf
    {
      assert all[i - 1] in all && all[i] in all;
      NextIsOnGrid(all[i - 1], all[i], base, tf);
      NothingBetween(all, i, all[i - 1] + tf);
    }
    NoneMissingNoGaps(all, tf);
  }

  /** Repair: once the times that the ranges stand for have been added, in any order and among
      repeats, no gap is found. */
  lemma RepairClosesGaps(timestamps: seq<int>, repaired: seq<int>, base: int, tf: int)
    requires tf > 0 && timestamps != [] && AllOnGrid(timestamps, base, tf)
    requires forall t :: t in repaired <==> t in timestamps || Covered(GapsOf(SortedDistinct(timestamps), tf), t, tf)
    ensures GapsOf(SortedDistinct(repaired), tf) == []
  {
    hide OnGrid, Covered, GapsOf, SortedDistinct, CountMissing, Steps, AscendingGaps, StrictlyAscending, Elements;
    GapDetection(timestamps, base, tf);
    SortedDistinctSorts(repaired);
    var ordered, all := SortedDistinct(timestamps), SortedDistinct(repaired);
    var lo, hi := ordered[0], ordered[|ordered| - 1];
    forall t | t in timestamps ensures OnGrid(t, base, tf) {
      var i :| 0 <= i < |timestamps| && timestamps[i] == t;
    }
    assert forall t :: t in repaired <==> lo <= t <= hi && OnGrid(t, base, tf);
    assert AllOnGrid(all, base, tf) by {
      forall i | 0 <= i < |all| ensures OnGrid(all[i], base, tf) { assert all[i] in repaired; }
    }
    FilledGridHasNoGaps(all, lo, hi, base, tf);
  }

  lemma NextIsOnGrid(prev: int, cur: int, base: int, tf: int)
    requires tf > 0 && OnGrid(prev, base, tf) && OnGrid(cur, base, tf) && prev < cur
    ensures OnGrid(prev + tf, base, tf) && prev + tf <= cur
  {
    BetweenNeighbours(prev, cur, prev, base, tf);
    ModMultiple(1, tf);
    ModShift(prev - base, tf, tf);
  }

  lemma NothingBetween(s: seq<int>, i: int, t: int)
    requires StrictlyAscending(s) && 0 < i < |s| && s[i - 1] < t <= s[i] && t in s
    ensures t == s[i]
  {
    var j :| 0 <= j < |s| && s[j] == t;
  }

  // ---- When no gap is found --------------------------------------------------------------------

  /** Each time but the latest has another at most one interval after it. */
  ghost predicate Gapless(times: seq<int>, tf: int) {
    forall t :: t in times ==> Latest(times, t) || NextWithin(times, t, tf)
  }

  ghost predicate Latest(times: seq<int>, t: int) { forall u :: u in times ==> u <= t }

  ghost predicate NextWithin(times: seq<int>, t: int, tf: int) { exists u :: u in times && t < u <= t + tf }

  lemma {:induction false} NoGapsAreSmallSteps(ordered: seq<int>, tf: int)
    ensures GapsOf(ordered, tf) == [] <==> forall i :: 0 < i < |ordered| ==> ordered[i] <= ordered[i - 1] + tf
  {
    if |ordered| >= 2 {
      var init := ordered[..|ordered| - 1];
      NoGapsAreSmallSteps(init, tf);
      if GapsOf(ordered, tf) == [] {
        assert GapsOf(init, tf) == [];
        forall i | 0 < i < |ordered|
          ensures ordered[i] <= ordered[i - 1] + tf
        {
          if i < |init| { assert init[i] <= init[i - 1] + tf; }
        }
      }
    }
  }

  /** No gap is found in a list of times, in any order and with repeats, exactly when each but the
      latest has another within one interval after it. */
  lemma GapsVanishExactly(times: seq<int>, tf: int)
    ensures GapsOf(SortedDistinct(times), tf) == [] <==> Gapless(times, tf)
  {
    hide SortedDistinct, GapsOf;
    var ordered := SortedDistinct(times);
    SortedDistinctSorts(times);
    NoGapsAreSmallSteps(ordered, tf);
    if GapsOf(ordered, tf) == [] {
      forall t | t in times
        ensures Latest(times, t) || NextWithin(times, t, tf)
      {
        assert t in ordered;
        var i :| 0 <= i < |ordered| && ordered[i] == t;
        SuccessorIsNext(times, ordered, i, tf);
      }
    } else {
      var i :| 0 < i < |ordered| && ordered[i] > ordered[i - 1] + tf;
      NothingWithin(times, ordered, i, tf);
    }
  }

  lemma SuccessorIsNext(times: seq<int>, ordered: seq<int>, i: nat, tf: int)
    requires StrictlyAscending(ordered) && i < |ordered| && forall y :: y in ordered <==> y in times
    requires i + 1 < |ordered| ==> ordered[i + 1] <= ordered[i] + tf
    ensures Latest(times, ordered[i]) || NextWithin(times, ordered[i], tf)
  {
    if i + 1 < |ordered| {
      assert ordered[i + 1] in times;
    } else {
      forall u | u in times
        ensures u <= ordered[i]
      {
        assert u in ordered;
      }
    }
  }

  lemma NothingWithin(times: seq<int>, ordered: seq<int>, i: nat, tf: int)
    requires StrictlyAscending(ordered) && 0 < i < |ordered| && forall y :: y in ordered <==> y in times
    requires ordered[i] > ordered[i - 1] + tf
    ensures !Gapless(times, tf)
  {
    var t := ordered[i - 1];
    assert ordered[i] in times && t in times;
    forall u | u in times && t < u
      ensures u > t + tf
    {
      assert u in ordered;
      var j :| 0 <= j < |ordered| && ordered[j] == u;
    }
    assert !Latest(times, t) && !NextWithin(times, t, tf);
  }

  /** The later part of a list without gaps has none. */
  lemma LaterPartIsGapless(part: seq<int>, all: seq<int>, tf: int)
    requires Gapless(all, tf)
    requires forall t :: t in part ==> t in all
    requires forall t, u :: t in part && u in all && t < u ==> u in part
    ensures Gapless(part, tf)
  {
    forall t | t in part
      ensures Latest(part, t) || NextWithin(part, t, tf)
    {
      if !Latest(all, t) {
        var u :| u in all && t < u <= t + tf;
        assert u in part;
      }
    }
  }

  // ---- The reconciler -----------------------------------------------------------------------

  /** The candles a provider returns for a range of time. */
  type Provider = (int, int) -> seq<Candle>

  function Times(rows: seq<Candle>): seq<int> { seq(|rows|, i requires 0 <= i < |rows| => rows[i].tsMs) }

  function Fetched(gaps: seq<Gap>, tf: int, provider: Provider): seq<Candle> {
    if gaps == [] then []
    else
      var g := gaps[|gaps| - 1];
      Fetched(gaps[..|gaps| - 1], tf, provider) + provider(g.start, g.end + tf)
  }

  /** What `reconcile` fetches for the stored times. */
  function BackfilledRows(stored: seq<int>, tf: int, provider: Provider): seq<Candle> {
    if |stored| < 2 || tf <= 0 then [] else Fetched(GapsOf(SortedDistinct(stored), tf), tf, provider)
  }

  class CandleReconciler {
    const tf: int
    var backfilled: nat

    constructor (tf: int)
      ensures this.tf == tf && backfilled == 0
    {
      this.tf := tf;
      backfilled := 0;
    }

    /** Fetches every gap of the stored times and counts what came back. */
    method Reconcile(stored: seq<int>, provider: Provider) returns (filled: seq<Candle>)
      modifies this
      ensures filled == BackfilledRows(stored, tf, provider)
      ensures backfilled == old(backfilled) + |filled|
    {
      var gaps := FindGaps(stored, tf);
      if gaps == [] { return []; }
      filled := [];
      for i := 0 to |gaps|
        invariant filled == Fetched(gaps[..i], tf, provider)
        invariant backfilled == old(backfilled)
      {
        assert gaps[..i + 1][..i] == gaps[..i];
        var rows := provider(gaps[i].start, gaps[i].end + tf);
        filled := filled + rows;
      }
      assert gaps[..|gaps|] == gaps;
      backfilled := backfilled + |filled|;
    }
  }

  ghost predicate ServesRange(rows: seq<int>, a: int, b: int, base: int, tf: int)
    requires tf > 0
  {
    && (forall t :: a <= t < b && OnGrid(t, base, tf) ==> t in rows)
    && (forall t :: t in rows ==> a <= t <= b && OnGrid(t, base, tf))
  }

  /** The provider has every candle of the grid from `lo` to `hi`: asked for a range between grid
      points there, it returns all of them in the range, and nothing else but perhaps the candle at
      the very end. */
  ghost predicate Serves(provider: Provider, lo: int, hi: int, base: int, tf: int)
    requires tf > 0
  {
    forall a, b | lo <= a < b <= hi && OnGrid(a, base, tf) && OnGrid(b, base, tf) ::
      ServesRange(Times(provider(a, b)), a, b, base, tf)
  }

  ghost predicate Between(times: seq<int>, lo: int, hi: int) { forall t :: t in times ==> lo <= t <= hi }

  /** The candles of a history from `a` to `b`, both included. */
  function InRange(history: seq<Candle>, a: int, b: int): seq<Candle> {
    if history == [] then []
    else
      var c := history[|history| - 1];
      InRange(history[..|history| - 1], a, b) + if a <= c.tsMs <= b then [c] else []
  }

  lemma TimesAppend(s: seq<Candle>, c: Candle, t: int)
    ensures t in Times(s + [c]) <==> t in Times(s) || t == c.tsMs
  {
    assert Times(s + [c]) == Times(s) + [c.tsMs];
  }

  lemma {:induction false} InRangeHas(history: seq<Candle>, a: int, b: int, t: int)
    ensures t in Times(InRange(history, a, b)) <==> a <= t <= b && t in Times(history)
  {
    if history != [] {
      var init, c := history[..|history| - 1], history[|history| - 1];
      InRangeHas(init, a, b, t);
      assert history == init + [c];
      TimesAppend(init, c, t);
      TimesAppend(InRange(init, a, b), c, t);
      assert InRange(init, a, b) + [] == InRange(init, a, b);
      hide Times;
    }
  }

  /** An exchange that answers with the candles of its history from start to end, both included,
      serves wherever its history has the whole grid. */
  lemma HistoryServes(history: seq<Candle>, lo: int, hi: int, base: int, tf: int)
    requires tf > 0 && AllOnGrid(Times(history), base, tf)
    requires forall t :: lo <= t <= hi && OnGrid(t, base, tf) ==> t in Times(history)
    ensures Serves((a, b) => InRange(history, a, b), lo, hi, base, tf)
  {
    hide OnGrid, Times, InRange;
    forall a, b | lo <= a < b <= hi && OnGrid(a, base, tf) && OnGrid(b, base, tf)
      ensures ServesRange(Times(InRange(history, a, b)), a, b, base, tf)
    {
      forall t
        ensures a <= t < b && OnGrid(t, base, tf) ==> t in Times(InRange(history, a, b))
        ensures t in Times(InRange(history, a, b)) ==> a <= t <= b && OnGrid(t, base, tf)
      {
        InRangeHas(history, a, b, t);
        if t in Times(history) { var i :| 0 <= i < |Times(history)| && Times(history)[i] == t; }
      }
    }
  }

  /** The rows of one gap are the times it stands for and perhaps the stored one after it. */
  lemma RowsOfGap(prev: int, cur: int, t: int, lo: int, hi: int, base: int, tf: int, provider: Provider)
    requires tf > 0 && OnGrid(prev, base, tf) && OnGrid(cur, base, tf) && cur > prev + tf
    requires lo <= prev && cur <= hi && Serves(provider, lo, hi, base, tf)
    ensures InGap(Gap(prev + tf, cur - tf), t, tf) ==> t in Times(provider(prev + tf, cur))
    ensures t in Times(provider(prev + tf, cur)) ==> InGap(Gap(prev + tf, cur - tf), t, tf) || t == cur
  {
    hide OnGrid, Times;
    NextIsOnGrid(prev, cur, base, tf);
    BetweenNeighbours(prev, cur, t, base, tf);
    assert ServesRange(Times(provider(prev + tf, cur)), prev + tf, cur, base, tf);
  }

  lemma FetchedAppend(gaps: seq<Gap>, g: Gap, tf: int, provider: Provider, t: int)
    ensures t in Times(Fetched(gaps + [g], tf, provider))
       <==> t in Times(Fetched(gaps, tf, provider)) || t in Times(provider(g.start, g.end + tf))
  {
    assert (gaps + [g])[..|gaps|] == gaps;
    var rest, rows := Fetched(gaps, tf, provider), provider(g.start, g.end + tf);
    assert Times(rest + rows) == Times(rest) + Times(rows);
  }

  lemma NothingFetched(t: int, tf: int, provider: Provider)
    requires tf > 0
    ensures !Covered([], t, tf) && t !in Times(Fetched([], tf, provider))
  {
  }

  /** What is fetched for the gaps of ascending times: everything missing, and nothing but the
      missing and the stored. */
  lemma {:induction false} FetchesTheCovered(ordered: seq<int>, lo: int, hi: int, base: int, tf: int, provider: Provider,
                                             t: int)
    requires tf > 0 && StrictlyAscending(ordered) && AllOnGrid(ordered, base, tf)
    requires Between(ordered, lo, hi) && Serves(provider, lo, hi, base, tf)
    ensures var rows := Times(Fetched(GapsOf(ordered, tf), tf, provider));
            && (Covered(GapsOf(ordered, tf), t, tf) ==> t in rows)
            && (t in rows ==> Covered(GapsOf(ordered, tf), t, tf) || t in ordered)
  {
    hide OnGrid, InGap, Covered, Serves, Fetched, Times;
    if |ordered| < 2 {
      NothingFetched(t, tf, provider);
    } else {
      var init, prev, cur := ordered[..|ordered| - 1], ordered[|ordered| - 2], ordered[|ordered| - 1];
      assert prev in ordered && cur in ordered && forall x :: x in init ==> x in ordered;
      FetchesTheCovered(init, lo, hi, base, tf, provider, t);
      if cur > prev + tf {
        var before, g := GapsOf(init, tf), Gap(prev + tf, cur - tf);
        RowsOfGap(prev, cur, t, lo, hi, base, tf, provider);
        CoveredAppend(before, g, t, tf);
        FetchedAppend(before, g, tf, provider, t);
        assert GapsOf(ordered, tf) == before + [g];
        assert provider(g.start, g.end + tf) == provider(prev + tf, cur);
      } else {
        assert GapsOf(ordered, tf) == GapsOf(init, tf);
      }
    }
  }

  /** Reconciling against a provider that has every candle of the span repairs the series: stored times and
      fetched ones together have no gap. */
  lemma ReconcileRepairs(stored: seq<int>, lo: int, hi: int, base: int, tf: int, provider: Provider)
    requires tf > 0 && AllOnGrid(stored, base, tf) && Between(stored, lo, hi) && Serves(provider, lo, hi, base, tf)
    ensures GapsOf(SortedDistinct(stored + Times(BackfilledRows(stored, tf, provider))), tf) == []
  {
    if |stored| < 2 {
      var all := stored + Times(BackfilledRows(stored, tf, provider));
      assert all == stored;
      GapsVanishExactly(all, tf);
    } else {
      hide Covered, OnGrid, GapsOf, SortedDistinct, StrictlyAscending, Fetched, Serves, Times;
      var ordered := SortedDistinct(stored);
      SortedOnGrid(stored, base, tf);
      var rows := Times(BackfilledRows(stored, tf, provider));
      forall t
        ensures t in stored + rows <==> t in stored || Covered(GapsOf(ordered, tf), t, tf)
      {
        FetchesTheCovered(ordered, lo, hi, base, tf, provider, t);
      }
      RepairClosesGaps(stored, stored + rows, base, tf);
    }
  }
}
