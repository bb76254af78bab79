/** The rolling indicators of backend/app/services/strategy/indicators.py, over real numbers.
    Each loop is proved against a definition that looks at the series, not at running variables;
    about those definitions causality and bounds are proved. */
module Indicators {
  import opened Prelude

  function Sum(s: seq<real>): real {
    if s == [] then 0.0 else Sum(s[..|s| - 1]) + s[|s| - 1]
  }

  function Mean(s: seq<real>): real
    requires s != []
  {
    Sum(s) / |s| as real
  }

  lemma NothingSums()
    ensures Sum([]) == 0.0
  {
  }

  lemma SumAppend(s: seq<real>, x: real)
    ensures Sum(s + [x]) == Sum(s) + x
  {
    assert (s + [x])[..|s|] == s;
  }

  lemma {:induction false} SumPrepend(x: real, s: seq<real>)
    ensures Sum([x] + s) == x + Sum(s)
  {
    if s == [] {
      assert [x] + s == [] + [x];
      SumAppend([], x);
    } else {
      assert ([x] + s)[..|s|] == [x] + s[..|s| - 1];
      SumPrepend(x, s[..|s| - 1]);
    }
  }

  ghost predicate Within(s: seq<real>, lo: real, hi: real) { forall i :: 0 <= i < |s| ==> lo <= s[i] <= hi }

  lemma {:induction false} SumWithin(s: seq<real>, lo: real, hi: real)
    requires Within(s, lo, hi)
    ensures |s| as real * lo <= Sum(s) <= |s| as real * hi
  {
    if s != [] {
      SumWithin(s[..|s| - 1], lo, hi);
      Distribute(|s| - 1, lo);
      Distribute(|s| - 1, hi);
    }
  }

  lemma Distribute(n: nat, x: real)
    ensures (n + 1) as real * x == n as real * x + x
  {
  }

  lemma QuotientWithin(x: real, n: real, lo: real, hi: real)
    requires n > 0.0 && n * lo <= x <= n * hi
    ensures lo <= x / n <= hi
  {
    DivCancels(x, n);
    if x / n < lo { MulStrict(x / n, lo, n); }
    if hi < x / n { MulStrict(hi, x / n, n); }
  }

  lemma MulStrict(x: real, y: real, k: real)
    requires x < y && k > 0.0
    ensures k * x < k * y
  {
    assert k * (y - x) > 0.0;
  }

  lemma MeanWithin(s: seq<real>, lo: real, hi: real)
    requires s != [] && Within(s, lo, hi)
    ensures lo <= Mean(s) <= hi
  {
    SumWithin(s, lo, hi);
    QuotientWithin(Sum(s), |s| as real, lo, hi);
  }

  // ---- Exponential smoothing ------------------------------------------------------------------

  /** The mean of the first `p` values, then each value blended in with weight `k`. */
  function Blend(x: seq<real>, p: nat, k: real, i: nat): real
    requires 1 <= p <= i + 1 <= |x|
  {
    if i + 1 == p then Mean(x[..p]) else x[i] * k + Blend(x, p, k, i - 1) * (1.0 - k)
  }

  lemma MixAbove(x: real, y: real, k: real, lo: real)
    requires 0.0 <= k <= 1.0 && lo <= x && lo <= y
    ensures lo <= x * k + y * (1.0 - k)
  {
    MulNonNegative(x - lo, k);
    MulNonNegative(y - lo, 1.0 - k);
    assert x * k + y * (1.0 - k) - lo == (x - lo) * k + (y - lo) * (1.0 - k);
  }

  lemma MixBelow(x: real, y: real, k: real, hi: real)
    requires 0.0 <= k <= 1.0 && x <= hi && y <= hi
    ensures x * k + y * (1.0 - k) <= hi
  {
    MulNonNegative(hi - x, k);
    MulNonNegative(hi - y, 1.0 - k);
    assert hi - (x * k + y * (1.0 - k)) == (hi - x) * k + (hi - y) * (1.0 - k);
  }

  /** A smoothed series stays between the bounds of the series it smooths. */
  lemma {:induction false} BlendWithin(x: seq<real>, p: nat, k: real, i: nat, lo: real, hi: real)
    requires 1 <= p <= i + 1 <= |x| && 0.0 <= k <= 1.0 && Within(x, lo, hi)
    ensures lo <= Blend(x, p, k, i) <= hi
  {
    if i + 1 == p {
      MeanWithin(x[..p], lo, hi);
    } else {
      BlendWithin(x, p, k, i - 1, lo, hi);
      MixAbove(x[i], Blend(x, p, k, i - 1), k, lo);
      MixBelow(x[i], Blend(x, p, k, i - 1), k, hi);
    }
  }

  lemma {:induction false} BlendIsCausal(x: seq<real>, m: nat, p: nat, k: real, i: nat)
    requires 1 <= p <= i + 1 <= m <= |x|
    ensures Blend(x[..m], p, k, i) == Blend(x, p, k, i)
  {
    if i + 1 == p {
      assert x[..m][..p] == x[..p];
    } else {
      BlendIsCausal(x, m, p, k, i - 1);
    }
  }

  lemma Weight(p: nat)
    requires p >= 1
    ensures 0.0 <= 1.0 / p as real <= 1.0
  {
    QuotientWithin(1.0, p as real, 0.0, 1.0);
  }

  /** One step of Wilder's smoothing. */
  function NextAverage(prev: real, x: real, p: nat): real
    requires p >= 1
  {
    (prev * (p - 1) as real + x) / p as real
  }

  /** Wilder's smoothing is exponential smoothing with weight one over the period. */
  lemma WilderStep(prev: real, x: real, p: nat)
    requires p >= 1
    ensures NextAverage(prev, x, p) == x * (1.0 / p as real) + prev * (1.0 - 1.0 / p as real)
  {
    var q := p as real;
    var k := 1.0 / q;
    DivCancels(1.0, q);
    assert (x * k + prev * (1.0 - k)) * q == x * (q * k) + prev * (q - q * k);
    QuotientIs(x * k + prev * (1.0 - k), prev * (q - 1.0) + x, q);
  }

  // ---- ema and sma -------------------------------------------------------------------------------

  type Series = seq<Option<real>>

  function EmaWeight(p: nat): real { 2.0 / (p + 1) as real }

  function EmaAt(x: seq<real>, p: nat, i: nat): Option<real>
    requires p >= 1 && i < |x|
  {
    if i + 1 < p then None else Some(Blend(x, p, EmaWeight(p), i))
  }

  function SmaAt(x: seq<real>, p: nat, i: nat): Option<real>
    requires p >= 1 && i < |x|
  {
    if i + 1 < p then None else Some(Mean(x[i + 1 - p..i + 1]))
  }

  method Ema(values: seq<real>, period: nat) returns (out: Series)
    requires period >= 1
    ensures |out| == |values| && forall i :: 0 <= i < |values| ==> out[i] == EmaAt(values, period, i)
  {
    var n := |values|;
    out := seq(n, _ => None);
    if n < period { return; }
    var k := EmaWeight(period);
    hide EmaWeight, Mean;
    var seed := Mean(values[..period]);
    out := out[period - 1 := Some(seed)];
    var prev := seed;
    for i := period to n
      invariant |out| == n && prev == Blend(values, period, k, i - 1)
      invariant forall j :: 0 <= j < i ==> out[j] == EmaAt(values, period, j)
    {
      prev := values[i] * k + prev * (1.0 - k);
      out := out[i := Some(prev)];
    }
  }

  /** The last `p` of the first `n` values, or all of them. */
  function Window(x: seq<real>, p: nat, n: nat): seq<real>
    requires n <= |x|
  {
    if n < p then x[..n] else x[n - p..n]
  }

  /** The window moves on by one: the running sum gains a value and loses the oldest. */
  lemma WindowMoves(x: seq<real>, p: nat, i: nat)
    requires 1 <= p && i < |x|
    ensures Sum(Window(x, p, i + 1)) == Sum(Window(x, p, i)) + x[i] - if i < p then 0.0 else x[i - p]
  {
    hide Sum;
    if i < p {
      assert Window(x, p, i + 1) == x[..i] + [x[i]];
      SumAppend(x[..i], x[i]);
    } else {
      var mid := x[i + 1 - p..i];
      assert x[i - p..i] == [x[i - p]] + mid && x[i + 1 - p..i + 1] == mid + [x[i]];
      SumPrepend(x[i - p], mid);
      SumAppend(mid, x[i]);
    }
  }

  lemma SmaIsWindowMean(x: seq<real>, p: nat, i: nat)
    requires p >= 1 && i < |x|
    ensures SmaAt(x, p, i) == if i + 1 < p then None else Some(Sum(Window(x, p, i + 1)) / p as real)
    ensures Sum(Window(x, p, 0)) == 0.0
  {
  }

  /** The rolling sum computes the mean of each window. */
  method Sma(values: seq<real>, period: nat) returns (out: Series)
    requires period >= 1
    ensures |out| == |values| && forall i :: 0 <= i < |values| ==> out[i] == SmaAt(values, period, i)
  {
    hide Sum, Window, SmaAt;
    var n := |values|;
    out := seq(n, _ => None);
    var s := 0.0;
    if n > 0 { SmaIsWindowMean(values, period, 0); }
    for i := 0 to n
      invariant |out| == n && (n > 0 ==> s == Sum(Window(values, period, i)))
      invariant forall j :: 0 <= j < i ==> out[j] == SmaAt(values, period, j)
      invariant forall j :: i <= j < n ==> out[j] == None
    {
      WindowMoves(values, period, i);
      SmaIsWindowMean(values, period, i);
      s := s + values[i];
      if i >= period {
        s := s - values[i - period];
      }
      if i + 1 >= period {
        out := out[i := Some(s / period as real)];
      }
    }
  }

  /** What the averages say of a bar depends on no later value. */
  lemma AveragesAreCausal(x: seq<real>, m: nat, p: nat, i: nat)
    requires p >= 1 && i < m <= |x|
    ensures EmaAt(x[..m], p, i) == EmaAt(x, p, i) && SmaAt(x[..m], p, i) == SmaAt(x, p, i)
  {
    if i + 1 >= p {
      BlendIsCausal(x, m, p, EmaWeight(p), i);
      assert x[..m][i + 1 - p..i + 1] == x[i + 1 - p..i + 1];
    }
  }

  /** An average never leaves the range of the values. */
  lemma AveragesWithin(x: seq<real>, p: nat, i: nat, lo: real, hi: real)
    requires p >= 1 && i < |x| && Within(x, lo, hi)
    ensures EmaAt(x, p, i).Some? ==> lo <= EmaAt(x, p, i).value <= hi
    ensures SmaAt(x, p, i).Some? ==> lo <= SmaAt(x, p, i).value <= hi
  {
    if i + 1 >= p {
      QuotientWithin(2.0, (p + 1) as real, 0.0, 1.0);
      BlendWithin(x, p, EmaWeight(p), i, lo, hi);
      MeanWithin(x[i + 1 - p..i + 1], lo, hi);
    }
  }

  // ---- rsi ------------------------------------------------------------------------------------------

  function Gains(c: seq<real>): (r: seq<real>)
    ensures |r| == (if c == [] then 0 else |c| - 1)
    ensures forall i :: 0 <= i < |r| ==> r[i] == Max(c[i + 1] - c[i], 0.0)
  {
    if c == [] then [] else seq(|c| - 1, i requires 0 <= i < |c| - 1 => Max(c[i + 1] - c[i], 0.0))
  }

  function Losses(c: seq<real>): (r: seq<real>)
    ensures |r| == (if c == [] then 0 else |c| - 1)
    ensures forall i :: 0 <= i < |r| ==> r[i] == Max(-(c[i + 1] - c[i]), 0.0)
  {
    if c == [] then [] else seq(|c| - 1, i requires 0 <= i < |c| - 1 => Max(-(c[i + 1] - c[i]), 0.0))
  }

  function Wilder(x: seq<real>, p: nat, i: nat): real
    requires 1 <= p <= i + 1 <= |x|
  {
    Blend(x, p, 1.0 / p as real, i)
  }

  ghost predicate NonNegative(s: seq<real>) { forall i :: 0 <= i < |s| ==> s[i] >= 0.0 }

  lemma {:induction false} WilderNonNegative(x: seq<real>, p: nat, i: nat)
    requires 1 <= p <= i + 1 <= |x| && NonNegative(x)
    ensures Wilder(x, p, i) >= 0.0
  {
    Weight(p);
    if i + 1 == p {
      SumNonNegative(x[..p]);
    } else {
      WilderNonNegative(x, p, i - 1);
      MixAbove(x[i], Wilder(x, p, i - 1), 1.0 / p as real, 0.0);
    }
  }

  lemma {:induction false} SumNonNegative(s: seq<real>)
    requires NonNegative(s)
    ensures Sum(s) >= 0.0
    ensures s != [] ==> Mean(s) >= 0.0
  {
    if s != [] {
      SumNonNegative(s[..|s| - 1]);
      DivCancels(Sum(s), |s| as real);
    }
  }

  function Strength(g: real, l: real): real
    requires g >= 0.0 && l >= 0.0
  {
    if l == 0.0 then 100.0
    else
      RatioNonNegative(g, l);
      100.0 - 100.0 / (1.0 + g / l)
  }

  lemma RatioNonNegative(g: real, l: real)
    requires g >= 0.0 && l > 0.0
    ensures g / l >= 0.0
  {
    var q := g / l;
    DivCancels(g, l);
    if q < 0.0 { MulStrict(q, 0.0, l); }
  }

  /** The strength index is the share of the gains, in percent. */
  lemma StrengthIsShareOfGains(g: real, l: real)
    requires g >= 0.0 && l >= 0.0
    ensures 0.0 <= Strength(g, l) <= 100.0
    ensures Strength(g, l) == 100.0 <==> l == 0.0
    ensures l > 0.0 ==> Strength(g, l) * (g + l) == 100.0 * g
  {
    if l > 0.0 {
      RatioNonNegative(g, l);
      var q := g / l;
      var r := 100.0 / (1.0 + q);
      DivCancels(g, l);
      DivCancels(100.0, 1.0 + q);
      assert (1.0 + q) * l == l + g;
      assert r * (g + l) == ((1.0 + q) * r) * l;
      assert (100.0 - r) * (g + l) == 100.0 * (g + l) - r * (g + l);
      ShareWithin(100.0 - r, g, l);
    }
  }

  lemma ShareWithin(x: real, g: real, l: real)
    requires g >= 0.0 && l > 0.0 && x * (g + l) == 100.0 * g
    ensures 0.0 <= x < 100.0
  {
    if x < 0.0 { MulStrict(x, 0.0, g + l); }
    if x >= 100.0 { MulMonotone(100.0, x, g + l); }
  }

  function AverageGain(c: seq<real>, p: nat, i: nat): (r: real)
    requires 1 <= p <= i < |c|
    ensures r >= 0.0
  {
    hide Wilder;
    WilderNonNegative(Gains(c), p, i - 1);
    Wilder(Gains(c), p, i - 1)
  }

  function AverageLoss(c: seq<real>, p: nat, i: nat): (r: real)
    requires 1 <= p <= i < |c|
    ensures r >= 0.0
  {
    hide Wilder;
    WilderNonNegative(Losses(c), p, i - 1);
    Wilder(Losses(c), p, i - 1)
  }

  function RsiAt(c: seq<real>, p: nat, i: nat): Option<real>
    requires p >= 1 && i < |c|
  {
    if i < p then None else Some(Strength(AverageGain(c, p, i), AverageLoss(c, p, i)))
  }

  method Rsi(closes: seq<real>, period: nat) returns (out: Series)
    requires period >= 1
    ensures |out| == |closes| && forall i :: 0 <= i < |closes| ==> out[i] == RsiAt(closes, period, i)
  {
    hide AverageGain, AverageLoss, Strength, NextAverage, Max;
    out := seq(|closes|, _ => None);
    if |closes| <= period { return; }
    var avgG, avgL := SeedRsi(closes, period);
    out := out[period := Some(Strength(avgG, avgL))];
    for i := period + 1 to |closes|
      invariant |out| == |closes|
      invariant avgG == AverageGain(closes, period, i - 1) && avgL == AverageLoss(closes, period, i - 1)
      invariant forall j :: 0 <= j < i ==> out[j] == RsiAt(closes, period, j)
    {
      var d := closes[i] - closes[i - 1];
      AveragesMove(closes, period, i);
      avgG := NextAverage(avgG, Max(d, 0.0), period);
      avgL := NextAverage(avgL, Max(-d, 0.0), period);
      out := out[i := Some(Strength(avgG, avgL))];
    }
  }

  lemma AveragesMove(c: seq<real>, p: nat, i: nat)
    requires 1 <= p < i < |c|
    ensures AverageGain(c, p, i) == NextAverage(AverageGain(c, p, i - 1), Max(c[i] - c[i - 1], 0.0), p)
    ensures AverageLoss(c, p, i) == NextAverage(AverageLoss(c, p, i - 1), Max(-(c[i] - c[i - 1]), 0.0), p)
  {
    hide Wilder, NextAverage, Max, Gains, Losses;
    assert Gains(c)[i - 1] == Max(c[i] - c[i - 1], 0.0);
    assert Losses(c)[i - 1] == Max(-(c[i] - c[i - 1]), 0.0);
    WilderMoves(Gains(c), p, i - 1);
    WilderMoves(Losses(c), p, i - 1);
  }

  lemma WilderMoves(x: seq<real>, p: nat, i: nat)
    requires 1 <= p <= i < |x|
    ensures Wilder(x, p, i) == NextAverage(Wilder(x, p, i - 1), x[i], p)
  {
    hide NextAverage;
    WilderStep(Wilder(x, p, i - 1), x[i], p);
  }

  lemma SeedIs(x: seq<real>, p: nat)
    requires 1 <= p <= |x|
    ensures Wilder(x, p, p - 1) == Mean(x[..p])
  {
  }

  /** The average gain and loss over the first `period` changes. */
  method SeedRsi(closes: seq<real>, period: nat) returns (avgG: real, avgL: real)
    requires 1 <= period < |closes|
    ensures avgG == AverageGain(closes, period, period) && avgL == AverageLoss(closes, period, period)
  {
    ghost var up, down := Gains(closes), Losses(closes);
    hide Gains, Losses, Sum;
    NothingSums();
    var gains, losses := 0.0, 0.0;
    for i := 1 to period + 1
      invariant gains == Sum(up[..i - 1]) && losses == Sum(down[..i - 1])
    {
      var d := closes[i] - closes[i - 1];
      assert up[..i] == up[..i - 1] + [up[i - 1]] && down[..i] == down[..i - 1] + [down[i - 1]];
      SumAppend(up[..i - 1], up[i - 1]);
      SumAppend(down[..i - 1], down[i - 1]);
      gains := gains + Max(d, 0.0);
      losses := losses + Max(-d, 0.0);
    }
    avgG, avgL := gains / period as real, losses / period as real;
  }

  lemma AveragesOfChangesAreCausal(c: seq<real>, m: nat, p: nat, i: nat)
    requires 1 <= p <= i < m <= |c|
    ensures AverageGain(c[..m], p, i) == AverageGain(c, p, i)
    ensures AverageLoss(c[..m], p, i) == AverageLoss(c, p, i)
  {
    hide Blend;
    assert Gains(c[..m]) == Gains(c)[..m - 1];
    assert Losses(c[..m]) == Losses(c)[..m - 1];
    BlendIsCausal(Gains(c), m - 1, p, 1.0 / p as real, i - 1);
    BlendIsCausal(Losses(c), m - 1, p, 1.0 / p as real, i - 1);
  }

  /** The strength index is causal, and a percentage: the share of the average gain. */
  lemma RsiIsCausalAndBounded(c: seq<real>, m: nat, p: nat, i: nat)
    requires 1 <= p <= i < m <= |c|
    ensures RsiAt(c[..m], p, i) == RsiAt(c, p, i)
    ensures var rsi, g, l := RsiAt(c, p, i).value, AverageGain(c, p, i), AverageLoss(c, p, i);
            && 0.0 <= rsi <= 100.0 && (rsi == 100.0 <==> l == 0.0)
            && (l > 0.0 ==> rsi * (g + l) == 100.0 * g)
  {
    hide AverageGain, AverageLoss, Strength;
    AveragesOfChangesAreCausal(c, m, p, i);
    StrengthIsShareOfGains(AverageGain(c, p, i), AverageLoss(c, p, i));
  }

  // ---- atr --------------------------------------------------------------------------------------------

  ghost predicate Bars(h: seq<real>, l: seq<real>, c: seq<real>) { |h| == |l| == |c| >= 1 }

  function RangeAt(h: seq<real>, l: seq<real>, c: seq<real>, i: nat): real
    requires Bars(h, l, c) && i < |c|
  {
    if i == 0 then h[0] - l[0] else Max(Max(h[i] - l[i], Abs(h[i] - c[i - 1])), Abs(l[i] - c[i - 1]))
  }

  function RangesOf(h: seq<real>, l: seq<real>, c: seq<real>): (r: seq<real>)
    requires Bars(h, l, c)
    ensures |r| == |c| && forall i :: 0 <= i < |r| ==> r[i] == RangeAt(h, l, c, i)
  {
    seq(|c|, i requires 0 <= i < |c| => RangeAt(h, l, c, i))
  }

  method TrueRanges(h: seq<real>, l: seq<real>, c: seq<real>) returns (tr: seq<real>)
    requires Bars(h, l, c)
    ensures tr == RangesOf(h, l, c)
  {
    tr := [h[0] - l[0]];
    for i := 1 to |c|
      invariant |tr| == i && forall j :: 0 <= j < i ==> tr[j] == RangeAt(h, l, c, j)
    {
      tr := tr + [Max(Max(h[i] - l[i], Abs(h[i] - c[i - 1])), Abs(l[i] - c[i - 1]))];
    }
  }

  function AtrAt(h: seq<real>, l: seq<real>, c: seq<real>, p: nat, i: nat): Option<real>
    requires Bars(h, l, c) && p >= 1 && i < |c|
  {
    if i + 1 < p then None else Some(Wilder(RangesOf(h, l, c), p, i))
  }

  method Atr(h: seq<real>, l: seq<real>, c: seq<real>, period: nat) returns (out: Series)
    requires Bars(h, l, c) && period >= 1
    ensures |out| == |c| && forall i :: 0 <= i < |c| ==> out[i] == AtrAt(h, l, c, period, i)
  {
    var tr := TrueRanges(h, l, c);
    out := seq(|c|, _ => None);
    if |c| < period { return; }
    hide RangesOf, Mean, Wilder, NextAverage;
    var prev := Mean(tr[..period]);
    SeedIs(tr, period);
    out := out[period - 1 := Some(prev)];
    for i := period to |c|
      invariant |out| == |c| && prev == Wilder(tr, period, i - 1)
      invariant forall j :: 0 <= j < i ==> out[j] == AtrAt(h, l, c, period, j)
    {
      WilderMoves(tr, period, i);
      prev := NextAverage(prev, tr[i], period);
      out := out[i := Some(prev)];
    }
  }

  lemma RangesAreCausal(h: seq<real>, l: seq<real>, c: seq<real>, m: nat)
    requires Bars(h, l, c) && 1 <= m <= |c|
    ensures RangesOf(h[..m], l[..m], c[..m]) == RangesOf(h, l, c)[..m]
  {
  }

  /** The average true range is causal, and between zero and any bound of the true ranges; of
      the bars it needs only that the first is no higher at its low than at its high. */
  lemma AtrIsCausalAndBounded(h: seq<real>, l: seq<real>, c: seq<real>, m: nat, p: nat, i: nat, hi: real)
    requires Bars(h, l, c) && p >= 1 && i < m <= |c|
    requires forall j :: 0 <= j < |c| ==> RangesOf(h, l, c)[j] <= hi
    ensures AtrAt(h[..m], l[..m], c[..m], p, i) == AtrAt(h, l, c, p, i)
    ensures l[0] <= h[0] && AtrAt(h, l, c, p, i).Some? ==> 0.0 <= AtrAt(h, l, c, p, i).value <= hi
  {
    if i + 1 >= p {
      RangesAreCausal(h, l, c, m);
      BlendIsCausal(RangesOf(h, l, c), m, p, 1.0 / p as real, i);
      if l[0] <= h[0] {
        Weight(p);
        BlendWithin(RangesOf(h, l, c), p, 1.0 / p as real, i, 0.0, hi);
      }
    }
  }

  // ---- adx ----------------------------------------------------------------------------------------------

  function PlusAt(h: seq<real>, l: seq<real>, i: nat): (r: real)
    requires |h| == |l| && i < |h|
    ensures r >= 0.0
  {
    if i == 0 then 0.0
    else if h[i] - h[i - 1] > l[i - 1] - l[i] then Max(h[i] - h[i - 1], 0.0) else 0.0
  }

  function MinusAt(h: seq<real>, l: seq<real>, i: nat): (r: real)
    requires |h| == |l| && i < |h|
    ensures r >= 0.0
  {
    if i == 0 then 0.0
    else if l[i - 1] - l[i] > h[i] - h[i - 1] then Max(l[i - 1] - l[i], 0.0) else 0.0
  }

  function PlusMoves(h: seq<real>, l: seq<real>): (r: seq<real>)
    requires |h| == |l|
    ensures |r| == |h| && forall i :: 0 <= i < |r| ==> r[i] == PlusAt(h, l, i)
  {
    seq(|h|, i requires 0 <= i < |h| => PlusAt(h, l, i))
  }

  function MinusMoves(h: seq<real>, l: seq<real>): (r: seq<real>)
    requires |h| == |l|
    ensures |r| == |h| && forall i :: 0 <= i < |r| ==> r[i] == MinusAt(h, l, i)
  {
    seq(|h|, i requires 0 <= i < |h| => MinusAt(h, l, i))
  }

  function Decay(sum: real, x: real, p: nat): real
    requires p >= 1
  {
    sum - sum / p as real + x
  }

  /** Wilder's running sum: one period's worth decays as each value enters. */
  function Decayed(x: seq<real>, p: nat, i: nat): real
    requires 1 <= p <= i < |x|
  {
    if i == p then Sum(x[1..p + 1]) else Decay(Decayed(x, p, i - 1), x[i], p)
  }

  lemma {:induction false} DecayedNonNegative(x: seq<real>, p: nat, i: nat)
    requires 1 <= p <= i < |x| && forall j :: 1 <= j < |x| ==> x[j] >= 0.0
    ensures Decayed(x, p, i) >= 0.0
  {
    if i == p {
      SumNonNegative(x[1..p + 1]);
    } else {
      DecayedNonNegative(x, p, i - 1);
      PartAtMostWhole(Decayed(x, p, i - 1), p);
    }
  }

  lemma PartAtMostWhole(x: real, p: nat)
    requires x >= 0.0 && p >= 1
    ensures x / p as real <= x
  {
    MulMonotone(1.0, p as real, x);
    QuotientWithin(x, p as real, 0.0, x);
  }

  lemma {:induction false} DecayedIsCausal(x: seq<real>, m: nat, p: nat, i: nat)
    requires 1 <= p <= i < m <= |x|
    ensures Decayed(x[..m], p, i) == Decayed(x, p, i)
  {
    if i == p {
      assert x[..m][1..p + 1] == x[1..p + 1];
    } else {
      DecayedIsCausal(x, m, p, i - 1);
    }
  }

  function Share(x: real, total: real): real { if total != 0.0 then 100.0 * x / total else 0.0 }

  /** How far the two directions are apart, in percent of their sum. */
  function Apart(pdi: real, mdi: real): real {
    if pdi + mdi != 0.0 then 100.0 * Abs(pdi - mdi) / (pdi + mdi) else 0.0
  }

  lemma ShareNonNegative(x: real, total: real)
    requires x >= 0.0 && total >= 0.0
    ensures Share(x, total) >= 0.0
  {
    if total != 0.0 { RatioNonNegative(100.0 * x, total); }
  }

  lemma ApartIsPercentage(pdi: real, mdi: real)
    requires pdi >= 0.0 && mdi >= 0.0
    ensures 0.0 <= Apart(pdi, mdi) <= 100.0
  {
    if pdi + mdi != 0.0 {
      QuotientWithin(100.0 * Abs(pdi - mdi), pdi + mdi, 0.0, 100.0);
    }
  }

  function DxAt(tr: seq<real>, plus: seq<real>, minus: seq<real>, p: nat, i: nat): real
    requires |tr| == |plus| == |minus| && 1 <= p < i < |tr|
  {
    var total := Decayed(tr, p, i);
    Apart(Share(Decayed(plus, p, i), total), Share(Decayed(minus, p, i), total))
  }

  /** The directional index of each bar from the one after the seed. */
  function DxsOf(tr: seq<real>, plus: seq<real>, minus: seq<real>, p: nat): (r: seq<real>)
    requires |tr| == |plus| == |minus| && p >= 1
    ensures |r| == (if |tr| <= p then 0 else |tr| - p - 1)
    ensures forall j :: 0 <= j < |r| ==> r[j] == DxAt(tr, plus, minus, p, p + 1 + j)
  {
    if |tr| <= p then []
    else seq(|tr| - p - 1, j requires 0 <= j < |tr| - p - 1 => DxAt(tr, plus, minus, p, p + 1 + j))
  }

  function AverageAt(dxs: seq<real>, p: nat, i: nat): Option<real>
    requires p >= 1 && (i < 2 * p || i - p - 1 < |dxs|)
  {
    if i < 2 * p then None else Some(Wilder(dxs, p, i - p - 1))
  }

  function AdxAt(h: seq<real>, l: seq<real>, c: seq<real>, p: nat, i: nat): Option<real>
    requires Bars(h, l, c) && p >= 1 && i < |c|
  {
    AverageAt(DxsOf(RangesOf(h, l, c), PlusMoves(h, l), MinusMoves(h, l), p), p, i)
  }

  lemma DxIsPercentage(tr: seq<real>, plus: seq<real>, minus: seq<real>, p: nat, i: nat)
    requires |tr| == |plus| == |minus| && 1 <= p < i < |tr|
    requires NonNegative(plus) && NonNegative(minus) && forall j :: 1 <= j < |tr| ==> tr[j] >= 0.0
    ensures 0.0 <= DxAt(tr, plus, minus, p, i) <= 100.0
  {
    DecayedNonNegative(tr, p, i);
    DecayedNonNegative(plus, p, i);
    DecayedNonNegative(minus, p, i);
    var total := Decayed(tr, p, i);
    ShareNonNegative(Decayed(plus, p, i), total);
    ShareNonNegative(Decayed(minus, p, i), total);
    ApartIsPercentage(Share(Decayed(plus, p, i), total), Share(Decayed(minus, p, i), total));
  }

  lemma DxIsCausal(tr: seq<real>, plus: seq<real>, minus: seq<real>, m: nat, p: nat, i: nat)
    requires |tr| == |plus| == |minus| && 1 <= p < i < m <= |tr|
    ensures DxAt(tr[..m], plus[..m], minus[..m], p, i) == DxAt(tr, plus, minus, p, i)
  {
    hide Decayed, Share, Apart;
    DecayedIsCausal(tr, m, p, i);
    DecayedIsCausal(plus, m, p, i);
    DecayedIsCausal(minus, m, p, i);
  }

  lemma DxsAreCausal(tr: seq<real>, plus: seq<real>, minus: seq<real>, m: nat, p: nat)
    requires |tr| == |plus| == |minus| && 1 <= p < m <= |tr|
    ensures DxsOf(tr[..m], plus[..m], minus[..m], p) == DxsOf(tr, plus, minus, p)[..m - p - 1]
  {
    hide DxAt;
    var r, s := DxsOf(tr[..m], plus[..m], minus[..m], p), DxsOf(tr, plus, minus, p);
    forall j | 0 <= j < m - p - 1
      ensures r[j] == s[j]
    {
      DxIsCausal(tr, plus, minus, m, p, p + 1 + j);
    }
  }

  lemma DxsArePercentages(tr: seq<real>, plus: seq<real>, minus: seq<real>, p: nat)
    requires |tr| == |plus| == |minus| && p >= 1
    requires NonNegative(plus) && NonNegative(minus) && forall j :: 1 <= j < |tr| ==> tr[j] >= 0.0
    ensures Within(DxsOf(tr, plus, minus, p), 0.0, 100.0)
  {
    hide DxAt;
    var dxs := DxsOf(tr, plus, minus, p);
    forall j | 0 <= j < |dxs|
      ensures 0.0 <= dxs[j] <= 100.0
    {
      DxIsPercentage(tr, plus, minus, p, p + 1 + j);
    }
  }

  /** The directional index is causal, and a percentage whatever the bars. */
  lemma AdxIsCausalAndBounded(h: seq<real>, l: seq<real>, c: seq<real>, m: nat, p: nat, i: nat)
    requires Bars(h, l, c) && p >= 1 && 2 * p <= i < m <= |c|
    ensures AdxAt(h[..m], l[..m], c[..m], p, i) == AdxAt(h, l, c, p, i)
    ensures 0.0 <= AdxAt(h, l, c, p, i).value <= 100.0
  {
    hide DxAt, Blend, RangeAt, PlusAt, MinusAt;
    var tr, plus, minus := RangesOf(h, l, c), PlusMoves(h, l), MinusMoves(h, l);
    MovesNonNegative(h, l, c);
    RangesAreCausal(h, l, c, m);
    MovesAreCausal(h, l, m);
    hide RangesOf, PlusMoves, MinusMoves;
    var dxs := DxsOf(tr, plus, minus, p);
    DxsAreCausal(tr, plus, minus, m, p);
    DxsArePercentages(tr, plus, minus, p);
    BlendIsCausal(dxs, m - p - 1, p, 1.0 / p as real, i - p - 1);
    Weight(p);
    BlendWithin(dxs, p, 1.0 / p as real, i - p - 1, 0.0, 100.0);
  }

  lemma MovesNonNegative(h: seq<real>, l: seq<real>, c: seq<real>)
    requires Bars(h, l, c)
    ensures NonNegative(PlusMoves(h, l)) && NonNegative(MinusMoves(h, l))
    ensures forall j :: 1 <= j < |c| ==> RangesOf(h, l, c)[j] >= 0.0
  {
  }

  lemma MovesAreCausal(h: seq<real>, l: seq<real>, m: nat)
    requires |h| == |l| && m <= |h|
    ensures PlusMoves(h[..m], l[..m]) == PlusMoves(h, l)[..m]
    ensures MinusMoves(h[..m], l[..m]) == MinusMoves(h, l)[..m]
  {
  }

  method Adx(h: seq<real>, l: seq<real>, c: seq<real>, period: nat) returns (out: Series)
    requires |h| == |l| == |c| && period >= 1
    ensures |out| == |c| && forall i :: 0 <= i < |c| ==> out[i] == AdxAt(h, l, c, period, i)
  {
    hide RangesOf, RangeAt, PlusMoves, PlusAt, MinusMoves, MinusAt, Decayed, DxAt, Wilder, DxsOf, Sum;
    var n := |c|;
    out := seq(n, _ => None);
    if n < 2 * period { return; }
    var tr := TrueRanges(h, l, c);
    var plus, minus := PlusMoves(h, l), MinusMoves(h, l);
    ghost var all := DxsOf(tr, plus, minus, period);
    DecayedSeed(tr, period);
    DecayedSeed(plus, period);
    DecayedSeed(minus, period);
    var str, spd, smd := Sum(tr[1..period + 1]), Sum(plus[1..period + 1]), Sum(minus[1..period + 1]);
    var dxs: seq<real> := [];
    for i := period + 1 to n
      invariant |out| == n
      invariant str == Decayed(tr, period, i - 1)
      invariant spd == Decayed(plus, period, i - 1) && smd == Decayed(minus, period, i - 1)
      invariant dxs == all[..i - period - 1]
      invariant forall j :: 0 <= j < i ==> out[j] == AverageAt(all, period, j)
    {
      var dx;
      str, spd, smd, dx := NextDx(tr, plus, minus, period, i, str, spd, smd);
      TakeOneMore(all, i - period - 1);
      dxs := dxs + [dx];
      var next := NextAdx(dxs, period, out[i - 1], all);
      out := out[i := next];
    }
  }

  method NextDx(tr: seq<real>, plus: seq<real>, minus: seq<real>, period: nat, i: nat, str: real, spd: real, smd: real)
    returns (str': real, spd': real, smd': real, dx: real)
    requires |tr| == |plus| == |minus| && 1 <= period < i < |tr| && str == Decayed(tr, period, i - 1)
    requires spd == Decayed(plus, period, i - 1) && smd == Decayed(minus, period, i - 1)
    ensures str' == Decayed(tr, period, i)
    ensures spd' == Decayed(plus, period, i) && smd' == Decayed(minus, period, i)
    ensures dx == DxAt(tr, plus, minus, period, i)
  {
    hide Decay, Decayed, Share, Apart;
    DecayedMoves(tr, period, i);
    DecayedMoves(plus, period, i);
    DecayedMoves(minus, period, i);
    str' := Decay(str, tr[i], period);
    spd' := Decay(spd, plus[i], period);
    smd' := Decay(smd, minus[i], period);
    dx := Apart(Share(spd', str'), Share(smd', str'));
  }

  /** The average of the first `period` indices, then Wilder's smoothing. */
  method NextAdx(dxs: seq<real>, period: nat, prev: Option<real>, ghost all: seq<real>) returns (next: Option<real>)
    requires period >= 1 && 1 <= |dxs| <= |all| && dxs == all[..|dxs|]
    requires |dxs| > period ==> prev == Some(Wilder(all, period, |dxs| - 2))
    ensures next == if |dxs| < period then None else Some(Wilder(all, period, |dxs| - 1))
  {
    hide Wilder, Mean, NextAverage;
    assert dxs[|dxs| - 1] == all[|dxs| - 1];
    if |dxs| == period {
      SeedIs(all, period);
      next := Some(Mean(dxs));
    } else if |dxs| > period {
      WilderMoves(all, period, |dxs| - 1);
      next := Some(NextAverage(prev.value, dxs[|dxs| - 1], period));
    } else {
      next := None;
    }
  }

  lemma DecayedSeed(x: seq<real>, p: nat)
    requires 1 <= p < |x|
    ensures Decayed(x, p, p) == Sum(x[1..p + 1])
  {
  }

  lemma DecayedMoves(x: seq<real>, p: nat, i: nat)
    requires 1 <= p < i < |x|
    ensures Decayed(x, p, i) == Decay(Decayed(x, p, i - 1), x[i], p)
  {
  }

  // ---- macd ---------------------------------------------------------------------------------------------

  function Minus(a: Option<real>, b: Option<real>): Option<real> {
    if a.Some? && b.Some? then Some(a.value - b.value) else None
  }

  function LineAt(c: seq<real>, fast: nat, slow: nat, i: nat): Option<real>
    requires fast >= 1 && slow >= 1 && i < |c|
  {
    Minus(EmaAt(c, fast, i), EmaAt(c, slow, i))
  }

  /** The first bar at which both averages are known. */
  function LineStart(fast: nat, slow: nat): nat
    requires fast >= 1 && slow >= 1
  {
    if fast >= slow then fast - 1 else slow - 1
  }

  /** The known part of the line. */
  function KnownLine(c: seq<real>, fast: nat, slow: nat): (r: seq<real>)
    requires fast >= 1 && slow >= 1
    ensures var start := LineStart(fast, slow);
            && |r| == (if |c| <= start then 0 else |c| - start)
            && forall j :: 0 <= j < |r| ==> LineAt(c, fast, slow, start + j) == Some(r[j])
  {
    var start := LineStart(fast, slow);
    if |c| <= start then []
    else seq(|c| - start, j requires 0 <= j < |c| - start => LineAt(c, fast, slow, start + j).value)
  }

  function SignalAt(c: seq<real>, fast: nat, slow: nat, signal: nat, i: nat): Option<real>
    requires fast >= 1 && slow >= 1 && signal >= 1 && i < |c|
  {
    var start := LineStart(fast, slow);
    if i < start then None else EmaAt(KnownLine(c, fast, slow), signal, i - start)
  }

  /** The three series are causal. */
  lemma MacdIsCausal(c: seq<real>, m: nat, fast: nat, slow: nat, signal: nat, i: nat)
    requires fast >= 1 && slow >= 1 && signal >= 1 && i < m <= |c|
    ensures LineAt(c[..m], fast, slow, i) == LineAt(c, fast, slow, i)
    ensures SignalAt(c[..m], fast, slow, signal, i) == SignalAt(c, fast, slow, signal, i)
  {
    hide EmaAt, SmaAt;
    AveragesAreCausal(c, m, fast, i);
    AveragesAreCausal(c, m, slow, i);
    var start := LineStart(fast, slow);
    if i >= start {
      var known := KnownLine(c, fast, slow);
      forall j | start <= j < m
        ensures LineAt(c[..m], fast, slow, j) == LineAt(c, fast, slow, j)
      {
        AveragesAreCausal(c, m, fast, j);
        AveragesAreCausal(c, m, slow, j);
      }
      KnownLineIsPrefix(c, m, fast, slow);
      AveragesAreCausal(known, m - start, signal, i - start);
    }
  }

  lemma KnownLineIsPrefix(c: seq<real>, m: nat, fast: nat, slow: nat)
    requires fast >= 1 && slow >= 1 && LineStart(fast, slow) < m <= |c|
    requires forall j :: LineStart(fast, slow) <= j < m ==> LineAt(c[..m], fast, slow, j) == LineAt(c, fast, slow, j)
    ensures KnownLine(c[..m], fast, slow) == KnownLine(c, fast, slow)[..m - LineStart(fast, slow)]
  {
    hide LineAt;
    var start := LineStart(fast, slow);
    var r, known := KnownLine(c[..m], fast, slow), KnownLine(c, fast, slow);
    forall j | 0 <= j < m - start
      ensures r[j] == known[j]
    {
      assert LineAt(c[..m], fast, slow, start + j) == LineAt(c, fast, slow, start + j);
    }
  }

  method Difference(a: Series, b: Series) returns (out: Series)
    requires |a| == |b|
    ensures |out| == |a| && forall i :: 0 <= i < |a| ==> out[i] == Minus(a[i], b[i])
  {
    out := [];
    for i := 0 to |a|
      invariant |out| == i && forall j :: 0 <= j < i ==> out[j] == Minus(a[j], b[j])
    {
      out := out + [Minus(a[i], b[i])];
    }
  }

  /** The values that are known, in their order. */
  method Present(line: Series, ghost start: nat, ghost known: seq<real>) returns (valid: seq<real>)
    requires |known| == (if |line| <= start then 0 else |line| - start)
    requires forall i :: 0 <= i < |line| && i < start ==> line[i] == None
    requires forall j :: 0 <= j < |known| ==> line[start + j] == Some(known[j])
    ensures valid == known
  {
    valid := [];
    for i := 0 to |line|
      invariant valid == if i <= start then [] else known[..i - start]
    {
      if i >= start { assert line[start + (i - start)] == Some(known[i - start]); }
      if line[i].Some? { valid := valid + [line[i].value]; }
    }
  }

  method Macd(closes: seq<real>, fast: nat, slow: nat, signal: nat) returns (line: Series, sig: Series, hist: Series)
    requires fast >= 1 && slow >= 1 && signal >= 1
    ensures |line| == |sig| == |hist| == |closes|
    ensures forall i :: 0 <= i < |closes| ==>
      && line[i] == LineAt(closes, fast, slow, i)
      && sig[i] == SignalAt(closes, fast, slow, signal, i)
      && hist[i] == Minus(line[i], sig[i])
  {
    var ef := Ema(closes, fast);
    var es := Ema(closes, slow);
    line := Difference(ef, es);
    ghost var start, known := LineStart(fast, slow), KnownLine(closes, fast, slow);
    hide Blend, EmaWeight, KnownLine;
    var valid := Present(line, start, known);
    var sigValid := Ema(valid, signal);
    sig := seq(|line|, _ => None);
    var j := 0;
    for i := 0 to |line|
      invariant |sig| == |line| && j == if i <= start then 0 else i - start
      invariant forall k :: 0 <= k < i ==> sig[k] == SignalAt(closes, fast, slow, signal, k)
      invariant forall k :: i <= k < |sig| ==> sig[k] == None
    {
      if line[i].Some? {
        sig := sig[i := sigValid[j]];
        j := j + 1;
      }
    }
    hist := Difference(line, sig);
  }

  // ---- What the pieces mean -------------------------------------------------------------------------------

  /** The weight of the exponential average counts the newest of `p` + 1 values twice. */
  lemma EmaWeighs(p: nat)
    ensures EmaWeight(p) * (p + 1) as real == 2.0
  {
    DivCancels(2.0, (p + 1) as real);
  }

  /** The newest value has that weight in the average, the average before it the rest. */
  lemma EmaMoves(x: seq<real>, p: nat, i: nat)
    requires 1 <= p <= i < |x|
    ensures var now, before := EmaAt(x, p, i), EmaAt(x, p, i - 1);
            now.Some? && before.Some? && (now.value - before.value) * (p + 1) as real == 2.0 * (x[i] - before.value)
  {
    EmaWeighs(p);
    var k, e := EmaWeight(p), Blend(x, p, EmaWeight(p), i - 1);
    hide EmaWeight;
    assert x[i] * k + e * (1.0 - k) - e == k * (x[i] - e);
    assert k * (x[i] - e) * (p + 1) as real == (k * (p + 1) as real) * (x[i] - e);
  }

  /** The true range is the greatest of three distances: high to low, and either to the last close. */
  lemma RangeIsGreatest(h: seq<real>, l: seq<real>, c: seq<real>, i: nat)
    requires Bars(h, l, c) && 1 <= i < |c|
    ensures var r, last := RangesOf(h, l, c)[i], c[i - 1];
            && r >= h[i] - l[i] && r >= h[i] - last && r >= last - h[i] && r >= l[i] - last && r >= last - l[i]
            && (r == h[i] - l[i] || r == h[i] - last || r == last - h[i] || r == l[i] - last || r == last - l[i])
    ensures RangesOf(h, l, c)[0] == h[0] - l[0]
  {
  }

  /** A bar moves up by how far its high exceeds the last one, when this is more than its low fell short
      of the last low and is positive; likewise down; never both. */
  lemma BarMoves(h: seq<real>, l: seq<real>, i: nat)
    requires |h| == |l| && 1 <= i < |h|
    ensures var up, down := h[i] - h[i - 1], l[i - 1] - l[i];
            && PlusMoves(h, l)[i] == (if up > down && up > 0.0 then up else 0.0)
            && MinusMoves(h, l)[i] == (if down > up && down > 0.0 then down else 0.0)
            && (PlusMoves(h, l)[i] == 0.0 || MinusMoves(h, l)[i] == 0.0)
    ensures PlusMoves(h, l)[0] == 0.0 == MinusMoves(h, l)[0]
  {
  }

  /** The running sum loses one part in `p` before a value enters it. */
  lemma DecayLoses(sum: real, x: real, p: nat)
    requires p >= 1
    ensures (Decay(sum, x, p) - x) * p as real == sum * (p - 1) as real
  {
    DivCancels(sum, p as real);
    assert (sum - sum / p as real) * p as real == sum * p as real - sum;
  }

  lemma {:induction false} DecayedIsZero(x: seq<real>, p: nat, i: nat)
    requires 1 <= p <= i < |x| && forall j :: 1 <= j <= i ==> x[j] == 0.0
    ensures Decayed(x, p, i) == 0.0
  {
    if i == p {
      SumOfZeros(x[1..p + 1]);
    } else {
      DecayedIsZero(x, p, i - 1);
    }
  }

  lemma {:induction false} SumOfZeros(s: seq<real>)
    requires forall j :: 0 <= j < |s| ==> s[j] == 0.0
    ensures Sum(s) == 0.0
  {
    if s != [] { SumOfZeros(s[..|s| - 1]); }
  }

  /** The directional index is 100 when the bars have moved in one direction only. */
  lemma OneWayIsWhole(tr: seq<real>, plus: seq<real>, minus: seq<real>, p: nat, i: nat)
    requires |tr| == |plus| == |minus| && 1 <= p < i < |tr|
    requires Decayed(tr, p, i) > 0.0
    ensures (forall j :: 1 <= j <= i ==> minus[j] == 0.0) && Decayed(plus, p, i) > 0.0 ==> DxAt(tr, plus, minus, p, i) == 100.0
    ensures (forall j :: 1 <= j <= i ==> plus[j] == 0.0) && Decayed(minus, p, i) > 0.0 ==> DxAt(tr, plus, minus, p, i) == 100.0
    ensures Decayed(plus, p, i) == Decayed(minus, p, i) ==> DxAt(tr, plus, minus, p, i) == 0.0
  {
    var total, up, down := Decayed(tr, p, i), Decayed(plus, p, i), Decayed(minus, p, i);
    if forall j :: 1 <= j <= i ==> minus[j] == 0.0 { DecayedIsZero(minus, p, i); }
    if forall j :: 1 <= j <= i ==> plus[j] == 0.0 { DecayedIsZero(plus, p, i); }
    hide Decayed;
    if up > 0.0 { SharePositive(up, total); }
    if down > 0.0 { SharePositive(down, total); }
    hide Share;
    if Share(up, total) > 0.0 { WholeApart(Share(up, total)); }
    if Share(down, total) > 0.0 { WholeApart(Share(down, total)); }
    assert Share(0.0, total) == 0.0 by { ShareOfNothing(total); }
  }

  lemma ShareOfNothing(total: real)
    ensures Share(0.0, total) == 0.0
  {
  }

  lemma SharePositive(x: real, total: real)
    requires x > 0.0 && total > 0.0
    ensures Share(x, total) > 0.0
  {
    var q := Share(x, total);
    DivCancels(100.0 * x, total);
    if q <= 0.0 { MulMonotone(q, 0.0, total); }
  }

  lemma WholeApart(x: real)
    requires x > 0.0
    ensures Apart(x, 0.0) == 100.0 && Apart(0.0, x) == 100.0
  {
    assert (100.0 * x) / x == 100.0 by { QuotientIs(100.0, 100.0 * x, x); }
  }

  lemma {:induction false} WilderOfZeros(x: seq<real>, p: nat, i: nat)
    requires 1 <= p <= i + 1 <= |x| && forall j :: 0 <= j <= i ==> x[j] == 0.0
    ensures Wilder(x, p, i) == 0.0
  {
    if i + 1 == p {
      SumOfZeros(x[..p]);
    } else {
      WilderOfZeros(x, p, i - 1);
    }
  }

  lemma NoLoss(c: seq<real>, p: nat, i: nat)
    requires 1 <= p <= i < |c| && forall j :: 1 <= j <= i ==> c[j] >= c[j - 1]
    ensures AverageLoss(c, p, i) == 0.0
  {
    hide Wilder;
    var l := Losses(c);
    forall j | 0 <= j <= i - 1 ensures l[j] == 0.0 { assert c[j + 1] >= c[j]; }
    WilderOfZeros(l, p, i - 1);
  }

  lemma NoGain(c: seq<real>, p: nat, i: nat)
    requires 1 <= p <= i < |c| && forall j :: 1 <= j <= i ==> c[j] <= c[j - 1]
    ensures AverageGain(c, p, i) == 0.0
  {
    hide Wilder;
    var g := Gains(c);
    forall j | 0 <= j <= i - 1 ensures g[j] == 0.0 { assert c[j + 1] <= c[j]; }
    WilderOfZeros(g, p, i - 1);
  }

  /** The strength index is 100 when no close fell, and 0 when none rose and some loss is on average left. */
  lemma OneWayStrength(c: seq<real>, p: nat, i: nat)
    requires 1 <= p <= i < |c|
    ensures (forall j :: 1 <= j <= i ==> c[j] >= c[j - 1]) ==> RsiAt(c, p, i) == Some(100.0)
    ensures (forall j :: 1 <= j <= i ==> c[j] <= c[j - 1]) && AverageLoss(c, p, i) > 0.0 ==> RsiAt(c, p, i) == Some(0.0)
  {
    hide AverageGain, AverageLoss, Strength;
    var l := AverageLoss(c, p, i);
    if forall j :: 1 <= j <= i ==> c[j] >= c[j - 1] {
      NoLoss(c, p, i);
      StrengthIsShareOfGains(AverageGain(c, p, i), 0.0);
    }
    if (forall j :: 1 <= j <= i ==> c[j] <= c[j - 1]) && l > 0.0 {
      NoGain(c, p, i);
      StrengthIsShareOfGains(0.0, l);
      ZeroShare(Strength(0.0, l), l);
    }
  }

  lemma ZeroShare(x: real, l: real)
    requires l > 0.0 && x * (0.0 + l) == 100.0 * 0.0
    ensures x == 0.0
  {
    if x > 0.0 { MulStrict(0.0, x, l); }
    if x < 0.0 { MulStrict(x, 0.0, l); }
  }

  /** The line is positive exactly when the fast average is above the slow one. */
  lemma LineComparesAverages(c: seq<real>, fast: nat, slow: nat, i: nat)
    requires fast >= 1 && slow >= 1 && i < |c|
    ensures LineAt(c, fast, slow, i).Some? <==> i + 1 >= fast && i + 1 >= slow
    ensures LineAt(c, fast, slow, i).Some? ==>
              (LineAt(c, fast, slow, i).value > 0.0 <==> EmaAt(c, fast, i).value > EmaAt(c, slow, i).value)
  {
    hide Blend;
  }
}
