/** Trailing stops: what the running extreme of backend/app/services/paper_engine/fills.py makes
    of the rule "fire when the mid has come back by the offset from its best". */
module TrailingStops {
  import opened Prelude
  import opened Models
  import opened Fills
  import opened OrderLife

  predicate Trailing(o: Order) { Launched(o) && o.terms.kind.TrailingStop? && o.terms.trailOffset.Some? }

  /** For a sell a lower mid is worse, for a buy a higher one. */
  predicate Worse(side: Side, x: real, y: real) { if side.Sell? then x < y else x > y }

  /** The mid has come back from `best` by the offset at least. */
  predicate CameBack(t: Terms, mark: real, best: real)
    requires t.trailOffset.Some?
  {
    if t.side.Sell? then mark <= best - t.trailOffset.value else mark >= best + t.trailOffset.value
  }

  /** The declarative trailing rule on the newest snapshot: the mid has come back by at least
      the offset from some mid seen so far, that is, from the best one. */
  ghost predicate TrailReached(t: Terms, seen: seq<BookTop>)
    requires seen != [] && t.trailOffset.Some?
  {
    exists j :: 0 <= j < |seen| && CameBack(t, seen[|seen| - 1].Mid(), seen[j].Mid())
  }

  /** The best mid: the highest for a sell, the lowest for a buy. */
  function Best(side: Side, seen: seq<BookTop>): real
    requires seen != []
  {
    var mark := seen[|seen| - 1].Mid();
    if |seen| == 1 then mark
    else
      var x := Best(side, seen[..|seen| - 1]);
      if Worse(side, x, mark) then mark else x
  }

  lemma {:induction false} BestIsBest(side: Side, seen: seq<BookTop>)
    requires seen != []
    ensures exists j :: 0 <= j < |seen| && seen[j].Mid() == Best(side, seen)
    ensures forall j :: 0 <= j < |seen| ==> !Worse(side, Best(side, seen), seen[j].Mid())
  {
    var init := seen[..|seen| - 1];
    if init == [] {
      assert seen[0].Mid() == Best(side, seen);
    } else {
      BestIsBest(side, init);
      var j :| 0 <= j < |init| && init[j].Mid() == Best(side, init);
      assert seen[j] == init[j];
      assert forall i :: 0 <= i < |init| ==> seen[i] == init[i];
      assert seen[|seen| - 1].Mid() == seen[|init|].Mid();
    }
  }

  lemma TrailFromBest(t: Terms, seen: seq<BookTop>)
    requires seen != [] && t.trailOffset.Some?
    ensures TrailReached(t, seen) <==> CameBack(t, seen[|seen| - 1].Mid(), Best(t.side, seen))
  {
    BestIsBest(t.side, seen);
    var j :| 0 <= j < |seen| && seen[j].Mid() == Best(t.side, seen);
    hide Best;
    if CameBack(t, seen[|seen| - 1].Mid(), Best(t.side, seen)) {
      assert CameBack(t, seen[|seen| - 1].Mid(), seen[j].Mid());
    }
  }

  // ---- The extreme the code keeps -------------------------------------------------------

  /** The stored extreme: a stored zero counts as absent, so after it the extreme starts afresh. */
  function Extreme(side: Side, seen: seq<BookTop>): real
    requires seen != []
  {
    var mark := seen[|seen| - 1].Mid();
    if |seen| == 1 then mark
    else
      var x := Extreme(side, seen[..|seen| - 1]);
      if x == 0.0 || Worse(side, x, mark) then mark else x
  }

  lemma AdvanceTrailing(cfg: FillConfig, l: Life, b: BookTop)
    requires l.order.terms.kind.TrailingStop? && l.order.terms.trailOffset.Some?
    ensures var l', mark, t := Advance(cfg, l, b), b.Mid(), l.order.terms;
            var x := if l.order.trailExtreme.None? || l.order.trailExtreme.value == 0.0
                        || Worse(t.side, l.order.trailExtreme.value, mark) then mark else l.order.trailExtreme.value;
            && l'.order.terms == t && l'.order.trailExtreme == Some(x)
            && l'.order.status == if CameBack(t, mark, x) then Filled else Accepted
  {
    hide MakeFill, ApplySlippage, AdverseBps;
  }

  lemma {:induction false} TrailingTracksExtreme(cfg: FillConfig, o: Order, seen: seq<BookTop>)
    requires Trailing(o) && seen != []
    ensures var l, x := Live(cfg, o, seen), Extreme(o.terms.side, seen);
            && l.order.terms == o.terms && l.order.trailExtreme == Some(x)
            && l.order.status == if CameBack(o.terms, seen[|seen| - 1].Mid(), x) then Filled else Accepted
  {
    hide Advance, CameBack, Worse;
    var init := seen[..|seen| - 1];
    if init != [] { TrailingTracksExtreme(cfg, o, init); }
    AdvanceTrailing(cfg, Live(cfg, o, init), seen[|seen| - 1]);
  }

  /** The snapshots after the last one with a mid of zero. */
  function SinceZero(seen: seq<BookTop>): seq<BookTop> {
    if seen == [] || seen[|seen| - 1].Mid() == 0.0 then []
    else SinceZero(seen[..|seen| - 1]) + [seen[|seen| - 1]]
  }

  lemma BestAppend(side: Side, seen: seq<BookTop>, b: BookTop)
    ensures Best(side, seen + [b])
            == if seen == [] || Worse(side, Best(side, seen), b.Mid()) then b.Mid() else Best(side, seen)
  {
    assert (seen + [b])[..|seen|] == seen;
  }

  lemma ExtremeAppend(side: Side, seen: seq<BookTop>, b: BookTop)
    ensures Extreme(side, seen + [b])
            == if seen == [] || Extreme(side, seen) == 0.0 || Worse(side, Extreme(side, seen), b.Mid()) then b.Mid()
               else Extreme(side, seen)
    ensures SinceZero(seen + [b]) == if b.Mid() == 0.0 then [] else SinceZero(seen) + [b]
    ensures SinceZero([]) == []
  {
    assert (seen + [b])[..|seen|] == seen;
  }

  /** The extreme is the best mid, except that a best mid of zero is forgotten once the mid moves
      away from it: then it is the best mid since. */
  lemma {:induction false} ExtremeForgetsZero(side: Side, seen: seq<BookTop>)
    requires seen != []
    ensures var s := SinceZero(seen);
            if Best(side, seen) == 0.0 && s != []
            then Extreme(side, seen) == Best(side, s) && Worse(side, Best(side, s), 0.0)
            else Extreme(side, seen) == Best(side, seen)
  {
    hide Best, Extreme, SinceZero;
    var init, b := seen[..|seen| - 1], seen[|seen| - 1];
    assert init + [b] == seen;
    if init != [] {
      ExtremeForgetsZero(side, init);
    }
    BestAppend(side, init, b);
    ExtremeAppend(side, init, b);
    BestAppend(side, SinceZero(init), b);
  }

  // ---- When the code departs from the rule ---------------------------------------------------

  /** The best mid was zero, the newest mid has come back from it by the offset, but not so from
      the best mid since the last zero. */
  predicate ForgotZero(t: Terms, seen: seq<BookTop>)
    requires seen != [] && t.trailOffset.Some?
  {
    var mark := seen[|seen| - 1].Mid();
    && Best(t.side, seen) == 0.0 && SinceZero(seen) != []
    && CameBack(t, mark, 0.0) && !CameBack(t, mark, Best(t.side, SinceZero(seen)))
  }

  ghost predicate TrailFires(t: Terms, seen: seq<BookTop>)
    requires seen != [] && t.trailOffset.Some?
  {
    TrailReached(t, seen) && !ForgotZero(t, seen)
  }

  /** On every snapshot the order is filled exactly when the rule says so and the best mid is not
      a forgotten zero; the code departs from the rule exactly where it is one. */
  lemma TrailingDepartsExactly(cfg: FillConfig, o: Order, seen: seq<BookTop>)
    requires Trailing(o) && seen != []
    ensures Live(cfg, o, seen).order.status == if TrailFires(o.terms, seen) then Filled else Accepted
    ensures ForgotZero(o.terms, seen)
       <==> (Live(cfg, o, seen).order.status.Filled? != TrailReached(o.terms, seen))
  {
    TrailingTracksExtreme(cfg, o, seen);
    TrailFromBest(o.terms, seen);
    ExtremeForgetsZero(o.terms.side, seen);
    hide Live, Extreme, Best, SinceZero, TrailReached;
  }

  /** A trailing stop fires on the first snapshot at which the mid has come back by the offset
      from the best mid up to then, a forgotten zero aside, and on no earlier one. */
  lemma TrailingFiresFirst(cfg: FillConfig, o: Order, seen: seq<BookTop>)
    requires Trailing(o)
    ensures ShownWhileWorking(cfg, o, seen) <==> forall k :: 1 <= k < |seen| ==> !TrailFires(o.terms, seen[..k])
    ensures seen != [] ==> (Live(cfg, o, seen).order.status.Filled? <==> TrailFires(o.terms, seen))
  {
    forall k | 1 <= k <= |seen|
      ensures Live(cfg, o, seen[..k]).order.status == if TrailFires(o.terms, seen[..k]) then Filled else Accepted
    {
      TrailingDepartsExactly(cfg, o, seen[..k]);
    }
    assert seen[..|seen|] == seen;
    assert Live(cfg, o, seen[..0]).order == o;
    hide Live, TrailFires;
  }

  lemma {:induction false} SinceZeroIsShown(seen: seq<BookTop>)
    ensures |SinceZero(seen)| <= |seen|
    ensures SinceZero(seen) == seen[|seen| - |SinceZero(seen)|..]
    ensures |SinceZero(seen)| < |seen| ==> seen[|seen| - |SinceZero(seen)| - 1].Mid() == 0.0
  {
    if seen != [] && seen[|seen| - 1].Mid() != 0.0 {
      SinceZeroIsShown(seen[..|seen| - 1]);
    }
  }

  lemma ForgottenMids(side: Side, seen: seq<BookTop>)
    requires seen != [] && Best(side, seen) == 0.0 && SinceZero(seen) != []
    ensures exists i :: 0 <= i < |seen| && seen[i].Mid() == 0.0
    ensures exists j :: 0 <= j < |seen| && Worse(side, seen[j].Mid(), 0.0)
  {
    BestIsBest(side, seen);
    SinceZeroIsShown(seen);
    ExtremeForgetsZero(side, seen);
    var s := SinceZero(seen);
    BestIsBest(side, s);
    var j :| 0 <= j < |s| && s[j].Mid() == Best(side, s);
    assert s[j] == seen[|seen| - |s| + j];
  }

  /** So the rule holds without exception where no mid is zero, and where no mid is on the wrong
      side of zero: a sell that sees non-negative quotes never fails. */
  lemma RuleHoldsWithoutException(t: Terms, seen: seq<BookTop>)
    requires seen != [] && t.trailOffset.Some?
    requires (forall i :: 0 <= i < |seen| ==> seen[i].Mid() != 0.0)
          || (forall i :: 0 <= i < |seen| ==> !Worse(t.side, seen[i].Mid(), 0.0))
          || (t.side.Sell? && forall i :: 0 <= i < |seen| ==> RealQuotes(seen[i]))
    ensures !ForgotZero(t, seen) && (TrailFires(t, seen) <==> TrailReached(t, seen))
  {
    hide Best, SinceZero;
    if Best(t.side, seen) == 0.0 && SinceZero(seen) != [] {
      ForgottenMids(t.side, seen);
    }
  }

  /** Quotes of zero are enough for a buy to fail: the mid rises from 0 to 5, past the offset 2,
      and the order keeps working. */
  lemma TrailingForgetsZero(cfg: FillConfig)
    ensures var o := NewOrder(MarketTerms(Caller(0), "X", Buy, 1.0, false, Manual)
                              .(kind := TrailingStop, trailOffset := Some(2.0))).(status := Accepted);
            var seen := [BookTop("X", 0, 0.0, 0.0, 1.0, 1.0), BookTop("X", 1, 5.0, 5.0, 1.0, 1.0)];
            && Trailing(o) && (forall b :: b in seen ==> RealQuotes(b))
            && TrailReached(o.terms, seen) && Live(cfg, o, seen).order.status.Accepted?
  {
    hide Live;
    var o := NewOrder(MarketTerms(Caller(0), "X", Buy, 1.0, false, Manual)
                      .(kind := TrailingStop, trailOffset := Some(2.0))).(status := Accepted);
    var b0, b1 := BookTop("X", 0, 0.0, 0.0, 1.0, 1.0), BookTop("X", 1, 5.0, 5.0, 1.0, 1.0);
    var seen := [b0, b1];
    assert b0.Mid() == 0.0 && b1.Mid() == 5.0;
    assert seen[..1] == [b0];
    assert Extreme(Buy, [b0]) == 0.0;
    assert Extreme(Buy, seen) == 5.0;
    TrailingTracksExtreme(cfg, o, seen);
    assert CameBack(o.terms, seen[1].Mid(), seen[0].Mid());
  }
}
