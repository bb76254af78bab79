/** Limit and stop-limit orders of backend/app/services/paper_engine/fills.py over the snapshots they
    are shown: what makes them fill, and how much each time. */
module LimitOrders {
  import opened Prelude
  import opened Models
  import opened Fills
  import opened OrderLife

  predicate PricedLimit(t: Terms) {
    t.price.Some? && (t.kind.Limit? || (t.kind.StopLimit? && t.triggerPrice.Some?))
  }

  /** The order looks at its limit: always, or, with a trigger, when this snapshot reaches it. */
  predicate Acts(t: Terms, b: BookTop)
    requires PricedLimit(t)
  {
    t.kind.Limit? || PastTrigger(t, b)
  }

  predicate Hits(t: Terms, b: BookTop)
    requires PricedLimit(t)
  {
    Acts(t, b) && WithinLimit(t, b)
  }

  predicate Misses(t: Terms, b: BookTop)
    requires PricedLimit(t)
  {
    Acts(t, b) && !WithinLimit(t, b)
  }

  /** The order has come to rest: on an earlier snapshot it looked at its limit and missed. */
  ghost predicate Rests(t: Terms, seen: seq<BookTop>)
    requires PricedLimit(t)
  {
    exists i :: 0 <= i < |seen| && Misses(t, seen[i])
  }

  lemma RestsGrows(t: Terms, seen: seq<BookTop>, b: BookTop)
    requires PricedLimit(t)
    ensures Rests(t, seen + [b]) <==> Rests(t, seen) || Misses(t, b)
  {
    var all := seen + [b];
    if i :| 0 <= i < |seen| && Misses(t, seen[i]) { assert all[i] == seen[i]; }
    assert all[|seen|] == b;
  }

  /** The order is as a working limit order can be: not triggered, and resting or not. */
  ghost predicate AtRest(t: Terms, o: Order, rests: bool) {
    o.terms == t && o.status != Triggered && (o.rested <==> rests) && (t.tif.Ioc? && !o.status.Terminal() ==> !o.rested)
  }

  lemma AdvanceRests(cfg: FillConfig, t: Terms, l: Life, rests: bool, b: BookTop)
    requires PricedLimit(t) && AtRest(t, l.order, rests) && !l.order.status.Terminal()
    ensures AtRest(t, Advance(cfg, l, b).order, rests || Misses(t, b))
  {
    hide MakeFill, FilledBy;
  }

  lemma {:induction false} LifeRests(cfg: FillConfig, o: Order, seen: seq<BookTop>)
    requires Launched(o) && PricedLimit(o.terms) && ShownWhileWorking(cfg, o, seen)
    ensures AtRest(o.terms, Live(cfg, o, seen).order, Rests(o.terms, seen))
  {
    hide Rests, AtRest, Advance, ShownWhileWorking;
    if seen == [] {
      NoFillsYet(cfg, o.terms);
      LaunchedAtRest(o);
    } else {
      var init, b := seen[..|seen| - 1], seen[|seen| - 1];
      ShownPrefix(cfg, o, seen);
      LifeRests(cfg, o, init);
      RestsGrows(o.terms, init, b);
      assert init + [b] == seen;
      AdvanceRests(cfg, o.terms, Live(cfg, o, init), Rests(o.terms, init), b);
    }
  }

  lemma LaunchedAtRest(o: Order)
    requires Launched(o) && PricedLimit(o.terms)
    ensures AtRest(o.terms, o, false)
  {
  }

  /** A working limit or stop-limit order fills on a snapshot if and only if that very snapshot
      reaches the trigger, if there is one, and is marketable (and, if post-only, the order rests): a
      trigger reached earlier counts for nothing. It is turned down if, post-only, it does not rest,
      and cancelled if, immediate-or-cancel, it misses. */
  lemma LimitFillsExactly(cfg: FillConfig, o: Order, seen: seq<BookTop>, b: BookTop)
    requires Launched(o) && PricedLimit(o.terms) && ShownWhileWorking(cfg, o, seen)
    ensures var t, a := o.terms, TryFill(cfg, Live(cfg, o, seen).order, b);
            && a.Done?
            && (a.fill.Some? <==> Hits(t, b) && (t.tif.PostOnly? ==> Rests(t, seen)))
            && (a.status.Rejected? <==> Hits(t, b) && t.tif.PostOnly? && !Rests(t, seen))
            && (a.status.Cancelled? <==> Misses(t, b) && t.tif.Ioc?)
  {
    LifeRests(cfg, o, seen);
    hide Live, Rests, MakeFill;
  }

  // ---- How much ---------------------------------------------------------------------------------

  /** What an order that wants `left` more gets from a snapshot it hits: as much as is displayed there,
      at the touch, for the taker fee; or, resting, all of it at its limit, for the maker fee. */
  function Taken(cfg: FillConfig, t: Terms, left: real, b: BookTop): Fill
    requires PricedLimit(t)
  {
    var touch, displayed := if t.side.Buy? then b.ask else b.bid, if t.side.Buy? then b.askQty else b.bidQty;
    if t.tif.PostOnly? then MakeFill(cfg, NewOrder(t), left, t.price.value, Maker, 0.0, b.tsMs)
    else
      MakeFill(cfg, NewOrder(t), if cfg.allowPartialLimitFills && displayed > 0.0 then Min(left, displayed) else left,
               touch, Taker, 0.0, b.tsMs)
  }

  /** The fills of an order over snapshots that all reach it: one for each that it hits while it
      wants more. */
  ghost function FillsOver(cfg: FillConfig, t: Terms, books: seq<BookTop>): seq<Fill>
    requires PricedLimit(t)
  {
    if books == [] then []
    else
      var init, b := books[..|books| - 1], books[|books| - 1];
      var fills := FillsOver(cfg, t, init);
      var left := t.qty - FilledBy(fills);
      if left > 0.0 && Hits(t, b) && (t.tif.PostOnly? ==> Rests(t, init)) then fills + [Taken(cfg, t, left, b)] else fills
  }

  lemma FillTakes(cfg: FillConfig, o: Order, b: BookTop)
    requires PricedLimit(o.terms)
    ensures var a := TryFill(cfg, o, b);
            a.Done? && a.fill.Some? ==> a.fill.value == Taken(cfg, o.terms, o.Remaining(), b)
  {
    hide MakeFill;
    var displayed := b.Displayed(o.terms.side);
    var qty := if cfg.allowPartialLimitFills && displayed > 0.0 then Min(o.Remaining(), displayed) else o.Remaining();
    FilledByTerms(cfg, o, qty, b.Touch(o.terms.side), Taker, b.tsMs);
    FilledByTerms(cfg, o, o.Remaining(), o.terms.price.value, Maker, b.tsMs);
    var t := o.(status := Triggered);
    FilledByTerms(cfg, t, qty, b.Touch(o.terms.side), Taker, b.tsMs);
    FilledByTerms(cfg, t, o.Remaining(), o.terms.price.value, Maker, b.tsMs);
  }

  lemma FilledByTerms(cfg: FillConfig, o: Order, qty: real, price: real, role: FeeRole, tsMs: int)
    ensures MakeFill(cfg, o, qty, price, role, 0.0, tsMs) == MakeFill(cfg, NewOrder(o.terms), qty, price, role, 0.0, tsMs)
  {
  }

  lemma NextFill(cfg: FillConfig, o: Order, init: seq<BookTop>, l: Life, b: BookTop)
    requires PricedLimit(o.terms) && SoundLife(o, l) && !l.order.status.Terminal()
    requires l.fills == FillsOver(cfg, o.terms, init)
    requires var a := TryFill(cfg, l.order, b);
             a.Done? && (a.fill.Some? <==> Hits(o.terms, b) && (o.terms.tif.PostOnly? ==> Rests(o.terms, init)))
    ensures Advance(cfg, l, b).fills == FillsOver(cfg, o.terms, init + [b])
  {
    hide TryFill, Taken, Hits, Rests, FilledBy;
    FillTakes(cfg, l.order, b);
    assert (init + [b])[..|init|] == init && (init + [b])[|init|] == b;
  }

  lemma NoFillsYet(cfg: FillConfig, t: Terms)
    requires PricedLimit(t)
    ensures FillsOver(cfg, t, []) == [] && !Rests(t, [])
  {
  }

  lemma {:induction false} LifeFills(cfg: FillConfig, o: Order, seen: seq<BookTop>)
    requires Launched(o) && PricedLimit(o.terms) && ShownWhileWorking(cfg, o, seen)
    ensures Live(cfg, o, seen).fills == FillsOver(cfg, o.terms, seen)
  {
    hide TryFill, Advance, FillsOver, Hits, Rests, ShownWhileWorking, SoundLife, Launched, PricedLimit;
    if seen == [] {
      NoFillsYet(cfg, o.terms);
    } else {
      var init, b := seen[..|seen| - 1], seen[|seen| - 1];
      ShownPrefix(cfg, o, seen);
      LifeFills(cfg, o, init);
      LifeIsSound(cfg, o, init);
      LimitFillsExactly(cfg, o, init, b);
      NextFill(cfg, o, init, Live(cfg, o, init), b);
      assert init + [b] == seen;
    }
  }

  /** Nothing follows once the whole quantity is filled. */
  lemma {:induction false} FilledIsDone(cfg: FillConfig, t: Terms, seen: seq<BookTop>, books: seq<BookTop>)
    requires PricedLimit(t) && seen <= books && FilledBy(FillsOver(cfg, t, seen)) == t.qty
    ensures FillsOver(cfg, t, books) == FillsOver(cfg, t, seen)
    decreases |books|
  {
    if |seen| < |books| {
      FilledIsDone(cfg, t, seen, books[..|books| - 1]);
    } else {
      assert seen == books;
    }
  }

  // ---- A trigger is forgotten ---------------------------------------------------------------------

  function ForgetfulStopLimit(): Order {
    NewOrder(MarketTerms(Caller(0), "X", Buy, 1.0, false, Manual)
             .(kind := StopLimit, price := Some(101.0), triggerPrice := Some(100.0))).(status := Accepted)
  }

  /** A buy stop-limit at 100 limited to 101 is triggered at a mid of 101 and rests, the ask being
      103; then the ask falls to 97, well within the limit, and the order does not fill. */
  lemma TriggeredStopLimitForgets(cfg: FillConfig)
    ensures var o, seen := ForgetfulStopLimit(), [BookTop("X", 0, 99.0, 103.0, 5.0, 5.0)];
            var b := BookTop("X", 1, 95.0, 97.0, 5.0, 5.0);
            && Launched(o) && PricedLimit(o.terms) && Acts(o.terms, seen[0]) && ShownWhileWorking(cfg, o, seen)
            && Live(cfg, o, seen).order.rested && Live(cfg, o, seen).order.status.Accepted?
            && WithinLimit(o.terms, b)
            && TryFill(cfg, Live(cfg, o, seen).order, b) == Done(Live(cfg, o, seen).order, None, Accepted)
  {
    var o, first := ForgetfulStopLimit(), BookTop("X", 0, 99.0, 103.0, 5.0, 5.0);
    assert [first][..0] == [];
    assert first.Mid() == 101.0;
    assert Live(cfg, o, [first]) == Advance(cfg, Live(cfg, o, []), first);
    assert BookTop("X", 1, 95.0, 97.0, 5.0, 5.0).Mid() == 96.0;
  }
}
