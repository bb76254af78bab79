/** The life of one working order: the fold of `try_fill` over the snapshots it is shown.
    Everything proved here holds for every order of every engine run: nothing but such snapshots
    touches a working order (module EngineRuns), and each eligible one does reach it (module
    EngineBooks). */
module OrderLife {
  import opened Prelude
  import opened Models
  import opened Fills

  /** The order object and the fills it has received so far. */
  datatype Life = Life(order: Order, fills: seq<Fill>)

  function Advance(cfg: FillConfig, l: Life, b: BookTop): Life {
    match TryFill(cfg, l.order, b)
    case Done(o, fill, status) => Life(o.(status := status), if fill.Some? then l.fills + [fill.value] else l.fills)
    case Raised(o) => Life(o, l.fills)
  }

  function Live(cfg: FillConfig, o: Order, seen: seq<BookTop>): Life {
    if seen == [] then Life(o, [])
    else Advance(cfg, Live(cfg, o, seen[..|seen| - 1]), seen[|seen| - 1])
  }

  /** An order that has just begun to work: accepted by `submit`, or the triggered market
      order of `_check_protections`. */
  predicate Launched(o: Order) {
    && o.terms.qty > 0.0 && o.filledQty == 0.0 && o.trailExtreme.None? && !o.rested
    && (o.status.Accepted? || (o.status.Triggered? && o.terms.kind.Market?))
  }

  /** The order was not yet terminal when each snapshot reached it. */
  ghost predicate ShownWhileWorking(cfg: FillConfig, o: Order, seen: seq<BookTop>) {
    forall k :: 0 <= k < |seen| ==> !Live(cfg, o, seen[..k]).order.status.Terminal()
  }

  lemma ShownPrefix(cfg: FillConfig, o: Order, seen: seq<BookTop>)
    requires seen != [] && ShownWhileWorking(cfg, o, seen)
    ensures ShownWhileWorking(cfg, o, seen[..|seen| - 1])
    ensures !Live(cfg, o, seen[..|seen| - 1]).order.status.Terminal()
  {
    var init := seen[..|seen| - 1];
    forall k | 0 <= k < |init|
      ensures !Live(cfg, o, init[..k]).order.status.Terminal()
    {
      assert init[..k] == seen[..k];
    }
  }

  lemma ShownExtend(cfg: FillConfig, o: Order, seen: seq<BookTop>, b: BookTop)
    requires ShownWhileWorking(cfg, o, seen)
    requires !Live(cfg, o, seen).order.status.Terminal()
    ensures ShownWhileWorking(cfg, o, seen + [b])
    ensures Live(cfg, o, seen + [b]) == Advance(cfg, Live(cfg, o, seen), b)
  {
    var all := seen + [b];
    assert all[..|seen|] == seen;
    forall k | 0 <= k < |all|
      ensures !Live(cfg, o, all[..k]).order.status.Terminal()
    {
      assert all[..k] == seen[..k];
      assert seen[..|seen|] == seen;
    }
  }

  // ---- Lifecycle ------------------------------------------------------------

  ghost function FilledBy(fills: seq<Fill>): real {
    if fills == [] then 0.0 else FilledBy(fills[..|fills| - 1]) + fills[|fills| - 1].qty
  }

  lemma FilledByAppend(fills: seq<Fill>, f: Fill)
    ensures FilledBy(fills + [f]) == FilledBy(fills) + f.qty
  {
    assert (fills + [f])[..|fills|] == fills;
  }

  /** The lifecycle contract of an order `o` in the state `l`. */
  ghost predicate SoundLife(o: Order, l: Life) {
    && l.order.terms == o.terms
    && l.order.filledQty == FilledBy(l.fills)
    && 0.0 <= l.order.filledQty <= l.order.terms.qty
    && (l.order.status.Filled? <==> l.order.Remaining() == 0.0)
    && !l.order.status.New?
    && (forall f :: f in l.fills ==> f.qty > 0.0 && f.orderId == o.terms.id && f.symbol == o.terms.symbol && f.side == o.terms.side)
  }

  /** What a handler does to a working order: it fills nothing or a positive part of what
      remains, and reports FILLED exactly when it filled all of it. */
  ghost predicate SoundAttempt(o: Order, t: Attempt) {
    && t.order.terms == o.terms
    && match t
       case Raised(o') => o'.filledQty == o.filledQty && (o'.status == o.status || o'.status.Triggered?)
       case Done(o', None, status) => o'.filledQty == o.filledQty && !status.New? && !status.Filled?
       case Done(o', Some(f), status) =>
         && f.qty > 0.0 && f.orderId == o.terms.id && f.symbol == o.terms.symbol && f.side == o.terms.side
         && o'.filledQty == o.filledQty + f.qty <= o.terms.qty
         && (status.Filled? || status.PartiallyFilled?)
         && (status.Filled? <==> o'.Remaining() == 0.0)
  }

  lemma FillLimitSound(cfg: FillConfig, o: Order, b: BookTop)
    requires o.Remaining() > 0.0
    ensures SoundAttempt(o, FillLimit(cfg, o, b))
  {
  }

  lemma FillMarketSound(cfg: FillConfig, o: Order, b: BookTop)
    requires o.Remaining() > 0.0
    ensures SoundAttempt(o, FillMarket(cfg, o, b))
  {
  }

  lemma TryFillSound(cfg: FillConfig, o: Order, b: BookTop)
    requires o.Remaining() > 0.0
    ensures SoundAttempt(o, TryFill(cfg, o, b))
  {
    match o.terms.kind {
      case Market => FillMarketSound(cfg, o, b);
      case Limit => FillLimitSound(cfg, o, b);
      case StopMarket => FillMarketSound(cfg, o.(status := Triggered), b);
      case TakeProfit => FillMarketSound(cfg, o.(status := Triggered), b);
      case StopLimit =>
        FillLimitSound(cfg, o, b);
        FillLimitSound(cfg, o.(status := Triggered), b);
      case TrailingStop =>
        var t := UpdateTrailing(cfg, o, b);
        if t.Done? { FillMarketSound(cfg, o.(trailExtreme := t.order.trailExtreme), b); }
    }
  }

  /** One snapshot keeps the lifecycle contract of an order that is still working. */
  lemma AdvanceSound(cfg: FillConfig, o: Order, l: Life, b: BookTop)
    requires SoundLife(o, l) && o.terms.qty > 0.0 && !l.order.status.Terminal()
    ensures SoundLife(o, Advance(cfg, l, b))
  {
    TryFillSound(cfg, l.order, b);
    var t := TryFill(cfg, l.order, b);
    if t.Done? && t.fill.Some? {
      FilledByAppend(l.fills, t.fill.value);
    }
  }

  /** Every order, after any snapshots: what it filled is the sum of its fills and
      never exceeds its size, and FILLED means exactly that nothing remains. */
  lemma {:induction false} LifeIsSound(cfg: FillConfig, o: Order, seen: seq<BookTop>)
    requires Launched(o) && ShownWhileWorking(cfg, o, seen)
    ensures SoundLife(o, Live(cfg, o, seen))
  {
    if seen != [] {
      ShownPrefix(cfg, o, seen);
      LifeIsSound(cfg, o, seen[..|seen| - 1]);
      AdvanceSound(cfg, o, Live(cfg, o, seen[..|seen| - 1]), seen[|seen| - 1]);
    }
  }

  // ---- Fill honesty ---------------------------------------------------------

  predicate AdverseConfig(cfg: FillConfig) { cfg.slippageBps >= 0.0 && cfg.impactBpsPerLevel >= 0.0 }

  predicate RealQuotes(b: BookTop) { b.bid >= 0.0 && b.ask >= 0.0 }

  predicate NotBetter(side: Side, price: real, reference: real) {
    if side.Buy? then price >= reference else price <= reference
  }

  predicate HasLimit(kind: OrderType) { kind.Limit? || kind.StopLimit? }

  predicate HasTrigger(kind: OrderType) { kind.StopMarket? || kind.StopLimit? || kind.TakeProfit? }

  /** In the plain terms of the quotes: the far side of the book is no worse than the limit. */
  predicate WithinLimit(t: Terms, b: BookTop)
    requires t.price.Some?
  {
    if t.side.Buy? then b.ask <= t.price.value else b.bid >= t.price.value
  }

  /** A take-profit sells once the mid has risen to its trigger and buys once it has fallen to it;
      a stop sells once the mid has fallen to it and buys once it has risen to it. */
  predicate PastTrigger(t: Terms, b: BookTop)
    requires t.triggerPrice.Some?
  {
    if t.kind.TakeProfit? then
      if t.side.Sell? then b.Mid() >= t.triggerPrice.value else b.Mid() <= t.triggerPrice.value
    else
      if t.side.Sell? then b.Mid() <= t.triggerPrice.value else b.Mid() >= t.triggerPrice.value
  }

  /** A take-profit or stop-market order with its trigger fills on a snapshot if and only if the mid
      is at the trigger or past it, on the side that the type asks for; or else it is left as it was. */
  lemma TriggerOrderFillsExactly(cfg: FillConfig, o: Order, b: BookTop)
    requires o.terms.triggerPrice.Some?
    ensures var t, a, trigger := o.terms, TryFill(cfg, o, b), o.terms.triggerPrice.value;
            && (t.kind.TakeProfit? ==>
                  a.Done? && (a.fill.Some? <==> if t.side.Sell? then b.Mid() >= trigger else b.Mid() <= trigger))
            && (t.kind.StopMarket? ==>
                  a.Done? && (a.fill.Some? <==> if t.side.Buy? then b.Mid() >= trigger else b.Mid() <= trigger))
            && (t.kind.TakeProfit? || t.kind.StopMarket? ==>
                  if a.fill.Some? then a.status.Filled? && a.fill.value.qty == o.Remaining() else a == Done(o, None, Accepted))
  {
    hide ApplySlippage, AdverseBps;
  }

  /** The fee is the rate of the fill's role on its value; a limit fill takes the touch itself,
      or, resting, its limit; any other fill reports exactly the slippage that its model asks for. */
  ghost predicate PricedAt(cfg: FillConfig, t: Terms, b: BookTop, f: Fill) {
    && f.fee * 10000.0 == f.qty * f.price * (if f.role.Maker? then cfg.makerFeeBps else cfg.takerFeeBps)
    && (HasLimit(t.kind) ==> f.slippageBps == 0.0 && f.price == if t.tif.PostOnly? && t.price.Some? then t.price.value else b.Touch(t.side))
    && (!HasLimit(t.kind) && b.Touch(t.side) != 0.0 ==>
          f.slippageBps == AdverseMarkup(cfg, f.qty, b.Displayed(t.side))
          && t.side.Signed(f.price - b.Touch(t.side)) * 10000.0 == b.Touch(t.side) * f.slippageBps)
  }

  /** The fill `f` of an order with terms `t` was priced from the snapshot `seen[j]`: never
      better than the touch (given non-negative quotes and slippage settings), never beyond
      the limit, only past the trigger; and a maker fee was earned by a post-only order that
      an earlier snapshot had found non-marketable. */
  ghost predicate HonestAt(cfg: FillConfig, t: Terms, seen: seq<BookTop>, j: nat, f: Fill)
    requires j < |seen|
  {
    && f.tsMs == seen[j].tsMs && PricedAt(cfg, t, seen[j], f)
    && (AdverseConfig(cfg) && RealQuotes(seen[j]) ==> NotBetter(t.side, f.price, seen[j].Touch(t.side)))
    && (HasLimit(t.kind) ==> t.price.Some? && NotBetter(t.side.Opposite(), f.price, t.price.value)
                             && WithinLimit(t, seen[j]))
    && (HasTrigger(t.kind) ==> t.triggerPrice.Some?
                               && PastTrigger(t, seen[j]))
    && (f.role.Maker? ==> HasLimit(t.kind) && t.tif.PostOnly? && RestedBefore(t, seen, j))
    && (HasLimit(t.kind) && t.tif.PostOnly? ==> f.role.Maker? && f.price == t.price.value)
  }

  ghost predicate RestedBefore(t: Terms, seen: seq<BookTop>, j: nat)
    requires j <= |seen|
  {
    t.price.Some? && exists i :: 0 <= i < j && !WithinLimit(t, seen[i])
  }

  ghost predicate Honest(cfg: FillConfig, t: Terms, seen: seq<BookTop>, f: Fill) {
    exists j: nat :: j < |seen| && HonestAt(cfg, t, seen, j, f)
  }

  lemma SlippageIsAdverse(cfg: FillConfig, touch: real, side: Side, qty: real, displayed: real)
    requires AdverseConfig(cfg) && touch >= 0.0 && qty >= 0.0
    ensures NotBetter(side, ApplySlippage(cfg, touch, side, qty, displayed), touch)
  {
    if cfg.slippageModel.Impact? && displayed > 0.0 {
      MulNonNegative(cfg.impactBpsPerLevel, qty / displayed);
    }
    MulNonNegative(touch, AdverseMarkup(cfg, qty, displayed));
  }

  /** The slippage reported for a price is the slippage that was applied to the touch. */
  lemma ReportedSlippageIsApplied(cfg: FillConfig, touch: real, side: Side, qty: real, displayed: real)
    requires touch != 0.0
    ensures var price := ApplySlippage(cfg, touch, side, qty, displayed);
            && AdverseBps(touch, price, side) == AdverseMarkup(cfg, qty, displayed)
            && side.Signed(price - touch) * 10000.0 == touch * AdverseMarkup(cfg, qty, displayed)
  {
    var m := AdverseMarkup(cfg, qty, displayed);
    QuotientIs(m / 10000.0, touch * m / 10000.0, touch);
  }

  /** What a market fill costs, model by model: the far touch, worse by nothing, by the configured
      basis points, or by these and as many more for each level of the displayed size that the order
      takes; all that remains, for the taker fee. */
  lemma MarketFillCosts(cfg: FillConfig, o: Order, b: BookTop)
    requires o.terms.kind.Market?
    ensures var a, t := TryFill(cfg, o, b), o.terms;
            var touch, displayed := if t.side.Buy? then b.ask else b.bid, if t.side.Buy? then b.askQty else b.bidQty;
            && a.Done? && a.fill.Some? && a.status.Filled?
            && var f := a.fill.value;
               && f.orderId == t.id && f.symbol == t.symbol && f.side == t.side && f.qty == o.Remaining()
               && f.role.Taker? && f.tsMs == b.tsMs && f.latencyMs == cfg.latencyMs
               && f.fee * 10000.0 == f.qty * f.price * cfg.takerFeeBps
               && var worse := if t.side.Buy? then f.price - touch else touch - f.price;
                  && (if touch == 0.0 then f.slippageBps == 0.0 else worse * 10000.0 == touch * f.slippageBps)
                  && (cfg.slippageModel.Touch? ==> worse == 0.0)
                  && (cfg.slippageModel.SpreadPlusBps? ==> worse * 10000.0 == touch * cfg.slippageBps)
                  && (cfg.slippageModel.Impact? && displayed > 0.0 ==>
                        worse * 10000.0 == touch * (cfg.slippageBps + cfg.impactBpsPerLevel * (f.qty / displayed)))
                  && (cfg.slippageModel.Impact? && displayed <= 0.0 ==>
                        worse * 10000.0 == touch * (cfg.slippageBps + cfg.impactBpsPerLevel))
  {
    var touch, displayed := b.Touch(o.terms.side), b.Displayed(o.terms.side);
    if touch != 0.0 { ReportedSlippageIsApplied(cfg, touch, o.terms.side, o.Remaining(), displayed); }
    assert touch == 0.0 ==> AdverseBps(touch, ApplySlippage(cfg, touch, o.terms.side, o.Remaining(), displayed), o.terms.side) == 0.0;
    hide AdverseBps;
    assert touch * 0.0 == 0.0;
    assert cfg.impactBpsPerLevel * 1.0 == cfg.impactBpsPerLevel;
  }

  lemma MarketIsPriced(cfg: FillConfig, o: Order, b: BookTop)
    requires !HasLimit(o.terms.kind)
    ensures PricedAt(cfg, o.terms, b, FillMarket(cfg, o, b).fill.value)
  {
    if b.Touch(o.terms.side) != 0.0 {
      ReportedSlippageIsApplied(cfg, b.Touch(o.terms.side), o.terms.side, o.Remaining(), b.Displayed(o.terms.side));
    }
    hide ApplySlippage, AdverseBps, AdverseMarkup;
  }

  lemma LimitIsPriced(cfg: FillConfig, o: Order, b: BookTop)
    requires HasLimit(o.terms.kind)
    ensures var a := FillLimit(cfg, o, b);
            a.Done? && a.fill.Some? ==> PricedAt(cfg, o.terms, b, a.fill.value)
  {
  }

  lemma TryFillIsPriced(cfg: FillConfig, o: Order, b: BookTop)
    ensures var a := TryFill(cfg, o, b);
            a.Done? && a.fill.Some? ==> PricedAt(cfg, o.terms, b, a.fill.value)
  {
    hide FillMarket, FillLimit, PricedAt;
    match o.terms.kind {
      case Market => MarketIsPriced(cfg, o, b);
      case Limit => LimitIsPriced(cfg, o, b);
      case StopLimit => LimitIsPriced(cfg, o, b); LimitIsPriced(cfg, o.(status := Triggered), b);
      case TrailingStop => TrailingIsPriced(cfg, o, b);
      case _ => MarketIsPriced(cfg, o.(status := Triggered), b);
    }
  }

  lemma TrailingIsPriced(cfg: FillConfig, o: Order, b: BookTop)
    requires o.terms.kind.TrailingStop?
    ensures var a := UpdateTrailing(cfg, o, b);
            a.Done? && a.fill.Some? ==> PricedAt(cfg, o.terms, b, a.fill.value)
  {
    hide FillMarket, PricedAt;
    if o.terms.trailOffset.Some? {
      var mark := b.Mid();
      var extreme := if o.terms.side.Sell? then Max(ExtremeOr(o, mark), mark) else Min(ExtremeOr(o, mark), mark);
      MarketIsPriced(cfg, o.(trailExtreme := Some(extreme)), b);
    }
  }

  /** A triggered status outlives a snapshot only when a stop-limit has no limit price, so that
      its handler raised; in particular a stop-limit must be triggered afresh in order to fill. */
  ghost predicate LifeFlags(t: Terms, seen: seq<BookTop>, l: Life) {
    && l.order.terms == t
    && l.order.Remaining() >= 0.0
    && (l.order.status.Triggered? ==> t.kind.Market? || (t.kind.StopLimit? && t.price.None?))
    && (l.order.rested ==> RestedBefore(t, seen, |seen|))
  }

  lemma RestedExtends(t: Terms, seen: seq<BookTop>, b: BookTop, j: nat)
    requires j <= |seen| && RestedBefore(t, seen, j)
    ensures RestedBefore(t, seen + [b], j)
  {
    var i :| 0 <= i < j && !WithinLimit(t, seen[i]);
    assert (seen + [b])[i] == seen[i];
  }

  lemma AdvanceHonest(cfg: FillConfig, t: Terms, seen: seq<BookTop>, l: Life, b: BookTop)
    requires LifeFlags(t, seen, l)
    ensures var a := TryFill(cfg, l.order, b);
            a.Done? && a.fill.Some? ==> HonestAt(cfg, t, seen + [b], |seen|, a.fill.value)
  {
    if AdverseConfig(cfg) && RealQuotes(b) {
      SlippageIsAdverse(cfg, b.Touch(t.side), t.side, l.order.Remaining(), b.Displayed(t.side));
    }
    TryFillIsPriced(cfg, l.order, b);
    hide ApplySlippage, AdverseBps, PricedAt;
    assert (seen + [b])[|seen|] == b;
    if l.order.rested { RestedExtends(t, seen, b, |seen|); }
  }

  lemma AdvanceFlags(cfg: FillConfig, t: Terms, seen: seq<BookTop>, l: Life, b: BookTop)
    requires LifeFlags(t, seen, l)
    ensures LifeFlags(t, seen + [b], Advance(cfg, l, b))
  {
    hide ApplySlippage, AdverseBps, MakeFill;
    assert (seen + [b])[|seen|] == b;
    if l.order.rested {
      var i :| 0 <= i < |seen| && !WithinLimit(t, seen[i]);
      assert (seen + [b])[i] == seen[i];
    }
  }

  lemma HonestExtends(cfg: FillConfig, t: Terms, seen: seq<BookTop>, b: BookTop, f: Fill)
    requires Honest(cfg, t, seen, f)
    ensures Honest(cfg, t, seen + [b], f)
  {
    var j: nat :| j < |seen| && HonestAt(cfg, t, seen, j, f);
    assert (seen + [b])[j] == seen[j];
    if f.role.Maker? { RestedExtends(t, seen, b, j); }
    assert HonestAt(cfg, t, seen + [b], j, f);
  }

  lemma {:induction false} LifeKeepsFlags(cfg: FillConfig, o: Order, seen: seq<BookTop>)
    requires Launched(o)
    ensures LifeFlags(o.terms, seen, Live(cfg, o, seen))
  {
    if seen != [] {
      var init := seen[..|seen| - 1];
      LifeKeepsFlags(cfg, o, init);
      AdvanceFlags(cfg, o.terms, init, Live(cfg, o, init), seen[|seen| - 1]);
      assert init + [seen[|seen| - 1]] == seen;
    }
  }

  /** Every fill of every order is honest, whatever its type, the slippage model and the
      snapshots it was shown. */
  lemma {:induction false} LifeIsHonest(cfg: FillConfig, o: Order, seen: seq<BookTop>)
    requires Launched(o)
    ensures forall f :: f in Live(cfg, o, seen).fills ==> Honest(cfg, o.terms, seen, f)
  {
    if seen != [] {
      var init, b := seen[..|seen| - 1], seen[|seen| - 1];
      assert init + [b] == seen;
      LifeIsHonest(cfg, o, init);
      LifeKeepsFlags(cfg, o, init);
      var l := Live(cfg, o, init);
      AdvanceHonest(cfg, o.terms, init, l, b);
      forall f | f in Live(cfg, o, seen).fills
        ensures Honest(cfg, o.terms, seen, f)
      {
        if f in l.fills {
          HonestExtends(cfg, o.terms, init, b, f);
        } else {
          assert HonestAt(cfg, o.terms, seen, |init|, f);
        }
      }
    }
  }
}
