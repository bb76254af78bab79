/** Fill simulation against top-of-book quotes: backend/app/services/paper_engine/fills.py. */
module Fills {
  import opened Prelude
  import opened Models

  /** What one call of `try_fill` does: the order object as the handler leaves it, the fill
      and the status it reports; or the order object as it was when an `assert` raised. */
  datatype Attempt = Done(order: Order, fill: Option<Fill>, status: OrderStatus) | Raised(order: Order)

  function AdverseMarkup(cfg: FillConfig, qty: real, displayed: real): real {
    match cfg.slippageModel
    case Touch => 0.0
    case SpreadPlusBps => cfg.slippageBps
    case Impact =>
      var levels := if displayed > 0.0 then qty / displayed else 1.0;
      cfg.slippageBps + cfg.impactBpsPerLevel * levels
  }

  function ApplySlippage(cfg: FillConfig, touch: real, side: Side, qty: real, displayed: real): real {
    var adj := touch * AdverseMarkup(cfg, qty, displayed) / 10000.0;
    if side.Buy? then touch + adj else touch - adj
  }

  function AdverseBps(touch: real, price: real, side: Side): real {
    if touch == 0.0 then 0.0
    else (if side.Buy? then price - touch else touch - price) / touch * 10000.0
  }

  function MakeFill(cfg: FillConfig, o: Order, qty: real, price: real, role: FeeRole, slippageBps: real, tsMs: int): Fill {
    var feeBps := if role.Taker? then cfg.takerFeeBps else cfg.makerFeeBps;
    Fill(o.terms.id, o.terms.symbol, o.terms.side, qty, price, qty * price * feeBps / 10000.0, role, slippageBps, cfg.latencyMs, tsMs)
  }

  function FillMarket(cfg: FillConfig, o: Order, b: BookTop): Attempt {
    var touch := b.Touch(o.terms.side);
    var price := ApplySlippage(cfg, touch, o.terms.side, o.Remaining(), b.Displayed(o.terms.side));
    var fill := MakeFill(cfg, o, o.Remaining(), price, Taker, AdverseBps(touch, price, o.terms.side), b.tsMs);
    Done(o.(filledQty := o.terms.qty), Some(fill), Filled)
  }

  predicate Marketable(side: Side, limit: real, b: BookTop) {
    if side.Buy? then b.ask <= limit else b.bid >= limit
  }

  function FillLimit(cfg: FillConfig, o: Order, b: BookTop): Attempt {
    if o.terms.price.None? then Raised(o)
    else if Marketable(o.terms.side, o.terms.price.value, b) then
      if o.terms.tif.PostOnly? then
        if !o.rested then Done(o, None, Rejected)
        else
          var fill := MakeFill(cfg, o, o.Remaining(), o.terms.price.value, Maker, 0.0, b.tsMs);
          Done(o.(filledQty := o.terms.qty), Some(fill), Filled)
      else
        var displayed := b.Displayed(o.terms.side);
        var qty := if cfg.allowPartialLimitFills && displayed > 0.0 then Min(o.Remaining(), displayed) else o.Remaining();
        var o' := o.(filledQty := o.filledQty + qty);
        Done(o', Some(MakeFill(cfg, o, qty, b.Touch(o.terms.side), Taker, 0.0, b.tsMs)),
             if o'.Remaining() == 0.0 then Filled else PartiallyFilled)
    else
      Done(o.(rested := true), None, if o.terms.tif.Ioc? then Cancelled else Accepted)
  }

  /** Whether the mid is at or past the trigger, on the side that fires this order. */
  predicate TriggerReached(kind: OrderType, side: Side, trigger: real, mid: real) {
    if kind.TakeProfit? == side.Sell? then mid >= trigger else mid <= trigger
  }

  function FillTriggered(cfg: FillConfig, o: Order, b: BookTop): Attempt {
    if o.terms.triggerPrice.None? then Raised(o)
    else if !TriggerReached(o.terms.kind, o.terms.side, o.terms.triggerPrice.value, b.Mid()) then Done(o, None, Accepted)
    else FillMarket(cfg, o.(status := Triggered), b)
  }

  function FillStopLimit(cfg: FillConfig, o: Order, b: BookTop): Attempt {
    if o.status.Triggered? then FillLimit(cfg, o, b)
    else if o.terms.triggerPrice.None? then Raised(o)
    else if !TriggerReached(o.terms.kind, o.terms.side, o.terms.triggerPrice.value, b.Mid()) then Done(o, None, Accepted)
    else FillLimit(cfg, o.(status := Triggered), b)
  }

  /** `order._trail_extreme or mark`: a stored extreme of zero counts as absent. */
  function ExtremeOr(o: Order, mark: real): real {
    if o.trailExtreme.Some? && o.trailExtreme.value != 0.0 then o.trailExtreme.value else mark
  }

  function UpdateTrailing(cfg: FillConfig, o: Order, b: BookTop): Attempt {
    if o.terms.trailOffset.None? then Raised(o)
    else
      var mark := b.Mid();
      var extreme := if o.terms.side.Sell? then Max(ExtremeOr(o, mark), mark) else Min(ExtremeOr(o, mark), mark);
      var o' := o.(trailExtreme := Some(extreme));
      var fires := if o.terms.side.Sell? then mark <= extreme - o.terms.trailOffset.value else mark >= extreme + o.terms.trailOffset.value;
      if fires then FillMarket(cfg, o', b) else Done(o', None, Accepted)
  }

  function TryFill(cfg: FillConfig, o: Order, b: BookTop): Attempt {
    match o.terms.kind
    case Market => FillMarket(cfg, o, b)
    case Limit => FillLimit(cfg, o, b)
    case StopMarket => FillTriggered(cfg, o, b)
    case TakeProfit => FillTriggered(cfg, o, b)
    case StopLimit => FillStopLimit(cfg, o, b)
    case TrailingStop => UpdateTrailing(cfg, o, b)
  }

  lemma TryFillKeepsTerms(cfg: FillConfig, o: Order, b: BookTop)
    ensures var t := TryFill(cfg, o, b);
            && t.order.terms == o.terms
            && (t.Done? && t.fill.Some? ==> t.fill.value.orderId == o.terms.id && t.fill.value.symbol == o.terms.symbol)
  {
    hide ApplySlippage, AdverseBps;
  }

  /** The order lacks the price that its handler comes to assert on the snapshot `b`: a stop-limit
      order asks for its limit only once it is triggered. */
  predicate LacksPrice(o: Order, b: BookTop) {
    var t := o.terms;
    match t.kind
    case Market => false
    case Limit => t.price.None?
    case StopMarket => t.triggerPrice.None?
    case TakeProfit => t.triggerPrice.None?
    case StopLimit =>
      if o.status.Triggered? then t.price.None?
      else t.triggerPrice.None? || (t.price.None? && TriggerReached(t.kind, t.side, t.triggerPrice.value, b.Mid()))
    case TrailingStop => t.trailOffset.None?
  }

  lemma RaisesExactly(cfg: FillConfig, o: Order, b: BookTop)
    ensures TryFill(cfg, o, b).Raised? <==> LacksPrice(o, b)
  {
  }

  /** An order missing a price its type needs: the handler's `assert` raises. */
  predicate Malformed(t: Terms) {
    match t.kind
    case Market => false
    case Limit => t.price.None?
    case StopMarket => t.triggerPrice.None?
    case TakeProfit => t.triggerPrice.None?
    case StopLimit => t.triggerPrice.None? || t.price.None?
    case TrailingStop => t.trailOffset.None?
  }
}
