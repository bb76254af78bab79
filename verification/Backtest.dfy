/** The backtester of backend/app/services/backtest/engine.py: one engine driven over candles.
    The ensemble is an arbitrary function of the candles seen so far. */
module Backtests {
  import opened Prelude
  import opened Models
  import opened Fills
  import opened OrderLife
  import opened Accounting
  import opened EngineSpec
  import opened EngineRuns
  import opened EngineTheorems
  import opened EngineBooks
  import opened Risk
  import opened PaperAccounts
  import opened PaperEngines

  datatype BacktestConfig = BacktestConfig(
    startingBalance: real, spreadBps: real, warmup: int, fill: FillConfig, limits: RiskLimits)

  /** The strategy under test, as far as a backtest can see it. */
  datatype Strategy = Strategy(evaluate: seq<Candle> -> Signal)

  function BookFromCandle(c: Candle, symbol: Symbol, spreadBps: real): BookTop {
    var half := c.close * spreadBps / 20000.0;
    BookTop(symbol, c.tsMs, c.close - half, c.close + half, 1000.0, 1000.0)
  }

  /** The synthetic book is centred on the close and has the configured spread. */
  lemma BookQuotesTheClose(c: Candle, symbol: Symbol, spreadBps: real)
    ensures var b := BookFromCandle(c, symbol, spreadBps);
            && b.symbol == symbol && b.tsMs == c.tsMs && b.Mid() == c.close && b.bidQty == b.askQty == 1000.0
            && (c.close != 0.0 ==> b.SpreadBps() == spreadBps)
            && (c.close >= 0.0 && 0.0 <= spreadBps <= 20000.0 ==> 0.0 <= b.bid <= c.close <= b.ask)
  {
    var b, half := BookFromCandle(c, symbol, spreadBps), c.close * spreadBps / 20000.0;
    if c.close != 0.0 {
      QuotientIs(spreadBps / 10000.0, b.ask - b.bid, c.close);
    }
    if c.close >= 0.0 && 0.0 <= spreadBps <= 20000.0 {
      MulNonNegative(c.close, spreadBps);
      MulNonNegative(c.close, 20000.0 - spreadBps);
    }
  }

  // ---- One bar ------------------------------------------------------------------------

  /** The orders of bar `i` have the uuids `Caller(2 * i)` and `Caller(2 * i + 1)`. */
  function ExitTerms(i: nat, symbol: Symbol, p: Position): Terms {
    MarketTerms(Caller(2 * i), symbol, p.side.Opposite(), p.qty, true, Source.Signal)
  }

  function EntryTerms(i: nat, symbol: Symbol, s: Signal, qty: real): Terms {
    MarketTerms(Caller(2 * i + 1), symbol, Wanted(s.direction), qty, false, Source.Signal)
      .(leverage := 3.0, attachStopLoss := s.suggestedStop, attachTakeProfit := s.suggestedTarget)
  }

  /** Submits an order and shows it the bar's book at once. */
  function SubmitAndShow(fill: FillConfig, e: Engine, t: Terms, b: BookTop): Engine {
    OnBook(fill, Submit(e, NewOrder(t), b.tsMs), b).engine
  }

  function EntryQty(cfg: BacktestConfig, symbol: Symbol, a: Account, c: Candle, s: Signal): real
    requires s.suggestedStop.Some?
  {
    Quantize(CappedPositionSize(cfg.limits, Equity(a, map[symbol := c.close]), c.close, s.suggestedStop.value,
                                Some(OrDefault(s.suggestedRiskPct, 0.5))), 0.001)
  }

  function EntryIntent(c: Candle, s: Signal, qty: real): OrderIntent {
    OrderIntent(qty, c.close, 3.0, s.suggestedStop, false)
  }

  function EntryAccountState(symbol: Symbol, a: Account, c: Candle): AccountRiskState {
    var marks := map[symbol := c.close];
    AccountRiskState(Equity(a, marks), Equity(a, marks), 0.0, 0.0, |a.positions.keys|, Exposure(a, marks), 0.0, 0, None)
  }

  function EntryMarketState(b: BookTop): MarketRiskState { MarketRiskState(b.SpreadBps(), 0.0, 1.0, 0.0, true) }

  /** The entry, if the signal has a stop, the size is positive and the risk gate allows it. */
  ghost function Entered(cfg: BacktestConfig, symbol: Symbol, e: Engine, i: nat, c: Candle, s: Signal): Engine {
    var b := BookFromCandle(c, symbol, cfg.spreadBps);
    if s.suggestedStop.None? then e
    else
      var qty := EntryQty(cfg, symbol, e.account, c, s);
      if qty <= 0.0 || !Allowed(cfg.limits, EntryIntent(c, s, qty), EntryAccountState(symbol, e.account, c), EntryMarketState(b))
      then e
      else SubmitAndShow(cfg.fill, e, EntryTerms(i, symbol, s, qty), b)
  }

  /** The reaction to a signal: exit an opposing position first, enter only when flat. */
  ghost function Acted(cfg: BacktestConfig, symbol: Symbol, e: Engine, i: nat, c: Candle, s: Signal): Engine {
    if s.direction.Neutral? then e
    else
      var b := BookFromCandle(c, symbol, cfg.spreadBps);
      var pos := Get(e.account.positions, symbol);
      var e' := if pos.Some? && pos.value.side != Wanted(s.direction)
                then SubmitAndShow(cfg.fill, e, ExitTerms(i, symbol, pos.value), b) else e;
      if symbol in e'.account.positions.vals then e' else Entered(cfg, symbol, e', i, c, s)
  }

  /** Bar `|window| - 1`, with `window` the candles up to it. */
  ghost function Bar(cfg: BacktestConfig, symbol: Symbol, st: Strategy, e: Engine, window: seq<Candle>): Engine
    requires window != []
  {
    var i := |window| - 1;
    var e' := OnBook(cfg.fill, e, BookFromCandle(window[i], symbol, cfg.spreadBps)).engine;
    if i < cfg.warmup then e' else Acted(cfg, symbol, e', i, window[i], st.evaluate(window))
  }

  /** The engine after all the bars of `candles`. */
  ghost function RunBars(cfg: BacktestConfig, symbol: Symbol, st: Strategy, candles: seq<Candle>): Engine {
    if candles == [] then NewEngine(NewAccount(cfg.startingBalance))
    else Bar(cfg, symbol, st, RunBars(cfg, symbol, st, candles[..|candles| - 1]), candles)
  }

  // ---- Round trips ------------------------------------------------------------------------

  /** The position is exactly what one fill opened: never added to, never reduced, no funding. */
  predicate OpenedBy(p: Position, f: Fill) {
    && p.symbol == f.symbol && p.side == f.side && p.qty == p.initialQty == f.qty && p.avgEntry == f.price
    && p.realizedPnl == 0.0 && p.feesPaid == f.fee && p.fundingPaid == 0.0 && p.openedMs == f.tsMs
  }

  /** The trade was opened by one fill and closed by one opposite fill of the same size, and its
      profit is the price difference on that size, less the two fees. */
  predicate IsRoundTrip(t: ClosedTrade, opening: Fill, closing: Fill) {
    && closing.side == opening.side.Opposite() && closing.qty == opening.qty > 0.0
    && t.position.side == opening.side && t.position.initialQty == opening.qty
    && t.position.avgEntry == opening.price && t.exitPrice == closing.price
    && t.position.openedMs == opening.tsMs && t.closedMs == closing.tsMs
    && t.pnl == (if opening.side.Buy? then (closing.price - opening.price) * opening.qty
                 else (opening.price - closing.price) * opening.qty) - opening.fee - closing.fee
  }

  /** The log is opening, closing, opening, closing, ..., one pair per closed trade, and one
      more opening exactly when a position is open. */
  ghost predicate RoundTrips(e: Engine, s: Symbol) {
    && (e.account.positions.keys == [] || e.account.positions.keys == [s])
    && |e.log| == 2 * |e.account.closed| + |e.account.positions.keys|
    && (forall k :: 0 <= k < |e.log| ==> e.log[k].Traded?)
    && (forall k :: 0 <= k < |e.account.closed| ==> IsRoundTrip(e.account.closed[k], e.log[2 * k].fill, e.log[2 * k + 1].fill))
    && (s in e.account.positions.vals ==> OpenedBy(e.account.positions.vals[s], e.log[|e.log| - 1].fill)
                                          && e.account.positions.vals[s].qty > 0.0 && e.account.positions.vals[s].symbol == s)
  }

  lemma FlatOrOne(e: Engine, s: Symbol)
    requires RoundTrips(e, s)
    ensures e.account.positions.keys == (if s in e.account.positions.vals then [s] else [])
    ensures forall x :: x in e.account.positions.vals ==> x == s
  {
    assert forall x :: x in e.account.positions.keys <==> x in e.account.positions.vals;
  }

  lemma OpeningKeepsRoundTrips(e: Engine, e': Engine, s: Symbol, f: Fill)
    requires RoundTrips(e, s) && s !in e.account.positions.vals
    requires e'.log == e.log + [Traded(f)] && e'.account.closed == e.account.closed
    requires f.symbol == s && e'.account.positions.keys == [s] && OpenedBy(e'.account.positions.vals[s], f) && f.qty > 0.0
    ensures RoundTrips(e', s)
  {
    FlatOrOne(e, s);
    hide IsRoundTrip;
    forall k | 0 <= k < |e'.account.closed|
      ensures IsRoundTrip(e'.account.closed[k], e'.log[2 * k].fill, e'.log[2 * k + 1].fill)
    {
      assert e'.log[2 * k] == e.log[2 * k] && e'.log[2 * k + 1] == e.log[2 * k + 1];
    }
  }

  lemma ClosingKeepsRoundTrips(e: Engine, e': Engine, s: Symbol, f: Fill)
    requires RoundTrips(e, s) && s in e.account.positions.vals
    requires f.symbol == s && f.side == e.account.positions.vals[s].side.Opposite() && f.qty == e.account.positions.vals[s].qty
    requires e'.log == e.log + [Traded(f)] && s !in e'.account.positions.vals
    requires e'.account.positions == Del(e.account.positions, s)
    requires var r := ReducedBy(Charged(e.account.positions.vals[s], f), f);
             e'.account.closed == e.account.closed + [ClosedTrade(r, f.price, f.tsMs, Carried(r))]
    ensures RoundTrips(e', s)
  {
    FlatOrOne(e, s);
    var n := |e.account.closed|;
    var opening := e.log[|e.log| - 1].fill;
    ClosedAsRoundTrip(e.account.positions.vals[s], opening, f);
    hide IsRoundTrip, ReducedBy, Charged, OpenedBy;
    assert forall x :: x !in e'.account.positions.vals;
    NoKeys(e'.account.positions);
    forall k | 0 <= k < |e'.account.closed|
      ensures IsRoundTrip(e'.account.closed[k], e'.log[2 * k].fill, e'.log[2 * k + 1].fill)
    {
      if k < n {
        assert e'.log[2 * k] == e.log[2 * k] && e'.log[2 * k + 1] == e.log[2 * k + 1];
      } else {
        assert e'.log[2 * k] == e.log[|e.log| - 1] && e'.log[2 * k + 1] == Traded(f);
      }
    }
  }

  lemma ClosedAsRoundTrip(p: Position, opening: Fill, f: Fill)
    requires OpenedBy(p, opening) && p.qty > 0.0
    requires f.side == p.side.Opposite() && f.qty == p.qty
    ensures var r := ReducedBy(Charged(p, f), f); IsRoundTrip(ClosedTrade(r, f.price, f.tsMs, Carried(r)), opening, f)
  {
    assert Min(p.qty, f.qty) == opening.qty;
  }

  // ---- What one book does in a backtest -----------------------------------------------------

  /** A market order that works in the symbol alone: an entry when flat, or the full-size exit
      of the open position. */
  ghost predicate SoundOrder(e: Engine, s: Symbol, o: Order) {
    && o.terms.kind.Market? && o.terms.symbol == s && o.terms.qty > 0.0 && o.filledQty == 0.0
    && (s in e.account.positions.vals ==>
          var p := e.account.positions.vals[s]; o.terms.side == p.side.Opposite() && o.terms.qty == p.qty)
  }

  lemma MarketSettles(cfg: FillConfig, e: Engine, o: Order, b: BookTop)
    requires o.terms.kind.Market? && o.filledQty == 0.0
    ensures var t := Settle(cfg, e, o, b);
            var f := TryFill(cfg, o, b).fill.value;
            && !t.raised
            && f.qty == o.terms.qty && f.side == o.terms.side && f.symbol == o.terms.symbol && f.orderId == o.terms.id
            && t.engine.pending == Del(e.pending, o.terms.id)
            && t.engine.log == e.log + [Traded(f)]
            && t.engine.account == Attach(ApplyFill(e.account, f, o.terms.leverage), o.terms)
  {
    hide ApplyFill, Attach, ApplySlippage, AdverseBps;
  }

  /** Settling a sound order opens a position or closes the whole one; either way the log stays
      a sequence of round trips. */
  lemma SettleKeepsRoundTrips(cfg: FillConfig, e: Engine, o: Order, b: BookTop, s: Symbol)
    requires RoundTrips(e, s) && SoundOrder(e, s, o)
    ensures var e' := Settle(cfg, e, o, b).engine;
            RoundTrips(e', s) && (s in e'.account.positions.vals <==> s !in e.account.positions.vals)
  {
    MarketSettles(cfg, e, o, b);
    FlatOrOne(e, s);
    var f := TryFill(cfg, o, b).fill.value;
    var e' := Settle(cfg, e, o, b).engine;
    hide Settle, TryFill;
    if s in e.account.positions.vals {
      FullCloseRemoves(e.account, f, o.terms.leverage);
      hide ApplyFill;
      ClosingKeepsRoundTrips(e, e', s, f);
    } else {
      assert e'.account.positions.keys == [s];
      OpeningKeepsRoundTrips(e, e', s, f);
    }
  }

  lemma ProtectionsKeepRoundTrips(cfg: FillConfig, e: Engine, b: BookTop)
    requires RoundTrips(e, b.symbol) && e.pending.keys == []
    ensures RoundTrips(CheckProtections(cfg, e, b), b.symbol) && CheckProtections(cfg, e, b).pending.keys == []
  {
    var s := b.symbol;
    if s in e.account.positions.vals && !InsideProtections(e.account.positions.vals[s], b.Mid()) {
      var o := ExitOrder(e.account.positions.vals[s], e.serial);
      var started := e.(serial := e.serial + 1, traces := e.traces[o.terms.id := Trace(o, b.tsMs, [], o)]);
      MarketSettles(cfg, started, o, b);
      assert RoundTrips(started, s);
      hide Settle;
      SettleKeepsRoundTrips(cfg, started, o, b, s);
    }
  }

  /** Nothing works, or exactly one sound order, submitted at `ts`. */
  ghost predicate Working(e: Engine, s: Symbol, ts: int) {
    e.pending.keys == [] ||
    (|e.pending.keys| == 1
     && var id := e.pending.keys[0]; var p := e.pending.vals[id];
        p.submittedMs == ts && p.order.terms.id == id && SoundOrder(e, s, p.order))
  }

  /** After the first book of a bar: nothing works and no protection is reached. */
  ghost predicate Settled(e: Engine, b: BookTop) {
    && RoundTrips(e, b.symbol) && e.pending.keys == []
    && (b.symbol in e.account.positions.vals ==> InsideProtections(e.account.positions.vals[b.symbol], b.Mid()))
  }

  lemma LateSweep(cfg: FillConfig, e: Engine, b: BookTop, ts: int)
    requires RoundTrips(e, b.symbol) && Working(e, b.symbol, ts)
    requires e.pending.keys != [] ==> b.tsMs >= ts + cfg.latencyMs
    ensures var t := Sweep(cfg, e, e.pending.keys, b);
            !t.raised && RoundTrips(t.engine, b.symbol) && t.engine.pending.keys == []
  {
    hide RoundTrips, Settle;
    if e.pending.keys != [] {
      var id := e.pending.keys[0];
      var o := e.pending.vals[id].order;
      assert e.pending.keys == [id] && e.pending.keys[1..] == [];
      MarketSettles(cfg, e, o, b);
      SettleKeepsRoundTrips(cfg, e, o, b, b.symbol);
      var v := Visit(cfg, e, id, b);
      assert v == Settle(cfg, e, o, b);
      hide Visit, SoundOrder;
      assert Sweep(cfg, v.engine, [], b) == Tick(v.engine, false);
      assert Without([id], id) == [];
    }
  }

  /** A book late enough for the working order leaves nothing working. */
  lemma LateBook(cfg: FillConfig, e: Engine, b: BookTop, ts: int)
    requires RoundTrips(e, b.symbol) && Working(e, b.symbol, ts)
    requires e.pending.keys != [] ==> b.tsMs >= ts + cfg.latencyMs
    ensures Settled(OnBook(cfg, e, b).engine, b)
  {
    LateSweep(cfg, e, b, ts);
    var t := Sweep(cfg, e, e.pending.keys, b);
    if b.symbol in t.engine.account.positions.vals { OpenHasQty(t.engine, b.symbol); }
    hide Sweep, RoundTrips, CheckProtections, Working;
    ProtectionsKeepRoundTrips(cfg, t.engine, b);
    CheckedProtectionsHold(cfg, t.engine, b);
  }

  /** A book too early for the working order, with the protections not reached, changes nothing. */
  lemma EarlyBookIsIgnored(cfg: FillConfig, e: Engine, b: BookTop, ts: int)
    requires Working(e, b.symbol, ts) && e.pending.keys != []
    requires b.tsMs < ts + cfg.latencyMs
    requires b.symbol in e.account.positions.vals ==> InsideProtections(e.account.positions.vals[b.symbol], b.Mid())
    ensures OnBook(cfg, e, b) == Tick(e, false)
  {
    var id := e.pending.keys[0];
    assert e.pending.keys == [id] && e.pending.keys[1..] == [];
    hide Settle;
    assert Visit(cfg, e, id, b) == Tick(e, false);
    assert Sweep(cfg, e, [], b) == Tick(e, false);
  }

  /** After the bar: nothing works, or, if there is latency, one order submitted in this bar. */
  ghost predicate BarDone(cfg: FillConfig, e: Engine, b: BookTop) {
    RoundTrips(e, b.symbol) && Working(e, b.symbol, b.tsMs) && (e.pending.keys != [] ==> cfg.latencyMs > 0)
  }

  lemma SubmitWorks(e: Engine, t: Terms, b: BookTop)
    requires Settled(e, b) && SoundOrder(e, b.symbol, NewOrder(t)) && Acceptable(e.account, t)
    ensures var w := Submit(e, NewOrder(t), b.tsMs);
            && RoundTrips(w, b.symbol) && Working(w, b.symbol, b.tsMs)
            && w.pending.keys != [] && w.account == e.account
  {
    assert Submit(e, NewOrder(t), b.tsMs).pending.keys == [t.id];
  }

  /** A bar's order is filled at once without latency, and just waits with it. */
  lemma SubmitAndShowDoes(cfg: FillConfig, e: Engine, t: Terms, b: BookTop)
    requires Settled(e, b) && SoundOrder(e, b.symbol, NewOrder(t)) && Acceptable(e.account, t)
    ensures var e' := SubmitAndShow(cfg, e, t, b);
            && BarDone(cfg, e', b)
            && (cfg.latencyMs <= 0 ==> Settled(e', b))
            && (cfg.latencyMs > 0 ==> e'.account == e.account)
  {
    hide Submit, RoundTrips, OnBook, SoundOrder, Acceptable;
    var w := Submit(e, NewOrder(t), b.tsMs);
    SubmitWorks(e, t, b);
    if cfg.latencyMs <= 0 {
      LateBook(cfg, w, b, b.tsMs);
    } else {
      EarlyBookIsIgnored(cfg, w, b, b.tsMs);
    }
  }

  lemma ActedIsDone(cfg: BacktestConfig, symbol: Symbol, e: Engine, i: nat, c: Candle, s: Signal)
    requires Settled(e, BookFromCandle(c, symbol, cfg.spreadBps))
    ensures BarDone(cfg.fill, Acted(cfg, symbol, e, i, c, s), BookFromCandle(c, symbol, cfg.spreadBps))
  {
    var b := BookFromCandle(c, symbol, cfg.spreadBps);
    hide BookFromCandle, SubmitAndShow, RoundTrips, EntryQty, Allowed;
    assert b.symbol == symbol by { BookSymbol(c, symbol, cfg.spreadBps); }
    if !s.direction.Neutral? {
      var pos := Get(e.account.positions, symbol);
      var e' := e;
      if pos.Some? && pos.value.side != Wanted(s.direction) {
        OpenHasQty(e, symbol);
        SubmitAndShowDoes(cfg.fill, e, ExitTerms(i, symbol, pos.value), b);
        e' := SubmitAndShow(cfg.fill, e, ExitTerms(i, symbol, pos.value), b);
      }
      if symbol !in e'.account.positions.vals && s.suggestedStop.Some? {
        var qty := EntryQty(cfg, symbol, e'.account, c, s);
        if qty > 0.0 { SubmitAndShowDoes(cfg.fill, e', EntryTerms(i, symbol, s, qty), b); }
      }
    }
  }

  lemma BookSymbol(c: Candle, symbol: Symbol, spreadBps: real)
    ensures BookFromCandle(c, symbol, spreadBps).symbol == symbol
    ensures BookFromCandle(c, symbol, spreadBps).tsMs == c.tsMs
  {
  }

  lemma OpenHasQty(e: Engine, s: Symbol)
    requires RoundTrips(e, s) && s in e.account.positions.vals
    ensures e.account.positions.vals[s].qty > 0.0 && e.account.positions.vals[s].symbol == s
  {
  }

  /** Each bar is at least the latency after the one before it. */
  ghost predicate Spaced(cfg: BacktestConfig, candles: seq<Candle>) {
    forall i :: 0 < i < |candles| ==> candles[i].tsMs >= candles[i - 1].tsMs + cfg.fill.latencyMs
  }

  /** In every backtest whose bars are at least the latency apart, each position is opened by
      one fill and closed by one opposite fill of its full size, with no adding, reducing or
      flipping; each closed trade's profit is its price difference less its two fees; and between
      bars at most one order is working. */
  lemma {:induction false} BacktestTradesInRoundTrips(cfg: BacktestConfig, symbol: Symbol, st: Strategy, candles: seq<Candle>)
    requires Spaced(cfg, candles)
    ensures var e := RunBars(cfg, symbol, st, candles);
            RoundTrips(e, symbol) && |e.pending.keys| <= 1
    ensures candles != [] ==>
              BarDone(cfg.fill, RunBars(cfg, symbol, st, candles),
                      BookFromCandle(candles[|candles| - 1], symbol, cfg.spreadBps))
  {
    if candles != [] {
      var init, c := candles[..|candles| - 1], candles[|candles| - 1];
      BacktestTradesInRoundTrips(cfg, symbol, st, init);
      var b := BookFromCandle(c, symbol, cfg.spreadBps);
      var e := RunBars(cfg, symbol, st, init);
      BookSymbol(c, symbol, cfg.spreadBps);
      if init != [] {
        assert init[|init| - 1] == candles[|candles| - 2];
        BookSymbol(init[|init| - 1], symbol, cfg.spreadBps);
        LateBook(cfg.fill, e, b, init[|init| - 1].tsMs);
      } else {
        LateBook(cfg.fill, e, b, 0);
      }
      hide OnBook, Acted, RoundTrips, BookFromCandle;
      var e' := OnBook(cfg.fill, e, b).engine;
      assert Settled(e', b);
      ActedIsDone(cfg, symbol, e', |init|, c, st.evaluate(candles));
    }
  }

  // ---- Where orders and snapshots come from -------------------------------------------------------

  /** `b` is the book of one of the candles from the warmup on. */
  ghost predicate IsBarBook(cfg: BacktestConfig, symbol: Symbol, candles: seq<Candle>, b: BookTop) {
    exists j :: 0 <= j < |candles| && cfg.warmup <= j && b == BookFromCandle(candles[j], symbol, cfg.spreadBps)
  }

  /** The engine is sound, its callers' orders are those of the first `n` bars, each submitted
      at the close of its own bar, and its orders have met no books but those of the candles from
      the warmup on. */
  ghost predicate FromBars(cfg: BacktestConfig, symbol: Symbol, e: Engine, candles: seq<Candle>, n: nat) {
    && Sound(cfg.fill, e)
    && (forall id :: id in e.traces && id.Caller? ==>
          id.n < n && id.n / 2 < |candles| && e.traces[id].submittedMs == candles[id.n / 2].tsMs)
    && (forall id, b :: id in e.traces && b in e.traces[id].seen ==> IsBarBook(cfg, symbol, candles, b))
  }

  lemma BookFromBars(cfg: BacktestConfig, symbol: Symbol, e: Engine, b: BookTop, candles: seq<Candle>, n: nat)
    requires FromBars(cfg, symbol, e, candles, n) && IsBarBook(cfg, symbol, candles, b)
    ensures FromBars(cfg, symbol, OnBook(cfg.fill, e, b).engine, candles, n)
  {
    hide OnBook, Sound, IsBarBook, Showing;
    StepSound(cfg.fill, e, Book(b));
    var e' := OnBook(cfg.fill, e, b).engine;
    forall id | id in e'.traces
      ensures id in e.traces || id.ProtectionExit?
      ensures id in e.traces ==> e'.traces[id].submittedMs == e.traces[id].submittedMs
      ensures forall x :: x in e'.traces[id].seen ==> x == b || (id in e.traces && x in e.traces[id].seen)
    {
      if id in e.traces { BookShowsOnly(cfg.fill, e, b, id); } else { BookNewcomers(cfg.fill, e, b, id); }
    }
  }

  lemma BookShowsOnly(fill: FillConfig, e: Engine, b: BookTop, id: OrderId)
    requires Sound(fill, e) && id in e.traces
    ensures var e' := OnBook(fill, e, b).engine;
            && id in e'.traces && e'.traces[id].submittedMs == e.traces[id].submittedMs
            && forall x :: x in e'.traces[id].seen ==> x == b || x in e.traces[id].seen
  {
    hide OnBook, Sound, UpToStuck, Eligible;
    BookShows(fill, e, b, id);
  }

  lemma MoreCandles(cfg: BacktestConfig, symbol: Symbol, e: Engine, candles: seq<Candle>, c: Candle, n: nat)
    requires FromBars(cfg, symbol, e, candles, n)
    ensures FromBars(cfg, symbol, e, candles + [c], n)
  {
    hide Sound, BookFromCandle;
    forall k | 0 <= k < |candles| ensures (candles + [c])[k] == candles[k] {}
    forall b | IsBarBook(cfg, symbol, candles, b)
      ensures IsBarBook(cfg, symbol, candles + [c], b)
    {
      var j :| 0 <= j < |candles| && cfg.warmup <= j && b == BookFromCandle(candles[j], symbol, cfg.spreadBps);
      assert (candles + [c])[j] == candles[j];
    }
  }

  lemma MoreOrders(cfg: BacktestConfig, symbol: Symbol, e: Engine, candles: seq<Candle>, n: nat)
    requires FromBars(cfg, symbol, e, candles, n)
    ensures FromBars(cfg, symbol, e, candles, n + 1)
  {
    hide Sound, IsBarBook;
  }

  lemma SubmitAndShowFromBars(cfg: BacktestConfig, symbol: Symbol, e: Engine, t: Terms, b: BookTop, candles: seq<Candle>, n: nat)
    requires FromBars(cfg, symbol, e, candles, n) && t.id == Caller(n)
    requires n / 2 < |candles| && b.tsMs == candles[n / 2].tsMs && IsBarBook(cfg, symbol, candles, b)
    ensures FromBars(cfg, symbol, SubmitAndShow(cfg.fill, e, t, b), candles, n + 1)
    ensures Admissible(e, SubmitOrder(NewOrder(t), b.tsMs))
  {
    hide Sound, OnBook, IsBarBook;
    StepSound(cfg.fill, e, SubmitOrder(NewOrder(t), b.tsMs));
    var w := Submit(e, NewOrder(t), b.tsMs);
    assert FromBars(cfg, symbol, w, candles, n + 1);
    hide FromBars, Submit;
    BookFromBars(cfg, symbol, w, b, candles, n + 1);
  }

  // ---- A backtest is a run of the engine --------------------------------------------------------

  /** What `SubmitAndShow` asks of the engine. */
  function Shown(t: Terms, b: BookTop): seq<Action> { [SubmitOrder(NewOrder(t), b.tsMs)] + [Book(b)] }

  function ExitActions(symbol: Symbol, e: Engine, i: nat, s: Signal, b: BookTop): seq<Action> {
    var pos := Get(e.account.positions, symbol);
    if pos.Some? && pos.value.side != Wanted(s.direction) then Shown(ExitTerms(i, symbol, pos.value), b) else []
  }

  ghost function EntryActions(cfg: BacktestConfig, symbol: Symbol, e: Engine, i: nat, c: Candle, s: Signal): seq<Action> {
    var b := BookFromCandle(c, symbol, cfg.spreadBps);
    if s.suggestedStop.None? then []
    else
      var qty := EntryQty(cfg, symbol, e.account, c, s);
      if qty <= 0.0 || !Allowed(cfg.limits, EntryIntent(c, s, qty), EntryAccountState(symbol, e.account, c), EntryMarketState(b))
      then [] else Shown(EntryTerms(i, symbol, s, qty), b)
  }

  ghost function SignalActions(cfg: BacktestConfig, symbol: Symbol, e: Engine, i: nat, c: Candle, s: Signal): seq<Action> {
    if s.direction.Neutral? then []
    else
      var exits := ExitActions(symbol, e, i, s, BookFromCandle(c, symbol, cfg.spreadBps));
      var e' := Run(cfg.fill, e, exits);
      exits + if symbol in e'.account.positions.vals then [] else EntryActions(cfg, symbol, e', i, c, s)
  }

  ghost function BarActions(cfg: BacktestConfig, symbol: Symbol, st: Strategy, e: Engine, window: seq<Candle>): seq<Action>
    requires window != []
  {
    var i := |window| - 1;
    var b := BookFromCandle(window[i], symbol, cfg.spreadBps);
    [Book(b)] + if i < cfg.warmup then []
                else SignalActions(cfg, symbol, OnBook(cfg.fill, e, b).engine, i, window[i], st.evaluate(window))
  }

  /** All that a backtest asks of its engine. */
  ghost function BacktestActions(cfg: BacktestConfig, symbol: Symbol, st: Strategy, candles: seq<Candle>): seq<Action> {
    if candles == [] then []
    else
      var init := candles[..|candles| - 1];
      BacktestActions(cfg, symbol, st, init) + BarActions(cfg, symbol, st, RunBars(cfg, symbol, st, init), candles)
  }

  /** `actions` lead properly from `e` to `e'`, and what they submit are market orders. */
  ghost predicate Leads(fill: FillConfig, e: Engine, actions: seq<Action>, e': Engine) {
    && Proper(fill, e, actions) && Run(fill, e, actions) == e'
    && forall k :: 0 <= k < |actions| && actions[k].SubmitOrder? ==> actions[k].order.terms.kind.Market?
  }

  lemma LeadsNowhere(fill: FillConfig, e: Engine)
    ensures Leads(fill, e, [], e)
  {
  }

  lemma LeadsOn(fill: FillConfig, e: Engine, xs: seq<Action>, f: Engine, ys: seq<Action>, g: Engine)
    requires Leads(fill, e, xs, f) && Leads(fill, f, ys, g)
    ensures Leads(fill, e, xs + ys, g)
  {
    hide Proper, Run;
    ProperConcat(fill, e, xs, ys);
    RunConcat(fill, e, xs, ys);
  }

  lemma OneLeads(fill: FillConfig, e: Engine, a: Action)
    requires Admissible(e, a) && (a.SubmitOrder? ==> a.order.terms.kind.Market?)
    ensures Leads(fill, e, [a], Step(fill, e, a))
  {
    hide Step, Admissible;
    assert [a][..0] == [];
    assert Run(fill, e, []) == e;
  }

  lemma ShownLeads(cfg: BacktestConfig, symbol: Symbol, e: Engine, t: Terms, b: BookTop, candles: seq<Candle>, n: nat)
    requires FromBars(cfg, symbol, e, candles, n) && t.id == Caller(n) && t.kind.Market?
    requires n / 2 < |candles| && b.tsMs == candles[n / 2].tsMs && IsBarBook(cfg, symbol, candles, b)
    ensures Leads(cfg.fill, e, Shown(t, b), SubmitAndShow(cfg.fill, e, t, b))
    ensures FromBars(cfg, symbol, SubmitAndShow(cfg.fill, e, t, b), candles, n + 1)
  {
    hide FromBars, Leads, OnBook, Submit;
    SubmitAndShowFromBars(cfg, symbol, e, t, b, candles, n);
    var w := Submit(e, NewOrder(t), b.tsMs);
    OneLeads(cfg.fill, e, SubmitOrder(NewOrder(t), b.tsMs));
    OneLeads(cfg.fill, w, Book(b));
    LeadsOn(cfg.fill, e, [SubmitOrder(NewOrder(t), b.tsMs)], w, [Book(b)], OnBook(cfg.fill, w, b).engine);
  }

  lemma ExitLeads(cfg: BacktestConfig, symbol: Symbol, e: Engine, i: nat, s: Signal, b: BookTop, candles: seq<Candle>)
    requires FromBars(cfg, symbol, e, candles, 2 * i)
    requires i < |candles| && b.tsMs == candles[i].tsMs && IsBarBook(cfg, symbol, candles, b)
    ensures var acts := ExitActions(symbol, e, i, s, b);
            && Leads(cfg.fill, e, acts, Run(cfg.fill, e, acts))
            && FromBars(cfg, symbol, Run(cfg.fill, e, acts), candles, 2 * i + 1)
            && Run(cfg.fill, e, acts) == (var pos := Get(e.account.positions, symbol);
                                         if pos.Some? && pos.value.side != Wanted(s.direction)
                                         then SubmitAndShow(cfg.fill, e, ExitTerms(i, symbol, pos.value), b) else e)
  {
    hide FromBars, SubmitAndShow, IsBarBook, Shown, Run;
    var pos := Get(e.account.positions, symbol);
    if pos.Some? && pos.value.side != Wanted(s.direction) {
      ShownLeads(cfg, symbol, e, ExitTerms(i, symbol, pos.value), b, candles, 2 * i);
    } else {
      LeadsNowhere(cfg.fill, e);
      MoreOrders(cfg, symbol, e, candles, 2 * i);
    }
  }

  lemma EntryLeads(cfg: BacktestConfig, symbol: Symbol, e: Engine, i: nat, c: Candle, s: Signal, candles: seq<Candle>)
    requires FromBars(cfg, symbol, e, candles, 2 * i + 1) && cfg.warmup <= i < |candles| && candles[i] == c
    ensures Leads(cfg.fill, e, EntryActions(cfg, symbol, e, i, c, s), Entered(cfg, symbol, e, i, c, s))
    ensures FromBars(cfg, symbol, Entered(cfg, symbol, e, i, c, s), candles, 2 * i + 2)
  {
    hide FromBars, SubmitAndShow, Shown, EntryQty, Allowed, Leads, BookFromCandle;
    BarBook(cfg, symbol, candles, i);
    var b := BookFromCandle(c, symbol, cfg.spreadBps);
    LeadsNowhere(cfg.fill, e);
    MoreOrders(cfg, symbol, e, candles, 2 * i + 1);
    if s.suggestedStop.Some? {
      ShownLeads(cfg, symbol, e, EntryTerms(i, symbol, s, EntryQty(cfg, symbol, e.account, c, s)), b, candles, 2 * i + 1);
    }
  }

  lemma BarBook(cfg: BacktestConfig, symbol: Symbol, candles: seq<Candle>, i: nat)
    requires cfg.warmup <= i < |candles|
    ensures var b := BookFromCandle(candles[i], symbol, cfg.spreadBps);
            IsBarBook(cfg, symbol, candles, b) && b.tsMs == candles[i].tsMs
  {
  }

  lemma SignalLeads(cfg: BacktestConfig, symbol: Symbol, e: Engine, i: nat, c: Candle, s: Signal, candles: seq<Candle>)
    requires FromBars(cfg, symbol, e, candles, 2 * i) && cfg.warmup <= i < |candles| && candles[i] == c
    ensures Leads(cfg.fill, e, SignalActions(cfg, symbol, e, i, c, s), Acted(cfg, symbol, e, i, c, s))
    ensures FromBars(cfg, symbol, Acted(cfg, symbol, e, i, c, s), candles, 2 * i + 2)
  {
    hide FromBars, Leads, EntryActions, ExitActions, Entered, SubmitAndShow, BookFromCandle, Run;
    var b := BookFromCandle(c, symbol, cfg.spreadBps);
    BarBook(cfg, symbol, candles, i);
    MoreOrders(cfg, symbol, e, candles, 2 * i);
    MoreOrders(cfg, symbol, e, candles, 2 * i + 1);
    LeadsNowhere(cfg.fill, e);
    if !s.direction.Neutral? {
      var exits := ExitActions(symbol, e, i, s, b);
      ExitLeads(cfg, symbol, e, i, s, b, candles);
      var e' := Run(cfg.fill, e, exits);
      MoreOrders(cfg, symbol, e', candles, 2 * i + 1);
      if symbol in e'.account.positions.vals {
        assert exits + [] == exits;
      } else {
        EntryLeads(cfg, symbol, e', i, c, s, candles);
        LeadsOn(cfg.fill, e, exits, e', EntryActions(cfg, symbol, e', i, c, s), Entered(cfg, symbol, e', i, c, s));
      }
    }
  }

  lemma BarLeads(cfg: BacktestConfig, symbol: Symbol, st: Strategy, e: Engine, candles: seq<Candle>)
    requires |candles| > cfg.warmup && candles != []
    requires FromBars(cfg, symbol, e, candles[..|candles| - 1], 2 * (|candles| - 1))
    ensures Leads(cfg.fill, e, BarActions(cfg, symbol, st, e, candles), Bar(cfg, symbol, st, e, candles))
    ensures FromBars(cfg, symbol, Bar(cfg, symbol, st, e, candles), candles, 2 * |candles|)
  {
    hide FromBars, Leads, SignalActions, Acted, OnBook, BookFromCandle;
    var i := |candles| - 1;
    var b, s := BookFromCandle(candles[i], symbol, cfg.spreadBps), st.evaluate(candles);
    var e' := OnBook(cfg.fill, e, b).engine;
    assert candles[..i] + [candles[i]] == candles;
    MoreCandles(cfg, symbol, e, candles[..i], candles[i], 2 * i);
    BarBook(cfg, symbol, candles, i);
    BookFromBars(cfg, symbol, e, b, candles, 2 * i);
    OneLeads(cfg.fill, e, Book(b));
    SignalLeads(cfg, symbol, e', i, candles[i], s, candles);
    LeadsOn(cfg.fill, e, [Book(b)], e', SignalActions(cfg, symbol, e', i, candles[i], s), Acted(cfg, symbol, e', i, candles[i], s));
    MoreOrders(cfg, symbol, e', candles, 2 * i);
    MoreOrders(cfg, symbol, e', candles, 2 * i + 1);
    assert [Book(b)] + [] == [Book(b)];
  }

  /** Until its warmup is over a backtest has done nothing at all: a fold starts from scratch. */
  lemma {:induction false} WarmupIsQuiet(cfg: BacktestConfig, symbol: Symbol, st: Strategy, candles: seq<Candle>)
    requires |candles| <= cfg.warmup
    ensures RunBars(cfg, symbol, st, candles) == NewEngine(NewAccount(cfg.startingBalance))
  {
    if candles != [] {
      WarmupIsQuiet(cfg, symbol, st, candles[..|candles| - 1]);
    }
  }

  lemma {:induction false} BarsLead(cfg: BacktestConfig, symbol: Symbol, st: Strategy, candles: seq<Candle>)
    ensures Leads(cfg.fill, NewEngine(NewAccount(cfg.startingBalance)),
                  BacktestActions(cfg, symbol, st, candles), RunBars(cfg, symbol, st, candles))
    ensures FromBars(cfg, symbol, RunBars(cfg, symbol, st, candles), candles, 2 * |candles|)
  {
    hide FromBars, Leads, BarActions, Bar;
    var e0 := NewEngine(NewAccount(cfg.startingBalance));
    if candles == [] {
      LeadsNowhere(cfg.fill, e0);
      NewFromBars(cfg, symbol, candles);
    } else {
      var init := candles[..|candles| - 1];
      BarsLead(cfg, symbol, st, init);
      var e := RunBars(cfg, symbol, st, init);
      if |candles| <= cfg.warmup {
        WarmupIsQuiet(cfg, symbol, st, init);
        WarmupIsQuiet(cfg, symbol, st, candles);
        NewFromBars(cfg, symbol, candles);
        WarmupBarLeads(cfg, symbol, st, candles);
      } else {
        BarLeads(cfg, symbol, st, e, candles);
      }
      LeadsOn(cfg.fill, e0, BacktestActions(cfg, symbol, st, init), e, BarActions(cfg, symbol, st, e, candles),
              Bar(cfg, symbol, st, e, candles));
    }
  }

  lemma NewFromBars(cfg: BacktestConfig, symbol: Symbol, candles: seq<Candle>)
    ensures FromBars(cfg, symbol, NewEngine(NewAccount(cfg.startingBalance)), candles, 2 * |candles|)
  {
    NewEngineSound(cfg.fill, cfg.startingBalance);
  }

  lemma WarmupBarLeads(cfg: BacktestConfig, symbol: Symbol, st: Strategy, candles: seq<Candle>)
    requires 0 < |candles| <= cfg.warmup
    ensures var e := NewEngine(NewAccount(cfg.startingBalance));
            Leads(cfg.fill, e, BarActions(cfg, symbol, st, e, candles), Bar(cfg, symbol, st, e, candles))
  {
    hide Leads, OnBook, BookFromCandle;
    var b := BookFromCandle(candles[|candles| - 1], symbol, cfg.spreadBps);
    OneLeads(cfg.fill, NewEngine(NewAccount(cfg.startingBalance)), Book(b));
    assert [Book(b)] + [] == [Book(b)];
  }

  /** A backtest is a proper run of a fresh engine, of orders that have the prices they need: every
      theorem about such runs holds of it. */
  lemma BacktestIsRun(cfg: BacktestConfig, symbol: Symbol, st: Strategy, candles: seq<Candle>)
    ensures var e0, actions := NewEngine(NewAccount(cfg.startingBalance)), BacktestActions(cfg, symbol, st, candles);
            && Proper(cfg.fill, e0, actions) && Priced(actions)
            && Run(cfg.fill, e0, actions) == RunBars(cfg, symbol, st, candles)
  {
    hide Proper, Run, BacktestActions, RunBars;
    BarsLead(cfg, symbol, st, candles);
  }

  // ---- Causality of the fills -----------------------------------------------------------------------

  lemma {:induction false} SpacedAscends(cfg: BacktestConfig, candles: seq<Candle>, i: nat, j: nat)
    requires Spaced(cfg, candles) && cfg.fill.latencyMs >= 0 && i <= j < |candles|
    ensures candles[i].tsMs <= candles[j].tsMs
  {
    if i < j { SpacedAscends(cfg, candles, i, j - 1); }
  }

  /** The fill `f` of the order `id` is honest for the book of the candle `j`. */
  ghost predicate PricedByBar(cfg: BacktestConfig, symbol: Symbol, candles: seq<Candle>, e: Engine, id: OrderId, f: Fill, j: nat)
    requires id in e.traces && j < |candles|
  {
    var tr := e.traces[id];
    exists m: nat :: m < |tr.seen| && tr.seen[m] == BookFromCandle(candles[j], symbol, cfg.spreadBps)
                     && HonestAt(cfg.fill, tr.last.terms, tr.seen, m, f)
  }

  /** Every fill, of a signal order or of a protection, is priced from the book of a bar that is not
      in the warmup, and carries its time. */
  lemma BacktestFillsAreFromBars(cfg: BacktestConfig, symbol: Symbol, st: Strategy, candles: seq<Candle>, id: OrderId, f: Fill)
    requires f in FillsOf(RunBars(cfg, symbol, st, candles).log, id)
    ensures var e := RunBars(cfg, symbol, st, candles);
            && id in e.traces && OrderContract(cfg.fill, e, id)
            && exists j: nat :: j < |candles| && PricedByBar(cfg, symbol, candles, e, id, f, j)
                 && cfg.warmup <= j && f.tsMs == candles[j].tsMs
  {
    hide RunBars, Sound, HonestAt, FillsOf, BookFromCandle;
    BarsLead(cfg, symbol, st, candles);
    var e := RunBars(cfg, symbol, st, candles);
    FilledIsTraced(cfg.fill, e, id);
    SoundOrderContract(cfg.fill, e, id);
    var tr := e.traces[id];
    var m: nat :| m < |tr.seen| && HonestAt(cfg.fill, tr.last.terms, tr.seen, m, f);
    HonestTime(cfg.fill, tr.last.terms, tr.seen, m, f);
    assert IsBarBook(cfg, symbol, candles, tr.seen[m]) by { assert tr.seen[m] in tr.seen; }
    var j: nat :| j < |candles| && cfg.warmup <= j && tr.seen[m] == BookFromCandle(candles[j], symbol, cfg.spreadBps);
    BarBook(cfg, symbol, candles, j);
    assert PricedByBar(cfg, symbol, candles, e, id, f, j);
  }

  lemma FilledIsTraced(fill: FillConfig, e: Engine, id: OrderId)
    requires Sound(fill, e) && FillsOf(e.log, id) != []
    ensures id in e.traces
  {
  }

  /** No fill of a signal order looks back. Every fill of an order submitted on the signal of bar
      `k` is priced from the book of one of the bars, from the latency after bar `k` on; when bars
      are at least the latency apart and there is latency, that is a later bar. */
  lemma BacktestFillsAreCausal(cfg: BacktestConfig, symbol: Symbol, st: Strategy, candles: seq<Candle>, id: OrderId, f: Fill)
    requires id.Caller? && f in FillsOf(RunBars(cfg, symbol, st, candles).log, id)
    ensures var e, k := RunBars(cfg, symbol, st, candles), id.n / 2;
            && k < |candles| && id in e.traces && OrderContract(cfg.fill, e, id)
            && exists j: nat :: j < |candles| && PricedByBar(cfg, symbol, candles, e, id, f, j)
                 && f.tsMs == candles[j].tsMs >= candles[k].tsMs + cfg.fill.latencyMs
                 && (Spaced(cfg, candles) && cfg.fill.latencyMs > 0 ==> j > k)
  {
    hide RunBars, PricedByBar, Sound, FillsOf;
    BarsLead(cfg, symbol, st, candles);
    BacktestFillsAreFromBars(cfg, symbol, st, candles, id, f);
    var e, k := RunBars(cfg, symbol, st, candles), id.n / 2;
    var j: nat :| j < |candles| && PricedByBar(cfg, symbol, candles, e, id, f, j) && f.tsMs == candles[j].tsMs;
    if Spaced(cfg, candles) && cfg.fill.latencyMs > 0 && j <= k { SpacedAscends(cfg, candles, j, k); }
  }

  // ---- The signals decide -----------------------------------------------------------------------------

  /** The order has the side of the signal: it buys on LONG and sells on SHORT. */
  ghost predicate Sided(t: Terms, s: Signal) { !s.direction.Neutral? && (t.side.Buy? <==> s.direction.Long?) }

  /** Every order of a bar, exit or entry, has the side of that bar's signal; the exits only reduce, the
      entries carry the stop and the target of the signal. */
  ghost predicate FollowsSignals(st: Strategy, e: Engine, candles: seq<Candle>) {
    forall id :: id in e.traces && id.Caller? ==>
      id.n / 2 < |candles| && SignalOrder(e.traces[id].initial.terms, id.n % 2 == 0, st.evaluate(candles[..id.n / 2 + 1]))
  }

  ghost predicate SignalOrder(t: Terms, exit: bool, s: Signal) {
    && Sided(t, s) && t.reduceOnly == exit && t.kind.Market?
    && t.attachStopLoss == (if exit then None else s.suggestedStop)
    && t.attachTakeProfit == (if exit then None else s.suggestedTarget)
  }

  /** A snapshot leaves the callers' orders those that they were. */
  lemma BookKeepsCallers(fill: FillConfig, e: Engine, b: BookTop, id: OrderId)
    requires Sound(fill, e) && id.Caller?
    ensures var e' := OnBook(fill, e, b).engine;
            && (id in e'.traces <==> id in e.traces)
            && (id in e.traces ==> e'.traces[id].initial == e.traces[id].initial
                                   && e'.traces[id].submittedMs == e.traces[id].submittedMs)
  {
    hide OnBook, Sound, UpToStuck, Eligible;
    if id in e.traces { BookShows(fill, e, b, id); }
    if id in OnBook(fill, e, b).engine.traces && id !in e.traces { BookNewcomers(fill, e, b, id); }
  }

  /** Submitting and showing an order adds that order of the callers and no other. */
  lemma ShowAdds(fill: FillConfig, e: Engine, t: Terms, b: BookTop, id: OrderId)
    requires Sound(fill, e) && Admissible(e, SubmitOrder(NewOrder(t), b.tsMs)) && id.Caller?
    ensures var e' := SubmitAndShow(fill, e, t, b);
            && (id in e'.traces <==> id in e.traces || id == t.id)
            && (id in e.traces ==> e'.traces[id].initial == e.traces[id].initial
                                   && e'.traces[id].submittedMs == e.traces[id].submittedMs)
            && (id == t.id ==> e'.traces[id].initial.terms == t && e'.traces[id].submittedMs == b.tsMs
                               && (e'.traces[id].initial.status.Accepted? <==> Acceptable(e.account, t)))
  {
    hide OnBook, Sound;
    StepSound(fill, e, SubmitOrder(NewOrder(t), b.tsMs));
    BookKeepsCallers(fill, Submit(e, NewOrder(t), b.tsMs), b, id);
  }

  lemma ShowFollows(fill: FillConfig, e: Engine, t: Terms, b: BookTop, st: Strategy, candles: seq<Candle>)
    requires Sound(fill, e) && Admissible(e, SubmitOrder(NewOrder(t), b.tsMs)) && FollowsSignals(st, e, candles)
    requires t.id.n / 2 < |candles| && SignalOrder(t, t.id.n % 2 == 0, st.evaluate(candles[..t.id.n / 2 + 1]))
    ensures FollowsSignals(st, SubmitAndShow(fill, e, t, b), candles)
  {
    hide Sound, SubmitAndShow, SignalOrder, Admissible;
    assert t.id.Caller? by { AdmissibleIsNew(e, t, b.tsMs); }
    var e' := SubmitAndShow(fill, e, t, b);
    forall id | id in e'.traces && id.Caller?
      ensures id.n / 2 < |candles| && SignalOrder(e'.traces[id].initial.terms, id.n % 2 == 0, st.evaluate(candles[..id.n / 2 + 1]))
    {
      ShowAdds(fill, e, t, b, id);
    }
  }

  lemma AdmissibleIsNew(e: Engine, t: Terms, now: int)
    requires Admissible(e, SubmitOrder(NewOrder(t), now))
    ensures t.id.Caller? && t.id !in e.traces
  {
  }

  lemma BookFollows(fill: FillConfig, e: Engine, b: BookTop, st: Strategy, candles: seq<Candle>)
    requires Sound(fill, e) && FollowsSignals(st, e, candles)
    ensures FollowsSignals(st, OnBook(fill, e, b).engine, candles)
  {
    hide Sound, OnBook, SignalOrder;
    var e' := OnBook(fill, e, b).engine;
    forall id | id in e'.traces && id.Caller?
      ensures id.n / 2 < |candles| && SignalOrder(e'.traces[id].initial.terms, id.n % 2 == 0, st.evaluate(candles[..id.n / 2 + 1]))
    {
      BookKeepsCallers(fill, e, b, id);
    }
  }

  lemma MoreCandlesFollow(st: Strategy, e: Engine, candles: seq<Candle>, c: Candle)
    requires FollowsSignals(st, e, candles)
    ensures FollowsSignals(st, e, candles + [c])
  {
    hide SignalOrder;
    forall id | id in e.traces && id.Caller?
      ensures (candles + [c])[..id.n / 2 + 1] == candles[..id.n / 2 + 1]
    {
    }
  }

  lemma ActedFollows(cfg: BacktestConfig, symbol: Symbol, st: Strategy, e: Engine, i: nat, candles: seq<Candle>)
    requires cfg.warmup <= i && |candles| == i + 1 && FromBars(cfg, symbol, e, candles, 2 * i) && FollowsSignals(st, e, candles)
    ensures FollowsSignals(st, Acted(cfg, symbol, e, i, candles[i], st.evaluate(candles)), candles)
  {
    hide OnBook, BookFromCandle, EntryQty, Allowed, FollowsSignals, IsBarBook, Sound, SubmitAndShow;
    var c, s := candles[i], st.evaluate(candles);
    var b := BookFromCandle(c, symbol, cfg.spreadBps);
    assert candles[..i + 1] == candles;
    BarBook(cfg, symbol, candles, i);
    var pos := Get(e.account.positions, symbol);
    if !s.direction.Neutral? {
      MoreOrders(cfg, symbol, e, candles, 2 * i);
      var e' := e;
      if pos.Some? && pos.value.side != Wanted(s.direction) {
        var t := ExitTerms(i, symbol, pos.value);
        SubmitAndShowFromBars(cfg, symbol, e, t, b, candles, 2 * i);
        ShowFollows(cfg.fill, e, t, b, st, candles);
        e' := SubmitAndShow(cfg.fill, e, t, b);
      }
      if symbol !in e'.account.positions.vals && s.suggestedStop.Some? {
        var t := EntryTerms(i, symbol, s, EntryQty(cfg, symbol, e'.account, c, s));
        SubmitAndShowFromBars(cfg, symbol, e', t, b, candles, 2 * i + 1);
        ShowFollows(cfg.fill, e', t, b, st, candles);
      }
    }
  }

  lemma BarFollows(cfg: BacktestConfig, symbol: Symbol, st: Strategy, e: Engine, candles: seq<Candle>)
    requires candles != [] && FromBars(cfg, symbol, e, candles[..|candles| - 1], 2 * (|candles| - 1))
    requires FollowsSignals(st, e, candles[..|candles| - 1])
    ensures FollowsSignals(st, Bar(cfg, symbol, st, e, candles), candles)
  {
    hide FromBars, OnBook, Acted, FollowsSignals, BookFromCandle, IsBarBook, Sound;
    var init, i := candles[..|candles| - 1], |candles| - 1;
    var b := BookFromCandle(candles[i], symbol, cfg.spreadBps);
    assert init + [candles[i]] == candles;
    MoreCandlesFollow(st, e, init, candles[i]);
    FromBarsSound(cfg, symbol, e, init, 2 * i);
    BookFollows(cfg.fill, e, b, st, candles);
    if i >= cfg.warmup {
      MoreCandles(cfg, symbol, e, init, candles[i], 2 * i);
      BarBook(cfg, symbol, candles, i);
      BookFromBars(cfg, symbol, e, b, candles, 2 * i);
      ActedFollows(cfg, symbol, st, OnBook(cfg.fill, e, b).engine, i, candles);
    }
  }

  lemma {:induction false} BarsFollow(cfg: BacktestConfig, symbol: Symbol, st: Strategy, candles: seq<Candle>)
    ensures FollowsSignals(st, RunBars(cfg, symbol, st, candles), candles)
  {
    hide FromBars, Leads, Bar, FollowsSignals;
    if candles == [] {
      NoneFollow(cfg, st);
    } else {
      var init := candles[..|candles| - 1];
      BarsFollow(cfg, symbol, st, init);
      BarsLead(cfg, symbol, st, init);
      BarFollows(cfg, symbol, st, RunBars(cfg, symbol, st, init), candles);
    }
  }

  lemma NoneFollow(cfg: BacktestConfig, st: Strategy)
    ensures FollowsSignals(st, NewEngine(NewAccount(cfg.startingBalance)), [])
  {
  }

  lemma FromBarsSound(cfg: BacktestConfig, symbol: Symbol, e: Engine, candles: seq<Candle>, n: nat)
    requires FromBars(cfg, symbol, e, candles, n)
    ensures Sound(cfg.fill, e)
    ensures forall id :: id in e.traces && id.Caller? ==> id.n < n
  {
  }

  /** Every fill of an order of bar `k`, entry or exit, is a buy when the signal of that bar is LONG and a
      sell when it is SHORT; there is none on a neutral signal. */
  lemma FillsFollowSignals(cfg: BacktestConfig, symbol: Symbol, st: Strategy, candles: seq<Candle>, id: OrderId, f: Fill)
    requires id.Caller? && f in FillsOf(RunBars(cfg, symbol, st, candles).log, id)
    ensures id.n / 2 < |candles|
    ensures var s := st.evaluate(candles[..id.n / 2 + 1]);
            !s.direction.Neutral? && (f.side.Buy? <==> s.direction.Long?)
  {
    hide RunBars, FillsOf, PricedByBar, OrderContract, FromBars, Leads, Sound, FollowsSignals, SignalOrder;
    BarsFollow(cfg, symbol, st, candles);
    BarsLead(cfg, symbol, st, candles);
    BacktestFillsAreFromBars(cfg, symbol, st, candles, id, f);
    var e := RunBars(cfg, symbol, st, candles);
    FromBarsSound(cfg, symbol, e, candles, 2 * |candles|);
    SameTerms(cfg.fill, e, id);
    ContractSide(cfg.fill, e, id, f);
    OrderFollows(st, e, candles, id);
  }

  lemma OrderFollows(st: Strategy, e: Engine, candles: seq<Candle>, id: OrderId)
    requires FollowsSignals(st, e, candles) && id in e.traces && id.Caller?
    ensures id.n / 2 < |candles| && Sided(e.traces[id].initial.terms, st.evaluate(candles[..id.n / 2 + 1]))
  {
  }

  lemma ContractSide(fill: FillConfig, e: Engine, id: OrderId, f: Fill)
    requires id in e.traces && OrderContract(fill, e, id) && f in FillsOf(e.log, id)
    ensures f.side == e.traces[id].last.terms.side
  {
    hide Honest;
  }

  lemma SameTerms(fill: FillConfig, e: Engine, id: OrderId)
    requires Sound(fill, e) && id in e.traces
    ensures e.traces[id].last.terms == e.traces[id].initial.terms
  {
    hide Worked, TurnedAway, SeenInTime, FillsOf, Refines;
    assert TraceOk(fill, e, id);
  }

  /** The engine at the moment bar `|candles| - 1` is decided on: after that bar's book. */
  ghost function AtSignal(cfg: BacktestConfig, symbol: Symbol, st: Strategy, candles: seq<Candle>): Engine
    requires candles != []
  {
    var i := |candles| - 1;
    OnBook(cfg.fill, RunBars(cfg, symbol, st, candles[..i]), BookFromCandle(candles[i], symbol, cfg.spreadBps)).engine
  }

  lemma AtSignalFromBars(cfg: BacktestConfig, symbol: Symbol, st: Strategy, candles: seq<Candle>)
    requires candles != [] && cfg.warmup <= |candles| - 1
    ensures FromBars(cfg, symbol, AtSignal(cfg, symbol, st, candles), candles, 2 * (|candles| - 1))
  {
    hide OnBook, BookFromCandle, FromBars, Leads, IsBarBook;
    var i := |candles| - 1;
    var init := candles[..i];
    BarsLead(cfg, symbol, st, init);
    assert init + [candles[i]] == candles;
    MoreCandles(cfg, symbol, RunBars(cfg, symbol, st, init), init, candles[i], 2 * i);
    BarBook(cfg, symbol, candles, i);
    BookFromBars(cfg, symbol, RunBars(cfg, symbol, st, init), BookFromCandle(candles[i], symbol, cfg.spreadBps), candles, 2 * i);
  }

  lemma BarActs(cfg: BacktestConfig, symbol: Symbol, st: Strategy, candles: seq<Candle>)
    requires candles != [] && cfg.warmup <= |candles| - 1
    ensures var i := |candles| - 1;
            RunBars(cfg, symbol, st, candles)
            == Acted(cfg, symbol, AtSignal(cfg, symbol, st, candles), i, candles[i], st.evaluate(candles))
  {
    hide OnBook, BookFromCandle, Acted;
  }

  /** Showing an order of bar `i` to its book. */
  lemma BarShows(cfg: BacktestConfig, symbol: Symbol, e: Engine, t: Terms, i: nat, candles: seq<Candle>, n: nat, id: OrderId)
    requires cfg.warmup <= i < |candles| && FromBars(cfg, symbol, e, candles, n) && n / 2 == i && t.id == Caller(n) && id.Caller?
    ensures var b := BookFromCandle(candles[i], symbol, cfg.spreadBps);
            var e' := SubmitAndShow(cfg.fill, e, t, b);
            && FromBars(cfg, symbol, e', candles, n + 1)
            && (id in e'.traces <==> id in e.traces || id == t.id)
            && (id in e.traces ==> SameOrder(e, e', id))
            && (id == t.id ==> e'.traces[id].initial.terms == t && e'.traces[id].submittedMs == candles[i].tsMs
                               && (e'.traces[id].initial.status.Accepted? <==> Acceptable(e.account, t)))
  {
    hide FromBars, SubmitAndShow, BookFromCandle, IsBarBook, Sound;
    BarBook(cfg, symbol, candles, i);
    FromBarsSound(cfg, symbol, e, candles, n);
    SubmitAndShowFromBars(cfg, symbol, e, t, BookFromCandle(candles[i], symbol, cfg.spreadBps), candles, n);
    ShowAdds(cfg.fill, e, t, BookFromCandle(candles[i], symbol, cfg.spreadBps), id);
  }

  ghost predicate SameOrder(e: Engine, e': Engine, id: OrderId) {
    && id in e.traces && id in e'.traces
    && e'.traces[id].initial == e.traces[id].initial && e'.traces[id].submittedMs == e.traces[id].submittedMs
  }

  /** The entry of bar `i` leaves its exit alone. */
  lemma EntryKeepsExit(cfg: BacktestConfig, symbol: Symbol, e: Engine, i: nat, s: Signal, candles: seq<Candle>)
    requires cfg.warmup <= i < |candles| && FromBars(cfg, symbol, e, candles, 2 * i + 1)
    ensures var e', id := Entered(cfg, symbol, e, i, candles[i], s), Caller(2 * i);
            (id in e'.traces <==> id in e.traces) && (id in e.traces ==> SameOrder(e, e', id))
  {
    hide FromBars, SubmitAndShow, BookFromCandle, EntryQty, Allowed;
    if s.suggestedStop.Some? {
      BarShows(cfg, symbol, e, EntryTerms(i, symbol, s, EntryQty(cfg, symbol, e.account, candles[i], s)), i, candles,
               2 * i + 1, Caller(2 * i));
    }
  }

  lemma ActedExits(cfg: BacktestConfig, symbol: Symbol, e: Engine, i: nat, s: Signal, candles: seq<Candle>)
    requires cfg.warmup <= i < |candles| && FromBars(cfg, symbol, e, candles, 2 * i)
    ensures var e', id, p := Acted(cfg, symbol, e, i, candles[i], s), Caller(2 * i), Get(e.account.positions, symbol);
            && (id in e'.traces <==> !s.direction.Neutral? && p.Some? && (p.value.side.Buy? <==> !s.direction.Long?))
            && (id in e'.traces ==> e'.traces[id].initial.terms == ExitTerms(i, symbol, p.value)
                                    && e'.traces[id].submittedMs == candles[i].tsMs)
  {
    hide FromBars, SubmitAndShow, BookFromCandle, Entered;
    var p, id := Get(e.account.positions, symbol), Caller(2 * i);
    FromBarsSound(cfg, symbol, e, candles, 2 * i);
    if !s.direction.Neutral? {
      if p.Some? && p.value.side != Wanted(s.direction) {
        var t := ExitTerms(i, symbol, p.value);
        BarShows(cfg, symbol, e, t, i, candles, 2 * i, id);
        EntryKeepsExit(cfg, symbol, SubmitAndShow(cfg.fill, e, t, BookFromCandle(candles[i], symbol, cfg.spreadBps)), i, s, candles);
      } else {
        MoreOrders(cfg, symbol, e, candles, 2 * i);
        EntryKeepsExit(cfg, symbol, e, i, s, candles);
      }
    }
  }

  /** From the warmup on, a bar submits an exit, of the whole position, exactly when its signal has a
      direction and a position against that direction is open. */
  lemma ExitsExactly(cfg: BacktestConfig, symbol: Symbol, st: Strategy, candles: seq<Candle>)
    requires candles != [] && cfg.warmup <= |candles| - 1
    ensures var i, s := |candles| - 1, st.evaluate(candles);
            var e, e' := AtSignal(cfg, symbol, st, candles), RunBars(cfg, symbol, st, candles);
            var p, id := Get(e.account.positions, symbol), Caller(2 * i);
            && (id in e'.traces <==> !s.direction.Neutral? && p.Some? && (p.value.side.Buy? <==> !s.direction.Long?))
            && (id in e'.traces ==>
                  var t := e'.traces[id].initial.terms;
                  && t.kind.Market? && t.reduceOnly && t.symbol == symbol && t.side != p.value.side && t.qty == p.value.qty
                  && e'.traces[id].submittedMs == candles[i].tsMs)
  {
    hide AtSignal, RunBars, Acted, FromBars;
    AtSignalFromBars(cfg, symbol, st, candles);
    BarActs(cfg, symbol, st, candles);
    ActedExits(cfg, symbol, AtSignal(cfg, symbol, st, candles), |candles| - 1, st.evaluate(candles), candles);
  }

  /** The engine at the moment bar `|candles| - 1` may enter: after the exit, if there is one. */
  ghost function AtEntry(cfg: BacktestConfig, symbol: Symbol, st: Strategy, candles: seq<Candle>): Engine
    requires candles != []
  {
    var e, i, s := AtSignal(cfg, symbol, st, candles), |candles| - 1, st.evaluate(candles);
    var p := Get(e.account.positions, symbol);
    if !s.direction.Neutral? && p.Some? && (p.value.side.Buy? <==> !s.direction.Long?)
    then Run(cfg.fill, e, Shown(MarketTerms(Caller(2 * i), symbol, p.value.side.Opposite(), p.value.qty, true, Source.Signal),
                                BookFromCandle(candles[i], symbol, cfg.spreadBps)))
    else e
  }

  /** What a bar does after its exit, and with which orders known. */
  lemma AtEntryActs(cfg: BacktestConfig, symbol: Symbol, st: Strategy, candles: seq<Candle>)
    requires candles != [] && cfg.warmup <= |candles| - 1
    ensures var e, i, s := AtEntry(cfg, symbol, st, candles), |candles| - 1, st.evaluate(candles);
            && FromBars(cfg, symbol, e, candles, 2 * i + 1)
            && RunBars(cfg, symbol, st, candles)
               == if s.direction.Neutral? || symbol in e.account.positions.vals then e
                  else Entered(cfg, symbol, e, i, candles[i], s)
  {
    hide FromBars, AtSignal, RunBars, Entered, Shown, BookFromCandle, SubmitAndShow, Leads, Run, IsBarBook;
    var i, s := |candles| - 1, st.evaluate(candles);
    var e, b := AtSignal(cfg, symbol, st, candles), BookFromCandle(candles[i], symbol, cfg.spreadBps);
    AtSignalFromBars(cfg, symbol, st, candles);
    BarActs(cfg, symbol, st, candles);
    BarBook(cfg, symbol, candles, i);
    MoreOrders(cfg, symbol, e, candles, 2 * i);
    ExitLeads(cfg, symbol, e, i, s, b, candles);
  }

  lemma EnteredOrder(cfg: BacktestConfig, symbol: Symbol, e: Engine, i: nat, s: Signal, candles: seq<Candle>)
    requires cfg.warmup <= i < |candles| && FromBars(cfg, symbol, e, candles, 2 * i + 1)
    ensures var e', id, c := Entered(cfg, symbol, e, i, candles[i], s), Caller(2 * i + 1), candles[i];
            && id !in e.traces
            && (id in e'.traces <==>
                  s.suggestedStop.Some?
                  && var qty := EntryQty(cfg, symbol, e.account, c, s);
                     qty > 0.0
                     && Allowed(cfg.limits, EntryIntent(c, s, qty), EntryAccountState(symbol, e.account, c),
                                EntryMarketState(BookFromCandle(c, symbol, cfg.spreadBps))))
            && (id in e'.traces ==>
                  && e'.traces[id].initial.terms == EntryTerms(i, symbol, s, EntryQty(cfg, symbol, e.account, c, s))
                  && e'.traces[id].initial.status.Accepted? && e'.traces[id].submittedMs == c.tsMs)
  {
    hide FromBars, SubmitAndShow, BookFromCandle, EntryQty, Allowed;
    FromBarsSound(cfg, symbol, e, candles, 2 * i + 1);
    if s.suggestedStop.Some? {
      BarShows(cfg, symbol, e, EntryTerms(i, symbol, s, EntryQty(cfg, symbol, e.account, candles[i], s)), i, candles,
               2 * i + 1, Caller(2 * i + 1));
    }
  }

  /** What an entry of a flat account is sized and checked with: the balance is all there is. */
  lemma FlatEntry(cfg: BacktestConfig, symbol: Symbol, a: Account, c: Candle, s: Signal, qty: real)
    requires a.positions.keys == [] && s.suggestedStop.Some?
    ensures var risk := if s.suggestedRiskPct.Some? && s.suggestedRiskPct.value != 0.0 then s.suggestedRiskPct.value else 0.5;
            EntryQty(cfg, symbol, a, c, s)
            == Quantize(CappedPositionSize(cfg.limits, a.balance, c.close, s.suggestedStop.value, Some(risk)), 0.001)
    ensures EntryIntent(c, s, qty) == OrderIntent(qty, c.close, 3.0, s.suggestedStop, false)
    ensures EntryAccountState(symbol, a, c) == AccountRiskState(a.balance, a.balance, 0.0, 0.0, 0, 0.0, 0.0, 0, None)
    ensures EntryMarketState(BookFromCandle(c, symbol, cfg.spreadBps))
            == MarketRiskState(if c.close == 0.0 then 0.0 else cfg.spreadBps, 0.0, 1.0, 0.0, true)
  {
    hide CappedPositionSize, Quantize;
    BookQuotesTheClose(c, symbol, cfg.spreadBps);
  }

  /** From the warmup on, a bar submits no entry while a position is open after its exit. When the account
      is flat then, it submits one, and has it accepted, exactly when its signal has a direction and a stop,
      the size it risks on the balance, rounded to the step, is positive, and the risk gate allows it; the
      entry has the side, the stop and the target of the signal. */
  lemma EntersExactly(cfg: BacktestConfig, symbol: Symbol, st: Strategy, candles: seq<Candle>)
    requires candles != [] && cfg.warmup <= |candles| - 1
    ensures var e, e' := AtEntry(cfg, symbol, st, candles), RunBars(cfg, symbol, st, candles);
            var i, s, c, l := |candles| - 1, st.evaluate(candles), candles[|candles| - 1], cfg.limits;
            var id, balance := Caller(2 * i + 1), e.account.balance;
            && (symbol in e.account.positions.vals || s.direction.Neutral? || s.suggestedStop.None? ==> id !in e'.traces)
            && (e.account.positions.keys == [] && !s.direction.Neutral? && s.suggestedStop.Some? ==>
                  var risk := if s.suggestedRiskPct.Some? && s.suggestedRiskPct.value != 0.0 then s.suggestedRiskPct.value else 0.5;
                  var qty := Quantize(CappedPositionSize(l, balance, c.close, s.suggestedStop.value, Some(risk)), 0.001);
                  && (id in e'.traces <==>
                        qty > 0.0
                        && Allowed(l, OrderIntent(qty, c.close, 3.0, s.suggestedStop, false),
                                   AccountRiskState(balance, balance, 0.0, 0.0, 0, 0.0, 0.0, 0, None),
                                   MarketRiskState(if c.close == 0.0 then 0.0 else cfg.spreadBps, 0.0, 1.0, 0.0, true)))
                  && (id in e'.traces ==> EntryOf(e'.traces[id], symbol, s, c, qty)))
  {
    hide AtEntry, RunBars, Entered, FromBars, Allowed, CappedPositionSize, Quantize, EntryQty, EntryIntent, EntryAccountState,
         EntryMarketState, BookFromCandle;
    var e, i, s, c := AtEntry(cfg, symbol, st, candles), |candles| - 1, st.evaluate(candles), candles[|candles| - 1];
    AtEntryActs(cfg, symbol, st, candles);
    EnteredOrder(cfg, symbol, e, i, s, candles);
    assert symbol in e.account.positions.vals ==> symbol in e.account.positions.keys;
    if e.account.positions.keys == [] && s.suggestedStop.Some? {
      FlatEntry(cfg, symbol, e.account, c, s, EntryQty(cfg, symbol, e.account, c, s));
    }
  }

  /** The order began to work as an entry on the signal `s` of the candle `c`. */
  ghost predicate EntryOf(tr: Trace, symbol: Symbol, s: Signal, c: Candle, qty: real) {
    var t := tr.initial.terms;
    && tr.initial.status.Accepted? && t.kind.Market? && !t.reduceOnly && t.symbol == symbol
    && (t.side.Buy? <==> s.direction.Long?) && t.qty == qty && t.leverage == 3.0
    && t.attachStopLoss == s.suggestedStop && t.attachTakeProfit == s.suggestedTarget
    && tr.submittedMs == c.tsMs
  }

  // ---- Prefixes ------------------------------------------------------------------------------------

  lemma SubmitAndShowExtends(cfg: FillConfig, e: Engine, t: Terms, b: BookTop)
    ensures Extends(e, SubmitAndShow(cfg, e, t, b))
  {
    hide OnBook;
    BookExtends(cfg, Submit(e, NewOrder(t), b.tsMs), b);
  }

  lemma BarExtends(cfg: BacktestConfig, symbol: Symbol, st: Strategy, e: Engine, window: seq<Candle>)
    requires window != []
    ensures Extends(e, Bar(cfg, symbol, st, e, window))
  {
    var i := |window| - 1;
    var c := window[i];
    var b, s := BookFromCandle(c, symbol, cfg.spreadBps), st.evaluate(window);
    hide OnBook, SubmitAndShow, BookFromCandle, EntryQty, Allowed, Extends;
    BookExtends(cfg.fill, e, b);
    var e1 := OnBook(cfg.fill, e, b).engine;
    var pos := Get(e1.account.positions, symbol);
    var e2 := e1;
    if pos.Some? {
      e2 := SubmitAndShow(cfg.fill, e1, ExitTerms(i, symbol, pos.value), b);
      SubmitAndShowExtends(cfg.fill, e1, ExitTerms(i, symbol, pos.value), b);
      ExtendsTransitive(e, e1, e2);
    }
    if s.suggestedStop.Some? {
      EntryExtends(cfg, symbol, e, e1, i, c, s);
      EntryExtends(cfg, symbol, e, e2, i, c, s);
    }
  }

  lemma EntryExtends(cfg: BacktestConfig, symbol: Symbol, e: Engine, e': Engine, i: nat, c: Candle, s: Signal)
    requires Extends(e, e')
    ensures Extends(e, Entered(cfg, symbol, e', i, c, s))
  {
    hide SubmitAndShow, BookFromCandle, EntryQty, Allowed, Extends;
    if s.suggestedStop.Some? {
      var b := BookFromCandle(c, symbol, cfg.spreadBps);
      var t := EntryTerms(i, symbol, s, EntryQty(cfg, symbol, e'.account, c, s));
      SubmitAndShowExtends(cfg.fill, e', t, b);
      ExtendsTransitive(e, e', SubmitAndShow(cfg.fill, e', t, b));
    }
  }

  /** Causality: what a backtest has logged and closed after the first `k` candles depends on
      those candles alone, and is a prefix of what it has after any more of them. */
  lemma {:induction false} BacktestOnPrefixIsPrefix(cfg: BacktestConfig, symbol: Symbol, st: Strategy, candles: seq<Candle>, k: nat)
    requires k <= |candles|
    ensures Extends(RunBars(cfg, symbol, st, candles[..k]), RunBars(cfg, symbol, st, candles))
    decreases |candles|
  {
    hide Bar, Extends;
    if k == |candles| {
      assert candles[..k] == candles;
      ExtendsItself(RunBars(cfg, symbol, st, candles));
    } else {
      var init := candles[..|candles| - 1];
      assert init[..k] == candles[..k];
      BacktestOnPrefixIsPrefix(cfg, symbol, st, init, k);
      BarExtends(cfg, symbol, st, RunBars(cfg, symbol, st, init), candles);
      ExtendsTransitive(RunBars(cfg, symbol, st, candles[..k]), RunBars(cfg, symbol, st, init), RunBars(cfg, symbol, st, candles));
    }
  }

  lemma ExtendsItself(e: Engine)
    ensures Extends(e, e)
  {
  }

  // ---- The loops --------------------------------------------------------------------------------

  lemma NextIdsAreFree(cfg: BacktestConfig, symbol: Symbol, e: Engine, candles: seq<Candle>, n: nat)
    requires FromBars(cfg, symbol, e, candles, n)
    ensures Caller(n) !in e.pending.vals && Caller(n + 1) !in e.pending.vals
  {
    assert forall id :: id in e.pending.vals ==> id in e.traces by { SoundTracks(cfg.fill, e); }
  }

  /** Submits a new order of this bar and lets it meet the bar's book. */
  method SubmitThenShow(engine: PaperEngine, t: Terms, book: BookTop)
    requires engine.Valid() && t.id.Caller? && t.id !in engine.model.pending.vals
    modifies engine, engine.account, engine.orders
    ensures engine.Valid() && fresh(engine.orders - old(engine.orders))
    ensures engine.model == SubmitAndShow(engine.sim.config, old(engine.model), t, book)
  {
    hide Submit, OnBook;
    var order := new OrderObject(t);
    assert t.id !in engine.pending.vals;
    engine.Submit(order, book.tsMs);
    var fills, raised := engine.OnBook(book);
  }

  /** Sizes the entry, asks the risk gate, and submits it. */
  method EnterOnSignal(engine: PaperEngine, symbol: Symbol, cfg: BacktestConfig, i: nat, c: Candle, sig: Signal)
    requires engine.Valid() && engine.sim.config == cfg.fill && Caller(2 * i + 1) !in engine.model.pending.vals
    modifies engine, engine.account, engine.orders
    ensures engine.Valid() && fresh(engine.orders - old(engine.orders))
    ensures engine.model == Entered(cfg, symbol, old(engine.model), i, c, sig)
  {
    hide OnBook, SubmitAndShow, Equity, Exposure, CappedPositionSize, Quantize, Allowed, BookFromCandle;
    var book := BookFromCandle(c, symbol, cfg.spreadBps);
    var marks := map[symbol := c.close];
    if sig.suggestedStop.None? { return; }
    var equity := engine.account.EquityAt(marks);
    var qty := Quantize(CappedPositionSize(cfg.limits, equity, c.close, sig.suggestedStop.value,
                                           Some(OrDefault(sig.suggestedRiskPct, 0.5))), 0.001);
    if qty <= 0.0 { return; }
    var exposure := engine.account.ExposureAt(marks);
    var intent := OrderIntent(qty, c.close, 3.0, sig.suggestedStop, false);
    var acct := AccountRiskState(equity, equity, 0.0, 0.0, |engine.account.positions.keys|, exposure, 0.0, 0, None);
    var mkt := MarketRiskState(book.SpreadBps(), 0.0, 1.0, 0.0, true);
    var allowed, reasons := Check(cfg.limits, intent, acct, mkt);
    if !allowed { return; }
    SubmitThenShow(engine, EntryTerms(i, symbol, sig, qty), book);
  }

  /** Exits a position against the signal, and enters when flat. */
  method ActOnSignal(engine: PaperEngine, symbol: Symbol, cfg: BacktestConfig, ghost window: seq<Candle>, i: nat, c: Candle, sig: Signal)
    requires engine.Valid() && engine.sim.config == cfg.fill && |window| == i + 1 && window[i] == c
    requires cfg.warmup <= i && FromBars(cfg, symbol, engine.model, window, 2 * i)
    modifies engine, engine.account, engine.orders
    ensures engine.Valid() && fresh(engine.orders - old(engine.orders))
    ensures engine.model == Acted(cfg, symbol, old(engine.model), i, c, sig)
  {
    hide OnBook, SubmitAndShow, FromBars, Entered;
    var book := BookFromCandle(c, symbol, cfg.spreadBps);
    assert book.tsMs == c.tsMs;
    hide BookFromCandle;
    NextIdsAreFree(cfg, symbol, engine.model, window, 2 * i);
    var pos := Get(engine.account.positions, symbol);
    if sig.direction.Neutral? { return; }
    var want := Wanted(sig.direction);
    ghost var model := engine.model;
    if pos.Some? && pos.value.side != want {
      var t := ExitTerms(i, symbol, pos.value);
      SubmitThenShow(engine, t, book);
      BarBook(cfg, symbol, window, i);
      SubmitAndShowFromBars(cfg, symbol, model, t, book, window, 2 * i);
      NextIdsAreFree(cfg, symbol, engine.model, window, 2 * i + 1);
      pos := Get(engine.account.positions, symbol);
    }
    if pos.Some? { return; }
    EnterOnSignal(engine, symbol, cfg, i, c, sig);
  }

  /** The body of the bar loop. */
  method PlayBar(engine: PaperEngine, symbol: Symbol, st: Strategy, cfg: BacktestConfig, window: seq<Candle>)
    requires engine.Valid() && engine.sim.config == cfg.fill && window != []
    requires FromBars(cfg, symbol, engine.model, window[..|window| - 1], 2 * (|window| - 1))
    modifies engine, engine.account, engine.orders
    ensures engine.Valid() && fresh(engine.orders - old(engine.orders))
    ensures engine.model == Bar(cfg, symbol, st, old(engine.model), window)
  {
    hide OnBook, FromBars, Acted, BookFromCandle;
    var i := |window| - 1;
    var c := window[i];
    var book := BookFromCandle(c, symbol, cfg.spreadBps);
    assert window[..i] + [c] == window;
    MoreCandles(cfg, symbol, engine.model, window[..i], c, 2 * i);
    if i >= cfg.warmup {
      BarBook(cfg, symbol, window, i);
      BookFromBars(cfg, symbol, engine.model, book, window, 2 * i);
    }
    var fills, raised := engine.OnBook(book);
    if i < cfg.warmup { return; }
    var sig := st.evaluate(window);
    ActOnSignal(engine, symbol, cfg, window, i, c, sig);
  }

  /** Drives one engine over all the candles. */
  method RunBacktest(symbol: Symbol, candles: seq<Candle>, st: Strategy, cfg: BacktestConfig) returns (account: PaperAccount)
    ensures fresh(account) && account.View() == RunBars(cfg, symbol, st, candles).account
  {
    hide Bar, FromBars, Leads, BacktestActions;
    account := new PaperAccount(cfg.startingBalance);
    var engine := new PaperEngine(account, cfg.fill);
    for i := 0 to |candles|
      invariant engine.Valid() && fresh(engine.orders)
      invariant engine.model == RunBars(cfg, symbol, st, candles[..i])
    {
      var window := candles[..i + 1];
      assert window[..i] == candles[..i];
      BarsLead(cfg, symbol, st, candles[..i]);
      PlayBar(engine, symbol, st, cfg, window);
    }
    assert candles[..|candles|] == candles;
  }

  // ---- Walk-forward -----------------------------------------------------------------------------

  /** A fold of backend/app/services/backtest/walkforward.py: the times of the first and the last
      bar it trades in, and the account its backtest ends with. */
  datatype Fold = Fold(index: nat, startMs: int, endMs: int, account: Account)

  /** Python's `s[:end]` and the index that `s[i]` reads: negative numbers count from the end. */
  function Upto<T>(s: seq<T>, end: int): seq<T> {
    if end > |s| then s else if end >= 0 then s[..end] else if |s| + end > 0 then s[..|s| + end] else []
  }

  function IndexOf(n: nat, i: int): int { if i < 0 then n + i else i }

  predicate EnoughHistory(n: nat, folds: int, warmup: int) { folds >= 2 && n - warmup >= folds * 30 }

  function FoldStart(n: nat, folds: int, warmup: int, i: nat): int
    requires folds > 0
  {
    warmup + i * ((n - warmup) / folds)
  }

  function FoldEnd(n: nat, folds: int, warmup: int, i: nat): int
    requires folds > 0
  {
    if i < folds - 1 then warmup + (i + 1) * ((n - warmup) / folds) else n
  }

  /** The folds cut the history after the warmup into consecutive windows of at least thirty
      bars: the first begins at the warmup, each next one where the one before ends, the last
      ends with the history, and all but the last have one length, as great as it can be. */
  lemma FoldsPartition(n: nat, folds: int, warmup: int, i: nat)
    requires EnoughHistory(n, folds, warmup) && i < folds
    ensures FoldStart(n, folds, warmup, 0) == warmup
    ensures i + 1 < folds ==> FoldStart(n, folds, warmup, i + 1) == FoldEnd(n, folds, warmup, i)
    ensures FoldEnd(n, folds, warmup, folds - 1) == n
    ensures i < folds - 1 ==>
              var length := FoldEnd(n, folds, warmup, i) - FoldStart(n, folds, warmup, i);
              length * folds <= n - warmup < (length + 1) * folds
    ensures warmup <= FoldStart(n, folds, warmup, i) && FoldStart(n, folds, warmup, i) + 30 <= FoldEnd(n, folds, warmup, i) <= n
  {
    var usable := n - warmup;
    var w := usable / folds;
    assert w >= 30 by { DivAtLeast(usable, folds, 30); }
    assert folds * w <= usable;
    ProductMonotone(i + 1, folds, w);
    assert (i + 1) * w == i * w + w;
    assert w * folds <= usable < (w + 1) * folds;
  }

  lemma DivAtLeast(x: int, d: int, k: int)
    requires d > 0 && x >= d * k
    ensures x / d >= k
  {
    if x / d < k { ProductMonotone(x / d + 1, k, d); }
  }

  lemma ProductMonotone(a: int, b: int, k: int)
    requires a <= b && k >= 0
    ensures a * k <= b * k
  {
  }

  /** What fold `i` must be: the backtest on the history up to its end, with the warmup at its start. */
  ghost predicate IsFold(f: Fold, i: nat, symbol: Symbol, candles: seq<Candle>, st: Strategy, folds: int, warmup: int, cfg: BacktestConfig)
    requires EnoughHistory(|candles|, folds, warmup) && i < folds && warmup >= -|candles|
  {
    FoldsPartition(|candles|, folds, warmup, i);
    var n, start, end := |candles|, FoldStart(|candles|, folds, warmup, i), FoldEnd(|candles|, folds, warmup, i);
    && f.index == i
    && f.startMs == candles[IndexOf(n, start)].tsMs && f.endMs == candles[IndexOf(n, end - 1)].tsMs
    && f.account == RunBars(cfg.(warmup := start), symbol, st, Upto(candles, end)).account
  }

  /** A fold trades inside its own window only: whatever a fill of its backtest belongs to, a signal
      order or a protection, it is priced from a bar of the window and carries its time. A window of
      a negative warmup ends, as in Python, where counting from the end of the history puts it. */
  lemma FoldTradesInItsWindow(i: nat, symbol: Symbol, candles: seq<Candle>, st: Strategy, folds: int, warmup: int,
                              cfg: BacktestConfig, id: OrderId, f: Fill)
    requires EnoughHistory(|candles|, folds, warmup) && i < folds
    requires var start, history := FoldStart(|candles|, folds, warmup, i), Upto(candles, FoldEnd(|candles|, folds, warmup, i));
             f in FillsOf(RunBars(cfg.(warmup := start), symbol, st, history).log, id)
    ensures var start, end := FoldStart(|candles|, folds, warmup, i), FoldEnd(|candles|, folds, warmup, i);
            var history := Upto(candles, end);
            var e := RunBars(cfg.(warmup := start), symbol, st, history);
            && id in e.traces
            && exists j: nat :: j < |history| && PricedByBar(cfg, symbol, history, e, id, f, j)
                 && start <= j && (warmup >= 0 ==> j < end) && f.tsMs == candles[j].tsMs
  {
    hide RunBars, PricedByBar, FillsOf, FoldStart, FoldEnd;
    FoldsPartition(|candles|, folds, warmup, i);
    var start, end := FoldStart(|candles|, folds, warmup, i), FoldEnd(|candles|, folds, warmup, i);
    var history := Upto(candles, end);
    var own := cfg.(warmup := start);
    var e := RunBars(own, symbol, st, history);
    BacktestFillsAreFromBars(own, symbol, st, history, id, f);
    var j: nat :| j < |history| && PricedByBar(own, symbol, history, e, id, f, j) && start <= j && f.tsMs == history[j].tsMs;
    WarmupPricesNothing(cfg, start, symbol, history, e, id, f, j);
  }

  lemma WarmupPricesNothing(cfg: BacktestConfig, start: int, symbol: Symbol, candles: seq<Candle>, e: Engine, id: OrderId,
                            f: Fill, j: nat)
    requires id in e.traces && j < |candles|
    ensures PricedByBar(cfg.(warmup := start), symbol, candles, e, id, f, j) == PricedByBar(cfg, symbol, candles, e, id, f, j)
  {
  }

  method RunFold(i: nat, symbol: Symbol, candles: seq<Candle>, st: Strategy, folds: int, warmup: int, window: int, cfg: BacktestConfig)
    returns (fold: Option<Fold>)
    requires EnoughHistory(|candles|, folds, warmup) && i < folds && window == (|candles| - warmup) / folds
    requires i > 0 ==> warmup >= -|candles|
    ensures fold.None? <==> warmup < -|candles|
    ensures fold.Some? ==> IsFold(fold.value, i, symbol, candles, st, folds, warmup, cfg)
  {
    hide RunBars;
    var n := |candles|;
    FoldsPartition(n, folds, warmup, i);
    var foldWarmup := warmup + i * window;
    var end := if i < folds - 1 then warmup + (i + 1) * window else n;
    var account := RunBacktest(symbol, Upto(candles, end), st, cfg.(warmup := foldWarmup));
    if IndexOf(n, foldWarmup) < 0 || IndexOf(n, end - 1) < 0 { return None; }
    fold := Some(Fold(i, candles[IndexOf(n, foldWarmup)].tsMs, candles[IndexOf(n, end - 1)].tsMs, account.View()));
  }

  /** A history too short is refused; a start before the history is an index out of range. */
  datatype WalkOutcome = Refused | IndexError | Folds(folds: seq<Fold>)

  /** Runs every fold as a backtest on the history up to its end, with everything before its
      start as warmup. */
  method WalkForward(symbol: Symbol, candles: seq<Candle>, st: Strategy, folds: int, warmup: int, cfg: BacktestConfig)
    returns (r: WalkOutcome)
    ensures r.Refused? <==> !EnoughHistory(|candles|, folds, warmup)
    ensures r.IndexError? <==> EnoughHistory(|candles|, folds, warmup) && warmup < -|candles|
    ensures r.Folds? ==> |r.folds| == folds
                         && forall i :: 0 <= i < folds ==> IsFold(r.folds[i], i, symbol, candles, st, folds, warmup, cfg)
  {
    var usable := |candles| - warmup;
    if folds < 2 || usable < folds * 30 { return Refused; }
    hide IsFold;
    var results: seq<Fold> := [];
    var window := usable / folds;
    for i := 0 to folds
      invariant |results| == i && (i > 0 ==> warmup >= -|candles|)
      invariant forall k :: 0 <= k < i ==> IsFold(results[k], k, symbol, candles, st, folds, warmup, cfg)
    {
      var fold := RunFold(i, symbol, candles, st, folds, warmup, window, cfg);
      if fold.None? { return IndexError; }
      results := results + [fold.value];
    }
    return Folds(results);
  }
}
