/** Risk-based sizing, the risk gate and the autotrade planner: backend/app/services/risk/limits.py
    and backend/app/services/autotrade.py. */
module Risk {
  import opened Prelude
  import opened Models

  // ---- Decimal quantization -----------------------------------------------------------

  /** The nearest integer; a tie goes to the even one. */
  function RoundHalfEven(x: real): int {
    var f := x.Floor;
    var d := x - f as real;
    if d < 0.5 || (d == 0.5 && f % 2 == 0) then f else f + 1
  }

  /** The result is the one integer less than a half away, or the even one of two at a half. */
  lemma RoundsToNearestTiesToEven(x: real, n: int)
    ensures RoundHalfEven(x) == n <==> Abs(x - n as real) < 0.5 || (Abs(x - n as real) == 0.5 && n % 2 == 0)
  {
    var f := x.Floor;
    if n < f || n > f + 1 {
      assert Abs(x - n as real) >= 1.0;
    }
  }

  /** `Decimal.quantize`, in the default rounding mode; `step` is the power of ten that the
      exponent of its argument stands for. */
  function Quantize(x: real, step: real): real
    requires step > 0.0
  {
    RoundHalfEven(x / step) as real * step
  }

  /** Quantizing moves a value by at most half a step, and may move it up. */
  lemma QuantizeNear(x: real, step: real)
    requires step > 0.0
    ensures Abs(Quantize(x, step) - x) <= step / 2.0
  {
    var y := x / step;
    var n := RoundHalfEven(y) as real;
    DivCancels(x, step);
    assert -0.5 <= n - y <= 0.5;
    MulMonotone(n - y, 0.5, step);
    MulMonotone(-0.5, n - y, step);
    assert (n - y) * step == n * step - x;
  }

  lemma QuantizeOfMultiple(n: int, step: real)
    requires step > 0.0
    ensures Quantize(n as real * step, step) == n as real * step
  {
    assert (n as real * step) / step == n as real;
  }

  // ---- The risk gate --------------------------------------------------------------------

  datatype RiskLimits = RiskLimits(
    maxRiskPerTradePct: real, maxDailyLossPct: real, maxWeeklyLossPct: real, maxDrawdownPct: real,
    maxOpenPositions: int, maxLeverage: real, maxSymbolExposurePct: real, maxTotalNotionalPct: real,
    maxConsecutiveLosses: int, cooldownMinutesAfterStreak: int, maxSpreadBps: real, maxDataAgeS: real,
    maxAtrPct: real, fundingAbsLimit: real)

  datatype AccountRiskState = AccountRiskState(
    equity: real, peakEquity: real, dayPnl: real, weekPnl: real, openPositions: int, totalNotional: real,
    symbolNotional: real, consecutiveLosses: int, minutesSinceLastLoss: Option<int>)

  datatype MarketRiskState = MarketRiskState(
    spreadBps: real, dataAgeS: real, atrPct: real, fundingRate: real, connectivityOk: bool)

  datatype OrderIntent = OrderIntent(
    qty: real, price: real, leverage: real, stopPrice: Option<real>, reduceOnly: bool)
  {
    function Notional(): real { qty * price }
  }

  datatype Reason =
    | Connectivity | StaleData | Spread | Volatility | FundingRate | DailyLoss | WeeklyLoss | Drawdown
    | OpenPositions | Leverage | SymbolExposure | TotalNotional | RiskAtStop | NoStop | Cooldown

  /** The equity percentages are taken of; a non-positive equity counts as one. */
  function EquityBase(acct: AccountRiskState): real { if acct.equity > 0.0 then acct.equity else 1.0 }

  /** The intent violates the limit that `r` names. */
  predicate Violates(l: RiskLimits, i: OrderIntent, acct: AccountRiskState, mkt: MarketRiskState, r: Reason) {
    var eq := EquityBase(acct);
    match r
    case Connectivity => !mkt.connectivityOk
    case StaleData => mkt.dataAgeS > l.maxDataAgeS
    case Spread => mkt.spreadBps > l.maxSpreadBps
    case Volatility => mkt.atrPct > l.maxAtrPct
    case FundingRate => Abs(mkt.fundingRate) > l.fundingAbsLimit
    case DailyLoss => acct.dayPnl < 0.0 && -acct.dayPnl >= eq * l.maxDailyLossPct / 100.0
    case WeeklyLoss => acct.weekPnl < 0.0 && -acct.weekPnl >= eq * l.maxWeeklyLossPct / 100.0
    case Drawdown => acct.peakEquity > 0.0 && acct.peakEquity - acct.equity >= acct.peakEquity * l.maxDrawdownPct / 100.0
    case OpenPositions => acct.openPositions >= l.maxOpenPositions && acct.symbolNotional == 0.0
    case Leverage => i.leverage > l.maxLeverage
    case SymbolExposure => acct.symbolNotional + i.Notional() > eq * l.maxSymbolExposurePct / 100.0
    case TotalNotional => acct.totalNotional + i.Notional() > eq * l.maxTotalNotionalPct / 100.0
    case RiskAtStop => i.stopPrice.Some? && Abs(i.price - i.stopPrice.value) * i.qty > eq * l.maxRiskPerTradePct / 100.0
    case NoStop => i.stopPrice.None?
    case Cooldown =>
      acct.consecutiveLosses >= l.maxConsecutiveLosses
      && (acct.minutesSinceLastLoss.None? || acct.minutesSinceLastLoss.value < l.cooldownMinutesAfterStreak)
  }

  /** The position of each test in `check`. */
  function Place(r: Reason): nat {
    match r
    case Connectivity => 0
    case StaleData => 1
    case Spread => 2
    case Volatility => 3
    case FundingRate => 4
    case DailyLoss => 5
    case WeeklyLoss => 6
    case Drawdown => 7
    case OpenPositions => 8
    case Leverage => 9
    case SymbolExposure => 10
    case TotalNotional => 11
    case RiskAtStop => 12
    case NoStop => 13
    case Cooldown => 14
  }

  /** The reasons found are the violated limits among the first `k` tests, in their order. */
  ghost predicate FoundBefore(k: nat, reasons: seq<Reason>, l: RiskLimits, i: OrderIntent, acct: AccountRiskState, mkt: MarketRiskState) {
    && (forall r :: r in reasons <==> Place(r) < k && Violates(l, i, acct, mkt, r))
    && (forall x, y :: 0 <= x < y < |reasons| ==> Place(reasons[x]) < Place(reasons[y]))
  }

  lemma FoundNext(k: nat, reasons: seq<Reason>, r: Reason, l: RiskLimits, i: OrderIntent, acct: AccountRiskState, mkt: MarketRiskState)
    requires FoundBefore(k, reasons, l, i, acct, mkt) && Place(r) == k
    ensures Violates(l, i, acct, mkt, r) ==> FoundBefore(k + 1, reasons + [r], l, i, acct, mkt)
    ensures !Violates(l, i, acct, mkt, r) ==> FoundBefore(k + 1, reasons, l, i, acct, mkt)
  {
    hide Violates;
    assert forall q :: Place(q) < k + 1 ==> Place(q) < k || q == r;
    if Violates(l, i, acct, mkt, r) {
      assert forall q :: q in reasons ==> Place(q) < k;
    }
  }

  /** The tests of the market's condition. */
  method CheckMarket(l: RiskLimits, i: OrderIntent, acct: AccountRiskState, mkt: MarketRiskState, found: seq<Reason>)
    returns (reasons: seq<Reason>)
    requires FoundBefore(0, found, l, i, acct, mkt)
    ensures FoundBefore(5, reasons, l, i, acct, mkt)
  {
    hide FoundBefore;
    var eq := EquityBase(acct);
    reasons := found;
    FoundNext(0, reasons, Connectivity, l, i, acct, mkt);
    if !mkt.connectivityOk { reasons := reasons + [Connectivity]; }
    FoundNext(1, reasons, StaleData, l, i, acct, mkt);
    if mkt.dataAgeS > l.maxDataAgeS { reasons := reasons + [StaleData]; }
    FoundNext(2, reasons, Spread, l, i, acct, mkt);
    if mkt.spreadBps > l.maxSpreadBps { reasons := reasons + [Spread]; }
    FoundNext(3, reasons, Volatility, l, i, acct, mkt);
    if mkt.atrPct > l.maxAtrPct { reasons := reasons + [Volatility]; }
    FoundNext(4, reasons, FundingRate, l, i, acct, mkt);
    if Abs(mkt.fundingRate) > l.fundingAbsLimit { reasons := reasons + [FundingRate]; }
  }

  /** The tests of the account's losses and room. */
  method CheckAccount(l: RiskLimits, i: OrderIntent, acct: AccountRiskState, mkt: MarketRiskState, found: seq<Reason>)
    returns (reasons: seq<Reason>)
    requires FoundBefore(5, found, l, i, acct, mkt)
    ensures FoundBefore(10, reasons, l, i, acct, mkt)
  {
    hide FoundBefore;
    var eq := EquityBase(acct);
    reasons := found;
    FoundNext(5, reasons, DailyLoss, l, i, acct, mkt);
    if acct.dayPnl < 0.0 && -acct.dayPnl >= eq * l.maxDailyLossPct / 100.0 { reasons := reasons + [DailyLoss]; }
    FoundNext(6, reasons, WeeklyLoss, l, i, acct, mkt);
    if acct.weekPnl < 0.0 && -acct.weekPnl >= eq * l.maxWeeklyLossPct / 100.0 { reasons := reasons + [WeeklyLoss]; }
    var drawdown := acct.peakEquity - acct.equity;
    FoundNext(7, reasons, Drawdown, l, i, acct, mkt);
    if acct.peakEquity > 0.0 && drawdown >= acct.peakEquity * l.maxDrawdownPct / 100.0 { reasons := reasons + [Drawdown]; }
    FoundNext(8, reasons, OpenPositions, l, i, acct, mkt);
    if acct.openPositions >= l.maxOpenPositions && acct.symbolNotional == 0.0 { reasons := reasons + [OpenPositions]; }
    FoundNext(9, reasons, Leverage, l, i, acct, mkt);
    if i.leverage > l.maxLeverage { reasons := reasons + [Leverage]; }
  }

  /** The tests of the intent's size and stop, and the cooldown. */
  method CheckSize(l: RiskLimits, i: OrderIntent, acct: AccountRiskState, mkt: MarketRiskState, found: seq<Reason>)
    returns (reasons: seq<Reason>)
    requires FoundBefore(10, found, l, i, acct, mkt)
    ensures FoundBefore(15, reasons, l, i, acct, mkt)
  {
    hide FoundBefore;
    var eq := EquityBase(acct);
    reasons := found;
    FoundNext(10, reasons, SymbolExposure, l, i, acct, mkt);
    if acct.symbolNotional + i.Notional() > eq * l.maxSymbolExposurePct / 100.0 { reasons := reasons + [SymbolExposure]; }
    FoundNext(11, reasons, TotalNotional, l, i, acct, mkt);
    if acct.totalNotional + i.Notional() > eq * l.maxTotalNotionalPct / 100.0 { reasons := reasons + [TotalNotional]; }
    FoundNext(12, reasons, RiskAtStop, l, i, acct, mkt);
    if i.stopPrice.Some? {
      var riskAmount := Abs(i.price - i.stopPrice.value) * i.qty;
      if riskAmount > eq * l.maxRiskPerTradePct / 100.0 { reasons := reasons + [RiskAtStop]; }
    }
    FoundNext(13, reasons, NoStop, l, i, acct, mkt);
    if i.stopPrice.None? { reasons := reasons + [NoStop]; }
    FoundNext(14, reasons, Cooldown, l, i, acct, mkt);
    if acct.consecutiveLosses >= l.maxConsecutiveLosses {
      var since := acct.minutesSinceLastLoss;
      if since.None? || since.value < l.cooldownMinutesAfterStreak { reasons := reasons + [Cooldown]; }
    }
  }

  /** `check`: every violated limit, in the order the limits are tested; a reduce-only exit is
      always allowed. */
  method Check(l: RiskLimits, i: OrderIntent, acct: AccountRiskState, mkt: MarketRiskState)
    returns (allowed: bool, reasons: seq<Reason>)
    ensures allowed <==> reasons == []
    ensures i.reduceOnly ==> allowed
    ensures !i.reduceOnly ==> FoundBefore(15, reasons, l, i, acct, mkt)
    ensures allowed <==> Allowed(l, i, acct, mkt)
  {
    if i.reduceOnly { return true, []; }
    NothingFound(l, i, acct, mkt);
    hide FoundBefore, Violates;
    reasons := CheckMarket(l, i, acct, mkt, []);
    reasons := CheckAccount(l, i, acct, mkt, reasons);
    reasons := CheckSize(l, i, acct, mkt, reasons);
    allowed := reasons == [];
    AllFound(reasons, l, i, acct, mkt);
  }

  lemma NothingFound(l: RiskLimits, i: OrderIntent, acct: AccountRiskState, mkt: MarketRiskState)
    ensures FoundBefore(0, [], l, i, acct, mkt)
  {
  }

  lemma AllFound(reasons: seq<Reason>, l: RiskLimits, i: OrderIntent, acct: AccountRiskState, mkt: MarketRiskState)
    requires FoundBefore(15, reasons, l, i, acct, mkt) && !i.reduceOnly
    ensures reasons == [] <==> Allowed(l, i, acct, mkt)
  {
    hide Violates;
    if reasons != [] { assert reasons[0] in reasons; }
  }

  ghost predicate Allowed(l: RiskLimits, i: OrderIntent, acct: AccountRiskState, mkt: MarketRiskState) {
    i.reduceOnly || forall r :: !Violates(l, i, acct, mkt, r)
  }

  /** The data are good, the losses below their percentages of the equity, and there is room: for the
      market, and for the account. */
  ghost predicate FitToTrade(l: RiskLimits, acct: AccountRiskState, mkt: MarketRiskState) {
    var eq := if acct.equity > 0.0 then acct.equity else 1.0;
    && mkt.connectivityOk && mkt.dataAgeS <= l.maxDataAgeS && mkt.spreadBps <= l.maxSpreadBps
    && mkt.atrPct <= l.maxAtrPct && -l.fundingAbsLimit <= mkt.fundingRate <= l.fundingAbsLimit
    && (acct.dayPnl >= 0.0 || -acct.dayPnl * 100.0 < eq * l.maxDailyLossPct)
    && (acct.weekPnl >= 0.0 || -acct.weekPnl * 100.0 < eq * l.maxWeeklyLossPct)
    && (acct.peakEquity <= 0.0 || (acct.peakEquity - acct.equity) * 100.0 < acct.peakEquity * l.maxDrawdownPct)
    && (acct.openPositions < l.maxOpenPositions || acct.symbolNotional != 0.0)
    && (acct.consecutiveLosses < l.maxConsecutiveLosses
        || (acct.minutesSinceLastLoss.Some? && acct.minutesSinceLastLoss.value >= l.cooldownMinutesAfterStreak))
  }

  /** The leverage and both exposures are within their limits, and there is a stop that risks no more than
      permitted. */
  ghost predicate FitInSize(l: RiskLimits, i: OrderIntent, acct: AccountRiskState) {
    var eq := if acct.equity > 0.0 then acct.equity else 1.0;
    && i.leverage <= l.maxLeverage
    && (acct.symbolNotional + i.qty * i.price) * 100.0 <= eq * l.maxSymbolExposurePct
    && (acct.totalNotional + i.qty * i.price) * 100.0 <= eq * l.maxTotalNotionalPct
    && i.stopPrice.Some?
    && var dist := if i.price > i.stopPrice.value then i.price - i.stopPrice.value else i.stopPrice.value - i.price;
       dist * i.qty * 100.0 <= eq * l.maxRiskPerTradePct
  }

  lemma ViolatesSize(l: RiskLimits, i: OrderIntent, acct: AccountRiskState, mkt: MarketRiskState)
    ensures FitInSize(l, i, acct) <==>
              && !Violates(l, i, acct, mkt, Leverage) && !Violates(l, i, acct, mkt, SymbolExposure)
              && !Violates(l, i, acct, mkt, TotalNotional) && !Violates(l, i, acct, mkt, RiskAtStop)
              && !Violates(l, i, acct, mkt, NoStop)
  {
  }

  lemma ViolatesFitness(l: RiskLimits, i: OrderIntent, acct: AccountRiskState, mkt: MarketRiskState)
    ensures FitToTrade(l, acct, mkt) <==>
              && !Violates(l, i, acct, mkt, Connectivity) && !Violates(l, i, acct, mkt, StaleData)
              && !Violates(l, i, acct, mkt, Spread) && !Violates(l, i, acct, mkt, Volatility)
              && !Violates(l, i, acct, mkt, FundingRate) && !Violates(l, i, acct, mkt, DailyLoss)
              && !Violates(l, i, acct, mkt, WeeklyLoss) && !Violates(l, i, acct, mkt, Drawdown)
              && !Violates(l, i, acct, mkt, OpenPositions) && !Violates(l, i, acct, mkt, Cooldown)
  {
  }

  /** The whole gate: an intent is allowed if and only if it only reduces, or the account and the market
      are fit to trade and the intent fits in size. */
  lemma AllowedExactly(l: RiskLimits, i: OrderIntent, acct: AccountRiskState, mkt: MarketRiskState)
    ensures Allowed(l, i, acct, mkt) <==> i.reduceOnly || (FitToTrade(l, acct, mkt) && FitInSize(l, i, acct))
  {
    hide Violates, FitToTrade, FitInSize;
    ViolatesFitness(l, i, acct, mkt);
    ViolatesSize(l, i, acct, mkt);
    if FitToTrade(l, acct, mkt) && FitInSize(l, i, acct) {
      forall r
        ensures !Violates(l, i, acct, mkt, r)
      {
        match r {
          case Connectivity | StaleData | Spread | Volatility | FundingRate | DailyLoss | WeeklyLoss | Drawdown =>
          case OpenPositions | Leverage | SymbolExposure | TotalNotional | RiskAtStop | NoStop | Cooldown =>
        }
      }
    }
  }

  /** Shrinking the quantity of an allowed intent keeps it allowed. */
  lemma CheckIsMonotone(l: RiskLimits, i: OrderIntent, acct: AccountRiskState, mkt: MarketRiskState, qty: real)
    requires i.price >= 0.0 && qty <= i.qty && Allowed(l, i, acct, mkt)
    ensures Allowed(l, i.(qty := qty), acct, mkt)
  {
    MulMonotone(qty, i.qty, i.price);
    if i.stopPrice.Some? {
      MulMonotone(qty, i.qty, Abs(i.price - i.stopPrice.value));
    }
    forall r | !i.reduceOnly
      ensures !Violates(l, i.(qty := qty), acct, mkt, r)
    {
      assert !Violates(l, i, acct, mkt, r);
    }
  }

  // ---- Sizing ------------------------------------------------------------------------------

  /** `risk_pct or default`: a missing or zero percentage falls back to the default. */
  function OrDefault(x: Option<real>, default: real): real {
    if x.Some? && x.value != 0.0 then x.value else default
  }

  function PositionSize(l: RiskLimits, equity: real, entry: real, stop: real, riskPct: Option<real>): real {
    var dist := Abs(entry - stop);
    if dist == 0.0 then 0.0 else equity * OrDefault(riskPct, l.maxRiskPerTradePct) / 100.0 / dist
  }

  const HEADROOM := 0.95

  function ExposureCap(l: RiskLimits, equity: real, entry: real): real
    requires entry > 0.0
  {
    equity * l.maxSymbolExposurePct / 100.0 * HEADROOM / entry
  }

  function CappedPositionSize(l: RiskLimits, equity: real, entry: real, stop: real, riskPct: Option<real>): real {
    var qty := PositionSize(l, equity, entry, stop, riskPct);
    if entry > 0.0 then Min(qty, ExposureCap(l, equity, entry)) else qty
  }

  /** The size risks exactly the percentage of equity, or less when the exposure cap binds. */
  lemma SizeRisksAtMost(l: RiskLimits, equity: real, entry: real, stop: real, riskPct: real)
    requires equity > 0.0 && entry > 0.0 && stop != entry && riskPct > 0.0
    ensures PositionSize(l, equity, entry, stop, Some(riskPct)) * Abs(entry - stop) == equity * riskPct / 100.0
    ensures CappedPositionSize(l, equity, entry, stop, Some(riskPct)) * Abs(entry - stop) <= equity * riskPct / 100.0
    ensures CappedPositionSize(l, equity, entry, stop, Some(riskPct)) * entry
            <= equity * l.maxSymbolExposurePct / 100.0 * HEADROOM
  {
    var dist := Abs(entry - stop);
    var size, cap := PositionSize(l, equity, entry, stop, Some(riskPct)), ExposureCap(l, equity, entry);
    DivCancels(equity * riskPct / 100.0, dist);
    DivCancels(equity * l.maxSymbolExposurePct / 100.0 * HEADROOM, entry);
    MulMonotone(Min(size, cap), size, dist);
    MulMonotone(Min(size, cap), cap, entry);
  }

  /** The size, for every input: at the stop it costs the percentage of equity, that of the limits where
      none is asked for, and nothing is sized without a distance to the stop; capped, it is the smaller
      of this and what is worth 95 percent of the permitted exposure. */
  lemma SizesExactly(l: RiskLimits, equity: real, entry: real, stop: real, riskPct: Option<real>)
    ensures var pct := if riskPct.Some? && riskPct.value != 0.0 then riskPct.value else l.maxRiskPerTradePct;
            var size, capped := PositionSize(l, equity, entry, stop, riskPct), CappedPositionSize(l, equity, entry, stop, riskPct);
            && (if entry == stop then size == 0.0
                else size * (if entry > stop then entry - stop else stop - entry) * 100.0 == equity * pct)
            && (entry <= 0.0 ==> capped == size)
            && (entry > 0.0 ==>
                  && capped <= size && capped * entry * 10000.0 <= equity * l.maxSymbolExposurePct * 95.0
                  && (capped == size || capped * entry * 10000.0 == equity * l.maxSymbolExposurePct * 95.0))
  {
    var pct := OrDefault(riskPct, l.maxRiskPerTradePct);
    if entry != stop { DivCancels(equity * pct / 100.0, Abs(entry - stop)); }
    if entry > 0.0 {
      var size, cap := PositionSize(l, equity, entry, stop, riskPct), ExposureCap(l, equity, entry);
      hide PositionSize;
      DivCancels(equity * l.maxSymbolExposurePct / 100.0 * HEADROOM, entry);
      MulMonotone(Min(size, cap), cap, entry);
    }
  }

  lemma RoundedExcess(q: real, step: real, k: real)
    requires step > 0.0 && k >= 0.0
    ensures Quantize(q, step) * k <= q * k + step / 2.0 * k
  {
    QuantizeNear(q, step);
    MulMonotone(Quantize(q, step), q + step / 2.0, k);
    assert (q + step / 2.0) * k == q * k + step / 2.0 * k;
  }

  lemma PlannedSizeFitsExposure(l: RiskLimits, equity: real, entry: real, stop: real, riskPct: real, step: real)
    requires equity > 0.0 && entry > 0.0 && stop != entry && step > 0.0 && 0.0 < riskPct
    requires step / 2.0 * entry <= equity * l.maxSymbolExposurePct / 100.0 * (1.0 - HEADROOM)
    ensures Quantize(CappedPositionSize(l, equity, entry, stop, Some(riskPct)), step) * entry
            <= equity * l.maxSymbolExposurePct / 100.0
  {
    SizeRisksAtMost(l, equity, entry, stop, riskPct);
    RoundedExcess(CappedPositionSize(l, equity, entry, stop, Some(riskPct)), step, entry);
    hide CappedPositionSize, Quantize;
    var cap := equity * l.maxSymbolExposurePct / 100.0;
    assert cap * HEADROOM + cap * (1.0 - HEADROOM) == cap;
  }

  lemma PlannedSizeFitsRisk(l: RiskLimits, equity: real, entry: real, stop: real, riskPct: real, step: real)
    requires equity > 0.0 && entry > 0.0 && stop != entry && step > 0.0 && 0.0 < riskPct
    requires step / 2.0 * Abs(entry - stop) <= equity * (l.maxRiskPerTradePct - riskPct) / 100.0
    ensures Quantize(CappedPositionSize(l, equity, entry, stop, Some(riskPct)), step) * Abs(entry - stop)
            <= equity * l.maxRiskPerTradePct / 100.0
  {
    SizeRisksAtMost(l, equity, entry, stop, riskPct);
    RoundedExcess(CappedPositionSize(l, equity, entry, stop, Some(riskPct)), step, Abs(entry - stop));
    hide CappedPositionSize, Quantize, Abs;
    UnusedRisk(equity, riskPct, l.maxRiskPerTradePct);
  }

  lemma UnusedRisk(equity: real, riskPct: real, limit: real)
    ensures equity * riskPct / 100.0 + equity * (limit - riskPct) / 100.0 == equity * limit / 100.0
  {
    assert equity * riskPct + equity * (limit - riskPct) == equity * limit;
  }

  /** Sizing agrees with the gate. The rounded planned quantity violates neither the symbol
      exposure limit of an empty symbol nor the risk limit, provided half a step fits the five
      percent headroom of the exposure and the unused part of the risk limit. */
  lemma PlannedSizePassesTheGate(l: RiskLimits, equity: real, entry: real, stop: real, riskPct: real, step: real,
                                 acct: AccountRiskState, mkt: MarketRiskState, leverage: real)
    requires equity > 0.0 && entry > 0.0 && stop != entry && step > 0.0 && 0.0 < riskPct
    requires acct.equity == equity && acct.symbolNotional == 0.0
    requires step / 2.0 * entry <= equity * l.maxSymbolExposurePct / 100.0 * (1.0 - HEADROOM)
    requires step / 2.0 * Abs(entry - stop) <= equity * (l.maxRiskPerTradePct - riskPct) / 100.0
    ensures var qty := Quantize(CappedPositionSize(l, equity, entry, stop, Some(riskPct)), step);
            var i := OrderIntent(qty, entry, leverage, Some(stop), false);
            !Violates(l, i, acct, mkt, SymbolExposure) && !Violates(l, i, acct, mkt, RiskAtStop)
  {
    hide CappedPositionSize, Quantize, Abs;
    PlannedSizeFitsExposure(l, equity, entry, stop, riskPct, step);
    PlannedSizeFitsRisk(l, equity, entry, stop, riskPct, step);
    var qty := Quantize(CappedPositionSize(l, equity, entry, stop, Some(riskPct)), step);
    WithinLimits(l, OrderIntent(qty, entry, leverage, Some(stop), false), acct, mkt);
  }

  lemma WithinLimits(l: RiskLimits, i: OrderIntent, acct: AccountRiskState, mkt: MarketRiskState)
    requires acct.equity > 0.0 && acct.symbolNotional == 0.0 && i.stopPrice.Some?
    requires i.qty * i.price <= acct.equity * l.maxSymbolExposurePct / 100.0
    requires i.qty * Abs(i.price - i.stopPrice.value) <= acct.equity * l.maxRiskPerTradePct / 100.0
    ensures !Violates(l, i, acct, mkt, SymbolExposure) && !Violates(l, i, acct, mkt, RiskAtStop)
  {
    hide Abs;
  }

  // ---- When rounding trips the gate ------------------------------------------------------------

  /** The whole steps in `q`, and the part of one more. */
  function Whole(q: real, step: real): int
    requires step > 0.0
  {
    (q / step).Floor
  }

  function Part(q: real, step: real): real
    requires step > 0.0
  {
    q / step - Whole(q, step) as real
  }

  predicate RoundsUp(q: real, step: real)
    requires step > 0.0
  {
    Part(q, step) > 0.5 || (Part(q, step) == 0.5 && Whole(q, step) % 2 == 1)
  }

  /** What rounding adds to a size, or takes off it. */
  function RoundingGain(q: real, step: real): real
    requires step > 0.0
  {
    if RoundsUp(q, step) then (1.0 - Part(q, step)) * step else -(Part(q, step) * step)
  }

  lemma QuantizeAdds(q: real, step: real)
    requires step > 0.0
    ensures Quantize(q, step) == q + RoundingGain(q, step)
    ensures RoundsUp(q, step) ==> RoundingGain(q, step) > 0.0
    ensures !RoundsUp(q, step) ==> RoundingGain(q, step) <= 0.0
  {
    DivCancels(q, step);
    hide Quantize;
    QuantizedSteps(q, step);
    StepsApart(Whole(q, step) as real, Part(q, step), step);
    if RoundsUp(q, step) { PositiveProduct(1.0 - Part(q, step), step); } else { MulNonNegative(Part(q, step), step); }
  }

  lemma QuantizedSteps(q: real, step: real)
    requires step > 0.0
    ensures Quantize(q, step) == (if RoundsUp(q, step) then Whole(q, step) as real + 1.0 else Whole(q, step) as real) * step
    ensures q / step == Whole(q, step) as real + Part(q, step) && 0.0 <= Part(q, step) < 1.0
  {
    var w := Whole(q, step);
    var n := if RoundsUp(q, step) then w + 1 else w;
    RoundsToNearestTiesToEven(q / step, n);
    assert Quantize(q, step) == n as real * step;
  }

  lemma StepsApart(w: real, d: real, step: real)
    ensures (w + 1.0) * step == step * (w + d) + (1.0 - d) * step
    ensures w * step == step * (w + d) - d * step
  {
  }

  lemma PositiveProduct(x: real, y: real)
    requires x > 0.0 && y > 0.0
    ensures x * y > 0.0
  {
  }

  /** For every size, the gate refuses its rounded quantity for the risk at the stop exactly when
      what rounding adds costs more at the stop than the size leaves of the limit. */
  lemma RoundingTripsRiskExactly(l: RiskLimits, q: real, entry: real, stop: real, step: real,
                                 acct: AccountRiskState, mkt: MarketRiskState, leverage: real)
    requires step > 0.0
    ensures var dist := Abs(entry - stop);
            var left := EquityBase(acct) * l.maxRiskPerTradePct / 100.0 - q * dist;
            Violates(l, OrderIntent(Quantize(q, step), entry, leverage, Some(stop), false), acct, mkt, RiskAtStop) <==>
              if RoundsUp(q, step) then (1.0 - Part(q, step)) * step * dist > left else -(Part(q, step) * step) * dist > left
  {
    hide Quantize, RoundsUp, Part, Abs;
    QuantizeAdds(q, step);
    var dist, r, d := Abs(entry - stop), Quantize(q, step), RoundingGain(q, step);
    assert r * dist == q * dist + d * dist;
  }

  /** And for the exposure in the symbol, exactly when what rounding adds is worth more than the
      size and the exposure there is leave of that limit. */
  lemma RoundingTripsExposureExactly(l: RiskLimits, q: real, entry: real, stop: real, step: real,
                                     acct: AccountRiskState, mkt: MarketRiskState, leverage: real)
    requires step > 0.0
    ensures var left := EquityBase(acct) * l.maxSymbolExposurePct / 100.0 - acct.symbolNotional - q * entry;
            Violates(l, OrderIntent(Quantize(q, step), entry, leverage, Some(stop), false), acct, mkt, SymbolExposure) <==>
              if RoundsUp(q, step) then (1.0 - Part(q, step)) * step * entry > left else -(Part(q, step) * step) * entry > left
  {
    hide Quantize, RoundsUp, Part;
    QuantizeAdds(q, step);
    var r, d := Quantize(q, step), RoundingGain(q, step);
    assert r * entry == q * entry + d * entry;
  }

  /** Planned at the whole risk limit, with the risk size binding, a quantity is refused for its risk
      exactly when it rounds up. */
  lemma WholeRiskIsRefusedExactlyWhenRoundedUp(l: RiskLimits, equity: real, entry: real, stop: real, step: real,
                                               acct: AccountRiskState, mkt: MarketRiskState, leverage: real)
    requires equity > 0.0 && entry > 0.0 && stop != entry && step > 0.0 && l.maxRiskPerTradePct > 0.0
    requires acct.equity == equity
    requires PositionSize(l, equity, entry, stop, Some(l.maxRiskPerTradePct)) <= ExposureCap(l, equity, entry)
    ensures var q := CappedPositionSize(l, equity, entry, stop, Some(l.maxRiskPerTradePct));
            var i := OrderIntent(Quantize(q, step), entry, leverage, Some(stop), false);
            Violates(l, i, acct, mkt, RiskAtStop) <==> RoundsUp(q, step)
  {
    var q := CappedPositionSize(l, equity, entry, stop, Some(l.maxRiskPerTradePct));
    SizeRisksAtMost(l, equity, entry, stop, l.maxRiskPerTradePct);
    assert q * Abs(entry - stop) == equity * l.maxRiskPerTradePct / 100.0;
    RefusedWhenAdded(l, q, entry, stop, step, acct, mkt, leverage);
  }

  lemma RefusedWhenAdded(l: RiskLimits, q: real, entry: real, stop: real, step: real,
                         acct: AccountRiskState, mkt: MarketRiskState, leverage: real)
    requires step > 0.0 && stop != entry && acct.equity > 0.0
    requires q * Abs(entry - stop) == acct.equity * l.maxRiskPerTradePct / 100.0
    ensures Violates(l, OrderIntent(Quantize(q, step), entry, leverage, Some(stop), false), acct, mkt, RiskAtStop)
       <==> RoundsUp(q, step)
  {
    hide Quantize, RoundsUp, Part, Violates;
    RoundingTripsRiskExactly(l, q, entry, stop, step, acct, mkt, leverage);
    QuantizeAdds(q, step);
    var dist, d := Abs(entry - stop), RoundingGain(q, step);
    assert EquityBase(acct) * l.maxRiskPerTradePct / 100.0 - q * dist == 0.0;
    if RoundsUp(q, step) {
      PositiveProduct(d, dist);
    } else {
      MulNonNegative(-d, dist);
      assert -(Part(q, step) * step) * dist == d * dist == -((-d) * dist);
    }
  }

  // ---- The autotrade planner ------------------------------------------------------------------

  datatype Direction = Long | Short | Neutral

  /** What the ensemble suggests; its text is left out. */
  datatype Signal = Signal(
    symbol: Symbol, direction: Direction, confidence: real, suggestedStop: Option<real>,
    suggestedTarget: Option<real>, suggestedRiskPct: Option<real>)

  datatype Plan = Skip | Hold | Enter(order: Terms) | Flip(order: Terms)

  function Wanted(d: Direction): Side { if d.Long? then Buy else Sell }

  function PlanAutotrade(id: OrderId, s: Signal, mark: real, equity: real, current: Option<Position>, l: RiskLimits,
                         leverage: real, minConfidence: real, step: real): Plan
    requires step > 0.0
  {
    if s.direction.Neutral? || s.confidence < minConfidence || s.suggestedStop.None? then Skip
    else
      var want := Wanted(s.direction);
      if current.Some? && current.value.side == want then Hold
      else
        var stop := s.suggestedStop.value;
        var riskPct := OrDefault(s.suggestedRiskPct, 0.5);
        var qty := Quantize(CappedPositionSize(l, equity, mark, stop, Some(riskPct)), step);
        if qty <= 0.0 then Skip
        else
          var target := if s.suggestedTarget.Some? && s.suggestedTarget.value != 0.0 then s.suggestedTarget else None;
          var order := Terms(id, s.symbol, want, Market, qty, None, Some(stop), None, false, Gtc, leverage,
                             Some(stop), target, Source.Signal);
          if current.Some? then Flip(order) else Enter(order)
  }

  /** What is planned, and when. Nothing without a direction, the confidence asked for, a stop and a size;
      nothing while a position in the direction of the signal is open; otherwise a market order that
      buys on LONG and sells on SHORT, of the capped size rounded to the step, with the stop and the
      target of the signal attached, as an entry when nothing is open and as a flip when the opposite is. */
  lemma PlansExactly(id: OrderId, s: Signal, mark: real, equity: real, current: Option<Position>, l: RiskLimits,
                     leverage: real, minConfidence: real, step: real)
    requires step > 0.0
    ensures var p := PlanAutotrade(id, s, mark, equity, current, l, leverage, minConfidence, step);
            var serious := !s.direction.Neutral? && s.confidence >= minConfidence && s.suggestedStop.Some?;
            var holds := current.Some? && (current.value.side.Buy? <==> s.direction.Long?);
            var risk := if s.suggestedRiskPct.Some? && s.suggestedRiskPct.value != 0.0 then s.suggestedRiskPct.value else 0.5;
            && (p.Hold? <==> serious && holds)
            && (serious && !holds ==>
                  var qty := Quantize(CappedPositionSize(l, equity, mark, s.suggestedStop.value, Some(risk)), step);
                  if qty <= 0.0 then p.Skip?
                  else
                    && (p.Enter? || p.Flip?) && (p.Flip? <==> current.Some?)
                    && var o := p.order;
                       && o.id == id && o.symbol == s.symbol && o.kind.Market? && o.qty == qty && !o.reduceOnly
                       && o.leverage == leverage && (o.side.Buy? <==> s.direction.Long?)
                       && o.attachStopLoss == o.triggerPrice == s.suggestedStop
                       && o.attachTakeProfit == (if s.suggestedTarget == Some(0.0) then None else s.suggestedTarget))
            && (!serious ==> p.Skip?)
  {
    hide CappedPositionSize, Quantize;
  }

  /** A planned order never adds to a position, carries its stop to the gate and to the fill,
      and as an entry passes the gate's exposure and risk limits under the rounding provisos. */
  lemma PlanPassesTheGate(id: OrderId, s: Signal, mark: real, equity: real, current: Option<Position>, l: RiskLimits,
                          leverage: real, minConfidence: real, step: real, acct: AccountRiskState, mkt: MarketRiskState)
    requires step > 0.0 && equity > 0.0 && mark > 0.0
    requires var p := PlanAutotrade(id, s, mark, equity, current, l, leverage, minConfidence, step); p.Enter? || p.Flip?
    requires s.suggestedStop != Some(mark)
    requires 0.0 < OrDefault(s.suggestedRiskPct, 0.5)
    requires acct.equity == equity && acct.symbolNotional == 0.0
    requires step / 2.0 * mark <= equity * l.maxSymbolExposurePct / 100.0 * (1.0 - HEADROOM)
    requires s.suggestedStop.Some? ==>
               step / 2.0 * Abs(mark - s.suggestedStop.value)
               <= equity * (l.maxRiskPerTradePct - OrDefault(s.suggestedRiskPct, 0.5)) / 100.0
    ensures var o := PlanAutotrade(id, s, mark, equity, current, l, leverage, minConfidence, step).order;
            && o.qty > 0.0 && !o.reduceOnly
            && (current.Some? ==> o.side != current.value.side)
            && o.triggerPrice == o.attachStopLoss == s.suggestedStop
            && var i := OrderIntent(o.qty, mark, o.leverage, o.triggerPrice, false);
               !Violates(l, i, acct, mkt, SymbolExposure) && !Violates(l, i, acct, mkt, RiskAtStop)
               && !Violates(l, i, acct, mkt, NoStop)
  {
    PlannedSizePassesTheGate(l, equity, mark, s.suggestedStop.value, OrDefault(s.suggestedRiskPct, 0.5), step, acct, mkt, leverage);
    hide CappedPositionSize, Quantize;
  }

  /** Without the proviso the planner and the gate disagree: with the whole risk limit planned,
      0.1666... rounds up to 0.167 and risks 1.002 of a permitted 1. */
  lemma RoundingUpTripsTheGate(l: RiskLimits, mkt: MarketRiskState)
    requires l.maxRiskPerTradePct == 1.0 && l.maxSymbolExposurePct == 50.0
    ensures var acct := AccountRiskState(100.0, 100.0, 0.0, 0.0, 0, 0.0, 0.0, 0, None);
            var qty := Quantize(CappedPositionSize(l, 100.0, 100.0, 94.0, Some(1.0)), 0.001);
            qty == 0.167 && Violates(l, OrderIntent(qty, 100.0, 3.0, Some(94.0), false), acct, mkt, RiskAtStop)
  {
    var q := CappedPositionSize(l, 100.0, 100.0, 94.0, Some(1.0));
    assert q == 1.0 / 6.0;
    assert (q / 0.001).Floor == 166;
  }
}
