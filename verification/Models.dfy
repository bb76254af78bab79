/** The execution-domain values of backend/app/services/paper_engine/models.py.
    Decimal money, prices and quantities are exact reals. */
module Models {
  import opened Prelude

  type Symbol = string

  datatype Side = Buy | Sell {
    /** `x` times the side's sign: 1 for a buy, -1 for a sell. */
    function Signed(x: real): real { if Buy? then x else -x }

    function Opposite(): Side { if Buy? then Sell else Buy }
  }

  datatype OrderType = Market | Limit | StopMarket | StopLimit | TakeProfit | TrailingStop

  datatype OrderStatus = New | Accepted | PartiallyFilled | Filled | Cancelled | Rejected | Triggered {
    predicate Terminal() { Filled? || Cancelled? || Rejected? }
  }

  datatype TimeInForce = Gtc | Ioc | PostOnly

  datatype Source = Manual | Signal | RiskEngine | KillSwitch

  /** The uuid of an order, tagged with who constructed the order: a caller of `submit`,
      `flatten_all`, or `_check_protections`. */
  datatype OrderId = Caller(n: nat) | FlattenClose(n: nat) | ProtectionExit(n: nat)

  datatype BookTop = BookTop(symbol: Symbol, tsMs: int, bid: real, ask: real, bidQty: real, askQty: real) {
    function Mid(): real { (bid + ask) / 2.0 }

    function SpreadBps(): real { if Mid() == 0.0 then 0.0 else (ask - bid) / Mid() * 10000.0 }

    /** The quote an order on `side` would take, and the size shown there. */
    function Touch(side: Side): real { if side.Buy? then ask else bid }

    function Displayed(side: Side): real { if side.Buy? then askQty else bidQty }
  }

  /** The fields of an order that nothing changes after its construction. */
  datatype Terms = Terms(
    id: OrderId, symbol: Symbol, side: Side, kind: OrderType, qty: real,
    price: Option<real>, triggerPrice: Option<real>, trailOffset: Option<real>,
    reduceOnly: bool, tif: TimeInForce, leverage: real,
    attachStopLoss: Option<real>, attachTakeProfit: Option<real>, source: Source)

  datatype Order = Order(
    terms: Terms, status: OrderStatus, filledQty: real, trailExtreme: Option<real>, rested: bool)
  {
    function Remaining(): real { terms.qty - filledQty }
  }

  /** An order as its constructor leaves it. */
  function NewOrder(t: Terms): Order { Order(t, New, 0.0, None, false) }

  /** A market order as the engine and the backtester construct it. */
  function MarketTerms(id: OrderId, symbol: Symbol, side: Side, qty: real, reduceOnly: bool, source: Source): Terms {
    Terms(id, symbol, side, Market, qty, None, None, None, reduceOnly, Gtc, 1.0, None, None, source)
  }

  datatype FeeRole = Maker | Taker

  datatype Fill = Fill(
    orderId: OrderId, symbol: Symbol, side: Side, qty: real, price: real, fee: real,
    role: FeeRole, slippageBps: real, latencyMs: int, tsMs: int)
  {
    function SignedQty(): real { side.Signed(qty) }

    /** Cash paid for the inventory; negative for a sell. */
    function SignedCost(): real { side.Signed(qty * price) }
  }

  /** Any other configured model name behaves as `Touch`. */
  datatype SlippageModel = Touch | SpreadPlusBps | Impact

  datatype FillConfig = FillConfig(
    takerFeeBps: real, makerFeeBps: real, slippageModel: SlippageModel, slippageBps: real,
    latencyMs: int, impactBpsPerLevel: real, allowPartialLimitFills: bool)

  datatype Position = Position(
    symbol: Symbol, side: Side, qty: real, avgEntry: real, leverage: real, initialQty: real,
    realizedPnl: real, feesPaid: real, fundingPaid: real, slippageCost: real,
    stopLoss: Option<real>, takeProfit: Option<real>, openedMs: int)
  {
    function SignedQty(): real { side.Signed(qty) }

    function Notional(): real { qty * avgEntry }

    function Unrealized(mark: real): real { side.Signed((mark - avgEntry) * qty) }
  }

  datatype Candle = Candle(tsMs: int, open: real, high: real, low: real, close: real, volume: real)
}
