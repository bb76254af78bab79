/** The paper execution engine of backend/app/services/paper_engine/engine.py as a state
    machine on values. Besides the account and the working orders the state carries two
    histories: the log of what reached the account, and a trace for every order. */
module EngineSpec {
  import opened Prelude
  import opened Models
  import opened Fills
  import opened Accounting

  datatype Pending = Pending(order: Order, submittedMs: int)

  /** The history of one order: the object as it began to work (or was rejected), when it was
      submitted, the snapshots `try_fill` was given for it, and the object as it is now. */
  datatype Trace = Trace(initial: Order, submittedMs: int, seen: seq<BookTop>, last: Order)

  datatype Engine = Engine(
    account: Account, pending: Dict<OrderId, Pending>, log: seq<Entry>, traces: map<OrderId, Trace>, serial: nat)

  function NewEngine(account: Account): Engine { Engine(account, RawDict([], map[]), [], map[], 0) }

  // ---- Order entry --------------------------------------------------------------

  predicate Reducible(a: Account, t: Terms) {
    t.symbol in a.positions.vals
    && var p := a.positions.vals[t.symbol]; p.side != t.side && p.qty >= t.qty
  }

  predicate Acceptable(a: Account, t: Terms) { t.qty > 0.0 && (t.reduceOnly ==> Reducible(a, t)) }

  /** `submit`. An order that works already is filed anew, or stays at work though it is rejected. */
  function Submit(e: Engine, o: Order, now: int): Engine {
    var id := o.terms.id;
    if !Acceptable(e.account, o.terms) then
      var rejected := o.(status := Rejected);
      e.(pending := if id in e.pending.vals then Put(e.pending, id, e.pending.vals[id].(order := rejected)) else e.pending,
         traces := e.traces[id := Trace(rejected, now, [], rejected)])
    else
      var accepted := o.(status := Accepted);
      e.(pending := Put(e.pending, id, Pending(accepted, now)),
         traces := e.traces[id := Trace(accepted, now, [], accepted)])
  }

  function Observed(e: Engine, o: Order, seen: seq<BookTop>): map<OrderId, Trace> {
    if o.terms.id in e.traces then
      var tr := e.traces[o.terms.id];
      e.traces[o.terms.id := tr.(last := o, seen := tr.seen + seen)]
    else e.traces
  }

  function Cancel(e: Engine, id: OrderId): Engine {
    if id !in e.pending.vals then e
    else
      var o := e.pending.vals[id].order.(status := Cancelled);
      e.(pending := Del(e.pending, id), traces := Observed(e, o, []))
  }

  function CancelEach(e: Engine, ids: seq<OrderId>): Engine
    decreases |ids|
  {
    if ids == [] then e else CancelEach(Cancel(e, ids[0]), ids[1..])
  }

  /** The working orders of one symbol, or of all. */
  function WorkingIn(d: Dict<OrderId, Pending>, symbol: Option<Symbol>, keys: seq<OrderId>): (ids: seq<OrderId>)
    requires forall k :: k in keys ==> k in d.vals
    ensures forall k :: k in ids ==> k in keys
  {
    if keys == [] then []
    else
      var rest := WorkingIn(d, symbol, keys[1..]);
      if symbol.None? || d.vals[keys[0]].order.terms.symbol == symbol.value then [keys[0]] + rest else rest
  }

  function CancelAll(e: Engine, symbol: Option<Symbol>): Engine {
    CancelEach(e, WorkingIn(e.pending, symbol, e.pending.keys))
  }

  // ---- Market data ----------------------------------------------------------------

  /** Protections carried by an order attach to the position its fill leaves on its side. */
  function Attach(a: Account, t: Terms): Account {
    if t.symbol in a.positions.vals && a.positions.vals[t.symbol].side == t.side
    then Protect(a, t.symbol, t.attachStopLoss, t.attachTakeProfit)
    else a
  }

  /** The state after one snapshot, and whether an `assert` cut the call short. */
  datatype Tick = Tick(engine: Engine, raised: bool)

  /** `try_fill` and `_settle` on the order `o`, for the snapshot `b`. */
  function Settle(cfg: FillConfig, e: Engine, o: Order, b: BookTop): Tick {
    var id := o.terms.id;
    match TryFill(cfg, o, b)
    case Raised(o') =>
      var pending := if id in e.pending.vals then Put(e.pending, id, e.pending.vals[id].(order := o')) else e.pending;
      Tick(e.(pending := pending, traces := Observed(e, o', [b])), true)
    case Done(o', fill, status) =>
      var done := o'.(status := status);
      var pending := if status.Terminal() then Del(e.pending, id)
                     else if id in e.pending.vals then Put(e.pending, id, e.pending.vals[id].(order := done))
                     else e.pending;
      var e' := e.(pending := pending, traces := Observed(e, done, [b]));
      if fill.None? then Tick(e', false)
      else
        Tick(e'.(account := Attach(ApplyFill(e.account, fill.value, o.terms.leverage), o.terms),
                 log := e.log + [Traded(fill.value)]), false)
  }

  /** Honest latency: an order meets only snapshots of its symbol from submission plus latency on. */
  predicate Eligible(cfg: FillConfig, p: Pending, b: BookTop) {
    p.order.terms.symbol == b.symbol && b.tsMs >= p.submittedMs + cfg.latencyMs
  }

  function Visit(cfg: FillConfig, e: Engine, id: OrderId, b: BookTop): Tick {
    if id in e.pending.vals && Eligible(cfg, e.pending.vals[id], b)
    then Settle(cfg, e, e.pending.vals[id].order, b)
    else Tick(e, false)
  }

  function Sweep(cfg: FillConfig, e: Engine, ids: seq<OrderId>, b: BookTop): Tick
    decreases |ids|
  {
    if ids == [] then Tick(e, false)
    else
      var t := Visit(cfg, e, ids[0], b);
      if t.raised then t else Sweep(cfg, t.engine, ids[1..], b)
  }

  /** The stop loss, or else the take profit, of the position is reached at `mark`. */
  predicate ProtectionHit(p: Position, mark: real) {
    if p.side.Buy? then
      (p.stopLoss.Some? && mark <= p.stopLoss.value) || (p.takeProfit.Some? && mark >= p.takeProfit.value)
    else
      (p.stopLoss.Some? && mark >= p.stopLoss.value) || (p.takeProfit.Some? && mark <= p.takeProfit.value)
  }

  function ExitOrder(p: Position, serial: nat): Order {
    NewOrder(MarketTerms(ProtectionExit(serial), p.symbol, p.side.Opposite(), p.qty, true, RiskEngine)).(status := Triggered)
  }

  /** `_check_protections`: a reached protection closes the position on this very snapshot. */
  function CheckProtections(cfg: FillConfig, e: Engine, b: BookTop): Engine {
    if b.symbol in e.account.positions.vals && ProtectionHit(e.account.positions.vals[b.symbol], b.Mid()) then
      var o := ExitOrder(e.account.positions.vals[b.symbol], e.serial);
      var started := e.(serial := e.serial + 1, traces := e.traces[o.terms.id := Trace(o, b.tsMs, [], o)]);
      Settle(cfg, started, o, b).engine
    else e
  }

  function OnBook(cfg: FillConfig, e: Engine, b: BookTop): Tick {
    var t := Sweep(cfg, e, e.pending.keys, b);
    if t.raised then t else Tick(CheckProtections(cfg, t.engine, b), false)
  }

  // ---- Flatten ----------------------------------------------------------------------

  function CloseOrder(p: Position, serial: nat): Order {
    NewOrder(MarketTerms(FlattenClose(serial), p.symbol, p.side.Opposite(), p.qty, true, KillSwitch))
  }

  /** `submit` leaves the positions alone, so each is read when its turn comes. */
  function FlattenEach(e: Engine, symbols: seq<Symbol>, now: int): Engine
    requires forall s :: s in symbols ==> s in e.account.positions.vals
    decreases |symbols|
  {
    if symbols == [] then e
    else
      var p := e.account.positions.vals[symbols[0]];
      FlattenEach(Submit(e.(serial := e.serial + 1), CloseOrder(p, e.serial), now), symbols[1..], now)
  }

  /** `flatten_all`: cancel everything and submit a full-size close for every position. */
  function FlattenAll(e: Engine, now: int): Engine {
    var c := CancelAll(e, None);
    FlattenEach(c, c.account.positions.keys, now)
  }

  function Fund(e: Engine, symbol: Symbol, rate: real, mark: real): Engine {
    e.(account := ApplyFunding(e.account, symbol, rate, mark), log := e.log + [Funded(symbol, rate, mark)])
  }
}
