/** The order objects, the fill simulator and the engine as the mutable objects they are in
    backend/app/services/paper_engine: an order is shared between the caller and the engine,
    the simulator changes it in place, the engine files and drops it. */
module PaperEngines {
  import opened Prelude
  import opened Models
  import opened Accounting
  import opened PaperAccounts
  import Fills
  import Spec = EngineSpec

  class OrderObject {
    const terms: Terms
    var status: OrderStatus
    var filledQty: real
    var trailExtreme: Option<real>
    var rested: bool

    function State(): Order
      reads this
    {
      Order(terms, status, filledQty, trailExtreme, rested)
    }

    constructor (terms: Terms)
      ensures State() == NewOrder(terms)
    {
      this.terms := terms;
      status, filledQty, trailExtreme, rested := New, 0.0, None, false;
    }
  }

  /** What `try_fill` returns, or the assertion it raises. */
  datatype FillResult = FillResult(fill: Option<Fill>, orderStatus: OrderStatus) | AssertionError

  function Reported(t: Fills.Attempt): FillResult {
    if t.Raised? then AssertionError else FillResult(t.fill, t.status)
  }

  class FillSimulator {
    const config: FillConfig

    constructor (config: FillConfig)
      ensures this.config == config
    {
      this.config := config;
    }

    method TryFill(order: OrderObject, book: BookTop) returns (r: FillResult)
      modifies order
      ensures var t := Fills.TryFill(config, old(order.State()), book); r == Reported(t) && order.State() == t.order
    {
      match order.terms.kind {
        case Market => r := FillMarket(order, book);
        case Limit => r := FillLimit(order, book);
        case StopMarket => r := MaybeTriggerThenMarket(order, book);
        case TakeProfit => r := MaybeTriggerThenMarket(order, book);
        case StopLimit => r := MaybeTriggerStopLimit(order, book);
        case TrailingStop => r := UpdateTrailing(order, book);
      }
    }

    method FillMarket(order: OrderObject, book: BookTop) returns (r: FillResult)
      modifies order
      ensures var t := Fills.FillMarket(config, old(order.State()), book); r == Reported(t) && order.State() == t.order
    {
      var o := order.State();
      var touch := if o.terms.side.Buy? then book.ask else book.bid;
      var displayed := if o.terms.side.Buy? then book.askQty else book.bidQty;
      var price := Fills.ApplySlippage(config, touch, o.terms.side, o.Remaining(), displayed);
      var slippageBps := Fills.AdverseBps(touch, price, o.terms.side);
      var fill := Fills.MakeFill(config, o, o.Remaining(), price, Taker, slippageBps, book.tsMs);
      order.filledQty := order.terms.qty;
      r := FillResult(Some(fill), Filled);
    }

    method FillLimit(order: OrderObject, book: BookTop) returns (r: FillResult)
      modifies order
      ensures var t := Fills.FillLimit(config, old(order.State()), book); r == Reported(t) && order.State() == t.order
    {
      hide Fills.MakeFill;
      var o := order.State();
      if o.terms.price.None? { return AssertionError; }
      var marketable, touch, displayed;
      if o.terms.side.Buy? {
        marketable, touch, displayed := book.ask <= o.terms.price.value, book.ask, book.askQty;
      } else {
        marketable, touch, displayed := book.bid >= o.terms.price.value, book.bid, book.bidQty;
      }
      if marketable {
        if o.terms.tif.PostOnly? {
          if !order.rested { return FillResult(None, Rejected); }
          var fill := Fills.MakeFill(config, o, o.Remaining(), o.terms.price.value, Maker, 0.0, book.tsMs);
          order.filledQty := order.terms.qty;
          return FillResult(Some(fill), Filled);
        }
        var qty := o.Remaining();
        if config.allowPartialLimitFills && displayed > 0.0 {
          qty := Min(qty, displayed);
        }
        var fill := Fills.MakeFill(config, o, qty, touch, Taker, 0.0, book.tsMs);
        order.filledQty := order.filledQty + qty;
        return FillResult(Some(fill), if order.State().Remaining() == 0.0 then Filled else PartiallyFilled);
      }
      order.rested := true;
      return FillResult(None, if o.terms.tif.Ioc? then Cancelled else Accepted);
    }

    method MaybeTriggerThenMarket(order: OrderObject, book: BookTop) returns (r: FillResult)
      modifies order
      ensures var t := Fills.FillTriggered(config, old(order.State()), book); r == Reported(t) && order.State() == t.order
    {
      hide Fills.FillMarket;
      if order.terms.triggerPrice.None? { return AssertionError; }
      if !Fills.TriggerReached(order.terms.kind, order.terms.side, order.terms.triggerPrice.value, book.Mid()) {
        return FillResult(None, Accepted);
      }
      order.status := Triggered;
      r := FillMarket(order, book);
    }

    method MaybeTriggerStopLimit(order: OrderObject, book: BookTop) returns (r: FillResult)
      modifies order
      ensures var t := Fills.FillStopLimit(config, old(order.State()), book); r == Reported(t) && order.State() == t.order
    {
      hide Fills.FillLimit;
      if order.status != Triggered {
        if order.terms.triggerPrice.None? { return AssertionError; }
        if !Fills.TriggerReached(order.terms.kind, order.terms.side, order.terms.triggerPrice.value, book.Mid()) {
          return FillResult(None, Accepted);
        }
        order.status := Triggered;
      }
      r := FillLimit(order, book);
    }

    method UpdateTrailing(order: OrderObject, book: BookTop) returns (r: FillResult)
      modifies order
      ensures var t := Fills.UpdateTrailing(config, old(order.State()), book); r == Reported(t) && order.State() == t.order
    {
      hide Fills.FillMarket;
      if order.terms.trailOffset.None? { return AssertionError; }
      var mark := book.Mid();
      var stored := if order.trailExtreme.Some? && order.trailExtreme.value != 0.0 then order.trailExtreme.value else mark;
      if order.terms.side.Sell? {
        var extreme := Max(stored, mark);
        order.trailExtreme := Some(extreme);
        if mark <= extreme - order.terms.trailOffset.value {
          r := FillMarket(order, book);
          return;
        }
      } else {
        var extreme := Min(stored, mark);
        order.trailExtreme := Some(extreme);
        if mark >= extreme + order.terms.trailOffset.value {
          r := FillMarket(order, book);
          return;
        }
      }
      return FillResult(None, Accepted);
    }
  }

  datatype Working = Working(order: OrderObject, submittedMs: int)

  /** The log entries of a list of fills. */
  function Entries(fills: seq<Fill>): seq<Entry> { seq(|fills|, i requires 0 <= i < |fills| => Traded(fills[i])) }

  lemma EntriesConcat(log: seq<Entry>, xs: seq<Fill>, ys: seq<Fill>)
    ensures log + Entries(xs) + Entries(ys) == log + Entries(xs + ys)
  {
  }

  /** The orders close the positions in `symbols`, in that order, each at its full size. */
  predicate ClosesOf(closes: seq<OrderObject>, positions: Dict<Symbol, Position>, symbols: seq<Symbol>, serial: nat) {
    && |closes| == |symbols|
    && forall i :: 0 <= i < |symbols| ==>
         symbols[i] in positions.vals && closes[i].terms == Spec.CloseOrder(positions.vals[symbols[i]], serial + i).terms
  }

  lemma NoCloses(positions: Dict<Symbol, Position>, serial: nat)
    ensures ClosesOf([], positions, positions.keys[..0], serial)
    ensures positions.keys[..|positions.keys|] == positions.keys
  {
  }

  lemma OneMoreClose(closes: seq<OrderObject>, positions: Dict<Symbol, Position>, symbols: seq<Symbol>, i: nat,
                     serial: nat, o: OrderObject)
    requires i < |symbols| && ClosesOf(closes, positions, symbols[..i], serial) && symbols[i] in positions.vals
    requires o.terms == Spec.CloseOrder(positions.vals[symbols[i]], serial + i).terms
    ensures ClosesOf(closes + [o], positions, symbols[..i + 1], serial)
  {
  }

  /** The uuid is not one that an engine with this serial has still to hand out. */
  predicate Issued(id: OrderId, serial: nat) { id.Caller? || id.n < serial }

  ghost predicate AllIssued(filed: Dict<OrderId, Spec.Pending>, serial: nat) {
    forall id :: id in filed.vals ==> Issued(id, serial)
  }

  lemma StillIssued(filed: Dict<OrderId, Spec.Pending>, id: OrderId, p: Spec.Pending, serial: nat)
    requires AllIssued(filed, serial)
    ensures AllIssued(Del(filed, id), serial)
    ensures Issued(id, serial) ==> AllIssued(Put(filed, id, p), serial)
  {
  }

  lemma NextIsUnused(filed: Dict<OrderId, Spec.Pending>, serial: nat)
    requires AllIssued(filed, serial)
    ensures FlattenClose(serial) !in filed.vals && ProtectionExit(serial) !in filed.vals
    ensures AllIssued(filed, serial + 1)
  {
  }

  lemma CancelDrops(e: Spec.Engine, id: OrderId)
    requires id in e.pending.vals
    ensures var c := Spec.Cancel(e, id); c.pending == Del(e.pending, id) && c.account == e.account && c.serial == e.serial
  {
  }

  lemma SubmitFiles(e: Spec.Engine, o: Order, now: int)
    requires AllIssued(e.pending, e.serial) && Issued(o.terms.id, e.serial)
    ensures var id, s := o.terms.id, Spec.Submit(e, o, now);
            && s.account == e.account && s.serial == e.serial && AllIssued(s.pending, e.serial)
            && s.pending == if Spec.Acceptable(e.account, o.terms) then Put(e.pending, id, Spec.Pending(o.(status := Accepted), now))
                            else if id in e.pending.vals then Put(e.pending, id, e.pending.vals[id].(order := o.(status := Rejected)))
                            else e.pending
  {
  }

  lemma SettlesIssued(cfg: FillConfig, e: Spec.Engine, o: Order, b: BookTop)
    requires AllIssued(e.pending, e.serial)
    ensures AllIssued(Spec.Settle(cfg, e, o, b).engine.pending, e.serial)
  {
  }

  /** The engine. The ghost field `model` is the state of the machine of module EngineSpec that
      the object stands for, `filed` its working orders; `Valid` ties them to the real fields, to
      the account and to the order objects at work, which are among `orders`. */
  class PaperEngine {
    const account: PaperAccount
    const sim: FillSimulator
    var pending: Dict<OrderId, Working>
    var serial: nat
    ghost var model: Spec.Engine
    ghost var filed: Dict<OrderId, Spec.Pending>
    ghost var orders: set<OrderObject>

    ghost predicate Valid()
      reads this, account, orders
    {
      && Linked(None)
      && model.pending == filed
      && model.account == account.View()
      && model.serial == serial
      && AllIssued(filed, serial)
    }

    /** Every working order is filed under its own id with its present state, the state of
        the order `but` excepted. */
    ghost predicate Linked(but: Option<OrderId>)
      reads this`pending, this`filed, this`orders, orders
    {
      && pending.keys == filed.keys
      && forall id :: id in pending.vals ==>
           pending.vals[id].order in orders && FiledAs(id, pending.vals[id], filed.vals[id], but)
    }

    static ghost predicate FiledAs(id: OrderId, w: Working, p: Spec.Pending, but: Option<OrderId>)
      reads w.order
    {
      w.order.terms.id == id && w.submittedMs == p.submittedMs && (but == Some(id) || p.order == w.order.State())
    }

    constructor (account: PaperAccount, config: FillConfig)
      ensures Valid() && this.account == account && sim.config == config
      ensures orders == {} && model == Spec.NewEngine(account.View())
    {
      this.account := account;
      sim := new FillSimulator(config);
      pending, filed := RawDict([], map[]), RawDict([], map[]);
      serial := 0;
      model, orders := Spec.NewEngine(account.View()), {};
    }

    /** Changing one order object disturbs the filing of no other order. */
    twostate lemma LinkedAfter(order: OrderObject)
      requires old(Linked(None)) || old(Linked(Some(order.terms.id)))
      requires pending == old(pending) && filed == old(filed) && orders == old(orders)
      requires forall o :: o in orders && o != order ==> o.State() == old(o.State())
      ensures Linked(Some(order.terms.id))
    {
    }

    lemma LinkedIds()
      requires Linked(None)
      ensures forall id :: id in pending.vals <==> id in filed.vals
    {
      assert forall id :: id in pending.vals <==> id in pending.keys;
      assert forall id :: id in filed.vals <==> id in filed.keys;
    }

    /** Puts an order into the working orders. */
    method File(order: OrderObject, now: int)
      requires Linked(Some(order.terms.id))
      modifies this`pending, this`filed, this`orders
      ensures Linked(None)
      ensures filed == Put(old(filed), order.terms.id, Spec.Pending(order.State(), now))
      ensures orders == old(orders) + {order}
    {
      pending := Put(pending, order.terms.id, Working(order, now));
      filed := Put(filed, order.terms.id, Spec.Pending(order.State(), now));
      orders := orders + {order};
    }

    /** Takes an order, if it is there, out of the working orders. */
    method Drop(id: OrderId)
      requires Linked(Some(id))
      modifies this`pending, this`filed
      ensures Linked(None)
      ensures filed == Del(old(filed), id)
    {
      hide Without;
      pending := Del(pending, id);
      filed := Del(filed, id);
      assert forall x :: x in pending.vals ==> FiledAs(x, pending.vals[x], filed.vals[x], Some(id));
    }

    /** The object changed in place, so the filed state is what it is now. */
    ghost method Restate(order: OrderObject)
      requires Linked(Some(order.terms.id))
      requires order.terms.id in pending.vals ==> pending.vals[order.terms.id].order == order
      modifies this`filed
      ensures Linked(None)
      ensures filed == if order.terms.id in old(filed).vals
                       then Put(old(filed), order.terms.id, old(filed).vals[order.terms.id].(order := order.State()))
                       else old(filed)
    {
      var id := order.terms.id;
      if id in filed.vals {
        filed := Put(filed, id, filed.vals[id].(order := order.State()));
      }
    }

    /** Whether an opposing position at least as large as the order is open. */
    predicate Reducible(order: OrderObject)
      reads this, account
    {
      var pos := Get(account.positions, order.terms.symbol);
      pos.Some? && pos.value.side != order.terms.side && pos.value.qty >= order.terms.qty
    }

    /** Accepts the order into the working orders, or rejects it. */
    method Submit(order: OrderObject, now: int)
      requires Valid() && Issued(order.terms.id, serial)
      requires order.terms.id in pending.vals ==> pending.vals[order.terms.id].order == order
      modifies this, order
      ensures Valid() && serial == old(serial) && orders <= old(orders) + {order}
      ensures model == Spec.Submit(old(model), old(order.State()), now)
      ensures order.status == if Spec.Acceptable(model.account, order.terms) then Accepted else Rejected
    {
      hide Spec.Submit, AllIssued;
      var rejected := order.terms.qty <= 0.0 || (order.terms.reduceOnly && !Reducible(order));
      SubmitFiles(model, order.State(), now);
      model := Spec.Submit(model, order.State(), now);
      order.status := if rejected then Rejected else Accepted;
      LinkedAfter(order);
      hide Linked;
      if !rejected {
        File(order, now);
      } else {
        Restate(order);
      }
    }

    method Cancel(id: OrderId) returns (found: bool)
      requires Valid()
      modifies this, orders
      ensures Valid() && orders == old(orders) && serial == old(serial)
      ensures model == Spec.Cancel(old(model), id)
      ensures found == (id in old(pending).vals)
    {
      if id !in pending.vals { return false; }
      var order := pending.vals[id].order;
      CancelDrops(model, id);
      hide Spec.Cancel;
      model := Spec.Cancel(model, id);
      order.status := Cancelled;
      LinkedAfter(order);
      StillIssued(filed, id, filed.vals[id], serial);
      hide Linked, AllIssued;
      Drop(id);
      return true;
    }

    /** The ids of the working orders of one symbol, or of all. */
    method WorkingIn(symbol: Option<Symbol>) returns (ids: seq<OrderId>)
      requires Valid()
      ensures ids == Spec.WorkingIn(model.pending, symbol, model.pending.keys)
    {
      ids := [];
      var i := |pending.keys|;
      while i > 0
        invariant 0 <= i <= |pending.keys|
        invariant ids == Spec.WorkingIn(model.pending, symbol, pending.keys[i..])
      {
        i := i - 1;
        var id := pending.keys[i];
        assert pending.keys[i..][0] == id && pending.keys[i..][1..] == pending.keys[i + 1..];
        assert id in pending.vals && filed.vals[id].order == pending.vals[id].order.State();
        if symbol.None? || pending.vals[id].order.terms.symbol == symbol.value {
          ids := [id] + ids;
        }
      }
      assert pending.keys[0..] == pending.keys;
    }

    /** Cancels the working orders of one symbol, or all of them. */
    method CancelAll(symbol: Option<Symbol>) returns (count: nat)
      requires Valid()
      modifies this, orders
      ensures Valid() && orders == old(orders) && serial == old(serial)
      ensures model == Spec.CancelAll(old(model), symbol)
      ensures count == |Spec.WorkingIn(old(model).pending, symbol, old(model).pending.keys)|
    {
      hide Spec.Cancel;
      var ids := WorkingIn(symbol);
      for i := 0 to |ids|
        invariant Valid() && orders == old(orders) && serial == old(serial)
        invariant Spec.CancelEach(model, ids[i..]) == Spec.CancelAll(old(model), symbol)
      {
        assert ids[i..][0] == ids[i] && ids[i..][1..] == ids[i + 1..];
        var found := Cancel(ids[i]);
      }
      return |ids|;
    }

    /** Hands a fill to the account, and attaches the order's protections to a position on its side. */
    method Apply(terms: Terms, fill: Fill)
      modifies account
      ensures account.View() == Spec.Attach(Accounting.ApplyFill(old(account.View()), fill, terms.leverage), terms)
    {
      hide Accounting.ApplyFill, Accounting.Protect;
      var affected := account.ApplyFill(fill, terms.leverage);
      var pos := Get(account.positions, terms.symbol);
      if pos.Some? && pos.value.side == terms.side {
        account.SetProtections(terms.symbol, terms.attachStopLoss, terms.attachTakeProfit);
      }
    }

    /** `_settle`: hands a fill to the account, attaches the order's protections to a position
        on its side, and drops the order once it is terminal. */
    method Settle(order: OrderObject, fill: Option<Fill>, status: OrderStatus) returns (fills: seq<Fill>)
      requires Linked(Some(order.terms.id))
      requires order.terms.id in pending.vals ==> pending.vals[order.terms.id].order == order
      modifies this`pending, this`filed, account, order
      ensures Linked(None)
      ensures order.State() == old(order.State()).(status := status)
      ensures var id := order.terms.id;
              filed == if status.Terminal() then Del(old(filed), id)
                       else if id in old(filed).vals then Put(old(filed), id, old(filed).vals[id].(order := order.State()))
                       else old(filed)
      ensures account.View()
              == if fill.None? then old(account.View())
                 else Spec.Attach(Accounting.ApplyFill(old(account.View()), fill.value, order.terms.leverage), order.terms)
      ensures fills == if fill.None? then [] else [fill.value]
    {
      hide Accounting.ApplyFill, Spec.Attach;
      fills := [];
      if fill.Some? {
        fills := [fill.value];
        Apply(order.terms, fill.value);
      }
      order.status := status;
      LinkedAfter(order);
      hide Linked;
      if order.status.Terminal() {
        Drop(order.terms.id);
      } else {
        Restate(order);
      }
    }

    /** `try_fill`, then `_settle`, for one order: a working one, or a protection exit. */
    method Execute(order: OrderObject, book: BookTop) returns (fills: seq<Fill>, raised: bool)
      requires Valid()
      requires order.terms.id in pending.vals ==> pending.vals[order.terms.id].order == order
      modifies this, account, order
      ensures Valid() && orders == old(orders) && serial == old(serial)
      ensures Spec.Tick(model, raised) == Spec.Settle(sim.config, old(model), old(order.State()), book)
      ensures model.log == old(model).log + Entries(fills)
    {
      hide Fills.TryFill, Accounting.ApplyFill, Spec.Attach;
      SettlesIssued(sim.config, model, order.State(), book);
      model := Spec.Settle(sim.config, model, order.State(), book).engine;
      var result := sim.TryFill(order, book);
      LinkedAfter(order);
      hide Linked, AllIssued;
      raised := result.AssertionError?;
      if raised {
        fills := [];
        Restate(order);
      } else {
        fills := Settle(order, result.fill, result.orderStatus);
      }
    }

    /** Feeds one snapshot; returns the fills it produced, or that an assertion was raised. */
    method OnBook(book: BookTop) returns (fills: seq<Fill>, raised: bool)
      requires Valid()
      modifies this, account, orders
      ensures Valid() && orders == old(orders)
      ensures Spec.Tick(model, raised) == Spec.OnBook(sim.config, old(model), book)
      ensures if raised then fills == [] else model.log == old(model).log + Entries(fills)
    {
      assert Entries([]) == [];
      hide Spec.Settle, Spec.CheckProtections, Entries;
      fills := [];
      var ids := pending.keys;
      for i := 0 to |ids|
        invariant Valid() && orders == old(orders)
        invariant Spec.Sweep(sim.config, model, ids[i..], book) == Spec.Sweep(sim.config, old(model), ids, book)
        invariant model.log == old(model).log + Entries(fills)
      {
        assert ids[i..][0] == ids[i] && ids[i..][1..] == ids[i + 1..];
        if ids[i] in pending.vals {
          var p := pending.vals[ids[i]];
          assert filed.vals[ids[i]].order == p.order.State();
          if p.order.terms.symbol == book.symbol && book.tsMs >= p.submittedMs + sim.config.latencyMs {
            var more, failed := Execute(p.order, book);
            EntriesConcat(old(model).log, fills, more);
            fills := fills + more;
            if failed { return [], true; }
          }
        }
      }
      var more := CheckProtections(book);
      EntriesConcat(old(model).log, fills, more);
      return fills + more, false;
    }

    /** Closes the position of the symbol when the mid has reached its stop loss or take profit. */
    method CheckProtections(book: BookTop) returns (fills: seq<Fill>)
      requires Valid()
      modifies this, account
      ensures Valid() && orders == old(orders)
      ensures model == Spec.CheckProtections(sim.config, old(model), book)
      ensures model.log == old(model).log + Entries(fills)
    {
      hide Spec.Settle;
      var found := Get(account.positions, book.symbol);
      if found.None? { return []; }
      var pos, mark, triggered := found.value, book.Mid(), false;
      if pos.side.Buy? {
        if pos.stopLoss.Some? && mark <= pos.stopLoss.value { triggered := true; }
        else if pos.takeProfit.Some? && mark >= pos.takeProfit.value { triggered := true; }
      } else {
        if pos.stopLoss.Some? && mark >= pos.stopLoss.value { triggered := true; }
        else if pos.takeProfit.Some? && mark <= pos.takeProfit.value { triggered := true; }
      }
      if !triggered { return []; }
      fills := Exit(pos, book);
    }

    /** Executes the reduce-only market exit of the whole position on this snapshot. */
    method Exit(pos: Position, book: BookTop) returns (fills: seq<Fill>)
      requires Valid()
      modifies this, account
      ensures Valid() && orders == old(orders)
      ensures var o := Spec.ExitOrder(pos, old(model).serial);
              model == Spec.Settle(sim.config,
                                   old(model).(serial := old(model).serial + 1,
                                               traces := old(model).traces[o.terms.id := Spec.Trace(o, book.tsMs, [], o)]),
                                   o, book).engine
      ensures model.log == old(model).log + Entries(fills)
    {
      hide Spec.Settle, AllIssued, Linked;
      NextIsUnused(filed, serial);
      LinkedIds();
      var exit := new OrderObject(MarketTerms(ProtectionExit(serial), pos.symbol, pos.side.Opposite(), pos.qty, true, RiskEngine));
      exit.status := Triggered;
      serial := serial + 1;
      model := model.(serial := serial,
                      traces := model.traces[exit.terms.id := Spec.Trace(exit.State(), book.tsMs, [], exit.State())]);
      var raised;
      fills, raised := Execute(exit, book);
    }

    /** Constructs and submits the market order that closes a position at its full size. */
    method SubmitClose(pos: Position, now: int) returns (o: OrderObject)
      requires Valid()
      modifies this
      ensures Valid() && fresh(o) && orders <= old(orders) + {o}
      ensures o.terms == Spec.CloseOrder(pos, old(serial)).terms && serial == old(serial) + 1
      ensures model == Spec.Submit(old(model).(serial := old(model).serial + 1), Spec.CloseOrder(pos, old(model).serial), now)
    {
      NextIsUnused(filed, serial);
      hide AllIssued;
      o := new OrderObject(MarketTerms(FlattenClose(serial), pos.symbol, pos.side.Opposite(), pos.qty, true, KillSwitch));
      assert o.terms.id !in pending.vals;
      hide Linked;
      serial := serial + 1;
      model := model.(serial := serial);
      Submit(o, now);
    }

    /** Cancels everything and submits a full-size market close for every open position. */
    method FlattenAll(now: int) returns (closes: seq<OrderObject>)
      requires Valid()
      modifies this, orders
      ensures Valid() && fresh(orders - old(orders))
      ensures model == Spec.FlattenAll(old(model), now)
      ensures ClosesOf(closes, old(account.positions), old(account.positions).keys, old(serial))
    {
      hide Spec.Submit, Spec.CloseOrder, Spec.WorkingIn, ClosesOf, Linked, AllIssued;
      NoCloses(account.positions, serial);
      ghost var positions := account.positions;
      var count := CancelAll(None);
      closes := [];
      var symbols := account.positions.keys;
      for i := 0 to |symbols|
        invariant Valid() && fresh(orders - old(orders))
        invariant ClosesOf(closes, positions, symbols[..i], old(serial)) && serial == old(serial) + i
        invariant model.account == old(model).account
        invariant account.positions == positions
        invariant Spec.FlattenEach(model, symbols[i..], now) == Spec.FlattenAll(old(model), now)
      {
        assert symbols[i..][0] == symbols[i] && symbols[i..][1..] == symbols[i + 1..];
        var o := SubmitClose(account.positions.vals[symbols[i]], now);
        OneMoreClose(closes, positions, symbols, i, old(serial), o);
        closes := closes + [o];
      }
    }
  }
}
