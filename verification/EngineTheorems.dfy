/** What the invariant of module EngineRuns means to the users of the engine. */
module EngineTheorems {
  import opened Prelude
  import opened Models
  import opened Fills
  import opened OrderLife
  import opened Accounting
  import opened EngineSpec
  import opened EngineRuns

  // ---- Orders -----------------------------------------------------------------------

  /** The whole contract of one order, whoever submitted it and whatever happened to it. */
  ghost predicate OrderContract(cfg: FillConfig, e: Engine, id: OrderId)
    requires id in e.traces
  {
    var tr, fills := e.traces[id], FillsOf(e.log, id);
    var o := tr.last;
    && o.filledQty == FilledBy(fills) >= 0.0
    && (o.terms.qty > 0.0 ==> o.filledQty <= o.terms.qty)
    && (o.status.Filled? <==> o.terms.qty > 0.0 && o.Remaining() == 0.0)
    && (id in e.pending.vals <==> !o.status.Terminal())
    && (id in e.pending.vals ==> o.Remaining() > 0.0 && e.pending.vals[id].order == o)
    && (forall f :: f in fills ==>
          && f.qty > 0.0 && f.symbol == o.terms.symbol && f.side == o.terms.side
          && (id.ProtectionExit? || f.tsMs >= tr.submittedMs + cfg.latencyMs)
          && Honest(cfg, o.terms, tr.seen, f))
  }

  lemma SoundOrderContract(cfg: FillConfig, e: Engine, id: OrderId)
    requires Sound(cfg, e) && id in e.traces
    ensures OrderContract(cfg, e, id)
  {
    hide Refines, Live, ShownWhileWorking, FillsOf, HonestAt, Launched;
    assert TraceOk(cfg, e, id);
    var tr, fills := e.traces[id], FillsOf(e.log, id);
    if Worked(cfg, tr, fills) {
      LifeIsSound(cfg, tr.initial, tr.seen);
      LifeIsHonest(cfg, tr.initial, tr.seen);
      WorkedHasQty(cfg, tr, fills);
      forall f | f in fills
        ensures id.ProtectionExit? || f.tsMs >= tr.submittedMs + cfg.latencyMs
      {
        var j: nat :| j < |tr.seen| && HonestAt(cfg, tr.initial.terms, tr.seen, j, f);
        HonestTime(cfg, tr.initial.terms, tr.seen, j, f);
        assert tr.seen[j] in tr.seen;
      }
    } else {
      TurnedAwayQty(tr, fills);
    }
  }

  lemma WorkedHasQty(cfg: FillConfig, tr: Trace, fills: seq<Fill>)
    requires Worked(cfg, tr, fills)
    ensures tr.initial.terms.qty > 0.0
  {
  }

  lemma TurnedAwayQty(tr: Trace, fills: seq<Fill>)
    requires TurnedAway(tr, fills)
    ensures FilledBy(fills) == 0.0 == tr.last.filledQty
  {
  }

  lemma HonestTime(cfg: FillConfig, t: Terms, seen: seq<BookTop>, j: nat, f: Fill)
    requires j < |seen| && HonestAt(cfg, t, seen, j, f)
    ensures f.tsMs == seen[j].tsMs
  {
  }

  ghost predicate Unchanged(e: Engine, e': Engine, id: OrderId) {
    id in e.traces && id in e'.traces && e'.traces[id] == e.traces[id] && FillsOf(e'.log, id) == FillsOf(e.log, id)
  }

  ghost predicate Ended(e: Engine, id: OrderId) { id in e.traces && e.traces[id].last.status.Terminal() }

  lemma EndedNotPending(cfg: FillConfig, e: Engine, id: OrderId)
    requires OrdersTracked(cfg, e) && Ended(e, id)
    ensures id !in e.pending.vals
  {
    hide Worked, TurnedAway, SeenInTime, FillsOf;
    assert TraceOk(cfg, e, id);
  }

  lemma {:induction false} CancelEachLeaves(cfg: FillConfig, e: Engine, ids: seq<OrderId>, id: OrderId)
    requires OrdersTracked(cfg, e) && Ended(e, id)
    ensures Unchanged(e, CancelEach(e, ids), id)
    decreases |ids|
  {
    hide TraceOk, FillsOf;
    if ids != [] {
      EndedNotPending(cfg, e, id);
      CancelTracked(cfg, e, ids[0]);
      if ids[0] in e.pending.vals { WorkingAtWork(cfg, e, ids[0]); }
      CancelEachLeaves(cfg, Cancel(e, ids[0]), ids[1..], id);
    }
  }

  lemma VisitLeaves(cfg: FillConfig, e: Engine, x: OrderId, b: BookTop, id: OrderId)
    requires OrdersTracked(cfg, e) && Ended(e, id)
    ensures Unchanged(e, Visit(cfg, e, x, b).engine, id)
  {
    hide TraceOk, FillsOf, Settle, TryFill, Worked, SoundAttempt;
    if x in e.pending.vals && Eligible(cfg, e.pending.vals[x], b) {
      EndedNotPending(cfg, e, id);
      WorkingAtWork(cfg, e, x);
      var o := e.pending.vals[x].order;
      TryFillSound(cfg, o, b);
      SettleShape(cfg, e, o, b, FillsOf(e.log, x));
    }
  }

  lemma {:induction false} SweepLeaves(cfg: FillConfig, e: Engine, ids: seq<OrderId>, b: BookTop, id: OrderId)
    requires Sound(cfg, e) && Ended(e, id)
    ensures Unchanged(e, Sweep(cfg, e, ids, b).engine, id)
    decreases |ids|
  {
    hide Sound, Visit, FillsOf;
    if ids != [] {
      assert OrdersTracked(cfg, e) by { SoundTracks(cfg, e); }
      VisitSound(cfg, e, ids[0], b);
      VisitLeaves(cfg, e, ids[0], b, id);
      var t := Visit(cfg, e, ids[0], b);
      if !t.raised { SweepLeaves(cfg, t.engine, ids[1..], b, id); }
    }
  }

  lemma ProtectionsLeave(cfg: FillConfig, e: Engine, b: BookTop, id: OrderId)
    requires Sound(cfg, e) && Ended(e, id)
    ensures Unchanged(e, CheckProtections(cfg, e, b), id)
  {
    hide Sound, FillsOf, TryFill, SoundAttempt, Settle, ProtectionHit, OrdersTracked, Refines;
    SoundTracks(cfg, e);
    if b.symbol in e.account.positions.vals && ProtectionHit(e.account.positions.vals[b.symbol], b.Mid()) {
      var p := e.account.positions.vals[b.symbol];
      OpenPosition(e.account, LedgerOf(e.log), b.symbol);
      UnusedSerial(cfg, e);
      var o := ExitOrder(p, e.serial);
      var started := e.(serial := e.serial + 1, traces := e.traces[o.terms.id := Trace(o, b.tsMs, [], o)]);
      TryFillSound(cfg, o, b);
      SettleShape(cfg, started, o, b, FillsOf(e.log, o.terms.id));
    }
  }

  lemma {:induction false} FlattenEachLeaves(cfg: FillConfig, e: Engine, symbols: seq<Symbol>, now: int, id: OrderId)
    requires OrdersTracked(cfg, e) && Ended(e, id) && forall s :: s in symbols ==> s in e.account.positions.vals
    ensures Unchanged(e, FlattenEach(e, symbols, now), id)
    decreases |symbols|
  {
    hide TraceOk, FillsOf;
    if symbols != [] {
      UnusedSerial(cfg, e);
      FlattenEachTracked(cfg, e, [symbols[0]], now);
      var o := CloseOrder(e.account.positions.vals[symbols[0]], e.serial);
      var e' := Submit(e.(serial := e.serial + 1), o, now);
      assert FlattenEach(e, [symbols[0]], now) == FlattenEach(e', [], now);
      FlattenEachLeaves(cfg, e', symbols[1..], now, id);
    }
  }

  /** An ended order that its caller submits once more works again exactly when it would
      be accepted as a new one. */
  lemma ResubmittedWorksAgain(cfg: FillConfig, e: Engine, id: OrderId, now: int)
    requires Sound(cfg, e) && Ended(e, id)
    ensures var o := e.traces[id].last;
            id in Submit(e, o, now).pending.vals <==> Acceptable(e.account, o.terms)
  {
    EndedNotPending(cfg, e, id);
  }

  /** A filled, cancelled or rejected order never fills or changes again, whatever happens, as long
      as callers submit new orders only: `submit` would accept the ended one afresh. */
  lemma EndedIsFinal(cfg: FillConfig, e: Engine, a: Action, id: OrderId)
    requires Sound(cfg, e) && Admissible(e, a) && Ended(e, id)
    ensures Unchanged(e, Step(cfg, e, a), id)
  {
    hide OrdersTracked, FillsOf;
    match a {
      case SubmitOrder(o, now) =>
      case CancelOrder(x) =>
        assert CancelEach(e, [x]) == CancelEach(Cancel(e, x), []);
        CancelEachLeaves(cfg, e, [x], id);
      case CancelOrders(symbol) => CancelEachLeaves(cfg, e, WorkingIn(e.pending, symbol, e.pending.keys), id);
      case Book(b) =>
        var t := Sweep(cfg, e, e.pending.keys, b);
        SweepSound(cfg, e, e.pending.keys, b);
        SweepLeaves(cfg, e, e.pending.keys, b, id);
        if !t.raised { ProtectionsLeave(cfg, t.engine, b, id); }
      case Flatten(now) =>
        var ids := WorkingIn(e.pending, None, e.pending.keys);
        CancelEachTracked(cfg, e, ids);
        CancelEachLeaves(cfg, e, ids, id);
        var c := CancelAll(e, None);
        FlattenEachLeaves(cfg, c, c.account.positions.keys, now, id);
      case Funding(symbol, rate, mark) =>
        FillsOfAppend(e.log, Funded(symbol, rate, mark), id);
    }
  }

  // ---- Histories grow -------------------------------------------------------------------------

  /** Trades and log entries are only ever appended. */
  ghost predicate Extends(e: Engine, e': Engine) {
    && |e.log| <= |e'.log| && e'.log[..|e.log|] == e.log
    && |e.account.closed| <= |e'.account.closed| && e'.account.closed[..|e.account.closed|] == e.account.closed
  }

  lemma ExtendsTransitive(e: Engine, f: Engine, g: Engine)
    requires Extends(e, f) && Extends(f, g)
    ensures Extends(e, g)
  {
    assert g.log[..|e.log|] == g.log[..|f.log|][..|e.log|];
    assert g.account.closed[..|e.account.closed|] == g.account.closed[..|f.account.closed|][..|e.account.closed|];
  }

  lemma SettleExtends(cfg: FillConfig, e: Engine, o: Order, b: BookTop)
    ensures Extends(e, Settle(cfg, e, o, b).engine)
  {
    hide TryFill, Opened, Added, Reduced;
    var t := TryFill(cfg, o, b);
    if t.Done? && t.fill.Some? { ApplyFillExtends(e.account, t.fill.value, o.terms.leverage); }
    hide ApplyFill;
  }

  lemma ApplyFillExtends(a: Account, f: Fill, leverage: real)
    ensures var a' := ApplyFill(a, f, leverage);
            |a.closed| <= |a'.closed| && a'.closed[..|a.closed|] == a.closed
  {
    hide AddedTo, RealizedBy, SlippageCost;
  }

  lemma {:induction false} SweepExtends(cfg: FillConfig, e: Engine, ids: seq<OrderId>, b: BookTop)
    ensures Extends(e, Sweep(cfg, e, ids, b).engine)
    decreases |ids|
  {
    hide Settle;
    if ids != [] {
      if ids[0] in e.pending.vals { SettleExtends(cfg, e, e.pending.vals[ids[0]].order, b); }
      var t := Visit(cfg, e, ids[0], b);
      SweepExtends(cfg, t.engine, ids[1..], b);
      ExtendsTransitive(e, t.engine, Sweep(cfg, t.engine, ids[1..], b).engine);
    }
  }

  lemma BookExtends(cfg: FillConfig, e: Engine, b: BookTop)
    ensures Extends(e, OnBook(cfg, e, b).engine)
  {
    hide Settle, Sweep;
    SweepExtends(cfg, e, e.pending.keys, b);
    var f := Sweep(cfg, e, e.pending.keys, b).engine;
    if b.symbol in f.account.positions.vals {
      var o := ExitOrder(f.account.positions.vals[b.symbol], f.serial);
      var started := f.(serial := f.serial + 1, traces := f.traces[o.terms.id := Trace(o, b.tsMs, [], o)]);
      SettleExtends(cfg, started, o, b);
      ExtendsTransitive(e, f, Settle(cfg, started, o, b).engine);
    }
  }

  // ---- Money ------------------------------------------------------------------------------

  /** In every run the reported equity and exposure are what the naive ledger of fees, funding,
      spending and inventory says; the balance is the starting balance plus closed profit plus what
      the open positions have realized, paid and been charged; and every fee, funding payment, cost of
      slippage and quantity traded is booked to one position. */
  lemma EveryRunBalances(cfg: FillConfig, starting: real, actions: seq<Action>, marks: map<Symbol, real>)
    requires Proper(cfg, NewEngine(NewAccount(starting)), actions)
    ensures var e := Run(cfg, NewEngine(NewAccount(starting)), actions);
            var l := LedgerOf(e.log);
            && Equity(e.account, marks)
               == starting - l.fees + l.funding - l.spent
                  + InventoryValue(l, e.account.positions.keys, MarksOrEntries(e.account, marks))
            && Exposure(e.account, marks) == GrossValue(l, e.account.positions.keys, MarksOrEntries(e.account, marks))
            && (forall s :: s in e.account.positions.keys <==> l.Holding(s) != 0.0)
            && e.account.balance == starting + PnlTotal(e.account.closed) + Total(Carried, e.account.positions)
            && (forall t :: t in e.account.closed ==> t.position.qty == 0.0)
            && Attributed(e.account, l)
  {
    RunSound(cfg, starting, actions);
    var e := Run(cfg, NewEngine(NewAccount(starting)), actions);
    EquityIsCashPlusInventory(e.account, LedgerOf(e.log), marks);
    ExposureIsGross(e.account, LedgerOf(e.log), marks);
  }

  // ---- Protections --------------------------------------------------------------------------

  /** The mid is strictly between the stop loss and the take profit the position has. */
  predicate InsideProtections(p: Position, mid: real) {
    if p.side.Buy? then
      (p.stopLoss.Some? ==> mid > p.stopLoss.value) && (p.takeProfit.Some? ==> mid < p.takeProfit.value)
    else
      (p.stopLoss.Some? ==> mid < p.stopLoss.value) && (p.takeProfit.Some? ==> mid > p.takeProfit.value)
  }

  /** An opposite fill of exactly the position's size closes it: one trade, nothing left. */
  lemma FullCloseRemoves(a: Account, f: Fill, leverage: real)
    requires f.symbol in a.positions.vals
    requires var p := a.positions.vals[f.symbol]; p.symbol == f.symbol && p.side != f.side && p.qty == f.qty
    ensures var a', p := ApplyFill(a, f, leverage), a.positions.vals[f.symbol];
            && a'.positions == Del(a.positions, f.symbol)
            && a'.closed == a.closed + [ClosedTrade(ReducedBy(Charged(p, f), f), f.price, f.tsMs,
                                                    Carried(ReducedBy(Charged(p, f), f)))]
  {
  }

  /** The position `p` was closed on the snapshot `b` by the fill `f`, whole and at once. */
  ghost predicate ExitedBy(e: Engine, e': Engine, p: Position, b: BookTop, f: Fill) {
    && f.orderId == ProtectionExit(e.serial) && f.symbol == b.symbol && f.side == p.side.Opposite() && f.qty == p.qty
    && f.tsMs == b.tsMs && f.role.Taker? && f.orderId in e'.traces
    && (var t := e'.traces[f.orderId].initial.terms; t.kind.Market? && t.reduceOnly && t.source.RiskEngine?)
    && e'.log == e.log + [Traded(f)] && e'.account.positions == Del(e.account.positions, b.symbol)
    && |e'.account.closed| == |e.account.closed| + 1 && e'.account.closed[..|e.account.closed|] == e.account.closed
    && var t := e'.account.closed[|e.account.closed|];
       t.exitPrice == f.price && t.closedMs == b.tsMs && t.position.symbol == p.symbol && t.position.side == p.side
       && t.position.stopLoss == p.stopLoss && t.position.takeProfit == p.takeProfit
  }

  /** While the mid is strictly inside the protections of the position, the check does nothing at all;
      otherwise it closes the position, whole, on this very snapshot. */
  lemma ProtectionsActExactly(cfg: FillConfig, e: Engine, b: BookTop)
    requires b.symbol in e.account.positions.vals ==> e.account.positions.vals[b.symbol].symbol == b.symbol
    ensures var e', s := CheckProtections(cfg, e, b), b.symbol;
            if s in e.account.positions.vals && !InsideProtections(e.account.positions.vals[s], b.Mid())
            then exists f :: ExitedBy(e, e', e.account.positions.vals[s], b, f)
            else e' == e
  {
    if b.symbol in e.account.positions.vals && ProtectionHit(e.account.positions.vals[b.symbol], b.Mid()) {
      var p := e.account.positions.vals[b.symbol];
      var o := ExitOrder(p, e.serial);
      var t := TryFill(cfg, o, b);
      FullCloseRemoves(e.account, t.fill.value, o.terms.leverage);
      hide ApplyFill;
      assert ExitedBy(e, CheckProtections(cfg, e, b), p, b, t.fill.value);
    }
  }

  /** What a fill makes of the position it meets. Where none is open, and with the rest where it is larger
      than an opposite one, it opens one of its side at its price, unprotected, with the leverage of its
      order; otherwise side, leverage, opening time and protections stay, and only a fill of the same side
      moves the average entry, to the mean weighted by quantity. */
  lemma PositionAfterFill(a: Account, f: Fill, leverage: real)
    requires WellFormed(a) && f.qty > 0.0
    ensures var s, after := f.symbol, Get(ApplyFill(a, f, leverage).positions, f.symbol);
            var before := Get(a.positions, s);
            var opens := before.None? || (before.value.side != f.side && f.qty > before.value.qty);
            if opens then
              var q := if before.None? then f.qty else f.qty - before.value.qty;
              after == Some(Position(s, f.side, q, f.price, leverage, q, 0.0, if before.None? then f.fee else 0.0, 0.0,
                                     if before.None? then SlippageCost(f) else 0.0, None, None, f.tsMs))
            else if before.value.side != f.side && f.qty == before.value.qty then after.None?
            else
              && after.Some?
              && var p, p' := before.value, after.value;
                 && p'.side == p.side && p'.leverage == p.leverage && p'.openedMs == p.openedMs
                 && p'.stopLoss == p.stopLoss && p'.takeProfit == p.takeProfit
                 && p'.qty == (if p.side == f.side then p.qty + f.qty else p.qty - f.qty)
                 && (p.side != f.side ==> p'.avgEntry == p.avgEntry)
                 && (p.side == f.side ==> p'.avgEntry * (p.qty + f.qty) == p.avgEntry * p.qty + f.price * f.qty)
  {
    hide SlippageCost, ApplyFill;
    if f.symbol !in a.positions.vals {
      FillOpens(a, f, leverage);
    } else if a.positions.vals[f.symbol].side == f.side {
      FillAddsTo(a, f, leverage);
    } else {
      FillOpposes(a, f, leverage);
    }
  }

  lemma FillOpens(a: Account, f: Fill, leverage: real)
    requires f.symbol !in a.positions.vals
    ensures Get(ApplyFill(a, f, leverage).positions, f.symbol) == Some(OpenFrom(f, f.qty, leverage, f.fee, SlippageCost(f)))
  {
  }

  lemma FillAddsTo(a: Account, f: Fill, leverage: real)
    requires f.symbol in a.positions.vals && a.positions.vals[f.symbol].side == f.side
    requires a.positions.vals[f.symbol].qty > 0.0 && f.qty > 0.0
    ensures var p, after := a.positions.vals[f.symbol], Get(ApplyFill(a, f, leverage).positions, f.symbol);
            && after.Some?
            && var p' := after.value;
               && p'.side == p.side && p'.leverage == p.leverage && p'.openedMs == p.openedMs
               && p'.stopLoss == p.stopLoss && p'.takeProfit == p.takeProfit && p'.qty == p.qty + f.qty
               && p'.avgEntry * (p.qty + f.qty) == p.avgEntry * p.qty + f.price * f.qty
  {
    hide SlippageCost;
    var p := a.positions.vals[f.symbol];
    DivCancels(p.avgEntry * p.qty + f.price * f.qty, p.qty + f.qty);
  }

  lemma FillOpposes(a: Account, f: Fill, leverage: real)
    requires WellFormed(a) && f.qty > 0.0
    requires f.symbol in a.positions.vals && a.positions.vals[f.symbol].side != f.side
    ensures var p, after := a.positions.vals[f.symbol], Get(ApplyFill(a, f, leverage).positions, f.symbol);
            if f.qty > p.qty then after == Some(OpenFrom(f, f.qty - p.qty, leverage, 0.0, 0.0))
            else if f.qty == p.qty then after.None?
            else after.Some? && after.value == ReducedBy(Charged(p, f), f) && after.value.qty == p.qty - f.qty
  {
    hide SlippageCost, RealizedBy;
    assert Reduced(a, f).positions.vals[f.symbol].qty
           == a.positions.vals[f.symbol].qty - Min(a.positions.vals[f.symbol].qty, f.qty);
  }

  lemma CheckedProtectionsHold(cfg: FillConfig, e: Engine, b: BookTop)
    requires b.symbol in e.account.positions.vals ==> e.account.positions.vals[b.symbol].symbol == b.symbol
    ensures var e' := CheckProtections(cfg, e, b);
            b.symbol in e'.account.positions.vals ==> InsideProtections(e'.account.positions.vals[b.symbol], b.Mid())
  {
    hide CheckProtections, InsideProtections;
    ProtectionsActExactly(cfg, e, b);
  }

  lemma CompletedBookProtects(cfg: FillConfig, e: Engine, b: BookTop)
    requires Sound(cfg, e) && !OnBook(cfg, e, b).raised
    ensures var a := OnBook(cfg, e, b).engine.account;
            b.symbol in a.positions.vals ==> InsideProtections(a.positions.vals[b.symbol], b.Mid())
  {
    hide CheckProtections, InsideProtections, Sound, Sweep;
    SweepSound(cfg, e, e.pending.keys, b);
    var t := Sweep(cfg, e, e.pending.keys, b);
    if b.symbol in t.engine.account.positions.vals {
      SoundTracks(cfg, t.engine);
      OpenPosition(t.engine.account, LedgerOf(t.engine.log), b.symbol);
    }
    CheckedProtectionsHold(cfg, t.engine, b);
  }

  // ---- Reduce-only ----------------------------------------------------------------------------

  /** `x` lies between zero and `y`. */
  predicate Between(x: real, y: real) { if y >= 0.0 then 0.0 <= x <= y else y <= x <= 0.0 }

  /** A reduce-only order is accepted exactly when, filled whole at that moment, it would leave the net
      quantity of its symbol between zero and what it was; any other order when its quantity is positive. */
  lemma AcceptedExactly(e: Engine, o: Order, now: int)
    requires WellFormed(e.account)
    ensures var t, held := o.terms, HeldIn(e.account, o.terms.symbol);
            var accepted := t.qty > 0.0
                            && (t.reduceOnly ==> Between(held + if t.side.Buy? then t.qty else -t.qty, held));
            && (Acceptable(e.account, t) <==> accepted)
            && t.id in Submit(e, o, now).traces
            && Submit(e, o, now).traces[t.id].last.status == (if accepted then Accepted else Rejected)
            && (t.id !in e.pending.vals ==> (t.id in Submit(e, o, now).pending.vals <==> accepted))
  {
  }

  /** A fill leaves the net quantity of its symbol between zero and what it was exactly when an
      opposite position at least as large is open at that moment. The engine tests this when a
      reduce-only order is submitted (`AcceptedExactly`), and not again when it fills. */
  lemma FillReducesExactly(a: Account, f: Fill, leverage: real)
    requires WellFormed(a) && f.qty > 0.0
    ensures Between(HeldIn(ApplyFill(a, f, leverage), f.symbol), HeldIn(a, f.symbol)) <==>
              f.symbol in a.positions.vals && a.positions.vals[f.symbol].side != f.side
              && a.positions.vals[f.symbol].qty >= f.qty
  {
    hide ApplyFill;
    FillKeepsShape(a, f, leverage);
  }

  // ---- Cancelling and attaching -------------------------------------------------------------------

  /** Cancelling all orders of a symbol, or all orders, leaves exactly the working orders of the other
      symbols, as they were, and touches neither account nor log. */
  lemma CancelsExactly(e: Engine, symbol: Option<Symbol>)
    ensures var c := CancelAll(e, symbol);
            && (forall id :: id in c.pending.vals <==>
                  id in e.pending.vals && symbol.Some? && e.pending.vals[id].order.terms.symbol != symbol.value)
            && (forall id :: id in c.pending.vals ==> c.pending.vals[id] == e.pending.vals[id])
            && c.account == e.account && c.log == e.log && c.serial == e.serial
  {
    var ids := WorkingIn(e.pending, symbol, e.pending.keys);
    WorkingInExactly(e.pending, symbol, e.pending.keys);
    hide WorkingIn;
    CancelEachExactly(e, ids);
    assert forall id :: id in e.pending.keys <==> id in e.pending.vals;
  }

  lemma {:induction false} WorkingInExactly(d: Dict<OrderId, Pending>, symbol: Option<Symbol>, keys: seq<OrderId>)
    requires forall k :: k in keys ==> k in d.vals
    ensures forall id :: id in WorkingIn(d, symbol, keys) <==>
              id in keys && (symbol.None? || d.vals[id].order.terms.symbol == symbol.value)
  {
    if keys != [] { WorkingInExactly(d, symbol, keys[1..]); }
  }

  lemma {:induction false} CancelEachExactly(e: Engine, ids: seq<OrderId>)
    ensures var c := CancelEach(e, ids);
            && (forall id :: id in c.pending.vals <==> id in e.pending.vals && id !in ids)
            && (forall id :: id in c.pending.vals ==> c.pending.vals[id] == e.pending.vals[id])
            && c.account == e.account && c.log == e.log && c.serial == e.serial
    decreases |ids|
  {
    if ids != [] {
      var d := Cancel(e, ids[0]);
      CancelEachExactly(d, ids[1..]);
      assert forall id :: id in ids <==> id == ids[0] || id in ids[1..];
    }
  }

  /** A fill attaches the protections its order carries, both of them, to the position that it leaves
      on the order's side, and to no other; a protection the order does not carry stays as it was. */
  lemma AttachesExactly(cfg: FillConfig, e: Engine, o: Order, b: BookTop)
    requires TryFill(cfg, o, b).Done? && TryFill(cfg, o, b).fill.Some?
    ensures var t, s := o.terms, o.terms.symbol;
            var before := ApplyFill(e.account, TryFill(cfg, o, b).fill.value, t.leverage);
            var after := Settle(cfg, e, o, b).engine.account;
            && after.positions.keys == before.positions.keys && after.balance == before.balance && after.closed == before.closed
            && (forall x :: x in before.positions.vals ==>
                  x in after.positions.vals
                  && var p, q := before.positions.vals[x], after.positions.vals[x];
                     var own := x == s && p.side == t.side;
                     && q.stopLoss == (if own && t.attachStopLoss.Some? then t.attachStopLoss else p.stopLoss)
                     && q.takeProfit == (if own && t.attachTakeProfit.Some? then t.attachTakeProfit else p.takeProfit)
                     && q.(stopLoss := p.stopLoss, takeProfit := p.takeProfit) == p)
  {
    hide ApplyFill, TryFill;
  }
}
