/** What every run of the paper engine keeps: the account agrees with the naive ledger, and
    every order's whole history is the life that module OrderLife describes. */
module EngineRuns {
  import opened Prelude
  import opened Models
  import opened Fills
  import opened OrderLife
  import opened Accounting
  import opened EngineSpec

  datatype Action =
    | SubmitOrder(order: Order, now: int)
    | CancelOrder(id: OrderId)
    | CancelOrders(symbol: Option<Symbol>)
    | Book(book: BookTop)
    | Flatten(now: int)
    | Funding(fundedSymbol: Symbol, rate: real, mark: real)

  function Step(cfg: FillConfig, e: Engine, a: Action): Engine {
    match a
    case SubmitOrder(o, now) => Submit(e, o, now)
    case CancelOrder(id) => Cancel(e, id)
    case CancelOrders(symbol) => CancelAll(e, symbol)
    case Book(b) => OnBook(cfg, e, b).engine
    case Flatten(now) => FlattenAll(e, now)
    case Funding(symbol, rate, mark) => Fund(e, symbol, rate, mark)
  }

  /** Callers submit orders they have just constructed: a new uuid, nothing filled. */
  predicate Admissible(e: Engine, a: Action) {
    a.SubmitOrder? ==> a.order == NewOrder(a.order.terms) && a.order.terms.id.Caller? && a.order.terms.id !in e.traces
  }

  function Run(cfg: FillConfig, e: Engine, actions: seq<Action>): Engine {
    if actions == [] then e else Step(cfg, Run(cfg, e, actions[..|actions| - 1]), actions[|actions| - 1])
  }

  lemma RunPrefix(cfg: FillConfig, e: Engine, actions: seq<Action>, k: nat)
    requires k < |actions|
    ensures Run(cfg, e, actions[..k + 1]) == Step(cfg, Run(cfg, e, actions[..k]), actions[k])
  {
    assert actions[..k + 1][..k] == actions[..k];
  }

  ghost predicate Proper(cfg: FillConfig, e: Engine, actions: seq<Action>) {
    forall k :: 0 <= k < |actions| ==> Admissible(Run(cfg, e, actions[..k]), actions[k])
  }

  // ---- The invariant --------------------------------------------------------------

  function FillsOf(log: seq<Entry>, id: OrderId): seq<Fill> {
    if log == [] then []
    else
      var rest, x := FillsOf(log[..|log| - 1], id), log[|log| - 1];
      if x.Traded? && x.fill.orderId == id then rest + [x.fill] else rest
  }

  lemma FillsOfAppend(log: seq<Entry>, x: Entry, id: OrderId)
    ensures FillsOf(log + [x], id)
            == if x.Traded? && x.fill.orderId == id then FillsOf(log, id) + [x.fill] else FillsOf(log, id)
  {
    assert (log + [x])[..|log|] == log;
  }

  /** The order was turned away by `submit` and never worked. */
  ghost predicate TurnedAway(tr: Trace, fills: seq<Fill>) {
    tr.initial.status.Rejected? && tr.initial.filledQty == 0.0 && tr.last == tr.initial && tr.seen == [] && fills == []
  }

  /** The order worked: what it is and what it filled is its life over the snapshots it saw,
      except that it may have been cancelled while it was working. */
  ghost predicate Worked(cfg: FillConfig, tr: Trace, fills: seq<Fill>) {
    && Launched(tr.initial)
    && ShownWhileWorking(cfg, tr.initial, tr.seen)
    && var l := Live(cfg, tr.initial, tr.seen);
       && fills == l.fills
       && (tr.last == l.order || (!l.order.status.Terminal() && tr.last == l.order.(status := Cancelled)))
  }

  /** Only eligible snapshots reached the order; a protection exit is not delayed. */
  ghost predicate SeenInTime(cfg: FillConfig, tr: Trace) {
    forall b :: b in tr.seen ==>
      && b.symbol == tr.initial.terms.symbol
      && (tr.initial.terms.id.ProtectionExit? || b.tsMs >= tr.submittedMs + cfg.latencyMs)
  }

  ghost predicate TraceOk(cfg: FillConfig, e: Engine, id: OrderId)
    requires id in e.traces
  {
    var tr := e.traces[id];
    && tr.initial.terms.id == id
    && tr.last.terms == tr.initial.terms
    && (TurnedAway(tr, FillsOf(e.log, id)) || Worked(cfg, tr, FillsOf(e.log, id)))
    && SeenInTime(cfg, tr)
    && (id in e.pending.vals <==> !tr.last.status.Terminal())
    && (id in e.pending.vals ==> e.pending.vals[id] == Pending(tr.last, tr.submittedMs) && !id.ProtectionExit?)
    && (id.FlattenClose? || id.ProtectionExit? ==> id.n < e.serial)
  }

  ghost predicate OrdersTracked(cfg: FillConfig, e: Engine) {
    && (forall id :: id in e.traces ==> TraceOk(cfg, e, id))
    && (forall id :: id !in e.traces ==> FillsOf(e.log, id) == [] && id !in e.pending.vals)
  }

  /** Every order but `id` is tracked; `id` is known. */
  ghost predicate RestTracked(cfg: FillConfig, e: Engine, id: OrderId) {
    && (forall x :: x in e.traces && x != id ==> TraceOk(cfg, e, x))
    && (forall x :: x !in e.traces && x != id ==> FillsOf(e.log, x) == [] && x !in e.pending.vals)
  }

  ghost predicate Sound(cfg: FillConfig, e: Engine) {
    && Refines(e.account, LedgerOf(e.log))
    && OrdersTracked(cfg, e)
  }

  lemma NewEngineSound(cfg: FillConfig, starting: real)
    ensures Sound(cfg, NewEngine(NewAccount(starting)))
  {
    assert LedgerOf([]) == Ledger(0.0, 0.0, 0.0, map[], 0.0, 0.0);
  }

  // ---- Preservation -------------------------------------------------------------------

  lemma LedgerExtends(log: seq<Entry>, x: Entry)
    ensures LedgerOf(log + [x]) == LedgerOf(log).Record(x)
  {
    assert (log + [x])[..|log|] == log;
  }

  /** A step that leaves log and traces of the other orders alone leaves them tracked. */
  lemma OthersTracked(cfg: FillConfig, e: Engine, e': Engine, id: OrderId)
    requires RestTracked(cfg, e, id)
    requires e'.serial >= e.serial
    requires forall x :: x != id ==> FillsOf(e'.log, x) == FillsOf(e.log, x)
    requires forall x :: x != id ==> (x in e'.traces <==> x in e.traces) && (x in e'.pending.vals <==> x in e.pending.vals)
    requires forall x :: x != id && x in e.traces ==> e'.traces[x] == e.traces[x]
    requires forall x :: x != id && x in e.pending.vals ==> e'.pending.vals[x] == e.pending.vals[x]
    requires id in e'.traces && TraceOk(cfg, e', id)
    ensures OrdersTracked(cfg, e')
  {
    forall x | x in e'.traces
      ensures TraceOk(cfg, e', x)
    {
      if x != id { assert TraceOk(cfg, e, x); }
    }
  }

  lemma SubmitTracked(cfg: FillConfig, e: Engine, o: Order, now: int)
    requires OrdersTracked(cfg, e)
    requires o == NewOrder(o.terms) && o.terms.id !in e.traces && !o.terms.id.ProtectionExit?
    requires o.terms.id.FlattenClose? ==> o.terms.id.n < e.serial
    ensures OrdersTracked(cfg, Submit(e, o, now))
  {
    var e' := Submit(e, o, now);
    var tr := e'.traces[o.terms.id];
    if Acceptable(e.account, o.terms) {
      assert Live(cfg, tr.initial, []) == Life(tr.initial, []);
      assert Worked(cfg, tr, []);
    }
    OthersTracked(cfg, e, e', o.terms.id);
  }

  lemma SubmitKeeps(e: Engine, o: Order, now: int)
    ensures var s := Submit(e, o, now); s.account == e.account && s.log == e.log && s.serial == e.serial
  {
  }

  lemma CancelTracked(cfg: FillConfig, e: Engine, id: OrderId)
    requires OrdersTracked(cfg, e)
    ensures OrdersTracked(cfg, Cancel(e, id))
    ensures Cancel(e, id).account == e.account && Cancel(e, id).log == e.log
  {
    hide Live, ShownWhileWorking, Launched, FillsOf;
    if id in e.pending.vals {
      assert id in e.traces && TraceOk(cfg, e, id);
      var tr := e.traces[id];
      assert tr.seen + [] == tr.seen;
      OthersTracked(cfg, e, Cancel(e, id), id);
    }
  }

  lemma {:induction false} CancelEachTracked(cfg: FillConfig, e: Engine, ids: seq<OrderId>)
    requires OrdersTracked(cfg, e)
    ensures OrdersTracked(cfg, CancelEach(e, ids))
    ensures CancelEach(e, ids).account == e.account && CancelEach(e, ids).log == e.log
    decreases |ids|
  {
    if ids != [] {
      CancelTracked(cfg, e, ids[0]);
      CancelEachTracked(cfg, Cancel(e, ids[0]), ids[1..]);
    }
  }

  /** The order `o` is known to the engine and working: in `pending`, or the protection exit
      that `_check_protections` has just constructed. */
  ghost predicate AtWork(cfg: FillConfig, e: Engine, o: Order) {
    var id := o.terms.id;
    && id in e.traces && e.traces[id].last == o && !o.status.Terminal()
    && e.traces[id].initial.terms == o.terms
    && Worked(cfg, e.traces[id], FillsOf(e.log, id))
    && SeenInTime(cfg, e.traces[id])
    && (id.FlattenClose? || id.ProtectionExit? ==> id.n < e.serial)
    && (id.ProtectionExit? ==> o.terms.kind.Market? && id !in e.pending.vals)
    && (!id.ProtectionExit? ==> id in e.pending.vals && e.pending.vals[id] == Pending(o, e.traces[id].submittedMs))
  }

  /** What one settlement does to the histories and to the working orders. */
  lemma SettleShape(cfg: FillConfig, e: Engine, o: Order, b: BookTop, fills: seq<Fill>)
    requires o.terms.id in e.traces && fills == FillsOf(e.log, o.terms.id)
    requires SoundAttempt(o, TryFill(cfg, o, b))
    ensures var id, e', l := o.terms.id, Settle(cfg, e, o, b).engine, Advance(cfg, Life(o, fills), b);
            var tr := e.traces[id];
            && e'.traces == e.traces[id := Trace(tr.initial, tr.submittedMs, tr.seen + [b], l.order)]
            && e'.serial == e.serial
            && FillsOf(e'.log, id) == l.fills
            && (forall x :: x != id ==> FillsOf(e'.log, x) == FillsOf(e.log, x))
  {
    var t := TryFill(cfg, o, b);
    hide TryFill, ApplyFill, Attach, FillsOf;
    var e' := Settle(cfg, e, o, b).engine;
    if t.Done? && t.fill.Some? {
      forall x {
        FillsOfAppend(e.log, Traded(t.fill.value), x);
      }
    }
  }

  lemma SettlePending(cfg: FillConfig, e: Engine, o: Order, b: BookTop)
    requires SoundAttempt(o, TryFill(cfg, o, b)) && !o.status.Terminal()
    ensures var id, e', o' := o.terms.id, Settle(cfg, e, o, b).engine, Advance(cfg, Life(o, []), b).order;
            e'.pending == if o'.status.Terminal() then Del(e.pending, id)
                          else if id in e.pending.vals then Put(e.pending, id, e.pending.vals[id].(order := o'))
                          else e.pending
  {
    hide TryFill, ApplyFill, Attach;
  }

  /** A working order's life goes on by one snapshot. */
  lemma LifeGoesOn(cfg: FillConfig, initial: Order, seen: seq<BookTop>, b: BookTop)
    requires Launched(initial) && ShownWhileWorking(cfg, initial, seen)
    requires !Live(cfg, initial, seen).order.status.Terminal()
    ensures var l := Live(cfg, initial, seen);
            && l.order.terms == initial.terms
            && SoundAttempt(l.order, TryFill(cfg, l.order, b))
            && ShownWhileWorking(cfg, initial, seen + [b])
            && Live(cfg, initial, seen + [b]) == Advance(cfg, l, b)
            && Advance(cfg, l, b).order.terms == initial.terms
            && Advance(cfg, l, b).order == Advance(cfg, Life(l.order, []), b).order
            && (initial.terms.kind.Market? ==> Advance(cfg, l, b).order.status.Filled?)
  {
    var l := Live(cfg, initial, seen);
    LifeIsSound(cfg, initial, seen);
    TryFillSound(cfg, l.order, b);
    hide TryFill;
    ShownExtend(cfg, initial, seen, b);
  }

  /** One settlement adds one snapshot to one life, and touches no other order. */
  lemma SettleTracked(cfg: FillConfig, e: Engine, o: Order, b: BookTop)
    requires AtWork(cfg, e, o) && RestTracked(cfg, e, o.terms.id)
    requires b.symbol == o.terms.symbol
    requires o.terms.id.ProtectionExit? || b.tsMs >= e.traces[o.terms.id].submittedMs + cfg.latencyMs
    ensures OrdersTracked(cfg, Settle(cfg, e, o, b).engine)
  {
    hide TryFill, Advance, Live, ShownWhileWorking, Launched, FillsOf, Settle, SoundAttempt;
    var id, tr := o.terms.id, e.traces[o.terms.id];
    var l := Live(cfg, tr.initial, tr.seen);
    assert l.order == o;
    LifeGoesOn(cfg, tr.initial, tr.seen, b);
    SettleShape(cfg, e, o, b, l.fills);
    SettlePending(cfg, e, o, b);
    var e', l' := Settle(cfg, e, o, b).engine, Advance(cfg, l, b);
    assert l == Life(o, l.fills);
    assert e'.traces[id] == Trace(tr.initial, tr.submittedMs, tr.seen + [b], l'.order);
    assert Worked(cfg, e'.traces[id], FillsOf(e'.log, id));
    assert TraceOk(cfg, e', id);
    OthersTracked(cfg, e, e', id);
  }

  // ---- Snapshots ------------------------------------------------------------------------

  lemma AttachRefines(a: Account, l: Ledger, t: Terms)
    requires Refines(a, l)
    ensures Refines(Attach(a, t), l)
  {
    hide Refines;
    if t.symbol in a.positions.vals && a.positions.vals[t.symbol].side == t.side {
      ProtectRefines(a, l, t.symbol, t.attachStopLoss, t.attachTakeProfit);
    }
  }

  /** A settlement hands the account nothing but positive fills. */
  lemma SettleRefines(cfg: FillConfig, e: Engine, o: Order, b: BookTop)
    requires Refines(e.account, LedgerOf(e.log)) && SoundAttempt(o, TryFill(cfg, o, b))
    ensures var e' := Settle(cfg, e, o, b).engine; Refines(e'.account, LedgerOf(e'.log))
  {
    var t := TryFill(cfg, o, b);
    hide TryFill, Refines, ApplyFill, Attach, LedgerOf;
    if t.Done? && t.fill.Some? {
      FillRefines(e.account, LedgerOf(e.log), t.fill.value, o.terms.leverage);
      LedgerExtends(e.log, Traded(t.fill.value));
      AttachRefines(ApplyFill(e.account, t.fill.value, o.terms.leverage), LedgerOf(e.log + [Traded(t.fill.value)]), o.terms);
    }
  }

  lemma WorkingAtWork(cfg: FillConfig, e: Engine, id: OrderId)
    requires OrdersTracked(cfg, e) && id in e.pending.vals
    ensures AtWork(cfg, e, e.pending.vals[id].order) && e.pending.vals[id].order.terms.id == id
    ensures e.traces[id].submittedMs == e.pending.vals[id].submittedMs
    ensures SoundLife(e.traces[id].initial, Life(e.pending.vals[id].order, FillsOf(e.log, id)))
  {
    assert id in e.traces && TraceOk(cfg, e, id);
    var tr := e.traces[id];
    LifeIsSound(cfg, tr.initial, tr.seen);
    hide Live, FillsOf, ShownWhileWorking;
    assert Worked(cfg, tr, FillsOf(e.log, id));
  }

  lemma VisitSound(cfg: FillConfig, e: Engine, id: OrderId, b: BookTop)
    requires Sound(cfg, e)
    ensures Sound(cfg, Visit(cfg, e, id, b).engine)
  {
    hide Refines, TraceOk, Settle;
    if id in e.pending.vals && Eligible(cfg, e.pending.vals[id], b) {
      var o := e.pending.vals[id].order;
      WorkingAtWork(cfg, e, id);
      TryFillSound(cfg, o, b);
      SettleTracked(cfg, e, o, b);
      SettleRefines(cfg, e, o, b);
    }
  }

  lemma {:induction false} SweepSound(cfg: FillConfig, e: Engine, ids: seq<OrderId>, b: BookTop)
    requires Sound(cfg, e)
    ensures Sound(cfg, Sweep(cfg, e, ids, b).engine)
    decreases |ids|
  {
    hide Sound, Visit;
    if ids != [] {
      VisitSound(cfg, e, ids[0], b);
      var t := Visit(cfg, e, ids[0], b);
      if !t.raised { SweepSound(cfg, t.engine, ids[1..], b); }
    }
  }

  /** Handing out one more uuid changes nothing about the orders there are. */
  lemma SerialGrows(cfg: FillConfig, e: Engine, e': Engine, x: OrderId)
    requires e'.serial == e.serial + 1 && e'.pending == e.pending && e'.log == e.log
    requires x in e.traces && TraceOk(cfg, e, x)
    requires x in e'.traces && e'.traces[x] == e.traces[x]
    ensures TraceOk(cfg, e', x) && x != FlattenClose(e.serial) && x != ProtectionExit(e.serial)
  {
    hide Worked, TurnedAway, SeenInTime, FillsOf;
  }

  lemma UnusedSerial(cfg: FillConfig, e: Engine)
    requires OrdersTracked(cfg, e)
    ensures FlattenClose(e.serial) !in e.traces && ProtectionExit(e.serial) !in e.traces
  {
    hide Worked, TurnedAway, SeenInTime, FillsOf;
    assert forall x :: x in e.traces ==> TraceOk(cfg, e, x);
  }

  /** The exit order, just constructed, is an order at work like any other. */
  lemma ExitStarts(cfg: FillConfig, e: Engine, e': Engine, o: Order, now: int)
    requires OrdersTracked(cfg, e)
    requires Launched(o) && o.terms.kind.Market? && o.terms.id == ProtectionExit(e.serial)
    requires e' == e.(serial := e.serial + 1, traces := e.traces[o.terms.id := Trace(o, now, [], o)])
    ensures AtWork(cfg, e', o) && RestTracked(cfg, e', o.terms.id)
  {
    UnusedSerial(cfg, e);
    assert Live(cfg, o, []) == Life(o, []);
    assert Worked(cfg, e'.traces[o.terms.id], FillsOf(e'.log, o.terms.id));
    hide Worked, FillsOf, TraceOk;
    forall x | x in e.traces
      ensures TraceOk(cfg, e', x)
    {
      SerialGrows(cfg, e, e', x);
    }
  }

  lemma OpenPosition(a: Account, l: Ledger, s: Symbol)
    requires Refines(a, l) && s in a.positions.vals
    ensures a.positions.vals[s].symbol == s && a.positions.vals[s].qty > 0.0
  {
  }

  lemma ProtectionsSound(cfg: FillConfig, e: Engine, b: BookTop)
    requires Sound(cfg, e)
    ensures Sound(cfg, CheckProtections(cfg, e, b))
  {
    hide Refines, Settle, OrdersTracked, AtWork, RestTracked, TryFill, SoundAttempt;
    if b.symbol in e.account.positions.vals && ProtectionHit(e.account.positions.vals[b.symbol], b.Mid()) {
      var p := e.account.positions.vals[b.symbol];
      OpenPosition(e.account, LedgerOf(e.log), b.symbol);
      var o := ExitOrder(p, e.serial);
      var started := e.(serial := e.serial + 1, traces := e.traces[o.terms.id := Trace(o, b.tsMs, [], o)]);
      ExitStarts(cfg, e, started, o, b.tsMs);
      TryFillSound(cfg, o, b);
      SettleTracked(cfg, started, o, b);
      SettleRefines(cfg, started, o, b);
    }
  }

  // ---- Flatten ------------------------------------------------------------------------------

  lemma {:induction false} FlattenEachTracked(cfg: FillConfig, e: Engine, symbols: seq<Symbol>, now: int)
    requires OrdersTracked(cfg, e) && forall s :: s in symbols ==> s in e.account.positions.vals
    ensures OrdersTracked(cfg, FlattenEach(e, symbols, now))
    ensures FlattenEach(e, symbols, now).account == e.account && FlattenEach(e, symbols, now).log == e.log
    decreases |symbols|
  {
    hide TraceOk, Submit;
    if symbols != [] {
      var o := CloseOrder(e.account.positions.vals[symbols[0]], e.serial);
      var e1 := e.(serial := e.serial + 1);
      forall x | x in e.traces
        ensures TraceOk(cfg, e1, x) && x != o.terms.id
      {
        SerialGrows(cfg, e, e1, x);
      }
      SubmitTracked(cfg, e1, o, now);
      SubmitKeeps(e1, o, now);
      FlattenEachTracked(cfg, Submit(e1, o, now), symbols[1..], now);
    }
  }

  // ---- Every run ------------------------------------------------------------------------------

  lemma BookSound(cfg: FillConfig, e: Engine, b: BookTop)
    requires Sound(cfg, e)
    ensures Sound(cfg, OnBook(cfg, e, b).engine)
  {
    hide Sound, Sweep, CheckProtections;
    SweepSound(cfg, e, e.pending.keys, b);
    var t := Sweep(cfg, e, e.pending.keys, b);
    if !t.raised { ProtectionsSound(cfg, t.engine, b); }
  }

  lemma FlattenSound(cfg: FillConfig, e: Engine, now: int)
    requires Sound(cfg, e)
    ensures Sound(cfg, FlattenAll(e, now)) && FlattenAll(e, now).account == e.account
  {
    hide OrdersTracked, Refines, CancelEach, FlattenEach;
    CancelEachTracked(cfg, e, WorkingIn(e.pending, None, e.pending.keys));
    var c := CancelAll(e, None);
    FlattenEachTracked(cfg, c, c.account.positions.keys, now);
  }

  lemma StepSound(cfg: FillConfig, e: Engine, a: Action)
    requires Sound(cfg, e) && Admissible(e, a)
    ensures Sound(cfg, Step(cfg, e, a))
  {
    hide OrdersTracked, Refines, OnBook, FlattenAll, Fund, CancelEach;
    match a {
      case SubmitOrder(o, now) => SubmitTracked(cfg, e, o, now);
      case CancelOrder(id) => CancelTracked(cfg, e, id);
      case CancelOrders(symbol) => CancelEachTracked(cfg, e, WorkingIn(e.pending, symbol, e.pending.keys));
      case Book(b) => BookSound(cfg, e, b);
      case Flatten(now) => FlattenSound(cfg, e, now);
      case Funding(symbol, rate, mark) => FundSound(cfg, e, symbol, rate, mark);
    }
  }

  lemma FundSound(cfg: FillConfig, e: Engine, symbol: Symbol, rate: real, mark: real)
    requires Sound(cfg, e)
    ensures Sound(cfg, Fund(e, symbol, rate, mark))
  {
    hide Refines;
    var x := Funded(symbol, rate, mark);
    FundingRefines(e.account, LedgerOf(e.log), symbol, rate, mark);
    LedgerExtends(e.log, x);
    forall id { FillsOfAppend(e.log, x, id); }
    var e' := Fund(e, symbol, rate, mark);
    forall id | id in e.traces
      ensures TraceOk(cfg, e', id)
    {
      assert TraceOk(cfg, e, id);
    }
  }

  lemma {:induction false} RunKeepsSound(cfg: FillConfig, e: Engine, actions: seq<Action>)
    requires Sound(cfg, e) && Proper(cfg, e, actions)
    ensures Sound(cfg, Run(cfg, e, actions))
    ensures Run(cfg, e, actions).account.starting == e.account.starting
  {
    hide Sound, Step;
    if actions != [] {
      var init := actions[..|actions| - 1];
      ProperPrefix(cfg, e, actions, |init|);
      RunKeepsSound(cfg, e, init);
      StepSound(cfg, Run(cfg, e, init), actions[|actions| - 1]);
      StepKeepsStarting(cfg, Run(cfg, e, init), actions[|actions| - 1]);
    }
  }

  lemma ProperPrefix(cfg: FillConfig, e: Engine, actions: seq<Action>, n: nat)
    requires Proper(cfg, e, actions) && n <= |actions|
    ensures Proper(cfg, e, actions[..n])
    ensures n < |actions| ==> Admissible(Run(cfg, e, actions[..n]), actions[n])
  {
    assert forall k :: 0 <= k < n ==> actions[..n][..k] == actions[..k];
  }

  /** Every run of submissions, cancels, snapshots, flattens and fundings from a fresh engine. */
  lemma RunSound(cfg: FillConfig, starting: real, actions: seq<Action>)
    requires Proper(cfg, NewEngine(NewAccount(starting)), actions)
    ensures Sound(cfg, Run(cfg, NewEngine(NewAccount(starting)), actions))
    ensures Run(cfg, NewEngine(NewAccount(starting)), actions).account.starting == starting
  {
    NewEngineSound(cfg, starting);
    RunKeepsSound(cfg, NewEngine(NewAccount(starting)), actions);
  }

  // ---- Runs in two parts ----------------------------------------------------------------------

  lemma {:induction false} RunConcat(cfg: FillConfig, e: Engine, xs: seq<Action>, ys: seq<Action>)
    ensures Run(cfg, e, xs + ys) == Run(cfg, Run(cfg, e, xs), ys)
  {
    hide Step;
    if ys == [] {
      assert xs + ys == xs;
    } else {
      assert (xs + ys)[..|xs + ys| - 1] == xs + ys[..|ys| - 1];
      RunConcat(cfg, e, xs, ys[..|ys| - 1]);
    }
  }

  lemma ProperConcat(cfg: FillConfig, e: Engine, xs: seq<Action>, ys: seq<Action>)
    ensures Proper(cfg, e, xs + ys) <==> Proper(cfg, e, xs) && Proper(cfg, Run(cfg, e, xs), ys)
  {
    hide Run, Admissible;
    var all := xs + ys;
    forall k | 0 <= k < |all|
      ensures k < |xs| ==> all[..k] == xs[..k] && all[k] == xs[k]
      ensures k >= |xs| ==> Run(cfg, e, all[..k]) == Run(cfg, Run(cfg, e, xs), ys[..k - |xs|]) && all[k] == ys[k - |xs|]
    {
      if k >= |xs| {
        assert all[..k] == xs + ys[..k - |xs|];
        RunConcat(cfg, e, xs, ys[..k - |xs|]);
      }
    }
    if Proper(cfg, e, all) {
      forall k | 0 <= k < |ys| ensures Admissible(Run(cfg, Run(cfg, e, xs), ys[..k]), ys[k]) {
        assert all[|xs| + k] == ys[k];
      }
      forall k | 0 <= k < |xs| ensures Admissible(Run(cfg, e, xs[..k]), xs[k]) {
        assert all[k] == xs[k];
      }
    }
  }

  // ---- The starting balance never moves -----------------------------------------------------

  lemma SettleKeepsStarting(cfg: FillConfig, e: Engine, o: Order, b: BookTop)
    ensures Settle(cfg, e, o, b).engine.account.starting == e.account.starting
  {
    hide TryFill;
  }

  lemma {:induction false} SweepKeepsStarting(cfg: FillConfig, e: Engine, ids: seq<OrderId>, b: BookTop)
    ensures Sweep(cfg, e, ids, b).engine.account.starting == e.account.starting
    decreases |ids|
  {
    hide Settle;
    if ids != [] {
      if ids[0] in e.pending.vals { SettleKeepsStarting(cfg, e, e.pending.vals[ids[0]].order, b); }
      SweepKeepsStarting(cfg, Visit(cfg, e, ids[0], b).engine, ids[1..], b);
    }
  }

  lemma StepKeepsStarting(cfg: FillConfig, e: Engine, a: Action)
    requires Sound(cfg, e)
    ensures Step(cfg, e, a).account.starting == e.account.starting
  {
    hide Settle, Sound, OrdersTracked, FlattenAll;
    match a {
      case SubmitOrder(o, now) =>
      case CancelOrder(id) =>
      case CancelOrders(symbol) =>
        assert OrdersTracked(cfg, e) by { SoundTracks(cfg, e); }
        CancelEachTracked(cfg, e, WorkingIn(e.pending, symbol, e.pending.keys));
      case Book(b) =>
        SweepKeepsStarting(cfg, e, e.pending.keys, b);
        var t := Sweep(cfg, e, e.pending.keys, b);
        if b.symbol in t.engine.account.positions.vals {
          var o := ExitOrder(t.engine.account.positions.vals[b.symbol], t.engine.serial);
          SettleKeepsStarting(cfg, t.engine.(serial := t.engine.serial + 1,
                                             traces := t.engine.traces[o.terms.id := Trace(o, b.tsMs, [], o)]), o, b);
        }
      case Flatten(now) => FlattenSound(cfg, e, now);
      case Funding(symbol, rate, mark) =>
    }
  }

  lemma SoundTracks(cfg: FillConfig, e: Engine)
    requires Sound(cfg, e)
    ensures OrdersTracked(cfg, e) && Refines(e.account, LedgerOf(e.log))
  {
  }

  // ---- Cancelling everything --------------------------------------------------------------

  lemma {:induction false} WorkingInAll(d: Dict<OrderId, Pending>, keys: seq<OrderId>)
    requires forall k :: k in keys ==> k in d.vals
    ensures WorkingIn(d, None, keys) == keys
  {
    if keys != [] {
      WorkingInAll(d, keys[1..]);
      assert [keys[0]] + keys[1..] == keys;
    }
  }

  lemma {:induction false} CancelEachEmpties(e: Engine, ids: seq<OrderId>)
    ensures forall id :: id in CancelEach(e, ids).pending.vals <==> id in e.pending.vals && id !in ids
    ensures CancelEach(e, ids).account == e.account && CancelEach(e, ids).serial == e.serial
    decreases |ids|
  {
    if ids != [] {
      CancelEachEmpties(Cancel(e, ids[0]), ids[1..]);
      assert forall id :: id in ids <==> id == ids[0] || id in ids[1..];
    }
  }

  lemma CancelAllEmpties(e: Engine)
    ensures var c := CancelAll(e, None);
            c.pending.keys == [] && c.account == e.account && c.serial == e.serial
  {
    WorkingInAll(e.pending, e.pending.keys);
    CancelEachEmpties(e, e.pending.keys);
    var c := CancelAll(e, None);
    hide CancelAll;
    NoKeys(c.pending);
  }
}
