/** Which snapshots reach which orders: the half of the engine's promise that says that an
    eligible snapshot does reach a working order. */
module EngineBooks {
  import opened Prelude
  import opened Models
  import opened Fills
  import opened LimitOrders
  import opened OrderLife
  import opened TrailingStops
  import opened Accounting
  import opened EngineSpec
  import opened EngineRuns
  import opened EngineTheorems

  // ---- Assertions that cut a snapshot short -----------------------------------------------

  /** The working order `id` is eligible for `b` and lacks the price that its handler asserts. */
  predicate Stuck(cfg: FillConfig, e: Engine, id: OrderId, b: BookTop) {
    id in e.pending.vals && Eligible(cfg, e.pending.vals[id], b) && LacksPrice(e.pending.vals[id].order, b)
  }

  lemma VisitRaises(cfg: FillConfig, e: Engine, id: OrderId, b: BookTop)
    ensures Visit(cfg, e, id, b).raised <==> Stuck(cfg, e, id, b)
  {
    if id in e.pending.vals {
      RaisesExactly(cfg, e.pending.vals[id].order, b);
      hide TryFill, LacksPrice, ApplyFill, Attach, Observed;
    }
  }

  /** The visit of one order leaves the work and the history of every other as they are. */
  lemma VisitLeavesOthers(cfg: FillConfig, e: Engine, x: OrderId, b: BookTop, id: OrderId)
    requires OrdersTracked(cfg, e) && x != id
    ensures var e' := Visit(cfg, e, x, b).engine;
            && (id in e'.pending.vals <==> id in e.pending.vals)
            && (id in e.pending.vals ==> e'.pending.vals[id] == e.pending.vals[id])
            && (id in e'.traces <==> id in e.traces)
            && (id in e.traces ==> e'.traces[id] == e.traces[id])
  {
    hide TraceOk, TryFill, Worked, SoundAttempt, ApplyFill, Attach, FillsOf;
    if x in e.pending.vals {
      WorkingAtWork(cfg, e, x);
      TryFillSound(cfg, e.pending.vals[x].order, b);
      SettleShape(cfg, e, e.pending.vals[x].order, b, FillsOf(e.log, x));
    }
  }

  lemma SameWorkSameFate(cfg: FillConfig, e: Engine, e': Engine, id: OrderId, b: BookTop)
    requires id in e'.pending.vals <==> id in e.pending.vals
    requires id in e.pending.vals ==> e'.pending.vals[id] == e.pending.vals[id]
    ensures Stuck(cfg, e, id, b) <==> Stuck(cfg, e', id, b)
  {
  }

  /** A snapshot is shown to the orders in their order, up to and including the first stuck one. */
  function UpToStuck(cfg: FillConfig, e: Engine, ids: seq<OrderId>, b: BookTop): seq<OrderId> {
    if ids == [] then []
    else if Stuck(cfg, e, ids[0], b) then [ids[0]]
    else [ids[0]] + UpToStuck(cfg, e, ids[1..], b)
  }

  lemma {:induction false} SameWorkSameStuck(cfg: FillConfig, e: Engine, e': Engine, ids: seq<OrderId>, b: BookTop)
    requires forall id :: id in ids ==> (Stuck(cfg, e, id, b) <==> Stuck(cfg, e', id, b))
    ensures UpToStuck(cfg, e, ids, b) == UpToStuck(cfg, e', ids, b)
  {
    hide Stuck;
    if ids != [] {
      assert ids[0] in ids;
      SameWorkSameStuck(cfg, e, e', ids[1..], b);
    }
  }

  lemma {:induction false} UpToStuckIsAll(cfg: FillConfig, e: Engine, ids: seq<OrderId>, b: BookTop)
    requires forall id :: id in ids ==> !Stuck(cfg, e, id, b)
    ensures UpToStuck(cfg, e, ids, b) == ids
  {
    if ids != [] {
      assert ids[0] in ids;
      UpToStuckIsAll(cfg, e, ids[1..], b);
    }
  }

  lemma {:induction false} UpToStuckAmong(cfg: FillConfig, e: Engine, ids: seq<OrderId>, b: BookTop)
    ensures forall id :: id in UpToStuck(cfg, e, ids, b) ==> id in ids
  {
    if ids != [] { UpToStuckAmong(cfg, e, ids[1..], b); }
  }

  /** After the visit of `x`, the rest of the orders is as it was. */
  lemma RestAsBefore(cfg: FillConfig, e: Engine, x: OrderId, rest: seq<OrderId>, b: BookTop)
    requires OrdersTracked(cfg, e) && x !in rest
    ensures var e' := Visit(cfg, e, x, b).engine;
            && (forall id :: id in rest ==> (Stuck(cfg, e, id, b) <==> Stuck(cfg, e', id, b)))
            && UpToStuck(cfg, e', rest, b) == UpToStuck(cfg, e, rest, b)
  {
    hide Stuck, Visit, OrdersTracked;
    var e' := Visit(cfg, e, x, b).engine;
    forall id | id in rest
      ensures Stuck(cfg, e, id, b) <==> Stuck(cfg, e', id, b)
    {
      VisitLeavesOthers(cfg, e, x, b, id);
      SameWorkSameFate(cfg, e, e', id, b);
    }
    SameWorkSameStuck(cfg, e, e', rest, b);
  }

  lemma {:induction false} SweepRaises(cfg: FillConfig, e: Engine, ids: seq<OrderId>, b: BookTop)
    requires Sound(cfg, e) && Distinct(ids)
    ensures Sweep(cfg, e, ids, b).raised <==> exists id :: id in ids && Stuck(cfg, e, id, b)
    decreases |ids|
  {
    hide Sound, Stuck, Visit, UpToStuck;
    if ids != [] {
      SoundTracks(cfg, e);
      VisitSound(cfg, e, ids[0], b);
      VisitRaises(cfg, e, ids[0], b);
      assert ids == [ids[0]] + ids[1..];
      assert forall id :: id in ids <==> id == ids[0] || id in ids[1..];
      var t := Visit(cfg, e, ids[0], b);
      if !t.raised {
        SweepRaises(cfg, t.engine, ids[1..], b);
        RestAsBefore(cfg, e, ids[0], ids[1..], b);
      }
    }
  }

  /** A snapshot is cut short exactly when some eligible working order lacks a price its
      handler asserts; in every other case the protections are checked. */
  lemma BookRaisesExactly(cfg: FillConfig, e: Engine, b: BookTop)
    requires Sound(cfg, e)
    ensures OnBook(cfg, e, b).raised <==> exists id :: id in e.pending.vals && Stuck(cfg, e, id, b)
  {
    SweepRaises(cfg, e, e.pending.keys, b);
    hide Sound, Stuck, Sweep;
    assert forall id :: id in e.pending.vals <==> id in e.pending.keys;
  }

  /** Such an order is never got rid of by snapshots: whatever the next one is, it raises again. */
  lemma StuckStaysStuck(cfg: FillConfig, o: Order, b: BookTop, b': BookTop)
    requires LacksPrice(o, b)
    ensures Malformed(o.terms)
    ensures TryFill(cfg, o, b).Raised? && LacksPrice(TryFill(cfg, o, b).order, b')
  {
  }

  /** In every run, after every snapshot that no stuck order cuts short, a position still open in
      that symbol has the mid strictly inside its stop loss and take profit, including those a
      fill attached on that very snapshot. */
  lemma ProtectionsHoldAfterEveryBook(cfg: FillConfig, starting: real, actions: seq<Action>, b: BookTop)
    requires Proper(cfg, NewEngine(NewAccount(starting)), actions)
    ensures var e := Run(cfg, NewEngine(NewAccount(starting)), actions);
            var a := OnBook(cfg, e, b).engine.account;
            (forall id :: id in e.pending.vals ==> !Stuck(cfg, e, id, b)) && b.symbol in a.positions.vals ==>
              InsideProtections(a.positions.vals[b.symbol], b.Mid())
  {
    hide Sound, Stuck, OnBook, InsideProtections;
    var e := Run(cfg, NewEngine(NewAccount(starting)), actions);
    RunSound(cfg, starting, actions);
    BookRaisesExactly(cfg, e, b);
    if !OnBook(cfg, e, b).raised { CompletedBookProtects(cfg, e, b); }
  }

  // ---- One snapshot ------------------------------------------------------------------------------

  /** `e'` has the order of `e`, shown the snapshots `more` since. */
  ghost predicate ShownSince(e: Engine, e': Engine, id: OrderId, more: seq<BookTop>)
    requires id in e.traces
  {
    && id in e'.traces
    && e'.traces[id].initial == e.traces[id].initial && e'.traces[id].submittedMs == e.traces[id].submittedMs
    && e'.traces[id].seen == e.traces[id].seen + more
  }

  /** What a sweep over `ids` shows to the order `id`: the snapshot, if the order works, is
      eligible, and no order ahead of it is stuck. */
  function Showing(cfg: FillConfig, e: Engine, ids: seq<OrderId>, id: OrderId, b: BookTop): seq<BookTop> {
    if id in UpToStuck(cfg, e, ids, b) && id in e.pending.vals && Eligible(cfg, e.pending.vals[id], b) then [b] else []
  }

  lemma VisitShows(cfg: FillConfig, e: Engine, id: OrderId, b: BookTop)
    requires OrdersTracked(cfg, e) && id in e.traces
    ensures ShownSince(e, Visit(cfg, e, id, b).engine, id,
                       if id in e.pending.vals && Eligible(cfg, e.pending.vals[id], b) then [b] else [])
  {
    hide TraceOk, TryFill, Settle, Worked, SoundAttempt, FillsOf;
    if id in e.pending.vals && Eligible(cfg, e.pending.vals[id], b) {
      WorkingAtWork(cfg, e, id);
      TryFillSound(cfg, e.pending.vals[id].order, b);
      SettleShape(cfg, e, e.pending.vals[id].order, b, FillsOf(e.log, id));
    }
  }

  lemma SameTrace(e: Engine, e': Engine, id: OrderId)
    requires id in e.traces && id in e'.traces && e'.traces[id] == e.traces[id]
    ensures ShownSince(e, e', id, [])
  {
  }

  lemma ShownThen(e: Engine, f: Engine, g: Engine, id: OrderId, xs: seq<BookTop>, ys: seq<BookTop>)
    requires id in e.traces && ShownSince(e, f, id, xs) && ShownSince(f, g, id, ys)
    ensures ShownSince(e, g, id, xs + ys)
  {
  }

  lemma ShowingFirst(cfg: FillConfig, e: Engine, ids: seq<OrderId>, id: OrderId, b: BookTop)
    requires ids != [] && Distinct(ids)
    ensures ids[0] == id ==>
              Showing(cfg, e, ids, id, b) == if id in e.pending.vals && Eligible(cfg, e.pending.vals[id], b) then [b] else []
    ensures ids[0] == id ==> forall f :: Showing(cfg, f, ids[1..], id, b) == []
    ensures ids[0] != id ==>
              Showing(cfg, e, ids, id, b) == if Stuck(cfg, e, ids[0], b) then [] else Showing(cfg, e, ids[1..], id, b)
  {
    hide Stuck, Eligible;
    forall f ensures ids[0] == id ==> Showing(cfg, f, ids[1..], id, b) == [] {
      UpToStuckAmong(cfg, f, ids[1..], b);
    }
  }

  /** The visit of the first order shows to `id` what the sweep shows before the rest. */
  lemma FirstShows(cfg: FillConfig, e: Engine, ids: seq<OrderId>, b: BookTop, id: OrderId)
    requires Sound(cfg, e) && Distinct(ids) && ids != [] && id in e.traces
    ensures var t := Visit(cfg, e, ids[0], b);
            && Sound(cfg, t.engine) && id in t.engine.traces
            && (t.raised ==> ShownSince(e, t.engine, id, Showing(cfg, e, ids, id, b)))
            && (!t.raised && ids[0] == id ==> ShownSince(e, t.engine, id, Showing(cfg, e, ids, id, b)))
            && (!t.raised && ids[0] == id ==> Showing(cfg, t.engine, ids[1..], id, b) == [])
            && (!t.raised && ids[0] != id ==> ShownSince(e, t.engine, id, []))
            && (!t.raised && ids[0] != id ==> Showing(cfg, t.engine, ids[1..], id, b) == Showing(cfg, e, ids, id, b))
  {
    hide Sound, Stuck, Visit, Eligible, Showing;
    SoundTracks(cfg, e);
    VisitSound(cfg, e, ids[0], b);
    VisitRaises(cfg, e, ids[0], b);
    ShowingFirst(cfg, e, ids, id, b);
    if ids[0] == id {
      VisitShows(cfg, e, id, b);
    } else {
      VisitLeavesOthers(cfg, e, ids[0], b, id);
      SameTrace(e, Visit(cfg, e, ids[0], b).engine, id);
      ShowingAsBefore(cfg, e, ids[0], ids[1..], id, b);
    }
  }

  /** A sweep shows each order what it should, and nothing else. */
  lemma {:induction false} SweepShows(cfg: FillConfig, e: Engine, ids: seq<OrderId>, b: BookTop, id: OrderId)
    requires Sound(cfg, e) && Distinct(ids) && id in e.traces
    ensures ShownSince(e, Sweep(cfg, e, ids, b).engine, id, Showing(cfg, e, ids, id, b))
    decreases |ids|
  {
    hide Sound, Visit, ShownSince, Stuck, Eligible;
    if ids == [] {
      SameTrace(e, e, id);
    } else {
      hide Showing;
      var t := Visit(cfg, e, ids[0], b);
      FirstShows(cfg, e, ids, b, id);
      if !t.raised {
        SweepShows(cfg, t.engine, ids[1..], b, id);
        ShownOnce(e, t.engine, Sweep(cfg, t.engine, ids[1..], b).engine, id, Showing(cfg, e, ids, id, b), ids[0] == id);
      }
    }
  }

  lemma ShownOnce(e: Engine, f: Engine, g: Engine, id: OrderId, more: seq<BookTop>, first: bool)
    requires id in e.traces && id in f.traces
    requires ShownSince(e, f, id, if first then more else []) && ShownSince(f, g, id, if first then [] else more)
    ensures ShownSince(e, g, id, more)
  {
  }

  lemma ShowingAsBefore(cfg: FillConfig, e: Engine, x: OrderId, rest: seq<OrderId>, id: OrderId, b: BookTop)
    requires OrdersTracked(cfg, e) && x !in rest && x != id
    ensures Showing(cfg, Visit(cfg, e, x, b).engine, rest, id, b) == Showing(cfg, e, rest, id, b)
  {
    hide OrdersTracked, UpToStuck, Visit, Stuck, Eligible;
    RestAsBefore(cfg, e, x, rest, b);
    VisitLeavesOthers(cfg, e, x, b, id);
  }

  /** The exits that the protections submit are new orders; the history of the others stays. */
  lemma ExitsAreNew(cfg: FillConfig, e: Engine, b: BookTop)
    requires Sound(cfg, e)
    ensures forall id :: id in e.traces ==> id in CheckProtections(cfg, e, b).traces
                                            && CheckProtections(cfg, e, b).traces[id] == e.traces[id]
    ensures forall id :: id in CheckProtections(cfg, e, b).traces && id !in e.traces ==>
              var tr := CheckProtections(cfg, e, b).traces[id];
              id.ProtectionExit? && tr.initial.terms.kind.Market? && tr.seen == [b]
  {
    hide OrdersTracked, Refines, FillsOf, TryFill, SoundAttempt, Settle;
    if b.symbol in e.account.positions.vals && ProtectionHit(e.account.positions.vals[b.symbol], b.Mid()) {
      var p := e.account.positions.vals[b.symbol];
      OpenPosition(e.account, LedgerOf(e.log), b.symbol);
      UnusedSerial(cfg, e);
      var o := ExitOrder(p, e.serial);
      var started := e.(serial := e.serial + 1, traces := e.traces[o.terms.id := Trace(o, b.tsMs, [], o)]);
      TryFillSound(cfg, o, b);
      SettleShape(cfg, started, o, b, FillsOf(e.log, o.terms.id));
    }
  }

  /** A snapshot is shown to exactly the orders that work, are eligible, and are not behind a stuck
      one: each grows by it, the others stay as they are. */
  lemma BookShows(cfg: FillConfig, e: Engine, b: BookTop, id: OrderId)
    requires Sound(cfg, e) && id in e.traces
    ensures ShownSince(e, OnBook(cfg, e, b).engine, id, Showing(cfg, e, e.pending.keys, id, b))
    ensures !OnBook(cfg, e, b).raised ==>
              ShownSince(e, OnBook(cfg, e, b).engine, id,
                         if id in e.pending.vals && Eligible(cfg, e.pending.vals[id], b) then [b] else [])
  {
    hide Sound, Sweep, CheckProtections, Stuck, Eligible;
    var keys := e.pending.keys;
    SweepShows(cfg, e, keys, b, id);
    SweepSound(cfg, e, keys, b);
    var t := Sweep(cfg, e, keys, b);
    if !t.raised {
      ExitsAreNew(cfg, t.engine, b);
      SweepRaises(cfg, e, keys, b);
      UpToStuckIsAll(cfg, e, keys, b);
      assert id in keys <==> id in e.pending.vals;
    }
  }

  // ---- One step -----------------------------------------------------------------------------------

  /** What the step shows to the order. */
  function StepShowing(cfg: FillConfig, e: Engine, a: Action, id: OrderId): seq<BookTop> {
    if a.Book? then Showing(cfg, e, e.pending.keys, id, a.book) else []
  }

  lemma {:induction false} CancelEachShowsNothing(cfg: FillConfig, e: Engine, ids: seq<OrderId>, id: OrderId)
    requires OrdersTracked(cfg, e) && id in e.traces
    ensures ShownSince(e, CancelEach(e, ids), id, [])
    decreases |ids|
  {
    hide OrdersTracked;
    if ids == [] {
      SameTrace(e, e, id);
    } else {
      var c := Cancel(e, ids[0]);
      CancelTracked(cfg, e, ids[0]);
      CancelShowsNothing(cfg, e, ids[0], id);
      hide ShownSince, Cancel;
      CancelEachShowsNothing(cfg, c, ids[1..], id);
      ShownThen(e, c, CancelEach(c, ids[1..]), id, [], []);
    }
  }

  lemma CancelShowsNothing(cfg: FillConfig, e: Engine, x: OrderId, id: OrderId)
    requires OrdersTracked(cfg, e) && id in e.traces
    ensures ShownSince(e, Cancel(e, x), id, []) && id in Cancel(e, x).traces
  {
    hide TraceOk, Worked, FillsOf, SoundLife;
    if x in e.pending.vals {
      WorkingAtWork(cfg, e, x);
      assert e.traces[id].seen + [] == e.traces[id].seen;
    }
  }

  lemma {:induction false} FlattenEachAdds(cfg: FillConfig, e: Engine, symbols: seq<Symbol>, now: int)
    requires OrdersTracked(cfg, e) && forall s :: s in symbols ==> s in e.account.positions.vals
    ensures var f := FlattenEach(e, symbols, now);
            && (forall id :: id in e.traces ==> id in f.traces && f.traces[id] == e.traces[id])
            && (forall id :: id in f.traces && id !in e.traces ==>
                  id.FlattenClose? && f.traces[id].initial.terms.kind.Market? && f.traces[id].seen == [])
    decreases |symbols|
  {
    hide OrdersTracked, Submit, CloseOrder;
    if symbols != [] {
      var o := CloseOrder(e.account.positions.vals[symbols[0]], e.serial);
      var e' := Submit(e.(serial := e.serial + 1), o, now);
      CloseAdds(cfg, e, symbols[0], now);
      FlattenEachAdds(cfg, e', symbols[1..], now);
    }
  }

  lemma CloseAdds(cfg: FillConfig, e: Engine, s: Symbol, now: int)
    requires OrdersTracked(cfg, e) && s in e.account.positions.vals
    ensures var e' := Submit(e.(serial := e.serial + 1), CloseOrder(e.account.positions.vals[s], e.serial), now);
            && OrdersTracked(cfg, e') && e'.account == e.account
            && FlattenClose(e.serial) !in e.traces && FlattenClose(e.serial) in e'.traces
            && e'.traces == e.traces[FlattenClose(e.serial) := e'.traces[FlattenClose(e.serial)]]
            && e'.traces[FlattenClose(e.serial)].initial.terms.kind.Market? && e'.traces[FlattenClose(e.serial)].seen == []
  {
    hide OrdersTracked;
    UnusedSerial(cfg, e);
    FlattenEachTracked(cfg, e, [s], now);
    assert [s][1..] == [];
  }

  lemma FlattenShows(cfg: FillConfig, e: Engine, now: int, id: OrderId)
    requires Sound(cfg, e) && id in e.traces
    ensures ShownSince(e, FlattenAll(e, now), id, [])
  {
    hide OrdersTracked, Refines, CancelEach, FlattenEach;
    SoundTracks(cfg, e);
    var ids := WorkingIn(e.pending, None, e.pending.keys);
    CancelEachTracked(cfg, e, ids);
    CancelEachShowsNothing(cfg, e, ids, id);
    var c := CancelAll(e, None);
    FlattenEachAdds(cfg, c, c.account.positions.keys, now);
  }

  // ---- New orders -------------------------------------------------------------------------------

  lemma {:induction false} SweepAddsNothing(cfg: FillConfig, e: Engine, ids: seq<OrderId>, b: BookTop)
    ensures Sweep(cfg, e, ids, b).engine.traces.Keys == e.traces.Keys
    decreases |ids|
  {
    if ids != [] {
      VisitAddsNothing(cfg, e, ids[0], b);
      hide Visit;
      SweepAddsNothing(cfg, Visit(cfg, e, ids[0], b).engine, ids[1..], b);
    }
  }

  lemma VisitAddsNothing(cfg: FillConfig, e: Engine, id: OrderId, b: BookTop)
    ensures Visit(cfg, e, id, b).engine.traces.Keys == e.traces.Keys
  {
    hide TryFill, ApplyFill, Attach;
  }

  lemma {:induction false} CancelEachAddsNothing(e: Engine, ids: seq<OrderId>)
    ensures CancelEach(e, ids).traces.Keys == e.traces.Keys
    decreases |ids|
  {
    if ids != [] { CancelEachAddsNothing(Cancel(e, ids[0]), ids[1..]); }
  }

  /** A snapshot submits nothing but protection exits, which it fills at once. */
  lemma BookNewcomers(cfg: FillConfig, e: Engine, b: BookTop, id: OrderId)
    requires Sound(cfg, e) && id in OnBook(cfg, e, b).engine.traces && id !in e.traces
    ensures var tr := OnBook(cfg, e, b).engine.traces[id];
            id.ProtectionExit? && tr.initial.terms.kind.Market? && tr.seen == [b]
  {
    hide Sound, Sweep, CheckProtections;
    SweepAddsNothing(cfg, e, e.pending.keys, b);
    SweepSound(cfg, e, e.pending.keys, b);
    var t := Sweep(cfg, e, e.pending.keys, b);
    if !t.raised { ExitsAreNew(cfg, t.engine, b); }
  }

  lemma FlattenNewcomers(cfg: FillConfig, e: Engine, now: int, id: OrderId)
    requires Sound(cfg, e) && id in FlattenAll(e, now).traces && id !in e.traces
    ensures var tr := FlattenAll(e, now).traces[id];
            id.FlattenClose? && tr.initial.terms.kind.Market? && tr.seen == []
  {
    hide OrdersTracked, Refines, CancelEach, FlattenEach;
    SoundTracks(cfg, e);
    var ids := WorkingIn(e.pending, None, e.pending.keys);
    CancelEachTracked(cfg, e, ids);
    CancelEachAddsNothing(e, ids);
    var c := CancelAll(e, None);
    FlattenEachAdds(cfg, c, c.account.positions.keys, now);
  }

  /** No step loses an order, or its terms, or a snapshot it was shown. */
  lemma StepShows(cfg: FillConfig, e: Engine, a: Action, id: OrderId)
    requires Sound(cfg, e) && Admissible(e, a) && id in e.traces
    ensures ShownSince(e, Step(cfg, e, a), id, StepShowing(cfg, e, a, id))
  {
    hide OrdersTracked, Refines, OnBook, FlattenAll, CancelEach, Showing, Cancel;
    SoundTracks(cfg, e);
    match a {
      case SubmitOrder(o, now) => SameTrace(e, Submit(e, o, now), id);
      case CancelOrder(x) => CancelShowsNothing(cfg, e, x, id);
      case CancelOrders(symbol) => CancelEachShowsNothing(cfg, e, WorkingIn(e.pending, symbol, e.pending.keys), id);
      case Book(b) => BookShows(cfg, e, b, id);
      case Flatten(now) => FlattenShows(cfg, e, now, id);
      case Funding(symbol, rate, mark) => SameTrace(e, Fund(e, symbol, rate, mark), id);
    }
  }

  /** An order that no longer works never works again. */
  lemma NoComeback(cfg: FillConfig, e: Engine, a: Action, id: OrderId)
    requires Sound(cfg, e) && Admissible(e, a) && id in e.traces && id in Step(cfg, e, a).pending.vals
    ensures id in e.pending.vals
  {
    hide Step, Refines, Worked, TurnedAway, SeenInTime, FillsOf;
    StepSound(cfg, e, a);
    assert TraceOk(cfg, e, id);
    if Ended(e, id) {
      EndedIsFinal(cfg, e, a, id);
      assert TraceOk(cfg, Step(cfg, e, a), id);
    }
  }

  // ---- Every run --------------------------------------------------------------------------------------

  /** The snapshots that a run shows to the order. */
  function ShownIn(cfg: FillConfig, e: Engine, actions: seq<Action>, id: OrderId): seq<BookTop> {
    if actions == [] then []
    else
      var init, a := actions[..|actions| - 1], actions[|actions| - 1];
      ShownIn(cfg, e, init, id) + StepShowing(cfg, Run(cfg, e, init), a, id)
  }

  lemma ShownKnows(e: Engine, e': Engine, id: OrderId, more: seq<BookTop>)
    requires id in e.traces && ShownSince(e, e', id, more)
    ensures id in e'.traces && e'.traces[id].initial == e.traces[id].initial
    ensures e'.traces[id].submittedMs == e.traces[id].submittedMs && e'.traces[id].seen == e.traces[id].seen + more
  {
  }

  /** An order nobody has submitted yet is shown nothing. */
  lemma {:induction false} UnknownIsShownNothing(cfg: FillConfig, e: Engine, actions: seq<Action>, id: OrderId)
    requires Sound(cfg, e) && Proper(cfg, e, actions) && id !in Run(cfg, e, actions).traces
    ensures ShownIn(cfg, e, actions, id) == []
  {
    hide Sound, Step, ShownSince, UpToStuck, Eligible;
    if actions != [] {
      var init, a := actions[..|actions| - 1], actions[|actions| - 1];
      var f := Run(cfg, e, init);
      ProperPrefix(cfg, e, actions, |init|);
      RunKeepsSound(cfg, e, init);
      if id in f.traces {
        StepShows(cfg, f, a, id);
        ShownKnows(f, Step(cfg, f, a), id, StepShowing(cfg, f, a, id));
      } else {
        UnknownIsShownNothing(cfg, e, init, id);
        UnknownNotPending(cfg, f, id);
      }
    }
  }

  lemma UnknownNotPending(cfg: FillConfig, e: Engine, id: OrderId)
    requires Sound(cfg, e) && id !in e.traces
    ensures id !in e.pending.vals
  {
    hide TraceOk, Refines, FillsOf;
  }

  /** A new order, but for a protection exit, has met nothing yet. */
  lemma NewOrdersSawNothing(cfg: FillConfig, e: Engine, a: Action, id: OrderId)
    requires Sound(cfg, e) && Admissible(e, a) && id in Step(cfg, e, a).traces && id !in e.traces && !id.ProtectionExit?
    ensures Step(cfg, e, a).traces[id].seen == []
  {
    hide OrdersTracked, Refines, Sweep, CheckProtections, CancelEach, FlattenEach;
    SoundTracks(cfg, e);
    match a {
      case Book(b) => BookNewcomers(cfg, e, b, id);
      case Flatten(now) => FlattenNewcomers(cfg, e, now, id);
      case CancelOrders(symbol) => CancelEachAddsNothing(e, WorkingIn(e.pending, symbol, e.pending.keys));
      case _ =>
    }
  }

  lemma {:induction false} SeenFromTheStart(cfg: FillConfig, starting: real, actions: seq<Action>, id: OrderId)
    requires Proper(cfg, NewEngine(NewAccount(starting)), actions)
    requires id in Run(cfg, NewEngine(NewAccount(starting)), actions).traces && !id.ProtectionExit?
    ensures Run(cfg, NewEngine(NewAccount(starting)), actions).traces[id].seen
            == ShownIn(cfg, NewEngine(NewAccount(starting)), actions, id)
  {
    hide Sound, Step, ShownSince, Showing;
    var e0 := NewEngine(NewAccount(starting));
    if actions != [] {
      var init, a := actions[..|actions| - 1], actions[|actions| - 1];
      var f := Run(cfg, e0, init);
      ProperPrefix(cfg, e0, actions, |init|);
      RunSound(cfg, starting, init);
      if id in f.traces {
        SeenFromTheStart(cfg, starting, init, id);
        StepShows(cfg, f, a, id);
        ShownKnows(f, Step(cfg, f, a), id, StepShowing(cfg, f, a, id));
      } else {
        NewEngineSound(cfg, starting);
        UnknownIsShownNothing(cfg, e0, init, id);
        NewOrdersSawNothing(cfg, f, a, id);
        UnknownNotPending(cfg, f, id);
        NothingToShow(cfg, f, a, id);
      }
    }
  }

  lemma NothingToShow(cfg: FillConfig, e: Engine, a: Action, id: OrderId)
    requires id !in e.pending.vals
    ensures StepShowing(cfg, e, a, id) == []
  {
  }

  /** In every run, every order keeps its contract: fills add up, FILLED means exactly that
      nothing of a positive quantity remains, working orders have something left to fill, fills
      respect the latency, and every fill is honest. And the snapshots it has met are exactly those
      it was to be shown: each that came while it worked, was of its symbol, came no earlier than
      its submission and the latency, and was not cut short before its turn. */
  lemma EveryOrderKeepsItsContract(cfg: FillConfig, starting: real, actions: seq<Action>)
    requires Proper(cfg, NewEngine(NewAccount(starting)), actions)
    ensures var e0 := NewEngine(NewAccount(starting));
            var e := Run(cfg, e0, actions);
            forall id :: id in e.traces ==>
              && OrderContract(cfg, e, id)
              && (!id.ProtectionExit? ==> e.traces[id].seen == ShownIn(cfg, e0, actions, id))
  {
    hide OrderContract, Sound, ShownIn, Run, Proper;
    RunSound(cfg, starting, actions);
    var e := Run(cfg, NewEngine(NewAccount(starting)), actions);
    forall id | id in e.traces
      ensures OrderContract(cfg, e, id)
      ensures !id.ProtectionExit? ==> e.traces[id].seen == ShownIn(cfg, NewEngine(NewAccount(starting)), actions, id)
    {
      SoundOrderContract(cfg, e, id);
      if !id.ProtectionExit? { SeenFromTheStart(cfg, starting, actions, id); }
    }
  }

  // ---- Runs whose orders have the prices they need -----------------------------------------------------

  /** Every submitted order has the prices its type needs. */
  ghost predicate Priced(actions: seq<Action>) {
    forall k :: 0 <= k < |actions| && actions[k].SubmitOrder? ==> !Malformed(actions[k].order.terms)
  }

  ghost predicate AllPriced(e: Engine) { forall id :: id in e.traces ==> !Malformed(e.traces[id].initial.terms) }

  lemma PricedNeverStuck(cfg: FillConfig, e: Engine, b: BookTop)
    requires Sound(cfg, e) && AllPriced(e)
    ensures forall id :: id in e.pending.vals ==> !Stuck(cfg, e, id, b)
    ensures !OnBook(cfg, e, b).raised
  {
    hide OnBook, Worked, TurnedAway, SeenInTime, FillsOf, Refines;
    BookRaisesExactly(cfg, e, b);
    forall id | id in e.pending.vals
      ensures !Stuck(cfg, e, id, b)
    {
      assert TraceOk(cfg, e, id);
    }
  }

  lemma StepStaysPriced(cfg: FillConfig, e: Engine, a: Action)
    requires Sound(cfg, e) && Admissible(e, a) && AllPriced(e)
    requires a.SubmitOrder? ==> !Malformed(a.order.terms)
    ensures AllPriced(Step(cfg, e, a))
  {
    hide Sound, OnBook, FlattenAll, Malformed, Cancel, CancelEach;
    var e' := Step(cfg, e, a);
    forall id | id in e'.traces
      ensures !Malformed(e'.traces[id].initial.terms)
    {
      if id in e.traces {
        StepShows(cfg, e, a, id);
      } else {
        NewOrdersArePriced(cfg, e, a, id);
      }
    }
  }

  lemma NewOrdersArePriced(cfg: FillConfig, e: Engine, a: Action, id: OrderId)
    requires Sound(cfg, e) && Admissible(e, a) && id in Step(cfg, e, a).traces && id !in e.traces
    requires a.SubmitOrder? ==> !Malformed(a.order.terms)
    ensures !Malformed(Step(cfg, e, a).traces[id].initial.terms)
  {
    hide OrdersTracked, Refines, Sweep, CheckProtections, CancelEach, FlattenEach;
    SoundTracks(cfg, e);
    match a {
      case Book(b) => BookNewcomers(cfg, e, b, id);
      case Flatten(now) => FlattenNewcomers(cfg, e, now, id);
      case CancelOrders(symbol) => CancelEachAddsNothing(e, WorkingIn(e.pending, symbol, e.pending.keys));
      case _ =>
    }
  }

  lemma {:induction false} RunStaysPriced(cfg: FillConfig, e: Engine, actions: seq<Action>)
    requires Sound(cfg, e) && Proper(cfg, e, actions) && AllPriced(e) && Priced(actions)
    ensures AllPriced(Run(cfg, e, actions))
  {
    hide Sound, Step, AllPriced, Malformed;
    if actions != [] {
      var init, a := actions[..|actions| - 1], actions[|actions| - 1];
      ProperPrefix(cfg, e, actions, |init|);
      RunKeepsSound(cfg, e, init);
      RunStaysPriced(cfg, e, init);
      StepStaysPriced(cfg, Run(cfg, e, init), a);
    }
  }

  /** In every run whose submitted orders have the prices their types need, no snapshot is ever cut
      short, and after every one a position still open in its symbol is inside its protections. */
  lemma PricedRunsAreProtected(cfg: FillConfig, starting: real, actions: seq<Action>, b: BookTop)
    requires Proper(cfg, NewEngine(NewAccount(starting)), actions) && Priced(actions)
    ensures var t := OnBook(cfg, Run(cfg, NewEngine(NewAccount(starting)), actions), b);
            && !t.raised
            && (b.symbol in t.engine.account.positions.vals ==>
                  InsideProtections(t.engine.account.positions.vals[b.symbol], b.Mid()))
  {
    var e0 := NewEngine(NewAccount(starting));
    assert AllPriced(e0);
    hide Sound, OnBook, InsideProtections, Run, AllPriced;
    NewEngineSound(cfg, starting);
    RunSound(cfg, starting, actions);
    RunStaysPriced(cfg, e0, actions);
    PricedNeverStuck(cfg, Run(cfg, e0, actions), b);
    CompletedBookProtects(cfg, Run(cfg, e0, actions), b);
  }

  // ---- Each order meets the snapshots it is eligible for ------------------------------------------

  /** The snapshots of the symbol from submission plus latency on, among those of a run. */
  function EligibleBooks(cfg: FillConfig, symbol: Symbol, submittedMs: int, actions: seq<Action>): seq<BookTop> {
    if actions == [] then []
    else
      var a := actions[|actions| - 1];
      EligibleBooks(cfg, symbol, submittedMs, actions[..|actions| - 1])
      + if a.Book? && a.book.symbol == symbol && a.book.tsMs >= submittedMs + cfg.latencyMs then [a.book] else []
  }

  lemma EligibleOne(cfg: FillConfig, symbol: Symbol, submittedMs: int, a: Action)
    ensures EligibleBooks(cfg, symbol, submittedMs, [a])
            == if a.Book? && a.book.symbol == symbol && a.book.tsMs >= submittedMs + cfg.latencyMs then [a.book] else []
  {
    assert [a][..0] == [];
  }

  /** One step shows a working order the snapshot it is eligible for, and an ended one nothing. */
  lemma PricedStepShows(cfg: FillConfig, e: Engine, a: Action, id: OrderId)
    requires Sound(cfg, e) && Admissible(e, a) && AllPriced(e) && id in e.traces
    ensures ShownSince(e, Step(cfg, e, a), id,
                       if id in e.pending.vals
                       then EligibleBooks(cfg, e.traces[id].initial.terms.symbol, e.traces[id].submittedMs, [a]) else [])
  {
    hide OrdersTracked, Refines, OnBook, Step, AllPriced, ShownSince, UpToStuck, EligibleBooks;
    SoundTracks(cfg, e);
    StepShows(cfg, e, a, id);
    EligibleOne(cfg, e.traces[id].initial.terms.symbol, e.traces[id].submittedMs, a);
    if id in e.pending.vals {
      WorkingAtWork(cfg, e, id);
      WorkingSymbol(cfg, e, id);
    }
    if a.Book? {
      PricedNeverStuck(cfg, e, a.book);
      UpToStuckIsAll(cfg, e, e.pending.keys, a.book);
      assert id in e.pending.keys <==> id in e.pending.vals;
    }
  }

  lemma WorkingSymbol(cfg: FillConfig, e: Engine, id: OrderId)
    requires OrdersTracked(cfg, e) && id in e.pending.vals
    ensures id in e.traces && e.pending.vals[id].order.terms == e.traces[id].initial.terms
    ensures e.pending.vals[id].submittedMs == e.traces[id].submittedMs
  {
    hide Worked, TurnedAway, SeenInTime, FillsOf;
    assert TraceOk(cfg, e, id);
  }

  /** The order has met a first part of `books` since it had met `before`, all of them if it works. */
  ghost predicate MetFirst(e: Engine, id: OrderId, tr: Trace, books: seq<BookTop>) {
    && id in e.traces && e.traces[id].initial == tr.initial && e.traces[id].submittedMs == tr.submittedMs
    && e.traces[id].seen <= tr.seen + books
    && (id in e.pending.vals ==> e.traces[id].seen == tr.seen + books)
  }

  lemma MetMore(e: Engine, e': Engine, id: OrderId, tr: Trace, books: seq<BookTop>, more: seq<BookTop>)
    requires MetFirst(e, id, tr, books) && ShownSince(e, e', id, if id in e.pending.vals then more else [])
    requires id in e'.pending.vals ==> id in e.pending.vals
    ensures MetFirst(e', id, tr, books + more)
  {
    assert tr.seen + (books + more) == (tr.seen + books) + more;
  }

  lemma MetNothing(cfg: FillConfig, e: Engine, id: OrderId)
    requires id in e.traces
    ensures var tr := e.traces[id]; MetFirst(e, id, tr, EligibleBooks(cfg, tr.initial.terms.symbol, tr.submittedMs, []))
  {
  }

  /** As long as an order works it has met every snapshot it was eligible for; once it has ended it
      has met the first of them. */
  lemma {:induction false} MeetsEligible(cfg: FillConfig, e: Engine, actions: seq<Action>, id: OrderId)
    requires Sound(cfg, e) && Proper(cfg, e, actions) && AllPriced(e) && Priced(actions) && id in e.traces
    ensures var tr := e.traces[id];
            MetFirst(Run(cfg, e, actions), id, tr,
                     EligibleBooks(cfg, tr.initial.terms.symbol, tr.submittedMs, actions))
  {
    hide Sound, Step, AllPriced, Malformed, Admissible, ShownSince, MetFirst, EligibleBooks;
    var tr := e.traces[id];
    if actions == [] {
      MetNothing(cfg, e, id);
    } else {
      var init, a := actions[..|actions| - 1], actions[|actions| - 1];
      var f := Run(cfg, e, init);
      ProperPrefix(cfg, e, actions, |init|);
      RunKeepsSound(cfg, e, init);
      RunStaysPriced(cfg, e, init);
      MeetsEligible(cfg, e, init, id);
      MeetsOneMore(cfg, f, a, id, tr, EligibleBooks(cfg, tr.initial.terms.symbol, tr.submittedMs, init));
      EligibleBooksAppend(cfg, tr.initial.terms.symbol, tr.submittedMs, init, a);
      assert init + [a] == actions;
    }
  }

  lemma MeetsOneMore(cfg: FillConfig, e: Engine, a: Action, id: OrderId, tr: Trace, books: seq<BookTop>)
    requires Sound(cfg, e) && Admissible(e, a) && AllPriced(e) && MetFirst(e, id, tr, books)
    ensures MetFirst(Step(cfg, e, a), id, tr, books + EligibleBooks(cfg, tr.initial.terms.symbol, tr.submittedMs, [a]))
  {
    hide Sound, Step, AllPriced, Admissible, ShownSince, EligibleBooks;
    PricedStepShows(cfg, e, a, id);
    StepShows(cfg, e, a, id);
    ShownKnows(e, Step(cfg, e, a), id, StepShowing(cfg, e, a, id));
    if id in Step(cfg, e, a).pending.vals { NoComeback(cfg, e, a, id); }
    MetMore(e, Step(cfg, e, a), id, tr, books, EligibleBooks(cfg, tr.initial.terms.symbol, tr.submittedMs, [a]));
  }

  lemma EligibleBooksAppend(cfg: FillConfig, symbol: Symbol, submittedMs: int, init: seq<Action>, a: Action)
    ensures EligibleBooks(cfg, symbol, submittedMs, init + [a])
            == EligibleBooks(cfg, symbol, submittedMs, init) + EligibleBooks(cfg, symbol, submittedMs, [a])
  {
    assert (init + [a])[..|init|] == init && [a][..0] == [];
  }

  /** The order submitted as action `k` of a run, and what the run did with it: its trace is the
      life of the order over the first snapshots eligible for it, over all of them while it works. */
  ghost predicate Lived(cfg: FillConfig, e: Engine, o: Order, now: int, books: seq<BookTop>) {
    var id := o.terms.id;
    && id in e.traces && e.traces[id].submittedMs == now
    && e.traces[id].seen <= books
    && (id in e.pending.vals ==> e.traces[id].seen == books)
    && e.traces[id].initial.terms == o.terms
    && TraceOk(cfg, e, id)
  }

  /** A priced run up to the submission of an order, and on from there. */
  lemma Submitted(cfg: FillConfig, starting: real, actions: seq<Action>, k: nat)
    requires Proper(cfg, NewEngine(NewAccount(starting)), actions) && Priced(actions)
    requires k < |actions| && actions[k].SubmitOrder?
    ensures var e, id := Run(cfg, NewEngine(NewAccount(starting)), actions[..k + 1]), actions[k].order.terms.id;
            && Sound(cfg, e) && AllPriced(e) && Priced(actions[k + 1..])
            && id in e.traces && e.traces[id].submittedMs == actions[k].now && e.traces[id].seen == []
            && e.traces[id].initial.terms == actions[k].order.terms
  {
    var e0 := NewEngine(NewAccount(starting));
    assert AllPriced(e0);
    hide Sound, AllPriced, Malformed, Run;
    NewEngineSound(cfg, starting);
    ProperPrefix(cfg, e0, actions, k + 1);
    RunKeepsSound(cfg, e0, actions[..k + 1]);
    RunStaysPriced(cfg, e0, actions[..k + 1]);
    RunPrefix(cfg, e0, actions, k);
  }

  /** In every run whose orders have their prices, every order meets the eligible snapshots that
      follow its submission, from the first on and without a gap, for as long as it works. */
  lemma EveryOrderMeetsItsBooks(cfg: FillConfig, starting: real, actions: seq<Action>, k: nat)
    requires Proper(cfg, NewEngine(NewAccount(starting)), actions) && Priced(actions)
    requires k < |actions| && actions[k].SubmitOrder?
    ensures var o, now := actions[k].order, actions[k].now;
            Lived(cfg, Run(cfg, NewEngine(NewAccount(starting)), actions), o, now,
                  EligibleBooks(cfg, o.terms.symbol, now, actions[k + 1..]))
  {
    hide AllPriced, Run, TraceOk, Proper, Priced, Refines;
    var e0 := NewEngine(NewAccount(starting));
    var before, after := actions[..k + 1], actions[k + 1..];
    assert actions == before + after;
    Submitted(cfg, starting, actions, k);
    ProperConcat(cfg, e0, before, after);
    RunConcat(cfg, e0, before, after);
    MeetsEligible(cfg, Run(cfg, e0, before), after, actions[k].order.terms.id);
    RunSound(cfg, starting, actions);
  }

  /** A working or filled order of `submit` is the life of the accepted order over what it saw. */
  lemma LivedOn(cfg: FillConfig, e: Engine, o: Order, now: int, books: seq<BookTop>)
    requires Lived(cfg, e, o, now, books)
    requires !e.traces[o.terms.id].last.status.Cancelled? && !e.traces[o.terms.id].last.status.Rejected?
    ensures var tr := e.traces[o.terms.id];
            && Launched(tr.initial) && tr.initial.terms == o.terms
            && ShownWhileWorking(cfg, tr.initial, tr.seen)
            && Live(cfg, tr.initial, tr.seen) == Life(tr.last, FillsOf(e.log, o.terms.id))
            && (!tr.last.status.Filled? ==> tr.seen == books)
  {
    hide Live, ShownWhileWorking, Launched, FillsOf, SeenInTime;
  }

  /** In every such run, a market order that is neither turned away nor cancelled is filled, whole,
      by the first eligible snapshot after its submission, and waits only as long as there is none. */
  lemma MarketOrdersFillOnFirstBook(cfg: FillConfig, starting: real, actions: seq<Action>, k: nat)
    requires Proper(cfg, NewEngine(NewAccount(starting)), actions) && Priced(actions)
    requires k < |actions| && actions[k].SubmitOrder? && actions[k].order.terms.kind.Market?
    ensures var o, e := actions[k].order, Run(cfg, NewEngine(NewAccount(starting)), actions);
            var id, books := o.terms.id, EligibleBooks(cfg, o.terms.symbol, actions[k].now, actions[k + 1..]);
            id in e.traces && (!e.traces[id].last.status.Cancelled? && !e.traces[id].last.status.Rejected? ==>
              if books == [] then id in e.pending.vals
              else exists f :: FillsOf(e.log, id) == [f] && f.qty == o.terms.qty && HonestAt(cfg, o.terms, [books[0]], 0, f))
  {
    hide Proper, Priced, Run, HonestAt, Launched;
    EveryOrderMeetsItsBooks(cfg, starting, actions, k);
    var o, e := actions[k].order, Run(cfg, NewEngine(NewAccount(starting)), actions);
    var books := EligibleBooks(cfg, o.terms.symbol, actions[k].now, actions[k + 1..]);
    if !e.traces[o.terms.id].last.status.Cancelled? && !e.traces[o.terms.id].last.status.Rejected? {
      MarketLife(cfg, e, o, actions[k].now, books);
    }
  }

  lemma MarketLife(cfg: FillConfig, e: Engine, o: Order, now: int, books: seq<BookTop>)
    requires Lived(cfg, e, o, now, books) && o.terms.kind.Market?
    requires !e.traces[o.terms.id].last.status.Cancelled? && !e.traces[o.terms.id].last.status.Rejected?
    ensures var id := o.terms.id;
            if books == [] then id in e.pending.vals
            else exists f :: FillsOf(e.log, id) == [f] && f.qty == o.terms.qty && HonestAt(cfg, o.terms, [books[0]], 0, f)
  {
    LivedOn(cfg, e, o, now, books);
    var tr := e.traces[o.terms.id];
    hide HonestAt, FillsOf, ApplySlippage, AdverseBps, AdverseMarkup, MakeFill;
    LifeIsSound(cfg, tr.initial, tr.seen);
    if tr.seen == [] {
      assert Live(cfg, tr.initial, []) == Life(tr.initial, []);
    } else {
      var b := books[0];
      MarketLifeIsShort(cfg, tr.initial, tr.seen);
      assert tr.seen == [b];
      AdvanceHonest(cfg, o.terms, [], Life(tr.initial, []), b);
      assert [] + [b] == [b];
    }
  }

  lemma MarketLifeIsShort(cfg: FillConfig, o: Order, seen: seq<BookTop>)
    requires Launched(o) && o.terms.kind.Market? && ShownWhileWorking(cfg, o, seen) && seen != []
    ensures |seen| == 1
    ensures var a := TryFill(cfg, o, seen[0]);
            a.Done? && a.fill.Some? && a.fill.value.qty == o.terms.qty && Live(cfg, o, seen).fills == [a.fill.value]
  {
    assert seen[..1] == [seen[0]] && [seen[0]][..0] == [];
    assert Live(cfg, o, [seen[0]]) == Advance(cfg, Live(cfg, o, []), seen[0]);
    assert |seen| == 1 ==> seen == [seen[0]];
  }

  /** In every such run, a stop-market or take-profit order that is neither turned away nor cancelled is
      filled exactly when an eligible snapshot after its submission reached its trigger, whole, by the
      first that did. */
  lemma TriggersFireFirst(cfg: FillConfig, starting: real, actions: seq<Action>, k: nat)
    requires Proper(cfg, NewEngine(NewAccount(starting)), actions) && Priced(actions)
    requires k < |actions| && actions[k].SubmitOrder?
    requires actions[k].order.terms.kind.StopMarket? || actions[k].order.terms.kind.TakeProfit?
    ensures var o, e := actions[k].order, Run(cfg, NewEngine(NewAccount(starting)), actions);
            o.terms.triggerPrice.Some?
            && TriggerCourse(cfg, e, o.terms, EligibleBooks(cfg, o.terms.symbol, actions[k].now, actions[k + 1..]))
  {
    hide Proper, Run, Lived, TriggerCourse;
    EveryOrderMeetsItsBooks(cfg, starting, actions, k);
    var o, e := actions[k].order, Run(cfg, NewEngine(NewAccount(starting)), actions);
    TriggerLife(cfg, e, o, actions[k].now, EligibleBooks(cfg, o.terms.symbol, actions[k].now, actions[k + 1..]));
  }

  ghost predicate TriggerCourse(cfg: FillConfig, e: Engine, t: Terms, books: seq<BookTop>)
    requires t.triggerPrice.Some?
  {
    && t.id in e.traces
    && var tr, fills := e.traces[t.id], FillsOf(e.log, t.id);
       !tr.last.status.Cancelled? && !tr.last.status.Rejected? ==>
         && (tr.last.status.Filled? <==> exists i :: 0 <= i < |books| && PastTrigger(t, books[i]))
         && (tr.last.status.Filled? ==> var n := |tr.seen| - 1; 0 <= n < |books| && FiredAt(cfg, t, books, n, fills))
  }

  ghost predicate FiredAt(cfg: FillConfig, t: Terms, books: seq<BookTop>, n: nat, fills: seq<Fill>)
    requires t.triggerPrice.Some? && n < |books|
  {
    && PastTrigger(t, books[n]) && (forall i :: 0 <= i < n ==> !PastTrigger(t, books[i]))
    && exists f :: fills == [f] && f.qty == t.qty && HonestAt(cfg, t, [books[n]], 0, f)
  }

  lemma TriggerLife(cfg: FillConfig, e: Engine, o: Order, now: int, books: seq<BookTop>)
    requires Lived(cfg, e, o, now, books) && o.terms.triggerPrice.Some?
    requires o.terms.kind.StopMarket? || o.terms.kind.TakeProfit?
    ensures TriggerCourse(cfg, e, o.terms, books)
  {
    var tr := e.traces[o.terms.id];
    if !tr.last.status.Cancelled? && !tr.last.status.Rejected? {
      LivedOn(cfg, e, o, now, books);
      TriggerLifeIs(cfg, tr.initial, tr.seen);
      hide Live, ShownWhileWorking, TraceOk, FillsOf, HonestAt, PastTrigger;
      assert forall i :: 0 <= i < |tr.seen| ==> tr.seen[i] == books[i];
    }
  }

  /** A trigger order over the snapshots that reached it while it worked. */
  lemma {:induction false} TriggerLifeIs(cfg: FillConfig, o: Order, seen: seq<BookTop>)
    requires Launched(o) && o.terms.triggerPrice.Some? && (o.terms.kind.StopMarket? || o.terms.kind.TakeProfit?)
    requires ShownWhileWorking(cfg, o, seen)
    ensures var l, n := Live(cfg, o, seen), |seen| - 1;
            if seen != [] && PastTrigger(o.terms, seen[n]) then l.order.status.Filled? && FiredAt(cfg, o.terms, seen, n, l.fills)
            else l == Life(o, []) && forall i :: 0 <= i < |seen| ==> !PastTrigger(o.terms, seen[i])
  {
    if seen != [] {
      var init, b := seen[..|seen| - 1], seen[|seen| - 1];
      hide ShownWhileWorking, FiredAt, Advance, PastTrigger;
      ShownPrefix(cfg, o, seen);
      TriggerLifeIs(cfg, o, init);
      assert Live(cfg, o, init) == Life(o, []);
      AdvanceTrigger(cfg, o, seen);
    }
  }

  /** One more snapshot for a trigger order that has met none that reached its trigger. */
  lemma AdvanceTrigger(cfg: FillConfig, o: Order, seen: seq<BookTop>)
    requires Launched(o) && o.terms.triggerPrice.Some? && (o.terms.kind.StopMarket? || o.terms.kind.TakeProfit?)
    requires seen != [] && forall i :: 0 <= i < |seen| - 1 ==> !PastTrigger(o.terms, seen[i])
    ensures var n := |seen| - 1;
            var l := Advance(cfg, Life(o, []), seen[n]);
            if PastTrigger(o.terms, seen[n]) then l.order.status.Filled? && FiredAt(cfg, o.terms, seen, n, l.fills)
            else l == Life(o, [])
  {
    hide HonestAt, MakeFill, ApplySlippage, AdverseBps;
    var b := seen[|seen| - 1];
    TriggerOrderFillsExactly(cfg, o, b);
    AdvanceHonest(cfg, o.terms, [], Life(o, []), b);
    assert [] + [b] == [b];
  }

  /** In every such run, the fills of a limit or stop-limit order are one for each of the eligible
      snapshots after its submission that it hits, of what it then still wants or as much as is
      displayed: of all of them, unless the order was cancelled or turned down; of those up to then
      otherwise. Only a post-only order that hits before it rests is turned down at work, and an
      immediate-or-cancel order that works has missed none. */
  lemma LimitOrdersFillExactly(cfg: FillConfig, starting: real, actions: seq<Action>, k: nat)
    requires Proper(cfg, NewEngine(NewAccount(starting)), actions) && Priced(actions)
    requires k < |actions| && actions[k].SubmitOrder? && HasLimit(actions[k].order.terms.kind)
    ensures var o, e := actions[k].order, Run(cfg, NewEngine(NewAccount(starting)), actions);
            PricedLimit(o.terms) && LimitCourse(cfg, e, o.terms, EligibleBooks(cfg, o.terms.symbol, actions[k].now, actions[k + 1..]))
  {
    hide Proper, Run, Lived, LimitCourse;
    EveryOrderMeetsItsBooks(cfg, starting, actions, k);
    var o, e := actions[k].order, Run(cfg, NewEngine(NewAccount(starting)), actions);
    LimitLife(cfg, e, o, actions[k].now, EligibleBooks(cfg, o.terms.symbol, actions[k].now, actions[k + 1..]));
  }

  ghost predicate LimitCourse(cfg: FillConfig, e: Engine, t: Terms, books: seq<BookTop>)
    requires PricedLimit(t)
  {
    && t.id in e.traces
    && var tr, fills := e.traces[t.id], FillsOf(e.log, t.id);
       && tr.seen <= books && fills == FillsOver(cfg, t, tr.seen)
       && (!tr.last.status.Cancelled? && !tr.last.status.Rejected? ==>
             fills == FillsOver(cfg, t, books) && (tr.last.status.Filled? <==> FilledBy(fills) == t.qty))
       && (tr.initial.status.Accepted? && tr.last.status.Rejected? ==>
             var n := |tr.seen| - 1;
             n >= 0 && t.tif.PostOnly? && Hits(t, tr.seen[n]) && !Rests(t, tr.seen[..n]))
       && (t.tif.Ioc? && t.id in e.pending.vals ==> !Rests(t, books))
  }

  lemma LimitLife(cfg: FillConfig, e: Engine, o: Order, now: int, books: seq<BookTop>)
    requires Lived(cfg, e, o, now, books) && PricedLimit(o.terms)
    ensures LimitCourse(cfg, e, o.terms, books)
  {
    var tr, fills := e.traces[o.terms.id], FillsOf(e.log, o.terms.id);
    hide Live, ShownWhileWorking, FillsOf, SeenInTime, FillsOver, Rests, Hits, PricedLimit;
    if TurnedAway(tr, fills) {
      NoFillsYet(cfg, o.terms);
    } else {
      LifeFills(cfg, tr.initial, tr.seen);
      LifeIsSound(cfg, tr.initial, tr.seen);
      LifeRests(cfg, tr.initial, tr.seen);
      if tr.last.status.Filled? { FilledIsDone(cfg, o.terms, tr.seen, books); }
      if tr.last.status.Rejected? { TurnedDown(cfg, tr.initial, tr.seen); }
    }
  }

  lemma TurnedDown(cfg: FillConfig, o: Order, seen: seq<BookTop>)
    requires Launched(o) && PricedLimit(o.terms) && ShownWhileWorking(cfg, o, seen)
    requires Live(cfg, o, seen).order.status.Rejected?
    ensures seen != [] && o.terms.tif.PostOnly? && Hits(o.terms, seen[|seen| - 1]) && !Rests(o.terms, seen[..|seen| - 1])
  {
    hide TryFill, Rests, Hits;
    if seen != [] {
      ShownPrefix(cfg, o, seen);
      LimitFillsExactly(cfg, o, seen[..|seen| - 1], seen[|seen| - 1]);
    }
  }

  /** In every such run, a trailing stop that is neither turned away nor cancelled is filled exactly
      when the trailing rule held on some of the eligible snapshots after its submission, and then
      by the first of these and no other. */
  lemma TrailingStopsFireFirst(cfg: FillConfig, starting: real, actions: seq<Action>, k: nat)
    requires Proper(cfg, NewEngine(NewAccount(starting)), actions) && Priced(actions)
    requires k < |actions| && actions[k].SubmitOrder? && actions[k].order.terms.kind.TrailingStop?
    ensures var o, e := actions[k].order, Run(cfg, NewEngine(NewAccount(starting)), actions);
            var id, books := o.terms.id, EligibleBooks(cfg, o.terms.symbol, actions[k].now, actions[k + 1..]);
            id in e.traces && o.terms.trailOffset.Some?
            && (!e.traces[id].last.status.Cancelled? && !e.traces[id].last.status.Rejected? ==>
                  var n := |e.traces[id].seen|;
                  && (e.traces[id].last.status.Filled? <==> exists i :: 1 <= i <= |books| && TrailFires(o.terms, books[..i]))
                  && (e.traces[id].last.status.Filled? ==>
                        1 <= n <= |books| && TrailFires(o.terms, books[..n])
                        && forall i :: 1 <= i < n ==> !TrailFires(o.terms, books[..i])))
  {
    hide Proper, Run, TrailFires, Lived;
    EveryOrderMeetsItsBooks(cfg, starting, actions, k);
    var o, e := actions[k].order, Run(cfg, NewEngine(NewAccount(starting)), actions);
    var books := EligibleBooks(cfg, o.terms.symbol, actions[k].now, actions[k + 1..]);
    TrailingLife(cfg, e, o, actions[k].now, books);
  }

  lemma TrailingLife(cfg: FillConfig, e: Engine, o: Order, now: int, books: seq<BookTop>)
    requires Lived(cfg, e, o, now, books) && o.terms.kind.TrailingStop? && o.terms.trailOffset.Some?
    ensures var id := o.terms.id;
            id in e.traces && (!e.traces[id].last.status.Cancelled? && !e.traces[id].last.status.Rejected? ==>
              var n := |e.traces[id].seen|;
              && (e.traces[id].last.status.Filled? <==> exists i :: 1 <= i <= |books| && TrailFires(o.terms, books[..i]))
              && (e.traces[id].last.status.Filled? ==>
                    1 <= n <= |books| && TrailFires(o.terms, books[..n])
                    && forall i :: 1 <= i < n ==> !TrailFires(o.terms, books[..i])))
  {
    var tr := e.traces[o.terms.id];
    if !tr.last.status.Cancelled? && !tr.last.status.Rejected? {
      LivedOn(cfg, e, o, now, books);
      TrailingFiresFirst(cfg, tr.initial, tr.seen);
      hide TrailFires, Live, ShownWhileWorking, TraceOk, FillsOf;
      var n := |tr.seen|;
      assert forall i :: 0 <= i <= n ==> tr.seen[..i] == books[..i];
      assert tr.seen[..n] == tr.seen && books[..n] == tr.seen;
      if n == 0 { assert Live(cfg, tr.initial, tr.seen).order.status.Filled? ==> false by { EmptyLife(cfg, tr.initial); } }
    }
  }

  lemma EmptyLife(cfg: FillConfig, o: Order)
    requires Launched(o)
    ensures !Live(cfg, o, []).order.status.Filled?
  {
  }
}
