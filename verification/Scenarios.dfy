/** Concrete runs in which the engine does not keep what is expected of it. */
module Scenarios {
  import opened Prelude
  import opened Models
  import opened Fills
  import opened Accounting
  import opened EngineSpec
  import opened EngineRuns
  import opened EngineTheorems
  import opened EngineBooks
  import opened Flattening

  /** No fees, no slippage. */
  function Frictionless(latencyMs: nat): FillConfig { FillConfig(0.0, 0.0, Touch, 0.0, latencyMs, 0.0, true) }

  function Quote(tsMs: int, price: real): BookTop { BookTop("X", tsMs, price, price, 5.0, 5.0) }

  const FRESH := NewEngine(NewAccount(1000.0))

  /** A long of 1 at 100 with its stop at 90. */
  function EntryTerms(): Terms { MarketTerms(Caller(0), "X", Buy, 1.0, false, Manual).(attachStopLoss := Some(90.0)) }

  function LongWithStop(latencyMs: nat): seq<Action> {
    [SubmitOrder(NewOrder(EntryTerms()), 0), Book(Quote(latencyMs, 100.0))]
  }

  lemma EntryWorks(latencyMs: nat)
    ensures var e := Run(Frictionless(latencyMs), FRESH, LongWithStop(latencyMs)[..1]);
            && e.pending.keys == [Caller(0)] && e.account == FRESH.account && e.traces.Keys == {Caller(0)} && e.serial == 0
            && e.pending.vals[Caller(0)] == Pending(NewOrder(EntryTerms()).(status := Accepted), 0)
  {
    var acts := LongWithStop(latencyMs);
    RunPrefix(Frictionless(latencyMs), FRESH, acts, 0);
    assert acts[..0] == [];
  }

  /** The first snapshot fills the entry and attaches the stop. */
  lemma EntryFills(latencyMs: nat, e: Engine)
    requires e.pending.keys == [Caller(0)] && e.account == FRESH.account && e.traces.Keys == {Caller(0)}
    requires e.pending.vals[Caller(0)] == Pending(NewOrder(EntryTerms()).(status := Accepted), 0)
    ensures var t := Visit(Frictionless(latencyMs), e, Caller(0), Quote(latencyMs, 100.0));
            && !t.raised && t.engine.pending.keys == [] && t.engine.traces.Keys == {Caller(0)}
            && t.engine.account.positions.keys == ["X"]
            && t.engine.account.positions.vals["X"]
               == Position("X", Buy, 1.0, 100.0, 1.0, 1.0, 0.0, 0.0, 0.0, 0.0, Some(90.0), None, latencyMs)
  {
    var cfg, b, o := Frictionless(latencyMs), Quote(latencyMs, 100.0), e.pending.vals[Caller(0)].order;
    var t := TryFill(cfg, o, b);
    assert t.Done? && t.fill == Some(Fill(Caller(0), "X", Buy, 1.0, 100.0, 0.0, Taker, 0.0, latencyMs, latencyMs));
    hide TryFill;
    assert ApplyFill(e.account, t.fill.value, 1.0) == Opened(e.account, t.fill.value, 1.0);
  }

  lemma StopIsOpen(latencyMs: nat)
    ensures var e := Run(Frictionless(latencyMs), FRESH, LongWithStop(latencyMs));
            && e.pending.keys == [] && Caller(1) !in e.traces
            && e.account.positions.keys == ["X"]
            && e.account.positions.vals["X"]
               == Position("X", Buy, 1.0, 100.0, 1.0, 1.0, 0.0, 0.0, 0.0, 0.0, Some(90.0), None, latencyMs)
    ensures Proper(Frictionless(latencyMs), FRESH, LongWithStop(latencyMs))
  {
    var cfg, acts, b := Frictionless(latencyMs), LongWithStop(latencyMs), Quote(latencyMs, 100.0);
    hide Visit, CheckProtections, Submit;
    EntryWorks(latencyMs);
    RunPrefix(cfg, FRESH, acts, 1);
    assert acts[..2] == acts && acts[..0] == [];
    hide Run;
    var e := Run(cfg, FRESH, acts[..1]);
    EntryFills(latencyMs, e);
    var t := Visit(cfg, e, Caller(0), b);
    SweepSingle(cfg, e, Caller(0), b);
    StopNotReached(cfg, t.engine, b);
    assert Run(cfg, FRESH, []) == FRESH by { NoActions(cfg); }
  }

  lemma NoActions(cfg: FillConfig)
    ensures Run(cfg, FRESH, []) == FRESH
  {
  }

  lemma SweepSingle(cfg: FillConfig, e: Engine, id: OrderId, b: BookTop)
    ensures Sweep(cfg, e, [id], b) == Visit(cfg, e, id, b)
  {
    hide Visit;
    assert [id][1..] == [];
    assert Sweep(cfg, Visit(cfg, e, id, b).engine, [], b) == Tick(Visit(cfg, e, id, b).engine, false);
  }

  lemma StopNotReached(cfg: FillConfig, e: Engine, b: BookTop)
    requires b.symbol in e.account.positions.vals ==> InsideProtections(e.account.positions.vals[b.symbol], b.Mid())
    ensures CheckProtections(cfg, e, b) == e
  {
  }

  // ---- An order without its price ---------------------------------------------------------------

  /** A limit order without a limit, but with a trigger price, which the risk gate takes as its stop. */
  function UnpricedTerms(): Terms {
    MarketTerms(Caller(1), "X", Buy, 1.0, false, Manual).(kind := Limit, triggerPrice := Some(95.0))
  }

  function UnpricedLimit(): seq<Action> { LongWithStop(0) + [SubmitOrder(NewOrder(UnpricedTerms()), 2)] }

  /** The promise that a position is always inside its protections therefore fails once one
      unpriced limit order is working: the mid falls to 80 and the stop at 90 does nothing. */
  lemma UnpricedLimitDisablesStop()
    ensures var b := Quote(3, 80.0);
            var t := OnBook(Frictionless(0), Run(Frictionless(0), FRESH, UnpricedLimit()), b);
            && Proper(Frictionless(0), FRESH, UnpricedLimit())
            && t.raised
            && "X" in t.engine.account.positions.vals
            && !InsideProtections(t.engine.account.positions.vals["X"], b.Mid())
  {
    var cfg, first, o, b := Frictionless(0), LongWithStop(0), NewOrder(UnpricedTerms()), Quote(3, 80.0);
    hide Run;
    StopIsOpen(0);
    RunConcat(cfg, FRESH, first, [SubmitOrder(o, 2)]);
    ProperConcat(cfg, FRESH, first, [SubmitOrder(o, 2)]);
    var e := Run(cfg, FRESH, first);
    OneAction(cfg, e, SubmitOrder(o, 2));
    hide Submit, Visit, Sweep, Proper, OnBook, InsideProtections, LongWithStop;
    UnpricedWorks(e);
    StuckOnUnpriced(Submit(e, o, 2), b);
    StopReached(Submit(e, o, 2).account.positions.vals["X"], b);
  }

  lemma UnpricedWorks(e: Engine)
    requires e.pending.keys == []
    ensures var e' := Submit(e, NewOrder(UnpricedTerms()), 2);
            && e'.pending.keys == [Caller(1)] && e'.account == e.account
            && e'.pending.vals[Caller(1)] == Pending(NewOrder(UnpricedTerms()).(status := Accepted), 2)
  {
  }

  lemma StuckOnUnpriced(e: Engine, b: BookTop)
    requires e.pending.keys == [Caller(1)] && b.symbol == "X" && b.tsMs >= 2
    requires e.pending.vals[Caller(1)] == Pending(NewOrder(UnpricedTerms()).(status := Accepted), 2)
    ensures OnBook(Frictionless(0), e, b).raised && OnBook(Frictionless(0), e, b).engine.account == e.account
  {
    var cfg, o := Frictionless(0), NewOrder(UnpricedTerms()).(status := Accepted);
    assert TryFill(cfg, o, b) == Raised(o);
    hide TryFill;
    SweepSingle(cfg, e, Caller(1), b);
  }

  lemma StopReached(p: Position, b: BookTop)
    requires p.side.Buy? && p.stopLoss == Some(90.0) && b.Mid() == 80.0
    ensures !InsideProtections(p, b.Mid())
  {
  }

  lemma OneAction(cfg: FillConfig, e: Engine, a: Action)
    ensures Run(cfg, e, [a]) == Step(cfg, e, a)
    ensures Proper(cfg, e, [a]) <==> Admissible(e, a)
  {
    hide Step, Admissible;
    assert [a][..0] == [];
    assert Run(cfg, e, []) == e;
  }

  // ---- A stop inside the latency of a flatten -----------------------------------------------------

  /** Flattened at 20; at 25 the mid falls to 80; at 30 the close, delayed by 10, is eligible. */
  function FlattenedLong(): seq<Action> { LongWithStop(10) + [Flatten(20)] + [Book(Quote(25, 80.0))] + [Book(Quote(30, 85.0))] }

  lemma FlattenedByHand(cfg: FillConfig, e: Engine, now: int, b: BookTop, b': BookTop)
    ensures Run(cfg, e, [Flatten(now)] + [Book(b)] + [Book(b')]) == Feed(cfg, FlattenAll(e, now), [b, b'])
    ensures Proper(cfg, e, [Flatten(now)] + [Book(b)] + [Book(b')])
  {
    hide OnBook, FlattenAll, Run, Proper;
    var f, g := FlattenAll(e, now), OnBook(cfg, FlattenAll(e, now), b).engine;
    OneAction(cfg, e, Flatten(now));
    OneAction(cfg, f, Book(b));
    OneAction(cfg, g, Book(b'));
    RunConcat(cfg, e, [Flatten(now)], [Book(b)]);
    RunConcat(cfg, e, [Flatten(now)] + [Book(b)], [Book(b')]);
    ProperConcat(cfg, e, [Flatten(now)], [Book(b)]);
    ProperConcat(cfg, e, [Flatten(now)] + [Book(b)], [Book(b')]);
    assert [b, b'][1..] == [b'] && [b'][1..] == [];
    assert Feed(cfg, g, [b']) == Feed(cfg, OnBook(cfg, g, b').engine, []);
  }

  lemma StoppedThenReopened(cfg: FillConfig, e: Engine)
    requires Sound(cfg, e) && cfg.latencyMs == 10 && e.account.positions.keys == ["X"]
    requires var p := e.account.positions.vals["X"]; p.symbol == "X" && p.side == Buy && p.qty == 1.0 && p.stopLoss == Some(90.0)
    ensures var f := Feed(cfg, FlattenAll(e, 20), [Quote(25, 80.0), Quote(30, 85.0)]);
            && f.pending.keys == [] && "X" in f.account.positions.vals
            && f.account.positions.vals["X"].side == Sell && f.account.positions.vals["X"].qty == 1.0
  {
    var books := [Quote(25, 80.0), Quote(30, 85.0)];
    hide Feed, FlattenAll, HitEarly, HasLate, Sound, Quote;
    StopHitEarly(cfg, e.account.positions.vals["X"], Quote(25, 80.0), Quote(30, 85.0));
    assert forall s :: s in e.account.positions.vals ==> s in e.account.positions.keys;
    FlattenEndsFlatExactly(cfg, e, 20, books);
    assert Flattened(cfg, e, 20, books, Feed(cfg, FlattenAll(e, 20), books), "X");
  }

  /** The run in two parts: up to the flatten, and from there. */
  lemma InTwoParts(cfg: FillConfig, first: seq<Action>, b: BookTop, b': BookTop)
    requires Proper(cfg, FRESH, first)
    ensures var all := first + [Flatten(20)] + [Book(b)] + [Book(b')];
            && Run(cfg, FRESH, all) == Feed(cfg, FlattenAll(Run(cfg, FRESH, first), 20), [b, b'])
            && Proper(cfg, FRESH, all)
  {
    hide Run, Feed, FlattenAll, Proper;
    var rest := [Flatten(20)] + [Book(b)] + [Book(b')];
    assert first + [Flatten(20)] + [Book(b)] + [Book(b')] == first + rest;
    FlattenedByHand(cfg, Run(cfg, FRESH, first), 20, b, b');
    RunConcat(cfg, FRESH, first, rest);
    ProperConcat(cfg, FRESH, first, rest);
  }

  /** A flatten that does not flatten: the stop closes the long inside the latency, and the
      reduce-only close then opens a short of the same size. */
  lemma StopInsideFlattenReopens()
    ensures var e := Run(Frictionless(10), FRESH, FlattenedLong());
            && Proper(Frictionless(10), FRESH, FlattenedLong())
            && e.pending.keys == [] && "X" in e.account.positions.vals
            && e.account.positions.vals["X"].side == Sell && e.account.positions.vals["X"].qty == 1.0
  {
    hide Run, Feed, FlattenAll, Proper, Sound, LongWithStop, Quote;
    StopIsOpen(10);
    RunSound(Frictionless(10), 1000.0, LongWithStop(10));
    StoppedThenReopened(Frictionless(10), Run(Frictionless(10), FRESH, LongWithStop(10)));
    InTwoParts(Frictionless(10), LongWithStop(10), Quote(25, 80.0), Quote(30, 85.0));
  }

  lemma StopHitEarly(cfg: FillConfig, p: Position, b: BookTop, b': BookTop)
    requires cfg.latencyMs == 10 && p.symbol == "X" && p.side == Buy && p.stopLoss == Some(90.0)
    requires b == Quote(25, 80.0) && b' == Quote(30, 85.0)
    ensures HitEarly(cfg, p, 20, [b, b']) && HasLate(cfg, "X", 20, [b, b'])
  {
    assert HitEarlyAt(cfg, p, 20, [b, b'], 0);
    assert [b, b'][1] == b';
  }
}
