/** The exits of `_check_protections` over whole runs: none without its reason. */
module ProtectionExits {
  import opened Prelude
  import opened Models
  import opened Fills
  import opened OrderLife
  import opened Accounting
  import opened EngineSpec
  import opened EngineRuns
  import opened EngineTheorems
  import opened EngineBooks

  /** The fills are one, the one that closed the position of `t` on the snapshot `b`, and the mid of
      that snapshot was not strictly inside the protections of the position. */
  ghost predicate JustifiedBy(fills: seq<Fill>, t: ClosedTrade, b: BookTop) {
    && |fills| == 1 && t.position.symbol == b.symbol && !InsideProtections(t.position, b.Mid())
    && var f := fills[0];
       && f.symbol == b.symbol && f.side == t.position.side.Opposite()
       && f.tsMs == b.tsMs == t.closedMs && f.price == t.exitPrice
  }

  ghost predicate Justified(e: Engine, id: OrderId)
    requires id in e.traces
  {
    exists k, b :: 0 <= k < |e.account.closed| && e.traces[id].seen == [b]
                   && JustifiedBy(FillsOf(e.log, id), e.account.closed[k], b)
  }

  ghost predicate AllJustified(e: Engine) { forall id :: id in e.traces && id.ProtectionExit? ==> Justified(e, id) }

  lemma ExitKnown(cfg: FillConfig, e: Engine, b: BookTop, id: OrderId)
    requires id in CheckProtections(cfg, e, b).traces && id !in e.traces
    ensures id == ProtectionExit(e.serial)
  {
    hide TryFill, ApplyFill, Attach;
  }

  lemma ExitIsJustified(cfg: FillConfig, e: Engine, b: BookTop, id: OrderId)
    requires Sound(cfg, e) && id in CheckProtections(cfg, e, b).traces && id !in e.traces
    ensures Justified(CheckProtections(cfg, e, b), id)
  {
    hide CheckProtections, TraceOk, InsideProtections, FillsOf;
    var e' := CheckProtections(cfg, e, b);
    if b.symbol in e.account.positions.vals { OpenPosition(e.account, LedgerOf(e.log), b.symbol); }
    ProtectionsActExactly(cfg, e, b);
    ExitsAreNew(cfg, e, b);
    ExitKnown(cfg, e, b, id);
    var p := e.account.positions.vals[b.symbol];
    var f :| ExitedBy(e, e', p, b, f);
    FillsOfAppend(e.log, Traded(f), id);
    assert FillsOf(e'.log, id) == [f];
    SameProtections(p, e'.account.closed[|e.account.closed|].position, b.Mid());
    assert JustifiedBy(FillsOf(e'.log, id), e'.account.closed[|e.account.closed|], b);
  }

  lemma SameProtections(p: Position, q: Position, mid: real)
    requires p.side == q.side && p.stopLoss == q.stopLoss && p.takeProfit == q.takeProfit
    ensures InsideProtections(p, mid) == InsideProtections(q, mid)
  {
  }

  lemma StillJustified(e: Engine, e': Engine, id: OrderId)
    requires id in e.traces && Justified(e, id) && Unchanged(e, e', id) && Extends(e, e')
    ensures Justified(e', id)
  {
    hide JustifiedBy, FillsOf;
    var k, b :| 0 <= k < |e.account.closed| && e.traces[id].seen == [b]
                && JustifiedBy(FillsOf(e.log, id), e.account.closed[k], b);
    assert e'.account.closed[k] == e.account.closed[k];
  }

  lemma BookKeepsJustified(cfg: FillConfig, e: Engine, b: BookTop, id: OrderId)
    requires Sound(cfg, e) && id in OnBook(cfg, e, b).engine.traces && id !in e.traces
    ensures Justified(OnBook(cfg, e, b).engine, id)
  {
    hide Sound, Sweep, CheckProtections, Justified;
    SweepAddsNothing(cfg, e, e.pending.keys, b);
    SweepSound(cfg, e, e.pending.keys, b);
    var t := Sweep(cfg, e, e.pending.keys, b);
    if !t.raised { ExitIsJustified(cfg, t.engine, b, id); }
  }

  lemma ExitsEnd(cfg: FillConfig, e: Engine, id: OrderId)
    requires Sound(cfg, e) && id in e.traces && id.ProtectionExit?
    ensures Ended(e, id)
  {
    hide Worked, TurnedAway, SeenInTime, FillsOf, Refines;
    assert TraceOk(cfg, e, id);
  }

  lemma StepExtends(cfg: FillConfig, e: Engine, a: Action)
    ensures Extends(e, Step(cfg, e, a))
  {
    hide OnBook, CancelEach, FlattenEach, WorkingIn;
    match a {
      case SubmitOrder(o, now) =>
      case CancelOrder(id) =>
      case CancelOrders(symbol) => CancelsExactly(e, symbol);
      case Book(b) => BookExtends(cfg, e, b);
      case Flatten(now) => CancelsExactly(e, None); FlattenKeepsAccount(e, now);
      case Funding(symbol, rate, mark) =>
    }
  }

  lemma {:induction false} FlattenEachAccount(e: Engine, symbols: seq<Symbol>, now: int)
    requires forall s :: s in symbols ==> s in e.account.positions.vals
    ensures FlattenEach(e, symbols, now).account == e.account && FlattenEach(e, symbols, now).log == e.log
    decreases |symbols|
  {
    hide CloseOrder, Submit;
    if symbols != [] {
      var o := CloseOrder(e.account.positions.vals[symbols[0]], e.serial);
      SubmitKeeps(e.(serial := e.serial + 1), o, now);
      FlattenEachAccount(Submit(e.(serial := e.serial + 1), o, now), symbols[1..], now);
    }
  }

  lemma FlattenKeepsAccount(e: Engine, now: int)
    ensures FlattenAll(e, now).account == e.account && FlattenAll(e, now).log == e.log
  {
    CancelsExactly(e, None);
    var c := CancelAll(e, None);
    hide CancelAll;
    FlattenEachAccount(c, c.account.positions.keys, now);
  }

  /** No other step constructs a protection exit. */
  lemma OnlyBooksExit(cfg: FillConfig, e: Engine, a: Action, id: OrderId)
    requires Sound(cfg, e) && Admissible(e, a) && !a.Book?
    requires id.ProtectionExit? && id in Step(cfg, e, a).traces
    ensures id in e.traces
  {
    hide Sound, OnBook, FlattenAll, CancelEach, WorkingIn;
    match a {
      case SubmitOrder(o, now) =>
      case CancelOrder(x) => CancelEachAddsNothing(e, [x]); OneCancel(e, x);
      case CancelOrders(symbol) => CancelEachAddsNothing(e, WorkingIn(e.pending, symbol, e.pending.keys));
      case Flatten(now) => if id !in e.traces { FlattenNewcomers(cfg, e, now, id); }
      case Funding(symbol, rate, mark) =>
    }
  }

  lemma OneCancel(e: Engine, x: OrderId)
    ensures Cancel(e, x).traces.Keys == e.traces.Keys
  {
  }

  lemma StepIsBook(cfg: FillConfig, e: Engine, a: Action)
    requires a.Book?
    ensures Step(cfg, e, a) == OnBook(cfg, e, a.book).engine
  {
  }

  lemma StepKeepsJustified(cfg: FillConfig, e: Engine, a: Action)
    requires Sound(cfg, e) && Admissible(e, a) && AllJustified(e)
    ensures AllJustified(Step(cfg, e, a))
  {
    hide Step, Sound, Justified, Admissible, Unchanged, Extends, Ended;
    var e' := Step(cfg, e, a);
    StepExtends(cfg, e, a);
    forall id | id in e'.traces && id.ProtectionExit?
      ensures Justified(e', id)
    {
      if id in e.traces {
        ExitsEnd(cfg, e, id);
        EndedIsFinal(cfg, e, a, id);
        StillJustified(e, e', id);
      } else if a.Book? {
        StepIsBook(cfg, e, a);
        BookKeepsJustified(cfg, e, a.book, id);
      } else {
        OnlyBooksExit(cfg, e, a, id);
      }
    }
  }

  /** In every run, whatever is submitted, cancelled, flattened or funded: each exit that a protection
      ordered met one snapshot, whose mid was at its position's stop loss or take profit or beyond it,
      and closed that position there with one fill. */
  lemma {:induction false} NoExitWithoutReason(cfg: FillConfig, starting: real, actions: seq<Action>)
    requires Proper(cfg, NewEngine(NewAccount(starting)), actions)
    ensures AllJustified(Run(cfg, NewEngine(NewAccount(starting)), actions))
  {
    hide Sound, Step, Justified, Admissible;
    if actions != [] {
      var e0, n := NewEngine(NewAccount(starting)), |actions| - 1;
      ProperPrefix(cfg, e0, actions, n);
      NoExitWithoutReason(cfg, starting, actions[..n]);
      RunSound(cfg, starting, actions[..n]);
      StepKeepsJustified(cfg, Run(cfg, e0, actions[..n]), actions[n]);
    }
  }
}
