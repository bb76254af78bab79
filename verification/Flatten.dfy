/** `flatten_all`: what it leaves pending, when it completes, and when it does not. */
module Flattening {
  import opened Prelude
  import opened Models
  import opened Fills
  import opened Accounting
  import opened EngineSpec
  import opened EngineRuns
  import opened EngineTheorems
  import opened EngineBooks
  import opened OrderLife

  // ---- What flatten_all leaves pending ------------------------------------------------

  function ClosePending(p: Position, serial: nat, now: int): Pending {
    Pending(CloseOrder(p, serial).(status := Accepted), now)
  }

  /** `id` is the accepted full-size close of the open position in `s`, submitted at `now`. */
  ghost predicate Closes(e: Engine, id: OrderId, s: Symbol, now: int) {
    && s in e.account.positions.vals && id in e.pending.vals
    && id.FlattenClose?
    && e.pending.vals[id] == ClosePending(e.account.positions.vals[s], id.n, now)
    && e.account.positions.vals[s].symbol == s
  }

  /** The working orders are the closes of the positions in `symbols`, in that order. */
  ghost predicate Pends(e: Engine, symbols: seq<Symbol>, now: int) {
    && |e.pending.keys| == |symbols|
    && (forall i :: 0 <= i < |symbols| ==> Closes(e, e.pending.keys[i], symbols[i], now))
    && (forall id :: id in e.pending.vals ==> id.FlattenClose? && id.n < e.serial)
  }

  lemma SubmitPends(e: Engine, symbols: seq<Symbol>, s: Symbol, now: int)
    requires Pends(e, symbols, now)
    requires s in e.account.positions.vals
    requires e.account.positions.vals[s].symbol == s && e.account.positions.vals[s].qty > 0.0
    ensures var e' := Submit(e.(serial := e.serial + 1), CloseOrder(e.account.positions.vals[s], e.serial), now);
            Pends(e', symbols + [s], now) && e'.account == e.account
  {
    var o := CloseOrder(e.account.positions.vals[s], e.serial);
    var e' := Submit(e.(serial := e.serial + 1), o, now);
    assert Acceptable(e.account, o.terms);
    var all := symbols + [s];
    forall i | 0 <= i < |all|
      ensures Closes(e', e'.pending.keys[i], all[i], now)
    {
      if i < |symbols| {
        assert Closes(e, e.pending.keys[i], symbols[i], now);
        assert e.pending.keys[i] in e.pending.vals;
      }
    }
  }

  lemma {:induction false} FlattenEachPends(e: Engine, done: seq<Symbol>, rest: seq<Symbol>, now: int)
    requires Pends(e, done, now)
    requires forall s :: s in rest ==> s in e.account.positions.vals
                                       && e.account.positions.vals[s].symbol == s && e.account.positions.vals[s].qty > 0.0
    ensures Pends(FlattenEach(e, rest, now), done + rest, now)
    ensures FlattenEach(e, rest, now).account == e.account
    decreases |rest|
  {
    hide Pends, Submit;
    if rest == [] {
      assert done + rest == done;
    } else {
      SubmitPends(e, done, rest[0], now);
      var e' := Submit(e.(serial := e.serial + 1), CloseOrder(e.account.positions.vals[rest[0]], e.serial), now);
      FlattenEachPends(e', done + [rest[0]], rest[1..], now);
      assert done + [rest[0]] + rest[1..] == done + rest;
    }
  }

  /** After `flatten_all` the working orders are, one for one and in the same order, the
      accepted reduce-only market closes of the open positions at their full size. */
  lemma FlattenPendsOneClosePerPosition(cfg: FillConfig, e: Engine, now: int)
    requires Sound(cfg, e)
    ensures FlattenAll(e, now).account == e.account
    ensures Pends(FlattenAll(e, now), e.account.positions.keys, now)
  {
    CancelAllEmpties(e);
    var c := CancelAll(e, None);
    hide CancelAll, FlattenEach, Sound;
    SoundTracks(cfg, e);
    forall s | s in e.account.positions.keys
      ensures e.account.positions.vals[s].symbol == s && e.account.positions.vals[s].qty > 0.0
    {
      OpenPosition(e.account, LedgerOf(e.log), s);
    }
    assert forall id :: id in c.pending.vals <==> id in c.pending.keys;
    assert Pends(c, [], now);
    FlattenEachPends(c, [], e.account.positions.keys, now);
    assert [] + e.account.positions.keys == e.account.positions.keys;
  }

  // ---- Completion -------------------------------------------------------------------------

  /** Every working order closes an open position, each open position has one such order. */
  ghost predicate ReadyToClose(e: Engine, now: int) {
    && (forall id :: id in e.pending.vals ==> Closes(e, id, e.pending.vals[id].order.terms.symbol, now))
    && (forall s :: s in e.account.positions.vals ==> exists id :: Closes(e, id, s, now))
    && (forall x, y, s :: Closes(e, x, s, now) && Closes(e, y, s, now) ==> x == y)
  }

  lemma ClosesOnce(e: Engine, id: OrderId, s: Symbol, t: Symbol, now: int)
    requires Closes(e, id, s, now) && Closes(e, id, t, now)
    ensures s == t == e.pending.vals[id].order.terms.symbol
  {
  }

  lemma PendsIsReady(e: Engine, now: int)
    requires Pends(e, e.account.positions.keys, now)
    ensures ReadyToClose(e, now)
  {
    hide Closes;
    var keys, symbols := e.pending.keys, e.account.positions.keys;
    forall id | id in e.pending.vals
      ensures Closes(e, id, e.pending.vals[id].order.terms.symbol, now)
    {
      assert id in keys;
      var i :| 0 <= i < |keys| && keys[i] == id;
      ClosesOnce(e, id, symbols[i], symbols[i], now);
    }
    forall s | s in e.account.positions.vals
      ensures exists id :: Closes(e, id, s, now)
    {
      assert s in symbols;
      var i :| 0 <= i < |symbols| && symbols[i] == s;
      assert Closes(e, keys[i], s, now);
    }
    forall x, y, s | Closes(e, x, s, now) && Closes(e, y, s, now)
      ensures x == y
    {
      ClosesPending(e, x, s, now);
      ClosesPending(e, y, s, now);
      var i :| 0 <= i < |keys| && keys[i] == x;
      var j :| 0 <= j < |keys| && keys[j] == y;
      ClosesOnce(e, x, s, symbols[i], now);
      ClosesOnce(e, y, s, symbols[j], now);
    }
  }

  lemma ClosesPending(e: Engine, id: OrderId, s: Symbol, now: int)
    requires Closes(e, id, s, now)
    ensures id in e.pending.keys
  {
  }

  lemma FlattenIsReady(cfg: FillConfig, e: Engine, now: int)
    requires Sound(cfg, e)
    ensures ReadyToClose(FlattenAll(e, now), now)
  {
    hide FlattenAll, Sound, Pends, ReadyToClose;
    FlattenPendsOneClosePerPosition(cfg, e, now);
    PendsIsReady(FlattenAll(e, now), now);
  }

  lemma {:induction false} SweepSkips(cfg: FillConfig, e: Engine, ids: seq<OrderId>, b: BookTop)
    requires forall id :: id in ids ==> id !in e.pending.vals || !Eligible(cfg, e.pending.vals[id], b)
    ensures Sweep(cfg, e, ids, b) == Tick(e, false)
    decreases |ids|
  {
    hide Settle;
    if ids != [] {
      assert ids[0] in ids;
      assert Visit(cfg, e, ids[0], b) == Tick(e, false);
      SweepSkips(cfg, e, ids[1..], b);
    }
  }

  /** When one order alone is eligible and leaves the others alone, the sweep is its visit. */
  lemma {:induction false} SweepOne(cfg: FillConfig, e: Engine, ids: seq<OrderId>, b: BookTop, c: OrderId)
    requires Distinct(ids) && c in ids
    requires forall id :: id in ids && id != c ==> id !in e.pending.vals || e.pending.vals[id].order.terms.symbol != b.symbol
    requires forall id :: id in Visit(cfg, e, c, b).engine.pending.vals && id != c ==>
               id in e.pending.vals && Visit(cfg, e, c, b).engine.pending.vals[id] == e.pending.vals[id]
    ensures var t := Visit(cfg, e, c, b);
            Sweep(cfg, e, ids, b) == t
    decreases |ids|
  {
    hide Settle;
    var t := Visit(cfg, e, c, b);
    if ids[0] == c {
      if !t.raised {
        forall id | id in ids[1..]
          ensures id !in t.engine.pending.vals || !Eligible(cfg, t.engine.pending.vals[id], b)
        {
          assert id in ids && id != c;
        }
        SweepSkips(cfg, t.engine, ids[1..], b);
      }
    } else {
      assert ids[0] in ids;
      assert Visit(cfg, e, ids[0], b) == Tick(e, false);
      assert c in ids[1..];
      SweepOne(cfg, e, ids[1..], b, c);
    }
  }

  /** The visit of a closing order fills it whole. */
  lemma CloseFills(cfg: FillConfig, e: Engine, id: OrderId, now: int, b: BookTop)
    requires Closes(e, id, b.symbol, now) && b.tsMs >= now + cfg.latencyMs
    ensures var t := Visit(cfg, e, id, b);
            && !t.raised
            && t.engine.pending == Del(e.pending, id)
            && t.engine.account.positions == Del(e.account.positions, b.symbol)
  {
    var p, o := e.account.positions.vals[b.symbol], e.pending.vals[id].order;
    var f := TryFill(cfg, o, b).fill.value;
    assert f.qty == p.qty && f.side == p.side.Opposite() && f.symbol == b.symbol;
    FullCloseRemoves(e.account, f, o.terms.leverage);
    hide ApplyFill;
  }

  function Feed(cfg: FillConfig, e: Engine, books: seq<BookTop>): Engine
    decreases |books|
  {
    if books == [] then e else Feed(cfg, OnBook(cfg, e, books[0]).engine, books[1..])
  }

  lemma {:induction false} FeedSound(cfg: FillConfig, e: Engine, books: seq<BookTop>)
    requires Sound(cfg, e)
    ensures Sound(cfg, Feed(cfg, e, books)) && Feed(cfg, e, books).account.starting == e.account.starting
    decreases |books|
  {
    hide Sound, OnBook;
    if books != [] {
      StepSound(cfg, e, Book(books[0]));
      StepKeepsStarting(cfg, e, Book(books[0]));
      FeedSound(cfg, OnBook(cfg, e, books[0]).engine, books[1..]);
    }
  }

  /** A reached protection removes the position and leaves the working orders as they are. */
  lemma ExitCloses(cfg: FillConfig, e: Engine, b: BookTop, p: Position)
    requires b.symbol in e.account.positions.vals && e.account.positions.vals[b.symbol] == p
    requires p.symbol == b.symbol && !InsideProtections(p, b.Mid())
    requires forall id :: id in e.pending.vals ==> !id.ProtectionExit?
    ensures var e' := CheckProtections(cfg, e, b);
            e'.pending == e.pending && e'.account.positions == Del(e.account.positions, b.symbol)
  {
    var o := ExitOrder(p, e.serial);
    var f := TryFill(cfg, o, b).fill.value;
    FullCloseRemoves(e.account, f, o.terms.leverage);
    WithoutAbsent(e.pending.keys, o.terms.id);
    assert e.pending.vals - {o.terms.id} == e.pending.vals;
    hide ApplyFill;
  }

  // ---- One symbol at a time ----------------------------------------------------------------

  /** The same orders work in the symbol `s`. */
  ghost predicate SameWork(d: Dict<OrderId, Pending>, d': Dict<OrderId, Pending>, s: Symbol) {
    && (forall id :: id in d.vals && d.vals[id].order.terms.symbol == s ==> id in d'.vals && d'.vals[id] == d.vals[id])
    && (forall id :: id in d'.vals && d'.vals[id].order.terms.symbol == s ==> id in d.vals && d'.vals[id] == d.vals[id])
  }

  /** What the engine holds of the symbol `s`, its position and its working orders, is the same. */
  ghost predicate SameIn(e: Engine, e': Engine, s: Symbol) {
    Get(e'.account.positions, s) == Get(e.account.positions, s) && SameWork(e.pending, e'.pending, s)
  }

  lemma WorkElsewhere(d: Dict<OrderId, Pending>, id: OrderId, p: Pending, s: Symbol)
    requires p.order.terms.symbol != s && (id in d.vals ==> d.vals[id].order.terms.symbol != s)
    ensures SameWork(d, d, s) && SameWork(d, Del(d, id), s) && SameWork(d, Put(d, id, p), s)
  {
  }

  lemma FillElsewhere(a: Account, f: Fill, leverage: real, s: Symbol)
    requires f.symbol != s && (f.symbol in a.positions.vals ==> a.positions.vals[f.symbol].symbol == f.symbol)
    ensures Get(ApplyFill(a, f, leverage).positions, s) == Get(a.positions, s)
  {
  }

  lemma SettleElsewhere(cfg: FillConfig, e: Engine, o: Order, b: BookTop, s: Symbol)
    requires o.terms.symbol != s
    requires o.terms.id in e.pending.vals ==> e.pending.vals[o.terms.id].order == o
    requires o.terms.symbol in e.account.positions.vals ==> e.account.positions.vals[o.terms.symbol].symbol == o.terms.symbol
    ensures SameIn(e, Settle(cfg, e, o, b).engine, s)
  {
    hide TryFill, ApplyFill, Attach, Put, Del, SameWork;
    TryFillKeepsTerms(cfg, o, b);
    var t, id := TryFill(cfg, o, b), o.terms.id;
    var o' := if t.Raised? then t.order else t.order.(status := t.status);
    WorkElsewhere(e.pending, id, if id in e.pending.vals then e.pending.vals[id].(order := o') else Pending(o', 0), s);
    if t.Done? && t.fill.Some? {
      FillElsewhere(e.account, t.fill.value, o.terms.leverage, s);
      AttachElsewhere(ApplyFill(e.account, t.fill.value, o.terms.leverage), o.terms, s);
    }
  }

  lemma AttachElsewhere(a: Account, t: Terms, s: Symbol)
    requires t.symbol != s
    ensures Get(Attach(a, t).positions, s) == Get(a.positions, s)
  {
  }

  lemma SameInChain(e: Engine, f: Engine, g: Engine, s: Symbol)
    requires SameIn(e, f, s) && SameIn(f, g, s)
    ensures SameIn(e, g, s)
  {
  }

  lemma {:induction false} SweepElsewhere(cfg: FillConfig, e: Engine, ids: seq<OrderId>, b: BookTop, s: Symbol)
    requires Sound(cfg, e) && b.symbol != s
    ensures SameIn(e, Sweep(cfg, e, ids, b).engine, s)
    decreases |ids|
  {
    if ids != [] {
      hide Sound, Visit, SameIn;
      VisitElsewhere(cfg, e, ids[0], b, s);
      VisitSound(cfg, e, ids[0], b);
      var t := Visit(cfg, e, ids[0], b);
      if !t.raised {
        SweepElsewhere(cfg, t.engine, ids[1..], b, s);
        SameInChain(e, t.engine, Sweep(cfg, t.engine, ids[1..], b).engine, s);
      }
    }
  }

  lemma VisitElsewhere(cfg: FillConfig, e: Engine, id: OrderId, b: BookTop, s: Symbol)
    requires Sound(cfg, e) && b.symbol != s
    ensures SameIn(e, Visit(cfg, e, id, b).engine, s)
  {
    hide Settle, TryFill, Worked, FillsOf, Refines, TraceOk, SeenInTime, SoundLife;
    SoundTracks(cfg, e);
    if id in e.pending.vals && Eligible(cfg, e.pending.vals[id], b) {
      var o := e.pending.vals[id].order;
      WorkingAtWork(cfg, e, id);
      if b.symbol in e.account.positions.vals { OpenPosition(e.account, LedgerOf(e.log), b.symbol); }
      SettleElsewhere(cfg, e, o, b, s);
    }
  }

  lemma ExitElsewhere(cfg: FillConfig, e: Engine, b: BookTop, s: Symbol)
    requires Sound(cfg, e) && b.symbol != s
    ensures SameIn(e, CheckProtections(cfg, e, b), s)
  {
    hide OrdersTracked, Refines, Settle, TryFill, ProtectionHit;
    if b.symbol in e.account.positions.vals {
      OpenPosition(e.account, LedgerOf(e.log), b.symbol);
      var o := ExitOrder(e.account.positions.vals[b.symbol], e.serial);
      ExitUnfiled(cfg, e);
      SettleElsewhere(cfg, e.(serial := e.serial + 1, traces := e.traces[o.terms.id := Trace(o, b.tsMs, [], o)]), o, b, s);
    }
  }

  /** A snapshot of another symbol changes nothing in this one. */
  lemma BookElsewhere(cfg: FillConfig, e: Engine, b: BookTop, s: Symbol)
    requires Sound(cfg, e) && b.symbol != s
    ensures SameIn(e, OnBook(cfg, e, b).engine, s)
  {
    hide Sound, Sweep, CheckProtections, SameIn;
    SweepElsewhere(cfg, e, e.pending.keys, b, s);
    SweepSound(cfg, e, e.pending.keys, b);
    var t := Sweep(cfg, e, e.pending.keys, b);
    if !t.raised {
      ExitElsewhere(cfg, t.engine, b, s);
      SameInChain(e, t.engine, CheckProtections(cfg, t.engine, b), s);
    }
  }

  lemma ExitUnfiled(cfg: FillConfig, e: Engine)
    requires OrdersTracked(cfg, e)
    ensures ProtectionExit(e.serial) !in e.pending.vals
  {
    UnusedSerial(cfg, e);
  }

  // ---- The stages of a close -------------------------------------------------------------------

  /** How far the close of one position has come: it waits for its latency; a protection closed the
      position meanwhile; it closed the position; it reopened what a protection had closed. */
  datatype Stage = Waiting | Orphaned | Closed | Reopened

  predicate Late(cfg: FillConfig, now: int, b: BookTop) { b.tsMs >= now + cfg.latencyMs }

  function Next(cfg: FillConfig, p: Position, now: int, stage: Stage, b: BookTop): Stage {
    if b.symbol != p.symbol then stage
    else
      match stage
      case Waiting => if Late(cfg, now, b) then Closed else if !InsideProtections(p, b.Mid()) then Orphaned else Waiting
      case Orphaned => if Late(cfg, now, b) then Reopened else Orphaned
      case _ => stage
  }

  function Outcome(cfg: FillConfig, p: Position, now: int, stage: Stage, books: seq<BookTop>): Stage
    decreases |books|
  {
    if books == [] then stage else Outcome(cfg, p, now, Next(cfg, p, now, stage, books[0]), books[1..])
  }

  /** The position that a close opens for want of one to close: the opposite of `p`, unprotected. */
  predicate OppositeOf(q: Position, p: Position) {
    q.side == p.side.Opposite() && q.qty == p.qty && q.stopLoss.None? && q.takeProfit.None?
  }

  /** The close `c` of the position `p`, the only order of its symbol, has come to this stage. */
  ghost predicate At(e: Engine, c: OrderId, p: Position, now: int, stage: Stage) {
    && (forall id :: id in e.pending.vals && e.pending.vals[id].order.terms.symbol == p.symbol ==> id == c)
    && (stage.Waiting? || stage.Orphaned? ==>
          c in e.pending.vals && c.FlattenClose? && e.pending.vals[c] == ClosePending(p, c.n, now))
    && (stage.Closed? || stage.Reopened? ==>
          c in e.pending.vals ==> e.pending.vals[c].order.terms.symbol != p.symbol)
    && match stage
       case Waiting => Get(e.account.positions, p.symbol) == Some(p)
       case Orphaned => p.symbol !in e.account.positions.vals
       case Closed => p.symbol !in e.account.positions.vals
       case Reopened => p.symbol in e.account.positions.vals && OppositeOf(e.account.positions.vals[p.symbol], p)
  }

  lemma AtElsewhere(e: Engine, e': Engine, c: OrderId, p: Position, now: int, stage: Stage)
    requires At(e, c, p, now, stage) && SameIn(e, e', p.symbol)
    ensures At(e', c, p, now, stage)
  {
  }

  /** A snapshot that no working order is eligible for, and that reaches no protection. */
  lemma IdleBook(cfg: FillConfig, e: Engine, b: BookTop)
    requires forall id :: id in e.pending.vals ==> !Eligible(cfg, e.pending.vals[id], b)
    requires b.symbol in e.account.positions.vals ==> InsideProtections(e.account.positions.vals[b.symbol], b.Mid())
    ensures OnBook(cfg, e, b) == Tick(e, false)
  {
    SweepSkips(cfg, e, e.pending.keys, b);
  }

  /** An early snapshot that reaches the protection closes the position and orphans the close. */
  lemma EarlyExit(cfg: FillConfig, e: Engine, b: BookTop, p: Position)
    requires forall id :: id in e.pending.vals ==> !Eligible(cfg, e.pending.vals[id], b) && !id.ProtectionExit?
    requires Get(e.account.positions, b.symbol) == Some(p) && p.symbol == b.symbol && !InsideProtections(p, b.Mid())
    ensures var e' := OnBook(cfg, e, b).engine;
            e'.pending == e.pending && e'.account.positions == Del(e.account.positions, b.symbol)
  {
    SweepSkips(cfg, e, e.pending.keys, b);
    ExitCloses(cfg, e, b, p);
  }

  /** The late snapshot of the symbol visits the close, and it alone. */
  lemma LateVisit(cfg: FillConfig, e: Engine, c: OrderId, b: BookTop)
    requires c in e.pending.vals
    requires forall id :: id in e.pending.vals && e.pending.vals[id].order.terms.symbol == b.symbol ==> id == c
    requires Visit(cfg, e, c, b).engine.pending == Del(e.pending, c)
    ensures Sweep(cfg, e, e.pending.keys, b) == Visit(cfg, e, c, b)
  {
    hide Visit;
    assert forall id :: id in e.pending.keys <==> id in e.pending.vals;
    SweepOne(cfg, e, e.pending.keys, b, c);
  }

  /** When that visit takes the close away and leaves no protection to reach, the snapshot is over. */
  lemma LateBook(cfg: FillConfig, e: Engine, c: OrderId, b: BookTop)
    requires c in e.pending.vals
    requires forall id :: id in e.pending.vals && e.pending.vals[id].order.terms.symbol == b.symbol ==> id == c
    requires var t := Visit(cfg, e, c, b);
             && !t.raised && t.engine.pending == Del(e.pending, c)
             && (b.symbol in t.engine.account.positions.vals ==>
                   InsideProtections(t.engine.account.positions.vals[b.symbol], b.Mid()))
    ensures OnBook(cfg, e, b) == Visit(cfg, e, c, b)
  {
    hide Visit, Sweep;
    LateVisit(cfg, e, c, b);
  }

  lemma LateClose(cfg: FillConfig, e: Engine, c: OrderId, p: Position, now: int, b: BookTop)
    requires At(e, c, p, now, Waiting) && b.symbol == p.symbol && Late(cfg, now, b)
    ensures At(OnBook(cfg, e, b).engine, c, p, now, Closed)
  {
    hide Visit, OnBook, InsideProtections;
    CloseFills(cfg, e, c, now, b);
    LateBook(cfg, e, c, b);
  }

  /** The visit of an orphaned close opens the opposite position. */
  lemma OrphanOpens(cfg: FillConfig, e: Engine, c: OrderId, p: Position, now: int, b: BookTop)
    requires At(e, c, p, now, Orphaned) && b.symbol == p.symbol && Late(cfg, now, b)
    ensures var t := Visit(cfg, e, c, b);
            && !t.raised && t.engine.pending == Del(e.pending, c)
            && p.symbol in t.engine.account.positions.vals
            && OppositeOf(t.engine.account.positions.vals[p.symbol], p)
  {
    var o := e.pending.vals[c].order;
    var f := TryFill(cfg, o, b).fill.value;
    assert f.qty == p.qty && f.side == p.side.Opposite() && f.symbol == p.symbol;
    var t := Visit(cfg, e, c, b);
    assert t.engine.account == Attach(Opened(e.account, f, o.terms.leverage), o.terms);
  }

  /** The orphaned close meets no position, and opens one: the opposite of what was to close. */
  lemma LateReopen(cfg: FillConfig, e: Engine, c: OrderId, p: Position, now: int, b: BookTop)
    requires At(e, c, p, now, Orphaned) && b.symbol == p.symbol && Late(cfg, now, b)
    ensures At(OnBook(cfg, e, b).engine, c, p, now, Reopened)
  {
    hide Visit, OnBook, InsideProtections;
    OrphanOpens(cfg, e, c, p, now, b);
    Unprotected(Visit(cfg, e, c, b).engine.account.positions.vals[p.symbol], p, b.Mid());
    LateBook(cfg, e, c, b);
  }

  lemma NoExitPends(cfg: FillConfig, e: Engine)
    requires Sound(cfg, e)
    ensures forall id :: id in e.pending.vals ==> !id.ProtectionExit?
  {
    hide Worked, TurnedAway, SeenInTime, FillsOf, Refines;
    assert forall id :: id in e.pending.vals ==> id in e.traces && TraceOk(cfg, e, id);
  }

  /** One snapshot moves every close by one step, whatever symbol it is of. */
  lemma BookMoves(cfg: FillConfig, e: Engine, c: OrderId, p: Position, now: int, stage: Stage, b: BookTop)
    requires Sound(cfg, e) && At(e, c, p, now, stage)
    ensures At(OnBook(cfg, e, b).engine, c, p, now, Next(cfg, p, now, stage, b))
  {
    hide Sound, OnBook, InsideProtections;
    NoExitPends(cfg, e);
    if b.symbol != p.symbol {
      BookElsewhere(cfg, e, b, p.symbol);
      AtElsewhere(e, OnBook(cfg, e, b).engine, c, p, now, stage);
    } else if stage.Waiting? && Late(cfg, now, b) {
      LateClose(cfg, e, c, p, now, b);
    } else if stage.Orphaned? && Late(cfg, now, b) {
      LateReopen(cfg, e, c, p, now, b);
    } else if stage.Waiting? && !InsideProtections(p, b.Mid()) {
      EarlyExit(cfg, e, b, p);
    } else {
      if stage.Reopened? { Unprotected(e.account.positions.vals[p.symbol], p, b.Mid()); }
      IdleBook(cfg, e, b);
    }
  }

  lemma Unprotected(q: Position, p: Position, mark: real)
    requires OppositeOf(q, p)
    ensures InsideProtections(q, mark)
  {
  }

  lemma {:induction false} FeedMoves(cfg: FillConfig, e: Engine, c: OrderId, p: Position, now: int, stage: Stage, books: seq<BookTop>)
    requires Sound(cfg, e) && At(e, c, p, now, stage)
    ensures At(Feed(cfg, e, books), c, p, now, Outcome(cfg, p, now, stage, books))
    decreases |books|
  {
    hide Sound, OnBook, At, Next;
    if books != [] {
      BookMoves(cfg, e, c, p, now, stage, books[0]);
      StepSound(cfg, e, Book(books[0]));
      FeedMoves(cfg, OnBook(cfg, e, books[0]).engine, c, p, now, Next(cfg, p, now, stage, books[0]), books[1..]);
    }
  }

  /** A snapshot of the position's symbol reaches its stop loss or take profit while all snapshots of
      that symbol have been too early for the close. */
  ghost predicate HitEarly(cfg: FillConfig, p: Position, now: int, books: seq<BookTop>) {
    exists i :: 0 <= i < |books| && HitEarlyAt(cfg, p, now, books, i)
  }

  ghost predicate HitEarlyAt(cfg: FillConfig, p: Position, now: int, books: seq<BookTop>, i: int)
    requires 0 <= i < |books|
  {
    && books[i].symbol == p.symbol && !InsideProtections(p, books[i].Mid())
    && forall j :: 0 <= j <= i && books[j].symbol == p.symbol ==> !Late(cfg, now, books[j])
  }

  /** A snapshot of the symbol is late enough for the close. */
  ghost predicate HasLate(cfg: FillConfig, symbol: Symbol, now: int, books: seq<BookTop>) {
    exists i :: 0 <= i < |books| && books[i].symbol == symbol && Late(cfg, now, books[i])
  }

  lemma HasLateFirst(cfg: FillConfig, symbol: Symbol, now: int, b: BookTop, rest: seq<BookTop>)
    ensures HasLate(cfg, symbol, now, [b] + rest) <==> (b.symbol == symbol && Late(cfg, now, b)) || HasLate(cfg, symbol, now, rest)
  {
    var books := [b] + rest;
    assert books[0] == b && forall i :: 0 <= i < |rest| ==> books[i + 1] == rest[i];
    if HasLate(cfg, symbol, now, books) && !(b.symbol == symbol && Late(cfg, now, b)) {
      var i :| 0 <= i < |books| && books[i].symbol == symbol && Late(cfg, now, books[i]);
      assert rest[i - 1] == books[i];
    }
  }

  lemma HitEarlyFirst(cfg: FillConfig, p: Position, now: int, b: BookTop, rest: seq<BookTop>)
    ensures HitEarly(cfg, p, now, [b] + rest) <==>
              if b.symbol != p.symbol then HitEarly(cfg, p, now, rest)
              else !Late(cfg, now, b) && (!InsideProtections(p, b.Mid()) || HitEarly(cfg, p, now, rest))
  {
    hide InsideProtections, Late;
    var books := [b] + rest;
    assert books[0] == b && forall i :: 0 <= i < |rest| ==> books[i + 1] == rest[i];
    if i :| 0 <= i < |books| && HitEarlyAt(cfg, p, now, books, i) {
      if i > 0 {
        assert forall j :: 0 <= j < i ==> rest[j] == books[j + 1];
        assert HitEarlyAt(cfg, p, now, rest, i - 1);
      }
    }
    if i :| 0 <= i < |rest| && HitEarlyAt(cfg, p, now, rest, i) {
      if b.symbol != p.symbol || !Late(cfg, now, b) {
        assert forall j :: 1 <= j <= i + 1 ==> books[j] == rest[j - 1];
        assert HitEarlyAt(cfg, p, now, books, i + 1);
      }
    }
    if b.symbol == p.symbol && !Late(cfg, now, b) && !InsideProtections(p, b.Mid()) {
      assert HitEarlyAt(cfg, p, now, books, 0);
    }
  }

  /** Where a close ends: it depends on whether a protection was reached too early, and on whether
      a snapshot came late enough. */
  lemma {:induction false} OutcomeIs(cfg: FillConfig, p: Position, now: int, books: seq<BookTop>)
    ensures Outcome(cfg, p, now, Orphaned, books) == if HasLate(cfg, p.symbol, now, books) then Reopened else Orphaned
    ensures Outcome(cfg, p, now, Closed, books) == Closed && Outcome(cfg, p, now, Reopened, books) == Reopened
    ensures Outcome(cfg, p, now, Waiting, books)
            == if HitEarly(cfg, p, now, books) then (if HasLate(cfg, p.symbol, now, books) then Reopened else Orphaned)
               else if HasLate(cfg, p.symbol, now, books) then Closed else Waiting
    decreases |books|
  {
    if books != [] {
      hide HitEarly, HasLate, InsideProtections, Late;
      var b, rest := books[0], books[1..];
      assert books == [b] + rest;
      OutcomeIs(cfg, p, now, rest);
      HasLateFirst(cfg, p.symbol, now, b, rest);
      HitEarlyFirst(cfg, p, now, b, rest);
    }
  }

  // ---- A whole flatten --------------------------------------------------------------------------

  lemma FlattenStarts(cfg: FillConfig, e: Engine, now: int, s: Symbol) returns (c: OrderId)
    requires Sound(cfg, e) && s in e.account.positions.vals
    ensures At(FlattenAll(e, now), c, e.account.positions.vals[s], now, Waiting)
    ensures e.account.positions.vals[s].symbol == s
  {
    hide FlattenAll, Sound, Pends;
    FlattenPendsOneClosePerPosition(cfg, e, now);
    FlattenIsReady(cfg, e, now);
    var f := FlattenAll(e, now);
    c :| Closes(f, c, s, now);
    forall id | id in f.pending.vals && f.pending.vals[id].order.terms.symbol == s
      ensures id == c
    {
      assert Closes(f, id, s, now);
    }
  }

  /** Nothing is held of the symbol and nothing works in it. */
  ghost predicate Quiet(e: Engine, s: Symbol) {
    s !in e.account.positions.vals && forall id :: id in e.pending.vals ==> e.pending.vals[id].order.terms.symbol != s
  }

  lemma FlattenQuiet(cfg: FillConfig, e: Engine, now: int, s: Symbol)
    requires Sound(cfg, e) && s !in e.account.positions.vals
    ensures Quiet(FlattenAll(e, now), s)
  {
    hide FlattenAll, Sound, Pends;
    FlattenPendsOneClosePerPosition(cfg, e, now);
    FlattenIsReady(cfg, e, now);
    var f := FlattenAll(e, now);
    forall id | id in f.pending.vals
      ensures f.pending.vals[id].order.terms.symbol != s
    {
      assert Closes(f, id, f.pending.vals[id].order.terms.symbol, now);
    }
  }

  lemma {:induction false} FeedQuiet(cfg: FillConfig, e: Engine, s: Symbol, books: seq<BookTop>)
    requires Sound(cfg, e) && Quiet(e, s)
    ensures Quiet(Feed(cfg, e, books), s)
    decreases |books|
  {
    hide Sound, OnBook, Quiet;
    if books != [] {
      BookQuiet(cfg, e, s, books[0]);
      StepSound(cfg, e, Book(books[0]));
      FeedQuiet(cfg, OnBook(cfg, e, books[0]).engine, s, books[1..]);
    }
  }

  lemma BookQuiet(cfg: FillConfig, e: Engine, s: Symbol, b: BookTop)
    requires Sound(cfg, e) && Quiet(e, s)
    ensures Quiet(OnBook(cfg, e, b).engine, s)
  {
    hide Sound, OnBook;
    if b.symbol == s { IdleBook(cfg, e, b); } else { BookElsewhere(cfg, e, b, s); }
  }

  /** What became of the position in `s` after a flatten. */
  ghost predicate Flattened(cfg: FillConfig, e: Engine, now: int, books: seq<BookTop>, f: Engine, s: Symbol) {
    && (forall id :: id in f.pending.vals ==> f.pending.vals[id].order.terms.symbol != s)
    && if s !in e.account.positions.vals then s !in f.account.positions.vals
       else
         var p := e.account.positions.vals[s];
         && (s in f.account.positions.vals <==> HitEarly(cfg, p, now, books))
         && (s in f.account.positions.vals ==> OppositeOf(f.account.positions.vals[s], p))
  }

  lemma SymbolFlattened(cfg: FillConfig, e: Engine, now: int, books: seq<BookTop>, s: Symbol)
    requires Sound(cfg, e) && (s in e.account.positions.vals ==> HasLate(cfg, s, now, books))
    ensures Flattened(cfg, e, now, books, Feed(cfg, FlattenAll(e, now), books), s)
  {
    hide Sound, FlattenAll, Feed, HitEarly, HasLate, Outcome;
    StepSound(cfg, e, Flatten(now));
    var f := FlattenAll(e, now);
    if s in e.account.positions.vals {
      var p := e.account.positions.vals[s];
      var c := FlattenStarts(cfg, e, now, s);
      FeedMoves(cfg, f, c, p, now, Waiting, books);
      OutcomeIs(cfg, p, now, books);
    } else {
      FlattenQuiet(cfg, e, now, s);
      FeedQuiet(cfg, f, s, books);
    }
  }

  /** A flatten from any state a run can reach, exactly. Let every open symbol have a snapshot late
      enough for its close, among snapshots of any symbols in any order. Then nothing works any more,
      and the account is flat if and only if no position had a snapshot of its symbol that reached a
      protection before the first late enough one. Where one did, the protection closed the position,
      the reduce-only close was not checked again, and it opened the opposite position. */
  lemma FlattenEndsFlatExactly(cfg: FillConfig, e: Engine, now: int, books: seq<BookTop>)
    requires Sound(cfg, e) && forall s :: s in e.account.positions.vals ==> HasLate(cfg, s, now, books)
    ensures var f := Feed(cfg, FlattenAll(e, now), books);
            && f.pending.keys == []
            && (forall s :: Flattened(cfg, e, now, books, f, s))
            && (f.account.positions.keys == [] <==>
                  forall s :: s in e.account.positions.vals ==> !HitEarly(cfg, e.account.positions.vals[s], now, books))
            && (f.account.positions.keys == [] ==> f.account.balance == e.account.starting + PnlTotal(f.account.closed))
  {
    hide Sound, FlattenAll, Feed, HitEarly, HasLate;
    var f := Feed(cfg, FlattenAll(e, now), books);
    forall s
      ensures Flattened(cfg, e, now, books, f, s)
    {
      SymbolFlattened(cfg, e, now, books, s);
    }
    forall id ensures id !in f.pending.vals {
      assert Flattened(cfg, e, now, books, f, if id in f.pending.vals then f.pending.vals[id].order.terms.symbol else "");
    }
    NoKeys(f.pending);
    FlatExactly(cfg, e, now, books, f);
    FlattenBalances(cfg, e, now, books);
  }

  lemma FlatExactly(cfg: FillConfig, e: Engine, now: int, books: seq<BookTop>, f: Engine)
    requires forall s :: Flattened(cfg, e, now, books, f, s)
    ensures f.account.positions.keys == [] <==>
              forall s :: s in e.account.positions.vals ==> !HitEarly(cfg, e.account.positions.vals[s], now, books)
  {
    hide HitEarly;
    if f.account.positions.keys == [] {
      forall s | s in e.account.positions.vals
        ensures !HitEarly(cfg, e.account.positions.vals[s], now, books)
      {
        assert Flattened(cfg, e, now, books, f, s);
        assert s !in f.account.positions.keys;
      }
    }
    if forall s :: s in e.account.positions.vals ==> !HitEarly(cfg, e.account.positions.vals[s], now, books) {
      forall s ensures s !in f.account.positions.vals {
        assert Flattened(cfg, e, now, books, f, s);
      }
      NoKeys(f.account.positions);
    }
  }

  lemma FlattenBalances(cfg: FillConfig, e: Engine, now: int, books: seq<BookTop>)
    requires Sound(cfg, e)
    ensures var a := Feed(cfg, FlattenAll(e, now), books).account;
            a.positions.keys == [] ==> a.balance == e.account.starting + PnlTotal(a.closed)
  {
    hide FlattenAll, Sound, Feed;
    StepSound(cfg, e, Flatten(now));
    StepKeepsStarting(cfg, e, Flatten(now));
    FeedSound(cfg, FlattenAll(e, now), books);
    SoundTracks(cfg, Feed(cfg, FlattenAll(e, now), books));
  }

  /** The first snapshot of each open symbol comes no earlier than the latency allows. */
  ghost predicate FirstsInTime(cfg: FillConfig, e: Engine, now: int, books: seq<BookTop>) {
    forall i :: 0 <= i < |books| && books[i].symbol in e.account.positions.vals
                && (forall j :: 0 <= j < i ==> books[j].symbol != books[i].symbol) ==>
      Late(cfg, now, books[i])
  }

  lemma FirstOf(books: seq<BookTop>, s: Symbol, i: nat) returns (k: nat)
    requires i < |books| && books[i].symbol == s
    ensures k <= i && books[k].symbol == s && forall j :: 0 <= j < k ==> books[j].symbol != s
  {
    k := 0;
    while books[k].symbol != s
      invariant k <= i && forall j :: 0 <= j < k ==> books[j].symbol != s
      decreases i - k
    {
      k := k + 1;
    }
  }

  /** So flattening completes when the first snapshot of every open symbol is late enough, whatever
      comes in between. */
  lemma FlattenCompletes(cfg: FillConfig, e: Engine, now: int, books: seq<BookTop>)
    requires Sound(cfg, e) && FirstsInTime(cfg, e, now, books)
    requires forall s :: s in e.account.positions.vals ==> exists i :: 0 <= i < |books| && books[i].symbol == s
    ensures var f := Feed(cfg, FlattenAll(e, now), books);
            && f.account.positions.keys == [] && f.pending.keys == []
            && f.account.balance == e.account.starting + PnlTotal(f.account.closed)
  {
    hide FlattenAll, Feed, InsideProtections, Late, Refines, OrdersTracked;
    forall s | s in e.account.positions.vals
      ensures HasLate(cfg, s, now, books) && !HitEarly(cfg, e.account.positions.vals[s], now, books)
    {
      var i :| 0 <= i < |books| && books[i].symbol == s;
      var k := FirstOf(books, s, i);
      OpenPosition(e.account, LedgerOf(e.log), s);
      FirstInTimeNotHit(cfg, e.account.positions.vals[s], now, books, k);
    }
    FlattenEndsFlatExactly(cfg, e, now, books);
  }

  lemma FirstInTimeNotHit(cfg: FillConfig, p: Position, now: int, books: seq<BookTop>, k: nat)
    requires k < |books| && books[k].symbol == p.symbol && Late(cfg, now, books[k])
    requires forall j :: 0 <= j < k ==> books[j].symbol != p.symbol
    ensures HasLate(cfg, p.symbol, now, books) && !HitEarly(cfg, p, now, books)
  {
    hide InsideProtections, Late;
    forall i | 0 <= i < |books|
      ensures !HitEarlyAt(cfg, p, now, books, i)
    {
    }
  }
}
