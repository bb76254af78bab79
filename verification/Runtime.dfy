/** The order gateway and the kill-trip hook of backend/app/runtime.py, in front of the engine.
    The verdict of the risk gate and the latest book of the order's symbol are parameters. */
module Runtimes {
  import opened Prelude
  import opened Models
  import opened Fills
  import opened Accounting
  import opened KillSwitches
  import opened EngineSpec
  import opened EngineRuns
  import opened EngineBooks
  import opened Flattening
  import opened PaperEngines

  datatype Runtime = Runtime(engine: Engine, kill: Registry)

  /** `place_order` on an order with the given state: the gates, then the engine, then the
      current book. The second component says whether the engine was reached. */
  function PlaceOrder(cfg: FillConfig, r: Runtime, o: Order, strategy: Option<string>,
                      riskAllows: bool, book: Option<BookTop>, now: int): (Runtime, bool)
  {
    var blocked := if !o.terms.reduceOnly then EntriesBlocked(r.kill, o.terms.symbol, strategy)
                   else ExitsBlocked(r.kill, o.terms.symbol);
    if blocked || !(o.terms.reduceOnly || riskAllows) then (r, false)
    else
      var e := Submit(r.engine, o, now);
      (r.(engine := if book.Some? then OnBook(cfg, e, book.value).engine else e), true)
  }

  /** `trip` with its hook: a hard global trip flattens the engine. */
  function TripAndFlatten(r: Runtime, scope: Scope, level: Level, reason: string, actor: string, ts: real, now: int): Runtime {
    var o := TripSwitch(r.kill, scope, level, reason, actor, ts);
    Runtime(if o.done && level.Hard? && scope == GLOBAL then FlattenAll(r.engine, now) else r.engine, o.registry)
  }

  datatype Event =
    | Tripping(scope: Scope, level: Level, reason: string, actor: string, ts: real, nowMs: int)
    | Clearing(request: Request)
    | Placing(order: Order, strategy: Option<string>, riskAllows: bool, book: Option<BookTop>, placedMs: int)
    | Cancelling(id: OrderId)
    | Ticking(tick: BookTop)

  function Happens(cfg: FillConfig, r: Runtime, x: Event): Runtime {
    match x
    case Tripping(scope, level, reason, actor, ts, now) => TripAndFlatten(r, scope, level, reason, actor, ts, now)
    case Clearing(q) => if q.TripRequest? then r else r.(kill := Serve(r.kill, q).registry)
    case Placing(o, strategy, riskAllows, book, now) => PlaceOrder(cfg, r, o, strategy, riskAllows, book, now).0
    case Cancelling(id) => r.(engine := Cancel(r.engine, id))
    case Ticking(b) => r.(engine := OnBook(cfg, r.engine, b).engine)
  }

  function RunAll(cfg: FillConfig, r: Runtime, xs: seq<Event>): Runtime {
    if xs == [] then r else Happens(cfg, RunAll(cfg, r, xs[..|xs| - 1]), xs[|xs| - 1])
  }

  /** An order reaches the engine exactly when nothing blocks it: an exit, when neither the global switch
      nor that of its symbol is hard; an entry, when these and that of its strategy are armed and the risk
      gate allows it. What is blocked changes nothing; what is not is submitted and meets the latest book. */
  lemma PlacesExactly(cfg: FillConfig, r: Runtime, o: Order, strategy: Option<string>, riskAllows: bool,
                      book: Option<BookTop>, now: int)
    ensures var placed := PlaceOrder(cfg, r, o, strategy, riskAllows, book, now);
            var global, own := SwitchOf(r.kill, GLOBAL), SwitchOf(r.kill, SymbolScope(o.terms.symbol));
            && (placed.1 <==>
                  if o.terms.reduceOnly then
                    && !(global.level == Some(Hard) && !global.state.Armed?)
                    && !(own.level == Some(Hard) && !own.state.Armed?)
                  else
                    && riskAllows && global.state.Armed? && own.state.Armed?
                    && (strategy.Some? && strategy.value != "" ==> SwitchOf(r.kill, StrategyScope(strategy.value)).state.Armed?))
            && (!placed.1 ==> placed.0 == r)
            && (placed.1 ==>
                  && placed.0.kill == r.kill
                  && (book.None? ==> placed.0.engine == Submit(r.engine, o, now))
                  && (book.Some? ==> placed.0.engine == OnBook(cfg, Submit(r.engine, o, now), book.value).engine))
  {
    hide Submit, OnBook, EntriesBlocked, ExitsBlocked;
    BlockedExactly(r.kill, o.terms.symbol, strategy);
  }

  // ---- The halt ---------------------------------------------------------------------

  predicate Halted(r: Runtime) { HardUnarmed(r.kill, GLOBAL) }

  /** A close that `flatten_all` submitted: reduce-only, at market, on behalf of the switch. */
  predicate IsFlattenClose(id: OrderId, p: Pending) {
    && id.FlattenClose? && p.order.terms.id == id
    && p.order.terms.reduceOnly && p.order.terms.kind.Market? && p.order.terms.source.KillSwitch?
  }

  ghost predicate OnlyFlattenCloses(e: Engine) {
    forall id :: id in e.pending.vals ==> IsFlattenClose(id, e.pending.vals[id])
  }

  ghost predicate HaltHolds(r: Runtime) { Halted(r) ==> OnlyFlattenCloses(r.engine) }

  /** Working orders of `e'` are working orders of `e` with the same terms. */
  ghost predicate NoNewWork(e: Engine, e': Engine) {
    forall id :: id in e'.pending.vals ==>
      id in e.pending.vals && e'.pending.vals[id].order.terms == e.pending.vals[id].order.terms
  }

  /** Everything logged since `e` is a fill of a flatten close or of a protection exit. */
  ghost predicate NothingOfCallers(e: Engine, e': Engine) {
    && |e.log| <= |e'.log| && e'.log[..|e.log|] == e.log
    && forall k :: |e.log| <= k < |e'.log| ==> e'.log[k].Traded? && !e'.log[k].fill.orderId.Caller?
  }

  lemma SettleWhileHalted(cfg: FillConfig, e: Engine, o: Order, b: BookTop)
    requires o.terms.id in e.pending.vals ==> e.pending.vals[o.terms.id].order.terms == o.terms
    requires !o.terms.id.Caller?
    ensures NoNewWork(e, Settle(cfg, e, o, b).engine) && NothingOfCallers(e, Settle(cfg, e, o, b).engine)
  {
    TryFillKeepsTerms(cfg, o, b);
    hide TryFill, ApplyFill, Attach;
  }

  lemma HaltComposes(e: Engine, f: Engine, g: Engine)
    requires NoNewWork(e, f) && NothingOfCallers(e, f) && NoNewWork(f, g) && NothingOfCallers(f, g)
    ensures NoNewWork(e, g) && NothingOfCallers(e, g)
  {
    assert g.log[..|e.log|] == g.log[..|f.log|][..|e.log|];
  }

  lemma {:induction false} SweepWhileHalted(cfg: FillConfig, e: Engine, ids: seq<OrderId>, b: BookTop)
    requires OnlyFlattenCloses(e)
    ensures NoNewWork(e, Sweep(cfg, e, ids, b).engine) && NothingOfCallers(e, Sweep(cfg, e, ids, b).engine)
    decreases |ids|
  {
    hide Settle;
    if ids != [] {
      var t := Visit(cfg, e, ids[0], b);
      if ids[0] in e.pending.vals { SettleWhileHalted(cfg, e, e.pending.vals[ids[0]].order, b); }
      if !t.raised {
        hide Visit;
        StillOnlyCloses(e, t.engine);
        SweepWhileHalted(cfg, t.engine, ids[1..], b);
        HaltComposes(e, t.engine, Sweep(cfg, e, ids, b).engine);
      }
    }
  }

  lemma StillOnlyCloses(e: Engine, e': Engine)
    requires OnlyFlattenCloses(e) && NoNewWork(e, e')
    ensures OnlyFlattenCloses(e')
  {
  }

  /** A book tick on a halted engine: no new working order, and no fill but of closes and exits. */
  lemma TickWhileHalted(cfg: FillConfig, e: Engine, b: BookTop)
    requires OnlyFlattenCloses(e)
    ensures var e' := OnBook(cfg, e, b).engine;
            NoNewWork(e, e') && NothingOfCallers(e, e') && OnlyFlattenCloses(e')
  {
    hide Settle, NoNewWork, NothingOfCallers, OnlyFlattenCloses;
    SweepWhileHalted(cfg, e, e.pending.keys, b);
    var f := Sweep(cfg, e, e.pending.keys, b).engine;
    StillOnlyCloses(e, f);
    var g := CheckProtections(cfg, f, b);
    ExitWhileHalted(cfg, f, b);
    HaltComposes(e, f, g);
    StillOnlyCloses(f, g);
  }

  lemma ExitWhileHalted(cfg: FillConfig, e: Engine, b: BookTop)
    requires OnlyFlattenCloses(e)
    ensures NoNewWork(e, CheckProtections(cfg, e, b)) && NothingOfCallers(e, CheckProtections(cfg, e, b))
  {
    hide Settle;
    if b.symbol in e.account.positions.vals {
      var o := ExitOrder(e.account.positions.vals[b.symbol], e.serial);
      var started := e.(serial := e.serial + 1, traces := e.traces[o.terms.id := Trace(o, b.tsMs, [], o)]);
      assert o.terms.id !in e.pending.vals;
      SettleWhileHalted(cfg, started, o, b);
    }
  }

  lemma {:induction false} FlattenEachIsCloses(e: Engine, symbols: seq<Symbol>, now: int)
    requires OnlyFlattenCloses(e) && forall s :: s in symbols ==> s in e.account.positions.vals
    ensures OnlyFlattenCloses(FlattenEach(e, symbols, now))
    decreases |symbols|
  {
    if symbols != [] {
      var o := CloseOrder(e.account.positions.vals[symbols[0]], e.serial);
      FlattenEachIsCloses(Submit(e.(serial := e.serial + 1), o, now), symbols[1..], now);
    }
  }

  lemma FlattenIsOnlyCloses(e: Engine, now: int)
    ensures OnlyFlattenCloses(FlattenAll(e, now))
  {
    CancelAllEmpties(e);
    var c := CancelAll(e, None);
    assert forall id :: id in c.pending.vals <==> id in c.pending.keys;
    FlattenEachIsCloses(c, c.account.positions.keys, now);
  }

  /** Every request to the registry other than a trip leaves a halt that was not there absent. */
  lemma ClearingNeverHalts(r: Registry, q: Request)
    requires !q.TripRequest? && HardUnarmed(Serve(r, q).registry, GLOBAL)
    ensures HardUnarmed(r, GLOBAL)
  {
  }

  lemma TripHaltsOnlyByFlattening(r: Registry, scope: Scope, level: Level, reason: string, actor: string, ts: real)
    ensures var o := TripSwitch(r, scope, level, reason, actor, ts);
            HardUnarmed(o.registry, GLOBAL) ==> HardUnarmed(r, GLOBAL) || (o.done && level.Hard? && scope == GLOBAL)
  {
  }

  lemma HappensKeepsHalt(cfg: FillConfig, r: Runtime, x: Event)
    requires HaltHolds(r)
    ensures HaltHolds(Happens(cfg, r, x))
  {
    hide OnlyFlattenCloses, OnBook, FlattenAll, HardUnarmed, TripSwitch, Serve, EntriesBlocked, ExitsBlocked;
    match x {
      case Tripping(scope, level, reason, actor, ts, now) =>
        TripHaltsOnlyByFlattening(r.kill, scope, level, reason, actor, ts);
        FlattenIsOnlyCloses(r.engine, now);
      case Clearing(q) =>
        if !q.TripRequest? && Halted(Happens(cfg, r, x)) { ClearingNeverHalts(r.kill, q); }
      case Placing(o, strategy, riskAllows, book, now) =>
        GateFollowsLevels(r.kill, o.terms.symbol, strategy);
      case Cancelling(id) =>
        if Halted(r) { CancelKeepsCloses(r.engine, id); }
      case Ticking(b) =>
        if Halted(r) { TickWhileHalted(cfg, r.engine, b); }
    }
  }

  lemma CancelKeepsCloses(e: Engine, id: OrderId)
    requires OnlyFlattenCloses(e)
    ensures OnlyFlattenCloses(Cancel(e, id))
  {
  }

  /** Over every interleaving of trips, escalations, acknowledgements, re-arms, auto-clears,
      placed orders, cancels and ticks: whenever the global switch is hard and not re-armed,
      every working order is a reduce-only market close submitted by `flatten_all`. */
  lemma {:induction false} HaltedMeansOnlyFlattenCloses(cfg: FillConfig, starting: real, xs: seq<Event>)
    ensures HaltHolds(RunAll(cfg, Runtime(NewEngine(NewAccount(starting)), NEW_REGISTRY), xs))
  {
    hide Happens, OnlyFlattenCloses;
    if xs != [] {
      HaltedMeansOnlyFlattenCloses(cfg, starting, xs[..|xs| - 1]);
      HappensKeepsHalt(cfg, RunAll(cfg, Runtime(NewEngine(NewAccount(starting)), NEW_REGISTRY), xs[..|xs| - 1]), xs[|xs| - 1]);
    }
  }

  /** One event of a halted runtime that leaves it halted fills nothing a caller ordered, and
      an order placed meanwhile does not reach the engine at all. */
  lemma HaltedFillsNothingOfCallers(cfg: FillConfig, r: Runtime, x: Event)
    requires Halted(r) && OnlyFlattenCloses(r.engine)
    ensures NothingOfCallers(r.engine, Happens(cfg, r, x).engine)
    ensures x.Placing? ==> Happens(cfg, r, x) == r
  {
    hide OnBook, FlattenAll, OnlyFlattenCloses;
    match x {
      case Tripping(scope, level, reason, actor, ts, now) =>
      case Clearing(q) =>
      case Placing(o, strategy, riskAllows, book, now) =>
        GateFollowsLevels(r.kill, o.terms.symbol, strategy);
      case Cancelling(id) =>
      case Ticking(b) => TickWhileHalted(cfg, r.engine, b);
    }
  }

  // ---- The engine behind the gateway -----------------------------------------------------------

  function Fresh(starting: real): Runtime { Runtime(NewEngine(NewAccount(starting)), NEW_REGISTRY) }

  /** Orders are placed as their callers construct them: with a new uuid, and nothing filled. */
  predicate Orderly(r: Runtime, x: Event) { x.Placing? ==> Admissible(r.engine, SubmitOrder(x.order, x.placedMs)) }

  ghost predicate AllOrderly(cfg: FillConfig, r: Runtime, xs: seq<Event>) {
    forall k :: 0 <= k < |xs| ==> Orderly(RunAll(cfg, r, xs[..k]), xs[k])
  }

  lemma HappensSound(cfg: FillConfig, r: Runtime, x: Event)
    requires Sound(cfg, r.engine) && Orderly(r, x)
    ensures Sound(cfg, Happens(cfg, r, x).engine)
    ensures Happens(cfg, r, x).engine.account.starting == r.engine.account.starting
  {
    hide Sound, OnBook, FlattenAll, Submit, Cancel, Serve, TripSwitch, EntriesBlocked, ExitsBlocked;
    match x {
      case Tripping(scope, level, reason, actor, ts, now) =>
        StepSound(cfg, r.engine, Flatten(now));
        StepKeepsStarting(cfg, r.engine, Flatten(now));
      case Clearing(q) =>
      case Placing(o, strategy, riskAllows, book, now) =>
        var e := Submit(r.engine, o, now);
        StepSound(cfg, r.engine, SubmitOrder(o, now));
        StepKeepsStarting(cfg, r.engine, SubmitOrder(o, now));
        if book.Some? {
          StepSound(cfg, e, Book(book.value));
          StepKeepsStarting(cfg, e, Book(book.value));
        }
      case Cancelling(id) =>
        StepSound(cfg, r.engine, CancelOrder(id));
        StepKeepsStarting(cfg, r.engine, CancelOrder(id));
      case Ticking(b) =>
        StepSound(cfg, r.engine, Book(b));
        StepKeepsStarting(cfg, r.engine, Book(b));
    }
  }

  /** Whatever happens to the runtime, its engine keeps the engine's invariant. */
  lemma {:induction false} RuntimeIsSound(cfg: FillConfig, starting: real, xs: seq<Event>)
    requires AllOrderly(cfg, Fresh(starting), xs)
    ensures Sound(cfg, RunAll(cfg, Fresh(starting), xs).engine)
    ensures RunAll(cfg, Fresh(starting), xs).engine.account.starting == starting
  {
    hide Happens, Sound, Orderly;
    if xs == [] {
      NewEngineSound(cfg, starting);
    } else {
      var init := xs[..|xs| - 1];
      assert forall k :: 0 <= k < |init| ==> init[..k] == xs[..k];
      RuntimeIsSound(cfg, starting, init);
      HappensSound(cfg, RunAll(cfg, Fresh(starting), init), xs[|xs| - 1]);
    }
  }

  // ---- After a hard trip ---------------------------------------------------------------------

  /** A halt ends only when the global switch, acknowledged, is re-armed. */
  lemma HaltEndsExactly(cfg: FillConfig, r: Runtime, x: Event)
    requires Halted(r)
    ensures Halted(Happens(cfg, r, x)) <==>
              !(x.Clearing? && x.request.RearmRequest? && x.request.scope == GLOBAL
                && SwitchOf(r.kill, GLOBAL).state.Acknowledged?)
  {
    hide OnBook, FlattenAll, Cancel, EntriesBlocked, ExitsBlocked;
  }

  /** The runtime is halted and stays so, and no close that `flatten_all` submitted is cancelled. */
  ghost predicate HaltedThroughout(cfg: FillConfig, r: Runtime, ys: seq<Event>) {
    && (forall k :: 0 <= k <= |ys| ==> Halted(RunAll(cfg, r, ys[..k])))
    && forall k :: 0 <= k < |ys| && ys[k].Cancelling? ==> !ys[k].id.FlattenClose?
  }

  /** The snapshots among the events. */
  function BooksOf(ys: seq<Event>): seq<BookTop> {
    if ys == [] then []
    else BooksOf(ys[..|ys| - 1]) + if ys[|ys| - 1].Ticking? then [ys[|ys| - 1].tick] else []
  }

  lemma {:induction false} FeedAppend(cfg: FillConfig, e: Engine, books: seq<BookTop>, b: BookTop)
    ensures Feed(cfg, e, books + [b]) == OnBook(cfg, Feed(cfg, e, books), b).engine
    decreases |books|
  {
    hide OnBook;
    if books == [] {
      assert [] + [b] == [b] && [b][1..] == [];
    } else {
      assert (books + [b])[1..] == books[1..] + [b];
      FeedAppend(cfg, OnBook(cfg, e, books[0]).engine, books[1..], b);
    }
  }

  /** While halted the engine moves with the snapshots and with nothing else. */
  lemma HaltedEngineMoves(cfg: FillConfig, r: Runtime, x: Event)
    requires Halted(r) && OnlyFlattenCloses(r.engine) && (x.Cancelling? ==> !x.id.FlattenClose?)
    ensures Happens(cfg, r, x).engine == if x.Ticking? then OnBook(cfg, r.engine, x.tick).engine else r.engine
  {
    hide OnBook, FlattenAll;
    if x.Placing? { HaltedFillsNothingOfCallers(cfg, r, x); }
  }

  lemma {:induction false} HaltedEngineIsFed(cfg: FillConfig, r: Runtime, ys: seq<Event>)
    requires HaltHolds(r) && HaltedThroughout(cfg, r, ys)
    ensures RunAll(cfg, r, ys).engine == Feed(cfg, r.engine, BooksOf(ys)) && HaltHolds(RunAll(cfg, r, ys))
  {
    hide Happens, OnlyFlattenCloses, OnBook, Halted;
    if ys != [] {
      var init, x := ys[..|ys| - 1], ys[|ys| - 1];
      assert forall k :: 0 <= k <= |init| ==> init[..k] == ys[..k];
      HaltedEngineIsFed(cfg, r, init);
      var r' := RunAll(cfg, r, init);
      assert Halted(r') by { assert ys[..|init|] == init; }
      HaltedEngineMoves(cfg, r', x);
      HappensKeepsHalt(cfg, r', x);
      if x.Ticking? {
        FeedAppend(cfg, r.engine, BooksOf(init), x.tick);
      } else {
        assert BooksOf(ys) == BooksOf(init);
      }
    }
  }

  lemma HardTrip(cfg: FillConfig, r: Runtime, reason: string, actor: string, ts: real, now: int)
    requires SwitchOf(r.kill, GLOBAL).state.Armed? || SwitchOf(r.kill, GLOBAL).level == Some(Soft)
    ensures var tripped := Happens(cfg, r, Tripping(GLOBAL, Hard, reason, actor, ts, now));
            tripped.engine == FlattenAll(r.engine, now) && Halted(tripped)
  {
    hide FlattenAll;
  }

  /** A hard global trip, from any state of a runtime that is not halted already, and then any events
      that leave the runtime halted and the closes alone: orders that are refused, requests to the
      switches, cancels, and ticks among which every open symbol has one late enough. They leave
      nothing working, and leave the account flat if and only if no tick reached a protection of a
      position before the first late enough one of its symbol. */
  lemma HardTripFlattensExactly(cfg: FillConfig, starting: real, xs: seq<Event>, reason: string, actor: string, ts: real,
                                now: int, ys: seq<Event>)
    requires AllOrderly(cfg, Fresh(starting), xs)
    requires var r := RunAll(cfg, Fresh(starting), xs);
             && (SwitchOf(r.kill, GLOBAL).state.Armed? || SwitchOf(r.kill, GLOBAL).level == Some(Soft))
             && HaltedThroughout(cfg, Happens(cfg, r, Tripping(GLOBAL, Hard, reason, actor, ts, now)), ys)
             && forall s :: s in r.engine.account.positions.vals ==> HasLate(cfg, s, now, BooksOf(ys))
    ensures var r := RunAll(cfg, Fresh(starting), xs);
            var tripped := Happens(cfg, r, Tripping(GLOBAL, Hard, reason, actor, ts, now));
            var e, p := RunAll(cfg, tripped, ys).engine, r.engine.account.positions;
            && e.pending.keys == []
            && (e.account.positions.keys == [] <==> forall s :: s in p.vals ==> !HitEarly(cfg, p.vals[s], now, BooksOf(ys)))
            && (e.account.positions.keys == [] ==> e.account.balance == starting + PnlTotal(e.account.closed))
  {
    hide RunAll, FlattenAll, Sound, HasLate, HitEarly, Feed, Flattened, Happens, AllOrderly, Halted, HaltedThroughout;
    var r := RunAll(cfg, Fresh(starting), xs);
    var trip := Tripping(GLOBAL, Hard, reason, actor, ts, now);
    var tripped := Happens(cfg, r, trip);
    HardTrip(cfg, r, reason, actor, ts, now);
    RuntimeIsSound(cfg, starting, xs);
    HaltedMeansOnlyFlattenCloses(cfg, starting, xs);
    HappensKeepsHalt(cfg, r, trip);
    HaltedEngineIsFed(cfg, tripped, ys);
    FlattenEndsFlatExactly(cfg, r.engine, now, BooksOf(ys));
  }

  /** The halt after the trip lasts as long as nobody asks for a re-arm of the global switch. */
  lemma {:induction false} HaltLasts(cfg: FillConfig, r: Runtime, ys: seq<Event>)
    requires Halted(r)
    requires forall k :: 0 <= k < |ys| ==>
               && !(ys[k].Clearing? && ys[k].request.RearmRequest? && ys[k].request.scope == GLOBAL)
               && !(ys[k].Cancelling? && ys[k].id.FlattenClose?)
    ensures HaltedThroughout(cfg, r, ys)
  {
    hide Happens, Halted;
    if ys != [] {
      var init := ys[..|ys| - 1];
      HaltLasts(cfg, r, init);
      assert init[..|init|] == init;
      HaltEndsExactly(cfg, RunAll(cfg, r, init), ys[|ys| - 1]);
      forall k | 0 <= k <= |ys|
        ensures Halted(RunAll(cfg, r, ys[..k]))
      {
        if k <= |init| { assert init[..k] == ys[..k]; } else { assert ys[..k] == ys; }
      }
    }
  }

  // ---- The runtime object -------------------------------------------------------------------

  class TradingRuntime {
    const engine: PaperEngine
    const kill: KillSwitchRegistry

    ghost predicate Valid()
      reads engine, engine.account, engine.orders
    {
      engine.Valid()
    }

    ghost function View(): Runtime
      reads engine, kill
    {
      Runtime(engine.model, kill.View())
    }

    constructor (engine: PaperEngine)
      requires engine.Valid()
      ensures Valid() && this.engine == engine && fresh(kill)
      ensures View() == Runtime(engine.model, NEW_REGISTRY)
    {
      this.engine := engine;
      kill := new KillSwitchRegistry();
    }

    /** The order gateway: kill switches, then the risk gate, then the engine and the book. */
    method Place(order: OrderObject, strategy: Option<string>, riskAllows: bool, book: Option<BookTop>, now: int)
      returns (accepted: bool, raised: bool)
      requires Valid() && order.terms.id !in engine.pending.vals && Issued(order.terms.id, engine.serial)
      modifies engine, engine.account, engine.orders, order
      ensures Valid()
      ensures (View(), accepted)
              == PlaceOrder(engine.sim.config, old(View()), old(order.State()), strategy, riskAllows, book, now)
      ensures !accepted ==> order.State() == if order.terms.reduceOnly then old(order.State())
                                             else old(order.State()).(status := Rejected)
      ensures raised <==> accepted && book.Some?
                          && OnBook(engine.sim.config, Submit(old(engine.model), old(order.State()), now), book.value).raised
    {
      raised := false;
      if !order.terms.reduceOnly {
        var blocked := kill.FirstBlockingEntry(order.terms.symbol, strategy);
        if blocked.Some? {
          Reject(order);
          return false, false;
        }
      } else {
        var blocked := kill.FirstBlockingExit(order.terms.symbol);
        if blocked.Some? { return false, false; }
      }
      if !order.terms.reduceOnly && !riskAllows {
        Reject(order);
        return false, false;
      }
      engine.Submit(order, now);
      if book.Some? {
        var fills;
        fills, raised := engine.OnBook(book.value);
      }
      return true, raised;
    }

    /** A rejected order never reached the engine, which is left as it was. */
    method Reject(order: OrderObject)
      requires Valid() && order.terms.id !in engine.pending.vals
      modifies order
      ensures Valid() && View() == old(View()) && order.State() == old(order.State()).(status := Rejected)
    {
      order.status := Rejected;
      engine.LinkedAfter(order);
      assert engine.Linked(None);
    }

    /** Trips a switch; the hook flattens the engine on a hard global trip. */
    method TripAndHook(scope: Scope, level: Level, reason: string, actor: string, ts: real, now: int)
      requires Valid()
      modifies engine, engine.orders, kill
      ensures Valid()
      ensures View() == TripAndFlatten(old(View()), scope, level, reason, actor, ts, now)
    {
      hide FlattenAll;
      var fired := kill.TripScope(scope, level, reason, actor, ts);
      if fired && level == Hard && scope == GLOBAL {
        var closes := engine.FlattenAll(now);
      }
    }
  }
}
