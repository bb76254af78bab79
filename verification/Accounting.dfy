/** Position accounting of backend/app/services/paper_engine/account.py as a state machine
    on values, and its refinement of a ledger that knows only cash and inventory. */
module Accounting {
  import opened Prelude
  import opened Models

  datatype ClosedTrade = ClosedTrade(position: Position, exitPrice: real, closedMs: int, pnl: real)

  datatype Account = Account(
    starting: real, balance: real, positions: Dict<Symbol, Position>, closed: seq<ClosedTrade>)

  function NewAccount(starting: real): Account { Account(starting, starting, RawDict([], map[]), []) }

  // ---- Operations -------------------------------------------------------------

  function SlippageCost(f: Fill): real { f.qty * f.price * f.slippageBps / 10000.0 }

  function OpenFrom(f: Fill, qty: real, leverage: real, fees: real, slip: real): Position {
    Position(f.symbol, f.side, qty, f.price, leverage, qty, 0.0, fees, 0.0, slip, None, None, f.tsMs)
  }

  function Charged(p: Position, f: Fill): Position {
    p.(feesPaid := p.feesPaid + f.fee, slippageCost := p.slippageCost + SlippageCost(f))
  }

  /** A fill on the side of the position: the entry becomes the average. A total of zero,
      where Python would raise, takes a negative fill; the model then stores a zero entry. */
  function AddedTo(p: Position, f: Fill): Position {
    var total := p.qty + f.qty;
    p.(avgEntry := if total == 0.0 then 0.0 else (p.avgEntry * p.qty + f.price * f.qty) / total,
       qty := total, initialQty := p.initialQty + f.qty)
  }

  function RealizedBy(p: Position, f: Fill): real {
    p.side.Signed((f.price - p.avgEntry) * Min(p.qty, f.qty))
  }

  function ReducedBy(p: Position, f: Fill): Position {
    p.(realizedPnl := p.realizedPnl + RealizedBy(p, f), qty := p.qty - Min(p.qty, f.qty))
  }

  function Opened(a: Account, f: Fill, leverage: real): Account {
    a.(balance := a.balance - f.fee,
       positions := Put(a.positions, f.symbol, OpenFrom(f, f.qty, leverage, f.fee, SlippageCost(f))))
  }

  function Added(a: Account, f: Fill): Account
    requires f.symbol in a.positions.vals
  {
    a.(balance := a.balance - f.fee,
       positions := Put(a.positions, f.symbol, AddedTo(Charged(a.positions.vals[f.symbol], f), f)))
  }

  /** The account just after an opposite fill reduced the position, before it is known
      whether the position is closed. */
  function Reduced(a: Account, f: Fill): Account
    requires f.symbol in a.positions.vals
  {
    var p := Charged(a.positions.vals[f.symbol], f);
    a.(balance := a.balance - f.fee + RealizedBy(p, f), positions := Put(a.positions, f.symbol, ReducedBy(p, f)))
  }

  /** `_close`: book the finished position and drop it from the open ones. */
  function Close(a: Account, p: Position, f: Fill): Account {
    var net := p.realizedPnl - p.feesPaid - p.fundingPaid;
    a.(closed := a.closed + [ClosedTrade(p, f.price, f.tsMs, net)], positions := Del(a.positions, p.symbol))
  }

  function Reopened(a: Account, f: Fill, qty: real, leverage: real): Account {
    a.(positions := Put(a.positions, f.symbol, OpenFrom(f, qty, leverage, 0.0, 0.0)))
  }

  /** After a reduction: nothing more, or the close, or the close and a flip. */
  function Settled(r: Account, f: Fill, leftover: real, leverage: real): Account
    requires f.symbol in r.positions.vals
  {
    var p := r.positions.vals[f.symbol];
    if p.qty != 0.0 then r
    else
      var c := Close(r, p, f);
      if leftover > 0.0 then Reopened(c, f, leftover, leverage) else c
  }

  /** `apply_fill`: open, add, reduce, close or flip. */
  function ApplyFill(a: Account, f: Fill, leverage: real): Account {
    if f.symbol !in a.positions.vals then Opened(a, f, leverage)
    else
      var p := a.positions.vals[f.symbol];
      if f.side == p.side then Added(a, f)
      else Settled(Reduced(a, f), f, f.qty - Min(p.qty, f.qty), leverage)
  }

  function Payment(qty: real, rate: real, mark: real): real { qty * mark * rate }

  function FundingFlow(p: Position, rate: real, mark: real): real {
    p.side.Opposite().Signed(Payment(p.qty, rate, mark))
  }

  /** `apply_funding`: one funding event at a published rate. */
  function ApplyFunding(a: Account, symbol: Symbol, rate: real, mark: real): Account {
    if symbol !in a.positions.vals || a.positions.vals[symbol].qty == 0.0 then a
    else
      var p := a.positions.vals[symbol];
      var flow := FundingFlow(p, rate, mark);
      a.(balance := a.balance + flow,
         positions := Put(a.positions, symbol, p.(fundingPaid := p.fundingPaid - flow)))
  }

  /** Protections set on an open position; no money moves. */
  function Protected(p: Position, stopLoss: Option<real>, takeProfit: Option<real>): Position {
    p.(stopLoss := if stopLoss.Some? then stopLoss else p.stopLoss,
       takeProfit := if takeProfit.Some? then takeProfit else p.takeProfit)
  }

  function Protect(a: Account, symbol: Symbol, stopLoss: Option<real>, takeProfit: Option<real>): Account
    requires symbol in a.positions.vals
  {
    a.(positions := Put(a.positions, symbol, Protected(a.positions.vals[symbol], stopLoss, takeProfit)))
  }

  // ---- Valuation --------------------------------------------------------------

  function UnrealizedOver(keys: seq<Symbol>, vals: map<Symbol, Position>, marks: map<Symbol, real>): real
    requires forall k :: k in keys ==> k in vals
  {
    if keys == [] then 0.0
    else UnrealizedOver(keys[..|keys| - 1], vals, marks)
         + var k := keys[|keys| - 1]; if k in marks then vals[k].Unrealized(marks[k]) else 0.0
  }

  function Unrealized(a: Account, marks: map<Symbol, real>): real {
    UnrealizedOver(a.positions.keys, a.positions.vals, marks)
  }

  function Equity(a: Account, marks: map<Symbol, real>): real { a.balance + Unrealized(a, marks) }

  function ExposureOver(keys: seq<Symbol>, vals: map<Symbol, Position>, marks: map<Symbol, real>): real
    requires forall k :: k in keys ==> k in vals
  {
    if keys == [] then 0.0
    else ExposureOver(keys[..|keys| - 1], vals, marks)
         + var k := keys[|keys| - 1]; vals[k].qty * if k in marks then marks[k] else vals[k].avgEntry
  }

  function Exposure(a: Account, marks: map<Symbol, real>): real {
    ExposureOver(a.positions.keys, a.positions.vals, marks)
  }

  function PnlTotal(closed: seq<ClosedTrade>): real {
    if closed == [] then 0.0 else PnlTotal(closed[..|closed| - 1]) + closed[|closed| - 1].pnl
  }

  // ---- The naive ledger ---------------------------------------------------------
  // What reached the account, recorded as three running sums and an inventory. Positions,
  // average entries, realized profit and closed trades do not occur here.

  datatype Entry = Traded(fill: Fill) | Funded(symbol: Symbol, rate: real, mark: real)

  /** Fees charged, funding received, cash spent on inventory, and the inventory itself; and, as
      memoranda, the cost of slippage within what was spent and the quantity traded. */
  datatype Ledger = Ledger(
    fees: real, funding: real, spent: real, inventory: map<Symbol, real>, slippage: real, turnover: real)
  {
    function Holding(s: Symbol): real { if s in inventory then inventory[s] else 0.0 }

    function Record(e: Entry): Ledger {
      match e
      case Traded(f) =>
        Ledger(fees + f.fee, funding, spent + f.SignedCost(), inventory[f.symbol := Holding(f.symbol) + f.SignedQty()],
               slippage + f.qty * f.price * f.slippageBps / 10000.0, turnover + f.qty)
      case Funded(s, rate, mark) =>
        this.(funding := funding - Holding(s) * mark * rate)
    }

    function Cash(starting: real): real { starting - fees + funding - spent }
  }

  function LedgerOf(log: seq<Entry>): Ledger {
    if log == [] then Ledger(0.0, 0.0, 0.0, map[], 0.0, 0.0)
    else LedgerOf(log[..|log| - 1]).Record(log[|log| - 1])
  }

  function Worth(qty: real, mark: real): real { qty * mark }

  function InventoryValue(l: Ledger, symbols: seq<Symbol>, marks: map<Symbol, real>): real
    requires forall s :: s in symbols ==> s in marks
  {
    if symbols == [] then 0.0
    else
      var s := symbols[|symbols| - 1];
      InventoryValue(l, symbols[..|symbols| - 1], marks) + Worth(l.Holding(s), marks[s])
  }

  // ---- Refinement ---------------------------------------------------------------

  function Basis(p: Position): real { p.side.Signed(p.avgEntry * p.qty) }

  function Carried(p: Position): real { p.realizedPnl - p.feesPaid - p.fundingPaid }

  ghost predicate WellFormed(a: Account) {
    && (forall s :: s in a.positions.vals ==> a.positions.vals[s].symbol == s && a.positions.vals[s].qty > 0.0)
    && (forall t :: t in a.closed ==> t.position.qty == 0.0 && t.pnl == Carried(t.position))
  }

  /** The net quantity held in a symbol. */
  function HeldIn(a: Account, s: Symbol): real {
    if s in a.positions.vals then a.positions.vals[s].SignedQty() else 0.0
  }

  /** The account `a` is what the naive ledger says it must be: the inventory is the open
      positions; the balance is the ledger's cash plus the cost basis of the open positions;
      and it is once more the closed profit plus what the open positions carry so far. */
  ghost predicate Refines(a: Account, l: Ledger) {
    && WellFormed(a)
    && (forall s :: l.Holding(s) == HeldIn(a, s))
    && a.balance == l.Cash(a.starting) + Total(Basis, a.positions)
    && a.balance == a.starting + PnlTotal(a.closed) + Total(Carried, a.positions)
    && Attributed(a, l)
  }

  function FeesOf(p: Position): real { p.feesPaid }

  function FundingOf(p: Position): real { p.fundingPaid }

  function SlippageOf(p: Position): real { p.slippageCost }

  /** What was traded in a position: all that went in, and all of it that came out again. */
  function TurnoverOf(p: Position): real { p.initialQty + (p.initialQty - p.qty) }

  ghost function ClosedTotal(m: Position -> real, closed: seq<ClosedTrade>): real {
    if closed == [] then 0.0 else ClosedTotal(m, closed[..|closed| - 1]) + m(closed[|closed| - 1].position)
  }

  /** The sum of `m` over the positions, open and closed. */
  ghost function Everywhere(m: Position -> real, a: Account): real {
    Total(m, a.positions) + ClosedTotal(m, a.closed)
  }

  /** Every fee, every funding payment, every cost of slippage and every quantity traded is booked to
      one position, open or closed. */
  ghost predicate Attributed(a: Account, l: Ledger) {
    && Everywhere(FeesOf, a) == l.fees
    && Everywhere(FundingOf, a) == -l.funding
    && Everywhere(SlippageOf, a) == l.slippage
    && Everywhere(TurnoverOf, a) == l.turnover
  }

  lemma ClosedTotalAppend(m: Position -> real, closed: seq<ClosedTrade>, t: ClosedTrade)
    ensures ClosedTotal(m, closed + [t]) == ClosedTotal(m, closed) + m(t.position)
  {
    assert (closed + [t])[..|closed|] == closed;
  }

  /** The position that a fill leaves behind of one it meets, and the one it opens with the rest. */
  function LeftBehind(p: Position, f: Fill): Position {
    if f.side == p.side then AddedTo(Charged(p, f), f) else ReducedBy(Charged(p, f), f)
  }

  function FlipsInto(p: Position, f: Fill, leverage: real): Option<Position> {
    if f.side != p.side && LeftBehind(p, f).qty == 0.0 && f.qty > Min(p.qty, f.qty)
    then Some(OpenFrom(f, f.qty - Min(p.qty, f.qty), leverage, 0.0, 0.0)) else None
  }

  /** A fill adds to the sum over all positions what it adds to the positions it touches. */
  lemma FillAdds(m: Position -> real, a: Account, f: Fill, leverage: real, x: real)
    requires WellFormed(a)
    requires f.symbol !in a.positions.vals ==> m(OpenFrom(f, f.qty, leverage, f.fee, SlippageCost(f))) == x
    requires f.symbol in a.positions.vals ==>
               var p := a.positions.vals[f.symbol];
               var q := FlipsInto(p, f, leverage);
               m(LeftBehind(p, f)) + (if q.Some? then m(q.value) else 0.0) == m(p) + x
    ensures Everywhere(m, ApplyFill(a, f, leverage)) == Everywhere(m, a) + x
  {
    if f.symbol !in a.positions.vals {
      TotalPut(m, a.positions, f.symbol, OpenFrom(f, f.qty, leverage, f.fee, SlippageCost(f)));
    } else {
      var p := a.positions.vals[f.symbol];
      var p', q := LeftBehind(p, f), FlipsInto(p, f, leverage);
      TotalPut(m, a.positions, f.symbol, p');
      if f.side != p.side && p'.qty == 0.0 {
        var r := Reduced(a, f);
        var c := Close(r, p', f);
        TotalDel(m, r.positions, f.symbol);
        ClosedTotalAppend(m, r.closed, c.closed[|r.closed|]);
        if q.Some? { TotalPut(m, c.positions, f.symbol, q.value); }
      }
    }
  }

  lemma RecordTrades(l: Ledger, f: Fill)
    ensures var l' := l.Record(Traded(f));
            && l'.fees == l.fees + f.fee && l'.funding == l.funding
            && l'.slippage == l.slippage + SlippageCost(f) && l'.turnover == l.turnover + f.qty
  {
  }

  lemma FillAttributes(a: Account, l: Ledger, f: Fill, leverage: real)
    requires WellFormed(a) && Attributed(a, l) && f.qty > 0.0
    ensures Attributed(ApplyFill(a, f, leverage), l.Record(Traded(f)))
  {
    hide ApplyFill, Everywhere, SlippageCost, Ledger.Record;
    RecordTrades(l, f);
    FillAdds(FeesOf, a, f, leverage, f.fee);
    FillAdds(FundingOf, a, f, leverage, 0.0);
    FillAdds(SlippageOf, a, f, leverage, SlippageCost(f));
    FillAdds(TurnoverOf, a, f, leverage, f.qty);
  }

  lemma PnlTotalAppend(closed: seq<ClosedTrade>, t: ClosedTrade)
    ensures PnlTotal(closed + [t]) == PnlTotal(closed) + t.pnl
  {
    assert (closed + [t])[..|closed|] == closed;
  }

  /** How one step moves the two balance equations: cash falls by the fee and the cost of the
      inventory, and no profit appears or disappears. */
  ghost predicate MovesBy(a: Account, a': Account, fee: real, cost: real) {
    && a'.starting == a.starting
    && a'.balance - Total(Basis, a'.positions) == a.balance - Total(Basis, a.positions) - fee - cost
    && a'.balance - PnlTotal(a'.closed) - Total(Carried, a'.positions)
       == a.balance - PnlTotal(a.closed) - Total(Carried, a.positions)
  }

  lemma AverageKeepsBasis(p: Position, f: Fill)
    requires p.qty > 0.0 && f.qty > 0.0 && p.side == f.side
    ensures Basis(AddedTo(p, f)) == Basis(p) + f.SignedCost()
  {
    DivCancels(p.avgEntry * p.qty + f.price * f.qty, p.qty + f.qty);
  }

  /** Closing part of a position exchanges basis for cash and realized profit. */
  lemma ReduceKeepsBasis(p: Position, f: Fill)
    requires p.side != f.side
    ensures Basis(ReducedBy(p, f)) - Basis(p) == RealizedBy(p, f) + f.side.Signed(Min(p.qty, f.qty) * f.price)
  {
    var q := Min(p.qty, f.qty);
    assert p.avgEntry * (p.qty - q) == p.avgEntry * p.qty - p.avgEntry * q;
    assert (f.price - p.avgEntry) * q == f.price * q - p.avgEntry * q;
  }

  lemma OpenMoves(a: Account, f: Fill, leverage: real)
    requires f.symbol !in a.positions.vals
    ensures MovesBy(a, Opened(a, f, leverage), f.fee, f.SignedCost())
  {
    var p := OpenFrom(f, f.qty, leverage, f.fee, SlippageCost(f));
    TotalPut(Basis, a.positions, f.symbol, p);
    TotalPut(Carried, a.positions, f.symbol, p);
  }

  lemma AddMoves(a: Account, f: Fill)
    requires f.symbol in a.positions.vals && a.positions.vals[f.symbol].side == f.side
    requires a.positions.vals[f.symbol].qty > 0.0 && f.qty > 0.0
    ensures MovesBy(a, Added(a, f), f.fee, f.SignedCost())
  {
    var p := Charged(a.positions.vals[f.symbol], f);
    AverageKeepsBasis(p, f);
    TotalPut(Basis, a.positions, f.symbol, AddedTo(p, f));
    TotalPut(Carried, a.positions, f.symbol, AddedTo(p, f));
  }

  lemma ReducedMoves(a: Account, f: Fill)
    requires f.symbol in a.positions.vals && a.positions.vals[f.symbol].side != f.side
    ensures MovesBy(a, Reduced(a, f), f.fee, f.side.Signed(Min(a.positions.vals[f.symbol].qty, f.qty) * f.price))
    ensures f.symbol in Reduced(a, f).positions.vals
    ensures var p := Reduced(a, f).positions.vals[f.symbol];
            p.symbol == a.positions.vals[f.symbol].symbol && p.side != f.side
            && p.qty == a.positions.vals[f.symbol].qty - Min(a.positions.vals[f.symbol].qty, f.qty)
  {
    var p := Charged(a.positions.vals[f.symbol], f);
    ReduceKeepsBasis(p, f);
    TotalPut(Basis, a.positions, f.symbol, ReducedBy(p, f));
    TotalPut(Carried, a.positions, f.symbol, ReducedBy(p, f));
  }

  lemma CloseMoves(r: Account, p: Position, f: Fill)
    requires f.symbol in r.positions.vals && r.positions.vals[f.symbol] == p && p.symbol == f.symbol && p.qty == 0.0
    ensures MovesBy(r, Close(r, p, f), 0.0, 0.0)
  {
    TotalDel(Basis, r.positions, f.symbol);
    TotalDel(Carried, r.positions, f.symbol);
    PnlTotalAppend(r.closed, ClosedTrade(p, f.price, f.tsMs, Carried(p)));
    assert Basis(p) == 0.0;
  }

  lemma ReopenMoves(c: Account, f: Fill, qty: real, leverage: real)
    requires f.symbol !in c.positions.vals
    ensures MovesBy(c, Reopened(c, f, qty, leverage), 0.0, f.side.Signed(f.price * qty))
  {
    var p := OpenFrom(f, qty, leverage, 0.0, 0.0);
    TotalPut(Basis, c.positions, f.symbol, p);
    TotalPut(Carried, c.positions, f.symbol, p);
  }

  lemma SplitCost(f: Fill, q: real)
    ensures f.side.Signed(q * f.price) + f.side.Signed(f.price * (f.qty - q)) == f.SignedCost()
  {
    assert q * f.price + f.price * (f.qty - q) == f.qty * f.price;
  }

  lemma SettledMoves(r: Account, f: Fill, leftover: real, leverage: real)
    requires f.symbol in r.positions.vals && r.positions.vals[f.symbol].symbol == f.symbol
    requires r.positions.vals[f.symbol].qty != 0.0 ==> leftover == 0.0
    requires leftover >= 0.0
    ensures MovesBy(r, Settled(r, f, leftover, leverage), 0.0, f.side.Signed(f.price * leftover))
  {
    var p := r.positions.vals[f.symbol];
    assert leftover == 0.0 ==> f.price * leftover == 0.0;
    if p.qty == 0.0 {
      CloseMoves(r, p, f);
      ReopenMoves(Close(r, p, f), f, leftover, leverage);
    }
  }

  lemma MovesCompose(a: Account, r: Account, s: Account, fee: real, cost: real, cost': real)
    requires MovesBy(a, r, fee, cost) && MovesBy(r, s, 0.0, cost')
    ensures MovesBy(a, s, fee, cost + cost')
  {
  }

  lemma ReduceMoves(a: Account, f: Fill, leverage: real, q: real)
    requires f.symbol in a.positions.vals && a.positions.vals[f.symbol].side != f.side
    requires a.positions.vals[f.symbol].symbol == f.symbol
    requires a.positions.vals[f.symbol].qty > 0.0 && f.qty > 0.0
    requires q == Min(a.positions.vals[f.symbol].qty, f.qty)
    ensures MovesBy(a, Settled(Reduced(a, f), f, f.qty - q, leverage), f.fee, f.SignedCost())
  {
    hide MovesBy, Settled, Reduced;
    var r := Reduced(a, f);
    ReducedMoves(a, f);
    SettledMoves(r, f, f.qty - q, leverage);
    MovesCompose(a, r, Settled(r, f, f.qty - q, leverage), f.fee,
                 f.side.Signed(q * f.price), f.side.Signed(f.price * (f.qty - q)));
    SplitCost(f, q);
  }

  /** Whichever of the five things a positive fill does, cash and profit move alike. */
  lemma FillMoves(a: Account, f: Fill, leverage: real)
    requires WellFormed(a) && f.qty > 0.0
    ensures MovesBy(a, ApplyFill(a, f, leverage), f.fee, f.SignedCost())
  {
    hide MovesBy;
    if f.symbol !in a.positions.vals {
      OpenMoves(a, f, leverage);
    } else if a.positions.vals[f.symbol].side == f.side {
      AddMoves(a, f);
    } else {
      ReduceMoves(a, f, leverage, Min(a.positions.vals[f.symbol].qty, f.qty));
    }
  }

  lemma ReducedShape(a: Account, f: Fill)
    requires WellFormed(a) && f.symbol in a.positions.vals && a.positions.vals[f.symbol].side != f.side
    ensures var r, q := Reduced(a, f), Min(a.positions.vals[f.symbol].qty, f.qty);
            && r.closed == a.closed
            && r.positions.vals.Keys == a.positions.vals.Keys
            && (forall s :: s in a.positions.vals && s != f.symbol ==> r.positions.vals[s] == a.positions.vals[s])
            && var p := r.positions.vals[f.symbol];
               p.symbol == f.symbol && p.side != f.side && p.qty == a.positions.vals[f.symbol].qty - q
  {
  }

  lemma SettledShape(r: Account, f: Fill, leftover: real, leverage: real)
    requires f.symbol in r.positions.vals && r.positions.vals[f.symbol].symbol == f.symbol
    requires forall t :: t in r.closed ==> t.position.qty == 0.0 && t.pnl == Carried(t.position)
    requires forall s :: s in r.positions.vals && s != f.symbol ==> r.positions.vals[s].symbol == s && r.positions.vals[s].qty > 0.0
    requires r.positions.vals[f.symbol].qty >= 0.0 && leftover >= 0.0
    requires r.positions.vals[f.symbol].qty > 0.0 ==> leftover == 0.0
    ensures var s' := Settled(r, f, leftover, leverage);
            && WellFormed(s')
            && HeldIn(s', f.symbol) == HeldIn(r, f.symbol) + f.side.Signed(leftover)
            && forall s :: s != f.symbol ==> HeldIn(s', s) == HeldIn(r, s)
  {
    var p := r.positions.vals[f.symbol];
    if p.qty == 0.0 {
      assert forall t :: t in Settled(r, f, leftover, leverage).closed ==>
        t in r.closed || t == ClosedTrade(p, f.price, f.tsMs, Carried(p));
    }
  }

  lemma AddedShape(a: Account, f: Fill)
    requires WellFormed(a) && f.qty > 0.0
    requires f.symbol in a.positions.vals && a.positions.vals[f.symbol].side == f.side
    ensures WellFormed(Added(a, f))
    ensures HeldIn(Added(a, f), f.symbol) == HeldIn(a, f.symbol) + f.SignedQty()
    ensures forall s :: s != f.symbol ==> HeldIn(Added(a, f), s) == HeldIn(a, s)
  {
  }

  /** A fill changes the net quantity of its own symbol by its signed quantity, and no other. */
  lemma FillKeepsShape(a: Account, f: Fill, leverage: real)
    requires WellFormed(a) && f.qty > 0.0
    ensures WellFormed(ApplyFill(a, f, leverage))
    ensures HeldIn(ApplyFill(a, f, leverage), f.symbol) == HeldIn(a, f.symbol) + f.SignedQty()
    ensures forall s :: s != f.symbol ==> HeldIn(ApplyFill(a, f, leverage), s) == HeldIn(a, s)
  {
    hide Reduced, Settled, Added;
    if f.symbol !in a.positions.vals {
    } else if a.positions.vals[f.symbol].side == f.side {
      AddedShape(a, f);
    } else {
      ReducedShape(a, f);
      SettledShape(Reduced(a, f), f, f.qty - Min(a.positions.vals[f.symbol].qty, f.qty), leverage);
    }
  }

  /** Every positive fill keeps the account in agreement with the naive ledger. */
  lemma FillRefines(a: Account, l: Ledger, f: Fill, leverage: real)
    requires Refines(a, l) && f.qty > 0.0
    ensures Refines(ApplyFill(a, f, leverage), l.Record(Traded(f)))
  {
    hide ApplyFill, Attributed, Total, Basis, Carried, PnlTotal;
    FillMoves(a, f, leverage);
    FillKeepsShape(a, f, leverage);
    FillAttributes(a, l, f, leverage);
  }

  lemma PaymentIsOdd(q: real, rate: real, mark: real)
    ensures (-q) * mark * rate == -(q * mark * rate)
  {
    assert (-q) * mark == -(q * mark);
    assert (-(q * mark)) * rate == -(q * mark * rate);
  }

  /** The account after a funding event of which `due` is to be paid. */
  function AfterFunding(a: Account, symbol: Symbol, due: real): Account {
    if symbol !in a.positions.vals then a
    else
      var p := a.positions.vals[symbol];
      a.(balance := a.balance - due, positions := Put(a.positions, symbol, p.(fundingPaid := p.fundingPaid + due)))
  }

  /** A positive rate makes longs pay and shorts receive, on the quantity at the mark: the balance
      falls by the net quantity times mark times rate, and the position records it as paid. */
  lemma FundingIsPaidByLongs(a: Account, symbol: Symbol, rate: real, mark: real)
    ensures var due := HeldIn(a, symbol) * mark * rate;
            var a' := ApplyFunding(a, symbol, rate, mark);
            && a'.balance == a.balance - due
            && a'.positions.keys == a.positions.keys && a'.closed == a.closed
            && (forall s :: s in a.positions.vals ==>
                  s in a'.positions.vals
                  && a'.positions.vals[s]
                     == a.positions.vals[s].(fundingPaid := a.positions.vals[s].fundingPaid + if s == symbol then due else 0.0))
  {
    var due := HeldIn(a, symbol) * mark * rate;
    FundingIs(a, symbol, rate, mark, due);
    hide ApplyFunding;
  }

  lemma FundingIs(a: Account, symbol: Symbol, rate: real, mark: real, due: real)
    requires due == HeldIn(a, symbol) * mark * rate
    ensures ApplyFunding(a, symbol, rate, mark) == AfterFunding(a, symbol, due)
    ensures symbol !in a.positions.vals ==> due == 0.0
  {
    if symbol in a.positions.vals {
      var p := a.positions.vals[symbol];
      PaymentIsOdd(p.qty, rate, mark);
      assert FundingFlow(p, rate, mark) == -due;
      if p.qty == 0.0 {
        assert due == 0.0;
        assert Put(a.positions, symbol, p) == a.positions;
        assert p.(fundingPaid := p.fundingPaid + 0.0) == p;
      }
      hide FundingFlow;
    }
  }

  lemma RecordFunds(l: Ledger, symbol: Symbol, rate: real, mark: real, held: real, due: real)
    requires l.Holding(symbol) == held && due == held * mark * rate
    ensures l.Record(Funded(symbol, rate, mark)) == l.(funding := l.funding - due)
  {
  }

  lemma FundedMoves(a: Account, symbol: Symbol, due: real)
    requires symbol !in a.positions.vals ==> due == 0.0
    ensures MovesBy(a, AfterFunding(a, symbol, due), 0.0, due)
  {
    if symbol in a.positions.vals {
      var p := a.positions.vals[symbol];
      var p' := p.(fundingPaid := p.fundingPaid + due);
      TotalPut(Basis, a.positions, symbol, p');
      TotalPut(Carried, a.positions, symbol, p');
    }
  }

  lemma FundedKeepsShape(a: Account, symbol: Symbol, due: real)
    requires WellFormed(a)
    ensures WellFormed(AfterFunding(a, symbol, due))
    ensures forall s :: HeldIn(AfterFunding(a, symbol, due), s) == HeldIn(a, s)
  {
  }

  lemma FundingRefines(a: Account, l: Ledger, symbol: Symbol, rate: real, mark: real)
    requires Refines(a, l)
    ensures Refines(ApplyFunding(a, symbol, rate, mark), l.Record(Funded(symbol, rate, mark)))
  {
    hide ApplyFunding, Ledger.Record, AfterFunding, Attributed, Total, Basis, Carried, PnlTotal;
    var held := HeldIn(a, symbol);
    var due := held * mark * rate;
    FundingIs(a, symbol, rate, mark, due);
    RecordFunds(l, symbol, rate, mark, held, due);
    FundedMoves(a, symbol, due);
    FundedKeepsShape(a, symbol, due);
    FundingAttributes(a, l, symbol, due);
    var l' := l.(funding := l.funding - due);
    assert forall s :: l'.Holding(s) == l.Holding(s);
  }

  lemma FundingAttributes(a: Account, l: Ledger, symbol: Symbol, due: real)
    requires Attributed(a, l) && (symbol !in a.positions.vals ==> due == 0.0)
    ensures Attributed(AfterFunding(a, symbol, due), l.(funding := l.funding - due))
  {
    hide AfterFunding, Everywhere;
    FundingAdds(FeesOf, a, symbol, due, 0.0);
    FundingAdds(FundingOf, a, symbol, due, due);
    FundingAdds(SlippageOf, a, symbol, due, 0.0);
    FundingAdds(TurnoverOf, a, symbol, due, 0.0);
  }

  lemma FundingAdds(m: Position -> real, a: Account, symbol: Symbol, due: real, x: real)
    requires symbol !in a.positions.vals ==> x == 0.0
    requires symbol in a.positions.vals ==>
               var p := a.positions.vals[symbol]; m(p.(fundingPaid := p.fundingPaid + due)) == m(p) + x
    ensures Everywhere(m, AfterFunding(a, symbol, due)) == Everywhere(m, a) + x
  {
    if symbol in a.positions.vals {
      var p := a.positions.vals[symbol];
      TotalPut(m, a.positions, symbol, p.(fundingPaid := p.fundingPaid + due));
    }
  }

  /** Replacing a position by one that holds and carries the same keeps the agreement. */
  lemma ReplaceRefines(a: Account, l: Ledger, s: Symbol, p: Position)
    requires Refines(a, l) && s in a.positions.vals
    requires p.symbol == s && p.side == a.positions.vals[s].side && p.qty == a.positions.vals[s].qty
    requires Basis(p) == Basis(a.positions.vals[s]) && Carried(p) == Carried(a.positions.vals[s])
    requires FeesOf(p) == FeesOf(a.positions.vals[s]) && FundingOf(p) == FundingOf(a.positions.vals[s])
    requires SlippageOf(p) == SlippageOf(a.positions.vals[s]) && TurnoverOf(p) == TurnoverOf(a.positions.vals[s])
    ensures Refines(a.(positions := Put(a.positions, s, p)), l)
  {
    hide Basis, Carried, FeesOf, FundingOf, SlippageOf, TurnoverOf;
    TotalPut(Basis, a.positions, s, p);
    TotalPut(Carried, a.positions, s, p);
    TotalPut(FeesOf, a.positions, s, p);
    TotalPut(FundingOf, a.positions, s, p);
    TotalPut(SlippageOf, a.positions, s, p);
    TotalPut(TurnoverOf, a.positions, s, p);
  }

  lemma ProtectRefines(a: Account, l: Ledger, symbol: Symbol, stopLoss: Option<real>, takeProfit: Option<real>)
    requires Refines(a, l) && symbol in a.positions.vals
    ensures Refines(Protect(a, symbol, stopLoss, takeProfit), l)
  {
    assert a.positions.vals[symbol].symbol == symbol;
    hide Refines;
    ReplaceRefines(a, l, symbol, Protected(a.positions.vals[symbol], stopLoss, takeProfit));
  }

  // ---- What refinement means for the figures the account reports ------------------

  lemma UnrealizedSplits(p: Position, m: real)
    ensures p.Unrealized(m) == Worth(p.SignedQty(), m) - Basis(p)
  {
    assert (m - p.avgEntry) * p.qty == m * p.qty - p.avgEntry * p.qty;
    assert (-p.qty) * m == -(m * p.qty);
  }

  /** The marks given, and for the open symbols without one the average entry. */
  function MarksOrEntries(a: Account, marks: map<Symbol, real>): (r: map<Symbol, real>)
    ensures forall s :: s in a.positions.vals ==> s in r
  {
    map s | s in a.positions.vals :: if s in marks then marks[s] else a.positions.vals[s].avgEntry
  }

  lemma {:induction false} UnrealizedIsValueLessBasis(a: Account, l: Ledger, keys: seq<Symbol>, marks: map<Symbol, real>)
    requires forall s :: s in keys ==> s in a.positions.vals && l.Holding(s) == a.positions.vals[s].SignedQty()
    ensures UnrealizedOver(keys, a.positions.vals, marks)
            == InventoryValue(l, keys, MarksOrEntries(a, marks)) - TotalOver(Basis, keys, a.positions.vals)
  {
    hide Basis, Worth, Position.Unrealized;
    if keys == [] {
    } else {
      var init, s := keys[..|keys| - 1], keys[|keys| - 1];
      UnrealizedIsValueLessBasis(a, l, init, marks);
      assert init + [s] == keys;
      TotalOverAppend(Basis, init, s, a.positions.vals);
      var p := a.positions.vals[s];
      UnrealizedSplits(p, MarksOrEntries(a, marks)[s]);
      if s !in marks { NothingUnrealized(p); }
    }
  }

  lemma NothingUnrealized(p: Position)
    ensures p.Unrealized(p.avgEntry) == 0.0
  {
  }

  /** Average-cost accounting is cash plus inventory. Whatever marks there are, the reported equity is
      starting balance less fees plus funding less what was spent, plus the inventory at the marks, or
      at the average entry where there is no mark; the open symbols are exactly those with a non-zero
      inventory. */
  lemma EquityIsCashPlusInventory(a: Account, l: Ledger, marks: map<Symbol, real>)
    requires Refines(a, l)
    ensures forall s :: s in a.positions.keys <==> l.Holding(s) != 0.0
    ensures Equity(a, marks)
            == a.starting - l.fees + l.funding - l.spent + InventoryValue(l, a.positions.keys, MarksOrEntries(a, marks))
  {
    hide MarksOrEntries, Attributed;
    UnrealizedIsValueLessBasis(a, l, a.positions.keys, marks);
  }

  function GrossValue(l: Ledger, symbols: seq<Symbol>, marks: map<Symbol, real>): real
    requires forall s :: s in symbols ==> s in marks
  {
    if symbols == [] then 0.0
    else
      var s := symbols[|symbols| - 1];
      GrossValue(l, symbols[..|symbols| - 1], marks) + Abs(l.Holding(s)) * marks[s]
  }

  /** The exposure is the inventory regardless of its sign, at the marks or else at the entries. */
  lemma ExposureIsGross(a: Account, l: Ledger, marks: map<Symbol, real>)
    requires Refines(a, l)
    ensures Exposure(a, marks) == GrossValue(l, a.positions.keys, MarksOrEntries(a, marks))
  {
    hide MarksOrEntries, Attributed;
    ExposureOverIsGross(a, l, a.positions.keys, marks);
  }

  lemma {:induction false} ExposureOverIsGross(a: Account, l: Ledger, keys: seq<Symbol>, marks: map<Symbol, real>)
    requires forall s :: s in keys ==> s in a.positions.vals && a.positions.vals[s].qty > 0.0
    requires forall s :: s in keys ==> l.Holding(s) == a.positions.vals[s].SignedQty()
    ensures ExposureOver(keys, a.positions.vals, marks) == GrossValue(l, keys, MarksOrEntries(a, marks))
  {
    if keys != [] {
      ExposureOverIsGross(a, l, keys[..|keys| - 1], marks);
      var s := keys[|keys| - 1];
      assert Abs(l.Holding(s)) == a.positions.vals[s].qty;
    }
  }
}
