/** The mutable account of backend/app/services/paper_engine/account.py. Its methods change
    the fields step by step, as the source does; each is proved against the state machine of
    module Accounting. */
module PaperAccounts {
  import opened Prelude
  import opened Models
  import Spec = Accounting

  class PaperAccount {
    const startingBalance: real
    var balance: real
    var positions: Dict<Symbol, Position>
    var closedTrades: seq<Spec.ClosedTrade>

    function View(): Spec.Account
      reads this
    {
      Spec.Account(startingBalance, balance, positions, closedTrades)
    }

    constructor (startingBalance: real)
      ensures View() == Spec.NewAccount(startingBalance)
    {
      this.startingBalance := startingBalance;
      balance := startingBalance;
      positions := RawDict([], map[]);
      closedTrades := [];
    }

    /** The position filed under a symbol is a position in that symbol. */
    predicate Keyed(symbol: Symbol)
      reads this
    {
      symbol in positions.vals ==> positions.vals[symbol].symbol == symbol
    }

    /** The position after an adding fill, with its entry averaged over the total. */
    method Averaged(pos: Position, fill: Fill) returns (added: Position)
      ensures added == Spec.AddedTo(pos, fill)
    {
      var total := pos.qty + fill.qty;
      var average := if total == 0.0 then 0.0 else (pos.avgEntry * pos.qty + fill.price * fill.qty) / total;
      added := pos.(avgEntry := average, qty := total, initialQty := pos.initialQty + fill.qty);
    }

    /** The profit an opposite fill realizes, and the position it leaves. */
    method Realize(pos: Position, fill: Fill) returns (reduced: Position, realized: real)
      ensures realized == Spec.RealizedBy(pos, fill) && reduced == Spec.ReducedBy(pos, fill)
    {
      var reduceQty := Min(pos.qty, fill.qty);
      realized := pos.side.Signed((fill.price - pos.avgEntry) * reduceQty);
      reduced := pos.(realizedPnl := pos.realizedPnl + realized);
      reduced := reduced.(qty := reduced.qty - reduceQty);
    }

    /** Opens, adds to, reduces, closes or flips the position of the fill's symbol. */
    method ApplyFill(fill: Fill, leverage: real) returns (affected: Option<Position>)
      modifies this
      ensures View() == Spec.ApplyFill(old(View()), fill, leverage)
      ensures old(Keyed(fill.symbol)) ==> affected == Get(positions, fill.symbol)
    {
      hide Spec.AddedTo, Spec.RealizedBy, Spec.SlippageCost, Spec.Settled;
      balance := balance - fill.fee;
      var slip := Spec.SlippageCost(fill);
      var found := Get(positions, fill.symbol);
      if found.None? {
        var entered := Position(fill.symbol, fill.side, fill.qty, fill.price, leverage, fill.qty,
                                0.0, fill.fee, 0.0, slip, None, None, fill.tsMs);
        positions := Put(positions, fill.symbol, entered);
        return Some(entered);
      }
      var pos := found.value.(feesPaid := found.value.feesPaid + fill.fee,
                              slippageCost := found.value.slippageCost + slip);
      if fill.side == pos.side {
        pos := Averaged(pos, fill);
        positions := Put(positions, fill.symbol, pos);
        return Some(pos);
      }
      var held := pos.qty;
      var realized;
      pos, realized := Realize(pos, fill);
      balance := balance + realized;
      positions := Put(positions, fill.symbol, pos);
      assert View() == Spec.Reduced(old(View()), fill);
      affected := CloseOrFlip(fill, fill.qty - Min(held, fill.qty), leverage);
    }

    /** Once reduced to zero the position is booked, and what is left of the fill opens the
        opposite one. */
    method CloseOrFlip(fill: Fill, leftover: real, leverage: real) returns (affected: Option<Position>)
      requires fill.symbol in positions.vals
      modifies this
      ensures View() == Spec.Settled(old(View()), fill, leftover, leverage)
      ensures old(Keyed(fill.symbol)) ==> affected == Get(positions, fill.symbol)
    {
      var pos := positions.vals[fill.symbol];
      if pos.qty != 0.0 {
        return Some(pos);
      }
      Close(pos, fill);
      if leftover > 0.0 {
        var flip := Position(fill.symbol, fill.side, leftover, fill.price, leverage, leftover,
                             0.0, 0.0, 0.0, 0.0, None, None, fill.tsMs);
        positions := Put(positions, fill.symbol, flip);
        return Some(flip);
      }
      return None;
    }

    method Close(pos: Position, fill: Fill)
      modifies this
      ensures View() == Spec.Close(old(View()), pos, fill)
    {
      var net := pos.realizedPnl - pos.feesPaid - pos.fundingPaid;
      closedTrades := closedTrades + [Spec.ClosedTrade(pos, fill.price, fill.tsMs, net)];
      positions := Del(positions, pos.symbol);
    }

    /** Accrues one funding event and returns the cash flow applied to the balance. */
    method ApplyFunding(symbol: Symbol, rate: real, mark: real) returns (flow: real)
      modifies this
      ensures View() == Spec.ApplyFunding(old(View()), symbol, rate, mark)
      ensures flow == balance - old(balance)
    {
      var found := Get(positions, symbol);
      if found.None? || found.value.qty == 0.0 {
        return 0.0;
      }
      var pos := found.value;
      var notional := pos.qty * mark;
      var payment := notional * rate;
      flow := if pos.side.Buy? then -payment else payment;
      assert payment == Spec.Payment(pos.qty, rate, mark);
      balance := balance + flow;
      positions := Put(positions, symbol, pos.(fundingPaid := pos.fundingPaid - flow));
    }

    /** The SL/TP an order carries, attached to the position of its symbol. */
    method SetProtections(symbol: Symbol, stopLoss: Option<real>, takeProfit: Option<real>)
      requires symbol in positions.vals
      modifies this
      ensures View() == Spec.Protect(old(View()), symbol, stopLoss, takeProfit)
    {
      var pos := positions.vals[symbol];
      if stopLoss.Some? { pos := pos.(stopLoss := stopLoss); }
      if takeProfit.Some? { pos := pos.(takeProfit := takeProfit); }
      positions := Put(positions, symbol, pos);
    }

    method UnrealizedAt(marks: map<Symbol, real>) returns (total: real)
      ensures total == Spec.Unrealized(View(), marks)
    {
      total := 0.0;
      for i := 0 to |positions.keys|
        invariant total == Spec.UnrealizedOver(positions.keys[..i], positions.vals, marks)
      {
        var sym := positions.keys[i];
        assert positions.keys[..i + 1][..i] == positions.keys[..i];
        if sym in marks {
          total := total + positions.vals[sym].Unrealized(marks[sym]);
        }
      }
      assert positions.keys[..|positions.keys|] == positions.keys;
    }

    method EquityAt(marks: map<Symbol, real>) returns (equity: real)
      ensures equity == Spec.Equity(View(), marks)
    {
      var unrealized := UnrealizedAt(marks);
      equity := balance + unrealized;
    }

    method ExposureAt(marks: map<Symbol, real>) returns (total: real)
      ensures total == Spec.Exposure(View(), marks)
    {
      total := 0.0;
      for i := 0 to |positions.keys|
        invariant total == Spec.ExposureOver(positions.keys[..i], positions.vals, marks)
      {
        var sym := positions.keys[i];
        assert positions.keys[..i + 1][..i] == positions.keys[..i];
        var mark := if sym in marks then marks[sym] else positions.vals[sym].avgEntry;
        total := total + positions.vals[sym].qty * mark;
      }
      assert positions.keys[..|positions.keys|] == positions.keys;
    }

    method RealizedPnlTotal() returns (total: real)
      ensures total == Spec.PnlTotal(closedTrades)
    {
      total := 0.0;
      for i := 0 to |closedTrades|
        invariant total == Spec.PnlTotal(closedTrades[..i])
      {
        assert closedTrades[..i + 1][..i] == closedTrades[..i];
        total := total + closedTrades[i].pnl;
      }
      assert closedTrades[..|closedTrades|] == closedTrades;
    }
  }
}
