/** The running cash chain of backend/app/services/analytics/money.py: the closed trades in the
    order in which they closed, each with the cash before and after it. */
module Money {
  import opened Prelude
  import opened Models
  import opened Accounting
  import opened Sorting

  datatype Row = Row(trade: ClosedTrade, stake: real, cashBefore: real, cashAfter: real, won: bool)

  /** The stake deployed: the quantity is zero once closed, so the initial quantity stands in. */
  function Stake(p: Position): real {
    var qty := if p.initialQty != 0.0 then p.initialQty else p.qty;
    if p.leverage != 0.0 then qty * p.avgEntry / p.leverage else qty * p.avgEntry
  }

  /** The stake times the leverage is the value of what went into the position, at its average entry. */
  lemma StakeIsMargin(p: Position)
    requires p.leverage != 0.0 && p.initialQty != 0.0
    ensures Stake(p) * p.leverage == p.initialQty * p.avgEntry
  {
    DivCancels(p.initialQty * p.avgEntry, p.leverage);
  }

  function ClosedMs(t: ClosedTrade): int { t.closedMs }

  lemma {:induction false} PnlTotalConcat(s: seq<ClosedTrade>, t: seq<ClosedTrade>)
    ensures PnlTotal(s + t) == PnlTotal(s) + PnlTotal(t)
  {
    if t == [] {
      assert s + t == s;
    } else {
      assert (s + t)[..|s + t| - 1] == s + t[..|t| - 1];
      PnlTotalConcat(s, t[..|t| - 1]);
    }
  }

  /** The total profit does not depend on the order of the trades. */
  lemma {:induction false} PnlTotalOfAnyOrder(s: seq<ClosedTrade>, t: seq<ClosedTrade>)
    requires multiset(s) == multiset(t)
    ensures PnlTotal(s) == PnlTotal(t)
  {
    if s == [] {
      assert |multiset(t)| == 0;
    } else {
      var init, x := s[..|s| - 1], s[|s| - 1];
      SplitLast(s);
      assert x in multiset(t);
      var i :| 0 <= i < |t| && t[i] == x;
      TakeOut(t, i);
      var before, after := t[..i], t[i + 1..];
      assert multiset(init) == multiset(s) - multiset{x};
      PnlTotalOfAnyOrder(init, before + after);
      PnlTotalConcat(before, after);
      PnlTotalConcat(before + [x], after);
      PnlTotalAppend(before, x);
    }
  }

  ghost predicate Links(row: Row, cashBefore: real) {
    && row.cashBefore == cashBefore && row.cashAfter == cashBefore + row.trade.pnl
    && row.stake == Stake(row.trade.position) && (row.won <==> row.trade.pnl > 0.0)
  }

  /** The cash before row `i`, or the final cash when `i` is the number of rows. */
  function CashBefore(rows: seq<Row>, i: nat, starting: real): real
    requires i <= |rows|
  {
    if i == 0 then starting else rows[i - 1].cashAfter
  }

  /** Each row starts with the cash the one before it ended with. */
  ghost predicate Chained(rows: seq<Row>, starting: real) {
    forall i :: 0 <= i < |rows| ==> Links(rows[i], CashBefore(rows, i, starting))
  }

  function TradesOf(rows: seq<Row>): seq<ClosedTrade> { seq(|rows|, i requires 0 <= i < |rows| => rows[i].trade) }

  lemma ChainGrows(rows: seq<Row>, row: Row, starting: real)
    requires Chained(rows, starting) && Links(row, CashBefore(rows, |rows|, starting))
    ensures Chained(rows + [row], starting)
    ensures TradesOf(rows + [row]) == TradesOf(rows) + [row.trade]
  {
    var grown := rows + [row];
    forall i | 0 <= i < |grown|
      ensures Links(grown[i], CashBefore(grown, i, starting))
    {
      assert CashBefore(grown, i, starting) == CashBefore(rows, i, starting);
      assert i < |rows| ==> Links(rows[i], CashBefore(rows, i, starting));
    }
  }

  /** The rows of the closed trades: every closed trade once, in the order of closing, as a chain
      of cash that ends at the starting balance plus all the profit booked. */
  method ClosedRows(a: Account) returns (rows: seq<Row>)
    ensures TradesOf(rows) == SortedBy(ClosedMs, a.closed) && Chained(rows, a.starting)
    ensures multiset(TradesOf(rows)) == multiset(a.closed) && InOrderBy(ClosedMs, TradesOf(rows))
    ensures CashBefore(rows, |rows|, a.starting) == a.starting + PnlTotal(a.closed)
  {
    SortSorts(ClosedMs, a.closed);
    var trades := SortedBy(ClosedMs, a.closed);
    hide SortedBy, Stake;
    rows := [];
    var running := a.starting;
    for i := 0 to |trades|
      invariant TradesOf(rows) == trades[..i] && Chained(rows, a.starting)
      invariant running == CashBefore(rows, |rows|, a.starting) == a.starting + PnlTotal(trades[..i])
    {
      var t := trades[i];
      var cashBefore := running;
      running := running + t.pnl;
      assert trades[..i + 1] == trades[..i] + [t];
      PnlTotalAppend(trades[..i], t);
      var row := Row(t, Stake(t.position), cashBefore, running, t.pnl > 0.0);
      ChainGrows(rows, row, a.starting);
      rows := rows + [row];
    }
    assert trades[..|trades|] == trades;
    PnlTotalOfAnyOrder(trades, a.closed);
  }

  /** Whatever the order of the rows, the running cash ends short of the balance by just what
      the open positions carry: when flat, it ends exactly at the balance. */
  lemma CashChainEndsAtBalance(a: Account, l: Ledger, trades: seq<ClosedTrade>)
    requires Refines(a, l) && multiset(trades) == multiset(a.closed)
    ensures a.starting + PnlTotal(trades) == a.balance - Total(Carried, a.positions)
    ensures a.positions.keys == [] ==> a.starting + PnlTotal(trades) == a.balance
  {
    PnlTotalOfAnyOrder(trades, a.closed);
  }
}
