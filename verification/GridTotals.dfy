/**
 * The ledger of the whole grid is the ledgers of its levels put together: what
 * balances at every level balances for the strategy's running total.
 */
module GridTotals {
  import opened Options
  import opened OrderState
  import opened Ledger
  import opened LevelRuns
  import Ticks
  import opened Accounting
  import opened GridTrading

  /** Booked PnL that no cash accounts for, and the averaged entries behind it. */
  datatype Tally = Tally(unpaid: real, buys: nat)

  function TallyOf(rows: seq<Row>): Tally {
    Tally(RealisedPnl(rows) - CashFlow(rows), BuySegments(rows))
  }

  function Plus(a: Tally, b: Tally): Tally { Tally(a.unpaid + b.unpaid, a.buys + b.buys) }

  /** The tallies of the levels below n, together. */
  function TallyBelow(trades: seq<Row>, n: nat): Tally {
    if n == 0 then Tally(0.0, 0) else Plus(TallyBelow(trades, n - 1), TallyOf(RowsAt(trades, n - 1)))
  }

  lemma TallyAppend(rows: seq<Row>, r: Row)
    ensures TallyOf(rows + [r]) == Plus(TallyOf(rows), TallyOf([r]))
  {
    Append(rows, r);
    Append([], r);
    assert [] + [r] == [r];
  }

  /** One more trade counts once, at its own level. */
  lemma {:induction false} TallyBelowAppend(trades: seq<Row>, r: Row, n: nat)
    ensures TallyBelow(trades + [r], n) == if r.cid.level < n then Plus(TallyBelow(trades, n), TallyOf([r])) else TallyBelow(trades, n)
  {
    hide TallyOf, RowsAt;
    if n > 0 {
      var rows := RowsAt(trades, n - 1);
      TallyBelowAppend(trades, r, n - 1);
      RowsAtAppend(trades, r, n - 1);
      if r.cid.level == n - 1 {
        TallyAppend(rows, r);
      } else {
        assert rows + [] == rows;
      }
    }
  }

  lemma {:induction false} NothingBelow(n: nat)
    ensures TallyBelow([], n) == Tally(0.0, 0)
  {
    if n > 0 {
      NothingBelow(n - 1);
    }
  }

  /** The trades of a grid are the rows of its levels, no more and no fewer. */
  lemma {:induction false} TradesAreLevels(trades: seq<Row>, n: nat)
    requires InGrid(trades, n)
    ensures TallyOf(trades) == TallyBelow(trades, n)
  {
    if trades == [] {
      NothingBelow(n);
    } else {
      var earlier, last := trades[..|trades| - 1], trades[|trades| - 1];
      assert InGrid(earlier, n) && last.cid.level < n && earlier + [last] == trades;
      hide *;
      TradesAreLevels(earlier, n);
      TallyBelowAppend(earlier, last, n);
      TallyAppend(earlier, last);
    }
  }

  /** What the levels below n hold, at their entry prices. */
  function InventoryBelow(ws: seq<World>, n: nat): real
    requires n <= |ws|
  {
    if n == 0 then 0.0 else InventoryBelow(ws, n - 1) + Inventory(ws[n - 1].desk.cell.level)
  }

  lemma AllowanceSum(m: nat, n: nat, x: real)
    ensures Scaled(m + n, x) == Scaled(m, x) + Scaled(n, x)
  {
    assert (m + n) as real * x == m as real * x + n as real * x;
  }

  /** Balanced levels balance together. */
  lemma {:induction false} LevelsBalance(ws: seq<World>, trades: seq<Row>, q: int, n: nat)
    requires n <= |ws| && forall i :: 0 <= i < n ==> ws[i].rows == RowsAt(trades, i) && Balanced(ws[i], q)
    ensures var t := TallyBelow(trades, n);
      -Scaled(t.buys, Ticks.HALF_8DP * q as real) <= InventoryBelow(ws, n) - t.unpaid <= Scaled(t.buys, Ticks.HALF_8DP * q as real)
  {
    var x := Ticks.HALF_8DP * q as real;
    if n == 0 {
      assert Scaled(0, x) == 0.0;
    } else {
      LevelsBalance(ws, trades, q, n - 1);
      AllowanceSum(TallyBelow(trades, n - 1).buys, BuySegments(RowsAt(trades, n - 1)), x);
      assert Balanced(ws[n - 1], q);
    }
  }

  /**
   * The strategy's running total: booked PnL over all trades differs from sell proceeds minus buy
   * cost minus fees plus the inventory of all levels at entry price by at most half a unit in the
   * eighth place, per unit of the slot, per BUY segment.
   */
  ghost predicate GridBalanced(trades: seq<Row>, ws: seq<World>, totalPnl: real, q: int) {
    var bound := Scaled(BuySegments(trades), Ticks.HALF_8DP * q as real);
    -bound <= CashFlow(trades) + InventoryBelow(ws, |ws|) - totalPnl <= bound
  }

  lemma GridBalances(trades: seq<Row>, ws: seq<World>, q: int)
    requires InGrid(trades, |ws|)
    requires forall i :: 0 <= i < |ws| ==> ws[i].rows == RowsAt(trades, i) && Balanced(ws[i], q)
    ensures GridBalanced(trades, ws, RealisedPnl(trades), q)
  {
    TradesAreLevels(trades, |ws|);
    LevelsBalance(ws, trades, q, |ws|);
  }

  /** If every trade's fee is known, so is every fee at a level. */
  lemma {:induction false} FeesAtLevel(trades: seq<Row>, i: nat)
    requires FeesKnown(trades)
    ensures FeesKnown(RowsAt(trades, i))
  {
    if trades != [] {
      FeesAtLevel(trades[..|trades| - 1], i);
    }
  }
}
