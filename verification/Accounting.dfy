/**
 * The accounting identity over every truthful run: booked PnL is cash in minus cash
 * out minus fees, plus what the level still holds at its entry price. Only the
 * rounding of the averaged entry to eight places can open a gap, and it is bounded.
 */
module Accounting {
  import opened Options
  import opened OrderState
  import opened LevelMachine
  import opened SlotReconciliation
  import opened Ledger
  import opened LevelRuns
  import opened Ticks
  import opened Conservation
  import opened ConservationRuns
  import opened ConservationTheorems

  /** What the level still holds, at its entry price. */
  function Inventory(l: GridLevel): real {
    l.entryPrice.GetOr(0.0) * l.Held() as real
  }

  /** Cash, plus inventory at cost, minus booked PnL: zero when no average was rounded. */
  function Gap(w: World): real {
    CashFlow(w.rows) + Inventory(w.desk.cell.level) - RealisedPnl(w.rows)
  }

  function Scaled(n: int, x: real): real { n as real * x }

  /** Half a unit in the eighth place, per unit of the slot, per BUY segment. */
  function Allowance(rows: seq<Row>, q: int): real {
    Scaled(BuySegments(rows), HALF_8DP * q as real)
  }

  ghost predicate FeesKnown(rows: seq<Row>) {
    forall k :: 0 <= k < |rows| ==> rows[k].fee.Some?
  }

  // ----- one averaged entry -----

  lemma ScaledError(r: real, x: real, t: real)
    requires t >= 0.0 && x - HALF_8DP <= r <= x + HALF_8DP
    ensures x * t - HALF_8DP * t <= r * t <= x * t + HALF_8DP * t
  {
    MulLe(x - HALF_8DP, r, t);
    MulLe(r, x + HALF_8DP, t);
    Distributes(x, HALF_8DP, t);
  }

  lemma Distributes(x: real, h: real, t: real)
    ensures (x - h) * t == x * t - h * t && (x + h) * t == x * t + h * t
  {}

  lemma Quotient(n: real, t: real)
    requires t > 0.0
    ensures (n / t) * t == n
  {}

  lemma NearestUnit(x: real)
    ensures x - HALF_8DP <= Round8(x) <= x + HALF_8DP
  {}

  lemma RoundedMeanCost(p: real, m: real, r: real, n: real)
    requires m >= 0.0 && n > 0.0
    ensures var mean := Round8(WeightedMean(p, m, r, n));
      p * m + r * n - HALF_8DP * (m + n) <= mean * (m + n) <= p * m + r * n + HALF_8DP * (m + n)
  {
    var mean := WeightedMean(p, m, r, n);
    Quotient(p * m + r * n, m + n);
    NearestUnit(mean);
    hide WeightedMean, Round8;
    ScaledError(Round8(mean), mean, m + n);
  }

  /**
   * Re-averaging the entry changes inventory at cost by what was paid, within half a unit in the eighth
   * place each.
   */
  lemma AveragedCost(prior: Option<real>, held: int, price: real, d: int, q: int)
    requires held >= 0 && d > QTY_EPSILON && held + d <= q
    requires prior.Some? <==> held > 0
    requires held > 0 ==> held > QTY_EPSILON
    ensures var after := AveragedEntry(prior, held, price, d) * (held + d) as real;
      var paid := prior.GetOr(0.0) * held as real + price * d as real;
      paid - HALF_8DP * q as real <= after <= paid + HALF_8DP * q as real
  {
    var m, n := held as real, d as real;
    assert (held + d) as real == m + n && m + n <= q as real;
    if held > 0 {
      RoundedMeanCost(prior.value, m, price, n);
    } else {
      assert prior.GetOr(0.0) * m == 0.0;
    }
  }

  // ----- one step -----

  lemma SpreadParts(p: real, e: real, h: real, h': real, x: real)
    requires h' == h - x
    ensures p * x + e * h' - (p - e) * x == e * h
  {
    assert e * h == e * h' + e * x;
    assert (p - e) * x == p * x - e * x;
  }

  /** A sell realises exactly what leaves inventory. */
  lemma SellParts(r: Row, e: real, h: int, h': int, fee: real)
    requires h' == h - r.quantity
    ensures Notional(r) + e * h' as real - fee - PnlOf(Sell, e, r.price, r.quantity, fee) == e * h as real
  {
    SpreadParts(r.price, e, h as real, h' as real, r.quantity as real);
  }

  lemma BuyStep(w: World, w': World, i: nat, d: int, fee: Option<real>, q: int)
    requires Advances(w, w', i, Buy, d, fee) && d > 0 && fee.Some?
    requires 0 <= w.desk.cell.level.Held() && w.desk.cell.level.Held() + d <= q
    requires w.desk.cell.level.entryPrice.Some? <==> w.desk.cell.level.Held() > 0
    requires w.desk.cell.level.Held() > 0 ==> w.desk.cell.level.Held() > QTY_EPSILON
    ensures Gap(w) - HALF_8DP * q as real <= Gap(w') <= Gap(w) + HALF_8DP * q as real
    ensures BuySegments(w'.rows) == BuySegments(w.rows) + 1
  {
    var r := w'.rows[|w.rows|];
    Append(w.rows, r);
    AveragedCost(w.desk.cell.level.entryPrice, w.desk.cell.level.Held(), r.price, d, q);
  }

  lemma SellStep(w: World, w': World, i: nat, d: int, fee: Option<real>)
    requires Advances(w, w', i, Sell, d, fee) && d > 0 && fee.Some?
    requires w.desk.cell.level.entryPrice.Some?
    requires w'.desk.cell.level.Held() >= 0 && (w'.desk.cell.level.Held() > 0 ==> w'.desk.cell.level.Held() > QTY_EPSILON)
    ensures Gap(w') == Gap(w) && BuySegments(w'.rows) == BuySegments(w.rows)
  {
    var r := w'.rows[|w.rows|];
    var e := w.desk.cell.level.entryPrice.value;
    var h, h' := w.desk.cell.level.Held(), w'.desk.cell.level.Held();
    Append(w.rows, r);
    SellParts(r, e, h, h', fee.value);
    InventoryIs(w.desk.cell.level, e);
    InventoryIs(w'.desk.cell.level, e);
    assert r.pnl == Some(PnlOf(Sell, e, r.price, r.quantity, fee.value));
  }

  lemma InventoryIs(l: GridLevel, e: real)
    requires l.entryPrice == Some(e) || (l.entryPrice.None? && l.Held() == 0)
    ensures Inventory(l) == e * l.Held() as real
  {}

  /** Cash plus inventory at cost equals booked PnL, up to the rounding of the averaged entries. */
  ghost predicate Balanced(w: World, q: int) {
    -Allowance(w.rows, q) <= Gap(w) <= Allowance(w.rows, q)
  }

  lemma StillStep(w: World, w': World, i: nat, side: Side, fee: Option<real>)
    requires Advances(w, w', i, side, 0, fee)
    ensures Gap(w') == Gap(w) && w'.rows == w.rows
  {}

  /** The allowance grows by what one more averaged entry can open. */
  lemma OneMore(g: real, g': real, n: int, x: real)
    requires -Scaled(n, x) <= g <= Scaled(n, x) && g - x <= g' <= g + x
    ensures -Scaled(n + 1, x) <= g' <= Scaled(n + 1, x)
  {
    assert (n + 1) as real * x == n as real * x + x;
  }

  lemma StepBalanced(w: World, w': World, cfg: Config, i: nat, side: Side, d: int, fee: Option<real>)
    requires Conserved(w, cfg, i) && Conserved(w', cfg, i) && Advances(w, w', i, side, d, fee)
    requires FeesKnown(w'.rows) && Balanced(w, cfg.orderQuantity)
    ensures Balanced(w', cfg.orderQuantity)
  {
    WholeLots(w, cfg, i);
    WholeLots(w', cfg, i);
    if d > 0 {
      assert w'.rows[|w.rows|].fee == fee;
      BookedStep(w, w', i, side, d, fee, cfg.orderQuantity);
    } else {
      StillStep(w, w', i, side, fee);
    }
  }

  lemma BookedStep(w: World, w': World, i: nat, side: Side, d: int, fee: Option<real>, q: int)
    requires Advances(w, w', i, side, d, fee) && d > 0 && fee.Some? && Balanced(w, q)
    requires 0 <= w.desk.cell.level.Held() <= q && 0 <= w'.desk.cell.level.Held() <= q
    requires w.desk.cell.level.Held() > 0 ==> w.desk.cell.level.Held() > QTY_EPSILON
    requires w'.desk.cell.level.Held() > 0 ==> w'.desk.cell.level.Held() > QTY_EPSILON
    requires w.desk.cell.level.entryPrice.Some? <==> w.desk.cell.level.Held() > 0
    ensures Balanced(w', q)
  {
    if side == Buy {
      BuyStep(w, w', i, d, fee, q);
      OneMore(Gap(w), Gap(w'), BuySegments(w.rows), HALF_8DP * q as real);
    } else {
      SellStep(w, w', i, d, fee);
    }
  }

  lemma WholeLots(w: World, cfg: Config, i: nat)
    requires Conserved(w, cfg, i)
    ensures 0 <= w.desk.cell.level.Held() <= cfg.orderQuantity
    ensures w.desk.cell.level.Held() > 0 ==> w.desk.cell.level.Held() > QTY_EPSILON
    ensures w.desk.cell.level.entryPrice.Some? <==> w.desk.cell.level.Held() > 0
  {
    if w.desk.cell.level.Held() > 0 {
      LotGap(w.desk.cell.level.Held(), cfg.step);
    }
  }

  lemma {:induction false} RunBalanced(w: World, cfg: Config, i: nat, events: seq<Event>)
    requires Conserved(w, cfg, i) && Truthful(w, cfg, i, events) && Balanced(w, cfg.orderQuantity)
    requires FeesKnown(Run(w, cfg, i, events).rows)
    ensures Balanced(Run(w, cfg, i, events), cfg.orderQuantity)
  {
    if events != [] {
      var prefix := events[..|events| - 1];
      var before := Run(w, cfg, i, prefix);
      RunConserved(w, cfg, i, prefix);
      RunConserved(w, cfg, i, events);
      var side, d, fee := StepConserved(before, cfg, i, events[|events| - 1]);
      EarlierRows(before, Run(w, cfg, i, events), i, side, d, fee);
      RunBalanced(w, cfg, i, prefix);
      StepBalanced(before, Run(w, cfg, i, events), cfg, i, side, d, fee);
    }
  }

  lemma EarlierRows(w: World, w': World, i: nat, side: Side, d: int, fee: Option<real>)
    requires Advances(w, w', i, side, d, fee) && FeesKnown(w'.rows)
    ensures FeesKnown(w.rows)
  {
    forall k | 0 <= k < |w.rows| ensures w.rows[k].fee.Some? {
      assert w'.rows[k] == w.rows[k];
    }
  }

  lemma FreshBalanced(price: real, q: int, i: nat)
    ensures Balanced(FreshWorld(price, q, i), q)
  {
    var w := FreshWorld(price, q, i);
    assert w.rows == [] && w.desk.cell.level.Held() == 0;
    hide FreshWorld;
  }

  /**
   * The accounting identity, over every truthful run from a fresh level with known fees:
   * booked PnL differs from sell proceeds minus buy cost minus fees plus inventory at its
   * entry price by at most half a unit in the eighth place, per unit of the slot, per BUY segment.
   */
  lemma AccountingIdentity(price: real, cfg: Config, i: nat, events: seq<Event>)
    requires GoodConfig(cfg) && Truthful(FreshWorld(price, cfg.orderQuantity, i), cfg, i, events)
    requires FeesKnown(Run(FreshWorld(price, cfg.orderQuantity, i), cfg, i, events).rows)
    ensures Balanced(Run(FreshWorld(price, cfg.orderQuantity, i), cfg, i, events), cfg.orderQuantity)
  {
    hide FreshWorld, Run, Balanced, FeesKnown, Truthful, Conserved;
    FreshConserved(price, cfg, i);
    FreshBalanced(price, cfg.orderQuantity, i);
    RunBalanced(FreshWorld(price, cfg.orderQuantity, i), cfg, i, events);
  }
}
