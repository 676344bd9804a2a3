/**
 * Normal exits of the operated grid: an accepted set of lines gives every level a
 * line to sell at, so while the stop-loss blocks nothing and fills respect their
 * limits no level of the grid ever sells at a loss.
 */
module GridExits {
  import opened Options
  import opened OrderState
  import opened Ticks
  import opened ExitPricing
  import opened SlotReconciliation
  import opened Ledger
  import opened LevelRuns
  import opened SingleOrderRuns
  import opened Conservation
  import opened ConservationTheorems
  import opened NormalExits
  import GridGeometry
  import opened GridTrading
  import opened GridRuns
  import opened GridTicks

  // ----- the geometry of accepted lines -----

  /** Every level of an accepted grid has a line above it, on the tick, or room for one more spacing. */
  lemma AcceptedGeometry(levels: seq<real>, b: GridGeometry.Band, n: nat, tick: real, takeProfit: Option<real>, i: nat)
    requires tick > 0.0 && n >= 1 && GridGeometry.GoodLines(levels, b, n, tick) && i <= n
    ensures GoodGeometry(levels[i], GeometryOf(levels, i, tick, takeProfit))
  {
    assert i < n ==> levels[i] < levels[i + 1];
    assert levels[0] < levels[1];
  }

  /** So a full level of an accepted grid that bought at its line sells at the next one, unless a take profit is set. */
  lemma ExitIsTheNextLine(levels: seq<real>, b: GridGeometry.Band, n: nat, tick: real, i: nat, l: GridLevel)
    requires tick > 0.0 && n >= 1 && GridGeometry.GoodLines(levels, b, n, tick) && i < n
    requires l.price == levels[i] && l.entryPrice.GetOr(l.price) <= l.price
    ensures SellTargetPrice(l, GeometryOf(levels, i, tick, None)) == Some(levels[i + 1])
  {
    AcceptedGeometry(levels, b, n, tick, None, i);
    StepExitExactly(l, GeometryOf(levels, i, tick, None), 0.0);
  }

  /** And the top level one spacing of the grid above itself, to the first tick. */
  lemma TopExitIsOneSpacingUp(levels: seq<real>, b: GridGeometry.Band, n: nat, tick: real, l: GridLevel)
    requires tick > 0.0 && n >= 1 && GridGeometry.GoodLines(levels, b, n, tick)
    requires l.price == levels[n] && l.entryPrice.GetOr(l.price) <= l.price
    ensures SellTargetPrice(l, GeometryOf(levels, n, tick, None)).Some?
    ensures LeastFrom(SellTargetPrice(l, GeometryOf(levels, n, tick, None)).value, levels[n] + (levels[1] - levels[0]), tick)
  {
    AcceptedGeometry(levels, b, n, tick, None, n);
    var next := l.price + (levels[1] - levels[0]);
    UpIsLeast(next, tick);
    StepExitExactly(l, GeometryOf(levels, n, tick, None), QuantUp(next, tick));
  }

  const UNIT_8DP: real := 0.00000001

  lemma TimesTimes(j: int, k: int, u: real)
    ensures Times(j, Times(k, u)) == Times(j * k, u)
  {
    assert j as real * k as real == (j * k) as real by { Products(j, k); }
  }

  lemma {:induction false} Products(j: int, k: int)
    ensures j as real * k as real == (j * k) as real
    decreases if j >= 0 then j else -j
  {
    if j > 0 {
      Products(j - 1, k);
      assert (j - 1) * k == j * k - k;
    } else if j < 0 {
      Products(j + 1, k);
      assert (j + 1) * k == j * k + k;
    }
  }

  /** Lines on a tick of at most eight decimals have at most eight decimals. */
  lemma LineKeepsRounding(line: real, tick: real)
    requires IsMultiple(line, tick) && IsMultiple(tick, UNIT_8DP)
    ensures Round8(line) == line
  {
    var j: int :| Times(j, tick) == line;
    var k: int :| Times(k, UNIT_8DP) == tick;
    TimesTimes(j, k, UNIT_8DP);
    hide Times;
    RoundUnits(j * k);
  }

  lemma RoundUnits(n: int)
    ensures Round8(Times(n, UNIT_8DP)) == Times(n, UNIT_8DP)
  {
    var x := n as real;
    assert Times(n, UNIT_8DP) * 100000000.0 == x;
    assert (x + 0.5).Floor == n;
  }

  // ----- normal runs -----

  /** Every fill booked along the run was reported within the limit of its order. */
  ghost predicate InLimits(w: World, cfg: Config, i: nat, events: seq<Event>) {
    events == [] ||
    (InLimits(w, cfg, i, events[..|events| - 1])
     && ReportsWithinLimits(Run(w, cfg, i, events[..|events| - 1]), cfg, i, events[|events| - 1]))
  }

  lemma StaysFrozen(w: World, cfg: Config, i: nat, e: Event)
    ensures Step(w, cfg, i, e).frozen <==> w.frozen || e.Freeze?
  {
    if !e.Freeze? {
      StepThaws(w, cfg, i, e);
    }
  }

  /** A truthful, guided run that ends unfrozen was normal all along. */
  lemma {:induction false} UnfrozenIsNormal(w: World, cfg: Config, i: nat, g: Geometry, events: seq<Event>)
    requires g.tick > 0.0 && Ordinary(events, true) && Guided(w, cfg, i, g, events) && InLimits(w, cfg, i, events)
    requires !Run(w, cfg, i, events).frozen
    ensures NormalRun(w, cfg, i, g, events)
  {
    hide Step, ReportsWithinLimits, SellTargetPrice;
    if events != [] {
      StaysFrozen(Run(w, cfg, i, events[..|events| - 1]), cfg, i, events[|events| - 1]);
      UnfrozenIsNormal(w, cfg, i, g, events[..|events| - 1]);
    }
  }

  /** Every exit gained before fees, and what is held has an exit price above its entry, on the tick. */
  ghost predicate NeverLost(w: World, g: Geometry)
    requires g.tick > 0.0
  {
    var l := w.desk.cell.level;
    && (l.Held() > 0 ==>
          && l.entryPrice.Some? && SellTargetPrice(l, g).Some?
          && SellTargetPrice(l, g).value > l.entryPrice.value && IsMultiple(SellTargetPrice(l, g).value, g.tick))
    && (forall k :: 0 <= k < |w.rows| && w.rows[k].cid.side == Sell && w.rows[k].pnl.Some? ==>
          w.rows[k].fee.Some? && w.rows[k].pnl.value + w.rows[k].fee.value > 0.0)
  }

  /**
   * Normal exits of the whole grid never lose: after any ticks and stops of a grid built on
   * accepted lines over an eight-decimal tick, answered truthfully and filled within limits, every
   * level the stop-loss has not frozen has only gained from its exits before fees, and can price
   * the next one above its entry.
   */
  lemma GridNeverLoses(before: seq<World>, after: seq<World>, cfg: Config, lines: Lines, runs: seq<seq<Event>>,
                       b: GridGeometry.Band, n: nat, i: nat)
    requires lines.tick > 0.0 && GridRun(before, after, cfg, lines, runs, true) && Untouched(before, cfg)
    requires GoodConfig(cfg)
    requires n >= 1 && GridGeometry.GoodLines(lines.prices, b, n, lines.tick) && IsMultiple(lines.tick, UNIT_8DP)
    requires i < |runs| <= n + 1 && before[i].desk.cell.level.price == lines.prices[i]
    requires InLimits(before[i], cfg, i, runs[i]) && !after[i].frozen
    ensures NeverLost(after[i], lines.At(i))
  {
    hide Run, Ordinary, Guided, InLimits, NormalRun, FreshWorld;
    var price, g := lines.prices[i], lines.At(i);
    AcceptedGeometry(lines.prices, b, n, lines.tick, lines.takeProfit, i);
    LineKeepsRounding(price, lines.tick);
    UnfrozenIsNormal(before[i], cfg, i, g, runs[i]);
    assert before[i] == FreshWorld(price, cfg.orderQuantity, i);
    NormalExitsNeverLose(price, cfg, i, g, runs[i]);
  }
}
