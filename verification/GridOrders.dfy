/**
 * The running strategy against the venue's books: what one tick of the whole grid
 * submits, and what the first one commits.
 */
module GridOrders {
  import opened Options
  import opened OrderState
  import opened Venue
  import opened SlotReconciliation
  import opened LevelRuns
  import opened ExitPricing
  import opened Conservation
  import opened ConservationRuns
  import opened ConservationTheorems
  import opened GridTrading
  import opened GridTicks
  import opened TickOrders
  import GridExposure

  /**
   * One tick of a grid whose stop-loss has not tripped: at every level the venue ends with a new entry
   * exactly when the mark is at or below the line, nothing rests and something is left to buy; and with
   * a new exit exactly when the mark is at or above it, no exit rests, there is a price, and the slot is
   * full or locked with inventory.
   */
  method TickSubmits(grid: GridTradingStrategy, env: TickEnv)
    requires grid.Valid() && grid.Sound() && |env.levels| == grid.levels.Length
    modifies grid, grid.manager, grid.levels, grid.exchange, grid.stopLoss
    ensures grid.Valid() && grid.Sound()
    ensures !grid.stopLoss.State().BlocksEntries() ==>
      forall i :: 0 <= i < grid.levels.Length && Tickable(old(Worlds(grid))[i], grid.Cfg(), i, env.levels[i]) ==>
        TickedExactly(old(Worlds(grid))[i], Worlds(grid)[i], grid.Cfg(), i, env.mark,
                      SellTargetPrice(old(Worlds(grid))[i].desk.cell.level, LinesOf(grid).At(i)), env.levels[i])
  {
    hide TickLevel, Tickable, TickedExactly, SellTargetPrice, GeometryOf, StopExitPrice, EntryGone;
    GeometryTick(grid.prices, grid.tick, grid.takeProfit);
    ghost var before := Worlds(grid);
    ghost var cancels, exits := grid.Tick(env);
    ghost var after := Worlds(grid);
    if !grid.stopLoss.State().BlocksEntries() {
      forall i | 0 <= i < grid.levels.Length && Tickable(before[i], grid.Cfg(), i, env.levels[i])
        ensures TickedExactly(before[i], after[i], grid.Cfg(), i, env.mark,
                              SellTargetPrice(before[i].desk.cell.level, LinesOf(grid).At(i)), env.levels[i])
      {
        TickSubmitsExactly(before[i], grid.Cfg(), i, env.mark, LinesOf(grid).At(i),
                           StopExitPrice(env.mark, grid.prices[i], grid.tick), env.levels[i]);
      }
    }
  }

  // ----- the first tick -----

  /** What was committed under a level's first entry id: limit times size. */
  function Committed(b: Book, i: nat): real {
    var cid := Cid(i, Buy, 0);
    if cid in b then b[cid].limit * b[cid].quantity as real else 0.0
  }

  function CommittedBelow(books: seq<Book>, n: nat): real
    requires n <= |books|
  {
    if n == 0 then 0.0 else CommittedBelow(books, n - 1) + Committed(books[n - 1], n - 1)
  }

  /** A fresh level after its first tick committed one order of the slot's size at its line, or nothing. */
  lemma FirstTickCommits(price: real, cfg: Config, i: nat, mark: real, g: Geometry, exitPrice: Option<real>, e: LevelEnv)
    requires GoodConfig(cfg) && g.tick > 0.0 && Plain(e.buy) && Submits(e.buy) && e.sell.Honest() && e.buyRead.Honest()
    ensures var w' := TickLevel(FreshWorld(price, cfg.orderQuantity, i), cfg, i, mark, g, false, false, false, exitPrice, e);
      Committed(w'.desk.book, i) == if mark <= price then GridExposure.OrderNotional(cfg.orderQuantity as real, price) else 0.0
  {
    var w := FreshWorld(price, cfg.orderQuantity, i);
    FreshConserved(price, cfg, i);
    FreshLevelIs(price, cfg.orderQuantity, i);
    hide FreshWorld, Conserved, TickLevel, SellTargetPrice;
    TickSubmitsExactly(w, cfg, i, mark, g, exitPrice, e);
    hide TickedExactly, EntryExactly, NewOrder;
    CommitsBy(w, TickLevel(w, cfg, i, mark, g, false, false, false, exitPrice, e), cfg, i, price, mark,
              SellTargetPrice(w.desk.cell.level, g), e);
  }

  lemma FreshLevelIs(price: real, q: int, i: nat)
    ensures var w := FreshWorld(price, q, i);
      var l := w.desk.cell.level;
      && w.desk.book == map[] && !w.frozen && w.desk.cell.IdFor(i, Buy) == Cid(i, Buy, 0)
      && l.Held() == 0 && l.price == price && l.buyOrderId.None? && l.sellOrderId.None? && l.exitOnly.None?
  {}

  lemma CommitsBy(w: World, w': World, cfg: Config, i: nat, price: real, mark: real, target: Option<real>, e: LevelEnv)
    requires w.desk.book == map[] && !w.frozen && w.desk.cell.IdFor(i, Buy) == Cid(i, Buy, 0) && cfg.orderQuantity > QTY_EPSILON
    requires var l := w.desk.cell.level;
      l.Held() == 0 && l.price == price && l.buyOrderId.None? && l.sellOrderId.None? && l.exitOnly.None?
    requires TickedExactly(w, w', cfg, i, mark, target, e) && Submits(e.buy)
    ensures Committed(w'.desk.book, i) == if mark <= price then GridExposure.OrderNotional(cfg.orderQuantity as real, price) else 0.0
  {
    hide Submits, ExitExactly, Rests;
  }

  /**
   * What the shared calculator promises of a preparation: after the first tick of a fresh grid that the
   * venue accepts, the entries committed at the venue come to exactly the notional that the calculator's
   * rule gives for the grid's own lines.
   */
  lemma {:induction false} FirstTickCommitsExposure(prices: seq<real>, cfg: Config, mark: real, g: nat -> Geometry,
                                                    exitPrice: nat -> Option<real>, envs: seq<LevelEnv>, books: seq<Book>, n: nat)
    requires GoodConfig(cfg) && n <= |prices| == |envs| == |books|
    requires forall i :: 0 <= i < |prices| ==>
      && g(i).tick > 0.0 && Plain(envs[i].buy) && Submits(envs[i].buy) && envs[i].sell.Honest() && envs[i].buyRead.Honest()
      && books[i] == TickLevel(FreshWorld(prices[i], cfg.orderQuantity, i), cfg, i, mark, g(i), false, false, false,
                               exitPrice(i), envs[i]).desk.book
    ensures CommittedBelow(books, n) == GridExposure.RestingNotional(prices[..n], mark, cfg.orderQuantity as real)
  {
    if n > 0 {
      FirstTickCommitsExposure(prices, cfg, mark, g, exitPrice, envs, books, n - 1);
      FirstTickCommits(prices[n - 1], cfg, n - 1, mark, g(n - 1), exitPrice(n - 1), envs[n - 1]);
      assert prices[..n][..n - 1] == prices[..n - 1];
      hide TickLevel, FreshWorld;
    }
  }
}
