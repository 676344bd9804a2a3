/**
 * The whole grid over sequences of ticks and stops: level by level it is a run of level events,
 * so what every run promises a level, the running strategy object promises all of them at once.
 */
module GridTicks {
  import opened Options
  import opened OrderState
  import ExitPricing
  import StopLoss
  import opened Venue
  import opened SlotReconciliation
  import opened Ledger
  import opened LevelRuns
  import opened Tiling
  import opened TilingRuns
  import opened SingleOrderRuns
  import opened Conservation
  import opened ConservationTheorems
  import opened GridTrading
  import opened GridRuns
  import opened FillIdentity
  import opened ClientOrderIds
  import opened Accounting
  import opened GridTotals

  // ----- what the grid is asked to do -----

  datatype GridOp = OnTick(env: TickEnv) | OnStop(envs: seq<CancelEnv>)

  predicate Fits(op: GridOp, n: nat) {
    match op
    case OnTick(env) => |env.levels| == n
    case OnStop(envs) => |envs| == n
  }

  predicate HonestLevel(e: LevelEnv) {
    && e.cancelRead.Honest() && e.exit.Honest() && e.buy.Honest() && e.sell.Honest()
    && e.buyRead.Honest() && e.sellRead.Honest()
  }

  /** The venue answers truthfully throughout the operation. */
  predicate HonestOp(op: GridOp) {
    match op
    case OnTick(env) => forall i :: 0 <= i < |env.levels| ==> HonestLevel(env.levels[i])
    case OnStop(envs) => forall i :: 0 <= i < |envs| ==> envs[i].buyRead.Honest() && envs[i].sellRead.Honest()
  }

  // ----- one operation at one level -----

  /** No restart among the events, and truthful ones if asked for. */
  predicate Ordinary(events: seq<Event>, honest: bool) {
    forall e :: e in events ==> !e.Reboot? && (honest ==> HonestEvent(e))
  }

  lemma OrdinaryAppend(a: seq<Event>, b: seq<Event>, honest: bool)
    requires Ordinary(a, honest) && Ordinary(b, honest)
    ensures Ordinary(a + b, honest)
  {}

  lemma OrdinaryIf(events: seq<Event>, honest: bool, assumed: bool)
    requires Ordinary(events, honest) && (assumed ==> honest)
    ensures Ordinary(events, assumed)
  {}

  lemma TickIsOrdinary(w: World, cfg: Config, i: nat, mark: real, g: ExitPricing.Geometry, frozen: bool,
                       cancels: bool, exits: bool,
                       exitPrice: Option<real>, e: LevelEnv)
    requires g.tick > 0.0
    ensures Ordinary(TickEvents(w, cfg, i, mark, g, frozen, cancels, exits, exitPrice, e), HonestLevel(e))
  {}

  lemma GeometryTick(prices: seq<real>, tick: real, takeProfit: Option<real>)
    ensures forall i :: GeometryOf(prices, i, tick, takeProfit).tick == tick
  {}

  function StopEvents(e: CancelEnv): seq<Event> {
    [Cancel(Buy, e.buyOk, e.buyLast, e.buyRead, e.buyFee)] + [Cancel(Sell, e.sellOk, e.sellLast, e.sellRead, e.sellFee)]
  }

  lemma StopIsRun(w: World, cfg: Config, i: nat, g: ExitPricing.Geometry, e: CancelEnv)
    requires g.tick > 0.0
    ensures Run(w, cfg, i, StopEvents(e)) == CancelBoth(w, cfg, e)
    ensures Ordinary(StopEvents(e), e.buyRead.Honest() && e.sellRead.Honest()) && Guided(w, cfg, i, g, StopEvents(e))
  {
    var buy, sell := Cancel(Buy, e.buyOk, e.buyLast, e.buyRead, e.buyFee),
      Cancel(Sell, e.sellOk, e.sellLast, e.sellRead, e.sellFee);
    TwoEvents(w, cfg, i, buy, sell);
    GuidedOne(w, cfg, i, g, buy);
    GuidedOne(Run(w, cfg, i, [buy]), cfg, i, g, sell);
    GuidedAppend(w, cfg, i, g, [buy], [sell]);
  }

  // ----- the whole grid -----

  ghost function WorldsBelow(grid: GridTradingStrategy, n: nat): (ws: seq<World>)
    requires grid.Valid() && n <= grid.levels.Length
    reads grid, grid.manager, grid.manager.levels, grid.levels, grid.exchange, grid.stopLoss
    ensures |ws| == n && forall i :: 0 <= i < n ==> ws[i] == grid.WorldAt(i)
  {
    if n == 0 then [] else WorldsBelow(grid, n - 1) + [grid.WorldAt(n - 1)]
  }

  /** Every level of the grid with its orders and its rows. */
  ghost function Worlds(grid: GridTradingStrategy): (ws: seq<World>)
    requires grid.Valid()
    reads grid, grid.manager, grid.manager.levels, grid.levels, grid.exchange, grid.stopLoss
    ensures |ws| == grid.levels.Length && forall i :: 0 <= i < |ws| ==> ws[i] == grid.WorldAt(i)
  {
    WorldsBelow(grid, grid.levels.Length)
  }

  /** What the exit prices of a grid depend on besides its entries. */
  datatype Lines = Lines(prices: seq<real>, tick: real, takeProfit: Option<real>) {

    function At(i: nat): ExitPricing.Geometry { GeometryOf(prices, i, tick, takeProfit) }
  }

  ghost function LinesOf(grid: GridTradingStrategy): (lines: Lines)
    requires grid.Valid()
    reads grid, grid.manager, grid.manager.levels, grid.levels, grid.exchange, grid.stopLoss
    ensures lines.tick > 0.0
  {
    Lines(grid.prices, grid.tick, grid.takeProfit)
  }

  /** Each level went from before to after by its own run of level events, its exits priced by its own lines. */
  ghost predicate GridRun(before: seq<World>, after: seq<World>, cfg: Config, lines: Lines, runs: seq<seq<Event>>,
                          honest: bool)
    requires lines.tick > 0.0
  {
    && |before| == |after| == |runs|
    && forall i :: 0 <= i < |runs| ==>
      after[i] == Run(before[i], cfg, i, runs[i]) && Ordinary(runs[i], honest) && Guided(before[i], cfg, i, lines.At(i), runs[i])
  }

  lemma GridRunNothing(ws: seq<World>, cfg: Config, lines: Lines, honest: bool)
    requires lines.tick > 0.0
    ensures GridRun(ws, ws, cfg, lines, seq(|ws|, _ => []), honest)
  {}

  lemma GridRunIf(a: seq<World>, b: seq<World>, cfg: Config, lines: Lines, runs: seq<seq<Event>>, honest: bool,
                  assumed: bool)
    requires lines.tick > 0.0 && GridRun(a, b, cfg, lines, runs, honest) && (assumed ==> honest)
    ensures GridRun(a, b, cfg, lines, runs, assumed)
  {
    forall i | 0 <= i < |runs| ensures Ordinary(runs[i], assumed) {
      OrdinaryIf(runs[i], honest, assumed);
    }
  }

  lemma GridRunThen(a: seq<World>, b: seq<World>, c: seq<World>, cfg: Config, lines: Lines, first: seq<seq<Event>>,
                    next: seq<seq<Event>>, honest: bool)
    returns (runs: seq<seq<Event>>)
    requires lines.tick > 0.0 && GridRun(a, b, cfg, lines, first, honest) && GridRun(b, c, cfg, lines, next, honest)
    ensures GridRun(a, c, cfg, lines, runs, honest)
  {
    runs := seq(|a|, i requires 0 <= i < |a| => first[i] + next[i]);
    forall i | 0 <= i < |a|
      ensures c[i] == Run(a[i], cfg, i, runs[i]) && Ordinary(runs[i], honest)
      ensures Guided(a[i], cfg, i, lines.At(i), runs[i])
    {
      RunAppend(a[i], cfg, i, first[i], next[i]);
      OrdinaryAppend(first[i], next[i], honest);
      GuidedAppend(a[i], cfg, i, lines.At(i), first[i], next[i]);
    }
  }

  /** A tick of the strategy object is, at every level at once, a run of level events. */
  method TickAsRun(grid: GridTradingStrategy, env: TickEnv) returns (ghost runs: seq<seq<Event>>)
    requires grid.Valid() && grid.Sound() && |env.levels| == grid.levels.Length
    modifies grid, grid.manager, grid.levels, grid.exchange, grid.stopLoss
    ensures grid.Valid() && grid.Sound()
    ensures GridRun(old(Worlds(grid)), Worlds(grid), grid.Cfg(), LinesOf(grid), runs, HonestOp(OnTick(env)))
  {
    hide Run, Guided, TickLevel, TickEvents, Ordinary, GeometryOf, StopExitPrice, EntryGone;
    GeometryTick(grid.prices, grid.tick, grid.takeProfit);
    ghost var before := Worlds(grid);
    ghost var cancels, exits := grid.Tick(env);
    ghost var frozen, cfg, n := grid.stopLoss.State().BlocksEntries(), grid.Cfg(), grid.levels.Length;
    ghost var prices, tick, takeProfit := grid.prices, grid.tick, grid.takeProfit;
    runs := seq(n, i requires 0 <= i < n =>
      TickEvents(before[i], cfg, i, env.mark, GeometryOf(prices, i, tick, takeProfit), frozen, cancels, exits,
                 StopExitPrice(env.mark, prices[i], tick), env.levels[i]));
    ghost var after := Worlds(grid);
    forall i | 0 <= i < n
      ensures after[i] == Run(before[i], cfg, i, runs[i]) && Ordinary(runs[i], HonestOp(OnTick(env)))
      ensures Guided(before[i], cfg, i, LinesOf(grid).At(i), runs[i])
    {
      var g, exitPrice := GeometryOf(prices, i, tick, takeProfit), StopExitPrice(env.mark, prices[i], tick);
      TickIsRun(before[i], cfg, i, env.mark, g, frozen, cancels, exits, exitPrice, env.levels[i]);
      TickIsGuided(before[i], cfg, i, env.mark, g, frozen, cancels, exits, exitPrice, env.levels[i]);
      TickIsOrdinary(before[i], cfg, i, env.mark, g, frozen, cancels, exits, exitPrice, env.levels[i]);
      OrdinaryIf(runs[i], HonestLevel(env.levels[i]), HonestOp(OnTick(env)));
    }
  }

  /** A stop is one too. */
  method StopAsRun(grid: GridTradingStrategy, envs: seq<CancelEnv>) returns (ghost runs: seq<seq<Event>>)
    requires grid.Valid() && grid.Sound() && |envs| == grid.levels.Length
    modifies grid, grid.manager, grid.levels, grid.exchange, grid.stopLoss
    ensures grid.Valid() && grid.Sound()
    ensures GridRun(old(Worlds(grid)), Worlds(grid), grid.Cfg(), LinesOf(grid), runs, HonestOp(OnStop(envs)))
  {
    hide Run, Guided, CancelBoth, StopEvents, Ordinary;
    ghost var before, cfg := Worlds(grid), grid.Cfg();
    var problems := grid.CancelAllOrders(envs);
    ghost var after := Worlds(grid);
    runs := seq(|envs|, i requires 0 <= i < |envs| => StopEvents(envs[i]));
    forall i | 0 <= i < |envs|
      ensures after[i] == Run(before[i], cfg, i, runs[i]) && Ordinary(runs[i], HonestOp(OnStop(envs)))
      ensures Guided(before[i], cfg, i, LinesOf(grid).At(i), runs[i])
    {
      StopIsRun(before[i], cfg, i, LinesOf(grid).At(i), envs[i]);
      OrdinaryIf(runs[i], envs[i].buyRead.Honest() && envs[i].sellRead.Honest(), HonestOp(OnStop(envs)));
    }
  }

  /** Any sequence of ticks and stops. */
  method Operate(grid: GridTradingStrategy, ops: seq<GridOp>) returns (ghost runs: seq<seq<Event>>)
    requires grid.Valid() && grid.Sound() && forall k :: 0 <= k < |ops| ==> Fits(ops[k], grid.levels.Length)
    modifies grid, grid.manager, grid.levels, grid.exchange, grid.stopLoss
    ensures grid.Valid() && grid.Sound()
    ensures GridRun(old(Worlds(grid)), Worlds(grid), grid.Cfg(), LinesOf(grid), runs, forall k :: 0 <= k < |ops| ==> HonestOp(ops[k]))
  {
    hide GridRun, HonestOp;
    ghost var before, honest := Worlds(grid), forall k :: 0 <= k < |ops| ==> HonestOp(ops[k]);
    runs := seq(|before|, _ => []);
    GridRunNothing(before, grid.Cfg(), LinesOf(grid), honest);
    for k := 0 to |ops|
      invariant grid.Valid() && grid.Sound()
      invariant GridRun(before, Worlds(grid), grid.Cfg(), LinesOf(grid), runs, honest)
    {
      ghost var midway := Worlds(grid);
      ghost var next;
      match ops[k] {
        case OnTick(env) => next := TickAsRun(grid, env);
        case OnStop(envs) => next := StopAsRun(grid, envs);
      }
      GridRunIf(midway, Worlds(grid), grid.Cfg(), LinesOf(grid), next, HonestOp(ops[k]), honest);
      runs := GridRunThen(before, midway, Worlds(grid), grid.Cfg(), LinesOf(grid), runs, next, honest);
    }
  }

  // ----- the level theorems, of the whole grid -----

  lemma {:induction false} OrdinaryIsTruthful(w: World, cfg: Config, i: nat, events: seq<Event>)
    requires Ordinary(events, true)
    ensures Truthful(w, cfg, i, events)
  {
    if events != [] {
      OrdinaryIsTruthful(w, cfg, i, events[..|events| - 1]);
    }
  }

  /** Every level agrees with its rows: what it holds is what they bought less what they sold. */
  ghost predicate Conserves(w: World, q: int) {
    var l := w.desk.cell.level;
    && l.Held() == Net(w.rows) && 0 <= l.Held() <= q
    && (l.filled <==> l.Held() >= q - QTY_EPSILON) && (l.entryPrice.Some? <==> l.Held() > 0)
  }

  /** A grid as built, before any order. */
  ghost predicate Untouched(ws: seq<World>, cfg: Config) {
    forall i :: 0 <= i < |ws| ==> ws[i] == FreshWorld(ws[i].desk.cell.level.price, cfg.orderQuantity, i)
  }

  /** From a fresh grid, at every level: the rows tile every order, whatever the venue answered. */
  lemma GridTiles(before: seq<World>, after: seq<World>, cfg: Config, lines: Lines, runs: seq<seq<Event>>,
                  honest: bool, i: nat, cid: Cid)
    requires lines.tick > 0.0 && GridRun(before, after, cfg, lines, runs, honest) && Untouched(before, cfg)
    requires i < |runs|
    ensures Tiled(after[i].rows) && Contiguous(RowsOf(after[i].rows, cid), 0, Booked(after[i].rows, cid))
  {
    var price := before[i].desk.cell.level.price;
    SegmentsTile(price, cfg, i, runs[i], cid);
  }

  /** And held quantity, flags and entry agree with them, if it answered truthfully. */
  lemma GridConserves(before: seq<World>, after: seq<World>, cfg: Config, lines: Lines, runs: seq<seq<Event>>, i: nat)
    requires lines.tick > 0.0 && GridRun(before, after, cfg, lines, runs, true) && Untouched(before, cfg)
    requires GoodConfig(cfg) && i < |runs|
    ensures Conserves(after[i], cfg.orderQuantity)
  {
    var price := before[i].desk.cell.level.price;
    OrdinaryIsTruthful(before[i], cfg, i, runs[i]);
    HeldIsNet(price, cfg, i, runs[i]);
  }

  /** And the money of the whole grid balances, if every fee is known too. */
  lemma GridAccounts(before: seq<World>, after: seq<World>, cfg: Config, lines: Lines, runs: seq<seq<Event>>,
                     trades: seq<Row>)
    requires lines.tick > 0.0 && GridRun(before, after, cfg, lines, runs, true) && Untouched(before, cfg)
    requires GoodConfig(cfg)
    requires InGrid(trades, |after|) && (forall i :: 0 <= i < |after| ==> after[i].rows == RowsAt(trades, i)) && FeesKnown(trades)
    ensures GridBalanced(trades, after, RealisedPnl(trades), cfg.orderQuantity)
  {
    hide Balanced, FeesKnown, RowsAt, Truthful, FreshWorld;
    forall i | 0 <= i < |after| ensures Balanced(after[i], cfg.orderQuantity) {
      var price := before[i].desk.cell.level.price;
      assert before[i] == FreshWorld(price, cfg.orderQuantity, i);
      OrdinaryIsTruthful(before[i], cfg, i, runs[i]);
      FeesAtLevel(trades, i);
      AccountingIdentity(price, cfg, i, runs[i]);
    }
    GridBalances(trades, after, cfg.orderQuantity);
  }

  // ----- the ledger of the whole grid -----

  /** Trade k is where the trades before it put it among the rows of its level. */
  lemma {:induction false} RowPosition(trades: seq<Row>, i: nat, k: nat)
    requires k < |trades| && trades[k].cid.level == i
    ensures |RowsAt(trades[..k], i)| < |RowsAt(trades, i)| && RowsAt(trades, i)[|RowsAt(trades[..k], i)|] == trades[k]
  {
    var n := |trades| - 1;
    if k < n {
      RowPosition(trades[..n], i, k);
      assert trades[..n][..k] == trades[..k];
    }
  }

  /** No two trades of the grid's levels share a fill id. */
  lemma TradesHaveDistinctIds(trades: seq<Row>, n: nat, botId: string, g: Generator, venueId: Handle -> string,
                              full: int, j: nat, k: nat)
    requires j < k < |trades| && g.Valid() && ColonFree(botId, venueId, trades[j])
    requires ColonFree(botId, venueId, trades[k])
    requires trades[j].cid.level < n && trades[k].cid.level < n && forall i :: 0 <= i < n ==> Tiled(RowsAt(trades, i))
    ensures Differ(botId, g, venueId, full, trades[j], trades[k])
  {
    var i, i' := trades[j].cid.level, trades[k].cid.level;
    RowPosition(trades, i, j);
    RowPosition(trades, i', k);
    RowInTiling(RowsAt(trades, i), |RowsAt(trades[..j], i)|);
    RowInTiling(RowsAt(trades, i'), |RowsAt(trades[..k], i')|);
    if i == i' {
      RowPosition(trades[..k], i, j);
      assert trades[..k][..j] == trades[..j];
      TiledRowsHaveDistinctIds(RowsAt(trades, i), botId, g, venueId, full, |RowsAt(trades[..j], i)|,
        |RowsAt(trades[..k], i)|);
    } else {
      RowsHaveDistinctIds(trades[j], trades[k], botId, g, venueId, full);
    }
  }

  method Build(levels: array<GridLevel>, orderQuantity: int, tick: real, takeProfit: Option<real>, baselinePrice: real,
               exchange: ExchangeClient, stopPercent: Option<StopLoss.Number>)
    returns (grid: GridTradingStrategy)
    requires orderQuantity > 0 && tick > 0.0 && |exchange.books| == levels.Length
    requires forall i :: 0 <= i < levels.Length ==> levels[i] == FreshLevel(levels[i].price) && exchange.books[i] == map[]
    modifies levels
    ensures grid.Valid() && grid.Sound() && grid.levels == levels && grid.exchange == exchange
    ensures grid.orderQuantity == orderQuantity
    ensures fresh(grid) && fresh(grid.manager) && fresh(grid.stopLoss)
    ensures Untouched(Worlds(grid), grid.Cfg())
  {
    ghost var prices := seq(levels.Length, i requires 0 <= i < levels.Length reads levels => levels[i].price);
    grid := new GridTradingStrategy(levels, orderQuantity, tick, takeProfit, baselinePrice, exchange, stopPercent,
      None);
    forall i | 0 <= i < levels.Length
      ensures grid.WorldAt(i) == FreshWorld(grid.WorldAt(i).desk.cell.level.price, orderQuantity, i)
      ensures Coherent(grid.WorldAt(i), i)
    {
      assert grid.WorldAt(i) == FreshWorld(prices[i], orderQuantity, i);
      FreshIsCoherent(prices[i], orderQuantity, i);
    }
  }

  lemma FreshIsCoherent(price: real, q: int, i: nat)
    ensures Coherent(FreshWorld(price, q, i), i)
  {}

  /**
   * A strategy built on fresh levels and operated any number of times: whatever the venue answers,
   * every level's trades tile every order; if it answers truthfully, every level holds exactly
   * what its trades bought less what they sold, and with known fees the running total of booked
   * PnL is the cash of all trades plus the inventory of all levels, up to rounding.
   */
  method TradeFromFresh(levels: array<GridLevel>, orderQuantity: int, tick: real, takeProfit: Option<real>,
                        baselinePrice: real,
                        exchange: ExchangeClient, stopPercent: Option<StopLoss.Number>, ops: seq<GridOp>)
    returns (grid: GridTradingStrategy)
    requires orderQuantity > 0 && tick > 0.0 && |exchange.books| == levels.Length
    requires forall i :: 0 <= i < levels.Length ==> levels[i] == FreshLevel(levels[i].price) && exchange.books[i] == map[]
    requires forall k :: 0 <= k < |ops| ==> Fits(ops[k], levels.Length)
    modifies levels, exchange
    ensures grid.Valid() && grid.Sound() && grid.levels == levels
    ensures forall i :: 0 <= i < levels.Length ==> Tiled(RowsAt(grid.trades, i))
    ensures GoodConfig(grid.Cfg()) && (forall k :: 0 <= k < |ops| ==> HonestOp(ops[k])) ==>
      && (forall i :: 0 <= i < levels.Length ==> Conserves(grid.WorldAt(i), orderQuantity))
      && (FeesKnown(grid.trades) ==> GridBalanced(grid.trades, Worlds(grid), grid.totalPnl, orderQuantity))
  {
    grid := Build(levels, orderQuantity, tick, takeProfit, baselinePrice, exchange, stopPercent);
    hide Untouched, GridRun, Conserves, Tiled, GridBalanced, FeesKnown, HonestOp, RowsAt, InGrid;
    ghost var before := Worlds(grid);
    ghost var runs := Operate(grid, ops);
    ghost var honest := forall k :: 0 <= k < |ops| ==> HonestOp(ops[k]);
    OperatedFromFresh(before, Worlds(grid), grid.Cfg(), LinesOf(grid), runs, honest, grid.trades);
  }

  /** The level theorems and the grid's, together. */
  lemma OperatedFromFresh(before: seq<World>, after: seq<World>, cfg: Config, lines: Lines, runs: seq<seq<Event>>,
                          honest: bool, trades: seq<Row>)
    requires lines.tick > 0.0 && GridRun(before, after, cfg, lines, runs, honest) && Untouched(before, cfg)
    requires InGrid(trades, |after|) && forall i :: 0 <= i < |after| ==> after[i].rows == RowsAt(trades, i)
    ensures forall i :: 0 <= i < |after| ==> Tiled(RowsAt(trades, i))
    ensures GoodConfig(cfg) && honest ==>
      && (forall i :: 0 <= i < |after| ==> Conserves(after[i], cfg.orderQuantity))
      && (FeesKnown(trades) ==> GridBalanced(trades, after, RealisedPnl(trades), cfg.orderQuantity))
  {
    hide Untouched, Conserves, Tiled, GridBalanced, FeesKnown, RowsAt, InGrid;
    assert |after| == |runs|;
    hide GridRun;
    if GoodConfig(cfg) && honest && FeesKnown(trades) {
      GridAccounts(before, after, cfg, lines, runs, trades);
    }
    forall i | 0 <= i < |after|
      ensures Tiled(RowsAt(trades, i)) && (GoodConfig(cfg) && honest ==> Conserves(after[i], cfg.orderQuantity))
    {
      GridTiles(before, after, cfg, lines, runs, honest, i, Cid(i, Buy, 0));
      if GoodConfig(cfg) && honest {
        GridConserves(before, after, cfg, lines, runs, i);
      }
    }
  }
}
