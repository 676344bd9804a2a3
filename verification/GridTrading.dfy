/**
 * The grid strategy: every level's slots, one ledger, one stop-loss. Each method is
 * proved to take every level's world where the level functions of `LevelRuns` say,
 * and to leave the other levels alone, so every theorem about level runs is a
 * theorem about the grid.
 */
module GridTrading {
  import opened Options
  import opened OrderState
  import LM = LevelMachine
  import opened Venue
  import opened SlotReconciliation
  import opened OrderManagement
  import opened ReconciliationService
  import opened Ledger
  import opened ExitPricing
  import opened Ticks
  import opened StopLoss
  import LR = LevelRuns
  import opened Tiling
  import opened TilingRuns
  import opened LevelFrames

  /** The trades booked for one level, in booking order. */
  function RowsAt(trades: seq<Row>, i: nat): seq<Row> {
    if trades == [] then []
    else
      var last := trades[|trades| - 1];
      RowsAt(trades[..|trades| - 1], i) + if last.cid.level == i then [last] else []
  }

  lemma RowsAtAppend(trades: seq<Row>, r: Row, i: nat)
    ensures RowsAt(trades + [r], i) == RowsAt(trades, i) + if r.cid.level == i then [r] else []
  {
    assert (trades + [r])[..|trades|] == trades;
  }

  /** Every trade is of one of the n levels. */
  predicate InGrid(trades: seq<Row>, n: nat) {
    trades == [] || (InGrid(trades[..|trades| - 1], n) && trades[|trades| - 1].cid.level < n)
  }

  lemma InGridAppend(trades: seq<Row>, r: Row, n: nat)
    requires InGrid(trades, n) && r.cid.level < n
    ensures InGrid(trades + [r], n)
  {
    assert (trades + [r])[..|trades|] == trades;
  }

  /** What the outside world does to one level during one tick. */
  datatype LevelEnv = LevelEnv(
    cancelOk: bool, cancelLast: Move, cancelRead: Move, cancelFee: Option<real>,
    exit: PlaceMoves, exitFee: Option<real>,
    buy: PlaceMoves, buyFee: Option<real>,
    sell: PlaceMoves, sellFee: Option<real>,
    buyDue: bool, buyRead: Move, buyReadFee: Option<real>,
    sellDue: bool, sellRead: Move, sellReadFee: Option<real>)

  /** The stop-loss exit price: at or through the mark, on the tick; none when that is not positive. */
  function StopExitPrice(mark: real, price: real, tick: real): Option<real>
    requires tick > 0.0
  {
    var p := QuantDown(if mark > 0.0 then mark else price, tick);
    if p > 0.0 then Some(p) else None
  }

  /** What the levels hold together. */
  function TotalHeld(levels: seq<GridLevel>, q: int): int {
    if levels == [] then 0 else TotalHeld(levels[..|levels| - 1], q) + HeldQtyOf(levels[|levels| - 1], q)
  }

  function HoldingsOf(levels: seq<GridLevel>, q: int): seq<Holding> {
    seq(|levels|, k requires 0 <= k < |levels| => Holding(HeldQtyOf(levels[k], q), levels[k].entryPrice, levels[k].price))
  }

  /** What the outside world does during one tick. */
  datatype TickEnv = TickEnv(
    mark: real, now: nat, symbolShared: bool, venueReadable: bool, venueQty: Option<real>, venueTolerance: real,
    levels: seq<LevelEnv>)

  /**
   * Where an exit without entry handles stands: still going on while anything is held; then CLEARED on a
   * shared symbol or a venue that shows flat, and HALTED_RESIDUAL otherwise.
   */
  function ConcludedPhase(held: int, env: TickEnv): StopPhase {
    if held > QTY_EPSILON then Exiting
    else if env.symbolShared || (env.venueReadable && IsFlat(env.venueQty, env.venueTolerance)) then Cleared
    else HaltedResidual
  }

  lemma ConcludedIs(held: int, env: TickEnv)
    ensures ExitPhaseAfter(ExitFacts(held, true, env.venueQty, env.symbolShared || env.venueReadable, env.symbolShared, env.venueTolerance))
         == ConcludedPhase(held, env)
  {}

  lemma ConclusionMovesOn(f: ExitFacts)
    ensures Rank(ExitPhaseAfter(f)) >= Rank(Exiting)
  {}

  /** One level through the stop-loss drive, in the phases that reached it. */
  function DriveLevel(w: LR.World, cfg: Config, i: nat, frozen: bool, cancels: bool, exits: bool,
                      exitPrice: Option<real>, e: LevelEnv): LR.World {
    var watched := w.(frozen := frozen);
    var canceled :=
      if cancels then LR.CancelSide(watched, cfg, Buy, e.cancelOk, e.cancelLast, e.cancelRead, e.cancelFee) else watched;
    if exits then LR.ExitInventory(canceled, cfg, i, exitPrice, e.exit, e.exitFee) else canceled
  }

  /** The cancels of the drive, if any, left the level without an entry handle. */
  predicate EntryGone(w: LR.World, cfg: Config, i: nat, frozen: bool, cancels: bool, exitPrice: Option<real>,
                      e: LevelEnv) {
    DriveLevel(w, cfg, i, frozen, cancels, false, exitPrice, e).desk.cell.level.buyOrderId.None?
  }

  /** Both arming halves of the tick at one level. */
  function ArmLevel(w: LR.World, cfg: Config, i: nat, mark: real, g: Geometry, e: LevelEnv): LR.World
    requires g.tick > 0.0
  {
    var bought := LR.ArmBuy(w, cfg, i, mark, e.buy, e.buyFee);
    LR.ArmSell(bought, cfg, i, mark, SellTargetPrice(bought.desk.cell.level, g), e.sell, e.sellFee)
  }

  /** The checks that are due at one level. */
  function PollLevel(w: LR.World, cfg: Config, e: LevelEnv): LR.World {
    var b := if e.buyDue then LR.CheckSide(w, cfg, Buy, e.buyRead, e.buyReadFee) else w;
    if e.sellDue then LR.CheckSide(b, cfg, Sell, e.sellRead, e.sellReadFee) else b
  }

  /** One level through a whole tick. */
  function TickLevel(w: LR.World, cfg: Config, i: nat, mark: real, g: Geometry, frozen: bool, cancels: bool,
                     exits: bool, exitPrice: Option<real>, e: LevelEnv): LR.World
    requires g.tick > 0.0
  {
    PollLevel(ArmLevel(DriveLevel(w, cfg, i, frozen, cancels, exits, exitPrice, e), cfg, i, mark, g, e), cfg, e)
  }

  function GeometryOf(prices: seq<real>, i: nat, tick: real, takeProfit: Option<real>): Geometry {
    Geometry(tick, if i + 1 < |prices| then Some(prices[i + 1]) else None,
             if |prices| < 2 then 0.0 else prices[1] - prices[0], takeProfit)
  }

  lemma ArmKept(w: LR.World, cfg: Config, i: nat, mark: real, g: Geometry, e: LevelEnv)
    requires Coherent(w, i) && g.tick > 0.0
    ensures Coherent(ArmLevel(w, cfg, i, mark, g, e), i)
  {
    var bought := LR.ArmBuy(w, cfg, i, mark, e.buy, e.buyFee);
    var target := SellTargetPrice(bought.desk.cell.level, g);
    StepKept(w, cfg, i, LR.BuyTick(mark, e.buy, e.buyFee));
    StepKept(bought, cfg, i, LR.SellTick(mark, target, e.sell, e.sellFee));
  }

  lemma PollKept(w: LR.World, cfg: Config, i: nat, e: LevelEnv)
    requires Coherent(w, i)
    ensures Coherent(PollLevel(w, cfg, e), i)
  {
    StepKept(w, cfg, i, LR.Poll(Buy, e.buyRead, e.buyReadFee));
    StepKept(if e.buyDue then LR.CheckSide(w, cfg, Buy, e.buyRead, e.buyReadFee) else w, cfg, i, LR.Poll(Sell, e.sellRead, e.sellReadFee));
  }

  /** What the outside world does to one level while every order is cancelled. */
  datatype CancelEnv = CancelEnv(
    buyOk: bool, buyLast: Move, buyRead: Move, buyFee: Option<real>,
    sellOk: bool, sellLast: Move, sellRead: Move, sellFee: Option<real>)

  function CancelBoth(w: LR.World, cfg: Config, e: CancelEnv): LR.World {
    LR.CancelSide(LR.CancelSide(w, cfg, Buy, e.buyOk, e.buyLast, e.buyRead, e.buyFee), cfg, Sell, e.sellOk, e.sellLast, e.sellRead, e.sellFee)
  }

  /** Live orders of a level whose cancel nobody confirmed. */
  function Unconfirmed(l: GridLevel, e: CancelEnv): nat {
    (if l.buyOrderId.Some? && !e.buyOk then 1 else 0) + if l.sellOrderId.Some? && !e.sellOk then 1 else 0
  }

  function TotalUnconfirmed(levels: seq<GridLevel>, envs: seq<CancelEnv>): nat
    requires |levels| == |envs|
  {
    if levels == [] then 0
    else
      var n := |levels| - 1;
      TotalUnconfirmed(levels[..n], envs[..n]) + Unconfirmed(levels[n], envs[n])
  }

  lemma UnconfirmedStep(levels: seq<GridLevel>, envs: seq<CancelEnv>, i: nat)
    requires i < |levels| == |envs|
    ensures TotalUnconfirmed(levels[..i + 1], envs[..i + 1])
         == TotalUnconfirmed(levels[..i], envs[..i]) + Unconfirmed(levels[i], envs[i])
  {
    assert levels[..i + 1][..i] == levels[..i] && envs[..i + 1][..i] == envs[..i];
  }

  lemma BookingLeavesExit(w: LR.World, q: int, o: SlotOutcome, fee: Option<real>)
    ensures var w' := LR.BookOutcome(w, q, Buy, o, fee);
      w'.desk.cell.level.sellOrderId == w.desk.cell.level.sellOrderId && w'.desk.cell.Rec(Buy) == w.desk.cell.Rec(Buy)
  {}

  /** Cancelling the entry leaves the exit's handle alone. */
  lemma CancelLeavesExit(w: LR.World, cfg: Config, i: nat, confirmed: bool, last: Move, m: Move, fee: Option<real>)
    requires Coherent(w, i)
    ensures LR.CancelSide(w, cfg, Buy, confirmed, last, m, fee).desk.cell.level.sellOrderId == w.desk.cell.level.sellOrderId
  {
    var h := w.desk.cell.level.buyOrderId;
    assert h.Some? ==> w.desk.cell.Rec(Buy).Some? && Owned(w.desk.cell, i, Buy);
    hide CheckSlot, LR.BookOutcome, LM.MarkNotFound, Coherent;
    if h.Some? && confirmed {
      var d := w.desk.(book := CancelAt(w.desk.book, cfg.step, h.value, last));
      var p := CheckSlot(d, cfg, Buy, m);
      CheckFrame(d, cfg, i, Buy, m);
      BookingLeavesExit(w.(desk := p.desk), cfg.orderQuantity, p.outcome, fee);
      MarkedFrame(LR.BookOutcome(w.(desk := p.desk), cfg.orderQuantity, Buy, p.outcome, fee).desk.cell, i, Buy,
        h.value, Open);
    }
  }

  lemma CancelBothKept(w: LR.World, cfg: Config, i: nat, e: CancelEnv)
    requires Coherent(w, i)
    ensures Coherent(CancelBoth(w, cfg, e), i)
  {
    CancelKept(w, cfg, i, Buy, e.buyOk, e.buyLast, e.buyRead, e.buyFee);
    CancelKept(LR.CancelSide(w, cfg, Buy, e.buyOk, e.buyLast, e.buyRead, e.buyFee), cfg, i, Sell, e.sellOk,
      e.sellLast, e.sellRead, e.sellFee);
  }

  /** What the outside world does to one level's restored handles at startup. */
  datatype StartEnv = StartEnv(buyRead: Move, sellRead: Move, buyFee: Option<real>, sellFee: Option<real>)

  lemma FrozenKept(w: LR.World, i: nat, frozen: bool)
    requires Coherent(w, i)
    ensures Coherent(w.(frozen := frozen), i)
  {}

  /** Seeding keeps a level's line and handles. */
  lemma SeedFrame(l: GridLevel, q: int, i: nat)
    ensures var l' := LM.Seed(l, q, i).level;
      l'.price == l.price && l'.buyOrderId == l.buyOrderId && l'.sellOrderId == l.sellOrderId
  {}

  lemma ExitKept(w: LR.World, cfg: Config, i: nat, price: Option<real>, e: PlaceMoves, fee: Option<real>)
    requires Coherent(w, i)
    ensures Coherent(LR.ExitInventory(w, cfg, i, price, e, fee), i)
  {
    if price.Some? && w.desk.cell.level.sellOrderId.None? {
      SellPlacedKept(w, cfg, i, price.value, HeldQtyOf(w.desk.cell.level, cfg.orderQuantity), e, fee);
    }
  }

  class GridTradingStrategy {
    const levels: array<GridLevel>
    const orderQuantity: int
    const tick: real
    const takeProfit: Option<real>
    const baselinePrice: real
    const exchange: ExchangeClient
    const manager: OrderManager
    const service: OrderReconciliationService
    const stopLoss: GridStopLossController
    ghost const prices: seq<real>
    var trades: seq<Row>
    var totalPnl: real
    var totalTrades: nat

    /**
     * Wire bookkeeping and the stop-loss onto built or restored levels; entries are already gone if the
     * stop was exiting.
     */
    constructor (levels: array<GridLevel>, orderQuantity: int, tick: real, takeProfit: Option<real>,
                 baselinePrice: real,
                 exchange: ExchangeClient, stopPercent: Option<Number>, restoredStop: Option<Stop>)
      requires orderQuantity > 0 && tick > 0.0 && |exchange.books| == levels.Length
      requires restoredStop.Some? && Rank(restoredStop.value.phase) >= Rank(Exiting) ==>
        forall i :: 0 <= i < levels.Length ==> levels[i].buyOrderId.None?
      modifies levels
      ensures Valid() && this.levels == levels && this.exchange == exchange && this.orderQuantity == orderQuantity
      ensures this.tick == tick && this.takeProfit == takeProfit && trades == []
      ensures fresh(manager) && fresh(service) && fresh(stopLoss)
      ensures forall i :: 0 <= i < levels.Length ==> prices[i] == old(levels[i].price)
      ensures stopLoss.State() == if restoredStop.Some? then Apply(restoredStop.value, Restore(stopPercent)) else NewStop(stopPercent)
      ensures forall i :: 0 <= i < levels.Length ==>
        WorldAt(i) == LR.World(Desk(LM.Seed(old(levels[i]), orderQuantity, i), exchange.books[i]), [], stopLoss.State().BlocksEntries())
    {
      this.levels := levels;
      this.orderQuantity := orderQuantity;
      this.tick := tick;
      this.takeProfit := takeProfit;
      this.baselinePrice := baselinePrice;
      this.exchange := exchange;
      var m := new OrderManager(levels, orderQuantity);
      manager := m;
      service := new OrderReconciliationService(m, exchange);
      stopLoss := new GridStopLossController(stopPercent, restoredStop);
      prices := seq(levels.Length, i requires 0 <= i < levels.Length reads levels => levels[i].price);
      trades, totalPnl, totalTrades := [], 0.0, 0;
      new;
      forall i | 0 <= i < levels.Length
        ensures levels[i].price == old(levels[i].price) && levels[i].buyOrderId == old(levels[i].buyOrderId)
      {
        SeedFrame(old(levels[i]), orderQuantity, i);
        assert levels[i] == manager.CellAt(i).level;
      }
      if Rank(stopLoss.phase) >= Rank(Exiting) {
        assert restoredStop.Some? && stopLoss.phase == restoredStop.value.phase;
        forall i | 0 <= i < levels.Length ensures levels[i].buyOrderId.None? {
          assert old(levels[i]).buyOrderId.None?;
        }
      }
    }

    ghost predicate Valid()
      reads this, manager, manager.levels, levels, exchange, stopLoss
    {
      && manager.levels == levels && service.manager == manager && service.exchange == exchange
      && manager.orderQuantity == orderQuantity && tick > 0.0 && service.Valid()
      && |prices| == levels.Length && (forall i :: 0 <= i < levels.Length ==> levels[i].price == prices[i])
      && totalPnl == RealisedPnl(trades) && totalTrades == |trades| && InGrid(trades, levels.Length)
      && (Rank(stopLoss.phase) >= Rank(Exiting) ==> forall i :: 0 <= i < levels.Length ==> levels[i].buyOrderId.None?)
    }

    function Cfg(): Config {
      service.Cfg()
    }

    ghost function WorldAt(i: nat): LR.World
      requires Valid() && i < levels.Length
      reads this, manager, manager.levels, levels, exchange, stopLoss
    {
      LR.World(service.DeskAt(i), RowsAt(trades, i), stopLoss.State().BlocksEntries())
    }

    /** Every level but i is as it was. */
    twostate predicate OthersKept(i: nat)
      requires old(Valid()) && Valid()
      reads this, manager, manager.levels, levels, exchange, stopLoss
    {
      forall j :: 0 <= j < levels.Length && j != i ==> WorldAt(j) == old(WorldAt(j))
    }

    lemma OwnedAt(i: nat, side: Side)
      requires Valid() && i < levels.Length
      ensures Owned(manager.CellAt(i), i, side)
    {}

    // ----- booking -----

    /** The row a segment books and the level's entry after it. */
    method PriceSegment(i: nat, side: Side, s: Segment, fee: Option<real>) returns (row: Row, entry: Option<real>)
      requires manager.Valid() && manager.levels == levels && i < levels.Length && s.delta > QTY_EPSILON
      ensures row.cid == s.cid
      ensures Ledger.BookSegment(manager.CellAt(i), orderQuantity, side, s, fee)
           == Entry(manager.CellAt(i).(level := levels[i].(entryPrice := entry)), Some(row))
    {
      var level := levels[i];
      var submitted := manager.GetBySlot(i, side);
      var executedPrice :=
        if s.executedPrice.Some? then s.executedPrice.value
        else if submitted.Some? then submitted.value.price else level.price;
      var to :=
        if s.cumQty.Some? then s.cumQty.value
        else if submitted.Some? then submitted.value.filledQty else s.delta;
      var heldAfter := HeldQtyOf(level, orderQuantity);
      var entryExec := level.entryPrice.GetOr(level.price);
      var tradePnl := if fee.None? then None else Some(PnlOf(side, entryExec, executedPrice, s.delta, fee.value));
      entry := level.entryPrice;
      if side == Buy {
        var heldBefore := LM.Max(0, heldAfter - s.delta);
        entry := Some(AveragedEntry(level.entryPrice, heldBefore, executedPrice, s.delta));
      } else if heldAfter <= QTY_EPSILON {
        entry := None;
      }
      row := Row(s.cid, s.orderId, s.terminal, LM.Max(0, to - s.delta), to, s.delta, executedPrice, fee, tradePnl);
    }

    /** Write one level's entry price. */
    method SetEntry(i: nat, entry: Option<real>)
      requires Valid() && i < levels.Length
      modifies levels
      ensures Valid()
      ensures forall j :: 0 <= j < levels.Length ==>
        levels[j] == if j == i then old(levels[j]).(entryPrice := entry) else old(levels[j])
    {
      levels[i] := levels[i].(entryPrice := entry);
      assert manager.Valid();
    }

    /** Add one row to the trades and the running totals. */
    method Record(row: Row)
      requires Valid() && row.cid.level < levels.Length
      modifies this`trades, this`totalPnl, this`totalTrades
      ensures Valid() && trades == old(trades) + [row]
      ensures forall j :: 0 <= j < levels.Length ==> RowsAt(trades, j) == RowsAt(old(trades), j) + if row.cid.level == j then [row] else []
    {
      totalTrades := totalTrades + 1;
      if row.pnl.Some? {
        totalPnl := totalPnl + row.pnl.value;
      }
      Append(trades, row);
      InGridAppend(trades, row, levels.Length);
      forall j | 0 <= j < levels.Length
        ensures RowsAt(trades + [row], j) == RowsAt(trades, j) + if row.cid.level == j then [row] else []
      {
        RowsAtAppend(trades, row, j);
      }
      trades := trades + [row];
    }

    /** The trade, the running totals and the level's entry price. */
    method WriteRow(i: nat, row: Row, entry: Option<real>)
      requires Valid() && i < levels.Length && row.cid.level == i
      modifies this`trades, this`totalPnl, this`totalTrades, levels
      ensures Valid() && OthersKept(i)
      ensures var w := old(WorldAt(i));
        var cell := w.desk.cell.(level := w.desk.cell.level.(entryPrice := entry));
        WorldAt(i) == LR.World(w.desk.(cell := cell), w.rows + [row], w.frozen)
    {
      SetEntry(i, entry);
      Record(row);
    }

    /** Book one segment, if it is more than dust. */
    method BookSegment(i: nat, side: Side, s: Segment, fee: Option<real>)
      requires Valid() && i < levels.Length && s.cid.level == i
      modifies this`trades, this`totalPnl, this`totalTrades, levels
      ensures Valid() && OthersKept(i)
      ensures var e := Ledger.BookSegment(old(manager.CellAt(i)), orderQuantity, side, s, fee);
        WorldAt(i) == LR.World(old(WorldAt(i)).desk.(cell := e.cell),
                               old(WorldAt(i)).rows + (if e.row.Some? then [e.row.value] else []), old(WorldAt(i)).frozen)
    {
      if s.delta > QTY_EPSILON {
        var row, entry := PriceSegment(i, side, s, fee);
        hide Ledger.BookSegment;
        WriteRow(i, row, entry);
      }
    }

    /** Book an outcome's executions, if it carries any. */
    method BookOutcome(i: nat, side: Side, o: SlotOutcome, fee: Option<real>)
      requires Valid() && i < levels.Length
      requires SegmentOf(o).Some? ==> SegmentOf(o).value.cid.level == i
      modifies this`trades, this`totalPnl, this`totalTrades, levels
      ensures Valid() && OthersKept(i)
      ensures WorldAt(i) == LR.BookOutcome(old(WorldAt(i)), orderQuantity, side, o, fee)
    {
      if o.FilledOrder? {
        BookSegment(i, side, Segment(o.fillDelta, o.filledQty, true, o.fillPrice, o.fillCid, o.filledId), fee);
      } else if o.PartiallyFilled? {
        BookSegment(i, side, Segment(o.partDelta, Some(o.cumQty), false, o.partPrice, o.partCid, Some(o.partId)), fee);
      } else if o.SafeToRecreate? && o.pendingFill.Some? {
        var p := o.pendingFill.value;
        BookSegment(i, side, Segment(p.delta, Some(p.cumQty), false, p.executedPrice, p.cid, p.orderId), fee);
      }
    }

    // ----- one slot -----

    /** Place one slot's order; the grid's invariant survives an entry only while no stop is exiting. */
    method PlaceOrder(i: nat, side: Side, price: real, quantity: int, e: PlaceMoves) returns (o: SlotOutcome)
      requires Valid() && i < levels.Length && (side == Buy ==> Rank(stopLoss.phase) < Rank(Exiting))
      modifies manager, levels, exchange
      ensures Valid() && OthersKept(i)
      ensures var p := SlotReconciliation.EnsureSlotOrder(old(service.DeskAt(i)), Cfg(), i, side, price, quantity,
            side == Sell, e);
        && o == p.outcome && WorldAt(i) == old(WorldAt(i)).(desk := p.desk)
      ensures SegmentOf(o).Some? ==> SegmentOf(o).value.cid.level == i
    {
      OwnedAt(i, side);
      EnsureFrame(service.DeskAt(i), Cfg(), i, side, price, quantity, side == Sell, e);
      o := service.EnsureSlotOrder(i, side, price, quantity, side == Sell, e);
      forall j | 0 <= j < levels.Length && j != i ensures levels[j] == old(levels[j]) {
        assert service.DeskAt(j).cell.level == old(service.DeskAt(j)).cell.level;
      }
      assert service.DeskAt(i).cell.level == levels[i];
    }

    /** Verify one slot that carries a handle. */
    method CheckOrder(i: nat, side: Side, m: Move) returns (o: SlotOutcome)
      requires Valid() && i < levels.Length && (side == Buy ==> Rank(stopLoss.phase) < Rank(Exiting))
      modifies manager, levels, exchange
      ensures Valid() && OthersKept(i)
      ensures var p := SlotReconciliation.CheckSlot(old(service.DeskAt(i)), Cfg(), side, m);
        && o == p.outcome && WorldAt(i) == old(WorldAt(i)).(desk := p.desk)
      ensures SegmentOf(o).Some? ==> SegmentOf(o).value.cid.level == i
    {
      OwnedAt(i, side);
      CheckFrame(service.DeskAt(i), Cfg(), i, side, m);
      o := service.CheckSlot(i, side, m);
      forall j | 0 <= j < levels.Length && j != i ensures levels[j] == old(levels[j]) {
        assert service.DeskAt(j).cell.level == old(service.DeskAt(j)).cell.level;
      }
      assert service.DeskAt(i).cell.level == levels[i];
    }

    /** The BUY half of the tick at one level. */
    method ArmBuy(i: nat, mark: real, e: PlaceMoves, fee: Option<real>)
      requires Valid() && i < levels.Length
      modifies this`trades, this`totalPnl, this`totalTrades, manager, levels, exchange
      ensures Valid() && OthersKept(i)
      ensures WorldAt(i) == LR.ArmBuy(old(WorldAt(i)), Cfg(), i, mark, e, fee)
    {
      var level := levels[i];
      assert WorldAt(i).desk.cell.level == level;
      if mark <= level.price && level.buyOrderId.None? && level.sellOrderId.None?
         && !LR.GridFullyLong(level, orderQuantity) && !level.IsExitOnly() && !stopLoss.State().BlocksEntries()
      {
        var quantity := LR.BuyRemainder(level, orderQuantity);
        var outcome := PlaceOrder(i, Buy, level.price, quantity, e);
        if outcome.Unavailable? && quantity < orderQuantity - QTY_EPSILON && outcome.reason == SizeRefusal {
          LockLevel(i);
        } else if outcome.Unavailable? && outcome.reason == MarginRefusal {
          LockLevel(i);
        } else {
          BookOutcome(i, Buy, outcome, fee);
        }
      }
    }

    method LockLevel(i: nat)
      requires Valid() && i < levels.Length
      modifies levels
      ensures Valid() && OthersKept(i)
      ensures WorldAt(i) == old(WorldAt(i)).(desk := old(WorldAt(i)).desk.(cell := LM.MarkExitOnly(old(WorldAt(i)).desk.cell)))
    {
      manager.MarkExitOnly(i);
      forall j | 0 <= j < levels.Length && j != i ensures levels[j] == old(levels[j]) {
        assert manager.CellAt(j).level == old(manager.CellAt(j)).level;
      }
      assert manager.CellAt(i).level == levels[i];
    }

    /** Verify one side's live order and book what the venue admits to. */
    method PollSide(i: nat, side: Side, m: Move, fee: Option<real>)
      requires Valid() && i < levels.Length
      modifies this`trades, this`totalPnl, this`totalTrades, manager, levels, exchange
      ensures Valid() && OthersKept(i)
      ensures WorldAt(i) == LR.CheckSide(old(WorldAt(i)), Cfg(), side, m, fee)
    {
      assert WorldAt(i).desk.cell.level == levels[i];
      if levels[i].HandleOf(side).Some? {
        var outcome := CheckOrder(i, side, m);
        BookOutcome(i, side, outcome, fee);
      }
    }

    /** Price and geometry of a level's exit. */
    function GeometryAt(i: nat): Geometry
      requires i < levels.Length
      reads levels
    {
      Geometry(tick, if i + 1 < levels.Length then Some(levels[i + 1].price) else None,
               if levels.Length < 2 then 0.0 else levels[1].price - levels[0].price, takeProfit)
    }

    /** The SELL half of the tick at one level. */
    method ArmSell(i: nat, mark: real, e: PlaceMoves, fee: Option<real>)
      requires Valid() && i < levels.Length
      modifies this`trades, this`totalPnl, this`totalTrades, manager, levels, exchange
      ensures Valid() && OthersKept(i)
      ensures WorldAt(i) == LR.ArmSell(old(WorldAt(i)), Cfg(), i, mark, SellTargetPrice(old(levels[i]), old(GeometryAt(i))), e, fee)
    {
      var level := levels[i];
      assert WorldAt(i).desk.cell.level == level;
      var fullyLong := LR.GridFullyLong(level, orderQuantity);
      var exitOnlyWithInventory := level.IsExitOnly() && HeldQtyOf(level, orderQuantity) > QTY_EPSILON;
      if mark >= level.price && level.sellOrderId.None? && (fullyLong || exitOnlyWithInventory) {
        var sellPrice := SellTargetPrice(level, GeometryAt(i));
        if sellPrice.Some? {
          var exitQty := if fullyLong then orderQuantity else HeldQtyOf(level, orderQuantity);
          var outcome := PlaceOrder(i, Sell, sellPrice.value, exitQty, e);
          BookOutcome(i, Sell, outcome, fee);
        }
      }
    }

    /** The stop-loss exit of one level. */
    method ExitLevel(i: nat, mark: real, e: PlaceMoves, fee: Option<real>)
      requires Valid() && i < levels.Length
      modifies this`trades, this`totalPnl, this`totalTrades, manager, levels, exchange
      ensures Valid() && OthersKept(i)
      ensures WorldAt(i) == LR.ExitInventory(old(WorldAt(i)), Cfg(), i, StopExitPrice(mark, old(levels[i]).price, tick), e, fee)
    {
      var level := levels[i];
      assert WorldAt(i).desk.cell.level == level;
      var held := HeldQtyOf(level, orderQuantity);
      if held > QTY_EPSILON && level.sellOrderId.None? {
        var sellPrice := StopExitPrice(mark, level.price, tick);
        if sellPrice.Some? {
          var outcome := PlaceOrder(i, Sell, sellPrice.value, held, e);
          BookOutcome(i, Sell, outcome, fee);
        }
      }
    }

    // ----- confirmed cancels -----

    /** Free a slot on the authority of its confirmed cancel. */
    method FreeSlot(i: nat, side: Side)
      requires Valid() && i < levels.Length && manager.CellAt(i).Current(i, side)
      requires side == Buy ==> Rank(stopLoss.phase) < Rank(Exiting)
      modifies manager, levels
      ensures Valid() && OthersKept(i)
      ensures WorldAt(i) == old(WorldAt(i)).(desk := old(WorldAt(i)).desk.(cell := LM.MarkNotFound(old(WorldAt(i)).desk.cell, side)))
    {
      OwnedAt(i, side);
      MarkedFrame(manager.CellAt(i), i, side, Handle(manager.IdFor(i, side), 0), NotFound);
      manager.MarkNotFound(manager.IdFor(i, side));
      forall j | 0 <= j < levels.Length && j != i ensures levels[j] == old(levels[j]) {
        assert manager.CellAt(j).level == old(manager.CellAt(j)).level;
      }
      assert manager.CellAt(i).level == levels[i];
    }

    /** Close out a slot whose cancel the venue confirmed. */
    method ReconcileCancelledSlot(i: nat, side: Side, m: Move, fee: Option<real>)
      requires Valid() && i < levels.Length && Coherent(WorldAt(i), i)
      requires levels[i].HandleOf(side).Some? && (side == Buy ==> Rank(stopLoss.phase) < Rank(Exiting))
      modifies this`trades, this`totalPnl, this`totalTrades, manager, levels, exchange
      ensures Valid() && OthersKept(i)
      ensures WorldAt(i) == LR.ReconcileCancelledSlot(old(WorldAt(i)), Cfg(), side, m, fee)
    {
      ghost var w := WorldAt(i);
      assert w.desk.cell.level == levels[i];
      CheckStays(w, Cfg(), i, side, m, fee);
      var outcome := CheckOrder(i, side, m);
      BookOutcome(i, side, outcome, fee);
      if outcome.FilledOrder? || outcome.SafeToRecreate? {
        return;
      }
      assert manager.CellAt(i) == WorldAt(i).desk.cell;
      FreeSlot(i, side);
    }

    /** Cancel one side's live order; an unconfirmed cancel leaves its handle. */
    method CancelSlot(i: nat, side: Side, confirmed: bool, last: Move, m: Move, fee: Option<real>) returns (ok: bool)
      requires Valid() && i < levels.Length && Coherent(WorldAt(i), i)
      modifies this`trades, this`totalPnl, this`totalTrades, manager, levels, exchange
      ensures Valid() && OthersKept(i)
      ensures WorldAt(i) == LR.CancelSide(old(WorldAt(i)), Cfg(), side, confirmed, last, m, fee)
      ensures ok == (confirmed || old(levels[i]).HandleOf(side).None?)
    {
      assert WorldAt(i).desk.cell.level == levels[i];
      var h := levels[i].HandleOf(side);
      if h.None? {
        return true;
      }
      ghost var w := WorldAt(i);
      ok := CancelAtVenue(i, h.value, confirmed, last);
      if ok {
        assert Coherent(WorldAt(i), i) by { assert WorldAt(i).desk.cell == w.desk.cell && WorldAt(i).rows == w.rows; }
        ReconcileCancelledSlot(i, side, m, fee);
      }
    }

    /** The cancel itself moves only the venue's book for the level. */
    method CancelAtVenue(i: nat, h: Handle, confirmed: bool, last: Move) returns (ok: bool)
      requires Valid() && i < levels.Length
      modifies exchange
      ensures Valid() && OthersKept(i) && ok == confirmed
      ensures var w := old(WorldAt(i));
        WorldAt(i) == if confirmed then w.(desk := w.desk.(book := CancelAt(w.desk.book, Cfg().step, h, last))) else w
    {
      ok := exchange.CancelOrder(i, h, confirmed, last);
    }

    // ----- the stop-loss drive -----

    /** Every level agrees with the ledger. */
    ghost predicate Sound()
      requires Valid()
      reads this, manager, manager.levels, levels, exchange, stopLoss
    {
      forall i :: 0 <= i < levels.Length ==> Coherent(WorldAt(i), i)
    }

    /** Cancel every resting entry, best effort. */
    method CancelEntryBuys(envs: seq<LevelEnv>)
      requires Valid() && Sound() && |envs| == levels.Length
      modifies this`trades, this`totalPnl, this`totalTrades, manager, levels, exchange
      ensures Valid() && Sound()
      ensures forall i :: 0 <= i < levels.Length ==>
        WorldAt(i) == LR.CancelSide(old(WorldAt(i)), Cfg(), Buy, envs[i].cancelOk, envs[i].cancelLast, envs[i].cancelRead, envs[i].cancelFee)
    {
      for i := 0 to levels.Length
        invariant Valid()
        invariant forall j :: i <= j < levels.Length ==> WorldAt(j) == old(WorldAt(j))
        invariant forall j :: 0 <= j < i ==>
          WorldAt(j) == LR.CancelSide(old(WorldAt(j)), Cfg(), Buy, envs[j].cancelOk, envs[j].cancelLast, envs[j].cancelRead, envs[j].cancelFee)
      {
        var e := envs[i];
        assert Coherent(old(WorldAt(i)), i);
        var ok := CancelSlot(i, Buy, e.cancelOk, e.cancelLast, e.cancelRead, e.cancelFee);
      }
      forall i | 0 <= i < levels.Length ensures Coherent(WorldAt(i), i) {
        var e := envs[i];
        CancelKept(old(WorldAt(i)), Cfg(), i, Buy, e.cancelOk, e.cancelLast, e.cancelRead, e.cancelFee);
      }
    }

    /** Exit what every level holds with reduce-only sells. */
    method ExitInventoryReduceOnly(mark: real, envs: seq<LevelEnv>)
      requires Valid() && Sound() && |envs| == levels.Length
      modifies this`trades, this`totalPnl, this`totalTrades, manager, levels, exchange
      ensures Valid() && Sound()
      ensures forall i :: 0 <= i < levels.Length ==>
        WorldAt(i) == LR.ExitInventory(old(WorldAt(i)), Cfg(), i, StopExitPrice(mark, prices[i], tick), envs[i].exit, envs[i].exitFee)
    {
      for i := 0 to levels.Length
        invariant Valid()
        invariant forall j :: i <= j < levels.Length ==> WorldAt(j) == old(WorldAt(j))
        invariant forall j :: 0 <= j < i ==>
          WorldAt(j) == LR.ExitInventory(old(WorldAt(j)), Cfg(), j, StopExitPrice(mark, prices[j], tick), envs[j].exit, envs[j].exitFee)
      {
        ExitLevel(i, mark, envs[i].exit, envs[i].exitFee);
      }
      forall i | 0 <= i < levels.Length ensures Coherent(WorldAt(i), i) {
        ExitKept(old(WorldAt(i)), Cfg(), i, StopExitPrice(mark, prices[i], tick), envs[i].exit, envs[i].exitFee);
      }
    }

    /** Reference of the stop: the weighted entry of what is held, else the build baseline. */
    method StopReferencePrice() returns (reference: real)
      ensures reference == WeightedEntry(HoldingsOf(levels[..], orderQuantity)).GetOr(baselinePrice)
    {
      var weighted := WeightedEntryPrice(HoldingsOf(levels[..], orderQuantity));
      reference := weighted.GetOr(baselinePrice);
    }

    method AggregateHeldQty() returns (total: int)
      ensures total == TotalHeld(levels[..], orderQuantity)
    {
      total := 0;
      for i := 0 to levels.Length
        invariant total == TotalHeld(levels[..i], orderQuantity)
      {
        assert levels[..i + 1][..i] == levels[..i];
        total := total + HeldQtyOf(levels[i], orderQuantity);
      }
      assert levels[..levels.Length] == levels[..];
    }

    method OutstandingEntryBuys() returns (n: nat)
      ensures n == 0 <==> forall i :: 0 <= i < levels.Length ==> levels[i].buyOrderId.None?
    {
      n := 0;
      for i := 0 to levels.Length
        invariant n == 0 <==> forall j :: 0 <= j < i ==> levels[j].buyOrderId.None?
      {
        if levels[i].buyOrderId.Some? {
          n := n + 1;
        }
      }
    }

    /** Watch the mark: a trip freezes every level at once. */
    method Watch(env: TickEnv) returns (ghost cancels: bool)
      requires Valid() && Sound()
      modifies stopLoss
      ensures Valid() && Sound()
      ensures Rank(old(stopLoss.phase)) <= Rank(stopLoss.phase)
      ensures stopLoss.State() == Apply(Apply(old(stopLoss.State()),
        Monitor(Finite(env.mark), Finite(WeightedEntry(HoldingsOf(levels[..], orderQuantity)).GetOr(baselinePrice)), env.now)),
        BeginCancelingEntries)
      ensures cancels == (stopLoss.phase == CancelingEntries)
      ensures old(stopLoss.phase) == Armed ==>
        (stopLoss.phase != Armed <==>
           ShouldTrip(old(stopLoss.percent), env.mark, WeightedEntry(HoldingsOf(levels[..], orderQuantity)).GetOr(baselinePrice)))
      ensures forall i :: 0 <= i < levels.Length ==> WorldAt(i) == old(WorldAt(i)).(frozen := stopLoss.State().BlocksEntries())
    {
      if stopLoss.phase == Armed {
        var reference := StopReferencePrice();
        MonitorTrips(stopLoss.State(), env.mark, reference, env.now);
        var changed := stopLoss.ApplyMonitor(Finite(env.mark), Finite(reference), env.now);
      }
      if stopLoss.phase == Tripped {
        var changed := stopLoss.ApplyBeginCancelingEntries();
      }
      cancels := stopLoss.phase == CancelingEntries;
      forall i | 0 <= i < levels.Length ensures Coherent(WorldAt(i), i) {
        FrozenKept(old(WorldAt(i)), i, stopLoss.State().BlocksEntries());
      }
    }

    /** Advance to the exit once no entry handle is left. */
    method AfterCancels() returns (ghost exits: bool)
      requires Valid() && Sound()
      modifies stopLoss
      ensures Valid() && Sound()
      ensures Rank(old(stopLoss.phase)) <= Rank(stopLoss.phase)
      ensures (stopLoss.State().BlocksEntries() == old(stopLoss.State().BlocksEntries()))
      ensures exits == (stopLoss.phase == Exiting)
      ensures stopLoss.phase == (if old(stopLoss.phase) == CancelingEntries && (forall i :: 0 <= i < levels.Length ==> levels[i].buyOrderId.None?)
                                 then Exiting else old(stopLoss.phase))
      ensures forall i :: 0 <= i < levels.Length ==> WorldAt(i) == old(WorldAt(i))
    {
      var remaining := OutstandingEntryBuys();
      var changed := stopLoss.ApplyEntriesCanceled(remaining);
      exits := stopLoss.phase == Exiting;
      forall i | 0 <= i < levels.Length ensures Coherent(WorldAt(i), i) {
        assert Coherent(old(WorldAt(i)), i);
      }
    }

    /** Decide whether the exit is complete. */
    method Conclude(env: TickEnv)
      requires Valid() && Sound()
      modifies stopLoss
      ensures Valid() && Sound()
      ensures Rank(old(stopLoss.phase)) <= Rank(stopLoss.phase)
      ensures (stopLoss.State().BlocksEntries() == old(stopLoss.State().BlocksEntries()))
      ensures old(stopLoss.phase) != Exiting ==> stopLoss.phase == old(stopLoss.phase)
      ensures old(stopLoss.phase) == Exiting && (forall i :: 0 <= i < levels.Length ==> levels[i].buyOrderId.None?) ==>
        stopLoss.phase == ConcludedPhase(TotalHeld(levels[..], orderQuantity), env)
      ensures forall i :: 0 <= i < levels.Length ==> WorldAt(i) == old(WorldAt(i))
    {
      hide Coherent, TotalHeld, HeldQtyOf, ConcludedPhase;
      var held := AggregateHeldQty();
      var remaining := OutstandingEntryBuys();
      ConcludedIs(held, env);
      Decide(ExitFacts(held, remaining == 0, env.venueQty, env.symbolShared || env.venueReadable, env.symbolShared, env.venueTolerance));
      forall i | 0 <= i < levels.Length ensures Coherent(WorldAt(i), i) {
        assert Coherent(old(WorldAt(i)), i);
      }
    }

    /** The completion check itself: the phase moves on, and entries stay blocked. */
    method Decide(facts: ExitFacts)
      requires Valid()
      modifies stopLoss
      ensures Valid() && stopLoss.phase == if old(stopLoss.phase) == Exiting then ExitPhaseAfter(facts) else old(stopLoss.phase)
      ensures Rank(old(stopLoss.phase)) <= Rank(stopLoss.phase)
      ensures stopLoss.State().BlocksEntries() == old(stopLoss.State().BlocksEntries())
      ensures forall i :: 0 <= i < levels.Length ==> WorldAt(i) == old(WorldAt(i))
    {
      hide InGrid, RealisedPnl, RowsAt;
      ConclusionMovesOn(facts);
      var changed := stopLoss.ApplyEvaluateExitComplete(facts);
    }

    /** The drive up to the exit: watch, cancel, and move on once no entry handle is left. */
    method DriveCancels(env: TickEnv) returns (ghost cancels: bool, ghost exits: bool)
      requires Valid() && Sound() && |env.levels| == levels.Length
      modifies this`trades, this`totalPnl, this`totalTrades, manager, levels, exchange, stopLoss
      ensures Valid() && Sound()
      ensures Rank(old(stopLoss.phase)) <= Rank(stopLoss.phase)
      ensures old(stopLoss.phase) == Armed ==>
        (stopLoss.phase != Armed <==>
           ShouldTrip(old(stopLoss.percent), env.mark, WeightedEntry(HoldingsOf(old(levels[..]), orderQuantity)).GetOr(baselinePrice)))
      ensures cancels || exits ==> stopLoss.State().BlocksEntries()
      ensures cancels == (Apply(Apply(old(stopLoss.State()),
        Monitor(Finite(env.mark), Finite(WeightedEntry(HoldingsOf(old(levels[..]), orderQuantity)).GetOr(baselinePrice)), env.now)),
        BeginCancelingEntries).phase == CancelingEntries)
      ensures exits == (stopLoss.phase == Exiting)
      ensures exits <==> old(stopLoss.phase) == Exiting || (cancels && forall i :: 0 <= i < levels.Length ==> levels[i].buyOrderId.None?)
      ensures stopLoss.phase == Cleared <==> old(stopLoss.phase) == Cleared
      ensures forall i :: 0 <= i < levels.Length ==>
        WorldAt(i) == DriveLevel(old(WorldAt(i)), Cfg(), i, stopLoss.State().BlocksEntries(), cancels, false,
                                 StopExitPrice(env.mark, prices[i], tick), env.levels[i])
      ensures exits ==> forall i :: 0 <= i < levels.Length ==> levels[i].buyOrderId.None? && WorldAt(i).desk.cell.level == levels[i]
    {
      cancels := Watch(env);
      if stopLoss.phase == CancelingEntries {
        CancelEntryBuys(env.levels);
      }
      exits := AfterCancels();
    }

    /** The drive's exit: sell what is held, then decide whether the grid is flat. */
    method DriveExit(env: TickEnv)
      requires Valid() && Sound() && |env.levels| == levels.Length && stopLoss.phase == Exiting
      modifies this`trades, this`totalPnl, this`totalTrades, manager, levels, exchange, stopLoss
      ensures Valid() && Sound()
      ensures Rank(Exiting) <= Rank(stopLoss.phase)
      ensures forall i :: 0 <= i < levels.Length ==> levels[i].buyOrderId.None?
      ensures stopLoss.phase == ConcludedPhase(TotalHeld(levels[..], orderQuantity), env)
      ensures forall i :: 0 <= i < levels.Length ==>
        WorldAt(i) == LR.ExitInventory(old(WorldAt(i)), Cfg(), i, StopExitPrice(env.mark, prices[i], tick), env.levels[i].exit, env.levels[i].exitFee)
    {
      ExitInventoryReduceOnly(env.mark, env.levels);
      Conclude(env);
    }

    /**
     * One step of the stop-loss. The phase never moves back, every level goes where the
     * phases it was driven through take it, and an exit ends exactly when nothing is held any more,
     * CLEARED over a shared symbol or a verified flat venue. It leaves ARMED exactly when the
     * mark has fallen by the configured percent below the weighted entry of what the levels hold, or
     * below the build baseline when they hold nothing.
     */
    method DriveStopLoss(env: TickEnv) returns (ghost cancels: bool, ghost exits: bool)
      requires Valid() && Sound() && |env.levels| == levels.Length
      modifies this`trades, this`totalPnl, this`totalTrades, manager, levels, exchange, stopLoss
      ensures Valid() && Sound()
      ensures Rank(old(stopLoss.phase)) <= Rank(stopLoss.phase)
      ensures old(stopLoss.phase) == Armed ==>
        (stopLoss.phase != Armed <==>
           ShouldTrip(old(stopLoss.percent), env.mark, WeightedEntry(HoldingsOf(old(levels[..]), orderQuantity)).GetOr(baselinePrice)))
      ensures cancels || exits ==> stopLoss.State().BlocksEntries()
      ensures cancels == (Apply(Apply(old(stopLoss.State()),
        Monitor(Finite(env.mark), Finite(WeightedEntry(HoldingsOf(old(levels[..]), orderQuantity)).GetOr(baselinePrice)), env.now)),
        BeginCancelingEntries).phase == CancelingEntries)
      ensures exits <==> old(stopLoss.phase) == Exiting || (cancels && forall i :: 0 <= i < levels.Length ==> levels[i].buyOrderId.None?)
      ensures exits ==> forall i :: 0 <= i < levels.Length ==> levels[i].buyOrderId.None?
      ensures exits ==> forall i :: 0 <= i < levels.Length ==>
        EntryGone(old(WorldAt(i)), Cfg(), i, stopLoss.State().BlocksEntries(), cancels, StopExitPrice(env.mark, prices[i], tick), env.levels[i])
      ensures exits ==> stopLoss.phase == ConcludedPhase(TotalHeld(levels[..], orderQuantity), env)
      ensures !exits ==> (stopLoss.phase == Cleared <==> old(stopLoss.phase) == Cleared)
      ensures forall i :: 0 <= i < levels.Length ==>
        WorldAt(i) == DriveLevel(old(WorldAt(i)), Cfg(), i, stopLoss.State().BlocksEntries(), cancels, exits,
                                 StopExitPrice(env.mark, prices[i], tick), env.levels[i])
    {
      cancels, exits := DriveCancels(env);
      assert exits ==> forall i :: 0 <= i < levels.Length ==>
        EntryGone(old(WorldAt(i)), Cfg(), i, stopLoss.State().BlocksEntries(), cancels,
          StopExitPrice(env.mark, prices[i], tick), env.levels[i]);
      hide LR.ExitInventory, LR.CancelSide, WeightedEntry, HoldingsOf, Apply, StopExitPrice;
      if stopLoss.phase == Exiting {
        DriveExit(env);
      }
    }

    // ----- the tick -----

    method ArmOne(i: nat, mark: real, e: LevelEnv)
      requires Valid() && i < levels.Length
      modifies this`trades, this`totalPnl, this`totalTrades, manager, levels, exchange
      ensures Valid() && OthersKept(i)
      ensures WorldAt(i) == ArmLevel(old(WorldAt(i)), Cfg(), i, mark, GeometryOf(prices, i, tick, takeProfit), e)
    {
      ArmBuy(i, mark, e.buy, e.buyFee);
      assert GeometryAt(i) == GeometryOf(prices, i, tick, takeProfit) && WorldAt(i).desk.cell.level == levels[i];
      ArmSell(i, mark, e.sell, e.sellFee);
    }

    /** Arm every level at the mark. */
    method ArmLevels(mark: real, envs: seq<LevelEnv>)
      requires Valid() && Sound() && |envs| == levels.Length
      modifies this`trades, this`totalPnl, this`totalTrades, manager, levels, exchange
      ensures Valid() && Sound()
      ensures forall i :: 0 <= i < levels.Length ==>
        WorldAt(i) == ArmLevel(old(WorldAt(i)), Cfg(), i, mark, GeometryOf(prices, i, tick, takeProfit), envs[i])
    {
      for i := 0 to levels.Length
        invariant Valid()
        invariant forall j :: i <= j < levels.Length ==> WorldAt(j) == old(WorldAt(j))
        invariant forall j :: 0 <= j < i ==>
          WorldAt(j) == ArmLevel(old(WorldAt(j)), Cfg(), j, mark, GeometryOf(prices, j, tick, takeProfit), envs[j])
      {
        ArmOne(i, mark, envs[i]);
      }
      forall i | 0 <= i < levels.Length ensures Coherent(WorldAt(i), i) {
        ArmKept(old(WorldAt(i)), Cfg(), i, mark, GeometryOf(prices, i, tick, takeProfit), envs[i]);
      }
    }

    method PollOne(i: nat, env: LevelEnv)
      requires Valid() && i < levels.Length
      modifies this`trades, this`totalPnl, this`totalTrades, manager, levels, exchange
      ensures Valid() && OthersKept(i)
      ensures WorldAt(i) == PollLevel(old(WorldAt(i)), Cfg(), env)
    {
      if env.buyDue {
        PollSide(i, Buy, env.buyRead, env.buyReadFee);
      }
      if env.sellDue {
        PollSide(i, Sell, env.sellRead, env.sellReadFee);
      }
    }

    /** Verify every live slot whose check is due. */
    method ReconcileOrders(envs: seq<LevelEnv>)
      requires Valid() && Sound() && |envs| == levels.Length
      modifies this`trades, this`totalPnl, this`totalTrades, manager, levels, exchange
      ensures Valid() && Sound()
      ensures forall i :: 0 <= i < levels.Length ==> WorldAt(i) == PollLevel(old(WorldAt(i)), Cfg(), envs[i])
    {
      for i := 0 to levels.Length
        invariant Valid()
        invariant forall j :: i <= j < levels.Length ==> WorldAt(j) == old(WorldAt(j))
        invariant forall j :: 0 <= j < i ==> WorldAt(j) == PollLevel(old(WorldAt(j)), Cfg(), envs[j])
      {
        PollOne(i, envs[i]);
      }
      forall i | 0 <= i < levels.Length ensures Coherent(WorldAt(i), i) {
        PollKept(old(WorldAt(i)), Cfg(), i, envs[i]);
      }
    }

    /**
     * One tick: the stop-loss first, then arming, then the checks that are due. Exits run only once no
     * entry handle is left.
     */
    method Tick(env: TickEnv) returns (ghost cancels: bool, ghost exits: bool)
      requires Valid() && Sound() && |env.levels| == levels.Length
      modifies this`trades, this`totalPnl, this`totalTrades, manager, levels, exchange, stopLoss
      ensures Valid() && Sound()
      ensures Rank(old(stopLoss.phase)) <= Rank(stopLoss.phase)
      ensures old(stopLoss.phase) == Armed ==>
        (stopLoss.phase != Armed <==>
           ShouldTrip(old(stopLoss.percent), env.mark, WeightedEntry(HoldingsOf(old(levels[..]), orderQuantity)).GetOr(baselinePrice)))
      ensures cancels || exits ==> stopLoss.State().BlocksEntries()
      ensures exits ==> forall i :: 0 <= i < levels.Length ==>
        EntryGone(old(WorldAt(i)), Cfg(), i, stopLoss.State().BlocksEntries(), cancels, StopExitPrice(env.mark, prices[i], tick), env.levels[i])
      ensures forall i :: 0 <= i < levels.Length ==>
        WorldAt(i) == TickLevel(old(WorldAt(i)), Cfg(), i, env.mark, GeometryOf(prices, i, tick, takeProfit),
                                stopLoss.State().BlocksEntries(), cancels, exits, StopExitPrice(env.mark, prices[i], tick), env.levels[i])
    {
      cancels, exits := DriveStopLoss(env);
      ArmLevels(env.mark, env.levels);
      ReconcileOrders(env.levels);
    }

    method CancelOne(i: nat, e: CancelEnv) returns (problems: nat)
      requires Valid() && i < levels.Length && Coherent(WorldAt(i), i)
      modifies this`trades, this`totalPnl, this`totalTrades, manager, levels, exchange
      ensures Valid() && OthersKept(i)
      ensures WorldAt(i) == CancelBoth(old(WorldAt(i)), Cfg(), e)
      ensures problems == Unconfirmed(old(levels[i]), e)
    {
      CancelKept(WorldAt(i), Cfg(), i, Buy, e.buyOk, e.buyLast, e.buyRead, e.buyFee);
      CancelLeavesExit(WorldAt(i), Cfg(), i, e.buyOk, e.buyLast, e.buyRead, e.buyFee);
      var bought := CancelSlot(i, Buy, e.buyOk, e.buyLast, e.buyRead, e.buyFee);
      var sold := CancelSlot(i, Sell, e.sellOk, e.sellLast, e.sellRead, e.sellFee);
      problems := (if bought then 0 else 1) + if sold then 0 else 1;
    }

    /** Stop: cancel every live order; the number of cancels nobody confirmed. */
    method CancelAllOrders(envs: seq<CancelEnv>) returns (problems: nat)
      requires Valid() && Sound() && |envs| == levels.Length
      modifies this`trades, this`totalPnl, this`totalTrades, manager, levels, exchange
      ensures Valid() && Sound()
      ensures forall i :: 0 <= i < levels.Length ==> WorldAt(i) == CancelBoth(old(WorldAt(i)), Cfg(), envs[i])
      ensures problems == TotalUnconfirmed(old(levels[..]), envs)
    {
      problems := 0;
      for i := 0 to levels.Length
        invariant Valid()
        invariant forall j :: i <= j < levels.Length ==> WorldAt(j) == old(WorldAt(j))
        invariant forall j :: 0 <= j < i ==> WorldAt(j) == CancelBoth(old(WorldAt(j)), Cfg(), envs[j])
        invariant problems == TotalUnconfirmed(old(levels[..])[..i], envs[..i])
      {
        assert Coherent(old(WorldAt(i)), i);
        var unconfirmed := CancelOne(i, envs[i]);
        UnconfirmedStep(old(levels[..]), envs, i);
        problems := problems + unconfirmed;
      }
      forall i | 0 <= i < levels.Length ensures Coherent(WorldAt(i), i) {
        CancelBothKept(old(WorldAt(i)), Cfg(), i, envs[i]);
      }
      assert old(levels[..])[..levels.Length] == old(levels[..]) && envs[..levels.Length] == envs;
    }

    // ----- startup -----

    /** Resolve one side's restored handle. */
    method ResolveSide(i: nat, side: Side, m: Move) returns (o: SlotOutcome)
      requires Valid() && i < levels.Length
      modifies manager, levels, exchange
      ensures Valid() && OthersKept(i)
      ensures var p := LR.ResolveSide(old(service.DeskAt(i)), Cfg(), side, m);
        && o == p.outcome && WorldAt(i) == old(WorldAt(i)).(desk := p.desk)
      ensures SegmentOf(o).Some? ==> SegmentOf(o).value.cid.level == i
    {
      o := SafeToRecreate(None);
      assert service.DeskAt(i).cell.level == levels[i];
      if levels[i].HandleOf(side).Some? {
        o := CheckOrder(i, side, m);
      }
    }

    /** Book one level's collected outcomes. */
    method BookCollected(i: nat, b: SlotOutcome, s: SlotOutcome, buyFee: Option<real>, sellFee: Option<real>)
      requires Valid() && i < levels.Length
      requires SegmentOf(b).Some? ==> SegmentOf(b).value.cid.level == i
      requires SegmentOf(s).Some? ==> SegmentOf(s).value.cid.level == i
      modifies this`trades, this`totalPnl, this`totalTrades, levels
      ensures Valid() && OthersKept(i)
      ensures WorldAt(i) == LR.BookCollected(LR.BookCollected(old(WorldAt(i)), orderQuantity, Buy, b, buyFee), orderQuantity, Sell, s, sellFee)
    {
      if b.FilledOrder? || b.PartiallyFilled? {
        BookOutcome(i, Buy, b, buyFee);
      }
      if s.FilledOrder? || s.PartiallyFilled? {
        BookOutcome(i, Sell, s, sellFee);
      }
    }

    /** Startup reconciliation: resolve every restored handle, then book the fills it collected. */
    method ReconcileSymbol(envs: seq<StartEnv>)
      requires Valid() && Sound() && |envs| == levels.Length
      modifies this`trades, this`totalPnl, this`totalTrades, manager, levels, exchange
      ensures Valid() && Sound()
      ensures forall i :: 0 <= i < levels.Length ==>
        WorldAt(i) == LR.Startup(old(WorldAt(i)), Cfg(), envs[i].buyRead, envs[i].sellRead, envs[i].buyFee, envs[i].sellFee)
    {
      var buys, sells: seq<SlotOutcome> := [], [];
      for i := 0 to levels.Length
        invariant Valid() && |buys| == |sells| == i
        invariant forall j :: i <= j < levels.Length ==> WorldAt(j) == old(WorldAt(j))
        invariant forall j :: 0 <= j < i ==> ResolvedAt(old(WorldAt(j)), WorldAt(j), j, envs[j], buys[j], sells[j])
      {
        var b := ResolveSide(i, Buy, envs[i].buyRead);
        var s := ResolveSide(i, Sell, envs[i].sellRead);
        buys, sells := buys + [b], sells + [s];
      }
      for i := 0 to levels.Length
        invariant Valid()
        invariant forall j :: i <= j < levels.Length ==> ResolvedAt(old(WorldAt(j)), WorldAt(j), j, envs[j], buys[j], sells[j])
        invariant forall j :: 0 <= j < i ==>
          WorldAt(j) == LR.Startup(old(WorldAt(j)), Cfg(), envs[j].buyRead, envs[j].sellRead, envs[j].buyFee, envs[j].sellFee)
      {
        BookCollected(i, buys[i], sells[i], envs[i].buyFee, envs[i].sellFee);
      }
      forall i | 0 <= i < levels.Length ensures Coherent(WorldAt(i), i) {
        StartupKept(old(WorldAt(i)), Cfg(), i, envs[i].buyRead, envs[i].sellRead, envs[i].buyFee, envs[i].sellFee);
      }
    }

    /** A level resolved but not yet booked. */
    ghost predicate ResolvedAt(w: LR.World, w': LR.World, i: nat, e: StartEnv, b: SlotOutcome, s: SlotOutcome) {
      var pb := LR.ResolveSide(w.desk, Cfg(), Buy, e.buyRead);
      var ps := LR.ResolveSide(pb.desk, Cfg(), Sell, e.sellRead);
      && w' == w.(desk := ps.desk) && b == pb.outcome && s == ps.outcome
      && (SegmentOf(b).Some? ==> SegmentOf(b).value.cid.level == i)
      && (SegmentOf(s).Some? ==> SegmentOf(s).value.cid.level == i)
    }
  }
}
