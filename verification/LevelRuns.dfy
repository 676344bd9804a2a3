/**
 * One grid level against its venue, event by event: the arming rules of the tick,
 * slot checks, confirmed cancels, stop-loss exits and restarts, each as a function
 * of what the outside world does. Levels share no order, record or ledger row, so
 * a run of the grid is, level by level, a run of these events.
 */
module LevelRuns {
  import opened Options
  import opened OrderState
  import opened LevelMachine
  import opened Venue
  import opened SlotReconciliation
  import opened Ledger

  /** A level's desk, the ledger rows booked for it, and whether entries are frozen. */
  datatype World = World(desk: Desk, rows: seq<Row>, frozen: bool)

  /** Hand an outcome's executions, if any, to the ledger. */
  function BookOutcome(w: World, q: int, side: Side, o: SlotOutcome, fee: Option<real>): World {
    match SegmentOf(o)
    case None => w
    case Some(s) =>
      var e := BookSegment(w.desk.cell, q, side, s, fee);
      w.(desk := w.desk.(cell := e.cell), rows := if e.row.Some? then w.rows + [e.row.value] else w.rows)
  }

  function BuyRemainder(l: GridLevel, q: int): int {
    Max(0, q - HeldQtyOf(l, q))
  }

  predicate GridFullyLong(l: GridLevel, q: int) {
    HeldQtyOf(l, q) >= q - QTY_EPSILON
  }

  /** The tick buys here: at or below the level, nothing live, something still to buy. */
  predicate BuyArmed(l: GridLevel, q: int, mark: real, frozen: bool) {
    && mark <= l.price && l.buyOrderId.None? && l.sellOrderId.None?
    && !GridFullyLong(l, q) && !l.IsExitOnly() && !frozen
  }

  /** The tick sells here: at or above the level, no exit live, a full slot or a locked remainder held. */
  predicate SellArmed(l: GridLevel, q: int, mark: real) {
    && mark >= l.price && l.sellOrderId.None?
    && (GridFullyLong(l, q) || (l.IsExitOnly() && HeldQtyOf(l, q) > QTY_EPSILON))
  }

  function ExitQuantity(l: GridLevel, q: int): int {
    if GridFullyLong(l, q) then q else HeldQtyOf(l, q)
  }

  /** Place (or adopt) a slot's order and book what the placement observed. */
  function PlaceAndBook(w: World, cfg: Config, i: nat, side: Side, price: real, quantity: int, e: PlaceMoves,
                        fee: Option<real>): World {
    var p := EnsureSlotOrder(w.desk, cfg, i, side, price, quantity, side == Sell, e);
    BookOutcome(w.(desk := p.desk), cfg.orderQuantity, side, p.outcome, fee)
  }

  /** A refused BUY that can never succeed locks the level into exit-only. */
  predicate LocksExitOnly(o: SlotOutcome, quantity: int, q: int) {
    && o.Unavailable?
    && ((quantity < q - QTY_EPSILON && o.reason == SizeRefusal) || o.reason == MarginRefusal)
  }

  /** What the tick makes of an entry's placement: lock the level, or book what was seen. */
  function AfterEntry(w: World, p: Placement, quantity: int, q: int, fee: Option<real>): World {
    if LocksExitOnly(p.outcome, quantity, q)
    then w.(desk := p.desk.(cell := MarkExitOnly(p.desk.cell)))
    else BookOutcome(w.(desk := p.desk), q, Buy, p.outcome, fee)
  }

  /** The BUY half of the tick at one level. */
  function ArmBuy(w: World, cfg: Config, i: nat, mark: real, e: PlaceMoves, fee: Option<real>): World {
    var l := w.desk.cell.level;
    if !BuyArmed(l, cfg.orderQuantity, mark, w.frozen) then w
    else
      var quantity := BuyRemainder(l, cfg.orderQuantity);
      AfterEntry(w, EnsureSlotOrder(w.desk, cfg, i, Buy, l.price, quantity, false, e), quantity, cfg.orderQuantity, fee)
  }

  /** The SELL half of the tick at one level, at the exit price computed for it. */
  function ArmSell(w: World, cfg: Config, i: nat, mark: real, target: Option<real>, e: PlaceMoves,
                   fee: Option<real>): World {
    var l := w.desk.cell.level;
    if !SellArmed(l, cfg.orderQuantity, mark) || target.None? then w
    else PlaceAndBook(w, cfg, i, Sell, target.value, ExitQuantity(l, cfg.orderQuantity), e, fee)
  }

  /** Verify one side's live order and book what the venue admits to. */
  function CheckSide(w: World, cfg: Config, side: Side, m: Move, fee: Option<real>): World {
    if w.desk.cell.level.HandleOf(side).None? then w
    else
      var p := CheckSlot(w.desk, cfg, side, m);
      BookOutcome(w.(desk := p.desk), cfg.orderQuantity, side, p.outcome, fee)
  }

  /** Close out a slot whose cancel the venue confirmed. */
  function ReconcileCancelledSlot(w: World, cfg: Config, side: Side, m: Move, fee: Option<real>): World {
    var p := CheckSlot(w.desk, cfg, side, m);
    var booked := BookOutcome(w.(desk := p.desk), cfg.orderQuantity, side, p.outcome, fee);
    if p.outcome.FilledOrder? || p.outcome.SafeToRecreate? then booked
    else booked.(desk := booked.desk.(cell := MarkNotFound(booked.desk.cell, side)))
  }

  /** Cancel one side's live order; an unconfirmed cancel leaves everything in place. */
  function CancelSide(w: World, cfg: Config, side: Side, confirmed: bool, last: Move, m: Move,
                      fee: Option<real>): World {
    var h := w.desk.cell.level.HandleOf(side);
    if h.None? || !confirmed then w
    else
      ReconcileCancelledSlot(w.(desk := w.desk.(book := CancelAt(w.desk.book, cfg.step, h.value, last))), cfg, side, m, fee)
  }

  /** The stop-loss exit of one level: a reduce-only sell of what it really holds. */
  function ExitInventory(w: World, cfg: Config, i: nat, price: Option<real>, e: PlaceMoves, fee: Option<real>): World {
    var l := w.desk.cell.level;
    if HeldQtyOf(l, cfg.orderQuantity) <= QTY_EPSILON || l.sellOrderId.Some? || price.None? then w
    else PlaceAndBook(w, cfg, i, Sell, price.value, HeldQtyOf(l, cfg.orderQuantity), e, fee)
  }

  // ----- restart -----

  /** What the snapshot keeps of a level: everything, with both generations made explicit. */
  function SnapshotLevel(l: GridLevel): GridLevel {
    l.(buyGen := Some(l.Gen(Buy)), sellGen := Some(l.Gen(Sell)))
  }

  /** Generation of a restored side; a snapshot without any starts handle-less sides at 1. */
  function RestoredGen(saved: GridLevel, gen: Option<nat>, h: Option<Handle>): nat {
    if gen.Some? then gen.value
    else if saved.buyGen.Some? || saved.sellGen.Some? then 0
    else if h.Some? then 0 else 1
  }

  /** Merge a saved level onto the rebuilt level of the same price. */
  function MergeRestored(base: GridLevel, saved: GridLevel): GridLevel {
    var stillLong := if saved.heldQty.Some? then saved.heldQty.value > 0 else saved.filled;
    GridLevel(
      base.price, saved.buyOrderId, saved.sellOrderId, saved.filled,
      if stillLong then saved.entryPrice else None,
      Some(RestoredGen(saved, saved.buyGen, saved.buyOrderId)),
      Some(RestoredGen(saved, saved.sellGen, saved.sellOrderId)),
      saved.heldQty, saved.buyFilledQty, saved.sellFilledQty, saved.exitOnly)
  }

  /** The engine's memory of a level after a restart from its own snapshot. */
  function Restored(l: GridLevel, q: int, i: nat): Cell {
    Seed(MergeRestored(FreshLevel(l.price), SnapshotLevel(l)), q, i)
  }

  /** The two outcomes the startup pass collects for booking. */
  predicate Collected(o: SlotOutcome) { o.FilledOrder? || o.PartiallyFilled? }

  /** The startup pass at one side: only a restored handle is resolved. */
  function ResolveSide(d: Desk, cfg: Config, side: Side, m: Move): Placement {
    if d.cell.level.HandleOf(side).Some? then CheckSlot(d, cfg, side, m) else Placement(d, SafeToRecreate(None))
  }

  function BookCollected(w: World, q: int, side: Side, o: SlotOutcome, fee: Option<real>): World {
    if Collected(o) then BookOutcome(w, q, side, o, fee) else w
  }

  /** Startup: resolve every restored handle, and only then book what was collected. */
  function Startup(w: World, cfg: Config, mBuy: Move, mSell: Move, feeBuy: Option<real>, feeSell: Option<real>): World {
    var b := ResolveSide(w.desk, cfg, Buy, mBuy);
    var s := ResolveSide(b.desk, cfg, Sell, mSell);
    var bought := BookCollected(w.(desk := s.desk), cfg.orderQuantity, Buy, b.outcome, feeBuy);
    BookCollected(bought, cfg.orderQuantity, Sell, s.outcome, feeSell)
  }

  function Restart(w: World, cfg: Config, i: nat, mBuy: Move, mSell: Move, feeBuy: Option<real>,
                   feeSell: Option<real>): World {
    Startup(w.(desk := w.desk.(cell := Restored(w.desk.cell.level, cfg.orderQuantity, i))), cfg, mBuy, mSell, feeBuy, feeSell)
  }

  // ----- runs -----

  datatype Event =
    | VenueMoves(side: Side, gen: nat, move: Move)
    | BuyTick(mark: real, place: PlaceMoves, fee: Option<real>)
    | SellTick(mark: real, target: Option<real>, place: PlaceMoves, fee: Option<real>)
    | Poll(side: Side, move: Move, fee: Option<real>)
    | Cancel(side: Side, confirmed: bool, last: Move, move: Move, fee: Option<real>)
    | Freeze
    | StopExit(price: Option<real>, place: PlaceMoves, fee: Option<real>)
    | Reboot(buyMove: Move, sellMove: Move, feeBuy: Option<real>, feeSell: Option<real>)

  /** Stop-loss exits only run once entries are frozen and no entry handle is left. */
  predicate ExitPhase(w: World) {
    w.frozen && w.desk.cell.level.buyOrderId.None?
  }

  function Step(w: World, cfg: Config, i: nat, e: Event): World {
    match e
    case VenueMoves(side, gen, m) => w.(desk := w.desk.(book := EvolveAt(w.desk.book, cfg.step, Cid(i, side, gen), m)))
    case BuyTick(mark, place, fee) => ArmBuy(w, cfg, i, mark, place, fee)
    case SellTick(mark, target, place, fee) => ArmSell(w, cfg, i, mark, target, place, fee)
    case Poll(side, m, fee) => CheckSide(w, cfg, side, m, fee)
    case Cancel(side, confirmed, last, m, fee) => CancelSide(w, cfg, side, confirmed, last, m, fee)
    case Freeze => w.(frozen := true)
    case StopExit(price, place, fee) => if ExitPhase(w) then ExitInventory(w, cfg, i, price, place, fee) else w
    case Reboot(mb, ms, fb, fs) => Restart(w, cfg, i, mb, ms, fb, fs)
  }

  function Run(w: World, cfg: Config, i: nat, events: seq<Event>): World {
    if events == [] then w
    else Step(Run(w, cfg, i, events[..|events| - 1]), cfg, i, events[|events| - 1])
  }

  /** A level as built, seeded by the manager, with no order ever submitted for it. */
  function FreshWorld(price: real, q: int, i: nat): World {
    World(Desk(Seed(FreshLevel(price), q, i), map[]), [], false)
  }
}
