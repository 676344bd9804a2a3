/**
 * What one order-manager call does to one level: the level's fields and the
 * record each of its two slots points at. `OrderManagement.OrderManager` keeps
 * these facts in maps and arrays and is proved to compute exactly these functions.
 */
module LevelMachine {
  import opened Options
  import opened OrderState

  /** A level together with the latest record of its BUY and of its SELL slot. */
  datatype Cell = Cell(level: GridLevel, buyRec: Option<OrderRecord>, sellRec: Option<OrderRecord>) {

    function Rec(side: Side): Option<OrderRecord> {
      if side == Buy then buyRec else sellRec
    }

    function WithRec(r: OrderRecord): Cell {
      if r.cid.side == Buy then this.(buyRec := Some(r)) else this.(sellRec := Some(r))
    }

    /** The id this slot would submit with now. */
    function IdFor(i: nat, side: Side): Cid { Cid(i, side, level.Gen(side)) }

    /** The slot's record is the one its current id names. */
    predicate Current(i: nat, side: Side) {
      Rec(side).Some? && Rec(side).value.cid == IdFor(i, side)
    }
  }

  /** A cell after a booking call, and the delta it booked (None when nothing). */
  datatype Booking = Booking(cell: Cell, delta: Option<int>)

  function Max(a: int, b: int): int { if a >= b then a else b }

  /** Record an intent to submit: a new instance starts its cumulative at zero. */
  function BeginSubmit(c: Cell, cid: Cid, price: real, quantity: int): Cell {
    c.WithRec(OrderRecord(cid, price, quantity, 0, None, Intended))
     .(level := c.level.WithCum(cid.side, 0))
  }

  /** Change only the state of a slot's record. */
  function MarkState(c: Cell, side: Side, st: RecordState): Cell {
    match c.Rec(side)
    case None => c
    case Some(r) => c.WithRec(r.(state := st))
  }

  function MarkOpen(c: Cell, side: Side, h: Handle): Cell {
    match c.Rec(side)
    case None => c
    case Some(r) =>
      c.WithRec(r.(state := Open, orderId := Some(h)))
       .(level := c.level.WithHandle(r.cid.side, Some(h)))
  }

  /**
   * Move a level's held quantity by a booked delta: capped at one slot on a BUY,
   * floored at zero on a SELL. The exit-only lock goes when nothing is left.
   */
  function ProjectFill(l: GridLevel, q: int, side: Side, delta: int, cum: int): (after: GridLevel)
    ensures after.Gen(Buy) == l.Gen(Buy) && after.Gen(Sell) == l.Gen(Sell)
  {
    var moved := if side == Buy then l.Held() + delta else l.Held() - delta;
    var held :=
      if side == Buy then (if moved > q + QTY_EPSILON then q else moved)
      else if moved < 0 then 0 else moved;
    l.(heldQty := Some(held),
       filled := held >= q - QTY_EPSILON,
       exitOnly := if l.exitOnly == Some(true) && held <= QTY_EPSILON then Some(false) else l.exitOnly)
     .WithCum(side, cum)
  }

  /** Book a cumulative seen on a live or dying order; None when it adds nothing. */
  function MarkBooked(c: Cell, q: int, side: Side, cum: int): Booking {
    match c.Rec(side)
    case None => Booking(c, None)
    case Some(r) =>
      if cum < 0 || cum - r.filledQty <= QTY_EPSILON then Booking(c, None)
      else
        Booking(c.WithRec(r.(filledQty := cum))
          .(level := ProjectFill(c.level, q, r.cid.side, cum - r.filledQty, cum)),
         Some(cum - r.filledQty))
  }

  /** The cumulative a terminal row stands for: never below what is already booked. */
  function TerminalCum(r: OrderRecord, q: int, cum: Option<int>): int {
    match cum
    case Some(v) => Max(v, r.filledQty)
    case None => Max(r.filledQty, if r.quantity > 0 then r.quantity else q)
  }

  /** Terminal execution: book the remainder, free the slot and always spend the id. */
  function MarkFilled(c: Cell, q: int, side: Side, h: Option<Handle>, cum: Option<int>): Booking {
    match c.Rec(side)
    case None => Booking(c, None)
    case Some(r) =>
      var total := TerminalCum(r, q, cum);
      var delta := total - r.filledQty;
      var freed := c.level.WithHandle(r.cid.side, None);
      var moved := if delta > QTY_EPSILON then ProjectFill(freed, q, r.cid.side, delta, total) else freed;
      Booking(
        c.WithRec(r.(state := Filled, orderId := if h.Some? then h else r.orderId, filledQty := total))
         .(level := moved.BumpGen(r.cid.side)),
        if delta > QTY_EPSILON then Some(delta) else None)
  }

  /** Definitively absent: free the slot, and spend the id if it booked anything. */
  function MarkNotFound(c: Cell, side: Side): Cell {
    match c.Rec(side)
    case None => c
    case Some(r) =>
      var freed := c.level.WithHandle(r.cid.side, None);
      c.WithRec(r.(state := NotFound, orderId := None))
       .(level := if r.filledQty > QTY_EPSILON then freed.BumpGen(r.cid.side) else freed)
  }

  function MarkExitOnly(c: Cell): Cell {
    c.(level := c.level.(exitOnly := Some(true)))
  }

  // ----- bringing a restored level under management -----

  /** Held quantity derived from `filled` when absent; otherwise `filled` recomputed. */
  function SeedHeld(l: GridLevel, q: int): GridLevel {
    match l.heldQty
    case None => if l.filled then l.(heldQty := Some(q)) else l
    case Some(h) => l.(filled := h >= q - QTY_EPSILON)
  }

  function AdoptSide(c: Cell, i: nat, side: Side): Cell {
    match c.level.HandleOf(side)
    case None => c
    case Some(h) =>
      c.WithRec(OrderRecord(c.IdFor(i, side), c.level.price, 0, c.level.CumOf(side).GetOr(0), Some(h), Unknown))
  }

  /** The manager's view of a freshly loaded level. */
  function Seed(l: GridLevel, q: int, i: nat): Cell {
    AdoptSide(AdoptSide(Cell(SeedHeld(l, q), None, None), i, Buy), i, Sell)
  }
}
