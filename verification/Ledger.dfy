/**
 * The fill ledger and what one observation books into it: the segment of the
 * order it covers, its executed price, its realised PnL, and the level's entry.
 */
module Ledger {
  import opened Options
  import opened OrderState
  import opened LevelMachine
  import opened Ticks

  /** One booked fill segment, as handed to the reporter. An absent fee means unknown money. */
  datatype Row = Row(
    cid: Cid, exchangeId: Option<Handle>, terminal: bool,
    from: int, to: int, quantity: int, price: real, fee: Option<real>, pnl: Option<real>)

  /** What an execution-carrying outcome asks to be booked. */
  datatype Segment = Segment(
    delta: int, cumQty: Option<int>, terminal: bool, executedPrice: Option<real>, cid: Cid, orderId: Option<Handle>)

  /** The booked cell and the row, if the segment was not an already-booked fill. */
  datatype Entry = Entry(cell: Cell, row: Option<Row>)

  /** The three outcomes that carry executions collapse onto one segment. */
  function SegmentOf(o: SlotOutcome): Option<Segment> {
    match o
    case FilledOrder(id, cum, delta, price, cid) => Some(Segment(delta, cum, true, price, cid, id))
    case PartiallyFilled(id, cum, delta, price, cid) => Some(Segment(delta, Some(cum), false, price, cid, Some(id)))
    case SafeToRecreate(Some(p)) => Some(Segment(p.delta, Some(p.cumQty), false, p.executedPrice, p.cid, p.orderId))
    case _ => None
  }

  /** Long quantity a level holds, as the grid reads it. */
  function HeldQtyOf(l: GridLevel, q: int): int {
    if l.heldQty.Some? then l.heldQty.value else if l.filled then q else 0
  }

  /** The mean of two prices weighted by what was bought at each. */
  function WeightedMean(p: real, m: real, r: real, n: real): real
    requires m >= 0.0 && n > 0.0
  {
    (p * m + r * n) / (m + n)
  }

  /** The averaged executed entry after buying `quantity` more at `price`. */
  function AveragedEntry(prior: Option<real>, heldBefore: int, price: real, quantity: int): real
    requires quantity > 0
  {
    if prior.Some? && heldBefore > QTY_EPSILON
    then Round8(WeightedMean(prior.value, heldBefore as real, price, quantity as real))
    else price
  }

  /** Realised PnL of a booked segment: a sell realises its spread, a buy only its fee. */
  function PnlOf(side: Side, entry: real, price: real, quantity: int, fee: real): real {
    if side == Buy then 0.0 - fee else (price - entry) * quantity as real - fee
  }

  /**
   * Book one segment. The manager has already moved the level by its delta, so the
   * held quantity read here is post-fill; only the level's entry price changes.
   */
  function BookSegment(c: Cell, q: int, side: Side, s: Segment, fee: Option<real>): Entry {
    if s.delta <= QTY_EPSILON then Entry(c, None)
    else
      var price :=
        if s.executedPrice.Some? then s.executedPrice.value
        else if c.Rec(side).Some? then c.Rec(side).value.price else c.level.price;
      var to :=
        if s.cumQty.Some? then s.cumQty.value
        else if c.Rec(side).Some? then c.Rec(side).value.filledQty else s.delta;
      var heldAfter := HeldQtyOf(c.level, q);
      var entry := c.level.entryPrice.GetOr(c.level.price);
      var pnl := if fee.None? then None else Some(PnlOf(side, entry, price, s.delta, fee.value));
      var entryAfter :=
        if side == Buy
        then Some(AveragedEntry(c.level.entryPrice, Max(0, heldAfter - s.delta), price, s.delta))
        else if heldAfter <= QTY_EPSILON then None else c.level.entryPrice;
      Entry(c.(level := c.level.(entryPrice := entryAfter)),
            Some(Row(s.cid, s.orderId, s.terminal, Max(0, to - s.delta), to, s.delta, price, fee, pnl)))
  }

  // ----- sums over rows -----

  /** Quantity booked under one client order id. */
  function Booked(rows: seq<Row>, cid: Cid): int {
    if rows == [] then 0
    else
      var last := rows[|rows| - 1];
      Booked(rows[..|rows| - 1], cid) + if last.cid == cid then last.quantity else 0
  }

  /** Bought minus sold. */
  function Net(rows: seq<Row>): int {
    if rows == [] then 0
    else
      var last := rows[|rows| - 1];
      Net(rows[..|rows| - 1]) + if last.cid.side == Buy then last.quantity else -last.quantity
  }

  /** Every segment starts where the last one of the same order ended. */
  ghost predicate Tiled(rows: seq<Row>) {
    rows == [] ||
    (var last := rows[|rows| - 1];
     && Tiled(rows[..|rows| - 1])
     && last.quantity > QTY_EPSILON
     && last.from == Booked(rows[..|rows| - 1], last.cid)
     && last.to == last.from + last.quantity)
  }

  function Notional(r: Row): real { r.price * r.quantity as real }

  /** Sell proceeds minus buy cost minus fees. */
  function CashFlow(rows: seq<Row>): real {
    if rows == [] then 0.0
    else
      var last := rows[|rows| - 1];
      CashFlow(rows[..|rows| - 1])
        + (if last.cid.side == Buy then -Notional(last) else Notional(last)) - last.fee.GetOr(0.0)
  }

  /** Realised PnL of the rows whose money is known. */
  function RealisedPnl(rows: seq<Row>): real {
    if rows == [] then 0.0
    else RealisedPnl(rows[..|rows| - 1]) + rows[|rows| - 1].pnl.GetOr(0.0)
  }

  function BuySegments(rows: seq<Row>): nat {
    if rows == [] then 0
    else BuySegments(rows[..|rows| - 1]) + if rows[|rows| - 1].cid.side == Buy then 1 else 0
  }

  /** One appended row changes each sum by its own term. */
  lemma Append(rows: seq<Row>, r: Row)
    ensures var all := rows + [r];
      && (forall cid :: Booked(all, cid) == Booked(rows, cid) + if r.cid == cid then r.quantity else 0)
      && Net(all) == Net(rows) + (if r.cid.side == Buy then r.quantity else -r.quantity)
      && CashFlow(all) == CashFlow(rows) + (if r.cid.side == Buy then -Notional(r) else Notional(r)) - r.fee.GetOr(0.0)
      && RealisedPnl(all) == RealisedPnl(rows) + r.pnl.GetOr(0.0)
      && BuySegments(all) == BuySegments(rows) + (if r.cid.side == Buy then 1 else 0)
      && (Tiled(all) <==> Tiled(rows) && r.quantity > QTY_EPSILON
                          && r.from == Booked(rows, r.cid) && r.to == r.from + r.quantity)
  {
    var all := rows + [r];
    assert all[..|all| - 1] == rows && all[|all| - 1] == r;
  }

  // ----- what tiling means for a reader of the ledger -----

  /** The rows of one order, in booking order. */
  function RowsOf(rows: seq<Row>, cid: Cid): seq<Row> {
    if rows == [] then []
    else
      var last := rows[|rows| - 1];
      RowsOf(rows[..|rows| - 1], cid) + if last.cid == cid then [last] else []
  }

  /** A segment list that starts at `start`, leaves no gap, never overlaps and ends at `end`. */
  ghost predicate Contiguous(segments: seq<Row>, start: int, end: int) {
    && (segments == [] ==> start == end)
    && (segments != [] ==> segments[0].from == start && segments[|segments| - 1].to == end)
    && (forall k :: 0 <= k < |segments| ==> segments[k].quantity == segments[k].to - segments[k].from > 0)
    && (forall k :: 0 < k < |segments| ==> segments[k].from == segments[k - 1].to)
  }

  /** In a tiled ledger every order's segments run from 0 to the quantity booked for it, without gap or overlap. */
  lemma {:induction false} TiledIsContiguous(rows: seq<Row>, cid: Cid)
    requires Tiled(rows)
    ensures Contiguous(RowsOf(rows, cid), 0, Booked(rows, cid))
  {
    if rows != [] {
      TiledIsContiguous(rows[..|rows| - 1], cid);
    }
  }
}
