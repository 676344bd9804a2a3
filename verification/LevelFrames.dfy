/**
 * What one slot's operations never touch: the level's price, the other side's
 * handle and generation, and the ledger rows of other orders.
 */
module LevelFrames {
  import opened Options
  import opened OrderState
  import opened LevelMachine
  import opened Venue
  import opened SlotReconciliation
  import opened Ledger
  import opened LevelRuns
  import opened Tiling

  /** A slot's record, when there is one, is the slot's own. */
  ghost predicate Owned(c: Cell, i: nat, side: Side) {
    c.Rec(side).Some? ==> c.Rec(side).value.cid.SlotOf() == Slot(i, side)
  }

  /** The line and the other side's handle and generation stand; the side's own generation may climb. */
  ghost predicate Kept(l: GridLevel, l': GridLevel, side: Side) {
    && l'.price == l.price && l'.HandleOf(Other(side)) == l.HandleOf(Other(side))
    && l.Gen(side) <= l'.Gen(side) && l'.Gen(Other(side)) == l.Gen(Other(side))
  }

  lemma BookedFrame(c: Cell, q: int, i: nat, side: Side, cum: int)
    requires Owned(c, i, side)
    ensures var c' := MarkBooked(c, q, side, cum).cell; Kept(c.level, c'.level, side) && Owned(c', i, side)
  {}

  lemma FilledFrame(c: Cell, q: int, i: nat, side: Side, h: Option<Handle>, cum: Option<int>)
    requires Owned(c, i, side)
    ensures var c' := MarkFilled(c, q, side, h, cum).cell; Kept(c.level, c'.level, side) && Owned(c', i, side)
  {}

  lemma MarkedFrame(c: Cell, i: nat, side: Side, h: Handle, st: RecordState)
    requires Owned(c, i, side)
    ensures Kept(c.level, MarkOpen(c, side, h).level, side) && Owned(MarkOpen(c, side, h), i, side)
    ensures Kept(c.level, MarkState(c, side, st).level, side) && Owned(MarkState(c, side, st), i, side)
    ensures Kept(c.level, MarkNotFound(c, side).level, side) && Owned(MarkNotFound(c, side), i, side)
  {}

  lemma RemainderFrame(c: Cell, q: int, i: nat, cid: Cid, h: Option<Handle>, cum: Option<int>, price: Option<real>)
    requires Owned(c, i, cid.side)
    ensures var r := BookRemainder(c, q, cid, h, cum, price);
      Kept(c.level, r.cell.level, cid.side) && Owned(r.cell, i, cid.side) && (r.pending.Some? ==> r.pending.value.cid == cid)
  {
    if cum.Some? {
      BookedFrame(c, q, i, cid.side, cum.value);
    }
  }

  /** A lookup books under the id it asked about and nothing else. */
  lemma LookupFrame(c: Cell, q: int, i: nat, cid: Cid, reply: Lookup)
    requires Owned(c, i, cid.side)
    ensures var o := ObserveLookup(c, q, cid, reply);
      && Kept(c.level, o.cell.level, cid.side) && Owned(o.cell, i, cid.side)
      && (SegmentOf(o.outcome).Some? ==> SegmentOf(o.outcome).value.cid == cid)
  {
    match reply
    case FoundOpen(row) =>
      MarkedFrame(c, i, cid.side, row.orderId, Open);
      RemainderFrame(MarkOpen(c, cid.side, row.orderId), q, i, cid, Some(row.orderId), row.executedQuantity, row.price);
    case FoundFilled(row) =>
      FilledFrame(c, q, i, cid.side, Some(row.orderId), if row.executedQuantity.Some? then row.executedQuantity else row.quantity);
    case FoundCanceled(row) =>
      RemainderFrame(c, q, i, cid, Some(row.orderId), row.executedQuantity, row.price);
      MarkedFrame(BookRemainder(c, q, cid, Some(row.orderId), row.executedQuantity, row.price).cell, i, cid.side,
        row.orderId, Open);
    case Absent => MarkedFrame(c, i, cid.side, Handle(cid, 0), Open);
    case Unreachable => MarkedFrame(c, i, cid.side, Handle(cid, 0), ExchangeUnavailable);
  }

  /** A read by handle books under the record's id and nothing else. */
  lemma HandleFrame(c: Cell, q: int, i: nat, side: Side, h: Handle, reply: OrderReply)
    requires Owned(c, i, side) && c.Rec(side).Some?
    ensures var o := ObserveHandle(c, q, c.Rec(side).value, h, reply);
      && Kept(c.level, o.cell.level, side) && Owned(o.cell, i, side)
      && (SegmentOf(o.outcome).Some? ==> SegmentOf(o.outcome).value.cid == c.Rec(side).value.cid)
  {
    var cid := c.Rec(side).value.cid;
    match reply
    case Failed(_) => MarkedFrame(c, i, side, h, ExchangeUnavailable);
    case OrderRow(status, id, cum, price) =>
      if status == RowFilled {
        FilledFrame(c, q, i, side, if id.Some? then id else Some(h), cum);
      } else {
        RemainderFrame(c, q, i, cid, Some(h), cum, price);
        MarkedFrame(BookRemainder(c, q, cid, Some(h), cum, price).cell, i, side, h, Open);
      }
  }

  lemma CheckFrame(d: Desk, cfg: Config, i: nat, side: Side, m: Move)
    requires Owned(d.cell, i, side)
    ensures var p := CheckSlot(d, cfg, side, m);
      && Kept(d.cell.level, p.desk.cell.level, side) && Owned(p.desk.cell, i, side)
      && (SegmentOf(p.outcome).Some? ==> SegmentOf(p.outcome).value.cid.SlotOf() == Slot(i, side))
      && (SegmentOf(p.outcome).Some? && d.cell.Current(i, side) ==> SegmentOf(p.outcome).value.cid == d.cell.IdFor(i, side))
  {
    var r := d.cell.Rec(side);
    if r.Some? && r.value.orderId.Some? {
      var h := r.value.orderId.value;
      HandleFrame(d.cell, cfg.orderQuantity, i, side, h, HandleReply(EvolveAt(d.book, cfg.step, h.cid, m), h, m));
    }
  }

  lemma StepFrame(d: Desk, cfg: Config, i: nat, cid: Cid, m: Move)
    requires Owned(d.cell, i, cid.side)
    ensures var p := LookupStep(d, cfg, cid, m);
      && Kept(d.cell.level, p.desk.cell.level, cid.side) && Owned(p.desk.cell, i, cid.side)
      && (SegmentOf(p.outcome).Some? ==> SegmentOf(p.outcome).value.cid == cid)
  {
    LookupFrame(d.cell, cfg.orderQuantity, i, cid, LookupReply(EvolveAt(d.book, cfg.step, cid, m), cid, m));
  }

  lemma RecoverFrame(d: Desk, cfg: Config, i: nat, cid: Cid, reason: Reason, m: Move)
    requires Owned(d.cell, i, cid.side)
    ensures var p := Recover(d, cfg, cid, reason, m);
      && Kept(d.cell.level, p.desk.cell.level, cid.side) && Owned(p.desk.cell, i, cid.side)
      && (SegmentOf(p.outcome).Some? ==> SegmentOf(p.outcome).value.cid == cid)
  {
    StepFrame(d, cfg, i, cid, m);
    MarkedFrame(LookupStep(d, cfg, cid, m).desk.cell, i, cid.side, Handle(cid, 0), ExchangeUnavailable);
  }

  lemma SubmitFrame(d: Desk, cfg: Config, i: nat, cid: Cid, price: real, quantity: int, ro: bool, e: PlaceMoves)
    requires Owned(d.cell, i, cid.side)
    ensures var p := Submit(d, cfg, cid, price, quantity, ro, e);
      && Kept(d.cell.level, p.desk.cell.level, cid.side) && Owned(p.desk.cell, i, cid.side)
      && (SegmentOf(p.outcome).Some? ==> SegmentOf(p.outcome).value.cid == cid)
  {
    match CreateAnswer(d.book, cid, quantity, e.create)
    case Created(h) => MarkedFrame(d.cell, i, cid.side, h, Open);
    case Refused(reason) => RecoverFrame(d.(book := CreateBook(d.book, cid, price, quantity, ro, e.create)), cfg, i,
      cid, reason, e.post);
  }

  lemma BeginFrame(c: Cell, i: nat, cid: Cid, price: real, quantity: int)
    requires cid.level == i
    ensures var begun := MarkState(BeginSubmit(c, cid, price, quantity), cid.side, Submitting);
      Kept(c.level, begun.level, cid.side) && Owned(begun, i, cid.side)
  {}

  lemma KeptTrans(a: GridLevel, b: GridLevel, c: GridLevel, side: Side)
    requires Kept(a, b, side) && Kept(b, c, side)
    ensures Kept(a, c, side)
  {}

  /** A placement books under the slot's current id and nothing else. */
  lemma AttemptFrame(d: Desk, cfg: Config, i: nat, side: Side, price: real, quantity: int, ro: bool, e: PlaceMoves)
    ensures var p := Attempt(d, cfg, d.cell.IdFor(i, side), price, quantity, ro, e);
      && Kept(d.cell.level, p.desk.cell.level, side)
      && (SegmentOf(p.outcome).Some? ==> SegmentOf(p.outcome).value.cid == d.cell.IdFor(i, side))
  {
    var cid := d.cell.IdFor(i, side);
    BeginFrame(d.cell, i, cid, price, quantity);
    var begun := MarkState(BeginSubmit(d.cell, cid, price, quantity), side, Submitting);
    StepFrame(d.(cell := begun), cfg, i, cid, e.pre);
    var pre := LookupStep(d.(cell := begun), cfg, cid, e.pre).desk;
    KeptTrans(d.cell.level, begun.level, pre.cell.level, side);
    SubmitFrame(pre, cfg, i, cid, price, quantity, ro, e);
    KeptTrans(d.cell.level, pre.cell.level, Submit(pre, cfg, cid, price, quantity, ro, e).desk.cell.level, side);
    MarkedFrame(pre.cell, i, side, Handle(cid, 0), ExchangeUnavailable);
    KeptTrans(d.cell.level, pre.cell.level, MarkState(pre.cell, side, ExchangeUnavailable).level, side);
  }

  lemma EnsureFrame(d: Desk, cfg: Config, i: nat, side: Side, price: real, quantity: int, ro: bool, e: PlaceMoves)
    requires Owned(d.cell, i, side)
    ensures var p := EnsureSlotOrder(d, cfg, i, side, price, quantity, ro, e);
      && Kept(d.cell.level, p.desk.cell.level, side)
      && (SegmentOf(p.outcome).Some? ==> SegmentOf(p.outcome).value.cid == d.cell.IdFor(i, side))
  {
    AttemptFrame(d, cfg, i, side, price, quantity, ro, e);
    MarkedFrame(d.cell, i, side, Handle(d.cell.IdFor(i, side), 0), ExchangeUnavailable);
  }
}
