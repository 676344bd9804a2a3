/**
 * What the reconciliation service does to one slot, as functions of the slot's
 * cell, the venue's book and the moves of the calls it makes. The service class
 * below is proved to compute them.
 */
module SlotReconciliation {
  import opened Options
  import opened OrderState
  import opened LevelMachine
  import opened Venue

  /** One level's engine memory beside the venue's book for it. */
  datatype Desk = Desk(cell: Cell, book: Book)

  /** A desk after a service call, and the outcome handed to the grid. */
  datatype Placement = Placement(desk: Desk, outcome: SlotOutcome)

  /** A cell after an observation, and the outcome handed to the grid. */
  datatype Observation = Observation(cell: Cell, outcome: SlotOutcome)

  /** Quantity and tick parameters every slot shares. */
  datatype Config = Config(orderQuantity: int, step: nat)

  /** How the market-rules check in front of every placement turns out. */
  datatype Boundary = Passed | RulesChanged | OffTick | RulesUnavailable

  /** Everything outside the engine that one placement attempt meets. */
  datatype PlaceMoves = PlaceMoves(
    boundary: Boundary, pre: Move, intentPersisted: bool, create: CreateMove, post: Move)
  {
    predicate Honest() { pre.Honest() && post.Honest() }
  }

  /** The segment a live or dying observation owes, if it reported a new cumulative. */
  datatype Remainder = Remainder(cell: Cell, pending: Option<PendingFill>)

  function BookRemainder(c: Cell, q: int, cid: Cid, h: Option<Handle>, cum: Option<int>,
                         price: Option<real>): Remainder {
    match cum
    case None => Remainder(c, None)
    case Some(v) =>
      var b := MarkBooked(c, q, cid.side, v);
      match b.delta
      case None => Remainder(b.cell, None)
      case Some(d) => Remainder(b.cell, Some(PendingFill(v, d, price, cid, h)))
  }

  /** An observation of an order that is still live under handle h. */
  function LiveOutcome(cid: Cid, h: Handle, pending: Option<PendingFill>): SlotOutcome {
    match pending
    case None => OpenOrder(h)
    case Some(p) => PartiallyFilled(h, p.cumQty, p.delta, p.executedPrice, cid)
  }

  /** `queryOrderByClientOrderId`'s answer, written through the manager. */
  function ObserveLookup(c: Cell, q: int, cid: Cid, reply: Lookup): Observation {
    match reply
    case FoundOpen(row) =>
      var r := BookRemainder(MarkOpen(c, cid.side, row.orderId), q, cid, Some(row.orderId), row.executedQuantity,
        row.price);
      Observation(r.cell, LiveOutcome(cid, row.orderId, r.pending))
    case FoundFilled(row) =>
      var cum := if row.executedQuantity.Some? then row.executedQuantity else row.quantity;
      var b := MarkFilled(c, q, cid.side, Some(row.orderId), cum);
      Observation(b.cell, FilledOrder(Some(row.orderId), cum, b.delta.GetOr(0), row.price, cid))
    case FoundCanceled(row) =>
      var r := BookRemainder(c, q, cid, Some(row.orderId), row.executedQuantity, row.price);
      Observation(MarkNotFound(r.cell, cid.side), SafeToRecreate(r.pending))
    case Absent => Observation(MarkNotFound(c, cid.side), SafeToRecreate(None))
    case Unreachable => Observation(MarkState(c, cid.side, ExchangeUnavailable), Unavailable(OtherReason))
  }

  /** A read by handle that threw: gone for good, or frozen. */
  function ClassifyHandleError(c: Cell, side: Side, e: HandleError): Observation {
    if e == CommandError(false) || e == HttpError(Some(404))
    then Observation(MarkNotFound(c, side), SafeToRecreate(None))
    else Observation(MarkState(c, side, ExchangeUnavailable), Unavailable(OtherReason))
  }

  /** `getOrder`'s answer for the slot's record r queried under handle h. */
  function ObserveHandle(c: Cell, q: int, r: OrderRecord, h: Handle, reply: OrderReply): Observation {
    match reply
    case Failed(e) => ClassifyHandleError(c, r.cid.side, e)
    case OrderRow(RowFilled, id, cum, price) =>
      var named := if id.Some? then id else Some(h);
      var b := MarkFilled(c, q, r.cid.side, named, cum);
      Observation(b.cell, FilledOrder(named, cum, b.delta.GetOr(0), price, r.cid))
    case OrderRow(RowDead, _, cum, price) =>
      var rem := BookRemainder(c, q, r.cid, Some(h), cum, price);
      Observation(MarkNotFound(rem.cell, r.cid.side), SafeToRecreate(rem.pending))
    case OrderRow(RowLive, _, cum, price) =>
      var rem := BookRemainder(c, q, r.cid, Some(h), cum, price);
      Observation(MarkOpen(rem.cell, r.cid.side, h), LiveOutcome(r.cid, h, rem.pending))
  }

  function LookupStep(d: Desk, cfg: Config, cid: Cid, m: Move): Placement {
    var book := EvolveAt(d.book, cfg.step, cid, m);
    var obs := ObserveLookup(d.cell, cfg.orderQuantity, cid, LookupReply(book, cid, m));
    Placement(Desk(obs.cell, book), obs.outcome)
  }

  /** Verify a slot by its handle. */
  function CheckSlot(d: Desk, cfg: Config, side: Side, m: Move): Placement {
    match d.cell.Rec(side)
    case None => Placement(d, SafeToRecreate(None))
    case Some(r) =>
      match r.orderId
      case None => Placement(d, SafeToRecreate(None))
      case Some(h) =>
        var book := EvolveAt(d.book, cfg.step, h.cid, m);
        var obs := ObserveHandle(d.cell, cfg.orderQuantity, r, h, HandleReply(book, h, m));
        Placement(Desk(obs.cell, book), obs.outcome)
  }

  /** Adopt what a lost response left behind, or freeze the slot. */
  function Recover(d: Desk, cfg: Config, cid: Cid, reason: Reason, m: Move): Placement {
    var seen := LookupStep(d, cfg, cid, m);
    if seen.outcome.OpenOrder? || seen.outcome.FilledOrder? || seen.outcome.PartiallyFilled?
       || (seen.outcome.SafeToRecreate? && seen.outcome.pendingFill.Some?)
    then seen
    else Placement(Desk(MarkState(seen.desk.cell, cid.side, ExchangeUnavailable), seen.desk.book), Unavailable(reason))
  }

  /** Submit under an id the venue just reported free. */
  function Submit(d: Desk, cfg: Config, cid: Cid, price: real, quantity: int, reduceOnly: bool,
                  e: PlaceMoves): Placement {
    var book := CreateBook(d.book, cid, price, quantity, reduceOnly, e.create);
    match CreateAnswer(d.book, cid, quantity, e.create)
    case Created(h) => Placement(Desk(MarkOpen(d.cell, cid.side, h), book), OpenOrder(h))
    case Refused(reason) => Recover(Desk(d.cell, book), cfg, cid, reason, e.post)
  }

  /** Record the intent to submit, then ask the venue what it has under the id. */
  function LookBeforeCreate(d: Desk, cfg: Config, cid: Cid, price: real, quantity: int, m: Move): Placement {
    LookupStep(d.(cell := MarkState(BeginSubmit(d.cell, cid, price, quantity), cid.side, Submitting)), cfg, cid, m)
  }

  /** Past the boundary check: look before creating, persist the intent, submit. */
  function Attempt(d: Desk, cfg: Config, cid: Cid, price: real, quantity: int, reduceOnly: bool,
                   e: PlaceMoves): Placement {
    var pre := LookBeforeCreate(d, cfg, cid, price, quantity, e.pre);
    if !pre.outcome.SafeToRecreate? || pre.outcome.pendingFill.Some? then pre
    else if !e.intentPersisted then
      Placement(pre.desk.(cell := MarkState(pre.desk.cell, cid.side, ExchangeUnavailable)), Unavailable(OtherReason))
    else Submit(pre.desk, cfg, cid, price, quantity, reduceOnly, e)
  }

  /** Idempotent placement of one slot's order under its current id. */
  function EnsureSlotOrder(d: Desk, cfg: Config, i: nat, side: Side, price: real, quantity: int, reduceOnly: bool,
                           e: PlaceMoves): Placement {
    if e.boundary == Passed then Attempt(d, cfg, d.cell.IdFor(i, side), price, quantity, reduceOnly, e)
    else if e.boundary == OffTick || !d.cell.Current(i, side) then Placement(d, Unavailable(OtherReason))
    else Placement(d.(cell := MarkState(d.cell, side, ExchangeUnavailable)), Unavailable(OtherReason))
  }
}
