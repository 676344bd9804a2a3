/**
 * The order reconciliation service: the only place where a venue answer becomes
 * a slot state. Every method leaves the other levels alone and takes its own
 * level's desk to exactly what `SlotReconciliation` says.
 */
module ReconciliationService {
  import opened Options
  import opened OrderState
  import LM = LevelMachine
  import opened Venue
  import opened SlotReconciliation
  import opened OrderManagement

  class OrderReconciliationService {
    const manager: OrderManager
    const exchange: ExchangeClient

    constructor (manager: OrderManager, exchange: ExchangeClient)
      ensures this.manager == manager && this.exchange == exchange
    {
      this.manager := manager;
      this.exchange := exchange;
    }

    ghost predicate Valid()
      reads manager, manager.levels, exchange
    {
      manager.Valid() && |exchange.books| == manager.levels.Length
    }

    function Cfg(): Config {
      Config(manager.orderQuantity, exchange.step)
    }

    ghost function DeskAt(i: nat): Desk
      requires Valid() && i < manager.levels.Length
      reads manager, manager.levels, exchange
    {
      Desk(manager.CellAt(i), exchange.books[i])
    }

    method BookRemainder(cid: Cid, h: Option<Handle>, cum: Option<int>, price: Option<real>)
      returns (pending: Option<PendingFill>)
      requires Valid() && cid.level < manager.levels.Length && manager.Latest(cid)
      modifies manager, manager.levels
      ensures Valid() && manager.bySlot == old(manager.bySlot)
      ensures SlotReconciliation.Remainder(manager.CellAt(cid.level), pending)
           == SlotReconciliation.BookRemainder(old(manager.CellAt(cid.level)), manager.orderQuantity, cid, h, cum, price)
      ensures forall j :: 0 <= j < manager.levels.Length && j != cid.level ==> manager.CellAt(j) == old(manager.CellAt(j))
    {
      if cum.None? {
        return None;
      }
      var delta := manager.MarkBooked(cid, cum.value);
      if delta.None? {
        return None;
      }
      return Some(PendingFill(cum.value, delta.value, price, cid, h));
    }

    /** Write one lookup answer through the manager. */
    method ObserveLookup(cid: Cid, reply: Lookup) returns (outcome: SlotOutcome)
      requires Valid() && cid.level < manager.levels.Length && manager.Latest(cid)
      modifies manager, manager.levels
      ensures Valid() && manager.bySlot == old(manager.bySlot)
      ensures Observation(manager.CellAt(cid.level), outcome)
           == SlotReconciliation.ObserveLookup(old(manager.CellAt(cid.level)), manager.orderQuantity, cid, reply)
      ensures forall j :: 0 <= j < manager.levels.Length && j != cid.level ==> manager.CellAt(j) == old(manager.CellAt(j))
    {
      match reply
      case FoundOpen(row) =>
        manager.MarkOpen(cid, row.orderId);
        var partial := BookRemainder(cid, Some(row.orderId), row.executedQuantity, row.price);
        if partial.None? {
          return OpenOrder(row.orderId);
        }
        return PartiallyFilled(row.orderId, partial.value.cumQty, partial.value.delta, partial.value.executedPrice,
          cid);
      case FoundFilled(row) =>
        var cum := if row.executedQuantity.Some? then row.executedQuantity else row.quantity;
        var delta := manager.MarkFilled(cid, Some(row.orderId), cum);
        return FilledOrder(Some(row.orderId), cum, delta.GetOr(0), row.price, cid);
      case FoundCanceled(row) =>
        var pending := BookRemainder(cid, Some(row.orderId), row.executedQuantity, row.price);
        manager.MarkNotFound(cid);
        return SafeToRecreate(pending);
      case Absent =>
        manager.MarkNotFound(cid);
        return SafeToRecreate(None);
      case Unreachable =>
        manager.MarkState(cid, ExchangeUnavailable);
        return Unavailable(OtherReason);
    }

    method LookupByClientOrderId(cid: Cid, m: Move) returns (outcome: SlotOutcome)
      requires Valid() && cid.level < manager.levels.Length && manager.Latest(cid)
      modifies manager, manager.levels, exchange
      ensures Valid() && manager.bySlot == old(manager.bySlot)
      ensures Placement(DeskAt(cid.level), outcome) == LookupStep(old(DeskAt(cid.level)), Cfg(), cid, m)
      ensures forall j :: 0 <= j < manager.levels.Length && j != cid.level ==> DeskAt(j) == old(DeskAt(j))
    {
      var reply := exchange.QueryOrderByClientOrderId(cid, m);
      outcome := ObserveLookup(cid, reply);
    }

    method ClassifyHandleError(cid: Cid, e: HandleError) returns (outcome: SlotOutcome)
      requires Valid() && cid.level < manager.levels.Length && manager.Latest(cid)
      modifies manager, manager.levels
      ensures Valid()
      ensures Observation(manager.CellAt(cid.level), outcome)
           == SlotReconciliation.ClassifyHandleError(old(manager.CellAt(cid.level)), cid.side, e)
      ensures forall j :: 0 <= j < manager.levels.Length && j != cid.level ==> manager.CellAt(j) == old(manager.CellAt(j))
    {
      if e.CommandError? {
        if e.retryable {
          manager.MarkState(cid, ExchangeUnavailable);
          return Unavailable(OtherReason);
        }
        manager.MarkNotFound(cid);
        return SafeToRecreate(None);
      }
      if e.HttpError? && e.code == Some(404) {
        manager.MarkNotFound(cid);
        return SafeToRecreate(None);
      }
      manager.MarkState(cid, ExchangeUnavailable);
      return Unavailable(OtherReason);
    }

    /** Write one handle read through the manager. */
    method ObserveHandle(cid: Cid, h: Handle, reply: OrderReply) returns (outcome: SlotOutcome)
      requires Valid() && cid.level < manager.levels.Length && manager.Latest(cid)
      modifies manager, manager.levels
      ensures Valid()
      ensures Observation(manager.CellAt(cid.level), outcome)
           == SlotReconciliation.ObserveHandle(old(manager.CellAt(cid.level)), manager.orderQuantity, old(manager.records[cid]), h, reply)
      ensures forall j :: 0 <= j < manager.levels.Length && j != cid.level ==> manager.CellAt(j) == old(manager.CellAt(j))
    {
      match reply
      case Failed(e) =>
        outcome := ClassifyHandleError(cid, e);
      case OrderRow(status, id, cum, price) =>
        if status == RowFilled {
          var named := if id.Some? then id else Some(h);
          var delta := manager.MarkFilled(cid, named, cum);
          return FilledOrder(named, cum, delta.GetOr(0), price, cid);
        }
        var pending := BookRemainder(cid, Some(h), cum, price);
        if status == RowDead {
          manager.MarkNotFound(cid);
          return SafeToRecreate(pending);
        }
        manager.MarkOpen(cid, h);
        if pending.Some? {
          return PartiallyFilled(h, pending.value.cumQty, pending.value.delta, pending.value.executedPrice, cid);
        }
        return OpenOrder(h);
    }

    /** Verify a slot that carries a handle. */
    method CheckSlot(i: nat, side: Side, m: Move) returns (outcome: SlotOutcome)
      requires Valid() && i < manager.levels.Length
      modifies manager, manager.levels, exchange
      ensures Valid()
      ensures Placement(DeskAt(i), outcome) == SlotReconciliation.CheckSlot(old(DeskAt(i)), Cfg(), side, m)
      ensures forall j :: 0 <= j < manager.levels.Length && j != i ==> DeskAt(j) == old(DeskAt(j))
    {
      var record := manager.GetBySlot(i, side);
      if record.None? || record.value.orderId.None? {
        return SafeToRecreate(None);
      }
      var h := record.value.orderId.value;
      var reply := exchange.GetOrder(i, h, m);
      outcome := ObserveHandle(record.value.cid, h, reply);
    }

    /** The submission error path: adopt what the venue kept, or freeze. */
    method Recover(cid: Cid, reason: Reason, m: Move) returns (outcome: SlotOutcome)
      requires Valid() && cid.level < manager.levels.Length && manager.Latest(cid)
      modifies manager, manager.levels, exchange
      ensures Valid()
      ensures Placement(DeskAt(cid.level), outcome) == SlotReconciliation.Recover(old(DeskAt(cid.level)), Cfg(), cid, reason, m)
      ensures forall j :: 0 <= j < manager.levels.Length && j != cid.level ==> DeskAt(j) == old(DeskAt(j))
    {
      var recovered := LookupByClientOrderId(cid, m);
      if recovered.OpenOrder? || recovered.FilledOrder? || recovered.PartiallyFilled? {
        return recovered;
      }
      if recovered.SafeToRecreate? && recovered.pendingFill.Some? {
        return recovered;
      }
      manager.MarkState(cid, ExchangeUnavailable);
      return Unavailable(reason);
    }

    /** Create the order, or find out what a failed create left behind. */
    method Submit(cid: Cid, price: real, quantity: int, reduceOnly: bool, e: PlaceMoves) returns (outcome: SlotOutcome)
      requires Valid() && cid.level < manager.levels.Length && manager.Latest(cid)
      modifies manager, manager.levels, exchange
      ensures Valid()
      ensures Placement(DeskAt(cid.level), outcome)
           == SlotReconciliation.Submit(old(DeskAt(cid.level)), Cfg(), cid, price, quantity, reduceOnly, e)
      ensures forall j :: 0 <= j < manager.levels.Length && j != cid.level ==> DeskAt(j) == old(DeskAt(j))
    {
      var created := exchange.CreateOrder(cid, price, quantity, reduceOnly, e.create);
      if created.Created? {
        manager.MarkOpen(cid, created.orderId);
        return OpenOrder(created.orderId);
      }
      outcome := Recover(cid, created.reason, e.post);
    }

    /** Record the intent to submit, then ask the venue what it has under the id. */
    method LookBeforeCreate(cid: Cid, price: real, quantity: int, m: Move) returns (outcome: SlotOutcome)
      requires Valid() && cid.level < manager.levels.Length && cid == manager.IdFor(cid.level, cid.side)
      modifies manager, manager.levels, exchange
      ensures Valid() && manager.Latest(cid)
      ensures Placement(DeskAt(cid.level), outcome)
           == SlotReconciliation.LookBeforeCreate(old(DeskAt(cid.level)), Cfg(), cid, price, quantity, m)
      ensures forall j :: 0 <= j < manager.levels.Length && j != cid.level ==> DeskAt(j) == old(DeskAt(j))
    {
      manager.BeginSubmit(cid, price, quantity);
      manager.MarkState(cid, Submitting);
      outcome := LookupByClientOrderId(cid, m);
    }

    /** Past the boundary check: look before creating, persist the intent, submit. */
    method Attempt(cid: Cid, price: real, quantity: int, reduceOnly: bool, e: PlaceMoves) returns (outcome: SlotOutcome)
      requires Valid() && cid.level < manager.levels.Length && cid == manager.IdFor(cid.level, cid.side)
      modifies manager, manager.levels, exchange
      ensures Valid()
      ensures Placement(DeskAt(cid.level), outcome)
           == SlotReconciliation.Attempt(old(DeskAt(cid.level)), Cfg(), cid, price, quantity, reduceOnly, e)
      ensures forall j :: 0 <= j < manager.levels.Length && j != cid.level ==> DeskAt(j) == old(DeskAt(j))
    {
      var pre := LookBeforeCreate(cid, price, quantity, e.pre);
      if !pre.SafeToRecreate? || pre.pendingFill.Some? {
        return pre;
      }
      if !e.intentPersisted {
        manager.MarkState(cid, ExchangeUnavailable);
        return Unavailable(OtherReason);
      }
      outcome := Submit(cid, price, quantity, reduceOnly, e);
    }

    /** Adopt an already-live order under the slot's current id, or place one. */
    method EnsureSlotOrder(i: nat, side: Side, price: real, quantity: int, reduceOnly: bool, e: PlaceMoves)
      returns (outcome: SlotOutcome)
      requires Valid() && i < manager.levels.Length
      modifies manager, manager.levels, exchange
      ensures Valid()
      ensures Placement(DeskAt(i), outcome)
           == SlotReconciliation.EnsureSlotOrder(old(DeskAt(i)), Cfg(), i, side, price, quantity, reduceOnly, e)
      ensures forall j :: 0 <= j < manager.levels.Length && j != i ==> DeskAt(j) == old(DeskAt(j))
    {
      var cid := manager.IdFor(i, side);
      if e.boundary == OffTick {
        return Unavailable(OtherReason);
      }
      if e.boundary != Passed {
        manager.MarkState(cid, ExchangeUnavailable);
        return Unavailable(OtherReason);
      }
      outcome := Attempt(cid, price, quantity, reduceOnly, e);
    }
  }
}
