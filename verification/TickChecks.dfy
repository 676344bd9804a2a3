/**
 * What a tick's checks put in the ledger, and what stopping a level leaves at the venue.
 */
module TickChecks {
  import opened Options
  import opened OrderState
  import opened LevelMachine
  import opened Venue
  import opened SlotReconciliation
  import opened Ledger
  import opened LevelRuns
  import opened ExitPricing
  import opened Tiling
  import opened SingleOrder
  import opened Conservation
  import opened ConservationRuns
  import opened ConservationTheorems
  import opened CancelledSlots
  import opened GridTrading
  import opened TickOrders

  // ----- checks that are due -----

  /** Every answer the level gets is true. */
  predicate Truthful(e: LevelEnv) { e.buy.Honest() && e.sell.Honest() && e.buyRead.Honest() && e.sellRead.Honest() }

  /** A check of the side is due, and the venue can be asked. */
  predicate Asked(e: LevelEnv, side: Side) {
    if side == Buy then e.buyDue && e.buyRead.reachable else e.sellDue && e.sellRead.reachable
  }

  /** The ledger has what the venue executed under the id. */
  ghost predicate CaughtUp(w: World, cid: Cid) { cid in w.desk.book && Booked(w.rows, cid) == w.desk.book[cid].cum }

  /** What happens on one side leaves the other side's handle, id, order and rows. */
  ghost predicate LeavesSide(w: World, w': World, i: nat, side: Side) {
    && View(w'.desk.cell, i, side) == View(w.desk.cell, i, side)
    && SameSide(w.desk.book, w'.desk.book, side)
    && forall cid: Cid :: cid.side == side ==> Booked(w'.rows, cid) == Booked(w.rows, cid)
  }

  lemma MovedLeaves(w: World, w': World, cfg: Config, i: nat, side: Side, d: int, room: int, fee: Option<real>)
    requires Moved(w, w', cfg, i, side, d, room, fee)
    ensures LeavesSide(w, w', i, Other(side))
  {
    if d > 0 {
      Append(w.rows, w'.rows[|w.rows|]);
    }
  }

  lemma CheckLeaves(w: World, cfg: Config, i: nat, side: Side, m: Move, fee: Option<real>)
    requires Conserved(w, cfg, i) && m.Honest()
    ensures Conserved(CheckSide(w, cfg, side, m, fee), cfg, i) && LeavesSide(w, CheckSide(w, cfg, side, m, fee), i, Other(side))
  {
    if w.desk.cell.level.HandleOf(side).Some? {
      var d := CheckConserved(w, cfg, i, side, m, fee);
      MovedLeaves(w, CheckSide(w, cfg, side, m, fee), cfg, i, side, d, Pending(w.desk.cell, w.desk.book, i, side), fee);
    }
  }

  lemma ExitLeavesEntry(w: World, cfg: Config, i: nat, mark: real, target: Option<real>, e: PlaceMoves, fee: Option<real>)
    requires Conserved(w, cfg, i) && e.Honest()
    ensures Conserved(ArmSell(w, cfg, i, mark, target, e, fee), cfg, i)
    ensures LeavesSide(w, ArmSell(w, cfg, i, mark, target, e, fee), i, Buy)
  {
    var d := SellTickConserved(w, cfg, i, mark, target, e, fee);
    ExitGuard(w, cfg, i, mark);
    if SellArmed(w.desk.cell.level, cfg.orderQuantity, mark) && target.Some? {
      ExitMoves(w, cfg, i, target.value, e, fee);
    }
    hide Conserved;
  }

  lemma ExitMoves(w: World, cfg: Config, i: nat, price: real, e: PlaceMoves, fee: Option<real>)
    requires Conserved(w, cfg, i) && e.Honest() && w.desk.cell.level.sellOrderId.None? && w.desk.cell.level.Held() > 0
    ensures LeavesSide(w, PlaceAndBook(w, cfg, i, Sell, price, w.desk.cell.level.Held(), e, fee), i, Buy)
  {
    LotGap(w.desk.cell.level.Held(), cfg.step);
    var d, room := EnsureMoves(w, cfg, i, Sell, price, w.desk.cell.level.Held(), true, e, fee);
    MovedLeaves(w, PlaceAndBook(w, cfg, i, Sell, price, w.desk.cell.level.Held(), e, fee), cfg, i, Sell, d, room, fee);
  }

  lemma StaysCaughtUp(w: World, w': World, i: nat, cid: Cid)
    requires CaughtUp(w, cid) && LeavesSide(w, w', i, cid.side)
    ensures CaughtUp(w', cid)
  {}

  /** A side left alone has the handle and the id it had. */
  lemma LeftAlone(w: World, w': World, i: nat, side: Side)
    requires LeavesSide(w, w', i, side)
    ensures w'.desk.cell.level.HandleOf(side) == w.desk.cell.level.HandleOf(side)
    ensures w'.desk.cell.IdFor(i, side) == w.desk.cell.IdFor(i, side)
  {}

  /**
   * After a tick that asked the venue about a live order, the ledger holds exactly what that order
   * has executed, whatever else the tick did.
   */
  lemma TickCatchesUp(w: World, cfg: Config, i: nat, mark: real, g: Geometry, exitPrice: Option<real>, e: LevelEnv, side: Side)
    requires Conserved(w, cfg, i) && g.tick > 0.0 && Truthful(e)
    requires w.desk.cell.level.HandleOf(side).Some? && Asked(e, side)
    ensures CaughtUp(TickLevel(w, cfg, i, mark, g, w.frozen, false, false, exitPrice, e), w.desk.cell.IdFor(i, side))
  {
    assert w.(frozen := w.frozen) == w;
    var armed := ArmLevel(w, cfg, i, mark, g, e);
    assert TickLevel(w, cfg, i, mark, g, w.frozen, false, false, exitPrice, e) == PollLevel(armed, cfg, e);
    var target := SellTargetPrice(w.desk.cell.level, g);
    hide TickLevel, Conserved, CheckSide, LeavesSide, CaughtUp, SellTargetPrice;
    if side == Buy {
      assert armed == ArmSell(w, cfg, i, mark, target, e.sell, e.sellFee);
      hide ArmLevel, ArmBuy, ArmSell;
      ExitLeavesEntry(w, cfg, i, mark, target, e.sell, e.sellFee);
      LeftAlone(w, armed, i, Buy);
      CheckedThen(armed, cfg, i, e);
    } else {
      assert armed == w;
      hide ArmLevel, ArmBuy, ArmSell;
      ThenChecked(w, cfg, i, e);
    }
  }

  lemma CheckedThen(w: World, cfg: Config, i: nat, e: LevelEnv)
    requires Conserved(w, cfg, i) && Truthful(e) && w.desk.cell.level.buyOrderId.Some? && Asked(e, Buy)
    ensures CaughtUp(PollLevel(w, cfg, e), w.desk.cell.IdFor(i, Buy))
  {
    hide Conserved, CheckSide, LeavesSide;
    var bought := CheckSide(w, cfg, Buy, e.buyRead, e.buyReadFee);
    PollCatchesUp(w, cfg, i, Buy, e.buyRead, e.buyReadFee);
    CheckLeaves(w, cfg, i, Buy, e.buyRead, e.buyReadFee);
    CheckLeaves(bought, cfg, i, Sell, e.sellRead, e.sellReadFee);
    StaysCaughtUp(bought, CheckSide(bought, cfg, Sell, e.sellRead, e.sellReadFee), i, w.desk.cell.IdFor(i, Buy));
  }

  lemma ThenChecked(w: World, cfg: Config, i: nat, e: LevelEnv)
    requires Conserved(w, cfg, i) && Truthful(e) && w.desk.cell.level.sellOrderId.Some? && Asked(e, Sell)
    ensures CaughtUp(PollLevel(w, cfg, e), w.desk.cell.IdFor(i, Sell))
  {
    hide Conserved, CheckSide, LeavesSide;
    var bought := CheckSide(w, cfg, Buy, e.buyRead, e.buyReadFee);
    CheckLeaves(w, cfg, i, Buy, e.buyRead, e.buyReadFee);
    LeftAlone(w, bought, i, Sell);
    PollCatchesUp(if e.buyDue then bought else w, cfg, i, Sell, e.sellRead, e.sellReadFee);
  }

  // ----- stopping -----

  /** Nothing rests at the venue under the handle. */
  predicate Over(b: Book, h: Handle) { h.cid in b && b[h.cid].status != Live }

  lemma FreedHandles(c: Cell, q: int, side: Side, h: Option<Handle>, cum: Option<int>)
    requires c.Rec(side).Some? && c.Rec(side).value.cid.side == side
    ensures MarkFilled(c, q, side, h, cum).cell.level.HandleOf(side).None?
    ensures MarkNotFound(c, side).level.HandleOf(side).None?
  {}

  lemma RemainderOwned(c: Cell, q: int, cid: Cid, h: Option<Handle>, cum: Option<int>, price: Option<real>)
    requires c.Rec(cid.side).Some? && c.Rec(cid.side).value.cid.side == cid.side
    ensures var c' := BookRemainder(c, q, cid, h, cum, price).cell;
      c'.Rec(cid.side).Some? && c'.Rec(cid.side).value.cid.side == cid.side
  {}

  /** A read that was answered, of an order that is over, frees the slot. */
  lemma ReadFrees(c: Cell, q: int, r: OrderRecord, h: Handle, b: Book, m: Move)
    requires c.Rec(r.cid.side) == Some(r) && m.Honest() && m.reachable
    requires h.cid in b && b[h.cid].status != Live
    ensures var obs := ObserveHandle(c, q, r, h, HandleReply(b, h, m));
      obs.cell.level.HandleOf(r.cid.side).None? && (obs.outcome.FilledOrder? || obs.outcome.SafeToRecreate?)
  {
    var side := r.cid.side;
    match HandleReply(b, h, m)
    case Failed(_) => FreedHandles(c, q, side, None, None);
    case OrderRow(RowFilled, id, cum, _) => FreedHandles(c, q, side, if id.Some? then id else Some(h), cum);
    case OrderRow(_, _, cum, price) =>
      RemainderOwned(c, q, r.cid, Some(h), cum, price);
      FreedHandles(BookRemainder(c, q, r.cid, Some(h), cum, price).cell, q, side, None, None);
  }

  lemma CheckFrees(w: World, cfg: Config, i: nat, side: Side, m: Move, fee: Option<real>)
    requires Conserved(w, cfg, i) && w.desk.cell.level.HandleOf(side).Some? && m.Honest() && m.reachable
    requires w.desk.cell.IdFor(i, side) in w.desk.book && w.desk.book[w.desk.cell.IdFor(i, side)].status != Live
    ensures var w' := CheckSide(w, cfg, side, m, fee);
      && ReconcileCancelledSlot(w, cfg, side, m, fee) == w' && w'.desk.cell.level.HandleOf(side).None?
      && w'.desk.book == w.desk.book
  {
    var h := w.desk.cell.level.HandleOf(side).value;
    var r := w.desk.cell.Rec(side).value;
    var b := EvolveAt(w.desk.book, cfg.step, h.cid, m);
    CheckedBook(w, cfg, i, side, m, fee);
    CheckSideIs(w, cfg, i, side, m, fee);
    assert w.desk.cell.Rec(side) == Some(r) && r.cid.side == side && h.cid == w.desk.cell.IdFor(i, side) && b == w.desk.book;
    hide Conserved, ObserveHandle, HandleReply, EvolveAt, BookSegment;
    ReadFrees(w.desk.cell, cfg.orderQuantity, r, h, b, m);
  }

  /** A confirmed cancel frees the slot, leaves nothing of its handle resting, and the other side alone. */
  lemma ConfirmedCancelFrees(w: World, cfg: Config, i: nat, side: Side, last: Move, m: Move, fee: Option<real>)
    requires Conserved(w, cfg, i) && m.Honest() && w.desk.cell.level.HandleOf(side).Some?
    ensures var w' := CancelSide(w, cfg, side, true, last, m, fee);
      && Conserved(w', cfg, i) && w'.desk.cell.level.HandleOf(side).None?
      && Over(w'.desk.book, w.desk.cell.level.HandleOf(side).value)
      && w'.desk.cell.level.HandleOf(Other(side)) == w.desk.cell.level.HandleOf(Other(side))
      && SameSide(w.desk.book, w'.desk.book, Other(side))
  {
    var canceled := CanceledWorld(w, cfg, side, last);
    var d := CancelConserved(w, cfg, i, side, true, last, m, fee);
    CanceledConserved(w, cfg, i, side, last);
    HandleNames(w, cfg, i, side);
    assert CancelSide(w, cfg, side, true, last, m, fee) == ReconcileCancelledSlot(canceled, cfg, side, m, fee);
    hide Conserved, CancelSide, CancelAt, ReconcileCancelledSlot;
    if m.reachable {
      CheckFrees(canceled, cfg, i, side, m, fee);
      CheckLeaves(canceled, cfg, i, side, m, fee);
      LeftAlone(canceled, CheckSide(canceled, cfg, side, m, fee), i, Other(side));
    } else {
      UnreadCancel(w, cfg, i, side, last, m, fee);
    }
  }

  lemma HandleNames(w: World, cfg: Config, i: nat, side: Side)
    requires Conserved(w, cfg, i) && w.desk.cell.level.HandleOf(side).Some?
    ensures w.desk.cell.level.HandleOf(side).value.cid == w.desk.cell.IdFor(i, side)
  {}

  /**
   * The drive's cancels at one level: frozen, it gives up its entry exactly when the cancel was confirmed,
   * nothing of that entry rests then, and the exit is left alone.
   */
  lemma DriveCancelsExactly(w: World, cfg: Config, i: nat, exitPrice: Option<real>, e: LevelEnv)
    requires Conserved(w, cfg, i) && e.cancelRead.Honest()
    ensures var w' := DriveLevel(w, cfg, i, true, true, false, exitPrice, e);
      var l, l' := w.desk.cell.level, w'.desk.cell.level;
      && w'.frozen && l'.buyOrderId == (if e.cancelOk then None else l.buyOrderId) && l'.sellOrderId == l.sellOrderId
      && (l.buyOrderId.Some? && e.cancelOk ==> Over(w'.desk.book, l.buyOrderId.value))
      && SameSide(w.desk.book, w'.desk.book, Sell)
  {
    FreezeConserved(w, cfg, i);
    CancelFreesExactly(w.(frozen := true), cfg, i, Buy, e.cancelOk, e.cancelLast, e.cancelRead, e.cancelFee);
    CancelStaysFrozen(w.(frozen := true), cfg, Buy, e.cancelOk, e.cancelLast, e.cancelRead, e.cancelFee);
    hide Conserved, CancelSide;
  }

  lemma CancelStaysFrozen(w: World, cfg: Config, side: Side, ok: bool, last: Move, m: Move, fee: Option<real>)
    ensures CancelSide(w, cfg, side, ok, last, m, fee).frozen == w.frozen
  {
    hide CheckSlot, BookSegment;
  }

  /**
   * Cancelling both sides of a level frees exactly the slots whose cancel was confirmed, so that the
   * unconfirmed ones are the handles that stay; and nothing of a freed handle rests at the venue.
   */
  lemma StopFreesExactly(w: World, cfg: Config, i: nat, e: CancelEnv)
    requires Conserved(w, cfg, i) && e.buyRead.Honest() && e.sellRead.Honest()
    ensures var w' := CancelBoth(w, cfg, e);
      var l, l' := w.desk.cell.level, w'.desk.cell.level;
      && l'.buyOrderId == (if e.buyOk then None else l.buyOrderId) && l'.sellOrderId == (if e.sellOk then None else l.sellOrderId)
      && Unconfirmed(l, e) == (if l'.buyOrderId.Some? then 1 else 0) + (if l'.sellOrderId.Some? then 1 else 0)
      && (l.buyOrderId.Some? && e.buyOk ==> Over(w'.desk.book, l.buyOrderId.value))
      && (l.sellOrderId.Some? && e.sellOk ==> Over(w'.desk.book, l.sellOrderId.value))
  {
    var b := CancelSide(w, cfg, Buy, e.buyOk, e.buyLast, e.buyRead, e.buyFee);
    CancelFreesExactly(w, cfg, i, Buy, e.buyOk, e.buyLast, e.buyRead, e.buyFee);
    CancelFreesExactly(b, cfg, i, Sell, e.sellOk, e.sellLast, e.sellRead, e.sellFee);
  }

  lemma CancelFreesExactly(w: World, cfg: Config, i: nat, side: Side, ok: bool, last: Move, m: Move, fee: Option<real>)
    requires Conserved(w, cfg, i) && m.Honest()
    ensures var w' := CancelSide(w, cfg, side, ok, last, m, fee);
      var h := w.desk.cell.level.HandleOf(side);
      && Conserved(w', cfg, i) && w'.desk.cell.level.HandleOf(side) == (if ok then None else h)
      && (h.Some? && ok ==> Over(w'.desk.book, h.value) && h.value.cid.side == side)
      && w'.desk.cell.level.HandleOf(Other(side)) == w.desk.cell.level.HandleOf(Other(side))
      && SameSide(w.desk.book, w'.desk.book, Other(side))
  {
    if w.desk.cell.level.HandleOf(side).Some? && ok {
      ConfirmedCancelFrees(w, cfg, i, side, last, m, fee);
      HandleNames(w, cfg, i, side);
    }
  }
}
