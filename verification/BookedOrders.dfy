/**
 * Which order a booked row stands for: against a truthful venue every row names the
 * venue's own handle, and is final exactly when that order is done.
 */
module BookedOrders {
  import opened Options
  import opened OrderState
  import opened LevelMachine
  import opened Venue
  import opened SlotReconciliation
  import opened Ledger
  import opened LevelRuns
  import opened SingleOrderRuns
  import opened ConservationRuns
  import opened CancelledSlots

  /** The row names the order the venue has under its id, and is final exactly when that order is done. */
  predicate Names(r: Row, b: Book) {
    r.cid in b && r.exchangeId == Some(Handle(r.cid, b[r.cid].instance)) && (r.terminal <==> b[r.cid].status == Done)
  }

  /** The same of a segment before it is booked. */
  predicate SegmentNames(o: SlotOutcome, cid: Cid, b: Book) {
    SegmentOf(o).Some? ==>
      var s := SegmentOf(o).value;
      s.cid == cid && cid in b && s.orderId == Some(Handle(cid, b[cid].instance)) && (s.terminal <==> b[cid].status == Done)
  }

  lemma LookupNames(c: Cell, q: int, cid: Cid, b: Book, m: Move)
    requires m.Honest()
    ensures SegmentNames(ObserveLookup(c, q, cid, LookupReply(b, cid, m)).outcome, cid, b)
  {}

  lemma ReadNames(c: Cell, q: int, r: OrderRecord, h: Handle, b: Book, m: Move)
    requires m.Honest() && r.cid == h.cid
    ensures SegmentNames(ObserveHandle(c, q, r, h, HandleReply(b, h, m)).outcome, h.cid, b)
  {}

  /** Rows booked since name their orders. */
  ghost predicate NewRowsName(w: World, w': World) {
    && |w.rows| <= |w'.rows|
    && forall k :: |w.rows| <= k < |w'.rows| ==> Names(w'.rows[k], w'.desk.book)
  }

  lemma BookingNames(w: World, q: int, side: Side, o: SlotOutcome, fee: Option<real>, cid: Cid)
    requires SegmentNames(o, cid, w.desk.book)
    ensures NewRowsName(w, BookOutcome(w, q, side, o, fee))
  {}

  lemma PlaceNames(w: World, cfg: Config, i: nat, side: Side, price: real, quantity: int, ro: bool, e: PlaceMoves)
    requires e.Honest()
    ensures var p := EnsureSlotOrder(w.desk, cfg, i, side, price, quantity, ro, e);
      SegmentNames(p.outcome, w.desk.cell.IdFor(i, side), p.desk.book)
  {
    if e.boundary == Passed {
      var cid := w.desk.cell.IdFor(i, side);
      var begun := MarkState(BeginSubmit(w.desk.cell, cid, price, quantity), side, Submitting);
      LookupNames(begun, cfg.orderQuantity, cid, EvolveAt(w.desk.book, cfg.step, cid, e.pre), e.pre);
      var pre := LookBeforeCreate(w.desk, cfg, cid, price, quantity, e.pre);
      hide LookBeforeCreate;
      var created := CreateBook(pre.desk.book, cid, price, quantity, ro, e.create);
      LookupNames(pre.desk.cell, cfg.orderQuantity, cid, EvolveAt(created, cfg.step, cid, e.post), e.post);
      hide ObserveLookup, LookupReply;
    }
  }

  lemma PlacedNames(w: World, cfg: Config, i: nat, side: Side, price: real, quantity: int, e: PlaceMoves, fee: Option<real>)
    requires e.Honest()
    ensures NewRowsName(w, PlaceAndBook(w, cfg, i, side, price, quantity, e, fee))
  {
    var p := EnsureSlotOrder(w.desk, cfg, i, side, price, quantity, side == Sell, e);
    PlaceNames(w, cfg, i, side, price, quantity, side == Sell, e);
    hide EnsureSlotOrder;
    BookingNames(w.(desk := p.desk), cfg.orderQuantity, side, p.outcome, fee, w.desk.cell.IdFor(i, side));
  }

  lemma EntryNames(w: World, cfg: Config, i: nat, mark: real, e: PlaceMoves, fee: Option<real>)
    requires e.Honest()
    ensures NewRowsName(w, ArmBuy(w, cfg, i, mark, e, fee))
  {
    PlacedNames(w, cfg, i, Buy, w.desk.cell.level.price, BuyRemainder(w.desk.cell.level, cfg.orderQuantity), e, fee);
    hide EnsureSlotOrder, BookOutcome;
  }

  lemma CheckNames(w: World, cfg: Config, i: nat, side: Side, m: Move, fee: Option<real>)
    requires Conserved(w, cfg, i) && m.Honest()
    ensures NewRowsName(w, CheckSide(w, cfg, side, m, fee))
  {
    if w.desk.cell.level.HandleOf(side).Some? {
      var h := w.desk.cell.level.HandleOf(side).value;
      var r := w.desk.cell.Rec(side).value;
      assert r.cid == h.cid;
      CheckSideIs(w, cfg, i, side, m, fee);
      var b := EvolveAt(w.desk.book, cfg.step, h.cid, m);
      var obs := ObserveHandle(w.desk.cell, cfg.orderQuantity, r, h, HandleReply(b, h, m));
      ReadNames(w.desk.cell, cfg.orderQuantity, r, h, b, m);
      hide ObserveHandle, HandleReply, EvolveAt, Conserved, CheckSide;
      BookingNames(w.(desk := Desk(obs.cell, b)), cfg.orderQuantity, side, obs.outcome, fee, h.cid);
    }
  }

  lemma CancelNames(w: World, cfg: Config, i: nat, side: Side, last: Move, m: Move, fee: Option<real>)
    requires Conserved(w, cfg, i) && m.Honest() && w.desk.cell.level.HandleOf(side).Some?
    ensures NewRowsName(w, CancelSide(w, cfg, side, true, last, m, fee))
  {
    var canceled := CanceledWorld(w, cfg, side, last);
    CanceledConserved(w, cfg, i, side, last);
    hide Conserved;
    CheckNames(canceled, cfg, i, side, m, fee);
    RowsOfCancel(w, cfg, side, last, m, fee);
    BookOfCancel(w, cfg, side, last, m, fee);
    hide CheckSide, CancelSide;
  }

  lemma BookOfCancel(w: World, cfg: Config, side: Side, last: Move, m: Move, fee: Option<real>)
    requires w.desk.cell.level.HandleOf(side).Some?
    ensures CancelSide(w, cfg, side, true, last, m, fee).desk.book == CheckSide(CanceledWorld(w, cfg, side, last), cfg, side, m, fee).desk.book
  {
    hide CheckSlot, BookOutcome, CancelAt;
  }

  /**
   * Whatever a truthful event books: every new row names the venue's own handle for its order, and is
   * final exactly when that order is done there.
   */
  lemma EveryRowNamesItsOrder(w: World, cfg: Config, i: nat, e: Event)
    requires Conserved(w, cfg, i) && HonestEvent(e) && !e.Reboot?
    ensures NewRowsName(w, Step(w, cfg, i, e))
  {
    hide Conserved, NewRowsName;
    match e
    case VenueMoves(_, _, _) => NothingNew(w, Step(w, cfg, i, e));
    case Freeze => NothingNew(w, Step(w, cfg, i, e));
    case BuyTick(mark, place, fee) => EntryNames(w, cfg, i, mark, place, fee);
    case SellTick(mark, target, place, fee) =>
      NothingNew(w, w);
      if target.Some? {
        PlacedNames(w, cfg, i, Sell, target.value, ExitQuantity(w.desk.cell.level, cfg.orderQuantity), place, fee);
      }
    case Poll(side, m, fee) => CheckNames(w, cfg, i, side, m, fee);
    case Cancel(side, confirmed, last, m, fee) =>
      NothingNew(w, w);
      if w.desk.cell.level.HandleOf(side).Some? && confirmed {
        CancelNames(w, cfg, i, side, last, m, fee);
      }
    case StopExit(price, place, fee) =>
      NothingNew(w, w);
      if price.Some? {
        PlacedNames(w, cfg, i, Sell, price.value, HeldQtyOf(w.desk.cell.level, cfg.orderQuantity), place, fee);
      }
    case Reboot(_, _, _, _) =>
  }

  lemma NothingNew(w: World, w': World)
    requires w'.rows == w.rows
    ensures NewRowsName(w, w')
  {}
}
