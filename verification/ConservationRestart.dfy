/**
 * Restarts and conservation: a restored level is conserved, and the startup pass
 * keeps it so exactly when no restored handle turns out to be a dead order with
 * executions still to book. Then startup is the same as polling both sides.
 */
module ConservationRestart {
  import opened Options
  import opened OrderState
  import opened LevelMachine
  import opened Venue
  import opened SlotReconciliation
  import opened Ledger
  import opened LevelRuns
  import opened Tiling
  import opened TilingRuns
  import opened SingleOrder
  import opened SingleOrderRuns
  import opened Conservation
  import opened ConservationRuns

  /** A restart from the level's own snapshot, before any order is looked at. */
  function Reloaded(w: World, cfg: Config, i: nat): World {
    w.(desk := w.desk.(cell := Restored(w.desk.cell.level, cfg.orderQuantity, i)))
  }

  lemma RestoredConserved(w: World, cfg: Config, i: nat)
    requires Conserved(w, cfg, i)
    ensures Conserved(Reloaded(w, cfg, i), cfg, i)
    ensures var l := w.desk.cell.level;
      var l' := Reloaded(w, cfg, i).desk.cell.level;
      && l'.Held() == l.Held() && l'.entryPrice == l.entryPrice && l'.price == l.price
      && l'.IsExitOnly() == l.IsExitOnly() && l'.filled == l.filled
      && l'.buyOrderId == l.buyOrderId && l'.sellOrderId == l.sellOrderId
      && l'.Gen(Buy) == l.Gen(Buy) && l'.Gen(Sell) == l.Gen(Sell)
  {
    var c' := Restored(w.desk.cell.level, cfg.orderQuantity, i);
    RestoredKept(w, cfg, i);
    RestoredView(w, cfg.orderQuantity, i, Buy);
    RestoredView(w, cfg.orderQuantity, i, Sell);
    SoundByView(w.desk.cell, c', w.desk.book, i, Buy, cfg.step);
    SoundByView(w.desk.cell, c', w.desk.book, i, Sell, cfg.step);
  }

  // ----- one side of the startup pass -----

  /** Executions of a dead order behind a restored handle that the ledger does not have yet. */
  function DeadFill(d: Desk, cfg: Config, i: nat, side: Side, m: Move): int {
    var h := d.cell.level.HandleOf(side);
    if h.None? || !m.reachable then 0
    else
      var b := EvolveAt(d.book, cfg.step, h.value.cid, m);
      if h.value.cid in b && b[h.value.cid].status == Dead then b[h.value.cid].cum - View(d.cell, i, side).booked else 0
  }

  function WithEntry(c: Cell, entry: Option<real>): Cell {
    c.(level := c.level.(entryPrice := entry))
  }

  lemma BookingIsPassive(c: Cell, q: int, side: Side, cum: int, entry: Option<real>)
    ensures MarkBooked(WithEntry(c, entry), q, side, cum)
         == Booking(WithEntry(MarkBooked(c, q, side, cum).cell, entry), MarkBooked(c, q, side, cum).delta)
  {}

  lemma LevelIsPassive(l: GridLevel, q: int, side: Side, delta: int, cum: int, entry: Option<real>)
    ensures l.(entryPrice := entry).WithHandle(side, None) == l.WithHandle(side, None).(entryPrice := entry)
    ensures ProjectFill(l.(entryPrice := entry), q, side, delta, cum) == ProjectFill(l, q, side, delta, cum).(entryPrice := entry)
    ensures l.(entryPrice := entry).BumpGen(side) == l.BumpGen(side).(entryPrice := entry)
  {}

  lemma FillingIsPassive(c: Cell, q: int, side: Side, h: Option<Handle>, cum: Option<int>, entry: Option<real>)
    ensures MarkFilled(WithEntry(c, entry), q, side, h, cum)
         == Booking(WithEntry(MarkFilled(c, q, side, h, cum).cell, entry), MarkFilled(c, q, side, h, cum).delta)
  {
    hide ProjectFill;
    match c.Rec(side)
    case None =>
    case Some(r) =>
      var total := TerminalCum(r, q, cum);
      var freed := c.level.WithHandle(r.cid.side, None);
      LevelIsPassive(c.level, q, r.cid.side, total - r.filledQty, total, entry);
      LevelIsPassive(freed, q, r.cid.side, total - r.filledQty, total, entry);
      LevelIsPassive(ProjectFill(freed, q, r.cid.side, total - r.filledQty, total), q, r.cid.side, 0, 0, entry);
  }

  lemma MarkingIsPassive(c: Cell, side: Side, h: Handle, st: RecordState, entry: Option<real>)
    ensures MarkNotFound(WithEntry(c, entry), side) == WithEntry(MarkNotFound(c, side), entry)
    ensures MarkOpen(WithEntry(c, entry), side, h) == WithEntry(MarkOpen(c, side, h), entry)
    ensures MarkState(WithEntry(c, entry), side, st) == WithEntry(MarkState(c, side, st), entry)
  {}

  lemma RemainderIsPassive(c: Cell, q: int, cid: Cid, h: Option<Handle>, cum: Option<int>, price: Option<real>,
                           entry: Option<real>)
    ensures var r := BookRemainder(c, q, cid, h, cum, price);
      BookRemainder(WithEntry(c, entry), q, cid, h, cum, price) == Remainder(WithEntry(r.cell, entry), r.pending)
  {
    if cum.Some? {
      BookingIsPassive(c, q, cid.side, cum.value, entry);
    }
  }

  /** No observation looks at the entry price. */
  lemma EntryIsPassive(c: Cell, q: int, r: OrderRecord, h: Handle, reply: OrderReply, entry: Option<real>)
    ensures var obs := ObserveHandle(c, q, r, h, reply);
      ObserveHandle(WithEntry(c, entry), q, r, h, reply) == Observation(WithEntry(obs.cell, entry), obs.outcome)
  {
    match reply
    case Failed(_) => MarkingIsPassive(c, r.cid.side, h, ExchangeUnavailable, entry);
    case OrderRow(status, id, cum, price) =>
      if status == RowFilled {
        FillingIsPassive(c, q, r.cid.side, if id.Some? then id else Some(h), cum, entry);
      } else {
        RemainderIsPassive(c, q, r.cid, Some(h), cum, price, entry);
        MarkingIsPassive(BookRemainder(c, q, r.cid, Some(h), cum, price).cell, r.cid.side, h, Open, entry);
      }
  }

  /** One side of the startup pass neither reads nor writes the entry price. */
  lemma ResolveIsPassive(d: Desk, cfg: Config, side: Side, m: Move, entry: Option<real>)
    ensures var p := ResolveSide(d, cfg, side, m);
      ResolveSide(d.(cell := WithEntry(d.cell, entry)), cfg, side, m) == Placement(p.desk.(cell := WithEntry(p.desk.cell, entry)), p.outcome)
  {
    var r := d.cell.Rec(side);
    if d.cell.level.HandleOf(side).Some? && r.Some? && r.value.orderId.Some? {
      var h := r.value.orderId.value;
      EntryIsPassive(d.cell, cfg.orderQuantity, r.value, h, HandleReply(EvolveAt(d.book, cfg.step, h.cid, m), h, m),
        entry);
    }
  }

  /** An outcome whose executions, if any, are already booked. */
  predicate Settles(o: SlotOutcome) {
    SegmentOf(o).None? || SegmentOf(o).value.delta <= QTY_EPSILON
  }

  lemma SettledBooksNothing(w: World, q: int, side: Side, o: SlotOutcome, fee: Option<real>)
    requires Settles(o)
    ensures BookOutcome(w, q, side, o, fee) == w && BookCollected(w, q, side, o, fee) == w
  {}

  /** What resolving one side amounts to, next to polling it. */
  ghost predicate Resolved(w: World, w': World, p: Placement, cfg: Config, i: nat, side: Side, m: Move, d: int,
                           fee: Option<real>) {
    && Conserved(w', cfg, i) && Advances(w, w', i, side, d, fee)
    && w' == BookOutcome(w.(desk := p.desk), cfg.orderQuantity, side, p.outcome, fee)
    && p.desk == Desk(WithEntry(w'.desk.cell, w.desk.cell.level.entryPrice), w'.desk.book)
    && w'.desk.cell.Rec(Other(side)) == w.desk.cell.Rec(Other(side))
    && View(w'.desk.cell, i, Other(side)) == View(w.desk.cell, i, Other(side)) && SameSide(w.desk.book, w'.desk.book, Other(side))
    && (d == 0 <==> Settles(p.outcome))
    && DeadFill(w.desk, cfg, i, side, m) == (if Collected(p.outcome) then 0 else d)
    && Pending(w'.desk.cell, w'.desk.book, i, Other(side)) == Pending(w.desk.cell, w.desk.book, i, Other(side))
    && 0 <= d <= Pending(w.desk.cell, w.desk.book, i, side)
    && (w.desk.cell.level.HandleOf(side).None? ==> d == 0)
  }

  /** What a truthful check says about a live slot. */
  lemma CheckOutcome(w: World, cfg: Config, i: nat, side: Side, m: Move)
    requires Conserved(w, cfg, i) && w.desk.cell.level.HandleOf(side).Some? && m.Honest()
    ensures var o := CheckSlot(w.desk, cfg, side, m).outcome;
      && DeadFill(w.desk, cfg, i, side, m) == (if o.SafeToRecreate? && o.pendingFill.Some? then o.pendingFill.value.delta else 0)
      && (o.SafeToRecreate? && o.pendingFill.Some? ==> o.pendingFill.value.delta > QTY_EPSILON)
  {
    var c := w.desk.cell;
    var h := c.level.HandleOf(side).value;
    var b := EvolveAt(w.desk.book, cfg.step, h.cid, m);
    ObservableAfter(w, c, w.desk.book, cfg, i, side, m);
    CheckSideIs(w, cfg, i, side, m, None);
    ClampsUnreachable(c, b, cfg, i, side);
    BookedExactly(c, b, cfg, i, side, w.rows);
  }

  lemma ResolveFacts(w: World, cfg: Config, i: nat, side: Side, m: Move, fee: Option<real>) returns (d: int)
    requires Conserved(w, cfg, i) && m.Honest()
    ensures Resolved(w, CheckSide(w, cfg, side, m, fee), ResolveSide(w.desk, cfg, side, m), cfg, i, side, m, d, fee)
  {
    if w.desk.cell.level.HandleOf(side).Some? {
      d := CheckResolved(w, cfg, i, side, m, fee);
    } else {
      d := 0;
      PendingSign(w.desk.cell, w.desk.book, i, side, cfg.step);
    }
  }

  /** A check, in the terms the startup pass needs. */
  lemma CheckAdvances(w: World, cfg: Config, i: nat, side: Side, m: Move, fee: Option<real>) returns (d: int)
    requires Conserved(w, cfg, i) && w.desk.cell.level.HandleOf(side).Some? && m.Honest()
    ensures var w' := CheckSide(w, cfg, side, m, fee);
      && Conserved(w', cfg, i) && Advances(w, w', i, side, d, fee) && SameSide(w.desk.book, w'.desk.book, Other(side))
      && View(w'.desk.cell, i, Other(side)) == View(w.desk.cell, i, Other(side))
      && Pending(w'.desk.cell, w'.desk.book, i, Other(side)) == Pending(w.desk.cell, w.desk.book, i, Other(side))
      && 0 <= d <= Pending(w.desk.cell, w.desk.book, i, side)
  {
    d := CheckConserved(w, cfg, i, side, m, fee);
    MovedApart(w, CheckSide(w, cfg, side, m, fee), cfg, i, side, d, fee);
  }

  lemma CheckResolved(w: World, cfg: Config, i: nat, side: Side, m: Move, fee: Option<real>) returns (d: int)
    requires Conserved(w, cfg, i) && w.desk.cell.level.HandleOf(side).Some? && m.Honest()
    ensures Resolved(w, CheckSide(w, cfg, side, m, fee), CheckSlot(w.desk, cfg, side, m), cfg, i, side, m, d, fee)
  {
    d := CheckAdvances(w, cfg, i, side, m, fee);
    var p := CheckSlot(w.desk, cfg, side, m);
    var w' := CheckSide(w, cfg, side, m, fee);
    CheckOutcome(w, cfg, i, side, m);
    CheckIsLocal(w.desk, cfg, side, m);
    CheckEntry(w, cfg, side, m);
    SegmentSize(w.(desk := p.desk), cfg.orderQuantity, side, p.outcome, d, fee);
    BookedParts(w.(desk := p.desk), cfg.orderQuantity, side, p.outcome, fee);
    EntryUndone(p.desk.cell, w'.desk.cell, w.desk.cell.level.entryPrice);
    DeadFillIs(p.outcome, d, DeadFill(w.desk, cfg, i, side, m));
  }

  lemma DeadFillIs(o: SlotOutcome, d: int, dead: int)
    requires dead == if o.SafeToRecreate? && o.pendingFill.Some? then o.pendingFill.value.delta else 0
    requires o.SafeToRecreate? && o.pendingFill.Some? ==> o.pendingFill.value.delta > QTY_EPSILON
    requires d == 0 ==> Settles(o)
    requires d > 0 ==> SegmentOf(o).Some? && SegmentOf(o).value.delta == d
    requires d >= 0 && (d > 0 ==> d > QTY_EPSILON)
    ensures dead == (if Collected(o) then 0 else d) && (d == 0 <==> Settles(o))
  {}

  lemma EntryUndone(c: Cell, c': Cell, entry: Option<real>)
    requires c' == WithEntry(c, c'.level.entryPrice) && c.level.entryPrice == entry
    ensures c == WithEntry(c', entry)
  {}

  /** A move of one side leaves what is pending on the other, and uses up at most what was pending. */
  lemma MovedApart(w: World, w': World, cfg: Config, i: nat, side: Side, d: int, fee: Option<real>)
    requires Conserved(w, cfg, i) && Moved(w, w', cfg, i, side, d, Pending(w.desk.cell, w.desk.book, i, side), fee)
    ensures Pending(w'.desk.cell, w'.desk.book, i, Other(side)) == Pending(w.desk.cell, w.desk.book, i, Other(side))
    ensures 0 <= d <= Pending(w.desk.cell, w.desk.book, i, side)
  {
    OtherSound(w.desk.cell, w'.desk.cell, w.desk.book, w'.desk.book, i, Other(side), cfg.step);
    PendingSign(w'.desk.cell, w'.desk.book, i, side, cfg.step);
  }

  /** A check leaves the entry price alone. */
  lemma CheckEntry(w: World, cfg: Config, side: Side, m: Move)
    ensures CheckSlot(w.desk, cfg, side, m).desk.cell.level.entryPrice == w.desk.cell.level.entryPrice
  {
    hide EvolveAt, HandleReply, BookRemainder, MarkFilled, MarkNotFound, MarkOpen, MarkState;
    match w.desk.cell.Rec(side)
    case None =>
    case Some(r) =>
      match r.orderId
      case None =>
      case Some(h) =>
        HandleEntry(w.desk.cell, cfg.orderQuantity, r, h, HandleReply(EvolveAt(w.desk.book, cfg.step, h.cid, m), h, m));
  }

  lemma HandleEntry(c: Cell, q: int, r: OrderRecord, h: Handle, reply: OrderReply)
    ensures ObserveHandle(c, q, r, h, reply).cell.level.entryPrice == c.level.entryPrice
  {
    match reply
    case Failed(_) => FreedEntry(c, r.cid.side);
    case OrderRow(RowFilled, id, cum, _) => FilledEntry(c, q, r.cid.side, if id.Some? then id else Some(h), cum);
    case OrderRow(_, _, cum, price) =>
      RemainderEntry(c, q, r.cid, Some(h), cum, price);
      var rest := BookRemainder(c, q, r.cid, Some(h), cum, price).cell;
      FreedEntry(rest, r.cid.side);
      assert MarkOpen(rest, r.cid.side, h).level.entryPrice == rest.level.entryPrice;
  }

  lemma FreedEntry(c: Cell, side: Side)
    ensures MarkNotFound(c, side).level.entryPrice == c.level.entryPrice
    ensures MarkState(c, side, ExchangeUnavailable).level.entryPrice == c.level.entryPrice
  {}

  lemma FilledEntry(c: Cell, q: int, side: Side, h: Option<Handle>, cum: Option<int>)
    ensures MarkFilled(c, q, side, h, cum).cell.level.entryPrice == c.level.entryPrice
  {}

  lemma RemainderEntry(c: Cell, q: int, cid: Cid, h: Option<Handle>, cum: Option<int>, price: Option<real>)
    ensures BookRemainder(c, q, cid, h, cum, price).cell.level.entryPrice == c.level.entryPrice
  {}

  /** What was recorded is what the outcome said. */
  lemma SegmentSize(w: World, q: int, side: Side, o: SlotOutcome, d: int, fee: Option<real>)
    requires |BookOutcome(w, q, side, o, fee).rows| == |w.rows| + (if d > 0 then 1 else 0)
    requires d > 0 ==> BookOutcome(w, q, side, o, fee).rows[|w.rows|].quantity == d
    ensures d == 0 ==> Settles(o)
    ensures d > 0 ==> SegmentOf(o).Some? && SegmentOf(o).value.delta == d
  {}

  // ----- the whole pass -----

  /** Booking one side's outcome after the other side was resolved, when that moved nothing, changes nothing. */
  lemma BookedLater(w: World, d1: Desk, d2: Desk, q: int, side: Side, o: SlotOutcome, fee: Option<real>)
    requires d2.cell.Rec(side) == d1.cell.Rec(side) && HeldQtyOf(d2.cell.level, q) == HeldQtyOf(d1.cell.level, q)
    requires d2.cell.level.entryPrice == d1.cell.level.entryPrice && d2.cell.level.price == d1.cell.level.price
    ensures var first := BookOutcome(w.(desk := d1), q, side, o, fee);
      BookOutcome(w.(desk := d2), q, side, o, fee)
        == first.(desk := d2.(cell := WithEntry(d2.cell, first.desk.cell.level.entryPrice)))
  {
    assert WithEntry(d2.cell, d2.cell.level.entryPrice) == d2.cell;
    hide BookSegment;
    match SegmentOf(o)
    case None =>
    case Some(s) => SegmentLater(d1.cell, d2.cell, q, side, s, fee);
  }

  lemma SegmentLater(c1: Cell, c2: Cell, q: int, side: Side, s: Segment, fee: Option<real>)
    requires c2.Rec(side) == c1.Rec(side) && HeldQtyOf(c2.level, q) == HeldQtyOf(c1.level, q)
    requires c2.level.entryPrice == c1.level.entryPrice && c2.level.price == c1.level.price
    ensures BookSegment(c2, q, side, s, fee).row == BookSegment(c1, q, side, s, fee).row
    ensures BookSegment(c2, q, side, s, fee).cell
         == WithEntry(c2, BookSegment(c1, q, side, s, fee).cell.level.entryPrice)
  {
    assert WithEntry(c2, c2.level.entryPrice) == c2;
  }

  function Polled(w: World, cfg: Config, mBuy: Move, mSell: Move, feeBuy: Option<real>, feeSell: Option<real>): World {
    CheckSide(CheckSide(w, cfg, Buy, mBuy, feeBuy), cfg, Sell, mSell, feeSell)
  }

  /** Nothing to book on the entry: the exit alone decides. */
  lemma StartupOfExit(w: World, cfg: Config, i: nat, mBuy: Move, mSell: Move, feeBuy: Option<real>,
                      feeSell: Option<real>) returns (d: int)
    requires Conserved(w, cfg, i) && mBuy.Honest() && mSell.Honest()
    requires Resolved(w, CheckSide(w, cfg, Buy, mBuy, feeBuy), ResolveSide(w.desk, cfg, Buy, mBuy), cfg, i, Buy, mBuy, 0, feeBuy)
    ensures var wb := CheckSide(w, cfg, Buy, mBuy, feeBuy);
      var dead := DeadFill(wb.desk, cfg, i, Sell, mSell);
      && Advances(w, Polled(w, cfg, mBuy, mSell, feeBuy, feeSell), i, Sell, d, feeSell)
      && Conserved(Polled(w, cfg, mBuy, mSell, feeBuy, feeSell), cfg, i)
      && dead == (if dead > 0 then d else 0)
      && (dead == 0 ==> Startup(w, cfg, mBuy, mSell, feeBuy, feeSell) == Polled(w, cfg, mBuy, mSell, feeBuy, feeSell))
      && (dead > 0 ==> Startup(w, cfg, mBuy, mSell, feeBuy, feeSell) == wb.(desk := ResolveSide(wb.desk, cfg, Sell, mSell).desk))
  {
    var b := ResolveSide(w.desk, cfg, Buy, mBuy);
    var wb := CheckSide(w, cfg, Buy, mBuy, feeBuy);
    SettledBooksNothing(w.(desk := b.desk), cfg.orderQuantity, Buy, b.outcome, feeBuy);
    assert wb == w.(desk := b.desk);
    d := ResolveFacts(wb, cfg, i, Sell, mSell, feeSell);
    ExitBooked(w, wb, cfg, i, mBuy, mSell, feeBuy, feeSell, d);
    AdvancesAcross(w, wb, CheckSide(wb, cfg, Sell, mSell, feeSell), i, d, feeSell);
  }

  /** When the entry's outcome owes nothing, the pass books the exit's outcome and no more. */
  lemma ExitBooked(w: World, wb: World, cfg: Config, i: nat, mBuy: Move, mSell: Move, feeBuy: Option<real>,
                   feeSell: Option<real>, d: int)
    requires var b := ResolveSide(w.desk, cfg, Buy, mBuy); Settles(b.outcome) && wb == w.(desk := b.desk)
    requires Resolved(wb, CheckSide(wb, cfg, Sell, mSell, feeSell), ResolveSide(wb.desk, cfg, Sell, mSell), cfg, i, Sell, mSell, d, feeSell)
    ensures var s := ResolveSide(wb.desk, cfg, Sell, mSell);
      && (Collected(s.outcome) || d == 0 ==>
            Startup(w, cfg, mBuy, mSell, feeBuy, feeSell) == CheckSide(wb, cfg, Sell, mSell, feeSell))
      && (!Collected(s.outcome) ==> Startup(w, cfg, mBuy, mSell, feeBuy, feeSell) == w.(desk := s.desk))
  {
    var b := ResolveSide(w.desk, cfg, Buy, mBuy);
    var s := ResolveSide(wb.desk, cfg, Sell, mSell);
    SettledBooksNothing(w.(desk := s.desk), cfg.orderQuantity, Buy, b.outcome, feeBuy);
    if Settles(s.outcome) {
      SettledBooksNothing(w.(desk := s.desk), cfg.orderQuantity, Sell, s.outcome, feeSell);
    }
  }

  /** The exit's segment is the whole pass's when the entry had none. */
  lemma AdvancesAcross(w: World, wb: World, w': World, i: nat, d: int, fee: Option<real>)
    requires Advances(wb, w', i, Sell, d, fee) && wb.rows == w.rows
    requires var l, l' := w.desk.cell.level, wb.desk.cell.level;
      && l'.Held() == l.Held() && l'.entryPrice == l.entryPrice && l'.price == l.price && l.Gen(Buy) <= l'.Gen(Buy)
      && View(wb.desk.cell, i, Sell) == View(w.desk.cell, i, Sell)
    ensures Advances(w, w', i, Sell, d, fee)
  {}

  lemma AdvanceThenStay(w: World, w1: World, w2: World, i: nat, side: Side, d: int, fee: Option<real>, still: Side,
                        other: Option<real>)
    requires Advances(w, w1, i, side, d, fee) && Advances(w1, w2, i, still, 0, other)
    requires SameSide(w1.desk.book, w2.desk.book, side)
    ensures Advances(w, w2, i, side, d, fee)
  {}

  /** Something to book on the entry: the exit has nothing, and is resolved in passing. */
  lemma StartupOfEntry(w: World, cfg: Config, i: nat, mBuy: Move, mSell: Move, feeBuy: Option<real>,
                       feeSell: Option<real>, d: int)
    requires Conserved(w, cfg, i) && mBuy.Honest() && mSell.Honest() && d > 0
    requires Resolved(w, CheckSide(w, cfg, Buy, mBuy, feeBuy), ResolveSide(w.desk, cfg, Buy, mBuy), cfg, i, Buy, mBuy, d, feeBuy)
    ensures var wb := CheckSide(w, cfg, Buy, mBuy, feeBuy);
      var s := ResolveSide(wb.desk, cfg, Sell, mSell);
      var dead := DeadFill(w.desk, cfg, i, Buy, mBuy);
      && DeadFill(wb.desk, cfg, i, Sell, mSell) == 0
      && Advances(w, Polled(w, cfg, mBuy, mSell, feeBuy, feeSell), i, Buy, d, feeBuy)
      && Conserved(Polled(w, cfg, mBuy, mSell, feeBuy, feeSell), cfg, i)
      && Polled(w, cfg, mBuy, mSell, feeBuy, feeSell) == wb.(desk := s.desk)
      && s.desk.cell.level.Held() == wb.desk.cell.level.Held()
      && (dead == 0 ==> Startup(w, cfg, mBuy, mSell, feeBuy, feeSell) == Polled(w, cfg, mBuy, mSell, feeBuy, feeSell))
      && (dead > 0 ==> Startup(w, cfg, mBuy, mSell, feeBuy, feeSell)
                       == w.(desk := s.desk.(cell := WithEntry(s.desk.cell, w.desk.cell.level.entryPrice))))
  {
    var q := cfg.orderQuantity;
    var b := ResolveSide(w.desk, cfg, Buy, mBuy);
    var wb := CheckSide(w, cfg, Buy, mBuy, feeBuy);
    var dSell := ResolveFacts(wb, cfg, i, Sell, mSell, feeSell);
    assert dSell == 0;
    AdvanceThenStay(w, wb, Polled(w, cfg, mBuy, mSell, feeBuy, feeSell), i, Buy, d, feeBuy, Sell, feeSell);
    var s := ResolveSide(wb.desk, cfg, Sell, mSell);
    SettledBooksNothing(wb.(desk := s.desk), q, Sell, s.outcome, feeSell);
    ResolveIsPassive(wb.desk, cfg, Sell, mSell, w.desk.cell.level.entryPrice);
    var late := s.desk.(cell := WithEntry(s.desk.cell, w.desk.cell.level.entryPrice));
    assert ResolveSide(b.desk, cfg, Sell, mSell) == Placement(late, s.outcome);
    EntryUndone(s.desk.cell, late.cell, s.desk.cell.level.entryPrice);
    SettledBooksNothing(w.(desk := late), q, Sell, s.outcome, feeSell);
    SettledBooksNothing(BookOutcome(w.(desk := late), q, Buy, b.outcome, feeBuy), q, Sell, s.outcome, feeSell);
    if Collected(b.outcome) {
      BookedLater(w, b.desk, late, q, Buy, b.outcome, feeBuy);
    }
  }

  /** What a dead order still owes depends only on its own slot. */
  lemma DeadFillIsLocal(d: Desk, d': Desk, cfg: Config, i: nat, side: Side, m: Move)
    requires View(d'.cell, i, side) == View(d.cell, i, side) && SameSide(d.book, d'.book, side)
    requires d.cell.level.HandleOf(side).Some? ==> d.cell.level.HandleOf(side).value.cid.side == side
    ensures DeadFill(d', cfg, i, side, m) == DeadFill(d, cfg, i, side, m)
  {}

  /** No restored handle turns out to be a dead order with executions still to book. */
  predicate CleanBoot(d: Desk, cfg: Config, i: nat, mBuy: Move, mSell: Move) {
    DeadFill(d, cfg, i, Buy, mBuy) == 0 && DeadFill(d, cfg, i, Sell, mSell) == 0
  }

  /**
   * What startup does to a conserved level. Unless a restored order turned out dead
   * with unbooked executions it is the same as polling both sides; otherwise the
   * level moves by those executions and the ledger does not.
   */
  lemma StartupFacts(w: World, cfg: Config, i: nat, mBuy: Move, mSell: Move, feeBuy: Option<real>,
                     feeSell: Option<real>)
    returns (side: Side, d: int)
    requires Conserved(w, cfg, i) && mBuy.Honest() && mSell.Honest()
    ensures var after := Startup(w, cfg, mBuy, mSell, feeBuy, feeSell);
      var polled := Polled(w, cfg, mBuy, mSell, feeBuy, feeSell);
      var dead := DeadFill(w.desk, cfg, i, side, if side == Buy then mBuy else mSell);
      && Conserved(polled, cfg, i) && Advances(w, polled, i, side, d, if side == Buy then feeBuy else feeSell)
      && DeadFill(w.desk, cfg, i, Other(side), if side == Buy then mSell else mBuy) == 0
      && (dead == 0 ==> after == polled)
      && (dead != 0 ==> dead == d > 0 && after.rows == w.rows && after.desk.cell.level.Held() == w.desk.cell.level.Held() + Signed(side, d))
  {
    d := ResolveFacts(w, cfg, i, Buy, mBuy, feeBuy);
    if d > 0 {
      side := Buy;
      EntryFacts(w, cfg, i, mBuy, mSell, feeBuy, feeSell, d);
    } else {
      side := Sell;
      d := ExitFacts(w, cfg, i, mBuy, mSell, feeBuy, feeSell);
    }
  }

  lemma EntryFacts(w: World, cfg: Config, i: nat, mBuy: Move, mSell: Move, feeBuy: Option<real>,
                   feeSell: Option<real>, d: int)
    requires Conserved(w, cfg, i) && mBuy.Honest() && mSell.Honest() && d > 0
    requires Resolved(w, CheckSide(w, cfg, Buy, mBuy, feeBuy), ResolveSide(w.desk, cfg, Buy, mBuy), cfg, i, Buy, mBuy, d, feeBuy)
    ensures var after := Startup(w, cfg, mBuy, mSell, feeBuy, feeSell);
      var polled := Polled(w, cfg, mBuy, mSell, feeBuy, feeSell);
      var dead := DeadFill(w.desk, cfg, i, Buy, mBuy);
      && Conserved(polled, cfg, i) && Advances(w, polled, i, Buy, d, feeBuy) && DeadFill(w.desk, cfg, i, Sell, mSell) == 0
      && (dead == 0 ==> after == polled)
      && (dead != 0 ==> dead == d > 0 && after.rows == w.rows && after.desk.cell.level.Held() == w.desk.cell.level.Held() + d)
  {
    CheckLocal(w, cfg, i, mBuy, feeBuy);
    DeadFillIsLocal(w.desk, CheckSide(w, cfg, Buy, mBuy, feeBuy).desk, cfg, i, Sell, mSell);
    StartupOfEntry(w, cfg, i, mBuy, mSell, feeBuy, feeSell, d);
  }

  lemma ExitFacts(w: World, cfg: Config, i: nat, mBuy: Move, mSell: Move, feeBuy: Option<real>, feeSell: Option<real>)
    returns (d: int)
    requires Conserved(w, cfg, i) && mBuy.Honest() && mSell.Honest()
    requires Resolved(w, CheckSide(w, cfg, Buy, mBuy, feeBuy), ResolveSide(w.desk, cfg, Buy, mBuy), cfg, i, Buy, mBuy, 0, feeBuy)
    ensures var after := Startup(w, cfg, mBuy, mSell, feeBuy, feeSell);
      var polled := Polled(w, cfg, mBuy, mSell, feeBuy, feeSell);
      var dead := DeadFill(w.desk, cfg, i, Sell, mSell);
      && Conserved(polled, cfg, i) && Advances(w, polled, i, Sell, d, feeSell) && DeadFill(w.desk, cfg, i, Buy, mBuy) == 0
      && (dead == 0 ==> after == polled)
      && (dead != 0 ==> dead == d > 0 && after.rows == w.rows && after.desk.cell.level.Held() == w.desk.cell.level.Held() - d)
  {
    CheckLocal(w, cfg, i, mBuy, feeBuy);
    DeadFillIsLocal(w.desk, CheckSide(w, cfg, Buy, mBuy, feeBuy).desk, cfg, i, Sell, mSell);
    d := StartupOfExit(w, cfg, i, mBuy, mSell, feeBuy, feeSell);
  }

  lemma CheckLocal(w: World, cfg: Config, i: nat, m: Move, fee: Option<real>)
    requires Conserved(w, cfg, i) && m.Honest()
    ensures var w' := CheckSide(w, cfg, Buy, m, fee);
      View(w'.desk.cell, i, Sell) == View(w.desk.cell, i, Sell) && SameSide(w.desk.book, w'.desk.book, Sell)
  {
    if w.desk.cell.level.buyOrderId.Some? {
      var d := CheckConserved(w, cfg, i, Buy, m, fee);
    }
  }
}
