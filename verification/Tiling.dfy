/**
 * The ledger tiles every order, whatever the venue answers: true, false, repeated,
 * regressing or absent cumulatives, seen live, terminal, dying, after a lost
 * create response or at startup.
 */
module Tiling {
  import opened Options
  import opened OrderState
  import opened LevelMachine
  import opened Venue
  import opened SlotReconciliation
  import opened Ledger
  import opened LevelRuns

  /**
   * One slot agrees with the ledger: its current id has exactly its record's booked
   * cumulative on the books, nothing when it has no live handle, and no id still to
   * come has anything.
   */
  ghost predicate SideCoherent(c: Cell, rows: seq<Row>, i: nat, side: Side) {
    var rec := c.Rec(side);
    var current := c.Current(i, side);
    && (rec.Some? ==> rec.value.cid.SlotOf() == Slot(i, side) && rec.value.cid.gen <= c.level.Gen(side))
    && (c.level.HandleOf(side).Some? ==> current && rec.value.orderId == c.level.HandleOf(side))
    && (current ==> rec.value.filledQty == 0 || (c.level.HandleOf(side).Some? && rec.value.filledQty > QTY_EPSILON))
    && (current ==> c.level.CumOf(side).GetOr(0) == rec.value.filledQty)
    && Booked(rows, c.IdFor(i, side)) == (if current then rec.value.filledQty else 0)
    && (forall g :: g > c.level.Gen(side) ==> Booked(rows, Cid(i, side, g)) == 0)
  }

  ghost predicate CellCoherent(c: Cell, rows: seq<Row>, i: nat) {
    Tiled(rows) && SideCoherent(c, rows, i, Buy) && SideCoherent(c, rows, i, Sell)
  }

  ghost predicate Coherent(w: World, i: nat) {
    CellCoherent(w.desk.cell, w.rows, i)
  }

  function Other(side: Side): Side { if side == Buy then Sell else Buy }

  /** Appending the row an observation owes keeps the other slot coherent. */
  lemma OtherSideKept(c: Cell, c': Cell, rows: seq<Row>, r: Row, i: nat, side: Side)
    requires SideCoherent(c, rows, i, Other(side))
    requires c'.Rec(Other(side)) == c.Rec(Other(side))
    requires c'.level.HandleOf(Other(side)) == c.level.HandleOf(Other(side))
    requires c'.level.Gen(Other(side)) == c.level.Gen(Other(side))
    requires c'.level.CumOf(Other(side)) == c.level.CumOf(Other(side))
    requires r.cid.SlotOf() == Slot(i, side)
    ensures SideCoherent(c', rows + [r], i, Other(side))
  {
    Append(rows, r);
  }

  /** The row booked for a delta on top of a slot's cumulative continues its order's segments. */
  lemma RowContinues(c: Cell, q: int, s: Segment, fee: Option<real>, rows: seq<Row>, before: int)
    requires s.delta > QTY_EPSILON && before >= 0
    requires Tiled(rows) && Booked(rows, s.cid) == before
    requires s.cumQty == Some(before + s.delta)
          || (s.cumQty.None? && c.Rec(s.cid.side).Some? && c.Rec(s.cid.side).value.filledQty == before + s.delta)
    ensures var e := BookSegment(c, q, s.cid.side, s, fee);
      && e.row.Some? && e.row.value.cid == s.cid && e.row.value.quantity == s.delta
      && Tiled(rows + [e.row.value])
      && e.cell == c.(level := c.level.(entryPrice := e.cell.level.entryPrice))
  {
    Append(rows, BookSegment(c, q, s.cid.side, s, fee).row.value);
  }

  /** A cumulative booked on a slot's current order, with the row it owes. */
  lemma BookedKept(c: Cell, q: int, i: nat, side: Side, cum: int, rows: seq<Row>, s: Segment, fee: Option<real>)
    requires CellCoherent(c, rows, i) && c.Current(i, side) && c.level.HandleOf(side).Some?
    requires MarkBooked(c, q, side, cum).delta == Some(s.delta)
    requires s.cid == c.IdFor(i, side) && s.cumQty == Some(cum)
    ensures var e := BookSegment(MarkBooked(c, q, side, cum).cell, q, side, s, fee);
      e.row.Some? && CellCoherent(e.cell, rows + [e.row.value], i)
  {
    var c' := MarkBooked(c, q, side, cum).cell;
    var e := BookSegment(c', q, side, s, fee);
    RowContinues(c', q, s, fee, rows, c.Rec(side).value.filledQty);
    OtherSideKept(c, e.cell, rows, e.row.value, i, side);
    Append(rows, e.row.value);
  }

  /** A terminal row: with the row it owes, the spent id is complete and the next id is untouched. */
  lemma FilledKept(c: Cell, q: int, i: nat, side: Side, h: Option<Handle>, cum: Option<int>, rows: seq<Row>,
                   s: Segment, fee: Option<real>)
    requires CellCoherent(c, rows, i) && c.Current(i, side)
    requires s.delta == MarkFilled(c, q, side, h, cum).delta.GetOr(0) && s.cid == c.IdFor(i, side) && s.cumQty == cum
    ensures var e := BookSegment(MarkFilled(c, q, side, h, cum).cell, q, side, s, fee);
      CellCoherent(e.cell, if e.row.Some? then rows + [e.row.value] else rows, i)
  {
    var c' := MarkFilled(c, q, side, h, cum).cell;
    var e := BookSegment(c', q, side, s, fee);
    if s.delta > QTY_EPSILON {
      RowContinues(c', q, s, fee, rows, c.Rec(side).value.filledQty);
      OtherSideKept(c, e.cell, rows, e.row.value, i, side);
      Append(rows, e.row.value);
    }
  }

  /** Freeing a slot spends the id exactly when it has something on the books. */
  lemma NotFoundKept(c: Cell, i: nat, side: Side, rows: seq<Row>)
    requires CellCoherent(c, rows, i) && c.Current(i, side)
    ensures CellCoherent(MarkNotFound(c, side), rows, i)
  {}

  /** A dying row: its remainder is booked, then the slot is freed. */
  lemma DyingKept(c: Cell, q: int, i: nat, side: Side, cum: int, rows: seq<Row>, s: Segment, fee: Option<real>)
    requires CellCoherent(c, rows, i) && c.Current(i, side)
    requires MarkBooked(c, q, side, cum).delta == Some(s.delta)
    requires s.cid == c.IdFor(i, side) && s.cumQty == Some(cum)
    ensures var e := BookSegment(MarkNotFound(MarkBooked(c, q, side, cum).cell, side), q, side, s, fee);
      e.row.Some? && CellCoherent(e.cell, rows + [e.row.value], i)
  {
    var c' := MarkNotFound(MarkBooked(c, q, side, cum).cell, side);
    var e := BookSegment(c', q, side, s, fee);
    RowContinues(c', q, s, fee, rows, c.Rec(side).value.filledQty);
    OtherSideKept(c, e.cell, rows, e.row.value, i, side);
    Append(rows, e.row.value);
  }

  lemma OpenKept(c: Cell, i: nat, side: Side, h: Handle, rows: seq<Row>)
    requires CellCoherent(c, rows, i) && c.Current(i, side)
    ensures CellCoherent(MarkOpen(c, side, h), rows, i)
    ensures MarkOpen(c, side, h).Current(i, side) && MarkOpen(c, side, h).level.HandleOf(side) == Some(h)
  {}

  /** A live row found by id: its handle is adopted, then its remainder is booked. */
  lemma FoundOpenKept(w: World, c: Cell, q: int, i: nat, side: Side, row: VenueRow, fee: Option<real>)
    requires CellCoherent(c, w.rows, i) && c.Current(i, side)
    ensures var o := ObserveLookup(c, q, c.IdFor(i, side), FoundOpen(row));
      Coherent(BookOutcome(w.(desk := w.desk.(cell := o.cell)), q, side, o.outcome, fee), i)
  {
    var o := ObserveLookup(c, q, c.IdFor(i, side), FoundOpen(row));
    OpenKept(c, i, side, row.orderId, w.rows);
    if o.outcome.PartiallyFilled? {
      BookedKept(MarkOpen(c, side, row.orderId), q, i, side, row.executedQuantity.value, w.rows,
        SegmentOf(o.outcome).value, fee);
    }
  }

  lemma FoundFilledKept(w: World, c: Cell, q: int, i: nat, side: Side, row: VenueRow, fee: Option<real>)
    requires CellCoherent(c, w.rows, i) && c.Current(i, side)
    ensures var o := ObserveLookup(c, q, c.IdFor(i, side), FoundFilled(row));
      Coherent(BookOutcome(w.(desk := w.desk.(cell := o.cell)), q, side, o.outcome, fee), i)
  {
    var o := ObserveLookup(c, q, c.IdFor(i, side), FoundFilled(row));
    var cum := if row.executedQuantity.Some? then row.executedQuantity else row.quantity;
    FilledKept(c, q, i, side, Some(row.orderId), cum, w.rows, SegmentOf(o.outcome).value, fee);
  }

  lemma FoundCanceledKept(w: World, c: Cell, q: int, i: nat, side: Side, row: VenueRow, fee: Option<real>)
    requires CellCoherent(c, w.rows, i) && c.Current(i, side)
    ensures var o := ObserveLookup(c, q, c.IdFor(i, side), FoundCanceled(row));
      Coherent(BookOutcome(w.(desk := w.desk.(cell := o.cell)), q, side, o.outcome, fee), i)
  {
    var o := ObserveLookup(c, q, c.IdFor(i, side), FoundCanceled(row));
    if o.outcome.pendingFill.Some? {
      DyingKept(c, q, i, side, row.executedQuantity.value, w.rows, SegmentOf(o.outcome).value, fee);
    } else {
      NotFoundKept(c, i, side, w.rows);
    }
  }

  /** Whatever a lookup answers, booking its outcome keeps the level coherent. */
  lemma LookupKept(w: World, c: Cell, q: int, i: nat, side: Side, reply: Lookup, fee: Option<real>)
    requires CellCoherent(c, w.rows, i) && c.Current(i, side)
    ensures var o := ObserveLookup(c, q, c.IdFor(i, side), reply);
      Coherent(BookOutcome(w.(desk := w.desk.(cell := o.cell)), q, side, o.outcome, fee), i)
  {
    hide SideCoherent, Tiled, MarkFilled, MarkBooked, MarkNotFound, MarkOpen, MarkState, BookSegment;
    match reply
    case FoundOpen(row) => FoundOpenKept(w, c, q, i, side, row, fee);
    case FoundFilled(row) => FoundFilledKept(w, c, q, i, side, row, fee);
    case FoundCanceled(row) => FoundCanceledKept(w, c, q, i, side, row, fee);
    case Absent => NotFoundKept(c, i, side, w.rows);
    case Unreachable => StateKept(c, i, side, ExchangeUnavailable, w.rows);
  }

  /** A live row read by handle: its remainder is booked and the handle stays. */
  lemma StillOpenKept(c: Cell, q: int, i: nat, side: Side, cum: int, rows: seq<Row>, s: Segment, fee: Option<real>)
    requires CellCoherent(c, rows, i) && c.level.HandleOf(side).Some?
    requires MarkBooked(c, q, side, cum).delta == Some(s.delta)
    requires s.cid == c.IdFor(i, side) && s.cumQty == Some(cum)
    ensures var e := BookSegment(MarkOpen(MarkBooked(c, q, side, cum).cell, side, c.level.HandleOf(side).value), q,
          side, s, fee);
      e.row.Some? && CellCoherent(e.cell, rows + [e.row.value], i)
  {
    var c' := MarkOpen(MarkBooked(c, q, side, cum).cell, side, c.level.HandleOf(side).value);
    var e := BookSegment(c', q, side, s, fee);
    RowContinues(c', q, s, fee, rows, c.Rec(side).value.filledQty);
    OtherSideKept(c, e.cell, rows, e.row.value, i, side);
    Append(rows, e.row.value);
  }

  lemma FilledRowKept(w: World, q: int, i: nat, side: Side, id: Option<Handle>, cum: Option<int>,
                      price: Option<real>, fee: Option<real>)
    requires Coherent(w, i) && w.desk.cell.level.HandleOf(side).Some?
    ensures var c := w.desk.cell;
      var o := ObserveHandle(c, q, c.Rec(side).value, c.level.HandleOf(side).value, OrderRow(RowFilled, id, cum, price));
      Coherent(BookOutcome(w.(desk := w.desk.(cell := o.cell)), q, side, o.outcome, fee), i)
  {
    assert w.desk.cell.Current(i, side);
    hide SideCoherent, Tiled, MarkFilled, MarkBooked, MarkNotFound, MarkOpen;
    var c := w.desk.cell;
    var h := c.level.HandleOf(side).value;
    var o := ObserveHandle(c, q, c.Rec(side).value, h, OrderRow(RowFilled, id, cum, price));
    FilledKept(c, q, i, side, if id.Some? then id else Some(h), cum, w.rows, SegmentOf(o.outcome).value, fee);
  }

  lemma DeadRowKept(w: World, q: int, i: nat, side: Side, id: Option<Handle>, cum: Option<int>,
                    price: Option<real>, fee: Option<real>)
    requires Coherent(w, i) && w.desk.cell.level.HandleOf(side).Some?
    ensures var c := w.desk.cell;
      var o := ObserveHandle(c, q, c.Rec(side).value, c.level.HandleOf(side).value, OrderRow(RowDead, id, cum, price));
      Coherent(BookOutcome(w.(desk := w.desk.(cell := o.cell)), q, side, o.outcome, fee), i)
  {
    assert w.desk.cell.Current(i, side);
    hide SideCoherent, Tiled, MarkFilled, MarkBooked, MarkNotFound, MarkOpen;
    var c := w.desk.cell;
    var h := c.level.HandleOf(side).value;
    var o := ObserveHandle(c, q, c.Rec(side).value, h, OrderRow(RowDead, id, cum, price));
    if o.outcome.pendingFill.Some? {
      DyingKept(c, q, i, side, cum.value, w.rows, SegmentOf(o.outcome).value, fee);
    } else {
      NotFoundKept(c, i, side, w.rows);
    }
  }

  lemma LiveRowKept(w: World, q: int, i: nat, side: Side, id: Option<Handle>, cum: Option<int>,
                    price: Option<real>, fee: Option<real>)
    requires Coherent(w, i) && w.desk.cell.level.HandleOf(side).Some?
    ensures var c := w.desk.cell;
      var o := ObserveHandle(c, q, c.Rec(side).value, c.level.HandleOf(side).value, OrderRow(RowLive, id, cum, price));
      Coherent(BookOutcome(w.(desk := w.desk.(cell := o.cell)), q, side, o.outcome, fee), i)
  {
    assert w.desk.cell.Current(i, side);
    hide SideCoherent, Tiled, MarkFilled, MarkBooked, MarkNotFound, MarkOpen;
    var c := w.desk.cell;
    var h := c.level.HandleOf(side).value;
    var o := ObserveHandle(c, q, c.Rec(side).value, h, OrderRow(RowLive, id, cum, price));
    if o.outcome.PartiallyFilled? {
      StillOpenKept(c, q, i, side, cum.value, w.rows, SegmentOf(o.outcome).value, fee);
    } else {
      OpenKept(c, i, side, h, w.rows);
    }
  }

  lemma RowKept(w: World, q: int, i: nat, side: Side, status: RowStatus, id: Option<Handle>, cum: Option<int>,
                price: Option<real>, fee: Option<real>)
    requires Coherent(w, i) && w.desk.cell.level.HandleOf(side).Some?
    ensures var c := w.desk.cell;
      var o := ObserveHandle(c, q, c.Rec(side).value, c.level.HandleOf(side).value, OrderRow(status, id, cum, price));
      Coherent(BookOutcome(w.(desk := w.desk.(cell := o.cell)), q, side, o.outcome, fee), i)
  {
    match status
    case RowFilled => FilledRowKept(w, q, i, side, id, cum, price, fee);
    case RowDead => DeadRowKept(w, q, i, side, id, cum, price, fee);
    case RowLive => LiveRowKept(w, q, i, side, id, cum, price, fee);
  }

  /** Whatever a handle read answers, booking its outcome keeps the level coherent. */
  lemma HandleKept(w: World, q: int, i: nat, side: Side, reply: OrderReply, fee: Option<real>)
    requires Coherent(w, i) && w.desk.cell.level.HandleOf(side).Some?
    ensures var c := w.desk.cell;
      var o := ObserveHandle(c, q, c.Rec(side).value, c.level.HandleOf(side).value, reply);
      Coherent(BookOutcome(w.(desk := w.desk.(cell := o.cell)), q, side, o.outcome, fee), i)
  {
    assert w.desk.cell.Current(i, side);
    hide SideCoherent, Tiled, MarkNotFound, MarkState;
    match reply
    case Failed(_) =>
      NotFoundKept(w.desk.cell, i, side, w.rows);
      StateKept(w.desk.cell, i, side, ExchangeUnavailable, w.rows);
    case OrderRow(status, id, cum, price) => RowKept(w, q, i, side, status, id, cum, price, fee);
  }

  // ----- operations -----

  lemma BeginKept(c: Cell, i: nat, side: Side, price: real, quantity: int, rows: seq<Row>)
    requires CellCoherent(c, rows, i) && c.level.HandleOf(side).None?
    ensures var begun := MarkState(BeginSubmit(c, c.IdFor(i, side), price, quantity), side, Submitting);
      CellCoherent(begun, rows, i) && begun.Current(i, side) && begun.level.HandleOf(side).None?
      && begun.IdFor(i, side) == c.IdFor(i, side)
  {}

  /** A freed slot whose lookup booked nothing is ready for its create. */
  lemma LookupFrees(c: Cell, q: int, i: nat, side: Side, rows: seq<Row>, reply: Lookup)
    requires CellCoherent(c, rows, i) && c.Current(i, side) && c.Rec(side).value.filledQty == 0
    requires ObserveLookup(c, q, c.IdFor(i, side), reply).outcome == SafeToRecreate(None)
    ensures var freed := ObserveLookup(c, q, c.IdFor(i, side), reply).cell;
      CellCoherent(freed, rows, i) && freed.Current(i, side) && freed.IdFor(i, side) == c.IdFor(i, side)
      && freed.Rec(side).value.filledQty == 0 && freed.level.HandleOf(side).None?
  {
    NotFoundKept(c, i, side, rows);
    FreedEmpty(c, i, side);
    hide SideCoherent, Tiled, MarkFilled, MarkNotFound, MarkOpen, ProjectFill;
    if reply.FoundCanceled? && reply.row.executedQuantity.Some? {
      assert MarkBooked(c, q, side, reply.row.executedQuantity.value).cell == c;
    }
  }

  lemma FreedEmpty(c: Cell, i: nat, side: Side)
    requires c.Current(i, side) && c.Rec(side).value.filledQty == 0
    ensures var freed := MarkNotFound(c, side);
      && freed.Current(i, side) && freed.IdFor(i, side) == c.IdFor(i, side)
      && freed.Rec(side).value.filledQty == 0 && freed.level.HandleOf(side).None?
  {}

  lemma StateKept(c: Cell, i: nat, side: Side, st: RecordState, rows: seq<Row>)
    requires CellCoherent(c, rows, i)
    ensures CellCoherent(MarkState(c, side, st), rows, i)
  {}

  lemma RecoverKept(w: World, cfg: Config, i: nat, side: Side, reason: Reason, m: Move, fee: Option<real>)
    requires Coherent(w, i) && w.desk.cell.Current(i, side) && w.desk.cell.Rec(side).value.filledQty == 0
    ensures var p := Recover(w.desk, cfg, w.desk.cell.IdFor(i, side), reason, m);
      Coherent(BookOutcome(w.(desk := p.desk), cfg.orderQuantity, side, p.outcome, fee), i)
  {
    var cid := w.desk.cell.IdFor(i, side);
    var book := EvolveAt(w.desk.book, cfg.step, cid, m);
    var reply := LookupReply(book, cid, m);
    var seen := LookupStep(w.desk, cfg, cid, m);
    LookupKept(w.(desk := w.desk.(book := book)), w.desk.cell, cfg.orderQuantity, i, side, reply, fee);
    if SegmentOf(seen.outcome).None? {
      NothingToBook(w.(desk := seen.desk), cfg.orderQuantity, side, seen.outcome, fee);
      StateKept(seen.desk.cell, i, side, ExchangeUnavailable, w.rows);
    }
  }

  /** An outcome without executions books nothing. */
  lemma NothingToBook(w: World, q: int, side: Side, o: SlotOutcome, fee: Option<real>)
    requires SegmentOf(o).None?
    ensures BookOutcome(w, q, side, o, fee) == w
  {}

  lemma SubmitKept(w: World, cfg: Config, i: nat, side: Side, price: real, quantity: int, ro: bool, e: PlaceMoves,
                   fee: Option<real>)
    requires Coherent(w, i) && w.desk.cell.Current(i, side) && w.desk.cell.Rec(side).value.filledQty == 0
    ensures var p := Submit(w.desk, cfg, w.desk.cell.IdFor(i, side), price, quantity, ro, e);
      Coherent(BookOutcome(w.(desk := p.desk), cfg.orderQuantity, side, p.outcome, fee), i)
  {
    var cid := w.desk.cell.IdFor(i, side);
    var book := CreateBook(w.desk.book, cid, price, quantity, ro, e.create);
    match CreateAnswer(w.desk.book, cid, quantity, e.create)
    case Created(h) => OpenKept(w.desk.cell, i, side, h, w.rows);
    case Refused(reason) => RecoverKept(w.(desk := w.desk.(book := book)), cfg, i, side, reason, e.post, fee);
  }

  lemma EnsureKept(w: World, cfg: Config, i: nat, side: Side, price: real, quantity: int, ro: bool, e: PlaceMoves,
                   fee: Option<real>)
    requires Coherent(w, i) && w.desk.cell.level.HandleOf(side).None?
    ensures var p := EnsureSlotOrder(w.desk, cfg, i, side, price, quantity, ro, e);
      Coherent(BookOutcome(w.(desk := p.desk), cfg.orderQuantity, side, p.outcome, fee), i)
  {
    hide SideCoherent, Tiled, Submit, BookOutcome;
    var c := w.desk.cell;
    var p := EnsureSlotOrder(w.desk, cfg, i, side, price, quantity, ro, e);
    if SegmentOf(p.outcome).None? {
      NothingToBook(w.(desk := p.desk), cfg.orderQuantity, side, p.outcome, fee);
    }
    StateKept(c, i, side, ExchangeUnavailable, w.rows);
    if e.boundary == Passed {
      BeginKept(c, i, side, price, quantity, w.rows);
      var cid := c.IdFor(i, side);
      var begun := MarkState(BeginSubmit(c, cid, price, quantity), side, Submitting);
      var book := EvolveAt(w.desk.book, cfg.step, cid, e.pre);
      var reply := LookupReply(book, cid, e.pre);
      var pre := LookBeforeCreate(w.desk, cfg, cid, price, quantity, e.pre);
      LookupKept(w.(desk := Desk(begun, book)), begun, cfg.orderQuantity, i, side, reply, fee);
      if pre.outcome == SafeToRecreate(None) {
        LookupFrees(begun, cfg.orderQuantity, i, side, w.rows, reply);
        StateKept(pre.desk.cell, i, side, ExchangeUnavailable, w.rows);
        SubmitKept(w.(desk := pre.desk), cfg, i, side, price, quantity, ro, e, fee);
      }
    }
  }

  lemma CheckKept(w: World, cfg: Config, i: nat, side: Side, m: Move, fee: Option<real>)
    requires Coherent(w, i) && w.desk.cell.level.HandleOf(side).Some?
    ensures var p := CheckSlot(w.desk, cfg, side, m);
      Coherent(BookOutcome(w.(desk := p.desk), cfg.orderQuantity, side, p.outcome, fee), i)
  {
    var h := w.desk.cell.level.HandleOf(side).value;
    var book := EvolveAt(w.desk.book, cfg.step, h.cid, m);
    HandleKept(w.(desk := w.desk.(book := book)), cfg.orderQuantity, i, side, HandleReply(book, h, m), fee);
  }

  lemma StaysCurrent(c: Cell, q: int, i: nat, side: Side, cum: Option<int>, price: Option<real>, h: Handle)
    requires c.Current(i, side)
    ensures var rem := BookRemainder(c, q, c.IdFor(i, side), Some(h), cum, price);
      rem.cell.Current(i, side) && MarkOpen(rem.cell, side, h).Current(i, side)
    ensures MarkState(c, side, ExchangeUnavailable).Current(i, side)
  {}

  lemma BookingStays(w: World, q: int, i: nat, side: Side, o: SlotOutcome, fee: Option<real>)
    requires w.desk.cell.Current(i, side)
    ensures BookOutcome(w, q, side, o, fee).desk.cell.Current(i, side)
  {}

  /** A check that neither fills nor frees a slot leaves it on its current id. */
  lemma CheckStays(w: World, cfg: Config, i: nat, side: Side, m: Move, fee: Option<real>)
    requires Coherent(w, i) && w.desk.cell.level.HandleOf(side).Some?
    ensures var p := CheckSlot(w.desk, cfg, side, m);
      !p.outcome.FilledOrder? && !p.outcome.SafeToRecreate? ==>
        BookOutcome(w.(desk := p.desk), cfg.orderQuantity, side, p.outcome, fee).desk.cell.Current(i, side)
  {
    var h := w.desk.cell.level.HandleOf(side).value;
    var p := CheckSlot(w.desk, cfg, side, m);
    if !p.outcome.FilledOrder? && !p.outcome.SafeToRecreate? {
      match HandleReply(EvolveAt(w.desk.book, cfg.step, h.cid, m), h, m)
      case Failed(_) => StaysCurrent(w.desk.cell, cfg.orderQuantity, i, side, None, None, h);
      case OrderRow(_, _, cum, price) => StaysCurrent(w.desk.cell, cfg.orderQuantity, i, side, cum, price, h);
      BookingStays(w.(desk := p.desk), cfg.orderQuantity, i, side, p.outcome, fee);
    }
  }
}
