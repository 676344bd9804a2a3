/**
 * Tiling over whole runs, restarts included: from a fresh level, whatever the
 * venue does and answers, the ledger stays tiled and agrees with every slot.
 */
module TilingRuns {
  import opened Options
  import opened OrderState
  import opened LevelMachine
  import opened Venue
  import opened SlotReconciliation
  import opened Ledger
  import opened LevelRuns
  import opened Tiling

  // ----- restart -----

  /** A restored slot remembers its handle, its generation and what it booked. */
  lemma RestoredKept(w: World, cfg: Config, i: nat)
    requires Coherent(w, i)
    ensures CellCoherent(Restored(w.desk.cell.level, cfg.orderQuantity, i), w.rows, i)
  {}

  /** Rows agree in everything tiling looks at. */
  ghost predicate SameShape(a: seq<Row>, b: seq<Row>) {
    |a| == |b| && forall k :: 0 <= k < |a| ==>
      a[k].cid == b[k].cid && a[k].from == b[k].from && a[k].to == b[k].to && a[k].quantity == b[k].quantity
  }

  lemma {:induction false} ShapeKeepsSums(a: seq<Row>, b: seq<Row>, cid: Cid)
    requires SameShape(a, b)
    ensures Booked(a, cid) == Booked(b, cid)
  {
    if a != [] {
      ShapeKeepsSums(a[..|a| - 1], b[..|b| - 1], cid);
    }
  }

  lemma {:induction false} ShapeKeepsTiling(a: seq<Row>, b: seq<Row>)
    requires SameShape(a, b) && Tiled(a)
    ensures Tiled(b)
  {
    if a != [] {
      ShapeKeepsTiling(a[..|a| - 1], b[..|b| - 1]);
      ShapeKeepsSums(a[..|a| - 1], b[..|b| - 1], a[|a| - 1].cid);
    }
  }

  /** Coherence looks at neither prices, money nor the level's entry. */
  lemma ShapeKeepsCoherence(c: Cell, c': Cell, a: seq<Row>, b: seq<Row>, i: nat)
    requires CellCoherent(c, a, i) && SameShape(a, b)
    requires c' == c.(level := c'.level) && c'.level == c.level.(entryPrice := c'.level.entryPrice)
    ensures CellCoherent(c', b, i)
  {
    ShapeKeepsTiling(a, b);
    forall cid ensures Booked(a, cid) == Booked(b, cid) {
      ShapeKeepsSums(a, b, cid);
    }
  }

  /** The rows an outcome adds when it is booked on a cell. */
  function RowsAdded(c: Cell, q: int, side: Side, o: SlotOutcome, fee: Option<real>): seq<Row> {
    match SegmentOf(o)
    case None => []
    case Some(s) =>
      var e := BookSegment(c, q, side, s, fee);
      if e.row.Some? then [e.row.value] else []
  }

  lemma BookedParts(w: World, q: int, side: Side, o: SlotOutcome, fee: Option<real>)
    ensures var after := BookOutcome(w, q, side, o, fee);
      && after.rows == w.rows + RowsAdded(w.desk.cell, q, side, o, fee)
      && after.desk.cell == w.desk.cell.(level := w.desk.cell.level.(entryPrice := after.desk.cell.level.entryPrice))
      && after.desk.book == w.desk.book && after.frozen == w.frozen
  {}

  /** Two cells with the same record in a slot add rows of one shape for it. */
  lemma SameRows(c: Cell, c': Cell, q: int, side: Side, o: SlotOutcome, fee: Option<real>)
    requires c.Rec(side) == c'.Rec(side)
    ensures SameShape(RowsAdded(c, q, side, o, fee), RowsAdded(c', q, side, o, fee))
  {}

  /** Dropping a dying order's remainder leaves the ledger tiled: its id is spent either way. */
  lemma DyingUnbooked(c: Cell, q: int, i: nat, side: Side, cum: int, rows: seq<Row>)
    requires CellCoherent(c, rows, i) && c.Current(i, side)
    ensures CellCoherent(MarkNotFound(MarkBooked(c, q, side, cum).cell, side), rows, i)
  {
    hide Tiled;
  }

  lemma DeadUnbooked(w: World, cfg: Config, i: nat, side: Side, m: Move)
    requires Coherent(w, i) && w.desk.cell.level.HandleOf(side).Some?
    requires CheckSlot(w.desk, cfg, side, m).outcome.SafeToRecreate?
    ensures CellCoherent(CheckSlot(w.desk, cfg, side, m).desk.cell, w.rows, i)
  {
    var c := w.desk.cell;
    var h := c.level.HandleOf(side).value;
    match HandleReply(EvolveAt(w.desk.book, cfg.step, h.cid, m), h, m)
    case Failed(_) => NotFoundKept(c, i, side, w.rows);
    case OrderRow(status, _, cum, _) =>
      assert status == RowDead;
      if cum.Some? {
        DyingUnbooked(c, cfg.orderQuantity, i, side, cum.value, w.rows);
      } else {
        NotFoundKept(c, i, side, w.rows);
      }
  }

  /** The rows the startup pass will add for one side's outcome. */
  function Owed(c: Cell, q: int, side: Side, o: SlotOutcome, fee: Option<real>): seq<Row> {
    if Collected(o) then RowsAdded(c, q, side, o, fee) else []
  }

  /** One side of the startup pass, with the rows it will add once collected. */
  lemma ResolveKept(w: World, cfg: Config, i: nat, side: Side, m: Move, fee: Option<real>)
    requires Coherent(w, i)
    ensures var p := ResolveSide(w.desk, cfg, side, m);
      && CellCoherent(p.desk.cell, w.rows + Owed(p.desk.cell, cfg.orderQuantity, side, p.outcome, fee), i)
      && p.desk.cell.Rec(Other(side)) == w.desk.cell.Rec(Other(side))
  {
    var p := ResolveSide(w.desk, cfg, side, m);
    if w.desk.cell.level.HandleOf(side).Some? {
      if Collected(p.outcome) {
        CheckKept(w, cfg, i, side, m, fee);
        var after := BookOutcome(w.(desk := p.desk), cfg.orderQuantity, side, p.outcome, fee);
        BookedParts(w.(desk := p.desk), cfg.orderQuantity, side, p.outcome, fee);
        ShapeKeepsCoherence(after.desk.cell, p.desk.cell, after.rows, after.rows, i);
      } else {
        ResolveUnbooked(w, cfg, i, side, m);
        assert w.rows + [] == w.rows;
      }
      CheckIsLocal(w.desk, cfg, side, m);
    } else {
      assert w.rows + [] == w.rows;
    }
  }

  /** An outcome the pass does not collect. */
  lemma ResolveUnbooked(w: World, cfg: Config, i: nat, side: Side, m: Move)
    requires Coherent(w, i) && w.desk.cell.level.HandleOf(side).Some?
    requires !Collected(CheckSlot(w.desk, cfg, side, m).outcome)
    ensures CellCoherent(CheckSlot(w.desk, cfg, side, m).desk.cell, w.rows, i)
  {
    var p := CheckSlot(w.desk, cfg, side, m);
    if p.outcome.SafeToRecreate? {
      DeadUnbooked(w, cfg, i, side, m);
    } else {
      CheckKept(w, cfg, i, side, m, None);
      NothingToBook(w.(desk := p.desk), cfg.orderQuantity, side, p.outcome, None);
    }
  }

  /** A check of one side leaves the other side's record alone. */
  lemma CheckIsLocal(d: Desk, cfg: Config, side: Side, m: Move)
    requires d.cell.Rec(side).Some? ==> d.cell.Rec(side).value.cid.side == side
    ensures CheckSlot(d, cfg, side, m).desk.cell.Rec(Other(side)) == d.cell.Rec(Other(side))
  {}

  /** Collecting on a later cell with the same record in the slot adds rows of the owed shape. */
  lemma CollectedParts(w: World, c: Cell, q: int, side: Side, o: SlotOutcome, fee: Option<real>)
    requires c.Rec(side) == w.desk.cell.Rec(side)
    ensures var after := BookCollected(w, q, side, o, fee);
      && SameShape(after.rows, w.rows + Owed(c, q, side, o, fee))
      && after.desk.cell == w.desk.cell.(level := w.desk.cell.level.(entryPrice := after.desk.cell.level.entryPrice))
  {
    BookedParts(w, q, side, o, fee);
    SameRows(w.desk.cell, c, q, side, o, fee);
  }

  lemma StartupKept(w: World, cfg: Config, i: nat, mBuy: Move, mSell: Move, feeBuy: Option<real>, feeSell: Option<real>)
    requires Coherent(w, i)
    ensures Coherent(Startup(w, cfg, mBuy, mSell, feeBuy, feeSell), i)
  {
    var q := cfg.orderQuantity;
    var b := ResolveSide(w.desk, cfg, Buy, mBuy);
    var s := ResolveSide(b.desk, cfg, Sell, mSell);
    var owedBuy := Owed(b.desk.cell, q, Buy, b.outcome, feeBuy);
    var owedSell := Owed(s.desk.cell, q, Sell, s.outcome, feeSell);
    ResolveKept(w, cfg, i, Buy, mBuy, feeBuy);
    ResolveKept(w.(desk := b.desk, rows := w.rows + owedBuy), cfg, i, Sell, mSell, feeSell);
    var resolved := w.(desk := s.desk);
    var bought := BookCollected(resolved, q, Buy, b.outcome, feeBuy);
    var sold := BookCollected(bought, q, Sell, s.outcome, feeSell);
    CollectedParts(resolved, b.desk.cell, q, Buy, b.outcome, feeBuy);
    CollectedParts(bought, s.desk.cell, q, Sell, s.outcome, feeSell);
    ShapeKeepsCoherence(s.desk.cell, sold.desk.cell, w.rows + owedBuy + owedSell, sold.rows, i);
  }

  // ----- events -----

  lemma CancelKept(w: World, cfg: Config, i: nat, side: Side, confirmed: bool, last: Move, m: Move, fee: Option<real>)
    requires Coherent(w, i)
    ensures Coherent(CancelSide(w, cfg, side, confirmed, last, m, fee), i)
  {
    var h := w.desk.cell.level.HandleOf(side);
    if h.Some? && confirmed {
      var canceled := w.(desk := w.desk.(book := CancelAt(w.desk.book, cfg.step, h.value, last)));
      CheckKept(canceled, cfg, i, side, m, fee);
      CheckStays(canceled, cfg, i, side, m, fee);
      var p := CheckSlot(canceled.desk, cfg, side, m);
      var booked := BookOutcome(canceled.(desk := p.desk), cfg.orderQuantity, side, p.outcome, fee);
      if !p.outcome.FilledOrder? && !p.outcome.SafeToRecreate? {
        NotFoundKept(booked.desk.cell, i, side, booked.rows);
      }
    }
  }

  lemma ExitOnlyKept(c: Cell, rows: seq<Row>, i: nat)
    requires CellCoherent(c, rows, i)
    ensures CellCoherent(MarkExitOnly(c), rows, i)
  {}

  lemma BuyTickKept(w: World, cfg: Config, i: nat, mark: real, e: PlaceMoves, fee: Option<real>)
    requires Coherent(w, i)
    ensures Coherent(ArmBuy(w, cfg, i, mark, e, fee), i)
  {
    var l := w.desk.cell.level;
    if BuyArmed(l, cfg.orderQuantity, mark, w.frozen) {
      var quantity := BuyRemainder(l, cfg.orderQuantity);
      var p := EnsureSlotOrder(w.desk, cfg, i, Buy, l.price, quantity, false, e);
      EnsureKept(w, cfg, i, Buy, l.price, quantity, false, e, fee);
      if LocksExitOnly(p.outcome, quantity, cfg.orderQuantity) {
        NothingToBook(w.(desk := p.desk), cfg.orderQuantity, Buy, p.outcome, fee);
        ExitOnlyKept(p.desk.cell, w.rows, i);
      }
    }
  }

  lemma SellPlacedKept(w: World, cfg: Config, i: nat, price: real, quantity: int, e: PlaceMoves, fee: Option<real>)
    requires Coherent(w, i) && w.desk.cell.level.sellOrderId.None?
    ensures Coherent(PlaceAndBook(w, cfg, i, Sell, price, quantity, e, fee), i)
  {
    EnsureKept(w, cfg, i, Sell, price, quantity, true, e, fee);
  }

  /** Every event keeps the ledger and the slots coherent. */
  lemma StepKept(w: World, cfg: Config, i: nat, e: Event)
    requires Coherent(w, i)
    ensures Coherent(Step(w, cfg, i, e), i)
  {
    match e
    case VenueMoves(_, _, _) =>
    case BuyTick(mark, place, fee) => BuyTickKept(w, cfg, i, mark, place, fee);
    case SellTick(mark, target, place, fee) =>
      if SellArmed(w.desk.cell.level, cfg.orderQuantity, mark) && target.Some? {
        SellPlacedKept(w, cfg, i, target.value, ExitQuantity(w.desk.cell.level, cfg.orderQuantity), place, fee);
      }
    case Poll(side, m, fee) =>
      if w.desk.cell.level.HandleOf(side).Some? {
        CheckKept(w, cfg, i, side, m, fee);
      }
    case Cancel(side, confirmed, last, m, fee) => CancelKept(w, cfg, i, side, confirmed, last, m, fee);
    case Freeze =>
    case StopExit(price, place, fee) =>
      if price.Some? && w.desk.cell.level.sellOrderId.None? {
        SellPlacedKept(w, cfg, i, price.value, HeldQtyOf(w.desk.cell.level, cfg.orderQuantity), place, fee);
      }
    case Reboot(mb, ms, fb, fs) =>
      RestoredKept(w, cfg, i);
      StartupKept(w.(desk := w.desk.(cell := Restored(w.desk.cell.level, cfg.orderQuantity, i))), cfg, i, mb, ms, fb,
        fs);
  }

  /**
   * Segments tile, over every run: for every client order id the booked segments are
   * contiguous from 0, and they sum to the cumulative the slot's record has booked
   * while the id is current.
   */
  lemma {:induction false} SegmentsTile(price: real, cfg: Config, i: nat, events: seq<Event>, cid: Cid)
    ensures var w := Run(FreshWorld(price, cfg.orderQuantity, i), cfg, i, events);
      && Coherent(w, i)
      && Contiguous(RowsOf(w.rows, cid), 0, Booked(w.rows, cid))
      && (w.desk.cell.level.HandleOf(cid.side).Some? && cid == w.desk.cell.IdFor(i, cid.side) ==>
            Booked(w.rows, cid) == w.desk.cell.Rec(cid.side).value.filledQty)
      && (w.desk.cell.level.HandleOf(cid.side).None? && cid == w.desk.cell.IdFor(i, cid.side) ==> Booked(w.rows, cid) == 0)
  {
    var w0 := FreshWorld(price, cfg.orderQuantity, i);
    RunKept(w0, cfg, i, events);
    TiledIsContiguous(Run(w0, cfg, i, events).rows, cid);
  }

  lemma {:induction false} RunKept(w: World, cfg: Config, i: nat, events: seq<Event>)
    requires Coherent(w, i)
    ensures Coherent(Run(w, cfg, i, events), i)
  {
    if events != [] {
      RunKept(w, cfg, i, events[..|events| - 1]);
      StepKept(Run(w, cfg, i, events[..|events| - 1]), cfg, i, events[|events| - 1]);
    }
  }
}
