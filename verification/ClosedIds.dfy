/**
 * Ids the ledger is done with: once a generation is spent, and for entries once
 * the level is frozen with no entry live, no run books under them again, whatever
 * the venue answers.
 */
module ClosedIds {
  import opened Options
  import opened OrderState
  import opened LevelMachine
  import opened Venue
  import opened SlotReconciliation
  import opened Ledger
  import opened LevelRuns
  import opened Tiling
  import opened TilingRuns
  import opened LevelFrames

  /** The id's generation is spent, or it is an entry of a frozen level with no entry live. */
  ghost predicate Closed(w: World, cid: Cid) {
    || cid.gen < w.desk.cell.level.Gen(cid.side)
    || (cid.side == Buy && ExitPhase(w))
  }

  /** The id stays closed, with nothing more booked under it. */
  ghost predicate StaysClosed(w: World, w': World, cid: Cid) {
    Closed(w', cid) && Booked(w'.rows, cid) == Booked(w.rows, cid)
  }

  /** One slot's operation, as far as other ids can tell: it moves its own slot and books under its own id. */
  ghost predicate Confined(w: World, w': World, o: SlotOutcome, i: nat, side: Side) {
    && Kept(w.desk.cell.level, w'.desk.cell.level, side) && w'.frozen == w.frozen && w'.rows == w.rows
    && (SegmentOf(o).Some? ==> SegmentOf(o).value.cid == w.desk.cell.IdFor(i, side))
  }

  lemma BookStays(w: World, q: int, side: Side, o: SlotOutcome, fee: Option<real>, cid: Cid)
    requires Closed(w, cid) && (SegmentOf(o).Some? ==> SegmentOf(o).value.cid != cid)
    ensures StaysClosed(w, BookOutcome(w, q, side, o, fee), cid)
  {
    BookedParts(w, q, side, o, fee);
    var added := RowsAdded(w.desk.cell, q, side, o, fee);
    if added != [] {
      Append(w.rows, added[0]);
      assert [added[0]] == added;
    }
  }

  /**
   * A confined operation leaves a closed id closed; an entry of a frozen level is only reached through
   * its live handle.
   */
  lemma ConfinedStays(w: World, w': World, o: SlotOutcome, i: nat, side: Side, cid: Cid)
    requires Closed(w, cid) && cid.level == i && Confined(w, w', o, i, side)
    requires side == Buy ==> !ExitPhase(w)
    ensures Closed(w', cid) && (SegmentOf(o).Some? ==> SegmentOf(o).value.cid != cid)
  {}

  lemma PlacedStays(w: World, cfg: Config, i: nat, side: Side, price: real, quantity: int, e: PlaceMoves,
                    fee: Option<real>, cid: Cid)
    requires Coherent(w, i) && Closed(w, cid) && cid.level == i && (side == Buy ==> !ExitPhase(w))
    ensures StaysClosed(w, PlaceAndBook(w, cfg, i, side, price, quantity, e, fee), cid)
  {
    var p := EnsureSlotOrder(w.desk, cfg, i, side, price, quantity, side == Sell, e);
    EnsureFrame(w.desk, cfg, i, side, price, quantity, side == Sell, e);
    ConfinedStays(w, w.(desk := p.desk), p.outcome, i, side, cid);
    BookStays(w.(desk := p.desk), cfg.orderQuantity, side, p.outcome, fee, cid);
  }

  lemma BuyStays(w: World, cfg: Config, i: nat, mark: real, e: PlaceMoves, fee: Option<real>, cid: Cid)
    requires Coherent(w, i) && Closed(w, cid) && cid.level == i
    ensures StaysClosed(w, ArmBuy(w, cfg, i, mark, e, fee), cid)
  {
    var l := w.desk.cell.level;
    if BuyArmed(l, cfg.orderQuantity, mark, w.frozen) {
      var quantity := BuyRemainder(l, cfg.orderQuantity);
      PlacedStays(w, cfg, i, Buy, l.price, quantity, e, fee, cid);
      EnsureFrame(w.desk, cfg, i, Buy, l.price, quantity, false, e);
    }
  }

  /** A check of a live slot is confined to it. */
  lemma CheckConfined(w: World, cfg: Config, i: nat, side: Side, m: Move)
    requires Owned(w.desk.cell, i, side) && w.desk.cell.Current(i, side)
    ensures var p := CheckSlot(w.desk, cfg, side, m);
      Confined(w, w.(desk := p.desk), p.outcome, i, side) && Owned(p.desk.cell, i, side)
  {
    CheckFrame(w.desk, cfg, i, side, m);
  }

  lemma PolledStays(w: World, cfg: Config, i: nat, side: Side, m: Move, fee: Option<real>, cid: Cid)
    requires Coherent(w, i) && Closed(w, cid) && cid.level == i
    ensures StaysClosed(w, CheckSide(w, cfg, side, m, fee), cid)
  {
    if w.desk.cell.level.HandleOf(side).Some? {
      var p := CheckSlot(w.desk, cfg, side, m);
      CheckConfined(w, cfg, i, side, m);
      ConfinedStays(w, w.(desk := p.desk), p.outcome, i, side, cid);
      BookStays(w.(desk := p.desk), cfg.orderQuantity, side, p.outcome, fee, cid);
    }
  }

  lemma CancelledStays(w: World, cfg: Config, i: nat, side: Side, confirmed: bool, last: Move, m: Move,
                       fee: Option<real>, cid: Cid)
    requires Coherent(w, i) && Closed(w, cid) && cid.level == i
    ensures StaysClosed(w, CancelSide(w, cfg, side, confirmed, last, m, fee), cid)
  {
    var h := w.desk.cell.level.HandleOf(side);
    if h.Some? && confirmed {
      var canceled := w.(desk := w.desk.(book := CancelAt(w.desk.book, cfg.step, h.value, last)));
      PolledStays(canceled, cfg, i, side, m, fee, cid);
      FreedStays(canceled, cfg, i, side, m, fee, cid);
    }
  }

  /** Freeing the slot after the last check leaves the id closed. */
  lemma FreedStays(w: World, cfg: Config, i: nat, side: Side, m: Move, fee: Option<real>, cid: Cid)
    requires Owned(w.desk.cell, i, side) && StaysClosed(w, CheckSide(w, cfg, side, m, fee), cid)
    requires w.desk.cell.level.HandleOf(side).Some?
    ensures StaysClosed(w, ReconcileCancelledSlot(w, cfg, side, m, fee), cid)
  {
    hide CheckSlot, BookOutcome;
    var p := CheckSlot(w.desk, cfg, side, m);
    var checked := CheckSide(w, cfg, side, m, fee);
    CheckFrame(w.desk, cfg, i, side, m);
    BookedParts(w.(desk := p.desk), cfg.orderQuantity, side, p.outcome, fee);
    MarkedFrame(checked.desk.cell, i, side, Handle(cid, 0), Open);
  }

  lemma CollectedStays(w: World, q: int, side: Side, o: SlotOutcome, fee: Option<real>, cid: Cid)
    requires Closed(w, cid) && (SegmentOf(o).Some? ==> SegmentOf(o).value.cid != cid)
    ensures StaysClosed(w, BookCollected(w, q, side, o, fee), cid)
  {
    BookStays(w, q, side, o, fee, cid);
  }

  /** One side of the startup pass. */
  lemma ResolvedStays(w: World, cfg: Config, i: nat, side: Side, m: Move, cid: Cid)
    requires Owned(w.desk.cell, i, side) && (w.desk.cell.level.HandleOf(side).Some? ==> w.desk.cell.Current(i, side))
    requires Closed(w, cid) && cid.level == i
    ensures var p := ResolveSide(w.desk, cfg, side, m);
      && Closed(w.(desk := p.desk), cid) && (SegmentOf(p.outcome).Some? ==> SegmentOf(p.outcome).value.cid != cid)
      && Kept(w.desk.cell.level, p.desk.cell.level, side)
      && p.desk.cell.Rec(Other(side)) == w.desk.cell.Rec(Other(side))
  {
    if w.desk.cell.level.HandleOf(side).Some? {
      var p := CheckSlot(w.desk, cfg, side, m);
      CheckConfined(w, cfg, i, side, m);
      CheckIsLocal(w.desk, cfg, side, m);
      ConfinedStays(w, w.(desk := p.desk), p.outcome, i, side, cid);
    }
  }

  lemma StartupStays(w: World, cfg: Config, i: nat, mb: Move, ms: Move, fb: Option<real>, fs: Option<real>, cid: Cid)
    requires Coherent(w, i) && Closed(w, cid) && cid.level == i
    ensures StaysClosed(w, Startup(w, cfg, mb, ms, fb, fs), cid)
  {
    var q := cfg.orderQuantity;
    var b := ResolveSide(w.desk, cfg, Buy, mb);
    ResolvedStays(w, cfg, i, Buy, mb, cid);
    var s := ResolveSide(b.desk, cfg, Sell, ms);
    ResolvedStays(w.(desk := b.desk), cfg, i, Sell, ms, cid);
    var bought := BookCollected(w.(desk := s.desk), q, Buy, b.outcome, fb);
    CollectedStays(w.(desk := s.desk), q, Buy, b.outcome, fb, cid);
    CollectedStays(bought, q, Sell, s.outcome, fs, cid);
  }

  lemma StepStays(w: World, cfg: Config, i: nat, e: Event, cid: Cid)
    requires Coherent(w, i) && Closed(w, cid) && cid.level == i
    ensures StaysClosed(w, Step(w, cfg, i, e), cid)
  {
    hide Coherent, ArmBuy, PlaceAndBook, CheckSide, CancelSide, Startup;
    match e
    case VenueMoves(_, _, _) =>
    case BuyTick(mark, place, fee) => BuyStays(w, cfg, i, mark, place, fee, cid);
    case SellTick(mark, target, place, fee) =>
      if SellArmed(w.desk.cell.level, cfg.orderQuantity, mark) && target.Some? {
        PlacedStays(w, cfg, i, Sell, target.value, ExitQuantity(w.desk.cell.level, cfg.orderQuantity), place, fee, cid);
      }
    case Poll(side, m, fee) => PolledStays(w, cfg, i, side, m, fee, cid);
    case Cancel(side, confirmed, last, m, fee) => CancelledStays(w, cfg, i, side, confirmed, last, m, fee, cid);
    case Freeze =>
    case StopExit(price, place, fee) =>
      if price.Some? {
        PlacedStays(w, cfg, i, Sell, price.value, HeldQtyOf(w.desk.cell.level, cfg.orderQuantity), place, fee, cid);
      }
    case Reboot(mb, ms, fb, fs) =>
      RestoredKept(w, cfg, i);
      StartupStays(w.(desk := w.desk.(cell := Restored(w.desk.cell.level, cfg.orderQuantity, i))), cfg, i, mb, ms, fb,
        fs, cid);
  }

  /**
   * Over every run, restarts and false answers included: nothing more is ever booked under a
   * closed id.
   */
  lemma {:induction false} ClosedForGood(w: World, cfg: Config, i: nat, events: seq<Event>, cid: Cid)
    requires Coherent(w, i) && Closed(w, cid) && cid.level == i
    ensures StaysClosed(w, Run(w, cfg, i, events), cid)
  {
    hide Step, Closed;
    if events != [] {
      var earlier := events[..|events| - 1];
      ClosedForGood(w, cfg, i, earlier, cid);
      RunKept(w, cfg, i, earlier);
      StepStays(Run(w, cfg, i, earlier), cfg, i, events[|events| - 1], cid);
    }
  }
}
