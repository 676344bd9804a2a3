/**
 * Exits booked without a reported price: at the limit of their order as long as the
 * engine's record is the one its submission wrote, and at the line after a restart.
 */
module BookedExits {
  import opened Options
  import opened OrderState
  import opened LevelMachine
  import opened Venue
  import opened SlotReconciliation
  import opened Ledger
  import opened LevelRuns
  import opened Tiling
  import opened TilingRuns
  import opened LevelFrames
  import opened SingleOrderRuns
  import opened Conservation
  import opened ConservationRuns
  import opened ConservationTheorems
  import opened TickOrders
  import opened BookedPrices

  /** The engine's record of a live exit has the limit of its order for its price. */
  ghost predicate RecordTrue(w: World) {
    var h := w.desk.cell.level.sellOrderId;
    h.Some? ==>
      && w.desk.cell.Rec(Sell).Some? && h.value.cid in w.desk.book
      && w.desk.cell.Rec(Sell).value.price == w.desk.book[h.value.cid].limit
  }

  /** The event asks for an exit at the limit of whatever order it may find under the id. */
  predicate AsksAlike(w: World, i: nat, e: Event) {
    var cid := w.desk.cell.IdFor(i, Sell);
    cid in w.desk.book && (w.desk.book[cid].status != Dead || w.desk.book[cid].cum != 0) ==>
      match e
      case SellTick(_, target, _, _) => target == Some(w.desk.book[cid].limit)
      case StopExit(price, _, _) => price == Some(w.desk.book[cid].limit)
      case _ => true
  }

  /** The exit's handle, record and order limits are as they were, or the exit is gone. */
  ghost predicate ExitStands(w: World, w': World) {
    var h := w'.desk.cell.level.sellOrderId;
    h.Some? ==>
      && w.desk.cell.level.sellOrderId == h
      && (w.desk.cell.Rec(Sell).Some? ==> Asked(w'.desk.cell, Sell, w.desk.cell.Rec(Sell).value.price))
      && (h.value.cid in w.desk.book ==> h.value.cid in w'.desk.book && w'.desk.book[h.value.cid].limit == w.desk.book[h.value.cid].limit)
  }

  lemma StandsTrue(w: World, w': World)
    requires RecordTrue(w) && ExitStands(w, w')
    ensures RecordTrue(w')
  {}

  /** Nothing on the entry's side touches the exit's record. */
  lemma EntryLeavesRecord(d: Desk, cfg: Config, i: nat, price: real, quantity: int, e: PlaceMoves)
    requires Owned(d.cell, i, Buy)
    ensures EnsureSlotOrder(d, cfg, i, Buy, price, quantity, false, e).desk.cell.Rec(Sell) == d.cell.Rec(Sell)
  {
    var cid := d.cell.IdFor(i, Buy);
    var begun := MarkState(BeginSubmit(d.cell, cid, price, quantity), Buy, Submitting);
    var pre := LookBeforeCreate(d, cfg, cid, price, quantity, e.pre);
    LookupLeaves(begun, cfg.orderQuantity, cid, LookupReply(EvolveAt(d.book, cfg.step, cid, e.pre), cid, e.pre));
    var created := CreateBook(pre.desk.book, cid, price, quantity, false, e.create);
    LookupLeaves(pre.desk.cell, cfg.orderQuantity, cid, LookupReply(EvolveAt(created, cfg.step, cid, e.post), cid, e.post));
    hide ObserveLookup, LookupReply, CreateBook;
  }

  lemma LookupLeaves(c: Cell, q: int, cid: Cid, reply: Lookup)
    requires c.Rec(cid.side).Some? && c.Rec(cid.side).value.cid.side == cid.side
    ensures var c' := ObserveLookup(c, q, cid, reply).cell;
      && c'.Rec(Other(cid.side)) == c.Rec(Other(cid.side))
      && c'.Rec(cid.side).Some? && c'.Rec(cid.side).value.cid.side == cid.side
  {}

  lemma EntryStands(w: World, cfg: Config, i: nat, mark: real, e: PlaceMoves, fee: Option<real>)
    requires Conserved(w, cfg, i)
    ensures ExitStands(w, ArmBuy(w, cfg, i, mark, e, fee))
  {
    var l := w.desk.cell.level;
    var quantity := BuyRemainder(l, cfg.orderQuantity);
    HandleSides(w, cfg, i);
    OwnedSlots(w, cfg, i);
    hide Conserved, EnsureSlotOrder, BookOutcome;
    if BuyArmed(l, cfg.orderQuantity, mark, w.frozen) {
      var p := EnsureSlotOrder(w.desk, cfg, i, Buy, l.price, quantity, false, e);
      EntryLeavesRecord(w.desk, cfg, i, l.price, quantity, e);
      EnsureTouches(w.desk, cfg, i, Buy, l.price, quantity, false, e);
      EnsureFrame(w.desk, cfg, i, Buy, l.price, quantity, false, e);
      BookedParts(w.(desk := p.desk), cfg.orderQuantity, Buy, p.outcome, fee);
    }
  }

  lemma OwnedSlots(w: World, cfg: Config, i: nat)
    requires Conserved(w, cfg, i)
    ensures Owned(w.desk.cell, i, Buy) && Owned(w.desk.cell, i, Sell)
  {}

  /** A check of the exit leaves its handle or drops it. */
  lemma CheckLeaves(w: World, cfg: Config, i: nat, side: Side, m: Move)
    requires Coherent(w, i) && w.desk.cell.level.HandleOf(side).Some?
    ensures var l' := CheckSlot(w.desk, cfg, side, m).desk.cell.level;
      l'.HandleOf(side).Some? ==> l'.HandleOf(side) == w.desk.cell.level.HandleOf(side)
  {
    hide HandleReply, EvolveAt;
  }

  lemma CheckStands(w: World, cfg: Config, i: nat, side: Side, m: Move, fee: Option<real>)
    requires Conserved(w, cfg, i)
    ensures ExitStands(w, CheckSide(w, cfg, side, m, fee))
    ensures Owned(CheckSide(w, cfg, side, m, fee).desk.cell, i, side)
  {
    SideAges(w, cfg, i, side, m, fee);
    OwnedSlots(w, cfg, i);
    HandleSides(w, cfg, i);
    hide Conserved, Coherent, CheckSlot, BookOutcome;
    if w.desk.cell.level.HandleOf(side).Some? {
      CheckLeaves(w, cfg, i, side, m);
      var p := CheckSlot(w.desk, cfg, side, m);
      CheckCarries(w, cfg, i, side, m);
      CheckIsLocal(w.desk, cfg, side, m);
      CheckFrame(w.desk, cfg, i, side, m);
      BookedParts(w.(desk := p.desk), cfg.orderQuantity, side, p.outcome, fee);
    }
  }

  lemma FreedStands(w: World, cfg: Config, i: nat, side: Side, m: Move, fee: Option<real>)
    requires Conserved(w, cfg, i) && w.desk.cell.level.HandleOf(side).Some?
    ensures ExitStands(w, ReconcileCancelledSlot(w, cfg, side, m, fee))
  {
    CheckStands(w, cfg, i, side, m, fee);
    hide Conserved, CheckSlot, BookOutcome, MarkNotFound;
    FreedRecord(CheckSide(w, cfg, side, m, fee).desk.cell, i, side);
  }

  lemma FreedRecord(c: Cell, i: nat, side: Side)
    requires Owned(c, i, side)
    ensures var c' := MarkNotFound(c, side);
      && (c'.level.sellOrderId.Some? ==> c'.level.sellOrderId == c.level.sellOrderId)
      && (c.Rec(Sell).Some? ==> c'.Rec(Sell).Some? && c'.Rec(Sell).value.price == c.Rec(Sell).value.price)
  {}

  // ----- placements of exits -----

  /** The slot has no handle, or one of an order of that price, and records that price. */
  ghost predicate HoldsAt(c: Cell, b: Book, cid: Cid, price: real) {
    && Asked(c, Sell, price) && c.Rec(Sell).value.cid.side == Sell
    && (c.level.sellOrderId.Some? ==> c.level.sellOrderId.value.cid == cid && cid in b && b[cid].limit == price)
  }

  lemma LookTrue(c: Cell, q: int, cid: Cid, b: Book, m: Move, price: real)
    requires cid.side == Sell && HoldsAt(c, b, cid, price) && m.Honest()
    requires cid in b && b[cid].status == Live ==> b[cid].limit == price
    ensures HoldsAt(ObserveLookup(c, q, cid, LookupReply(b, cid, m)).cell, b, cid, price)
  {}

  /** What rests under the id has that price. */
  predicate RestsAt(b: Book, cid: Cid, price: real) { cid in b && b[cid].status == Live ==> b[cid].limit == price }

  lemma StillRestsAt(b: Book, step: nat, cid: Cid, m: Move, price: real)
    requires RestsAt(b, cid, price)
    ensures RestsAt(EvolveAt(b, step, cid, m), cid, price)
  {}

  lemma StepHolds(d: Desk, cfg: Config, cid: Cid, m: Move, price: real)
    requires cid.side == Sell && HoldsAt(d.cell, d.book, cid, price) && RestsAt(d.book, cid, price) && m.Honest()
    ensures var p := LookupStep(d, cfg, cid, m).desk;
      HoldsAt(p.cell, p.book, cid, price) && RestsAt(p.book, cid, price)
  {
    StillRestsAt(d.book, cfg.step, cid, m, price);
    LookTrue(d.cell, cfg.orderQuantity, cid, EvolveAt(d.book, cfg.step, cid, m), m, price);
    hide ObserveLookup, LookupReply;
  }

  lemma SubmitHolds(d: Desk, cfg: Config, cid: Cid, price: real, quantity: int, e: PlaceMoves)
    requires cid.side == Sell && HoldsAt(d.cell, d.book, cid, price) && RestsAt(d.book, cid, price) && e.Honest()
    requires d.cell.level.sellOrderId.None?
    ensures var p := Submit(d, cfg, cid, price, quantity, true, e).desk; HoldsAt(p.cell, p.book, cid, price)
  {
    StepHolds(Desk(d.cell, CreateBook(d.book, cid, price, quantity, true, e.create)), cfg, cid, e.post, price);
    hide LookupStep;
  }

  /** A placement ends without a handle, or holding an order of the price it asked for. */
  lemma EnsureHolds(d: Desk, cfg: Config, i: nat, price: real, quantity: int, e: PlaceMoves)
    requires d.cell.level.sellOrderId.None? && e.Honest() && RestsAt(d.book, d.cell.IdFor(i, Sell), price)
    ensures var p := EnsureSlotOrder(d, cfg, i, Sell, price, quantity, true, e).desk;
      p.cell.level.sellOrderId.None? || HoldsAt(p.cell, p.book, d.cell.IdFor(i, Sell), price)
  {
    var cid := d.cell.IdFor(i, Sell);
    if e.boundary == Passed {
      StepHolds(d.(cell := MarkState(BeginSubmit(d.cell, cid, price, quantity), Sell, Submitting)), cfg, cid, e.pre, price);
      var pre := LookBeforeCreate(d, cfg, cid, price, quantity, e.pre).desk;
      LookFrees(d, cfg, cid, price, quantity, e.pre);
      hide LookupStep;
      if pre.cell.level.sellOrderId.None? {
        SubmitHolds(pre, cfg, cid, price, quantity, e);
      }
      hide Submit;
    }
  }

  lemma LookFrees(d: Desk, cfg: Config, cid: Cid, price: real, quantity: int, m: Move)
    ensures var p := LookBeforeCreate(d, cfg, cid, price, quantity, m);
      p.outcome == SafeToRecreate(None) ==> p.desk.cell.level.HandleOf(cid.side).None?
  {
    hide LookupReply, EvolveAt;
  }

  lemma ExitPlacedTrue(w: World, cfg: Config, i: nat, price: real, quantity: int, e: PlaceMoves, fee: Option<real>)
    requires w.desk.cell.level.sellOrderId.None? && e.Honest() && RestsAt(w.desk.book, w.desk.cell.IdFor(i, Sell), price)
    ensures RecordTrue(PlaceAndBook(w, cfg, i, Sell, price, quantity, e, fee))
  {
    var p := EnsureSlotOrder(w.desk, cfg, i, Sell, price, quantity, true, e);
    EnsureHolds(w.desk, cfg, i, price, quantity, e);
    BookedParts(w.(desk := p.desk), cfg.orderQuantity, Sell, p.outcome, fee);
    hide EnsureSlotOrder, BookOutcome;
  }

  // ----- runs -----

  lemma CanceledKeeps(w: World, cfg: Config, i: nat, side: Side, last: Move)
    requires Conserved(w, cfg, i) && w.desk.cell.level.HandleOf(side).Some?
    ensures var b := CancelAt(w.desk.book, cfg.step, w.desk.cell.level.HandleOf(side).value, last);
      Conserved(w.(desk := w.desk.(book := b)), cfg, i)
  {
    CancelSideSound(w.desk.cell, w.desk.book, i, side, cfg.step, last);
    BookMoves(w, CancelAt(w.desk.book, cfg.step, w.desk.cell.level.HandleOf(side).value, last), cfg, i, side);
  }

  lemma CancelTrue(w: World, cfg: Config, i: nat, side: Side, confirmed: bool, last: Move, m: Move, fee: Option<real>)
    requires Conserved(w, cfg, i) && RecordTrue(w)
    ensures RecordTrue(CancelSide(w, cfg, side, confirmed, last, m, fee))
  {
    var h := w.desk.cell.level.HandleOf(side);
    if h.Some? && confirmed {
      var canceled := w.(desk := w.desk.(book := CancelAt(w.desk.book, cfg.step, h.value, last)));
      CanceledKeeps(w, cfg, i, side, last);
      CancelAges(w.desk.book, cfg.step, h.value, last);
      hide Conserved, CancelAt, ReconcileCancelledSlot;
      StandsTrue(w, canceled);
      FreedStands(canceled, cfg, i, side, m, fee);
      StandsTrue(canceled, ReconcileCancelledSlot(canceled, cfg, side, m, fee));
    }
  }

  lemma CancelAges(b: Book, step: nat, h: Handle, m: Move)
    ensures Aged(b, CancelAt(b, step, h, m))
  {}

  /** Every truthful event that is no restart and asks alike keeps the record of a live exit true. */
  lemma StepTrue(w: World, cfg: Config, i: nat, e: Event)
    requires Conserved(w, cfg, i) && RecordTrue(w) && HonestEvent(e) && !e.Reboot? && AsksAlike(w, i, e)
    ensures RecordTrue(Step(w, cfg, i, e))
  {
    hide Conserved, ArmBuy, PlaceAndBook, CheckSide, CancelSide;
    match e
    case VenueMoves(side, gen, m) => StandsTrue(w, Step(w, cfg, i, e));
    case BuyTick(mark, place, fee) =>
      EntryStands(w, cfg, i, mark, place, fee);
      StandsTrue(w, ArmBuy(w, cfg, i, mark, place, fee));
    case SellTick(mark, target, place, fee) =>
      if SellArmed(w.desk.cell.level, cfg.orderQuantity, mark) && target.Some? {
        ExitPlacedTrue(w, cfg, i, target.value, ExitQuantity(w.desk.cell.level, cfg.orderQuantity), place, fee);
      }
    case Poll(side, m, fee) =>
      CheckStands(w, cfg, i, side, m, fee);
      StandsTrue(w, CheckSide(w, cfg, side, m, fee));
    case Cancel(side, confirmed, last, m, fee) => CancelTrue(w, cfg, i, side, confirmed, last, m, fee);
    case Freeze =>
    case StopExit(price, place, fee) =>
      if price.Some? && w.desk.cell.level.sellOrderId.None? {
        ExitPlacedTrue(w, cfg, i, price.value, HeldQtyOf(w.desk.cell.level, cfg.orderQuantity), place, fee);
      }
  }

  lemma PlacedUnder(d: Desk, cfg: Config, i: nat, price: real, quantity: int, e: PlaceMoves)
    ensures var cid := d.cell.IdFor(i, Sell);
      var b' := EnsureSlotOrder(d, cfg, i, Sell, price, quantity, true, e).desk.book;
      cid in b' ==> b'[cid].limit == price || (cid in d.book && b'[cid].limit == d.book[cid].limit)
    ensures var cid := d.cell.IdFor(i, Sell);
      var b' := EnsureSlotOrder(d, cfg, i, Sell, price, quantity, true, e).desk.book;
      cid in b' && b'[cid].cum > 0 && FreshId(d.book, cid) ==> b'[cid].limit == price
  {
    hide ObserveLookup, LookupReply;
  }

  /** The price on record for an exit is the limit its order has after the event. */
  ghost predicate AskedAtLimit(w: World, w': World, i: nat, e: Event) {
    var cid := w.desk.cell.IdFor(i, Sell);
    cid in w'.desk.book && w'.desk.book[cid].cum > 0 ==> AskedPrice(w, e, Sell) == w'.desk.book[cid].limit
  }

  lemma PlacedAtLimit(w: World, cfg: Config, i: nat, price: real, quantity: int, place: PlaceMoves, fee: Option<real>, e: Event)
    requires AskedPrice(w, e, Sell) == price
    requires var cid := w.desk.cell.IdFor(i, Sell);
      cid in w.desk.book && !FreshId(w.desk.book, cid) ==> w.desk.book[cid].limit == price
    ensures AskedAtLimit(w, PlaceAndBook(w, cfg, i, Sell, price, quantity, place, fee), i, e)
  {
    var p := EnsureSlotOrder(w.desk, cfg, i, Sell, price, quantity, true, place);
    PlacedUnder(w.desk, cfg, i, price, quantity, place);
    BookedParts(w.(desk := p.desk), cfg.orderQuantity, Sell, p.outcome, fee);
    hide EnsureSlotOrder, BookOutcome, AskedPrice;
  }

  /** The order of a live exit, whose record is true, through a read of it. */
  lemma ReadAtLimit(w: World, w': World, cfg: Config, i: nat, e: Event)
    requires Conserved(w, cfg, i) && RecordTrue(w) && w.desk.cell.level.sellOrderId.Some? && Aged(w.desk.book, w'.desk.book)
    requires e.Poll? || e.Cancel?
    ensures AskedAtLimit(w, w', i, e)
  {
    HandleIsCurrent(w, cfg, i);
    hide Conserved;
  }

  lemma HandleIsCurrent(w: World, cfg: Config, i: nat)
    requires Conserved(w, cfg, i) && w.desk.cell.level.sellOrderId.Some?
    ensures w.desk.cell.level.sellOrderId.value.cid == w.desk.cell.IdFor(i, Sell)
  {}

  lemma CancelReads(w: World, cfg: Config, i: nat, last: Move, m: Move, fee: Option<real>)
    requires Conserved(w, cfg, i) && w.desk.cell.level.sellOrderId.Some?
    ensures Aged(w.desk.book, CancelSide(w, cfg, Sell, true, last, m, fee).desk.book)
  {
    var h := w.desk.cell.level.sellOrderId.value;
    var canceled := w.(desk := w.desk.(book := CancelAt(w.desk.book, cfg.step, h, last)));
    CanceledKeeps(w, cfg, i, Sell, last);
    CancelAges(w.desk.book, cfg.step, h, last);
    RowsAndBook(w, cfg, last, m, fee);
    hide Conserved, CancelAt, CheckSide, CancelSide, Aged;
    SideAges(canceled, cfg, i, Sell, m, fee);
    AgedTwice(w.desk.book, canceled.desk.book, CheckSide(canceled, cfg, Sell, m, fee).desk.book);
  }

  lemma RowsAndBook(w: World, cfg: Config, last: Move, m: Move, fee: Option<real>)
    requires w.desk.cell.level.sellOrderId.Some?
    ensures var canceled := w.(desk := w.desk.(book := CancelAt(w.desk.book, cfg.step, w.desk.cell.level.sellOrderId.value, last)));
      CancelSide(w, cfg, Sell, true, last, m, fee).desk.book == CheckSide(canceled, cfg, Sell, m, fee).desk.book
  {
    hide CancelAt, CheckSlot, BookOutcome;
  }

  /** An exit's row that an event books is of an order at the price on record. */
  lemma StepAtLimit(w: World, cfg: Config, i: nat, e: Event)
    requires Conserved(w, cfg, i) && RecordTrue(w) && HonestEvent(e) && !e.Reboot? && AsksAlike(w, i, e)
    ensures (e.SellTick? || e.StopExit? || ((e.Poll? || e.Cancel?) && e.side == Sell)) && Step(w, cfg, i, e).rows != w.rows ==>
      AskedAtLimit(w, Step(w, cfg, i, e), i, e)
  {
    hide Conserved, PlaceAndBook, CheckSide, CancelSide, AskedAtLimit;
    match e
    case SellTick(mark, target, place, fee) =>
      if target.Some? {
        PlacedAtLimit(w, cfg, i, target.value, ExitQuantity(w.desk.cell.level, cfg.orderQuantity), place, fee, e);
      }
    case StopExit(price, place, fee) =>
      if price.Some? {
        PlacedAtLimit(w, cfg, i, price.value, HeldQtyOf(w.desk.cell.level, cfg.orderQuantity), place, fee, e);
      }
    case Poll(side, m, fee) =>
      if side == Sell {
        PollAtLimit(w, cfg, i, m, fee);
      }
    case Cancel(side, confirmed, last, m, fee) =>
      if side == Sell {
        CancelAtLimit(w, cfg, i, confirmed, last, m, fee);
      }
    case _ =>
  }

  lemma PollAtLimit(w: World, cfg: Config, i: nat, m: Move, fee: Option<real>)
    requires Conserved(w, cfg, i) && RecordTrue(w)
    ensures var w' := CheckSide(w, cfg, Sell, m, fee);
      w'.rows != w.rows ==> AskedAtLimit(w, w', i, Poll(Sell, m, fee))
  {
    if w.desk.cell.level.sellOrderId.Some? {
      SideAges(w, cfg, i, Sell, m, fee);
      ReadAtLimit(w, CheckSide(w, cfg, Sell, m, fee), cfg, i, Poll(Sell, m, fee));
    }
    hide CheckSlot, Conserved, AskedAtLimit;
  }

  lemma CancelAtLimit(w: World, cfg: Config, i: nat, confirmed: bool, last: Move, m: Move, fee: Option<real>)
    requires Conserved(w, cfg, i) && RecordTrue(w)
    ensures var w' := CancelSide(w, cfg, Sell, confirmed, last, m, fee);
      w'.rows != w.rows ==> AskedAtLimit(w, w', i, Cancel(Sell, confirmed, last, m, fee))
  {
    if w.desk.cell.level.sellOrderId.Some? && confirmed {
      CancelReads(w, cfg, i, last, m, fee);
      ReadAtLimit(w, CancelSide(w, cfg, Sell, confirmed, last, m, fee), cfg, i, Cancel(Sell, confirmed, last, m, fee));
    }
    hide ReconcileCancelledSlot, Conserved, AskedAtLimit;
  }

  /** Truthful events without a restart, each asking alike for what it finds. */
  ghost predicate AlikeRun(w: World, cfg: Config, i: nat, events: seq<Event>) {
    events == [] ||
    (var before, e := Run(w, cfg, i, events[..|events| - 1]), events[|events| - 1];
     AlikeRun(w, cfg, i, events[..|events| - 1]) && HonestEvent(e) && !e.Reboot? && AsksAlike(before, i, e))
  }

  lemma {:induction false} RunTrue(w: World, cfg: Config, i: nat, events: seq<Event>)
    requires Conserved(w, cfg, i) && RecordTrue(w) && AlikeRun(w, cfg, i, events)
    ensures Conserved(Run(w, cfg, i, events), cfg, i) && RecordTrue(Run(w, cfg, i, events))
  {
    if events != [] {
      var before, e := Run(w, cfg, i, events[..|events| - 1]), events[|events| - 1];
      RunTrue(w, cfg, i, events[..|events| - 1]);
      hide Step, Conserved, RecordTrue, AsksAlike, HonestEvent, Advances;
      StepTrue(before, cfg, i, e);
      var side, d, fee := StepConserved(before, cfg, i, e);
    }
  }

  /**
   * Over every truthful run of a level that met no restart, and asked for an exit only at the limit of
   * what it found under the id: an exit booked with no reported price is booked at the limit its order
   * has in the venue's book.
   */
  lemma UnreportedExitsAreAtTheirLimit(price: real, cfg: Config, i: nat, events: seq<Event>, e: Event)
    requires GoodConfig(cfg) && AlikeRun(FreshWorld(price, cfg.orderQuantity, i), cfg, i, events + [e])
    ensures var w := Run(FreshWorld(price, cfg.orderQuantity, i), cfg, i, events);
      var w' := Step(w, cfg, i, e);
      && |w.rows| <= |w'.rows|
      && forall k :: |w.rows| <= k < |w'.rows| && w'.rows[k].cid.side == Sell && ReportOf(w, cfg, i, e, Sell).None? ==>
           w'.rows[k].cid in w'.desk.book && w'.rows[k].price == w'.desk.book[w'.rows[k].cid].limit
  {
    var built := FreshWorld(price, cfg.orderQuantity, i);
    assert (events + [e])[..|events|] == events;
    FreshConserved(price, cfg, i);
    assert RecordTrue(built);
    RunTrue(built, cfg, i, events);
    var w := Run(built, cfg, i, events);
    hide Run, FreshWorld, AlikeRun;
    UnreportedAt(w, cfg, i, e);
  }

  /** A booked segment ends where its order's executions do. */
  lemma ExecutedSoFar(w: World, w': World, cfg: Config, i: nat, side: Side, d: int, fee: Option<real>)
    requires Conserved(w, cfg, i) && Advances(w, w', i, side, d, fee)
    ensures if d == 0 then w'.rows == w.rows
            else
              && |w'.rows| == |w.rows| + 1
              && var cid := w'.rows[|w.rows|].cid;
                 cid == w.desk.cell.IdFor(i, side) && cid in w'.desk.book && w'.desk.book[cid].cum > 0
  {}

  lemma UnreportedAt(w: World, cfg: Config, i: nat, e: Event)
    requires Conserved(w, cfg, i) && RecordTrue(w) && HonestEvent(e) && !e.Reboot? && AsksAlike(w, i, e)
    ensures var w' := Step(w, cfg, i, e);
      && |w.rows| <= |w'.rows|
      && forall k :: |w.rows| <= k < |w'.rows| && w'.rows[k].cid.side == Sell && ReportOf(w, cfg, i, e, Sell).None? ==>
           w'.rows[k].cid in w'.desk.book && w'.rows[k].price == w'.desk.book[w'.rows[k].cid].limit
  {
    var w' := Step(w, cfg, i, e);
    StepPriced(w, cfg, i, e);
    StepAtLimit(w, cfg, i, e);
    var side, d, fee := StepConserved(w, cfg, i, e);
    ExecutedSoFar(w, w', cfg, i, side, d, fee);
    assert e.VenueMoves? || e.Freeze? ==> w'.rows == w.rows;
    hide Step, ReportOf, AskedPrice, Conserved, HonestEvent, AsksAlike;
  }

  // ----- the restart that forgets a limit -----

  const IDLE: Move := Move(0, Live, true, false, None, None, None)

  const TAKEN: PlaceMoves := PlaceMoves(Passed, IDLE, true, CreateMove(true, true, OtherReason), IDLE)

  /** Bought at the line, offered at 110, restarted, and sold while the engine was down, with no price reported. */
  function ForgetfulRun(): seq<Event> {
    [BuyTick(100.0, TAKEN, Some(0.0)),
     Poll(Buy, Move(2, Done, true, false, Some(100.0), None, None), Some(0.0)),
     SellTick(100.0, Some(110.0), TAKEN, Some(0.0)),
     Reboot(IDLE, Move(2, Done, true, false, None, None, None), Some(0.0), Some(0.0))]
  }

  const ENTRY: Cid := Cid(0, Buy, 0)

  const EXIT: Cid := Cid(0, Sell, 0)

  lemma Entered()
    ensures Step(FreshWorld(100.0, 6, 0), Config(6, 3), 0, ForgetfulRun()[0]) == World(EntryDesk(), [], false)
  {}

  function EntryDesk(): Desk {
    Desk(Cell(FreshLevel(100.0).(buyOrderId := Some(Handle(ENTRY, 0)), buyFilledQty := Some(0)),
              Some(OrderRecord(ENTRY, 100.0, 6, 0, Some(Handle(ENTRY, 0)), Open)), None),
         map[ENTRY := VenueOrder(0, 6, 100.0, 0, Live, false)])
  }

  lemma Bought()
    ensures var w' := Step(World(EntryDesk(), [], false), Config(6, 3), 0, ForgetfulRun()[1]);
      && w'.desk.book == map[ENTRY := VenueOrder(0, 6, 100.0, 6, Done, false)] && !w'.frozen
      && w'.desk.cell.level == FreshLevel(100.0).(filled := true, entryPrice := Some(100.0), buyGen := Some(1), heldQty := Some(6),
                                                  buyFilledQty := Some(6))
      && w'.desk.cell.sellRec.None? && |w'.rows| == 1
  {}

  /** The exit is booked at the line of 100, with nothing gained, though its order was limited to 110. */
  lemma RestartForgetsTheLimit()
    ensures var w := Run(FreshWorld(100.0, 6, 0), Config(6, 3), 0, ForgetfulRun());
      && |w.rows| == 2 && EXIT in w.desk.book && w.desk.book[EXIT].limit == 110.0 && w.desk.book[EXIT].cum == 6
      && w.rows[1].cid == EXIT && w.rows[1].quantity == 6 && w.rows[1].price == 100.0 && w.rows[1].pnl == Some(0.0)
  {
    var cfg, events := Config(6, 3), ForgetfulRun();
    var w0 := FreshWorld(100.0, 6, 0);
    var w2 := Step(Step(w0, cfg, 0, events[0]), cfg, 0, events[1]);
    Entered();
    Bought();
    FourSteps(w0, cfg, events);
    Offered(w2);
    SoldUnseen(Step(w2, cfg, 0, events[2]));
  }

  lemma FourSteps(w: World, cfg: Config, events: seq<Event>)
    requires |events| == 4
    ensures Run(w, cfg, 0, events)
         == Step(Step(Step(Step(w, cfg, 0, events[0]), cfg, 0, events[1]), cfg, 0, events[2]), cfg, 0, events[3])
  {
    hide Step;
    assert events[..3][..2] == events[..2] && events[..2][..1] == events[..1] && events[..1][..0] == [];
    assert Run(w, cfg, 0, events[..1]) == Step(w, cfg, 0, events[0]);
    assert Run(w, cfg, 0, events[..2]) == Step(Run(w, cfg, 0, events[..1]), cfg, 0, events[1]);
  }

  lemma Offered(w: World)
    requires w.desk.book == map[ENTRY := VenueOrder(0, 6, 100.0, 6, Done, false)] && w.desk.cell.sellRec.None?
    requires w.desk.cell.level == FreshLevel(100.0).(filled := true, entryPrice := Some(100.0), buyGen := Some(1), heldQty := Some(6),
                                                     buyFilledQty := Some(6))
    ensures var w' := Step(w, Config(6, 3), 0, ForgetfulRun()[2]);
      && w'.desk.book == w.desk.book[EXIT := VenueOrder(0, 6, 110.0, 0, Live, true)] && w'.rows == w.rows
      && w'.desk.cell.level == w.desk.cell.level.(sellOrderId := Some(Handle(EXIT, 0)), sellFilledQty := Some(0))
  {}

  lemma SoldUnseen(w: World)
    requires w.desk.book == map[ENTRY := VenueOrder(0, 6, 100.0, 6, Done, false), EXIT := VenueOrder(0, 6, 110.0, 0, Live, true)]
    requires w.desk.cell.level == FreshLevel(100.0).(filled := true, entryPrice := Some(100.0), buyGen := Some(1), heldQty := Some(6),
               buyFilledQty := Some(6), sellOrderId := Some(Handle(EXIT, 0)), sellFilledQty := Some(0))
    requires |w.rows| == 1
    ensures var w' := Step(w, Config(6, 3), 0, ForgetfulRun()[3]);
      && |w'.rows| == 2 && EXIT in w'.desk.book && w'.desk.book[EXIT].limit == 110.0 && w'.desk.book[EXIT].cum == 6
      && w'.rows[1].cid == EXIT && w'.rows[1].quantity == 6 && w'.rows[1].price == 100.0 && w'.rows[1].pnl == Some(0.0)
  {}
}
