/**
 * What the venue's book of a level can hold, over every run, whatever the venue
 * answers: entries at the line, exits that can only reduce.
 */
module SubmittedOrders {
  import opened Options
  import opened OrderState
  import opened LevelMachine
  import opened Venue
  import opened SlotReconciliation
  import opened Ledger
  import opened LevelRuns
  import opened Tiling
  import opened TilingRuns
  import opened LevelFrames

  /** Every order was there before with this flag and limit, or was just submitted under the id at the price. */
  ghost predicate Placed(b: Book, b': Book, cid: Cid, price: real, reduceOnly: bool) {
    forall id :: id in b' ==>
      || (id in b && b'[id].limit == b[id].limit && b'[id].reduceOnly == b[id].reduceOnly)
      || (id == cid && b'[id].limit == price && b'[id].reduceOnly == reduceOnly)
  }

  lemma PlacedTrans(a: Book, b: Book, c: Book, cid: Cid, price: real, ro: bool)
    requires Placed(a, b, cid, price, ro) && Placed(b, c, cid, price, ro)
    ensures Placed(a, c, cid, price, ro)
  {}

  lemma EvolvePlaces(b: Book, step: nat, id: Cid, m: Move, cid: Cid, price: real, ro: bool)
    ensures Placed(b, EvolveAt(b, step, id, m), cid, price, ro)
  {}

  lemma EnsurePlaces(d: Desk, cfg: Config, i: nat, side: Side, price: real, quantity: int, ro: bool, e: PlaceMoves)
    ensures Placed(d.book, EnsureSlotOrder(d, cfg, i, side, price, quantity, ro, e).desk.book, d.cell.IdFor(i, side), price, ro)
  {
    if e.boundary == Passed {
      var cid := d.cell.IdFor(i, side);
      var pre := LookBeforeCreate(d, cfg, cid, price, quantity, e.pre);
      EvolvePlaces(d.book, cfg.step, cid, e.pre, cid, price, ro);
      var created := CreateBook(pre.desk.book, cid, price, quantity, ro, e.create);
      assert Placed(pre.desk.book, created, cid, price, ro);
      EvolvePlaces(created, cfg.step, cid, e.post, cid, price, ro);
      PlacedTrans(pre.desk.book, created, EvolveAt(created, cfg.step, cid, e.post), cid, price, ro);
      PlacedTrans(d.book, pre.desk.book, created, cid, price, ro);
      PlacedTrans(d.book, pre.desk.book, EvolveAt(created, cfg.step, cid, e.post), cid, price, ro);
      hide Placed, EvolveAt, CreateBook, ObserveLookup, LookupReply;
    }
  }

  /** The engine's own record of an entry has the line for its price. */
  predicate OnLine(c: Cell) { c.Rec(Buy).Some? ==> c.Rec(Buy).value.price == c.level.price }

  /** Entries at the line without the flag, exits with it. */
  ghost predicate Proper(w: World, line: real) {
    w.desk.cell.level.price == line && OnLine(w.desk.cell) && forall id :: id in w.desk.book ==>
      && (w.desk.book[id].reduceOnly <==> id.side == Sell)
      && (id.side == Buy ==> w.desk.book[id].limit == line)
  }

  lemma StandsProper(w: World, w': World, line: real)
    requires Proper(w, line) && w'.desk.cell.level.price == w.desk.cell.level.price && OnLine(w'.desk.cell)
    requires forall id :: id in w'.desk.book ==>
      id in w.desk.book && w'.desk.book[id].limit == w.desk.book[id].limit && w'.desk.book[id].reduceOnly == w.desk.book[id].reduceOnly
    ensures Proper(w', line)
  {}

  lemma BookingStands(w: World, q: int, side: Side, o: SlotOutcome, fee: Option<real>)
    ensures BookOutcome(w, q, side, o, fee).desk.cell.level.price == w.desk.cell.level.price
    ensures BookOutcome(w, q, side, o, fee).desk.book == w.desk.book
    ensures OnLine(w.desk.cell) ==> OnLine(BookOutcome(w, q, side, o, fee).desk.cell)
  {
    BookedParts(w, q, side, o, fee);
  }

  /** A placement's record has the price it asked for; the other side's stands. */
  lemma EnsureRecords(d: Desk, cfg: Config, i: nat, side: Side, price: real, quantity: int, ro: bool, e: PlaceMoves)
    requires Owned(d.cell, i, side) && OnLine(d.cell) && (side == Buy ==> price == d.cell.level.price)
    ensures OnLine(EnsureSlotOrder(d, cfg, i, side, price, quantity, ro, e).desk.cell)
  {
    var cid := d.cell.IdFor(i, side);
    var begun := MarkState(BeginSubmit(d.cell, cid, price, quantity), side, Submitting);
    var pre := LookBeforeCreate(d, cfg, cid, price, quantity, e.pre);
    LookupRecords(begun, cfg.orderQuantity, cid, LookupReply(EvolveAt(d.book, cfg.step, cid, e.pre), cid, e.pre));
    var created := CreateBook(pre.desk.book, cid, price, quantity, ro, e.create);
    LookupRecords(pre.desk.cell, cfg.orderQuantity, cid, LookupReply(EvolveAt(created, cfg.step, cid, e.post), cid, e.post));
    hide ObserveLookup, LookupReply, CreateBook;
  }

  lemma LookupRecords(c: Cell, q: int, cid: Cid, reply: Lookup)
    requires OnLine(c) && c.Rec(cid.side).Some? && c.Rec(cid.side).value.cid.side == cid.side
    ensures var c' := ObserveLookup(c, q, cid, reply).cell;
      OnLine(c') && c'.Rec(cid.side).Some? && c'.Rec(cid.side).value.cid.side == cid.side
  {}

  lemma CheckRecords(d: Desk, cfg: Config, i: nat, side: Side, m: Move)
    requires Owned(d.cell, i, side) && OnLine(d.cell)
    ensures OnLine(CheckSlot(d, cfg, side, m).desk.cell)
  {
    hide HandleReply, EvolveAt;
  }

  lemma OwnedIn(w: World, i: nat, side: Side)
    requires Coherent(w, i)
    ensures Owned(w.desk.cell, i, side)
  {}

  lemma PlacedProper(w: World, cfg: Config, i: nat, side: Side, price: real, quantity: int, e: PlaceMoves, fee: Option<real>, line: real)
    requires Coherent(w, i) && Proper(w, line) && (side == Buy ==> price == line)
    ensures Proper(PlaceAndBook(w, cfg, i, side, price, quantity, e, fee), line)
    ensures var p := EnsureSlotOrder(w.desk, cfg, i, side, price, quantity, side == Sell, e); Proper(w.(desk := p.desk), line)
  {
    OwnedIn(w, i, side);
    hide EnsureSlotOrder, BookOutcome, Coherent;
    var p := EnsureSlotOrder(w.desk, cfg, i, side, price, quantity, side == Sell, e);
    EnsurePlaces(w.desk, cfg, i, side, price, quantity, side == Sell, e);
    EnsureRecords(w.desk, cfg, i, side, price, quantity, side == Sell, e);
    EnsureFrame(w.desk, cfg, i, side, price, quantity, side == Sell, e);
    BookingStands(w.(desk := p.desk), cfg.orderQuantity, side, p.outcome, fee);
  }

  lemma CheckedProper(w: World, cfg: Config, i: nat, side: Side, m: Move, fee: Option<real>, line: real)
    requires Owned(w.desk.cell, i, side) && Proper(w, line)
    ensures Proper(w.(desk := CheckSlot(w.desk, cfg, side, m).desk), line) && Proper(CheckSide(w, cfg, side, m, fee), line)
  {
    var p := CheckSlot(w.desk, cfg, side, m);
    CheckRecords(w.desk, cfg, i, side, m);
    CheckFrame(w.desk, cfg, i, side, m);
    BookingStands(w.(desk := p.desk), cfg.orderQuantity, side, p.outcome, fee);
    hide ObserveHandle, HandleReply, BookOutcome;
    StandsProper(w, w.(desk := p.desk), line);
  }

  lemma CancelledProper(w: World, cfg: Config, i: nat, side: Side, confirmed: bool, last: Move, m: Move, fee: Option<real>, line: real)
    requires Coherent(w, i) && Proper(w, line)
    ensures Proper(CancelSide(w, cfg, side, confirmed, last, m, fee), line)
  {
    var h := w.desk.cell.level.HandleOf(side);
    OwnedIn(w, i, side);
    hide Coherent, CheckSlot, BookOutcome, MarkNotFound;
    if h.Some? && confirmed {
      var canceled := w.(desk := w.desk.(book := CancelAt(w.desk.book, cfg.step, h.value, last)));
      StandsProper(w, canceled, line);
      CheckedProper(canceled, cfg, i, side, m, fee, line);
      FreedProper(canceled, cfg, i, side, m, fee, line);
    }
  }

  lemma FreedOnLine(c: Cell, i: nat, side: Side)
    requires OnLine(c) && Owned(c, i, side)
    ensures OnLine(MarkNotFound(c, side))
  {}

  lemma FreedProper(w: World, cfg: Config, i: nat, side: Side, m: Move, fee: Option<real>, line: real)
    requires Owned(w.desk.cell, i, side) && Proper(CheckSide(w, cfg, side, m, fee), line) && w.desk.cell.level.HandleOf(side).Some?
    ensures Proper(ReconcileCancelledSlot(w, cfg, side, m, fee), line)
  {
    var p := CheckSlot(w.desk, cfg, side, m);
    var checked := CheckSide(w, cfg, side, m, fee);
    CheckFrame(w.desk, cfg, i, side, m);
    BookedParts(w.(desk := p.desk), cfg.orderQuantity, side, p.outcome, fee);
    MarkedFrame(checked.desk.cell, i, side, w.desk.cell.level.HandleOf(side).value, Open);
    FreedOnLine(checked.desk.cell, i, side);
    hide CheckSlot, BookOutcome, MarkNotFound;
    StandsProper(checked, checked.(desk := checked.desk.(cell := MarkNotFound(checked.desk.cell, side))), line);
  }

  lemma ResolvedProper(w: World, cfg: Config, i: nat, side: Side, m: Move, line: real)
    requires Owned(w.desk.cell, i, side) && Proper(w, line)
    ensures var p := ResolveSide(w.desk, cfg, side, m);
      Proper(w.(desk := p.desk), line) && p.desk.cell.Rec(Other(side)) == w.desk.cell.Rec(Other(side))
  {
    CheckedProper(w, cfg, i, side, m, None, line);
    CheckIsLocal(w.desk, cfg, side, m);
  }

  lemma RebootProper(w: World, cfg: Config, i: nat, mb: Move, ms: Move, fb: Option<real>, fs: Option<real>, line: real)
    requires Coherent(w, i) && Proper(w, line)
    ensures Proper(Restart(w, cfg, i, mb, ms, fb, fs), line)
  {
    var q := cfg.orderQuantity;
    RestoredStands(w, cfg, i, line);
    hide Coherent, Proper, BookCollected, ResolveSide, Restored;
    var r := w.(desk := w.desk.(cell := Restored(w.desk.cell.level, q, i)));
    var b := ResolveSide(r.desk, cfg, Buy, mb);
    ResolvedProper(r, cfg, i, Buy, mb, line);
    var s := ResolveSide(b.desk, cfg, Sell, ms);
    ResolvedProper(r.(desk := b.desk), cfg, i, Sell, ms, line);
    var bought := BookCollected(r.(desk := s.desk), q, Buy, b.outcome, fb);
    CollectedProper(r.(desk := s.desk), q, Buy, b.outcome, fb, line);
    CollectedProper(bought, q, Sell, s.outcome, fs, line);
  }

  lemma CollectedProper(w: World, q: int, side: Side, o: SlotOutcome, fee: Option<real>, line: real)
    requires Proper(w, line)
    ensures Proper(BookCollected(w, q, side, o, fee), line)
  {
    BookingStands(w, q, side, o, fee);
    hide BookOutcome;
  }

  lemma RestoredStands(w: World, cfg: Config, i: nat, line: real)
    requires Coherent(w, i) && Proper(w, line)
    ensures var c := Restored(w.desk.cell.level, cfg.orderQuantity, i);
      Proper(w.(desk := w.desk.(cell := c)), line) && Owned(c, i, Buy) && Owned(c, i, Sell)
  {
    RestoredKept(w, cfg, i);
    StandsProper(w, w.(desk := w.desk.(cell := Restored(w.desk.cell.level, cfg.orderQuantity, i))), line);
  }

  lemma StepProper(w: World, cfg: Config, i: nat, e: Event, line: real)
    requires Coherent(w, i) && Proper(w, line)
    ensures Proper(Step(w, cfg, i, e), line)
  {
    hide Coherent, PlaceAndBook, CheckSide, CancelSide, Restart, EnsureSlotOrder;
    match e
    case VenueMoves(side, gen, m) => StandsProper(w, Step(w, cfg, i, e), line);
    case BuyTick(mark, place, fee) =>
      PlacedProper(w, cfg, i, Buy, w.desk.cell.level.price, BuyRemainder(w.desk.cell.level, cfg.orderQuantity), place, fee, line);
    case SellTick(mark, target, place, fee) =>
      PlacedProper(w, cfg, i, Sell, target.GetOr(0.0), ExitQuantity(w.desk.cell.level, cfg.orderQuantity), place, fee, line);
    case Poll(side, m, fee) => OwnedIn(w, i, side); CheckedProper(w, cfg, i, side, m, fee, line);
    case Cancel(side, confirmed, last, m, fee) => CancelledProper(w, cfg, i, side, confirmed, last, m, fee, line);
    case Freeze =>
    case StopExit(price, place, fee) =>
      PlacedProper(w, cfg, i, Sell, price.GetOr(0.0), HeldQtyOf(w.desk.cell.level, cfg.orderQuantity), place, fee, line);
    case Reboot(mb, ms, fb, fs) => RebootProper(w, cfg, i, mb, ms, fb, fs, line);
  }

  lemma {:induction false} RunProper(w: World, cfg: Config, i: nat, events: seq<Event>, line: real)
    requires Coherent(w, i) && Proper(w, line)
    ensures Proper(Run(w, cfg, i, events), line)
  {
    hide Step, Proper, Coherent;
    if events != [] {
      RunProper(w, cfg, i, events[..|events| - 1], line);
      RunKept(w, cfg, i, events[..|events| - 1]);
      StepProper(Run(w, cfg, i, events[..|events| - 1]), cfg, i, events[|events| - 1], line);
    }
  }

  /**
   * Over every run of a level, restarts and false answers included: every exit the venue ever held for
   * it is reduce-only, and no entry is; and every entry was limited to the line.
   */
  lemma ExitsOnlyReduce(price: real, cfg: Config, i: nat, events: seq<Event>, cid: Cid)
    requires cid in Run(FreshWorld(price, cfg.orderQuantity, i), cfg, i, events).desk.book
    ensures var w := Run(FreshWorld(price, cfg.orderQuantity, i), cfg, i, events);
      (w.desk.book[cid].reduceOnly <==> cid.side == Sell) && (cid.side == Buy ==> w.desk.book[cid].limit == price)
  {
    var built := FreshWorld(price, cfg.orderQuantity, i);
    assert Coherent(built, i) && Proper(built, price);
    RunProper(built, cfg, i, events, price);
  }
}
