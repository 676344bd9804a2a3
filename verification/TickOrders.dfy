/**
 * What a tick makes of a level on the venue's own book: exactly when it submits an
 * entry or an exit, of what size, at what price and under which flag.
 */
module TickOrders {
  import opened Options
  import opened OrderState
  import opened LevelMachine
  import opened Venue
  import opened SlotReconciliation
  import opened Ledger
  import opened LevelRuns
  import opened ExitPricing
  import opened Tiling
  import opened SingleOrderRuns
  import opened ConservationRuns
  import opened ConservationTheorems
  import opened GridTrading
  import Ticks

  // ----- submissions, on the book -----

  /** A submission under the id that was not there before. */
  predicate NewOrder(b: Book, b': Book, cid: Cid) {
    cid in b' && (cid in b ==> b[cid].instance < b'[cid].instance)
  }

  /** Nothing happened under the id. */
  predicate SameAt(b: Book, b': Book, cid: Cid) {
    (cid in b' <==> cid in b) && (cid in b ==> b'[cid] == b[cid])
  }

  /** Only the id's own order changed. */
  ghost predicate OnlyAt(b: Book, b': Book, cid: Cid) { forall id :: id != cid ==> SameAt(b, b', id) }

  /** Orders have aged, and no submission came or went. */
  ghost predicate Aged(b: Book, b': Book) {
    forall id :: (id in b' <==> id in b)
      && (id in b ==> b'[id].instance == b[id].instance && b'[id].quantity == b[id].quantity
                      && b'[id].limit == b[id].limit && b'[id].reduceOnly == b[id].reduceOnly)
  }

  /** The rules are unchanged, the lookup answers, the intent is on disk and the venue accepts. */
  predicate Submits(e: PlaceMoves) { e.boundary == Passed && e.pre.reachable && e.intentPersisted && e.create.accept }

  /** No lost response, and no refusal that would lock the level. */
  predicate Plain(e: PlaceMoves) { e.Honest() && e.create.answered && (e.create.accept || e.create.refusal == OtherReason) }

  /** What a level arms by: nothing that a submission without executions changes. */
  predicate SameStance(l: GridLevel, l': GridLevel, side: Side) {
    && l'.price == l.price && l'.heldQty == l.heldQty && l'.filled == l.filled && l'.exitOnly == l.exitOnly
    && l'.entryPrice == l.entryPrice && l'.HandleOf(Other(side)) == l.HandleOf(Other(side))
    && l'.Gen(Buy) == l.Gen(Buy) && l'.Gen(Sell) == l.Gen(Sell)
  }

  // ----- one placement under a fresh id -----

  lemma EnsureTouches(d: Desk, cfg: Config, i: nat, side: Side, price: real, quantity: int, ro: bool, e: PlaceMoves)
    ensures OnlyAt(d.book, EnsureSlotOrder(d, cfg, i, side, price, quantity, ro, e).desk.book, d.cell.IdFor(i, side))
  {
    hide ObserveLookup, LookupReply;
  }

  /** The lookup before the submission finds a fresh id free, if it can be asked. */
  lemma FreshLook(d: Desk, cfg: Config, i: nat, side: Side, price: real, quantity: int, m: Move)
    requires d.cell.level.HandleOf(side).None? && FreshId(d.book, d.cell.IdFor(i, side)) && m.Honest()
    ensures var cid := d.cell.IdFor(i, side);
      var pre := LookBeforeCreate(d, cfg, cid, price, quantity, m);
      && pre.desk.book == d.book && SameStance(d.cell.level, pre.desk.cell.level, side)
      && pre.desk.cell.level.HandleOf(side).None? && pre.desk.cell.Rec(side).Some? && pre.desk.cell.Rec(side).value.cid == cid
      && pre.outcome == if m.reachable then SafeToRecreate(None) else Unavailable(OtherReason)
  {
    assert EvolveAt(d.book, cfg.step, d.cell.IdFor(i, side), m) == d.book;
  }

  /**
   * A placement under a fresh id submits exactly when nothing stands in its way, and then exactly
   * the order it was asked for; otherwise the venue is as it was.
   */
  lemma PlacementExactly(d: Desk, cfg: Config, i: nat, side: Side, price: real, quantity: int, ro: bool, e: PlaceMoves)
    requires d.cell.level.HandleOf(side).None? && FreshId(d.book, d.cell.IdFor(i, side))
    requires quantity > 0 && e.Honest() && e.create.answered
    ensures var cid := d.cell.IdFor(i, side);
      var p := EnsureSlotOrder(d, cfg, i, side, price, quantity, ro, e);
      if Submits(e) then
        && p.desk.book == d.book[cid := VenueOrder(NextInstance(d.book, cid), quantity, price, 0, Live, ro)]
        && p.outcome == OpenOrder(Handle(cid, NextInstance(d.book, cid)))
        && p.desk.cell.level.HandleOf(side) == Some(Handle(cid, NextInstance(d.book, cid)))
        && SameStance(d.cell.level, p.desk.cell.level, side)
      else
        && p.desk.book == d.book && p.outcome.Unavailable? && SameStance(d.cell.level, p.desk.cell.level, side)
        && p.desk.cell.level.HandleOf(side).None?
        && p.outcome.reason == (if e.boundary == Passed && e.pre.reachable && e.intentPersisted then e.create.refusal else OtherReason)
  {
    if e.boundary == Passed {
      FreshLook(d, cfg, i, side, price, quantity, e.pre);
      var pre := LookBeforeCreate(d, cfg, d.cell.IdFor(i, side), price, quantity, e.pre);
      hide LookBeforeCreate;
      if e.pre.reachable && e.intentPersisted {
        SubmissionExactly(pre.desk, cfg, i, d.cell.IdFor(i, side), price, quantity, ro, e);
      }
    }
  }

  lemma SubmissionExactly(d: Desk, cfg: Config, i: nat, cid: Cid, price: real, quantity: int, ro: bool, e: PlaceMoves)
    requires d.cell.level.HandleOf(cid.side).None? && FreshId(d.book, cid)
    requires d.cell.Rec(cid.side).Some? && d.cell.Rec(cid.side).value.cid == cid && d.cell.Rec(cid.side).value.filledQty == 0
    requires quantity > 0 && e.Honest() && e.create.answered
    ensures var p := Submit(d, cfg, cid, price, quantity, ro, e);
      if e.create.accept then
        && p.desk.book == d.book[cid := VenueOrder(NextInstance(d.book, cid), quantity, price, 0, Live, ro)]
        && p.outcome == OpenOrder(Handle(cid, NextInstance(d.book, cid)))
        && p.desk.cell.level == d.cell.level.WithHandle(cid.side, Some(Handle(cid, NextInstance(d.book, cid))))
      else
        && p.desk.book == d.book && p.outcome == Unavailable(e.create.refusal)
        && SameStance(d.cell.level, p.desk.cell.level, cid.side) && p.desk.cell.level.HandleOf(cid.side).None?
  {
    assert EvolveAt(d.book, cfg.step, cid, e.post) == d.book;
  }

  // ----- the two halves of a tick -----

  /**
   * The entry a tick submits at a level, on the book: exactly when the mark is at or below the line,
   * nothing rests on either side, something is left to buy, and the level is neither locked nor frozen;
   * then a BUY of what is left, at the line.
   */
  predicate EntryExactly(b: Book, b': Book, cid: Cid, l: GridLevel, q: int, mark: real, frozen: bool, e: PlaceMoves) {
    && (NewOrder(b, b', cid) <==>
          && Submits(e) && mark <= l.price && l.buyOrderId.None? && l.sellOrderId.None?
          && l.Held() < q - QTY_EPSILON && l.exitOnly != Some(true) && !frozen)
    && (NewOrder(b, b', cid) ==>
          b'[cid].quantity == q - l.Held() && b'[cid].limit == l.price && !b'[cid].reduceOnly)
  }

  /**
   * The exit a tick submits at a level: exactly when the mark is at or above the line, no exit rests,
   * an exit price exists, and the slot is full or locked with inventory; then a reduce-only SELL of
   * what is held.
   */
  predicate ExitExactly(b: Book, b': Book, cid: Cid, l: GridLevel, q: int, mark: real, target: Option<real>, e: PlaceMoves) {
    && (NewOrder(b, b', cid) <==>
          && Submits(e) && mark >= l.price && l.sellOrderId.None? && target.Some?
          && (l.Held() >= q - QTY_EPSILON || (l.exitOnly == Some(true) && l.Held() > QTY_EPSILON)))
    && (NewOrder(b, b', cid) ==>
          b'[cid].quantity == l.Held() && Some(b'[cid].limit) == target && b'[cid].reduceOnly)
  }

  /** An order just submitted rests, untouched. */
  predicate Rests(b: Book, cid: Cid) { cid in b && b[cid].status == Live && b[cid].cum == 0 }

  lemma EntryHalf(w: World, cfg: Config, i: nat, mark: real, e: PlaceMoves, fee: Option<real>)
    requires Conserved(w, cfg, i) && FreshId(w.desk.book, w.desk.cell.IdFor(i, Buy)) && Plain(e)
    ensures var w' := ArmBuy(w, cfg, i, mark, e, fee);
      var cid := w.desk.cell.IdFor(i, Buy);
      && EntryExactly(w.desk.book, w'.desk.book, cid, w.desk.cell.level, cfg.orderQuantity, mark, w.frozen, e)
      && (NewOrder(w.desk.book, w'.desk.book, cid) ==> Rests(w'.desk.book, cid))
      && OnlyAt(w.desk.book, w'.desk.book, cid) && SameStance(w.desk.cell.level, w'.desk.cell.level, Buy)
  {
    var l := w.desk.cell.level;
    if BuyArmed(l, cfg.orderQuantity, mark, w.frozen) {
      var quantity := BuyRemainder(l, cfg.orderQuantity);
      BuyRoom(w, cfg, i, mark);
      PlacementExactly(w.desk, cfg, i, Buy, l.price, quantity, false, e);
      hide EnsureSlotOrder, Conserved;
    }
  }

  lemma ExitHalf(w: World, cfg: Config, i: nat, mark: real, target: Option<real>, e: PlaceMoves, fee: Option<real>)
    requires Conserved(w, cfg, i) && FreshId(w.desk.book, w.desk.cell.IdFor(i, Sell)) && Plain(e)
    ensures var w' := ArmSell(w, cfg, i, mark, target, e, fee);
      var cid := w.desk.cell.IdFor(i, Sell);
      && ExitExactly(w.desk.book, w'.desk.book, cid, w.desk.cell.level, cfg.orderQuantity, mark, target, e)
      && (NewOrder(w.desk.book, w'.desk.book, cid) ==> Rests(w'.desk.book, cid))
      && OnlyAt(w.desk.book, w'.desk.book, cid)
  {
    var l := w.desk.cell.level;
    ExitGuard(w, cfg, i, mark);
    hide Conserved, EnsureSlotOrder, SellArmed, ExitQuantity;
    if SellArmed(l, cfg.orderQuantity, mark) && target.Some? {
      PlacementExactly(w.desk, cfg, i, Sell, target.value, l.Held(), true, e);
    }
  }

  /** The exit's guard and size, in terms of what is held. */
  lemma ExitGuard(w: World, cfg: Config, i: nat, mark: real)
    requires Conserved(w, cfg, i)
    ensures var l, q := w.desk.cell.level, cfg.orderQuantity;
      && (SellArmed(l, q, mark) <==>
            && mark >= l.price && l.sellOrderId.None?
            && (l.Held() >= q - QTY_EPSILON || (l.exitOnly == Some(true) && l.Held() > QTY_EPSILON)))
      && (SellArmed(l, q, mark) ==> ExitQuantity(l, q) == l.Held() > 0)
  {
    if w.desk.cell.level.FullyLong(cfg.orderQuantity) {
      FullIsWhole(w, cfg, i);
    }
  }

  lemma ExitTouches(w: World, cfg: Config, i: nat, mark: real, target: Option<real>, e: PlaceMoves, fee: Option<real>)
    ensures OnlyAt(w.desk.book, ArmSell(w, cfg, i, mark, target, e, fee).desk.book, w.desk.cell.IdFor(i, Sell))
  {
    hide EnsureSlotOrder;
    if target.Some? {
      EnsureTouches(w.desk, cfg, i, Sell, target.value, ExitQuantity(w.desk.cell.level, cfg.orderQuantity), true, e);
    }
  }

  /** A check moves only the order of the handle it reads. */
  lemma CheckBook(w: World, cfg: Config, side: Side, m: Move, fee: Option<real>)
    requires w.desk.cell.level.HandleOf(side).Some? ==>
      w.desk.cell.Rec(side).Some? && w.desk.cell.Rec(side).value.orderId == w.desk.cell.level.HandleOf(side)
    ensures CheckSide(w, cfg, side, m, fee).desk.book
         == if w.desk.cell.level.HandleOf(side).None? then w.desk.book
            else EvolveAt(w.desk.book, cfg.step, w.desk.cell.level.HandleOf(side).value.cid, m)
  {
    hide ObserveHandle, HandleReply, EvolveAt;
  }

  /** A check ages the orders of its own side and nothing else. */
  lemma CheckAges(w: World, cfg: Config, i: nat, side: Side, m: Move, fee: Option<real>)
    requires Coherent(w, i)
    requires w.desk.cell.level.HandleOf(side).Some? ==> w.desk.cell.level.HandleOf(side).value.cid.side == side
    ensures Aged(w.desk.book, CheckSide(w, cfg, side, m, fee).desk.book)
    ensures forall cid: Cid :: cid.side == Other(side) ==> SameAt(w.desk.book, CheckSide(w, cfg, side, m, fee).desk.book, cid)
  {
    CheckBook(w, cfg, side, m, fee);
    hide CheckSide, Coherent;
  }

  lemma AgedTwice(a: Book, b: Book, c: Book)
    requires Aged(a, b) && Aged(b, c)
    ensures Aged(a, c)
  {}

  lemma HandleSides(w: World, cfg: Config, i: nat)
    requires Conserved(w, cfg, i)
    ensures Coherent(w, i)
    ensures w.desk.cell.level.buyOrderId.Some? ==> w.desk.cell.level.buyOrderId.value.cid.side == Buy
    ensures w.desk.cell.level.sellOrderId.Some? ==> w.desk.cell.level.sellOrderId.value.cid.side == Sell
  {}

  lemma CheckedConserved(w: World, cfg: Config, i: nat, side: Side, m: Move, fee: Option<real>)
    requires Conserved(w, cfg, i) && m.Honest()
    ensures Conserved(CheckSide(w, cfg, side, m, fee), cfg, i)
  {
    if w.desk.cell.level.HandleOf(side).Some? {
      var d := CheckConserved(w, cfg, i, side, m, fee);
    }
  }

  lemma SideAges(w: World, cfg: Config, i: nat, side: Side, m: Move, fee: Option<real>)
    requires Conserved(w, cfg, i)
    ensures var b := CheckSide(w, cfg, side, m, fee).desk.book;
      Aged(w.desk.book, b) && forall cid: Cid :: cid.side == Other(side) ==> SameAt(w.desk.book, b, cid)
  {
    HandleSides(w, cfg, i);
    hide Conserved, CheckSide;
    CheckAges(w, cfg, i, side, m, fee);
  }

  lemma PollAges(w: World, cfg: Config, i: nat, e: LevelEnv)
    requires Conserved(w, cfg, i) && e.buyRead.Honest()
    ensures Aged(w.desk.book, PollLevel(w, cfg, e).desk.book)
    ensures !e.buyDue ==> forall cid: Cid :: cid.side == Buy ==> SameAt(w.desk.book, PollLevel(w, cfg, e).desk.book, cid)
    ensures !e.sellDue ==> forall cid: Cid :: cid.side == Sell ==> SameAt(w.desk.book, PollLevel(w, cfg, e).desk.book, cid)
  {
    hide CheckSide, Conserved;
    var b := if e.buyDue then CheckSide(w, cfg, Buy, e.buyRead, e.buyReadFee) else w;
    SideAges(w, cfg, i, Buy, e.buyRead, e.buyReadFee);
    CheckedConserved(w, cfg, i, Buy, e.buyRead, e.buyReadFee);
    SideAges(b, cfg, i, Sell, e.sellRead, e.sellReadFee);
  }

  /** An id's order through the rest of the tick. */
  lemma Later(b: Book, b1: Book, b2: Book, cid: Cid)
    requires Aged(b1, b2)
    ensures NewOrder(b, b2, cid) <==> NewOrder(b, b1, cid)
    ensures cid in b1 ==> b2[cid].quantity == b1[cid].quantity && b2[cid].limit == b1[cid].limit && b2[cid].reduceOnly == b1[cid].reduceOnly
  {}

  /** The entry half leaves what the exit half goes by. */
  lemma HalvesApart(w: World, cfg: Config, i: nat, mark: real, g: Geometry, e: LevelEnv)
    requires Conserved(w, cfg, i) && FreshId(w.desk.book, w.desk.cell.IdFor(i, Buy)) && Plain(e.buy) && g.tick > 0.0
    ensures var bought := ArmBuy(w, cfg, i, mark, e.buy, e.buyFee);
      && Conserved(bought, cfg, i) && SellTargetPrice(bought.desk.cell.level, g) == SellTargetPrice(w.desk.cell.level, g)
      && SameStance(w.desk.cell.level, bought.desk.cell.level, Buy)
      && SameAt(w.desk.book, bought.desk.book, w.desk.cell.IdFor(i, Sell))
  {
    EntryHalf(w, cfg, i, mark, e.buy, e.buyFee);
    var d := BuyTickConserved(w, cfg, i, mark, e.buy, e.buyFee);
    hide ArmBuy, Conserved, Advances;
  }

  /** The level and the book after both halves. */
  lemma ArmsExactly(w: World, cfg: Config, i: nat, mark: real, g: Geometry, e: LevelEnv)
    requires Conserved(w, cfg, i) && FreshId(w.desk.book, w.desk.cell.IdFor(i, Buy)) && Plain(e.buy) && e.sell.Honest()
    requires g.tick > 0.0
    ensures var w' := ArmLevel(w, cfg, i, mark, g, e);
      var buy := w.desk.cell.IdFor(i, Buy);
      && Conserved(w', cfg, i)
      && EntryExactly(w.desk.book, w'.desk.book, buy, w.desk.cell.level, cfg.orderQuantity, mark, w.frozen, e.buy)
      && (NewOrder(w.desk.book, w'.desk.book, buy) ==> Rests(w'.desk.book, buy))
  {
    var bought := ArmBuy(w, cfg, i, mark, e.buy, e.buyFee);
    var target := SellTargetPrice(bought.desk.cell.level, g);
    var sold := ArmSell(bought, cfg, i, mark, target, e.sell, e.sellFee);
    HalvesApart(w, cfg, i, mark, g, e);
    hide ArmBuy, ArmSell, SellTargetPrice, FreshId, Conserved;
    EntryHalf(w, cfg, i, mark, e.buy, e.buyFee);
    ExitTouches(bought, cfg, i, mark, target, e.sell, e.sellFee);
    var d := SellTickConserved(bought, cfg, i, mark, target, e.sell, e.sellFee);
    hide Advances;
    PastOther(w.desk.book, bought.desk.book, sold.desk.book, w.desk.cell.IdFor(i, Buy), bought.desk.cell.IdFor(i, Sell),
              w.desk.cell.level, cfg.orderQuantity, mark, w.frozen, e.buy);
  }

  lemma PastOther(b: Book, b1: Book, b2: Book, cid: Cid, other: Cid, l: GridLevel, q: int, mark: real, frozen: bool, e: PlaceMoves)
    requires EntryExactly(b, b1, cid, l, q, mark, frozen, e) && OnlyAt(b1, b2, other) && cid != other
    ensures EntryExactly(b, b2, cid, l, q, mark, frozen, e) && (NewOrder(b, b2, cid) <==> NewOrder(b, b1, cid))
    ensures Rests(b1, cid) ==> Rests(b2, cid)
  {
    assert SameAt(b1, b2, cid);
  }

  lemma ExitArmsExactly(w: World, cfg: Config, i: nat, mark: real, g: Geometry, e: LevelEnv)
    requires Conserved(w, cfg, i) && FreshId(w.desk.book, w.desk.cell.IdFor(i, Buy)) && Plain(e.buy)
    requires FreshId(w.desk.book, w.desk.cell.IdFor(i, Sell)) && Plain(e.sell) && g.tick > 0.0
    ensures var w' := ArmLevel(w, cfg, i, mark, g, e);
      var l, sell := w.desk.cell.level, w.desk.cell.IdFor(i, Sell);
      && ExitExactly(w.desk.book, w'.desk.book, sell, l, cfg.orderQuantity, mark, SellTargetPrice(l, g), e.sell)
      && (NewOrder(w.desk.book, w'.desk.book, sell) ==> Rests(w'.desk.book, sell))
  {
    var bought := ArmBuy(w, cfg, i, mark, e.buy, e.buyFee);
    HalvesApart(w, cfg, i, mark, g, e);
    hide ArmBuy, Conserved, SellTargetPrice;
    ExitHalf(bought, cfg, i, mark, SellTargetPrice(bought.desk.cell.level, g), e.sell, e.sellFee);
    hide ArmSell;
  }

  /** Entry and exit of one tick, and that what no check was due for rests untouched. */
  ghost predicate TickedExactly(w: World, w': World, cfg: Config, i: nat, mark: real, target: Option<real>, e: LevelEnv) {
    var buy, sell := w.desk.cell.IdFor(i, Buy), w.desk.cell.IdFor(i, Sell);
    var l := w.desk.cell.level;
    && EntryExactly(w.desk.book, w'.desk.book, buy, l, cfg.orderQuantity, mark, w.frozen, e.buy)
    && (NewOrder(w.desk.book, w'.desk.book, buy) && !e.buyDue ==> Rests(w'.desk.book, buy))
    && (FreshId(w.desk.book, sell) && Plain(e.sell) ==>
          && ExitExactly(w.desk.book, w'.desk.book, sell, l, cfg.orderQuantity, mark, target, e.sell)
          && (NewOrder(w.desk.book, w'.desk.book, sell) && !e.sellDue ==> Rests(w'.desk.book, sell)))
  }

  /** A level that truthful runs reach, with nothing of its next entry at the venue, in a tick that loses no response. */
  ghost predicate Tickable(w: World, cfg: Config, i: nat, e: LevelEnv) {
    && Conserved(w, cfg, i) && FreshId(w.desk.book, w.desk.cell.IdFor(i, Buy))
    && Plain(e.buy) && e.sell.Honest() && e.buyRead.Honest()
  }

  /**
   * What a tick submits, over every conserved level that is not driven to an exit: the entry and the
   * exit are submitted exactly when they should be, and what no check was due for rests untouched.
   */
  lemma TickSubmitsExactly(w: World, cfg: Config, i: nat, mark: real, g: Geometry, exitPrice: Option<real>, e: LevelEnv)
    requires Tickable(w, cfg, i, e) && g.tick > 0.0
    ensures TickedExactly(w, TickLevel(w, cfg, i, mark, g, w.frozen, false, false, exitPrice, e), cfg, i, mark,
                          SellTargetPrice(w.desk.cell.level, g), e)
  {
    var armed := ArmLevel(w, cfg, i, mark, g, e);
    var b, b1, b2 := w.desk.book, armed.desk.book, PollLevel(armed, cfg, e).desk.book;
    ArmsExactly(w, cfg, i, mark, g, e);
    if FreshId(b, w.desk.cell.IdFor(i, Sell)) && Plain(e.sell) {
      ExitArmsExactly(w, cfg, i, mark, g, e);
    }
    PollAges(armed, cfg, i, e);
    assert w.(frozen := w.frozen) == w;
    assert TickLevel(w, cfg, i, mark, g, w.frozen, false, false, exitPrice, e) == PollLevel(armed, cfg, e);
    hide ArmLevel, PollLevel, Conserved, SellTargetPrice, TickLevel, FreshId;
    Later(b, b1, b2, w.desk.cell.IdFor(i, Buy));
    Later(b, b1, b2, w.desk.cell.IdFor(i, Sell));
  }

  // ----- refusals and lost responses -----

  /**
   * A refused entry locks its level exactly when the venue lacks margin, or finds the size too small
   * for what is left of a slot already partly bought; either way nothing else changes.
   */
  lemma RefusalLocksExactly(w: World, cfg: Config, i: nat, mark: real, e: PlaceMoves, fee: Option<real>)
    requires Conserved(w, cfg, i) && FreshId(w.desk.book, w.desk.cell.IdFor(i, Buy)) && e.Honest() && e.create.answered
    requires Submits(e.(create := e.create.(accept := true))) && !e.create.accept && w.desk.cell.level.exitOnly != Some(true)
    ensures var w' := ArmBuy(w, cfg, i, mark, e, fee);
      var l, l' := w.desk.cell.level, w'.desk.cell.level;
      && w'.desk.book == w.desk.book && w'.rows == w.rows && l'.Held() == l.Held()
      && (l'.exitOnly == Some(true) <==>
            && mark <= l.price && l.buyOrderId.None? && l.sellOrderId.None? && l.Held() < cfg.orderQuantity - QTY_EPSILON && !w.frozen
            && (e.create.refusal == MarginRefusal || (e.create.refusal == SizeRefusal && l.Held() > QTY_EPSILON)))
  {
    var l := w.desk.cell.level;
    if BuyArmed(l, cfg.orderQuantity, mark, w.frozen) {
      BuyRoom(w, cfg, i, mark);
      PlacementExactly(w.desk, cfg, i, Buy, l.price, BuyRemainder(l, cfg.orderQuantity), false, e);
      hide EnsureSlotOrder, Conserved;
    }
  }

  /**
   * A submission whose response is lost is adopted when the venue can be asked afterwards: there is
   * one order under the id, the one asked for, and while it rests the level holds its handle.
   */
  lemma LostResponseIsAdopted(d: Desk, cfg: Config, i: nat, side: Side, price: real, quantity: int, ro: bool, e: PlaceMoves)
    requires d.cell.level.HandleOf(side).None? && FreshId(d.book, d.cell.IdFor(i, side))
    requires quantity > 0 && e.Honest() && Submits(e) && !e.create.answered && e.post.reachable
    ensures var cid := d.cell.IdFor(i, side);
      var p := EnsureSlotOrder(d, cfg, i, side, price, quantity, ro, e);
      var order := Evolve(VenueOrder(NextInstance(d.book, cid), quantity, price, 0, Live, ro), cfg.step, e.post);
      && p.desk.book == d.book[cid := order]
      && (order.status == Live ==>
            p.desk.cell.level.HandleOf(side) == Some(Handle(cid, order.instance)) && !p.outcome.Unavailable?)
  {
    FreshLook(d, cfg, i, side, price, quantity, e.pre);
    var cid := d.cell.IdFor(i, side);
    var pre := LookBeforeCreate(d, cfg, cid, price, quantity, e.pre).desk;
    hide LookBeforeCreate;
    var created := CreateBook(d.book, cid, price, quantity, ro, e.create);
    LostLookup(Desk(pre.cell, created), cfg, cid, e.post);
    hide LookupStep;
  }

  /** A lookup that finds an order resting takes its handle. */
  lemma LostLookup(d: Desk, cfg: Config, cid: Cid, m: Move)
    requires d.cell.Rec(cid.side).Some? && d.cell.Rec(cid.side).value.cid == cid && m.Honest() && m.reachable
    requires cid in d.book && d.book[cid].status == Live
    ensures var p := LookupStep(d, cfg, cid, m);
      var order := Evolve(d.book[cid], cfg.step, m);
      && p.desk.book == d.book[cid := order]
      && (order.status == Live ==>
            && p.desk.cell.level.HandleOf(cid.side) == Some(Handle(cid, order.instance))
            && (p.outcome.OpenOrder? || p.outcome.PartiallyFilled?))
  {}

  // ----- what the records say -----

  /** The slot's record is in the state its outcome stands for, and holds the handle of an order that is open. */
  predicate Tells(c: Cell, side: Side, o: SlotOutcome) {
    c.Rec(side).Some? ==>
      var r := c.Rec(side).value;
      match o
      case OpenOrder(h) => r.state == Open && r.orderId == Some(h)
      case PartiallyFilled(h, _, _, _, _) => r.state == Open && r.orderId == Some(h)
      case FilledOrder(_, _, _, _, _) => r.state == Filled
      case SafeToRecreate(_) => r.state == NotFound && r.orderId.None?
      case Unavailable(_) => r.state == ExchangeUnavailable
  }

  predicate OwnRecord(c: Cell, side: Side) { c.Rec(side).Some? && c.Rec(side).value.cid.side == side }

  lemma LookupTells(c: Cell, q: int, cid: Cid, reply: Lookup)
    requires OwnRecord(c, cid.side)
    ensures var o := ObserveLookup(c, q, cid, reply);
      OwnRecord(o.cell, cid.side) && Tells(o.cell, cid.side, o.outcome)
  {}

  lemma ReadTells(c: Cell, q: int, r: OrderRecord, h: Handle, reply: OrderReply)
    requires c.Rec(r.cid.side) == Some(r)
    ensures var o := ObserveHandle(c, q, r, h, reply); Tells(o.cell, r.cid.side, o.outcome)
  {}

  /** Whatever a placement meets past an off-tick price, the record it was for ends up in the state of its outcome. */
  lemma PlacementTells(d: Desk, cfg: Config, i: nat, side: Side, price: real, quantity: int, ro: bool, e: PlaceMoves)
    requires d.cell.Rec(side).Some? ==> d.cell.Rec(side).value.cid.side == side
    ensures var p := EnsureSlotOrder(d, cfg, i, side, price, quantity, ro, e);
      if e.boundary == Passed || (e.boundary != OffTick && d.cell.Current(i, side)) then Tells(p.desk.cell, side, p.outcome)
      else p.desk == d && p.outcome == Unavailable(OtherReason)
  {
    if e.boundary == Passed {
      var cid := d.cell.IdFor(i, side);
      var begun := MarkState(BeginSubmit(d.cell, cid, price, quantity), side, Submitting);
      LookupTells(begun, cfg.orderQuantity, cid, LookupReply(EvolveAt(d.book, cfg.step, cid, e.pre), cid, e.pre));
      var pre := LookBeforeCreate(d, cfg, cid, price, quantity, e.pre);
      hide LookBeforeCreate;
      var created := EvolveAt(CreateBook(pre.desk.book, cid, price, quantity, ro, e.create), cfg.step, cid, e.post);
      LookupTells(pre.desk.cell, cfg.orderQuantity, cid, LookupReply(created, cid, e.post));
      hide ObserveLookup, LookupReply;
    }
  }

  // ----- the stop-loss exit -----

  /** The stop-loss exit is priced at the mark, rounded down by less than a tick; a level has none exactly when that is nothing. */
  lemma StopExitIsAtTheMark(mark: real, line: real, tick: real)
    requires tick > 0.0
    ensures var at := if mark > 0.0 then mark else line;
      && (StopExitPrice(mark, line, tick).None? <==> at < tick)
      && (StopExitPrice(mark, line, tick).Some? ==>
            var p := StopExitPrice(mark, line, tick).value;
            0.0 < p <= at < p + tick && Ticks.IsMultiple(p, tick))
  {
    var at := if mark > 0.0 then mark else line;
    Ticks.DownIsGreatest(at, tick);
    if at >= tick {
      assert Ticks.Times(1, tick) <= at;
    } else if Ticks.QuantDown(at, tick) > 0.0 {
      PositiveMultiple(Ticks.QuantDown(at, tick), tick);
    }
  }

  lemma PositiveMultiple(x: real, tick: real)
    requires tick > 0.0 && x > 0.0 && Ticks.IsMultiple(x, tick)
    ensures x >= tick
  {
    var k: int :| Ticks.Times(k, tick) == x;
    if k >= 1 {
      Ticks.MulLe(1.0, k as real, tick);
    } else {
      Ticks.MulLe(k as real, 0.0, tick);
    }
  }

  /**
   * The stop-loss exit of a level, on the book: a reduce-only SELL of all it holds, at the exit price,
   * exactly when it holds something, no exit rests and there is a price.
   */
  lemma StopExitExactly(w: World, cfg: Config, i: nat, price: Option<real>, e: LevelEnv)
    requires Conserved(w, cfg, i) && w.frozen && FreshId(w.desk.book, w.desk.cell.IdFor(i, Sell)) && Plain(e.exit)
    ensures var w' := DriveLevel(w, cfg, i, true, false, true, price, e);
      var cid, l := w.desk.cell.IdFor(i, Sell), w.desk.cell.level;
      && (NewOrder(w.desk.book, w'.desk.book, cid) <==>
            Submits(e.exit) && l.Held() > QTY_EPSILON && l.sellOrderId.None? && price.Some?)
      && (NewOrder(w.desk.book, w'.desk.book, cid) ==>
            && Rests(w'.desk.book, cid) && w'.desk.book[cid].quantity == l.Held()
            && Some(w'.desk.book[cid].limit) == price && w'.desk.book[cid].reduceOnly)
  {
    assert w.(frozen := true) == w;
    HeldIs(w, cfg, i);
    if w.desk.cell.level.Held() > QTY_EPSILON && w.desk.cell.level.sellOrderId.None? && price.Some? {
      PlacementExactly(w.desk, cfg, i, Sell, price.value, w.desk.cell.level.Held(), true, e.exit);
    }
    hide EnsureSlotOrder, Conserved, HeldQtyOf;
  }

  lemma HeldIs(w: World, cfg: Config, i: nat)
    requires Conserved(w, cfg, i)
    ensures HeldQtyOf(w.desk.cell.level, cfg.orderQuantity) == w.desk.cell.level.Held()
  {}
}
