/** Single live order a slot, over every run with crashes back to the last snapshot. */
module SingleOrderRuns {
  import opened Options
  import opened OrderState
  import opened LevelMachine
  import opened Venue
  import opened SlotReconciliation
  import opened Ledger
  import opened LevelRuns
  import opened Tiling
  import opened TilingRuns
  import opened SingleOrder

  // ----- submission -----

  /** The venue has nothing open and nothing executed under the id. */
  ghost predicate FreshId(b: Book, cid: Cid) {
    cid in b ==> b[cid].status == Dead && b[cid].cum == 0
  }

  /** A lookup that frees the slot without a fill shows the id is the newest one and was never executed. */
  lemma LookupReady(c: Cell, q: int, i: nat, side: Side, rows: seq<Row>, b: Book, m: Move, top: nat)
    requires CellCoherent(c, rows, i) && c.Current(i, side) && m.Honest() && View(c, i, side).booked == 0
    requires Chained(View(c, i, side), b, i, side, top)
    requires ObserveLookup(c, q, c.IdFor(i, side), LookupReply(b, c.IdFor(i, side), m)).outcome == SafeToRecreate(None)
    ensures View(ObserveLookup(c, q, c.IdFor(i, side), LookupReply(b, c.IdFor(i, side), m)).cell, i, side)
         == SlotView(c.level.Gen(side), None, 0)
    ensures c.level.Gen(side) == top && FreshId(b, c.IdFor(i, side))
  {
    var cid := c.IdFor(i, side);
    NotFoundView(c, i, side, rows);
    match LookupReply(b, cid, m)
    case FoundCanceled(row) =>
      assert row.executedQuantity == Some(b[cid].cum) && SoundOrder(b[cid]);
    case Absent =>
    case _ =>
  }

  lemma CreateChained(v: SlotView, b: Book, i: nat, side: Side, top: nat, price: real, quantity: int, ro: bool,
                      m: CreateMove)
    requires Chained(v, b, i, side, top) && v == SlotView(top, None, 0) && FreshId(b, Cid(i, side, top))
    requires quantity > QTY_EPSILON
    ensures var b' := CreateBook(b, Cid(i, side, top), price, quantity, ro, m);
      && Chained(v, b', i, side, top) && Grows(b, b') && SameSide(b, b', Other(side))
      && (CreateAnswer(b, Cid(i, side, top), quantity, m).Created? ==>
            Chained(v.(handle := Some(CreateAnswer(b, Cid(i, side, top), quantity, m).orderId)), b', i, side, top))
  {}

  lemma RecoverChained(w: World, cfg: Config, i: nat, side: Side, reason: Reason, m: Move, top: nat) returns (top': nat)
    requires Coherent(w, i) && w.desk.cell.Current(i, side) && m.Honest() && cfg.step > QTY_EPSILON
    requires Chained(View(w.desk.cell, i, side), w.desk.book, i, side, top)
    ensures var d' := Recover(w.desk, cfg, w.desk.cell.IdFor(i, side), reason, m).desk;
      top <= top' && Chained(View(d'.cell, i, side), d'.book, i, side, top') && Contained(w.desk, d', i, side)
    ensures w.desk.cell.level.Gen(side) == top ==>
      Recover(w.desk, cfg, w.desk.cell.IdFor(i, side), reason, m).desk.cell.level.Gen(side) == top'
  {
    var cid := w.desk.cell.IdFor(i, side);
    top' := LookupStepChained(w.desk, cfg, i, side, w.rows, m, top);
    var seen := LookupStep(w.desk, cfg, cid, m).desk;
    forall any ensures View(MarkState(seen.cell, side, ExchangeUnavailable), i, any) == View(seen.cell, i, any) {
      LookupSlots(w.desk, cfg, i, side, w.rows, m);
      StateView(seen.cell, i, side, any);
    }
  }

  /** After a lookup the slot's record still belongs to the slot. */
  lemma LookupSlots(d: Desk, cfg: Config, i: nat, side: Side, rows: seq<Row>, m: Move)
    requires CellCoherent(d.cell, rows, i) && d.cell.Current(i, side)
    ensures var c := LookupStep(d, cfg, d.cell.IdFor(i, side), m).desk.cell;
      c.Rec(side).Some? && c.Rec(side).value.cid.SlotOf() == Slot(i, side)
  {}

  lemma StateView(c: Cell, i: nat, side: Side, any: Side)
    requires c.Rec(side).Some? ==> c.Rec(side).value.cid.side == side
    ensures View(MarkState(c, side, ExchangeUnavailable), i, any) == View(c, i, any)
  {}

  lemma SubmitChained(w: World, cfg: Config, i: nat, side: Side, price: real, quantity: int, ro: bool, e: PlaceMoves,
                      top: nat) returns (top': nat)
    requires Coherent(w, i) && w.desk.cell.Current(i, side) && e.Honest() && cfg.step > QTY_EPSILON
    requires quantity > QTY_EPSILON
    requires View(w.desk.cell, i, side) == SlotView(top, None, 0) && FreshId(w.desk.book, Cid(i, side, top))
    requires Chained(View(w.desk.cell, i, side), w.desk.book, i, side, top)
    ensures var d' := Submit(w.desk, cfg, w.desk.cell.IdFor(i, side), price, quantity, ro, e).desk;
      top <= top' && Chained(View(d'.cell, i, side), d'.book, i, side, top') && Contained(w.desk, d', i, side)
    ensures Submit(w.desk, cfg, w.desk.cell.IdFor(i, side), price, quantity, ro, e).desk.cell.level.Gen(side) == top'
  {
    var c := w.desk.cell;
    var cid := c.IdFor(i, side);
    var b := CreateBook(w.desk.book, cid, price, quantity, ro, e.create);
    CreateChained(View(c, i, side), w.desk.book, i, side, top, price, quantity, ro, e.create);
    match CreateAnswer(w.desk.book, cid, quantity, e.create)
    case Created(h) =>
      top' := top;
    case Refused(reason) =>
      top' := RecoverChained(w.(desk := Desk(c, b)), cfg, i, side, reason, e.post, top);
      GrowsTrans(w.desk.book, b, Recover(Desk(c, b), cfg, cid, reason, e.post).desk.book);
  }

  /**
   * Every submission is fresh: when a placement gets as far as `createOrder`, the id it
   * uses is the slot's current one, the ledger holds nothing under it, and the venue has
   * neither an open order nor any execution under it.
   */
  lemma SubmissionIsFresh(w: World, cfg: Config, i: nat, side: Side, price: real, quantity: int, e: PlaceMoves,
                          top: nat)
    requires Coherent(w, i) && w.desk.cell.level.HandleOf(side).None? && e.Honest() && cfg.step > QTY_EPSILON
    requires Chained(View(w.desk.cell, i, side), w.desk.book, i, side, top)
    ensures var cid := w.desk.cell.IdFor(i, side);
      var pre := LookBeforeCreate(w.desk, cfg, cid, price, quantity, e.pre);
      pre.outcome == SafeToRecreate(None) ==>
        && pre.desk.cell.IdFor(i, side) == cid && cid.gen == top
        && CellCoherent(pre.desk.cell, w.rows, i) && pre.desk.cell.Current(i, side)
        && View(pre.desk.cell, i, side) == SlotView(top, None, 0)
        && Booked(w.rows, cid) == 0 && FreshId(pre.desk.book, cid)
        && Chained(View(pre.desk.cell, i, side), pre.desk.book, i, side, top)
        && Contained(w.desk, pre.desk, i, side)
  {
    var c := w.desk.cell;
    var cid := c.IdFor(i, side);
    BeginKept(c, i, side, price, quantity, w.rows);
    var begun := MarkState(BeginSubmit(c, cid, price, quantity), side, Submitting);
    BeginView(c, i, side, price, quantity);
    var b := EvolveAt(w.desk.book, cfg.step, cid, e.pre);
    FreedKept(View(c, i, side), w.desk.book, i, side, top);
    EvolveKept(View(begun, i, side), w.desk.book, i, side, top, cfg.step, cid, e.pre);
    EvolveContained(w.desk.book, i, side, top, cfg.step, cid, e.pre);
    LookupStepIs(w.desk.(cell := begun), cfg, cid, e.pre);
    LookupIsLocal(begun, cfg.orderQuantity, i, side, LookupReply(b, cid, e.pre));
    if LookBeforeCreate(w.desk, cfg, cid, price, quantity, e.pre).outcome == SafeToRecreate(None) {
      LookupReady(begun, cfg.orderQuantity, i, side, w.rows, b, e.pre, top);
      LookupFrees(begun, cfg.orderQuantity, i, side, w.rows, LookupReply(b, cid, e.pre));
    }
  }

  lemma BeginView(c: Cell, i: nat, side: Side, price: real, quantity: int)
    requires c.level.HandleOf(side).None?
    ensures var begun := MarkState(BeginSubmit(c, c.IdFor(i, side), price, quantity), side, Submitting);
      && View(begun, i, side) == SlotView(c.level.Gen(side), None, 0)
      && View(begun, i, Other(side)) == View(c, i, Other(side))
  {}

  lemma AttemptChained(w: World, cfg: Config, i: nat, side: Side, price: real, quantity: int, ro: bool, e: PlaceMoves,
                       top: nat) returns (top': nat)
    requires Coherent(w, i) && w.desk.cell.level.HandleOf(side).None? && e.Honest()
    requires cfg.step > QTY_EPSILON && quantity > QTY_EPSILON
    requires Chained(View(w.desk.cell, i, side), w.desk.book, i, side, top)
    ensures var d' := Attempt(w.desk, cfg, w.desk.cell.IdFor(i, side), price, quantity, ro, e).desk;
      top <= top' && Chained(View(d'.cell, i, side), d'.book, i, side, top') && Contained(w.desk, d', i, side)
    ensures w.desk.cell.level.Gen(side) == top ==>
      Attempt(w.desk, cfg, w.desk.cell.IdFor(i, side), price, quantity, ro, e).desk.cell.level.Gen(side) == top'
  {
    var c := w.desk.cell;
    var cid := c.IdFor(i, side);
    var begun := MarkState(BeginSubmit(c, cid, price, quantity), side, Submitting);
    var pre := LookBeforeCreate(w.desk, cfg, cid, price, quantity, e.pre);
    if pre.outcome == SafeToRecreate(None) {
      SubmissionIsFresh(w, cfg, i, side, price, quantity, e, top);
      StateView(pre.desk.cell, i, side, side);
      StateView(pre.desk.cell, i, side, Other(side));
      if e.intentPersisted {
        top' := SubmitChained(w.(desk := pre.desk), cfg, i, side, price, quantity, ro, e, top);
        GrowsTrans(w.desk.book, pre.desk.book, Submit(pre.desk, cfg, cid, price, quantity, ro, e).desk.book);
      } else {
        top' := top;
      }
    } else {
      BeginKept(c, i, side, price, quantity, w.rows);
      BeginView(c, i, side, price, quantity);
      FreedKept(View(c, i, side), w.desk.book, i, side, top);
      top' := LookupStepChained(w.desk.(cell := begun), cfg, i, side, w.rows, e.pre, top);
    }
  }

  lemma EnsureChained(w: World, cfg: Config, i: nat, side: Side, price: real, quantity: int, ro: bool, e: PlaceMoves,
                      top: nat) returns (top': nat)
    requires Coherent(w, i) && w.desk.cell.level.HandleOf(side).None? && e.Honest()
    requires cfg.step > QTY_EPSILON && quantity > QTY_EPSILON
    requires Chained(View(w.desk.cell, i, side), w.desk.book, i, side, top)
    ensures var d' := EnsureSlotOrder(w.desk, cfg, i, side, price, quantity, ro, e).desk;
      top <= top' && Chained(View(d'.cell, i, side), d'.book, i, side, top') && Contained(w.desk, d', i, side)
    ensures w.desk.cell.level.Gen(side) == top ==>
      EnsureSlotOrder(w.desk, cfg, i, side, price, quantity, ro, e).desk.cell.level.Gen(side) == top'
  {
    if e.boundary == Passed {
      top' := AttemptChained(w, cfg, i, side, price, quantity, ro, e, top);
    } else {
      top' := top;
      StateView(w.desk.cell, i, side, side);
      StateView(w.desk.cell, i, side, Other(side));
    }
  }

  // ----- confirmed cancels -----

  lemma CancelAtKept(v: SlotView, b: Book, i: nat, side: Side, top: nat, step: nat, m: Move)
    requires Chained(v, b, i, side, top) && v.handle.Some? && step > QTY_EPSILON
    ensures var b' := CancelAt(b, step, v.handle.value, m);
      && Chained(v, b', i, side, top) && Grows(b, b') && SameSide(b, b', Other(side))
      && (v.booked > 0 ==> b'[v.handle.value.cid].status != Live)
  {
    EvolveSound(b[v.handle.value.cid], step, m);
  }

  /** A check after which the slot is neither filled nor freed, of an order known to be over, learnt nothing. */
  lemma OverOrderUnread(w: World, cfg: Config, i: nat, side: Side, m: Move, top: nat)
    requires Coherent(w, i) && w.desk.cell.level.HandleOf(side).Some? && m.Honest()
    requires Chained(View(w.desk.cell, i, side), w.desk.book, i, side, top)
    requires var h := w.desk.cell.level.HandleOf(side).value;
      w.desk.book[h.cid].instance == h.instance ==> w.desk.book[h.cid].status != Live
    ensures var p := CheckSlot(w.desk, cfg, side, m);
      !p.outcome.FilledOrder? && !p.outcome.SafeToRecreate? ==>
        && p.outcome.Unavailable? && p.desk.cell == MarkState(w.desk.cell, side, ExchangeUnavailable)
        && p.desk.book[w.desk.cell.level.HandleOf(side).value.cid].instance == w.desk.book[w.desk.cell.level.HandleOf(side).value.cid].instance
  {}

  lemma CancelChained(w: World, cfg: Config, i: nat, side: Side, confirmed: bool, last: Move, m: Move,
                      fee: Option<real>, top: nat) returns (top': nat)
    requires Coherent(w, i) && m.Honest() && cfg.step > QTY_EPSILON
    requires Chained(View(w.desk.cell, i, side), w.desk.book, i, side, top)
    ensures var d' := CancelSide(w, cfg, side, confirmed, last, m, fee).desk;
      top <= top' && Chained(View(d'.cell, i, side), d'.book, i, side, top') && Contained(w.desk, d', i, side)
    ensures w.desk.cell.level.Gen(side) == top ==>
      CancelSide(w, cfg, side, confirmed, last, m, fee).desk.cell.level.Gen(side) == top'
  {
    var h := w.desk.cell.level.HandleOf(side);
    top' := top;
    if h.Some? && confirmed {
      var canceled := w.(desk := w.desk.(book := CancelAt(w.desk.book, cfg.step, h.value, last)));
      CancelAtKept(View(w.desk.cell, i, side), w.desk.book, i, side, top, cfg.step, last);
      top' := ReconciledChained(canceled, cfg, i, side, m, fee, top);
      GrowsTrans(w.desk.book, canceled.desk.book, ReconcileCancelledSlot(canceled, cfg, side, m, fee).desk.book);
    }
  }

  lemma ReconciledChained(w: World, cfg: Config, i: nat, side: Side, m: Move, fee: Option<real>, top: nat)
    returns (top': nat)
    requires Coherent(w, i) && w.desk.cell.level.HandleOf(side).Some? && m.Honest() && cfg.step > QTY_EPSILON
    requires Chained(View(w.desk.cell, i, side), w.desk.book, i, side, top)
    requires var h := w.desk.cell.level.HandleOf(side).value;
      w.desk.book[h.cid].instance == h.instance ==> w.desk.book[h.cid].status != Live
    ensures var d' := ReconcileCancelledSlot(w, cfg, side, m, fee).desk;
      top <= top' && Chained(View(d'.cell, i, side), d'.book, i, side, top') && Contained(w.desk, d', i, side)
    ensures w.desk.cell.level.Gen(side) == top ==> ReconcileCancelledSlot(w, cfg, side, m, fee).desk.cell.level.Gen(side) == top'
  {
    top' := CheckChained(w, cfg, i, side, m, top);
    var p := CheckSlot(w.desk, cfg, side, m);
    BookingKeepsView(w.(desk := p.desk), cfg.orderQuantity, i, side, p.outcome, fee, side);
    BookingKeepsView(w.(desk := p.desk), cfg.orderQuantity, i, side, p.outcome, fee, Other(side));
    if !p.outcome.FilledOrder? && !p.outcome.SafeToRecreate? {
      top' := CancelFreed(w, cfg, i, side, m, fee, top);
    }
  }

  /** The confirmed cancel frees a slot the venue would not read: a booked id is spent on an order that is over. */
  lemma CancelFreed(canceled: World, cfg: Config, i: nat, side: Side, m: Move, fee: Option<real>, top: nat)
    returns (top': nat)
    requires Coherent(canceled, i) && canceled.desk.cell.level.HandleOf(side).Some? && m.Honest()
    requires cfg.step > QTY_EPSILON
    requires Chained(View(canceled.desk.cell, i, side), canceled.desk.book, i, side, top)
    requires var h := canceled.desk.cell.level.HandleOf(side).value;
      canceled.desk.book[h.cid].instance == h.instance ==> canceled.desk.book[h.cid].status != Live
    requires var p := CheckSlot(canceled.desk, cfg, side, m); !p.outcome.FilledOrder? && !p.outcome.SafeToRecreate?
    ensures var p := CheckSlot(canceled.desk, cfg, side, m);
      var booked := BookOutcome(canceled.(desk := p.desk), cfg.orderQuantity, side, p.outcome, fee);
      var c' := MarkNotFound(booked.desk.cell, side);
      && top <= top' && Chained(View(c', i, side), p.desk.book, i, side, top')
      && View(c', i, Other(side)) == View(canceled.desk.cell, i, Other(side))
    ensures canceled.desk.cell.level.Gen(side) == top ==>
      MarkNotFound(BookOutcome(canceled.(desk := CheckSlot(canceled.desk, cfg, side, m).desk), cfg.orderQuantity, side,
        CheckSlot(canceled.desk, cfg, side, m).outcome, fee).desk.cell, side).level.Gen(side) == top'
  {
    var p := CheckSlot(canceled.desk, cfg, side, m);
    OverOrderUnread(canceled, cfg, i, side, m, top);
    NothingToBook(canceled.(desk := p.desk), cfg.orderQuantity, side, p.outcome, fee);
    CheckIs(canceled, cfg, i, side, m);
    hide BookOutcome, MarkNotFound, CheckSlot, Chained, Coherent;
    top' := UnreadFreed(canceled.desk.cell, canceled.rows, canceled.desk.book, i, side, cfg.step, m, top);
  }

  lemma UnreadFreed(c: Cell, rows: seq<Row>, b: Book, i: nat, side: Side, step: nat, m: Move, top: nat) returns (top': nat)
    requires CellCoherent(c, rows, i) && c.level.HandleOf(side).Some? && step > QTY_EPSILON
    requires Chained(View(c, i, side), b, i, side, top)
    requires var h := c.level.HandleOf(side).value; b[h.cid].instance == h.instance ==> b[h.cid].status != Live
    ensures var c' := MarkNotFound(MarkState(c, side, ExchangeUnavailable), side);
      && top <= top' && Chained(View(c', i, side), EvolveAt(b, step, c.level.HandleOf(side).value.cid, m), i, side, top')
      && View(c', i, Other(side)) == View(c, i, Other(side)) && (c.level.Gen(side) == top ==> c'.level.Gen(side) == top')
  {
    var h := c.level.HandleOf(side).value;
    var book := EvolveAt(b, step, h.cid, m);
    StateKept(c, i, side, ExchangeUnavailable, rows);
    StateView(c, i, side, side);
    StateView(c, i, side, Other(side));
    NotFoundView(MarkState(c, side, ExchangeUnavailable), i, side, rows);
    EvolveKept(View(c, i, side), b, i, side, top, step, h.cid, m);
    top' := top;
    hide Grows;
    if View(c, i, side).booked > 0 {
      top' := SpentKept(View(c, i, side), book, i, side, top);
    } else {
      FreedKept(View(c, i, side), book, i, side, top);
    }
  }

  // ----- restart -----

  /** A restored slot remembers exactly what the running one did. */
  lemma RestoredView(w: World, q: int, i: nat, side: Side)
    requires Coherent(w, i)
    ensures View(Restored(w.desk.cell.level, q, i), i, side) == View(w.desk.cell, i, side)
  {}

  lemma CollectedView(w: World, q: int, i: nat, side: Side, o: SlotOutcome, fee: Option<real>, any: Side)
    ensures View(BookCollected(w, q, side, o, fee).desk.cell, i, any) == View(w.desk.cell, i, any)
    ensures BookCollected(w, q, side, o, fee).desk.book == w.desk.book
  {
    BookingKeepsView(w, q, i, side, o, fee, any);
  }

  lemma ResolveChained(w: World, cfg: Config, i: nat, side: Side, m: Move, top: nat) returns (top': nat)
    requires Coherent(w, i) && m.Honest() && cfg.step > QTY_EPSILON
    requires Chained(View(w.desk.cell, i, side), w.desk.book, i, side, top)
    ensures var d' := ResolveSide(w.desk, cfg, side, m).desk;
      top <= top' && Chained(View(d'.cell, i, side), d'.book, i, side, top') && Contained(w.desk, d', i, side)
    ensures w.desk.cell.level.Gen(side) == top ==> ResolveSide(w.desk, cfg, side, m).desk.cell.level.Gen(side) == top'
  {
    if w.desk.cell.level.HandleOf(side).Some? {
      top' := CheckChained(w, cfg, i, side, m, top);
    } else {
      top' := top;
    }
  }

  /** A view of the side an operation leaves alone stays borne out. */
  lemma UntouchedKept(v: SlotView, b: Book, b': Book, i: nat, side: Side, top: nat)
    requires Chained(v, b, i, side, top) && SameSide(b, b', side)
    ensures Chained(v, b', i, side, top)
  {}

  /** Both slots of a level, running and as last saved, borne out by one book. */
  ghost predicate Backed(c: Cell, saved: Cell, b: Book, i: nat, topBuy: nat, topSell: nat) {
    && Chained(View(c, i, Buy), b, i, Buy, topBuy) && Chained(View(saved, i, Buy), b, i, Buy, topBuy)
    && Chained(View(c, i, Sell), b, i, Sell, topSell) && Chained(View(saved, i, Sell), b, i, Sell, topSell)
  }

  /** An operation on one slot keeps both slots and the saved ones backed. */
  lemma BackedAfter(d: Desk, d': Desk, saved: Cell, i: nat, side: Side, topBuy: nat, topSell: nat, top': nat)
    requires Backed(d.cell, saved, d.book, i, topBuy, topSell) && Contained(d, d', i, side)
    requires (if side == Buy then topBuy else topSell) <= top'
    requires Chained(View(d'.cell, i, side), d'.book, i, side, top')
    ensures Backed(d'.cell, saved, d'.book, i, if side == Buy then top' else topBuy, if side == Sell then top' else topSell)
  {
    if side == Buy {
      OldViewKept(View(saved, i, Buy), d.book, d'.book, i, Buy, topBuy, top');
      UntouchedKept(View(saved, i, Sell), d.book, d'.book, i, Sell, topSell);
      UntouchedKept(View(d.cell, i, Sell), d.book, d'.book, i, Sell, topSell);
    } else {
      OldViewKept(View(saved, i, Sell), d.book, d'.book, i, Sell, topSell, top');
      UntouchedKept(View(saved, i, Buy), d.book, d'.book, i, Buy, topBuy);
      UntouchedKept(View(d.cell, i, Buy), d.book, d'.book, i, Buy, topBuy);
    }
  }

  lemma StartupBacked(w: World, saved: Cell, cfg: Config, i: nat, mBuy: Move, mSell: Move, feeBuy: Option<real>,
                      feeSell: Option<real>, topBuy: nat, topSell: nat)
    returns (topBuy': nat, topSell': nat)
    requires Coherent(w, i) && mBuy.Honest() && mSell.Honest() && cfg.step > QTY_EPSILON
    requires Backed(w.desk.cell, saved, w.desk.book, i, topBuy, topSell)
    ensures var w' := Startup(w, cfg, mBuy, mSell, feeBuy, feeSell);
      Backed(w'.desk.cell, saved, w'.desk.book, i, topBuy', topSell') && Grows(w.desk.book, w'.desk.book)
  {
    var q := cfg.orderQuantity;
    var b := ResolveSide(w.desk, cfg, Buy, mBuy);
    topBuy' := ResolveChained(w, cfg, i, Buy, mBuy, topBuy);
    BackedAfter(w.desk, b.desk, saved, i, Buy, topBuy, topSell, topBuy');
    ResolveKept(w, cfg, i, Buy, mBuy, feeBuy);
    var mid := w.(desk := b.desk, rows := w.rows + Owed(b.desk.cell, q, Buy, b.outcome, feeBuy));
    var s := ResolveSide(b.desk, cfg, Sell, mSell);
    topSell' := ResolveChained(mid, cfg, i, Sell, mSell, topSell);
    BackedAfter(b.desk, s.desk, saved, i, Sell, topBuy', topSell, topSell');
    GrowsTrans(w.desk.book, b.desk.book, s.desk.book);
    var resolved := w.(desk := s.desk);
    var bought := BookCollected(resolved, q, Buy, b.outcome, feeBuy);
    CollectedView(resolved, q, i, Buy, b.outcome, feeBuy, Buy);
    CollectedView(resolved, q, i, Buy, b.outcome, feeBuy, Sell);
    CollectedView(bought, q, i, Sell, s.outcome, feeSell, Buy);
    CollectedView(bought, q, i, Sell, s.outcome, feeSell, Sell);
  }

  // ----- runs with crashes -----

  datatype CrashEvent =
    | Engine(event: Event)
    | Persist
    | Crash(buyMove: Move, sellMove: Move, feeBuy: Option<real>, feeSell: Option<real>)

  /** The running world and the one the last snapshot was taken of. */
  datatype Pair = Pair(live: World, saved: World)

  /** A crash loses everything since the last snapshot except what the venue holds. */
  function CrashStep(p: Pair, cfg: Config, i: nat, e: CrashEvent): Pair {
    match e
    case Engine(event) => p.(live := Step(p.live, cfg, i, event))
    case Persist => p.(saved := p.live)
    case Crash(mb, ms, fb, fs) =>
      var memory := Restored(p.saved.desk.cell.level, cfg.orderQuantity, i);
      p.(live := Startup(p.saved.(desk := Desk(memory, p.live.desk.book)), cfg, mb, ms, fb, fs))
  }

  function CrashRun(p: Pair, cfg: Config, i: nat, events: seq<CrashEvent>): Pair {
    if events == [] then p
    else CrashStep(CrashRun(p, cfg, i, events[..|events| - 1]), cfg, i, events[|events| - 1])
  }

  predicate HonestEvent(e: Event) {
    match e
    case VenueMoves(_, _, _) => true
    case BuyTick(_, place, _) => place.Honest()
    case SellTick(_, _, place, _) => place.Honest()
    case Poll(_, m, _) => m.Honest()
    case Cancel(_, _, _, m, _) => m.Honest()
    case Freeze => true
    case StopExit(_, place, _) => place.Honest()
    case Reboot(mb, ms, _, _) => mb.Honest() && ms.Honest()
  }

  predicate HonestCrash(e: CrashEvent) {
    match e
    case Engine(event) => HonestEvent(event)
    case Persist => true
    case Crash(mb, ms, _, _) => mb.Honest() && ms.Honest()
  }

  lemma SideStepBacked(w: World, w': World, saved: Cell, cfg: Config, i: nat, side: Side, topBuy: nat, topSell: nat,
                       top': nat)
    returns (topBuy': nat, topSell': nat)
    requires Backed(w.desk.cell, saved, w.desk.book, i, topBuy, topSell) && Contained(w.desk, w'.desk, i, side)
    requires (if side == Buy then topBuy else topSell) <= top'
    requires Chained(View(w'.desk.cell, i, side), w'.desk.book, i, side, top')
    ensures Backed(w'.desk.cell, saved, w'.desk.book, i, topBuy', topSell') && Grows(w.desk.book, w'.desk.book)
  {
    BackedAfter(w.desk, w'.desk, saved, i, side, topBuy, topSell, top');
    topBuy', topSell' := if side == Buy then top' else topBuy, if side == Sell then top' else topSell;
  }

  /** Placing on a free slot, at a size above the tolerance. */
  lemma PlaceBacked(w: World, saved: Cell, cfg: Config, i: nat, side: Side, price: real, quantity: int, e: PlaceMoves,
                    fee: Option<real>, topBuy: nat, topSell: nat)
    returns (topBuy': nat, topSell': nat)
    requires Coherent(w, i) && w.desk.cell.level.HandleOf(side).None? && e.Honest()
    requires cfg.step > QTY_EPSILON && quantity > QTY_EPSILON
    requires Backed(w.desk.cell, saved, w.desk.book, i, topBuy, topSell)
    ensures var p := EnsureSlotOrder(w.desk, cfg, i, side, price, quantity, side == Sell, e);
      Backed(p.desk.cell, saved, p.desk.book, i, topBuy', topSell') && Grows(w.desk.book, p.desk.book)
    ensures var w' := PlaceAndBook(w, cfg, i, side, price, quantity, e, fee);
      Backed(w'.desk.cell, saved, w'.desk.book, i, topBuy', topSell') && Grows(w.desk.book, w'.desk.book)
  {
    var p := EnsureSlotOrder(w.desk, cfg, i, side, price, quantity, side == Sell, e);
    var top' := EnsureChained(w, cfg, i, side, price, quantity, side == Sell, e, if side == Buy then topBuy else topSell);
    topBuy', topSell' := SideStepBacked(w, w.(desk := p.desk), saved, cfg, i, side, topBuy, topSell, top');
    BookingKeepsView(w.(desk := p.desk), cfg.orderQuantity, i, side, p.outcome, fee, Buy);
    BookingKeepsView(w.(desk := p.desk), cfg.orderQuantity, i, side, p.outcome, fee, Sell);
  }

  lemma VenueBacked(c: Cell, saved: Cell, b: Book, cfg: Config, i: nat, side: Side, gen: nat, m: Move, topBuy: nat,
                    topSell: nat)
    requires Backed(c, saved, b, i, topBuy, topSell) && cfg.step > QTY_EPSILON
    ensures var b' := EvolveAt(b, cfg.step, Cid(i, side, gen), m);
      Backed(c, saved, b', i, topBuy, topSell) && Grows(b, b')
  {
    var cid := Cid(i, side, gen);
    assert cid in b ==> SoundOrder(b[cid]);
    EvolveKept(View(c, i, Buy), b, i, Buy, topBuy, cfg.step, cid, m);
    EvolveKept(View(saved, i, Buy), b, i, Buy, topBuy, cfg.step, cid, m);
    EvolveKept(View(c, i, Sell), b, i, Sell, topSell, cfg.step, cid, m);
    EvolveKept(View(saved, i, Sell), b, i, Sell, topSell, cfg.step, cid, m);
  }

  lemma BuyTickBacked(w: World, saved: Cell, cfg: Config, i: nat, mark: real, e: PlaceMoves, fee: Option<real>,
                      topBuy: nat, topSell: nat)
    returns (topBuy': nat, topSell': nat)
    requires Coherent(w, i) && e.Honest() && cfg.step > QTY_EPSILON
    requires Backed(w.desk.cell, saved, w.desk.book, i, topBuy, topSell)
    ensures var w' := ArmBuy(w, cfg, i, mark, e, fee);
      Backed(w'.desk.cell, saved, w'.desk.book, i, topBuy', topSell') && Grows(w.desk.book, w'.desk.book)
  {
    var l := w.desk.cell.level;
    topBuy', topSell' := topBuy, topSell;
    if BuyArmed(l, cfg.orderQuantity, mark, w.frozen) {
      topBuy', topSell' := PlaceBacked(w, saved, cfg, i, Buy, l.price, BuyRemainder(l, cfg.orderQuantity), e, fee,
        topBuy, topSell);
    }
  }

  lemma SellBacked(w: World, saved: Cell, cfg: Config, i: nat, price: real, quantity: int, e: PlaceMoves,
                   fee: Option<real>, topBuy: nat, topSell: nat)
    returns (topBuy': nat, topSell': nat)
    requires Coherent(w, i) && e.Honest() && cfg.step > QTY_EPSILON && quantity > QTY_EPSILON
    requires w.desk.cell.level.sellOrderId.None?
    requires Backed(w.desk.cell, saved, w.desk.book, i, topBuy, topSell)
    ensures var w' := PlaceAndBook(w, cfg, i, Sell, price, quantity, e, fee);
      Backed(w'.desk.cell, saved, w'.desk.book, i, topBuy', topSell') && Grows(w.desk.book, w'.desk.book)
  {
    topBuy', topSell' := PlaceBacked(w, saved, cfg, i, Sell, price, quantity, e, fee, topBuy, topSell);
  }

  lemma PollBacked(w: World, saved: Cell, cfg: Config, i: nat, side: Side, m: Move, fee: Option<real>, topBuy: nat,
                   topSell: nat)
    returns (topBuy': nat, topSell': nat)
    requires Coherent(w, i) && m.Honest() && cfg.step > QTY_EPSILON
    requires Backed(w.desk.cell, saved, w.desk.book, i, topBuy, topSell)
    ensures var w' := CheckSide(w, cfg, side, m, fee);
      Backed(w'.desk.cell, saved, w'.desk.book, i, topBuy', topSell') && Grows(w.desk.book, w'.desk.book)
  {
    topBuy', topSell' := topBuy, topSell;
    if w.desk.cell.level.HandleOf(side).Some? {
      var p := CheckSlot(w.desk, cfg, side, m);
      var top' := CheckChained(w, cfg, i, side, m, if side == Buy then topBuy else topSell);
      topBuy', topSell' := SideStepBacked(w, w.(desk := p.desk), saved, cfg, i, side, topBuy, topSell, top');
      BookingKeepsView(w.(desk := p.desk), cfg.orderQuantity, i, side, p.outcome, fee, Buy);
      BookingKeepsView(w.(desk := p.desk), cfg.orderQuantity, i, side, p.outcome, fee, Sell);
    }
  }

  lemma RebootBacked(w: World, saved: Cell, cfg: Config, i: nat, mb: Move, ms: Move, fb: Option<real>,
                     fs: Option<real>, topBuy: nat, topSell: nat)
    returns (topBuy': nat, topSell': nat)
    requires Coherent(w, i) && mb.Honest() && ms.Honest() && cfg.step > QTY_EPSILON
    requires Backed(w.desk.cell, saved, w.desk.book, i, topBuy, topSell)
    ensures var w' := Restart(w, cfg, i, mb, ms, fb, fs);
      Backed(w'.desk.cell, saved, w'.desk.book, i, topBuy', topSell') && Grows(w.desk.book, w'.desk.book)
  {
    var rebooted := w.(desk := w.desk.(cell := Restored(w.desk.cell.level, cfg.orderQuantity, i)));
    RestoredKept(w, cfg, i);
    RestoredView(w, cfg.orderQuantity, i, Buy);
    RestoredView(w, cfg.orderQuantity, i, Sell);
    topBuy', topSell' := StartupBacked(rebooted, saved, cfg, i, mb, ms, fb, fs, topBuy, topSell);
  }

  /** Every engine event keeps the running and the saved slots backed. */
  lemma StepBacked(w: World, saved: Cell, cfg: Config, i: nat, e: Event, topBuy: nat, topSell: nat)
    returns (topBuy': nat, topSell': nat)
    requires Coherent(w, i) && HonestEvent(e) && cfg.step > QTY_EPSILON && cfg.orderQuantity > QTY_EPSILON
    requires Backed(w.desk.cell, saved, w.desk.book, i, topBuy, topSell)
    ensures var w' := Step(w, cfg, i, e);
      Backed(w'.desk.cell, saved, w'.desk.book, i, topBuy', topSell') && Grows(w.desk.book, w'.desk.book)
  {
    topBuy', topSell' := topBuy, topSell;
    var l := w.desk.cell.level;
    match e
    case VenueMoves(side, gen, m) =>
      VenueBacked(w.desk.cell, saved, w.desk.book, cfg, i, side, gen, m, topBuy, topSell);
    case BuyTick(mark, place, fee) =>
      topBuy', topSell' := BuyTickBacked(w, saved, cfg, i, mark, place, fee, topBuy, topSell);
    case SellTick(mark, target, place, fee) =>
      if SellArmed(l, cfg.orderQuantity, mark) && target.Some? {
        topBuy', topSell' := SellBacked(w, saved, cfg, i, target.value, ExitQuantity(l, cfg.orderQuantity), place,
          fee, topBuy, topSell);
      }
    case Poll(side, m, fee) =>
      topBuy', topSell' := PollBacked(w, saved, cfg, i, side, m, fee, topBuy, topSell);
    case Cancel(side, confirmed, last, m, fee) =>
      var top' := CancelChained(w, cfg, i, side, confirmed, last, m, fee, if side == Buy then topBuy else topSell);
      topBuy', topSell' := SideStepBacked(w, CancelSide(w, cfg, side, confirmed, last, m, fee), saved, cfg, i, side,
        topBuy, topSell, top');
    case Freeze =>
    case StopExit(price, place, fee) =>
      if ExitPhase(w) && HeldQtyOf(l, cfg.orderQuantity) > QTY_EPSILON && l.sellOrderId.None? && price.Some? {
        topBuy', topSell' := SellBacked(w, saved, cfg, i, price.value, HeldQtyOf(l, cfg.orderQuantity), place, fee,
          topBuy, topSell);
      }
    case Reboot(mb, ms, fb, fs) =>
      topBuy', topSell' := RebootBacked(w, saved, cfg, i, mb, ms, fb, fs, topBuy, topSell);
  }

  /** Both worlds coherent, both borne out by the live book. */
  ghost predicate JointlyBacked(p: Pair, i: nat) {
    && Coherent(p.live, i) && Coherent(p.saved, i)
    && exists topBuy: nat, topSell: nat :: Backed(p.live.desk.cell, p.saved.desk.cell, p.live.desk.book, i, topBuy, topSell)
  }

  lemma CrashStepBacked(p: Pair, cfg: Config, i: nat, e: CrashEvent)
    requires JointlyBacked(p, i) && HonestCrash(e) && cfg.step > QTY_EPSILON && cfg.orderQuantity > QTY_EPSILON
    ensures JointlyBacked(CrashStep(p, cfg, i, e), i)
    ensures Grows(p.live.desk.book, CrashStep(p, cfg, i, e).live.desk.book)
  {
    var topBuy: nat, topSell: nat :| Backed(p.live.desk.cell, p.saved.desk.cell, p.live.desk.book, i, topBuy, topSell);
    match e
    case Engine(event) =>
      StepKept(p.live, cfg, i, event);
      var tb, ts := StepBacked(p.live, p.saved.desk.cell, cfg, i, event, topBuy, topSell);
    case Persist =>
      assert Backed(p.live.desk.cell, p.live.desk.cell, p.live.desk.book, i, topBuy, topSell);
    case Crash(mb, ms, fb, fs) =>
      var memory := Restored(p.saved.desk.cell.level, cfg.orderQuantity, i);
      var woken := p.saved.(desk := Desk(memory, p.live.desk.book));
      RestoredKept(p.saved, cfg, i);
      RestoredView(p.saved, cfg.orderQuantity, i, Buy);
      RestoredView(p.saved, cfg.orderQuantity, i, Sell);
      StartupKept(woken, cfg, i, mb, ms, fb, fs);
      var tb, ts := StartupBacked(woken, p.saved.desk.cell, cfg, i, mb, ms, fb, fs, topBuy, topSell);
  }

  lemma {:induction false} CrashRunBacked(p: Pair, cfg: Config, i: nat, events: seq<CrashEvent>)
    requires JointlyBacked(p, i) && cfg.step > QTY_EPSILON && cfg.orderQuantity > QTY_EPSILON
    requires forall e :: e in events ==> HonestCrash(e)
    ensures JointlyBacked(CrashRun(p, cfg, i, events), i)
    ensures Grows(p.live.desk.book, CrashRun(p, cfg, i, events).live.desk.book)
  {
    if events != [] {
      var before := events[..|events| - 1];
      CrashRunBacked(p, cfg, i, before);
      CrashStepBacked(CrashRun(p, cfg, i, before), cfg, i, events[|events| - 1]);
      GrowsTrans(p.live.desk.book, CrashRun(p, cfg, i, before).live.desk.book,
        CrashRun(p, cfg, i, events).live.desk.book);
    }
  }

  /**
   * Over every run from a fresh level, with lost responses, silence and crashes at any
   * point: the venue never holds two live orders for one side of the level, and the live
   * one, if any, carries the newest id ever submitted.
   */
  lemma AtMostOneLiveOrder(price: real, cfg: Config, i: nat, events: seq<CrashEvent>, side: Side, g: nat, g': nat)
    requires cfg.step > QTY_EPSILON && cfg.orderQuantity > QTY_EPSILON
    requires forall e :: e in events ==> HonestCrash(e)
    ensures var built := FreshWorld(price, cfg.orderQuantity, i);
      var b := CrashRun(Pair(built, built), cfg, i, events).live.desk.book;
      Cid(i, side, g) in b && b[Cid(i, side, g)].status == Live && Cid(i, side, g') in b ==> g' <= g
  {
    var built := FreshWorld(price, cfg.orderQuantity, i);
    FreshBacked(price, cfg, i);
    CrashRunBacked(Pair(built, built), cfg, i, events);
  }

  lemma FreshBacked(price: real, cfg: Config, i: nat)
    ensures var built := FreshWorld(price, cfg.orderQuantity, i); JointlyBacked(Pair(built, built), i)
  {
    var built := FreshWorld(price, cfg.orderQuantity, i);
    assert Backed(built.desk.cell, built.desk.cell, built.desk.book, i, 0, 0);
  }

  /**
   * An id that executed anything is never submitted again: whatever happens after a
   * reachable state, crashes included, the order it named then is the order it names
   * later, its executions only grown, and once over it never changes.
   */
  lemma ExecutedIdsAreNeverReused(price: real, cfg: Config, i: nat, past: seq<CrashEvent>, future: seq<CrashEvent>,
                                  cid: Cid)
    requires cfg.step > QTY_EPSILON && cfg.orderQuantity > QTY_EPSILON
    requires forall e :: e in past || e in future ==> HonestCrash(e)
    ensures var built := FreshWorld(price, cfg.orderQuantity, i);
      var now := CrashRun(Pair(built, built), cfg, i, past);
      var b, b' := now.live.desk.book, CrashRun(now, cfg, i, future).live.desk.book;
      cid in b && b[cid].cum > 0 ==>
        cid in b' && b'[cid].instance == b[cid].instance && b'[cid].cum >= b[cid].cum
        && (b[cid].status != Live ==> b'[cid] == b[cid])
  {
    var built := FreshWorld(price, cfg.orderQuantity, i);
    FreshBacked(price, cfg, i);
    CrashRunBacked(Pair(built, built), cfg, i, past);
    CrashRunBacked(CrashRun(Pair(built, built), cfg, i, past), cfg, i, future);
  }
}
