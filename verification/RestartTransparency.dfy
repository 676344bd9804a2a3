/**
 * Restart transparency: the snapshot, the merge and the seeding lose nothing a later
 * booking depends on. A restarted level books exactly the rows the uninterrupted
 * one would have, for every later sequence of events whose answers, true or false,
 * carry a cumulative and an executed price.
 */
module RestartTransparency {
  import opened Options
  import opened OrderState
  import opened LevelMachine
  import opened Venue
  import opened SlotReconciliation
  import opened Ledger
  import opened LevelRuns
  import opened Tiling
  import opened TilingRuns
  import opened Conservation
  import opened ConservationRuns
  import opened ConservationRestart
  import opened ConservationTheorems

  // ----- answers that carry a cumulative -----

  predicate TellingLookup(reply: Lookup) {
    reply.FoundOpen? || reply.FoundFilled? || reply.FoundCanceled? ==>
      reply.row.executedQuantity.Some? && reply.row.price.Some?
  }

  predicate TellingReply(reply: OrderReply) {
    reply.OrderRow? ==> reply.executedQuantity.Some? && reply.executedPrice.Some?
  }

  /** Every answer this move can give reports a cumulative and a price; it need not be true. */
  predicate Telling(m: Move) {
    && m.exec.Some?
    && (m.falseLookup.Some? ==> TellingLookup(m.falseLookup.value))
    && (m.falseReply.Some? ==> TellingReply(m.falseReply.value))
  }

  predicate TellingEvent(e: Event) {
    match e
    case VenueMoves(_, _, _) => true
    case BuyTick(_, place, _) => Telling(place.pre) && Telling(place.post)
    case SellTick(_, _, place, _) => Telling(place.pre) && Telling(place.post)
    case Poll(_, m, _) => Telling(m)
    case Cancel(_, _, _, m, _) => Telling(m)
    case Freeze => true
    case StopExit(_, place, _) => Telling(place.pre) && Telling(place.post)
    case Reboot(mb, ms, _, _) => Telling(mb) && Telling(ms)
  }

  lemma MoveTells(b: Book, cid: Cid, h: Handle, m: Move)
    requires Telling(m)
    ensures TellingLookup(LookupReply(b, cid, m)) && TellingReply(HandleReply(b, h, m))
  {}

  // ----- cells that behave alike -----

  /** Levels that differ at most in whether a zero generation is written down. */
  predicate LevelTwin(l: GridLevel, l': GridLevel) {
    SnapshotLevel(l) == SnapshotLevel(l')
  }

  /** Records of one submission with the same booked cumulative; price, size and state may differ. */
  predicate RecordTwin(c: Cell, c': Cell, side: Side) {
    var r, r' := c.Rec(side), c'.Rec(side);
    r.Some? && r'.Some? && r.value.cid == r'.value.cid && r.value.cid.side == side
    && r.value.filledQty == r'.value.filledQty && r.value.orderId == r'.value.orderId
  }

  predicate CellTwin(c: Cell, c': Cell) {
    && LevelTwin(c.level, c'.level)
    && (c.level.buyOrderId.Some? ==> RecordTwin(c, c', Buy))
    && (c.level.sellOrderId.Some? ==> RecordTwin(c, c', Sell))
  }

  ghost predicate WorldTwin(w: World, w': World) {
    CellTwin(w.desk.cell, w'.desk.cell) && w.desk.book == w'.desk.book && w.rows == w'.rows && w.frozen == w'.frozen
  }

  /** One side was written, to twin records and levels; the other side's records stand. */
  predicate SlotTwin(c0: Cell, c0': Cell, c: Cell, c': Cell, side: Side) {
    && LevelTwin(c.level, c'.level) && RecordTwin(c, c', side)
    && c.Rec(Other(side)) == c0.Rec(Other(side)) && c'.Rec(Other(side)) == c0'.Rec(Other(side))
    && c.level.HandleOf(Other(side)) == c0.level.HandleOf(Other(side))
  }

  lemma SlotTwinIsTwin(c0: Cell, c0': Cell, c: Cell, c': Cell, side: Side)
    requires CellTwin(c0, c0') && SlotTwin(c0, c0', c, c', side)
    ensures CellTwin(c, c')
  {}

  // ----- manager calls on twins -----

  lemma ProjectTwin(l: GridLevel, l': GridLevel, q: int, side: Side, delta: int, cum: int)
    requires LevelTwin(l, l')
    ensures LevelTwin(ProjectFill(l, q, side, delta, cum), ProjectFill(l', q, side, delta, cum))
    ensures LevelTwin(l.WithHandle(side, None), l'.WithHandle(side, None))
    ensures LevelTwin(l.BumpGen(side), l'.BumpGen(side))
  {}

  lemma BookedTwin(c: Cell, c': Cell, q: int, side: Side, cum: int)
    requires LevelTwin(c.level, c'.level) && RecordTwin(c, c', side)
    ensures var k, k' := MarkBooked(c, q, side, cum), MarkBooked(c', q, side, cum);
      k.delta == k'.delta && SlotTwin(c, c', k.cell, k'.cell, side)
  {
    ProjectTwin(c.level, c'.level, q, side, cum - c.Rec(side).value.filledQty, cum);
  }

  lemma FilledTwin(c: Cell, c': Cell, q: int, side: Side, h: Option<Handle>, cum: int)
    requires LevelTwin(c.level, c'.level) && RecordTwin(c, c', side)
    ensures var k, k' := MarkFilled(c, q, side, h, Some(cum)), MarkFilled(c', q, side, h, Some(cum));
      k.delta == k'.delta && SlotTwin(c, c', k.cell, k'.cell, side)
  {
    var r := c.Rec(side).value;
    var total := TerminalCum(r, q, Some(cum));
    var freed, freed' := c.level.WithHandle(side, None), c'.level.WithHandle(side, None);
    ProjectTwin(c.level, c'.level, q, side, 0, 0);
    ProjectTwin(freed, freed', q, side, total - r.filledQty, total);
    ProjectTwin(ProjectFill(freed, q, side, total - r.filledQty, total),
      ProjectFill(freed', q, side, total - r.filledQty, total), q, side, 0, 0);
  }

  lemma OpenedTwin(c: Cell, c': Cell, side: Side, h: Handle, st: RecordState)
    requires LevelTwin(c.level, c'.level) && RecordTwin(c, c', side)
    ensures SlotTwin(c, c', MarkOpen(c, side, h), MarkOpen(c', side, h), side)
    ensures SlotTwin(c, c', MarkState(c, side, st), MarkState(c', side, st), side)
  {}

  lemma FreedTwin(c: Cell, c': Cell, side: Side)
    requires LevelTwin(c.level, c'.level) && RecordTwin(c, c', side)
    ensures SlotTwin(c, c', MarkNotFound(c, side), MarkNotFound(c', side), side)
  {
    ProjectTwin(c.level.WithHandle(side, None), c'.level.WithHandle(side, None), 0, side, 0, 0);
  }

  lemma MarkedTwin(c: Cell, c': Cell, side: Side, h: Handle, st: RecordState)
    requires LevelTwin(c.level, c'.level) && RecordTwin(c, c', side)
    ensures SlotTwin(c, c', MarkOpen(c, side, h), MarkOpen(c', side, h), side)
    ensures SlotTwin(c, c', MarkState(c, side, st), MarkState(c', side, st), side)
    ensures SlotTwin(c, c', MarkNotFound(c, side), MarkNotFound(c', side), side)
  {
    hide SlotTwin, LevelTwin, RecordTwin;
    OpenedTwin(c, c', side, h, st);
    FreedTwin(c, c', side);
  }

  lemma RemainderTwin(c: Cell, c': Cell, q: int, cid: Cid, h: Option<Handle>, cum: int, price: Option<real>)
    requires LevelTwin(c.level, c'.level) && RecordTwin(c, c', cid.side)
    ensures var r, r' := BookRemainder(c, q, cid, h, Some(cum), price), BookRemainder(c', q, cid, h, Some(cum), price);
      r.pending == r'.pending && SlotTwin(c, c', r.cell, r'.cell, cid.side)
  {
    BookedTwin(c, c', q, cid.side, cum);
  }

  // ----- observations of twins -----

  predicate TellingOutcome(o: SlotOutcome) {
    SegmentOf(o).Some? ==> SegmentOf(o).value.executedPrice.Some? && SegmentOf(o).value.cumQty.Some?
  }

  lemma LookupTwin(c: Cell, c': Cell, q: int, cid: Cid, reply: Lookup)
    requires LevelTwin(c.level, c'.level) && RecordTwin(c, c', cid.side) && TellingLookup(reply)
    ensures var o, o' := ObserveLookup(c, q, cid, reply), ObserveLookup(c', q, cid, reply);
      o.outcome == o'.outcome && TellingOutcome(o.outcome) && SlotTwin(c, c', o.cell, o'.cell, cid.side)
  {
    match reply
    case FoundOpen(row) =>
      MarkedTwin(c, c', cid.side, row.orderId, Open);
      RemainderTwin(MarkOpen(c, cid.side, row.orderId), MarkOpen(c', cid.side, row.orderId), q, cid,
                    Some(row.orderId), row.executedQuantity.value, row.price);
    case FoundFilled(row) =>
      FilledTwin(c, c', q, cid.side, Some(row.orderId), row.executedQuantity.value);
    case FoundCanceled(row) =>
      var h, cum := Some(row.orderId), row.executedQuantity.value;
      RemainderTwin(c, c', q, cid, h, cum, row.price);
      MarkedTwin(BookRemainder(c, q, cid, h, Some(cum), row.price).cell, BookRemainder(c', q, cid, h, Some(cum), row.price).cell,
                 cid.side, row.orderId, Open);
    case Absent => MarkedTwin(c, c', cid.side, Handle(cid, 0), Open);
    case Unreachable => MarkedTwin(c, c', cid.side, Handle(cid, 0), ExchangeUnavailable);
  }

  lemma HandleTwin(c: Cell, c': Cell, q: int, side: Side, h: Handle, reply: OrderReply)
    requires LevelTwin(c.level, c'.level) && RecordTwin(c, c', side) && TellingReply(reply)
    ensures var o, o' := ObserveHandle(c, q, c.Rec(side).value, h, reply),
          ObserveHandle(c', q, c'.Rec(side).value, h, reply);
      o.outcome == o'.outcome && TellingOutcome(o.outcome) && SlotTwin(c, c', o.cell, o'.cell, side)
  {
    var cid := c.Rec(side).value.cid;
    match reply
    case Failed(_) => MarkedTwin(c, c', side, h, ExchangeUnavailable);
    case OrderRow(status, id, cum, price) =>
      if status == RowFilled {
        FilledTwin(c, c', q, side, if id.Some? then id else Some(h), cum.value);
      } else {
        RemainderTwin(c, c', q, cid, Some(h), cum.value, price);
        MarkedTwin(BookRemainder(c, q, cid, Some(h), cum, price).cell,
          BookRemainder(c', q, cid, Some(h), cum, price).cell, side, h, Open);
      }
  }

  /** Twins book the same row. */
  lemma OutcomeTwin(w: World, w': World, q: int, side: Side, o: SlotOutcome, fee: Option<real>)
    requires WorldTwin(w, w') && TellingOutcome(o)
    ensures WorldTwin(BookOutcome(w, q, side, o, fee), BookOutcome(w', q, side, o, fee))
  {}

  // ----- operations on twins -----

  lemma CheckTwin(w: World, w': World, cfg: Config, side: Side, m: Move)
    requires WorldTwin(w, w') && Telling(m) && w.desk.cell.level.HandleOf(side).Some?
    ensures var p, p' := CheckSlot(w.desk, cfg, side, m), CheckSlot(w'.desk, cfg, side, m);
      p.outcome == p'.outcome && TellingOutcome(p.outcome) && WorldTwin(w.(desk := p.desk), w'.(desk := p'.desk))
      && (p.outcome.OpenOrder? || p.outcome.PartiallyFilled? || p.outcome.Unavailable? ==> RecordTwin(p.desk.cell, p'.desk.cell, side))
  {
    var c, c' := w.desk.cell, w'.desk.cell;
    var r := c.Rec(side).value;
    if r.orderId.Some? {
      var h := r.orderId.value;
      var b := EvolveAt(w.desk.book, cfg.step, h.cid, m);
      MoveTells(b, h.cid, h, m);
      HandleTwin(c, c', cfg.orderQuantity, side, h, HandleReply(b, h, m));
      SlotTwinIsTwin(c, c', CheckSlot(w.desk, cfg, side, m).desk.cell, CheckSlot(w'.desk, cfg, side, m).desk.cell,
        side);
    }
  }

  lemma CheckSideTwin(w: World, w': World, cfg: Config, side: Side, m: Move, fee: Option<real>)
    requires WorldTwin(w, w') && Telling(m)
    ensures WorldTwin(CheckSide(w, cfg, side, m, fee), CheckSide(w', cfg, side, m, fee))
  {
    if w.desk.cell.level.HandleOf(side).Some? {
      var p, p' := CheckSlot(w.desk, cfg, side, m), CheckSlot(w'.desk, cfg, side, m);
      CheckTwin(w, w', cfg, side, m);
      OutcomeTwin(w.(desk := p.desk), w'.(desk := p'.desk), cfg.orderQuantity, side, p.outcome, fee);
    }
  }

  lemma CancelTwin(w: World, w': World, cfg: Config, side: Side, confirmed: bool, last: Move, m: Move,
                   fee: Option<real>)
    requires WorldTwin(w, w') && Telling(m)
    ensures WorldTwin(CancelSide(w, cfg, side, confirmed, last, m, fee), CancelSide(w', cfg, side, confirmed, last, m, fee))
  {
    hide MarkNotFound, SlotTwin;
    var h := w.desk.cell.level.HandleOf(side);
    if h.Some? && confirmed {
      var book := CancelAt(w.desk.book, cfg.step, h.value, last);
      var v, v' := w.(desk := w.desk.(book := book)), w'.(desk := w'.desk.(book := book));
      var p, p' := CheckSlot(v.desk, cfg, side, m), CheckSlot(v'.desk, cfg, side, m);
      CheckTwin(v, v', cfg, side, m);
      OutcomeTwin(v.(desk := p.desk), v'.(desk := p'.desk), cfg.orderQuantity, side, p.outcome, fee);
      if !p.outcome.FilledOrder? && !p.outcome.SafeToRecreate? {
        var b := BookOutcome(v.(desk := p.desk), cfg.orderQuantity, side, p.outcome, fee);
        var b' := BookOutcome(v'.(desk := p'.desk), cfg.orderQuantity, side, p.outcome, fee);
        FreedTwin(b.desk.cell, b'.desk.cell, side);
        SlotTwinIsTwin(b.desk.cell, b'.desk.cell, MarkNotFound(b.desk.cell, side), MarkNotFound(b'.desk.cell, side),
          side);
      }
    }
  }

  /** Two placements nobody outside the engine can tell apart. */
  ghost predicate PlacedTwin(c: Cell, c': Cell, p: Placement, p': Placement, side: Side) {
    && p.outcome == p'.outcome && TellingOutcome(p.outcome) && p.desk.book == p'.desk.book
    && SlotTwin(c, c', p.desk.cell, p'.desk.cell, side)
  }

  lemma LookupStepTwin(c: Cell, c': Cell, b: Book, cfg: Config, cid: Cid, m: Move)
    requires LevelTwin(c.level, c'.level) && RecordTwin(c, c', cid.side) && Telling(m)
    ensures PlacedTwin(c, c', LookupStep(Desk(c, b), cfg, cid, m), LookupStep(Desk(c', b), cfg, cid, m), cid.side)
  {
    var book := EvolveAt(b, cfg.step, cid, m);
    MoveTells(book, cid, Handle(cid, 0), m);
    LookupTwin(c, c', cfg.orderQuantity, cid, LookupReply(book, cid, m));
  }

  lemma RecoverTwin(c: Cell, c': Cell, b: Book, cfg: Config, cid: Cid, reason: Reason, m: Move)
    requires LevelTwin(c.level, c'.level) && RecordTwin(c, c', cid.side) && Telling(m)
    ensures PlacedTwin(c, c', Recover(Desk(c, b), cfg, cid, reason, m), Recover(Desk(c', b), cfg, cid, reason, m), cid.side)
  {
    LookupStepTwin(c, c', b, cfg, cid, m);
    MarkedTwin(LookupStep(Desk(c, b), cfg, cid, m).desk.cell, LookupStep(Desk(c', b), cfg, cid, m).desk.cell,
               cid.side, Handle(cid, 0), ExchangeUnavailable);
  }

  lemma SubmitTwin(c: Cell, c': Cell, b: Book, cfg: Config, cid: Cid, price: real, quantity: int, ro: bool,
                   e: PlaceMoves)
    requires LevelTwin(c.level, c'.level) && RecordTwin(c, c', cid.side) && Telling(e.post)
    ensures PlacedTwin(c, c', Submit(Desk(c, b), cfg, cid, price, quantity, ro, e), Submit(Desk(c', b), cfg, cid, price, quantity, ro, e), cid.side)
  {
    match CreateAnswer(b, cid, quantity, e.create)
    case Created(h) => MarkedTwin(c, c', cid.side, h, Open);
    case Refused(reason) => RecoverTwin(c, c', CreateBook(b, cid, price, quantity, ro, e.create), cfg, cid, reason,
      e.post);
  }

  lemma BeginTwin(c: Cell, c': Cell, cid: Cid, price: real, quantity: int)
    requires CellTwin(c, c')
    ensures SlotTwin(c, c', MarkState(BeginSubmit(c, cid, price, quantity), cid.side, Submitting),
                     MarkState(BeginSubmit(c', cid, price, quantity), cid.side, Submitting), cid.side)
  {}

  lemma SlotTwinTrans(a: Cell, a': Cell, b: Cell, b': Cell, c: Cell, c': Cell, side: Side)
    requires SlotTwin(a, a', b, b', side) && SlotTwin(b, b', c, c', side)
    ensures SlotTwin(a, a', c, c', side)
  {}

  lemma AttemptTwin(c: Cell, c': Cell, b: Book, cfg: Config, cid: Cid, price: real, quantity: int, ro: bool,
                    e: PlaceMoves)
    requires CellTwin(c, c') && Telling(e.pre) && Telling(e.post)
    ensures PlacedTwin(c, c', Attempt(Desk(c, b), cfg, cid, price, quantity, ro, e), Attempt(Desk(c', b), cfg, cid, price, quantity, ro, e), cid.side)
  {
    var g := MarkState(BeginSubmit(c, cid, price, quantity), cid.side, Submitting);
    var g' := MarkState(BeginSubmit(c', cid, price, quantity), cid.side, Submitting);
    BeginTwin(c, c', cid, price, quantity);
    LookupStepTwin(g, g', b, cfg, cid, e.pre);
    var pre, pre' := LookupStep(Desk(g, b), cfg, cid, e.pre), LookupStep(Desk(g', b), cfg, cid, e.pre);
    SlotTwinTrans(c, c', g, g', pre.desk.cell, pre'.desk.cell, cid.side);
    if pre.outcome.SafeToRecreate? && pre.outcome.pendingFill.None? {
      var last, last';
      if e.intentPersisted {
        SubmitTwin(pre.desk.cell, pre'.desk.cell, pre.desk.book, cfg, cid, price, quantity, ro, e);
        last, last' := Submit(pre.desk, cfg, cid, price, quantity, ro, e).desk.cell,
          Submit(pre'.desk, cfg, cid, price, quantity, ro, e).desk.cell;
      } else {
        MarkedTwin(pre.desk.cell, pre'.desk.cell, cid.side, Handle(cid, 0), ExchangeUnavailable);
        last, last' := MarkState(pre.desk.cell, cid.side, ExchangeUnavailable),
          MarkState(pre'.desk.cell, cid.side, ExchangeUnavailable);
      }
      SlotTwinTrans(c, c', pre.desk.cell, pre'.desk.cell, last, last', cid.side);
    }
  }

  /** A placement of a handle-less slot on twins. */
  lemma EnsureTwin(w: World, w': World, cfg: Config, i: nat, side: Side, price: real, quantity: int, ro: bool,
                   e: PlaceMoves, fee: Option<real>)
    requires WorldTwin(w, w') && Telling(e.pre) && Telling(e.post) && w.desk.cell.level.HandleOf(side).None?
    requires SlotOwned(w.desk.cell, side) && SlotOwned(w'.desk.cell, side)
    ensures var p, p' := EnsureSlotOrder(w.desk, cfg, i, side, price, quantity, ro, e),
          EnsureSlotOrder(w'.desk, cfg, i, side, price, quantity, ro, e);
      && p.outcome == p'.outcome && WorldTwin(w.(desk := p.desk), w'.(desk := p'.desk))
      && WorldTwin(BookOutcome(w.(desk := p.desk), cfg.orderQuantity, side, p.outcome, fee),
                   BookOutcome(w'.(desk := p'.desk), cfg.orderQuantity, side, p.outcome, fee))
  {
    var p, p' := EnsureSlotOrder(w.desk, cfg, i, side, price, quantity, ro, e),
      EnsureSlotOrder(w'.desk, cfg, i, side, price, quantity, ro, e);
    if e.boundary == Passed {
      AttemptTwin(w.desk.cell, w'.desk.cell, w.desk.book, cfg, w.desk.cell.IdFor(i, side), price, quantity, ro, e);
      SlotTwinIsTwin(w.desk.cell, w'.desk.cell, p.desk.cell, p'.desk.cell, side);
    }
    hide Attempt, BookOutcome;
    OutcomeTwin(w.(desk := p.desk), w'.(desk := p'.desk), cfg.orderQuantity, side, p.outcome, fee);
  }

  /** A slot's record, when there is one, is of its own side. */
  predicate SlotOwned(c: Cell, side: Side) {
    c.Rec(side).Some? ==> c.Rec(side).value.cid.side == side
  }

  // ----- events and runs on twins -----

  lemma AfterEntryTwin(w: World, w': World, p: Placement, p': Placement, quantity: int, q: int, fee: Option<real>)
    requires p.outcome == p'.outcome && WorldTwin(w.(desk := p.desk), w'.(desk := p'.desk))
    requires WorldTwin(BookOutcome(w.(desk := p.desk), q, Buy, p.outcome, fee), BookOutcome(w'.(desk := p'.desk), q, Buy, p.outcome, fee))
    ensures WorldTwin(AfterEntry(w, p, quantity, q, fee), AfterEntry(w', p', quantity, q, fee))
  {}

  lemma EntryTwin(w: World, w': World, cfg: Config, i: nat, quantity: int, e: PlaceMoves, fee: Option<real>)
    requires WorldTwin(w, w') && Telling(e.pre) && Telling(e.post) && w.desk.cell.level.buyOrderId.None?
    requires SlotOwned(w.desk.cell, Buy) && SlotOwned(w'.desk.cell, Buy)
    ensures var price := w.desk.cell.level.price;
      WorldTwin(AfterEntry(w, EnsureSlotOrder(w.desk, cfg, i, Buy, price, quantity, false, e), quantity, cfg.orderQuantity, fee),
                AfterEntry(w', EnsureSlotOrder(w'.desk, cfg, i, Buy, price, quantity, false, e), quantity, cfg.orderQuantity, fee))
  {
    var price := w.desk.cell.level.price;
    EnsureTwin(w, w', cfg, i, Buy, price, quantity, false, e, fee);
    AfterEntryTwin(w, w', EnsureSlotOrder(w.desk, cfg, i, Buy, price, quantity, false, e),
                   EnsureSlotOrder(w'.desk, cfg, i, Buy, price, quantity, false, e), quantity, cfg.orderQuantity, fee);
  }

  lemma BuyTickTwin(w: World, w': World, cfg: Config, i: nat, mark: real, e: PlaceMoves, fee: Option<real>)
    requires WorldTwin(w, w') && Telling(e.pre) && Telling(e.post)
    requires SlotOwned(w.desk.cell, Buy) && SlotOwned(w'.desk.cell, Buy)
    ensures WorldTwin(ArmBuy(w, cfg, i, mark, e, fee), ArmBuy(w', cfg, i, mark, e, fee))
  {
    var l, l' := w.desk.cell.level, w'.desk.cell.level;
    assert BuyArmed(l', cfg.orderQuantity, mark, w'.frozen) == BuyArmed(l, cfg.orderQuantity, mark, w.frozen);
    assert BuyRemainder(l', cfg.orderQuantity) == BuyRemainder(l, cfg.orderQuantity) && l'.price == l.price;
    if BuyArmed(l, cfg.orderQuantity, mark, w.frozen) {
      EntryTwin(w, w', cfg, i, BuyRemainder(l, cfg.orderQuantity), e, fee);
    }
  }

  lemma SellTwin(w: World, w': World, cfg: Config, i: nat, price: real, quantity: int, e: PlaceMoves, fee: Option<real>)
    requires WorldTwin(w, w') && Coherent(w, i) && Coherent(w', i) && Telling(e.pre) && Telling(e.post)
    requires w.desk.cell.level.sellOrderId.None?
    ensures WorldTwin(PlaceAndBook(w, cfg, i, Sell, price, quantity, e, fee), PlaceAndBook(w', cfg, i, Sell, price, quantity, e, fee))
  {
    EnsureTwin(w, w', cfg, i, Sell, price, quantity, true, e, fee);
  }

  /** Twins restart into the very same memory. */
  lemma RestartTwin(w: World, w': World, cfg: Config, i: nat)
    requires WorldTwin(w, w')
    ensures Reloaded(w, cfg, i) == Reloaded(w', cfg, i)
  {}

  lemma SelfTwin(w: World, i: nat)
    requires Coherent(w, i)
    ensures WorldTwin(w, w)
  {}

  lemma StepTwin(w: World, w': World, cfg: Config, i: nat, e: Event)
    requires WorldTwin(w, w') && Coherent(w, i) && Coherent(w', i) && TellingEvent(e)
    ensures WorldTwin(Step(w, cfg, i, e), Step(w', cfg, i, e))
  {
    var l := w.desk.cell.level;
    match e
    case VenueMoves(_, _, _) =>
    case BuyTick(mark, place, fee) => BuyTickTwin(w, w', cfg, i, mark, place, fee);
    case SellTick(mark, target, place, fee) =>
      if SellArmed(l, cfg.orderQuantity, mark) && target.Some? {
        SellTwin(w, w', cfg, i, target.value, ExitQuantity(l, cfg.orderQuantity), place, fee);
      }
    case Poll(side, m, fee) => CheckSideTwin(w, w', cfg, side, m, fee);
    case Cancel(side, confirmed, last, m, fee) => CancelTwin(w, w', cfg, side, confirmed, last, m, fee);
    case Freeze =>
    case StopExit(price, place, fee) =>
      if price.Some? && l.sellOrderId.None? {
        SellTwin(w, w', cfg, i, price.value, HeldQtyOf(l, cfg.orderQuantity), place, fee);
      }
    case Reboot(mb, ms, fb, fs) =>
      RestartTwin(w, w', cfg, i);
      StepKept(w, cfg, i, e);
      SelfTwin(Step(w, cfg, i, e), i);
  }

  lemma {:induction false} RunTwin(w: World, w': World, cfg: Config, i: nat, events: seq<Event>)
    requires WorldTwin(w, w') && Coherent(w, i) && Coherent(w', i)
    requires forall e :: e in events ==> TellingEvent(e)
    ensures WorldTwin(Run(w, cfg, i, events), Run(w', cfg, i, events))
  {
    if events != [] {
      var prefix := events[..|events| - 1];
      RunTwin(w, w', cfg, i, prefix);
      RunKept(w, cfg, i, prefix);
      RunKept(w', cfg, i, prefix);
      StepTwin(Run(w, cfg, i, prefix), Run(w', cfg, i, prefix), cfg, i, events[|events| - 1]);
    }
  }

  // ----- any snapshot entry -----

  /**
   * The ids a restored level goes on with: the saved ones where the entry has any generation, and in an
   * entry from before generations the spent first id only of a side whose order is still open.
   */
  lemma RestoredIds(base: GridLevel, saved: GridLevel, q: int, i: nat, side: Side)
    ensures var cid := Seed(MergeRestored(base, saved), q, i).IdFor(i, side);
      if saved.buyGen.Some? || saved.sellGen.Some? then cid == Cid(i, side, saved.Gen(side))
      else cid == Cid(i, side, if saved.HandleOf(side).Some? then 0 else 1)
  {}

  /** What the entry held: the saved quantity, or a full slot where an old entry only has the flag. */
  function SavedHeld(saved: GridLevel, q: int): int {
    if saved.heldQty.Some? then saved.heldQty.value else if saved.filled then q else 0
  }

  /**
   * A restored level holds what the entry held, is full exactly when that fills its slot, and keeps the
   * executed entry price exactly while it holds anything; so a flat level's exits start from its line again.
   */
  lemma RestoredInventory(base: GridLevel, saved: GridLevel, q: int, i: nat)
    requires q > QTY_EPSILON
    ensures var l := Seed(MergeRestored(base, saved), q, i).level;
      && l.Held() == SavedHeld(saved, q) == HeldQtyOf(l, q) && l.filled == (SavedHeld(saved, q) >= q - QTY_EPSILON)
      && l.entryPrice == (if SavedHeld(saved, q) > 0 then saved.entryPrice else None)
      && l.price == base.price && l.exitOnly == saved.exitOnly
      && l.buyOrderId == saved.buyOrderId && l.sellOrderId == saved.sellOrderId
  {}

  // ----- the theorem -----

  /** A restart restores price, handles, held quantity, generations, lock, entry and every live order's cumulative. */
  lemma RestartRestores(w: World, cfg: Config, i: nat)
    requires Conserved(w, cfg, i)
    ensures var c, c' := w.desk.cell, Restored(w.desk.cell.level, cfg.orderQuantity, i);
      && c'.level == SnapshotLevel(c.level)
      && forall side :: c.level.HandleOf(side).Some? ==>
           c'.Rec(side).Some? && c'.Rec(side).value.cid == c.Rec(side).value.cid
           && c'.Rec(side).value.filledQty == c.Rec(side).value.filledQty && c'.Rec(side).value.orderId == c.Rec(side).value.orderId
  {}

  /**
   * Restart transparency: from every conserved state, in particular from every state a truthful
   * run reaches, the restarted level and the uninterrupted one book the same rows and keep the
   * same level and book, whatever events follow and however false their answers, as long as
   * the answers carry a cumulative and a price.
   */
  lemma RestartIsTransparent(price: real, cfg: Config, i: nat, past: seq<Event>, future: seq<Event>)
    requires GoodConfig(cfg) && Truthful(FreshWorld(price, cfg.orderQuantity, i), cfg, i, past)
    requires forall e :: e in future ==> TellingEvent(e)
    ensures var w := Run(FreshWorld(price, cfg.orderQuantity, i), cfg, i, past);
      var on, off := Run(w, cfg, i, future), Run(Reloaded(w, cfg, i), cfg, i, future);
      on.rows == off.rows && on.desk.book == off.desk.book && SnapshotLevel(on.desk.cell.level) == SnapshotLevel(off.desk.cell.level)
  {
    var built := FreshWorld(price, cfg.orderQuantity, i);
    FreshConserved(price, cfg, i);
    RunConserved(built, cfg, i, past);
    TransparentFrom(Run(built, cfg, i, past), cfg, i, future);
  }

  lemma TransparentFrom(w: World, cfg: Config, i: nat, future: seq<Event>)
    requires Conserved(w, cfg, i) && forall e :: e in future ==> TellingEvent(e)
    ensures WorldTwin(Run(w, cfg, i, future), Run(Reloaded(w, cfg, i), cfg, i, future))
  {
    RestartRestores(w, cfg, i);
    RestoredKept(w, cfg, i);
    RunTwin(w, Reloaded(w, cfg, i), cfg, i, future);
  }
}
