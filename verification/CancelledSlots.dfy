/**
 * What a confirmed cancel leaves in the ledger: everything the order executed if
 * the closing read reached the venue, and otherwise a remainder that is picked up
 * later exactly when its id can still be submitted again.
 */
module CancelledSlots {
  import opened Options
  import opened OrderState
  import opened LevelMachine
  import opened Venue
  import opened SlotReconciliation
  import opened Ledger
  import opened LevelRuns
  import opened Tiling
  import opened TilingRuns
  import opened SingleOrder
  import opened SingleOrderRuns
  import opened Conservation
  import opened ConservationRuns
  import opened ConservationRestart
  import opened ConservationTheorems
  import opened ClosedIds

  /** What the slot's order has executed by the time its cancel is confirmed. */
  function ExecutedAtCancel(w: World, cfg: Config, i: nat, side: Side, last: Move): int
    requires w.desk.cell.level.HandleOf(side).Some?
  {
    var b := CancelAt(w.desk.book, cfg.step, w.desk.cell.level.HandleOf(side).value, last);
    if w.desk.cell.IdFor(i, side) in b then b[w.desk.cell.IdFor(i, side)].cum else 0
  }

  /** The level once the cancel is confirmed and nothing has been read yet. */
  function CanceledWorld(w: World, cfg: Config, side: Side, last: Move): World
    requires w.desk.cell.level.HandleOf(side).Some?
  {
    w.(desk := w.desk.(book := CancelAt(w.desk.book, cfg.step, w.desk.cell.level.HandleOf(side).value, last)))
  }

  lemma CanceledConserved(w: World, cfg: Config, i: nat, side: Side, last: Move)
    requires Conserved(w, cfg, i) && w.desk.cell.level.HandleOf(side).Some?
    ensures var canceled := CanceledWorld(w, cfg, side, last);
      var cid := w.desk.cell.IdFor(i, side);
      && Conserved(canceled, cfg, i) && cid in canceled.desk.book && canceled.desk.book[cid].status != Live
      && canceled.desk.book[cid].cum == ExecutedAtCancel(w, cfg, i, side, last)
      && SameSide(w.desk.book, canceled.desk.book, Other(side))
  {
    CancelSideSound(w.desk.cell, w.desk.book, i, side, cfg.step, last);
    BookMoves(w, CanceledWorld(w, cfg, side, last).desk.book, cfg, i, side);
  }

  /** A closing read that failed: nothing is booked, and the id is spent if it had booked before. */
  lemma UnreadCancel(w: World, cfg: Config, i: nat, side: Side, last: Move, m: Move, fee: Option<real>)
    requires Conserved(w, cfg, i) && w.desk.cell.level.HandleOf(side).Some? && m.Honest() && !m.reachable
    ensures var w' := CancelSide(w, cfg, side, true, last, m, fee);
      && w'.rows == w.rows && w'.frozen == w.frozen && w'.desk.book == CanceledWorld(w, cfg, side, last).desk.book
      && w'.desk.cell.level.HandleOf(side).None?
      && w'.desk.cell.level.HandleOf(Other(side)) == w.desk.cell.level.HandleOf(Other(side))
      && w'.desk.cell.level.Gen(Other(side)) == w.desk.cell.level.Gen(Other(side))
      && w'.desk.cell.level.Gen(side) == w.desk.cell.level.Gen(side) + (if Booked(w.rows, w.desk.cell.IdFor(i, side)) > 0 then 1 else 0)
  {
    var canceled := CanceledWorld(w, cfg, side, last);
    CanceledConserved(w, cfg, i, side, last);
    UnreadIsUnavailable(canceled, cfg, i, side, m);
    UnreadConserved(canceled, cfg, i, side, m, fee);
    SlotOf(w, cfg, i, side);
    hide Conserved, CancelAt, CheckSlot, BookOutcome;
    FreedSlot(MarkState(w.desk.cell, side, ExchangeUnavailable), side);
  }

  lemma UnreadIsUnavailable(w: World, cfg: Config, i: nat, side: Side, m: Move)
    requires Coherent(w, i) && w.desk.cell.level.HandleOf(side).Some? && m.Honest() && !m.reachable
    ensures CheckSlot(w.desk, cfg, side, m).outcome.Unavailable?
  {}

  /** A live slot's record is the slot's own and carries what the ledger has under its id. */
  lemma SlotOf(w: World, cfg: Config, i: nat, side: Side)
    requires Conserved(w, cfg, i) && w.desk.cell.level.HandleOf(side).Some?
    ensures var r := w.desk.cell.Rec(side);
      r.Some? && r.value.cid.side == side && r.value.filledQty == Booked(w.rows, w.desk.cell.IdFor(i, side))
    ensures var n := Booked(w.rows, w.desk.cell.IdFor(i, side)); n == 0 || n > QTY_EPSILON
  {}

  lemma FreedSlot(c: Cell, side: Side)
    requires c.Rec(side).Some? && c.Rec(side).value.cid.side == side
    ensures var l' := MarkNotFound(c, side).level;
      && l'.HandleOf(side).None? && l'.HandleOf(Other(side)) == c.level.HandleOf(Other(side))
      && l'.Gen(side) == c.level.Gen(side) + (if c.Rec(side).value.filledQty > QTY_EPSILON then 1 else 0)
      && l'.Gen(Other(side)) == c.level.Gen(Other(side))
  {}

  /**
   * After a confirmed cancel the ledger holds everything the order executed if and only if the
   * closing read reached the venue or nothing was left to book.
   */
  lemma CancelBooksExactly(w: World, cfg: Config, i: nat, side: Side, last: Move, m: Move, fee: Option<real>)
    requires Conserved(w, cfg, i) && w.desk.cell.level.HandleOf(side).Some? && m.Honest()
    ensures var cid := w.desk.cell.IdFor(i, side);
      Booked(CancelSide(w, cfg, side, true, last, m, fee).rows, cid) == ExecutedAtCancel(w, cfg, i, side, last)
      <==> m.reachable || Booked(w.rows, cid) == ExecutedAtCancel(w, cfg, i, side, last)
  {
    if m.reachable {
      ReadCancel(w, cfg, i, side, last, m, fee);
    } else {
      hide CancelSide, Conserved, ExecutedAtCancel;
      UnreadCancel(w, cfg, i, side, last, m, fee);
    }
  }

  /** A closing read that reached the venue books the rest. */
  lemma ReadCancel(w: World, cfg: Config, i: nat, side: Side, last: Move, m: Move, fee: Option<real>)
    requires Conserved(w, cfg, i) && w.desk.cell.level.HandleOf(side).Some? && m.Honest() && m.reachable
    ensures Booked(CancelSide(w, cfg, side, true, last, m, fee).rows, w.desk.cell.IdFor(i, side))
         == ExecutedAtCancel(w, cfg, i, side, last)
  {
    var canceled := CanceledWorld(w, cfg, side, last);
    CanceledConserved(w, cfg, i, side, last);
    PollCatchesUp(canceled, cfg, i, side, m, fee);
    CheckedBook(canceled, cfg, i, side, m, fee);
    hide Conserved, CanceledWorld, ExecutedAtCancel, CheckSide, Booked;
    assert CancelSide(w, cfg, side, true, last, m, fee).rows == CheckSide(canceled, cfg, side, m, fee).rows by {
      hide *;
      RowsOfCancel(w, cfg, side, last, m, fee);
    }
  }

  lemma RowsOfCancel(w: World, cfg: Config, side: Side, last: Move, m: Move, fee: Option<real>)
    requires w.desk.cell.level.HandleOf(side).Some?
    ensures CancelSide(w, cfg, side, true, last, m, fee).rows == CheckSide(CanceledWorld(w, cfg, side, last), cfg, side, m, fee).rows
  {
    hide CheckSlot, BookOutcome, CancelAt;
  }

  /** Reading an over order leaves it as it is. */
  lemma CheckedBook(w: World, cfg: Config, i: nat, side: Side, m: Move, fee: Option<real>)
    requires Conserved(w, cfg, i) && w.desk.cell.level.HandleOf(side).Some?
    requires w.desk.book[w.desk.cell.IdFor(i, side)].status != Live
    ensures CheckSide(w, cfg, side, m, fee).desk.book == w.desk.book
  {
    CheckSideIs(w, cfg, i, side, m, fee);
    var p := CheckSlot(w.desk, cfg, side, m);
    BookedParts(w.(desk := p.desk), cfg.orderQuantity, side, p.outcome, fee);
    assert p.desk.book == w.desk.book;
  }

  // ----- what becomes of an unread remainder -----

  /**
   * The remainder is lost: over every run, restarts and false answers included, nothing more is booked
   * under the id.
   */
  lemma UnreadRemainderIsLost(w: World, cfg: Config, i: nat, side: Side, last: Move, m: Move, fee: Option<real>,
                              events: seq<Event>)
    requires Conserved(w, cfg, i) && w.desk.cell.level.HandleOf(side).Some? && m.Honest() && !m.reachable
    requires Booked(w.rows, w.desk.cell.IdFor(i, side)) > 0 || (side == Buy && w.frozen)
    ensures var cid := w.desk.cell.IdFor(i, side);
      Booked(Run(CancelSide(w, cfg, side, true, last, m, fee), cfg, i, events).rows, cid) == Booked(w.rows, cid)
  {
    UnreadCancel(w, cfg, i, side, last, m, fee);
    CancelKept(w, cfg, i, side, true, last, m, fee);
    ClosedForGood(CancelSide(w, cfg, side, true, last, m, fee), cfg, i, events, w.desk.cell.IdFor(i, side));
  }

  /** A placement that reaches the venue first books what an over order executed under the slot's id. */
  lemma PlacementCatchesUp(w: World, cfg: Config, i: nat, side: Side, price: real, quantity: int, e: PlaceMoves,
                           fee: Option<real>)
    requires Conserved(w, cfg, i) && w.desk.cell.level.HandleOf(side).None?
    requires e.boundary == Passed && e.pre.Honest() && e.pre.reachable
    requires ExecutedUnder(w, w.desk.cell.IdFor(i, side))
    ensures var cid := w.desk.cell.IdFor(i, side);
      Booked(PlaceAndBook(w, cfg, i, side, price, quantity, e, fee).rows, cid) == w.desk.book[cid].cum
    ensures !EnsureSlotOrder(w.desk, cfg, i, side, price, quantity, side == Sell, e).outcome.Unavailable?
  {
    var cid := w.desk.cell.IdFor(i, side);
    var obs := PlacementSees(w, cfg, i, side, price, quantity, side == Sell, e);
    hide Conserved, ExecutedUnder, BookOutcome, EnsureSlotOrder;
    OwedBooked(w, obs, w.desk.book, cfg.orderQuantity, side, cid, w.desk.book[cid].cum, w.desk.book[cid].cum, fee);
  }

  /** The lookup in front of a submission finds the over order and stops there. */
  lemma PlacementSees(w: World, cfg: Config, i: nat, side: Side, price: real, quantity: int, ro: bool, e: PlaceMoves)
    returns (obs: Observation)
    requires Conserved(w, cfg, i) && w.desk.cell.level.HandleOf(side).None?
    requires e.boundary == Passed && e.pre.Honest() && e.pre.reachable
    requires ExecutedUnder(w, w.desk.cell.IdFor(i, side))
    ensures var cid := w.desk.cell.IdFor(i, side);
      && Booked(w.rows, cid) == 0 && w.desk.book[cid].cum > QTY_EPSILON
      && Owes(obs.outcome, cid, w.desk.book[cid].cum, w.desk.book[cid].cum) && SegmentOf(obs.outcome).Some?
      && EnsureSlotOrder(w.desk, cfg, i, side, price, quantity, ro, e) == Placement(Desk(obs.cell, w.desk.book), obs.outcome)
  {
    var cid := w.desk.cell.IdFor(i, side);
    var c := MarkState(BeginSubmit(w.desk.cell, cid, price, quantity), side, Submitting);
    BeginObservable(w, cfg, i, side, price, quantity);
    obs := ObserveLookup(c, cfg.orderQuantity, cid, LookupReply(w.desk.book, cid, e.pre));
    var d := SeesExecuted(c, w.desk.book, cfg, i, side, w.rows, e.pre);
    assert EvolveAt(w.desk.book, cfg.step, cid, e.pre) == w.desk.book;
    assert Booked(w.rows, cid) == 0;
    hide Conserved, Observable, ObserveLookup, LookupReply, EvolveAt, BeginSubmit, MarkState;
  }

  /** The order last submitted under the id is over and executed something. */
  predicate ExecutedUnder(w: World, cid: Cid) {
    cid in w.desk.book && w.desk.book[cid].status != Live && w.desk.book[cid].cum > 0
  }

  /** A lookup of an over order the ledger has nothing of owes all of it. */
  lemma SeesExecuted(c: Cell, b: Book, cfg: Config, i: nat, side: Side, rows: seq<Row>, m: Move) returns (d: int)
    requires Observable(c, b, cfg, i, side, rows) && m.Honest() && m.reachable && View(c, i, side).booked == 0
    requires var cid := c.IdFor(i, side); cid in b && b[cid].status != Live && b[cid].cum > 0
    ensures var cid := c.IdFor(i, side);
      var o := ObserveLookup(c, cfg.orderQuantity, cid, LookupReply(b, cid, m)).outcome;
      && d == b[cid].cum > QTY_EPSILON && Owes(o, cid, d, d) && SegmentOf(o).Some?
  {
    d := b[c.IdFor(i, side)].cum;
    var seen := LookupObserved(c, b, cfg, i, side, rows, m);
    ClampsUnreachable(c, b, cfg, i, side);
  }

  const QUIET: Move := Move(0, Live, true, false, None, None, None)

  const PLACE: PlaceMoves := PlaceMoves(Passed, QUIET, true, CreateMove(true, true, OtherReason), QUIET)

  /** Cancel whatever rests on the other side. */
  function Clearing(side: Side): Event { Cancel(Other(side), true, QUIET, QUIET.(reachable := false), None) }

  /** Submit again on this side: the tick's entry, or the stop-loss exit. */
  function Retry(side: Side, price: real): seq<Event> {
    if side == Buy then [BuyTick(price, PLACE, None)] else [Freeze, StopExit(Some(price), PLACE, None)]
  }

  /** Clearing the other side leaves this slot, its id and its order as they are. */
  lemma ClearedOther(w: World, cfg: Config, i: nat, side: Side)
    requires Conserved(w, cfg, i) && w.desk.cell.level.HandleOf(side).None?
    requires ExecutedUnder(w, w.desk.cell.IdFor(i, side))
    ensures var w' := Step(w, cfg, i, Clearing(side));
      var cid := w.desk.cell.IdFor(i, side);
      && Conserved(w', cfg, i) && w'.desk.cell.level.HandleOf(Buy).None? && w'.desk.cell.level.HandleOf(Sell).None?
      && w'.rows == w.rows && w'.frozen == w.frozen && w'.desk.cell.IdFor(i, side) == cid
      && ExecutedUnder(w', cid) && w'.desk.book[cid] == w.desk.book[cid]
  {
    var unread := QUIET.(reachable := false);
    var w' := CancelSide(w, cfg, Other(side), true, QUIET, unread, None);
    assert Step(w, cfg, i, Clearing(side)) == w';
    var d := CancelConserved(w, cfg, i, Other(side), true, QUIET, unread, None);
    if w.desk.cell.level.HandleOf(Other(side)).Some? {
      hide Step, Conserved, Advances, CancelSide, CancelAt;
      UnreadCancel(w, cfg, i, Other(side), QUIET, unread, None);
      CanceledConserved(w, cfg, i, Other(side), QUIET);
    } else {
      hide Step, Conserved, Advances;
    }
  }

  /** A level with nothing resting and an unread remainder submits again under its id, and books it. */
  lemma RetryCatchesUp(w: World, cfg: Config, i: nat, side: Side)
    requires Conserved(w, cfg, i) && w.desk.cell.level.HandleOf(Buy).None? && w.desk.cell.level.HandleOf(Sell).None?
    requires ExecutedUnder(w, w.desk.cell.IdFor(i, side)) && (side == Buy ==> !w.frozen)
    ensures var cid := w.desk.cell.IdFor(i, side);
      Booked(Run(w, cfg, i, Retry(side, w.desk.cell.level.price)).rows, cid) == w.desk.book[cid].cum
  {
    if side == Buy {
      EntryCatchesUp(w, cfg, i);
    } else {
      FreezeConserved(w, cfg, i);
      ExitCatchesUp(w, cfg, i);
    }
  }

  lemma EntryCatchesUp(w: World, cfg: Config, i: nat)
    requires Conserved(w, cfg, i) && w.desk.cell.level.HandleOf(Buy).None? && w.desk.cell.level.HandleOf(Sell).None?
    requires ExecutedUnder(w, w.desk.cell.IdFor(i, Buy)) && !w.frozen
    ensures var cid := w.desk.cell.IdFor(i, Buy);
      Booked(Run(w, cfg, i, Retry(Buy, w.desk.cell.level.price)).rows, cid) == w.desk.book[cid].cum
  {
    var price := w.desk.cell.level.price;
    var quantity := BuyRemainder(w.desk.cell.level, cfg.orderQuantity);
    RetryArmed(w, cfg, i);
    EntryIsPlaced(w, cfg, i, price, PLACE);
    PlacementCatchesUp(w, cfg, i, Buy, price, quantity, PLACE, None);
    hide Conserved, Step, PlaceAndBook, EnsureSlotOrder, ExecutedUnder, BuyArmed, BuyRemainder;
    RunOne(w, cfg, i, BuyTick(price, PLACE, None));
  }

  lemma ExitCatchesUp(w: World, cfg: Config, i: nat)
    requires Conserved(w.(frozen := true), cfg, i)
    requires w.desk.cell.level.HandleOf(Buy).None? && w.desk.cell.level.HandleOf(Sell).None?
    requires ExecutedUnder(w, w.desk.cell.IdFor(i, Sell))
    ensures var cid := w.desk.cell.IdFor(i, Sell);
      Booked(Run(w, cfg, i, Retry(Sell, w.desk.cell.level.price)).rows, cid) == w.desk.book[cid].cum
  {
    var price := w.desk.cell.level.price;
    var frozen := w.(frozen := true);
    var exit := StopExit(Some(price), PLACE, None);
    var held := HeldQtyOf(w.desk.cell.level, cfg.orderQuantity);
    ExitArmed(frozen, cfg, i);
    ExitIsPlaced(frozen, cfg, i, price, PLACE);
    PlacementCatchesUp(frozen, cfg, i, Sell, price, held, PLACE, None);
    RunOne(frozen, cfg, i, exit);
    RunAfter(w, cfg, i, Freeze, [exit]);
    assert [Freeze] + [exit] == Retry(Sell, price);
    assert Step(w, cfg, i, Freeze) == frozen;
    hide Conserved, Step, PlaceAndBook, EnsureSlotOrder, ExecutedUnder, HeldQtyOf, Run;
  }

  lemma FreezeConserved(w: World, cfg: Config, i: nat)
    requires Conserved(w, cfg, i)
    ensures Conserved(w.(frozen := true), cfg, i)
  {
    var side, d, fee := StepConserved(w, cfg, i, Freeze);
  }

  lemma RunOne(w: World, cfg: Config, i: nat, e: Event)
    ensures Run(w, cfg, i, [e]) == Step(w, cfg, i, e)
  {
    assert [e][..0] == [];
  }

  /** An armed entry whose placement was answered is booked like any placement. */
  lemma EntryIsPlaced(w: World, cfg: Config, i: nat, mark: real, e: PlaceMoves)
    requires BuyArmed(w.desk.cell.level, cfg.orderQuantity, mark, w.frozen) && mark == w.desk.cell.level.price
    ensures var quantity := BuyRemainder(w.desk.cell.level, cfg.orderQuantity);
      !EnsureSlotOrder(w.desk, cfg, i, Buy, mark, quantity, false, e).outcome.Unavailable? ==>
        Step(w, cfg, i, BuyTick(mark, e, None)) == PlaceAndBook(w, cfg, i, Buy, mark, quantity, e, None)
  {
    hide EnsureSlotOrder, BookOutcome, BuyRemainder;
  }

  lemma ExitIsPlaced(w: World, cfg: Config, i: nat, price: real, e: PlaceMoves)
    requires ExitPhase(w) && HeldQtyOf(w.desk.cell.level, cfg.orderQuantity) > QTY_EPSILON
    requires w.desk.cell.level.sellOrderId.None?
    ensures Step(w, cfg, i, StopExit(Some(price), e, None))
         == PlaceAndBook(w, cfg, i, Sell, price, HeldQtyOf(w.desk.cell.level, cfg.orderQuantity), e, None)
  {
    hide PlaceAndBook;
  }

  /** The room a conserved level keeps for what it has not booked is room to buy it again. */
  lemma RetryArmed(w: World, cfg: Config, i: nat)
    requires Conserved(w, cfg, i) && w.desk.cell.level.HandleOf(Buy).None? && w.desk.cell.level.HandleOf(Sell).None?
    requires ExecutedUnder(w, w.desk.cell.IdFor(i, Buy)) && !w.frozen
    ensures BuyArmed(w.desk.cell.level, cfg.orderQuantity, w.desk.cell.level.price, w.frozen)
  {}

  lemma ExitArmed(w: World, cfg: Config, i: nat)
    requires Conserved(w, cfg, i) && w.desk.cell.level.HandleOf(Sell).None?
    requires ExecutedUnder(w, w.desk.cell.IdFor(i, Sell))
    ensures HeldQtyOf(w.desk.cell.level, cfg.orderQuantity) > QTY_EPSILON
  {}

  /** Some run of truthful events ends with exactly cum booked under the id. */
  ghost predicate Retrievable(w: World, cfg: Config, i: nat, cid: Cid, cum: int) {
    exists events: seq<Event> :: (forall e :: e in events ==> HonestEvent(e)) && Booked(Run(w, cfg, i, events).rows, cid) == cum
  }

  /**
   * A remainder the closing read could not see can still be booked if and only if its id can be
   * submitted again: nothing had been booked under it, and it is not an entry of a frozen level.
   */
  lemma UnreadRemainderReturnsExactly(w: World, cfg: Config, i: nat, side: Side, last: Move, m: Move, fee: Option<real>)
    requires Conserved(w, cfg, i) && w.desk.cell.level.HandleOf(side).Some? && m.Honest() && !m.reachable
    requires ExecutedAtCancel(w, cfg, i, side, last) > Booked(w.rows, w.desk.cell.IdFor(i, side))
    ensures var cid := w.desk.cell.IdFor(i, side);
      Retrievable(CancelSide(w, cfg, side, true, last, m, fee), cfg, i, cid, ExecutedAtCancel(w, cfg, i, side, last))
      <==> Booked(w.rows, cid) == 0 && !(side == Buy && w.frozen)
  {
    var cid := w.desk.cell.IdFor(i, side);
    var w' := CancelSide(w, cfg, side, true, last, m, fee);
    SlotOf(w, cfg, i, side);
    if Booked(w.rows, cid) == 0 && !(side == Buy && w.frozen) {
      Retrieved(w, cfg, i, side, last, m, fee);
    } else {
      forall events: seq<Event> ensures Booked(Run(w', cfg, i, events).rows, cid) == Booked(w.rows, cid) {
        UnreadRemainderIsLost(w, cfg, i, side, last, m, fee, events);
      }
    }
  }

  lemma Retrieved(w: World, cfg: Config, i: nat, side: Side, last: Move, m: Move, fee: Option<real>)
    requires Conserved(w, cfg, i) && w.desk.cell.level.HandleOf(side).Some? && m.Honest() && !m.reachable
    requires ExecutedAtCancel(w, cfg, i, side, last) > 0
    requires Booked(w.rows, w.desk.cell.IdFor(i, side)) == 0 && !(side == Buy && w.frozen)
    ensures Retrievable(CancelSide(w, cfg, side, true, last, m, fee), cfg, i, w.desk.cell.IdFor(i, side),
                        ExecutedAtCancel(w, cfg, i, side, last))
  {
    UnreadLeft(w, cfg, i, side, last, m, fee);
    hide Conserved, CancelSide, ExecutedAtCancel, ExecutedUnder, Run;
    var events := CatchUp(CancelSide(w, cfg, side, true, last, m, fee), cfg, i, side);
  }

  /** Clearing the other side and submitting again books what was executed. */
  lemma CatchUp(w: World, cfg: Config, i: nat, side: Side) returns (events: seq<Event>)
    requires Conserved(w, cfg, i) && w.desk.cell.level.HandleOf(side).None?
    requires ExecutedUnder(w, w.desk.cell.IdFor(i, side)) && (side == Buy ==> !w.frozen)
    ensures forall e :: e in events ==> HonestEvent(e)
    ensures var cid := w.desk.cell.IdFor(i, side); Booked(Run(w, cfg, i, events).rows, cid) == w.desk.book[cid].cum
  {
    ClearedOther(w, cfg, i, side);
    var cleared := Step(w, cfg, i, Clearing(side));
    var retry := Retry(side, cleared.desk.cell.level.price);
    events := [Clearing(side)] + retry;
    assert forall e :: e in events ==> HonestEvent(e);
    hide Conserved, Step, Run, Retry, Clearing, HonestEvent;
    RetryCatchesUp(cleared, cfg, i, side);
    RunAfter(w, cfg, i, Clearing(side), retry);
  }

  /** What an unread cancel of a slot that had booked nothing leaves behind. */
  lemma UnreadLeft(w: World, cfg: Config, i: nat, side: Side, last: Move, m: Move, fee: Option<real>)
    requires Conserved(w, cfg, i) && w.desk.cell.level.HandleOf(side).Some? && m.Honest() && !m.reachable
    requires ExecutedAtCancel(w, cfg, i, side, last) > 0 && Booked(w.rows, w.desk.cell.IdFor(i, side)) == 0
    ensures var w1 := CancelSide(w, cfg, side, true, last, m, fee);
      var cid := w.desk.cell.IdFor(i, side);
      && Conserved(w1, cfg, i) && w1.desk.cell.level.HandleOf(side).None? && w1.desk.cell.IdFor(i, side) == cid
      && ExecutedUnder(w1, cid) && w1.desk.book[cid].cum == ExecutedAtCancel(w, cfg, i, side, last) && w1.frozen == w.frozen
  {
    CanceledConserved(w, cfg, i, side, last);
    var d := CancelConserved(w, cfg, i, side, true, last, m, fee);
    UnreadCancel(w, cfg, i, side, last, m, fee);
    hide Conserved, CancelSide, ExecutedAtCancel, Advances, CancelAt, CanceledWorld;
  }

  lemma {:induction false} RunAfter(w: World, cfg: Config, i: nat, e: Event, events: seq<Event>)
    ensures Run(w, cfg, i, [e] + events) == Run(Step(w, cfg, i, e), cfg, i, events)
  {
    hide Step;
    if events == [] {
      assert [e] + events == [e] && [e][..0] == [];
    } else {
      RunAfter(w, cfg, i, e, events[..|events| - 1]);
      assert ([e] + events)[..|events|] == [e] + events[..|events| - 1];
    }
  }
}
