/**
 * Held quantity against the ledger and the venue: what one truthful observation
 * moves, and why neither clamp of the projection can ever bite.
 */
module Conservation {
  import opened Options
  import opened OrderState
  import opened LevelMachine
  import opened Venue
  import opened SlotReconciliation
  import opened Ledger
  import opened LevelRuns
  import opened Tiling
  import opened TilingRuns
  import opened SingleOrder
  import opened SingleOrderRuns

  // ----- size steps -----

  function Lots(k: int, step: nat): int { k * step }

  /** A whole number of the venue's size steps. */
  ghost predicate Lot(x: int, step: nat) {
    exists k: int :: Lots(k, step) == x
  }

  lemma LotSum(a: int, b: int, step: nat)
    requires Lot(a, step) && Lot(b, step)
    ensures Lot(a + b, step) && Lot(a - b, step)
  {
    var j: int :| Lots(j, step) == a;
    var k: int :| Lots(k, step) == b;
    assert Lots(j + k, step) == a + b && Lots(j - k, step) == a - b;
  }

  lemma LotsSign(k: int, step: nat)
    ensures k <= 0 ==> Lots(k, step) <= 0
    ensures k >= 1 ==> Lots(k, step) >= step
  {}

  /** A positive number of steps is at least one step. */
  lemma LotGap(a: int, step: nat)
    requires Lot(a, step) && a > 0
    ensures a >= step
  {
    var k: int :| Lots(k, step) == a;
    LotsSign(k, step);
  }

  ghost predicate GoodConfig(cfg: Config) {
    cfg.step > 2 * QTY_EPSILON && cfg.orderQuantity > QTY_EPSILON && Lot(cfg.orderQuantity, cfg.step)
  }

  // ----- what a slot may still book -----

  /** Quantity the venue could still make the engine book under the slot's current id. */
  function Pending(c: Cell, b: Book, i: nat, side: Side): int {
    var cid := c.IdFor(i, side);
    if cid !in b then 0
    else (if b[cid].status == Live then b[cid].quantity else b[cid].cum) - View(c, i, side).booked
  }

  /** A slot in step with the venue: newest generation, newest submission, whole lots. */
  ghost predicate SideSound(c: Cell, b: Book, i: nat, side: Side, step: nat) {
    var cid := c.IdFor(i, side);
    && Chained(View(c, i, side), b, i, side, cid.gen)
    && (c.level.HandleOf(side).Some? ==> c.level.HandleOf(side).value.instance == b[cid].instance)
    && Lot(View(c, i, side).booked, step)
    && (cid in b ==> Lot(b[cid].quantity, step) && Lot(b[cid].cum, step))
  }

  /** The level's quantity fields agree with each other. */
  ghost predicate LevelSound(l: GridLevel, cfg: Config) {
    && (l.heldQty.None? ==> !l.filled)
    && (l.filled <==> l.Held() >= cfg.orderQuantity - QTY_EPSILON)
    && 0 <= l.Held() <= cfg.orderQuantity && Lot(l.Held(), cfg.step)
  }

  /** Room for everything pending: bought at most to one slot, sold at most what is held. */
  ghost predicate Fits(c: Cell, b: Book, i: nat, side: Side, q: int) {
    if side == Buy then c.level.Held() + Pending(c, b, i, Buy) <= q
    else Pending(c, b, i, Sell) <= c.level.Held()
  }

  function Signed(side: Side, d: int): int { if side == Buy then d else -d }

  /** The quantity fields after d more is booked on a side, with no clamp in sight. */
  function Shift(l: GridLevel, q: int, side: Side, d: int, cum: int): GridLevel {
    if d == 0 then l
    else
      var held := l.Held() + Signed(side, d);
      l.(heldQty := Some(held), filled := held >= q - QTY_EPSILON,
         exitOnly := if l.exitOnly == Some(true) && held <= QTY_EPSILON then Some(false) else l.exitOnly)
       .WithCum(side, cum)
  }

  /** What a truthful cumulative leaves to book on a slot. */
  function Unbooked(c: Cell, b: Book, i: nat, side: Side): int {
    var cid := c.IdFor(i, side);
    if cid in b then b[cid].cum - View(c, i, side).booked else 0
  }

  /** Both clamps are unreachable: a truthful cumulative moves the level by exactly what is unbooked. */
  lemma ClampsUnreachable(c: Cell, b: Book, cfg: Config, i: nat, side: Side)
    requires GoodConfig(cfg) && LevelSound(c.level, cfg) && SideSound(c, b, i, side, cfg.step)
    requires c.Current(i, side) && c.IdFor(i, side) in b && Fits(c, b, i, side, cfg.orderQuantity)
    ensures var d := Unbooked(c, b, i, side);
      var cum := b[c.IdFor(i, side)].cum;
      && d >= 0 && Lot(d, cfg.step) && (d > 0 ==> d > QTY_EPSILON)
      && (d > 0 ==> ProjectFill(c.level, cfg.orderQuantity, side, d, cum) == Shift(c.level, cfg.orderQuantity, side, d, cum))
      && (d > 0 ==> forall h :: ProjectFill(c.level.WithHandle(side, h), cfg.orderQuantity, side, d, cum)
                             == Shift(c.level, cfg.orderQuantity, side, d, cum).WithHandle(side, h))
  {
    var cid := c.IdFor(i, side);
    LotSum(b[cid].cum, View(c, i, side).booked, cfg.step);
    if Unbooked(c, b, i, side) > 0 {
      LotGap(Unbooked(c, b, i, side), cfg.step);
    }
  }

  // ----- terminal answers without a cumulative -----

  /**
   * A terminal read by handle that gives no cumulative does exactly what the true one would if and only if
   * the order executed the size its record was submitted with; a restored record has none, and stands for
   * the slot's size.
   */
  lemma MissingCumulativeExactly(c: Cell, q: int, r: OrderRecord, h: Handle, id: Option<Handle>, price: Option<real>, cum: int)
    requires c.Rec(r.cid.side) == Some(r) && cum - r.filledQty > QTY_EPSILON
    ensures var told := ObserveHandle(c, q, r, h, OrderRow(RowFilled, id, Some(cum), price));
      var untold := ObserveHandle(c, q, r, h, OrderRow(RowFilled, id, None, price));
      var size := if r.quantity > 0 then r.quantity else q;
      && (untold.cell == told.cell <==> size == cum)
      && (untold.outcome.fillDelta == told.outcome.fillDelta <==> size == cum)
      && told.outcome.fillDelta == cum - r.filledQty
  {}

  /** A lookup row carries the order's own size, and without a cumulative stands for all of it. */
  lemma LookupNeedsNoCumulative(c: Cell, q: int, cid: Cid, row: VenueRow)
    requires row.quantity.Some?
    ensures ObserveLookup(c, q, cid, FoundFilled(row.(executedQuantity := None)))
         == ObserveLookup(c, q, cid, FoundFilled(row.(executedQuantity := row.quantity)))
  {}

  // ----- reads that fail -----

  /**
   * A failed read gives a live slot up exactly when the venue says for good that there is no such order;
   * any other failure keeps the level as it is, so that nothing is placed over an order that may be live.
   */
  lemma FailedReadFreesExactly(c: Cell, q: int, r: OrderRecord, h: Handle, e: HandleError)
    requires c.Rec(r.cid.side) == Some(r) && c.level.HandleOf(r.cid.side).Some?
    ensures var o := ObserveHandle(c, q, r, h, Failed(e));
      && (o.cell.level.HandleOf(r.cid.side).None? <==> (e.CommandError? && !e.retryable) || (e.HttpError? && e.code == Some(404)))
      && (o.cell.level.HandleOf(r.cid.side).None? ==> o.outcome == SafeToRecreate(None))
      && (o.cell.level.HandleOf(r.cid.side).Some? ==> o.cell.level == c.level && o.outcome == Unavailable(OtherReason))
  {}

  // ----- observations -----

  /** What a truthful read of a slot's order comes to. */
  datatype Sight =
    | SeenLive    // still resting
    | SeenOver    // executed something and over
    | SeenEmpty   // nothing there that ever executed
    | Unread      // could not be asked

  /** The outcome hands the ledger exactly d more under the id. */
  ghost predicate Owes(o: SlotOutcome, cid: Cid, cum: int, d: int) {
    match SegmentOf(o)
    case None => d == 0
    case Some(s) => s.delta == d && s.cid == cid && s.cumQty == Some(cum)
  }

  /** The effect of one truthful observation on a slot, in terms of what it saw. */
  ghost predicate Observed(c: Cell, obs: Observation, b: Book, q: int, i: nat, side: Side, seen: Sight) {
    var cid := c.IdFor(i, side);
    var d := Unbooked(c, b, i, side);
    && obs.cell.Rec(Other(side)) == c.Rec(Other(side))
    && match seen
       case SeenLive =>
         && cid in b && b[cid].status == Live
         && obs.cell.level == Shift(c.level, q, side, d, b[cid].cum).WithHandle(side, Some(Handle(cid, b[cid].instance)))
         && View(obs.cell, i, side) == SlotView(cid.gen, Some(Handle(cid, b[cid].instance)), b[cid].cum)
         && Owes(obs.outcome, cid, b[cid].cum, d)
       case SeenOver =>
         && cid in b && b[cid].status != Live && b[cid].cum > 0
         && obs.cell.level == Shift(c.level, q, side, d, b[cid].cum).WithHandle(side, None).BumpGen(side)
         && View(obs.cell, i, side) == SlotView(cid.gen + 1, None, 0)
         && Owes(obs.outcome, cid, b[cid].cum, d)
       case SeenEmpty =>
         && (cid in b ==> b[cid].status != Live && b[cid].cum == 0)
         && obs.cell.level == c.level.WithHandle(side, None)
         && View(obs.cell, i, side) == SlotView(cid.gen, None, 0)
         && obs.outcome == SafeToRecreate(None)
       case Unread =>
         && obs.cell.level == c.level && View(obs.cell, i, side) == View(c, i, side)
         && obs.outcome == Unavailable(OtherReason)
  }

  /** Everything a truthful observation starts from. */
  ghost predicate Observable(c: Cell, b: Book, cfg: Config, i: nat, side: Side, rows: seq<Row>) {
    && GoodConfig(cfg) && CellCoherent(c, rows, i) && c.Current(i, side)
    && LevelSound(c.level, cfg) && SideSound(c, b, i, side, cfg.step) && Fits(c, b, i, side, cfg.orderQuantity)
  }

  /** Booking the truthful cumulative of the slot's order. */
  lemma BookedExactly(c: Cell, b: Book, cfg: Config, i: nat, side: Side, rows: seq<Row>)
    requires Observable(c, b, cfg, i, side, rows) && c.IdFor(i, side) in b
    ensures var d := Unbooked(c, b, i, side);
      var cum := b[c.IdFor(i, side)].cum;
      var k := MarkBooked(c, cfg.orderQuantity, side, cum);
      && k.delta == (if d > 0 then Some(d) else None)
      && k.cell == (if d > 0
                    then c.WithRec(c.Rec(side).value.(filledQty := cum)).(level := Shift(c.level, cfg.orderQuantity, side, d, cum))
                    else c)
      && (d == 0 ==> c.Rec(side).value.filledQty == cum)
  {
    ClampsUnreachable(c, b, cfg, i, side);
  }

  lemma FilledExactly(c: Cell, b: Book, cfg: Config, i: nat, side: Side, rows: seq<Row>, h: Option<Handle>)
    requires Observable(c, b, cfg, i, side, rows) && c.IdFor(i, side) in b && b[c.IdFor(i, side)].status == Done
    ensures var d := Unbooked(c, b, i, side);
      var cum := b[c.IdFor(i, side)].cum;
      var k := MarkFilled(c, cfg.orderQuantity, side, h, Some(cum));
      && k.delta.GetOr(0) == d
      && k.cell.level == Shift(c.level, cfg.orderQuantity, side, d, cum).WithHandle(side, None).BumpGen(side)
      && k.cell.Rec(Other(side)) == c.Rec(Other(side))
      && View(k.cell, i, side) == SlotView(c.level.Gen(side) + 1, None, 0)
  {
    ClampsUnreachable(c, b, cfg, i, side);
    FilledView(c, cfg.orderQuantity, i, side, h, Some(b[c.IdFor(i, side)].cum));
  }

  /** A dead order that executed something: book the rest, then free and spend. */
  lemma DeadExactly(c: Cell, b: Book, cfg: Config, i: nat, side: Side, rows: seq<Row>)
    requires Observable(c, b, cfg, i, side, rows) && c.IdFor(i, side) in b && b[c.IdFor(i, side)].status == Dead
    ensures var d := Unbooked(c, b, i, side);
      var cum := b[c.IdFor(i, side)].cum;
      var c' := MarkNotFound(MarkBooked(c, cfg.orderQuantity, side, cum).cell, side);
      && c'.Rec(Other(side)) == c.Rec(Other(side))
      && (cum > 0 ==>
            c'.level == Shift(c.level, cfg.orderQuantity, side, d, cum).WithHandle(side, None).BumpGen(side)
            && View(c', i, side) == SlotView(c.level.Gen(side) + 1, None, 0))
      && (cum == 0 ==>
            d == 0 && c'.level == c.level.WithHandle(side, None) && View(c', i, side) == SlotView(c.level.Gen(side), None, 0))
  {
    BookedExactly(c, b, cfg, i, side, rows);
    assert SoundOrder(b[c.IdFor(i, side)]);
  }

  lemma LookupObserved(c: Cell, b: Book, cfg: Config, i: nat, side: Side, rows: seq<Row>, m: Move) returns (seen: Sight)
    requires Observable(c, b, cfg, i, side, rows) && m.Honest()
    ensures Observed(c, ObserveLookup(c, cfg.orderQuantity, c.IdFor(i, side), LookupReply(b, c.IdFor(i, side), m)), b, cfg.orderQuantity, i, side, seen)
  {
    var cid := c.IdFor(i, side);
    match LookupReply(b, cid, m)
    case FoundOpen(row) =>
      seen := SeenLive;
      OpenObserved(c, b, cfg, i, side, rows, m.exec);
    case FoundFilled(row) =>
      seen := SeenOver;
      FilledExactly(c, b, cfg, i, side, rows, Some(row.orderId));
    case FoundCanceled(row) =>
      seen := if b[cid].cum > 0 then SeenOver else SeenEmpty;
      BookedExactly(c, b, cfg, i, side, rows);
      DeadExactly(c, b, cfg, i, side, rows);
    case Absent => seen := SeenEmpty;
    case Unreachable => seen := Unread;
  }

  /** Adopting the handle of the order that is really there changes nothing to be booked. */
  lemma OpenObservable(c: Cell, b: Book, cfg: Config, i: nat, side: Side, rows: seq<Row>)
    requires Observable(c, b, cfg, i, side, rows) && c.IdFor(i, side) in b && b[c.IdFor(i, side)].status == Live
    ensures var c1 := MarkOpen(c, side, Handle(c.IdFor(i, side), b[c.IdFor(i, side)].instance));
      && Observable(c1, b, cfg, i, side, rows)
      && c1.IdFor(i, side) == c.IdFor(i, side) && View(c1, i, side).booked == View(c, i, side).booked
  {
    OpenKept(c, i, side, Handle(c.IdFor(i, side), b[c.IdFor(i, side)].instance), rows);
  }

  /** A live row found by client id: the handle is adopted first, then its executions are booked. */
  lemma OpenObserved(c: Cell, b: Book, cfg: Config, i: nat, side: Side, rows: seq<Row>, price: Option<real>)
    requires Observable(c, b, cfg, i, side, rows) && c.IdFor(i, side) in b && b[c.IdFor(i, side)].status == Live
    ensures var cid := c.IdFor(i, side);
      var h := Handle(cid, b[cid].instance);
      Observed(c, ObserveLookup(c, cfg.orderQuantity, cid, FoundOpen(VenueRow(h, price, Some(b[cid].quantity), Some(b[cid].cum)))),
               b, cfg.orderQuantity, i, side, SeenLive)
  {
    var cid := c.IdFor(i, side);
    var cum := b[cid].cum;
    var h := Handle(cid, b[cid].instance);
    var c1 := MarkOpen(c, side, h);
    OpenObservable(c, b, cfg, i, side, rows);
    BookedExactly(c1, b, cfg, i, side, rows);
    var r := BookRemainder(c1, cfg.orderQuantity, cid, Some(h), Some(cum), price);
    var d := Unbooked(c, b, i, side);
    assert r.pending == if d > 0 then Some(PendingFill(cum, d, price, cid, Some(h))) else None;
    assert r.cell.level == Shift(c1.level, cfg.orderQuantity, side, d, cum);
  }

  lemma HandleObserved(c: Cell, b: Book, cfg: Config, i: nat, side: Side, rows: seq<Row>, m: Move) returns (seen: Sight)
    requires Observable(c, b, cfg, i, side, rows) && m.Honest() && c.level.HandleOf(side).Some?
    ensures var h := c.level.HandleOf(side).value;
      Observed(c, ObserveHandle(c, cfg.orderQuantity, c.Rec(side).value, h, HandleReply(b, h, m)), b, cfg.orderQuantity, i, side, seen)
  {
    var cid := c.IdFor(i, side);
    var h := c.level.HandleOf(side).value;
    match HandleReply(b, h, m)
    case Failed(e) => seen := if e == OtherError then Unread else SeenEmpty;
    case OrderRow(status, id, cum, _) =>
      if status == RowFilled {
        seen := SeenOver;
        FilledExactly(c, b, cfg, i, side, rows, id);
      } else if status == RowDead {
        seen := if b[cid].cum > 0 then SeenOver else SeenEmpty;
        BookedExactly(c, b, cfg, i, side, rows);
        DeadExactly(c, b, cfg, i, side, rows);
      } else {
        seen := SeenLive;
        BookedExactly(c, b, cfg, i, side, rows);
      }
  }
}
