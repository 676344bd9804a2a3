/**
 * One live order a slot: against a truthful venue, with lost responses, silence
 * and crashes between any two snapshots, the venue never holds two live orders
 * for one level and side, and an id that executed anything is never submitted again.
 */
module SingleOrder {
  import opened Options
  import opened OrderState
  import opened LevelMachine
  import opened Venue
  import opened SlotReconciliation
  import opened Ledger
  import opened LevelRuns
  import opened Tiling

  /** What the engine remembers of a slot that the venue's book must bear out. */
  datatype SlotView = SlotView(gen: nat, handle: Option<Handle>, booked: int)

  function View(c: Cell, i: nat, side: Side): SlotView {
    SlotView(c.level.Gen(side), c.level.HandleOf(side), if c.Current(i, side) then c.Rec(side).value.filledQty else 0)
  }

  ghost predicate SoundOrder(o: VenueOrder) {
    && o.quantity > QTY_EPSILON && 0 <= o.cum <= o.quantity
    && (o.cum == 0 || o.cum > QTY_EPSILON)
    && (o.status == Done ==> o.cum == o.quantity)
  }

  /** Generations below `top` are over and executed something; none above it was ever used. */
  ghost predicate Chain(b: Book, i: nat, side: Side, top: nat) {
    && (forall g: nat {:trigger Cid(i, side, g)} :: g < top ==>
          Cid(i, side, g) in b && b[Cid(i, side, g)].status != Live && b[Cid(i, side, g)].cum > 0)
    && (forall g: nat {:trigger Cid(i, side, g)} :: g > top ==> Cid(i, side, g) !in b)
    && (forall g: nat {:trigger Cid(i, side, g)} :: Cid(i, side, g) in b ==> SoundOrder(b[Cid(i, side, g)]))
  }

  /** Memory that may lag behind the venue, but never runs ahead of it. */
  ghost predicate Chained(v: SlotView, b: Book, i: nat, side: Side, top: nat) {
    var cid := Cid(i, side, v.gen);
    && Chain(b, i, side, top) && v.gen <= top && v.booked >= 0
    && (v.handle.Some? ==> v.handle.value.cid == cid && cid in b && v.handle.value.instance <= b[cid].instance)
    && (v.booked > 0 ==> v.handle.Some? && v.handle.value.instance == b[cid].instance && v.booked <= b[cid].cum)
  }

  /** Orders are never forgotten, executions never shrink, and an executed id is never reused. */
  ghost predicate Grows(b: Book, b': Book) {
    forall cid :: cid in b ==>
      && cid in b' && b[cid].instance <= b'[cid].instance
      && (b[cid].cum > 0 ==> b'[cid].instance == b[cid].instance && b'[cid].cum >= b[cid].cum)
      && (b[cid].cum > 0 && b[cid].status != Live ==> b'[cid] == b[cid])
  }

  lemma GrowsTrans(a: Book, b: Book, c: Book)
    requires Grows(a, b) && Grows(b, c)
    ensures Grows(a, c)
  {}

  lemma StepsPositive(fill: nat, step: nat)
    requires step > QTY_EPSILON
    ensures fill * step >= 0 && (fill > 0 ==> fill * step > QTY_EPSILON)
  {}

  lemma EvolveSound(o: VenueOrder, step: nat, m: Move)
    requires SoundOrder(o) && step > QTY_EPSILON
    ensures var o' := Evolve(o, step, m);
      SoundOrder(o') && o'.cum >= o.cum && o'.instance == o.instance && (o.status != Live ==> o' == o)
  {
    StepsPositive(m.fill, step);
  }

  /** The venue moving under any id of the level leaves every slot's memory borne out. */
  lemma EvolveKept(v: SlotView, b: Book, i: nat, side: Side, top: nat, step: nat, cid: Cid, m: Move)
    requires Chained(v, b, i, side, top) && step > QTY_EPSILON && (cid in b ==> SoundOrder(b[cid]))
    ensures Chained(v, EvolveAt(b, step, cid, m), i, side, top) && Grows(b, EvolveAt(b, step, cid, m))
  {
    if cid in b {
      EvolveSound(b[cid], step, m);
    }
  }

  /** Memory of one moment stays borne out as the book grows. */
  lemma OldViewKept(v: SlotView, b: Book, b': Book, i: nat, side: Side, top: nat, top': nat)
    requires Chained(v, b, i, side, top) && Grows(b, b') && Chain(b', i, side, top') && top <= top'
    ensures Chained(v, b', i, side, top')
  {}

  /** The id was spent on an order that is over and executed something: the next generation is covered. */
  lemma SpentKept(v: SlotView, b: Book, i: nat, side: Side, top: nat) returns (top': nat)
    requires Chained(v, b, i, side, top)
    requires var cid := Cid(i, side, v.gen); cid in b && b[cid].status != Live && b[cid].cum > 0
    ensures top <= top' && Chained(SlotView(v.gen + 1, None, 0), b, i, side, top')
    ensures v.gen == top ==> v.gen + 1 == top'
  {
    top' := if v.gen == top then top + 1 else top;
  }

  /** The handle was dropped with nothing booked under the id. */
  lemma FreedKept(v: SlotView, b: Book, i: nat, side: Side, top: nat)
    requires Chained(v, b, i, side, top)
    ensures Chained(SlotView(v.gen, None, 0), b, i, side, top)
  {}

  // ----- observations of a truthful venue -----

  lemma NotFoundView(c: Cell, i: nat, side: Side, rows: seq<Row>)
    requires CellCoherent(c, rows, i) && c.Current(i, side)
    ensures View(MarkNotFound(c, side), i, side)
         == if View(c, i, side).booked > QTY_EPSILON
            then SlotView(c.level.Gen(side) + 1, None, 0) else SlotView(c.level.Gen(side), None, 0)
  {}

  lemma BookedView(c: Cell, q: int, i: nat, side: Side, cum: int)
    requires c.Current(i, side) && c.Rec(side).value.filledQty >= 0
    ensures var v := View(MarkBooked(c, q, side, cum).cell, i, side);
      && v.gen == c.level.Gen(side) && v.handle == c.level.HandleOf(side)
      && MarkBooked(c, q, side, cum).cell.Current(i, side)
      && v.booked == if cum >= 0 && cum - c.Rec(side).value.filledQty > QTY_EPSILON then cum else c.Rec(side).value.filledQty
  {}

  lemma FilledView(c: Cell, q: int, i: nat, side: Side, h: Option<Handle>, cum: Option<int>)
    requires c.Current(i, side)
    ensures View(MarkFilled(c, q, side, h, cum).cell, i, side) == SlotView(c.level.Gen(side) + 1, None, 0)
  {}

  /** A dead order, its remainder booked or not, then freed. */
  lemma DeadView(c: Cell, q: int, i: nat, side: Side, cum: int, rows: seq<Row>, b: Book, top: nat) returns (top': nat)
    requires CellCoherent(c, rows, i) && c.Current(i, side) && Chained(View(c, i, side), b, i, side, top)
    requires var cid := c.IdFor(i, side); cid in b && b[cid].status != Live && b[cid].cum == cum
    ensures top <= top'
    ensures Chained(View(MarkNotFound(MarkBooked(c, q, side, cum).cell, side), i, side), b, i, side, top')
    ensures View(c, i, side).gen == top ==> View(MarkNotFound(MarkBooked(c, q, side, cum).cell, side), i, side).gen == top'
  {
    BookedView(c, q, i, side, cum);
    var c1 := MarkBooked(c, q, side, cum).cell;
    if View(c1, i, side).booked > QTY_EPSILON {
      top' := SpentKept(View(c, i, side), b, i, side, top);
    } else {
      top' := top;
      FreedKept(View(c, i, side), b, i, side, top);
    }
  }

  /** A truthful lookup keeps the slot's memory borne out; `b` is the book it read. */
  lemma LookupChained(c: Cell, q: int, i: nat, side: Side, rows: seq<Row>, b: Book, m: Move, top: nat)
    returns (top': nat)
    requires CellCoherent(c, rows, i) && c.Current(i, side) && m.Honest()
    requires Chained(View(c, i, side), b, i, side, top)
    ensures var cid := c.IdFor(i, side);
      top <= top' && Chained(View(ObserveLookup(c, q, cid, LookupReply(b, cid, m)).cell, i, side), b, i, side, top')
    ensures c.level.Gen(side) == top ==>
      View(ObserveLookup(c, q, c.IdFor(i, side), LookupReply(b, c.IdFor(i, side), m)).cell, i, side).gen == top'
  {
    var cid := c.IdFor(i, side);
    top' := top;
    hide MarkFilled, MarkBooked, MarkNotFound, SideCoherent, Tiled;
    match LookupReply(b, cid, m)
    case FoundOpen(row) =>
      OpenKept(c, i, side, row.orderId, rows);
      BookedView(MarkOpen(c, side, row.orderId), q, i, side, row.executedQuantity.value);
    case FoundFilled(row) =>
      FilledView(c, q, i, side, Some(row.orderId), row.executedQuantity);
      top' := SpentKept(View(c, i, side), b, i, side, top);
    case FoundCanceled(row) =>
      top' := DeadView(c, q, i, side, row.executedQuantity.value, rows, b, top);
    case Absent =>
      NotFoundView(c, i, side, rows);
      FreedKept(View(c, i, side), b, i, side, top);
    case Unreachable =>
  }

  /** A truthful read by handle keeps the slot's memory borne out. */
  lemma HandleChained(c: Cell, q: int, i: nat, side: Side, rows: seq<Row>, b: Book, m: Move, top: nat)
    returns (top': nat)
    requires CellCoherent(c, rows, i) && c.level.HandleOf(side).Some? && m.Honest()
    requires Chained(View(c, i, side), b, i, side, top)
    ensures var h := c.level.HandleOf(side).value;
      top <= top' && Chained(View(ObserveHandle(c, q, c.Rec(side).value, h, HandleReply(b, h, m)).cell, i, side), b, i, side, top')
    ensures c.level.Gen(side) == top ==>
      View(ObserveHandle(c, q, c.Rec(side).value, c.level.HandleOf(side).value, HandleReply(b, c.level.HandleOf(side).value, m)).cell, i, side).gen == top'
  {
    var h := c.level.HandleOf(side).value;
    top' := top;
    match HandleReply(b, h, m)
    case Failed(e) =>
      NotFoundView(c, i, side, rows);
      FreedKept(View(c, i, side), b, i, side, top);
    case OrderRow(status, id, cum, _) =>
      if status == RowFilled {
        FilledView(c, q, i, side, id, cum);
        top' := SpentKept(View(c, i, side), b, i, side, top);
      } else if status == RowDead {
        top' := DeadView(c, q, i, side, cum.value, rows, b, top);
      } else {
        BookedView(c, q, i, side, cum.value);
      }
  }

  lemma BookingKeepsView(w: World, q: int, i: nat, side: Side, o: SlotOutcome, fee: Option<real>, any: Side)
    ensures View(BookOutcome(w, q, side, o, fee).desk.cell, i, any) == View(w.desk.cell, i, any)
    ensures BookOutcome(w, q, side, o, fee).desk.book == w.desk.book
  {}

  // ----- operations -----

  /** The venue's orders of one side are untouched. */
  ghost predicate SameSide(b: Book, b': Book, side: Side) {
    forall cid: Cid :: cid.side == side ==> (cid in b <==> cid in b') && (cid in b ==> b'[cid] == b[cid])
  }

  /** What an operation on one slot guarantees, besides the slot itself. */
  ghost predicate Contained(d: Desk, d': Desk, i: nat, side: Side) {
    && Grows(d.book, d'.book) && SameSide(d.book, d'.book, Other(side))
    && View(d'.cell, i, Other(side)) == View(d.cell, i, Other(side))
  }

  lemma LookupIsLocal(c: Cell, q: int, i: nat, side: Side, reply: Lookup)
    requires c.Current(i, side)
    ensures View(ObserveLookup(c, q, c.IdFor(i, side), reply).cell, i, Other(side)) == View(c, i, Other(side))
  {}

  lemma HandleReadIsLocal(c: Cell, q: int, i: nat, side: Side, h: Handle, reply: OrderReply)
    requires c.Current(i, side)
    ensures View(ObserveHandle(c, q, c.Rec(side).value, h, reply).cell, i, Other(side)) == View(c, i, Other(side))
  {}

  lemma EvolveContained(b: Book, i: nat, side: Side, top: nat, step: nat, cid: Cid, m: Move)
    requires Chain(b, i, side, top) && step > QTY_EPSILON && cid.SlotOf() == Slot(i, side)
    ensures Grows(b, EvolveAt(b, step, cid, m)) && SameSide(b, EvolveAt(b, step, cid, m), Other(side))
  {
    if cid in b {
      assert cid == Cid(i, side, cid.gen);
      EvolveSound(b[cid], step, m);
    }
  }

  lemma LookupStepChained(d: Desk, cfg: Config, i: nat, side: Side, rows: seq<Row>, m: Move, top: nat)
    returns (top': nat)
    requires CellCoherent(d.cell, rows, i) && d.cell.Current(i, side) && m.Honest() && cfg.step > QTY_EPSILON
    requires Chained(View(d.cell, i, side), d.book, i, side, top)
    ensures var d' := LookupStep(d, cfg, d.cell.IdFor(i, side), m).desk;
      top <= top' && Chained(View(d'.cell, i, side), d'.book, i, side, top') && Contained(d, d', i, side)
    ensures d.cell.level.Gen(side) == top ==>
      LookupStep(d, cfg, d.cell.IdFor(i, side), m).desk.cell.level.Gen(side) == top'
  {
    var cid := d.cell.IdFor(i, side);
    var b := EvolveAt(d.book, cfg.step, cid, m);
    EvolveKept(View(d.cell, i, side), d.book, i, side, top, cfg.step, cid, m);
    EvolveContained(d.book, i, side, top, cfg.step, cid, m);
    LookupIsLocal(d.cell, cfg.orderQuantity, i, side, LookupReply(b, cid, m));
    top' := LookupChained(d.cell, cfg.orderQuantity, i, side, rows, b, m, top);
    LookupStepIs(d, cfg, cid, m);
  }

  lemma LookupStepIs(d: Desk, cfg: Config, cid: Cid, m: Move)
    ensures var b := EvolveAt(d.book, cfg.step, cid, m);
      LookupStep(d, cfg, cid, m).desk == Desk(ObserveLookup(d.cell, cfg.orderQuantity, cid, LookupReply(b, cid, m)).cell, b)
  {}

  lemma CheckIs(w: World, cfg: Config, i: nat, side: Side, m: Move)
    requires Coherent(w, i) && w.desk.cell.level.HandleOf(side).Some?
    ensures var h := w.desk.cell.level.HandleOf(side).value;
      var b := EvolveAt(w.desk.book, cfg.step, h.cid, m);
      CheckSlot(w.desk, cfg, side, m).desk
        == Desk(ObserveHandle(w.desk.cell, cfg.orderQuantity, w.desk.cell.Rec(side).value, h, HandleReply(b, h, m)).cell, b)
  {}

  lemma CheckChained(w: World, cfg: Config, i: nat, side: Side, m: Move, top: nat) returns (top': nat)
    requires Coherent(w, i) && w.desk.cell.level.HandleOf(side).Some? && m.Honest() && cfg.step > QTY_EPSILON
    requires Chained(View(w.desk.cell, i, side), w.desk.book, i, side, top)
    ensures var d' := CheckSlot(w.desk, cfg, side, m).desk;
      top <= top' && Chained(View(d'.cell, i, side), d'.book, i, side, top') && Contained(w.desk, d', i, side)
    ensures w.desk.cell.level.Gen(side) == top ==> CheckSlot(w.desk, cfg, side, m).desk.cell.level.Gen(side) == top'
  {
    var h := w.desk.cell.level.HandleOf(side).value;
    var b := EvolveAt(w.desk.book, cfg.step, h.cid, m);
    EvolveKept(View(w.desk.cell, i, side), w.desk.book, i, side, top, cfg.step, h.cid, m);
    EvolveContained(w.desk.book, i, side, top, cfg.step, h.cid, m);
    HandleReadIsLocal(w.desk.cell, cfg.orderQuantity, i, side, h, HandleReply(b, h, m));
    top' := HandleChained(w.desk.cell, cfg.orderQuantity, i, side, w.rows, b, m, top);
    CheckIs(w, cfg, i, side, m);
  }
}
