/**
 * The order manager: the only writer of slot identity and quantity state.
 *
 * It shares the `levels` array with the grid and owns two maps: every record it
 * ever wrote, by client order id, and the latest id of each slot. `CellAt` is the
 * abstract value of one level; each method is proved to change exactly one cell,
 * and by exactly the `LevelMachine` function of the same name.
 */
module OrderManagement {
  import opened Options
  import opened OrderState
  import LM = LevelMachine

  class OrderManager {
    const levels: array<GridLevel>
    const orderQuantity: int
    var records: map<Cid, OrderRecord>
    var bySlot: map<Slot, Cid>

    /** Slots resolve to their own newest record, and no record is of a generation still to come. */
    ghost predicate Valid()
      reads this, levels
    {
      && orderQuantity > 0
      && (forall slot {:trigger bySlot[slot]} :: slot in bySlot ==>
            && slot.level < levels.Length
            && bySlot[slot].SlotOf() == slot
            && bySlot[slot] in records
            && bySlot[slot].gen <= levels[slot.level].Gen(slot.side))
      && (forall cid {:trigger records[cid]} :: cid in records ==>
            && records[cid].cid == cid
            && cid.SlotOf() in bySlot
            && cid.gen <= bySlot[cid.SlotOf()].gen)
    }

    ghost function RecAt(i: nat, side: Side): Option<OrderRecord>
      reads this
    {
      if Slot(i, side) in bySlot && bySlot[Slot(i, side)] in records then Some(records[bySlot[Slot(i, side)]]) else None
    }

    /** The abstract state of level i. */
    ghost function CellAt(i: nat): LM.Cell
      requires i < levels.Length
      reads this, levels
    {
      LM.Cell(levels[i], RecAt(i, Buy), RecAt(i, Sell))
    }

    /** The id names the newest record of its slot: the only ids a caller passes back. */
    ghost predicate Latest(cid: Cid)
      reads this
    {
      cid.SlotOf() in bySlot && bySlot[cid.SlotOf()] == cid
    }

    /** Bring every level of a fresh or restored grid under management. */
    constructor (levels: array<GridLevel>, orderQuantity: int)
      requires orderQuantity > 0
      modifies levels
      ensures Valid() && this.levels == levels && this.orderQuantity == orderQuantity
      ensures forall i :: 0 <= i < levels.Length ==> CellAt(i) == LM.Seed(old(levels[i]), orderQuantity, i)
    {
      this.levels := levels;
      this.orderQuantity := orderQuantity;
      records := map[];
      bySlot := map[];
      new;
      SeedFromLevels();
    }

    /** Seed held quantities and turn every restored handle into an unresolved record. */
    method SeedFromLevels()
      requires Valid() && records == map[] && bySlot == map[]
      modifies this, levels
      ensures Valid()
      ensures forall i :: 0 <= i < levels.Length ==> CellAt(i) == LM.Seed(old(levels[i]), orderQuantity, i)
    {
      for i := 0 to levels.Length
        invariant Valid()
        invariant forall slot {:trigger bySlot[slot]} :: slot in bySlot ==> slot.level < i
        invariant forall j :: i <= j < levels.Length ==> levels[j] == old(levels[j])
        invariant forall j :: 0 <= j < i ==> CellAt(j) == LM.Seed(old(levels[j]), orderQuantity, j)
      {
        SeedLevel(i);
      }
    }

    method SeedLevel(i: nat)
      requires Valid() && i < levels.Length
      requires Slot(i, Buy) !in bySlot && Slot(i, Sell) !in bySlot
      modifies this, levels
      ensures Valid()
      ensures CellAt(i) == LM.Seed(old(levels[i]), orderQuantity, i)
      ensures forall j :: 0 <= j < levels.Length && j != i ==> CellAt(j) == old(CellAt(j))
      ensures forall j :: 0 <= j < levels.Length && j != i ==> levels[j] == old(levels[j])
      ensures forall slot {:trigger bySlot[slot]} :: slot in bySlot ==> slot in old(bySlot) || slot.level == i
    {
      levels[i] := LM.SeedHeld(levels[i], orderQuantity);
      assert CellAt(i) == LM.Cell(LM.SeedHeld(old(levels[i]), orderQuantity), None, None);
      if levels[i].buyOrderId.Some? {
        Adopt(i, Buy);
      }
      if levels[i].sellOrderId.Some? {
        Adopt(i, Sell);
      }
    }

    /** A restored handle becomes a record that has already booked what the snapshot says. */
    method Adopt(i: nat, side: Side)
      requires Valid() && i < levels.Length
      requires levels[i].HandleOf(side).Some?
      requires Slot(i, side) !in bySlot
      modifies this
      ensures Valid()
      ensures CellAt(i) == LM.AdoptSide(old(CellAt(i)), i, side)
      ensures forall j :: 0 <= j < levels.Length && j != i ==> CellAt(j) == old(CellAt(j))
      ensures bySlot == old(bySlot)[Slot(i, side) := Cid(i, side, levels[i].Gen(side))]
    {
      var cid := IdFor(i, side);
      Write(OrderRecord(cid, levels[i].price, 0, levels[i].CumOf(side).GetOr(0), levels[i].HandleOf(side), Unknown));
    }

    /** The id this slot would submit with right now. */
    function IdFor(i: nat, side: Side): (cid: Cid)
      requires i < levels.Length
      reads levels
      ensures cid.level == i && cid.side == side
    {
      Cid(i, side, levels[i].Gen(side))
    }

    method Write(r: OrderRecord)
      requires Valid() && r.cid.level < levels.Length
      requires r.cid.gen <= levels[r.cid.level].Gen(r.cid.side)
      requires r.cid.SlotOf() in bySlot ==> bySlot[r.cid.SlotOf()].gen <= r.cid.gen
      modifies this
      ensures Valid()
      ensures records == old(records)[r.cid := r]
      ensures bySlot == old(bySlot)[r.cid.SlotOf() := r.cid]
      ensures RecAt(r.cid.level, r.cid.side) == Some(r)
      ensures forall j, side :: Slot(j, side) != r.cid.SlotOf() ==> RecAt(j, side) == old(RecAt(j, side))
    {
      records := records[r.cid := r];
      bySlot := bySlot[r.cid.SlotOf() := r.cid];
    }

    method GetBySlot(i: nat, side: Side) returns (r: Option<OrderRecord>)
      requires Valid() && i < levels.Length
      ensures r == CellAt(i).Rec(side)
      ensures r.Some? ==> r.value.cid.level == i && r.value.cid.side == side && Latest(r.value.cid)
    {
      if Slot(i, side) in bySlot && bySlot[Slot(i, side)] in records {
        r := Some(records[bySlot[Slot(i, side)]]);
      } else {
        r := None;
      }
    }

    method BeginSubmit(cid: Cid, price: real, quantity: int)
      requires Valid() && cid.level < levels.Length && cid == IdFor(cid.level, cid.side)
      modifies this, levels
      ensures Valid() && Latest(cid)
      ensures CellAt(cid.level) == LM.BeginSubmit(old(CellAt(cid.level)), cid, price, quantity)
      ensures forall j :: 0 <= j < levels.Length && j != cid.level ==> CellAt(j) == old(CellAt(j))
    {
      Commit(OrderRecord(cid, price, quantity, 0, None, Intended), levels[cid.level].WithCum(cid.side, 0));
    }

    /** Set the state of a record; nothing happens when there is none under the id. */
    method MarkState(cid: Cid, st: RecordState)
      requires Valid() && cid.level < levels.Length
      requires cid in records ==> Latest(cid)
      modifies this
      ensures Valid() && bySlot == old(bySlot) && records.Keys == old(records.Keys)
      ensures CellAt(cid.level) ==
        if cid in old(records) then LM.MarkState(old(CellAt(cid.level)), cid.side, st) else old(CellAt(cid.level))
      ensures forall j :: 0 <= j < levels.Length && j != cid.level ==> CellAt(j) == old(CellAt(j))
    {
      if cid in records {
        Write(records[cid].(state := st));
      }
    }

    method MarkOpen(cid: Cid, h: Handle)
      requires Valid() && cid.level < levels.Length && Latest(cid)
      modifies this, levels
      ensures Valid() && bySlot == old(bySlot)
      ensures CellAt(cid.level) == LM.MarkOpen(old(CellAt(cid.level)), cid.side, h)
      ensures forall j :: 0 <= j < levels.Length && j != cid.level ==> CellAt(j) == old(CellAt(j))
    {
      Commit(records[cid].(state := Open, orderId := Some(h)), levels[cid.level].WithHandle(cid.side, Some(h)));
    }

    /** The level after a booked delta: the quantity projection, clamps included. */
    method ProjectFill(before: GridLevel, r: OrderRecord, delta: int) returns (level: GridLevel)
      ensures level == LM.ProjectFill(before, orderQuantity, r.cid.side, delta, r.filledQty)
    {
      var isBuy := r.cid.side == Buy;
      var held := if isBuy then before.Held() + delta else before.Held() - delta;
      if isBuy {
        if held > orderQuantity + QTY_EPSILON {
          held := orderQuantity;
        }
      } else if held < 0 {
        held := 0;
      }
      level := before.(heldQty := Some(held));
      level := level.WithCum(r.cid.side, r.filledQty);
      level := level.(filled := level.FullyLong(orderQuantity));
      if level.IsExitOnly() && held <= QTY_EPSILON {
        level := level.(exitOnly := Some(false));
      }
    }

    /** Write a slot's record and its level together; generations may only grow. */
    method Commit(r: OrderRecord, level: GridLevel)
      requires Valid() && r.cid.level < levels.Length
      requires Slot(r.cid.level, r.cid.side) in bySlot ==> bySlot[Slot(r.cid.level, r.cid.side)].gen <= r.cid.gen
      requires r.cid.gen <= levels[r.cid.level].Gen(r.cid.side)
      requires levels[r.cid.level].Gen(Buy) <= level.Gen(Buy) && levels[r.cid.level].Gen(Sell) <= level.Gen(Sell)
      modifies this, levels
      ensures Valid() && bySlot == old(bySlot)[r.cid.SlotOf() := r.cid]
      ensures CellAt(r.cid.level) == old(CellAt(r.cid.level)).WithRec(r).(level := level)
      ensures forall j :: 0 <= j < levels.Length && j != r.cid.level ==> CellAt(j) == old(CellAt(j))
    {
      Write(r);
      levels[r.cid.level] := level;
    }

    method MarkBooked(cid: Cid, cum: int) returns (delta: Option<int>)
      requires Valid() && cid.level < levels.Length && Latest(cid)
      modifies this, levels
      ensures Valid() && bySlot == old(bySlot)
      ensures CellAt(cid.level) == LM.MarkBooked(old(CellAt(cid.level)), orderQuantity, cid.side, cum).cell
      ensures delta == LM.MarkBooked(old(CellAt(cid.level)), orderQuantity, cid.side, cum).delta
      ensures forall j :: 0 <= j < levels.Length && j != cid.level ==> CellAt(j) == old(CellAt(j))
    {
      var existing := records[cid];
      if cum < 0 {
        return None;
      }
      var d := cum - existing.filledQty;
      if d <= QTY_EPSILON {
        return None;
      }
      var r := existing.(filledQty := cum);
      var level := ProjectFill(levels[cid.level], r, d);
      Commit(r, level);
      return Some(d);
    }

    method MarkFilled(cid: Cid, h: Option<Handle>, cum: Option<int>) returns (delta: Option<int>)
      requires Valid() && cid.level < levels.Length && Latest(cid)
      modifies this, levels
      ensures Valid() && bySlot == old(bySlot)
      ensures CellAt(cid.level) == LM.MarkFilled(old(CellAt(cid.level)), orderQuantity, cid.side, h, cum).cell
      ensures delta == LM.MarkFilled(old(CellAt(cid.level)), orderQuantity, cid.side, h, cum).delta
      ensures forall j :: 0 <= j < levels.Length && j != cid.level ==> CellAt(j) == old(CellAt(j))
    {
      var existing := records[cid];
      var assumed := if existing.quantity > 0 then existing.quantity else orderQuantity;
      var total := if cum.None? then LM.Max(existing.filledQty, assumed) else LM.Max(cum.value, existing.filledQty);
      var d := total - existing.filledQty;
      var r := existing.(state := Filled, orderId := if h.Some? then h else existing.orderId, filledQty := total);
      var level := levels[cid.level].WithHandle(cid.side, None);
      if d > QTY_EPSILON {
        level := ProjectFill(level, r, d);
      }
      delta := if d > QTY_EPSILON then Some(d) else None;
      level := level.BumpGen(cid.side);
      assert LM.MarkFilled(CellAt(cid.level), orderQuantity, cid.side, h, cum)
          == LM.Booking(CellAt(cid.level).WithRec(r).(level := level), delta);
      Commit(r, level);
    }

    method MarkNotFound(cid: Cid)
      requires Valid() && cid.level < levels.Length && Latest(cid)
      modifies this, levels
      ensures Valid() && bySlot == old(bySlot)
      ensures CellAt(cid.level) == LM.MarkNotFound(old(CellAt(cid.level)), cid.side)
      ensures forall j :: 0 <= j < levels.Length && j != cid.level ==> CellAt(j) == old(CellAt(j))
    {
      var existing := records[cid];
      var level := levels[cid.level].WithHandle(cid.side, None);
      if existing.filledQty > QTY_EPSILON {
        level := level.BumpGen(cid.side);
      }
      Commit(existing.(state := NotFound, orderId := None), level);
    }

    method MarkExitOnly(i: nat)
      requires Valid() && i < levels.Length
      modifies levels
      ensures Valid()
      ensures CellAt(i) == LM.MarkExitOnly(old(CellAt(i)))
      ensures forall j :: 0 <= j < levels.Length && j != i ==> CellAt(j) == old(CellAt(j))
    {
      levels[i] := levels[i].(exitOnly := Some(true));
    }
  }
}
