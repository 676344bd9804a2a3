/**
 * Conservation over whole runs: against a truthful venue the held quantity of a
 * level is exactly what the ledger says was bought minus what it says was sold,
 * it stays between nothing and one slot, and neither clamp is ever reached.
 */
module ConservationRuns {
  import opened Options
  import opened OrderState
  import opened LevelMachine
  import opened Venue
  import opened SlotReconciliation
  import opened Ledger
  import opened LevelRuns
  import opened Tiling
  import opened TilingRuns
  import opened SingleOrder
  import opened SingleOrderRuns
  import opened Conservation

  // ----- the invariant -----

  /** What a slot may book from here on, `room` of it on one side, leaves the level inside its slot. */
  ghost predicate RoomFor(w: World, cfg: Config, i: nat, side: Side, room: int) {
    var l := w.desk.cell.level;
    var rest := Pending(w.desk.cell, w.desk.book, i, Other(side));
    var bought := if side == Buy then room else rest;
    var sold := if side == Buy then rest else room;
    && l.Held() + bought <= cfg.orderQuantity && sold <= l.Held()
    // an exit-only level has nothing left to buy
    && (l.IsExitOnly() ==> bought <= 0)
    // both sides have something to book only once entries are frozen and the entry is unreachable
    && (bought > 0 && sold > 0 ==> w.frozen && l.buyOrderId.None?)
    // an exit that has booked nothing yet belongs to a full, locked or frozen level
    && (sold > 0 && View(w.desk.cell, i, Sell).booked == 0 ==>
          w.frozen || l.FullyLong(cfg.orderQuantity) || l.IsExitOnly())
  }

  ghost predicate Conserved(w: World, cfg: Config, i: nat) {
    && GoodConfig(cfg) && Coherent(w, i) && LevelSound(w.desk.cell.level, cfg)
    && SideSound(w.desk.cell, w.desk.book, i, Buy, cfg.step) && SideSound(w.desk.cell, w.desk.book, i, Sell, cfg.step)
    && RoomFor(w, cfg, i, Buy, Pending(w.desk.cell, w.desk.book, i, Buy))
    && w.desk.cell.level.Held() == Net(w.rows)
    && (w.desk.cell.level.entryPrice.Some? <==> w.desk.cell.level.Held() > 0)
  }

  // ----- what one operation does -----

  /** The ledger and the level's entry after d more was booked on a side. */
  ghost predicate Recorded(w: World, w': World, i: nat, side: Side, d: int, fee: Option<real>) {
    var l := w.desk.cell.level;
    var l' := w'.desk.cell.level;
    if d <= 0 then w'.rows == w.rows && l'.entryPrice == l.entryPrice
    else
      && |w'.rows| == |w.rows| + 1
      && var r := w'.rows[|w.rows|];
         && w'.rows == w.rows + [r]
         && r.cid == w.desk.cell.IdFor(i, side) && r.quantity == d && r.fee == fee
         // the segment runs from what was booked to what the venue has executed
         && r.cid in w'.desk.book && r.to == w'.desk.book[r.cid].cum && r.from == View(w.desk.cell, i, side).booked == r.to - d
         && r.pnl == (if fee.None? then None else Some(PnlOf(side, l.entryPrice.GetOr(l.price), r.price, d, fee.value)))
         && l'.entryPrice ==
              if side == Buy then Some(AveragedEntry(l.entryPrice, l.Held(), r.price, d))
              else if l'.Held() <= QTY_EPSILON then None else l.entryPrice
  }

  /** One operation on a slot: d booked, level moved by exactly d, at most `room` used up. */
  ghost predicate Moved(w: World, w': World, cfg: Config, i: nat, side: Side, d: int, room: int, fee: Option<real>) {
    var l := w.desk.cell.level;
    var l' := w'.desk.cell.level;
    && Coherent(w', i) && w'.frozen == w.frozen && l'.price == l.price
    && d >= 0 && (d > 0 ==> d > QTY_EPSILON) && LevelSound(l', cfg) && l'.Held() == l.Held() + Signed(side, d)
    && (l'.IsExitOnly() <==> l.IsExitOnly() && (d == 0 || l'.Held() > QTY_EPSILON))
    && SideSound(w'.desk.cell, w'.desk.book, i, side, cfg.step)
    && View(w'.desk.cell, i, Other(side)) == View(w.desk.cell, i, Other(side)) && l.Gen(side) <= l'.Gen(side)
    && SameSide(w.desk.book, w'.desk.book, Other(side))
    && Pending(w'.desk.cell, w'.desk.book, i, side) + d <= room
    && (Pending(w'.desk.cell, w'.desk.book, i, side) > 0 ==>
          View(w'.desk.cell, i, side).booked == View(w.desk.cell, i, side).booked + d)
    && Recorded(w, w', i, side, d, fee)
  }

  lemma PendingSign(c: Cell, b: Book, i: nat, side: Side, step: nat)
    requires SideSound(c, b, i, side, step)
    ensures Pending(c, b, i, side) >= 0
  {}

  lemma OtherSound(c: Cell, c': Cell, b: Book, b': Book, i: nat, side: Side, step: nat)
    requires SideSound(c, b, i, side, step) && View(c', i, side) == View(c, i, side) && SameSide(b, b', side)
    ensures SideSound(c', b', i, side, step) && Pending(c', b', i, side) == Pending(c, b, i, side)
  {
    UntouchedKept(View(c, i, side), b, b', i, side, c.level.Gen(side));
  }

  /** Recording d keeps the level's held quantity and entry in step with the ledger. */
  lemma RecordedKept(w: World, w': World, i: nat, side: Side, d: int, fee: Option<real>)
    requires Recorded(w, w', i, side, d, fee) && d >= 0 && (d > 0 ==> d > QTY_EPSILON)
    requires w'.desk.cell.level.Held() == w.desk.cell.level.Held() + Signed(side, d)
    requires w.desk.cell.level.Held() == Net(w.rows) && (w.desk.cell.level.entryPrice.Some? <==> w.desk.cell.level.Held() > 0)
    requires w.desk.cell.level.Held() >= 0
    requires w'.desk.cell.level.Held() > 0 ==> w'.desk.cell.level.Held() > QTY_EPSILON
    ensures w'.desk.cell.level.Held() == Net(w'.rows) && (w'.desk.cell.level.entryPrice.Some? <==> w'.desk.cell.level.Held() > 0)
  {
    if d > 0 {
      Append(w.rows, w'.rows[|w.rows|]);
    }
  }

  /** An operation with room for what it does keeps the invariant. */
  lemma MovedKept(w: World, w': World, cfg: Config, i: nat, side: Side, d: int, room: int, fee: Option<real>)
    requires Conserved(w, cfg, i) && Moved(w, w', cfg, i, side, d, room, fee) && RoomFor(w, cfg, i, side, room)
    requires side == Buy ==> w.desk.cell.level.buyOrderId.Some? || w'.desk.cell.level.buyOrderId.None? || !w.frozen
    ensures Conserved(w', cfg, i)
  {
    OtherSound(w.desk.cell, w'.desk.cell, w.desk.book, w'.desk.book, i, Other(side), cfg.step);
    PendingSign(w'.desk.cell, w'.desk.book, i, Buy, cfg.step);
    PendingSign(w'.desk.cell, w'.desk.book, i, Sell, cfg.step);
    if w'.desk.cell.level.Held() > 0 {
      LotGap(w'.desk.cell.level.Held(), cfg.step);
    }
    RecordedKept(w, w', i, side, d, fee);
  }

  // ----- observations -----

  /** The outcome of a truthful observation, booked: exactly what was unbooked becomes one row. */
  lemma OwedRecorded(w: World, obs: Observation, b: Book, cfg: Config, i: nat, side: Side, d: int, fee: Option<real>)
    requires Owing(w.desk.cell, obs.outcome, b, i, side, d) && d >= 0 && (d > 0 ==> d > QTY_EPSILON)
    requires View(w.desk.cell, i, side).booked >= 0
    requires obs.cell.level.Held() == w.desk.cell.level.Held() + Signed(side, d) && w.desk.cell.level.Held() >= 0
    requires d > 0 ==> obs.cell.level.heldQty.Some?
    requires obs.cell.level.entryPrice == w.desk.cell.level.entryPrice
    requires obs.cell.level.price == w.desk.cell.level.price
    ensures var w' := BookOutcome(w.(desk := Desk(obs.cell, b)), cfg.orderQuantity, side, obs.outcome, fee);
      && Recorded(w, w', i, side, d, fee)
      && w'.desk.cell == obs.cell.(level := obs.cell.level.(entryPrice := w'.desk.cell.level.entryPrice))
      && w'.desk.book == b && w'.frozen == w.frozen
  {
    if d > 0 {
      var e := BookSegment(obs.cell, cfg.orderQuantity, side, SegmentOf(obs.outcome).value, fee);
      assert (w.rows + [e.row.value])[|w.rows|] == e.row.value;
    }
  }

  /** An outcome hands the ledger d more under the slot's id, up to what the venue has executed. */
  ghost predicate Owing(c: Cell, o: SlotOutcome, b: Book, i: nat, side: Side, d: int) {
    var cid := c.IdFor(i, side);
    && Owes(o, cid, View(c, i, side).booked + d, d)
    && (d > 0 ==> cid in b && b[cid].cum == View(c, i, side).booked + d)
  }

  /** How far a truthful observation takes a slot. */
  lemma SeenSound(c: Cell, obs: Observation, b: Book, cfg: Config, i: nat, side: Side, rows: seq<Row>, seen: Sight)
    requires Observable(c, b, cfg, i, side, rows) && Observed(c, obs, b, cfg.orderQuantity, i, side, seen)
    ensures SideSound(obs.cell, b, i, side, cfg.step)
    ensures var d := if seen.SeenLive? || seen.SeenOver? then Unbooked(c, b, i, side) else 0;
      && Pending(obs.cell, b, i, side) + d <= Pending(c, b, i, side)
      && (Pending(obs.cell, b, i, side) > 0 ==> View(obs.cell, i, side).booked == View(c, i, side).booked + d)
  {
    var v := View(c, i, side);
    if seen == SeenOver {
      var top := SpentKept(v, b, i, side, v.gen);
      assert Lots(0, cfg.step) == 0;
    } else if seen == SeenEmpty {
      FreedKept(v, b, i, side, v.gen);
      assert Lots(0, cfg.step) == 0;
    }
  }

  /** A cell that differs from the world's only in the record being written and its cumulative. */
  ghost predicate Begun(w: World, c: Cell, i: nat) {
    var l := w.desk.cell.level;
    && c.level.heldQty == l.heldQty && c.level.filled == l.filled && c.level.exitOnly == l.exitOnly
    && c.level.entryPrice == l.entryPrice && c.level.price == l.price
    && View(c, i, Buy) == View(w.desk.cell, i, Buy) && View(c, i, Sell) == View(w.desk.cell, i, Sell)
  }

  /** The level after a shift that fits. */
  lemma ShiftSound(c: Cell, b: Book, cfg: Config, i: nat, side: Side, rows: seq<Row>)
    requires Observable(c, b, cfg, i, side, rows) && c.IdFor(i, side) in b
    ensures var d := Unbooked(c, b, i, side);
      var l' := Shift(c.level, cfg.orderQuantity, side, d, b[c.IdFor(i, side)].cum);
      && d >= 0 && (d > 0 ==> d > QTY_EPSILON) && LevelSound(l', cfg) && l'.Held() == c.level.Held() + Signed(side, d)
      && (l'.IsExitOnly() <==> c.level.IsExitOnly() && (d == 0 || l'.Held() > QTY_EPSILON))
  {
    ClampsUnreachable(c, b, cfg, i, side);
    LotSum(c.level.Held(), Unbooked(c, b, i, side), cfg.step);
  }

  /** The quantity fields an observation leaves on the level. */
  lemma SeenLevel(c: Cell, obs: Observation, b: Book, cfg: Config, i: nat, side: Side, rows: seq<Row>, seen: Sight)
    returns (d: int)
    requires Observable(c, b, cfg, i, side, rows) && Observed(c, obs, b, cfg.orderQuantity, i, side, seen)
    ensures d == (if seen.SeenLive? || seen.SeenOver? then Unbooked(c, b, i, side) else 0)
    ensures var l' := obs.cell.level;
      && d >= 0 && (d > 0 ==> d > QTY_EPSILON) && LevelSound(l', cfg) && l'.Held() == c.level.Held() + Signed(side, d)
      && (l'.IsExitOnly() <==> c.level.IsExitOnly() && (d == 0 || l'.Held() > QTY_EPSILON))
      && (d > 0 ==> l'.heldQty.Some?) && l'.entryPrice == c.level.entryPrice && l'.price == c.level.price
    ensures Owing(c, obs.outcome, b, i, side, d)
    ensures View(obs.cell, i, Other(side)) == View(c, i, Other(side)) && c.level.Gen(side) <= obs.cell.level.Gen(side)
  {
    d := 0;
    if seen.SeenLive? || seen.SeenOver? {
      d := Unbooked(c, b, i, side);
      ShiftSound(c, b, cfg, i, side, rows);
    }
  }

  /** A slot as a truthful observation leaves it, before anything is booked. */
  ghost predicate Settled(c: Cell, obs: Observation, b: Book, cfg: Config, i: nat, side: Side, d: int) {
    var l' := obs.cell.level;
    && d >= 0 && (d > 0 ==> d > QTY_EPSILON && l'.heldQty.Some?) && Owing(c, obs.outcome, b, i, side, d)
    && LevelSound(l', cfg) && l'.Held() == c.level.Held() + Signed(side, d)
    && (l'.IsExitOnly() <==> c.level.IsExitOnly() && (d == 0 || l'.Held() > QTY_EPSILON))
    && l'.entryPrice == c.level.entryPrice && l'.price == c.level.price
    && View(obs.cell, i, Other(side)) == View(c, i, Other(side)) && c.level.Gen(side) <= obs.cell.level.Gen(side)
    && SideSound(obs.cell, b, i, side, cfg.step) && Pending(obs.cell, b, i, side) + d <= Pending(c, b, i, side)
    && (Pending(obs.cell, b, i, side) > 0 ==> View(obs.cell, i, side).booked == View(c, i, side).booked + d)
  }

  lemma SettledBy(c: Cell, obs: Observation, b: Book, cfg: Config, i: nat, side: Side, rows: seq<Row>, seen: Sight)
    returns (d: int)
    requires Observable(c, b, cfg, i, side, rows) && Observed(c, obs, b, cfg.orderQuantity, i, side, seen)
    ensures Settled(c, obs, b, cfg, i, side, d)
  {
    d := SeenLevel(c, obs, b, cfg, i, side, rows, seen);
    SeenSound(c, obs, b, cfg, i, side, rows, seen);
  }

  /** Booking what a settled slot owes is one move of the slot. */
  lemma SettledMoves(w: World, c: Cell, obs: Observation, b: Book, cfg: Config, i: nat, side: Side, d: int,
                     fee: Option<real>)
    requires w.desk.cell.level.Held() >= 0 && View(w.desk.cell, i, side).booked >= 0 && Begun(w, c, i)
    requires Settled(c, obs, b, cfg, i, side, d)
    requires SameSide(w.desk.book, b, Other(side))
    requires Coherent(BookOutcome(w.(desk := Desk(obs.cell, b)), cfg.orderQuantity, side, obs.outcome, fee), i)
    ensures Moved(w, BookOutcome(w.(desk := Desk(obs.cell, b)), cfg.orderQuantity, side, obs.outcome, fee),
                  cfg, i, side, d, Pending(c, b, i, side), fee)
  {
    OwedRecorded(w, obs, b, cfg, i, side, d, fee);
    EntryOnly(w, BookOutcome(w.(desk := Desk(obs.cell, b)), cfg.orderQuantity, side, obs.outcome, fee), c, obs, b,
      cfg, i, side, d, fee);
  }

  /** Booking changes only the entry of an observed cell, so it moves the slot as far as the observation did. */
  lemma EntryOnly(w: World, w': World, c: Cell, obs: Observation, b: Book, cfg: Config, i: nat, side: Side, d: int,
                  fee: Option<real>)
    requires Begun(w, c, i) && Coherent(w', i) && Recorded(w, w', i, side, d, fee)
    requires w'.desk == Desk(obs.cell.(level := obs.cell.level.(entryPrice := w'.desk.cell.level.entryPrice)), b)
    requires w'.frozen == w.frozen && Settled(c, obs, b, cfg, i, side, d) && SameSide(w.desk.book, b, Other(side))
    ensures Moved(w, w', cfg, i, side, d, Pending(c, b, i, side), fee)
  {
    SoundByView(obs.cell, w'.desk.cell, b, i, side, cfg.step);
  }

  lemma SoundByView(c: Cell, c': Cell, b: Book, i: nat, side: Side, step: nat)
    requires SideSound(c, b, i, side, step) && View(c', i, side) == View(c, i, side)
    ensures SideSound(c', b, i, side, step) && Pending(c', b, i, side) == Pending(c, b, i, side)
  {}

  // ----- the venue moving -----

  lemma EvolveLots(o: VenueOrder, step: nat, m: Move)
    requires Lot(o.quantity, step) && Lot(o.cum, step)
    ensures Lot(Evolve(o, step, m).quantity, step) && Lot(Evolve(o, step, m).cum, step)
  {
    assert Lots(m.fill, step) == m.fill * step;
    LotSum(o.cum, m.fill * step, step);
  }

  /** The venue moving under any id of the level leaves a slot sound, with no more to book. */
  lemma EvolveSideSound(c: Cell, b: Book, i: nat, side: Side, step: nat, cid: Cid, m: Move)
    requires SideSound(c, b, i, side, step) && step > QTY_EPSILON && (cid in b ==> SoundOrder(b[cid]))
    ensures SideSound(c, EvolveAt(b, step, cid, m), i, side, step)
    ensures Pending(c, EvolveAt(b, step, cid, m), i, side) <= Pending(c, b, i, side)
  {
    EvolveKept(View(c, i, side), b, i, side, c.level.Gen(side), step, cid, m);
    if cid in b {
      EvolveSound(b[cid], step, m);
      if cid == c.IdFor(i, side) {
        EvolveLots(b[cid], step, m);
      }
    }
  }

  /** After a confirmed cancel the slot's order is over and there is no more to book than before. */
  lemma CancelSideSound(c: Cell, b: Book, i: nat, side: Side, step: nat, m: Move)
    requires SideSound(c, b, i, side, step) && step > QTY_EPSILON && c.level.HandleOf(side).Some?
    ensures var b' := CancelAt(b, step, c.level.HandleOf(side).value, m);
      && SideSound(c, b', i, side, step) && Pending(c, b', i, side) <= Pending(c, b, i, side)
      && SameSide(b, b', Other(side)) && b'[c.IdFor(i, side)].status != Live
  {
    var cid := c.IdFor(i, side);
    CancelAtKept(View(c, i, side), b, i, side, c.level.Gen(side), step, m);
    EvolveLots(b[cid], step, m);
    EvolveSound(b[cid], step, m);
  }

  /** Room for more is room for less. */
  lemma RoomShrinks(w: World, cfg: Config, i: nat, side: Side, more: int, less: int)
    requires RoomFor(w, cfg, i, side, more) && less <= more
    ensures RoomFor(w, cfg, i, side, less)
  {}

  lemma RoomBothWays(w: World, cfg: Config, i: nat, side: Side)
    requires Conserved(w, cfg, i)
    ensures RoomFor(w, cfg, i, side, Pending(w.desk.cell, w.desk.book, i, side))
  {}

  /** Only the book changes, on one side, with no more left to book there. */
  lemma BookMoves(w: World, b: Book, cfg: Config, i: nat, side: Side)
    requires Conserved(w, cfg, i) && SideSound(w.desk.cell, b, i, side, cfg.step)
    requires SameSide(w.desk.book, b, Other(side))
    requires Pending(w.desk.cell, b, i, side) <= Pending(w.desk.cell, w.desk.book, i, side)
    ensures Conserved(w.(desk := w.desk.(book := b)), cfg, i)
  {
    OtherSound(w.desk.cell, w.desk.cell, w.desk.book, b, i, Other(side), cfg.step);
  }

  lemma VenueConserved(w: World, cfg: Config, i: nat, side: Side, gen: nat, m: Move)
    requires Conserved(w, cfg, i)
    ensures Conserved(w.(desk := w.desk.(book := EvolveAt(w.desk.book, cfg.step, Cid(i, side, gen), m))), cfg, i)
  {
    var cid := Cid(i, side, gen);
    EvolveSideSound(w.desk.cell, w.desk.book, i, side, cfg.step, cid, m);
    EvolveContained(w.desk.book, i, side, w.desk.cell.level.Gen(side), cfg.step, cid, m);
    BookMoves(w, EvolveAt(w.desk.book, cfg.step, cid, m), cfg, i, side);
  }

  // ----- checks -----

  /** A conserved level's live slot, seen after the venue moved. */
  lemma ObservableAfter(w: World, c: Cell, b: Book, cfg: Config, i: nat, side: Side, m: Move)
    requires Observable(c, b, cfg, i, side, w.rows)
    ensures var b' := EvolveAt(b, cfg.step, c.IdFor(i, side), m);
      && Observable(c, b', cfg, i, side, w.rows)
      && Pending(c, b', i, side) <= Pending(c, b, i, side) && SameSide(b, b', Other(side))
  {
    EvolveSideSound(c, b, i, side, cfg.step, c.IdFor(i, side), m);
    EvolveContained(b, i, side, c.level.Gen(side), cfg.step, c.IdFor(i, side), m);
  }

  lemma MoreRoom(w: World, w': World, cfg: Config, i: nat, side: Side, d: int, room: int, more: int, fee: Option<real>)
    requires Moved(w, w', cfg, i, side, d, room, fee) && room <= more
    ensures Moved(w, w', cfg, i, side, d, more, fee)
  {}

  /** A check of a live slot is one move. */
  lemma CheckMoves(w: World, cfg: Config, i: nat, side: Side, m: Move, fee: Option<real>) returns (d: int)
    requires Conserved(w, cfg, i) && w.desk.cell.level.HandleOf(side).Some? && m.Honest()
    ensures Moved(w, CheckSide(w, cfg, side, m, fee), cfg, i, side, d, Pending(w.desk.cell, w.desk.book, i, side), fee)
  {
    var c := w.desk.cell;
    var h := c.level.HandleOf(side).value;
    var b := EvolveAt(w.desk.book, cfg.step, h.cid, m);
    ObservableAfter(w, c, w.desk.book, cfg, i, side, m);
    var seen := HandleObserved(c, b, cfg, i, side, w.rows, m);
    var obs := ObserveHandle(c, cfg.orderQuantity, c.Rec(side).value, h, HandleReply(b, h, m));
    d := SettledBy(c, obs, b, cfg, i, side, w.rows, seen);
    CheckKept(w, cfg, i, side, m, fee);
    CheckSideIs(w, cfg, i, side, m, fee);
    SettledMoves(w, c, obs, b, cfg, i, side, d, fee);
    MoreRoom(w, CheckSide(w, cfg, side, m, fee), cfg, i, side, d, Pending(c, b, i, side),
      Pending(c, w.desk.book, i, side), fee);
  }

  lemma CheckSideIs(w: World, cfg: Config, i: nat, side: Side, m: Move, fee: Option<real>)
    requires Coherent(w, i) && w.desk.cell.level.HandleOf(side).Some?
    ensures var c := w.desk.cell;
      var h := c.level.HandleOf(side).value;
      var b := EvolveAt(w.desk.book, cfg.step, h.cid, m);
      var obs := ObserveHandle(c, cfg.orderQuantity, c.Rec(side).value, h, HandleReply(b, h, m));
      && CheckSlot(w.desk, cfg, side, m) == Placement(Desk(obs.cell, b), obs.outcome)
      && CheckSide(w, cfg, side, m, fee) == BookOutcome(w.(desk := Desk(obs.cell, b)), cfg.orderQuantity, side, obs.outcome, fee)
  {}

  lemma CheckConserved(w: World, cfg: Config, i: nat, side: Side, m: Move, fee: Option<real>) returns (d: int)
    requires Conserved(w, cfg, i) && w.desk.cell.level.HandleOf(side).Some? && m.Honest()
    ensures Conserved(CheckSide(w, cfg, side, m, fee), cfg, i)
    ensures Moved(w, CheckSide(w, cfg, side, m, fee), cfg, i, side, d, Pending(w.desk.cell, w.desk.book, i, side), fee)
  {
    d := CheckMoves(w, cfg, i, side, m, fee);
    RoomBothWays(w, cfg, i, side);
    MovedKept(w, CheckSide(w, cfg, side, m, fee), cfg, i, side, d, Pending(w.desk.cell, w.desk.book, i, side), fee);
  }

  // ----- confirmed cancels -----

  /** Freeing a slot whose order is over: its id is spent if anything was booked under it. */
  lemma FreeSettles(c: Cell, b: Book, cfg: Config, i: nat, side: Side, rows: seq<Row>)
    requires CellCoherent(c, rows, i) && c.Current(i, side) && LevelSound(c.level, cfg)
    requires SideSound(c, b, i, side, cfg.step)
    requires c.IdFor(i, side) in b && b[c.IdFor(i, side)].status != Live
    ensures Settled(c, Observation(MarkNotFound(c, side), SafeToRecreate(None)), b, cfg, i, side, 0)
  {
    NotFoundView(c, i, side, rows);
    assert Lots(0, cfg.step) == 0;
    if View(c, i, side).booked > QTY_EPSILON {
      var top := SpentKept(View(c, i, side), b, i, side, c.level.Gen(side));
    } else {
      FreedKept(View(c, i, side), b, i, side, c.level.Gen(side));
    }
  }

  /** What the venue's confirmation still settles after a check that could not read the order. */
  lemma FreeConserved(w: World, cfg: Config, i: nat, side: Side)
    requires Conserved(w, cfg, i) && w.desk.cell.level.HandleOf(side).Some?
    requires w.desk.book[w.desk.cell.IdFor(i, side)].status != Live
    ensures var w' := w.(desk := w.desk.(cell := MarkNotFound(w.desk.cell, side)));
      && Conserved(w', cfg, i) && Moved(w, w', cfg, i, side, 0, Pending(w.desk.cell, w.desk.book, i, side), None)
  {
    var obs := Observation(MarkNotFound(w.desk.cell, side), SafeToRecreate(None));
    FreeSettles(w.desk.cell, w.desk.book, cfg, i, side, w.rows);
    NotFoundKept(w.desk.cell, i, side, w.rows);
    var w' := w.(desk := Desk(obs.cell, w.desk.book));
    NothingToBook(w', cfg.orderQuantity, side, obs.outcome, None);
    SettledMoves(w, w.desk.cell, obs, w.desk.book, cfg, i, side, 0, None);
    RoomBothWays(w, cfg, i, side);
    MovedKept(w, w', cfg, i, side, 0, Pending(w.desk.cell, w.desk.book, i, side), None);
  }

  /** A world and its successor agree but for at most one recorded segment. */
  ghost predicate Advances(w: World, w': World, i: nat, side: Side, d: int, fee: Option<real>) {
    && d >= 0 && (d > 0 ==> d > QTY_EPSILON)
    && w'.desk.cell.level.Held() == w.desk.cell.level.Held() + Signed(side, d)
    && w'.desk.cell.level.price == w.desk.cell.level.price
    && w.desk.cell.level.Gen(Buy) <= w'.desk.cell.level.Gen(Buy) && w.desk.cell.level.Gen(Sell) <= w'.desk.cell.level.Gen(Sell)
    && Recorded(w, w', i, side, d, fee)
  }

  lemma CancelConserved(w: World, cfg: Config, i: nat, side: Side, confirmed: bool, last: Move, m: Move,
                        fee: Option<real>)
    returns (d: int)
    requires Conserved(w, cfg, i) && m.Honest()
    ensures Conserved(CancelSide(w, cfg, side, confirmed, last, m, fee), cfg, i)
    ensures Advances(w, CancelSide(w, cfg, side, confirmed, last, m, fee), i, side, d, fee)
  {
    var h := w.desk.cell.level.HandleOf(side);
    d := 0;
    if h.Some? && confirmed {
      var canceled := w.(desk := w.desk.(book := CancelAt(w.desk.book, cfg.step, h.value, last)));
      CancelSideSound(w.desk.cell, w.desk.book, i, side, cfg.step, last);
      BookMoves(w, canceled.desk.book, cfg, i, side);
      d := ReconciledConserved(canceled, cfg, i, side, m, fee);
      AdvancesFrom(w, canceled, CancelSide(w, cfg, side, confirmed, last, m, fee), i, side, d, fee);
    }
  }

  lemma AdvancesFrom(w: World, w1: World, w2: World, i: nat, side: Side, d: int, fee: Option<real>)
    requires w1 == w.(desk := w.desk.(book := w1.desk.book)) && Advances(w1, w2, i, side, d, fee)
    ensures Advances(w, w2, i, side, d, fee)
  {}

  /** Closing out a slot whose order is over. */
  lemma ReconciledConserved(w: World, cfg: Config, i: nat, side: Side, m: Move, fee: Option<real>) returns (d: int)
    requires Conserved(w, cfg, i) && w.desk.cell.level.HandleOf(side).Some? && m.Honest()
    requires w.desk.book[w.desk.cell.IdFor(i, side)].status != Live
    ensures Conserved(ReconcileCancelledSlot(w, cfg, side, m, fee), cfg, i)
    ensures Advances(w, ReconcileCancelledSlot(w, cfg, side, m, fee), i, side, d, fee)
  {
    var p := CheckSlot(w.desk, cfg, side, m);
    if p.outcome.FilledOrder? || p.outcome.SafeToRecreate? {
      d := CheckConserved(w, cfg, i, side, m, fee);
    } else {
      OverOrderUnread(w, cfg, i, side, m, w.desk.cell.level.Gen(side));
      UnreadConserved(w, cfg, i, side, m, fee);
      FreeConserved(w.(desk := p.desk), cfg, i, side);
      d := 0;
    }
  }

  /** A check that learnt nothing books nothing. */
  lemma UnreadConserved(w: World, cfg: Config, i: nat, side: Side, m: Move, fee: Option<real>)
    requires Conserved(w, cfg, i) && w.desk.cell.level.HandleOf(side).Some? && m.Honest()
    requires w.desk.book[w.desk.cell.IdFor(i, side)].status != Live
    requires CheckSlot(w.desk, cfg, side, m).outcome.Unavailable?
    ensures var p := CheckSlot(w.desk, cfg, side, m);
      && CheckSide(w, cfg, side, m, fee) == w.(desk := p.desk) && Conserved(w.(desk := p.desk), cfg, i)
      && p.desk.cell == MarkState(w.desk.cell, side, ExchangeUnavailable) && p.desk.book == w.desk.book
  {
    var d := CheckConserved(w, cfg, i, side, m, fee);
    CheckSideIs(w, cfg, i, side, m, fee);
    NothingToBook(w.(desk := CheckSlot(w.desk, cfg, side, m).desk), cfg.orderQuantity, side,
      CheckSlot(w.desk, cfg, side, m).outcome, fee);
    OverOrderUnread(w, cfg, i, side, m, w.desk.cell.level.Gen(side));
    hide CheckSlot, CheckSide, BookOutcome;
  }

  // ----- placements -----

  lemma StateSettled(c: Cell, obs: Observation, b: Book, cfg: Config, i: nat, side: Side, d: int, st: RecordState,
                     o: SlotOutcome)
    requires Settled(c, obs, b, cfg, i, side, d) && SegmentOf(obs.outcome).None? && SegmentOf(o).None?
    requires obs.cell.Rec(side).Some? ==> obs.cell.Rec(side).value.cid.side == side
    ensures Settled(c, Observation(MarkState(obs.cell, side, st), o), b, cfg, i, side, d)
  {
    var c' := MarkState(obs.cell, side, st);
    assert View(c', i, Buy) == View(obs.cell, i, Buy) && View(c', i, Sell) == View(obs.cell, i, Sell);
    SoundByView(obs.cell, c', b, i, side, cfg.step);
  }

  /** A truthful lookup under the slot's current id settles the slot. */
  lemma LookupSettles(w: World, c: Cell, b: Book, cfg: Config, i: nat, side: Side, m: Move) returns (d: int)
    requires Observable(c, b, cfg, i, side, w.rows) && m.Honest()
    ensures var p := LookupStep(Desk(c, b), cfg, c.IdFor(i, side), m);
      && Settled(c, Observation(p.desk.cell, p.outcome), p.desk.book, cfg, i, side, d)
      && Pending(c, p.desk.book, i, side) <= Pending(c, b, i, side) && SameSide(b, p.desk.book, Other(side))
  {
    var id := c.IdFor(i, side);
    var book := EvolveAt(b, cfg.step, id, m);
    ObservableAfter(w, c, b, cfg, i, side, m);
    var seen := LookupObserved(c, book, cfg, i, side, w.rows, m);
    d := SettledBy(c, ObserveLookup(c, cfg.orderQuantity, id, LookupReply(book, id, m)), book, cfg, i, side, w.rows,
      seen);
  }

  /** The submission error path settles the slot too. */
  lemma RecoverSettles(w: World, c: Cell, b: Book, cfg: Config, i: nat, side: Side, reason: Reason, m: Move)
    returns (d: int)
    requires Observable(c, b, cfg, i, side, w.rows) && m.Honest()
    ensures var p := Recover(Desk(c, b), cfg, c.IdFor(i, side), reason, m);
      && Settled(c, Observation(p.desk.cell, p.outcome), p.desk.book, cfg, i, side, d)
      && Pending(c, p.desk.book, i, side) <= Pending(c, b, i, side) && SameSide(b, p.desk.book, Other(side))
  {
    d := LookupSettles(w, c, b, cfg, i, side, m);
    var seen := LookupStep(Desk(c, b), cfg, c.IdFor(i, side), m);
    if SegmentOf(seen.outcome).None? {
      LookupSlots(Desk(c, b), cfg, i, side, w.rows, m);
      StateSettled(c, Observation(seen.desk.cell, seen.outcome), seen.desk.book, cfg, i, side, d, ExchangeUnavailable,
        Unavailable(reason));
    }
  }

  /** The slot and its book once a fresh id was submitted. */
  lemma CreateSettles(c: Cell, b: Book, cfg: Config, i: nat, side: Side, rows: seq<Row>, price: real, quantity: int,
                      ro: bool, m: CreateMove)
    requires Observable(c, b, cfg, i, side, rows) && View(c, i, side) == SlotView(c.level.Gen(side), None, 0)
    requires FreshId(b, c.IdFor(i, side)) && quantity > QTY_EPSILON && Lot(quantity, cfg.step)
    requires if side == Buy then c.level.Held() + quantity <= cfg.orderQuantity else quantity <= c.level.Held()
    ensures var cid := c.IdFor(i, side);
      var b' := CreateBook(b, cid, price, quantity, ro, m);
      && Observable(c, b', cfg, i, side, rows) && SameSide(b, b', Other(side))
      && Pending(c, b', i, side) == (if Takes(b, cid, quantity, m) then quantity else 0)
      && (CreateAnswer(b, cid, quantity, m).Created? ==>
            Settled(c, Observation(MarkOpen(c, side, CreateAnswer(b, cid, quantity, m).orderId),
                                   OpenOrder(CreateAnswer(b, cid, quantity, m).orderId)), b', cfg, i, side, 0))
  {
    CreateChained(View(c, i, side), b, i, side, c.level.Gen(side), price, quantity, ro, m);
    assert Lots(0, cfg.step) == 0;
  }

  /** A submission under a fresh id settles the slot within the quantity it asked for. */
  lemma SubmitSettles(w: World, c: Cell, b: Book, cfg: Config, i: nat, side: Side, price: real, quantity: int,
                      ro: bool, e: PlaceMoves)
    returns (d: int, room: int)
    requires Observable(c, b, cfg, i, side, w.rows) && View(c, i, side) == SlotView(c.level.Gen(side), None, 0)
    requires e.Honest()
    requires FreshId(b, c.IdFor(i, side)) && quantity > QTY_EPSILON && Lot(quantity, cfg.step)
    requires if side == Buy then c.level.Held() + quantity <= cfg.orderQuantity else quantity <= c.level.Held()
    ensures var p := Submit(Desk(c, b), cfg, c.IdFor(i, side), price, quantity, ro, e);
      && Settled(c, Observation(p.desk.cell, p.outcome), p.desk.book, cfg, i, side, d)
      && Pending(c, p.desk.book, i, side) <= room && SameSide(b, p.desk.book, Other(side))
      && room <= quantity && (p.outcome.Unavailable? && p.outcome.reason != OtherReason ==> room == 0)
  {
    var id := c.IdFor(i, side);
    var b' := CreateBook(b, id, price, quantity, ro, e.create);
    CreateSettles(c, b, cfg, i, side, w.rows, price, quantity, ro, e.create);
    room := Pending(c, b', i, side);
    match CreateAnswer(b, id, quantity, e.create)
    case Created(h) => d := 0;
    case Refused(reason) =>
      d := RecoverSettles(w, c, b', cfg, i, side, reason, e.post);
  }

  /** Recording the intent to submit leaves a handle-less slot as it was. */
  lemma BeginObservable(w: World, cfg: Config, i: nat, side: Side, price: real, quantity: int)
    requires Conserved(w, cfg, i) && w.desk.cell.level.HandleOf(side).None?
    ensures var c := MarkState(BeginSubmit(w.desk.cell, w.desk.cell.IdFor(i, side), price, quantity), side, Submitting);
      && Begun(w, c, i) && Observable(c, w.desk.book, cfg, i, side, w.rows)
      && c.IdFor(i, side) == w.desk.cell.IdFor(i, side) && View(c, i, side) == SlotView(c.level.Gen(side), None, 0)
      && Pending(c, w.desk.book, i, side) == Pending(w.desk.cell, w.desk.book, i, side)
  {
    var c := MarkState(BeginSubmit(w.desk.cell, w.desk.cell.IdFor(i, side), price, quantity), side, Submitting);
    BeginKept(w.desk.cell, i, side, price, quantity, w.rows);
    BeginView(w.desk.cell, i, side, price, quantity);
    SoundByView(w.desk.cell, c, w.desk.book, i, side, cfg.step);
  }

  /** A lookup that found the id free leaves the slot as it was, with nothing pending. */
  lemma FreeObservable(w: World, c: Cell, b: Book, cfg: Config, i: nat, side: Side, m: Move)
    requires Observable(c, b, cfg, i, side, w.rows) && Begun(w, c, i) && m.Honest()
    requires View(c, i, side) == SlotView(c.level.Gen(side), None, 0)
    requires LookupStep(Desk(c, b), cfg, c.IdFor(i, side), m).outcome == SafeToRecreate(None)
    ensures var pre := LookupStep(Desk(c, b), cfg, c.IdFor(i, side), m).desk;
      && Begun(w, pre.cell, i) && Observable(pre.cell, pre.book, cfg, i, side, w.rows)
      && pre.cell.IdFor(i, side) == c.IdFor(i, side) && FreshId(pre.book, c.IdFor(i, side))
      && View(pre.cell, i, side) == SlotView(c.level.Gen(side), None, 0) && SameSide(b, pre.book, Other(side))
  {
    var id := c.IdFor(i, side);
    var book := EvolveAt(b, cfg.step, id, m);
    ObservableAfter(w, c, b, cfg, i, side, m);
    var seen := LookupObserved(c, book, cfg, i, side, w.rows, m);
    LookupFrees(c, cfg.orderQuantity, i, side, w.rows, LookupReply(book, id, m));
    assert seen == SeenEmpty;
    SoundByView(c, LookupStep(Desk(c, b), cfg, id, m).desk.cell, book, i, side, cfg.step);
  }

  /** A lookup that could not tell gives no reason a caller acts on. */
  lemma LookupReason(d: Desk, cfg: Config, cid: Cid, m: Move)
    ensures var o := LookupStep(d, cfg, cid, m).outcome; o.Unavailable? ==> o.reason == OtherReason
  {}

  lemma BegunHeld(w: World, c: Cell, i: nat)
    requires Begun(w, c, i)
    ensures c.level.Held() == w.desk.cell.level.Held()
  {}

  lemma SameSideChain(a: Book, b: Book, c: Book, side: Side)
    requires SameSide(a, b, side) && SameSide(b, c, side)
    ensures SameSide(a, c, side)
  {}

  /** Past the boundary check, a placement settles the slot within what was pending or what it asked for. */
  lemma AttemptSettles(w: World, cfg: Config, i: nat, side: Side, price: real, quantity: int, ro: bool, e: PlaceMoves)
    returns (c: Cell, d: int, room: int)
    requires Conserved(w, cfg, i) && w.desk.cell.level.HandleOf(side).None? && e.Honest()
    requires quantity > QTY_EPSILON && Lot(quantity, cfg.step)
    requires if side == Buy then w.desk.cell.level.Held() + quantity <= cfg.orderQuantity else quantity <= w.desk.cell.level.Held()
    ensures var p := Attempt(w.desk, cfg, w.desk.cell.IdFor(i, side), price, quantity, ro, e);
      && Begun(w, c, i) && Settled(c, Observation(p.desk.cell, p.outcome), p.desk.book, cfg, i, side, d)
      && Pending(c, p.desk.book, i, side) <= room && SameSide(w.desk.book, p.desk.book, Other(side))
      && (room <= Pending(w.desk.cell, w.desk.book, i, side) || room <= quantity)
      && (p.outcome.Unavailable? && p.outcome.reason != OtherReason ==> room == 0)
  {
    hide Settled, Begun, Submit, LookupStep, SameSide, Conserved, Observable, Pending, MarkState, BeginSubmit;
    var id := w.desk.cell.IdFor(i, side);
    c := MarkState(BeginSubmit(w.desk.cell, id, price, quantity), side, Submitting);
    BeginObservable(w, cfg, i, side, price, quantity);
    room := Pending(c, w.desk.book, i, side);
    d := LookupSettles(w, c, w.desk.book, cfg, i, side, e.pre);
    var pre := LookBeforeCreate(w.desk, cfg, id, price, quantity, e.pre);
    LookupReason(Desk(c, w.desk.book), cfg, id, e.pre);
    if pre.outcome == SafeToRecreate(None) {
      if e.intentPersisted {
        FreeObservable(w, c, w.desk.book, cfg, i, side, e.pre);
        c := pre.desk.cell;
        BegunHeld(w, c, i);
        d, room := SubmitSettles(w, c, pre.desk.book, cfg, i, side, price, quantity, ro, e);
        SameSideChain(w.desk.book, pre.desk.book, Submit(pre.desk, cfg, id, price, quantity, ro, e).desk.book,
          Other(side));
      } else {
        NotPersisted(w, c, cfg, i, side, pre, e.pre, d);
      }
    }
  }

  /** An intent that could not be persisted changes only the record's state. */
  lemma NotPersisted(w: World, c: Cell, cfg: Config, i: nat, side: Side, pre: Placement, m: Move, d: int)
    requires CellCoherent(c, w.rows, i) && c.Current(i, side)
    requires pre == LookupStep(Desk(c, w.desk.book), cfg, c.IdFor(i, side), m) && pre.outcome == SafeToRecreate(None)
    requires Settled(c, Observation(pre.desk.cell, pre.outcome), pre.desk.book, cfg, i, side, d)
    ensures Settled(c, Observation(MarkState(pre.desk.cell, side, ExchangeUnavailable), Unavailable(OtherReason)), pre.desk.book, cfg, i, side, d)
  {
    LookupSlots(Desk(c, w.desk.book), cfg, i, side, w.rows, m);
    StateSettled(c, Observation(pre.desk.cell, pre.outcome), pre.desk.book, cfg, i, side, d, ExchangeUnavailable,
      Unavailable(OtherReason));
  }

  /** A placement is one move of its slot. */
  lemma EnsureMoves(w: World, cfg: Config, i: nat, side: Side, price: real, quantity: int, ro: bool, e: PlaceMoves,
                    fee: Option<real>)
    returns (d: int, room: int)
    requires Conserved(w, cfg, i) && w.desk.cell.level.HandleOf(side).None? && e.Honest()
    requires quantity > QTY_EPSILON && Lot(quantity, cfg.step)
    requires if side == Buy then w.desk.cell.level.Held() + quantity <= cfg.orderQuantity else quantity <= w.desk.cell.level.Held()
    ensures var p := EnsureSlotOrder(w.desk, cfg, i, side, price, quantity, ro, e);
      && Moved(w, BookOutcome(w.(desk := p.desk), cfg.orderQuantity, side, p.outcome, fee), cfg, i, side, d, room, fee)
      && (room <= Pending(w.desk.cell, w.desk.book, i, side) || room <= quantity)
      && (p.outcome.Unavailable? && p.outcome.reason != OtherReason ==> room == 0)
  {
    EnsureKept(w, cfg, i, side, price, quantity, ro, e, fee);
    if e.boundary == Passed {
      var c;
      var p := Attempt(w.desk, cfg, w.desk.cell.IdFor(i, side), price, quantity, ro, e);
      c, d, room := AttemptSettles(w, cfg, i, side, price, quantity, ro, e);
      SettledMoves(w, c, Observation(p.desk.cell, p.outcome), p.desk.book, cfg, i, side, d, fee);
      MoreRoom(w, BookOutcome(w.(desk := p.desk), cfg.orderQuantity, side, p.outcome, fee), cfg, i, side, d,
               Pending(c, p.desk.book, i, side), room, fee);
    } else {
      d, room := 0, Pending(w.desk.cell, w.desk.book, i, side);
      UnplacedMoves(w, cfg, i, side, price, quantity, ro, e, fee);
    }
  }

  /** A placement stopped by the market-rules check changes at most a record's state. */
  lemma UnplacedMoves(w: World, cfg: Config, i: nat, side: Side, price: real, quantity: int, ro: bool, e: PlaceMoves,
                      fee: Option<real>)
    requires Conserved(w, cfg, i) && w.desk.cell.level.HandleOf(side).None? && e.boundary != Passed
    ensures var p := EnsureSlotOrder(w.desk, cfg, i, side, price, quantity, ro, e);
      Moved(w, BookOutcome(w.(desk := p.desk), cfg.orderQuantity, side, p.outcome, fee), cfg, i, side, 0,
            Pending(w.desk.cell, w.desk.book, i, side), fee)
  {
    var p := EnsureSlotOrder(w.desk, cfg, i, side, price, quantity, ro, e);
    EnsureKept(w, cfg, i, side, price, quantity, ro, e, fee);
    assert View(p.desk.cell, i, Buy) == View(w.desk.cell, i, Buy) && View(p.desk.cell, i, Sell) == View(w.desk.cell, i, Sell);
    SoundByView(w.desk.cell, p.desk.cell, w.desk.book, i, side, cfg.step);
  }

  // ----- the tick and the stop-loss exit -----

  /** A level the tick buys at has no exit outstanding, so its whole shortfall fits. */
  lemma BuyRoom(w: World, cfg: Config, i: nat, mark: real)
    requires Conserved(w, cfg, i) && BuyArmed(w.desk.cell.level, cfg.orderQuantity, mark, w.frozen)
    ensures var quantity := BuyRemainder(w.desk.cell.level, cfg.orderQuantity);
      && quantity > QTY_EPSILON && Lot(quantity, cfg.step)
      && w.desk.cell.level.Held() + quantity == cfg.orderQuantity
      && RoomFor(w, cfg, i, Buy, quantity)
  {
    LotSum(cfg.orderQuantity, w.desk.cell.level.Held(), cfg.step);
  }

  /** An exit for what the level holds fits when the level is full, locked, or frozen without an entry handle. */
  lemma SellRoom(w: World, cfg: Config, i: nat, quantity: int)
    requires Conserved(w, cfg, i) && w.desk.cell.level.sellOrderId.None?
    requires var l := w.desk.cell.level;
      && l.Held() > QTY_EPSILON && (l.FullyLong(cfg.orderQuantity) || l.IsExitOnly() || (w.frozen && l.buyOrderId.None?))
      && quantity == if l.FullyLong(cfg.orderQuantity) then cfg.orderQuantity else l.Held()
    ensures quantity > QTY_EPSILON && Lot(quantity, cfg.step) && quantity == w.desk.cell.level.Held()
    ensures RoomFor(w, cfg, i, Sell, quantity)
  {
    var l := w.desk.cell.level;
    if l.Held() < cfg.orderQuantity {
      LotSum(cfg.orderQuantity, l.Held(), cfg.step);
      LotGap(cfg.orderQuantity - l.Held(), cfg.step);
    }
    RoomBothWays(w, cfg, i, Sell);
  }

  lemma BuyTickConserved(w: World, cfg: Config, i: nat, mark: real, e: PlaceMoves, fee: Option<real>) returns (d: int)
    requires Conserved(w, cfg, i) && e.Honest()
    ensures Conserved(ArmBuy(w, cfg, i, mark, e, fee), cfg, i)
    ensures Advances(w, ArmBuy(w, cfg, i, mark, e, fee), i, Buy, d, fee)
  {
    var l := w.desk.cell.level;
    d := 0;
    if BuyArmed(l, cfg.orderQuantity, mark, w.frozen) {
      BuyRoom(w, cfg, i, mark);
      var quantity := BuyRemainder(l, cfg.orderQuantity);
      var room;
      d, room := EnsureMoves(w, cfg, i, Buy, l.price, quantity, false, e, fee);
      var p := EnsureSlotOrder(w.desk, cfg, i, Buy, l.price, quantity, false, e);
      var w' := BookOutcome(w.(desk := p.desk), cfg.orderQuantity, Buy, p.outcome, fee);
      EitherRoom(w, w', cfg, i, Buy, d, room, quantity, fee);
      if LocksExitOnly(p.outcome, quantity, cfg.orderQuantity) {
        NothingToBook(w.(desk := p.desk), cfg.orderQuantity, Buy, p.outcome, fee);
        LockConserved(w, w', cfg, i, d, room, fee);
      }
    }
  }

  lemma EitherRoom(w: World, w': World, cfg: Config, i: nat, side: Side, d: int, room: int, quantity: int,
                   fee: Option<real>)
    requires Conserved(w, cfg, i) && Moved(w, w', cfg, i, side, d, room, fee) && RoomFor(w, cfg, i, side, quantity)
    requires room <= Pending(w.desk.cell, w.desk.book, i, side) || room <= quantity
    requires side == Buy ==> !w.frozen
    ensures Conserved(w', cfg, i)
  {
    RoomBothWays(w, cfg, i, side);
    if room <= quantity {
      RoomShrinks(w, cfg, i, side, quantity, room);
    } else {
      RoomShrinks(w, cfg, i, side, Pending(w.desk.cell, w.desk.book, i, side), room);
    }
    MovedKept(w, w', cfg, i, side, d, room, fee);
  }

  /** A refused entry left nothing at the venue, so the level may be locked. */
  lemma LockConserved(w: World, w': World, cfg: Config, i: nat, d: int, room: int, fee: Option<real>)
    requires Conserved(w', cfg, i) && Moved(w, w', cfg, i, Buy, d, room, fee) && room <= 0
    ensures d == 0 && Conserved(w'.(desk := w'.desk.(cell := MarkExitOnly(w'.desk.cell))), cfg, i)
    ensures Advances(w, w'.(desk := w'.desk.(cell := MarkExitOnly(w'.desk.cell))), i, Buy, 0, fee)
  {
    var c := MarkExitOnly(w'.desk.cell);
    PendingSign(w'.desk.cell, w'.desk.book, i, Buy, cfg.step);
    ExitOnlyKept(w'.desk.cell, w'.rows, i);
    assert View(c, i, Buy) == View(w'.desk.cell, i, Buy) && View(c, i, Sell) == View(w'.desk.cell, i, Sell);
    SoundByView(w'.desk.cell, c, w'.desk.book, i, Buy, cfg.step);
    SoundByView(w'.desk.cell, c, w'.desk.book, i, Sell, cfg.step);
  }

  /** Placing an exit for what the level holds. */
  lemma ExitConserved(w: World, cfg: Config, i: nat, price: real, quantity: int, e: PlaceMoves, fee: Option<real>)
    returns (d: int)
    requires Conserved(w, cfg, i) && e.Honest() && w.desk.cell.level.sellOrderId.None?
    requires var l := w.desk.cell.level;
      && l.Held() > QTY_EPSILON && (l.FullyLong(cfg.orderQuantity) || l.IsExitOnly() || (w.frozen && l.buyOrderId.None?))
      && quantity == if l.FullyLong(cfg.orderQuantity) then cfg.orderQuantity else l.Held()
    ensures Conserved(PlaceAndBook(w, cfg, i, Sell, price, quantity, e, fee), cfg, i)
    ensures Advances(w, PlaceAndBook(w, cfg, i, Sell, price, quantity, e, fee), i, Sell, d, fee)
  {
    var room;
    SellRoom(w, cfg, i, quantity);
    d, room := EnsureMoves(w, cfg, i, Sell, price, quantity, true, e, fee);
    EitherRoom(w, PlaceAndBook(w, cfg, i, Sell, price, quantity, e, fee), cfg, i, Sell, d, room, quantity, fee);
  }
}
