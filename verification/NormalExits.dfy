/**
 * Normal exits never lose: while the stop-loss has not tripped and fills respect
 * their limits, every level's entry stays at or below its line, every exit is priced
 * above the entry it closes, and every booked SELL segment gains before fees.
 */
module NormalExits {
  import opened Options
  import opened OrderState
  import opened LevelMachine
  import opened Venue
  import opened SlotReconciliation
  import opened Ledger
  import opened LevelRuns
  import opened Ticks
  import opened ExitPricing
  import opened Tiling
  import opened SingleOrder
  import opened SingleOrderRuns
  import opened Conservation
  import opened ConservationRuns
  import opened ConservationRestart
  import opened ConservationTheorems
  import opened BookedPrices

  // ----- exit prices -----

  /** The line above is really above, or the top level has room for one more spacing. */
  ghost predicate GoodGeometry(price: real, g: Geometry) {
    && g.tick > 0.0
    && (g.above.Some? ==> g.above.value > price && IsMultiple(g.above.value, g.tick))
    && (g.above.None? ==> g.spacing > 0.0)
  }

  /** The next line is defined, above the level, and on the tick. */
  lemma StepIsAbove(price: real, g: Geometry)
    requires GoodGeometry(price, g)
    ensures var step := PriceAboveLevel(price, g);
      step.Some? && step.value > price && IsMultiple(step.value, g.tick)
  {
    if g.above.None? {
      UpIsLeast(price + g.spacing, g.tick);
    }
  }

  lemma TakeProfitOnTick(entry: real, percent: real, tick: real)
    requires tick > 0.0
    ensures IsMultiple(TakeProfitPrice(entry, percent, tick), tick)
  {
    UpIsLeast(entry * (1.0 + percent / 100.0), tick);
  }

  /**
   * A level whose entry is at or below its line always has an exit price, strictly above the entry and
   * on the tick.
   */
  lemma ExitExists(l: GridLevel, g: Geometry)
    requires GoodGeometry(l.price, g) && l.entryPrice.GetOr(l.price) <= l.price
    ensures var target := SellTargetPrice(l, g);
      target.Some? && target.value > l.entryPrice.GetOr(l.price) && IsMultiple(target.value, g.tick)
  {
    StepIsAbove(l.price, g);
    if g.takeProfit.Some? && g.takeProfit.value > 0.0 {
      TakeProfitOnTick(l.entryPrice.GetOr(l.price), g.takeProfit.value, g.tick);
    }
  }

  /** Whatever the geometry, an exit price that is given is above the entry. */
  lemma ExitIsAboveEntry(l: GridLevel, g: Geometry)
    requires g.tick > 0.0
    ensures SellTargetPrice(l, g).Some? ==> SellTargetPrice(l, g).value > l.entryPrice.GetOr(l.price)
  {}

  /** The least tick multiple at or above x. */
  ghost predicate LeastFrom(t: real, x: real, tick: real) { IsMultiple(t, tick) && x <= t < x + tick }

  lemma GainMeans(entry: real, percent: real, t: real)
    ensures t >= entry * (1.0 + percent / 100.0) <==> (t - entry) * 100.0 >= percent * entry
  {
    var u := percent / 100.0;
    GainParts(entry, u);
    assert u * 100.0 == percent;
    var target := entry * (1.0 + u);
    assert t >= target <==> t * 100.0 >= target * 100.0;
  }

  lemma GainParts(entry: real, u: real)
    ensures (entry * (1.0 + u)) * 100.0 == entry * 100.0 + (u * 100.0) * entry
  {
    assert entry * (1.0 + u) == entry + u * entry;
  }

  /** The take-profit price is the first tick at which at least that percent of the entry is gained. */
  lemma TakeProfitMeans(entry: real, percent: real, tick: real)
    requires tick > 0.0 && percent > 0.0 && entry > 0.0
    ensures var t := TakeProfitPrice(entry, percent, tick);
      IsMultiple(t, tick) && (t - entry) * 100.0 >= percent * entry && (t - tick - entry) * 100.0 < percent * entry
  {
    UpIsLeast(entry * (1.0 + percent / 100.0), tick);
    GainMeans(entry, percent, TakeProfitPrice(entry, percent, tick));
    GainMeans(entry, percent, TakeProfitPrice(entry, percent, tick) - tick);
  }

  /** With a take profit the exit is the first tick at which at least that percent of the entry is gained. */
  lemma TakeProfitIsReached(l: GridLevel, g: Geometry)
    requires g.tick > 0.0 && g.takeProfit.Some? && g.takeProfit.value > 0.0 && l.entryPrice.GetOr(l.price) > 0.0
    ensures var entry, percent := l.entryPrice.GetOr(l.price), g.takeProfit.value;
      SellTargetPrice(l, g).Some? && var t := SellTargetPrice(l, g).value;
        IsMultiple(t, g.tick) && (t - entry) * 100.0 >= percent * entry && (t - g.tick - entry) * 100.0 < percent * entry
  {
    var entry, percent := l.entryPrice.GetOr(l.price), g.takeProfit.value;
    TakeProfitMeans(entry, percent, g.tick);
    hide TakeProfitPrice;
    MulLt(0.0, percent, entry);
    assert SellTargetPrice(l, g) == Some(TakeProfitPrice(entry, percent, g.tick));
  }

  /**
   * Without one it is the next line, or above the top line the first tick a spacing further up; there is
   * none exactly when that is not above the entry.
   */
  lemma StepExitExactly(l: GridLevel, g: Geometry, t: real)
    requires g.tick > 0.0 && (g.takeProfit.None? || g.takeProfit.value <= 0.0)
    ensures var entry := l.entryPrice.GetOr(l.price);
      && (g.above.Some? ==> SellTargetPrice(l, g) == if g.above.value > entry then g.above else None)
      && (g.above.None? && g.spacing > 0.0 && LeastFrom(t, l.price + g.spacing, g.tick) ==>
            SellTargetPrice(l, g) == if t > entry then Some(t) else None)
      && (g.above.None? && g.spacing <= 0.0 ==> SellTargetPrice(l, g).None?)
  {
    if g.above.None? && g.spacing > 0.0 && LeastFrom(t, l.price + g.spacing, g.tick) {
      LeastIsUnique(t, l.price + g.spacing, g.tick);
    }
  }

  lemma LeastIsUnique(t: real, x: real, tick: real)
    requires tick > 0.0 && LeastFrom(t, x, tick)
    ensures t == QuantUp(x, tick)
  {
    UpIsLeast(x, tick);
    var j: int :| Times(j, tick) == t;
    var k: int :| Times(k, tick) == QuantUp(x, tick);
    if j < k {
      Apart(j, k, tick);
    } else if k < j {
      Apart(k, j, tick);
    }
  }

  lemma Apart(j: int, k: int, tick: real)
    requires tick > 0.0 && j < k
    ensures Times(k, tick) >= Times(j, tick) + tick
  {
    MulLe((j + 1) as real, k as real, tick);
    assert (j + 1) as real * tick == j as real * tick + tick;
  }

  // ----- what the venue keeps of its orders -----

  /**
   * The orders of the level after an operation: each is an earlier submission moved on,
   * or one submitted by the operation under the slot's id at `placed`.
   */
  ghost predicate Carried(b: Book, b': Book, cid: Cid, placed: Option<real>) {
    forall id :: id in b' ==>
      || (id in b && b'[id].limit == b[id].limit && b'[id].quantity == b[id].quantity
          && (b[id].status != Live ==> b'[id] == b[id]))
      || (id == cid && Some(b'[id].limit) == placed)
  }

  lemma CarriedTrans(a: Book, b: Book, c: Book, cid: Cid, placed: Option<real>)
    requires Carried(a, b, cid, placed) && Carried(b, c, cid, None)
    ensures Carried(a, c, cid, placed)
  {}

  lemma CarriedFirst(a: Book, b: Book, c: Book, cid: Cid, placed: Option<real>)
    requires Carried(a, b, cid, None) && Carried(b, c, cid, placed)
    ensures Carried(a, c, cid, placed)
  {}

  lemma EvolveCarries(b: Book, step: nat, id: Cid, m: Move, cid: Cid)
    ensures Carried(b, EvolveAt(b, step, id, m), cid, None)
  {}

  lemma CancelCarries(b: Book, step: nat, h: Handle, m: Move, cid: Cid)
    ensures Carried(b, CancelAt(b, step, h, m), cid, None)
  {}

  lemma CheckCarries(w: World, cfg: Config, side: Side, m: Move, fee: Option<real>, cid: Cid)
    ensures Carried(w.desk.book, CheckSlot(w.desk, cfg, side, m).desk.book, cid, None)
    ensures CheckSide(w, cfg, side, m, fee).desk.book
         == if w.desk.cell.level.HandleOf(side).None? then w.desk.book else CheckSlot(w.desk, cfg, side, m).desk.book
  {}

  lemma EnsureCarries(d: Desk, cfg: Config, i: nat, side: Side, price: real, quantity: int, ro: bool, e: PlaceMoves)
    ensures Carried(d.book, EnsureSlotOrder(d, cfg, i, side, price, quantity, ro, e).desk.book, d.cell.IdFor(i, side), Some(price))
  {
    if e.boundary == Passed {
      var cid := d.cell.IdFor(i, side);
      var pre := LookBeforeCreate(d, cfg, cid, price, quantity, e.pre);
      EvolveCarries(d.book, cfg.step, cid, e.pre, cid);
      var created := CreateBook(pre.desk.book, cid, price, quantity, ro, e.create);
      assert Carried(pre.desk.book, created, cid, Some(price));
      EvolveCarries(created, cfg.step, cid, e.post, cid);
      CarriedTrans(pre.desk.book, created, EvolveAt(created, cfg.step, cid, e.post), cid, Some(price));
      CarriedFirst(d.book, pre.desk.book, EvolveAt(created, cfg.step, cid, e.post), cid, Some(price));
      CarriedFirst(d.book, pre.desk.book, created, cid, Some(price));
    }
  }

  // ----- the invariant -----

  /** A sell whose money is known gained before fees. */
  ghost predicate Gains(r: Row) {
    r.cid.side == Sell && r.pnl.Some? ==> r.fee.Some? && r.pnl.value + r.fee.value > 0.0
  }

  ghost predicate Profitable(w: World, cfg: Config, i: nat) {
    var l := w.desk.cell.level;
    var exit := w.desk.cell.IdFor(i, Sell);
    && Conserved(w, cfg, i) && !w.frozen
    && l.entryPrice.GetOr(l.price) <= l.price
    && (forall g: nat {:trigger Cid(i, Buy, g)} :: Cid(i, Buy, g) in w.desk.book ==> w.desk.book[Cid(i, Buy, g)].limit <= l.price)
    && (Pending(w.desk.cell, w.desk.book, i, Sell) > 0 ==> l.entryPrice.Some? && w.desk.book[exit].limit > l.entryPrice.value)
    && (forall k :: 0 <= k < |w.rows| ==> Gains(w.rows[k]))
  }

  predicate Within(side: Side, price: real, limit: real) { if side == Buy then price <= limit else price >= limit }

  /** Every new row executed within the limit of its order. */
  ghost predicate WithinLimits(w: World, w': World) {
    forall k :: |w.rows| <= k < |w'.rows| && w'.rows[k].cid in w'.desk.book ==>
      Within(w'.rows[k].cid.side, w'.rows[k].price, w'.desk.book[w'.rows[k].cid].limit)
  }

  /**
   * What the venue reports of the fills an event books is within the limits of their orders; where it
   * reports no price, the one on record is.
   */
  ghost predicate ReportsWithinLimits(w: World, cfg: Config, i: nat, e: Event) {
    var w' := Step(w, cfg, i, e);
    forall k :: |w.rows| <= k < |w'.rows| && w'.rows[k].cid in w'.desk.book ==>
      var side := w'.rows[k].cid.side;
      Within(side, ReportOf(w, cfg, i, e, side).GetOr(AskedPrice(w, e, side)), w'.desk.book[w'.rows[k].cid].limit)
  }

  lemma ReportsAreBooked(w: World, cfg: Config, i: nat, e: Event)
    requires Coherent(w, i) && ReportsWithinLimits(w, cfg, i, e)
    ensures WithinLimits(w, Step(w, cfg, i, e))
  {
    StepPriced(w, cfg, i, e);
    hide Step, ReportOf, AskedPrice, Coherent;
  }

  /** What the operation submits is priced right, and an entry only beside no exit. */
  ghost predicate WellPlaced(w: World, i: nat, side: Side, placed: Option<real>) {
    var l := w.desk.cell.level;
    placed.Some? ==>
      if side == Buy then placed.value <= l.price && Pending(w.desk.cell, w.desk.book, i, Sell) <= 0
      else l.entryPrice.Some? && placed.value > l.entryPrice.value
  }

  /** An order with something still to book was there before with something to book, or was just placed. */
  lemma FromBefore(w: World, w': World, cfg: Config, i: nat, side: Side, placed: Option<real>, s: Side)
    requires Conserved(w, cfg, i) && Conserved(w', cfg, i)
    requires Carried(w.desk.book, w'.desk.book, w.desk.cell.IdFor(i, side), placed)
    requires var cid := w.desk.cell.IdFor(i, s);
      cid in w'.desk.book
      && View(w.desk.cell, i, s).booked < (if w'.desk.book[cid].status == Live then w'.desk.book[cid].quantity else w'.desk.book[cid].cum)
    requires w.desk.cell.level.Gen(s) <= w'.desk.cell.level.Gen(s)
    ensures var cid := w.desk.cell.IdFor(i, s);
      || (s == side && Some(w'.desk.book[cid].limit) == placed)
      || (Pending(w.desk.cell, w.desk.book, i, s) > 0 && w'.desk.book[cid].limit == w.desk.book[cid].limit)
  {
    var cid := w.desk.cell.IdFor(i, s);
    assert SoundOrder(w'.desk.book[cid]);
  }

  /** What is pending on a side after an operation is pending under the id it was pending under before. */
  lemma PendingBefore(w: World, w': World, cfg: Config, i: nat, side: Side, d: int, fee: Option<real>,
                      placed: Option<real>, s: Side)
    requires Conserved(w, cfg, i) && Conserved(w', cfg, i) && Advances(w, w', i, side, d, fee)
    requires Carried(w.desk.book, w'.desk.book, w.desk.cell.IdFor(i, side), placed)
    requires Pending(w'.desk.cell, w'.desk.book, i, s) > 0
    ensures w'.desk.cell.IdFor(i, s) == w.desk.cell.IdFor(i, s)
    ensures var cid := w.desk.cell.IdFor(i, s);
      || (s == side && Some(w'.desk.book[cid].limit) == placed)
      || (Pending(w.desk.cell, w.desk.book, i, s) > 0 && w'.desk.book[cid].limit == w.desk.book[cid].limit)
  {
    var cid' := w'.desk.cell.IdFor(i, s);
    assert cid' in w'.desk.book;
    assert cid'.gen == w.desk.cell.level.Gen(s) by {
      assert cid' in w.desk.book || cid' == w.desk.cell.IdFor(i, side);
    }
    BookedGrows(w, w', i, side, d, fee, cid');
    assert View(w'.desk.cell, i, s).booked == Booked(w'.rows, cid');
    assert View(w.desk.cell, i, s).booked == Booked(w.rows, cid');
    FromBefore(w, w', cfg, i, side, placed, s);
  }

  lemma BookedGrows(w: World, w': World, i: nat, side: Side, d: int, fee: Option<real>, cid: Cid)
    requires Advances(w, w', i, side, d, fee)
    ensures Booked(w.rows, cid) <= Booked(w'.rows, cid)
  {
    if d > 0 {
      Append(w.rows, w'.rows[|w.rows|]);
    }
  }

  // ----- entries stay at or below the line -----

  lemma WeightedParts(p: real, m: real, r: real, n: real, top: real)
    requires m >= 0.0 && n > 0.0 && p <= top && r <= top
    ensures p * m + r * n <= top * (m + n)
  {
    MulLe(p, top, m);
    MulLe(r, top, n);
    assert top * (m + n) == top * m + top * n;
  }

  lemma DivideBack(x: real, t: real, top: real)
    requires t > 0.0 && x <= top * t
    ensures x / t <= top
  {
    Ticks.Scaled(x, t);
    if x / t > top {
      MulLt(top, x / t, t);
    }
  }

  /** Averaging prices at or below an 8-decimal line stays at or below it. */
  lemma AverageBelow(prior: Option<real>, held: int, price: real, d: int, top: real)
    requires held >= 0 && d > QTY_EPSILON && price <= top && prior.GetOr(top) <= top && Round8(top) == top
    ensures AveragedEntry(prior, held, price, d) <= top
  {
    if prior.Some? && held > QTY_EPSILON {
      var p, m, n := prior.value, held as real, d as real;
      WeightedParts(p, m, price, n, top);
      DivideBack(p * m + price * n, m + n, top);
      Round8Monotone(WeightedMean(p, m, price, n), top);
    }
  }

  // ----- one operation -----

  lemma EntryStaysBelow(w: World, w': World, cfg: Config, i: nat, side: Side, d: int, fee: Option<real>,
                        placed: Option<real>)
    requires Profitable(w, cfg, i) && Conserved(w', cfg, i) && Advances(w, w', i, side, d, fee) && WithinLimits(w, w')
    requires Carried(w.desk.book, w'.desk.book, w.desk.cell.IdFor(i, side), placed) && WellPlaced(w, i, side, placed)
    requires Round8(w.desk.cell.level.price) == w.desk.cell.level.price
    ensures w'.desk.cell.level.entryPrice.GetOr(w.desk.cell.level.price) <= w.desk.cell.level.price
    ensures forall g: nat {:trigger Cid(i, Buy, g)} ::
      Cid(i, Buy, g) in w'.desk.book ==> w'.desk.book[Cid(i, Buy, g)].limit <= w.desk.cell.level.price
  {
    var l := w.desk.cell.level;
    if d > 0 && side == Buy {
      var r := w'.rows[|w.rows|];
      assert r.cid == Cid(i, Buy, l.Gen(Buy)) && r.price <= l.price;
      AverageBelow(l.entryPrice, l.Held(), r.price, d, l.price);
    }
  }

  /** A booked buy means nothing was pending on the exit. */
  lemma BuyMeansNoExit(w: World, w': World, cfg: Config, i: nat, d: int, fee: Option<real>, placed: Option<real>)
    requires Profitable(w, cfg, i) && Conserved(w', cfg, i) && Advances(w, w', i, Buy, d, fee) && d > 0
    requires Carried(w.desk.book, w'.desk.book, w.desk.cell.IdFor(i, Buy), placed) && WellPlaced(w, i, Buy, placed)
    ensures Pending(w.desk.cell, w.desk.book, i, Sell) <= 0
  {
    var cid := w.desk.cell.IdFor(i, Buy);
    assert w'.rows[|w.rows|].cid == cid && SoundOrder(w'.desk.book[cid]);
    FromBefore(w, w', cfg, i, Buy, placed, Buy);
  }

  lemma ExitStaysAbove(w: World, w': World, cfg: Config, i: nat, side: Side, d: int, fee: Option<real>,
                       placed: Option<real>)
    requires Profitable(w, cfg, i) && Conserved(w', cfg, i) && Advances(w, w', i, side, d, fee)
    requires Carried(w.desk.book, w'.desk.book, w.desk.cell.IdFor(i, side), placed) && WellPlaced(w, i, side, placed)
    requires Pending(w'.desk.cell, w'.desk.book, i, Sell) > 0
    ensures w'.desk.cell.level.entryPrice.Some?
    ensures w'.desk.book[w'.desk.cell.IdFor(i, Sell)].limit > w'.desk.cell.level.entryPrice.value
  {
    PendingBefore(w, w', cfg, i, side, d, fee, placed, Sell);
    if d > 0 && side == Buy {
      BuyMeansNoExit(w, w', cfg, i, d, fee, placed);
    }
  }

  lemma PositiveSpread(p: real, e: real, d: int, fee: real)
    requires p > e && d > 0
    ensures PnlOf(Sell, e, p, d, fee) + fee > 0.0
  {
    MulLt(0.0, p - e, d as real);
  }

  /** A booked exit executed above the entry it closes. */
  lemma ExitAboveEntry(w: World, w': World, cfg: Config, i: nat, d: int, fee: Option<real>, placed: Option<real>)
    requires Profitable(w, cfg, i) && Conserved(w', cfg, i) && Advances(w, w', i, Sell, d, fee) && d > 0
    requires WithinLimits(w, w')
    requires Carried(w.desk.book, w'.desk.book, w.desk.cell.IdFor(i, Sell), placed) && WellPlaced(w, i, Sell, placed)
    ensures w.desk.cell.level.entryPrice.Some? && w'.rows[|w.rows|].price > w.desk.cell.level.entryPrice.value
  {
    var cid := w.desk.cell.IdFor(i, Sell);
    assert w'.rows[|w.rows|].cid == cid && SoundOrder(w'.desk.book[cid]);
    FromBefore(w, w', cfg, i, Sell, placed, Sell);
  }

  lemma ExitGains(w: World, w': World, i: nat, d: int, fee: Option<real>)
    requires Advances(w, w', i, Sell, d, fee) && d > 0
    requires w.desk.cell.level.entryPrice.Some? && w'.rows[|w.rows|].price > w.desk.cell.level.entryPrice.value
    ensures Gains(w'.rows[|w.rows|])
  {
    var r := w'.rows[|w.rows|];
    if fee.Some? {
      PositiveSpread(r.price, w.desk.cell.level.entryPrice.value, d, fee.value);
    }
  }

  lemma StaysProfitable(w: World, w': World, cfg: Config, i: nat, side: Side, d: int, fee: Option<real>,
                        placed: Option<real>)
    requires Profitable(w, cfg, i) && Conserved(w', cfg, i) && !w'.frozen && Advances(w, w', i, side, d, fee)
    requires WithinLimits(w, w')
    requires Carried(w.desk.book, w'.desk.book, w.desk.cell.IdFor(i, side), placed) && WellPlaced(w, i, side, placed)
    requires Round8(w.desk.cell.level.price) == w.desk.cell.level.price
    ensures Profitable(w', cfg, i)
  {
    EntryStaysBelow(w, w', cfg, i, side, d, fee, placed);
    if Pending(w'.desk.cell, w'.desk.book, i, Sell) > 0 {
      ExitStaysAbove(w, w', cfg, i, side, d, fee, placed);
    }
    if d > 0 && side == Sell {
      ExitAboveEntry(w, w', cfg, i, d, fee, placed);
      ExitGains(w, w', i, d, fee);
    }
  }

  // ----- whole runs -----

  /** The price at which an event may submit an order. */
  function PlacedBy(w: World, cfg: Config, e: Event): Option<real> {
    var l := w.desk.cell.level;
    match e
    case BuyTick(mark, _, _) => if BuyArmed(l, cfg.orderQuantity, mark, w.frozen) then Some(l.price) else None
    case SellTick(mark, target, _, _) => if SellArmed(l, cfg.orderQuantity, mark) then target else None
    case _ => None
  }

  /** A truthful event of an untripped grid, whose exits are priced by the grid's own rule. */
  ghost predicate Normal(w: World, cfg: Config, i: nat, g: Geometry, e: Event)
    requires g.tick > 0.0
  {
    && HonestEvent(e) && Clean(w, cfg, i, e) && !e.Freeze? && !e.StopExit?
    && (e.SellTick? ==> e.target == SellTargetPrice(w.desk.cell.level, g))
  }

  /** Normal events, every fill reported inside the limit of its order. */
  ghost predicate NormalRun(w: World, cfg: Config, i: nat, g: Geometry, events: seq<Event>)
    requires g.tick > 0.0
  {
    events == [] ||
    (var before := Run(w, cfg, i, events[..|events| - 1]);
     && NormalRun(w, cfg, i, g, events[..|events| - 1])
     && Normal(before, cfg, i, g, events[|events| - 1])
     && ReportsWithinLimits(before, cfg, i, events[|events| - 1]))
  }

  lemma RestartCarries(w: World, cfg: Config, i: nat, mb: Move, ms: Move, fb: Option<real>, fs: Option<real>, cid: Cid)
    ensures Carried(w.desk.book, Polled(Reloaded(w, cfg, i), cfg, mb, ms, fb, fs).desk.book, cid, None)
  {
    var r := Reloaded(w, cfg, i);
    var wb := CheckSide(r, cfg, Buy, mb, fb);
    CheckCarries(r, cfg, Buy, mb, fb, cid);
    CheckCarries(wb, cfg, Sell, ms, fs, cid);
    CarriedTrans(w.desk.book, wb.desk.book, CheckSide(wb, cfg, Sell, ms, fs).desk.book, cid, None);
  }

  lemma CancelledCarries(w: World, cfg: Config, side: Side, confirmed: bool, last: Move, m: Move, fee: Option<real>,
                         cid: Cid)
    ensures Carried(w.desk.book, CancelSide(w, cfg, side, confirmed, last, m, fee).desk.book, cid, None)
  {
    var h := w.desk.cell.level.HandleOf(side);
    if h.Some? && confirmed {
      var canceled := w.(desk := w.desk.(book := CancelAt(w.desk.book, cfg.step, h.value, last)));
      CancelCarries(w.desk.book, cfg.step, h.value, last, cid);
      CheckCarries(canceled, cfg, side, m, fee, cid);
      CarriedTrans(w.desk.book, canceled.desk.book, CheckSlot(canceled.desk, cfg, side, m).desk.book, cid, None);
    }
  }

  lemma StepCarries(w: World, cfg: Config, i: nat, g: Geometry, e: Event, side: Side)
    requires Conserved(w, cfg, i) && g.tick > 0.0 && Normal(w, cfg, i, g, e)
    requires (e.BuyTick? ==> side == Buy) && (e.SellTick? ==> side == Sell)
    ensures Carried(w.desk.book, Step(w, cfg, i, e).desk.book, w.desk.cell.IdFor(i, side), PlacedBy(w, cfg, e))
  {
    var cid := w.desk.cell.IdFor(i, side);
    var l := w.desk.cell.level;
    match e
    case VenueMoves(s, gen, m) => EvolveCarries(w.desk.book, cfg.step, Cid(i, s, gen), m, cid);
    case BuyTick(mark, place, _) =>
      EnsureCarries(w.desk, cfg, i, Buy, l.price, BuyRemainder(l, cfg.orderQuantity), false, place);
    case SellTick(mark, target, place, _) =>
      EnsureCarries(w.desk, cfg, i, Sell, target.GetOr(0.0), ExitQuantity(l, cfg.orderQuantity), true, place);
    case Poll(s, m, fee) => CheckCarries(w, cfg, s, m, fee, cid);
    case Cancel(s, confirmed, last, m, fee) => CancelledCarries(w, cfg, s, confirmed, last, m, fee, cid);
    case Reboot(mb, ms, fb, fs) =>
      var s, d := RebootFacts(w, cfg, i, mb, ms, fb, fs);
      RestartCarries(w, cfg, i, mb, ms, fb, fs, cid);
  }

  lemma StepWellPlaced(w: World, cfg: Config, i: nat, g: Geometry, e: Event, side: Side)
    requires Profitable(w, cfg, i) && g.tick > 0.0 && Normal(w, cfg, i, g, e)
    requires (e.BuyTick? ==> side == Buy) && (e.SellTick? ==> side == Sell)
    ensures WellPlaced(w, i, side, PlacedBy(w, cfg, e))
  {
    if e.BuyTick? && BuyArmed(w.desk.cell.level, cfg.orderQuantity, e.mark, w.frozen) {
      BuyRoom(w, cfg, i, e.mark);
    } else if e.SellTick? && SellArmed(w.desk.cell.level, cfg.orderQuantity, e.mark) {
      ExitIsAboveEntry(w.desk.cell.level, g);
    }
  }

  lemma StepThaws(w: World, cfg: Config, i: nat, e: Event)
    requires !e.Freeze?
    ensures Step(w, cfg, i, e).frozen == w.frozen
  {}

  lemma {:induction false} RunProfitable(w: World, cfg: Config, i: nat, g: Geometry, events: seq<Event>)
    requires Profitable(w, cfg, i) && g.tick > 0.0 && NormalRun(w, cfg, i, g, events)
    requires Round8(w.desk.cell.level.price) == w.desk.cell.level.price
    ensures Profitable(Run(w, cfg, i, events), cfg, i)
    ensures Run(w, cfg, i, events).desk.cell.level.price == w.desk.cell.level.price
  {
    if events != [] {
      RunProfitable(w, cfg, i, g, events[..|events| - 1]);
      var before := Run(w, cfg, i, events[..|events| - 1]);
      var e := events[|events| - 1];
      var side, d, fee := StepConserved(before, cfg, i, e);
      StepCarries(before, cfg, i, g, e, side);
      StepWellPlaced(before, cfg, i, g, e, side);
      StepThaws(before, cfg, i, e);
      ReportsAreBooked(before, cfg, i, e);
      StaysProfitable(before, Step(before, cfg, i, e), cfg, i, side, d, fee, PlacedBy(before, cfg, e));
    }
  }

  /**
   * Normal exits never lose. Over every run of an untripped level whose fills respect their
   * limits: a level that holds anything has a defined, on-tick exit price strictly above its
   * entry, and every booked SELL whose fee is known gained before fees.
   */
  lemma NormalExitsNeverLose(price: real, cfg: Config, i: nat, g: Geometry, events: seq<Event>)
    requires GoodConfig(cfg) && GoodGeometry(price, g) && Round8(price) == price
    requires NormalRun(FreshWorld(price, cfg.orderQuantity, i), cfg, i, g, events)
    ensures var w := Run(FreshWorld(price, cfg.orderQuantity, i), cfg, i, events);
      var l := w.desk.cell.level;
      && (l.Held() > 0 ==>
            && l.entryPrice.Some? && SellTargetPrice(l, g).Some?
            && SellTargetPrice(l, g).value > l.entryPrice.value && IsMultiple(SellTargetPrice(l, g).value, g.tick))
      && (forall k :: 0 <= k < |w.rows| && w.rows[k].cid.side == Sell && w.rows[k].pnl.Some? ==>
            w.rows[k].fee.Some? && w.rows[k].pnl.value + w.rows[k].fee.value > 0.0)
  {
    var built := FreshWorld(price, cfg.orderQuantity, i);
    FreshConserved(price, cfg, i);
    RunProfitable(built, cfg, i, g, events);
    var w := Run(built, cfg, i, events);
    forall k | 0 <= k < |w.rows| ensures Gains(w.rows[k]) {}
    ExitExists(w.desk.cell.level, g);
  }
}
