/**
 * The conservation theorems, over every truthful run of a level: what is held is
 * what the ledger bought minus what it sold, inside one slot, with no clamp ever
 * reached; and the exact case in which a restart breaks that.
 */
module ConservationTheorems {
  import opened Options
  import opened OrderState
  import opened LevelMachine
  import opened Venue
  import opened SlotReconciliation
  import opened Ledger
  import opened LevelRuns
  import opened Tiling
  import opened TilingRuns
  import opened SingleOrder
  import opened SingleOrderRuns
  import opened Conservation
  import opened ConservationRuns
  import opened ConservationRestart

  /** A restart that meets no dead order with executions still to book; every other event is clean. */
  predicate Clean(w: World, cfg: Config, i: nat, e: Event) {
    e.Reboot? ==> CleanBoot(w.desk, cfg, i, e.buyMove, e.sellMove)
  }

  predicate CleanRun(w: World, cfg: Config, i: nat, events: seq<Event>) {
    events == [] ||
    (CleanRun(w, cfg, i, events[..|events| - 1])
     && Clean(Run(w, cfg, i, events[..|events| - 1]), cfg, i, events[|events| - 1]))
  }

  lemma RebootFacts(w: World, cfg: Config, i: nat, mb: Move, ms: Move, fb: Option<real>, fs: Option<real>)
    returns (side: Side, d: int)
    requires Conserved(w, cfg, i) && mb.Honest() && ms.Honest()
    ensures var after := Restart(w, cfg, i, mb, ms, fb, fs);
      var dead := DeadFill(w.desk, cfg, i, side, if side == Buy then mb else ms);
      && DeadFill(w.desk, cfg, i, Other(side), if side == Buy then ms else mb) == 0
      && (dead == 0 ==> Conserved(after, cfg, i) && Advances(w, after, i, side, d, if side == Buy then fb else fs)
                        && after == Polled(Reloaded(w, cfg, i), cfg, mb, ms, fb, fs))
      && (dead != 0 ==> dead > 0 && after.desk.cell.level.Held() - Net(after.rows) == Signed(side, dead))
  {
    var r := Reloaded(w, cfg, i);
    RestoredConserved(w, cfg, i);
    ReloadedOwes(w, cfg, i, mb, ms);
    side, d := StartupFacts(r, cfg, i, mb, ms, fb, fs);
    if DeadFill(w.desk, cfg, i, side, if side == Buy then mb else ms) == 0 {
      AdvancesReloaded(w, cfg, i, Restart(w, cfg, i, mb, ms, fb, fs), side, d, if side == Buy then fb else fs);
    }
  }

  lemma ReloadedOwes(w: World, cfg: Config, i: nat, mb: Move, ms: Move)
    requires Conserved(w, cfg, i)
    ensures DeadFill(Reloaded(w, cfg, i).desk, cfg, i, Buy, mb) == DeadFill(w.desk, cfg, i, Buy, mb)
    ensures DeadFill(Reloaded(w, cfg, i).desk, cfg, i, Sell, ms) == DeadFill(w.desk, cfg, i, Sell, ms)
  {
    RestoredView(w, cfg.orderQuantity, i, Buy);
    RestoredView(w, cfg.orderQuantity, i, Sell);
    DeadFillIsLocal(w.desk, Reloaded(w, cfg, i).desk, cfg, i, Buy, mb);
    DeadFillIsLocal(w.desk, Reloaded(w, cfg, i).desk, cfg, i, Sell, ms);
  }

  lemma AdvancesReloaded(w: World, cfg: Config, i: nat, w': World, side: Side, d: int, fee: Option<real>)
    requires Conserved(w, cfg, i) && Advances(Reloaded(w, cfg, i), w', i, side, d, fee)
    ensures Advances(w, w', i, side, d, fee)
  {
    RestoredConserved(w, cfg, i);
  }

  /**
   * A restart keeps the ledger and the level in step if and only if no restored handle
   * turns out to be a dead order with executions still to book: the startup pass moves
   * the level by those executions but collects only filled and still-live outcomes.
   */
  lemma RestartIsExact(w: World, cfg: Config, i: nat, mb: Move, ms: Move, fb: Option<real>, fs: Option<real>)
    requires Conserved(w, cfg, i) && mb.Honest() && ms.Honest()
    ensures var after := Restart(w, cfg, i, mb, ms, fb, fs);
      && (after.desk.cell.level.Held() == Net(after.rows) <==> CleanBoot(w.desk, cfg, i, mb, ms))
      && after.desk.cell.level.Held() - Net(after.rows)
         == DeadFill(w.desk, cfg, i, Buy, mb) - DeadFill(w.desk, cfg, i, Sell, ms)
  {
    var side, d := RebootFacts(w, cfg, i, mb, ms, fb, fs);
  }

  /** Every truthful event books at most one segment and keeps the level conserved. */
  lemma StepConserved(w: World, cfg: Config, i: nat, e: Event) returns (side: Side, d: int, fee: Option<real>)
    requires Conserved(w, cfg, i) && HonestEvent(e) && Clean(w, cfg, i, e)
    ensures Conserved(Step(w, cfg, i, e), cfg, i)
    ensures Advances(w, Step(w, cfg, i, e), i, side, d, fee)
    ensures (e.BuyTick? ==> side == Buy) && (e.SellTick? || e.StopExit? ==> side == Sell)
    ensures e.Poll? || e.Cancel? ==> side == e.side
  {
    side, d, fee := Buy, 0, None;
    match e
    case VenueMoves(s, gen, m) => VenueConserved(w, cfg, i, s, gen, m);
    case BuyTick(mark, place, f) =>
      fee := f;
      d := BuyTickConserved(w, cfg, i, mark, place, f);
    case SellTick(mark, target, place, f) =>
      side, fee := Sell, f;
      d := SellTickConserved(w, cfg, i, mark, target, place, f);
    case Poll(s, m, f) =>
      side, fee := s, f;
      if w.desk.cell.level.HandleOf(s).Some? {
        d := CheckAdvances(w, cfg, i, s, m, f);
      }
    case Cancel(s, confirmed, last, m, f) =>
      side, fee := s, f;
      d := CancelConserved(w, cfg, i, s, confirmed, last, m, f);
    case Freeze =>
    case StopExit(price, place, f) =>
      side, fee := Sell, f;
      d := StopExitConserved(w, cfg, i, price, place, f);
    case Reboot(mb, ms, fb, fs) =>
      side, d := RebootFacts(w, cfg, i, mb, ms, fb, fs);
      fee := if side == Buy then fb else fs;
  }

  lemma SellTickConserved(w: World, cfg: Config, i: nat, mark: real, target: Option<real>, place: PlaceMoves,
                          fee: Option<real>)
    returns (d: int)
    requires Conserved(w, cfg, i) && place.Honest()
    ensures Conserved(ArmSell(w, cfg, i, mark, target, place, fee), cfg, i)
    ensures Advances(w, ArmSell(w, cfg, i, mark, target, place, fee), i, Sell, d, fee)
  {
    d := 0;
    if SellArmed(w.desk.cell.level, cfg.orderQuantity, mark) && target.Some? {
      d := ExitConserved(w, cfg, i, target.value, ExitQuantity(w.desk.cell.level, cfg.orderQuantity), place, fee);
    }
  }

  lemma StopExitConserved(w: World, cfg: Config, i: nat, price: Option<real>, place: PlaceMoves, fee: Option<real>)
    returns (d: int)
    requires Conserved(w, cfg, i) && place.Honest()
    ensures Conserved(Step(w, cfg, i, StopExit(price, place, fee)), cfg, i)
    ensures Advances(w, Step(w, cfg, i, StopExit(price, place, fee)), i, Sell, d, fee)
  {
    var l := w.desk.cell.level;
    d := 0;
    if ExitPhase(w) && HeldQtyOf(l, cfg.orderQuantity) > QTY_EPSILON && l.sellOrderId.None? && price.Some? {
      if l.FullyLong(cfg.orderQuantity) {
        FullIsWhole(w, cfg, i);
      }
      d := ExitConserved(w, cfg, i, price.value, HeldQtyOf(l, cfg.orderQuantity), place, fee);
    }
  }

  lemma FullIsWhole(w: World, cfg: Config, i: nat)
    requires Conserved(w, cfg, i) && w.desk.cell.level.FullyLong(cfg.orderQuantity)
    ensures w.desk.cell.level.Held() == cfg.orderQuantity
  {
    if w.desk.cell.level.Held() < cfg.orderQuantity {
      LotSum(cfg.orderQuantity, w.desk.cell.level.Held(), cfg.step);
      LotGap(cfg.orderQuantity - w.desk.cell.level.Held(), cfg.step);
    }
  }

  lemma FreshConserved(price: real, cfg: Config, i: nat)
    requires GoodConfig(cfg)
    ensures Conserved(FreshWorld(price, cfg.orderQuantity, i), cfg, i)
  {
    assert Lots(0, cfg.step) == 0;
  }

  /** A run of truthful events whose restarts are clean. */
  ghost predicate Truthful(w: World, cfg: Config, i: nat, events: seq<Event>) {
    (forall e :: e in events ==> HonestEvent(e)) && CleanRun(w, cfg, i, events)
  }

  lemma {:induction false} RunConserved(w: World, cfg: Config, i: nat, events: seq<Event>)
    requires Conserved(w, cfg, i) && Truthful(w, cfg, i, events)
    ensures Conserved(Run(w, cfg, i, events), cfg, i)
  {
    if events != [] {
      RunConserved(w, cfg, i, events[..|events| - 1]);
      var side, d, fee := StepConserved(Run(w, cfg, i, events[..|events| - 1]), cfg, i, events[|events| - 1]);
    }
  }

  /**
   * Conservation over every truthful run from a fresh level: the level holds exactly what
   * the ledger bought minus what it sold, never less than nothing nor more than one slot;
   * it is `filled` exactly when it holds a full slot, and has an entry price exactly when
   * it holds anything.
   */
  lemma HeldIsNet(price: real, cfg: Config, i: nat, events: seq<Event>)
    requires GoodConfig(cfg) && Truthful(FreshWorld(price, cfg.orderQuantity, i), cfg, i, events)
    ensures var w := Run(FreshWorld(price, cfg.orderQuantity, i), cfg, i, events);
      var l := w.desk.cell.level;
      && l.Held() == Net(w.rows) && 0 <= l.Held() <= cfg.orderQuantity
      && (l.filled <==> l.Held() >= cfg.orderQuantity - QTY_EPSILON)
      && (l.entryPrice.Some? <==> l.Held() > 0)
  {
    FreshConserved(price, cfg, i);
    RunConserved(FreshWorld(price, cfg.orderQuantity, i), cfg, i, events);
  }

  /**
   * Whatever m has the venue execute next on a slot's order, projecting its cumulative would
   * move the held quantity by exactly what is unbooked, and keep it inside the slot.
   */
  ghost predicate Unclamped(w: World, cfg: Config, i: nat, side: Side, m: Move) {
    var c := w.desk.cell;
    var b := EvolveAt(w.desk.book, cfg.step, c.IdFor(i, side), m);
    c.Current(i, side) && c.IdFor(i, side) in b ==>
      var cum := b[c.IdFor(i, side)].cum;
      var d := cum - c.Rec(side).value.filledQty;
      && d >= 0
      && (d > 0 ==> ProjectFill(c.level, cfg.orderQuantity, side, d, cum).Held() == c.level.Held() + Signed(side, d))
      && (d > 0 ==> 0 <= c.level.Held() + Signed(side, d) <= cfg.orderQuantity)
  }

  lemma ConservedUnclamped(w: World, cfg: Config, i: nat, side: Side, m: Move)
    requires Conserved(w, cfg, i)
    ensures Unclamped(w, cfg, i, side, m)
  {
    var c := w.desk.cell;
    var b := EvolveAt(w.desk.book, cfg.step, c.IdFor(i, side), m);
    if c.Current(i, side) && c.IdFor(i, side) in b {
      ObservableAfter(w, c, w.desk.book, cfg, i, side, m);
      ClampsUnreachable(c, b, cfg, i, side);
      ShiftSound(c, b, cfg, i, side, w.rows);
    }
  }

  /** No clamp is ever reached, over every truthful run. */
  lemma ClampsNeverBite(price: real, cfg: Config, i: nat, events: seq<Event>, side: Side, m: Move)
    requires GoodConfig(cfg) && Truthful(FreshWorld(price, cfg.orderQuantity, i), cfg, i, events)
    ensures Unclamped(Run(FreshWorld(price, cfg.orderQuantity, i), cfg, i, events), cfg, i, side, m)
  {
    var built := FreshWorld(price, cfg.orderQuantity, i);
    FreshConserved(price, cfg, i);
    RunConserved(built, cfg, i, events);
    ConservedUnclamped(Run(built, cfg, i, events), cfg, i, side, m);
  }

  /** A read that reached the venue owes everything the order executed and the ledger lacks. */
  lemma ReachedOwes(w: World, cfg: Config, i: nat, side: Side, m: Move)
    requires Conserved(w, cfg, i) && w.desk.cell.level.HandleOf(side).Some? && m.Honest() && m.reachable
    ensures var c := w.desk.cell;
      var cid := c.IdFor(i, side);
      var b := EvolveAt(w.desk.book, cfg.step, cid, m);
      var d := Unbooked(c, b, i, side);
      var o := ObserveHandle(c, cfg.orderQuantity, c.Rec(side).value, c.level.HandleOf(side).value,
        HandleReply(b, c.level.HandleOf(side).value, m)).outcome;
      && cid in b && d >= 0 && (d > 0 ==> Owes(o, cid, b[cid].cum, d) && d > QTY_EPSILON) && (d == 0 ==> Settles(o))
  {
    var c := w.desk.cell;
    var b := EvolveAt(w.desk.book, cfg.step, c.IdFor(i, side), m);
    ObservableAfter(w, c, w.desk.book, cfg, i, side, m);
    ClampsUnreachable(c, b, cfg, i, side);
    var seen := HandleObserved(c, b, cfg, i, side, w.rows, m);
    assert seen != Unread;
  }

  /**
   * A truthful answer leaves nothing behind: after a poll that reached the venue, the ledger
   * holds exactly what the slot's order has executed there.
   */
  lemma PollCatchesUp(w: World, cfg: Config, i: nat, side: Side, m: Move, fee: Option<real>)
    requires Conserved(w, cfg, i) && w.desk.cell.level.HandleOf(side).Some? && m.Honest() && m.reachable
    ensures var w' := CheckSide(w, cfg, side, m, fee);
      var cid := w.desk.cell.IdFor(i, side);
      cid in w'.desk.book && Booked(w'.rows, cid) == w'.desk.book[cid].cum
  {
    var c := w.desk.cell;
    var cid := c.IdFor(i, side);
    var h := c.level.HandleOf(side).value;
    var b := EvolveAt(w.desk.book, cfg.step, cid, m);
    var obs := ObserveHandle(c, cfg.orderQuantity, c.Rec(side).value, h, HandleReply(b, h, m));
    ReachedOwes(w, cfg, i, side, m);
    CheckSideIs(w, cfg, i, side, m, fee);
    OwedBooked(w, obs, b, cfg.orderQuantity, side, cid, b[cid].cum, Unbooked(c, b, i, side), fee);
  }

  /** Booking an outcome that owes d under an id books d under that id. */
  lemma OwedBooked(w: World, obs: Observation, b: Book, q: int, side: Side, cid: Cid, cum: int, d: int,
                   fee: Option<real>)
    requires d > 0 ==> Owes(obs.outcome, cid, cum, d) && d > QTY_EPSILON
    requires d == 0 ==> Settles(obs.outcome)
    requires d >= 0
    ensures Booked(BookOutcome(w.(desk := Desk(obs.cell, b)), q, side, obs.outcome, fee).rows, cid) == Booked(w.rows, cid) + d
  {
    if d > 0 {
      Append(w.rows, BookSegment(obs.cell, q, side, SegmentOf(obs.outcome).value, fee).row.value);
    }
  }

  // ----- the restart that is not exact -----

  /** One poll-free run: an entry is placed, one step of it executes and it dies, then the engine restarts. */
  function DyingRun(mark: real): seq<Event> {
    var quiet := Move(0, Live, true, false, None, None, None);
    [BuyTick(mark, PlaceMoves(Passed, quiet, true, CreateMove(true, true, OtherReason), quiet), None),
     VenueMoves(Buy, 0, Move(1, Dead, true, false, None, None, None)),
     Reboot(quiet, quiet, None, None)]
  }

  /** The level once the entry rests. */
  function Resting(mark: real): Cell {
    var cid := Cid(0, Buy, 0);
    Cell(FreshLevel(mark).(buyOrderId := Some(Handle(cid, 0)), buyFilledQty := Some(0)),
         Some(OrderRecord(cid, mark, 6, 0, Some(Handle(cid, 0)), Open)), None)
  }

  lemma EntryPlaced(mark: real)
    ensures Step(FreshWorld(mark, 6, 0), Config(6, 3), 0, DyingRun(mark)[0])
         == World(Desk(Resting(mark), map[Cid(0, Buy, 0) := VenueOrder(0, 6, mark, 0, Live, false)]), [], false)
  {}

  lemma EntryDies(mark: real)
    ensures var book := map[Cid(0, Buy, 0) := VenueOrder(0, 6, mark, 0, Live, false)];
      EvolveAt(book, 3, Cid(0, Buy, 0), Move(1, Dead, true, false, None, None, None))
        == map[Cid(0, Buy, 0) := VenueOrder(0, 6, mark, 3, Dead, false)]
  {}

  /** The level then holds three units that no ledger row accounts for. */
  lemma DeadFillIsLost(mark: real)
    ensures var w := Run(FreshWorld(mark, 6, 0), Config(6, 3), 0, DyingRun(mark));
      w.desk.cell.level.Held() == 3 && w.rows == []
  {
    var cfg := Config(6, 3);
    var events := DyingRun(mark);
    var built := FreshWorld(mark, 6, 0);
    var w1 := Step(built, cfg, 0, events[0]);
    var w2 := Step(w1, cfg, 0, events[1]);
    EntryPlaced(mark);
    EntryDies(mark);
    assert w2 == World(Desk(Resting(mark), map[Cid(0, Buy, 0) := VenueOrder(0, 6, mark, 3, Dead, false)]), [], false);
    ThreeSteps(built, cfg, events);
    LostAtReboot(mark);
  }

  lemma ThreeSteps(w: World, cfg: Config, events: seq<Event>)
    requires |events| == 3
    ensures Run(w, cfg, 0, events) == Step(Step(Step(w, cfg, 0, events[0]), cfg, 0, events[1]), cfg, 0, events[2])
  {
    assert events[..2][..1] == events[..1] && events[..1][..0] == [];
    assert Run(w, cfg, 0, events[..1]) == Step(w, cfg, 0, events[0]);
  }

  lemma LostAtReboot(mark: real)
    ensures var quiet := Move(0, Live, true, false, None, None, None);
      var w2 := World(Desk(Resting(mark), map[Cid(0, Buy, 0) := VenueOrder(0, 6, mark, 3, Dead, false)]), [], false);
      var w := Restart(w2, Config(6, 3), 0, quiet, quiet, None, None);
      w.desk.cell.level.Held() == 3 && w.rows == []
  {}
}
