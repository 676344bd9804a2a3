/**
 * The grid as a run of level events, and what a tripped stop-loss guarantees over
 * every run: no entry is ever submitted again, and once no entry handle is left the
 * grid only sells.
 */
module GridRuns {
  import opened Options
  import opened OrderState
  import opened LevelMachine
  import opened Venue
  import opened SlotReconciliation
  import opened Ledger
  import opened LevelRuns
  import opened ExitPricing
  import opened Tiling
  import opened SingleOrder
  import opened SingleOrderRuns
  import opened Conservation
  import opened ConservationRuns
  import opened ConservationRestart
  import opened ConservationTheorems
  import opened GridTrading

  // ----- a tick is a run -----

  lemma {:induction false} RunAppend(w: World, cfg: Config, i: nat, a: seq<Event>, b: seq<Event>)
    ensures Run(w, cfg, i, a + b) == Run(Run(w, cfg, i, a), cfg, i, b)
  {
    if b == [] {
      assert a + b == a;
    } else {
      assert (a + b)[..|a + b| - 1] == a + b[..|b| - 1];
      RunAppend(w, cfg, i, a, b[..|b| - 1]);
    }
  }

  lemma RunOne(w: World, cfg: Config, i: nat, e: Event)
    ensures Run(w, cfg, i, [e]) == Step(w, cfg, i, e)
  {
    assert [e][..0] == [];
  }

  function DriveEvents(frozen: bool, cancels: bool, exits: bool, exitPrice: Option<real>, e: LevelEnv): seq<Event> {
    (if frozen then [Freeze] else [])
    + (if cancels then [Cancel(Buy, e.cancelOk, e.cancelLast, e.cancelRead, e.cancelFee)] else [])
    + if exits then [StopExit(exitPrice, e.exit, e.exitFee)] else []
  }

  function PollEvents(e: LevelEnv): seq<Event> {
    (if e.buyDue then [Poll(Buy, e.buyRead, e.buyReadFee)] else [])
    + if e.sellDue then [Poll(Sell, e.sellRead, e.sellReadFee)] else []
  }

  /** A level's part of one tick, as events; the exit is priced on the level the entry half leaves. */
  function TickEvents(w: World, cfg: Config, i: nat, mark: real, g: Geometry, frozen: bool, cancels: bool,
                      exits: bool, exitPrice: Option<real>, e: LevelEnv): seq<Event>
    requires g.tick > 0.0
  {
    var bought := ArmBuy(DriveLevel(w, cfg, i, frozen, cancels, exits, exitPrice, e), cfg, i, mark, e.buy, e.buyFee);
    DriveEvents(frozen, cancels, exits, exitPrice, e)
    + ([BuyTick(mark, e.buy, e.buyFee)] + [SellTick(mark, SellTargetPrice(bought.desk.cell.level, g), e.sell, e.sellFee)])
    + PollEvents(e)
  }

  lemma TwoEvents(w: World, cfg: Config, i: nat, a: Event, b: Event)
    ensures Run(w, cfg, i, [a] + [b]) == Step(Step(w, cfg, i, a), cfg, i, b)
  {
    RunAppend(w, cfg, i, [a], [b]);
    RunOne(w, cfg, i, a);
    RunOne(Step(w, cfg, i, a), cfg, i, b);
  }

  lemma PollIsRun(w: World, cfg: Config, i: nat, e: LevelEnv)
    ensures Run(w, cfg, i, PollEvents(e)) == PollLevel(w, cfg, e)
  {
    var a := if e.buyDue then [Poll(Buy, e.buyRead, e.buyReadFee)] else [];
    var b := if e.sellDue then [Poll(Sell, e.sellRead, e.sellReadFee)] else [];
    RunAppend(w, cfg, i, a, b);
    RunOne(w, cfg, i, Poll(Buy, e.buyRead, e.buyReadFee));
    RunOne(Run(w, cfg, i, a), cfg, i, Poll(Sell, e.sellRead, e.sellReadFee));
  }

  lemma DriveIsRun(w: World, cfg: Config, i: nat, frozen: bool, cancels: bool, exits: bool, exitPrice: Option<real>,
                   e: LevelEnv)
    requires (w.frozen ==> frozen) && (exits ==> frozen)
    requires exits ==> EntryGone(w, cfg, i, frozen, cancels, exitPrice, e)
    ensures Run(w, cfg, i, DriveEvents(frozen, cancels, exits, exitPrice, e)) == DriveLevel(w, cfg, i, frozen, cancels, exits, exitPrice, e)
  {
    var a := if frozen then [Freeze] else [];
    var b := if cancels then [Cancel(Buy, e.cancelOk, e.cancelLast, e.cancelRead, e.cancelFee)] else [];
    var c := if exits then [StopExit(exitPrice, e.exit, e.exitFee)] else [];
    RunOne(w, cfg, i, Freeze);
    assert Run(w, cfg, i, a) == w.(frozen := frozen);
    RunAppend(w, cfg, i, a, b);
    RunOne(w.(frozen := frozen), cfg, i, Cancel(Buy, e.cancelOk, e.cancelLast, e.cancelRead, e.cancelFee));
    var canceled := DriveLevel(w, cfg, i, frozen, cancels, false, exitPrice, e);
    assert Run(w, cfg, i, a + b) == canceled;
    RunAppend(w, cfg, i, a + b, c);
    RunOne(canceled, cfg, i, StopExit(exitPrice, e.exit, e.exitFee));
    CancelKeepsFrozen(w.(frozen := frozen), cfg, Buy, e.cancelOk, e.cancelLast, e.cancelRead, e.cancelFee);
  }

  lemma CancelKeepsFrozen(w: World, cfg: Config, side: Side, ok: bool, last: Move, m: Move, fee: Option<real>)
    ensures CancelSide(w, cfg, side, ok, last, m, fee).frozen == w.frozen
  {}

  /**
   * A grid tick is, level by level, a run of level events: every theorem about level runs
   * holds of the grid's ticks.
   */
  lemma TickIsRun(w: World, cfg: Config, i: nat, mark: real, g: Geometry, frozen: bool, cancels: bool, exits: bool,
                  exitPrice: Option<real>, e: LevelEnv)
    requires g.tick > 0.0 && (w.frozen ==> frozen) && (exits ==> frozen)
    requires exits ==> EntryGone(w, cfg, i, frozen, cancels, exitPrice, e)
    ensures Run(w, cfg, i, TickEvents(w, cfg, i, mark, g, frozen, cancels, exits, exitPrice, e))
         == TickLevel(w, cfg, i, mark, g, frozen, cancels, exits, exitPrice, e)
  {
    var driven := DriveLevel(w, cfg, i, frozen, cancels, exits, exitPrice, e);
    var bought := ArmBuy(driven, cfg, i, mark, e.buy, e.buyFee);
    var a := DriveEvents(frozen, cancels, exits, exitPrice, e);
    var buy := BuyTick(mark, e.buy, e.buyFee);
    var sell := SellTick(mark, SellTargetPrice(bought.desk.cell.level, g), e.sell, e.sellFee);
    DriveIsRun(w, cfg, i, frozen, cancels, exits, exitPrice, e);
    RunAppend(w, cfg, i, a, [buy] + [sell]);
    TwoEvents(driven, cfg, i, buy, sell);
    RunAppend(w, cfg, i, a + ([buy] + [sell]), PollEvents(e));
    PollIsRun(ArmLevel(driven, cfg, i, mark, g, e), cfg, i, e);
  }

  /** Exits priced by the grid's own rule on the level they meet, and stop-loss exits only of a frozen level. */
  ghost predicate Guided(w: World, cfg: Config, i: nat, g: Geometry, events: seq<Event>)
    requires g.tick > 0.0
  {
    events == [] ||
    (var before, e := Run(w, cfg, i, events[..|events| - 1]), events[|events| - 1];
     && Guided(w, cfg, i, g, events[..|events| - 1])
     && (e.SellTick? ==> e.target == SellTargetPrice(before.desk.cell.level, g))
     && (e.StopExit? ==> before.frozen))
  }

  lemma {:induction false} GuidedAppend(w: World, cfg: Config, i: nat, g: Geometry, a: seq<Event>, b: seq<Event>)
    requires g.tick > 0.0 && Guided(w, cfg, i, g, a) && Guided(Run(w, cfg, i, a), cfg, i, g, b)
    ensures Guided(w, cfg, i, g, a + b)
  {
    hide Step, SellTargetPrice;
    if b == [] {
      assert a + b == a;
    } else {
      assert (a + b)[..|a + b| - 1] == a + b[..|b| - 1];
      GuidedAppend(w, cfg, i, g, a, b[..|b| - 1]);
      RunAppend(w, cfg, i, a, b[..|b| - 1]);
    }
  }

  lemma GuidedOne(w: World, cfg: Config, i: nat, g: Geometry, e: Event)
    requires g.tick > 0.0 && (e.SellTick? ==> e.target == SellTargetPrice(w.desk.cell.level, g)) && (e.StopExit? ==> w.frozen)
    ensures Guided(w, cfg, i, g, [e])
  {
    assert [e][..0] == [];
  }

  lemma PollIsGuided(w: World, cfg: Config, i: nat, g: Geometry, e: LevelEnv)
    requires g.tick > 0.0
    ensures Guided(w, cfg, i, g, PollEvents(e))
  {
    hide Run;
    var a := if e.buyDue then [Poll(Buy, e.buyRead, e.buyReadFee)] else [];
    var b := if e.sellDue then [Poll(Sell, e.sellRead, e.sellReadFee)] else [];
    GuidedOne(w, cfg, i, g, Poll(Buy, e.buyRead, e.buyReadFee));
    GuidedOne(Run(w, cfg, i, a), cfg, i, g, Poll(Sell, e.sellRead, e.sellReadFee));
    GuidedAppend(w, cfg, i, g, a, b);
  }

  lemma DriveIsGuided(w: World, cfg: Config, i: nat, g: Geometry, frozen: bool, cancels: bool, exits: bool,
                      exitPrice: Option<real>, e: LevelEnv)
    requires g.tick > 0.0 && (w.frozen ==> frozen) && (exits ==> frozen)
    ensures Guided(w, cfg, i, g, DriveEvents(frozen, cancels, exits, exitPrice, e))
  {
    var cancel := Cancel(Buy, e.cancelOk, e.cancelLast, e.cancelRead, e.cancelFee);
    var a := if frozen then [Freeze] else [];
    var b := if cancels then [cancel] else [];
    var c := if exits then [StopExit(exitPrice, e.exit, e.exitFee)] else [];
    RunOne(w, cfg, i, Freeze);
    var watched := w.(frozen := frozen);
    assert Run(w, cfg, i, a) == watched;
    GuidedOne(w, cfg, i, g, Freeze);
    GuidedOne(watched, cfg, i, g, cancel);
    GuidedAppend(w, cfg, i, g, a, b);
    RunAppend(w, cfg, i, a, b);
    RunOne(watched, cfg, i, cancel);
    CancelKeepsFrozen(watched, cfg, Buy, e.cancelOk, e.cancelLast, e.cancelRead, e.cancelFee);
    var canceled := Run(w, cfg, i, a + b);
    assert canceled.frozen == frozen;
    if exits {
      GuidedOne(canceled, cfg, i, g, StopExit(exitPrice, e.exit, e.exitFee));
    }
    GuidedAppend(w, cfg, i, g, a + b, c);
  }

  /** A tick prices its exit at each level by the grid's own rule, and runs stop-loss exits only once frozen. */
  lemma TickIsGuided(w: World, cfg: Config, i: nat, mark: real, g: Geometry, frozen: bool, cancels: bool, exits: bool,
                     exitPrice: Option<real>, e: LevelEnv)
    requires g.tick > 0.0 && (w.frozen ==> frozen) && (exits ==> frozen)
    requires exits ==> EntryGone(w, cfg, i, frozen, cancels, exitPrice, e)
    ensures Guided(w, cfg, i, g, TickEvents(w, cfg, i, mark, g, frozen, cancels, exits, exitPrice, e))
  {
    hide Step, Run, Guided, DriveLevel, SellTargetPrice, PollEvents, DriveEvents;
    var driven := DriveLevel(w, cfg, i, frozen, cancels, exits, exitPrice, e);
    var bought := ArmBuy(driven, cfg, i, mark, e.buy, e.buyFee);
    var drive := DriveEvents(frozen, cancels, exits, exitPrice, e);
    var sell := SellTick(mark, SellTargetPrice(bought.desk.cell.level, g), e.sell, e.sellFee);
    DriveIsRun(w, cfg, i, frozen, cancels, exits, exitPrice, e);
    DriveIsGuided(w, cfg, i, g, frozen, cancels, exits, exitPrice, e);
    ArmIsGuided(driven, cfg, i, g, mark, e.buy, e.buyFee, sell);
    GuidedAppend(w, cfg, i, g, drive, [BuyTick(mark, e.buy, e.buyFee)] + [sell]);
    PollIsGuided(Run(w, cfg, i, drive + ([BuyTick(mark, e.buy, e.buyFee)] + [sell])), cfg, i, g, e);
    GuidedAppend(w, cfg, i, g, drive + ([BuyTick(mark, e.buy, e.buyFee)] + [sell]), PollEvents(e));
  }

  lemma ArmIsGuided(w: World, cfg: Config, i: nat, g: Geometry, mark: real, place: PlaceMoves, fee: Option<real>,
                    sell: Event)
    requires g.tick > 0.0 && sell.SellTick?
    requires sell.target == SellTargetPrice(ArmBuy(w, cfg, i, mark, place, fee).desk.cell.level, g)
    ensures Guided(w, cfg, i, g, [BuyTick(mark, place, fee)] + [sell])
  {
    var buy := BuyTick(mark, place, fee);
    GuidedOne(w, cfg, i, g, buy);
    RunOne(w, cfg, i, buy);
    GuidedOne(Run(w, cfg, i, [buy]), cfg, i, g, sell);
    GuidedAppend(w, cfg, i, g, [buy], [sell]);
  }

  // ----- after a trip -----

  /** No entry was submitted: every BUY order of the level is a submission that was already there. */
  ghost predicate NoNewEntries(b: Book, b': Book, i: nat) {
    forall g: nat {:trigger Cid(i, Buy, g)} :: Cid(i, Buy, g) in b' ==>
      && Cid(i, Buy, g) in b && b'[Cid(i, Buy, g)].instance == b[Cid(i, Buy, g)].instance
      && b'[Cid(i, Buy, g)].quantity == b[Cid(i, Buy, g)].quantity && b'[Cid(i, Buy, g)].limit == b[Cid(i, Buy, g)].limit
  }

  lemma NoNewEntriesTrans(a: Book, b: Book, c: Book, i: nat)
    requires NoNewEntries(a, b, i) && NoNewEntries(b, c, i)
    ensures NoNewEntries(a, c, i)
  {}

  lemma EvolvesNoEntry(b: Book, step: nat, cid: Cid, m: Move, i: nat)
    ensures NoNewEntries(b, EvolveAt(b, step, cid, m), i)
  {}

  lemma CancelsNoEntry(b: Book, step: nat, h: Handle, m: Move, i: nat)
    ensures NoNewEntries(b, CancelAt(b, step, h, m), i)
  {}

  lemma ChecksNoEntry(d: Desk, cfg: Config, side: Side, m: Move, i: nat)
    ensures NoNewEntries(d.book, CheckSlot(d, cfg, side, m).desk.book, i)
  {}

  lemma ExitsNoEntry(d: Desk, cfg: Config, i: nat, price: real, quantity: int, e: PlaceMoves)
    ensures NoNewEntries(d.book, EnsureSlotOrder(d, cfg, i, Sell, price, quantity, true, e).desk.book, i)
  {
    if e.boundary == Passed {
      var cid := d.cell.IdFor(i, Sell);
      var pre := LookBeforeCreate(d, cfg, cid, price, quantity, e.pre).desk.book;
      EvolvesNoEntry(d.book, cfg.step, cid, e.pre, i);
      var created := CreateBook(pre, cid, price, quantity, true, e.create);
      assert NoNewEntries(pre, created, i);
      EvolvesNoEntry(created, cfg.step, cid, e.post, i);
      NoNewEntriesTrans(pre, created, EvolveAt(created, cfg.step, cid, e.post), i);
      NoNewEntriesTrans(d.book, pre, created, i);
      NoNewEntriesTrans(d.book, pre, EvolveAt(created, cfg.step, cid, e.post), i);
    }
  }

  lemma RestartsNoEntry(w: World, cfg: Config, i: nat, mb: Move, ms: Move, fb: Option<real>, fs: Option<real>)
    ensures NoNewEntries(w.desk.book, Restart(w, cfg, i, mb, ms, fb, fs).desk.book, i)
  {
    var d := Reloaded(w, cfg, i).desk;
    var b := ResolveSide(d, cfg, Buy, mb).desk;
    ChecksNoEntry(d, cfg, Buy, mb, i);
    ChecksNoEntry(b, cfg, Sell, ms, i);
    NoNewEntriesTrans(d.book, b.book, ResolveSide(b, cfg, Sell, ms).desk.book, i);
  }

  lemma FrozenStep(w: World, cfg: Config, i: nat, e: Event)
    requires w.frozen
    ensures Step(w, cfg, i, e).frozen && NoNewEntries(w.desk.book, Step(w, cfg, i, e).desk.book, i)
  {
    var l := w.desk.cell.level;
    match e
    case VenueMoves(s, gen, m) => EvolvesNoEntry(w.desk.book, cfg.step, Cid(i, s, gen), m, i);
    case BuyTick(_, _, _) =>
    case SellTick(_, target, place, _) => ExitsNoEntry(w.desk, cfg, i, target.GetOr(0.0),
      ExitQuantity(l, cfg.orderQuantity), place);
    case Poll(side, m, _) => ChecksNoEntry(w.desk, cfg, side, m, i);
    case Cancel(side, confirmed, last, m, _) =>
      if l.HandleOf(side).Some? && confirmed {
        var book := CancelAt(w.desk.book, cfg.step, l.HandleOf(side).value, last);
        CancelsNoEntry(w.desk.book, cfg.step, l.HandleOf(side).value, last, i);
        ChecksNoEntry(w.desk.(book := book), cfg, side, m, i);
        NoNewEntriesTrans(w.desk.book, book, CheckSlot(w.desk.(book := book), cfg, side, m).desk.book, i);
      }
    case Freeze =>
    case StopExit(price, place, _) => ExitsNoEntry(w.desk, cfg, i, price.GetOr(0.0), HeldQtyOf(l, cfg.orderQuantity),
      place);
    case Reboot(mb, ms, fb, fs) => RestartsNoEntry(w, cfg, i, mb, ms, fb, fs);
  }

  /** From the tripping tick on no entry is ever submitted, over every run, restarts and false answers included. */
  lemma {:induction false} FrozenNeverEnters(w: World, cfg: Config, i: nat, events: seq<Event>)
    requires w.frozen
    ensures Run(w, cfg, i, events).frozen && NoNewEntries(w.desk.book, Run(w, cfg, i, events).desk.book, i)
  {
    if events != [] {
      var before := Run(w, cfg, i, events[..|events| - 1]);
      FrozenNeverEnters(w, cfg, i, events[..|events| - 1]);
      FrozenStep(before, cfg, i, events[|events| - 1]);
      NoNewEntriesTrans(w.desk.book, before.desk.book, Run(w, cfg, i, events).desk.book, i);
    }
  }

  // ----- once no entry handle is left -----

  /** Frozen, with no entry handle: what an exiting grid's levels look like. */
  predicate Unwinding(w: World) { w.frozen && w.desk.cell.level.buyOrderId.None? }

  lemma UnwindingCheck(w: World, cfg: Config, i: nat, side: Side, m: Move, fee: Option<real>)
    requires Conserved(w, cfg, i) && Unwinding(w) && m.Honest()
    ensures Unwinding(CheckSide(w, cfg, side, m, fee)) && Conserved(CheckSide(w, cfg, side, m, fee), cfg, i)
    ensures CheckSide(w, cfg, side, m, fee).desk.cell.level.Held() <= w.desk.cell.level.Held()
  {
    if w.desk.cell.level.HandleOf(side).Some? {
      var d := CheckConserved(w, cfg, i, side, m, fee);
    }
  }

  lemma UnwindingCancel(w: World, cfg: Config, i: nat, side: Side, confirmed: bool, last: Move, m: Move,
                        fee: Option<real>)
    requires Conserved(w, cfg, i) && Unwinding(w) && m.Honest()
    ensures var w' := CancelSide(w, cfg, side, confirmed, last, m, fee);
      Unwinding(w') && w'.desk.cell.level.Held() <= w.desk.cell.level.Held()
  {
    if side == Sell && w.desk.cell.level.sellOrderId.Some? && confirmed {
      var d := CancelConserved(w, cfg, i, side, confirmed, last, m, fee);
      var canceled := w.(desk := w.desk.(book := CancelAt(w.desk.book, cfg.step, w.desk.cell.level.sellOrderId.value, last)));
      CancelSideSound(w.desk.cell, w.desk.book, i, side, cfg.step, last);
      BookMoves(w, canceled.desk.book, cfg, i, side);
      UnwindingClose(canceled, cfg, i, m, fee);
    }
  }

  lemma UnwindingClose(w: World, cfg: Config, i: nat, m: Move, fee: Option<real>)
    requires Conserved(w, cfg, i) && Unwinding(w) && m.Honest() && w.desk.cell.level.sellOrderId.Some?
    ensures Unwinding(ReconcileCancelledSlot(w, cfg, Sell, m, fee))
  {
    UnwindingCheck(w, cfg, i, Sell, m, fee);
    var booked := CheckSide(w, cfg, Sell, m, fee).desk.cell;
    assert booked.sellRec.Some? ==> booked.sellRec.value.cid.side == Sell;
  }

  lemma UnwindingExit(w: World, cfg: Config, i: nat, price: real, quantity: int, e: PlaceMoves, fee: Option<real>)
    requires Conserved(w, cfg, i) && Unwinding(w) && e.Honest() && w.desk.cell.level.sellOrderId.None?
    requires var l := w.desk.cell.level;
      && l.Held() > QTY_EPSILON
      && quantity == if l.FullyLong(cfg.orderQuantity) then cfg.orderQuantity else l.Held()
    ensures var w' := PlaceAndBook(w, cfg, i, Sell, price, quantity, e, fee);
      Unwinding(w') && w'.desk.cell.level.Held() <= w.desk.cell.level.Held()
  {
    SellRoom(w, cfg, i, quantity);
    var d, room := EnsureMoves(w, cfg, i, Sell, price, quantity, true, e, fee);
  }

  lemma UnwindingStep(w: World, cfg: Config, i: nat, e: Event)
    requires Conserved(w, cfg, i) && Unwinding(w) && HonestEvent(e) && Clean(w, cfg, i, e)
    ensures Unwinding(Step(w, cfg, i, e)) && Step(w, cfg, i, e).desk.cell.level.Held() <= w.desk.cell.level.Held()
  {
    var l := w.desk.cell.level;
    match e
    case VenueMoves(_, _, _) =>
    case BuyTick(_, _, _) =>
    case SellTick(mark, target, place, fee) =>
      if SellArmed(l, cfg.orderQuantity, mark) && target.Some? {
        UnwindingExit(w, cfg, i, target.value, ExitQuantity(l, cfg.orderQuantity), place, fee);
      }
    case Poll(side, m, fee) => UnwindingCheck(w, cfg, i, side, m, fee);
    case Cancel(side, confirmed, last, m, fee) => UnwindingCancel(w, cfg, i, side, confirmed, last, m, fee);
    case Freeze =>
    case StopExit(price, place, fee) =>
      if price.Some? && l.sellOrderId.None? && HeldQtyOf(l, cfg.orderQuantity) > QTY_EPSILON {
        if l.FullyLong(cfg.orderQuantity) {
          FullIsWhole(w, cfg, i);
        }
        UnwindingExit(w, cfg, i, price.value, HeldQtyOf(l, cfg.orderQuantity), place, fee);
      }
    case Reboot(mb, ms, fb, fs) =>
      var r := Reloaded(w, cfg, i);
      var side, d := RebootFacts(w, cfg, i, mb, ms, fb, fs);
      RestoredConserved(w, cfg, i);
      UnwindingCheck(r, cfg, i, Buy, mb, fb);
      UnwindingCheck(CheckSide(r, cfg, Buy, mb, fb), cfg, i, Sell, ms, fs);
  }

  /** Once entries are frozen and their handles gone, a level's held quantity never rises, over every truthful run. */
  lemma {:induction false} ExitOnlyShrinks(w: World, cfg: Config, i: nat, events: seq<Event>)
    requires Conserved(w, cfg, i) && Unwinding(w) && Truthful(w, cfg, i, events)
    ensures Unwinding(Run(w, cfg, i, events))
    ensures Run(w, cfg, i, events).desk.cell.level.Held() <= w.desk.cell.level.Held()
  {
    if events != [] {
      ExitOnlyShrinks(w, cfg, i, events[..|events| - 1]);
      RunConserved(w, cfg, i, events[..|events| - 1]);
      UnwindingStep(Run(w, cfg, i, events[..|events| - 1]), cfg, i, events[|events| - 1]);
    }
  }

  function Aggregate(ws: seq<World>): int {
    if ws == [] then 0 else Aggregate(ws[..|ws| - 1]) + ws[|ws| - 1].desk.cell.level.Held()
  }

  /** The grid's aggregate held quantity never rises once the stop-loss is exiting. */
  lemma {:induction false} AggregateNeverRises(ws: seq<World>, later: seq<World>, runs: seq<seq<Event>>, cfg: Config)
    requires |ws| == |later| == |runs|
    requires forall i :: 0 <= i < |ws| ==> Conserved(ws[i], cfg, i) && Unwinding(ws[i]) && Truthful(ws[i], cfg, i, runs[i])
    requires forall i :: 0 <= i < |ws| ==> later[i] == Run(ws[i], cfg, i, runs[i])
    ensures Aggregate(later) <= Aggregate(ws)
  {
    if ws != [] {
      var n := |ws| - 1;
      AggregateNeverRises(ws[..n], later[..n], runs[..n], cfg);
      ExitOnlyShrinks(ws[n], cfg, n, runs[n]);
    }
  }
}
