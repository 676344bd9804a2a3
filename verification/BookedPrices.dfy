/**
 * The price a fill is booked at: what the venue reported for it, and what the engine
 * had asked for where it reported none.
 */
module BookedPrices {
  import opened Options
  import opened OrderState
  import opened LevelMachine
  import opened Venue
  import opened SlotReconciliation
  import opened Ledger
  import opened LevelRuns
  import opened Tiling
  import opened TilingRuns
  import opened LevelFrames
  import opened SubmittedOrders

  // ----- what the venue reports -----

  /** The executed price a lookup's answer carries, true or false. */
  function LookupPrice(m: Move): Option<real> {
    match m.falseLookup
    case None => m.exec
    case Some(FoundOpen(row)) => row.price
    case Some(FoundFilled(row)) => row.price
    case Some(FoundCanceled(row)) => row.price
    case Some(_) => None
  }

  /** The executed price the answer to a read by handle carries. */
  function ReadPrice(m: Move): Option<real> {
    match m.falseReply
    case None => m.exec
    case Some(OrderRow(_, _, _, price)) => price
    case Some(_) => None
  }

  /** Nothing rests under the id and nothing executed, as far as the answer says. */
  predicate ShowsNothing(reply: Lookup) {
    reply.Absent? || (reply.FoundCanceled? && reply.row.executedQuantity.GetOr(0) <= QTY_EPSILON)
  }

  /** The price reported to a placement: by the lookup before the submission, or by the one after it. */
  function PlacePrice(w: World, cfg: Config, i: nat, side: Side, e: PlaceMoves): Option<real> {
    var cid := w.desk.cell.IdFor(i, side);
    if ShowsNothing(LookupReply(EvolveAt(w.desk.book, cfg.step, cid, e.pre), cid, e.pre)) then LookupPrice(e.post)
    else LookupPrice(e.pre)
  }

  /** The price the venue reported, during the event, for what executed on one side. */
  function ReportOf(w: World, cfg: Config, i: nat, e: Event, side: Side): Option<real> {
    match e
    case BuyTick(_, place, _) => PlacePrice(w, cfg, i, Buy, place)
    case SellTick(_, _, place, _) => PlacePrice(w, cfg, i, Sell, place)
    case StopExit(_, place, _) => PlacePrice(w, cfg, i, Sell, place)
    case Poll(_, m, _) => ReadPrice(m)
    case Cancel(_, _, _, m, _) => ReadPrice(m)
    case Reboot(mb, ms, _, _) => ReadPrice(if side == Buy then mb else ms)
    case _ => None
  }

  /**
   * The price the engine has on record for one side: the one it asks for now, or asked for when it
   * last placed the slot's order; after a restart, the line.
   */
  function AskedPrice(w: World, e: Event, side: Side): real {
    var l := w.desk.cell.level;
    var recorded := if w.desk.cell.Rec(side).Some? then w.desk.cell.Rec(side).value.price else l.price;
    match e
    case BuyTick(_, _, _) => if side == Buy then l.price else recorded
    case SellTick(_, target, _, _) => if side == Sell then target.GetOr(l.price) else recorded
    case StopExit(price, _, _) => if side == Sell then price.GetOr(l.price) else recorded
    case Reboot(_, _, _, _) => l.price
    case _ => recorded
  }

  // ----- observations -----

  /** An outcome's executions carry the reported price. */
  predicate Carries(o: SlotOutcome, reported: Option<real>) {
    SegmentOf(o).Some? ==> SegmentOf(o).value.executedPrice == reported
  }

  /** The slot keeps a record of the price asked for. */
  predicate Asked(c: Cell, side: Side, price: real) { c.Rec(side).Some? && c.Rec(side).value.price == price }

  lemma LookupCarries(c: Cell, q: int, cid: Cid, b: Book, m: Move, price: real)
    requires Asked(c, cid.side, price) && c.Rec(cid.side).value.cid.side == cid.side
    ensures var o := ObserveLookup(c, q, cid, LookupReply(b, cid, m));
      Carries(o.outcome, LookupPrice(m)) && Asked(o.cell, cid.side, price) && o.cell.Rec(cid.side).value.cid.side == cid.side
  {}

  lemma HandleCarries(c: Cell, q: int, side: Side, h: Handle, b: Book, m: Move, price: real)
    requires Asked(c, side, price) && c.Rec(side).value.cid.side == side
    ensures var o := ObserveHandle(c, q, c.Rec(side).value, h, HandleReply(b, h, m));
      Carries(o.outcome, ReadPrice(m)) && Asked(o.cell, side, price)
  {}

  /** The lookup in front of a submission leads on to it exactly when it shows nothing. */
  lemma LookLeadsOn(d: Desk, cfg: Config, cid: Cid, price: real, quantity: int, m: Move)
    ensures var o := LookBeforeCreate(d, cfg, cid, price, quantity, m).outcome;
      o == SafeToRecreate(None) <==> ShowsNothing(LookupReply(EvolveAt(d.book, cfg.step, cid, m), cid, m))
  {
    hide LookupReply, EvolveAt;
  }

  lemma PlaceCarries(w: World, cfg: Config, i: nat, side: Side, price: real, quantity: int, ro: bool, e: PlaceMoves)
    ensures var p := EnsureSlotOrder(w.desk, cfg, i, side, price, quantity, ro, e);
      && Carries(p.outcome, PlacePrice(w, cfg, i, side, e))
      && (SegmentOf(p.outcome).Some? ==> Asked(p.desk.cell, side, price))
  {
    if e.boundary == Passed {
      var cid := w.desk.cell.IdFor(i, side);
      var begun := MarkState(BeginSubmit(w.desk.cell, cid, price, quantity), side, Submitting);
      assert Asked(begun, side, price) && begun.Rec(side).value.cid.side == side;
      LookLeadsOn(w.desk, cfg, cid, price, quantity, e.pre);
      LookupCarries(begun, cfg.orderQuantity, cid, EvolveAt(w.desk.book, cfg.step, cid, e.pre), e.pre, price);
      var pre := LookBeforeCreate(w.desk, cfg, cid, price, quantity, e.pre);
      assert Carries(pre.outcome, LookupPrice(e.pre)) && Asked(pre.desk.cell, side, price);
      hide LookBeforeCreate;
      var created := CreateBook(pre.desk.book, cid, price, quantity, ro, e.create);
      LookupCarries(pre.desk.cell, cfg.orderQuantity, cid, EvolveAt(created, cfg.step, cid, e.post), e.post, price);
      hide ObserveLookup, LookupReply, LookupPrice, ShowsNothing, Asked;
    }
  }

  // ----- rows -----

  /** Every row booked since is priced as reported, or as asked where nothing was. */
  ghost predicate Priced(w: World, w': World, cfg: Config, i: nat, e: Event) {
    && |w.rows| <= |w'.rows| && w'.rows[..|w.rows|] == w.rows
    && forall k :: |w.rows| <= k < |w'.rows| ==>
      w'.rows[k].price == ReportOf(w, cfg, i, e, w'.rows[k].cid.side).GetOr(AskedPrice(w, e, w'.rows[k].cid.side))
  }

  /** One outcome, booked. */
  lemma BookedAt(w: World, q: int, side: Side, o: SlotOutcome, fee: Option<real>, reported: Option<real>, asked: real)
    requires Carries(o, reported) && (SegmentOf(o).Some? ==> Asked(w.desk.cell, side, asked) && SegmentOf(o).value.cid.side == side)
    ensures var w' := BookOutcome(w, q, side, o, fee);
      && |w.rows| <= |w'.rows| && w'.rows[..|w.rows|] == w.rows
      && forall k :: |w.rows| <= k < |w'.rows| ==> w'.rows[k].price == reported.GetOr(asked) && w'.rows[k].cid.side == side
  {}

  lemma PlacedPrice(w: World, cfg: Config, i: nat, side: Side, price: real, quantity: int, e: PlaceMoves, fee: Option<real>, event: Event)
    requires Coherent(w, i)
    requires ReportOf(w, cfg, i, event, side) == PlacePrice(w, cfg, i, side, e) && AskedPrice(w, event, side) == price
    ensures Priced(w, PlaceAndBook(w, cfg, i, side, price, quantity, e, fee), cfg, i, event)
    ensures var p := EnsureSlotOrder(w.desk, cfg, i, side, price, quantity, side == Sell, e);
      SegmentOf(p.outcome).None? ==> PlaceAndBook(w, cfg, i, side, price, quantity, e, fee).rows == w.rows
  {
    var p := EnsureSlotOrder(w.desk, cfg, i, side, price, quantity, side == Sell, e);
    PlaceCarries(w, cfg, i, side, price, quantity, side == Sell, e);
    EnsureFrame(w.desk, cfg, i, side, price, quantity, side == Sell, e);
    BookedAt(w.(desk := p.desk), cfg.orderQuantity, side, p.outcome, fee, PlacePrice(w, cfg, i, side, e), price);
    hide EnsureSlotOrder, BookSegment, Coherent, PlacePrice, ReportOf, AskedPrice;
  }

  lemma EntryPriced(w: World, cfg: Config, i: nat, mark: real, e: PlaceMoves, fee: Option<real>)
    requires Coherent(w, i)
    ensures Priced(w, ArmBuy(w, cfg, i, mark, e, fee), cfg, i, BuyTick(mark, e, fee))
  {
    var l := w.desk.cell.level;
    PlacedPrice(w, cfg, i, Buy, l.price, BuyRemainder(l, cfg.orderQuantity), e, fee, BuyTick(mark, e, fee));
    hide EnsureSlotOrder, BookOutcome, Coherent, ReportOf;
  }

  /** A check's outcome carries its read's price, and the record stays. */
  lemma CheckCarries(w: World, cfg: Config, i: nat, side: Side, m: Move)
    requires Owned(w.desk.cell, i, side)
    ensures var p := CheckSlot(w.desk, cfg, side, m);
      && Carries(p.outcome, ReadPrice(m))
      && (SegmentOf(p.outcome).Some? ==> w.desk.cell.Rec(side).Some? && SegmentOf(p.outcome).value.cid.side == side)
      && (w.desk.cell.Rec(side).Some? ==> Asked(p.desk.cell, side, w.desk.cell.Rec(side).value.price))
  {
    var r := w.desk.cell.Rec(side);
    CheckFrame(w.desk, cfg, i, side, m);
    if r.Some? && r.value.orderId.Some? {
      var h := r.value.orderId.value;
      HandleCarries(w.desk.cell, cfg.orderQuantity, side, h, EvolveAt(w.desk.book, cfg.step, h.cid, m), m, r.value.price);
    }
    hide ObserveHandle, HandleReply, ReadPrice;
  }

  lemma CheckPriced(w: World, cfg: Config, i: nat, side: Side, m: Move, fee: Option<real>, event: Event)
    requires Owned(w.desk.cell, i, side)
    requires ReportOf(w, cfg, i, event, side) == ReadPrice(m)
    requires w.desk.cell.Rec(side).Some? ==> AskedPrice(w, event, side) == w.desk.cell.Rec(side).value.price
    ensures Priced(w, CheckSide(w, cfg, side, m, fee), cfg, i, event)
  {
    CheckCarries(w, cfg, i, side, m);
    hide ReportOf, AskedPrice, ReadPrice, CheckSlot, BookOutcome;
    var p := CheckSlot(w.desk, cfg, side, m);
    var asked := if w.desk.cell.Rec(side).Some? then w.desk.cell.Rec(side).value.price else 0.0;
    BookedAt(w.(desk := p.desk), cfg.orderQuantity, side, p.outcome, fee, ReadPrice(m), asked);
    if w.desk.cell.Rec(side).None? {
      NothingToBook(w.(desk := p.desk), cfg.orderQuantity, side, p.outcome, fee);
    }
  }

  lemma CancelPriced(w: World, cfg: Config, i: nat, side: Side, confirmed: bool, last: Move, m: Move, fee: Option<real>)
    requires Coherent(w, i)
    ensures Priced(w, CancelSide(w, cfg, side, confirmed, last, m, fee), cfg, i, Cancel(side, confirmed, last, m, fee))
  {
    var h := w.desk.cell.level.HandleOf(side);
    var event := Cancel(side, confirmed, last, m, fee);
    RecordIn(w, i, side);
    hide Coherent, CheckSlot, BookOutcome, MarkNotFound;
    if h.Some? && confirmed {
      var canceled := w.(desk := w.desk.(book := CancelAt(w.desk.book, cfg.step, h.value, last)));
      CheckPriced(canceled, cfg, i, side, m, fee, event);
      assert CancelSide(w, cfg, side, confirmed, last, m, fee).rows == CheckSide(canceled, cfg, side, m, fee).rows;
    }
  }

  lemma RecordIn(w: World, i: nat, side: Side)
    requires Coherent(w, i)
    ensures Owned(w.desk.cell, i, side)
  {}

  lemma PollPriced(w: World, cfg: Config, i: nat, side: Side, m: Move, fee: Option<real>)
    requires Coherent(w, i)
    ensures Priced(w, CheckSide(w, cfg, side, m, fee), cfg, i, Poll(side, m, fee))
  {
    RecordIn(w, i, side);
    hide Coherent, CheckSide;
    CheckPriced(w, cfg, i, side, m, fee, Poll(side, m, fee));
  }

  /** One side of the startup pass: whatever it collects carries its read's price, and its record the line. */
  lemma ResolvePriced(w: World, cfg: Config, i: nat, side: Side, m: Move, line: real)
    requires Owned(w.desk.cell, i, side)
    requires w.desk.cell.level.HandleOf(side).Some? ==> Asked(w.desk.cell, side, line)
    ensures var p := ResolveSide(w.desk, cfg, side, m);
      && Carries(p.outcome, ReadPrice(m))
      && (SegmentOf(p.outcome).Some? ==> Asked(p.desk.cell, side, line) && SegmentOf(p.outcome).value.cid.side == side)
      && p.desk.cell.Rec(Other(side)) == w.desk.cell.Rec(Other(side))
      && p.desk.cell.level.HandleOf(Other(side)) == w.desk.cell.level.HandleOf(Other(side))
      && Owned(p.desk.cell, i, side)
  {
    CheckIsLocal(w.desk, cfg, side, m);
    CheckFrame(w.desk, cfg, i, side, m);
    CheckCarries(w, cfg, i, side, m);
    hide CheckSlot, ReadPrice;
  }

  lemma RestoredAsks(w: World, cfg: Config, i: nat)
    requires Coherent(w, i)
    ensures var c := Restored(w.desk.cell.level, cfg.orderQuantity, i);
      && Owned(c, i, Buy) && Owned(c, i, Sell)
      && (c.level.buyOrderId.Some? ==> Asked(c, Buy, w.desk.cell.level.price))
      && (c.level.sellOrderId.Some? ==> Asked(c, Sell, w.desk.cell.level.price))
  {}

  lemma CollectedAt(w: World, q: int, side: Side, o: SlotOutcome, fee: Option<real>, reported: Option<real>, asked: real)
    requires Carries(o, reported) && (SegmentOf(o).Some? ==> Asked(w.desk.cell, side, asked) && SegmentOf(o).value.cid.side == side)
    ensures var w' := BookCollected(w, q, side, o, fee);
      && |w.rows| <= |w'.rows| && w'.rows[..|w.rows|] == w.rows && w'.desk.cell.Rec(Buy) == w.desk.cell.Rec(Buy)
      && w'.desk.cell.Rec(Sell) == w.desk.cell.Rec(Sell)
      && forall k :: |w.rows| <= k < |w'.rows| ==> w'.rows[k].price == reported.GetOr(asked) && w'.rows[k].cid.side == side
  {
    BookedAt(w, q, side, o, fee, reported, asked);
    BookedParts(w, q, side, o, fee);
  }

  /** The rows the startup pass adds, each at its own side's report. */
  ghost predicate Added(before: seq<Row>, after: seq<Row>, buy: real, sell: real) {
    && |before| <= |after| && after[..|before|] == before
    && forall k :: |before| <= k < |after| ==> after[k].price == if after[k].cid.side == Buy then buy else sell
  }

  lemma AddedTwice(a: seq<Row>, b: seq<Row>, c: seq<Row>, buy: real, sell: real)
    requires Added(a, b, buy, sell) && Added(b, c, buy, sell)
    ensures Added(a, c, buy, sell)
  {
    assert c[..|a|] == c[..|b|][..|a|];
    forall k | |a| <= k < |c| ensures c[k].price == if c[k].cid.side == Buy then buy else sell {
      assert k < |b| ==> c[k] == b[k];
    }
  }

  lemma StartupPriced(r: World, cfg: Config, i: nat, mb: Move, ms: Move, fb: Option<real>, fs: Option<real>, line: real)
    requires Owned(r.desk.cell, i, Buy) && Owned(r.desk.cell, i, Sell)
    requires r.desk.cell.level.buyOrderId.Some? ==> Asked(r.desk.cell, Buy, line)
    requires r.desk.cell.level.sellOrderId.Some? ==> Asked(r.desk.cell, Sell, line)
    ensures Added(r.rows, Startup(r, cfg, mb, ms, fb, fs).rows, ReadPrice(mb).GetOr(line), ReadPrice(ms).GetOr(line))
  {
    hide BookCollected, ResolveSide, ReadPrice;
    var q := cfg.orderQuantity;
    var b := ResolveSide(r.desk, cfg, Buy, mb);
    ResolvePriced(r, cfg, i, Buy, mb, line);
    var s := ResolveSide(b.desk, cfg, Sell, ms);
    ResolvePriced(r.(desk := b.desk), cfg, i, Sell, ms, line);
    var bought := BookCollected(r.(desk := s.desk), q, Buy, b.outcome, fb);
    CollectedAt(r.(desk := s.desk), q, Buy, b.outcome, fb, ReadPrice(mb), line);
    CollectedAt(bought, q, Sell, s.outcome, fs, ReadPrice(ms), line);
    AddedTwice(r.rows, bought.rows, BookCollected(bought, q, Sell, s.outcome, fs).rows,
               ReadPrice(mb).GetOr(line), ReadPrice(ms).GetOr(line));
  }

  lemma RebootPriced(w: World, cfg: Config, i: nat, mb: Move, ms: Move, fb: Option<real>, fs: Option<real>)
    requires Coherent(w, i)
    ensures Priced(w, Restart(w, cfg, i, mb, ms, fb, fs), cfg, i, Reboot(mb, ms, fb, fs))
  {
    RestoredAsks(w, cfg, i);
    hide Coherent, Restored, Startup, ReadPrice;
    var c := Restored(w.desk.cell.level, cfg.orderQuantity, i);
    StartupPriced(w.(desk := w.desk.(cell := c)), cfg, i, mb, ms, fb, fs, w.desk.cell.level.price);
  }

  /** Whatever happens and whatever the venue answers, each row booked carries the reported price, or the asked one. */
  lemma StepPriced(w: World, cfg: Config, i: nat, e: Event)
    requires Coherent(w, i)
    ensures Priced(w, Step(w, cfg, i, e), cfg, i, e)
  {
    hide Priced, Coherent, ArmBuy, PlaceAndBook, CheckSide, CancelSide, Restart, PlacePrice;
    match e
    case VenueMoves(_, _, _) => NothingPriced(w, Step(w, cfg, i, e), cfg, i, e);
    case BuyTick(mark, place, fee) => EntryPriced(w, cfg, i, mark, place, fee);
    case SellTick(mark, target, place, fee) =>
      NothingPriced(w, w, cfg, i, e);
      if target.Some? {
        PlacedPrice(w, cfg, i, Sell, target.value, ExitQuantity(w.desk.cell.level, cfg.orderQuantity), place, fee, e);
      }
    case Poll(side, m, fee) => PollPriced(w, cfg, i, side, m, fee);
    case Cancel(side, confirmed, last, m, fee) => CancelPriced(w, cfg, i, side, confirmed, last, m, fee);
    case Freeze => NothingPriced(w, Step(w, cfg, i, e), cfg, i, e);
    case StopExit(price, place, fee) =>
      NothingPriced(w, w, cfg, i, e);
      if price.Some? {
        PlacedPrice(w, cfg, i, Sell, price.value, HeldQtyOf(w.desk.cell.level, cfg.orderQuantity), place, fee, e);
      }
    case Reboot(mb, ms, fb, fs) => RebootPriced(w, cfg, i, mb, ms, fb, fs);
  }

  lemma NothingPriced(w: World, w': World, cfg: Config, i: nat, e: Event)
    requires w'.rows == w.rows
    ensures Priced(w, w', cfg, i, e)
  {}

  // ----- whole runs -----

  /** Event j of the run booked row k, at the price reported during it, or else at the one asked for. */
  ghost predicate BookedBy(w: World, cfg: Config, i: nat, events: seq<Event>, j: nat, k: nat)
    requires j < |events| && k < |Run(w, cfg, i, events).rows|
  {
    var before := Run(w, cfg, i, events[..j]);
    var row := Run(w, cfg, i, events).rows[k];
    && |before.rows| <= k < |Run(w, cfg, i, events[..j + 1]).rows|
    && row.price == ReportOf(before, cfg, i, events[j], row.cid.side).GetOr(AskedPrice(before, events[j], row.cid.side))
  }

  /**
   * Over every run of a level, whatever the venue answers and with restarts between events: every row
   * in the ledger was booked by some event at the price the venue reported during that event, or,
   * where it reported none, at the price the engine had on record.
   */
  lemma {:induction false} EveryRowIsPriced(w: World, cfg: Config, i: nat, events: seq<Event>, k: nat) returns (j: nat)
    requires Coherent(w, i) && |w.rows| <= k < |Run(w, cfg, i, events).rows|
    ensures j < |events| && BookedBy(w, cfg, i, events, j, k)
  {
    var n := |events| - 1;
    var before := Run(w, cfg, i, events[..n]);
    RunKept(w, cfg, i, events[..n]);
    StepPriced(before, cfg, i, events[n]);
    hide Step, ReportOf, AskedPrice, Coherent;
    assert events[..n + 1] == events;
    if k < |before.rows| {
      j := EveryRowIsPriced(w, cfg, i, events[..n], k);
      assert events[..n][..j] == events[..j] && events[..n][..j + 1] == events[..j + 1];
      assert Run(w, cfg, i, events).rows[k] == Run(w, cfg, i, events).rows[..|before.rows|][k];
    } else {
      j := n;
    }
  }

  /**
   * In every state a run reaches, whatever happens next: an entry booked with no reported price is booked
   * at the limit its order has in the venue's book.
   */
  lemma UnreportedEntriesAreAtTheirLimit(price: real, cfg: Config, i: nat, events: seq<Event>, e: Event)
    ensures var w := Run(FreshWorld(price, cfg.orderQuantity, i), cfg, i, events);
      var w' := Step(w, cfg, i, e);
      && |w.rows| <= |w'.rows|
      && forall k :: |w.rows| <= k < |w'.rows| && w'.rows[k].cid.side == Buy && w'.rows[k].cid in w'.desk.book
                     && ReportOf(w, cfg, i, e, Buy).None? ==>
           w'.rows[k].price == w'.desk.book[w'.rows[k].cid].limit
  {
    var built := FreshWorld(price, cfg.orderQuantity, i);
    assert Coherent(built, i) && Proper(built, price);
    RunKept(built, cfg, i, events);
    RunProper(built, cfg, i, events, price);
    var w := Run(built, cfg, i, events);
    StepPriced(w, cfg, i, e);
    StepProper(w, cfg, i, e, price);
    hide Run, Step, FreshWorld, ReportOf, Coherent;
  }
}
