/**
 * The emergency flatten: opposite reduce-only slices, each sized and banded by the
 * last position read, until the venue itself says flat or a budget runs out.
 */
module EmergencyFlatten {
  import opened Options
  import opened OrderState
  import Ticks

  const FLATTEN_MAX_SLICES: nat := 5
  const FLATTEN_MAX_NO_PROGRESS: nat := 4
  const FLATTEN_BAND_RUNGS_BPS: seq<nat> := [100, 150, 225, 300]

  datatype FlattenOrder = FlattenOrder(side: Side, quantity: int, reduceOnly: bool, maxSlippageBps: nat)

  /** A resting book level the venue reports. */
  datatype BookLevel = BookLevel(price: real, quantity: int)

  /** Bids and asks around a mark. */
  datatype Depth = Depth(mark: real, bids: seq<BookLevel>, asks: seq<BookLevel>)

  /** One position read: late fills may land first; it may fail; it may even be false. */
  datatype ReadMove = ReadMove(late: nat, fails: bool, falsely: Option<int>)

  /** Everything one round of the loop meets. */
  datatype SliceMove = SliceMove(timeUp: bool, read: ReadMove, depth: Option<Depth>, fill: nat)

  function Abs(x: int): nat { if x >= 0 then x else -x }

  /** A signed position moved towards zero by at most k. */
  function Towards(position: int, k: nat): int {
    if position > 0 then (if k >= position then 0 else position - k)
    else if k >= -position then 0 else position + k
  }

  lemma TowardsShrinks(position: int, k: nat)
    ensures Abs(Towards(position, k)) <= Abs(position)
    ensures Towards(position, k) > 0 ==> position > 0
    ensures Towards(position, k) < 0 ==> position < 0
  {}

  /**
   * The position after k of an order executed. A reduce-only order is capped by the position it
   * opposes and rejected by any other; without the flag it opens or flips whatever is left.
   */
  function Executed(position: int, order: FlattenOrder, k: nat): int {
    if !order.reduceOnly then (if order.side == Sell then position - k else position + k)
    else if position != 0 && (order.side == Sell) == (position > 0) then Towards(position, k)
    else position
  }

  /** A reduce-only order never grows or flips a position, however stale the read it was sized by. */
  lemma ReduceOnlyShrinks(position: int, order: FlattenOrder, k: nat)
    requires order.reduceOnly
    ensures OnlyShrank(position, Executed(position, order, k))
  {}

  /** The flag is what does it: without it, a slice larger than what is left flips the position. */
  lemma StaleSliceFlips(position: int, k: nat)
    requires 0 < position < k
    ensures !OnlyShrank(position, Executed(position, FlattenOrder(Sell, k, false, 100), k))
  {}

  /** The account at a venue that honours reduce-only and has no other trader. */
  class Account {
    var position: int
    var orders: seq<FlattenOrder>

    constructor (position: int)
      ensures this.position == position && orders == []
    {
      this.position := position;
      orders := [];
    }

    /** The venue's own view; None stands for a failed read. */
    method ReadPosition(m: ReadMove) returns (seen: Option<int>)
      modifies this`position
      ensures position == Towards(old(position), if orders == [] then 0 else m.late)
      ensures seen == if m.fails then None else if m.falsely.Some? then m.falsely else Some(position)
    {
      if |orders| > 0 {
        position := Towards(position, m.late);
      }
      seen := if m.fails then None else if m.falsely.Some? then m.falsely else Some(position);
    }

    /** A market order executes up to its size. */
    method CreateOrder(order: FlattenOrder, fill: nat)
      requires order.quantity > 0
      modifies this
      ensures orders == old(orders) + [order]
      ensures position == Executed(old(position), order, if fill < order.quantity then fill else order.quantity)
    {
      orders := orders + [order];
      var executed := if fill < order.quantity then fill else order.quantity;
      if order.reduceOnly {
        if position != 0 && (order.side == Sell) == (position > 0) {
          position := Towards(position, executed);
        }
      } else {
        position := if order.side == Sell then position - executed else position + executed;
      }
    }
  }

  /** Resting quantity inside a crossing band. */
  function Fillable(book: seq<BookLevel>, side: Side, edge: real): int {
    if book == [] then 0
    else
      var last := book[|book| - 1];
      Fillable(book[..|book| - 1], side, edge)
      + if last.quantity > 0 && (if side == Sell then last.price >= edge else last.price <= edge) then last.quantity else 0
  }

  method FillableInBand(book: seq<BookLevel>, side: Side, edge: real) returns (fillable: int)
    ensures fillable == Fillable(book, side, edge) && fillable >= 0
  {
    fillable := 0;
    for k := 0 to |book|
      invariant fillable == Fillable(book[..k], side, edge) && fillable >= 0
    {
      assert book[..k + 1][..k] == book[..k];
      var inBand := if side == Sell then book[k].price >= edge else book[k].price <= edge;
      if inBand && book[k].quantity > 0 {
        fillable := fillable + book[k].quantity;
      }
    }
    assert book[..|book|] == book;
  }

  function BandFor(noProgress: nat): nat {
    FLATTEN_BAND_RUNGS_BPS[if noProgress < 3 then noProgress else 3]
  }

  /** The worst price a slice may cross to. */
  function Edge(mark: real, side: Side, bandBps: nat): real {
    var band := bandBps as real / 10000.0;
    if side == Sell then mark * (1.0 - band) else mark * (1.0 + band)
  }

  /** What rests inside the band the slice may cross, where the venue reports a book. */
  function InBand(side: Side, bandBps: nat, depth: Option<Depth>): int {
    if depth.None? || depth.value.mark <= 0.0 then 0
    else
      Fillable(if side == Sell then depth.value.bids else depth.value.asks, side, Edge(depth.value.mark, side, bandBps))
  }

  lemma EdgeParts(mark: real, side: Side, bandBps: nat)
    ensures side == Sell ==> (mark - Edge(mark, side, bandBps)) * 10000.0 == mark * bandBps as real
    ensures side == Buy ==> (Edge(mark, side, bandBps) - mark) * 10000.0 == mark * bandBps as real
  {
    var band := bandBps as real / 10000.0;
    assert (mark * band) * 10000.0 == mark * bandBps as real;
    assert mark * (1.0 - band) == mark - mark * band && mark * (1.0 + band) == mark + mark * band;
  }

  /** A resting level is counted exactly when it costs at most the band's basis points of the mark to cross to. */
  lemma InBandExactly(side: Side, bandBps: nat, mark: real, level: BookLevel, others: seq<BookLevel>)
    requires mark > 0.0 && level.quantity > 0
    ensures var depth := if side == Sell then Depth(mark, [level], others) else Depth(mark, others, [level]);
      var cost := if side == Sell then mark - level.price else level.price - mark;
      InBand(side, bandBps, Some(depth)) == if cost * 10000.0 <= mark * bandBps as real then level.quantity else 0
  {
    EdgeParts(mark, side, bandBps);
    var edge := Edge(mark, side, bandBps);
    assert [level][..0] == [];
    assert Fillable([level], side, edge)
        == if (if side == Sell then level.price >= edge else level.price <= edge) then level.quantity else 0;
  }

  /** The rungs of the ladder widen, up to the last. */
  lemma RungsWiden(stalls: nat)
    ensures BandFor(0) == 100 && BandFor(stalls) <= BandFor(stalls + 1) <= 300
    ensures stalls + 1 < FLATTEN_MAX_NO_PROGRESS ==> BandFor(stalls) < BandFor(stalls + 1)
    ensures stalls + 1 >= FLATTEN_MAX_NO_PROGRESS ==> BandFor(stalls) == 300
  {}

  /** A wider band reaches no less of the book. */
  lemma {:induction false} WiderReachesMore(book: seq<BookLevel>, side: Side, near: real, far: real)
    requires if side == Sell then far <= near else near <= far
    ensures Fillable(book, side, near) <= Fillable(book, side, far)
  {
    if book != [] {
      WiderReachesMore(book[..|book| - 1], side, near, far);
    }
  }

  lemma RungsReachMore(side: Side, narrow: nat, wide: nat, depth: Option<Depth>)
    requires narrow <= wide
    ensures InBand(side, narrow, depth) <= InBand(side, wide, depth)
  {
    if depth.Some? && depth.value.mark > 0.0 {
      var mark := depth.value.mark;
      EdgeParts(mark, side, narrow);
      EdgeParts(mark, side, wide);
      Ticks.MulLe(narrow as real, wide as real, mark);
      WiderReachesMore(if side == Sell then depth.value.bids else depth.value.asks, side,
                       Edge(mark, side, narrow), Edge(mark, side, wide));
    }
  }

  /**
   * A slice is clipped to the book exactly when the book binds below the last rung, which always tries
   * the full size.
   */
  method SizeSlice(qty: nat, side: Side, bandBps: nat, depth: Option<Depth>) returns (sliceQty: nat)
    requires qty > 0
    ensures 0 < sliceQty <= qty
    ensures sliceQty < qty <==> bandBps != 300 && 0 < InBand(side, bandBps, depth) < qty
    ensures sliceQty < qty ==> sliceQty == InBand(side, bandBps, depth)
  {
    sliceQty := qty;
    if bandBps != 300 && depth.Some? && depth.value.mark > 0.0 {
      var edge := Edge(depth.value.mark, side, bandBps);
      var fillable := FillableInBand(if side == Sell then depth.value.bids else depth.value.asks, side, edge);
      assert fillable == InBand(side, bandBps, depth);
      if 0 < fillable < sliceQty {
        sliceQty := fillable;
      }
    }
  }

  /** Reads in a row, up to the last one, that showed no smaller position than the read before. */
  function Stalls(seen: seq<int>): nat {
    if |seen| <= 1 then 0
    else if Abs(seen[|seen| - 1]) < Abs(seen[|seen| - 2]) then 0
    else Stalls(seen[..|seen| - 1]) + 1
  }

  lemma StallsAppend(seen: seq<int>, x: int)
    ensures Stalls(seen + [x])
         == if seen == [] || Abs(x) < Abs(seen[|seen| - 1]) then 0 else Stalls(seen) + 1
  {
    assert (seen + [x])[..|seen|] == seen;
  }

  /** The order's band is the rung that the reads up to its own have reached. */
  predicate OnRung(order: FlattenOrder, seen: seq<int>) {
    Stalls(seen) < FLATTEN_MAX_NO_PROGRESS && order.maxSlippageBps == BandFor(Stalls(seen))
  }

  /** One rung wider for every read without progress. */
  predicate Climbs(orders: seq<FlattenOrder>, answered: seq<int>)
    requires |orders| == |answered|
  {
    forall k :: 0 <= k < |orders| ==> OnRung(orders[k], answered[..k + 1])
  }

  lemma ClimbsOn(orders: seq<FlattenOrder>, answered: seq<int>, order: FlattenOrder, seen: int)
    requires |orders| == |answered| && Climbs(orders, answered)
    requires Stalls(answered + [seen]) < FLATTEN_MAX_NO_PROGRESS
    requires order.maxSlippageBps == BandFor(Stalls(answered + [seen]))
    ensures Climbs(orders + [order], answered + [seen])
  {
    assert OnRung(order, answered + [seen]);
    hide OnRung;
    var all := answered + [seen];
    forall k | 0 <= k < |orders| + 1 ensures OnRung((orders + [order])[k], all[..k + 1]) {
      if k == |orders| {
        assert all[..k + 1] == all;
      } else {
        assert all[..k + 1] == answered[..k + 1];
      }
    }
  }

  /** A slice answers the read before it: opposite, positive, no larger, reduce-only, inside the ladder. */
  predicate Answers(order: FlattenOrder, seen: int) {
    && seen != 0 && order.side == (if seen > 0 then Sell else Buy)
    && 0 < order.quantity <= Abs(seen) && order.reduceOnly && order.maxSlippageBps <= 300
    && (order.maxSlippageBps == 300 ==> order.quantity == Abs(seen))
  }

  /** A magnitude that never grew and a sign that never flipped. */
  predicate OnlyShrank(before: int, after: int) {
    Abs(after) <= Abs(before) && (after > 0 ==> before > 0) && (after < 0 ==> before < 0)
  }

  /** Reads that succeed say what is there. */
  predicate Truthful(moves: seq<SliceMove>, last: ReadMove) {
    last.falsely.None? && forall k :: 0 <= k < |moves| ==> moves[k].read.falsely.None?
  }

  datatype Outcome = Clean | ReadFailed | StillOpen(residual: nat) | SkippedOpen(residual: nat)

  /** A sibling owns the position: read and report it, touch nothing. */
  method ReportShared(account: Account, read: ReadMove) returns (outcome: Outcome, ghost lastRead: Option<int>)
    modifies account`position
    ensures account.orders == old(account.orders) && OnlyShrank(old(account.position), account.position)
    ensures lastRead == if read.fails then None else if read.falsely.Some? then read.falsely else Some(account.position)
    ensures outcome == Clean <==> lastRead == Some(0)
    ensures outcome == ReadFailed <==> lastRead.None?
    ensures lastRead.Some? && lastRead != Some(0) ==> outcome == SkippedOpen(Abs(lastRead.value))
  {
    TowardsShrinks(account.position, read.late);
    var seen := account.ReadPosition(read);
    lastRead := seen;
    if seen.None? {
      return ReadFailed, lastRead;
    }
    if seen.value == 0 {
      return Clean, lastRead;
    }
    return SkippedOpen(Abs(seen.value)), lastRead;
  }

  predicate AllAnswer(orders: seq<FlattenOrder>, answered: seq<int>)
    requires |orders| == |answered|
  {
    forall k :: 0 <= k < |answered| ==> Answers(orders[k], answered[k])
  }

  lemma AnswersOn(orders: seq<FlattenOrder>, answered: seq<int>, order: FlattenOrder, seen: int)
    requires |orders| == |answered| && AllAnswer(orders, answered) && Answers(order, seen)
    ensures AllAnswer(orders + [order], answered + [seen])
  {}

  lemma NothingSent(position: int)
    ensures AllAnswer([], []) && Climbs([], []) && Stalls([]) == 0 && OnlyShrank(position, position)
  {}

  lemma ShrankOn(a: int, b: int, c: int)
    requires OnlyShrank(a, b) && OnlyShrank(b, c)
    ensures OnlyShrank(a, c)
  {}

  /** The position after a read: late fills of earlier slices may land first. */
  function AfterLate(position: int, sent: nat, m: ReadMove): int {
    if sent == 0 then position else Towards(position, m.late)
  }

  /** What a read answers, if it does not fail. */
  function ReadOf(position: int, sent: nat, m: ReadMove): Option<int> {
    if m.fails then None else if m.falsely.Some? then m.falsely else Some(AfterLate(position, sent, m))
  }

  /** The slice takes the book inside its band where that is the smaller, except on the last rung. */
  predicate Sized(order: FlattenOrder, seen: int, depth: Option<Depth>) {
    var rests := InBand(order.side, order.maxSlippageBps, depth);
    order.quantity == if order.maxSlippageBps != 300 && 0 < rests < Abs(seen) then rests else Abs(seen)
  }

  /** The position once a slice has executed what the venue lets it. */
  function AfterSlice(position: int, order: FlattenOrder, fill: nat): int
    requires order.quantity > 0
  {
    Executed(position, order, if fill < order.quantity then fill else order.quantity)
  }

  /** Round k of the loop: in time, its read answered, its slice sized to the book and executed. */
  predicate Round(k: nat, m: SliceMove, before: int, seen: int, order: FlattenOrder, after: int) {
    && !m.timeUp && ReadOf(before, k, m.read) == Some(seen) && Sized(order, seen, m.depth) && order.quantity > 0
    && after == AfterSlice(AfterLate(before, k, m.read), order, m.fill)
  }

  /** The rounds that sent an order, from the position each of them met. */
  ghost predicate Traced(start: int, moves: seq<SliceMove>, orders: seq<FlattenOrder>, answered: seq<int>, positions: seq<int>) {
    && |orders| == |answered| <= |moves| && |positions| == |orders| + 1 && positions[0] == start
    && forall k :: 0 <= k < |orders| ==> Round(k, moves[k], positions[k], answered[k], orders[k], positions[k + 1])
  }

  /** Why no further order went out: the budget, the clock, a failed read, a flat one, or too many reads without progress. */
  predicate Stopped(moves: seq<SliceMove>, answered: seq<int>, at: int)
    requires |answered| <= |moves|
  {
    var n := |answered|;
    n < |moves| ==>
      || moves[n].timeUp
      || (var seen := ReadOf(at, n, moves[n].read);
          seen.None? || seen.value == 0 || Stalls(answered + [seen.value]) >= FLATTEN_MAX_NO_PROGRESS)
  }

  /** The read that settles the outcome: the one that failed or was flat, else the final one. */
  predicate Ends(moves: seq<SliceMove>, last: ReadMove, sent: nat, at: int, lastRead: Option<int>, final: int)
    requires sent <= |moves|
  {
    var more := sent < |moves| && !moves[sent].timeUp;
    if more && (ReadOf(at, sent, moves[sent].read).None? || ReadOf(at, sent, moves[sent].read) == Some(0)) then
      lastRead == ReadOf(at, sent, moves[sent].read) && final == AfterLate(at, sent, moves[sent].read)
    else
      var at' := if more then AfterLate(at, sent, moves[sent].read) else at;
      lastRead == ReadOf(at', sent, last) && final == AfterLate(at', sent, last)
  }

  lemma TracedOn(start: int, moves: seq<SliceMove>, orders: seq<FlattenOrder>, answered: seq<int>, positions: seq<int>,
                 order: FlattenOrder, seen: int, after: int)
    requires Traced(start, moves, orders, answered, positions) && |orders| < |moves|
    requires Round(|orders|, moves[|orders|], positions[|orders|], seen, order, after)
    ensures Traced(start, moves, orders + [order], answered + [seen], positions + [after])
  {
    hide Round;
    var n := |orders|;
    forall k | 0 <= k < n + 1
      ensures Round(k, moves[k], (positions + [after])[k], (answered + [seen])[k], (orders + [order])[k], (positions + [after])[k + 1])
    {
      if k < n {
        assert Round(k, moves[k], positions[k], answered[k], orders[k], positions[k + 1]);
      }
    }
  }

  lemma RoundIs(k: nat, m: SliceMove, before: int, seen: int, order: FlattenOrder, after: int)
    requires !m.timeUp && ReadOf(before, k, m.read) == Some(seen) && Answers(order, seen) && Sized(order, seen, m.depth)
    requires after == (assert order.quantity > 0; AfterSlice(AfterLate(before, k, m.read), order, m.fill))
    ensures Round(k, m, before, seen, order, after)
  {}

  function OutcomeOf(lastRead: Option<int>): Outcome {
    match lastRead
    case None => ReadFailed
    case Some(x) => if x == 0 then Clean else StillOpen(Abs(x))
  }

  /** A round that nothing disturbs: in time, read truthfully, filled whole, with no late fill. */
  predicate Undisturbed(m: SliceMove, qty: nat) {
    !m.timeUp && Honest(m.read) && m.read.late == 0 && m.fill >= qty
  }

  predicate Honest(read: ReadMove) { !read.fails && read.falsely.None? }

  /** The first rung's book is absent or covers the position. */
  predicate Covered(position: int, depth: Option<Depth>) {
    var rests := InBand(if position > 0 then Sell else Buy, 100, depth);
    rests <= 0 || rests >= Abs(position)
  }

  lemma RoundAt(start: int, moves: seq<SliceMove>, orders: seq<FlattenOrder>, answered: seq<int>, positions: seq<int>, k: nat)
    requires Traced(start, moves, orders, answered, positions) && AllAnswer(orders, answered) && Climbs(orders, answered)
    ensures k < |orders| ==>
      && Round(k, moves[k], positions[k], answered[k], orders[k], positions[k + 1])
      && Answers(orders[k], answered[k]) && OnRung(orders[k], answered[..k + 1])
  {}

  /** With nothing in its way the first slice takes the whole position, and the next read ends the loop. */
  lemma OneSliceIsEnough(start: int, moves: seq<SliceMove>, last: ReadMove, orders: seq<FlattenOrder>, answered: seq<int>,
                         positions: seq<int>, lastRead: Option<int>, final: int)
    requires |moves| == FLATTEN_MAX_SLICES && Traced(start, moves, orders, answered, positions)
    requires AllAnswer(orders, answered) && Climbs(orders, answered)
    requires Stopped(moves, answered, positions[|answered|]) && Ends(moves, last, |orders|, positions[|orders|], lastRead, final)
    requires Undisturbed(moves[0], Abs(start)) && Undisturbed(moves[1], Abs(start)) && Covered(start, moves[0].depth)
    ensures lastRead == Some(0) && final == 0
    ensures if start == 0 then orders == [] else |orders| == 1 && orders[0].quantity == Abs(start)
  {
    RoundAt(start, moves, orders, answered, positions, 0);
    RoundAt(start, moves, orders, answered, positions, 1);
    assert ReadOf(start, 0, moves[0].read) == Some(start);
    if start != 0 {
      assert Stalls([start]) == 0 && [] + [start] == [start];
      if |orders| >= 1 {
        assert answered[0] == start && answered[..1] == [start];
        assert orders[0].maxSlippageBps == 100 && orders[0].quantity == Abs(start);
        assert positions[1] == 0;
      }
    }
  }

  /** One verified read. */
  method Observe(account: Account, read: ReadMove) returns (seen: Option<int>)
    modifies account`position
    ensures OnlyShrank(old(account.position), account.position)
    ensures seen == ReadOf(old(account.position), |account.orders|, read)
    ensures account.position == AfterLate(old(account.position), |account.orders|, read)
  {
    TowardsShrinks(account.position, read.late);
    seen := account.ReadPosition(read);
  }

  /** One slice against the position just read. */
  method SendSlice(account: Account, seen: int, bandBps: nat, m: SliceMove) returns (order: FlattenOrder)
    requires seen != 0 && bandBps <= 300
    modifies account
    ensures account.orders == old(account.orders) + [order] && Answers(order, seen) && order.maxSlippageBps == bandBps
    ensures OnlyShrank(old(account.position), account.position)
    ensures Sized(order, seen, m.depth) && account.position == AfterSlice(old(account.position), order, m.fill)
  {
    var side := if seen > 0 then Sell else Buy;
    var sliceQty := SizeSlice(Abs(seen), side, bandBps, m.depth);
    order := FlattenOrder(side, sliceQty, true, bandBps);
    ReduceOnlyShrinks(account.position, order, if m.fill < sliceQty then m.fill else sliceQty);
    account.CreateOrder(order, m.fill);
  }

  /**
   * Flatten slice by slice. At most five orders go out, each answering the read just before it
   * at the rung of the ladder that the reads without progress have reached, and fewer only for one
   * of the reasons of `Stopped`; at a venue that honours reduce-only the position only shrinks,
   * whatever it answers; and the outcome is what the last read said. When nothing gets in the way
   * one slice does it.
   */
  method ClosePosition(account: Account, moves: seq<SliceMove>, last: ReadMove)
    returns (outcome: Outcome, ghost answered: seq<int>, ghost lastRead: Option<int>, ghost positions: seq<int>)
    requires account.orders == [] && |moves| == FLATTEN_MAX_SLICES
    modifies account
    ensures |account.orders| <= FLATTEN_MAX_SLICES && |answered| == |account.orders|
    ensures AllAnswer(account.orders, answered) && Climbs(account.orders, answered)
    ensures Traced(old(account.position), moves, account.orders, answered, positions)
    ensures Stopped(moves, answered, positions[|answered|])
    ensures Ends(moves, last, |account.orders|, positions[|account.orders|], lastRead, account.position)
    ensures OnlyShrank(old(account.position), account.position)
    ensures outcome == Clean <==> lastRead == Some(0)
    ensures outcome == ReadFailed <==> lastRead.None?
    ensures lastRead.Some? && lastRead != Some(0) ==> outcome == StillOpen(Abs(lastRead.value))
    ensures Truthful(moves, last) && lastRead.Some? ==> lastRead.value == account.position
    ensures var start := old(account.position);
      Undisturbed(moves[0], Abs(start)) && Undisturbed(moves[1], Abs(start)) && Covered(start, moves[0].depth) ==>
        && outcome == Clean && account.position == 0
        && if start == 0 then account.orders == [] else |account.orders| == 1 && account.orders[0].quantity == Abs(start)
  {
    outcome, answered, lastRead, positions := SendSlices(account, moves, last);
    ghost var start := old(account.position);
    if Undisturbed(moves[0], Abs(start)) && Undisturbed(moves[1], Abs(start)) && Covered(start, moves[0].depth) {
      OneSliceIsEnough(start, moves, last, account.orders, answered, positions, lastRead, account.position);
    }
  }

  method SendSlices(account: Account, moves: seq<SliceMove>, last: ReadMove)
    returns (outcome: Outcome, ghost answered: seq<int>, ghost lastRead: Option<int>, ghost positions: seq<int>)
    requires account.orders == [] && |moves| == FLATTEN_MAX_SLICES
    modifies account
    ensures |account.orders| <= FLATTEN_MAX_SLICES && |answered| == |account.orders|
    ensures AllAnswer(account.orders, answered) && Climbs(account.orders, answered)
    ensures Traced(old(account.position), moves, account.orders, answered, positions)
    ensures Stopped(moves, answered, positions[|answered|])
    ensures Ends(moves, last, |account.orders|, positions[|account.orders|], lastRead, account.position)
    ensures OnlyShrank(old(account.position), account.position)
    ensures outcome == OutcomeOf(lastRead)
  {
    hide Stalls, OnRung, Answers, OnlyShrank, AllAnswer, Climbs, Sized, AfterSlice, Round;
    NothingSent(account.position);
    var previousQty: Option<nat> := None;
    var noProgress: nat := 0;
    answered := [];
    positions := [account.position];
    var slice := 0;
    while slice < FLATTEN_MAX_SLICES
      invariant slice <= FLATTEN_MAX_SLICES && |answered| == |account.orders| == slice
      invariant AllAnswer(account.orders, answered) && Climbs(account.orders, answered)
      invariant Traced(old(account.position), moves, account.orders, answered, positions)
      invariant account.position == positions[slice]
      invariant noProgress == Stalls(answered)
      invariant previousQty == if answered == [] then None else Some(Abs(answered[|answered| - 1]))
      invariant OnlyShrank(old(account.position), account.position)
      decreases FLATTEN_MAX_SLICES - slice
    {
      var m := moves[slice];
      if m.timeUp {
        break;
      }
      ghost var before := account.position;
      var seen := Observe(account, m.read);
      lastRead := seen;
      ShrankOn(old(account.position), before, account.position);
      if seen.None? {
        return ReadFailed, answered, lastRead, positions;
      }
      if seen.value == 0 {
        return Clean, answered, lastRead, positions;
      }
      var qty := Abs(seen.value);
      if previousQty.Some? {
        noProgress := if qty < previousQty.value then 0 else noProgress + 1;
      }
      previousQty := Some(qty);
      StallsAppend(answered, seen.value);
      if noProgress >= FLATTEN_MAX_NO_PROGRESS {
        break;
      }
      before := account.position;
      ghost var orders := account.orders;
      var order := SendSlice(account, seen.value, BandFor(noProgress), m);
      ShrankOn(old(account.position), before, account.position);
      AnswersOn(orders, answered, order, seen.value);
      ClimbsOn(orders, answered, order, seen.value);
      RoundIs(slice, m, positions[slice], seen.value, order, account.position);
      TracedOn(old(account.position), moves, orders, answered, positions, order, seen.value, account.position);
      answered := answered + [seen.value];
      positions := positions + [account.position];
      slice := slice + 1;
    }
    ghost var before := account.position;
    var seen := Observe(account, last);
    lastRead := seen;
    ShrankOn(old(account.position), before, account.position);
    if seen.None? {
      return ReadFailed, answered, lastRead, positions;
    }
    if seen.value == 0 {
      return Clean, answered, lastRead, positions;
    }
    return StillOpen(Abs(seen.value)), answered, lastRead, positions;
  }
}
