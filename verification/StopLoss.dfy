/**
 * The grid's aggregate stop-loss: a persisted phase machine that freezes entries,
 * waits for their cancels, exits inventory and only then claims to be flat.
 * Numbers that may be NaN or infinite in the source are `Number`s here.
 */
module StopLoss {
  import opened Options
  import opened OrderState
  import opened Ticks

  datatype Number = NotFinite | Finite(value: real)

  datatype StopPhase = Inactive | Armed | Tripped | CancelingEntries | Exiting | HaltedResidual | Cleared

  function Rank(p: StopPhase): nat {
    match p
    case Inactive => 0
    case Armed => 1
    case Tripped => 2
    case CancelingEntries => 3
    case Exiting => 4
    case HaltedResidual => 5
    case Cleared => 6
  }

  const MIN_STOP_LOSS_PERCENT: real := 0.1
  const MAX_STOP_LOSS_PERCENT: real := 50.0

  predicate IsValidPercent(percent: Option<Number>) {
    percent.None? ||
    (percent.value.Finite? && MIN_STOP_LOSS_PERCENT <= percent.value.value <= MAX_STOP_LOSS_PERCENT)
  }

  predicate CanArm(percent: Option<Number>) { IsValidPercent(percent) && percent.Some? }

  function Trigger(reference: real, percent: real): real { reference * (1.0 - percent / 100.0) }

  /** At least `percent` below the reference, inclusive; never on bad data. */
  predicate EvaluateTrip(mark: Number, reference: Number, percent: Number) {
    && mark.Finite? && reference.Finite? && percent.Finite? && percent.value >= 0.0
    && mark.value <= Trigger(reference.value, percent.value)
  }

  // ----- the reference price -----

  /** One level's confirmed inventory. */
  datatype Holding = Holding(heldQty: int, entryPrice: Option<real>, price: real) {
    function Entry(): real { entryPrice.GetOr(price) }
    predicate Counts() { heldQty > 0 }
  }

  function HeldTotal(hs: seq<Holding>): int {
    if hs == [] then 0
    else HeldTotal(hs[..|hs| - 1]) + if hs[|hs| - 1].Counts() then hs[|hs| - 1].heldQty else 0
  }

  function CostOf(h: Holding): real { h.Entry() * h.heldQty as real }

  function CostTotal(hs: seq<Holding>): real {
    if hs == [] then 0.0
    else CostTotal(hs[..|hs| - 1]) + if hs[|hs| - 1].Counts() then CostOf(hs[|hs| - 1]) else 0.0
  }

  /** The weighted entry of what is held; None when flat. */
  function WeightedEntry(hs: seq<Holding>): Option<real> {
    if HeldTotal(hs) <= QTY_EPSILON then None else Some(CostTotal(hs) / HeldTotal(hs) as real)
  }

  method WeightedEntryPrice(holdings: seq<Holding>) returns (r: Option<real>)
    ensures r == WeightedEntry(holdings)
  {
    var qty, weighted := 0, 0.0;
    for k := 0 to |holdings|
      invariant qty == HeldTotal(holdings[..k]) && weighted == CostTotal(holdings[..k])
    {
      assert holdings[..k + 1][..k] == holdings[..k];
      if holdings[k].heldQty > 0 {
        qty := qty + holdings[k].heldQty;
        weighted := weighted + holdings[k].Entry() * holdings[k].heldQty as real;
      }
    }
    assert holdings[..|holdings|] == holdings;
    if qty <= QTY_EPSILON {
      return None;
    }
    return Some(weighted / qty as real);
  }

  lemma CostStep(held: int, cost: real, h: Holding, lo: real, hi: real)
    requires lo * held as real <= cost <= hi * held as real
    requires h.Counts() && lo <= h.Entry() <= hi
    ensures lo * (held + h.heldQty) as real <= cost + CostOf(h) <= hi * (held + h.heldQty) as real
  {
    var m, n, e := held as real, h.heldQty as real, h.Entry();
    MulLe(lo, e, n);
    MulLe(e, hi, n);
    assert lo * (m + n) == lo * m + lo * n;
    assert hi * (m + n) == hi * m + hi * n;
    assert (held + h.heldQty) as real == m + n;
  }

  /** A total cost between the extreme entries, times what is held. */
  lemma {:induction false} CostBetween(hs: seq<Holding>, lo: real, hi: real)
    requires forall k :: 0 <= k < |hs| && hs[k].Counts() ==> lo <= hs[k].Entry() <= hi
    ensures HeldTotal(hs) >= 0
    ensures lo * HeldTotal(hs) as real <= CostTotal(hs) <= hi * HeldTotal(hs) as real
  {
    if hs != [] {
      var init, h := hs[..|hs| - 1], hs[|hs| - 1];
      CostBetween(init, lo, hi);
      if h.Counts() {
        CostStep(HeldTotal(init), CostTotal(init), h, lo, hi);
      }
    }
  }

  lemma QuotientBetween(n: real, d: real, lo: real, hi: real)
    requires d > 0.0 && lo * d <= n <= hi * d
    ensures lo <= n / d <= hi
  {
    var x := n / d;
    Ticks.Scaled(n, d);
    if x < lo {
      MulLt(x, lo, d);
    } else if hi < x {
      MulLt(hi, x, d);
    }
  }

  /** The reference is an average: never outside the entries of what is really held. */
  lemma ReferenceIsBetweenEntries(hs: seq<Holding>, lo: real, hi: real)
    requires forall k :: 0 <= k < |hs| && hs[k].Counts() ==> lo <= hs[k].Entry() <= hi
    ensures WeightedEntry(hs).Some? ==> lo <= WeightedEntry(hs).value <= hi
  {
    CostBetween(hs, lo, hi);
    if HeldTotal(hs) > QTY_EPSILON {
      QuotientBetween(CostTotal(hs), HeldTotal(hs) as real, lo, hi);
    }
  }

  // ----- the controller -----

  /** What the exit-completion check reads. A venue quantity or tolerance the venue did not give counts as 0. */
  datatype ExitFacts = ExitFacts(
    localHeldQty: int, entriesCleared: bool, venueQty: Option<real>, venueReadable: bool, symbolShared: bool, venueTolerance: real)
  {
    predicate LocallyFlat() { localHeldQty <= QTY_EPSILON && entriesCleared }

    /** One unit in the eighth place, on the venue's own scale. */
    function Tolerance(): real { if venueTolerance > 0.00000001 then venueTolerance else 0.00000001 }

    predicate VenueFlat() { -Tolerance() <= venueQty.GetOr(0.0) <= Tolerance() }
  }

  datatype Stop = Stop(
    percent: Option<Number>, phase: StopPhase, referencePrice: Option<real>, percentAtTrip: Option<real>, trippedAt: Option<nat>)
  {
    predicate BlocksEntries() { Rank(phase) >= Rank(Tripped) }

    predicate IsActive() { BlocksEntries() && phase != Cleared }
  }

  /** Every way the controller's state can change; Restore is a restart from its own snapshot. */
  datatype Call =
    | Configure(percent: Option<Number>)
    | Monitor(mark: Number, reference: Number, now: nat)
    | BeginCancelingEntries
    | EntriesCanceled(remaining: nat)
    | BeginExiting
    | HaltResidual
    | EvaluateExitComplete(facts: ExitFacts)
    | Restore(config: Option<Number>)

  function ArmedPhase(percent: Option<Number>): StopPhase { if CanArm(percent) then Armed else Inactive }

  predicate Trips(s: Stop, mark: Number, reference: Number) {
    && s.phase == Armed && s.percent.Some? && reference.Finite? && reference.value > 0.0
    && EvaluateTrip(mark, reference, s.percent.value)
  }

  function ExitPhaseAfter(f: ExitFacts): StopPhase {
    if !f.LocallyFlat() then Exiting
    else if f.symbolShared || (f.venueReadable && f.VenueFlat()) then Cleared
    else HaltedResidual
  }

  function Apply(s: Stop, c: Call): Stop {
    match c
    case Configure(percent) =>
      if s.BlocksEntries() then s else s.(percent := percent, phase := ArmedPhase(percent))
    case Monitor(mark, reference, now) =>
      if Trips(s, mark, reference)
      then s.(phase := Tripped, referencePrice := Some(reference.value), percentAtTrip := Some(s.percent.value.value), trippedAt := Some(now))
      else s
    case BeginCancelingEntries => if s.phase == Tripped then s.(phase := CancelingEntries) else s
    case EntriesCanceled(remaining) => if s.phase == CancelingEntries && remaining == 0 then s.(phase := Exiting) else s
    case BeginExiting => if s.phase == Cleared then s else s.(phase := Exiting)
    case HaltResidual => s.(phase := HaltedResidual)
    case EvaluateExitComplete(facts) => if s.phase == Exiting then s.(phase := ExitPhaseAfter(facts)) else s
    case Restore(config) => s.(percent := config, phase := if s.BlocksEntries() then s.phase else ArmedPhase(config))
  }

  function ApplyAll(s: Stop, calls: seq<Call>): Stop {
    if calls == [] then s else Apply(ApplyAll(s, calls[..|calls| - 1]), calls[|calls| - 1])
  }

  /** A fresh controller. */
  function NewStop(percent: Option<Number>): Stop { Stop(percent, ArmedPhase(percent), None, None, None) }

  /**
   * Once entries are blocked they stay blocked, and the facts of the trip are kept, under every sequence
   * of calls and restarts.
   */
  lemma {:induction false} BlocksEntriesForGood(s: Stop, calls: seq<Call>)
    requires s.BlocksEntries()
    ensures var s' := ApplyAll(s, calls);
      && s'.BlocksEntries() && s'.referencePrice == s.referencePrice
      && s'.percentAtTrip == s.percentAtTrip && s'.trippedAt == s.trippedAt
  {
    if calls != [] {
      BlocksEntriesForGood(s, calls[..|calls| - 1]);
    }
  }

  /**
   * A state some controller can be in: it monitors exactly when its percent can arm, and a trip is
   * always explained.
   */
  ghost predicate Reachable(s: Stop) {
    && (!s.BlocksEntries() ==> s.phase == ArmedPhase(s.percent) && s.trippedAt.None?)
    && (s.phase == Armed ==> CanArm(s.percent))
    && (s.phase == Tripped || s.phase == CancelingEntries ==> s.trippedAt.Some?)
    && (s.trippedAt.Some? ==> s.referencePrice.Some? && s.referencePrice.value > 0.0 && s.percentAtTrip.Some?
                              && MIN_STOP_LOSS_PERCENT <= s.percentAtTrip.value <= MAX_STOP_LOSS_PERCENT)
  }

  lemma {:induction false} AlwaysReachable(percent: Option<Number>, calls: seq<Call>)
    ensures Reachable(ApplyAll(NewStop(percent), calls))
  {
    if calls != [] {
      AlwaysReachable(percent, calls[..|calls| - 1]);
    }
  }

  /** The mark has fallen below a positive reference by at least percent hundredths of it. */
  predicate FallenBy(mark: real, reference: real, percent: real) {
    reference > 0.0 && (reference - mark) * 100.0 >= percent * reference
  }

  lemma TriggerMeans(mark: real, reference: real, percent: real)
    requires reference > 0.0
    ensures mark <= Trigger(reference, percent) <==> FallenBy(mark, reference, percent)
  {
    assert Trigger(reference, percent) * 100.0 == reference * 100.0 - percent * reference;
  }

  /**
   * A trip happens exactly when an armed controller sees, on usable data, a mark that has fallen
   * below its reference by its percent; it is then tripped, and keeps the facts of the trip.
   */
  lemma TripsExactly(percent: Option<Number>, calls: seq<Call>, mark: Number, reference: Number, now: nat)
    ensures var s := ApplyAll(NewStop(percent), calls);
      var s' := Apply(s, Monitor(mark, reference, now));
      && (s' != s <==>
            && s.phase == Armed && CanArm(s.percent) && mark.Finite? && reference.Finite?
            && FallenBy(mark.value, reference.value, s.percent.value.value))
      && (s' != s ==> s' == Stop(s.percent, Tripped, Some(reference.value), Some(s.percent.value.value), Some(now)))
  {
    AlwaysReachable(percent, calls);
    if mark.Finite? && reference.Finite? && reference.value > 0.0 && ApplyAll(NewStop(percent), calls).phase == Armed {
      TriggerMeans(mark.value, reference.value, ApplyAll(NewStop(percent), calls).percent.value.value);
    }
  }

  /** The configured percent is a number that the mark has fallen by. */
  predicate ShouldTrip(percent: Option<Number>, mark: real, reference: real) {
    percent.Some? && percent.value.Finite? && percent.value.value >= 0.0 && FallenBy(mark, reference, percent.value.value)
  }

  lemma MonitorTrips(s: Stop, mark: real, reference: real, now: nat)
    requires s.phase == Armed
    ensures var s' := Apply(s, Monitor(Finite(mark), Finite(reference), now));
      s'.phase == if ShouldTrip(s.percent, mark, reference) then Tripped else Armed
  {
    if s.percent.Some? && s.percent.value.Finite? && reference > 0.0 {
      TriggerMeans(mark, reference, s.percent.value.value);
    }
  }

  /** No controller ever trips at a mark at or above its reference. */
  lemma NeverTripsAbove(percent: Option<Number>, calls: seq<Call>, mark: Number, reference: Number, now: nat)
    requires mark.Finite? && reference.Finite? && mark.value >= reference.value
    ensures var s := ApplyAll(NewStop(percent), calls); Apply(s, Monitor(mark, reference, now)) == s
  {
    TripsExactly(percent, calls, mark, reference, now);
    AlwaysReachable(percent, calls);
    var s := ApplyAll(NewStop(percent), calls);
    if s.phase == Armed && reference.value > 0.0 {
      MulLe(MIN_STOP_LOSS_PERCENT, s.percent.value.value, reference.value);
    }
  }

  /** Which configurations arm a controller that has not tripped: a finite percent from 0.1 to 50. */
  lemma ArmsExactly(percent: Option<Number>, calls: seq<Call>, config: Option<Number>, restarts: bool)
    requires !ApplyAll(NewStop(percent), calls).BlocksEntries()
    ensures var s' := Apply(ApplyAll(NewStop(percent), calls), if restarts then Restore(config) else Configure(config));
      && s'.percent == config
      && s'.phase == if config.Some? && config.value.Finite? && 0.1 <= config.value.value <= 50.0 then Armed else Inactive
  {
    AlwaysReachable(percent, calls);
  }

  /** A stop that blocks entries ignores a new percent altogether; a restart takes it, and changes nothing else. */
  lemma BlockedIgnoresConfig(s: Stop, config: Option<Number>)
    requires s.BlocksEntries()
    ensures Apply(s, Configure(config)) == s && Apply(s, Restore(config)) == s.(percent := config)
  {}

  /** CLEARED is entered only by the completion check, locally flat, with a shared symbol or a verified flat venue. */
  lemma ClearedExactly(s: Stop, c: Call)
    requires s.phase != Cleared
    ensures Apply(s, c).phase == Cleared <==>
      && c.EvaluateExitComplete? && s.phase == Exiting
      && c.facts.localHeldQty <= QTY_EPSILON && c.facts.entriesCleared
      && (c.facts.symbolShared || VenueShowsFlat(c.facts))
  {}

  /**
   * The phase moves back only by operator override out of HALTED_RESIDUAL or CLEARED, or by disarming
   * before any trip.
   */
  lemma RankFallsExactly(s: Stop, c: Call)
    requires Reachable(s)
    ensures Rank(Apply(s, c).phase) < Rank(s.phase) <==>
      || (c.BeginExiting? && s.phase == HaltedResidual)
      || (c.HaltResidual? && s.phase == Cleared)
      || (s.phase == Armed && (c.Configure? || c.Restore?) && !CanArm(if c.Configure? then c.percent else c.config))
  {}

  /**
   * And it moves on exactly so: a trip, the cancels begun, no cancel outstanding, a completion check over a
   * grid that is locally flat, an operator override, or arming before any trip.
   */
  lemma RankRisesExactly(s: Stop, c: Call)
    ensures Rank(Apply(s, c).phase) > Rank(s.phase) <==>
      || (c.Monitor? && Trips(s, c.mark, c.reference))
      || (c.BeginCancelingEntries? && s.phase == Tripped)
      || (c.EntriesCanceled? && s.phase == CancelingEntries && c.remaining == 0)
      || (c.EvaluateExitComplete? && s.phase == Exiting && c.facts.localHeldQty <= QTY_EPSILON && c.facts.entriesCleared)
      || (c.BeginExiting? && Rank(s.phase) < Rank(Exiting))
      || (c.HaltResidual? && Rank(s.phase) < Rank(HaltedResidual))
      || (s.phase == Inactive && (c.Configure? || c.Restore?) && CanArm(if c.Configure? then c.percent else c.config))
    ensures !c.Restore? && !c.BeginExiting? && !c.HaltResidual? ==>
      Rank(Apply(s, c).phase) <= Rank(s.phase) + 1 || c.EvaluateExitComplete?
  {}

  /** No position beyond the venue's tolerance, long or short; the tolerance is at least 1e-8. */
  predicate IsFlat(venueQty: Option<real>, tolerance: real) {
    var size := if venueQty.GetOr(0.0) < 0.0 then 0.0 - venueQty.GetOr(0.0) else venueQty.GetOr(0.0);
    size <= tolerance || size <= 0.00000001
  }

  predicate VenueShowsFlat(f: ExitFacts) { f.venueReadable && IsFlat(f.venueQty, f.venueTolerance) }

  /**
   * From a trip to the end: once the cancels leave nothing outstanding, the first completion check that
   * finds the grid locally flat ends the stop, CLEARED on a shared symbol or a venue that shows flat and
   * HALTED_RESIDUAL otherwise; every check before it leaves the exit going on.
   */
  lemma {:induction false} TripRunsToItsEnd(s: Stop, mark: Number, reference: Number, now: nat, pending: seq<ExitFacts>, f: ExitFacts)
    requires Trips(s, mark, reference) && f.localHeldQty <= QTY_EPSILON && f.entriesCleared
    requires forall k :: 0 <= k < |pending| ==> pending[k].localHeldQty > QTY_EPSILON || !pending[k].entriesCleared
    ensures var exiting := ApplyAll(s, TripCalls(mark, reference, now) + Checks(pending));
      exiting.phase == Exiting
      && Apply(exiting, EvaluateExitComplete(f)).phase == if f.symbolShared || VenueShowsFlat(f) then Cleared else HaltedResidual
  {
    var calls := TripCalls(mark, reference, now);
    if pending == [] {
      assert calls + Checks(pending) == calls == calls[..2] + [calls[2]];
      ApplyOneMore(s, calls[..2], calls[2]);
      assert calls[..2] == calls[..1] + [calls[1]];
      ApplyOneMore(s, calls[..1], calls[1]);
      assert calls[..1] == [] + [calls[0]];
      ApplyOneMore(s, [], calls[0]);
    } else {
      var n := |pending| - 1;
      TripRunsToItsEnd(s, mark, reference, now, pending[..n], f);
      assert calls + Checks(pending) == (calls + Checks(pending[..n])) + [EvaluateExitComplete(pending[n])];
      ApplyOneMore(s, calls + Checks(pending[..n]), EvaluateExitComplete(pending[n]));
    }
  }

  function TripCalls(mark: Number, reference: Number, now: nat): seq<Call> {
    [Monitor(mark, reference, now), BeginCancelingEntries, EntriesCanceled(0)]
  }

  function Checks(facts: seq<ExitFacts>): seq<Call> {
    if facts == [] then [] else Checks(facts[..|facts| - 1]) + [EvaluateExitComplete(facts[|facts| - 1])]
  }

  lemma ApplyOneMore(s: Stop, calls: seq<Call>, c: Call)
    ensures ApplyAll(s, calls + [c]) == Apply(ApplyAll(s, calls), c)
  {
    assert (calls + [c])[..|calls|] == calls;
  }

  class GridStopLossController {
    var phase: StopPhase
    var percent: Option<Number>
    var referencePrice: Option<real>
    var percentAtTrip: Option<real>
    var trippedAt: Option<nat>

    function State(): Stop
      reads this
    {
      Stop(percent, phase, referencePrice, percentAtTrip, trippedAt)
    }

    /** A restored active phase wins over the configured percent; a monitoring one is re-derived from it. */
    constructor (percent: Option<Number>, restored: Option<Stop>)
      ensures State() == if restored.Some? then Apply(restored.value, Restore(percent)) else NewStop(percent)
    {
      this.percent := percent;
      if restored.Some? {
        referencePrice := restored.value.referencePrice;
        percentAtTrip := restored.value.percentAtTrip;
        trippedAt := restored.value.trippedAt;
        if restored.value.phase == Inactive || restored.value.phase == Armed {
          phase := if CanArm(percent) then Armed else Inactive;
        } else {
          phase := restored.value.phase;
        }
      } else {
        referencePrice, percentAtTrip, trippedAt := None, None, None;
        phase := if CanArm(percent) then Armed else Inactive;
      }
    }

    method ApplyConfigure(percent: Option<Number>) returns (changed: bool)
      modifies this
      ensures State() == Apply(old(State()), Configure(percent)) && changed == (phase != old(phase))
    {
      if State().IsActive() || phase == Cleared {
        return false;
      }
      var before := phase;
      this.percent := percent;
      phase := if CanArm(percent) then Armed else Inactive;
      return phase != before;
    }

    method ApplyMonitor(mark: Number, reference: Number, now: nat) returns (changed: bool)
      modifies this
      ensures State() == Apply(old(State()), Monitor(mark, reference, now)) && changed == (phase != old(phase))
    {
      if phase != Armed || percent.None? {
        return false;
      }
      if reference.NotFinite? || reference.value <= 0.0 {
        return false;
      }
      if !EvaluateTrip(mark, reference, percent.value) {
        return false;
      }
      referencePrice := Some(reference.value);
      percentAtTrip := Some(percent.value.value);
      trippedAt := Some(now);
      phase := Tripped;
      return true;
    }

    method ApplyBeginCancelingEntries() returns (changed: bool)
      modifies this
      ensures State() == Apply(old(State()), BeginCancelingEntries) && changed == (phase != old(phase))
    {
      if phase != Tripped {
        return false;
      }
      phase := CancelingEntries;
      return true;
    }

    method ApplyEntriesCanceled(remaining: nat) returns (changed: bool)
      modifies this
      ensures State() == Apply(old(State()), EntriesCanceled(remaining)) && changed == (phase != old(phase))
    {
      if phase != CancelingEntries || remaining > 0 {
        return false;
      }
      phase := Exiting;
      return true;
    }

    method ApplyBeginExiting() returns (changed: bool)
      modifies this
      ensures State() == Apply(old(State()), BeginExiting) && changed == (phase != old(phase))
    {
      if phase == Cleared {
        return false;
      }
      var before := phase;
      phase := Exiting;
      return phase != before;
    }

    method ApplyHaltResidual() returns (changed: bool)
      modifies this
      ensures State() == Apply(old(State()), HaltResidual) && changed == (phase != old(phase))
    {
      var before := phase;
      phase := HaltedResidual;
      return phase != before;
    }

    method ApplyEvaluateExitComplete(facts: ExitFacts) returns (changed: bool)
      modifies this
      ensures State() == Apply(old(State()), EvaluateExitComplete(facts)) && changed == (phase != old(phase))
    {
      if phase != Exiting {
        return false;
      }
      if facts.localHeldQty > QTY_EPSILON || !facts.entriesCleared {
        return false;
      }
      if facts.symbolShared {
        phase := Cleared;
        return true;
      }
      if !facts.venueReadable {
        phase := HaltedResidual;
        return true;
      }
      phase := if facts.VenueFlat() then Cleared else HaltedResidual;
      return true;
    }
  }
}
