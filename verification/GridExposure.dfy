/**
 * The shared exposure calculator the backend recomputes a grid with, and how far its
 * unquantized lines can be from the lines the engine really built.
 */
module GridExposure {
  import opened Ticks
  import opened GridGeometry
  import PQ = PriceQuantization

  /** The calculator's own band arithmetic. */
  function SharedBand(baseline: real, rangePercent: real): Band {
    var halfBand := baseline * rangePercent / 100.0 / 2.0;
    Band(baseline - halfBand, baseline + halfBand)
  }

  /** Both sides build the same band. */
  lemma SameBand(baseline: real, rangePercent: real)
    ensures SharedBand(baseline, rangePercent) == BandOf(baseline, rangePercent)
  {
    assert baseline * (rangePercent / 100.0) == baseline * rangePercent / 100.0;
  }

  function SharedSpacing(b: Band, gridSize: nat): real
    requires gridSize > 0
  {
    (b.highest - b.lowest) / gridSize as real
  }

  function SharedLine(b: Band, gridSize: nat, i: nat): real
    requires gridSize > 0
  {
    b.lowest + i as real * SharedSpacing(b, gridSize)
  }

  method ComputeGridLevelPrices(baseline: real, gridSize: nat, rangePercent: real) returns (prices: seq<real>)
    requires gridSize >= 1
    ensures |prices| == gridSize + 1
    ensures forall i :: 0 <= i <= gridSize ==> prices[i] == SharedLine(BandOf(baseline, rangePercent), gridSize, i)
  {
    SameBand(baseline, rangePercent);
    var b := SharedBand(baseline, rangePercent);
    var spacing := (b.highest - b.lowest) / gridSize as real;
    prices := [];
    for i := 0 to gridSize + 1
      invariant |prices| == i && forall j :: 0 <= j < i ==> prices[j] == SharedLine(b, gridSize, j)
    {
      prices := prices + [b.lowest + i as real * spacing];
    }
  }

  // ----- line by line -----

  /** Weights of an interior point: an upper share below t and a lower share at most zero. */
  lemma WeightedBelow(u: real, v: real, a: real, b: real, t: real)
    requires a >= 0.0 && b >= 0.0 && a + b > 0.0 && t > 0.0 && u < t && v <= 0.0
    ensures u * a + v * b < t * (a + b)
  {
    MulLe(v, 0.0, b);
    assert t * (a + b) == t * a + t * b;
    if a > 0.0 {
      MulLt(u, t, a);
      MulLe(0.0, t, b);
    } else {
      MulLt(0.0, t, b);
    }
  }

  lemma Unscale(x: real, y: real, n: real)
    requires n > 0.0 && x * n < y * n
    ensures x < y
  {
    if y <= x { MulLe(y, x, n); }
  }

  /** Even steps between two pairs of edges that are less than a tick apart stay less than a tick apart. */
  lemma BetweenEdges(u: real, v: real, i: real, n: real, t: real, diff: real)
    requires 0.0 <= i <= n && n > 0.0 && t > 0.0
    requires 0.0 <= u < t && -t < v <= 0.0
    requires diff * n == u * (n - i) + v * i
    ensures -t < diff < t
  {
    WeightedBelow(u, v, n - i, i, t);
    WeightedBelow(-v, -u, i, n - i, t);
    Unscale(diff, t, n);
    assert (-diff) * n == (-v) * i + (-u) * (n - i);
    Unscale(-diff, t, n);
  }

  /** Difference of two evenly stepped lines, scaled by the number of steps. */
  lemma StepDifference(lo: real, hi: real, bottom: real, top: real, n: real, i: real, s: real, s': real)
    requires n > 0.0 && s * n == hi - lo && s' * n == top - bottom
    ensures ((bottom + i * s') - (lo + i * s)) * n == (bottom - lo) * (n - i) + (top - hi) * i
  {
    assert (i * s') * n == i * (s' * n) && (i * s) * n == i * (s * n);
    assert ((bottom + i * s') - (lo + i * s)) * n == bottom * n + (i * s') * n - lo * n - (i * s) * n;
    assert i * (top - bottom) == i * top - i * bottom && i * (hi - lo) == i * hi - i * lo;
  }

  lemma RawGap(lo: real, hi: real, bottom: real, top: real, n: real, i: real, s: real, s': real, t: real, raw: real,
               shared: real)
    requires n > 0.0 && 0.0 <= i <= n && t > 0.0 && raw == bottom + i * s' && shared == lo + i * s && s * n == hi - lo
    requires s' * n == top - bottom
    requires lo <= bottom < lo + t && hi - t < top <= hi
    ensures -t < raw - shared < t
  {
    StepDifference(lo, hi, bottom, top, n, i, s, s');
    BetweenEdges(bottom - lo, top - hi, i, n, t, raw - shared);
  }

  /** The engine's line before quantization. */
  function RawEngineLine(b: Band, gridSize: nat, tick: real, i: nat): real
    requires tick > 0.0 && gridSize > 0
  {
    QuantUp(b.lowest, tick) + i as real * ((QuantDown(b.highest, tick) - QuantUp(b.lowest, tick)) / gridSize as real)
  }

  lemma RawDifference(b: Band, gridSize: nat, tick: real, i: nat)
    requires tick > 0.0 && gridSize >= 1 && i <= gridSize
    ensures -tick < RawEngineLine(b, gridSize, tick, i) - SharedLine(b, gridSize, i) < tick
  {
    var bottom, top := QuantUp(b.lowest, tick), QuantDown(b.highest, tick);
    var s, s' := SharedSpacing(b, gridSize), (top - bottom) / gridSize as real;
    SpacingTimes(b.highest, b.lowest, gridSize);
    SpacingTimes(top, bottom, gridSize);
    EdgesNear(b, tick);
    LinesAre(b, gridSize, tick, i, bottom, s, s');
    hide QuantUp, QuantDown, SharedSpacing, RawEngineLine, SharedLine;
    RawGap(b.lowest, b.highest, bottom, top, gridSize as real, i as real, s, s', tick,
           RawEngineLine(b, gridSize, tick, i), SharedLine(b, gridSize, i));
  }

  lemma EdgesNear(b: Band, tick: real)
    requires tick > 0.0
    ensures b.lowest <= QuantUp(b.lowest, tick) < b.lowest + tick
    ensures b.highest - tick < QuantDown(b.highest, tick) <= b.highest
  {
    UpIsLeast(b.lowest, tick);
    DownIsGreatest(b.highest, tick);
    hide QuantUp, QuantDown;
  }

  lemma LinesAre(b: Band, gridSize: nat, tick: real, i: nat, bottom: real, s: real, s': real)
    requires tick > 0.0 && gridSize >= 1 && bottom == QuantUp(b.lowest, tick) && s == SharedSpacing(b, gridSize)
    requires s' == (QuantDown(b.highest, tick) - bottom) / gridSize as real
    ensures RawEngineLine(b, gridSize, tick, i) == bottom + i as real * s'
    ensures SharedLine(b, gridSize, i) == b.lowest + i as real * s
  {
    hide QuantUp, QuantDown;
  }

  /**
   * Engine line minus shared line: strictly between minus two ticks and plus one tick, for every line of
   * every accepted grid.
   */
  lemma LineDifference(b: Band, gridSize: nat, tick: real, i: nat)
    requires tick > 0.0 && gridSize >= 1 && WideEnough(b, gridSize, tick) && i <= gridSize
    ensures -2.0 * tick < Line(b, gridSize, tick, i) - SharedLine(b, gridSize, i) < tick
  {
    hide Line, SharedLine, RawEngineLine;
    RawDifference(b, gridSize, tick, i);
    LineNearRaw(b, gridSize, tick, i);
  }

  lemma LineNearRaw(b: Band, gridSize: nat, tick: real, i: nat)
    requires tick > 0.0 && gridSize >= 1 && WideEnough(b, gridSize, tick) && i <= gridSize
    ensures RawEngineLine(b, gridSize, tick, i) - tick < Line(b, gridSize, tick, i) <= RawEngineLine(b, gridSize, tick, i)
  {
    hide Line;
    var bottom, top := QuantUp(b.lowest, tick), QuantDown(b.highest, tick);
    SpacingTimes(top, bottom, gridSize);
    LineBelowRaw(b, gridSize, tick, i, bottom, top, (top - bottom) / gridSize as real,
      RawEngineLine(b, gridSize, tick, i));
  }

  lemma LineBelowRaw(b: Band, gridSize: nat, tick: real, i: nat, bottom: real, top: real, spacing: real, raw: real)
    requires tick > 0.0 && gridSize > 0 && TopTick(b, tick) >= BottomTick(b, tick)
    requires bottom == QuantUp(b.lowest, tick) && top == QuantDown(b.highest, tick)
    requires spacing * gridSize as real == top - bottom
    requires raw == bottom + i as real * spacing
    ensures raw - tick < Line(b, gridSize, tick, i) <= raw
  {
    RawIsLine(b, gridSize, tick, i, bottom, top, spacing);
    DownIsGreatest(raw, tick);
  }

  // ----- when a line is less than a tick off -----

  /** What snapping the lower edge up, and the upper edge down, takes off the band. */
  function LowerGap(b: Band, tick: real): real
    requires tick > 0.0
  {
    QuantUp(b.lowest, tick) - b.lowest
  }

  function UpperGap(b: Band, tick: real): real
    requires tick > 0.0
  {
    b.highest - QuantDown(b.highest, tick)
  }

  /** What rounding line i down to a tick drops, in parts of a tick of which there are gridSize. */
  function Dropped(b: Band, gridSize: nat, tick: real, i: nat): nat
    requires tick > 0.0 && gridSize >= 1 && TopTick(b, tick) >= BottomTick(b, tick)
  {
    i * (TopTick(b, tick) - BottomTick(b, tick)) % gridSize
  }

  lemma GapAlgebra(lo: real, hi: real, bottom: real, top: real, n: real, i: real, q: real, width: real, r: real,
                   tick: real, line: real, shared: real, spacing: real)
    requires line == bottom + q * tick && q * n == i * width - r && width * tick == top - bottom
    requires spacing * n == hi - lo && shared == lo + i * spacing
    ensures (line - shared) * n == (bottom - lo) * (n - i) - (hi - top) * i - r * tick
  {
    assert (q * tick) * n == (q * n) * tick;
    assert (i * width - r) * tick == i * (width * tick) - r * tick;
    assert (i * spacing) * n == i * (spacing * n);
    assert (line - shared) * n == bottom * n + (q * tick) * n - lo * n - (i * spacing) * n;
    assert i * (top - bottom) == i * top - i * bottom && i * (hi - lo) == i * hi - i * lo;
    assert (bottom - lo) * (n - i) == bottom * n - lo * n - bottom * i + lo * i;
  }

  lemma ShareParts(i: nat, width: nat, n: nat)
    requires n > 0
    ensures (i * width / n) as real * n as real == i as real * width as real - (i * width % n) as real
  {
    PQ.DivMod(i * width, n);
    PQ.RealProduct(i, width);
    PQ.RealProduct(i * width / n, n);
  }

  /** The difference exactly: what the lower edge gives, less what the upper edge and the rounding take. */
  lemma GapIs(b: Band, gridSize: nat, tick: real, i: nat)
    requires tick > 0.0 && gridSize >= 1 && WideEnough(b, gridSize, tick) && i <= gridSize
    ensures (Line(b, gridSize, tick, i) - SharedLine(b, gridSize, i)) * gridSize as real
         == LowerGap(b, tick) * (gridSize - i) as real - UpperGap(b, tick) * i as real - Dropped(b, gridSize, tick, i) as real * tick
  {
    var kb, width := BottomTick(b, tick), TopTick(b, tick) - BottomTick(b, tick);
    var q := i * width / gridSize;
    Edges(b, tick);
    TimesSplit(kb, width, tick);
    TimesSplit(kb, q, tick);
    ShareParts(i, width, gridSize);
    SpacingTimes(b.highest, b.lowest, gridSize);
    GapAlgebra(b.lowest, b.highest, QuantUp(b.lowest, tick), QuantDown(b.highest, tick), gridSize as real, i as real, q as real,
               width as real, Dropped(b, gridSize, tick, i) as real, tick,
               Line(b, gridSize, tick, i), SharedLine(b, gridSize, i), SharedSpacing(b, gridSize));
  }

  lemma ScaleOrder(x: real, y: real, n: real)
    requires n > 0.0
    ensures x < y <==> x * n < y * n
  {
    if x < y {
      MulLt(x, y, n);
    } else {
      MulLe(y, x, n);
    }
  }

  /**
   * Exactly when a line moves by less than a tick, which the shared calculator's header says of
   * every line: when what the snapped upper edge and the rounding take off stays below what the
   * snapped lower edge adds and one tick. The configuration and the tick decide it.
   */
  lemma WithinATickExactly(b: Band, gridSize: nat, tick: real, i: nat)
    requires tick > 0.0 && gridSize >= 1 && WideEnough(b, gridSize, tick) && i <= gridSize
    ensures -tick < Line(b, gridSize, tick, i) - SharedLine(b, gridSize, i) < tick <==>
      UpperGap(b, tick) * i as real + Dropped(b, gridSize, tick, i) as real * tick
      < LowerGap(b, tick) * (gridSize - i) as real + gridSize as real * tick
  {
    hide Line, SharedLine, LowerGap, UpperGap, Dropped;
    LineDifference(b, gridSize, tick, i);
    GapIs(b, gridSize, tick, i);
    ScaleOrder(-tick, Line(b, gridSize, tick, i) - SharedLine(b, gridSize, i), gridSize as real);
    assert -tick * gridSize as real == -(gridSize as real * tick);
  }

  /**
   * The lower end by grid size: rounding drops at most all but one part of a tick, and only a line
   * before the last drops anything.
   */
  lemma LineDifferenceBySize(b: Band, gridSize: nat, tick: real, i: nat)
    requires tick > 0.0 && gridSize >= 2 && WideEnough(b, gridSize, tick) && i <= gridSize
    ensures -2.0 * (gridSize - 1) as real * tick < (Line(b, gridSize, tick, i) - SharedLine(b, gridSize, i)) * gridSize as real
  {
    hide Line, SharedLine, LowerGap, UpperGap, Dropped, WideEnough;
    GapIs(b, gridSize, tick, i);
    GapBounds(b, tick);
    DroppedBounds(b, gridSize, tick, i);
    LowerSum(LowerGap(b, tick), UpperGap(b, tick), gridSize, i, Dropped(b, gridSize, tick, i), tick);
  }

  lemma GapBounds(b: Band, tick: real)
    requires tick > 0.0
    ensures 0.0 <= LowerGap(b, tick) < tick && 0.0 <= UpperGap(b, tick) < tick
  {
    UpIsLeast(b.lowest, tick);
    DownIsGreatest(b.highest, tick);
  }

  lemma DroppedBounds(b: Band, gridSize: nat, tick: real, i: nat)
    requires tick > 0.0 && gridSize >= 1 && WideEnough(b, gridSize, tick) && i <= gridSize
    ensures TopTick(b, tick) >= BottomTick(b, tick) && Dropped(b, gridSize, tick, i) < gridSize
    ensures i == 0 || i == gridSize ==> Dropped(b, gridSize, tick, i) == 0
  {
    var width := TopTick(b, tick) - BottomTick(b, tick);
    PQ.DivMod(i * width, gridSize);
    LastDropsNothing(width, gridSize);
    NothingDropped(width, gridSize);
  }

  lemma LastDropsNothing(width: nat, n: nat)
    requires n >= 1
    ensures n * width % n == 0
  {
    assert n * width == width * n;
    PQ.MultipleDivides(width, n);
  }

  lemma NothingDropped(width: nat, n: nat)
    requires n >= 1
    ensures 0 * width % n == 0
  {
    assert 0 * width == 0;
  }

  lemma LowerSum(u: real, v: real, n: nat, i: nat, r: nat, tick: real)
    requires 0.0 <= u && 0.0 <= v < tick && n >= 2 && i <= n && r < n && (i == 0 || i == n ==> r == 0)
    ensures -2.0 * (n - 1) as real * tick < u * (n - i) as real - v * i as real - r as real * tick
  {
    PartsBelow(u, v, (n - i) as real, i as real, r as real, (n - 1) as real, tick);
  }

  lemma PartsBelow(u: real, v: real, rest: real, i: real, r: real, one: real, tick: real)
    requires 0.0 <= u && 0.0 <= v < tick && one >= 1.0 && rest >= 0.0 && i >= 0.0
    requires (i == 0.0 && r == 0.0) || (0.0 < i <= one && r <= one) || (i == one + 1.0 && r == 0.0)
    ensures -2.0 * one * tick < u * rest - v * i - r * tick
  {
    var unit := one * tick;
    assert -2.0 * one * tick == -2.0 * unit;
    MulLe(0.0, u, rest);
    MulLt(0.0, one, tick);
    if i > 0.0 {
      MulLt(v, tick, i);
      assert tick * i == i * tick;
      MulLe(r, one, tick);
      MulLe(i, if i <= one then one else 2.0 * one, tick);
      assert (2.0 * one) * tick == 2.0 * unit;
    }
  }

  // ----- both ends of the range are approached -----

  /** Any positive band can be configured. */
  lemma EveryBandIsConfigured(b: Band)
    requires 0.0 < b.lowest <= b.highest
    ensures var center := (b.lowest + b.highest) / 2.0;
      BandOf(center, (b.highest - b.lowest) / center * 100.0) == b
  {
    var center, width := (b.lowest + b.highest) / 2.0, b.highest - b.lowest;
    assert width / center * 100.0 / 100.0 == width / center;
    assert center * (width / center) == width;
  }

  /**
   * A grid of the kind the failing lines come from: 100 to 111.9, ten steps, tick 1. The ninth line is
   * built at 109, and stands at 110.71.
   */
  lemma MoreThanATickOff()
    ensures var b := BandOf(105.95, 11.9 / 105.95 * 100.0);
      && b == Band(100.0, 111.9) && WideEnough(b, 10, 1.0)
      && Line(b, 10, 1.0, 9) == 109.0 && SharedLine(b, 10, 9) == 110.71
  {
    var b := Band(100.0, 111.9);
    EveryBandIsConfigured(b);
    assert (b.highest / 1.0).Floor == 111 && (-(b.lowest / 1.0)).Floor == -100;
    assert LevelTick(100, 11, 10, 9) == 109;
  }

  lemma Reciprocal(n: nat)
    requires n >= 1
    ensures var part := 1.0 / n as real; part * n as real == 1.0 && 0.0 < part <= 1.0
  {
    var part := 1.0 / n as real;
    assert part * n as real == 1.0;
    if part <= 0.0 {
      MulLe(part, 0.0, n as real);
    } else if part > 1.0 {
      MulLt(1.0, part, n as real);
    }
  }

  /** A band the engine's limits allow: between 1 and 50 percent of its centre. */
  predicate Allowed(b: Band) {
    var center, width := (b.lowest + b.highest) / 2.0, b.highest - b.lowest;
    0.0 < b.lowest <= b.highest && center / 100.0 <= width <= center / 2.0
  }

  lemma LowEndEdges(bottom: nat, n: nat, m: nat)
    requires bottom >= 1 && n >= 1 && m >= 1
    ensures var b := Band(bottom as real, (bottom + n + 2) as real - 1.0 / m as real);
      && BottomTick(b, 1.0) == bottom && TopTick(b, 1.0) == bottom + n + 1
      && LowerGap(b, 1.0) == 0.0 && UpperGap(b, 1.0) == 1.0 - 1.0 / m as real
  {
    var b, part := Band(bottom as real, (bottom + n + 2) as real - 1.0 / m as real), 1.0 / m as real;
    Reciprocal(m);
    assert (b.highest / 1.0).Floor == bottom + n + 1 && (-(b.lowest / 1.0)).Floor == -(bottom as int);
    Edges(b, 1.0);
  }

  lemma LowEndDropped(n: nat)
    requires n >= 1
    ensures (n - 1) * (n + 1) % n == n - 1
  {
    assert (n - 1) * (n + 1) == (n - 1) * n + (n - 1);
    PQ.DivMod((n - 1) * (n + 1), n);
    QuotientUnique((n - 1) * (n + 1), n, (n - 1) * (n + 1) / n, (n - 1) * (n + 1) % n, n - 1, n - 1);
  }

  /** Towards the lower end: n steps over n + 1 ticks and all but a part of one more, at the last line but one. */
  lemma LowEndIsApproached(bottom: nat, n: nat, m: nat)
    requires bottom >= 1 && n >= 2 && m >= 1
    ensures var b := Band(bottom as real, (bottom + n + 2) as real - 1.0 / m as real);
      && WideEnough(b, n, 1.0)
      && (Line(b, n, 1.0, n - 1) - SharedLine(b, n, n - 1)) * n as real == -2.0 * (n - 1) as real + 1.0 / m as real * (n - 1) as real
  {
    var b, part := Band(bottom as real, (bottom + n + 2) as real - 1.0 / m as real), 1.0 / m as real;
    LowEndEdges(bottom, n, m);
    LowEndDropped(n);
    GapIs(b, n, 1.0, n - 1);
    assert (1.0 - part) * (n - 1) as real == (n - 1) as real - part * (n - 1) as real;
  }

  /** Towards plus one tick: a lower edge just above a tick, at the first line. */
  lemma HighEndIsApproached(bottom: nat, n: nat, m: nat)
    requires n >= 1 && m >= 1
    ensures var b := Band(bottom as real + 1.0 / m as real, (bottom + 1 + n) as real);
      && WideEnough(b, n, 1.0) && Line(b, n, 1.0, 0) - SharedLine(b, n, 0) == 1.0 - 1.0 / m as real
  {
    var b, part := Band(bottom as real + 1.0 / m as real, (bottom + 1 + n) as real), 1.0 / m as real;
    Reciprocal(m);
    assert (-(b.lowest / 1.0)).Floor == -((bottom + 1) as int) && (b.highest / 1.0).Floor == bottom + 1 + n;
    Edges(b, 1.0);
    EndLines(BottomTick(b, 1.0), TopTick(b, 1.0) - BottomTick(b, 1.0), n);
  }

  /**
   * An accepted grid at tick 1 whose line i, taken n times, is within eps of 2 * (n - 1) ticks below the
   * shared line.
   */
  predicate NearLowEnd(b: Band, n: nat, i: nat, eps: real) {
    && n >= 2 && i <= n && Allowed(b) && WideEnough(b, n, 1.0)
    && (Line(b, n, 1.0, i) - SharedLine(b, n, i)) * n as real < -2.0 * (n - 1) as real + eps
  }

  /** And one within eps of a tick above it. */
  predicate NearHighEnd(b: Band, n: nat, i: nat, eps: real) {
    && n >= 2 && i <= n && Allowed(b) && WideEnough(b, n, 1.0)
    && 1.0 - eps < Line(b, n, 1.0, i) - SharedLine(b, n, i)
  }

  /** A part of one that is small even n times over. */
  lemma SmallPart(eps: real, n: nat) returns (m: nat)
    requires eps > 0.0 && n >= 1
    ensures m >= 1 && 1.0 / m as real * n as real < eps && 1.0 / m as real < eps
  {
    var x := n as real / eps;
    assert x * eps == n as real;
    assert x > 0.0 by { if x <= 0.0 { MulLe(x, 0.0, eps); } }
    m := x.Floor + 1;
    Reciprocal(m);
    PartBelow(1.0 / m as real, m as real, x, eps, n as real);
    MulLe(1.0, n as real, 1.0 / m as real);
  }

  lemma PartBelow(part: real, m: real, x: real, eps: real, n: real)
    requires part * m == 1.0 && x * eps == n && x < m && eps > 0.0 && m > 0.0
    ensures part * n < eps
  {
    MulLt(x, m, eps);
    assert m * eps == eps * m;
    assert (part * n) * m == n * (part * m);
    ScaleOrder(part * n, eps, m);
  }

  /**
   * The range is tight for every grid size, inside the engine's limits on the range: some grids come
   * as near to its lower end, and some to plus one tick, as one likes.
   */
  lemma RangeIsTight(n: nat, eps: real)
    requires n >= 2 && eps > 0.0
    ensures exists b: Band, i: nat :: NearLowEnd(b, n, i, eps)
    ensures exists b: Band, i: nat :: NearHighEnd(b, n, i, eps)
  {
    var m := SmallPart(eps, n);
    NearLow(n, m, eps);
    NearHigh(n, m, eps);
  }

  lemma NearLow(n: nat, m: nat, eps: real)
    requires n >= 2 && m >= 1 && 1.0 / m as real * n as real < eps
    ensures NearLowEnd(Band((3 * (n + 2)) as real, (3 * (n + 2) + n + 2) as real - 1.0 / m as real), n, n - 1, eps)
  {
    EndsAreAllowed(n, m);
    hide Allowed, WideEnough, Line, SharedLine;
    Reciprocal(m);
    LessTimes(1.0 / m as real, n);
    LowEndIsApproached(3 * (n + 2), n, m);
  }

  lemma NearHigh(n: nat, m: nat, eps: real)
    requires n >= 2 && m >= 1 && 1.0 / m as real < eps
    ensures NearHighEnd(Band((3 * (n + 2)) as real + 1.0 / m as real, (3 * (n + 2) + 1 + n) as real), n, 0, eps)
  {
    EndsAreAllowed(n, m);
    hide Allowed, WideEnough, Line, SharedLine;
    HighEndIsApproached(3 * (n + 2), n, m);
  }

  lemma LessTimes(part: real, n: nat)
    requires part > 0.0 && n >= 1
    ensures part * (n - 1) as real <= part * n as real
  {
    MulLe((n - 1) as real, n as real, part);
    assert part * (n - 1) as real == (n - 1) as real * part && part * n as real == n as real * part;
  }

  lemma EndsAreAllowed(n: nat, m: nat)
    requires n >= 2 && m >= 1
    ensures var bottom, part := 3 * (n + 2), 1.0 / m as real;
      Allowed(Band(bottom as real, (bottom + n + 2) as real - part)) && Allowed(Band(bottom as real + part, (bottom + 1 + n) as real))
  {
    Reciprocal(m);
  }

  // ----- resting notional -----

  /** Number of lines at or above the mark: the ones a resting BUY is armed on. */
  function EligibleCount(prices: seq<real>, mark: real): nat {
    if prices == [] then 0
    else EligibleCount(prices[..|prices| - 1], mark) + if mark <= prices[|prices| - 1] then 1 else 0
  }

  function OrderNotional(quantity: real, price: real): real { quantity * price }

  /** Notional resting on the eligible lines. */
  function RestingNotional(prices: seq<real>, mark: real, quantity: real): real {
    if prices == [] then 0.0
    else
      RestingNotional(prices[..|prices| - 1], mark, quantity)
      + if mark <= prices[|prices| - 1] then OrderNotional(quantity, prices[|prices| - 1]) else 0.0
  }

  /** The exposure picture: resting notional and its largest single order. */
  method ComputeGridExposure(baseline: real, mark: real, gridSize: nat, rangePercent: real, quantity: real)
    returns (prices: seq<real>, notional: real, largest: real)
    requires gridSize >= 1
    ensures |prices| == gridSize + 1
    ensures forall i :: 0 <= i <= gridSize ==> prices[i] == SharedLine(BandOf(baseline, rangePercent), gridSize, i)
    ensures notional == RestingNotional(prices, mark, quantity)
    ensures largest >= 0.0
    ensures forall i :: 0 <= i <= gridSize && mark <= prices[i] ==> OrderNotional(quantity, prices[i]) <= largest
    ensures largest > 0.0 ==> exists i :: 0 <= i <= gridSize && mark <= prices[i] && OrderNotional(quantity, prices[i]) == largest
  {
    prices := ComputeGridLevelPrices(baseline, gridSize, rangePercent);
    notional, largest := 0.0, 0.0;
    for i := 0 to |prices|
      invariant notional == RestingNotional(prices[..i], mark, quantity)
      invariant largest >= 0.0
      invariant forall j :: 0 <= j < i && mark <= prices[j] ==> OrderNotional(quantity, prices[j]) <= largest
      invariant largest > 0.0 ==> exists j :: 0 <= j < i && mark <= prices[j] && OrderNotional(quantity, prices[j]) == largest
    {
      assert prices[..i + 1][..i] == prices[..i];
      if mark <= prices[i] {
        var order := OrderNotional(quantity, prices[i]);
        notional := notional + order;
        if order > largest {
          largest := order;
        }
      }
    }
    assert prices[..|prices|] == prices;
  }

  lemma SharedLinesClimb(b: Band, gridSize: nat, i: nat, j: nat)
    requires gridSize >= 1 && b.lowest < b.highest && i < j
    ensures SharedLine(b, gridSize, i) < SharedLine(b, gridSize, j)
  {
    var s := SharedSpacing(b, gridSize);
    PQ.PositiveQuotient(b.highest - b.lowest, gridSize as real);
    MulLt(i as real, j as real, s);
  }

  /** The calculator's eligible lines are a suffix of the grid. */
  lemma EligibleIsSuffix(b: Band, gridSize: nat, mark: real, i: nat, j: nat)
    requires gridSize >= 1 && b.lowest < b.highest && i <= j
    ensures mark <= SharedLine(b, gridSize, i) ==> mark <= SharedLine(b, gridSize, j)
  {
    if i < j {
      SharedLinesClimb(b, gridSize, i, j);
    }
  }

  /** Two ticks of one order's size. */
  function TwoTicks(quantity: real, tick: real): real { quantity * (2.0 * tick) }

  lemma OrderGap(quantity: real, p: real, p': real, tick: real)
    requires quantity > 0.0 && tick > 0.0 && -2.0 * tick < p - p' < tick
    ensures -TwoTicks(quantity, tick) < OrderNotional(quantity, p) - OrderNotional(quantity, p') < TwoTicks(quantity, tick)
  {
    Distributes(quantity, p, p');
    MulLt(-2.0 * tick, p - p', quantity);
    MulLt(p - p', 2.0 * tick, quantity);
    Distributes(quantity, 2.0 * tick, 0.0);
    Distributes(quantity, -2.0 * tick, 0.0);
    Distributes(quantity, 0.0, 2.0 * tick);
  }

  lemma Distributes(q: real, a: real, b: real)
    ensures OrderNotional(q, a) - OrderNotional(q, b) == (a - b) * q
  {
    assert q * a - q * b == q * (a - b);
  }

  lemma OneMoreBound(k: nat, x: real)
    ensures Times(k + 1, x) == Times(k, x) + x
  {
    assert (k + 1) as real * x == k as real * x + x;
  }

  /** Lines less than two ticks apart, with the same lines eligible. */
  ghost predicate Comparable(engine: seq<real>, shared: seq<real>, mark: real, tick: real) {
    && |engine| == |shared|
    && forall i :: 0 <= i < |engine| ==>
         -2.0 * tick < engine[i] - shared[i] < tick && (mark <= engine[i] <==> mark <= shared[i])
  }

  lemma {:induction false} NotionalGap(engine: seq<real>, shared: seq<real>, mark: real, quantity: real, tick: real)
    requires quantity > 0.0 && tick > 0.0 && Comparable(engine, shared, mark, tick)
    ensures EligibleCount(engine, mark) == EligibleCount(shared, mark)
    ensures var gap := RestingNotional(engine, mark, quantity) - RestingNotional(shared, mark, quantity);
      var bound := Times(EligibleCount(shared, mark), TwoTicks(quantity, tick));
      && -bound <= gap <= bound && (EligibleCount(shared, mark) > 0 ==> -bound < gap < bound)
  {
    if engine != [] {
      var n := |engine| - 1;
      NotionalGap(engine[..n], shared[..n], mark, quantity, tick);
      OrderGap(quantity, engine[n], shared[n], tick);
      OneMoreBound(EligibleCount(shared[..n], mark), TwoTicks(quantity, tick));
    }
  }

  /**
   * Engine grid versus shared calculator: when the same lines are eligible, the two resting
   * notionals differ by less than two ticks of one order's size per eligible line.
   */
  lemma NotionalsAgree(b: Band, gridSize: nat, tick: real, mark: real, quantity: real, engine: seq<real>,
                       shared: seq<real>)
    requires tick > 0.0 && gridSize >= 1 && WideEnough(b, gridSize, tick) && quantity > 0.0
    requires |engine| == |shared| == gridSize + 1
    requires forall i :: 0 <= i <= gridSize ==>
      engine[i] == Line(b, gridSize, tick, i) && shared[i] == SharedLine(b, gridSize, i)
    requires forall i :: 0 <= i <= gridSize ==> (mark <= engine[i] <==> mark <= shared[i])
    ensures var gap := RestingNotional(engine, mark, quantity) - RestingNotional(shared, mark, quantity);
      var bound := Times(EligibleCount(shared, mark), TwoTicks(quantity, tick));
      && -bound <= gap <= bound && (EligibleCount(shared, mark) > 0 ==> -bound < gap < bound)
  {
    forall i | 0 <= i <= gridSize ensures -2.0 * tick < engine[i] - shared[i] < tick {
      LineDifference(b, gridSize, tick, i);
    }
    NotionalGap(engine, shared, mark, quantity, tick);
  }
}
