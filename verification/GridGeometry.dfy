/**
 * The grid's lines: the band snapped inward to the tick, spaced evenly, quantized
 * down. A construction is accepted exactly when the snapped band is wide enough,
 * and then the later checks can never fire.
 */
module GridGeometry {
  import opened Options
  import opened Ticks
  import PQ = PriceQuantization

  /** The band the user authorised. */
  datatype Band = Band(lowest: real, highest: real)

  function BandOf(center: real, rangePercent: real): Band {
    var range := center * (rangePercent / 100.0);
    Band(center - range / 2.0, center + range / 2.0)
  }

  /** The band is centered, and rangePercent hundredths of its center wide. */
  lemma BandIsCentered(center: real, rangePercent: real)
    ensures var b := BandOf(center, rangePercent);
      b.lowest + b.highest == 2.0 * center && (b.highest - b.lowest) * 100.0 == rangePercent * center
  {
    var share := rangePercent / 100.0;
    assert share * 100.0 == rangePercent;
    assert (center * share) * 100.0 == (share * 100.0) * center;
  }

  /** `quantizePriceNumber`: None where it throws. */
  function QuantizeNumber(price: real, tick: real, rounding: PQ.Rounding): Option<real>
    requires tick > 0.0
  {
    if price <= 0.0 then None
    else
      var r := PQ.Round(price, tick, rounding);
      if r <= 0.0 then None else Some(r)
  }

  datatype GridResult =
    | Built(levels: seq<real>)
    | Unpriceable       // a price that is not positive, or rounds to nothing
    | NoTickInBand
    | DuplicateLevel
    | OutOfBand
    | Degenerate

  /** Ticks of line i: the bottom tick plus i even shares of the snapped width, floored. */
  function LevelTick(bottomTick: int, width: nat, gridSize: nat, i: nat): int
    requires gridSize > 0
  {
    bottomTick + i * width / gridSize
  }

  // ----- exact arithmetic on lines -----

  lemma ShareFloor(i: nat, width: nat, n: nat)
    requires n > 0
    ensures PQ.Quotient(i * width, n).Floor == i * width / n
  {
    PQ.FloorOfRatio(i * width, n);
  }

  /** A raw line is its bottom tick plus an exact share of the width, in ticks. */
  lemma RawLine(bottomTick: int, width: nat, n: nat, i: nat, tick: real, bottom: real, spacing: real, raw: real)
    requires n > 0 && tick > 0.0
    requires bottom == Times(bottomTick, tick) && spacing * n as real == Times(width, tick)
    requires raw == bottom + i as real * spacing
    ensures raw / tick == bottomTick as real + PQ.Quotient(i * width, n)
  {
    var z, N := PQ.Quotient(i * width, n), n as real;
    assert z * N == (i * width) as real;
    PQ.RealProduct(i, width);
    var y := bottomTick as real + z;
    Shares(i as real, width as real, N, z, spacing, tick);
    assert y * tick == bottom + z * tick;
    PQ.Ratio(y, raw, tick);
  }

  /** i shares of the width: the same whether taken in ticks or in price. */
  lemma Shares(i: real, width: real, n: real, z: real, spacing: real, tick: real)
    requires n > 0.0 && z * n == i * width && spacing * n == width * tick
    ensures z * tick == i * spacing
  {
    assert (z * tick) * n == (z * n) * tick;
    assert (i * spacing) * n == i * (spacing * n);
    assert (i * width) * tick == i * (width * tick);
    PQ.SameFactor(z * tick, i * spacing, n);
  }

  /** Quantizing a raw line down gives its line in ticks. */
  lemma LineTick(bottomTick: int, width: nat, n: nat, i: nat, tick: real, bottom: real, spacing: real, raw: real)
    requires n > 0 && tick > 0.0
    requires bottom == Times(bottomTick, tick) && spacing * n as real == Times(width, tick)
    requires raw == bottom + i as real * spacing
    ensures QuantDown(raw, tick) == Times(LevelTick(bottomTick, width, n, i), tick)
  {
    RawLine(bottomTick, width, n, i, tick, bottom, spacing, raw);
    ShareFloor(i, width, n);
    FloorShift(bottomTick, PQ.Quotient(i * width, n));
  }

  lemma FloorShift(k: int, x: real)
    ensures (k as real + x).Floor == k + x.Floor
  {}

  // ----- when lines are distinct -----

  lemma DivAdd(a: nat, b: nat, n: nat)
    requires n > 0 && b >= n
    ensures (a + b) / n >= a / n + 1
  {
    DivMonotone(a + n, a + b, n);
    DivPlus(a, n);
  }

  lemma DivPlus(a: nat, n: nat)
    requires n > 0
    ensures (a + n) / n == a / n + 1
  {
    PQ.DivMod(a, n);
    PQ.DivMod(a + n, n);
    QuotientUnique(a + n, n, (a + n) / n, (a + n) % n, a / n + 1, a % n);
  }

  lemma QuotientUnique(a: int, n: int, q: int, r: int, q': int, r': int)
    requires n > 0 && a == q * n + r && a == q' * n + r' && 0 <= r < n && 0 <= r' < n
    ensures q == q'
  {
    assert (q - q') * n == r' - r;
    if q > q' {
      IntAtLeast(q - q', n);
    } else if q < q' {
      assert (q' - q) * n == r - r';
      IntAtLeast(q' - q, n);
    }
  }

  lemma IntAtLeast(x: int, n: int)
    requires x >= 1 && n > 0
    ensures x * n >= n
  {}

  lemma {:induction false} DivMonotone(a: nat, b: nat, n: nat)
    requires n > 0 && a <= b
    ensures a / n <= b / n
  {
    PQ.DivMod(a, n);
    PQ.DivMod(b, n);
    var q, q' := a / n, b / n;
    assert (q - q') * n == q * n - q' * n;
    if q > q' {
      IntAtLeast(q - q', n);
    }
  }

  /** Lines never fall, and they climb whenever the band has a tick to spare per step. */
  lemma LinesClimb(bottomTick: int, width: nat, n: nat, i: nat)
    requires n > 0
    ensures LevelTick(bottomTick, width, n, i) <= LevelTick(bottomTick, width, n, i + 1)
    ensures width >= n ==> LevelTick(bottomTick, width, n, i) < LevelTick(bottomTick, width, n, i + 1)
  {
    assert (i + 1) * width == i * width + width;
    DivMonotone(i * width, (i + 1) * width, n);
    if width >= n {
      DivAdd(i * width, width, n);
    }
  }

  /** Over a wide enough band lines strictly climb. */
  lemma {:induction false} LinesOrdered(bottomTick: int, width: nat, n: nat, i: nat, j: nat)
    requires n > 0 && i < j
    ensures LevelTick(bottomTick, width, n, i) <= LevelTick(bottomTick, width, n, j)
    ensures width >= n ==> LevelTick(bottomTick, width, n, i) < LevelTick(bottomTick, width, n, j)
    decreases j
  {
    LinesClimb(bottomTick, width, n, j - 1);
    if i < j - 1 {
      LinesOrdered(bottomTick, width, n, i, j - 1);
    }
  }

  /** n strictly climbing lines are at least n ticks apart end to end. */
  lemma {:induction false} Pigeonhole(bottomTick: int, width: nat, n: nat, m: nat)
    requires n > 0
    requires forall i :: 0 <= i < m ==> LevelTick(bottomTick, width, n, i) < LevelTick(bottomTick, width, n, i + 1)
    ensures LevelTick(bottomTick, width, n, m) >= LevelTick(bottomTick, width, n, 0) + m
  {
    if m > 0 {
      Pigeonhole(bottomTick, width, n, m - 1);
    }
  }

  lemma EndLines(bottomTick: int, width: nat, n: nat)
    requires n > 0
    ensures LevelTick(bottomTick, width, n, 0) == bottomTick
    ensures LevelTick(bottomTick, width, n, n) == bottomTick + width
  {
    assert n * width == width * n;
    PQ.MultipleDivides(width, n);
    assert 0 * width == 0;
  }

  // ----- the construction -----

  /** First and last tick inside the band. */
  function BottomTick(b: Band, tick: real): int
    requires tick > 0.0
  {
    Ceil(b.lowest / tick)
  }

  function TopTick(b: Band, tick: real): int
    requires tick > 0.0
  {
    (b.highest / tick).Floor
  }

  /** The band is priceable and its inward-snapped edges are at least gridSize ticks apart. */
  predicate WideEnough(b: Band, gridSize: nat, tick: real)
    requires tick > 0.0
  {
    b.lowest > 0.0 && TopTick(b, tick) - BottomTick(b, tick) >= gridSize
  }

  /** Line i of an accepted grid. */
  function Line(b: Band, gridSize: nat, tick: real, i: nat): real
    requires tick > 0.0 && gridSize > 0 && TopTick(b, tick) >= BottomTick(b, tick)
  {
    Times(LevelTick(BottomTick(b, tick), TopTick(b, tick) - BottomTick(b, tick), gridSize, i), tick)
  }

  lemma TimesOrder(j: int, k: int, tick: real)
    requires tick > 0.0
    ensures j < k <==> Times(j, tick) < Times(k, tick)
    ensures j == k <==> Times(j, tick) == Times(k, tick)
  {
    if j < k {
      MulLt(j as real, k as real, tick);
    } else if k < j {
      MulLt(k as real, j as real, tick);
    }
  }

  lemma TimesSplit(j: int, k: int, tick: real)
    ensures Times(j + k, tick) == Times(j, tick) + Times(k, tick)
  {
    assert (j + k) as real * tick == j as real * tick + k as real * tick;
  }

  /** Each raw line quantizes to its line, and the last is the top edge. */
  lemma RawIsLine(b: Band, n: nat, tick: real, i: nat, bottom: real, top: real, spacing: real)
    requires tick > 0.0 && n > 0 && TopTick(b, tick) >= BottomTick(b, tick)
    requires bottom == QuantUp(b.lowest, tick) && top == QuantDown(b.highest, tick)
    requires spacing * n as real == top - bottom
    ensures QuantDown(bottom + i as real * spacing, tick) == Line(b, n, tick, i)
    ensures Line(b, n, tick, 0) == bottom && Line(b, n, tick, n) == top
  {
    var kb, width := BottomTick(b, tick), TopTick(b, tick) - BottomTick(b, tick);
    TimesSplit(kb, width, tick);
    LineTick(kb, width, n, i, tick, bottom, spacing, bottom + i as real * spacing);
    EndLines(kb, width, n);
  }

  lemma TicksInside(bottomTick: int, width: nat, n: nat, i: nat)
    requires n > 0 && i <= n
    ensures bottomTick <= LevelTick(bottomTick, width, n, i) <= bottomTick + width
  {
    EndLines(bottomTick, width, n);
    if i > 0 { LinesOrdered(bottomTick, width, n, 0, i); }
    if i < n { LinesOrdered(bottomTick, width, n, i, n); }
  }

  lemma TimesLe(j: int, k: int, tick: real)
    requires tick > 0.0 && j <= k
    ensures Times(j, tick) <= Times(k, tick)
  {
    MulLe(j as real, k as real, tick);
  }

  lemma Edges(b: Band, tick: real)
    requires tick > 0.0
    ensures QuantUp(b.lowest, tick) == Times(BottomTick(b, tick), tick)
    ensures QuantDown(b.highest, tick) == Times(TopTick(b, tick), tick)
    ensures b.lowest <= QuantUp(b.lowest, tick) && QuantDown(b.highest, tick) <= b.highest
  {
    UpIsLeast(b.lowest, tick);
    DownIsGreatest(b.highest, tick);
  }

  /** Lines of a snapped band stay between its edges, so inside the band. */
  lemma LinesInside(b: Band, n: nat, tick: real, i: nat)
    requires tick > 0.0 && n > 0 && TopTick(b, tick) >= BottomTick(b, tick) && i <= n
    ensures QuantUp(b.lowest, tick) <= Line(b, n, tick, i) <= QuantDown(b.highest, tick)
    ensures b.lowest <= Line(b, n, tick, i) <= b.highest
  {
    var kb, kt := BottomTick(b, tick), TopTick(b, tick);
    var k := LevelTick(kb, kt - kb, n, i);
    TicksInside(kb, kt - kb, n, i);
    TimesLe(kb, k, tick);
    TimesLe(k, kt, tick);
    Edges(b, tick);
  }

  lemma SpacingTimes(top: real, bottom: real, n: nat)
    requires n > 0
    ensures (top - bottom) / n as real * n as real == top - bottom
  {}

  /** A raw line of a positive snapped band is positive, and so is its line. */
  lemma RawPositive(bottom: real, spacing: real, i: nat)
    requires bottom > 0.0 && spacing >= 0.0
    ensures bottom + i as real * spacing > 0.0
  {
    MulLe(0.0, spacing, i as real);
    assert spacing * i as real == i as real * spacing;
  }

  // ----- buildLevels -----

  /** Distinct lines up to i show no collapse so far. */
  lemma NoCollapse(b: Band, n: nat, tick: real, i: nat)
    requires tick > 0.0 && n > 0 && TopTick(b, tick) - BottomTick(b, tick) >= n
    ensures forall j: nat :: j < i ==> Line(b, n, tick, j) < Line(b, n, tick, i)
  {
    var kb, width := BottomTick(b, tick), TopTick(b, tick) - BottomTick(b, tick);
    forall j: nat | j < i ensures Line(b, n, tick, j) < Line(b, n, tick, i) {
      LinesOrdered(kb, width, n, j, i);
      TimesOrder(LevelTick(kb, width, n, j), LevelTick(kb, width, n, i), tick);
    }
  }

  /** A band too narrow for its lines has two equal neighbours. */
  lemma NarrowCollapses(b: Band, n: nat, tick: real)
    requires tick > 0.0 && n > 0 && 0 <= TopTick(b, tick) - BottomTick(b, tick) < n
    ensures exists i: nat :: i < n && Line(b, n, tick, i) == Line(b, n, tick, i + 1)
  {
    var kb, width := BottomTick(b, tick), TopTick(b, tick) - BottomTick(b, tick);
    EndLines(kb, width, n);
    if forall i :: 0 <= i < n ==> LevelTick(kb, width, n, i) < LevelTick(kb, width, n, i + 1) {
      Pigeonhole(kb, width, n, n);
    } else {
      var i: nat :| i < n && LevelTick(kb, width, n, i) >= LevelTick(kb, width, n, i + 1);
      LinesClimb(kb, width, n, i);
      assert Line(b, n, tick, i) == Line(b, n, tick, i + 1);
    }
  }

  lemma NarrowRepeats(placed: seq<real>, b: Band, n: nat, tick: real)
    requires tick > 0.0 && n > 0 && 0 <= TopTick(b, tick) - BottomTick(b, tick) < n
    requires |placed| == n + 1 && forall j :: 0 <= j <= n ==> placed[j] == Line(b, n, tick, j)
    ensures exists j, k :: 0 <= j < k <= n && placed[j] == placed[k]
  {
    NarrowCollapses(b, n, tick);
    var i: nat :| i < n && Line(b, n, tick, i) == Line(b, n, tick, i + 1);
    assert placed[i] == placed[i + 1];
  }

  /** Snapped edges and the even spacing between them. */
  ghost predicate Snapped(b: Band, n: nat, tick: real, bottom: real, top: real, spacing: real)
    requires tick > 0.0
  {
    && n > 0 && TopTick(b, tick) >= BottomTick(b, tick) && bottom > 0.0 && spacing >= 0.0
    && bottom == QuantUp(b.lowest, tick) && top == QuantDown(b.highest, tick) && spacing * n as real == top - bottom
  }

  /** Price of line i: quantized down from the raw line, the last clamped to the top edge. */
  method LineAt(b: Band, n: nat, tick: real, bottom: real, top: real, spacing: real, i: nat)
    returns (price: Option<real>)
    requires tick > 0.0 && Snapped(b, n, tick, bottom, top, spacing) && i <= n
    ensures price == Some(Line(b, n, tick, i))
  {
    RawIsLine(b, n, tick, i, bottom, top, spacing);
    if i == n {
      return Some(top);
    }
    RawPositive(bottom, spacing, i);
    LinesInside(b, n, tick, i);
    price := QuantizeNumber(bottom + i as real * spacing, tick, PQ.Down);
  }

  /** Place every line, or find that two collapse. */
  method PlaceLines(b: Band, n: nat, tick: real, bottom: real, top: real, spacing: real)
    returns (levels: Option<seq<real>>)
    requires tick > 0.0 && Snapped(b, n, tick, bottom, top, spacing)
    ensures levels.Some? <==> TopTick(b, tick) - BottomTick(b, tick) >= n
    ensures levels.Some? ==> |levels.value| == n + 1 && forall j :: 0 <= j <= n ==> levels.value[j] == Line(b, n, tick, j)
  {
    var placed: seq<real>, seen: set<real> := [], {};
    for i := 0 to n + 1
      invariant |placed| == i && forall j :: 0 <= j < i ==> placed[j] == Line(b, n, tick, j)
      invariant forall x :: x in seen <==> x in placed
      invariant forall j, k :: 0 <= j < k < i ==> placed[j] != placed[k]
    {
      var price := LineAt(b, n, tick, bottom, top, spacing, i);
      if price.value in seen {
        if TopTick(b, tick) - BottomTick(b, tick) >= n {
          NoCollapse(b, n, tick, i);
        }
        return None;
      }
      seen := seen + {price.value};
      placed := placed + [price.value];
    }
    if TopTick(b, tick) - BottomTick(b, tick) < n {
      NarrowRepeats(placed, b, n, tick);
    }
    return Some(placed);
  }

  /** What an accepted grid looks like: distinct ticks climbing from edge to edge, inside the band. */
  ghost predicate GoodLines(levels: seq<real>, b: Band, n: nat, tick: real)
    requires tick > 0.0
  {
    && |levels| == n + 1
    && (forall i :: 0 <= i <= n ==> IsMultiple(levels[i], tick) && b.lowest <= levels[i] <= b.highest)
    && (forall i, j :: 0 <= i < j <= n ==> levels[i] < levels[j])
    && levels[0] == QuantUp(b.lowest, tick) && levels[n] == QuantDown(b.highest, tick)
  }

  lemma LinesAreGood(levels: seq<real>, b: Band, n: nat, tick: real)
    requires tick > 0.0 && n > 0 && TopTick(b, tick) - BottomTick(b, tick) >= n
    requires |levels| == n + 1 && forall j :: 0 <= j <= n ==> levels[j] == Line(b, n, tick, j)
    ensures GoodLines(levels, b, n, tick)
  {
    forall i | 0 <= i <= n ensures IsMultiple(levels[i], tick) && b.lowest <= levels[i] <= b.highest {
      LinesInside(b, n, tick, i);
      LineIsMultiple(b, n, tick, i);
    }
    forall i, j | 0 <= i < j <= n ensures levels[i] < levels[j] {
      NoCollapse(b, n, tick, j);
    }
    Edges(b, tick);
    EndLines(BottomTick(b, tick), TopTick(b, tick) - BottomTick(b, tick), n);
  }

  /**
   * Build the lines around a center price. A grid is accepted if and only if its priceable band,
   * snapped inward, is at least gridSize ticks wide; then the checks after placement never fire.
   */
  method BuildLevels(center: real, gridSize: nat, rangePercent: real, tick: real) returns (r: GridResult)
    requires gridSize >= 1 && tick > 0.0
    ensures r.Built? <==> WideEnough(BandOf(center, rangePercent), gridSize, tick)
    ensures r.Built? ==> GoodLines(r.levels, BandOf(center, rangePercent), gridSize, tick)
    ensures r.Built? ==> forall i :: 0 <= i <= gridSize ==> r.levels[i] == Line(BandOf(center, rangePercent), gridSize, tick, i)
    ensures !r.OutOfBand? && !r.Degenerate?
  {
    var band := BandOf(center, rangePercent);
    var bottom := QuantizeNumber(band.lowest, tick, PQ.Up);
    var top := QuantizeNumber(band.highest, tick, PQ.Down);
    BandPriceable(band, gridSize, tick);
    if bottom.None? || top.None? {
      return Unpriceable;
    }
    Edges(band, tick);
    TimesOrder(TopTick(band, tick), BottomTick(band, tick), tick);
    if top.value < bottom.value {
      return NoTickInBand;
    }
    var spacing := (top.value - bottom.value) / gridSize as real;
    SpacingTimes(top.value, bottom.value, gridSize);
    SpacingSign(top.value - bottom.value, gridSize as real);
    var levels := PlaceLines(band, gridSize, tick, bottom.value, top.value, spacing);
    if levels.None? {
      return DuplicateLevel;
    }
    LinesAreGood(levels.value, band, gridSize, tick);
    r := CheckLines(levels.value, band, gridSize, tick);
  }

  /** The checks kept behind the placement, which an accepted grid passes. */
  method CheckLines(levels: seq<real>, b: Band, n: nat, tick: real) returns (r: GridResult)
    requires tick > 0.0 && n >= 1 && GoodLines(levels, b, n, tick)
    ensures r == Built(levels)
  {
    for i := 0 to |levels| {
      if levels[i] < b.lowest || levels[i] > b.highest {
        return OutOfBand;
      }
    }
    if levels[1] - levels[0] <= 0.0 {
      return Degenerate;
    }
    return Built(levels);
  }

  lemma LineIsMultiple(b: Band, n: nat, tick: real, i: nat)
    requires tick > 0.0 && n > 0 && TopTick(b, tick) >= BottomTick(b, tick)
    ensures IsMultiple(Line(b, n, tick, i), tick)
  {
    var k := LevelTick(BottomTick(b, tick), TopTick(b, tick) - BottomTick(b, tick), n, i);
    assert Times(k, tick) == Line(b, n, tick, i);
  }

  lemma SpacingSign(width: real, n: real)
    requires n > 0.0
    ensures width >= 0.0 ==> width / n >= 0.0
  {}

  /** A wide enough band prices both edges. */
  lemma BandPriceable(b: Band, n: nat, tick: real)
    requires tick > 0.0 && n >= 1
    ensures WideEnough(b, n, tick) ==>
      QuantizeNumber(b.lowest, tick, PQ.Up).Some? && QuantizeNumber(b.highest, tick, PQ.Down).Some?
    ensures QuantizeNumber(b.lowest, tick, PQ.Up).Some? <==> b.lowest > 0.0
    ensures QuantizeNumber(b.lowest, tick, PQ.Up).Some? ==> QuantizeNumber(b.lowest, tick, PQ.Up).value == QuantUp(b.lowest, tick)
    ensures QuantizeNumber(b.highest, tick, PQ.Down).Some? ==> QuantizeNumber(b.highest, tick, PQ.Down).value == QuantDown(b.highest, tick)
  {
    Edges(b, tick);
    TimesOrder(BottomTick(b, tick), TopTick(b, tick), tick);
  }
}
