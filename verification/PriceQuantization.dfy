/**
 * Exchange-aware price quantization: scaled-integer arithmetic on decimal strings,
 * proved to be exact rounding of the rational the string stands for.
 */
module PriceQuantization {
  import opened Options
  import opened DecimalStrings
  import opened Ticks

  datatype Rounding = Down | Up | Nearest

  datatype QuantizeError =
    | PriceNotDecimal | PriceNotPositive | TickNotDecimal | TickNotPositive | TickTooPrecise | ResultNotPositive

  datatype Quantized = Ok(text: string) | Refused(error: QuantizeError)

  const MAX_TICK_SCALE: nat := 12

  function Pow10(n: nat): (p: nat)
    ensures p >= 1
  {
    if n == 0 then 1 else 10 * Pow10(n - 1)
  }

  function Max(a: nat, b: nat): nat { if a >= b then a else b }

  /** Whole ticks of the rounded price, and what was left over, at the common scale. */
  function Steps(priceInt: nat, tickInt: nat, rounding: Rounding): nat
    requires tickInt > 0
  {
    var q, r := priceInt / tickInt, priceInt % tickInt;
    if r == 0 || rounding == Down then q
    else if rounding == Up then q + 1
    else if 2 * r >= tickInt then q + 1 else q
  }

  function AtScale(d: Decimal, common: nat): nat
    requires d.scale <= common
  {
    d.intValue * Pow10(common - d.scale)
  }

  function QuantizePrice(price: string, tickSize: string, rounding: Rounding): Quantized {
    var p := Parse(price);
    if p.None? then Refused(PriceNotDecimal)
    else if p.value.intValue == 0 then Refused(PriceNotPositive)
    else
      var t := Parse(tickSize);
      if t.None? then Refused(TickNotDecimal)
      else if t.value.intValue == 0 then Refused(TickNotPositive)
      else if t.value.scale > MAX_TICK_SCALE then Refused(TickTooPrecise)
      else Quantize(p.value, t.value, rounding)
  }

  /** Both numbers at a common scale, rounded to whole ticks, printed at the tick's scale. */
  function Quantize(p: Decimal, t: Decimal, rounding: Rounding): Quantized
    requires t.intValue > 0
  {
    var common := Max(p.scale, t.scale);
    var tickInt := Scaled(t, common);
    var steps := Steps(AtScale(p, common), tickInt, rounding);
    if steps == 0 then Refused(ResultNotPositive)
    else Ok(FormatScaled(Rescaled(steps, tickInt, Pow10(common - t.scale)), t.scale))
  }

  /** `steps * tickInt`, brought back to the tick's own scale. */
  function Rescaled(steps: nat, tickInt: nat, factor: nat): nat
    requires factor > 0
  {
    steps * tickInt / factor
  }

  /** Whole ticks, in units of the tick's scale. */
  function Units(steps: nat, t: Decimal): nat { steps * t.intValue }

  /** A positive decimal stays positive at a finer scale. */
  function Scaled(t: Decimal, common: nat): (n: nat)
    requires t.intValue > 0 && t.scale <= common
    ensures n == AtScale(t, common) && n > 0
  {
    Positive(t.intValue, Pow10(common - t.scale));
    AtScale(t, common)
  }

  lemma Positive(a: nat, b: nat)
    requires a > 0 && b > 0
    ensures a * b > 0
  {}

  /** None when either text is not a strict decimal. */
  function IsTickMultiple(price: string, tickSize: string): Option<bool> {
    var p, t := Parse(price), Parse(tickSize);
    if p.None? || t.None? then None
    else if p.value.intValue == 0 || t.value.intValue == 0 then Some(false)
    else
      var common := Max(p.value.scale, t.value.scale);
      Some(AtScale(p.value, common) % Scaled(t.value, common) == 0)
  }

  // ----- what the texts stand for -----

  /** The rational a decimal stands for. */
  function Value(d: Decimal): real { Quotient(d.intValue, Pow10(d.scale)) }

  /** The exact quotient of two integers. */
  function Quotient(n: nat, d: nat): real
    requires d > 0
  {
    n as real / d as real
  }

  function Round(x: real, tick: real, rounding: Rounding): real
    requires tick > 0.0
  {
    match rounding
    case Down => QuantDown(x, tick)
    case Up => QuantUp(x, tick)
    case Nearest => QuantNearest(x, tick)
  }

  lemma {:induction false} Pow10Add(a: nat, b: nat)
    ensures Pow10(a + b) == Pow10(a) * Pow10(b)
  {
    if a > 0 {
      Pow10Add(a - 1, b);
      assert Pow10(a + b) == 10 * Pow10(a + b - 1);
    }
  }

  /** A quotient whose terms share a factor. */
  lemma CancelFactor(n: real, d: real, k: real, d': real, n': real)
    requires d > 0.0 && k > 0.0 && d' == d * k && n' == n * k
    ensures d' > 0.0 && n / d == n' / d'
  {
    var x := n / d;
    assert x * d == n;
    assert x * (d * k) == (x * d) * k;
    Ratio(x, n', d');
  }

  lemma Ratio(x: real, n: real, d: real)
    requires d > 0.0 && x * d == n
    ensures n / d == x
  {}

  lemma RealProduct(a: int, b: int)
    ensures (a * b) as real == a as real * b as real
  {}

  /** Finer scale, same value. */
  lemma ScaledValue(d: Decimal, common: nat)
    requires d.scale <= common
    ensures Value(d) == Quotient(AtScale(d, common), Pow10(common))
  {
    Pow10Add(d.scale, common - d.scale);
    assert d.scale + (common - d.scale) == common;
    SharedFactor(d.intValue, Pow10(d.scale), Pow10(common - d.scale));
  }

  lemma SharedFactor(n: nat, d: nat, k: nat)
    requires d > 0 && k > 0
    ensures d * k > 0 && Quotient(n, d) == Quotient(n * k, d * k)
  {
    Positive(d, k);
    RealProduct(n, k);
    RealProduct(d, k);
    CancelFactor(n as real, d as real, k as real, (d * k) as real, (n * k) as real);
  }

  /** The quotient of two values is the quotient of their integers at a common scale. */
  lemma ValueRatio(p: Decimal, t: Decimal, common: nat)
    requires p.scale <= common && t.scale <= common && t.intValue > 0
    ensures Value(t) > 0.0
    ensures Value(p) / Value(t) == Quotient(AtScale(p, common), Scaled(t, common))
  {
    ScaledValue(p, common);
    ScaledValue(t, common);
    QuotientOfQuotients(AtScale(p, common) as real, Scaled(t, common) as real, Pow10(common) as real);
    TickPositive(t);
  }

  lemma TickPositive(t: Decimal)
    requires t.intValue > 0
    ensures Value(t) > 0.0
  {
    PositiveQuotient(t.intValue as real, Pow10(t.scale) as real);
  }

  lemma PositiveQuotient(n: real, d: real)
    requires n > 0.0 && d > 0.0
    ensures n / d > 0.0
  {}

  lemma QuotientOfQuotients(a: real, b: real, d: real)
    requires b > 0.0 && d > 0.0
    ensures b / d > 0.0 && (a / d) / (b / d) == a / b
  {
    var x, y := a / d, b / d;
    assert x * d == a && y * d == b;
    assert y > 0.0;
    var z := a / b;
    assert z * b == a;
    assert (z * y) * d == x * d;
    SameFactor(z * y, x, d);
    Ratio(z, x, y);
  }

  lemma SameFactor(a: real, b: real, d: real)
    requires d > 0.0 && a * d == b * d
    ensures a == b
  {
    if a < b { MulLt(a, b, d); } else if b < a { MulLt(b, a, d); }
  }

  // ----- exactness -----

  /** Integer division is the floor of the exact quotient. */
  lemma FloorOfRatio(a: nat, b: nat)
    requires b > 0
    ensures Quotient(a, b).Floor == a / b
  {
    var q, r := a / b, a % b;
    DivMod(a, b);
    RatioBetween(a as real, b as real, q as real, r as real);
  }

  lemma DivMod(a: nat, b: nat)
    requires b > 0
    ensures a == (a / b) * b + a % b && 0 <= a % b < b
    ensures a as real == (a / b) as real * b as real + (a % b) as real
  {
    RealProduct(a / b, b);
  }

  /** A quotient with a proper remainder lies in [q, q + 1), the remainder saying where. */
  lemma RatioBetween(a: real, b: real, q: real, r: real)
    requires b > 0.0 && a == q * b + r && 0.0 <= r < b
    ensures q <= a / b < q + 1.0
    ensures a / b == q <==> r == 0.0
    ensures a / b >= q + 0.5 <==> r + r >= b
  {
    var x, f := a / b, r / b;
    assert x * b == a && f * b == r;
    assert (q + f) * b == q * b + f * b;
    SameFactor(x, q + f, b);
    Fraction(r, b, f);
  }

  lemma Fraction(r: real, b: real, f: real)
    requires b > 0.0 && f * b == r && 0.0 <= r < b
    ensures 0.0 <= f < 1.0 && (f == 0.0 <==> r == 0.0) && (f >= 0.5 <==> r + r >= b)
  {
    if f < 0.0 {
      MulLt(f, 0.0, b);
    } else if f >= 1.0 {
      MulLe(1.0, f, b);
    } else if f >= 0.5 {
      MulLe(0.5, f, b);
    } else {
      MulLt(f, 0.5, b);
    }
  }

  /** The integer steps are the exactly rounded quotient. */
  lemma StepsRound(a: nat, b: nat, rounding: Rounding)
    requires b > 0
    ensures var x := Quotient(a, b);
      Steps(a, b, rounding) == match rounding case Down => x.Floor case Up => Ceil(x) case Nearest => (x + 0.5).Floor
  {
    DivMod(a, b);
    FloorOfRatio(a, b);
    RatioBetween(a as real, b as real, (a / b) as real, (a % b) as real);
    NearFloor(Quotient(a, b), a / b);
  }

  /** Where the ceiling and the half-up floor of x are, from its floor. */
  lemma NearFloor(x: real, q: int)
    requires q as real <= x < q as real + 1.0
    ensures Ceil(x) == if x == q as real then q else q + 1
    ensures (x + 0.5).Floor == if x >= q as real + 0.5 then q + 1 else q
  {}

  lemma StepsValue(steps: nat, t: Decimal)
    ensures Value(Decimal(Units(steps, t), t.scale)) == Times(steps, Value(t))
  {
    RealProduct(steps, t.intValue);
    var x, d := Value(t), Pow10(t.scale) as real;
    assert x * d == t.intValue as real;
    assert (steps as real * x) * d == steps as real * t.intValue as real;
    Ratio(steps as real * x, (steps * t.intValue) as real, d);
  }

  /** The final division is exact. */
  lemma DivisionIsExact(steps: nat, t: Decimal, common: nat)
    requires t.scale <= common
    ensures (steps * AtScale(t, common)) % Pow10(common - t.scale) == 0
    ensures Rescaled(steps, AtScale(t, common), Pow10(common - t.scale)) == Units(steps, t)
  {
    var k := Pow10(common - t.scale);
    assert steps * (t.intValue * k) == (steps * t.intValue) * k;
    MultipleDivides(steps * t.intValue, k);
  }

  lemma MultipleDivides(a: nat, k: nat)
    requires k > 0
    ensures (a * k) % k == 0 && (a * k) / k == a
  {
    var q, r := (a * k) / k, (a * k) % k;
    DivMod(a * k, k);
    assert (a - q) * k == r && (q - a) * k == -r;
    if a > q {
      AtLeastOne(a - q, k);
    } else if a < q {
      AtLeastOne(q - a, k);
    }
  }

  lemma AtLeastOne(x: nat, k: nat)
    requires x >= 1
    ensures x * k >= k
  {}

  // ----- the theorems -----

  /** Texts quantization accepts: a positive decimal price, and a positive decimal tick of at most twelve places. */
  ghost predicate WellPosed(price: string, tickSize: string) {
    && Parse(price).Some? && Parse(price).value.intValue > 0
    && Parse(tickSize).Some? && Parse(tickSize).value.intValue > 0 && Parse(tickSize).value.scale <= MAX_TICK_SCALE
  }

  /** The rounded value is the number of steps times the tick. */
  lemma RoundIsSteps(p: Decimal, t: Decimal, rounding: Rounding)
    requires t.intValue > 0
    ensures Value(t) > 0.0
    ensures Round(Value(p), Value(t), rounding) == Times(StepsOf(p, t, rounding), Value(t))
  {
    var common := Max(p.scale, t.scale);
    ValueRatio(p, t, common);
    StepsRound(AtScale(p, common), Scaled(t, common), rounding);
  }

  lemma StepsPositive(steps: nat, tick: real)
    requires tick > 0.0
    ensures Times(steps, tick) > 0.0 <==> steps > 0
  {
    if steps > 0 { MulLt(0.0, steps as real, tick); }
  }

  /** Whole ticks of the rounded price. */
  function StepsOf(p: Decimal, t: Decimal, rounding: Rounding): nat
    requires t.intValue > 0
  {
    var common := Max(p.scale, t.scale);
    Steps(AtScale(p, common), Scaled(t, common), rounding)
  }

  function Printed(steps: nat, t: Decimal): Quantized {
    if steps == 0 then Refused(ResultNotPositive) else Ok(FormatScaled(Units(steps, t), t.scale))
  }

  lemma QuantizePrints(p: Decimal, t: Decimal, rounding: Rounding)
    requires t.intValue > 0
    ensures Quantize(p, t, rounding) == Printed(StepsOf(p, t, rounding), t)
  {
    DivisionIsExact(StepsOf(p, t, rounding), t, Max(p.scale, t.scale));
  }

  /** On well-posed texts the result is the printed number of ticks, unless there are none. */
  lemma QuantizedText(price: string, tickSize: string, rounding: Rounding)
    requires WellPosed(price, tickSize)
    ensures QuantizePrice(price, tickSize, rounding)
         == Printed(StepsOf(Parse(price).value, Parse(tickSize).value, rounding), Parse(tickSize).value)
  {
    QuantizePrints(Parse(price).value, Parse(tickSize).value, rounding);
  }

  /** The text reads back as exactly the rounded value, and is given whenever that is positive. */
  ghost predicate RoundsTo(out: Quantized, t: Decimal, value: real) {
    && (out.Ok? <==> value > 0.0)
    && (out.Ok? ==>
          && Parse(out.text).Some? && Parse(out.text).value.scale == t.scale
          && Value(Parse(out.text).value) == value)
  }

  lemma PrintsSteps(steps: nat, t: Decimal, value: real)
    requires t.intValue > 0 && Value(t) > 0.0 && value == Times(steps, Value(t))
    ensures RoundsTo(Printed(steps, t), t, value)
  {
    StepsPositive(steps, Value(t));
    FormatParses(Units(steps, t), t.scale);
    StepsValue(steps, t);
  }

  /**
   * Quantization is exact rational rounding: it succeeds exactly on well-posed texts whose
   * rounded value is positive, and its text reads back, at the tick's scale, as exactly that value.
   */
  lemma QuantizeIsExact(price: string, tickSize: string, rounding: Rounding)
    ensures if WellPosed(price, tickSize) then
        && Value(Parse(tickSize).value) > 0.0
        && RoundsTo(QuantizePrice(price, tickSize, rounding), Parse(tickSize).value,
                    Round(Value(Parse(price).value), Value(Parse(tickSize).value), rounding))
      else QuantizePrice(price, tickSize, rounding).Refused?
  {
    if WellPosed(price, tickSize) {
      var p, t := Parse(price).value, Parse(tickSize).value;
      QuantizedText(price, tickSize, rounding);
      RoundIsSteps(p, t, rounding);
      PrintsSteps(StepsOf(p, t, rounding), t, Round(Value(p), Value(t), rounding));
    } else {
      IllPosed(price, tickSize, rounding);
    }
  }

  lemma IllPosed(price: string, tickSize: string, rounding: Rounding)
    requires !WellPosed(price, tickSize)
    ensures QuantizePrice(price, tickSize, rounding).Refused?
  {}

  lemma HalfTicks(f: real, y: real, x: real, tick: real)
    requires tick > 0.0 && y * tick == x && f - 0.5 <= y < f + 0.5
    ensures f * tick - tick / 2.0 <= x < f * tick + tick / 2.0
  {
    var lo, hi := f - 0.5, f + 0.5;
    MulLe(lo, y, tick);
    MulLt(y, hi, tick);
    assert lo * tick == f * tick - tick / 2.0;
    assert hi * tick == f * tick + tick / 2.0;
    assert lo * tick <= x < hi * tick;
  }

  /** Rounding to nearest: within half a tick, a tie going up. */
  lemma NearestIsWithinHalf(x: real, tick: real)
    requires tick > 0.0
    ensures var r := Round(x, tick, Nearest); r - tick / 2.0 <= x < r + tick / 2.0
  {
    var y := x / tick;
    var f := (y + 0.5).Floor as real;
    Ticks.Scaled(x, tick);
    HalfTicks(f, y, x, tick);
  }

  lemma DivideMonotone(x: real, y: real, t: real)
    requires x <= y && t > 0.0
    ensures x / t <= y / t
  {
    var u, v := x / t, y / t;
    Ticks.Scaled(x, t);
    Ticks.Scaled(y, t);
    if v < u {
      MulLt(v, u, t);
    }
  }

  lemma RoundedTicksMonotone(a: real, b: real, rounding: Rounding)
    requires a <= b
    ensures RoundedTicks(a, rounding) <= RoundedTicks(b, rounding)
  {
    match rounding
    case Down => FloorMonotone(a, b);
    case Up => FloorMonotone(-b, -a);
    case Nearest => FloorMonotone(a + 0.5, b + 0.5);
  }

  /** Rounding is monotone, in every mode. */
  lemma RoundMonotone(x: real, y: real, tick: real, rounding: Rounding)
    requires x <= y && tick > 0.0
    ensures Round(x, tick, rounding) <= Round(y, tick, rounding)
  {
    DivideMonotone(x, y, tick);
    RoundedTicksMonotone(x / tick, y / tick, rounding);
    RoundIsTimes(x, tick, rounding);
    RoundIsTimes(y, tick, rounding);
    MulLe(RoundedTicks(x / tick, rounding) as real, RoundedTicks(y / tick, rounding) as real, tick);
  }

  /** A multiple of the tick is a whole number of ticks. */
  lemma MultipleIffWhole(x: real, tick: real)
    requires tick > 0.0
    ensures IsMultiple(x, tick) <==> (x / tick).Floor as real == x / tick
  {
    var y := x / tick;
    Ticks.Scaled(x, tick);
    if y.Floor as real == y {
      assert Times(y.Floor, tick) == x;
    }
    if IsMultiple(x, tick) {
      var k: int :| Times(k, tick) == x;
      SameFactor(k as real, y, tick);
    }
  }

  lemma WholeRatio(a: nat, b: nat)
    requires b > 0
    ensures Quotient(a, b).Floor as real == Quotient(a, b) <==> a % b == 0
  {
    DivMod(a, b);
    FloorOfRatio(a, b);
    RatioBetween(a as real, b as real, (a / b) as real, (a % b) as real);
  }

  /** The integer test decides whether the price is a whole number of ticks. */
  lemma TickTestIsExact(price: string, tickSize: string)
    requires Parse(price).Some? && Parse(tickSize).Some?
    requires Parse(price).value.intValue > 0 && Parse(tickSize).value.intValue > 0
    ensures IsTickMultiple(price, tickSize) == Some(true) <==> IsMultiple(Value(Parse(price).value), Value(Parse(tickSize).value))
  {
    var p, t := Parse(price).value, Parse(tickSize).value;
    var common := Max(p.scale, t.scale);
    ValueRatio(p, t, common);
    WholeRatio(AtScale(p, common), Scaled(t, common));
    MultipleIffWhole(Value(p), Value(t));
  }

  /** A text is a fixed point of the rounding exactly when it is a tick multiple. */
  lemma FixedPointsAreMultiples(price: string, tickSize: string, rounding: Rounding)
    requires WellPosed(price, tickSize)
    ensures Value(Parse(tickSize).value) > 0.0
    ensures IsTickMultiple(price, tickSize) == Some(true) <==>
      Round(Value(Parse(price).value), Value(Parse(tickSize).value), rounding) == Value(Parse(price).value)
  {
    var x, tick := Value(Parse(price).value), Value(Parse(tickSize).value);
    TickPositive(Parse(tickSize).value);
    TickTestIsExact(price, tickSize);
    RoundOfMultiple(x, tick, rounding);
  }

  /** The rounded number of ticks. */
  function RoundedTicks(ticks: real, rounding: Rounding): (n: int)
  {
    match rounding
    case Down => ticks.Floor
    case Up => Ceil(ticks)
    case Nearest => (ticks + 0.5).Floor
  }

  lemma RoundIsTimes(x: real, tick: real, rounding: Rounding)
    requires tick > 0.0
    ensures Round(x, tick, rounding) == Times(RoundedTicks(x / tick, rounding), tick)
  {
    var ticks := x / tick;
    match rounding
    case Down => assert QuantDown(x, tick) == Times(ticks.Floor, tick);
    case Up => assert QuantUp(x, tick) == Times(Ceil(ticks), tick);
    case Nearest => assert QuantNearest(x, tick) == Times((ticks + 0.5).Floor, tick);
  }

  lemma WholeIsFixed(ticks: real, rounding: Rounding, k: int)
    requires ticks == k as real
    ensures RoundedTicks(ticks, rounding) == k
  {}

  lemma RoundOfMultiple(x: real, tick: real, rounding: Rounding)
    requires tick > 0.0
    ensures IsMultiple(x, tick) <==> Round(x, tick, rounding) == x
    ensures IsMultiple(Round(x, tick, rounding), tick)
  {
    var ticks := x / tick;
    var n := RoundedTicks(ticks, rounding);
    RoundIsTimes(x, tick, rounding);
    assert Times(n, tick) == Round(x, tick, rounding);
    if IsMultiple(x, tick) {
      var k: int :| Times(k, tick) == x;
      MultipleTicks(x, tick, k);
      WholeIsFixed(ticks, rounding, k);
      assert Round(x, tick, rounding) == Times(k, tick);
    }
  }

  lemma MultipleTicks(x: real, tick: real, k: int)
    requires tick > 0.0 && Times(k, tick) == x
    ensures x / tick == k as real
  {
    Ticks.Scaled(x, tick);
    SameFactor(k as real, x / tick, tick);
  }

  /** Quantizing a quantized price, in any mode, gives the very same text. */
  lemma QuantizeIsIdempotent(price: string, tickSize: string, rounding: Rounding, again: Rounding)
    requires QuantizePrice(price, tickSize, rounding).Ok?
    ensures var text := QuantizePrice(price, tickSize, rounding).text; QuantizePrice(text, tickSize, again) == Ok(text)
  {
    assert WellPosed(price, tickSize) by { if !WellPosed(price, tickSize) { IllPosed(price, tickSize, rounding); } }
    var p, t := Parse(price).value, Parse(tickSize).value;
    var steps := StepsOf(p, t, rounding);
    QuantizedText(price, tickSize, rounding);
    FormatParses(Units(steps, t), t.scale);
    Positive(steps, t.intValue);
    WholeSteps(steps, t, again);
    QuantizedText(FormatScaled(Units(steps, t), t.scale), tickSize, again);
  }

  /** A whole number of ticks is that many steps, in every mode. */
  lemma WholeSteps(steps: nat, t: Decimal, again: Rounding)
    requires t.intValue > 0
    ensures StepsOf(Decimal(Units(steps, t), t.scale), t, again) == steps
  {
    assert Pow10(0) == 1;
    MultipleDivides(steps, t.intValue);
  }
}
