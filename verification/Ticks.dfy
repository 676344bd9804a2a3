/**
 * Rounding to multiples of a unit, over exact reals: the meaning of
 * `quantizePriceNumber` on the prices the grid computes (PriceQuantization proves
 * the decimal-string form computes the same multiples) and of `toFixed(8)`.
 */
module Ticks {

  function Floor(x: real): int { x.Floor }

  function Ceil(x: real): int { -((-x).Floor) }

  /** x rounded down to a multiple of tick. */
  function QuantDown(x: real, tick: real): (r: real)
    requires tick > 0.0
  {
    (x / tick).Floor as real * tick
  }

  /** x rounded up to a multiple of tick. */
  function QuantUp(x: real, tick: real): (r: real)
    requires tick > 0.0
  {
    Ceil(x / tick) as real * tick
  }

  /** x rounded to the nearest multiple of tick, halves up. */
  function QuantNearest(x: real, tick: real): (r: real)
    requires tick > 0.0
  {
    Times((x / tick + 0.5).Floor, tick)
  }

  ghost predicate IsMultiple(x: real, tick: real) {
    exists k: int :: Times(k, tick) == x
  }

  function Times(k: int, tick: real): real { k as real * tick }

  /** Rounding down gives the greatest multiple at or below x. */
  lemma DownIsGreatest(x: real, tick: real)
    requires tick > 0.0
    ensures IsMultiple(QuantDown(x, tick), tick)
    ensures QuantDown(x, tick) <= x && x < QuantDown(x, tick) + tick
    ensures forall k: int :: Times(k, tick) <= x ==> Times(k, tick) <= QuantDown(x, tick)
  {
    var y := x / tick;
    var f := y.Floor;
    assert Times(f, tick) == QuantDown(x, tick);
    Scaled(x, tick);
    Between(f as real, y, x, tick);
    forall k: int | Times(k, tick) <= x
      ensures Times(k, tick) <= QuantDown(x, tick)
    {
      if k > f {
        NoBetween(k, f, x, tick);
        assert false;
      } else {
        MulLe(k as real, f as real, tick);
      }
    }
  }

  /** Rounding up gives the least multiple at or above x. */
  lemma UpIsLeast(x: real, tick: real)
    requires tick > 0.0
    ensures IsMultiple(QuantUp(x, tick), tick)
    ensures QuantUp(x, tick) - tick < x && x <= QuantUp(x, tick)
    ensures forall k: int :: x <= Times(k, tick) ==> QuantUp(x, tick) <= Times(k, tick)
  {
    var y := x / tick;
    var c := Ceil(y);
    assert Times(c, tick) == QuantUp(x, tick);
    Scaled(x, tick);
    Between(-(c as real), -y, -x, tick);
    forall k: int | x <= Times(k, tick)
      ensures QuantUp(x, tick) <= Times(k, tick)
    {
      if k < c {
        NoBetween(-k, -c, -x, tick);
        assert false;
      } else {
        MulLe(c as real, k as real, tick);
      }
    }
  }

  lemma Scaled(x: real, tick: real)
    requires tick > 0.0
    ensures (x / tick) * tick == x
  {}

  lemma Above(f: real, y: real, x: real, t: real)
    requires t > 0.0 && y * t == x && f <= y
    ensures f * t <= x
  {
    MulLe(f, y, t);
  }

  lemma Below(f: real, y: real, x: real, t: real)
    requires t > 0.0 && y * t == x && y < f + 1.0
    ensures x < f * t + t
  {
    var u := f + 1.0;
    assert u * t == f * t + t;
    assert y * t < u * t by { MulLt(y, u, t); }
    assert x < u * t;
  }

  /** x lies between consecutive multiples. */
  lemma Between(f: real, y: real, x: real, t: real)
    requires t > 0.0 && y * t == x && f <= y && y < f + 1.0
    ensures f * t <= x && x < f * t + t
  {
    Above(f, y, x, t);
    Below(f, y, x, t);
  }

  lemma NoBetween(k: int, f: int, x: real, t: real)
    requires t > 0.0 && f < k && x < f as real * t + t
    ensures x < Times(k, t)
  {
    var a, b := f as real + 1.0, k as real;
    MulLe(a, b, t);
    assert a * t == f as real * t + t;
  }

  lemma MulLe(a: real, b: real, t: real)
    requires a <= b && t >= 0.0
    ensures a * t <= b * t
  {
    assert (b - a) * t >= 0.0;
  }

  lemma MulLt(a: real, b: real, t: real)
    requires a < b && t > 0.0
    ensures a * t < b * t
  {
    assert (b - a) * t > 0.0;
  }

  const HALF_8DP: real := 0.000000005

  /** `Number(x.toFixed(8))`: the nearest multiple of 1e-8, halves up. */
  function Round8(x: real): (r: real)
    ensures x - HALF_8DP <= r <= x + HALF_8DP
  {
    (x * 100000000.0 + 0.5).Floor as real / 100000000.0
  }

  lemma FloorMonotone(x: real, y: real)
    requires x <= y
    ensures x.Floor <= y.Floor
  {}

  lemma Round8Monotone(x: real, y: real)
    requires x <= y
    ensures Round8(x) <= Round8(y)
  {
    var a, b := x * 100000000.0 + 0.5, y * 100000000.0 + 0.5;
    FloorMonotone(a, b);
    assert a.Floor as real <= b.Floor as real;
  }
}
