/** The price a held level sells at. */
module ExitPricing {
  import opened Options
  import opened OrderState
  import opened Ticks

  /** What the exit price of one level depends on besides its entry. */
  datatype Geometry = Geometry(tick: real, above: Option<real>, spacing: real, takeProfit: Option<real>)

  /** The next line up, or one spacing above the top line. */
  function PriceAboveLevel(price: real, g: Geometry): Option<real>
    requires g.tick > 0.0
  {
    if g.above.Some? then g.above
    else if g.spacing <= 0.0 then None
    else
      var quantized := QuantUp(price + g.spacing, g.tick);
      if quantized <= price then None else Some(quantized)
  }

  function TakeProfitPrice(entry: real, percent: real, tick: real): real
    requires tick > 0.0
  {
    QuantUp(entry * (1.0 + percent / 100.0), tick)
  }

  /** Take profit over the executed entry, else the grid step; never at or below the entry. */
  function SellTargetPrice(l: GridLevel, g: Geometry): Option<real>
    requires g.tick > 0.0
  {
    var entry := l.entryPrice.GetOr(l.price);
    var step := PriceAboveLevel(l.price, g);
    var target :=
      if g.takeProfit.Some? && g.takeProfit.value > 0.0
      then Some(TakeProfitPrice(entry, g.takeProfit.value, g.tick))
      else step;
    if target.None? then None
    else if target.value > entry then target
    else if step.Some? && step.value > entry then step
    else None
  }
}
