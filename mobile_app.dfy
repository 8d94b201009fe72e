/**
 * Cloud_patterns/Subscribers/MobileApp.cs: a subscriber that alerts on large
 * price moves and on high volumes.
 *
 * An alert is represented by the values its console line shows; the line's
 * number formatting is not modelled. Decimal division by a zero previous
 * price throws, so the price handler's result is a Result.
 */
module Mobile {
  import opened Wrappers
  import opened Events

  const Up: string := "▲"
  const Down: string := "▼"

  /** The alert threshold, in percent (inclusive). */
  const AlertPercent: real := 1.0

  /** The volume above which a volume alert is shown (exclusive). */
  const HighVolume: long := 2_000_000

  /** A price alert: symbol, direction arrow, |percent change| and the new price. */
  datatype PriceAlert = PriceAlert(symbol: string, direction: string, magnitude: real, newPrice: real)

  /** A high-volume alert for a symbol. */
  datatype VolumeAlert = VolumeAlert(symbol: string, volume: long)

  function Abs(x: real): (r: real)
    ensures r >= 0.0 && (r == x || r == -x)
  {
    if x < 0.0 then -x else x
  }

  /** (NewPrice - PreviousPrice) / PreviousPrice * 100; decimal division by zero throws. */
  function PercentChange(e: StockPriceUpdatedEvent): (r: Result<real, Exception>)
    ensures r.Err? <==> e.previousPrice == 0.0
    ensures r.Err? ==> r.error == DivideByZeroException
    ensures r.Ok? ==> r.value * e.previousPrice == (e.newPrice - e.previousPrice) * 100.0
  {
    if e.previousPrice == 0.0 then Err(DivideByZeroException)
    else Ok((e.newPrice - e.previousPrice) / e.previousPrice * 100.0)
  }

  /** OnStockPriceUpdated: an alert when the move is at least 1 percent either way. */
  function OnStockPriceUpdated(e: StockPriceUpdatedEvent): (r: Result<Option<PriceAlert>, Exception>)
    ensures r.Err? <==> e.previousPrice == 0.0
    ensures r.Ok? ==> (r.value.Some? <==> Abs(PercentChange(e).value) >= AlertPercent)
    ensures r.Ok? && r.value.Some? ==>
              var a := r.value.value;
              var pct := PercentChange(e).value;
              a.symbol == e.symbol && a.newPrice == e.newPrice && a.magnitude == Abs(pct) &&
              (a.direction == Up <==> pct > 0.0) && (a.direction == Down <==> pct <= 0.0)
  {
    match PercentChange(e)
    case Err(x) => Err(x)
    case Ok(pct) =>
      if Abs(pct) >= AlertPercent then
        Ok(Some(PriceAlert(e.symbol, if pct > 0.0 then Up else Down, Abs(pct), e.newPrice)))
      else Ok(None)
  }

  /**
   * For a positive previous price the alert fires exactly when the price
   * moved by at least a hundredth of it, and points up exactly when the
   * price rose.
   */
  lemma AlertInPriceTerms(e: StockPriceUpdatedEvent)
    requires e.previousPrice > 0.0
    ensures var r := OnStockPriceUpdated(e);
            r.Ok? &&
            (r.value.Some? <==> Abs(e.newPrice - e.previousPrice) * 100.0 >= e.previousPrice) &&
            (r.value.Some? ==> (r.value.value.direction == Up <==> e.newPrice > e.previousPrice))
  {
    var pct := PercentChange(e).value;
    var d := e.newPrice - e.previousPrice;
    assert pct * e.previousPrice == d * 100.0;
    assert Abs(pct) * e.previousPrice == Abs(d) * 100.0;
    assert Abs(pct) >= 1.0 <==> Abs(pct) * e.previousPrice >= e.previousPrice;
    assert pct > 0.0 <==> d > 0.0;
  }

  /** OnStockVolumeUpdated: an alert only for volumes strictly above 2,000,000. */
  function OnStockVolumeUpdated(e: StockVolumeUpdatedEvent): (r: Option<VolumeAlert>)
    ensures r.Some? <==> e.volume > HighVolume
    ensures r.Some? ==> r.value == VolumeAlert(e.symbol, e.volume)
  {
    if e.volume > HighVolume then Some(VolumeAlert(e.symbol, e.volume)) else None
  }
}
