/**
 * Cloud_patterns/Subscribers/TradingDashboard.cs: a subscriber that prints one
 * line per event.
 *
 * A line is represented by the values it shows and the sign prefixes it puts
 * before the change and the percentage; number formatting is not modelled.
 */
module Dashboard {
  import opened Wrappers
  import opened Events

  /** The price line: symbol, new price, and the change and its percentage with their prefixes. */
  datatype PriceLine = PriceLine(
    symbol: string,
    newPrice: real,
    amountPrefix: string,
    changeAmount: real,
    percentPrefix: string,
    changePercent: real)

  /** The volume line: symbol and volume. */
  datatype VolumeLine = VolumeLine(symbol: string, volume: long)

  /** "+" before a non-negative number, nothing before a negative one (which prints its own "-"). */
  function SignPrefix(x: real): (r: string)
    ensures r == "+" <==> x >= 0.0
    ensures r == "" <==> x < 0.0
  {
    if x >= 0.0 then "+" else ""
  }

  /**
   * OnStockPriceUpdated: the change, then the change as a percentage of the
   * previous price; decimal division by zero throws. Every event that does
   * not throw produces exactly one line.
   */
  function OnStockPriceUpdated(e: StockPriceUpdatedEvent): (r: Result<PriceLine, Exception>)
    ensures r.Err? <==> e.previousPrice == 0.0
    ensures r.Err? ==> r.error == DivideByZeroException
    ensures r.Ok? ==> r.value.symbol == e.symbol && r.value.newPrice == e.newPrice &&
                      r.value.changeAmount == e.newPrice - e.previousPrice &&
                      r.value.changePercent * e.previousPrice == r.value.changeAmount * 100.0 &&
                      r.value.amountPrefix == SignPrefix(r.value.changeAmount) &&
                      r.value.percentPrefix == SignPrefix(r.value.changePercent)
  {
    var changeAmount := e.newPrice - e.previousPrice;
    if e.previousPrice == 0.0 then Err(DivideByZeroException)
    else
      var changePercent := changeAmount / e.previousPrice * 100.0;
      Ok(PriceLine(e.symbol, e.newPrice, SignPrefix(changeAmount), changeAmount, SignPrefix(changePercent), changePercent))
  }

  /** For a positive previous price the two prefixes always agree. */
  lemma PrefixesAgree(e: StockPriceUpdatedEvent)
    requires e.previousPrice > 0.0
    ensures OnStockPriceUpdated(e).Ok?
    ensures OnStockPriceUpdated(e).value.amountPrefix == OnStockPriceUpdated(e).value.percentPrefix
  {
    var line := OnStockPriceUpdated(e).value;
    assert line.changePercent * e.previousPrice == line.changeAmount * 100.0;
    assert line.changePercent >= 0.0 <==> line.changeAmount >= 0.0;
  }

  /** For a negative previous price a nonzero change gets opposite prefixes. */
  lemma PrefixesDisagreeBelowZero(e: StockPriceUpdatedEvent)
    requires e.previousPrice < 0.0 && e.newPrice != e.previousPrice
    ensures OnStockPriceUpdated(e).Ok?
    ensures OnStockPriceUpdated(e).value.amountPrefix != OnStockPriceUpdated(e).value.percentPrefix
  {
    var line := OnStockPriceUpdated(e).value;
    assert line.changePercent * e.previousPrice == line.changeAmount * 100.0;
    assert line.changePercent > 0.0 <==> line.changeAmount < 0.0;
  }

  /** OnStockVolumeUpdated: one line for every volume event, with no filtering. */
  function OnStockVolumeUpdated(e: StockVolumeUpdatedEvent): (r: VolumeLine)
    ensures r.symbol == e.symbol && r.volume == e.volume
  {
    VolumeLine(e.symbol, e.volume)
  }
}
