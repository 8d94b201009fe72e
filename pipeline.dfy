/**
 * How the parts of Cloud_patterns fit together: an event the write model
 * publishes is what the read model and the subscribers consume, and the
 * four places that turn a price event into a relative change agree with one
 * another.
 */
module Pipeline {
  import opened Wrappers
  import opened Events
  import opened Broker
  import WriteModel
  import ReadModel
  import Mobile
  import Dashboard

  /**
   * For a non-zero previous price, the read model's percentage, the mobile
   * app's percentage and the dashboard's percentage are the same number, and
   * that number is 100 times the PriceChange ratio of the published message.
   */
  lemma PercentagesAgree(stocks: map<string, ReadModel.StockReadData>, e: StockPriceUpdatedEvent, now: Timestamp)
    requires e.symbol in stocks && e.previousPrice != 0.0
    ensures var read := ReadModel.ApplyPrice(stocks, e, now);
            var mobile := Mobile.PercentChange(e);
            var dashboard := Dashboard.OnStockPriceUpdated(e);
            var envelope := CreateMessage(PriceUpdated(e));
            read.1.Pass? && mobile.Ok? && dashboard.Ok? && envelope.Ok? &&
            read.0[e.symbol].priceChangePercent == mobile.value &&
            dashboard.value.changePercent == mobile.value &&
            envelope.value.properties["PriceChange"] == DecimalValue(mobile.value / 100.0)
  {
    ReadModel.PriceUpdateRecordsChange(stocks, e, now);
    PriceChangeIsRatio(e);
    var p := e.previousPrice;
    var read := ReadModel.ApplyPrice(stocks, e, now).0[e.symbol].priceChangePercent;
    var mobile := Mobile.PercentChange(e).value;
    var dashboard := Dashboard.OnStockPriceUpdated(e).value.changePercent;
    var ratio := CreateMessage(PriceUpdated(e)).value.properties["PriceChange"].d;
    assert read * p == mobile * p;
    assert dashboard * p == mobile * p;
    assert p * (1.0 + ratio) == e.newPrice;
    assert (mobile / 100.0) * p == p * ratio;
  }

  /**
   * A zero previous price never reaches a subscriber: building the message
   * throws, so the publish fails whatever the transport does, and every
   * consumer would have thrown on the same division.
   */
  lemma ZeroPreviousPriceIsNeverDelivered(e: StockPriceUpdatedEvent, sendFails: bool)
    requires e.previousPrice == 0.0
    ensures PublishOutcome(PriceUpdated(e), sendFails) == Fail(DivideByZeroException)
    ensures Mobile.PercentChange(e).Err? && Dashboard.OnStockPriceUpdated(e).Err?
  {
  }

  /**
   * The volume a volume command publishes, once the read model applies it,
   * is the write model's new cumulative volume: the two sides agree on the
   * symbol's volume, and the read side keeps its prices.
   */
  lemma VolumeSidesAgree(ws: map<string, WriteModel.StockWriteData>, rs: map<string, ReadModel.StockReadData>,
                         symbol: string, additionalVolume: long, id: Guid, now: Timestamp)
    requires symbol in ws && symbol in rs
    ensures var ws' := WriteModel.AddVolume(ws, symbol, additionalVolume);
            var e := WriteModel.VolumeEvent(symbol, ws'[symbol].volume, id, now);
            var rs' := ReadModel.ApplyVolume(rs, e.volume, now);
            rs'[symbol].volume == ws'[symbol].volume &&
            rs'[symbol].currentPrice == rs[symbol].currentPrice
  {
    var ws' := WriteModel.AddVolume(ws, symbol, additionalVolume);
    var e := WriteModel.VolumeEvent(symbol, ws'[symbol].volume, id, now);
    ReadModel.VolumeUpdateKeepsPrices(rs, e.volume, now);
  }

  /**
   * The price a price command publishes, once the read model applies it, is
   * the write model's new price, and the change the read model records is
   * the difference from the write model's previous price.
   */
  lemma PriceSidesAgree(ws: map<string, WriteModel.StockWriteData>, rs: map<string, ReadModel.StockReadData>,
                        symbol: string, newPrice: real, id: Guid, now: Timestamp)
    requires symbol in ws && symbol in rs
    ensures var ws' := WriteModel.SetPrice(ws, symbol, newPrice);
            var e := WriteModel.PriceEvent(symbol, ws[symbol].price, newPrice, id, now);
            var rs' := ReadModel.ApplyPrice(rs, e.price, now).0;
            rs'[symbol].currentPrice == ws'[symbol].price &&
            rs'[symbol].priceChange == ws'[symbol].price - ws[symbol].price
  {
  }
}
