/**
 * The command side of the CQRS pipeline: Cloud_patterns/CQRS/Write/StockWriteModel.cs
 * and its record StockWriteData.cs.
 *
 * The `_stocks` dictionary maps a symbol to a StockWriteData object whose
 * fields the commands mutate. The objects never leave the write model, so the
 * model stores them as values and a command replaces the entry.
 */
module WriteModel {
  import opened Wrappers
  import opened Events
  import opened Broker

  /** StockWriteData: the authoritative price and cumulative volume of one symbol. */
  datatype StockWriteData = StockWriteData(symbol: string, price: real, volume: long)

  /** The Source of every event the write model publishes. */
  const WriteModelSource: string := "StockWriteModel"

  /** InitializeStocks: the five seeded symbols. */
  function InitialStocks(): (stocks: map<string, StockWriteData>)
    ensures stocks.Keys == {"MSFT", "AAPL", "AMZN", "GOOGL", "TSLA"}
    ensures forall s :: s in stocks ==> stocks[s].symbol == s
  {
    map[
      "MSFT" := StockWriteData("MSFT", 350.0, 1_000_000),
      "AAPL" := StockWriteData("AAPL", 175.0, 2_000_000),
      "AMZN" := StockWriteData("AMZN", 125.0, 1_500_000),
      "GOOGL" := StockWriteData("GOOGL", 140.0, 800_000),
      "TSLA" := StockWriteData("TSLA", 225.0, 3_000_000)
    ]
  }

  /** Every entry is filed under its own symbol. */
  ghost predicate KeyedBySymbol(stocks: map<string, StockWriteData>) {
    forall s :: s in stocks ==> stocks[s].symbol == s
  }

  /** The table after UpdateStockPrice: only a known symbol's price changes. */
  function SetPrice(stocks: map<string, StockWriteData>, symbol: string, newPrice: real): (r: map<string, StockWriteData>)
    ensures r.Keys == stocks.Keys
    ensures forall s :: s in stocks && s != symbol ==> r[s] == stocks[s]
    ensures symbol in stocks ==> r[symbol].price == newPrice &&
                                 r[symbol].volume == stocks[symbol].volume &&
                                 r[symbol].symbol == stocks[symbol].symbol
    ensures symbol !in stocks ==> r == stocks
  {
    if symbol in stocks then stocks[symbol := stocks[symbol].(price := newPrice)] else stocks
  }

  /** The table after UpdateStockVolume: only a known symbol's volume grows, with 64-bit wrap-around. */
  function AddVolume(stocks: map<string, StockWriteData>, symbol: string, additionalVolume: long): (r: map<string, StockWriteData>)
    ensures r.Keys == stocks.Keys
    ensures forall s :: s in stocks && s != symbol ==> r[s] == stocks[s]
    ensures symbol in stocks ==> r[symbol].volume == WrappingAdd(stocks[symbol].volume, additionalVolume) &&
                                 r[symbol].price == stocks[symbol].price &&
                                 r[symbol].symbol == stocks[symbol].symbol
    ensures symbol !in stocks ==> r == stocks
  {
    if symbol in stocks then
      stocks[symbol := stocks[symbol].(volume := WrappingAdd(stocks[symbol].volume, additionalVolume))]
    else stocks
  }

  /** The event UpdateStockPrice publishes for a known symbol, given the price before the command. */
  function PriceEvent(symbol: string, previousPrice: real, newPrice: real, id: Guid, now: Timestamp): (e: Event)
    ensures e.PriceUpdated? && e.Symbol() == symbol && e.Source() == WriteModelSource && e.Id() == id
    ensures e.price.previousPrice == previousPrice && e.price.newPrice == newPrice
  {
    PriceUpdated(StockPriceUpdatedEvent(id, now, WriteModelSource, symbol, previousPrice, newPrice))
  }

  /** The event UpdateStockVolume publishes for a known symbol: the new cumulative volume. */
  function VolumeEvent(symbol: string, volume: long, id: Guid, now: Timestamp): (e: Event)
    ensures e.VolumeUpdated? && e.Symbol() == symbol && e.Source() == WriteModelSource && e.Id() == id
    ensures e.volume.volume == volume
  {
    VolumeUpdated(StockVolumeUpdatedEvent(id, now, WriteModelSource, symbol, volume))
  }

  /**
   * The unchecked `long +=` of a volume command: a sum that fits is stored
   * exactly, and a sum above 2^63 - 1 wraps around to a negative volume,
   * lower than the one before.
   */
  lemma VolumeOverflowWraps(stocks: map<string, StockWriteData>, symbol: string, additionalVolume: long)
    requires symbol in stocks
    ensures var sum := stocks[symbol].volume as int + additionalVolume as int;
            var after := AddVolume(stocks, symbol, additionalVolume)[symbol].volume;
            (InLongRange(sum) ==> after as int == sum) &&
            (sum >= 0x8000_0000_0000_0000 ==> after < 0 && after < stocks[symbol].volume && after as int == sum - LongModulus)
  {
    var sum := stocks[symbol].volume as int + additionalVolume as int;
    var after := AddVolume(stocks, symbol, additionalVolume)[symbol].volume;
    if sum >= 0x8000_0000_0000_0000 {
      assert (sum - after as int) % LongModulus == 0;
      assert 0 < sum - after as int < 2 * LongModulus;
    }
  }

  /** Both commands keep every entry filed under its own symbol. */
  lemma CommandsKeepKeys(stocks: map<string, StockWriteData>, symbol: string, newPrice: real, additionalVolume: long)
    requires KeyedBySymbol(stocks)
    ensures KeyedBySymbol(SetPrice(stocks, symbol, newPrice))
    ensures KeyedBySymbol(AddVolume(stocks, symbol, additionalVolume))
  {
  }

  class StockWriteModel {
    /** The `_stocks` dictionary. */
    var stocks: map<string, StockWriteData>
    /** The broker every command publishes through. */
    const broker: EventBroker

    /** The constructor runs InitializeStocks. */
    constructor(eventBroker: EventBroker)
      ensures broker == eventBroker
      ensures stocks == InitialStocks()
    {
      broker := eventBroker;
      stocks := InitialStocks();
    }

    /**
     * UpdateStockPrice: for a known symbol, sets the price and then publishes
     * one price event carrying the previous and new prices. The table is
     * updated before the publish, so a failing publish leaves the new price
     * in place and its exception reaches the caller. An unknown symbol is
     * ignored.
     */
    method UpdateStockPrice(symbol: string, newPrice: real, id: Guid, now: Timestamp, sendFails: bool)
      returns (r: Outcome<Exception>)
      requires broker.Valid()
      modifies this`stocks, broker`senders, broker`outbox, broker`totalEventsPublished
      ensures broker.Valid()
      ensures stocks == SetPrice(old(stocks), symbol, newPrice)
      ensures symbol !in old(stocks) ==>
                r == Pass && unchanged(broker`senders, broker`outbox, broker`totalEventsPublished)
      ensures symbol in old(stocks) ==>
                var e := PriceEvent(symbol, old(stocks)[symbol].price, newPrice, id, now);
                r == PublishOutcome(e, sendFails) &&
                broker.senders == old(broker.senders)[e.Kind() := GetTopicName(e.Kind())] &&
                broker.outbox == old(broker.outbox) + (if r.Pass? then [Message(PriceTopic, CreateMessage(e).value)] else [])
    {
      if symbol in stocks {
        var previousPrice := stocks[symbol].price;
        stocks := stocks[symbol := stocks[symbol].(price := newPrice)];
        var e := PriceEvent(symbol, previousPrice, newPrice, id, now);
        r := broker.PublishAsync(e, sendFails);
      } else {
        r := Pass;
      }
    }

    /**
     * UpdateStockVolume: for a known symbol, adds to the cumulative volume
     * (no sign check, 64-bit wrap-around) and then publishes one volume
     * event carrying the new total. As with prices, the table is updated
     * before the publish. An unknown symbol is ignored.
     */
    method UpdateStockVolume(symbol: string, additionalVolume: long, id: Guid, now: Timestamp, sendFails: bool)
      returns (r: Outcome<Exception>)
      requires broker.Valid()
      modifies this`stocks, broker`senders, broker`outbox, broker`totalEventsPublished
      ensures broker.Valid()
      ensures stocks == AddVolume(old(stocks), symbol, additionalVolume)
      ensures symbol !in old(stocks) ==>
                r == Pass && unchanged(broker`senders, broker`outbox, broker`totalEventsPublished)
      ensures symbol in old(stocks) ==>
                var e := VolumeEvent(symbol, stocks[symbol].volume, id, now);
                r == PublishOutcome(e, sendFails) &&
                broker.senders == old(broker.senders)[e.Kind() := GetTopicName(e.Kind())] &&
                broker.outbox == old(broker.outbox) + (if r.Pass? then [Message(VolumeTopic, CreateMessage(e).value)] else [])
    {
      if symbol in stocks {
        var total := WrappingAdd(stocks[symbol].volume, additionalVolume);
        stocks := stocks[symbol := stocks[symbol].(volume := total)];
        var e := VolumeEvent(symbol, total, id, now);
        r := broker.PublishAsync(e, sendFails);
      } else {
        r := Pass;
      }
    }
  }
}
