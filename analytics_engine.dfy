/**
 * Cloud_patterns/Subscribers/AnalyticsEngine.cs: a subscriber that keeps the
 * price history of every symbol and reports a 10-point moving average.
 *
 * The report line is represented by the average it prints; its formatting
 * is not modelled.
 */
module Analytics {
  import opened Wrappers
  import opened Events
  import opened Broker
  import opened Subscribers

  /** The sum of the prices. */
  function Sum(s: seq<real>): real
    decreases |s|
  {
    if s == [] then 0.0 else s[0] + Sum(s[1..])
  }

  /** Enumerable.Average over a non-empty sequence. */
  function Average(s: seq<real>): real
    requires s != []
  {
    Sum(s) / (|s| as real)
  }

  /** TakeLast(n): the last n elements, or all of them when there are fewer. */
  function TakeLast(s: seq<real>, n: nat): (r: seq<real>)
    ensures |r| == if n < |s| then n else |s|
    ensures s == s[..|s| - |r|] + r
  {
    if n < |s| then s[|s| - n..] else s
  }

  /** The history of a symbol: its list if there is one, or the empty list created for it. */
  function HistoryOf(histories: map<string, seq<real>>, symbol: string): seq<real> {
    if symbol in histories then histories[symbol] else []
  }

  /** The histories after one price event: the new price is appended to its symbol's history. */
  function Record(histories: map<string, seq<real>>, e: StockPriceUpdatedEvent): (r: map<string, seq<real>>)
    ensures r.Keys == histories.Keys + {e.symbol}
    ensures r[e.symbol] == HistoryOf(histories, e.symbol) + [e.newPrice]
    ensures forall s :: s in histories && s != e.symbol ==> r[s] == histories[s]
  {
    histories[e.symbol := HistoryOf(histories, e.symbol) + [e.newPrice]]
  }

  /** What the handler reports after appending: the average of the last 10 prices when the count is a multiple of 10. */
  function Report(history: seq<real>): (r: Option<real>)
    requires history != []
    ensures r.Some? <==> |history| % 10 == 0
    ensures r.Some? ==> |history| >= 10 && r.value == Average(history[|history| - 10..])
  {
    if |history| % 10 == 0 then Some(Average(TakeLast(history, 10))) else None
  }

  /** The histories after a sequence of price events, in arrival order. */
  function RecordAll(histories: map<string, seq<real>>, events: seq<StockPriceUpdatedEvent>): map<string, seq<real>>
    decreases |events|
  {
    if events == [] then histories else Record(RecordAll(histories, events[..|events| - 1]), events[|events| - 1])
  }

  /** The new prices of one symbol's events, in arrival order. */
  function PricesOf(events: seq<StockPriceUpdatedEvent>, symbol: string): seq<real>
    decreases |events|
  {
    if events == [] then []
    else
      var last := events[|events| - 1];
      PricesOf(events[..|events| - 1], symbol) + (if last.symbol == symbol then [last.newPrice] else [])
  }

  /**
   * Starting empty, a symbol has a history exactly when one of its events
   * arrived, and that history is its new prices in arrival order: nothing is
   * dropped or trimmed.
   */
  lemma {:induction false} HistoryIsArrivalOrder(events: seq<StockPriceUpdatedEvent>, symbol: string)
    ensures symbol in RecordAll(map[], events) <==> PricesOf(events, symbol) != []
    ensures HistoryOf(RecordAll(map[], events), symbol) == PricesOf(events, symbol)
    decreases |events|
  {
    if events != [] {
      HistoryIsArrivalOrder(events[..|events| - 1], symbol);
    }
  }

  /** The average lies between the smallest and the largest price averaged. */
  lemma AverageBounds(s: seq<real>, lo: real, hi: real)
    requires s != []
    requires forall i :: 0 <= i < |s| ==> lo <= s[i] <= hi
    ensures lo <= Average(s) <= hi
  {
    SumBounds(s, lo, hi);
  }

  lemma {:induction false} SumBounds(s: seq<real>, lo: real, hi: real)
    requires forall i :: 0 <= i < |s| ==> lo <= s[i] <= hi
    ensures (|s| as real) * lo <= Sum(s) <= (|s| as real) * hi
    decreases |s|
  {
    if s != [] {
      SumBounds(s[1..], lo, hi);
    }
  }

  /** AnalyticsEngine: a subscriber with a price history per symbol. */
  class AnalyticsEngine {
    const name: string
    const clientId: string
    /** The `_priceHistory` dictionary. */
    var priceHistory: map<string, seq<real>>

    /** Construction registers the subscriptions (SubscriberBase) and starts with no history. */
    constructor(name: string, broker: EventBroker, guid: Guid)
      modifies broker`processors
      ensures this.name == name && clientId == ClientId(name, guid)
      ensures broker.processors == old(broker.processors) + RegistrationProcessors(clientId)
      ensures priceHistory == map[]
    {
      this.name := name;
      var id := RegisterSubscriptions(broker, name, guid);
      clientId := id;
      priceHistory := map[];
    }

    /**
     * OnStockPriceUpdated: creates an empty history for a new symbol, appends
     * the new price, and reports the 10-point average when the history length
     * is a multiple of 10.
     */
    method OnStockPriceUpdated(e: StockPriceUpdatedEvent) returns (report: Option<real>)
      modifies this`priceHistory
      ensures priceHistory == Record(old(priceHistory), e)
      ensures report == Report(priceHistory[e.symbol])
    {
      var history;
      if e.symbol in priceHistory {
        history := priceHistory[e.symbol];
      } else {
        history := [];
        priceHistory := priceHistory[e.symbol := history];
      }
      history := history + [e.newPrice];
      priceHistory := priceHistory[e.symbol := history];
      if |history| % 10 == 0 {
        report := Some(Average(TakeLast(history, 10)));
      } else {
        report := None;
      }
    }

    /** OnStockVolumeUpdated is inherited from SubscriberBase: no effect. */
    method OnStockVolumeUpdated(e: StockVolumeUpdatedEvent) {
    }
  }
}
