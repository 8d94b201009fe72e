/**
 * The query side of the CQRS pipeline: Cloud_patterns/CQRS/Read/StockReadModel.cs
 * and its record StockReadData.cs.
 *
 * The `_stocks` ConcurrentDictionary maps a symbol to a StockReadData object
 * whose fields the update delegates mutate in place. The model stores the
 * records as values; the enumeration order of the dictionary, which .NET
 * leaves unspecified, is an input of the queries that depend on it.
 */
module ReadModel {
  import opened Wrappers
  import opened Events

  /** StockReadData: the denormalised view of one symbol. */
  datatype StockReadData = StockReadData(
    symbol: string,
    currentPrice: real,
    priceChange: real,
    priceChangePercent: real,
    volume: long,
    lastUpdated: Timestamp)

  // ---------------------------------------------------------------------------
  // The event handlers, as functions of the table
  // ---------------------------------------------------------------------------

  /** Entry `s` is the same (present with the same record, or absent) in both tables. */
  predicate AgreeAt(m1: map<string, StockReadData>, m2: map<string, StockReadData>, s: string) {
    (s in m1 <==> s in m2) && (s in m1 ==> m1[s] == m2[s])
  }

  /**
   * HandleStockPriceUpdate. An unseen symbol gets a new record holding only
   * the new price (the other fields keep their defaults). A known symbol's
   * record has its price, then its change set; the percentage divides by the
   * previous price, and when that is zero the division throws after the
   * first two fields were already written, so they stay.
   */
  function ApplyPrice(stocks: map<string, StockReadData>, e: StockPriceUpdatedEvent, now: Timestamp)
    : (r: (map<string, StockReadData>, Outcome<Exception>))
    ensures r.0.Keys == stocks.Keys + {e.symbol}
    ensures forall s :: s != e.symbol ==> AgreeAt(r.0, stocks, s)
    ensures r.1.Fail? <==> e.symbol in stocks && e.previousPrice == 0.0
    ensures r.0[e.symbol].currentPrice == e.newPrice
  {
    if e.symbol !in stocks then
      (stocks[e.symbol := StockReadData(e.symbol, e.newPrice, 0.0, 0.0, 0, now)], Pass)
    else
      var existing := stocks[e.symbol].(currentPrice := e.newPrice, priceChange := e.newPrice - e.previousPrice);
      if e.previousPrice == 0.0 then
        (stocks[e.symbol := existing], Fail(DivideByZeroException))
      else
        var updated := existing.(priceChangePercent := (e.newPrice / e.previousPrice - 1.0) * 100.0, lastUpdated := now);
        (stocks[e.symbol := updated], Pass)
  }

  /**
   * HandleStockVolumeUpdate. An unseen symbol gets a new record holding only
   * the volume; a known symbol's volume is replaced by the event's (not
   * added to) and its prices stay.
   */
  function ApplyVolume(stocks: map<string, StockReadData>, e: StockVolumeUpdatedEvent, now: Timestamp)
    : (r: map<string, StockReadData>)
    ensures r.Keys == stocks.Keys + {e.symbol}
    ensures forall s :: s != e.symbol ==> AgreeAt(r, stocks, s)
    ensures r[e.symbol].volume == e.volume && r[e.symbol].lastUpdated == now
  {
    if e.symbol !in stocks then
      stocks[e.symbol := StockReadData(e.symbol, 0.0, 0.0, 0.0, e.volume, now)]
    else
      stocks[e.symbol := stocks[e.symbol].(volume := e.volume, lastUpdated := now)]
  }

  /** A price event for a symbol seen for the first time records no change. */
  lemma FirstPriceHasNoChange(stocks: map<string, StockReadData>, e: StockPriceUpdatedEvent, now: Timestamp)
    requires e.symbol !in stocks
    ensures var entry := ApplyPrice(stocks, e, now).0[e.symbol];
            entry.priceChange == 0.0 && entry.priceChangePercent == 0.0 && entry.volume == 0 &&
            entry.symbol == e.symbol
  {
  }

  /**
   * A price event for a known symbol with a non-zero previous price records
   * the change and its percentage of the previous price, and keeps the volume.
   */
  lemma PriceUpdateRecordsChange(stocks: map<string, StockReadData>, e: StockPriceUpdatedEvent, now: Timestamp)
    requires e.symbol in stocks && e.previousPrice != 0.0
    ensures var entry := ApplyPrice(stocks, e, now).0[e.symbol];
            entry.priceChange == e.newPrice - e.previousPrice &&
            entry.priceChangePercent * e.previousPrice == entry.priceChange * 100.0 &&
            entry.volume == stocks[e.symbol].volume &&
            entry.symbol == stocks[e.symbol].symbol
  {
    var entry := ApplyPrice(stocks, e, now).0[e.symbol];
    calc {
      entry.priceChangePercent * e.previousPrice;
      (e.newPrice / e.previousPrice - 1.0) * 100.0 * e.previousPrice;
      (e.newPrice - e.previousPrice) * 100.0;
    }
  }

  /** A volume event keeps a known symbol's prices. */
  lemma VolumeUpdateKeepsPrices(stocks: map<string, StockReadData>, e: StockVolumeUpdatedEvent, now: Timestamp)
    requires e.symbol in stocks
    ensures var entry := ApplyVolume(stocks, e, now)[e.symbol];
            entry.currentPrice == stocks[e.symbol].currentPrice &&
            entry.priceChange == stocks[e.symbol].priceChange &&
            entry.priceChangePercent == stocks[e.symbol].priceChangePercent &&
            entry.symbol == stocks[e.symbol].symbol
  {
  }

  /** Redelivering a volume event changes nothing: the volume is replaced, not accumulated. */
  lemma VolumeRedeliveryIdempotent(stocks: map<string, StockReadData>, e: StockVolumeUpdatedEvent, now: Timestamp)
    ensures ApplyVolume(ApplyVolume(stocks, e, now), e, now) == ApplyVolume(stocks, e, now)
  {
  }

  /** Every record is filed under its own symbol. */
  ghost predicate KeyedBySymbol(stocks: map<string, StockReadData>) {
    forall s :: s in stocks ==> stocks[s].symbol == s
  }

  // ---------------------------------------------------------------------------
  // Replaying a delivery sequence
  // ---------------------------------------------------------------------------

  /** A delivered event and the moment its handler ran. */
  datatype Delivered = Delivered(event: Event, at: Timestamp)

  /** One delivery: the handler's effect on the table (an exception is swallowed by the broker). */
  function ApplyEvent(stocks: map<string, StockReadData>, d: Delivered): map<string, StockReadData> {
    match d.event
    case PriceUpdated(p) => ApplyPrice(stocks, p, d.at).0
    case VolumeUpdated(v) => ApplyVolume(stocks, v, d.at)
  }

  /** The table after the deliveries, in order. */
  function Replay(stocks: map<string, StockReadData>, ds: seq<Delivered>): map<string, StockReadData>
    decreases |ds|
  {
    if ds == [] then stocks else Replay(ApplyEvent(stocks, ds[0]), ds[1..])
  }

  /** The deliveries concerning one symbol, in order. */
  function OnSymbol(ds: seq<Delivered>, s: string): (r: seq<Delivered>)
    ensures forall i :: 0 <= i < |r| ==> r[i].event.Symbol() == s
    decreases |ds|
  {
    if ds == [] then []
    else (if ds[0].event.Symbol() == s then [ds[0]] else []) + OnSymbol(ds[1..], s)
  }

  /** The selection keeps every delivery on the symbol, as often as it occurs, and nothing else. */
  lemma {:induction false} OnSymbolSelects(ds: seq<Delivered>, s: string)
    ensures forall d :: multiset(OnSymbol(ds, s))[d] == if d.event.Symbol() == s then multiset(ds)[d] else 0
    decreases |ds|
  {
    if ds != [] {
      OnSymbolSelects(ds[1..], s);
      assert ds == [ds[0]] + ds[1..];
    }
  }

  /** Selecting one symbol's deliveries keeps their order: it distributes over concatenation. */
  lemma {:induction false} OnSymbolAppend(a: seq<Delivered>, b: seq<Delivered>, s: string)
    ensures OnSymbol(a + b, s) == OnSymbol(a, s) + OnSymbol(b, s)
    decreases |a|
  {
    if a == [] {
      assert a + b == b;
    } else {
      OnSymbolAppend(a[1..], b, s);
      assert (a + b)[0] == a[0] && (a + b)[1..] == a[1..] + b;
    }
  }

  /** Handlers keep every record filed under its own symbol. */
  lemma {:induction false} ReplayKeyedBySymbol(stocks: map<string, StockReadData>, ds: seq<Delivered>)
    requires KeyedBySymbol(stocks)
    ensures KeyedBySymbol(Replay(stocks, ds))
    decreases |ds|
  {
    if ds != [] {
      ReplayKeyedBySymbol(ApplyEvent(stocks, ds[0]), ds[1..]);
    }
  }

  /** A symbol's record after a replay depends only on its record before. */
  lemma {:induction false} ReplayRespectsAgreement(m1: map<string, StockReadData>, m2: map<string, StockReadData>,
                                                   ds: seq<Delivered>, s: string)
    requires AgreeAt(m1, m2, s)
    ensures AgreeAt(Replay(m1, ds), Replay(m2, ds), s)
    decreases |ds|
  {
    if ds != [] {
      var n1 := ApplyEvent(m1, ds[0]);
      var n2 := ApplyEvent(m2, ds[0]);
      assert AgreeAt(n1, n2, s);
      ReplayRespectsAgreement(n1, n2, ds[1..], s);
    }
  }

  /**
   * A symbol's record depends only on the events for that symbol: replaying
   * every delivery and replaying only that symbol's deliveries agree on it.
   */
  lemma {:induction false} ReplayIsPerSymbol(stocks: map<string, StockReadData>, ds: seq<Delivered>, s: string)
    ensures AgreeAt(Replay(stocks, ds), Replay(stocks, OnSymbol(ds, s)), s)
    decreases |ds|
  {
    if ds != [] {
      var next := ApplyEvent(stocks, ds[0]);
      ReplayIsPerSymbol(next, ds[1..], s);
      if ds[0].event.Symbol() == s {
        assert OnSymbol(ds, s) == [ds[0]] + OnSymbol(ds[1..], s);
        assert ([ds[0]] + OnSymbol(ds[1..], s))[1..] == OnSymbol(ds[1..], s);
      } else {
        assert OnSymbol(ds, s) == OnSymbol(ds[1..], s);
        assert AgreeAt(next, stocks, s);
        ReplayRespectsAgreement(next, stocks, OnSymbol(ds[1..], s), s);
      }
    }
  }

  // ---------------------------------------------------------------------------
  // The queries
  // ---------------------------------------------------------------------------

  /** `order` lists every key of the table exactly once: an enumeration order of the dictionary. */
  ghost predicate IsEnumerationOf(order: seq<string>, keys: set<string>) {
    && (forall i, j :: 0 <= i < j < |order| ==> order[i] != order[j])
    && (forall s :: s in keys <==> s in order)
  }

  /** The sort key of GetTopMovers: |PriceChangePercent|. */
  function Magnitude(d: StockReadData): (r: real)
    ensures r >= 0.0 && (r == d.priceChangePercent || r == -d.priceChangePercent)
  {
    if d.priceChangePercent < 0.0 then -d.priceChangePercent else d.priceChangePercent
  }

  /** Records in non-increasing order of Magnitude. */
  ghost predicate SortedByMagnitude(s: seq<StockReadData>) {
    forall i, j :: 0 <= i < j < |s| ==> Magnitude(s[i]) >= Magnitude(s[j])
  }

  /** The records, in order, whose Magnitude is `k`. */
  function WithMagnitude(s: seq<StockReadData>, k: real): seq<StockReadData>
    decreases |s|
  {
    if s == [] then []
    else (if Magnitude(s[0]) == k then [s[0]] else []) + WithMagnitude(s[1..], k)
  }

  /**
   * Places `x` into a sorted sequence whose records all came after `x`:
   * before the first record of equal or smaller Magnitude, so that ties keep
   * their original order.
   */
  function InsertByMagnitude(x: StockReadData, s: seq<StockReadData>): (r: seq<StockReadData>)
    ensures |r| == |s| + 1
    ensures multiset(r) == multiset(s) + multiset{x}
    ensures r[0] == x || (s != [] && r[0] == s[0])
    decreases |s|
  {
    if s == [] then [x]
    else if Magnitude(s[0]) <= Magnitude(x) then [x] + s
    else
      assert s == [s[0]] + s[1..];
      [s[0]] + InsertByMagnitude(x, s[1..])
  }

  /** OrderByDescending(s => Math.Abs(s.PriceChangePercent)): a stable sort. */
  function SortByMagnitude(s: seq<StockReadData>): (r: seq<StockReadData>)
    ensures |r| == |s|
    ensures multiset(r) == multiset(s)
    decreases |s|
  {
    if s == [] then []
    else
      assert s == [s[0]] + s[1..];
      InsertByMagnitude(s[0], SortByMagnitude(s[1..]))
  }

  /** Insertion brings in no record that moves more than a bound every record already respects. */
  lemma {:induction false} InsertBounded(x: StockReadData, s: seq<StockReadData>, bound: real)
    requires Magnitude(x) <= bound
    requires forall i :: 0 <= i < |s| ==> Magnitude(s[i]) <= bound
    ensures forall i :: 0 <= i < |InsertByMagnitude(x, s)| ==> Magnitude(InsertByMagnitude(x, s)[i]) <= bound
    decreases |s|
  {
    if s != [] && Magnitude(s[0]) > Magnitude(x) {
      InsertBounded(x, s[1..], bound);
    }
  }

  lemma {:induction false} InsertKeepsSorted(x: StockReadData, s: seq<StockReadData>)
    requires SortedByMagnitude(s)
    ensures SortedByMagnitude(InsertByMagnitude(x, s))
    decreases |s|
  {
    if s != [] && Magnitude(s[0]) > Magnitude(x) {
      InsertKeepsSorted(x, s[1..]);
      InsertBounded(x, s[1..], Magnitude(s[0]));
    }
  }

  lemma WithMagnitudeCons(y: StockReadData, s: seq<StockReadData>, k: real)
    ensures WithMagnitude([y] + s, k) == (if Magnitude(y) == k then [y] else []) + WithMagnitude(s, k)
  {
    assert ([y] + s)[1..] == s;
  }

  /** Two sequences, one of them empty, can be put in either order. */
  lemma SwapEmpty<T>(a: seq<T>, b: seq<T>, c: seq<T>)
    requires a == [] || b == []
    ensures a + (b + c) == b + (a + c)
  {
    if a == [] {
      assert a + (b + c) == b + c == b + (a + c);
    } else {
      assert a + (b + c) == a + c == b + (a + c);
    }
  }

  /** Inserting `x` puts it ahead of every record of its Magnitude and moves no other record of any Magnitude. */
  lemma {:induction false} InsertWithMagnitude(x: StockReadData, s: seq<StockReadData>, k: real)
    ensures WithMagnitude(InsertByMagnitude(x, s), k) ==
            (if Magnitude(x) == k then [x] else []) + WithMagnitude(s, k)
    decreases |s|
  {
    if s == [] {
    } else if Magnitude(s[0]) <= Magnitude(x) {
      WithMagnitudeCons(x, s, k);
    } else {
      var r := InsertByMagnitude(x, s[1..]);
      var head := if Magnitude(x) == k then [x] else [];
      var first := if Magnitude(s[0]) == k then [s[0]] else [];
      calc {
        WithMagnitude(InsertByMagnitude(x, s), k);
        WithMagnitude([s[0]] + r, k);
        { WithMagnitudeCons(s[0], r, k); }
        first + WithMagnitude(r, k);
        { InsertWithMagnitude(x, s[1..], k); }
        first + (head + WithMagnitude(s[1..], k));
        { assert first == [] || head == []; SwapEmpty(first, head, WithMagnitude(s[1..], k)); }
        head + (first + WithMagnitude(s[1..], k));
        { WithMagnitudeCons(s[0], s[1..], k); assert [s[0]] + s[1..] == s; }
        head + WithMagnitude(s, k);
      }
    }
  }

  /** SortByMagnitude orders the records by non-increasing Magnitude. */
  lemma {:induction false} SortIsSorted(s: seq<StockReadData>)
    ensures SortedByMagnitude(SortByMagnitude(s))
    decreases |s|
  {
    if s != [] {
      SortIsSorted(s[1..]);
      InsertKeepsSorted(s[0], SortByMagnitude(s[1..]));
    }
  }

  /** SortByMagnitude is stable: the records of each Magnitude keep their relative order. */
  lemma {:induction false} SortIsStable(s: seq<StockReadData>, k: real)
    ensures WithMagnitude(SortByMagnitude(s), k) == WithMagnitude(s, k)
    decreases |s|
  {
    if s != [] {
      SortIsStable(s[1..], k);
      InsertWithMagnitude(s[0], SortByMagnitude(s[1..]), k);
    }
  }

  /** Take(count): the first `count` elements, none for a negative count, all for a large one. */
  function Take<T>(s: seq<T>, count: int): (r: seq<T>)
    ensures |r| == if count <= 0 then 0 else if count < |s| then count else |s|
    ensures r <= s
  {
    if count <= 0 then [] else if count < |s| then s[..count] else s
  }

  /** The pipeline of GetTopMovers over a snapshot of the records. */
  function TopMovers(values: seq<StockReadData>, count: int): seq<StockReadData> {
    Take(SortByMagnitude(values), count)
  }

  /**
   * GetTopMovers returns min(max(count, 0), n) of the records, with the
   * largest moves first, ties in snapshot order, and every record it leaves
   * out moves no more than any record it returns.
   */
  lemma TopMoversSpec(values: seq<StockReadData>, count: int)
    ensures |TopMovers(values, count)| == (if count <= 0 then 0 else if count < |values| then count else |values|)
    ensures multiset(TopMovers(values, count)) <= multiset(values)
    ensures SortedByMagnitude(TopMovers(values, count))
    ensures forall x, y :: x in multiset(values) - multiset(TopMovers(values, count)) && y in TopMovers(values, count) ==>
              Magnitude(x) <= Magnitude(y)
    ensures forall k :: WithMagnitude(TopMovers(values, count), k) <= WithMagnitude(values, k)
  {
    TopMoversSorted(values, count);
    TopMoversSubMultiset(values, count);
    TopMoversAreLargest(values, count);
    TopMoversKeepTies(values, count);
  }

  /** The top movers come in non-increasing order of Magnitude. */
  lemma TopMoversSorted(values: seq<StockReadData>, count: int)
    ensures SortedByMagnitude(TopMovers(values, count))
  {
    SortIsSorted(values);
    var sorted := SortByMagnitude(values);
    var r := TopMovers(values, count);
    assert forall i :: 0 <= i < |r| ==> r[i] == sorted[i];
  }

  /** The top movers are taken from the records, each at most as often as it occurs. */
  lemma TopMoversSubMultiset(values: seq<StockReadData>, count: int)
    ensures multiset(TopMovers(values, count)) <= multiset(values)
  {
    var sorted := SortByMagnitude(values);
    var r := TopMovers(values, count);
    assert sorted == r + sorted[|r|..];
    assert multiset(sorted) == multiset(r) + multiset(sorted[|r|..]);
  }

  /** The top movers of each Magnitude are the first records of that Magnitude in the snapshot. */
  lemma TopMoversKeepTies(values: seq<StockReadData>, count: int)
    ensures forall k :: WithMagnitude(TopMovers(values, count), k) <= WithMagnitude(values, k)
  {
    var sorted := SortByMagnitude(values);
    var r := TopMovers(values, count);
    assert sorted == r + sorted[|r|..];
    forall k ensures WithMagnitude(r, k) <= WithMagnitude(values, k) {
      WithMagnitudeAppend(r, sorted[|r|..], k);
      SortIsStable(values, k);
    }
  }

  /** Cutting a sorted sequence: nothing after the cut moves more than anything before it. */
  lemma LeftOutMoveLess(sorted: seq<StockReadData>, n: nat)
    requires SortedByMagnitude(sorted) && n <= |sorted|
    ensures forall x, y :: x in multiset(sorted[n..]) && y in sorted[..n] ==> Magnitude(x) <= Magnitude(y)
  {
    forall x, y | x in multiset(sorted[n..]) && y in sorted[..n]
      ensures Magnitude(x) <= Magnitude(y)
    {
      var j :| 0 <= j < |sorted[n..]| && sorted[n..][j] == x;
      var i :| 0 <= i < n && sorted[..n][i] == y;
      assert sorted[n + j] == x && sorted[i] == y;
    }
  }

  /** No record left out of the top movers moves more than one that is returned. */
  lemma TopMoversAreLargest(values: seq<StockReadData>, count: int)
    ensures forall x, y :: x in multiset(values) - multiset(TopMovers(values, count)) && y in TopMovers(values, count) ==>
              Magnitude(x) <= Magnitude(y)
  {
    SortIsSorted(values);
    var sorted := SortByMagnitude(values);
    var r := TopMovers(values, count);
    assert sorted == r + sorted[|r|..];
    assert multiset(values) - multiset(r) == multiset(sorted[|r|..]);
    LeftOutMoveLess(sorted, |r|);
  }

  /** Every top mover is one of the records it was chosen from. */
  lemma TopMoversAreDrawn(values: seq<StockReadData>, count: int)
    ensures forall x :: x in TopMovers(values, count) ==> x in values
  {
    var sorted := SortByMagnitude(values);
    var r := TopMovers(values, count);
    forall x | x in r ensures x in values {
      var i :| 0 <= i < |r| && r[i] == x;
      assert sorted[i] == x;
      assert x in multiset(sorted);
    }
  }

  /** Selecting one Magnitude distributes over concatenation. */
  lemma {:induction false} WithMagnitudeAppend(a: seq<StockReadData>, b: seq<StockReadData>, k: real)
    ensures WithMagnitude(a + b, k) == WithMagnitude(a, k) + WithMagnitude(b, k)
    decreases |a|
  {
    if a != [] {
      WithMagnitudeAppend(a[1..], b, k);
      assert (a + b)[1..] == a[1..] + b;
    } else {
      assert a + b == b;
    }
  }

  /** The records of `stocks` listed in `order`. */
  function Snapshot(stocks: map<string, StockReadData>, order: seq<string>): (r: seq<StockReadData>)
    requires forall i :: 0 <= i < |order| ==> order[i] in stocks
    ensures |r| == |order|
    ensures forall i :: 0 <= i < |r| ==> r[i] == stocks[order[i]]
  {
    seq(|order|, i requires 0 <= i < |order| => stocks[order[i]])
  }

  /** A snapshot in an enumeration order holds every record once and nothing else. */
  lemma SnapshotCovers(stocks: map<string, StockReadData>, order: seq<string>)
    requires IsEnumerationOf(order, stocks.Keys)
    ensures forall i :: 0 <= i < |order| ==> order[i] in stocks
    ensures |order| == |stocks|
    ensures forall s :: s in stocks ==> stocks[s] in Snapshot(stocks, order)
    ensures forall x :: x in Snapshot(stocks, order) ==> x in stocks.Values
  {
    assert stocks.Keys == set s | s in order;
    DistinctCardinality(order);
    var r := Snapshot(stocks, order);
    forall s | s in stocks ensures stocks[s] in r {
      var i :| 0 <= i < |order| && order[i] == s;
      assert r[i] == stocks[s];
    }
    forall x | x in r ensures x in stocks.Values {
      var i :| 0 <= i < |r| && r[i] == x;
      assert stocks[order[i]] in stocks.Values;
    }
  }

  class StockReadModel {
    /** The `_stocks` dictionary. */
    var stocks: map<string, StockReadData>

    constructor()
      ensures stocks == map[]
    {
      stocks := map[];
    }

    /** HandleStockPriceUpdate; an exception it throws reaches the caller after the partial update. */
    method HandleStockPriceUpdate(e: StockPriceUpdatedEvent, now: Timestamp) returns (r: Outcome<Exception>)
      modifies this
      ensures (stocks, r) == ApplyPrice(old(stocks), e, now)
    {
      if e.symbol !in stocks {
        stocks := stocks[e.symbol := StockReadData(e.symbol, e.newPrice, 0.0, 0.0, 0, now)];
        return Pass;
      }
      var existing := stocks[e.symbol];
      existing := existing.(currentPrice := e.newPrice);
      existing := existing.(priceChange := e.newPrice - e.previousPrice);
      if e.previousPrice == 0.0 {
        stocks := stocks[e.symbol := existing];
        return Fail(DivideByZeroException);
      }
      existing := existing.(priceChangePercent := (e.newPrice / e.previousPrice - 1.0) * 100.0);
      existing := existing.(lastUpdated := now);
      stocks := stocks[e.symbol := existing];
      return Pass;
    }

    /** HandleStockVolumeUpdate. */
    method HandleStockVolumeUpdate(e: StockVolumeUpdatedEvent, now: Timestamp)
      modifies this
      ensures stocks == ApplyVolume(old(stocks), e, now)
    {
      if e.symbol !in stocks {
        stocks := stocks[e.symbol := StockReadData(e.symbol, 0.0, 0.0, 0.0, e.volume, now)];
      } else {
        var existing := stocks[e.symbol];
        existing := existing.(volume := e.volume);
        existing := existing.(lastUpdated := now);
        stocks := stocks[e.symbol := existing];
      }
    }

    /** GetStock: the record of a symbol, or null. */
    function GetStock(symbol: string): (r: Option<StockReadData>)
      reads this
      ensures r.Some? <==> symbol in stocks
      ensures r.Some? ==> r.value == stocks[symbol]
    {
      if symbol in stocks then Some(stocks[symbol]) else None
    }

    /** GetAllStocks: the records, in the dictionary's enumeration order. */
    function GetAllStocks(order: seq<string>): (r: seq<StockReadData>)
      reads this
      requires IsEnumerationOf(order, stocks.Keys)
      ensures |r| == |stocks| == |order|
      ensures forall s :: s in stocks ==> stocks[s] in r
      ensures forall i :: 0 <= i < |r| ==> order[i] in stocks && r[i] == stocks[order[i]]
      ensures forall x :: x in r ==> x in stocks.Values
    {
      SnapshotCovers(stocks, order);
      Snapshot(stocks, order)
    }

    /** GetTopMovers(count = 5): the records with the largest moves. */
    function GetTopMovers(order: seq<string>, count: int := 5): (r: seq<StockReadData>)
      reads this
      requires IsEnumerationOf(order, stocks.Keys)
      ensures |r| == if count <= 0 then 0 else if count < |stocks| then count else |stocks|
      ensures SortedByMagnitude(r)
      ensures forall x, y :: x in multiset(GetAllStocks(order)) - multiset(r) && y in r ==> Magnitude(x) <= Magnitude(y)
      ensures forall k :: WithMagnitude(r, k) <= WithMagnitude(GetAllStocks(order), k)
      ensures forall x :: x in r ==> x in stocks.Values
    {
      var values := GetAllStocks(order);
      TopMoversSpec(values, count);
      TopMoversAreDrawn(values, count);
      TopMovers(values, count)
    }
  }

  /** A list without repetitions has as many distinct elements as entries. */
  lemma {:induction false} DistinctCardinality(order: seq<string>)
    requires forall i, j :: 0 <= i < j < |order| ==> order[i] != order[j]
    ensures |set s | s in order| == |order|
    decreases |order|
  {
    if order != [] {
      var rest := order[1..];
      DistinctCardinality(rest);
      assert (set s | s in order) == {order[0]} + (set s | s in rest);
      assert order[0] !in rest;
    }
  }
}
