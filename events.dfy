/**
 * The domain events of the stock pipeline (Cloud_patterns/Events) and the
 * primitive C# types they are built from.
 */
module Events {

  /**
   * A System.Guid in its string form ("D" format: 32 hex digits and four
   * hyphens). Guids are produced by Guid.NewGuid(), which the model does not
   * compute: they are supplied by the caller.
   */
  type Guid = s: string | |s| == 36 witness "00000000-0000-0000-0000-000000000000"

  /** A System.DateTime. Only its identity matters; clocks are an input. */
  datatype Timestamp = Timestamp(ticks: int)

  const LongModulus: int := 0x1_0000_0000_0000_0000

  /** C#'s `long`: a signed 64-bit integer. */
  newtype long = x: int | -0x8000_0000_0000_0000 <= x < 0x8000_0000_0000_0000

  predicate InLongRange(x: int) {
    -0x8000_0000_0000_0000 <= x < 0x8000_0000_0000_0000
  }

  /**
   * `a + b` on C# longs in an unchecked context: the mathematical sum
   * reduced modulo 2^64 into the signed range.
   */
  function WrappingAdd(a: long, b: long): (r: long)
    ensures InLongRange(a as int + b as int) ==> r as int == a as int + b as int
    ensures (a as int + b as int - r as int) % LongModulus == 0
  {
    var sum := a as int + b as int;
    var shifted := (sum + 0x8000_0000_0000_0000) % LongModulus;
    (shifted - 0x8000_0000_0000_0000) as long
  }

  /** Exceptions that the modelled code throws or lets through. */
  datatype Exception =
    | DivideByZeroException   // decimal division by a zero divisor
    | ServiceBusException     // a failing call into the Service Bus SDK

  /** StockPriceUpdatedEvent (EventBase's Id, Timestamp and Source, plus the payload). */
  datatype StockPriceUpdatedEvent = StockPriceUpdatedEvent(
    id: Guid,
    timestamp: Timestamp,
    source: string,
    symbol: string,
    previousPrice: real,  // C# decimal
    newPrice: real)       // C# decimal

  /** StockVolumeUpdatedEvent: the cumulative volume of a symbol. */
  datatype StockVolumeUpdatedEvent = StockVolumeUpdatedEvent(
    id: Guid,
    timestamp: Timestamp,
    source: string,
    symbol: string,
    volume: long)

  /** The run-time type of an event that a generic broker call is made for. */
  datatype EventKind =
    | StockPriceUpdatedKind
    | StockVolumeUpdatedKind
    | OtherKind(typeName: string)   // any other IEvent implementation, by its type name

  /** An event of one of the two concrete event classes. */
  datatype Event =
    | PriceUpdated(price: StockPriceUpdatedEvent)
    | VolumeUpdated(volume: StockVolumeUpdatedEvent)
  {
    function Id(): Guid {
      match this
      case PriceUpdated(e) => e.id
      case VolumeUpdated(e) => e.id
    }

    function Source(): string {
      match this
      case PriceUpdated(e) => e.source
      case VolumeUpdated(e) => e.source
    }

    function Symbol(): string {
      match this
      case PriceUpdated(e) => e.symbol
      case VolumeUpdated(e) => e.symbol
    }

    function Kind(): EventKind {
      match this
      case PriceUpdated(_) => StockPriceUpdatedKind
      case VolumeUpdated(_) => StockVolumeUpdatedKind
    }
  }
}
