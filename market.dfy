/** Values that flow between the upstream market-data endpoint, the cache and
    the views: one 24-hour ticker, the JSON payload a fetch yields, and the
    errors a fetch can end in. */
module Market {

  /** One 24-hour ticker as the upstream reports it. The numeric fields are
      abstract ordered quantities; only `volume` is ever compared. */
  datatype Ticker = Ticker(
    symbol: string,
    lastPrice: int,
    priceChange: int,
    priceChangePercent: int,
    volume: int,
    highPrice: int,
    lowPrice: int)

  /** A decoded JSON document as it is stored in the cache: `null`, one
      (non-empty) ticker object, the empty object `{}`, or an array of tickers. */
  datatype Payload =
    | Null
    | Object(ticker: Ticker)
    | EmptyObject
    | Array(items: seq<Ticker>)

  /** Python truthiness of a payload: `None`, `{}` and `[]` are falsy. */
  predicate Truthy(p: Payload): (r: bool)
    ensures r <==> p != Null && p != EmptyObject && p != Array([])
  {
    match p
    case Null => false
    case Object(_) => true
    case EmptyObject => false
    case Array(items) => items != []
  }

  /** The exceptions a fetch can raise.
      RequestError: a `requests` exception (timeout, connection, non-2xx status).
      CircuitOpen: the breaker refused the call without invoking upstream.
      Malformed: a Python error while processing a fetched payload. */
  datatype Error = RequestError | CircuitOpen | Malformed

  datatype Result<T> = Ok(value: T) | Err(error: Error)
}
