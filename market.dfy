/**
 * Market data as the bot sees it: the pairs it scans and the result of one
 * OHLCV fetch from the exchange. The exchange itself (network, rate limits,
 * the DataFrame library) is outside the model; a fetch is represented by its
 * outcome, supplied by the caller.
 */
module Market {
  import opened Wrappers

  /** The candle widths the configuration may name. */
  datatype Timeframe = M1 | M5 | M15 | M30 | H1 | H4 | D1

  /** One (symbol, timeframe) entry of the scan list. */
  datatype Pair = Pair(symbol: string, timeframe: Timeframe)

  /** One OHLCV row; `timestamp` is in milliseconds, as the exchange returns it. */
  datatype Candle = Candle(timestamp: int, open: real, high: real, low: real, close: real, volume: real)

  /** What one call to the exchange produced: the bars, or an exception. */
  datatype FetchOutcome = Bars(bars: seq<Candle>) | FetchError(reason: string)

  /** The fixed scan list, in the order the scheduler visits it. */
  const PairsToScan: seq<Pair> := [
    Pair("BTC/USDT", M15),
    Pair("ETH/USDT", M15),
    Pair("BTC/USDT", H1),
    Pair("SOL/USDT", H1)
  ]

  /**
   * The data frame for one pair: every exception raised while fetching is
   * caught and turned into an absent frame, so a failed fetch never reaches
   * the caller as an error; a successful fetch yields exactly the bars received.
   */
  function GetCryptoData(outcome: FetchOutcome): (df: Option<seq<Candle>>)
    ensures df.None? <==> outcome.FetchError?
    ensures outcome.Bars? ==> df == Some(outcome.bars)
  {
    match outcome
    case Bars(bars) => Some(bars)
    case FetchError(_) => None
  }
}
