/**
 * The trading rule: from a fetched frame and the indicator values computed on
 * it, decide whether to raise a LONG alert with its take-profit and stop-loss.
 * Prices are modelled as `real`; IEEE rounding is abstracted away, except that
 * an indicator may be NaN, which makes every comparison on it false.
 */
module Strategy {
  import opened Wrappers
  import opened Market

  /** An indicator value in the last row: a number, or NaN when undefined. */
  datatype Reading = Value(v: real) | NaN

  /**
   * The indicator library, which is not part of this model: the RSI(14) and
   * EMA(50) values it appends to the frame's last row.
   */
  datatype Indicators = Indicators(rsi14: seq<Candle> -> Reading, ema50: seq<Candle> -> Reading)

  datatype Direction = Long | Short

  /** The content of one alert message (its Markdown wording is not modelled). */
  datatype Signal = Signal(pair: Pair, direction: Direction, entry: real, tp: real, sl: real)

  /** Fewest rows a frame must have to be evaluated. */
  const MinRows: nat := 50
  /** RSI strictly below this is "oversold". */
  const RsiOversold: real := 35.0
  /** Take-profit as a multiple of the entry price (+3%). */
  const TakeProfitFactor: real := 1.03
  /** Stop-loss as a multiple of the entry price (-1.5%). */
  const StopLossFactor: real := 0.985

  /** Python's `x < bound` on a float that may be NaN. */
  predicate LessThan(x: Reading, bound: real) {
    match x
    case Value(v) => v < bound
    case NaN => false
  }

  /** Python's `x > y` where `y` may be NaN. */
  predicate GreaterThan(x: real, y: Reading) {
    match y
    case Value(v) => x > v
    case NaN => false
  }

  function Last(df: seq<Candle>): Candle
    requires df != []
  {
    df[|df| - 1]
  }

  /**
   * The strategy run on one frame: the guard on missing or short frames,
   * then the RSI/EMA rule on the last row. Whatever it returns is a LONG
   * signal for the pair it was asked about; there is no SHORT rule.
   */
  function GenerateSignal(df: Option<seq<Candle>>, pair: Pair, ta: Indicators): (r: Option<Signal>)
    ensures r.Some? ==> r.value.pair == pair && r.value.direction == Long
  {
    if df.None? || |df.value| < MinRows then None
    else
      var last := Last(df.value);
      var isOversold := LessThan(ta.rsi14(df.value), RsiOversold);
      var isUptrend := GreaterThan(last.close, ta.ema50(df.value));
      if isOversold && isUptrend then
        var entry := last.close;
        Some(Signal(pair, Long, entry, entry * TakeProfitFactor, entry * StopLossFactor))
      else
        None
  }

  /** No frame, or a frame of fewer than 50 rows, never yields a signal. */
  lemma ShortFrameNoSignal(df: Option<seq<Candle>>, pair: Pair, ta: Indicators)
    requires df.None? || |df.value| < 50
    ensures GenerateSignal(df, pair, ta).None?
  {
  }

  /**
   * On a frame of at least 50 rows a signal is produced exactly when the last
   * RSI(14) is a number strictly below 35 and the last close is strictly above
   * a numeric EMA(50); it enters at the last close, with the take-profit at
   * 103% and the stop-loss at 98.5% of the entry.
   */
  lemma SignalRule(df: seq<Candle>, pair: Pair, ta: Indicators)
    requires |df| >= 50
    ensures GenerateSignal(Some(df), pair, ta).Some? <==>
      ta.rsi14(df).Value? && ta.rsi14(df).v < 35.0 &&
      ta.ema50(df).Value? && df[|df| - 1].close > ta.ema50(df).v
    ensures GenerateSignal(Some(df), pair, ta).Some? ==>
      GenerateSignal(Some(df), pair, ta).value ==
        Signal(pair, Long, df[|df| - 1].close, df[|df| - 1].close * 1.03, df[|df| - 1].close * 0.985)
  {
  }

  /** Both comparisons are strict: RSI exactly 35, or a close exactly on the EMA, yields nothing. */
  lemma ThresholdsAreStrict(df: seq<Candle>, pair: Pair, ta: Indicators)
    requires ta.rsi14(df) == Value(35.0) || (df != [] && ta.ema50(df) == Value(df[|df| - 1].close))
    ensures GenerateSignal(Some(df), pair, ta).None?
  {
  }

  /**
   * A NaN indicator never triggers: `NaN < 35` and `close > NaN` are both
   * false, so a frame whose last RSI(14) or EMA(50) is NaN yields no signal.
   */
  lemma NaNNeverTriggers(df: seq<Candle>, pair: Pair, ta: Indicators)
    requires ta.rsi14(df).NaN? || ta.ema50(df).NaN?
    ensures GenerateSignal(Some(df), pair, ta).None?
  {
  }

  /**
   * For a positive entry the stop-loss lies below and the take-profit above
   * the entry, and the distance to the take-profit is twice the distance to
   * the stop-loss.
   */
  lemma BandsBracketEntry(df: Option<seq<Candle>>, pair: Pair, ta: Indicators)
    requires GenerateSignal(df, pair, ta).Some?
    requires GenerateSignal(df, pair, ta).value.entry > 0.0
    ensures var s := GenerateSignal(df, pair, ta).value;
      s.sl < s.entry < s.tp && s.tp - s.entry == 2.0 * (s.entry - s.sl)
  {
  }

  /** A flat frame of `n` candles closing at `close`, for the scenarios below. */
  function FlatFrame(n: nat, close: real): seq<Candle> {
    seq(n, k => Candle(k, close, close, close, close, 1.0))
  }

  /** Oversold in an uptrend: close 100, EMA 95, RSI 30 gives entry 100, TP 103, SL 98.5. */
  lemma OversoldUptrendScenario(pair: Pair)
    ensures GenerateSignal(Some(FlatFrame(100, 100.0)), pair,
                           Indicators(_ => Value(30.0), _ => Value(95.0)))
         == Some(Signal(pair, Long, 100.0, 103.0, 98.5))
  {
  }

  /** Oversold in a downtrend: close 100, EMA 105, RSI 20 gives no signal. */
  lemma OversoldDowntrendScenario(pair: Pair)
    ensures GenerateSignal(Some(FlatFrame(100, 100.0)), pair,
                           Indicators(_ => Value(20.0), _ => Value(105.0))).None?
  {
  }
}
