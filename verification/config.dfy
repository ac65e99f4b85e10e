/** The scanner's settings (config.py) as one immutable record that the
    scan, the market filter and the fetcher take as a parameter. */
module Config {
  import opened Base

  /** The settings the modelled core reads. Exchange identity, output,
      logging and sandbox switches are not read by the core. */
  datatype ScanConfig = ScanConfig(
    quoteFilter: string,         // QUOTE_FILTER
    marketType: string,          // MARKET_TYPE
    excludeStablePairs: bool,    // EXCLUDE_STABLE_PAIRS
    maxPairs: Option<int>,       // MAX_PAIRS (None: no cap)
    timeframe: string,           // TIMEFRAME
    minOhlcvBars: nat,           // MIN_OHLCV_BARS
    rsiPeriod: nat,              // RSI_PERIOD
    rsiThreshold: real,          // RSI_THRESHOLD
    enableMa: bool,              // ENABLE_MA
    maPeriods: seq<nat>,         // MA_PERIODS
    maTimeframes: seq<string>,   // MA_TIMEFRAMES
    minTrendScore: int,          // MIN_TREND_SCORE
    minMaBars: nat,              // MIN_MA_BARS
    maxRetries: int,             // MAX_RETRIES
    retryDelay: real             // RETRY_DELAY (seconds)
  )

  /** The settings as shipped. */
  const Default := ScanConfig(
    quoteFilter := "USDC",
    marketType := "spot",
    excludeStablePairs := true,
    maxPairs := None,
    timeframe := "4h",
    minOhlcvBars := 200,
    rsiPeriod := 14,
    rsiThreshold := 35.0,
    enableMa := true,
    maPeriods := [20, 50],
    maTimeframes := ["1w", "1d", "4h"],
    minTrendScore := 2,
    minMaBars := 60,
    maxRetries := 3,
    retryDelay := 2.0
  )

  /** The averaging periods are positive: an RSI or moving average over
      zero prices has no value (the numeric library yields NaN). */
  predicate PeriodsPositive(cfg: ScanConfig)
  {
    cfg.rsiPeriod >= 1 && forall i :: 0 <= i < |cfg.maPeriods| ==> cfg.maPeriods[i] >= 1
  }

  /** The shipped settings have positive periods, evaluate the trend on
      every timeframe (both 20 and 50 are periods), and can only keep a
      pair whose trend is bullish on at least two of three timeframes. */
  lemma DefaultSettings()
    ensures PeriodsPositive(Default)
    ensures 20 in Default.maPeriods && 50 in Default.maPeriods
    ensures 0 < Default.minTrendScore <= |Default.maTimeframes|
    ensures Default.maxRetries >= 1 && Default.retryDelay > 0.0
    ensures Default.minTrendScore == 2 && |Default.maTimeframes| == 3
    ensures Default.maxRetries == 3 && Default.retryDelay == 2.0
  {
  }
}
