# crypto-scanner in Dafny

A Dafny model of the core of crypto-scanner, a Python tool that scans the
spot markets of a crypto exchange for oversold pairs. For every pair whose
market is active, spot and quoted in the configured currency, it:

- fetches 4h candles, retrying on rate limits and network errors with
  exponential backoff;
- computes Wilder's RSI and keeps the pair when the RSI is below the
  threshold;
- optionally requires a bullish moving-average trend on enough of the
  weekly, daily and 4h timeframes;
- returns the opportunities sorted by RSI.

The indicator library adds MACD, Bollinger and Stochastic classifiers, a
weighted confluence score with a letter grade, and signal allow-lists.

Prices and indicator values are `real`, so the arithmetic is exact. The
exchange is an abstract total function from a request and the attempt
number to a response. Sleeping is recorded as the list of delays slept.
The settings module is an immutable record, `Config.ScanConfig`, passed as
a parameter. `Config.Default` holds the shipped values.

| file | module | models |
|---|---|---|
| base.dfy | Base | `Option`, sums, the last defined entry of a series, Python truthiness, `max` |
| config.dfy | Config | the settings record and its shipped values |
| averages.dfy | Averages | `calculate_sma`, `calculate_ema` |
| rsi.dfy | Rsi | `calculate_rsi`, `get_latest_rsi` |
| macd.dfy | Macd | `calculate_macd` |
| signals.dfy | Signals | `detect_trend`, `detect_macd_signal`, `detect_bollinger_signal`, `detect_stochastic_signal` |
| confluence.dfy | Confluence | `calculate_confluence_score`, `check_signal_filters` |
| data.dfy | Data | the retry loop of `fetch_ohlcv`, `get_last_closed_candle` |
| exchange.dfy | Markets | `filter_pairs` |
| scanner.dfy | Scanner | `analyze_pair_ma`, `scan_market` |

Where a Python function catches an exception and returns `None`, the model
returns `None` for the inputs that raise. Examples:

- an EMA or MACD span of 0;
- a confluence weights map without a needed key;
- an empty `MA_PERIODS` reaching `max`;
- a Bollinger or Stochastic series too short to index.

Where the code and its documentation differ, the model follows the code:

- The EMA is defined at every index. pandas `ewm(adjust=False)` has no
  warm-up, so the series starts at the first close.
- The MACD crossover uses strict comparisons (`< 0`, `> 0`). The resulting
  label is the sign of the last histogram value either way.
- `scan_market` is sequential, sorts on the RSI only, and keeps two
  counters: success and error. A pair that is filtered out counts as a
  success.

## Model

| member | source | states |
|---|---|---|
| Base.Latest | indicators.py:228-233 | the reading of a series (last non-missing value) is None exactly when every entry is missing, and is otherwise one of its entries |
| Base.LatestOfDefinedLast | indicators.py:228-233 | a series whose final entry is present reads as that entry |
| Base.MaxOf | scanner.py:48 | `max(MA_PERIODS)` is one of the periods and no period exceeds it |
| Config.DefaultSettings | config.py:32-64 | the shipped settings have positive periods, include 20 and 50, need 2 of 3 bullish timeframes, and allow 3 attempts starting at a 2 s delay |
| Averages.CalculateSma | indicators.py:125-151 | None exactly when there are fewer prices than the period; otherwise aligned with the prices and defined exactly from index period-1 on |
| Averages.LatestSma | indicators.py:138-147 | a computable SMA reads as the mean of the last `period` closes |
| Averages.SmaWithin | indicators.py:145 | a rolling mean of prices in [lo, hi] lies in [lo, hi] |
| Averages.SmaOfConstant | indicators.py:145 | the rolling mean of a constant series is that constant |
| Averages.RollingMean | indicators.py:145 | a single pass with a running window sum gives exactly the rolling mean series |
| Averages.Alpha | indicators.py:175 | the smoothing factor 2/(span+1) of a positive span lies in (0, 1] |
| Averages.Ewm | indicators.py:175 | the exponential average has one value per price and starts at the first price (no bias adjustment) |
| Averages.CalculateEma | indicators.py:154-181 | None exactly when there are fewer prices than the period or the span is 0 (pandas raises); otherwise starts at the first close |
| Averages.EmaWithin | indicators.py:175 | an exponential average of prices in [lo, hi] stays in [lo, hi] |
| Averages.EmaOfConstant | indicators.py:175 | the exponential average of a constant series is that constant |
| Rsi.Move | indicators.py:37-45 | gains and losses are non-negative |
| Rsi.AvgMove | indicators.py:47-62 | the Wilder-smoothed average gain and loss are non-negative |
| Rsi.Wilder | indicators.py:56-62 | one smoothing step keeps the average non-negative, positive after a positive move, and zero after zero |
| Rsi.RsiValue | indicators.py:64-77 | RSI lies in [0, 100]; it is 100 with no loss, 0 with no gain and some loss, and otherwise 100 g/(g+l) |
| Rsi.ShareOfGain | indicators.py:75-77 | the source formula 100 - 100/(1 + g/l) equals 100 g/(g+l) and lies strictly between 0 and 100 |
| Rsi.RsiAt | indicators.py:64-77 | every defined RSI value lies in [0, 100] |
| Rsi.CalculateRsi | indicators.py:13-83 | None exactly when there are fewer than period+1 prices; otherwise defined exactly from index `period` on, each value in [0, 100] |
| Rsi.GetLatestRsi | indicators.py:86-117 | None exactly when the series cannot be computed; otherwise the RSI at the last price, in [0, 100] |
| Rsi.ComputeRsi | indicators.py:47-79 | the source's two loops (seed, then Wilder update, then RSI) compute exactly the RSI series |
| Rsi.NoLossWhenRising | indicators.py:43-62 | on a strictly rising series the smoothed loss is 0 at every index from `period` on |
| Rsi.RisingSeriesRsi | indicators.py:43-70 | on a strictly rising series every defined RSI value is 100 |
| Rsi.OnlyLossWhenFalling | indicators.py:43-62 | on a strictly falling series the smoothed gain is 0 and the smoothed loss positive |
| Rsi.FallingSeriesRsi | indicators.py:43-72 | on a strictly falling series every defined RSI value is 0 |
| Macd.CalculateMacd | indicators.py:301-345 | None exactly when there are fewer prices than the slow period or a span is 0; otherwise three aligned series with histogram = MACD - signal, all starting at 0 |
| Macd.ConstantPricesFlatMacd | indicators.py:328-339 | on constant prices the MACD, signal and histogram are 0 everywhere |
| Signals.Read | indicators.py:228-245 | an absent average reads as None and a scalar as itself; a series (`dropna().iloc[-1]`) reads as None exactly when every entry is missing, and otherwise as its last present entry |
| Signals.DetectTrend | indicators.py:184-293 | None exactly when neither the SMA pair nor the EMA pair is supplied or no condition can be evaluated; otherwise True exactly when price > SMA20 and price > SMA50, or EMA20 > EMA50 |
| Signals.TrendOnSeries | indicators.py:218-283 | on series whose last entries are present, the trend is the SMA rule or the EMA rule on the last values |
| Signals.DetectMacdSignal | indicators.py:348-393 | None without data or with fewer than two histogram values; otherwise the label depends only on the sign of the last value |
| Signals.ConstantPricesNeutralMacd | indicators.py:368-389 | constant prices give a neutral MACD label |
| Signals.DetectBollingerSignal | indicators.py:449-495 | None exactly when an input is missing or a series is empty; otherwise one of the five labels |
| Signals.BollingerLabels | indicators.py:475-491 | oversold exactly when price <= lower; overbought exactly when lower < price and price >= upper; the near_* labels and neutral only strictly inside the bands, within 30% of a band |
| Signals.DetectStochasticSignal | indicators.py:545-607 | None with missing data or fewer than two values; the two crosses exclude each other, a qualifying cross wins, then the oversold and overbought levels, else neutral |
| Confluence.RsiPoints | indicators.py:671-684 | RSI points lie in [0, 20] |
| Confluence.RsiPointsAntitone | indicators.py:673-684 | a lower RSI never earns fewer points |
| Confluence.MacdPoints | indicators.py:703-711 | MACD points lie in [0, 20]; an unknown label earns the midpoint 10 |
| Confluence.BollingerPoints | indicators.py:719-731 | Bollinger points lie in [0, 20]; an unknown label earns the midpoint 10 |
| Confluence.StochasticPoints | indicators.py:739-751 | Stochastic points lie in [0, 15]; an unknown label earns the midpoint 7 |
| Confluence.Grade | indicators.py:758-770 | the grade is one of A+, A, B, C, D, F |
| Confluence.GradeMonotone | indicators.py:758-770 | a higher score never gets a worse grade, and the grade bands between D and A are 10 points wide |
| Confluence.CalculateConfluenceScore | indicators.py:615-776 | the grade is the step function of the exact total |
| Confluence.ScoreDefined | indicators.py:687-756 | the weighted sum succeeds exactly when every supplied indicator has a weight |
| Confluence.ScoreKeys | indicators.py:667-756 | the breakdown has a key exactly for each supplied indicator |
| Confluence.ScoreTotal | indicators.py:667-756 | the total is the sum of the breakdown entries |
| Confluence.ScoreValueAt | indicators.py:687-755 | each supplied indicator's entry is its share of the maximum points times its weight |
| Confluence.SuppliedComponents | indicators.py:671-756 | the supplied indicators are exactly the present inputs, with the trend only when max_trend_score > 0 |
| Confluence.ConfluenceBreakdown | indicators.py:615-776 | None exactly when a supplied indicator has no weight; otherwise the breakdown keys are exactly the supplied indicators and the score is their sum |
| Confluence.ConfluenceEntries | indicators.py:687-755 | each breakdown entry is (points / maximum points) x weight, and the trend entry is (trend_score / max_trend_score) x weight |
| Confluence.SharesWithin | indicators.py:671-754 | every supplied indicator's share of its maximum lies in [0, 1] when 0 <= trend_score <= max_trend_score |
| Confluence.ComponentWithin | indicators.py:687-755 | a share in [0, 1] and a non-negative weight give an entry in [0, weight] |
| Confluence.DefaultScoreBounded | indicators.py:656-756 | with the default weights and 0 <= trend_score <= max_trend_score, every entry lies in [0, its weight] and the score in [0, 100] |
| Confluence.UnknownLabelsScoreMidpoint | indicators.py:703-756 | unknown MACD, Bollinger and Stochastic labels score the midpoints 10, 10 and 7 (27 in all, grade F) |
| Confluence.CheckSignalFilters | indicators.py:779-821 | False exactly when some filter list is non-empty, its signal is present and non-empty, and the signal is not in the list |
| Data.Attempt | data.py:33-87 | the retry loop makes no more calls than the attempts left, sleeps at most once per call, and never returns an empty frame |
| Data.FetchOhlcv | data.py:14-87 | a fetch makes at most MAX_RETRIES calls and never returns an empty frame |
| Data.DefaultRequest | data.py:28-31 | a missing timeframe or limit falls back to TIMEFRAME or MIN_OHLCV_BARS |
| Data.BackoffStep | data.py:66-76 | the k-th retry sleeps RETRY_DELAY x 2^k (0-based): sleeping the delay and then retrying with double the delay continues the same backoff |
| Data.StopsAt | data.py:36-84 | a fetch whose attempts retryCount..j-1 were retryable and attempt j was not makes j-retryCount+1 calls, sleeps delay x 2^k for each retry, and returns what attempt j yields |
| Data.Exhausted | data.py:36-87 | a fetch whose every attempt was retryable returns None after MAX_RETRIES calls and MAX_RETRIES sleeps, including one after the last attempt |
| Data.TerminalFailure | data.py:46-84 | an exchange error, any other exception or an empty answer on the first attempt ends the fetch with None after one call and no sleep |
| Data.DefaultBackoff | data.py:33-87 | with the shipped settings, two network failures then candles sleep 2 s and 4 s; three retryable failures sleep 2 s, 4 s and 8 s and give None |
| Data.GetLastClosedCandle | data.py:90-114 | None exactly for missing or empty data; otherwise a candle of the data |
| Data.LastCandleOfAppend | data.py:101-114 | the candle appended last is the last closed candle |
| Markets.InScopeSymbols | exchange.py:70-90 | every kept symbol belongs to an active market of the configured type and quote (and, when stable pairs are excluded, a non-stable base); every such market's symbol is kept |
| Markets.Cap | exchange.py:93-94 | with MAX_PAIRS > 0 the list is cut to its first MAX_PAIRS symbols; None or a non-positive value leaves it whole |
| Markets.FilterPairs | exchange.py:52-100 | every returned symbol is in scope, at most MAX_PAIRS are returned when it is positive, and the result is the prefix of the in-scope symbols of length min(MAX_PAIRS, n) |
| Markets.NoStablePairs | exchange.py:68-88 | with stable pairs excluded, every returned symbol comes from a market whose base is not a stablecoin |
| Markets.InScopeOrdered | exchange.py:70-90 | the in-scope symbols are a subsequence of the market keys in their original order |
| Markets.FilterOrdered | exchange.py:70-94 | the returned symbols are a subsequence of the market keys in their original order |
| Markets.RestrictToPrefix | exchange.py:70-90 | filtering the markets restricted to a prefix of the in-scope symbols yields that prefix |
| Markets.FilterIdempotent | exchange.py:70-94 | filtering the markets restricted to the output returns the same output |
| Scanner.AnalyzeFrame | scanner.py:44-91 | a timeframe raises exactly when it has data and MA_PERIODS is empty; it stores one SMA and one EMA per period; its trend is None unless 20 and 50 are both periods; a stored average is never 0, since `if last_sma` stores None for a zero reading |
| Scanner.FrameAverages | scanner.py:59-70 | with at least max(MA_PERIODS) candles, the SMA stored for a period is the mean of the last `period` closes and the EMA stored is the exponential average at the last close (None where that value is 0) |
| Scanner.AnalyzeFrames | scanner.py:43-100 | the analysis raises exactly when MA_PERIODS is empty and some timeframe has data; otherwise one frame per timeframe, in order |
| Scanner.CountBullish | scanner.py:88-94 | the trend score never exceeds the number of frames |
| Scanner.AnalyzePairMa | scanner.py:15-100 | None when the MA analysis is disabled or a timeframe raised; otherwise one frame per MA timeframe and 0 <= trend_score <= len(MA_TIMEFRAMES) |
| Scanner.CountIsBullishTimeframes | scanner.py:85-94 | the trend score is the number of timeframes whose trend is True |
| Scanner.InsufficientFrame | scanner.py:48-55 | a timeframe with no data or fewer candles than the longest period has trend None and stores no average |
| Scanner.FrameTrendDetected | scanner.py:76-85 | with enough candles and periods 20 and 50, a timeframe's trend is `detect_trend` on its closes and the four averages |
| Scanner.FrameTrend | scanner.py:76-85 | with enough candles and periods 20 and 50, a timeframe is bullish exactly when the last close is above SMA20 and SMA50, or EMA20 is above EMA50, all at the last candle |
| Scanner.ScanSymbol | scanner.py:163-231 | a symbol counts as an error exactly when its data is missing or too short for the RSI; an emitted result has RSI in [0, threshold), the scan timeframe, the pair's MA report, and a trend score at least MIN_TREND_SCORE when the MA report is present |
| Scanner.PassedOrEmitted | scanner.py:177-222 | with enough data, a symbol is passed over exactly when its RSI reaches the threshold or its present MA report has too low a trend score, and emitted otherwise |
| Scanner.EmittedResult | scanner.py:169-216 | an emitted result carries the RSI at the last close and the last candle's close and time |
| Scanner.Tally | scanner.py:159-241 | success + error = number of symbols; results <= successes; every result was emitted by some symbol and every emitted result is among the results |
| Scanner.TallyErrors | scanner.py:170-181 | error_count is the number of failed outcomes (`multiset(os)[Failed]`), so every other outcome adds to success_count |
| Scanner.TallyResults | scanner.py:186-231 | each result appears in the loop's list exactly as many times as it was emitted (no loss, no duplication) |
| Scanner.FailedPositions | scanner.py:170-181 | the number of failed outcomes equals the number of positions whose outcome failed |
| Scanner.ScanCounters | scanner.py:160-250 | error_count is the number of filtered pairs whose scan failed, and success_count the number of the other pairs |
| Scanner.TallyQualifies | scanner.py:187-205 | every result of the loop qualifies: RSI below the threshold, trend score at least the minimum when MA data is present |
| Scanner.Insert | scanner.py:244 | insertion adds exactly one element (as a multiset) |
| Scanner.InsertSorted | scanner.py:244 | insertion keeps the results sorted by RSI |
| Scanner.SortByRsi | scanner.py:244 | the sort is a permutation of the results |
| Scanner.SortSorted | scanner.py:244 | the sorted results are in ascending RSI order |
| Scanner.ScanMarket | scanner.py:103-259 | a failed exchange initialisation or an empty pair list gives an empty scan; otherwise success + error = number of pairs, results <= successes, and the results are a permutation of the loop's results; Scanner.ScanCounters says which counter each pair feeds |
| Scanner.ScanResultsSortedAndQualified | scanner.py:187-244 | the scan's results are in ascending RSI order and each has RSI below the threshold and, with MA data, a trend score at least the minimum |
| Scanner.ReportedWasEmitted | scanner.py:163-244 | every reported result is what the scan of some filtered pair emitted |
| Scanner.EmittedIsReported | scanner.py:163-244 | every result the scan of a filtered pair emits is reported |

## Left out

- Rounding to two decimals is not modelled. The source rounds:
  - the confluence breakdown entries and score;
  - the RSI stored in a scan result;
  - the stored SMA and EMA values.

  The model keeps exact values. The grade uses the unrounded total in the
  source as well. In the source, a reported RSI of 34.996 would show as
  35.0; in the model it stays below the threshold.
- Confluence.CalculateConfluenceScore: the grade is Grade of the exact
  total, as in the source, but the source reports `round(total_score, 2)`.
  A total of 89.996 is reported as 90.0 with grade "A" there; the model
  keeps 89.996 next to "A".
- Scanner.Tally: does not state the order of the loop's results, only
  their multiplicity, because the scan sorts them by RSI afterwards.
- Confluence.ConfluenceBreakdown: states score == sum of the entries only
  for the unrounded model. In the source the rounded entries need not add
  up to the rounded score.
- Scanner.SortByRsi: the source sorts on the rounded RSI with Python's
  stable sort. The model sorts on the exact RSI. It inserts each result after
  its equals, which is stable, but stability is not stated as a lemma.
- Averages.CalculateSma, Rsi.CalculateRsi, Rsi.GetLatestRsi, Rsi.ComputeRsi:
  require a period of at least 1. A period of 0 yields an all-NaN series in
  pandas rather than raising (so `get_latest_rsi` would return None), and
  NaN is not modelled. `Config.PeriodsPositive` carries this for the scanner.
- Default arguments (`period=14` for the RSI, `period=20` for the averages,
  12/26/9 for MACD, 20/80 for the Stochastic levels): every parameter is
  explicit in the model. The scanner passes its values explicitly as well.
- Floating point, NaN and infinity: prices are exact reals.
- `calculate_bollinger_bands`: not modelled, because it needs a square root.
  The classifier takes the band series as input.
- `calculate_stochastic`: the %K/%D computation is not modelled. The
  classifier takes the two series as input.
- pandas machinery: `dropna` becomes the last present entry. `reset_index`
  and `to_numeric` coercion are not modelled. Timestamps stay integer
  milliseconds.
- The MA report is a list of frames, one per configured timeframe. It is
  not the source's flat dictionary keyed `sma{p}_{tf}`. A timeframe or
  period listed twice overwrites one dictionary key in the source, but
  appears twice in the model. The trend score counts it twice in both.
- Exchange I/O: `init_exchange`, `load_markets` and the ccxt calls become
  inputs. The exchange is a function of the request and the attempt number.
  A failure to initialise is `markets == None`.
- `time.sleep`: sleeping is recorded as the list of delays.
- `KeyboardInterrupt` in `scan_market`: not modelled. Interruption is an
  external event that stops the loop early.
- An unexpected exception inside the per-symbol loop is not modelled. Such
  an exception counts the pair as an error, and none of the modelled steps
  raises one.
- Logging, console and CSV output, the GUI, threads and entry-point
  scripts: outside the scanning core.
