/** The scan pipeline of scanner.py: the multi-timeframe moving-average
    analysis of one pair (`analyze_pair_ma`) and the market scan
    (`scan_market`) that fetches, filters and sorts. The exchange and the
    loaded markets are parameters; nothing here performs I/O. */
module Scanner {
  import opened Base
  import opened Config
  import opened Averages
  import opened Rsi
  import opened Signals
  import opened Data
  import opened Markets

  // ---------------------------------------------------------------------
  // Moving-average analysis of one pair
  // ---------------------------------------------------------------------

  /** The closing prices of the candles, in order. */
  function Closes(rows: seq<Bar>): (c: seq<real>)
    ensures |c| == |rows|
    ensures forall i :: 0 <= i < |rows| ==> c[i] == rows[i].close
  {
    seq(|rows|, i requires 0 <= i < |rows| => rows[i].close)
  }

  /** The SMA series as `detect_trend` receives it: absent when it could
      not be computed. */
  function SmaReading(closes: seq<real>, period: nat): Reading
    requires period >= 1
  {
    match CalculateSma(closes, period)
    case None => Absent
    case Some(s) => Series(s)
  }

  /** The EMA series as `detect_trend` receives it. */
  function EmaReading(closes: seq<real>, period: nat): Reading
  {
    match CalculateEma(closes, period)
    case None => Absent
    case Some(s) => Series(Defined(s))
  }

  /** A stored average: the reading when it is truthy, None otherwise (the
      source stores None for a missing or zero value). */
  function Stored(x: Option<real>): (r: Option<real>)
    ensures r.Some? <==> TruthyReal(x)
    ensures r.Some? ==> r == x && r.value != 0.0
  {
    if TruthyReal(x) then x else None
  }

  /** What one timeframe contributes to the report: the stored SMA and EMA
      per configured period (same order as MA_PERIODS) and the trend. */
  datatype FrameReport = FrameReport(timeframe: string, sma: seq<Option<real>>,
                                     ema: seq<Option<real>>, trend: Option<bool>)

  /** The report of a timeframe without enough data: everything None. */
  function Blank(timeframe: string, periods: nat): (f: FrameReport)
    ensures f.timeframe == timeframe && |f.sma| == |f.ema| == periods && f.trend.None?
    ensures forall j :: 0 <= j < periods ==> f.sma[j].None? && f.ema[j].None?
  {
    FrameReport(timeframe, seq(periods, _ => None), seq(periods, _ => None), None)
  }

  /** The stored SMA of the closes for each period, in order. */
  function StoredSmas(c: seq<real>, periods: seq<nat>): (s: seq<Option<real>>)
    requires forall j :: 0 <= j < |periods| ==> periods[j] >= 1
    ensures |s| == |periods|
    ensures forall j :: 0 <= j < |s| && s[j].Some? ==> s[j].value != 0.0
  {
    seq(|periods|, j requires 0 <= j < |periods| => Stored(Read(SmaReading(c, periods[j]))))
  }

  /** The stored EMA of the closes for each period, in order. */
  function StoredEmas(c: seq<real>, periods: seq<nat>): (s: seq<Option<real>>)
    requires forall j :: 0 <= j < |periods| ==> periods[j] >= 1
    ensures |s| == |periods|
    ensures forall j :: 0 <= j < |s| && s[j].Some? ==> s[j].value != 0.0
  {
    seq(|periods|, j requires 0 <= j < |periods| => Stored(Read(EmaReading(c, periods[j]))))
  }

  /** The analysis of one timeframe from its fetched candles. None stands
      for the exception `max` raises on an empty MA_PERIODS, which the
      source reaches only with data in hand. */
  function AnalyzeFrame(cfg: ScanConfig, timeframe: string, df: Option<seq<Bar>>): (r: Option<FrameReport>)
    requires PeriodsPositive(cfg)
    ensures r.None? <==> df.Some? && |cfg.maPeriods| == 0
    ensures r.Some? ==> r.value.timeframe == timeframe
    ensures r.Some? ==> |r.value.sma| == |r.value.ema| == |cfg.maPeriods|
    ensures r.Some? && !(20 in cfg.maPeriods && 50 in cfg.maPeriods) ==> r.value.trend.None?
    ensures r.Some? ==> forall j :: 0 <= j < |r.value.sma| && r.value.sma[j].Some? ==> r.value.sma[j].value != 0.0
    ensures r.Some? ==> forall j :: 0 <= j < |r.value.ema| && r.value.ema[j].Some? ==> r.value.ema[j].value != 0.0
  {
    var periods := cfg.maPeriods;
    if df.None? then Some(Blank(timeframe, |periods|))
    else if |periods| == 0 then None
    else if |df.value| < MaxOf(periods) then Some(Blank(timeframe, |periods|))
    else
      var c := Closes(df.value);
      var sma := StoredSmas(c, periods);
      var ema := StoredEmas(c, periods);
      Some(FrameReport(timeframe, sma, ema, FrameTrendOf(c, periods)))
  }

  /** The trend of a timeframe: `detect_trend` on the closes and the 20-
      and 50-period averages, evaluated only when both are periods. */
  function FrameTrendOf(c: seq<real>, periods: seq<nat>): (t: Option<bool>)
    ensures !(20 in periods && 50 in periods) ==> t.None?
  {
    if 20 in periods && 50 in periods
    then DetectTrend(Series(Defined(c)), SmaReading(c, 20), SmaReading(c, 50),
                     EmaReading(c, 20), EmaReading(c, 50))
    else None
  }

  /** With enough candles, the averages a timeframe stores for period
      `cfg.maPeriods[j]` are the last rolling mean and the last exponential
      average of its closes `c` (None where that value is 0). */
  lemma FrameAverages(cfg: ScanConfig, timeframe: string, rows: seq<Bar>, c: seq<real>, j: int)
    requires PeriodsPositive(cfg)
    requires |cfg.maPeriods| > 0 && |rows| >= MaxOf(cfg.maPeriods)
    requires 0 <= j < |cfg.maPeriods|
    requires c == Closes(rows)
    ensures var f := AnalyzeFrame(cfg, timeframe, Some(rows));
            f.Some?
            && f.value.sma[j] == Stored(Some(SmaAt(c, cfg.maPeriods[j], |c| - 1)))
            && f.value.ema[j] == Stored(Some(Ewm(c, cfg.maPeriods[j])[|c| - 1]))
  {
    FrameStores(cfg, timeframe, rows);
    StoredAt(c, cfg.maPeriods, j);
  }

  /** With enough candles, a timeframe stores the averages of its closes. */
  lemma FrameStores(cfg: ScanConfig, timeframe: string, rows: seq<Bar>)
    requires PeriodsPositive(cfg)
    requires |cfg.maPeriods| > 0 && |rows| >= MaxOf(cfg.maPeriods)
    ensures var f := AnalyzeFrame(cfg, timeframe, Some(rows));
            f.Some? && f.value.sma == StoredSmas(Closes(rows), cfg.maPeriods)
            && f.value.ema == StoredEmas(Closes(rows), cfg.maPeriods)
  {
  }

  /** One period's stored averages over closes at least that long. */
  lemma StoredAt(c: seq<real>, periods: seq<nat>, j: int)
    requires forall i :: 0 <= i < |periods| ==> periods[i] >= 1
    requires 0 <= j < |periods| && |c| >= MaxOf(periods)
    ensures StoredSmas(c, periods)[j] == Stored(Some(SmaAt(c, periods[j], |c| - 1)))
    ensures StoredEmas(c, periods)[j] == Stored(Some(Ewm(c, periods[j])[|c| - 1]))
  {
    AtMostMax(periods, periods[j]);
    SmaReadingLast(c, periods[j]);
    EmaReadingLast(c, periods[j]);
  }

  /** The candles fetched for one timeframe of the MA analysis. */
  function FrameData(ex: Exchange, cfg: ScanConfig, symbol: string, timeframe: string): Option<seq<Bar>>
  {
    FetchOhlcv(ex, cfg, symbol, Some(timeframe), Some(cfg.minMaBars)).outcome
  }

  /** The analyses of the given timeframes, in order; None as soon as one
      raises. */
  function AnalyzeFrames(ex: Exchange, cfg: ScanConfig, symbol: string, timeframes: seq<string>)
    : (r: Option<seq<FrameReport>>)
    requires PeriodsPositive(cfg)
    ensures r.None? <==> |cfg.maPeriods| == 0
                         && exists i :: 0 <= i < |timeframes| && FrameData(ex, cfg, symbol, timeframes[i]).Some?
    ensures r.Some? ==> |r.value| == |timeframes|
    ensures r.Some? ==> forall i :: 0 <= i < |timeframes| ==>
                          Some(r.value[i]) == AnalyzeFrame(cfg, timeframes[i], FrameData(ex, cfg, symbol, timeframes[i]))
  {
    if |timeframes| == 0 then Some([])
    else
      var init := timeframes[..|timeframes| - 1];
      var tf := timeframes[|timeframes| - 1];
      assert forall i :: 0 <= i < |init| ==> init[i] == timeframes[i];
      match AnalyzeFrames(ex, cfg, symbol, init)
      case None => None
      case Some(fs) =>
        match AnalyzeFrame(cfg, tf, FrameData(ex, cfg, symbol, tf))
        case None => None
        case Some(f) => Some(fs + [f])
  }

  /** The number of frames whose trend is bullish. */
  function CountBullish(frames: seq<FrameReport>): (n: nat)
    ensures n <= |frames|
  {
    if |frames| == 0 then 0
    else CountBullish(frames[..|frames| - 1]) + (if frames[|frames| - 1].trend == Some(true) then 1 else 0)
  }

  /** The report of `analyze_pair_ma`: one frame per timeframe and the
      number of bullish timeframes. */
  datatype MaReport = MaReport(frames: seq<FrameReport>, trendScore: nat)

  /** `analyze_pair_ma`: None when the MA analysis is disabled or when a
      timeframe raised; otherwise one frame per configured timeframe and
      the trend score. */
  function AnalyzePairMa(ex: Exchange, cfg: ScanConfig, symbol: string): (r: Option<MaReport>)
    requires PeriodsPositive(cfg)
    ensures !cfg.enableMa ==> r.None?
    ensures cfg.enableMa ==>
              (r.None? <==> |cfg.maPeriods| == 0
                            && exists i :: 0 <= i < |cfg.maTimeframes|
                                           && FrameData(ex, cfg, symbol, cfg.maTimeframes[i]).Some?)
    ensures r.Some? ==> |r.value.frames| == |cfg.maTimeframes|
    ensures r.Some? ==> forall i :: 0 <= i < |cfg.maTimeframes| ==> r.value.frames[i].timeframe == cfg.maTimeframes[i]
    ensures r.Some? ==> r.value.trendScore <= |cfg.maTimeframes|
  {
    if !cfg.enableMa then None
    else
      match AnalyzeFrames(ex, cfg, symbol, cfg.maTimeframes)
      case None => None
      case Some(frames) => Some(MaReport(frames, CountBullish(frames)))
  }

  /** The indices of the bullish frames. */
  function BullishIndices(frames: seq<FrameReport>): set<nat>
  {
    set i: nat | i < |frames| && frames[i].trend == Some(true)
  }

  /** The trend score is the number of timeframes whose trend is bullish. */
  lemma {:induction false} CountIsBullishTimeframes(frames: seq<FrameReport>)
    ensures CountBullish(frames) == |BullishIndices(frames)|
  {
    if |frames| > 0 {
      var n := |frames| - 1;
      var init := frames[..n];
      CountIsBullishTimeframes(init);
      assert forall i :: 0 <= i < n ==> init[i] == frames[i];
      if frames[n].trend == Some(true) {
        assert BullishIndices(frames) == BullishIndices(init) + {n};
      } else {
        assert BullishIndices(frames) == BullishIndices(init);
      }
    }
  }

  /** A timeframe without data, or with fewer candles than the longest MA
      period, stores no average and has no trend, so it adds nothing to the
      trend score. */
  lemma InsufficientFrame(cfg: ScanConfig, timeframe: string, df: Option<seq<Bar>>)
    requires PeriodsPositive(cfg)
    requires df.None? || (|cfg.maPeriods| > 0 && |df.value| < MaxOf(cfg.maPeriods))
    ensures var f := AnalyzeFrame(cfg, timeframe, df);
            f.Some? && f.value.trend.None?
            && forall j :: 0 <= j < |cfg.maPeriods| ==> f.value.sma[j].None? && f.value.ema[j].None?
  {
  }

  /** The bullish rule at the last of at least 50 closes: the close is
      above SMA20 and SMA50, or EMA20 is above EMA50. */
  predicate BullishAtLast(c: seq<real>)
    requires |c| >= 50
  {
    var last := |c| - 1;
    (c[last] > SmaAt(c, 20, last) && c[last] > SmaAt(c, 50, last))
    || Ewm(c, 20)[last] > Ewm(c, 50)[last]
  }

  /** With enough candles and both 20 and 50 among the periods, the trend
      of a timeframe is the bullish rule at its last close. */
  lemma FrameTrend(cfg: ScanConfig, timeframe: string, rows: seq<Bar>)
    requires PeriodsPositive(cfg)
    requires 20 in cfg.maPeriods && 50 in cfg.maPeriods
    requires |rows| >= MaxOf(cfg.maPeriods)
    ensures |rows| >= 50
    ensures AnalyzeFrame(cfg, timeframe, Some(rows)).value.trend == Some(BullishAtLast(Closes(rows)))
  {
    AtMostMax(cfg.maPeriods, 50);
    FrameTrendDetected(cfg, timeframe, rows);
    TrendOfCloses(Closes(rows));
  }

  /** On at least 50 closes, `detect_trend` with the 20- and 50-period
      averages is the bullish rule at the last close. */
  lemma TrendOfCloses(c: seq<real>)
    requires |c| >= 50
    ensures DetectTrend(Series(Defined(c)), SmaReading(c, 20), SmaReading(c, 50),
                        EmaReading(c, 20), EmaReading(c, 50))
            == Some(BullishAtLast(c))
  {
    SmaReadingLast(c, 20);
    SmaReadingLast(c, 50);
    EmaReadingLast(c, 20);
    EmaReadingLast(c, 50);
    LatestOfDefinedLast(Defined(c));
    TrendOfReadings(Series(Defined(c)), SmaReading(c, 20), SmaReading(c, 50),
                    EmaReading(c, 20), EmaReading(c, 50));
  }

  /** Every listed period is at most the longest one. */
  lemma AtMostMax(periods: seq<nat>, p: nat)
    requires p in periods
    ensures p <= MaxOf(periods)
  {
    var i :| 0 <= i < |periods| && periods[i] == p;
  }

  /** `detect_trend` on five present readings with values is the SMA rule
      or the EMA rule on those values. */
  lemma TrendOfReadings(price: Reading, sma20: Reading, sma50: Reading, ema20: Reading, ema50: Reading)
    requires Read(price).Some? && Read(sma20).Some? && Read(sma50).Some?
    requires Read(ema20).Some? && Read(ema50).Some?
    ensures DetectTrend(price, sma20, sma50, ema20, ema50)
            == Some((Read(price).value > Read(sma20).value && Read(price).value > Read(sma50).value)
                    || Read(ema20).value > Read(ema50).value)
  {
  }

  /** The reading of a computable SMA is its value at the last candle. */
  lemma SmaReadingLast(c: seq<real>, period: nat)
    requires 1 <= period <= |c|
    ensures Read(SmaReading(c, period)) == Some(SmaAt(c, period, |c| - 1))
  {
    LatestSma(c, period);
  }

  /** The reading of a computable EMA is its value at the last candle. */
  lemma EmaReadingLast(c: seq<real>, period: nat)
    requires 1 <= period <= |c|
    ensures Read(EmaReading(c, period)) == Some(Ewm(c, period)[|c| - 1])
  {
    EmaReadingSeries(c, period);
    ReadDefinedLast(Ewm(c, period));
  }

  /** A computable EMA is passed on as the fully defined series. */
  lemma EmaReadingSeries(c: seq<real>, period: nat)
    requires 1 <= period <= |c|
    ensures EmaReading(c, period) == Series(Defined(Ewm(c, period)))
  {
  }

  /** A fully defined non-empty series reads as its last value. */
  lemma ReadDefinedLast(e: seq<real>)
    requires |e| > 0
    ensures Read(Series(Defined(e))) == Some(e[|e| - 1])
  {
    LatestOfDefinedLast(Defined(e));
  }

  /** With data for every period and both 20 and 50 among the periods, a
      frame's trend is `detect_trend` on the closes and the four averages. */
  lemma FrameTrendDetected(cfg: ScanConfig, timeframe: string, rows: seq<Bar>)
    requires PeriodsPositive(cfg)
    requires 20 in cfg.maPeriods && 50 in cfg.maPeriods
    requires |rows| >= MaxOf(cfg.maPeriods)
    ensures var c := Closes(rows);
            AnalyzeFrame(cfg, timeframe, Some(rows)).value.trend
            == DetectTrend(Series(Defined(c)), SmaReading(c, 20), SmaReading(c, 50),
                           EmaReading(c, 20), EmaReading(c, 50))
  {
  }

  // ---------------------------------------------------------------------
  // Market scan
  // ---------------------------------------------------------------------

  /** One emitted opportunity. */
  datatype ScanResult = ScanResult(symbol: string, rsi: real, lastClosePrice: real,
                                   lastCloseTime: int, timeframe: string, ma: Option<MaReport>)

  /** How the scan of one symbol ends: with a result, counted as a success
      without a result (RSI or trend filter), or counted as an error. */
  datatype Outcome = Emitted(result: ScanResult) | Passed | Failed

  /** The candles fetched for the RSI. */
  function RsiData(ex: Exchange, cfg: ScanConfig, symbol: string): Option<seq<Bar>>
  {
    FetchOhlcv(ex, cfg, symbol, Some(cfg.timeframe), None).outcome
  }

  /** A result the scan may emit: its RSI is below the threshold and, with
      the MA analysis enabled and available, its trend score reaches the
      minimum. */
  predicate Qualifies(cfg: ScanConfig, x: ScanResult)
  {
    x.rsi < cfg.rsiThreshold
    && (cfg.enableMa && x.ma.Some? ==> x.ma.value.trendScore >= cfg.minTrendScore)
  }

  /** The body of the scan loop for one symbol: fetch, RSI, RSI threshold,
      MA analysis, trend-score threshold, result. */
  function ScanSymbol(ex: Exchange, cfg: ScanConfig, symbol: string): (o: Outcome)
    requires PeriodsPositive(cfg)
    ensures o.Failed? <==> RsiData(ex, cfg, symbol).None?
                           || |RsiData(ex, cfg, symbol).value| < cfg.rsiPeriod + 1
    ensures o.Emitted? ==> o.result.symbol == symbol && o.result.timeframe == cfg.timeframe
    ensures o.Emitted? ==> Qualifies(cfg, o.result) && 0.0 <= o.result.rsi
    ensures o.Emitted? ==> o.result.ma == AnalyzePairMa(ex, cfg, symbol)
  {
    var df := RsiData(ex, cfg, symbol);
    if df.None? || |df.value| == 0 then Failed
    else
      match GetLatestRsi(Closes(df.value), cfg.rsiPeriod)
      case None => Failed
      case Some(rsi) =>
        if rsi >= cfg.rsiThreshold then Passed
        else
          var ma := if cfg.enableMa then AnalyzePairMa(ex, cfg, symbol) else None;
          if cfg.enableMa && ma.Some? && ma.value.trendScore < cfg.minTrendScore then Passed
          else
            var candle := GetLastClosedCandle(df).value;
            Emitted(ScanResult(symbol, rsi, candle.close, candle.time, cfg.timeframe, ma))
  }

  /** An emitted result carries the RSI of the fetched closes and the last
      candle's close and time. */
  lemma EmittedResult(ex: Exchange, cfg: ScanConfig, symbol: string)
    requires PeriodsPositive(cfg)
    requires ScanSymbol(ex, cfg, symbol).Emitted?
    ensures var rows := RsiData(ex, cfg, symbol).value;
            var x := ScanSymbol(ex, cfg, symbol).result;
            && |rows| >= cfg.rsiPeriod + 1
            && x.rsi == RsiAt(Closes(rows), cfg.rsiPeriod, |rows| - 1)
            && x.lastClosePrice == rows[|rows| - 1].close
            && x.lastCloseTime == rows[|rows| - 1].time
  {
  }

  /** With enough candles for the RSI, a symbol is counted as a success
      without a result exactly when its RSI reaches the threshold or, with
      the MA analysis enabled and available, its trend score is below the
      minimum; otherwise it is emitted. A missing MA analysis never filters
      a symbol out. */
  lemma PassedOrEmitted(ex: Exchange, cfg: ScanConfig, symbol: string)
    requires PeriodsPositive(cfg)
    requires RsiData(ex, cfg, symbol).Some? && |RsiData(ex, cfg, symbol).value| >= cfg.rsiPeriod + 1
    ensures var rows := RsiData(ex, cfg, symbol).value;
            var rsi := RsiAt(Closes(rows), cfg.rsiPeriod, |rows| - 1);
            var ma := AnalyzePairMa(ex, cfg, symbol);
            var o := ScanSymbol(ex, cfg, symbol);
            && (o.Passed? <==> rsi >= cfg.rsiThreshold
                               || (cfg.enableMa && ma.Some? && ma.value.trendScore < cfg.minTrendScore))
            && (o.Emitted? <==> !o.Passed?)
  {
  }

  /** The loop state: results so far and the two counters. */
  datatype ScanState = ScanState(results: seq<ScanResult>, successCount: nat, errorCount: nat)

  /** Folds the per-symbol outcomes in order: a result is appended and
      counted as a success, a filtered symbol is counted as a success, a
      failure as an error. */
  function Tally(os: seq<Outcome>): (st: ScanState)
    ensures st.successCount + st.errorCount == |os|
    ensures |st.results| <= st.successCount
    ensures forall k :: 0 <= k < |st.results| ==> exists i :: 0 <= i < |os| && os[i] == Emitted(st.results[k])
    ensures forall i :: 0 <= i < |os| && os[i].Emitted? ==> os[i].result in st.results
  {
    if |os| == 0 then ScanState([], 0, 0)
    else
      var init := os[..|os| - 1];
      assert forall i :: 0 <= i < |init| ==> init[i] == os[i];
      var st := Tally(init);
      match os[|os| - 1]
      case Emitted(x) => ScanState(st.results + [x], st.successCount + 1, st.errorCount)
      case Passed => ScanState(st.results, st.successCount + 1, st.errorCount)
      case Failed => ScanState(st.results, st.successCount, st.errorCount + 1)
  }

  /** The error counter counts the failed outcomes. */
  lemma {:induction false} TallyErrors(os: seq<Outcome>)
    ensures Tally(os).errorCount == multiset(os)[Failed]
  {
    if |os| > 0 {
      var init := os[..|os| - 1];
      TallyErrors(init);
      assert os == init + [os[|os| - 1]];
      assert multiset(os) == multiset(init) + multiset{os[|os| - 1]};
    }
  }

  /** Every emitted result is kept exactly as often as it was emitted. */
  lemma {:induction false} TallyResults(os: seq<Outcome>, x: ScanResult)
    ensures multiset(Tally(os).results)[x] == multiset(os)[Emitted(x)]
  {
    if |os| > 0 {
      var init := os[..|os| - 1];
      TallyResults(init, x);
      assert os == init + [os[|os| - 1]];
      assert multiset(os) == multiset(init) + multiset{os[|os| - 1]};
      var st := Tally(init);
      if os[|os| - 1].Emitted? {
        assert Tally(os).results == st.results + [os[|os| - 1].result];
      } else {
        assert Tally(os).results == st.results;
      }
    }
  }

  /** The number of failed outcomes is the number of positions holding
      one. */
  lemma {:induction false} FailedPositions(os: seq<Outcome>)
    ensures multiset(os)[Failed] == |set i | 0 <= i < |os| && os[i].Failed?|
  {
    if |os| > 0 {
      var n := |os| - 1;
      var init := os[..n];
      FailedPositions(init);
      assert os == init + [os[n]];
      var a := set i | 0 <= i < |init| && init[i].Failed?;
      var b := set i | 0 <= i < |os| && os[i].Failed?;
      if os[n].Failed? {
        assert b == a + {n};
        assert n !in a;
      } else {
        assert b == a;
      }
    }
  }

  /** The outcome of every symbol, in order. */
  function Outcomes(ex: Exchange, cfg: ScanConfig, symbols: seq<string>): (os: seq<Outcome>)
    requires PeriodsPositive(cfg)
    ensures |os| == |symbols|
    ensures forall i :: 0 <= i < |symbols| ==> os[i] == ScanSymbol(ex, cfg, symbols[i])
  {
    seq(|symbols|, i requires 0 <= i < |symbols| => ScanSymbol(ex, cfg, symbols[i]))
  }

  /** Every result of the loop qualifies. */
  lemma TallyQualifies(ex: Exchange, cfg: ScanConfig, symbols: seq<string>)
    requires PeriodsPositive(cfg)
    ensures var st := Tally(Outcomes(ex, cfg, symbols));
            forall k :: 0 <= k < |st.results| ==> Qualifies(cfg, st.results[k])
  {
    var os := Outcomes(ex, cfg, symbols);
    var st := Tally(os);
    forall k | 0 <= k < |st.results|
      ensures Qualifies(cfg, st.results[k])
    {
      var i :| 0 <= i < |os| && os[i] == Emitted(st.results[k]);
      assert os[i] == ScanSymbol(ex, cfg, symbols[i]);
    }
  }

  /** Results ordered by ascending RSI. */
  predicate SortedByRsi(xs: seq<ScanResult>)
  {
    forall i, j :: 0 <= i < j < |xs| ==> xs[i].rsi <= xs[j].rsi
  }

  /** Inserts a result after every leading result whose RSI is not larger. */
  function Insert(x: ScanResult, xs: seq<ScanResult>): (r: seq<ScanResult>)
    ensures multiset(r) == multiset(xs) + multiset{x}
    ensures |r| == |xs| + 1
  {
    if |xs| == 0 then [x]
    else if x.rsi < xs[0].rsi then [x] + xs
    else
      assert xs == [xs[0]] + xs[1..];
      [xs[0]] + Insert(x, xs[1..])
  }

  /** Inserting a result no lower than `lo` into results no lower than
      `lo` keeps every result no lower than `lo`. */
  lemma {:induction false} InsertAbove(x: ScanResult, xs: seq<ScanResult>, lo: real)
    requires lo <= x.rsi
    requires forall i :: 0 <= i < |xs| ==> lo <= xs[i].rsi
    ensures forall i :: 0 <= i < |Insert(x, xs)| ==> lo <= Insert(x, xs)[i].rsi
  {
    if |xs| > 0 && x.rsi >= xs[0].rsi {
      InsertAbove(x, xs[1..], lo);
    }
  }

  /** Insertion keeps a sorted sequence sorted. */
  lemma {:induction false} InsertSorted(x: ScanResult, xs: seq<ScanResult>)
    requires SortedByRsi(xs)
    ensures SortedByRsi(Insert(x, xs))
  {
    if |xs| > 0 && x.rsi >= xs[0].rsi {
      InsertSorted(x, xs[1..]);
      InsertAbove(x, xs[1..], xs[0].rsi);
    }
  }

  /** Sorting by RSI, keeping results with equal RSI in their order of
      discovery (each result is inserted after its equals). */
  function SortByRsi(xs: seq<ScanResult>): (r: seq<ScanResult>)
    ensures multiset(r) == multiset(xs)
    ensures |r| == |xs|
  {
    if |xs| == 0 then []
    else
      assert xs == xs[..|xs| - 1] + [xs[|xs| - 1]];
      Insert(xs[|xs| - 1], SortByRsi(xs[..|xs| - 1]))
  }

  /** The sort orders the results by ascending RSI. */
  lemma {:induction false} SortSorted(xs: seq<ScanResult>)
    ensures SortedByRsi(SortByRsi(xs))
  {
    if |xs| > 0 {
      SortSorted(xs[..|xs| - 1]);
      InsertSorted(xs[|xs| - 1], SortByRsi(xs[..|xs| - 1]));
    }
  }

  /** A permutation of qualifying results consists of qualifying results. */
  lemma PermutationQualifies(cfg: ScanConfig, a: seq<ScanResult>, b: seq<ScanResult>)
    requires multiset(a) == multiset(b)
    requires forall k :: 0 <= k < |b| ==> Qualifies(cfg, b[k])
    ensures forall k :: 0 <= k < |a| ==> Qualifies(cfg, a[k])
  {
    forall k | 0 <= k < |a|
      ensures Qualifies(cfg, a[k])
    {
      assert a[k] in multiset(a);
      var j :| 0 <= j < |b| && b[j] == a[k];
    }
  }

  /** The outcome of a scan: the sorted results and the counters. */
  datatype ScanReport = ScanReport(results: seq<ScanResult>, successCount: nat, errorCount: nat)

  /** `scan_market`. `markets` is None when initialising the exchange or
      loading its markets raised. The symbols are the filtered pairs; with
      none the scan is empty. */
  function ScanMarket(ex: Exchange, cfg: ScanConfig, markets: Option<seq<(string, Market)>>): (r: ScanReport)
    requires PeriodsPositive(cfg)
    ensures markets.None? || |FilterPairs(cfg, markets.value)| == 0 ==> r == ScanReport([], 0, 0)
    ensures markets.Some? ==> r.successCount + r.errorCount == |FilterPairs(cfg, markets.value)|
    ensures |r.results| <= r.successCount
    ensures markets.Some? ==>
              multiset(r.results) == multiset(Tally(Outcomes(ex, cfg, FilterPairs(cfg, markets.value))).results)
  {
    if markets.None? then ScanReport([], 0, 0)
    else
      var symbols := FilterPairs(cfg, markets.value);
      if |symbols| == 0 then ScanReport([], 0, 0)
      else
        var st := Tally(Outcomes(ex, cfg, symbols));
        ScanReport(SortByRsi(st.results), st.successCount, st.errorCount)
  }

  /** The scan's results are sorted by ascending RSI and every one
      qualifies: RSI below the threshold and, with the MA analysis enabled
      and available, a trend score at least the minimum. */
  lemma ScanResultsSortedAndQualified(ex: Exchange, cfg: ScanConfig, markets: Option<seq<(string, Market)>>)
    requires PeriodsPositive(cfg)
    ensures var r := ScanMarket(ex, cfg, markets).results;
            SortedByRsi(r) && forall k :: 0 <= k < |r| ==> Qualifies(cfg, r[k])
  {
    if markets.Some? {
      var symbols := FilterPairs(cfg, markets.value);
      if |symbols| > 0 {
        var st := Tally(Outcomes(ex, cfg, symbols));
        SortSorted(st.results);
        TallyQualifies(ex, cfg, symbols);
        PermutationQualifies(cfg, SortByRsi(st.results), st.results);
      }
    }
  }

  /** The error counter is the number of filtered pairs whose scan
      failed; every other pair adds to the success counter. */
  lemma ScanCounters(ex: Exchange, cfg: ScanConfig, markets: seq<(string, Market)>)
    requires PeriodsPositive(cfg)
    ensures var symbols := FilterPairs(cfg, markets);
            var r := ScanMarket(ex, cfg, Some(markets));
            r.errorCount == |set i | 0 <= i < |symbols| && ScanSymbol(ex, cfg, symbols[i]).Failed?|
            && r.successCount == |symbols| - r.errorCount
  {
    var symbols := FilterPairs(cfg, markets);
    LoopErrors(ex, cfg, symbols);
    if |symbols| > 0 {
      assert ScanMarket(ex, cfg, Some(markets)).errorCount == Tally(Outcomes(ex, cfg, symbols)).errorCount;
    }
  }

  /** The loop's error counter is the number of symbols whose scan
      failed. */
  lemma LoopErrors(ex: Exchange, cfg: ScanConfig, symbols: seq<string>)
    requires PeriodsPositive(cfg)
    ensures Tally(Outcomes(ex, cfg, symbols)).errorCount
            == |set i | 0 <= i < |symbols| && ScanSymbol(ex, cfg, symbols[i]).Failed?|
  {
    var os := Outcomes(ex, cfg, symbols);
    assert (set i | 0 <= i < |symbols| && ScanSymbol(ex, cfg, symbols[i]).Failed?)
        == (set i | 0 <= i < |os| && os[i].Failed?);
    TallyErrors(os);
    FailedPositions(os);
  }

  /** A result of the loop came from an emitted outcome; returns its
      index. */
  lemma EmittedIndex(os: seq<Outcome>, x: ScanResult) returns (i: int)
    requires x in multiset(Tally(os).results)
    ensures 0 <= i < |os| && os[i] == Emitted(x)
  {
    var rs := Tally(os).results;
    var j :| 0 <= j < |rs| && rs[j] == x;
    i :| 0 <= i < |os| && os[i] == Emitted(rs[j]);
  }

  /** Every reported result is what the scan of some filtered pair
      emitted. */
  lemma ReportedWasEmitted(ex: Exchange, cfg: ScanConfig, markets: seq<(string, Market)>, k: int)
    requires PeriodsPositive(cfg)
    requires 0 <= k < |ScanMarket(ex, cfg, Some(markets)).results|
    ensures var symbols := FilterPairs(cfg, markets);
            exists i :: 0 <= i < |symbols|
                        && ScanSymbol(ex, cfg, symbols[i]) == Emitted(ScanMarket(ex, cfg, Some(markets)).results[k])
  {
    var symbols := FilterPairs(cfg, markets);
    var rs := ScanMarket(ex, cfg, Some(markets)).results;
    var os := Outcomes(ex, cfg, symbols);
    assert rs[k] in multiset(rs);
    var i := EmittedIndex(os, rs[k]);
    assert os[i] == ScanSymbol(ex, cfg, symbols[i]);
  }

  /** Every result the scan of a filtered pair emits is reported. */
  lemma EmittedIsReported(ex: Exchange, cfg: ScanConfig, markets: seq<(string, Market)>, i: int)
    requires PeriodsPositive(cfg)
    requires 0 <= i < |FilterPairs(cfg, markets)|
    requires ScanSymbol(ex, cfg, FilterPairs(cfg, markets)[i]).Emitted?
    ensures ScanSymbol(ex, cfg, FilterPairs(cfg, markets)[i]).result in ScanMarket(ex, cfg, Some(markets)).results
  {
    var symbols := FilterPairs(cfg, markets);
    var os := Outcomes(ex, cfg, symbols);
    var st := Tally(os);
    assert os[i] == ScanSymbol(ex, cfg, symbols[i]);
    assert os[i].result in multiset(st.results);
    assert os[i].result in multiset(ScanMarket(ex, cfg, Some(markets)).results);
  }
}
