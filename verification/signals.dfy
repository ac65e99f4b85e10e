/** Discrete classifiers of indicators.py: the multi-average trend rule
    (`detect_trend`) and the MACD, Bollinger and Stochastic labels. */
module Signals {
  import opened Base
  import opened Macd

  const BULLISH := "bullish"
  const BEARISH := "bearish"
  const NEUTRAL := "neutral"
  const OVERSOLD := "oversold"
  const OVERBOUGHT := "overbought"
  const NEAR_OVERSOLD := "near_oversold"
  const NEAR_OVERBOUGHT := "near_overbought"
  const BULLISH_CROSS := "bullish_cross"
  const BEARISH_CROSS := "bearish_cross"

  // ---------------------------------------------------------------------
  // Trend
  // ---------------------------------------------------------------------

  /** An argument of `detect_trend`: not supplied, a plain number, or a
      whole indicator series (whose reading is its last defined value). */
  datatype Reading = Absent | Scalar(x: real) | Series(s: seq<Option<real>>)

  /** The scalar a reading stands for. */
  function Read(r: Reading): (v: Option<real>)
    ensures r.Absent? ==> v.None?
    ensures r.Scalar? ==> v == Some(r.x)
    ensures r.Series? ==> (v.None? <==> forall i :: 0 <= i < |r.s| ==> r.s[i].None?)
    ensures r.Series? && v.Some? ==> exists i :: 0 <= i < |r.s| && r.s[i] == v
                                                 && forall j :: i < j < |r.s| ==> r.s[j].None?
  {
    match r
    case Absent => None
    case Scalar(x) => Some(x)
    case Series(s) => Latest(s)
  }

  /** Both readings of a pair were supplied. */
  predicate Supplied(a: Reading, b: Reading)
  {
    !a.Absent? && !b.Absent?
  }

  /** Both readings of a pair were supplied and have a value. */
  predicate Usable(a: Reading, b: Reading)
  {
    Supplied(a, b) && Read(a).Some? && Read(b).Some?
  }

  /** The SMA condition: the price is above both averages. */
  predicate SmaBullish(price: real, sma20: Reading, sma50: Reading)
  {
    Usable(sma20, sma50) && price > Read(sma20).value && price > Read(sma50).value
  }

  /** The EMA condition: the fast average is above the slow one. */
  predicate EmaBullish(ema20: Reading, ema50: Reading)
  {
    Usable(ema20, ema50) && Read(ema20).value > Read(ema50).value
  }

  /** Bullish if the SMA condition or the EMA condition holds; None when
      neither pair is supplied, when the price is missing, or when no
      condition can be evaluated. */
  function DetectTrend(price: Reading, sma20: Reading, sma50: Reading, ema20: Reading, ema50: Reading)
    : (r: Option<bool>)
    ensures r.None? <==> (!Supplied(sma20, sma50) && !Supplied(ema20, ema50))
                         || Read(price).None?
                         || (!Usable(sma20, sma50) && !Usable(ema20, ema50))
    ensures r.Some? ==> (r.value <==> SmaBullish(Read(price).value, sma20, sma50)
                                      || EmaBullish(ema20, ema50))
  {
    var hasSma := Supplied(sma20, sma50);
    var hasEma := Supplied(ema20, ema50);
    if !hasSma && !hasEma then None
    else
      match Read(price)
      case None => None
      case Some(p) =>
        var smaConditions :=
          if hasSma && Read(sma20).Some? && Read(sma50).Some?
          then [p > Read(sma20).value && p > Read(sma50).value] else [];
        var emaConditions :=
          if hasEma && Read(ema20).Some? && Read(ema50).Some?
          then [Read(ema20).value > Read(ema50).value] else [];
        var conditions := smaConditions + emaConditions;
        if |conditions| == 0 then None else Some(true in conditions)
  }

  /** With all four averages given as series whose last entries are
      defined, the trend is (price > SMA20 and price > SMA50) or
      EMA20 > EMA50 on those last entries. */
  lemma TrendOnSeries(price: real, sma20: seq<Option<real>>, sma50: seq<Option<real>>,
                      ema20: seq<Option<real>>, ema50: seq<Option<real>>)
    requires |sma20| > 0 && sma20[|sma20| - 1].Some?
    requires |sma50| > 0 && sma50[|sma50| - 1].Some?
    requires |ema20| > 0 && ema20[|ema20| - 1].Some?
    requires |ema50| > 0 && ema50[|ema50| - 1].Some?
    ensures DetectTrend(Scalar(price), Series(sma20), Series(sma50), Series(ema20), Series(ema50))
            == Some((price > sma20[|sma20| - 1].value && price > sma50[|sma50| - 1].value)
                    || ema20[|ema20| - 1].value > ema50[|ema50| - 1].value)
  {
    LatestOfDefinedLast(sma20);
    LatestOfDefinedLast(sma50);
    LatestOfDefinedLast(ema20);
    LatestOfDefinedLast(ema50);
  }

  // ---------------------------------------------------------------------
  // MACD
  // ---------------------------------------------------------------------

  /** The label of a histogram value by its sign alone. */
  function SignLabel(h: real): string
  {
    if h > 0.0 then BULLISH else if h < 0.0 then BEARISH else NEUTRAL
  }

  /** MACD label from the last two histogram values: a crossover from
      negative to positive is bullish, from positive to negative bearish,
      otherwise the sign of the last value decides. None without data or
      with fewer than two values. The crossover branches agree with the
      sign, so the label depends on the last value only. */
  function DetectMacdSignal(data: Option<MacdData>): (r: Option<string>)
    ensures r.None? <==> data.None? || |data.value.histogram| < 2
    ensures r.Some? ==> r.value == SignLabel(data.value.histogram[|data.value.histogram| - 1])
  {
    if data.None? then None
    else
      var h := data.value.histogram;
      if |h| < 2 then None
      else
        var current := h[|h| - 1];
        var previous := h[|h| - 2];
        if previous < 0.0 && current > 0.0 then Some(BULLISH)
        else if previous > 0.0 && current < 0.0 then Some(BEARISH)
        else if current > 0.0 then Some(BULLISH)
        else if current < 0.0 then Some(BEARISH)
        else Some(NEUTRAL)
  }

  /** Constant prices give a neutral MACD label. */
  lemma ConstantPricesNeutralMacd(ps: seq<real>, c: real, fastPeriod: nat, slowPeriod: nat, signalPeriod: nat)
    requires fastPeriod >= 1 && slowPeriod >= 1 && signalPeriod >= 1 && slowPeriod <= |ps|
    requires |ps| >= 2
    requires forall j :: 0 <= j < |ps| ==> ps[j] == c
    ensures DetectMacdSignal(CalculateMacd(ps, fastPeriod, slowPeriod, signalPeriod)) == Some(NEUTRAL)
  {
    ConstantPricesFlatMacd(ps, c, fastPeriod, slowPeriod, signalPeriod);
  }

  // ---------------------------------------------------------------------
  // Bollinger
  // ---------------------------------------------------------------------

  /** The band series of a Bollinger computation. */
  datatype Bands = Bands(upper: seq<real>, middle: seq<real>, lower: seq<real>)

  /** First-match position of the last price against the last bands:
      on or below the lower band, on or above the upper band, in the
      lowest 30% of the lower half, in the highest 30% of the upper half,
      else neutral. None when an input is missing or a series is empty
      (the source's indexing fails and it returns None). */
  function DetectBollingerSignal(prices: Option<seq<real>>, bands: Option<Bands>): (r: Option<string>)
    ensures r.None? <==> prices.None? || bands.None? || |prices.value| == 0
                         || |bands.value.upper| == 0 || |bands.value.lower| == 0
                         || |bands.value.middle| == 0
    ensures r.Some? ==> r.value in {OVERSOLD, OVERBOUGHT, NEAR_OVERSOLD, NEAR_OVERBOUGHT, NEUTRAL}
  {
    if prices.None? || bands.None? then None
    else
      var ps := prices.value;
      var b := bands.value;
      if |ps| == 0 || |b.upper| == 0 || |b.lower| == 0 || |b.middle| == 0 then None
      else
        var price := ps[|ps| - 1];
        var upper := b.upper[|b.upper| - 1];
        var lower := b.lower[|b.lower| - 1];
        var middle := b.middle[|b.middle| - 1];
        if price <= lower then Some(OVERSOLD)
        else if price >= upper then Some(OVERBOUGHT)
        else if price < middle && (price - lower) / (middle - lower) < 0.3 then Some(NEAR_OVERSOLD)
        else if price > middle && (upper - price) / (upper - middle) < 0.3 then Some(NEAR_OVERBOUGHT)
        else Some(NEUTRAL)
  }

  /** What each Bollinger label says about the last price p and the last
      bands (lower, middle, upper): oversold exactly when p <= lower,
      overbought exactly when lower < p and p >= upper, and the near_*
      and neutral labels only strictly between the bands. */
  lemma BollingerLabels(ps: seq<real>, b: Bands)
    requires |ps| > 0 && |b.upper| > 0 && |b.middle| > 0 && |b.lower| > 0
    ensures var r := DetectBollingerSignal(Some(ps), Some(b)).value;
            var p := ps[|ps| - 1];
            var upper := b.upper[|b.upper| - 1];
            var middle := b.middle[|b.middle| - 1];
            var lower := b.lower[|b.lower| - 1];
            && (r == OVERSOLD <==> p <= lower)
            && (r == OVERBOUGHT <==> lower < p && upper <= p)
            && (r == NEAR_OVERSOLD ==> lower < p < middle && p < upper
                                       && 10.0 * (p - lower) < 3.0 * (middle - lower))
            && (r == NEAR_OVERBOUGHT ==> middle < p < upper && lower < p
                                         && 10.0 * (upper - p) < 3.0 * (upper - middle))
            && (r == NEUTRAL ==> lower < p < upper)
  {
    var p := ps[|ps| - 1];
    var upper := b.upper[|b.upper| - 1];
    var middle := b.middle[|b.middle| - 1];
    var lower := b.lower[|b.lower| - 1];
    if lower < p < middle && p < upper {
      QuotientBelow(p - lower, middle - lower);
    }
    if middle < p < upper && lower < p {
      QuotientBelow(upper - p, upper - middle);
    }
  }

  /** x / y < 0.3 exactly when 10 x < 3 y, for positive y. */
  lemma QuotientBelow(x: real, y: real)
    requires y > 0.0
    ensures x / y < 0.3 <==> 10.0 * x < 3.0 * y
  {
    assert x / y * y == x;
  }

  // ---------------------------------------------------------------------
  // Stochastic
  // ---------------------------------------------------------------------

  /** The %K and %D series of a Stochastic computation. */
  datatype StochData = StochData(k: seq<real>, d: seq<real>)

  /** %K crosses above %D between the last two bars. */
  predicate CrossesUp(kPrev: real, dPrev: real, k: real, d: real)
  {
    kPrev < dPrev && k > d
  }

  /** %K crosses below %D between the last two bars. */
  predicate CrossesDown(kPrev: real, dPrev: real, k: real, d: real)
  {
    kPrev > dPrev && k < d
  }

  /** A bullish cross that qualifies: %K crosses above %D and ends below
      the oversold level + 10. */
  predicate QualifyingCrossUp(sd: StochData, oversoldLevel: real)
    requires |sd.k| >= 2 && |sd.d| >= 2
  {
    var k := sd.k[|sd.k| - 1];
    CrossesUp(sd.k[|sd.k| - 2], sd.d[|sd.d| - 2], k, sd.d[|sd.d| - 1]) && k < oversoldLevel + 10.0
  }

  /** A bearish cross that qualifies: %K crosses below %D and ends above
      the overbought level - 10. */
  predicate QualifyingCrossDown(sd: StochData, overboughtLevel: real)
    requires |sd.k| >= 2 && |sd.d| >= 2
  {
    var k := sd.k[|sd.k| - 1];
    CrossesDown(sd.k[|sd.k| - 2], sd.d[|sd.d| - 2], k, sd.d[|sd.d| - 1]) && k > overboughtLevel - 10.0
  }

  /** First-match Stochastic label: a bullish cross within 10 points above
      the oversold level, a bearish cross within 10 points below the
      overbought level, then the plain levels, else neutral. None without
      data or with fewer than two values in a line. A qualifying cross
      wins over the plain levels, and the two crosses exclude each other. */
  function DetectStochasticSignal(data: Option<StochData>, oversoldLevel: real, overboughtLevel: real)
    : (r: Option<string>)
    ensures r.None? <==> data.None? || |data.value.k| < 2 || |data.value.d| < 2
    ensures r.Some? ==>
      var sd := data.value;
      var k := sd.k[|sd.k| - 1];
      var up := QualifyingCrossUp(sd, oversoldLevel);
      var down := QualifyingCrossDown(sd, overboughtLevel);
      && !(up && down)
      && (r.value == BULLISH_CROSS <==> up)
      && (r.value == BEARISH_CROSS <==> down)
      && (r.value == OVERSOLD <==> !up && !down && k < oversoldLevel)
      && (r.value == OVERBOUGHT <==> !up && !down && oversoldLevel <= k && overboughtLevel < k)
      && (r.value == NEUTRAL <==> !up && !down && oversoldLevel <= k <= overboughtLevel)
  {
    if data.None? || |data.value.k| < 2 then None
    else
      var kl := data.value.k;
      var dl := data.value.d;
      if |dl| < 2 then None
      else
        var k := kl[|kl| - 1];
        var kPrev := kl[|kl| - 2];
        var d := dl[|dl| - 1];
        var dPrev := dl[|dl| - 2];
        if CrossesUp(kPrev, dPrev, k, d) && k < oversoldLevel + 10.0 then Some(BULLISH_CROSS)
        else if CrossesDown(kPrev, dPrev, k, d) && k > overboughtLevel - 10.0 then Some(BEARISH_CROSS)
        else if k < oversoldLevel then Some(OVERSOLD)
        else if k > overboughtLevel then Some(OVERBOUGHT)
        else Some(NEUTRAL)
  }
}
