/** Moving Average Convergence Divergence (`calculate_macd` in
    indicators.py). */
module Macd {
  import opened Base
  import opened Averages

  /** The three MACD series, aligned with the prices. */
  datatype MacdData = MacdData(macd: seq<real>, signal: seq<real>, histogram: seq<real>)

  /** MACD line = fast EMA - slow EMA; signal line = EMA of the MACD line;
      histogram = MACD line - signal line. None when fewer than
      `slowPeriod` prices are given, or when a span is 0 (the numeric
      library rejects it and the source returns None). */
  function CalculateMacd(ps: seq<real>, fastPeriod: nat, slowPeriod: nat, signalPeriod: nat)
    : (r: Option<MacdData>)
    ensures r.None? <==> |ps| < slowPeriod || fastPeriod == 0 || slowPeriod == 0 || signalPeriod == 0
    ensures r.Some? ==> |r.value.macd| == |r.value.signal| == |r.value.histogram| == |ps| > 0
    ensures r.Some? ==> forall i :: 0 <= i < |ps| ==>
                          r.value.histogram[i] == r.value.macd[i] - r.value.signal[i]
    ensures r.Some? ==> r.value.macd[0] == 0.0 && r.value.signal[0] == 0.0
                        && r.value.histogram[0] == 0.0
  {
    if |ps| < slowPeriod || fastPeriod == 0 || slowPeriod == 0 || signalPeriod == 0 then None
    else
      var fast := Ewm(ps, fastPeriod);
      var slow := Ewm(ps, slowPeriod);
      var line := seq(|ps|, i requires 0 <= i < |ps| => fast[i] - slow[i]);
      var signal := Ewm(line, signalPeriod);
      var histogram := seq(|ps|, i requires 0 <= i < |ps| => line[i] - signal[i]);
      Some(MacdData(line, signal, histogram))
  }

  /** On a constant price series both averages equal the price, so the
      MACD line, the signal line and the histogram are all zero. */
  lemma ConstantPricesFlatMacd(ps: seq<real>, c: real, fastPeriod: nat, slowPeriod: nat, signalPeriod: nat)
    requires fastPeriod >= 1 && slowPeriod >= 1 && signalPeriod >= 1 && slowPeriod <= |ps|
    requires forall j :: 0 <= j < |ps| ==> ps[j] == c
    ensures forall i :: 0 <= i < |ps| ==>
              CalculateMacd(ps, fastPeriod, slowPeriod, signalPeriod).value.histogram[i] == 0.0
    ensures forall i :: 0 <= i < |ps| ==>
              CalculateMacd(ps, fastPeriod, slowPeriod, signalPeriod).value.macd[i] == 0.0
              && CalculateMacd(ps, fastPeriod, slowPeriod, signalPeriod).value.signal[i] == 0.0
  {
    var d := CalculateMacd(ps, fastPeriod, slowPeriod, signalPeriod).value;
    forall i | 0 <= i < |ps|
      ensures d.macd[i] == 0.0
    {
      EmaOfConstant(ps, Alpha(fastPeriod), i, c);
      EmaOfConstant(ps, Alpha(slowPeriod), i, c);
    }
    forall i | 0 <= i < |ps|
      ensures d.signal[i] == 0.0
    {
      EmaOfConstant(d.macd, Alpha(signalPeriod), i, 0.0);
    }
  }
}
