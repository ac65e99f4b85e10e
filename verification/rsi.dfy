/** Wilder's Relative Strength Index (`calculate_rsi`, `get_latest_rsi`
    in indicators.py). */
module Rsi {
  import opened Base

  /** The upward (`up`) or downward part of the price change into index
      `i`: a gain is max(delta, 0), a loss is max(-delta, 0). */
  function Move(ps: seq<real>, i: nat, up: bool): (m: real)
    requires 1 <= i < |ps|
    ensures m >= 0.0
  {
    var delta := ps[i] - ps[i - 1];
    if up then (if delta > 0.0 then delta else 0.0)
    else (if delta < 0.0 then -delta else 0.0)
  }

  /** Sum of the moves into indices 1..n. */
  function SumMoves(ps: seq<real>, n: nat, up: bool): (s: real)
    requires n < |ps|
    ensures s >= 0.0
  {
    if n == 0 then 0.0 else SumMoves(ps, n - 1, up) + Move(ps, n, up)
  }

  /** Wilder-smoothed average move at index `i`: at `period` it is the
      plain mean of the first `period` moves, afterwards each step keeps
      (period - 1)/period of the previous average and adds 1/period of
      the new move. */
  function AvgMove(ps: seq<real>, period: nat, i: nat, up: bool): (a: real)
    requires 1 <= period <= i < |ps|
    ensures a >= 0.0
    decreases i
  {
    if i == period then SumMoves(ps, period, up) / (period as real)
    else Wilder(AvgMove(ps, period, i - 1, up), Move(ps, i, up), period)
  }

  /** One step of Wilder's smoothing: keep (period - 1)/period of the
      previous average and add 1/period of the new move. */
  function Wilder(prev: real, move: real, period: nat): (a: real)
    requires period >= 1
    requires prev >= 0.0 && move >= 0.0
    ensures a >= 0.0
    ensures move > 0.0 ==> a > 0.0
    ensures prev == 0.0 && move == 0.0 ==> a == 0.0
  {
    var p := period as real;
    assert prev * (p - 1.0) >= 0.0;
    (prev * (p - 1.0) + move) / p
  }

  /** RSI from the two averages, with the source's special cases: 100
      when there is no loss, 0 when there is no gain (but some loss).
      Outside the special cases it is the gain's share of all movement. */
  function RsiValue(avgGain: real, avgLoss: real): (r: real)
    requires avgGain >= 0.0 && avgLoss >= 0.0
    ensures 0.0 <= r <= 100.0
    ensures avgLoss == 0.0 ==> r == 100.0
    ensures avgGain == 0.0 && avgLoss > 0.0 ==> r == 0.0
    ensures avgLoss > 0.0 ==> r == 100.0 * avgGain / (avgGain + avgLoss)
  {
    if avgLoss == 0.0 then 100.0
    else if avgGain == 0.0 then 0.0
    else
      var rs := avgGain / avgLoss;
      ShareOfGain(avgGain, avgLoss, rs);
      100.0 - 100.0 / (1.0 + rs)
  }

  /** 100 - 100/(1 + g/l) is 100 g/(g + l) and lies strictly between 0
      and 100 for positive g and l. */
  lemma ShareOfGain(g: real, l: real, rs: real)
    requires g > 0.0 && l > 0.0 && rs == g / l
    ensures 100.0 - 100.0 / (1.0 + rs) == 100.0 * g / (g + l)
    ensures 0.0 < 100.0 - 100.0 / (1.0 + rs) < 100.0
  {
    assert rs * l == g;
    var d := 1.0 + rs;
    assert d * l == l + g;
    assert d > 1.0;
    var q := 100.0 / d;
    assert q * d == 100.0;
    assert q * (g + l) == 100.0 * l by {
      assert q * (g + l) == q * (d * l);
      assert q * (d * l) == (q * d) * l;
    }
    var t := 100.0 * g / (g + l);
    assert t * (g + l) == 100.0 * g;
    assert (100.0 - q) * (g + l) == 100.0 * g;
    assert (100.0 - q - t) * (g + l) == 0.0;
    ZeroFactor(100.0 - q - t, g + l);
    assert 0.0 < q < 100.0;
  }

  /** A product with a positive factor is zero only if the other factor is. */
  lemma ZeroFactor(x: real, y: real)
    requires y > 0.0 && x * y == 0.0
    ensures x == 0.0
  {
  }

  /** The RSI at index `i` (defined from index `period` on). */
  function RsiAt(ps: seq<real>, period: nat, i: nat): (r: real)
    requires 1 <= period <= i < |ps|
    ensures 0.0 <= r <= 100.0
  {
    RsiValue(AvgMove(ps, period, i, true), AvgMove(ps, period, i, false))
  }

  /** The RSI series: None with fewer than period + 1 prices, otherwise a
      series aligned with the prices, undefined before index `period`,
      every defined value in [0, 100]. */
  function CalculateRsi(ps: seq<real>, period: nat): (r: Option<seq<Option<real>>>)
    requires period >= 1
    ensures r.None? <==> |ps| < period + 1
    ensures r.Some? ==> |r.value| == |ps|
    ensures r.Some? ==> forall i :: 0 <= i < |ps| ==> (r.value[i].Some? <==> i >= period)
    ensures r.Some? ==> forall i :: 0 <= i < |ps| && r.value[i].Some? ==>
                          0.0 <= r.value[i].value <= 100.0
  {
    if |ps| < period + 1 then None
    else Some(seq(|ps|, i requires 0 <= i < |ps| =>
                if i < period then None else Some(RsiAt(ps, period, i))))
  }

  /** The last defined RSI value, or None when the series cannot be
      computed. */
  function GetLatestRsi(ps: seq<real>, period: nat): (r: Option<real>)
    requires period >= 1
    ensures r.None? <==> |ps| < period + 1
    ensures r.Some? ==> r.value == RsiAt(ps, period, |ps| - 1)
    ensures r.Some? ==> 0.0 <= r.value <= 100.0
  {
    match CalculateRsi(ps, period)
    case None => None
    case Some(series) =>
      LatestOfDefinedLast(series);
      Latest(series)
  }

  /** Iterative computation in the shape of the source's two loops: seed
      the averages with the mean of the first `period` moves, then apply
      Wilder's update while emitting one RSI value per index. */
  method ComputeRsi(ps: seq<real>, period: nat) returns (r: Option<seq<Option<real>>>)
    requires period >= 1
    ensures r == CalculateRsi(ps, period)
  {
    if |ps| < period + 1 {
      return None;
    }
    var sumGain, sumLoss := 0.0, 0.0;
    var k := 1;
    while k <= period
      invariant 1 <= k <= period + 1
      invariant sumGain == SumMoves(ps, k - 1, true)
      invariant sumLoss == SumMoves(ps, k - 1, false)
    {
      sumGain := sumGain + Move(ps, k, true);
      sumLoss := sumLoss + Move(ps, k, false);
      k := k + 1;
    }
    var p := period as real;
    var avgGain, avgLoss := sumGain / p, sumLoss / p;
    var out: seq<Option<real>> := seq(period, _ => None);
    var i := period;
    while i < |ps|
      invariant period <= i <= |ps|
      invariant |out| == i
      invariant forall j :: 0 <= j < period ==> out[j] == None
      invariant forall j :: period <= j < i ==> out[j] == Some(RsiAt(ps, period, j))
      invariant i < |ps| ==> avgGain == AvgMove(ps, period, i, true)
      invariant i < |ps| ==> avgLoss == AvgMove(ps, period, i, false)
    {
      out := out + [Some(RsiValue(avgGain, avgLoss))];
      if i + 1 < |ps| {
        avgGain := Wilder(avgGain, Move(ps, i + 1, true), period);
        avgLoss := Wilder(avgLoss, Move(ps, i + 1, false), period);
      }
      i := i + 1;
    }
    ghost var spec := CalculateRsi(ps, period).value;
    assert forall j :: 0 <= j < |ps| ==> out[j] == spec[j];
    assert out == spec;
    r := Some(out);
  }

  /** On a strictly increasing series no losses occur, so the smoothed loss
      is 0. */
  lemma {:induction false} NoLossWhenRising(ps: seq<real>, period: nat, i: nat)
    requires 1 <= period <= i < |ps|
    requires forall j :: 1 <= j < |ps| ==> ps[j - 1] < ps[j]
    ensures AvgMove(ps, period, i, false) == 0.0
  {
    NoMovesDown(ps, period);
    if i > period {
      NoLossWhenRising(ps, period, i - 1);
    }
  }

  /** The first `n` losses of a strictly increasing series sum to 0. */
  lemma {:induction false} NoMovesDown(ps: seq<real>, n: nat)
    requires n < |ps|
    requires forall j :: 1 <= j < |ps| ==> ps[j - 1] < ps[j]
    ensures SumMoves(ps, n, false) == 0.0
  {
    if n > 0 {
      NoMovesDown(ps, n - 1);
    }
  }

  /** For a strictly increasing series every defined RSI value is 100. */
  lemma RisingSeriesRsi(ps: seq<real>, period: nat)
    requires period >= 1 && |ps| >= period + 1
    requires forall j :: 1 <= j < |ps| ==> ps[j - 1] < ps[j]
    ensures forall i :: period <= i < |ps| ==> CalculateRsi(ps, period).value[i] == Some(100.0)
  {
    forall i | period <= i < |ps|
      ensures RsiAt(ps, period, i) == 100.0
    {
      NoLossWhenRising(ps, period, i);
    }
  }

  /** On a strictly decreasing series no gains occur, so the smoothed gain
      is 0 while the smoothed loss is positive. */
  lemma {:induction false} OnlyLossWhenFalling(ps: seq<real>, period: nat, i: nat)
    requires 1 <= period <= i < |ps|
    requires forall j :: 1 <= j < |ps| ==> ps[j - 1] > ps[j]
    ensures AvgMove(ps, period, i, true) == 0.0
    ensures AvgMove(ps, period, i, false) > 0.0
  {
    FallingMoves(ps, period);
    if i > period {
      OnlyLossWhenFalling(ps, period, i - 1);
    } else {
      var p := period as real;
      assert SumMoves(ps, period, false) / p > 0.0;
    }
  }

  /** The first `n` moves of a strictly decreasing series have no gain and
      (for n > 0) a positive total loss. */
  lemma {:induction false} FallingMoves(ps: seq<real>, n: nat)
    requires n < |ps|
    requires forall j :: 1 <= j < |ps| ==> ps[j - 1] > ps[j]
    ensures SumMoves(ps, n, true) == 0.0
    ensures n > 0 ==> SumMoves(ps, n, false) > 0.0
  {
    if n > 0 {
      FallingMoves(ps, n - 1);
    }
  }

  /** For a strictly decreasing series every defined RSI value is 0. */
  lemma FallingSeriesRsi(ps: seq<real>, period: nat)
    requires period >= 1 && |ps| >= period + 1
    requires forall j :: 1 <= j < |ps| ==> ps[j - 1] > ps[j]
    ensures forall i :: period <= i < |ps| ==> CalculateRsi(ps, period).value[i] == Some(0.0)
  {
    forall i | period <= i < |ps|
      ensures RsiAt(ps, period, i) == 0.0
    {
      OnlyLossWhenFalling(ps, period, i);
    }
  }
}
