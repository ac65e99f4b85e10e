/** Simple and exponential moving averages (`calculate_sma`,
    `calculate_ema` in indicators.py). */
module Averages {
  import opened Base

  /** Mean of the `period` closes ending at index `i` (inclusive). */
  function SmaAt(ps: seq<real>, period: nat, i: nat): real
    requires 1 <= period <= i + 1 <= |ps|
  {
    Sum(ps[i + 1 - period .. i + 1]) / (period as real)
  }

  /** Rolling mean with window `period`: None when fewer than `period`
      prices are given; otherwise a series aligned with the prices whose
      first `period - 1` entries are undefined. */
  function CalculateSma(ps: seq<real>, period: nat): (r: Option<seq<Option<real>>>)
    requires period >= 1
    ensures r.None? <==> |ps| < period
    ensures r.Some? ==> |r.value| == |ps|
    ensures r.Some? ==> forall i :: 0 <= i < |ps| ==> (r.value[i].Some? <==> i + 1 >= period)
  {
    if |ps| < period then None
    else Some(seq(|ps|, i requires 0 <= i < |ps| =>
                if i + 1 < period then None else Some(SmaAt(ps, period, i))))
  }

  /** The reading of a computed SMA is the mean of the last `period` closes. */
  lemma LatestSma(ps: seq<real>, period: nat)
    requires 1 <= period <= |ps|
    ensures CalculateSma(ps, period).Some?
    ensures Latest(CalculateSma(ps, period).value) == Some(SmaAt(ps, period, |ps| - 1))
  {
    LatestOfDefinedLast(CalculateSma(ps, period).value);
  }

  /** A mean of values in [lo, hi] lies in [lo, hi]. */
  lemma SmaWithin(ps: seq<real>, period: nat, i: nat, lo: real, hi: real)
    requires 1 <= period <= i + 1 <= |ps|
    requires Within(ps[i + 1 - period .. i + 1], lo, hi)
    ensures lo <= SmaAt(ps, period, i) <= hi
  {
    var w := ps[i + 1 - period .. i + 1];
    SumWithin(w, lo, hi);
    var p := period as real;
    assert p * lo <= Sum(w) <= p * hi;
    assert Sum(w) / p >= lo by {
      assert Sum(w) / p * p == Sum(w);
    }
    assert Sum(w) / p <= hi by {
      assert Sum(w) / p * p == Sum(w);
    }
  }

  /** The rolling mean of a constant series is that constant. */
  lemma SmaOfConstant(ps: seq<real>, period: nat, i: nat, c: real)
    requires 1 <= period <= i + 1 <= |ps|
    requires forall j :: 0 <= j < |ps| ==> ps[j] == c
    ensures SmaAt(ps, period, i) == c
  {
    SmaWithin(ps, period, i, c, c);
  }

  /** Sliding a window one step to the right adds the new element and drops
      the old one. */
  lemma SumSlide(s: seq<real>, a: nat, b: nat)
    requires a <= b < |s|
    ensures Sum(s[a + 1 .. b + 1]) == Sum(s[a .. b]) + s[b] - s[a]
  {
    SumDropFirst(s[a .. b + 1]);
    assert s[a .. b + 1][1..] == s[a + 1 .. b + 1];
    assert s[a .. b + 1][..b - a] == s[a .. b];
  }

  /** Removing the first element of a non-empty sequence removes it from
      the sum. */
  lemma {:induction false} SumDropFirst(s: seq<real>)
    requires |s| > 0
    ensures Sum(s[1..]) == Sum(s) - s[0]
    ensures Sum(s[..|s| - 1]) == Sum(s) - s[|s| - 1]
  {
    if |s| > 1 {
      SumDropFirst(s[..|s| - 1]);
      assert s[..|s| - 1][1..] == s[1..][..|s| - 2];
    }
  }

  /** Rolling mean computed with a running window sum, as a streaming
      implementation does; agrees with the windowed definition. */
  method RollingMean(ps: seq<real>, period: nat) returns (r: seq<Option<real>>)
    requires 1 <= period <= |ps|
    ensures r == CalculateSma(ps, period).value
  {
    ghost var sma := CalculateSma(ps, period).value;
    var window := Sum(ps[..period - 1]);
    r := seq(period - 1, _ => None);
    var i := period - 1;
    while i < |ps|
      invariant period - 1 <= i <= |ps|
      invariant |r| == i
      invariant forall j :: 0 <= j < i ==> r[j] == sma[j]
      invariant i < |ps| ==> window == Sum(ps[i + 1 - period .. i])
    {
      SumExtend(ps, i + 1 - period, i);
      var mean := (window + ps[i]) / (period as real);
      assert sma[i] == Some(mean);
      r := r + [Some(mean)];
      if i + 1 < |ps| {
        SumSlide(ps, i + 1 - period, i);
        window := window + ps[i] - ps[i + 1 - period];
      }
      i := i + 1;
    }
  }

  /** Extending a slice by one element adds that element to the sum. */
  lemma SumExtend(s: seq<real>, a: nat, b: nat)
    requires a <= b < |s|
    ensures Sum(s[a .. b + 1]) == Sum(s[a .. b]) + s[b]
  {
    assert s[a .. b + 1][..b - a] == s[a .. b];
  }

  /** Smoothing factor of an exponential average with span `span`. */
  function Alpha(span: nat): (a: real)
    requires span >= 1
    ensures 0.0 < a <= 1.0
  {
    2.0 / (span as real + 1.0)
  }

  /** Exponential average (no bias adjustment) at index `i`: seeded with
      the first value, then each step moves the fraction `alpha` of the
      way from the previous average to the new value. */
  function EmaAt(xs: seq<real>, alpha: real, i: nat): real
    requires i < |xs|
  {
    if i == 0 then xs[0]
    else (1.0 - alpha) * EmaAt(xs, alpha, i - 1) + alpha * xs[i]
  }

  /** The exponential average of every prefix of `xs`. */
  function Ewm(xs: seq<real>, span: nat): (r: seq<real>)
    requires span >= 1
    ensures |r| == |xs|
    ensures |xs| > 0 ==> r[0] == xs[0]
  {
    seq(|xs|, i requires 0 <= i < |xs| => EmaAt(xs, Alpha(span), i))
  }

  /** Exponential average with span `period`: None when fewer than
      `period` prices are given or when the span is 0 (which the numeric
      library rejects). The series is defined at every index. */
  function CalculateEma(ps: seq<real>, period: nat): (r: Option<seq<real>>)
    ensures r.None? <==> |ps| < period || period == 0
    ensures r.Some? ==> |r.value| == |ps| > 0 && r.value[0] == ps[0]
  {
    if |ps| < period || period == 0 then None else Some(Ewm(ps, period))
  }

  /** An exponential average of values in [lo, hi] stays in [lo, hi]. */
  lemma {:induction false} EmaWithin(xs: seq<real>, alpha: real, i: nat, lo: real, hi: real)
    requires i < |xs|
    requires 0.0 <= alpha <= 1.0
    requires Within(xs[..i + 1], lo, hi)
    ensures lo <= EmaAt(xs, alpha, i) <= hi
  {
    assert xs[..i + 1][i] == xs[i];
    assert lo <= xs[i] <= hi;
    if i > 0 {
      assert xs[..i + 1][..i] == xs[..i];
      EmaWithin(xs, alpha, i - 1, lo, hi);
      MixWithin(EmaAt(xs, alpha, i - 1), xs[i], alpha, lo, hi);
    }
  }

  /** A convex combination of two values in [lo, hi] lies in [lo, hi]. */
  lemma MixWithin(y: real, x: real, alpha: real, lo: real, hi: real)
    requires lo <= y <= hi && lo <= x <= hi
    requires 0.0 <= alpha <= 1.0
    ensures lo <= (1.0 - alpha) * y + alpha * x <= hi
  {
    var m := (1.0 - alpha) * y + alpha * x;
    assert m - lo == (1.0 - alpha) * (y - lo) + alpha * (x - lo);
    assert hi - m == (1.0 - alpha) * (hi - y) + alpha * (hi - x);
    ProductNonNegative(1.0 - alpha, y - lo);
    ProductNonNegative(alpha, x - lo);
    ProductNonNegative(1.0 - alpha, hi - y);
    ProductNonNegative(alpha, hi - x);
  }

  /** The product of two non-negative reals is non-negative. */
  lemma ProductNonNegative(a: real, b: real)
    requires a >= 0.0 && b >= 0.0
    ensures a * b >= 0.0
  {
  }

  /** The exponential average of a constant series is that constant. */
  lemma EmaOfConstant(xs: seq<real>, alpha: real, i: nat, c: real)
    requires i < |xs|
    requires 0.0 <= alpha <= 1.0
    requires forall j :: 0 <= j < |xs| ==> xs[j] == c
    ensures EmaAt(xs, alpha, i) == c
  {
    EmaWithin(xs, alpha, i, c, c);
  }
}
