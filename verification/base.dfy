/** Shared vocabulary of the scanner model: an optional value, sums and
    extrema of real sequences, the "latest defined value" of an indicator
    series, and Python truthiness of the values the scanner tests. */
module Base {

  /** A value that may be missing; the scanner's Python code uses `None`. */
  datatype Option<+T> = None | Some(value: T)

  /** Sum of a sequence of reals, accumulated from the front. */
  function Sum(s: seq<real>): real
  {
    if |s| == 0 then 0.0 else Sum(s[..|s| - 1]) + s[|s| - 1]
  }

  /** Every element lies in the closed interval [lo, hi]. */
  ghost predicate Within(s: seq<real>, lo: real, hi: real)
  {
    forall i :: 0 <= i < |s| ==> lo <= s[i] <= hi
  }

  /** A sum of `|s|` values from [lo, hi] lies in [|s|*lo, |s|*hi]. */
  lemma {:induction false} SumWithin(s: seq<real>, lo: real, hi: real)
    requires Within(s, lo, hi)
    ensures (|s| as real) * lo <= Sum(s) <= (|s| as real) * hi
  {
    if |s| > 0 {
      SumWithin(s[..|s| - 1], lo, hi);
      assert (|s| as real) * lo == ((|s| - 1) as real) * lo + lo;
      assert (|s| as real) * hi == ((|s| - 1) as real) * hi + hi;
    }
  }

  /** The sum of a sequence of equal values is its length times that value. */
  lemma SumConstant(s: seq<real>, c: real)
    requires forall i :: 0 <= i < |s| ==> s[i] == c
    ensures Sum(s) == (|s| as real) * c
  {
    SumWithin(s, c, c);
  }

  /** The last defined entry of an indicator series: the scalar reading a
      caller takes with `series.dropna().iloc[-1]`, or None when every
      entry is undefined. */
  function Latest(s: seq<Option<real>>): (r: Option<real>)
    ensures r.None? <==> forall i :: 0 <= i < |s| ==> s[i].None?
    ensures r.Some? ==> exists i :: 0 <= i < |s| && s[i] == r
                                    && forall j :: i < j < |s| ==> s[j].None?
  {
    if |s| == 0 then None
    else if s[|s| - 1].Some? then s[|s| - 1]
    else
      var r := Latest(s[..|s| - 1]);
      assert forall i :: 0 <= i < |s| - 1 ==> s[..|s| - 1][i] == s[i];
      r
  }

  /** A series whose final entry is defined has that entry as its reading. */
  lemma LatestOfDefinedLast(s: seq<Option<real>>)
    requires |s| > 0 && s[|s| - 1].Some?
    ensures Latest(s) == s[|s| - 1]
  {
  }

  /** Wraps every value of a fully defined series. */
  function Defined(s: seq<real>): (r: seq<Option<real>>)
    ensures |r| == |s|
    ensures forall i :: 0 <= i < |s| ==> r[i] == Some(s[i])
  {
    seq(|s|, i requires 0 <= i < |s| => Some(s[i]))
  }

  /** Python truthiness of an optional number: None and 0 are falsy. */
  predicate TruthyReal(x: Option<real>)
  {
    x.Some? && x.value != 0.0
  }

  /** Python truthiness of an optional string: None and "" are falsy. */
  predicate TruthyString(x: Option<string>)
  {
    x.Some? && |x.value| > 0
  }

  /** Python truthiness of an optional list: None and [] are falsy. */
  predicate TruthyList<T>(x: Option<seq<T>>)
  {
    x.Some? && |x.value| > 0
  }

  /** 2 to the power k. */
  function Pow2(k: nat): (r: nat)
    ensures r >= 1
  {
    if k == 0 then 1 else 2 * Pow2(k - 1)
  }

  /** Largest element of a non-empty sequence of naturals (Python `max`). */
  function MaxOf(s: seq<nat>): (r: nat)
    requires |s| > 0
    ensures r in s
    ensures forall i :: 0 <= i < |s| ==> s[i] <= r
  {
    if |s| == 1 then s[0]
    else
      var m := MaxOf(s[1..]);
      assert forall i :: 1 <= i < |s| ==> s[i] == s[1..][i - 1];
      if s[0] >= m then s[0] else m
  }
}
