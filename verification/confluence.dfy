/** Confluence scoring and signal allow-lists (`calculate_confluence_score`,
    `check_signal_filters` in indicators.py). */
module Confluence {
  import opened Base
  import opened Signals

  /** The indicators that contribute to the score; they are the keys of
      the weight map and of the breakdown. */
  datatype Indicator = RSI_KEY | TREND_KEY | MACD_KEY | BOLLINGER_KEY | STOCHASTIC_KEY

  /** Weighted score, per-indicator points and letter grade. */
  datatype ConfluenceResult = ConfluenceResult(score: real, breakdown: map<Indicator, real>, grade: string)

  /** Running state of the scoring: points awarded so far and their sum. */
  datatype Tally = Tally(breakdown: map<Indicator, real>, total: real)

  /** The weights used when the caller supplies none; they sum to 100. */
  const DefaultWeights: map<Indicator, real> :=
    map[RSI_KEY := 20.0, TREND_KEY := 25.0, MACD_KEY := 20.0, BOLLINGER_KEY := 20.0, STOCHASTIC_KEY := 15.0]

  /** RSI point table (out of 20): the lower the RSI, the more points. */
  function RsiPoints(rsi: real): (p: real)
    ensures 0.0 <= p <= 20.0
  {
    if rsi <= 20.0 then 20.0
    else if rsi <= 30.0 then 18.0
    else if rsi <= 40.0 then 15.0
    else if rsi <= 50.0 then 10.0
    else if rsi <= 60.0 then 5.0
    else 0.0
  }

  /** A lower RSI never earns fewer points. */
  lemma RsiPointsAntitone(a: real, b: real)
    requires a <= b
    ensures RsiPoints(a) >= RsiPoints(b)
  {
  }

  /** MACD point table (out of 20); an unknown label scores the midpoint. */
  function MacdPoints(sig: string): (p: real)
    ensures 0.0 <= p <= 20.0
    ensures sig !in {BULLISH, NEUTRAL, BEARISH} ==> p == 10.0
  {
    if sig == BULLISH then 20.0
    else if sig == NEUTRAL then 10.0
    else if sig == BEARISH then 0.0
    else 10.0
  }

  /** Bollinger point table (out of 20); an unknown label scores the
      midpoint. */
  function BollingerPoints(sig: string): (p: real)
    ensures 0.0 <= p <= 20.0
    ensures sig !in {OVERSOLD, NEAR_OVERSOLD, NEUTRAL, NEAR_OVERBOUGHT, OVERBOUGHT} ==> p == 10.0
  {
    if sig == OVERSOLD then 20.0
    else if sig == NEAR_OVERSOLD then 15.0
    else if sig == NEUTRAL then 10.0
    else if sig == NEAR_OVERBOUGHT then 5.0
    else if sig == OVERBOUGHT then 0.0
    else 10.0
  }

  /** Stochastic point table (out of 15); an unknown label scores 7. */
  function StochasticPoints(sig: string): (p: real)
    ensures 0.0 <= p <= 15.0
    ensures sig !in {OVERSOLD, BULLISH_CROSS, NEUTRAL, BEARISH_CROSS, OVERBOUGHT} ==> p == 7.0
  {
    if sig == OVERSOLD then 15.0
    else if sig == BULLISH_CROSS then 12.0
    else if sig == NEUTRAL then 7.0
    else if sig == BEARISH_CROSS then 3.0
    else if sig == OVERBOUGHT then 0.0
    else 7.0
  }

  /** Fraction of the RSI weight earned, when an RSI is given. */
  function RsiShare(rsi: Option<real>): Option<real>
  {
    if rsi.None? then None else Some(RsiPoints(rsi.value) / 20.0)
  }

  /** Fraction of the trend weight earned: the share of bullish
      timeframes, when a trend score is given and the maximum is positive.
      (The source's intermediate scaling by 25 and back cancels exactly.) */
  function TrendShare(trendScore: Option<int>, maxTrendScore: int): Option<real>
  {
    if trendScore.None? || maxTrendScore <= 0 then None
    else Some(((trendScore.value as real) / (maxTrendScore as real) * 25.0) / 25.0)
  }

  /** Fraction of a label's weight earned, when a label is given. */
  function LabelShare(sig: Option<string>, points: string -> real, tableMax: real): Option<real>
    requires tableMax > 0.0
  {
    if sig.None? then None else Some(points(sig.value) / tableMax)
  }

  /** One indicator's input: its key and the fraction of its weight it
      earned (None when the indicator was not supplied). */
  datatype Component = Component(key: Indicator, share: Option<real>)

  /** Adds one indicator's weighted points. An indicator without input adds
      nothing; one with input but no weight makes the whole scoring fail,
      as the source's missing dictionary key does. */
  function Award(t: Option<Tally>, c: Component, weights: map<Indicator, real>): Option<Tally>
  {
    if t.None? then None
    else if c.share.None? then t
    else if c.key !in weights then None
    else
      var pts := c.share.value * weights[c.key];
      Some(Tally(t.value.breakdown[c.key := pts], t.value.total + pts))
  }

  /** Scores the components in order, starting from an empty tally. */
  function Score(cs: seq<Component>, weights: map<Indicator, real>): Option<Tally>
  {
    if |cs| == 0 then Some(Tally(map[], 0.0))
    else Award(Score(cs[..|cs| - 1], weights), cs[|cs| - 1], weights)
  }

  /** Letter grade of a total: A+ from 90, A from 80, B from 70, C from
      60, D from 50, F below. */
  function Grade(score: real): (g: string)
    ensures g in {"A+", "A", "B", "C", "D", "F"}
  {
    if score >= 90.0 then "A+"
    else if score >= 80.0 then "A"
    else if score >= 70.0 then "B"
    else if score >= 60.0 then "C"
    else if score >= 50.0 then "D"
    else "F"
  }

  /** Rank of a grade: F = 0 up to A+ = 5. */
  function GradeRank(g: string): nat
  {
    if g == "A+" then 5 else if g == "A" then 4 else if g == "B" then 3
    else if g == "C" then 2 else if g == "D" then 1 else 0
  }

  /** A higher score never earns a lower grade, and each grade covers a
      band of scores ten points wide (F: everything below 50). */
  lemma GradeMonotone(a: real, b: real)
    requires a <= b
    ensures GradeRank(Grade(a)) <= GradeRank(Grade(b))
    ensures (GradeRank(Grade(a)) == GradeRank(Grade(b)) && 0 < GradeRank(Grade(a)) < 5) ==> b - a < 10.0
  {
  }

  /** The inputs that were supplied, by breakdown key. */
  function Supplied(rsi: Option<real>, trendScore: Option<int>, maxTrendScore: int,
                    macd: Option<string>, bollinger: Option<string>, stochastic: Option<string>)
    : set<Indicator>
  {
    (if rsi.Some? then {RSI_KEY} else {})
    + (if trendScore.Some? && maxTrendScore > 0 then {TREND_KEY} else {})
    + (if macd.Some? then {MACD_KEY} else {})
    + (if bollinger.Some? then {BOLLINGER_KEY} else {})
    + (if stochastic.Some? then {STOCHASTIC_KEY} else {})
  }

  /** The breakdown entry of a key, 0 when the key is absent. */
  function Entry(m: map<Indicator, real>, key: Indicator): real
  {
    if key in m then m[key] else 0.0
  }

  /** The sum of all breakdown entries. */
  function EntrySum(m: map<Indicator, real>): real
  {
    Entry(m, RSI_KEY) + Entry(m, TREND_KEY) + Entry(m, MACD_KEY)
    + Entry(m, BOLLINGER_KEY) + Entry(m, STOCHASTIC_KEY)
  }

  /** The weight map in force: the caller's, or the default one. */
  function WeightsInForce(weights: Option<map<Indicator, real>>): map<Indicator, real>
  {
    if weights.Some? then weights.value else DefaultWeights
  }

  /** The five components in the source's order. */
  function Components(rsi: Option<real>, trendScore: Option<int>, maxTrendScore: int,
                      macd: Option<string>, bollinger: Option<string>, stochastic: Option<string>)
    : seq<Component>
  {
    [Component(RSI_KEY, RsiShare(rsi)),
     Component(TREND_KEY, TrendShare(trendScore, maxTrendScore)),
     Component(MACD_KEY, LabelShare(macd, MacdPoints, 20.0)),
     Component(BOLLINGER_KEY, LabelShare(bollinger, BollingerPoints, 20.0)),
     Component(STOCHASTIC_KEY, LabelShare(stochastic, StochasticPoints, 15.0))]
  }

  /** Weighted confluence score. Each supplied indicator earns
      (points / table maximum) x its weight, in the order RSI, trend,
      MACD, Bollinger, Stochastic; the grade is taken from the total.
      None when a supplied indicator has no weight in the weight map. */
  function CalculateConfluenceScore(rsi: Option<real>, trendScore: Option<int>, maxTrendScore: int,
                                    macd: Option<string>, bollinger: Option<string>,
                                    stochastic: Option<string>, weights: Option<map<Indicator, real>>)
    : (r: Option<ConfluenceResult>)
    ensures r.Some? ==> r.value.grade == Grade(r.value.score)
  {
    match Score(Components(rsi, trendScore, maxTrendScore, macd, bollinger, stochastic), WeightsInForce(weights))
    case None => None
    case Some(t) => Some(ConfluenceResult(t.total, t.breakdown, Grade(t.total)))
  }

  /** No indicator appears twice. */
  predicate DistinctKeys(cs: seq<Component>)
  {
    forall i, j :: 0 <= i < j < |cs| ==> cs[i].key != cs[j].key
  }

  /** Component `i` was supplied under key `k`. */
  predicate SuppliedAt(cs: seq<Component>, i: int, k: Indicator)
  {
    0 <= i < |cs| && cs[i].share.Some? && cs[i].key == k
  }

  /** Scoring fails exactly when a supplied component has no weight. */
  lemma {:induction false} ScoreDefined(cs: seq<Component>, w: map<Indicator, real>)
    ensures Score(cs, w).Some? <==> forall i :: 0 <= i < |cs| && cs[i].share.Some? ==> cs[i].key in w
  {
    if |cs| > 0 {
      var init := cs[..|cs| - 1];
      assert forall i :: 0 <= i < |init| ==> init[i] == cs[i];
      ScoreDefined(init, w);
    }
  }

  /** A successful score's breakdown holds exactly the supplied keys. */
  lemma {:induction false} ScoreKeys(cs: seq<Component>, w: map<Indicator, real>)
    requires Score(cs, w).Some?
    ensures forall k :: k in Score(cs, w).value.breakdown <==> exists i :: SuppliedAt(cs, i, k)
  {
    if |cs| > 0 {
      var init := cs[..|cs| - 1];
      assert forall i :: 0 <= i < |init| ==> init[i] == cs[i];
      ScoreKeys(init, w);
      var t := Score(init, w).value.breakdown;
      var r := Score(cs, w).value.breakdown;
      forall k | k in r
        ensures exists i :: SuppliedAt(cs, i, k)
      {
        if k in t {
          var i :| SuppliedAt(init, i, k);
          assert SuppliedAt(cs, i, k);
        } else {
          assert SuppliedAt(cs, |cs| - 1, k);
        }
      }
      forall k | exists i :: SuppliedAt(cs, i, k)
        ensures k in r
      {
        var i :| SuppliedAt(cs, i, k);
        if i < |init| {
          assert SuppliedAt(init, i, k);
        }
      }
    }
  }

  /** Adding a new entry adds its value to the breakdown's sum. */
  lemma EntrySumUpdate(m: map<Indicator, real>, key: Indicator, v: real)
    requires key !in m
    ensures EntrySum(m[key := v]) == EntrySum(m) + v
  {
    var m' := m[key := v];
    assert Entry(m', key) == Entry(m, key) + v;
    assert forall k :: k != key ==> Entry(m', k) == Entry(m, k);
  }

  /** With distinct keys, the new key of each step is not yet in the
      breakdown. */
  lemma FreshKey(cs: seq<Component>, w: map<Indicator, real>)
    requires |cs| > 0 && DistinctKeys(cs)
    requires Score(cs[..|cs| - 1], w).Some?
    ensures cs[|cs| - 1].key !in Score(cs[..|cs| - 1], w).value.breakdown
  {
    var init := cs[..|cs| - 1];
    ScoreKeys(init, w);
  }

  /** With distinct keys, a successful score's total is the sum of its
      breakdown. */
  lemma {:induction false} ScoreTotal(cs: seq<Component>, w: map<Indicator, real>)
    requires DistinctKeys(cs)
    requires Score(cs, w).Some?
    ensures Score(cs, w).value.total == EntrySum(Score(cs, w).value.breakdown)
  {
    if |cs| > 0 {
      var init := cs[..|cs| - 1];
      var c := cs[|cs| - 1];
      ScoreTotal(init, w);
      if c.share.Some? {
        FreshKey(cs, w);
        EntrySumUpdate(Score(init, w).value.breakdown, c.key, c.share.value * w[c.key]);
      }
    }
  }

  /** With distinct keys, a supplied component's key earns share x weight
      in a successful score. */
  lemma {:induction false} ScoreValueAt(cs: seq<Component>, w: map<Indicator, real>, i: int)
    requires DistinctKeys(cs) && Score(cs, w).Some?
    requires 0 <= i < |cs| && cs[i].share.Some?
    ensures cs[i].key in w && cs[i].key in Score(cs, w).value.breakdown
    ensures Score(cs, w).value.breakdown[cs[i].key] == cs[i].share.value * w[cs[i].key]
  {
    var init := cs[..|cs| - 1];
    var last := cs[|cs| - 1];
    assert Score(init, w).Some?;
    if i < |cs| - 1 {
      assert init[i] == cs[i];
      assert DistinctKeys(init) by {
        assert forall j :: 0 <= j < |init| ==> init[j] == cs[j];
      }
      ScoreValueAt(init, w, i);
      assert last.key != cs[i].key;
    }
  }

  /** The five components carry five different keys. */
  lemma ComponentsDistinct(rsi: Option<real>, trendScore: Option<int>, maxTrendScore: int,
                           macd: Option<string>, bollinger: Option<string>, stochastic: Option<string>)
    ensures DistinctKeys(Components(rsi, trendScore, maxTrendScore, macd, bollinger, stochastic))
  {
  }

  /** An indicator is supplied exactly when some component carries it with
      a share. */
  lemma SuppliedComponents(rsi: Option<real>, trendScore: Option<int>, maxTrendScore: int,
                           macd: Option<string>, bollinger: Option<string>, stochastic: Option<string>)
    ensures var cs := Components(rsi, trendScore, maxTrendScore, macd, bollinger, stochastic);
            forall k :: (k in Supplied(rsi, trendScore, maxTrendScore, macd, bollinger, stochastic)
                         <==> exists i :: SuppliedAt(cs, i, k))
  {
    var cs := Components(rsi, trendScore, maxTrendScore, macd, bollinger, stochastic);
    var supplied := Supplied(rsi, trendScore, maxTrendScore, macd, bollinger, stochastic);
    forall k
      ensures k in supplied <==> exists i :: SuppliedAt(cs, i, k)
    {
      var i := match k
        case RSI_KEY => 0 case TREND_KEY => 1 case MACD_KEY => 2
        case BOLLINGER_KEY => 3 case STOCHASTIC_KEY => 4;
      assert cs[i].key == k;
      assert forall j :: 0 <= j < 5 && cs[j].key == k ==> j == i;
      if k in supplied {
        assert SuppliedAt(cs, i, k);
      }
    }
  }

  /** The score fails exactly when a supplied indicator has no weight. */
  lemma ConfluenceDefined(rsi: Option<real>, trendScore: Option<int>, maxTrendScore: int,
                          macd: Option<string>, bollinger: Option<string>,
                          stochastic: Option<string>, weights: Option<map<Indicator, real>>)
    ensures CalculateConfluenceScore(rsi, trendScore, maxTrendScore, macd, bollinger, stochastic, weights).None?
            <==> !(Supplied(rsi, trendScore, maxTrendScore, macd, bollinger, stochastic) <= WeightsInForce(weights).Keys)
  {
    var cs := Components(rsi, trendScore, maxTrendScore, macd, bollinger, stochastic);
    var w := WeightsInForce(weights);
    var supplied := Supplied(rsi, trendScore, maxTrendScore, macd, bollinger, stochastic);
    ScoreDefined(cs, w);
    SuppliedComponents(rsi, trendScore, maxTrendScore, macd, bollinger, stochastic);
    if supplied <= w.Keys {
      forall i | 0 <= i < |cs| && cs[i].share.Some?
        ensures cs[i].key in w
      {
        assert SuppliedAt(cs, i, cs[i].key);
      }
    } else {
      var k :| k in supplied && k !in w;
      var i :| SuppliedAt(cs, i, k);
    }
  }

  /** A successful score's breakdown holds exactly the supplied indicators. */
  lemma ConfluenceKeys(rsi: Option<real>, trendScore: Option<int>, maxTrendScore: int,
                       macd: Option<string>, bollinger: Option<string>,
                       stochastic: Option<string>, weights: Option<map<Indicator, real>>)
    requires CalculateConfluenceScore(rsi, trendScore, maxTrendScore, macd, bollinger, stochastic, weights).Some?
    ensures CalculateConfluenceScore(rsi, trendScore, maxTrendScore, macd, bollinger, stochastic, weights).value.breakdown.Keys
            == Supplied(rsi, trendScore, maxTrendScore, macd, bollinger, stochastic)
  {
    var cs := Components(rsi, trendScore, maxTrendScore, macd, bollinger, stochastic);
    ScoreKeys(cs, WeightsInForce(weights));
    SuppliedComponents(rsi, trendScore, maxTrendScore, macd, bollinger, stochastic);
  }

  /** A successful score is the sum of its breakdown. */
  lemma ConfluenceSum(rsi: Option<real>, trendScore: Option<int>, maxTrendScore: int,
                      macd: Option<string>, bollinger: Option<string>,
                      stochastic: Option<string>, weights: Option<map<Indicator, real>>)
    requires CalculateConfluenceScore(rsi, trendScore, maxTrendScore, macd, bollinger, stochastic, weights).Some?
    ensures var r := CalculateConfluenceScore(rsi, trendScore, maxTrendScore, macd, bollinger, stochastic, weights).value;
            r.score == EntrySum(r.breakdown)
  {
    var cs := Components(rsi, trendScore, maxTrendScore, macd, bollinger, stochastic);
    ComponentsDistinct(rsi, trendScore, maxTrendScore, macd, bollinger, stochastic);
    ScoreTotal(cs, WeightsInForce(weights));
  }

  /** The score fails exactly when a supplied indicator has no weight;
      otherwise its breakdown holds exactly the supplied indicators and
      the score is the breakdown's sum. */
  lemma ConfluenceBreakdown(rsi: Option<real>, trendScore: Option<int>, maxTrendScore: int,
                            macd: Option<string>, bollinger: Option<string>,
                            stochastic: Option<string>, weights: Option<map<Indicator, real>>)
    ensures var r := CalculateConfluenceScore(rsi, trendScore, maxTrendScore, macd, bollinger, stochastic, weights);
            var supplied := Supplied(rsi, trendScore, maxTrendScore, macd, bollinger, stochastic);
            && (r.None? <==> !(supplied <= WeightsInForce(weights).Keys))
            && (r.Some? ==> r.value.breakdown.Keys == supplied)
            && (r.Some? ==> r.value.score == EntrySum(r.value.breakdown))
  {
    ConfluenceDefined(rsi, trendScore, maxTrendScore, macd, bollinger, stochastic, weights);
    if CalculateConfluenceScore(rsi, trendScore, maxTrendScore, macd, bollinger, stochastic, weights).Some? {
      ConfluenceKeys(rsi, trendScore, maxTrendScore, macd, bollinger, stochastic, weights);
      ConfluenceSum(rsi, trendScore, maxTrendScore, macd, bollinger, stochastic, weights);
    }
  }

  /** Each supplied indicator earns (points / table maximum) x its weight. */
  lemma ConfluenceEntries(rsi: Option<real>, trendScore: Option<int>, maxTrendScore: int,
                          macd: Option<string>, bollinger: Option<string>,
                          stochastic: Option<string>, weights: Option<map<Indicator, real>>)
    requires CalculateConfluenceScore(rsi, trendScore, maxTrendScore, macd, bollinger, stochastic, weights).Some?
    ensures var b := CalculateConfluenceScore(rsi, trendScore, maxTrendScore, macd, bollinger, stochastic, weights).value.breakdown;
            var w := WeightsInForce(weights);
            && (rsi.Some? ==>
                  RSI_KEY in w && RSI_KEY in b && b[RSI_KEY] == RsiPoints(rsi.value) / 20.0 * w[RSI_KEY])
            && (trendScore.Some? && maxTrendScore > 0 ==>
                  TREND_KEY in w && TREND_KEY in b && b[TREND_KEY] == (trendScore.value as real) / (maxTrendScore as real) * w[TREND_KEY])
            && (macd.Some? ==>
                  MACD_KEY in w && MACD_KEY in b && b[MACD_KEY] == MacdPoints(macd.value) / 20.0 * w[MACD_KEY])
            && (bollinger.Some? ==>
                  BOLLINGER_KEY in w && BOLLINGER_KEY in b && b[BOLLINGER_KEY] == BollingerPoints(bollinger.value) / 20.0 * w[BOLLINGER_KEY])
            && (stochastic.Some? ==>
                  STOCHASTIC_KEY in w && STOCHASTIC_KEY in b && b[STOCHASTIC_KEY] == StochasticPoints(stochastic.value) / 15.0 * w[STOCHASTIC_KEY])
  {
    var cs := Components(rsi, trendScore, maxTrendScore, macd, bollinger, stochastic);
    var w := WeightsInForce(weights);
    ComponentsDistinct(rsi, trendScore, maxTrendScore, macd, bollinger, stochastic);
    if rsi.Some? { ScoreValueAt(cs, w, 0); }
    if trendScore.Some? && maxTrendScore > 0 { ScoreValueAt(cs, w, 1); }
    if macd.Some? { ScoreValueAt(cs, w, 2); }
    if bollinger.Some? { ScoreValueAt(cs, w, 3); }
    if stochastic.Some? { ScoreValueAt(cs, w, 4); }
    if trendScore.Some? && maxTrendScore > 0 {
      assert cs[1].share.value == (trendScore.value as real) / (maxTrendScore as real);
    }
  }

  /** A fraction in [0, 1] of a non-negative weight lies between 0 and
      that weight. */
  lemma ShareOfWeight(share: real, weight: real)
    requires 0.0 <= share <= 1.0 && weight >= 0.0
    ensures 0.0 <= share * weight <= weight
  {
    assert (1.0 - share) * weight >= 0.0;
  }

  /** Every share a component can earn lies in [0, 1], given a trend score
      between 0 and its maximum. */
  lemma SharesWithin(rsi: Option<real>, trendScore: Option<int>, maxTrendScore: int,
                     macd: Option<string>, bollinger: Option<string>, stochastic: Option<string>)
    requires trendScore.Some? && maxTrendScore > 0 ==> 0 <= trendScore.value <= maxTrendScore
    ensures var cs := Components(rsi, trendScore, maxTrendScore, macd, bollinger, stochastic);
            forall i :: 0 <= i < |cs| && cs[i].share.Some? ==> 0.0 <= cs[i].share.value <= 1.0
  {
    if trendScore.Some? && maxTrendScore > 0 {
      var m := maxTrendScore as real;
      var t := trendScore.value as real;
      assert t / m <= 1.0 by {
        assert t / m * m == t;
      }
    }
  }

  /** In a successful score with distinct keys, a component with a share
      in [0, 1] and a non-negative weight earns between 0 and its weight. */
  lemma ComponentWithin(cs: seq<Component>, w: map<Indicator, real>, i: int)
    requires DistinctKeys(cs) && Score(cs, w).Some?
    requires 0 <= i < |cs| && cs[i].key in w && w[cs[i].key] >= 0.0
    requires cs[i].share.Some? ==> 0.0 <= cs[i].share.value <= 1.0
    ensures 0.0 <= Entry(Score(cs, w).value.breakdown, cs[i].key) <= w[cs[i].key]
  {
    var b := Score(cs, w).value.breakdown;
    if cs[i].key in b {
      KeyedOnlyIfSupplied(cs, w, i);
      ScoreValueAt(cs, w, i);
      ShareOfWeight(cs[i].share.value, w[cs[i].key]);
      assert 0.0 <= cs[i].share.value * w[cs[i].key] <= w[cs[i].key];
      assert b[cs[i].key] == cs[i].share.value * w[cs[i].key];
      assert Entry(b, cs[i].key) == b[cs[i].key];
    }
  }

  /** With distinct keys, a component's key is in the breakdown only if
      the component was supplied. */
  lemma KeyedOnlyIfSupplied(cs: seq<Component>, w: map<Indicator, real>, i: int)
    requires DistinctKeys(cs) && Score(cs, w).Some?
    requires 0 <= i < |cs| && cs[i].key in Score(cs, w).value.breakdown
    ensures cs[i].share.Some?
  {
    ScoreKeys(cs, w);
    var j :| SuppliedAt(cs, j, cs[i].key);
  }

  /** With the default weights and a trend score between 0 and its
      maximum, every indicator earns between 0 and its weight, so the
      score lies in [0, 100]. */
  lemma DefaultScoreBounded(rsi: Option<real>, trendScore: Option<int>, maxTrendScore: int,
                            macd: Option<string>, bollinger: Option<string>, stochastic: Option<string>)
    requires trendScore.Some? && maxTrendScore > 0 ==> 0 <= trendScore.value <= maxTrendScore
    ensures var r := CalculateConfluenceScore(rsi, trendScore, maxTrendScore, macd, bollinger, stochastic, None);
            && r.Some?
            && (forall k :: k in DefaultWeights && 0.0 <= Entry(r.value.breakdown, k) <= DefaultWeights[k])
            && 0.0 <= r.value.score <= 100.0
  {
    var cs := Components(rsi, trendScore, maxTrendScore, macd, bollinger, stochastic);
    var w := DefaultWeights;
    ConfluenceBreakdown(rsi, trendScore, maxTrendScore, macd, bollinger, stochastic, None);
    ComponentsDistinct(rsi, trendScore, maxTrendScore, macd, bollinger, stochastic);
    SharesWithin(rsi, trendScore, maxTrendScore, macd, bollinger, stochastic);
    ComponentWithin(cs, w, 0);
    ComponentWithin(cs, w, 1);
    ComponentWithin(cs, w, 2);
    ComponentWithin(cs, w, 3);
    ComponentWithin(cs, w, 4);
    var b := Score(cs, w).value.breakdown;
    assert 0.0 <= Entry(b, RSI_KEY) <= 20.0 && 0.0 <= Entry(b, TREND_KEY) <= 25.0;
    assert 0.0 <= Entry(b, MACD_KEY) <= 20.0 && 0.0 <= Entry(b, BOLLINGER_KEY) <= 20.0;
    assert 0.0 <= Entry(b, STOCHASTIC_KEY) <= 15.0;
    forall k
      ensures k in DefaultWeights && 0.0 <= Entry(b, k) <= DefaultWeights[k]
    {
      match k
      case RSI_KEY =>
      case TREND_KEY =>
      case MACD_KEY =>
      case BOLLINGER_KEY =>
      case STOCHASTIC_KEY =>
    }
  }

  /** Labels outside the known tables score the midpoint of their table:
      10 of 20 for MACD and Bollinger, 7 of 15 for Stochastic. */
  lemma UnknownLabelsScoreMidpoint(macd: string, bollinger: string, stochastic: string)
    requires macd !in {BULLISH, NEUTRAL, BEARISH}
    requires bollinger !in {OVERSOLD, NEAR_OVERSOLD, NEUTRAL, NEAR_OVERBOUGHT, OVERBOUGHT}
    requires stochastic !in {OVERSOLD, BULLISH_CROSS, NEUTRAL, BEARISH_CROSS, OVERBOUGHT}
    ensures var r := CalculateConfluenceScore(None, None, 3, Some(macd), Some(bollinger), Some(stochastic), None);
            && r.Some?
            && r.value.breakdown == map[MACD_KEY := 10.0, BOLLINGER_KEY := 10.0, STOCHASTIC_KEY := 7.0]
            && r.value.score == 27.0 && r.value.grade == "F"
  {
    ConfluenceBreakdown(None, None, 3, Some(macd), Some(bollinger), Some(stochastic), None);
    ConfluenceEntries(None, None, 3, Some(macd), Some(bollinger), Some(stochastic), None);
    var r := CalculateConfluenceScore(None, None, 3, Some(macd), Some(bollinger), Some(stochastic), None);
    assert r.value.breakdown[MACD_KEY] == 10.0;
    assert r.value.breakdown[BOLLINGER_KEY] == 10.0;
    assert r.value.breakdown[STOCHASTIC_KEY] == 7.0;
  }

  // ---------------------------------------------------------------------
  // Signal filters
  // ---------------------------------------------------------------------

  /** A signal passes an allow-list when the list is missing or empty, the
      signal is missing or empty, or the signal is listed. */
  predicate Allows(allowList: Option<seq<string>>, signal: Option<string>)
  {
    !TruthyList(allowList) || !TruthyString(signal) || signal.value in allowList.value
  }

  /** True when every active allow-list admits its signal. */
  function CheckSignalFilters(macd: Option<string>, bollinger: Option<string>, stochastic: Option<string>,
                              filterMacd: Option<seq<string>>, filterBollinger: Option<seq<string>>,
                              filterStochastic: Option<seq<string>>)
    : (r: bool)
    ensures r <==> Allows(filterMacd, macd) && Allows(filterBollinger, bollinger)
                   && Allows(filterStochastic, stochastic)
    ensures !r <==> exists k :: 0 <= k < 3 &&
                       var (f, s) := [(filterMacd, macd), (filterBollinger, bollinger),
                                      (filterStochastic, stochastic)][k];
                       TruthyList(f) && TruthyString(s) && s.value !in f.value
  {
    var pairs := [(filterMacd, macd), (filterBollinger, bollinger), (filterStochastic, stochastic)];
    assert forall k :: 0 <= k < 3 ==> pairs[k] == [(filterMacd, macd), (filterBollinger, bollinger),
                                                   (filterStochastic, stochastic)][k];
    if TruthyList(filterMacd) && TruthyString(macd) && macd.value !in filterMacd.value then
      assert pairs[0] == (filterMacd, macd);
      false
    else if TruthyList(filterBollinger) && TruthyString(bollinger) && bollinger.value !in filterBollinger.value then
      assert pairs[1] == (filterBollinger, bollinger);
      false
    else if TruthyList(filterStochastic) && TruthyString(stochastic) && stochastic.value !in filterStochastic.value then
      assert pairs[2] == (filterStochastic, stochastic);
      false
    else true
  }
}
