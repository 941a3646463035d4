/**
 * The signal aggregator of the decision panel: it fuses the enabled, valid
 * indicator readings into one decision (buy, sell or hold), an integer
 * confidence and a quality grade, under a 60% consensus rule, a 0.4/0.6
 * blend of consensus and weighted confidence, a thin-evidence penalty, a
 * conflict penalty and the strategy's confidence threshold.
 */
module DecisionPanel {
  import opened Common

  /** Share (in percent) of the valid indicators that must agree. */
  const MinimumConsensus: real := 60.0
  /** Threshold used when the strategy is absent or sets none (or 0). */
  const DefaultMinConfidence: real := 70.0
  /** Readings below this confidence are not valid. */
  const MinReadingConfidence: int := 30

  datatype Quality = Poor | Fair | Good | Excellent

  /** The counters and rounded percentages reported with a decision. */
  datatype Details = Details(
    buySignals: nat,
    sellSignals: nat,
    neutralSignals: nat,
    validIndicators: nat,
    totalIndicators: nat,
    weightedConfidence: int,
    decisionStrength: int,
    consensusPercentage: int,
    buyPercentage: int,
    sellPercentage: int)

  datatype Analysis = Analysis(
    finalDecision: Decision,
    confidence: int,
    details: Details,
    analysisQuality: Quality)

  /** A reading counts when its confidence is at least 30, its signal is one
      of buy/sell/neutral and its value is a number other than NaN. */
  predicate IsValid(ind: Indicator)
  {
    ind.confidence >= MinReadingConfidence && ind.signal != Unrecognised && ind.value.Num?
  }

  function EnabledIndicators(indicators: seq<Indicator>): seq<Indicator>
  {
    Filter(indicators, IsEnabled)
  }

  function ValidIndicators(indicators: seq<Indicator>): seq<Indicator>
  {
    Filter(EnabledIndicators(indicators), IsValid)
  }

  /** `ind.weight || 1` */
  function EffectiveWeight(ind: Indicator): real
  {
    Or(ind.weight, 1.0)
  }

  function TotalWeight(s: seq<Indicator>): real
  {
    if s == [] then 0.0 else EffectiveWeight(s[0]) + TotalWeight(s[1..])
  }

  function WeightedSum(s: seq<Indicator>): real
  {
    if s == [] then 0.0
    else s[0].confidence as real * EffectiveWeight(s[0]) + WeightedSum(s[1..])
  }

  /** The weighted mean confidence, or 0 when the weights do not add up to
      a positive total. */
  function WeightedConfidence(s: seq<Indicator>): real
  {
    var total := TotalWeight(s);
    if total > 0.0 then WeightedSum(s) / total else 0.0
  }

  function Percentage(count: nat, total: nat): real
    requires total > 0
  {
    count as real / total as real * 100.0
  }

  /** `activeStrategy?.min_confidence_threshold || 70` */
  function Threshold(strategy: Option<Strategy>): real
  {
    if strategy.Some? then Or(strategy.value.minConfidenceThreshold, DefaultMinConfidence)
    else DefaultMinConfidence
  }

  function Grade(agreement: real): Quality
  {
    if agreement >= 80.0 then Excellent else if agreement >= 70.0 then Good else Fair
  }

  /** The confidence of a proposed trade before rounding: the 0.4/0.6 blend
      of decision strength and weighted confidence, times 0.8 with fewer than
      three valid readings, times (1 - 0.3 * the smaller of the buy and sell
      shares). */
  function PenalisedConfidence(strength: real, weighted: real, validCount: nat, buyPct: real, sellPct: real): real
  {
    var blend := strength * 0.4 + weighted * 0.6;
    var thin := if validCount < 3 then blend * 0.8 else blend;
    thin * (1.0 - Min(buyPct, sellPct) / 100.0 * 0.3)
  }

  function ClampPercent(x: int): int
  {
    if x < 0 then 0 else if x > 100 then 100 else x
  }

  /** The answer when nothing can be analysed. */
  function NoData(totalIndicators: nat): Analysis
  {
    Analysis(Hold, 0, Details(0, 0, 0, 0, totalIndicators, 0, 0, 0, 0, 0), Poor)
  }

  function CountSide(s: seq<Indicator>, side: Side): nat
  {
    CountOf(s, SignalOf, Directional(side))
  }

  /** `analyzeIndicators(indicators, activeStrategy)` without the reasoning
      strings. */
  function AnalyzeIndicators(indicators: seq<Indicator>, strategy: Option<Strategy>): (a: Analysis)
    ensures 0 <= a.confidence <= 100
    ensures a.details.validIndicators == |ValidIndicators(indicators)|
    ensures a.details.totalIndicators == |EnabledIndicators(indicators)|
    ensures a.details.buySignals == CountSide(ValidIndicators(indicators), Buy)
    ensures a.details.sellSignals == CountSide(ValidIndicators(indicators), Sell)
    ensures a.details.neutralSignals == CountOf(ValidIndicators(indicators), SignalOf, Neutral)
    ensures a.details.validIndicators == 0 ==> a.finalDecision == Hold && a.confidence == 0 && a.analysisQuality == Poor
    ensures a.finalDecision != Hold ==> a.confidence as real >= Threshold(strategy)
    ensures a.finalDecision == Hold ==> a.analysisQuality == Poor
  {
    var enabled := EnabledIndicators(indicators);
    var valid := ValidIndicators(indicators);
    if |indicators| == 0 || |enabled| == 0 then NoData(0)
    else if |valid| == 0 then NoData(|enabled|)
    else
      var n := |valid|;
      var buy := CountSide(valid, Buy);
      var sell := CountSide(valid, Sell);
      var neutral := CountOf(valid, SignalOf, Neutral);
      var weighted := WeightedConfidence(valid);
      var buyPct := Percentage(buy, n);
      var sellPct := Percentage(sell, n);
      var neutralPct := Percentage(neutral, n);
      var decision :=
        if buyPct >= MinimumConsensus && buyPct > sellPct then Take(Buy)
        else if sellPct >= MinimumConsensus && sellPct > buyPct then Take(Sell)
        else Hold;
      var strength :=
        if decision == Take(Buy) then buyPct
        else if decision == Take(Sell) then sellPct
        else Max(Max(buyPct, sellPct), neutralPct);
      var quality := if decision == Hold then Poor else Grade(strength);
      var raw := if decision != Hold then PenalisedConfidence(strength, weighted, n, buyPct, sellPct) else 0.0;
      var confidence := ClampPercent(Round(raw));
      var passes := confidence as real >= Threshold(strategy);
      Analysis(
        if passes then decision else Hold,
        confidence,
        Details(buy, sell, neutral, n, |enabled|, Round(weighted), Round(strength), Round(strength),
                Round(buyPct), Round(sellPct)),
        if passes then quality else Poor)
  }

  /** A share of at least k percent is the same as 100·count >= k·total. */
  lemma PercentageAtLeast(count: nat, total: nat, k: nat)
    requires total > 0
    ensures Percentage(count, total) >= k as real <==> 100 * count >= k * total
  {
    var p := Percentage(count, total);
    assert p * total as real == 100.0 * count as real;
    if p >= k as real {
      assert p * total as real >= k as real * total as real;
    } else {
      assert p * total as real < k as real * total as real;
    }
  }

  lemma PercentageOrder(a: nat, b: nat, total: nat)
    requires total > 0
    ensures Percentage(a, total) > Percentage(b, total) <==> a > b
  {
    assert Percentage(a, total) - Percentage(b, total) == (a as real - b as real) / total as real * 100.0;
  }

  /** The consensus rule in counts: the decision is buy exactly when at
      least 60% of the valid readings say buy, more say buy than sell, and
      the confidence reaches the strategy's threshold; sell symmetrically. */
  lemma ConsensusRule(indicators: seq<Indicator>, strategy: Option<Strategy>, side: Side)
    ensures
      var a := AnalyzeIndicators(indicators, strategy);
      var valid := ValidIndicators(indicators);
      var own := CountSide(valid, side);
      var other := CountSide(valid, Opposite(side));
      a.finalDecision == Take(side) <==>
        5 * own >= 3 * |valid| && own > other && a.confidence as real >= Threshold(strategy)
  {
    var valid := ValidIndicators(indicators);
    if |valid| > 0 {
      var n := |valid|;
      PercentageAtLeast(CountSide(valid, Buy), n, 60);
      PercentageAtLeast(CountSide(valid, Sell), n, 60);
      PercentageOrder(CountSide(valid, Buy), CountSide(valid, Sell), n);
      PercentageOrder(CountSide(valid, Sell), CountSide(valid, Buy), n);
      assert |indicators| > 0 && |EnabledIndicators(indicators)| > 0;
    }
  }

  /** When neither side reaches consensus no penalty arithmetic runs and the
      confidence is 0; in particular below 60% on both sides it is hold. */
  lemma NoConsensusNoConfidence(indicators: seq<Indicator>, strategy: Option<Strategy>)
    ensures
      var a := AnalyzeIndicators(indicators, strategy);
      var valid := ValidIndicators(indicators);
      var buy := CountSide(valid, Buy);
      var sell := CountSide(valid, Sell);
      !(5 * buy >= 3 * |valid| && buy > sell) && !(5 * sell >= 3 * |valid| && sell > buy) ==>
        a.finalDecision == Hold && a.confidence == 0 && a.analysisQuality == Poor
  {
    var valid := ValidIndicators(indicators);
    if |valid| > 0 {
      var n := |valid|;
      PercentageAtLeast(CountSide(valid, Buy), n, 60);
      PercentageAtLeast(CountSide(valid, Sell), n, 60);
      PercentageOrder(CountSide(valid, Buy), CountSide(valid, Sell), n);
      PercentageOrder(CountSide(valid, Sell), CountSide(valid, Buy), n);
      assert |indicators| > 0 && |EnabledIndicators(indicators)| > 0;
    }
  }

  /** A trade decision is graded by how many valid readings agree with it:
      excellent from 80%, good from 70%, fair below. */
  lemma QualityBands(indicators: seq<Indicator>, strategy: Option<Strategy>, side: Side)
    ensures
      var a := AnalyzeIndicators(indicators, strategy);
      var valid := ValidIndicators(indicators);
      var own := CountSide(valid, side);
      a.finalDecision == Take(side) ==>
        a.analysisQuality ==
          if 5 * own >= 4 * |valid| then Excellent
          else if 10 * own >= 7 * |valid| then Good
          else Fair
  {
    var valid := ValidIndicators(indicators);
    if |valid| > 0 {
      var n := |valid|;
      PercentageAtLeast(CountSide(valid, Buy), n, 60);
      PercentageAtLeast(CountSide(valid, Sell), n, 60);
      PercentageAtLeast(CountSide(valid, side), n, 80);
      PercentageAtLeast(CountSide(valid, side), n, 70);
      PercentageOrder(CountSide(valid, Buy), CountSide(valid, Sell), n);
      PercentageOrder(CountSide(valid, Sell), CountSide(valid, Buy), n);
      assert |indicators| > 0 && |EnabledIndicators(indicators)| > 0;
    }
  }

  /** Every valid reading is counted exactly once as buy, sell or neutral,
      and the valid readings are among the enabled ones. */
  lemma {:induction false} SignalCountsPartition(indicators: seq<Indicator>, strategy: Option<Strategy>)
    ensures
      var d := AnalyzeIndicators(indicators, strategy).details;
      d.buySignals + d.sellSignals + d.neutralSignals == d.validIndicators <= d.totalIndicators
  {
    var valid := ValidIndicators(indicators);
    var ks := [Directional(Buy), Directional(Sell), Neutral];
    CountEachBound(valid, SignalOf, ks);
    CountEachThree(valid, SignalOf, ks);
    forall i | 0 <= i < |valid| ensures SignalOf(valid[i]) in ks {
      assert IsValid(valid[i]);
      match valid[i].signal
      case Directional(side) => assert side == Buy || side == Sell;
      case _ =>
    }
  }

  function Reading(name: string, signal: Signal, confidence: int): Indicator
  {
    Indicator(name, Num(1.0), signal, confidence, true, Some(1.0), None, None)
  }

  /** Two buys at 80 and 75 and a sell at 60, all of weight 1: buy has a
      two-thirds consensus, the blend is 69.67, the conflict factor 0.9
      brings it to 62.7, which rounds to 63, below the default threshold of
      70, so the panel holds with quality poor. */
  lemma WorkedExample(readings: seq<Indicator>)
    requires readings == [Reading("RSI", Directional(Buy), 80), Reading("MACD", Directional(Buy), 75),
                          Reading("ADX", Directional(Sell), 60)]
    ensures
      var a := AnalyzeIndicators(readings, None);
      a.finalDecision == Hold && a.confidence == 63 && a.analysisQuality == Poor
      && a.details.weightedConfidence == 72 && a.details.decisionStrength == 67
  {
    ExampleAllValid(readings);
    ExampleCounts(readings);
    ExampleWeights(readings);
    var buyPct := Percentage(2, 3);
    var sellPct := Percentage(1, 3);
    assert buyPct == 200.0 / 3.0 && sellPct == 100.0 / 3.0;
    assert WeightedConfidence(readings) == 215.0 / 3.0;
    assert PenalisedConfidence(buyPct, 215.0 / 3.0, 3, buyPct, sellPct) == 62.7;
  }

  lemma ExampleAllValid(readings: seq<Indicator>)
    requires readings == [Reading("RSI", Directional(Buy), 80), Reading("MACD", Directional(Buy), 75),
                          Reading("ADX", Directional(Sell), 60)]
    ensures EnabledIndicators(readings) == readings && ValidIndicators(readings) == readings
  {
    FilterKeepsAll(readings, IsEnabled);
    FilterKeepsAll(readings, IsValid);
  }

  lemma ExampleCounts(readings: seq<Indicator>)
    requires readings == [Reading("RSI", Directional(Buy), 80), Reading("MACD", Directional(Buy), 75),
                          Reading("ADX", Directional(Sell), 60)]
    ensures CountSide(readings, Buy) == 2 && CountSide(readings, Sell) == 1
  {
    CountOfThree(readings, SignalOf, Directional(Buy));
    CountOfThree(readings, SignalOf, Directional(Sell));
  }

  lemma ExampleWeights(readings: seq<Indicator>)
    requires readings == [Reading("RSI", Directional(Buy), 80), Reading("MACD", Directional(Buy), 75),
                          Reading("ADX", Directional(Sell), 60)]
    ensures TotalWeight(readings) == 3.0 && WeightedSum(readings) == 215.0
  {
    var tail := readings[1..];
    var last := tail[1..];
    assert last == [readings[2]] && last[1..] == [];
    assert TotalWeight(last) == 1.0 && WeightedSum(last) == 60.0;
    assert TotalWeight(tail) == 2.0 && WeightedSum(tail) == 135.0;
  }

  lemma CountOfThree<T, K>(s: seq<T>, key: T -> K, k: K)
    requires |s| == 3
    ensures CountOf(s, key, k)
         == (if key(s[0]) == k then 1 else 0) + (if key(s[1]) == k then 1 else 0) + (if key(s[2]) == k then 1 else 0)
  {
    var tail := s[1..];
    var last := tail[1..];
    assert tail[0] == s[1] && last[0] == s[2] && last[1..] == [];
    assert CountOf(last, key, k) == (if key(s[2]) == k then 1 else 0) + CountOf(last[1..], key, k);
    assert CountOf(tail, key, k) == (if key(s[1]) == k then 1 else 0) + CountOf(last, key, k);
  }

  lemma {:induction false} WeightedSumBounds(s: seq<Indicator>, lo: real, hi: real)
    requires forall i :: 0 <= i < |s| ==> EffectiveWeight(s[i]) > 0.0
    requires forall i :: 0 <= i < |s| ==> lo <= s[i].confidence as real <= hi
    ensures lo * TotalWeight(s) <= WeightedSum(s) <= hi * TotalWeight(s)
    ensures s != [] ==> TotalWeight(s) > 0.0
  {
    if s != [] {
      WeightedSumBounds(s[1..], lo, hi);
      var w := EffectiveWeight(s[0]);
      var c := s[0].confidence as real;
      assert TotalWeight(s) == w + TotalWeight(s[1..]);
      assert WeightedSum(s) == c * w + WeightedSum(s[1..]);
      StepBetween(lo, c, hi, w, TotalWeight(s[1..]), WeightedSum(s[1..]));
    }
  }

  lemma StepBetween(lo: real, c: real, hi: real, w: real, rest: real, sum: real)
    requires lo <= c <= hi && w > 0.0
    requires lo * rest <= sum <= hi * rest
    ensures lo * (w + rest) <= c * w + sum <= hi * (w + rest)
  {
    ScaledBetween(lo, c, hi, w);
    assert lo * (w + rest) == lo * w + lo * rest;
    assert hi * (w + rest) == hi * w + hi * rest;
  }

  lemma ScaledBetween(lo: real, c: real, hi: real, w: real)
    requires lo <= c <= hi && w > 0.0
    ensures lo * w <= c * w <= hi * w
  {
    assert (c - lo) * w >= 0.0;
    assert (hi - c) * w >= 0.0;
  }

  lemma QuotientBetween(lo: real, hi: real, sum: real, total: real)
    requires total > 0.0 && lo * total <= sum <= hi * total
    ensures lo <= sum / total <= hi
  {
    var q := sum / total;
    assert q * total == sum;
    assert (q - lo) * total >= 0.0;
    assert (hi - q) * total >= 0.0;
  }

  /** With positive weights the weighted confidence is a weighted mean: it
      lies between the smallest and the largest confidence. */
  lemma WeightedConfidenceBounds(s: seq<Indicator>, lo: real, hi: real)
    requires s != []
    requires forall i :: 0 <= i < |s| ==> EffectiveWeight(s[i]) > 0.0
    requires forall i :: 0 <= i < |s| ==> lo <= s[i].confidence as real <= hi
    ensures lo <= WeightedConfidence(s) <= hi
  {
    WeightedSumBounds(s, lo, hi);
    QuotientBetween(lo, hi, WeightedSum(s), TotalWeight(s));
  }

  /** The thin-evidence penalty: when every reading has confidence at most
      100 and a positive weight, fewer than three valid readings can never
      produce a confidence above 80, so such a trade needs a threshold of at
      most 80. */
  lemma ThinEvidenceCap(indicators: seq<Indicator>, strategy: Option<Strategy>)
    requires forall i :: 0 <= i < |indicators| ==> indicators[i].confidence <= 100
    requires forall i :: 0 <= i < |indicators| ==> EffectiveWeight(indicators[i]) > 0.0
    ensures |ValidIndicators(indicators)| < 3 ==> AnalyzeIndicators(indicators, strategy).confidence <= 80
  {
    var enabled := EnabledIndicators(indicators);
    var valid := ValidIndicators(indicators);
    var n := |valid|;
    if 0 < n < 3 {
      forall i | 0 <= i < n
        ensures EffectiveWeight(valid[i]) > 0.0 && 0.0 <= valid[i].confidence as real <= 100.0
      {
        assert valid[i] in enabled;
        assert valid[i] in indicators;
        assert IsValid(valid[i]);
      }
      WeightedConfidenceBounds(valid, 0.0, 100.0);
      var wc := WeightedConfidence(valid);
      var buyPct := Percentage(CountSide(valid, Buy), n);
      var sellPct := Percentage(CountSide(valid, Sell), n);
      PercentageAtMostHundred(CountSide(valid, Buy), n);
      PercentageAtMostHundred(CountSide(valid, Sell), n);
      forall strength: real | 0.0 <= strength <= 100.0
        ensures PenalisedConfidence(strength, wc, n, buyPct, sellPct) <= 80.0
      {
        ThinPenaltyBound(strength, wc, n, buyPct, sellPct);
      }
      assert |indicators| > 0 && |enabled| > 0;
    }
  }

  lemma ThinPenaltyBound(strength: real, weighted: real, validCount: nat, buyPct: real, sellPct: real)
    requires 0.0 <= strength <= 100.0 && 0.0 <= weighted <= 100.0 && validCount < 3
    requires 0.0 <= buyPct <= 100.0 && 0.0 <= sellPct <= 100.0
    ensures PenalisedConfidence(strength, weighted, validCount, buyPct, sellPct) <= 80.0
  {
    var blend := strength * 0.4 + weighted * 0.6;
    var factor := 1.0 - Min(buyPct, sellPct) / 100.0 * 0.3;
    assert 0.0 <= blend <= 100.0;
    assert 0.0 < factor <= 1.0;
    assert PenalisedConfidence(strength, weighted, validCount, buyPct, sellPct) == blend * 0.8 * factor;
    var thin := blend * 0.8;
    ProductNonNegative(thin, 1.0 - factor);
    assert thin * factor == thin - thin * (1.0 - factor);
  }

  lemma PercentageAtMostHundred(count: nat, total: nat)
    requires 0 < total && count <= total
    ensures 0.0 <= Percentage(count, total) <= 100.0
  {
    assert count as real / total as real <= 1.0;
  }
}
