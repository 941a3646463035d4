/**
 * The consensus badge of the indicator panel: counts of enabled buy, sell
 * and neutral readings, the winning signal, and its strength in percent.
 */
module IndicatorPanel {
  import opened Common

  /** The badge. `strength` is `None` where the source computes NaN: a
      non-empty list with no enabled reading. */
  datatype Consensus = Consensus(signal: Signal, strength: Option<int>, buyCount: nat, sellCount: nat, neutralCount: nat)

  function EnabledCount(indicators: seq<Indicator>, signal: Signal): nat
  {
    CountOf(Filter(indicators, IsEnabled), SignalOf, signal)
  }

  /** The nearest whole percentage of `count` out of `total`, NaN
      (`None`) for a total of 0. */
  function Strength(count: nat, total: nat): (r: Option<int>)
    ensures r.Some? <==> total > 0
    ensures r.Some? ==> var share := count as real / total as real * 100.0;
      share - 0.5 < r.value as real <= share + 0.5
  {
    if total == 0 then None else Some(Round(count as real / total as real * 100.0))
  }

  function CalculateConsensus(indicators: seq<Indicator>): (c: Consensus)
    ensures indicators == [] ==> c == Consensus(Neutral, Some(0), 0, 0, 0)
    ensures indicators != [] ==>
      && c.buyCount == EnabledCount(indicators, Directional(Buy))
      && c.sellCount == EnabledCount(indicators, Directional(Sell))
      && c.neutralCount == EnabledCount(indicators, Neutral)
  {
    if indicators == [] then Consensus(Neutral, Some(0), 0, 0, 0)
    else
      var buy := EnabledCount(indicators, Directional(Buy));
      var sell := EnabledCount(indicators, Directional(Sell));
      var neutral := EnabledCount(indicators, Neutral);
      var total := |Filter(indicators, IsEnabled)|;
      if buy > sell && buy > neutral then Consensus(Directional(Buy), Strength(buy, total), buy, sell, neutral)
      else if sell > buy && sell > neutral then Consensus(Directional(Sell), Strength(sell, total), buy, sell, neutral)
      else
        var top := if buy >= sell && buy >= neutral then buy else if sell >= neutral then sell else neutral;
        Consensus(Neutral, Strength(top, total), buy, sell, neutral)
  }

  /** Buy wins exactly when it beats both sell and neutral, sell likewise,
      and every other case is neutral. */
  lemma SignalRule(indicators: seq<Indicator>)
    requires indicators != []
    ensures var c := CalculateConsensus(indicators);
      && (c.signal == Directional(Buy) <==> c.buyCount > c.sellCount && c.buyCount > c.neutralCount)
      && (c.signal == Directional(Sell) <==> c.sellCount > c.buyCount && c.sellCount > c.neutralCount)
      && (c.signal == Neutral <==>
            (!(c.buyCount > c.sellCount && c.buyCount > c.neutralCount)
             && !(c.sellCount > c.buyCount && c.sellCount > c.neutralCount)))
  {
  }

  /** The three counts never count a reading twice: together they are at
      most the number of enabled readings, and exactly that number when
      every enabled reading says buy, sell or neutral. */
  lemma CountsPartition(indicators: seq<Indicator>)
    ensures var c := CalculateConsensus(indicators);
      var enabled := Filter(indicators, IsEnabled);
      && c.buyCount + c.sellCount + c.neutralCount <= |enabled|
      && ((forall i :: 0 <= i < |enabled| ==> enabled[i].signal != Unrecognised) ==>
            c.buyCount + c.sellCount + c.neutralCount == |enabled|)
  {
    var enabled := Filter(indicators, IsEnabled);
    var ks := [Directional(Buy), Directional(Sell), Neutral];
    CountEachBound(enabled, SignalOf, ks);
    CountEachThree(enabled, SignalOf, ks);
    if forall i :: 0 <= i < |enabled| ==> enabled[i].signal != Unrecognised {
      RecognisedSignals(enabled, ks);
    }
  }

  lemma RecognisedSignals(enabled: seq<Indicator>, ks: seq<Signal>)
    requires ks == [Directional(Buy), Directional(Sell), Neutral]
    requires forall i :: 0 <= i < |enabled| ==> enabled[i].signal != Unrecognised
    ensures forall i :: 0 <= i < |enabled| ==> SignalOf(enabled[i]) in ks
  {
    forall i | 0 <= i < |enabled| ensures SignalOf(enabled[i]) in ks {
      match enabled[i].signal
      case Directional(side) => assert side == Buy || side == Sell;
      case Neutral =>
    }
  }

  lemma StrengthRange(count: nat, total: nat)
    requires count <= total
    ensures Strength(count, total).Some? <==> total > 0
    ensures total > 0 ==> 0 <= Strength(count, total).value <= 100
  {
    if total > 0 {
      var f := count as real / total as real;
      assert f * total as real == count as real;
      assert 0.0 <= f <= 1.0;
    }
  }

  function MaxCount(a: nat, b: nat, c: nat): (m: nat)
    ensures m >= a && m >= b && m >= c
    ensures m == a || m == b || m == c
  {
    if a >= b && a >= c then a else if b >= c then b else c
  }

  /** The strength is the rounded share of the enabled readings held by
      the winning signal, and by the largest count when the badge is
      neutral; so in every case it is the share of the largest count. */
  lemma StrengthIsTopShare(indicators: seq<Indicator>)
    requires indicators != []
    ensures var c := CalculateConsensus(indicators);
      var total := |Filter(indicators, IsEnabled)|;
      && (c.signal == Directional(Buy) ==> c.strength == Strength(c.buyCount, total))
      && (c.signal == Directional(Sell) ==> c.strength == Strength(c.sellCount, total))
      && c.strength == Strength(MaxCount(c.buyCount, c.sellCount, c.neutralCount), total)
  {
  }

  /** The strength is a percentage in [0, 100] whenever some reading is
      enabled, and NaN for a non-empty list with none enabled. */
  lemma StrengthIsPercentage(indicators: seq<Indicator>)
    requires indicators != []
    ensures var c := CalculateConsensus(indicators);
      (c.strength.None? <==> |Filter(indicators, IsEnabled)| == 0)
      && (c.strength.Some? ==> 0 <= c.strength.value <= 100)
  {
    var c := CalculateConsensus(indicators);
    var total := |Filter(indicators, IsEnabled)|;
    CountsPartition(indicators);
    var top := if c.buyCount >= c.sellCount && c.buyCount >= c.neutralCount then c.buyCount
               else if c.sellCount >= c.neutralCount then c.sellCount else c.neutralCount;
    StrengthRange(c.buyCount, total);
    StrengthRange(c.sellCount, total);
    StrengthRange(top, total);
  }
}
