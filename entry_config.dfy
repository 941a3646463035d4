/**
 * The martingale arithmetic of the entry configuration panel: the stake of
 * the next martingale level, the total amount at risk over all levels, and
 * the update of one martingale setting.
 */
module EntryConfigPanel {
  import opened Common
  import opened BinaryTerminal

  /** The stake after one loss. */
  function NextStake(config: EntryConfig): (r: real)
    ensures !config.martingale.enabled ==> r == config.stakeAmount
    ensures config.martingale.enabled ==> r == config.stakeAmount * config.martingale.multiplier
  {
    if !config.martingale.enabled then config.stakeAmount
    else
      assert Pow(config.martingale.multiplier, 1) == config.martingale.multiplier * Pow(config.martingale.multiplier, 0);
      config.stakeAmount * Pow(config.martingale.multiplier, 1)
  }

  /** The stakes of the first `levels` martingale levels, added up. */
  function RiskSum(stake: real, multiplier: real, levels: nat): (r: real)
    ensures stake >= 0.0 && multiplier >= 0.0 ==> r >= 0.0
  {
    if levels == 0 then 0.0
    else
      if stake >= 0.0 && multiplier >= 0.0 then
        PowNonNegative(multiplier, levels - 1);
        ProductNonNegative(stake, Pow(multiplier, levels - 1));
        RiskSum(stake, multiplier, levels - 1) + stake * Pow(multiplier, levels - 1)
      else RiskSum(stake, multiplier, levels - 1) + stake * Pow(multiplier, levels - 1)
  }

  /** The amount at risk: the stake alone without martingale, otherwise the
      stakes of every level added up (nothing for a non-positive number of
      levels). */
  method MaxRisk(config: EntryConfig) returns (totalRisk: real)
    ensures !config.martingale.enabled ==> totalRisk == config.stakeAmount
    ensures config.martingale.enabled ==>
      totalRisk == RiskSum(config.stakeAmount, config.martingale.multiplier,
                           if config.martingale.maxLevels > 0 then config.martingale.maxLevels else 0)
  {
    if !config.martingale.enabled {
      return config.stakeAmount;
    }
    totalRisk := 0.0;
    ghost var levels: nat := if config.martingale.maxLevels > 0 then config.martingale.maxLevels else 0;
    var i := 0;
    while i < config.martingale.maxLevels
      invariant 0 <= i <= levels
      invariant totalRisk == RiskSum(config.stakeAmount, config.martingale.multiplier, i)
    {
      totalRisk := totalRisk + config.stakeAmount * Pow(config.martingale.multiplier, i);
      i := i + 1;
    }
  }

  /** The next stake is the second term of the risk sum. */
  lemma NextStakeIsSecondLevel(config: EntryConfig)
    requires config.martingale.enabled
    ensures NextStake(config)
      == RiskSum(config.stakeAmount, config.martingale.multiplier, 2)
         - RiskSum(config.stakeAmount, config.martingale.multiplier, 1)
  {
  }

  /** Stake 10, multiplier 2, three levels: 10 + 20 + 40 = 70. */
  lemma MaxRiskExample()
    ensures RiskSum(10.0, 2.0, 3) == 70.0
  {
    assert Pow(2.0, 2) == 4.0;
  }

  /** With at least one level, a non-negative stake and a non-negative
      multiplier, the risk is at least the stake. */
  lemma {:induction false} RiskAtLeastStake(stake: real, multiplier: real, levels: nat)
    requires levels >= 1 && stake >= 0.0 && multiplier >= 0.0
    ensures RiskSum(stake, multiplier, levels) >= stake
  {
    if levels > 1 {
      RiskAtLeastStake(stake, multiplier, levels - 1);
      PowNonNegative(multiplier, levels - 1);
      assert stake * Pow(multiplier, levels - 1) >= 0.0;
    }
  }

  /** The geometric series: sum · (m − 1) = stake · (m^n − 1). */
  lemma {:induction false} RiskClosedForm(stake: real, multiplier: real, levels: nat)
    ensures RiskSum(stake, multiplier, levels) * (multiplier - 1.0) == stake * (Pow(multiplier, levels) - 1.0)
  {
    if levels > 0 {
      RiskClosedForm(stake, multiplier, levels - 1);
      var p := Pow(multiplier, levels - 1);
      var before := RiskSum(stake, multiplier, levels - 1);
      var after := RiskSum(stake, multiplier, levels);
      assert after == before + stake * p;
      assert Pow(multiplier, levels) == multiplier * p;
      GeometricStep(before, after, stake, p, Pow(multiplier, levels), multiplier);
    }
  }

  lemma GeometricStep(sum: real, after: real, stake: real, p: real, mp: real, m: real)
    requires sum * (m - 1.0) == stake * (p - 1.0)
    requires after == sum + stake * p && mp == m * p
    ensures after * (m - 1.0) == stake * (mp - 1.0)
  {
    calc {
      after * (m - 1.0);
      (sum + stake * p) * (m - 1.0);
      sum * (m - 1.0) + stake * p * (m - 1.0);
      stake * (p - 1.0) + stake * p * (m - 1.0);
      stake * (m * p - 1.0);
    }
  }

  /** One martingale setting with its new value. */
  datatype MartingaleSetting = EnabledSetting(enabled: bool) | MultiplierSetting(multiplier: real)
                             | MaxLevelsSetting(maxLevels: int)

  /** `handleMartingaleChange`: the martingale settings with one field
      replaced, written back into the entry configuration. */
  function HandleMartingaleChange(config: EntryConfig, setting: MartingaleSetting): (r: EntryConfig)
    ensures r.stakeAmount == config.stakeAmount && r.stakeType == config.stakeType
    ensures r.expiration == config.expiration && r.minConfidence == config.minConfidence
    ensures r.martingale.enabled == if setting.EnabledSetting? then setting.enabled else config.martingale.enabled
    ensures r.martingale.multiplier
      == if setting.MultiplierSetting? then setting.multiplier else config.martingale.multiplier
    ensures r.martingale.maxLevels == if setting.MaxLevelsSetting? then setting.maxLevels else config.martingale.maxLevels
  {
    var m := config.martingale;
    config.(martingale := match setting
      case EnabledSetting(e) => m.(enabled := e)
      case MultiplierSetting(x) => m.(multiplier := x)
      case MaxLevelsSetting(n) => m.(maxLevels := n))
  }

  /** Writing a setting twice is the same as writing it once, and writing
      back the current value changes nothing. */
  lemma MartingaleChangeIdempotent(config: EntryConfig, setting: MartingaleSetting)
    ensures HandleMartingaleChange(HandleMartingaleChange(config, setting), setting)
      == HandleMartingaleChange(config, setting)
    ensures HandleMartingaleChange(config, EnabledSetting(config.martingale.enabled)) == config
  {
  }
}
