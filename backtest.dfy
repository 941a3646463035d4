/**
 * The simulated backtest: the stake, the number of trades, the win rate and
 * the payout it derives from the configuration, the martingale trade loop
 * that stops when the next stake cannot be paid, the closed-form run
 * without martingale, and the summary figures.
 *
 * The random numbers the page draws are parameters: the trade-count factor,
 * the win-rate adjustment, and one draw in [0, 100) per trade.
 */
module Backtest {
  import opened Common
  import opened BinaryTerminal

  datatype StrategyProfile = StrategyProfile(name: string, bestAssets: seq<string>, winRate: real)

  /** The four strategies the page knows, each with recommended assets and
      a base win rate strictly between 0 and 100. */
  function StrategyProfileFor(key: string): (r: Option<StrategyProfile>)
    ensures r.Some? <==> key in ["volatility_scalping", "crash_boom_hunter", "step_pattern", "multi_volatility"]
    ensures r.Some? ==> |r.value.bestAssets| > 0 && 0.0 < r.value.winRate < 100.0
  {
    if key == "volatility_scalping" then
      Some(StrategyProfile("Volatility Scalping", ["R_100", "R_75", "R_50"], 68.0))
    else if key == "crash_boom_hunter" then
      Some(StrategyProfile("Crash & Boom Hunter", ["BOOM1000", "CRASH1000", "BOOM500", "CRASH500"], 62.0))
    else if key == "step_pattern" then
      Some(StrategyProfile("Step Pattern", ["STPUSD"], 71.0))
    else if key == "multi_volatility" then
      Some(StrategyProfile("Multi Volatility", ["R_100", "R_75", "R_50", "R_25", "R_10"], 65.0))
    else None
  }

  /** A percentage stake is that share of the initial balance. */
  function ActualStake(stakeType: StakeType, initialBalance: real, stakeAmount: real): (r: real)
    ensures stakeType == Fixed ==> r == stakeAmount
    ensures stakeType == Percentage ==> r * 100.0 == initialBalance * stakeAmount
    ensures initialBalance >= 0.0 && stakeAmount >= 0.0 ==> r >= 0.0
  {
    if stakeType == Percentage then initialBalance * stakeAmount / 100.0 else stakeAmount
  }

  function TradesPerDay(expiration: string): (n: nat)
    ensures n in {40, 30, 20, 15}
  {
    if expiration == "1m" then 40 else if expiration == "2m" then 30 else if expiration == "3m" then 20 else 15
  }

  /** `Math.floor(days * tradesPerDay * factor)`, `factor` drawn in
      [0.8, 1.2]. */
  function TotalTrades(days: real, expiration: string, factor: real): (n: int)
    ensures n as real <= days * TradesPerDay(expiration) as real * factor < n as real + 1.0
    ensures days >= 0.0 && factor >= 0.0 ==> n >= 0
  {
    (days * TradesPerDay(expiration) as real * factor).Floor
  }

  /** The strategy's base rate, raised by `adjustment` on a recommended
      asset and lowered by it otherwise, moved by a fifth of a point per
      point of minimum confidence away from 70, rounded and kept in
      [45, 85]. */
  function WinRate(profile: StrategyProfile, asset: string, adjustment: real, minConfidence: real): (r: int)
    ensures 45 <= r <= 85
  {
    var base := if asset in profile.bestAssets then profile.winRate + adjustment else profile.winRate - adjustment;
    var adjusted := base + (minConfidence - 70.0) * 0.2;
    var rounded := Round(adjusted);
    if rounded < 45 then 45 else if rounded > 85 then 85 else rounded
  }

  /** The payout in percent for each synthetic index, 80 for any other. */
  function Payout(asset: string): (p: int)
    ensures 75 <= p <= 90
  {
    if asset == "R_100" then 85
    else if asset == "R_75" then 83
    else if asset == "R_50" then 80
    else if asset == "R_25" then 78
    else if asset == "R_10" then 75
    else if asset == "BOOM1000" || asset == "CRASH1000" then 90
    else if asset == "BOOM500" || asset == "CRASH500" then 88
    else if asset == "STPUSD" then 82
    else 80
  }

  /** The figures of a simulated run. */
  datatype Tally = Tally(finalBalance: real, minBalance: real, wins: int, losses: int, totalProfit: real, totalLoss: real)

  /** A trade wins when its draw falls below the win rate. */
  function WinDraw(winRate: int): real -> bool
  {
    (d: real) => d < winRate as real
  }

  /** What the martingale run reads from the configuration. */
  datatype RunConfig = RunConfig(actualStake: real, multiplier: real, maxLevels: int, payout: int, winRate: int)

  /** The martingale run's variables after some trades, with the number of
      trades made. */
  datatype RunState = RunState(balance: real, minBalance: real, wins: nat, losses: nat, totalProfit: real,
                               totalLoss: real, lossStreak: nat, processed: nat)

  function Start(initialBalance: real): RunState
  {
    RunState(initialBalance, initialBalance, 0, 0, 0.0, 0.0, 0, 0)
  }

  /** The stake after `streak` losses in a row. */
  function StakeAt(c: RunConfig, streak: nat): real
  {
    c.actualStake * Pow(c.multiplier, streak)
  }

  /** The streak stays below the maximum number of levels (below 1 when
      that maximum is not above 1). */
  function StreakBound(maxLevels: int): int
  {
    if maxLevels > 1 then maxLevels else 1
  }

  /** One trade: a win pays the stake times the payout and resets the
      streak; a loss costs the stake and lengthens the streak, which
      restarts on reaching the maximum number of levels; the lowest balance
      follows the balance down. */
  function TradeStep(c: RunConfig, s: RunState, draw: real): (r: RunState)
    ensures r.processed == s.processed + 1
    ensures r.wins + r.losses == s.wins + s.losses + 1
    ensures r.wins == s.wins + 1 <==> draw < c.winRate as real
    ensures r.balance - r.totalProfit + r.totalLoss == s.balance - s.totalProfit + s.totalLoss
    ensures r.minBalance == (if r.balance < s.minBalance then r.balance else s.minBalance)
    ensures r.lossStreak < StreakBound(c.maxLevels)
    ensures draw < c.winRate as real ==> r.lossStreak == 0 && r.balance == s.balance + Profit(StakeAt(c, s.lossStreak), c.payout)
    ensures !(draw < c.winRate as real) ==> r.balance == s.balance - StakeAt(c, s.lossStreak)
  {
    var stake := StakeAt(c, s.lossStreak);
    if draw < c.winRate as real then
      var profit := Profit(stake, c.payout);
      var balance := s.balance + profit;
      RunState(balance, if balance < s.minBalance then balance else s.minBalance, s.wins + 1, s.losses,
               s.totalProfit + profit, s.totalLoss, 0, s.processed + 1)
    else
      var balance := s.balance - stake;
      var streak := if s.lossStreak + 1 >= c.maxLevels then 0 else s.lossStreak + 1;
      RunState(balance, if balance < s.minBalance then balance else s.minBalance, s.wins, s.losses + 1,
               s.totalProfit, s.totalLoss + stake, streak, s.processed + 1)
  }

  /** What a winning trade pays: the stake times the payout percentage. */
  function Profit(stake: real, payout: int): real
  {
    stake * (payout as real / 100.0)
  }

  /** The reference run: one trade per draw, in order, ending at the first
      stake larger than the balance. */
  function MartingaleRun(c: RunConfig, s: RunState, draws: seq<real>): (r: RunState)
    ensures s.processed <= r.processed <= s.processed + |draws|
    ensures r.processed == s.processed ==> r == s
    decreases |draws|
  {
    if draws == [] || StakeAt(c, s.lossStreak) > s.balance then s
    else MartingaleRun(c, TradeStep(c, s, draws[0]), draws[1..])
  }

  /** A run that can afford its first stake makes that trade and goes on. */
  lemma RunOneTrade(c: RunConfig, s: RunState, draws: seq<real>)
    requires draws != [] && StakeAt(c, s.lossStreak) <= s.balance
    ensures MartingaleRun(c, s, draws) == MartingaleRun(c, TradeStep(c, s, draws[0]), draws[1..])
  {
  }

  /** A run with no draws left, or that cannot afford its next stake, ends. */
  lemma RunEnds(c: RunConfig, s: RunState, draws: seq<real>)
    requires draws == [] || StakeAt(c, s.lossStreak) > s.balance
    ensures MartingaleRun(c, s, draws) == s
  {
  }

  function TallyOf(r: RunState): Tally
  {
    Tally(r.balance, r.minBalance, r.wins, r.losses, r.totalProfit, r.totalLoss)
  }

  /** The run makes at most one trade per draw; each trade is a win or a
      loss, and the wins are the winning draws among those used. */
  lemma {:induction false} MartingaleRunCounts(c: RunConfig, s: RunState, draws: seq<real>)
    ensures var r := MartingaleRun(c, s, draws);
      && s.processed <= r.processed <= s.processed + |draws|
      && r.wins + r.losses == s.wins + s.losses + (r.processed - s.processed)
      && r.wins == s.wins + |Filter(draws[..r.processed - s.processed], WinDraw(c.winRate))|
    decreases |draws|
  {
    if draws != [] && StakeAt(c, s.lossStreak) <= s.balance {
      var next := TradeStep(c, s, draws[0]);
      MartingaleRunCounts(c, next, draws[1..]);
      var r := MartingaleRun(c, s, draws);
      var k := r.processed - next.processed;
      var used := draws[..k + 1];
      assert used[0] == draws[0] && used[1..] == draws[1..][..k];
    } else {
      assert draws[..0] == [];
    }
  }

  /** Every trade moves the balance by its profit or its loss, and the
      lowest balance never rises and never exceeds the balance. */
  lemma {:induction false} MartingaleRunMoney(c: RunConfig, s: RunState, draws: seq<real>)
    requires s.minBalance <= s.balance
    ensures var r := MartingaleRun(c, s, draws);
      && r.balance - r.totalProfit + r.totalLoss == s.balance - s.totalProfit + s.totalLoss
      && r.minBalance <= s.minBalance && r.minBalance <= r.balance
    decreases |draws|
  {
    if draws != [] && StakeAt(c, s.lossStreak) <= s.balance {
      MartingaleRunMoney(c, TradeStep(c, s, draws[0]), draws[1..]);
    }
  }

  /** The streak stays below the maximum number of levels, and a run that
      leaves draws unused stopped because the next stake exceeded the
      balance. */
  lemma {:induction false} MartingaleRunStops(c: RunConfig, s: RunState, draws: seq<real>)
    requires s.lossStreak < StreakBound(c.maxLevels)
    ensures var r := MartingaleRun(c, s, draws);
      && r.lossStreak < StreakBound(c.maxLevels)
      && (r.processed < s.processed + |draws| ==> StakeAt(c, r.lossStreak) > r.balance)
    decreases |draws|
  {
    if draws != [] && StakeAt(c, s.lossStreak) <= s.balance {
      var next := TradeStep(c, s, draws[0]);
      MartingaleRunCounts(c, next, draws[1..]);
      MartingaleRunStops(c, next, draws[1..]);
    }
  }

  /** With a non-negative stake, multiplier and payout, a run that starts
      from a non-negative balance keeps every figure non-negative: no trade
      is made that the balance cannot pay. */
  lemma {:induction false} MartingaleRunNonNegative(c: RunConfig, s: RunState, draws: seq<real>)
    requires c.actualStake >= 0.0 && c.multiplier >= 0.0 && c.payout >= 0
    requires s.balance >= 0.0 && s.minBalance >= 0.0 && s.totalProfit >= 0.0 && s.totalLoss >= 0.0
    ensures var r := MartingaleRun(c, s, draws);
      r.balance >= 0.0 && r.minBalance >= 0.0 && r.totalProfit >= 0.0 && r.totalLoss >= 0.0
    decreases |draws|
  {
    if draws != [] && StakeAt(c, s.lossStreak) <= s.balance {
      PowNonNegative(c.multiplier, s.lossStreak);
      ProductNonNegative(c.actualStake, Pow(c.multiplier, s.lossStreak));
      ProductNonNegative(StakeAt(c, s.lossStreak), c.payout as real / 100.0);
      assert Profit(StakeAt(c, s.lossStreak), c.payout) >= 0.0;
      MartingaleRunNonNegative(c, TradeStep(c, s, draws[0]), draws[1..]);
    }
  }

  /** What a run from the initial balance promises. */
  lemma MartingaleRunFromStart(c: RunConfig, initialBalance: real, draws: seq<real>)
    ensures var r := MartingaleRun(c, Start(initialBalance), draws);
      && r.processed <= |draws|
      && r.wins + r.losses == r.processed
      && r.wins == |Filter(draws[..r.processed], WinDraw(c.winRate))|
      && r.balance == initialBalance + r.totalProfit - r.totalLoss
      && r.minBalance <= initialBalance && r.minBalance <= r.balance
      && r.lossStreak < StreakBound(c.maxLevels)
      && (r.processed < |draws| ==> StakeAt(c, r.lossStreak) > r.balance)
      && (initialBalance >= 0.0 && c.actualStake >= 0.0 && c.multiplier >= 0.0 && c.payout >= 0 ==>
            r.balance >= 0.0 && r.minBalance >= 0.0 && r.totalProfit >= 0.0 && r.totalLoss >= 0.0)
  {
    MartingaleRunCounts(c, Start(initialBalance), draws);
    MartingaleRunMoney(c, Start(initialBalance), draws);
    MartingaleRunStops(c, Start(initialBalance), draws);
    if initialBalance >= 0.0 && c.actualStake >= 0.0 && c.multiplier >= 0.0 && c.payout >= 0 {
      MartingaleRunNonNegative(c, Start(initialBalance), draws);
    }
  }

  /** The martingale run of the page: the loop over the draws, proved to
      compute the reference run, with what that run promises. */
  method SimulateMartingale(actualStake: real, multiplier: real, maxLevels: int, payout: int, winRate: int,
                            initialBalance: real, draws: seq<real>)
    returns (t: Tally, processed: nat, lossStreak: nat)
    ensures var r := MartingaleRun(RunConfig(actualStake, multiplier, maxLevels, payout, winRate), Start(initialBalance), draws);
      t == TallyOf(r) && processed == r.processed && lossStreak == r.lossStreak
    ensures processed <= |draws|
    ensures t.wins + t.losses == processed
    ensures t.wins == |Filter(draws[..processed], WinDraw(winRate))|
    ensures t.finalBalance == initialBalance + t.totalProfit - t.totalLoss
    ensures t.minBalance <= initialBalance && t.minBalance <= t.finalBalance
    ensures lossStreak < StreakBound(maxLevels)
    ensures processed < |draws| ==> StakeAt(RunConfig(actualStake, multiplier, maxLevels, payout, winRate), lossStreak) > t.finalBalance
    ensures initialBalance >= 0.0 && actualStake >= 0.0 && multiplier >= 0.0 && payout >= 0 ==>
      t.finalBalance >= 0.0 && t.minBalance >= 0.0 && t.totalProfit >= 0.0 && t.totalLoss >= 0.0
  {
    var c := RunConfig(actualStake, multiplier, maxLevels, payout, winRate);
    var currentBalance := initialBalance;
    var minBalanceReached := initialBalance;
    var wins: nat, losses: nat := 0, 0;
    var totalProfit, totalLoss := 0.0, 0.0;
    lossStreak := 0;
    var i := 0;
    while i < |draws|
      invariant 0 <= i <= |draws|
      invariant MartingaleRun(c, Start(initialBalance), draws)
        == MartingaleRun(c, RunState(currentBalance, minBalanceReached, wins, losses, totalProfit, totalLoss, lossStreak, i), draws[i..])
    {
      ghost var before := RunState(currentBalance, minBalanceReached, wins, losses, totalProfit, totalLoss, lossStreak, i);
      var currentStake := StakeAt(c, lossStreak);
      if currentStake > currentBalance {
        RunEnds(c, before, draws[i..]);
        break;
      }
      RunOneTrade(c, before, draws[i..]);
      assert draws[i..][0] == draws[i] && draws[i..][1..] == draws[i + 1..];
      ghost var after := TradeStep(c, before, draws[i]);
      var isWin := draws[i] < winRate as real;
      if isWin {
        var profit := Profit(currentStake, payout);
        currentBalance := currentBalance + profit;
        totalProfit := totalProfit + profit;
        wins := wins + 1;
        lossStreak := 0;
      } else {
        currentBalance := currentBalance - currentStake;
        totalLoss := totalLoss + currentStake;
        losses := losses + 1;
        lossStreak := lossStreak + 1;
        if lossStreak >= maxLevels {
          lossStreak := 0;
        }
      }
      if currentBalance < minBalanceReached {
        minBalanceReached := currentBalance;
      }
      i := i + 1;
      assert RunState(currentBalance, minBalanceReached, wins, losses, totalProfit, totalLoss, lossStreak, i) == after;
    }
    if i == |draws| {
      RunEnds(c, RunState(currentBalance, minBalanceReached, wins, losses, totalProfit, totalLoss, lossStreak, i), draws[i..]);
    }
    processed := i;
    t := Tally(currentBalance, minBalanceReached, wins, losses, totalProfit, totalLoss);
    MartingaleRunFromStart(c, initialBalance, draws);
  }

  /** With a multiplier of at least 1, no martingale stake exceeds the base
      stake times the multiplier to the power of the levels less one. */
  lemma StakeCap(actualStake: real, multiplier: real, maxLevels: int, lossStreak: nat)
    requires actualStake >= 0.0 && multiplier >= 1.0 && maxLevels >= 1 && lossStreak < maxLevels
    ensures actualStake * Pow(multiplier, lossStreak) <= actualStake * Pow(multiplier, maxLevels - 1)
  {
    PowMonotone(multiplier, lossStreak, maxLevels - 1);
  }

  /** The run without martingale: the expected number of wins, the rest as
      losses, and a drawdown estimate of half the loss share plus 5 points. */
  function SimpleTally(totalTrades: int, winRate: int, actualStake: real, payout: int, initialBalance: real): (t: Tally)
    ensures var expected := totalTrades as real * (winRate as real / 100.0);
      expected - 0.5 < t.wins as real <= expected + 0.5
    ensures t.losses >= 0 && (t.losses == 0 || t.wins + t.losses == totalTrades)
    ensures t.minBalance == initialBalance
  {
    var wins := Round(totalTrades as real * (winRate as real / 100.0));
    var losses := if totalTrades - wins < 0 then 0 else totalTrades - wins;
    var totalProfit := wins as real * actualStake * (payout as real / 100.0);
    var totalLoss := losses as real * actualStake;
    Tally(initialBalance + totalProfit - totalLoss, initialBalance, wins, losses, totalProfit, totalLoss)
  }

  /** Without martingale the wins are the trades times the win rate,
      rounded, the losses are never negative, and for a non-negative trade
      count they add up to it. */
  lemma SimpleTallyCounts(totalTrades: int, winRate: int, actualStake: real, payout: int, initialBalance: real)
    requires 0 <= winRate <= 100
    ensures var t := SimpleTally(totalTrades, winRate, actualStake, payout, initialBalance);
      && t.wins == Round(totalTrades as real * (winRate as real / 100.0))
      && t.losses == (if totalTrades - t.wins < 0 then 0 else totalTrades - t.wins)
      && t.totalProfit == t.wins as real * actualStake * (payout as real / 100.0)
      && t.totalLoss == t.losses as real * actualStake
      && t.losses >= 0
      && (totalTrades >= 0 ==> 0 <= t.wins <= totalTrades && t.wins + t.losses == totalTrades)
      && t.finalBalance == initialBalance + t.totalProfit - t.totalLoss
  {
    if totalTrades >= 0 {
      RoundedShareWithin(totalTrades, winRate as real / 100.0);
    }
  }

  /** Rounding a share of `n` trades gives between 0 and `n` of them. */
  lemma RoundedShareWithin(n: int, f: real)
    requires n >= 0 && 0.0 <= f <= 1.0
    ensures 0 <= Round(n as real * f) <= n
  {
    var share := n as real * f;
    ShareWithin(n as real, f);
    RoundWithin(share, n);
  }

  lemma RoundWithin(x: real, n: int)
    requires 0.0 <= x <= n as real
    ensures 0 <= Round(x) <= n
  {
    assert x - 0.5 < Round(x) as real <= x + 0.5;
  }

  lemma ShareWithin(n: real, f: real)
    requires n >= 0.0 && 0.0 <= f <= 1.0
    ensures 0.0 <= n * f <= n
  {
    assert n * f + n * (1.0 - f) == n;
    assert n * (1.0 - f) >= 0.0;
  }

  function SimpleDrawdown(totalLoss: real, initialBalance: real): (d: real)
    requires initialBalance != 0.0
    ensures d >= 0.0
    ensures d >= 5.0 ==> d == totalLoss / initialBalance * 100.0 * 0.5 + 5.0
    ensures totalLoss >= 0.0 && initialBalance > 0.0 ==> d == totalLoss / initialBalance * 50.0 + 5.0
  {
    Max(0.0, totalLoss / initialBalance * 100.0 * 0.5 + 5.0)
  }

  /** The final balance is raised to a tenth of the initial balance, and to
      1 if it is still not positive. */
  function FloorBalance(finalBalance: real, initialBalance: real): (r: real)
    ensures r >= initialBalance * 0.1 && r > 0.0
    ensures finalBalance >= initialBalance * 0.1 && finalBalance > 0.0 ==> r == finalBalance
  {
    var raised := if finalBalance < initialBalance * 0.1 then initialBalance * 0.1 else finalBalance;
    if raised <= 0.0 then 1.0 else raised
  }

  function ProfitFactor(totalProfit: real, totalLoss: real): (f: real)
    ensures totalLoss > 0.0 ==> f * totalLoss == totalProfit
    ensures totalLoss <= 0.0 && totalProfit > 0.0 ==> f == 999.0
    ensures totalLoss <= 0.0 && totalProfit <= 0.0 ==> f == 0.0
  {
    if totalLoss > 0.0 then totalProfit / totalLoss else if totalProfit > 0.0 then 999.0 else 0.0
  }

  /** The martingale drawdown: the fall from the initial balance to the
      lowest balance reached, in percent of the initial balance, never
      negative. */
  function MartingaleDrawdown(initialBalance: real, minBalance: real): (d: real)
    requires initialBalance != 0.0
    ensures d >= 0.0
    ensures (initialBalance - minBalance) / initialBalance >= 0.0 ==> d * initialBalance == (initialBalance - minBalance) * 100.0
    ensures (initialBalance - minBalance) / initialBalance < 0.0 ==> d == 0.0
  {
    var raw := (initialBalance - minBalance) / initialBalance * 100.0;
    if raw < 0.0 then 0.0 else raw
  }

  lemma MartingaleDrawdownRange(initialBalance: real, minBalance: real)
    requires initialBalance > 0.0 && 0.0 <= minBalance
    ensures MartingaleDrawdown(initialBalance, minBalance) <= 100.0
    ensures minBalance >= initialBalance ==> MartingaleDrawdown(initialBalance, minBalance) == 0.0
  {
    var f := (initialBalance - minBalance) / initialBalance;
    assert f * initialBalance == initialBalance - minBalance;
  }

  /** The figures the page shows. */
  datatype Summary = Summary(
    totalReturn: real,
    winRate: int,
    maxDrawdown: real,
    totalTrades: int,
    wins: int,
    losses: int,
    finalBalance: real,
    netResult: real,
    profitFactor: real,
    payout: int,
    actualStake: real,
    strategy: string)

  function Summarise(t: Tally, martingale: bool, totalTrades: int, winRate: int, payout: int,
                     actualStake: real, initialBalance: real, strategy: string): (s: Summary)
    requires initialBalance != 0.0
    ensures s.finalBalance >= 0.0
    ensures s.maxDrawdown >= 0.0
    ensures s.wins == t.wins && s.losses == t.losses && s.totalTrades == totalTrades
    ensures s.winRate == winRate && s.payout == payout && s.actualStake == actualStake && s.strategy == strategy
    ensures var exact := FloorBalance(t.finalBalance, initialBalance);
      && -0.005 <= s.finalBalance - exact <= 0.005
      && -0.005 <= s.netResult - (exact - initialBalance) <= 0.005
      && -0.005 <= s.totalReturn - (exact - initialBalance) / initialBalance * 100.0 <= 0.005
    ensures -0.005 <= s.profitFactor - ProfitFactor(t.totalProfit, t.totalLoss) <= 0.005
    ensures martingale ==> -0.005 <= s.maxDrawdown - MartingaleDrawdown(initialBalance, t.minBalance) <= 0.005
    ensures !martingale ==> -0.005 <= s.maxDrawdown - SimpleDrawdown(t.totalLoss, initialBalance) <= 0.005
  {
    var finalBalance := FloorBalance(t.finalBalance, initialBalance);
    var netResult := finalBalance - initialBalance;
    var totalReturn := netResult / initialBalance * 100.0;
    var drawdown := if martingale then MartingaleDrawdown(initialBalance, t.minBalance)
                    else SimpleDrawdown(t.totalLoss, initialBalance);
    Summary(RoundTo2(totalReturn), winRate, RoundTo2(drawdown), totalTrades, t.wins, t.losses,
            RoundTo2(finalBalance), RoundTo2(netResult), RoundTo2(ProfitFactor(t.totalProfit, t.totalLoss)),
            payout, actualStake, strategy)
  }

  /** The backtest form: strategy key, asset, starting balance, stake,
      expiry and the martingale settings. */
  datatype BacktestConfig = BacktestConfig(strategy: string, asset: string, initialBalance: real, stakeAmount: real,
                                           stakeType: StakeType, expiration: string, minConfidence: real,
                                           martingale: MartingaleConfig)

  /** A backtest either reports its summary or has none: the page fails on
      an unknown strategy key, and divides by a zero initial balance. */
  datatype BacktestOutcome = UnknownStrategy | ZeroBalance | Report(summary: Summary)

  /** One draw per possible trade, in order. */
  function Draws(draw: int -> real, totalTrades: int): seq<real>
  {
    seq(if totalTrades < 0 then 0 else totalTrades, draw)
  }

  /** The reference backtest: the stake, trade count, win rate and payout
      derived from the configuration, then the martingale run or the
      closed-form run, then the summary. */
  function SimulatedData(config: BacktestConfig, days: real, factor: real, adjustment: real, draw: int -> real)
    : (r: BacktestOutcome)
    ensures r.UnknownStrategy? <==> StrategyProfileFor(config.strategy).None?
    ensures r.ZeroBalance? <==> StrategyProfileFor(config.strategy).Some? && config.initialBalance == 0.0
  {
    match StrategyProfileFor(config.strategy)
    case None => UnknownStrategy
    case Some(profile) =>
      if config.initialBalance == 0.0 then ZeroBalance
      else
        var actualStake := ActualStake(config.stakeType, config.initialBalance, config.stakeAmount);
        var totalTrades := TotalTrades(days, config.expiration, factor);
        var winRate := WinRate(profile, config.asset, adjustment, config.minConfidence);
        var payout := Payout(config.asset);
        var run := RunConfig(actualStake, config.martingale.multiplier, config.martingale.maxLevels, payout, winRate);
        var t := if config.martingale.enabled then TallyOf(MartingaleRun(run, Start(config.initialBalance), Draws(draw, totalTrades)))
                 else SimpleTally(totalTrades, winRate, actualStake, payout, config.initialBalance);
        Report(Summarise(t, config.martingale.enabled, totalTrades, winRate, payout, actualStake,
                         config.initialBalance, profile.name))
  }

  /** The page's simulation: `days` comes from the two dates, `factor` is
      the trade-count draw, `adjustment` the win-rate draw and `draw(i)` the
      draw of trade `i`. */
  method GenerateSimulatedData(config: BacktestConfig, days: real, factor: real, adjustment: real, draw: int -> real)
    returns (result: BacktestOutcome)
    ensures result == SimulatedData(config, days, factor, adjustment, draw)
  {
    var strategy := StrategyProfileFor(config.strategy);
    if strategy.None? {
      return UnknownStrategy;
    }
    if config.initialBalance == 0.0 {
      return ZeroBalance;
    }
    var profile := strategy.value;
    var actualStake := ActualStake(config.stakeType, config.initialBalance, config.stakeAmount);
    var totalTrades := TotalTrades(days, config.expiration, factor);
    var winRate := WinRate(profile, config.asset, adjustment, config.minConfidence);
    var payout := Payout(config.asset);
    var t: Tally;
    if config.martingale.enabled {
      var draws := Draws(draw, totalTrades);
      var processed, lossStreak;
      t, processed, lossStreak := SimulateMartingale(actualStake, config.martingale.multiplier, config.martingale.maxLevels, payout, winRate,
                                    config.initialBalance, draws);
    } else {
      t := SimpleTally(totalTrades, winRate, actualStake, payout, config.initialBalance);
    }
    result := Report(Summarise(t, config.martingale.enabled, totalTrades, winRate, payout, actualStake,
                               config.initialBalance, profile.name));
  }

  /** What a backtest reports: the strategy's name, the trade count, the stake, a
      win rate in [45, 85], a payout in [75, 90], a non-negative balance and
      drawdown, at most one trade per planned trade (exactly that many
      without martingale), and with martingale the wins are the winning
      draws among the trades made. */
  lemma SimulatedDataFacts(config: BacktestConfig, days: real, factor: real, adjustment: real, draw: int -> real)
    ensures var r := SimulatedData(config, days, factor, adjustment, draw);
      r.Report? ==>
            var s := r.summary;
            var n := TotalTrades(days, config.expiration, factor);
            && s.strategy == StrategyProfileFor(config.strategy).value.name
            && s.totalTrades == n
            && s.actualStake == ActualStake(config.stakeType, config.initialBalance, config.stakeAmount)
            && 45 <= s.winRate <= 85 && 75 <= s.payout <= 90
            && s.finalBalance >= 0.0 && s.maxDrawdown >= 0.0 && s.losses >= 0
            && (n >= 0 ==> 0 <= s.wins && s.wins + s.losses <= n)
            && (!config.martingale.enabled && n >= 0 ==> s.wins + s.losses == n)
            && (config.martingale.enabled ==>
                  s.wins == |Filter(Draws(draw, n)[..s.wins + s.losses], WinDraw(s.winRate))|)
  {
    var r := SimulatedData(config, days, factor, adjustment, draw);
    if r.Report? {
      var profile := StrategyProfileFor(config.strategy).value;
      var actualStake := ActualStake(config.stakeType, config.initialBalance, config.stakeAmount);
      var n := TotalTrades(days, config.expiration, factor);
      var winRate := WinRate(profile, config.asset, adjustment, config.minConfidence);
      var payout := Payout(config.asset);
      if config.martingale.enabled {
        var run := RunConfig(actualStake, config.martingale.multiplier, config.martingale.maxLevels, payout, winRate);
        MartingaleRunFromStart(run, config.initialBalance, Draws(draw, n));
      } else {
        SimpleTallyCounts(n, winRate, actualStake, payout, config.initialBalance);
      }
    }
  }
}
