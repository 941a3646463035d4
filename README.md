# BASE44 trading engine — a Dafny model

This project models the decision and bookkeeping core of the BASE44 trading
dashboard. The original is a React application written in JavaScript. The
Dafny model covers these parts:

- **DecisionPanel**: the signal aggregator `analyzeIndicators`. It filters
  the indicator readings, then computes the weighted confidence, the 60 %
  consensus rule, the 0.4/0.6 blend, the thin-evidence and conflict
  penalties, the strategy threshold and the quality grade.
- **TradingRobot**: the heartbeat-driven robot. The strategy rules are
  predicates over a name-to-value map in which a missing name reads as
  `undefined`. The model also covers martingale direction inversion, entry
  sizing, stop-loss and take-profit placement, the exit checks in priority
  order, the martingale level update, the ten-entry history and the
  cooldown. The component's state is a `Robot` class, and each handler
  is proved against a pure step function.
- **MarketData**: the indicator learning engine. It holds per-indicator
  `{wins, total}` records in a class that the learning step updates in
  place. The model includes the "credit dissenters on a loss" rule and the
  accuracy and weight recomputation.
- **BinaryTerminal**: the entry rule (guards, CALL/PUT majority, percentage
  or fixed stake with a 0.35 floor, `toFixed(2)`, the `parseInt` of the
  expiration string) and the contract-update handler.
- **IndicatorPanel**: the consensus badge.
- **EntryConfigPanel**: the martingale risk arithmetic. The `for` loop of
  `calculateMaxRisk` is a method with its invariant.
- **Backtest**: `generateSimulatedData`. The martingale loop with `break` is
  a method proved to compute a recursive reference run, and the whole
  simulation is a method proved to compute a reference function. The random
  draws are inputs.
- **DerivApi**: the `DerivAPIManager` class, with its listener registry,
  pending-request table, message routing and connection events.
- **InvoicePreview**: line-item editing and the invoice total.
- **Settings**: the initial-configuration merge and the legacy `apiKeys`
  migration.
- **Pages**: URL to page resolution.
- **Logs**: log filtering and the per-level counts.

## How the model represents the source

- Numbers are exact `real`s. JavaScript `Math.round(x)` is `Floor(x + 0.5)`.
  `toFixed(2)` rounds half away from zero at two decimals.
- A `|| d` default is written out, so 0 (and a missing value) is replaced by
  the default.
- A value that may be missing or `NaN` is a `Number` (`Num`, `NaN`,
  `Absent`). A map lookup that may fail is an `Option`. A comparison with a
  missing value is false, as a comparison with `undefined` is.
- Clocks, timers and randomness are parameters:
  - the current time is an integer number of seconds;
  - the cooldown expiry is an explicit event (`CooldownElapsed`);
  - `Math.random()` draws are inputs (`draw`, `draws`);
  - `localStorage` contents are a `Saved` value;
  - the WebSocket's callbacks (`onopen`, `onclose`, `onerror`, an incoming
    message) are methods of the manager.
- React `setState` is a synchronous field update.

Two consequences of the code are easy to miss:
- Buys at 80 and 75 with a sell at 60 do not give a buy. The conflict
  penalty brings the confidence to 63, below the default threshold of 70,
  so the result is hold/poor (`DecisionPanel.WorkedExample`).
- The legacy `apiKeys` field is removed only when it is truthy. A falsy one
  (`null`, `""`) survives loading (`Settings.ApiKeyMigration`).

## Model

| member | source | states |
|---|---|---|
| Common.Round | src/components/dashboard/DecisionPanel.jsx:114 | `Math.round`: the result is within one half of its argument, and a half rounds up |
| Common.RoundTo2 | src/pages/BinaryTerminal.jsx:186 | `parseFloat(x.toFixed(2))`: a whole number of cents within half a cent of the argument, with the same sign; a value exactly halfway between two cents goes away from zero |
| Common.RoundHundredths | src/components/providers/MarketDataContext.jsx:187-188 | `Math.round(x * 100) / 100`: a whole number of hundredths, above x − 0.005 and at most x + 0.005 |
| Common.Filter | src/pages/Logs.jsx:92-95 | `Array.filter`: keeps exactly the elements that satisfy the predicate, in order, and no more of them than there are |
| Common.FilterAppend | src/pages/Logs.jsx:92-95 | filtering a concatenation filters each part, so order is preserved |
| Common.CountOfFilter | src/pages/Logs.jsx:99-102 | the length of a filter by key equals the number of elements with that key |
| Common.CountEachBound | src/pages/Logs.jsx:97-103 | counts for distinct keys add up to at most the length, and to exactly the length when every element has one of the keys |
| DecisionPanel.AnalyzeIndicators | src/components/dashboard/DecisionPanel.jsx:8-179 | the confidence is an integer in [0,100]; the detail counts are the valid, enabled, buy, sell and neutral counts; no valid reading gives hold/0/poor; a non-hold result meets the threshold; a hold is graded poor |
| DecisionPanel.ConsensusRule | src/components/dashboard/DecisionPanel.jsx:78-121 | the decision is a side iff that side has at least 60 % of the valid readings, more than the other side, and the final confidence meets the threshold |
| DecisionPanel.NoConsensusNoConfidence | src/components/dashboard/DecisionPanel.jsx:88-112 | without consensus the result is hold with confidence 0 and quality poor |
| DecisionPanel.QualityBands | src/components/dashboard/DecisionPanel.jsx:80-87 | a non-hold decision is excellent at 80 % agreement or more, good at 70 % or more, fair otherwise |
| DecisionPanel.SignalCountsPartition | src/components/dashboard/DecisionPanel.jsx:33-53 | buy + sell + neutral counts equal the valid count, which is at most the enabled count |
| DecisionPanel.WorkedExample | src/components/dashboard/DecisionPanel.jsx:99-121 | buys at 80 and 75 and a sell at 60 give weighted confidence 72, strength 67, final confidence 63, hence hold/poor under the default threshold 70 |
| DecisionPanel.WeightedConfidenceBounds | src/components/dashboard/DecisionPanel.jsx:56-64 | the weighted confidence lies between the least and the greatest confidence of the readings |
| DecisionPanel.ThinEvidenceCap | src/components/dashboard/DecisionPanel.jsx:104-107 | with fewer than three valid readings the confidence is at most 80 |
| DecisionPanel.PercentageAtLeast | src/components/dashboard/DecisionPanel.jsx:68-80 | a count's percentage reaches k exactly when 100·count ≥ k·total, so the 60 % test is an integer test |
| DecisionPanel.PercentageOrder | src/components/dashboard/DecisionPanel.jsx:80-84 | comparing two percentages of the same total compares the counts |
| TradingRobot.CountHolding | src/components/dashboard/TradingRobot.jsx:31-32 | the number of conditions that hold is at most the number of conditions |
| TradingRobot.StrategyDecision | src/components/dashboard/TradingRobot.jsx:156-162 | buy iff the buy rule holds; sell iff the buy rule fails and the sell rule holds; hold otherwise |
| TradingRobot.CurrentPrice | src/components/dashboard/TradingRobot.jsx:146 | the price used is the tick's price when there is a tick with a non-zero price, and 1.2550 otherwise; never 0 |
| TradingRobot.MartingaleSignal | src/components/dashboard/TradingRobot.jsx:180-188 | after a loss below the maximum level buy and sell are swapped; hold stays hold; otherwise the signal is kept |
| TradingRobot.EntrySide | src/components/dashboard/TradingRobot.jsx:190-196 | an entry happens only at or above the strategy threshold with a non-hold final signal, on the side of the martingale signal |
| TradingRobot.ExitCheck | src/components/dashboard/TradingRobot.jsx:265-285 | the exit is stop-loss exactly when the stop-loss is reached; take-profit only when it is reached and the stop-loss is not; the 120 s time limit only when neither price level is reached; no exit iff none of the three holds |
| TradingRobot.NextLevel | src/components/dashboard/TradingRobot.jsx:308-313 | a win resets the level to 0; a loss raises it by one up to 3; it stays within [0,3] |
| TradingRobot.PushHistory | src/components/dashboard/TradingRobot.jsx:305 | the closed trade goes first, the previous history follows in order, and at most 10 entries are kept |
| TradingRobot.Robot.constructor | src/components/dashboard/TradingRobot.jsx:65-70 | the robot starts stopped, with no trade, level 0 and an empty history |
| TradingRobot.Robot.SetActive | src/components/dashboard/TradingRobot.jsx:87-97 | activation waits for an entry with level 0 and no last result; deactivation stops and drops the open trade |
| TradingRobot.Robot.Heartbeat | src/components/dashboard/TradingRobot.jsx:332-349 | a beat analyses only in waiting_entry and monitors only in in_trade, and keeps the robot's invariant |
| TradingRobot.Robot.AnalyzeMarket | src/components/dashboard/TradingRobot.jsx:126-197 | the new state is the analysis step of the old one |
| TradingRobot.Robot.ExecuteTradeEntry | src/components/dashboard/TradingRobot.jsx:199-241 | status in_trade, and the open trade is built from the analysis, the level and the strategy's stop-loss and take-profit |
| TradingRobot.Robot.MonitorActiveTrade | src/components/dashboard/TradingRobot.jsx:243-290 | the new state is the monitoring step of the old one |
| TradingRobot.Robot.ExecuteTradeExit | src/components/dashboard/TradingRobot.jsx:292-327 | the new state is the exit step: history pushed, result and level updated, trade cleared, cooldown |
| TradingRobot.Robot.CooldownElapsed | src/components/dashboard/TradingRobot.jsx:323-327 | the end of the cooldown, corrected to act only on a robot that is cooling down |
| TradingRobot.HeartbeatPreservesValid | src/components/dashboard/TradingRobot.jsx:332-349 | a beat keeps the invariant: a trade is open exactly in in_trade, the level is in [0,3], the history has at most 10 entries |
| TradingRobot.ActivatePreservesValid | src/components/dashboard/TradingRobot.jsx:87-97 | activation and deactivation keep the invariant |
| TradingRobot.HeartbeatKeepsOrArchivesTrade | src/components/dashboard/TradingRobot.jsx:243-327 | an open trade is either kept (same trade, same history) or closed into the front of the history, with the robot in cooldown |
| TradingRobot.TradeOpensOnlyWhenConfident | src/components/dashboard/TradingRobot.jsx:126-208 | a trade opens only from waiting_entry with a known strategy, confidence at or above the threshold, a non-hold signal, the martingale-inverted side and size 100·2^level |
| TradingRobot.ExitMovesMartingale | src/components/dashboard/TradingRobot.jsx:292-313 | the result is win iff the final P&L is positive; a win resets the level, a loss raises it up to 3 |
| TradingRobot.EntrySizeDoubles | src/components/dashboard/TradingRobot.jsx:205-208 | each level doubles the entry size, which lies in [100,800] for levels up to 3 |
| TradingRobot.BracketOrder | src/components/dashboard/TradingRobot.jsx:212-227 | for positive percentages a buy has stop-loss < entry < take-profit and a sell the reverse |
| TradingRobot.NoSimultaneousExit | src/components/dashboard/TradingRobot.jsx:268-280 | for a trade opened with positive percentages, stop-loss and take-profit are never reached at the same price |
| TradingRobot.IndicatorValuesKeys | src/components/dashboard/TradingRobot.jsx:145 | the name-to-value map has exactly the names of the readings as keys |
| TradingRobot.IndicatorValuesLastWins | src/components/dashboard/TradingRobot.jsx:145 | a name maps to the value of the last reading with that name |
| TradingRobot.MissingNameIsUndefined | src/components/dashboard/TradingRobot.jsx:145-146 | a name the feed never provides reads as undefined |
| TradingRobot.CountHoldingOfFour | src/components/dashboard/TradingRobot.jsx:31-32 | for four conditions the count is the number of true ones |
| TradingRobot.FeedReadingsSilenceStrategies | src/components/dashboard/TradingRobot.jsx:9-20 | on the feed's readings, Scalping Pro and Trend Follower always hold, because Volume, EMA 20 and SMA 50 are never provided |
| TradingRobot.FeedReadingsEdgeAIBuy | src/components/dashboard/TradingRobot.jsx:28-33 | on the feed's readings, EdgeAI Engine buys iff RSI < 40, MACD > 0 and ADX > 20 all hold |
| TradingRobot.ScenarioEntersBuy | src/components/dashboard/TradingRobot.jsx:126-241 | a concrete EdgeAI beat from waiting_entry opens the expected buy trade |
| TradingRobot.ScenarioFirstTradeTimesOut | src/components/dashboard/TradingRobot.jsx:243-328 | the scenario's first buy, opened at second 0, passes the 120-second hold limit at second 121: the trade is closed and the robot, still active, is in cooldown |
| TradingRobot.StaleCooldownAbandonsTrade | src/components/dashboard/TradingRobot.jsx:292-327 | the cooldown timer as written, left pending across a stop and restart, moves a robot in a trade to waiting_entry, and the next beat opens another trade over it |
| TradingRobot.CooldownOnlyEndsCooldown | src/components/dashboard/TradingRobot.jsx:321-327 | the corrected timer leaves every state other than cooldown alone, ends an active cooldown, and keeps the invariant |
| TradingRobot.CooldownPreservesValid | src/components/dashboard/TradingRobot.jsx:321-327 | the corrected cooldown event keeps the invariant |
| MarketData.ClampConfidence | src/components/providers/MarketDataContext.jsx:124 | a generated confidence is an integer in [25,95], the rounded value when that lies in range |
| MarketData.GeneratedReading | src/components/providers/MarketDataContext.jsx:118-125 | a generated reading keeps the indicator's name and enabled flag and has confidence in [25,95] |
| MarketData.TradeDecision | src/components/providers/MarketDataContext.jsx:135-143 | buy iff buy > sell and buy ≥ 0.6 of the qualifying readings; sell symmetrically |
| MarketData.WinProbability | src/components/providers/MarketDataContext.jsx:153 | the win probability lies in [45,85], and is 0.8 × the average confidence when that is in range |
| MarketData.SimulatedOutcome | src/components/providers/MarketDataContext.jsx:154 | a draw below 45 always wins, a draw of 85 or more always loses |
| MarketData.ApplyCredits | src/components/providers/MarketDataContext.jsx:157-167 | crediting keeps the set of records |
| MarketData.QualifyingNamesKnown | src/components/providers/MarketDataContext.jsx:130-158 | every qualifying reading has a record |
| MarketData.WithPerformance | src/components/providers/MarketDataContext.jsx:173-191 | a published reading keeps its name, signal and confidence and carries its record's trade total |
| MarketData.PerformanceTracker.constructor | src/components/providers/MarketDataContext.jsx:32-37 | every feed indicator starts with record {wins 0, total 0} |
| MarketData.PerformanceTracker.Learn | src/components/providers/MarketDataContext.jsx:128-170 | the records after a learning step are the learning step of the records before, and wins ≤ total still holds |
| MarketData.PerformanceTracker.CreditAll | src/components/providers/MarketDataContext.jsx:157-167 | the in-place `forEach` loop computes the credit of every qualifying reading |
| MarketData.PerformanceTracker.Publish | src/components/providers/MarketDataContext.jsx:173-191 | each published reading carries the accuracy, weight and total of its record |
| MarketData.ApplyCreditsCounts | src/components/providers/MarketDataContext.jsx:157-167 | a record's total grows by the number of its qualifying readings, and its wins by the number of those credited |
| MarketData.LearnStepKeepsRecords | src/components/providers/MarketDataContext.jsx:157-167 | learning keeps the record names and wins ≤ total, and never lowers a total or a wins count |
| MarketData.NoLearningWithoutTrade | src/components/providers/MarketDataContext.jsx:128-145 | no record changes when the robot is inactive, fewer than two readings qualify, or the decision is hold |
| MarketData.CreditRule | src/components/providers/MarketDataContext.jsx:157-166 | crediting one reading adds a trade to its own record, and a win exactly when it backed a winning trade or opposed a losing one; every other record is unchanged |
| MarketData.AccuracyRange | src/components/providers/MarketDataContext.jsx:175-187 | accuracy lies in [0,100] and is 50 while the total is at most 5 |
| MarketData.WeightRange | src/components/providers/MarketDataContext.jsx:178-188 | weight lies in [0.4,1.5], is 0.8 for a fresh indicator, and at least 0.5 from ten trades on |
| MarketData.CreditOneKeepsWins | src/components/providers/MarketDataContext.jsx:159-166 | one credit keeps wins ≤ total |
| MarketData.CreditStep | src/components/providers/MarketDataContext.jsx:157-167 | crediting one more reading extends the credit of the prefix by that reading |
| BinaryTerminal.Direction | src/pages/BinaryTerminal.jsx:152-169 | CALL iff the average confidence meets the minimum and buys outnumber sells; PUT symmetrically; a tie places nothing |
| BinaryTerminal.StakeRule | src/pages/BinaryTerminal.jsx:172-186 | the stake is a whole number of cents; a percentage stake is at least 0.35, within half a cent of max(balance · amount / 100, 0.35) for a positive balance, and exactly 0.35 otherwise; a fixed stake is within half a cent of the amount |
| BinaryTerminal.Stake | src/pages/BinaryTerminal.jsx:186 | the stake sent is within half a cent of the computed stake |
| BinaryTerminal.IndexOf | src/pages/BinaryTerminal.jsx:193 | the position found holds the character, and no earlier position does |
| BinaryTerminal.RemoveFirst | src/pages/BinaryTerminal.jsx:193 | `replace('m', '')` makes the text one character shorter when it holds an 'm', and keeps its length otherwise |
| BinaryTerminal.TrimStart | src/pages/BinaryTerminal.jsx:193 | the trimmed text is no longer than the text and does not start with white space |
| BinaryTerminal.ParseInt | src/pages/BinaryTerminal.jsx:193 | `parseInt` reads a number only when something follows the leading white space, and a negative one only when that starts with '-' |
| BinaryTerminal.RemoveFirstSpec | src/pages/BinaryTerminal.jsx:193 | `replace('m', '')` leaves a text without 'm' unchanged, and otherwise removes exactly the character at the first 'm' |
| BinaryTerminal.TrimStartSpec | src/pages/BinaryTerminal.jsx:193 | `parseInt` skips leading white space: the rest is a suffix of the text, everything dropped is white space, and the rest does not start with white space |
| BinaryTerminal.DigitPrefix | src/pages/BinaryTerminal.jsx:193 | `parseInt` reads the longest prefix of digits |
| BinaryTerminal.ExpirationMinutes | src/pages/BinaryTerminal.jsx:193-197 | an expiration is accepted iff it parses to a positive number of minutes |
| BinaryTerminal.Numeral | src/pages/BinaryTerminal.jsx:193 | the decimal numeral of a number is a non-empty string of digits |
| BinaryTerminal.NumeralValue | src/pages/BinaryTerminal.jsx:193 | reading a numeral back gives the number |
| BinaryTerminal.ParseDecimal | src/pages/BinaryTerminal.jsx:193 | `parseInt` of a string of decimal digits is its value |
| BinaryTerminal.DigitsExpiration | src/pages/BinaryTerminal.jsx:193-197 | decimal digits worth more than zero, followed by "m", read back as that many minutes |
| BinaryTerminal.ExpirationRoundTrip | src/pages/BinaryTerminal.jsx:193-197 | for every positive n, "<n>m" parses to n minutes |
| BinaryTerminal.ExpirationExamples | src/pages/BinaryTerminal.jsx:193-197 | "1m" gives 1 and "15m" gives 15 |
| BinaryTerminal.RejectedExpirations | src/pages/BinaryTerminal.jsx:193-197 | "m", "0m" and "-2m" abort the entry |
| BinaryTerminal.NegativeExpiration | src/pages/BinaryTerminal.jsx:193 | "-2m" parses to -2, which the guard then rejects |
| BinaryTerminal.EntryRule | src/pages/BinaryTerminal.jsx:145-230 | an order is placed iff active, no contract open, broker connected, some indicator enabled, confidence met, no tie, positive stake and valid expiration; the order carries the symbol, stake, minutes and CALL/PUT |
| BinaryTerminal.EntryOrder | src/pages/BinaryTerminal.jsx:145-213 | an order is placed only when the robot is active, no contract is open and the broker is connected; it is for the selected symbol, at the rounded stake, which is positive |
| BinaryTerminal.Terminal.constructor | src/pages/BinaryTerminal.jsx:81-82 | the terminal starts with no active contract and no last result |
| BinaryTerminal.Terminal.HandleTradeUpdate | src/pages/BinaryTerminal.jsx:121-131 | a closed contract becomes the last result and clears the active one; an open one does the reverse; never both set |
| IndicatorPanel.CalculateConsensus | src/components/indicators/IndicatorPanel.jsx:8-31 | an empty list gives neutral, strength 0, zero counts; otherwise the counts are those of the enabled readings per signal |
| IndicatorPanel.SignalRule | src/components/indicators/IndicatorPanel.jsx:19-28 | buy iff buys exceed sells and neutrals; sell symmetrically; neutral otherwise |
| IndicatorPanel.CountsPartition | src/components/indicators/IndicatorPanel.jsx:11-14 | the three counts add up to at most the enabled count, and exactly to it when every signal is recognised |
| IndicatorPanel.StrengthIsTopShare | src/components/indicators/IndicatorPanel.jsx:17-30 | the strength is the rounded share of the enabled readings held by the winning signal, and in every case the share held by the largest of the three counts |
| IndicatorPanel.StrengthIsPercentage | src/components/indicators/IndicatorPanel.jsx:14-30 | the strength is NaN exactly when nothing is enabled, and otherwise an integer in [0,100] |
| IndicatorPanel.StrengthRange | src/components/indicators/IndicatorPanel.jsx:21-30 | a rounded share of the enabled count is defined iff something is enabled, and lies in [0,100] |
| IndicatorPanel.Strength | src/components/indicators/IndicatorPanel.jsx:21-30 | the strength is defined exactly when something is enabled, and is then the whole number nearest to count / total · 100 (a half rounds up) |
| IndicatorPanel.MaxCount | src/components/indicators/IndicatorPanel.jsx:27 | `Math.max` of the three counts: at least each of them, and equal to one of them |
| EntryConfigPanel.MaxRisk | src/components/trading/EntryConfigPanel.jsx:26-34 | the loop sums stake·multiplier^i over the levels; the stake itself without martingale; 0 for no levels |
| EntryConfigPanel.NextStake | src/components/trading/EntryConfigPanel.jsx:21-24 | the stake amount without martingale; stake amount · multiplier with it |
| EntryConfigPanel.RiskSum | src/components/trading/EntryConfigPanel.jsx:29-33 | the sum of stake · multiplier^i over the levels is non-negative for a non-negative stake and multiplier |
| EntryConfigPanel.NextStakeIsSecondLevel | src/components/trading/EntryConfigPanel.jsx:21-24 | the next stake is the second term of the risk sum |
| EntryConfigPanel.MaxRiskExample | src/components/trading/EntryConfigPanel.jsx:29-33 | stake 10, ×2, three levels gives 70 |
| EntryConfigPanel.RiskAtLeastStake | src/components/trading/EntryConfigPanel.jsx:29-33 | with a level and a non-negative stake and multiplier, the risk is at least the stake |
| EntryConfigPanel.RiskClosedForm | src/components/trading/EntryConfigPanel.jsx:29-33 | the risk sum times (m − 1) is stake · (m^levels − 1) |
| EntryConfigPanel.HandleMartingaleChange | src/components/trading/EntryConfigPanel.jsx:17-19 | exactly one martingale field is replaced; everything else is kept |
| EntryConfigPanel.MartingaleChangeIdempotent | src/components/trading/EntryConfigPanel.jsx:17-19 | applying the same change twice is applying it once; writing back the current value changes nothing |
| Backtest.TradesPerDay | src/pages/Backtest.jsx:95 | trades per day are 40, 30, 20 or 15 |
| Backtest.WinRate | src/pages/Backtest.jsx:99-112 | the win rate is an integer in [45,85] |
| Backtest.Payout | src/pages/Backtest.jsx:115-120 | the payout lies in [75,90] |
| Backtest.StrategyProfileFor | src/pages/Backtest.jsx:17-50 | a strategy profile exists exactly for the four keys volatility_scalping, crash_boom_hunter, step_pattern and multi_volatility; each has a recommended asset and a base win rate strictly between 0 and 100 |
| Backtest.ActualStake | src/pages/Backtest.jsx:89-91 | a fixed stake is the stake amount; a percentage stake is initial balance · amount / 100; non-negative for non-negative inputs |
| Backtest.TotalTrades | src/pages/Backtest.jsx:94-96 | `Math.floor(days · tradesPerDay · factor)`: the greatest integer not above the product; non-negative for non-negative days and factor |
| Backtest.TradeStep | src/pages/Backtest.jsx:135-164 | one trade adds one to the trades made and to wins + losses; it is a win exactly when the draw is below the win rate; a win resets the streak and adds stake · payout / 100, a loss takes the stake; the streak stays below the level bound; balance − profit + loss is unchanged; the lowest balance follows the balance down |
| Backtest.MartingaleRun | src/pages/Backtest.jsx:132-166 | the run makes at most one trade per draw, and a run that makes no trade leaves the state as it was |
| Backtest.SimpleTally | src/pages/Backtest.jsx:168-175 | wins are within one half of total · winRate / 100; losses are non-negative, and either 0 or total − wins; the lowest balance is the initial balance |
| Backtest.SimulatedData | src/pages/Backtest.jsx:84-209 | no report exactly for an unknown strategy key; the zero-balance outcome exactly for a known strategy with a zero initial balance |
| Backtest.MartingaleRunCounts | src/pages/Backtest.jsx:133-160 | the run makes at most one trade per draw; wins + losses grow by the trades made; the wins added are the winning draws among those used |
| Backtest.MartingaleRunMoney | src/pages/Backtest.jsx:144-164 | balance − profit + loss is unchanged by the run; the lowest balance never rises and stays at most the balance |
| Backtest.MartingaleRunStops | src/pages/Backtest.jsx:135-158 | the streak stays below maxLevels (below 1 when maxLevels ≤ 1); a run that leaves draws unused stopped at a stake larger than the balance |
| Backtest.MartingaleRunNonNegative | src/pages/Backtest.jsx:135-151 | with a non-negative stake, multiplier and payout, balance, lowest balance, profit and loss stay non-negative |
| Backtest.MartingaleRunFromStart | src/pages/Backtest.jsx:124-166 | from the initial balance: trades ≤ draws, wins + losses = trades, wins = winning draws used, balance = initial + profit − loss, lowest balance ≤ initial and ≤ final, the streak bound, the stop rule, and non-negativity |
| Backtest.SimulateMartingale | src/pages/Backtest.jsx:132-166 | the loop computes the reference run `MartingaleRun` (balance, lowest balance, counts, profit, loss, streak and trades made); hence wins + losses = trades processed ≤ total, wins count the winning draws, balance = initial + profit − loss, the streak stays below maxLevels, the loop stops early only when the stake exceeds the balance, and non-negative inputs keep the balance non-negative |
| Backtest.StakeCap | src/pages/Backtest.jsx:135-158 | with multiplier ≥ 1 a stake never exceeds actualStake·multiplier^(maxLevels−1) |
| Backtest.SimpleTallyCounts | src/pages/Backtest.jsx:168-175 | without martingale, wins are `Math.round(total · winRate / 100)`; losses are total − wins, raised to 0 when negative; profit is wins · stake · payout / 100 and loss is losses · stake; for a non-negative total, wins lie in [0, total] and wins + losses = total; balance = initial + profit − loss |
| Backtest.SimpleDrawdown | src/pages/Backtest.jsx:179 | with a non-negative loss and a positive initial balance the drawdown is loss / initial · 50 + 5; it is never negative, and whenever it is at least 5 it is that formula |
| Backtest.FloorBalance | src/pages/Backtest.jsx:183-184 | the final balance is at least 10 % of the initial balance and positive, and unchanged when it already is |
| Backtest.ProfitFactor | src/pages/Backtest.jsx:188 | profit/loss when there is a loss; 999 with profit and no loss; 0 otherwise |
| Backtest.MartingaleDrawdown | src/pages/Backtest.jsx:191-194 | when the balance fell (a non-negative relative fall), drawdown · initial = (initial − lowest) · 100; otherwise 0; never negative |
| Backtest.MartingaleDrawdownRange | src/pages/Backtest.jsx:191-194 | the drawdown is at most 100 for a non-negative minimum, and 0 when the balance never fell |
| Backtest.Summarise | src/pages/Backtest.jsx:182-209 | the summary reports the run's wins and losses, the trade count, win rate, payout, stake and strategy name; the final balance, net result, total return, drawdown and profit factor are each within half a cent of their exact values (`toFixed(2)`); balance and drawdown are non-negative |
| Backtest.GenerateSimulatedData | src/pages/Backtest.jsx:84-209 | the page's simulation computes the reference backtest `SimulatedData` |
| Backtest.SimulatedDataFacts | src/pages/Backtest.jsx:84-209 | a report names the strategy, gives the trade count and the stake, a win rate in [45,85], a payout in [75,90], a non-negative balance and drawdown, at most the planned number of trades (exactly that many without martingale), and with martingale wins equal to the winning draws among the trades made |
| DerivApi.Without | src/components/api/DerivAPI.jsx:27-33 | `off` removes the callback and keeps every other one |
| DerivApi.WithoutKeepsOthers | src/components/api/DerivAPI.jsx:29-31 | every other callback keeps its number of registrations |
| DerivApi.WithoutAppend | src/components/api/DerivAPI.jsx:29-31 | removal distributes over concatenation, so the order of the rest is kept |
| DerivApi.WithoutAbsent | src/components/api/DerivAPI.jsx:29-31 | removing an unregistered callback changes nothing |
| DerivApi.Dispatch | src/components/api/DerivAPI.jsx:35-39 | `emit` calls each listener of the event once, in registration order, with the data; none for an unknown event |
| DerivApi.Deliver | src/components/api/DerivAPI.jsx:37 | one delivery per callback, in order |
| DerivApi.DispatchAfterOn | src/components/api/DerivAPI.jsx:20-39 | after `on`, an emit reaches the earlier listeners and then the new one |
| DerivApi.DispatchAfterOff | src/components/api/DerivAPI.jsx:27-39 | after `off`, an emit never reaches the removed callback |
| DerivApi.RouteOtherTypesSilent | src/components/api/DerivAPI.jsx:183-196 | a message of any other type emits nothing |
| DerivApi.Route | src/components/api/DerivAPI.jsx:182-196 | every delivery carries the payload of the message's own type: the balance, the open contract or the transaction |
| DerivApi.RouteBalance | src/components/api/DerivAPI.jsx:183-186 | a balance message with a truthy balance emits balance_update, otherwise nothing |
| DerivApi.RouteContractUpdate | src/components/api/DerivAPI.jsx:187-189 | a proposal_open_contract message emits trade_update |
| DerivApi.RouteTransaction | src/components/api/DerivAPI.jsx:190-196 | a transaction emits transaction, followed by trade_result when its action is sell |
| DerivApi.NextIdFresh | src/components/api/DerivAPI.jsx:151-152 | a new id is not pending, and all pending ids stay below the counter |
| DerivApi.RemovalKeepsIdsBelow | src/components/api/DerivAPI.jsx:159-180 | removing a pending entry keeps the ids below the counter |
| DerivApi.DerivApiManager.constructor | src/components/api/DerivAPI.jsx:8-17 | no socket, counter 1, no pending request, no listener, disconnected, no auth data or balance |
| DerivApi.DerivApiManager.On | src/components/api/DerivAPI.jsx:20-25 | appends the callback to the event's list, nothing else changes |
| DerivApi.DerivApiManager.Off | src/components/api/DerivAPI.jsx:27-33 | the event's list loses that callback; an unknown event is left alone |
| DerivApi.DerivApiManager.Emit | src/components/api/DerivAPI.jsx:35-39 | the loop calls exactly the deliveries of `Dispatch` |
| DerivApi.DerivApiManager.Connect | src/components/api/DerivAPI.jsx:42-53 | status connecting, emitted to the status listeners, and a new socket opening |
| DerivApi.DerivApiManager.SocketOpened | src/components/api/DerivAPI.jsx:55-59 | the authorize request takes the counter as its id and becomes pending |
| DerivApi.DerivApiManager.ConnectionEstablished | src/components/api/DerivAPI.jsx:70-103 | auth data and balance stored, connected, and status then balance emitted |
| DerivApi.DerivApiManager.ConnectionFailed | src/components/api/DerivAPI.jsx:60-129 | status becomes error and "error" is emitted; when the failure came after the authorization reply, that reply is kept as the account data, and nothing else changes |
| DerivApi.DerivApiManager.SocketClosed | src/components/api/DerivAPI.jsx:118-122 | status disconnected, emitted |
| DerivApi.DerivApiManager.Disconnect | src/components/api/DerivAPI.jsx:133-141 | no socket, disconnected, auth data and balance cleared |
| DerivApi.DerivApiManager.SendRequest | src/components/api/DerivAPI.jsx:144-157 | a socket that is not open rejects without allocating an id; otherwise the id is the old counter, fresh, pending, and the counter increases |
| DerivApi.DerivApiManager.Timeout | src/components/api/DerivAPI.jsx:159-164 | rejects iff the request is still pending, and it is pending no more |
| DerivApi.DerivApiManager.HandleMessage | src/components/api/DerivAPI.jsx:169-200 | a message whose req_id is pending resolves and removes it and emits nothing; any other message is routed by type |
| InvoicePreview.ChangedTotals | src/components/upload/InvoicePreview.jsx:50-66 | a quantity or price change sets the total to quantity × price (missing or NaN as 0); a description change keeps the total; only the changed field and the total move |
| InvoicePreview.TotalAppend | src/components/upload/InvoicePreview.jsx:87-89 | the invoice total of a concatenation is the sum of the totals |
| InvoicePreview.TotalSplit | src/components/upload/InvoicePreview.jsx:87-89 | each line contributes its own total once |
| InvoicePreview.WithoutIndexSpec | src/components/upload/InvoicePreview.jsx:80-85 | removal drops exactly the line at the index and keeps the rest in order; an index out of range changes nothing |
| InvoicePreview.RemoveLowersTotal | src/components/upload/InvoicePreview.jsx:80-89 | removing a line lowers the total by that line's total |
| InvoicePreview.AddKeepsTotal | src/components/upload/InvoicePreview.jsx:68-89 | adding the blank line keeps the total |
| InvoicePreview.ChangeMovesTotal | src/components/upload/InvoicePreview.jsx:50-89 | a field change moves the total by the change of that line's total |
| InvoicePreview.InvoiceEditor.constructor | src/components/upload/InvoicePreview.jsx:41 | the editor holds the extracted items |
| InvoicePreview.InvoiceEditor.HandleItemChange | src/components/upload/InvoicePreview.jsx:50-66 | the item at the index becomes the changed item; length and all other items are kept |
| InvoicePreview.InvoiceEditor.AddNewItem | src/components/upload/InvoicePreview.jsx:68-78 | appends the line {"", 1, 0, 0} |
| InvoicePreview.InvoiceEditor.RemoveItem | src/components/upload/InvoicePreview.jsx:80-85 | the items become the list without that index |
| Settings.LoadConfig | src/components/providers/SettingsContext.jsx:24-51 | the loader, with its in-place broker migration, yields the loaded configuration |
| Settings.NothingSavedGivesDefaults | src/components/providers/SettingsContext.jsx:8-50 | nothing saved, an unparsable text and a saved null all give exactly the defaults |
| Settings.TopLevelOverride | src/components/providers/SettingsContext.jsx:30-32 | a saved top-level field replaces the default whole; a field not saved keeps its default |
| Settings.BrokerMergedFieldByField | src/components/providers/SettingsContext.jsx:33-36 | the broker has every default field, the saved value where there is one, the default otherwise |
| Settings.ApiKeyMigration | src/components/providers/SettingsContext.jsx:40-43 | a truthy apiKeys sets apiKey from it and is removed; otherwise the broker is the merged one; a surviving apiKeys is falsy |
| Settings.LegacyKeyChoice | src/components/providers/SettingsContext.jsx:41 | the legacy key is demo, else real, else the empty string |
| Settings.DecimalStringExample | src/components/providers/SettingsContext.jsx:32 | index 12 is written "12" and index 7 is written "7" |
| Settings.DecimalStringInjective | src/components/providers/SettingsContext.jsx:32 | distinct indices are written differently |
| Settings.IndexedSpec | src/components/providers/SettingsContext.jsx:32 | spreading an array gives, for every index, the key written as that decimal numeral holding the element at that index, and no other key |
| Pages.LowerSpec | src/pages/index.jsx:46 | lower-casing keeps the length and maps each character |
| Pages.DropTrailingSlash | src/pages/index.jsx:38-40 | the URL is the result, or the result followed by one slash; the result equals the URL exactly when the URL is empty or does not end in a slash |
| Pages.LastSegment | src/pages/index.jsx:41 | the last segment is the suffix after the last slash |
| Pages.BeforeQuery | src/pages/index.jsx:42-44 | the part before the first '?' |
| Pages.FindPage | src/pages/index.jsx:46 | a page found is one of the names |
| Pages.FindPageSpec | src/pages/index.jsx:46 | a page found matches the segment case-insensitively; none is found iff no name matches |
| Pages.CurrentPage | src/pages/index.jsx:19-47 | the result is always a page name, and "AI" when nothing matches |
| Pages.CurrentPageMatches | src/pages/index.jsx:46-47 | a result other than "AI" matches the segment case-insensitively |
| Pages.CaseInsensitive | src/pages/index.jsx:46 | segments equal up to case find the same page |
| Pages.TrailingSlashIgnored | src/pages/index.jsx:38-40 | one trailing slash does not change the page |
| Pages.OnlyLastSegmentMatters | src/pages/index.jsx:41 | the path before the last slash is ignored |
| Pages.QueryIgnored | src/pages/index.jsx:42-44 | a query after '?' is ignored |
| Pages.PlainSegment | src/pages/index.jsx:38-44 | a plain last segment is the segment looked up |
| Pages.FirstMatches | src/pages/index.jsx:46 | `find` returns the first name that matches |
| Pages.ShowsFound | src/pages/index.jsx:46-47 | the page found for the segment is the page shown |
| Pages.FindsDistinct | src/pages/index.jsx:46 | a listed name is found as itself when every earlier name differs from it in length or in its first letter ignoring case |
| Pages.LogsExample | src/pages/index.jsx:38-47 | "/Logs" shows Logs |
| Pages.LowerCaseExample | src/pages/index.jsx:46 | "/binaryterminal" shows BinaryTerminal |
| Pages.SlashExample | src/pages/index.jsx:38-40 | "/Logs/" shows Logs |
| Pages.QueryExample | src/pages/index.jsx:42-44 | "/Logs?x=1" shows Logs |
| Pages.PathExample | src/pages/index.jsx:41 | "/a/Settings" shows Settings |
| Pages.RootExample | src/pages/index.jsx:47 | "/" shows the first page, AI |
| Logs.AllShowsEverything | src/pages/Logs.jsx:92-93 | the filter "all" shows every entry in order |
| Logs.LevelFilterExact | src/pages/Logs.jsx:92-95 | any other filter shows exactly the entries of that level, as many as there are, in their original order |
| Logs.CountsPartition | src/pages/Logs.jsx:97-103 | the total is the length and each count is the number of entries of its level; the four add up to at most the total, exactly when every entry has one of the four levels |
| Logs.LevelCountsBound | src/pages/Logs.jsx:99-102 | the four level counts add up to at most the number of entries |

## Left out

- Rendering, React hooks and effects' scheduling, refs and state batching: `setState` is a synchronous update.
- `Math.random`: price, candle and signal generation in MarketDataContext.jsx:44-126, and the Backtest random draws and equity curve. The draws are inputs, and the generation itself is not modelled.
- Timers and the clock (`setInterval`, `setTimeout`, `Date.now`, `new Date`): time is an integer number of seconds and each timer's expiry is an explicit event.
- IEEE floating point: all arithmetic is exact. `toFixed(2)` is modelled where its value is used: the terminal's stake (`BinaryTerminal.Stake`) and the five rounded figures of the backtest summary (`Backtest.Summarise`).
- The reasoning strings of the decision panel and of the robot: they are display text.
- TradingRobot.Robot.SetActive: deactivation drops the open trade without archiving it, as the activation effect does; the heartbeat effect's own `setRobotStatus('stopped')` is folded into it.
- TradingRobot: a `null` indicator value in a strategy rule is treated like `undefined`, so the comparison is false. JavaScript would compare `null` as 0.
- MarketData.PerformanceTracker.Learn: requires that every reading has a record (`NamesKnown`). A reading with an unknown name would make the source throw.
- BinaryTerminal.TrimStart: skips ASCII white space, the no-break space, the byte-order mark and the line and paragraph separators. The other Unicode space separators that `parseInt` also skips are not modelled.
- BinaryTerminal: the entry effect is modelled as the pure function `EntryOrder`. The order is sent through `buyContract`, a network call that is not modelled. `handleBalanceUpdate` is not modelled either.
- IndicatorPanel.CalculateConsensus: the NaN strength of a non-empty list with nothing enabled is `None`.
- DerivApi: the authorisation and balance response checks, `JSON.parse` of incoming frames, the socket's `send` and `buyContract` are not modelled. Connecting is modelled as a sequence of events.
- DerivApi: event names that coincide with `Object.prototype` members (such as "constructor") are ordinary names here.
- DerivApi: a replaced socket's late `onclose` is not modelled.
- InvoicePreview: an absent `items` list is treated as empty. The rest of `editedData`, `handleInputChange` and the save call are not modelled.
- Settings: key order of JSON objects is not modelled. Writing the configuration back to `localStorage` is I/O and is left out.
- Pages: `toLowerCase` is modelled for ASCII letters only. Other case mappings, such as the Kelvin sign, are not modelled.
- Backtest: the day count from the two dates, the trade-count factor, the win-rate adjustment and the per-trade draws are inputs of `GenerateSimulatedData`. The equity curve drawn after the summary (Backtest.jsx:211-227) is random and is not modelled.
- Backtest.SimulatedData: an unknown strategy key gives `UnknownStrategy`, where the page throws reading `strategy.winRate`. A zero initial balance gives `ZeroBalance`, where the page divides by zero and shows Infinity or NaN figures.
- Backtest.Summarise: requires a non-zero initial balance, because the page divides by it; `SimulatedData` handles that case as `ZeroBalance`.
- Backtest.SimpleDrawdown: requires a non-zero initial balance, for the same division.
- Backtest.MartingaleDrawdown: requires a non-zero initial balance, for the same division.
- Backtest: strategy keys and asset names that coincide with `Object.prototype` members (such as "constructor") are ordinary unknown names here.
- TradingRobot.Robot.ExecuteTradeEntry: the `onTradeExecuted` notification to the parent component (TradingRobot.jsx:238-240) is a callback into code outside the model and is not modelled.
- TradingRobot: a strategy name that coincides with an `Object.prototype` member (such as "constructor") is an unknown strategy here, whereas the `STRATEGY_LOGIC` lookup would find the inherited member.

## Findings

| source | as written | input that shows it | evidently intended | confidence | as-written member | corrected member |
|---|---|---|---|---|---|---|
| src/components/dashboard/TradingRobot.jsx:321-327 | the cooldown timer is never cancelled, and when it fires it sets waiting_entry whenever the robot is active, whatever the status is by then | EdgeAI buy entered at second 0 and closed on the time limit at 121, robot stopped and restarted, new entry at 125; the first timer fires at 131 and the beat at 132 opens a new trade over the one of second 125, which is never monitored or archived | the timer should end only a cooldown, leaving a robot that is in a trade alone | not executed | TradingRobot.StaleCooldownAbandonsTrade | TradingRobot.CooldownOnlyEndsCooldown |
