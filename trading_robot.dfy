/**
 * The trading robot: strategy rules over named indicator values, martingale
 * sizing and direction inversion, stop-loss/take-profit placement, the exit
 * checks, and the heartbeat-driven controller over the robot's status, open
 * trade, martingale level, last result and the ten most recent closed trades.
 *
 * Wall-clock time is an integer number of seconds passed in by the caller;
 * the end of the cooldown delay is an explicit event.
 */
module TradingRobot {
  import opened Common

  // The general robot configuration.
  const BaseEntrySize: real := 100.0
  /** Seconds an open trade may be held. */
  const MaxHoldTime: int := 120
  /** Seconds between an exit and the cooldown event. */
  const CooldownTime: int := 10
  const MartingaleEnabled: bool := true
  const MartingaleMultiplier: real := 2.0
  const MaxMartingaleLevels: nat := 3

  const DefaultPrice: real := 1.2550
  const DefaultSymbol: string := "EUR/USD"
  const DefaultStopLossPercent: real := 2.0
  const DefaultTakeProfitPercent: real := 4.0
  const DefaultMinConfidence: real := 70.0
  /** The key under which the current price joins the indicator values. */
  const PriceKey: string := "currentPrice"
  /** The strategy name recorded when no strategy is active. */
  const NoStrategyName: string := "Nenhuma"

  // ---------------------------------------------------------------------
  // Strategy rules as data

  datatype Operand = Key(name: string) | Const(c: real)

  /** `values[name] < right` or `values[name] > right`. */
  datatype Comparison = Below(name: string, right: Operand) | Above(name: string, right: Operand)

  /** Every comparison holds, or at least `k` of them do. */
  datatype Rule = AllOf(conds: seq<Comparison>) | AtLeast(k: nat, conds: seq<Comparison>)

  datatype StrategyLogic = StrategyLogic(buy: Rule, sell: Rule)

  const ScalpingPro: StrategyLogic := StrategyLogic(
    AllOf([Below("RSI", Const(30.0)), Above("MACD", Const(0.0)), Above("Volume", Const(150000.0))]),
    AllOf([Above("RSI", Const(70.0)), Below("MACD", Const(0.0)), Above("Volume", Const(150000.0))]))

  const TrendFollower: StrategyLogic := StrategyLogic(
    AllOf([Above("EMA 20", Key("SMA 50")), Above("ADX", Const(25.0))]),
    AllOf([Below("EMA 20", Key("SMA 50")), Above("ADX", Const(25.0))]))

  const MeanReversion: StrategyLogic := StrategyLogic(
    AllOf([Below("RSI", Const(25.0)), Above("Bollinger Bands", Const(1.25))]),
    AllOf([Above("RSI", Const(75.0)), Below("Bollinger Bands", Const(1.26))]))

  const EdgeAIEngine: StrategyLogic := StrategyLogic(
    AtLeast(3, [Below("RSI", Const(40.0)), Above("MACD", Const(0.0)),
                Above("ADX", Const(20.0)), Above("Volume", Const(120000.0))]),
    AtLeast(3, [Above("RSI", Const(60.0)), Below("MACD", Const(0.0)),
                Above("ADX", Const(20.0)), Above("Volume", Const(120000.0))]))

  /** The rules of the four known strategies, looked up by name. */
  function StrategyLogicFor(name: string): Option<StrategyLogic>
  {
    if name == "Scalping Pro" then Some(ScalpingPro)
    else if name == "Trend Follower" then Some(TrendFollower)
    else if name == "Mean Reversion" then Some(MeanReversion)
    else if name == "EdgeAI Engine" then Some(EdgeAIEngine)
    else None
  }

  /** The name-to-value map the rules read: each reading's value under its
      name (a later reading with the same name wins). */
  function IndicatorValues(indicators: seq<Indicator>): map<string, Number>
  {
    if indicators == [] then map[]
    else
      var last := indicators[|indicators| - 1];
      IndicatorValues(indicators[..|indicators| - 1])[last.name := last.value]
  }

  function IndicatorData(indicators: seq<Indicator>, price: real): map<string, Number>
  {
    IndicatorValues(indicators)[PriceKey := Num(price)]
  }

  /** Reading a name the map lacks gives `undefined`, and a NaN value is no
      number either: both are `None`, and every comparison with `None` is
      false. */
  function Lookup(data: map<string, Number>, name: string): Option<real>
  {
    if name in data && data[name].Num? then Some(data[name].x) else None
  }

  function OperandValue(data: map<string, Number>, o: Operand): Option<real>
  {
    match o
    case Key(name) => Lookup(data, name)
    case Const(c) => Some(c)
  }

  predicate Holds(data: map<string, Number>, c: Comparison)
  {
    var l := Lookup(data, c.name);
    var r := OperandValue(data, c.right);
    l.Some? && r.Some? &&
    match c
    case Below(_, _) => l.value < r.value
    case Above(_, _) => l.value > r.value
  }

  function CountHolding(data: map<string, Number>, cs: seq<Comparison>): (n: nat)
    ensures n <= |cs|
  {
    if cs == [] then 0 else (if Holds(data, cs[0]) then 1 else 0) + CountHolding(data, cs[1..])
  }

  predicate RuleHolds(data: map<string, Number>, rule: Rule)
  {
    match rule
    case AllOf(cs) => forall i :: 0 <= i < |cs| ==> Holds(data, cs[i])
    case AtLeast(k, cs) => CountHolding(data, cs) >= k
  }

  /** The buy rule is tried first, then the sell rule. */
  function StrategyDecision(logic: StrategyLogic, data: map<string, Number>): (d: Decision)
    ensures d == Take(Buy) <==> RuleHolds(data, logic.buy)
    ensures d == Take(Sell) <==> !RuleHolds(data, logic.buy) && RuleHolds(data, logic.sell)
  {
    if RuleHolds(data, logic.buy) then Take(Buy)
    else if RuleHolds(data, logic.sell) then Take(Sell)
    else Hold
  }

  // ---------------------------------------------------------------------
  // Analysis, sizing and placement

  datatype Tick = Tick(symbol: string, price: real)

  datatype MarketAnalysis = MarketAnalysis(signal: Decision, confidence: int, strategy: string, currentPrice: real)

  /** `currentTick?.price || 1.2550` */
  function CurrentPrice(tick: Option<Tick>): (p: real)
    ensures p != 0.0
    ensures tick.Some? && tick.value.price != 0.0 ==> p == tick.value.price
    ensures !(tick.Some? && tick.value.price != 0.0) ==> p == DefaultPrice
  {
    if tick.Some? then Or(Some(tick.value.price), DefaultPrice) else DefaultPrice
  }

  /** `currentTick?.symbol || 'EUR/USD'` */
  function TickSymbol(tick: Option<Tick>): string
  {
    if tick.Some? && tick.value.symbol != "" then tick.value.symbol else DefaultSymbol
  }

  /** The mean confidence of all readings, enabled or not; 50 without any. */
  function AverageConfidence(indicators: seq<Indicator>): real
  {
    if |indicators| > 0 then SumConfidence(indicators) as real / |indicators| as real else 50.0
  }

  function AnalysisFor(indicators: seq<Indicator>, price: real, strategy: Strategy, logic: StrategyLogic): MarketAnalysis
  {
    MarketAnalysis(
      StrategyDecision(logic, IndicatorData(indicators, price)),
      Round(AverageConfidence(indicators)),
      strategy.name,
      price)
  }

  /** After a loss, while the martingale level is below its maximum, the
      robot bets against the strategy's signal; hold stays hold. */
  function MartingaleSignal(signal: Decision, lastResult: Option<Outcome>, level: nat): (r: Decision)
    ensures signal == Hold ==> r == Hold
    ensures lastResult != Some(Loss) ==> r == signal
    ensures level >= MaxMartingaleLevels ==> r == signal
    ensures signal.Take? && lastResult == Some(Loss) && level < MaxMartingaleLevels ==>
      r == Take(Opposite(signal.side))
  {
    if MartingaleEnabled && lastResult == Some(Loss) && level < MaxMartingaleLevels then
      match signal
      case Take(side) => Take(Opposite(side))
      case Hold => Hold
    else signal
  }

  function StrategyThreshold(strategy: Strategy): real
  {
    Or(strategy.minConfidenceThreshold, DefaultMinConfidence)
  }

  /** The side on which a trade opens, if one opens. */
  function EntrySide(analysis: MarketAnalysis, lastResult: Option<Outcome>, level: nat, strategy: Strategy): (r: Option<Side>)
    ensures r.Some? ==> analysis.confidence as real >= StrategyThreshold(strategy)
    ensures r.Some? ==> analysis.signal.Take?
    ensures r.Some? ==> r.value == MartingaleSignal(analysis.signal, lastResult, level).side
    ensures r.None? ==>
      (analysis.confidence as real < StrategyThreshold(strategy)
       || MartingaleSignal(analysis.signal, lastResult, level) == Hold)
  {
    var s := MartingaleSignal(analysis.signal, lastResult, level);
    if analysis.confidence as real >= StrategyThreshold(strategy) && s != Hold then Some(s.side) else None
  }

  /** 100 at level 0, 100 · 2^level above. */
  function EntrySize(level: nat): real
  {
    if MartingaleEnabled && level > 0 then BaseEntrySize * Pow(MartingaleMultiplier, level) else BaseEntrySize
  }

  function StopLossPrice(side: Side, price: real, percent: real): real
  {
    if side == Buy then price * (1.0 - percent / 100.0) else price * (1.0 + percent / 100.0)
  }

  function TakeProfitPrice(side: Side, price: real, percent: real): real
  {
    if side == Buy then price * (1.0 + percent / 100.0) else price * (1.0 - percent / 100.0)
  }

  function StopLossPercent(strategy: Strategy): real
  {
    if strategy.parameters.Some? then Or(strategy.parameters.value.stopLoss, DefaultStopLossPercent)
    else DefaultStopLossPercent
  }

  function TakeProfitPercent(strategy: Strategy): real
  {
    if strategy.parameters.Some? then Or(strategy.parameters.value.takeProfit, DefaultTakeProfitPercent)
    else DefaultTakeProfitPercent
  }

  datatype Trade = Trade(
    id: int,
    symbol: string,
    side: Side,
    entryPrice: real,
    entryTime: int,
    quantity: real,
    stopLoss: real,
    takeProfit: real,
    confidence: int,
    pnl: real,
    currentPrice: Option<real>,
    martingaleLevel: nat,
    strategy: string,
    isReverse: bool)

  function OpenTrade(now: int, analysis: MarketAnalysis, side: Side, level: nat, lastResult: Option<Outcome>,
                     tick: Option<Tick>, strategy: Strategy): Trade
  {
    var price := analysis.currentPrice;
    Trade(now, TickSymbol(tick), side, price, now, EntrySize(level),
          StopLossPrice(side, price, StopLossPercent(strategy)),
          TakeProfitPrice(side, price, TakeProfitPercent(strategy)),
          analysis.confidence, 0.0, None, level, analysis.strategy,
          lastResult == Some(Loss) && level > 0)
  }

  // ---------------------------------------------------------------------
  // Monitoring and exit

  datatype ExitReason = StopLoss | TakeProfit | TimeLimit

  datatype ClosedTrade = ClosedTrade(trade: Trade, exitPrice: real, exitTime: int, exitReason: ExitReason, finalPnL: real)

  /** Profit or loss of the position, in percent of the entry price. */
  function PnlPercent(side: Side, entry: real, price: real): real
    requires entry != 0.0
  {
    if side == Buy then (price - entry) / entry * 100.0 else (entry - price) / entry * 100.0
  }

  predicate StopLossReached(t: Trade, price: real)
  {
    (t.side == Buy && price <= t.stopLoss) || (t.side == Sell && price >= t.stopLoss)
  }

  predicate TakeProfitReached(t: Trade, price: real)
  {
    (t.side == Buy && price >= t.takeProfit) || (t.side == Sell && price <= t.takeProfit)
  }

  /** The exit checks in their fixed order: stop-loss, take-profit, then a
      hold time above the maximum; the first that applies is the reason. */
  function ExitCheck(t: Trade, price: real, now: int): (r: Option<ExitReason>)
    ensures r == Some(StopLoss) <==> StopLossReached(t, price)
    ensures r == Some(TakeProfit) ==> TakeProfitReached(t, price) && !StopLossReached(t, price)
    ensures r == Some(TimeLimit) ==>
      now - t.entryTime > MaxHoldTime && !StopLossReached(t, price) && !TakeProfitReached(t, price)
    ensures r == None <==>
      !StopLossReached(t, price) && !TakeProfitReached(t, price) && now - t.entryTime <= MaxHoldTime
  {
    if StopLossReached(t, price) then Some(StopLoss)
    else if TakeProfitReached(t, price) then Some(TakeProfit)
    else if now - t.entryTime > MaxHoldTime then Some(TimeLimit)
    else None
  }

  function OutcomeOf(finalPnL: real): Outcome
  {
    if finalPnL > 0.0 then Win else Loss
  }

  /** The martingale level after a trade: back to 0 after a win, one up
      (capped at the maximum) after a loss. */
  function NextLevel(level: nat, outcome: Outcome): (r: nat)
    ensures outcome == Win ==> r == 0
    ensures outcome == Loss ==> r == if level + 1 < MaxMartingaleLevels then level + 1 else MaxMartingaleLevels
    ensures level <= MaxMartingaleLevels ==> r <= MaxMartingaleLevels
  {
    if outcome == Loss then
      if level + 1 < MaxMartingaleLevels then level + 1 else MaxMartingaleLevels
    else 0
  }

  /** `[closed, ...history.slice(0, 9)]` */
  function PushHistory(closed: ClosedTrade, history: seq<ClosedTrade>): (r: seq<ClosedTrade>)
    ensures |r| == if |history| < 9 then |history| + 1 else 10
    ensures r[0] == closed
    ensures forall i :: 1 <= i < |r| ==> r[i] == history[i - 1]
  {
    [closed] + history[..if |history| < 9 then |history| else 9]
  }

  // ---------------------------------------------------------------------
  // The controller

  datatype Status = Stopped | WaitingEntry | Analyzing | InTrade | WaitingResult | Cooldown

  /** A snapshot of the robot's fields. */
  datatype RobotState = RobotState(
    isActive: bool,
    status: Status,
    currentTrade: Option<Trade>,
    lastAnalysis: Option<MarketAnalysis>,
    tradeHistory: seq<ClosedTrade>,
    martingaleLevel: nat,
    lastTradeResult: Option<Outcome>)

  const Initial: RobotState := RobotState(false, Stopped, None, None, [], 0, None)

  /** The robot's invariant between events: stopped exactly when inactive,
      never caught in a transient status, an open trade exactly when in
      trade, a martingale level of at most 3 and at most ten closed trades. */
  predicate ValidState(s: RobotState)
  {
    && (s.isActive <==> s.status != Stopped)
    && s.status != Analyzing && s.status != WaitingResult
    && (s.status == InTrade <==> s.currentTrade.Some?)
    && (s.currentTrade.Some? ==> s.currentTrade.value.entryPrice != 0.0)
    && s.martingaleLevel <= MaxMartingaleLevels
    && |s.tradeHistory| <= 10
  }

  /** The effect of the external on/off switch changing. */
  function ActivateStep(s: RobotState, active: bool): RobotState
  {
    if active == s.isActive then s
    else if active then s.(isActive := true, status := WaitingEntry, martingaleLevel := 0, lastTradeResult := None)
    else s.(isActive := false, status := Stopped, currentTrade := None)
  }

  /** `analyzeMarket` followed, when a trade opens, by `executeTradeEntry`. */
  function AnalyzeStep(s: RobotState, now: int, indicators: seq<Indicator>, tick: Option<Tick>,
                       strategy: Option<Strategy>): RobotState
  {
    var price := CurrentPrice(tick);
    if strategy.None? then
      s.(status := WaitingEntry, lastAnalysis := Some(MarketAnalysis(Hold, 0, NoStrategyName, price)))
    else
      var logic := StrategyLogicFor(strategy.value.name);
      if logic.None? then
        s.(status := WaitingEntry, lastAnalysis := Some(MarketAnalysis(Hold, 0, strategy.value.name, price)))
      else
        var analysis := AnalysisFor(indicators, price, strategy.value, logic.value);
        var side := EntrySide(analysis, s.lastTradeResult, s.martingaleLevel, strategy.value);
        if side.Some? then
          s.(status := InTrade, lastAnalysis := Some(analysis),
             currentTrade := Some(OpenTrade(now, analysis, side.value, s.martingaleLevel, s.lastTradeResult,
                                            tick, strategy.value)))
        else
          s.(status := WaitingEntry, lastAnalysis := Some(analysis))
  }

  /** `executeTradeExit`: archive the trade, record the outcome, move the
      martingale level and enter the cooldown. */
  function ExitStep(s: RobotState, t: Trade, price: real, now: int, reason: ExitReason, finalPnL: real): RobotState
  {
    var outcome := OutcomeOf(finalPnL);
    s.(status := Cooldown,
       currentTrade := None,
       tradeHistory := PushHistory(ClosedTrade(t, price, now, reason, finalPnL), s.tradeHistory),
       lastTradeResult := Some(outcome),
       martingaleLevel := NextLevel(s.martingaleLevel, outcome))
  }

  /** `monitorActiveTrade`: mark the trade to market and exit on the first
      exit condition that applies. */
  function MonitorStep(s: RobotState, now: int, tick: Option<Tick>): RobotState
    requires s.currentTrade.Some? ==> s.currentTrade.value.entryPrice != 0.0
  {
    if s.currentTrade.None? || tick.None? then s
    else
      var t := s.currentTrade.value;
      var price := tick.value.price;
      var pnl := PnlPercent(t.side, t.entryPrice, price);
      var reason := ExitCheck(t, price, now);
      if reason.None? then s.(currentTrade := Some(t.(pnl := pnl, currentPrice := Some(price))))
      else ExitStep(s, t, price, now, reason.value, pnl)
  }

  /** One beat of the one-second heartbeat, which runs only while the robot
      is active: analyse when waiting for an entry, monitor when in a trade,
      and do nothing in any other status. */
  function HeartbeatStep(s: RobotState, now: int, indicators: seq<Indicator>, tick: Option<Tick>,
                         strategy: Option<Strategy>): RobotState
    requires s.currentTrade.Some? ==> s.currentTrade.value.entryPrice != 0.0
  {
    if !s.isActive then s
    else if s.status == WaitingEntry then AnalyzeStep(s, now, indicators, tick, strategy)
    else if s.status == InTrade then MonitorStep(s, now, tick)
    else s
  }

  /** The end of the cooldown delay: back to waiting for an entry if the
      robot is still active and still cooling down. */
  function CooldownStep(s: RobotState): RobotState
  {
    if s.isActive && s.status == Cooldown then s.(status := WaitingEntry) else s
  }

  /** The cooldown timer as the source writes it: it checks only that the
      robot is active, whatever its status has become in the meantime. */
  function CooldownStepAsWritten(s: RobotState): RobotState
  {
    if s.isActive then s.(status := WaitingEntry) else s
  }

  /** The robot component: its React state as fields, each handler a method
      whose new state is the corresponding step of the old one. */
  class Robot {
    var isActive: bool
    var status: Status
    var currentTrade: Option<Trade>
    var lastAnalysis: Option<MarketAnalysis>
    var tradeHistory: seq<ClosedTrade>
    var martingaleLevel: nat
    var lastTradeResult: Option<Outcome>

    function State(): RobotState
      reads this
    {
      RobotState(isActive, status, currentTrade, lastAnalysis, tradeHistory, martingaleLevel, lastTradeResult)
    }

    predicate Valid()
      reads this
    {
      ValidState(State())
    }

    constructor ()
      ensures State() == Initial && Valid()
    {
      isActive := false;
      status := Stopped;
      currentTrade := None;
      lastAnalysis := None;
      tradeHistory := [];
      martingaleLevel := 0;
      lastTradeResult := None;
    }

    /** The effect run when the external on/off switch changes. */
    method SetActive(active: bool)
      requires Valid()
      modifies this
      ensures State() == ActivateStep(old(State()), active)
      ensures Valid()
    {
      if active != isActive {
        isActive := active;
        if active {
          status := WaitingEntry;
          martingaleLevel := 0;
          lastTradeResult := None;
        } else {
          status := Stopped;
          currentTrade := None;
        }
      }
      ActivatePreservesValid(old(State()), active);
    }

    method Heartbeat(now: int, indicators: seq<Indicator>, tick: Option<Tick>, strategy: Option<Strategy>)
      requires Valid()
      modifies this
      ensures State() == HeartbeatStep(old(State()), now, indicators, tick, strategy)
      ensures Valid()
    {
      if isActive {
        if status == WaitingEntry {
          AnalyzeMarket(now, indicators, tick, strategy);
        } else if status == InTrade {
          MonitorActiveTrade(now, tick);
        }
      }
      HeartbeatPreservesValid(old(State()), now, indicators, tick, strategy);
    }

    method AnalyzeMarket(now: int, indicators: seq<Indicator>, tick: Option<Tick>, strategy: Option<Strategy>)
      modifies this
      ensures State() == AnalyzeStep(old(State()), now, indicators, tick, strategy)
    {
      var price := CurrentPrice(tick);
      if strategy.None? {
        status := WaitingEntry;
        lastAnalysis := Some(MarketAnalysis(Hold, 0, NoStrategyName, price));
        return;
      }
      status := Analyzing;
      var logic := StrategyLogicFor(strategy.value.name);
      if logic.None? {
        lastAnalysis := Some(MarketAnalysis(Hold, 0, strategy.value.name, price));
        status := WaitingEntry;
        return;
      }
      var analysis := AnalysisFor(indicators, price, strategy.value, logic.value);
      lastAnalysis := Some(analysis);
      var finalSignal := MartingaleSignal(analysis.signal, lastTradeResult, martingaleLevel);
      if analysis.confidence as real >= StrategyThreshold(strategy.value) && finalSignal != Hold {
        ExecuteTradeEntry(now, analysis, finalSignal.side, tick, strategy.value);
      } else {
        status := WaitingEntry;
      }
    }

    method ExecuteTradeEntry(now: int, analysis: MarketAnalysis, side: Side, tick: Option<Tick>, strategy: Strategy)
      modifies this
      ensures State() == old(State()).(status := InTrade,
        currentTrade := Some(OpenTrade(now, analysis, side, old(martingaleLevel), old(lastTradeResult), tick, strategy)))
    {
      status := InTrade;
      var entrySize := BaseEntrySize;
      if MartingaleEnabled && martingaleLevel > 0 {
        entrySize := BaseEntrySize * Pow(MartingaleMultiplier, martingaleLevel);
      }
      var price := analysis.currentPrice;
      var stopLossPercent := StopLossPercent(strategy);
      var takeProfitPercent := TakeProfitPercent(strategy);
      currentTrade := Some(Trade(
        now, TickSymbol(tick), side, price, now, entrySize,
        StopLossPrice(side, price, stopLossPercent),
        TakeProfitPrice(side, price, takeProfitPercent),
        analysis.confidence, 0.0, None, martingaleLevel, analysis.strategy,
        lastTradeResult == Some(Loss) && martingaleLevel > 0));
    }

    method MonitorActiveTrade(now: int, tick: Option<Tick>)
      requires currentTrade.Some? ==> currentTrade.value.entryPrice != 0.0
      modifies this
      ensures State() == MonitorStep(old(State()), now, tick)
    {
      if currentTrade.None? || tick.None? {
        return;
      }
      var t := currentTrade.value;
      var price := tick.value.price;
      var pnl := PnlPercent(t.side, t.entryPrice, price);
      currentTrade := Some(t.(pnl := pnl, currentPrice := Some(price)));
      var reason := ExitCheck(t, price, now);
      if reason.Some? {
        ExecuteTradeExit(t, price, now, reason.value, pnl);
      }
    }

    method ExecuteTradeExit(t: Trade, price: real, now: int, reason: ExitReason, finalPnL: real)
      modifies this
      ensures State() == ExitStep(old(State()), t, price, now, reason, finalPnL)
    {
      status := WaitingResult;
      var outcome := if finalPnL > 0.0 then Win else Loss;
      var closed := ClosedTrade(t, price, now, reason, finalPnL);
      tradeHistory := [closed] + tradeHistory[..if |tradeHistory| < 9 then |tradeHistory| else 9];
      lastTradeResult := Some(outcome);
      if outcome == Loss {
        martingaleLevel := if martingaleLevel + 1 < MaxMartingaleLevels then martingaleLevel + 1 else MaxMartingaleLevels;
      } else {
        martingaleLevel := 0;
      }
      currentTrade := None;
      status := Cooldown;
    }

    /** The cooldown event, fired the cooldown delay after an exit. */
    method CooldownElapsed()
      requires Valid()
      modifies this
      ensures State() == CooldownStep(old(State()))
      ensures Valid()
    {
      if isActive && status == Cooldown {
        status := WaitingEntry;
      }
    }
  }

  // ---------------------------------------------------------------------
  // Properties of the controller

  lemma ActivatePreservesValid(s: RobotState, active: bool)
    requires ValidState(s)
    ensures ValidState(ActivateStep(s, active))
  {
  }

  lemma HeartbeatPreservesValid(s: RobotState, now: int, indicators: seq<Indicator>, tick: Option<Tick>,
                                strategy: Option<Strategy>)
    requires ValidState(s)
    ensures ValidState(HeartbeatStep(s, now, indicators, tick, strategy))
  {
  }

  lemma CooldownPreservesValid(s: RobotState)
    requires ValidState(s)
    ensures ValidState(CooldownStep(s))
  {
  }

  /** The two versions of a trade before and after marking it to market. */
  predicate SameTrade(before: Trade, after: Trade)
  {
    after == before.(pnl := after.pnl, currentPrice := after.currentPrice)
  }

  /** A heartbeat never loses an open trade: it keeps it (marked to market at
      the tick's price) or closes it into the head of the history. */
  lemma HeartbeatKeepsOrArchivesTrade(s: RobotState, now: int, indicators: seq<Indicator>, tick: Option<Tick>,
                                      strategy: Option<Strategy>)
    requires ValidState(s) && s.currentTrade.Some?
    ensures var r := HeartbeatStep(s, now, indicators, tick, strategy);
      (r.currentTrade.Some? && SameTrade(s.currentTrade.value, r.currentTrade.value)
       && r.tradeHistory == s.tradeHistory)
      || (r.currentTrade.None? && r.status == Cooldown
          && r.tradeHistory[0].trade == s.currentTrade.value
          && r.tradeHistory[1..] == s.tradeHistory[..|r.tradeHistory| - 1])
  {
    var r := HeartbeatStep(s, now, indicators, tick, strategy);
    if r.currentTrade.None? {
      assert r.tradeHistory == PushHistory(r.tradeHistory[0], s.tradeHistory);
    }
  }

  /** A trade opens only from an analysis of a known strategy whose rounded
      confidence reaches the strategy's threshold, on the side the strategy
      signalled or, after a loss below the maximum level, the opposite one;
      its size follows the martingale level. */
  lemma TradeOpensOnlyWhenConfident(s: RobotState, now: int, indicators: seq<Indicator>, tick: Option<Tick>,
                                    strategy: Option<Strategy>)
    requires ValidState(s) && s.currentTrade.None?
    ensures var r := HeartbeatStep(s, now, indicators, tick, strategy);
      r.currentTrade.Some? ==>
        && s.status == WaitingEntry
        && strategy.Some? && StrategyLogicFor(strategy.value.name).Some?
        && r.lastAnalysis.Some?
        && r.lastAnalysis.value.confidence as real >= StrategyThreshold(strategy.value)
        && r.lastAnalysis.value.signal.Take?
        && r.currentTrade.value.side
           == (if s.lastTradeResult == Some(Loss) && s.martingaleLevel < MaxMartingaleLevels
               then Opposite(r.lastAnalysis.value.signal.side) else r.lastAnalysis.value.signal.side)
        && r.currentTrade.value.quantity == BaseEntrySize * Pow(MartingaleMultiplier, s.martingaleLevel)
  {
  }

  /** Closing a trade resets the martingale level after a win and raises it
      by one, up to the maximum, after a loss (zero or negative profit). */
  lemma ExitMovesMartingale(s: RobotState, t: Trade, price: real, now: int, reason: ExitReason, finalPnL: real)
    requires ValidState(s)
    ensures var r := ExitStep(s, t, price, now, reason, finalPnL);
      && (finalPnL > 0.0 ==> r.martingaleLevel == 0 && r.lastTradeResult == Some(Win))
      && (finalPnL <= 0.0 ==>
            (r.lastTradeResult == Some(Loss)
             && r.martingaleLevel == if s.martingaleLevel < MaxMartingaleLevels then s.martingaleLevel + 1
                                     else MaxMartingaleLevels))
      && ValidState(r.(status := if s.isActive then Cooldown else Stopped))
  {
  }

  /** Each martingale level doubles the entry size, up to 800 at level 3. */
  lemma {:induction false} EntrySizeDoubles(level: nat)
    ensures EntrySize(level + 1) == 2.0 * EntrySize(level)
    ensures level <= MaxMartingaleLevels ==> BaseEntrySize <= EntrySize(level) <= 800.0
  {
    if level <= MaxMartingaleLevels {
      PowAtLeastOne(MartingaleMultiplier, level);
      PowMonotone(MartingaleMultiplier, level, 3);
      assert Pow(2.0, 3) == 8.0 by {
        assert Pow(2.0, 1) == 2.0 * Pow(2.0, 0);
        assert Pow(2.0, 2) == 2.0 * Pow(2.0, 1);
      }
    }
  }

  /** With a positive price and positive percentages the stop-loss lies on
      the losing side of the entry and the take-profit on the winning side,
      so the two exits can never both apply at one price. */
  lemma BracketOrder(side: Side, price: real, stopLossPercent: real, takeProfitPercent: real)
    requires price > 0.0 && stopLossPercent > 0.0 && takeProfitPercent > 0.0
    ensures side == Buy ==>
      StopLossPrice(side, price, stopLossPercent) < price < TakeProfitPrice(side, price, takeProfitPercent)
    ensures side == Sell ==>
      TakeProfitPrice(side, price, takeProfitPercent) < price < StopLossPrice(side, price, stopLossPercent)
  {
    assert price * (stopLossPercent / 100.0) > 0.0;
    assert price * (takeProfitPercent / 100.0) > 0.0;
  }

  lemma NoSimultaneousExit(now: int, analysis: MarketAnalysis, side: Side, level: nat,
                           lastResult: Option<Outcome>, tick: Option<Tick>, strategy: Strategy, price: real)
    requires analysis.currentPrice > 0.0
    requires StopLossPercent(strategy) > 0.0 && TakeProfitPercent(strategy) > 0.0
    ensures var t := OpenTrade(now, analysis, side, level, lastResult, tick, strategy);
      !(StopLossReached(t, price) && TakeProfitReached(t, price))
  {
    BracketOrder(side, analysis.currentPrice, StopLossPercent(strategy), TakeProfitPercent(strategy));
  }

  /** The value under a name is that of the last reading with the name:
      later readings overwrite earlier ones. */
  lemma {:induction false} IndicatorValuesLastWins(indicators: seq<Indicator>, i: nat)
    requires i < |indicators|
    requires forall j :: i < j < |indicators| ==> indicators[j].name != indicators[i].name
    ensures indicators[i].name in IndicatorValues(indicators)
    ensures IndicatorValues(indicators)[indicators[i].name] == indicators[i].value
  {
    var init := indicators[..|indicators| - 1];
    if i < |init| {
      assert init[i] == indicators[i];
      forall j | i < j < |init| ensures init[j].name != init[i].name {
        assert init[j] == indicators[j];
      }
      IndicatorValuesLastWins(init, i);
    }
  }

  /** The value map has exactly the readings' names as keys. */
  lemma {:induction false} IndicatorValuesKeys(indicators: seq<Indicator>, name: string)
    ensures name in IndicatorValues(indicators) <==> exists i :: 0 <= i < |indicators| && indicators[i].name == name
  {
    if indicators != [] {
      var init := indicators[..|indicators| - 1];
      IndicatorValuesKeys(init, name);
      if exists i :: 0 <= i < |indicators| && indicators[i].name == name {
        var i :| 0 <= i < |indicators| && indicators[i].name == name;
        if i < |init| {
          assert init[i] == indicators[i];
        }
      }
      if exists i :: 0 <= i < |init| && init[i].name == name {
        var i :| 0 <= i < |init| && init[i].name == name;
        assert indicators[i] == init[i];
      }
    }
  }

  lemma MissingNameIsUndefined(indicators: seq<Indicator>, price: real, name: string)
    requires name != PriceKey
    requires forall i :: 0 <= i < |indicators| ==> indicators[i].name in FeedIndicatorNames
    requires name !in FeedIndicatorNames
    ensures Lookup(IndicatorData(indicators, price), name) == None
  {
    IndicatorValuesKeys(indicators, name);
  }

  lemma CountHoldingOfFour(data: map<string, Number>, cs: seq<Comparison>)
    requires |cs| == 4
    ensures CountHolding(data, cs) == (if Holds(data, cs[0]) then 1 else 0) + (if Holds(data, cs[1]) then 1 else 0)
                                      + (if Holds(data, cs[2]) then 1 else 0) + (if Holds(data, cs[3]) then 1 else 0)
  {
    var c1 := cs[1..];
    var c2 := c1[1..];
    var c3 := c2[1..];
    assert c3[1..] == [];
    assert c1[0] == cs[1] && c2[0] == cs[2] && c3[0] == cs[3];
    assert CountHolding(data, c3) == if Holds(data, cs[3]) then 1 else 0;
    assert CountHolding(data, c2) == (if Holds(data, cs[2]) then 1 else 0) + CountHolding(data, c3);
    assert CountHolding(data, c1) == (if Holds(data, cs[1]) then 1 else 0) + CountHolding(data, c2);
  }

  /** The market data feed publishes no "Volume", "EMA 20" or "SMA 50", so
      on its readings Scalping Pro and Trend Follower never signal. */
  lemma FeedReadingsSilenceStrategies(indicators: seq<Indicator>, price: real)
    requires forall i :: 0 <= i < |indicators| ==> indicators[i].name in FeedIndicatorNames
    ensures StrategyDecision(ScalpingPro, IndicatorData(indicators, price)) == Hold
    ensures StrategyDecision(TrendFollower, IndicatorData(indicators, price)) == Hold
  {
    var data := IndicatorData(indicators, price);
    MissingNameIsUndefined(indicators, price, "Volume");
    MissingNameIsUndefined(indicators, price, "EMA 20");
    assert !Holds(data, ScalpingPro.buy.conds[2]) && !Holds(data, ScalpingPro.sell.conds[2]);
    assert !Holds(data, TrendFollower.buy.conds[0]) && !Holds(data, TrendFollower.sell.conds[0]);
  }

  /** On the feed's readings EdgeAI Engine buys exactly when all three of
      its other buy conditions hold. */
  lemma FeedReadingsEdgeAIBuy(indicators: seq<Indicator>, price: real)
    requires forall i :: 0 <= i < |indicators| ==> indicators[i].name in FeedIndicatorNames
    ensures var data := IndicatorData(indicators, price);
      var rsi := Lookup(data, "RSI"); var macd := Lookup(data, "MACD"); var adx := Lookup(data, "ADX");
      StrategyDecision(EdgeAIEngine, data) == Take(Buy) <==>
        (rsi.Some? && rsi.value < 40.0 && macd.Some? && macd.value > 0.0 && adx.Some? && adx.value > 20.0)
  {
    var data := IndicatorData(indicators, price);
    MissingNameIsUndefined(indicators, price, "Volume");
    var cs := EdgeAIEngine.buy.conds;
    assert !Holds(data, cs[3]);
    CountHoldingOfFour(data, cs);
  }

  // ---------------------------------------------------------------------
  // The stale cooldown timer

  const ScenarioStrategy: Strategy := Strategy("EdgeAI Engine", None, None)

  /** Three readings on which EdgeAI Engine signals buy with confidence 80. */
  const ScenarioIndicators: seq<Indicator> := [
    Indicator("RSI", Num(35.0), Directional(Buy), 80, true, None, None, None),
    Indicator("MACD", Num(0.5), Directional(Buy), 80, true, None, None, None),
    Indicator("ADX", Num(25.0), Directional(Buy), 80, true, None, None, None)]

  const ScenarioTick: Option<Tick> := Some(Tick("R_100", 1.5))

  /** One heartbeat with the scenario's readings, tick and strategy. */
  function ScenarioBeat(s: RobotState, now: int): RobotState
  {
    if s.currentTrade.Some? && s.currentTrade.value.entryPrice == 0.0 then s
    else HeartbeatStep(s, now, ScenarioIndicators, ScenarioTick, Some(ScenarioStrategy))
  }

  lemma ScenarioEntersBuy(s: RobotState, now: int)
    requires s.isActive && s.status == WaitingEntry && s.lastTradeResult != Some(Loss)
    requires s.currentTrade.Some? ==> s.currentTrade.value.entryPrice != 0.0
    ensures ScenarioBeat(s, now).status == InTrade
    ensures ScenarioBeat(s, now).currentTrade
      == Some(OpenTrade(now, MarketAnalysis(Take(Buy), 80, "EdgeAI Engine", 1.5), Buy, s.martingaleLevel,
                        s.lastTradeResult, ScenarioTick, ScenarioStrategy))
  {
    var a := ScenarioIndicators;
    var data := IndicatorData(a, 1.5);
    assert a[..1][..0] == [];
    assert a[..2][..1] == a[..1];
    assert a[..2] == a[..|a| - 1];
    assert IndicatorValues(a[..1]) == map["RSI" := Num(35.0)];
    assert IndicatorValues(a[..2]) == map["RSI" := Num(35.0), "MACD" := Num(0.5)];
    assert data == map["RSI" := Num(35.0), "MACD" := Num(0.5), "ADX" := Num(25.0), PriceKey := Num(1.5)];
    assert Lookup(data, "RSI") == Some(35.0);
    assert Lookup(data, "MACD") == Some(0.5);
    assert Lookup(data, "ADX") == Some(25.0);
    var edge := EdgeAIEngine.buy.conds;
    assert Holds(data, edge[0]) && Holds(data, edge[1]) && Holds(data, edge[2]);
    CountHoldingOfFour(data, edge);
    assert StrategyDecision(EdgeAIEngine, data) == Take(Buy);
    assert CurrentPrice(ScenarioTick) == 1.5;
    assert StrategyLogicFor(ScenarioStrategy.name) == Some(EdgeAIEngine);
    assert SumConfidence(ScenarioIndicators) == 240;
    assert AverageConfidence(ScenarioIndicators) == 80.0;
    var analysis := AnalysisFor(a, 1.5, ScenarioStrategy, EdgeAIEngine);
    assert analysis == MarketAnalysis(Take(Buy), 80, "EdgeAI Engine", 1.5);
    assert EntrySide(analysis, s.lastTradeResult, s.martingaleLevel, ScenarioStrategy) == Some(Buy);
  }

  /** The cooldown timer as written fires into a later trade: the robot
      exits at second 121 on the time limit, is switched off and on, enters
      a new trade at second 125, and the first exit's timer, still pending,
      fires at second 131. The robot then waits for an entry while holding
      an open trade, and the next heartbeat opens another trade over it: the
      trade of second 125 is neither monitored nor archived. The corrected
      timer, which only ends a cooldown, leaves that state alone. */
  lemma {:induction false} StaleCooldownAbandonsTrade()
    ensures var reentered := ScenarioBeat(ActivateStep(ActivateStep(
              ScenarioBeat(ScenarioBeat(ActivateStep(Initial, true), 0), 121), false), true), 125);
      && ValidState(reentered) && reentered.status == InTrade && reentered.currentTrade.value.entryTime == 125
      && !ValidState(CooldownStepAsWritten(reentered))
      && ScenarioBeat(CooldownStepAsWritten(reentered), 132).currentTrade.value.entryTime == 132
      && ScenarioBeat(CooldownStepAsWritten(reentered), 132).tradeHistory == reentered.tradeHistory
      && CooldownStep(reentered) == reentered
  {
    var s3 := ScenarioBeat(ScenarioBeat(ActivateStep(Initial, true), 0), 121);
    ScenarioFirstTradeTimesOut(s3);
    var s5 := ActivateStep(ActivateStep(s3, false), true);
    assert s5.status == WaitingEntry && s5.lastTradeResult == None;
    ScenarioEntersBuy(s5, 125);
    var s6 := ScenarioBeat(s5, 125);
    var s7 := CooldownStepAsWritten(s6);
    assert s7.status == WaitingEntry && s7.lastTradeResult == None;
    ScenarioEntersBuy(s7, 132);
  }

  /** The first trade of the scenario, opened at second 0, reaches its
      120-second limit at second 121 and starts a cooldown. */
  lemma ScenarioFirstTradeTimesOut(s3: RobotState)
    requires s3 == ScenarioBeat(ScenarioBeat(ActivateStep(Initial, true), 0), 121)
    ensures ValidState(s3) && s3.isActive && s3.status == Cooldown && s3.currentTrade.None?
  {
    var s1 := ActivateStep(Initial, true);
    ScenarioEntersBuy(s1, 0);
    var s2 := ScenarioBeat(s1, 0);
    var t := s2.currentTrade.value;
    assert t.stopLoss == 1.47 && t.takeProfit == 1.56;
    assert ExitCheck(t, 1.5, 121) == Some(TimeLimit);
  }

  /** The corrected timer: the stale event of the scenario above is a no-op,
      and the invariant holds on every path. */
  lemma CooldownOnlyEndsCooldown(s: RobotState)
    ensures s.status != Cooldown ==> CooldownStep(s) == s
    ensures s.status == Cooldown && s.isActive ==> CooldownStep(s).status == WaitingEntry
    ensures ValidState(s) ==> ValidState(CooldownStep(s))
  {
  }
}
