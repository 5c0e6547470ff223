/** The simulated broker and the entry sizing both bar and paper engines share. */
module Brokerage {
  import opened Envelopes

  datatype RiskConfig = RiskConfig(
    initialCash: real, riskPerTrade: real, maxFraction: real, atrMultiple: real, minStop: real, maxStop: real,
    trailing: real, maxDrawdown: real, feeRate: real, slippage: real, cooldownBars: nat, minOrder: real)

  predicate Fractional(x: real) { 0.0 < x < 1.0 }

  predicate ValidRisk(r: RiskConfig) {
    && r.initialCash > 0.0 && r.minOrder > 0.0 && r.atrMultiple > 0.0 && 0.0 <= r.feeRate < 0.1
    && 0.0 <= r.slippage < 1.0
    && Fractional(r.riskPerTrade) && Fractional(r.maxFraction) && Fractional(r.minStop) && Fractional(r.maxStop)
    && Fractional(r.trailing) && Fractional(r.maxDrawdown) && r.minStop <= r.maxStop
  }

  datatype Mode = ProbabilityMode | ExpectedReturnMode

  datatype ModelConfig = ModelConfig(mode: Mode, entryProbability: real, exitProbability: real, minimumEdge: real,
    horizonBars: nat)

  datatype Halt = Active | HaltPending | Halted

  datatype ExitReason = DataGap | RiskHalt | HorizonExit | ModelExit | TrailingStop | StopLoss | EndOfRun

  /** `stop`, `rawExit` and `entryEquity` are kept with the trade to state what it risked. */
  datatype Trade = Trade(
    entryPrice: real, rawExit: real, exitPrice: real, quantity: real, entryNotional: real, exitNotional: real,
    fees: real, pnl: real, stop: real, entryEquity: real, reason: ExitReason)

  /** What the last bar left for the next one to act on; numbers that were missing or not finite are None. */
  datatype Signal = Signal(probability: Option<real>, edge: Option<real>, eligible: bool, atr: Option<real>)

  const NO_SIGNAL := Signal(None, None, false, None)

  datatype Portfolio = Portfolio(
    cash: real, peakEquity: real, quantity: real,
    entryPrice: real, entryNotional: real, entryFee: real, stop: real, peakPrice: real, entryEquity: real,
    horizonExit: Option<int>, realized: real, halt: Halt, cooldown: nat, pending: Signal, lastBar: Option<int>,
    buys: nat, trades: seq<Trade>)

  function Opened(r: RiskConfig): Portfolio {
    Portfolio(r.initialCash, r.initialCash, 0.0, 0.0, 0.0, 0.0, 0.0, 0.0, 0.0, None, 0.0, Active, 0, NO_SIGNAL, None, 0,
      [])
  }

  function Min(a: real, b: real): real { if a <= b then a else b }
  function Max(a: real, b: real): real { if a >= b then a else b }
  function Times(a: real, b: real): real { a * b }
  function Over(a: real, b: real): real
    requires b != 0.0
  {
    a / b
  }

  // ---------------------------------------------------------------- sizing

  datatype Sizing = Accepted(notional: real, stop: real) | Refused

  function LossFraction(r: RiskConfig, stop: real): real { stop + 2.0 * (r.feeRate + r.slippage) }

  /** Risk, allocation and cash each cap the order. */
  function SizeEntry(r: RiskConfig, equity: real, cash: real, rawPrice: real, atr: Option<real>): Sizing
    requires ValidRisk(r)
  {
    if equity <= 0.0 || cash <= 0.0 || rawPrice <= 0.0 || atr.None? || atr.value <= 0.0 then Refused
    else
      var distance := Times(r.atrMultiple, atr.value);
      if distance > r.maxStop then Refused
      else
        var stop := Max(distance, r.minStop);
        var riskCap := Over(Times(equity, r.riskPerTrade), LossFraction(r, stop));
        var notional := Min(Min(riskCap, Times(equity, r.maxFraction)), Over(cash, 1.0 + r.feeRate));
        if notional < r.minOrder then Refused else Accepted(notional, stop)
  }

  function Drawdown(equity: real, peak: real): real {
    if peak <= 0.0 then 0.0 else Max(0.0, 1.0 - Over(equity, peak))
  }

  // ---------------------------------------------------------------- the broker

  /** Buy at the slipped price, never with more than the cash covers. */
  function Bought(r: RiskConfig, s: Portfolio, rawPrice: real, requested: real, stop: real): Portfolio
    requires ValidRisk(r) && rawPrice > 0.0
  {
    var price := Times(rawPrice, 1.0 + r.slippage);
    PositiveProduct(rawPrice, 1.0 + r.slippage);
    var notional := Min(requested, Over(s.cash, 1.0 + r.feeRate));
    var fee := Times(notional, r.feeRate);
    s.(cash := Max(s.cash - (notional + fee), 0.0), quantity := Over(notional, price), entryPrice := price,
       entryNotional := notional, entryFee := fee, stop := stop, peakPrice := price, entryEquity := s.cash,
       buys := s.buys + 1)
  }

  function ExitTrade(r: RiskConfig, s: Portfolio, rawPrice: real, reason: ExitReason): Trade {
    var price := Times(rawPrice, 1.0 - r.slippage);
    var notional := Times(s.quantity, price);
    var fee := Times(notional, r.feeRate);
    Trade(s.entryPrice, rawPrice, price, s.quantity, s.entryNotional, notional, s.entryFee + fee,
          (notional - fee) - (s.entryNotional + s.entryFee), s.stop, s.entryEquity, reason)
  }

  /** Sell the whole position at the slipped price. */
  function SoldAll(r: RiskConfig, s: Portfolio, rawPrice: real, reason: ExitReason): Portfolio {
    var t := ExitTrade(r, s, rawPrice, reason);
    s.(cash := s.cash + (t.pnl + (s.entryNotional + s.entryFee)), realized := s.realized + t.pnl,
       trades := s.trades + [t],
       quantity := 0.0, entryPrice := 0.0, entryNotional := 0.0, entryFee := 0.0, stop := 0.0, peakPrice := 0.0,
       entryEquity := 0.0, horizonExit := None)
  }

  /** Both change the shared portfolio in place. */
  class SimulatedBroker {
    const config: RiskConfig
    var state: Portfolio

    constructor (config: RiskConfig)
      ensures this.config == config && state == Opened(config)
    {
      this.config := config;
      state := Opened(config);
    }

    method Buy(rawPrice: real, requested: real, stop: real)
      requires ValidRisk(config) && rawPrice > 0.0 && requested > 0.0 && state.quantity <= 0.0 && state.cash > 0.0
      modifies this
      ensures state == Bought(config, old(state), rawPrice, requested, stop)
    {
      hide Over, Times;
      var equity := state.cash;
      PositiveProduct(rawPrice, 1.0 + config.slippage);
      var price := Times(rawPrice, 1.0 + config.slippage);
      var maximum := Over(state.cash, 1.0 + config.feeRate);
      var notional := Min(requested, maximum);
      var fee := Times(notional, config.feeRate);
      state := state.(cash := state.cash - (notional + fee));
      state := state.(cash := Max(state.cash, 0.0));
      state := state.(quantity := Over(notional, price), entryPrice := price);
      state := state.(entryNotional := notional, entryFee := fee);
      state := state.(stop := stop, peakPrice := price);
      state := state.(entryEquity := equity, buys := state.buys + 1);
    }

    method SellAll(rawPrice: real, reason: ExitReason)
      requires state.quantity > 0.0
      modifies this
      ensures state == SoldAll(config, old(state), rawPrice, reason)
    {
      hide Over, Times;
      var s := state;
      var price := Times(rawPrice, 1.0 - config.slippage);
      var notional := Times(s.quantity, price);
      var fee := Times(notional, config.feeRate);
      var proceeds := notional - fee;
      var cost := s.entryNotional + s.entryFee;
      var pnl := proceeds - cost;
      state := state.(trades := state.trades + [
        Trade(s.entryPrice, rawPrice, price, s.quantity, s.entryNotional, notional, s.entryFee + fee, pnl,
          s.stop, s.entryEquity, reason)]);
      state := state.(cash := state.cash + proceeds);
      state := state.(realized := state.realized + pnl);
      state := state.(quantity := 0.0, horizonExit := None);
      state := state.(entryPrice := 0.0, entryNotional := 0.0, entryFee := 0.0, stop := 0.0, peakPrice := 0.0,
        entryEquity := 0.0);
    }
  }

  // ---------------------------------------------------------------- what the broker keeps

  function TotalPnl(trades: seq<Trade>): real
    decreases |trades|
  {
    if trades == [] then 0.0 else TotalPnl(trades[..|trades| - 1]) + trades[|trades| - 1].pnl
  }

  /** Cash is the initial cash plus realized profit, less what an open position cost. */
  predicate Balanced(r: RiskConfig, s: Portfolio) {
    && s.cash == r.initialCash + s.realized - (if s.quantity > 0.0 then s.entryNotional + s.entryFee else 0.0)
    && s.realized == TotalPnl(s.trades) && s.cash >= 0.0 && s.quantity >= 0.0
  }

  /** A position bought with a risk budget: at its stop it would lose no more than the budget. */
  predicate Budgeted(r: RiskConfig, s: Portfolio) {
    s.quantity > 0.0 ==>
      && s.entryPrice > 0.0 && s.entryNotional > 0.0 && s.entryFee == Times(s.entryNotional, r.feeRate)
      && Times(s.quantity, s.entryPrice) == s.entryNotional && 0.0 < s.stop < 1.0
      && Times(s.entryNotional, LossFraction(r, s.stop)) <= Times(s.entryEquity, r.riskPerTrade)
  }

  /** A trade that left at its fixed stop or better lost at most the budgeted share of the equity at entry. */
  predicate WithinBudget(r: RiskConfig, t: Trade) {
    t.rawExit >= Times(t.entryPrice, 1.0 - t.stop) ==> -t.pnl <= Times(t.entryEquity, r.riskPerTrade)
  }

  predicate AllWithinBudget(r: RiskConfig, trades: seq<Trade>) {
    forall k :: 0 <= k < |trades| ==> WithinBudget(r, trades[k])
  }

  predicate Kept(r: RiskConfig, s: Portfolio) {
    Balanced(r, s) && Budgeted(r, s) && AllWithinBudget(r, s.trades)
  }

  lemma PositiveProduct(a: real, b: real)
    requires a > 0.0 && b > 0.0
    ensures Times(a, b) > 0.0
  {
  }

  lemma Quotient(a: real, b: real)
    requires b > 0.0
    ensures Times(Over(a, b), b) == a && (a > 0.0 ==> Over(a, b) > 0.0)
  {
  }

  lemma Grows(a: real, b: real, k: real)
    requires a <= b && k >= 0.0
    ensures Times(a, k) <= Times(b, k) && Times(k, a) <= Times(k, b)
  {
  }

  lemma Splits(a: real, f: real)
    ensures Times(a, 1.0 + f) == a + Times(a, f) && Times(a, 1.0 - f) == a - Times(a, f)
  {
  }

  lemma SizingBounds(r: RiskConfig, cash: real, rawPrice: real, atr: Option<real>)
    requires ValidRisk(r) && SizeEntry(r, cash, cash, rawPrice, atr).Accepted?
    ensures var d := SizeEntry(r, cash, cash, rawPrice, atr);
      && cash > 0.0 && d.notional > 0.0 && 0.0 < d.stop < 1.0
      && Times(d.notional, LossFraction(r, d.stop)) <= Times(cash, r.riskPerTrade)
      && d.notional + Times(d.notional, r.feeRate) <= cash
  {
    hide Times, Over;
    var d := SizeEntry(r, cash, cash, rawPrice, atr);
    var loss := LossFraction(r, d.stop);
    Quotient(Times(cash, r.riskPerTrade), loss);
    Grows(d.notional, Over(Times(cash, r.riskPerTrade), loss), loss);
    Quotient(cash, 1.0 + r.feeRate);
    Grows(d.notional, Over(cash, 1.0 + r.feeRate), 1.0 + r.feeRate);
    Splits(d.notional, r.feeRate);
  }

  lemma BuyKeeps(r: RiskConfig, s: Portfolio, rawPrice: real, atr: Option<real>)
    requires ValidRisk(r) && Kept(r, s) && s.quantity <= 0.0 && rawPrice > 0.0
    requires SizeEntry(r, s.cash, s.cash, rawPrice, atr).Accepted?
    ensures var d := SizeEntry(r, s.cash, s.cash, rawPrice, atr);
      var t := Bought(r, s, rawPrice, d.notional, d.stop);
      && s.cash > 0.0 && d.notional > 0.0 && Kept(r, t) && t.quantity > 0.0
      && t == s.(cash := t.cash, quantity := t.quantity, entryPrice := t.entryPrice, entryNotional := t.entryNotional,
                 entryFee := t.entryFee, stop := t.stop, peakPrice := t.peakPrice, entryEquity := t.entryEquity,
                 buys := s.buys + 1)
  {
    hide Times, Over, SizeEntry, TotalPnl, LossFraction, AllWithinBudget;
    SizingBounds(r, s.cash, rawPrice, atr);
    var d := SizeEntry(r, s.cash, s.cash, rawPrice, atr);
    var price := Times(rawPrice, 1.0 + r.slippage);
    PositiveProduct(rawPrice, 1.0 + r.slippage);
    Quotient(d.notional, price);
    Covered(d.notional, s.cash, r.feeRate);
  }

  /** What cash covers with its fee is within the broker's own cap. */
  lemma Covered(notional: real, cash: real, feeRate: real)
    requires notional + Times(notional, feeRate) <= cash && feeRate >= 0.0
    ensures notional <= Over(cash, 1.0 + feeRate)
  {
    Splits(notional, feeRate);
    assert notional * (1.0 + feeRate) <= cash;
    assert cash / (1.0 + feeRate) * (1.0 + feeRate) == cash;
  }

  /** Leaving at or above the fixed stop, slippage and fees included, costs at most the loss fraction of the
      notional. */
  lemma LossBound(n: real, d: real, f: real, s: real)
    requires n > 0.0 && 0.0 < d < 1.0 && 0.0 <= f < 1.0 && 0.0 <= s < 1.0
    ensures Times(Times(Times(n, 1.0 - d), 1.0 - s), 1.0 - f) >= n - Times(n, d + f + s)
  {
    hide Times;
    var a := Times(n, 1.0 - d);
    var b := Times(a, 1.0 - s);
    Splits(n, d);
    ShareAtMost(n, d);
    Splits(a, s);
    Splits(b, f);
    ShareAtMost(a, s);
    Grows(a, n, s);
    Grows(b, n, f);
    Distribute(n, d, f, s);
    NonNegativeProduct(n, d);
    NonNegativeProduct(a, s);
    SwapTimes(a, s);
    SwapTimes(n, s);
    SwapTimes(b, f);
    SwapTimes(n, f);
  }

  lemma SwapTimes(a: real, b: real)
    ensures Times(a, b) == Times(b, a)
  {
  }

  lemma NonNegativeProduct(a: real, b: real)
    requires a >= 0.0 && b >= 0.0
    ensures Times(a, b) >= 0.0
  {
  }

  lemma ShareAtMost(n: real, d: real)
    requires n >= 0.0 && 0.0 <= d <= 1.0
    ensures 0.0 <= Times(n, d) <= n && Times(n, 1.0 - d) >= 0.0
  {
    NonNegativeProduct(n, d);
    NonNegativeProduct(n, 1.0 - d);
    Splits(n, d);
  }

  lemma Distribute(n: real, d: real, f: real, s: real)
    ensures Times(n, d + f + s) == Times(n, d) + Times(n, f) + Times(n, s)
  {
  }

  lemma Reassociate(q: real, p: real, k: real)
    ensures Times(q, Times(p, k)) == Times(Times(q, p), k)
  {
  }

  /** The heart of the bound: proceeds of an exit at or above the fixed stop. */
  lemma ProceedsBound(r: RiskConfig, s: Portfolio, rawPrice: real)
    requires ValidRisk(r) && Budgeted(r, s) && s.quantity > 0.0 && rawPrice >= Times(s.entryPrice, 1.0 - s.stop)
    ensures var notional := Times(s.quantity, Times(rawPrice, 1.0 - r.slippage));
      notional - Times(notional, r.feeRate) >= s.entryNotional - Times(s.entryNotional, s.stop + r.feeRate + r.slippage)
  {
    hide Times;
    var floor := Times(s.entryPrice, 1.0 - s.stop);
    var atFloor := Times(s.quantity, Times(floor, 1.0 - r.slippage));
    var notional := Times(s.quantity, Times(rawPrice, 1.0 - r.slippage));
    Grows(floor, rawPrice, 1.0 - r.slippage);
    Grows(Times(floor, 1.0 - r.slippage), Times(rawPrice, 1.0 - r.slippage), s.quantity);
    Grows(atFloor, notional, 1.0 - r.feeRate);
    Splits(notional, r.feeRate);
    Reassociate(s.quantity, floor, 1.0 - r.slippage);
    Reassociate(s.quantity, s.entryPrice, 1.0 - s.stop);
    LossBound(s.entryNotional, s.stop, r.feeRate, r.slippage);
  }

  lemma ExitWithinBudget(r: RiskConfig, s: Portfolio, rawPrice: real, reason: ExitReason)
    requires ValidRisk(r) && Budgeted(r, s) && s.quantity > 0.0
    ensures WithinBudget(r, ExitTrade(r, s, rawPrice, reason))
  {
    hide Times;
    if rawPrice >= Times(s.entryPrice, 1.0 - s.stop) {
      ProceedsBound(r, s, rawPrice);
      Grows(s.stop + r.feeRate + r.slippage + r.feeRate, LossFraction(r, s.stop), s.entryNotional);
      Distribute(s.entryNotional, s.stop + r.feeRate + r.slippage, r.feeRate, 0.0);
      ZeroTimes(s.entryNotional);
    }
  }

  const EXAMPLE := RiskConfig(1000.0, 0.01, 0.9, 1.0, 0.02, 0.05, 0.05, 0.2, 0.0, 0.0, 0, 1.0)

  const HELD := Opened(EXAMPLE).(cash := 500.0, quantity := 5.0, entryPrice := 100.0, entryNotional := 500.0,
    entryFee := 0.0, stop := 0.02, peakPrice := 100.0, entryEquity := 1000.0, buys := 1)

  lemma Product(a: real, b: real, product: real)
    requires a * b == product
    ensures Times(a, b) == product
  {
  }

  lemma Ratio(a: real, b: real, ratio: real)
    requires b > 0.0 && a == ratio * b
    ensures Over(a, b) == ratio
  {
  }

  lemma ExampleSizing()
    ensures ValidRisk(EXAMPLE) && SizeEntry(EXAMPLE, 1000.0, 1000.0, 100.0, Some(0.02)) == Accepted(500.0, 0.02)
  {
    hide Times, Over;
    Product(1.0, 0.02, 0.02);
    Product(1000.0, 0.01, 10.0);
    Product(1000.0, 0.9, 900.0);
    Ratio(10.0, 0.02, 500.0);
    Ratio(1000.0, 1.0, 1000.0);
    assert 1.0 + EXAMPLE.feeRate == 1.0 && LossFraction(EXAMPLE, 0.02) == 0.02;
  }

  lemma ExampleEntry()
    ensures ValidRisk(EXAMPLE) && Bought(EXAMPLE, Opened(EXAMPLE), 100.0, 500.0, 0.02) == HELD
  {
    hide Times, Over;
    Product(100.0, 1.0, 100.0);
    Product(500.0, 0.0, 0.0);
    Ratio(1000.0, 1.0, 1000.0);
    Ratio(500.0, 100.0, 5.0);
    assert 1.0 + EXAMPLE.slippage == 1.0 && 1.0 + EXAMPLE.feeRate == 1.0;
  }

  lemma ExampleKept()
    ensures Kept(EXAMPLE, HELD)
  {
    hide Times, Over;
    Product(500.0, 0.0, 0.0);
    Product(5.0, 100.0, 500.0);
    Product(500.0, 0.02, 10.0);
    Product(1000.0, 0.01, 10.0);
    assert LossFraction(EXAMPLE, 0.02) == 0.02;
  }

  lemma ExampleExit(rawPrice: real)
    ensures ExitTrade(EXAMPLE, HELD, rawPrice, StopLoss).pnl == 5.0 * rawPrice - 500.0
  {
    hide Times;
    Product(rawPrice, 1.0, rawPrice);
    Product(5.0, rawPrice, 5.0 * rawPrice);
    Product(5.0 * rawPrice, 0.0, 0.0);
    assert 1.0 - EXAMPLE.slippage == 1.0 && EXAMPLE.feeRate == 0.0;
  }

  /** `HELD`, bought with an accepted size, loses its whole budget exactly at the stop, and more below it. */
  lemma BudgetIsTight()
    ensures ValidRisk(EXAMPLE) && SizeEntry(EXAMPLE, 1000.0, 1000.0, 100.0, Some(0.02)) == Accepted(500.0, 0.02)
    ensures Bought(EXAMPLE, Opened(EXAMPLE), 100.0, 500.0, 0.02) == HELD && Kept(EXAMPLE, HELD)
    ensures Times(HELD.entryPrice, 1.0 - HELD.stop) == 98.0 && Times(HELD.entryEquity, EXAMPLE.riskPerTrade) == 10.0
    ensures ExitTrade(EXAMPLE, HELD, 98.0, StopLoss).pnl == -10.0
      && ExitTrade(EXAMPLE, HELD, 97.0, StopLoss).pnl == -15.0
  {
    hide Times, Over, SizeEntry, Bought, Kept, ExitTrade, ValidRisk;
    ExampleSizing();
    ExampleEntry();
    ExampleKept();
    ExampleExit(98.0);
    ExampleExit(97.0);
    Product(100.0, 0.98, 98.0);
    Product(1000.0, 0.01, 10.0);
    assert 1.0 - HELD.stop == 0.98;
  }

  lemma ZeroTimes(n: real)
    ensures Times(n, 0.0) == 0.0
  {
  }

  lemma OneMore(r: RiskConfig, trades: seq<Trade>, t: Trade)
    requires AllWithinBudget(r, trades) && WithinBudget(r, t)
    ensures AllWithinBudget(r, trades + [t]) && TotalPnl(trades + [t]) == TotalPnl(trades) + t.pnl
  {
    assert (trades + [t])[..|trades|] == trades;
  }

  lemma SellKeeps(r: RiskConfig, s: Portfolio, rawPrice: real, reason: ExitReason)
    requires ValidRisk(r) && Kept(r, s) && s.quantity > 0.0 && rawPrice > 0.0
    ensures var t := SoldAll(r, s, rawPrice, reason);
      && Kept(r, t) && t.quantity == 0.0 && t.halt == s.halt && t.buys == s.buys && t.pending == s.pending
      && t.cooldown == s.cooldown && t.lastBar == s.lastBar && t.peakEquity == s.peakEquity
  {
    hide Times, Over, TotalPnl, WithinBudget, AllWithinBudget, LossFraction;
    var t := ExitTrade(r, s, rawPrice, reason);
    ExitWithinBudget(r, s, rawPrice, reason);
    OneMore(r, s.trades, t);
    PositiveProduct(rawPrice, 1.0 - r.slippage);
    PositiveProduct(s.quantity, Times(rawPrice, 1.0 - r.slippage));
    ShareAtMost(t.exitNotional, r.feeRate);
  }
}
