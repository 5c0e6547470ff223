/** The bar engine of backtests: one bar, one state update, with halts that never lift. */
module BarEngine {
  import opened Envelopes
  import opened Brokerage

  datatype Bar = Bar(timestamp: int, open: real, high: real, low: real, close: real)

  predicate ValidBar(b: Bar) {
    b.open > 0.0 && b.low > 0.0 && b.low <= b.open <= b.high && b.low <= b.close <= b.high
  }

  datatype EngineConfig = EngineConfig(risk: RiskConfig, model: ModelConfig, intervalNs: int, haltOnGap: bool)

  predicate ValidEngine(c: EngineConfig) { ValidRisk(c.risk) && c.intervalNs > 0 }

  /** Added to the drawdown before it is compared with its limit. */
  const DRAWDOWN_SLACK := 0.000000000001

  // ---------------------------------------------------------------- the phases of a bar

  predicate IsGap(c: EngineConfig, s: Portfolio, b: Bar) {
    s.lastBar.Some? && b.timestamp - s.lastBar.value != c.intervalNs
  }

  /** A gap drops the pending signal, and halts or, without the halt, forces an exit. */
  function AfterGap(c: EngineConfig, s: Portfolio, b: Bar): Portfolio {
    if !IsGap(c, s, b) then s
    else
      var t := s.(pending := NO_SIGNAL);
      if c.haltOnGap then t.(halt := if s.quantity > 0.0 then HaltPending else Halted) else t
  }

  predicate GapForcesExit(c: EngineConfig, s: Portfolio, b: Bar) {
    IsGap(c, s, b) && !c.haltOnGap && s.quantity > 0.0
  }

  predicate HorizonReached(c: EngineConfig, s: Portfolio, b: Bar) {
    c.model.mode.ExpectedReturnMode? && s.horizonExit.Some? && b.timestamp >= s.horizonExit.value
  }

  predicate ModelSaysExit(c: EngineConfig, s: Portfolio) {
    c.model.mode.ProbabilityMode? && s.pending.probability.Some?
      && s.pending.probability.value <= c.model.exitProbability
  }

  /** Why an open position is sold at the open, if it is. */
  function ExitAtOpen(c: EngineConfig, s: Portfolio, b: Bar, forced: bool): Option<ExitReason> {
    if s.quantity <= 0.0 then None
    else if forced then Some(DataGap)
    else if s.halt != Active then Some(RiskHalt)
    else if HorizonReached(c, s, b) then Some(HorizonExit)
    else if ModelSaysExit(c, s) then Some(ModelExit)
    else None
  }

  function AfterExit(c: EngineConfig, s: Portfolio, b: Bar, forced: bool): Portfolio {
    match ExitAtOpen(c, s, b, forced)
    case None => s
    case Some(reason) =>
      var t := SoldAll(c.risk, s, b.open, reason);
      if reason.RiskHalt? || (reason.DataGap? && t.halt == HaltPending) then t.(halt := Halted) else t
  }

  predicate WantsEntry(c: EngineConfig, s: Portfolio) {
    if c.model.mode.ProbabilityMode?
      then s.pending.probability.Some? && s.pending.probability.value >= c.model.entryProbability
    else s.pending.eligible && s.pending.edge.Some? && s.pending.edge.value >= c.model.minimumEdge
  }

  predicate MayEnter(c: EngineConfig, s: Portfolio, exited: bool) {
    s.quantity <= 0.0 && s.halt == Active && s.cooldown == 0 && !exited && WantsEntry(c, s)
  }

  function AfterEntry(c: EngineConfig, s: Portfolio, b: Bar, exited: bool): Portfolio
    requires ValidEngine(c) && ValidBar(b)
  {
    if !MayEnter(c, s, exited) then s
    else
      match SizeEntry(c.risk, s.cash, s.cash, b.open, s.pending.atr)
      case Refused => s
      case Accepted(notional, stop) =>
        var t := Bought(c.risk, s, b.open, notional, stop);
        if c.model.mode.ExpectedReturnMode?
          then t.(horizonExit := Some(b.timestamp + c.intervalNs * c.model.horizonBars)) else t
  }

  function FixedStop(s: Portfolio): real { Times(s.entryPrice, 1.0 - s.stop) }
  function TrailingStopPrice(c: EngineConfig, s: Portfolio): real { Times(s.peakPrice, 1.0 - c.risk.trailing) }
  function StopPrice(c: EngineConfig, s: Portfolio): real { Max(FixedStop(s), TrailingStopPrice(c, s)) }

  predicate StopHit(c: EngineConfig, s: Portfolio, b: Bar) { s.quantity > 0.0 && b.low <= StopPrice(c, s) }

  function AfterStop(c: EngineConfig, s: Portfolio, b: Bar): Portfolio {
    if StopHit(c, s, b) then
      SoldAll(c.risk, s, Min(b.open, StopPrice(c, s)),
        if TrailingStopPrice(c, s) >= FixedStop(s) then TrailingStop else StopLoss)
        .(cooldown := c.risk.cooldownBars)
    else if s.quantity > 0.0 then s.(peakPrice := Max(s.peakPrice, b.high))
    else s
  }

  function MarkedEquity(c: EngineConfig, s: Portfolio, price: real): real {
    if s.quantity > 0.0 then
      s.cash + Times(Times(s.quantity, Times(price, 1.0 - c.risk.slippage)), 1.0 - c.risk.feeRate)
    else s.cash
  }

  function AfterMark(c: EngineConfig, s: Portfolio, price: real): (t: Portfolio)
    ensures t.lastBar == s.lastBar
  {
    var equity := MarkedEquity(c, s, price);
    var peak := Max(s.peakEquity, equity);
    var breached := Drawdown(equity, peak) + DRAWDOWN_SLACK >= c.risk.maxDrawdown;
    s.(peakEquity := peak,
       halt := if s.halt == Active && breached then (if s.quantity > 0.0 then HaltPending else Halted) else s.halt)
  }

  /** Keep what the model said for the next bar, while the account is active. */
  function Remembered(c: EngineConfig, halt: Halt, now: Signal): Signal {
    if halt != Active then NO_SIGNAL
    else
      var probability := if c.model.mode.ProbabilityMode? then now.probability else None;
      var edge := if c.model.mode.ExpectedReturnMode? then now.edge else None;
      var available := if c.model.mode.ProbabilityMode? then probability.Some? else edge.Some?;
      Signal(probability, edge, available && now.eligible, if available then now.atr else None)
  }

  function Cooled(before: nat, s: Portfolio, stopped: bool): nat {
    if before > 0 && !stopped then before - 1 else s.cooldown
  }

  function AfterBar(c: EngineConfig, s: Portfolio, b: Bar, now: Signal): Portfolio
    requires ValidEngine(c) && ValidBar(b)
  {
    var gapped := AfterGap(c, s, b);
    var forced := GapForcesExit(c, s, b);
    var exited := AfterExit(c, gapped, b, forced);
    var entered := AfterEntry(c, exited, b, ExitAtOpen(c, gapped, b, forced).Some?);
    var stopped := AfterStop(c, entered, b);
    var marked := AfterMark(c, stopped, b.close);
    marked.(cooldown := Cooled(s.cooldown, marked, StopHit(c, entered, b)),
            pending := Remembered(c, marked.halt, now), lastBar := Some(b.timestamp))
  }

  function AfterLiquidation(c: EngineConfig, s: Portfolio, rawPrice: real): Portfolio {
    if s.quantity <= 0.0 then s
    else
      var t := SoldAll(c.risk, s, rawPrice, EndOfRun);
      if t.halt == HaltPending then t.(halt := Halted) else t
  }

  // ---------------------------------------------------------------- what every bar keeps

  /** Halted means flat; a halt still pending means there is a position left to sell. */
  predicate HaltsAgree(s: Portfolio) {
    (s.halt == Halted ==> s.quantity == 0.0) && (s.halt == HaltPending ==> s.quantity > 0.0)
  }

  predicate Holds(c: EngineConfig, s: Portfolio) {
    Kept(c.risk, s) && HaltsAgree(s) && (s.quantity > 0.0 ==> s.peakPrice > 0.0)
  }

  /** From `s` to `t`, a halt did not lift and an account already halted bought nothing. */
  predicate HaltLatched(s: Portfolio, t: Portfolio) {
    (s.halt != Active ==> t.halt != Active && t.buys == s.buys)
  }

  /** Changing nothing the books look at. */
  lemma SameBooks(r: RiskConfig, s: Portfolio, t: Portfolio)
    requires t == s.(halt := t.halt, cooldown := t.cooldown, pending := t.pending, lastBar := t.lastBar,
                     peakEquity := t.peakEquity, peakPrice := t.peakPrice, horizonExit := t.horizonExit)
    ensures Kept(r, s) <==> Kept(r, t)
  {
    hide Times, TotalPnl, AllWithinBudget;
  }

  lemma ExitKeeps(c: EngineConfig, s: Portfolio, b: Bar, forced: bool)
    requires ValidEngine(c) && ValidBar(b) && Kept(c.risk, s) && (s.quantity > 0.0 ==> s.peakPrice > 0.0)
    requires s.halt == Halted ==> s.quantity == 0.0 || !forced
    requires s.halt == HaltPending ==> s.quantity > 0.0
    ensures var t := AfterExit(c, s, b, forced);
      && Holds(c, t) && t.buys == s.buys && (s.halt != Active ==> t.halt == Halted && t.quantity == 0.0)
      && (s.halt == Active ==> t.halt == Active)
  {
    hide Kept, SoldAll;
    var reason := ExitAtOpen(c, s, b, forced);
    if reason.Some? {
      var sold := SoldAll(c.risk, s, b.open, reason.value);
      SellKeeps(c.risk, s, b.open, reason.value);
      SameBooks(c.risk, sold, sold.(halt := Halted));
    } else {
      NonNegativeQuantity(c.risk, s);
    }
  }

  lemma NonNegativeQuantity(r: RiskConfig, s: Portfolio)
    requires Kept(r, s)
    ensures s.quantity >= 0.0
  {
  }

  /** After a gap and an exit at the open, the portfolio holds again. */
  lemma OpenKeeps(c: EngineConfig, s: Portfolio, b: Bar)
    requires ValidEngine(c) && ValidBar(b) && Holds(c, s)
    ensures var gapped, forced := AfterGap(c, s, b), GapForcesExit(c, s, b);
      var t := AfterExit(c, gapped, b, forced);
      && Holds(c, t) && t.buys == s.buys && (gapped.halt != Active ==> t.halt == Halted && t.quantity == 0.0)
      && (gapped.halt == Active ==> t.halt == Active)
  {
    hide Kept, AfterExit, ExitAtOpen;
    var gapped, forced := AfterGap(c, s, b), GapForcesExit(c, s, b);
    SameBooks(c.risk, s, gapped);
    NonNegativeQuantity(c.risk, s);
    ExitKeeps(c, gapped, b, forced);
  }

  lemma EntryKeeps(c: EngineConfig, s: Portfolio, b: Bar, exited: bool)
    requires ValidEngine(c) && ValidBar(b) && Holds(c, s)
    ensures var t := AfterEntry(c, s, b, exited);
      && Holds(c, t) && t.halt == s.halt && (s.halt != Active ==> t.buys == s.buys && t.quantity == s.quantity)
  {
    hide Kept, Bought, SizeEntry;
    if MayEnter(c, s, exited) {
      var d := SizeEntry(c.risk, s.cash, s.cash, b.open, s.pending.atr);
      if d.Accepted? {
        BuyKeeps(c.risk, s, b.open, s.pending.atr);
        BoughtPeak(c.risk, s, b.open, d.notional, d.stop);
        var t := Bought(c.risk, s, b.open, d.notional, d.stop);
        SameBooks(c.risk, t, AfterEntry(c, s, b, exited));
      }
    }
  }

  lemma BoughtPeak(r: RiskConfig, s: Portfolio, rawPrice: real, requested: real, stop: real)
    requires ValidRisk(r) && rawPrice > 0.0
    ensures Bought(r, s, rawPrice, requested, stop).peakPrice > 0.0
  {
    hide Times;
    PositiveProduct(rawPrice, 1.0 + r.slippage);
  }

  lemma StopKeeps(c: EngineConfig, s: Portfolio, b: Bar)
    requires ValidEngine(c) && ValidBar(b) && Holds(c, s) && (s.halt == Active || s.quantity == 0.0)
    ensures var t := AfterStop(c, s, b);
      && Kept(c.risk, t) && t.halt == s.halt && t.buys == s.buys && (t.quantity > 0.0 ==> t.peakPrice > 0.0)
      && (t.quantity > 0.0 ==> s.quantity > 0.0)
  {
    hide Kept, SoldAll, Times;
    if StopHit(c, s, b) {
      var raw := Min(b.open, StopPrice(c, s));
      var reason := if TrailingStopPrice(c, s) >= FixedStop(s) then TrailingStop else StopLoss;
      var sold := SoldAll(c.risk, s, raw, reason);
      SellKeeps(c.risk, s, raw, reason);
      SameBooks(c.risk, sold, sold.(cooldown := c.risk.cooldownBars));
    } else {
      SameBooks(c.risk, s, AfterStop(c, s, b));
    }
  }

  lemma MarkKeeps(c: EngineConfig, s: Portfolio, price: real)
    requires Kept(c.risk, s) && (s.quantity > 0.0 ==> s.peakPrice > 0.0)
      && (s.halt == Active || (s.halt == Halted && s.quantity == 0.0))
    ensures var t := AfterMark(c, s, price);
      && Holds(c, t) && t.buys == s.buys && (s.halt != Active ==> t.halt == s.halt)
  {
    hide Kept, MarkedEquity, Drawdown;
    SameBooks(c.risk, s, AfterMark(c, s, price));
    NonNegativeQuantity(c.risk, s);
  }

  /**
   Every bar keeps the books balanced and each trade within its risk budget, keeps a halted account flat, never
   lifts a halt, and buys nothing once the account is halted.
   */
  lemma BarKeeps(c: EngineConfig, s: Portfolio, b: Bar, now: Signal)
    requires ValidEngine(c) && ValidBar(b) && Holds(c, s)
    ensures var t := AfterBar(c, s, b, now);
      && Holds(c, t) && HaltLatched(s, t)
        && (s.halt != Active || (IsGap(c, s, b) && c.haltOnGap) ==> t.halt == Halted && t.buys == s.buys)
  {
    hide Kept, AfterExit, AfterEntry, AfterStop, AfterMark, ExitAtOpen, StopHit;
    var gapped := AfterGap(c, s, b);
    var forced := GapForcesExit(c, s, b);
    OpenKeeps(c, s, b);
    var exited := AfterExit(c, gapped, b, forced);
    var out := ExitAtOpen(c, gapped, b, forced).Some?;
    EntryKeeps(c, exited, b, out);
    var entered := AfterEntry(c, exited, b, out);
    StopKeeps(c, entered, b);
    var stopped := AfterStop(c, entered, b);
    NonNegativeQuantity(c.risk, stopped);
    MarkKeeps(c, stopped, b.close);
    SameBooks(c.risk, AfterMark(c, stopped, b.close), AfterBar(c, s, b, now));
  }

  datatype Input = Input(bar: Bar, signal: Signal)

  function Run(c: EngineConfig, inputs: seq<Input>): Portfolio
    requires ValidEngine(c) && forall i :: 0 <= i < |inputs| ==> ValidBar(inputs[i].bar)
    decreases |inputs|
  {
    if inputs == [] then Opened(c.risk)
    else var n := |inputs| - 1; AfterBar(c, Run(c, inputs[..n]), inputs[n].bar, inputs[n].signal)
  }

  lemma OpenedHolds(c: EngineConfig)
    requires ValidEngine(c)
    ensures Holds(c, Opened(c.risk))
  {
  }

  /** A whole run of bars, and its liquidation. */
  lemma {:induction false} RunKeeps(c: EngineConfig, inputs: seq<Input>, n: nat)
    requires ValidEngine(c) && (forall i :: 0 <= i < |inputs| ==> ValidBar(inputs[i].bar)) && n <= |inputs|
    ensures Holds(c, Run(c, inputs)) && HaltLatched(Run(c, inputs[..n]), Run(c, inputs))
    decreases |inputs|
  {
    hide Holds, AfterBar;
    OpenedHolds(c);
    if inputs == [] {
      assert inputs[..n] == inputs;
    } else {
      var m := |inputs| - 1;
      RunKeeps(c, inputs[..m], if n <= m then n else m);
      BarKeeps(c, Run(c, inputs[..m]), inputs[m].bar, inputs[m].signal);
      if n <= m { assert inputs[..m][..n] == inputs[..n]; } else { assert inputs[..n] == inputs; }
    }
  }

  lemma LiquidationKeeps(c: EngineConfig, s: Portfolio, rawPrice: real)
    requires ValidEngine(c) && Holds(c, s) && rawPrice > 0.0
    ensures var t := AfterLiquidation(c, s, rawPrice);
      Holds(c, t) && t.quantity == 0.0 && t.cash == c.risk.initialCash + TotalPnl(t.trades) && HaltLatched(s, t)
  {
    hide SoldAll, TotalPnl, Times;
    if s.quantity > 0.0 {
      SellKeeps(c.risk, s, rawPrice, EndOfRun);
      var sold := SoldAll(c.risk, s, rawPrice, EndOfRun);
      SameBooks(c.risk, sold, sold.(halt := Halted));
    }
  }

  /** A stop that the bar did not open below sells at the fixed stop or better, so the budget holds for it. */
  lemma StopWithoutGapIsBudgeted(c: EngineConfig, s: Portfolio, b: Bar)
    requires ValidEngine(c) && ValidBar(b) && Holds(c, s) && StopHit(c, s, b) && b.open >= FixedStop(s)
    ensures var t := ExitTrade(c.risk, s, Min(b.open, StopPrice(c, s)), StopLoss);
      -t.pnl <= Times(t.entryEquity, c.risk.riskPerTrade)
  {
    hide Times;
    ExitWithinBudget(c.risk, s, Min(b.open, StopPrice(c, s)), StopLoss);
  }

  // ---------------------------------------------------------------- the engine

  datatype BarOutcome = Stepped | OutOfOrder

  class BarExecutionEngine {
    const config: EngineConfig
    const broker: SimulatedBroker

    ghost predicate Valid()
      reads this, broker
    {
      ValidEngine(config) && broker.config == config.risk && Holds(config, broker.state)
    }

    constructor (config: EngineConfig)
      requires ValidEngine(config)
      ensures Valid() && fresh(broker) && this.config == config && broker.state == Opened(config.risk)
    {
      this.config := config;
      this.broker := new SimulatedBroker(config.risk);
      new;
      OpenedHolds(config);
    }

    method ProcessBar(bar: Bar, now: Signal) returns (outcome: BarOutcome)
      requires Valid() && ValidBar(bar)
      modifies broker
      ensures Valid()
      ensures outcome == if old(broker.state).lastBar.Some? && bar.timestamp <= old(broker.state).lastBar.value
        then OutOfOrder else Stepped
      ensures broker.state == if outcome.Stepped? then AfterBar(config, old(broker.state), bar, now)
        else old(broker.state)
    {
      hide Kept, Bought, SoldAll, SizeEntry, MarkedEquity, Drawdown;
      if broker.state.lastBar.Some? && bar.timestamp <= broker.state.lastBar.value { return OutOfOrder; }
      ghost var before := broker.state;
      OpenKeeps(config, before, bar);
      var cooldownAtStart := broker.state.cooldown;
      var forced := NoteGap(bar);
      var exited := ExitIfDue(bar, forced);
      EnterIfWanted(bar, exited);
      var stopped := CheckStop(bar);
      MarkToMarket(bar.close);
      BarKeeps(config, before, bar, now);
      if cooldownAtStart > 0 && !stopped { broker.state := broker.state.(cooldown := cooldownAtStart - 1); }
      broker.state := broker.state.(pending := Remembered(config, broker.state.halt, now));
      broker.state := broker.state.(lastBar := Some(bar.timestamp));
      return Stepped;
    }

    method NoteGap(bar: Bar) returns (forced: bool)
      modifies broker
      ensures broker.state == AfterGap(config, old(broker.state), bar)
        && forced == GapForcesExit(config, old(broker.state), bar)
    {
      forced := false;
      if broker.state.lastBar.Some? && bar.timestamp - broker.state.lastBar.value != config.intervalNs {
        broker.state := broker.state.(pending := NO_SIGNAL);
        if config.haltOnGap {
          broker.state := broker.state.(halt := if broker.state.quantity > 0.0 then HaltPending else Halted);
        } else {
          forced := broker.state.quantity > 0.0;
        }
      }
    }

    method ExitIfDue(bar: Bar, forced: bool) returns (exited: bool)
      requires ValidEngine(config) && broker.config == config.risk
      modifies broker
      ensures broker.state == AfterExit(config, old(broker.state), bar, forced)
      ensures exited == ExitAtOpen(config, old(broker.state), bar, forced).Some?
    {
      hide SoldAll;
      exited := false;
      if broker.state.quantity > 0.0 {
        if forced {
          broker.SellAll(bar.open, DataGap);
          exited := true;
          SoldHalt(config.risk, old(broker.state), bar.open, DataGap);
          if broker.state.halt == HaltPending { broker.state := broker.state.(halt := Halted); }
        } else if broker.state.halt != Active {
          broker.SellAll(bar.open, RiskHalt);
          exited := true;
          broker.state := broker.state.(halt := Halted);
        } else if HorizonReached(config, broker.state, bar) {
          broker.SellAll(bar.open, HorizonExit);
          exited := true;
        } else if ModelSaysExit(config, broker.state) {
          broker.SellAll(bar.open, ModelExit);
          exited := true;
        }
      }
    }

    method EnterIfWanted(bar: Bar, exited: bool)
      requires ValidEngine(config) && broker.config == config.risk && ValidBar(bar) && Holds(config, broker.state)
      modifies broker
      ensures broker.state == AfterEntry(config, old(broker.state), bar, exited)
    {
      hide Kept, Bought, SizeEntry;
      if !MayEnter(config, broker.state, exited) { return; }
      var decision := SizeEntry(config.risk, broker.state.cash, broker.state.cash, bar.open, broker.state.pending.atr);
      if decision.Refused? { return; }
      BuyKeeps(config.risk, broker.state, bar.open, broker.state.pending.atr);
      broker.Buy(bar.open, decision.notional, decision.stop);
      if config.model.mode.ExpectedReturnMode? {
        broker.state := broker.state.(horizonExit := Some(
          bar.timestamp + config.intervalNs * config.model.horizonBars));
      }
    }

    method CheckStop(bar: Bar) returns (stopped: bool)
      requires broker.config == config.risk
      modifies broker
      ensures broker.state == AfterStop(config, old(broker.state), bar)
        && stopped == StopHit(config, old(broker.state), bar)
    {
      hide SoldAll, Times;
      if broker.state.quantity <= 0.0 { return false; }
      var fixedStop, trailingStop := FixedStop(broker.state), TrailingStopPrice(config, broker.state);
      var stopPrice := Max(fixedStop, trailingStop);
      if bar.low <= stopPrice {
        broker.SellAll(Min(bar.open, stopPrice), if trailingStop >= fixedStop then TrailingStop else StopLoss);
        broker.state := broker.state.(cooldown := config.risk.cooldownBars);
        return true;
      }
      broker.state := broker.state.(peakPrice := Max(broker.state.peakPrice, bar.high));
      return false;
    }

    method MarkToMarket(price: real)
      modifies broker
      ensures broker.state == AfterMark(config, old(broker.state), price)
    {
      hide MarkedEquity, Drawdown;
      var equity := MarkedEquity(config, broker.state, price);
      broker.state := broker.state.(peakEquity := Max(broker.state.peakEquity, equity));
      var drawdown := Drawdown(equity, broker.state.peakEquity);
      if broker.state.halt == Active && drawdown + DRAWDOWN_SLACK >= config.risk.maxDrawdown {
        broker.state := broker.state.(halt := if broker.state.quantity > 0.0 then HaltPending else Halted);
      }
    }

    method Liquidate(rawPrice: real)
      requires Valid() && rawPrice > 0.0
      modifies broker
      ensures Valid() && broker.state == AfterLiquidation(config, old(broker.state), rawPrice)
    {
      hide SoldAll, Kept;
      LiquidationKeeps(config, broker.state, rawPrice);
      if broker.state.quantity <= 0.0 { return; }
      broker.SellAll(rawPrice, EndOfRun);
      if broker.state.halt == HaltPending { broker.state := broker.state.(halt := Halted); }
    }
  }

  lemma SoldHalt(r: RiskConfig, s: Portfolio, rawPrice: real, reason: ExitReason)
    ensures SoldAll(r, s, rawPrice, reason).halt == s.halt
  {
  }
}
