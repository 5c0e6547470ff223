/** The paper engine: the same broker and risk rules under observed ticker prices instead of bar opens. */
module PaperEngine {
  import opened Envelopes
  import opened Brokerage
  import opened BarEngine

  datatype Ticker = Ticker(price: real, observedAt: int, exchangeAt: int)

  datatype PaperConfig = PaperConfig(engine: EngineConfig, maxAgeNs: int, maxDelayNs: int)

  /** Clock skew allowed before a ticker counts as unusable: five seconds. */
  const SKEW_NS := 5_000_000_000

  /** Times already seen by the account. */
  datatype Clock = Clock(updatedAt: Option<int>, lastExchange: Option<int>)

  /** The latest closed bar and what the model says about it. */
  datatype Snapshot = Snapshot(barTime: int, ready: bool, signal: Signal)

  datatype Refusal = TickerNotReady | OlderBar

  function SignalTime(c: PaperConfig, n: Snapshot): int { n.barTime + c.engine.intervalNs }

  function WhyNot(c: PaperConfig, s: Portfolio, clock: Clock, n: Snapshot, k: Ticker): Option<Refusal> {
    if k.observedAt < SignalTime(c, n) || k.exchangeAt < SignalTime(c, n)
       || k.observedAt - k.exchangeAt < -SKEW_NS || k.observedAt - k.exchangeAt > c.maxAgeNs
       || (clock.updatedAt.Some? && k.observedAt < clock.updatedAt.value)
       || (clock.lastExchange.Some? && k.exchangeAt < clock.lastExchange.value) then Some(TickerNotReady)
    else if s.lastBar.Some? && n.barTime < s.lastBar.value then Some(OlderBar)
    else None
  }

  // ---------------------------------------------------------------- the phases of a snapshot

  predicate NewBar(c: PaperConfig, s: Portfolio, n: Snapshot)
  {
    s.lastBar.Some? && n.barTime - s.lastBar.value == c.engine.intervalNs
  }

  predicate Gap(c: PaperConfig, s: Portfolio, n: Snapshot)
  {
    s.lastBar.Some? && n.barTime - s.lastBar.value > c.engine.intervalNs
  }

  /** Missed bars, a model that is not ready and a stale signal all halt instead of trading. */
  predicate Halting(c: PaperConfig, s: Portfolio, n: Snapshot, k: Ticker) {
    Gap(c, s, n) || (NewBar(c, s, n) && (!n.ready || k.observedAt - SignalTime(c, n) > c.maxDelayNs))
  }

  predicate Tradeable(c: PaperConfig, s: Portfolio, n: Snapshot, k: Ticker) { NewBar(c, s, n) && !Halting(c, s, n, k) }

  function AfterIntake(c: PaperConfig, s: Portfolio, n: Snapshot, k: Ticker): (t: Portfolio)
    ensures t.lastBar == s.lastBar
  {
    if Halting(c, s, n, k) then s.(pending := NO_SIGNAL, halt := if s.quantity > 0.0 then HaltPending else Halted)
      else s
  }

  function ExitNow(c: PaperConfig, s: Portfolio, k: Ticker): Option<ExitReason> {
    if s.quantity <= 0.0 then None
    else if s.halt != Active then Some(RiskHalt)
    else if c.engine.model.mode.ExpectedReturnMode? && s.horizonExit.Some? && k.observedAt >= s.horizonExit.value
      then Some(HorizonExit)
    else if k.price <= StopPrice(c.engine, s) then
      Some(if TrailingStopPrice(c.engine, s) >= FixedStop(s) then TrailingStop else StopLoss)
    else None
  }

  predicate IsStop(reason: Option<ExitReason>) { reason == Some(TrailingStop) || reason == Some(StopLoss) }

  function AfterExits(c: PaperConfig, s: Portfolio, k: Ticker): (t: Portfolio)
    ensures t.lastBar == s.lastBar
  {
    var reason := ExitNow(c, s, k);
    if reason.None? then s
    else
      var t := SoldAll(c.engine.risk, s, k.price, reason.value);
      if reason.value.RiskHalt? then t.(halt := Halted)
      else if IsStop(reason) then t.(cooldown := c.engine.risk.cooldownBars)
      else t
  }

  /** With a tradeable signal, an exit the model asks for. */
  predicate ModelExits(c: PaperConfig, s: Portfolio, now: Signal, tradeable: bool, exited: bool) {
    && tradeable && c.engine.model.mode.ProbabilityMode? && s.quantity > 0.0 && s.halt == Active && !exited
    && now.probability.Some? && now.probability.value <= c.engine.model.exitProbability
  }

  function AfterModelExit(c: PaperConfig, s: Portfolio, k: Ticker, now: Signal, tradeable: bool,
      exited: bool): (t: Portfolio)
    ensures t.lastBar == s.lastBar
  {
    if ModelExits(c, s, now, tradeable, exited) then SoldAll(c.engine.risk, s, k.price, ModelExit) else s
  }

  predicate Wants(c: PaperConfig, now: Signal) {
    if c.engine.model.mode.ProbabilityMode?
      then now.probability.Some? && now.probability.value >= c.engine.model.entryProbability
    else now.eligible && now.edge.Some? && now.edge.value >= c.engine.model.minimumEdge
  }

  predicate Enters(c: PaperConfig, s: Portfolio, now: Signal, tradeable: bool, cooldownAtStart: nat, exited: bool) {
    tradeable && s.quantity <= 0.0 && s.halt == Active && cooldownAtStart == 0 && !exited && Wants(c, now)
  }

  function AfterEntries(c: PaperConfig, s: Portfolio, n: Snapshot, k: Ticker, tradeable: bool, cooldownAtStart: nat,
      exited: bool): (t: Portfolio)
    requires ValidEngine(c.engine) && k.price > 0.0
    ensures t.lastBar == s.lastBar
  {
    if !Enters(c, s, n.signal, tradeable, cooldownAtStart, exited) then s
    else
      match SizeEntry(c.engine.risk, s.cash, s.cash, k.price, n.signal.atr)
      case Refused => s
      case Accepted(notional, stop) =>
        var t := Bought(c.engine.risk, s, k.price, notional, stop);
        if c.engine.model.mode.ExpectedReturnMode? then
          t.(horizonExit := Some(SignalTime(c, n) + c.engine.intervalNs * c.engine.model.horizonBars))
        else t
  }

  function PaperSignal(c: PaperConfig, now: Signal): Signal {
    var probability := if c.engine.model.mode.ProbabilityMode? then now.probability else None;
    var edge := if c.engine.model.mode.ExpectedReturnMode? then now.edge else None;
    Signal(probability, edge, c.engine.model.mode.ExpectedReturnMode? && now.eligible, now.atr)
  }

  function AfterSnapshot(c: PaperConfig, s: Portfolio, n: Snapshot, k: Ticker): Portfolio
    requires ValidEngine(c.engine) && k.price > 0.0
  {
    var taken := AfterIntake(c, s, n, k);
    var tradeable := Tradeable(c, s, n, k);
    var out := AfterExits(c, taken, k);
    var exited := ExitNow(c, taken, k);
    var modelOut := AfterModelExit(c, out, k, n.signal, tradeable, exited.Some?);
    var gone := exited.Some? || ModelExits(c, out, n.signal, tradeable, exited.Some?);
    var entered := AfterEntries(c, modelOut, n, k, tradeable, s.cooldown, gone);
    var peaked := if entered.quantity > 0.0 then entered.(peakPrice := Max(entered.peakPrice, k.price)) else entered;
    Settled(c, s, AfterMark(c.engine, peaked, k.price), n, k, IsStop(exited))
  }

  /** Cooldown, pending signal and clocks once the account is marked. */
  function Settled(c: PaperConfig, s: Portfolio, marked: Portfolio, n: Snapshot, k: Ticker, stopped: bool): Portfolio {
    var newest := s.lastBar.None? || NewBar(c, s, n);
    marked.(
      cooldown := if NewBar(c, s, n) then Cooled(s.cooldown, marked, stopped) else marked.cooldown,
      pending := if marked.halt != Active then NO_SIGNAL else if newest then PaperSignal(c, n.signal)
        else marked.pending,
      lastBar := if newest || Gap(c, s, n) then Some(n.barTime) else marked.lastBar,
      peakPrice := if s.quantity <= 0.0 && marked.quantity > 0.0 then Max(marked.entryPrice, k.price)
        else marked.peakPrice)
  }

  // ---------------------------------------------------------------- what every snapshot keeps

  lemma ExitsKeep(c: PaperConfig, s: Portfolio, k: Ticker)
    requires ValidEngine(c.engine) && k.price > 0.0 && Kept(c.engine.risk, s)
      && (s.quantity > 0.0 ==> s.peakPrice > 0.0)
    requires (s.halt == Halted ==> s.quantity == 0.0) && (s.halt == HaltPending ==> s.quantity > 0.0)
    ensures var t := AfterExits(c, s, k);
      && Holds(c.engine, t) && t.buys == s.buys && (s.halt != Active ==> t.halt == Halted && t.quantity == 0.0)
      && (s.halt == Active ==> t.halt == Active)
  {
    hide Kept, SoldAll, StopPrice, TrailingStopPrice, FixedStop;
    var reason := ExitNow(c, s, k);
    if reason.Some? {
      var sold := SoldAll(c.engine.risk, s, k.price, reason.value);
      SellKeeps(c.engine.risk, s, k.price, reason.value);
      SameBooks(c.engine.risk, sold, AfterExits(c, s, k));
    }
  }

  lemma ModelExitKeeps(c: PaperConfig, s: Portfolio, k: Ticker, now: Signal, tradeable: bool, exited: bool)
    requires ValidEngine(c.engine) && k.price > 0.0 && Holds(c.engine, s)
    ensures var t := AfterModelExit(c, s, k, now, tradeable, exited);
      Holds(c.engine, t) && t.buys == s.buys && t.halt == s.halt && (s.quantity == 0.0 ==> t.quantity == 0.0)
  {
    hide Kept, SoldAll;
    if ModelExits(c, s, now, tradeable, exited) { SellKeeps(c.engine.risk, s, k.price, ModelExit); }
  }

  lemma EntriesKeep(c: PaperConfig, s: Portfolio, n: Snapshot, k: Ticker, tradeable: bool, cooldownAtStart: nat,
      exited: bool)
    requires ValidEngine(c.engine) && k.price > 0.0 && Holds(c.engine, s)
    ensures var t := AfterEntries(c, s, n, k, tradeable, cooldownAtStart, exited);
      && Holds(c.engine, t) && t.halt == s.halt && (s.halt != Active ==> t == s)
  {
    hide Kept, Bought, SizeEntry, Wants;
    if Enters(c, s, n.signal, tradeable, cooldownAtStart, exited) {
      var d := SizeEntry(c.engine.risk, s.cash, s.cash, k.price, n.signal.atr);
      if d.Accepted? {
        BuyKeeps(c.engine.risk, s, k.price, n.signal.atr);
        BoughtPeak(c.engine.risk, s, k.price, d.notional, d.stop);
        SameBooks(c.engine.risk, Bought(c.engine.risk, s, k.price, d.notional, d.stop),
                  AfterEntries(c, s, n, k, tradeable, cooldownAtStart, exited));
      }
    }
  }

  lemma PeakKeeps(c: PaperConfig, s: Portfolio, k: Ticker)
    requires Holds(c.engine, s)
    ensures Holds(c.engine, s.(peakPrice := Max(s.peakPrice, k.price)))
  {
    hide Kept;
    SameBooks(c.engine.risk, s, s.(peakPrice := Max(s.peakPrice, k.price)));
  }

  lemma SettledKeeps(c: PaperConfig, s: Portfolio, marked: Portfolio, n: Snapshot, k: Ticker, stopped: bool)
    requires Holds(c.engine, marked) && k.price > 0.0
    ensures var t := Settled(c, s, marked, n, k, stopped);
      Holds(c.engine, t) && t.halt == marked.halt && t.buys == marked.buys
  {
    hide Kept, PaperSignal;
    SameBooks(c.engine.risk, marked, Settled(c, s, marked, n, k, stopped));
  }

  /**
   Every snapshot keeps the books balanced and each trade within its risk budget, keeps a halted account flat,
   never lifts a halt, and buys nothing once the account is halted or about to be.
   */
  lemma SnapshotKeeps(c: PaperConfig, s: Portfolio, n: Snapshot, k: Ticker)
    requires ValidEngine(c.engine) && k.price > 0.0 && Holds(c.engine, s)
    ensures var t := AfterSnapshot(c, s, n, k);
      && Holds(c.engine, t) && HaltLatched(s, t)
      && (s.halt != Active || Halting(c, s, n, k) ==> t.halt == Halted && t.quantity == 0.0 && t.buys == s.buys)
  {
    hide Kept, AfterExits, ExitNow, AfterModelExit, ModelExits, AfterEntries, AfterMark, Settled, Tradeable, Halting;
    var taken := AfterIntake(c, s, n, k);
    SameBooks(c.engine.risk, s, taken);
    NonNegativeQuantity(c.engine.risk, s);
    var tradeable := Tradeable(c, s, n, k);
    ExitsKeep(c, taken, k);
    var out, exited := AfterExits(c, taken, k), ExitNow(c, taken, k);
    ModelExitKeeps(c, out, k, n.signal, tradeable, exited.Some?);
    var modelOut := AfterModelExit(c, out, k, n.signal, tradeable, exited.Some?);
    var gone := exited.Some? || ModelExits(c, out, n.signal, tradeable, exited.Some?);
    EntriesKeep(c, modelOut, n, k, tradeable, s.cooldown, gone);
    var entered := AfterEntries(c, modelOut, n, k, tradeable, s.cooldown, gone);
    PeakKeeps(c, entered, k);
    NonNegativeQuantity(c.engine.risk, entered);
    var peaked := if entered.quantity > 0.0 then entered.(peakPrice := Max(entered.peakPrice, k.price)) else entered;
    MarkKeepsPaper(c, peaked, k.price);
    SettledKeeps(c, s, AfterMark(c.engine, peaked, k.price), n, k, IsStop(exited));
  }

  lemma MarkKeepsPaper(c: PaperConfig, s: Portfolio, price: real)
    requires Holds(c.engine, s) && (s.halt == Active || s.halt == Halted)
    ensures var t := AfterMark(c.engine, s, price);
      Holds(c.engine, t) && t.buys == s.buys && t.quantity == s.quantity && (s.halt != Active ==> t.halt == s.halt)
  {
    hide Kept, MarkedEquity, Drawdown;
    MarkKeeps(c.engine, s, price);
  }

  // ---------------------------------------------------------------- whole sessions

  datatype Observed = Observed(snapshot: Snapshot, ticker: Ticker)

  datatype Session = Session(state: Portfolio, clock: Clock)

  /** A refused snapshot changes nothing. */
  function Next(c: PaperConfig, a: Session, o: Observed): Session
    requires ValidEngine(c.engine) && o.ticker.price > 0.0
  {
    if WhyNot(c, a.state, a.clock, o.snapshot, o.ticker).Some? then a
    else
      Session(AfterSnapshot(c, a.state, o.snapshot, o.ticker),
              Clock(Some(o.ticker.observedAt), Some(o.ticker.exchangeAt)))
  }

  predicate Priced(os: seq<Observed>) {
    forall i :: 0 <= i < |os| ==> os[i].ticker.price > 0.0
  }

  function RunSession(c: PaperConfig, os: seq<Observed>): Session
    requires ValidEngine(c.engine) && Priced(os)
    decreases |os|
  {
    if os == [] then Session(Opened(c.engine.risk), Clock(None, None))
    else Next(c, RunSession(c, os[..|os| - 1]), os[|os| - 1])
  }

  /** No earlier than before. */
  predicate NotBefore(earlier: Option<int>, later: Option<int>) {
    earlier.Some? ==> later.Some? && earlier.value <= later.value
  }

  lemma NextKeeps(c: PaperConfig, a: Session, o: Observed)
    requires ValidEngine(c.engine) && o.ticker.price > 0.0 && Holds(c.engine, a.state)
    ensures var b := Next(c, a, o);
      && Holds(c.engine, b.state) && HaltLatched(a.state, b.state)
      && (a.state.halt == Halted ==> b.state.halt == Halted && b.state.quantity == 0.0)
      && NotBefore(a.clock.updatedAt, b.clock.updatedAt) && NotBefore(a.clock.lastExchange, b.clock.lastExchange)
      && NotBefore(a.state.lastBar, b.state.lastBar)
  {
    hide Kept, AfterExits, ExitNow, AfterModelExit, AfterEntries, AfterMark;
    if WhyNot(c, a.state, a.clock, o.snapshot, o.ticker).None? {
      SnapshotKeeps(c, a.state, o.snapshot, o.ticker);
      BarAdvances(c, a.state, o.snapshot, o.ticker);
    }
  }

  /** Only the clocks step moves the last bar, and never back for an accepted snapshot. */
  lemma BarAdvances(c: PaperConfig, s: Portfolio, n: Snapshot, k: Ticker)
    requires ValidEngine(c.engine) && k.price > 0.0 && (s.lastBar.Some? ==> s.lastBar.value <= n.barTime)
    ensures NotBefore(s.lastBar, AfterSnapshot(c, s, n, k).lastBar)
  {
    hide AfterIntake, AfterExits, AfterModelExit, AfterEntries, AfterMark, ExitNow, ModelExits, Tradeable;
  }

  /**
   Over every session, and from any point `n` of it on: the books stay balanced and every trade within its budget,
   a halt is never lifted and nothing bought under it, and neither observed times nor bars go back.
   */
  lemma {:induction false} SessionKeeps(c: PaperConfig, os: seq<Observed>, n: nat)
    requires ValidEngine(c.engine) && Priced(os) && n <= |os|
    ensures var a, b := RunSession(c, os[..n]), RunSession(c, os);
      && Holds(c.engine, b.state) && HaltLatched(a.state, b.state)
      && (a.state.halt == Halted ==> b.state.halt == Halted && b.state.quantity == 0.0)
      && NotBefore(a.clock.updatedAt, b.clock.updatedAt) && NotBefore(a.clock.lastExchange, b.clock.lastExchange)
      && NotBefore(a.state.lastBar, b.state.lastBar)
    decreases |os|
  {
    hide Next, Kept;
    OpenedHolds(c.engine);
    if os == [] {
      assert os[..n] == os;
    } else {
      var m := |os| - 1;
      SessionKeeps(c, os[..m], if n <= m then n else m);
      NextKeeps(c, RunSession(c, os[..m]), os[m]);
      if n <= m { assert os[..m][..n] == os[..n]; } else { assert os[..n] == os; }
    }
  }

  // ---------------------------------------------------------------- the engine

  datatype PaperOutcome = Processed | NotProcessed(why: Refusal)

  class PaperSnapshotEngine {
    const config: PaperConfig
    const broker: SimulatedBroker
    var clock: Clock

    ghost predicate Valid()
      reads this, broker
    {
      ValidEngine(config.engine) && broker.config == config.engine.risk && Holds(config.engine, broker.state)
    }

    constructor (config: PaperConfig)
      requires ValidEngine(config.engine)
      ensures Valid() && fresh(broker) && this.config == config
    {
      this.config := config;
      this.broker := new SimulatedBroker(config.engine.risk);
      this.clock := Clock(None, None);
      new;
      OpenedHolds(config.engine);
    }

    method ProcessSnapshot(n: Snapshot, k: Ticker) returns (outcome: PaperOutcome)
      requires Valid() && k.price > 0.0
      modifies this, broker
      ensures Valid()
      ensures var why := WhyNot(config, old(broker.state), old(clock), n, k);
        && outcome == (if why.Some? then NotProcessed(why.value) else Processed)
        && broker.state == (if why.Some? then old(broker.state) else AfterSnapshot(config, old(broker.state), n, k))
        && clock == (if why.Some? then old(clock) else Clock(Some(k.observedAt), Some(k.exchangeAt)))
    {
      hide Kept, WhyNot, Bought, SoldAll, SizeEntry, MarkedEquity, Drawdown, PaperSignal, ExitNow, AfterExits,
        AfterModelExit, ModelExits, AfterEntries;
      var why := WhyNot(config, broker.state, clock, n, k);
      if why.Some? { return NotProcessed(why.value); }
      ghost var before := broker.state;
      SnapshotKeeps(config, before, n, k);
      var start := broker.state;
      var tradeable := Tradeable(config, start, n, k);
      if Halting(config, start, n, k) {
        broker.state := broker.state.(pending := NO_SIGNAL);
        broker.state := broker.state.(halt := if broker.state.quantity > 0.0 then HaltPending else Halted);
      }
      var exited, stopped := ExitIfDue(k);
      var left := ExitOnModel(n.signal, k, tradeable, exited);
      PreparedToEnter(config, before, n, k);
      EnterIfWanted(n, k, tradeable, start.cooldown, exited || left);
      if broker.state.quantity > 0.0 {
        broker.state := broker.state.(peakPrice := Max(broker.state.peakPrice, k.price));
      }
      Mark(k.price);
      broker.state := Settled(config, start, broker.state, n, k, stopped);
      clock := Clock(Some(k.observedAt), Some(k.exchangeAt));
      return Processed;
    }

    method ExitIfDue(k: Ticker) returns (exited: bool, stopped: bool)
      requires broker.config == config.engine.risk
      modifies broker
      ensures broker.state == AfterExits(config, old(broker.state), k)
      ensures exited == ExitNow(config, old(broker.state), k).Some?
        && stopped == IsStop(ExitNow(config, old(broker.state), k))
    {
      hide SoldAll, StopPrice, TrailingStopPrice, FixedStop;
      exited, stopped := false, false;
      var s := broker.state;
      if s.quantity <= 0.0 { return; }
      if s.halt != Active {
        broker.SellAll(k.price, RiskHalt);
        broker.state := broker.state.(halt := Halted);
        exited := true;
      } else if config.engine.model.mode.ExpectedReturnMode? && s.horizonExit.Some?
        && k.observedAt >= s.horizonExit.value {
        broker.SellAll(k.price, HorizonExit);
        exited := true;
      } else if k.price <= StopPrice(config.engine, s) {
        broker.SellAll(k.price, if TrailingStopPrice(config.engine, s) >= FixedStop(s) then TrailingStop else StopLoss);
        broker.state := broker.state.(cooldown := config.engine.risk.cooldownBars);
        exited, stopped := true, true;
      }
    }

    method ExitOnModel(now: Signal, k: Ticker, tradeable: bool, exited: bool) returns (left: bool)
      requires broker.config == config.engine.risk
      modifies broker
      ensures broker.state == AfterModelExit(config, old(broker.state), k, now, tradeable, exited)
      ensures left == ModelExits(config, old(broker.state), now, tradeable, exited)
    {
      hide SoldAll;
      left := ModelExits(config, broker.state, now, tradeable, exited);
      if left { broker.SellAll(k.price, ModelExit); }
    }

    method EnterIfWanted(n: Snapshot, k: Ticker, tradeable: bool, cooldownAtStart: nat, exited: bool)
      requires ValidEngine(config.engine) && broker.config == config.engine.risk && k.price > 0.0
        && Holds(config.engine, broker.state)
      modifies broker
      ensures broker.state == AfterEntries(config, old(broker.state), n, k, tradeable, cooldownAtStart, exited)
    {
      hide Kept, Bought, SizeEntry, Wants;
      if !Enters(config, broker.state, n.signal, tradeable, cooldownAtStart, exited) { return; }
      var decision := SizeEntry(config.engine.risk, broker.state.cash, broker.state.cash, k.price, n.signal.atr);
      if decision.Refused? { return; }
      BuyKeeps(config.engine.risk, broker.state, k.price, n.signal.atr);
      broker.Buy(k.price, decision.notional, decision.stop);
      if config.engine.model.mode.ExpectedReturnMode? {
        broker.state := broker.state.(horizonExit := Some(SignalTime(config, n)
          + config.engine.intervalNs * config.engine.model.horizonBars));
      }
    }

    method Mark(price: real)
      modifies broker
      ensures broker.state == AfterMark(config.engine, old(broker.state), price)
    {
      hide MarkedEquity, Drawdown;
      var equity := MarkedEquity(config.engine, broker.state, price);
      broker.state := broker.state.(peakEquity := Max(broker.state.peakEquity, equity));
      var drawdown := Drawdown(equity, broker.state.peakEquity);
      if broker.state.halt == Active && drawdown + DRAWDOWN_SLACK >= config.engine.risk.maxDrawdown {
        broker.state := broker.state.(halt := if broker.state.quantity > 0.0 then HaltPending else Halted);
      }
    }
  }

  lemma PreparedToEnter(c: PaperConfig, s: Portfolio, n: Snapshot, k: Ticker)
    requires ValidEngine(c.engine) && k.price > 0.0 && Holds(c.engine, s)
    ensures var taken := AfterIntake(c, s, n, k);
      Holds(c.engine,
        AfterModelExit(c, AfterExits(c, taken, k), k, n.signal, Tradeable(c, s, n, k), ExitNow(c, taken, k).Some?))
  {
    hide Kept, AfterExits, ExitNow, AfterModelExit, Tradeable, Halting;
    var taken := AfterIntake(c, s, n, k);
    SameBooks(c.engine.risk, s, taken);
    NonNegativeQuantity(c.engine.risk, s);
    ExitsKeep(c, taken, k);
    ModelExitKeeps(c, AfterExits(c, taken, k), k, n.signal, Tradeable(c, s, n, k), ExitNow(c, taken, k).Some?);
  }
}
