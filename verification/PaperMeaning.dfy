/** What one observed ticker does to a paper account: why it bought, why it sold, and when it may buy again. */
module PaperMeaning {
  import opened Envelopes
  import opened Brokerage
  import opened BarEngine
  import opened PaperEngine
  import opened BarMeaning

  /** A bar was missed, or the next one came without a model or too late to trade on. */
  predicate MustHalt(c: PaperConfig, s: Portfolio, n: Snapshot, k: Ticker) {
    && s.lastBar.Some?
    && (n.barTime > s.lastBar.value + c.engine.intervalNs
        || (n.barTime == s.lastBar.value + c.engine.intervalNs
            && (!n.ready || k.observedAt > n.barTime + c.engine.intervalNs + c.maxDelayNs)))
  }

  lemma HaltsExactly(c: PaperConfig, s: Portfolio, n: Snapshot, k: Ticker)
    ensures Halting(c, s, n, k) <==> MustHalt(c, s, n, k)
  {
  }

  /**
   A snapshot is used exactly when the ticker came after the bar's close by both clocks, is neither from the future by
   more than five seconds nor too old, when no clock runs back, and when the bar is not older than the last one.
   */
  lemma UsedExactly(c: PaperConfig, s: Portfolio, clock: Clock, n: Snapshot, k: Ticker)
    ensures WhyNot(c, s, clock, n, k).None? <==>
      && n.barTime + c.engine.intervalNs <= k.observedAt && n.barTime + c.engine.intervalNs <= k.exchangeAt
      && k.exchangeAt <= k.observedAt + 5_000_000_000 && k.observedAt <= k.exchangeAt + c.maxAgeNs
      && NotBefore(clock.updatedAt, Some(k.observedAt)) && NotBefore(clock.lastExchange, Some(k.exchangeAt))
      && NotBefore(s.lastBar, Some(n.barTime))
  {
  }

  /** Why a snapshot closed a position, always at the ticker's price. */
  ghost predicate PaperSaleReads(c: PaperConfig, s: Portfolio, n: Snapshot, k: Ticker, x: Trade) {
    && s.quantity > 0.0 && x.rawExit == k.price
    && match x.reason
    case RiskHalt => s.halt != Active || MustHalt(c, s, n, k)
    case HorizonExit =>
      c.engine.model.mode.ExpectedReturnMode? && s.horizonExit.Some? && k.observedAt >= s.horizonExit.value
    case ModelExit =>
      && c.engine.model.mode.ProbabilityMode? && Tradeable(c, s, n, k)
      && n.signal.probability.Some? && n.signal.probability.value <= c.engine.model.exitProbability
    case DataGap => false
    case EndOfRun => false
    case _ =>
      var trails := x.reason == TrailingStop;
      exists p :: IsStopPrice(c.engine, s.entryPrice, s.stop, s.peakPrice, p, trails) && k.price <= p
  }

  /** Only an unhalted flat account out of its cooldown buys, on a fresh signal of the very next bar. */
  predicate PaperBuyDue(c: PaperConfig, s: Portfolio, n: Snapshot, k: Ticker)
    requires ValidEngine(c.engine)
  {
    && s.quantity <= 0.0 && s.halt == Active && s.cooldown == 0 && NewBar(c, s, n) && n.ready
    && k.observedAt - SignalTime(c, n) <= c.maxDelayNs
    && (if c.engine.model.mode.ProbabilityMode?
        then n.signal.probability.Some? && n.signal.probability.value >= c.engine.model.entryProbability
        else n.signal.eligible && n.signal.edge.Some? && n.signal.edge.value >= c.engine.model.minimumEdge)
    && SizeEntry(c.engine.risk, s.cash, s.cash, k.price, n.signal.atr).Accepted?
  }

  /** A position is still there after a ticker above its stop, which then trails the highest price. */
  ghost predicate PaperStayedAbove(c: PaperConfig, s: Portfolio, k: Ticker, t: Portfolio) {
    var peak := PeakSeen(s, t, t.entryPrice);
    && t.peakPrice == (if peak >= k.price then peak else k.price)
    && (t.buys == s.buys ==> exists p, trails ::
          IsStopPrice(c.engine, t.entryPrice, t.stop, s.peakPrice, p, trails) && k.price > p)
  }

  ghost predicate SnapshotReads(c: PaperConfig, s: Portfolio, n: Snapshot, k: Ticker, t: Portfolio)
    requires ValidEngine(c.engine)
  {
    var sold := NewTrade(s, t);
    && AtMostOneTrade(s, t) && (sold.Some? ==> PaperSaleReads(c, s, n, k, sold.value))
    && t.buys == s.buys + (if PaperBuyDue(c, s, n, k) then 1 else 0)
    && (t.quantity > 0.0 ==> PaperStayedAbove(c, s, k, t))
    && t.cooldown == (if sold.Some? && StoppedOut(sold.value.reason) then c.engine.risk.cooldownBars
                      else if NewBar(c, s, n) && s.cooldown > 0 then s.cooldown - 1 else s.cooldown)
  }

  // ---------------------------------------------------------------- the exits

  /** Nothing was sold: the account is as it was, but for a halt. */
  predicate Unsold(s: Portfolio, t: Portfolio) {
    && t.trades == s.trades && t.quantity == s.quantity && t.cash == s.cash && t.buys == s.buys
    && t.entryPrice == s.entryPrice && t.stop == s.stop && t.peakPrice == s.peakPrice && t.cooldown == s.cooldown
  }

  predicate Sold(s: Portfolio, t: Portfolio) {
    s.trades < t.trades && |t.trades| == |s.trades| + 1 && t.quantity == 0.0 && t.buys == s.buys
  }

  lemma ExitsMeaning(c: PaperConfig, s: Portfolio, n: Snapshot, k: Ticker)
    requires Holds(c.engine, s)
    ensures var taken := AfterIntake(c, s, n, k);
      var t, reason := AfterExits(c, taken, k), ExitNow(c, taken, k);
      && (reason.None? ==> Unsold(s, t) && (t.halt == Active || s.quantity <= 0.0))
      && (t.halt == Active ==> s.halt == Active && !Halting(c, s, n, k))
      && (reason.None? && s.quantity > 0.0 ==> k.price > StopPrice(c.engine, s))
      && (reason.None? && s.halt == Active && !Halting(c, s, n, k) ==> t == s)
      && (reason.Some? ==>
            && Sold(s, t) && PaperSaleReads(c, s, n, k, t.trades[|s.trades|])
            && t.trades[|s.trades|].reason == reason.value && !reason.value.ModelExit?
            && t.cooldown == (if IsStop(reason) then c.engine.risk.cooldownBars else s.cooldown))
  {
    hide Kept, Times, ExitTrade, StopPrice, TrailingStopPrice, FixedStop, Halting, IsStopPrice;
    var taken := AfterIntake(c, s, n, k);
    var reason := ExitNow(c, taken, k);
    SameStops(c, s, taken);
    HaltsExactly(c, s, n, k);
    if reason.Some? {
      ExitTradeIs(c.engine.risk, taken, k.price, reason.value);
      StopPriceIs(c.engine, s);
      assert IsStop(reason) ==>
        IsStopPrice(c.engine, s.entryPrice, s.stop, s.peakPrice, StopPrice(c.engine, s), reason.value == TrailingStop);
    }
  }

  lemma SameStops(c: PaperConfig, s: Portfolio, t: Portfolio)
    requires t.entryPrice == s.entryPrice && t.stop == s.stop && t.peakPrice == s.peakPrice
    ensures StopPrice(c.engine, t) == StopPrice(c.engine, s) && FixedStop(t) == FixedStop(s)
    ensures TrailingStopPrice(c.engine, t) == TrailingStopPrice(c.engine, s)
  {
  }

  lemma ModelExitMeaning(c: PaperConfig, s: Portfolio, k: Ticker, now: Signal, tradeable: bool, exited: bool)
    ensures var t := AfterModelExit(c, s, k, now, tradeable, exited);
      if ModelExits(c, s, now, tradeable, exited) then
        && Sold(s, t) && t.trades[|s.trades|].rawExit == k.price && t.trades[|s.trades|].reason == ModelExit
        && t.cooldown == s.cooldown && t.halt == s.halt
      else t == s
  {
    hide Times, ExitTrade;
    ExitTradeIs(c.engine.risk, s, k.price, ModelExit);
  }

  predicate EnteredReads(s: Portfolio, t: Portfolio, bought: bool) {
    && t.trades == s.trades && t.cooldown == s.cooldown && t.buys == s.buys + (if bought then 1 else 0)
    && (bought ==> t.peakPrice == t.entryPrice) && (!bought ==> t == s)
  }

  lemma EntryMeaning(c: PaperConfig, s: Portfolio, n: Snapshot, k: Ticker, tradeable: bool, cooldownAtStart: nat,
      exited: bool)
    requires ValidEngine(c.engine) && k.price > 0.0
    ensures var t := AfterEntries(c, s, n, k, tradeable, cooldownAtStart, exited);
      var bought := Enters(c, s, n.signal, tradeable, cooldownAtStart, exited)
        && SizeEntry(c.engine.risk, s.cash, s.cash, k.price, n.signal.atr).Accepted?;
      EnteredReads(s, t, bought)
  {
    hide Times, Over, Brokerage.Min, SizeEntry, Wants;
  }

  /** The peak, the marking and the clocks: from the account after the entry to the end of the snapshot. */
  predicate Closes(c: PaperConfig, s: Portfolio, entered: Portfolio, n: Snapshot, k: Ticker, stopped: bool,
      t: Portfolio)
  {
    && t.trades == entered.trades && t.buys == entered.buys && t.quantity == entered.quantity
    && t.entryPrice == entered.entryPrice && t.stop == entered.stop
    && (entered.quantity > 0.0 ==>
          var peak := if s.quantity <= 0.0 then entered.entryPrice else entered.peakPrice;
          t.peakPrice == (if peak >= k.price then peak else k.price))
    && t.cooldown == (if NewBar(c, s, n) && s.cooldown > 0 && !stopped then s.cooldown - 1 else entered.cooldown)
  }

  lemma ClosingMeaning(c: PaperConfig, s: Portfolio, entered: Portfolio, n: Snapshot, k: Ticker, stopped: bool)
    ensures var peaked :=
        if entered.quantity > 0.0 then entered.(peakPrice := Max(entered.peakPrice, k.price)) else entered;
      Closes(c, s, entered, n, k, stopped, Settled(c, s, AfterMark(c.engine, peaked, k.price), n, k, stopped))
  {
    hide PaperSignal, AfterMark;
    var peaked := if entered.quantity > 0.0 then entered.(peakPrice := Max(entered.peakPrice, k.price)) else entered;
    MarkIs(c.engine, peaked, k.price);
  }

  /** What happens up to the model's own exit: at most one sale. */
  ghost predicate OutReads(c: PaperConfig, s: Portfolio, n: Snapshot, k: Ticker, t: Portfolio, gone: bool,
      stopped: bool)
  {
    && t.buys == s.buys && (stopped ==> gone)
    && t.cooldown == (if stopped then c.engine.risk.cooldownBars else s.cooldown)
    && (t.halt == Active ==> s.halt == Active && !Halting(c, s, n, k))
    && (gone ==>
          && Sold(s, t) && s.quantity > 0.0 && PaperSaleReads(c, s, n, k, t.trades[|s.trades|])
          && (stopped <==> StoppedOut(t.trades[|s.trades|].reason)))
    && (!gone ==>
          && Unsold(s, t) && (s.quantity > 0.0 ==> k.price > StopPrice(c.engine, s))
          && (s.halt == Active && !Halting(c, s, n, k) ==> t.halt == Active))
  }

  lemma OutMeaning(c: PaperConfig, s: Portfolio, n: Snapshot, k: Ticker)
    requires Holds(c.engine, s)
    ensures var taken, tradeable := AfterIntake(c, s, n, k), Tradeable(c, s, n, k);
      var out, exited := AfterExits(c, taken, k), ExitNow(c, taken, k);
      OutReads(c, s, n, k, AfterModelExit(c, out, k, n.signal, tradeable, exited.Some?),
               exited.Some? || ModelExits(c, out, n.signal, tradeable, exited.Some?), IsStop(exited))
  {
    hide Kept, AfterIntake, AfterExits, ExitNow, AfterModelExit, StopPrice, Halting, IsStopPrice;
    var taken, tradeable := AfterIntake(c, s, n, k), Tradeable(c, s, n, k);
    var out, exited := AfterExits(c, taken, k), ExitNow(c, taken, k);
    ExitsMeaning(c, s, n, k);
    ModelExitMeaning(c, out, k, n.signal, tradeable, exited.Some?);
  }

  lemma PaperDueExactly(c: PaperConfig, s: Portfolio, n: Snapshot, k: Ticker, out: Portfolio, gone: bool, stopped: bool)
    requires ValidEngine(c.engine) && OutReads(c, s, n, k, out, gone, stopped)
    ensures PaperBuyDue(c, s, n, k) <==>
      && Enters(c, out, n.signal, Tradeable(c, s, n, k), s.cooldown, gone)
      && SizeEntry(c.engine.risk, out.cash, out.cash, k.price, n.signal.atr).Accepted?
  {
    hide SizeEntry, PaperSaleReads, StopPrice;
  }

  /** The pieces of a snapshot put together. */
  lemma Assembled(c: PaperConfig, s: Portfolio, n: Snapshot, k: Ticker, out: Portfolio, gone: bool, stopped: bool,
      entered: Portfolio, t: Portfolio)
    requires ValidEngine(c.engine) && OutReads(c, s, n, k, out, gone, stopped) && s.quantity >= 0.0
    requires EnteredReads(out, entered, PaperBuyDue(c, s, n, k)) && Closes(c, s, entered, n, k, stopped, t)
    ensures SnapshotReads(c, s, n, k, t)
  {
    hide Halting, PaperSaleReads, SizeEntry, StopPrice, FixedStop, TrailingStopPrice, IsStopPrice, NewBar;
    StopPriceIs(c.engine, s);
    assert PaperBuyDue(c, s, n, k) ==> s.quantity <= 0.0;
  }

  /** Every snapshot reads as described. */
  lemma SnapshotMeaning(c: PaperConfig, s: Portfolio, n: Snapshot, k: Ticker)
    requires ValidEngine(c.engine) && k.price > 0.0 && Holds(c.engine, s)
    ensures SnapshotReads(c, s, n, k, AfterSnapshot(c, s, n, k))
  {
    NonNegativeQuantity(c.engine.risk, s);
    hide Holds, AfterIntake, AfterExits, ExitNow, AfterModelExit, ModelExits, AfterEntries, AfterMark, Settled,
      OutReads, EnteredReads, Closes, SnapshotReads, SizeEntry, PaperBuyDue, Enters, Tradeable;
    var taken, tradeable := AfterIntake(c, s, n, k), Tradeable(c, s, n, k);
    var out, exited := AfterExits(c, taken, k), ExitNow(c, taken, k);
    var modelOut := AfterModelExit(c, out, k, n.signal, tradeable, exited.Some?);
    var gone := exited.Some? || ModelExits(c, out, n.signal, tradeable, exited.Some?);
    var entered := AfterEntries(c, modelOut, n, k, tradeable, s.cooldown, gone);
    OutMeaning(c, s, n, k);
    PaperDueExactly(c, s, n, k, modelOut, gone, IsStop(exited));
    EntryMeaning(c, modelOut, n, k, tradeable, s.cooldown, gone);
    ClosingMeaning(c, s, entered, n, k, IsStop(exited));
    Assembled(c, s, n, k, modelOut, gone, IsStop(exited), entered, AfterSnapshot(c, s, n, k));
  }

  // ---------------------------------------------------------------- how a snapshot leaves the account

  predicate PaperRemembers(c: PaperConfig, now: Signal, kept: Signal) {
    && kept.atr == now.atr
    && if c.engine.model.mode.ProbabilityMode? then
         kept.probability == now.probability && kept.edge.None? && !kept.eligible
       else kept.edge == now.edge && kept.probability.None? && kept.eligible == now.eligible
  }

  /** Marked at the ticker's price, halted if it has to be, and with the bar it has seen. */
  ghost predicate PaperLeavesReads(c: PaperConfig, s: Portfolio, n: Snapshot, k: Ticker, t: Portfolio) {
    && MarkReads(c.engine, s.peakEquity, s.halt != Active || MustHalt(c, s, n, k), t, k.price)
    && t.lastBar == (if s.lastBar.None? || n.barTime >= s.lastBar.value + c.engine.intervalNs then Some(n.barTime)
                     else s.lastBar)
    && (if t.halt != Active then t.pending == NO_SIGNAL
        else if s.lastBar.None? || n.barTime == s.lastBar.value + c.engine.intervalNs
          then PaperRemembers(c, n.signal, t.pending)
        else t.pending == s.pending)
    && (t.quantity > 0.0 ==>
          t.horizonExit == if t.buys > s.buys && c.engine.model.mode.ExpectedReturnMode?
            then Some(n.barTime + c.engine.intervalNs + c.engine.intervalNs * c.engine.model.horizonBars)
            else s.horizonExit)
  }

  lemma ExitsUnmarked(c: PaperConfig, s: Portfolio, n: Snapshot, k: Ticker)
    requires Holds(c.engine, s)
    ensures var taken, tradeable := AfterIntake(c, s, n, k), Tradeable(c, s, n, k);
      var out, exited := AfterExits(c, taken, k), ExitNow(c, taken, k);
      var t := AfterModelExit(c, out, k, n.signal, tradeable, exited.Some?);
      var gone := exited.Some? || ModelExits(c, out, n.signal, tradeable, exited.Some?);
      && t.peakEquity == s.peakEquity && t.buys == s.buys && (t.halt == Active || t.halt == Halted)
      && (t.halt != Active <==> s.halt != Active || MustHalt(c, s, n, k))
      && (t.halt == Active ==> t.pending == s.pending)
      && (if gone then t.quantity == 0.0 else t.horizonExit == s.horizonExit && t.quantity == s.quantity)
  {
    hide Kept, Times, ExitTrade, StopPrice, TrailingStopPrice, FixedStop, Halting, MustHalt, Tradeable;
    NonNegativeQuantity(c.engine.risk, s);
    HaltsExactly(c, s, n, k);
  }

  lemma EntryUnmarked(c: PaperConfig, s: Portfolio, n: Snapshot, k: Ticker, tradeable: bool, cooldownAtStart: nat,
      exited: bool)
    requires ValidEngine(c.engine) && k.price > 0.0
    ensures var t := AfterEntries(c, s, n, k, tradeable, cooldownAtStart, exited);
      && t.peakEquity == s.peakEquity && t.halt == s.halt && t.buys >= s.buys && t.pending == s.pending
      && (t.buys == s.buys ==> t == s) && (t.buys > s.buys ==> !exited)
      && (t.buys > s.buys ==> t.horizonExit == if c.engine.model.mode.ExpectedReturnMode?
            then Some(SignalTime(c, n) + c.engine.intervalNs * c.engine.model.horizonBars) else s.horizonExit)
  {
    hide Times, Over, Brokerage.Min, SizeEntry, Wants;
  }

  lemma PaperLeaves(c: PaperConfig, s: Portfolio, n: Snapshot, k: Ticker)
    requires ValidEngine(c.engine) && k.price > 0.0 && Holds(c.engine, s)
    ensures PaperLeavesReads(c, s, n, k, AfterSnapshot(c, s, n, k))
  {
    hide Kept, AfterIntake, AfterExits, ExitNow, AfterModelExit, ModelExits, AfterEntries, AfterMark, Tradeable,
      MustHalt, MarkReads;
    var taken, tradeable := AfterIntake(c, s, n, k), Tradeable(c, s, n, k);
    var out, exited := AfterExits(c, taken, k), ExitNow(c, taken, k);
    var modelOut := AfterModelExit(c, out, k, n.signal, tradeable, exited.Some?);
    var gone := exited.Some? || ModelExits(c, out, n.signal, tradeable, exited.Some?);
    var entered := AfterEntries(c, modelOut, n, k, tradeable, s.cooldown, gone);
    ExitsUnmarked(c, s, n, k);
    EntryUnmarked(c, modelOut, n, k, tradeable, s.cooldown, gone);
    var peaked := if entered.quantity > 0.0 then entered.(peakPrice := Max(entered.peakPrice, k.price)) else entered;
    var marked := AfterMark(c.engine, peaked, k.price);
    MarkMeaning(c.engine, peaked, k.price);
    MarkIs(c.engine, peaked, k.price);
    MarkCarries(c.engine, s.peakEquity, modelOut.halt != Active, marked, AfterSnapshot(c, s, n, k), k.price);
  }

  /** Every snapshot a session accepts reads as described; every other changes nothing. */
  lemma EverySnapshotReads(c: PaperConfig, os: seq<Observed>, i: nat)
    requires ValidEngine(c.engine) && Priced(os) && i < |os|
    ensures var a, b, o := RunSession(c, os[..i]), RunSession(c, os[..i + 1]), os[i];
      if WhyNot(c, a.state, a.clock, o.snapshot, o.ticker).None? then
        && SnapshotReads(c, a.state, o.snapshot, o.ticker, b.state)
        && PaperLeavesReads(c, a.state, o.snapshot, o.ticker, b.state)
        && b.clock == Clock(Some(o.ticker.observedAt), Some(o.ticker.exchangeAt))
      else b == a
  {
    hide Holds, SnapshotReads, PaperLeavesReads, AfterSnapshot, WhyNot;
    SessionKeeps(c, os[..i], 0);
    assert os[..i + 1][..i] == os[..i];
    var a, o := RunSession(c, os[..i]), os[i];
    SnapshotMeaning(c, a.state, o.snapshot, o.ticker);
    PaperLeaves(c, a.state, o.snapshot, o.ticker);
  }
}
