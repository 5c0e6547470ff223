/** The rules a shadow run trades by, in plain arithmetic: the orders it admits, what fills cost, what equity means. */
module ShadowRules {
  import opened Envelopes
  import opened VisibleDepth
  import opened Books
  import opened ShadowAccount
  import opened ShadowSafety
  import opened ShadowTiming

  // ---------------------------------------------------------------- which intents become orders

  predicate BuyWithin(c: Config, a: Account, quote: real) {
    && quote <= c.maxOrderQuote && (c.onePositionOnly ==> a.base <= c.epsilon)
    && quote * (1.0 + c.feeRate) <= a.cash + c.epsilon
  }

  predicate SellWithin(c: Config, a: Account, base: real) {
    c.epsilon < a.base && base <= a.base + c.epsilon
  }

  predicate Within(c: Config, a: Account, action: Action) {
    match action
    case BuyQuote(quote) => BuyWithin(c, a, quote)
    case SellBase(base) => SellWithin(c, a, base)
    case Hold => false
  }

  /** The limit that a rejection names is the one the intent breaks. */
  predicate Explains(c: Config, s: State, action: Action, why: Rejection) {
    match why
    case LifecycleIs(lifecycle) => lifecycle == s.lifecycle != Running
    case PendingOrderExists => s.lifecycle.Running? && s.pending.Some?
    case PositionAlreadyOpen => action.BuyQuote? && c.onePositionOnly && s.account.base > c.epsilon
    case OrderTooLarge =>
      action.BuyQuote? && action.quote > c.maxOrderQuote && !(c.onePositionOnly && s.account.base > c.epsilon)
    case InsufficientCash =>
      && action.BuyQuote? && action.quote <= c.maxOrderQuote
      && action.quote * (1.0 + c.feeRate) > s.account.cash + c.epsilon
    case InsufficientPosition => action.SellBase? && action.base > s.account.base + c.epsilon
    case NoPosition => action.SellBase? && s.account.base <= c.epsilon && action.base <= s.account.base + c.epsilon
  }

  /** A new book of the feed that carries no decision yet. */
  predicate NewBook(c: Config, s: State, b: Book) {
    && b.market == c.market && s.last != Some(MarkOf(b)) && Regression(s.last, b).None?
    && ContinuityBreak(s.last, b).None? && KeyOf(MarkOf(b)) !in s.decisions
  }

  function OrderOf(c: Config, b: Book, action: Action): PendingOrder
    requires !action.Hold?
  {
    match action
    case BuyQuote(quote) => PendingOrder(Buy, QuoteNotional(quote), MarkOf(b), b.monotonicNs + c.latencyNs)
    case SellBase(base) => PendingOrder(Sell, BaseQuantity(base), MarkOf(b), b.monotonicNs + c.latencyNs)
  }

  /**
   On a running run with nothing pending, an intent becomes the pending order if and only if it is within the limits;
   otherwise nothing is pending and the decision names a limit it breaks.
   */
  lemma AdmittedExactly(c: Config, s: State, b: Book, i: Intent)
    requires ValidConfig(c) && ValidBook(b) && ValidIntent(i) && RunInv(c, s)
    requires s.lifecycle.Running? && s.pending.None? && NewBook(c, s, b)
    ensures var o := StepBook(c, s, b, Some(i));
      && o.Committed? && o.state.account == s.account && KeyOf(MarkOf(b)) in o.state.decisions
      && var d := o.state.decisions[KeyOf(MarkOf(b))];
      && d.intent == i && d.monotonicNs == b.monotonicNs && (d.status.Held? <==> i.action.Hold?)
      && (d.status.Accepted? <==> Within(c, s.account, i.action))
      && (d.status.Rejected? ==> Explains(c, s, i.action, d.status.why))
      && o.state.pending == (if Within(c, s.account, i.action) then Some(OrderOf(c, b, i.action)) else None)
  {
    hide LiquidationEquity, Drawdown;
  }

  /** While an order is pending, or the run is not running, no intent becomes an order. */
  lemma TurnedAway(c: Config, s: State, b: Book, i: Intent)
    requires ValidConfig(c) && ValidBook(b) && ValidIntent(i) && RunInv(c, s) && !i.action.Hold?
    requires StepBook(c, s, b, Some(i)).Committed? && Prepare(c, s, b).Prepared? && !Prepare(c, s, b).recovery
    requires var p := Prepare(c, s, b).state; p.pending.Some? || !p.lifecycle.Running?
    ensures var t, p := StepBook(c, s, b, Some(i)).state, Prepare(c, s, b).state;
      && t.pending == p.pending && KeyOf(MarkOf(b)) in t.decisions
      && t.decisions[KeyOf(MarkOf(b))].status
         == Rejected(if p.lifecycle.Running? then PendingOrderExists else LifecycleIs(p.lifecycle))
  {
    hide Prepare, LiquidationEquity, Drawdown;
  }

  // ---------------------------------------------------------------- which orders a run ever has

  /** A buy asks for at most the largest order, a sale for a quantity. */
  predicate OrderRuled(c: Config, o: PendingOrder) {
    if o.side.Buy? then o.request.QuoteNotional? && 0.0 < o.request.quote <= c.maxOrderQuote
    else o.request.BaseQuantity? && 0.0 < o.request.base
  }

  /** With one position only, a buy starts from none. */
  predicate FromNone(c: Config, a: Account, o: PendingOrder) {
    o.side.Buy? && c.onePositionOnly ==> a.base <= c.epsilon
  }

  predicate Ruled(c: Config, start: Account, s: State) {
    && (s.pending.Some? ==> OrderRuled(c, s.pending.value) && FromNone(c, s.account, s.pending.value))
    && forall n :: 0 <= n < |s.fills| ==>
         OrderRuled(c, s.fills[n].order) && FromNone(c, Replay(c.epsilon, start, s.fills[..n]), s.fills[n].order)
  }

  lemma FillRuled(c: Config, start: Account, s: State, f: Fill, t: State)
    requires Ruled(c, start, s) && s.account == Replay(c.epsilon, start, s.fills) && t.fills == s.fills + [f]
    requires OrderRuled(c, f.order) && FromNone(c, s.account, f.order) && t.pending.None?
    ensures Ruled(c, start, t)
  {
    hide OrderRuled;
    forall n | 0 <= n < |t.fills|
      ensures OrderRuled(c, t.fills[n].order) && FromNone(c, Replay(c.epsilon, start, t.fills[..n]), t.fills[n].order)
    {
      assert t.fills[..n] == s.fills[..n];
      if n == |s.fills| { assert s.fills[..n] == s.fills; }
    }
  }

  lemma PrepareRuled(c: Config, start: Account, s: State, b: Book)
    requires ValidConfig(c) && ValidBook(b) && RunInv(c, s) && Prepare(c, s, b).Prepared?
    requires Ruled(c, start, s) && s.account == Replay(c.epsilon, start, s.fills)
    ensures Ruled(c, start, Prepare(c, s, b).state)
  {
    hide Execute, AfterFill, Liquidate, Replay, LiquidationEquity;
    if ContinuityBreak(s.last, b).None? {
      ResolveKeeps(c, s, b);
      var r := Resolve(c, s, b);
      var t := AfterResolve(c, s, b, r);
      if r.Filled? { FillRuled(c, start, s, t.fills[|s.fills|], t); }
      if NeedsLiquidation(c, t) {
        LiquidationResolves(c, t, b);
        var p := Liquidate(c, t, b);
        if p.Prepared? { FillRuled(c, start, t, p.state.fills[|t.fills|], p.state); }
      }
    }
  }

  lemma RecordRuled(c: Config, start: Account, p: Prepared, b: Book, intent: Option<Intent>)
    requires ValidConfig(c) && ValidBook(b) && (intent.Some? ==> ValidIntent(intent.value))
    requires Record(c, p, b, intent).Committed? && p.Prepared? && Ruled(c, start, p.state)
    ensures Ruled(c, start, Record(c, p, b, intent).state)
  {
    hide LiquidationEquity, Drawdown, Replay;
  }

  lemma BookRuled(c: Config, start: Account, s: State, b: Book, intent: Option<Intent>)
    requires ValidConfig(c) && ValidBook(b) && RunInv(c, s) && (intent.Some? ==> ValidIntent(intent.value))
    requires Accounted(c, start, s) && Ruled(c, start, s) && StepBook(c, s, b, intent).Committed?
    ensures Ruled(c, start, StepBook(c, s, b, intent).state) && Accounted(c, start, StepBook(c, s, b, intent).state)
  {
    hide Prepare, Record, Ruled, Replay, Balanced, RunInv;
    PrepareKeeps(c, s, b);
    RecordingKeeps(c, Prepare(c, s, b), b, intent);
    PrepareRuled(c, start, s, b);
    RecordRuled(c, start, Prepare(c, s, b), b, intent);
    StepAccounted(c, start, s, b, intent);
  }

  /** Over every history, each buy the run ever had pending or filled kept to the limits. */
  lemma {:induction false} EveryOrderRuled(c: Config, start: State, txns: seq<Txn>)
    requires ValidConfig(c) && JustStarted(c, start) && ValidTxns(txns)
    ensures var s := After(c, start, txns).state; Accounted(c, start.account, s) && Ruled(c, start.account, s)
    decreases |txns|
  {
    hide StepBook, Ruled, RunInv;
    if txns == [] {
      StartRuled(c, start);
    } else {
      var before, txn := txns[..|txns| - 1], txns[|txns| - 1];
      EveryOrderRuled(c, start, before);
      EveryHistory(c, start, before);
      var s := After(c, start, before).state;
      InvOf(c, After(c, start, before));
      match txn
      case OnBook(b, intent) =>
        if StepBook(c, s, b, intent).Committed? { BookRuled(c, start.account, s, b, intent); }
      case Halting(reason, wallNs) => NothingPendingRuled(c, start.account, s, Halted(s, reason, wallNs));
      case StopRun(reason) => NothingPendingRuled(c, start.account, s, StoppedGracefully(s, reason));
    }
  }

  lemma InvOf(c: Config, h: History)
    requires HistoryInv(c, h)
    ensures RunInv(c, h.state)
  {
    hide Timely, Open, RunInv;
  }

  lemma StartRuled(c: Config, start: State)
    requires JustStarted(c, start)
    ensures Accounted(c, start.account, start) && Ruled(c, start.account, start)
  {
  }

  lemma NothingPendingRuled(c: Config, start: Account, s: State, t: State)
    requires Ruled(c, start, s) && t.fills == s.fills && t.pending.None?
    ensures Ruled(c, start, t)
  {
    hide OrderRuled, FromNone, Replay;
  }

  // ---------------------------------------------------------------- what a fill does to the account

  lemma CostTimesBase(cost: real, base: real)
    requires base != 0.0
    ensures Average(cost, base) * base == cost
  {
  }

  /** A buy pays what it trades and the fee, and averages both into the cost of the position. */
  predicate BoughtBooks(epsilon: real, feeRate: real, a: Account, e: Execution, n: Account) {
    var fee := e.filledQuote * feeRate;
    && n.fees == a.fees + fee && n.base == a.base + e.filledBase && n.realized == a.realized
    && (a.cash >= e.filledQuote + fee ==> n.cash == a.cash - e.filledQuote - fee)
    && (a.cash < e.filledQuote + fee ==> n.cash == 0.0)
    && (n.base > epsilon ==> n.averageCost * n.base == a.averageCost * a.base + e.filledQuote + fee)
  }

  /** A sale takes in what it trades less the fee; what that exceeds the cost of the base sold by is realized. */
  predicate SoldBooks(epsilon: real, feeRate: real, a: Account, e: Execution, n: Account) {
    var fee := e.filledQuote * feeRate;
    && n.fees == a.fees + fee && n.cash == a.cash + e.filledQuote - fee
    && n.realized == a.realized + (e.filledQuote - fee) - e.filledBase * a.averageCost
    && (if a.base - e.filledBase > epsilon then n.base == a.base - e.filledBase && n.averageCost == a.averageCost
        else n.base == 0.0 && n.averageCost == 0.0)
  }

  lemma BuyMeaning(epsilon: real, feeRate: real, a: Account, e: Execution)
    requires epsilon > 0.0 && e.fee == e.filledQuote * feeRate && e.cashFlow == -(e.filledQuote + e.fee)
    ensures BoughtBooks(epsilon, feeRate, a, e, AfterBuy(epsilon, a, e))
  {
    if a.base + e.filledBase > epsilon {
      CostTimesBase(Worth(a.base, a.averageCost) + (e.filledQuote + e.fee), a.base + e.filledBase);
    }
  }

  lemma SellMeaning(epsilon: real, feeRate: real, a: Account, e: Execution)
    requires epsilon > 0.0 && e.fee == e.filledQuote * feeRate && e.cashFlow == e.filledQuote - e.fee
    ensures SoldBooks(epsilon, feeRate, a, e, AfterSell(epsilon, a, e))
  {
  }

  /** What a fill of a funded order does to the account, at the run's own fee rate. */
  lemma FillMeaning(c: Config, a: Account, b: Book, o: PendingOrder)
    requires ValidConfig(c) && ValidBook(b) && Solvent(a) && Reserved(c, a, o)
    ensures var e := Execute(o.side, LevelsFor(b, o.side), o.request, c.feeRate);
      var n := AfterFill(c.epsilon, a, o.side, e);
      if o.side.Buy? then BoughtBooks(c.epsilon, c.feeRate, a, e, n) else SoldBooks(c.epsilon, c.feeRate, a, e, n)
  {
    hide Execute, Reserved, Solvent, BoughtBooks, SoldBooks, LevelsTouched, SumBase, SumQuote, Worth;
    var e := Execute(o.side, LevelsFor(b, o.side), o.request, c.feeRate);
    LevelsAreValid(b, o.side);
    RequestValid(c, a, o);
    ReportMeaning(o.side, LevelsFor(b, o.side), o.request, c.feeRate);
    if o.side.Buy? { BuyMeaning(c.epsilon, c.feeRate, a, e); } else { SellMeaning(c.epsilon, c.feeRate, a, e); }
  }

  lemma RequestValid(c: Config, a: Account, o: PendingOrder)
    requires Reserved(c, a, o)
    ensures ValidRequest(o.request)
  {
  }

  // ---------------------------------------------------------------- what equity and drawdown mean

  /** Cash plus what the visible bids would pay for the position, net of the fee. */
  predicate EquityOf(c: Config, a: Account, b: Book, equity: real)
    requires ValidBook(b)
  {
    if a.base <= c.epsilon then equity == a.cash
    else
      var sale := Execute(Sell, b.bids, BaseQuantity(a.base), c.feeRate);
      equity == a.cash + sale.filledQuote - sale.filledQuote * c.feeRate
  }

  /** The loss from the peak, as a share of it. */
  predicate DrawdownOf(peak: real, equity: real, d: real) {
    0.0 <= d <= 1.0 && d * peak == peak - equity
  }

  lemma DrawdownShare(equity: real, peak: real)
    requires 0.0 <= equity <= peak
    ensures DrawdownOf(peak, equity, Drawdown(equity, peak))
  {
    DrawdownBounds(equity, peak);
    if peak > 0.0 { assert (1.0 - equity / peak) * peak == peak - equity; }
  }

  lemma EquityMeaning(c: Config, a: Account, b: Book)
    requires ValidConfig(c) && ValidBook(b) && Solvent(a)
    ensures EquityOf(c, a, b, LiquidationEquity(c, a, b)) && LiquidationEquity(c, a, b) >= 0.0
  {
    if a.base > c.epsilon {
      var o := PendingOrder(Sell, BaseQuantity(a.base), MarkOf(b), b.monotonicNs);
      ReservedSuffices(c, a, b, o);
      ReportMeaning(Sell, b.bids, o.request, c.feeRate);
    }
  }

  /** After every book: the equity of the account on it, the highest so far and the worst drawdown from a peak. */
  lemma StepMarksEquity(c: Config, s: State, b: Book, intent: Option<Intent>)
    requires ValidConfig(c) && ValidBook(b) && RunInv(c, s) && (intent.Some? ==> ValidIntent(intent.value))
    requires StepBook(c, s, b, intent).Committed?
    ensures var t := StepBook(c, s, b, intent).state;
      && EquityOf(c, t.account, b, t.lastEquity)
      && t.peakEquity == (if t.lastEquity > s.peakEquity then t.lastEquity else s.peakEquity)
      && exists d :: DrawdownOf(t.peakEquity, t.lastEquity, d)
           && t.maxDrawdown == if d > s.maxDrawdown then d else s.maxDrawdown
  {
    hide Prepare, LiquidationEquity, Drawdown, EquityOf, DrawdownOf, RecordIntent;
    PrepareKeeps(c, s, b);
    RecordingKeeps(c, Prepare(c, s, b), b, intent);
    var t := StepBook(c, s, b, intent).state;
    EquityMeaning(c, t.account, b);
    DrawdownShare(t.lastEquity, t.peakEquity);
    RecordedAccount(c, Prepare(c, s, b), b, intent);
    assert DrawdownOf(t.peakEquity, t.lastEquity, Drawdown(t.lastEquity, t.peakEquity));
  }

  lemma RecordedAccount(c: Config, p: Prepared, b: Book, intent: Option<Intent>)
    requires ValidBook(b) && Record(c, p, b, intent).Committed?
    ensures var t := Record(c, p, b, intent).state;
      && p.Prepared? && t.lastEquity == LiquidationEquity(c, t.account, b)
      && t.peakEquity == MaxReal(p.state.peakEquity, t.lastEquity)
      && t.maxDrawdown == MaxReal(p.state.maxDrawdown, Drawdown(t.lastEquity, t.peakEquity))
  {
    hide LiquidationEquity, Drawdown, WhyTurnedDown;
  }

  // ---------------------------------------------------------------- breaks and repeated delivery

  /** A break expires the pending order, touches neither account nor fills, and halts only an open position. */
  lemma BreakMeaning(c: Config, s: State, b: Book, intent: Option<Intent>)
    requires ValidConfig(c) && ValidBook(b) && ContinuityBreak(s.last, b).Some?
    requires StepBook(c, s, b, intent).Committed?
    ensures var t := StepBook(c, s, b, intent).state;
      && t.pending.None? && t.account == s.account && t.fills == s.fills && t.warmupSeen == 0
      && t.last == Some(MarkOf(b)) && t.notices == s.notices
      && (s.account.base > c.epsilon ==>
            t.lifecycle.HaltedRecovery? && t.halt == ContinuityWithOpenPosition(ContinuityBreak(s.last, b).value))
      && (s.account.base <= c.epsilon ==> t.lifecycle.Warmup? && t.halt.NotHalted?)
  {
    hide LiquidationEquity, Drawdown;
  }

  /** The position was halted by a break in the stream or by a restart, not by an operator or a changed program. */
  predicate HaltedWithPosition(h: HaltReason) {
    match h
    case ContinuityWithOpenPosition(_) => true
    case RestartWithOpenPosition => true
    case _ => false
  }

  /**
   A halted run that still holds a position sells all of it into the next unbroken book exactly when that position is
   what halted it; every other halt waits, with account and fills as they were.
   */
  lemma RecoversExactly(c: Config, s: State, b: Book, intent: Option<Intent>)
    requires ValidConfig(c) && ValidBook(b) && RunInv(c, s) && ContinuityBreak(s.last, b).None?
    requires s.lifecycle.HaltedRecovery? && s.account.base > c.epsilon
    requires StepBook(c, s, b, intent).Committed?
    ensures var t := StepBook(c, s, b, intent).state;
      if HaltedWithPosition(s.halt) then
        && |t.fills| == |s.fills| + 1 && t.fills[..|s.fills|] == s.fills
        && var f := t.fills[|s.fills|];
        && f.order.side == Sell && f.order.request == BaseQuantity(s.account.base) && f.at == MarkOf(b)
        && (t.account.base == 0.0 ==> t.lifecycle.Warmup? && t.halt.NotHalted? && t.warmupSeen == 0)
        && (t.account.base != 0.0 ==> t.lifecycle.HaltedRecovery? && t.halt == s.halt && t.account.base > c.epsilon)
      else t.fills == s.fills && t.account == s.account && t.lifecycle == s.lifecycle && t.halt == s.halt
  {
    hide LiquidationEquity, Drawdown, Execute;
    if HaltedWithPosition(s.halt) { LiquidationResolves(c, s, b); }
  }

  /**
   Delivering a committed book again changes nothing: with the same intent it is recognized, with another one refused.
   Only a book used for recovery refuses the intent it was delivered with, as it carries the recovery's decision.
   */
  lemma Redelivery(c: Config, s: State, b: Book, intent: Option<Intent>, again: Option<Intent>)
    requires ValidConfig(c) && ValidBook(b) && StepBook(c, s, b, intent).Committed?
    ensures var t := StepBook(c, s, b, intent).state;
      && !StepBook(c, t, b, again).Committed?
      && (again.None? && !t.lifecycle.Stopped? ==> StepBook(c, t, b, again) == Duplicate)
      && (intent.Some? && !Prepare(c, s, b).recovery && again.Some? && !t.lifecycle.Stopped? ==>
            StepBook(c, t, b, again) == if again == intent then Duplicate else Failed(DifferentIntent))
  {
    hide Prepare, LiquidationEquity, Drawdown, WhyTurnedDown;
  }
}
