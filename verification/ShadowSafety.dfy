/**
 What every transaction of a shadow run keeps: funds reserved for the pending order suffice, equity marks are
 monotone, and the account is a function of the fills alone whose book value moves only by clamped amounts.
 */
module ShadowSafety {
  import opened Envelopes
  import opened VisibleDepth
  import opened Books
  import opened ShadowAccount

  // ---------------------------------------------------------------- reserved funds

  /** Enough is set aside for the pending order. */
  predicate Reserved(c: Config, a: Account, o: PendingOrder) {
    match o.request
    case QuoteNotional(q) => o.side.Buy? && q > 0.0 && Worth(q, 1.0 + c.feeRate) <= a.cash + c.epsilon
    case BaseQuantity(q) => o.side.Sell? && q > 0.0 && q <= a.base + c.epsilon
  }

  predicate Solvent(a: Account) {
    a.cash >= 0.0 && a.base >= 0.0 && a.averageCost >= 0.0 && a.fees >= 0.0
  }

  predicate Marks(s: State) {
    s.lastEquity >= 0.0 && s.peakEquity >= s.lastEquity && 0.0 <= s.maxDrawdown <= 1.0
  }

  /** At `here`, the connection of the book being processed or of the last one processed. */
  predicate PendingInv(c: Config, s: State, here: Option<Mark>) {
    s.pending.Some? ==>
      && s.lifecycle.Running? && Reserved(c, s.account, s.pending.value)
      && here.Some? && SameConnection(s.pending.value.decision, here.value)
  }

  predicate RunInv(c: Config, s: State) {
    Solvent(s.account) && Marks(s) && PendingInv(c, s, s.last)
  }

  lemma FeeIsPart(filled: real, rate: real)
    requires 0.0 <= filled && 0.0 <= rate < 1.0
    ensures 0.0 <= Worth(filled, rate) <= filled
  {
    WorthNonNegative(filled, rate);
    WorthNonNegative(filled, 1.0 - rate);
    assert Worth(filled, 1.0 - rate) == filled - Worth(filled, rate);
  }

  lemma WithFee(filled: real, rate: real)
    ensures Worth(filled, 1.0 + rate) == filled + Worth(filled, rate)
  {
  }

  lemma FeeGrows(filled: real, requested: real, rate: real)
    requires filled <= requested && 0.0 <= rate
    ensures Worth(filled, 1.0 + rate) <= Worth(requested, 1.0 + rate)
  {
  }

  /** Executing an order whose funds are reserved never runs out of them, whatever the book shows. */
  lemma ReservedSuffices(c: Config, a: Account, b: Book, o: PendingOrder)
    requires ValidConfig(c) && ValidBook(b) && Solvent(a) && Reserved(c, a, o)
    ensures var e := Execute(o.side, LevelsFor(b, o.side), o.request, c.feeRate);
      && e.filledBase > 0.0 && e.filledQuote > 0.0 && e.fee >= 0.0
      && (o.side.Buy? ==> a.cash + e.cashFlow >= -c.epsilon && e.cashFlow == -(e.filledQuote + e.fee))
      && (o.side.Sell? ==> a.base - e.filledBase >= -c.epsilon && e.cashFlow == e.filledQuote - e.fee >= 0.0)
  {
    var levels := LevelsFor(b, o.side);
    var e := Execute(o.side, levels, o.request, c.feeRate);
    SweepAccounts(o.side, levels, o.request, c.feeRate);
    FeeIsPart(e.filledQuote, c.feeRate);
    if o.side.Buy? {
      WithFee(e.filledQuote, c.feeRate);
      FeeGrows(e.filledQuote, Amount(o.request), c.feeRate);
    }
  }

  lemma AverageNonNegative(quote: real, base: real)
    requires quote >= 0.0 && base > 0.0
    ensures Average(quote, base) >= 0.0
  {
  }

  lemma WorthNonNegative(base: real, price: real)
    requires base >= 0.0 && price >= 0.0
    ensures Worth(base, price) >= 0.0
  {
  }

  lemma FillKeepsSolvent(c: Config, a: Account, b: Book, o: PendingOrder)
    requires ValidConfig(c) && ValidBook(b) && Solvent(a) && Reserved(c, a, o)
    ensures Solvent(AfterFill(c.epsilon, a, o.side, Execute(o.side, LevelsFor(b, o.side), o.request, c.feeRate)))
  {
    ReservedSuffices(c, a, b, o);
    var e := Execute(o.side, LevelsFor(b, o.side), o.request, c.feeRate);
    if o.side.Buy? && a.base + e.filledBase > c.epsilon {
      WorthNonNegative(a.base, a.averageCost);
      AverageNonNegative(Worth(a.base, a.averageCost) + (e.filledQuote + e.fee), a.base + e.filledBase);
    }
  }

  /** Resolving the pending order never faults, and leaves nothing pending unless it is too early. */
  lemma ResolveKeeps(c: Config, s: State, b: Book)
    requires ValidConfig(c) && ValidBook(b) && Solvent(s.account)
    requires s.pending.Some? ==> Reserved(c, s.account, s.pending.value)
    ensures var r := Resolve(c, s, b);
      && !r.Fault?
      && Solvent(AfterResolve(c, s, b, r).account)
      && (AfterResolve(c, s, b, r).pending.Some? ==>
            && AfterResolve(c, s, b, r) == s
            && SameConnection(s.pending.value.decision, MarkOf(b)) && b.monotonicNs < s.pending.value.dueNs)
  {
    if s.pending.Some? {
      ReservedSuffices(c, s.account, b, s.pending.value);
      FillKeepsSolvent(c, s.account, b, s.pending.value);
    }
  }

  /** An accepted order has its funds set aside. */
  lemma RecordKeeps(c: Config, s: State, b: Book, i: Intent, due: int)
    requires ValidConfig(c) && ValidIntent(i) && PendingInv(c, s, Some(MarkOf(b)))
    ensures var r := RecordIntent(c, s, b, i, false, due);
      r.Recorded? ==>
        && PendingInv(c, r.state, Some(MarkOf(b)))
        && r.state.account == s.account && r.state.fills == s.fills && r.state.lifecycle == s.lifecycle
  {
  }

  /**
   A recovery sale is accepted, its order is resolved by the very same book, and nothing is left pending: the
   only error is a decision already recorded at this book.
   */
  lemma LiquidationResolves(c: Config, s: State, b: Book)
    requires ValidConfig(c) && ValidBook(b) && Solvent(s.account) && s.pending.None? && NeedsLiquidation(c, s)
    ensures var p := Liquidate(c, s, b);
      && (p.NotPrepared? <==> KeyOf(MarkOf(b)) in s.decisions)
      && (p.NotPrepared? ==> p.error == DecisionCollision)
      && (p.Prepared? ==>
            && p.recovery && p.state.pending.None? && Solvent(p.state.account)
            && p.state.account
              == AfterSell(c.epsilon, s.account, Execute(Sell, b.bids, BaseQuantity(s.account.base), c.feeRate))
            && p.state.fills
              == s.fills + [Fill(OrderFor(RecoveryIntent(s.account.base), MarkOf(b), b.monotonicNs), MarkOf(b),
                                                Execute(Sell, b.bids, BaseQuantity(s.account.base), c.feeRate))]
            && p.state.lifecycle == (if p.state.account.base == 0.0 then Warmup else HaltedRecovery)
            && (p.state.account.base != 0.0 ==> p.state.account.base > c.epsilon && p.state.halt == s.halt)
            && p.state.warmupSeen == (if p.state.account.base == 0.0 then 0 else s.warmupSeen)
            && p.state.(account := s.account, fills := s.fills, lifecycle := s.lifecycle, halt := s.halt,
                        warmupSeen := s.warmupSeen, decisions := s.decisions) == s)
  {
    var recorded := RecordIntent(c, s, b, RecoveryIntent(s.account.base), true, b.monotonicNs);
    if recorded.Recorded? {
      ResolveKeeps(c, recorded.state, b);
      ReservedSuffices(c, s.account, b, recorded.state.pending.value);
    }
  }

  lemma EquityBounds(c: Config, a: Account, b: Book)
    requires ValidConfig(c) && ValidBook(b) && Solvent(a)
    ensures LiquidationEquity(c, a, b) >= 0.0
  {
  }

  lemma DrawdownBounds(equity: real, peak: real)
    requires 0.0 <= equity <= peak
    ensures 0.0 <= Drawdown(equity, peak) <= 1.0
  {
    if peak > 0.0 {
      assert equity / peak * peak == equity;
      assert 0.0 <= equity / peak <= 1.0;
    }
  }

  lemma MarkedKeeps(c: Config, s: State, b: Book)
    requires ValidConfig(c) && ValidBook(b) && Solvent(s.account) && Marks(s) && PendingInv(c, s, Some(MarkOf(b)))
    ensures RunInv(c, Marked(c, s, b))
    ensures Marked(c, s, b).peakEquity >= s.peakEquity && Marked(c, s, b).maxDrawdown >= s.maxDrawdown
  {
    EquityBounds(c, s.account, b);
    var equity := LiquidationEquity(c, s.account, b);
    DrawdownBounds(equity, MaxReal(s.peakEquity, equity));
  }

  lemma PrepareKeeps(c: Config, s: State, b: Book)
    requires ValidConfig(c) && ValidBook(b) && RunInv(c, s)
    ensures var p := Prepare(c, s, b);
      && (p.NotPrepared? ==> p.error == DecisionCollision)
      && (p.Prepared? ==> Solvent(p.state.account) && Marks(p.state) && PendingInv(c, p.state, Some(MarkOf(b))))
      && (p.Prepared? ==> p.state.peakEquity == s.peakEquity && p.state.maxDrawdown == s.maxDrawdown)
  {
    if ContinuityBreak(s.last, b).None? {
      ResolveKeeps(c, s, b);
      var t := AfterResolve(c, s, b, Resolve(c, s, b));
      if NeedsLiquidation(c, t) { LiquidationResolves(c, t, b); }
    }
  }

  lemma RecordingKeeps(c: Config, p: Prepared, b: Book, intent: Option<Intent>)
    requires ValidConfig(c) && ValidBook(b) && (intent.Some? ==> ValidIntent(intent.value))
    requires p.NotPrepared? ==> p.error == DecisionCollision
    requires p.Prepared? ==> Solvent(p.state.account) && Marks(p.state) && PendingInv(c, p.state, Some(MarkOf(b)))
    ensures var o := Record(c, p, b, intent);
      && (o.Committed? ==>
            && p.Prepared? && RunInv(c, o.state) && o.state.account == p.state.account && o.state.fills == p.state.fills
            && o.state.peakEquity >= p.state.peakEquity && o.state.maxDrawdown >= p.state.maxDrawdown)
      && (!o.Committed? ==> o == Failed(DecisionCollision))
  {
    if p.Prepared? {
      MarkedKeeps(c, p.state, b);
      if intent.Some? && !p.recovery {
        var due := b.monotonicNs + c.latencyNs;
        RecordKeeps(c, p.state, b, intent.value, due);
        var r := RecordIntent(c, p.state, b, intent.value, false, due);
        if r.Recorded? { MarkedKeeps(c, r.state, b); }
      }
    }
  }

  /**
   Every transaction over a book keeps the account solvent with the pending order's funds set aside, never
   lowers the peak or the worst drawdown, and never reports reserved cash or the position exceeded.
   */
  lemma StepKeepsRun(c: Config, s: State, b: Book, intent: Option<Intent>)
    requires ValidConfig(c) && ValidBook(b) && RunInv(c, s) && (intent.Some? ==> ValidIntent(intent.value))
    ensures var o := StepBook(c, s, b, intent);
      && o != Failed(ReservedCashExceeded) && o != Failed(PositionExceeded)
      && (o.Committed? ==>
            && RunInv(c, o.state)
            && o.state.peakEquity >= s.peakEquity && o.state.maxDrawdown >= s.maxDrawdown)
  {
    hide Prepare, Record, RunInv;
    PrepareKeeps(c, s, b);
    RecordingKeeps(c, Prepare(c, s, b), b, intent);
  }

  // ---------------------------------------------------------------- the account is a replay of the fills

  function Replay(epsilon: real, a: Account, fills: seq<Fill>): Account
    decreases |fills|
  {
    if fills == [] then a
    else
      var last := fills[|fills| - 1];
      AfterFill(epsilon, Replay(epsilon, a, fills[..|fills| - 1]), last.order.side, last.execution)
  }

  lemma ReplayOneMore(epsilon: real, a: Account, fills: seq<Fill>, f: Fill)
    ensures Replay(epsilon, a, fills + [f]) == AfterFill(epsilon, Replay(epsilon, a, fills), f.order.side, f.execution)
  {
    assert (fills + [f])[..|fills|] == fills;
  }

  /** Cash plus the position at cost, net of the profit already taken. */
  function BookValue(a: Account): real {
    a.cash + Worth(a.base, a.averageCost) - a.realized
  }

  /** Book value created by lifting a cash shortfall to zero. */
  function CashClamped(a: Account, e: Execution): real {
    MaxReal(0.0, -(a.cash + e.cashFlow))
  }

  /** Book value lost or created where a position of at most epsilon is written off or rounded up to zero. */
  function Clamped(epsilon: real, a: Account, side: Side, e: Execution): real {
    if side.Buy? then
      CashClamped(a, e) - (if a.base + e.filledBase > epsilon then 0.0
        else Worth(a.base, a.averageCost) + e.filledQuote + e.fee)
    else if MaxReal(0.0, a.base - e.filledBase) <= epsilon then -Worth(a.base - e.filledBase, a.averageCost)
    else 0.0
  }

  function TotalClamped(epsilon: real, a: Account, fills: seq<Fill>): real
    decreases |fills|
  {
    if fills == [] then 0.0
    else
      var n := |fills| - 1;
      TotalClamped(epsilon, a, fills[..n])
      + Clamped(epsilon, Replay(epsilon, a, fills[..n]), fills[n].order.side, fills[n].execution)
  }

  function SumFees(fills: seq<Fill>): real
    decreases |fills|
  {
    if fills == [] then 0.0 else SumFees(fills[..|fills| - 1]) + fills[|fills| - 1].execution.fee
  }

  /** The cash an execution moves is its quote and its fee. */
  predicate Balanced(f: Fill) {
    f.execution.cashFlow ==
      if f.order.side.Buy? then -(f.execution.filledQuote + f.execution.fee)
        else f.execution.filledQuote - f.execution.fee
  }

  lemma AverageTimesBase(quote: real, base: real)
    requires base != 0.0
    ensures Worth(base, Average(quote, base)) == quote
  {
  }

  lemma WorthSplits(base: real, sold: real, price: real)
    ensures Worth(base - sold, price) == Worth(base, price) - Worth(sold, price)
  {
  }

  lemma FillMovesBookValue(epsilon: real, a: Account, f: Fill)
    requires epsilon > 0.0 && Balanced(f)
    ensures BookValue(AfterFill(epsilon, a, f.order.side, f.execution))
         == BookValue(a) + Clamped(epsilon, a, f.order.side, f.execution)
  {
    var e := f.execution;
    if f.order.side.Buy? {
      if a.base + e.filledBase > epsilon {
        AverageTimesBase(Worth(a.base, a.averageCost) + (e.filledQuote + e.fee), a.base + e.filledBase);
      }
    } else {
      WorthSplits(a.base, e.filledBase, a.averageCost);
    }
  }

  /** Book value after any fills is the value before them plus what clamping moved; fees are the fills' fees. */
  lemma {:induction false} ReplayConserves(epsilon: real, a: Account, fills: seq<Fill>)
    requires epsilon > 0.0 && forall i :: 0 <= i < |fills| ==> Balanced(fills[i])
    ensures BookValue(Replay(epsilon, a, fills)) == BookValue(a) + TotalClamped(epsilon, a, fills)
    ensures Replay(epsilon, a, fills).fees == a.fees + SumFees(fills)
    decreases |fills|
  {
    if fills != [] {
      var n := |fills| - 1;
      ReplayConserves(epsilon, a, fills[..n]);
      FillMovesBookValue(epsilon, Replay(epsilon, a, fills[..n]), fills[n]);
    }
  }

  /**
   How far clamping can move the book value: a buy whose funds were reserved creates at most epsilon of cash, a
   sale moves at most epsilon of base at cost, and a fill whose amounts stay clear of epsilon moves nothing.
   */
  lemma ClampedIsSmall(c: Config, a: Account, b: Book, o: PendingOrder)
    requires ValidConfig(c) && ValidBook(b) && Solvent(a) && Reserved(c, a, o)
    ensures var e := Execute(o.side, LevelsFor(b, o.side), o.request, c.feeRate);
      var moved := Clamped(c.epsilon, a, o.side, e);
      && (o.side.Buy? && a.base + e.filledBase > c.epsilon ==> 0.0 <= moved <= c.epsilon)
      && (o.side.Buy? && a.base + e.filledBase > c.epsilon && a.cash + e.cashFlow >= 0.0 ==> moved == 0.0)
      && (o.side.Sell? ==> -Worth(c.epsilon, a.averageCost) <= moved <= Worth(c.epsilon, a.averageCost))
      && (o.side.Sell? && (a.base - e.filledBase > c.epsilon || a.base == e.filledBase) ==> moved == 0.0)
  {
    ReservedSuffices(c, a, b, o);
    var e := Execute(o.side, LevelsFor(b, o.side), o.request, c.feeRate);
    if o.side.Sell? {
      WorthNonNegative(c.epsilon, a.averageCost);
      if MaxReal(0.0, a.base - e.filledBase) <= c.epsilon {
        WorthOrdered(a.base - e.filledBase, c.epsilon, a.averageCost);
      }
    }
  }

  lemma WorthOrdered(amount: real, bound: real, price: real)
    requires -bound <= amount <= bound && price >= 0.0
    ensures -Worth(bound, price) <= Worth(amount, price) <= Worth(bound, price)
    ensures amount == 0.0 ==> Worth(amount, price) == 0.0
  {
    assert amount * price <= bound * price;
    assert -bound * price <= amount * price;
  }

  /** The account of a run that started from `start` is the replay of its fills, each of them balanced. */
  predicate Accounted(c: Config, start: Account, s: State) {
    && s.account == Replay(c.epsilon, start, s.fills)
    && forall i :: 0 <= i < |s.fills| ==> Balanced(s.fills[i])
  }

  lemma ResolveAccounted(c: Config, start: Account, s: State, b: Book)
    requires ValidBook(b) && Accounted(c, start, s)
    ensures Accounted(c, start, AfterResolve(c, s, b, Resolve(c, s, b)))
  {
    hide Replay;
    var r := Resolve(c, s, b);
    if r.Filled? {
      var f := Fill(s.pending.value, MarkOf(b), r.execution);
      assert Balanced(f);
      assert AfterResolve(c, s, b, r).fills == s.fills + [f];
      ReplayOneMore(c.epsilon, start, s.fills, f);
    }
  }

  lemma LiquidationAccounted(c: Config, start: Account, s: State, b: Book)
    requires ValidConfig(c) && ValidBook(b) && Solvent(s.account) && s.pending.None? && NeedsLiquidation(c, s)
      && Accounted(c, start, s)
    ensures var p := Liquidate(c, s, b);
      p.Prepared? ==> Accounted(c, start, p.state) && s.fills <= p.state.fills
  {
    hide Liquidate;
    LiquidationResolves(c, s, b);
    var p := Liquidate(c, s, b);
    if p.Prepared? { ReplayOneMore(c.epsilon, start, s.fills, p.state.fills[|s.fills|]); }
  }

  lemma PrepareAccounted(c: Config, start: Account, s: State, b: Book)
    requires ValidConfig(c) && ValidBook(b) && RunInv(c, s) && Accounted(c, start, s)
    ensures var p := Prepare(c, s, b);
      p.Prepared? ==> Accounted(c, start, p.state) && s.fills <= p.state.fills
  {
    hide Liquidate, AfterFill, Resolve, Replay, Balanced;
    if ContinuityBreak(s.last, b).None? {
      ResolveKeeps(c, s, b);
      ResolveAccounted(c, start, s, b);
      ResolvesInOrder(c, s, b);
      var t := AfterResolve(c, s, b, Resolve(c, s, b));
      if NeedsLiquidation(c, t) { LiquidationAccounted(c, start, t, b); }
    }
  }

  lemma ResolvesInOrder(c: Config, s: State, b: Book)
    requires ValidBook(b)
    ensures Resolve(c, s, b).Filled? ==> s.pending.Some?
    ensures s.fills <= AfterResolve(c, s, b, Resolve(c, s, b)).fills
  {
  }

  /** No transaction over a book touches the account except through a fill it records. */
  lemma StepAccounted(c: Config, start: Account, s: State, b: Book, intent: Option<Intent>)
    requires ValidConfig(c) && ValidBook(b) && RunInv(c, s) && Accounted(c, start, s)
    requires intent.Some? ==> ValidIntent(intent.value)
    ensures var o := StepBook(c, s, b, intent);
      o.Committed? ==> Accounted(c, start, o.state) && s.fills <= o.state.fills
  {
    hide Prepare, Record, RunInv, Replay, Balanced;
    PrepareKeeps(c, s, b);
    PrepareAccounted(c, start, s, b);
    RecordingKeeps(c, Prepare(c, s, b), b, intent);
  }
}
