/**
 The shadow account: one book, and possibly one policy intent, per transaction.
 `StepBook` is what a transaction does to the run's row; `ShadowEngine` does it field by field.
 */
module ShadowAccount {
  import opened Envelopes
  import opened VisibleDepth
  import opened Books

  datatype Config = Config(
    market: string, initialCash: real, feeRate: real, latencyNs: nat, maxBookGapNs: nat,
    warmupBooks: nat, maxOrderQuote: real, onePositionOnly: bool, epsilon: real)

  predicate ValidConfig(c: Config) {
    && c.initialCash > 0.0 && 0.0 <= c.feeRate < 1.0 && c.maxBookGapNs > 0 && c.warmupBooks > 0
    && c.maxOrderQuote > 0.0 && c.epsilon > 0.0
  }

  datatype Lifecycle = Warmup | Running | HaltedRecovery | Stopped

  datatype Break = RegressionMark | GapMark(reason: string) | CaptureChanged | ConnectionChanged

  datatype HaltReason =
    | NotHalted
    | ExternalHalt(reason: string)
    | ContinuityWithOpenPosition(cause: Break)
    | RestartWithOpenPosition
    | RestartFingerprintChanged
    | ProcessRestart
    | Graceful(reason: string)

  datatype Action = BuyQuote(quote: real) | SellBase(base: real) | Hold

  /** `detail` is the rest of what makes two intents the same: policy version, signal and features. */
  datatype Intent = Intent(action: Action, reason: string, detail: string)

  predicate ValidIntent(i: Intent) {
    match i.action
    case BuyQuote(q) => q > 0.0
    case SellBase(b) => b > 0.0
    case Hold => true
  }

  datatype Mark = Mark(captureId: string, connectionId: string, ordinal: int, monotonicNs: int, wallNs: Option<int>)

  datatype PendingOrder = PendingOrder(side: Side, request: Request, decision: Mark, dueNs: int)

  datatype Rejection =
    | LifecycleIs(lifecycle: Lifecycle) | PendingOrderExists | PositionAlreadyOpen | OrderTooLarge
    | InsufficientCash | InsufficientPosition | NoPosition

  datatype Status = Accepted | Held | Rejected(why: Rejection)

  datatype Decision = Decision(intent: Intent, status: Status, monotonicNs: int)

  type DecisionKey = (string, string, int)

  datatype Fill = Fill(order: PendingOrder, at: Mark, execution: Execution)

  datatype Account = Account(cash: real, base: real, averageCost: real, realized: real, fees: real)

  /** The notice of a halt: when it was placed and whether it expired an order. */
  datatype HaltNotice = HaltNotice(wallNs: int, expired: bool)

  /** The run's row, with its pending order, decisions, fills and, by reason, the notices of its external halts. */
  datatype State = State(
    lifecycle: Lifecycle, halt: HaltReason, account: Account,
    lastEquity: real, peakEquity: real, maxDrawdown: real,
    warmupSeen: nat, last: Option<Mark>, pending: Option<PendingOrder>,
    decisions: map<DecisionKey, Decision>, fills: seq<Fill>, notices: map<string, HaltNotice>)

  datatype Error =
    | MarketMismatch | RunStopped | OrdinalRegressed | TimeRegressed
    | ReservedCashExceeded | PositionExceeded | DecisionCollision
    | IntentOnProcessedBook | DifferentIntent | NoticeCollision

  /** Errors roll the transaction back. */
  datatype Outcome = Committed(state: State) | Duplicate | Failed(error: Error)

  const RECOVERY_REASON := "gap_recovery_liquidation"

  function RecoveryIntent(base: real): Intent {
    Intent(SellBase(base), RECOVERY_REASON, "system-recovery-v1")
  }

  // ---------------------------------------------------------------- the pieces of a step

  function MarkOf(b: Book): Mark {
    Mark(b.captureId, b.connectionId, b.ordinal, b.monotonicNs, b.wallNs)
  }

  function KeyOf(m: Mark): DecisionKey {
    (m.captureId, m.connectionId, m.ordinal)
  }

  predicate SameConnection(a: Mark, b: Mark) {
    a.captureId == b.captureId && a.connectionId == b.connectionId
  }

  function Regression(last: Option<Mark>, b: Book): Option<Error> {
    if last.None? || !SameConnection(last.value, MarkOf(b)) then None
    else if b.ordinal <= last.value.ordinal then Some(OrdinalRegressed)
    else if b.monotonicNs <= last.value.monotonicNs then Some(TimeRegressed)
    else None
  }

  function ContinuityBreak(last: Option<Mark>, b: Book): Option<Break> {
    if b.regression then Some(RegressionMark)
    else if b.gap.Some? then Some(GapMark(b.gap.value))
    else if last.None? then None
    else if last.value.captureId != b.captureId then Some(CaptureChanged)
    else if last.value.connectionId != b.connectionId then Some(ConnectionChanged)
    else None
  }

  /** A break expires the pending order and restarts warmup, or halts for recovery when a position is open. */
  function AfterBreak(c: Config, s: State, cause: Break): State {
    var t := s.(pending := None, warmupSeen := 0);
    if s.account.base > c.epsilon then t.(lifecycle := HaltedRecovery, halt := ContinuityWithOpenPosition(cause))
    else t.(lifecycle := Warmup, halt := NotHalted)
  }

  function AfterBuy(epsilon: real, a: Account, e: Execution): Account {
    var base := a.base + e.filledBase;
    Account(MaxReal(0.0, a.cash + e.cashFlow), base,
            if base > epsilon then Average(Worth(a.base, a.averageCost) + (e.filledQuote + e.fee), base) else 0.0,
            a.realized, a.fees + e.fee)
  }

  function AfterSell(epsilon: real, a: Account, e: Execution): Account {
    var base := MaxReal(0.0, a.base - e.filledBase);
    Account(a.cash + e.cashFlow,
            if base <= epsilon then 0.0 else base,
            if base <= epsilon then 0.0 else a.averageCost,
            a.realized + e.cashFlow - Worth(e.filledBase, a.averageCost), a.fees + e.fee)
  }

  function AfterFill(epsilon: real, a: Account, side: Side, e: Execution): Account {
    if side.Buy? then AfterBuy(epsilon, a, e) else AfterSell(epsilon, a, e)
  }

  datatype Resolution = Untouched | Expired | Filled(execution: Execution) | Fault(error: Error)

  /** What this book does to the pending order. */
  function Resolve(c: Config, s: State, b: Book): Resolution
    requires ValidBook(b)
  {
    if s.pending.None? then Untouched
    else
      var o := s.pending.value;
      if !SameConnection(o.decision, MarkOf(b)) then Expired
      else if b.monotonicNs < o.dueNs then Untouched
      else if b.monotonicNs - o.dueNs > c.maxBookGapNs then Expired
      else
        var e := Execute(o.side, LevelsFor(b, o.side), o.request, c.feeRate);
        if o.side.Buy? && s.account.cash + e.cashFlow < -c.epsilon then Fault(ReservedCashExceeded)
        else if o.side.Sell? && s.account.base - e.filledBase < -c.epsilon then Fault(PositionExceeded)
        else Filled(e)
  }

  function AfterResolve(c: Config, s: State, b: Book, r: Resolution): State
    requires r.Filled? ==> s.pending.Some?
  {
    match r
    case Untouched => s
    case Fault(_) => s
    case Expired => s.(pending := None)
    case Filled(e) =>
      s.(account := AfterFill(c.epsilon, s.account, s.pending.value.side, e),
         pending := None, fills := s.fills + [Fill(s.pending.value, MarkOf(b), e)])
  }

  /** Why an intent that is not a hold is turned down, if it is. */
  function WhyTurnedDown(c: Config, s: State, i: Intent, allowRecovery: bool): Option<Rejection> {
    var recoverySell := allowRecovery && s.lifecycle.HaltedRecovery? && i.action.SellBase?
      && i.reason == RECOVERY_REASON;
    if s.lifecycle != Running && !recoverySell then Some(LifecycleIs(s.lifecycle))
    else if s.pending.Some? then Some(PendingOrderExists)
    else
      match i.action
      case BuyQuote(q) =>
        if c.onePositionOnly && s.account.base > c.epsilon then Some(PositionAlreadyOpen)
        else if q > c.maxOrderQuote then Some(OrderTooLarge)
        else if Worth(q, 1.0 + c.feeRate) > s.account.cash + c.epsilon then Some(InsufficientCash)
        else None
      case SellBase(q) =>
        if q > s.account.base + c.epsilon then Some(InsufficientPosition)
        else if s.account.base <= c.epsilon then Some(NoPosition)
        else None
      case Hold => None
  }

  datatype Recorded = Recorded(state: State) | Collided

  function StatusOf(c: Config, s: State, i: Intent, allowRecovery: bool): Status {
    if i.action.Hold? then Held
    else match WhyTurnedDown(c, s, i, allowRecovery)
      case None => Accepted
      case Some(why) => Rejected(why)
  }

  function OrderFor(i: Intent, mark: Mark, dueNs: int): PendingOrder
    requires !i.action.Hold?
  {
    if i.action.BuyQuote? then PendingOrder(Buy, QuoteNotional(i.action.quote), mark, dueNs)
    else PendingOrder(Sell, BaseQuantity(i.action.base), mark, dueNs)
  }

  /** Record a decision and, if it is accepted, the order it creates. */
  function RecordIntent(c: Config, s: State, b: Book, i: Intent, allowRecovery: bool, dueNs: int): Recorded {
    var key, status := KeyOf(MarkOf(b)), StatusOf(c, s, i, allowRecovery);
    var decision := Decision(i, status, b.monotonicNs);
    if key in s.decisions && (status == Accepted || s.decisions[key] != decision) then Collided
    else
      var t := s.(decisions := s.decisions[key := decision]);
      Recorded(if status == Accepted then t.(pending := Some(OrderFor(i, MarkOf(b), dueNs))) else t)
  }

  predicate AutomaticRecovery(h: HaltReason) {
    h.RestartWithOpenPosition? || h.ContinuityWithOpenPosition?
  }

  predicate NeedsLiquidation(c: Config, s: State) {
    s.lifecycle.HaltedRecovery? && AutomaticRecovery(s.halt) && s.account.base > c.epsilon
  }

  function Rearmed(s: State): State {
    s.(account := s.account.(base := 0.0, averageCost := 0.0), lifecycle := Warmup, warmupSeen := 0, halt := NotHalted)
  }

  /** The state when the policy's intent is about to be recorded, and whether this was a recovery step. */
  datatype Prepared = Prepared(state: State, recovery: bool) | NotPrepared(error: Error)

  /** Sell the whole position into this very book. */
  function Liquidate(c: Config, s: State, b: Book): Prepared
    requires ValidBook(b)
  {
    match RecordIntent(c, s, b, RecoveryIntent(s.account.base), true, b.monotonicNs)
    case Collided => NotPrepared(DecisionCollision)
    case Recorded(t) =>
      var r := Resolve(c, t, b);
      if r.Fault? then NotPrepared(r.error)
      else
        var u := AfterResolve(c, t, b, r);
        Prepared(if u.account.base <= c.epsilon then Rearmed(u) else u, true)
  }

  function CountWarmup(c: Config, s: State): State {
    if !s.lifecycle.Warmup? then s
    else if s.warmupSeen + 1 >= c.warmupBooks
      then s.(warmupSeen := s.warmupSeen + 1, lifecycle := Running, halt := NotHalted)
    else s.(warmupSeen := s.warmupSeen + 1)
  }

  /** Cash plus what the visible bids would pay for the position; base beyond them counts nothing. */
  function LiquidationEquity(c: Config, a: Account, b: Book): real
    requires ValidBook(b)
  {
    if a.base <= c.epsilon then a.cash
    else MaxReal(0.0, a.cash + Execute(Sell, b.bids, BaseQuantity(a.base), c.feeRate).cashFlow)
  }

  function Drawdown(equity: real, peak: real): real {
    if peak <= 0.0 then 0.0 else MaxReal(0.0, 1.0 - equity / peak)
  }

  function Marked(c: Config, s: State, b: Book): State
    requires ValidBook(b)
  {
    var equity := LiquidationEquity(c, s.account, b);
    var peak := MaxReal(s.peakEquity, equity);
    s.(lastEquity := equity, peakEquity := peak, maxDrawdown := MaxReal(s.maxDrawdown, Drawdown(equity, peak)),
       last := Some(MarkOf(b)))
  }

  function Prepare(c: Config, s: State, b: Book): Prepared
    requires ValidBook(b)
  {
    match ContinuityBreak(s.last, b)
    case Some(cause) => Prepared(AfterBreak(c, s, cause), false)
    case None =>
      var r := Resolve(c, s, b);
      if r.Fault? then NotPrepared(r.error)
      else
        var t := AfterResolve(c, s, b, r);
        if NeedsLiquidation(c, t) then Liquidate(c, t, b) else Prepared(CountWarmup(c, t), false)
  }

  function DuplicateOutcome(s: State, b: Book, intent: Option<Intent>): Outcome {
    var key := KeyOf(MarkOf(b));
    if intent.None? then Duplicate
    else if key !in s.decisions then Failed(IntentOnProcessedBook)
    else if s.decisions[key].intent != intent.value then Failed(DifferentIntent)
    else Duplicate
  }

  function Record(c: Config, p: Prepared, b: Book, intent: Option<Intent>): Outcome
    requires ValidBook(b)
  {
    match p
    case NotPrepared(e) => Failed(e)
    case Prepared(t, recovery) =>
      if intent.None? || recovery then Committed(Marked(c, t, b))
      else
        match RecordIntent(c, t, b, intent.value, false, b.monotonicNs + c.latencyNs)
        case Collided => Failed(DecisionCollision)
        case Recorded(u) => Committed(Marked(c, u, b))
  }

  function StepBook(c: Config, s: State, b: Book, intent: Option<Intent>): Outcome
    requires ValidBook(b)
  {
    if b.market != c.market then Failed(MarketMismatch)
    else if s.lifecycle.Stopped? then Failed(RunStopped)
    else if s.last == Some(MarkOf(b)) then DuplicateOutcome(s, b, intent)
    else
      match Regression(s.last, b)
      case Some(e) => Failed(e)
      case None => Record(c, Prepare(c, s, b), b, intent)
  }

  // ---------------------------------------------------------------- the other transactions of a run

  function Halted(s: State, reason: string, wallNs: int): State {
    s.(pending := None, lifecycle := HaltedRecovery, halt := ExternalHalt(reason),
       notices := s.notices[reason := HaltNotice(wallNs, s.pending.Some?)])
  }

  /** A halt takes effect unless the run already has another notice for its reason: then it is rolled back. */
  function HaltRun(s: State, reason: string, wallNs: int): Outcome {
    if reason in s.notices && s.notices[reason] != HaltNotice(wallNs, s.pending.Some?) then Failed(NoticeCollision)
    else Committed(Halted(s, reason, wallNs))
  }

  predicate Latched(h: HaltReason) {
    h.ExternalHalt? || h.RestartFingerprintChanged?
  }

  function StoppedGracefully(s: State, reason: string): State {
    s.(pending := None, lifecycle := Stopped, halt := if Latched(s.halt) then s.halt else Graceful(reason))
  }

  function FirstRun(c: Config): State {
    State(Warmup, NotHalted, Account(c.initialCash, 0.0, 0.0, 0.0, 0.0),
          c.initialCash, c.initialCash, 0.0, 0, None, None, map[], [], map[])
  }

  // ---------------------------------------------------------------- the engine

  /** One run's rows in the store, changed one transaction at a time. */
  class ShadowEngine {
    const config: Config
    var row: State

    constructor (config: Config)
      ensures this.config == config && row == FirstRun(config)
    {
      this.config := config;
      row := FirstRun(config);
    }

    method ProcessBook(book: Book, intent: Option<Intent>) returns (outcome: Outcome)
      requires ValidBook(book)
      modifies this
      ensures outcome == StepBook(config, old(row), book, intent)
      ensures row == if outcome.Committed? then outcome.state else old(row)
    {
      if book.market != config.market { return Failed(MarketMismatch); }
      var state := row;
      if state.lifecycle.Stopped? { return Failed(RunStopped); }
      if state.last == Some(MarkOf(book)) { return DuplicateOutcome(state, book, intent); }
      var regression := Regression(state.last, book);
      if regression.Some? { return Failed(regression.value); }

      var prepared := PrepareRow(book);
      if prepared.NotPrepared? { return Failed(prepared.error); }
      state := prepared.state;
      if intent.Some? && !prepared.recovery {
        var recorded := RecordIntent(config, state, book, intent.value, false, book.monotonicNs + config.latencyNs);
        if recorded.Collided? { return Failed(DecisionCollision); }
        state := recorded.state;
      }
      var equity := LiquidationEquity(config, state.account, book);
      var peak := MaxReal(state.peakEquity, equity);
      var drawdown := Drawdown(equity, peak);
      state := state.(lastEquity := equity);
      state := state.(peakEquity := peak);
      state := state.(maxDrawdown := MaxReal(state.maxDrawdown, drawdown));
      state := state.(last := Some(MarkOf(book)));
      row := state;
      return Committed(state);
    }

    /** Continuity, the pending order, recovery and warmup: the row before the policy's intent is looked at. */
    method PrepareRow(book: Book) returns (prepared: Prepared)
      requires ValidBook(book)
      ensures prepared == Prepare(config, row, book)
    {
      var state := row;
      var cause := ContinuityBreak(state.last, book);
      if cause.Some? {
        state := state.(pending := None);
        state := state.(warmupSeen := 0);
        if state.account.base > config.epsilon {
          state := state.(lifecycle := HaltedRecovery, halt := ContinuityWithOpenPosition(cause.value));
        } else {
          state := state.(lifecycle := Warmup, halt := NotHalted);
        }
        return Prepared(state, false);
      }
      var fault;
      state, fault := ResolvePending(state, book);
      if fault.Some? { return NotPrepared(fault.value); }
      if state.lifecycle.HaltedRecovery? && AutomaticRecovery(state.halt) && state.account.base > config.epsilon {
        prepared := LiquidateRow(state, book);
        return;
      }
      if state.lifecycle.Warmup? {
        state := state.(warmupSeen := state.warmupSeen + 1);
        if state.warmupSeen >= config.warmupBooks {
          state := state.(lifecycle := Running, halt := NotHalted);
        }
      }
      return Prepared(state, false);
    }

    method LiquidateRow(before: State, book: Book) returns (prepared: Prepared)
      requires ValidBook(book)
      ensures prepared == Liquidate(config, before, book)
    {
      var recorded := RecordIntent(config, before, book, RecoveryIntent(before.account.base), true, book.monotonicNs);
      if recorded.Collided? { return NotPrepared(DecisionCollision); }
      var state, fault := ResolvePending(recorded.state, book);
      if fault.Some? { return NotPrepared(fault.value); }
      if state.account.base <= config.epsilon {
        state := state.(account := state.account.(base := 0.0, averageCost := 0.0));
        state := state.(lifecycle := Warmup, warmupSeen := 0, halt := NotHalted);
      }
      return Prepared(state, true);
    }

    /** Expire or execute the pending order of the row being prepared; the stored row is untouched. */
    method ResolvePending(before: State, book: Book) returns (state: State, fault: Option<Error>)
      requires ValidBook(book)
      ensures var r := Resolve(config, before, book);
        fault == (if r.Fault? then Some(r.error) else None) && state == AfterResolve(config, before, book, r)
    {
      state, fault := before, None;
      if state.pending.None? { return; }
      var order := state.pending.value;
      if !SameConnection(order.decision, MarkOf(book)) {
        state := state.(pending := None);
        return;
      }
      if book.monotonicNs < order.dueNs { return; }
      if book.monotonicNs - order.dueNs > config.maxBookGapNs {
        state := state.(pending := None);
        return;
      }
      LevelsAreValid(book, order.side);
      var execution := Execute(order.side, LevelsFor(book, order.side), order.request, config.feeRate);
      var a := state.account;
      if order.side.Buy? {
        var cash := a.cash + execution.cashFlow;
        if cash < -config.epsilon { return state, Some(ReservedCashExceeded); }
        var cost := Worth(a.base, a.averageCost);
        var added := execution.filledQuote + execution.fee;
        var base := a.base + execution.filledBase;
        a := a.(cash := MaxReal(0.0, cash));
        a := a.(base := base);
        a := a.(averageCost := if base > config.epsilon then Average(cost + added, base) else 0.0);
      } else {
        var base := a.base - execution.filledBase;
        if base < -config.epsilon { return state, Some(PositionExceeded); }
        var released := Worth(execution.filledBase, a.averageCost);
        a := a.(cash := a.cash + execution.cashFlow);
        a := a.(base := MaxReal(0.0, base));
        a := a.(realized := a.realized + execution.cashFlow - released);
        if a.base <= config.epsilon {
          a := a.(base := 0.0, averageCost := 0.0);
        }
      }
      a := a.(fees := a.fees + execution.fee);
      state := state.(account := a);
      state := state.(pending := None);
      state := state.(fills := state.fills + [Fill(order, MarkOf(book), execution)]);
    }

    /** The notice is checked last, inside the transaction. */
    method Halt(reason: string, wallNs: int) returns (outcome: Outcome)
      modifies this
      ensures outcome == HaltRun(old(row), reason, wallNs)
      ensures row == if outcome.Committed? then outcome.state else old(row)
    {
      var before := row;
      var expired := row.pending.Some?;
      row := row.(pending := None);
      row := row.(lifecycle := HaltedRecovery, halt := ExternalHalt(reason));
      if reason in row.notices && row.notices[reason] != HaltNotice(wallNs, expired) {
        row := before;
        return Failed(NoticeCollision);
      }
      row := row.(notices := row.notices[reason := HaltNotice(wallNs, expired)]);
      return Committed(row);
    }

    method Stop(reason: string)
      modifies this
      ensures row == StoppedGracefully(old(row), reason)
    {
      var prior := row.halt;
      row := row.(pending := None);
      row := row.(lifecycle := Stopped, halt := if Latched(prior) then prior else Graceful(reason));
    }
  }

  lemma LevelsAreValid(b: Book, side: Side)
    requires ValidBook(b)
    ensures LevelsFor(b, side) != [] && ValidLevels(side, LevelsFor(b, side))
  {
  }
}
