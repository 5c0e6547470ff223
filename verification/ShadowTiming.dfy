/** When a run's orders fill, over every history of books, halts and stops. */
module ShadowTiming {
  import opened Envelopes
  import opened VisibleDepth
  import opened Books
  import opened ShadowAccount
  import opened ShadowSafety

  /** How a processed book counted: it continued the feed, broke it, or was used to liquidate for recovery. */
  datatype Kind = Plain | Broke | Recovered

  datatype Seen = Seen(book: Book, kind: Kind)

  datatype Txn = OnBook(book: Book, intent: Option<Intent>)
    | Halting(reason: string, wallNs: int) | StopRun(reason: string)

  ghost predicate ValidTxn(t: Txn) {
    t.OnBook? ==> ValidBook(t.book) && (t.intent.Some? ==> ValidIntent(t.intent.value))
  }

  ghost predicate ValidTxns(txns: seq<Txn>) {
    forall i :: 0 <= i < |txns| ==> ValidTxn(txns[i])
  }

  /**
   A run's row with the books it committed. `openAt` is the book the pending order was decided on and
   `spans` gives, for each fill, the books it was decided and executed on.
   */
  datatype History = History(state: State, seen: seq<Seen>, openAt: nat, spans: seq<(nat, nat)>)

  function KindOf(c: Config, s: State, b: Book): Kind
    requires ValidBook(b)
  {
    if ContinuityBreak(s.last, b).Some? then Broke
    else
      match Prepare(c, s, b)
      case Prepared(_, true) => Recovered
      case _ => Plain
  }

  function Observed(c: Config, h: History, b: Book, t: State): History
    requires ValidBook(b)
  {
    var n, s := |h.seen|, h.state;
    History(
      t, h.seen + [Seen(b, KindOf(c, s, b))],
      if t.pending == s.pending then h.openAt else n,
      if |t.fills| <= |s.fills| then h.spans
      else h.spans + [(if s.pending == Some(t.fills[|s.fills|].order) then h.openAt else n, n)])
  }

  /** A transaction that fails is rolled back. */
  function Advance(c: Config, h: History, txn: Txn): History
    requires ValidTxn(txn)
  {
    match txn
    case Halting(reason, wallNs) =>
      (match HaltRun(h.state, reason, wallNs) case Committed(t) => h.(state := t) case _ => h)
    case StopRun(reason) => h.(state := StoppedGracefully(h.state, reason))
    case OnBook(b, intent) =>
      match StepBook(c, h.state, b, intent)
      case Committed(t) => Observed(c, h, b, t)
      case _ => h
  }

  function After(c: Config, start: State, txns: seq<Txn>): History
    requires ValidTxns(txns)
    decreases |txns|
  {
    if txns == [] then History(start, [], 0, [])
    else Advance(c, After(c, start, txns[..|txns| - 1]), txns[|txns| - 1])
  }

  // ---------------------------------------------------------------- what the history means

  function LastMark(seen: seq<Seen>): Option<Mark> {
    if seen == [] then None else Some(MarkOf(seen[|seen| - 1].book))
  }

  /** Books that continued the feed, up to the end, since the last break, recovery or start. */
  function Streak(seen: seq<Seen>): nat
    decreases |seen|
  {
    if seen == [] || !seen[|seen| - 1].kind.Plain? then 0 else 1 + Streak(seen[..|seen| - 1])
  }

  /** A book is marked broken exactly when the feed was broken before it. */
  predicate WellMarked(seen: seq<Seen>)
    decreases |seen|
  {
    seen != [] ==>
      && WellMarked(seen[..|seen| - 1])
      && (seen[|seen| - 1].kind.Broke? <==> ContinuityBreak(LastMark(seen[..|seen| - 1]), seen[|seen| - 1].book).Some?)
  }

  /** Since book `i`, where `o` was decided with a full warmup behind it, every book continued the feed and came
      before it was due. */
  predicate Open(c: Config, seen: seq<Seen>, i: nat, o: PendingOrder) {
    && i < |seen| && MarkOf(seen[i].book) == o.decision && o.dueNs == o.decision.monotonicNs + c.latencyNs
    && Streak(seen[..i + 1]) >= c.warmupBooks
    && seen[|seen| - 1].book.monotonicNs >= o.decision.monotonicNs
    && forall k :: i < k < |seen| ==> Waits(seen[k], o)
  }

  predicate Waits(s: Seen, o: PendingOrder) {
    s.kind.Plain? && s.book.monotonicNs < o.dueNs && SameConnection(o.decision, MarkOf(s.book))
  }

  /**
   A fill is a recovery sale on the book that decided it, or it lands on book `j` of the decision's connection,
   the first one due, at most the allowed gap late, with no break since the decision on book `i`, and
   it was decided after a full warmup.
   */
  predicate Timely(c: Config, seen: seq<Seen>, i: nat, j: nat, f: Fill) {
    && i <= j < |seen| && MarkOf(seen[i].book) == f.order.decision && MarkOf(seen[j].book) == f.at
    && seen[j].book.asks != [] && seen[j].book.bids != []
    && (forall l :: l in LevelsFor(seen[j].book, f.order.side) ==> l.price > 0.0)
    && f.execution == Execute(f.order.side, LevelsFor(seen[j].book, f.order.side), f.order.request, c.feeRate)
    && if i == j then seen[j].kind.Recovered? && f.order.side.Sell? && f.order.dueNs == f.at.monotonicNs
       else
         && f.order.dueNs == f.order.decision.monotonicNs + c.latencyNs
         && f.order.dueNs <= f.at.monotonicNs <= f.order.dueNs + c.maxBookGapNs
         && SameConnection(f.order.decision, f.at) && seen[j].kind.Plain?
         && (forall k :: i < k < j ==> Waits(seen[k], f.order))
         && Streak(seen[..i + 1]) >= c.warmupBooks
  }

  predicate Warm(c: Config, s: State, seen: seq<Seen>) {
    && (s.lifecycle.Running? ==> Streak(seen) >= c.warmupBooks)
    && (s.lifecycle.Warmup? ==> s.warmupSeen <= Streak(seen))
  }

  predicate HistoryInv(c: Config, h: History) {
    && RunInv(c, h.state) && h.state.last == LastMark(h.seen) && WellMarked(h.seen) && Warm(c, h.state, h.seen)
    && (h.state.pending.Some? ==> Open(c, h.seen, h.openAt, h.state.pending.value))
    && |h.spans| == |h.state.fills|
    && forall n :: 0 <= n < |h.spans| ==> Timely(c, h.seen, h.spans[n].0, h.spans[n].1, h.state.fills[n])
  }

  // ---------------------------------------------------------------- the shape of one transaction

  predicate SameFills(s: State, t: State) { t.fills == s.fills }

  /** The pending order of `s` was executed on `b`. */
  predicate FilledHere(c: Config, s: State, t: State, b: Book)
    requires ValidBook(b)
  {
    && s.pending.Some? && SameConnection(s.pending.value.decision, MarkOf(b))
    && s.pending.value.dueNs <= b.monotonicNs <= s.pending.value.dueNs + c.maxBookGapNs
    && t.fills == s.fills + [Fill(s.pending.value, MarkOf(b),
                                  Execute(s.pending.value.side, LevelsFor(b, s.pending.value.side),
                                    s.pending.value.request, c.feeRate))]
  }

  predicate LiquidatedHere(c: Config, s: State, t: State, b: Book)
    requires ValidBook(b)
  {
    var o := OrderFor(RecoveryIntent(s.account.base), MarkOf(b), b.monotonicNs);
    t.fills == s.fills + [Fill(o, MarkOf(b), Execute(Sell, b.bids, BaseQuantity(s.account.base), c.feeRate))]
  }

  predicate Counted(c: Config, s: State, t: State, kind: Kind) {
    if !kind.Plain? then !t.lifecycle.Running? && (t.lifecycle.Warmup? ==> t.warmupSeen == 0)
    else if !s.lifecycle.Warmup? then t.lifecycle == s.lifecycle && t.warmupSeen == s.warmupSeen
    else
      && t.warmupSeen == s.warmupSeen + 1
      && (t.lifecycle.Warmup? || (t.lifecycle.Running? && t.warmupSeen >= c.warmupBooks))
  }

  predicate StillPending(s: State, t: State, b: Book, kind: Kind) {
    && s.pending.Some? && t.pending == s.pending && kind.Plain? && SameFills(s, t)
    && SameConnection(s.pending.value.decision, MarkOf(b)) && b.monotonicNs < s.pending.value.dueNs
  }

  lemma PrepareShape(c: Config, s: State, b: Book)
    requires ValidConfig(c) && ValidBook(b) && RunInv(c, s) && Prepare(c, s, b).Prepared?
    ensures var t, kind := Prepare(c, s, b).state, KindOf(c, s, b);
      && Counted(c, s, t, kind)
      && (kind.Recovered? <==> Prepare(c, s, b).recovery)
      && (t.pending.None? || StillPending(s, t, b, kind))
      && (SameFills(s, t)
          || (kind.Plain? && FilledHere(c, s, t, b) && t.pending.None?)
          || (kind.Recovered? && LiquidatedHere(c, s, t, b)))
  {
    if ContinuityBreak(s.last, b).None? {
      ResolveKeeps(c, s, b);
      var t := AfterResolve(c, s, b, Resolve(c, s, b));
      if NeedsLiquidation(c, t) { LiquidationResolves(c, t, b); }
    }
  }

  predicate NewlyPending(c: Config, t: State, b: Book) {
    && t.pending.Some? && t.lifecycle.Running? && t.pending.value.decision == MarkOf(b)
    && t.pending.value.dueNs == b.monotonicNs + c.latencyNs
  }

  lemma RecordShape(c: Config, p: Prepared, b: Book, intent: Option<Intent>)
    requires ValidBook(b) && Record(c, p, b, intent).Committed?
    ensures p.Prepared?
    ensures var t := Record(c, p, b, intent).state;
      && t.last == Some(MarkOf(b)) && t.fills == p.state.fills
      && t.lifecycle == p.state.lifecycle && t.warmupSeen == p.state.warmupSeen
      && (t.pending == p.state.pending || (p.state.pending.None? && NewlyPending(c, t, b)))
  {
  }

  lemma StepShape(c: Config, s: State, b: Book, intent: Option<Intent>)
    requires ValidConfig(c) && ValidBook(b) && RunInv(c, s) && StepBook(c, s, b, intent).Committed?
    ensures var t, kind := StepBook(c, s, b, intent).state, KindOf(c, s, b);
      && Regression(s.last, b).None? && t.last == Some(MarkOf(b))
      && Counted(c, s, t, kind)
      && (t.pending.None? || NewlyPending(c, t, b) || StillPending(s, t, b, kind))
      && (SameFills(s, t) || (kind.Plain? && FilledHere(c, s, t, b)) || (kind.Recovered? && LiquidatedHere(c, s, t, b)))
  {
    RecordShape(c, Prepare(c, s, b), b, intent);
    PrepareShape(c, s, b);
  }

  // ---------------------------------------------------------------- stability under one more book

  lemma StreakGrows(seen: seq<Seen>, x: Seen)
    ensures Streak(seen + [x]) == if x.kind.Plain? then 1 + Streak(seen) else 0
  {
    assert (seen + [x])[..|seen|] == seen;
  }

  lemma OpenExtends(c: Config, seen: seq<Seen>, i: nat, o: PendingOrder, x: Seen)
    requires Open(c, seen, i, o) && Waits(x, o) && x.book.monotonicNs >= o.decision.monotonicNs
    ensures Open(c, seen + [x], i, o)
  {
    assert (seen + [x])[..i + 1] == seen[..i + 1];
  }

  lemma TimelyExtends(c: Config, seen: seq<Seen>, i: nat, j: nat, f: Fill, x: Seen)
    requires Timely(c, seen, i, j, f)
    ensures Timely(c, seen + [x], i, j, f)
  {
    assert (seen + [x])[..i + 1] == seen[..i + 1];
  }

  lemma OpensHere(c: Config, seen: seq<Seen>, x: Seen, o: PendingOrder)
    requires o.decision == MarkOf(x.book) && o.dueNs == x.book.monotonicNs + c.latencyNs
    requires Streak(seen + [x]) >= c.warmupBooks
    ensures Open(c, seen + [x], |seen|, o)
  {
    hide Streak;
    var after := seen + [x];
    assert after[..|seen| + 1] == after && after[|seen|] == x;
  }

  lemma FillIsTimely(c: Config, h: History, b: Book, t: State)
    requires ValidConfig(c) && ValidBook(b) && HistoryInv(c, h) && Regression(h.state.last, b).None?
    requires KindOf(c, h.state, b).Plain? && FilledHere(c, h.state, t, b)
    ensures var x := Seen(b, KindOf(c, h.state, b));
      Timely(c, h.seen + [x], h.openAt, |h.seen|, t.fills[|h.state.fills|])
  {
    var x := Seen(b, KindOf(c, h.state, b));
    assert (h.seen + [x])[..h.openAt + 1] == h.seen[..h.openAt + 1];
  }

  lemma LiquidationIsTimely(c: Config, h: History, b: Book, t: State)
    requires ValidBook(b) && KindOf(c, h.state, b).Recovered? && LiquidatedHere(c, h.state, t, b)
    ensures var x := Seen(b, KindOf(c, h.state, b));
      Timely(c, h.seen + [x], |h.seen|, |h.seen|, t.fills[|h.state.fills|])
  {
  }

  lemma ObservedOpens(c: Config, h: History, b: Book, intent: Option<Intent>)
    requires ValidConfig(c) && ValidBook(b) && HistoryInv(c, h) && StepBook(c, h.state, b, intent).Committed?
    ensures var g := Observed(c, h, b, StepBook(c, h.state, b, intent).state);
      Warm(c, g.state, g.seen) && (g.state.pending.Some? ==> Open(c, g.seen, g.openAt, g.state.pending.value))
  {
    var s, t, x := h.state, StepBook(c, h.state, b, intent).state, Seen(b, KindOf(c, h.state, b));
    StepShape(c, s, b, intent);
    StreakGrows(h.seen, x);
    if t.pending.Some? {
      if StillPending(s, t, b, x.kind) { OpenExtends(c, h.seen, h.openAt, t.pending.value, x); }
      else { OpensHere(c, h.seen, x, t.pending.value); }
    }
  }

  lemma ObservedTimely(c: Config, h: History, b: Book, intent: Option<Intent>)
    requires ValidConfig(c) && ValidBook(b) && HistoryInv(c, h) && StepBook(c, h.state, b, intent).Committed?
    ensures var g := Observed(c, h, b, StepBook(c, h.state, b, intent).state);
      && |g.spans| == |g.state.fills|
      && forall n :: 0 <= n < |g.spans| ==> Timely(c, g.seen, g.spans[n].0, g.spans[n].1, g.state.fills[n])
  {
    hide Timely, StepBook, Execute;
    var s, t, x := h.state, StepBook(c, h.state, b, intent).state, Seen(b, KindOf(c, h.state, b));
    var g := Observed(c, h, b, t);
    StepShape(c, s, b, intent);
    forall n | 0 <= n < |h.spans|
      ensures Timely(c, g.seen, h.spans[n].0, h.spans[n].1, s.fills[n])
    {
      TimelyExtends(c, h.seen, h.spans[n].0, h.spans[n].1, s.fills[n], x);
    }
    if !SameFills(s, t) {
      if x.kind.Plain? { FillIsTimely(c, h, b, t); } else { LiquidationIsTimely(c, h, b, t); }
    }
  }

  // ---------------------------------------------------------------- every history

  lemma BookKeeps(c: Config, h: History, b: Book, intent: Option<Intent>)
    requires ValidConfig(c) && ValidBook(b) && (intent.Some? ==> ValidIntent(intent.value)) && HistoryInv(c, h)
    requires StepBook(c, h.state, b, intent).Committed?
    ensures HistoryInv(c, Observed(c, h, b, StepBook(c, h.state, b, intent).state))
  {
    hide StepBook, RunInv, Warm, Open, Timely;
    StepKeepsRun(c, h.state, b, intent);
    StepShape(c, h.state, b, intent);
    ObservedOpens(c, h, b, intent);
    ObservedTimely(c, h, b, intent);
    var seen := h.seen + [Seen(b, KindOf(c, h.state, b))];
    assert seen[..|h.seen|] == h.seen;
  }

  lemma HaltKeeps(c: Config, h: History, reason: string, wallNs: int)
    requires HistoryInv(c, h)
    ensures HistoryInv(c, h.(state := Halted(h.state, reason, wallNs)))
    ensures HistoryInv(c, h.(state := StoppedGracefully(h.state, reason)))
  {
    hide Timely, Open, WellMarked, Solvent;
  }

  lemma AdvanceKeeps(c: Config, h: History, txn: Txn)
    requires ValidConfig(c) && ValidTxn(txn) && HistoryInv(c, h)
    ensures HistoryInv(c, Advance(c, h, txn))
  {
    hide StepBook, HistoryInv, Observed, Halted, StoppedGracefully;
    match txn
    case Halting(reason, wallNs) => HaltKeeps(c, h, reason, wallNs);
    case StopRun(reason) => HaltKeeps(c, h, reason, 0);
    case OnBook(b, intent) => if StepBook(c, h.state, b, intent).Committed? { BookKeeps(c, h, b, intent); }
  }

  /** A run just started: nothing processed, nothing pending, warmup not begun or recovery needed. */
  predicate JustStarted(c: Config, s: State) {
    && RunInv(c, s) && s.last.None? && s.fills == [] && s.warmupSeen == 0
    && (s.lifecycle.Warmup? || s.lifecycle.HaltedRecovery?)
  }

  /**
   Whatever books, intents, halts and stops a run sees: one order at most is pending with its funds set aside,
   the account stays solvent, every fill is timely and every ordinary order had a full warmup behind it.
   */
  lemma {:induction false} EveryHistory(c: Config, start: State, txns: seq<Txn>)
    requires ValidConfig(c) && JustStarted(c, start) && ValidTxns(txns)
    ensures HistoryInv(c, After(c, start, txns))
    decreases |txns|
  {
    if txns != [] {
      EveryHistory(c, start, txns[..|txns| - 1]);
      AdvanceKeeps(c, After(c, start, txns[..|txns| - 1]), txns[|txns| - 1]);
    }
  }

  /** Between the decision and the fill no book broke the feed, and each followed its predecessor on the same
      connection. */
  lemma {:induction false} NoBreakWithin(seen: seq<Seen>, k: nat)
    requires WellMarked(seen) && k < |seen|
    ensures seen[k].kind.Broke? <==> ContinuityBreak(LastMark(seen[..k]), seen[k].book).Some?
    decreases |seen|
  {
    if k < |seen| - 1 {
      NoBreakWithin(seen[..|seen| - 1], k);
      assert seen[..|seen| - 1][..k] == seen[..k];
    }
  }

  /** An ordinary order never fills on the book it was decided on, not even with no latency at all. */
  lemma NeverOnItsOwnBook(c: Config, start: State, txns: seq<Txn>, n: nat)
    requires ValidConfig(c) && JustStarted(c, start) && ValidTxns(txns)
    requires n < |After(c, start, txns).state.fills|
    ensures var h := After(c, start, txns);
      |h.spans| == |h.state.fills| && h.spans[n].0 < |h.seen| && h.spans[n].1 < |h.seen|
      && (h.seen[h.spans[n].1].kind.Plain? ==> h.spans[n].0 < h.spans[n].1)
      && (h.seen[h.spans[n].1].kind.Recovered? ==> h.spans[n].0 == h.spans[n].1)
      && !h.seen[h.spans[n].1].kind.Broke?
  {
    EveryHistory(c, start, txns);
    var h := After(c, start, txns);
    assert Timely(c, h.seen, h.spans[n].0, h.spans[n].1, h.state.fills[n]);
  }

  // ---------------------------------------------------------------- external halts

  /**
   An external halt holds through a book if and only if the feed is not broken before it: a break replaces it,
   with warmup when the account is flat and with a recovery halt when it is not.
   */
  lemma HaltHoldsUntilBreak(c: Config, s: State, b: Book, intent: Option<Intent>)
    requires ValidConfig(c) && ValidBook(b) && RunInv(c, s) && s.lifecycle.HaltedRecovery? && Latched(s.halt)
    requires StepBook(c, s, b, intent).Committed?
    ensures var t := StepBook(c, s, b, intent).state;
      && t.pending.None? && t.account == s.account
      && (t.halt == s.halt && t.lifecycle.HaltedRecovery? <==> ContinuityBreak(s.last, b).None?)
      && (ContinuityBreak(s.last, b).Some?
        ==> t.lifecycle == (if s.account.base > c.epsilon then HaltedRecovery else Warmup))
  {
    hide LiquidationEquity, Drawdown;
  }

  /** Halting does not look at the lifecycle: a stopped run is halted too, and processes books again. */
  lemma HaltRevives(c: Config, s: State, reason: string, wallNs: int, b: Book)
    requires ValidConfig(c) && ValidBook(b) && RunInv(c, s) && s.lifecycle.Stopped? && s.pending.None?
    requires b.market == c.market && s.last != Some(MarkOf(b)) && Regression(s.last, b).None?
    ensures StepBook(c, s, b, None) == Failed(RunStopped)
    ensures HaltRun(s, reason, wallNs).Committed? ==>
      StepBook(c, HaltRun(s, reason, wallNs).state, b, None).Committed?
    ensures HaltRun(s, reason, wallNs).Failed? <==>
      reason in s.notices && s.notices[reason] != HaltNotice(wallNs, false)
  {
    PrepareKeeps(c, Halted(s, reason, wallNs), b);
  }

  /** Such a halt on a flat account is gone after any book marked as a regression: the run is back in warmup. */
  lemma BreakLiftsHalt(c: Config, reason: string, wallNs: int, b: Book)
    requires ValidConfig(c) && ValidBook(b) && b.market == c.market && b.regression && b.gap.None?
    ensures var s := Halted(FirstRun(c), reason, wallNs);
      && HaltRun(FirstRun(c), reason, wallNs) == Committed(s)
      && s.halt == ExternalHalt(reason) && StepBook(c, s, b, None).Committed?
      && StepBook(c, s, b, None).state.lifecycle.Warmup? && StepBook(c, s, b, None).state.halt.NotHalted?
  {
    hide LiquidationEquity, Drawdown;
  }

  /** The run has a notice for this reason, placed at this time. */
  predicate Noticed(s: State, reason: string, wallNs: int) {
    reason in s.notices && s.notices[reason].wallNs == wallNs
  }

  lemma PrepareKeepsNotices(c: Config, s: State, b: Book)
    requires ValidBook(b) && Prepare(c, s, b).Prepared?
    ensures Prepare(c, s, b).state.notices == s.notices
  {
    hide Execute, AfterFill, WhyTurnedDown, Liquidate;
    if ContinuityBreak(s.last, b).None? {
      var t := AfterResolve(c, s, b, Resolve(c, s, b));
      if NeedsLiquidation(c, t) { LiquidateKeepsNotices(c, t, b); }
    }
  }

  lemma LiquidateKeepsNotices(c: Config, s: State, b: Book)
    requires ValidBook(b) && Liquidate(c, s, b).Prepared?
    ensures Liquidate(c, s, b).state.notices == s.notices
  {
    hide Execute, AfterFill, WhyTurnedDown;
  }

  lemma StepKeepsNotices(c: Config, s: State, b: Book, intent: Option<Intent>)
    requires ValidBook(b) && StepBook(c, s, b, intent).Committed?
    ensures StepBook(c, s, b, intent).state.notices == s.notices
  {
    hide Prepare, WhyTurnedDown, LiquidationEquity, Drawdown;
    PrepareKeepsNotices(c, s, b);
  }

  /** Once a halt took effect, no transaction replaces its notice. */
  lemma AdvanceKeepsNotice(c: Config, h: History, txn: Txn, reason: string, wallNs: int)
    requires ValidConfig(c) && ValidTxn(txn) && Noticed(h.state, reason, wallNs)
    ensures Noticed(Advance(c, h, txn).state, reason, wallNs)
  {
    hide StepBook;
    if txn.OnBook? && StepBook(c, h.state, txn.book, txn.intent).Committed? {
      StepKeepsNotices(c, h.state, txn.book, txn.intent);
    }
  }

  /**
   A run halts at one time per reason. Whatever happens after a halt took effect, breaks that lift it included, a halt
   for the same reason at another time is rolled back.
   */
  lemma {:induction false} HaltsOncePerReason(c: Config, start: State, txns: seq<Txn>, n: nat, later: int)
    requires ValidConfig(c) && ValidTxns(txns) && n < |txns| && txns[n].Halting?
    requires var h := After(c, start, txns[..n]); HaltRun(h.state, txns[n].reason, txns[n].wallNs).Committed?
    ensures Noticed(After(c, start, txns).state, txns[n].reason, txns[n].wallNs)
    ensures later != txns[n].wallNs ==>
      HaltRun(After(c, start, txns).state, txns[n].reason, later) == Failed(NoticeCollision)
    decreases |txns|
  {
    hide StepBook, StoppedGracefully, Observed;
    var m := |txns| - 1;
    if n < m {
      assert txns[..m][..n] == txns[..n];
      HaltsOncePerReason(c, start, txns[..m], n, later);
      AdvanceKeepsNotice(c, After(c, start, txns[..m]), txns[m], txns[n].reason, txns[n].wallNs);
    }
  }
}
