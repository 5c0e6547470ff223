/** The run ledger: starting a run, carrying the account over from its predecessor, and whole chains of restarts. */
module ShadowLedger {
  import opened Envelopes
  import opened VisibleDepth
  import opened Books
  import opened ShadowAccount
  import opened ShadowSafety
  import opened ShadowTiming

  /** `Live` stands for the statuses warmup, running and halted_recovery. */
  datatype RunStatus = Live | Finished | Interrupted

  /** A run with the state it started from. Configuration fields outside `Config` count towards `codeVersion`. */
  datatype Run = Run(
    runId: string, status: RunStatus, startedNs: int, restartOf: Option<nat>,
    config: Config, codeVersion: string, start: State, history: History)

  function StateOf(r: Run): State { r.history.state }

  predicate Recoverable(r: Run, market: string) {
    r.config.market == market && !r.status.Interrupted?
  }

  /** The recoverable run of the market with the latest start. */
  function Predecessor(rows: seq<Run>, market: string): (p: Option<nat>)
    ensures p.Some? ==> p.value < |rows| && Recoverable(rows[p.value], market)
    ensures p.None? ==> forall k :: 0 <= k < |rows| ==> !Recoverable(rows[k], market)
    ensures p.Some? ==>
      forall k :: 0 <= k < |rows| && Recoverable(rows[k], market) ==> rows[k].startedNs <= rows[p.value].startedNs
    decreases |rows|
  {
    if rows == [] then None
    else
      var n := |rows| - 1;
      var p := Predecessor(rows[..n], market);
      if Recoverable(rows[n], market) && (p.None? || rows[p.value].startedNs < rows[n].startedNs) then Some(n) else p
  }

  /** A new run goes on from the latest run of its market if and only if no earlier one still recoverable
      started as late. */
  lemma ContinuesLatest(rows: seq<Run>, market: string, n: nat)
    requires n < |rows| && Recoverable(rows[n], market)
    requires forall k :: n < k < |rows| ==> rows[k].config.market != market
    ensures Predecessor(rows, market) == Some(n)
       <==> forall k :: 0 <= k < n && Recoverable(rows[k], market) ==> rows[k].startedNs < rows[n].startedNs
    decreases |rows|
  {
    if n < |rows| - 1 { ContinuesLatest(rows[..|rows| - 1], market, n); }
    else {
      var p := Predecessor(rows[..n], market);
      assert p.Some? ==> rows[..n][p.value] == rows[p.value];
      assert forall k :: 0 <= k < n ==> rows[..n][k] == rows[k];
    }
  }

  /** The account and equity marks carried over, in the lifecycle the predecessor's end calls for. */
  function CarriedOver(previous: Run, config: Config, codeVersion: string): State {
    var s := StateOf(previous);
    var halt :=
      if Latched(s.halt) then s.halt
      else if previous.config != config || previous.codeVersion != codeVersion then RestartFingerprintChanged
      else if s.account.base > config.epsilon then RestartWithOpenPosition
      else NotHalted;
    State(if halt.NotHalted? then Warmup else HaltedRecovery, halt, s.account,
          s.lastEquity, s.peakEquity, s.maxDrawdown, 0, None, None, map[], [], map[])
  }

  /** The predecessor's pending order expires; if it was still live it is interrupted. */
  function Retired(r: Run): Run {
    var s := StateOf(r).(pending := None);
    if r.status.Live? then
      r.(status := Interrupted, history := r.history.(state := s.(lifecycle := Stopped, halt := ProcessRestart)))
    else r.(history := r.history.(state := s))
  }

  function NewRun(runId: string, config: Config, codeVersion: string, startedNs: int, restartOf: Option<nat>,
      start: State): Run
  {
    Run(runId, Live, startedNs, restartOf, config, codeVersion, start, History(start, [], 0, []))
  }

  function Find(rows: seq<Run>, runId: string): (i: Option<nat>)
    ensures i.Some? ==> i.value < |rows| && rows[i.value].runId == runId
    ensures i.None? ==> forall k :: 0 <= k < |rows| ==> rows[k].runId != runId
    decreases |rows|
  {
    if rows == [] then None
    else if rows[|rows| - 1].runId == runId then Some(|rows| - 1)
    else Find(rows[..|rows| - 1], runId)
  }

  datatype StartOutcome = Started(rows: seq<Run>) | AlreadyStarted | IdReused

  function RunStarted(rows: seq<Run>, runId: string, config: Config, codeVersion: string,
      startedNs: int): StartOutcome
  {
    match Find(rows, runId)
    case Some(i) => if rows[i].config == config && rows[i].codeVersion == codeVersion then AlreadyStarted else IdReused
    case None =>
      match Predecessor(rows, config.market)
      case None => Started(rows + [NewRun(runId, config, codeVersion, startedNs, None, FirstRun(config))])
      case Some(p) =>
        Started(rows[p := Retired(rows[p])]
                + [NewRun(runId, config, codeVersion, startedNs, Some(p), CarriedOver(rows[p], config, codeVersion))])
  }

  function StatusAfter(s: State): RunStatus {
    if s.lifecycle.Stopped? then Finished else Live
  }

  function Transacted(r: Run, txn: Txn): Run
    requires ValidTxn(txn)
  {
    var h := Advance(r.config, r.history, txn);
    r.(history := h, status := StatusAfter(h.state))
  }

  datatype Event =
    | Start(runId: string, config: Config, codeVersion: string, startedNs: int)
    | Transact(run: nat, txn: Txn)

  function Apply(rows: seq<Run>, e: Event): seq<Run>
    requires e.Transact? ==> e.run < |rows| && ValidTxn(e.txn)
  {
    match e
    case Start(id, config, code, ns) =>
      (match RunStarted(rows, id, config, code, ns) case Started(after) => after case _ => rows)
    case Transact(i, txn) => rows[i := Transacted(rows[i], txn)]
  }

  // ---------------------------------------------------------------- what the ledger keeps

  predicate Latest(rows: seq<Run>, i: nat) {
    i < |rows| && forall k :: i < k < |rows| ==> rows[k].config.market != rows[i].config.market
  }

  /** Start times strictly increase, and only the latest run of a market has a runner. */
  ghost predicate Allowed(rows: seq<Run>, e: Event) {
    match e
    case Start(_, config, _, ns) => ValidConfig(config) && forall k :: 0 <= k < |rows| ==> rows[k].startedNs < ns
    case Transact(i, txn) => Latest(rows, i) && ValidTxn(txn)
  }

  predicate RunHolds(r: Run) {
    && ValidConfig(r.config) && JustStarted(r.config, r.start) && HistoryInv(r.config, r.history)
    && Accounted(r.config, r.start.account, StateOf(r))
  }

  /** A run continues the run of its market just before it, or is the first. */
  predicate Linked(rows: seq<Run>, i: nat)
    requires i < |rows|
  {
    match rows[i].restartOf
    case None => rows[i].start == FirstRun(rows[i].config) && NoneBetween(rows, 0, i)
    case Some(p) =>
      && p < i && rows[p].config.market == rows[i].config.market && NoneBetween(rows, p + 1, i)
      && rows[i].start.account == StateOf(rows[p]).account
      && rows[i].start.lastEquity == StateOf(rows[p]).lastEquity
      && rows[i].start.peakEquity == StateOf(rows[p]).peakEquity
      && rows[i].start.maxDrawdown == StateOf(rows[p]).maxDrawdown
      && StateOf(rows[p]).pending.None? && StateOf(rows[p]).lifecycle.Stopped?
  }

  predicate NoneBetween(rows: seq<Run>, from: nat, i: nat)
    requires i < |rows|
  {
    forall k :: from <= k < i ==> rows[k].config.market != rows[i].config.market
  }

  predicate LatestIsRecoverable(rows: seq<Run>, i: nat)
    requires i < |rows|
  {
    Latest(rows, i) ==> rows[i].status == StatusAfter(StateOf(rows[i]))
  }

  ghost predicate LedgerInv(rows: seq<Run>) {
    && (forall i :: 0 <= i < |rows| ==> RunHolds(rows[i]))
    && (forall i :: 0 <= i < |rows| ==> Linked(rows, i))
    && (forall i :: 0 <= i < |rows| ==> LatestIsRecoverable(rows, i))
    && forall i, j :: 0 <= i < j < |rows| ==> rows[i].startedNs < rows[j].startedNs
  }

  lemma TransactedHolds(r: Run, txn: Txn)
    requires RunHolds(r) && ValidTxn(txn)
    ensures RunHolds(Transacted(r, txn))
  {
    AdvanceKeeps(r.config, r.history, txn);
    if txn.OnBook? { StepAccounted(r.config, r.start.account, StateOf(r), txn.book, txn.intent); }
  }

  /** Rewriting the latest run of a market does not unlink any run. */
  lemma RewriteKeepsLinks(rows: seq<Run>, i: nat, r: Run, j: nat)
    requires Latest(rows, i) && j < |rows| && Linked(rows, j)
    requires r.config == rows[i].config && r.restartOf == rows[i].restartOf && r.start == rows[i].start
    ensures Linked(rows[i := r], j)
  {
    assert forall k :: 0 <= k < |rows| ==> rows[i := r][k].config == rows[k].config;
    if rows[j].restartOf.Some? { assert rows[j].restartOf.value != i; }
  }

  lemma RewriteKeepsLatest(rows: seq<Run>, i: nat, r: Run, j: nat)
    requires i < |rows| && j < |rows| && r.config == rows[i].config
    ensures Latest(rows[i := r], j) <==> Latest(rows, j)
  {
    assert forall k :: 0 <= k < |rows| ==> rows[i := r][k].config == rows[k].config;
  }

  lemma AppendKeepsLinks(rows: seq<Run>, r: Run, j: nat)
    requires j < |rows| && Linked(rows, j)
    ensures Linked(rows + [r], j)
  {
  }

  lemma AppendKeepsLatest(rows: seq<Run>, r: Run, j: nat)
    requires j < |rows|
    ensures Latest(rows + [r], j) <==> Latest(rows, j) && r.config.market != rows[j].config.market
  {
    var after := rows + [r];
    assert after[|rows|] == r && forall k :: 0 <= k < |rows| ==> after[k] == rows[k];
  }

  lemma TransactKeeps(rows: seq<Run>, i: nat, txn: Txn)
    requires LedgerInv(rows) && Latest(rows, i) && ValidTxn(txn)
    ensures LedgerInv(rows[i := Transacted(rows[i], txn)])
  {
    hide RunHolds, Linked, Advance;
    var r := Transacted(rows[i], txn);
    var after := rows[i := r];
    assert RunHolds(rows[i]);
    TransactedHolds(rows[i], txn);
    forall j | 0 <= j < |rows| ensures Linked(after, j) && LatestIsRecoverable(after, j) {
      RewriteKeepsLinks(rows, i, r, j);
      RewriteKeepsLatest(rows, i, r, j);
      assert LatestIsRecoverable(rows, j);
    }
  }

  /** Some run of the market is the latest one, if there is any. */
  lemma {:induction false} LatestExists(rows: seq<Run>, market: string) returns (n: Option<nat>)
    ensures n.None? ==> forall k :: 0 <= k < |rows| ==> rows[k].config.market != market
    ensures n.Some? ==> n.value < |rows| && rows[n.value].config.market == market && Latest(rows, n.value)
    decreases |rows|
  {
    if rows == [] { n := None; }
    else if rows[|rows| - 1].config.market == market { n := Some(|rows| - 1); }
    else { n := LatestExists(rows[..|rows| - 1], market); }
  }

  /** With start times increasing and one runner, the predecessor is the market's latest run. */
  lemma PredecessorIsLatest(rows: seq<Run>, market: string)
    requires LedgerInv(rows)
    ensures match Predecessor(rows, market)
            case None => forall k :: 0 <= k < |rows| ==> rows[k].config.market != market
            case Some(p) => Latest(rows, p)
  {
    var n := LatestExists(rows, market);
    if n.Some? {
      assert LatestIsRecoverable(rows, n.value);
      ContinuesLatest(rows, market, n.value);
    }
  }

  lemma RetiredHolds(r: Run)
    requires RunHolds(r)
    ensures RunHolds(Retired(r))
  {
  }

  lemma StartedHolds(runId: string, config: Config, codeVersion: string, startedNs: int, previous: Run, p: nat)
    requires ValidConfig(config) && RunHolds(previous)
    ensures RunHolds(NewRun(runId, config, codeVersion, startedNs, Some(p), CarriedOver(previous, config, codeVersion)))
  {
  }

  lemma FirstHolds(runId: string, config: Config, codeVersion: string, startedNs: int)
    requires ValidConfig(config)
    ensures RunHolds(NewRun(runId, config, codeVersion, startedNs, None, FirstRun(config)))
  {
  }

  /** Nothing of a market yet: its first run is linked to nothing. */
  lemma FirstStartKeeps(rows: seq<Run>, r: Run)
    requires LedgerInv(rows) && RunHolds(r) && r.restartOf.None? && r.start == FirstRun(r.config)
    requires r.status == StatusAfter(StateOf(r))
    requires forall k :: 0 <= k < |rows| ==> rows[k].startedNs < r.startedNs && rows[k].config.market != r.config.market
    ensures LedgerInv(rows + [r])
  {
    var after := rows + [r];
    forall j | 0 <= j < |after| ensures Linked(after, j) && LatestIsRecoverable(after, j) {
      if j < |rows| {
        AppendKeepsLinks(rows, r, j);
        AppendKeepsLatest(rows, r, j);
        assert LatestIsRecoverable(rows, j);
      }
    }
  }

  lemma RestartLinks(rows: seq<Run>, p: nat, r: Run)
    requires Latest(rows, p) && r.restartOf == Some(p) && r.config.market == rows[p].config.market
    requires var previous := StateOf(rows[p]);
      && previous.pending.None? && previous.lifecycle.Stopped? && r.start.account == previous.account
      && r.start.lastEquity == previous.lastEquity && r.start.peakEquity == previous.peakEquity
      && r.start.maxDrawdown == previous.maxDrawdown
    ensures Linked(rows + [r], |rows|)
  {
  }

  lemma RestartKeeps(rows: seq<Run>, p: nat, q: Run, r: Run)
    requires LedgerInv(rows) && Latest(rows, p) && RunHolds(q) && RunHolds(r)
    requires q.config == rows[p].config && q.restartOf == rows[p].restartOf && q.start == rows[p].start
    requires q.startedNs == rows[p].startedNs
    requires r.status == StatusAfter(StateOf(r)) && r.config.market == rows[p].config.market
    requires Linked(rows[p := q] + [r], |rows|)
    requires forall k :: 0 <= k < |rows| ==> rows[k].startedNs < r.startedNs
    ensures LedgerInv(rows[p := q] + [r])
  {
    hide RunHolds, Linked;
    var middle := rows[p := q];
    var after := middle + [r];
    forall j | 0 <= j < |after| ensures Linked(after, j) && LatestIsRecoverable(after, j) {
      if j < |rows| {
        RewriteKeepsLinks(rows, p, q, j);
        RewriteKeepsLatest(rows, p, q, j);
        AppendKeepsLinks(middle, r, j);
        AppendKeepsLatest(middle, r, j);
        assert LatestIsRecoverable(rows, j);
      }
    }
  }

  lemma StartKeeps(rows: seq<Run>, e: Event)
    requires LedgerInv(rows) && e.Start? && Allowed(rows, e)
    ensures LedgerInv(Apply(rows, e))
  {
    hide RunHolds, Linked;
    PredecessorIsLatest(rows, e.config.market);
    match Predecessor(rows, e.config.market)
    case None =>
      FirstHolds(e.runId, e.config, e.codeVersion, e.startedNs);
      FirstStartKeeps(rows, NewRun(e.runId, e.config, e.codeVersion, e.startedNs, None, FirstRun(e.config)));
    case Some(p) =>
      var before := rows[p];
      assert RunHolds(before) && LatestIsRecoverable(rows, p);
      var q, r := Retired(before),
        NewRun(e.runId, e.config, e.codeVersion, e.startedNs, Some(p), CarriedOver(before, e.config, e.codeVersion));
      RetiredHolds(before);
      StartedHolds(e.runId, e.config, e.codeVersion, e.startedNs, before, p);
      RewriteKeepsLatest(rows, p, q, p);
      RestartLinks(rows[p := q], p, r);
      RestartKeeps(rows, p, q, r);
  }

  lemma EventKeeps(rows: seq<Run>, e: Event)
    requires LedgerInv(rows) && Allowed(rows, e)
    ensures LedgerInv(Apply(rows, e))
  {
    if e.Start? { StartKeeps(rows, e); } else { TransactKeeps(rows, e.run, e.txn); }
  }

  // ---------------------------------------------------------------- whole chains

  ghost predicate AllAllowed(rows: seq<Run>, events: seq<Event>)
    decreases |events|
  {
    events != [] ==> Allowed(rows, events[0]) && AllAllowed(Apply(rows, events[0]), events[1..])
  }

  ghost function Ledger(rows: seq<Run>, events: seq<Event>): seq<Run>
    requires AllAllowed(rows, events)
    decreases |events|
  {
    if events == [] then rows else Ledger(Apply(rows, events[0]), events[1..])
  }

  lemma {:induction false} LedgerKeeps(rows: seq<Run>, events: seq<Event>)
    requires LedgerInv(rows) && AllAllowed(rows, events)
    ensures LedgerInv(Ledger(rows, events))
    decreases |events|
  {
    if events != [] {
      EventKeeps(rows, events[0]);
      LedgerKeeps(Apply(rows, events[0]), events[1..]);
    }
  }

  predicate Chained(rows: seq<Run>) {
    forall i :: 0 <= i < |rows| && rows[i].restartOf.Some? ==> rows[i].restartOf.value < i
  }

  /** The cash the first run of a chain started with. */
  function ChainInitial(rows: seq<Run>, i: nat): real
    requires Chained(rows) && i < |rows|
  {
    match rows[i].restartOf
    case None => rows[i].config.initialCash
    case Some(p) => ChainInitial(rows, p)
  }

  function ChainClamped(rows: seq<Run>, i: nat): real
    requires Chained(rows) && i < |rows|
  {
    TotalClamped(rows[i].config.epsilon, rows[i].start.account, StateOf(rows[i]).fills)
    + (match rows[i].restartOf case None => 0.0 case Some(p) => ChainClamped(rows, p))
  }

  function ChainFees(rows: seq<Run>, i: nat): real
    requires Chained(rows) && i < |rows|
  {
    SumFees(StateOf(rows[i]).fills) + (match rows[i].restartOf case None => 0.0 case Some(p) => ChainFees(rows, p))
  }

  /** Quote traded, whichever way. */
  function TradedQuote(fills: seq<Fill>): real
    decreases |fills|
  {
    if fills == [] then 0.0 else TradedQuote(fills[..|fills| - 1]) + fills[|fills| - 1].execution.filledQuote
  }

  lemma FillIsCharged(c: Config, seen: seq<Seen>, i: nat, j: nat, f: Fill)
    requires Timely(c, seen, i, j, f)
    ensures f.execution.fee == f.execution.filledQuote * c.feeRate
  {
  }

  lemma {:induction false} FeesAreRate(fills: seq<Fill>, feeRate: real)
    requires forall n :: 0 <= n < |fills| ==> fills[n].execution.fee == fills[n].execution.filledQuote * feeRate
    ensures SumFees(fills) == TradedQuote(fills) * feeRate
    decreases |fills|
  {
    if fills != [] {
      var n := |fills| - 1;
      FeesAreRate(fills[..n], feeRate);
      var last := fills[n].execution.filledQuote;
      assert TradedQuote(fills) * feeRate == TradedQuote(fills[..n]) * feeRate + last * feeRate;
    }
  }

  /** Over any run, the fees are the fee rate of everything its fills traded. */
  lemma RunFees(r: Run)
    requires RunHolds(r)
    ensures SumFees(StateOf(r).fills) == TradedQuote(StateOf(r).fills) * r.config.feeRate
  {
    hide Timely, Open, RunInv, JustStarted, Accounted;
    var h := r.history;
    forall n | 0 <= n < |h.state.fills|
      ensures h.state.fills[n].execution.fee == h.state.fills[n].execution.filledQuote * r.config.feeRate
    {
      FillIsCharged(r.config, h.seen, h.spans[n].0, h.spans[n].1, h.state.fills[n]);
    }
    FeesAreRate(h.state.fills, r.config.feeRate);
  }

  /** Each run's fee rate of what it traded, over a chain. */
  function ChainCharges(rows: seq<Run>, i: nat): real
    requires Chained(rows) && i < |rows|
  {
    TradedQuote(StateOf(rows[i]).fills) * rows[i].config.feeRate
    + (match rows[i].restartOf case None => 0.0 case Some(p) => ChainCharges(rows, p))
  }

  lemma {:induction false} ChainIsCharged(rows: seq<Run>, i: nat)
    requires LedgerInv(rows) && Chained(rows) && i < |rows|
    ensures ChainFees(rows, i) == ChainCharges(rows, i)
  {
    hide RunHolds, Linked, LatestIsRecoverable;
    assert RunHolds(rows[i]);
    RunFees(rows[i]);
    if rows[i].restartOf.Some? { ChainIsCharged(rows, rows[i].restartOf.value); }
  }

  lemma LinkedIsChained(rows: seq<Run>)
    requires LedgerInv(rows)
    ensures Chained(rows)
  {
    forall i | 0 <= i < |rows| && rows[i].restartOf.Some? ensures rows[i].restartOf.value < i {
      assert Linked(rows, i);
    }
  }

  lemma {:induction false} ChainConserves(rows: seq<Run>, i: nat)
    requires LedgerInv(rows) && Chained(rows) && i < |rows|
    ensures BookValue(StateOf(rows[i]).account) == ChainInitial(rows, i) + ChainClamped(rows, i)
    ensures StateOf(rows[i]).account.fees == ChainFees(rows, i)
  {
    assert RunHolds(rows[i]) && Linked(rows, i);
    ReplayConserves(rows[i].config.epsilon, rows[i].start.account, StateOf(rows[i]).fills);
    match rows[i].restartOf
    case None => assert BookValue(rows[i].start.account) == rows[i].config.initialCash by { NoPosition(); }
    case Some(p) => ChainConserves(rows, p);
  }

  lemma NoPosition()
    ensures Worth(0.0, 0.0) == 0.0
  {
  }

  /**
   Over any chain of fills, expiries, recovery sales, halts, stops, crashes and restarts, every run's book value
   is the first run's cash plus what clamping at epsilon moved, and its fees are those of all the chain's fills: each
   run's fee rate of the quote it traded.
   */
  lemma BookValueIsConserved(events: seq<Event>, i: nat)
    requires AllAllowed([], events) && i < |Ledger([], events)|
    ensures var rows := Ledger([], events);
      && LedgerInv(rows) && Chained(rows)
      && BookValue(StateOf(rows[i]).account) == ChainInitial(rows, i) + ChainClamped(rows, i)
      && StateOf(rows[i]).account.fees == ChainFees(rows, i) == ChainCharges(rows, i)
  {
    hide RunHolds, Linked, LatestIsRecoverable;
    LedgerKeeps([], events);
    LinkedIsChained(Ledger([], events));
    ChainConserves(Ledger([], events), i);
    ChainIsCharged(Ledger([], events), i);
  }

  // ---------------------------------------------------------------- starting again

  predicate IdsUnique(rows: seq<Run>) {
    forall i, j :: 0 <= i < j < |rows| ==> rows[i].runId != rows[j].runId
  }

  /** A run is its id with its configuration and code version; neither ever changes. */
  predicate SameRun(a: Run, b: Run) {
    a.runId == b.runId && a.config == b.config && a.codeVersion == b.codeVersion
  }

  lemma EventKeepsIds(rows: seq<Run>, e: Event)
    requires IdsUnique(rows) && (e.Transact? ==> e.run < |rows| && ValidTxn(e.txn))
    ensures var after := Apply(rows, e);
      IdsUnique(after) && |rows| <= |after| && forall i :: 0 <= i < |rows| ==> SameRun(after[i], rows[i])
  {
    hide CarriedOver, Advance, Predecessor;
  }

  lemma {:induction false} LedgerKeepsIds(rows: seq<Run>, events: seq<Event>)
    requires IdsUnique(rows) && AllAllowed(rows, events)
    ensures var after := Ledger(rows, events);
      IdsUnique(after) && |rows| <= |after| && forall i :: 0 <= i < |rows| ==> SameRun(after[i], rows[i])
    decreases |events|
  {
    hide Apply;
    if events != [] {
      EventKeepsIds(rows, events[0]);
      LedgerKeepsIds(Apply(rows, events[0]), events[1..]);
    }
  }

  /**
   Whatever happened since a run was started, starting its id again is recognized, and changes nothing, if and only if
   configuration and code version are the same; otherwise it is refused. Only an unknown id starts a run.
   */
  lemma StartingAgain(events: seq<Event>, runId: string, config: Config, codeVersion: string, startedNs: int)
    requires AllAllowed([], events)
    ensures var rows := Ledger([], events);
      var outcome := RunStarted(rows, runId, config, codeVersion, startedNs);
      && (outcome.Started? <==> forall i :: 0 <= i < |rows| ==> rows[i].runId != runId)
      && forall i :: 0 <= i < |rows| && rows[i].runId == runId ==>
           var same := rows[i].config == config && rows[i].codeVersion == codeVersion;
           outcome == if same then AlreadyStarted else IdReused
  {
    hide RunStarted, Ledger;
    LedgerKeepsIds([], events);
    StartsOnce(Ledger([], events), runId, config, codeVersion, startedNs);
  }

  lemma StartsOnce(rows: seq<Run>, runId: string, config: Config, codeVersion: string, startedNs: int)
    requires IdsUnique(rows)
    ensures var outcome := RunStarted(rows, runId, config, codeVersion, startedNs);
      && (outcome.Started? <==> forall i :: 0 <= i < |rows| ==> rows[i].runId != runId)
      && forall i :: 0 <= i < |rows| && rows[i].runId == runId ==>
           var same := rows[i].config == config && rows[i].codeVersion == codeVersion;
           outcome == if same then AlreadyStarted else IdReused
  {
    hide CarriedOver, Predecessor, Retired, NewRun;
  }

  /** A restart never resumes trading: it starts in warmup only when flat, unlatched and under the same fingerprint. */
  lemma RestartNeedsRecovery(previous: Run, config: Config, codeVersion: string)
    ensures var s := CarriedOver(previous, config, codeVersion);
      && (s.lifecycle.Warmup? <==>
            && !Latched(StateOf(previous).halt) && previous.config == config && previous.codeVersion == codeVersion
            && StateOf(previous).account.base <= config.epsilon)
      && (s.lifecycle.Warmup? || s.lifecycle.HaltedRecovery?)
      && (Latched(StateOf(previous).halt) ==> s.halt == StateOf(previous).halt)
      && (AutomaticRecovery(s.halt) ==> NeedsLiquidation(config, s))
  {
  }

  /** The market's latest run is latched in `halt` with this account. */
  predicate Latching(r: Run, halt: HaltReason, account: Account) {
    && StateOf(r).halt == halt && Latched(halt) && StateOf(r).account == account
    && (StateOf(r).lifecycle.HaltedRecovery? || StateOf(r).lifecycle.Stopped?)
  }

  ghost predicate MarketLatched(rows: seq<Run>, market: string, halt: HaltReason, account: Account) {
    exists n: nat :: Latest(rows, n) && rows[n].config.market == market && Latching(rows[n], halt, account)
  }

  /** Everything may happen but another halt of the market's run, or a book that breaks its feed. */
  ghost predicate Undisturbed(rows: seq<Run>, e: Event, market: string)
    requires e.Transact? ==> e.run < |rows|
  {
    e.Transact? && rows[e.run].config.market == market ==>
      match e.txn
      case Halting(_, _) => false
      case StopRun(_) => true
      case OnBook(b, _) => ContinuityBreak(StateOf(rows[e.run]).last, b).None?
  }

  ghost predicate AllUndisturbed(rows: seq<Run>, events: seq<Event>, market: string)
    requires AllAllowed(rows, events)
    decreases |events|
  {
    events != [] ==>
      Undisturbed(rows, events[0], market) && AllUndisturbed(Apply(rows, events[0]), events[1..], market)
  }

  predicate StartedLatched(rows: seq<Run>, from: nat, market: string, halt: HaltReason) {
    forall i :: from <= i < |rows| && rows[i].config.market == market ==>
      rows[i].start.halt == halt && rows[i].start.lifecycle.HaltedRecovery?
  }

  lemma TransactKeepsLatch(r: Run, txn: Txn, halt: HaltReason, account: Account)
    requires RunHolds(r) && ValidTxn(txn) && Latching(r, halt, account)
    requires txn.StopRun? || (txn.OnBook? && ContinuityBreak(StateOf(r).last, txn.book).None?)
    ensures Latching(Transacted(r, txn), halt, account)
  {
    hide Prepare, Record, Accounted, Timely, Open, HistoryInv;
    assert RunInv(r.config, StateOf(r)) by { InvOfHistory(r.config, r.history); }
    if txn.OnBook? && !StateOf(r).lifecycle.Stopped?
      && StepBook(r.config, StateOf(r), txn.book, txn.intent).Committed? {
      HaltHoldsUntilBreak(r.config, StateOf(r), txn.book, txn.intent);
    }
  }

  lemma InvOfHistory(c: Config, h: History)
    requires HistoryInv(c, h)
    ensures RunInv(c, h.state)
  {
    hide Timely, Open, RunInv;
  }

  predicate SameStarts(rows: seq<Run>, after: seq<Run>) {
    |rows| <= |after| && forall i :: 0 <= i < |rows| ==>
      after[i].start == rows[i].start && after[i].config == rows[i].config
  }

  lemma StartsStayLatched(rows: seq<Run>, after: seq<Run>, from: nat, market: string, halt: HaltReason)
    requires SameStarts(rows, after) && StartedLatched(rows, from, market, halt)
    requires StartedLatched(after, |rows|, market, halt)
    ensures StartedLatched(after, from, market, halt)
  {
  }

  /** A start of the market carries the latch over. */
  lemma RestartKeepsLatch(rows: seq<Run>, p: nat, q: Run, r: Run, halt: HaltReason, account: Account)
    requires Latest(rows, p) && Latching(rows[p], halt, account) && q.start == rows[p].start
      && q.config == rows[p].config
    requires r.config.market == rows[p].config.market && StateOf(r) == r.start
    requires r.start == CarriedOver(rows[p], r.config, r.codeVersion)
    ensures var after := rows[p := q] + [r];
      && MarketLatched(after, r.config.market, halt, account) && SameStarts(rows, after)
      && StartedLatched(after, |rows|, r.config.market, halt)
  {
    var after := rows[p := q] + [r];
    assert after[|rows|] == r && Latest(after, |rows|) && Latching(r, halt, account);
  }

  /** A start of another market does not reach it. */
  lemma OtherStartKeepsLatch(rows: seq<Run>, n: nat, middle: seq<Run>, r: Run, halt: HaltReason, account: Account)
    requires Latest(rows, n) && Latching(rows[n], halt, account) && rows[n].config.market != r.config.market
    requires |middle| == |rows| && middle[n] == rows[n] && SameStarts(rows, middle)
    ensures var after := middle + [r]; var market := rows[n].config.market;
      && MarketLatched(after, market, halt, account) && SameStarts(rows, after)
      && StartedLatched(after, |rows|, market, halt)
  {
    hide Latching;
    var after := middle + [r];
    assert after[n] == rows[n] && Latest(after, n);
  }

  lemma StartKeepsLatch(rows: seq<Run>, e: Event, market: string, halt: HaltReason, account: Account)
    requires LedgerInv(rows) && e.Start? && Allowed(rows, e) && MarketLatched(rows, market, halt, account)
    ensures var after := Apply(rows, e);
      && MarketLatched(after, market, halt, account) && SameStarts(rows, after)
      && StartedLatched(after, |rows|, market, halt)
  {
    hide LedgerInv, Latching, CarriedOver;
    var n: nat :| Latest(rows, n) && rows[n].config.market == market && Latching(rows[n], halt, account);
    PredecessorIsLatest(rows, e.config.market);
    if Find(rows, e.runId).None? {
      match Predecessor(rows, e.config.market)
      case None =>
        var r := NewRun(e.runId, e.config, e.codeVersion, e.startedNs, None, FirstRun(e.config));
        OtherStartKeepsLatch(rows, n, rows, r, halt, account);
      case Some(p) =>
        var start := CarriedOver(rows[p], e.config, e.codeVersion);
        var q, r := Retired(rows[p]), NewRun(e.runId, e.config, e.codeVersion, e.startedNs, Some(p), start);
        if e.config.market == market { RestartKeepsLatch(rows, n, q, r, halt, account); }
        else { OtherStartKeepsLatch(rows, n, rows[p := q], r, halt, account); }
    }
  }

  lemma RewriteKeepsLatch(rows: seq<Run>, n: nat, k: nat, q: Run, market: string, halt: HaltReason, account: Account)
    requires Latest(rows, n) && rows[n].config.market == market && Latching(rows[n], halt, account)
    requires k < |rows| && q.start == rows[k].start && q.config == rows[k].config
    requires k == n ==> Latching(q, halt, account)
    ensures var after := rows[k := q];
      && MarketLatched(after, market, halt, account) && SameStarts(rows, after)
      && StartedLatched(after, |rows|, market, halt)
  {
    hide Latching;
    var after := rows[k := q];
    RewriteKeepsLatest(rows, k, q, n);
    assert Latest(after, n) && Latching(after[n], halt, account);
  }

  lemma EventKeepsLatch(rows: seq<Run>, e: Event, market: string, halt: HaltReason, account: Account)
    requires LedgerInv(rows) && Allowed(rows, e) && MarketLatched(rows, market, halt, account)
    requires Undisturbed(rows, e, market)
    ensures var after := Apply(rows, e);
      && MarketLatched(after, market, halt, account) && SameStarts(rows, after)
      && StartedLatched(after, |rows|, market, halt)
  {
    hide RunHolds, Linked, LatestIsRecoverable, Transacted, Latching;
    if e.Start? { StartKeepsLatch(rows, e, market, halt, account); }
    else {
      var n: nat :| Latest(rows, n) && rows[n].config.market == market && Latching(rows[n], halt, account);
      TransactedKeepsStart(rows[e.run], e.txn);
      if e.run == n { TransactKeepsLatch(rows[n], e.txn, halt, account); }
      RewriteKeepsLatch(rows, n, e.run, Transacted(rows[e.run], e.txn), market, halt, account);
    }
  }

  lemma TransactedKeepsStart(r: Run, txn: Txn)
    requires ValidTxn(txn)
    ensures var q := Transacted(r, txn); q.start == r.start && q.config == r.config
  {
  }

  /**
   A latched halt survives any number of stops, crashes and restarts of its market, and anything that happens to
   other markets: until a book breaks the feed or another halt is placed, every run started meanwhile starts halted
   for the same reason, and the account does not change.
   */
  lemma {:induction false} LatchSurvives(
      rows: seq<Run>, events: seq<Event>, from: nat, market: string, halt: HaltReason, account: Account)
    requires LedgerInv(rows) && AllAllowed(rows, events) && AllUndisturbed(rows, events, market)
    requires MarketLatched(rows, market, halt, account) && from <= |rows| && StartedLatched(rows, from, market, halt)
    ensures MarketLatched(Ledger(rows, events), market, halt, account)
    ensures StartedLatched(Ledger(rows, events), from, market, halt)
    decreases |events|
  {
    hide LedgerInv, MarketLatched, StartedLatched, Undisturbed, RunStarted, Transacted;
    if events != [] {
      EventKeeps(rows, events[0]);
      EventKeepsLatch(rows, events[0], market, halt, account);
      StartsStayLatched(rows, Apply(rows, events[0]), from, market, halt);
      LatchSurvives(Apply(rows, events[0]), events[1..], from, market, halt, account);
    }
  }

  // ---------------------------------------------------------------- the store

  class ShadowStore {
    var rows: seq<Run>

    constructor ()
      ensures rows == []
    {
      rows := [];
    }

    method StartRun(runId: string, config: Config, codeVersion: string, startedNs: int) returns (outcome: StartOutcome)
      modifies this
      ensures outcome == RunStarted(old(rows), runId, config, codeVersion, startedNs)
      ensures rows == if outcome.Started? then outcome.rows else old(rows)
    {
      var existing := Find(rows, runId);
      if existing.Some? {
        var row := rows[existing.value];
        return if row.config == config && row.codeVersion == codeVersion then AlreadyStarted else IdReused;
      }
      var predecessor := Predecessor(rows, config.market);
      var state := FirstRun(config);
      if predecessor.Some? {
        var p := predecessor.value;
        var before := rows[p];
        var carried := StateOf(before);
        rows := rows[p := before.(history := before.history.(state := carried.(pending := None)))];
        if before.status.Live? {
          var ended := StateOf(rows[p]).(lifecycle := Stopped, halt := ProcessRestart);
          rows := rows[p := rows[p].(status := Interrupted, history := rows[p].history.(state := ended))];
        }
        state := State(Warmup, NotHalted, carried.account, carried.lastEquity, carried.peakEquity, carried.maxDrawdown,
                       0, None, None, map[], [], map[]);
        if Latched(carried.halt) {
          state := state.(lifecycle := HaltedRecovery, halt := carried.halt);
        } else if before.config != config || before.codeVersion != codeVersion {
          state := state.(lifecycle := HaltedRecovery, halt := RestartFingerprintChanged);
        } else if carried.account.base > config.epsilon {
          state := state.(lifecycle := HaltedRecovery, halt := RestartWithOpenPosition);
        }
      }
      rows := rows + [NewRun(runId, config, codeVersion, startedNs, predecessor, state)];
      return Started(rows);
    }

    /** Stop run `i`: its order expires, its account is kept for the next run. */
    method StopRun(i: nat, reason: string)
      requires i < |rows|
      modifies this
      ensures rows == old(rows)[i := Transacted(old(rows)[i], ShadowTiming.StopRun(reason))]
    {
      var row := rows[i];
      var state := StateOf(row).(pending := None);
      var preserved := if Latched(state.halt) then state.halt else Graceful(reason);
      state := state.(lifecycle := Stopped, halt := preserved);
      rows := rows[i := row.(status := Finished, history := row.history.(state := state))];
    }
  }
}
