/** The order-book replay simulator: a long-only strategy over events, its cash, and what fees can and cannot change. */
module ReplaySimulator {
  import opened Envelopes

  datatype Event = Event(sequence: int, bid: real, ask: real, bidSize: real, askSize: real, tradeFlow: real)

  predicate ValidEvent(e: Event) {
    e.bid > 0.0 && e.ask > e.bid && e.bidSize > 0.0 && e.askSize > 0.0 && -1.0 <= e.tradeFlow <= 1.0
  }

  predicate ValidEvents(es: seq<Event>) {
    |es| >= 2 && (forall i :: 0 <= i < |es| ==> ValidEvent(es[i]))
    && forall i, j :: 0 <= i < j < |es| ==> es[i].sequence < es[j].sequence
  }

  datatype Config = Config(
    initialCash: real, orderNotional: real, feeRate: real, latency: nat,
    entry: real, exit: real, maxHolding: nat, bookWeight: real, flowWeight: real)

  predicate ValidConfig(c: Config) {
    && c.initialCash > 0.0 && c.orderNotional > 0.0 && 0.0 <= c.feeRate < 1.0 && c.maxHolding >= 1
    && c.exit < c.entry && c.bookWeight >= 0.0 && c.flowWeight >= 0.0 && c.bookWeight + c.flowWeight > 0.0
  }

  datatype Reason = EntrySignal | SignalExit | MaxHolding | EndOfReplay

  datatype Decision = Decision(buy: bool, reason: Reason, at: nat, sequence: int, due: nat, signal: real)

  datatype Position = Position(quantity: real, notional: real, fee: real, at: nat, decided: int, sequence: int)

  datatype Trade = Trade(
    entryDecided: int, entrySequence: int, exitDecided: int, exitSequence: int,
    quantity: real, entryNotional: real, exitNotional: real, fees: real, netPnl: real,
    entryAt: nat, exitAt: nat, reason: Reason)

  datatype State = State(
    cash: real, position: Option<Position>, pending: Option<Decision>,
    decisions: seq<Decision>, trades: seq<Trade>, fees: real, cancelled: nat)

  // ---------------------------------------------------------------- signal and fills

  function Clip(x: real): real { if x < -1.0 then -1.0 else if x > 1.0 then 1.0 else x }

  function Times(a: real, b: real): real { a * b }

  function Over(a: real, b: real): real
    requires b != 0.0
  {
    a / b
  }

  function Imbalance(e: Event): real
    requires ValidEvent(e)
  {
    Over(e.bidSize - e.askSize, e.bidSize + e.askSize)
  }

  /** Depends on the current event and the weights only. */
  function Signal(c: Config, e: Event): real
    requires ValidConfig(c) && ValidEvent(e)
  {
    Clip(Over(Times(c.bookWeight, Imbalance(e)) + Times(c.flowWeight, e.tradeFlow), c.bookWeight + c.flowWeight))
  }

  function EntryNotional(c: Config, cash: real): real
    requires ValidConfig(c)
  {
    var available := Over(cash, 1.0 + c.feeRate);
    if c.orderNotional <= available then c.orderNotional else available
  }

  function FillBuy(c: Config, s: State, i: nat, e: Event, d: Decision): State
    requires ValidConfig(c) && ValidEvent(e)
  {
    var notional := EntryNotional(c, s.cash);
    if notional <= 0.0 then s
    else
      var fee := Times(notional, c.feeRate);
      s.(cash := s.cash - (notional + fee), fees := s.fees + fee,
         position := Some(Position(Over(notional, e.ask), notional, fee, i, d.sequence, e.sequence)))
  }

  function Closed(c: Config, p: Position, i: nat, e: Event, d: Decision): Trade {
    var exitNotional := Times(p.quantity, e.bid);
    var fees := p.fee + Times(exitNotional, c.feeRate);
    Trade(p.decided, p.sequence, d.sequence, e.sequence, p.quantity, p.notional, exitNotional, fees,
          exitNotional - p.notional - fees, p.at, i, d.reason)
  }

  function FillSell(c: Config, s: State, i: nat, e: Event, d: Decision): State {
    if s.position.None? then s
    else
      var t := Closed(c, s.position.value, i, e, d);
      var fee := Times(t.exitNotional, c.feeRate);
      s.(cash := s.cash + (t.exitNotional - fee), fees := s.fees + fee, trades := s.trades + [t], position := None)
  }

  function FillOf(c: Config, s: State, i: nat, e: Event, d: Decision): State
    requires ValidConfig(c) && ValidEvent(e)
  {
    if d.buy then FillBuy(c, s, i, e, d) else FillSell(c, s, i, e, d)
  }

  // ---------------------------------------------------------------- one event

  function Decide(c: Config, position: Option<Position>, i: nat, e: Event): Option<Decision>
    requires ValidConfig(c) && ValidEvent(e)
  {
    var signal := Signal(c, e);
    match position
    case None => if signal >= c.entry then Some(Decision(true, EntrySignal, i, e.sequence, i + c.latency, signal))
      else None
    case Some(p) =>
      if signal <= c.exit then Some(Decision(false, SignalExit, i, e.sequence, i + c.latency, signal))
      else if i - p.at >= c.maxHolding then Some(Decision(false, MaxHolding, i, e.sequence, i + c.latency, signal))
      else None
  }

  function AfterFill(c: Config, s: State, i: nat, e: Event): State
    requires ValidConfig(c) && ValidEvent(e)
  {
    if s.pending.Some? && s.pending.value.due <= i then FillOf(c, s, i, e, s.pending.value).(pending := None) else s
  }

  predicate FillsAt(s: State, i: nat) { s.pending.Some? && s.pending.value.due <= i }

  function AfterDecision(c: Config, s: State, i: nat, e: Event): State
    requires ValidConfig(c) && ValidEvent(e)
  {
    match Decide(c, s.position, i, e)
    case None => s
    case Some(d) =>
      var t := s.(decisions := s.decisions + [d]);
      if c.latency == 0 then FillOf(c, t, i, e, d) else t.(pending := Some(d))
  }

  function Step(c: Config, s: State, i: nat, e: Event): State
    requires ValidConfig(c) && ValidEvent(e)
  {
    var t := AfterFill(c, s, i, e);
    if FillsAt(s, i) || t.pending.Some? then t else AfterDecision(c, t, i, e)
  }

  function Initial(c: Config): State { State(c.initialCash, None, None, [], [], 0.0, 0) }

  function Run(c: Config, es: seq<Event>, n: nat): State
    requires ValidConfig(c) && ValidEvents(es) && n <= |es|
  {
    if n == 0 then Initial(c) else Step(c, Run(c, es, n - 1), n - 1, es[n - 1])
  }

  /** A pending order is cancelled; an open position is sold at the last event's bid. */
  function Finish(c: Config, s: State, i: nat, e: Event): State
    requires ValidConfig(c) && ValidEvent(e)
  {
    var t := if s.pending.Some? then s.(pending := None, cancelled := s.cancelled + 1) else s;
    if t.position.None? then t
    else
      var forced := Decision(false, EndOfReplay, i, e.sequence, i, Signal(c, e));
      FillSell(c, t.(decisions := t.decisions + [forced]), i, e, forced)
  }

  function Simulated(c: Config, es: seq<Event>): State
    requires ValidConfig(c) && ValidEvents(es)
  {
    Finish(c, Run(c, es, |es|), |es| - 1, es[|es| - 1])
  }

  /** The event loop, keeping cash, position and pending order as variables. */
  method SimulateReplay(events: seq<Event>, c: Config) returns (result: State)
    requires ValidConfig(c) && ValidEvents(events)
    ensures result == Simulated(c, events)
  {
    hide Signal, EntryNotional, Closed, FillBuy, FillSell;
    var s := Initial(c);
    for i := 0 to |events|
      invariant s == Run(c, events, i)
    {
      var e := events[i];
      var filledThisEvent := false;
      if s.pending.Some? && s.pending.value.due <= i {
        var due := s.pending.value;
        if due.buy { s := FillBuy(c, s, i, e, due); } else { s := FillSell(c, s, i, e, due); }
        s := s.(pending := None);
        filledThisEvent := true;
      }
      if !filledThisEvent && s.pending.None? {
        var decision := Decide(c, s.position, i, e);
        if decision.Some? {
          s := s.(decisions := s.decisions + [decision.value]);
          if c.latency == 0 {
            if decision.value.buy { s := FillBuy(c, s, i, e, decision.value); }
            else { s := FillSell(c, s, i, e, decision.value); }
          } else {
            s := s.(pending := decision);
          }
        }
      }
    }
    var last := events[|events| - 1];
    if s.pending.Some? {
      s := s.(cancelled := s.cancelled + 1);
      s := s.(pending := None);
    }
    if s.position.Some? {
      var forced := Decision(false, EndOfReplay, |events| - 1, last.sequence, |events| - 1, Signal(c, last));
      s := s.(decisions := s.decisions + [forced]);
      s := FillSell(c, s, |events| - 1, last, forced);
    }
    result := s;
  }

  // ---------------------------------------------------------------- cash and fees

  function NetPnl(trades: seq<Trade>): real
    decreases |trades|
  {
    if trades == [] then 0.0 else NetPnl(trades[..|trades| - 1]) + trades[|trades| - 1].netPnl
  }

  function TradeFees(trades: seq<Trade>): real
    decreases |trades|
  {
    if trades == [] then 0.0 else TradeFees(trades[..|trades| - 1]) + trades[|trades| - 1].fees
  }

  lemma OneMoreTrade(trades: seq<Trade>, t: Trade)
    ensures NetPnl(trades + [t]) == NetPnl(trades) + t.netPnl && TradeFees(trades + [t]) == TradeFees(trades) + t.fees
  {
    assert (trades + [t])[..|trades|] == trades;
  }

  /** What an open position has tied up. */
  function Invested(s: State): real {
    if s.position.Some? then s.position.value.notional + s.position.value.fee else 0.0
  }

  /** Cash is accounted for, fees are the trades' fees, and a flat account has money to buy with. */
  predicate Solvent(c: Config, s: State) {
    && s.cash == c.initialCash + NetPnl(s.trades) - Invested(s)
    && s.fees == TradeFees(s.trades) + (if s.position.Some? then s.position.value.fee else 0.0)
    && s.cash >= 0.0 && (s.position.None? ==> s.cash > 0.0)
    && (s.position.Some? ==> s.position.value.quantity > 0.0)
  }

  lemma OverPositive(a: real, b: real)
    requires a > 0.0 && b > 0.0
    ensures Over(a, b) > 0.0 && Times(Over(a, b), b) == a
  {
  }

  lemma TimesOrdered(a: real, b: real, k: real)
    requires a <= b && k >= 0.0
    ensures Times(a, k) <= Times(b, k)
  {
  }

  lemma TimesPositive(a: real, b: real)
    requires a > 0.0 && b > 0.0
    ensures Times(a, b) > 0.0
  {
  }

  lemma TimesSplits(a: real, f: real)
    ensures Times(a, 1.0 + f) == a + Times(a, f) && Times(a, 1.0 - f) == a - Times(a, f)
  {
  }

  /** With money in hand a buy always goes through, and its cost with the fee is covered. */
  lemma EntryAffordable(c: Config, cash: real)
    requires ValidConfig(c) && cash > 0.0
    ensures EntryNotional(c, cash) > 0.0
    ensures EntryNotional(c, cash) + Times(EntryNotional(c, cash), c.feeRate) <= cash
  {
    var n := EntryNotional(c, cash);
    OverPositive(cash, 1.0 + c.feeRate);
    TimesOrdered(n, Over(cash, 1.0 + c.feeRate), 1.0 + c.feeRate);
    TimesSplits(n, c.feeRate);
  }

  lemma BuyKeeps(c: Config, s: State, i: nat, e: Event, d: Decision)
    requires ValidConfig(c) && ValidEvent(e) && Solvent(c, s) && s.position.None?
    ensures FillBuy(c, s, i, e, d).position.Some? && Solvent(c, FillBuy(c, s, i, e, d))
  {
    hide EntryNotional, NetPnl, TradeFees, Times;
    EntryAffordable(c, s.cash);
    OverPositive(EntryNotional(c, s.cash), e.ask);
  }

  lemma SellKeeps(c: Config, s: State, i: nat, e: Event, d: Decision)
    requires ValidConfig(c) && ValidEvent(e) && Solvent(c, s)
    ensures Solvent(c, FillSell(c, s, i, e, d))
  {
    hide NetPnl, TradeFees, Times;
    if s.position.Some? {
      var t := Closed(c, s.position.value, i, e, d);
      OneMoreTrade(s.trades, t);
      TimesPositive(s.position.value.quantity, e.bid);
      TimesPositive(t.exitNotional, 1.0 - c.feeRate);
      TimesSplits(t.exitNotional, c.feeRate);
    }
  }

  // ---------------------------------------------------------------- timing

  /** After event `i`: what is pending is still to come, and an open position is on its way out in time. */
  predicate Timed(c: Config, s: State, i: int) {
    && (s.pending.Some? ==>
          var d := s.pending.value;
          d.due == d.at + c.latency && d.at <= i < d.due && (d.buy <==> s.position.None?)
          && (s.position.Some? ==> d.due <= s.position.value.at + c.maxHolding + c.latency))
    && (s.position.Some? ==> s.position.value.at <= i && (s.pending.None? ==> i - s.position.value.at < c.maxHolding))
    && forall k :: 0 <= k < |s.trades| ==> InTime(c, s.trades[k])
  }

  predicate InTime(c: Config, t: Trade) { t.entryAt <= t.exitAt <= t.entryAt + c.maxHolding + c.latency }

  lemma FillKeeps(c: Config, s: State, i: nat, e: Event)
    requires ValidConfig(c) && ValidEvent(e) && Solvent(c, s) && Timed(c, s, i - 1)
    ensures var t := AfterFill(c, s, i, e);
      && Solvent(c, t) && (FillsAt(s, i) ==> Timed(c, t, i) && t.pending.None?) && (!FillsAt(s, i) ==> t == s)
  {
    hide Closed, EntryNotional, Solvent;
    if FillsAt(s, i) {
      var d := s.pending.value;
      SolventIgnores(c, FillOf(c, s, i, e, d));
      if d.buy { BuyKeeps(c, s, i, e, d); } else { SellKeeps(c, s, i, e, d); }
      if !d.buy { ClosedAt(c, s.position.value, i, e, d); }
    }
  }

  lemma ClosedAt(c: Config, p: Position, i: nat, e: Event, d: Decision)
    ensures Closed(c, p, i, e, d).entryAt == p.at && Closed(c, p, i, e, d).exitAt == i
  {
  }

  lemma SolventIgnores(c: Config, s: State)
    ensures Solvent(c, s) ==> Solvent(c, s.(pending := None))
  {
  }

  lemma SolventIgnoresDecisions(c: Config, s: State, d: Decision)
    ensures Solvent(c, s) ==>
      && Solvent(c, s.(decisions := s.decisions + [d]))
      && Solvent(c, s.(decisions := s.decisions + [d], pending := Some(d)))
  {
  }

  lemma DecisionKeeps(c: Config, s: State, i: nat, e: Event)
    requires ValidConfig(c) && ValidEvent(e) && Solvent(c, s) && Timed(c, s, i - 1) && s.pending.None?
    ensures Solvent(c, AfterDecision(c, s, i, e)) && Timed(c, AfterDecision(c, s, i, e), i)
  {
    hide Closed, EntryNotional, Solvent, Signal;
    var decided := Decide(c, s.position, i, e);
    if decided.Some? {
      var d := decided.value;
      SolventIgnoresDecisions(c, s, d);
      var t := s.(decisions := s.decisions + [d]);
      if c.latency == 0 {
        if d.buy { BuyKeeps(c, t, i, e, d); } else { SellKeeps(c, t, i, e, d); ClosedAt(c, s.position.value, i, e, d); }
      }
    }
  }

  lemma StepKeeps(c: Config, s: State, i: nat, e: Event)
    requires ValidConfig(c) && ValidEvent(e) && Solvent(c, s) && Timed(c, s, i - 1)
    ensures Solvent(c, Step(c, s, i, e)) && Timed(c, Step(c, s, i, e), i)
  {
    hide Solvent, AfterDecision;
    FillKeeps(c, s, i, e);
    var t := AfterFill(c, s, i, e);
    if !FillsAt(s, i) && t.pending.None? { DecisionKeeps(c, t, i, e); }
  }

  lemma {:induction false} RunKeeps(c: Config, es: seq<Event>, n: nat)
    requires ValidConfig(c) && ValidEvents(es) && n <= |es|
    ensures Solvent(c, Run(c, es, n)) && Timed(c, Run(c, es, n), n - 1)
  {
    if n > 0 {
      RunKeeps(c, es, n - 1);
      StepKeeps(c, Run(c, es, n - 1), n - 1, es[n - 1]);
    }
  }

  /**
   A whole replay: it ends flat, the cash made is the trades' net profit, the fees paid are the trades' fees, and no
   position is held longer than `maxHolding` plus the latency.
   */
  lemma ReplayAccounts(c: Config, es: seq<Event>)
    requires ValidConfig(c) && ValidEvents(es)
    ensures var r := Simulated(c, es);
      && r.position.None? && r.pending.None? && r.cash > 0.0
      && r.cash - c.initialCash == NetPnl(r.trades) && r.fees == TradeFees(r.trades)
      && forall k :: 0 <= k < |r.trades| ==> InTime(c, r.trades[k])
  {
    hide Closed, Signal, Run;
    var s, i, e := Run(c, es, |es|), |es| - 1, es[|es| - 1];
    RunKeeps(c, es, |es|);
    var t := if s.pending.Some? then s.(pending := None, cancelled := s.cancelled + 1) else s;
    if t.position.Some? {
      var forced := Decision(false, EndOfReplay, i, e.sequence, i, Signal(c, e));
      SellKeeps(c, t.(decisions := t.decisions + [forced]), i, e, forced);
      ClosedAt(c, t.position.value, i, e, forced);
    }
  }

  // ---------------------------------------------------------------- fees never influence decisions

  /** The same trade, whatever it earned. */
  predicate SameTrade(a: Trade, b: Trade) {
    && a.entryDecided == b.entryDecided && a.entrySequence == b.entrySequence && a.exitDecided == b.exitDecided
    && a.exitSequence == b.exitSequence && a.entryAt == b.entryAt && a.exitAt == b.exitAt && a.reason == b.reason
  }

  predicate SamePosition(a: Option<Position>, b: Option<Position>) {
    && (a.Some? <==> b.Some?)
    && (a.Some? ==>
      a.value.at == b.value.at && a.value.decided == b.value.decided && a.value.sequence == b.value.sequence)
  }

  predicate SameTrades(a: seq<Trade>, b: seq<Trade>) {
    |a| == |b| && forall k :: 0 <= k < |a| ==> SameTrade(a[k], b[k])
  }

  /** Everything but the money is equal. */
  predicate Alike(s: State, t: State) {
    && SamePosition(s.position, t.position) && s.pending == t.pending && s.decisions == t.decisions
    && SameTrades(s.trades, t.trades) && s.cancelled == t.cancelled
  }

  predicate SameButFee(c: Config, d: Config) { d == c.(feeRate := d.feeRate) }

  lemma FillAlike(c: Config, s: State, d: Config, t: State, i: nat, e: Event, order: Decision)
    requires ValidConfig(c) && ValidConfig(d) && ValidEvent(e) && SameButFee(c, d) && Alike(s, t)
    requires Solvent(c, s) && Solvent(d, t) && (order.buy ==> s.position.None?)
    ensures Alike(FillOf(c, s, i, e, order), FillOf(d, t, i, e, order))
  {
    hide NetPnl, TradeFees, EntryNotional, Times, Over;
    if order.buy {
      EntryAffordable(c, s.cash);
      EntryAffordable(d, t.cash);
    }
  }

  lemma DecideAlike(c: Config, d: Config, p: Option<Position>, q: Option<Position>, i: nat, e: Event)
    requires ValidConfig(c) && ValidConfig(d) && ValidEvent(e) && SameButFee(c, d) && SamePosition(p, q)
    ensures Decide(c, p, i, e) == Decide(d, q, i, e)
    ensures Decide(c, p, i, e).Some? ==> (Decide(c, p, i, e).value.buy <==> p.None?)
  {
    assert Signal(c, e) == Signal(d, e);
  }

  lemma StepAlike(c: Config, s: State, d: Config, t: State, i: nat, e: Event)
    requires ValidConfig(c) && ValidConfig(d) && ValidEvent(e) && SameButFee(c, d) && Alike(s, t)
    requires Solvent(c, s) && Solvent(d, t) && Timed(c, s, i - 1)
    ensures Alike(Step(c, s, i, e), Step(d, t, i, e))
  {
    hide Solvent, Decide, FillOf, SameTrades;
    if FillsAt(s, i) {
      FillAlike(c, s, d, t, i, e, s.pending.value);
    } else if s.pending.None? {
      DecideAlike(c, d, s.position, t.position, i, e);
      var decided := Decide(c, s.position, i, e);
      if decided.Some? && c.latency == 0 {
        var order := decided.value;
        SolventIgnoresDecisions(c, s, order);
        SolventIgnoresDecisions(d, t, order);
        FillAlike(c, s.(decisions := s.decisions + [order]), d, t.(decisions := t.decisions + [order]), i, e, order);
      }
    }
  }

  lemma {:induction false} RunAlike(c: Config, d: Config, es: seq<Event>, n: nat)
    requires ValidConfig(c) && ValidConfig(d) && SameButFee(c, d) && ValidEvents(es) && n <= |es|
    ensures Alike(Run(c, es, n), Run(d, es, n))
  {
    if n > 0 {
      RunAlike(c, d, es, n - 1);
      RunKeeps(c, es, n - 1);
      RunKeeps(d, es, n - 1);
      StepAlike(c, Run(c, es, n - 1), d, Run(d, es, n - 1), n - 1, es[n - 1]);
    }
  }

  /** Any two fee rates in [0, 1) give the same decisions, and fills of the same events. */
  lemma FeesNeverDecide(c: Config, d: Config, es: seq<Event>)
    requires ValidConfig(c) && ValidConfig(d) && SameButFee(c, d) && ValidEvents(es)
    ensures var r, q := Simulated(c, es), Simulated(d, es);
      r.decisions == q.decisions && SameTrades(r.trades, q.trades) && r.cancelled == q.cancelled
  {
    hide Solvent, Run;
    RunAlike(c, d, es, |es|);
    RunKeeps(c, es, |es|);
    RunKeeps(d, es, |es|);
    var s, t, i, e := Run(c, es, |es|), Run(d, es, |es|), |es| - 1, es[|es| - 1];
    assert Signal(c, e) == Signal(d, e);
  }
}
