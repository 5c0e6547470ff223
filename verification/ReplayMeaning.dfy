/** What the decisions and trades of a replay are, in terms of the events they name. */
module ReplayMeaning {
  import Envelopes
  import opened ReplaySimulator

  // ---------------------------------------------------------------- the signal

  /** The share by which the displayed bid outweighs the ask. */
  predicate IsShare(b: real, e: Event) {
    -1.0 <= b <= 1.0 && b * (e.bidSize + e.askSize) == e.bidSize - e.askSize
  }

  predicate IsAverage(x: real, u: real, a: real, v: real, b: real) {
    x * (u + v) == u * a + v * b
  }

  /** The weighted average of book pressure and trade flow; it never needs the clipping to [-1, 1]. */
  ghost predicate IsSignal(c: Config, e: Event, x: real) {
    && -1.0 <= x <= 1.0
    && exists b :: IsShare(b, e) && IsAverage(x, c.bookWeight, b, c.flowWeight, e.tradeFlow)
  }

  lemma QuotientWithin(x: real, w: real, part: real)
    requires w > 0.0 && x * w == part && -w <= part <= w
    ensures -1.0 <= x <= 1.0
  {
    if x > 1.0 { Larger(x - 1.0, w); }
    if x < -1.0 { Larger(-1.0 - x, w); }
  }

  lemma Larger(x: real, w: real)
    requires x > 0.0 && w > 0.0
    ensures x * w > 0.0
  {
  }

  lemma OverTimes(a: real, b: real)
    requires b != 0.0
    ensures Over(a, b) * b == a
  {
  }

  lemma ImbalanceIsShare(e: Event)
    requires ValidEvent(e)
    ensures IsShare(Imbalance(e), e)
  {
    var w := e.bidSize + e.askSize;
    OverTimes(e.bidSize - e.askSize, w);
    QuotientWithin(Imbalance(e), w, e.bidSize - e.askSize);
  }

  lemma AverageWithin(x: real, u: real, a: real, v: real, b: real)
    requires u >= 0.0 && v >= 0.0 && u + v > 0.0 && -1.0 <= a <= 1.0 && -1.0 <= b <= 1.0 && IsAverage(x, u, a, v, b)
    ensures -1.0 <= x <= 1.0
  {
    var p := Scaled(u, a);
    var q := Scaled(v, b);
    QuotientWithin(x, u + v, p + q);
  }

  lemma Scaled(u: real, a: real) returns (p: real)
    requires u >= 0.0 && -1.0 <= a <= 1.0
    ensures p == u * a && -u <= p <= u
  {
    p := u * a;
  }

  lemma SignalMeaning(c: Config, e: Event)
    requires ValidConfig(c) && ValidEvent(e)
    ensures IsSignal(c, e, Signal(c, e))
  {
    hide IsShare;
    var u, v, b := c.bookWeight, c.flowWeight, Imbalance(e);
    var x := Over(Times(u, b) + Times(v, e.tradeFlow), u + v);
    ImbalanceIsShare(e);
    OverTimes(Times(u, b) + Times(v, e.tradeFlow), u + v);
    assert IsAverage(x, u, b, v, e.tradeFlow);
    assert -1.0 <= b <= 1.0 by { assert IsShare(b, e); ShareWithin(b, e); }
    AverageWithin(x, u, b, v, e.tradeFlow);
    assert Signal(c, e) == x;
  }

  lemma ShareWithin(b: real, e: Event)
    requires IsShare(b, e)
    ensures -1.0 <= b <= 1.0
  {
  }

  /** There is one such number. */
  lemma SignalUnique(c: Config, e: Event, x: real, y: real)
    requires ValidConfig(c) && ValidEvent(e) && IsSignal(c, e, x) && IsSignal(c, e, y)
    ensures x == y
  {
    hide IsShare, IsAverage;
    var a :| IsShare(a, e) && IsAverage(x, c.bookWeight, a, c.flowWeight, e.tradeFlow);
    var b :| IsShare(b, e) && IsAverage(y, c.bookWeight, b, c.flowWeight, e.tradeFlow);
    ShareUnique(e, a, b);
    AverageUnique(x, y, c.bookWeight, a, c.flowWeight, e.tradeFlow);
  }

  lemma SameFactor(x: real, y: real, w: real)
    requires w > 0.0 && x * w == y * w
    ensures x == y
  {
  }

  lemma ShareUnique(e: Event, a: real, b: real)
    requires ValidEvent(e) && IsShare(a, e) && IsShare(b, e)
    ensures a == b
  {
    SameFactor(a, b, e.bidSize + e.askSize);
  }

  lemma AverageUnique(x: real, y: real, u: real, a: real, v: real, b: real)
    requires u + v > 0.0 && IsAverage(x, u, a, v, b) && IsAverage(y, u, a, v, b)
    ensures x == y
  {
    SameFactor(x, y, u + v);
  }

  // ---------------------------------------------------------------- decisions and order sizes

  /**
   A flat strategy buys exactly when the signal reaches the entry threshold; one that holds sells exactly when it falls
   to the exit threshold or the position is old enough.
   */
  lemma DecidesExactly(c: Config, position: Envelopes.Option<Position>, i: nat, e: Event, x: real)
    requires ValidConfig(c) && ValidEvent(e) && IsSignal(c, e, x)
    ensures var d := Decide(c, position, i, e);
      && (position.None? ==> (d.Some? <==> x >= c.entry))
      && (position.Some? ==> (d.Some? <==> x <= c.exit || i - position.value.at >= c.maxHolding))
      && (d.Some? ==>
            && (d.value.buy <==> position.None?) && (d.value.buy <==> d.value.reason == EntrySignal)
            && (d.value.reason == SignalExit <==> position.Some? && x <= c.exit) && d.value.reason != EndOfReplay
            && d.value.at == i && d.value.due == i + c.latency && d.value.sequence == e.sequence && d.value.signal == x)
  {
    hide IsSignal, Signal;
    SignalMeaning(c, e);
    SignalUnique(c, e, x, Signal(c, e));
  }

  predicate Costs(notional: real, feeRate: real, cash: real) {
    notional * (1.0 + feeRate) == cash
  }

  /** The configured notional, or as much as the cash pays for with the fee when that is less. */
  lemma EntryExactly(c: Config, cash: real)
    requires ValidConfig(c) && cash > 0.0
    ensures var n := EntryNotional(c, cash);
      && 0.0 < n <= c.orderNotional && n + Times(n, c.feeRate) <= cash
      && (n < c.orderNotional ==> Costs(n, c.feeRate, cash))
  {
    hide Times;
    EntryAffordable(c, cash);
    OverTimes(cash, 1.0 + c.feeRate);
  }

  // ---------------------------------------------------------------- what a run records

  ghost predicate DecisionReads(c: Config, es: seq<Event>, d: Decision)
    requires ValidConfig(c)
  {
    && d.at < |es| && d.sequence == es[d.at].sequence && IsSignal(c, es[d.at], d.signal)
    && (d.buy <==> d.reason == EntrySignal)
    && match d.reason
    case EntrySignal => d.signal >= c.entry && d.due == d.at + c.latency
    case SignalExit => d.signal <= c.exit && d.due == d.at + c.latency
    case MaxHolding => d.signal > c.exit && d.due == d.at + c.latency
    case EndOfReplay => d.at == d.due == |es| - 1
  }

  predicate Priced(quantity: real, price: real, notional: real) {
    quantity * price == notional
  }

  predicate Charged(fees: real, rate: real, notional: real) {
    fees == notional * rate
  }

  /** Bought at the ask of event `at`, on a decision taken `latency` events before. */
  predicate Bought(c: Config, es: seq<Event>, at: nat, decided: int, sequence: int, quantity: real, notional: real) {
    && c.latency <= at < |es| && sequence == es[at].sequence && decided == es[at - c.latency].sequence
    && Priced(quantity, es[at].ask, notional) && 0.0 < notional <= c.orderNotional
  }

  predicate PositionReads(c: Config, es: seq<Event>, p: Position) {
    Bought(c, es, p.at, p.decided, p.sequence, p.quantity, p.notional) && Charged(p.fee, c.feeRate, p.notional)
  }

  /** A trade buys at one event's ask and sells at a later one's bid; both fills pay the fee rate. */
  ghost predicate TradeReads(c: Config, es: seq<Event>, t: Trade) {
    && Bought(c, es, t.entryAt, t.entryDecided, t.entrySequence, t.quantity, t.entryNotional)
    && t.exitAt < |es| && t.exitSequence == es[t.exitAt].sequence
    && Priced(t.quantity, es[t.exitAt].bid, t.exitNotional)
    && (if t.reason == EndOfReplay then t.exitDecided == t.exitSequence && t.exitAt == |es| - 1
        else c.latency <= t.exitAt && t.exitDecided == es[t.exitAt - c.latency].sequence)
    && (exists f, g ::
          Charged(f, c.feeRate, t.entryNotional) && Charged(g, c.feeRate, t.exitNotional) && t.fees == f + g)
    && t.netPnl == t.exitNotional - t.entryNotional - t.fees
  }

  ghost predicate Recorded(c: Config, es: seq<Event>, s: State)
    requires ValidConfig(c)
  {
    && (forall k :: 0 <= k < |s.decisions| ==> DecisionReads(c, es, s.decisions[k]))
    && (forall k :: 0 <= k < |s.trades| ==> TradeReads(c, es, s.trades[k]))
    && (s.position.Some? ==> PositionReads(c, es, s.position.value))
    && (s.pending.Some? ==> DecisionReads(c, es, s.pending.value) && s.pending.value.reason != EndOfReplay)
  }

  lemma BuyReads(c: Config, es: seq<Event>, s: State, i: nat, d: Decision)
    requires ValidConfig(c) && i < |es| && ValidEvent(es[i]) && s.cash > 0.0
    requires DecisionReads(c, es, d) && d.due == i && d.reason != EndOfReplay
    ensures var t := FillBuy(c, s, i, es[i], d); t.position.Some? && PositionReads(c, es, t.position.value)
  {
    hide IsSignal;
    EntryExactly(c, s.cash);
    OverTimes(EntryNotional(c, s.cash), es[i].ask);
  }

  lemma SellReads(c: Config, es: seq<Event>, p: Position, i: nat, d: Decision)
    requires ValidConfig(c) && i < |es| && PositionReads(c, es, p) && DecisionReads(c, es, d) && d.due == i && !d.buy
    ensures TradeReads(c, es, Closed(c, p, i, es[i], d))
  {
    hide IsSignal;
    var t := Closed(c, p, i, es[i], d);
    assert Charged(p.fee, c.feeRate, t.entryNotional);
    assert Charged(Times(t.exitNotional, c.feeRate), c.feeRate, t.exitNotional);
  }

  lemma FillRecords(c: Config, es: seq<Event>, s: State, i: nat, d: Decision)
    requires ValidConfig(c) && i < |es| && ValidEvent(es[i]) && Recorded(c, es, s) && s.pending.None?
    requires DecisionReads(c, es, d) && d.due == i
    requires if d.buy then s.cash > 0.0 else s.position.Some?
    ensures Recorded(c, es, FillOf(c, s, i, es[i], d))
  {
    hide DecisionReads, TradeReads, PositionReads, EntryNotional, Closed, Times, Over;
    if d.buy {
      BuysOnSignal(c, es, d);
      BuyReads(c, es, s, i, d);
    } else {
      SellReads(c, es, s.position.value, i, d);
    }
  }

  lemma BuysOnSignal(c: Config, es: seq<Event>, d: Decision)
    requires ValidConfig(c) && DecisionReads(c, es, d) && d.buy
    ensures d.reason != EndOfReplay
  {
  }

  lemma DecidedReads(c: Config, es: seq<Event>, position: Envelopes.Option<Position>, i: nat)
    requires ValidConfig(c) && i < |es| && ValidEvent(es[i]) && Decide(c, position, i, es[i]).Some?
    ensures var d := Decide(c, position, i, es[i]).value;
      && DecisionReads(c, es, d) && d.reason != EndOfReplay && d.due == i + c.latency && (d.buy <==> position.None?)
  {
    hide IsSignal;
    SignalMeaning(c, es[i]);
    DecidesExactly(c, position, i, es[i], Signal(c, es[i]));
  }

  lemma StepRecords(c: Config, es: seq<Event>, s: State, i: nat)
    requires ValidConfig(c) && ValidEvents(es) && i < |es| && Recorded(c, es, s) && Solvent(c, s) && Timed(c, s, i - 1)
    ensures Recorded(c, es, Step(c, s, i, es[i]))
  {
    hide DecisionReads, TradeReads, PositionReads, FillOf, Decide, Solvent, InTime;
    if FillsAt(s, i) {
      var d, t := s.pending.value, s.(pending := Envelopes.None);
      FlatHasCash(c, s);
      FillRecords(c, es, t, i, d);
      FillIgnoresPending(c, s, i, es[i], d);
    } else if s.pending.None? {
      var decided := Decide(c, s.position, i, es[i]);
      if decided.Some? {
        DecidedReads(c, es, s.position, i);
        var t := s.(decisions := s.decisions + [decided.value]);
        if c.latency == 0 {
          FlatHasCash(c, s);
          FillRecords(c, es, t, i, decided.value);
        }
      }
    }
  }

  lemma FlatHasCash(c: Config, s: State)
    requires Solvent(c, s)
    ensures s.position.None? ==> s.cash > 0.0
  {
  }

  lemma FillIgnoresPending(c: Config, s: State, i: nat, e: Event, d: Decision)
    requires ValidConfig(c) && ValidEvent(e)
    ensures FillOf(c, s, i, e, d).(pending := Envelopes.None) == FillOf(c, s.(pending := Envelopes.None), i, e, d)
  {
  }

  lemma {:induction false} RunRecords(c: Config, es: seq<Event>, n: nat)
    requires ValidConfig(c) && ValidEvents(es) && n <= |es|
    ensures Recorded(c, es, Run(c, es, n))
  {
    hide Step, Recorded, Solvent, Timed;
    if n == 0 {
      NothingRecorded(c, es);
    } else {
      RunRecords(c, es, n - 1);
      RunKeeps(c, es, n - 1);
      StepRecords(c, es, Run(c, es, n - 1), n - 1);
    }
  }

  lemma NothingRecorded(c: Config, es: seq<Event>)
    requires ValidConfig(c)
    ensures Recorded(c, es, Initial(c))
  {
  }

  /** Every decision of a replay has the signal it acts on, and every trade the prices of the events it names. */
  lemma ReplayRecords(c: Config, es: seq<Event>)
    requires ValidConfig(c) && ValidEvents(es)
    ensures Recorded(c, es, Simulated(c, es))
  {
    hide Run, FillOf, DecisionReads, TradeReads, PositionReads, Closed, Signal, Times;
    RunRecords(c, es, |es|);
    var s, i, e := Run(c, es, |es|), |es| - 1, es[|es| - 1];
    var t := if s.pending.Some? then s.(pending := Envelopes.None, cancelled := s.cancelled + 1) else s;
    if t.position.Some? {
      var forced := Decision(false, EndOfReplay, i, e.sequence, i, Signal(c, e));
      SignalMeaning(c, e);
      ForcedReads(c, es, forced);
      FillRecords(c, es, t.(decisions := t.decisions + [forced]), i, forced);
      SellIsFill(c, t.(decisions := t.decisions + [forced]), i, e, forced);
    }
  }

  lemma ForcedReads(c: Config, es: seq<Event>, d: Decision)
    requires ValidConfig(c) && es != [] && d.at == d.due == |es| - 1 && d.sequence == es[d.at].sequence
    requires !d.buy && d.reason == EndOfReplay && IsSignal(c, es[d.at], d.signal)
    ensures DecisionReads(c, es, d)
  {
  }

  lemma SellIsFill(c: Config, s: State, i: nat, e: Event, d: Decision)
    requires ValidConfig(c) && ValidEvent(e) && !d.buy
    ensures FillSell(c, s, i, e, d) == FillOf(c, s, i, e, d)
  {
  }
}
