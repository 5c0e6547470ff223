/** What one bar, and one observed ticker, does to an account: why it bought, why it sold and at what price. */
module BarMeaning {
  import opened Envelopes
  import opened Brokerage
  import opened BarEngine

  // ---------------------------------------------------------------- stops

  predicate Below(x: real, price: real, share: real) {
    x == price * (1.0 - share)
  }

  /** The higher of the fixed stop below the entry price and the trailing stop below the highest price seen. */
  ghost predicate IsStopPrice(c: EngineConfig, entry: real, stop: real, peak: real, x: real, trails: bool) {
    exists fixedStop, trailing :: Below(fixedStop, entry, stop) && Below(trailing, peak, c.risk.trailing)
      && x == (if trails then trailing else fixedStop) && x >= fixedStop && x >= trailing
      && (trails <==> trailing >= fixedStop)
  }

  lemma StopPriceIs(c: EngineConfig, s: Portfolio)
    ensures IsStopPrice(c, s.entryPrice, s.stop, s.peakPrice, StopPrice(c, s), TrailingStopPrice(c, s) >= FixedStop(s))
  {
    assert Below(FixedStop(s), s.entryPrice, s.stop) && Below(TrailingStopPrice(c, s), s.peakPrice, c.risk.trailing);
  }

  predicate StoppedOut(reason: ExitReason) { reason == TrailingStop || reason == StopLoss }

  /** The trade `t` appends to `s`, if any. */
  function NewTrade(s: Portfolio, t: Portfolio): Option<Trade> {
    if |t.trades| == |s.trades| + 1 then Some(t.trades[|s.trades|]) else None
  }

  predicate AtMostOneTrade(s: Portfolio, t: Portfolio) {
    s.trades <= t.trades && |t.trades| <= |s.trades| + 1
  }

  // ---------------------------------------------------------------- sizing

  predicate Share(x: real, whole: real, part: real) {
    x == whole * part
  }

  /** With this notional, a loss of `fraction` of it costs `budget`. */
  predicate Spends(notional: real, fraction: real, budget: real) {
    notional * fraction == budget
  }

  /** What bounds an order: its stop, and its notional by risk, by allocation and by cash. */
  datatype Caps = Caps(distance: real, stop: real, risk: real, byRisk: real, allocation: real, byCash: real)

  predicate AreCaps(r: RiskConfig, equity: real, cash: real, atr: real, k: Caps) {
    && Share(k.distance, r.atrMultiple, atr) && k.stop == (if k.distance >= r.minStop then k.distance else r.minStop)
    && Share(k.risk, equity, r.riskPerTrade) && Spends(k.byRisk, k.stop + 2.0 * (r.feeRate + r.slippage), k.risk)
    && Share(k.allocation, equity, r.maxFraction) && Spends(k.byCash, 1.0 + r.feeRate, cash)
  }

  /** An order risks at most its share of the equity, is at most its share of it, and the cash covers it. */
  ghost predicate IsSize(r: RiskConfig, equity: real, cash: real, atr: real, notional: real, stop: real) {
    exists k ::
      && AreCaps(r, equity, cash, atr, k) && k.distance <= r.maxStop && stop == k.stop
      && notional <= k.byRisk && notional <= k.allocation && notional <= k.byCash
      && (notional == k.byRisk || notional == k.allocation || notional == k.byCash)
  }

  lemma OverSpends(a: real, b: real)
    requires b > 0.0
    ensures Spends(Over(a, b), b, a)
  {
  }

  lemma TimesShares(a: real, b: real)
    ensures Share(Times(a, b), a, b)
  {
  }

  /** An order is accepted exactly when its size is at least the smallest one allowed. */
  lemma SizingExactly(r: RiskConfig, equity: real, cash: real, rawPrice: real, atr: Option<real>)
    requires ValidRisk(r)
    ensures var d := SizeEntry(r, equity, cash, rawPrice, atr);
      && (d.Accepted? ==>
            && equity > 0.0 && cash > 0.0 && rawPrice > 0.0 && atr.Some? && atr.value > 0.0
            && IsSize(r, equity, cash, atr.value, d.notional, d.stop) && d.notional >= r.minOrder)
      && (equity > 0.0 && cash > 0.0 && rawPrice > 0.0 && atr.Some? && atr.value > 0.0 && d.Refused? ==>
            forall notional, stop :: IsSize(r, equity, cash, atr.value, notional, stop) ==> notional < r.minOrder)
  {
    hide Times, Over, AreCaps;
    if equity > 0.0 && cash > 0.0 && rawPrice > 0.0 && atr.Some? && atr.value > 0.0 {
      var k := CapsExist(r, equity, cash, atr.value);
      forall notional, stop | IsSize(r, equity, cash, atr.value, notional, stop)
        ensures k.distance <= r.maxStop && notional == Min(Min(k.byRisk, k.allocation), k.byCash)
      {
        var other :| AreCaps(r, equity, cash, atr.value, other) && other.distance <= r.maxStop && stop == other.stop
          && notional <= other.byRisk && notional <= other.allocation && notional <= other.byCash
          && (notional == other.byRisk || notional == other.allocation || notional == other.byCash);
        CapsUnique(r, equity, cash, atr.value, k, other);
      }
    }
  }

  lemma CapsExist(r: RiskConfig, equity: real, cash: real, atr: real) returns (k: Caps)
    requires ValidRisk(r)
    ensures AreCaps(r, equity, cash, atr, k)
    ensures var distance, stop := Times(r.atrMultiple, atr), Max(Times(r.atrMultiple, atr), r.minStop);
      k == Caps(distance, stop, Times(equity, r.riskPerTrade),
                Over(Times(equity, r.riskPerTrade), LossFraction(r, stop)), Times(equity, r.maxFraction),
                Over(cash, 1.0 + r.feeRate))
  {
    hide Over, Share, Spends;
    var distance, risk := Times(r.atrMultiple, atr), Times(equity, r.riskPerTrade);
    var stop := Max(distance, r.minStop);
    TimesShares(r.atrMultiple, atr);
    TimesShares(equity, r.riskPerTrade);
    TimesShares(equity, r.maxFraction);
    OverSpends(risk, LossFraction(r, stop));
    OverSpends(cash, 1.0 + r.feeRate);
    k := Caps(distance, stop, risk, Over(risk, LossFraction(r, stop)), Times(equity, r.maxFraction),
              Over(cash, 1.0 + r.feeRate));
  }

  lemma CapsUnique(r: RiskConfig, equity: real, cash: real, atr: real, a: Caps, b: Caps)
    requires ValidRisk(r) && AreCaps(r, equity, cash, atr, a) && AreCaps(r, equity, cash, atr, b)
    ensures a == b
  {
    hide Spends;
    SpendsOnce(a.byRisk, b.byRisk, a.stop + 2.0 * (r.feeRate + r.slippage), a.risk);
    SpendsOnce(a.byCash, b.byCash, 1.0 + r.feeRate, cash);
  }

  lemma SpendsOnce(x: real, y: real, fraction: real, budget: real)
    requires fraction > 0.0 && Spends(x, fraction, budget) && Spends(y, fraction, budget)
    ensures x == y
  {
  }

  // ---------------------------------------------------------------- one bar

  /** The highest price the position had seen when its stop was checked. */
  function PeakSeen(s: Portfolio, t: Portfolio, entry: real): real {
    if t.buys == s.buys then s.peakPrice else entry
  }

  /** Why and at what price a bar closed a position. */
  ghost predicate SaleReads(c: EngineConfig, s: Portfolio, b: Bar, t: Portfolio, x: Trade) {
    match x.reason
    case DataGap => s.quantity > 0.0 && x.rawExit == b.open && IsGap(c, s, b) && !c.haltOnGap
    case RiskHalt => s.quantity > 0.0 && x.rawExit == b.open && (s.halt != Active || (IsGap(c, s, b) && c.haltOnGap))
    case HorizonExit =>
      && s.quantity > 0.0 && x.rawExit == b.open && c.model.mode.ExpectedReturnMode?
      && s.horizonExit.Some? && b.timestamp >= s.horizonExit.value
    case ModelExit =>
      && s.quantity > 0.0 && x.rawExit == b.open && c.model.mode.ProbabilityMode? && !IsGap(c, s, b)
      && s.pending.probability.Some? && s.pending.probability.value <= c.model.exitProbability
    case EndOfRun => false
    case _ =>
      var trails, peak := x.reason == TrailingStop, PeakSeen(s, t, x.entryPrice);
      exists p :: IsStopPrice(c, x.entryPrice, x.stop, peak, p, trails)
                  && b.low <= p && x.rawExit == (if b.open <= p then b.open else p)
  }

  /** Only an unhalted flat account out of its cooldown buys, on the signal the last bar left and without a gap. */
  predicate BuyDue(c: EngineConfig, s: Portfolio, b: Bar)
    requires ValidEngine(c)
  {
    && s.quantity <= 0.0 && s.halt == Active && s.cooldown == 0 && !IsGap(c, s, b)
    && (if c.model.mode.ProbabilityMode?
        then s.pending.probability.Some? && s.pending.probability.value >= c.model.entryProbability
        else s.pending.eligible && s.pending.edge.Some? && s.pending.edge.value >= c.model.minimumEdge)
    && SizeEntry(c.risk, s.cash, s.cash, b.open, s.pending.atr).Accepted?
  }

  /** A position is still there after a bar that stayed above its stop. */
  ghost predicate StayedAbove(c: EngineConfig, s: Portfolio, b: Bar, t: Portfolio) {
    var peak := PeakSeen(s, t, t.entryPrice);
    && (exists p, trails :: IsStopPrice(c, t.entryPrice, t.stop, peak, p, trails) && b.low > p)
    && t.peakPrice == (if peak >= b.high then peak else b.high)
  }

  ghost predicate BarReads(c: EngineConfig, s: Portfolio, b: Bar, t: Portfolio)
    requires ValidEngine(c)
  {
    var sold := NewTrade(s, t);
    && AtMostOneTrade(s, t) && (sold.Some? ==> SaleReads(c, s, b, t, sold.value))
    && t.buys == s.buys + (if BuyDue(c, s, b) then 1 else 0)
    && (t.quantity > 0.0 ==> StayedAbove(c, s, b, t))
    && t.cooldown == (if sold.Some? && StoppedOut(sold.value.reason) then c.risk.cooldownBars
                      else if s.cooldown > 0 then s.cooldown - 1 else 0)
  }

  /** After the exit at the open. */
  ghost predicate OpenReads(c: EngineConfig, s: Portfolio, b: Bar, t: Portfolio, exited: bool) {
    && s.trades <= t.trades && |t.trades| == |s.trades| + (if exited then 1 else 0)
    && t.buys == s.buys && t.cooldown == s.cooldown
    && (exited ==>
          && t.quantity == 0.0 && !StoppedOut(t.trades[|s.trades|].reason)
          && forall u :: SaleReads(c, s, b, u, t.trades[|s.trades|]))
    && (!exited ==>
          && t.quantity == s.quantity && t.peakPrice == s.peakPrice && t.cash == s.cash
          && (t.halt == Active <==> s.halt == Active && !(IsGap(c, s, b) && c.haltOnGap))
          && t.pending == (if IsGap(c, s, b) then NO_SIGNAL else s.pending))
  }

  lemma ExitTradeIs(r: RiskConfig, s: Portfolio, rawPrice: real, reason: ExitReason)
    ensures var x := ExitTrade(r, s, rawPrice, reason);
      x.rawExit == rawPrice && x.reason == reason && x.entryPrice == s.entryPrice && x.stop == s.stop
  {
  }

  lemma OpenMeaning(c: EngineConfig, s: Portfolio, b: Bar)
    requires ValidEngine(c) && ValidBar(b) && Holds(c, s)
    ensures var gapped, forced := AfterGap(c, s, b), GapForcesExit(c, s, b);
      OpenReads(c, s, b, AfterExit(c, gapped, b, forced), ExitAtOpen(c, gapped, b, forced).Some?)
  {
    hide Kept, Times, ExitTrade;
    var gapped, forced := AfterGap(c, s, b), GapForcesExit(c, s, b);
    var reason := ExitAtOpen(c, gapped, b, forced);
    if reason.Some? { ExitTradeIs(c.risk, gapped, b.open, reason.value); }
  }

  /** After the entry. */
  predicate EntryReads(c: EngineConfig, s: Portfolio, b: Bar, t: Portfolio, bought: bool) {
    && t.trades == s.trades && t.cooldown == s.cooldown && t.buys == s.buys + (if bought then 1 else 0)
    && (bought ==> t.peakPrice == t.entryPrice) && (!bought ==> t == s)
  }

  lemma EntryMeaning(c: EngineConfig, s: Portfolio, b: Bar, exited: bool)
    requires ValidEngine(c) && ValidBar(b)
    ensures EntryReads(c, s, b, AfterEntry(c, s, b, exited),
      MayEnter(c, s, exited) && SizeEntry(c.risk, s.cash, s.cash, b.open, s.pending.atr).Accepted?)
  {
    hide Times, Over, Min, SizeEntry, WantsEntry;
  }

  lemma StopMeaning(c: EngineConfig, s: Portfolio, b: Bar)
    ensures var t := AfterStop(c, s, b);
      && t.buys == s.buys
      && if StopHit(c, s, b) then
           && t.cooldown == c.risk.cooldownBars && t.quantity == 0.0
           && s.trades < t.trades && |t.trades| == |s.trades| + 1
           && var x := t.trades[|s.trades|];
           && x.entryPrice == s.entryPrice && x.stop == s.stop
           && x.reason == (if TrailingStopPrice(c, s) >= FixedStop(s) then TrailingStop else StopLoss)
           && b.low <= StopPrice(c, s)
           && x.rawExit == (if b.open <= StopPrice(c, s) then b.open else StopPrice(c, s))
         else
           && t.cooldown == s.cooldown && t.trades == s.trades && t.quantity == s.quantity
           && t.entryPrice == s.entryPrice && t.stop == s.stop
           && (s.quantity > 0.0 ==>
                 b.low > StopPrice(c, s) && t.peakPrice == (if s.peakPrice >= b.high then s.peakPrice else b.high))
  {
    hide Times, ExitTrade, StopPrice, TrailingStopPrice, FixedStop;
    if StopHit(c, s, b) {
      var p := StopPrice(c, s);
      var reason := if TrailingStopPrice(c, s) >= FixedStop(s) then TrailingStop else StopLoss;
      ExitTradeIs(c.risk, s, Min(b.open, p), reason);
    }
  }

  /** The engine buys after the open exactly when the account before the bar says so. */
  lemma DueExactly(c: EngineConfig, s: Portfolio, b: Bar, t: Portfolio, exited: bool)
    requires ValidEngine(c) && Holds(c, s) && OpenReads(c, s, b, t, exited) && (exited ==> s.quantity > 0.0)
    ensures BuyDue(c, s, b) <==>
      MayEnter(c, t, exited) && SizeEntry(c.risk, t.cash, t.cash, b.open, t.pending.atr).Accepted?
  {
    hide Kept, SizeEntry, SaleReads;
  }

  lemma ExitsHeld(c: EngineConfig, s: Portfolio, b: Bar)
    ensures ExitAtOpen(c, AfterGap(c, s, b), b, GapForcesExit(c, s, b)).Some? ==> s.quantity > 0.0
  {
  }

  /** A sale at the stop, seen from before the bar. */
  lemma StopSaleReads(c: EngineConfig, s: Portfolio, b: Bar, entered: Portfolio, t: Portfolio, x: Trade, trails: bool)
    requires IsStopPrice(c, entered.entryPrice, entered.stop, entered.peakPrice, StopPrice(c, entered), trails)
    requires x.entryPrice == entered.entryPrice && x.stop == entered.stop
    requires x.reason == (if trails then TrailingStop else StopLoss) && b.low <= StopPrice(c, entered)
    requires x.rawExit == (if b.open <= StopPrice(c, entered) then b.open else StopPrice(c, entered))
    requires entered.peakPrice == PeakSeen(s, t, entered.entryPrice)
    ensures SaleReads(c, s, b, t, x)
  {
    hide IsStopPrice, StopPrice;
    var p, same, peak := StopPrice(c, entered), x.reason == TrailingStop, PeakSeen(s, t, x.entryPrice);
    assert same == trails && peak == entered.peakPrice;
    assert IsStopPrice(c, x.entryPrice, x.stop, peak, p, same);
  }

  lemma OpenSaleReads(c: EngineConfig, s: Portfolio, b: Bar, exited: Portfolio, t: Portfolio)
    requires OpenReads(c, s, b, exited, true) && t.trades == exited.trades
    ensures NewTrade(s, t).Some? && SaleReads(c, s, b, t, NewTrade(s, t).value)
    ensures !StoppedOut(NewTrade(s, t).value.reason) && AtMostOneTrade(s, t)
  {
    hide SaleReads;
    assert SaleReads(c, s, b, t, exited.trades[|s.trades|]);
  }

  /** Every bar reads as described: one sale at most, for a reason that held, and a purchase exactly when one is due. */
  lemma BarMeaning(c: EngineConfig, s: Portfolio, b: Bar, now: Signal)
    requires ValidEngine(c) && ValidBar(b) && Holds(c, s)
    ensures BarReads(c, s, b, AfterBar(c, s, b, now))
  {
    hide Kept, AfterExit, AfterEntry, AfterStop, AfterMark, ExitAtOpen, StopHit, StopPrice, TrailingStopPrice,
      FixedStop, SizeEntry, SaleReads, IsStopPrice, BuyDue, MayEnter;
    var gapped, forced := AfterGap(c, s, b), GapForcesExit(c, s, b);
    var exited, out := AfterExit(c, gapped, b, forced), ExitAtOpen(c, gapped, b, forced).Some?;
    OpenMeaning(c, s, b);
    ExitsHeld(c, s, b);
    DueExactly(c, s, b, exited, out);
    var entered := AfterEntry(c, exited, b, out);
    EntryMeaning(c, exited, b, out);
    StopMeaning(c, entered, b);
    StopPriceIs(c, entered);
    MarkIs(c, AfterStop(c, entered, b), b.close);
    var t := AfterBar(c, s, b, now);
    if out {
      NoEntryAfterExit(c, exited);
      NoStopWhenFlat(c, entered, b);
      OpenSaleReads(c, s, b, exited, t);
    } else if StopHit(c, entered, b) {
      StopSaleReads(c, s, b, entered, t, NewTrade(s, t).value, TrailingStopPrice(c, entered) >= FixedStop(entered));
    }
  }

  lemma NoEntryAfterExit(c: EngineConfig, s: Portfolio)
    ensures !MayEnter(c, s, true)
  {
  }

  lemma NoStopWhenFlat(c: EngineConfig, s: Portfolio, b: Bar)
    ensures s.quantity <= 0.0 ==> !StopHit(c, s, b)
  {
  }

  /** Marking changes the peak equity and the halt only. */
  lemma MarkIs(c: EngineConfig, s: Portfolio, price: real)
    ensures var t := AfterMark(c, s, price);
      t == s.(peakEquity := t.peakEquity, halt := t.halt) && (s.halt != Active ==> t.halt == s.halt)
  {
    hide MarkedEquity, Drawdown;
  }

  // ---------------------------------------------------------------- marks, halts and what is remembered

  /** What selling `quantity` at `price` brings after slippage and the fee. */
  predicate Brings(value: real, quantity: real, price: real, slippage: real, feeRate: real) {
    value == quantity * (price * (1.0 - slippage)) * (1.0 - feeRate)
  }

  /** Cash, and what the position would bring. */
  ghost predicate IsEquity(c: EngineConfig, s: Portfolio, price: real, equity: real) {
    if s.quantity > 0.0
      then exists value :: Brings(value, s.quantity, price, c.risk.slippage, c.risk.feeRate) && equity == s.cash + value
    else equity == s.cash
  }

  predicate IsDrawdown(d: real, equity: real, peak: real) {
    if peak <= 0.0 || equity >= peak then d == 0.0 else d > 0.0 && d * peak == peak - equity
  }

  /** The account is worth `equity`, its peak follows, and it halts when it has fallen too far from its peak. */
  ghost predicate MarkReads(c: EngineConfig, peak: real, halted: bool, t: Portfolio, price: real) {
    exists equity, d ::
      && IsEquity(c, t, price, equity) && IsDrawdown(d, equity, t.peakEquity)
      && t.peakEquity == (if peak >= equity then peak else equity)
      && t.halt == (if halted then Halted
                    else if d + DRAWDOWN_SLACK < c.risk.maxDrawdown then Active
                    else if t.quantity > 0.0 then HaltPending else Halted)
  }

  lemma DrawdownIs(equity: real, peak: real)
    ensures IsDrawdown(Drawdown(equity, peak), equity, peak)
  {
    if peak > 0.0 {
      var share := Over(equity, peak);
      assert share * peak == equity;
      if equity < peak { assert (1.0 - share) * peak > 0.0; } else { assert (share - 1.0) * peak >= 0.0; }
    }
  }

  lemma EquityIs(c: EngineConfig, s: Portfolio, price: real)
    ensures IsEquity(c, s, price, MarkedEquity(c, s, price))
  {
    if s.quantity > 0.0 {
      var value := Times(Times(s.quantity, Times(price, 1.0 - c.risk.slippage)), 1.0 - c.risk.feeRate);
      assert Brings(value, s.quantity, price, c.risk.slippage, c.risk.feeRate);
    }
  }

  lemma EquityOf(c: EngineConfig, s: Portfolio, t: Portfolio, price: real, equity: real)
    requires IsEquity(c, s, price, equity) && t.quantity == s.quantity && t.cash == s.cash
    ensures IsEquity(c, t, price, equity)
  {
    hide Brings;
  }

  lemma MarkMeaning(c: EngineConfig, s: Portfolio, price: real)
    requires s.halt == Active || s.halt == Halted
    ensures MarkReads(c, s.peakEquity, s.halt != Active, AfterMark(c, s, price), price)
  {
    hide MarkedEquity, Drawdown, IsEquity, IsDrawdown;
    var t, equity := AfterMark(c, s, price), MarkedEquity(c, s, price);
    EquityIs(c, s, price);
    EquityOf(c, s, t, price, equity);
    DrawdownIs(equity, t.peakEquity);
  }

  lemma MarkCarries(c: EngineConfig, peak: real, halted: bool, s: Portfolio, t: Portfolio, price: real)
    requires MarkReads(c, peak, halted, s, price)
    requires t.quantity == s.quantity && t.cash == s.cash && t.peakEquity == s.peakEquity && t.halt == s.halt
    ensures MarkReads(c, peak, halted, t, price)
  {
    hide IsEquity, IsDrawdown;
    var equity, d :| IsEquity(c, s, price, equity) && IsDrawdown(d, equity, s.peakEquity)
      && s.peakEquity == (if peak >= equity then peak else equity)
      && s.halt == (if halted then Halted
                    else if d + DRAWDOWN_SLACK < c.risk.maxDrawdown then Active
                    else if s.quantity > 0.0 then HaltPending else Halted);
    EquityOf(c, s, t, price, equity);
  }

  /** A halted account remembers nothing; an active one what its mode uses, and the range only with it. */
  predicate RemembersReads(c: EngineConfig, halt: Halt, now: Signal, kept: Signal) {
    if halt != Active then kept == NO_SIGNAL
    else if c.model.mode.ProbabilityMode? then
      && kept.probability == now.probability && kept.edge.None?
      && (now.probability.Some? ==> kept.atr == now.atr && kept.eligible == now.eligible)
      && (now.probability.None? ==> kept.atr.None? && !kept.eligible)
    else
      && kept.edge == now.edge && kept.probability.None?
      && (now.edge.Some? ==> kept.atr == now.atr && kept.eligible == now.eligible)
      && (now.edge.None? ==> kept.atr.None? && !kept.eligible)
  }

  /** How a bar leaves the account: marked at the close, halted if it has to be, with the signal for the next bar. */
  ghost predicate LeavesReads(c: EngineConfig, s: Portfolio, b: Bar, now: Signal, t: Portfolio) {
    && MarkReads(c, s.peakEquity, s.halt != Active || (IsGap(c, s, b) && c.haltOnGap), t, b.close)
    && RemembersReads(c, t.halt, now, t.pending) && t.lastBar == Some(b.timestamp)
    && (t.quantity > 0.0 ==>
          t.horizonExit == if t.buys > s.buys && c.model.mode.ExpectedReturnMode?
            then Some(b.timestamp + c.intervalNs * c.model.horizonBars) else s.horizonExit)
  }

  /** What the phases before the marking leave to it. */
  predicate Unmarked(s: Portfolio, t: Portfolio) {
    t.peakEquity == s.peakEquity && (t.quantity > 0.0 && t.buys == s.buys ==> t.horizonExit == s.horizonExit)
  }

  lemma OpenUnmarked(c: EngineConfig, s: Portfolio, b: Bar)
    requires ValidEngine(c) && ValidBar(b) && Holds(c, s)
    ensures var gapped, forced := AfterGap(c, s, b), GapForcesExit(c, s, b);
      var t := AfterExit(c, gapped, b, forced);
      && Unmarked(s, t) && t.buys == s.buys && (t.halt == Active || t.halt == Halted)
      && (t.halt != Active <==> s.halt != Active || (IsGap(c, s, b) && c.haltOnGap))
      && (if ExitAtOpen(c, gapped, b, forced).None? then t.horizonExit == s.horizonExit else t.quantity == 0.0)
  {
    hide Kept, Times, ExitTrade;
    NonNegativeQuantity(c.risk, s);
    var gapped, forced := AfterGap(c, s, b), GapForcesExit(c, s, b);
    var reason := ExitAtOpen(c, gapped, b, forced);
  }

  lemma EntryUnmarked(c: EngineConfig, s: Portfolio, b: Bar, exited: bool)
    requires ValidEngine(c) && ValidBar(b)
    ensures var t := AfterEntry(c, s, b, exited);
      && t.peakEquity == s.peakEquity && t.halt == s.halt && t.buys >= s.buys
      && (t.buys == s.buys ==> t == s) && (t.buys > s.buys ==> !exited)
      && (t.buys > s.buys ==> t.horizonExit == if c.model.mode.ExpectedReturnMode?
            then Some(b.timestamp + c.intervalNs * c.model.horizonBars) else s.horizonExit)
  {
    hide Times, Over, Min, SizeEntry, WantsEntry;
  }

  lemma StopUnmarked(c: EngineConfig, s: Portfolio, b: Bar)
    ensures var t := AfterStop(c, s, b);
      t.halt == s.halt && t.buys == s.buys && t.peakEquity == s.peakEquity
      && (t.quantity > 0.0 ==> t.horizonExit == s.horizonExit && s.quantity > 0.0)
  {
    hide Times, ExitTrade, StopPrice, TrailingStopPrice, FixedStop;
  }

  lemma BarLeaves(c: EngineConfig, s: Portfolio, b: Bar, now: Signal)
    requires ValidEngine(c) && ValidBar(b) && Holds(c, s)
    ensures LeavesReads(c, s, b, now, AfterBar(c, s, b, now))
  {
    hide Kept, AfterExit, AfterEntry, AfterStop, AfterMark, ExitAtOpen, StopHit, MarkReads;
    var gapped, forced := AfterGap(c, s, b), GapForcesExit(c, s, b);
    var exited, out := AfterExit(c, gapped, b, forced), ExitAtOpen(c, gapped, b, forced).Some?;
    OpenUnmarked(c, s, b);
    var entered := AfterEntry(c, exited, b, out);
    EntryUnmarked(c, exited, b, out);
    var stopped := AfterStop(c, entered, b);
    StopUnmarked(c, entered, b);
    MarkMeaning(c, stopped, b.close);
    MarkIs(c, stopped, b.close);
    var t := AfterBar(c, s, b, now);
    MarkCarries(c, s.peakEquity, exited.halt != Active, AfterMark(c, stopped, b.close), t, b.close);
  }

  // ---------------------------------------------------------------- runs of bars

  predicate AllValid(inputs: seq<Input>) {
    forall i :: 0 <= i < |inputs| ==> ValidBar(inputs[i].bar)
  }

  /** Every bar of a run reads as described. */
  lemma EveryBarReads(c: EngineConfig, inputs: seq<Input>, i: nat)
    requires ValidEngine(c) && AllValid(inputs) && i < |inputs|
    ensures BarReads(c, Run(c, inputs[..i]), inputs[i].bar, Run(c, inputs[..i + 1]))
    ensures LeavesReads(c, Run(c, inputs[..i]), inputs[i].bar, inputs[i].signal, Run(c, inputs[..i + 1]))
  {
    hide Holds, BarReads, LeavesReads, AfterBar;
    RunKeeps(c, inputs[..i], 0);
    assert inputs[..i + 1][..i] == inputs[..i];
    BarMeaning(c, Run(c, inputs[..i]), inputs[i].bar, inputs[i].signal);
    BarLeaves(c, Run(c, inputs[..i]), inputs[i].bar, inputs[i].signal);
  }

  /** Bar `i` closed a position at its stop. */
  predicate StopsOut(c: EngineConfig, inputs: seq<Input>, i: nat)
    requires ValidEngine(c) && AllValid(inputs) && i < |inputs|
  {
    var x := NewTrade(Run(c, inputs[..i]), Run(c, inputs[..i + 1]));
    x.Some? && StoppedOut(x.value.reason)
  }

  lemma {:induction false} CoolingDown(c: EngineConfig, inputs: seq<Input>, i: nat, j: nat)
    requires ValidEngine(c) && AllValid(inputs) && i < j <= |inputs| && StopsOut(c, inputs, i)
    ensures Run(c, inputs[..j]).cooldown >= c.risk.cooldownBars - (j - i - 1)
    decreases j
  {
    hide Run, SaleReads, BuyDue, StayedAbove;
    EveryBarReads(c, inputs, j - 1);
    if j > i + 1 { CoolingDown(c, inputs, i, j - 1); }
  }

  /** After a stop the next `cooldownBars` bars buy nothing. */
  lemma StopCoolsDown(c: EngineConfig, inputs: seq<Input>, i: nat, j: nat)
    requires ValidEngine(c) && AllValid(inputs) && i < j < |inputs| && StopsOut(c, inputs, i)
    requires j <= i + c.risk.cooldownBars
    ensures Run(c, inputs[..j + 1]).buys == Run(c, inputs[..j]).buys
  {
    hide Run, SaleReads, StayedAbove;
    EveryBarReads(c, inputs, j);
    CoolingDown(c, inputs, i, j);
  }
}
