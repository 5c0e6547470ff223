/** The online diagnostic signal: a window of recent trades kept per record, against the builder's features of the
    same archive. */
module OnlineSignal {
  import opened Envelopes
  import opened FeatureSpec

  datatype Kept = Kept(id: string, trade: Trade)

  datatype Weights = Weights(book: real, flow: real)

  datatype SignalConfig = SignalConfig(warmupBooks: nat, windowNs: int, weights: Weights)

  /** What is remembered between records. */
  datatype Memory = Memory(capture: Option<string>, connection: Option<string>, lastOrdinal: Option<int>,
      booksSeen: nat, kept: seq<Kept>)

  const BLANK := Memory(None, None, None, 0, [])

  datatype Snapshot = Snapshot(ready: bool, booksSeen: nat, imbalance: real, flow: real, signal: real)

  /** A recorder's event: everything identified, trades and books valid. */
  predicate RecorderEvent(x: Item) {
    && x.Archived? && x.capture.Some? && x.connection.Some? && x.ordinal.Some? && ValidBody(x.body)
    && match x.body
       case BookBody(levels) => BookFeatures(levels).Some?
       case TradeBody(_, _, price, volume) => price > 0.0 && volume > 0.0
       case InvalidBody => false
  }

  // ---------------------------------------------------------------- one record

  predicate Breaks(m: Memory, x: Item, regression: bool)
    requires RecorderEvent(x)
  {
    || (m.capture.Some? && (x.capture != m.capture || x.connection != m.connection || m.lastOrdinal.None?
                            || x.ordinal.value != m.lastOrdinal.value + 1))
    || x.gapBefore.Some? || regression
  }

  function KeptSince(kept: seq<Kept>, from: int): seq<Kept>
    decreases |kept|
  {
    if kept == [] then []
    else
      var n := |kept| - 1;
      KeptSince(kept[..n], from) + if kept[n].trade.timeNs >= from then [kept[n]] else []
  }

  /** Drop from the front while too old. */
  function Pruned(kept: seq<Kept>, cutoff: int): seq<Kept> {
    if kept != [] && kept[0].trade.timeNs < cutoff then Pruned(kept[1..], cutoff) else kept
  }

  predicate HasId(kept: seq<Kept>, id: string) {
    exists i :: 0 <= i < |kept| && kept[i].id == id
  }

  function Remember(m: Memory, x: Item, regression: bool, windowNs: int): Memory
    requires RecorderEvent(x)
  {
    var cleared := if Breaks(m, x, regression) then m.(booksSeen := 0, kept := []) else m;
    var pruned := Pruned(cleared.kept, x.timeNs - windowNs);
    var booksSeen := cleared.booksSeen + if x.body.BookBody? then 1 else 0;
    Memory(x.capture, x.connection, x.ordinal, booksSeen,
           if x.body.TradeBody? && !HasId(pruned, x.body.id) then pruned + [Kept(x.body.id, TradeOf(x))] else pruned)
  }

  function Value(k: Kept): real { Signed(k.trade.sign, k.trade.notional) }

  function Bought(kept: seq<Kept>): real
    decreases |kept|
  {
    if kept == [] then 0.0
    else
      var n := |kept| - 1;
      Bought(kept[..n]) + if Value(kept[n]) > 0.0 then Value(kept[n]) else 0.0
  }

  function Sold(kept: seq<Kept>): real
    decreases |kept|
  {
    if kept == [] then 0.0
    else
      var n := |kept| - 1;
      Sold(kept[..n]) + if Value(kept[n]) < 0.0 then -Value(kept[n]) else 0.0
  }

  function Flow(bought: real, sold: real): real {
    if bought + sold > 0.0 then Ratio(bought - sold, bought + sold) else 0.0
  }

  function Imbalance(levels: seq<Quote>): real {
    var top := Top(levels);
    var depth := AskSize(top) + BidSize(top);
    if depth > 0.0 then Ratio(BidSize(top) - AskSize(top), depth) else 0.0
  }

  /** Weights are used relative to their sum. */
  function Blend(w: Weights, imbalance: real, flow: real): real {
    Ratio(w.book, w.book + w.flow) * imbalance + Ratio(w.flow, w.book + w.flow) * flow
  }

  function Emit(c: SignalConfig, m: Memory, levels: seq<Quote>): Snapshot {
    var imbalance, flow := Imbalance(levels), Flow(Bought(m.kept), Sold(m.kept));
    Snapshot(m.booksSeen >= c.warmupBooks, m.booksSeen, imbalance, flow, Blend(c.weights, imbalance, flow))
  }

  /** Both sides of the window, added up in order. */
  method SumSides(kept: seq<Kept>) returns (bought: real, sold: real)
    ensures bought == Bought(kept) && sold == Sold(kept)
  {
    bought, sold := 0.0, 0.0;
    for i := 0 to |kept|
      invariant bought == Bought(kept[..i]) && sold == Sold(kept[..i])
    {
      assert kept[..i + 1][..i] == kept[..i];
      var value := Value(kept[i]);
      if value > 0.0 { bought := bought + value; }
      if value < 0.0 { sold := sold - value; }
    }
    assert kept[..|kept|] == kept;
  }

  class OnlineDiagnosticSignal {
    const config: SignalConfig
    var capture: Option<string>
    var connection: Option<string>
    var lastOrdinal: Option<int>
    var booksSeen: nat
    var signedTrades: seq<Kept>
    var tradeIds: set<string>

    ghost function Remembered(): Memory
      reads this
    {
      Memory(capture, connection, lastOrdinal, booksSeen, signedTrades)
    }

    /** The id set mirrors the queue, which holds no id twice. */
    ghost predicate Valid()
      reads this
    {
      && (forall id :: id in tradeIds <==> HasId(signedTrades, id))
      && forall i, j :: 0 <= i < j < |signedTrades| ==> signedTrades[i].id != signedTrades[j].id
    }

    constructor (config: SignalConfig)
      ensures Valid() && Remembered() == BLANK && this.config == config
    {
      this.config := config;
      capture, connection, lastOrdinal, booksSeen, signedTrades, tradeIds := None, None, None, 0, [], {};
    }

    method Reset()
      modifies `booksSeen, `signedTrades, `tradeIds
      ensures Valid() && booksSeen == 0 && signedTrades == []
    {
      booksSeen, signedTrades, tradeIds := 0, [], {};
    }

    method Prune(now: int)
      requires Valid()
      modifies `signedTrades, `tradeIds
      ensures Valid() && signedTrades == Pruned(old(signedTrades), now - config.windowNs)
    {
      var cutoff := now - config.windowNs;
      while signedTrades != [] && signedTrades[0].trade.timeNs < cutoff
        invariant Valid() && Pruned(signedTrades, cutoff) == Pruned(old(signedTrades), cutoff)
        decreases |signedTrades|
      {
        var first := signedTrades[0];
        ghost var before := signedTrades;
        signedTrades := signedTrades[1..];
        tradeIds := tradeIds - {first.id};
        forall id ensures id in tradeIds <==> HasId(signedTrades, id) { PoppedIds(before, id); }
      }
    }

    /** Keep a trade unless its id is already in the window. */
    method Admit(k: Kept)
      requires Valid()
      modifies `signedTrades, `tradeIds
      ensures Valid() && signedTrades == if HasId(old(signedTrades), k.id) then old(signedTrades)
        else old(signedTrades) + [k]
    {
      if k.id in tradeIds { return; }
      ghost var before := signedTrades;
      signedTrades := signedTrades + [k];
      tradeIds := tradeIds + {k.id};
      forall id ensures id in tradeIds <==> HasId(signedTrades, id) { PushedIds(before, k, id); }
      assert forall i :: 0 <= i < |before| ==> before[i].id != k.id;
    }

    method Feed(x: Item, regression: bool) returns (snapshot: Option<Snapshot>)
      requires Valid() && RecorderEvent(x)
      modifies this
      ensures Valid() && Remembered() == Remember(old(Remembered()), x, regression, config.windowNs)
      ensures snapshot == if x.body.BookBody? then Some(Emit(config, Remembered(), x.body.levels)) else None
    {
      hide Flow, Imbalance, Blend, Bought, Sold, TradeOf, BookFeatures, HasId, Pruned;
      var boundary := capture.Some? && (x.capture != capture || x.connection != connection || lastOrdinal.None?
                                        || x.ordinal.value != lastOrdinal.value + 1);
      if boundary || x.gapBefore.Some? || regression { Reset(); }
      capture, connection, lastOrdinal := x.capture, x.connection, x.ordinal;
      Prune(x.timeNs);
      if x.body.TradeBody? {
        Admit(Kept(x.body.id, TradeOf(x)));
        return None;
      }
      booksSeen := booksSeen + 1;
      var bought, sold := SumSides(signedTrades);
      var imbalance := Imbalance(x.body.levels);
      var flow := Flow(bought, sold);
      snapshot := Some(Snapshot(booksSeen >= config.warmupBooks, booksSeen, imbalance, flow,
        Blend(config.weights, imbalance, flow)));
    }
  }

  lemma PoppedIds(kept: seq<Kept>, id: string)
    requires kept != [] && forall i, j :: 0 <= i < j < |kept| ==> kept[i].id != kept[j].id
    ensures HasId(kept[1..], id) <==> HasId(kept, id) && id != kept[0].id
  {
    if HasId(kept, id) && id != kept[0].id {
      var i :| 0 <= i < |kept| && kept[i].id == id;
      assert kept[1..][i - 1].id == id;
    }
    if HasId(kept[1..], id) {
      var i :| 0 <= i < |kept[1..]| && kept[1..][i].id == id;
      assert kept[i + 1].id == id;
    }
  }

  lemma PushedIds(kept: seq<Kept>, k: Kept, id: string)
    ensures HasId(kept + [k], id) <==> HasId(kept, id) || id == k.id
  {
    if HasId(kept, id) {
      var i :| 0 <= i < |kept| && kept[i].id == id;
      assert (kept + [k])[i].id == id;
    }
    assert (kept + [k])[|kept|].id == k.id;
  }

  // ---------------------------------------------------------------- a recorder's stream

  /** One market and clock; a capture numbers its records without holes. */
  predicate RecorderStream(xs: seq<Item>) {
    && (forall i :: 0 <= i < |xs| ==> RecorderEvent(xs[i]))
    && forall i :: 0 < i < |xs| ==> Adjacent(xs, i)
  }

  predicate Adjacent(xs: seq<Item>, i: nat)
    requires 0 < i < |xs| && RecorderEvent(xs[i - 1]) && RecorderEvent(xs[i])
  {
    && xs[i].market == xs[i - 1].market && xs[i].timeSource == xs[i - 1].timeSource
    && (xs[i].capture == xs[i - 1].capture ==> xs[i].ordinal.value == xs[i - 1].ordinal.value + 1)
  }

  /** The recorder marks a record whose receive time went back within its capture. */
  predicate Regressed(xs: seq<Item>, i: nat)
    requires RecorderStream(xs) && i < |xs|
  {
    i > 0 && xs[i].capture == xs[i - 1].capture && xs[i].timeNs < xs[i - 1].timeNs
  }

  /** Record `i` starts a new segment. */
  predicate Cut(xs: seq<Item>, i: nat)
    requires RecorderStream(xs) && i < |xs|
  {
    i == 0 || xs[i].gapBefore.Some? || xs[i].capture != xs[i - 1].capture || xs[i].connection != xs[i - 1].connection
    || xs[i].timeNs < xs[i - 1].timeNs
  }

  function SignalMemory(xs: seq<Item>, n: nat, windowNs: int): Memory
    requires RecorderStream(xs) && n <= |xs|
  {
    if n == 0 then BLANK else Remember(SignalMemory(xs, n - 1, windowNs), xs[n - 1], Regressed(xs, n - 1), windowNs)
  }

  function StreamAfter(xs: seq<Item>, n: nat): Stream
    requires ValidItems(xs) && n <= |xs|
  {
    ReadAll(xs[..n])
  }

  function ObservedAs(s: Stream, x: Item): Observation
    requires RecorderEvent(x)
  {
    if x.body.TradeBody? then TradeEvent(x.timeNs, x.body.id, TradeOf(x))
    else BookEvent(s.arrival, x.timeNs, x.ordinal, BookFeatures(x.body.levels).value)
  }

  /** After each record the builder has a segment open with that record's identity and time. */
  predicate OpenAt(s: Stream, x: Item)
    requires RecorderEvent(x)
  {
    && s.open.Some? && s.open.value.meta.capture == x.capture && s.open.value.meta.connection == x.connection
    && s.open.value.meta.market == x.market && s.open.value.meta.timeSource == x.timeSource
    && s.open.value.meta.lastTimeNs == x.timeNs && s.open.value.meta.lastOrdinal == x.ordinal
  }

  lemma EventAppended(s: Stream, xs: seq<Item>, i: nat)
    requires RecorderStream(xs) && i < |xs| && (i == 0 ==> s.open.None?) && (i > 0 ==> OpenAt(s, xs[i - 1]))
    ensures var t := Read(s, xs[i]);
      && OpenAt(t, xs[i])
      && t.open.value.events == (if Cut(xs, i) then [] else s.open.value.events) + [ObservedAs(s, xs[i])]
  {
    hide BookFeatures, TradeOf;
    var x := xs[i];
    if i > 0 { assert Adjacent(xs, i); }
    var next := AfterGap(s.(arrival := s.arrival + 1), x);
    PlacedAt(next, x);
  }

  /** Placing a record of a recorder's stream. */
  lemma PlacedAt(s: Stream, x: Item)
    requires RecorderEvent(x)
    requires s.open.Some? ==>
      && s.open.value.meta.capture.Some? && s.open.value.meta.connection.Some?
      && s.open.value.meta.market == x.market && s.open.value.meta.timeSource == x.timeSource
      && (s.open.value.meta.capture == x.capture ==> s.open.value.meta.lastOrdinal == Some(x.ordinal.value - 1))
    ensures OpenAt(Placed(s, x), x)
    ensures var joins := s.open.Some? && s.open.value.meta.capture == x.capture
      && s.open.value.meta.connection == x.connection
                         && x.timeNs >= s.open.value.meta.lastTimeNs;
      Placed(s, x).open.value.events == if joins then s.open.value.events else []
  {
  }

  /** Events of the builder's open segment after `n` records. */
  function EventsAfter(xs: seq<Item>, n: nat): seq<Observation>
    requires ValidItems(xs) && n <= |xs|
  {
    var s := StreamAfter(xs, n);
    if s.open.Some? then s.open.value.events else []
  }

  lemma {:induction false} EventsStep(xs: seq<Item>, n: nat)
    requires RecorderStream(xs) && ValidItems(xs) && n < |xs|
    ensures OpenAt(StreamAfter(xs, n + 1), xs[n])
    ensures EventsAfter(xs, n + 1)
      == (if Cut(xs, n) then [] else EventsAfter(xs, n)) + [ObservedAs(StreamAfter(xs, n), xs[n])]
  {
    assert xs[..n + 1][..n] == xs[..n];
    if n > 0 { EventsStep(xs, n - 1); }
    EventAppended(StreamAfter(xs, n), xs, n);
  }

  // ---------------------------------------------------------------- the two windows

  /** First copies with their ids. */
  function FirstCopies(events: seq<Observation>): seq<Kept>
    decreases |events|
  {
    if events == [] then []
    else
      var before, e := events[..|events| - 1], events[|events| - 1];
      FirstCopies(before) + if e.TradeEvent? && e.id !in Ids(before) then [Kept(e.id, e.trade)] else []
  }

  function TradesOf(kept: seq<Kept>): (ts: seq<Trade>)
    ensures |ts| == |kept| && forall i :: 0 <= i < |ts| ==> ts[i] == kept[i].trade
  {
    seq(|kept|, i requires 0 <= i < |kept| => kept[i].trade)
  }

  lemma {:induction false} CopiesAreDistinct(events: seq<Observation>)
    ensures TradesOf(FirstCopies(events)) == Distinct(events)
    ensures forall id :: id in Ids(events) <==> HasId(FirstCopies(events), id)
    decreases |events|
  {
    if events != [] {
      var before, e := events[..|events| - 1], events[|events| - 1];
      CopiesAreDistinct(before);
      var copies := FirstCopies(before);
      assert copies + [] == copies && Distinct(before) + [] == Distinct(before);
      if e.TradeEvent? && e.id !in Ids(before) {
        forall id ensures id in Ids(events) <==> HasId(FirstCopies(events), id) {
          PushedIds(FirstCopies(before), Kept(e.id, e.trade), id);
        }
      }
    }
  }

  lemma {:induction false} SinceOfTrades(kept: seq<Kept>, from: int)
    ensures TradesOf(KeptSince(kept, from)) == Since(TradesOf(kept), from)
    decreases |kept|
  {
    if kept != [] {
      var n := |kept| - 1;
      SinceOfTrades(kept[..n], from);
      assert TradesOf(kept)[..n] == TradesOf(kept[..n]);
    }
  }

  predicate Chronological(kept: seq<Kept>, last: int) {
    && (forall i, j :: 0 <= i < j < |kept| ==> kept[i].trade.timeNs <= kept[j].trade.timeNs)
    && forall i :: 0 <= i < |kept| ==> kept[i].trade.timeNs <= last
  }

  lemma {:induction false} KeptAll(kept: seq<Kept>, from: int)
    requires forall i :: 0 <= i < |kept| ==> kept[i].trade.timeNs >= from
    ensures KeptSince(kept, from) == kept
    decreases |kept|
  {
    if kept != [] { KeptAll(kept[..|kept| - 1], from); }
  }

  lemma {:induction false} KeptDropsFirst(kept: seq<Kept>, from: int)
    requires kept != [] && kept[0].trade.timeNs < from
    ensures KeptSince(kept, from) == KeptSince(kept[1..], from)
    decreases |kept|
  {
    var n := |kept| - 1;
    if n > 0 {
      KeptDropsFirst(kept[..n], from);
      assert kept[1..][..n - 1] == kept[..n][1..];
    }
  }

  lemma {:induction false} PruneIsFilter(kept: seq<Kept>, cutoff: int, last: int)
    requires Chronological(kept, last)
    ensures Pruned(kept, cutoff) == KeptSince(kept, cutoff)
  {
    if kept != [] && kept[0].trade.timeNs < cutoff {
      PruneIsFilter(kept[1..], cutoff, last);
      KeptDropsFirst(kept, cutoff);
    } else {
      KeptAll(kept, cutoff);
    }
  }

  lemma {:induction false} KeptTwice(kept: seq<Kept>, a: int, b: int)
    requires a <= b
    ensures KeptSince(KeptSince(kept, a), b) == KeptSince(kept, b)
    decreases |kept|
  {
    if kept != [] {
      var n := |kept| - 1;
      KeptTwice(kept[..n], a, b);
      var front := KeptSince(kept[..n], a);
      assert front + [] == front;
      if kept[n].trade.timeNs >= a { assert (front + [kept[n]])[..|front|] == front; }
    }
  }

  /** First copies of the segment inside the window ending at `now`: what the builder retains. */
  function Window(events: seq<Observation>, now: int, windowNs: int): seq<Kept> {
    KeptSince(FirstCopies(events), now - windowNs)
  }

  /** Record `n` repeats an id of its segment whose first copy has already left the window. */
  predicate LateRepeat(xs: seq<Item>, n: nat, windowNs: int)
    requires RecorderStream(xs) && ValidItems(xs) && n < |xs|
  {
    var x := xs[n];
    && x.body.TradeBody? && !Cut(xs, n)
    && x.body.id in Ids(EventsAfter(xs, n)) && !HasId(Window(EventsAfter(xs, n), x.timeNs, windowNs), x.body.id)
  }

  /** A recorded trade: bought or sold, for something. */
  predicate Sound(t: Trade) { t.notional > 0.0 && (t.sign == 1 || t.sign == -1) }

  predicate Clocked(events: seq<Observation>, last: int) {
    && (forall i, j :: 0 <= i < j < |events| ==> events[i].timeNs <= events[j].timeNs)
    && forall i :: 0 <= i < |events| ==> WellTimed(events[i], last)
  }

  predicate WellTimed(e: Observation, last: int) {
    e.timeNs <= last && (e.TradeEvent? ==> e.trade.timeNs == e.timeNs && Sound(e.trade))
  }

  predicate AllSound(kept: seq<Kept>) { forall i :: 0 <= i < |kept| ==> Sound(kept[i].trade) }

  lemma {:induction false} CopiesChronological(events: seq<Observation>, last: int)
    requires Clocked(events, last)
    ensures Chronological(FirstCopies(events), last) && AllSound(FirstCopies(events))
    decreases |events|
  {
    if events != [] {
      var n := |events| - 1;
      CopiesChronological(events[..n], events[n].timeNs);
    }
  }

  lemma {:induction false} SinceChronological(kept: seq<Kept>, from: int, last: int)
    requires Chronological(kept, last) && AllSound(kept)
    ensures Chronological(KeptSince(kept, from), last) && AllSound(KeptSince(kept, from))
    decreases |kept|
  {
    if kept != [] {
      var n := |kept| - 1;
      SinceChronological(kept[..n], from, kept[n].trade.timeNs);
    }
  }

  lemma ClockedGrows(events: seq<Observation>, last: int, e: Observation)
    requires Clocked(events, last) && last <= e.timeNs && WellTimed(e, e.timeNs)
    ensures Clocked(events + [e], e.timeNs)
  {
  }

  lemma NoneClocked(last: int)
    ensures Clocked([], last)
  {
  }

  lemma Product(price: real, volume: real)
    requires price > 0.0 && volume > 0.0
    ensures price * volume > 0.0
  {
  }

  lemma ObservedWell(s: Stream, x: Item)
    requires RecorderEvent(x)
    ensures ObservedAs(s, x).timeNs == x.timeNs && WellTimed(ObservedAs(s, x), x.timeNs)
  {
    if x.body.TradeBody? { Product(x.body.price, x.body.volume); }
  }

  lemma {:induction false} EventsClocked(xs: seq<Item>, n: nat)
    requires RecorderStream(xs) && ValidItems(xs) && 0 < n <= |xs|
    ensures Clocked(EventsAfter(xs, n), xs[n - 1].timeNs)
  {
    hide OpenAt, StreamAfter, Clocked, WellTimed, EventsAfter, ObservedAs;
    var m := n - 1;
    EventsStep(xs, m);
    ObservedWell(StreamAfter(xs, m), xs[m]);
    var e := ObservedAs(StreamAfter(xs, m), xs[m]);
    if Cut(xs, m) {
      NoneClocked(xs[m].timeNs);
      ClockedGrows([], xs[m].timeNs, e);
    } else {
      EventsClocked(xs, m);
      ClockedGrows(EventsAfter(xs, m), xs[m - 1].timeNs, e);
    }
  }

  /** What the signal keeps is what the builder retains. */
  predicate SameWindow(xs: seq<Item>, n: nat, windowNs: int)
    requires RecorderStream(xs) && ValidItems(xs) && 0 < n <= |xs|
  {
    SignalMemory(xs, n, windowNs).kept == Window(EventsAfter(xs, n), xs[n - 1].timeNs, windowNs)
  }

  lemma MemoryFollows(xs: seq<Item>, n: nat, windowNs: int)
    requires RecorderStream(xs) && n <= |xs|
    ensures var m := SignalMemory(xs, n, windowNs);
      if n == 0 then m == BLANK
      else m.capture == xs[n - 1].capture && m.connection == xs[n - 1].connection && m.lastOrdinal == xs[n - 1].ordinal
  {
  }

  /** The signal forgets everything exactly where the builder starts a segment. */
  lemma BreaksAtCuts(xs: seq<Item>, n: nat, windowNs: int)
    requires RecorderStream(xs) && 0 < n < |xs|
    ensures Breaks(SignalMemory(xs, n, windowNs), xs[n], Regressed(xs, n)) <==> Cut(xs, n)
  {
    MemoryFollows(xs, n, windowNs);
    assert Adjacent(xs, n);
  }

  lemma WindowGrows(events: seq<Observation>, e: Observation, now: int, windowNs: int)
    requires e.TradeEvent? ==> e.trade.timeNs == now
    requires windowNs > 0
    ensures Window(events + [e], now, windowNs)
         == Window(events, now, windowNs) + if e.TradeEvent? && e.id !in Ids(events) then [Kept(e.id, e.trade)] else []
  {
    assert (events + [e])[..|events|] == events;
    var copies := FirstCopies(events);
    assert copies + [] == copies;
    if e.TradeEvent? && e.id !in Ids(events) { assert (copies + [Kept(e.id, e.trade)])[..|copies|] == copies; }
  }

  lemma {:induction false} SinceSubset(kept: seq<Kept>, from: int, id: string)
    requires HasId(KeptSince(kept, from), id)
    ensures HasId(kept, id)
    decreases |kept|
  {
    var n := |kept| - 1;
    var i :| 0 <= i < |KeptSince(kept, from)| && KeptSince(kept, from)[i].id == id;
    var front := KeptSince(kept[..n], from);
    if i < |front| {
      assert front[i].id == id;
      SinceSubset(kept[..n], from, id);
      var j :| 0 <= j < |kept[..n]| && kept[..n][j].id == id;
      assert kept[j].id == id;
    } else {
      assert kept[n].id == id;
    }
  }

  /** The events record `n` joins: none at a cut. */
  function Base(xs: seq<Item>, n: nat): seq<Observation>
    requires RecorderStream(xs) && ValidItems(xs) && n < |xs|
  {
    if Cut(xs, n) then [] else EventsAfter(xs, n)
  }

  lemma WindowSlides(events: seq<Observation>, last: int, now: int, windowNs: int)
    requires Clocked(events, last) && last <= now
    ensures Pruned(Window(events, last, windowNs), now - windowNs) == Window(events, now, windowNs)
    ensures AllSound(Window(events, now, windowNs))
  {
    hide Clocked, KeptSince, Pruned;
    var copies := FirstCopies(events);
    CopiesChronological(events, last);
    SinceChronological(copies, last - windowNs, last);
    SinceChronological(copies, now - windowNs, last);
    PruneIsFilter(Window(events, last, windowNs), now - windowNs, last);
    KeptTwice(copies, last - windowNs, now - windowNs);
  }

  /** Pruning what the signal kept leaves what the builder retains of the segment so far. */
  lemma PrunedIsWindow(xs: seq<Item>, n: nat, windowNs: int)
    requires RecorderStream(xs) && ValidItems(xs) && n < |xs| && windowNs > 0
    requires n > 0 ==> SameWindow(xs, n, windowNs)
    ensures var m, x := SignalMemory(xs, n, windowNs), xs[n];
      var cleared := if Breaks(m, x, Regressed(xs, n)) then [] else m.kept;
      Pruned(cleared, x.timeNs - windowNs) == Window(Base(xs, n), x.timeNs, windowNs)
  {
    hide Breaks, EventsAfter, Clocked, BookFeatures;
    if n == 0 {
      assert SignalMemory(xs, n, windowNs).kept == [];
    } else {
      BreaksAtCuts(xs, n, windowNs);
      if !Cut(xs, n) {
        EventsClocked(xs, n);
        WindowSlides(EventsAfter(xs, n), xs[n - 1].timeNs, xs[n].timeNs, windowNs);
      }
    }
  }

  lemma BaseSound(xs: seq<Item>, n: nat, windowNs: int)
    requires RecorderStream(xs) && ValidItems(xs) && n < |xs|
    ensures AllSound(Window(Base(xs, n), xs[n].timeNs, windowNs))
  {
    hide EventsAfter, Clocked, Window;
    if Cut(xs, n) {
      NoneClocked(xs[n].timeNs);
      WindowSlides([], xs[n].timeNs, xs[n].timeNs, windowNs);
    } else {
      EventsClocked(xs, n);
      WindowSlides(EventsAfter(xs, n), xs[n - 1].timeNs, xs[n].timeNs, windowNs);
    }
  }

  /** One record keeps the windows the same if and only if it is not a late repeat. */
  lemma WindowStep(xs: seq<Item>, n: nat, windowNs: int)
    requires RecorderStream(xs) && ValidItems(xs) && n < |xs| && windowNs > 0
    requires n > 0 ==> SameWindow(xs, n, windowNs)
    ensures SameWindow(xs, n + 1, windowNs) <==> !LateRepeat(xs, n, windowNs)
  {
    hide EventsAfter, Breaks, Window, Regressed;
    var x, base := xs[n], Base(xs, n);
    var window := Window(base, x.timeNs, windowNs);
    PrunedIsWindow(xs, n, windowNs);
    EventsStep(xs, n);
    ObservedWell(StreamAfter(xs, n), x);
    WindowGrows(base, ObservedAs(StreamAfter(xs, n), x), x.timeNs, windowNs);
    assert window + [] == window;
    if x.body.TradeBody? && HasId(window, x.body.id) { InWindowInIds(base, x.timeNs, windowNs, x.body.id); }
  }

  lemma InWindowInIds(events: seq<Observation>, now: int, windowNs: int, id: string)
    requires HasId(Window(events, now, windowNs), id)
    ensures id in Ids(events)
  {
    SinceSubset(FirstCopies(events), now - windowNs, id);
    CopiesAreDistinct(events);
  }

  /**
   On a recorder's stream with equal windows, the signal keeps after every record exactly the trades the builder
   retains if and only if no trade id recurs in a segment after its first copy left the window.
   */
  lemma WindowsAgree(xs: seq<Item>, windowNs: int)
    requires RecorderStream(xs) && ValidItems(xs) && windowNs > 0
    ensures (forall n :: 0 < n <= |xs| ==> SameWindow(xs, n, windowNs))
       <==> (forall n :: 0 <= n < |xs| ==> !LateRepeat(xs, n, windowNs))
  {
    if forall n :: 0 <= n < |xs| ==> !LateRepeat(xs, n, windowNs) {
      forall n | 0 < n <= |xs| ensures SameWindow(xs, n, windowNs) { SameUpTo(xs, n, windowNs); }
    }
    if forall n :: 0 < n <= |xs| ==> SameWindow(xs, n, windowNs) {
      forall n | 0 <= n < |xs| ensures !LateRepeat(xs, n, windowNs) {
        var after := n + 1;
        assert SameWindow(xs, after, windowNs);
        WindowStep(xs, n, windowNs);
      }
    }
  }

  lemma {:induction false} SameUpTo(xs: seq<Item>, n: nat, windowNs: int)
    requires RecorderStream(xs) && ValidItems(xs) && windowNs > 0 && 0 < n <= |xs|
    requires forall i :: 0 <= i < n ==> !LateRepeat(xs, i, windowNs)
    ensures SameWindow(xs, n, windowNs)
  {
    if n > 1 { SameUpTo(xs, n - 1, windowNs); }
    WindowStep(xs, n - 1, windowNs);
  }

  lemma {:induction false} SumsAgree(kept: seq<Kept>)
    requires AllSound(kept)
    ensures var t := Total(TradesOf(kept));
      Bought(kept) - Sold(kept) == t.signedNotional && Bought(kept) + Sold(kept) == t.notional
    decreases |kept|
  {
    if kept != [] {
      var n := |kept| - 1;
      SumsAgree(kept[..n]);
      assert TradesOf(kept)[..n] == TradesOf(kept[..n]);
    }
  }

  function NotionalRatio(a: Aggregate): real {
    if a.notional > 0.0 then Ratio(a.signedNotional, a.notional) else 0.0
  }

  lemma FlowIsRatio(kept: seq<Kept>)
    requires AllSound(kept)
    ensures Flow(Bought(kept), Sold(kept)) == NotionalRatio(Total(TradesOf(kept)))
  {
    SumsAgree(kept);
  }

  lemma ImbalanceIsFeature(levels: seq<Quote>)
    requires ValidBody(BookBody(levels)) && BookFeatures(levels).Some?
    ensures Imbalance(levels) == BookFeatures(levels).value.l5Imbalance
  {
  }

  /** The aggregates of a new book's row are those of the retained window. */
  lemma RowOfBook(c: Config, m: Meta, base: seq<Observation>, book: Observation)
    requires book.BookEvent?
    ensures var events := base + [book];
      && Known(c, m, events, |base|).trades == Total(TradesOf(Window(base, book.timeNs, c.windowNs)))
      && Known(c, m, events, |base|).values == book.values
  {
    hide Total, TradesOf;
    assert (base + [book])[..|base|] == base;
    CopiesAreDistinct(base);
    SinceOfTrades(FirstCopies(base), book.timeNs - c.windowNs);
  }

  /**
   At every book, with no late repeat before it, the online signal is its weights applied to the L5 imbalance and
   the signed-notional ratio of the row the feature builder makes of that book.
   */
  lemma SignalIsFeatures(xs: seq<Item>, n: nat, c: Config, sc: SignalConfig)
    requires RecorderStream(xs) && ValidItems(xs) && n < |xs| && xs[n].body.BookBody?
    requires c.windowNs == sc.windowNs > 0
    requires forall i :: 0 <= i <= n ==> !LateRepeat(xs, i, sc.windowNs)
    ensures var events := EventsAfter(xs, n + 1);
      && events != [] && events[|events| - 1].BookEvent? && StreamAfter(xs, n + 1).open.Some?
      && var row := Known(c, StreamAfter(xs, n + 1).open.value.meta, events, |events| - 1);
         var shot := Emit(sc, SignalMemory(xs, n + 1, sc.windowNs), xs[n].body.levels);
         && shot.imbalance == row.values.l5Imbalance && shot.flow == NotionalRatio(row.trades)
         && shot.signal == Blend(sc.weights, row.values.l5Imbalance, NotionalRatio(row.trades))
  {
    hide EventsAfter, StreamAfter, Known, LateRepeat, Blend, NotionalRatio, Flow, Imbalance, BookFeatures, Window, Cut;
    var x, base := xs[n], Base(xs, n);
    SameUpTo(xs, n + 1, sc.windowNs);
    EventsStep(xs, n);
    var book := ObservedAs(StreamAfter(xs, n), x);
    WindowGrows(base, book, x.timeNs, sc.windowNs);
    var window := Window(base, x.timeNs, sc.windowNs);
    assert window + [] == window;
    RowOfBook(c, StreamAfter(xs, n + 1).open.value.meta, base, book);
    BaseSound(xs, n, sc.windowNs);
    FlowIsRatio(window);
    ImbalanceIsFeature(x.body.levels);
  }

  function TradeRecord(id: string, timeNs: int, ordinal: int): Item {
    Archived(None, Some("capture"), Some("connection"), "KRW-BTC", "local", timeNs, Some(ordinal),
             TradeBody(id, true, 1.0, 1.0))
  }

  /** The same trade once more after its first copy left the window: the signal counts it again, the builder
      does not. */
  lemma ForgottenId(windowNs: int)
    requires windowNs > 0
    ensures var xs := [TradeRecord("t", 0, 1), TradeRecord("t", windowNs + 1, 2)];
      && RecorderStream(xs) && ValidItems(xs) && LateRepeat(xs, 1, windowNs)
      && exists n :: 0 < n <= 2 && !SameWindow(xs, n, windowNs)
  {
    var first := TradeRecord("t", 0, 1);
    var xs := [first, TradeRecord("t", windowNs + 1, 2)];
    assert Adjacent(xs, 1);
    EventsStep(xs, 0);
    var e := ObservedAs(StreamAfter(xs, 0), first);
    assert EventsAfter(xs, 1) == [e];
    OneCopy(e, windowNs + 1, windowNs);
    assert LateRepeat(xs, 1, windowNs);
    WindowsAgree(xs, windowNs);
    assert !forall n :: 0 < n <= |xs| ==> SameWindow(xs, n, windowNs);
  }

  lemma OneCopy(e: Observation, now: int, windowNs: int)
    requires e.TradeEvent? && e.trade.timeNs < now - windowNs
    ensures Ids([e]) == {e.id} && Window([e], now, windowNs) == []
  {
    var k := Kept(e.id, e.trade);
    assert [e][..0] == [] && FirstCopies([]) == [] && FirstCopies([e]) == [] + [k] == [k];
    assert [k][..0] == [] && KeptSince([], now - windowNs) == [];
  }
}
