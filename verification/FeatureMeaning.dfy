/**
 What the rows of an archive say, read off the archive itself: segments are the maximal unbroken stretches of records,
 a row is its book, its trade sums are those of the trades shortly before it, and its labels are the first later book
 of its stretch to reach the horizon.
 */
module FeatureMeaning {
  import opened Envelopes
  import opened FeatureSpec

  // ---------------------------------------------------------------- one book, one trade

  /** The price between the best two that weighs each by the size on the other side. */
  predicate IsMicroprice(m: real, q: Quote) {
    var mid := (q.askPrice + q.bidPrice) / 2.0;
    && q.bidPrice <= m <= q.askPrice && (m - q.bidPrice) * q.askSize == (q.askPrice - m) * q.bidSize
    && (m > mid <==> q.bidSize > q.askSize) && (m < mid <==> q.bidSize < q.askSize)
  }

  predicate DescribesBest(v: BookValues, best: Quote) {
    && v.askPrice == best.askPrice && v.askSize == best.askSize
    && v.bidPrice == best.bidPrice && v.bidSize == best.bidSize
    && v.bidPrice < v.mid < v.askPrice && v.mid - v.bidPrice == v.askPrice - v.mid
    && v.spread == v.askPrice - v.bidPrice
    && IsMicroprice(v.microprice, best)
  }

  /** The share by which `bid` outweighs `ask`. */
  predicate IsImbalance(i: real, bid: real, ask: real) {
    && -1.0 <= i <= 1.0 && (i > 0.0 <==> bid > ask) && (i < 0.0 <==> bid < ask)
    && i * (bid + ask) == bid - ask
  }

  lemma SizesAreNotNegative(levels: seq<Quote>)
    requires forall i :: 0 <= i < |levels| ==> levels[i].bidSize >= 0.0 && levels[i].askSize >= 0.0
    ensures BidSize(levels) >= 0.0 && AskSize(levels) >= 0.0
  {
    if levels != [] { SizesAreNotNegative(levels[1..]); }
  }

  /** The sign of a product by a positive number. */
  lemma SignOfProduct(x: real, w: real)
    requires w > 0.0
    ensures (x * w > 0.0 <==> x > 0.0) && (x * w < 0.0 <==> x < 0.0)
  {
  }

  lemma SameSign(x: real, w: real, y: real, g: real)
    requires w > 0.0 && g > 0.0 && x * w == y * g
    ensures (x > 0.0 <==> y > 0.0) && (x < 0.0 <==> y < 0.0)
  {
    SignOfProduct(x, w);
    SignOfProduct(y, g);
  }

  lemma RatioIsImbalance(bid: real, ask: real)
    requires bid >= 0.0 && ask >= 0.0 && bid + ask > 0.0
    ensures IsImbalance(Ratio(bid - ask, bid + ask), bid, ask)
  {
    var whole, i := bid + ask, (bid - ask) / (bid + ask);
    assert i * whole == bid - ask;
    assert (1.0 - i) * whole == 2.0 * ask && (1.0 + i) * whole == 2.0 * bid;
    SameSign(i, whole, bid - ask, 1.0);
    SameSign(1.0 - i, whole, ask, 2.0);
    SameSign(1.0 + i, whole, bid, 2.0);
  }

  lemma MicropriceBetween(q: Quote)
    requires q.bidPrice < q.askPrice && q.askSize >= 0.0 && q.bidSize >= 0.0 && q.bidSize + q.askSize > 0.0
    ensures IsMicroprice(Microprice(q), q)
  {
    var ask, askSize, bid, bidSize := q.askPrice, q.askSize, q.bidPrice, q.bidSize;
    var w, gap := bidSize + askSize, ask - bid;
    var m, mid := (ask * bidSize + bid * askSize) / w, (ask + bid) / 2.0;
    assert Microprice(q) == m;
    assert m * w == ask * bidSize + bid * askSize;
    assert (m - bid) * w == gap * bidSize && (ask - m) * w == gap * askSize;
    assert (m - mid) * w == (bidSize - askSize) * (gap / 2.0);
    SameSign(m - bid, w, bidSize, gap);
    SameSign(ask - m, w, askSize, gap);
    SameSign(m - mid, w, bidSize - askSize, gap / 2.0);
    Balance(m - bid, ask - m, askSize, bidSize, w, gap);
  }

  lemma Balance(below: real, above: real, askSize: real, bidSize: real, w: real, gap: real)
    requires w > 0.0 && below * w == gap * bidSize && above * w == gap * askSize
    ensures below * askSize == above * bidSize
  {
    var d := below * askSize - above * bidSize;
    assert d * w == (below * w) * askSize - (above * w) * bidSize;
    assert (gap * bidSize) * askSize == (gap * askSize) * bidSize;
    assert d * w == 0.0;
    SignOfProduct(d, w);
  }

  /** What a valid book's features say of its levels. */
  lemma BookMeaning(levels: seq<Quote>)
    requires ValidBody(BookBody(levels))
    ensures BookFeatures(levels).Some? ==> levels[0].bidPrice < levels[0].askPrice
    ensures BookFeatures(levels).Some? ==>
      var v := BookFeatures(levels).value;
      && DescribesBest(v, levels[0]) && IsImbalance(v.l1Imbalance, levels[0].bidSize, levels[0].askSize)
      && IsImbalance(v.l5Imbalance, BidSize(Top(levels)), AskSize(Top(levels)))
      && v.depthUsed == (if |levels| < 5 then |levels| else 5)
  {
    hide Ratio, Microprice, IsImbalance, IsMicroprice;
    if BookFeatures(levels).Some? {
      var best := levels[0];
      SizesAreNotNegative(Top(levels));
      RatioIsImbalance(best.bidSize, best.askSize);
      RatioIsImbalance(BidSize(Top(levels)), AskSize(Top(levels)));
      MicropriceBetween(best);
    }
  }

  /** The displayed sizes add up, level by level from the worst. */
  lemma {:induction false} SizesAdd(levels: seq<Quote>, q: Quote)
    ensures BidSize(levels + [q]) == BidSize(levels) + q.bidSize && AskSize(levels + [q]) == AskSize(levels) + q.askSize
  {
    if levels == [] {
      assert [] + [q] == [q];
    } else {
      SizesAdd(levels[1..], q);
      assert (levels + [q])[1..] == levels[1..] + [q];
    }
  }

  // ---------------------------------------------------------------- segments

  predicate ValidEvent(x: Item)
    requires ValidItem(x)
  {
    x.Archived? && (x.body.TradeBody? || (x.body.BookBody? && BookFeatures(x.body.levels).Some?))
  }

  /** The last ordinal given in a stretch of records. */
  function LastOrdinal(items: seq<Item>, start: nat, end: nat): Option<int>
    requires start <= end <= |items|
    decreases end
  {
    if start == end then None
    else if items[end - 1].Archived? && items[end - 1].ordinal.Some? then items[end - 1].ordinal
    else LastOrdinal(items, start, end - 1)
  }

  /** Record `i` carries on a stretch that began at `from`, with these identifiers. */
  predicate Continues(items: seq<Item>, m: Meta, from: nat, i: nat)
    requires from <= i < |items| && ValidItems(items)
  {
    var x := items[i];
    && ValidEvent(x) && x.market == m.market && x.timeSource == m.timeSource
    && !Changed(m.capture, x.capture) && !Changed(m.connection, x.connection)
    && (i > from ==>
          && x.gapBefore.None? && items[i - 1].Archived? && items[i - 1].timeNs <= x.timeNs
          && (m.capture.Some? && x.ordinal.Some? && LastOrdinal(items, from, i).Some? ==>
                x.ordinal.value == LastOrdinal(items, from, i).value + 1))
  }

  /** What record `i` becomes inside its segment. */
  predicate Observed(x: Item, i: nat, e: Observation)
    requires ValidItem(x)
  {
    && x.Archived?
    && match e
    case BookEvent(arrival, timeNs, ordinal, values) =>
      && x.body.BookBody? && BookFeatures(x.body.levels) == Some(values)
      && arrival == i && timeNs == x.timeNs && ordinal == x.ordinal
    case TradeEvent(timeNs, id, trade) =>
      && x.body.TradeBody? && id == x.body.id && timeNs == trade.timeNs == x.timeNs
      && trade.sign == (if x.body.buy then 1 else -1)
      && trade.volume == x.body.volume && trade.notional == x.body.price * x.body.volume
  }

  /** A segment is an unbroken stretch of records, one observation each. */
  predicate Spans(items: seq<Item>, o: Open, from: nat, to: nat)
    requires ValidItems(items)
  {
    && from <= to <= |items| && |o.events| == to - from
    && (forall i :: from <= i < to ==> Continues(items, o.meta, from, i))
    && forall k :: 0 <= k < |o.events| ==> Observed(items[from + k], from + k, o.events[k])
  }

  /** What an open segment remembers of its last record. */
  predicate Follows(items: seq<Item>, m: Meta, start: nat, n: nat)
    requires start <= n <= |items|
  {
    && start < n && items[n - 1].Archived? && m.lastTimeNs == items[n - 1].timeNs
    && m.lastOrdinal == LastOrdinal(items, start, n)
  }

  /** Why it ends where it does: the record that follows shows it. */
  predicate Ends(items: seq<Item>, m: Meta, from: nat, to: nat, reason: Reason)
    requires from <= to <= |items| && ValidItems(items)
  {
    if reason.EndOfStream? then from < to == |items|
    else
      && to < |items|
      && var x := items[to];
      match reason
      case InvalidRecord => x.BadRecord?
      case MarkerSeen(name) => x == Marker(name)
      case GapBefore(r) => x.Archived? && x.gapBefore == Some(r) && from < to
      case CaptureChanged => x.Archived? && Changed(m.capture, x.capture)
      case ConnectionChanged => x.Archived? && Changed(m.connection, x.connection)
      case MarketChanged => x.Archived? && x.market != m.market
      case TimeSourceChanged => x.Archived? && x.timeSource != m.timeSource
      case OrdinalDiscontinuity =>
        && x.Archived? && m.capture.Some? && x.ordinal.Some? && LastOrdinal(items, from, to).Some?
        && x.ordinal.value != LastOrdinal(items, from, to).value + 1
      case TimeRegression => x.Archived? && from < to && items[to - 1].Archived? && x.timeNs < items[to - 1].timeNs
      case InvalidEvent => x.Archived? && !ValidEvent(x)
      case EndOfStream => false
  }

  /** Whatever ends a segment could not have carried it on: segments are as long as they can be. */
  lemma EndsForGood(items: seq<Item>, m: Meta, from: nat, to: nat, reason: Reason)
    requires from <= to < |items| && ValidItems(items) && Ends(items, m, from, to, reason)
    ensures !Continues(items, m, from, to)
  {
    assert LastOrdinal(items, from, from).None?;
  }

  datatype Span = Span(from: nat, to: nat)

  predicate ClosedCut(items: seq<Item>, closed: seq<Segment>, spans: seq<Span>)
    requires ValidItems(items)
  {
    && |spans| == |closed|
    && forall i :: 0 <= i < |spans| ==>
         && Spans(items, closed[i].open, spans[i].from, spans[i].to)
         && Ends(items, closed[i].open.meta, spans[i].from, spans[i].to, closed[i].reason)
         && (closed[i].reason.EndOfStream? ==> Follows(items, closed[i].open.meta, spans[i].from, spans[i].to))
  }

  /** The segments of a stream that has read `n` records, each with its stretch. */
  predicate Cut(items: seq<Item>, n: nat, s: Stream, spans: seq<Span>, start: nat)
    requires ValidItems(items) && n <= |items|
  {
    && ClosedCut(items, s.closed, spans)
    && (s.open.Some? ==>
          start < n && Spans(items, s.open.value, start, n) && Follows(items, s.open.value.meta, start, n))
  }

  lemma CloseCuts(items: seq<Item>, n: nat, s: Stream, reason: Reason, spans: seq<Span>, start: nat)
    returns (after: seq<Span>)
    requires ValidItems(items) && n <= |items| && ClosedCut(items, s.closed, spans)
    requires s.open.Some? ==>
      && start <= n && Spans(items, s.open.value, start, n) && Ends(items, s.open.value.meta, start, n, reason)
      && (reason.EndOfStream? ==> Follows(items, s.open.value.meta, start, n))
    ensures ClosedCut(items, Close(s, reason).closed, after) && spans <= after
    ensures s.open.None? ==> after == spans
  {
    hide Spans, Ends;
    after := if s.open.Some? then spans + [Span(start, n)] else spans;
  }

  predicate SameIdentity(a: Meta, b: Meta) {
    a.market == b.market && a.timeSource == b.timeSource && a.capture == b.capture && a.connection == b.connection
  }

  lemma SpansByIdentity(items: seq<Item>, o: Open, m: Meta, from: nat, to: nat)
    requires ValidItems(items) && Spans(items, o, from, to) && SameIdentity(o.meta, m)
    ensures Spans(items, o.(meta := m), from, to)
  {
    hide LastOrdinal, ValidEvent;
    forall i | from <= i < to ensures Continues(items, m, from, i) {
      assert Continues(items, o.meta, from, i);
    }
  }

  /** The segment the event belongs to, whether or not its body turns out valid. */
  lemma PlacedCuts(items: seq<Item>, n: nat, s: Stream, spans: seq<Span>, start: nat)
    returns (after: seq<Span>, from: nat)
    requires ValidItems(items) && n < |items| && Cut(items, n, s, spans, start)
    requires items[n].Archived? && (s.open.Some? ==> items[n].gapBefore.None?)
    ensures var t := Placed(s, items[n]);
      && ClosedCut(items, t.closed, after) && from <= n && Spans(items, t.open.value, from, n)
      && Follows(items, t.open.value.meta, from, n + 1)
      && (ValidEvent(items[n]) ==> Continues(items, t.open.value.meta, from, n))
  {
    hide Spans, ValidEvent;
    var x := items[n];
    var capture, connection := CaptureFor(s, x), ConnectionFor(s, x);
    var boundary := if s.open.Some? then Boundary(s.open.value.meta, capture, connection, x) else None;
    if s.open.Some? && boundary.None? {
      after, from := spans, start;
      SpansByIdentity(items, s.open.value, Continued(s.open.value.meta, x), start, n);
    } else {
      after := spans;
      from := n;
      if boundary.Some? { after := CloseCuts(items, n, s, boundary.value, spans, start); }
      assert Spans(items, Placed(s, x).open.value, n, n) by { NothingSpans(items, Placed(s, x).open.value, n); }
      assert LastOrdinal(items, n, n).None?;
    }
  }

  lemma NothingSpans(items: seq<Item>, o: Open, n: nat)
    requires ValidItems(items) && n <= |items| && o.events == []
    ensures Spans(items, o, n, n)
  {
  }

  /** A valid event adds one observation to the stretch. */
  lemma AppendSpans(items: seq<Item>, n: nat, o: Open, start: nat, e: Observation)
    requires ValidItems(items) && start <= n < |items| && Spans(items, o, start, n)
    requires Continues(items, o.meta, start, n) && Observed(items[n], n, e)
    ensures Spans(items, o.(events := o.events + [e]), start, n + 1)
  {
    hide Continues, Observed;
    var grown := o.(events := o.events + [e]);
    forall k | 0 <= k < |grown.events| ensures Observed(items[start + k], start + k, grown.events[k]) {
    }
    forall i | start <= i < n + 1 ensures Continues(items, grown.meta, start, i) {
    }
  }

  lemma EventCuts(items: seq<Item>, n: nat, s: Stream, spans: seq<Span>, start: nat)
    returns (after: seq<Span>, from: nat)
    requires ValidItems(items) && n < |items| && Cut(items, n, s, spans, start) && s.arrival == n + 1
    requires items[n].Archived? && (s.open.Some? ==> items[n].gapBefore.None?)
    ensures Cut(items, n + 1, ReadEvent(s, items[n]), after, from)
  {
    hide Spans, Continues, Placed;
    var x := items[n];
    if x.body.InvalidBody? {
      after := CloseCuts(items, n, s, InvalidEvent, spans, start);
      from := start;
    } else {
      after, from := PlacedCuts(items, n, s, spans, start);
      var t := Placed(s, x);
      match x.body
      case TradeBody(id, _, _, _) =>
        AppendSpans(items, n, t.open.value, from, TradeEvent(x.timeNs, id, TradeOf(x)));
      case BookBody(levels) =>
        if BookFeatures(levels).None? {
          after := CloseCuts(items, n, t, InvalidEvent, after, from);
        } else {
          AppendSpans(items, n, t.open.value, from, BookEvent(n, x.timeNs, x.ordinal, BookFeatures(levels).value));
        }
    }
  }

  lemma ReadCuts(items: seq<Item>, n: nat, s: Stream, spans: seq<Span>, start: nat)
    returns (after: seq<Span>, from: nat)
    requires ValidItems(items) && n < |items| && Cut(items, n, s, spans, start) && s.arrival == n
    ensures Cut(items, n + 1, Read(s, items[n]), after, from)
  {
    hide Spans, ReadEvent;
    var next := s.(arrival := s.arrival + 1);
    match items[n]
    case BadRecord =>
      after := CloseCuts(items, n, next, InvalidRecord, spans, start);
      from := start;
    case Marker(name) =>
      after := CloseCuts(items, n, next, MarkerSeen(name), spans, start);
      from := start;
    case Archived(gapBefore, _, _, _, _, _, _, _) =>
      after := spans;
      if gapBefore.Some? { after := CloseCuts(items, n, next, GapBefore(gapBefore.value), spans, start); }
      after, from := EventCuts(items, n, AfterGap(next, items[n]), after, start);
  }

  lemma {:induction false} ReadAllCuts(items: seq<Item>, n: nat) returns (spans: seq<Span>, start: nat)
    requires ValidItems(items) && n <= |items|
    ensures Cut(items, n, ReadAll(items[..n]), spans, start)
  {
    hide Cut, Read;
    if n == 0 {
      spans, start := [], 0;
      assert Cut(items, 0, START, [], 0) by { StartCuts(items); }
    } else {
      spans, start := ReadAllCuts(items, n - 1);
      ReadAllArrivals(items[..n - 1]);
      assert items[..n][..n - 1] == items[..n - 1];
      spans, start := ReadCuts(items, n - 1, ReadAll(items[..n - 1]), spans, start);
    }
  }

  lemma StartCuts(items: seq<Item>)
    requires ValidItems(items)
    ensures Cut(items, 0, START, [], 0)
  {
  }

  /** Every segment is an unbroken stretch of the archive that ends for the reason it gives. */
  lemma SegmentsAreStretches(items: seq<Item>) returns (spans: seq<Span>)
    requires ValidItems(items)
    ensures ClosedCut(items, Segments(items), spans)
  {
    hide Spans;
    var start;
    spans, start := ReadAllCuts(items, |items|);
    assert items[..|items|] == items;
    spans := CloseCuts(items, |items|, ReadAll(items), EndOfStream, spans, start);
  }

  // ---------------------------------------------------------------- the trades of a row

  /** A trade whose identifier no earlier record of the stretch carries. */
  predicate IsFresh(items: seq<Item>, from: nat, i: nat)
    requires from <= i < |items|
  {
    && items[i].Archived? && items[i].body.TradeBody?
    && forall l :: from <= l < i ==> !SameTrade(items[l], items[i].body.id)
  }

  predicate SameTrade(x: Item, id: string) {
    x.Archived? && x.body.TradeBody? && x.body.id == id
  }

  /** The records in `[from, end)` that are first copies of trades at or after `cutoff`. */
  function Recent(items: seq<Item>, from: nat, end: nat, cutoff: int): (at: seq<nat>)
    requires from <= end <= |items|
    ensures forall q :: 0 <= q < |at| ==>
      from <= at[q] < end && IsFresh(items, from, at[q]) && items[at[q]].timeNs >= cutoff
    decreases end
  {
    if from == end then []
    else
      Recent(items, from, end - 1, cutoff)
      + if IsFresh(items, from, end - 1) && items[end - 1].timeNs >= cutoff then [end - 1] else []
  }

  predicate AreTrades(items: seq<Item>, at: seq<nat>) {
    forall q :: 0 <= q < |at| ==> at[q] < |items| && items[at[q]].Archived? && items[at[q]].body.TradeBody?
  }

  function Number(items: seq<Item>, at: seq<nat>, buy: bool): nat
    requires AreTrades(items, at)
  {
    if at == [] then 0 else (if items[at[0]].body.buy == buy then 1 else 0) + Number(items, at[1..], buy)
  }

  function Volume(items: seq<Item>, at: seq<nat>, buy: bool): real
    requires AreTrades(items, at)
  {
    if at == [] then 0.0
    else (if items[at[0]].body.buy == buy then items[at[0]].body.volume else 0.0) + Volume(items, at[1..], buy)
  }

  function Worth(b: Body): real
    requires b.TradeBody?
  {
    b.price * b.volume
  }

  function Notional(items: seq<Item>, at: seq<nat>, buy: bool): real
    requires AreTrades(items, at)
  {
    if at == [] then 0.0
    else (if items[at[0]].body.buy == buy then Worth(items[at[0]].body) else 0.0) + Notional(items, at[1..], buy)
  }

  /** Buys count for, sells against. */
  predicate Sums(items: seq<Item>, at: seq<nat>, a: Aggregate)
    requires AreTrades(items, at)
  {
    && a.count == |at| == Number(items, at, true) + Number(items, at, false)
    && a.signedCount == Number(items, at, true) - Number(items, at, false)
    && a.volume == Volume(items, at, true) + Volume(items, at, false)
    && a.signedVolume == Volume(items, at, true) - Volume(items, at, false)
    && a.notional == Notional(items, at, true) + Notional(items, at, false)
    && a.signedNotional == Notional(items, at, true) - Notional(items, at, false)
  }

  predicate IsTrade(x: Item, t: Trade)
    requires x.Archived? && x.body.TradeBody?
  {
    && t.timeNs == x.timeNs && t.sign == (if x.body.buy then 1 else -1)
    && t.volume == x.body.volume && t.notional == Worth(x.body)
  }

  predicate AreThese(items: seq<Item>, at: seq<nat>, trades: seq<Trade>) {
    AreTrades(items, at) && |at| == |trades| && forall q :: 0 <= q < |at| ==> IsTrade(items[at[q]], trades[q])
  }

  lemma {:induction false} LastSums(items: seq<Item>, at: seq<nat>, i: nat, buy: bool)
    requires AreTrades(items, at + [i])
    ensures AreTrades(items, at)
    ensures var x := (at + [i])[|at|];
      var counts := items[x].body.buy == buy;
      && Number(items, at + [i], buy) == Number(items, at, buy) + (if counts then 1 else 0)
      && Volume(items, at + [i], buy) == Volume(items, at, buy) + (if counts then items[x].body.volume else 0.0)
      && Notional(items, at + [i], buy) == Notional(items, at, buy) + (if counts then Worth(items[x].body) else 0.0)
  {
    hide Worth;
    assert forall q :: 0 <= q < |at| ==> at[q] == (at + [i])[q];
    if at != [] {
      assert (at + [i])[1..] == at[1..] + [i];
      LastSums(items, at[1..], i, buy);
    }
  }

  lemma {:induction false} TotalSums(items: seq<Item>, at: seq<nat>, trades: seq<Trade>)
    requires AreThese(items, at, trades)
    ensures Sums(items, at, Total(trades))
    decreases |at|
  {
    hide Worth;
    if at != [] {
      var n := |at| - 1;
      assert at == at[..n] + [at[n]];
      LastSums(items, at[..n], at[n], true);
      LastSums(items, at[..n], at[n], false);
      TotalSums(items, at[..n], trades[..n]);
    }
  }

  predicate Reads(items: seq<Item>, events: seq<Observation>, from: nat)
    requires ValidItems(items)
  {
    && from + |events| <= |items|
    && forall k :: 0 <= k < |events| ==> Observed(items[from + k], from + k, events[k])
  }

  lemma {:induction false} IdsSeen(items: seq<Item>, events: seq<Observation>, from: nat, id: string)
    requires ValidItems(items) && Reads(items, events, from)
    ensures id in Ids(events) <==> exists l :: from <= l < from + |events| && SameTrade(items[l], id)
    decreases |events|
  {
    if events != [] {
      var n := |events| - 1;
      IdsSeen(items, events[..n], from, id);
      assert Observed(items[from + n], from + n, events[n]);
      assert events[n].TradeEvent? && events[n].id == id <==> SameTrade(items[from + n], id);
    }
  }

  lemma TheseAndOne(items: seq<Item>, at: seq<nat>, trades: seq<Trade>, i: nat, t: Trade)
    requires AreThese(items, at, trades) && i < |items| && items[i].Archived? && items[i].body.TradeBody?
    requires IsTrade(items[i], t)
    ensures AreThese(items, at + [i], trades + [t])
  {
    hide IsTrade;
  }

  lemma NoTrades(items: seq<Item>)
    ensures AreThese(items, [], [])
  {
  }

  lemma SinceLast(trades: seq<Trade>, t: Trade, cutoff: int)
    ensures Since(trades + [t], cutoff) == Since(trades, cutoff) + if t.timeNs >= cutoff then [t] else []
  {
    assert (trades + [t])[..|trades|] == trades;
  }

  lemma LastReads(items: seq<Item>, events: seq<Observation>, from: nat)
    requires ValidItems(items) && Reads(items, events, from) && events != []
    ensures var n := |events| - 1;
      && from + n < |items| && Reads(items, events[..n], from) && items[from + n].Archived?
      && (IsFresh(items, from, from + n) <==> events[n].TradeEvent? && events[n].id !in Ids(events[..n]))
      && (events[n].TradeEvent? ==> items[from + n].body.TradeBody? && IsTrade(items[from + n], events[n].trade))
      && (events[n].TradeEvent? ==> events[n].trade.timeNs == items[from + n].timeNs)
  {
    hide Ids;
    var n := |events| - 1;
    assert Observed(items[from + n], from + n, events[n]);
    if events[n].TradeEvent? { IdsSeen(items, events[..n], from, events[n].id); }
  }

  lemma DistinctLast(events: seq<Observation>)
    requires events != []
    ensures var n := |events| - 1;
      var e := events[n];
      Distinct(events) == Distinct(events[..n]) + if e.TradeEvent? && e.id !in Ids(events[..n]) then [e.trade] else []
  {
  }

  lemma RecentLast(items: seq<Item>, from: nat, n: nat, cutoff: int)
    requires from + n < |items|
    ensures Recent(items, from, from + n + 1, cutoff) == Recent(items, from, from + n, cutoff)
      + if IsFresh(items, from, from + n) && items[from + n].timeNs >= cutoff then [from + n] else []
  {
  }

  lemma WindowStep(items: seq<Item>, at: seq<nat>, before: seq<Trade>, i: nat, e: Observation, first: bool, cutoff: int)
    requires AreThese(items, at, Since(before, cutoff)) && i < |items| && items[i].Archived?
    requires first ==>
      && e.TradeEvent? && items[i].body.TradeBody? && IsTrade(items[i], e.trade)
      && e.trade.timeNs == items[i].timeNs
    ensures AreThese(items, at + if first && items[i].timeNs >= cutoff then [i] else [],
                     Since(before + if first then [e.trade] else [], cutoff))
  {
    hide Since, AreThese, IsTrade;
    var kept := Since(before, cutoff);
    assert at + [] == at && before + [] == before && kept + [] == kept;
    if first {
      SinceLast(before, e.trade, cutoff);
      if e.trade.timeNs >= cutoff { TheseAndOne(items, at, kept, i, e.trade); }
    }
  }

  /** The builder's window holds the trades the archive shows. */
  lemma {:induction false} WindowReads(items: seq<Item>, events: seq<Observation>, from: nat, cutoff: int)
    requires ValidItems(items) && Reads(items, events, from)
    ensures AreThese(items, Recent(items, from, from + |events|, cutoff), Since(Distinct(events), cutoff))
    decreases |events|
  {
    if events == [] {
      assert AreThese(items, [], []) by { NoTrades(items); }
    } else {
      hide Ids, Distinct, Since, Recent, AreThese, IsFresh, Reads, IsTrade;
      var n := |events| - 1;
      var first := IsFresh(items, from, from + n);
      LastReads(items, events, from);
      WindowReads(items, events[..n], from, cutoff);
      RecentLast(items, from, n, cutoff);
      DistinctLast(events);
      WindowStep(items, Recent(items, from, from + n, cutoff), Distinct(events[..n]), from + n, events[n], first,
                 cutoff);
    }
  }

  // ---------------------------------------------------------------- the labels of a row

  predicate ShowsBook(x: Item, target: int) {
    x.Archived? && x.body.BookBody? && x.timeNs >= target
  }

  /** Record `j` is the first book after `i` that is not before `target`. */
  predicate FirstReach(items: seq<Item>, i: nat, j: nat, target: int) {
    i < j < |items| && ShowsBook(items[j], target) && forall l :: i < l < j ==> !ShowsBook(items[l], target)
  }

  /** A future mid is that of record `j`'s best prices. */
  predicate IsMidOf(mid: real, x: Item) {
    && x.Archived? && x.body.BookBody? && x.body.levels != []
    && mid - x.body.levels[0].bidPrice == x.body.levels[0].askPrice - mid
  }

  predicate Grows(decision: real, gain: real, future: real) {
    decision * (1.0 + gain) == future
  }

  /** A boundary that came first keeps its reason; at the end of the archive it matters what the last record reached. */
  predicate UnreachedReads(items: seq<Item>, target: int, reason: Reason, why: Unlabelled) {
    if reason != EndOfStream then why == AtBoundary(reason)
    else
      && items != [] && items[|items| - 1].Archived?
      && why == (if items[|items| - 1].timeNs < target then BeforeHorizon else NoBookAfterHorizon)
  }

  /** What a label says of the archive: a price some later record showed, or why there is none. */
  predicate LabelReads(c: Config, items: seq<Item>, i: nat, mid: real, to: nat, reason: Reason, h: int, l: Label)
    requires i < to <= |items| && items[i].Archived?
  {
    var target := items[i].timeNs + h;
    match l
    case Resolved(futureReturn, futureMid, arrival, t) =>
      && arrival < to && FirstReach(items, i, arrival, target) && IsMidOf(futureMid, items[arrival])
      && t == items[arrival].timeNs <= target + c.overshootNs && Grows(mid, futureReturn, futureMid)
    case Invalid(why) =>
      if why.Overshoot? then
        exists j | i < j < to :: FirstReach(items, i, j, target) && items[j].timeNs > target + c.overshootNs
      else
        && (forall j :: i < j < to ==> !ShowsBook(items[j], target))
        && UnreachedReads(items, target, reason, why)
  }

  /** The identity a row shows, as a segment's. */
  function IdentityOf(row: Row): Meta {
    Meta(row.segment, row.capture, row.connection, row.market, row.timeSource, row.timeNs, row.ordinal)
  }

  /**
   What a row says, read off the archive: its book is record `arrival`, in the unbroken stretch `[from, to)`; its sums
   are those of the stretch's trades in the window; each horizon has a label, and each label is right.
   */
  predicate RowReads(c: Config, items: seq<Item>, row: Row, from: nat, to: nat, reason: Reason)
    requires ValidItems(items)
  {
    && from <= row.arrival < to <= |items|
    && (forall i :: from <= i < to ==> Continues(items, IdentityOf(row), from, i))
    && Ends(items, IdentityOf(row), from, to, reason)
    && var x := items[row.arrival];
    && x.Archived? && x.body.BookBody? && BookFeatures(x.body.levels) == Some(row.values)
    && row.timeNs == x.timeNs && row.ordinal == x.ordinal
    && Sums(items, Recent(items, from, row.arrival, row.timeNs - c.windowNs), row.trades)
    && row.labels.Keys == Horizons(c)
    && forall h :: h in row.labels ==> LabelReads(c, items, row.arrival, row.values.mid, to, reason, h, row.labels[h])
  }

  lemma {:induction false} FirstAtFinds(items: seq<Item>, events: seq<Observation>, from: nat, i: nat, j: nat,
      target: int)
    requires ValidItems(items) && Reads(items, events, from) && i < j <= |events|
    requires forall l :: from + i < l < from + j ==> !ShowsBook(items[l], target)
    ensures match FirstAt(events, j, target)
      case None => forall l :: from + i < l < from + |events| ==> !ShowsBook(items[l], target)
      case Some(k) => FirstReach(items, from + i, from + k, target)
    decreases |events| - j
  {
    hide BookFeatures;
    if j < |events| {
      assert Observed(items[from + j], from + j, events[j]);
      if !(events[j].BookEvent? && events[j].timeNs >= target) { FirstAtFinds(items, events, from, i, j + 1, target); }
    }
  }

  /** The return is what the decision's mid must grow by to become the future mid. */
  lemma ReturnGrows(future: real, decision: real)
    requires decision > 0.0
    ensures Grows(decision, Return(future, decision), future)
  {
    assert decision * (future / decision) == future;
  }

  lemma MidIsMid(x: Item)
    requires ValidItem(x) && x.Archived? && x.body.BookBody? && BookFeatures(x.body.levels).Some?
    ensures IsMidOf(BookFeatures(x.body.levels).value.mid, x)
  {
    BookMeaning(x.body.levels);
  }

  lemma ResolvedReads(c: Config, items: seq<Item>, decision: Observation, future: Observation, i: nat, j: nat, h: int)
    requires ValidItems(items) && i < |items| && j < |items| && decision.BookEvent? && future.BookEvent?
    requires Observed(items[i], i, decision) && Observed(items[j], j, future)
    ensures match LabelBy(c, decision, future, h)
      case Resolved(r, mid, arrival, t) =>
        && arrival == j && t == items[j].timeNs <= items[i].timeNs + h + c.overshootNs
        && IsMidOf(mid, items[j]) && Grows(decision.values.mid, r, mid)
      case Invalid(why) => why.Overshoot? && items[j].timeNs > items[i].timeNs + h + c.overshootNs
  {
    hide Return, BookFeatures, Grows, IsMidOf;
    assert ValidItem(items[i]) && ValidItem(items[j]);
    MidIsMid(items[j]);
    ReturnGrows(future.values.mid, decision.values.mid);
  }

  lemma UnreachedMeaning(items: seq<Item>, m: Meta, from: nat, to: nat, reason: Reason, target: int)
    requires ValidItems(items) && from < to <= |items| && Ends(items, m, from, to, reason)
    requires reason.EndOfStream? ==> Follows(items, m, from, to)
    ensures var l := Unreached(m.lastTimeNs, target, reason);
      l.Invalid? && !l.why.Overshoot? && UnreachedReads(items, target, reason, l.why)
  {
  }

  lemma LabelMeaning(c: Config, items: seq<Item>, s: Segment, from: nat, to: nat, k: nat, h: int)
    requires ValidItems(items) && Spans(items, s.open, from, to) && k < |s.open.events| && s.open.events[k].BookEvent?
    requires Ends(items, s.open.meta, from, to, s.reason)
    requires s.reason.EndOfStream? ==> Follows(items, s.open.meta, from, to)
    ensures items[from + k].Archived?
    ensures LabelReads(c, items, from + k, s.open.events[k].values.mid, to, s.reason, h, FinalLabel(c, s, k, h))
  {
    hide Return, BookFeatures, Grows, IsMidOf, Continues, Ends, FirstReach, UnreachedReads, Unreached, Follows;
    var events := s.open.events;
    assert Reads(items, events, from);
    assert Observed(items[from + k], from + k, events[k]);
    FirstAtFinds(items, events, from, k, k + 1, events[k].timeNs + h);
    match FirstAt(events, k + 1, events[k].timeNs + h)
    case None => UnreachedMeaning(items, s.open.meta, from, to, s.reason, events[k].timeNs + h);
    case Some(j) =>
      assert Observed(items[from + j], from + j, events[j]);
      ResolvedReads(c, items, events[k], events[j], from + k, from + j, h);
  }

  // ---------------------------------------------------------------- every row

  lemma EndsByIdentity(items: seq<Item>, m: Meta, n: Meta, from: nat, to: nat, reason: Reason)
    requires ValidItems(items) && from <= to <= |items| && Ends(items, m, from, to, reason) && SameIdentity(m, n)
    ensures Ends(items, n, from, to, reason)
  {
  }

  /** The identity and the sums of a segment's row. */
  lemma KnownReads(c: Config, items: seq<Item>, s: Segment, from: nat, to: nat, k: nat)
    requires ValidItems(items) && Spans(items, s.open, from, to) && k < |s.open.events| && s.open.events[k].BookEvent?
    ensures var row := RowOf(c, s, k);
      && row.arrival == from + k && SameIdentity(IdentityOf(row), s.open.meta)
      && row.values == s.open.events[k].values && items[from + k].Archived?
      && row.timeNs == items[from + k].timeNs && row.ordinal == items[from + k].ordinal
      && row.labels.Keys == Horizons(c) && (forall h :: h in Horizons(c) ==> row.labels[h] == FinalLabel(c, s, k, h))
      && Sums(items, Recent(items, from, row.arrival, row.timeNs - c.windowNs), row.trades)
  {
    hide Continues, BookFeatures, FinalLabel, Sums, Recent, Since, Distinct, Total;
    var events := s.open.events;
    assert Observed(items[from + k], from + k, events[k]);
    var cutoff := events[k].timeNs - c.windowNs;
    WindowReads(items, events[..k], from, cutoff);
    TotalSums(items, Recent(items, from, from + k, cutoff), Since(Distinct(events[..k]), cutoff));
  }

  lemma SegmentRowReads(c: Config, items: seq<Item>, s: Segment, from: nat, to: nat, k: nat)
    requires ValidItems(items) && Spans(items, s.open, from, to) && k < |s.open.events| && s.open.events[k].BookEvent?
    requires Ends(items, s.open.meta, from, to, s.reason)
    requires s.reason.EndOfStream? ==> Follows(items, s.open.meta, from, to)
    ensures RowReads(c, items, RowOf(c, s, k), from, to, s.reason)
  {
    hide Continues, BookFeatures, LabelReads, FinalLabel, Sums, Recent, Ends, Follows, RowOf;
    var events, row := s.open.events, RowOf(c, s, k);
    KnownReads(c, items, s, from, to, k);
    assert Observed(items[from + k], from + k, events[k]);
    EndsByIdentity(items, s.open.meta, IdentityOf(row), from, to, s.reason);
    SpansByIdentity(items, s.open, IdentityOf(row), from, to);
    assert forall i :: from <= i < to ==> Continues(items, s.open.(meta := IdentityOf(row)).meta, from, i);
    forall h | h in row.labels
      ensures LabelReads(c, items, row.arrival, row.values.mid, to, s.reason, h, row.labels[h])
    {
      LabelMeaning(c, items, s, from, to, k, h);
    }
  }

  lemma {:induction false} RowsComeFrom(c: Config, closed: seq<Segment>, r: nat) returns (i: nat, k: nat)
    requires r < |ClosedRows(c, closed)|
    ensures i < |closed| && k < |closed[i].open.events| && closed[i].open.events[k].BookEvent?
    ensures ClosedRows(c, closed)[r] == RowOf(c, closed[i], k)
    decreases |closed|
  {
    hide RowOf;
    var n := |closed| - 1;
    var before := ClosedRows(c, closed[..n]);
    if r < |before| {
      i, k := RowsComeFrom(c, closed[..n], r);
    } else {
      i, k := n, BookAt(closed[n].open.events)[r - |before|];
    }
  }

  /** Every row of an archive says what the archive shows, and no label looks across a boundary. */
  lemma RowMeaning(c: Config, items: seq<Item>, r: nat)
    requires ValidItems(items) && r < |AllRows(c, items)|
    ensures exists from, to, reason :: RowReads(c, items, AllRows(c, items)[r], from, to, reason)
  {
    hide Spans, Ends, Follows, RowReads, RowOf, Segments;
    var closed := Segments(items);
    var spans := SegmentsAreStretches(items);
    var i, k := RowsComeFrom(c, closed, r);
    SegmentRowReads(c, items, closed[i], spans[i].from, spans[i].to, k);
  }
}
