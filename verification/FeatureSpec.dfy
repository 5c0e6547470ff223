/**
 What the streaming feature builder must produce, naively: cut the archive into segments, and for every book of a
 segment recompute its trade aggregates and look up its labels over the whole segment.
 */
module FeatureSpec {
  import opened Envelopes

  // ---------------------------------------------------------------- the archive

  /** One displayed level: best first. */
  datatype Quote = Quote(askPrice: real, askSize: real, bidPrice: real, bidSize: real)

  datatype Body = BookBody(levels: seq<Quote>) | TradeBody(id: string, buy: bool, price: real, volume: real)
    | InvalidBody

  /** A parsed record; `gapBefore` carries its optional reason. */
  datatype Item =
    | BadRecord
    | Marker(name: string)
    | Archived(gapBefore: Option<Option<string>>, capture: Option<string>, connection: Option<string>,
               market: string, timeSource: string, timeNs: int, ordinal: Option<int>, body: Body)

  /** What event validation has already established about a body. */
  predicate ValidBody(b: Body) {
    match b
    case BookBody(levels) =>
      levels != [] && forall i :: 0 <= i < |levels| ==>
        levels[i].askPrice > 0.0 && levels[i].bidPrice > 0.0 && levels[i].askSize >= 0.0 && levels[i].bidSize >= 0.0
    case _ => true
  }

  predicate ValidItem(x: Item) { x.Archived? ==> ValidBody(x.body) }

  predicate ValidItems(xs: seq<Item>) { forall i :: 0 <= i < |xs| ==> ValidItem(xs[i]) }

  // ---------------------------------------------------------------- features of one book

  datatype BookValues = BookValues(
    askPrice: real, askSize: real, bidPrice: real, bidSize: real, mid: real, spread: real,
    microprice: real, l1Imbalance: real, l5Imbalance: real, depthUsed: nat)

  function BidSize(levels: seq<Quote>): real { if levels == [] then 0.0 else levels[0].bidSize + BidSize(levels[1..]) }
  function AskSize(levels: seq<Quote>): real { if levels == [] then 0.0 else levels[0].askSize + AskSize(levels[1..]) }

  function Top(levels: seq<Quote>): seq<Quote> { if |levels| <= 5 then levels else levels[..5] }

  function Ratio(part: real, whole: real): real { if whole == 0.0 then 0.0 else part / whole }

  /** The best prices, each weighted by the size on the other side. */
  function Microprice(q: Quote): real {
    Ratio(q.askPrice * q.bidSize + q.bidPrice * q.askSize, q.bidSize + q.askSize)
  }

  /** None when the book is crossed or shows nothing. */
  function BookFeatures(levels: seq<Quote>): (v: Option<BookValues>)
    requires ValidBody(BookBody(levels))
    ensures v.Some? ==> v.value.mid > 0.0
  {
    var best, top := levels[0], Top(levels);
    var l1, l5 := best.bidSize + best.askSize, BidSize(top) + AskSize(top);
    if best.askPrice - best.bidPrice <= 0.0 || l1 <= 0.0 || l5 <= 0.0 then None
    else
      var mid := (best.askPrice + best.bidPrice) / 2.0;
      Some(BookValues(
        best.askPrice, best.askSize, best.bidPrice, best.bidSize, mid, best.askPrice - best.bidPrice,
        Microprice(best), Ratio(best.bidSize - best.askSize, l1), Ratio(BidSize(top) - AskSize(top), l5), |top|))
  }

  // ---------------------------------------------------------------- segments

  datatype Reason =
    | InvalidRecord | MarkerSeen(name: string) | GapBefore(reason: Option<string>)
    | CaptureChanged | ConnectionChanged | MarketChanged | TimeSourceChanged | OrdinalDiscontinuity
    | TimeRegression | InvalidEvent | EndOfStream

  datatype Trade = Trade(timeNs: int, sign: int, volume: real, notional: real)

  datatype Observation =
    | BookEvent(arrival: nat, timeNs: int, ordinal: Option<int>, values: BookValues)
    | TradeEvent(timeNs: int, id: string, trade: Trade)

  datatype Meta = Meta(
    id: nat, capture: Option<string>, connection: Option<string>, market: string, timeSource: string,
    lastTimeNs: int, lastOrdinal: Option<int>)

  datatype Open = Open(meta: Meta, events: seq<Observation>)

  datatype Segment = Segment(open: Open, reason: Reason)

  /** The archive read so far: closed segments, the open one, records and segments counted. */
  datatype Stream = Stream(closed: seq<Segment>, open: Option<Open>, arrival: nat, count: nat)

  const START := Stream([], None, 0, 0)

  function Close(s: Stream, reason: Reason): (t: Stream)
    ensures t.arrival == s.arrival && t.count == s.count && t.open.None?
  {
    if s.open.None? then s else s.(closed := s.closed + [Segment(s.open.value, reason)], open := None)
  }

  predicate Changed(was: Option<string>, now: Option<string>) {
    was.Some? && now.Some? && was != now
  }

  function Boundary(m: Meta, capture: Option<string>, connection: Option<string>, x: Item): Option<Reason>
    requires x.Archived?
  {
    if Changed(m.capture, capture) then Some(CaptureChanged)
    else if Changed(m.connection, connection) then Some(ConnectionChanged)
    else if x.market != m.market then Some(MarketChanged)
    else if x.timeSource != m.timeSource then Some(TimeSourceChanged)
    else if capture.Some? && m.capture == capture && x.ordinal.Some? && m.lastOrdinal.Some?
            && x.ordinal.value != m.lastOrdinal.value + 1 then Some(OrdinalDiscontinuity)
    else if x.timeNs < m.lastTimeNs then Some(TimeRegression)
    else None
  }

  /** Identifiers a record leaves out are those of the open segment. */
  function Effective(own: Option<string>, open: Option<string>): Option<string> {
    if own.None? then open else own
  }

  function CaptureFor(s: Stream, x: Item): Option<string>
    requires x.Archived?
  {
    Effective(x.capture, if s.open.Some? then s.open.value.meta.capture else None)
  }

  function ConnectionFor(s: Stream, x: Item): Option<string>
    requires x.Archived?
  {
    Effective(x.connection, if s.open.Some? then s.open.value.meta.connection else None)
  }

  function NewMeta(id: nat, capture: Option<string>, connection: Option<string>, x: Item): Meta
    requires x.Archived?
  {
    Meta(id, capture, connection, x.market, x.timeSource, x.timeNs, x.ordinal)
  }

  function Continued(m: Meta, x: Item): Meta
    requires x.Archived?
  {
    m.(lastTimeNs := x.timeNs, lastOrdinal := if x.ordinal.Some? then x.ordinal else m.lastOrdinal)
  }

  /** The segment a valid event belongs to is open, with the event's time noted. */
  function Placed(s: Stream, x: Item): (t: Stream)
    requires x.Archived?
    ensures t.open.Some? && t.open.value.meta.lastTimeNs == x.timeNs && t.arrival == s.arrival
  {
    var capture, connection := CaptureFor(s, x), ConnectionFor(s, x);
    var boundary := if s.open.Some? then Boundary(s.open.value.meta, capture, connection, x) else None;
    var t := if boundary.Some? then Close(s, boundary.value) else s;
    if t.open.None? then t.(count := t.count + 1, open := Some(Open(NewMeta(t.count + 1, capture, connection, x), [])))
    else t.(open := Some(Open(Continued(t.open.value.meta, x), t.open.value.events)))
  }

  function Append(s: Stream, e: Observation): Stream
    requires s.open.Some?
  {
    s.(open := Some(s.open.value.(events := s.open.value.events + [e])))
  }

  function TradeOf(x: Item): Trade
    requires x.Archived? && x.body.TradeBody?
  {
    Trade(x.timeNs, if x.body.buy then 1 else -1, x.body.volume, x.body.price * x.body.volume)
  }

  /** An archived event once a gap before it has been dealt with. */
  function ReadEvent(s: Stream, x: Item): Stream
    requires x.Archived? && ValidBody(x.body) && s.arrival > 0
  {
    match x.body
    case InvalidBody => Close(s, InvalidEvent)
    case TradeBody(id, _, _, _) => Append(Placed(s, x), TradeEvent(x.timeNs, id, TradeOf(x)))
    case BookBody(levels) =>
      match BookFeatures(levels)
      case None => Close(Placed(s, x), InvalidEvent)
      case Some(v) => Append(Placed(s, x), BookEvent(s.arrival - 1, x.timeNs, x.ordinal, v))
  }

  function AfterGap(s: Stream, x: Item): (t: Stream)
    requires x.Archived?
    ensures t.arrival == s.arrival
  {
    if x.gapBefore.Some? then Close(s, GapBefore(x.gapBefore.value)) else s
  }

  function Read(s: Stream, x: Item): Stream
    requires ValidItem(x)
  {
    var s := s.(arrival := s.arrival + 1);
    match x
    case BadRecord => Close(s, InvalidRecord)
    case Marker(name) => Close(s, MarkerSeen(name))
    case Archived(_, _, _, _, _, _, _, _) => ReadEvent(AfterGap(s, x), x)
  }

  function ReadAll(items: seq<Item>): Stream
    requires ValidItems(items)
    decreases |items|
  {
    if items == [] then START else Read(ReadAll(items[..|items| - 1]), items[|items| - 1])
  }

  /** The segments of a whole archive. */
  function Segments(items: seq<Item>): seq<Segment>
    requires ValidItems(items)
  {
    Close(ReadAll(items), EndOfStream).closed
  }

  // ---------------------------------------------------------------- trailing trades

  function Ids(events: seq<Observation>): set<string>
    decreases |events|
  {
    if events == [] then {}
    else
      var e := events[|events| - 1];
      Ids(events[..|events| - 1]) + if e.TradeEvent? then {e.id} else {}
  }

  /** First copies of the segment's trades, in order. */
  function Distinct(events: seq<Observation>): seq<Trade>
    decreases |events|
  {
    if events == [] then []
    else
      var before, e := events[..|events| - 1], events[|events| - 1];
      Distinct(before) + if e.TradeEvent? && e.id !in Ids(before) then [e.trade] else []
  }

  /** The trades at or after `from`. */
  function Since(trades: seq<Trade>, from: int): seq<Trade>
    decreases |trades|
  {
    if trades == [] then []
    else
      var n := |trades| - 1;
      Since(trades[..n], from) + if trades[n].timeNs >= from then [trades[n]] else []
  }

  datatype Aggregate = Aggregate(
    count: int, signedCount: int, volume: real, signedVolume: real, notional: real, signedNotional: real)

  const EMPTY := Aggregate(0, 0, 0.0, 0.0, 0.0, 0.0)

  function Signed(sign: int, x: real): real { if sign >= 0 then x else -x }

  function Add(a: Aggregate, t: Trade): Aggregate {
    Aggregate(a.count + 1, a.signedCount + t.sign, a.volume + t.volume, a.signedVolume + Signed(t.sign, t.volume),
              a.notional + t.notional, a.signedNotional + Signed(t.sign, t.notional))
  }

  function Total(trades: seq<Trade>): Aggregate
    decreases |trades|
  {
    if trades == [] then EMPTY else Add(Total(trades[..|trades| - 1]), trades[|trades| - 1])
  }

  // ---------------------------------------------------------------- labels and rows

  datatype Config = Config(windowNs: int, horizonsNs: seq<int>, overshootNs: int)

  predicate ValidConfig(c: Config) {
    && c.windowNs > 0 && c.horizonsNs != [] && c.overshootNs >= 0
    && (forall i :: 0 <= i < |c.horizonsNs| ==> c.horizonsNs[i] > 0)
    && forall i, j :: 0 <= i < j < |c.horizonsNs| ==> c.horizonsNs[i] != c.horizonsNs[j]
  }

  datatype Unlabelled = Overshoot | BeforeHorizon | NoBookAfterHorizon | AtBoundary(reason: Reason)

  datatype Label = Resolved(futureReturn: real, futureMid: real, futureArrival: nat, futureTimeNs: int)
    | Invalid(why: Unlabelled)

  datatype Row = Row(
    arrival: nat, segment: nat, capture: Option<string>, connection: Option<string>, market: string,
    ordinal: Option<int>,
    timeNs: int, timeSource: string, values: BookValues, trades: Aggregate, labels: map<int, Label>)

  /** The first book from position `j` on that is not before `target`. */
  function FirstAt(events: seq<Observation>, j: nat, target: int): (k: Option<nat>)
    requires j <= |events|
    ensures k.Some? ==> j <= k.value < |events| && events[k.value].BookEvent? && events[k.value].timeNs >= target
    decreases |events| - j
  {
    if j == |events| then None
    else if events[j].BookEvent? && events[j].timeNs >= target then Some(j)
    else FirstAt(events, j + 1, target)
  }

  function Return(future: real, decision: real): real {
    Ratio(future, decision) - 1.0
  }

  /** The label a book gives a decision it is the first to reach the horizon of. */
  function LabelBy(c: Config, decision: Observation, future: Observation, horizon: int): Label
    requires decision.BookEvent? && future.BookEvent?
  {
    if future.timeNs - (decision.timeNs + horizon) > c.overshootNs then Invalid(Overshoot)
    else Resolved(Return(future.values.mid, decision.values.mid), future.values.mid, future.arrival, future.timeNs)
  }

  function LabelFor(c: Config, events: seq<Observation>, k: nat, horizon: int): Option<Label>
    requires k < |events| && events[k].BookEvent?
  {
    match FirstAt(events, k + 1, events[k].timeNs + horizon)
    case None => None
    case Some(j) => Some(LabelBy(c, events[k], events[j], horizon))
  }

  function Unreached(lastTimeNs: int, target: int, reason: Reason): Label {
    Invalid(if !reason.EndOfStream? then AtBoundary(reason)
            else if lastTimeNs < target then BeforeHorizon
            else NoBookAfterHorizon)
  }

  /** A row without its labels: everything a decision knows. */
  function Known(c: Config, m: Meta, events: seq<Observation>, k: nat): Row
    requires k < |events| && events[k].BookEvent?
  {
    var b := events[k];
    Row(b.arrival, m.id, m.capture, m.connection, m.market, b.ordinal, b.timeNs, m.timeSource, b.values,
        Total(Since(Distinct(events[..k]), b.timeNs - c.windowNs)), map[])
  }

  function FinalLabel(c: Config, s: Segment, k: nat, horizon: int): Label
    requires k < |s.open.events| && s.open.events[k].BookEvent?
  {
    match LabelFor(c, s.open.events, k, horizon)
    case Some(l) => l
    case None => Unreached(s.open.meta.lastTimeNs, s.open.events[k].timeNs + horizon, s.reason)
  }

  function Horizons(c: Config): set<int> { set h | h in c.horizonsNs }

  function RowOf(c: Config, s: Segment, k: nat): Row
    requires k < |s.open.events| && s.open.events[k].BookEvent?
  {
    Known(c, s.open.meta, s.open.events, k).(labels := map h | h in Horizons(c) :: FinalLabel(c, s, k, h))
  }

  /** Positions of the books. */
  function BookAt(events: seq<Observation>): (at: seq<nat>)
    ensures forall r :: 0 <= r < |at| ==> at[r] < |events| && events[at[r]].BookEvent?
    decreases |events|
  {
    if events == [] then []
    else
      var n := |events| - 1;
      BookAt(events[..n]) + if events[n].BookEvent? then [n] else []
  }

  function SegmentRows(c: Config, s: Segment): (rows: seq<Row>)
    ensures |rows| == |BookAt(s.open.events)|
  {
    var at := BookAt(s.open.events);
    seq(|at|, r requires 0 <= r < |at| => RowOf(c, s, at[r]))
  }

  function ClosedRows(c: Config, closed: seq<Segment>): seq<Row>
    decreases |closed|
  {
    if closed == [] then [] else ClosedRows(c, closed[..|closed| - 1]) + SegmentRows(c, closed[|closed| - 1])
  }

  /** The naive result over a whole archive. */
  function AllRows(c: Config, items: seq<Item>): seq<Row>
    requires ValidItems(items)
  {
    ClosedRows(c, Segments(items))
  }

  // ---------------------------------------------------------------- one row per valid book, in arrival order

  predicate IsValidBook(x: Item)
    requires ValidItem(x)
  {
    x.Archived? && x.body.BookBody? && BookFeatures(x.body.levels).Some?
  }

  function ValidBooks(items: seq<Item>): seq<nat>
    requires ValidItems(items)
    decreases |items|
  {
    if items == [] then []
    else
      var n := |items| - 1;
      ValidBooks(items[..n]) + if IsValidBook(items[n]) then [n] else []
  }

  function EventArrivals(events: seq<Observation>): seq<nat>
    decreases |events|
  {
    if events == [] then []
    else
      var n := |events| - 1;
      EventArrivals(events[..n]) + if events[n].BookEvent? then [events[n].arrival] else []
  }

  function ClosedArrivals(closed: seq<Segment>): seq<nat>
    decreases |closed|
  {
    if closed == [] then []
      else ClosedArrivals(closed[..|closed| - 1]) + EventArrivals(closed[|closed| - 1].open.events)
  }

  function StreamArrivals(s: Stream): seq<nat> {
    ClosedArrivals(s.closed) + if s.open.Some? then EventArrivals(s.open.value.events) else []
  }

  lemma CloseKeepsArrivals(s: Stream, reason: Reason)
    ensures StreamArrivals(Close(s, reason)) == StreamArrivals(s)
  {
    if s.open.Some? {
      var closed := s.closed + [Segment(s.open.value, reason)];
      assert closed[..|s.closed|] == s.closed;
    }
  }

  lemma PlacedKeepsArrivals(s: Stream, x: Item)
    requires x.Archived?
    ensures StreamArrivals(Placed(s, x)) == StreamArrivals(s)
  {
    var capture, connection := CaptureFor(s, x), ConnectionFor(s, x);
    if s.open.Some? {
      var boundary := Boundary(s.open.value.meta, capture, connection, x);
      if boundary.Some? { CloseKeepsArrivals(s, boundary.value); }
    }
  }

  lemma AppendArrivals(s: Stream, e: Observation)
    requires s.open.Some?
    ensures StreamArrivals(Append(s, e)) == StreamArrivals(s) + if e.BookEvent? then [e.arrival] else []
  {
    var events := s.open.value.events;
    assert (events + [e])[..|events|] == events;
  }

  lemma EventArrives(s: Stream, x: Item)
    requires x.Archived? && ValidBody(x.body) && s.arrival > 0
    ensures StreamArrivals(ReadEvent(s, x)) == StreamArrivals(s) + if IsValidBook(x) then [s.arrival - 1] else []
    ensures ReadEvent(s, x).arrival == s.arrival
  {
    hide BookFeatures, StreamArrivals, Placed;
    PlacedKeepsArrivals(s, x);
    match x.body
    case InvalidBody => CloseKeepsArrivals(s, InvalidEvent);
    case TradeBody(id, _, _, _) => AppendArrivals(Placed(s, x), TradeEvent(x.timeNs, id, TradeOf(x)));
    case BookBody(levels) =>
      match BookFeatures(levels) {
        case None => CloseKeepsArrivals(Placed(s, x), InvalidEvent);
        case Some(v) => AppendArrivals(Placed(s, x), BookEvent(s.arrival - 1, x.timeNs, x.ordinal, v));
      }
  }

  lemma AfterGapKeepsArrivals(s: Stream, x: Item)
    requires x.Archived?
    ensures StreamArrivals(AfterGap(s, x)) == StreamArrivals(s)
  {
    hide StreamArrivals, Close;
    if x.gapBefore.Some? { CloseKeepsArrivals(s, GapBefore(x.gapBefore.value)); }
  }

  lemma NextKeepsArrivals(s: Stream)
    ensures StreamArrivals(s.(arrival := s.arrival + 1)) == StreamArrivals(s)
  {
  }

  lemma ReadArrivals(s: Stream, x: Item)
    requires ValidItem(x)
    ensures StreamArrivals(Read(s, x)) == StreamArrivals(s) + if IsValidBook(x) then [s.arrival] else []
    ensures Read(s, x).arrival == s.arrival + 1
  {
    hide BookFeatures, StreamArrivals, ReadEvent, AfterGap, Close;
    var next := s.(arrival := s.arrival + 1);
    NextKeepsArrivals(s);
    match x
    case BadRecord => CloseKeepsArrivals(next, InvalidRecord);
    case Marker(name) => CloseKeepsArrivals(next, MarkerSeen(name));
    case Archived(gapBefore, _, _, _, _, _, _, _) =>
      AfterGapKeepsArrivals(next, x);
      EventArrives(AfterGap(next, x), x);
  }

  lemma {:induction false} ReadAllArrivals(items: seq<Item>)
    requires ValidItems(items)
    ensures StreamArrivals(ReadAll(items)) == ValidBooks(items) && ReadAll(items).arrival == |items|
    decreases |items|
  {
    if items != [] {
      var n := |items| - 1;
      ReadAllArrivals(items[..n]);
      ReadArrivals(ReadAll(items[..n]), items[n]);
    }
  }

  function RowArrivals(rows: seq<Row>): (a: seq<nat>)
    ensures |a| == |rows| && forall i :: 0 <= i < |a| ==> a[i] == rows[i].arrival
  {
    seq(|rows|, i requires 0 <= i < |rows| => rows[i].arrival)
  }

  lemma {:induction false} BookArrivals(events: seq<Observation>)
    ensures var at := BookAt(events);
      |EventArrivals(events)| == |at| && forall r :: 0 <= r < |at| ==> EventArrivals(events)[r] == events[at[r]].arrival
    decreases |events|
  {
    if events != [] { BookArrivals(events[..|events| - 1]); }
  }

  lemma {:induction false} ClosedRowArrivals(c: Config, closed: seq<Segment>)
    ensures RowArrivals(ClosedRows(c, closed)) == ClosedArrivals(closed)
    decreases |closed|
  {
    if closed != [] {
      var n := |closed| - 1;
      ClosedRowArrivals(c, closed[..n]);
      BookArrivals(closed[n].open.events);
      assert RowArrivals(SegmentRows(c, closed[n])) == EventArrivals(closed[n].open.events);
      assert RowArrivals(ClosedRows(c, closed))
        == RowArrivals(ClosedRows(c, closed[..n])) + RowArrivals(SegmentRows(c, closed[n]));
    }
  }

  /** Every valid book has exactly one row, in arrival order. */
  lemma OneRowPerBook(c: Config, items: seq<Item>)
    requires ValidItems(items)
    ensures RowArrivals(AllRows(c, items)) == ValidBooks(items)
  {
    ReadAllArrivals(items);
    CloseKeepsArrivals(ReadAll(items), EndOfStream);
    ClosedRowArrivals(c, Segments(items));
  }
}
