/** Values shared by the archive recorder, its audit journal and the shadow consumer. */
module Envelopes {

  datatype Option<+T> = None | Some(value: T)

  /** The two event fields the audit layer looks at; the rest of the event is carried opaquely. */
  datatype Event = Event(eventType: string, market: string, body: int)

  datatype Envelope = Envelope(
    captureId: string, connectionId: string, ordinal: int,
    wallNs: string, monotonicNs: string, gapBefore: bool, event: Event)

  /** Position of one envelope in time, as manifests print it. */
  datatype Stamp = Stamp(ordinal: int, wallNs: string, monotonicNs: string)

  /** The running totals that a partition writer and a journal scan both keep. */
  datatype Totals = Totals(
    records: nat, first: Option<Stamp>, last: Option<Stamp>,
    connections: set<string>, gapCount: nat, eventCounts: map<string, nat>)

  /** A partition writer starts with both known event types already counted at zero. */
  const WRITER_START := Totals(0, None, None, {}, 0, map["orderbook" := 0, "trade" := 0])

  /** A journal scan starts with an empty table. */
  const SCAN_START := Totals(0, None, None, {}, 0, map[])

  function StampOf(e: Envelope): Stamp {
    Stamp(e.ordinal, e.wallNs, e.monotonicNs)
  }

  /** Number of events of one type; a type that was never counted reads as zero. */
  function CountOf(counts: map<string, nat>, eventType: string): nat {
    if eventType in counts then counts[eventType] else 0
  }

  function Observe(t: Totals, e: Envelope): Totals {
    Totals(
      t.records + 1,
      if t.records == 0 then Some(StampOf(e)) else t.first,
      Some(StampOf(e)),
      t.connections + {e.connectionId},
      if e.gapBefore then t.gapCount + 1 else t.gapCount,
      t.eventCounts[e.event.eventType := CountOf(t.eventCounts, e.event.eventType) + 1])
  }

  function ObserveAll(t: Totals, es: seq<Envelope>): Totals
    decreases |es|
  {
    if es == [] then t else Observe(ObserveAll(t, es[..|es| - 1]), es[|es| - 1])
  }

  /** Two totals say the same once missing event types are read as zero. */
  ghost predicate SameTotals(a: Totals, b: Totals) {
    && a.(eventCounts := map[]) == b.(eventCounts := map[])
    && forall k :: CountOf(a.eventCounts, k) == CountOf(b.eventCounts, k)
  }

  function CountGaps(es: seq<Envelope>): nat {
    if es == [] then 0 else CountGaps(es[..|es| - 1]) + if es[|es| - 1].gapBefore then 1 else 0
  }

  function CountType(es: seq<Envelope>, eventType: string): nat {
    if es == [] then 0
    else CountType(es[..|es| - 1], eventType) + if es[|es| - 1].event.eventType == eventType then 1 else 0
  }

  function ConnectionsIn(es: seq<Envelope>): set<string> {
    set e | e in es :: e.connectionId
  }

  lemma ConnectionsGrow(front: seq<Envelope>, e: Envelope)
    ensures ConnectionsIn(front + [e]) == ConnectionsIn(front) + {e.connectionId}
  {
    assert forall x :: x in front + [e] <==> x in front || x == e;
  }

  /** What the totals of `es` are, in terms of `es` alone. */
  ghost predicate Describes(r: Totals, es: seq<Envelope>) {
    && r.records == |es|
    && r.first == (if es == [] then None else Some(StampOf(es[0])))
    && r.last == (if es == [] then None else Some(StampOf(es[|es| - 1])))
    && r.connections == ConnectionsIn(es)
    && r.gapCount == CountGaps(es)
    && forall k :: CountOf(r.eventCounts, k) == CountType(es, k)
  }

  lemma ObserveDescribes(r: Totals, front: seq<Envelope>, e: Envelope)
    requires Describes(r, front)
    ensures Describes(Observe(r, e), front + [e])
  {
    var es := front + [e];
    assert es[..|es| - 1] == front;
    ConnectionsGrow(front, e);
  }

  /** Whichever of the two starting tables they grew from, totals describe what was observed. */
  lemma {:induction false} TotalsMeaning(t: Totals, es: seq<Envelope>)
    requires t == WRITER_START || t == SCAN_START
    ensures Describes(ObserveAll(t, es), es)
  {
    if es != [] {
      TotalsMeaning(t, es[..|es| - 1]);
      ObserveDescribes(ObserveAll(t, es[..|es| - 1]), es[..|es| - 1], es[|es| - 1]);
      assert es == es[..|es| - 1] + [es[|es| - 1]];
    }
  }

  /** Totals may equally be folded from the front. */
  lemma {:induction false} ObserveFirst(t: Totals, es: seq<Envelope>)
    requires es != []
    ensures ObserveAll(t, es) == ObserveAll(Observe(t, es[0]), es[1..])
    decreases |es|
  {
    if |es| > 1 {
      ObserveFirst(t, es[..|es| - 1]);
      assert es[..|es| - 1][1..] == es[1..][..|es| - 2];
    } else {
      assert es[..0] == [] && es[1..] == [];
    }
  }

  /** The live writer and a scan of what it wrote agree on every manifest field. */
  lemma WriterAgreesWithScan(es: seq<Envelope>)
    ensures SameTotals(ObserveAll(WRITER_START, es), ObserveAll(SCAN_START, es))
  {
    TotalsMeaning(WRITER_START, es);
    TotalsMeaning(SCAN_START, es);
  }
}
