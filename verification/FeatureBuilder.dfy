/**
 The streaming feature builder: label queues, running trade sums and early emission, over the open segment only.
 Pending decisions are numbered within their segment; queues hold those numbers where the source shares objects.
 */
module FeatureBuilder {
  import opened Envelopes
  import opened FeatureSpec

  datatype Pending = Pending(row: Row, timeNs: int, mid: real, unresolved: int)

  // ---------------------------------------------------------------- growing a segment by one event

  lemma {:induction false} FirstAtGrows(events: seq<Observation>, e: Observation, j: nat, target: int)
    requires j <= |events|
    ensures FirstAt(events + [e], j, target)
         == if FirstAt(events, j, target).Some? then FirstAt(events, j, target)
            else if e.BookEvent? && e.timeNs >= target then Some(|events|) else None
    decreases |events| - j
  {
    if j < |events| && !(events[j].BookEvent? && events[j].timeNs >= target) { FirstAtGrows(events, e, j + 1, target); }
  }

  lemma LabelGrows(c: Config, events: seq<Observation>, e: Observation, k: nat, horizon: int)
    requires k < |events| && events[k].BookEvent?
    ensures LabelFor(c, events + [e], k, horizon)
         == if LabelFor(c, events, k, horizon).Some? then LabelFor(c, events, k, horizon)
            else if e.BookEvent? && e.timeNs >= events[k].timeNs + horizon then Some(LabelBy(c, events[k], e, horizon))
            else None
  {
    FirstAtGrows(events, e, k + 1, events[k].timeNs + horizon);
  }

  lemma KnownGrows(c: Config, m: Meta, events: seq<Observation>, e: Observation, k: nat)
    requires k < |events| && events[k].BookEvent?
    ensures Known(c, m, events + [e], k) == Known(c, m, events, k)
  {
    assert (events + [e])[..k] == events[..k];
  }

  lemma {:induction false} BooksOrdered(events: seq<Observation>, q: nat, r: nat)
    requires q <= r < |BookAt(events)|
    ensures BookAt(events)[q] <= BookAt(events)[r]
    decreases |events|
  {
    if r < |BookAt(events[..|events| - 1])| { BooksOrdered(events[..|events| - 1], q, r); }
  }

  lemma BookAtGrows(events: seq<Observation>, e: Observation)
    ensures BookAt(events + [e]) == BookAt(events) + if e.BookEvent? then [|events|] else []
  {
    assert (events + [e])[..|events|] == events;
  }

  // ---------------------------------------------------------------- trailing trades

  predicate Ordered(trades: seq<Trade>, last: int) {
    && (forall i, j :: 0 <= i < j < |trades| ==> trades[i].timeNs <= trades[j].timeNs)
    && forall i :: 0 <= i < |trades| ==> trades[i].timeNs <= last
  }

  /** The retained trades, their sums and ids are those of the segment's distinct trades inside the window. */
  predicate TradesOk(c: Config, events: seq<Observation>, last: int, trades: seq<Trade>, totals: Aggregate,
      seen: set<string>)
  {
    && trades == Since(Distinct(events), last - c.windowNs) && Ordered(trades, last)
    && totals == Total(trades) && seen == Ids(events)
  }

  lemma SinceAppend(trades: seq<Trade>, t: Trade, from: int)
    ensures Since(trades + [t], from) == Since(trades, from) + if t.timeNs >= from then [t] else []
  {
    assert (trades + [t])[..|trades|] == trades;
  }

  lemma {:induction false} SinceTwice(trades: seq<Trade>, a: int, b: int)
    requires a <= b
    ensures Since(Since(trades, a), b) == Since(trades, b)
    decreases |trades|
  {
    if trades != [] {
      var n := |trades| - 1;
      SinceTwice(trades[..n], a, b);
      var kept := Since(trades[..n], a);
      assert kept + [] == kept;
      if trades[n].timeNs >= a { SinceAppend(kept, trades[n], b); }
    }
  }

  lemma {:induction false} SinceAll(trades: seq<Trade>, from: int)
    requires forall i :: 0 <= i < |trades| ==> trades[i].timeNs >= from
    ensures Since(trades, from) == trades
    decreases |trades|
  {
    if trades != [] { SinceAll(trades[..|trades| - 1], from); }
  }

  lemma {:induction false} SinceDropsFirst(trades: seq<Trade>, from: int)
    requires trades != [] && trades[0].timeNs < from
    ensures Since(trades, from) == Since(trades[1..], from)
    decreases |trades|
  {
    var n := |trades| - 1;
    if n > 0 {
      SinceDropsFirst(trades[..n], from);
      assert trades[1..][..n - 1] == trades[..n][1..];
    }
  }

  lemma {:induction false} TotalDropsFirst(trades: seq<Trade>)
    requires trades != []
    ensures Total(trades) == Add(Total(trades[1..]), trades[0])
    decreases |trades|
  {
    var n := |trades| - 1;
    if n > 0 {
      TotalDropsFirst(trades[..n]);
      assert trades[1..][..n - 1] == trades[..n][1..];
      AddCommutes(Total(trades[1..][..n - 1]), trades[0], trades[n]);
    }
  }

  lemma AddCommutes(a: Aggregate, s: Trade, t: Trade)
    ensures Add(Add(a, s), t) == Add(Add(a, t), s)
  {
  }

  lemma {:induction false} TotalCounts(trades: seq<Trade>)
    ensures Total(trades).count == |trades| && (|trades| == 0 ==> Total(trades) == EMPTY)
    decreases |trades|
  {
    if trades != [] { TotalCounts(trades[..|trades| - 1]); }
  }

  lemma DistinctGrows(events: seq<Observation>, id: string, t: Trade)
    ensures var after := events + [TradeEvent(t.timeNs, id, t)];
      && Distinct(after) == (if id !in Ids(events) then Distinct(events) + [t] else Distinct(events))
      && Ids(after) == Ids(events) + {id}
  {
    var after := events + [TradeEvent(t.timeNs, id, t)];
    assert after[..|events|] == events;
    assert Distinct(events) + [] == Distinct(events);
  }

  lemma NewTrade(c: Config, events: seq<Observation>, trades: seq<Trade>, totals: Aggregate, seen: set<string>,
      id: string, t: Trade)
    requires TradesOk(c, events, t.timeNs, trades, totals, seen) && c.windowNs > 0 && id !in seen
    ensures TradesOk(c, events + [TradeEvent(t.timeNs, id, t)], t.timeNs, trades + [t], Add(totals, t), seen + {id})
  {
    hide Since, Distinct, Ids;
    DistinctGrows(events, id, t);
    SinceAppend(Distinct(events), t, t.timeNs - c.windowNs);
    assert (trades + [t])[..|trades|] == trades;
  }

  lemma RepeatedTrade(c: Config, events: seq<Observation>, trades: seq<Trade>, totals: Aggregate, seen: set<string>,
      id: string, t: Trade)
    requires TradesOk(c, events, t.timeNs, trades, totals, seen) && id in seen
    ensures TradesOk(c, events + [TradeEvent(t.timeNs, id, t)], t.timeNs, trades, totals, seen)
  {
    DistinctGrows(events, id, t);
    assert seen + {id} == seen;
  }

  lemma TradesIgnoreBook(c: Config, events: seq<Observation>, e: Observation, last: int, trades: seq<Trade>,
      totals: Aggregate, seen: set<string>)
    requires e.BookEvent? && TradesOk(c, events, last, trades, totals, seen)
    ensures TradesOk(c, events + [e], last, trades, totals, seen)
  {
    hide Since, Distinct, Ids, Total;
    BooksAddNone(events, e);
  }

  lemma BooksAddNone(events: seq<Observation>, e: Observation)
    requires e.BookEvent?
    ensures Distinct(events + [e]) == Distinct(events) && Ids(events + [e]) == Ids(events)
  {
    assert (events + [e])[..|events|] == events;
    assert Distinct(events) + [] == Distinct(events);
  }

  lemma NoBoundaryNoRegression(m: Meta, capture: Option<string>, connection: Option<string>, x: Item)
    requires x.Archived? && Boundary(m, capture, connection, x).None?
    ensures m.lastTimeNs <= x.timeNs
  {
  }

  // ---------------------------------------------------------------- pending rows and labels

  predicate LabelOk(c: Config, events: seq<Observation>, k: nat, labels: map<int, Label>, h: int)
    requires k < |events| && events[k].BookEvent?
  {
    match LabelFor(c, events, k, h)
    case Some(l) => h in labels && labels[h] == l
    case None => h !in labels
  }

  /** Row `p` stands for the book at position `k`, whose labels are told by the events read so far. */
  predicate Stands(c: Config, m: Meta, events: seq<Observation>, k: nat, p: Pending)
    requires k < |events| && events[k].BookEvent?
  {
    && p.row.(labels := map[]) == Known(c, m, events, k) && p.timeNs == events[k].timeNs
      && p.mid == events[k].values.mid
    && Counted(c, p)
  }

  predicate Counted(c: Config, p: Pending) {
    p.row.labels.Keys <= Horizons(c) && p.unresolved == |c.horizonsNs| - |p.row.labels.Keys|
  }

  predicate Tail(q: seq<nat>, n: nat) {
    |q| <= n && forall i :: 0 <= i < |q| ==> q[i] == n - |q| + i
  }

  predicate RowsStand(c: Config, m: Meta, events: seq<Observation>, at: seq<nat>, rows: seq<Pending>)
    requires forall r :: 0 <= r < |at| ==> at[r] < |events| && events[at[r]].BookEvent?
  {
    |rows| == |at| && forall r :: 0 <= r < |rows| ==> Stands(c, m, events, at[r], rows[r])
  }

  /** Labels of horizon `h` are up to date with `events`. */
  predicate HorizonOk(c: Config, events: seq<Observation>, at: seq<nat>, rows: seq<Pending>, h: int)
    requires forall r :: 0 <= r < |at| ==> at[r] < |events| && events[at[r]].BookEvent?
  {
    |rows| <= |at| && forall r :: 0 <= r < |rows| ==> LabelOk(c, events, at[r], rows[r].row.labels, h)
  }

  /** The queue of horizon `h` holds the rows still without that label. */
  predicate QueueOk(rows: seq<Pending>, queues: map<int, seq<nat>>, h: int) {
    h in queues && Tail(queues[h], |rows|)
    && forall r :: 0 <= r < |rows| ==> (h in rows[r].row.labels <==> r < |rows| - |queues[h]|)
  }

  predicate TimesOk(events: seq<Observation>, last: int) {
    && (forall i, j :: 0 <= i < j < |events| ==> events[i].timeNs <= events[j].timeNs)
    && forall i :: 0 <= i < |events| ==> events[i].timeNs <= last
  }

  predicate PendingOk(rows: seq<Pending>, pendingRows: seq<nat>) {
    Tail(pendingRows, |rows|) && forall r :: 0 <= r < |rows| - |pendingRows| ==> rows[r].unresolved == 0
  }

  function RowsUpTo(rows: seq<Pending>, m: nat): (out: seq<Row>)
    requires m <= |rows|
    ensures |out| == m && forall r :: 0 <= r < m ==> out[r] == rows[r].row
  {
    seq(m, r requires 0 <= r < m => rows[r].row)
  }

  lemma {:induction false} HorizonCount(s: seq<int>)
    requires forall i, j :: 0 <= i < j < |s| ==> s[i] != s[j]
    ensures |(set h | h in s)| == |s|
    decreases |s|
  {
    if s == [] {
      assert (set h | h in s) == {};
    } else {
      var n := |s| - 1;
      HorizonCount(s[..n]);
      assert (set h | h in s) == (set h | h in s[..n]) + {s[n]};
    }
  }

  lemma FullSubset(a: set<int>, b: set<int>)
    requires a <= b && |a| == |b|
    ensures a == b
  {
    assert |b - a| == |b| - |a|;
  }

  /** A row with nothing unresolved has every label. */
  lemma CompleteHasAll(c: Config, p: Pending)
    requires ValidConfig(c) && Counted(c, p) && p.unresolved == 0
    ensures p.row.labels.Keys == Horizons(c)
  {
    HorizonCount(c.horizonsNs);
    FullSubset(p.row.labels.Keys, Horizons(c));
  }

  lemma IncompleteLacksOne(c: Config, p: Pending) returns (h: int)
    requires ValidConfig(c) && Counted(c, p) && p.unresolved != 0
    ensures h in c.horizonsNs && h !in p.row.labels
  {
    HorizonCount(c.horizonsNs);
    assert p.row.labels.Keys != Horizons(c);
    h :| h in Horizons(c) && h !in p.row.labels.Keys;
  }

  /** Give row `p` its label for horizon `h`. */
  function Labelled(p: Pending, h: int, l: Label): Pending {
    p.(row := p.row.(labels := p.row.labels[h := l]), unresolved := p.unresolved - 1)
  }

  lemma LabelledCounts(c: Config, p: Pending, h: int, l: Label)
    requires Counted(c, p) && h in c.horizonsNs && h !in p.row.labels
    ensures Counted(c, Labelled(p, h, l))
  {
    assert p.row.labels[h := l].Keys == p.row.labels.Keys + {h};
  }

  /** Row `p`, which was `was`, while horizon `h` is being resolved by `future`: done, or not reached yet. */
  predicate RowPartly(c: Config, events: seq<Observation>, k: nat, future: Observation, was: Pending, p: Pending,
      h: int, done: bool)
    requires k < |events| && events[k].BookEvent?
  {
    && p.row.labels - {h} == was.row.labels - {h} && (h in was.row.labels ==> p == was) && (h in p.row.labels <==> done)
    && (if done then LabelOk(c, events + [future], k, p.row.labels, h)
      else p == was && LabelOk(c, events, k, p.row.labels, h))
  }

  /** The first `d` rows are done. */
  predicate Partly(c: Config, m: Meta, events: seq<Observation>, at: seq<nat>, future: Observation,
                   before: seq<Pending>, rows: seq<Pending>, h: int, d: int)
    requires forall r :: 0 <= r < |at| ==> at[r] < |events| && events[at[r]].BookEvent?
  {
    && RowsStand(c, m, events, at, rows) && |before| == |rows|
    && forall r :: 0 <= r < |rows| ==> RowPartly(c, events, at[r], future, before[r], rows[r], h, r < d)
  }

  lemma PartlyStarts(c: Config, m: Meta, events: seq<Observation>, at: seq<nat>, future: Observation,
      rows: seq<Pending>, h: int, d: int)
    requires at == BookAt(events) && RowsStand(c, m, events, at, rows) && HorizonOk(c, events, at, rows, h)
    requires forall r :: 0 <= r < |rows| ==> (h in rows[r].row.labels <==> r < d)
    ensures Partly(c, m, events, at, future, rows, rows, h, d)
  {
    forall r | 0 <= r < |rows| ensures RowPartly(c, events, at[r], future, rows[r], rows[r], h, r < d) {
      LabelGrows(c, events, future, at[r], h);
    }
  }

  lemma PartlyStep(c: Config, m: Meta, events: seq<Observation>, at: seq<nat>, future: Observation,
                   before: seq<Pending>, rows: seq<Pending>, h: int, d: nat, l: Label)
    requires at == BookAt(events) && Partly(c, m, events, at, future, before, rows, h, d) && d < |rows|
      && h in c.horizonsNs
    requires future.BookEvent? && events[at[d]].timeNs + h <= future.timeNs && l == LabelBy(c, events[at[d]], future, h)
    ensures Partly(c, m, events, at, future, before, rows[d := Labelled(rows[d], h, l)], h, d + 1)
  {
    var p := rows[d];
    assert RowPartly(c, events, at[d], future, before[d], p, h, false);
    LabelledCounts(c, p, h, l);
    LabelGrows(c, events, future, at[d], h);
    var after := rows[d := Labelled(p, h, l)];
    forall r | 0 <= r < |after| ensures RowPartly(c, events, at[r], future, before[r], after[r], h, r < d + 1) {
      assert RowPartly(c, events, at[r], future, before[r], rows[r], h, r < d);
    }
  }

  lemma PartlyDone(c: Config, m: Meta, events: seq<Observation>, at: seq<nat>, future: Observation,
                   before: seq<Pending>, rows: seq<Pending>, h: int, d: nat)
    requires at == BookAt(events) && Partly(c, m, events, at, future, before, rows, h, d) && d <= |rows|
    requires future.BookEvent? && TimesOk(events, future.timeNs)
    requires d < |rows| ==> events[at[d]].timeNs + h > future.timeNs
    ensures HorizonOk(c, events + [future], at, rows, h)
  {
    forall r | 0 <= r < |rows| ensures LabelOk(c, events + [future], at[r], rows[r].row.labels, h) {
      assert RowPartly(c, events, at[r], future, before[r], rows[r], h, r < d);
      if r >= d {
        LabelGrows(c, events, future, at[r], h);
        BooksOrdered(events, d, r);
      }
    }
  }

  function Remove(a: Aggregate, t: Trade): Aggregate {
    Aggregate(a.count - 1, a.signedCount - t.sign, a.volume - t.volume, a.signedVolume - Signed(t.sign, t.volume),
              a.notional - t.notional, a.signedNotional - Signed(t.sign, t.notional))
  }

  lemma RemoveUndoesAdd(a: Aggregate, t: Trade)
    ensures Remove(Add(a, t), t) == a
  {
  }

  /** Everything the builder keeps for its open segment agrees with the segment's events. */
  predicate Holds(c: Config, m: Meta, events: seq<Observation>, rows: seq<Pending>, pendingRows: seq<nat>,
      queues: map<int, seq<nat>>)
  {
    && TimesOk(events, m.lastTimeNs) && RowsStand(c, m, events, BookAt(events), rows)
    && (forall h :: h in c.horizonsNs ==> HorizonOk(c, events, BookAt(events), rows, h))
    && (forall h :: h in c.horizonsNs ==> QueueOk(rows, queues, h))
    && PendingOk(rows, pendingRows)
  }

  function EmptyQueues(c: Config): map<int, seq<nat>> {
    map h | h in c.horizonsNs :: []
  }

  lemma NothingHolds(c: Config, m: Meta)
    ensures Holds(c, m, [], [], [], EmptyQueues(c)) && TradesOk(c, [], m.lastTimeNs, [], EMPTY, {})
  {
  }

  lemma PartlyFront(c: Config, m: Meta, events: seq<Observation>, at: seq<nat>, future: Observation,
                    before: seq<Pending>, rows: seq<Pending>, h: int, d: nat)
    requires at == BookAt(events) && Partly(c, m, events, at, future, before, rows, h, d) && d < |rows|
    ensures |rows| == |at| && rows[d].timeNs == events[at[d]].timeNs && rows[d].mid == events[at[d]].values.mid
  {
    assert Stands(c, m, events, at[d], rows[d]);
  }

  /** Label by `future` every row of one horizon's queue that it is the first book to reach. */
  method ResolveQueue(c: Config, ghost m: Meta, ghost events: seq<Observation>, h: int, future: Observation,
                      before: seq<Pending>, waiting: seq<nat>)
    returns (rows: seq<Pending>, queue: seq<nat>)
    requires h in c.horizonsNs && future.BookEvent? && TimesOk(events, future.timeNs) && Tail(waiting, |before|)
    requires Partly(c, m, events, BookAt(events), future, before, before, h, |before| - |waiting|)
    ensures |rows| == |before| && Tail(queue, |rows|)
    ensures Partly(c, m, events, BookAt(events), future, before, rows, h, |rows| - |queue|)
    ensures HorizonOk(c, events + [future], BookAt(events), rows, h)
  {
    hide Partly, RowsStand, HorizonOk, LabelOk;
    rows, queue := before, waiting;
    ghost var at := BookAt(events);
    while queue != [] && rows[queue[0]].timeNs + h <= future.timeNs
      invariant |rows| == |before| && Tail(queue, |rows|)
      invariant Partly(c, m, events, at, future, before, rows, h, |rows| - |queue|)
      decreases |queue|
    {
      var r := queue[0];
      PartlyFront(c, m, events, at, future, before, rows, h, r);
      var pending := rows[r];
      queue := queue[1..];
      var target := pending.timeNs + h;
      var outcome :=
        if future.timeNs - target > c.overshootNs then Invalid(Overshoot)
        else Resolved(Return(future.values.mid, pending.mid), future.values.mid, future.arrival, future.timeNs);
      PartlyStep(c, m, events, at, future, before, rows, h, r, outcome);
      rows := rows[r := Labelled(pending, h, outcome)];
    }
    if queue != [] { PartlyFront(c, m, events, at, future, before, rows, h, queue[0]); }
    PartlyDone(c, m, events, at, future, before, rows, h, |rows| - |queue|);
  }

  /** Rows in every respect up to date with `after` for the first `i` horizons, and with `events` for the others. */
  predicate Mixed(c: Config, m: Meta, events: seq<Observation>, future: Observation,
                  rows: seq<Pending>, queues: map<int, seq<nat>>, i: nat)
    requires i <= |c.horizonsNs|
  {
    var at := BookAt(events);
    && RowsStand(c, m, events, at, rows)
    && (forall j :: 0 <= j < |c.horizonsNs| ==> QueueOk(rows, queues, c.horizonsNs[j]))
    && (forall j :: 0 <= j < i ==> HorizonOk(c, events + [future], at, rows, c.horizonsNs[j]))
    && (forall j :: i <= j < |c.horizonsNs| ==> HorizonOk(c, events, at, rows, c.horizonsNs[j]))
  }

  /** Complete rows are never touched again. */
  predicate CompleteKept(before: seq<Pending>, rows: seq<Pending>) {
    |rows| == |before| && forall r :: 0 <= r < |rows| && before[r].unresolved == 0 ==> rows[r] == before[r]
  }

  lemma OtherHorizon(c: Config, events: seq<Observation>, at: seq<nat>, before: seq<Pending>, rows: seq<Pending>,
                     queues: map<int, seq<nat>>, h: int, queue: seq<nat>, g: int)
    requires forall r :: 0 <= r < |at| ==> at[r] < |events| && events[at[r]].BookEvent?
    requires g != h && HorizonOk(c, events, at, before, g) && QueueOk(before, queues, g) && |rows| == |before|
    requires forall r :: 0 <= r < |rows| ==> rows[r].row.labels - {h} == before[r].row.labels - {h}
    ensures HorizonOk(c, events, at, rows, g) && QueueOk(rows, queues[h := queue], g)
  {
    forall r | 0 <= r < |rows|
      ensures LabelOk(c, events, at[r], rows[r].row.labels, g)
        && (g in rows[r].row.labels <==> g in before[r].row.labels)
    {
      SameBut(before[r].row.labels, rows[r].row.labels, h, g);
      assert LabelOk(c, events, at[r], before[r].row.labels, g);
    }
  }

  lemma SameBut(a: map<int, Label>, b: map<int, Label>, h: int, g: int)
    requires a - {h} == b - {h} && g != h
    ensures g in a <==> g in b
    ensures g in a ==> a[g] == b[g]
  {
    assert g in a <==> g in a - {h};
    assert g in b <==> g in b - {h};
    if g in a { assert (a - {h})[g] == (b - {h})[g]; }
  }

  lemma MixedStep(c: Config, m: Meta, events: seq<Observation>, future: Observation, before: seq<Pending>,
                  rows: seq<Pending>, queues: map<int, seq<nat>>, queue: seq<nat>, i: nat)
    requires ValidConfig(c) && i < |c.horizonsNs| && Mixed(c, m, events, future, before, queues, i)
    requires |rows| == |before| && Tail(queue, |rows|)
    requires Partly(c, m, events, BookAt(events), future, before, rows, c.horizonsNs[i], |rows| - |queue|)
    requires HorizonOk(c, events + [future], BookAt(events), rows, c.horizonsNs[i])
    ensures Mixed(c, m, events, future, rows, queues[c.horizonsNs[i] := queue], i + 1)
    ensures CompleteKept(before, rows)
  {
    var h, at, after := c.horizonsNs[i], BookAt(events), events + [future];
    forall r | 0 <= r < |rows|
      ensures rows[r].row.labels - {h} == before[r].row.labels - {h}
        && (h in rows[r].row.labels <==> r < |rows| - |queue|)
      ensures before[r].unresolved == 0 ==> rows[r] == before[r]
    {
      assert RowPartly(c, events, at[r], future, before[r], rows[r], h, r < |rows| - |queue|);
      assert Stands(c, m, events, at[r], before[r]);
      if before[r].unresolved == 0 { CompleteHasAll(c, before[r]); }
    }
    forall j | 0 <= j < |c.horizonsNs| && j != i
      ensures QueueOk(rows, queues[h := queue], c.horizonsNs[j])
      ensures HorizonOk(c, if j < i then after else events, at, rows, c.horizonsNs[j])
    {
      OtherHorizon(c, if j < i then after else events, at, before, rows, queues, h, queue, c.horizonsNs[j]);
    }
  }

  method ResolveLabels(c: Config, ghost m: Meta, ghost events: seq<Observation>, future: Observation,
                       before: seq<Pending>, waiting: map<int, seq<nat>>)
    returns (rows: seq<Pending>, queues: map<int, seq<nat>>)
    requires ValidConfig(c) && future.BookEvent? && TimesOk(events, future.timeNs)
    requires Mixed(c, m, events, future, before, waiting, 0)
    ensures Mixed(c, m, events, future, rows, queues, |c.horizonsNs|) && CompleteKept(before, rows)
  {
    rows, queues := before, waiting;
    for i := 0 to |c.horizonsNs|
      invariant Mixed(c, m, events, future, rows, queues, i) && CompleteKept(before, rows)
    {
      var h := c.horizonsNs[i];
      assert QueueOk(rows, queues, h) && HorizonOk(c, events, BookAt(events), rows, h);
      PartlyStarts(c, m, events, BookAt(events), future, rows, h, |rows| - |queues[h]|);
      var resolved, queue := ResolveQueue(c, m, events, h, future, rows, queues[h]);
      MixedStep(c, m, events, future, rows, resolved, queues, queue, i);
      rows, queues := resolved, queues[h := queue];
    }
  }

  /** Pop complete rows off the front of the pending ones. */
  method EmitCompletedPrefix(rows: seq<Pending>, before: seq<nat>) returns (pendingRows: seq<nat>, out: seq<Row>)
    requires PendingOk(rows, before)
    ensures PendingOk(rows, pendingRows)
    ensures RowsUpTo(rows, |rows| - |pendingRows|) == RowsUpTo(rows, |rows| - |before|) + out
    ensures pendingRows != [] ==> rows[pendingRows[0]].unresolved != 0
  {
    pendingRows, out := before, [];
    while pendingRows != [] && rows[pendingRows[0]].unresolved == 0
      invariant PendingOk(rows, pendingRows)
      invariant RowsUpTo(rows, |rows| - |pendingRows|) == RowsUpTo(rows, |rows| - |before|) + out
      decreases |pendingRows|
    {
      out := out + [rows[pendingRows[0]].row];
      pendingRows := pendingRows[1..];
    }
  }

  // ---------------------------------------------------------------- appending to the open segment

  /** The same segment at another time. */
  predicate SameIdentity(m: Meta, n: Meta) {
    n == m.(lastTimeNs := n.lastTimeNs, lastOrdinal := n.lastOrdinal)
  }

  lemma ClockMoves(c: Config, m: Meta, n: Meta, events: seq<Observation>, rows: seq<Pending>, pendingRows: seq<nat>,
      queues: map<int, seq<nat>>)
    requires Holds(c, m, events, rows, pendingRows, queues) && SameIdentity(m, n) && m.lastTimeNs <= n.lastTimeNs
    ensures Holds(c, n, events, rows, pendingRows, queues)
  {
  }

  lemma StandsGrows(c: Config, m: Meta, events: seq<Observation>, e: Observation, at: seq<nat>, rows: seq<Pending>)
    requires at == BookAt(events) && RowsStand(c, m, events, at, rows)
    ensures RowsStand(c, m, events + [e], at, rows)
  {
    forall r | 0 <= r < |rows| ensures Stands(c, m, events + [e], at[r], rows[r]) {
      assert Stands(c, m, events, at[r], rows[r]);
      KnownGrows(c, m, events, e, at[r]);
    }
  }

  lemma TradeAppended(c: Config, m: Meta, events: seq<Observation>, e: Observation, rows: seq<Pending>,
      pendingRows: seq<nat>, queues: map<int, seq<nat>>)
    requires e.TradeEvent? && e.timeNs == m.lastTimeNs && Holds(c, m, events, rows, pendingRows, queues)
    ensures Holds(c, m, events + [e], rows, pendingRows, queues)
  {
    BookAtGrows(events, e);
    var at := BookAt(events);
    assert at + [] == at;
    StandsGrows(c, m, events, e, at, rows);
    forall h | h in c.horizonsNs ensures HorizonOk(c, events + [e], at, rows, h) {
      assert HorizonOk(c, events, at, rows, h);
      forall r | 0 <= r < |rows| ensures LabelOk(c, events + [e], at[r], rows[r].row.labels, h) {
        LabelGrows(c, events, e, at[r], h);
      }
    }
  }

  function Queued(queues: map<int, seq<nat>>, n: nat): map<int, seq<nat>> {
    map h | h in queues :: queues[h] + [n]
  }

  predicate IsNewRow(c: Config, m: Meta, events: seq<Observation>, p: Pending)
    requires events != [] && events[|events| - 1].BookEvent?
  {
    && p.row == Known(c, m, events, |events| - 1) && p.timeNs == events[|events| - 1].timeNs
    && p.mid == events[|events| - 1].values.mid && p.unresolved == |c.horizonsNs|
  }

  lemma QueueAppended(rows: seq<Pending>, queues: map<int, seq<nat>>, h: int, p: Pending)
    requires QueueOk(rows, queues, h) && h !in p.row.labels
    ensures QueueOk(rows + [p], Queued(queues, |rows|), h)
  {
    var all, q := rows + [p], queues[h] + [|rows|];
    forall r | 0 <= r < |all| ensures h in all[r].row.labels <==> r < |all| - |q| {
      if r < |rows| { assert all[r] == rows[r]; }
    }
  }

  lemma HorizonAppended(c: Config, events: seq<Observation>, e: Observation, rows: seq<Pending>, p: Pending, h: int)
    requires e.BookEvent? && |rows| == |BookAt(events)| && p.row.labels == map[]
    requires forall r :: 0 <= r < |rows| ==> LabelOk(c, events + [e], BookAt(events)[r], rows[r].row.labels, h)
    ensures HorizonOk(c, events + [e], BookAt(events + [e]), rows + [p], h)
  {
    BookAtGrows(events, e);
    var after, all, at := events + [e], rows + [p], BookAt(events + [e]);
    forall r | 0 <= r < |all| ensures LabelOk(c, after, at[r], all[r].row.labels, h) {
      if r == |rows| { assert LabelFor(c, after, |events|, h) == None; }
    }
  }

  lemma RowAppended(c: Config, m: Meta, events: seq<Observation>, e: Observation, rows: seq<Pending>, p: Pending)
    requires ValidConfig(c) && e.BookEvent? && RowsStand(c, m, events, BookAt(events), rows)
      && IsNewRow(c, m, events + [e], p)
    ensures RowsStand(c, m, events + [e], BookAt(events + [e]), rows + [p])
  {
    BookAtGrows(events, e);
    StandsGrows(c, m, events, e, BookAt(events), rows);
    assert p.row.labels.Keys == {};
  }

  lemma BookAppended(c: Config, m: Meta, events: seq<Observation>, e: Observation, rows: seq<Pending>,
      pendingRows: seq<nat>, queues: map<int, seq<nat>>, p: Pending)
    requires ValidConfig(c) && e.BookEvent? && e.timeNs == m.lastTimeNs && TimesOk(events, m.lastTimeNs)
    requires Mixed(c, m, events, e, rows, queues, |c.horizonsNs|) && PendingOk(rows, pendingRows)
    requires IsNewRow(c, m, events + [e], p)
    ensures Holds(c, m, events + [e], rows + [p], pendingRows + [|rows|], Queued(queues, |rows|))
  {
    RowAppended(c, m, events, e, rows, p);
    forall h | h in c.horizonsNs
      ensures HorizonOk(c, events + [e], BookAt(events + [e]), rows + [p], h)
        && QueueOk(rows + [p], Queued(queues, |rows|), h)
    {
      var j :| 0 <= j < |c.horizonsNs| && c.horizonsNs[j] == h;
      assert HorizonOk(c, events + [e], BookAt(events), rows, c.horizonsNs[j])
        && QueueOk(rows, queues, c.horizonsNs[j]);
      HorizonAppended(c, events, e, rows, p, h);
      QueueAppended(rows, queues, h, p);
    }
  }

  // ---------------------------------------------------------------- closing a segment

  lemma CompleteIsFinal(c: Config, s: FeatureSpec.Segment, k: nat, p: Pending)
    requires ValidConfig(c) && k < |s.open.events| && s.open.events[k].BookEvent?
    requires Stands(c, s.open.meta, s.open.events, k, p) && p.unresolved == 0
    requires forall h :: h in c.horizonsNs ==> LabelOk(c, s.open.events, k, p.row.labels, h)
    ensures p.row == RowOf(c, s, k)
  {
    CompleteHasAll(c, p);
    FinalRow(c, s, k, p.row);
  }

  lemma FinalRow(c: Config, s: FeatureSpec.Segment, k: nat, row: Row)
    requires k < |s.open.events| && s.open.events[k].BookEvent?
    requires row.(labels := map[]) == Known(c, s.open.meta, s.open.events, k) && row.labels.Keys == Horizons(c)
    requires forall h :: h in Horizons(c) ==> row.labels[h] == FinalLabel(c, s, k, h)
    ensures row == RowOf(c, s, k)
  {
    assert row.labels == RowOf(c, s, k).labels;
  }

  lemma LabelIsFinal(c: Config, s: FeatureSpec.Segment, k: nat, labels: map<int, Label>, h: int)
    requires k < |s.open.events| && s.open.events[k].BookEvent? && LabelOk(c, s.open.events, k, labels, h)
    ensures FinalLabel(c, s, k, h)
         == if h in labels then labels[h] else Unreached(s.open.meta.lastTimeNs, s.open.events[k].timeNs + h, s.reason)
  {
  }

  lemma LabelOkKept(c: Config, events: seq<Observation>, k: nat, labels: map<int, Label>, h: int, l: Label, g: int)
    requires k < |events| && events[k].BookEvent? && LabelOk(c, events, k, labels, g) && g != h
    ensures LabelOk(c, events, k, labels[h := l], g)
  {
  }

  /** Give a pending row its missing labels: the segment ended before they could be resolved. */
  method FillMissing(c: Config, ghost s: FeatureSpec.Segment, ghost k: nat, p: Pending, lastTimeNs: int, reason: Reason)
    returns (row: Row)
    requires ValidConfig(c) && k < |s.open.events| && s.open.events[k].BookEvent?
    requires Stands(c, s.open.meta, s.open.events, k, p) && s.reason == reason && s.open.meta.lastTimeNs == lastTimeNs
    requires forall h :: h in c.horizonsNs ==> LabelOk(c, s.open.events, k, p.row.labels, h)
    ensures row == RowOf(c, s, k)
  {
    hide LabelOk, Known, FinalLabel;
    var labels := p.row.labels;
    for i := 0 to |c.horizonsNs|
      invariant labels.Keys <= Horizons(c)
      invariant forall j :: 0 <= j < i ==>
        c.horizonsNs[j] in labels && labels[c.horizonsNs[j]] == FinalLabel(c, s, k, c.horizonsNs[j])
      invariant forall j :: i <= j < |c.horizonsNs| ==> LabelOk(c, s.open.events, k, labels, c.horizonsNs[j])
    {
      var h := c.horizonsNs[i];
      LabelIsFinal(c, s, k, labels, h);
      if h !in labels {
        var target := p.timeNs + h;
        var why :=
          if reason.EndOfStream? then (if lastTimeNs < target then BeforeHorizon else NoBookAfterHorizon)
          else AtBoundary(reason);
        forall j | i < j < |c.horizonsNs|
          ensures LabelOk(c, s.open.events, k, labels[h := Invalid(why)], c.horizonsNs[j])
        {
          LabelOkKept(c, s.open.events, k, labels, h, Invalid(why), c.horizonsNs[j]);
        }
        labels := labels[h := Invalid(why)];
      }
    }
    row := p.row.(labels := labels);
    assert labels.Keys == Horizons(c);
    FinalRow(c, s, k, row);
  }

  lemma RowFacts(c: Config, m: Meta, events: seq<Observation>, rows: seq<Pending>, pendingRows: seq<nat>,
      queues: map<int, seq<nat>>, r: nat)
    requires Holds(c, m, events, rows, pendingRows, queues) && r < |rows|
    ensures |rows| == |BookAt(events)| && Stands(c, m, events, BookAt(events)[r], rows[r])
    ensures forall h :: h in c.horizonsNs ==> LabelOk(c, events, BookAt(events)[r], rows[r].row.labels, h)
    ensures r < |rows| - |pendingRows| ==> rows[r].unresolved == 0
  {
    forall h | h in c.horizonsNs ensures LabelOk(c, events, BookAt(events)[r], rows[r].row.labels, h) {
      assert HorizonOk(c, events, BookAt(events), rows, h);
    }
  }

  lemma EmittedAreFinal(c: Config, s: FeatureSpec.Segment, rows: seq<Pending>, pendingRows: seq<nat>,
      queues: map<int, seq<nat>>)
    requires ValidConfig(c) && Holds(c, s.open.meta, s.open.events, rows, pendingRows, queues)
    ensures |rows| == |SegmentRows(c, s)|
    ensures forall r :: 0 <= r < |rows| - |pendingRows| ==> rows[r].row == SegmentRows(c, s)[r]
  {
    forall r | 0 <= r < |rows| - |pendingRows| ensures rows[r].row == SegmentRows(c, s)[r] {
      RowFacts(c, s.open.meta, s.open.events, rows, pendingRows, queues, r);
      CompleteIsFinal(c, s, BookAt(s.open.events)[r], rows[r]);
    }
  }

  lemma RowAtIs(c: Config, s: FeatureSpec.Segment, r: nat)
    requires r < |BookAt(s.open.events)|
    ensures SegmentRows(c, s)[r] == RowOf(c, s, BookAt(s.open.events)[r])
  {
  }

  method FillPending(c: Config, ghost m: Meta, ghost events: seq<Observation>, rows: seq<Pending>,
      pendingRows: seq<nat>, ghost queues: map<int, seq<nat>>, lastTimeNs: int, reason: Reason) returns (out: seq<Row>)
    requires ValidConfig(c) && Holds(c, m, events, rows, pendingRows, queues) && m.lastTimeNs == lastTimeNs
    ensures RowsUpTo(rows, |rows| - |pendingRows|) + out == SegmentRows(c, FeatureSpec.Segment(Open(m, events), reason))
  {
    hide Holds, SegmentRows, RowOf, LabelOk, Stands, TimesOk;
    ghost var s := FeatureSpec.Segment(Open(m, events), reason);
    ghost var done, final := |rows| - |pendingRows|, SegmentRows(c, s);
    EmittedAreFinal(c, s, rows, pendingRows, queues);
    HoldsInPart(c, m, events, rows, pendingRows, queues);
    out := [];
    for i := 0 to |pendingRows|
      invariant |out| == i && forall j :: 0 <= j < i ==> out[j] == final[done + j]
    {
      var r := pendingRows[i];
      RowFacts(c, m, events, rows, pendingRows, queues, r);
      RowAtIs(c, s, r);
      var row := FillMissing(c, s, BookAt(events)[r], rows[r], lastTimeNs, reason);
      out := out + [row];
    }
  }

  // ---------------------------------------------------------------- how long rows wait

  function MaxHorizon(horizons: seq<int>): (m: int)
    requires horizons != []
    ensures forall i :: 0 <= i < |horizons| ==> horizons[i] <= m
    decreases |horizons|
  {
    var n := |horizons| - 1;
    if n == 0 then horizons[0]
    else
      var before := MaxHorizon(horizons[..n]);
      if before < horizons[n] then horizons[n] else before
  }

  /** Every pending row is younger than the largest horizon. */
  predicate Young(c: Config, rows: seq<Pending>, pendingRows: seq<nat>, now: int)
    requires ValidConfig(c)
  {
    forall i :: 0 <= i < |pendingRows|
      ==> pendingRows[i] < |rows| && rows[pendingRows[i]].timeNs + MaxHorizon(c.horizonsNs) > now
  }

  lemma {:induction false} NoneBefore(events: seq<Observation>, j: nat, target: int, l: nat)
    requires j <= l < |events| && FirstAt(events, j, target).None? && events[l].BookEvent?
    ensures events[l].timeNs < target
    decreases |events| - j
  {
    if j < l { NoneBefore(events, j + 1, target, l); }
  }

  lemma FirstIsYoung(c: Config, m: Meta, events: seq<Observation>, k: nat, p: Pending)
    requires ValidConfig(c) && k < |events| && events[k].BookEvent? && Stands(c, m, events, k, p) && p.unresolved != 0
    requires forall h :: h in c.horizonsNs ==> LabelOk(c, events, k, p.row.labels, h)
    requires events[|events| - 1].BookEvent?
    ensures p.timeNs + MaxHorizon(c.horizonsNs) > events[|events| - 1].timeNs
  {
    hide Known;
    var h := IncompleteLacksOne(c, p);
    assert LabelOk(c, events, k, p.row.labels, h);
    var l :| 0 <= l < |c.horizonsNs| && c.horizonsNs[l] == h;
    if k < |events| - 1 { NoneBefore(events, k + 1, events[k].timeNs + h, |events| - 1); }
  }

  lemma LaterRows(events: seq<Observation>, last: int, q: nat, r: nat)
    requires TimesOk(events, last) && q <= r < |BookAt(events)|
    ensures events[BookAt(events)[q]].timeNs <= events[BookAt(events)[r]].timeNs
  {
    BooksOrdered(events, q, r);
  }

  lemma PendingAreYoung(c: Config, m: Meta, events: seq<Observation>, rows: seq<Pending>, pendingRows: seq<nat>,
      queues: map<int, seq<nat>>)
    requires ValidConfig(c) && Holds(c, m, events, rows, pendingRows, queues)
    requires events != [] && events[|events| - 1].BookEvent? && events[|events| - 1].timeNs == m.lastTimeNs
    requires pendingRows != [] ==> rows[pendingRows[0]].unresolved != 0
    ensures Young(c, rows, pendingRows, m.lastTimeNs)
  {
    hide Known, LabelOk, Holds, TimesOk, BookAt;
    HoldsInPart(c, m, events, rows, pendingRows, queues);
    if pendingRows != [] {
      var first := pendingRows[0];
      RowFacts(c, m, events, rows, pendingRows, queues, first);
      FirstIsYoung(c, m, events, BookAt(events)[first], rows[first]);
      forall i | 0 <= i < |pendingRows|
        ensures pendingRows[i] < |rows| && rows[pendingRows[i]].timeNs + MaxHorizon(c.horizonsNs) > m.lastTimeNs
      {
        RowFacts(c, m, events, rows, pendingRows, queues, pendingRows[i]);
        LaterRows(events, m.lastTimeNs, first, pendingRows[i]);
      }
    }
  }

  lemma ClosedOneMore(c: Config, closed: seq<FeatureSpec.Segment>, s: FeatureSpec.Segment)
    ensures ClosedRows(c, closed + [s]) == ClosedRows(c, closed) + SegmentRows(c, s)
  {
    assert (closed + [s])[..|closed|] == closed;
  }

  lemma RowsUpToKept(before: seq<Pending>, rows: seq<Pending>, pendingRows: seq<nat>)
    requires CompleteKept(before, rows) && PendingOk(before, pendingRows)
    ensures PendingOk(rows, pendingRows)
    ensures RowsUpTo(rows, |rows| - |pendingRows|) == RowsUpTo(before, |before| - |pendingRows|)
  {
  }

  lemma HoldsInPart(c: Config, m: Meta, events: seq<Observation>, rows: seq<Pending>, pendingRows: seq<nat>,
      queues: map<int, seq<nat>>)
    requires Holds(c, m, events, rows, pendingRows, queues)
    ensures TimesOk(events, m.lastTimeNs) && PendingOk(rows, pendingRows)
  {
  }

  /** What the row of a new book says, read off the running sums. */
  lemma KnownNow(c: Config, m: Meta, events: seq<Observation>, b: Observation, trades: seq<Trade>, totals: Aggregate,
      seen: set<string>)
    requires b.BookEvent? && TradesOk(c, events, b.timeNs, trades, totals, seen)
    ensures Known(c, m, events + [b], |events|)
         == Row(b.arrival, m.id, m.capture, m.connection, m.market, b.ordinal, b.timeNs, m.timeSource, b.values, totals,
             map[])
  {
    assert (events + [b])[..|events|] == events;
  }

  lemma StartsMixed(c: Config, m: Meta, events: seq<Observation>, future: Observation, rows: seq<Pending>,
      pendingRows: seq<nat>, queues: map<int, seq<nat>>)
    requires ValidConfig(c) && Holds(c, m, events, rows, pendingRows, queues)
    ensures Mixed(c, m, events, future, rows, queues, 0)
  {
  }

  /** Resolve labels by the new book, emit what they complete, and queue the book's own row. */
  method DecideOnBook(c: Config, m: Meta, ghost events: seq<Observation>, book: Observation,
                      ghost trades: seq<Trade>, totals: Aggregate, ghost seen: set<string>,
                      rows: seq<Pending>, pendingRows: seq<nat>, queues: map<int, seq<nat>>)
    returns (rows': seq<Pending>, pendingRows': seq<nat>, queues': map<int, seq<nat>>, out: seq<Row>)
    requires ValidConfig(c) && book.BookEvent? && book.timeNs == m.lastTimeNs
    requires Holds(c, m, events, rows, pendingRows, queues) && TradesOk(c, events, m.lastTimeNs, trades, totals, seen)
    ensures Holds(c, m, events + [book], rows', pendingRows', queues')
    ensures RowsUpTo(rows', |rows'| - |pendingRows'|) == RowsUpTo(rows, |rows| - |pendingRows|) + out
    ensures Young(c, rows', pendingRows', m.lastTimeNs)
  {
    hide TradesOk, Mixed, Young, Known;
    HoldsInPart(c, m, events, rows, pendingRows, queues);
    KnownNow(c, m, events, book, trades, totals, seen);
    StartsMixed(c, m, events, book, rows, pendingRows, queues);
    var resolved, waiting := ResolveLabels(c, m, events, book, rows, queues);
    RowsUpToKept(rows, resolved, pendingRows);
    var left;
    left, out := EmitCompletedPrefix(resolved, pendingRows);
    var row := Row(book.arrival, m.id, m.capture, m.connection, m.market, book.ordinal, book.timeNs, m.timeSource,
                   book.values, totals, map[]);
    var pending := Pending(row, book.timeNs, book.values.mid, |c.horizonsNs|);
    BookAppended(c, m, events, book, resolved, left, waiting, pending);
    rows', pendingRows', queues' := resolved + [pending], left + [|resolved|], Queued(waiting, |resolved|);
    PendingAreYoung(c, m, events + [book], rows', pendingRows', queues');
  }

  // ---------------------------------------------------------------- the builder

  class CausalHFTFeatureBuilder {
    const config: Config
    var current: Option<Meta>
    var trades: seq<Trade>
    var totals: Aggregate
    var seen: set<string>
    var rows: seq<Pending>
    var pendingRows: seq<nat>
    var queues: map<int, seq<nat>>
    var arrivalIndex: nat
    var segmentCount: nat
    ghost var stream: Stream
    ghost var emitted: seq<Row>

    ghost function Events(): seq<Observation>
      reads this
    {
      if stream.open.Some? then stream.open.value.events else []
    }

    ghost predicate Valid()
      reads this
    {
      && ValidConfig(config) && stream.arrival == arrivalIndex && stream.count == segmentCount
      && (current.None? <==> stream.open.None?)
      && (current.None? ==> emitted == ClosedRows(config, stream.closed))
      && (current.Some? ==>
            && stream.open.value.meta == current.value
            && Holds(config, current.value, Events(), rows, pendingRows, queues)
            && TradesOk(config, Events(), current.value.lastTimeNs, trades, totals, seen)
            && emitted == ClosedRows(config, stream.closed) + RowsUpTo(rows, |rows| - |pendingRows|))
    }

    constructor (config: Config)
      requires ValidConfig(config)
      ensures Valid() && this.config == config && stream == START && emitted == []
    {
      this.config := config;
      current, trades, totals, seen, rows, pendingRows, queues := None, [], EMPTY, {}, [], [], map[];
      arrivalIndex, segmentCount := 0, 0;
      stream, emitted := START, [];
    }

    /** End the open segment, if any: its remaining rows come out with the labels they have. */
    method CloseSegment(reason: Reason) returns (out: seq<Row>)
      requires Valid()
      modifies this
      ensures Valid() && current.None? && stream == Close(old(stream), reason)
      ensures emitted == old(emitted) + out && arrivalIndex == old(arrivalIndex) && segmentCount == old(segmentCount)
    {
      hide Holds, TradesOk, ClosedRows, SegmentRows;
      if current.None? { return []; }
      var m := current.value;
      out := FillPending(config, m, Events(), rows, pendingRows, queues, m.lastTimeNs, reason);
      ghost var closing := FeatureSpec.Segment(stream.open.value, reason);
      ClosedOneMore(config, stream.closed, closing);
      emitted := emitted + out;
      stream := Close(stream, reason);
      current := None;
    }

    /** Open a fresh segment for event `x`. */
    method NewSegment(capture: Option<string>, connection: Option<string>, x: Item)
      requires x.Archived? && stream.count == segmentCount
      modifies this
      ensures segmentCount == old(segmentCount) + 1 && arrivalIndex == old(arrivalIndex) && emitted == old(emitted)
      ensures current == Some(NewMeta(segmentCount, capture, connection, x))
      ensures trades == [] && totals == EMPTY && seen == {} && rows == [] && pendingRows == []
        && queues == EmptyQueues(config)
      ensures stream == old(stream).(count := segmentCount, open := Some(Open(current.value, [])))
    {
      segmentCount := segmentCount + 1;
      current := Some(NewMeta(segmentCount, capture, connection, x));
      trades, totals, seen, rows, pendingRows := [], EMPTY, {}, [], [];
      queues := EmptyQueues(config);
      stream := stream.(count := segmentCount, open := Some(Open(current.value, [])));
    }

    /** Forget trades that left the window ending at `now`. */
    method ExpireTrades(now: int, ghost events: seq<Observation>, ghost last: int)
      requires last <= now && TradesOk(config, events, last, trades, totals, seen)
      modifies `trades, `totals
      ensures TradesOk(config, events, now, trades, totals, seen)
    {
      hide Distinct, Since, Total;
      ghost var distinct := Distinct(events);
      var cutoff := now - config.windowNs;
      SinceTwice(distinct, last - config.windowNs, cutoff);
      while trades != [] && trades[0].timeNs < cutoff
        invariant Since(trades, cutoff) == Since(distinct, cutoff) && Ordered(trades, last) && totals == Total(trades)
        decreases |trades|
      {
        var expired := trades[0];
        SinceDropsFirst(trades, cutoff);
        TotalDropsFirst(trades);
        RemoveUndoesAdd(Total(trades[1..]), expired);
        trades := trades[1..];
        totals := Remove(totals, expired);
      }
      SinceAll(trades, cutoff);
      TotalCounts(trades);
      if totals.count == 0 {
        totals := EMPTY;
      }
    }

    /** The segment of event `x` is the open one, at the event's time, with expired trades forgotten. */
    method Place(x: Item) returns (out: seq<Row>)
      requires Valid() && x.Archived? && ValidItem(x)
      modifies this
      ensures Valid() && stream == Placed(old(stream), x) && current.Some? && current.value.lastTimeNs == x.timeNs
      ensures emitted == old(emitted) + out && arrivalIndex == old(arrivalIndex)
    {
      hide Holds, TradesOk, ClosedRows, Boundary;
      out := [];
      var capture, connection := x.capture, x.connection;
      if current.Some? {
        if capture.None? { capture := current.value.capture; }
        if connection.None? { connection := current.value.connection; }
        var boundary := Boundary(current.value, capture, connection, x);
        if boundary.Some? { out := CloseSegment(boundary.value); }
        else { NoBoundaryNoRegression(current.value, capture, connection, x); }
      }
      if current.None? {
        NewSegment(capture, connection, x);
        NothingHolds(config, current.value);
        assert RowsUpTo(rows, 0) == [];
      } else {
        var before := current.value;
        current := Some(Continued(before, x));
        stream := stream.(open := Some(Open(current.value, Events())));
        ClockMoves(config, before, current.value, Events(), rows, pendingRows, queues);
        ExpireTrades(x.timeNs, Events(), before.lastTimeNs);
      }
    }

    method OnTrade(x: Item)
      requires Valid() && current.Some? && x.Archived? && x.body.TradeBody? && current.value.lastTimeNs == x.timeNs
      modifies this
      ensures Valid() && stream == Append(old(stream), TradeEvent(x.timeNs, x.body.id, TradeOf(x)))
      ensures emitted == old(emitted) && arrivalIndex == old(arrivalIndex)
    {
      hide Holds, TradesOk, ClosedRows;
      var id, trade := x.body.id, TradeOf(x);
      ghost var events := Events();
      ghost var e := TradeEvent(x.timeNs, id, trade);
      if id in seen {
        RepeatedTrade(config, events, trades, totals, seen, id, trade);
      } else {
        NewTrade(config, events, trades, totals, seen, id, trade);
        seen := seen + {id};
        trades := trades + [trade];
        totals := Add(totals, trade);
      }
      TradeAppended(config, current.value, events, e, rows, pendingRows, queues);
      stream := Append(stream, e);
    }

    method OnBook(arrival: nat, x: Item, values: BookValues) returns (out: seq<Row>)
      requires Valid() && current.Some? && x.Archived? && current.value.lastTimeNs == x.timeNs
      modifies this
      ensures Valid() && stream == Append(old(stream), BookEvent(arrival, x.timeNs, x.ordinal, values))
      ensures emitted == old(emitted) + out && arrivalIndex == old(arrivalIndex)
      ensures Young(config, rows, pendingRows, x.timeNs)
    {
      hide Holds, TradesOk, ClosedRows, Young;
      var book := BookEvent(arrival, x.timeNs, x.ordinal, values);
      ghost var events := Events();
      rows, pendingRows, queues, out :=
        DecideOnBook(config, current.value, events, book, trades, totals, seen, rows, pendingRows, queues);
      TradesIgnoreBook(config, events, book, x.timeNs, trades, totals, seen);
      stream := Append(stream, book);
      emitted := emitted + out;
    }

    /** Consume one record and return the rows it completes. */
    method Feed(x: Item) returns (out: seq<Row>)
      requires Valid() && ValidItem(x)
      modifies this
      ensures Valid() && stream == Read(old(stream), x) && emitted == old(emitted) + out
      ensures IsValidBook(x) ==> Young(config, rows, pendingRows, x.timeNs)
    {
      hide Holds, TradesOk, ClosedRows, Close, Young, ReadEvent;
      var arrival := arrivalIndex;
      arrivalIndex := arrivalIndex + 1;
      stream := stream.(arrival := stream.arrival + 1);
      match x
      case BadRecord =>
        out := CloseSegment(InvalidRecord);
      case Marker(name) =>
        out := CloseSegment(MarkerSeen(name));
      case Archived(gapBefore, _, _, _, _, _, _, _) =>
        out := [];
        if gapBefore.Some? { out := CloseSegment(GapBefore(gapBefore.value)); }
        var more := FeedEvent(arrival, x);
        out := out + more;
    }

    method FeedEvent(arrival: nat, x: Item) returns (out: seq<Row>)
      requires Valid() && x.Archived? && ValidItem(x) && arrivalIndex == arrival + 1
      modifies this
      ensures Valid() && stream == ReadEvent(old(stream), x) && emitted == old(emitted) + out
      ensures IsValidBook(x) ==> Young(config, rows, pendingRows, x.timeNs)
    {
      hide Holds, TradesOk, ClosedRows, Close, Young, Placed, BookFeatures;
      if x.body.InvalidBody? {
        out := CloseSegment(InvalidEvent);
        return;
      }
      out := Place(x);
      if x.body.TradeBody? {
        OnTrade(x);
        return;
      }
      var values := BookFeatures(x.body.levels);
      var more;
      if values.None? { more := CloseSegment(InvalidEvent); } else { more := OnBook(arrival, x, values.value); }
      out := out + more;
    }

    /** The logical end of the archive. */
    method Finalize() returns (out: seq<Row>)
      requires Valid()
      modifies this
      ensures Valid() && emitted == old(emitted) + out && stream == Close(old(stream), EndOfStream)
      ensures emitted == ClosedRows(config, stream.closed)
    {
      out := CloseSegment(EndOfStream);
    }
  }

  /** Feeding a whole archive and finalizing gives exactly the naive rows. */
  method BuildFeatures(c: Config, items: seq<Item>) returns (rows: seq<Row>)
    requires ValidConfig(c) && ValidItems(items)
    ensures rows == AllRows(c, items)
  {
    hide Holds, TradesOk, ClosedRows, Close, Young, Read, ValidBody, BookFeatures, RowsUpTo;
    var builder := new CausalHFTFeatureBuilder(c);
    rows := [];
    assert items[..0] == [];
    for i := 0 to |items|
      invariant fresh(builder) && builder.Valid() && builder.config == c
      invariant builder.stream == ReadAll(items[..i]) && builder.emitted == rows
    {
      assert items[..i + 1][..i] == items[..i];
      var out := builder.Feed(items[i]);
      rows := rows + out;
    }
    assert items[..|items|] == items;
    var out := builder.Finalize();
    rows := rows + out;
  }
}
