/** Online and offline fills: the engine's pending order against the replay index, over the same books. */
module FillAgreement {
  import opened Envelopes
  import opened VisibleDepth
  import opened Books
  import opened ShadowAccount
  import opened ShadowSafety
  import opened ShadowTiming
  import RI = ReplayIndex
  import RS = RecordStream

  // ---------------------------------------------------------------- offline: replaying orders

  datatype Outcome = Executed(ordinal: int, monotonicNs: int, execution: Execution) | NotExecuted(reason: RI.Reason)

  /** What the replay of one order promises, from the plain forward walk. */
  ghost predicate Replays(outcome: Outcome, books: seq<Book>, o: RI.Order, latencyNs: nat, maxGapNs: Option<int>,
      feeRate: real)
    requires forall b :: b in books ==> ValidBook(b)
  {
    match RI.LinearScan(books, o, o.decisionMonotonicNs + latencyNs, maxGapNs)
    case Selected(b) =>
      b in books && ValidBook(b)
        && outcome == Executed(b.ordinal, b.monotonicNs, Execute(o.side, LevelsFor(b, o.side), o.request, feeRate))
    case Refused(reason) => outcome == NotExecuted(reason)
    case PrecedesDue => false
  }

  method ReplayOrders(books: seq<Book>, orders: seq<RI.Order>, latencyNs: nat, maxGapNs: Option<int>, feeRate: real)
    returns (outcomes: seq<Outcome>)
    requires RI.ArchiveOrdered(books) && forall b :: b in books ==> ValidBook(b)
    requires forall o :: o in orders ==> ValidRequest(o.request)
    ensures |outcomes| == |orders|
    ensures forall k :: 0 <= k < |orders| ==> Replays(outcomes[k], books, orders[k], latencyNs, maxGapNs, feeRate)
  {
    hide Execute, RI.LinearScan, RI.Indexes;
    var index := RI.BuildIndex(books, maxGapNs);
    outcomes := [];
    for k := 0 to |orders|
      invariant |outcomes| == k
      invariant forall l :: 0 <= l < k ==> Replays(outcomes[l], books, orders[l], latencyNs, maxGapNs, feeRate)
    {
      var o := orders[k];
      var due := o.decisionMonotonicNs + latencyNs;
      var selection := RI.Select(index, books, maxGapNs, o, due);
      var outcome;
      if selection.Refused? {
        outcome := NotExecuted(selection.reason);
      } else {
        ScanStaysInside(books, o, due, maxGapNs);
        var b := selection.book;
        var execution := SweepVisibleDepth(o.side, LevelsFor(b, o.side), o.request, feeRate);
        outcome := Executed(b.ordinal, b.monotonicNs, execution);
      }
      outcomes := outcomes + [outcome];
    }
  }

  lemma {:induction false} WalkStaysInside(books: seq<Book>, i: nat, first: bool, due: int, maxGapNs: Option<int>)
    requires if first then i < |books| else 0 < i
    ensures var s := RI.Walk(books, i, first, due, maxGapNs);
      (s.Selected? ==> s.book in books) && !s.PrecedesDue?
    decreases |books| - i
  {
    if i < |books| && books[i].monotonicNs < due { WalkStaysInside(books, i + 1, false, due, maxGapNs); }
  }

  lemma ScanStaysInside(books: seq<Book>, o: RI.Order, due: int, maxGapNs: Option<int>)
    ensures var s := RI.LinearScan(books, o, due, maxGapNs);
      (s.Selected? ==> s.book in books) && !s.PrecedesDue?
  {
    var p := RI.Position(books, RI.OrderKey(o));
    RI.PositionSound(books, RI.OrderKey(o));
    if p.Some? { WalkStaysInside(books, p.value, true, due, maxGapNs); }
  }

  // ---------------------------------------------------------------- offline, whatever the arrival order

  predicate SameCapture(a: Book, b: Book) { a.captureId == b.captureId }

  predicate OneMarket(bs: seq<Book>) {
    forall i, j :: 0 <= i < j < |bs| ==> bs[i].market == bs[j].market
  }

  /** What the loader and the index demand of books: no ordinal of a capture occurs twice. */
  predicate Archivable(bs: seq<Book>) {
    forall i, j :: 0 <= i < j < |bs| && SameCapture(bs[i], bs[j]) ==> bs[i].ordinal != bs[j].ordinal
  }

  /** `sorted` holds the same books, each capture's books together and by ordinal. */
  ghost predicate SortedFrom(sorted: seq<Book>, bs: seq<Book>) {
    && RI.ArchiveOrdered(sorted)
    && (forall p, q :: 0 <= p < q < |sorted| && RI.SameStream(sorted[p], sorted[q]) ==>
      sorted[p].ordinal < sorted[q].ordinal)
    && (forall p :: 0 <= p < |sorted| ==> sorted[p] in bs)
    && forall i :: 0 <= i < |bs| ==> bs[i] in sorted
  }

  /** `b` is of the capture of `a` with an ordinal from that of `a` to that of `z`. */
  predicate Within(a: Book, b: Book, z: Book) {
    SameCapture(a, b) && a.ordinal <= b.ordinal <= z.ordinal
  }

  predicate Between(a: Book, b: Book, z: Book) {
    SameCapture(a, b) && a.ordinal < b.ordinal < z.ordinal
  }

  /** No book of the capture has an ordinal between those of `i` and `k`. */
  predicate NextByOrdinal(bs: seq<Book>, i: nat, k: nat)
    requires i < |bs| && k < |bs|
  {
    && SameCapture(bs[i], bs[k]) && bs[i].ordinal < bs[k].ordinal
    && forall m :: 0 <= m < |bs| ==> !Between(bs[i], bs[m], bs[k])
  }

  /** Nothing of the capture with an ordinal on the way is due before `j`. */
  predicate NoneDueBetween(bs: seq<Book>, d: nat, j: nat, due: int)
    requires d < |bs| && j < |bs|
  {
    forall k :: 0 <= k < |bs| && Between(bs[d], bs[k], bs[j]) ==> bs[k].monotonicNs < due
  }

  /** From `i` to `k` is one step by ordinal on the way from `d` to `j`. */
  predicate StepWithin(bs: seq<Book>, d: nat, j: nat, i: nat, k: nat)
    requires d < |bs| && j < |bs| && i < |bs| && k < |bs|
  {
    Within(bs[d], bs[i], bs[j]) && Within(bs[d], bs[k], bs[j]) && NextByOrdinal(bs, i, k)
  }

  /** From one ordinal to the next on the way there is no boundary. */
  predicate NoBoundaryWithin(bs: seq<Book>, d: nat, j: nat, maxGapNs: int)
    requires d < |bs| && j < |bs|
  {
    forall i, k :: 0 <= i < |bs| && 0 <= k < |bs| && StepWithin(bs, d, j, i, k) ==>
      RI.Boundary(bs[i], bs[k], Some(maxGapNs)).None?
  }

  /**
   Book `j` is the first due by ordinal, without a boundary on the way: told from ordinals alone, wherever in the
   stream the books arrived.
   */
  predicate ArchivePath(bs: seq<Book>, d: nat, j: nat, due: int, maxGapNs: int)
    requires d < |bs| && j < |bs|
  {
    && SameCapture(bs[d], bs[j]) && bs[d].ordinal < bs[j].ordinal && bs[j].monotonicNs >= due
    && NoneDueBetween(bs, d, j, due) && NoBoundaryWithin(bs, d, j, maxGapNs)
  }

  /** The same along the sorted books. */
  predicate SortedPath(sorted: seq<Book>, p: nat, q: nat, due: int, maxGapNs: int)
    requires q < |sorted|
  {
    && p < q && sorted[q].monotonicNs >= due && (forall r :: p < r < q ==> sorted[r].monotonicNs < due)
    && forall r :: p < r <= q ==> Continues(sorted, r, maxGapNs)
  }

  predicate Continues(sorted: seq<Book>, r: nat, maxGapNs: int)
    requires 0 < r < |sorted|
  {
    RI.SameStream(sorted[r - 1], sorted[r]) && RI.Boundary(sorted[r - 1], sorted[r], Some(maxGapNs)).None?
  }

  lemma {:induction false} WalkIsPath(sorted: seq<Book>, p: nat, q: nat, due: int, maxGapNs: int)
    requires RI.ArchiveOrdered(sorted) && p < |sorted| && q < |sorted|
    ensures RI.Walk(sorted, p + 1, false, due, Some(maxGapNs)) == RI.Selected(sorted[q])
       <==> SortedPath(sorted, p, q, due, maxGapNs)
    decreases |sorted| - p
  {
    var n := p + 1;
    if n < |sorted| && Continues(sorted, n, maxGapNs) {
      if sorted[n].monotonicNs >= due {
        if q != n { assert RI.KeyOf(sorted[q]) != RI.KeyOf(sorted[n]); }
      } else {
        WalkIsPath(sorted, n, q, due, maxGapNs);
      }
    }
  }

  lemma PositionOf(sorted: seq<Book>, bs: seq<Book>, i: nat) returns (p: nat)
    requires SortedFrom(sorted, bs) && i < |bs|
    ensures p < |sorted| && sorted[p] == bs[i]
  {
    assert bs[i] in sorted;
    p :| 0 <= p < |sorted| && sorted[p] == bs[i];
  }

  lemma ArrivalOf(sorted: seq<Book>, bs: seq<Book>, p: nat) returns (i: nat)
    requires SortedFrom(sorted, bs) && p < |sorted|
    ensures i < |bs| && bs[i] == sorted[p]
  {
    assert sorted[p] in bs;
    i :| 0 <= i < |bs| && bs[i] == sorted[p];
  }

  /** In one market, sorted positions follow the ordinals of a capture. */
  lemma OrdinalsSorted(sorted: seq<Book>, bs: seq<Book>, p: nat, q: nat)
    requires SortedFrom(sorted, bs) && OneMarket(bs) && p < |sorted| && q < |sorted|
    requires SameCapture(sorted[p], sorted[q])
    ensures p < q <==> sorted[p].ordinal < sorted[q].ordinal
    ensures RI.SameStream(sorted[p], sorted[q])
  {
    var i := ArrivalOf(sorted, bs, p);
    var j := ArrivalOf(sorted, bs, q);
    assert bs[i].market == bs[j].market;
  }

  /** A sorted step is a step from one ordinal to the next. */
  lemma StepIsNext(sorted: seq<Book>, bs: seq<Book>, i: nat, k: nat, r: nat)
    requires SortedFrom(sorted, bs) && OneMarket(bs) && 0 < r < |sorted| && i < |bs| && k < |bs|
    requires sorted[r - 1] == bs[i] && sorted[r] == bs[k] && SameCapture(bs[i], bs[k])
    ensures NextByOrdinal(bs, i, k)
  {
    hide SortedFrom;
    OrdinalsSorted(sorted, bs, r - 1, r);
    forall m | 0 <= m < |bs| && SameCapture(bs[i], bs[m]) ensures !Between(bs[i], bs[m], bs[k]) {
      var s := PositionOf(sorted, bs, m);
      OrdinalsSorted(sorted, bs, r - 1, s);
      OrdinalsSorted(sorted, bs, s, r);
    }
  }

  lemma NextIsStep(sorted: seq<Book>, bs: seq<Book>, i: nat, k: nat, r: nat)
    requires SortedFrom(sorted, bs) && OneMarket(bs) && r < |sorted| && i < |bs| && k < |bs|
    requires sorted[r] == bs[k] && NextByOrdinal(bs, i, k)
    ensures r > 0 && sorted[r - 1] == bs[i]
  {
    var p := PositionOf(sorted, bs, i);
    OrdinalsSorted(sorted, bs, p, r);
    if p + 1 < r {
      var m := ArrivalOf(sorted, bs, p + 1);
      OrdinalsSorted(sorted, bs, p, p + 1);
      OrdinalsSorted(sorted, bs, p + 1, r);
      assert Between(bs[i], bs[m], bs[k]);
    }
  }

  lemma SortedPathByOrdinal(sorted: seq<Book>, bs: seq<Book>, d: nat, j: nat, p: nat, q: nat, due: int, maxGapNs: int)
    requires SortedFrom(sorted, bs) && OneMarket(bs) && d < |bs| && j < |bs| && p < |sorted| && q < |sorted|
    requires sorted[p] == bs[d] && sorted[q] == bs[j] && SortedPath(sorted, p, q, due, maxGapNs)
    ensures ArchivePath(bs, d, j, due, maxGapNs)
  {
    hide SortedFrom, NextByOrdinal, Continues;
    StaysInStream(sorted, p, q, maxGapNs);
    OrdinalsSorted(sorted, bs, p, q);
    forall k | 0 <= k < |bs| && Between(bs[d], bs[k], bs[j]) ensures bs[k].monotonicNs < due {
      var r := PositionOf(sorted, bs, k);
      OrdinalsSorted(sorted, bs, p, r);
      OrdinalsSorted(sorted, bs, r, q);
    }
    forall i, k | 0 <= i < |bs| && 0 <= k < |bs| && StepWithin(bs, d, j, i, k)
      ensures RI.Boundary(bs[i], bs[k], Some(maxGapNs)).None?
    {
      var r := PositionOf(sorted, bs, k);
      NextIsStep(sorted, bs, i, k, r);
      NextGrows(bs, i, k);
      OrdinalsSorted(sorted, bs, p, r);
      OrdinalsSorted(sorted, bs, q, r);
      assert Continues(sorted, r, maxGapNs);
      ContinuesUnbounded(sorted, r, maxGapNs);
    }
  }

  lemma NextGrows(bs: seq<Book>, i: nat, k: nat)
    requires i < |bs| && k < |bs| && NextByOrdinal(bs, i, k)
    ensures SameCapture(bs[i], bs[k]) && bs[i].ordinal < bs[k].ordinal
  {
  }

  lemma ContinuesUnbounded(sorted: seq<Book>, r: nat, maxGapNs: int)
    requires 0 < r < |sorted| && Continues(sorted, r, maxGapNs)
    ensures RI.Boundary(sorted[r - 1], sorted[r], Some(maxGapNs)).None?
  {
  }

  lemma {:induction false} StaysInStream(sorted: seq<Book>, p: nat, q: nat, maxGapNs: int)
    requires p <= q < |sorted| && forall r :: p < r <= q ==> Continues(sorted, r, maxGapNs)
    ensures RI.SameStream(sorted[p], sorted[q])
    decreases q
  {
    if p < q {
      StaysInStream(sorted, p, q - 1, maxGapNs);
      assert Continues(sorted, q, maxGapNs);
    }
  }

  lemma PathByOrdinalSorted(sorted: seq<Book>, bs: seq<Book>, d: nat, j: nat, p: nat, q: nat, due: int, maxGapNs: int)
    requires SortedFrom(sorted, bs) && OneMarket(bs) && d < |bs| && j < |bs| && p < |sorted| && q < |sorted|
    requires sorted[p] == bs[d] && sorted[q] == bs[j] && ArchivePath(bs, d, j, due, maxGapNs)
    ensures SortedPath(sorted, p, q, due, maxGapNs)
  {
    hide NextByOrdinal, SortedFrom;
    OrdinalsSorted(sorted, bs, p, q);
    forall r | p < r <= q ensures Continues(sorted, r, maxGapNs) && (r < q ==> sorted[r].monotonicNs < due) {
      OneStream(sorted, bs, p, r - 1, q);
      OneStream(sorted, bs, p, r, q);
      var i := ArrivalOf(sorted, bs, r - 1);
      var k := ArrivalOf(sorted, bs, r);
      OrdinalsSorted(sorted, bs, r - 1, r);
      OrdinalsSorted(sorted, bs, p, r);
      OrdinalsSorted(sorted, bs, p, r - 1);
      OrdinalsSorted(sorted, bs, r, q);
      OrdinalsSorted(sorted, bs, q, r);
      OrdinalsSorted(sorted, bs, r - 1, p);
      StepIsNext(sorted, bs, i, k, r);
      if r < q { assert Between(bs[d], bs[k], bs[j]); }
    }
  }

  lemma OneStream(sorted: seq<Book>, bs: seq<Book>, p: nat, r: nat, q: nat)
    requires SortedFrom(sorted, bs) && p <= r <= q < |sorted| && RI.SameStream(sorted[p], sorted[q])
    ensures RI.SameStream(sorted[p], sorted[r]) && RI.SameStream(sorted[r], sorted[q])
  {
  }

  /** The order as the replay names it: the engine's pending order, anchored at its decision book. */
  function OfflineOrder(market: string, o: PendingOrder): RI.Order {
    RI.Order(o.decision.captureId, o.decision.connectionId, market, o.side, o.request, o.decision.ordinal,
      o.decision.monotonicNs)
  }

  function BookOf(s: RI.Selection): Option<Book> {
    if s.Selected? then Some(s.book) else None
  }

  function OfflineBook(sorted: seq<Book>, market: string, o: PendingOrder, maxGapNs: int): Option<Book> {
    BookOf(RI.LinearScan(sorted, OfflineOrder(market, o), o.dueNs, Some(maxGapNs)))
  }

  /** What the replay selects, from ordinals alone: it does not matter in which order the books arrived. */
  lemma OfflineExactly(sorted: seq<Book>, bs: seq<Book>, d: nat, o: PendingOrder, maxGapNs: int, j: nat)
    requires OneMarket(bs) && SortedFrom(sorted, bs) && d < |bs| && j < |bs| && o.decision == MarkOf(bs[d])
    requires o.dueNs > o.decision.monotonicNs
    ensures OfflineBook(sorted, bs[d].market, o, maxGapNs) == Some(bs[j]) <==> ArchivePath(bs, d, j, o.dueNs, maxGapNs)
  {
    hide ArchivePath, SortedPath;
    var order := OfflineOrder(bs[d].market, o);
    var p := PositionOf(sorted, bs, d);
    var q := PositionOf(sorted, bs, j);
    RI.PositionUnique(sorted, RI.OrderKey(order), p);
    WalkIsPath(sorted, p, q, o.dueNs, maxGapNs);
    if SortedPath(sorted, p, q, o.dueNs, maxGapNs) {
      SortedPathByOrdinal(sorted, bs, d, j, p, q, o.dueNs, maxGapNs);
    }
    if ArchivePath(bs, d, j, o.dueNs, maxGapNs) {
      PathByOrdinalSorted(sorted, bs, d, j, p, q, o.dueNs, maxGapNs);
    }
  }

  // ---------------------------------------------------------------- paths from decision to fill

  /** Every book that arrived from `d` to `j` is of one capture and connection. */
  predicate OneConnection(bs: seq<Book>, d: nat, j: nat)
    requires j < |bs|
  {
    forall k :: d <= k <= j ==> SameConnection(MarkOf(bs[k]), MarkOf(bs[j]))
  }

  /** No book of the capture that arrived before `d` or after `j` has an ordinal between theirs. */
  predicate NoStray(bs: seq<Book>, d: nat, j: nat)
    requires d <= j < |bs|
  {
    forall k :: 0 <= k < |bs| && (k < d || k > j) ==> !Between(bs[d], bs[k], bs[j])
  }

  /** No two consecutive books from `d` to `j` are further apart than allowed. */
  predicate NoWideGap(bs: seq<Book>, d: nat, j: nat, maxGapNs: int)
    requires j < |bs|
  {
    forall k :: d < k <= j ==> Near(bs, k, maxGapNs)
  }

  predicate Near(bs: seq<Book>, k: nat, maxGapNs: int)
    requires 0 < k < |bs|
  {
    bs[k].monotonicNs - bs[k - 1].monotonicNs <= maxGapNs
  }

  predicate Unbroken(bs: seq<Book>, k: nat)
    requires 0 < k < |bs|
  {
    ContinuityBreak(Some(MarkOf(bs[k - 1])), bs[k]).None?
  }

  predicate FirstDue(bs: seq<Book>, d: nat, j: nat, due: int)
    requires j < |bs|
  {
    d < j && bs[j].monotonicNs >= due && forall k :: d < k < j ==> bs[k].monotonicNs < due
  }

  /** The engine fills at `j` an order decided at `d`. */
  predicate OnlinePath(bs: seq<Book>, d: nat, j: nat, due: int, maxGapNs: int)
    requires j < |bs|
  {
    && FirstDue(bs, d, j, due) && bs[j].monotonicNs - due <= maxGapNs
    && forall k :: d < k <= j ==> Unbroken(bs, k)
  }

  /** Neither ordinals nor times go back while the connection stays. */
  predicate Grows(bs: seq<Book>, k: nat)
    requires 0 < k < |bs|
  {
    SameConnection(MarkOf(bs[k - 1]), MarkOf(bs[k])) ==>
      bs[k - 1].ordinal < bs[k].ordinal && bs[k - 1].monotonicNs < bs[k].monotonicNs
  }

  predicate AllGrow(bs: seq<Book>) {
    forall k :: 0 < k < |bs| ==> Grows(bs, k)
  }

  lemma {:induction false} OnlineStaysOnConnection(bs: seq<Book>, d: nat, j: nat)
    requires d <= j < |bs| && forall k :: d < k <= j ==> Unbroken(bs, k)
    ensures OneConnection(bs, d, j)
    decreases j
  {
    if d < j {
      OnlineStaysOnConnection(bs, d, j - 1);
      assert Unbroken(bs, j);
    }
  }

  lemma {:induction false} GrowsAlong(bs: seq<Book>, d: nat, j: nat, i: nat, k: nat)
    requires d <= i < k <= j < |bs| && OneConnection(bs, d, j) && AllGrow(bs)
    ensures bs[i].ordinal < bs[k].ordinal && bs[i].monotonicNs < bs[k].monotonicNs && SameCapture(bs[i], bs[k])
    decreases k
  {
    assert SameConnection(MarkOf(bs[k - 1]), MarkOf(bs[j])) && SameConnection(MarkOf(bs[k]), MarkOf(bs[j]));
    assert Grows(bs, k);
    if i < k - 1 { GrowsAlong(bs, d, j, i, k - 1); }
  }

  /** Among finitely many books with an ordinal below that of `k`, one is the next below. */
  lemma {:induction false} PreviousByOrdinal(bs: seq<Book>, d: nat, k: nat, n: nat) returns (i: nat)
    requires d < |bs| && k < |bs| && n <= |bs| && SameCapture(bs[d], bs[k]) && bs[d].ordinal < bs[k].ordinal
    ensures i < |bs| && SameCapture(bs[d], bs[i]) && bs[d].ordinal <= bs[i].ordinal < bs[k].ordinal
    ensures forall m :: 0 <= m < n ==> !Between(bs[i], bs[m], bs[k])
    decreases n
  {
    if n == 0 { i := d; }
    else {
      i := PreviousByOrdinal(bs, d, k, n - 1);
      if Between(bs[i], bs[n - 1], bs[k]) { i := n - 1; }
    }
  }

  /** On the archive's path every book follows its predecessor by ordinal without a boundary. */
  lemma NoMarkOnPath(bs: seq<Book>, d: nat, j: nat, k: nat, due: int, maxGapNs: int) returns (i: nat)
    requires d < |bs| && j < |bs| && k < |bs| && ArchivePath(bs, d, j, due, maxGapNs) && bs[d].monotonicNs < due
    requires Within(bs[d], bs[k], bs[j]) && bs[d].ordinal < bs[k].ordinal && Archivable(bs)
    ensures i < |bs| && RI.Boundary(bs[i], bs[k], Some(maxGapNs)).None? && bs[i].monotonicNs < due
    ensures StepWithin(bs, d, j, i, k)
  {
    i := PreviousByOrdinal(bs, d, k, |bs|);
    assert NextByOrdinal(bs, i, k);
    assert StepWithin(bs, d, j, i, k);
    if bs[i].ordinal > bs[d].ordinal { assert Between(bs[d], bs[i], bs[j]); } else { SameBook(bs, d, i); }
  }

  lemma SameBook(bs: seq<Book>, i: nat, j: nat)
    requires Archivable(bs) && i < |bs| && j < |bs| && SameCapture(bs[i], bs[j]) && bs[i].ordinal == bs[j].ordinal
    ensures i == j
  {
  }

  /** The same books up to their marks, and the same ones marked. */
  predicate Alike(os: seq<Book>, bs: seq<Book>) {
    |os| == |bs| && forall i :: 0 <= i < |bs| ==> AlikeBooks(os[i], bs[i])
  }

  predicate AlikeBooks(a: Book, b: Book) {
    a.(gap := b.gap, regression := b.regression) == b && (a.gap.Some? || a.regression <==> b.gap.Some? || b.regression)
  }

  /** Where the archive's path leads to `j` and nothing else arrived on the way, so does the engine's. */
  lemma ArchiveThenOnline(os: seq<Book>, bs: seq<Book>, d: nat, j: nat, due: int, maxGapNs: int)
    requires Alike(os, bs) && Archivable(os) && AllGrow(bs) && d < j < |bs| && bs[d].monotonicNs < due
    requires ArchivePath(os, d, j, due, maxGapNs) && OneConnection(bs, d, j)
    ensures OnlinePath(bs, d, j, due, maxGapNs)
  {
    hide ArchivePath, Archivable, NextByOrdinal, AllGrow;
    assert AlikeBooks(os[d], bs[d]) && AlikeBooks(os[j], bs[j]);
    PathEnds(os, d, j, due, maxGapNs);
    forall k | d < k <= j ensures Unbroken(bs, k) && (k < j ==> bs[k].monotonicNs < due) {
      assert AlikeBooks(os[k], bs[k]);
      GrowsAlong(bs, d, j, d, k);
      if k < j { GrowsAlong(bs, d, j, k, j); }
      var i := NoMarkOnPath(os, d, j, k, due, maxGapNs);
      assert SameConnection(MarkOf(bs[k - 1]), MarkOf(bs[j])) && SameConnection(MarkOf(bs[k]), MarkOf(bs[j]));
    }
    var i := NoMarkOnPath(os, d, j, j, due, maxGapNs);
  }

  lemma PathEnds(bs: seq<Book>, d: nat, j: nat, due: int, maxGapNs: int)
    requires d < |bs| && j < |bs| && ArchivePath(bs, d, j, due, maxGapNs)
    ensures SameCapture(bs[d], bs[j]) && bs[d].ordinal < bs[j].ordinal && bs[j].monotonicNs >= due
    ensures forall k :: 0 <= k < |bs| && Between(bs[d], bs[k], bs[j]) ==> bs[k].monotonicNs < due
  {
  }

  /** With nothing of the capture elsewhere, the next by ordinal is the next to arrive. */
  lemma NextIsNextArrived(os: seq<Book>, bs: seq<Book>, d: nat, j: nat, i: nat, k: nat)
    requires Alike(os, bs) && Archivable(os) && AllGrow(bs) && d < j < |bs| && OneConnection(bs, d, j)
    requires NoStray(bs, d, j) && i < |os| && k < |os|
    requires StepWithin(os, d, j, i, k)
    ensures d < k <= j && i == k - 1
  {
    hide AllGrow;
    assert forall m :: 0 <= m < |bs| ==> AlikeBooks(os[m], bs[m]);
    GrowsAlong(bs, d, j, d, j);
    InRange(os, bs, d, j, i);
    InRange(os, bs, d, j, k);
    if i < k - 1 {
      assert !Between(os[i], os[k - 1], os[k]);
      GrowsAlong(bs, d, j, i, k - 1);
      GrowsAlong(bs, d, j, k - 1, k);
    }
    if k < i { GrowsAlong(bs, d, j, k, i); }
  }

  lemma InRange(os: seq<Book>, bs: seq<Book>, d: nat, j: nat, k: nat)
    requires Alike(os, bs) && Archivable(os) && d < j < |bs| && k < |bs| && NoStray(bs, d, j)
    requires Within(os[d], os[k], os[j]) && SameCapture(os[d], os[j])
    ensures d <= k <= j
  {
    assert AlikeBooks(os[d], bs[d]) && AlikeBooks(os[k], bs[k]) && AlikeBooks(os[j], bs[j]);
    if os[k].ordinal == os[d].ordinal { SameBook(os, d, k); }
    else if os[k].ordinal == os[j].ordinal { SameBook(os, j, k); }
    else { assert Between(bs[d], bs[k], bs[j]); }
  }

  lemma ArrivedIsNext(os: seq<Book>, bs: seq<Book>, d: nat, j: nat, k: nat)
    requires Alike(os, bs) && Archivable(os) && AllGrow(bs) && d < k <= j < |bs| && OneConnection(bs, d, j)
    requires NoStray(bs, d, j)
    ensures StepWithin(os, d, j, k - 1, k)
  {
    hide AllGrow, Archivable;
    assert forall m :: 0 <= m < |bs| ==> AlikeBooks(os[m], bs[m]);
    GrowsAlong(bs, d, j, k - 1, k);
    if d < k - 1 { GrowsAlong(bs, d, j, d, k - 1); }
    if k < j { GrowsAlong(bs, d, j, k, j); }
    forall m | 0 <= m < |os| ensures !Between(os[k - 1], os[m], os[k]) {
      if d <= m < k - 1 { GrowsAlong(bs, d, j, m, k - 1); }
      if k < m <= j { GrowsAlong(bs, d, j, k, m); }
      if m < d || m > j { assert !Between(bs[d], bs[m], bs[j]); }
    }
  }

  /** The engine's path, without a gap too wide, is the archive's. */
  lemma OnlineThenArchive(os: seq<Book>, bs: seq<Book>, d: nat, j: nat, due: int, maxGapNs: int)
    requires Alike(os, bs) && Archivable(os) && AllGrow(bs) && d < j < |bs|
    requires OnlinePath(bs, d, j, due, maxGapNs) && NoStray(bs, d, j) && NoWideGap(bs, d, j, maxGapNs)
    ensures ArchivePath(os, d, j, due, maxGapNs)
  {
    hide AllGrow, Archivable, NoStray, NextByOrdinal, Alike, Within;
    OnlineStaysOnConnection(bs, d, j);
    GrowsAlong(bs, d, j, d, j);
    BothAlike(os, bs, d, j);
    forall k | 0 <= k < |os| && Between(os[d], os[k], os[j]) ensures os[k].monotonicNs < due {
      BetweenIsWithin(os[d], os[k], os[j]);
      InRange(os, bs, d, j, k);
      BothAlike(os, bs, k, k);
    }
    forall i, k | 0 <= i < |os| && 0 <= k < |os| && StepWithin(os, d, j, i, k)
      ensures RI.Boundary(os[i], os[k], Some(maxGapNs)).None?
    {
      NextIsNextArrived(os, bs, d, j, i, k);
      GrowsAlong(bs, d, j, i, k);
      BothAlike(os, bs, i, k);
      assert Unbroken(bs, k) && Near(bs, k, maxGapNs);
    }
  }

  lemma BetweenIsWithin(a: Book, b: Book, z: Book)
    ensures Between(a, b, z) ==> Within(a, b, z)
  {
  }

  lemma BothAlike(os: seq<Book>, bs: seq<Book>, i: nat, k: nat)
    requires Alike(os, bs) && i < |bs| && k < |bs|
    ensures |os| == |bs| && AlikeBooks(os[i], bs[i]) && AlikeBooks(os[k], bs[k])
  {
  }

  /** The engine's path is the archive's if and only if no gap on the way is too wide. */
  lemma OnlineAgainstArchive(os: seq<Book>, bs: seq<Book>, d: nat, j: nat, due: int, maxGapNs: int)
    requires Alike(os, bs) && Archivable(os) && AllGrow(bs) && d < j < |bs|
    requires OnlinePath(bs, d, j, due, maxGapNs) && NoStray(bs, d, j)
    ensures ArchivePath(os, d, j, due, maxGapNs) <==> NoWideGap(bs, d, j, maxGapNs)
  {
    hide AllGrow, Archivable, NoStray, NextByOrdinal, Within, Alike, Unbroken;
    BothAlike(os, bs, d, j);
    OnlineStaysOnConnection(bs, d, j);
    if ArchivePath(os, d, j, due, maxGapNs) {
      forall k | d < k <= j ensures Near(bs, k, maxGapNs) {
        ArrivedIsNext(os, bs, d, j, k);
        BothAlike(os, bs, k - 1, k);
      }
    }
    if NoWideGap(bs, d, j, maxGapNs) { OnlineThenArchive(os, bs, d, j, due, maxGapNs); }
  }

  // ---------------------------------------------------------------- online: the engine's pending order

  /** A run of books, each of which the engine committed; no halts and no stops. */
  ghost predicate AcceptedStream(c: Config, start: State, txns: seq<Txn>) {
    ValidConfig(c) && JustStarted(c, start) && ValidTxns(txns) && |After(c, start, txns).seen| == |txns|
  }

  function BooksOf(txns: seq<Txn>): (bs: seq<Book>)
    requires forall i :: 0 <= i < |txns| ==> txns[i].OnBook?
    ensures |bs| == |txns| && forall i :: 0 <= i < |txns| ==> bs[i] == txns[i].book
  {
    seq(|txns|, i requires 0 <= i < |txns| => txns[i].book)
  }

  ghost function StateAfter(c: Config, start: State, txns: seq<Txn>, n: nat): State
    requires ValidTxns(txns) && n <= |txns|
  {
    After(c, start, txns[..n]).state
  }

  lemma {:induction false} AtMostOneEach(c: Config, start: State, txns: seq<Txn>)
    requires ValidTxns(txns)
    ensures |After(c, start, txns).seen| <= |txns|
    decreases |txns|
  {
    if txns != [] { AtMostOneEach(c, start, txns[..|txns| - 1]); }
  }

  /** Without its last book an accepted stream is accepted, and that book was committed. */
  lemma LastAccepted(c: Config, start: State, txns: seq<Txn>)
    requires AcceptedStream(c, start, txns) && txns != []
    ensures var m := |txns| - 1;
      && AcceptedStream(c, start, txns[..m]) && txns[m].OnBook?
      && StepBook(c, StateAfter(c, start, txns, m), txns[m].book, txns[m].intent)
         == Committed(StateAfter(c, start, txns, |txns|))
  {
    hide StepBook, JustStarted, ValidConfig, Halted, StoppedGracefully, KindOf;
    var m := |txns| - 1;
    assert txns[..|txns|] == txns;
    AtMostOneEach(c, start, txns[..m]);
  }

  /** A prefix of an accepted stream is accepted, and its last book was committed. */
  lemma {:induction false} PrefixAccepted(c: Config, start: State, txns: seq<Txn>, n: nat)
    requires AcceptedStream(c, start, txns) && n <= |txns|
    ensures AcceptedStream(c, start, txns[..n])
    ensures n > 0 ==>
      && txns[n - 1].OnBook?
      && StepBook(c, StateAfter(c, start, txns, n - 1), txns[n - 1].book, txns[n - 1].intent)
         == Committed(StateAfter(c, start, txns, n))
    decreases |txns|
  {
    hide StepBook, JustStarted, ValidConfig, Advance;
    if txns != [] {
      var m := |txns| - 1;
      AtMostOneEach(c, start, txns[..m]);
      LastAccepted(c, start, txns);
      if n <= m {
        PrefixAccepted(c, start, txns[..m], n);
        assert txns[..m][..n] == txns[..n];
        if n > 0 { assert txns[..m][..n - 1] == txns[..n - 1]; }
      } else {
        assert txns[..n] == txns;
        assert txns[..n - 1] == txns[..m];
      }
    }
  }

  /** What became of the order once `n` books were processed. */
  datatype Fate = Waiting | FilledAt(j: nat) | Lost

  function FateAfter(bs: seq<Book>, d: nat, due: int, maxGapNs: int, n: nat): Fate
    requires d < n <= |bs|
  {
    if n == d + 1 then Waiting
    else
      var before := FateAfter(bs, d, due, maxGapNs, n - 1);
      if before != Waiting then before
      else if !Unbroken(bs, n - 1) then Lost
      else if bs[n - 1].monotonicNs < due then Waiting
      else if bs[n - 1].monotonicNs - due > maxGapNs then Lost
      else FilledAt(n - 1)
  }

  lemma {:induction false} FateIsPath(bs: seq<Book>, d: nat, due: int, maxGapNs: int, n: nat)
    requires d < n <= |bs|
    ensures var f := FateAfter(bs, d, due, maxGapNs, n);
      && (f.Waiting? ==> forall k :: d < k < n ==> Unbroken(bs, k) && bs[k].monotonicNs < due)
      && (forall j :: d < j < n ==> (f == FilledAt(j) <==> OnlinePath(bs, d, j, due, maxGapNs)))
      && (f.FilledAt? ==> d < f.j < n)
  {
    hide Unbroken;
    if n > d + 1 {
      FateIsPath(bs, d, due, maxGapNs, n - 1);
      var f, m := FateAfter(bs, d, due, maxGapNs, n - 1), n - 1;
      if f.FilledAt? { assert OnlinePath(bs, d, f.j, due, maxGapNs); }
      forall j | d < j < n
        ensures FateAfter(bs, d, due, maxGapNs, n) == FilledAt(j) <==> OnlinePath(bs, d, j, due, maxGapNs)
      {
        if j == m && f.Lost? { LostStaysLost(bs, d, due, maxGapNs, m, j); }
      }
    }
  }

  lemma {:induction false} LostStaysLost(bs: seq<Book>, d: nat, due: int, maxGapNs: int, n: nat, j: nat)
    requires d < n <= j < |bs| && FateAfter(bs, d, due, maxGapNs, n).Lost?
    ensures !OnlinePath(bs, d, j, due, maxGapNs)
  {
    if FateAfter(bs, d, due, maxGapNs, n - 1).Lost? { LostStaysLost(bs, d, due, maxGapNs, n - 1, j); }
    else { var k := n - 1; assert !Unbroken(bs, k) || bs[k].monotonicNs >= due; }
  }

  predicate HasFillOf(s: State, o: PendingOrder) {
    exists f :: f in s.fills && f.order == o
  }

  function FillAt(c: Config, o: PendingOrder, b: Book): Fill
    requires ValidBook(b)
  {
    Fill(o, MarkOf(b), Execute(o.side, LevelsFor(b, o.side), o.request, c.feeRate))
  }

  /** One committed book, seen from the pending order. */
  lemma PendingStep(c: Config, s: State, b: Book, intent: Option<Intent>)
    requires ValidConfig(c) && ValidBook(b) && RunInv(c, s) && s.pending.Some? && StepBook(c, s, b, intent).Committed?
    ensures var t, o := StepBook(c, s, b, intent).state, s.pending.value;
      if ContinuityBreak(s.last, b).Some? then t.pending.None? && t.fills == s.fills
      else if b.monotonicNs < o.dueNs then t.pending == s.pending && t.fills == s.fills
      else
        && (t.pending.None? || NewlyPending(c, t, b))
        && t.fills == (if b.monotonicNs - o.dueNs > c.maxBookGapNs then s.fills else s.fills + [FillAt(c, o, b)])
  {
    RecordShape(c, Prepare(c, s, b), b, intent);
    ReservedSuffices(c, s.account, b, s.pending.value);
    if ContinuityBreak(s.last, b).None? {
      assert SameConnection(s.pending.value.decision, MarkOf(b));
    }
  }

  /** `o` is `s`'s pending order, or was resolved as `fate` says. */
  ghost predicate Follows(c: Config, s: State, o: PendingOrder, fate: Fate, bs: seq<Book>) {
    match fate
    case Waiting => s.pending == Some(o) && !HasFillOf(s, o)
    case Lost => s.pending != Some(o) && !HasFillOf(s, o)
    case FilledAt(j) =>
      && s.pending != Some(o) && j < |bs| && ValidBook(bs[j]) && FillAt(c, o, bs[j]) in s.fills
      && forall f :: f in s.fills && f.order == o ==> f == FillAt(c, o, bs[j])
  }

  /** What is known about a committed state of the stream. */
  lemma StreamState(c: Config, start: State, txns: seq<Txn>, n: nat)
    requires AcceptedStream(c, start, txns) && 0 < n <= |txns|
    ensures txns[n - 1].OnBook? && ValidBook(txns[n - 1].book)
    ensures RunInv(c, StateAfter(c, start, txns, n))
      && StateAfter(c, start, txns, n).last == Some(MarkOf(txns[n - 1].book))
    ensures RunInv(c, StateAfter(c, start, txns, n - 1))
    ensures Regression(StateAfter(c, start, txns, n - 1).last, txns[n - 1].book).None?
    ensures StepBook(c, StateAfter(c, start, txns, n - 1), txns[n - 1].book, txns[n - 1].intent)
         == Committed(StateAfter(c, start, txns, n))
  {
    PrefixAccepted(c, start, txns, n);
    PrefixAccepted(c, start, txns, n - 1);
    EveryHistory(c, start, txns[..n]);
    EveryHistory(c, start, txns[..n - 1]);
    StepShape(c, StateAfter(c, start, txns, n - 1), txns[n - 1].book, txns[n - 1].intent);
    assert ValidTxn(txns[n - 1]);
  }

  /** `o` was accepted on book `d`. */
  ghost predicate DecidedOn(c: Config, start: State, txns: seq<Txn>, d: nat, o: PendingOrder) {
    && AcceptedStream(c, start, txns) && d < |txns| && txns[d].OnBook?
    && StateAfter(c, start, txns, d + 1).pending == Some(o) && o.decision == MarkOf(txns[d].book)
  }

  /** Every order the run ever had is in its decisions. */
  predicate Keyed(s: State) {
    && (s.pending.Some? ==> KeyOf(s.pending.value.decision) in s.decisions)
    && forall f :: f in s.fills ==> KeyOf(f.order.decision) in s.decisions
  }

  /** An order that is new with book `b`: the book carried no decision before. */
  predicate NewOrder(s: State, t: State, b: Book, o: PendingOrder) {
    o.decision == MarkOf(b) && KeyOf(o.decision) !in s.decisions && KeyOf(o.decision) in t.decisions
  }

  predicate NothingForgotten(s: State, t: State) {
    forall key :: key in s.decisions ==> key in t.decisions
  }

  /** Orders and decisions across one committed book. */
  ghost predicate OrdersKeyed(s: State, t: State, b: Book) {
    && NothingForgotten(s, t)
    && (t.pending.Some? ==> NewOrder(s, t, b, t.pending.value) || (t.pending == s.pending && t.fills == s.fills))
    && (t.fills == s.fills
        || exists f :: t.fills == s.fills + [f] && (s.pending == Some(f.order) || NewOrder(s, t, b, f.order)))
  }

  lemma LiquidationOrder(c: Config, s: State, b: Book)
    requires ValidBook(b) && s.pending.None? && Liquidate(c, s, b).Prepared?
    ensures var t := Liquidate(c, s, b).state;
      && NothingForgotten(s, t) && (t.pending.Some? ==> NewOrder(s, t, b, t.pending.value))
      && (t.fills == s.fills || exists f :: t.fills == s.fills + [f] && NewOrder(s, t, b, f.order))
  {
    hide Execute, AfterFill, WhyTurnedDown;
    var recorded := RecordIntent(c, s, b, RecoveryIntent(s.account.base), true, b.monotonicNs).state;
    var t := Liquidate(c, s, b).state;
    if t.fills != s.fills { assert t.fills == s.fills + [t.fills[|s.fills|]]; }
  }

  lemma PreparedOrders(c: Config, s: State, b: Book)
    requires ValidConfig(c) && ValidBook(b) && RunInv(c, s) && Prepare(c, s, b).Prepared?
    ensures OrdersKeyed(s, Prepare(c, s, b).state, b)
  {
    hide Execute, AfterFill, Liquidate, Solvent, Marks;
    if ContinuityBreak(s.last, b).None? {
      ResolveKeeps(c, s, b);
      var t := AfterResolve(c, s, b, Resolve(c, s, b));
      if t.fills != s.fills { assert t.fills == s.fills + [t.fills[|s.fills|]]; }
      if NeedsLiquidation(c, t) {
        LiquidationOrder(c, t, b);
      }
    }
  }

  lemma StepOrders(c: Config, s: State, b: Book, intent: Option<Intent>)
    requires ValidConfig(c) && ValidBook(b) && RunInv(c, s) && StepBook(c, s, b, intent).Committed?
    ensures OrdersKeyed(s, StepBook(c, s, b, intent).state, b)
  {
    hide Prepare, WhyTurnedDown, LiquidationEquity, Drawdown;
    PreparedOrders(c, s, b);
  }

  lemma KeyedStep(s: State, t: State, b: Book)
    requires Keyed(s) && OrdersKeyed(s, t, b)
    ensures Keyed(t)
  {
  }

  lemma {:induction false} StreamKeyed(c: Config, start: State, txns: seq<Txn>, n: nat)
    requires AcceptedStream(c, start, txns) && n <= |txns|
    ensures Keyed(StateAfter(c, start, txns, n))
  {
    hide StepBook, Keyed, OrdersKeyed;
    if n == 0 {
      assert txns[..0] == [];
      StartsKeyed(c, start);
    } else {
      StreamKeyed(c, start, txns, n - 1);
      StreamState(c, start, txns, n);
      StepOrders(c, StateAfter(c, start, txns, n - 1), txns[n - 1].book, txns[n - 1].intent);
      KeyedStep(StateAfter(c, start, txns, n - 1), StateAfter(c, start, txns, n), txns[n - 1].book);
    }
  }

  lemma StartsKeyed(c: Config, start: State)
    requires JustStarted(c, start)
    ensures Keyed(start)
  {
  }

  /** An order accepted on book `d` is new with it. */
  lemma DecidedIsNew(c: Config, start: State, txns: seq<Txn>, d: nat, o: PendingOrder)
    requires DecidedOn(c, start, txns, d, o)
    ensures NewOrder(StateAfter(c, start, txns, d), StateAfter(c, start, txns, d + 1), txns[d].book, o)
    ensures !KindOf(c, StateAfter(c, start, txns, d), txns[d].book).Recovered?
    ensures o.dueNs == o.decision.monotonicNs + c.latencyNs
  {
    hide StepBook, Streak, Execute, Solvent, Marks, LiquidatedHere;
    var n, b, s := d + 1, txns[d].book, StateAfter(c, start, txns, d);
    PrefixAccepted(c, start, txns, d);
    EveryHistory(c, start, txns[..d]);
    StreamState(c, start, txns, n);
    StepOrders(c, s, b, txns[d].intent);
    StepShape(c, s, b, txns[d].intent);
    var h := After(c, start, txns[..d]);
    assert s.pending.Some? ==> Open(c, h.seen, h.openAt, s.pending.value);
  }

  lemma NotFilledYet(c: Config, start: State, txns: seq<Txn>, d: nat, o: PendingOrder)
    requires DecidedOn(c, start, txns, d, o)
    ensures !HasFillOf(StateAfter(c, start, txns, d + 1), o)
    ensures KeyOf(o.decision) in StateAfter(c, start, txns, d + 1).decisions
    ensures o.dueNs == o.decision.monotonicNs + c.latencyNs
  {
    hide StepBook, Execute, RunInv, Counted;
    var n, b, s := d + 1, txns[d].book, StateAfter(c, start, txns, d);
    DecidedIsNew(c, start, txns, d, o);
    StreamKeyed(c, start, txns, d);
    StreamState(c, start, txns, n);
    StepShape(c, s, b, txns[d].intent);
  }

  lemma FollowsOneMore(c: Config, s: State, intent: Option<Intent>, o: PendingOrder, bs: seq<Book>, d: nat, n: nat)
    requires ValidConfig(c) && d + 1 < n <= |bs| && RunInv(c, s) && ValidBook(bs[n - 1])
    requires s.last == Some(MarkOf(bs[n - 2])) && StepBook(c, s, bs[n - 1], intent).Committed?
    requires KeyOf(o.decision) in s.decisions
    requires Follows(c, s, o, FateAfter(bs, d, o.dueNs, c.maxBookGapNs, n - 1), bs)
    ensures Follows(c, StepBook(c, s, bs[n - 1], intent).state, o, FateAfter(bs, d, o.dueNs, c.maxBookGapNs, n), bs)
    ensures KeyOf(o.decision) in StepBook(c, s, bs[n - 1], intent).state.decisions
  {
    hide StepBook, RunInv, Execute;
    var b := bs[n - 1];
    var t := StepBook(c, s, b, intent).state;
    var before := FateAfter(bs, d, o.dueNs, c.maxBookGapNs, n - 1);
    StepOrders(c, s, b, intent);
    if before.Waiting? {
      PendingStep(c, s, b, intent);
      if t.fills == s.fills + [FillAt(c, o, b)] { assert t.fills[|s.fills|] == FillAt(c, o, b); }
    } else if t.fills != s.fills {
      assert t.fills[|s.fills|].order != o;
    }
  }

  lemma FollowsNext(c: Config, start: State, txns: seq<Txn>, bs: seq<Book>, d: nat, o: PendingOrder, n: nat)
    requires AcceptedStream(c, start, txns) && d + 1 < n <= |txns| == |bs| && txns[n - 1].OnBook? && txns[n - 2].OnBook?
    requires txns[n - 1].book == bs[n - 1] && txns[n - 2].book == bs[n - 2]
    requires KeyOf(o.decision) in StateAfter(c, start, txns, n - 1).decisions
    requires Follows(c, StateAfter(c, start, txns, n - 1), o, FateAfter(bs, d, o.dueNs, c.maxBookGapNs, n - 1), bs)
    ensures Follows(c, StateAfter(c, start, txns, n), o, FateAfter(bs, d, o.dueNs, c.maxBookGapNs, n), bs)
    ensures KeyOf(o.decision) in StateAfter(c, start, txns, n).decisions
  {
    hide Follows, FateAfter, StepBook, Unbroken;
    StreamState(c, start, txns, n);
    StreamState(c, start, txns, n - 1);
    FollowsOneMore(c, StateAfter(c, start, txns, n - 1), txns[n - 1].intent, o, bs, d, n);
  }

  /** Over any accepted stream, whatever its ordinals, the pending order goes the way its path says. */
  lemma {:induction false} EngineFollows(c: Config, start: State, txns: seq<Txn>, bs: seq<Book>, d: nat,
      o: PendingOrder, n: nat)
    requires DecidedOn(c, start, txns, d, o) && d < n <= |txns|
    requires forall i :: 0 <= i < |txns| ==> txns[i].OnBook?
    requires bs == BooksOf(txns)
    ensures Follows(c, StateAfter(c, start, txns, n), o, FateAfter(bs, d, o.dueNs, c.maxBookGapNs, n), bs)
    ensures KeyOf(o.decision) in StateAfter(c, start, txns, n).decisions
  {
    hide AcceptedStream, StateAfter, HasFillOf;
    if n == d + 1 {
      NotFilledYet(c, start, txns, d, o);
    } else {
      EngineFollows(c, start, txns, bs, d, o, n - 1);
      FollowsNext(c, start, txns, bs, d, o, n);
    }
  }

  // ---------------------------------------------------------------- agreement

  ghost predicate EngineFills(c: Config, start: State, txns: seq<Txn>, o: PendingOrder, b: Book)
    requires ValidTxns(txns) && ValidBook(b)
  {
    FillAt(c, o, b) in After(c, start, txns).state.fills
  }

  /** On one connection an accepted stream only grows, and it is of one market. */
  lemma {:induction false} AcceptedGrows(c: Config, start: State, txns: seq<Txn>)
    requires AcceptedStream(c, start, txns) && forall i :: 0 <= i < |txns| ==> txns[i].OnBook?
    ensures AllGrow(BooksOf(txns)) && forall i :: 0 <= i < |txns| ==> txns[i].book.market == c.market
  {
    hide RunInv, Prepare, Record;
    var bs := BooksOf(txns);
    forall k | 0 < k < |bs| ensures Grows(bs, k) {
      var n := k + 1;
      StreamState(c, start, txns, k);
      StreamState(c, start, txns, n);
    }
    forall i | 0 <= i < |txns| ensures txns[i].book.market == c.market {
      var n := i + 1;
      StreamState(c, start, txns, n);
    }
  }

  lemma DistinctMarks(bs: seq<Book>, i: nat, j: nat)
    requires Archivable(bs) && i < |bs| && j < |bs| && i != j
    ensures MarkOf(bs[i]) != MarkOf(bs[j])
  {
  }

  lemma FillsAtIsPath(c: Config, start: State, txns: seq<Txn>, d: nat, o: PendingOrder, j: nat)
    requires DecidedOn(c, start, txns, d, o) && j < |txns|
    requires forall i :: 0 <= i < |txns| ==> txns[i].OnBook?
    requires Archivable(BooksOf(txns))
    ensures ValidBook(txns[j].book)
    ensures EngineFills(c, start, txns, o, txns[j].book) <==>
      d < j && OnlinePath(BooksOf(txns), d, j, o.dueNs, c.maxBookGapNs)
  {
    hide OnlinePath, Archivable;
    var bs := BooksOf(txns);
    assert ValidTxn(txns[j]);
    assert txns[..|txns|] == txns;
    EngineFollows(c, start, txns, bs, d, o, |txns|);
    FateIsPath(bs, d, o.dueNs, c.maxBookGapNs, |txns|);
    var fate := FateAfter(bs, d, o.dueNs, c.maxBookGapNs, |txns|);
    if fate.FilledAt? && fate.j != j { DistinctMarks(bs, fate.j, j); }
    assert FillAt(c, o, bs[j]) in After(c, start, txns).state.fills ==> HasFillOf(After(c, start, txns).state, o);
  }

  lemma AlikeArchives(os: seq<Book>, bs: seq<Book>)
    requires Alike(os, bs)
    ensures Archivable(os) <==> Archivable(bs)
    ensures OneMarket(os) <==> OneMarket(bs)
  {
    assert forall i :: 0 <= i < |bs| ==> AlikeBooks(os[i], bs[i]);
  }

  lemma FillsOnConnection(os: seq<Book>, bs: seq<Book>, d: nat, j: nat, due: int, maxGapNs: int)
    requires Alike(os, bs) && Archivable(os) && AllGrow(bs) && d < |bs| && j < |bs| && bs[d].monotonicNs < due
    requires ArchivePath(os, d, j, due, maxGapNs)
    ensures d < j && OnlinePath(bs, d, j, due, maxGapNs) <==> d < j && OneConnection(bs, d, j)
  {
    hide ArchivePath, Archivable, AllGrow, Alike;
    if d < j && OnlinePath(bs, d, j, due, maxGapNs) { OnlineStaysOnConnection(bs, d, j); }
    if d < j && OneConnection(bs, d, j) { ArchiveThenOnline(os, bs, d, j, due, maxGapNs); }
  }

  /**
   Over any stream the engine accepts without a halt or stop, with latency, and the same books archived (`os`), in
   whatever order their ordinals arrived:
   - where the replay index fills an accepted order, the engine fills it on the same book with the same execution if
     and only if that book arrived after the decision and every book arriving in between was of the same capture and
     connection;
   - where the engine fills it, and no book of the capture that arrived outside has an ordinal in between, the index
     does if and only if no two consecutive books on the way are further apart than `maxBookGapNs`;
   - with such books too, the index does exactly where their ordinals lead it (`ArchivePath`).
   */
  lemma FillsAgree(c: Config, start: State, txns: seq<Txn>, os: seq<Book>, sorted: seq<Book>, d: nat, o: PendingOrder,
      j: nat)
    requires DecidedOn(c, start, txns, d, o) && j < |txns| && c.latencyNs > 0
    requires forall i :: 0 <= i < |txns| ==> txns[i].OnBook?
    requires Alike(os, BooksOf(txns)) && Archivable(os) && SortedFrom(sorted, os)
    ensures var bs := BooksOf(txns);
      var offline := OfflineBook(sorted, c.market, o, c.maxBookGapNs);
      && ValidBook(bs[j]) && LevelsFor(os[j], o.side) == LevelsFor(bs[j], o.side)
      && (offline == Some(os[j]) ==> (EngineFills(c, start, txns, o, bs[j]) <==> d < j && OneConnection(bs, d, j)))
      && (EngineFills(c, start, txns, o, bs[j]) ==> d < j && OneConnection(bs, d, j))
      && (EngineFills(c, start, txns, o, bs[j]) && NoStray(bs, d, j) ==>
            (offline == Some(os[j]) <==> NoWideGap(bs, d, j, c.maxBookGapNs)))
      && (offline == Some(os[j]) <==> ArchivePath(os, d, j, o.dueNs, c.maxBookGapNs))
  {
    hide DecidedOn, ArchivePath, OnlinePath, EngineFills, OneConnection, NoStray, NoWideGap, Archivable, SortedFrom;
    var bs := BooksOf(txns);
    var due, gap := o.dueNs, c.maxBookGapNs;
    DecidedFacts(c, start, txns, d, o);
    AcceptedGrows(c, start, txns);
    AlikeArchives(os, bs);
    BothAlike(os, bs, d, j);
    OfflineExactly(sorted, os, d, o, gap, j);
    FillsAtIsPath(c, start, txns, d, o, j);
    if ArchivePath(os, d, j, due, gap) { FillsOnConnection(os, bs, d, j, due, gap); }
    if d < j && OnlinePath(bs, d, j, due, gap) {
      PathStays(bs, d, j, due, gap);
      if NoStray(bs, d, j) { OnlineAgainstArchive(os, bs, d, j, due, gap); }
    }
  }

  lemma PathStays(bs: seq<Book>, d: nat, j: nat, due: int, maxGapNs: int)
    requires d < j < |bs| && OnlinePath(bs, d, j, due, maxGapNs)
    ensures OneConnection(bs, d, j)
  {
    OnlineStaysOnConnection(bs, d, j);
  }

  lemma DecidedFacts(c: Config, start: State, txns: seq<Txn>, d: nat, o: PendingOrder)
    requires DecidedOn(c, start, txns, d, o)
    ensures AcceptedStream(c, start, txns) && ValidTxns(txns) && d < |txns| && txns[d].OnBook?
    ensures o.decision == MarkOf(txns[d].book) && o.dueNs == o.decision.monotonicNs + c.latencyNs
  {
    NotFilledYet(c, start, txns, d, o);
  }

  /** The books of a recorder's stream as the service hands them to the engine. */
  function ServiceBooks(records: seq<RS.Record>): (bs: seq<Book>) {
    var at := RS.BookIndices(records);
    seq(|at|, n requires 0 <= n < |at| => RS.OnlineBook(records, at[n]))
  }

  /** The same books as the loader reads them back from the archive. */
  function LoaderBooks(records: seq<RS.Record>): (os: seq<Book>) {
    var at := RS.BookIndices(records);
    seq(|at|, n requires 0 <= n < |at| => RS.OfflineBook(records, at[n]))
  }

  lemma RecorderBooksAlike(records: seq<RS.Record>)
    requires RS.Contiguous(records)
    ensures Alike(LoaderBooks(records), ServiceBooks(records))
  {
    var at := RS.BookIndices(records);
    forall n | 0 <= n < |at| ensures AlikeBooks(RS.OfflineBook(records, at[n]), RS.OnlineBook(records, at[n])) {
      RS.BooksAgree(records, at[n]);
      RS.ContiguousNeverSkips(records, at[n]);
    }
  }

  predicate OrdinalsGrow(bs: seq<Book>) {
    forall i, j :: 0 <= i < j < |bs| ==> SameCapture(bs[i], bs[j]) && bs[i].ordinal < bs[j].ordinal
  }

  lemma RecorderOrdinals(records: seq<RS.Record>)
    requires RS.Contiguous(records)
    ensures OrdinalsGrow(LoaderBooks(records)) && OrdinalsGrow(ServiceBooks(records))
  {
    var at := RS.BookIndices(records);
    forall i, j | 0 <= i < j < |at|
      ensures RS.CaptureOf(records[at[i]]) == RS.CaptureOf(records[at[j]])
      ensures RS.OrdinalOf(records[at[i]]) < RS.OrdinalOf(records[at[j]])
    {
      IndicesIncrease(records, i, j);
    }
  }

  lemma {:induction false} IndicesIncrease(records: seq<RS.Record>, i: nat, j: nat)
    requires i < j < |RS.BookIndices(records)|
    ensures RS.BookIndices(records)[i] < RS.BookIndices(records)[j]
    decreases |records|
  {
    var m := |records| - 1;
    var before := RS.BookIndices(records[..m]);
    if j < |before| { IndicesIncrease(records[..m], i, j); }
  }

  /** Where ordinals only grow, the archive's path stays on the connection and nothing strays. */
  lemma GrowingStays(os: seq<Book>, bs: seq<Book>, d: nat, j: nat, due: int, maxGapNs: int)
    requires Alike(os, bs) && OrdinalsGrow(os) && OrdinalsGrow(bs) && d <= j < |bs|
    ensures NoStray(bs, d, j)
    ensures ArchivePath(os, d, j, due, maxGapNs) ==> OneConnection(bs, d, j)
  {
    forall k | 0 <= k < |bs| && (k < d || k > j) ensures !Between(bs[d], bs[k], bs[j]) {
      if k < d { assert bs[k].ordinal < bs[d].ordinal; } else { assert bs[j].ordinal < bs[k].ordinal; }
    }
    if ArchivePath(os, d, j, due, maxGapNs) { GrowingConnection(os, bs, d, j, j, maxGapNs); }
  }

  lemma {:induction false} GrowingConnection(os: seq<Book>, bs: seq<Book>, d: nat, j: nat, k: nat, maxGapNs: int)
    requires Alike(os, bs) && OrdinalsGrow(os) && d <= k <= j < |bs| && NoBoundaryWithin(os, d, j, maxGapNs)
    ensures OneConnection(bs, d, k)
    decreases k
  {
    if d < k {
      GrowingConnection(os, bs, d, j, k - 1, maxGapNs);
      GrowingStep(os, d, j, k);
      BothAlike(os, bs, k - 1, k);
      assert RI.Boundary(os[k - 1], os[k], Some(maxGapNs)).None?;
      assert SameConnection(MarkOf(bs[k - 1]), MarkOf(bs[k]));
    }
  }

  lemma GrowingStep(os: seq<Book>, d: nat, j: nat, k: nat)
    requires OrdinalsGrow(os) && d < k <= j < |os|
    ensures StepWithin(os, d, j, k - 1, k)
  {
    forall m | 0 <= m < |os| ensures !Between(os[k - 1], os[m], os[k]) {
      if m < k - 1 { assert os[m].ordinal < os[k - 1].ordinal; }
      if k < m { assert os[k].ordinal < os[m].ordinal; }
    }
    assert Within(os[d], os[k - 1], os[j]) && Within(os[d], os[k], os[j]);
  }

  /**
   End to end, over one recorder's records: trade marks are pushed to the next book by the service and by the loader
   alike, so wherever the replay of the loaded archive fills an accepted order, the engine filled it on that
   book with the same execution; and the other way round if and only if no consecutive gap is too wide.
   */
  lemma RecordsAgree(c: Config, start: State, txns: seq<Txn>, records: seq<RS.Record>, sorted: seq<Book>, d: nat,
      o: PendingOrder, j: nat)
    requires DecidedOn(c, start, txns, d, o) && j < |txns| && c.latencyNs > 0
    requires forall i :: 0 <= i < |txns| ==> txns[i].OnBook?
    requires RS.Contiguous(records) && BooksOf(txns) == ServiceBooks(records)
    requires SortedFrom(sorted, LoaderBooks(records))
    ensures var bs, os := ServiceBooks(records), LoaderBooks(records);
      var offline := OfflineBook(sorted, c.market, o, c.maxBookGapNs);
      && ValidBook(bs[j]) && LevelsFor(os[j], o.side) == LevelsFor(bs[j], o.side)
      && (offline == Some(os[j]) ==> EngineFills(c, start, txns, o, bs[j]))
      && (EngineFills(c, start, txns, o, bs[j]) ==> (offline == Some(os[j]) <==> NoWideGap(bs, d, j, c.maxBookGapNs)))
  {
    hide DecidedOn, ArchivePath, EngineFills, NoWideGap, OneConnection, NoStray, SortedFrom, OrdinalsGrow, Archivable;
    var bs, os := ServiceBooks(records), LoaderBooks(records);
    DecidedFacts(c, start, txns, d, o);
    RecorderBooksAlike(records);
    RecorderOrdinals(records);
    GrowingArchive(os, d, j, o.dueNs, c.maxBookGapNs);
    FillsAgree(c, start, txns, os, sorted, d, o, j);
    if d < j { GrowingStays(os, bs, d, j, o.dueNs, c.maxBookGapNs); }
  }

  lemma GrowingArchive(os: seq<Book>, d: nat, j: nat, due: int, maxGapNs: int)
    requires OrdinalsGrow(os)
    ensures Archivable(os)
    ensures d < |os| && j < |os| && ArchivePath(os, d, j, due, maxGapNs) ==> d < j
  {
  }

  // ---------------------------------------------------------------- where they part

  const SAMPLE := Config("KRW-BTC", 1000.0, 0.0, 10, 1000, 1, 100.0, true, 0.001)

  function SampleBook(captureId: string, connectionId: string, ordinal: int, monotonicNs: int): Book {
    Book(captureId, connectionId, ordinal, "KRW-BTC", monotonicNs, None, [Level(101.0, 1.0)], [Level(100.0, 1.0)],
         None, false)
  }

  const DECISION := SampleBook("x", "k", 2, 0)
  const OTHER := SampleBook("y", "k", 1, 5)
  const RECONNECTED := SampleBook("x", "m", 1, 5)
  const DUE := SampleBook("x", "k", 3, 12)

  function SampleTxns(middle: Book): seq<Txn> {
    [OnBook(DECISION, Some(Intent(BuyQuote(50.0), "entry", ""))), OnBook(middle, None), OnBook(DUE, None)]
  }

  function SampleOrder(): PendingOrder {
    PendingOrder(Buy, QuoteNotional(50.0), MarkOf(DECISION), 10)
  }

  /** Of another capture or connection, and not on the way by ordinal. */
  ghost predicate Elsewhere(middle: Book) {
    && ValidBook(middle) && middle.market == SAMPLE.market && !SameConnection(MarkOf(middle), MarkOf(DECISION))
    && (middle.captureId == "x" ==> middle.ordinal == 1)
  }

  lemma SamplesElsewhere()
    ensures Elsewhere(OTHER) && Elsewhere(RECONNECTED) && OTHER.captureId != DUE.captureId
  {
    assert "y"[0] != "x"[0] && "m"[0] != "k"[0];
  }

  lemma SampleFirst()
    ensures var intent := Some(Intent(BuyQuote(50.0), "entry", ""));
      && StepBook(SAMPLE, FirstRun(SAMPLE), DECISION, intent).Committed?
      && var t := StepBook(SAMPLE, FirstRun(SAMPLE), DECISION, intent).state;
      t.pending == Some(SampleOrder()) && t.account.base == 0.0 && t.last == Some(MarkOf(DECISION))
        && t.lifecycle.Running?
  {
    assert Worth(50.0, 1.0) == 50.0;
  }

  lemma SampleBreak(s: State, b: Book)
    requires s.account.base == 0.0 && s.last.Some? && !SameConnection(s.last.value, MarkOf(b)) && !s.lifecycle.Stopped?
    requires b.market == SAMPLE.market && ValidBook(b)
    ensures StepBook(SAMPLE, s, b, None).Committed?
    ensures var t := StepBook(SAMPLE, s, b, None).state;
      t.account.base == 0.0 && t.last == Some(MarkOf(b)) && !t.lifecycle.Stopped?
  {
  }

  lemma SampleAccepted(middle: Book)
    requires Elsewhere(middle)
    ensures ValidTxns(SampleTxns(middle)) && AcceptedStream(SAMPLE, FirstRun(SAMPLE), SampleTxns(middle))
    ensures DecidedOn(SAMPLE, FirstRun(SAMPLE), SampleTxns(middle), 0, SampleOrder())
  {
    hide StepBook, LiquidationEquity;
    var txns := SampleTxns(middle);
    var s0 := FirstRun(SAMPLE);
    assert forall i :: 0 <= i < 3 ==> ValidTxn(txns[i]);
    SampleFirst();
    var s1 := StepBook(SAMPLE, s0, DECISION, txns[0].intent).state;
    SampleBreak(s1, middle);
    var s2 := StepBook(SAMPLE, s1, middle, None).state;
    SampleBreak(s2, DUE);
    assert txns[..0] == [] && txns[..3] == txns;
    assert txns[..3][..2] == txns[..2] && txns[..2][..1] == txns[..1] && txns[..1][..0] == txns[..0];
    assert After(SAMPLE, s0, txns[..0]) == History(s0, [], 0, []);
    assert After(SAMPLE, s0, txns[..1]).state == s1 && |After(SAMPLE, s0, txns[..1]).seen| == 1;
    assert After(SAMPLE, s0, txns[..2]).state == s2 && |After(SAMPLE, s0, txns[..2]).seen| == 2;
    assert |After(SAMPLE, s0, txns[..3]).seen| == 3;
  }

  function SampleArrival(middle: Book): seq<Book> { [DECISION, middle, DUE] }

  /** By capture and ordinal: a book of capture "x" before the others, one of another behind them. */
  function SampleSorted(middle: Book): seq<Book> {
    if middle.captureId == "x" then [middle, DECISION, DUE] else [DECISION, DUE, middle]
  }

  predicate InOrder(a: Book, b: Book) {
    RI.KeyOf(a) != RI.KeyOf(b) && (RI.SameStream(a, b) ==> a.ordinal < b.ordinal)
  }

  lemma ThreeSorted(sorted: seq<Book>, bs: seq<Book>)
    requires |sorted| == |bs| == 3 && InOrder(sorted[0], sorted[1]) && InOrder(sorted[0], sorted[2])
    requires InOrder(sorted[1], sorted[2])
    requires RI.SameStream(sorted[0], sorted[2]) ==> RI.SameStream(sorted[0], sorted[1])
    requires sorted[0] in bs && sorted[1] in bs && sorted[2] in bs
    requires bs[0] in sorted && bs[1] in sorted && bs[2] in sorted
    ensures SortedFrom(sorted, bs)
  {
  }

  lemma SampleArchive(middle: Book)
    requires Elsewhere(middle)
    ensures Archivable(SampleArrival(middle)) && SortedFrom(SampleSorted(middle), SampleArrival(middle))
    ensures SampleArrival(middle) == BooksOf(SampleTxns(middle))
  {
    hide SortedFrom, ValidBook;
    var bs, sorted := SampleArrival(middle), SampleSorted(middle);
    assert bs[0] in bs && bs[1] in bs && bs[2] in bs;
    assert sorted[0] in sorted && sorted[1] in sorted && sorted[2] in sorted;
    ThreeSorted(sorted, bs);
  }

  lemma SamplePath(middle: Book)
    requires Elsewhere(middle)
    ensures ArchivePath(SampleArrival(middle), 0, 2, 10, SAMPLE.maxBookGapNs)
    ensures !OneConnection(SampleArrival(middle), 0, 2)
  {
    var bs := SampleArrival(middle);
    assert !SameConnection(MarkOf(bs[1]), MarkOf(bs[2]));
  }

  /** The engine decides on the first book, the replay fills the order on the last, the engine does not. */
  ghost predicate OnlyReplayFills(middle: Book)
    requires Elsewhere(middle)
  {
    var txns := SampleTxns(middle);
    && ValidTxns(txns) && DecidedOn(SAMPLE, FirstRun(SAMPLE), txns, 0, SampleOrder())
    && SortedFrom(SampleSorted(middle), BooksOf(txns))
    && OfflineBook(SampleSorted(middle), "KRW-BTC", SampleOrder(), SAMPLE.maxBookGapNs) == Some(DUE)
    && ValidBook(DUE) && !EngineFills(SAMPLE, FirstRun(SAMPLE), txns, SampleOrder(), DUE)
  }

  lemma ElsewhereParts(middle: Book)
    requires Elsewhere(middle)
    ensures OnlyReplayFills(middle)
  {
    hide DecidedOn, AcceptedStream, Archivable, ArchivePath, OneConnection, RI.ArchiveOrdered, EngineFills;
    var bs := SampleArrival(middle);
    SampleAccepted(middle);
    SampleArchive(middle);
    SamplePath(middle);
    FillsAgree(SAMPLE, FirstRun(SAMPLE), SampleTxns(middle), bs, SampleSorted(middle), 0, SampleOrder(), 2);
  }

  /** One book of another capture on the way. */
  lemma OtherCaptureParts()
    ensures Elsewhere(OTHER) && OTHER.captureId != DUE.captureId && OnlyReplayFills(OTHER)
  {
    hide OnlyReplayFills;
    SamplesElsewhere();
    ElsewhereParts(OTHER);
  }

  /** One book of the same capture on the way, on another connection and with an earlier ordinal. */
  lemma OtherConnectionParts()
    ensures Elsewhere(RECONNECTED) && RECONNECTED.captureId == DUE.captureId && OnlyReplayFills(RECONNECTED)
  {
    hide OnlyReplayFills;
    SamplesElsewhere();
    ElsewhereParts(RECONNECTED);
  }

  /** A book that arrived before the decision with an ordinal on the way stops the replay and not the engine. */
  lemma StrayStops()
    ensures var bs := [SampleBook("x", "m", 3, 5), DECISION, SampleBook("x", "k", 4, 12)];
      && Archivable(bs) && AllGrow(bs) && !NoStray(bs, 1, 2) && NoWideGap(bs, 1, 2, 1000)
      && OnlinePath(bs, 1, 2, 10, 1000) && !ArchivePath(bs, 1, 2, 10, 1000)
  {
    var bs := [SampleBook("x", "m", 3, 5), DECISION, SampleBook("x", "k", 4, 12)];
    assert "m"[0] != "k"[0];
    assert Between(bs[1], bs[0], bs[2]) && Near(bs, 2, 1000) && Unbroken(bs, 2);
    assert StepWithin(bs, 1, 2, 1, 0) && RI.Boundary(bs[1], bs[0], Some(1000)).Some?;
  }
}
