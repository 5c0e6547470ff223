/**
 Offline order replay: books are cut into continuity-safe runs once, and each order finds its
 book by bisection inside the run of its decision book.
 */
module ReplayIndex {
  import opened Envelopes
  import opened VisibleDepth
  import opened Books

  datatype Reason =
    | ConnectionBoundary | MonotonicRegression | ArchiveGap(reason: string) | BookGap
    | DecisionBookNotFound | DecisionTimeMismatch | NoBookAtOrAfterDue

  datatype Order = Order(
    captureId: string, connectionId: string, market: string, side: Side, request: Request,
    decisionOrdinal: int, decisionMonotonicNs: int)

  datatype Selection = Selected(book: Book) | Refused(reason: Reason) | PrecedesDue

  type Key = (string, string, string, int)

  datatype Run = Run(books: seq<Book>, times: seq<int>, endReason: Option<Reason>)

  datatype IndexedBook = IndexedBook(book: Book, runId: nat, indexInRun: nat)

  datatype Index = Index(runs: seq<Run>, decisionBooks: map<Key, IndexedBook>)

  function KeyOf(b: Book): Key {
    (b.captureId, b.market, b.connectionId, b.ordinal)
  }

  function OrderKey(o: Order): Key {
    (o.captureId, o.market, o.connectionId, o.decisionOrdinal)
  }

  predicate SameStream(a: Book, b: Book) {
    a.captureId == b.captureId && a.market == b.market
  }

  /** Why `book` may not be reached from `previous`, the book before it in the same stream. */
  function Boundary(previous: Book, book: Book, maxGapNs: Option<int>): Option<Reason> {
    if book.connectionId != previous.connectionId then Some(ConnectionBoundary)
    else if book.regression || book.monotonicNs < previous.monotonicNs then Some(MonotonicRegression)
    else if book.gap.Some? then Some(ArchiveGap(book.gap.value))
    else if maxGapNs.Some? && book.monotonicNs - previous.monotonicNs > maxGapNs.value then Some(BookGap)
    else None
  }

  /** Archive order: streams are contiguous and no capture ordinal occurs twice. */
  ghost predicate ArchiveOrdered(books: seq<Book>) {
    && (forall i, j :: 0 <= i < j < |books| ==> KeyOf(books[i]) != KeyOf(books[j]))
    && forall i, j, k :: 0 <= i < j < k < |books| && SameStream(books[i], books[k]) ==> SameStream(books[i], books[j])
  }

  // ---------------------------------------------------------------- the reference: a plain forward walk

  /** Walk from position `i`: stop at the end of the stream, at a boundary, or at the first book not before `due`. */
  function Walk(books: seq<Book>, i: nat, fromDecision: bool, due: int, maxGapNs: Option<int>): Selection
    requires fromDecision ==> i < |books|
    requires !fromDecision ==> 0 < i
    decreases |books| - i
  {
    if i >= |books| || (!fromDecision && !SameStream(books[i - 1], books[i])) then Refused(NoBookAtOrAfterDue)
    else if !fromDecision && Boundary(books[i - 1], books[i], maxGapNs).Some? then
      Refused(Boundary(books[i - 1], books[i], maxGapNs).value)
    else if books[i].monotonicNs >= due then Selected(books[i])
    else Walk(books, i + 1, false, due, maxGapNs)
  }

  function Position(books: seq<Book>, key: Key): Option<nat> {
    if books == [] then None
    else if KeyOf(books[0]) == key then Some(0)
    else match Position(books[1..], key)
      case None => None
      case Some(i) => Some(i + 1)
  }

  lemma {:induction false} PositionSound(books: seq<Book>, key: Key)
    ensures match Position(books, key)
      case None => forall i :: 0 <= i < |books| ==> KeyOf(books[i]) != key
      case Some(d) => d < |books| && KeyOf(books[d]) == key
  {
    if books != [] {
      PositionSound(books[1..], key);
      if Position(books, key).None? {
        forall i | 0 <= i < |books| ensures KeyOf(books[i]) != key {
          if i > 0 { assert books[i] == books[1..][i - 1]; }
        }
      }
    }
  }

  function LinearScan(books: seq<Book>, o: Order, due: int, maxGapNs: Option<int>): Selection {
    match Position(books, OrderKey(o))
    case None => Refused(DecisionBookNotFound)
    case Some(d) =>
      PositionSound(books, OrderKey(o));
      if books[d].monotonicNs != o.decisionMonotonicNs then Refused(DecisionTimeMismatch)
      else Walk(books, d, true, due, maxGapNs)
  }

  // ---------------------------------------------------------------- the index

  /** Position `k` continues the run of position `k - 1`. */
  predicate Joined(books: seq<Book>, k: nat, maxGapNs: Option<int>)
    requires 0 < k < |books|
  {
    SameStream(books[k - 1], books[k]) && Boundary(books[k - 1], books[k], maxGapNs).None?
  }

  /** Run `run` is the slice of `books` from `start`, without a boundary inside. */
  ghost predicate Covers(run: Run, start: nat, books: seq<Book>, maxGapNs: Option<int>) {
    && |run.books| == |run.times| > 0 && start + |run.books| <= |books|
    && run.books == books[start..start + |run.books|]
    && (forall k :: 0 <= k < |run.times| ==> run.times[k] == run.books[k].monotonicNs)
    && forall k :: start < k < start + |run.books| ==> Joined(books, k, maxGapNs)
  }

  /** Why a run that stops before position `e` stops there. */
  function EndReason(books: seq<Book>, e: nat, maxGapNs: Option<int>): Option<Reason> {
    if e == 0 || e >= |books| || !SameStream(books[e - 1], books[e]) then None
    else Boundary(books[e - 1], books[e], maxGapNs)
  }

  ghost predicate Locates(at: IndexedBook, key: Key, runs: seq<Run>, starts: seq<nat>, books: seq<Book>)
    requires |starts| == |runs|
  {
    && at.runId < |runs| && at.indexInRun < |runs[at.runId].books|
    && at.book == runs[at.runId].books[at.indexInRun] && KeyOf(at.book) == key
  }

  /** Run `r` covers its slice, starts at a boundary, and ends where the next run starts. */
  ghost predicate RunInPlace(runs: seq<Run>, starts: seq<nat>, r: nat, books: seq<Book>, n: nat, maxGapNs: Option<int>)
    requires |starts| == |runs| && r < |runs| && n <= |books|
  {
    var run, start := runs[r], starts[r];
    && Covers(run, start, books, maxGapNs)
    && start + |run.books| == (if r + 1 < |runs| then starts[r + 1] else n)
    && (if r == 0 then start == 0 else 0 < start < n && !Joined(books, start, maxGapNs))
    && run.endReason == (if r + 1 < |runs| then EndReason(books, start + |run.books|, maxGapNs) else None)
  }

  /** `runs` cut the first `n` books at exactly the boundaries; `starts` are the cut positions. */
  ghost predicate Cut(runs: seq<Run>, starts: seq<nat>, books: seq<Book>, n: nat, maxGapNs: Option<int>) {
    && |starts| == |runs| && n <= |books| && (n == 0 <==> runs == [])
    && forall r :: 0 <= r < |runs| ==> RunInPlace(runs, starts, r, books, n, maxGapNs)
  }

  ghost predicate IndexFor(index: Index, starts: seq<nat>, books: seq<Book>, maxGapNs: Option<int>) {
    && Cut(index.runs, starts, books, |books|, maxGapNs)
    && (forall d :: 0 <= d < |books| ==> KeyOf(books[d]) in index.decisionBooks)
    && forall key :: key in index.decisionBooks ==> Locates(index.decisionBooks[key], key, index.runs, starts, books)
  }

  /** `index` cuts the books into runs at exactly the boundaries and locates every decision book. */
  ghost predicate Indexes(index: Index, books: seq<Book>, maxGapNs: Option<int>) {
    exists starts :: IndexFor(index, starts, books, maxGapNs)
  }

  /** One pass over the archive-ordered books. */
  method BuildIndex(books: seq<Book>, maxGapNs: Option<int>) returns (index: Index)
    requires ArchiveOrdered(books)
    ensures Indexes(index, books, maxGapNs)
  {
    hide RunInPlace, Locates, Covers;
    ghost var starts: seq<nat> := [];
    var runs: seq<Run> := [];
    var decisionBooks: map<Key, IndexedBook> := map[];
    var i := 0;
    while i < |books|
      invariant 0 <= i <= |books|
      invariant Cut(runs, starts, books, i, maxGapNs)
      invariant forall d :: 0 <= d < i ==> KeyOf(books[d]) in decisionBooks
      invariant forall key :: key in decisionBooks ==> Locates(decisionBooks[key], key, runs, starts, books)
    {
      var book := books[i];
      var sameStream := i > 0 && SameStream(books[i - 1], book);
      var boundary := if sameStream then Boundary(books[i - 1], book, maxGapNs) else None;
      ghost var oldRuns, oldStarts, oldBooks := runs, starts, decisionBooks;
      if !sameStream || boundary.Some? {
        CutOpened(runs, starts, books, i, maxGapNs);
        runs := CloseLast(runs, boundary) + [Run([book], [book.monotonicNs], None)];
        starts := starts + [i];
        decisionBooks := decisionBooks[KeyOf(book) := IndexedBook(book, |runs| - 1, 0)];
      } else {
        CutExtended(runs, starts, books, i, maxGapNs);
        decisionBooks := decisionBooks[KeyOf(book) := IndexedBook(book, |runs| - 1, |runs[|runs| - 1].books|)];
        runs := ExtendLast(runs, book);
      }
      assert forall r :: 0 <= r < |oldRuns| ==> oldRuns[r].books <= runs[r].books;
      forall key | key in decisionBooks ensures Locates(decisionBooks[key], key, runs, starts, books) {
        if key == KeyOf(book) { LastLocated(decisionBooks[key], runs, starts, books); }
        else { StillLocated(oldBooks[key], key, oldRuns, oldStarts, runs, starts, books); }
      }
      i := i + 1;
    }
    index := Index(runs, decisionBooks);
    assert IndexFor(index, starts, books, maxGapNs);
  }

  /** Runs only grow, at their ends and in number: what was located stays where it is. */
  lemma StillLocated(
      at: IndexedBook, key: Key, runs: seq<Run>, starts: seq<nat>, after: seq<Run>, later: seq<nat>, books: seq<Book>)
    requires |starts| == |runs| <= |after| == |later| && Locates(at, key, runs, starts, books)
    requires forall r :: 0 <= r < |runs| ==> runs[r].books <= after[r].books
    ensures Locates(at, key, after, later, books)
  {
  }

  lemma LastLocated(at: IndexedBook, runs: seq<Run>, starts: seq<nat>, books: seq<Book>)
    requires |starts| == |runs| == at.runId + 1 && |runs[at.runId].books| == at.indexInRun + 1
    requires at.book == runs[at.runId].books[at.indexInRun]
    ensures Locates(at, KeyOf(at.book), runs, starts, books)
  {
  }

  /** Record why the current run ends. */
  function CloseLast(runs: seq<Run>, endReason: Option<Reason>): (closed: seq<Run>)
    ensures |closed| == |runs|
    ensures forall r :: 0 <= r < |runs| ==>
      closed[r] == if r == |runs| - 1 then runs[r].(endReason := endReason) else runs[r]
  {
    if runs == [] then [] else runs[|runs| - 1 := runs[|runs| - 1].(endReason := endReason)]
  }

  function ExtendLast(runs: seq<Run>, book: Book): (extended: seq<Run>)
    requires runs != []
    ensures |extended| == |runs|
    ensures forall r :: 0 <= r < |runs| ==>
      extended[r] == if r == |runs| - 1
        then Run(runs[r].books + [book], runs[r].times + [book.monotonicNs], runs[r].endReason) else runs[r]
  {
    var last := runs[|runs| - 1];
    runs[|runs| - 1 := last.(books := last.books + [book], times := last.times + [book.monotonicNs])]
  }

  lemma CutOpened(runs: seq<Run>, starts: seq<nat>, books: seq<Book>, i: nat, maxGapNs: Option<int>)
    requires i < |books| && Cut(runs, starts, books, i, maxGapNs)
    requires i > 0 ==> !Joined(books, i, maxGapNs)
    ensures Cut(CloseLast(runs, EndReason(books, i, maxGapNs)) + [Run([books[i]], [books[i].monotonicNs], None)],
      starts + [i], books, i + 1, maxGapNs)
  {
    var runs' := CloseLast(runs, EndReason(books, i, maxGapNs)) + [Run([books[i]], [books[i].monotonicNs], None)];
    var starts', n := starts + [i], i + 1;
    forall r | 0 <= r < |runs'| ensures RunInPlace(runs', starts', r, books, n, maxGapNs) {
      if r < |runs| { assert RunInPlace(runs, starts, r, books, i, maxGapNs); }
    }
  }

  lemma CutExtended(runs: seq<Run>, starts: seq<nat>, books: seq<Book>, i: nat, maxGapNs: Option<int>)
    requires 0 < i < |books| && Cut(runs, starts, books, i, maxGapNs) && Joined(books, i, maxGapNs)
    ensures Cut(ExtendLast(runs, books[i]), starts, books, i + 1, maxGapNs)
  {
    var runs' := ExtendLast(runs, books[i]);
    var n := i + 1;
    forall r | 0 <= r < |runs'| ensures RunInPlace(runs', starts, r, books, n, maxGapNs) {
      assert RunInPlace(runs, starts, r, books, i, maxGapNs);
      if r == |runs| - 1 { assert books[starts[r]..i] + [books[i]] == books[starts[r]..i + 1]; }
    }
  }

  // ---------------------------------------------------------------- selection

  /** Python's `bisect_left`. */
  method BisectLeft(times: seq<int>, due: int) returns (at: nat)
    requires forall i, j :: 0 <= i < j < |times| ==> times[i] <= times[j]
    ensures at <= |times|
    ensures forall i :: 0 <= i < at ==> times[i] < due
    ensures forall i :: at <= i < |times| ==> times[i] >= due
  {
    at := 0;
    var hi := |times|;
    while at < hi
      invariant 0 <= at <= hi <= |times|
      invariant forall i :: 0 <= i < at ==> times[i] < due
      invariant forall i :: hi <= i < |times| ==> times[i] >= due
    {
      var mid := (at + hi) / 2;
      if times[mid] < due { at := mid + 1; } else { hi := mid; }
    }
  }

  lemma {:induction false} RunTimesSorted(run: Run, start: nat, books: seq<Book>, maxGapNs: Option<int>, i: nat, j: nat)
    requires Covers(run, start, books, maxGapNs) && i < j < |run.times|
    ensures run.times[i] <= run.times[j]
    decreases j - i
  {
    assert Joined(books, start + j, maxGapNs);
    assert run.books[j] == books[start + j] && run.books[j - 1] == books[start + j - 1];
    if i < j - 1 { RunTimesSorted(run, start, books, maxGapNs, i, j - 1); }
  }

  /** Inside a run the walk only looks at times, and past its end it stops for the run's end reason. */
  lemma {:induction false} WalkInRun(run: Run, start: nat, books: seq<Book>, maxGapNs: Option<int>, k: nat,
      first: bool, due: int, candidate: nat)
    requires Covers(run, start, books, maxGapNs) && k <= candidate <= |run.books|
    requires if first then k < |run.books| else k > 0
    requires RunEnds(run, start, books, maxGapNs)
    requires forall i :: k <= i < candidate ==> run.times[i] < due
    requires candidate < |run.times| ==> run.times[candidate] >= due
    ensures Walk(books, start + k, first, due, maxGapNs)
         == if candidate < |run.books| then Selected(run.books[candidate])
            else if run.endReason.Some? then Refused(run.endReason.value)
            else Refused(NoBookAtOrAfterDue)
    decreases |run.books| - k
  {
    if k < |run.books| {
      assert run.books[k] == books[start + k];
      if k > 0 { assert Joined(books, start + k, maxGapNs); }
      if k < candidate {
        WalkInRun(run, start, books, maxGapNs, k + 1, false, due, candidate);
      }
    }
  }

  lemma PositionUnique(books: seq<Book>, key: Key, d: nat)
    requires ArchiveOrdered(books) && d < |books| && KeyOf(books[d]) == key
    ensures Position(books, key) == Some(d)
  {
    PositionSound(books, key);
  }

  /** From the decision book's place in its run, the linear scan is decided by the run alone. */
  lemma ScanFromAnchor(run: Run, start: nat, books: seq<Book>, maxGapNs: Option<int>, k: nat, o: Order, due: int,
      candidate: nat)
    requires ArchiveOrdered(books) && Covers(run, start, books, maxGapNs)
    requires k < |run.books| && KeyOf(run.books[k]) == OrderKey(o) && k <= candidate <= |run.books|
    requires RunEnds(run, start, books, maxGapNs)
    requires forall i :: k <= i < candidate ==> run.times[i] < due
    requires candidate < |run.times| ==> run.times[candidate] >= due
    ensures LinearScan(books, o, due, maxGapNs)
      == if run.books[k].monotonicNs != o.decisionMonotonicNs then Refused(DecisionTimeMismatch)
         else if candidate < |run.books| then Selected(run.books[candidate])
         else if run.endReason.Some? then Refused(run.endReason.value)
         else Refused(NoBookAtOrAfterDue)
  {
    assert run.books[k] == books[start + k];
    PositionUnique(books, OrderKey(o), start + k);
    WalkInRun(run, start, books, maxGapNs, k, true, due, candidate);
  }

  /** The run stops at the end of the books or where a new run has to start, and says why. */
  ghost predicate RunEnds(run: Run, start: nat, books: seq<Book>, maxGapNs: Option<int>) {
    var e := start + |run.books|;
    && run.endReason == EndReason(books, e, maxGapNs)
    && (0 < e < |books| ==> !Joined(books, e, maxGapNs))
  }

  lemma RunOfIndex(index: Index, starts: seq<nat>, books: seq<Book>, maxGapNs: Option<int>, r: nat)
    requires IndexFor(index, starts, books, maxGapNs) && r < |index.runs|
    ensures Covers(index.runs[r], starts[r], books, maxGapNs) && RunEnds(index.runs[r], starts[r], books, maxGapNs)
  {
    hide Covers, Locates;
    var n := |books|;
    assert RunInPlace(index.runs, starts, r, books, n, maxGapNs);
    if r + 1 < |index.runs| { assert RunInPlace(index.runs, starts, r + 1, books, n, maxGapNs); }
  }

  /** The bisect index answers exactly as the plain forward walk does; its internal fault cannot arise. */
  method Select(index: Index, ghost books: seq<Book>, ghost maxGapNs: Option<int>, o: Order, due: int)
    returns (s: Selection)
    requires ArchiveOrdered(books) && Indexes(index, books, maxGapNs)
    ensures s == LinearScan(books, o, due, maxGapNs) && s != PrecedesDue
  {
    ghost var starts :| IndexFor(index, starts, books, maxGapNs);
    var key := OrderKey(o);
    if key !in index.decisionBooks {
      PositionSound(books, key);
      return Refused(DecisionBookNotFound);
    }
    var anchor := index.decisionBooks[key];
    assert Locates(anchor, key, index.runs, starts, books);
    var run := index.runs[anchor.runId];
    ghost var start := starts[anchor.runId];
    RunOfIndex(index, starts, books, maxGapNs, anchor.runId);
    forall i, j | 0 <= i < j < |run.times| ensures run.times[i] <= run.times[j] {
      RunTimesSorted(run, start, books, maxGapNs, i, j);
    }
    var at := BisectLeft(run.times, due);
    var candidate := if at < anchor.indexInRun then anchor.indexInRun else at;
    ScanFromAnchor(run, start, books, maxGapNs, anchor.indexInRun, o, due, candidate);
    if anchor.book.monotonicNs != o.decisionMonotonicNs { return Refused(DecisionTimeMismatch); }
    if candidate < |run.books| {
      if run.books[candidate].monotonicNs < due { return PrecedesDue; }
      return Selected(run.books[candidate]);
    }
    s := if run.endReason.Some? then Refused(run.endReason.value) else Refused(NoBookAtOrAfterDue);
  }
}
