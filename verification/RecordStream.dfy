/** Continuity marks of trade records travel to the next book: once in the live service, once in the archive loader. */
module RecordStream {
  import opened Envelopes
  import opened VisibleDepth
  import opened Books

  datatype Marks = Marks(gap: Option<string>, regression: bool)

  const NO_MARKS := Marks(None, false)

  /** An archive record; a book carries its own marks. */
  datatype Record =
    | Trade(captureId: string, connectionId: string, ordinal: int, monotonicNs: int, marks: Marks)
    | OnBook(book: Book)

  function CaptureOf(r: Record): string { if r.Trade? then r.captureId else r.book.captureId }
  function OrdinalOf(r: Record): int { if r.Trade? then r.ordinal else r.book.ordinal }
  function MarksOf(r: Record): Marks { if r.Trade? then r.marks else Marks(r.book.gap, r.book.regression) }

  function WithMarks(b: Book, m: Marks): Book { b.(gap := m.gap, regression := m.regression) }

  /** Later gap reasons replace earlier ones; a regression stays. */
  function Merge(earlier: Marks, later: Marks): Marks {
    Marks(if later.gap.Some? then later.gap else earlier.gap, earlier.regression || later.regression)
  }

  predicate Marked(m: Marks) { m.gap.Some? || m.regression }

  /** Which records are books, in order. */
  function BookIndices(records: seq<Record>): (at: seq<nat>)
    ensures forall n :: 0 <= n < |at| ==> at[n] < |records| && records[at[n]].OnBook?
    decreases |records|
  {
    if records == [] then []
    else
      var m := |records| - 1;
      var before := BookIndices(records[..m]);
      if records[m].OnBook? then before + [m] else before
  }

  lemma IndicesGrow(records: seq<Record>, k: nat)
    requires k < |records|
    ensures BookIndices(records[..k + 1]) == BookIndices(records[..k]) + if records[k].OnBook? then [k] else []
  {
    assert records[..k + 1][..k] == records[..k];
  }

  lemma NoIndices(records: seq<Record>)
    ensures BookIndices(records[..0]) == [] && records[..|records|] == records
  {
  }

  // ---------------------------------------------------------------- the live service

  /** Marks of the trades since the last book, after `k` records. */
  function Intervening(records: seq<Record>, k: nat): Marks
    requires k <= |records|
  {
    if k == 0 || records[k - 1].OnBook? then NO_MARKS else Merge(Intervening(records, k - 1), records[k - 1].marks)
  }

  /** The book handed to the engine: marks of intervening trades replace the book's own. */
  function OnlineBook(records: seq<Record>, k: nat): Book
    requires k < |records| && records[k].OnBook?
  {
    var pending := Intervening(records, k);
    if Marked(pending) then WithMarks(records[k].book, pending) else records[k].book
  }

  /** The marks the consumer carries from trades to the next book. */
  class Consumer {
    var gap: Option<string>
    var regression: bool

    constructor ()
      ensures gap == None && !regression
    {
      gap, regression := None, false;
    }

    method Consume(record: Record) returns (book: Option<Book>)
      modifies this
      ensures var pending := old(Marks(gap, regression));
        match record
        case Trade(_, _, _, _, marks) => book == None && Marks(gap, regression) == Merge(pending, marks)
        case OnBook(b) =>
          Marks(gap, regression) == NO_MARKS && book == Some(if Marked(pending) then WithMarks(b, pending) else b)
    {
      if record.Trade? {
        if record.marks.gap.Some? { gap := record.marks.gap; }
        if record.marks.regression { regression := true; }
        return None;
      }
      var b := record.book;
      if gap.Some? || regression {
        b := b.(gap := gap, regression := regression);
        gap := None;
        regression := false;
      }
      return Some(b);
    }
  }

  /** Feeding a whole stream to the consumer hands on exactly the online books, in order. */
  method ConsumeAll(records: seq<Record>) returns (books: seq<Book>)
    ensures var at := BookIndices(records);
      |books| == |at| && forall n :: 0 <= n < |at| ==> books[n] == OnlineBook(records, at[n])
  {
    hide BookIndices;
    var consumer := new Consumer();
    books := [];
    NoIndices(records);
    for k := 0 to |records|
      invariant fresh(consumer)
      invariant Marks(consumer.gap, consumer.regression) == Intervening(records, k)
      invariant |books| == |BookIndices(records[..k])|
      invariant forall n :: 0 <= n < |books| ==> books[n] == OnlineBook(records, BookIndices(records[..k])[n])
    {
      IndicesGrow(records, k);
      var book := consumer.Consume(records[k]);
      if book.Some? { books := books + [book.value]; }
    }
  }

  // ---------------------------------------------------------------- the archive loader

  const DISCONTINUITY := "ordinal_discontinuity"

  /** The ordinal of the capture's last record before `k`. */
  function PreviousOrdinal(records: seq<Record>, captureId: string, k: nat): Option<int>
    requires k <= |records|
  {
    if k == 0 then None
    else if CaptureOf(records[k - 1]) == captureId then Some(OrdinalOf(records[k - 1]))
    else PreviousOrdinal(records, captureId, k - 1)
  }

  predicate Skips(records: seq<Record>, k: nat)
    requires k < |records|
  {
    var previous := PreviousOrdinal(records, CaptureOf(records[k]), k);
    previous.Some? && OrdinalOf(records[k]) != previous.value + 1
  }

  /** A record's marks, with a discontinuity where an ordinal was skipped. */
  function LoadedMarks(records: seq<Record>, k: nat): Marks
    requires k < |records|
  {
    Merge(Marks(if Skips(records, k) then Some(DISCONTINUITY) else None, false), MarksOf(records[k]))
  }

  /** Marks of the capture's records since its last book, after `k` records. */
  function Carried(records: seq<Record>, captureId: string, k: nat): Marks
    requires k <= |records|
  {
    if k == 0 then NO_MARKS
    else if CaptureOf(records[k - 1]) != captureId then Carried(records, captureId, k - 1)
    else if records[k - 1].OnBook? then NO_MARKS
    else Merge(Carried(records, captureId, k - 1), LoadedMarks(records, k - 1))
  }

  function OfflineBook(records: seq<Record>, k: nat): Book
    requires k < |records| && records[k].OnBook?
  {
    WithMarks(records[k].book, Merge(Carried(records, records[k].book.captureId, k), LoadedMarks(records, k)))
  }

  function Get<T>(m: map<string, T>, key: string, missing: T): T {
    if key in m then m[key] else missing
  }

  /** One pass over the records in archive order. */
  method LoadBooks(records: seq<Record>) returns (books: seq<Book>)
    ensures var at := BookIndices(records);
      |books| == |at| && forall n :: 0 <= n < |at| ==> books[n] == OfflineBook(records, at[n])
  {
    hide BookIndices, WithMarks, Marked;
    var pendingGap: map<string, Option<string>> := map[];
    var pendingRegression: map<string, bool> := map[];
    var previousOrdinal: map<string, int> := map[];
    books := [];
    NoIndices(records);
    for k := 0 to |records|
      invariant forall c :: Marks(Get(pendingGap, c, None), Get(pendingRegression, c, false)) == Carried(records, c, k)
      invariant forall c :: PreviousOrdinal(records, c, k) == if c in previousOrdinal then Some(previousOrdinal[c])
        else None
      invariant |books| == |BookIndices(records[..k])|
      invariant forall n :: 0 <= n < |books| ==> books[n] == OfflineBook(records, BookIndices(records[..k])[n])
    {
      IndicesGrow(records, k);
      var record := records[k];
      var captureId, ordinal, marks := CaptureOf(record), OrdinalOf(record), MarksOf(record);
      if captureId in previousOrdinal && ordinal != previousOrdinal[captureId] + 1 {
        pendingGap := pendingGap[captureId := Some(DISCONTINUITY)];
      }
      previousOrdinal := previousOrdinal[captureId := ordinal];
      if marks.gap.Some? { pendingGap := pendingGap[captureId := marks.gap]; }
      if marks.regression { pendingRegression := pendingRegression[captureId := true]; }
      if record.OnBook? {
        var gap, regression := Get(pendingGap, captureId, None), Get(pendingRegression, captureId, false);
        books := books + [WithMarks(record.book, Marks(gap, regression))];
        pendingGap := pendingGap[captureId := None];
        pendingRegression := pendingRegression[captureId := false];
      }
    }
  }

  // ---------------------------------------------------------------- agreement

  predicate OneCapture(records: seq<Record>) {
    forall i, j :: 0 <= i < j < |records| ==> CaptureOf(records[i]) == CaptureOf(records[j])
  }

  /** Some record after the last book before `k`, or record `k` itself, skipped an ordinal. */
  predicate SkippedSinceBook(records: seq<Record>, k: nat)
    requires k < |records|
  {
    Skips(records, k) || (k > 0 && records[k - 1].Trade? && SkippedSinceBook(records, k - 1))
  }

  lemma {:induction false} CarriedIsIntervening(records: seq<Record>, c: string, k: nat)
    requires k < |records| && OneCapture(records) && CaptureOf(records[k]) == c
    ensures var online, offline := Intervening(records, k), Carried(records, c, k);
      && offline.regression == online.regression
      && (Marked(offline) || Skips(records, k) <==> Marked(online) || SkippedSinceBook(records, k))
      && (!SkippedSinceBook(records, k) ==> offline == online)
  {
    if k > 0 {
      assert CaptureOf(records[k - 1]) == c;
      if records[k - 1].Trade? {
        CarriedIsIntervening(records, c, k - 1);
        if !SkippedSinceBook(records, k) {
          assert !SkippedSinceBook(records, k - 1);
          assert LoadedMarks(records, k - 1) == records[k - 1].marks;
        }
      }
    }
  }

  /**
   Of one capture's records, the loader's book is marked exactly when the service's is or an ordinal was
   skipped since the book before; apart from marks they are the same book. The marks themselves are the
   same if and only if, besides no skip, intervening marks already cover the book's own.
   */
  lemma BooksAgree(records: seq<Record>, k: nat)
    requires k < |records| && records[k].OnBook? && OneCapture(records)
    ensures var online, offline, own := OnlineBook(records, k), OfflineBook(records, k), MarksOf(records[k]);
      var a, b := Marks(online.gap, online.regression), Marks(offline.gap, offline.regression);
      && (Marked(b) <==> Marked(a) || SkippedSinceBook(records, k))
      && offline == WithMarks(online, b)
      && (!SkippedSinceBook(records, k) ==>
            (offline == online <==>
               !Marked(Intervening(records, k)) || Merge(Intervening(records, k), own) == Intervening(records, k)))
  {
    CarriedIsIntervening(records, records[k].book.captureId, k);
  }

  /** A recorder numbers a capture's records without holes. */
  predicate Contiguous(records: seq<Record>) {
    && OneCapture(records)
    && forall i, j :: 0 <= i < j < |records| ==> OrdinalOf(records[j]) == OrdinalOf(records[i]) + (j - i)
  }

  lemma {:induction false} ContiguousNeverSkips(records: seq<Record>, k: nat)
    requires Contiguous(records) && k < |records|
    ensures !SkippedSinceBook(records, k)
  {
    if k > 0 {
      assert CaptureOf(records[k - 1]) == CaptureOf(records[k]);
      ContiguousNeverSkips(records, k - 1);
    }
  }

  /** A trade behind a reconnect, then a book with a gap reason of its own. */
  function TwoReasons(): seq<Record> {
    [Trade("capture", "connection", 1, 10, Marks(Some("reconnect"), false)),
     OnBook(Book("capture", "connection", 2, "KRW-BTC", 20, None, [], [], Some("snapshot"), false))]
  }

  /** Both sides mark the book, the service with the trade's reason and the loader with the book's own. */
  lemma OwnReasonReplaced()
    ensures !SkippedSinceBook(TwoReasons(), 1)
    ensures OnlineBook(TwoReasons(), 1).gap == Some("reconnect") && OfflineBook(TwoReasons(), 1).gap == Some("snapshot")
  {
    var records := TwoReasons();
    assert PreviousOrdinal(records, "capture", 1) == Some(1);
    assert Intervening(records, 1) == Merge(Intervening(records, 0), records[0].marks);
  }
}
