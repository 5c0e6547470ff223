/**
 The write-ahead journal that makes every consumed envelope recoverable: its line format,
 the scan that recovery runs over it, and the append that precedes every hand-over.

 JSON text is abstract: a `Codec` prints one line without a newline and parses it back.
 */
module AuditJournal {
  import opened Envelopes

  newtype Byte = b: int | 0 <= b < 256
  type Bytes = seq<Byte>

  const NEWLINE: Byte := 10
  const SCHEMA_VERSION := 1

  datatype Header = Header(
    market: string, captureId: string, partitionStart: string, partitionEnd: string,
    dataPath: string, partialDataPath: string, manifestPath: string)

  /** One JSON line, as far as the scan distinguishes them. */
  datatype Line =
    | HeaderLine(schemaVersion: int, header: Header)
    | RecordLine(schemaVersion: int, digest: int, payload: Envelope)
    | OtherJson

  datatype Codec = Codec(encode: Line -> Bytes, decode: Bytes -> Option<Line>, digest: Envelope -> int)

  ghost predicate Faithful(c: Codec) {
    forall l :: NEWLINE !in c.encode(l) && c.decode(c.encode(l)) == Some(l)
  }

  datatype JournalError =
    | HeaderIncomplete | HeaderInvalid
    | InvalidFrame | ChecksumMismatch | CaptureMismatch | MarketMismatch
    | OrdinalInvalid | OrdinalsNotContiguous | FieldInvalid

  datatype FrameCheck = Payload(envelope: Envelope) | Rejected(error: JournalError)

  // ---------------------------------------------------------------- one frame

  predicate HeaderComplete(h: Header) {
    && h.market != "" && h.captureId != "" && h.partitionStart != "" && h.partitionEnd != ""
    && h.dataPath != "" && h.partialDataPath != "" && h.manifestPath != ""
  }

  function LastOrdinal(t: Totals): Option<int> {
    match t.last
    case None => None
    case Some(stamp) => Some(stamp.ordinal)
  }

  function ValidatedFrame(c: Codec, raw: Bytes, h: Header, previous: Option<int>): FrameCheck {
    match c.decode(raw)
    case Some(RecordLine(version, digest, e)) =>
      if version != SCHEMA_VERSION then Rejected(InvalidFrame)
      else if digest != c.digest(e) then Rejected(ChecksumMismatch)
      else if e.captureId != h.captureId then Rejected(CaptureMismatch)
      else if e.event.market != h.market then Rejected(MarketMismatch)
      else if e.ordinal <= 0 then Rejected(OrdinalInvalid)
      else if previous.Some? && e.ordinal != previous.value + 1 then Rejected(OrdinalsNotContiguous)
      else if e.connectionId == "" || e.wallNs == "" || e.monotonicNs == "" then Rejected(FieldInvalid)
      else Payload(e)
    case _ => Rejected(InvalidFrame)
  }

  /** An envelope the recorder may write under this header. */
  predicate Fits(h: Header, e: Envelope) {
    && e.captureId == h.captureId && e.event.market == h.market && e.ordinal > 0
    && e.connectionId != "" && e.wallNs != "" && e.monotonicNs != ""
  }

  /** A list of envelopes one partition may hold: each fits, ordinals are consecutive. */
  predicate Acceptable(h: Header, es: seq<Envelope>) {
    && (forall i :: 0 <= i < |es| ==> Fits(h, es[i]))
    && forall i, j :: 0 <= i < j < |es| ==> es[j].ordinal == es[i].ordinal + (j - i)
  }

  // ---------------------------------------------------------------- printing

  function FrameBytes(c: Codec, e: Envelope): Bytes {
    c.encode(RecordLine(SCHEMA_VERSION, c.digest(e), e)) + [NEWLINE]
  }

  function HeaderBytes(c: Codec, h: Header): Bytes {
    c.encode(HeaderLine(SCHEMA_VERSION, h)) + [NEWLINE]
  }

  function FramesBytes(c: Codec, es: seq<Envelope>): Bytes {
    if es == [] then [] else FrameBytes(c, es[0]) + FramesBytes(c, es[1..])
  }

  /** A whole journal: the header line, then one line per envelope. */
  function Printed(c: Codec, h: Header, es: seq<Envelope>): Bytes {
    HeaderBytes(c, h) + FramesBytes(c, es)
  }

  // ---------------------------------------------------------------- scanning

  datatype JournalScan = JournalScan(header: Header, validEnd: nat, totals: Totals, incompleteTail: bool)

  datatype ScanResult =
    | Recoverable(scan: JournalScan)
    | EmptyJournal
    | Unreadable(error: JournalError)

  /** Where the line starting at `pos` ends, its newline included. */
  function LineEnd(b: Bytes, pos: nat): (end: nat)
    requires pos <= |b|
    ensures pos <= end <= |b|
    ensures pos < |b| ==> pos < end
    ensures forall i :: pos <= i < end - 1 ==> b[i] != NEWLINE
    ensures end < |b| ==> pos < end && b[end - 1] == NEWLINE
    decreases |b| - pos
  {
    if pos == |b| then pos else if b[pos] == NEWLINE then pos + 1 else LineEnd(b, pos + 1)
  }

  datatype Frames = Frames(validEnd: nat, totals: Totals, incompleteTail: bool) | BadFrame(error: JournalError)

  /** The frames from `pos` on, with the totals of the lines already accepted. */
  function ScanFrames(c: Codec, h: Header, b: Bytes, pos: nat, t: Totals): Frames
    requires pos <= |b|
    decreases |b| - pos
  {
    if pos == |b| then Frames(pos, t, false)
    else
      var end := LineEnd(b, pos);
      if b[end - 1] != NEWLINE then Frames(pos, t, true)
      else
        match ValidatedFrame(c, b[pos..end - 1], h, LastOrdinal(t))
        case Rejected(error) => BadFrame(error)
        case Payload(e) => ScanFrames(c, h, b, end, Observe(t, e))
  }

  function ScanHeader(c: Codec, b: Bytes): Option<Header> {
    var end := LineEnd(b, 0);
    if end == 0 || b[end - 1] != NEWLINE then None
    else
      match c.decode(b[..end - 1])
      case Some(HeaderLine(version, h)) =>
        if version == SCHEMA_VERSION && HeaderComplete(h) then Some(h) else None
      case _ => None
  }

  function HeaderFault(b: Bytes): JournalError {
    var end := LineEnd(b, 0);
    if end == 0 || b[end - 1] != NEWLINE then HeaderIncomplete else HeaderInvalid
  }

  function Scan(c: Codec, b: Bytes): ScanResult {
    match ScanHeader(c, b)
    case None => Unreadable(HeaderFault(b))
    case Some(h) =>
      match ScanFrames(c, h, b, LineEnd(b, 0), SCAN_START)
      case BadFrame(error) => Unreadable(error)
      case Frames(validEnd, t, tail) =>
        if t.records == 0 then EmptyJournal else Recoverable(JournalScan(h, validEnd, t, tail))
  }

  /** The scan as it runs: one pass that reads a line, checks it and folds it into the totals. */
  method ScanJournal(c: Codec, b: Bytes) returns (r: ScanResult)
    ensures r == Scan(c, b)
  {
    var headerEnd := LineEnd(b, 0);
    if headerEnd == 0 || b[headerEnd - 1] != NEWLINE {
      return Unreadable(HeaderIncomplete);
    }
    var parsed := c.decode(b[..headerEnd - 1]);
    if parsed.None? || !parsed.value.HeaderLine? || parsed.value.schemaVersion != SCHEMA_VERSION
       || !HeaderComplete(parsed.value.header) {
      return Unreadable(HeaderInvalid);
    }
    var h := parsed.value.header;
    var totals, validEnd, incompleteTail := SCAN_START, headerEnd, false;
    while validEnd < |b| && !incompleteTail
      invariant headerEnd <= validEnd <= |b|
      invariant ScanFrames(c, h, b, headerEnd, SCAN_START)
             == if incompleteTail then Frames(validEnd, totals, true) else ScanFrames(c, h, b, validEnd, totals)
      decreases |b| - validEnd, !incompleteTail
    {
      var end := LineEnd(b, validEnd);
      if b[end - 1] != NEWLINE {
        incompleteTail := true;
      } else {
        var check := ValidatedFrame(c, b[validEnd..end - 1], h, LastOrdinal(totals));
        if check.Rejected? {
          return Unreadable(check.error);
        }
        totals := Observe(totals, check.envelope);
        validEnd := end;
      }
    }
    r := if totals.records == 0 then EmptyJournal
         else Recoverable(JournalScan(h, validEnd, totals, incompleteTail));
  }

  /** The payloads recovery writes to the new bundle: the lines between the header and `end`, read again. */
  function Payloads(c: Codec, h: Header, b: Bytes, pos: nat, end: nat, previous: Option<int>): seq<Envelope>
    requires pos <= |b|
    decreases |b| - pos
  {
    if pos >= end || pos == |b| then []
    else
      var lineEnd := LineEnd(b, pos);
      match ValidatedFrame(c, b[pos..lineEnd - 1], h, previous)
      case Rejected(_) => []
      case Payload(e) => [e] + Payloads(c, h, b, lineEnd, end, Some(e.ordinal))
  }

  function ScannedPayloads(c: Codec, b: Bytes, scan: JournalScan): seq<Envelope> {
    Payloads(c, scan.header, b, LineEnd(b, 0), scan.validEnd, None)
  }

  // ---------------------------------------------------------------- print, tear, scan

  lemma FirstLine(b: Bytes, pos: nat, line: Bytes, rest: Bytes)
    requires pos <= |b| && b[pos..] == line + [NEWLINE] + rest && NEWLINE !in line
    ensures LineEnd(b, pos) == pos + |line| + 1
    ensures b[pos..LineEnd(b, pos) - 1] == line && b[LineEnd(b, pos)..] == rest
  {
    var at := pos + |line|;
    assert b[at] == b[pos..][|line|] == NEWLINE;
    forall i | pos <= i < at ensures b[i] != NEWLINE {
      assert b[i] == b[pos..][i - pos] == line[i - pos];
    }
    assert b[pos..at] == b[pos..][..|line|];
    assert b[at + 1..] == b[pos..][|line| + 1..];
  }

  lemma NoLineLeft(b: Bytes, pos: nat)
    requires pos < |b| && NEWLINE !in b[pos..]
    ensures b[LineEnd(b, pos) - 1] != NEWLINE
  {
    var end := LineEnd(b, pos);
    assert b[end - 1] == b[pos..][end - 1 - pos];
  }

  lemma PrintedFrameIsValid(c: Codec, h: Header, e: Envelope, previous: Option<int>)
    requires Faithful(c) && Fits(h, e) && (previous.Some? ==> e.ordinal == previous.value + 1)
    ensures ValidatedFrame(c, c.encode(RecordLine(SCHEMA_VERSION, c.digest(e), e)), h, previous) == Payload(e)
    ensures NEWLINE !in c.encode(RecordLine(SCHEMA_VERSION, c.digest(e), e))
  {
  }

  /** One printed frame at `pos`: the line is found and accepted, and the rest starts behind it. */
  lemma PrintedFrameAt(c: Codec, h: Header, b: Bytes, pos: nat, e: Envelope, previous: Option<int>, rest: Bytes)
    requires Faithful(c) && pos <= |b| && b[pos..] == FrameBytes(c, e) + rest
    requires Fits(h, e) && (previous.Some? ==> e.ordinal == previous.value + 1)
    ensures var next := LineEnd(b, pos);
      && pos < next == pos + |FrameBytes(c, e)| && b[next..] == rest && b[next - 1] == NEWLINE
      && ValidatedFrame(c, b[pos..next - 1], h, previous) == Payload(e)
  {
    PrintedFrameIsValid(c, h, e, previous);
    FirstLine(b, pos, c.encode(RecordLine(SCHEMA_VERSION, c.digest(e), e)), rest);
  }

  lemma AcceptableRest(h: Header, es: seq<Envelope>)
    requires Acceptable(h, es) && es != []
    ensures Fits(h, es[0]) && Acceptable(h, es[1..]) && (es[1..] != [] ==> es[1..][0].ordinal == es[0].ordinal + 1)
  {
    hide Fits;
  }

  lemma NothingAcceptable(h: Header)
    ensures Acceptable(h, [])
  {
  }

  /** Scanning printed frames followed by a torn tail accepts exactly those frames. */
  lemma {:induction false} ScanPrintedFrames(c: Codec, h: Header, b: Bytes, pos: nat, end: nat, t: Totals,
      es: seq<Envelope>, tail: Bytes)
    requires Faithful(c) && pos <= |b| && b[pos..] == FramesBytes(c, es) + tail && NEWLINE !in tail
    requires end == pos + |FramesBytes(c, es)|
    requires Acceptable(h, es) && (es != [] && t.last.Some? ==> es[0].ordinal == t.last.value.ordinal + 1)
    ensures ScanFrames(c, h, b, pos, t) == Frames(end, ObserveAll(t, es), tail != [])
    decreases |es|
  {
    hide ValidatedFrame, Faithful, Acceptable;
    if es == [] {
      assert b[pos..] == tail;
      if tail != [] { NoLineLeft(b, pos); }
    } else {
      var e, after, rest := es[0], Observe(t, es[0]), FramesBytes(c, es[1..]) + tail;
      AcceptableRest(h, es);
      assert b[pos..] == FrameBytes(c, e) + rest;
      PrintedFrameAt(c, h, b, pos, e, LastOrdinal(t), rest);
      var next := LineEnd(b, pos);
      assert ScanFrames(c, h, b, pos, t) == ScanFrames(c, h, b, next, after);
      assert after.last == Some(StampOf(e));
      ScanPrintedFrames(c, h, b, next, end, after, es[1..], tail);
      ObserveFirst(t, es);
    }
  }

  /** Reading the payloads up to the end of the last printed frame gives them all back. */
  lemma {:induction false} PayloadsPrinted(c: Codec, h: Header, b: Bytes, pos: nat, end: nat, previous: Option<int>,
      es: seq<Envelope>, tail: Bytes)
    requires Faithful(c) && pos <= |b| && b[pos..] == FramesBytes(c, es) + tail
    requires end == pos + |FramesBytes(c, es)|
    requires Acceptable(h, es) && (es != [] && previous.Some? ==> es[0].ordinal == previous.value + 1)
    ensures Payloads(c, h, b, pos, end, previous) == es
    decreases |es|
  {
    hide ValidatedFrame, Faithful, Acceptable;
    if es != [] {
      var e, rest := es[0], FramesBytes(c, es[1..]) + tail;
      AcceptableRest(h, es);
      assert b[pos..] == FrameBytes(c, e) + rest;
      PrintedFrameAt(c, h, b, pos, e, previous, rest);
      var next := LineEnd(b, pos);
      assert Payloads(c, h, b, pos, end, previous) == [e] + Payloads(c, h, b, next, end, Some(e.ordinal));
      PayloadsPrinted(c, h, b, next, end, Some(e.ordinal), es[1..], tail);
    }
  }

  lemma HeaderScans(c: Codec, h: Header, b: Bytes, rest: Bytes)
    requires Faithful(c) && HeaderComplete(h) && b == HeaderBytes(c, h) + rest
    ensures ScanHeader(c, b) == Some(h) && LineEnd(b, 0) == |HeaderBytes(c, h)| && b[LineEnd(b, 0)..] == rest
  {
    var line := c.encode(HeaderLine(SCHEMA_VERSION, h));
    assert b[0..] == line + [NEWLINE] + rest;
    FirstLine(b, 0, line, rest);
    assert b[..|line|] == b[0..|line|];
  }

  /** What a scan must return for a journal holding `es` and a torn tail. */
  function Expected(h: Header, es: seq<Envelope>, validEnd: nat, torn: bool): ScanResult {
    if es == [] then EmptyJournal else Recoverable(JournalScan(h, validEnd, ObserveAll(SCAN_START, es), torn))
  }

  lemma ScanOfPrintedFrames(c: Codec, h: Header, es: seq<Envelope>, tail: Bytes)
    requires Faithful(c) && HeaderComplete(h) && Acceptable(h, es) && NEWLINE !in tail
    ensures var b := Printed(c, h, es) + tail;
      && ScanHeader(c, b) == Some(h) && LineEnd(b, 0) <= |b|
      && ScanFrames(c, h, b, LineEnd(b, 0), SCAN_START)
        == Frames(|Printed(c, h, es)|, ObserveAll(SCAN_START, es), tail != [])
      && Payloads(c, h, b, LineEnd(b, 0), |Printed(c, h, es)|, None) == es
  {
    hide ScanFrames, Payloads, Faithful, ValidatedFrame, ScanHeader, Acceptable;
    var b, rest := Printed(c, h, es) + tail, FramesBytes(c, es) + tail;
    assert b == HeaderBytes(c, h) + rest;
    HeaderScans(c, h, b, rest);
    ScanPrintedFrames(c, h, b, LineEnd(b, 0), |Printed(c, h, es)|, SCAN_START, es, tail);
    PayloadsPrinted(c, h, b, LineEnd(b, 0), |Printed(c, h, es)|, None, es, tail);
  }

  /** Print and scan undo each other, whatever newline-free bytes a crash left after the last frame. */
  lemma ScanOfPrinted(c: Codec, h: Header, es: seq<Envelope>, tail: Bytes)
    requires Faithful(c) && HeaderComplete(h) && Acceptable(h, es) && NEWLINE !in tail
    ensures Scan(c, Printed(c, h, es) + tail) == Expected(h, es, |Printed(c, h, es)|, tail != [])
    ensures es != [] ==> ScannedPayloads(c, Printed(c, h, es) + tail, Scan(c, Printed(c, h, es) + tail).scan) == es
  {
    hide ScanFrames, Payloads, Faithful, ValidatedFrame, ScanHeader, Acceptable, Printed;
    ScanOfPrintedFrames(c, h, es, tail);
    TotalsMeaning(SCAN_START, es);
  }

  lemma FramesAppend(c: Codec, es: seq<Envelope>, e: Envelope)
    ensures FramesBytes(c, es + [e]) == FramesBytes(c, es) + FrameBytes(c, e)
  {
    if es == [] {
      assert es + [e] == [e];
    } else {
      FramesAppend(c, es[1..], e);
      assert (es + [e])[1..] == es[1..] + [e];
      assert FramesBytes(c, es + [e]) == FrameBytes(c, es[0]) + (FramesBytes(c, es[1..]) + FrameBytes(c, e));
    }
  }

  /** The payloads of a journal cut `k` bytes into the frame of `e`. */
  function Surviving(c: Codec, es: seq<Envelope>, e: Envelope, k: nat): seq<Envelope> {
    if k < |FrameBytes(c, e)| then es else es + [e]
  }

  /**
   However many bytes of one more frame survive a crash, the scan returns the envelopes whose
   frames are complete: all acknowledged ones, and the last one only if every byte of it survived.
   */
  lemma ScanAfterTornAppend(c: Codec, h: Header, es: seq<Envelope>, e: Envelope, k: nat)
    requires Faithful(c) && HeaderComplete(h) && Acceptable(h, es + [e]) && k <= |FrameBytes(c, e)|
    ensures var cut := Printed(c, h, es) + FrameBytes(c, e)[..k];
      var kept := Surviving(c, es, e, k);
      && Scan(c, cut) == Expected(h, kept, |Printed(c, h, kept)|, 0 < k < |FrameBytes(c, e)|)
      && (kept != [] ==> ScannedPayloads(c, cut, Scan(c, cut).scan) == kept)
  {
    var frame := FrameBytes(c, e);
    forall i | 0 <= i < |es| ensures es[i] == (es + [e])[i] {}
    if k < |frame| {
      assert frame[..k] == c.encode(RecordLine(SCHEMA_VERSION, c.digest(e), e))[..k];
      ScanOfPrinted(c, h, es, frame[..k]);
    } else {
      FramesAppend(c, es, e);
      assert Printed(c, h, es) + frame[..k] == Printed(c, h, es + [e]) + [];
      ScanOfPrinted(c, h, es + [e], []);
    }
  }

  // ---------------------------------------------------------------- what any successful scan means

  lemma AcceptableFront(h: Header, e: Envelope, rest: seq<Envelope>)
    requires Fits(h, e) && Acceptable(h, rest) && (rest != [] ==> rest[0].ordinal == e.ordinal + 1)
    ensures Acceptable(h, [e] + rest)
  {
    hide Fits;
    var es := [e] + rest;
    forall i | 0 <= i < |es| ensures Fits(h, es[i]) { if i > 0 { assert es[i] == rest[i - 1]; } }
    forall i, j | 0 <= i < j < |es| ensures es[j].ordinal == es[i].ordinal + (j - i) {
      assert es[j] == rest[j - 1] && (i > 0 ==> es[i] == rest[i - 1]);
    }
  }

  lemma ValidatedFits(c: Codec, raw: Bytes, h: Header, previous: Option<int>)
    ensures var check := ValidatedFrame(c, raw, h, previous);
      check.Payload? ==> Fits(h, check.envelope) && (previous.Some? ==> check.envelope.ordinal == previous.value + 1)
  {
  }

  /** Every journal the scan accepts holds an acceptable list of payloads, and nothing but a torn line after them. */
  lemma {:induction false} ScanFramesSound(c: Codec, h: Header, b: Bytes, pos: nat, t: Totals)
    requires pos <= |b| && ScanFrames(c, h, b, pos, t).Frames?
    requires t.records == 0 <==> t.last == None
    ensures var f := ScanFrames(c, h, b, pos, t);
      var es := Payloads(c, h, b, pos, f.validEnd, LastOrdinal(t));
      && pos <= f.validEnd <= |b| && NEWLINE !in b[f.validEnd..] && f.incompleteTail == (f.validEnd < |b|)
      && Acceptable(h, es)
      && (es != [] && t.last.Some? ==> es[0].ordinal == t.last.value.ordinal + 1)
    decreases |b| - pos
  {
    hide ValidatedFrame, Fits, Acceptable;
    NothingAcceptable(h);
    var f := ScanFrames(c, h, b, pos, t);
    if pos < |b| {
      var end := LineEnd(b, pos);
      if b[end - 1] != NEWLINE {
        assert end == |b|;
      } else {
        ValidatedFits(c, b[pos..end - 1], h, LastOrdinal(t));
        var e := ValidatedFrame(c, b[pos..end - 1], h, LastOrdinal(t)).envelope;
        ScanFramesSound(c, h, b, end, Observe(t, e));
        var rest := Payloads(c, h, b, end, f.validEnd, Some(e.ordinal));
        var es := Payloads(c, h, b, pos, f.validEnd, LastOrdinal(t));
        assert es == [e] + rest;
        AcceptableFront(h, e, rest);
      }
    }
  }

  /** The totals of an accepted scan are the totals of the payloads it will hand to recovery. */
  lemma {:induction false} ScanFramesTotals(c: Codec, h: Header, b: Bytes, pos: nat, t: Totals)
    requires pos <= |b| && ScanFrames(c, h, b, pos, t).Frames?
    ensures pos <= ScanFrames(c, h, b, pos, t).validEnd
    ensures ScanFrames(c, h, b, pos, t).totals
         == ObserveAll(t, Payloads(c, h, b, pos, ScanFrames(c, h, b, pos, t).validEnd, LastOrdinal(t)))
    decreases |b| - pos
  {
    hide ValidatedFrame;
    var f := ScanFrames(c, h, b, pos, t);
    if pos < |b| {
      var next := LineEnd(b, pos);
      if b[next - 1] == NEWLINE {
        var e := ValidatedFrame(c, b[pos..next - 1], h, LastOrdinal(t)).envelope;
        var after := Observe(t, e);
        ScanFramesTotals(c, h, b, next, after);
        assert LastOrdinal(after) == Some(e.ordinal);
        var rest := Payloads(c, h, b, next, f.validEnd, Some(e.ordinal));
        var es := Payloads(c, h, b, pos, f.validEnd, LastOrdinal(t));
        assert es == [e] + rest;
        ObserveFirst(t, es);
      }
    }
  }

  lemma ScanSound(c: Codec, b: Bytes)
    requires Scan(c, b).Recoverable?
    ensures var s := Scan(c, b).scan; var es := ScannedPayloads(c, b, s);
      && es != [] && Acceptable(s.header, es) && s.totals == ObserveAll(SCAN_START, es)
      && s.validEnd <= |b| && NEWLINE !in b[s.validEnd..] && s.incompleteTail == (s.validEnd < |b|)
      && var h := s.header;
      && h.captureId != "" && h.market != "" && h.partitionStart != "" && h.partitionEnd != ""
      && h.dataPath != "" && h.partialDataPath != "" && h.manifestPath != ""
  {
    var h := Scan(c, b).scan.header;
    ScanFramesSound(c, h, b, LineEnd(b, 0), SCAN_START);
    ScanFramesTotals(c, h, b, LineEnd(b, 0), SCAN_START);
  }

  // ---------------------------------------------------------------- the live journal

  /** `os.write` may take fewer bytes than offered; `accepted[i]` is what call `i` reports, or 0 for an error. */
  method WriteAll(file: Bytes, payload: Bytes, accepted: seq<nat>) returns (after: Bytes, ok: bool)
    ensures exists k :: 0 <= k <= |payload| && after == file + payload[..k] && (ok <==> k == |payload|)
  {
    after := file;
    var view := payload;
    var calls := 0;
    while view != []
      invariant calls <= |accepted| && |view| <= |payload| && view == payload[|payload| - |view|..]
      invariant after == file + payload[..|payload| - |view|]
      decreases |view|
    {
      if calls == |accepted| || accepted[calls] == 0 {
        assert after == file + payload[..|payload| - |view|];
        return after, false;
      }
      var written := if accepted[calls] < |view| then accepted[calls] else |view|;
      after := after + view[..written];
      view := view[written..];
      calls := calls + 1;
    }
    assert after == file + payload[..|payload|];
    ok := true;
  }

  class DurableAuditJournal {
    const codec: Codec
    const header: Header
    var closed: bool
    var bytes: Bytes
    /** Bytes known to be on durable media; a power loss keeps these and some prefix of the rest. */
    var synced: nat
    /** Envelopes whose append returned, in order. */
    ghost var acknowledged: seq<Envelope>
    /** The envelope of an append that failed half-way, if any. */
    ghost var failed: Option<Envelope>

    ghost predicate Valid()
      reads this
    {
      && Faithful(codec) && HeaderComplete(header)
      && Acceptable(header, acknowledged)
      && |Printed(codec, header, acknowledged)| <= synced <= |bytes|
      && match failed
         case None => bytes == Printed(codec, header, acknowledged)
         case Some(e) =>
           && Acceptable(header, acknowledged + [e])
           && (exists k ::
                0 <= k <= |FrameBytes(codec, e)|
                && bytes == Printed(codec, header, acknowledged) + FrameBytes(codec, e)[..k])
    }

    constructor (c: Codec, h: Header)
      requires Faithful(c) && HeaderComplete(h)
      ensures Valid() && codec == c && header == h && acknowledged == [] && failed == None && !closed
    {
      codec, header, closed := c, h, false;
      bytes := HeaderBytes(c, h);
      synced := |HeaderBytes(c, h)|;
      acknowledged, failed := [], None;
    }

    /** Acknowledge an envelope only after its whole frame is durable. */
    method AppendDurable(e: Envelope, accepted: seq<nat>, syncSucceeds: bool) returns (digest: Option<int>)
      requires Valid() && failed == None && Acceptable(header, acknowledged + [e])
      modifies this
      ensures Valid() && closed == old(closed)
      ensures digest.Some? ==> digest.value == codec.digest(e) && synced == |bytes|
      ensures acknowledged == if digest.Some? then old(acknowledged) + [e] else old(acknowledged)
      ensures failed == if digest.Some? || closed then None else Some(e)
      ensures digest.None? ==> synced == old(synced)
    {
      hide Faithful, Acceptable, FramesBytes;
      if closed { return None; }
      var frame := FrameBytes(codec, e);
      var ok;
      bytes, ok := WriteAll(bytes, frame, accepted);
      if !ok || !syncSucceeds {
        failed := Some(e);
        return None;
      }
      synced := |bytes|;
      FramesAppend(codec, acknowledged, e);
      acknowledged := acknowledged + [e];
      digest := Some(codec.digest(e));
    }

    /**
     Whatever prefix of the unsynced bytes survives a crash, recovery reads back every
     acknowledged envelope, in order, and at most one more.
     */
    lemma CrashImageRecovers(keep: nat) returns (kept: seq<Envelope>)
      requires Valid() && synced <= keep <= |bytes|
      ensures kept == acknowledged || (failed.Some? && kept == acknowledged + [failed.value])
      ensures kept == [] ==> Scan(codec, bytes[..keep]) == EmptyJournal
      ensures kept != [] ==> Scan(codec, bytes[..keep]).Recoverable?
      ensures kept != [] ==> ScannedPayloads(codec, bytes[..keep], Scan(codec, bytes[..keep]).scan) == kept
    {
      hide Scan, ScannedPayloads, Printed, Faithful, Acceptable, FrameBytes, ObserveAll;
      var image, whole := bytes[..keep], Printed(codec, header, acknowledged);
      match failed
      case None =>
        assert image == whole + [];
        ScanOfPrinted(codec, header, acknowledged, []);
        kept := acknowledged;
      case Some(e) =>
        var frame := FrameBytes(codec, e);
        var k :| 0 <= k <= |frame| && bytes == whole + frame[..k];
        assert image == whole + frame[..keep - |whole|];
        ScanAfterTornAppend(codec, header, acknowledged, e, keep - |whole|);
        kept := Surviving(codec, acknowledged, e, keep - |whole|);
    }

    method ClosePreserving()
      modifies `closed
      ensures closed
    {
      closed := true;
    }
  }
}
