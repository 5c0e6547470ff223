/** The journal's bytes behind the frames and the durable count the archive protocol runs on. */
module JournalRefinement {
  import opened Envelopes
  import opened AuditJournal
  import AP = ArchiveProtocol

  /** `b` holds the header, the complete frames of `j` and, if torn, the start of another line. */
  ghost predicate Holds(c: Codec, h: Header, b: Bytes, j: AP.Journal, tail: Bytes) {
    NEWLINE !in tail && b == Printed(c, h, j.frames) + tail && (j.torn <==> tail != [])
  }

  /** The bytes of a journal file, `synced` of them durable, stand for the protocol's journal `j`. */
  ghost predicate Represents(c: Codec, h: Header, b: Bytes, synced: nat, j: AP.Journal) {
    && synced <= |b|
    && if !j.header then j.frames == [] && j.durable == 0 && |b| < |HeaderBytes(c, h)| && b == HeaderBytes(c, h)[..|b|]
       else
         && j.durable <= |j.frames| && Acceptable(h, j.frames)
         && |Printed(c, h, j.frames[..j.durable])| <= synced
         && exists tail :: Holds(c, h, b, j, tail)
  }

  // ---------------------------------------------------------------- what recovery reads

  /** Recovery's scan of the bytes tells it exactly what the protocol's journal says. */
  lemma RecoveryReads(c: Codec, h: Header, b: Bytes, synced: nat, j: AP.Journal)
    requires Faithful(c) && HeaderComplete(h) && Represents(c, h, b, synced, j)
    ensures Scan(c, b).Recoverable? <==> j.header && j.frames != []
    ensures j.header && j.frames == [] ==> Scan(c, b) == EmptyJournal
    ensures j.header && j.frames != [] ==>
      && ScannedPayloads(c, b, Scan(c, b).scan) == j.frames && Scan(c, b).scan.incompleteTail == j.torn
      && Scan(c, b).scan.totals == ObserveAll(SCAN_START, j.frames)
  {
    if j.header {
      hide Scan, ScannedPayloads, Printed, Faithful, Acceptable;
      var tail :| Holds(c, h, b, j, tail);
      ScanOfPrinted(c, h, j.frames, tail);
    } else {
      TornHeader(c, h, b);
    }
  }

  lemma TornHeader(c: Codec, h: Header, b: Bytes)
    requires Faithful(c) && |b| < |HeaderBytes(c, h)| && b == HeaderBytes(c, h)[..|b|]
    ensures Scan(c, b) == Unreadable(HeaderIncomplete)
  {
    var line := c.encode(HeaderLine(SCHEMA_VERSION, h));
    assert b == line[..|b|];
    if b != [] {
      assert b[0..] == b;
      NoLineLeft(b, 0);
    }
  }

  // ---------------------------------------------------------------- what a power loss leaves

  lemma AcceptableSoFar(h: Header, es: seq<Envelope>, k: nat)
    requires Acceptable(h, es) && k <= |es|
    ensures Acceptable(h, es[..k])
  {
    hide Fits;
  }

  /** Any prefix of printed frames is fewer printed frames and the start of the next. */
  lemma {:induction false} PrefixOfPrinted(c: Codec, h: Header, es: seq<Envelope>, tail: Bytes, keep: nat)
      returns (k: nat, rest: Bytes)
    requires Faithful(c) && NEWLINE !in tail
    requires |HeaderBytes(c, h)| <= keep <= |Printed(c, h, es) + tail|
    ensures k <= |es| && NEWLINE !in rest && (Printed(c, h, es) + tail)[..keep] == Printed(c, h, es[..k]) + rest
    ensures forall d :: 0 <= d <= |es| && |Printed(c, h, es[..d])| <= keep ==> d <= k
    decreases |es|
  {
    hide Faithful, Printed, FrameBytes;
    var whole := Printed(c, h, es) + tail;
    if keep >= |Printed(c, h, es)| {
      k, rest := |es|, tail[..keep - |Printed(c, h, es)|];
      assert es[..k] == es;
    } else {
      assert es != [] by { NoFrames(c, h); }
      var n, e := |es| - 1, es[|es| - 1];
      PrintedSplits(c, h, es);
      FrameHasOneNewline(c, e);
      var torn := FrameBytes(c, e)[..|FrameBytes(c, e)| - 1];
      assert whole[..keep] == (Printed(c, h, es[..n]) + torn)[..keep];
      k, rest := PrefixOfPrinted(c, h, es[..n], torn, keep);
      assert es[..n][..k] == es[..k] && es[..|es|] == es;
      forall d | 0 <= d <= |es| && |Printed(c, h, es[..d])| <= keep ensures d <= k {
        if d <= n { assert es[..n][..d] == es[..d]; }
      }
    }
  }

  lemma NoFrames(c: Codec, h: Header)
    ensures Printed(c, h, []) == HeaderBytes(c, h)
  {
  }

  lemma PrintedSplits(c: Codec, h: Header, es: seq<Envelope>)
    requires es != []
    ensures Printed(c, h, es) == Printed(c, h, es[..|es| - 1]) + FrameBytes(c, es[|es| - 1])
  {
    var n := |es| - 1;
    FramesAppend(c, es[..n], es[n]);
    assert es[..n] + [es[n]] == es;
  }

  lemma FrameHasOneNewline(c: Codec, e: Envelope)
    requires Faithful(c)
    ensures FrameBytes(c, e) != [] && NEWLINE !in FrameBytes(c, e)[..|FrameBytes(c, e)| - 1]
  {
    var line := c.encode(RecordLine(SCHEMA_VERSION, c.digest(e), e));
    assert FrameBytes(c, e)[..|FrameBytes(c, e)| - 1] == line;
  }

  /** Whatever prefix of the unsynced bytes survives is the journal after one of the protocol's power losses. */
  lemma PowerLossRefines(c: Codec, h: Header, b: Bytes, synced: nat, j: AP.Journal, keep: nat)
    requires Faithful(c) && Represents(c, h, b, synced, j) && j.header && synced <= keep <= |b|
    ensures exists k, torn ::
      j.durable <= k <= |j.frames| && Represents(c, h, b[..keep], keep, AP.Journal(true, j.frames[..k], k, torn))
  {
    hide Faithful, Acceptable, FramesBytes;
    var tail :| Holds(c, h, b, j, tail);
    var k, rest := PrefixOfPrinted(c, h, j.frames, tail, keep);
    var after := AP.Journal(true, j.frames[..k], k, rest != []);
    AcceptableSoFar(h, j.frames, k);
    assert j.frames[..k][..k] == j.frames[..k];
    assert Holds(c, h, b[..keep], after, rest);
    assert Represents(c, h, b[..keep], keep, after);
  }

  // ---------------------------------------------------------------- what an append does

  /** Part of a frame, all of it, and the sync: the three steps of a write in the protocol. */
  lemma AppendRefines(c: Codec, h: Header, b: Bytes, synced: nat, p: AP.Partition, e: Envelope, k: nat)
    requires Faithful(c) && Represents(c, h, b, synced, p.journal) && p.journal.header && !p.journal.torn
    requires Acceptable(h, p.journal.frames + [e]) && 0 < k < |FrameBytes(c, e)|
    ensures var torn := AP.AfterWritePart(p, e, 1);
      var framed := AP.AfterWritePart(torn, e, 2);
      var durable := AP.AfterWritePart(framed, e, 3);
      var after := b + FrameBytes(c, e);
      && Represents(c, h, b + FrameBytes(c, e)[..k], synced, torn.journal)
      && Represents(c, h, after, synced, framed.journal)
      && Represents(c, h, after, |after|, durable.journal)
  {
    hide Faithful, Acceptable, FramesBytes, FrameBytes;
    var j, frame := p.journal, FrameBytes(c, e);
    var torn := AP.AfterWritePart(p, e, 1).journal;
    var framed := AP.AfterWritePart(AP.AfterWritePart(p, e, 1), e, 2).journal;
    var tail :| Holds(c, h, b, j, tail);
    FrameHasOneNewline(c, e);
    assert frame[..k] == frame[..|frame| - 1][..k];
    assert Holds(c, h, b + frame[..k], torn, frame[..k]);
    PrintedSplits(c, h, j.frames + [e]);
    assert (j.frames + [e])[..|j.frames|] == j.frames;
    assert (j.frames + [e])[..j.durable] == j.frames[..j.durable];
    assert (j.frames + [e])[..|j.frames| + 1] == j.frames + [e];
    assert Holds(c, h, b + frame, framed, []);
    assert Holds(c, h, b + frame, framed.(durable := |framed.frames|), []);
  }

  /** The live journal is a journal of the protocol in which everything acknowledged is durable. */
  lemma LiveJournalRefines(d: DurableAuditJournal) returns (j: AP.Journal)
    requires d.Valid()
    ensures Represents(d.codec, d.header, d.bytes, d.synced, j) && j.header && j.durable == |d.acknowledged|
    ensures j.frames == d.acknowledged || (d.failed.Some? && j.frames == d.acknowledged + [d.failed.value])
  {
    hide Faithful, Acceptable, FramesBytes, FrameBytes;
    var c, h, es := d.codec, d.header, d.acknowledged;
    assert es[..|es|] == es;
    match d.failed
    case None =>
      j := AP.Journal(true, es, |es|, false);
      assert Holds(c, h, d.bytes, j, []);
    case Some(e) =>
      var frame := FrameBytes(c, e);
      var k :| 0 <= k <= |frame| && d.bytes == Printed(c, h, es) + frame[..k];
      FrameHasOneNewline(c, e);
      if k < |frame| {
        j := AP.Journal(true, es, |es|, k > 0);
        AcceptableSoFar(h, es + [e], |es|);
        assert frame[..k] == frame[..|frame| - 1][..k];
        assert Holds(c, h, d.bytes, j, frame[..k]);
      } else {
        j := AP.Journal(true, es + [e], |es|, false);
        PrintedSplits(c, h, es + [e]);
        assert (es + [e])[..|es|] == es && frame[..k] == frame;
        assert Holds(c, h, d.bytes, j, []);
      }
  }
}
