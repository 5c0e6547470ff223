/** The writer and the recovery that run the archive protocol's programs. */
module ArchiveWriter {
  import opened Envelopes
  import opened Media
  import opened ArchiveProtocol
  import opened ArchiveRecovery
  import opened ArchiveQuarantine

  /** Whatever comes back, the journal is gone and the bundle holds exactly `lines`. */
  ghost predicate Durable(d: Disk, lines: seq<Envelope>, m: Medium) {
    forall f :: CanFallBack(d, f, m) ==>
      !Surviving(d, f).wal && (lines != [] ==> Committed(Surviving(d, f).files, lines))
  }

  lemma LastOperation(p: Partition, m: Medium)
    requires Inv(p, m) && p.phase.Program? && p.phase.kind in {Finalizing, Shelving, Adopting, Repairing}
    requires p.phase.stage == Length(p.phase.kind) - 1
    ensures var q := Do(p, Advance(true), m);
      && q.phase == Idle && q.journal == p.journal && q.consumed == p.consumed
      && !q.disk.now.wal && q.disk.journalsFrom == |q.disk.past|
  {
    hide DiskSafe, JournalSafe, NoData, AllCommitted, Committed, SummaryOf;
  }

  lemma EndsDurably(p: Partition, m: Medium)
    requires Inv(p, m) && p.phase.Program? && p.phase.kind in {Finalizing, Shelving, Adopting, Repairing}
    requires p.phase.stage == Length(p.phase.kind) - 1
    ensures var q := Do(p, Advance(true), m);
      && q.phase == Idle && q.journal == p.journal && q.consumed == p.consumed
      && !q.disk.now.wal && Durable(q.disk, q.journal.frames, m)
  {
    AdvanceKeepsInv(p, true, m);
    hide Do, DiskSafe, JournalSafe, PhaseSafe, DataSafe, Committed;
    LastOperation(p, m);
    var q := Do(p, Advance(true), m);
    forall f | CanFallBack(q.disk, f, m)
      ensures !Surviving(q.disk, f).wal
      ensures q.journal.frames != [] ==> Committed(Surviving(q.disk, f).files, q.journal.frames)
    {
      ImageIsSafe(q.disk, f, q.journal.frames, q.consumed, m);
    }
  }

  lemma {:induction false} ThroughExtends(p: Partition, stage: nat, m: Medium)
    requires p.phase.Program? && p.phase.stage <= stage < Length(p.phase.kind) - 1
    ensures var q := Through(p, stage, m);
      && q.phase.Program? && q.phase.kind == p.phase.kind && q.phase.stage == stage
      && Through(p, stage + 1, m) == Do(q, Advance(SyncDue(q)), m)
    decreases stage - p.phase.stage
  {
    hide Perform, OpAt, SyncDue, Moves;
    if p.phase.stage < stage { ThroughExtends(Do(p, Advance(SyncDue(p)), m), stage, m); }
  }

  lemma {:induction false} ThroughEnds(p: Partition, m: Medium)
    requires p.phase.Program? && p.phase.kind != Opening && p.phase.stage < Length(p.phase.kind)
    ensures var q := Through(p, Length(p.phase.kind) - 1, m);
      && q.phase.Program? && q.phase.kind == p.phase.kind && q.phase.stage == Length(p.phase.kind) - 1
      && Finished(p, m) == Do(q, Advance(SyncDue(q)), m)
    decreases Length(p.phase.kind) - p.phase.stage
  {
    hide Perform, OpAt, SyncDue, Moves;
    if p.phase.stage < Length(p.phase.kind) - 1 { ThroughEnds(Do(p, Advance(SyncDue(p)), m), m); }
  }

  /** The bundle's directory while it is committed: both files are written aside before either gets its name. */
  function Committing(files: map<Name, File>, k: nat, lines: seq<Envelope>): map<Name, File> {
    var data, manifest := File(Lines(lines), true), File(SummaryOf(WRITER_START, lines), true);
    if k == 0 then files
    else if k == 1 then files[Partial := data]
    else if k == 2 then files[Partial := data][ManifestPartial := File(Garbage, false)]
    else if k == 3 then files[Partial := data][ManifestPartial := manifest]
    else if k <= 5 then (files - {ManifestPartial})[Partial := data][Manifest := manifest]
    else (files - {ManifestPartial, Partial})[Manifest := manifest][Data := data]
  }

  lemma CommittingStep(p: Partition, files: map<Name, File>, m: Medium)
    requires p.phase.Program? && p.phase.kind == Finalizing && p.phase.stage < Length(Finalizing)
    requires p.disk.now.files == Committing(files, p.phase.stage, p.buffered)
    ensures var q, k := Do(p, Advance(true), m), p.phase.stage;
      && q.buffered == p.buffered && q.disk.now.shelf == p.disk.now.shelf
      && q.disk.now.wal == (k != 7 && p.disk.now.wal)
      && q.disk.now.files == Committing(files, k + 1, p.buffered)
  {
    hide SummaryOf;
  }

  lemma {:induction false} ThroughCommitting(p: Partition, files: map<Name, File>, stage: nat, m: Medium)
    requires p.phase.Program? && p.phase.kind == Finalizing && p.phase.stage <= stage < Length(Finalizing)
    requires p.disk.now.files == Committing(files, p.phase.stage, p.buffered)
    ensures Through(p, stage, m).disk.now ==
      Image(Committing(files, stage, p.buffered), p.disk.now.wal && (stage <= 7 || p.phase.stage >= 8),
            p.disk.now.shelf)
    decreases stage - p.phase.stage
  {
    hide Perform, OpAt, SummaryOf, Moves, Committing;
    if p.phase.stage < stage {
      CommittingStep(p, files, m);
      ThroughCommitting(Do(p, Advance(true), m), files, stage, m);
    }
  }

  lemma NothingLeftOf(files: map<Name, File>, lines: seq<Envelope>)
    ensures forall k: nat :: Without(Committing(files, k, lines), UNWOUND) == Without(files, UNWOUND)
    ensures Committing(files, 0, lines) == files
    ensures Committing(files, 7, lines) == Committing(files, 8, lines) == Committing(files, 9, lines)
    ensures UNWOUND[0..] == UNWOUND
  {
    hide SummaryOf;
  }

  /** The manifest names the data file's digest, and every count and stamp in it is that of the file's lines. */
  ghost predicate ManifestDescribes(files: map<Name, File>, lines: seq<Envelope>) {
    && Manifest in files && files[Manifest].synced && files[Manifest].content.Summary?
    && files[Manifest].content.digest == Sha256(Lines(lines)) && Describes(files[Manifest].content.totals, lines)
  }

  lemma CommittedDescribes(files: map<Name, File>, lines: seq<Envelope>)
    ensures ManifestDescribes(Committing(files, Length(Finalizing), lines), lines)
    ensures ManifestDescribes(Rebuilt(lines), lines)
  {
    TotalsMeaning(WRITER_START, lines);
    TotalsMeaning(SCAN_START, lines);
  }

  const UNWOUND := [ManifestPartial, Partial, Data, Manifest]

  lemma UnwindingStep(p: Partition, m: Medium)
    requires p.phase.Program? && p.phase.kind == Unwinding && p.phase.stage < |UNWOUND|
    ensures var q, k := Do(p, Advance(true), m), p.phase.stage;
      && q.phase.Program? && q.phase.kind == Unwinding && q.phase.stage == k + 1
      && q.disk.now == p.disk.now.(files := p.disk.now.files - {UNWOUND[k]})
  {
  }

  /** A commit that fails takes away whatever it had put in place. */
  lemma {:induction false} UnwindingLeaves(p: Partition, m: Medium)
    requires p.phase.Program? && p.phase.kind == Unwinding && p.phase.stage <= |UNWOUND|
    ensures Finished(p, m).disk.now == p.disk.now.(files := Without(p.disk.now.files, UNWOUND[p.phase.stage..]))
    decreases |UNWOUND| - p.phase.stage
  {
    hide Without;
    if p.phase.stage < |UNWOUND| {
      hide Perform, OpAt, Moves;
      UnwindingStep(p, m);
      FromNext(p.disk.now.files, UNWOUND, p.phase.stage);
      UnwindingLeaves(Do(p, Advance(true), m), m);
    } else {
      NothingFrom(p.disk.now.files, UNWOUND);
      assert Finished(p, m) == Do(p, Advance(true), m);
    }
  }

  lemma CancellingLeaves(p: Partition, m: Medium)
    requires p.phase == Program(Cancelling, 0, false)
    ensures Finished(p, m).disk.now == Image(p.disk.now.files - {Partial}, false, p.disk.now.shelf)
  {
    var a := Do(p, Advance(true), m);
    var b := Do(a, Advance(true), m);
    assert Finished(p, m) == Finished(a, m) == Finished(b, m) == Do(b, Advance(true), m);
  }

  lemma AbortingLeaves(p: Partition, m: Medium)
    requires p.phase == Program(Aborting, 0, false)
    ensures Finished(p, m).disk.now == p.disk.now.(files := p.disk.now.files - {Partial, ManifestPartial})
  {
    var a := Do(p, Advance(true), m);
    assert Finished(p, m) == Finished(a, m) == Do(a, Advance(true), m);
  }

  lemma {:induction false} ThroughOpening(p: Partition, stage: nat, m: Medium)
    requires p.phase.Program? && p.phase.kind == Opening && p.phase.stage <= stage < Length(Opening)
    requires p.disk.now.files.Keys <= {Partial} && p.disk.now.shelf == []
    ensures var q := Through(p, stage, m);
      q.phase.Program? && q.phase.kind == Opening && q.disk.now.files.Keys <= {Partial} && q.disk.now.shelf == []
    decreases stage - p.phase.stage
  {
    if p.phase.stage < stage { ThroughOpening(Do(p, Advance(SyncDue(p)), m), stage, m); }
  }

  /** A writer whose construction raises, at whatever operation, leaves nothing behind. */
  lemma FailedOpeningLeavesNothing(stage: nat, m: Medium)
    requires stage < Length(Opening)
    ensures Through(FRESH, stage, m).phase.Program?
    ensures var failed := Do(Through(FRESH, stage, m), Fail, m);
      failed.phase == Program(Cancelling, 0, false) && Finished(failed, m).disk.now == EMPTY
  {
    hide Perform, OpAt;
    ThroughOpening(FRESH, stage, m);
    CancellingLeaves(Do(Through(FRESH, stage, m), Fail, m), m);
  }

  class ArchivePartition {
    const medium: Medium
    var p: Partition
    /** Every step taken since the partition was created. */
    ghost var steps: seq<Step>

    ghost predicate Valid()
      reads this
    {
      CanRun(FRESH, steps, medium) && p == Run(FRESH, steps, medium) && Inv(p, medium)
    }

    /** Construct the writer: exclusive partial file, journal with a durable header. */
    constructor (medium: Medium)
      ensures Valid() && this.medium == medium && p.phase == Ready && p.buffered == [] && p.consumed == []
    {
      this.medium := medium;
      p := FRESH;
      steps := [];
      new;
      FreshIsSafe(medium);
      while p.phase != Ready
        invariant Valid() && p.buffered == p.consumed == []
        invariant p.phase == Ready || (p.phase.Program? && p.phase.kind == Opening)
        decreases if p.phase == Ready then 0 else 5 - p.phase.stage
      {
        Take(Advance(true));
      }
    }

    method Take(step: Step)
      requires Valid() && Allowed(p, step, medium)
      modifies this
      ensures Valid() && p == Do(old(p), step, medium) && steps == old(steps) + [step]
    {
      hide Inv, Do, Enabled, Careful;
      RunExtends(FRESH, steps, step, medium);
      StepKeepsInv(p, step, medium);
      p := Do(p, step, medium);
      steps := steps + [step];
    }

    /** Buffer the envelope, append its frame, sync: only then may it be delivered. */
    method Write(e: Envelope)
      requires Valid() && p.phase == Ready
      modifies this
      ensures Valid() && p.phase == Written(e) && p.consumed == old(p.consumed)
      ensures p.journal.frames == old(p.journal.frames) + [e] && p.journal.durable == |p.journal.frames|
    {
      Take(BeginWrite(e));
      while p.phase.Writing?
        invariant Valid() && p.consumed == old(p.consumed)
        invariant p.phase == Written(e) || (p.phase.Writing? && p.phase.envelope == e)
        decreases if p.phase.Writing? then 4 - p.phase.part else 0
      {
        Take(Advance(true));
      }
    }

    /** Hand the durable envelope to the consumer. */
    method Consume()
      requires Valid() && p.phase.Written?
      modifies this
      ensures Valid() && p.phase == Ready && p.consumed == old(p.consumed) + [old(p).phase.envelope]
      ensures p.consumed == p.journal.frames[..p.journal.durable]
    {
      Take(Deliver);
    }

    /** Run the current program up to operation `stage`. */
    method RunTo(stage: nat)
      requires Valid() && p.phase.Program? && p.phase.kind != Opening && p.phase.stage <= stage < Length(p.phase.kind)
      modifies this
      ensures Valid() && p.phase.Program? && p.phase.kind == old(p).phase.kind && p.phase.stage == stage
      ensures p == Through(old(p), stage, medium)
      ensures p.journal == old(p).journal && p.buffered == old(p).buffered && p.consumed == old(p).consumed
    {
      hide Inv, Do, CanRun, Run;
      while p.phase.stage < stage
        invariant Valid() && p.phase.Program? && p.phase.kind == old(p).phase.kind
        invariant old(p).phase.stage <= p.phase.stage <= stage && p == Through(old(p), p.phase.stage, medium)
        invariant p.journal == old(p).journal && p.buffered == old(p).buffered && p.consumed == old(p).consumed
        decreases stage - p.phase.stage
      {
        AdvanceFrame(p, SyncDue(p), medium);
        ThroughExtends(old(p), p.phase.stage, medium);
        Take(Advance(SyncDue(p)));
      }
    }

    /** Run the current program to its end, the last directory sync included. */
    method Finish()
      requires Valid() && p.phase.Program? && p.phase.kind in {Finalizing, Unwinding, Shelving, Adopting, Repairing}
      modifies this
      ensures Valid() && p.phase == Idle && p.journal == old(p).journal && p.consumed == old(p).consumed
      ensures p == Finished(old(p), medium)
      ensures old(p).phase.kind != Unwinding ==> !p.disk.now.wal && Durable(p.disk, p.journal.frames, medium)
      ensures old(p).phase.kind == Unwinding ==> p.disk.now.wal && NoData(p.disk)
    {
      hide DiskSafe, CanRun, Run, JournalSafe;
      ThroughEnds(p, medium);
      RunTo(Length(p.phase.kind) - 1);
      if p.phase.kind != Unwinding { EndsDurably(p, medium); }
      Take(Advance(true));
    }

    /** The commit without a fault. */
    method Commit()
      requires Valid() && p.phase == Program(Finalizing, 0, false)
      modifies this
      ensures Valid() && p.phase == Idle && p.journal == old(p).journal && p.consumed == old(p).consumed
      ensures !p.disk.now.wal && AllCommitted(p.disk, old(p).buffered) && Durable(p.disk, old(p).buffered, medium)
      ensures p.disk.now.shelf == old(p).disk.now.shelf
      ensures p.disk.now.files == Committing(old(p).disk.now.files, Length(Finalizing), old(p).buffered)
    {
      hide DiskSafe, CanRun, Run, JournalSafe, Committing, Committed, SummaryOf;
      ghost var files := p.disk.now.files;
      NothingLeftOf(files, p.buffered);
      ThroughCommitting(p, files, Length(Finalizing) - 1, medium);
      RunTo(Length(Finalizing) - 1);
      CommittingStep(p, files, medium);
      AdvanceFinalizingJournal(p, true, medium);
      EndsDurably(p, medium);
      Take(Advance(true));
    }

    /** The commit when operation `stage` raises, and the unwinding of what it had done. */
    method CommitWithFault(stage: nat) returns (committed: bool)
      requires Valid() && p.phase == Program(Finalizing, 0, false) && stage < Length(Finalizing)
      modifies this
      ensures Valid() && p.phase == Idle && p.journal == old(p).journal && p.consumed == old(p).consumed
      ensures committed <==> stage > 6
      ensures committed ==> AllCommitted(p.disk, old(p).buffered)
      ensures !committed ==> p.disk.now.wal && NoData(p.disk)
      ensures p.disk.now.shelf == old(p).disk.now.shelf && (p.disk.now.wal <==> stage <= 7)
      ensures p.disk.now.files == if !committed then Without(old(p).disk.now.files, UNWOUND)
        else Committing(old(p).disk.now.files, Length(Finalizing), old(p).buffered)
    {
      hide DiskSafe, CanRun, Run, JournalSafe, Committing, Without, Committed, SummaryOf;
      ghost var files := p.disk.now.files;
      assert p.disk.now.wal;
      NothingLeftOf(files, p.buffered);
      ThroughCommitting(p, files, stage, medium);
      RunTo(stage);
      Take(Fail);
      committed := p.phase == Idle;
      if !committed {
        UnwindingLeaves(p, medium);
        Finish();
      }
    }

    /**
     Commit the partition. `faultAt` is the operation that raises, if any: up to the second
     directory sync the bundle is unwound and the journal kept, later it is already committed.
     */
    method Finalize(faultAt: Option<nat>) returns (committed: bool)
      requires Valid() && (p.phase == Ready || p.phase.Written?) && p.buffered != []
      requires faultAt.Some? ==> faultAt.value < Length(Finalizing)
      modifies this
      ensures Valid() && p.phase == Idle && p.journal == old(p).journal && p.consumed == old(p).consumed
      ensures committed <==> faultAt.None? || faultAt.value > 6
      ensures committed ==> AllCommitted(p.disk, old(p).buffered)
      ensures faultAt.None? ==> !p.disk.now.wal && Durable(p.disk, old(p).buffered, medium)
      ensures !committed ==> p.disk.now.wal && NoData(p.disk)
      ensures committed ==>
        p.disk.now.files == Committing(old(p).disk.now.files, Length(Finalizing), old(p).buffered)
      ensures !committed ==> p.disk.now.files == Without(old(p).disk.now.files, UNWOUND)
      ensures committed ==> ManifestDescribes(p.disk.now.files, old(p).buffered)
      ensures p.disk.now.shelf == old(p).disk.now.shelf && (p.disk.now.wal <==> faultAt.Some? && faultAt.value <= 7)
    {
      hide DiskSafe, JournalSafe, CanRun, Run, Committing, Without, ManifestDescribes;
      CommittedDescribes(p.disk.now.files, p.buffered);
      Take(BeginFinalize);
      match faultAt
      case None =>
        Commit();
        committed := true;
      case Some(stage) => committed := CommitWithFault(stage);
    }

    /**
     Startup recovery of one journal: shelve it when it holds nothing, drop it when the bundle
     already matches, otherwise rebuild the bundle from its complete frames.
     */
    method RecoverOne()
      requires Valid() && p.phase == Idle && p.disk.now.wal && (medium.Independent? ==> Careful(p))
      modifies this
      ensures Valid() && p.phase == Idle && !p.disk.now.wal && Durable(p.disk, p.journal.frames, medium)
      ensures p.journal == old(p).journal && p.consumed == old(p).consumed
      ensures p.disk.now == Recovered(old(p).disk.now, RecoveryKind(old(p)), old(p).journal)
      ensures RecoveryKind(old(p)) == Repairing ==> ManifestDescribes(p.disk.now.files, p.journal.frames)
    {
      hide DiskSafe, CanRun, Run, JournalSafe, ManifestDescribes;
      CommittedDescribes(p.disk.now.files, p.journal.frames);
      RecoveryLeaves(p, medium);
      Take(Recover);
      Finish();
    }
  }
}
