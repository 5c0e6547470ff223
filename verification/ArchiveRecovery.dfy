/** Runs of the archive protocol: recovery converges, and when it needs the order across directories. */
module ArchiveRecovery {
  import opened Envelopes
  import opened Media
  import opened ArchiveProtocol

  predicate CanRun(p: Partition, steps: seq<Step>, m: Medium)
    decreases |steps|
  {
    steps == [] || (Allowed(p, steps[0], m) && CanRun(Do(p, steps[0], m), steps[1..], m))
  }

  function Run(p: Partition, steps: seq<Step>, m: Medium): Partition
    requires CanRun(p, steps, m)
    decreases |steps|
  {
    if steps == [] then p else Run(Do(p, steps[0], m), steps[1..], m)
  }

  lemma {:induction false} RunKeepsInv(p: Partition, steps: seq<Step>, m: Medium)
    requires Inv(p, m) && CanRun(p, steps, m)
    ensures Inv(Run(p, steps, m), m)
    decreases |steps|
  {
    hide Inv, Do, Enabled, Careful;
    if steps != [] {
      StepKeepsInv(p, steps[0], m);
      RunKeepsInv(Do(p, steps[0], m), steps[1..], m);
    }
  }

  lemma {:induction false} RunExtends(p: Partition, steps: seq<Step>, step: Step, m: Medium)
    requires CanRun(p, steps, m) && Allowed(Run(p, steps, m), step, m)
    ensures CanRun(p, steps + [step], m) && Run(p, steps + [step], m) == Do(Run(p, steps, m), step, m)
    decreases |steps|
  {
    hide Do, Enabled, Careful;
    if steps == [] {
      assert steps + [step] == [step];
    } else {
      RunExtends(Do(p, steps[0], m), steps[1..], step, m);
      assert (steps + [step])[1..] == steps[1..] + [step];
    }
  }

  // ---------------------------------------------------------------- recovery converges

  predicate Recovering(p: Partition) {
    p.phase == Idle || (p.phase.Program? && p.phase.kind in {Shelving, Adopting, Repairing})
  }

  /** Steps of recovery itself and of the adversary; no writer is running. */
  predicate RecoveryStep(step: Step) {
    step.Advance? || step.Fail? || step.Recover? || step.Kill? || step.PowerLoss?
  }

  /** `later` lost at most frames that were never durable. */
  predicate KeepsDurable(earlier: Journal, later: Journal)
    requires earlier.durable <= |earlier.frames|
  {
    && later.header == earlier.header
    && later.frames <= earlier.frames && earlier.frames[..earlier.durable] <= later.frames
    && earlier.durable <= later.durable
  }

  lemma RecoveryStepKeepsFrames(p: Partition, step: Step, m: Medium)
    requires Inv(p, m) && Recovering(p) && RecoveryStep(step) && Enabled(p, step, m)
    ensures Recovering(Do(p, step, m)) && KeepsDurable(p.journal, Do(p, step, m).journal)
  {
    hide DiskSafe, ProgramSafe, AfterPowerLoss;
  }

  /**
   However often recovery is cut short and restarted, once the journal is gone the bundle holds
   exactly the journal's complete frames; frames that were durable at the start are never lost.
   */
  lemma {:induction false} RecoveryConverges(p: Partition, steps: seq<Step>, m: Medium)
    requires Inv(p, m) && Recovering(p) && CanRun(p, steps, m) && forall s :: s in steps ==> RecoveryStep(s)
    ensures var q := Run(p, steps, m);
      && Recovering(q) && KeepsDurable(p.journal, q.journal)
      && (p.journal.durable > 0 && !q.disk.now.wal ==> Committed(q.disk.now.files, q.journal.frames))
      && (p.journal.durable == |p.journal.frames| ==> q.journal.frames == p.journal.frames)
    decreases |steps|
  {
    hide Do, DiskSafe, PhaseSafe, Committed;
    RunKeepsInv(p, steps, m);
    var q := Run(p, steps, m);
    NowIsSafe(q.disk, q.journal.frames, q.consumed, m);
    if steps != [] {
      assert steps[0] in steps;
      var next := Do(p, steps[0], m);
      RecoveryStepKeepsFrames(p, steps[0], m);
      StepKeepsInv(p, steps[0], m);
      RecoveryConverges(next, steps[1..], m);
    }
  }

  /** The data file with these lines beside this very manifest. */
  predicate Bundled(files: map<Name, File>, lines: seq<Envelope>, manifest: File) {
    Committed(files, lines) && files[Manifest] == manifest
  }

  predicate AllBundled(d: Disk, lines: seq<Envelope>, manifest: File) {
    forall i :: d.bundleFrom <= i <= |d.past| ==> Bundled(ImageAt(d, i).files, lines, manifest)
  }

  /** The bundle already matches the durable journal on every image that may come back. */
  predicate Settled(p: Partition, lines: seq<Envelope>, manifest: File) {
    && (p.phase == Idle || (p.phase.Program? && p.phase.kind == Adopting))
    && p.journal.header && p.journal.frames == lines != [] && p.journal.durable == |lines|
    && AllBundled(p.disk, lines, manifest)
  }

  lemma SettledStep(p: Partition, step: Step, lines: seq<Envelope>, manifest: File, m: Medium)
    requires Inv(p, m) && Settled(p, lines, manifest) && RecoveryStep(step) && Enabled(p, step, m)
    ensures Allowed(p, step, m) && Settled(Do(p, step, m), lines, manifest)
  {
    NowIsBundled(p, lines, manifest, m);
    if step.Advance? {
      SettledAdvances(p, step.flush, lines, manifest, m);
    } else if step.PowerLoss? {
      hide DiskSafe, PhaseSafe, CanFallBack;
      SurvivorBundled(p, step, lines, manifest, m);
    }
  }

  lemma NowIsBundled(p: Partition, lines: seq<Envelope>, manifest: File, m: Medium)
    requires Inv(p, m) && AllBundled(p.disk, lines, manifest)
    ensures Bundled(p.disk.now.files, lines, manifest) && AllCommitted(p.disk, lines)
  {
    hide PhaseSafe, DataSafe;
    assert ImageAt(p.disk, |p.disk.past|) == p.disk.now;
  }

  lemma SurvivorBundled(p: Partition, step: Step, lines: seq<Envelope>, manifest: File, m: Medium)
    requires AllBundled(p.disk, lines, manifest) && step.PowerLoss? && Enabled(p, step, m)
    ensures AllBundled(Do(p, step, m).disk, lines, manifest)
    ensures ImageAt(p.disk, step.fallback.journals).wal || step.frames == |p.journal.frames|
  {
    var image := Surviving(p.disk, step.fallback);
    assert Bundled(image.files, lines, manifest);
    assert ImageAt(Do(p, step, m).disk, 0) == AfterPowerLoss(image, step.garbled);
  }

  lemma SettledAdvances(p: Partition, flush: bool, lines: seq<Envelope>, manifest: File, m: Medium)
    requires Inv(p, m) && Settled(p, lines, manifest) && Enabled(p, Advance(flush), m)
    ensures Settled(Do(p, Advance(flush), m), lines, manifest)
  {
    hide DiskSafe, AllBundled, ProgramSafe, JournalSafe;
    NowIsBundled(p, lines, manifest, m);
    AdoptingOpKeeps(p.disk, OpAt(p, Adopting, p.phase.stage), flush, lines, manifest);
  }

  /** Adopting moves neither the data file nor its manifest. */
  lemma AdoptingOpKeeps(d: Disk, op: Op, flush: bool, lines: seq<Envelope>, manifest: File)
    requires AllBundled(d, lines, manifest) && Bundled(d.now.files, lines, manifest)
    requires op.Sync? || op.RemoveJournal? || (op.Shelve? && op.name !in {Data, Manifest})
    ensures AllBundled(Perform(d, op, flush), lines, manifest)
  {
    var e := Perform(d, op, flush);
    assert Bundled(e.now.files, lines, manifest);
    assert forall i :: 0 <= i <= |d.past| ==> ImageAt(e, i) == ImageAt(d, i);
    assert ImageAt(e, |e.past|) == e.now && ImageAt(d, |d.past|) == d.now;
  }

  /**
   Once settled, recovery may run, be cut short, lose power and run again any number of times: the data file and its
   manifest are the same files on every image that may come back.
   */
  lemma {:induction false} SettledStays(p: Partition, steps: seq<Step>, lines: seq<Envelope>, manifest: File, m: Medium)
    requires Inv(p, m) && Settled(p, lines, manifest) && CanRun(p, steps, m)
    requires forall s :: s in steps ==> RecoveryStep(s)
    ensures Settled(Run(p, steps, m), lines, manifest)
    decreases |steps|
  {
    hide Inv, Do, Settled, Enabled, Careful;
    if steps != [] {
      assert steps[0] in steps;
      SettledStep(p, steps[0], lines, manifest, m);
      StepKeepsInv(p, steps[0], m);
      SettledStays(Do(p, steps[0], m), steps[1..], lines, manifest, m);
    }
  }

  // ---------------------------------------------------------------- when adopting needs the order across directories

  /** The running program, left alone to its end. */
  function Finished(p: Partition, m: Medium): Partition
    requires p.phase.Program? ==> p.phase.stage < Length(p.phase.kind)
    decreases if p.phase.Program? then Length(p.phase.kind) - p.phase.stage else 0
  {
    if p.phase.Program? then Finished(Do(p, Advance(SyncDue(p)), m), m) else p
  }

  /** The running program, up to operation `stage`. */
  function Through(p: Partition, stage: nat, m: Medium): Partition
    requires p.phase.Program? && p.phase.stage <= stage < Length(p.phase.kind)
    decreases stage - p.phase.stage
  {
    if p.phase.stage == stage then p else Through(Do(p, Advance(SyncDue(p)), m), stage, m)
  }

  lemma {:induction false} FinishedKeepsInv(p: Partition, m: Medium)
    requires Inv(p, m)
    ensures Inv(Finished(p, m), m)
    decreases if p.phase.Program? then Length(p.phase.kind) - p.phase.stage else 0
  {
    hide DiskSafe, JournalSafe, ProgramSafe;
    if p.phase.Program? {
      AdvanceKeepsInv(p, SyncDue(p), m);
      FinishedKeepsInv(Do(p, Advance(SyncDue(p)), m), m);
    }
  }

  lemma {:induction false} FinishedAdopting(p: Partition, m: Medium)
    requires p.phase.Program? && p.phase.kind == Adopting && p.phase.stage < Length(Adopting)
    ensures var q := Finished(p, m);
      && q.phase == Idle && q.journal == p.journal && q.consumed == p.consumed
      && q.disk.journalsFrom == |q.disk.past|
      && (p.phase.stage <= 6 || !p.disk.now.wal ==> !q.disk.now.wal)
    decreases Length(Adopting) - p.phase.stage
  {
    var next := Do(p, Advance(SyncDue(p)), m);
    if next.phase.Program? { FinishedAdopting(next, m); }
  }

  /** Without leftovers nothing is moved and only the journal's directory is synced. */
  lemma {:induction false} FinishedBare(p: Partition, m: Medium)
    requires p.phase.Program? && p.phase.kind == Adopting && p.phase.stage <= 6 && !p.phase.moved
    requires !LeftoverFrom(p.disk.now.files, 0)
    ensures Finished(p, m).disk == Synced(Entered(p.disk, p.disk.now.(wal := false)), Journals)
    decreases Length(Adopting) - p.phase.stage
  {
    var next := Do(p, Advance(SyncDue(p)), m);
    if p.phase.stage <= 5 {
      if p.phase.stage <= 3 { assert LEFTOVERS[p.phase.stage] !in p.disk.now.files; }
      assert next == p.(phase := Program(Adopting, p.phase.stage + 1, false));
      FinishedBare(next, m);
    } else {
      assert next.phase == Program(Adopting, 7, false) && SyncDue(next);
      assert Finished(p, m) == Finished(next, m) == Do(next, Advance(true), m);
    }
  }

  /**
   Recovery that finds the bundle in place drops the journal. On a medium whose directories fall back independently
   the envelopes survive every later power loss if and only if the bundle was durable already or a leftover file made
   the quarantine sync its directory.
   */
  lemma AdoptingIsSafeExactly(p: Partition)
    requires Inv(p, Independent) && p.phase == Idle && p.disk.now.wal && RecoveryKind(p) == Adopting
    ensures var q := Finished(Do(p, Recover, Independent), Independent);
      Careful(p) <==>
        forall f :: CanFallBack(q.disk, f, Independent) ==> Evidence(q, Surviving(q.disk, f)) == p.journal.frames
  {
    var started := Do(p, Recover, Independent);
    var q := Finished(started, Independent);
    FinishedAdopting(started, Independent);
    if Careful(p) {
      assert Inv(q, Independent) by {
        StepKeepsInv(p, Recover, Independent);
        FinishedKeepsInv(started, Independent);
      }
      AdoptedEverywhere(q);
    } else {
      FinishedBare(started, Independent);
      var i: nat :| p.disk.bundleFrom <= i <= |p.disk.past| && !Committed(ImageAt(p.disk, i).files, p.journal.frames);
      var f := Fallback(i, |q.disk.past|, |q.disk.past|);
      assert ImageAt(q.disk, i) == ImageAt(p.disk, i);
      assert CanFallBack(q.disk, f, Independent);
      assert DataSafe(ImageAt(p.disk, i).files, p.consumed);
    }
  }

  lemma AdoptedEverywhere(q: Partition)
    requires Inv(q, Independent) && !q.disk.now.wal && q.disk.journalsFrom == |q.disk.past| && q.journal.frames != []
    ensures forall f :: CanFallBack(q.disk, f, Independent) ==> Evidence(q, Surviving(q.disk, f)) == q.journal.frames
  {
  }

  predicate NothingLeft(image: Image) {
    !image.wal && Data !in image.files
  }

  /**
   Every finalization that dies between the data file's promotion and its sync is such a case: nothing is left over,
   so recovery drops the journal behind a promotion that a later power loss can still take back.
   */
  lemma PromotionIsExposed(p: Partition)
    requires Running(p, Finalizing, true, Independent) && p.phase.stage == 5
    ensures var died := Do(Do(p, Advance(true), Independent), Kill, Independent);
      && Inv(died, Independent) && died.phase == Idle && died.disk.now.wal && RecoveryKind(died) == Adopting
      && var q := Finished(Do(died, Recover, Independent), Independent);
      exists f :: CanFallBack(q.disk, f, Independent) && NothingLeft(Surviving(q.disk, f))
  {
    hide DiskSafe, SummaryOf;
    AdvanceKeepsInv(p, true, Independent);
    AdvanceFinalizingData(p, true, Independent);
    var promoted := Do(p, Advance(true), Independent);
    var died := Do(promoted, Kill, Independent);
    StepKeepsInv(promoted, Kill, Independent);
    assert died.disk.past == p.disk.past + [p.disk.now] && died.disk.bundleFrom == p.disk.bundleFrom;
    assert ImageAt(died.disk, |p.disk.past|) == p.disk.now == ImageAt(p.disk, |p.disk.past|);
    assert p.disk.bundleFrom <= |p.disk.past| by { BoundsHold(p.disk, p.journal.frames, p.consumed, Independent); }
    assert died.disk.now.files == (p.disk.now.files - {Partial})[Data := p.disk.now.files[Partial]];
    Exposed(died, |p.disk.past|);
  }

  lemma BoundsHold(d: Disk, frames: seq<Envelope>, consumed: seq<Envelope>, m: Medium)
    requires DiskSafe(d, frames, consumed, m)
    ensures d.bundleFrom <= |d.past| && d.journalsFrom <= |d.past| && d.quarantineFrom <= |d.past|
  {
  }

  lemma Exposed(p: Partition, i: nat)
    requires Inv(p, Independent) && p.phase == Idle && p.disk.now.wal && RecoveryKind(p) == Adopting
    requires !LeftoverFrom(p.disk.now.files, 0)
    requires p.disk.bundleFrom <= i <= |p.disk.past| && Data !in ImageAt(p.disk, i).files
    ensures var q := Finished(Do(p, Recover, Independent), Independent);
      exists f :: CanFallBack(q.disk, f, Independent) && NothingLeft(Surviving(q.disk, f))
  {
    hide DataSafe, Committed, PhaseSafe;
    var started := Do(p, Recover, Independent);
    var q := Finished(started, Independent);
    FinishedBare(started, Independent);
    var f := Fallback(i, |q.disk.past|, |q.disk.past|);
    assert ImageAt(q.disk, i) == ImageAt(p.disk, i);
    assert CanFallBack(q.disk, f, Independent) && NothingLeft(Surviving(q.disk, f));
  }
}
