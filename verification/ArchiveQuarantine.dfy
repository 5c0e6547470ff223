/**
 What recovery keeps of the files it finds in its way: it moves them to the quarantine, and it never overwrites or
 unlinks one. Stated on the images of the three directories.
 */
module ArchiveQuarantine {
  import opened Envelopes
  import opened Media
  import opened ArchiveProtocol
  import opened ArchiveRecovery

  /** What a rebuild moves out of the way, in this order. */
  const EVERYTHING := [Data, Manifest] + LEFTOVERS

  const THE_JOURNAL := File(JournalFile, true)

  function Rank(n: Name): (i: nat)
    ensures i < |EVERYTHING| && EVERYTHING[i] == n
  {
    match n
    case Data => 0
    case Manifest => 1
    case Partial => 2
    case ManifestPartial => 3
    case RecoveryData => 4
    case RecoveryManifest => 5
  }

  /** What a recovery of kind `kind` has to move. */
  function InTheWay(kind: Kind): seq<Name> {
    match kind
    case Adopting => LEFTOVERS
    case Repairing => EVERYTHING
    case _ => []
  }

  // ---------------------------------------------------------------- over whole runs

  /** The file is where it was or in the quarantine. */
  predicate Held(image: Image, n: Name, file: File) {
    (n in image.files && image.files[n] == file) || file in image.shelf
  }

  /** A rebuild that has passed the file's turn has moved it. */
  predicate Guarded(p: Partition, n: Name, file: File) {
    && Recovering(p) && Held(p.disk.now, n, file)
    && (p.phase.Program? && p.phase.kind == Repairing && p.phase.stage > Rank(n) ==> file in p.disk.now.shelf)
  }

  /** Adopting and shelving touch no file but by moving it; a rebuild only when it has moved all. */
  lemma RecoveryOps(p: Partition)
    requires Recovering(p) && p.phase.Program? && p.phase.stage < Length(p.phase.kind)
    ensures var op := OpAt(p, p.phase.kind, p.phase.stage);
      || op.Shelve? || op.Sync? || op.RemoveJournal? || op.ShelveJournal?
      || (p.phase.kind == Repairing && p.phase.stage > 5)
    ensures p.phase.kind != Shelving && p.phase.stage < |InTheWay(p.phase.kind)| ==>
      OpAt(p, p.phase.kind, p.phase.stage) == Shelve(InTheWay(p.phase.kind)[p.phase.stage])
  {
  }

  lemma StepGuards(p: Partition, step: Step, n: Name, file: File, m: Medium)
    requires Guarded(p, n, file) && RecoveryStep(step) && !step.PowerLoss? && Enabled(p, step, m)
    ensures Guarded(Do(p, step, m), n, file)
  {
    hide SummaryOf, ArchiveMatches, OpAt;
    if step.Advance? {
      RecoveryOps(p);
    }
  }

  lemma StepGrows(p: Partition, step: Step, m: Medium)
    requires Enabled(p, step, m) && !step.PowerLoss?
    ensures p.disk.now.shelf <= Do(p, step, m).disk.now.shelf
  {
    hide SummaryOf, RecoveryKind, OpAt;
  }

  /** Short of a power loss nothing ever leaves the quarantine, whoever is working on the partition. */
  lemma {:induction false} ShelfGrows(p: Partition, steps: seq<Step>, m: Medium)
    requires CanRun(p, steps, m) && forall s :: s in steps ==> !s.PowerLoss?
    ensures p.disk.now.shelf <= Run(p, steps, m).disk.now.shelf
    decreases |steps|
  {
    hide Do, Enabled, Careful;
    if steps != [] {
      assert steps[0] in steps;
      StepGrows(p, steps[0], m);
      ShelfGrows(Do(p, steps[0], m), steps[1..], m);
    }
  }

  /** However recovery runs, fails, is killed and starts again, a file it found is in its place or in the quarantine. */
  lemma {:induction false} EvidenceStays(p: Partition, steps: seq<Step>, n: Name, file: File, m: Medium)
    requires Guarded(p, n, file) && CanRun(p, steps, m)
    requires forall s :: s in steps ==> RecoveryStep(s) && !s.PowerLoss?
    ensures Guarded(Run(p, steps, m), n, file)
    decreases |steps|
  {
    hide Do, Guarded, Enabled, Careful;
    if steps != [] {
      assert steps[0] in steps;
      StepGuards(p, steps[0], n, file, m);
      EvidenceStays(Do(p, steps[0], m), steps[1..], n, file, m);
    }
  }

  /** So it is on every image that may come back on an ordered medium. */
  ghost predicate HeldThroughout(d: Disk, n: Name, file: File) {
    forall f :: CanFallBack(d, f, Ordered) ==> Held(Surviving(d, f), n, file)
  }

  lemma StepHolds(p: Partition, step: Step, n: Name, file: File)
    requires Guarded(p, n, file) && HeldThroughout(p.disk, n, file) && file.synced
    requires RecoveryStep(step) && Enabled(p, step, Ordered)
    ensures Guarded(Do(p, step, Ordered), n, file) && HeldThroughout(Do(p, step, Ordered).disk, n, file)
  {
    hide OpAt, SummaryOf, RecoveryKind, Held;
    var q := Do(p, step, Ordered);
    if step.PowerLoss? {
      SurvivorHolds(p, step, n, file);
    } else {
      StepGuards(p, step, n, file, Ordered);
      if step.Advance? {
        OpHolds(p.disk, OpAt(p, p.phase.kind, p.phase.stage), step.flush, n, file);
      }
    }
  }

  lemma OpHolds(d: Disk, op: Op, flush: bool, n: Name, file: File)
    requires HeldThroughout(d, n, file) && Held(Perform(d, op, flush).now, n, file)
    ensures HeldThroughout(Perform(d, op, flush), n, file)
  {
    hide Held;
    var e := Perform(d, op, flush);
    forall f | CanFallBack(e, f, Ordered) ensures Held(Surviving(e, f), n, file) {
      if f.bundle == |e.past| {
        assert Surviving(e, f) == e.now;
      } else {
        assert ImageAt(e, f.bundle) == ImageAt(d, f.bundle) && CanFallBack(d, f, Ordered);
      }
    }
  }

  lemma SurvivorHolds(p: Partition, step: Step, n: Name, file: File)
    requires HeldThroughout(p.disk, n, file) && file.synced && step.PowerLoss? && Enabled(p, step, Ordered)
    ensures Guarded(Do(p, step, Ordered), n, file) && HeldThroughout(Do(p, step, Ordered).disk, n, file)
  {
    var q := Do(p, step, Ordered);
    assert Held(Surviving(p.disk, step.fallback), n, file);
    forall f | CanFallBack(q.disk, f, Ordered) ensures Surviving(q.disk, f) == q.disk.now {
    }
  }

  /**
   On an ordered medium recovery may also lose power, as often as it likes: a durable file whose bytes were synced is
   at every moment, and on every image that may come back, in its place or in the quarantine.
   */
  lemma {:induction false} EvidenceSurvives(p: Partition, steps: seq<Step>, n: Name, file: File)
    requires Guarded(p, n, file) && HeldThroughout(p.disk, n, file) && file.synced
    requires CanRun(p, steps, Ordered) && forall s :: s in steps ==> RecoveryStep(s)
    ensures var q := Run(p, steps, Ordered); Held(q.disk.now, n, file) && HeldThroughout(q.disk, n, file)
    decreases |steps|
  {
    hide Do, HeldThroughout, Enabled, Careful;
    if steps != [] {
      assert steps[0] in steps;
      StepHolds(p, steps[0], n, file);
      EvidenceSurvives(Do(p, steps[0], Ordered), steps[1..], n, file);
    }
  }

  // ---------------------------------------------------------------- a journal that holds nothing

  /** The journal without header or frames is in its directory or in the quarantine, as a new entry. */
  predicate EmptyHeld(p: Partition, before: seq<File>) {
    && (p.phase == Idle || (p.phase.Program? && p.phase.kind == Shelving))
    && (!p.journal.header || p.journal.frames == [])
    && before <= p.disk.now.shelf && (p.disk.now.wal || THE_JOURNAL in p.disk.now.shelf[|before|..])
  }

  lemma EmptyStep(p: Partition, step: Step, before: seq<File>, m: Medium)
    requires EmptyHeld(p, before) && RecoveryStep(step) && !step.PowerLoss? && Enabled(p, step, m)
    ensures EmptyHeld(Do(p, step, m), before)
  {
    var q := Do(p, step, m);
    if step.Advance? && p.phase.stage == 0 {
      assert q.disk.now.shelf == p.disk.now.shelf + [THE_JOURNAL];
      assert q.disk.now.shelf[|before|..] == p.disk.now.shelf[|before|..] + [THE_JOURNAL];
    }
  }

  lemma {:induction false} EmptyJournalStays(p: Partition, steps: seq<Step>, before: seq<File>, m: Medium)
    requires EmptyHeld(p, before) && CanRun(p, steps, m)
    requires forall s :: s in steps ==> RecoveryStep(s) && !s.PowerLoss?
    ensures EmptyHeld(Run(p, steps, m), before)
    decreases |steps|
  {
    hide Do, EmptyHeld, Enabled, Careful;
    if steps != [] {
      assert steps[0] in steps;
      EmptyStep(p, steps[0], before, m);
      EmptyJournalStays(Do(p, steps[0], m), steps[1..], before, m);
    }
  }

  /** Every image of the quarantine that may come back holds what it holds now. */
  predicate ShelfSynced(d: Disk) {
    forall i :: d.quarantineFrom <= i <= |d.past| ==> ImageAt(d, i).shelf == d.now.shelf
  }

  /**
   Whatever lies in the bundle's directory, recovery takes it for committed only when the data file holds exactly the
   journal's complete frames and the manifest names its digest and their number.
   */
  lemma AdoptsExactly(p: Partition)
    ensures RecoveryKind(p) == Adopting <==>
      && p.journal.header && p.journal.frames != []
      && var files, lines := p.disk.now.files, Lines(p.journal.frames);
      && Data in files && files[Data].content == lines && Manifest in files
      && exists totals :: files[Manifest].content == Summary(Sha256(lines), totals)
                          && totals.records == |p.journal.frames|
  {
    if RecoveryKind(p) == Adopting {
      var c := p.disk.now.files[Manifest].content;
      assert c == Summary(Sha256(Lines(p.journal.frames)), c.totals);
    }
  }

  // ---------------------------------------------------------------- a recovery that runs to its end

  /** The files found under `names`, in that order. */
  function Aside(files: map<Name, File>, names: seq<Name>): (aside: seq<File>)
    ensures forall n :: n in names && n in files ==> files[n] in aside
    ensures aside == [] <==> forall n :: n in names ==> n !in files
  {
    if names == [] then [] else
    assert names == [names[0]] + names[1..];
    if names[0] in files then [files[names[0]]] + Aside(files - {names[0]}, names[1..])
    else Aside(files, names[1..])
  }

  /** The other files. */
  function Without(files: map<Name, File>, names: seq<Name>): (rest: map<Name, File>) {
    map n | n in files && n !in names :: files[n]
  }

  /** An empty journal, and the torn one of a rebuilt bundle, are kept; any other one is unlinked. */
  predicate KeepsJournal(kind: Kind, torn: bool) {
    kind == Shelving || (kind == Repairing && torn)
  }

  /** The bundle a rebuild writes, and nothing else in its directory. */
  function Rebuilt(frames: seq<Envelope>): map<Name, File> {
    map[Data := File(Lines(frames), true), Manifest := File(SummaryOf(SCAN_START, frames), true)]
  }

  /** What a finished recovery leaves in the three directories. */
  function Recovered(image: Image, kind: Kind, journal: Journal): Image {
    Image(if kind == Repairing then Rebuilt(journal.frames) else Without(image.files, InTheWay(kind)), false,
          image.shelf + Aside(image.files, InTheWay(kind))
          + if KeepsJournal(kind, journal.torn) then [THE_JOURNAL] else [])
  }

  lemma FromNext(files: map<Name, File>, names: seq<Name>, k: nat)
    requires k < |names|
    ensures Aside(files, names[k..]) ==
      if names[k] in files then [files[names[k]]] + Aside(files - {names[k]}, names[k + 1..])
      else Aside(files, names[k + 1..])
    ensures Without(files, names[k..]) == Without(files - {names[k]}, names[k + 1..])
  {
    assert names[k..][1..] == names[k + 1..];
    assert names[k..] == [names[k]] + names[k + 1..];
  }

  lemma ShelveMoves(d: Disk, names: seq<Name>, k: nat, flush: bool)
    requires k < |names|
    ensures var now := Perform(d, Shelve(names[k]), flush).now;
      && now.wal == d.now.wal && Without(now.files, names[k + 1..]) == Without(d.now.files, names[k..])
      && now.shelf + Aside(now.files, names[k + 1..]) == d.now.shelf + Aside(d.now.files, names[k..])
  {
    hide Aside, Without;
    FromNext(d.now.files, names, k);
    if names[k] !in d.now.files { assert d.now.files - {names[k]} == d.now.files; }
  }

  /** The clearing part: one file after the other goes to the end of the shelf. */
  lemma ClearingMoves(p: Partition, flush: bool, m: Medium)
    requires p.phase.Program? && p.phase.kind in {Adopting, Repairing} && p.phase.stage < |InTheWay(p.phase.kind)|
    requires Enabled(p, Advance(flush), m)
    ensures var q, k, names := Do(p, Advance(flush), m), p.phase.stage, InTheWay(p.phase.kind);
      && q.phase == Program(p.phase.kind, k + 1, p.phase.moved || names[k] in p.disk.now.files)
      && q.journal == p.journal && q.disk == Perform(p.disk, Shelve(names[k]), flush)
  {
    hide SummaryOf, OpAt, Perform;
    RecoveryOps(p);
  }

  /** The bundle's directory in the building part of a rebuild that found it cleared. */
  function Built(k: nat, frames: seq<Envelope>): map<Name, File>
    requires 6 <= k
  {
    var data, manifest := File(Lines(frames), true), File(SummaryOf(SCAN_START, frames), true);
    if k <= 8 then map[]
    else if k == 9 then map[RecoveryData := File(Garbage, false)]
    else if k == 10 then map[RecoveryData := data]
    else if k == 11 then map[RecoveryData := data, RecoveryManifest := File(Garbage, false)]
    else if k == 12 then map[RecoveryData := data, RecoveryManifest := manifest]
    else if k <= 14 then map[RecoveryData := data, Manifest := manifest]
    else Rebuilt(frames)
  }

  lemma BuildingStep(p: Partition, flush: bool, m: Medium)
    requires p.phase.Program? && p.phase.kind == Repairing && 6 <= p.phase.stage < Length(Repairing)
    requires Enabled(p, Advance(flush), m) && p.disk.now.files == Built(p.phase.stage, p.journal.frames)
    ensures var q, k := Do(p, Advance(flush), m), p.phase.stage;
      && q.journal == p.journal && q.disk.now.files == Built(k + 1, p.journal.frames)
      && q.disk.now.shelf == p.disk.now.shelf + (if k == 16 && p.journal.torn then [THE_JOURNAL] else [])
      && q.disk.now.wal == (k != 16 && p.disk.now.wal)
  {
    hide SummaryOf;
  }

  lemma {:induction false} FinishedBuilding(p: Partition, m: Medium)
    requires p.phase.Program? && p.phase.kind == Repairing && 6 <= p.phase.stage < Length(Repairing)
    requires p.disk.now.files == Built(p.phase.stage, p.journal.frames)
    ensures var image := Finished(p, m).disk.now;
      && image.files == Rebuilt(p.journal.frames) && image.wal == (p.phase.stage > 16 && p.disk.now.wal)
      && image.shelf == p.disk.now.shelf + (if p.phase.stage <= 16 && p.journal.torn then [THE_JOURNAL] else [])
    decreases Length(Repairing) - p.phase.stage
  {
    hide Perform, OpAt, SummaryOf, SyncDue, Built, Moves;
    var next := Do(p, Advance(SyncDue(p)), m);
    BuildingStep(p, SyncDue(p), m);
    if next.phase.Program? { FinishedBuilding(next, m); } else { BuiltLast(p.journal.frames); }
  }

  lemma BuiltLast(frames: seq<Envelope>)
    ensures Built(Length(Repairing), frames) == Rebuilt(frames)
  {
  }

  lemma {:induction false} FinishedRepairing(p: Partition, m: Medium)
    requires p.phase.Program? && p.phase.kind == Repairing && p.phase.stage <= |EVERYTHING| && p.disk.now.wal
    requires Without(p.disk.now.files, EVERYTHING[p.phase.stage..]) == map[]
    ensures Finished(p, m).disk.now == Image(
      Rebuilt(p.journal.frames), false, p.disk.now.shelf + Aside(p.disk.now.files, EVERYTHING[p.phase.stage..])
        + if p.journal.torn then [THE_JOURNAL] else [])
    decreases |EVERYTHING| - p.phase.stage
  {
    hide Do, Perform, SummaryOf, SyncDue, Rebuilt, Aside, Without;
    var next := Do(p, Advance(SyncDue(p)), m);
    if p.phase.stage < |EVERYTHING| {
      ClearingMoves(p, SyncDue(p), m);
      ShelveMoves(p.disk, EVERYTHING, p.phase.stage, SyncDue(p));
      FinishedRepairing(next, m);
    } else {
      NothingFrom(p.disk.now.files, EVERYTHING);
      FinishedBuilding(p, m);
    }
  }

  lemma NothingFrom(files: map<Name, File>, names: seq<Name>)
    ensures Without(files, names[|names|..]) == files && Aside(files, names[|names|..]) == []
  {
  }

  lemma {:induction false} FinishedUnlinking(p: Partition, m: Medium)
    requires p.phase.Program? && p.phase.kind == Adopting && |LEFTOVERS| <= p.phase.stage < Length(Adopting)
    ensures Finished(p, m).disk.now == p.disk.now.(wal := p.phase.stage > 6 && p.disk.now.wal)
    decreases Length(Adopting) - p.phase.stage
  {
    var next := Do(p, Advance(SyncDue(p)), m);
    if next.phase.Program? { FinishedUnlinking(next, m); }
  }

  lemma {:induction false} FinishedClearing(p: Partition, m: Medium)
    requires p.phase.Program? && p.phase.kind == Adopting && p.phase.stage <= |LEFTOVERS|
    ensures Finished(p, m).disk.now == Image(
      Without(p.disk.now.files, LEFTOVERS[p.phase.stage..]), false,
      p.disk.now.shelf + Aside(p.disk.now.files, LEFTOVERS[p.phase.stage..]))
    decreases |LEFTOVERS| - p.phase.stage
  {
    hide Do, Perform, SyncDue, Aside, Without;
    var next := Do(p, Advance(SyncDue(p)), m);
    if p.phase.stage < |LEFTOVERS| {
      ClearingMoves(p, SyncDue(p), m);
      ShelveMoves(p.disk, LEFTOVERS, p.phase.stage, SyncDue(p));
      FinishedClearing(next, m);
    } else {
      NothingFrom(p.disk.now.files, LEFTOVERS);
      FinishedUnlinking(p, m);
    }
  }

  lemma EverythingIsAll(files: map<Name, File>)
    ensures Without(files, EVERYTHING) == map[]
  {
    forall n | n in files ensures n in EVERYTHING { assert EVERYTHING[Rank(n)] == n; }
  }

  lemma FinishedShelving(p: Partition, m: Medium)
    requires p.phase == Program(Shelving, 0, false)
    ensures Finished(p, m).disk.now == p.disk.now.(wal := false, shelf := p.disk.now.shelf + [THE_JOURNAL])
    ensures ShelfSynced(Finished(p, m).disk)
  {
    var shelved := Do(p, Advance(SyncDue(p)), m);
    var synced := Do(shelved, Advance(SyncDue(shelved)), m);
    assert synced.phase == Program(Shelving, 2, true);
    assert Finished(p, m) == Finished(shelved, m) == Finished(synced, m) == Do(synced, Advance(true), m);
  }

  lemma NothingInTheWay(files: map<Name, File>)
    ensures Aside(files, []) == [] && Without(files, []) == files
  {
  }

  /** The three directories after a recovery that was left alone, down to the order on the shelf. */
  lemma RecoveryLeaves(p: Partition, m: Medium)
    requires p.phase == Idle && p.disk.now.wal
    ensures Finished(Do(p, Recover, m), m).disk.now == Recovered(p.disk.now, RecoveryKind(p), p.journal)
  {
    hide Perform, OpAt, SummaryOf, SyncDue, Rebuilt, Aside, Without;
    var started := Do(p, Recover, m);
    NothingInTheWay(p.disk.now.files);
    match RecoveryKind(p)
    case Shelving => FinishedShelving(started, m);
    case Adopting => FinishedClearing(started, m); assert LEFTOVERS[0..] == LEFTOVERS;
    case Repairing =>
      EverythingIsAll(p.disk.now.files);
      assert EVERYTHING[0..] == EVERYTHING;
      FinishedRepairing(started, m);
  }

  // ---------------------------------------------------------------- what a later power loss leaves of the quarantine

  /** Whether the running program will sync the quarantine before it ends. */
  predicate SyncAhead(p: Partition) {
    p.phase.Program? && p.phase.stage < Length(p.phase.kind)
    && var k := p.phase.stage;
    match p.phase.kind
    case Shelving => k <= 1
    case Adopting => k <= |LEFTOVERS| && (p.phase.moved || Aside(p.disk.now.files, LEFTOVERS[k..]) != [])
    case Repairing =>
      || (k <= |EVERYTHING| && (p.phase.moved || Aside(p.disk.now.files, EVERYTHING[k..]) != []))
      || (k <= 17 && p.journal.torn)
    case _ => false
  }

  /** A move is durable only with the next sync of the quarantine; no other operation changes that. */
  lemma OpSyncs(d: Disk, op: Op, flush: bool)
    requires d.quarantineFrom <= |d.past|
    ensures var e := Perform(d, op, flush);
      && e.quarantineFrom <= |e.past|
      && (ShelfSynced(e) <==> (op == Sync(Quarantine) && flush) || (!Moves(d, op) && ShelfSynced(d)))
  {
    var e := Perform(d, op, flush);
    assert forall i :: 0 <= i < |d.past| ==> ImageAt(e, i) == ImageAt(d, i);
    assert ImageAt(d, |d.past|) == d.now && ImageAt(e, |e.past|) == e.now;
    if |e.past| > |d.past| { assert ImageAt(e, |d.past|) == d.now; }
    if Moves(d, op) { assert |e.now.shelf| == |d.now.shelf| + 1; }
  }

  lemma ClearingSyncs(p: Partition, m: Medium)
    requires p.phase.Program? && p.phase.kind in {Adopting, Repairing} && p.phase.stage < |InTheWay(p.phase.kind)|
    requires p.disk.quarantineFrom <= |p.disk.past|
    ensures var q := Do(p, Advance(SyncDue(p)), m);
      && q.phase.Program? && q.disk.quarantineFrom <= |q.disk.past|
      && (SyncAhead(p) || ShelfSynced(p.disk) <==> SyncAhead(q) || ShelfSynced(q.disk))
  {
    hide ShelfSynced, SummaryOf, Aside, OpAt, Perform, SyncDue;
    var k, names, files := p.phase.stage, InTheWay(p.phase.kind), p.disk.now.files;
    ClearingMoves(p, SyncDue(p), m);
    OpSyncs(p.disk, Shelve(names[k]), SyncDue(p));
    FromNext(files, names, k);
    Shelved(p.disk, names[k], SyncDue(p));
  }

  lemma Shelved(d: Disk, n: Name, flush: bool)
    ensures Perform(d, Shelve(n), flush).now.files == if n in d.now.files then d.now.files - {n} else d.now.files
  {
  }

  lemma LaterSyncs(p: Partition, m: Medium)
    requires p.phase.Program? && p.phase.kind in {Shelving, Adopting, Repairing}
    requires |InTheWay(p.phase.kind)| <= p.phase.stage < Length(p.phase.kind)
    requires p.disk.quarantineFrom <= |p.disk.past|
    ensures var q := Do(p, Advance(SyncDue(p)), m);
      && q.disk.quarantineFrom <= |q.disk.past| && (SyncAhead(q) ==> q.phase.Program?)
      && (SyncAhead(p) || ShelfSynced(p.disk) <==> SyncAhead(q) || ShelfSynced(q.disk))
  {
    hide ShelfSynced, SummaryOf, Aside, Perform;
    OpSyncs(p.disk, OpAt(p, p.phase.kind, p.phase.stage), SyncDue(p));
    NothingFrom(p.disk.now.files, InTheWay(p.phase.kind));
  }

  lemma {:induction false} FinishedSynced(p: Partition, m: Medium)
    requires p.phase.Program? && p.phase.kind in {Shelving, Adopting, Repairing} && p.phase.stage < Length(p.phase.kind)
    requires p.disk.quarantineFrom <= |p.disk.past|
    ensures var q := Finished(p, m);
      q.disk.quarantineFrom <= |q.disk.past| && (ShelfSynced(q.disk) <==> SyncAhead(p) || ShelfSynced(p.disk))
    decreases Length(p.phase.kind) - p.phase.stage
  {
    hide Perform, OpAt, ShelfSynced, SyncAhead, SyncDue;
    if p.phase.stage < |InTheWay(p.phase.kind)| { ClearingSyncs(p, m); } else { LaterSyncs(p, m); }
    var next := Do(p, Advance(SyncDue(p)), m);
    if next.phase.Program? { FinishedSynced(next, m); }
  }

  /** No directory is durable as of a point that is still to come. */
  predicate InOrder(d: Disk) {
    d.bundleFrom <= |d.past| && d.journalsFrom <= |d.past| && d.quarantineFrom <= |d.past|
  }

  lemma {:induction false} FinishedEnds(p: Partition, m: Medium)
    requires p.phase.Program? && p.phase.kind in {Shelving, Adopting, Repairing} && p.phase.stage < Length(p.phase.kind)
    requires InOrder(p.disk)
    ensures var q := Finished(p, m);
      q.phase == Idle && q.journal == p.journal && InOrder(q.disk) && q.disk.journalsFrom == |q.disk.past|
    decreases Length(p.phase.kind) - p.phase.stage
  {
    hide SummaryOf;
    var next := Do(p, Advance(SyncDue(p)), m);
    if next.phase.Program? { FinishedEnds(next, m); }
  }

  /**
   Whatever a recovery and those before it moved is in the quarantine after every later power loss if and only if the
   directories fall back together, or this recovery moves something itself, or all of the quarantine was durable.
   */
  lemma ShelfSurvivesExactly(p: Partition, m: Medium)
    requires p.phase == Idle && p.disk.now.wal && InOrder(p.disk)
    ensures var q, kind := Finished(Do(p, Recover, m), m), RecoveryKind(p);
      (forall f :: CanFallBack(q.disk, f, m) ==> Surviving(q.disk, f).shelf == q.disk.now.shelf) <==>
        (m.Ordered? || KeepsJournal(kind, p.journal.torn) || Aside(p.disk.now.files, InTheWay(kind)) != []
         || ShelfSynced(p.disk))
  {
    hide Perform, OpAt, SyncDue, ArchiveMatches, Aside;
    var started := Do(p, Recover, m);
    var q := Finished(started, m);
    FinishedEnds(started, m);
    FinishedSynced(started, m);
    assert LEFTOVERS[0..] == LEFTOVERS && EVERYTHING[0..] == EVERYTHING;
    if m.Independent? && !ShelfSynced(q.disk) {
      var i :| q.disk.quarantineFrom <= i <= |q.disk.past| && ImageAt(q.disk, i).shelf != q.disk.now.shelf;
      assert CanFallBack(q.disk, Fallback(|q.disk.past|, |q.disk.past|, i), m);
    }
  }

  /** `e` comes after `d`, with no sync of the quarantine between them. */
  predicate Unsynced(d: Disk, e: Disk) {
    && |d.past| <= |e.past| && e.quarantineFrom == d.quarantineFrom
    && forall i :: 0 <= i <= |d.past| ==> ImageAt(e, i).shelf == ImageAt(d, i).shelf
  }

  lemma OpUnsynced(d: Disk, op: Op, flush: bool)
    requires op == Sync(Quarantine) ==> !flush
    ensures Unsynced(d, Perform(d, op, flush)) && (InOrder(d) ==> InOrder(Perform(d, op, flush)))
  {
  }

  lemma UnsyncedFurther(d: Disk, e: Disk, g: Disk)
    requires Unsynced(d, e) && Unsynced(e, g)
    ensures Unsynced(d, g)
  {
  }

  lemma {:induction false} ThroughClearing(p: Partition, m: Medium)
    requires p.phase.Program? && p.phase.kind == Repairing && p.phase.stage <= |EVERYTHING|
    requires Without(p.disk.now.files, EVERYTHING[p.phase.stage..]) == map[]
    ensures var q := Through(p, |EVERYTHING|, m);
      && q.phase.Program? && q.journal == p.journal && q.disk.now.wal == p.disk.now.wal && q.disk.now.files == map[]
      && q.disk.now.shelf == p.disk.now.shelf + Aside(p.disk.now.files, EVERYTHING[p.phase.stage..])
      && Unsynced(p.disk, q.disk) && (InOrder(p.disk) ==> InOrder(q.disk))
    decreases |EVERYTHING| - p.phase.stage
  {
    hide Do, Perform, OpAt, SummaryOf, SyncDue, Aside, Without, Unsynced, InOrder, Moves;
    if p.phase.stage < |EVERYTHING| {
      var next := Do(p, Advance(SyncDue(p)), m);
      ClearingMoves(p, SyncDue(p), m);
      ShelveMoves(p.disk, EVERYTHING, p.phase.stage, SyncDue(p));
      ThroughClearing(next, m);
      OpUnsynced(p.disk, Shelve(EVERYTHING[p.phase.stage]), SyncDue(p));
      UnsyncedFurther(p.disk, next.disk, Through(next, |EVERYTHING|, m).disk);
    } else {
      NothingFrom(p.disk.now.files, EVERYTHING);
      UnsyncedSelf(p.disk);
    }
  }

  lemma UnsyncedSelf(d: Disk)
    ensures Unsynced(d, d)
  {
  }

  /** A rebuild that finds nothing to move does not sync the quarantine. */
  lemma {:induction false} RebuildUnsynced(p: Partition, m: Medium)
    requires p.phase.Program? && p.phase.kind == Repairing && p.phase.stage < Length(Repairing) && !p.phase.moved
    requires !p.journal.torn && (p.phase.stage <= |EVERYTHING| ==> p.disk.now.files == map[])
    ensures Unsynced(p.disk, Finished(p, m).disk)
    decreases Length(Repairing) - p.phase.stage
  {
    hide SummaryOf, Perform, Unsynced;
    var next := Do(p, Advance(SyncDue(p)), m);
    OpUnsynced(p.disk, OpAt(p, Repairing, p.phase.stage), SyncDue(p));
    if p.phase.stage < |EVERYTHING| { Shelved(p.disk, EVERYTHING[p.phase.stage], SyncDue(p)); }
    if p.phase.stage == |EVERYTHING| { SyncShows(p.disk, Quarantine, SyncDue(p)); }
    if next.phase.Program? {
      RebuildUnsynced(next, m);
      UnsyncedFurther(p.disk, next.disk, Finished(next, m).disk);
    }
  }

  lemma SyncShows(d: Disk, directory: Where, flush: bool)
    ensures Perform(d, Sync(directory), flush).now == d.now
  {
  }

  /**
   On a medium whose directories fall back independently, a rebuild that dies between its last move and its sync of
   the quarantine can lose all it moved: the next one finds nothing to move, so it does not sync the quarantine, but
   it does sync the directory the files were taken from.
   */
  lemma MovedIsExposed(p: Partition)
    requires p.phase == Idle && p.disk.now.wal && InOrder(p.disk) && RecoveryKind(p) == Repairing && !p.journal.torn
    ensures var died := Do(Through(Do(p, Recover, Independent), |EVERYTHING|, Independent), Kill, Independent);
      && died.disk.now.wal && Careful(died)
      && var q := Finished(Do(died, Recover, Independent), Independent);
      exists f :: CanFallBack(q.disk, f, Independent)
        && Surviving(q.disk, f) == Image(Rebuilt(p.journal.frames), false, p.disk.now.shelf)
  {
    hide SummaryOf, Perform, SyncDue, Rebuilt, Aside, Without, Unsynced;
    var started := Do(p, Recover, Independent);
    EverythingIsAll(p.disk.now.files);
    assert EVERYTHING[0..] == EVERYTHING;
    ThroughClearing(started, Independent);
    var died := Do(Through(started, |EVERYTHING|, Independent), Kill, Independent);
    assert died.phase == Idle && died.disk.now.files == map[] && RecoveryKind(died) == Repairing;
    var again := Do(died, Recover, Independent);
    var q := Finished(again, Independent);
    RebuildUnsynced(again, Independent);
    UnsyncedFurther(p.disk, died.disk, q.disk);
    FinishedEnds(again, Independent);
    RecoveryLeaves(died, Independent);
    LastShelf(p.disk, q.disk);
    var f := Fallback(|q.disk.past|, |q.disk.past|, |p.disk.past|);
    assert CanFallBack(q.disk, f, Independent);
  }

  lemma LastShelf(d: Disk, e: Disk)
    requires Unsynced(d, e)
    ensures |d.past| <= |e.past| && e.quarantineFrom == d.quarantineFrom && ImageAt(e, |d.past|).shelf == d.now.shelf
  {
    assert ImageAt(d, |d.past|) == d.now;
  }
}
