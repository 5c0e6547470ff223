/**
 The two-file archive commit and the recovery of its write-ahead journal, as a transition
 system: one partition's files, the process working on it, and an adversary that may kill the
 process or cut the power between any two file operations.

 The bundle, the journal and the quarantine live in three directories, each synced on its own.
 Assumptions, stated once: directory operations are atomic and each directory's reach the medium
 in order. On an `Ordered` medium that order also holds across directories, so a power loss leaves
 all three as they were at one point since the last sync of any; on an `Independent` one each
 directory falls back by itself, and a move between two may survive in one of them only.
 Bytes that were not synced may turn into anything, except that a journal keeps a prefix of its
 frames; the digest of a file is a constructor, hence injective; gzip is the identity on lines.
 */
module ArchiveProtocol {
  import opened Envelopes
  import opened Media

  datatype Name = Data | Manifest | Partial | ManifestPartial | RecoveryData | RecoveryManifest

  datatype Digest = Sha256(of: Content)

  datatype Content =
    | JournalFile
    | Lines(lines: seq<Envelope>)
    | Summary(digest: Digest, totals: Totals)
    | Garbage

  datatype File = File(content: Content, synced: bool)

  /** The entries of the three directories; the journal directory either holds the journal or does not. */
  datatype Image = Image(files: map<Name, File>, wal: bool, shelf: seq<File>)

  datatype Where = Bundle | Journals | Quarantine

  /** The journal's inode: complete frames in it, how many of them are durable, and a torn last line. */
  datatype Journal = Journal(header: bool, frames: seq<Envelope>, durable: nat, torn: bool)

  datatype Kind = Opening | Cancelling | Finalizing | Unwinding | Aborting | Shelving | Adopting | Repairing

  /** `moved`: the program has moved some file to the quarantine. */
  datatype Phase =
    | Idle
    | Ready
    | Writing(envelope: Envelope, part: nat)
    | Written(envelope: Envelope)
    | Tainted
    | Program(kind: Kind, stage: nat, moved: bool)

  /** `past` are the images before each directory operation; each directory is durable as of its `...From`. */
  datatype Disk = Disk(now: Image, past: seq<Image>, bundleFrom: nat, journalsFrom: nat, quarantineFrom: nat)

  datatype Partition = Partition(
    disk: Disk, journal: Journal, buffered: seq<Envelope>, consumed: seq<Envelope>, phase: Phase)

  datatype Op =
    | Create(name: Name)
    | CreateJournal
    | Store(name: Name, content: Content)
    | StoreHeader
    | Rename(source: Name, target: Name)
    | Remove(name: Name)
    | RemoveJournal
    | Shelve(name: Name)
    | ShelveJournal
    | Sync(directory: Where)

  // ---------------------------------------------------------------- the programs

  function SummaryOf(start: Totals, lines: seq<Envelope>): Content {
    Summary(Sha256(Lines(lines)), ObserveAll(start, lines))
  }

  function Length(kind: Kind): nat {
    match kind
    case Opening => 4
    case Cancelling => 3
    case Finalizing => 9
    case Unwinding => 5
    case Aborting => 2
    case Shelving => 3
    case Adopting => 8
    case Repairing => 19
  }

  /** What adopting a bundle moves out of the way, in this order. */
  const LEFTOVERS := [Partial, ManifestPartial, RecoveryData, RecoveryManifest]

  /** The file operations of each piece of code, in program order. */
  function OpAt(p: Partition, kind: Kind, stage: nat): Op
    requires stage < Length(kind)
  {
    match kind
    case Opening =>
      (match stage case 0 => Create(Partial) case 1 => CreateJournal case 2 => StoreHeader case _ => Sync(Journals))
    case Cancelling => (match stage case 0 => RemoveJournal case 1 => Sync(Journals) case _ => Remove(Partial))
    case Finalizing =>
      (match stage
       case 0 => Store(Partial, Lines(p.buffered))
       case 1 => Create(ManifestPartial)
       case 2 => Store(ManifestPartial, SummaryOf(WRITER_START, p.buffered))
       case 3 => Rename(ManifestPartial, Manifest)
       case 5 => Rename(Partial, Data)
       case 7 => RemoveJournal
       case _ => Sync(if stage == 8 then Journals else Bundle))
    case Unwinding =>
      (match stage
       case 0 => Remove(ManifestPartial) case 1 => Remove(Partial)
       case 2 => Remove(Data) case 3 => Remove(Manifest)
       case _ => Sync(Bundle))
    case Aborting => (match stage case 0 => Remove(Partial) case _ => Remove(ManifestPartial))
    case Shelving => (match stage case 0 => ShelveJournal case 1 => Sync(Quarantine) case _ => Sync(Journals))
    case Adopting =>
      if stage <= 3 then Shelve(LEFTOVERS[stage])
      else (match stage
            case 4 => Sync(Quarantine) case 5 => Sync(Bundle)
            case 6 => RemoveJournal
            case _ => Sync(Journals))
    case Repairing =>
      if stage <= 5 then Shelve(([Data, Manifest] + LEFTOVERS)[stage])
      else (match stage
            case 6 => Sync(Quarantine)
            case 8 => Create(RecoveryData)
            case 9 => Store(RecoveryData, Lines(p.journal.frames))
            case 10 => Create(RecoveryManifest)
            case 11 => Store(RecoveryManifest, SummaryOf(SCAN_START, p.journal.frames))
            case 12 => Rename(RecoveryManifest, Manifest)
            case 14 => Rename(RecoveryData, Data)
            case 16 => if p.journal.torn then ShelveJournal else RemoveJournal
            case 17 => Sync(Quarantine)
            case _ => Sync(if stage == 18 then Journals else Bundle))
  }

  /** Quarantining syncs only when it moved something. */
  predicate SyncDue(p: Partition)
    requires p.phase.Program?
  {
    match p.phase.kind
    case Adopting => p.phase.stage in {4, 5} ==> p.phase.moved
    case Repairing => (p.phase.stage in {6, 7} ==> p.phase.moved) && (p.phase.stage == 17 ==> p.journal.torn)
    case _ => true
  }

  /** Directory syncs whose failure the code ignores. */
  predicate BestEffort(kind: Kind, stage: nat) {
    (kind == Cancelling && stage == 1) || (kind == Finalizing && stage == 8) || (kind == Unwinding && stage == 4)
  }

  function Perform(d: Disk, op: Op, flush: bool): Disk {
    var now, files := d.now, d.now.files;
    match op
    case Create(n) => Entered(d, now.(files := files[n := File(Garbage, false)]))
    case CreateJournal => Entered(d, now.(wal := true))
    case Store(n, c) => d.(now := now.(files := files[n := File(c, true)]))
    case StoreHeader => d
    case Rename(a, b) => if a in files then Entered(d, now.(files := (files - {a})[b := files[a]])) else d
    case Remove(n) => Entered(d, now.(files := files - {n}))
    case RemoveJournal => Entered(d, now.(wal := false))
    case Shelve(n) =>
      if n in files then Entered(d, now.(files := files - {n}, shelf := now.shelf + [files[n]])) else d
    case ShelveJournal => Entered(d, now.(wal := false, shelf := now.shelf + [File(JournalFile, true)]))
    case Sync(directory) => if flush then Synced(d, directory) else d
  }

  /** A directory operation: visible at once, durable only at that directory's next sync. */
  function Entered(d: Disk, image: Image): Disk {
    d.(past := d.past + [d.now], now := image)
  }

  function Synced(d: Disk, directory: Where): Disk {
    match directory
    case Bundle => d.(bundleFrom := |d.past|)
    case Journals => d.(journalsFrom := |d.past|)
    case Quarantine => d.(quarantineFrom := |d.past|)
  }

  predicate Moves(d: Disk, op: Op) {
    (op.Shelve? && op.name in d.now.files) || op.ShelveJournal?
  }

  // ---------------------------------------------------------------- what a power loss can bring back

  /** The point each directory falls back to. */
  datatype Fallback = Fallback(bundle: nat, journals: nat, quarantine: nat)

  predicate CanFallBack(d: Disk, f: Fallback, m: Medium) {
    && d.bundleFrom <= f.bundle <= |d.past| && d.journalsFrom <= f.journals <= |d.past|
    && d.quarantineFrom <= f.quarantine <= |d.past|
    && (m.Ordered? ==> f.bundle == f.journals == f.quarantine)
  }

  function ImageAt(d: Disk, i: nat): Image
    requires i <= |d.past|
  {
    if i < |d.past| then d.past[i] else d.now
  }

  function Surviving(d: Disk, f: Fallback): Image
    requires f.bundle <= |d.past| && f.journals <= |d.past| && f.quarantine <= |d.past|
  {
    Image(ImageAt(d, f.bundle).files, ImageAt(d, f.journals).wal, ImageAt(d, f.quarantine).shelf)
  }

  // ---------------------------------------------------------------- steps

  datatype Step =
    | Advance(flush: bool)           // the next operation of the running program succeeds
    | Fail                           // it raises
    | BeginWrite(envelope: Envelope)
    | Deliver                        // the written envelope is handed to the consumer
    | BeginFinalize
    | Abort
    | Recover                        // startup recovery scans the journal and picks a program
    | Kill                           // the process dies, the machine does not
    | PowerLoss(fallback: Fallback, frames: nat, torn: bool, garbled: map<Name, Content>)

  predicate ArchiveMatches(files: map<Name, File>, frames: seq<Envelope>) {
    && Data in files && Manifest in files
    && files[Manifest].content.Summary?
    && files[Manifest].content.digest == Sha256(files[Data].content)
    && files[Manifest].content.totals.records == |frames|
    && files[Data].content == Lines(frames)
  }

  function RecoveryKind(p: Partition): Kind {
    if !p.journal.header || p.journal.frames == [] then Shelving
    else if ArchiveMatches(p.disk.now.files, p.journal.frames) then Adopting
    else Repairing
  }

  function AfterWritePart(p: Partition, e: Envelope, part: nat): Partition {
    match part
    case 0 => p.(buffered := p.buffered + [e], phase := Writing(e, 1))
    case 1 => p.(journal := p.journal.(torn := true), phase := Writing(e, 2))
    case 2 => p.(journal := p.journal.(torn := false, frames := p.journal.frames + [e]), phase := Writing(e, 3))
    case _ => p.(journal := p.journal.(durable := |p.journal.frames|), phase := Written(e))
  }

  function NextPhase(p: Partition): Phase
    requires p.phase.Program? && p.phase.stage < Length(p.phase.kind)
  {
    var kind, k := p.phase.kind, p.phase.stage;
    if k + 1 < Length(kind) then Program(kind, k + 1, p.phase.moved || Moves(p.disk, OpAt(p, kind, k)))
    else if kind == Opening then Ready
    else Idle
  }

  function FailurePhase(phase: Phase): Phase {
    match phase
    case Writing(_, _) => Tainted
    case Program(Opening, _, _) => Program(Cancelling, 0, false)
    case Program(Finalizing, stage, _) => if stage <= 6 then Program(Unwinding, 0, false) else Idle
    case Program(Unwinding, _, _) => Program(Aborting, 0, false)
    case _ => Idle
  }

  function AfterOp(p: Partition, op: Op, flush: bool): Partition {
    p.(disk := Perform(p.disk, op, flush),
       journal := if op.StoreHeader? then p.journal.(header := true) else p.journal)
  }

  predicate Enabled(p: Partition, step: Step, m: Medium) {
    match step
    case Advance(flush) =>
      || (p.phase.Writing? && p.phase.part <= 3)
      || (p.phase.Program? && p.phase.stage < Length(p.phase.kind)
          && (flush == SyncDue(p) || BestEffort(p.phase.kind, p.phase.stage)))
    case Fail => p.phase.Writing? || p.phase.Program?
    case BeginWrite(_) => p.phase == Ready
    case Deliver => p.phase.Written?
    case BeginFinalize => (p.phase == Ready || p.phase.Written?) && p.buffered != []
    case Abort => p.phase == Ready || p.phase.Written? || p.phase == Tainted
    case Recover => p.phase == Idle && p.disk.now.wal
    case Kill => true
    case PowerLoss(f, k, _, _) =>
      && CanFallBack(p.disk, f, m)
      && (if ImageAt(p.disk, f.journals).wal then p.journal.durable <= k <= |p.journal.frames|
          else k == |p.journal.frames|)
  }

  function Survivor(f: File, n: Name, garbled: map<Name, Content>): File {
    if f.synced then f else File(if n in garbled then garbled[n] else Garbage, true)
  }

  /** Files in the quarantine keep their mark: of one that was never synced nothing relies on the bytes. */
  function AfterPowerLoss(image: Image, garbled: map<Name, Content>): Image {
    image.(files := map n | n in image.files :: Survivor(image.files[n], n, garbled))
  }

  function Do(p: Partition, step: Step, m: Medium): Partition
    requires Enabled(p, step, m)
  {
    match step
    case Advance(flush) =>
      if p.phase.Writing? then AfterWritePart(p, p.phase.envelope, p.phase.part)
      else AfterOp(p, OpAt(p, p.phase.kind, p.phase.stage), flush).(phase := NextPhase(p))
    case Fail => p.(phase := FailurePhase(p.phase))
    case BeginWrite(e) => p.(phase := Writing(e, 0))
    case Deliver => p.(consumed := p.consumed + [p.phase.envelope], phase := Ready)
    case BeginFinalize => p.(phase := Program(Finalizing, 0, false))
    case Abort => p.(phase := Program(Aborting, 0, false))
    case Recover => p.(phase := Program(RecoveryKind(p), 0, false))
    case Kill => p.(phase := Idle)
    case PowerLoss(f, k, torn, garbled) =>
      p.(disk := Disk(AfterPowerLoss(Surviving(p.disk, f), garbled), [], 0, 0, 0), phase := Idle,
         journal := if !ImageAt(p.disk, f.journals).wal then p.journal
                    else Journal(p.journal.header, p.journal.frames[..k], k, torn))
  }

  const EMPTY := Image(map[], false, [])

  /** A partition whose writer is about to be constructed: no path of its bundle exists yet. */
  const FRESH := Partition(Disk(EMPTY, [], 0, 0, 0), Journal(false, [], 0, false), [], [], Program(Opening, 0, false))

  // ---------------------------------------------------------------- the invariant

  predicate HasData(files: map<Name, File>) {
    Data in files && files[Data].content.Lines?
  }

  function DataLines(files: map<Name, File>): seq<Envelope>
    requires HasData(files)
  {
    files[Data].content.lines
  }

  predicate IsSummaryOf(f: File, lines: seq<Envelope>) {
    && f.synced && f.content.Summary?
    && f.content.digest == Sha256(Lines(lines)) && f.content.totals.records == |lines|
  }

  /** A durable bundle: the data file and a manifest that verifies it. */
  predicate Committed(files: map<Name, File>, lines: seq<Envelope>) {
    && Data in files && files[Data] == File(Lines(lines), true)
    && Manifest in files && IsSummaryOf(files[Manifest], lines)
  }

  /** A data file is never visible under its final name without a manifest that verifies it. */
  predicate BundleSafe(files: map<Name, File>) {
    Data in files ==> HasData(files) && Committed(files, DataLines(files))
  }

  /** A visible data file covers what the consumer has seen and is at most one envelope ahead. */
  predicate DataSafe(files: map<Name, File>, consumed: seq<Envelope>) {
    && BundleSafe(files)
    && (HasData(files) ==> consumed <= DataLines(files) && |DataLines(files)| <= |consumed| + 1)
  }

  predicate JournalSafe(j: Journal, consumed: seq<Envelope>) {
    && j.durable <= |j.frames| <= |consumed| + 1
    && consumed <= j.frames[..j.durable]
    && (!j.header ==> j.frames == [])
  }

  /** No image of the bundle's directory that may come back shows a data file. */
  predicate NoData(d: Disk) {
    forall i :: d.bundleFrom <= i <= |d.past| ==> Data !in ImageAt(d, i).files
  }

  /** The bundle is durable: every image that may come back holds it. */
  predicate AllCommitted(d: Disk, lines: seq<Envelope>) {
    forall i :: d.bundleFrom <= i <= |d.past| ==> Committed(ImageAt(d, i).files, lines)
  }

  predicate WalThroughout(d: Disk) {
    forall j :: d.journalsFrom <= j <= |d.past| ==> ImageAt(d, j).wal
  }

  /** The journal is being dropped: an image without it holds the bundle. */
  predicate Dropped(d: Disk, frames: seq<Envelope>, m: Medium) {
    match m
    case Independent => AllCommitted(d, frames)
    case Ordered =>
      forall k :: d.bundleFrom <= k <= |d.past| && d.journalsFrom <= k && !ImageAt(d, k).wal ==>
        Committed(ImageAt(d, k).files, frames)
  }

  predicate DiskSafe(d: Disk, frames: seq<Envelope>, consumed: seq<Envelope>, m: Medium) {
    && d.bundleFrom <= |d.past| && d.journalsFrom <= |d.past| && d.quarantineFrom <= |d.past|
    && (forall i :: d.bundleFrom <= i <= |d.past| ==> DataSafe(ImageAt(d, i).files, consumed))
    && (frames != [] ==> if d.now.wal then WalThroughout(d) else Dropped(d, frames, m))
  }

  /** No recovery has worked on the bundle. */
  predicate Untouched(files: map<Name, File>) {
    RecoveryData !in files && RecoveryManifest !in files
  }

  /** The writer is alive: the journal is durable and nothing is committed yet. */
  predicate Live(p: Partition) {
    p.disk.now.wal && WalThroughout(p.disk) && NoData(p.disk) && Untouched(p.disk.now.files) && p.journal.header
  }

  predicate Holds(d: Disk, n: Name, content: Content) {
    n in d.now.files && d.now.files[n] == File(content, true)
  }

  predicate OpeningFacts(p: Partition, k: nat) {
    && p.journal.frames == p.buffered == p.consumed == [] && NoData(p.disk) && Untouched(p.disk.now.files)
    && (k >= 2 ==> p.disk.now.wal) && (k >= 3 ==> p.journal.header)
  }

  predicate FinalizingFacts(p: Partition, k: nat) {
    && p.journal.header && p.journal.frames == p.buffered != [] && p.journal.durable == |p.buffered|
    && (k <= 7 ==> p.disk.now.wal && WalThroughout(p.disk))
    && (k <= 5 ==> NoData(p.disk) && Untouched(p.disk.now.files))
    && (4 <= k <= 5 ==> ManifestPartial !in p.disk.now.files)
    && (1 <= k <= 5 ==> Holds(p.disk, Partial, Lines(p.buffered)))
    && (k == 3 ==> Holds(p.disk, ManifestPartial, SummaryOf(WRITER_START, p.buffered)))
    && (4 <= k ==> Holds(p.disk, Manifest, SummaryOf(WRITER_START, p.buffered)))
    && (6 <= k ==> Committed(p.disk.now.files, p.buffered))
    && (7 <= k ==> AllCommitted(p.disk, p.buffered))
    && (k == 8 ==> !p.disk.now.wal)
  }

  predicate RepairingFacts(p: Partition, k: nat) {
    var frames := p.journal.frames;
    && p.journal.header && frames != []
    && (k <= 16 ==> p.disk.now.wal)
    && (1 <= k <= 14 ==> Data !in p.disk.now.files)
    && (10 <= k <= 14 ==> Holds(p.disk, RecoveryData, Lines(frames)))
    && (k == 12 ==> Holds(p.disk, RecoveryManifest, SummaryOf(SCAN_START, frames)))
    && (13 <= k ==> Holds(p.disk, Manifest, SummaryOf(SCAN_START, frames)))
    && (15 <= k ==> Committed(p.disk.now.files, frames))
    && (16 <= k ==> AllCommitted(p.disk, frames))
    && (17 <= k ==> !p.disk.now.wal)
  }

  /** Something adopting still has to move, from its operation `k` on. */
  predicate LeftoverFrom(files: map<Name, File>, k: nat) {
    exists n :: k <= n < |LEFTOVERS| && LEFTOVERS[n] in files
  }

  /** Whether adopting will have synced the bundle's directory before it drops the journal. */
  predicate BundleWillBeSynced(p: Partition, k: nat, moved: bool) {
    AllCommitted(p.disk, p.journal.frames) || (k <= 5 && moved) || LeftoverFrom(p.disk.now.files, k)
  }

  predicate AdoptingFacts(p: Partition, k: nat, moved: bool, m: Medium) {
    && p.journal.header && p.journal.frames != [] && Committed(p.disk.now.files, p.journal.frames)
    && (k <= 6 <==> p.disk.now.wal)
    && (m.Independent? ==> BundleWillBeSynced(p, k, moved))
  }

  predicate ProgramSafe(p: Partition, kind: Kind, k: nat, moved: bool, m: Medium) {
    match kind
    case Opening => OpeningFacts(p, k)
    case Cancelling => p.journal.frames == [] && NoData(p.disk)
    case Finalizing => FinalizingFacts(p, k)
    case Unwinding => p.disk.now.wal && (k >= 3 ==> Data !in p.disk.now.files)
    case Aborting => p.disk.now.wal
    case Shelving => p.journal.frames == [] && (k >= 1 ==> !p.disk.now.wal)
    case Adopting => AdoptingFacts(p, k, moved, m)
    case Repairing => RepairingFacts(p, k)
  }

  predicate PhaseSafe(p: Partition, m: Medium) {
    match p.phase
    case Idle => true
    case Ready => Live(p) && p.consumed == p.buffered == p.journal.frames && p.journal.durable == |p.journal.frames|
    case Writing(e, part) =>
      && Live(p) && part <= 3
      && p.buffered == (if part == 0 then p.consumed else p.consumed + [e])
      && p.journal.frames == (if part <= 2 then p.consumed else p.consumed + [e])
      && p.journal.durable == |p.consumed|
    case Written(e) =>
      Live(p) && p.buffered == p.journal.frames == p.consumed + [e] && p.journal.durable == |p.journal.frames|
    case Tainted => Live(p)
    case Program(kind, k, moved) => k < Length(kind) && ProgramSafe(p, kind, k, moved, m)
  }

  predicate Inv(p: Partition, m: Medium) {
    && JournalSafe(p.journal, p.consumed)
    && DiskSafe(p.disk, p.journal.frames, p.consumed, m) && PhaseSafe(p, m)
  }

  /**
   Whether recovery may be left alone on a medium whose directories fall back independently: a matching bundle must
   already be durable, or some leftover file makes the quarantine sync its directory.
   */
  predicate Careful(p: Partition) {
    RecoveryKind(p) == Adopting ==> BundleWillBeSynced(p, 0, false)
  }

  /** The steps under which the guarantee is kept: on an ordered medium all of them. */
  predicate Allowed(p: Partition, step: Step, m: Medium) {
    Enabled(p, step, m) && (m.Independent? && step.Recover? ==> Careful(p))
  }

  // ---------------------------------------------------------------- one operation

  lemma FreshIsSafe(m: Medium)
    ensures Inv(FRESH, m)
  {
  }

  lemma SummaryCounts(start: Totals, lines: seq<Envelope>)
    requires start == WRITER_START || start == SCAN_START
    ensures IsSummaryOf(File(SummaryOf(start, lines), true), lines)
  {
    TotalsMeaning(start, lines);
  }

  /** A bundle operation that leaves a data file only where it may be seen. */
  lemma BundleMoves(d: Disk, files: map<Name, File>, shelf: seq<File>, frames: seq<Envelope>, consumed: seq<Envelope>,
      m: Medium)
    requires DiskSafe(d, frames, consumed, m) && DataSafe(files, consumed) && (frames == [] || d.now.wal)
    ensures var e := Entered(d, Image(files, d.now.wal, shelf));
      && DiskSafe(e, frames, consumed, m)
      && (d.now.wal && WalThroughout(d) ==> WalThroughout(e))
      && (NoData(d) && Data !in files ==> NoData(e))
      && forall lines :: AllCommitted(d, lines) && Committed(files, lines) ==> AllCommitted(e, lines)
  {
    hide DataSafe, Committed;
    var e := Entered(d, Image(files, d.now.wal, shelf));
    assert forall i :: 0 <= i <= |d.past| ==> ImageAt(e, i) == ImageAt(d, i);
    assert ImageAt(e, |e.past|) == e.now && ImageAt(d, |d.past|) == d.now;
  }

  /** Contents change in place: no directory operation. */
  lemma FileStored(d: Disk, files: map<Name, File>, frames: seq<Envelope>, consumed: seq<Envelope>, m: Medium)
    requires DiskSafe(d, frames, consumed, m) && DataSafe(files, consumed) && (frames == [] || d.now.wal)
    ensures var e := d.(now := d.now.(files := files));
      && DiskSafe(e, frames, consumed, m) && (WalThroughout(d) ==> WalThroughout(e))
      && (NoData(d) && Data !in files ==> NoData(e))
      && forall lines :: AllCommitted(d, lines) && Committed(files, lines) ==> AllCommitted(e, lines)
  {
    hide DataSafe, Committed;
    var e := d.(now := d.now.(files := files));
    assert forall i :: 0 <= i < |d.past| ==> ImageAt(e, i) == ImageAt(d, i);
    assert ImageAt(e, |e.past|) == e.now && ImageAt(d, |d.past|) == d.now;
  }

  /** Dropping the journal is safe behind a durable bundle, and on an ordered medium behind a visible one. */
  lemma JournalGoes(d: Disk, shelf: seq<File>, frames: seq<Envelope>, consumed: seq<Envelope>, m: Medium)
    requires DiskSafe(d, frames, consumed, m)
    requires frames == [] || AllCommitted(d, frames) || (m.Ordered? && d.now.wal && Committed(d.now.files, frames))
    ensures var e := Entered(d, Image(d.now.files, false, shelf));
      && DiskSafe(e, frames, consumed, m) && (NoData(d) ==> NoData(e))
      && forall lines :: AllCommitted(d, lines) ==> AllCommitted(e, lines)
  {
    hide DataSafe, Committed;
    var e := Entered(d, Image(d.now.files, false, shelf));
    assert forall i :: 0 <= i <= |d.past| ==> ImageAt(e, i) == ImageAt(d, i);
    assert ImageAt(e, |e.past|) == e.now && ImageAt(d, |d.past|) == d.now;
  }

  lemma JournalComes(d: Disk, consumed: seq<Envelope>, m: Medium)
    requires DiskSafe(d, [], consumed, m)
    ensures var e := Entered(d, d.now.(wal := true));
      && DiskSafe(e, [], consumed, m) && (NoData(d) ==> NoData(e)) && (WalThroughout(d) ==> WalThroughout(e))
      && forall lines :: AllCommitted(d, lines) ==> AllCommitted(e, lines)
  {
    hide DataSafe, Committed;
    var e := Entered(d, d.now.(wal := true));
    assert forall i :: 0 <= i <= |d.past| ==> ImageAt(e, i) == ImageAt(d, i);
    assert ImageAt(e, |e.past|) == e.now && ImageAt(d, |d.past|) == d.now;
  }

  /** A sync only takes images away; afterwards the synced directory has one. */
  lemma SyncKeeps(d: Disk, directory: Where, frames: seq<Envelope>, consumed: seq<Envelope>, m: Medium)
    requires DiskSafe(d, frames, consumed, m)
    ensures var e := Synced(d, directory);
      && DiskSafe(e, frames, consumed, m) && e.now == d.now
      && (NoData(d) ==> NoData(e)) && (WalThroughout(d) ==> WalThroughout(e))
      && (forall lines :: AllCommitted(d, lines) ==> AllCommitted(e, lines))
      && (directory.Bundle? ==> forall lines :: Committed(d.now.files, lines) ==> AllCommitted(e, lines))
      && (directory.Journals? && d.now.wal ==> WalThroughout(e))
  {
    hide DataSafe, Committed;
    var e := Synced(d, directory);
    assert forall i :: 0 <= i <= |d.past| ==> ImageAt(e, i) == ImageAt(d, i);
    assert ImageAt(e, |e.past|) == e.now && ImageAt(d, |d.past|) == d.now;
  }

  /** What an operation needs not to endanger any image. */
  predicate OpSafe(d: Disk, op: Op, frames: seq<Envelope>, consumed: seq<Envelope>, m: Medium) {
    match op
    case Sync(_) => true
    case StoreHeader => true
    case CreateJournal => frames == []
    case RemoveJournal => CanDrop(d, frames, m)
    case ShelveJournal => CanDrop(d, frames, m)
    case _ => DataSafe(Perform(d, op, false).now.files, consumed) && (frames == [] || d.now.wal)
  }

  predicate CanDrop(d: Disk, frames: seq<Envelope>, m: Medium) {
    frames == [] || AllCommitted(d, frames) || (m.Ordered? && d.now.wal && Committed(d.now.files, frames))
  }

  lemma OpKeeps(d: Disk, op: Op, flush: bool, frames: seq<Envelope>, consumed: seq<Envelope>, m: Medium)
    requires DiskSafe(d, frames, consumed, m) && OpSafe(d, op, frames, consumed, m)
    ensures var e := Perform(d, op, flush);
      && DiskSafe(e, frames, consumed, m)
      && (d.now.wal && e.now.wal && WalThroughout(d) ==> WalThroughout(e))
      && (NoData(d) && Data !in e.now.files ==> NoData(e))
      && (forall lines :: AllCommitted(d, lines) && Committed(e.now.files, lines) ==> AllCommitted(e, lines))
      && (flush && op == Sync(Bundle) ==> forall lines :: Committed(e.now.files, lines) ==> AllCommitted(e, lines))
      && (flush && op == Sync(Journals) && e.now.wal ==> WalThroughout(e))
  {
    hide DiskSafe, DataSafe, Committed, NoData, AllCommitted, WalThroughout;
    var e := Perform(d, op, flush);
    match op
    case Sync(directory) => SyncKeeps(d, directory, frames, consumed, m);
    case StoreHeader =>
    case CreateJournal => JournalComes(d, consumed, m);
    case RemoveJournal => JournalGoes(d, e.now.shelf, frames, consumed, m);
    case ShelveJournal => JournalGoes(d, e.now.shelf, frames, consumed, m);
    case Store(_, _) => FileStored(d, e.now.files, frames, consumed, m);
    case _ => if e != d { BundleMoves(d, e.now.files, e.now.shelf, frames, consumed, m); }
  }

  // ---------------------------------------------------------------- every step keeps it

  predicate Running(p: Partition, kind: Kind, flush: bool, m: Medium) {
    Inv(p, m) && p.phase.Program? && p.phase.kind == kind && Enabled(p, Advance(flush), m)
  }

  lemma AdvanceWriting(p: Partition, flush: bool, m: Medium)
    requires Inv(p, m) && p.phase.Writing? && Enabled(p, Advance(flush), m)
    ensures Inv(Do(p, Advance(flush), m), m)
  {
    hide Committed;
  }

  lemma AdvanceOpening(p: Partition, flush: bool, m: Medium)
    requires Running(p, Opening, flush, m)
    ensures Inv(Do(p, Advance(flush), m), m)
  {
    hide DiskSafe, WalThroughout, AllCommitted, NoData;
    NoDataIsSafe(p.disk, p.journal.frames, p.consumed, m);
    OpKeeps(p.disk, OpAt(p, Opening, p.phase.stage), flush, [], [], m);
  }

  lemma AdvanceCancelling(p: Partition, flush: bool, m: Medium)
    requires Running(p, Cancelling, flush, m)
    ensures Inv(Do(p, Advance(flush), m), m)
  {
    hide DiskSafe, WalThroughout, AllCommitted, NoData;
    NoDataIsSafe(p.disk, p.journal.frames, p.consumed, m);
    OpKeeps(p.disk, OpAt(p, Cancelling, p.phase.stage), flush, [], p.consumed, m);
  }

  lemma NoDataIsSafe(d: Disk, frames: seq<Envelope>, consumed: seq<Envelope>, m: Medium)
    requires NoData(d) && DiskSafe(d, frames, consumed, m)
    ensures Data !in d.now.files && DataSafe(d.now.files, consumed)
  {
    assert ImageAt(d, |d.past|) == d.now;
  }

  lemma NowIsSafe(d: Disk, frames: seq<Envelope>, consumed: seq<Envelope>, m: Medium)
    requires DiskSafe(d, frames, consumed, m)
    ensures DataSafe(d.now.files, consumed)
    ensures frames != [] && d.now.wal ==> WalThroughout(d)
    ensures frames != [] && !d.now.wal ==> Committed(d.now.files, frames)
    ensures forall lines :: AllCommitted(d, lines) ==> Committed(d.now.files, lines)
  {
    assert ImageAt(d, |d.past|) == d.now;
  }

  /** Up to and including the manifest's promotion and its sync. */
  lemma AdvanceFinalizingManifest(p: Partition, flush: bool, m: Medium)
    requires Running(p, Finalizing, flush, m) && p.phase.stage <= 4
    ensures var q := Do(p, Advance(flush), m);
      && Inv(q, m) && NoData(q.disk) && q.disk.now.wal && WalThroughout(q.disk)
      && (p.phase.stage >= 3 ==> Holds(q.disk, Manifest, SummaryOf(WRITER_START, p.buffered)))
  {
    hide DiskSafe, WalThroughout, AllCommitted, NoData, SummaryOf;
    NoDataIsSafe(p.disk, p.journal.frames, p.consumed, m);
    OpKeeps(p.disk, OpAt(p, Finalizing, p.phase.stage), flush, p.journal.frames, p.consumed, m);
  }

  /** The data file's promotion is the commit point; its sync makes the bundle durable. */
  lemma AdvanceFinalizingData(p: Partition, flush: bool, m: Medium)
    requires Running(p, Finalizing, flush, m) && 5 <= p.phase.stage <= 6
    ensures var q := Do(p, Advance(flush), m);
      && Inv(q, m) && q.disk.now.wal && Committed(q.disk.now.files, p.buffered)
      && (p.phase.stage == 5 ==> NoData(p.disk))
      && (p.phase.stage == 6 ==> AllCommitted(q.disk, p.buffered))
  {
    hide DiskSafe, WalThroughout, AllCommitted, NoData, SummaryOf;
    SummaryCounts(WRITER_START, p.buffered);
    NowIsSafe(p.disk, p.journal.frames, p.consumed, m);
    OpKeeps(p.disk, OpAt(p, Finalizing, p.phase.stage), flush, p.journal.frames, p.consumed, m);
  }

  /** The journal goes only behind a durable bundle. */
  lemma AdvanceFinalizingJournal(p: Partition, flush: bool, m: Medium)
    requires Running(p, Finalizing, flush, m) && 7 <= p.phase.stage
    ensures var q := Do(p, Advance(flush), m);
      && Inv(q, m) && AllCommitted(p.disk, p.buffered) && AllCommitted(q.disk, p.buffered) && !q.disk.now.wal
  {
    hide DiskSafe, WalThroughout, AllCommitted, NoData, SummaryOf;
    NowIsSafe(p.disk, p.journal.frames, p.consumed, m);
    OpKeeps(p.disk, OpAt(p, Finalizing, p.phase.stage), flush, p.journal.frames, p.consumed, m);
  }

  lemma AdvanceCleanup(p: Partition, flush: bool, m: Medium)
    requires Running(p, Unwinding, flush, m) || Running(p, Aborting, flush, m)
    ensures Inv(Do(p, Advance(flush), m), m)
  {
    hide DiskSafe, WalThroughout, AllCommitted, NoData, FinalizingFacts, RepairingFacts, AdoptingFacts, OpeningFacts;
    NowIsSafe(p.disk, p.journal.frames, p.consumed, m);
    OpKeeps(p.disk, OpAt(p, p.phase.kind, p.phase.stage), flush, p.journal.frames, p.consumed, m);
  }

  lemma AdvanceShelving(p: Partition, flush: bool, m: Medium)
    requires Running(p, Shelving, flush, m)
    ensures Inv(Do(p, Advance(flush), m), m)
  {
    hide DiskSafe, WalThroughout, AllCommitted, NoData, DataSafe;
    OpKeeps(p.disk, OpAt(p, Shelving, p.phase.stage), flush, p.journal.frames, p.consumed, m);
  }

  lemma AdvanceAdopting(p: Partition, flush: bool, m: Medium)
    requires Running(p, Adopting, flush, m)
    ensures var q := Do(p, Advance(flush), m);
      && Inv(q, m) && Committed(q.disk.now.files, p.journal.frames)
      && (m.Independent? && !q.disk.now.wal ==> AllCommitted(p.disk, p.journal.frames))
  {
    hide DiskSafe, WalThroughout, AllCommitted, NoData;
    NowIsSafe(p.disk, p.journal.frames, p.consumed, m);
    OpKeeps(p.disk, OpAt(p, Adopting, p.phase.stage), flush, p.journal.frames, p.consumed, m);
  }

  /** Moving whatever is in the way aside, the data file first. */
  lemma AdvanceRepairingClear(p: Partition, flush: bool, m: Medium)
    requires Running(p, Repairing, flush, m) && p.phase.stage <= 7
    ensures Inv(Do(p, Advance(flush), m), m)
  {
    hide DiskSafe, WalThroughout, AllCommitted, NoData, SummaryOf;
    NowIsSafe(p.disk, p.journal.frames, p.consumed, m);
    OpKeeps(p.disk, OpAt(p, Repairing, p.phase.stage), flush, p.journal.frames, p.consumed, m);
  }

  lemma AdvanceRepairingManifest(p: Partition, flush: bool, m: Medium)
    requires Running(p, Repairing, flush, m) && 8 <= p.phase.stage <= 13
    ensures var q := Do(p, Advance(flush), m);
      && Inv(q, m) && Data !in q.disk.now.files && q.disk.now.wal
      && (p.phase.stage >= 12 ==> Holds(q.disk, Manifest, SummaryOf(SCAN_START, p.journal.frames)))
  {
    hide DiskSafe, WalThroughout, AllCommitted, NoData, SummaryOf;
    NowIsSafe(p.disk, p.journal.frames, p.consumed, m);
    OpKeeps(p.disk, OpAt(p, Repairing, p.phase.stage), flush, p.journal.frames, p.consumed, m);
  }

  lemma AdvanceRepairingData(p: Partition, flush: bool, m: Medium)
    requires Running(p, Repairing, flush, m) && 14 <= p.phase.stage <= 15
    ensures var q := Do(p, Advance(flush), m);
      && Inv(q, m) && q.disk.now.wal && Committed(q.disk.now.files, p.journal.frames)
      && (p.phase.stage == 15 ==> AllCommitted(q.disk, p.journal.frames))
  {
    hide DiskSafe, WalThroughout, AllCommitted, NoData, SummaryOf;
    SummaryCounts(SCAN_START, p.journal.frames);
    NowIsSafe(p.disk, p.journal.frames, p.consumed, m);
    OpKeeps(p.disk, OpAt(p, Repairing, p.phase.stage), flush, p.journal.frames, p.consumed, m);
  }

  /** The journal goes only behind a rebuilt and durable bundle of exactly its frames. */
  lemma AdvanceRepairingJournal(p: Partition, flush: bool, m: Medium)
    requires Running(p, Repairing, flush, m) && 16 <= p.phase.stage
    ensures var q := Do(p, Advance(flush), m);
      && Inv(q, m) && AllCommitted(p.disk, p.journal.frames) && AllCommitted(q.disk, p.journal.frames)
      && !q.disk.now.wal && q.journal == p.journal
  {
    hide DiskSafe, WalThroughout, AllCommitted, NoData, SummaryOf;
    NowIsSafe(p.disk, p.journal.frames, p.consumed, m);
    OpKeeps(p.disk, OpAt(p, Repairing, p.phase.stage), flush, p.journal.frames, p.consumed, m);
  }

  lemma PowerLossIsSafe(p: Partition, step: Step, m: Medium)
    requires Inv(p, m) && step.PowerLoss? && Enabled(p, step, m)
    ensures Inv(Do(p, step, m), m)
  {
    hide DiskSafe, Dropped, DataSafe, Committed, PhaseSafe;
    var f, q := step.fallback, Do(p, step, m);
    var image := Surviving(p.disk, f);
    ImageIsSafe(p.disk, f, p.journal.frames, p.consumed, m);
    GarbledIsSafe(image, step.garbled, p.consumed);
    OneImage(q.disk.now, q.journal.frames, q.consumed, m);
    assert PhaseSafe(q, m) by { IdleIsSafe(q, m); }
  }

  lemma IdleIsSafe(p: Partition, m: Medium)
    requires p.phase == Idle
    ensures PhaseSafe(p, m)
  {
  }

  /** Synced contents survive, and a visible data file and its manifest are synced. */
  lemma GarbledIsSafe(image: Image, garbled: map<Name, Content>, consumed: seq<Envelope>)
    requires DataSafe(image.files, consumed)
    ensures var after := AfterPowerLoss(image, garbled);
      && DataSafe(after.files, consumed) && after.wal == image.wal
      && forall lines :: Committed(image.files, lines) ==> Committed(after.files, lines)
  {
  }

  /** After a power loss each directory has one image. */
  lemma OneImage(image: Image, frames: seq<Envelope>, consumed: seq<Envelope>, m: Medium)
    requires DataSafe(image.files, consumed) && (frames != [] && !image.wal ==> Committed(image.files, frames))
    ensures DiskSafe(Disk(image, [], 0, 0, 0), frames, consumed, m)
  {
    hide DataSafe, Committed;
  }

  /** Any image that may come back is safe by itself. */
  lemma ImageIsSafe(d: Disk, f: Fallback, frames: seq<Envelope>, consumed: seq<Envelope>, m: Medium)
    requires DiskSafe(d, frames, consumed, m) && CanFallBack(d, f, m)
    ensures var image := Surviving(d, f);
      DataSafe(image.files, consumed) && (frames != [] && !image.wal ==> Committed(image.files, frames))
  {
    hide DataSafe, Committed;
  }

  /** Each of a program's own operations, and each step of a write. */
  lemma AdvanceKeepsInv(p: Partition, flush: bool, m: Medium)
    requires Inv(p, m) && Enabled(p, Advance(flush), m)
    ensures Inv(Do(p, Advance(flush), m), m)
  {
    hide Inv, Do, SyncDue;
    if p.phase.Writing? {
      AdvanceWriting(p, flush, m);
    } else {
      var k := p.phase.stage;
      match p.phase.kind
      case Opening => AdvanceOpening(p, flush, m);
      case Cancelling => AdvanceCancelling(p, flush, m);
      case Finalizing =>
        if k <= 4 { AdvanceFinalizingManifest(p, flush, m); }
        else if k <= 6 { AdvanceFinalizingData(p, flush, m); }
        else { AdvanceFinalizingJournal(p, flush, m); }
      case Unwinding => AdvanceCleanup(p, flush, m);
      case Aborting => AdvanceCleanup(p, flush, m);
      case Shelving => AdvanceShelving(p, flush, m);
      case Adopting => AdvanceAdopting(p, flush, m);
      case Repairing =>
        if k <= 7 { AdvanceRepairingClear(p, flush, m); }
        else if k <= 13 { AdvanceRepairingManifest(p, flush, m); }
        else if k <= 15 { AdvanceRepairingData(p, flush, m); }
        else { AdvanceRepairingJournal(p, flush, m); }
    }
  }

  /** No step, however adversarial, breaks the invariant. */
  lemma StepKeepsInv(p: Partition, step: Step, m: Medium)
    requires Inv(p, m) && Allowed(p, step, m)
    ensures Inv(Do(p, step, m), m)
  {
    match step
    case Advance(flush) => AdvanceKeepsInv(p, flush, m);
    case PowerLoss(_, _, _, _) => PowerLossIsSafe(p, step, m);
    case _ => CommandKeepsInv(p, step, m);
  }

  lemma CommandKeepsInv(p: Partition, step: Step, m: Medium)
    requires Inv(p, m) && Allowed(p, step, m) && !step.Advance? && !step.PowerLoss?
    ensures Inv(Do(p, step, m), m)
  {
    hide Committed, Dropped, AllCommitted, WalThroughout, LeftoverFrom, SummaryOf;
    NowIsSafe(p.disk, p.journal.frames, p.consumed, m);
  }

  /** A program's own operations touch neither the journal's frames nor what was consumed. */
  lemma AdvanceFrame(p: Partition, flush: bool, m: Medium)
    requires p.phase.Program? && p.phase.kind != Opening && Enabled(p, Advance(flush), m)
    ensures var q := Do(p, Advance(flush), m);
      && q.journal == p.journal && q.buffered == p.buffered && q.consumed == p.consumed
      && q.phase == NextPhase(p)
  {
  }

  // ---------------------------------------------------------------- what the invariant promises

  /**
   The envelopes a recovery starting from this image could restore: the durable frames of the
   journal while it is there, else the committed data file.
   */
  function Evidence(p: Partition, image: Image): seq<Envelope> {
    if image.wal then p.journal.frames[..Min(p.journal.durable, |p.journal.frames|)]
    else if HasData(image.files) then DataLines(image.files)
    else []
  }

  function Min(a: nat, b: nat): nat {
    if a < b then a else b
  }

  /**
   Whatever the medium holds if the power fails now, everything the consumer has seen is a
   prefix of what can be restored, and what can be restored is at most one envelope ahead.
   */
  lemma ConsumedIsRestorable(p: Partition, f: Fallback, m: Medium)
    requires Inv(p, m) && CanFallBack(p.disk, f, m)
    ensures var image := Surviving(p.disk, f);
      && p.consumed <= Evidence(p, image) && |Evidence(p, image)| <= |p.consumed| + 1
      && BundleSafe(image.files)
  {
    ImageIsSafe(p.disk, f, p.journal.frames, p.consumed, m);
  }
}
