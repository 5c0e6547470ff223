/** What a promotion without overwriting that was rolled back leaves behind. */
module CommitRollback {
  import opened Envelopes
  import opened Media
  import opened CommitMarker

  /** Destination `i` is the file the writer linked there. */
  predicate Own(disk: Disk, links: seq<nat>, i: nat) {
    i < |links| && Member(i) in disk && disk[Member(i)].inode == links[i]
  }

  /** So is its staging name, if still there. */
  predicate Twin(disk: Disk, links: seq<nat>, w: nat, i: nat) {
    i < |links| && (Staged(w, i) in disk ==> disk[Staged(w, i)].inode == links[i])
  }

  /**
   The links a rollback does not undo: those whose removal failed, one made but not recorded, and those whose staging
   name is gone.
   */
  predicate OutOfReach(disk: Disk, w: nat, cause: Interrupt, skipped: set<nat>, i: nat) {
    i in skipped ||
    match cause
    case AtLink(_) => false
    case AfterLink(k) => i == k
    case WhileUnstaging(k) => i < k && Staged(w, i) !in disk
  }

  predicate AllOwn(disk: Disk, links: seq<nat>, w: nat, k: nat) {
    |links| == k && forall i :: 0 <= i < k ==> Own(disk, links, i) && Twin(disk, links, w, i)
  }

  predicate StagedFrom(disk: Disk, w: nat, from: nat, to: nat) {
    forall i :: from <= i < to ==> Staged(w, i) in disk
  }

  /** The first `k` links are still there; of the others exactly those out of reach. */
  predicate Undone(disk: Disk, links: seq<nat>, w: nat, k: nat, cause: Interrupt, skipped: set<nat>) {
    && k <= |links| && (cause.AfterLink? ==> k <= cause.k) && (forall i :: i in skipped ==> k <= i)
    && (forall i :: 0 <= i < k ==>
          Own(disk, links, i) && Twin(disk, links, w, i) && (Staged(w, i) in disk || OutOfReach(disk, w, cause, {}, i)))
    && forall i :: k <= i < |links| ==> (Own(disk, links, i) <==> OutOfReach(disk, w, cause, skipped, i))
  }

  predicate WriterTracks(disk: Disk, me: Writer, w: nat, n: nat) {
    match me.phase
    case Preparing => me.links == []
    case Holding => me.links == []
    case Promoting(k) => me.overwrite || (AllOwn(disk, me.links, w, k) && StagedFrom(disk, w, 0, k))
    case Recording(k) => me.overwrite || (AllOwn(disk, me.links, w, k + 1) && StagedFrom(disk, w, 0, k + 1))
    case Unstaging(k) => k <= n && AllOwn(disk, me.links, w, n) && StagedFrom(disk, w, k, n)
    case RollingBack(k, cause, skipped) => Undone(disk, me.links, w, k, cause, skipped)
    case RolledBack(cause, skipped) => Undone(disk, me.links, w, 0, cause, skipped)
    case _ => true
  }

  predicate InodesBelow(disk: Disk, inodes: nat) { forall x :: x in disk ==> disk[x].inode < inodes }

  predicate LinksBelow(links: seq<nat>, inodes: nat) { forall i :: 0 <= i < |links| ==> links[i] < inodes }

  /** No inode is used twice, and every writer knows what it linked. */
  predicate Tracks(s: System) {
    && InodesBelow(s.store.now, s.inodes)
    && (forall k :: 0 <= k < |s.store.past| ==> InodesBelow(s.store.past[k], s.inodes))
    && forall w :: 0 <= w < |s.writers| ==>
         WriterTracks(s.store.now, s.writers[w], w, Count(s)) && LinksBelow(s.writers[w].links, s.inodes)
  }

  lemma LinkTracks(disk: Disk, links: seq<nat>, w: nat, k: nat)
    requires AllOwn(disk, links, w, k) && StagedFrom(disk, w, 0, k) && Staged(w, k) in disk
    ensures var f := disk[Staged(w, k)]; var after := disk[Member(k) := f];
      AllOwn(after, links + [f.inode], w, k + 1) && StagedFrom(after, w, 0, k + 1)
  {
    var f := disk[Staged(w, k)];
    var after := disk[Member(k) := f];
    forall i | 0 <= i < k + 1 ensures Own(after, links + [f.inode], i) && Twin(after, links + [f.inode], w, i) {
      if i < k { assert Own(disk, links, i) && Twin(disk, links, w, i); }
    }
  }

  /** Everything linked so far is recorded. */
  lemma NothingUndoneYet(disk: Disk, links: seq<nat>, w: nat, k: nat)
    requires AllOwn(disk, links, w, k) && StagedFrom(disk, w, 0, k)
    ensures Undone(disk, links, w, k, AtLink(k), {})
  {
  }

  predicate HolderTracks(t: System, w: nat)
    requires w < |t.writers|
  {
    && WriterTracks(t.store.now, t.writers[w], w, Count(t)) && LinksBelow(t.writers[w].links, t.inodes)
    && InodesBelow(t.store.now, t.inodes)
  }

  lemma PromoteTracks(s: System, w: nat, k: nat)
    requires Tracks(s) && w < |s.writers| && s.writers[w].phase == Promoting(k) && k <= Count(s)
    ensures HolderTracks(Promote(s, w, k), w)
  {
    hide AllOwn, StagedFrom, Undone;
    var me, disk := s.writers[w], s.store.now;
    assert WriterTracks(disk, me, w, Count(s));
    if !me.overwrite {
      NothingUndoneYet(disk, me.links, w, k);
      if k < Count(s) && Staged(w, k) in disk { LinkTracks(disk, me.links, w, k); }
    }
  }

  /** Removing a recorded destination, finding that its staging name is gone, or failing to. */
  lemma UndoTracks(disk: Disk, links: seq<nat>, w: nat, k: nat, cause: Interrupt, skipped: set<nat>)
    requires Undone(disk, links, w, k, cause, skipped) && k > 0
    ensures Undone(if SameFile(disk, Staged(w, k - 1), Member(k - 1)) then disk - {Member(k - 1)} else disk,
                   links, w, k - 1, cause, skipped)
    ensures Undone(disk, links, w, k - 1, cause, skipped + {k - 1})
  {
    var after := if SameFile(disk, Staged(w, k - 1), Member(k - 1)) then disk - {Member(k - 1)} else disk;
    assert Own(disk, links, k - 1) && Twin(disk, links, w, k - 1);
    forall i | 0 <= i < |links| && i != k - 1
      ensures Own(after, links, i) == Own(disk, links, i) && Twin(after, links, w, i) == Twin(disk, links, w, i)
      ensures OutOfReach(after, w, cause, skipped, i) == OutOfReach(disk, w, cause, skipped, i)
    {
    }
  }

  lemma UnstageTracks(disk: Disk, links: seq<nat>, w: nat, k: nat, n: nat)
    requires AllOwn(disk, links, w, n) && StagedFrom(disk, w, k, n)
    ensures AllOwn(disk - {Staged(w, k)}, links, w, n) && StagedFrom(disk - {Staged(w, k)}, w, k + 1, n)
  {
    var after := disk - {Staged(w, k)};
    forall i | 0 <= i < n ensures Own(after, links, i) && Twin(after, links, w, i) {
      assert Own(disk, links, i) && Twin(disk, links, w, i);
    }
  }

  /** What the holder's own work does to what it tracks. */
  lemma OwnWorkTracks(s: System, w: nat, m: Medium)
    requires Tracks(s) && w < |s.writers| && WellFormed(s.store) && HolderSafe(s.store, s.writers[w], m)
    ensures HolderTracks(Works(s, w), w)
  {
    hide AllOwn, Undone, StagedFrom, Hashed, Durable, NoMarker, CanBegin;
    var me, disk := s.writers[w], s.store.now;
    assert WriterTracks(disk, me, w, Count(s));
    if me.phase.Promoting? { PromoteTracks(s, w, me.phase.k); }
    else if me.phase.RollingBack? && me.phase.k > 0 {
      UndoTracks(disk, me.links, w, me.phase.k, me.phase.cause, me.phase.skipped);
    } else if me.phase.Unstaging? { UnstageTracks(disk, me.links, w, me.phase.k, Count(s)); }
    else if me.phase.Holding? || me.phase.Invalidated? { NothingLinked(disk, w); }
  }

  lemma WorkTracks(s: System, w: nat, m: Medium)
    requires Inv(s, m) && Tracks(s) && Enabled(s, Work(w), m)
    ensures Tracks(Works(s, w))
  {
    hide StoreSafe, HolderSafe, Tracks, WriterTracks, LinksBelow, InodesBelow;
    InvParts(s, m);
    OwnWorkTracks(s, w, m);
    OthersTrack(s, Works(s, w), w, m);
  }

  lemma NothingLinked(disk: Disk, w: nat)
    ensures AllOwn(disk, [], w, 0) && StagedFrom(disk, w, 0, 0)
  {
  }

  /** The others are outside, where nothing is tracked. */
  lemma OthersTrack(s: System, t: System, w: nat, m: Medium)
    requires Inv(s, m) && Tracks(s) && s.holder == Some(w) && w < |s.writers| == |t.writers| && Count(t) == Count(s)
    requires s.inodes <= t.inodes && HolderTracks(t, w)
    requires t.store.past == s.store.past || t.store.past == s.store.past + [s.store.now]
    requires forall v :: 0 <= v < |s.writers| && v != w ==> t.writers[v] == s.writers[v]
    ensures Tracks(t)
  {
    hide StoreSafe, AllOwn, Undone, StagedFrom, HolderSafe;
    forall v | 0 <= v < |t.writers| && v != w
      ensures WriterTracks(t.store.now, t.writers[v], v, Count(t)) && LinksBelow(t.writers[v].links, t.inodes)
    {
      assert WriterTracks(s.store.now, s.writers[v], v, Count(s)) && Outside(s.writers[v].phase);
    }
  }

  /** A file with a new inode, under a name that is free or still its writer's alone, is nobody's link. */
  lemma CreationTracks(s: System, x: Name, bytes: int)
    requires Tracks(s) && (x.Member? ==> x !in s.store.now) && !x.MarkerFile?
    requires x.Staged? && x.writer < |s.writers| ==> s.writers[x.writer].phase.Preparing?
    ensures Tracks(Created(s, x, bytes))
  {
    hide AllOwn, Undone, StagedFrom;
    var f, disk := File(s.inodes, Bytes(bytes)), s.store.now;
    forall w | 0 <= w < |s.writers|
      ensures WriterTracks(disk[x := f], s.writers[w], w, Count(s)) && LinksBelow(s.writers[w].links, s.inodes + 1)
    {
      assert WriterTracks(disk, s.writers[w], w, Count(s));
      if !s.writers[w].phase.Preparing? { CreationKeepsLinks(disk, x, f, s.writers[w].links, w); }
    }
  }

  lemma CreationKeepsLinks(disk: Disk, x: Name, f: File, links: seq<nat>, w: nat)
    requires LinksBelow(links, f.inode) && !x.MarkerFile? && (x.Member? ==> x !in disk) && (x.Staged? ==> x.writer != w)
    ensures forall k :: AllOwn(disk, links, w, k) ==> AllOwn(disk[x := f], links, w, k)
    ensures forall k, n :: StagedFrom(disk, w, k, n) ==> StagedFrom(disk[x := f], w, k, n)
    ensures forall k, cause, skipped :: Undone(disk, links, w, k, cause, skipped) ==>
      Undone(disk[x := f], links, w, k, cause, skipped)
  {
    var after := disk[x := f];
    forall i: nat
      ensures Own(after, links, i) == Own(disk, links, i) && Twin(after, links, w, i) == Twin(disk, links, w, i)
      ensures forall cause, skipped :: OutOfReach(after, w, cause, skipped, i) == OutOfReach(disk, w, cause, skipped, i)
    {
    }
  }

  lemma SkipTracks(disk: Disk, me: Writer, w: nat, n: nat)
    requires WriterTracks(disk, me, w, n) && CanSkip(me.phase, n)
    ensures me.phase.Invalidated? ==> me.overwrite ==> WriterTracks(disk, me.(phase := AfterSkip(me.phase)), w, n)
    ensures !me.phase.Invalidated? ==> WriterTracks(disk, me.(phase := AfterSkip(me.phase)), w, n)
  {
    hide Own, Twin;
    if me.phase.RollingBack? { UndoTracks(disk, me.links, w, me.phase.k, me.phase.cause, me.phase.skipped); }
  }

  lemma FailTracks(disk: Disk, me: Writer, w: nat, n: nat)
    requires WriterTracks(disk, me, w, n)
    ensures WriterTracks(disk, me.(phase := AfterFailure(me, n)), w, n)
  {
    hide Own, Twin;
  }

  lemma LockTracks(s: System, step: Step, m: Medium)
    requires Inv(s, m) && Tracks(s) && Enabled(s, step, m) && TouchesNoFile(step)
    ensures Tracks(Do(s, step, m))
  {
    hide StoreSafe, WriterTracks, InodesBelow, LinksBelow;
    var t, w := Do(s, step, m), step.w;
    InvParts(s, m);
    assert WriterTracks(s.store.now, s.writers[w], w, Count(s));
    if step.Skip? { SkipTracks(s.store.now, s.writers[w], w, Count(s)); }
    else if step.Fail? { FailTracks(s.store.now, s.writers[w], w, Count(s)); }
    else { OutsideTracks(s.store.now, s.writers[w], w, Count(s)); }
    forall v | 0 <= v < |t.writers| ensures WriterTracks(t.store.now, t.writers[v], v, Count(t)) {
      assert WriterTracks(s.store.now, s.writers[v], v, Count(s));
    }
  }

  lemma OutsideTracks(disk: Disk, me: Writer, w: nat, n: nat)
    requires WriterTracks(disk, me, w, n)
    ensures WriterTracks(disk, me.(phase := Gone), w, n)
    ensures me.phase.Preparing? ==> WriterTracks(disk, me.(phase := Holding), w, n)
  {
  }

  lemma LossTracks(s: System, keep: seq<nat>, m: Medium)
    requires Tracks(s) && Enabled(s, PowerLoss(keep), m)
    ensures Tracks(Do(s, PowerLoss(keep), m))
  {
    hide AllOwn, Undone, StagedFrom, LinksBelow;
    var t, disk := Do(s, PowerLoss(keep), m), Surviving(s.store, keep, m);
    forall x | x in disk ensures disk[x].inode < s.inodes {
      var k := keep[DirectoryOf(s.store, x)];
      assert x in StateAt(s.store, k) && disk[x] == StateAt(s.store, k)[x];
      assert InodesBelow(StateAt(s.store, k), s.inodes);
    }
    forall w | 0 <= w < |t.writers|
      ensures WriterTracks(t.store.now, t.writers[w], w, Count(t)) && LinksBelow(t.writers[w].links, t.inodes)
    {
      assert LinksBelow(s.writers[w].links, s.inodes);
    }
  }

  lemma StepKeepsTracks(s: System, step: Step, m: Medium)
    requires Inv(s, m) && Tracks(s) && Enabled(s, step, m)
    ensures Tracks(Do(s, step, m))
  {
    hide Inv, Tracks, Works, CanFallBack, CanSkip;
    match step
    case Stage(w, i, bytes) => CreationTracks(s, Staged(w, i), bytes);
    case Foreign(i, bytes) => CreationTracks(s, Member(i), bytes);
    case Work(w) => WorkTracks(s, w, m);
    case PowerLoss(keep) => LossTracks(s, keep, m);
    case Sync(d) => FlushTracks(s, d);
    case Acquire(w) => LockTracks(s, step, m);
    case Fail(w) => LockTracks(s, step, m);
    case Skip(w) => LockTracks(s, step, m);
    case Release(w) => LockTracks(s, step, m);
    case Kill(w) => LockTracks(s, step, m);
  }

  lemma FlushTracks(s: System, d: nat)
    requires Tracks(s)
    ensures Tracks(Flushed(s, d))
  {
    hide WriterTracks, InodesBelow, LinksBelow;
  }

  lemma {:induction false} RunKeepsTracks(s: System, steps: seq<Step>, m: Medium)
    requires Inv(s, m) && Tracks(s) && CanRun(s, steps, m)
    ensures Inv(Run(s, steps, m), m) && Tracks(Run(s, steps, m))
    decreases |steps|
  {
    hide Inv, Tracks, Do, Enabled, Careful;
    if steps != [] {
      StepKeepsInv(s, steps[0], m);
      StepKeepsTracks(s, steps[0], m);
      RunKeepsTracks(Do(s, steps[0], m), steps[1..], m);
    }
  }

  /**
   A promotion without overwriting that was rolled back leaves of its own files exactly those out of the rollback's
   reach: where a destination existed or a link failed, those whose removal then failed; besides, the file just linked
   when it was stopped before recording it, and those already unstaged when it was stopped later. What a rollback
   removes are its own files.
   */
  lemma RollbackLeaves(homes: seq<nat>, directories: nat, writers: seq<bool>, steps: seq<Step>, w: nat, m: Medium)
    requires CanStart(homes, directories) && CanRun(Start(homes, directories, writers), steps, m)
    requires w < |Run(Start(homes, directories, writers), steps, m).writers|
    ensures var s := Run(Start(homes, directories, writers), steps, m);
      var phase, links, disk := s.writers[w].phase, s.writers[w].links, s.store.now;
      && (phase.RolledBack? ==>
            forall i :: 0 <= i < |links| ==>
              (Own(disk, links, i) <==> OutOfReach(disk, w, phase.cause, phase.skipped, i)))
      && (phase.RollingBack? && s.holder == Some(w) ==>
            forall x :: x in disk && x !in Works(s, w).store.now ==> x.Member? && Own(disk, links, x.i))
  {
    hide Inv;
    var start := Start(homes, directories, writers);
    StartsSafe(homes, directories, writers, m);
    assert Tracks(start);
    RunKeepsTracks(start, steps, m);
    var s := Run(start, steps, m);
    assert WriterTracks(s.store.now, s.writers[w], w, Count(s));
  }

  /** One writer with one file, right after linking it. */
  function JustLinked(): System {
    var file := File(0, Bytes(7));
    System(Store(map[Staged(0, 0) := file, Member(0) := file], [map[], map[Staged(0, 0) := file]], [0], [0]), Some(0),
           [Writer(false, Recording(0), [0])], 1)
  }

  function JustStaged(): System {
    System(Store(map[Staged(0, 0) := File(0, Bytes(7))], [map[]], [0], [0]), Some(0), [Writer(false, Holding, [])], 1)
  }

  lemma JustStagedReached(m: Medium)
    ensures var s := Start([0], 1, [false]);
      && Enabled(s, Stage(0, 0, 7), m) && Enabled(Do(s, Stage(0, 0, 7), m), Acquire(0), m)
      && Do(Do(s, Stage(0, 0, 7), m), Acquire(0), m) == JustStaged()
  {
    var s := Start([0], 1, [false]);
    assert s.store.froms == [0] && s.writers == [Writer(false, Preparing, [])];
    var t := Do(Do(s, Stage(0, 0, 7), m), Acquire(0), m);
    assert t.writers == JustStaged().writers && t.store == JustStaged().store;
  }

  lemma LinkingReached(m: Medium)
    ensures var s := Do(JustStaged(), Work(0), m);
      Enabled(s, Work(0), m) && Do(s, Work(0), m) == JustLinked()
  {
    var s := Do(JustStaged(), Work(0), m);
    assert s.writers == [Writer(false, Promoting(0), [])];
    var t := Do(s, Work(0), m);
    assert t.writers[0].links == [0];
    assert t.writers == JustLinked().writers && t.store == JustLinked().store;
  }

  lemma JustLinkedReached(m: Medium)
    ensures var steps := [Stage(0, 0, 7), Acquire(0), Work(0), Work(0)];
      var s := Start([0], 1, [false]);
      CanRun(s, steps, m) && Run(s, steps, m) == JustLinked()
  {
    hide Do, Enabled, Careful;
    JustStagedReached(m);
    LinkingReached(m);
    assert JustStaged().writers[0].overwrite == false && Enabled(JustStaged(), Work(0), m) by { WorkFollows(m); }
    var s0 := Start([0], 1, [false]);
    var s1, s2 := Do(s0, Stage(0, 0, 7), m), JustStaged();
    var s3 := Do(s2, Work(0), m);
    assert s3.writers[0].phase == Promoting(0) by { WorkFollows(m); }
    var t1, t2, t3 := [Acquire(0), Work(0), Work(0)], [Work(0), Work(0)], [Work(0)];
    assert [Stage(0, 0, 7), Acquire(0), Work(0), Work(0)][1..] == t1 && t1[1..] == t2 && t2[1..] == t3 && t3[1..] == [];
    assert CanRun(s3, t3, m) && Run(s3, t3, m) == JustLinked();
    assert CanRun(s2, t2, m) && Run(s2, t2, m) == JustLinked();
    assert CanRun(s1, t1, m) && Run(s1, t1, m) == JustLinked();
  }

  lemma WorkFollows(m: Medium)
    ensures Enabled(JustStaged(), Work(0), m) && Do(JustStaged(), Work(0), m).writers[0].phase == Promoting(0)
  {
  }

  /** Stopped there, before the link is recorded, the writer ends rolled back and its file stays. */
  lemma UnrecordedLinkStays(m: Medium)
    ensures var s := Do(Do(JustLinked(), Fail(0), m), Work(0), m);
      s.writers[0].phase == RolledBack(AfterLink(0), {}) && Own(s.store.now, s.writers[0].links, 0)
  {
  }

  /** Right after its staging name went. */
  function JustUnstaged(): System {
    var before := JustLinked().store.now;
    JustLinked().(
      store := Store(map[Member(0) := File(0, Bytes(7))], JustLinked().store.past + [before], [0], [2]),
      writers := [Writer(false, Unstaging(1), [0])])
  }

  lemma JustUnstagedReached(m: Medium)
    ensures var promoted := Do(JustLinked(), Work(0), m);
      && promoted.writers[0].phase == Promoting(1) && Do(promoted, Work(0), m).writers[0].phase == Unstaging(0)
      && Do(Do(promoted, Work(0), m), Work(0), m) == JustUnstaged()
  {
    var promoted := Do(JustLinked(), Work(0), m);
    assert promoted.writers == [Writer(false, Promoting(1), [0])] && promoted.store.froms == [2];
    var unstaging := Do(promoted, Work(0), m);
    assert unstaging.writers == [Writer(false, Unstaging(0), [0])];
    var t := Do(unstaging, Work(0), m);
    assert t.writers == JustUnstaged().writers && t.store.now == JustUnstaged().store.now;
  }

  /** Stopped there, likewise. */
  lemma UnstagedLinkStays(m: Medium)
    ensures var s := Do(Do(Do(JustUnstaged(), Fail(0), m), Work(0), m), Work(0), m);
      s.writers[0].phase == RolledBack(WhileUnstaging(1), {}) && Own(s.store.now, s.writers[0].links, 0)
  {
  }

  /** Stopped with the link recorded, and its removal fails: likewise. */
  lemma SkippedUnlinkStays(m: Medium)
    ensures var recorded := Do(JustLinked(), Work(0), m);
      var s := Do(Do(Do(recorded, Fail(0), m), Skip(0), m), Work(0), m);
      s.writers[0].phase == RolledBack(AtLink(1), {0}) && Own(s.store.now, s.writers[0].links, 0)
  {
    assert {} + {0} == {0};
  }

  // ---------------------------------------------------------------- what an overwriting promotion leaves behind

  /** How many members an overwriting writer has renamed into place. */
  function Renamed(phase: Phase, n: nat): nat {
    match phase
    case Promoting(k) => k
    case Recording(k) => k + 1
    case Hashing(_) => n
    case Publishing(_) => n
    case Published => n
    case _ => 0
  }

  predicate Unstaged(disk: Disk, w: nat, k: nat) {
    forall i :: 0 <= i < k ==> Staged(w, i) !in disk
  }

  /** A member in place is no longer staged, and an overwriting writer removes no staged file. */
  predicate Renames(s: System) {
    forall w :: 0 <= w < |s.writers| && s.writers[w].overwrite ==>
      !s.writers[w].phase.Unstaging? && Unstaged(s.store.now, w, Renamed(s.writers[w].phase, Count(s)))
  }

  /** The writer at work renames its own staged files, and touches nobody else's. */
  lemma OwnWorkRenames(s: System, w: nat)
    requires w < |s.writers| && !s.writers[w].phase.Unstaging? && s.writers[w].overwrite
    requires Unstaged(s.store.now, w, Renamed(s.writers[w].phase, Count(s)))
    ensures var t := Works(s, w);
      !t.writers[w].phase.Unstaging? && Unstaged(t.store.now, w, Renamed(t.writers[w].phase, Count(t)))
  {
  }

  predicate NothingNewStaged(a: Disk, b: Disk) {
    forall x :: x in b && x.Staged? ==> x in a
  }

  /** Writer `w` worked; the others are as they were. */
  predicate OnlyMoved(s: System, t: System, w: nat)
    requires w < |s.writers|
  {
    && |t.writers| == |s.writers| && Count(t) == Count(s) && t.writers == s.writers[w := t.writers[w]]
    && t.writers[w].overwrite == s.writers[w].overwrite && NothingNewStaged(s.store.now, t.store.now)
  }

  lemma PromoteMovesOnly(s: System, w: nat, k: nat)
    requires w < |s.writers|
    ensures OnlyMoved(s, Promote(s, w, k), w)
  {
  }

  lemma UndoMovesOnly(s: System, w: nat, k: nat, cause: Interrupt, skipped: set<nat>)
    requires w < |s.writers|
    ensures OnlyMoved(s, Undo(s, w, k, cause, skipped), w)
  {
  }

  lemma WorkMovesOnly(s: System, w: nat)
    requires w < |s.writers|
    ensures OnlyMoved(s, Works(s, w), w)
  {
    hide Promote, Undo, AnyMember;
    match s.writers[w].phase
    case Promoting(k) => PromoteMovesOnly(s, w, k);
    case RollingBack(k, cause, skipped) => UndoMovesOnly(s, w, k, cause, skipped);
    case _ =>
  }

  lemma WorkRenames(s: System, w: nat)
    requires Renames(s) && w < |s.writers|
    ensures Renames(Works(s, w))
  {
    hide Works, Renamed;
    var t := Works(s, w);
    WorkMovesOnly(s, w);
    if s.writers[w].overwrite { OwnWorkRenames(s, w); }
    forall v | 0 <= v < |t.writers| && t.writers[v].overwrite
      ensures !t.writers[v].phase.Unstaging? && Unstaged(t.store.now, v, Renamed(t.writers[v].phase, Count(t)))
    {
      assert s.writers[v].overwrite && Unstaged(s.store.now, v, Renamed(s.writers[v].phase, Count(s)));
    }
  }

  lemma StepRenames(s: System, step: Step, m: Medium)
    requires Renames(s) && Enabled(s, step, m)
    ensures Renames(Do(s, step, m))
  {
    hide CanFallBack, Surviving, AllStaged, Works;
    if step.Work? {
      WorkRenames(s, step.w);
    } else {
      var t := Do(s, step, m);
      forall v | 0 <= v < |t.writers| && t.writers[v].overwrite
        ensures !t.writers[v].phase.Unstaging? && Unstaged(t.store.now, v, Renamed(t.writers[v].phase, Count(t)))
      {
        assert s.writers[v].overwrite && Unstaged(s.store.now, v, Renamed(s.writers[v].phase, Count(s)));
      }
    }
  }

  lemma {:induction false} RunRenames(s: System, steps: seq<Step>, m: Medium)
    requires Renames(s) && CanRun(s, steps, m)
    ensures Renames(Run(s, steps, m))
    decreases |steps|
  {
    hide Renames, Do, Enabled, Careful;
    if steps != [] {
      StepRenames(s, steps[0], m);
      RunRenames(Do(s, steps[0], m), steps[1..], m);
    }
  }

  /** Whoever else runs and whatever is lost, an overwriting writer that has published left no staged file. */
  lemma PublishedLeavesNothingStaged(homes: seq<nat>, directories: nat, writers: seq<bool>, steps: seq<Step>, m: Medium,
      w: nat, i: nat)
    requires CanRun(Start(homes, directories, writers), steps, m)
    requires var s := Run(Start(homes, directories, writers), steps, m);
      w < |s.writers| && s.writers[w].overwrite && s.writers[w].phase.Published? && i < Count(s)
    ensures Staged(w, i) !in Run(Start(homes, directories, writers), steps, m).store.now
  {
    hide CanRun, Run;
    RunRenames(Start(homes, directories, writers), steps, m);
  }
}
