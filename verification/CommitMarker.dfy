/**
 The bundle commit marker: writers that share a marker's lock replace its members and publish the marker last.
 Kills and power losses may strike between any two operations. Members may live in other directories than the marker;
 on an `Ordered` medium operations reach the disk in order across all of them, on an `Independent` one each directory
 falls back by itself to a state since its last sync.
 */
module CommitMarker {
  import opened Envelopes
  import opened Media

  /** Staging files belong to their writer; everything else is shared. */
  datatype Name = MarkerFile | Member(i: nat) | Staged(writer: nat, i: nat)

  /** A hash stands for the bytes it is the hash of. */
  datatype Content = Bytes(bytes: int) | Hashes(members: seq<int>)

  /** Hard links of one file share its inode. */
  datatype File = File(inode: nat, content: Content)

  type Disk = map<Name, File>

  // ---------------------------------------------------------------- verification

  predicate MemberMatches(disk: Disk, i: nat, digest: int) {
    Member(i) in disk && disk[Member(i)].content == Bytes(digest)
  }

  predicate Verifies(disk: Disk, n: nat) {
    && MarkerFile in disk && disk[MarkerFile].content.Hashes? && |disk[MarkerFile].content.members| == n > 0
    && forall i :: 0 <= i < n ==> MemberMatches(disk, i, disk[MarkerFile].content.members[i])
  }

  /** Check every member the marker lists against its hash. */
  method VerifyArtifactCompletion(disk: Disk, n: nat) returns (ok: bool)
    ensures ok <==> Verifies(disk, n)
  {
    if MarkerFile !in disk || !disk[MarkerFile].content.Hashes? || |disk[MarkerFile].content.members| != n || n == 0 {
      return false;
    }
    var members := disk[MarkerFile].content.members;
    for i := 0 to n
      invariant forall j :: 0 <= j < i ==> MemberMatches(disk, j, members[j])
    {
      if Member(i) !in disk || disk[Member(i)].content != Bytes(members[i]) {
        assert !MemberMatches(disk, i, members[i]);
        return false;
      }
    }
    return true;
  }

  // ---------------------------------------------------------------- promotion without overwriting

  predicate SameFile(disk: Disk, a: Name, b: Name) {
    a in disk && b in disk && disk[a].inode == disk[b].inode
  }

  /** `disk` with the first `k` staged files linked to their destinations. */
  function Linked(disk: Disk, writer: nat, k: nat): Disk
    requires forall i :: 0 <= i < k ==> Staged(writer, i) in disk
  {
    if k == 0 then disk else Linked(disk, writer, k - 1)[Member(k - 1) := disk[Staged(writer, k - 1)]]
  }

  lemma {:induction false} LinkedAt(disk: Disk, writer: nat, k: nat, x: Name)
    requires forall i :: 0 <= i < k ==> Staged(writer, i) in disk
    ensures x in Linked(disk, writer, k) <==> x in disk || (x.Member? && x.i < k)
    ensures x in Linked(disk, writer, k) ==>
      Linked(disk, writer, k)[x] == if x.Member? && x.i < k then disk[Staged(writer, x.i)] else disk[x]
  {
    if k > 0 { LinkedAt(disk, writer, k - 1, x); }
  }

  lemma LinkedNames(disk: Disk, writer: nat, k: nat)
    requires forall i :: 0 <= i < k ==> Staged(writer, i) in disk
    ensures var d := Linked(disk, writer, k);
      && (forall i :: 0 <= i < k ==> Member(i) in d && d[Member(i)] == disk[Staged(writer, i)])
      && (forall x :: x in d <==> x in disk || (x.Member? && x.i < k))
      && forall x :: x in disk && !(x.Member? && x.i < k) ==> d[x] == disk[x]
  {
    hide Linked;
    forall x: Name
      ensures x in Linked(disk, writer, k) <==> x in disk || (x.Member? && x.i < k)
      ensures x in Linked(disk, writer, k) ==>
        Linked(disk, writer, k)[x] == if x.Member? && x.i < k then disk[Staged(writer, x.i)] else disk[x]
    {
      LinkedAt(disk, writer, k, x);
    }
  }

  lemma UnlinkOne(disk: Disk, writer: nat, i: nat)
    requires forall j :: 0 <= j <= i ==> Staged(writer, j) in disk && Member(j) !in disk
    ensures SameFile(Linked(disk, writer, i + 1), Staged(writer, i), Member(i))
    ensures Linked(disk, writer, i + 1) - {Member(i)} == Linked(disk, writer, i)
  {
    LinkedNames(disk, writer, i);
  }

  /** Undo the links recorded, the last one first. */
  method UnlinkPromoted(ghost before: Disk, linked: Disk, writer: nat, recorded: seq<nat>) returns (disk: Disk)
    requires forall j :: 0 <= j < |recorded| ==> recorded[j] == j && Staged(writer, j) in before && Member(j) !in before
    requires linked == Linked(before, writer, |recorded|)
    ensures disk == before
  {
    disk := linked;
    var promoted := recorded;
    while promoted != []
      invariant |promoted| <= |recorded| && forall j :: 0 <= j < |promoted| ==> promoted[j] == j
      invariant disk == Linked(before, writer, |promoted|)
      decreases |promoted|
    {
      var i := promoted[|promoted| - 1];
      UnlinkOne(before, writer, i);
      if SameFile(disk, Staged(writer, i), Member(i)) { disk := disk - {Member(i)}; }
      promoted := promoted[..|promoted| - 1];
    }
  }

  method RemoveStaged(linked: Disk, writer: nat, n: nat) returns (disk: Disk)
    ensures forall x :: x in disk <==> x in linked && !(x.Staged? && x.writer == writer && x.i < n)
    ensures forall x :: x in disk ==> disk[x] == linked[x]
  {
    disk := linked;
    for i := 0 to n
      invariant forall x :: x in disk <==> x in linked && !(x.Staged? && x.writer == writer && x.i < i)
      invariant forall x :: x in disk ==> disk[x] == linked[x]
    {
      disk := disk - {Staged(writer, i)};
    }
  }

  /**
   Link every staged file to its destination. When a destination turns out to exist, unlink what was linked, in
   reverse: the disk is as it was. Otherwise the staged names go and the files are published.
   */
  method PromoteWithoutOverwrite(before: Disk, writer: nat, n: nat) returns (disk: Disk, ok: bool)
    requires forall i :: 0 <= i < n ==> Staged(writer, i) in before
    ensures ok <==> forall i :: 0 <= i < n ==> Member(i) !in before
    ensures !ok ==> disk == before
    ensures ok ==> forall i :: 0 <= i < n ==> Member(i) in disk && disk[Member(i)] == before[Staged(writer, i)]
    ensures ok ==> forall x :: x in disk <==>
      (x in before || (x.Member? && x.i < n)) && !(x.Staged? && x.writer == writer && x.i < n)
  {
    hide Linked;
    disk := before;
    LinkedNames(before, writer, 0);
    assert Linked(before, writer, 0) == before;
    var promoted: seq<nat> := [];
    var k := 0;
    while k < n
      invariant 0 <= k <= n && |promoted| == k && forall j :: 0 <= j < k ==> promoted[j] == j
      invariant forall i :: 0 <= i < k ==> Member(i) !in before
      invariant disk == Linked(before, writer, k)
    {
      LinkedNames(before, writer, k);
      if Member(k) in disk {
        disk := UnlinkPromoted(before, disk, writer, promoted);
        return disk, false;
      }
      LinkOneMore(before, writer, k);
      disk := disk[Member(k) := disk[Staged(writer, k)]];
      promoted := promoted + [k];
      k := k + 1;
    }
    LinkedNames(before, writer, n);
    disk := RemoveStaged(disk, writer, n);
    ok := true;
  }

  lemma LinkOneMore(disk: Disk, writer: nat, k: nat)
    requires forall i :: 0 <= i <= k ==> Staged(writer, i) in disk
    ensures Linked(disk, writer, k + 1) == Linked(disk, writer, k)[Member(k) := disk[Staged(writer, k)]]
  {
  }

  // ---------------------------------------------------------------- the disk and what a power loss leaves of it

  /**
   Directory 0 is the marker's; member `i` and its staging files live in directory `homes[i]`. `past` are the states
   before each operation, and directory `d` is durable as of state `froms[d]`.
   */
  datatype Store = Store(now: Disk, past: seq<Disk>, homes: seq<nat>, froms: seq<nat>)

  function Wrote(st: Store, disk: Disk): Store {
    st.(now := disk, past := st.past + [st.now])
  }

  function StateAt(st: Store, t: nat): Disk
    requires t <= |st.past|
  {
    if t < |st.past| then st.past[t] else st.now
  }

  predicate WellFormed(st: Store) {
    && 0 < |st.homes| && 0 < |st.froms| && (forall i :: 0 <= i < |st.homes| ==> st.homes[i] < |st.froms|)
    && forall d :: 0 <= d < |st.froms| ==> st.froms[d] <= |st.past|
  }

  function Synced(st: Store, d: nat): Store
    requires d < |st.froms|
  {
    st.(froms := st.froms[d := |st.past|])
  }

  function DirectoryOf(st: Store, x: Name): nat {
    match x
    case MarkerFile => 0
    case Member(i) => if i < |st.homes| then st.homes[i] else 0
    case Staged(_, i) => if i < |st.homes| then st.homes[i] else 0
  }

  /** The state each directory falls back to; on an ordered medium all to the same. */
  predicate CanFallBack(st: Store, keep: seq<nat>, m: Medium) {
    && |keep| == |st.froms| && (forall d :: 0 <= d < |keep| ==> st.froms[d] <= keep[d] <= |st.past|)
    && (m.Ordered? ==> forall d :: 0 <= d < |keep| ==> keep[d] == keep[0])
  }

  function Names(st: Store): set<Name> {
    set t, x | 0 <= t <= |st.past| && x in StateAt(st, t) :: x
  }

  function Surviving(st: Store, keep: seq<nat>, m: Medium): Disk
    requires WellFormed(st) && CanFallBack(st, keep, m)
  {
    map x | x in Names(st) && x in StateAt(st, keep[DirectoryOf(st, x)]) :: StateAt(st, keep[DirectoryOf(st, x)])[x]
  }

  // ---------------------------------------------------------------- writers, kills and power losses

  /** Where a promotion without overwriting was stopped. */
  datatype Interrupt = AtLink(k: nat) | AfterLink(k: nat) | WhileUnstaging(k: nat)

  datatype Phase =
    | Preparing                        // staging, outside the lock
    | Holding                          // the lock is held, nothing touched yet
    | Invalidated                      // the marker is removed, its directory not yet synced
    | Promoting(k: nat)
    | Recording(k: nat)                // destination `k` is in place, not yet synced nor on the rollback list
    | RollingBack(k: nat, cause: Interrupt, skipped: set<nat>)  // the first `k` recorded links are still to be undone
    | RolledBack(cause: Interrupt, skipped: set<nat>)
    | Unstaging(k: nat)
    | Hashing(digests: seq<int>)
    | Publishing(digests: seq<int>)
    | Published
    | Failed
    | Gone                             // finished or killed; a later run is another writer

  /** `links` are the inodes of the files it linked, destination by destination. */
  datatype Writer = Writer(overwrite: bool, phase: Phase, links: seq<nat>)

  datatype System = System(store: Store, holder: Option<nat>, writers: seq<Writer>, inodes: nat)

  function Count(s: System): nat { |s.store.homes| }

  datatype Step =
    | Stage(w: nat, i: nat, bytes: int)
    | Acquire(w: nat)
    | Work(w: nat)
    | Fail(w: nat)                     // an exception inside the lock
    | Skip(w: nat)                     // a failure the code ignores: of a sync, or of an unlink while cleaning up
    | Release(w: nat)
    | Kill(w: nat)
    | Foreign(i: nat, bytes: int)      // another program creates a member that was not there
    | Sync(d: nat)                     // a directory reaches the medium
    | PowerLoss(keep: seq<nat>)

  function With(s: System, disk: Disk): System { s.(store := Wrote(s.store, disk)) }

  function At(s: System, w: nat, phase: Phase): System
    requires w < |s.writers|
  {
    s.(writers := s.writers[w := s.writers[w].(phase := phase)])
  }

  predicate AllStaged(s: System, w: nat) { forall i :: 0 <= i < Count(s) ==> Staged(w, i) in s.store.now }

  predicate AnyMember(s: System) { exists i :: 0 <= i < Count(s) && Member(i) in s.store.now }

  /** The failures the code ignores. */
  predicate CanSkip(phase: Phase, n: nat) {
    || phase.Invalidated? || (phase.Recording? && phase.k < n) || (phase.Unstaging? && phase.k < n)
    || (phase.RollingBack? && phase.k > 0)
  }

  predicate Enabled(s: System, step: Step, m: Medium) {
    match step
    case Stage(w, i, _) => w < |s.writers| && s.writers[w].phase.Preparing? && i < Count(s)
    case Acquire(w) => w < |s.writers| && s.writers[w].phase.Preparing? && s.holder.None? && AllStaged(s, w)
    case Work(w) => w < |s.writers| && s.holder == Some(w) && !Settled(s.writers[w].phase)
    case Fail(w) => w < |s.writers| && s.holder == Some(w) && !Settled(s.writers[w].phase)
    case Skip(w) => w < |s.writers| && s.holder == Some(w) && CanSkip(s.writers[w].phase, Count(s))
    case Release(w) => w < |s.writers| && s.holder == Some(w) && Settled(s.writers[w].phase)
    case Kill(w) => w < |s.writers|
    case Foreign(i, _) => Member(i) !in s.store.now
    case Sync(d) => d < |s.store.froms|
    case PowerLoss(keep) => WellFormed(s.store) && CanFallBack(s.store, keep, m)
  }

  predicate Settled(phase: Phase) { phase.RolledBack? || phase.Published? || phase.Failed? }

  function Link(s: System, w: nat, k: nat): System
    requires w < |s.writers| && Staged(w, k) in s.store.now
  {
    var file, me := s.store.now[Staged(w, k)], s.writers[w];
    With(s, s.store.now[Member(k) := file]).(
      writers := s.writers[w := me.(phase := Recording(k), links := me.links + [file.inode])])
  }

  /** Publish one member: by renaming over it, or by linking where nothing is. */
  function Promote(s: System, w: nat, k: nat): System
    requires w < |s.writers|
  {
    var disk, me := s.store.now, s.writers[w];
    if k >= Count(s) then At(s, w, if me.overwrite then Hashing([]) else Unstaging(0))
    else if Staged(w, k) !in disk then At(s, w, if me.overwrite then Failed else RollingBack(k, AtLink(k), {}))
    else if me.overwrite then
      At(With(s, disk[Member(k) := disk[Staged(w, k)]] - {Staged(w, k)}), w, Recording(k))
    else if Member(k) in disk then At(s, w, RollingBack(k, AtLink(k), {}))
    else Link(s, w, k)
  }

  function Undo(s: System, w: nat, k: nat, cause: Interrupt, skipped: set<nat>): System
    requires w < |s.writers|
  {
    if k == 0 then At(s, w, RolledBack(cause, skipped))
    else if SameFile(s.store.now, Staged(w, k - 1), Member(k - 1))
      then At(With(s, s.store.now - {Member(k - 1)}), w, RollingBack(k - 1, cause, skipped))
    else At(s, w, RollingBack(k - 1, cause, skipped))
  }

  function HashNext(s: System, w: nat, digests: seq<int>): System
    requires w < |s.writers|
  {
    var i, disk := |digests|, s.store.now;
    if i >= Count(s) then At(s, w, Publishing(digests))
    else if Member(i) !in disk || !disk[Member(i)].content.Bytes? then At(s, w, Failed)
    else At(s, w, Hashing(digests + [disk[Member(i)].content.bytes]))
  }

  /** A directory the program syncs itself. */
  function Flushed(s: System, d: nat): System {
    if d < |s.store.froms| then s.(store := Synced(s.store, d)) else s
  }

  function Works(s: System, w: nat): System
    requires w < |s.writers|
  {
    match s.writers[w].phase
    case Holding =>
      if s.writers[w].overwrite then
        if MarkerFile in s.store.now then At(With(s, s.store.now - {MarkerFile}), w, Invalidated)
        else At(s, w, Promoting(0))
      else if AnyMember(s) then At(s, w, Failed)
      else At(s, w, Promoting(0))
    case Invalidated => At(Flushed(s, 0), w, Promoting(0))
    case Promoting(k) => Promote(s, w, k)
    case Recording(k) => At(Flushed(s, DirectoryOf(s.store, Member(k))), w, Promoting(k + 1))
    case RollingBack(k, cause, skipped) => Undo(s, w, k, cause, skipped)
    case Unstaging(k) =>
      if k >= Count(s) then At(s, w, Hashing([]))
      else At(With(s, s.store.now - {Staged(w, k)}), w, Unstaging(k + 1))
    case Hashing(digests) => HashNext(s, w, digests)
    case Publishing(digests) =>
      if MarkerFile in s.store.now then At(s, w, Failed)
      else
        At(With(s, s.store.now[MarkerFile := File(s.inodes, Hashes(digests))]).(inodes := s.inodes + 1), w, Published)
    case _ => s
  }

  /** The rollback covers what is recorded; an overwriting promotion has none. */
  function AfterFailure(me: Writer, n: nat): Phase {
    match me.phase
    case Promoting(k) => if me.overwrite then Failed else RollingBack(k, AtLink(k), {})
    case Recording(k) => if me.overwrite then Failed else RollingBack(k, AfterLink(k), {})
    case Unstaging(k) => RollingBack(n, WhileUnstaging(k), {})
    case _ => Failed
  }

  function AfterSkip(phase: Phase): Phase {
    match phase
    case Invalidated => Promoting(0)
    case Recording(k) => Promoting(k + 1)
    case Unstaging(k) => Unstaging(k + 1)
    case RollingBack(k, cause, skipped) => if k == 0 then phase else RollingBack(k - 1, cause, skipped + {k - 1})
    case _ => phase
  }

  function Do(s: System, step: Step, m: Medium): System
    requires Enabled(s, step, m)
  {
    match step
    case Stage(w, i, bytes) => Created(s, Staged(w, i), bytes)
    case Acquire(w) => At(s, w, Holding).(holder := Some(w))
    case Work(w) => Works(s, w)
    case Fail(w) => At(s, w, AfterFailure(s.writers[w], Count(s)))
    case Skip(w) => At(s, w, AfterSkip(s.writers[w].phase))
    case Release(w) => At(s, w, Gone).(holder := None)
    case Kill(w) => At(s, w, Gone).(holder := if s.holder == Some(w) then None else s.holder)
    case Foreign(i, bytes) => Created(s, Member(i), bytes)
    case Sync(d) => Flushed(s, d)
    case PowerLoss(keep) =>
      s.(store := Store(Surviving(s.store, keep, m), [], s.store.homes, seq(|s.store.froms|, _ => 0)), holder := None,
         writers := seq(|s.writers|, i requires 0 <= i < |s.writers| => s.writers[i].(phase := Gone)))
  }

  /** A new file with a new inode. */
  function Created(s: System, x: Name, bytes: int): System {
    With(s, s.store.now[x := File(s.inodes, Bytes(bytes))]).(inodes := s.inodes + 1)
  }

  function Start(homes: seq<nat>, directories: nat, writers: seq<bool>): System {
    System(Store(map[], [], homes, seq(directories, _ => 0)), None,
           seq(|writers|, i requires 0 <= i < |writers| => Writer(writers[i], Preparing, [])), 0)
  }

  // ---------------------------------------------------------------- what every step keeps

  /** The promise to readers. */
  predicate MarkerSafe(disk: Disk, n: nat) { MarkerFile in disk ==> Verifies(disk, n) }

  /** A state of the marker's directory that may come back. */
  predicate MayReturn(st: Store, t: nat, m: Medium)
    requires WellFormed(st)
  {
    t <= |st.past| && (m.Ordered? || st.froms[0] <= t)
  }

  /** A state of member `i`'s directory that may come back together with state `j` of the marker's. */
  predicate Together(st: Store, i: nat, j: nat, t: nat, m: Medium)
    requires WellFormed(st) && i < |st.homes|
  {
    if m.Ordered? || st.homes[i] == 0 then t == j else st.froms[st.homes[i]] <= t <= |st.past|
  }

  /** Whatever comes back of the members, the marker in state `j` lists their hashes. */
  predicate MarkerKept(st: Store, j: nat, m: Medium)
    requires WellFormed(st) && j <= |st.past|
  {
    MarkerFile in StateAt(st, j) ==>
      && StateAt(st, j)[MarkerFile].content.Hashes?
      && |StateAt(st, j)[MarkerFile].content.members| == |st.homes|
      && forall i, t :: 0 <= i < |st.homes| && 0 <= t <= |st.past| && Together(st, i, j, t, m) ==>
           MemberMatches(StateAt(st, t), i, StateAt(st, j)[MarkerFile].content.members[i])
  }

  predicate MembersPresent(st: Store) {
    forall i :: 0 <= i < |st.homes| ==> Member(i) in st.now
  }

  /** No state of the marker's directory that may come back has a marker; in order, the visible one suffices. */
  predicate NoMarker(st: Store, m: Medium)
    requires WellFormed(st)
  {
    MarkerFile !in st.now
    && (m.Independent? ==> forall j :: 0 <= j <= |st.past| && MayReturn(st, j, m) ==> MarkerFile !in StateAt(st, j))
  }

  predicate StoreSafe(st: Store, m: Medium) {
    && WellFormed(st)
    && (forall j :: 0 <= j <= |st.past| && MayReturn(st, j, m) ==> MarkerKept(st, j, m))
    && (NoMarker(st, m) || MembersPresent(st))
  }

  /** The first `k` members are the same in every state that may come back. */
  predicate Durable(st: Store, k: nat, m: Medium)
    requires WellFormed(st) && k <= |st.homes|
  {
    && (forall i :: 0 <= i < k ==> Member(i) in st.now)
    && (m.Independent? ==>
          forall i, t :: 0 <= i < k && st.froms[st.homes[i]] <= t <= |st.past| ==>
            SameMember(StateAt(st, t), st.now, i))
  }

  predicate SameMember(a: Disk, b: Disk, i: nat) {
    Member(i) in a && Member(i) in b && a[Member(i)] == b[Member(i)]
  }

  predicate Hashed(disk: Disk, n: nat, digests: seq<int>) {
    |digests| <= n && forall i :: 0 <= i < |digests| ==> MemberMatches(disk, i, digests[i])
  }

  /** Before the first member is replaced: no marker can come back, or that member goes with the marker's directory. */
  predicate CanBegin(st: Store, m: Medium)
    requires WellFormed(st)
  {
    NoMarker(st, m) || (MarkerFile !in st.now && st.homes[0] == 0)
  }

  /** What the lock's holder can rely on. */
  predicate HolderSafe(st: Store, me: Writer, m: Medium)
    requires WellFormed(st)
  {
    var n := |st.homes|;
    match me.phase
    case Holding => true
    case Invalidated => me.overwrite && MarkerFile !in st.now
    case Promoting(k) =>
      && k <= n && Durable(st, k, m)
      && (k > 0 ==> NoMarker(st, m)) && (k == 0 && me.overwrite ==> CanBegin(st, m))
    case Recording(k) =>
      && k < n && Durable(st, k, m) && Member(k) in st.now
      && (NoMarker(st, m) || (me.overwrite && k == 0 && CanBegin(st, m)))
    case RollingBack(k, _, _) => k <= n && !me.overwrite && (k > 0 ==> NoMarker(st, m))
    case RolledBack(_, _) => !me.overwrite
    case Unstaging(k) => k <= n && !me.overwrite && NoMarker(st, m) && Durable(st, n, m)
    case Hashing(digests) => NoMarker(st, m) && Durable(st, n, m) && Hashed(st.now, n, digests)
    case Publishing(digests) =>
      NoMarker(st, m) && Durable(st, n, m) && Hashed(st.now, n, digests) && |digests| == n
    case Published => true
    case Failed => true
    case Preparing => false
    case Gone => false
  }

  predicate Outside(phase: Phase) { phase.Preparing? || phase.Gone? }

  /** Only the holder is inside the protocol. */
  predicate LockHeld(s: System, m: Medium)
    requires WellFormed(s.store)
  {
    && (forall w :: 0 <= w < |s.writers| && s.holder != Some(w) ==> Outside(s.writers[w].phase))
    && (s.holder.Some? ==>
          s.holder.value < |s.writers| && HolderSafe(s.store, s.writers[s.holder.value], m))
  }

  predicate Inv(s: System, m: Medium) {
    StoreSafe(s.store, m) && LockHeld(s, m)
  }

  /**
   What an overwriting writer must find on a medium whose directories fall back independently: the marker itself, or
   no state of its directory with a marker, or its first member in that directory.
   */
  predicate Careful(s: System)
    requires WellFormed(s.store)
  {
    MarkerFile in s.store.now || NoMarker(s.store, Independent) || s.store.homes[0] == 0
  }

  /** The steps that keep the promise: in order all, independently those of careful writers whose syncs succeed. */
  predicate Allowed(s: System, step: Step, m: Medium) {
    && Enabled(s, step, m)
    && (m.Independent? && step.Skip? ==> !s.writers[step.w].phase.Invalidated? && !s.writers[step.w].phase.Recording?)
    && (m.Independent? && step.Work? && s.writers[step.w].phase.Holding? && s.writers[step.w].overwrite ==>
          WellFormed(s.store) && Careful(s))
  }

  // ---------------------------------------------------------------- one write

  /** What a write leaves of the members and the marker: nothing changed for readers. */
  predicate SameForReaders(a: Disk, b: Disk, n: nat) {
    && (MarkerFile in a <==> MarkerFile in b) && (MarkerFile in a ==> a[MarkerFile] == b[MarkerFile])
    && forall i :: 0 <= i < n ==>
         (Member(i) in a <==> Member(i) in b) && (Member(i) in a ==> a[Member(i)] == b[Member(i)])
  }

  lemma StatesKept(st: Store, disk: Disk)
    ensures var q := Wrote(st, disk);
      && |q.past| == |st.past| + 1 && StateAt(q, |q.past|) == disk && StateAt(st, |st.past|) == st.now
      && forall t :: 0 <= t <= |st.past| ==> StateAt(q, t) == StateAt(st, t)
  {
  }

  lemma QuietWrite(st: Store, disk: Disk, m: Medium)
    requires StoreSafe(st, m) && SameForReaders(disk, st.now, |st.homes|)
    ensures var q := Wrote(st, disk);
      && StoreSafe(q, m) && (NoMarker(st, m) ==> NoMarker(q, m))
      && forall k :: 0 <= k <= |st.homes| && Durable(st, k, m) ==> Durable(q, k, m)
  {
    StatesKept(st, disk);
    var q := Wrote(st, disk);
    forall j | 0 <= j <= |q.past| && MayReturn(q, j, m) ensures MarkerKept(q, j, m) {
      var known := if j <= |st.past| then j else |st.past|;
      assert MarkerKept(st, known, m);
      forall i, t | MarkerFile in StateAt(q, j) && 0 <= i < |st.homes| && 0 <= t <= |q.past| && Together(q, i, j, t, m)
        ensures MemberMatches(StateAt(q, t), i, StateAt(q, j)[MarkerFile].content.members[i])
      {
        var before := if t <= |st.past| then t else |st.past|;
        assert Together(st, i, known, before, m);
      }
    }
  }

  /** While no marker can come back members may change. */
  lemma UnmarkedWrite(st: Store, disk: Disk, m: Medium)
    requires StoreSafe(st, m) && NoMarker(st, m) && MarkerFile !in disk
    ensures var q := Wrote(st, disk);
      StoreSafe(q, m) && NoMarker(q, m)
  {
    hide MemberMatches;
    StatesKept(st, disk);
    var q := Wrote(st, disk);
    forall j | 0 <= j <= |q.past| && MayReturn(q, j, m) ensures MarkerKept(q, j, m) {
      if j <= |st.past| {
        assert MarkerKept(st, j, m);
        assert m.Independent? ==> MarkerFile !in StateAt(st, j);
      }
    }
  }

  /** Members a write does not touch stay durable. */
  lemma DurableWrite(st: Store, disk: Disk, k: nat, m: Medium)
    requires WellFormed(st) && k <= |st.homes| && Durable(st, k, m)
    requires forall i :: 0 <= i < k ==> SameMember(disk, st.now, i)
    ensures Durable(Wrote(st, disk), k, m)
  {
    StatesKept(st, disk);
    var q := Wrote(st, disk);
    forall i | 0 <= i < k ensures Member(i) in q.now { assert SameMember(disk, st.now, i); }
    forall i, t | m.Independent? && 0 <= i < k && q.froms[q.homes[i]] <= t <= |q.past|
      ensures SameMember(StateAt(q, t), q.now, i)
    {
      if t <= |st.past| { assert SameMember(StateAt(st, t), st.now, i); }
      assert SameMember(disk, st.now, i);
    }
  }

  /** The first member is replaced in the marker's own directory. */
  lemma FirstReplaced(st: Store, disk: Disk, m: Medium)
    requires StoreSafe(st, m) && MarkerFile !in st.now && st.homes[0] == 0 && MarkerFile !in disk && Member(0) in disk
    requires forall i :: 0 < i < |st.homes| && Member(i) in st.now ==> SameMember(disk, st.now, i)
    ensures var q := Wrote(st, disk); StoreSafe(q, m) && CanBegin(q, m)
  {
    StatesKept(st, disk);
    var q := Wrote(st, disk);
    forall j | 0 <= j <= |q.past| && MayReturn(q, j, m) ensures MarkerKept(q, j, m) {
      if j <= |st.past| {
        assert MarkerKept(st, j, m);
        forall i, t |
          MarkerFile in StateAt(q, j) && 0 <= i < |st.homes| && 0 <= t <= |q.past| && Together(q, i, j, t, m)
          ensures MemberMatches(StateAt(q, t), i, StateAt(q, j)[MarkerFile].content.members[i])
        {
          var before := if t <= |st.past| then t else |st.past|;
          assert Together(st, i, j, before, m);
        }
      }
    }
  }

  lemma MarkerRemoved(st: Store, m: Medium)
    requires StoreSafe(st, m) && MarkerFile in st.now
    ensures StoreSafe(Wrote(st, st.now - {MarkerFile}), m)
  {
    var disk := st.now - {MarkerFile};
    StatesKept(st, disk);
    var q := Wrote(st, disk);
    forall j | 0 <= j <= |q.past| && MayReturn(q, j, m) ensures MarkerKept(q, j, m) {
      if j <= |st.past| {
        assert MarkerKept(st, j, m);
        forall i, t |
          MarkerFile in StateAt(q, j) && 0 <= i < |st.homes| && 0 <= t <= |q.past| && Together(q, i, j, t, m)
          ensures MemberMatches(StateAt(q, t), i, StateAt(q, j)[MarkerFile].content.members[i])
        {
          var before := if t <= |st.past| then t else |st.past|;
          assert Together(st, i, j, before, m);
        }
      }
    }
    assert MembersPresent(q) by {
      assert MarkerKept(st, |st.past|, m);
      forall i | 0 <= i < |st.homes| ensures Member(i) in st.now { assert Together(st, i, |st.past|, |st.past|, m); }
    }
  }

  /** Publishing hashes of members that are the same in every state that may come back. */
  lemma MarkerPublished(st: Store, digests: seq<int>, inode: nat, m: Medium)
    requires StoreSafe(st, m) && NoMarker(st, m) && Durable(st, |st.homes|, m)
    requires |digests| == |st.homes| && Hashed(st.now, |st.homes|, digests)
    ensures StoreSafe(Wrote(st, st.now[MarkerFile := File(inode, Hashes(digests))]), m)
  {
    var disk := st.now[MarkerFile := File(inode, Hashes(digests))];
    StatesKept(st, disk);
    var q := Wrote(st, disk);
    forall j | 0 <= j <= |q.past| && MayReturn(q, j, m) ensures MarkerKept(q, j, m) {
      if j <= |st.past| {
        assert MarkerKept(st, j, m);
      } else {
        forall i, t | 0 <= i < |st.homes| && 0 <= t <= |q.past| && Together(q, i, j, t, m)
          ensures MemberMatches(StateAt(q, t), i, digests[i])
        {
          assert MemberMatches(st.now, i, digests[i]);
        }
      }
    }
  }

  lemma SyncKeeps(st: Store, d: nat, m: Medium)
    requires StoreSafe(st, m) && d < |st.froms|
    ensures var q := Synced(st, d);
      && StoreSafe(q, m) && (NoMarker(st, m) ==> NoMarker(q, m)) && (d == 0 && MarkerFile !in st.now ==> NoMarker(q, m))
      && forall k :: 0 <= k <= |st.homes| && Durable(st, k, m) ==>
           && Durable(q, k, m)
           && (k < |st.homes| && st.homes[k] == d && Member(k) in st.now ==> Durable(q, k + 1, m))
  {
    hide MemberMatches;
    var q := Synced(st, d);
    assert forall t :: 0 <= t <= |st.past| ==> StateAt(q, t) == StateAt(st, t);
    forall j | 0 <= j <= |q.past| && MayReturn(q, j, m) ensures MarkerKept(q, j, m) {
      assert MarkerKept(st, j, m);
      forall i, t | MarkerFile in StateAt(q, j) && 0 <= i < |st.homes| && 0 <= t <= |q.past| && Together(q, i, j, t, m)
        ensures MemberMatches(StateAt(q, t), i, StateAt(q, j)[MarkerFile].content.members[i])
      {
        assert Together(st, i, j, t, m);
      }
    }
  }

  /** Whatever a power loss leaves, a marker on it verifies. */
  lemma SurvivorVerifies(st: Store, keep: seq<nat>, m: Medium)
    requires StoreSafe(st, m) && CanFallBack(st, keep, m)
    ensures MarkerSafe(Surviving(st, keep, m), |st.homes|)
  {
    var disk := Surviving(st, keep, m);
    if MarkerFile in disk {
      var j := keep[0];
      assert MayReturn(st, j, m) && MarkerKept(st, j, m);
      assert disk[MarkerFile] == StateAt(st, j)[MarkerFile];
      var digests := StateAt(st, j)[MarkerFile].content.members;
      forall i | 0 <= i < |st.homes| ensures MemberMatches(disk, i, digests[i]) {
        var t := keep[st.homes[i]];
        assert Together(st, i, j, t, m);
        assert MemberMatches(StateAt(st, t), i, digests[i]);
        assert Member(i) in Names(st);
      }
    }
  }

  lemma LossKeeps(st: Store, keep: seq<nat>, m: Medium)
    requires StoreSafe(st, m) && CanFallBack(st, keep, m)
    ensures StoreSafe(Store(Surviving(st, keep, m), [], st.homes, seq(|st.froms|, _ => 0)), m)
  {
    SurvivorVerifies(st, keep, m);
    OneState(Surviving(st, keep, m), st.homes, |st.froms|, m);
  }

  lemma OneState(disk: Disk, homes: seq<nat>, directories: nat, m: Medium)
    requires MarkerSafe(disk, |homes|) && 0 < |homes| && 0 < directories
    requires forall i :: 0 <= i < |homes| ==> homes[i] < directories
    ensures StoreSafe(Store(disk, [], homes, seq(directories, _ => 0)), m)
  {
    var q := Store(disk, [], homes, seq(directories, _ => 0));
    if MarkerFile in disk {
      forall i | 0 <= i < |homes| ensures Member(i) in disk {
        assert MemberMatches(disk, i, disk[MarkerFile].content.members[i]);
      }
    }
  }

  // ---------------------------------------------------------------- every step keeps the promise

  lemma InvParts(s: System, m: Medium)
    requires Inv(s, m)
    ensures StoreSafe(s.store, m) && WellFormed(s.store)
    ensures s.holder.Some? ==> s.holder.value < |s.writers| && HolderSafe(s.store, s.writers[s.holder.value], m)
  {
  }

  /** Only the holder moved, within the promise. */
  lemma HolderMoved(s: System, t: System, w: nat, m: Medium)
    requires Inv(s, m) && s.holder == Some(w) && w < |s.writers| == |t.writers| && StoreSafe(t.store, m)
    requires t == s.(store := t.store, inodes := t.inodes, writers := s.writers[w := t.writers[w]])
    requires HolderSafe(t.store, t.writers[w], m)
    ensures Inv(t, m)
  {
    hide StoreSafe, HolderSafe;
  }

  /** Nothing is linked or replaced while a marker can come back, but the first member in the marker's own directory. */
  lemma PromoteKeeps(s: System, w: nat, k: nat, m: Medium)
    requires Inv(s, m) && s.holder == Some(w) && w < |s.writers| && s.writers[w].phase == Promoting(k)
    ensures Inv(Promote(s, w, k), m)
    ensures var t := Promote(s, w, k);
      t.store != s.store ==>
        MarkerFile !in s.store.now && MarkerFile !in t.store.now && (NoMarker(s.store, m) || s.store.homes[0] == 0)
  {
    hide Inv, StoreSafe, MarkerKept, Durable, Hashed;
    InvParts(s, m);
    var st, t := s.store, Promote(s, w, k);
    if t.store != st {
      var disk, me := t.store.now, s.writers[w];
      Linkable(st, k, m);
      forall i | 0 <= i < k ensures SameMember(disk, st.now, i) { assert SameMember(st.now, st.now, i); }
      DurableWrite(st, disk, k, m);
      if NoMarker(st, m) { UnmarkedWrite(st, disk, m); } else { FirstReplaced(st, disk, m); }
    } else if k == Count(s) {
      DurableMembers(st, k, m);
      NothingHashed(st.now, k);
    }
    HolderMoved(s, t, w, m);
  }

  lemma NothingHashed(disk: Disk, n: nat)
    ensures Hashed(disk, n, [])
  {
  }

  lemma DurableMembers(st: Store, k: nat, m: Medium)
    requires WellFormed(st) && k <= |st.homes| && Durable(st, k, m)
    ensures forall i :: 0 <= i < k ==> Member(i) in st.now
  {
  }

  /** Where a member is missing no marker can come back; durable members are there. */
  lemma Linkable(st: Store, k: nat, m: Medium)
    requires StoreSafe(st, m) && k < |st.homes| && Durable(st, k, m)
    ensures Member(k) !in st.now ==> NoMarker(st, m)
    ensures forall i :: 0 <= i < k ==> SameMember(st.now, st.now, i)
  {
  }

  /** A member put in place and its directory synced is durable. */
  lemma RecordKeeps(s: System, w: nat, k: nat, m: Medium)
    requires Inv(s, m) && s.holder == Some(w) && w < |s.writers| && s.writers[w].phase == Recording(k)
    ensures Inv(Works(s, w), m)
    ensures Durable(Works(s, w).store, k + 1, m)
  {
    hide Inv, StoreSafe, MarkerKept, Durable;
    InvParts(s, m);
    var st, t := s.store, Works(s, w);
    SyncKeeps(st, st.homes[k], m);
    HolderMoved(s, t, w, m);
  }

  /** Hashing, publishing, cleaning up. */
  lemma LaterKeeps(s: System, w: nat, m: Medium)
    requires Inv(s, m) && s.holder == Some(w) && w < |s.writers|
    requires var phase := s.writers[w].phase;
      phase.Unstaging? || phase.Hashing? || phase.Publishing? || phase.RollingBack?
    ensures Inv(Works(s, w), m)
  {
    hide Inv, StoreSafe, MarkerKept, Durable, NoMarker;
    InvParts(s, m);
    var st, t, phase := s.store, Works(s, w), s.writers[w].phase;
    NothingHashed(st.now, Count(s));
    if t.store != st {
      match phase
      case Unstaging(k) => QuietWrite(st, t.store.now, m);
      case Publishing(digests) => MarkerPublished(st, digests, s.inodes, m);
      case RollingBack(_, _, _) =>
        NotVisible(st, m);
        UnmarkedWrite(st, t.store.now, m);
      case _ =>
    }
    HolderMoved(s, t, w, m);
  }

  lemma NotVisible(st: Store, m: Medium)
    requires WellFormed(st) && NoMarker(st, m)
    ensures MarkerFile !in st.now
  {
  }

  /** Beginning: the marker is removed, or found gone. */
  lemma BeginKeeps(s: System, w: nat, m: Medium)
    requires Inv(s, m) && s.holder == Some(w) && w < |s.writers| && Allowed(s, Work(w), m)
    requires s.writers[w].phase.Holding? || s.writers[w].phase.Invalidated?
    ensures Inv(Works(s, w), m)
  {
    hide Inv, StoreSafe, MarkerKept, Enabled;
    InvParts(s, m);
    var st, t, me := s.store, Works(s, w), s.writers[w];
    NothingDurable(t.store, m);
    if me.phase.Invalidated? { SyncKeeps(st, 0, m); }
    else if me.overwrite {
      if MarkerFile in st.now { MarkerRemoved(st, m); } else { FoundGone(s, m); }
    }
    HolderMoved(s, t, w, m);
  }

  lemma FoundGone(s: System, m: Medium)
    requires WellFormed(s.store) && MarkerFile !in s.store.now && (m.Independent? ==> Careful(s))
    ensures CanBegin(s.store, m)
  {
  }

  lemma NothingDurable(st: Store, m: Medium)
    requires WellFormed(st)
    ensures Durable(st, 0, m)
  {
  }

  lemma WorkKeeps(s: System, w: nat, m: Medium)
    requires Inv(s, m) && Allowed(s, Work(w), m)
    ensures Inv(Works(s, w), m)
  {
    hide Inv, Works, Promote;
    var phase := s.writers[w].phase;
    match phase
    case Holding => BeginKeeps(s, w, m);
    case Invalidated => BeginKeeps(s, w, m);
    case Promoting(k) => PromoteKeeps(s, w, k, m); assert Works(s, w) == Promote(s, w, k) by { PromoteIsWork(s, w, k); }
    case Recording(k) => RecordKeeps(s, w, k, m);
    case Unstaging(_) => LaterKeeps(s, w, m);
    case Hashing(_) => LaterKeeps(s, w, m);
    case Publishing(_) => LaterKeeps(s, w, m);
    case RollingBack(_, _, _) => LaterKeeps(s, w, m);
    case _ => HolderIsInside(s, w, m);
  }

  lemma PromoteIsWork(s: System, w: nat, k: nat)
    requires w < |s.writers| && s.writers[w].phase == Promoting(k)
    ensures Works(s, w) == Promote(s, w, k)
  {
  }

  lemma HolderIsInside(s: System, w: nat, m: Medium)
    requires Inv(s, m) && s.holder == Some(w)
    ensures w < |s.writers| && !Outside(s.writers[w].phase)
  {
    hide StoreSafe;
  }

  /** What nobody but the holder does keeps all it relies on. */
  ghost predicate Carries(a: Store, b: Store, m: Medium)
    requires WellFormed(a) && WellFormed(b)
  {
    && a.homes == b.homes && (MarkerFile !in a.now ==> MarkerFile !in b.now) && (NoMarker(a, m) ==> NoMarker(b, m))
    && (forall k :: 0 <= k <= |a.homes| && Durable(a, k, m) ==> Durable(b, k, m))
    && forall i :: 0 <= i < |a.homes| && Member(i) in a.now ==> SameMember(b.now, a.now, i)
  }

  lemma HolderCarried(a: Store, b: Store, me: Writer, m: Medium)
    requires WellFormed(a) && WellFormed(b) && Carries(a, b, m) && HolderSafe(a, me, m)
    ensures HolderSafe(b, me, m)
  {
    hide NoMarker, Durable;
    match me.phase
    case Hashing(digests) => HashedCarried(a, b, digests, m);
    case Publishing(digests) => HashedCarried(a, b, digests, m);
    case _ =>
  }

  lemma HashedCarried(a: Store, b: Store, digests: seq<int>, m: Medium)
    requires WellFormed(a) && WellFormed(b) && Carries(a, b, m) && Hashed(a.now, |a.homes|, digests)
    ensures Hashed(b.now, |b.homes|, digests)
  {
    hide NoMarker, Durable;
    forall i | 0 <= i < |digests| ensures MemberMatches(b.now, i, digests[i]) {
      assert MemberMatches(a.now, i, digests[i]) && SameMember(b.now, a.now, i);
    }
  }

  lemma SafeIsWellFormed(st: Store, m: Medium)
    requires StoreSafe(st, m)
    ensures WellFormed(st)
  {
  }

  lemma StoreCarried(s: System, t: System, m: Medium)
    requires Inv(s, m) && StoreSafe(t.store, m) && Carries(s.store, t.store, m)
    requires t == s.(store := t.store, inodes := t.inodes)
    ensures Inv(t, m)
  {
    hide StoreSafe, HolderSafe, Carries;
    InvParts(s, m);
    SafeIsWellFormed(t.store, m);
    if s.holder.Some? { HolderCarried(s.store, t.store, s.writers[s.holder.value], m); }
  }

  lemma FlushKeeps(s: System, d: nat, m: Medium)
    requires Inv(s, m) && d < |s.store.froms|
    ensures Inv(Flushed(s, d), m)
  {
    hide Inv, StoreSafe, NoMarker, Durable;
    InvParts(s, m);
    SyncKeeps(s.store, d, m);
    StoreCarried(s, Flushed(s, d), m);
  }

  /** Staging, and foreign programs creating members that were not there, disturb neither readers nor the holder. */
  lemma CreationKeeps(s: System, x: Name, bytes: int, m: Medium)
    requires Inv(s, m) && (x.Staged? || (x.Member? && x !in s.store.now))
    ensures Inv(Created(s, x, bytes), m)
  {
    hide Inv, StoreSafe, Durable, NoMarker;
    InvParts(s, m);
    var st, t, disk := s.store, Created(s, x, bytes), s.store.now[x := File(s.inodes, Bytes(bytes))];
    if x.Staged? || x.i >= Count(s) { QuietWrite(st, disk, m); } else { NewMember(st, x.i, disk, m); }
    StoreCarried(s, t, m);
  }

  /** A member that was not there: no marker can come back, and it is none of the durable ones. */
  lemma NewMember(st: Store, i: nat, disk: Disk, m: Medium)
    requires StoreSafe(st, m) && i < |st.homes| && Member(i) !in st.now
    requires MarkerFile in disk <==> MarkerFile in st.now
    requires forall k: nat :: k != i && Member(k) in st.now ==> SameMember(disk, st.now, k)
    ensures NoMarker(st, m) && StoreSafe(Wrote(st, disk), m) && NoMarker(Wrote(st, disk), m)
    ensures forall k :: 0 <= k <= |st.homes| && Durable(st, k, m) ==> Durable(Wrote(st, disk), k, m)
  {
    UnmarkedWrite(st, disk, m);
    forall k | 0 <= k <= |st.homes| && Durable(st, k, m) ensures Durable(Wrote(st, disk), k, m) {
      DurableWrite(st, disk, k, m);
    }
  }

  predicate TouchesNoFile(step: Step) { step.Acquire? || step.Fail? || step.Skip? || step.Release? || step.Kill? }

  /** Taking, dropping or losing the lock, failing and going on after an ignored failure change no file. */
  lemma LockKeeps(s: System, step: Step, m: Medium)
    requires Inv(s, m) && Allowed(s, step, m) && TouchesNoFile(step)
    ensures Inv(Do(s, step, m), m)
  {
    hide StoreSafe, MarkerKept;
    InvParts(s, m);
    NothingDurable(s.store, m);
    if step.Skip? { SkipKeeps(s.store, s.writers[step.w], m); }
  }

  lemma SkipKeeps(st: Store, me: Writer, m: Medium)
    requires StoreSafe(st, m) && HolderSafe(st, me, m) && CanSkip(me.phase, |st.homes|)
    requires m.Independent? ==> !me.phase.Invalidated? && !me.phase.Recording?
    ensures HolderSafe(st, me.(phase := AfterSkip(me.phase)), m)
  {
    hide StoreSafe, Hashed;
  }

  lemma PowerLossKeeps(s: System, keep: seq<nat>, m: Medium)
    requires Inv(s, m) && Enabled(s, PowerLoss(keep), m)
    ensures Inv(Do(s, PowerLoss(keep), m), m)
  {
    hide StoreSafe, HolderSafe;
    InvParts(s, m);
    LossKeeps(s.store, keep, m);
  }

  lemma StepKeepsInv(s: System, step: Step, m: Medium)
    requires Inv(s, m) && Allowed(s, step, m)
    ensures Inv(Do(s, step, m), m)
  {
    hide Inv, Works, Careful, CanFallBack, CanSkip;
    match step
    case Stage(w, i, bytes) => CreationKeeps(s, Staged(w, i), bytes, m);
    case Foreign(i, bytes) => CreationKeeps(s, Member(i), bytes, m);
    case Work(w) => WorkKeeps(s, w, m);
    case PowerLoss(keep) => PowerLossKeeps(s, keep, m);
    case Sync(d) => FlushKeeps(s, d, m);
    case Acquire(w) => LockKeeps(s, step, m);
    case Fail(w) => LockKeeps(s, step, m);
    case Skip(w) => LockKeeps(s, step, m);
    case Release(w) => LockKeeps(s, step, m);
    case Kill(w) => LockKeeps(s, step, m);
  }

  predicate CanRun(s: System, steps: seq<Step>, m: Medium)
    decreases |steps|
  {
    steps != [] ==> Allowed(s, steps[0], m) && CanRun(Do(s, steps[0], m), steps[1..], m)
  }

  function Run(s: System, steps: seq<Step>, m: Medium): System
    requires CanRun(s, steps, m)
    decreases |steps|
  {
    if steps == [] then s else Run(Do(s, steps[0], m), steps[1..], m)
  }

  lemma {:induction false} RunKeepsInv(s: System, steps: seq<Step>, m: Medium)
    requires Inv(s, m) && CanRun(s, steps, m)
    ensures Inv(Run(s, steps, m), m)
    decreases |steps|
  {
    hide Inv, Do, Enabled, Careful;
    if steps != [] {
      StepKeepsInv(s, steps[0], m);
      RunKeepsInv(Do(s, steps[0], m), steps[1..], m);
    }
  }

  /** The marker's directory is 0; every member lives in some directory. */
  predicate CanStart(homes: seq<nat>, directories: nat) {
    0 < |homes| && 0 < directories && forall i :: 0 <= i < |homes| ==> homes[i] < directories
  }

  lemma StartsSafe(homes: seq<nat>, directories: nat, writers: seq<bool>, m: Medium)
    requires CanStart(homes, directories)
    ensures Inv(Start(homes, directories, writers), m)
  {
    OneState(map[], homes, directories, m);
  }

  /**
   Whatever writers do under the lock, however often they are killed or the power is lost: if the marker exists,
   verification of every member succeeds, now and on every disk a power loss could leave behind. On an ordered medium
   writers are unrestricted; where directories fall back independently they must be careful and their syncs succeed.
   */
  lemma MarkerMeansVerified(homes: seq<nat>, directories: nat, writers: seq<bool>, steps: seq<Step>, m: Medium)
    requires CanStart(homes, directories) && CanRun(Start(homes, directories, writers), steps, m)
    ensures var st := Run(Start(homes, directories, writers), steps, m).store;
      && WellFormed(st) && st.homes == homes && (MarkerFile in st.now ==> Verifies(st.now, |homes|))
      && forall keep :: CanFallBack(st, keep, m) ==> MarkerSafe(Surviving(st, keep, m), |homes|)
  {
    hide Inv, StoreSafe;
    StartsSafe(homes, directories, writers, m);
    RunKeepsInv(Start(homes, directories, writers), steps, m);
    SameHomes(Start(homes, directories, writers), steps, m);
    var st := Run(Start(homes, directories, writers), steps, m).store;
    InvParts(Run(Start(homes, directories, writers), steps, m), m);
    NowVerifies(st, m);
    forall keep | CanFallBack(st, keep, m) ensures MarkerSafe(Surviving(st, keep, m), |homes|) {
      SurvivorVerifies(st, keep, m);
    }
  }

  lemma NowVerifies(st: Store, m: Medium)
    requires StoreSafe(st, m)
    ensures MarkerSafe(st.now, |st.homes|)
  {
    var j := |st.past|;
    assert StateAt(st, j) == st.now && MayReturn(st, j, m) && MarkerKept(st, j, m);
    if MarkerFile in st.now {
      forall i | 0 <= i < |st.homes| ensures MemberMatches(st.now, i, st.now[MarkerFile].content.members[i]) {
        assert Together(st, i, j, j, m);
      }
    }
  }

  lemma {:induction false} SameHomes(s: System, steps: seq<Step>, m: Medium)
    requires CanRun(s, steps, m)
    ensures Run(s, steps, m).store.homes == s.store.homes
    decreases |steps|
  {
    hide Enabled, Careful;
    if steps != [] { SameHomes(Do(s, steps[0], m), steps[1..], m); }
  }

  // ---------------------------------------------------------------- why writers must be careful

  /** No surviving marker happens to list the bytes staged for the first member. */
  predicate NewBytes(s: System, w: nat)
    requires WellFormed(s.store) && Staged(w, 0) in s.store.now
  {
    forall j :: 0 <= j <= |s.store.past| && MayReturn(s.store, j, Independent) ==>
      !ListsFirst(StateAt(s.store, j), s.store.now[Staged(w, 0)].content)
  }

  predicate ListsFirst(disk: Disk, content: Content) {
    && MarkerFile in disk && disk[MarkerFile].content.Hashes? && disk[MarkerFile].content.members != []
    && content == Bytes(disk[MarkerFile].content.members[0])
  }

  /**
   An overwriting writer that finds no marker replaces its first member. On a medium whose directories fall back
   independently every marker a power loss can then bring back verifies if and only if the writer was careful.
   */
  lemma OverwritingIsSafeExactly(s: System, w: nat)
    requires Inv(s, Independent) && s.holder == Some(w) && w < |s.writers| && AllStaged(s, w) && NewBytes(s, w)
    requires s.writers[w].phase.Holding? && s.writers[w].overwrite && MarkerFile !in s.store.now
    ensures var q := Works(Works(s, w), w).store;
      && WellFormed(q)
      && (Careful(s) <==>
            forall keep :: CanFallBack(q, keep, Independent) ==> MarkerSafe(Surviving(q, keep, Independent), |q.homes|))
  {
    var t := Works(s, w);
    var q := Works(t, w).store;
    var st, disk := s.store, q.now;
    StatesKept(st, disk);
    if Careful(s) {
      assert Inv(t, Independent) by { BeginKeeps(s, w, Independent); }
      PromoteKeeps(t, w, 0, Independent);
      forall keep | CanFallBack(q, keep, Independent) ensures MarkerSafe(Surviving(q, keep, Independent), |q.homes|) {
        InvParts(Works(t, w), Independent);
        SurvivorVerifies(q, keep, Independent);
      }
    } else {
      OldMarkerReturns(st, disk);
    }
  }

  /** The old marker in its directory, the first member already replaced in another. */
  lemma OldMarkerReturns(st: Store, disk: Disk)
    requires StoreSafe(st, Independent) && MarkerFile !in st.now && !NoMarker(st, Independent) && st.homes[0] != 0
    requires Member(0) in disk
    requires forall j :: 0 <= j <= |st.past| && MayReturn(st, j, Independent) ==>
      !ListsFirst(StateAt(st, j), disk[Member(0)].content)
    ensures var q := Wrote(st, disk);
      WellFormed(q)
      && exists keep :: CanFallBack(q, keep, Independent) && !MarkerSafe(Surviving(q, keep, Independent), |q.homes|)
  {
    StatesKept(st, disk);
    var q := Wrote(st, disk);
    var j :| 0 <= j <= |st.past| && MayReturn(st, j, Independent) && MarkerFile in StateAt(st, j);
    assert MarkerKept(st, j, Independent);
    var keep: seq<nat> := seq(|q.froms|, d requires 0 <= d < |q.froms| => if d == 0 then j else |q.past|);
    var left := Surviving(q, keep, Independent);
    assert MarkerFile in Names(q) && left[MarkerFile] == StateAt(st, j)[MarkerFile];
    assert Member(0) in Names(q) && left[Member(0)] == disk[Member(0)];
    assert !MemberMatches(left, 0, left[MarkerFile].content.members[0]);
  }

  /** A writer killed between removing the marker and the sync leaves such a state, unless its first member is there. */
  lemma KilledRemovalExposes(s: System, w: nat)
    requires Inv(s, Independent) && s.holder == Some(w) && w < |s.writers| && s.store.homes[0] != 0
    requires s.writers[w].phase.Holding? && s.writers[w].overwrite && MarkerFile in s.store.now
    ensures var t := Do(Do(s, Work(w), Independent), Kill(w), Independent);
      WellFormed(t.store) && MarkerFile !in t.store.now && !Careful(t)
  {
    var st, q := s.store, Wrote(s.store, s.store.now - {MarkerFile});
    StatesKept(st, q.now);
    var j := |st.past|;
    assert MayReturn(q, j, Independent) && MarkerFile in StateAt(q, j);
  }
}
