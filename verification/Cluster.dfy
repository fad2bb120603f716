/** Nodes that consume one agreed log, crash anywhere and restart from their disks. */
module Cluster {
  import opened Types
  import opened Files
  import opened FsStorages
  import opened LogModel
  import opened CrashPoints
  import opened Membership
  import opened NodeSpec
  import opened Ledgers
  import opened NodeRuns
  import opened Durability

  // The Raft library's side of the contract

  function LastAfter(d: Directory, r: Ready): nat {
    if r.entries == [] then Last(d) else r.entries[|r.entries| - 1].index
  }

  function CommitAfter(d: Directory, r: Ready): nat {
    if r.hs.Some? then r.hs.value.commit else CommitIndex(d)
  }

  // The number of log entries handed over in this life and before it.
  function Handed(c: Life, l: Ledger): nat {
    AppliedIndex(c.boot) + |l.handed|
  }

  // Of a log of which n entries were handed over and `commit` are committed, these are the next ones.
  ghost predicate NextPiece(log: seq<Entry>, n: nat, commit: nat, entries: seq<Entry>) {
    n + |entries| <= |log| && n + |entries| <= commit && entries == log[n..n + |entries|]
  }

  // The stored entry at this index once the entries of the ready are appended.
  function EntryAfter(d: Directory, r: Ready, index: nat): Result<Entry> {
    if r.entries != [] && r.entries[0].index <= index < r.entries[0].index + |r.entries|
    then Ok(r.entries[index - r.entries[0].index]) else ReadEntry(d, index)
  }

  // What the ready commits beyond what was committed before is the agreed log's.
  ghost predicate CommitsAgreed(log: seq<Entry>, d: Directory, r: Ready) {
    forall n: nat :: CommitIndex(d) < n <= CommitAfter(d, r) ==> n <= |log| && EntryAfter(d, r, n) == Ok(log[n - 1])
  }

  // A ready without a snapshot: its entries continue the stored log above what is committed, the
  // commit index never falls and stays within the log, it commits nothing but the agreed log, and
  // the committed entries are the next piece of that log, within the commit index persisted with them.
  ghost predicate LegalReady(c: Life, d: Directory, l: Ledger, r: Ready) {
    && r.snapshot.None?
    && Contiguous(r.entries)
    && (r.entries != [] ==> CommitIndex(d) < r.entries[0].index <= Last(d) + 1)
    && CommitIndex(d) <= CommitAfter(d, r) <= LastAfter(d, r)
    && CommitsAgreed(c.log, d, r)
    && NextPiece(c.log, Handed(c, l), CommitAfter(d, r), r.committed)
  }

  ghost predicate LegalTurn(c: Life, s: Node, turn: Turn) {
    var s' := AfterTick(s, turn);
    turn.ready.Some? ==> LegalReady(c, s'.disk, Account(s'.trace), turn.ready.value)
  }

  // Handlers keep a life sound

  lemma MoveOnIdles(s: Node, check: Option<Check>, now: nat)
    ensures Idled(s.trace, MoveOn(s, check, now).trace) && MoveOn(s, check, now).disk == s.disk
  {
  }

  lemma LeaderCommittedIsDurable(c: Life, s: Node, setting: Option<set<PeerBytes>>, now: nat)
    requires ValidLife(c) && Sound(c, s) && s.status.Running? && InFlight(s).Some?
    ensures Durable(c, LeaderCommitted(s, setting, now))
  {
    FinishBlockIsSound(c, s);
    var s1 := FinishBlock(s);
    var check := if setting.Some? then Some(CheckForConfChange(s1.peers, setting.value)) else None;
    MoveOnIdles(s1, check, now);
    IdlingIsQuiet(c, s1.trace, MoveOn(s1, check, now).trace);
    QuietIsDurable(c, s1, MoveOn(s1, check, now));
  }

  lemma OnBlockCommitIsSound(c: Life, s: Node, id: BlockId, setting: Option<set<PeerBytes>>, now: nat)
    requires ValidLife(c) && Sound(c, s) && s.status.Running?
    ensures Sound(c, OnBlockCommit(s, id, setting, now))
  {
    OnBlockCommitIsGood(s, id, setting, now);
    if s.leader == Some(LeaderState.Committing(id)) {
      LeaderCommittedIsGood(s, setting, now);
      LeaderCommittedIsDurable(c, s, setting, now);
    } else if s.follower == Some(FollowerState.Committing(id)) {
      FinishBlockIsSound(c, s);
    }
  }

  lemma HandleUpdateIsSound(c: Life, s: Node, update: Update)
    requires ValidLife(c) && Sound(c, s) && s.status.Running?
    ensures Sound(c, HandleUpdate(s, update))
  {
    if update.BlockCommit? {
      OnBlockCommitIsSound(c, s, update.id, update.setting, update.now);
    } else {
      HandleUpdateIsGood(s, update);
      OtherUpdateIsQuiet(c, s, update);
      QuietIsDurable(c, s, HandleUpdate(s, update));
    }
  }

  lemma OtherUpdateIdles(s: Node, update: Update)
    requires !update.BlockCommit? && !update.BlockValid?
    ensures Idled(s.trace, HandleUpdate(s, update).trace) && HandleUpdate(s, update).disk == s.disk
  {
  }

  lemma OtherUpdateIsQuiet(c: Life, s: Node, update: Update)
    requires !update.BlockCommit?
    ensures Quiet(c, s, HandleUpdate(s, update))
  {
    if update.BlockValid? {
      OnBlockValidIsQuiet(c, s, update.id);
    } else {
      OtherUpdateIdles(s, update);
      IdlingIsQuiet(c, s.trace, HandleUpdate(s, update).trace);
    }
  }

  lemma TickIdles(s: Node, t: TickInput)
    ensures Idled(s.trace, Tick(s, t).trace) && Tick(s, t).disk == s.disk
  {
  }

  lemma TickIsSound(c: Life, s: Node, t: TickInput)
    requires Sound(c, s) && s.status.Running?
    ensures Sound(c, Tick(s, t))
  {
    TickIsGood(s, t);
    TickIdles(s, t);
    IdlingIsQuiet(c, s.trace, Tick(s, t).trace);
    QuietIsDurable(c, s, Tick(s, t));
  }

  lemma StepUpIdles(s: Node, now: nat)
    ensures Idled(s.trace, StepUp(s, now).trace) && StepUp(s, now).disk == s.disk
  {
  }

  lemma PrepareReadyIsQuiet(c: Life, s: Node, r: Ready)
    ensures Quiet(c, s, PrepareReady(s, r))
  {
    var s0 := s.(readyRole := s.leads);
    if s.leads {
      StepUpIdles(s0, r.now);
      IdlingIsQuiet(c, s.trace, StepUp(s0, r.now).trace);
      SendAllIsQuiet(c, StepUp(s0, r.now), r.messages);
      QuietChains(c, s.trace, StepUp(s0, r.now).trace, PrepareReady(s, r).trace);
    } else {
      IdlingIsQuiet(c, s.trace, s.trace);
    }
  }

  lemma PrepareReadyIsSound(c: Life, s: Node, r: Ready)
    requires Sound(c, s) && s.status.Running?
    ensures Sound(c, PrepareReady(s, r)) && PrepareReady(s, r).disk == s.disk
    ensures SameBooks(Account(s.trace), Account(PrepareReady(s, r).trace))
  {
    PrepareReadyIsGood(s, r);
    PrepareReadyIsQuiet(c, s, r);
    QuietIsDurable(c, s, PrepareReady(s, r));
  }

  // At every crash point of an append above the commit index the disk can be resumed from.
  lemma {:induction false} AppendIsComplete(d: Directory, entries: seq<Entry>, k: nat)
    requires Complete(d) && Contiguous(entries) && k <= |AppendPlan(entries).ops|
    requires entries != [] ==> CommitIndex(d) < entries[0].index <= Last(d) + 1
    ensures var d' := ApplyOps(d, AppendPlan(entries).ops[..k]);
            && Complete(d') && CommitIndex(d') == CommitIndex(d) && AppliedIndex(d') == AppliedIndex(d)
            && Last(d') == if entries != [] && k == |entries| + 1 then entries[|entries| - 1].index else Last(d)
  {
    if entries != [] {
      var n := if k <= |entries| then k else |entries|;
      var ops := EntryWrites(entries)[..n];
      var d1, d' := ApplyOps(d, ops), ApplyOps(d, AppendPlan(entries).ops[..k]);
      assert AppendPlan(entries).ops[..n] == ops;
      EntryOpsKeepOthers(d, ops);
      if k == |entries| + 1 {
        ApplyOneMore(d, AppendPlan(entries).ops, |entries|);
      }
      forall i: nat | First(d) <= i <= Last(d')
        ensures ReadEntry(d', i).Ok? && ReadEntry(d', i).value.index == i
      {
        EntryWritesEffect(d, entries, n, EntryFile(i));
        assert i <= Last(d) ==> ReadEntry(d, i).Ok? && ReadEntry(d, i).value.index == i;
      }
    }
  }

  // Nor does it touch the entries up to there.
  lemma {:induction false} AppendKeepsCommitted(log: seq<Entry>, d: Directory, entries: seq<Entry>, n: nat, k: nat)
    requires Agrees(log, d) && Contiguous(entries) && k <= |entries|
    requires entries != [] ==> CommitIndex(d) < entries[0].index
    requires 1 <= n && First(d) <= n <= CommitIndex(d)
    ensures Matches(log, ApplyOps(d, EntryWrites(entries)[..k]), n)
  {
    EntryWritesEffect(d, entries, k, EntryFile(n));
    assert Matches(log, d, n);
  }

  lemma {:induction false} WritesKeepAgreement(log: seq<Entry>, d: Directory, entries: seq<Entry>, k: nat)
    requires Agrees(log, d) && Contiguous(entries) && k <= |entries|
    requires entries != [] ==> CommitIndex(d) < entries[0].index
    ensures Agrees(log, ApplyOps(d, EntryWrites(entries)[..k]))
  {
    var d' := ApplyOps(d, EntryWrites(entries)[..k]);
    EntryOpsKeepOthers(d, EntryWrites(entries)[..k]);
    assert First(d') == First(d) && CommitIndex(d') == CommitIndex(d);
    forall n: nat | 1 <= n && First(d) <= n <= CommitIndex(d) ensures Matches(log, d', n) {
      AppendKeepsCommitted(log, d, entries, n, k);
    }
  }

  lemma LastKeepsAgreement(log: seq<Entry>, d: Directory, last: nat)
    requires Agrees(log, d)
    ensures Agrees(log, d[LastFile := Num(last)])
  {
    var d' := d[LastFile := Num(last)];
    assert First(d') == First(d) && CommitIndex(d') == CommitIndex(d);
    forall n: nat | 1 <= n && First(d) <= n <= CommitIndex(d) ensures Matches(log, d', n) {
      assert Matches(log, d, n);
    }
  }

  lemma {:induction false} AppendKeepsAgreement(log: seq<Entry>, d: Directory, entries: seq<Entry>, k: nat)
    requires Agrees(log, d) && Contiguous(entries) && k <= |AppendPlan(entries).ops|
    requires entries != [] ==> CommitIndex(d) < entries[0].index
    ensures Agrees(log, ApplyOps(d, AppendPlan(entries).ops[..k]))
  {
    if entries != [] {
      var n := if k <= |entries| then k else |entries|;
      assert AppendPlan(entries).ops[..n] == EntryWrites(entries)[..n];
      WritesKeepAgreement(log, d, entries, n);
      if k == |entries| + 1 {
        ApplyOneMore(d, AppendPlan(entries).ops, |entries|);
        LastKeepsAgreement(log, ApplyOps(d, EntryWrites(entries)[..n]), entries[|entries| - 1].index);
      }
    }
  }

  lemma {:induction false} AppendIsResumable(log: seq<Entry>, d: Directory, entries: seq<Entry>, k: nat)
    requires Resumable(log, d) && Contiguous(entries) && k <= |AppendPlan(entries).ops|
    requires entries != [] ==> CommitIndex(d) < entries[0].index <= Last(d) + 1
    ensures Resumable(log, ApplyOps(d, AppendPlan(entries).ops[..k]))
  {
    AppendIsComplete(d, entries, k);
    AppendKeepsAgreement(log, d, entries, k);
  }

  // What the whole append leaves under an index.
  lemma {:induction false} AppendLeaves(d: Directory, r: Ready, index: nat)
    requires Contiguous(r.entries)
    ensures ReadEntry(ApplyOps(d, AppendPlan(r.entries).ops), index) == EntryAfter(d, r, index)
  {
    if r.entries != [] {
      AppendEffect(d, r.entries);
      EntryWritesEffect(d, r.entries, |r.entries|, EntryFile(index));
      assert EntryWrites(r.entries)[..|r.entries|] == EntryWrites(r.entries);
    }
  }

  lemma {:induction false} AppendKeepsIndexes(d: Directory, entries: seq<Entry>)
    requires Complete(d) && Contiguous(entries)
    requires entries != [] ==> CommitIndex(d) < entries[0].index <= Last(d) + 1
    ensures var d' := ApplyOps(d, AppendPlan(entries).ops);
            && CommitIndex(d') == CommitIndex(d) && AppliedIndex(d') == AppliedIndex(d)
            && Last(d') == if entries == [] then Last(d) else entries[|entries| - 1].index
  {
    var ops := AppendPlan(entries).ops;
    AppendIsComplete(d, entries, |ops|);
    assert ops[..|ops|] == ops;
  }

  // The entries this hard state commits anew are the agreed log's.
  ghost predicate CommitsLog(log: seq<Entry>, d: Directory, commit: nat) {
    forall n: nat :: CommitIndex(d) < n <= commit ==> Matches(log, d, n)
  }

  lemma HardStateIsResumable(log: seq<Entry>, d: Directory, hs: HardState)
    requires Resumable(log, d) && CommitIndex(d) <= hs.commit <= Last(d) && CommitsLog(log, d, hs.commit)
    ensures var d' := ApplyOp(d, SetHardStateOp(hs));
            Resumable(log, d') && CommitIndex(d') == hs.commit && AppliedIndex(d') == AppliedIndex(d)
  {
    var d' := ApplyOp(d, SetHardStateOp(hs));
    assert forall n: nat :: ReadEntry(d', n) == ReadEntry(d, n);
    assert forall n: nat :: Matches(log, d, n) ==> Matches(log, d', n);
    assert CommitIndex(d) < hs.commit ==> Matches(log, d, hs.commit);
  }

  lemma {:induction false} AppendIsCrashSafe(c: Life, t: Trace, entries: seq<Entry>)
    requires CrashSafe(c, t) && Contiguous(entries)
    requires entries != [] ==> CommitIndex(DiskAfter(c.boot, t)) < entries[0].index <= Last(DiskAfter(c.boot, t)) + 1
    ensures var t', ops := Record(t, AppendPlan(entries).ops), AppendPlan(entries).ops;
            && CrashSafe(c, t') && DiskAfter(c.boot, t') == ApplyOps(DiskAfter(c.boot, t), ops)
            && Account(t') == Account(t)
  {
    var ops := AppendPlan(entries).ops;
    forall k: nat | k <= |ops| ensures Resumable(c.log, ApplyOps(DiskAfter(c.boot, t), ops[..k])) {
      AppendIsResumable(c.log, DiskAfter(c.boot, t), entries, k);
    }
    RecordIsCrashSafe(c, t, ops);
    RecordIsNeutral(t, ops);
  }

  lemma {:induction false} HardStateIsCrashSafe(c: Life, t: Trace, hs: HardState)
    requires CrashSafe(c, t)
    requires CommitIndex(DiskAfter(c.boot, t)) <= hs.commit <= Last(DiskAfter(c.boot, t))
    requires CommitsLog(c.log, DiskAfter(c.boot, t), hs.commit)
    ensures var t', op := Record(t, [SetHardStateOp(hs)]), SetHardStateOp(hs);
            && CrashSafe(c, t') && DiskAfter(c.boot, t') == ApplyOp(DiskAfter(c.boot, t), op)
            && Account(t') == Account(t)
  {
    var d, ops := DiskAfter(c.boot, t), [SetHardStateOp(hs)];
    HardStateIsResumable(c.log, d, hs);
    ApplySingle(d, ops[0]);
    forall k: nat | k <= 1 ensures Resumable(c.log, ApplyOps(d, ops[..k])) {
      assert ops[..k] == if k == 0 then [] else ops;
    }
    RecordIsCrashSafe(c, t, ops);
    RecordIsNeutral(t, ops);
  }

  lemma {:induction false} EntriesArePersisted(c: Life, s: Node, entries: seq<Entry>)
    requires CrashSafe(c, s.trace) && s.disk == DiskAfter(c.boot, s.trace) && Contiguous(entries)
    requires entries != [] ==> CommitIndex(s.disk) < entries[0].index <= Last(s.disk) + 1
    ensures var s' := WriteAll(s, AppendPlan(entries).ops);
            && CrashSafe(c, s'.trace) && s'.disk == DiskAfter(c.boot, s'.trace)
            && Account(s'.trace) == Account(s.trace)
            && CommitIndex(s'.disk) == CommitIndex(s.disk) && AppliedIndex(s'.disk) == AppliedIndex(s.disk)
            && Last(s'.disk) == if entries == [] then Last(s.disk) else entries[|entries| - 1].index
  {
    AppendIsCrashSafe(c, s.trace, entries);
    AppendKeepsIndexes(s.disk, entries);
  }

  lemma {:induction false} HardStateIsPersisted(c: Life, s: Node, hs: HardState)
    requires CrashSafe(c, s.trace) && s.disk == DiskAfter(c.boot, s.trace)
    requires CommitIndex(s.disk) <= hs.commit <= Last(s.disk) && CommitsLog(c.log, s.disk, hs.commit)
    ensures var s' := WriteAll(s, [SetHardStateOp(hs)]);
            && CrashSafe(c, s'.trace) && s'.disk == DiskAfter(c.boot, s'.trace)
            && Account(s'.trace) == Account(s.trace)
            && CommitIndex(s'.disk) == hs.commit && AppliedIndex(s'.disk) == AppliedIndex(s.disk)
  {
    HardStateIsCrashSafe(c, s.trace, hs);
    ApplySingle(s.disk, SetHardStateOp(hs));
    HardStateIsResumable(c.log, s.disk, hs);
  }

  lemma {:induction false} AppendedCommitsLog(log: seq<Entry>, d: Directory, r: Ready)
    requires Complete(d) && Contiguous(r.entries) && r.hs.Some? && CommitsAgreed(log, d, r)
    requires r.entries != [] ==> CommitIndex(d) < r.entries[0].index <= Last(d) + 1
    ensures CommitsLog(log, ApplyOps(d, AppendPlan(r.entries).ops), r.hs.value.commit)
  {
    var d' := ApplyOps(d, AppendPlan(r.entries).ops);
    AppendKeepsIndexes(d, r.entries);
    forall n: nat | CommitIndex(d') < n <= r.hs.value.commit ensures Matches(log, d', n) {
      AppendLeaves(d, r, n);
      assert EntryAfter(d, r, n) == Ok(log[n - 1]);
    }
  }

  // The ledger and the disk after the writes of a ready.
  lemma {:induction false} PersistIsCrashSafe(c: Life, s: Node, r: Ready)
    requires CrashSafe(c, s.trace) && s.disk == DiskAfter(c.boot, s.trace) && Contiguous(r.entries)
    requires r.entries != [] ==> CommitIndex(s.disk) < r.entries[0].index <= Last(s.disk) + 1
    requires CommitIndex(s.disk) <= CommitAfter(s.disk, r) <= LastAfter(s.disk, r) && CommitsAgreed(c.log, s.disk, r)
    ensures var s' := Persist(s, r);
            && CrashSafe(c, s'.trace) && s'.disk == DiskAfter(c.boot, s'.trace)
            && Account(s'.trace) == Account(s.trace)
            && CommitIndex(s'.disk) == CommitAfter(s.disk, r) && AppliedIndex(s'.disk) == AppliedIndex(s.disk)
  {
    EntriesArePersisted(c, s, r.entries);
    if r.hs.Some? {
      AppendedCommitsLog(c.log, s.disk, r);
      HardStateIsPersisted(c, WriteAll(s, AppendPlan(r.entries).ops), r.hs.value);
    }
  }

  lemma PersistIsSound(c: Life, s: Node, r: Ready)
    requires ValidLife(c) && Sound(c, s) && s.status.Running? && LegalReady(c, s.disk, Account(s.trace), r)
    ensures Sound(c, Persist(s, r)) && Persist(s, r).status.Running?
    ensures Account(Persist(s, r).trace) == Account(s.trace)
    ensures CommitIndex(Persist(s, r).disk) == CommitAfter(s.disk, r)
  {
    PersistIsGood(s, r);
    PersistIsCrashSafe(c, s, r);
  }

  // A block popped has an index that was handed over.
  lemma PoppedIsHanded(log: seq<Entry>, start: nat, end: nat, popped: seq<(BlockId, nat)>)
    requires IsLog(log) && start <= end <= |log|
    requires popped <= BlocksOf(log[start..end]) && popped != []
    ensures popped[|popped| - 1].1 <= end
  {
    BlockIndexesRise(log, start, end);
    assert popped[|popped| - 1] == BlocksOf(log[start..end])[|popped| - 1];
  }

  // What every sound running node has on its disk and in its books.
  ghost predicate InOrder(c: Life, d: Directory, l: Ledger) {
    && IsLog(c.log) && Resumable(c.log, d) && Booked(c, d, l)
    && Safe(l) && l.blocks == BlocksOf(l.handed)
  }

  lemma SoundIsInOrder(c: Life, s: Node)
    requires ValidLife(c) && Sound(c, s) && s.status.Running?
    ensures InOrder(c, s.disk, Account(s.trace))
  {
    HandedBlocks(s.trace);
  }

  lemma AppliedIsHanded(c: Life, d: Directory, l: Ledger)
    requires InOrder(c, d, l)
    ensures AppliedIndex(d) <= Handed(c, l)
  {
    if l.popped != [] {
      PoppedIsHanded(c.log, AppliedIndex(c.boot), Handed(c, l), l.popped);
    }
  }

  // The disk once the entries and the hard state of a ready are written.
  function ReadyDisk(d: Directory, r: Ready): Directory {
    var d1 := ApplyOps(d, AppendPlan(r.entries).ops);
    if r.hs.Some? then ApplyOps(d1, [SetHardStateOp(r.hs.value)]) else d1
  }

  lemma {:induction false} ReadyDiskIsResumable(log: seq<Entry>, d: Directory, r: Ready)
    requires Resumable(log, d) && Contiguous(r.entries) && CommitsAgreed(log, d, r)
    requires r.entries != [] ==> CommitIndex(d) < r.entries[0].index <= Last(d) + 1
    requires CommitIndex(d) <= CommitAfter(d, r) <= LastAfter(d, r)
    ensures var d' := ReadyDisk(d, r);
            Resumable(log, d') && CommitIndex(d') == CommitAfter(d, r) && AppliedIndex(d') == AppliedIndex(d)
  {
    var ops := AppendPlan(r.entries).ops;
    var d1 := ApplyOps(d, ops);
    AppendKeepsIndexes(d, r.entries);
    AppendIsResumable(log, d, r.entries, |ops|);
    assert ops[..|ops|] == ops;
    if r.hs.Some? {
      AppendedCommitsLog(log, d, r);
      ApplySingle(d1, SetHardStateOp(r.hs.value));
      HardStateIsResumable(log, d1, r.hs.value);
    }
  }

  // A disk and books in order answer the next piece for the indexes after those handed over.
  lemma {:induction false} PieceIsStored(c: Life, d: Directory, l: Ledger, r: Ready, d': Directory)
    requires InOrder(c, d, l) && LegalReady(c, d, l, r) && r.committed != [] && d' == ReadyDisk(d, r)
    ensures var n := Handed(c, l); Entries(d', n + 1, n + |r.committed| + 1) == Ok(r.committed)
  {
    ReadyDiskIsResumable(c.log, d, r);
    AppliedIsHanded(c, d, l);
    CommittedEntriesAreReadable(c.log, ReadyDisk(d, r), Handed(c, l), Handed(c, l) + |r.committed|);
  }

  lemma PersistedDisk(s: Node, r: Ready)
    ensures Persist(s, r).disk == ReadyDisk(s.disk, r)
  {
  }

  /** Wherever a sound node stands, what Raft hands over next is what the storage then answers for the
      indexes after those handed over already, so redelivery after a restart takes nothing but the
      node's own files. */
  lemma {:induction false} HandedPieceIsStored(c: Life, s: Node, l: Ledger, r: Ready)
    requires ValidLife(c) && Sound(c, s) && s.status.Running? && l == Account(s.trace)
    requires LegalReady(c, s.disk, l, r) && r.committed != []
    ensures var n := Handed(c, l); Entries(Persist(s, r).disk, n + 1, n + |r.committed| + 1) == Ok(r.committed)
  {
    SoundIsInOrder(c, s);
    PersistedDisk(s, r);
    PieceIsStored(c, s.disk, l, r, Persist(s, r).disk);
  }

  // Delivery

  lemma DeliveryIsBooked(c: Life, d: Directory, l: Ledger, e: Entry)
    requires Booked(c, d, l) && Handed(c, l) < |c.log| && Handed(c, l) < CommitIndex(d)
    requires e == c.log[Handed(c, l)]
    ensures Booked(c, d, Post(l, Deliver(e)))
  {
    assert c.log[AppliedIndex(c.boot)..Handed(c, l) + 1] == l.handed + [e];
  }

  lemma DeliverIsDurable(c: Life, s: Node, e: Entry)
    requires Durable(c, s) && s.status.Running?
    requires NextPiece(c.log, Handed(c, Account(s.trace)), CommitIndex(s.disk), [e])
    ensures Durable(c, Do(s, Deliver(e)))
  {
    assert [e][0] == e;
    NoWriteIsCrashSafe(c, s.trace, Deliver(e));
    DeliveryIsBooked(c, s.disk, Account(s.trace), e);
  }

  lemma DeliverOneIsSound(c: Life, s: Node, e: Entry, now: nat)
    requires Sound(c, s) && s.status.Running? && NextPiece(c.log, Handed(c, Account(s.trace)), CommitIndex(s.disk), [e])
    ensures Sound(c, DeliverOne(s, e, now)) && DeliverOne(s, e, now).disk == s.disk
    ensures Account(DeliverOne(s, e, now).trace).handed == Account(s.trace).handed + [e]
  {
    DeliverOneIsGood(s, e, now);
    DeliverOneIsDurable(c, s, e, now);
  }

  lemma {:induction false} IdledBooks(t: Trace, t': Trace)
    requires Idled(t, t')
    ensures SameBooks(Account(t), Account(t'))
  {
    if t' != t {
      IdlingKeepsBooks(Account(t), t'.action);
    }
  }

  lemma DeliverOneIsDurable(c: Life, s: Node, e: Entry, now: nat)
    requires Durable(c, s) && s.status.Running?
    requires NextPiece(c.log, Handed(c, Account(s.trace)), CommitIndex(s.disk), [e])
    ensures Durable(c, DeliverOne(s, e, now)) && DeliverOne(s, e, now).disk == s.disk
    ensures Account(DeliverOne(s, e, now).trace).handed == Account(s.trace).handed + [e]
  {
    var s1, s2 := Do(s, Deliver(e)), DeliverOne(s, e, now);
    DeliverIsDurable(c, s, e);
    DeliverOneIdles(s, e, now);
    IdledBooks(s1.trace, s2.trace);
    IdlingIsQuiet(c, s1.trace, s2.trace);
    QuietIsDurable(c, s1, s2);
  }

  lemma DeliverOneIdles(s: Node, e: Entry, now: nat)
    ensures Idled(Then(s.trace, Deliver(e)), DeliverOne(s, e, now).trace) && DeliverOne(s, e, now).disk == s.disk
  {
    if e.payload.Conf? {
      var s1 := Do(s, Deliver(e));
      AdoptIdles(s1, ApplyConfChange(s1.self, s1.peers, e.payload.change), now);
    }
  }

  lemma AdoptIdles(s: Node, applied: Applied, now: nat)
    ensures Idled(s.trace, Adopt(s, applied, now).trace) && Adopt(s, applied, now).disk == s.disk
  {
  }

  lemma PieceByPiece(log: seq<Entry>, n: nat, commit: nat, entries: seq<Entry>)
    requires NextPiece(log, n, commit, entries) && entries != []
    ensures NextPiece(log, n, commit, [entries[0]]) && NextPiece(log, n + 1, commit, entries[1..])
  {
    assert log[n..n + 1] == [entries[0]];
    assert log[n + 1..n + |entries|] == entries[1..];
  }

  lemma {:induction false} DeliverAllIsSound(c: Life, s: Node, entries: seq<Entry>, now: nat)
    requires Sound(c, s) && s.status != Panicked
    requires NextPiece(c.log, Handed(c, Account(s.trace)), CommitIndex(s.disk), entries)
    ensures Sound(c, DeliverAll(s, entries, now))
    decreases |entries|
  {
    if entries != [] && s.status.Running? {
      var s1 := DeliverOne(s, entries[0], now);
      PieceByPiece(c.log, Handed(c, Account(s.trace)), CommitIndex(s.disk), entries);
      DeliverOneIsSound(c, s, entries[0], now);
      assert Handed(c, Account(s1.trace)) == Handed(c, Account(s.trace)) + 1;
      if s1.status.Running? {
        DeliverAllIsSound(c, s1, entries[1..], now);
      }
    }
  }

  lemma StepDownIdles(s: Node)
    ensures Idled(s.trace, StepDown(s).trace) && StepDown(s).disk == s.disk
  {
  }

  lemma {:induction false} StepDownIsSound(c: Life, s: Node, messages: seq<Message>)
    requires Sound(c, s) && s.status.Running?
    ensures var s' := SendAll(StepDown(s), messages);
            && Sound(c, s') && s'.disk == s.disk && (s'.status.Running? || s'.status.Panicked?)
            && Account(s'.trace).handed == Account(s.trace).handed
  {
    var s0 := StepDown(s);
    StepDownIsGood(s);
    StepDownIdles(s);
    SendAllIsGood(s0, messages);
    SendingIsNeutral(s0, messages);
    SendAllIsQuiet(c, s0, messages);
    IdlingIsQuiet(c, s.trace, s0.trace);
    QuietChains(c, s.trace, s0.trace, SendAll(s0, messages).trace);
    QuietIsDurable(c, s, SendAll(s0, messages));
  }

  lemma CommitNextIsSound(c: Life, s: Node)
    requires Sound(c, s) && s.status.Running?
    ensures Sound(c, CommitNext(s))
  {
    CommitNextIsGood(s);
    CommitNextIsQuiet(c, s);
    QuietIsDurable(c, s, CommitNext(s));
  }

  lemma FinishReadyIsSound(c: Life, s: Node, r: Ready)
    requires Sound(c, s) && s.status.Running?
    requires NextPiece(c.log, Handed(c, Account(s.trace)), CommitIndex(s.disk), r.committed)
    ensures Sound(c, FinishReady(s, r))
  {
    var s1 := if s.leads then s else SendAll(StepDown(s), r.messages);
    if !s.leads {
      StepDownIsSound(c, s, r.messages);
    }
    if s1.status.Running? {
      DeliverAllIsSound(c, s1, r.committed, r.now);
    }
    var s2 := DeliverAll(s1, r.committed, r.now);
    if s2.status.Running? {
      CommitNextIsSound(c, s2);
    }
  }

  lemma SameBooksStayLegal(c: Life, d: Directory, l: Ledger, m: Ledger, r: Ready)
    requires LegalReady(c, d, l, r) && SameBooks(l, m)
    ensures LegalReady(c, d, m, r)
  {
  }

  lemma PersistAndFinishIsSound(c: Life, s: Node, r: Ready)
    requires ValidLife(c) && Sound(c, s) && s.status.Running? && LegalReady(c, s.disk, Account(s.trace), r)
    ensures Sound(c, FinishReady(Persist(s, r), r))
  {
    PersistIsSound(c, s, r);
    FinishReadyIsSound(c, Persist(s, r), r);
  }

  lemma ProcessReadyIsSound(c: Life, s: Node, r: Ready)
    requires ValidLife(c) && Sound(c, s) && s.status.Running? && LegalReady(c, s.disk, Account(s.trace), r)
    ensures Sound(c, ProcessReady(s, r))
  {
    var s1 := PrepareReady(s, r);
    PrepareReadyIsSound(c, s, r);
    if s1.status.Running? {
      SameBooksStayLegal(c, s.disk, Account(s.trace), Account(s1.trace), r);
      PersistAndFinishIsSound(c, s1, r);
      assert StoreReady(s1, r) == FinishReady(Persist(s1, r), r);
    }
  }

  lemma TakeIsSound(c: Life, s: Node, turn: Turn)
    requires ValidLife(c) && Sound(c, s) && LegalTurn(c, s, turn)
    ensures Sound(c, Take(s, turn))
  {
    if s.status.Running? && turn.update.Some? {
      HandleUpdateIsSound(c, s, turn.update.value);
    }
    var s1, s2 := AfterUpdate(s, turn), AfterTick(s, turn);
    assert Sound(c, s1);
    if s1.status.Running? && turn.tick.Some? {
      TickIsSound(c, s1, turn.tick.value);
    }
    assert Sound(c, s2);
    if s2.status.Running? && turn.ready.Some? {
      ProcessReadyIsSound(c, s2, turn.ready.value);
    }
  }

  lemma {:induction false} PointAnywhere(c: Life, p: Trace, t: Trace)
    requires CrashSafe(c, t) && Before(p, t)
    ensures Point(c, p)
  {
    if p != t {
      PointAnywhere(c, p, t.before);
    }
  }

  // Machines: a node over its lives

  datatype Machine = Machine(history: seq<BlockId>, boot: Directory, node: Node)

  function LifeOf(log: seq<Entry>, m: Machine): Life {
    Life(log, m.history, m.boot)
  }

  // The blocks this machine has durably marked as applied, over all its lives.
  function Marked(m: Machine): seq<BlockId> {
    m.history + Account(m.node.trace).marked
  }

  ghost predicate SoundMachine(log: seq<Entry>, m: Machine) {
    ValidLife(LifeOf(log, m)) && Sound(LifeOf(log, m), m.node)
  }

  // A machine that has just initialized its empty data directory.
  function NewMachine(self: PeerId, period: nat, setting: seq<PeerId>): Machine {
    var d := Reopen(map[]);
    Machine([], d, Boot(self, period, setting, d))
  }

  // A crash at point `at` loses everything but the files; the node is started on them again.
  function Restart(m: Machine, at: Trace, period: nat, setting: seq<PeerId>): Machine {
    var d := Reopen(DiskAfter(m.boot, at));
    Machine(m.history + Account(at).marked, d, Boot(m.node.self, period, setting, d))
  }

  datatype Event =
    | Work(turn: Turn)
    | Crash(turn: Turn, at: Trace, period: nat, setting: seq<PeerId>)  // somewhere inside this turn

  ghost predicate LegalEvent(log: seq<Entry>, m: Machine, e: Event) {
    && LegalTurn(LifeOf(log, m), m.node, e.turn)
    && (e.Crash? ==> Before(m.node.trace, e.at) && Before(e.at, Take(m.node, e.turn).trace))
  }

  function Advance(m: Machine, e: Event): Machine {
    match e
    case Work(turn) => m.(node := Take(m.node, turn))
    case Crash(_, at, period, setting) => Restart(m, at, period, setting)
  }

  lemma NewMachineIsSound(log: seq<Entry>, self: PeerId, period: nat, setting: seq<PeerId>)
    requires IsLog(log)
    ensures SoundMachine(log, NewMachine(self, period, setting))
  {
    InitializationRecovers([]);
    var m := NewMachine(self, period, setting);
    assert Attempts(map[], []) == map[];
    FreshIsResumable(log, m.boot);
    assert log[..0] == [] && Ids([]) == [];
    BootIsSound(LifeOf(log, m), self, period, setting);
  }

  lemma AdvanceIsSound(log: seq<Entry>, m: Machine, e: Event)
    requires SoundMachine(log, m) && LegalEvent(log, m, e)
    ensures SoundMachine(log, Advance(m, e))
  {
    var c := LifeOf(log, m);
    TakeIsSound(c, m.node, e.turn);
    if e.Crash? {
      PointAnywhere(c, e.at, Take(m.node, e.turn).trace);
      var d := DiskAfter(m.boot, e.at);
      assert InitialState(d).Ok?;
      assert Reopen(d) == d;
      BootIsSound(LifeOf(log, Advance(m, e)), m.node.self, e.period, e.setting);
    }
  }

  // What a crash at this point of a machine's life leaves, its committed and unapplied entries readable.
  ghost predicate Resumes(log: seq<Entry>, m: Machine, at: Trace) {
    var d := DiskAfter(m.boot, at);
    && Resumable(log, d) && Reopen(d) == d
    && AppliedIndex(d) <= CommitIndex(d) <= |log|
    && (AppliedIndex(d) < CommitIndex(d) ==>
          Entries(d, AppliedIndex(d) + 1, CommitIndex(d) + 1) == Ok(log[AppliedIndex(d)..CommitIndex(d)]))
    && MarksRise(m.boot, at)
    && m.history + Account(at).marked == Ids(BlocksOf(log[..AppliedIndex(d)]))
  }

  lemma UnappliedIsReadable(log: seq<Entry>, d: Directory)
    requires Resumable(log, d)
    ensures AppliedIndex(d) <= CommitIndex(d) <= |log|
    ensures AppliedIndex(d) < CommitIndex(d) ==>
              Entries(d, AppliedIndex(d) + 1, CommitIndex(d) + 1) == Ok(log[AppliedIndex(d)..CommitIndex(d)])
  {
    if AppliedIndex(d) < CommitIndex(d) {
      CommittedEntriesAreReadable(log, d, AppliedIndex(d), CommitIndex(d));
    }
  }

  lemma {:induction false} PointResumes(log: seq<Entry>, m: Machine, at: Trace)
    requires Point(LifeOf(log, m), at) && MarksRise(m.boot, at)
    ensures Resumes(log, m, at)
  {
    assert InitialState(DiskAfter(m.boot, at)).Ok?;
    UnappliedIsReadable(log, DiskAfter(m.boot, at));
  }

  lemma {:induction false} SoundMachineResumes(log: seq<Entry>, m: Machine, turn: Turn, at: Trace)
    requires SoundMachine(log, m) && LegalTurn(LifeOf(log, m), m.node, turn)
    requires Before(at, Take(m.node, turn).trace)
    ensures Resumes(log, m, at)
  {
    TakeIsSound(LifeOf(log, m), m.node, turn);
    PointAnywhere(LifeOf(log, m), at, Take(m.node, turn).trace);
    CrashSafeMarksRise(LifeOf(log, m), Take(m.node, turn).trace);
    EarlierMarksRise(m.boot, at, Take(m.node, turn).trace);
    PointResumes(log, m, at);
  }

  lemma {:induction false} EarlierMarksRise(boot: Directory, p: Trace, t: Trace)
    requires MarksRise(boot, t) && Before(p, t)
    ensures MarksRise(boot, p)
  {
    if p != t {
      EarlierMarksRise(boot, p, t.before);
    }
  }

  // Clusters

  datatype ClusterEvent = ClusterEvent(who: nat, event: Event)

  function NewCluster(selves: seq<PeerId>, period: nat, setting: seq<PeerId>): seq<Machine> {
    seq(|selves|, i requires 0 <= i < |selves| => NewMachine(selves[i], period, setting))
  }

  function AdvanceCluster(ms: seq<Machine>, e: ClusterEvent): seq<Machine> {
    if e.who < |ms| then ms[e.who := Advance(ms[e.who], e.event)] else ms
  }

  function RunCluster(ms: seq<Machine>, es: seq<ClusterEvent>): seq<Machine> {
    if es == [] then ms else AdvanceCluster(RunCluster(ms, es[..|es| - 1]), es[|es| - 1])
  }

  ghost predicate LegalClusterRun(log: seq<Entry>, ms: seq<Machine>, es: seq<ClusterEvent>) {
    es != [] ==>
      var before, e := RunCluster(ms, es[..|es| - 1]), es[|es| - 1];
      && LegalClusterRun(log, ms, es[..|es| - 1])
      && (e.who < |before| ==> LegalEvent(log, before[e.who], e.event))
  }

  lemma {:induction false} ClusterIsSound(log: seq<Entry>, ms: seq<Machine>, es: seq<ClusterEvent>)
    requires LegalClusterRun(log, ms, es)
    requires forall i :: 0 <= i < |ms| ==> SoundMachine(log, ms[i])
    ensures |RunCluster(ms, es)| == |ms|
    ensures forall i :: 0 <= i < |ms| ==> SoundMachine(log, RunCluster(ms, es)[i])
  {
    if es != [] {
      ClusterIsSound(log, ms, es[..|es| - 1]);
      var before, e := RunCluster(ms, es[..|es| - 1]), es[|es| - 1];
      if e.who < |before| {
        AdvanceIsSound(log, before[e.who], e.event);
      }
    }
  }

  lemma SoundMachineMarks(log: seq<Entry>, m: Machine)
    requires SoundMachine(log, m)
    ensures AppliedIndex(m.node.disk) <= |log|
    ensures Marked(m) == Ids(BlocksOf(log[..AppliedIndex(m.node.disk)]))
    ensures MarksRise(m.boot, m.node.trace) && AppliedIndex(m.boot) <= AppliedIndex(m.node.disk)
  {
    CrashSafeMarksRise(LifeOf(log, m), m.node.trace);
  }

  lemma BlocksOfPrefix(log: seq<Entry>, a: nat, b: nat)
    requires a <= b <= |log|
    ensures Ids(BlocksOf(log[..a])) <= Ids(BlocksOf(log[..b]))
  {
    BlocksOfConcat(log[..a], log[a..b]);
    assert log[..a] + log[a..b] == log[..b];
    IdsConcat(BlocksOf(log[..a]), BlocksOf(log[a..b]));
  }

  lemma {:induction false} NewClusterIsSound(log: seq<Entry>, selves: seq<PeerId>, period: nat, setting: seq<PeerId>,
                                             es: seq<ClusterEvent>)
    requires IsLog(log) && LegalClusterRun(log, NewCluster(selves, period, setting), es)
    ensures var ms := RunCluster(NewCluster(selves, period, setting), es);
            |ms| == |selves| && forall i :: 0 <= i < |selves| ==> SoundMachine(log, ms[i])
  {
    var start := NewCluster(selves, period, setting);
    forall k | 0 <= k < |selves| ensures SoundMachine(log, start[k]) {
      NewMachineIsSound(log, selves[k], period, setting);
    }
    ClusterIsSound(log, start, es);
  }

  /** Whenever a node of a cluster crashes, wherever inside a turn, so also in the middle of a
      multi-file append: what it leaves has applied <= commit <= last and a complete log, the committed
      entries not yet applied are read back as they stand in the agreed log, applied rose at every mark,
      reopening changes nothing, and the blocks marked over all the node's lives are exactly those of
      the agreed log up to the applied index. */
  lemma {:induction false} CrashPointsResume(log: seq<Entry>, selves: seq<PeerId>, period: nat, setting: seq<PeerId>,
                                             es: seq<ClusterEvent>)
    requires IsLog(log) && LegalClusterRun(log, NewCluster(selves, period, setting), es)
    requires es != [] && es[|es| - 1].who < |selves| && es[|es| - 1].event.Crash?
    ensures var ms, crash := RunCluster(NewCluster(selves, period, setting), es[..|es| - 1]), es[|es| - 1];
            |ms| == |selves| && Resumes(log, ms[crash.who], crash.event.at)
  {
    var n := |es| - 1;
    NewClusterIsSound(log, selves, period, setting, es[..n]);
    var m := RunCluster(NewCluster(selves, period, setting), es[..n])[es[n].who];
    SoundMachineResumes(log, m, es[n].event.turn, es[n].event.at);
  }

  /** No forks, and exactly-once over any number of crashes: after any run of a cluster over one agreed
      log, each machine has marked exactly the blocks of the log up to its applied index, in order,
      and of any two machines one has marked a prefix of what the other has. */
  lemma {:induction false} NoForks(log: seq<Entry>, selves: seq<PeerId>, period: nat, setting: seq<PeerId>,
                es: seq<ClusterEvent>, i: nat, j: nat)
    requires IsLog(log) && LegalClusterRun(log, NewCluster(selves, period, setting), es)
    requires i < |selves| && j < |selves|
    ensures var ms := RunCluster(NewCluster(selves, period, setting), es);
            && |ms| == |selves|
            && AppliedIndex(ms[i].node.disk) <= |log|
            && Marked(ms[i]) == Ids(BlocksOf(log[..AppliedIndex(ms[i].node.disk)]))
            && MarksRise(ms[i].boot, ms[i].node.trace)
            && (Marked(ms[i]) <= Marked(ms[j]) || Marked(ms[j]) <= Marked(ms[i]))
  {
    NewClusterIsSound(log, selves, period, setting, es);
    var ms := RunCluster(NewCluster(selves, period, setting), es);
    SoundMachineMarks(log, ms[i]);
    SoundMachineMarks(log, ms[j]);
    var a, b := AppliedIndex(ms[i].node.disk), AppliedIndex(ms[j].node.disk);
    if a <= b {
      BlocksOfPrefix(log, a, b);
    } else {
      BlocksOfPrefix(log, b, a);
    }
  }
}
