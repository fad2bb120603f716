/** What a node leaves on its disk at every crash point, across all its lives. */
module Durability {
  import opened Types
  import opened Files
  import opened FsStorages
  import opened LogModel
  import opened BlockQueues
  import opened NodeSpec
  import opened Ledgers
  import opened NodeRuns

  // The agreed log: entry i has index i + 1. Raft guarantees that there is one (State Machine
  // Safety, section 5.4.3 of the Raft paper).
  ghost predicate IsLog(log: seq<Entry>) {
    forall i :: 0 <= i < |log| ==> log[i].index == i + 1
  }

  function AppliedIndex(d: Directory): nat {
    if FsStorages.Applied(d).Ok? then FsStorages.Applied(d).value else 0
  }

  function CommitIndex(d: Directory): nat {
    if ReadHardState(d).Ok? then ReadHardState(d).value.commit else 0
  }

  function Last(d: Directory): nat {
    if LastIndex(d).Ok? then LastIndex(d).value else 0
  }

  function First(d: Directory): nat {
    if FirstIndex(d).Ok? then FirstIndex(d).value else 0
  }

  // Every file can be read, what is applied is committed, what is committed is in the stored log, and
  // that log is complete.
  ghost predicate Complete(d: Directory) {
    && FirstIndex(d).Ok? && LastIndex(d).Ok? && FsStorages.Applied(d).Ok?
    && ReadHardState(d).Ok? && ReadSnapshot(d).Ok?
    && 1 <= First(d) <= AppliedIndex(d) + 1
    && AppliedIndex(d) <= CommitIndex(d) <= Last(d)
    && forall n: nat :: First(d) <= n <= Last(d) ==> ReadEntry(d, n).Ok? && ReadEntry(d, n).value.index == n
  }

  // The stored entry n is that of the agreed log.
  predicate Matches(log: seq<Entry>, d: Directory, n: nat) {
    1 <= n <= |log| && ReadEntry(d, n) == Ok(log[n - 1])
  }

  // The committed entries stored are those of the agreed log.
  ghost predicate Agrees(log: seq<Entry>, d: Directory) {
    && CommitIndex(d) <= |log|
    && forall n: nat :: 1 <= n && First(d) <= n <= CommitIndex(d) ==> Matches(log, d, n)
  }

  // A disk Raft can resume from.
  ghost predicate Resumable(log: seq<Entry>, d: Directory) {
    Complete(d) && Agrees(log, d)
  }

  lemma FreshIsResumable(log: seq<Entry>, d: Directory)
    requires Refines(d, FRESH)
    ensures Resumable(log, d) && AppliedIndex(d) == 0
  {
  }

  // On such a disk, committed entries from the first one not applied on are read back as they stand in
  // the agreed log.
  lemma CommittedEntriesAreReadable(log: seq<Entry>, d: Directory, low: nat, high: nat)
    requires Resumable(log, d) && AppliedIndex(d) <= low < high <= CommitIndex(d)
    ensures Entries(d, low + 1, high + 1) == Ok(log[low..high])
  {
    var entries := log[low..high];
    forall i | 0 <= i < |entries| ensures ReadEntry(d, low + 1 + i) == Ok(entries[i]) {
      assert Matches(log, d, low + 1 + i);
    }
    ReadEntriesAll(d, low + 1, high + 1, entries);
  }

  // One life of a node: the log, the blocks marked in its earlier lives, and its disk at boot.
  datatype Life = Life(log: seq<Entry>, history: seq<BlockId>, boot: Directory)

  ghost predicate ValidLife(c: Life) {
    && IsLog(c.log) && Resumable(c.log, c.boot)
    && AppliedIndex(c.boot) <= |c.log|
    && c.history == Ids(BlocksOf(c.log[..AppliedIndex(c.boot)]))
  }

  // The blocks marked as applied over all lives up to this point.
  function Marks(c: Life, t: Trace): seq<BlockId> {
    c.history + Account(t).marked
  }

  // The disk can be resumed from, and the blocks marked so far are exactly the blocks of the log up
  // to the applied index.
  ghost predicate PointAt(c: Life, d: Directory, marks: seq<BlockId>) {
    Resumable(c.log, d) && AppliedIndex(d) <= |c.log| && marks == Ids(BlocksOf(c.log[..AppliedIndex(d)]))
  }

  ghost predicate Point(c: Life, t: Trace) {
    PointAt(c, DiskAfter(c.boot, t), Marks(c, t))
  }

  // Each mark raises the applied index.
  predicate Rises(c: Life, t: Trace)
    requires t.Then?
  {
    t.action.Disk? && t.action.op.name == AppliedFile ==>
      AppliedIndex(DiskAfter(c.boot, t.before)) < AppliedIndex(DiskAfter(c.boot, t))
  }

  ghost predicate CrashSafe(c: Life, t: Trace) {
    Point(c, t) && (t.Then? ==> Rises(c, t) && CrashSafe(c, t.before))
  }

  // The applied index rises strictly at every mark in this trace.
  predicate MarksRise(boot: Directory, t: Trace) {
    t.Then? ==>
      && MarksRise(boot, t.before)
      && (t.action.Disk? && t.action.op.name == AppliedFile ==>
            AppliedIndex(DiskAfter(boot, t.before)) < AppliedIndex(DiskAfter(boot, t)))
  }

  lemma {:induction false} CrashSafeMarksRise(c: Life, t: Trace)
    requires CrashSafe(c, t)
    ensures MarksRise(c.boot, t) && AppliedIndex(c.boot) <= AppliedIndex(DiskAfter(c.boot, t))
  {
    if t.Then? {
      CrashSafeMarksRise(c, t.before);
      if t.action.Disk? && t.action.op.name != AppliedFile {
        OtherWritesKeepApplied(DiskAfter(c.boot, t.before), t.action);
      }
    }
  }

  lemma OtherWritesKeepApplied(d: Directory, a: Action)
    requires a.Disk? && a.op.name != AppliedFile
    ensures AppliedIndex(ApplyOp(d, a.op)) == AppliedIndex(d)
  {
  }

  // Between handlers every pop has been marked, and what Raft handed over is committed on disk.
  ghost predicate Booked(c: Life, d: Directory, l: Ledger) {
    var start := AppliedIndex(c.boot);
    && start + |l.handed| <= |c.log| && l.handed == c.log[start..start + |l.handed|]
    && start + |l.handed| <= CommitIndex(d)
    && l.marked == Ids(l.popped)
    && AppliedIndex(d) == if l.popped == [] then start else l.popped[|l.popped| - 1].1
  }

  ghost predicate Durable(c: Life, s: Node) {
    && CrashSafe(c, s.trace) && s.disk == DiskAfter(c.boot, s.trace)
    && (s.status != Panicked ==> Booked(c, s.disk, Account(s.trace)))
  }

  ghost predicate Sound(c: Life, s: Node) {
    Good(s) && Durable(c, s)
  }

  lemma BootIsSound(c: Life, self: PeerId, period: nat, setting: seq<PeerId>)
    requires ValidLife(c)
    ensures Sound(c, Boot(self, period, setting, c.boot))
  {
    BootIsGood(self, period, setting, c.boot);
    assert c.history + [] == c.history;
    assert Ids([]) == [];
    assert Resumable(c.log, c.boot);
  }

  // Blocks of the log

  lemma BlocksOfLonger(a: seq<Entry>, b: seq<Entry>)
    requires b != []
    ensures BlocksOf(a + b) == BlocksOf(a + b[..|b| - 1]) + BlockIn(b[|b| - 1])
  {
    assert (a + b)[..|a| + |b| - 1] == a + b[..|b| - 1];
  }

  lemma Associative<T>(a: seq<T>, b: seq<T>, c: seq<T>)
    ensures (a + b) + c == a + (b + c)
  {
  }

  lemma {:induction false} BlocksOfConcat(a: seq<Entry>, b: seq<Entry>)
    ensures BlocksOf(a + b) == BlocksOf(a) + BlocksOf(b)
  {
    if b == [] {
      assert a + b == a;
    } else {
      BlocksOfConcat(a, b[..|b| - 1]);
      BlocksOfLonger(a, b);
      Associative(BlocksOf(a), BlocksOf(b[..|b| - 1]), BlockIn(b[|b| - 1]));
    }
  }

  lemma BlocksOfSlice(log: seq<Entry>, start: nat, end: nat)
    requires start < end <= |log|
    ensures BlocksOf(log[start..end]) == BlocksOf(log[start..end - 1]) + BlockIn(log[end - 1])
  {
    assert log[start..end][..|log[start..end]| - 1] == log[start..end - 1];
  }

  // These block indexes rise from above `start` up to `end`.
  ghost predicate Rising(bs: seq<(BlockId, nat)>, start: nat, end: nat) {
    && (forall i :: 0 <= i < |bs| ==> start < bs[i].1 <= end)
    && (forall i, j :: 0 <= i < j < |bs| ==> bs[i].1 < bs[j].1)
  }

  lemma OneMoreRises(bs: seq<(BlockId, nat)>, b: seq<(BlockId, nat)>, start: nat, end: nat)
    requires start < end && Rising(bs, start, end - 1)
    requires |b| <= 1 && (b != [] ==> b[0].1 == end)
    ensures Rising(bs + b, start, end)
  {
  }

  lemma {:induction false} BlockIndexesRise(log: seq<Entry>, start: nat, end: nat)
    requires IsLog(log) && start <= end <= |log|
    ensures Rising(BlocksOf(log[start..end]), start, end)
    decreases end
  {
    if start < end {
      BlockIndexesRise(log, start, end - 1);
      BlocksOfSlice(log, start, end);
      assert log[end - 1].index == end;
      OneMoreRises(BlocksOf(log[start..end - 1]), BlockIn(log[end - 1]), start, end);
    }
  }

  // The blocks up to and including block k are those of the log up to the index of block k.
  lemma {:induction false} BlocksUpTo(log: seq<Entry>, start: nat, end: nat, bs: seq<(BlockId, nat)>, k: nat)
    requires IsLog(log) && start <= end <= |log| && bs == BlocksOf(log[start..end]) && k < |bs|
    ensures start < bs[k].1 <= end && BlocksOf(log[start..bs[k].1]) == bs[..k + 1]
    decreases end
  {
    if start < end {
      BlocksOfSlice(log, start, end);
      var shorter := BlocksOf(log[start..end - 1]);
      assert log[end - 1].index == end;
      if k < |shorter| {
        BlocksUpTo(log, start, end - 1, shorter, k);
        assert bs[k] == shorter[k] && bs[..k + 1] == shorter[..k + 1];
      } else {
        assert bs[k].1 == end && bs[..k + 1] == bs;
      }
    }
  }

  lemma IdsConcat(a: seq<(BlockId, nat)>, b: seq<(BlockId, nat)>)
    ensures Ids(a + b) == Ids(a) + Ids(b)
  {
  }

  // Marking the block just popped keeps the marks equal to the blocks up to the applied index.
  lemma MarksGrow(log: seq<Entry>, start: nat, end: nat, popped: seq<(BlockId, nat)>)
    requires IsLog(log) && start <= end <= |log|
    requires popped <= BlocksOf(log[start..end]) && popped != []
    ensures var index := popped[|popped| - 1].1;
            && start < index <= end
            && Ids(BlocksOf(log[..start])) + Ids(popped) == Ids(BlocksOf(log[..index]))
            && (|popped| > 1 ==> popped[|popped| - 2].1 < index)
  {
    var k, index, bs := |popped| - 1, popped[|popped| - 1].1, BlocksOf(log[start..end]);
    BlocksUpTo(log, start, end, bs, k);
    BlockIndexesRise(log, start, end);
    assert bs[k] == popped[k] && popped == bs[..k + 1];
    IdsUpTo(log, start, index, popped);
    if k > 0 {
      assert bs[k - 1] == popped[k - 1];
    }
  }

  lemma IdsUpTo(log: seq<Entry>, start: nat, index: nat, popped: seq<(BlockId, nat)>)
    requires start <= index <= |log| && BlocksOf(log[start..index]) == popped
    ensures Ids(BlocksOf(log[..start])) + Ids(popped) == Ids(BlocksOf(log[..index]))
  {
    BlocksOfConcat(log[..start], log[start..index]);
    assert log[..start] + log[start..index] == log[..index];
    IdsConcat(BlocksOf(log[..start]), popped);
  }

  // Steps that write nothing

  predicate SameBooks(l: Ledger, m: Ledger) {
    l.handed == m.handed && l.popped == m.popped && l.marked == m.marked
  }

  // These actions leave disk and books alone.
  ghost predicate QuietTrace(c: Life, t: Trace, t': Trace) {
    && SameBooks(Account(t), Account(t'))
    && DiskAfter(c.boot, t') == DiskAfter(c.boot, t)
    && (CrashSafe(c, t) ==> CrashSafe(c, t'))
  }

  ghost predicate Quiet(c: Life, s: Node, s': Node) {
    s'.disk == s.disk && QuietTrace(c, s.trace, s'.trace)
  }

  lemma SameBooksAreBooked(c: Life, d: Directory, l: Ledger, m: Ledger)
    requires Booked(c, d, l) && SameBooks(l, m)
    ensures Booked(c, d, m)
  {
  }

  lemma QuietIsDurable(c: Life, s: Node, s': Node)
    requires Durable(c, s) && s.status != Panicked && Quiet(c, s, s')
    ensures Durable(c, s')
  {
    SameBooksAreBooked(c, s.disk, Account(s.trace), Account(s'.trace));
  }

  // Actions that neither write nor move entries and blocks.
  predicate Idling(a: Action) {
    !a.Disk? && !a.Deliver? && !a.Pop?
  }

  // At most one such action was taken.
  predicate Idled(t: Trace, t': Trace) {
    t' == t || (t'.Then? && t'.before == t && Idling(t'.action))
  }

  lemma IdlingKeepsBooks(l: Ledger, a: Action)
    requires Idling(a)
    ensures SameBooks(l, Post(l, a))
  {
  }

  lemma IdlingIsQuiet(c: Life, t: Trace, t': Trace)
    requires Idled(t, t')
    ensures QuietTrace(c, t, t')
  {
    if t' != t {
      IdlingKeepsBooks(Account(t), t'.action);
      if CrashSafe(c, t) {
        NoWriteIsCrashSafe(c, t, t'.action);
      }
    }
  }

  lemma {:induction false} NoWriteIsCrashSafe(c: Life, t: Trace, a: Action)
    requires CrashSafe(c, t) && !a.Disk?
    ensures CrashSafe(c, Then(t, a)) && DiskAfter(c.boot, Then(t, a)) == DiskAfter(c.boot, t)
  {
    assert Post(Account(t), a).marked == Account(t).marked;
  }

  lemma QuietChains(c: Life, t: Trace, t': Trace, t'': Trace)
    requires QuietTrace(c, t, t') && QuietTrace(c, t', t'')
    ensures QuietTrace(c, t, t'')
  {
  }

  lemma {:induction false} SendAllIsQuiet(c: Life, s: Node, messages: seq<Message>)
    ensures Quiet(c, s, SendAll(s, messages))
  {
    if messages == [] {
      IdlingIsQuiet(c, s.trace, s.trace);
    } else {
      var s1 := SendAll(s, messages[..|messages| - 1]);
      SendAllIsQuiet(c, s, messages[..|messages| - 1]);
      IdlingIsQuiet(c, s1.trace, SendOne(s1, messages[|messages| - 1]).trace);
      QuietChains(c, s.trace, s1.trace, SendAll(s, messages).trace);
    }
  }

  lemma OnBlockValidIsQuiet(c: Life, s: Node, id: BlockId)
    ensures Quiet(c, s, OnBlockValid(s, id))
  {
    var t1, t2 := Then(s.trace, Validated(id)), OnBlockValid(s, id).trace;
    IdlingIsQuiet(c, s.trace, t1);
    IdlingIsQuiet(c, t1, t2);
    QuietChains(c, s.trace, t1, t2);
  }

  lemma CommitNextIsQuiet(c: Life, s: Node)
    ensures Quiet(c, s, CommitNext(s))
  {
    var s1 := s;
    if NextCommittable(s.queue).Some? && s.leader == Some(Proposing(NextCommittable(s.queue).value)) {
      var id := NextCommittable(s.queue).value;
      s1 := Do(s.(leader := Some(LeaderState.Committing(id))), Commit(id));
    }
    IdlingIsQuiet(c, s.trace, s1.trace);
    IdlingIsQuiet(c, s1.trace, CommitNext(s).trace);
    QuietChains(c, s.trace, s1.trace, CommitNext(s).trace);
  }

  // Steps that write

  lemma MarkIsResumable(log: seq<Entry>, d: Directory, index: nat)
    requires Resumable(log, d) && AppliedIndex(d) <= index <= CommitIndex(d)
    ensures var d' := ApplyOp(d, SetAppliedOp(index));
            Resumable(log, d') && AppliedIndex(d') == index && CommitIndex(d') == CommitIndex(d)
  {
    var d' := ApplyOp(d, SetAppliedOp(index));
    assert forall n: nat :: ReadEntry(d', n) == ReadEntry(d, n);
    assert forall n: nat :: Matches(log, d, n) ==> Matches(log, d', n);
  }

  lemma MarkIsPoint(c: Life, d: Directory, marks: seq<BlockId>, index: nat)
    requires Resumable(c.log, d) && AppliedIndex(d) < index <= CommitIndex(d) && index <= |c.log|
    requires marks == Ids(BlocksOf(c.log[..index]))
    ensures PointAt(c, ApplyOp(d, SetAppliedOp(index)), marks)
    ensures AppliedIndex(d) < AppliedIndex(ApplyOp(d, SetAppliedOp(index)))
  {
    MarkIsResumable(c.log, d, index);
  }

  lemma {:induction false} PointIsCrashSafe(c: Life, t: Trace, a: Action)
    requires CrashSafe(c, t) && Point(c, Then(t, a)) && Rises(c, Then(t, a))
    ensures CrashSafe(c, Then(t, a))
  {
  }

  lemma {:induction false} MarkIsCrashSafe(c: Life, t: Trace, index: nat)
    requires CrashSafe(c, t) && AppliedIndex(DiskAfter(c.boot, t)) < index <= CommitIndex(DiskAfter(c.boot, t))
    requires index <= |c.log| && Marks(c, Then(t, Disk(SetAppliedOp(index)))) == Ids(BlocksOf(c.log[..index]))
    ensures CrashSafe(c, Then(t, Disk(SetAppliedOp(index))))
  {
    var mark := Disk(SetAppliedOp(index));
    MarkIsPoint(c, DiskAfter(c.boot, t), Marks(c, Then(t, mark)), index);
    PointIsCrashSafe(c, t, mark);
  }

  // The books before and after a block is popped and marked.
  lemma MarkBalances(c: Life, d: Directory, l: Ledger, front: (BlockId, nat))
    requires ValidLife(c) && Resumable(c.log, d) && Booked(c, d, l) && l.blocks == BlocksOf(l.handed)
    requires l.popped + [front] <= l.blocks
    ensures AppliedIndex(d) < front.1 <= CommitIndex(d) && front.1 <= |c.log|
    ensures c.history + (l.marked + [front.0]) == Ids(BlocksOf(c.log[..front.1]))
    ensures Booked(c, ApplyOp(d, SetAppliedOp(front.1)), Settle(l, front))
  {
    var start := AppliedIndex(c.boot);
    MarksGrow(c.log, start, start + |l.handed|, l.popped + [front]);
    IdsConcat(l.popped, [front]);
    assert Ids([front]) == [front.0];
    MarkIsResumable(c.log, d, front.1);
    SettleIsBooked(c, d, ApplyOp(d, SetAppliedOp(front.1)), l, front);
  }

  // The block is popped and marked.
  function Settle(l: Ledger, front: (BlockId, nat)): Ledger {
    l.(popped := l.popped + [front], marked := l.marked + [front.0])
  }

  lemma SettleIsBooked(c: Life, d: Directory, d': Directory, l: Ledger, front: (BlockId, nat))
    requires Booked(c, d, l) && AppliedIndex(d') == front.1 && CommitIndex(d') == CommitIndex(d)
    requires Ids(l.popped + [front]) == Ids(l.popped) + [front.0]
    ensures Booked(c, d', Settle(l, front))
  {
  }

  lemma FinishBlockTrace(s: Node)
    requires s.queue.commits != [] && s.status.Running?
    ensures var s', front := FinishBlock(s), s.queue.commits[0];
            && s'.trace == Then(Then(s.trace, Pop(front.0, front.1)), Disk(SetAppliedOp(front.1)))
            && s'.disk == ApplyOp(s.disk, SetAppliedOp(front.1)) && s'.status.Running?
            && Account(s'.trace) == Settle(Account(s.trace), front)
  {
    var front := s.queue.commits[0];
    var t1 := Then(s.trace, Pop(front.0, front.1));
    assert Account(t1) == Account(s.trace).(popped := Account(s.trace).popped + [front]);
  }

  lemma FinishBlockIsSound(c: Life, s: Node)
    requires ValidLife(c) && Sound(c, s) && s.status.Running? && InFlight(s).Some?
    ensures Durable(c, FinishBlock(s)) && FinishBlock(s).status.Running?
  {
    HandedBlocks(s.trace);
    FrontIsNext(s, Account(s.trace));
    MarkBalances(c, s.disk, Account(s.trace), s.queue.commits[0]);
    MarkIsDurable(c, s, s.queue.commits[0]);
  }

  lemma {:induction false} MarkIsDurable(c: Life, s: Node, front: (BlockId, nat))
    requires CrashSafe(c, s.trace) && s.disk == DiskAfter(c.boot, s.trace) && s.status.Running?
    requires s.queue.commits != [] && s.queue.commits[0] == front
    requires AppliedIndex(s.disk) < front.1 <= CommitIndex(s.disk) && front.1 <= |c.log|
    requires c.history + (Account(s.trace).marked + [front.0]) == Ids(BlocksOf(c.log[..front.1]))
    requires Booked(c, ApplyOp(s.disk, SetAppliedOp(front.1)), Settle(Account(s.trace), front))
    ensures Durable(c, FinishBlock(s)) && FinishBlock(s).status.Running?
  {
    FinishBlockTrace(s);
    NoWriteIsCrashSafe(c, s.trace, Pop(front.0, front.1));
    MarkIsCrashSafe(c, Then(s.trace, Pop(front.0, front.1)), front.1);
  }

  lemma FrontIsNext(s: Node, l: Ledger)
    requires Fits(s, l) && InFlight(s).Some?
    ensures s.queue.commits != [] && l.popped + [s.queue.commits[0]] <= l.blocks
  {
    assert s.queue.commits == [s.queue.commits[0]] + s.queue.commits[1..];
    assert l.blocks == (l.popped + [s.queue.commits[0]]) + s.queue.commits[1..];
  }

  // A crash after any of these operations leaves a disk to resume from.
  ghost predicate ResumableThroughout(log: seq<Entry>, d: Directory, ops: seq<FileOp>) {
    forall k: nat :: k <= |ops| ==> Resumable(log, ApplyOps(d, ops[..k]))
  }

  lemma {:induction false} ResumableBefore(log: seq<Entry>, d: Directory, ops: seq<FileOp>)
    requires ResumableThroughout(log, d, ops) && ops != []
    ensures ResumableThroughout(log, d, ops[..|ops| - 1]) && Resumable(log, ApplyOps(d, ops))
  {
    var earlier := ops[..|ops| - 1];
    forall k: nat | k <= |earlier| ensures Resumable(log, ApplyOps(d, earlier[..k])) {
      assert earlier[..k] == ops[..k];
    }
    assert ops[..|ops|] == ops;
  }

  lemma {:induction false} RecordReplays(boot: Directory, t: Trace, ops: seq<FileOp>)
    ensures DiskAfter(boot, Record(t, ops)) == ApplyOps(DiskAfter(boot, t), ops)
  {
    if ops != [] {
      RecordReplays(boot, t, ops[..|ops| - 1]);
    }
  }

  lemma {:induction false} RecordIsCrashSafe(c: Life, t: Trace, ops: seq<FileOp>)
    requires CrashSafe(c, t)
    requires forall i :: 0 <= i < |ops| ==> ops[i].name != AppliedFile
    requires ResumableThroughout(c.log, DiskAfter(c.boot, t), ops)
    ensures CrashSafe(c, Record(t, ops))
    ensures DiskAfter(c.boot, Record(t, ops)) == ApplyOps(DiskAfter(c.boot, t), ops)
  {
    RecordReplays(c.boot, t, ops);
    if ops != [] {
      var n := |ops| - 1;
      ResumableBefore(c.log, DiskAfter(c.boot, t), ops);
      RecordIsCrashSafe(c, t, ops[..n]);
      WriteIsCrashSafe(c, Record(t, ops[..n]), ops[n]);
    }
  }

  lemma {:induction false} WriteIsCrashSafe(c: Life, t: Trace, op: FileOp)
    requires CrashSafe(c, t) && op.name != AppliedFile && Resumable(c.log, ApplyOp(DiskAfter(c.boot, t), op))
    ensures CrashSafe(c, Then(t, Disk(op)))
  {
    assert Post(Account(t), Disk(op)) == Account(t);
    assert AppliedIndex(ApplyOp(DiskAfter(c.boot, t), op)) == AppliedIndex(DiskAfter(c.boot, t));
    PointIsCrashSafe(c, t, Disk(op));
  }
}
