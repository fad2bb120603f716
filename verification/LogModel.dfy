/** The log the storage interface documents: a base index and term and the entries above them, in
    memory. FsStorage is proved to behave like it, whatever stale files it leaves behind. */
module LogModel {
  import opened Types
  import opened Files
  import opened FsStorages

  datatype RaftLog = RaftLog(base: nat, baseTerm: nat, entries: seq<Entry>) {
    function Last(): nat { base + |entries| }

    function At(index: nat): Entry
      requires base < index <= Last()
    {
      entries[index - base - 1]
    }
  }

  ghost predicate Ordered(l: RaftLog) {
    forall n: nat :: l.base < n <= l.Last() ==> l.At(n).index == n && 1 <= l.At(n).term
  }

  ghost predicate WellFormed(l: RaftLog) {
    Ordered(l) && (l.base == 0 <==> l.baseTerm == 0)
  }

  predicate Contiguous(entries: seq<Entry>) {
    forall i :: 0 <= i < |entries| ==> entries[i].index == entries[0].index + i
  }

  // The storage held in memory.
  datatype Store = Store(log: RaftLog, hardState: HardState, snapshot: Snapshot, applied: nat)

  const FRESH := Store(RaftLog(0, 0, []), NO_HARD_STATE, NO_SNAPSHOT, 0)

  function LogEntries(l: RaftLog, low: nat, high: nat): Result<seq<Entry>> {
    if low > high || l.entries == [] then Err(Compacted)
    else if low == high then Ok([])
    else if low <= l.base then Err(Compacted)
    else if high > l.Last() + 1 then Err(Unavailable)
    else Ok(l.entries[low - l.base - 1..high - l.base - 1])
  }

  function LogTerm(l: RaftLog, index: nat): Result<nat>
    requires index <= l.Last()
  {
    if l.base < index then Ok(l.At(index).term)
    else if index == l.base then Ok(l.baseTerm)
    else if index == 0 then Ok(0)
    else Err(Compacted)
  }

  datatype Call =
    | Append(entries: seq<Entry>)
    | Compact(index: nat)
    | CreateSnapshot(index: nat, confState: Option<ConfState>, data: seq<byte>)
    | ApplySnapshot(snapshot: Snapshot)
    | SetHardState(hs: HardState)
    | SetApplied(applied: nat)

  datatype Reply = Done | Created(snapshot: Snapshot) | Failed(error: StorageError)

  // An overlapping append truncates.
  function LogAppend(l: RaftLog, entries: seq<Entry>): RaftLog
    requires entries != [] ==> l.base < entries[0].index <= l.Last() + 1
  {
    if entries == [] then l else l.(entries := l.entries[..entries[0].index - l.base - 1] + entries)
  }

  function LogCompact(l: RaftLog, index: nat): RaftLog
    requires l.base < index <= l.Last()
  {
    RaftLog(index, l.At(index).term, l.entries[index - l.base..])
  }

  // What the callers of the storage interface have to respect.
  ghost predicate Legal(s: Store, call: Call) {
    match call
    case Append(entries) =>
      && Contiguous(entries)
      && (entries != [] ==> s.log.base < entries[0].index <= s.log.Last() + 1)
      && (forall i :: 0 <= i < |entries| ==> 1 <= entries[i].term)
    case Compact(index) => index <= s.log.Last()
    case ApplySnapshot(snapshot) => snapshot.index <= s.log.Last()
    case _ => true
  }

  function Step(s: Store, call: Call): (Store, Reply)
    requires Legal(s, call)
  {
    match call
    case Append(entries) => (s.(log := LogAppend(s.log, entries)), Done)
    case Compact(index) =>
      if index <= s.log.base then (s, Failed(Compacted)) else (s.(log := LogCompact(s.log, index)), Done)
    case CreateSnapshot(index, confState, data) =>
      if index <= s.snapshot.index then (s, Failed(SnapshotOutOfDate))
      else if index <= s.log.base || s.log.Last() < index then (s, Failed(Panic))
      else
        var created := Snapshot(index, s.log.At(index).term,
                            if confState.Some? then confState else s.snapshot.confState, data);
        (s.(snapshot := created), Created(created))
    case ApplySnapshot(snapshot) =>
      if snapshot.index <= s.snapshot.index then (s, Failed(SnapshotOutOfDate))
      else if snapshot.index <= s.log.base then (s, Failed(Compacted))
      else (s.(log := LogCompact(s.log, snapshot.index), snapshot := snapshot), Done)
    case SetHardState(hs) => (s.(hardState := hs), Done)
    case SetApplied(applied) => (s.(applied := applied), Done)
  }

  // The same calls on FsStorage.

  function CallPlan(d: Directory, call: Call): (seq<FileOp>, Reply) {
    match call
    case Append(entries) => (AppendPlan(entries).ops, Done)
    case Compact(index) => (CompactPlan(d, index).ops, Answer(CompactPlan(d, index)))
    case CreateSnapshot(index, confState, data) =>
      var plan := CreateSnapshotPlan(d, index, confState, data);
      (plan.ops, if plan.answer.Ok? then Created(plan.answer.value) else Failed(plan.answer.error))
    case ApplySnapshot(snapshot) => (ApplySnapshotPlan(d, snapshot).ops, Answer(ApplySnapshotPlan(d, snapshot)))
    case SetHardState(hs) => ([SetHardStateOp(hs)], Done)
    case SetApplied(applied) => ([SetAppliedOp(applied)], Done)
  }

  function Answer(plan: Plan<()>): Reply {
    if plan.answer.Ok? then Done else Failed(plan.answer.error)
  }

  function FsStep(d: Directory, call: Call): (Directory, Reply) {
    var (ops, reply) := CallPlan(d, call);
    (ApplyOps(d, ops), reply)
  }

  // The log a reader sees: first and last index and the entries (with their terms) in between.
  ghost predicate Shows(d: Directory, l: RaftLog) {
    && FirstIndex(d) == Ok(l.base + 1)
    && LastIndex(d) == Ok(l.Last())
    && (forall n: nat :: l.base < n <= l.Last() ==> ReadEntry(d, n) == Ok(l.At(n)))
  }

  ghost predicate HoldsLog(d: Directory, l: RaftLog) {
    && Shows(d, l)
    && ReadNum(d, TermFile) == Ok(l.baseTerm)
    && (forall n: nat :: n <= l.base ==> EntryFile(n) !in d)
  }

  ghost predicate Refines(d: Directory, s: Store) {
    && WellFormed(s.log)
    && HoldsLog(d, s.log)
    && ReadHardState(d) == Ok(s.hardState)
    && ReadSnapshot(d) == Ok(s.snapshot)
    && Applied(d) == Ok(s.applied)
  }

  // What initial_state reads.
  function StateOf(s: Store): RaftState {
    RaftState(s.hardState, if s.snapshot.confState.Some? then s.snapshot.confState.value else ConfState([]))
  }

  // Every reader answers as the log does; entries() for all its arguments.
  lemma ReadersAgree(d: Directory, s: Store, low: nat, high: nat, index: nat)
    requires Refines(d, s)
    ensures Entries(d, low, high) == LogEntries(s.log, low, high)
    ensures index <= s.log.Last() ==> Term(d, index) == LogTerm(s.log, index)
    ensures s.log.Last() < index ==>
              Term(d, index) == match ReadEntry(d, index)
                                case Ok(stale) => Ok(stale.term)
                                case Err(NotFound) => Err(if s.log.base == 0 then Unavailable else Compacted)
                                case Err(e) => Err(e)
    ensures FirstIndex(d) == Ok(s.log.base + 1) && LastIndex(d) == Ok(s.log.Last())
    ensures FsStorages.Applied(d) == Ok(s.applied) && ReadSnapshot(d) == Ok(s.snapshot)
    ensures ReadHardState(d) == Ok(s.hardState) && InitialState(d) == Ok(StateOf(s))
  {
    var l := s.log;
    if l.base < low < high <= l.Last() + 1 {
      var slice := l.entries[low - l.base - 1..high - l.base - 1];
      forall i | 0 <= i < |slice| ensures ReadEntry(d, low + i) == Ok(slice[i]) {
        assert slice[i] == l.At(low + i);
      }
      ReadEntriesAll(d, low, high, slice);
    }
    if l.base < index <= l.Last() {
      assert ReadEntry(d, index) == Ok(l.At(index));
    }
  }

  // The files after the first k writes of an append.
  lemma {:induction false} EntryWritesEffect(d: Directory, entries: seq<Entry>, k: nat, name: FileName)
    requires Contiguous(entries) && k <= |entries|
    ensures var d' := ApplyOps(d, EntryWrites(entries)[..k]);
            if name.EntryFile? && entries != [] && entries[0].index <= name.index < entries[0].index + k
            then name in d' && d'[name] == Log(entries[name.index - entries[0].index])
            else Same(d, d', name)
  {
    if k > 0 {
      EntryWritesEffect(d, entries, k - 1, name);
      ApplyOneMore(d, EntryWrites(entries), k - 1);
    }
  }

  // The files after the first k removals of a compaction.
  lemma {:induction false} RemovalsEffect(d: Directory, entries: seq<Entry>, k: nat, name: FileName)
    requires Contiguous(entries) && k <= |entries|
    ensures var d' := ApplyOps(d, Removals(entries)[..k]);
            if name.EntryFile? && entries != [] && entries[0].index <= name.index < entries[0].index + k
            then name !in d'
            else Same(d, d', name)
  {
    if k > 0 {
      RemovalsEffect(d, entries, k - 1, name);
      ApplyOneMore(d, Removals(entries), k - 1);
    }
  }

  // The whole of an append: its writes, then the last index.
  lemma {:induction false} AppendEffect(d: Directory, entries: seq<Entry>)
    requires entries != []
    ensures ApplyOps(d, AppendPlan(entries).ops) ==
            ApplyOps(d, EntryWrites(entries))[LastFile := Num(entries[|entries| - 1].index)]
  {
    var op := Write(LastFile, Num(entries[|entries| - 1].index));
    ApplyOpsConcat(d, EntryWrites(entries), [op]);
    ApplySingle(ApplyOps(d, EntryWrites(entries)), op);
  }

  lemma {:induction false} AppendedEntry(d: Directory, l: RaftLog, entries: seq<Entry>, i: nat)
    requires WellFormed(l) && HoldsLog(d, l) && Contiguous(entries) && entries != []
    requires l.base < entries[0].index <= l.Last() + 1
    requires forall i :: 0 <= i < |entries| ==> 1 <= entries[i].term
    ensures var d', l' := ApplyOps(d, EntryWrites(entries)), LogAppend(l, entries);
            && (i <= l.base ==> EntryFile(i) !in d')
            && (l.base < i <= l'.Last() ==>
                  ReadEntry(d', i) == Ok(l'.At(i)) && l'.At(i).index == i && 1 <= l'.At(i).term)
  {
    EntryWritesEffect(d, entries, |entries|, EntryFile(i));
    assert EntryWrites(entries)[..|entries|] == EntryWrites(entries);
    var l', start := LogAppend(l, entries), entries[0].index;
    if l.base < i < start {
      assert l'.At(i) == l.At(i) && ReadEntry(d, i) == Ok(l.At(i));
    } else if start <= i <= l'.Last() {
      assert l'.At(i) == entries[i - start];
    }
  }

  lemma {:induction false} AppendedLog(d: Directory, l: RaftLog, entries: seq<Entry>)
    requires WellFormed(l) && HoldsLog(d, l) && Contiguous(entries) && entries != []
    requires l.base < entries[0].index <= l.Last() + 1
    requires forall i :: 0 <= i < |entries| ==> 1 <= entries[i].term
    ensures var d', l' := ApplyOps(d, EntryWrites(entries)), LogAppend(l, entries);
            && WellFormed(l')
            && (forall n: nat :: l'.base < n <= l'.Last() ==> ReadEntry(d', n) == Ok(l'.At(n)))
            && (forall n: nat :: n <= l'.base ==> EntryFile(n) !in d')
  {
    forall n: nat
      ensures var d', l' := ApplyOps(d, EntryWrites(entries)), LogAppend(l, entries);
              && (n <= l'.base ==> EntryFile(n) !in d')
              && (l'.base < n <= l'.Last() ==>
                    ReadEntry(d', n) == Ok(l'.At(n)) && l'.At(n).index == n && 1 <= l'.At(n).term)
    {
      AppendedEntry(d, l, entries, n);
    }
  }

  lemma {:induction false} AppendRefines(d: Directory, s: Store, entries: seq<Entry>)
    requires Refines(d, s) && Legal(s, Append(entries))
    ensures Refines(ApplyOps(d, AppendPlan(entries).ops), Step(s, Append(entries)).0)
  {
    if entries != [] {
      AppendEffect(d, entries);
      EntryOpsKeepOthers(d, EntryWrites(entries));
      AppendedLog(d, s.log, entries);
      WithLastRefines(ApplyOps(d, EntryWrites(entries)), s.(log := LogAppend(s.log, entries)));
    }
  }

  // Only the last index is missing.
  lemma WithLastRefines(d: Directory, s: Store)
    requires WellFormed(s.log) && FirstIndex(d) == Ok(s.log.base + 1) && ReadNum(d, TermFile) == Ok(s.log.baseTerm)
    requires forall n: nat :: s.log.base < n <= s.log.Last() ==> ReadEntry(d, n) == Ok(s.log.At(n))
    requires forall n: nat :: n <= s.log.base ==> EntryFile(n) !in d
    requires ReadHardState(d) == Ok(s.hardState) && ReadSnapshot(d) == Ok(s.snapshot) && Applied(d) == Ok(s.applied)
    ensures Refines(d[LastFile := Num(s.log.Last())], s)
  {
  }

  // What compact reads, and the plan it makes of it.
  lemma CompactPlanIs(d: Directory, l: RaftLog, index: nat)
    requires Ordered(l) && Shows(d, l) && l.base < index <= l.Last()
    ensures var deleted := l.entries[..index - l.base];
            && CompactPlan(d, index) == Plan(DropOps(deleted), Ok(()))
            && Contiguous(deleted) && deleted != [] && deleted[0].index == l.base + 1
            && deleted[|deleted| - 1] == l.At(index)
  {
    var deleted := l.entries[..index - l.base];
    ReadsPrefix(d, l, index);
    assert deleted[|deleted| - 1] == l.At(index);
    forall i | 0 <= i < |deleted| ensures deleted[i].index == l.base + 1 + i {
      assert deleted[i] == l.At(l.base + 1 + i);
    }
  }

  lemma ReadsPrefix(d: Directory, l: RaftLog, index: nat)
    requires Shows(d, l) && l.base < index <= l.Last()
    ensures ReadEntries(d, l.base + 1, index + 1) == Ok(l.entries[..index - l.base])
  {
    var deleted := l.entries[..index - l.base];
    forall i | 0 <= i < |deleted| ensures ReadEntry(d, l.base + 1 + i) == Ok(deleted[i]) {
      assert deleted[i] == l.At(l.base + 1 + i);
    }
    ReadEntriesAll(d, l.base + 1, index + 1, deleted);
  }

  // The compacted log once its base is written; the removals are still to come.
  ghost predicate BaseMoved(d: Directory, s: Store, index: nat)
    requires s.log.base < index <= s.log.Last()
  {
    && WellFormed(s.log)
    && FirstIndex(d) == Ok(index + 1) && LastIndex(d) == Ok(s.log.Last())
    && ReadNum(d, TermFile) == Ok(s.log.At(index).term)
    && (forall n: nat :: s.log.base < n <= s.log.Last() ==> ReadEntry(d, n) == Ok(s.log.At(n)))
    && (forall n: nat :: n <= s.log.base ==> EntryFile(n) !in d)
    && ReadHardState(d) == Ok(s.hardState) && ReadSnapshot(d) == Ok(s.snapshot) && Applied(d) == Ok(s.applied)
  }

  lemma BaseMoves(d: Directory, s: Store, index: nat, deleted: seq<Entry>)
    requires Refines(d, s) && s.log.base < index <= s.log.Last()
    requires deleted != [] && deleted[|deleted| - 1] == s.log.At(index)
    ensures BaseMoved(ApplyOp(ApplyOp(d, DropOps(deleted)[0]), DropOps(deleted)[1]), s, index)
  {
    var d2 := ApplyOp(ApplyOp(d, DropOps(deleted)[0]), DropOps(deleted)[1]);
    assert s.log.At(index).index == index;
    assert forall n: nat :: ReadEntry(d2, n) == ReadEntry(d, n);
  }

  lemma {:induction false} RemovalsRefine(d: Directory, s: Store, index: nat, deleted: seq<Entry>)
    requires s.log.base < index <= s.log.Last() && BaseMoved(d, s, index)
    requires deleted == s.log.entries[..index - s.log.base] && Contiguous(deleted) && deleted[0].index == s.log.base + 1
    ensures Refines(ApplyOps(d, Removals(deleted)), s.(log := LogCompact(s.log, index)))
  {
    var l, l', d' := s.log, LogCompact(s.log, index), ApplyOps(d, Removals(deleted));
    assert Removals(deleted)[..|deleted|] == Removals(deleted);
    EntryOpsKeepOthers(d, Removals(deleted));
    forall i: nat
      ensures l'.base < i <= l'.Last() ==>
                ReadEntry(d', i) == Ok(l'.At(i)) && l'.At(i).index == i && 1 <= l'.At(i).term
      ensures i <= l'.base ==> EntryFile(i) !in d'
    {
      RemovalsEffect(d, deleted, |deleted|, EntryFile(i));
      assert l'.base < i <= l'.Last() ==> l'.At(i) == l.At(i);
    }
  }

  lemma {:induction false} CompactRefines(d: Directory, s: Store, index: nat)
    requires Refines(d, s) && s.log.base < index <= s.log.Last()
    ensures CompactPlan(d, index).answer == Ok(())
    ensures Refines(ApplyOps(d, CompactPlan(d, index).ops), s.(log := LogCompact(s.log, index)))
  {
    CompactPlanIs(d, s.log, index);
    var deleted := s.log.entries[..index - s.log.base];
    var ops := DropOps(deleted);
    DropPrefix(d, deleted, |ops|);
    assert ops[..|ops|] == ops && Removals(deleted)[..|deleted|] == Removals(deleted);
    BaseMoves(d, s, index, deleted);
    RemovalsRefine(ApplyOp(ApplyOp(d, ops[0]), ops[1]), s, index, deleted);
  }

  lemma CreateSnapshotRefines(d: Directory, s: Store, call: Call)
    requires Refines(d, s) && call.CreateSnapshot?
    ensures Refines(FsStep(d, call).0, Step(s, call).0)
    ensures FsStep(d, call).1 == Step(s, call).1
  {
    var ops := CallPlan(d, call).0;
    if call.index <= s.log.base {
      assert EntryFile(call.index) !in d;
    } else if call.index <= s.log.Last() {
      assert ReadEntry(d, call.index) == Ok(s.log.At(call.index));
    }
    if ops != [] {
      ApplySingle(d, ops[0]);
    }
  }

  lemma {:induction false} SnapshotWriteRefines(d: Directory, s: Store, snapshot: Snapshot)
    requires Refines(d, s)
    ensures Refines(ApplyOps(d, [Write(SnapshotFile, Snap(snapshot))]), s.(snapshot := snapshot))
  {
    ApplySingle(d, Write(SnapshotFile, Snap(snapshot)));
  }

  lemma ApplySnapshotRefines(d: Directory, s: Store, snapshot: Snapshot)
    requires Refines(d, s) && snapshot.index <= s.log.Last()
    ensures Refines(FsStep(d, ApplySnapshot(snapshot)).0, Step(s, ApplySnapshot(snapshot)).0)
    ensures FsStep(d, ApplySnapshot(snapshot)).1 == Step(s, ApplySnapshot(snapshot)).1
  {
    if s.snapshot.index < snapshot.index && s.log.base < snapshot.index {
      var ops, more := CompactPlan(d, snapshot.index).ops, [Write(SnapshotFile, Snap(snapshot))];
      CompactRefines(d, s, snapshot.index);
      SnapshotWriteRefines(ApplyOps(d, ops), s.(log := LogCompact(s.log, snapshot.index)), snapshot);
      ApplyOpsConcat(d, ops, more);
      assert ApplySnapshotPlan(d, snapshot) == Plan(ops + more, Ok(()));
    }
  }

  lemma StepRefines(d: Directory, s: Store, call: Call)
    requires Refines(d, s) && Legal(s, call)
    ensures Refines(FsStep(d, call).0, Step(s, call).0)
    ensures FsStep(d, call).1 == Step(s, call).1
  {
    match call
    case Append(entries) => AppendRefines(d, s, entries);
    case Compact(index) =>
      if s.log.base < index {
        CompactRefines(d, s, index);
      }
    case ApplySnapshot(snapshot) => ApplySnapshotRefines(d, s, snapshot);
    case CreateSnapshot(_, _, _) => CreateSnapshotRefines(d, s, call);
    case SetHardState(hs) => ApplySingle(d, SetHardStateOp(hs));
    case SetApplied(applied) => ApplySingle(d, SetAppliedOp(applied));
  }

  // Whole runs.

  ghost predicate LegalRun(s: Store, calls: seq<Call>)
    decreases |calls|
  {
    calls != [] ==> Legal(s, calls[0]) && LegalRun(Step(s, calls[0]).0, calls[1..])
  }

  function Run(s: Store, calls: seq<Call>): (Store, seq<Reply>)
    requires LegalRun(s, calls)
    decreases |calls|
  {
    if calls == [] then (s, [])
    else
      var (s', reply) := Step(s, calls[0]);
      var (s'', replies) := Run(s', calls[1..]);
      (s'', [reply] + replies)
  }

  function FsRun(d: Directory, calls: seq<Call>): (Directory, seq<Reply>)
    decreases |calls|
  {
    if calls == [] then (d, [])
    else
      var (d', reply) := FsStep(d, calls[0]);
      var (d'', replies) := FsRun(d', calls[1..]);
      (d'', [reply] + replies)
  }

  /** Over every crash-free run FsStorage answers like the log in memory and still represents it. */
  lemma {:induction false} FsStorageRefinesLog(d: Directory, s: Store, calls: seq<Call>)
    requires Refines(d, s) && LegalRun(s, calls)
    ensures Refines(FsRun(d, calls).0, Run(s, calls).0)
    ensures FsRun(d, calls).1 == Run(s, calls).1
    decreases |calls|
  {
    if calls != [] {
      StepRefines(d, s, calls[0]);
      FsStorageRefinesLog(FsStep(d, calls[0]).0, Step(s, calls[0]).0, calls[1..]);
    }
  }

  // The contents the initial writes give to a file.
  function Initial(name: FileName): Content {
    match name
    case TermFile => Num(0)
    case FirstFile => Num(1)
    case LastFile => Num(0)
    case AppliedFile => Num(0)
    case HardStateFile => Hard(NO_HARD_STATE)
    case SnapshotFile => Snap(NO_SNAPSHOT)
    case EntryFile(_) => Num(0)
  }

  predicate IsInitial(op: FileOp) {
    op.Write? && op.content == Initial(op.name)
  }

  ghost predicate Names(ops: seq<FileOp>, name: FileName) {
    exists i :: 0 <= i < |ops| && ops[i].name == name
  }

  lemma NamesLately(ops: seq<FileOp>, name: FileName)
    requires ops != []
    ensures Names(ops, name) <==> Names(ops[..|ops| - 1], name) || ops[|ops| - 1].name == name
  {
    var n := |ops| - 1;
    if Names(ops, name) && ops[n].name != name {
      var i :| 0 <= i < |ops| && ops[i].name == name;
      assert ops[..n][i].name == name;
    }
    if Names(ops[..n], name) {
      var i :| 0 <= i < n && ops[..n][i].name == name;
      assert ops[i].name == name;
    }
  }

  // The files after some of the initial writes.
  lemma {:induction false} InitEffect(d: Directory, ops: seq<FileOp>, name: FileName)
    requires forall i :: 0 <= i < |ops| ==> IsInitial(ops[i])
    ensures if Names(ops, name)
            then name in ApplyOps(d, ops) && ApplyOps(d, ops)[name] == Initial(name)
            else Same(d, ApplyOps(d, ops), name)
  {
    if ops != [] {
      InitEffect(d, ops[..|ops| - 1], name);
      NamesLately(ops, name);
    }
  }

  // Initializing a directory that holds no entries gives the fresh store.
  lemma {:induction false} InitializedIsFresh(d: Directory)
    requires forall n: nat :: EntryFile(n) !in d
    ensures Refines(ApplyOps(d, INIT_OPS), FRESH)
  {
    var d' := ApplyOps(d, INIT_OPS);
    forall n: nat ensures EntryFile(n) !in d' {
      InitEffect(d, INIT_OPS, EntryFile(n));
    }
    forall i | 0 <= i < 6 ensures INIT_OPS[i].name in d' && d'[INIT_OPS[i].name] == Initial(INIT_OPS[i].name) {
      InitEffect(d, INIT_OPS, INIT_OPS[i].name);
    }
    assert INIT_OPS[0].name == TermFile && INIT_OPS[1].name == FirstFile && INIT_OPS[2].name == LastFile;
    assert INIT_OPS[3].name == AppliedFile && INIT_OPS[4].name == HardStateFile && INIT_OPS[5].name == SnapshotFile;
  }
}
