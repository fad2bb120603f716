/** Runs in which any call of the storage may be cut short after any of its file operations, and later
    calls go on from what is left: stale entries above the log, leftover entries below it, and a
    compacted term that may be ahead of its index. */
module TornRuns {
  import opened Types
  import opened Files
  import opened FsStorages
  import opened LogModel
  import opened CrashPoints

  // The store, the entries that compactions cut short left at or below its base, and the compacted term
  // on file, which is that of the base unless a compaction stopped between its first two writes.
  datatype TornStore = TornStore(store: Store, left: map<nat, Entry>, term: nat)

  const NEW_STORE := TornStore(FRESH, map[], 0)

  // The files next to the log.
  ghost predicate Kept(d: Directory, s: Store) {
    ReadHardState(d) == Ok(s.hardState) && ReadSnapshot(d) == Ok(s.snapshot) && Applied(d) == Ok(s.applied)
  }

  // The entry files at or below the base.
  ghost predicate LeftBehind(d: Directory, base: nat, left: map<nat, Entry>) {
    && (forall n: nat :: n in left ==> 1 <= n <= base)
    && forall n: nat :: n <= base ==> ReadEntry(d, n) == if n in left then Ok(left[n]) else Err(NotFound)
  }

  // The base has its term, also in a leftover entry.
  ghost predicate BaseHasTerm(l: RaftLog, left: map<nat, Entry>) {
    (l.base == 0 <==> l.baseTerm == 0) && (l.base in left ==> left[l.base].term == l.baseTerm)
  }

  ghost predicate Stands(d: Directory, t: TornStore) {
    && Ordered(t.store.log) && BaseHasTerm(t.store.log, t.left)
    && Shows(d, t.store.log) && Kept(d, t.store)
    && ReadNum(d, TermFile) == Ok(t.term) && LeftBehind(d, t.store.log.base, t.left)
  }

  lemma RefiningStands(d: Directory, s: Store)
    requires Refines(d, s)
    ensures Stands(d, TornStore(s, map[], s.log.baseTerm))
  {
  }

  // What term() answers up to the last index.
  function TornTerm(t: TornStore, index: nat): Result<nat>
    requires index <= t.store.log.Last()
  {
    if t.store.log.base < index then Ok(t.store.log.At(index).term)
    else if index in t.left then Ok(t.left[index].term)
    else if index == 0 then Ok(0)
    else if t.term == 0 then Err(Unavailable)
    else if index == t.store.log.base then Ok(t.term)
    else Err(Compacted)
  }

  /** What readers answer, for all their arguments up to the last index. The base is given its term
      exactly when nothing was compacted yet, an entry was left there, or the compacted term on file is
      that of the base, which one compaction stopped between its first two writes may have changed. */
  lemma TornReadersAgree(d: Directory, t: TornStore, low: nat, high: nat, index: nat)
    requires Stands(d, t)
    ensures var s := t.store;
            && Entries(d, low, high) == LogEntries(s.log, low, high)
            && (index <= s.log.Last() ==> Term(d, index) == TornTerm(t, index))
            && (Term(d, s.log.base) == Ok(s.log.baseTerm) <==>
                  s.log.base == 0 || s.log.base in t.left || t.term == s.log.baseTerm)
            && FirstIndex(d) == Ok(s.log.base + 1) && LastIndex(d) == Ok(s.log.Last())
            && Applied(d) == Ok(s.applied) && ReadSnapshot(d) == Ok(s.snapshot)
            && ReadHardState(d) == Ok(s.hardState) && InitialState(d) == Ok(StateOf(s))
  {
    var l := t.store.log;
    if l.base < low < high <= l.Last() + 1 {
      var slice := l.entries[low - l.base - 1..high - l.base - 1];
      forall i | 0 <= i < |slice| ensures ReadEntry(d, low + i) == Ok(slice[i]) {
        assert slice[i] == l.At(low + i);
      }
      ReadEntriesAll(d, low, high, slice);
    }
    if l.base < index <= l.Last() {
      assert ReadEntry(d, index) == Ok(l.At(index));
    } else if index <= l.base {
      assert ReadEntry(d, index) == if index in t.left then Ok(t.left[index]) else Err(NotFound);
    }
    assert ReadEntry(d, l.base) == if l.base in t.left then Ok(t.left[l.base]) else Err(NotFound);
  }

  // The entry that create_snapshot finds under an index: one of the log, or one left behind.
  function EntryAt(t: TornStore, index: nat): Option<Entry> {
    if t.store.log.base < index <= t.store.log.Last() then Some(t.store.log.At(index))
    else if index in t.left then Some(t.left[index])
    else None
  }

  function TornCreate(t: TornStore, index: nat, confState: Option<ConfState>, data: seq<byte>): Reply {
    var current := t.store.snapshot;
    if index <= current.index then Failed(SnapshotOutOfDate)
    else if t.store.log.Last() < index || EntryAt(t, index).None? then Failed(Panic)
    else Created(Snapshot(index, EntryAt(t, index).value.term,
                          if confState.Some? then confState else current.confState, data))
  }

  // How a call answers that is not cut short.
  function TornAnswer(t: TornStore, call: Call): Reply
    requires Legal(t.store, call)
  {
    match call
    case CreateSnapshot(index, confState, data) => TornCreate(t, index, confState, data)
    case _ => Step(t.store, call).1
  }

  // How many file operations a call takes.
  function Length(t: TornStore, call: Call): nat {
    var s := t.store;
    match call
    case Append(entries) => if entries == [] then 0 else |entries| + 1
    case Compact(index) => if index <= s.log.base then 0 else index - s.log.base + 2
    case CreateSnapshot(index, confState, data) => if TornCreate(t, index, confState, data).Created? then 1 else 0
    case ApplySnapshot(snapshot) =>
      if snapshot.index <= s.snapshot.index || snapshot.index <= s.log.base then 0 else snapshot.index - s.log.base + 3
    case SetHardState(_) => 1
    case SetApplied(_) => 1
  }

  // The entries up to the index that are still there after so many removals.
  function Behind(l: RaftLog, index: nat, removed: nat): map<nat, Entry>
    requires index <= l.Last()
  {
    map n: nat | l.base + removed < n <= index :: l.At(n)
  }

  // A compaction cut short after k operations: its term is written, then its index, then come the removals.
  function TornCompact(t: TornStore, index: nat, k: nat): TornStore
    requires t.store.log.base < index <= t.store.log.Last()
  {
    var l := t.store.log;
    if k == 0 then t
    else if k == 1 then t.(term := l.At(index).term)
    else TornStore(t.store.(log := LogCompact(l, index)), t.left + Behind(l, index, k - 2), l.At(index).term)
  }

  // A call of which k file operations are performed.
  function TornStep(t: TornStore, call: Call, k: nat): TornStore
    requires Legal(t.store, call) && k <= Length(t, call)
  {
    if k == 0 then t
    else match call
      case Append(entries) =>
        t.(store := t.store.(log := if k <= |entries| then Mixed(t.store.log, entries, k)
                                    else LogAppend(t.store.log, entries)))
      case Compact(index) => TornCompact(t, index, k)
      case CreateSnapshot(index, confState, data) =>
        t.(store := t.store.(snapshot := TornCreate(t, index, confState, data).snapshot))
      case ApplySnapshot(snapshot) =>
        if k < Length(t, call) then TornCompact(t, snapshot.index, k)
        else
          var t' := TornCompact(t, snapshot.index, k - 1);
          t'.(store := t'.store.(snapshot := snapshot))
      case _ => t.(store := Step(t.store, call).0)
  }

  // Appends

  lemma MixedIsOrdered(l: RaftLog, entries: seq<Entry>, k: nat)
    requires Ordered(l) && Contiguous(entries) && entries != [] && k <= |entries|
    requires l.base < entries[0].index && forall i :: 0 <= i < |entries| ==> 1 <= entries[i].term
    ensures Ordered(Mixed(l, entries, k))
  {
    var m, start := Mixed(l, entries, k), entries[0].index;
    forall n: nat | m.base < n <= m.Last() ensures m.At(n).index == n && 1 <= m.At(n).term {
      assert m.At(n) == if start <= n < start + k then entries[n - start] else l.At(n);
    }
  }

  lemma AppendedIsOrdered(l: RaftLog, entries: seq<Entry>)
    requires Ordered(l) && Contiguous(entries) && entries != []
    requires l.base < entries[0].index <= l.Last() + 1 && forall i :: 0 <= i < |entries| ==> 1 <= entries[i].term
    ensures Ordered(LogAppend(l, entries))
  {
    var m, start := LogAppend(l, entries), entries[0].index;
    forall n: nat | m.base < n <= m.Last() ensures m.At(n).index == n && 1 <= m.At(n).term {
      assert m.At(n) == if n < start then l.At(n) else entries[n - start];
    }
  }

  lemma {:induction false} AppendedShows(d: Directory, l: RaftLog, entries: seq<Entry>)
    requires Shows(d, l) && Contiguous(entries) && entries != [] && l.base < entries[0].index <= l.Last() + 1
    ensures Shows(ApplyOps(d, AppendPlan(entries).ops), LogAppend(l, entries))
  {
    var d', m, start := ApplyOps(d, AppendPlan(entries).ops), LogAppend(l, entries), entries[0].index;
    AppendEffect(d, entries);
    EntryOpsKeepOthers(d, EntryWrites(entries));
    assert EntryWrites(entries)[..|entries|] == EntryWrites(entries);
    forall n: nat | m.base < n <= m.Last() ensures ReadEntry(d', n) == Ok(m.At(n)) {
      EntryWritesEffect(d, entries, |entries|, EntryFile(n));
      assert m.At(n) == if n < start then l.At(n) else entries[n - start];
      assert n < start ==> ReadEntry(d, n) == Ok(l.At(n));
    }
  }

  // Writing entries above the base and the last index leaves everything else alone.
  lemma {:induction false} AppendKeepsRest(d: Directory, t: TornStore, entries: seq<Entry>, k: nat)
    requires Stands(d, t) && Contiguous(entries) && entries != [] && t.store.log.base < entries[0].index
    requires k <= |AppendPlan(entries).ops|
    ensures var d' := ApplyOps(d, AppendPlan(entries).ops[..k]);
            && Kept(d', t.store) && ReadNum(d', TermFile) == Ok(t.term) && LeftBehind(d', t.store.log.base, t.left)
  {
    var ops := AppendPlan(entries).ops[..k];
    ApplyOpsKeeps(d, ops, HardStateFile);
    ApplyOpsKeeps(d, ops, SnapshotFile);
    ApplyOpsKeeps(d, ops, AppliedFile);
    ApplyOpsKeeps(d, ops, TermFile);
    forall n: nat | n <= t.store.log.base ensures ReadEntry(ApplyOps(d, ops), n) == ReadEntry(d, n) {
      ApplyOpsKeeps(d, ops, EntryFile(n));
    }
  }

  // The entries of the log have been replaced.
  lemma ReplacedStands(d: Directory, t: TornStore, l: RaftLog)
    requires Ordered(l) && Shows(d, l) && l.base == t.store.log.base && l.baseTerm == t.store.log.baseTerm
    requires BaseHasTerm(t.store.log, t.left) && Kept(d, t.store)
    requires ReadNum(d, TermFile) == Ok(t.term) && LeftBehind(d, l.base, t.left)
    ensures Stands(d, t.(store := t.store.(log := l)))
  {
  }

  lemma {:induction false} TornAppendStands(d: Directory, t: TornStore, entries: seq<Entry>, k: nat)
    requires Stands(d, t) && Legal(t.store, Append(entries)) && entries != [] && k <= |entries| + 1
    ensures Stands(ApplyOps(d, AppendPlan(entries).ops[..k]), TornStep(t, Append(entries), k))
  {
    var l, d' := t.store.log, ApplyOps(d, AppendPlan(entries).ops[..k]);
    AppendKeepsRest(d, t, entries, k);
    if k == 0 {
      assert AppendPlan(entries).ops[..0] == [];
    } else if k <= |entries| {
      assert AppendPlan(entries).ops[..k] == EntryWrites(entries)[..k];
      WritesShow(d, l, entries, k);
      MixedIsOrdered(l, entries, k);
      ReplacedStands(d', t, Mixed(l, entries, k));
    } else {
      assert AppendPlan(entries).ops[..k] == AppendPlan(entries).ops;
      AppendedShows(d, l, entries);
      AppendedIsOrdered(l, entries);
      ReplacedStands(d', t, LogAppend(l, entries));
    }
  }

  // Compactions

  lemma CompactedIsOrdered(l: RaftLog, index: nat)
    requires Ordered(l) && l.base < index <= l.Last()
    ensures Ordered(LogCompact(l, index)) && 1 <= LogCompact(l, index).baseTerm
  {
    var m := LogCompact(l, index);
    forall n: nat | m.base < n <= m.Last() ensures m.At(n).index == n && 1 <= m.At(n).term {
      assert m.At(n) == l.At(n);
    }
  }

  lemma TermWriteStands(d: Directory, t: TornStore, op: FileOp)
    requires Stands(d, t) && op.Write? && op.name == TermFile && op.content.Num?
    ensures Stands(ApplyOp(d, op), t.(term := op.content.n))
  {
    TermWriteShows(d, t.store.log, op);
    forall n: nat ensures ReadEntry(ApplyOp(d, op), n) == ReadEntry(d, n) {
    }
  }

  lemma {:induction false} RemovalsKeepRest(d: Directory, t: TornStore, index: nat, deleted: seq<Entry>, k: nat)
    requires Stands(d, t) && t.store.log.base < index <= t.store.log.Last() && k <= |deleted|
    requires deleted == t.store.log.entries[..index - t.store.log.base] && Contiguous(deleted)
    requires deleted[0].index == t.store.log.base + 1 && deleted[|deleted| - 1] == t.store.log.At(index)
    ensures var d' := PartlyRemoved(d, deleted, k);
            && Kept(d', t.store) && ReadNum(d', TermFile) == Ok(t.store.log.At(index).term)
            && LeftBehind(d', index, t.left + Behind(t.store.log, index, k))
  {
    var l := t.store.log;
    var d2, ops := ApplyOp(ApplyOp(d, DropOps(deleted)[0]), DropOps(deleted)[1]), Removals(deleted)[..k];
    var d', left := PartlyRemoved(d, deleted, k), t.left + Behind(l, index, k);
    EntryOpsKeepOthers(d2, ops);
    forall n: nat | n <= index ensures ReadEntry(d', n) == if n in left then Ok(left[n]) else Err(NotFound) {
      RemovalsEffect(d2, deleted, k, EntryFile(n));
      assert ReadEntry(d, n) == if l.base < n then Ok(l.At(n))
                                else if n in t.left then Ok(t.left[n]) else Err(NotFound);
    }
  }

  lemma CompactedBaseHasTerm(d: Directory, t: TornStore, index: nat, removed: nat)
    requires Stands(d, t) && t.store.log.base < index <= t.store.log.Last()
    ensures BaseHasTerm(LogCompact(t.store.log, index), t.left + Behind(t.store.log, index, removed))
  {
    var l := t.store.log;
    assert 1 <= l.At(index).term;
    assert index !in t.left;
  }

  // The base has moved and some entries below it are still there.
  lemma CompactedStands(d: Directory, s: Store, left: map<nat, Entry>)
    requires Ordered(s.log) && Shows(d, s.log) && BaseHasTerm(s.log, left) && Kept(d, s)
    requires ReadNum(d, TermFile) == Ok(s.log.baseTerm) && LeftBehind(d, s.log.base, left)
    ensures Stands(d, TornStore(s, left, s.log.baseTerm))
  {
  }

  lemma {:induction false} PartlyCompactedStands(d: Directory, t: TornStore, index: nat, deleted: seq<Entry>, k: nat,
                                                 d': Directory)
    requires Stands(d, t) && t.store.log.base < index <= t.store.log.Last() && k <= |deleted|
    requires deleted == t.store.log.entries[..index - t.store.log.base] && Contiguous(deleted)
    requires deleted[0].index == t.store.log.base + 1 && deleted[|deleted| - 1] == t.store.log.At(index)
    requires d' == PartlyRemoved(d, deleted, k) && Shows(d', LogCompact(t.store.log, index))
    ensures Stands(d', TornCompact(t, index, k + 2))
  {
    var l := t.store.log;
    RemovalsKeepRest(d, t, index, deleted, k);
    CompactedIsOrdered(l, index);
    CompactedBaseHasTerm(d, t, index, k);
    CompactedStands(d', t.store.(log := LogCompact(l, index)), t.left + Behind(l, index, k));
  }

  lemma {:induction false} TornCompactStands(d: Directory, t: TornStore, index: nat, k: nat)
    requires Stands(d, t) && t.store.log.base < index <= t.store.log.Last() && k <= |CompactPlan(d, index).ops|
    ensures Stands(ApplyOps(d, CompactPlan(d, index).ops[..k]), TornCompact(t, index, k))
  {
    var l := t.store.log;
    var deleted := l.entries[..index - l.base];
    CompactPlanIs(d, l, index);
    DropPrefix(d, deleted, k);
    if k == 1 {
      TermWriteStands(d, t, DropOps(deleted)[0]);
    } else if k >= 2 {
      CompactCrashPoint(d, l, index, k);
      PartlyCompactedStands(d, t, index, deleted, k - 2, ApplyOps(d, CompactPlan(d, index).ops[..k]));
    }
  }

  // Snapshots

  lemma SnapshotWriteStands(d: Directory, t: TornStore, snapshot: Snapshot)
    requires Stands(d, t)
    ensures Stands(ApplyOp(d, Write(SnapshotFile, Snap(snapshot))), t.(store := t.store.(snapshot := snapshot)))
  {
    var d' := ApplyOp(d, Write(SnapshotFile, Snap(snapshot)));
    assert forall n: nat :: ReadEntry(d', n) == ReadEntry(d, n);
  }

  // The plan of an apply_snapshot that goes through.
  lemma SnapshotPlanIs(d: Directory, t: TornStore, snapshot: Snapshot)
    requires Stands(d, t) && t.store.snapshot.index < snapshot.index
    requires t.store.log.base < snapshot.index <= t.store.log.Last()
    ensures var compact, plan := CompactPlan(d, snapshot.index), ApplySnapshotPlan(d, snapshot);
            && compact.answer == Ok(()) && |compact.ops| == snapshot.index - t.store.log.base + 2
            && plan == Plan(compact.ops + [Write(SnapshotFile, Snap(snapshot))], Ok(()))
  {
    CompactPlanIs(d, t.store.log, snapshot.index);
  }

  lemma TornSnapshotStep(t: TornStore, snapshot: Snapshot, k: nat)
    requires t.store.snapshot.index < snapshot.index && t.store.log.base < snapshot.index <= t.store.log.Last()
    requires k <= Length(t, ApplySnapshot(snapshot))
    ensures var n, t' := snapshot.index - t.store.log.base + 2, TornStep(t, ApplySnapshot(snapshot), k);
            if k <= n then t' == TornCompact(t, snapshot.index, k)
            else var t1 := TornCompact(t, snapshot.index, n); t' == t1.(store := t1.store.(snapshot := snapshot))
  {
  }

  lemma {:induction false} TornSnapshotStands(d: Directory, t: TornStore, snapshot: Snapshot, k: nat)
    requires Stands(d, t) && t.store.snapshot.index < snapshot.index
    requires t.store.log.base < snapshot.index <= t.store.log.Last()
    requires k <= Length(t, ApplySnapshot(snapshot)) && k <= |ApplySnapshotPlan(d, snapshot).ops|
    ensures Stands(ApplyOps(d, ApplySnapshotPlan(d, snapshot).ops[..k]), TornStep(t, ApplySnapshot(snapshot), k))
  {
    var compact, ops := CompactPlan(d, snapshot.index).ops, ApplySnapshotPlan(d, snapshot).ops;
    SnapshotPlanIs(d, t, snapshot);
    TornSnapshotStep(t, snapshot, k);
    var n := |compact|;
    if k <= n {
      assert ops[..k] == compact[..k];
      TornCompactStands(d, t, snapshot.index, k);
    } else {
      assert compact[..n] == compact && ops[..n] == compact && ops[..k] == ops;
      TornCompactStands(d, t, snapshot.index, n);
      ApplyOneMore(d, ops, n);
      SnapshotWriteStands(ApplyOps(d, compact), TornCompact(t, snapshot.index, n), snapshot);
    }
  }

  // The file create_snapshot reads.
  lemma FoundEntry(d: Directory, t: TornStore, index: nat)
    requires Stands(d, t) && index <= t.store.log.Last()
    ensures ReadEntry(d, index) == if EntryAt(t, index).Some? then Ok(EntryAt(t, index).value) else Err(NotFound)
  {
  }

  lemma {:induction false} TornCreationStands(d: Directory, t: TornStore, call: Call, k: nat)
    requires Stands(d, t) && call.CreateSnapshot? && k <= Length(t, call)
    ensures |CallPlan(d, call).0| == Length(t, call) && CallPlan(d, call).1 == TornAnswer(t, call)
    ensures Stands(ApplyOps(d, CallPlan(d, call).0[..k]), TornStep(t, call, k))
  {
    var ops := CallPlan(d, call).0;
    if t.store.snapshot.index < call.index <= t.store.log.Last() {
      FoundEntry(d, t, call.index);
      if k == 1 {
        ApplySingle(d, ops[0]);
        assert ops[..1] == ops;
        SnapshotWriteStands(d, t, TornAnswer(t, call).snapshot);
      }
    }
  }

  lemma {:induction false} OneWriteStands(d: Directory, t: TornStore, call: Call, k: nat)
    requires Stands(d, t) && (call.SetHardState? || call.SetApplied?) && k <= 1
    ensures Stands(ApplyOps(d, CallPlan(d, call).0[..k]), TornStep(t, call, k))
  {
    var ops := CallPlan(d, call).0;
    if k == 1 {
      assert ops[..1] == ops;
      ApplySingle(d, ops[0]);
      var d' := ApplyOp(d, ops[0]);
      assert forall n: nat :: ReadEntry(d', n) == ReadEntry(d, n);
    }
  }

  // A call takes as many operations as the store says, and answers like it when they all succeed.
  lemma {:induction false} TornCallAnswers(d: Directory, t: TornStore, call: Call)
    requires Stands(d, t) && Legal(t.store, call)
    ensures |CallPlan(d, call).0| == Length(t, call) && CallPlan(d, call).1 == TornAnswer(t, call)
  {
    match call
    case Compact(index) =>
      if t.store.log.base < index {
        CompactPlanIs(d, t.store.log, index);
      }
    case CreateSnapshot(_, _, _) => TornCreationStands(d, t, call, 0);
    case ApplySnapshot(snapshot) =>
      if t.store.snapshot.index < snapshot.index && t.store.log.base < snapshot.index {
        SnapshotPlanIs(d, t, snapshot);
      }
    case _ =>
  }

  lemma {:induction false} TornCallStands(d: Directory, t: TornStore, call: Call, k: nat)
    requires Stands(d, t) && Legal(t.store, call) && k <= Length(t, call)
    requires |CallPlan(d, call).0| == Length(t, call)
    ensures Stands(ApplyOps(d, CallPlan(d, call).0[..k]), TornStep(t, call, k))
  {
    if k == 0 {
      assert CallPlan(d, call).0[..0] == [];
    } else {
      match call
      case Append(entries) => TornAppendStands(d, t, entries, k);
      case Compact(index) => TornCompactStands(d, t, index, k);
      case CreateSnapshot(_, _, _) => TornCreationStands(d, t, call, k);
      case ApplySnapshot(snapshot) => TornSnapshotStands(d, t, snapshot, k);
      case _ => OneWriteStands(d, t, call, k);
    }
  }

  // Whole runs: call i is cut short after torn[i].1 operations, if it takes that many.

  function PerformedOf(t: TornStore, call: Call, healthy: nat): (k: nat)
    ensures k <= Length(t, call)
  {
    if healthy < Length(t, call) then healthy else Length(t, call)
  }

  ghost predicate LegalTornRun(t: TornStore, torn: seq<(Call, nat)>)
    decreases |torn|, 0
  {
    torn != [] ==>
      var n := |torn| - 1;
      LegalTornRun(t, torn[..n]) && Legal(TornStores(t, torn[..n]).store, torn[n].0)
  }

  ghost function TornStores(t: TornStore, torn: seq<(Call, nat)>): TornStore
    requires LegalTornRun(t, torn)
    decreases |torn|, 1
  {
    if torn == [] then t
    else
      var n := |torn| - 1;
      var t' := TornStores(t, torn[..n]);
      TornStep(t', torn[n].0, PerformedOf(t', torn[n].0, torn[n].1))
  }

  lemma {:induction false} TornRunsGoOn(d: Directory, t: TornStore, torn: seq<(Call, nat)>, call: Call)
    requires Stands(d, t) && LegalTornRun(t, torn)
    ensures Stands(TornRun(d, torn), TornStores(t, torn))
    ensures Legal(TornStores(t, torn).store, call) ==>
              CallPlan(TornRun(d, torn), call).1 == TornAnswer(TornStores(t, torn), call)
  {
    if torn != [] {
      var n := |torn| - 1;
      TornRunsGoOn(d, t, torn[..n], torn[n].0);
      var d', t' := TornRun(d, torn[..n]), TornStores(t, torn[..n]);
      TornCallAnswers(d', t', torn[n].0);
      TornCallStands(d', t', torn[n].0, PerformedOf(t', torn[n].0, torn[n].1));
    }
    if Legal(TornStores(t, torn).store, call) {
      TornCallAnswers(TornRun(d, torn), TornStores(t, torn), call);
    }
  }

  /** On a new data directory, however often its initialization was interrupted: over every run in which
      any calls are cut short and later calls go on, the files stand for the log in memory put through
      the same torn steps, so that readers answer as TornReadersAgree says, a call that is not cut short
      answers like the log, and opening the directory again changes nothing. */
  lemma {:induction false} TornRunsStand(attempts: seq<nat>, torn: seq<(Call, nat)>, call: Call)
    requires LegalTornRun(NEW_STORE, torn)
    ensures var d, t := TornRun(Reopen(Attempts(map[], attempts)), torn), TornStores(NEW_STORE, torn);
            && Stands(d, t) && Reopen(d) == d
            && (Legal(t.store, call) ==> CallPlan(d, call).1 == TornAnswer(t, call))
  {
    var start := Reopen(Attempts(map[], attempts));
    InitializationRecovers(attempts);
    RefiningStands(start, FRESH);
    TornRunsGoOn(start, NEW_STORE, torn, call);
    assert InitialState(TornRun(start, torn)).Ok?;
  }
}
