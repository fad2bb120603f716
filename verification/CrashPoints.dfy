/** What a crash between two file operations leaves on disk, and what reopening makes of it. */
module CrashPoints {
  import opened Types
  import opened Files
  import opened FsStorages
  import opened LogModel

  ghost predicate SameLog(l: RaftLog, m: RaftLog) {
    l.base == m.base && l.entries == m.entries
  }

  lemma ShowsOneLog(d: Directory, l: RaftLog, m: RaftLog)
    requires Shows(d, l) && Shows(d, m)
    ensures SameLog(l, m)
  {
    forall i | 0 <= i < |l.entries| ensures l.entries[i] == m.entries[i] {
      assert ReadEntry(d, l.base + 1 + i) == Ok(l.At(l.base + 1 + i)) == Ok(m.At(l.base + 1 + i));
    }
  }

  // The directory after the first two operations of a compaction and k removals.
  function PartlyRemoved(d: Directory, deleted: seq<Entry>, k: nat): Directory
    requires deleted != [] && k <= |deleted|
  {
    ApplyOps(ApplyOp(ApplyOp(d, DropOps(deleted)[0]), DropOps(deleted)[1]), Removals(deleted)[..k])
  }

  lemma RemovalsShow(d: Directory, l: RaftLog, index: nat, deleted: seq<Entry>, k: nat)
    requires Ordered(l) && Shows(d, l) && l.base < index <= l.Last() && k <= |deleted|
    requires deleted == l.entries[..index - l.base] && Contiguous(deleted)
    requires deleted[0].index == l.base + 1 && deleted[|deleted| - 1] == l.At(index)
    ensures Shows(PartlyRemoved(d, deleted, k), LogCompact(l, index))
  {
    var d2, d' := ApplyOp(ApplyOp(d, DropOps(deleted)[0]), DropOps(deleted)[1]), PartlyRemoved(d, deleted, k);
    var l' := LogCompact(l, index);
    EntryOpsKeepOthers(d2, Removals(deleted)[..k]);
    assert l.At(index).index == index;
    forall n: nat | l'.base < n <= l'.Last() ensures ReadEntry(d', n) == Ok(l'.At(n)) {
      RemovalsEffect(d2, deleted, k, EntryFile(n));
      assert ReadEntry(d, n) == Ok(l.At(n));
    }
  }

  lemma RefiningShows(d: Directory, s: Store)
    requires Refines(d, s)
    ensures Shows(d, s.log) && Ordered(s.log)
  {
  }

  lemma TermWriteShows(d: Directory, l: RaftLog, op: FileOp)
    requires Shows(d, l) && op.name == TermFile
    ensures Shows(ApplyOp(d, op), l)
  {
    forall n: nat ensures ReadEntry(ApplyOp(d, op), n) == ReadEntry(d, n) {
    }
  }

  lemma {:induction false} DropCrashPoint(d: Directory, l: RaftLog, index: nat, deleted: seq<Entry>, k: nat)
    requires Ordered(l) && Shows(d, l) && l.base < index <= l.Last() && k <= |DropOps(deleted)|
    requires deleted == l.entries[..index - l.base] && Contiguous(deleted)
    requires deleted[0].index == l.base + 1 && deleted[|deleted| - 1] == l.At(index)
    ensures Shows(ApplyOps(d, DropOps(deleted)[..k]), if k < 2 then l else LogCompact(l, index))
  {
    DropPrefix(d, deleted, k);
    if k == 1 {
      TermWriteShows(d, l, DropOps(deleted)[0]);
    } else if k >= 2 {
      RemovalsShow(d, l, index, deleted, k - 2);
    }
  }

  /** compact is atomic: the log shown switches with the second of its file operations. */
  lemma {:induction false} CompactCrashPoint(d: Directory, l: RaftLog, index: nat, k: nat)
    requires Ordered(l) && Shows(d, l) && l.base < index <= l.Last()
    requires k <= |CompactPlan(d, index).ops|
    ensures Shows(ApplyOps(d, CompactPlan(d, index).ops[..k]), if k < 2 then l else LogCompact(l, index))
  {
    CompactPlanIs(d, l, index);
    DropCrashPoint(d, l, index, l.entries[..index - l.base], k);
  }

  // The log in which the first k entries of an append have replaced those they overlap.
  function Mixed(l: RaftLog, entries: seq<Entry>, k: nat): RaftLog
    requires entries != [] && l.base < entries[0].index && k <= |entries|
  {
    var start := entries[0].index - l.base - 1;
    l.(entries := seq(|l.entries|, i requires 0 <= i < |l.entries| =>
                        if start <= i < start + k then entries[i - start] else l.entries[i]))
  }

  lemma {:induction false} WritesShow(d: Directory, l: RaftLog, entries: seq<Entry>, k: nat)
    requires Shows(d, l) && Contiguous(entries) && entries != []
    requires l.base < entries[0].index <= l.Last() + 1 && k <= |entries|
    ensures Shows(ApplyOps(d, EntryWrites(entries)[..k]), Mixed(l, entries, k))
  {
    var d', m := ApplyOps(d, EntryWrites(entries)[..k]), Mixed(l, entries, k);
    EntryOpsKeepOthers(d, EntryWrites(entries)[..k]);
    forall n: nat | m.base < n <= m.Last() ensures ReadEntry(d', n) == Ok(m.At(n)) {
      EntryWritesEffect(d, entries, k, EntryFile(n));
      assert ReadEntry(d, n) == Ok(l.At(n));
    }
  }

  /** What every crash point of an append shows: until the last operation the old log with the
      entries written so far mixed in, then the new log. */
  lemma {:induction false} AppendCrashPoint(d: Directory, s: Store, entries: seq<Entry>, k: nat)
    requires Refines(d, s) && Legal(s, Append(entries)) && entries != []
    requires k <= |AppendPlan(entries).ops|
    ensures Shows(ApplyOps(d, AppendPlan(entries).ops[..k]),
                  if k <= |entries| then Mixed(s.log, entries, k) else LogAppend(s.log, entries))
  {
    if k <= |entries| {
      assert AppendPlan(entries).ops[..k] == EntryWrites(entries)[..k];
      RefiningShows(d, s);
      WritesShow(d, s.log, entries, k);
    } else {
      assert AppendPlan(entries).ops[..k] == AppendPlan(entries).ops;
      AppendRefines(d, s, entries);
    }
  }

  /** So at every crash point of every append each index in first..=last has its entry on disk. */
  lemma {:induction false} AppendStaysReadable(d: Directory, s: Store, entries: seq<Entry>, k: nat, index: nat)
    requires Refines(d, s) && Legal(s, Append(entries)) && k <= |AppendPlan(entries).ops|
    ensures var d' := ApplyOps(d, AppendPlan(entries).ops[..k]);
            && FirstIndex(d').Ok? && LastIndex(d').Ok?
            && (FirstIndex(d').value <= index <= LastIndex(d').value ==>
                  ReadEntry(d', index).Ok? && ReadEntry(d', index).value.index == index)
  {
    if entries != [] {
      AppendCrashPoint(d, s, entries, k);
      var d' := ApplyOps(d, AppendPlan(entries).ops[..k]);
      var m := if k <= |entries| then Mixed(s.log, entries, k) else LogAppend(s.log, entries);
      if m.base < index <= m.Last() {
        assert ReadEntry(d', index) == Ok(m.At(index));
        if index <= s.log.Last() {
          assert s.log.At(index).index == index;
        }
      }
    }
  }

  // The append overlaps an entry at position i and changes it.
  predicate Changes(l: RaftLog, entries: seq<Entry>, i: nat)
    requires i < |entries| && l.base < entries[0].index
  {
    entries[0].index + i <= l.Last() && entries[i] != l.At(entries[0].index + i)
  }

  ghost predicate AtomicAppend(d: Directory, l: RaftLog, entries: seq<Entry>)
    requires entries != [] && l.base < entries[0].index <= l.Last() + 1
  {
    forall k: nat :: k <= |AppendPlan(entries).ops| ==>
      var d' := ApplyOps(d, AppendPlan(entries).ops[..k]);
      Shows(d', l) || Shows(d', LogAppend(l, entries))
  }

  // The condition an append has to meet to be atomic.
  ghost predicate ChangesLittle(l: RaftLog, entries: seq<Entry>)
    requires entries != [] && l.base < entries[0].index <= l.Last() + 1
  {
    if LogAppend(l, entries).Last() == l.Last()
    then forall i, j :: 0 <= i < j < |entries| ==> !Changes(l, entries, i) || !Changes(l, entries, j)
    else forall i :: 0 <= i < |entries| ==> !Changes(l, entries, i)
  }

  /** An append is atomic exactly when it changes no entry it overlaps, or keeps the last index and
      changes at most one. In particular an append above the last index always is. */
  lemma AppendAtomicity(d: Directory, s: Store, entries: seq<Entry>)
    requires Refines(d, s) && Legal(s, Append(entries)) && entries != []
    ensures AtomicAppend(d, s.log, entries) <==> ChangesLittle(s.log, entries)
  {
    if AtomicAppend(d, s.log, entries) {
      forall k: nat | k <= |entries|
        ensures SameLog(Mixed(s.log, entries, k), s.log) || SameLog(Mixed(s.log, entries, k), LogAppend(s.log, entries))
      {
        AtomicPoint(d, s, entries, k);
      }
      AtomicChangesLittle(s.log, entries);
    }
    if ChangesLittle(s.log, entries) {
      forall k: nat | k <= |AppendPlan(entries).ops|
        ensures var d' := ApplyOps(d, AppendPlan(entries).ops[..k]);
                Shows(d', s.log) || Shows(d', LogAppend(s.log, entries))
      {
        AppendCrashPoint(d, s, entries, k);
        if k <= |entries| {
          LittleChangeIsAtomic(s.log, entries, k);
        }
      }
    }
  }

  lemma AtomicPoint(d: Directory, s: Store, entries: seq<Entry>, k: nat)
    requires Refines(d, s) && Legal(s, Append(entries)) && entries != []
    requires AtomicAppend(d, s.log, entries) && k <= |entries|
    ensures SameLog(Mixed(s.log, entries, k), s.log) || SameLog(Mixed(s.log, entries, k), LogAppend(s.log, entries))
  {
    AppendCrashPoint(d, s, entries, k);
    var d', m := ApplyOps(d, AppendPlan(entries).ops[..k]), Mixed(s.log, entries, k);
    if Shows(d', s.log) {
      ShowsOneLog(d', m, s.log);
    } else {
      ShowsOneLog(d', m, LogAppend(s.log, entries));
    }
  }

  // If two entries change, the mixture between them is neither log.
  lemma AtomicChangesLittle(l: RaftLog, entries: seq<Entry>)
    requires entries != [] && l.base < entries[0].index <= l.Last() + 1
    requires forall k: nat :: k <= |entries| ==>
               SameLog(Mixed(l, entries, k), l) || SameLog(Mixed(l, entries, k), LogAppend(l, entries))
    ensures ChangesLittle(l, entries)
  {
    var l', n, start := LogAppend(l, entries), |entries|, entries[0].index - l.base - 1;
    if l'.Last() != l.Last() {
      forall i | 0 <= i < n ensures !Changes(l, entries, i) {
        assert SameLog(Mixed(l, entries, n), l);
        if entries[0].index + i <= l.Last() {
          assert Mixed(l, entries, n).entries[start + i] == entries[i];
        }
      }
    } else {
      forall i, j | 0 <= i < j < n ensures !Changes(l, entries, i) || !Changes(l, entries, j) {
        var m := Mixed(l, entries, i + 1);
        if entries[0].index + j <= l.Last() {
          assert m.entries[start + i] == entries[i] && m.entries[start + j] == l.entries[start + j];
          assert l'.entries[start + j] == entries[j];
        }
      }
    }
  }

  lemma LittleChangeIsAtomic(l: RaftLog, entries: seq<Entry>, k: nat)
    requires entries != [] && l.base < entries[0].index <= l.Last() + 1 && k <= |entries|
    requires ChangesLittle(l, entries)
    ensures SameLog(Mixed(l, entries, k), l) || SameLog(Mixed(l, entries, k), LogAppend(l, entries))
  {
    var m, l', start := Mixed(l, entries, k), LogAppend(l, entries), entries[0].index - l.base - 1;
    if !SameLog(m, l) {
      var p :| 0 <= p < |m.entries| && m.entries[p] != l.entries[p];
      assert Changes(l, entries, p - start);
      forall q | 0 <= q < |m.entries| ensures m.entries[q] == l'.entries[q] {
        if start <= q != p {
          assert !Changes(l, entries, q - start);
        }
      }
    }
  }

  // Initialization

  function Reopen(d: Directory): Directory {
    ApplyOps(d, OpenPlan(d).ops)
  }

  /** Opening initializes a directory exactly if it has no hard state, or one that can be read but no
      snapshot; what cannot be read is left as it is. */
  lemma OpeningInitializes(d: Directory)
    ensures OpenPlan(d) ==
            Plan(if HardStateFile !in d || (ReadHardState(d).Ok? && SnapshotFile !in d) then INIT_OPS else [], Ok(()))
  {
  }

  // A directory opened again and again, attempt i stopping after attempts[i] file operations.
  function Attempts(d: Directory, attempts: seq<nat>): Directory {
    if attempts == [] then d
    else
      var n := |attempts| - 1;
      var d' := Attempts(d, attempts[..n]);
      ApplyOps(d', OpenPlan(d').ops[..Performed(OpenPlan(d').ops, attempts[n])])
  }

  // An initialization that may have stopped early: the snapshot is written last.
  ghost predicate PartlyInitialized(d: Directory) {
    && (forall n: nat :: EntryFile(n) !in d)
    && (forall i :: 0 <= i < 6 && INIT_OPS[i].name in d ==> d[INIT_OPS[i].name] == Initial(INIT_OPS[i].name))
    && (SnapshotFile in d ==> forall i :: 0 <= i < 6 ==> INIT_OPS[i].name in d)
  }

  lemma {:induction false} AttemptKeepsPartial(d: Directory, k: nat)
    requires PartlyInitialized(d) && k <= 6
    ensures PartlyInitialized(ApplyOps(d, INIT_OPS[..k]))
  {
    var ops := INIT_OPS[..k];
    var d' := ApplyOps(d, ops);
    forall n: nat ensures EntryFile(n) !in d' {
      InitEffect(d, ops, EntryFile(n));
    }
    forall i | 0 <= i < 6
      ensures i < k ==> INIT_OPS[i].name in d'
      ensures INIT_OPS[i].name in d ==> INIT_OPS[i].name in d'
      ensures INIT_OPS[i].name in d' ==> d'[INIT_OPS[i].name] == Initial(INIT_OPS[i].name)
    {
      InitEffect(d, ops, INIT_OPS[i].name);
      assert i < k ==> ops[i] == INIT_OPS[i];
    }
    InitEffect(d, ops, SnapshotFile);
    assert forall i :: 0 <= i < 6 && INIT_OPS[i].name == SnapshotFile ==> i == 5;
  }

  lemma {:induction false} AttemptsKeepPartial(d: Directory, attempts: seq<nat>)
    requires PartlyInitialized(d)
    ensures PartlyInitialized(Attempts(d, attempts))
  {
    if attempts != [] {
      var n := |attempts| - 1;
      AttemptsKeepPartial(d, attempts[..n]);
      var d' := Attempts(d, attempts[..n]);
      if OpenPlan(d').ops == INIT_OPS {
        AttemptKeepsPartial(d', Performed(INIT_OPS, attempts[n]));
      }
    }
  }

  lemma CompleteIsFresh(d: Directory)
    requires PartlyInitialized(d) && InitialState(d) != Err(NotFound)
    ensures Refines(d, FRESH)
  {
    assert INIT_OPS[0].name == TermFile && INIT_OPS[1].name == FirstFile && INIT_OPS[2].name == LastFile;
    assert INIT_OPS[3].name == AppliedFile && INIT_OPS[4].name == HardStateFile && INIT_OPS[5].name == SnapshotFile;
  }

  /** However often and wherever the first initialization is interrupted, reopening ends in the full
      fresh state. */
  lemma {:induction false} InitializationRecovers(attempts: seq<nat>)
    ensures Refines(Reopen(Attempts(map[], attempts)), FRESH)
  {
    var d := Attempts(map[], attempts);
    AttemptsKeepPartial(map[], attempts);
    if InitialState(d) == Err(NotFound) {
      InitializedIsFresh(d);
    } else {
      CompleteIsFresh(d);
    }
  }

  // Calls of which the i-th stops after torn[i].1 file operations.
  function TornRun(d: Directory, torn: seq<(Call, nat)>): Directory {
    if torn == [] then d
    else
      var n := |torn| - 1;
      var d' := TornRun(d, torn[..n]);
      var ops := CallPlan(d', torn[n].0).0;
      ApplyOps(d', ops[..Performed(ops, torn[n].1)])
  }

  lemma {:induction false} OpsKeepInitialState(d: Directory, ops: seq<FileOp>)
    requires InitialState(d).Ok?
    requires forall i :: 0 <= i < |ops| ==> KeepsInitialState(ops[i])
    ensures InitialState(ApplyOps(d, ops)).Ok?
  {
    if ops != [] {
      OpsKeepInitialState(d, ops[..|ops| - 1]);
    }
  }

  predicate KeepsInitialState(op: FileOp) {
    && (op.name == HardStateFile ==> op.Write? && op.content.Hard?)
    && (op.name == SnapshotFile ==> op.Write? && op.content.Snap?)
  }

  lemma CallsKeepInitialState(d: Directory, call: Call)
    ensures var ops := CallPlan(d, call).0;
            forall i :: 0 <= i < |ops| ==> KeepsInitialState(ops[i])
  {
  }

  /** Once initialization is complete, reopening changes nothing, whichever calls were made since and
      wherever they were cut short. */
  lemma {:induction false} ReopeningKeepsEverything(d: Directory, torn: seq<(Call, nat)>)
    requires InitialState(d).Ok?
    ensures InitialState(TornRun(d, torn)).Ok?
    ensures Reopen(TornRun(d, torn)) == TornRun(d, torn)
  {
    if torn != [] {
      var n := |torn| - 1;
      ReopeningKeepsEverything(d, torn[..n]);
      var d' := TornRun(d, torn[..n]);
      var ops := CallPlan(d', torn[n].0).0;
      CallsKeepInitialState(d', torn[n].0);
      OpsKeepInitialState(d', ops[..Performed(ops, torn[n].1)]);
    }
  }
}
