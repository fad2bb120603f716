/** The file-system backed storage: what its readers answer and what its mutators write. */
module FsStorages {
  import opened Types
  import opened Files

  // Readers

  function InitialState(d: Directory): Result<RaftState> {
    match ReadHardState(d)
    case Err(e) => Err(e)
    case Ok(hs) =>
      match ReadSnapshot(d)
      case Err(e) => Err(e)
      case Ok(s) => Ok(RaftState(hs, if s.confState.Some? then s.confState.value else ConfState([])))
  }

  function FirstIndex(d: Directory): Result<nat> { ReadNum(d, FirstFile) }

  function LastIndex(d: Directory): Result<nat> { ReadNum(d, LastFile) }

  function Applied(d: Directory): Result<nat> { ReadNum(d, AppliedFile) }

  function Entries(d: Directory, low: nat, high: nat): Result<seq<Entry>> {
    if low > high then Err(Compacted)
    else match FirstIndex(d)
      case Err(e) => Err(e)
      case Ok(first) =>
        match LastIndex(d)
        case Err(e) => Err(e)
        case Ok(last) =>
          if first > last then Err(Compacted)
          else if low == high then Ok([])
          else if low < first then Err(Compacted)
          else if high > last + 1 then Err(Unavailable)
          else ReadEntries(d, low, high)
  }

  function Term(d: Directory, index: nat): Result<nat> {
    match ReadEntry(d, index)
    case Ok(entry) => Ok(entry.term)
    case Err(e) =>
      if e != NotFound then Err(e)
      else if index == 0 then Ok(0)
      else match FirstIndex(d)
        case Err(e) => Err(e)
        case Ok(first) =>
          match ReadNum(d, TermFile)
          case Err(e) => Err(e)
          case Ok(compacted) =>
            if compacted == 0 then Err(Unavailable)
            else if index + 1 == first then Ok(compacted)
            else Err(Compacted)
  }

  // Mutators: the file operations a call performs when none of them fails, and its answer then.

  datatype Plan<+T> = Plan(ops: seq<FileOp>, answer: Result<T>)

  function EntryWrites(entries: seq<Entry>): (ops: seq<FileOp>)
    ensures |ops| == |entries|
    ensures forall i :: 0 <= i < |ops| ==> ops[i] == Write(EntryFile(entries[i].index), Log(entries[i]))
  {
    seq(|entries|, i requires 0 <= i < |entries| => Write(EntryFile(entries[i].index), Log(entries[i])))
  }

  function Removals(entries: seq<Entry>): (ops: seq<FileOp>)
    ensures |ops| == |entries|
    ensures forall i :: 0 <= i < |ops| ==> ops[i] == Remove(EntryFile(entries[i].index))
  {
    seq(|entries|, i requires 0 <= i < |entries| => Remove(EntryFile(entries[i].index)))
  }

  function AppendPlan(entries: seq<Entry>): Plan<()> {
    Plan(if entries == [] then []
         else EntryWrites(entries) + [Write(LastFile, Num(entries[|entries| - 1].index))],
         Ok(()))
  }

  function CompactPlan(d: Directory, index: nat): Plan<()> {
    match FirstIndex(d)
    case Err(e) => Plan([], Err(e))
    case Ok(first) =>
      if first > index then Plan([], Err(Compacted))
      else match ReadEntries(d, first, index + 1)
        case Err(e) => Plan([], Err(e))
        case Ok(deleted) => Plan(DropOps(deleted), Ok(()))
  }

  // The compacted term, then the new first index, then the removals.
  function DropOps(deleted: seq<Entry>): (ops: seq<FileOp>)
    ensures deleted != [] ==> |ops| == |deleted| + 2
    ensures deleted != [] ==> ops[0] == Write(TermFile, Num(deleted[|deleted| - 1].term))
    ensures deleted != [] ==> ops[1] == Write(FirstFile, Num(deleted[|deleted| - 1].index + 1))
  {
    if deleted == [] then []
    else [Write(TermFile, Num(deleted[|deleted| - 1].term)),
          Write(FirstFile, Num(deleted[|deleted| - 1].index + 1))] + Removals(deleted)
  }

  function CreateSnapshotPlan(d: Directory, index: nat, confState: Option<ConfState>, data: seq<byte>): Plan<Snapshot> {
    match ReadSnapshot(d)
    case Err(e) => Plan([], Err(e))
    case Ok(current) =>
      if index <= current.index then Plan([], Err(SnapshotOutOfDate))
      else match LastIndex(d)
        case Err(e) => Plan([], Err(e))
        case Ok(last) =>
          if index > last then Plan([], Err(Panic))
          else match ReadEntry(d, index)
            case Err(_) => Plan([], Err(Panic))
            case Ok(entry) =>
              var s := Snapshot(index, entry.term,
                                if confState.Some? then confState else current.confState, data);
              Plan([Write(SnapshotFile, Snap(s))], Ok(s))
  }

  function ApplySnapshotPlan(d: Directory, snapshot: Snapshot): Plan<()> {
    match ReadSnapshot(d)
    case Err(e) => Plan([], Err(e))
    case Ok(current) =>
      if current.index >= snapshot.index then Plan([], Err(SnapshotOutOfDate))
      else
        var compact := CompactPlan(d, snapshot.index);
        if compact.answer.Err? then compact
        else Plan(compact.ops + [Write(SnapshotFile, Snap(snapshot))], Ok(()))
  }

  function SetHardStateOp(hs: HardState): FileOp { Write(HardStateFile, Hard(hs)) }

  function SetAppliedOp(applied: nat): FileOp { Write(AppliedFile, Num(applied)) }

  const INIT_OPS: seq<FileOp> :=
    [Write(TermFile, Num(0)), Write(FirstFile, Num(1)), Write(LastFile, Num(0)),
     Write(AppliedFile, Num(0)), Write(HardStateFile, Hard(NO_HARD_STATE)),
     Write(SnapshotFile, Snap(NO_SNAPSHOT))]

  // Opening a directory initializes it when the hard state or the snapshot is missing.
  function OpenPlan(d: Directory): Plan<()> {
    if InitialState(d) == Err(NotFound) then Plan(INIT_OPS, Ok(())) else Plan([], Ok(()))
  }

  // How many of the planned operations are performed when the next failure is `healthy` away.
  function Performed(ops: seq<FileOp>, healthy: nat): (n: nat)
    ensures n <= |ops|
  {
    if healthy < |ops| then healthy else |ops|
  }

  // The directory and the answer of a planned call when the next failure is `healthy` away.
  function Outcome<T>(d: Directory, plan: Plan<T>, healthy: nat): (Directory, Result<T>) {
    (ApplyOps(d, plan.ops[..Performed(plan.ops, healthy)]),
     if healthy < |plan.ops| then Err(IoFailed) else plan.answer)
  }

  // The directory after the first k operations of a compaction.
  lemma {:induction false} DropPrefix(d: Directory, deleted: seq<Entry>, k: nat)
    requires deleted != [] && k <= |DropOps(deleted)|
    ensures var ops := DropOps(deleted);
            ApplyOps(d, ops[..k]) ==
            if k == 0 then d
            else if k == 1 then ApplyOp(d, ops[0])
            else ApplyOps(ApplyOp(ApplyOp(d, ops[0]), ops[1]), Removals(deleted)[..k - 2])
  {
    var ops := DropOps(deleted);
    if k >= 2 {
      TwoOps(d, ops[0], ops[1]);
      assert ops[..k] == [ops[0], ops[1]] + Removals(deleted)[..k - 2];
      ApplyOpsConcat(d, [ops[0], ops[1]], Removals(deleted)[..k - 2]);
    } else if k == 1 {
      assert ops[..1] == [ops[0]];
      ApplySingle(d, ops[0]);
    }
  }

  lemma {:induction false} TwoOps(d: Directory, a: FileOp, b: FileOp)
    ensures ApplyOps(d, [a, b]) == ApplyOp(ApplyOp(d, a), b)
  {
    ApplySingle(d, a);
    assert [a, b][..1] == [a];
  }

  lemma DropOutcome(d: Directory, deleted: seq<Entry>, healthy: nat)
    requires deleted != []
    ensures var ops := DropOps(deleted);
            Outcome(d, Plan(ops, Ok(())), healthy) ==
            if healthy == 0 then (d, Err(IoFailed))
            else if healthy == 1 then (ApplyOp(d, ops[0]), Err(IoFailed))
            else Outcome(ApplyOp(ApplyOp(d, ops[0]), ops[1]), Plan(Removals(deleted), Ok(())), healthy - 2)
  {
    DropPrefix(d, deleted, Performed(DropOps(deleted), healthy));
  }

  // Entry files hold the entry they are named after.
  ghost predicate NamesMatch(d: Directory) {
    forall i: nat :: EntryFile(i) in d && d[EntryFile(i)].Log? ==> d[EntryFile(i)].entry.index == i
  }

  lemma {:induction false} ReadEntriesElements(d: Directory, low: nat, high: nat)
    requires ReadEntries(d, low, high).Ok? && low <= high
    ensures |ReadEntries(d, low, high).value| == high - low
    ensures forall i :: 0 <= i < high - low ==> ReadEntry(d, low + i) == Ok(ReadEntries(d, low, high).value[i])
    decreases high - low
  {
    if low < high {
      ReadEntriesElements(d, low + 1, high);
      var rest := ReadEntries(d, low + 1, high).value;
      forall i | 0 <= i < high - low ensures ReadEntry(d, low + i) == Ok(ReadEntries(d, low, high).value[i]) {
        if i > 0 {
          assert ReadEntry(d, low + 1 + (i - 1)) == Ok(rest[i - 1]);
        }
      }
    }
  }

  /** The file system performs `healthy` more operations and fails from then on; a failing operation
      changes nothing, and a mutator stops at its first failure. */
  class FsStorage {
    var files: Directory
    var healthy: nat

    ghost predicate Valid()
      reads this
    {
      NamesMatch(files)
    }

    constructor (d: Directory, healthy: nat)
      requires NamesMatch(d)
      ensures Valid() && files == d && this.healthy == healthy
    {
      files := d;
      this.healthy := healthy;
    }

    method Perform(op: FileOp) returns (ok: bool)
      requires op.Remove? ==> op.name in files
      modifies this
      ensures ok <==> 0 < old(healthy)
      ensures files == if ok then ApplyOp(old(files), op) else old(files)
      ensures healthy == if ok then old(healthy) - 1 else 0
    {
      ok := 0 < healthy;
      if ok {
        healthy := healthy - 1;
        match op
        case Write(name, content) => files := files[name := content];
        case Remove(name) => files := files - {name};
      }
    }

    // with_data_dir
    method InitRaftStateIfMissing() returns (r: Result<()>)
      requires Valid()
      modifies this
      ensures Valid() && (files, r) == Outcome(old(files), OpenPlan(old(files)), old(healthy))
      ensures healthy == old(healthy) - Performed(OpenPlan(old(files)).ops, old(healthy))
    {
      if InitialState(files) == Err(NotFound) {
        ghost var ops := INIT_OPS;
        for k := 0 to 6
          invariant k <= old(healthy) && healthy == old(healthy) - k
          invariant Valid() && files == ApplyOps(old(files), ops[..k])
        {
          ApplyOneMore(old(files), ops, k);
          var ok := Perform(INIT_OPS[k]);
          if !ok {
            return Err(IoFailed);
          }
        }
      }
      r := Ok(());
    }

    method Append(entries: seq<Entry>) returns (r: Result<()>)
      requires Valid()
      modifies this
      ensures Valid() && (files, r) == Outcome(old(files), AppendPlan(entries), old(healthy))
      ensures healthy == old(healthy) - Performed(AppendPlan(entries).ops, old(healthy))
    {
      ghost var ops := AppendPlan(entries).ops;
      for k := 0 to |entries|
        invariant k <= old(healthy) && healthy == old(healthy) - k
        invariant Valid() && files == ApplyOps(old(files), ops[..k])
      {
        ApplyOneMore(old(files), ops, k);
        assert ops[k] == Write(EntryFile(entries[k].index), Log(entries[k]));
        var ok := Perform(Write(EntryFile(entries[k].index), Log(entries[k])));
        if !ok {
          return Err(IoFailed);
        }
      }
      if entries != [] {
        ApplyOneMore(old(files), ops, |entries|);
        assert ops[..|entries| + 1] == ops && ops[|entries|] == Write(LastFile, Num(entries[|entries| - 1].index));
        var ok := Perform(Write(LastFile, Num(entries[|entries| - 1].index)));
        if !ok {
          return Err(IoFailed);
        }
      }
      r := Ok(());
    }

    method Compact(index: nat) returns (r: Result<()>)
      requires Valid()
      modifies this
      ensures Valid() && (files, r) == Outcome(old(files), CompactPlan(old(files), index), old(healthy))
      ensures healthy == old(healthy) - Performed(CompactPlan(old(files), index).ops, old(healthy))
    {
      var first := FirstIndex(files);
      if first.Err? {
        return Err(first.error);
      }
      if first.value > index {
        return Err(Compacted);
      }
      var deleted := ReadEntries(files, first.value, index + 1);
      if deleted.Err? {
        return Err(deleted.error);
      }
      ReadEntriesElements(files, first.value, index + 1);
      assert forall i :: 0 <= i < |deleted.value| ==> ReadEntry(files, first.value + i) == Ok(deleted.value[i]);
      r := DropEntries(deleted.value);
    }

    // The second half of compact, once the entries to delete have been read.
    method DropEntries(deleted: seq<Entry>) returns (r: Result<()>)
      requires Valid()
      requires forall i :: 0 <= i < |deleted| ==> EntryFile(deleted[i].index) in files
      requires forall i, j :: 0 <= i < j < |deleted| ==> deleted[i].index != deleted[j].index
      modifies this
      ensures Valid() && (files, r) == Outcome(old(files), Plan(DropOps(deleted), Ok(())), old(healthy))
      ensures healthy == old(healthy) - Performed(DropOps(deleted), old(healthy))
    {
      if deleted == [] {
        return Ok(());
      }
      DropOutcome(files, deleted, healthy);
      var last := deleted[|deleted| - 1];
      var ok := Perform(Write(TermFile, Num(last.term)));
      if !ok {
        return Err(IoFailed);
      }
      ok := Perform(Write(FirstFile, Num(last.index + 1)));
      if !ok {
        return Err(IoFailed);
      }
      r := RemoveEntries(deleted);
    }

    method RemoveEntries(entries: seq<Entry>) returns (r: Result<()>)
      requires Valid()
      requires forall i :: 0 <= i < |entries| ==> EntryFile(entries[i].index) in files
      requires forall i, j :: 0 <= i < j < |entries| ==> entries[i].index != entries[j].index
      modifies this
      ensures Valid() && (files, r) == Outcome(old(files), Plan(Removals(entries), Ok(())), old(healthy))
      ensures healthy == old(healthy) - Performed(Removals(entries), old(healthy))
    {
      ghost var ops := Removals(entries);
      for k := 0 to |entries|
        invariant k <= old(healthy) && healthy == old(healthy) - k
        invariant Valid() && files == ApplyOps(old(files), ops[..k])
        invariant forall i :: k <= i < |entries| ==> EntryFile(entries[i].index) in files
      {
        ApplyOneMore(old(files), ops, k);
        var ok := Perform(Remove(EntryFile(entries[k].index)));
        if !ok {
          return Err(IoFailed);
        }
      }
      r := Ok(());
    }

    method CreateSnapshot(index: nat, confState: Option<ConfState>, data: seq<byte>) returns (r: Result<Snapshot>)
      requires Valid()
      modifies this
      ensures Valid()
      ensures (files, r) == Outcome(old(files), CreateSnapshotPlan(old(files), index, confState, data), old(healthy))
      ensures healthy ==
              old(healthy) - Performed(CreateSnapshotPlan(old(files), index, confState, data).ops, old(healthy))
    {
      var current := ReadSnapshot(files);
      if current.Err? {
        return Err(current.error);
      }
      if index <= current.value.index {
        return Err(SnapshotOutOfDate);
      }
      var last := LastIndex(files);
      if last.Err? {
        return Err(last.error);
      }
      if index > last.value {
        return Err(Panic);
      }
      var snapshot := current.value.(index := index);
      var entry := ReadEntry(files, index);
      if entry.Err? {
        return Err(Panic);
      }
      snapshot := snapshot.(term := entry.value.term);
      if confState.Some? {
        snapshot := snapshot.(confState := confState);
      }
      snapshot := snapshot.(data := data);
      ApplyOneMore(files, [Write(SnapshotFile, Snap(snapshot))], 0);
      var ok := Perform(Write(SnapshotFile, Snap(snapshot)));
      r := if ok then Ok(snapshot) else Err(IoFailed);
    }

    method ApplySnapshot(snapshot: Snapshot) returns (r: Result<()>)
      requires Valid()
      modifies this
      ensures Valid() && (files, r) == Outcome(old(files), ApplySnapshotPlan(old(files), snapshot), old(healthy))
      ensures healthy == old(healthy) - Performed(ApplySnapshotPlan(old(files), snapshot).ops, old(healthy))
    {
      ghost var ops := ApplySnapshotPlan(files, snapshot).ops;
      ghost var compaction := CompactPlan(files, snapshot.index);
      var current := ReadSnapshot(files);
      if current.Err? {
        return Err(current.error);
      }
      if current.value.index >= snapshot.index {
        return Err(SnapshotOutOfDate);
      }
      r := Compact(snapshot.index);
      if compaction.answer.Ok? {
        forall k: nat | k <= |compaction.ops| ensures ops[..k] == compaction.ops[..k] {}
      }
      if r.Err? {
        return;
      }
      ApplyOneMore(old(files), ops, |compaction.ops|);
      var ok := Perform(Write(SnapshotFile, Snap(snapshot)));
      r := if ok then Ok(()) else Err(IoFailed);
    }

    method SetHardState(hs: HardState) returns (r: Result<()>)
      requires Valid()
      modifies this
      ensures Valid() && r == if 0 < old(healthy) then Ok(()) else Err(IoFailed)
      ensures files == if r.Ok? then ApplyOp(old(files), SetHardStateOp(hs)) else old(files)
      ensures healthy == if r.Ok? then old(healthy) - 1 else 0
    {
      var ok := Perform(Write(HardStateFile, Hard(hs)));
      r := if ok then Ok(()) else Err(IoFailed);
    }

    method SetApplied(applied: nat) returns (r: Result<()>)
      requires Valid()
      modifies this
      ensures Valid() && r == if 0 < old(healthy) then Ok(()) else Err(IoFailed)
      ensures files == if r.Ok? then ApplyOp(old(files), SetAppliedOp(applied)) else old(files)
      ensures healthy == if r.Ok? then old(healthy) - 1 else 0
    {
      var ok := Perform(Write(AppliedFile, Num(applied)));
      r := if ok then Ok(()) else Err(IoFailed);
    }
  }
}
