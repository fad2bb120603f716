/** The data directory of the storage: named files, and the atomic operations on them. */
module Files {
  import opened Types

  datatype FileName =
    | FirstFile | LastFile | TermFile | AppliedFile | HardStateFile | SnapshotFile
    | EntryFile(index: nat)

  datatype Content = Num(n: nat) | Hard(hs: HardState) | Snap(snapshot: Snapshot) | Log(entry: Entry)

  type Directory = map<FileName, Content>

  datatype FileOp = Write(name: FileName, content: Content) | Remove(name: FileName)

  function ApplyOp(d: Directory, op: FileOp): Directory {
    match op
    case Write(name, content) => d[name := content]
    case Remove(name) => d - {name}
  }

  // Both directories hold the same under this name.
  ghost predicate Same(d: Directory, d': Directory, name: FileName) {
    (name in d <==> name in d') && (name in d ==> d[name] == d'[name])
  }

  function ApplyOps(d: Directory, ops: seq<FileOp>): Directory {
    if ops == [] then d else ApplyOp(ApplyOps(d, ops[..|ops| - 1]), ops[|ops| - 1])
  }

  lemma {:induction false} ApplyOneMore(d: Directory, ops: seq<FileOp>, k: nat)
    requires k < |ops|
    ensures ApplyOps(d, ops[..k + 1]) == ApplyOp(ApplyOps(d, ops[..k]), ops[k])
  {
    assert ops[..k + 1][..k] == ops[..k];
  }

  lemma {:induction false} ApplyOpsConcat(d: Directory, ops: seq<FileOp>, more: seq<FileOp>)
    ensures ApplyOps(d, ops + more) == ApplyOps(ApplyOps(d, ops), more)
  {
    if more == [] {
      assert ops + more == ops;
    } else {
      var m := |more| - 1;
      ApplyOpsConcat(d, ops, more[..m]);
      assert (ops + more)[..|ops| + m] == ops + more[..m];
    }
  }

  // Files that no operation names keep their contents.
  lemma {:induction false} ApplyOpsKeeps(d: Directory, ops: seq<FileOp>, name: FileName)
    requires forall i :: 0 <= i < |ops| ==> ops[i].name != name
    ensures Same(d, ApplyOps(d, ops), name)
  {
    if ops != [] {
      ApplyOpsKeeps(d, ops[..|ops| - 1], name);
    }
  }

  lemma {:induction false} ApplySingle(d: Directory, op: FileOp)
    ensures ApplyOps(d, [op]) == ApplyOp(d, op)
  {
    ApplyOneMore(d, [op], 0);
    assert [op][..1] == [op];
  }

  // Operations on entry files leave the other files alone.
  lemma {:induction false} EntryOpsKeepOthers(d: Directory, ops: seq<FileOp>)
    requires forall i :: 0 <= i < |ops| ==> ops[i].name.EntryFile?
    ensures var d' := ApplyOps(d, ops);
            && Same(d, d', FirstFile) && Same(d, d', LastFile) && Same(d, d', TermFile)
            && Same(d, d', AppliedFile) && Same(d, d', HardStateFile) && Same(d, d', SnapshotFile)
  {
    ApplyOpsKeeps(d, ops, FirstFile);
    ApplyOpsKeeps(d, ops, LastFile);
    ApplyOpsKeeps(d, ops, TermFile);
    ApplyOpsKeeps(d, ops, AppliedFile);
    ApplyOpsKeeps(d, ops, HardStateFile);
    ApplyOpsKeeps(d, ops, SnapshotFile);
  }

  // Readers. A missing file is NotFound, unexpected contents are InvalidData.

  function ReadNum(d: Directory, name: FileName): Result<nat> {
    if name !in d then Err(NotFound) else if d[name].Num? then Ok(d[name].n) else Err(InvalidData)
  }

  function ReadHardState(d: Directory): Result<HardState> {
    if HardStateFile !in d then Err(NotFound)
    else if d[HardStateFile].Hard? then Ok(d[HardStateFile].hs) else Err(InvalidData)
  }

  function ReadSnapshot(d: Directory): Result<Snapshot> {
    if SnapshotFile !in d then Err(NotFound)
    else if d[SnapshotFile].Snap? then Ok(d[SnapshotFile].snapshot) else Err(InvalidData)
  }

  function ReadEntry(d: Directory, index: nat): Result<Entry> {
    if EntryFile(index) !in d then Err(NotFound)
    else if d[EntryFile(index)].Log? then Ok(d[EntryFile(index)].entry) else Err(InvalidData)
  }

  // The entries low, low + 1, .., high - 1, or the first error met.
  function ReadEntries(d: Directory, low: nat, high: nat): Result<seq<Entry>>
    decreases high - low
  {
    if high <= low then Ok([])
    else match ReadEntry(d, low)
      case Err(e) => Err(e)
      case Ok(entry) =>
        match ReadEntries(d, low + 1, high)
        case Err(e) => Err(e)
        case Ok(rest) => Ok([entry] + rest)
  }

  lemma {:induction false} ReadEntriesAll(d: Directory, low: nat, high: nat, entries: seq<Entry>)
    requires |entries| == if low <= high then high - low else 0
    requires forall i :: 0 <= i < |entries| ==> ReadEntry(d, low + i) == Ok(entries[i])
    ensures ReadEntries(d, low, high) == Ok(entries)
    decreases high - low
  {
    if low < high {
      assert ReadEntry(d, low + 0) == Ok(entries[0]);
      forall i | 0 <= i < |entries[1..]| ensures ReadEntry(d, low + 1 + i) == Ok(entries[1..][i]) {
        assert ReadEntry(d, low + (i + 1)) == Ok(entries[i + 1]);
      }
      ReadEntriesAll(d, low + 1, high, entries[1..]);
      assert entries == [entries[0]] + entries[1..];
    } else {
      assert entries == [];
    }
  }
}
