/** The storage Raft runs on: FsStorage behind bounded least-recently-used caches. */
module CachedStorages {
  import opened Types
  import opened Files
  import opened FsStorages
  import opened CacheSpec

  class EntryCache {
    var items: seq<Entry>

    constructor ()
      ensures items == []
    {
      items := [];
    }

    method Get(index: nat) returns (found: Option<Entry>)
      modifies this
      ensures (items, found) == FindEntry(old(items), index)
    {
      var i := FirstMatch(items, (e: Entry) => e.index == index);
      if i < |items| {
        found := Some(items[i]);
        items := Touch(items, i);
      } else {
        found := None;
      }
    }

    method Insert(entry: Entry)
      modifies this
      ensures items == CacheSpec.Insert(old(items), entry)
    {
      items := CacheSpec.Insert(items, entry);
    }

    method Clear()
      modifies this
      ensures items == []
    {
      items := [];
    }

    method Range(low: nat, high: nat) returns (range: Option<seq<Entry>>)
      modifies this
      ensures (items, range) == FindRange(old(items), low, high)
    {
      var entries: seq<Entry> := [];
      var index := low;
      ghost var all := FindRange(items, low, high).1;
      assert all.Some? ==> entries + all.value == all.value;
      while index < high
        invariant low <= index && (index <= high || high <= low == index)
        invariant var (rest, found) := FindRange(items, index, high);
                  FindRange(old(items), low, high) ==
                  (rest, if found.None? then None else Some(entries + found.value))
      {
        var entry := Get(index);
        if entry.None? {
          return None;
        }
        ghost var tail := FindRange(items, index + 1, high).1;
        assert tail.Some? ==> entries + ([entry.value] + tail.value) == (entries + [entry.value]) + tail.value;
        entries := entries + [entry.value];
        index := index + 1;
      }
      assert entries + [] == entries;
      range := Some(entries);
    }

    // for entry in entries { insert(entry) }
    method InsertEach(entries: seq<Entry>)
      modifies this
      ensures items == InsertAll(old(items), entries)
    {
      for k := 0 to |entries|
        invariant InsertAll(items, entries[k..]) == InsertAll(old(items), entries)
      {
        assert entries[k..][1..] == entries[k + 1..];
        Insert(entries[k]);
      }
    }
  }

  class TermCache {
    var items: seq<(nat, nat)>

    constructor ()
      ensures items == []
    {
      items := [];
    }

    method Get(index: nat) returns (term: Option<nat>)
      modifies this
      ensures items == FindTerm(old(items), index).0
      ensures var found := FindTerm(old(items), index).1;
              term == if found.Some? then Some(found.value.1) else None
    {
      var i := FirstMatch(items, (p: (nat, nat)) => p.0 == index);
      if i < |items| {
        term := Some(items[i].1);
        items := Touch(items, i);
      } else {
        term := None;
      }
    }

    method Insert(index: nat, term: nat)
      modifies this
      ensures items == CacheSpec.Insert(old(items), (index, term))
    {
      items := CacheSpec.Insert(items, (index, term));
    }

    method Clear()
      modifies this
      ensures items == []
    {
      items := [];
    }
  }

  class StorageCache {
    var initialState: Option<RaftState>
    var firstIndex: Option<nat>
    var lastIndex: Option<nat>
    var snapshot: Option<Snapshot>
    var entries: EntryCache?
    const terms: TermCache

    ghost function View(): Cache
      reads this, entries, terms
    {
      Cache(initialState, firstIndex, lastIndex, snapshot,
            if entries == null then None else Some(entries.items), terms.items)
    }

    constructor ()
      ensures View() == NO_CACHE && entries == null && fresh(terms)
    {
      initialState, firstIndex, lastIndex, snapshot, entries := None, None, None, None, null;
      terms := new TermCache();
    }

    method Reset()
      modifies this, entries, terms
      ensures View() == CacheSpec.Reset(old(View())) && entries == old(entries)
    {
      initialState := None;
      firstIndex := None;
      lastIndex := None;
      snapshot := None;
      if entries != null {
        entries.Clear();
      }
      terms.Clear();
    }
  }

  class CachedStorage {
    const storage: FsStorage
    const cache: StorageCache

    ghost function View(): Cache
      reads cache, cache.entries, cache.terms
    {
      cache.View()
    }

    // The caches hold only what the storage would answer.
    ghost predicate Valid()
      reads storage, cache, cache.entries, cache.terms
    {
      storage.Valid() && Sound(View(), storage.files)
    }

    constructor (storage: FsStorage)
      requires storage.Valid()
      ensures Valid() && this.storage == storage && View() == NO_CACHE
      ensures fresh(cache) && fresh(cache.terms) && cache.entries == null
    {
      this.storage := storage;
      cache := new StorageCache();
    }

    method InitialState() returns (r: Result<RaftState>)
      requires Valid()
      modifies cache
      ensures Valid() && r == FsStorages.InitialState(storage.files)
      ensures (View(), r) == CachedInitialState(old(View()), storage.files) && cache.entries == old(cache.entries)
    {
      if cache.initialState.Some? {
        return Ok(cache.initialState.value);
      }
      r := FsStorages.InitialState(storage.files);
      if r.Ok? {
        cache.initialState := Some(r.value);
      }
    }

    method FirstIndex() returns (r: Result<nat>)
      requires Valid()
      modifies cache
      ensures Valid() && r == FsStorages.FirstIndex(storage.files)
      ensures (View(), r) == CachedFirstIndex(old(View()), storage.files) && cache.entries == old(cache.entries)
    {
      if cache.firstIndex.Some? {
        return Ok(cache.firstIndex.value);
      }
      r := FsStorages.FirstIndex(storage.files);
      if r.Ok? {
        cache.firstIndex := Some(r.value);
      }
    }

    method LastIndex() returns (r: Result<nat>)
      requires Valid()
      modifies cache
      ensures Valid() && r == FsStorages.LastIndex(storage.files)
      ensures (View(), r) == CachedLastIndex(old(View()), storage.files) && cache.entries == old(cache.entries)
    {
      if cache.lastIndex.Some? {
        return Ok(cache.lastIndex.value);
      }
      r := FsStorages.LastIndex(storage.files);
      if r.Ok? {
        cache.lastIndex := Some(r.value);
      }
    }

    method Snapshot() returns (r: Result<Snapshot>)
      requires Valid()
      modifies cache
      ensures Valid() && r == ReadSnapshot(storage.files)
      ensures (View(), r) == CachedSnapshot(old(View()), storage.files) && cache.entries == old(cache.entries)
    {
      if cache.snapshot.Some? {
        return Ok(cache.snapshot.value);
      }
      r := ReadSnapshot(storage.files);
      if r.Ok? {
        cache.snapshot := Some(r.value);
      }
    }

    method Term(index: nat) returns (r: Result<nat>)
      requires Valid()
      modifies cache.terms
      ensures Valid() && r == FsStorages.Term(storage.files, index)
      ensures (View(), r) == CachedTerm(old(View()), storage.files, index)
    {
      CachedTermAgrees(View(), storage.files, index);
      var term := cache.terms.Get(index);
      if term.Some? {
        return Ok(term.value);
      }
      r := FsStorages.Term(storage.files, index);
      if r.Ok? {
        cache.terms.Insert(index, r.value);
      }
    }

    method Entries(low: nat, high: nat) returns (r: Result<seq<Entry>>)
      requires Valid()
      modifies cache, cache.entries
      ensures Valid()
      ensures (View(), r) == CachedEntries(old(View()), storage.files, low, high)
      ensures r == if old(cache.entries) != null && high <= low then Ok([])
                   else FsStorages.Entries(storage.files, low, high)
      ensures cache.entries == old(cache.entries) || fresh(cache.entries)
    {
      CachedEntriesAgree(View(), storage.files, low, high);
      if cache.entries != null {
        var range := cache.entries.Range(low, high);
        match range
        case Some(entries) =>
          cache.entries.InsertEach(entries);
          return Ok(entries);
        case None =>
          return FsStorages.Entries(storage.files, low, high);
      }
      r := FsStorages.Entries(storage.files, low, high);
      if r.Ok? {
        var entries := new EntryCache();
        entries.InsertEach(r.value);
        cache.entries := entries;
      }
    }

    method SetHardState(hs: HardState) returns (r: Result<()>)
      requires Valid()
      modifies cache, cache.entries, cache.terms, storage
      ensures Valid() && View() == Reset(old(View())) && cache.entries == old(cache.entries)
      ensures r == if 0 < old(storage.healthy) then Ok(()) else Err(IoFailed)
      ensures storage.files == if r.Ok? then ApplyOp(old(storage.files), SetHardStateOp(hs)) else old(storage.files)
    {
      cache.Reset();
      r := storage.SetHardState(hs);
    }

    method CreateSnapshot(index: nat, confState: Option<ConfState>, data: seq<byte>) returns (r: Result<Snapshot>)
      requires Valid()
      modifies cache, cache.entries, cache.terms, storage
      ensures Valid() && View() == Reset(old(View())) && cache.entries == old(cache.entries)
      ensures (storage.files, r) ==
              Outcome(old(storage.files), CreateSnapshotPlan(old(storage.files), index, confState, data),
                      old(storage.healthy))
    {
      cache.Reset();
      r := storage.CreateSnapshot(index, confState, data);
    }

    method ApplySnapshot(snapshot: Snapshot) returns (r: Result<()>)
      requires Valid()
      modifies cache, cache.entries, cache.terms, storage
      ensures Valid() && View() == Reset(old(View())) && cache.entries == old(cache.entries)
      ensures (storage.files, r) ==
              Outcome(old(storage.files), ApplySnapshotPlan(old(storage.files), snapshot), old(storage.healthy))
    {
      cache.Reset();
      r := storage.ApplySnapshot(snapshot);
    }

    method Compact(index: nat) returns (r: Result<()>)
      requires Valid()
      modifies cache, cache.entries, cache.terms, storage
      ensures Valid() && View() == Reset(old(View())) && cache.entries == old(cache.entries)
      ensures (storage.files, r) ==
              Outcome(old(storage.files), CompactPlan(old(storage.files), index), old(storage.healthy))
    {
      cache.Reset();
      r := storage.Compact(index);
    }

    method Append(entries: seq<Entry>) returns (r: Result<()>)
      requires Valid()
      modifies cache, cache.entries, cache.terms, storage
      ensures Valid() && View() == Reset(old(View())) && cache.entries == old(cache.entries)
      ensures (storage.files, r) == Outcome(old(storage.files), AppendPlan(entries), old(storage.healthy))
    {
      cache.Reset();
      r := storage.Append(entries);
    }

    // Not cached, so no reset.
    method SetApplied(applied: nat) returns (r: Result<()>)
      requires Valid()
      modifies storage
      ensures Valid() && View() == old(View())
      ensures r == if 0 < old(storage.healthy) then Ok(()) else Err(IoFailed)
      ensures storage.files == if r.Ok? then ApplyOp(old(storage.files), SetAppliedOp(applied)) else old(storage.files)
    {
      SetAppliedKeepsSound(View(), storage.files, applied, 1);
      r := storage.SetApplied(applied);
    }
  }
}
