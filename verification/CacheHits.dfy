/** When a cached answer saves asking the storage. A request that is answered from the cache is answered
    the same whatever the storage holds by then. */
module CacheHits {
  import opened Types
  import opened Files
  import opened FsStorages
  import opened CacheSpec

  // The answer does not depend on the storage.
  ghost predicate Hit(c: Cache, request: Request, response: Response) {
    forall d :: Cached(c, d, request).2 == response
  }

  predicate Succeeded(response: Response) {
    match response
    case StateIs(state) => state.Ok?
    case NumberIs(number) => number.Ok?
    case SnapshotIs(snapshot) => snapshot.Ok?
    case RangeIs(range) => range.Ok?
    case Mutated(_) => false
  }

  // The term just read is in front, or already was in the cache.
  lemma TermIsCached(c: Cache, d: Directory, index: nat)
    requires CachedTerm(c, d, index).1.Ok?
    ensures forall d' :: CachedTerm(CachedTerm(c, d, index).0, d', index).1 == CachedTerm(c, d, index).1
  {
    var terms := CachedTerm(c, d, index).0.terms;
    assert terms != [] && terms[0].0 == index && Ok(terms[0].1) == CachedTerm(c, d, index).1;
    assert FindTerm(terms, index).1 == Some(terms[0]);
  }

  /** Every successful read but entries() is answered from the cache when it is repeated. */
  lemma RepeatedReadHits(c: Cache, d: Directory, request: Request)
    requires !request.ReadRange? && Succeeded(Cached(c, d, request).2)
    ensures Hit(Cached(c, d, request).0, request, Cached(c, d, request).2)
  {
    if request.ReadTerm? {
      TermIsCached(c, d, request.index);
    }
  }

  // Ranges

  predicate HasIndex(items: seq<Entry>, index: nat) {
    exists p :: 0 <= p < |items| && items[p].index == index
  }

  predicate HasRange(items: seq<Entry>, low: nat, high: nat) {
    forall i :: low <= i < high ==> HasIndex(items, i)
  }

  lemma FoundEntry(items: seq<Entry>, index: nat)
    ensures FindEntry(items, index).1.Some? <==> HasIndex(items, index)
    ensures forall i :: HasIndex(FindEntry(items, index).0, i) <==> HasIndex(items, i)
  {
    var items' := FindEntry(items, index).0;
    var p := FirstMatch(items, (e: Entry) => e.index == index);
    forall i ensures HasIndex(items', i) <==> HasIndex(items, i) {
      if q :| 0 <= q < |items| && items[q].index == i {
        assert items'[if p == |items| || q > p then q else if q < p then q + 1 else 0] == items[q];
      }
      if q :| 0 <= q < |items'| && items'[q].index == i {
        assert items'[q] == items[if p == |items| || q > p then q else if q == 0 then p else q - 1];
      }
    }
  }

  // A range is found exactly if every index is cached.
  lemma {:induction false} FoundRange(items: seq<Entry>, low: nat, high: nat)
    ensures FindRange(items, low, high).1.Some? <==> HasRange(items, low, high)
    decreases high - low
  {
    if low < high {
      FoundEntry(items, low);
      var items' := FindEntry(items, low).0;
      FoundRange(items', low + 1, high);
      assert HasRange(items', low + 1, high) <==> HasRange(items, low + 1, high);
      assert HasRange(items, low, high) <==> HasIndex(items, low) && HasRange(items, low + 1, high);
    }
  }

  // What is inserted stays as long as no more than the capacity comes after it.
  lemma {:induction false} InsertedStays(items: seq<Entry>, entries: seq<Entry>, p: nat)
    requires p < |items| && p + |entries| < CACHE_SIZE
    ensures items[p] in InsertAll(items, entries)
    decreases |entries|
  {
    if entries != [] {
      assert Insert(items, entries[0])[p + 1] == items[p];
      InsertedStays(Insert(items, entries[0]), entries[1..], p + 1);
    }
  }

  /** The cache drops what has not been used for longest: an entry just found survives that many
      insertions. */
  lemma {:induction false} FoundStays(items: seq<Entry>, index: nat, entries: seq<Entry>)
    requires FindEntry(items, index).1.Some? && |entries| < CACHE_SIZE
    ensures FindEntry(items, index).1.value in InsertAll(FindEntry(items, index).0, entries)
  {
    InsertedStays(FindEntry(items, index).0, entries, 0);
  }

  lemma {:induction false} AllInserted(items: seq<Entry>, entries: seq<Entry>, k: nat)
    requires k < |entries| <= CACHE_SIZE
    ensures entries[k] in InsertAll(items, entries)
    decreases |entries|
  {
    var items' := Insert(items, entries[0]);
    if k == 0 {
      InsertedStays(items', entries[1..], 0);
    } else {
      AllInserted(items', entries[1..], k - 1);
    }
  }

  lemma {:induction false} CacheIsBounded(items: seq<Entry>, entries: seq<Entry>)
    requires |items| <= CACHE_SIZE
    ensures |InsertAll(items, entries)| <= CACHE_SIZE
    decreases |entries|
  {
    if entries != [] {
      CacheIsBounded(Insert(items, entries[0]), entries[1..]);
    }
  }

  // That many indexes need that many entries.
  lemma {:induction false} RangeNeedsRoom(items: seq<Entry>, low: nat, high: nat)
    requires HasRange(items, low, high) && low <= high
    ensures high - low <= |items|
    decreases high - low
  {
    if low < high {
      assert HasIndex(items, high - 1);
      var p :| 0 <= p < |items| && items[p].index == high - 1;
      var rest := items[..p] + items[p + 1..];
      forall i | low <= i < high - 1 ensures HasIndex(rest, i) {
        assert HasIndex(items, i);
        var q :| 0 <= q < |items| && items[q].index == i;
        assert rest[if q < p then q else q - 1] == items[q];
      }
      RangeNeedsRoom(rest, low, high - 1);
    }
  }

  // The entries of a range that fits are all cached.
  lemma {:induction false} RangeIsHeld(d: Directory, low: nat, high: nat, entries: seq<Entry>)
    requires NamesMatch(d) && Entries(d, low, high) == Ok(entries) && low < high && high - low <= CACHE_SIZE
    ensures HasRange(InsertAll([], entries), low, high)
  {
    ReadEntriesElements(d, low, high);
    forall i | low <= i < high ensures HasIndex(InsertAll([], entries), i) {
      AllInserted([], entries, i - low);
      assert ReadEntry(d, low + (i - low)) == Ok(entries[i - low]);
      var p :| 0 <= p < |InsertAll([], entries)| && InsertAll([], entries)[p] == entries[i - low];
    }
  }

  /** The first range read is answered from the cache when it is repeated if and only if it fits. */
  lemma {:induction false} FirstRangeHits(c: Cache, d: Directory, low: nat, high: nat)
    requires c.entries.None? && NamesMatch(d) && Entries(d, low, high).Ok?
    ensures var (c', r) := CachedEntries(c, d, low, high);
            && r == Entries(d, low, high) && c'.entries.Some?
            && (FindRange(c'.entries.value, low, high).1.Some? <==> high - low <= CACHE_SIZE)
  {
    var entries := Entries(d, low, high).value;
    var items := InsertAll([], entries);
    FoundRange(items, low, high);
    CacheIsBounded([], entries);
    if low < high {
      if high - low <= CACHE_SIZE {
        RangeIsHeld(d, low, high, entries);
      } else if HasRange(items, low, high) {
        RangeNeedsRoom(items, low, high);
      }
    }
  }

  // A cache of entries that holds none stays so: what is found in it is empty, and nothing else is
  // inserted.
  lemma EmptyStaysEmpty(c: Cache, d: Directory, request: Request)
    requires c.entries == Some([])
    ensures Cached(c, d, request).0.entries == Some([])
  {
    if request.ReadRange? {
      assert FindRange([], request.low, request.high).0 == [];
    }
  }

  predicate Resets(request: Request) {
    request.Mutate? && !request.call.SetApplied?
  }

  /** Once the entry cache has been filled and a mutation has reset it, it never holds an entry again,
      whatever is read: from then on every range is read from the storage. */
  lemma {:induction false} ResetForGood(d: Directory, requests: seq<Request>, k: nat)
    requires NamesMatch(d) && k < |requests| && Resets(requests[k])
    requires GotRange(requests[..k], CachedSession(NO_CACHE, d, requests[..k]).2)
    ensures CachedSession(NO_CACHE, d, requests).0.entries == Some([])
  {
    var n := |requests| - 1;
    if k == n {
      FilledByReading(d, requests[..n]);
    } else {
      assert requests[..n][..k] == requests[..k];
      ResetForGood(d, requests[..n], k);
      var (c, d', _) := CachedSession(NO_CACHE, d, requests[..n]);
      EmptyStaysEmpty(c, d', requests[n]);
    }
  }
}
