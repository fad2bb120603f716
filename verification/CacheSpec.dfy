/** What the caches in front of FsStorage hold and answer, and their agreement with it. */
module CacheSpec {
  import opened Types
  import opened Files
  import opened FsStorages
  import opened LogModel

  const CACHE_SIZE := 16

  // The cache of the uluru crate: find moves the first match to the front, insert pushes to the
  // front without looking for duplicates and drops what exceeds the capacity.

  function Touch<T>(items: seq<T>, i: nat): seq<T>
    requires i < |items|
  {
    [items[i]] + items[..i] + items[i + 1..]
  }

  function Insert<T>(items: seq<T>, item: T): seq<T> {
    if |items| < CACHE_SIZE then [item] + items else [item] + items[..CACHE_SIZE - 1]
  }

  // The position of the first match, or the length of the cache.
  function FirstMatch<T>(items: seq<T>, matches: T -> bool): (i: nat)
    ensures i <= |items|
    ensures forall j :: 0 <= j < i ==> !matches(items[j])
    ensures i < |items| ==> matches(items[i])
  {
    if items == [] || matches(items[0]) then 0 else 1 + FirstMatch(items[1..], matches)
  }

  function Find<T>(items: seq<T>, matches: T -> bool): (seq<T>, Option<T>) {
    var i := FirstMatch(items, matches);
    if i < |items| then (Touch(items, i), Some(items[i])) else (items, None)
  }

  function FindEntry(items: seq<Entry>, index: nat): (seq<Entry>, Option<Entry>) {
    Find(items, (e: Entry) => e.index == index)
  }

  function FindTerm(items: seq<(nat, nat)>, index: nat): (seq<(nat, nat)>, Option<(nat, nat)>) {
    Find(items, (p: (nat, nat)) => p.0 == index)
  }

  // Looking up low, .., high - 1 in turn; the entries found before a miss have been moved.
  function FindRange(items: seq<Entry>, low: nat, high: nat): (seq<Entry>, Option<seq<Entry>>)
    decreases high - low
  {
    if high <= low then (items, Some([]))
    else
      var (items', found) := FindEntry(items, low);
      if found.None? then (items', None)
      else
        var (items'', rest) := FindRange(items', low + 1, high);
        (items'', if rest.None? then None else Some([found.value] + rest.value))
  }

  function InsertAll(items: seq<Entry>, entries: seq<Entry>): seq<Entry>
    decreases |entries|
  {
    if entries == [] then items else InsertAll(Insert(items, entries[0]), entries[1..])
  }

  // What StorageCache holds. The entry cache is None until the first successful entries().
  datatype Cache = Cache(
    initialState: Option<RaftState>, firstIndex: Option<nat>, lastIndex: Option<nat>,
    snapshot: Option<Snapshot>, entries: Option<seq<Entry>>, terms: seq<(nat, nat)>)

  const NO_CACHE := Cache(None, None, None, None, None, [])

  function Reset(c: Cache): Cache {
    NO_CACHE.(entries := if c.entries.Some? then Some([]) else None)
  }

  // Readers through the cache: the cache afterwards and the answer.

  function CachedInitialState(c: Cache, d: Directory): (Cache, Result<RaftState>) {
    if c.initialState.Some? then (c, Ok(c.initialState.value))
    else
      var r := InitialState(d);
      (if r.Ok? then c.(initialState := Some(r.value)) else c, r)
  }

  function CachedFirstIndex(c: Cache, d: Directory): (Cache, Result<nat>) {
    if c.firstIndex.Some? then (c, Ok(c.firstIndex.value))
    else
      var r := FirstIndex(d);
      (if r.Ok? then c.(firstIndex := Some(r.value)) else c, r)
  }

  function CachedLastIndex(c: Cache, d: Directory): (Cache, Result<nat>) {
    if c.lastIndex.Some? then (c, Ok(c.lastIndex.value))
    else
      var r := LastIndex(d);
      (if r.Ok? then c.(lastIndex := Some(r.value)) else c, r)
  }

  function CachedSnapshot(c: Cache, d: Directory): (Cache, Result<Snapshot>) {
    if c.snapshot.Some? then (c, Ok(c.snapshot.value))
    else
      var r := ReadSnapshot(d);
      (if r.Ok? then c.(snapshot := Some(r.value)) else c, r)
  }

  function CachedTerm(c: Cache, d: Directory, index: nat): (Cache, Result<nat>) {
    var (terms, found) := FindTerm(c.terms, index);
    if found.Some? then (c.(terms := terms), Ok(found.value.1))
    else
      var r := Term(d, index);
      (if r.Ok? then c.(terms := Insert(terms, (index, r.value))) else c.(terms := terms), r)
  }

  function CachedEntries(c: Cache, d: Directory, low: nat, high: nat): (Cache, Result<seq<Entry>>) {
    if c.entries.Some? then
      var (items, found) := FindRange(c.entries.value, low, high);
      if found.Some? then (c.(entries := Some(InsertAll(items, found.value))), Ok(found.value))
      else (c.(entries := Some(items)), Entries(d, low, high))
    else
      var r := Entries(d, low, high);
      (if r.Ok? then c.(entries := Some(InsertAll([], r.value))) else c, r)
  }

  // Everything cached is what the storage would answer.
  ghost predicate Sound(c: Cache, d: Directory) {
    && (c.initialState.Some? ==> InitialState(d) == Ok(c.initialState.value))
    && (c.firstIndex.Some? ==> FirstIndex(d) == Ok(c.firstIndex.value))
    && (c.lastIndex.Some? ==> LastIndex(d) == Ok(c.lastIndex.value))
    && (c.snapshot.Some? ==> ReadSnapshot(d) == Ok(c.snapshot.value))
    && (c.entries.Some? ==> SoundEntries(c.entries.value, d))
    && (forall p :: p in c.terms ==> Term(d, p.0) == Ok(p.1))
  }

  ghost predicate SoundEntry(e: Entry, d: Directory) {
    && FirstIndex(d).Ok? && LastIndex(d).Ok?
    && FirstIndex(d).value <= e.index <= LastIndex(d).value
    && ReadEntry(d, e.index) == Ok(e)
  }

  ghost predicate SoundEntries(items: seq<Entry>, d: Directory) {
    forall e :: e in items ==> SoundEntry(e, d)
  }

  lemma {:induction false} FindRangeSound(items: seq<Entry>, d: Directory, low: nat, high: nat)
    requires SoundEntries(items, d)
    ensures SoundEntries(FindRange(items, low, high).0, d)
    ensures var found := FindRange(items, low, high).1;
            found.Some? ==> SoundEntries(found.value, d) && ReadEntries(d, low, high) == Ok(found.value)
    ensures FindRange(items, low, high).1.Some? && low < high ==>
              FirstIndex(d).Ok? && LastIndex(d).Ok? && FirstIndex(d).value <= low && high <= LastIndex(d).value + 1
    decreases high - low
  {
    if low < high {
      var (items', found) := FindEntry(items, low);
      assert forall e :: e in items' ==> e in items;
      if found.Some? {
        assert found.value in items && SoundEntry(found.value, d);
        FindRangeSound(items', d, low + 1, high);
        var rest := FindRange(items', low + 1, high).1;
        if rest.Some? {
          assert ReadEntries(d, low, high) == Ok([found.value] + rest.value);
        }
      }
    }
  }

  lemma {:induction false} InsertAllSound(items: seq<Entry>, d: Directory, entries: seq<Entry>)
    requires SoundEntries(items, d) && SoundEntries(entries, d)
    ensures SoundEntries(InsertAll(items, entries), d)
    decreases |entries|
  {
    if entries != [] {
      var items' := Insert(items, entries[0]);
      assert forall e :: e in items' ==> e == entries[0] || e in items;
      InsertAllSound(items', d, entries[1..]);
    }
  }

  /** entries() through the cache answers what the storage answers, except that a filled cache says
      Ok([]) for every empty range. */
  lemma CachedEntriesAgree(c: Cache, d: Directory, low: nat, high: nat)
    requires Sound(c, d) && NamesMatch(d)
    ensures Sound(CachedEntries(c, d, low, high).0, d)
    ensures CachedEntries(c, d, low, high).1 ==
            if c.entries.Some? && high <= low then Ok([]) else Entries(d, low, high)
  {
    if c.entries.Some? {
      FindRangeSound(c.entries.value, d, low, high);
      var (items, found) := FindRange(c.entries.value, low, high);
      if found.Some? {
        InsertAllSound(items, d, found.value);
      }
    } else {
      var r := Entries(d, low, high);
      if r.Ok? {
        if low < high {
          ReadEntriesElements(d, low, high);
          forall e | e in r.value ensures SoundEntry(e, d) {
            var i :| 0 <= i < |r.value| && r.value[i] == e;
            assert ReadEntry(d, low + i) == Ok(e);
          }
        }
        InsertAllSound([], d, r.value);
      }
    }
  }

  // The log has at least one entry, and its bounds can be read.
  predicate LogInUse(d: Directory) {
    FirstIndex(d).Ok? && LastIndex(d).Ok? && FirstIndex(d).value <= LastIndex(d).value
  }

  // The empty ranges the storage refuses: bounds the wrong way round, or any on an empty log.
  predicate EmptyRangeRefused(d: Directory, low: nat, high: nat) {
    high < low || (low == high && !LogInUse(d))
  }

  /** The exact condition: they disagree if and only if the entry cache is filled and the storage
      would refuse the empty range. When it is filled, FilledByReading says. */
  lemma CachedEntriesDisagree(c: Cache, d: Directory, low: nat, high: nat)
    requires Sound(c, d) && NamesMatch(d)
    ensures CachedEntries(c, d, low, high).1 != Entries(d, low, high) <==>
            c.entries.Some? && EmptyRangeRefused(d, low, high)
  {
    CachedEntriesAgree(c, d, low, high);
  }

  lemma CachedTermAgrees(c: Cache, d: Directory, index: nat)
    requires Sound(c, d)
    ensures Sound(CachedTerm(c, d, index).0, d)
    ensures CachedTerm(c, d, index).1 == Term(d, index)
  {
    var (terms, found) := FindTerm(c.terms, index);
    assert forall p :: p in terms ==> p in c.terms;
    if found.Some? {
      assert found.value in c.terms;
    } else if Term(d, index).Ok? {
      assert forall p :: p in Insert(terms, (index, Term(d, index).value)) ==>
        p == (index, Term(d, index).value) || p in terms;
    }
  }

  // Sessions: any sequence of reads and mutations, where a mutation may fail part way.

  datatype Request =
    | ReadInitialState | ReadFirst | ReadLast | ReadTheSnapshot
    | ReadTerm(index: nat)
    | ReadRange(low: nat, high: nat)
    | Mutate(call: Call, healthy: nat)

  datatype Response =
    | StateIs(state: Result<RaftState>)
    | NumberIs(number: Result<nat>)
    | SnapshotIs(snapshot: Result<Snapshot>)
    | RangeIs(range: Result<seq<Entry>>)
    | Mutated(reply: Reply)

  function Mutation(d: Directory, call: Call, healthy: nat): (Directory, Reply) {
    var (ops, reply) := CallPlan(d, call);
    (ApplyOps(d, ops[..Performed(ops, healthy)]), if healthy < |ops| then Failed(IoFailed) else reply)
  }

  function Plain(d: Directory, request: Request): (Directory, Response) {
    match request
    case ReadInitialState => (d, StateIs(InitialState(d)))
    case ReadFirst => (d, NumberIs(FirstIndex(d)))
    case ReadLast => (d, NumberIs(LastIndex(d)))
    case ReadTheSnapshot => (d, SnapshotIs(ReadSnapshot(d)))
    case ReadTerm(index) => (d, NumberIs(Term(d, index)))
    case ReadRange(low, high) => (d, RangeIs(Entries(d, low, high)))
    case Mutate(call, healthy) =>
      var (d', reply) := Mutation(d, call, healthy);
      (d', Mutated(reply))
  }

  // Every mutator resets the cache first; only set_applied leaves it alone.
  function CacheForMutation(c: Cache, call: Call): Cache {
    if call.SetApplied? then c else Reset(c)
  }

  function Cached(c: Cache, d: Directory, request: Request): (Cache, Directory, Response) {
    match request
    case ReadInitialState => var (c', r) := CachedInitialState(c, d); (c', d, StateIs(r))
    case ReadFirst => var (c', r) := CachedFirstIndex(c, d); (c', d, NumberIs(r))
    case ReadLast => var (c', r) := CachedLastIndex(c, d); (c', d, NumberIs(r))
    case ReadTheSnapshot => var (c', r) := CachedSnapshot(c, d); (c', d, SnapshotIs(r))
    case ReadTerm(index) => var (c', r) := CachedTerm(c, d, index); (c', d, NumberIs(r))
    case ReadRange(low, high) => var (c', r) := CachedEntries(c, d, low, high); (c', d, RangeIs(r))
    case Mutate(call, healthy) =>
      var (d', reply) := Mutation(d, call, healthy);
      (CacheForMutation(c, call), d', Mutated(reply))
  }

  lemma MutationKeepsNames(d: Directory, call: Call, healthy: nat)
    requires NamesMatch(d)
    ensures NamesMatch(Mutation(d, call, healthy).0)
  {
    var ops := CallPlan(d, call).0;
    CallsKeepNames(d, call);
    OpsKeepNames(d, ops[..Performed(ops, healthy)]);
  }

  predicate KeepsNames(op: FileOp) {
    op.name.EntryFile? && op.Write? ==> op.content.Log? && op.content.entry.index == op.name.index
  }

  lemma CallsKeepNames(d: Directory, call: Call)
    ensures var ops := CallPlan(d, call).0;
            forall i :: 0 <= i < |ops| ==> KeepsNames(ops[i])
  {
  }

  lemma {:induction false} OpsKeepNames(d: Directory, ops: seq<FileOp>)
    requires NamesMatch(d) && forall i :: 0 <= i < |ops| ==> KeepsNames(ops[i])
    ensures NamesMatch(ApplyOps(d, ops))
  {
    if ops != [] {
      OpsKeepNames(d, ops[..|ops| - 1]);
    }
  }

  // Marking an index as applied changes no answer that is cached.
  lemma SetAppliedKeepsSound(c: Cache, d: Directory, applied: nat, healthy: nat)
    requires Sound(c, d)
    ensures Sound(c, Mutation(d, SetApplied(applied), healthy).0)
  {
    var op := SetAppliedOp(applied);
    var d' := Mutation(d, SetApplied(applied), healthy).0;
    if healthy == 0 {
      assert d' == d;
    } else {
      ApplySingle(d, op);
      assert [op][..1] == [op];
      assert forall i: nat :: ReadEntry(d', i) == ReadEntry(d, i);
      assert forall e :: SoundEntry(e, d) ==> SoundEntry(e, d');
      assert forall p: (nat, nat) :: p in c.terms ==> Term(d', p.0) == Term(d, p.0);
    }
  }

  lemma RequestAgrees(c: Cache, d: Directory, request: Request)
    requires Sound(c, d) && NamesMatch(d)
    ensures var (c', d', response) := Cached(c, d, request);
            && Sound(c', d') && NamesMatch(d') && d' == Plain(d, request).0
            && (response != Plain(d, request).1 <==>
                  request.ReadRange? && c.entries.Some? && EmptyRangeRefused(d, request.low, request.high))
  {
    match request
    case ReadRange(low, high) =>
      CachedEntriesAgree(c, d, low, high);
      CachedEntriesDisagree(c, d, low, high);
    case ReadTerm(index) => CachedTermAgrees(c, d, index);
    case Mutate(call, healthy) =>
      MutationKeepsNames(d, call, healthy);
      if call.SetApplied? {
        SetAppliedKeepsSound(c, d, call.applied, healthy);
      }
    case _ =>
  }

  function PlainSession(d: Directory, requests: seq<Request>): (Directory, seq<Response>) {
    if requests == [] then (d, [])
    else
      var n := |requests| - 1;
      var (d', responses) := PlainSession(d, requests[..n]);
      var (d'', response) := Plain(d', requests[n]);
      (d'', responses + [response])
  }

  function CachedSession(c: Cache, d: Directory, requests: seq<Request>): (Cache, Directory, seq<Response>) {
    if requests == [] then (c, d, [])
    else
      var n := |requests| - 1;
      var (c', d', responses) := CachedSession(c, d, requests[..n]);
      var (c'', d'', response) := Cached(c', d', requests[n]);
      (c'', d'', responses + [response])
  }

  // The storage would refuse this request as an empty range.
  predicate Exceptional(d: Directory, request: Request) {
    request.ReadRange? && EmptyRangeRefused(d, request.low, request.high)
  }

  // One of these requests was for entries and succeeded.
  ghost predicate GotRange(requests: seq<Request>, responses: seq<Response>) {
    exists k :: 0 <= k < |requests| && k < |responses| && IsRange(requests[k], responses[k])
  }

  predicate IsRange(request: Request, response: Response) {
    request.ReadRange? && response.RangeIs? && response.range.Ok?
  }

  lemma GotRangeLately(requests: seq<Request>, responses: seq<Response>, response: Response)
    requires requests != [] && |responses| == |requests| - 1
    ensures GotRange(requests, responses + [response]) <==>
            GotRange(requests[..|requests| - 1], responses) || IsRange(requests[|requests| - 1], response)
  {
    var n, all := |requests| - 1, responses + [response];
    if GotRange(requests[..n], responses) {
      var k :| 0 <= k < n && IsRange(requests[..n][k], responses[k]);
      assert IsRange(requests[k], all[k]);
    }
    if IsRange(requests[n], response) {
      assert IsRange(requests[n], all[n]);
    }
    if GotRange(requests, all) {
      var k :| 0 <= k <= n && IsRange(requests[k], all[k]);
      assert k < n ==> IsRange(requests[..n][k], responses[k]);
    }
  }

  // One more request fills the entry cache, or leaves it filled, exactly as its answer says.
  lemma FillingStep(c: Cache, d: Directory, request: Request)
    requires Sound(c, d) && NamesMatch(d)
    ensures Cached(c, d, request).0.entries.Some? <==>
            c.entries.Some? || IsRange(request, Plain(d, request).1)
    ensures Cached(c, d, request).0.entries.Some? <==>
            c.entries.Some? || IsRange(request, Cached(c, d, request).2)
  {
  }

  lemma {:induction false} SessionsStaySound(d: Directory, requests: seq<Request>)
    requires NamesMatch(d)
    ensures var (c, d', responses) := CachedSession(NO_CACHE, d, requests);
            var (p, expected) := PlainSession(d, requests);
            d' == p && Sound(c, d') && NamesMatch(d') && |responses| == |expected| == |requests|
  {
    if requests != [] {
      var n := |requests| - 1;
      SessionsStaySound(d, requests[..n]);
      var (c, d', _) := CachedSession(NO_CACHE, d, requests[..n]);
      RequestAgrees(c, d', requests[n]);
    }
  }

  /** The entry cache is filled if and only if an earlier call of entries() succeeded, on the storage or
      through the cache, so the caller has seen it; mutations never unfill it. */
  lemma {:induction false} FilledByReading(d: Directory, requests: seq<Request>)
    requires NamesMatch(d)
    ensures CachedSession(NO_CACHE, d, requests).0.entries.Some? <==> GotRange(requests, PlainSession(d, requests).1)
    ensures var (c, _, responses) := CachedSession(NO_CACHE, d, requests);
            c.entries.Some? <==> GotRange(requests, responses)
  {
    if requests != [] {
      var n := |requests| - 1;
      FilledByReading(d, requests[..n]);
      SessionsStaySound(d, requests[..n]);
      var (c, d', _) := CachedSession(NO_CACHE, d, requests[..n]);
      FillingStep(c, d', requests[n]);
      GotRangeLately(requests, PlainSession(d, requests[..n]).1, Plain(d', requests[n]).1);
      GotRangeLately(requests, CachedSession(NO_CACHE, d, requests[..n]).2, Cached(c, d', requests[n]).2);
    }
  }

  ghost predicate Differs(d: Directory, requests: seq<Request>, k: nat)
    requires k < |requests|
  {
    var (p, earlier) := PlainSession(d, requests[..k]);
    Exceptional(p, requests[k]) && GotRange(requests[..k], earlier)
  }

  lemma {:induction false} LastResponse(d: Directory, requests: seq<Request>)
    requires NamesMatch(d) && requests != []
    ensures var n := |requests| - 1;
            var (c, d', _) := CachedSession(NO_CACHE, d, requests[..n]);
            Cached(c, d', requests[n]).2 != Plain(d', requests[n]).1 <==> Differs(d, requests, n)
  {
    var n := |requests| - 1;
    SessionsStaySound(d, requests[..n]);
    FilledByReading(d, requests[..n]);
    var (c, d', _) := CachedSession(NO_CACHE, d, requests[..n]);
    RequestAgrees(c, d', requests[n]);
  }

  /** Over every session, however often mutations fail part way, the cached storage leaves the same
      files as the bare one, and a response differs if and only if the request is an empty range the
      storage refuses and an earlier call of entries() succeeded. */
  lemma {:induction false} SessionsAgree(d: Directory, requests: seq<Request>)
    requires NamesMatch(d)
    ensures var (c, d', responses) := CachedSession(NO_CACHE, d, requests);
            var (p, expected) := PlainSession(d, requests);
            && d' == p && Sound(c, d') && NamesMatch(d')
            && |responses| == |expected| == |requests|
            && forall k :: 0 <= k < |requests| ==> (responses[k] != expected[k] <==> Differs(d, requests, k))
  {
    SessionsStaySound(d, requests);
    if requests != [] {
      var n := |requests| - 1;
      SessionsAgree(d, requests[..n]);
      LastResponse(d, requests);
      SessionsStaySound(d, requests[..n]);
      forall k | 0 <= k < n ensures Differs(d, requests[..n], k) == Differs(d, requests, k) {
        assert requests[..n][..k] == requests[..k];
      }
    }
  }
}
