/** Inputs on which the properties fail that hold under a condition only. */
module Counterexamples {
  import opened Types
  import opened Config
  import opened Files
  import opened FsStorages
  import opened LogModel
  import opened CrashPoints
  import opened CacheSpec
  import opened BlockQueues
  import opened Membership
  import opened NodeSpec
  import opened Ledgers
  import opened NodeRuns
  import opened Durability
  import opened Cluster
  import opened Drain
  import opened Deliveries
  import opened Redelivery
  import opened Leading
  import Engine

  // A data directory that has just been opened for the first time.
  function NewDirectory(): Directory {
    Reopen(map[])
  }

  lemma NewDirectoryIsFresh()
    ensures Refines(NewDirectory(), FRESH) && NamesMatch(NewDirectory())
  {
    InitializationRecovers([]);
    assert Attempts(map[], []) == map[];
    OpsKeepNames(map[], OpenPlan(map[]).ops);
  }

  const E1 := Entry(1, 1, Empty)
  const E2 := Entry(2, 1, Empty)

  // The entry cache

  lemma WholeMutation(d: Directory, call: Call, healthy: nat)
    requires |CallPlan(d, call).0| <= healthy
    ensures Mutation(d, call, healthy) == FsStep(d, call)
  {
    var ops := CallPlan(d, call).0;
    assert ops[..|ops|] == ops;
  }

  const ONE_ENTRY := RaftLog(0, 0, [E1])
  const NO_ENTRY := RaftLog(1, 1, [])

  lemma AppendOne(d: Directory)
    requires Refines(d, FRESH)
    ensures var d1 := Mutation(d, Append([E1]), 9).0;
            Refines(d1, FRESH.(log := ONE_ENTRY)) && Entries(d1, 1, 2) == Ok([E1])
  {
    WholeMutation(d, Append([E1]), 9);
    StepRefines(d, FRESH, Append([E1]));
    assert LogAppend(FRESH.log, [E1]) == ONE_ENTRY;
    ReadersAgree(Mutation(d, Append([E1]), 9).0, FRESH.(log := ONE_ENTRY), 1, 2, 0);
    assert ONE_ENTRY.entries[0..1] == [E1];
  }

  lemma CompactOne(d: Directory)
    requires Refines(d, FRESH.(log := ONE_ENTRY))
    ensures var d2 := Mutation(d, Compact(1), 9).0;
            Refines(d2, FRESH.(log := NO_ENTRY)) && Entries(d2, 2, 2) == Err(Compacted) && !LogInUse(d2)
  {
    CompactPlanIs(d, ONE_ENTRY, 1);
    assert |CompactPlan(d, 1).ops| == 3;
    WholeMutation(d, Compact(1), 9);
    StepRefines(d, FRESH.(log := ONE_ENTRY), Compact(1));
    assert LogCompact(ONE_ENTRY, 1) == NO_ENTRY;
    ReadersAgree(Mutation(d, Compact(1), 9).0, FRESH.(log := NO_ENTRY), 2, 2, 0);
  }

  lemma {:induction false} PlainOneMore(d: Directory, requests: seq<Request>, request: Request)
    ensures var (d', responses) := PlainSession(d, requests);
            PlainSession(d, requests + [request]) == (Plain(d', request).0, responses + [Plain(d', request).1])
  {
    assert (requests + [request])[..|requests|] == requests;
  }

  lemma {:induction false} CachedOneMore(c: Cache, d: Directory, requests: seq<Request>, request: Request)
    ensures var (c', d', responses) := CachedSession(c, d, requests);
            var (c'', d'', response) := Cached(c', d', request);
            CachedSession(c, d, requests + [request]) == (c'', d'', responses + [response])
  {
    assert (requests + [request])[..|requests|] == requests;
  }

  const EARLIER := [Mutate(Append([E1]), 9)] + [ReadRange(1, 2)] + [Mutate(Compact(1), 9)]

  lemma {:induction false} EarlierSession(d: Directory)
    requires Refines(d, FRESH) && NamesMatch(d)
    ensures var d2 := Mutation(Mutation(d, Append([E1]), 9).0, Compact(1), 9).0;
            PlainSession(d, EARLIER).0 == d2 && CachedSession(NO_CACHE, d, EARLIER).0.entries.Some?
  {
    AppendOne(d);
    PlainOneMore(d, [], Mutate(Append([E1]), 9));
    PlainOneMore(d, [Mutate(Append([E1]), 9)], ReadRange(1, 2));
    PlainOneMore(d, [Mutate(Append([E1]), 9)] + [ReadRange(1, 2)], Mutate(Compact(1), 9));
    assert [] + [Mutate(Append([E1]), 9)] == [Mutate(Append([E1]), 9)];
    SessionsStaySound(d, [Mutate(Append([E1]), 9)]);
    assert IsRange(EARLIER[1], PlainSession(d, EARLIER).1[1]);
    FilledByReading(d, EARLIER);
  }

  /** An entry appended, read, and compacted away: the storage refuses the empty range on the empty log,
      the filled cache answers it. */
  lemma CacheHidesEmptyLog()
    ensures var d := NewDirectory();
            var requests := EARLIER + [ReadRange(2, 2)];
            var plain, cached := PlainSession(d, requests).1, CachedSession(NO_CACHE, d, requests).2;
            |plain| == |cached| == 4 && plain[3] == RangeIs(Err(Compacted)) && cached[3] == RangeIs(Ok([]))
  {
    var d := NewDirectory();
    NewDirectoryIsFresh();
    EarlierSession(d);
    AppendOne(d);
    CompactOne(Mutation(d, Append([E1]), 9).0);
    SessionsStaySound(d, EARLIER);
    PlainOneMore(d, EARLIER, ReadRange(2, 2));
    CachedOneMore(NO_CACHE, d, EARLIER, ReadRange(2, 2));
    CachedEntriesAgree(CachedSession(NO_CACHE, d, EARLIER).0, PlainSession(d, EARLIER).0, 2, 2);
  }

  // Overlapping appends

  const REPLACEMENT := [Entry(1, 2, Empty), Entry(2, 2, Empty)]

  /** Two entries replaced by two of a later term: after the first write neither log is shown. */
  lemma AppendTearsLog()
    ensures var d := FsStep(NewDirectory(), Append([E1, E2])).0;
            var l, d' := RaftLog(0, 0, [E1, E2]), ApplyOps(d, AppendPlan(REPLACEMENT).ops[..1]);
            Shows(d, l) && !Shows(d', l) && !Shows(d', LogAppend(l, REPLACEMENT))
  {
    var call, l := Append([E1, E2]), RaftLog(0, 0, [E1, E2]);
    var d, s := FsStep(NewDirectory(), call).0, Step(FRESH, call).0;
    NewDirectoryIsFresh();
    StepRefines(NewDirectory(), FRESH, call);
    assert s.log == l;
    AppendCrashPoint(d, s, REPLACEMENT, 1);
    var d', torn := ApplyOps(d, AppendPlan(REPLACEMENT).ops[..1]), Mixed(l, REPLACEMENT, 1);
    assert torn.entries[0] != E1 && torn.entries[1] == E2;
    assert LogAppend(l, REPLACEMENT).entries == REPLACEMENT;
    if Shows(d', l) {
      ShowsOneLog(d', torn, l);
    }
    if Shows(d', LogAppend(l, REPLACEMENT)) {
      ShowsOneLog(d', torn, LogAppend(l, REPLACEMENT));
    }
  }

  // Peers with the same raft id

  const OLD_PEER: PeerId := [0, 0, 0, 0, 0, 0, 0, 0, 0]
  const NEW_PEER: PeerId := [1, 0, 0, 0, 0, 0, 0, 0, 0]

  /** Two peers that differ before their last eight bytes only: adding the second drops the first. */
  lemma AdditionDropsPeer(self: PeerId)
    ensures var peers, setting := map[RaftId(OLD_PEER) := OLD_PEER], {OLD_PEER, NEW_PEER};
            var check := CheckForConfChange(peers, setting);
            && check.Change?
            && ApplyConfChange(self, peers, check.change) == Joined(map[RaftId(OLD_PEER) := NEW_PEER])
  {
    assert OLD_PEER[|OLD_PEER| - 8..] == NEW_PEER[|NEW_PEER| - 8..];
    RaftIdsCollide(OLD_PEER, NEW_PEER);
    var peers: Peers := map[RaftId(OLD_PEER) := OLD_PEER];
    assert peers[RaftId(OLD_PEER)] == OLD_PEER && peers.Values == {OLD_PEER};
    assert OLD_PEER[0] != NEW_PEER[0];
    assert Difference({OLD_PEER, NEW_PEER}, peers.Values) == {NEW_PEER};
    assert Element({NEW_PEER}) == NEW_PEER;
    assert |{OLD_PEER, NEW_PEER}| == 2;
  }

  // A repeated block

  const A := BlockId([0])
  const B := BlockId([1])
  const REPEATED := [Entry(1, 1, Normal(A)), Entry(2, 1, Normal(B)), Entry(3, 1, Normal(A))]
  const QUEUED := [(A, 1), (B, 2), (A, 3)]

  function Validation(id: BlockId): Turn {
    Turn(Some(BlockValid(id)), None, None)
  }

  function Delivery(entries: seq<Entry>, commit: nat): Ready {
    Ready([], None, entries, Some(HardState(1, 0, commit)), entries, 0)
  }

  // process_ready on a follower with nothing to send.
  lemma FollowerReady(s: Node, r: Ready)
    requires s.status.Running? && !s.leads && s.leader.None? && r.snapshot.None? && r.messages == []
    ensures var s3 := DeliverAll(Persist(s.(readyRole := false), r), r.committed, r.now);
            ProcessReady(s, r) == if s3.status.Running? then CommitNext(s3) else s3
  {
    var s1 := s.(readyRole := false);
    assert Install(PrepareReady(s, r), r.snapshot) == s1;
    var s2 := Persist(s1, r);
    PersistKeepsApplied(s1, r);
    assert StepDown(s2) == s2 && SendAll(s2, r.messages) == s2;
  }

  lemma {:induction false} BlocksDelivered(s: Node, entries: seq<Entry>, now: nat)
    requires s.status.Running? && forall i :: 0 <= i < |entries| ==> entries[i].payload.Normal?
    ensures var s' := DeliverAll(s, entries, now);
            && s' == s.(queue := s'.queue, trace := s'.trace)
            && s'.queue == Queue(s.queue.backlog, s.queue.commits + BlocksOf(entries))
  {
    if entries != [] {
      var n := |entries| - 1;
      BlocksDelivered(s, entries[..n], now);
      DeliverAllLast(s, entries, now);
    }
  }

  lemma RepeatedBlocks()
    ensures BlocksOf(REPEATED) == QUEUED
  {
    assert REPEATED[..2][..1] == REPEATED[..1] && REPEATED[..1][..0] == [];
    assert BlocksOf(REPEATED[..1]) == [(A, 1)];
    assert BlocksOf(REPEATED[..2]) == [(A, 1), (B, 2)];
  }

  lemma ReadyQueues(s: Node)
    requires s.status.Running? && !s.leads && s.leader.None? && s.follower == Some(Idle) && s.queue.commits == []
    requires StatusOf(s.queue, A).valid && StatusOf(s.queue, B).valid
    ensures var s' := ProcessReady(s, Delivery(REPEATED, 3));
            Waiting(s') && AllValid(s'.queue) && s'.queue.commits == QUEUED
  {
    var r := Delivery(REPEATED, 3);
    var s2 := Persist(s.(readyRole := false), r);
    FollowerReady(s, r);
    PersistKeepsApplied(s.(readyRole := false), r);
    BlocksDelivered(s2, REPEATED, 0);
    RepeatedBlocks();
    var s3 := DeliverAll(s2, REPEATED, 0);
    assert NextCommittable(s3.queue) == Some(A);
  }

  lemma ThirdRepeats()
    ensures FirstRepeat(QUEUED) == 2
  {
    assert QUEUED[0].0 == A == QUEUED[2].0 && Occurs(QUEUED, 2, A);
    assert A.bytes[0] != B.bytes[0];
    assert !Occurs(QUEUED, 0, A) && !Occurs(QUEUED, 1, B);
    assert FirstRepeat(QUEUED) < 3;
  }

  // What a follower has queued when Raft has committed the first of two blocks twice.
  function Repetition(self: PeerId, period: nat, setting: seq<PeerId>, disk: Directory): Node {
    Take(Take(Take(Boot(self, period, setting, disk), Validation(A)), Validation(B)),
         Turn(None, None, Some(Delivery(REPEATED, 3))))
  }

  lemma RepetitionIsQueued(self: PeerId, period: nat, setting: seq<PeerId>, disk: Directory)
    ensures var s := Repetition(self, period, setting, disk);
            s.queue.commits == QUEUED && Waiting(s) && AllValid(s.queue)
  {
    ReadyQueues(Take(Take(Boot(self, period, setting, disk), Validation(A)), Validation(B)));
  }

  /** Two blocks validated, and the first of them committed by Raft twice with the other in between: the
      follower commits both and then stalls in front of the repetition. */
  lemma {:induction false} RepetitionStalls(self: PeerId, period: nat, setting: seq<PeerId>, disk: Directory, n: nat)
    requires n >= 6
    ensures Served(Repetition(self, period, setting, disk), n).queue.commits == [(A, 3)]
  {
    RepetitionIsQueued(self, period, setting, disk);
    RepeatedBlockStalls(Repetition(self, period, setting, disk), n);
    ThirdRepeats();
    assert QUEUED[2..] == [(A, 3)];
  }

  // A leader behind another block

  // A block of an earlier leader, and this leader's own.
  function OvertakenLog(x: BlockId, y: BlockId): seq<Entry> {
    [Entry(1, 1, Normal(x)), Entry(2, 2, Normal(y))]
  }

  function Election(): Turn {
    Turn(Some(PeerMessage(Some(true))), None, Some(Ready([], None, [], None, [], 0)))
  }

  // The leader's block is finalized after the period.
  function Publication(y: BlockId, period: nat): Turn {
    Turn(None, Some(TickInput(true, period, Answered(()), Answered(y))), None)
  }

  // It is validated and proposed, and Raft commits it behind the other.
  function ProposalTurn(x: BlockId, y: BlockId): Turn {
    Turn(Some(BlockValid(y)), None, Some(Delivery(OvertakenLog(x, y), 2)))
  }

  lemma Elected(self: PeerId, period: nat, setting: seq<PeerId>, disk: Directory)
    ensures var s := Take(Boot(self, period, setting, disk), Election());
            && Leads(s) && s.leader == Some(Building(0)) && s.period == period && s.queue == EMPTY_QUEUE
            && Account(s.trace).commits == []
  {
    var r := Election().ready.value;
    var s1 := Boot(self, period, setting, disk).(leads := true, readyRole := true);
    var s2 := StepUp(s1, 0);
    assert PrepareReady(s1, r) == s2 && Install(s2, None) == s2 && Persist(s2, r) == s2;
    LeaderFinishes(s2, r);
    assert Account(s2.trace) == Post(NOTHING_YET, Initialize);
  }

  lemma Published(s: Node, y: BlockId)
    requires Leads(s) && s.leader == Some(Building(0))
    ensures var s' := Take(s, Publication(y, s.period));
            && Leads(s') && s'.leader == Some(Publishing(y)) && s'.queue == s.queue
            && Account(s'.trace).commits == Account(s.trace).commits
  {
  }

  lemma OtherValidated(s: Node, x: BlockId, y: BlockId)
    requires Leads(s) && s.leader == Some(Publishing(y)) && x != y
    ensures var s' := Take(s, Validation(x));
            && Leads(s') && s'.leader == Some(Publishing(y)) && s'.queue == WithValid(s.queue, x)
            && Account(s'.trace).commits == Account(s.trace).commits
  {
    CommitsAreKept(Account(s.trace), Validated(x));
  }

  lemma OvertakenBlocks(x: BlockId, y: BlockId)
    ensures BlocksOf(OvertakenLog(x, y)) == [(x, 1), (y, 2)]
  {
    var log := OvertakenLog(x, y);
    assert log[..1][..0] == [] && BlocksOf(log[..1]) == [(x, 1)];
  }

  lemma {:induction false} ProposedBehind(s: Node, x: BlockId, y: BlockId)
    requires Leads(s) && s.leader == Some(Publishing(y)) && s.queue == WithValid(EMPTY_QUEUE, x) && x != y
    ensures var s' := Take(s, ProposalTurn(x, y));
            && Leads(s') && Proposed(s') == Some(y) && s'.queue.commits == [(x, 1), (y, 2)] && AllValid(s'.queue)
            && Account(s'.trace).commits == Account(s.trace).commits
  {
    var turn := ProposalTurn(x, y);
    var s1 := AfterTick(s, turn);
    AfterTickIsStill(s, turn);
    var s2 := Persist(s1.(readyRole := s1.leads), turn.ready.value);
    PersistKeepsApplied(s1.(readyRole := s1.leads), turn.ready.value);
    BlocksDelivered(s2, OvertakenLog(x, y), 0);
    OvertakenBlocks(x, y);
    BeforeCommitWaits(s, turn);
    LeaderTake(s, turn);
    LeaderCommits(BeforeCommitIn(s, turn));
  }

  // What a leader has queued that proposed y while Raft still had x to commit.
  function Overtaken(self: PeerId, period: nat, setting: seq<PeerId>, disk: Directory, x: BlockId, y: BlockId): Node {
    Take(Take(Take(Take(Boot(self, period, setting, disk), Election()), Publication(y, period)), Validation(x)),
         ProposalTurn(x, y))
  }

  /** A node is elected, builds and proposes a block, and Raft commits an earlier leader's block before
      it. Both blocks are valid and committed by Raft, and the node commits neither while it leads. */
  lemma {:induction false} LeaderStarves(self: PeerId, period: nat, setting: seq<PeerId>, disk: Directory,
                                         x: BlockId, y: BlockId, turns: seq<Turn>)
    requires x != y && AllStayLeader(turns)
    ensures var s := Overtaken(self, period, setting, disk, x, y);
            && s.queue.commits == [(x, 1), (y, 2)] && AllValid(s.queue) && Leads(s)
            && s.queue.commits <= NodeSpec.Run(s, turns).queue.commits
            && Account(NodeSpec.Run(s, turns).trace).commits == []
  {
    var s1 := Take(Boot(self, period, setting, disk), Election());
    Elected(self, period, setting, disk);
    Published(s1, y);
    var s2 := Take(s1, Publication(y, period));
    OtherValidated(s2, x, y);
    ProposedBehind(Take(s2, Validation(x)), x, y);
    BlockedWaits(Overtaken(self, period, setting, disk, x, y), turns);
  }

  // A removal handed over again after a restart

  // A block, and the removal of a peer.
  function RemovalLog(id: BlockId, other: PeerId): seq<Entry> {
    [Entry(1, 2, Normal(id)), Entry(2, 2, Conf(RemoveNode(RaftId(other))))]
  }

  // The block is valid, both entries are stored, committed and handed over.
  function RemovalTurn(id: BlockId, other: PeerId): Turn {
    var log := RemovalLog(id, other);
    Turn(Some(BlockValid(id)), None, Some(Ready([], None, log, Some(HardState(2, 0, 2)), log, 0)))
  }

  // Only the removal is handed over again.
  function SecondRemoval(id: BlockId, other: PeerId): Turn {
    Turn(None, None, Some(Ready([], None, [], None, [RemovalLog(id, other)[1]], 0)))
  }

  function Confirmation(id: BlockId): Turn {
    Turn(Some(BlockCommit(id, None, 0)), None, None)
  }

  lemma {:induction false} RemovalDelivered(s: Node, id: BlockId, other: PeerId)
    requires Started(s, [s.self, other]) && RaftId(s.self) != RaftId(other) && s.queue.commits == []
    ensures var s' := DeliverAll(s, RemovalLog(id, other), 0);
            && s' == s.(queue := s'.queue, peers := s'.peers, trace := s'.trace)
            && s'.queue == Queue(s.queue.backlog, [(id, 1)])
  {
    var log := RemovalLog(id, other);
    assert log[..1] == [log[0]];
    DeliverAllLast(s, log, 0);
    DeliverAllLast(s, [log[0]], 0);
    assert [log[0]][..0] == [];
    assert [s.self, other][1] == other;
    PeersOfKeys([s.self, other], RaftId(other));
  }

  lemma RemovalReady(s: Node, id: BlockId, other: PeerId)
    requires Started(s, [s.self, other]) && RaftId(s.self) != RaftId(other) && !s.leads && s.follower == Some(Idle)
    requires s.queue.commits == [] && StatusOf(s.queue, id).valid
    ensures var r := RemovalTurn(id, other).ready.value;
            var s' := ProcessReady(s, r);
            && Waiting(s') && InFlight(s') == Some(id) && s'.queue.commits == [(id, 1)]
            && s'.disk == ReadyDisk(s.disk, r) && s'.self == s.self
  {
    var r := RemovalTurn(id, other).ready.value;
    var s2 := Persist(s.(readyRole := false), r);
    FollowerReady(s, r);
    PersistKeepsApplied(s.(readyRole := false), r);
    RemovalDelivered(s2, id, other);
    assert NextCommittable(DeliverAll(s2, r.committed, 0).queue) == Some(id);
  }

  // The follower commits the block; the removal has been applied.
  lemma RemovalTurnTaken(self: PeerId, other: PeerId, period: nat, d: Directory, id: BlockId)
    requires RaftId(self) != RaftId(other)
    ensures var s, turn := Boot(self, period, [self, other], d), RemovalTurn(id, other);
            var s0, s' := AfterTick(s, turn), Take(s, turn);
            && s0.disk == d && Account(s0.trace).handed == []
            && Waiting(s') && InFlight(s') == Some(id) && s'.queue.commits == [(id, 1)]
            && s'.disk == ReadyDisk(d, turn.ready.value) && s'.self == self
  {
    var s, turn := Boot(self, period, [self, other], d), RemovalTurn(id, other);
    RemovalReady(AfterTick(s, turn), id, other);
  }

  // The disk of a new machine after that turn.
  lemma {:induction false} RemovalDisk(log: seq<Entry>, d: Directory, id: BlockId, other: PeerId)
    requires Refines(d, FRESH) && log == RemovalLog(id, other)
    ensures var r := RemovalTurn(id, other).ready.value;
            && LegalReady(Life(log, [], d), d, NOTHING_YET, r)
            && Resumable(log, ReadyDisk(d, r)) && CommitIndex(ReadyDisk(d, r)) == 2
  {
    var r := RemovalTurn(id, other).ready.value;
    FreshIsResumable(log, d);
    assert log[0..2] == log;
    assert CommitIndex(d) == 0 && Last(d) == 0 && CommitAfter(d, r) == 2 && LastAfter(d, r) == 2;
    assert CommitsAgreed(log, d, r);
    ReadyDiskIsResumable(log, d, r);
  }

  // A machine that has taken the turn, one that crashes right after the block is confirmed, and the
  // peers setting it finds on chain when it is started again: the removed peer is gone from it.

  function Removed(self: PeerId, other: PeerId, period: nat, id: BlockId): Machine {
    Advance(NewMachine(self, period, [self, other]), Work(RemovalTurn(id, other)))
  }

  function CrashAfterBlock(self: PeerId, other: PeerId, period: nat, id: BlockId): Event {
    Crash(Confirmation(id), Take(Removed(self, other, period, id).node, Confirmation(id)).trace, period, [self])
  }

  lemma RemovedMachine(self: PeerId, other: PeerId, period: nat, id: BlockId)
    requires RaftId(self) != RaftId(other)
    ensures var log, m0 := RemovalLog(id, other), NewMachine(self, period, [self, other]);
            var m := Removed(self, other, period, id);
            && LegalEvent(log, m0, Work(RemovalTurn(id, other))) && SoundMachine(log, m)
            && Waiting(m.node) && InFlight(m.node) == Some(id) && m.node.queue.commits == [(id, 1)]
            && m.node.self == self && CommitIndex(m.node.disk) == 2
  {
    var log, m0, turn := RemovalLog(id, other), NewMachine(self, period, [self, other]), RemovalTurn(id, other);
    NewDirectoryIsFresh();
    RemovalTurnTaken(self, other, period, m0.boot, id);
    RemovalDisk(log, m0.boot, id, other);
    SameHandingIsLegal(Life(log, [], m0.boot), m0.boot, NOTHING_YET, Account(AfterTick(m0.node, turn).trace),
                       turn.ready.value);
    NewMachineIsSound(log, self, period, [self, other]);
    AdvanceIsSound(log, m0, Work(turn));
  }

  lemma SameHandingIsLegal(c: Life, d: Directory, l: Ledger, l': Ledger, r: Ready)
    requires LegalReady(c, d, l, r) && l'.handed == l.handed
    ensures LegalReady(c, d, l', r)
  {
  }

  lemma BlockConfirmed(s: Node, id: BlockId)
    requires Waiting(s) && InFlight(s) == Some(id) && s.queue.commits == [(id, 1)]
    ensures var s' := Take(s, Confirmation(id));
            s'.disk == ApplyOp(s.disk, SetAppliedOp(1)) && Before(s.trace, s'.trace)
  {
    FollowerConfirmation(s, id, None, 0);
    Engine.TurnGrows(s, Confirmation(id));
  }

  lemma {:induction false} CrashedDisk(log: seq<Entry>, m: Machine, turn: Turn, period: nat, setting: seq<PeerId>)
    requires SoundMachine(log, m) && LegalTurn(LifeOf(log, m), m.node, turn)
    ensures Restart(m, Take(m.node, turn).trace, period, setting).boot == Take(m.node, turn).disk
  {
    TakeIsSound(LifeOf(log, m), m.node, turn);
    var d := Take(m.node, turn).disk;
    assert d == DiskAfter(m.boot, Take(m.node, turn).trace);
    assert InitialState(d).Ok?;
  }

  // A crash right after a turn.
  lemma CrashAfterTurn(log: seq<Entry>, m: Machine, turn: Turn, period: nat, setting: seq<PeerId>)
    requires SoundMachine(log, m) && LegalTurn(LifeOf(log, m), m.node, turn)
    requires Before(m.node.trace, Take(m.node, turn).trace)
    ensures var crash := Crash(turn, Take(m.node, turn).trace, period, setting);
            var m' := Advance(m, crash);
            && LegalEvent(log, m, crash) && SoundMachine(log, m')
            && m'.boot == Take(m.node, turn).disk && m'.node == Boot(m.node.self, period, setting, m'.boot)
  {
    CrashedDisk(log, m, turn, period, setting);
    AdvanceIsSound(log, m, Crash(turn, Take(m.node, turn).trace, period, setting));
  }

  lemma AppliedOne(d: Directory)
    ensures var d' := ApplyOp(d, SetAppliedOp(1)); AppliedIndex(d') == 1 && CommitIndex(d') == CommitIndex(d)
  {
  }

  // The machine restarted: the block is applied, the removal is not.
  lemma RestartedMachine(self: PeerId, other: PeerId, period: nat, id: BlockId)
    requires RaftId(self) != RaftId(other)
    ensures var log, m := RemovalLog(id, other), Removed(self, other, period, id);
            var crash := CrashAfterBlock(self, other, period, id);
            var m' := Advance(m, crash);
            && LegalEvent(log, m, crash) && SoundMachine(log, m')
            && m'.node == Boot(self, period, [self], m'.boot)
            && AppliedIndex(m'.boot) == 1 && CommitIndex(m'.boot) == 2
  {
    var log, m := RemovalLog(id, other), Removed(self, other, period, id);
    RemovedMachine(self, other, period, id);
    BlockConfirmed(m.node, id);
    CrashAfterTurn(log, m, Confirmation(id), period, [self]);
    AppliedOne(m.node.disk);
  }

  lemma SecondRemovalIsLegal(log: seq<Entry>, m: Machine, id: BlockId, other: PeerId)
    requires log == RemovalLog(id, other) && SoundMachine(log, m) && m.node.disk == m.boot && m.node.trace == Start
    requires m.node.status.Running? && AppliedIndex(m.boot) == 1 && CommitIndex(m.boot) == 2
    ensures LegalTurn(LifeOf(log, m), m.node, SecondRemoval(id, other))
  {
    assert AfterTick(m.node, SecondRemoval(id, other)) == m.node;
    assert log[1..2] == [log[1]];
  }

  lemma SecondRemovalBreaks(self: PeerId, id: BlockId, other: PeerId)
    requires RaftId(self) != RaftId(other)
    ensures BreaksOn(self, [self], [RemovalLog(id, other)[1]])
  {
    var e := RemovalLog(id, other)[1];
    assert [e][..0] == [];
    assert !Listed([self], RaftId(other));
    assert RemovesAbsent(self, [self], [e], 0) && NoneLeaves(self, [e], 0);
  }

  // One more event of a cluster of one.

  lemma {:induction false} OneMachineRuns(start: seq<Machine>, es: seq<ClusterEvent>, m: Machine, e: Event)
    requires RunCluster(start, es) == [m]
    ensures RunCluster(start, es + [ClusterEvent(0, e)]) == [Advance(m, e)]
  {
    assert (es + [ClusterEvent(0, e)])[..|es|] == es;
  }

  lemma {:induction false} OneMachine(log: seq<Entry>, start: seq<Machine>, es: seq<ClusterEvent>, m: Machine, e: Event)
    requires LegalClusterRun(log, start, es) && RunCluster(start, es) == [m] && LegalEvent(log, m, e)
    ensures var all := es + [ClusterEvent(0, e)];
            LegalClusterRun(log, start, all) && RunCluster(start, all) == [Advance(m, e)]
  {
    OneMachineRuns(start, es, m, e);
    assert (es + [ClusterEvent(0, e)])[..|es|] == es;
  }

  function PanickingRun(self: PeerId, other: PeerId, period: nat, id: BlockId): seq<ClusterEvent> {
    [] + [ClusterEvent(0, Work(RemovalTurn(id, other)))]
    + [ClusterEvent(0, CrashAfterBlock(self, other, period, id))]
    + [ClusterEvent(0, Work(SecondRemoval(id, other)))]
  }

  /** A node commits the block after which a peer is to go and applies the removal, crashes, and is
      started on the setting without that peer. Raft hands the removal over again, and the node panics. */
  lemma RemovalPanicsAfterRestart(self: PeerId, other: PeerId, period: nat, id: BlockId)
    requires RaftId(self) != RaftId(other)
    ensures var log, start := RemovalLog(id, other), NewCluster([self], period, [self, other]);
            var es := PanickingRun(self, other, period, id);
            && IsLog(log) && LegalClusterRun(log, start, es)
            && |RunCluster(start, es)| == 1 && RunCluster(start, es)[0].node.status == Panicked
  {
    var log, start := RemovalLog(id, other), NewCluster([self], period, [self, other]);
    var m0, m1 := NewMachine(self, period, [self, other]), Removed(self, other, period, id);
    var crash, last := CrashAfterBlock(self, other, period, id), SecondRemoval(id, other);
    var m2 := Advance(m1, crash);
    assert start == [m0];
    RemovedMachine(self, other, period, id);
    OneMachine(log, start, [], m0, Work(RemovalTurn(id, other)));
    RestartedMachine(self, other, period, id);
    var es := [] + [ClusterEvent(0, Work(RemovalTurn(id, other)))];
    OneMachine(log, start, es, m1, crash);
    SecondRemovalIsLegal(log, m2, id, other);
    OneMachine(log, start, es + [ClusterEvent(0, crash)], m2, Work(last));
    SecondRemovalBreaks(self, id, other);
    RestartPanics(m1, crash.at, period, [self], last.ready.value);
  }
}
