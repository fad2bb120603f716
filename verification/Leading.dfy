/** A leader commits only the block it proposed itself: how long it waits when it finds another one. */
module Leading {
  import opened Types
  import opened Files
  import opened FsStorages
  import opened BlockQueues
  import opened Membership
  import opened NodeSpec
  import opened Ledgers
  import opened NodeRuns
  import opened Durability
  import opened Drain
  import Engine

  // A running leader without a block in flight.
  predicate Leads(s: Node) {
    s.status.Running? && s.leads && s.leader.Some? && s.follower.None? && InFlight(s).None?
  }

  // Raft stays leader throughout the turn.
  predicate StaysLeader(turn: Turn) {
    && (turn.update.Some? && turn.update.value.PeerMessage? ==> turn.update.value.leads != Some(false))
    && (turn.tick.Some? ==> turn.tick.value.leads)
  }

  ghost predicate AllStayLeader(turns: seq<Turn>) {
    forall i :: 0 <= i < |turns| ==> StaysLeader(turns[i])
  }

  // The proposal that waits to be committed.
  function Proposed(s: Node): Option<BlockId> {
    if s.leader.Some? && s.leader.value.Proposing? then Some(s.leader.value.id) else None
  }

  // And after the update of a turn, which may have validated the block to propose.
  function ProposedIn(s: Node, turn: Turn): Option<BlockId> {
    if turn.update.Some? && turn.update.value.BlockValid? && Unproposed(s) == Some(turn.update.value.id)
    then Unproposed(s) else Proposed(s)
  }

  function BlocksIn(turn: Turn): seq<(BlockId, nat)> {
    if turn.ready.Some? then BlocksOf(turn.ready.value.committed) else []
  }

  // The queue with the notice and the deliveries of the turn.
  function Offered(s: Node, turn: Turn): Queue {
    var q := NextQueue(s, turn);
    q.(commits := q.commits + BlocksIn(turn))
  }

  // In this turn the leader's own proposal is the valid front of the queue.
  predicate ComesUp(s: Node, turn: Turn) {
    && turn.ready.Some?
    && NextCommittable(Offered(s, turn)).Some? && NextCommittable(Offered(s, turn)) == ProposedIn(s, turn)
  }

  // Between s and s' nothing was requested, popped or marked, and s' still leads if it did.
  ghost predicate Still(s: Node, s': Node) {
    && Account(s'.trace).commits == Account(s.trace).commits
    && Account(s'.trace).popped == Account(s.trace).popped
    && AppliedIndex(s'.disk) == AppliedIndex(s.disk)
    && s'.leads == s.leads && s'.leader.Some? && s'.follower.None? && InFlight(s').None?
  }

  // The parts of a turn

  lemma UpdateIsStill(s: Node, turn: Turn)
    requires Leads(s) && StaysLeader(turn)
    ensures var s' := AfterUpdate(s, turn);
            Still(s, s') && s'.queue == NextQueue(s, turn) && Proposed(s') == ProposedIn(s, turn)
  {
    if turn.update.Some? {
      match turn.update.value
      case BlockValid(id) => ValidationIsStill(s, id);
      case BlockNew(block) => AnnouncementIsStill(s, block);
      case _ => assert AfterUpdate(s, turn) == s.(leads := s.leads, status := AfterUpdate(s, turn).status);
    }
  }

  lemma AnnouncementIsStill(s: Node, block: Block)
    requires Leads(s)
    ensures var s' := OnBlockNew(s, block);
            Still(s, s') && s'.queue == WithBlock(s.queue, block) && Proposed(s') == Proposed(s)
  {
  }

  lemma ValidationIsStill(s: Node, id: BlockId)
    requires Leads(s)
    ensures Still(s, OnBlockValid(s, id)) && OnBlockValid(s, id).queue == WithValid(s.queue, id)
  {
    var s1 := Do(s.(queue := WithValid(s.queue, id)), Validated(id));
    assert Still(s, s1);
  }

  // Only a leader that builds a block does anything in a tick.
  lemma TickIsStill(s: Node, t: TickInput)
    requires Leads(s) && t.leads
    ensures Still(s, Tick(s, t)) && Tick(s, t).queue == s.queue && Proposed(Tick(s, t)) == Proposed(s)
  {
    if s.leader.value.Building? && t.final.Answered? {
      FinalizationIsStill(s, t.final.value);
    }
    assert s.(leads := t.leads) == s;
  }

  lemma FinalizationIsStill(s: Node, id: BlockId)
    requires Leads(s) && s.leader.value.Building?
    ensures var s' := Do(s, Finalize(id)).(leader := Some(Publishing(id)));
            Still(s, s') && Proposed(s') == Proposed(s)
  {
  }

  // The node when process_ready looks for the next block to commit.
  function BeforeCommit(s: Node, r: Ready): Node {
    var s1 := SendAll(s.(readyRole := s.leads), r.messages);
    var s2 := if s1.status.Running? then Install(s1, r.snapshot) else s1;
    if s2.status.Running? then DeliverAll(Persist(s2, r), r.committed, r.now) else s2
  }

  lemma {:induction false} PersistIsStill(s: Node, r: Ready)
    requires s.leader.Some? && s.follower.None? && InFlight(s).None?
    ensures Still(s, Persist(s, r)) && Persist(s, r) == s.(disk := Persist(s, r).disk, trace := Persist(s, r).trace)
  {
    var s1 := WriteAll(s, AppendPlan(r.entries).ops);
    PersistKeepsApplied(s, r);
    RecordIsNeutral(s.trace, AppendPlan(r.entries).ops);
    if r.hs.Some? {
      RecordIsNeutral(s1.trace, [SetHardStateOp(r.hs.value)]);
    }
  }

  lemma {:induction false} InstallIsStill(s: Node, snapshot: Option<Snapshot>)
    requires s.leader.Some? && s.follower.None? && InFlight(s).None?
    ensures var s' := Install(s, snapshot);
            Still(s, s') && s' == s.(disk := s'.disk, trace := s'.trace, status := s'.status)
  {
    if snapshot.Some? {
      var ops := ApplySnapshotPlan(s.disk, snapshot.value).ops;
      SnapshotSparesApplied(s.disk, snapshot.value);
      RecordIsNeutral(s.trace, ops);
      ApplyOpsKeeps(s.disk, ops, AppliedFile);
    }
  }

  lemma StillChains(s: Node, s': Node, s'': Node)
    requires Still(s, s') && Still(s', s'')
    ensures Still(s, s'')
  {
  }

  lemma DeliveryIsStill(s: Node, e: Entry, now: nat)
    requires Leads(s)
    ensures var s' := DeliverOne(s, e, now);
            && Still(s, s') && Proposed(s') == Proposed(s)
            && s'.queue == s.queue.(commits := s.queue.commits + BlockIn(e))
  {
    var s1 := Do(s, Deliver(e));
    assert Still(s, s1);
    assert s.queue.commits + [] == s.queue.commits;
    if e.payload.Conf? {
      var applied := ApplyConfChange(s1.self, s1.peers, e.payload.change);
      AdoptIsStill(s1, applied, now);
    }
  }

  lemma AdoptIsStill(s: Node, applied: Applied, now: nat)
    requires Leads(s)
    ensures var s' := Adopt(s, applied, now);
            Still(s, s') && Proposed(s') == Proposed(s) && s'.queue == s.queue
  {
  }

  lemma {:induction false} FirstBlock(entries: seq<Entry>)
    requires entries != []
    ensures BlocksOf(entries) == BlockIn(entries[0]) + BlocksOf(entries[1..])
  {
    assert entries == [entries[0]] + entries[1..];
    BlocksOfConcat([entries[0]], entries[1..]);
    BlocksOfOneMore([], entries[0]);
    assert [] + [entries[0]] == [entries[0]];
  }

  lemma {:induction false} DeliveriesAreStill(s: Node, entries: seq<Entry>, now: nat)
    requires Leads(s)
    ensures var s' := DeliverAll(s, entries, now);
            && Still(s, s') && Proposed(s') == Proposed(s) && s'.queue.backlog == s.queue.backlog
            && s.queue.commits <= s'.queue.commits
            && (s'.status.Running? ==> s'.queue.commits == s.queue.commits + BlocksOf(entries))
    decreases |entries|
  {
    if entries != [] {
      var s1 := DeliverOne(s, entries[0], now);
      DeliveryIsStill(s, entries[0], now);
      FirstBlock(entries);
      if s1.status.Running? {
        DeliveriesAreStill(s1, entries[1..], now);
        StillChains(s, s1, DeliverAll(s1, entries[1..], now));
        Associative(s.queue.commits, BlockIn(entries[0]), BlocksOf(entries[1..]));
      }
    }
  }

  lemma {:induction false} BeforeCommitIsStill(s: Node, r: Ready)
    requires Leads(s)
    ensures var s' := BeforeCommit(s, r);
            && Still(s, s') && Proposed(s') == Proposed(s) && s'.queue.backlog == s.queue.backlog
            && s.queue.commits <= s'.queue.commits
            && (s'.status.Running? ==> s'.queue.commits == s.queue.commits + BlocksOf(r.committed))
  {
    var s1 := SendAll(s.(readyRole := s.leads), r.messages);
    SendingIsNeutral(s.(readyRole := s.leads), r.messages);
    assert Still(s, s1);
    if s1.status.Running? {
      var s2 := Install(s1, r.snapshot);
      InstallIsStill(s1, r.snapshot);
      StillChains(s, s1, s2);
      if s2.status.Running? {
        var s3 := Persist(s2, r);
        PersistIsStill(s2, r);
        StillChains(s, s2, s3);
        DeliveriesAreStill(s3, r.committed, r.now);
        StillChains(s, s3, BeforeCommit(s, r));
      }
    }
  }

  lemma LeaderReady(s: Node, r: Ready)
    requires Leads(s)
    ensures var s' := BeforeCommit(s, r);
            ProcessReady(s, r) == if s'.status.Running? then CommitNext(s') else s'
  {
    var s0 := s.(readyRole := s.leads);
    assert StepUp(s0, r.now) == s0;
    var s1 := SendAll(s0, r.messages);
    SendingIsNeutral(s0, r.messages);
    assert PrepareReady(s, r) == s1;
    if s1.status.Running? && Install(s1, r.snapshot).status.Running? {
      LeaderFinishes(Persist(Install(s1, r.snapshot), r), r);
    }
  }

  lemma {:induction false} LeaderFinishes(s: Node, r: Ready)
    requires s.leads
    ensures var s' := DeliverAll(s, r.committed, r.now);
            FinishReady(s, r) == if s'.status.Running? then CommitNext(s') else s'
  {
  }

  // A leader requests the commit of the front if it proposed it, and does nothing otherwise.
  lemma LeaderCommits(s: Node)
    requires Leads(s)
    ensures var s' := CommitNext(s);
            if NextCommittable(s.queue).Some? && NextCommittable(s.queue) == Proposed(s)
            then s' == Do(s.(leader := Some(LeaderState.Committing(Proposed(s).value))), Commit(Proposed(s).value))
            else s' == s
  {
  }

  // Turns

  // What a turn makes of a leader in which its proposal does not come up, or which ends the node.
  ghost predicate Waits(s: Node, turn: Turn, s': Node) {
    && Still(s, s') && s.queue.commits <= s'.queue.commits
    && (Proposed(s).Some? ==> Proposed(s') == Proposed(s))
    && (s'.status.Running? ==> s'.queue.commits == s.queue.commits + BlocksIn(turn))
  }

  // The proposal comes up in this turn, and the node gets to it.
  predicate Grants(s: Node, turn: Turn) {
    ComesUp(s, turn) && Take(s, turn).status.Running?
  }

  lemma AfterTickIsStill(s: Node, turn: Turn)
    requires Leads(s) && StaysLeader(turn)
    ensures var s' := AfterTick(s, turn);
            Still(s, s') && s'.queue == NextQueue(s, turn) && Proposed(s') == ProposedIn(s, turn)
  {
    var s1 := AfterUpdate(s, turn);
    UpdateIsStill(s, turn);
    if s1.status.Running? && turn.tick.Some? {
      TickIsStill(s1, turn.tick.value);
      StillChains(s, s1, AfterTick(s, turn));
    }
  }

  // The node of a turn before it looks for the next block.
  function BeforeCommitIn(s: Node, turn: Turn): Node {
    var s1 := AfterTick(s, turn);
    if s1.status.Running? && turn.ready.Some? then BeforeCommit(s1, turn.ready.value) else s1
  }

  lemma NoticesKeepCommits(s: Node, turn: Turn)
    requires InFlight(s).None?
    ensures NextQueue(s, turn).commits == s.queue.commits
  {
  }

  lemma OfferedCommits(s: Node, turn: Turn)
    requires InFlight(s).None?
    ensures Offered(s, turn).commits == s.queue.commits + BlocksIn(turn)
  {
    NoticesKeepCommits(s, turn);
  }

  lemma BeforeCommitWaits(s: Node, turn: Turn)
    requires Leads(s) && StaysLeader(turn)
    ensures var s' := BeforeCommitIn(s, turn);
            && Still(s, s') && Proposed(s') == ProposedIn(s, turn) && s.queue.commits <= s'.queue.commits
            && (s'.status.Running? ==> s'.queue == Offered(s, turn))
  {
    var s1 := AfterTick(s, turn);
    AfterTickIsStill(s, turn);
    NoticesKeepCommits(s, turn);
    if s1.status.Running? && turn.ready.Some? {
      BeforeCommitIsStill(s1, turn.ready.value);
      StillChains(s, s1, BeforeCommitIn(s, turn));
    } else {
      assert s1.queue.commits + [] == s1.queue.commits;
    }
  }

  lemma LeaderTake(s: Node, turn: Turn)
    requires Leads(s) && StaysLeader(turn)
    ensures var s' := BeforeCommitIn(s, turn);
            Take(s, turn) == if s'.status.Running? && turn.ready.Some? then CommitNext(s') else s'
  {
    AfterTickIsStill(s, turn);
    var s1 := AfterTick(s, turn);
    if s1.status.Running? && turn.ready.Some? {
      LeaderReady(s1, turn.ready.value);
    }
  }

  // Requesting the commit of the front, or not.
  lemma LeaderCommitNext(s: Node)
    requires Leads(s)
    ensures var s' := CommitNext(s);
            if NextCommittable(s.queue).Some? && NextCommittable(s.queue) == Proposed(s)
            then Account(s'.trace).commits == Account(s.trace).commits + [Proposed(s).value] && s'.status.Running?
            else s' == s
  {
    LeaderCommits(s);
  }

  // A leader's turn requests the commit of its proposal if that comes up, and nothing otherwise.
  lemma LeaderTurn(s: Node, turn: Turn)
    requires Leads(s) && StaysLeader(turn)
    ensures if Grants(s, turn)
            then Account(Take(s, turn).trace).commits == Account(s.trace).commits + [ProposedIn(s, turn).value]
            else Waits(s, turn, Take(s, turn))
  {
    var s1 := BeforeCommitIn(s, turn);
    BeforeCommitWaits(s, turn);
    LeaderTake(s, turn);
    OfferedCommits(s, turn);
    if s1.status.Running? && turn.ready.Some? {
      LeaderCommitNext(s1);
    }
  }

  // Runs

  // All the leader has done since is to queue what was delivered.
  ghost predicate Waited(s: Node, s': Node) {
    && Still(s, s') && s.queue.commits <= s'.queue.commits
    && (Proposed(s).Some? ==> Proposed(s') == Proposed(s))
  }

  lemma WaitsOn(s: Node, s': Node, turn: Turn, s'': Node)
    requires Waited(s, s') && Waits(s', turn, s'')
    ensures Waited(s, s'')
  {
    StillChains(s, s', s'');
  }

  lemma CommitsAreKept(l: Ledger, a: Action)
    ensures Post(l, a).commits == l.commits + if a.Commit? then [a.id] else []
  {
    assert !a.Commit? ==> Post(l, a).commits == l.commits;
  }

  lemma {:induction false} CommitsGrow(p: Trace, t: Trace)
    requires Before(p, t)
    ensures Account(p).commits <= Account(t).commits
  {
    if p != t {
      CommitsGrow(p, t.before);
      CommitsAreKept(Account(t.before), t.action);
    }
  }

  // The leader's proposal comes up in turn k.
  predicate GrantedAt(s: Node, turns: seq<Turn>, k: nat)
    requires k < |turns|
  {
    Grants(Run(s, turns[..k]), turns[k])
  }

  ghost predicate Granted(s: Node, turns: seq<Turn>) {
    exists k :: 0 <= k < |turns| && GrantedAt(s, turns, k)
  }

  lemma GrantedLately(s: Node, turns: seq<Turn>)
    requires turns != []
    ensures var n := |turns| - 1;
            Granted(s, turns) <==> Granted(s, turns[..n]) || GrantedAt(s, turns, n)
  {
    var n := |turns| - 1;
    forall k | 0 <= k < n ensures GrantedAt(s, turns[..n], k) == GrantedAt(s, turns, k) {
      assert turns[..n][..k] == turns[..k];
    }
  }

  // How a leader has fared.
  ghost predicate Fared(s: Node, granted: bool, s': Node) {
    if granted then |Account(s.trace).commits| < |Account(s'.trace).commits| else Waited(s, s')
  }

  lemma OneMoreTurn(s: Node, granted: bool, s': Node, turn: Turn)
    requires Leads(s) && StaysLeader(turn) && Fared(s, granted, s')
    ensures Fared(s, granted || Grants(s', turn), Take(s', turn))
  {
    if granted {
      Engine.TurnGrows(s', turn);
      CommitsGrow(s'.trace, Take(s', turn).trace);
    } else if s'.status.Running? {
      LeaderTurn(s', turn);
      if !Grants(s', turn) {
        WaitsOn(s, s', turn, Take(s', turn));
      }
    }
  }

  /** Over every run in which Raft stays leader, whatever is validated, delivered, built and sent: the
      leader requests a commit if and only if in some turn the valid front of its queue is the block it
      proposed itself. Until then it pops and marks nothing, and only queues what is delivered. */
  lemma {:induction false} LeaderCommitsItsOwn(s: Node, turns: seq<Turn>)
    requires Leads(s) && AllStayLeader(turns)
    ensures Account(Run(s, turns).trace).commits != Account(s.trace).commits <==> Granted(s, turns)
    ensures !Granted(s, turns) ==> Waited(s, Run(s, turns))
  {
    LeaderFares(s, turns);
  }

  lemma {:induction false} LeaderFares(s: Node, turns: seq<Turn>)
    requires Leads(s) && AllStayLeader(turns)
    ensures Fared(s, Granted(s, turns), Run(s, turns))
  {
    if turns != [] {
      var n := |turns| - 1;
      LeaderFares(s, turns[..n]);
      OneMoreTurn(s, Granted(s, turns[..n]), Run(s, turns[..n]), turns[n]);
      GrantedLately(s, turns);
    }
  }

  // Another block in front

  // The front of the queue is not the block this leader proposed.
  predicate Blocked(s: Node) {
    Proposed(s).Some? && s.queue.commits != [] && s.queue.commits[0].0 != Proposed(s).value
  }

  lemma BlockedIsNotGranted(s: Node, turn: Turn)
    requires Leads(s) && Blocked(s)
    ensures !ComesUp(s, turn)
  {
    NoticesKeepCommits(s, turn);
  }

  lemma {:induction false} BlockedWaits(s: Node, turns: seq<Turn>)
    requires Leads(s) && Blocked(s) && AllStayLeader(turns)
    ensures Waited(s, Run(s, turns)) && Blocked(Run(s, turns))
  {
    if turns != [] {
      var n := |turns| - 1;
      var s' := Run(s, turns[..n]);
      BlockedWaits(s, turns[..n]);
      if s'.status.Running? {
        BlockedIsNotGranted(s', turns[n]);
        LeaderTurn(s', turns[n]);
        WaitsOn(s, s', turns[n], Run(s, turns));
      }
    }
  }

  // A validation of the proposal, and its delivery if nothing is queued.
  function Release(s: Node, id: BlockId): Turn {
    var entries := if s.queue.commits == [] then [Entry(1, 2, Normal(id))] else [];
    Turn(Some(BlockValid(id)), None, Some(Ready([], None, [], None, entries, 0)))
  }

  lemma {:induction false} QuietReadyRuns(s: Node, entries: seq<Entry>)
    requires Leads(s) && |entries| <= 1 && (entries != [] ==> entries[0].payload.Normal?)
    ensures BeforeCommit(s, Ready([], None, [], None, entries, 0)).status.Running?
  {
    var r := Ready([], None, [], None, entries, 0);
    assert Persist(s.(readyRole := s.leads), r) == s.(readyRole := s.leads);
    if entries != [] {
      var s1 := DeliverOne(s.(readyRole := s.leads), entries[0], 0);
      assert DeliverAll(s1, entries[1..], 0) == s1;
    }
  }

  lemma ReleaseComesUp(s: Node, id: BlockId)
    requires Leads(s) && Proposed(s) == Some(id) && !Blocked(s)
    ensures ComesUp(s, Release(s, id))
  {
    var turn := Release(s, id);
    BlocksOfOneMore([], Entry(1, 2, Normal(id)));
    assert [] + [Entry(1, 2, Normal(id))] == [Entry(1, 2, Normal(id))];
    assert NextQueue(s, turn) == WithValid(s.queue, id);
    assert Offered(s, turn).commits[0].0 == id;
  }

  lemma ReleaseGrants(s: Node, id: BlockId)
    requires Leads(s) && Proposed(s) == Some(id) && !Blocked(s)
    ensures StaysLeader(Release(s, id)) && Grants(s, Release(s, id))
  {
    var turn := Release(s, id);
    ReleaseComesUp(s, id);
    AfterTickIsStill(s, turn);
    QuietReadyRuns(AfterTick(s, turn), turn.ready.value.committed);
    LeaderTake(s, turn);
    BeforeCommitWaits(s, turn);
    LeaderCommits(BeforeCommitIn(s, turn));
  }

  /** A leader that waits for its proposal has a way on while it leads, that is a run in which it
      requests a commit, exactly when the queue is empty or has the proposal in front. Behind any other
      block, valid or not, it stands still for as long as it leads. */
  lemma {:induction false} LeaderGetsOn(s: Node)
    requires Leads(s) && Proposed(s).Some?
    ensures (exists turns :: AllStayLeader(turns) && Account(Run(s, turns).trace).commits != Account(s.trace).commits)
            <==> s.queue.commits == [] || s.queue.commits[0].0 == Proposed(s).value
    ensures Blocked(s) ==> forall turns :: AllStayLeader(turns) ==> Waited(s, Run(s, turns))
  {
    if Blocked(s) {
      forall turns | AllStayLeader(turns) ensures Waited(s, Run(s, turns)) {
        BlockedWaits(s, turns);
      }
    } else {
      var turns := [Release(s, Proposed(s).value)];
      ReleaseGrants(s, Proposed(s).value);
      assert turns[..0] == [] && GrantedAt(s, turns, 0);
      LeaderCommitsItsOwn(s, turns);
    }
  }

  // Losing leadership

  lemma SteppedDown(s: Node)
    requires s.status.Running? && s.leader.Some? && s.follower.None? && InFlight(s).None?
    ensures var s' := StepDown(s);
            && s' == s.(leader := None, follower := Some(Idle), trace := s'.trace)
            && Account(s'.trace).commits == Account(s.trace).commits
  {
  }

  // process_ready on a leader that Raft has deposed.
  lemma {:induction false} DeposedReady(s: Node, r: Ready)
    requires s.status.Running? && s.leader.Some? && s.follower.None? && InFlight(s).None?
    requires !s.leads && NothingDelivered(r)
    ensures var s' := SendAll(StepDown(Persist(s.(readyRole := false), r)), r.messages);
            && ProcessReady(s, r) == CommitNext(s')
            && s' == s.(readyRole := false, leader := None, follower := Some(Idle), disk := s'.disk, trace := s'.trace)
            && Account(s'.trace).commits == Account(s.trace).commits && AppliedIndex(s'.disk) == AppliedIndex(s.disk)
  {
    var s0 := s.(readyRole := false);
    var s1 := Persist(s0, r);
    assert Install(PrepareReady(s, r), r.snapshot) == s0;
    PersistIsStill(s0, r);
    SteppedDown(s1);
    SendAllKeepsAll(StepDown(s1), r.messages);
    SendingIsNeutral(StepDown(s1), r.messages);
    assert FinishReady(s1, r) == CommitNext(SendAll(StepDown(s1), r.messages));
  }

  /** Losing leadership is the way out: in the next ready the node requests the valid front of its queue,
      whoever proposed it, and goes on as a follower that works through the rest. */
  lemma DeposedLeaderGetsOn(s: Node, r: Ready)
    requires Leads(s) && NothingDelivered(r)
    ensures var s' := Take(s, Turn(Some(PeerMessage(Some(false))), None, Some(r)));
            && Waiting(s') && s'.queue == s.queue && AppliedIndex(s'.disk) == AppliedIndex(s.disk)
            && InFlight(s') == NextCommittable(s.queue)
            && Account(s'.trace).commits == Account(s.trace).commits +
               (if NextCommittable(s.queue).Some? then [NextCommittable(s.queue).value] else [])
  {
    var s1 := s.(leads := false);
    DeposedReady(s1, r);
    var s2 := SendAll(StepDown(Persist(s1.(readyRole := false), r)), r.messages);
    RequestIs(s2);
    RequestedWaits(s2, CommitNext(s2));
    if NextCommittable(s.queue).Some? {
      CommitsAreKept(Account(s2.trace), Commit(NextCommittable(s.queue).value));
    }
  }
}
