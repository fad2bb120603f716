/** What holds over every run of a node, whatever order updates come in and whenever leadership is
    won or lost. */
module NodeRuns {
  import opened Types
  import opened Files
  import opened FsStorages
  import opened BlockQueues
  import opened Membership
  import opened NodeSpec
  import opened Ledgers

  // The block whose commit was requested and has not been confirmed.
  function InFlight(s: Node): Option<BlockId> {
    if s.leader.Some? && s.leader.value.Committing? then Some(s.leader.value.id)
    else if s.follower.Some? && s.follower.value.Committing? then Some(s.follower.value.id)
    else None
  }

  predicate OneRole(s: Node) {
    s.leader.Some? <==> s.follower.None?
  }

  /** The confirmation of any block but the one in flight changes nothing, in either role. */
  lemma OtherConfirmation(s: Node, id: BlockId, setting: Option<set<PeerBytes>>, now: nat)
    requires OneRole(s) && InFlight(s) != Some(id)
    ensures OnBlockCommit(s, id, setting, now) == s
  {
  }

  // The block being published or validated, that is built but not yet proposed.
  function Unproposed(s: Node): Option<BlockId> {
    if s.leader.Some? && (s.leader.value.Publishing? || s.leader.value.Validating?)
    then Some(s.leader.value.id) else None
  }

  predicate IsBuilding(s: Node) {
    s.leader.Some? && s.leader.value.Building?
  }

  ghost predicate Fits(s: Node, l: Ledger) {
    // one of the two roles, and the block in flight is the valid front of the queue
    && OneRole(s)
    && (InFlight(s).Some? ==> NextCommittable(s.queue) == InFlight(s))
    // commit requests are the popped blocks and the one in flight; pops and queue are the deliveries
    && |l.commits| == |l.popped| + (if InFlight(s).Some? then 1 else 0)
    && l.popped + s.queue.commits == l.blocks
    // a block is open exactly while building; the unproposed block is pending
    && (l.building <==> IsBuilding(s))
    && (Unproposed(s).Some? ==> l.pending == Unproposed(s))
  }

  // A panicking handler stops half way; its trace is safe all the same.
  ghost predicate Good(s: Node) {
    AlwaysSafe(s.trace) && (s.status != Panicked ==> Fits(s, Account(s.trace)))
  }

  lemma BootIsGood(self: PeerId, period: nat, setting: seq<PeerId>, disk: Directory)
    ensures Good(Boot(self, period, setting, disk))
  {
  }

  // Updates

  lemma AnnouncementFits(s: Node, l: Ledger, block: Block, leader: Option<LeaderState>)
    requires Safe(l) && Fits(s, l)
    requires leader == s.leader || (Unproposed(s) == Some(block.id) && leader == Some(Validating(block.id)))
    ensures Safe(Post(l, CheckBlocks(block.id)))
    ensures Fits(s.(leader := leader, queue := WithBlock(s.queue, block)), Post(l, CheckBlocks(block.id)))
  {
  }

  // One more action, with the state that fits the ledger after it.
  lemma StepIsGood(s: Node, s1: Node, a: Action)
    requires AlwaysSafe(s.trace) && s1.trace == s.trace
    requires Safe(Post(Account(s.trace), a)) && Fits(s1, Post(Account(s.trace), a))
    ensures Good(Do(s1, a))
  {
  }

  lemma OnBlockNewIsGood(s: Node, block: Block)
    requires Good(s) && s.status.Running?
    ensures Good(OnBlockNew(s, block))
  {
    var leader := OnBlockNew(s, block).leader;
    AnnouncementFits(s, Account(s.trace), block, leader);
    StepIsGood(s, s.(leader := leader, queue := WithBlock(s.queue, block)), CheckBlocks(block.id));
  }

  lemma ValidationFits(s: Node, l: Ledger, id: BlockId)
    requires Safe(l) && Fits(s, l)
    ensures Safe(Post(l, Validated(id))) && Fits(s.(queue := WithValid(s.queue, id)), Post(l, Validated(id)))
  {
  }

  lemma ProposalFits(s: Node, l: Ledger, id: BlockId)
    requires Safe(l) && Fits(s, l) && Unproposed(s) == Some(id) && l.ready
    ensures var l' := Post(l, Propose(id, s.leads)); Safe(l') && Fits(s.(leader := Some(Proposing(id))), l')
  {
  }

  lemma OnBlockValidIsGood(s: Node, id: BlockId)
    requires Good(s) && s.status.Running?
    ensures Good(OnBlockValid(s, id))
  {
    var s1 := Do(s.(queue := WithValid(s.queue, id)), Validated(id));
    ValidationFits(s, Account(s.trace), id);
    assert Good(s1);
    if Unproposed(s) == Some(id) {
      ProposalFits(s1, Account(s1.trace), id);
    }
  }

  // The queue's front is there to be popped, and popping it settles the block in flight.

  // What the ledger is like between confirming a block and moving on.
  ghost predicate Settled(s: Node, l: Ledger) {
    && |l.commits| == |l.popped| && l.popped + s.queue.commits == l.blocks
    && !l.building
  }

  lemma PopSettles(s: Node, l: Ledger)
    requires Safe(l) && Fits(s, l) && InFlight(s).Some?
    ensures s.queue.commits != []
    ensures var (id, index) := s.queue.commits[0];
            && Safe(Post(l, Pop(id, index)))
            && Settled(s.(queue := WithoutFront(s.queue)), Post(l, Pop(id, index)))
  {
    var front := s.queue.commits[0];
    assert s.queue.commits == [front] + s.queue.commits[1..];
    assert l.popped + s.queue.commits == (l.popped + [front]) + s.queue.commits[1..];
  }

  lemma FinishBlockSettles(s: Node)
    requires Good(s) && s.status.Running? && InFlight(s).Some?
    ensures var s' := FinishBlock(s);
            && s'.status.Running? && AlwaysSafe(s'.trace) && Settled(s', Account(s'.trace))
            && s'.leader == s.leader && s'.follower == s.follower && s'.peers == s.peers && s'.leads == s.leads
  {
    PopSettles(s, Account(s.trace));
    var (id, index) := s.queue.commits[0];
    var popped := Do(s.(queue := WithoutFront(s.queue)), Pop(id, index));
    assert AlwaysSafe(popped.trace);
  }

  lemma SettledFits(s: Node, l: Ledger, now: nat, change: ConfChange)
    requires Safe(l) && Settled(s, l) && s.leader.Some? != s.follower.Some?
    ensures s.leader.Some? ==>
              var l' := Post(l, Initialize); Safe(l') && Fits(s.(leader := Some(Building(now))), l')
    ensures s.leader.Some? ==>
              var l' := Post(l, ProposeConfChange(change, s.leads));
              Safe(l') && Fits(s.(leader := Some(ChangingConfig)), l')
    ensures s.follower.Some? ==> Fits(s.(follower := Some(Idle)), l)
  {
  }

  lemma MoveOnIsGood(s: Node, check: Option<Check>, now: nat)
    requires AlwaysSafe(s.trace) && Settled(s, Account(s.trace)) && s.leader.Some? && s.follower.None?
    requires s.status.Running?
    ensures Good(MoveOn(s, check, now)) && MoveOn(s, check, now).follower.None?
  {
    SettledFits(s, Account(s.trace), now,
                if check.Some? && check.value.Change? then check.value.change else RemoveNode(0));
  }

  lemma LeaderCommittedIsGood(s: Node, setting: Option<set<PeerBytes>>, now: nat)
    requires Good(s) && s.status.Running? && s.leader.Some? && InFlight(s).Some?
    ensures Good(LeaderCommitted(s, setting, now)) && LeaderCommitted(s, setting, now).follower.None?
  {
    var s1 := FinishBlock(s);
    FinishBlockSettles(s);
    MoveOnIsGood(s1, if setting.Some? then Some(CheckForConfChange(s1.peers, setting.value)) else None, now);
  }

  lemma FollowerCommittedIsGood(s: Node)
    requires Good(s) && s.status.Running? && s.follower.Some? && InFlight(s).Some?
    ensures Good(FollowerCommitted(s))
  {
    FinishBlockSettles(s);
    SettledFits(FinishBlock(s), Account(FinishBlock(s).trace), 0, RemoveNode(0));
  }

  lemma OnBlockCommitIsGood(s: Node, id: BlockId, setting: Option<set<PeerBytes>>, now: nat)
    requires Good(s) && s.status.Running?
    ensures Good(OnBlockCommit(s, id, setting, now))
  {
    if s.leader == Some(LeaderState.Committing(id)) {
      LeaderCommittedIsGood(s, setting, now);
    } else if s.follower == Some(FollowerState.Committing(id)) {
      FollowerCommittedIsGood(s);
    }
  }

  // Ticks

  lemma FinalizationFits(s: Node, l: Ledger, id: BlockId)
    requires Safe(l) && Fits(s, l) && IsBuilding(s)
    ensures Safe(Post(l, Finalize(id))) && Fits(s.(leader := Some(Publishing(id))), Post(l, Finalize(id)))
  {
  }

  lemma TickIsGood(s: Node, t: TickInput)
    requires Good(s) && s.status.Running?
    ensures Good(Tick(s, t))
  {
    var s1 := s.(leads := t.leads);
    assert Good(s1);
    if IsBuilding(s1) && t.final.Answered? {
      FinalizationFits(s1, Account(s1.trace), t.final.value);
    }
  }

  // Ready

  lemma RoleChangeFits(s: Node, l: Ledger, now: nat)
    requires Safe(l) && Fits(s, l)
    ensures s.leader.None? && InFlight(s).None? ==>
              && Safe(Post(l, Initialize))
              && Fits(s.(leader := Some(Building(now)), follower := None), Post(l, Initialize))
    ensures IsBuilding(s) ==>
              Safe(Post(l, Cancel)) && Fits(s.(leader := None, follower := Some(Idle)), Post(l, Cancel))
  {
  }

  lemma StepUpIsGood(s: Node, now: nat)
    requires Good(s) && s.status.Running?
    ensures Good(StepUp(s, now)) && StepUp(s, now).leader.Some? && StepUp(s, now).status.Running?
  {
    RoleChangeFits(s, Account(s.trace), now);
  }

  lemma StepDownIsGood(s: Node)
    requires Good(s) && s.status.Running?
    ensures Good(StepDown(s)) && StepDown(s).leader.None? && StepDown(s).status.Running?
  {
    RoleChangeFits(s, Account(s.trace), 0);
  }

  lemma {:induction false} SendAllIsGood(s: Node, messages: seq<Message>)
    requires Good(s)
    ensures Good(SendAll(s, messages))
  {
    SendingIsNeutral(s, messages);
  }

  lemma StoreIsGood(s: Node, ops: seq<FileOp>)
    requires Good(s) && forall i :: 0 <= i < |ops| ==> ops[i].name != AppliedFile
    ensures Good(WriteAll(s, ops))
  {
    RecordIsNeutral(s.trace, ops);
  }

  lemma PersistIsGood(s: Node, r: Ready)
    requires Good(s)
    ensures Good(Persist(s, r))
  {
    StoreIsGood(s, AppendPlan(r.entries).ops);
    if r.hs.Some? {
      StoreIsGood(WriteAll(s, AppendPlan(r.entries).ops), [SetHardStateOp(r.hs.value)]);
    }
  }

  lemma DeliverIsSafe(s: Node, e: Entry)
    requires Good(s) && s.status.Running?
    ensures AlwaysSafe(Do(s, Deliver(e)).trace)
    ensures !e.payload.Normal? ==> Good(Do(s, Deliver(e)))
    ensures e.payload.Normal? ==> Good(Do(s, Deliver(e)).(queue := WithCommit(s.queue, e.payload.block, e.index)))
  {
    var l := Account(s.trace);
    if e.payload.Normal? {
      var block := (e.payload.block, e.index);
      assert (l.popped + s.queue.commits) + [block] == l.popped + (s.queue.commits + [block]);
    }
  }

  lemma ResumeFits(s: Node, l: Ledger, now: nat)
    requires Safe(l) && Fits(s, l) && s.leader == Some(ChangingConfig)
    ensures Safe(Post(l, Initialize)) && Fits(s.(leader := Some(Building(now))), Post(l, Initialize))
  {
  }

  lemma PeersAreFree(s: Node, peers: Peers)
    requires Good(s)
    ensures Good(s.(peers := peers))
  {
  }

  lemma ResumeIsGood(s: Node, now: nat)
    requires Good(s) && s.status.Running? && s.leader == Some(ChangingConfig)
    ensures Good(Resume(s, now))
  {
    ResumeFits(s, Account(s.trace), now);
  }

  lemma AdoptIsGood(s: Node, applied: Applied, now: nat)
    requires Good(s) && s.status.Running?
    ensures Good(Adopt(s, applied, now))
  {
    if applied.Joined? {
      PeersAreFree(s, applied.peers);
      if s.leader == Some(ChangingConfig) {
        ResumeIsGood(s.(peers := applied.peers), now);
      }
    }
  }

  lemma DeliverOneIsGood(s: Node, e: Entry, now: nat)
    requires Good(s) && s.status.Running?
    ensures Good(DeliverOne(s, e, now))
  {
    DeliverIsSafe(s, e);
    if e.payload.Conf? && e.term != 1 {
      var s1 := Do(s, Deliver(e));
      AdoptIsGood(s1, ApplyConfChange(s1.self, s1.peers, e.payload.change), now);
    }
  }

  lemma {:induction false} DeliverAllIsGood(s: Node, entries: seq<Entry>, now: nat)
    requires Good(s)
    ensures Good(DeliverAll(s, entries, now))
    decreases |entries|
  {
    if entries != [] && s.status.Running? {
      DeliverOneIsGood(s, entries[0], now);
      DeliverAllIsGood(DeliverOne(s, entries[0], now), entries[1..], now);
    }
  }

  lemma CommitFits(s: Node, l: Ledger, id: BlockId)
    requires Safe(l) && Fits(s, l) && NextCommittable(s.queue) == Some(id) && InFlight(s).None? && !l.building
    ensures Safe(Post(l, Commit(id)))
    ensures s.leader.Some? ==> Fits(s.(leader := Some(LeaderState.Committing(id))), Post(l, Commit(id)))
    ensures s.follower.Some? ==> Fits(s.(follower := Some(FollowerState.Committing(id))), Post(l, Commit(id)))
  {
    assert l.blocks[|l.popped|] == s.queue.commits[0];
  }

  lemma CommitNextIsGood(s: Node)
    requires Good(s) && s.status.Running?
    ensures Good(CommitNext(s))
  {
    if NextCommittable(s.queue).Some? {
      var id := NextCommittable(s.queue).value;
      if s.leader == Some(Proposing(id)) || s.follower == Some(Idle) {
        CommitFits(s, Account(s.trace), id);
      }
    }
  }

  lemma PrepareReadyIsGood(s: Node, r: Ready)
    requires Good(s) && s.status.Running?
    ensures Good(PrepareReady(s, r))
  {
    var s0 := s.(readyRole := s.leads);
    if s.leads {
      StepUpIsGood(s0, r.now);
      SendAllIsGood(StepUp(s0, r.now), r.messages);
    }
  }

  lemma InstallIsGood(s: Node, snapshot: Option<Snapshot>)
    requires Good(s)
    ensures Good(Install(s, snapshot))
  {
    if snapshot.Some? {
      SnapshotSparesApplied(s.disk, snapshot.value);
      StoreIsGood(s, ApplySnapshotPlan(s.disk, snapshot.value).ops);
    }
  }

  lemma SnapshotSparesApplied(d: Directory, snapshot: Snapshot)
    ensures var ops := ApplySnapshotPlan(d, snapshot).ops;
            forall i :: 0 <= i < |ops| ==> ops[i].name != AppliedFile
  {
  }

  lemma FinishReadyIsGood(s: Node, r: Ready)
    requires Good(s) && s.status.Running?
    ensures Good(FinishReady(s, r))
  {
    var s1 := if s.leads then s else SendAll(StepDown(s), r.messages);
    if !s.leads {
      StepDownIsGood(s);
      SendAllIsGood(StepDown(s), r.messages);
    }
    DeliverAllIsGood(s1, r.committed, r.now);
    var s2 := DeliverAll(s1, r.committed, r.now);
    if s2.status.Running? {
      CommitNextIsGood(s2);
    }
  }

  lemma ProcessReadyIsGood(s: Node, r: Ready)
    requires Good(s) && s.status.Running?
    ensures Good(ProcessReady(s, r))
  {
    PrepareReadyIsGood(s, r);
    if PrepareReady(s, r).status.Running? {
      StoreReadyIsGood(PrepareReady(s, r), r);
    }
  }

  lemma StoreReadyIsGood(s: Node, r: Ready)
    requires Good(s) && s.status.Running?
    ensures Good(StoreReady(s, r))
  {
    InstallIsGood(s, r.snapshot);
    var s1 := Install(s, r.snapshot);
    if s1.status.Running? {
      PersistIsGood(s1, r);
      FinishReadyIsGood(Persist(s1, r), r);
    }
  }

  // Turns and runs

  // Raft's role and the end of the loop leave queue and books alone.
  lemma OtherUpdateIsGood(s: Node, leads: bool, status: Status)
    requires Good(s) && s.status.Running?
    ensures Good(s.(leads := leads)) && Good(Halt(s, status))
  {
  }

  lemma HandleUpdateIsGood(s: Node, update: Update)
    requires Good(s) && s.status.Running?
    ensures Good(HandleUpdate(s, update))
  {
    match update
    case BlockNew(block) => OnBlockNewIsGood(s, block);
    case BlockValid(id) => OnBlockValidIsGood(s, id);
    case BlockCommit(id, setting, now) => OnBlockCommitIsGood(s, id, setting, now);
    case PeerMessage(leads) => OtherUpdateIsGood(s, leads == Some(true), Panicked);
    case Shutdown => OtherUpdateIsGood(s, false, Stopped);
    case Unhandled =>
  }

  lemma TakeIsGood(s: Node, turn: Turn)
    requires Good(s)
    ensures Good(Take(s, turn))
  {
    var s1, s2 := AfterUpdate(s, turn), AfterTick(s, turn);
    if s.status.Running? && turn.update.Some? {
      HandleUpdateIsGood(s, turn.update.value);
    }
    assert Good(s1);
    if s1.status.Running? && turn.tick.Some? {
      TickIsGood(s1, turn.tick.value);
    }
    assert Good(s2);
    if s2.status.Running? && turn.ready.Some? {
      ProcessReadyIsGood(s2, turn.ready.value);
    }
  }

  lemma {:induction false} RunIsGood(s: Node, turns: seq<Turn>)
    requires Good(s)
    ensures Good(Run(s, turns))
  {
    if turns != [] {
      RunIsGood(s, turns[..|turns| - 1]);
      TakeIsGood(Run(s, turns[..|turns| - 1]), turns[|turns| - 1]);
    }
  }

  lemma {:induction false} SafeEverywhere(p: Trace, t: Trace)
    requires AlwaysSafe(t) && Before(p, t)
    ensures Safe(Account(p))
  {
    if p != t {
      SafeEverywhere(p, t.before);
    }
  }

  // What Fits says of the commit requests, put in terms of the entries delivered.
  lemma FittingCommits(s: Node, l: Ledger)
    requires Safe(l) && Fits(s, l)
    ensures l.commits == Ids(l.popped) + (if InFlight(s).Some? then [InFlight(s).value] else [])
  {
    if InFlight(s).Some? {
      assert l.blocks[|l.popped|] == s.queue.commits[0];
    }
  }

  lemma SafeCommits(l: Ledger)
    requires Safe(l)
    ensures l.commits <= Ids(l.blocks)
  {
  }

  /** Commit requests follow the log: over every run they are the popped blocks followed by the one in
      flight, and popped blocks followed by the queue are exactly the non-empty normal entries Raft
      delivered. A handler that panics leaves at most its own block unsettled. */
  lemma {:induction false} CommitsFollowTheLog(self: PeerId, period: nat, setting: seq<PeerId>, disk: Directory,
                                               turns: seq<Turn>)
    ensures var s := Run(Boot(self, period, setting, disk), turns);
            var l := Account(s.trace);
            && l.commits <= Ids(BlocksOf(l.handed)) && l.popped <= BlocksOf(l.handed)
            && (s.status != Panicked ==>
                  && l.popped + s.queue.commits == BlocksOf(l.handed)
                  && l.commits == Ids(l.popped) + (if InFlight(s).Some? then [InFlight(s).value] else []))
  {
    BootIsGood(self, period, setting, disk);
    RunIsGood(Boot(self, period, setting, disk), turns);
    var s := Run(Boot(self, period, setting, disk), turns);
    HandedBlocks(s.trace);
    SafeCommits(Account(s.trace));
    if s.status != Panicked {
      FittingCommits(s, Account(s.trace));
    }
  }

  /** At every crash point of every run: commits are requested once each, in log order, at most one
      ahead of the pops; blocks are opened and closed in turn; and every proposal is the last
      finalized block, validated since and not proposed before. */
  lemma {:induction false} EveryCrashPointIsSafe(self: PeerId, period: nat, setting: seq<PeerId>, disk: Directory,
                                                 turns: seq<Turn>, p: Trace)
    requires Before(p, Run(Boot(self, period, setting, disk), turns).trace)
    ensures Safe(Account(p))
    ensures Account(p).commits <= Ids(BlocksOf(Account(p).handed))
    ensures Subsequence(Account(p).proposed, Account(p).finalized)
  {
    BootIsGood(self, period, setting, disk);
    RunIsGood(Boot(self, period, setting, disk), turns);
    var t := Run(Boot(self, period, setting, disk), turns).trace;
    SafeEverywhere(p, t);
    HandedBlocks(p);
    SafeCommits(Account(p));
    EarlierIsSafe(p, t);
    OrderlyProposals(p);
  }

  lemma {:induction false} EarlierIsSafe(p: Trace, t: Trace)
    requires AlwaysSafe(t) && Before(p, t)
    ensures AlwaysSafe(p)
  {
    if p != t {
      EarlierIsSafe(p, t.before);
    }
  }

  /** The machine invariant: one role at a time, and a block in flight is the front of the queue and
      marked valid in the backlog, so confirming it never pops an empty queue. A block is open exactly
      while building. */
  lemma {:induction false} MachineInvariant(self: PeerId, period: nat, setting: seq<PeerId>, disk: Directory,
                                            turns: seq<Turn>)
    ensures var s := Run(Boot(self, period, setting, disk), turns);
            s.status != Panicked ==>
              && (s.leader.Some? <==> s.follower.None?)
              && (forall id :: InFlight(s) == Some(id) ==>
                    && s.queue.commits != [] && s.queue.commits[0].0 == id
                    && id in s.queue.backlog && s.queue.backlog[id].valid
                    && FinishBlock(s).status == s.status)
              && Account(s.trace).openings ==
                 |Account(s.trace).finalized| + Account(s.trace).cancelled + (if IsBuilding(s) then 1 else 0)
  {
    BootIsGood(self, period, setting, disk);
    RunIsGood(Boot(self, period, setting, disk), turns);
  }

  // Roles

  predicate Led(s: Node) {
    Account(s.trace).led
  }

  // The role of the node follows Raft's.
  ghost predicate InRole(s: Node) {
    Led(s) && (s.status.Running? ==> (s.leader.Some? <==> s.leads) && s.readyRole == s.leads)
  }

  // has_ready is true whenever the role changed since the last call of `ready`.
  predicate RoleReported(s: Node, turn: Turn) {
    turn.ready.None? ==> AfterTick(s, turn).leads == AfterTick(s, turn).readyRole
  }

  // This step changes neither role and makes no proposal out of role.
  ghost predicate KeepsRole(s: Node, s': Node) {
    && s'.leads == s.leads && s'.readyRole == s.readyRole
    && s'.leader.Some? == s.leader.Some?
    && (Led(s) ==> Led(s'))
  }

  lemma FinishBlockKeepsRole(s: Node)
    ensures KeepsRole(s, FinishBlock(s)) && FinishBlock(s).leader == s.leader
  {
  }

  lemma MoveOnKeepsRole(s: Node, check: Option<Check>, now: nat)
    requires s.leader.Some? && s.leads
    ensures KeepsRole(s, MoveOn(s, check, now))
  {
  }

  lemma LeaderCommittedKeepsRole(s: Node, setting: Option<set<PeerBytes>>, now: nat)
    requires s.leader.Some? && s.leads
    ensures KeepsRole(s, LeaderCommitted(s, setting, now))
  {
    var s1 := FinishBlock(s);
    FinishBlockKeepsRole(s);
    MoveOnKeepsRole(s1, if setting.Some? then Some(CheckForConfChange(s1.peers, setting.value)) else None, now);
  }

  lemma OnBlockCommitKeepsRole(s: Node, id: BlockId, setting: Option<set<PeerBytes>>, now: nat)
    requires s.leader.Some? ==> s.leads
    ensures KeepsRole(s, OnBlockCommit(s, id, setting, now))
  {
    var s1 := if s.leader == Some(LeaderState.Committing(id)) then LeaderCommitted(s, setting, now) else s;
    if s.leader.Some? {
      LeaderCommittedKeepsRole(s, setting, now);
    }
    FinishBlockKeepsRole(s1);
  }

  lemma OnBlockValidKeepsRole(s: Node, id: BlockId)
    requires s.leader.Some? ==> s.leads
    ensures KeepsRole(s, OnBlockValid(s, id))
  {
    var s1 := Do(s.(queue := WithValid(s.queue, id)), Validated(id));
    assert KeepsRole(s, s1);
  }

  lemma UpdateKeepsRole(s: Node, update: Update)
    requires s.leader.Some? ==> s.leads
    ensures KeepsRole(s.(leads := HandleUpdate(s, update).leads), HandleUpdate(s, update))
    ensures !update.PeerMessage? ==> HandleUpdate(s, update).leads == s.leads
  {
    match update
    case BlockValid(id) => OnBlockValidKeepsRole(s, id);
    case BlockCommit(id, setting, now) => OnBlockCommitKeepsRole(s, id, setting, now);
    case _ =>
  }

  lemma {:induction false} SendAllKeepsRole(s: Node, messages: seq<Message>)
    ensures KeepsRole(s, SendAll(s, messages))
  {
    SendingIsNeutral(s, messages);
  }

  lemma StoreKeepsRole(s: Node, ops: seq<FileOp>)
    requires forall i :: 0 <= i < |ops| ==> ops[i].name != AppliedFile
    ensures KeepsRole(s, WriteAll(s, ops))
  {
    RecordIsNeutral(s.trace, ops);
  }

  lemma {:induction false} DeliverAllKeepsRole(s: Node, entries: seq<Entry>, now: nat)
    ensures KeepsRole(s, DeliverAll(s, entries, now))
    decreases |entries|
  {
    if entries != [] && s.status.Running? {
      DeliverOneKeepsRole(s, entries[0], now);
      DeliverAllKeepsRole(DeliverOne(s, entries[0], now), entries[1..], now);
    }
  }

  lemma DeliverOneKeepsRole(s: Node, e: Entry, now: nat)
    ensures KeepsRole(s, DeliverOne(s, e, now))
  {
    var s1 := Do(s, Deliver(e));
    assert KeepsRole(s, s1);
    if e.payload.Conf? {
      AdoptKeepsRole(s1, ApplyConfChange(s1.self, s1.peers, e.payload.change), now);
    }
  }

  lemma AdoptKeepsRole(s: Node, applied: Applied, now: nat)
    ensures KeepsRole(s, Adopt(s, applied, now))
  {
  }

  lemma CommitNextKeepsRole(s: Node)
    ensures KeepsRole(s, CommitNext(s))
  {
    if NextCommittable(s.queue).Some? {
      var id := NextCommittable(s.queue).value;
      var s1 := if s.leader == Some(Proposing(id))
                then Do(s.(leader := Some(LeaderState.Committing(id))), Commit(id)) else s;
      assert KeepsRole(s, s1);
    }
  }

  lemma ReadyPutsInRole(s: Node, r: Ready)
    requires Led(s)
    ensures InRole(ProcessReady(s, r))
  {
    var s0 := s.(readyRole := s.leads);
    if s.leads {
      SendAllKeepsRole(StepUp(s0, r.now), r.messages);
    }
    var s1 := PrepareReady(s, r);
    assert Led(s1) && s1.leads == s1.readyRole && (s1.leads ==> s1.leader.Some?);
    if s1.status.Running? {
      StoringPutsInRole(s1, r);
    }
  }

  lemma StoringPutsInRole(s: Node, r: Ready)
    requires Led(s) && s.leads == s.readyRole && (s.leads ==> s.leader.Some?)
    ensures InRole(StoreReady(s, r))
  {
    var s2 := Install(s, r.snapshot);
    if r.snapshot.Some? {
      SnapshotSparesApplied(s.disk, r.snapshot.value);
      StoreKeepsRole(s, ApplySnapshotPlan(s.disk, r.snapshot.value).ops);
    }
    assert KeepsRole(s, s2);
    if s2.status.Running? {
      var s3 := WriteAll(s2, AppendPlan(r.entries).ops);
      StoreKeepsRole(s2, AppendPlan(r.entries).ops);
      if r.hs.Some? {
        StoreKeepsRole(s3, [SetHardStateOp(r.hs.value)]);
      }
      FinishPutsInRole(Persist(s2, r), r);
    }
  }

  lemma FinishPutsInRole(s: Node, r: Ready)
    requires Led(s) && s.leads == s.readyRole && (s.leads ==> s.leader.Some?)
    ensures InRole(FinishReady(s, r))
  {
    var s1 := if s.leads then s else SendAll(StepDown(s), r.messages);
    if !s.leads {
      SendAllKeepsRole(StepDown(s), r.messages);
    }
    var s2 := DeliverAll(s1, r.committed, r.now);
    DeliverAllKeepsRole(s1, r.committed, r.now);
    CommitNextKeepsRole(s2);
  }

  lemma UpdatedRole(s: Node, turn: Turn)
    requires InRole(s)
    ensures var s1 := AfterUpdate(s, turn);
            && Led(s1) && s1.readyRole == s.readyRole && s1.leader.Some? == s.leader.Some?
            && (s1.status.Running? ==> s.status.Running?)
  {
    if s.status.Running? && turn.update.Some? {
      UpdateKeepsRole(s, turn.update.value);
    } else {
      assert AfterUpdate(s, turn) == s;
    }
  }

  lemma TickedRole(s: Node, turn: Turn)
    requires Led(s)
    ensures var s2 := if s.status.Running? && turn.tick.Some? then Tick(s, turn.tick.value) else s;
            && Led(s2) && s2.readyRole == s.readyRole && s2.leader.Some? == s.leader.Some?
            && (s2.status.Running? ==> s.status.Running?)
  {
  }

  lemma TakeStaysInRole(s: Node, turn: Turn)
    requires InRole(s) && RoleReported(s, turn)
    ensures InRole(Take(s, turn))
  {
    UpdatedRole(s, turn);
    TickedRole(AfterUpdate(s, turn), turn);
    var s2 := AfterTick(s, turn);
    if s2.status.Running? && turn.ready.Some? {
      ReadyPutsInRole(s2, turn.ready.value);
    }
  }

  ghost predicate RolesReported(s: Node, turns: seq<Turn>) {
    turns != [] ==>
      && RolesReported(s, turns[..|turns| - 1])
      && RoleReported(Run(s, turns[..|turns| - 1]), turns[|turns| - 1])
  }

  /** At the head of every turn the node has a leader state exactly when Raft's role is leader, and
      every proposal, of a block or of a membership change, has been made in that role. */
  lemma {:induction false} ProposesOnlyAsLeader(self: PeerId, period: nat, setting: seq<PeerId>, disk: Directory,
                                                turns: seq<Turn>)
    requires RolesReported(Boot(self, period, setting, disk), turns)
    ensures InRole(Run(Boot(self, period, setting, disk), turns))
  {
    if turns != [] {
      ProposesOnlyAsLeader(self, period, setting, disk, turns[..|turns| - 1]);
      TakeStaysInRole(Run(Boot(self, period, setting, disk), turns[..|turns| - 1]), turns[|turns| - 1]);
    }
  }
}
