/** The consensus node as it is programmed, proved to take exactly the steps of NodeSpec. */
module Nodes {
  import opened Types
  import opened Files
  import opened FsStorages
  import opened BlockQueues
  import opened Membership
  import opened NodeSpec

  // Traces only grow

  lemma {:induction false} BeforeChains(p: Trace, q: Trace, t: Trace)
    requires Before(p, q) && Before(q, t)
    ensures Before(p, t)
  {
    if q != t {
      BeforeChains(p, q, t.before);
    }
  }

  lemma {:induction false} RecordGrows(t: Trace, ops: seq<FileOp>, k: nat)
    requires k <= |ops|
    ensures Before(t, Record(t, ops[..k])) && Before(Record(t, ops[..k]), Record(t, ops))
  {
    if ops == [] {
    } else if k == |ops| {
      assert ops[..k] == ops;
      RecordGrows(t, ops[..k - 1], k - 1);
      assert ops[..k - 1][..k - 1] == ops[..k - 1];
    } else {
      RecordGrows(t, ops[..|ops| - 1], k);
      assert ops[..|ops| - 1][..k] == ops[..k];
    }
  }

  lemma {:induction false} SendAllGrows(s: Node, messages: seq<Message>)
    ensures Before(s.trace, SendAll(s, messages).trace)
  {
    if messages != [] {
      var n := |messages| - 1;
      SendAllGrows(s, messages[..n]);
      BeforeChains(s.trace, SendAll(s, messages[..n]).trace, SendAll(s, messages).trace);
    }
  }

  lemma {:induction false} SendingStopped(s: Node, messages: seq<Message>, k: nat)
    requires k <= |messages| && !SendAll(s, messages[..k]).status.Running?
    ensures SendAll(s, messages) == SendAll(s, messages[..k])
  {
    if k < |messages| {
      var n := |messages| - 1;
      assert messages[..n][..k] == messages[..k];
      SendingStopped(s, messages[..n], k);
    } else {
      assert messages[..k] == messages;
    }
  }

  lemma {:induction false} DeliverAllGrows(s: Node, entries: seq<Entry>, now: nat)
    ensures Before(s.trace, DeliverAll(s, entries, now).trace)
    decreases |entries|
  {
    if entries != [] && s.status.Running? {
      var s1 := DeliverOne(s, entries[0], now);
      DeliverAllGrows(s1, entries[1..], now);
      DeliverOneGrows(s, entries[0], now);
      BeforeChains(s.trace, s1.trace, DeliverAll(s, entries, now).trace);
    }
  }

  lemma DeliverOneGrows(s: Node, e: Entry, now: nat)
    ensures Before(s.trace, DeliverOne(s, e, now).trace)
  {
    BeforeChains(s.trace, Then(s.trace, Deliver(e)), DeliverOne(s, e, now).trace);
  }

  lemma CommitNextGrows(s: Node)
    ensures Before(s.trace, CommitNext(s).trace)
  {
    if NextCommittable(s.queue).Some? {
      var id := NextCommittable(s.queue).value;
      var s1 := if s.leader == Some(Proposing(id))
                then Do(s.(leader := Some(LeaderState.Committing(id))), Commit(id)) else s;
      BeforeChains(s.trace, s1.trace, CommitNext(s).trace);
    }
  }

  lemma StepDownGrows(s: Node)
    ensures Before(s.trace, StepDown(s).trace)
  {
  }

  lemma FinishReadyGrows(s: Node, r: Ready)
    ensures Before(s.trace, FinishReady(s, r).trace)
  {
    var s0 := if s.leads then s else StepDown(s);
    var s1 := if s.leads then s else SendAll(s0, r.messages);
    var s2 := DeliverAll(s1, r.committed, r.now);
    StepDownGrows(s);
    SendAllGrows(s0, r.messages);
    BeforeChains(s.trace, s0.trace, s1.trace);
    DeliverAllGrows(s1, r.committed, r.now);
    BeforeChains(s.trace, s1.trace, s2.trace);
    CommitNextGrows(s2);
    BeforeChains(s.trace, s2.trace, CommitNext(s2).trace);
  }

  lemma HardStateGrows(s: Node, hs: Option<HardState>)
    ensures var s' := if hs.Some? then WriteAll(s, [SetHardStateOp(hs.value)]) else s;
            Before(s.trace, s'.trace)
  {
    if hs.Some? {
      RecordGrows(s.trace, [SetHardStateOp(hs.value)], 0);
      assert [SetHardStateOp(hs.value)][..0] == [];
    }
  }

  lemma PersistGrows(s: Node, r: Ready)
    ensures Before(s.trace, Persist(s, r).trace)
  {
    var ops := AppendPlan(r.entries).ops;
    var s1 := WriteAll(s, ops);
    RecordGrows(s.trace, ops, |ops|);
    assert ops[..|ops|] == ops;
    HardStateGrows(s1, r.hs);
    BeforeChains(s.trace, s1.trace, Persist(s, r).trace);
  }

  lemma PrepareReadyGrows(s: Node, r: Ready)
    ensures Before(s.trace, PrepareReady(s, r).trace)
  {
    if s.leads {
      var s1 := StepUp(s.(readyRole := s.leads), r.now);
      SendAllGrows(s1, r.messages);
      BeforeChains(s.trace, s1.trace, PrepareReady(s, r).trace);
    }
  }

  lemma InstallGrows(s: Node, snapshot: Option<Snapshot>)
    ensures Before(s.trace, Install(s, snapshot).trace)
  {
    if snapshot.Some? {
      var ops := ApplySnapshotPlan(s.disk, snapshot.value).ops;
      RecordGrows(s.trace, ops, |ops|);
      assert ops[..|ops|] == ops;
    }
  }

  // The stages of process_ready from the disk on, in order.
  lemma StoringGrows(s: Node, r: Ready)
    ensures var s2 := Install(s, r.snapshot);
            var s3, end := Persist(s2, r), StoreReady(s, r);
            && Before(s.trace, s2.trace) && Before(s2.trace, end.trace)
            && (s2.status.Running? ==> Before(s3.trace, end.trace))
  {
    var s2 := Install(s, r.snapshot);
    var s3 := Persist(s2, r);
    InstallGrows(s, r.snapshot);
    PersistGrows(s2, r);
    FinishReadyGrows(s3, r);
    BeforeChains(s2.trace, s3.trace, FinishReady(s3, r).trace);
  }

  // A crash while popping and marking a block falls inside the handling of its confirmation.
  lemma PopIsInside(s: Node)
    requires s.queue.commits != [] && s.status.Running?
    ensures var t := Then(s.trace, Pop(s.queue.commits[0].0, s.queue.commits[0].1));
            Before(s.trace, t) && Before(t, FinishBlock(s).trace)
  {
  }

  lemma MoveOnGrows(s: Node, check: Option<Check>, now: nat)
    ensures Before(s.trace, MoveOn(s, check, now).trace)
  {
  }

  lemma LeaderCommittedGrows(s: Node, setting: Option<set<PeerBytes>>, now: nat)
    ensures Before(FinishBlock(s).trace, LeaderCommitted(s, setting, now).trace)
  {
    var s1 := FinishBlock(s);
    MoveOnGrows(s1, if setting.Some? then Some(CheckForConfChange(s1.peers, setting.value)) else None, now);
  }

  // The state between the two halves of on_block_commit.
  function AfterLeader(s: Node, id: BlockId, setting: Option<set<PeerBytes>>, now: nat): Node {
    if s.leader == Some(LeaderState.Committing(id)) then LeaderCommitted(s, setting, now) else s
  }

  lemma AfterLeaderGrows(s: Node, id: BlockId, setting: Option<set<PeerBytes>>, now: nat)
    ensures var s1 := AfterLeader(s, id, setting, now);
            Before(s.trace, s1.trace) && Before(s1.trace, OnBlockCommit(s, id, setting, now).trace)
  {
    var s1 := AfterLeader(s, id, setting, now);
    FinishBlockGrows(s);
    LeaderCommittedGrows(s, setting, now);
    BeforeChains(s.trace, FinishBlock(s).trace, LeaderCommitted(s, setting, now).trace);
    FinishBlockGrows(s1);
    assert FollowerCommitted(s1).trace == FinishBlock(s1).trace;
  }

  lemma FinishBlockGrows(s: Node)
    ensures Before(s.trace, FinishBlock(s).trace)
  {
    if s.queue.commits != [] {
      var t := Then(s.trace, Pop(s.queue.commits[0].0, s.queue.commits[0].1));
      BeforeChains(s.trace, t, FinishBlock(s).trace);
    }
  }

  lemma {:induction false} RecordWrites(boot: Directory, t: Trace, ops: seq<FileOp>)
    ensures DiskAfter(boot, Record(t, ops)) == ApplyOps(DiskAfter(boot, t), ops)
    ensures DiskOps(Record(t, ops)) == DiskOps(t) + |ops|
  {
    if ops != [] {
      RecordWrites(boot, t, ops[..|ops| - 1]);
    }
  }

  /** Every handler either does what NodeSpec says, or the file system failed under it: then the node
      panics with its trace at a crash point of that step. */
  class SawtoothRaftNode {
    const self: PeerId
    const period: nat
    var leader: Option<LeaderState>
    var follower: Option<FollowerState>
    const queue: BlockQueue
    var peers: Peers
    var leads: bool               // raw_node.raft.state == Leader
    const store: FsStorage        // raw_node.raft.mut_store()
    var status: Status
    ghost var readyRole: bool
    ghost var trace: Trace
    ghost const boot: Directory
    ghost const stamina: nat

    ghost function View(): Node
      reads this, queue, store
    {
      NodeSpec.Node(self, period, leader, follower, queue.View(), peers, leads, readyRole, store.files, trace, status)
    }

    // The disk is what the trace made of it, and the file system has failed only if it had to.
    ghost predicate Valid()
      reads this, store
    {
      && store.Valid()
      && store.files == DiskAfter(boot, trace)
      && store.healthy + DiskOps(trace) == stamina
    }

    constructor (self: PeerId, period: nat, setting: seq<PeerId>, store: FsStorage)
      requires store.Valid()
      ensures Valid() && this.store == store && fresh(queue)
      ensures View() == Boot(self, period, setting, store.files)
    {
      this.self, this.period, this.store := self, period, store;
      leader, follower := None, Some(Idle);
      queue := new BlockQueue();
      peers := PeersOf(setting);
      leads, readyRole, trace, status := false, false, Start, Running;
      boot, stamina := store.files, store.healthy;
    }

    method OnBlockNew(block: Block)
      requires Valid()
      modifies this, queue
      ensures Valid() && View() == NodeSpec.OnBlockNew(old(View()), block)
    {
      if leader == Some(Publishing(block.id)) {
        leader := Some(Validating(block.id));
      }
      queue.BlockNew(block);
      trace := Then(trace, CheckBlocks(block.id));
    }

    method OnBlockValid(id: BlockId)
      requires Valid()
      modifies this, queue
      ensures Valid() && View() == NodeSpec.OnBlockValid(old(View()), id)
    {
      trace := Then(trace, Validated(id));
      queue.BlockValid(id);
      if leader == Some(Publishing(id)) || leader == Some(Validating(id)) {
        trace := Then(trace, Propose(id, leads));
        leader := Some(Proposing(id));
      }
    }

    // Pop the front of the queue and mark its index as applied.
    method FinishBlock() returns (ghost crashed: bool)
      requires Valid() && status.Running?
      modifies this, queue, store
      ensures Valid() && leader == old(leader) && follower == old(follower)
      ensures !crashed ==> View() == NodeSpec.FinishBlock(old(View()))
      ensures crashed ==> status.Panicked? && store.healthy == 0
      ensures crashed ==> Before(old(trace), trace) && Before(trace, NodeSpec.FinishBlock(old(View())).trace)
    {
      crashed := false;
      ghost var commits := queue.commits;
      if commits != [] {
        PopIsInside(View());
      }
      var entry := queue.BlockCommitted();
      if entry.None? {
        status := Panicked;
        return;
      }
      trace := Then(trace, Pop(commits[0].0, commits[0].1));
      var applied := store.SetApplied(entry.value);
      if applied.Err? {
        status := Panicked;
        crashed := true;
      } else {
        trace := Then(trace, Disk(SetAppliedOp(entry.value)));
      }
    }

    method MoveOn(check: Option<Check>, now: nat)
      requires Valid()
      modifies this
      ensures Valid() && View() == NodeSpec.MoveOn(old(View()), check, now)
    {
      match check
      case None => status := Panicked;
      case Some(TooManyChanges) => status := Panicked;
      case Some(ShortPeer) => status := Panicked;
      case Some(Change(change)) =>
        leader := Some(ChangingConfig);
        trace := Then(trace, ProposeConfChange(change, leads));
      case Some(NoChange) =>
        leader := Some(Building(now));
        trace := Then(trace, Initialize);
    }

    method LeaderCommitted(setting: Option<set<PeerBytes>>, now: nat) returns (ghost crashed: bool)
      requires Valid() && status.Running?
      modifies this, queue, store
      ensures Valid()
      ensures !crashed ==> View() == NodeSpec.LeaderCommitted(old(View()), setting, now)
      ensures crashed ==> status.Panicked? && store.healthy == 0
      ensures crashed ==> Before(old(trace), trace) &&
                          Before(trace, NodeSpec.LeaderCommitted(old(View()), setting, now).trace)
    {
      ghost var s := View();
      LeaderCommittedGrows(s, setting, now);
      crashed := FinishBlock();
      if crashed {
        BeforeChains(trace, NodeSpec.FinishBlock(s).trace, NodeSpec.LeaderCommitted(s, setting, now).trace);
      }
      if status.Running? {
        MoveOn(if setting.Some? then Some(CheckForConfChange(peers, setting.value)) else None, now);
      }
    }

    method FollowerCommitted() returns (ghost crashed: bool)
      requires Valid() && status.Running?
      modifies this, queue, store
      ensures Valid()
      ensures !crashed ==> View() == NodeSpec.FollowerCommitted(old(View()))
      ensures crashed ==> status.Panicked? && store.healthy == 0
      ensures crashed ==> Before(old(trace), trace) && Before(trace, NodeSpec.FollowerCommitted(old(View())).trace)
    {
      crashed := FinishBlock();
      if status.Running? {
        follower := Some(Idle);
      }
    }

    method OnBlockCommit(id: BlockId, setting: Option<set<PeerBytes>>, now: nat) returns (ghost crashed: bool)
      requires Valid() && status.Running?
      modifies this, queue, store
      ensures Valid()
      ensures !crashed ==> View() == NodeSpec.OnBlockCommit(old(View()), id, setting, now)
      ensures crashed ==> status.Panicked? && store.healthy == 0
      ensures crashed ==> Before(old(trace), trace) &&
                          Before(trace, NodeSpec.OnBlockCommit(old(View()), id, setting, now).trace)
    {
      ghost var s := View();
      ghost var s1 := AfterLeader(s, id, setting, now);
      AfterLeaderGrows(s, id, setting, now);
      crashed := false;
      if leader == Some(LeaderState.Committing(id)) {
        crashed := LeaderCommitted(setting, now);
        if crashed {
          BeforeChains(trace, s1.trace, NodeSpec.OnBlockCommit(s, id, setting, now).trace);
        }
      }
      if status.Running? && follower == Some(FollowerState.Committing(id)) {
        crashed := FollowerCommitted();
        if crashed {
          BeforeChains(s.trace, s1.trace, trace);
        }
      }
    }

    // step may change Raft's role; its errors are only logged. Bytes that are no message panic.
    method OnPeerMessage(leadsNow: Option<bool>)
      requires Valid()
      modifies this
      ensures Valid() && View() == NodeSpec.HandleUpdate(old(View()), PeerMessage(leadsNow))
    {
      if leadsNow.Some? {
        leads := leadsNow.value;
      } else {
        status := Panicked;
      }
    }

    method Tick(t: TickInput)
      requires Valid()
      modifies this
      ensures Valid() && View() == NodeSpec.Tick(old(View()), t)
    {
      leads := t.leads;
      CheckPublish(t);
    }

    method CheckPublish(t: TickInput)
      requires Valid()
      modifies this
      ensures Valid() && View() == NodeSpec.CheckPublish(old(View()), t)
    {
      if leader.Some? && leader.value.Building? && t.now >= leader.value.since + period {
        match t.summary {
          case Answered(_) =>
          case BlockNotReady => return;
          case ServiceFailed =>
            status := Panicked;
            return;
        }
        match t.final {
          case Answered(id) =>
            leader := Some(Publishing(id));
            trace := Then(trace, Finalize(id));
          case BlockNotReady =>
          case ServiceFailed => status := Panicked;
        }
      }
    }

    method SendAll(messages: seq<Message>)
      requires Valid() && status.Running?
      modifies this`trace, this`status
      ensures Valid() && View() == NodeSpec.SendAll(old(View()), messages)
    {
      var k := 0;
      while k < |messages| && status.Running?
        invariant k <= |messages| && Valid()
        invariant View() == NodeSpec.SendAll(old(View()), messages[..k])
      {
        assert messages[..k + 1][..k] == messages[..k];
        SendMsg(messages[k]);
        k := k + 1;
      }
      if k < |messages| {
        SendingStopped(old(View()), messages, k);
      }
      assert messages[..|messages|] == messages;
    }

    method SendMsg(m: Message)
      requires Valid()
      modifies this`trace, this`status
      ensures Valid() && View() == SendOne(old(View()), m)
    {
      if m.to in peers {
        trace := Then(trace, Send(peers[m.to], m.bytes));
        match m.answer
        case Sent =>
        case Disconnected =>
        case SendFailed => status := Panicked;
      }
    }

    method StepUp(now: nat)
      requires Valid()
      modifies this
      ensures Valid() && View() == NodeSpec.StepUp(old(View()), now)
    {
      if leader.None? {
        if follower.Some? && follower.value.Committing? {
          leader := Some(LeaderState.Committing(follower.value.id));
        } else {
          leader := Some(Building(now));
          trace := Then(trace, Initialize);
        }
        follower := None;
      }
    }

    method StepDown()
      requires Valid()
      modifies this
      ensures Valid() && View() == NodeSpec.StepDown(old(View()))
    {
      if leader.Some? {
        match leader.value {
          case Building(_) => trace := Then(trace, Cancel);
          case Committing(id) => follower := Some(FollowerState.Committing(id));
          case _ =>
        }
        leader := None;
        if follower.None? {
          follower := Some(Idle);
        }
      }
    }

    // The trace after the store was asked for these operations and failed after `healthy` of them.
    ghost method Note(ops: seq<FileOp>, healthy: nat) returns (crashed: bool)
      requires store.Valid() && store.files == ApplyOps(DiskAfter(boot, trace), ops[..Performed(ops, healthy)])
      requires store.healthy == healthy - Performed(ops, healthy) && healthy + DiskOps(trace) == stamina
      modifies this`trace
      ensures Valid() && crashed == (healthy < |ops|) && (crashed ==> store.healthy == 0)
      ensures trace == Record(old(trace), ops[..Performed(ops, healthy)])
      ensures Before(old(trace), trace) && Before(trace, Record(old(trace), ops))
      ensures !crashed ==> trace == Record(old(trace), ops) && store.files == ApplyOps(DiskAfter(boot, old(trace)), ops)
    {
      var n := Performed(ops, healthy);
      RecordWrites(boot, trace, ops[..n]);
      RecordGrows(trace, ops, n);
      if n == |ops| {
        assert ops[..n] == ops;
      }
      crashed := healthy < |ops|;
      trace := Record(trace, ops[..n]);
    }

    method Install(snapshot: Option<Snapshot>) returns (ghost crashed: bool)
      requires Valid() && status.Running?
      modifies this, store
      ensures Valid()
      ensures !crashed ==> View() == NodeSpec.Install(old(View()), snapshot)
      ensures crashed ==> status.Panicked? && store.healthy == 0
      ensures crashed ==> Before(old(trace), trace) && Before(trace, NodeSpec.Install(old(View()), snapshot).trace)
    {
      crashed := false;
      if snapshot.Some? {
        ghost var plan, healthy := ApplySnapshotPlan(store.files, snapshot.value), store.healthy;
        var r := store.ApplySnapshot(snapshot.value);
        crashed := Note(plan.ops, healthy);
        if r.Err? {
          status := Panicked;
        }
      }
    }

    method Persist(r: Ready) returns (ghost crashed: bool)
      requires Valid() && status.Running?
      modifies this, store
      ensures Valid()
      ensures !crashed ==> View() == NodeSpec.Persist(old(View()), r)
      ensures crashed ==> status.Panicked? && store.healthy == 0
      ensures crashed ==> Before(old(trace), trace) && Before(trace, NodeSpec.Persist(old(View()), r).trace)
    {
      crashed := false;
      ghost var s, s1 := View(), WriteAll(View(), AppendPlan(r.entries).ops);
      HardStateGrows(s1, r.hs);
      if r.entries != [] {
        ghost var healthy := store.healthy;
        var appended := store.Append(r.entries);
        crashed := Note(AppendPlan(r.entries).ops, healthy);
        if appended.Err? {
          status := Panicked;
          BeforeChains(trace, s1.trace, NodeSpec.Persist(s, r).trace);
          return;
        }
      }
      assert View() == s1;
      if r.hs.Some? {
        ghost var healthy, ops := store.healthy, [SetHardStateOp(r.hs.value)];
        ApplySingle(store.files, ops[0]);
        assert ops[..Performed(ops, healthy)] == if healthy == 0 then [] else ops;
        var persisted := store.SetHardState(r.hs.value);
        crashed := Note(ops, healthy);
        if persisted.Err? {
          status := Panicked;
          RecordGrows(s.trace, AppendPlan(r.entries).ops, |AppendPlan(r.entries).ops|);
          BeforeChains(s.trace, s1.trace, trace);
        }
      }
    }

    method CommitBlock(id: BlockId)
      requires Valid()
      modifies this
      ensures Valid() && View() == NodeSpec.CommitBlock(old(View()), id)
    {
      if leader == Some(Proposing(id)) {
        leader := Some(LeaderState.Committing(id));
        trace := Then(trace, Commit(id));
      }
      if follower == Some(Idle) {
        follower := Some(FollowerState.Committing(id));
        trace := Then(trace, Commit(id));
      }
    }

    // apply_conf_change, and the leader resuming to build afterwards.
    method Reconfigure(change: ConfChange, now: nat)
      requires Valid() && status.Running?
      modifies this
      ensures Valid() && View() == NodeSpec.Reconfigure(old(View()), change, now)
    {
      match ApplyConfChange(self, peers, change)
      case Leave => status := Stopped;
      case UnknownNode => status := Panicked;
      case Joined(changed) =>
        peers := changed;
        if leader == Some(ChangingConfig) {
          leader := Some(Building(now));
          trace := Then(trace, Initialize);
        }
    }

    method DeliverOne(e: Entry, now: nat)
      requires Valid() && status.Running?
      modifies this, queue
      ensures Valid() && View() == NodeSpec.DeliverOne(old(View()), e, now)
    {
      trace := Then(trace, Deliver(e));
      match e.payload
      case Empty =>
      case Normal(id) => queue.AddBlockCommit(id, e.index);
      case Conf(change) =>
        if e.term != 1 {
          Reconfigure(change, now);
        }
      case Garbled =>
        if e.term != 1 {
          status := Panicked;
        }
    }

    method DeliverAll(entries: seq<Entry>, now: nat)
      requires Valid() && status.Running?
      modifies this, queue
      ensures Valid() && View() == NodeSpec.DeliverAll(old(View()), entries, now)
    {
      var k := 0;
      while k < |entries| && status.Running?
        invariant k <= |entries| && Valid()
        invariant NodeSpec.DeliverAll(View(), entries[k..], now) == NodeSpec.DeliverAll(old(View()), entries, now)
      {
        assert entries[k..][0] == entries[k] && entries[k..][1..] == entries[k + 1..];
        DeliverOne(entries[k], now);
        k := k + 1;
      }
    }

    method FinishReady(r: Ready)
      requires Valid() && status.Running?
      modifies this, queue
      ensures Valid() && View() == NodeSpec.FinishReady(old(View()), r)
    {
      if !leads {
        StepDown();
        SendAll(r.messages);
      }
      if status.Running? {
        DeliverAll(r.committed, r.now);
      }
      if status.Running? {
        var next := queue.GetNextCommittable();
        if next.Some? {
          CommitBlock(next.value);
        }
      }
    }

    // process_ready from the snapshot on.
    method StoreReady(r: Ready) returns (ghost crashed: bool)
      requires Valid() && status.Running?
      modifies this, queue, store
      ensures Valid()
      ensures !crashed ==> View() == NodeSpec.StoreReady(old(View()), r)
      ensures crashed ==> status.Panicked? && store.healthy == 0
      ensures crashed ==> Before(old(trace), trace) && Before(trace, NodeSpec.StoreReady(old(View()), r).trace)
    {
      ghost var s := View();
      ghost var s2 := NodeSpec.Install(s, r.snapshot);
      ghost var s3 := NodeSpec.Persist(s2, r);
      ghost var end := NodeSpec.StoreReady(s, r);
      StoringGrows(s, r);
      crashed := Install(r.snapshot);
      if crashed {
        BeforeChains(trace, s2.trace, end.trace);
      }
      if !status.Running? {
        return;
      }
      assert View() == s2;
      crashed := Persist(r);
      if crashed {
        BeforeChains(s.trace, s2.trace, trace);
        BeforeChains(trace, s3.trace, end.trace);
      }
      if status.Running? {
        FinishReady(r);
      }
    }

    // None stands for has_ready saying no. The node should shut down when it is no longer running.
    method ProcessReady(ready: Option<Ready>) returns (ghost crashed: bool)
      requires Valid() && status.Running?
      modifies this, queue, store
      ensures Valid()
      ensures !crashed ==>
                View() == if ready.None? then old(View()) else NodeSpec.ProcessReady(old(View()), ready.value)
      ensures crashed ==> status.Panicked? && store.healthy == 0 && ready.Some?
      ensures crashed ==> Before(old(trace), trace) &&
                          Before(trace, NodeSpec.ProcessReady(old(View()), ready.value).trace)
    {
      crashed := false;
      if ready.None? {
        return;
      }
      var r := ready.value;
      ghost var s := View();
      ghost var s1 := PrepareReady(s, r);
      readyRole := leads;
      if leads {
        StepUp(r.now);
        SendAll(r.messages);
      }
      assert View() == s1;
      if status.Running? {
        PrepareReadyGrows(s, r);
        crashed := StoreReady(r);
        if crashed {
          BeforeChains(s.trace, s1.trace, trace);
        }
      }
    }
  }
}
