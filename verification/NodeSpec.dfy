/** The consensus node as a state machine: what every handler does to its state, to the disk and to
    the outside world. What the Raft library, the validator and the clock contribute to a step is part
    of the step's input. */
module NodeSpec {
  import opened Types
  import opened Files
  import opened FsStorages
  import opened BlockQueues
  import opened Membership

  datatype LeaderState =
    | Building(since: nat)
    | Publishing(id: BlockId)
    | Validating(id: BlockId)
    | Proposing(id: BlockId)
    | Committing(id: BlockId)
    | ChangingConfig

  datatype FollowerState = Idle | Committing(id: BlockId)

  // Stopped: the engine loop ended. Panicked: so did the process.
  datatype Status = Running | Stopped | Panicked

  // The atomic actions of a node. A crash can fall between any two of them.
  datatype Action =
    | Validated(id: BlockId)                              // BlockValid received
    | CheckBlocks(id: BlockId)                            // service calls
    | Initialize
    | Finalize(id: BlockId)
    | Cancel
    | Commit(id: BlockId)
    | Send(peer: PeerBytes, message: seq<byte>)
    | Propose(id: BlockId, asLeader: bool)                // calls into Raft
    | ProposeConfChange(change: ConfChange, asLeader: bool)
    | Deliver(entry: Entry)                               // committed entry handed over by Raft
    | Pop(id: BlockId, index: nat)                        // front of the commit queue removed
    | Disk(op: FileOp)

  // The past of a node, latest action outermost.
  datatype Trace = Start | Then(before: Trace, action: Action)

  datatype Node = Node(
    self: PeerId, period: nat,
    leader: Option<LeaderState>, follower: Option<FollowerState>,
    queue: Queue, peers: Peers,
    leads: bool,          // Raft's own role
    readyRole: bool,      // that role when `ready` was last called
    disk: Directory, trace: Trace, status: Status)

  // A node as started on a disk: the engine knows nothing of its earlier lives but the files.
  function Boot(self: PeerId, period: nat, setting: seq<PeerId>, disk: Directory): Node {
    Node(self, period, None, Some(Idle), EMPTY_QUEUE, PeersOf(setting), false, false, disk, Start, Running)
  }

  function Do(s: Node, action: Action): Node {
    s.(trace := Then(s.trace, action))
  }

  function Record(t: Trace, ops: seq<FileOp>): Trace {
    if ops == [] then t else Then(Record(t, ops[..|ops| - 1]), Disk(ops[|ops| - 1]))
  }

  function WriteAll(s: Node, ops: seq<FileOp>): Node {
    s.(disk := ApplyOps(s.disk, ops), trace := Record(s.trace, ops))
  }

  function Mark(s: Node, index: nat): Node {
    s.(disk := ApplyOp(s.disk, SetAppliedOp(index)), trace := Then(s.trace, Disk(SetAppliedOp(index))))
  }

  function Halt(s: Node, status: Status): Node {
    s.(status := status)
  }

  // Updates

  function OnBlockNew(s: Node, block: Block): Node {
    var s1 := if s.leader == Some(Publishing(block.id)) then s.(leader := Some(Validating(block.id))) else s;
    Do(s1.(queue := WithBlock(s1.queue, block)), CheckBlocks(block.id))
  }

  function OnBlockValid(s: Node, id: BlockId): Node {
    var s1 := Do(s.(queue := WithValid(s.queue, id)), Validated(id));
    if s.leader == Some(Publishing(id)) || s.leader == Some(Validating(id))
    then Do(s1, Propose(id, s1.leads)).(leader := Some(Proposing(id)))
    else s1
  }

  // The front of the queue is popped and its index marked as applied.
  function FinishBlock(s: Node): Node {
    if s.queue.commits == [] then Halt(s, Panicked)
    else
      var (id, index) := s.queue.commits[0];
      Mark(Do(s.(queue := WithoutFront(s.queue)), Pop(id, index)), index)
  }

  // `setting` is the peers setting on chain; None when it cannot be read, which panics.
  function OnBlockCommit(s: Node, id: BlockId, setting: Option<set<PeerBytes>>, now: nat): Node {
    var s1 := if s.leader == Some(LeaderState.Committing(id)) then LeaderCommitted(s, setting, now) else s;
    if s1.status.Running? && s1.follower == Some(FollowerState.Committing(id))
    then FollowerCommitted(s1) else s1
  }

  function LeaderCommitted(s: Node, setting: Option<set<PeerBytes>>, now: nat): Node {
    var s1 := FinishBlock(s);
    if s1.status.Running?
    then MoveOn(s1, if setting.Some? then Some(CheckForConfChange(s1.peers, setting.value)) else None, now)
    else s1
  }

  // The block on chain may have changed the membership; if not, the leader builds the next block.
  function MoveOn(s: Node, check: Option<Check>, now: nat): Node {
    match check
    case None => Halt(s, Panicked)
    case Some(TooManyChanges) => Halt(s, Panicked)
    case Some(ShortPeer) => Halt(s, Panicked)
    case Some(Change(change)) => Do(s.(leader := Some(ChangingConfig)), ProposeConfChange(change, s.leads))
    case Some(NoChange) => Do(s.(leader := Some(Building(now))), Initialize)
  }

  function FollowerCommitted(s: Node): Node {
    var s1 := FinishBlock(s);
    if s1.status.Running? then s1.(follower := Some(Idle)) else s1
  }

  datatype Update =
    | BlockNew(block: Block)
    | BlockValid(id: BlockId)
    | BlockCommit(id: BlockId, setting: Option<set<PeerBytes>>, now: nat)
    | PeerMessage(leads: Option<bool>)  // Raft's role after stepping the message; None if it is no message
    | Shutdown
    | Unhandled

  function HandleUpdate(s: Node, update: Update): Node {
    match update
    case BlockNew(block) => OnBlockNew(s, block)
    case BlockValid(id) => OnBlockValid(s, id)
    case BlockCommit(id, setting, now) => OnBlockCommit(s, id, setting, now)
    case PeerMessage(leads) => if leads.Some? then s.(leads := leads.value) else Halt(s, Panicked)
    case Shutdown => Halt(s, Stopped)
    case Unhandled => s
  }

  // Ticks

  datatype ServiceAnswer<+T> = Answered(value: T) | BlockNotReady | ServiceFailed

  // Raft's role after the tick, the time, and the answers of summarize_block and finalize_block.
  datatype TickInput = TickInput(leads: bool, now: nat, summary: ServiceAnswer<()>, final: ServiceAnswer<BlockId>)

  function Tick(s: Node, t: TickInput): Node {
    CheckPublish(s.(leads := t.leads), t)
  }

  function CheckPublish(s: Node, t: TickInput): Node {
    if s.leader.Some? && s.leader.value.Building? && t.now >= s.leader.value.since + s.period then
      match t.summary
      case BlockNotReady => s
      case ServiceFailed => Halt(s, Panicked)
      case Answered(_) =>
        match t.final
        case BlockNotReady => s
        case ServiceFailed => Halt(s, Panicked)
        case Answered(id) => Do(s, Finalize(id)).(leader := Some(Publishing(id)))
    else s
  }

  // Ready

  // What the validator answers when asked to send a message.
  datatype SendAnswer = Sent | Disconnected | SendFailed

  datatype Message = Message(to: u64, bytes: seq<byte>, answer: SendAnswer)

  // What `ready` returns; no snapshot is an empty one, no committed entries are an empty list.
  datatype Ready = Ready(
    messages: seq<Message>, snapshot: Option<Snapshot>, entries: seq<Entry>, hs: Option<HardState>,
    committed: seq<Entry>, now: nat)

  function SendAll(s: Node, messages: seq<Message>): Node {
    if messages == [] then s
    else
      var s1 := SendAll(s, messages[..|messages| - 1]);
      if s1.status.Running? then SendOne(s1, messages[|messages| - 1]) else s1
  }

  // Messages to unknown peers are dropped, and a peer may be disconnected; other failures panic.
  function SendOne(s: Node, m: Message): Node {
    if m.to !in s.peers then s
    else
      var s1 := Do(s, Send(s.peers[m.to], m.bytes));
      if m.answer.SendFailed? then Halt(s1, Panicked) else s1
  }

  function StepUp(s: Node, now: nat): Node {
    if s.leader.Some? then s
    else if s.follower.Some? && s.follower.value.Committing?
    then s.(leader := Some(LeaderState.Committing(s.follower.value.id)), follower := None)
    else Do(s.(leader := Some(Building(now)), follower := None), Initialize)
  }

  function StepDown(s: Node): Node {
    match s.leader
    case None => s
    case Some(Building(_)) => Do(s, Cancel).(leader := None, follower := OrIdle(s.follower))
    case Some(Committing(id)) => s.(leader := None, follower := Some(FollowerState.Committing(id)))
    case Some(_) => s.(leader := None, follower := OrIdle(s.follower))
  }

  function OrIdle(f: Option<FollowerState>): Option<FollowerState> {
    if f.None? then Some(Idle) else f
  }

  function Install(s: Node, snapshot: Option<Snapshot>): Node {
    if snapshot.None? then s
    else
      var plan := ApplySnapshotPlan(s.disk, snapshot.value);
      var s1 := WriteAll(s, plan.ops);
      if plan.answer.Ok? then s1 else Halt(s1, Panicked)
  }

  function Persist(s: Node, r: Ready): Node {
    var s1 := WriteAll(s, AppendPlan(r.entries).ops);
    if r.hs.Some? then WriteAll(s1, [SetHardStateOp(r.hs.value)]) else s1
  }

  function DeliverOne(s: Node, e: Entry, now: nat): Node {
    var s1 := Do(s, Deliver(e));
    match e.payload
    case Empty => s1
    case Normal(id) => s1.(queue := WithCommit(s1.queue, id, e.index))
    case Conf(change) => if e.term == 1 then s1 else Reconfigure(s1, change, now)
    case Garbled => if e.term == 1 then s1 else Halt(s1, Panicked)
  }

  function Reconfigure(s: Node, change: ConfChange, now: nat): Node {
    Adopt(s, ApplyConfChange(s.self, s.peers, change), now)
  }

  // A leader that was waiting for the change goes back to building blocks.
  function Adopt(s: Node, applied: Applied, now: nat): Node {
    match applied
    case Leave => Halt(s, Stopped)
    case UnknownNode => Halt(s, Panicked)
    case Joined(peers) =>
      if s.leader == Some(ChangingConfig) then Resume(s.(peers := peers), now) else s.(peers := peers)
  }

  function Resume(s: Node, now: nat): Node {
    Do(s.(leader := Some(Building(now))), Initialize)
  }

  function DeliverAll(s: Node, entries: seq<Entry>, now: nat): Node
    decreases |entries|
  {
    if entries == [] || !s.status.Running? then s
    else DeliverAll(DeliverOne(s, entries[0], now), entries[1..], now)
  }

  function CommitNext(s: Node): Node {
    match NextCommittable(s.queue)
    case None => s
    case Some(id) => CommitBlock(s, id)
  }

  function CommitBlock(s: Node, id: BlockId): Node {
    var s1 := if s.leader == Some(Proposing(id))
              then Do(s.(leader := Some(LeaderState.Committing(id))), Commit(id)) else s;
    if s1.follower == Some(Idle)
    then Do(s1.(follower := Some(FollowerState.Committing(id))), Commit(id)) else s1
  }

  // process_ready in its parts: a leader's role and messages, the disk, and what Raft has committed.

  function PrepareReady(s: Node, r: Ready): Node {
    var s0 := s.(readyRole := s.leads);
    if s.leads then SendAll(StepUp(s0, r.now), r.messages) else s0
  }

  function FinishReady(s: Node, r: Ready): Node {
    var s1 := if s.leads then s else SendAll(StepDown(s), r.messages);
    var s2 := DeliverAll(s1, r.committed, r.now);
    if s2.status.Running? then CommitNext(s2) else s2
  }

  function StoreReady(s: Node, r: Ready): Node {
    var s1 := Install(s, r.snapshot);
    if s1.status.Running? then FinishReady(Persist(s1, r), r) else s1
  }

  function ProcessReady(s: Node, r: Ready): Node {
    var s1 := PrepareReady(s, r);
    if s1.status.Running? then StoreReady(s1, r) else s1
  }

  // One turn of the engine loop: an update unless the wait timed out, a tick if it is time for one,
  // and process_ready; ready is None when has_ready says no.
  datatype Turn = Turn(update: Option<Update>, tick: Option<TickInput>, ready: Option<Ready>)

  function AfterUpdate(s: Node, turn: Turn): Node {
    if s.status.Running? && turn.update.Some? then HandleUpdate(s, turn.update.value) else s
  }

  function AfterTick(s: Node, turn: Turn): Node {
    var s1 := AfterUpdate(s, turn);
    if s1.status.Running? && turn.tick.Some? then Tick(s1, turn.tick.value) else s1
  }

  function Take(s: Node, turn: Turn): Node {
    var s1 := AfterTick(s, turn);
    if s1.status.Running? && turn.ready.Some? then ProcessReady(s1, turn.ready.value) else s1
  }

  function Run(s: Node, turns: seq<Turn>): Node {
    if turns == [] then s else Take(Run(s, turns[..|turns| - 1]), turns[|turns| - 1])
  }

  // Crash points

  // The trace p is the trace t or one of its earlier stages.
  predicate Before(p: Trace, t: Trace) {
    p == t || (t.Then? && Before(p, t.before))
  }

  // How many file operations the trace has.
  function DiskOps(t: Trace): nat {
    if t.Start? then 0 else DiskOps(t.before) + (if t.action.Disk? then 1 else 0)
  }

  // The disk a crash at this point of the trace leaves.
  function DiskAfter(boot: Directory, t: Trace): Directory {
    match t
    case Start => boot
    case Then(before, Disk(op)) => ApplyOp(DiskAfter(boot, before), op)
    case Then(before, _) => DiskAfter(boot, before)
  }
}
