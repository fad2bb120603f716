/** One call of process_ready: whom it sends to, what it writes and in which order, and when it panics. */
module Readies {
  import opened Types
  import opened Files
  import opened FsStorages
  import opened LogModel
  import opened BlockQueues
  import opened Membership
  import opened NodeSpec
  import opened Ledgers
  import opened NodeRuns
  import opened Durability
  import opened Effects
  import opened Deliveries
  import Nodes

  // Messages

  // Sending this message panics.
  predicate Fails(peers: Peers, m: Message) {
    m.to in peers && m.answer.SendFailed?
  }

  predicate SomeFails(peers: Peers, messages: seq<Message>) {
    exists i :: 0 <= i < |messages| && Fails(peers, messages[i])
  }

  // The messages a node gets to: up to and including the first that fails.
  function Tried(peers: Peers, messages: seq<Message>): (tried: seq<Message>)
    ensures tried <= messages
    ensures forall i :: 0 <= i < |tried| - 1 ==> !Fails(peers, tried[i])
    ensures |tried| < |messages| ==> tried != [] && Fails(peers, tried[|tried| - 1])
  {
    if messages == [] then []
    else if Fails(peers, messages[0]) then [messages[0]]
    else [messages[0]] + Tried(peers, messages[1..])
  }

  // Each message goes to the peer filed under its raft id; those to unknown ids go nowhere.
  function Sendings(peers: Peers, messages: seq<Message>): seq<Action> {
    if messages == [] then []
    else
      var m := messages[|messages| - 1];
      Sendings(peers, messages[..|messages| - 1]) + if m.to in peers then [Send(peers[m.to], m.bytes)] else []
  }

  // Only the last of these messages may fail.
  predicate FailsAtMostLast(peers: Peers, messages: seq<Message>) {
    forall i :: 0 <= i < |messages| - 1 ==> !Fails(peers, messages[i])
  }

  lemma {:induction false} TriedIsSent(s: Node, messages: seq<Message>)
    requires s.status.Running? && FailsAtMostLast(s.peers, messages)
    ensures SendAll(s, messages) ==
            s.(trace := After(s.trace, Sendings(s.peers, messages)),
               status := if SomeFails(s.peers, messages) then Panicked else Running)
  {
    if messages != [] {
      var n := |messages| - 1;
      var m := messages[n];
      TriedIsSent(s, messages[..n]);
      assert !SomeFails(s.peers, messages[..n]);
      assert SomeFails(s.peers, messages) <==> Fails(s.peers, m);
      if m.to in s.peers {
        AfterOneMore(s.trace, Sendings(s.peers, messages[..n]), Send(s.peers[m.to], m.bytes));
      } else {
        assert Sendings(s.peers, messages[..n]) + [] == Sendings(s.peers, messages[..n]);
      }
    }
  }

  /** Sending a list of messages sends, in order and up to the first that fails, each to the peer filed
      under its raft id, and nothing else; it panics if and only if one fails. */
  lemma {:induction false} MessagesAreSent(s: Node, messages: seq<Message>)
    requires s.status.Running?
    ensures SendAll(s, messages) ==
            s.(trace := After(s.trace, Sendings(s.peers, Tried(s.peers, messages))),
               status := if SomeFails(s.peers, messages) then Panicked else Running)
  {
    var tried := Tried(s.peers, messages);
    TriedIsSent(s, tried);
    assert tried == messages[..|tried|];
    if |tried| < |messages| {
      assert Fails(s.peers, messages[|tried| - 1]);
      assert SomeFails(s.peers, tried);
      Nodes.SendingStopped(s, messages, |tried|);
    } else {
      assert tried == messages;
    }
  }

  // The disk

  // The storage does not take the snapshot.
  predicate Refused(d: Directory, r: Ready) {
    r.snapshot.Some? && ApplySnapshotPlan(d, r.snapshot.value).answer.Err?
  }

  // What a ready writes: the snapshot, then the entries, then the hard state.
  function ReadyOps(d: Directory, r: Ready): seq<FileOp> {
    (if r.snapshot.Some? then ApplySnapshotPlan(d, r.snapshot.value).ops else [])
    + (if Refused(d, r) then [] else AppendPlan(r.entries).ops + HardStateOps(r))
  }

  function HardStateOps(r: Ready): seq<FileOp> {
    if r.hs.Some? then [SetHardStateOp(r.hs.value)] else []
  }

  lemma {:induction false} WrittenAfter(s: Node, ops: seq<FileOp>, more: seq<FileOp>)
    ensures WriteAll(WriteAll(s, ops), more) == WriteAll(s, ops + more)
    ensures WriteAll(s, ops).trace == After(s.trace, Writes(ops))
  {
    ApplyOpsConcat(s.disk, ops, more);
    RecordIsAfter(s.trace, ops);
    RecordIsAfter(Record(s.trace, ops), more);
    RecordIsAfter(s.trace, ops + more);
    AfterConcat(s.trace, Writes(ops), Writes(more));
    assert Writes(ops + more) == Writes(ops) + Writes(more);
  }

  lemma NothingWritten(s: Node)
    ensures WriteAll(s, []) == s
  {
  }

  // What Install and Persist make of a node.
  lemma StoredReady(s: Node, r: Ready)
    requires s.status.Running?
    ensures var s1 := Install(s, r.snapshot);
            (if s1.status.Running? then Persist(s1, r) else s1) ==
            WriteAll(s, ReadyOps(s.disk, r)).(status := if Refused(s.disk, r) then Panicked else Running)
  {
    var first := if r.snapshot.Some? then ApplySnapshotPlan(s.disk, r.snapshot.value).ops else [];
    NothingWritten(s);
    assert first + [] == first;
    if !Refused(s.disk, r) {
      var s1 := WriteAll(s, first);
      assert Install(s, r.snapshot) == s1;
      PersistedAs(s1, r);
      WrittenAfter(s, first, AppendPlan(r.entries).ops + HardStateOps(r));
    }
  }

  lemma PersistedAs(s: Node, r: Ready)
    ensures Persist(s, r) == WriteAll(s, AppendPlan(r.entries).ops + HardStateOps(r))
  {
    var ops := AppendPlan(r.entries).ops;
    WrittenAfter(s, ops, HardStateOps(r));
    NothingWritten(WriteAll(s, ops));
  }

  // The roles

  function Opening(s: Node): seq<Action> {
    if s.leader.None? && InFlight(s).None? then [Initialize] else []
  }

  function Closing(s: Node): seq<Action> {
    if IsBuilding(s) then [Cancel] else []
  }

  // The leader state of a node that Raft says is the leader.
  function LeaderIn(s: Node, now: nat): LeaderState {
    if s.leader.Some? then s.leader.value
    else if InFlight(s).Some? then LeaderState.Committing(InFlight(s).value) else Building(now)
  }

  function FollowerIn(s: Node): FollowerState {
    if s.follower.Some? then s.follower.value
    else if InFlight(s).Some? then FollowerState.Committing(InFlight(s).value) else Idle
  }

  // The block in flight stays in flight when the role changes, and a block is opened or cancelled.
  lemma SteppedUp(s: Node, now: nat)
    requires OneRole(s)
    ensures StepUp(s, now) ==
            s.(leader := Some(LeaderIn(s, now)), follower := None, trace := After(s.trace, Opening(s)))
  {
    AfterOne(s.trace, Initialize);
  }

  lemma SteppedDown(s: Node)
    requires OneRole(s)
    ensures StepDown(s) ==
            s.(leader := None, follower := Some(FollowerIn(s)), trace := After(s.trace, Closing(s)))
  {
    AfterOne(s.trace, Cancel);
  }

  // The stages of a ready

  // The node when the committed entries are delivered, if nothing has failed.
  function Prepared(s: Node, r: Ready): Node {
    var sent, written := Sendings(s.peers, r.messages), Writes(ReadyOps(s.disk, r));
    if s.leads
    then s.(readyRole := true, leader := Some(LeaderIn(s, r.now)), follower := None,
            disk := ApplyOps(s.disk, ReadyOps(s.disk, r)), trace := After(s.trace, Opening(s) + sent + written))
    else s.(readyRole := false, leader := None, follower := Some(FollowerIn(s)),
            disk := ApplyOps(s.disk, ReadyOps(s.disk, r)), trace := After(s.trace, written + Closing(s) + sent))
  }

  function Deliverance(s: Node, r: Ready): Node {
    var s1 := DeliverAll(s, r.committed, r.now);
    if s1.status.Running? then CommitNext(s1) else s1
  }

  lemma {:induction false} NoneFailsSent(s: Node, messages: seq<Message>)
    requires s.status.Running?
    ensures SomeFails(s.peers, messages) ==> SendAll(s, messages).status.Panicked?
    ensures !SomeFails(s.peers, messages) ==>
              SendAll(s, messages) == s.(trace := After(s.trace, Sendings(s.peers, messages)))
  {
    MessagesAreSent(s, messages);
    if !SomeFails(s.peers, messages) {
      var tried := Tried(s.peers, messages);
      assert forall i :: 0 <= i < |tried| ==> tried[i] == messages[i] && !Fails(s.peers, messages[i]);
      assert tried == messages;
    }
  }

  lemma {:induction false} AfterThree(t: Trace, a: seq<Action>, b: seq<Action>, c: seq<Action>)
    ensures After(After(After(t, a), b), c) == After(t, a + b + c)
  {
    AfterConcat(t, a, b);
    AfterConcat(t, a + b, c);
  }

  lemma LeaderPrepared(s: Node, r: Ready)
    requires s.status.Running? && OneRole(s) && s.leads
    ensures SomeFails(s.peers, r.messages) || Refused(s.disk, r) ==> ProcessReady(s, r).status.Panicked?
    ensures !SomeFails(s.peers, r.messages) && !Refused(s.disk, r) ==>
              ProcessReady(s, r) == Deliverance(Prepared(s, r), r)
  {
    var s0 := s.(readyRole := s.leads);
    SteppedUp(s0, r.now);
    var s1 := StepUp(s0, r.now);
    NoneFailsSent(s1, r.messages);
    var s2 := SendAll(s1, r.messages);
    assert PrepareReady(s, r) == s2;
    if s2.status.Running? {
      StoredReady(s2, r);
      if !Refused(s.disk, r) {
        WrittenAfter(s2, ReadyOps(s.disk, r), []);
        AfterThree(s.trace, Opening(s), Sendings(s.peers, r.messages), Writes(ReadyOps(s.disk, r)));
        assert Persist(Install(s2, r.snapshot), r) == Prepared(s, r);
        assert FinishReady(Prepared(s, r), r) == Deliverance(Prepared(s, r), r);
      }
    }
  }

  // What a follower does once the ready is stored.
  lemma FollowerFinishes(s: Node, r: Ready)
    requires s.status.Running? && OneRole(s) && !s.leads
    ensures SomeFails(s.peers, r.messages) ==> FinishReady(s, r).status.Panicked?
    ensures !SomeFails(s.peers, r.messages) ==>
              FinishReady(s, r) ==
              Deliverance(s.(leader := None, follower := Some(FollowerIn(s)),
                             trace := After(After(s.trace, Closing(s)), Sendings(s.peers, r.messages))), r)
  {
    SteppedDown(s);
    NoneFailsSent(StepDown(s), r.messages);
  }

  lemma FollowerStores(s: Node, r: Ready)
    requires s.status.Running? && !s.leads
    ensures Refused(s.disk, r) ==> ProcessReady(s, r).status.Panicked?
    ensures !Refused(s.disk, r) ==>
              ProcessReady(s, r) == FinishReady(FollowerStored(s, r), r)
  {
    var s0 := s.(readyRole := false);
    assert PrepareReady(s, r) == s0;
    StoredReady(s0, r);
    WrittenAfter(s0, ReadyOps(s.disk, r), []);
  }

  // A follower with the ready stored.
  function FollowerStored(s: Node, r: Ready): Node {
    s.(readyRole := false, disk := ApplyOps(s.disk, ReadyOps(s.disk, r)),
       trace := After(s.trace, Writes(ReadyOps(s.disk, r))))
  }

  lemma FollowerIsPrepared(s: Node, r: Ready)
    requires s.status.Running? && !s.leads
    ensures var s1 := FollowerStored(s, r);
            Prepared(s, r) == s1.(leader := None, follower := Some(FollowerIn(s1)),
                                  trace := After(After(s1.trace, Closing(s1)), Sendings(s1.peers, r.messages)))
  {
    AfterThree(s.trace, Writes(ReadyOps(s.disk, r)), Closing(s), Sendings(s.peers, r.messages));
  }

  lemma FollowerPrepared(s: Node, r: Ready)
    requires s.status.Running? && OneRole(s) && !s.leads
    ensures SomeFails(s.peers, r.messages) || Refused(s.disk, r) ==> ProcessReady(s, r).status.Panicked?
    ensures !SomeFails(s.peers, r.messages) && !Refused(s.disk, r) ==>
              ProcessReady(s, r) == Deliverance(Prepared(s, r), r)
  {
    FollowerStores(s, r);
    if !Refused(s.disk, r) {
      FollowerFinishes(FollowerStored(s, r), r);
      FollowerIsPrepared(s, r);
    }
  }

  // Without a failure the node gets to the deliveries; with one it panics.
  lemma ReadyGetsThere(s: Node, r: Ready)
    requires s.status.Running? && OneRole(s)
    ensures SomeFails(s.peers, r.messages) || Refused(s.disk, r) ==> ProcessReady(s, r).status.Panicked?
    ensures !SomeFails(s.peers, r.messages) && !Refused(s.disk, r) ==>
              ProcessReady(s, r) == Deliverance(Prepared(s, r), r)
  {
    if s.leads {
      LeaderPrepared(s, r);
    } else {
      FollowerPrepared(s, r);
    }
  }

  // The block a node requests next: its valid front, which a leader has to have proposed and for which a
  // follower has to be idle.
  function Requestable(s: Node): Option<BlockId> {
    var front := NextCommittable(s.queue);
    if front.Some? && (s.leader == Some(Proposing(front.value)) || s.follower == Some(Idle)) then front else None
  }

  lemma RequestsNext(s: Node)
    requires OneRole(s)
    ensures var s', next := CommitNext(s), Requestable(s);
            && s' == s.(leader := s'.leader, follower := s'.follower, trace := s'.trace)
            && OneRole(s') && s'.leader.Some? == s.leader.Some?
            && (next.None? ==> s' == s)
            && (next.Some? ==> InFlight(s') == next && s'.trace == Then(s.trace, Commit(next.value)))
  {
  }

  // How the deliveries and the request for the next block go.
  lemma {:induction false} DeliveranceIs(s: Node, r: Ready)
    requires s.status.Running? && OneRole(s)
    ensures var s', s2 := Deliverance(s, r), DeliverAll(s, r.committed, r.now);
            && (s'.status.Panicked? <==> Breaks(s.self, s.peers, r.committed))
            && (s'.status.Running? <==>
                  !Breaks(s.self, s.peers, r.committed) && NoneLeaves(s.self, r.committed, |r.committed|))
            && (s'.status.Running? ==> TookUp(s, r.committed, r.now, s2) && OneRole(s2) && s' == CommitNext(s2))
  {
    EntriesTakenUp(s, r.committed, r.now);
    var s2 := DeliverAll(s, r.committed, r.now);
    if s2.status.Running? {
      RequestsNext(s2);
    }
  }

  lemma PreparedKeeps(s: Node, r: Ready)
    requires s.status.Running? && OneRole(s)
    ensures var s1 := Prepared(s, r);
            && s1.status.Running? && s1.self == s.self && s1.peers == s.peers && s1.queue == s.queue
            && OneRole(s1) && s1.leader.Some? == s.leads && InFlight(s1) == InFlight(s)
            && (s1.leader == Some(ChangingConfig) <==> s.leads && s.leader == Some(ChangingConfig))
  {
  }

  /** A ready ends a running node in one of three ways: it panics if and only if a message fails, the
      storage refuses the snapshot, or the entries break; otherwise it stops if an entry makes it leave;
      otherwise it goes on. */
  lemma ReadyEnds(s: Node, r: Ready)
    requires s.status.Running? && OneRole(s)
    ensures var s' := ProcessReady(s, r);
            var fails := SomeFails(s.peers, r.messages) || Refused(s.disk, r) || Breaks(s.self, s.peers, r.committed);
            && (s'.status.Panicked? <==> fails)
            && (s'.status.Running? <==> !fails && NoneLeaves(s.self, r.committed, |r.committed|))
  {
    ReadyGetsThere(s, r);
    PreparedKeeps(s, r);
    DeliveranceIs(Prepared(s, r), r);
  }

  // What a ready does when nothing ends the node, in order: a leader sends before it writes, a follower
  // writes before it replies; then come the entries, and last the request for the next block.
  function ReadyActions(s: Node, r: Ready, next: Option<BlockId>): seq<Action> {
    var sent, written := Sendings(s.peers, r.messages), Writes(ReadyOps(s.disk, r));
    (if s.leads then Opening(s) + sent + written else written + Closing(s) + sent)
    + DeliveryActions(r.committed, s.leads && s.leader == Some(ChangingConfig))
    + if next.Some? then [Commit(next.value)] else []
  }

  lemma ReadyTrace(s: Node, r: Ready, s2: Node, next: Option<BlockId>)
    requires s.status.Running? && OneRole(s) && TookUp(Prepared(s, r), r.committed, r.now, s2)
    ensures After(s.trace, ReadyActions(s, r, next)) ==
            if next.Some? then Then(s2.trace, Commit(next.value)) else s2.trace
  {
    var sent, written := Sendings(s.peers, r.messages), Writes(ReadyOps(s.disk, r));
    var first := if s.leads then Opening(s) + sent + written else written + Closing(s) + sent;
    var delivered := DeliveryActions(r.committed, s.leads && s.leader == Some(ChangingConfig));
    PreparedKeeps(s, r);
    AfterConcat(s.trace, first, delivered);
    if next.Some? {
      AfterOneMore(s.trace, first + delivered, Commit(next.value));
    } else {
      assert first + delivered + [] == first + delivered;
    }
  }

  // What a ready makes of a node that goes on.
  ghost predicate Processed(s: Node, r: Ready, next: Option<BlockId>, s': Node) {
    && s' == s.(readyRole := s.leads, leader := s'.leader, follower := s'.follower, peers := s'.peers,
                queue := s'.queue, disk := ApplyOps(s.disk, ReadyOps(s.disk, r)), trace := s'.trace)
    && s'.trace == After(s.trace, ReadyActions(s, r, next))
    && (forall id :: Lookup(s'.peers, id) == FiledUnder(Lookup(s.peers, id), r.committed, id))
    && s'.queue == s.queue.(commits := s.queue.commits + BlocksOf(r.committed))
    && OneRole(s') && s'.leader.Some? == s.leads
    && InFlight(s') == (if next.Some? then next else InFlight(s))
    && (s.leads && next.None? ==>
          s'.leader == LeaderAfterChanges(Some(LeaderIn(s, r.now)), r.committed, r.now))
  }

  // The block requested at the end: the valid front, if a leader has proposed it or a follower is idle.
  function NextOf(s: Node, r: Ready): Option<BlockId> {
    var front := NextCommittable(s.queue.(commits := s.queue.commits + BlocksOf(r.committed)));
    var mine := if s.leads then front.Some? && s.leader == Some(Proposing(front.value)) else InFlight(s).None?;
    if mine then front else None
  }

  lemma NextIsRequested(s: Node, r: Ready, s2: Node)
    requires s.status.Running? && OneRole(s) && TookUp(Prepared(s, r), r.committed, r.now, s2)
    ensures Requestable(s2) == NextOf(s, r)
    ensures InFlight(s2) == InFlight(s) && OneRole(s2) && s2.leader.Some? == s.leads
    ensures s.leads ==> s2.leader == LeaderAfterChanges(Some(LeaderIn(s, r.now)), r.committed, r.now)
  {
    PreparedKeeps(s, r);
  }

  lemma ProcessedBy(s: Node, r: Ready, s2: Node, s': Node)
    requires s.status.Running? && OneRole(s) && TookUp(Prepared(s, r), r.committed, r.now, s2) && s' == CommitNext(s2)
    ensures Processed(s, r, NextOf(s, r), s')
  {
    NextIsRequested(s, r, s2);
    RequestsNext(s2);
    ReadyTrace(s, r, s2, NextOf(s, r));
    PreparedKeeps(s, r);
  }

  /** What a ready makes of a node that goes on: disk, peer map, queue, role and block in flight, and
      every action in order, with the request for the next block at the end. */
  lemma ReadyInOrder(s: Node, r: Ready)
    requires s.status.Running? && OneRole(s) && ProcessReady(s, r).status.Running?
    ensures Processed(s, r, NextOf(s, r), ProcessReady(s, r))
  {
    ReadyEnds(s, r);
    ReadyGetsThere(s, r);
    PreparedKeeps(s, r);
    DeliveranceIs(Prepared(s, r), r);
    ProcessedBy(s, r, DeliverAll(Prepared(s, r), r.committed, r.now), ProcessReady(s, r));
  }

  // What was sent

  function SendsIn(t: Trace): seq<Action> {
    match t
    case Start => []
    case Then(before, Send(peer, message)) => SendsIn(before) + [Send(peer, message)]
    case Then(before, _) => SendsIn(before)
  }

  lemma {:induction false} SendingsAreSent(t: Trace, peers: Peers, messages: seq<Message>)
    ensures SendsIn(After(t, Sendings(peers, messages))) == SendsIn(t) + Sendings(peers, messages)
  {
    if messages == [] {
      assert SendsIn(t) + [] == SendsIn(t);
    } else {
      var n, m := |messages| - 1, messages[|messages| - 1];
      var earlier := Sendings(peers, messages[..n]);
      SendingsAreSent(t, peers, messages[..n]);
      if m.to in peers {
        AfterOneMore(t, earlier, Send(peers[m.to], m.bytes));
      } else {
        assert earlier + [] == earlier;
      }
    }
  }

  // From p to t nothing is sent and nothing is written.
  predicate NoTraffic(p: Trace, t: Trace) {
    SendsIn(t) == SendsIn(p) && DiskOps(t) == DiskOps(p)
  }

  lemma {:induction false} DeliveriesAreNoTraffic(s: Node, entries: seq<Entry>, now: nat)
    ensures NoTraffic(s.trace, DeliverAll(s, entries, now).trace)
    decreases |entries|
  {
    if entries != [] && s.status.Running? {
      DeliveryIsNoTraffic(s, entries[0], now);
      DeliveriesAreNoTraffic(DeliverOne(s, entries[0], now), entries[1..], now);
    }
  }

  lemma DeliveryIsNoTraffic(s: Node, e: Entry, now: nat)
    ensures NoTraffic(s.trace, DeliverOne(s, e, now).trace)
  {
    if e.payload.Conf? {
      var s1 := Do(s, Deliver(e));
      AdoptionIsNoTraffic(s1, ApplyConfChange(s1.self, s1.peers, e.payload.change), now);
    }
  }

  lemma AdoptionIsNoTraffic(s: Node, applied: Applied, now: nat)
    ensures NoTraffic(s.trace, Adopt(s, applied, now).trace)
  {
  }

  lemma RequestIsNoTraffic(s: Node)
    ensures NoTraffic(s.trace, CommitNext(s).trace)
  {
    if NextCommittable(s.queue).Some? {
      var id := NextCommittable(s.queue).value;
      var s1 := if s.leader == Some(Proposing(id))
                then Do(s.(leader := Some(LeaderState.Committing(id))), Commit(id)) else s;
      assert NoTraffic(s.trace, s1.trace);
    }
  }

  lemma DeliveranceIsNoTraffic(s: Node, r: Ready)
    ensures NoTraffic(s.trace, Deliverance(s, r).trace)
  {
    DeliveriesAreNoTraffic(s, r.committed, r.now);
    RequestIsNoTraffic(DeliverAll(s, r.committed, r.now));
  }

  lemma {:induction false} WritingSendsNothing(t: Trace, ops: seq<FileOp>)
    ensures SendsIn(Record(t, ops)) == SendsIn(t)
  {
    if ops != [] {
      WritingSendsNothing(t, ops[..|ops| - 1]);
    }
  }

  lemma {:induction false} MessagesWriteNothing(s: Node, messages: seq<Message>)
    ensures DiskOps(SendAll(s, messages).trace) == DiskOps(s.trace)
  {
    if messages != [] {
      MessagesWriteNothing(s, messages[..|messages| - 1]);
    }
  }

  lemma StoringSendsNothing(s: Node, r: Ready)
    requires s.status.Running?
    ensures SendsIn(Install(s, r.snapshot).trace) == SendsIn(s.trace)
    ensures SendsIn(Persist(s, r).trace) == SendsIn(s.trace)
    ensures Install(s, r.snapshot).status.Panicked? <==> Refused(s.disk, r)
    ensures Install(s, r.snapshot).status.Running? <==> !Refused(s.disk, r)
  {
    if r.snapshot.Some? {
      WritingSendsNothing(s.trace, ApplySnapshotPlan(s.disk, r.snapshot.value).ops);
    }
    WritingSendsNothing(s.trace, AppendPlan(r.entries).ops);
    if r.hs.Some? {
      WritingSendsNothing(Record(s.trace, AppendPlan(r.entries).ops), HardStateOps(r));
    }
  }

  // What a follower still does once the ready is stored.
  lemma RepliesSent(s: Node, r: Ready)
    requires s.status.Running? && !s.leads
    ensures SendsIn(FinishReady(s, r).trace) == SendsIn(s.trace) + Sendings(s.peers, Tried(s.peers, r.messages))
    ensures DiskOps(FinishReady(s, r).trace) == DiskOps(s.trace)
  {
    var s1 := StepDown(s);
    assert NoTraffic(s.trace, s1.trace) && s1.peers == s.peers && s1.status.Running?;
    MessagesAreSent(s1, r.messages);
    MessagesWriteNothing(s1, r.messages);
    SendingsAreSent(s1.trace, s.peers, Tried(s.peers, r.messages));
    var s2 := SendAll(s1, r.messages);
    DeliveriesAreNoTraffic(s2, r.committed, r.now);
    RequestIsNoTraffic(DeliverAll(s2, r.committed, r.now));
  }

  lemma FollowerSends(s: Node, r: Ready)
    requires s.status.Running? && !s.leads
    ensures SendsIn(ProcessReady(s, r).trace) ==
            SendsIn(s.trace) + if Refused(s.disk, r) then [] else Sendings(s.peers, Tried(s.peers, r.messages))
  {
    var s0 := s.(readyRole := false);
    assert PrepareReady(s, r) == s0;
    StoringSendsNothing(s0, r);
    var s1 := Install(s0, r.snapshot);
    if s1.status.Running? {
      StoringSendsNothing(s1, r);
      assert Persist(s1, r).peers == s.peers && Persist(s1, r).status.Running?;
      RepliesSent(Persist(s1, r), r);
    } else {
      assert SendsIn(s.trace) + [] == SendsIn(s.trace);
    }
  }

  lemma LeaderFinishesQuietly(s: Node, r: Ready)
    requires s.status.Running? && s.leads
    ensures SendsIn(StoreReady(s, r).trace) == SendsIn(s.trace)
  {
    var s1 := Install(s, r.snapshot);
    StoringSendsNothing(s, r);
    if s1.status.Running? {
      StoringSendsNothing(s1, r);
      DeliveranceIsNoTraffic(Persist(s1, r), r);
      assert FinishReady(Persist(s1, r), r) == Deliverance(Persist(s1, r), r);
    }
  }

  lemma LeaderSends(s: Node, r: Ready)
    requires s.status.Running? && s.leads
    ensures SendsIn(ProcessReady(s, r).trace) == SendsIn(s.trace) + Sendings(s.peers, Tried(s.peers, r.messages))
  {
    var s1 := StepUp(s.(readyRole := s.leads), r.now);
    assert SendsIn(s1.trace) == SendsIn(s.trace) && s1.peers == s.peers && s1.status.Running?;
    MessagesAreSent(s1, r.messages);
    SendingsAreSent(s1.trace, s.peers, Tried(s.peers, r.messages));
    var s2 := PrepareReady(s, r);
    if s2.status.Running? {
      LeaderFinishesQuietly(s2, r);
    }
  }

  /** A ready sends exactly its messages, each to the peer filed under its raft id, in order and up to the
      first that fails; a follower whose storage refuses the snapshot sends none. */
  lemma ReadySends(s: Node, r: Ready)
    requires s.status.Running?
    ensures SendsIn(ProcessReady(s, r).trace) ==
            SendsIn(s.trace) +
            if s.leads || !Refused(s.disk, r) then Sendings(s.peers, Tried(s.peers, r.messages)) else []
  {
    if s.leads {
      LeaderSends(s, r);
    } else {
      FollowerSends(s, r);
    }
  }

  // Writing before replying

  lemma {:induction false} EitherBefore(p: Trace, q: Trace, t: Trace)
    requires Before(p, t) && Before(q, t)
    ensures Before(p, q) || Before(q, p)
  {
    if p != t && q != t {
      EitherBefore(p, q, t.before);
    }
  }

  lemma {:induction false} TrafficGrows(p: Trace, t: Trace)
    requires Before(p, t)
    ensures SendsIn(p) <= SendsIn(t) && DiskOps(p) <= DiskOps(t)
  {
    if p != t {
      TrafficGrows(p, t.before);
    }
  }

  lemma {:induction false} SameDisk(boot: Directory, p: Trace, t: Trace)
    requires Before(p, t) && DiskOps(p) == DiskOps(t)
    ensures DiskAfter(boot, p) == DiskAfter(boot, t)
  {
    if p != t {
      TrafficGrows(p, t.before);
      SameDisk(boot, p, t.before);
    }
  }

  lemma {:induction false} StoredIsOnDisk(boot: Directory, s: Node, r: Ready)
    requires s.status.Running? && !s.leads && !Refused(s.disk, r) && s.disk == DiskAfter(boot, s.trace)
    ensures var t := FollowerStored(s, r).trace;
            && DiskAfter(boot, t) == ApplyOps(s.disk, ReadyOps(s.disk, r)) && SendsIn(t) == SendsIn(s.trace)
            && Before(t, ProcessReady(s, r).trace) && DiskOps(t) == DiskOps(ProcessReady(s, r).trace)
  {
    var s1, ops := FollowerStored(s, r), ReadyOps(s.disk, r);
    FollowerStores(s, r);
    WrittenAfter(s, ops, []);
    RecordReplays(boot, s.trace, ops);
    WritingSendsNothing(s.trace, ops);
    Nodes.FinishReadyGrows(s1, r);
    RepliesSent(s1, r);
  }

  /** At every crash point of a follower's ready at which a reply has left, everything the ready has to
      store is on the disk: the entries, under their indexes, and the hard state. */
  lemma {:induction false} RepliesFollowWrites(boot: Directory, s: Node, r: Ready, p: Trace)
    requires s.status.Running? && !s.leads && s.disk == DiskAfter(boot, s.trace) && Contiguous(r.entries)
    requires Before(s.trace, p) && Before(p, ProcessReady(s, r).trace) && SendsIn(p) != SendsIn(s.trace)
    ensures var d := DiskAfter(boot, p);
            d == ApplyOps(s.disk, ReadyOps(s.disk, r)) && ReadBack(d, r)
  {
    TrafficGrows(s.trace, p);
    TrafficGrows(p, ProcessReady(s, r).trace);
    FollowerSends(s, r);
    assert SendsIn(s.trace) + [] == SendsIn(s.trace);
    assert !Refused(s.disk, r);
    var t := FollowerStored(s, r).trace;
    StoredIsOnDisk(boot, s, r);
    EitherBefore(p, t, ProcessReady(s, r).trace);
    if Before(p, t) {
      TrafficGrows(p, t);
    }
    TrafficGrows(t, p);
    SameDisk(boot, t, p);
    ReadyIsReadable(s.disk, r);
  }

  // What is read back once entries and hard state are written.
  ghost predicate ReadBack(d: Directory, r: Ready) {
    && (forall i :: 0 <= i < |r.entries| ==> ReadEntry(d, r.entries[i].index) == Ok(r.entries[i]))
    && (r.entries != [] ==> LastIndex(d) == Ok(r.entries[|r.entries| - 1].index))
    && (r.hs.Some? ==> ReadHardState(d) == Ok(r.hs.value))
  }

  lemma {:induction false} AppendedIsReadBack(d: Directory, r: Ready)
    requires Contiguous(r.entries)
    ensures ReadBack(ApplyOps(d, AppendPlan(r.entries).ops), r.(hs := None))
  {
    if r.entries != [] {
      AppendEffect(d, r.entries);
      assert EntryWrites(r.entries)[..|r.entries|] == EntryWrites(r.entries);
      forall i | 0 <= i < |r.entries|
        ensures ReadEntry(ApplyOps(d, AppendPlan(r.entries).ops), r.entries[i].index) == Ok(r.entries[i])
      {
        EntryWritesEffect(d, r.entries, |r.entries|, EntryFile(r.entries[i].index));
      }
    }
  }

  lemma {:induction false} HardStateIsReadBack(d: Directory, r: Ready)
    requires ReadBack(d, r.(hs := None))
    ensures ReadBack(ApplyOps(d, HardStateOps(r)), r)
  {
    if r.hs.Some? {
      ApplySingle(d, SetHardStateOp(r.hs.value));
      var d' := ApplyOp(d, SetHardStateOp(r.hs.value));
      assert forall n: nat :: ReadEntry(d', n) == ReadEntry(d, n);
    }
  }

  // The disk after each part of a ready.
  lemma {:induction false} ReadyParts(d: Directory, r: Ready)
    requires !Refused(d, r)
    ensures var d1 := if r.snapshot.Some? then ApplyOps(d, ApplySnapshotPlan(d, r.snapshot.value).ops) else d;
            ApplyOps(d, ReadyOps(d, r)) == ApplyOps(ApplyOps(d1, AppendPlan(r.entries).ops), HardStateOps(r))
  {
    var first := if r.snapshot.Some? then ApplySnapshotPlan(d, r.snapshot.value).ops else [];
    ApplyOpsConcat(d, first, AppendPlan(r.entries).ops + HardStateOps(r));
    ApplyOpsConcat(ApplyOps(d, first), AppendPlan(r.entries).ops, HardStateOps(r));
  }

  lemma {:induction false} ReadyIsReadable(d: Directory, r: Ready)
    requires !Refused(d, r) && Contiguous(r.entries)
    ensures ReadBack(ApplyOps(d, ReadyOps(d, r)), r)
  {
    var d1 := if r.snapshot.Some? then ApplyOps(d, ApplySnapshotPlan(d, r.snapshot.value).ops) else d;
    ReadyParts(d, r);
    AppendedIsReadBack(d1, r);
    HardStateIsReadBack(ApplyOps(d1, AppendPlan(r.entries).ops), r);
  }

  // The storage calls a ready makes, on the log in memory.

  ghost predicate LegalCalls(store: Store, r: Ready) {
    && (r.snapshot.Some? ==> Legal(store, ApplySnapshot(r.snapshot.value)))
    && Legal(Restored(store, r), Append(r.entries))
  }

  function Restored(store: Store, r: Ready): Store
    requires r.snapshot.Some? ==> Legal(store, ApplySnapshot(r.snapshot.value))
  {
    if r.snapshot.Some? then Step(store, ApplySnapshot(r.snapshot.value)).0 else store
  }

  // The snapshot applied, the entries appended, the hard state set.
  function Called(store: Store, r: Ready): Store
    requires LegalCalls(store, r)
  {
    var appended := Step(Restored(store, r), Append(r.entries)).0;
    if r.hs.Some? then Step(appended, SetHardState(r.hs.value)).0 else appended
  }

  lemma {:induction false} HardStateIsLogged(d: Directory, store: Store, r: Ready)
    requires Refines(d, store)
    ensures Refines(ApplyOps(d, HardStateOps(r)), if r.hs.Some? then Step(store, SetHardState(r.hs.value)).0 else store)
  {
    if r.hs.Some? {
      StepRefines(d, store, SetHardState(r.hs.value));
    }
  }

  lemma {:induction false} SnapshotIsLogged(d: Directory, store: Store, r: Ready)
    requires Refines(d, store) && LegalCalls(store, r)
    ensures Refused(d, r) <==> r.snapshot.Some? && Step(store, ApplySnapshot(r.snapshot.value)).1.Failed?
    ensures Refines(if r.snapshot.Some? then ApplyOps(d, ApplySnapshotPlan(d, r.snapshot.value).ops) else d,
                    Restored(store, r))
  {
    if r.snapshot.Some? {
      StepRefines(d, store, ApplySnapshot(r.snapshot.value));
    }
  }

  lemma {:induction false} ReadyOpsAreLogged(d: Directory, store: Store, r: Ready)
    requires Refines(d, store) && LegalCalls(store, r) && !Refused(d, r)
    ensures Refines(ApplyOps(d, ReadyOps(d, r)), Called(store, r))
  {
    var d1 := if r.snapshot.Some? then ApplyOps(d, ApplySnapshotPlan(d, r.snapshot.value).ops) else d;
    ReadyParts(d, r);
    SnapshotIsLogged(d, store, r);
    AppendRefines(d1, Restored(store, r), r.entries);
    HardStateIsLogged(ApplyOps(d1, AppendPlan(r.entries).ops), Step(Restored(store, r), Append(r.entries)).0, r);
  }

  /** After a ready the disk stands for the log in memory on which the same calls were made: the snapshot
      applied, the entries appended, the hard state set. A snapshot the log refuses ends the node. */
  lemma ReadyIsLogged(s: Node, store: Store, r: Ready)
    requires s.status.Running? && OneRole(s) && Refines(s.disk, store) && LegalCalls(store, r)
    ensures r.snapshot.Some? && Step(store, ApplySnapshot(r.snapshot.value)).1.Failed? ==>
              ProcessReady(s, r).status.Panicked?
    ensures ProcessReady(s, r).status.Running? ==> Refines(ProcessReady(s, r).disk, Called(store, r))
  {
    SnapshotIsLogged(s.disk, store, r);
    ReadyEnds(s, r);
    if ProcessReady(s, r).status.Running? {
      ReadyInOrder(s, r);
      ReadyOpsAreLogged(s.disk, store, r);
    }
  }
}
