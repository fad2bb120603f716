/** A follower works through its commit queue. */
module Drain {
  import opened Types
  import opened Files
  import opened FsStorages
  import opened BlockQueues
  import opened NodeSpec
  import opened NodeRuns
  import opened Durability

  // A running follower whose block in flight, if any, is the front of its queue.
  ghost predicate Waiting(s: Node) {
    && s.status.Running? && !s.leads && s.leader.None? && s.follower.Some?
    && (InFlight(s).Some? ==> s.queue.commits != [] && InFlight(s).value == s.queue.commits[0].0)
  }

  function Measure(s: Node): int {
    2 * |s.queue.commits| - (if InFlight(s).Some? then 1 else 0)
  }

  // Nothing new is delivered, Raft stays a follower, and nothing stops the engine.
  predicate NoDelivery(turn: Turn) {
    && (turn.update.Some? ==>
          !turn.update.value.Shutdown? && (turn.update.value.PeerMessage? ==> turn.update.value.leads == Some(false)))
    && (turn.tick.Some? ==> !turn.tick.value.leads)
    && (turn.ready.Some? ==> NothingDelivered(turn.ready.value))
  }

  predicate NothingDelivered(r: Ready) {
    r.snapshot.None? && r.committed == [] && Sendable(r.messages)
  }

  predicate Sendable(messages: seq<Message>) {
    forall i :: 0 <= i < |messages| ==> !messages[i].answer.SendFailed?
  }

  // The steps of a turn that get the queue on: a confirmation of the block in flight, and a commit
  // request for the front.
  function Confirms(s: Node, turn: Turn): nat {
    if turn.update.Some? && turn.update.value.BlockCommit? && InFlight(s) == Some(turn.update.value.id) then 1 else 0
  }

  function Requests(s: Node, turn: Turn): nat {
    if turn.ready.Some? then RequestOf(s) else 0
  }

  function RequestOf(s: Node): nat {
    if NextCommittable(s.queue).Some? && InFlight(s).None? then 1 else 0
  }

  // These commits are what is left of q, and what was taken off q is marked as applied.
  ghost predicate LeftOf(q: seq<(BlockId, nat)>, commits: seq<(BlockId, nat)>, applied: nat) {
    var k := |q| - |commits|;
    0 <= k && commits == q[k..] && (k > 0 ==> applied == q[k - 1].1)
  }

  // Where a follower stands in working through the queue q.
  ghost predicate Stands(s: Node, q: seq<(BlockId, nat)>, measure: int) {
    Waiting(s) && LeftOf(q, s.queue.commits, AppliedIndex(s.disk)) && Measure(s) == measure
  }

  // Updates

  // What a follower does with the confirmation of its block.
  lemma FollowerConfirmation(s: Node, id: BlockId, setting: Option<set<PeerBytes>>, now: nat)
    requires Waiting(s) && InFlight(s) == Some(id)
    ensures var s' := OnBlockCommit(s, id, setting, now);
            s' == s.(queue := WithoutFront(s.queue), follower := Some(Idle), trace := s'.trace,
                     disk := ApplyOp(s.disk, SetAppliedOp(s.queue.commits[0].1)))
  {
    assert OnBlockCommit(s, id, setting, now) == FollowerCommitted(s);
  }

  lemma SameWaits(s: Node, s': Node)
    requires Waiting(s) && s'.status == s.status && s'.leads == s.leads
    requires s'.leader == s.leader && s'.follower == s.follower && s'.queue.commits == s.queue.commits
    ensures Waiting(s') && Measure(s') == Measure(s) && InFlight(s') == InFlight(s)
  {
    assert InFlight(s') == InFlight(s);
  }

  lemma ConfirmationGetsOn(s: Node, s': Node)
    requires Waiting(s) && InFlight(s).Some?
    requires s' == s.(queue := WithoutFront(s.queue), follower := Some(Idle), trace := s'.trace, disk := s'.disk)
    ensures Waiting(s') && Measure(s') == Measure(s) - 1 && InFlight(s').None?
  {
  }

  // What any other update makes of a follower: a notice changes the backlog only.
  lemma OtherUpdate(s: Node, update: Update)
    requires Waiting(s) && !update.Shutdown? && (update.PeerMessage? ==> update.leads == Some(false))
    requires update.BlockCommit? ==> InFlight(s) != Some(update.id)
    ensures var s' := HandleUpdate(s, update);
            && s' == s.(queue := s'.queue, trace := s'.trace)
            && s'.queue == match update
                           case BlockNew(block) => WithBlock(s.queue, block)
                           case BlockValid(id) => WithValid(s.queue, id)
                           case _ => s.queue
  {
    if update.BlockCommit? {
      OtherConfirmation(s, update.id, update.setting, update.now);
    }
  }

  // The queue after the update of a turn; nothing else in a turn changes it.
  function NextQueue(s: Node, turn: Turn): Queue {
    if turn.update.None? then s.queue
    else match turn.update.value
      case BlockNew(block) => WithBlock(s.queue, block)
      case BlockValid(id) => WithValid(s.queue, id)
      case BlockCommit(id, _, _) =>
        if InFlight(s) == Some(id) && s.queue.commits != [] then WithoutFront(s.queue) else s.queue
      case _ => s.queue
  }

  // The applied index after a turn; only a confirmation changes it.
  function NextApplied(s: Node, turn: Turn): nat {
    if Confirms(s, turn) == 1 && s.queue.commits != [] then s.queue.commits[0].1 else AppliedIndex(s.disk)
  }

  lemma ConfirmingGetsOn(s: Node, id: BlockId, setting: Option<set<PeerBytes>>, now: nat)
    requires Waiting(s) && InFlight(s) == Some(id)
    ensures var s' := OnBlockCommit(s, id, setting, now);
            && Waiting(s') && Measure(s') == Measure(s) - 1 && InFlight(s').None?
            && s'.queue == WithoutFront(s.queue) && AppliedIndex(s'.disk) == s.queue.commits[0].1
  {
    FollowerConfirmation(s, id, setting, now);
    ConfirmationGetsOn(s, OnBlockCommit(s, id, setting, now));
  }

  lemma OtherUpdateKeepsPlace(s: Node, update: Update)
    requires Waiting(s) && !update.Shutdown? && (update.PeerMessage? ==> update.leads == Some(false))
    requires update.BlockCommit? ==> InFlight(s) != Some(update.id)
    ensures var s' := HandleUpdate(s, update);
            && Waiting(s') && Measure(s') == Measure(s) && InFlight(s') == InFlight(s)
            && AppliedIndex(s'.disk) == AppliedIndex(s.disk)
  {
    OtherUpdate(s, update);
    SameWaits(s, HandleUpdate(s, update));
  }

  lemma UpdateGetsOn(s: Node, turn: Turn)
    requires Waiting(s) && NoDelivery(turn)
    ensures var s' := AfterUpdate(s, turn);
            && Waiting(s') && Measure(s') == Measure(s) - Confirms(s, turn)
            && s'.queue == NextQueue(s, turn) && AppliedIndex(s'.disk) == NextApplied(s, turn)
            && InFlight(s') == if Confirms(s, turn) == 1 then None else InFlight(s)
  {
    if turn.update.Some? {
      var update := turn.update.value;
      if Confirms(s, turn) == 1 {
        ConfirmingGetsOn(s, update.id, update.setting, update.now);
      } else {
        OtherUpdateKeepsPlace(s, update);
        OtherUpdate(s, update);
      }
    }
  }

  // Readies

  lemma {:induction false} SendAllKeepsAll(s: Node, messages: seq<Message>)
    requires Sendable(messages)
    ensures SendAll(s, messages) == s.(trace := SendAll(s, messages).trace)
  {
    if messages != [] {
      SendAllKeepsAll(s, messages[..|messages| - 1]);
    }
  }

  // Appending entries and writing the hard state leaves the applied index alone.
  lemma {:induction false} PersistKeepsApplied(s: Node, r: Ready)
    ensures AppliedIndex(Persist(s, r).disk) == AppliedIndex(s.disk)
    ensures Persist(s, r) == s.(disk := Persist(s, r).disk, trace := Persist(s, r).trace)
  {
    ApplyOpsKeeps(s.disk, AppendPlan(r.entries).ops, AppliedFile);
    var s1 := WriteAll(s, AppendPlan(r.entries).ops);
    if r.hs.Some? {
      ApplyOpsKeeps(s1.disk, [SetHardStateOp(r.hs.value)], AppliedFile);
    }
  }

  // An idle follower requests the commit of a committable front.
  ghost predicate Requested(s: Node, s': Node) {
    if RequestOf(s) == 1
    then s' == Do(s.(follower := Some(FollowerState.Committing(s.queue.commits[0].0))), Commit(s.queue.commits[0].0))
    else s' == s
  }

  lemma RequestIs(s: Node)
    requires Waiting(s)
    ensures Requested(s, CommitNext(s))
  {
  }

  lemma RequestedWaits(s: Node, s': Node)
    requires Waiting(s) && Requested(s, s')
    ensures Waiting(s') && s'.queue == s.queue && s'.disk == s.disk
    ensures InFlight(s').Some? <==> InFlight(s).Some? || NextCommittable(s.queue).Some?
  {
  }

  lemma RequestLowersMeasure(s: Node, s': Node)
    requires Waiting(s) && Requested(s, s')
    ensures Measure(s') == Measure(s) - RequestOf(s)
  {
  }

  // A ready without deliveries writes, sends, and requests the next commit.
  lemma ReadyWithoutDeliveries(s: Node, r: Ready)
    requires Waiting(s) && NothingDelivered(r)
    ensures var s3 := SendAll(Persist(s.(readyRole := false), r), r.messages);
            && ProcessReady(s, r) == CommitNext(s3)
            && s3 == s.(readyRole := false, disk := s3.disk, trace := s3.trace)
            && AppliedIndex(s3.disk) == AppliedIndex(s.disk)
  {
    var s1 := s.(readyRole := false);
    assert Install(PrepareReady(s, r), r.snapshot) == s1;
    var s2 := Persist(s1, r);
    PersistKeepsApplied(s1, r);
    SendAllKeepsAll(s2, r.messages);
    assert StepDown(s2) == s2;
    assert FinishReady(s2, r) == CommitNext(SendAll(s2, r.messages));
  }

  lemma WritingKeepsPlace(s: Node, s': Node)
    requires Waiting(s) && s' == s.(readyRole := false, disk := s'.disk, trace := s'.trace)
    ensures Waiting(s') && Measure(s') == Measure(s) && InFlight(s') == InFlight(s) && RequestOf(s') == RequestOf(s)
  {
    SameWaits(s, s');
  }

  lemma ReadyGetsOn(s: Node, r: Ready)
    requires Waiting(s) && NothingDelivered(r)
    ensures var end := ProcessReady(s, r);
            && Waiting(end) && Measure(end) == Measure(s) - RequestOf(s)
            && end.queue == s.queue && AppliedIndex(end.disk) == AppliedIndex(s.disk)
            && (InFlight(end).Some? <==> InFlight(s).Some? || NextCommittable(s.queue).Some?)
  {
    ReadyWithoutDeliveries(s, r);
    var s3, end := SendAll(Persist(s.(readyRole := false), r), r.messages), ProcessReady(s, r);
    WritingKeepsPlace(s, s3);
    RequestIs(s3);
    RequestedWaits(s3, end);
    RequestLowersMeasure(s3, end);
  }

  // Turns

  function Progress(s: Node, turn: Turn): nat {
    Confirms(s, turn) + Requests(AfterTick(s, turn), turn)
  }

  // A tick has nothing to publish on a follower, so a turn is the update and the ready.
  lemma FollowerTurn(s: Node, turn: Turn)
    requires AfterUpdate(s, turn).leader.None? && AfterUpdate(s, turn).status.Running?
    requires !AfterUpdate(s, turn).leads && (turn.tick.Some? ==> !turn.tick.value.leads)
    ensures AfterTick(s, turn) == AfterUpdate(s, turn)
    ensures Take(s, turn) ==
            if turn.ready.Some? then ProcessReady(AfterUpdate(s, turn), turn.ready.value) else AfterUpdate(s, turn)
  {
  }

  // What a turn makes of a follower.
  lemma TurnGetsOn(s: Node, turn: Turn, s': Node)
    requires Waiting(s) && NoDelivery(turn) && s' == Take(s, turn)
    ensures Waiting(s') && Measure(s') == Measure(s) - Progress(s, turn)
    ensures s'.queue == NextQueue(s, turn) && AppliedIndex(s'.disk) == NextApplied(s, turn)
    ensures InFlight(s').Some? ==>
              (InFlight(s).Some? && s'.queue.commits == s.queue.commits) || NextCommittable(s'.queue).Some?
  {
    UpdateGetsOn(s, turn);
    FollowerTurn(s, turn);
    if turn.ready.Some? {
      ReadyGetsOn(AfterUpdate(s, turn), turn.ready.value);
    }
  }

  lemma RestIsLeft(q: seq<(BlockId, nat)>, commits: seq<(BlockId, nat)>, applied: nat)
    requires LeftOf(q, commits, applied) && commits != []
    ensures LeftOf(q, commits[1..], commits[0].1)
  {
    var k := |q| - |commits|;
    assert commits[0] == q[k] && commits[1..] == q[k + 1..];
  }

  lemma NextCommits(s: Node, turn: Turn)
    ensures NextQueue(s, turn).commits ==
            if Confirms(s, turn) == 1 && s.queue.commits != [] then s.queue.commits[1..] else s.queue.commits
  {
  }

  lemma NextIsLeft(s: Node, turn: Turn, q: seq<(BlockId, nat)>)
    requires LeftOf(q, s.queue.commits, AppliedIndex(s.disk))
    ensures LeftOf(q, NextQueue(s, turn).commits, NextApplied(s, turn))
  {
    NextCommits(s, turn);
    if s.queue.commits != [] {
      RestIsLeft(q, s.queue.commits, AppliedIndex(s.disk));
    }
  }

  function TotalProgress(s: Node, turns: seq<Turn>): nat {
    if turns == [] then 0
    else
      var n := |turns| - 1;
      TotalProgress(s, turns[..n]) + Progress(Run(s, turns[..n]), turns[n])
  }

  ghost predicate NoDeliveries(turns: seq<Turn>) {
    forall i :: 0 <= i < |turns| ==> NoDelivery(turns[i])
  }

  /** Over every run without deliveries, whatever is queued, each commit request and each confirmation
      lowers the measure by one and nothing raises it; the queue is what is left of it, and the last
      block taken off is the one marked as applied. */
  lemma {:induction false} FollowerWorks(s: Node, turns: seq<Turn>)
    requires Waiting(s) && NoDeliveries(turns)
    ensures Stands(Run(s, turns), s.queue.commits, Measure(s) - TotalProgress(s, turns))
  {
    if turns != [] {
      var n := |turns| - 1;
      FollowerWorks(s, turns[..n]);
      TurnGetsOn(Run(s, turns[..n]), turns[n], Run(s, turns));
      NextIsLeft(Run(s, turns[..n]), turns[n], s.queue.commits);
    }
  }

  // Distinct valid blocks

  // A follower whose queued blocks are distinct and all valid.
  ghost predicate Draining(s: Node) {
    Waiting(s) && AllCommittable(s.queue)
  }

  ghost predicate AllValid(q: Queue) {
    forall i :: 0 <= i < |q.commits| ==> StatusOf(q, q.commits[i].0).valid
  }

  ghost predicate DistinctIds(q: seq<(BlockId, nat)>) {
    forall i, j :: 0 <= i < j < |q| ==> q[i].0 != q[j].0
  }

  ghost predicate AllCommittable(q: Queue) {
    AllValid(q) && DistinctIds(q.commits)
  }

  lemma RestIsCommittable(q: Queue)
    requires AllCommittable(q) && q.commits != []
    ensures AllCommittable(WithoutFront(q))
  {
    var q' := WithoutFront(q);
    forall i | 0 <= i < |q'.commits| ensures StatusOf(q', q'.commits[i].0).valid {
      assert q'.commits[i] == q.commits[i + 1];
    }
  }

  lemma NoticesKeepCommittable(q: Queue, block: Block, id: BlockId)
    requires AllCommittable(q)
    ensures AllCommittable(WithBlock(q, block)) && AllCommittable(WithValid(q, id))
  {
  }

  lemma NextIsCommittable(s: Node, turn: Turn)
    requires Waiting(s) && AllCommittable(s.queue)
    ensures AllCommittable(NextQueue(s, turn))
  {
    if turn.update.Some? {
      match turn.update.value
      case BlockNew(block) => NoticesKeepCommittable(s.queue, block, block.id);
      case BlockValid(id) => NoticesKeepCommittable(s.queue, Block(id, []), id);
      case BlockCommit(_, _, _) =>
        if s.queue.commits != [] {
          RestIsCommittable(s.queue);
        }
      case _ =>
    }
  }

  lemma {:induction false} StaysCommittable(s: Node, turns: seq<Turn>)
    requires Draining(s) && NoDeliveries(turns)
    ensures AllCommittable(Run(s, turns).queue)
  {
    if turns != [] {
      var s1, turn := Run(s, turns[..|turns| - 1]), turns[|turns| - 1];
      FollowerWorks(s, turns[..|turns| - 1]);
      StaysCommittable(s, turns[..|turns| - 1]);
      NextIsCommittable(s1, turn);
      TurnGetsOn(s1, turn, Take(s1, turn));
    }
  }

  lemma EmptyIsApplied(q: seq<(BlockId, nat)>, s: Node)
    requires LeftOf(q, s.queue.commits, AppliedIndex(s.disk)) && s.queue.commits == [] && q != []
    ensures AppliedIndex(s.disk) == q[|q| - 1].1
  {
  }

  lemma MeasureIsZero(s: Node)
    requires Waiting(s)
    ensures Measure(s) == 0 <==> s.queue.commits == []
  {
  }

  lemma FrontIsCommittable(q: Queue)
    requires AllValid(q) && q.commits != []
    ensures NextCommittable(q) == Some(q.commits[0].0)
  {
  }

  /** With distinct valid blocks the follower works through the whole queue: every ready while idle
      requests the next block, the measure is zero exactly when the queue is empty, and then the last
      queued index is marked as applied. */
  lemma {:induction false} FollowerDrains(s: Node, turns: seq<Turn>)
    requires Draining(s) && NoDeliveries(turns)
    ensures var s', q := Run(s, turns), s.queue.commits;
            && Draining(s') && LeftOf(q, s'.queue.commits, AppliedIndex(s'.disk))
            && (s'.queue.commits != [] ==> NextCommittable(s'.queue) == Some(s'.queue.commits[0].0))
            && Measure(s') == Measure(s) - TotalProgress(s, turns)
            && (TotalProgress(s, turns) == Measure(s) <==> s'.queue.commits == [])
            && (s'.queue.commits == [] && q != [] ==> AppliedIndex(s'.disk) == q[|q| - 1].1)
  {
    FollowerWorks(s, turns);
    StaysCommittable(s, turns);
    var s', q := Run(s, turns), s.queue.commits;
    MeasureIsZero(s');
    if s'.queue.commits != [] {
      FrontIsCommittable(s'.queue);
    } else if q != [] {
      EmptyIsApplied(q, s');
    }
  }

  // What a follower waits for: a ready while idle, the confirmation of its block otherwise.
  function Serve(s: Node): Turn {
    if InFlight(s).Some? then Turn(Some(BlockCommit(InFlight(s).value, None, 0)), None, None)
    else Turn(None, None, Some(Ready([], None, [], None, [], 0)))
  }

  lemma ServeProgress(s: Node)
    requires Waiting(s)
    ensures NoDelivery(Serve(s))
    ensures Progress(s, Serve(s)) == if InFlight(s).Some? || NextCommittable(s.queue).Some? then 1 else 0
  {
  }

  /** Serving a follower lowers the measure by one exactly when a block is in flight or the front can
      be committed. */
  lemma ServingProgresses(s: Node)
    requires Waiting(s)
    ensures NoDelivery(Serve(s)) && Waiting(Take(s, Serve(s)))
    ensures Measure(Take(s, Serve(s))) ==
            Measure(s) - if InFlight(s).Some? || NextCommittable(s.queue).Some? then 1 else 0
  {
    ServeProgress(s);
    TurnGetsOn(s, Serve(s), Take(s, Serve(s)));
  }

  // Repeated blocks

  predicate Occurs(q: seq<(BlockId, nat)>, k: nat, id: BlockId)
    requires k <= |q|
  {
    exists j :: 0 <= j < k && q[j].0 == id
  }

  // The first position at or after i whose id occurs earlier in the queue; its length if there is none.
  function RepeatFrom(q: seq<(BlockId, nat)>, i: nat): (r: nat)
    requires i <= |q|
    ensures i <= r <= |q|
    ensures forall j :: i <= j < r ==> !Occurs(q, j, q[j].0)
    ensures r < |q| ==> Occurs(q, r, q[r].0)
    decreases |q| - i
  {
    if i == |q| || Occurs(q, i, q[i].0) then i else RepeatFrom(q, i + 1)
  }

  function FirstRepeat(q: seq<(BlockId, nat)>): nat {
    RepeatFrom(q, 0)
  }

  lemma DistinctHasNoRepeat(q: seq<(BlockId, nat)>)
    ensures FirstRepeat(q) == |q| <==> DistinctIds(q)
  {
    var r := FirstRepeat(q);
    if r < |q| {
      var j :| 0 <= j < r && q[j].0 == q[r].0;
      assert !DistinctIds(q);
    } else {
      forall i, j | 0 <= i < j < |q| ensures q[i].0 != q[j].0 {
        assert !Occurs(q, j, q[j].0);
      }
    }
  }

  // The queue is what is left of q, and of its blocks exactly those not popped before are still valid.
  ghost predicate ValidUnlessPopped(q: seq<(BlockId, nat)>, queue: Queue) {
    var k := |q| - |queue.commits|;
    && 0 <= k && queue.commits == q[k..]
    && forall i :: k <= i < |q| ==> (StatusOf(queue, q[i].0).valid <==> !Occurs(q, k, q[i].0))
  }

  lemma PopInvalidates(q: seq<(BlockId, nat)>, queue: Queue)
    requires ValidUnlessPopped(q, queue) && queue.commits != []
    ensures ValidUnlessPopped(q, WithoutFront(queue))
  {
    var k, queue' := |q| - |queue.commits|, WithoutFront(queue);
    assert queue.commits[0] == q[k] && queue'.commits == q[k + 1..];
    forall i | k + 1 <= i < |q| ensures StatusOf(queue', q[i].0).valid <==> !Occurs(q, k + 1, q[i].0) {
      assert Occurs(q, k + 1, q[i].0) <==> Occurs(q, k, q[i].0) || q[k].0 == q[i].0;
    }
  }

  lemma AnnouncementInvalidatesNothing(q: seq<(BlockId, nat)>, queue: Queue, block: Block)
    requires ValidUnlessPopped(q, queue)
    ensures ValidUnlessPopped(q, WithBlock(queue, block))
  {
  }

  predicate NoValidation(turn: Turn) {
    turn.update.Some? ==> !turn.update.value.BlockValid?
  }

  lemma NextStaysValidUnlessPopped(q: seq<(BlockId, nat)>, s: Node, turn: Turn)
    requires ValidUnlessPopped(q, s.queue) && NoValidation(turn)
    ensures ValidUnlessPopped(q, NextQueue(s, turn))
  {
    if turn.update.Some? {
      match turn.update.value
      case BlockNew(block) => AnnouncementInvalidatesNothing(q, s.queue, block);
      case BlockCommit(_, _, _) =>
        if s.queue.commits != [] {
          PopInvalidates(q, s.queue);
        }
      case _ =>
    }
  }

  // The front can be committed exactly when it does not repeat a popped block.
  lemma FrontCommittable(q: seq<(BlockId, nat)>, queue: Queue)
    requires ValidUnlessPopped(q, queue)
    ensures var k := |q| - |queue.commits|;
            NextCommittable(queue).Some? <==> k < |q| && !Occurs(q, k, q[k].0)
  {
    var k := |q| - |queue.commits|;
    if k < |q| {
      assert queue.commits[0] == q[k];
    }
  }

  // How far a follower has got that has not passed a repeated block.
  ghost predicate ShortOfRepeat(q: seq<(BlockId, nat)>, s: Node) {
    var k := |q| - |s.queue.commits|;
    && ValidUnlessPopped(q, s.queue) && k <= FirstRepeat(q)
    && (InFlight(s).Some? ==> k < FirstRepeat(q))
  }

  lemma StartIsShortOfRepeat(s: Node)
    requires Waiting(s) && AllValid(s.queue)
    ensures ShortOfRepeat(s.queue.commits, s)
  {
    var q := s.queue.commits;
    assert q[0..] == q;
    assert q != [] ==> !Occurs(q, 0, q[0].0);
    forall i | 0 <= i < |q| ensures StatusOf(s.queue, q[i].0).valid <==> !Occurs(q, 0, q[i].0) {
    }
  }

  lemma CommittableIsShort(q: seq<(BlockId, nat)>, queue: Queue)
    requires ValidUnlessPopped(q, queue) && |q| - |queue.commits| <= FirstRepeat(q)
    ensures NextCommittable(queue).Some? <==> |q| - |queue.commits| < FirstRepeat(q)
  {
    FrontCommittable(q, queue);
  }

  lemma TurnStaysShort(q: seq<(BlockId, nat)>, s: Node, turn: Turn)
    requires Waiting(s) && ShortOfRepeat(q, s) && NoDelivery(turn) && NoValidation(turn)
    ensures ShortOfRepeat(q, Take(s, turn))
  {
    NextStaysValidUnlessPopped(q, s, turn);
    TurnGetsOn(s, turn, Take(s, turn));
    CommittableIsShort(q, Take(s, turn).queue);
  }

  lemma {:induction false} RunStaysShort(s: Node, turns: seq<Turn>, s': Node)
    requires Waiting(s) && AllValid(s.queue) && NoDeliveries(turns) && s' == Run(s, turns)
    requires forall i :: 0 <= i < |turns| ==> NoValidation(turns[i])
    ensures ShortOfRepeat(s.queue.commits, s')
  {
    if turns == [] {
      StartIsShortOfRepeat(s);
    } else {
      var n := |turns| - 1;
      FollowerWorks(s, turns[..n]);
      RunStaysShort(s, turns[..n], Run(s, turns[..n]));
      TurnStaysShort(s.queue.commits, Run(s, turns[..n]), turns[n]);
    }
  }

  // The steps left until the follower stands in front of the first repeated block.
  function StepsLeft(q: seq<(BlockId, nat)>, s: Node): int {
    Measure(s) - 2 * (|q| - FirstRepeat(q))
  }

  lemma StepsAreLeft(q: seq<(BlockId, nat)>, s: Node)
    requires Waiting(s) && ShortOfRepeat(q, s)
    ensures 0 <= StepsLeft(q, s)
    ensures 0 < StepsLeft(q, s) <==> InFlight(s).Some? || NextCommittable(s.queue).Some?
    ensures 0 < StepsLeft(q, s) <==> |q| - |s.queue.commits| < FirstRepeat(q)
  {
    CommittableIsShort(q, s.queue);
  }

  /** No turn without a new validation or delivery gets a follower past the first queued block whose id
      occurs earlier in the queue, and before it there is always a next step to take. */
  lemma {:induction false} NoTurnPassesRepeat(s: Node, turns: seq<Turn>)
    requires Waiting(s) && AllValid(s.queue) && NoDeliveries(turns)
    requires forall i :: 0 <= i < |turns| ==> NoValidation(turns[i])
    ensures var s', q := Run(s, turns), s.queue.commits;
            var k := |q| - |s'.queue.commits|;
            && Waiting(s') && LeftOf(q, s'.queue.commits, AppliedIndex(s'.disk)) && k <= FirstRepeat(q)
            && (InFlight(s').Some? || NextCommittable(s'.queue).Some? <==> k < FirstRepeat(q))
  {
    FollowerWorks(s, turns);
    RunStaysShort(s, turns, Run(s, turns));
    StepsAreLeft(s.queue.commits, Run(s, turns));
  }

  // The follower served n times.
  function Served(s: Node, n: nat): Node
    decreases n
  {
    if n == 0 then s
    else
      var s' := Served(s, n - 1);
      Take(s', Serve(s'))
  }

  ghost predicate HasSteps(q: seq<(BlockId, nat)>, s: Node, steps: nat) {
    Waiting(s) && ShortOfRepeat(q, s) && StepsLeft(q, s) == steps
  }

  function StepsAfter(steps: nat, n: nat): nat {
    if steps > n then steps - n else 0
  }

  lemma ServedOnceMore(q: seq<(BlockId, nat)>, s: Node, steps: nat, s': Node)
    requires HasSteps(q, s, steps) && s' == Take(s, Serve(s))
    ensures HasSteps(q, s', StepsAfter(steps, 1))
  {
    StepsAreLeft(q, s);
    ServingProgresses(s);
    TurnStaysShort(q, s, Serve(s));
  }

  lemma {:induction false} ServedStepByStep(s: Node, n: nat, q: seq<(BlockId, nat)>, steps: nat, s': Node)
    requires HasSteps(q, s, steps) && s' == Served(s, n)
    ensures HasSteps(q, s', StepsAfter(steps, n))
    decreases n
  {
    if n > 0 {
      var s1 := Served(s, n - 1);
      ServedStepByStep(s, n - 1, q, steps, s1);
      ServedOnceMore(q, s1, StepsAfter(steps, n - 1), s');
    }
  }

  lemma NoStepsLeft(q: seq<(BlockId, nat)>, s: Node)
    requires HasSteps(q, s, 0)
    ensures s.queue.commits == q[FirstRepeat(q)..]
  {
    StepsAreLeft(q, s);
  }

  /** The blocks have to be distinct. A follower with valid blocks, served without new validations or
      deliveries, ends in front of the first block whose id occurs earlier in the queue: it empties its
      queue if and only if all ids are distinct. */
  lemma {:induction false} RepeatedBlockStalls(s: Node, n: nat)
    requires Waiting(s) && AllValid(s.queue) && n >= 2 * |s.queue.commits|
    ensures var q := s.queue.commits;
            && Served(s, n).queue.commits == q[FirstRepeat(q)..]
            && (Served(s, n).queue.commits == [] <==> DistinctIds(q))
  {
    var q := s.queue.commits;
    StartIsShortOfRepeat(s);
    StepsAreLeft(q, s);
    ServedStepByStep(s, n, q, StepsLeft(q, s), Served(s, n));
    NoStepsLeft(q, Served(s, n));
    DistinctHasNoRepeat(q);
  }
}
