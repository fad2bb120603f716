/** What each turn of the engine loop adds to the record of a node, and what that comes to over whole
    runs: which blocks are settled, known and valid, which changes are proposed, when blocks are
    finished. */
module Turns {
  import opened Types
  import opened Files
  import opened FsStorages
  import opened LogModel
  import opened BlockQueues
  import opened Membership
  import opened NodeSpec
  import opened Ledgers
  import opened NodeRuns
  import opened Durability
  import opened Effects
  import opened Deliveries
  import opened Readies

  // Updates

  // A leader's next move after its block: the next block, the change the setting asks for, or nothing.
  function NextMove(s: Node, setting: Option<set<PeerBytes>>): seq<Action> {
    if setting.None? then []
    else
      var difference := Difference(setting.value, s.peers.Values);
      if difference == {} then [Initialize]
      else if |difference| == 1 && 8 <= |Element(difference)|
      then [ProposeConfChange(ChangeFor(setting.value, Element(difference)), s.leads)]
      else []
  }

  function UpdateActions(s: Node, update: Update): seq<Action> {
    match update
    case BlockNew(block) => [CheckBlocks(block.id)]
    case BlockValid(id) => [Validated(id)] + if Unproposed(s) == Some(id) then [Propose(id, s.leads)] else []
    case BlockCommit(id, setting, _) =>
      if InFlight(s) == Some(id) && s.queue.commits != []
      then Settlement(s) + if s.leader.Some? then NextMove(s, setting) else [] else []
    case _ => []
  }

  // When handling an update panics.
  predicate UpdateFails(s: Node, update: Update) {
    || (update.PeerMessage? && update.leads.None?)
    || (update.BlockCommit? && s.leader == Some(LeaderState.Committing(update.id)) && NextMove(s, update.setting) == [])
  }

  lemma {:induction false} MoveIs(s: Node, setting: Option<set<PeerBytes>>, now: nat, t: Trace, s': Node)
    requires MovedOn(s, setting, now, t, s')
    ensures s'.trace == After(t, NextMove(s, setting))
    ensures s'.status.Panicked? <==> NextMove(s, setting) == []
    ensures s'.status.Running? <==> NextMove(s, setting) != []
  {
    if NothingChanged(s, setting) {
      AfterOne(t, Initialize);
    } else if p :| ChangedIn(s, setting, p) {
      assert Element(Difference(setting.value, s.peers.Values)) == p;
      AfterOne(t, ProposeConfChange(ChangeFor(setting.value, p), s.leads));
    } else {
      assert NextMove(s, setting) == [] by {
        if setting.Some? && |Difference(setting.value, s.peers.Values)| == 1 {
          assert !ChangedIn(s, setting, Element(Difference(setting.value, s.peers.Values)));
        }
      }
    }
  }

  lemma NoticeInOrder(s: Node, update: Update)
    requires s.status.Running? && !update.BlockCommit?
    ensures var s' := HandleUpdate(s, update);
            && s'.trace == After(s.trace, UpdateActions(s, update)) && s'.peers == s.peers && s'.disk == s.disk
            && (s'.status.Panicked? <==> UpdateFails(s, update)) && (s'.status.Stopped? <==> update.Shutdown?)
  {
    match update
    case BlockNew(block) => AfterOne(s.trace, CheckBlocks(block.id));
    case BlockValid(id) => ValidationInOrder(s, id);
    case _ =>
  }

  lemma ValidationInOrder(s: Node, id: BlockId)
    ensures var s' := OnBlockValid(s, id);
            && s'.trace == After(s.trace, UpdateActions(s, BlockValid(id)))
            && s'.peers == s.peers && s'.disk == s.disk && s'.status == s.status
  {
    AfterOne(s.trace, Validated(id));
    if Unproposed(s) == Some(id) {
      AfterOneMore(s.trace, [Validated(id)], Propose(id, s.leads));
    } else {
      assert [Validated(id)] + [] == [Validated(id)];
    }
  }

  lemma LeaderConfirmationInOrder(s: Node, id: BlockId, setting: Option<set<PeerBytes>>, now: nat)
    requires s.status.Running? && s.leader == Some(LeaderState.Committing(id)) && s.follower.None?
    requires s.queue.commits != []
    ensures var s', update := OnBlockCommit(s, id, setting, now), BlockCommit(id, setting, now);
            && s'.trace == After(s.trace, UpdateActions(s, update)) && FrontSettled(s, s')
            && (s'.status.Panicked? <==> UpdateFails(s, update)) && !s'.status.Stopped?
  {
    LeaderConfirmed(s, id, setting, now);
    MoveIs(s, setting, now, After(s.trace, Settlement(s)), OnBlockCommit(s, id, setting, now));
    AfterConcat(s.trace, Settlement(s), NextMove(s, setting));
  }

  lemma ConfirmationInOrder(s: Node, id: BlockId, setting: Option<set<PeerBytes>>, now: nat)
    requires s.status.Running? && OneRole(s) && InFlight(s) == Some(id) && s.queue.commits != []
    ensures var s', update := OnBlockCommit(s, id, setting, now), BlockCommit(id, setting, now);
            && s'.trace == After(s.trace, UpdateActions(s, update)) && FrontSettled(s, s')
            && (s'.status.Panicked? <==> UpdateFails(s, update)) && !s'.status.Stopped?
  {
    if s.leader.Some? {
      LeaderConfirmationInOrder(s, id, setting, now);
    } else {
      FollowerConfirmed(s, id, setting, now);
      assert Settlement(s) + [] == Settlement(s);
    }
  }

  /** Every action an update makes a node do, in order, and when it ends the node. */
  lemma UpdateInOrder(s: Node, update: Update)
    requires s.status.Running? && Good(s)
    ensures var s' := HandleUpdate(s, update);
            && s'.trace == After(s.trace, UpdateActions(s, update)) && s'.peers == s.peers
            && (s'.status.Panicked? <==> UpdateFails(s, update)) && (s'.status.Stopped? <==> update.Shutdown?)
  {
    if update.BlockCommit? {
      if InFlight(s) == Some(update.id) {
        ConfirmationInOrder(s, update.id, update.setting, update.now);
      } else {
        OtherConfirmation(s, update.id, update.setting, update.now);
      }
    } else {
      NoticeInOrder(s, update);
    }
  }

  // Ticks

  // A block has been built for the period.
  predicate Due(s: Node, t: TickInput) {
    IsBuilding(s) && s.leader.value.since + s.period <= t.now
  }

  function TickActions(s: Node, t: TickInput): seq<Action> {
    if Due(s, t) && t.summary.Answered? && t.final.Answered? then [Finalize(t.final.value)] else []
  }

  /** A tick finishes a block if and only if one has been built for at least the period and the validator
      both summarizes and finalizes it; it panics if and only if one of them fails when asked, and is
      asked nothing before the period is over. */
  lemma TickInOrder(s: Node, t: TickInput)
    requires s.status.Running?
    ensures var s' := Tick(s, t);
            && s'.trace == After(s.trace, TickActions(s, t))
            && s' == s.(leads := t.leads, leader := s'.leader, trace := s'.trace, status := s'.status)
            && s'.leader == (if TickActions(s, t) == [] then s.leader else Some(Publishing(t.final.value)))
            && (s'.status.Panicked? <==>
                  Due(s, t) && (t.summary.ServiceFailed? || (t.summary.Answered? && t.final.ServiceFailed?)))
            && !s'.status.Stopped?
  {
    if t.final.Answered? {
      AfterOne(s.trace, Finalize(t.final.value));
    }
  }

  // Readies, however they end

  // The actions of a ready: none of them settles, checks, validates, finishes or proposes anything.
  predicate OfReady(a: Action) {
    a.Initialize? || a.Cancel? || a.Commit? || a.Send? || a.Deliver? || (a.Disk? && a.op.name != AppliedFile)
  }

  // The trace t continues p with such actions.
  predicate Continues(p: Trace, t: Trace) {
    t == p || (t.Then? && OfReady(t.action) && Continues(p, t.before))
  }

  lemma {:induction false} ContinuesOn(p: Trace, q: Trace, t: Trace)
    requires Continues(p, q) && Continues(q, t)
    ensures Continues(p, t)
  {
    if t != q {
      ContinuesOn(p, q, t.before);
    }
  }

  // The node s' is s after part of a ready, as far as backlog, disk and record go.
  predicate Goes(s: Node, s': Node) {
    && Continues(s.trace, s'.trace) && s'.queue.backlog == s.queue.backlog
    && AppliedIndex(s'.disk) == AppliedIndex(s.disk) && s'.leads == s.leads
  }

  lemma GoesOn(s: Node, s': Node, s'': Node)
    requires Goes(s, s') && Goes(s', s'')
    ensures Goes(s, s'')
  {
    ContinuesOn(s.trace, s'.trace, s''.trace);
  }

  lemma {:induction false} RecordContinues(t: Trace, ops: seq<FileOp>)
    requires forall i :: 0 <= i < |ops| ==> ops[i].name != AppliedFile
    ensures Continues(t, Record(t, ops))
  {
    if ops != [] {
      RecordContinues(t, ops[..|ops| - 1]);
    }
  }

  lemma {:induction false} WritingGoes(s: Node, ops: seq<FileOp>)
    requires forall i :: 0 <= i < |ops| ==> ops[i].name != AppliedFile
    ensures Goes(s, WriteAll(s, ops))
  {
    RecordContinues(s.trace, ops);
    ApplyOpsKeeps(s.disk, ops, AppliedFile);
  }

  lemma {:induction false} SendingGoes(s: Node, messages: seq<Message>)
    ensures Goes(s, SendAll(s, messages))
  {
    if messages != [] {
      var s1 := SendAll(s, messages[..|messages| - 1]);
      SendingGoes(s, messages[..|messages| - 1]);
      assert Goes(s1, SendOne(s1, messages[|messages| - 1]));
      GoesOn(s, s1, SendAll(s, messages));
    }
  }

  lemma StoringGoes(s: Node, r: Ready)
    ensures Goes(s, Install(s, r.snapshot)) && Goes(s, Persist(s, r))
  {
    if r.snapshot.Some? {
      SnapshotSparesApplied(s.disk, r.snapshot.value);
      WritingGoes(s, ApplySnapshotPlan(s.disk, r.snapshot.value).ops);
    }
    var s1 := WriteAll(s, AppendPlan(r.entries).ops);
    WritingGoes(s, AppendPlan(r.entries).ops);
    if r.hs.Some? {
      WritingGoes(s1, HardStateOps(r));
      GoesOn(s, s1, Persist(s, r));
    }
  }

  lemma AdoptionGoes(s: Node, applied: Applied, now: nat)
    ensures Goes(s, Adopt(s, applied, now))
  {
  }

  lemma DeliveryGoes(s: Node, e: Entry, now: nat)
    ensures Goes(s, DeliverOne(s, e, now))
  {
    var s1 := Do(s, Deliver(e));
    assert Goes(s, s1);
    if e.payload.Conf? {
      var applied := ApplyConfChange(s1.self, s1.peers, e.payload.change);
      AdoptionGoes(s1, applied, now);
      GoesOn(s, s1, Adopt(s1, applied, now));
    }
  }

  lemma {:induction false} DeliveriesGo(s: Node, entries: seq<Entry>, now: nat)
    ensures Goes(s, DeliverAll(s, entries, now))
    decreases |entries|
  {
    if entries != [] && s.status.Running? {
      var s1 := DeliverOne(s, entries[0], now);
      DeliveryGoes(s, entries[0], now);
      DeliveriesGo(s1, entries[1..], now);
      GoesOn(s, s1, DeliverAll(s, entries, now));
    }
  }

  lemma RequestGoes(s: Node)
    ensures Goes(s, CommitNext(s))
  {
    if NextCommittable(s.queue).Some? {
      var id := NextCommittable(s.queue).value;
      var s1 := if s.leader == Some(Proposing(id))
                then Do(s.(leader := Some(LeaderState.Committing(id))), Commit(id)) else s;
      assert Goes(s, s1);
      GoesOn(s, s1, CommitNext(s));
    }
  }

  lemma FinishGoes(s: Node, r: Ready)
    ensures Goes(s, FinishReady(s, r))
  {
    var s0 := if s.leads then s else StepDown(s);
    var s1 := if s.leads then s else SendAll(s0, r.messages);
    var s2 := DeliverAll(s1, r.committed, r.now);
    assert Goes(s, s0);
    SendingGoes(s0, r.messages);
    GoesOn(s, s0, s1);
    DeliveriesGo(s1, r.committed, r.now);
    GoesOn(s, s1, s2);
    RequestGoes(s2);
    GoesOn(s, s2, CommitNext(s2));
  }

  lemma StoreReadyGoes(s: Node, r: Ready)
    ensures Goes(s, StoreReady(s, r))
  {
    var s1 := Install(s, r.snapshot);
    StoringGoes(s, r);
    StoringGoes(s1, r);
    GoesOn(s, s1, Persist(s1, r));
    FinishGoes(Persist(s1, r), r);
    GoesOn(s, Persist(s1, r), FinishReady(Persist(s1, r), r));
  }

  lemma ReadyGoes(s: Node, r: Ready)
    ensures Goes(s, ProcessReady(s, r))
  {
    var s0 := s.(readyRole := s.leads);
    var s1 := if s.leads then StepUp(s0, r.now) else s0;
    assert Goes(s, s1);
    if s.leads {
      SendingGoes(s1, r.messages);
      GoesOn(s, s1, PrepareReady(s, r));
    }
    StoreReadyGoes(PrepareReady(s, r), r);
    GoesOn(s, PrepareReady(s, r), StoreReady(PrepareReady(s, r), r));
  }

  // What a turn adds

  function Taken(s: Node, turn: Turn): Option<Update> {
    if s.status.Running? then turn.update else None
  }

  // The block whose confirmation the turn brings: the one in flight, which is the front of the queue.
  function Confirmed(s: Node, turn: Turn): seq<(BlockId, nat)> {
    match Taken(s, turn)
    case Some(BlockCommit(id, _, _)) =>
      if InFlight(s) == Some(id) && s.queue.commits != [] then [s.queue.commits[0]] else []
    case _ => []
  }

  // The membership change the setting on chain asks for once a leader's block is confirmed.
  function Detected(s: Node, turn: Turn): seq<ConfChange> {
    if Confirmed(s, turn) == [] || s.leader.None? || turn.update.value.setting.None? then []
    else
      var setting := turn.update.value.setting.value;
      var difference := Difference(setting, s.peers.Values);
      if |difference| == 1 && 8 <= |Element(difference)| then [ChangeFor(setting, Element(difference))] else []
  }

  function Announced(s: Node, turn: Turn): seq<BlockId> {
    match Taken(s, turn)
    case Some(BlockNew(block)) => [block.id]
    case _ => []
  }

  function Reported(s: Node, turn: Turn): seq<BlockId> {
    match Taken(s, turn)
    case Some(BlockValid(id)) => [id]
    case _ => []
  }

  // The block finished in the turn: one that has been built for the period, and the validator delivers.
  function Finished(s: Node, turn: Turn): seq<BlockId> {
    var s1 := AfterUpdate(s, turn);
    if s1.status.Running? && turn.tick.Some? && Due(s1, turn.tick.value) && turn.tick.value.summary.Answered? &&
       turn.tick.value.final.Answered?
    then [turn.tick.value.final.value] else []
  }

  function Offered(s: Node, turn: Turn): seq<BlockId> {
    match Taken(s, turn)
    case Some(BlockValid(id)) => if Unproposed(s) == Some(id) then [id] else []
    case _ => []
  }

  // What is added to the record: blocks popped and marked, changes proposed, blocks sent to be checked,
  // reported valid, proposed and finished.
  datatype Growth = Growth(popped: seq<(BlockId, nat)>, changes: seq<ConfChange>, checked: seq<BlockId>,
                           validated: seq<BlockId>, proposed: seq<BlockId>, finished: seq<BlockId>)

  const NONE := Growth([], [], [], [], [], [])

  function Plus(g: Growth, h: Growth): Growth {
    Growth(g.popped + h.popped, g.changes + h.changes, g.checked + h.checked, g.validated + h.validated,
           g.proposed + h.proposed, g.finished + h.finished)
  }

  predicate Grown(l: Ledger, m: Ledger, g: Growth) {
    && m.popped == l.popped + g.popped && m.marked == l.marked + Ids(g.popped)
    && m.changes == l.changes + g.changes
    && m.checked == l.checked + g.checked && m.validated == l.validated + g.validated
    && m.proposed == l.proposed + g.proposed && m.finalized == l.finalized + g.finished
  }

  // What a turn adds, from the update, the state before it, and the validator's answers.
  function Added(s: Node, turn: Turn): Growth {
    Growth(Confirmed(s, turn), Detected(s, turn), Announced(s, turn), Reported(s, turn), Offered(s, turn),
           Finished(s, turn))
  }

  lemma NothingGrown(l: Ledger)
    ensures Grown(l, l, NONE)
  {
    assert Ids([]) == [];
  }

  lemma ContinuedOnce(l: Ledger, a: Action)
    requires OfReady(a)
    ensures Grown(l, Post(l, a), NONE)
  {
    NothingGrown(l);
  }

  lemma {:induction false} ContinuedRecord(p: Trace, t: Trace)
    requires Continues(p, t)
    ensures Grown(Account(p), Account(t), NONE)
  {
    if t == p {
      NothingGrown(Account(p));
    } else {
      ContinuedRecord(p, t.before);
      ContinuedOnce(Account(t.before), t.action);
    }
  }

  lemma {:induction false} SettlementRecord(s: Node, t: Trace)
    requires s.queue.commits != [] && t == s.trace
    ensures Grown(Account(t), Account(After(t, Settlement(s))), NONE.(popped := [s.queue.commits[0]]))
  {
    AfterTwo(t, Settlement(s)[0], Settlement(s)[1]);
    var l := Account(t);
    assert Ids([s.queue.commits[0]]) == [s.queue.commits[0].0];
    assert Post(l, Settlement(s)[0]) == l.(popped := l.popped + [s.queue.commits[0]]);
  }

  function ChangesOf(move: seq<Action>): seq<ConfChange> {
    if move != [] && move[0].ProposeConfChange? then [move[0].change] else []
  }

  lemma {:induction false} MoveRecord(t: Trace, move: seq<Action>)
    requires |move| <= 1 && (move != [] ==> move[0].Initialize? || move[0].ProposeConfChange?)
    ensures Grown(Account(t), Account(After(t, move)), NONE.(changes := ChangesOf(move)))
  {
    NothingGrown(Account(t));
    if move != [] {
      AfterOne(t, move[0]);
    }
  }

  lemma GrownTwice(l: Ledger, m: Ledger, n: Ledger, g: Growth, h: Growth)
    requires Grown(l, m, g) && Grown(m, n, h)
    ensures Grown(l, n, Plus(g, h))
  {
    IdsConcat(g.popped, h.popped);
  }

  lemma NonePlus(g: Growth)
    ensures Plus(g, NONE) == g == Plus(NONE, g)
  {
  }

  lemma {:induction false} SettledAndMoved(s: Node, move: seq<Action>)
    requires s.queue.commits != []
    requires |move| <= 1 && (move != [] ==> move[0].Initialize? || move[0].ProposeConfChange?)
    ensures Grown(Account(s.trace), Account(After(s.trace, Settlement(s) + move)),
                  NONE.(popped := [s.queue.commits[0]], changes := ChangesOf(move)))
  {
    var t := After(s.trace, Settlement(s));
    var g, h := NONE.(popped := [s.queue.commits[0]]), NONE.(changes := ChangesOf(move));
    SettlementRecord(s, s.trace);
    AfterConcat(s.trace, Settlement(s), move);
    MoveRecord(t, move);
    GrownTwice(Account(s.trace), Account(t), Account(After(t, move)), g, h);
    assert Plus(g, h) == NONE.(popped := [s.queue.commits[0]], changes := ChangesOf(move));
  }

  lemma ConfirmationRecord(s: Node, turn: Turn)
    requires s.status.Running? && turn.update.Some? && turn.update.value.BlockCommit?
    requires InFlight(s) == Some(turn.update.value.id) && s.queue.commits != []
    ensures Grown(Account(s.trace), Account(After(s.trace, UpdateActions(s, turn.update.value))),
                  NONE.(popped := Confirmed(s, turn), changes := Detected(s, turn)))
  {
    var move := if s.leader.Some? then NextMove(s, turn.update.value.setting) else [];
    assert ChangesOf(move) == Detected(s, turn);
    SettledAndMoved(s, move);
  }

  lemma ValidationRecord(s: Node, id: BlockId)
    ensures Grown(Account(s.trace), Account(After(s.trace, UpdateActions(s, BlockValid(id)))),
                  NONE.(validated := [id], proposed := if Unproposed(s) == Some(id) then [id] else []))
  {
    NothingGrown(Account(s.trace));
    var t := Then(s.trace, Validated(id));
    AfterOne(s.trace, Validated(id));
    if Unproposed(s) == Some(id) {
      AfterOneMore(s.trace, [Validated(id)], Propose(id, s.leads));
    } else {
      assert [Validated(id)] + [] == [Validated(id)];
    }
    assert Account(t).popped == Account(s.trace).popped && Account(t).changes == Account(s.trace).changes;
  }

  lemma UpdateRecord(s: Node, turn: Turn)
    requires s.status.Running? && OneRole(s) && turn.update.Some?
    ensures Grown(Account(s.trace), Account(After(s.trace, UpdateActions(s, turn.update.value))),
                  Added(s, turn).(finished := []))
  {
    NothingGrown(Account(s.trace));
    match turn.update.value
    case BlockNew(block) => AfterOne(s.trace, CheckBlocks(block.id));
    case BlockValid(id) => ValidationRecord(s, id);
    case BlockCommit(id, _, _) =>
      if InFlight(s) == Some(id) && s.queue.commits != [] {
        ConfirmationRecord(s, turn);
      }
    case _ =>
  }

  lemma TickRecord(s: Node, t: TickInput)
    ensures Grown(Account(s.trace), Account(After(s.trace, TickActions(s, t))),
                  NONE.(finished := if TickActions(s, t) != [] then [t.final.value] else []))
  {
    NothingGrown(Account(s.trace));
    if TickActions(s, t) != [] {
      AfterOne(s.trace, TickActions(s, t)[0]);
    }
  }

  lemma AfterUpdateRecord(s: Node, turn: Turn)
    requires Good(s) && s.status.Running?
    ensures Grown(Account(s.trace), Account(AfterUpdate(s, turn).trace), Added(s, turn).(finished := []))
  {
    assert OneRole(s);
    if turn.update.Some? {
      UpdateInOrder(s, turn.update.value);
      UpdateRecord(s, turn);
    } else {
      NothingGrown(Account(s.trace));
    }
  }

  lemma AfterTickRecord(s: Node, turn: Turn)
    ensures Grown(Account(AfterUpdate(s, turn).trace), Account(AfterTick(s, turn).trace),
                  NONE.(finished := Finished(s, turn)))
  {
    var s1 := AfterUpdate(s, turn);
    if s1.status.Running? && turn.tick.Some? {
      TickInOrder(s1, turn.tick.value);
      TickRecord(s1, turn.tick.value);
    } else {
      NothingGrown(Account(s1.trace));
    }
  }

  // The node before the ready of a turn.
  lemma HeadRecord(s: Node, turn: Turn)
    requires Good(s) && s.status.Running?
    ensures Grown(Account(s.trace), Account(AfterTick(s, turn).trace), Added(s, turn))
  {
    var g, h := Added(s, turn).(finished := []), NONE.(finished := Finished(s, turn));
    AfterUpdateRecord(s, turn);
    AfterTickRecord(s, turn);
    GrownTwice(Account(s.trace), Account(AfterUpdate(s, turn).trace), Account(AfterTick(s, turn).trace), g, h);
    assert Plus(g, h) == Added(s, turn);
  }

  lemma HaltedAddsNothing(s: Node, turn: Turn)
    requires !s.status.Running?
    ensures Added(s, turn) == NONE && Take(s, turn) == s && AfterUpdate(s, turn) == s
  {
  }

  lemma TurnRecord(s: Node, turn: Turn)
    requires Good(s)
    ensures Grown(Account(s.trace), Account(Take(s, turn).trace), Added(s, turn))
  {
    if s.status.Running? {
      var s2 := AfterTick(s, turn);
      HeadRecord(s, turn);
      if s2.status.Running? && turn.ready.Some? {
        ReadyGoes(s2, turn.ready.value);
        ContinuedRecord(s2.trace, Take(s, turn).trace);
        GrownTwice(Account(s.trace), Account(s2.trace), Account(Take(s, turn).trace), Added(s, turn), NONE);
        NonePlus(Added(s, turn));
      }
    } else {
      HaltedAddsNothing(s, turn);
      NothingGrown(Account(s.trace));
    }
  }

  // Whole runs

  function AllAdded(s: Node, turns: seq<Turn>): Growth {
    if turns == [] then NONE
    else
      var n := |turns| - 1;
      Plus(AllAdded(s, turns[..n]), Added(NodeSpec.Run(s, turns[..n]), turns[n]))
  }

  lemma {:induction false} RunRecord(s: Node, turns: seq<Turn>)
    requires Good(s)
    ensures Grown(Account(s.trace), Account(NodeSpec.Run(s, turns).trace), AllAdded(s, turns))
  {
    if turns == [] {
      NothingGrown(Account(s.trace));
    } else {
      var n := |turns| - 1;
      var s' := NodeSpec.Run(s, turns[..n]);
      RunRecord(s, turns[..n]);
      RunIsGood(s, turns[..n]);
      TurnRecord(s', turns[n]);
      GrownTwice(Account(s.trace), Account(s'.trace), Account(NodeSpec.Run(s, turns).trace), AllAdded(s, turns[..n]),
                 Added(s', turns[n]));
    }
  }

  /** The record of every run, turn by turn: the blocks popped and marked are the blocks in flight whose
      confirmations came; the membership changes proposed are those the setting asked for when a leader's
      block was confirmed; the blocks sent to be checked and reported valid are those announced and
      validated; a block is proposed when it is validated and unproposed; and blocks are finished only
      after the period. All in the order of the turns, and nothing else. */
  lemma {:induction false} RecordFollowsTurns(self: PeerId, period: nat, setting: seq<PeerId>, disk: Directory,
                                              turns: seq<Turn>)
    ensures var start := Boot(self, period, setting, disk);
            var l, g := Account(NodeSpec.Run(start, turns).trace), AllAdded(start, turns);
            && l.popped == g.popped && l.marked == Ids(g.popped) && l.changes == g.changes
            && l.checked == g.checked && l.validated == g.validated
            && l.proposed == g.proposed && l.finalized == g.finished
  {
    BootIsGood(self, period, setting, disk);
    RunRecord(Boot(self, period, setting, disk), turns);
  }

  // Settled blocks

  lemma ConfirmedIsInFlight(s: Node, turn: Turn)
    requires Good(s)
    ensures Confirmed(s, turn) != [] ==> |Confirmed(s, turn)| == 1 && InFlight(s) == Some(Confirmed(s, turn)[0].0)
    ensures Confirmed(s, turn) != [] <==>
            s.status.Running? && turn.update.Some? && turn.update.value.BlockCommit? &&
            InFlight(s) == Some(turn.update.value.id)
  {
  }

  lemma UpdateQueue(s: Node, turn: Turn)
    requires Good(s)
    ensures var q, q' := s.queue, AfterUpdate(s, turn).queue;
            q' == match Taken(s, turn)
                  case Some(BlockNew(block)) => WithBlock(q, block)
                  case Some(BlockValid(id)) => WithValid(q, id)
                  case Some(BlockCommit(_, _, _)) => if Confirmed(s, turn) != [] then WithoutFront(q) else q
                  case _ => q
  {
    if s.status.Running? && turn.update.Some? && turn.update.value.BlockCommit? {
      var (id, setting, now) := (turn.update.value.id, turn.update.value.setting, turn.update.value.now);
      if InFlight(s) == Some(id) {
        ConfirmationInOrder(s, id, setting, now);
      } else {
        OtherConfirmation(s, id, setting, now);
      }
    }
  }

  lemma MarkedIndex(d: Directory, index: nat)
    ensures AppliedIndex(d[AppliedFile := Num(index)]) == index
  {
  }

  // Only a confirmation changes the applied index.
  lemma UpdateApplied(s: Node, turn: Turn)
    requires Good(s)
    ensures AppliedIndex(AfterUpdate(s, turn).disk) ==
            if Confirmed(s, turn) != [] then Confirmed(s, turn)[0].1 else AppliedIndex(s.disk)
  {
    if s.status.Running? && turn.update.Some? {
      var update := turn.update.value;
      if !update.BlockCommit? {
        NoticeInOrder(s, update);
      } else if InFlight(s) == Some(update.id) {
        ConfirmationInOrder(s, update.id, update.setting, update.now);
        MarkedIndex(s.disk, s.queue.commits[0].1);
      } else {
        OtherConfirmation(s, update.id, update.setting, update.now);
      }
    }
  }

  lemma TickLeavesRest(s: Node, turn: Turn)
    ensures var s1, s2 := AfterUpdate(s, turn), AfterTick(s, turn);
            s2.queue == s1.queue && s2.disk == s1.disk && s2.peers == s1.peers
  {
    if AfterUpdate(s, turn).status.Running? && turn.tick.Some? {
      TickInOrder(AfterUpdate(s, turn), turn.tick.value);
    }
  }

  // Tick and ready leave backlog and applied index alone.
  lemma RestOfTurn(s: Node, turn: Turn)
    ensures var s1, s' := AfterUpdate(s, turn), Take(s, turn);
            s'.queue.backlog == s1.queue.backlog && AppliedIndex(s'.disk) == AppliedIndex(s1.disk)
  {
    var s2 := AfterTick(s, turn);
    TickLeavesRest(s, turn);
    if s2.status.Running? && turn.ready.Some? {
      ReadyGoes(s2, turn.ready.value);
    }
  }

  /** After any run, a turn settles the block in flight if and only if it brings the confirmation of
      exactly that block: it is then popped and marked and its index becomes the applied index. Otherwise
      nothing is popped and the applied index stays. */
  lemma {:induction false} OnlyConfirmedBlocksSettle(self: PeerId, period: nat, setting: seq<PeerId>, disk: Directory,
                                                     turns: seq<Turn>, turn: Turn)
    ensures var s := NodeSpec.Run(Boot(self, period, setting, disk), turns);
            var s', settled := Take(s, turn), Confirmed(s, turn);
            && (settled != [] <==>
                  s.status.Running? && turn.update.Some? && turn.update.value.BlockCommit? &&
                  InFlight(s) == Some(turn.update.value.id))
            && (settled != [] ==> InFlight(s) == Some(settled[0].0))
            && Account(s'.trace).popped == Account(s.trace).popped + settled
            && Account(s'.trace).marked == Account(s.trace).marked + Ids(settled)
            && AppliedIndex(s'.disk) == if settled != [] then settled[0].1 else AppliedIndex(s.disk)
  {
    var s := NodeSpec.Run(Boot(self, period, setting, disk), turns);
    BootIsGood(self, period, setting, disk);
    RunIsGood(Boot(self, period, setting, disk), turns);
    ConfirmedIsInFlight(s, turn);
    TurnRecord(s, turn);
    UpdateApplied(s, turn);
    RestOfTurn(s, turn);
  }

  // The backlog

  predicate Settles(s: Node, turn: Turn, id: BlockId) {
    Confirmed(s, turn) != [] && Confirmed(s, turn)[0].0 == id
  }

  // A BlockValid for the id came, and no pop of it since.
  predicate ValidAfter(s: Node, turns: seq<Turn>, id: BlockId) {
    turns != [] &&
    var n := |turns| - 1;
    var s' := NodeSpec.Run(s, turns[..n]);
    Reported(s', turns[n]) == [id] || (ValidAfter(s, turns[..n], id) && !Settles(s', turns[n], id))
  }

  // A BlockNew or BlockValid for the id came, and no pop of it since.
  predicate KnownAfter(s: Node, turns: seq<Turn>, id: BlockId) {
    turns != [] &&
    var n := |turns| - 1;
    var s' := NodeSpec.Run(s, turns[..n]);
    || Announced(s', turns[n]) == [id] || Reported(s', turns[n]) == [id]
    || (KnownAfter(s, turns[..n], id) && !Settles(s', turns[n], id))
  }

  lemma BacklogStep(s: Node, turn: Turn, id: BlockId)
    requires Good(s)
    ensures var q, q' := s.queue, Take(s, turn).queue;
            && (StatusOf(q', id).valid <==>
                  Reported(s, turn) == [id] || (StatusOf(q, id).valid && !Settles(s, turn, id)))
            && (id in q'.backlog <==>
                  Announced(s, turn) == [id] || Reported(s, turn) == [id] || (id in q.backlog && !Settles(s, turn, id)))
  {
    UpdateQueue(s, turn);
    RestOfTurn(s, turn);
    if Confirmed(s, turn) != [] {
      PopForgetsOne(s.queue);
    }
  }

  lemma {:induction false} BacklogOf(s: Node, turns: seq<Turn>, id: BlockId)
    requires Good(s) && s.queue.backlog == map[]
    ensures StatusOf(NodeSpec.Run(s, turns).queue, id).valid <==> ValidAfter(s, turns, id)
    ensures id in NodeSpec.Run(s, turns).queue.backlog <==> KnownAfter(s, turns, id)
  {
    if turns != [] {
      var n := |turns| - 1;
      BacklogOf(s, turns[..n], id);
      RunIsGood(s, turns[..n]);
      BacklogStep(NodeSpec.Run(s, turns[..n]), turns[n], id);
    }
  }

  /** Over every run, whatever is delivered: a block is valid in the backlog if and only if a BlockValid
      for it came after the last time it was popped, and known if a BlockNew or BlockValid did. */
  lemma {:induction false} BacklogFollowsTurns(self: PeerId, period: nat, setting: seq<PeerId>, disk: Directory,
                                               turns: seq<Turn>, id: BlockId)
    ensures var start := Boot(self, period, setting, disk);
            var q := NodeSpec.Run(start, turns).queue;
            && (StatusOf(q, id).valid <==> ValidAfter(start, turns, id))
            && (id in q.backlog <==> KnownAfter(start, turns, id))
  {
    BootIsGood(self, period, setting, disk);
    BacklogOf(Boot(self, period, setting, disk), turns, id);
  }

  // Every action of a turn, in order

  function UpdatePart(s: Node, turn: Turn): seq<Action> {
    if turn.update.Some? then UpdateActions(s, turn.update.value) else []
  }

  function TickPart(s: Node, turn: Turn): seq<Action> {
    if turn.tick.Some? then TickActions(s, turn.tick.value) else []
  }

  function ReadyPart(s: Node, turn: Turn): seq<Action> {
    if turn.ready.Some? then ReadyActions(s, turn.ready.value, NextOf(s, turn.ready.value)) else []
  }

  function TurnActions(s: Node, turn: Turn): seq<Action> {
    UpdatePart(s, turn) + TickPart(AfterUpdate(s, turn), turn) + ReadyPart(AfterTick(s, turn), turn)
  }

  function EntriesFor(turn: Turn): seq<Entry> {
    if turn.ready.Some? then turn.ready.value.committed else []
  }

  lemma GoodAfterUpdate(s: Node, turn: Turn)
    requires Good(s)
    ensures Good(AfterUpdate(s, turn))
  {
    if s.status.Running? && turn.update.Some? {
      HandleUpdateIsGood(s, turn.update.value);
    }
  }

  lemma GoodAfterTick(s: Node, turn: Turn)
    requires Good(s)
    ensures Good(AfterTick(s, turn))
  {
    GoodAfterUpdate(s, turn);
    if AfterUpdate(s, turn).status.Running? && turn.tick.Some? {
      TickIsGood(AfterUpdate(s, turn), turn.tick.value);
    }
  }

  lemma UpdatePartTaken(s: Node, turn: Turn)
    requires Good(s) && s.status.Running?
    ensures var s1 := AfterUpdate(s, turn);
            s1.trace == After(s.trace, UpdatePart(s, turn)) && s1.peers == s.peers
  {
    if turn.update.Some? {
      UpdateInOrder(s, turn.update.value);
    }
  }

  lemma TickPartTaken(s: Node, turn: Turn)
    requires AfterUpdate(s, turn).status.Running?
    ensures var s1, s2 := AfterUpdate(s, turn), AfterTick(s, turn);
            s2.trace == After(s1.trace, TickPart(s1, turn)) && s2.peers == s1.peers
  {
    if turn.tick.Some? {
      TickInOrder(AfterUpdate(s, turn), turn.tick.value);
    }
  }

  lemma ReadyPartTaken(s: Node, turn: Turn)
    requires Good(AfterTick(s, turn)) && AfterTick(s, turn).status.Running? && Take(s, turn).status.Running?
    ensures var s2, s' := AfterTick(s, turn), Take(s, turn);
            && s'.trace == After(s2.trace, ReadyPart(s2, turn))
            && (forall id :: Lookup(s'.peers, id) == FiledUnder(Lookup(s2.peers, id), EntriesFor(turn), id))
  {
    if turn.ready.Some? {
      ReadyInOrder(AfterTick(s, turn), turn.ready.value);
    }
  }

  lemma RunsThroughout(s: Node, turn: Turn)
    requires Take(s, turn).status.Running?
    ensures s.status.Running? && AfterUpdate(s, turn).status.Running? && AfterTick(s, turn).status.Running?
  {
  }

  // What a turn that does not end the node does, in order, and what it makes of the peer map.
  lemma TurnInOrder(s: Node, turn: Turn)
    requires Good(s) && Take(s, turn).status.Running?
    ensures var s' := Take(s, turn);
            && s'.trace == After(s.trace, TurnActions(s, turn))
            && (forall id :: Lookup(s'.peers, id) == FiledUnder(Lookup(s.peers, id), EntriesFor(turn), id))
  {
    RunsThroughout(s, turn);
    GoodAfterTick(s, turn);
    UpdatePartTaken(s, turn);
    TickPartTaken(s, turn);
    ReadyPartTaken(s, turn);
    AfterThree(s.trace, UpdatePart(s, turn), TickPart(AfterUpdate(s, turn), turn), ReadyPart(AfterTick(s, turn), turn));
  }

  function AllActions(s: Node, turns: seq<Turn>): seq<Action> {
    if turns == [] then []
    else
      var n := |turns| - 1;
      AllActions(s, turns[..n]) + TurnActions(NodeSpec.Run(s, turns[..n]), turns[n])
  }

  function AllEntries(turns: seq<Turn>): seq<Entry> {
    if turns == [] then [] else AllEntries(turns[..|turns| - 1]) + EntriesFor(turns[|turns| - 1])
  }

  lemma {:induction false} FiledOnAndOn(first: Option<PeerBytes>, a: seq<Entry>, b: seq<Entry>, id: u64)
    ensures FiledUnder(first, a + b, id) == FiledUnder(FiledUnder(first, a, id), b, id)
  {
    if b == [] {
      assert a + b == a;
    } else {
      FiledOnAndOn(first, a, b[..|b| - 1], id);
      assert (a + b)[..|a + b| - 1] == a + b[..|b| - 1];
    }
  }

  // What a run that goes on has done since s.
  ghost predicate InOrder(s: Node, turns: seq<Turn>, s': Node) {
    && s'.trace == After(s.trace, AllActions(s, turns))
    && forall id :: Lookup(s'.peers, id) == FiledUnder(Lookup(s.peers, id), AllEntries(turns), id)
  }

  lemma OneMoreInOrder(s: Node, turns: seq<Turn>, s1: Node)
    requires turns != [] && InOrder(s, turns[..|turns| - 1], s1) && s1 == NodeSpec.Run(s, turns[..|turns| - 1])
    requires Good(s1) && Take(s1, turns[|turns| - 1]).status.Running?
    ensures InOrder(s, turns, Take(s1, turns[|turns| - 1]))
  {
    var n := |turns| - 1;
    TurnInOrder(s1, turns[n]);
    AfterConcat(s.trace, AllActions(s, turns[..n]), TurnActions(s1, turns[n]));
    forall id ensures Lookup(Take(s1, turns[n]).peers, id) == FiledUnder(Lookup(s.peers, id), AllEntries(turns), id) {
      FiledOnAndOn(Lookup(s.peers, id), AllEntries(turns[..n]), EntriesFor(turns[n]), id);
    }
  }

  lemma {:induction false} GoesInOrder(s: Node, turns: seq<Turn>)
    requires Good(s) && NodeSpec.Run(s, turns).status.Running?
    ensures InOrder(s, turns, NodeSpec.Run(s, turns))
  {
    if turns != [] {
      var n := |turns| - 1;
      RunsThroughout(NodeSpec.Run(s, turns[..n]), turns[n]);
      RunIsGood(s, turns[..n]);
      GoesInOrder(s, turns[..n]);
      OneMoreInOrder(s, turns, NodeSpec.Run(s, turns[..n]));
    }
  }

  /** Every action of a node from its start, in order, as long as nothing ends it; and its peer map is what
      the membership changes of all the entries handed over make of the setting it started on. */
  lemma {:induction false} RunInOrder(self: PeerId, period: nat, setting: seq<PeerId>, disk: Directory,
                                      turns: seq<Turn>)
    requires NodeSpec.Run(Boot(self, period, setting, disk), turns).status.Running?
    ensures var start := Boot(self, period, setting, disk);
            var s := NodeSpec.Run(start, turns);
            && s.trace == After(Start, AllActions(start, turns))
            && (forall id :: Lookup(s.peers, id) == FiledUnder(Lookup(PeersOf(setting), id), AllEntries(turns), id))
  {
    BootIsGood(self, period, setting, disk);
    GoesInOrder(Boot(self, period, setting, disk), turns);
  }

  // The role

  // What the turn tells the node of Raft's role: a tick has the last word.
  function ToldRole(s: Node, turn: Turn): bool {
    if turn.tick.Some? then turn.tick.value.leads
    else if turn.update.Some? && turn.update.value.PeerMessage? && turn.update.value.leads.Some?
    then turn.update.value.leads.value
    else s.leads
  }

  lemma UpdateToldRole(s: Node, turn: Turn)
    requires Good(s) && s.status.Running?
    ensures AfterUpdate(s, turn).leads == ToldRole(s, turn.(tick := None))
  {
    if turn.update.Some? && turn.update.value.BlockCommit? {
      var update := turn.update.value;
      if InFlight(s) == Some(update.id) {
        ConfirmationInOrder(s, update.id, update.setting, update.now);
      } else {
        OtherConfirmation(s, update.id, update.setting, update.now);
      }
    }
  }

  /** A node that goes on has the role Raft last told it, and after a ready the matching state: a leader
      state exactly as leader. */
  lemma RoleAsTold(s: Node, turn: Turn)
    requires Good(s) && Take(s, turn).status.Running?
    ensures var s' := Take(s, turn);
            && s'.leads == ToldRole(s, turn)
            && (turn.ready.Some? ==> s'.readyRole == s'.leads && s'.leader.Some? == s'.leads)
  {
    RunsThroughout(s, turn);
    UpdateToldRole(s, turn);
    if turn.tick.Some? {
      TickInOrder(AfterUpdate(s, turn), turn.tick.value);
    }
    GoodAfterTick(s, turn);
    if turn.ready.Some? {
      ReadyInOrder(AfterTick(s, turn), turn.ready.value);
    }
  }

  // The storage over a run

  // The log in memory after a turn: the applied index set if a block is settled, then the calls of the ready.
  function SettledStore(store: Store, s: Node, turn: Turn): Store {
    if Confirmed(s, turn) != [] then store.(applied := Confirmed(s, turn)[0].1) else store
  }

  ghost predicate LegalFor(store: Store, s: Node, turn: Turn) {
    turn.ready.Some? ==> LegalCalls(SettledStore(store, s, turn), turn.ready.value)
  }

  function StoreAfter(store: Store, s: Node, turn: Turn): Store
    requires LegalFor(store, s, turn)
  {
    if turn.ready.Some? then Called(SettledStore(store, s, turn), turn.ready.value) else SettledStore(store, s, turn)
  }

  lemma AppliedIsLogged(d: Directory, store: Store, index: nat)
    requires Refines(d, store)
    ensures Refines(d[AppliedFile := Num(index)], store.(applied := index))
  {
    ApplySingle(d, SetAppliedOp(index));
    StepRefines(d, store, SetApplied(index));
  }

  lemma UpdateIsLogged(s: Node, store: Store, turn: Turn)
    requires Good(s) && s.status.Running? && Refines(s.disk, store)
    ensures Refines(AfterUpdate(s, turn).disk, SettledStore(store, s, turn))
  {
    if turn.update.Some? {
      var update := turn.update.value;
      if !update.BlockCommit? {
        NoticeInOrder(s, update);
      } else if InFlight(s) == Some(update.id) {
        ConfirmationInOrder(s, update.id, update.setting, update.now);
        AppliedIsLogged(s.disk, store, s.queue.commits[0].1);
      } else {
        OtherConfirmation(s, update.id, update.setting, update.now);
      }
    }
  }

  lemma TurnIsLogged(s: Node, store: Store, turn: Turn)
    requires Good(s) && Refines(s.disk, store) && LegalFor(store, s, turn) && Take(s, turn).status.Running?
    ensures Refines(Take(s, turn).disk, StoreAfter(store, s, turn))
  {
    RunsThroughout(s, turn);
    UpdateIsLogged(s, store, turn);
    TickLeavesRest(s, turn);
    GoodAfterTick(s, turn);
    if turn.ready.Some? {
      ReadyIsLogged(AfterTick(s, turn), SettledStore(store, s, turn), turn.ready.value);
    }
  }

  ghost predicate LegalStorage(store: Store, s: Node, turns: seq<Turn>)
    decreases |turns|, 0
  {
    turns != [] ==>
      var n := |turns| - 1;
      && LegalStorage(store, s, turns[..n])
      && LegalFor(StoreOf(store, s, turns[..n]), NodeSpec.Run(s, turns[..n]), turns[n])
  }

  ghost function StoreOf(store: Store, s: Node, turns: seq<Turn>): Store
    requires LegalStorage(store, s, turns)
    decreases |turns|, 1
  {
    if turns == [] then store
    else
      var n := |turns| - 1;
      StoreAfter(StoreOf(store, s, turns[..n]), NodeSpec.Run(s, turns[..n]), turns[n])
  }

  /** Over every run that goes on, if Raft makes legal calls, the disk of the node stands for the log in
      memory with the same calls made on it, turn by turn: the index of each block settled as applied, and
      each ready's snapshot, entries and hard state. */
  lemma {:induction false} RunIsLogged(s: Node, store: Store, turns: seq<Turn>)
    requires Good(s) && Refines(s.disk, store) && LegalStorage(store, s, turns) && NodeSpec.Run(s, turns).status.Running?
    ensures Refines(NodeSpec.Run(s, turns).disk, StoreOf(store, s, turns))
  {
    if turns != [] {
      var n := |turns| - 1;
      var s1 := NodeSpec.Run(s, turns[..n]);
      RunsThroughout(s1, turns[n]);
      RunIsLogged(s, store, turns[..n]);
      RunIsGood(s, turns[..n]);
      TurnIsLogged(s1, StoreOf(store, s, turns[..n]), turns[n]);
    }
  }
}
