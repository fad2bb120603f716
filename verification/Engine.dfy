/** The engine loop that drives a node, from opening its storage to the end of its updates. */
module Engine {
  import opened Types
  import opened Files
  import opened FsStorages
  import opened NodeSpec
  import opened CrashPoints
  import opened Nodes

  lemma {:induction false} HaltedStaysHalted(s: Node, turns: seq<Turn>, k: nat)
    requires k <= |turns| && !Run(s, turns[..k]).status.Running?
    ensures Run(s, turns) == Run(s, turns[..k])
  {
    if k < |turns| {
      assert turns[..|turns| - 1][..k] == turns[..k];
      HaltedStaysHalted(s, turns[..|turns| - 1], k);
    } else {
      assert turns[..k] == turns;
    }
  }

  /** A Shutdown ends the run of a running node where it stands: it is stopped, and whatever comes later
      changes nothing and has no effect. */
  lemma {:induction false} ShutdownEnds(s: Node, turns: seq<Turn>, k: nat)
    requires k < |turns| && Run(s, turns[..k]).status.Running? && turns[k].update == Some(Shutdown)
    ensures Run(s, turns) == Run(s, turns[..k]).(status := Stopped)
  {
    assert turns[..k + 1][..k] == turns[..k];
    assert Run(s, turns[..k + 1]) == Take(Run(s, turns[..k]), turns[k]);
    HaltedStaysHalted(s, turns, k + 1);
  }

  // The storage, opened and initialized if need be, and the index Raft resumes from.
  method OpenStorage(dir: Directory, healthy: nat) returns (r: Result<()>, store: FsStorage, applied: Result<nat>)
    requires NamesMatch(dir)
    ensures fresh(store) && store.Valid()
    ensures (store.files, r) == Outcome(dir, OpenPlan(dir), healthy)
    ensures r.Ok? ==> store.files == Reopen(dir) && applied == Applied(Reopen(dir))
  {
    store := new FsStorage(dir, healthy);
    r := store.InitRaftStateIfMissing();
    applied := Applied(store.files);
    assert OpenPlan(dir).ops[..|OpenPlan(dir).ops|] == OpenPlan(dir).ops;
  }

  method HandleUpdate(node: SawtoothRaftNode, update: Update) returns (continues: bool, ghost crashed: bool)
    requires node.Valid() && node.status.Running?
    modifies node, node.queue, node.store
    ensures node.Valid()
    ensures continues <==> !update.Shutdown?
    ensures !crashed && continues ==> node.View() == NodeSpec.HandleUpdate(old(node.View()), update)
    ensures !continues ==> node.View() == old(node.View()) && !crashed
    ensures crashed ==> node.status.Panicked? && node.store.healthy == 0
    ensures crashed ==> Before(old(node.trace), node.trace) &&
                        Before(node.trace, NodeSpec.HandleUpdate(old(node.View()), update).trace)
  {
    continues, crashed := true, false;
    match update
    case BlockNew(block) => node.OnBlockNew(block);
    case BlockValid(id) => node.OnBlockValid(id);
    case BlockCommit(id, setting, now) => crashed := node.OnBlockCommit(id, setting, now);
    case PeerMessage(leads) => node.OnPeerMessage(leads);
    case Shutdown => continues := false;
    case Unhandled =>
  }

  lemma StorageGrows(s: Node, r: Ready)
    ensures Before(s.trace, StoreReady(s, r).trace)
  {
    StoringGrows(s, r);
    BeforeChains(s.trace, Install(s, r.snapshot).trace, StoreReady(s, r).trace);
  }

  lemma ProcessReadyGrows(s: Node, r: Ready)
    ensures Before(s.trace, ProcessReady(s, r).trace)
  {
    PrepareReadyGrows(s, r);
    StorageGrows(PrepareReady(s, r), r);
    BeforeChains(s.trace, PrepareReady(s, r).trace, ProcessReady(s, r).trace);
  }

  lemma HandleUpdateGrows(s: Node, update: Update)
    ensures Before(s.trace, NodeSpec.HandleUpdate(s, update).trace)
  {
    match update
    case BlockCommit(id, setting, now) =>
      AfterLeaderGrows(s, id, setting, now);
      BeforeChains(s.trace, AfterLeader(s, id, setting, now).trace, OnBlockCommit(s, id, setting, now).trace);
    case BlockValid(id) =>
      BeforeChains(s.trace, Then(s.trace, Validated(id)), OnBlockValid(s, id).trace);
    case _ =>
  }

  // The stages of a turn, in order.
  lemma TurnGrows(s: Node, turn: Turn)
    ensures Before(s.trace, AfterTick(s, turn).trace) && Before(s.trace, Take(s, turn).trace)
    ensures Before(AfterUpdate(s, turn).trace, Take(s, turn).trace)
  {
    var s1, s2 := AfterUpdate(s, turn), AfterTick(s, turn);
    if s.status.Running? && turn.update.Some? {
      HandleUpdateGrows(s, turn.update.value);
    }
    if s1.status.Running? && turn.tick.Some? {
      TickGrows(s1, turn.tick.value);
    }
    BeforeChains(s.trace, s1.trace, s2.trace);
    if s2.status.Running? && turn.ready.Some? {
      ProcessReadyGrows(s2, turn.ready.value);
    }
    BeforeChains(s1.trace, s2.trace, Take(s, turn).trace);
    BeforeChains(s.trace, s2.trace, Take(s, turn).trace);
  }

  lemma TickGrows(s: Node, t: TickInput)
    ensures Before(s.trace, Tick(s, t).trace)
  {
  }

  // One pass through the loop body: the update, the tick, process_ready.
  method Pass(node: SawtoothRaftNode, turn: Turn) returns (ghost crashed: bool)
    requires node.Valid() && node.status.Running?
    modifies node, node.queue, node.store
    ensures node.Valid()
    ensures !crashed ==> node.View() == Take(old(node.View()), turn)
    ensures crashed ==> node.status.Panicked? && node.store.healthy == 0
    ensures crashed ==> Before(old(node.trace), node.trace) && Before(node.trace, Take(old(node.View()), turn).trace)
  {
    ghost var s := node.View();
    TurnGrows(s, turn);
    crashed := false;
    if turn.update.Some? {
      var continues;
      continues, crashed := HandleUpdate(node, turn.update.value);
      if crashed {
        BeforeChains(node.trace, AfterUpdate(s, turn).trace, Take(s, turn).trace);
      }
      if !continues {
        node.status := Stopped;
      }
    }
    if !node.status.Running? {
      return;
    }
    assert node.View() == AfterUpdate(s, turn);
    if turn.tick.Some? {
      node.Tick(turn.tick.value);
    }
    if !node.status.Running? {
      return;
    }
    assert node.View() == AfterTick(s, turn);
    crashed := node.ProcessReady(turn.ready);
    if crashed {
      BeforeChains(s.trace, AfterTick(s, turn).trace, node.trace);
    }
  }

  /** The loop runs until an update or a ready stops it, the process panics, or the sender of the
      updates goes away. If the file system fails, the node ends at a crash point of one turn. */
  method Start(node: SawtoothRaftNode, turns: seq<Turn>) returns (ghost crashed: bool, ghost last: nat)
    requires node.Valid()
    modifies node, node.queue, node.store
    ensures node.Valid() && last <= |turns|
    ensures !crashed ==> node.View() == Run(old(node.View()), turns)
    ensures crashed ==> node.status.Panicked? && node.store.healthy == 0
    ensures crashed ==> last < |turns| &&
                        Before(Run(old(node.View()), turns[..last]).trace, node.trace) &&
                        Before(node.trace, Run(old(node.View()), turns[..last + 1]).trace)
  {
    ghost var s := node.View();
    var k := 0;
    crashed, last := false, 0;
    while k < |turns| && node.status.Running?
      invariant k <= |turns| && node.Valid() && last <= |turns|
      invariant !crashed ==> node.View() == Run(s, turns[..k])
      invariant crashed ==> node.status.Panicked? && node.store.healthy == 0 && last < |turns| &&
                            Before(Run(s, turns[..last]).trace, node.trace) &&
                            Before(node.trace, Run(s, turns[..last + 1]).trace)
    {
      assert turns[..k + 1][..k] == turns[..k];
      last := k;
      crashed := Pass(node, turns[k]);
      k := k + 1;
    }
    if !crashed {
      if k < |turns| {
        HaltedStaysHalted(s, turns, k);
      } else {
        assert turns[..k] == turns;
      }
    }
  }
}
