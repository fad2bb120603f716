/** What the handlers do to the outside world, action by action and in order. */
module Effects {
  import opened Types
  import opened Files
  import opened FsStorages
  import opened Membership
  import opened NodeSpec
  import opened Durability

  // The trace t followed by these actions.
  function After(t: Trace, actions: seq<Action>): Trace {
    if actions == [] then t else Then(After(t, actions[..|actions| - 1]), actions[|actions| - 1])
  }

  lemma {:induction false} AfterConcat(t: Trace, a: seq<Action>, b: seq<Action>)
    ensures After(t, a + b) == After(After(t, a), b)
  {
    if b == [] {
      assert a + b == a;
    } else {
      AfterConcat(t, a, b[..|b| - 1]);
      assert (a + b)[..|a + b| - 1] == a + b[..|b| - 1];
    }
  }

  lemma {:induction false} AfterOne(t: Trace, a: Action)
    ensures After(t, [a]) == Then(t, a)
  {
    assert [a][..0] == [];
  }

  lemma {:induction false} AfterTwo(t: Trace, a: Action, b: Action)
    ensures After(t, [a, b]) == Then(Then(t, a), b)
  {
    assert [a, b][..1] == [a];
    AfterOne(t, a);
  }

  lemma {:induction false} AfterOneMore(t: Trace, actions: seq<Action>, a: Action)
    ensures After(t, actions + [a]) == Then(After(t, actions), a)
  {
    assert (actions + [a])[..|actions|] == actions;
  }

  function Writes(ops: seq<FileOp>): (actions: seq<Action>)
    ensures |actions| == |ops|
    ensures forall i :: 0 <= i < |ops| ==> actions[i] == Disk(ops[i])
  {
    seq(|ops|, i requires 0 <= i < |ops| => Disk(ops[i]))
  }

  lemma {:induction false} RecordIsAfter(t: Trace, ops: seq<FileOp>)
    ensures Record(t, ops) == After(t, Writes(ops))
  {
    if ops != [] {
      RecordIsAfter(t, ops[..|ops| - 1]);
      assert Writes(ops)[..|ops| - 1] == Writes(ops[..|ops| - 1]);
    }
  }

  // Confirmations

  // The front of the queue is taken off and its index marked as applied.
  function Settlement(s: Node): seq<Action>
    requires s.queue.commits != []
  {
    [Pop(s.queue.commits[0].0, s.queue.commits[0].1), Disk(SetAppliedOp(s.queue.commits[0].1))]
  }

  // Nothing but the front of the queue, its backlog entry and the applied index has changed.
  predicate FrontSettled(s: Node, s': Node) {
    && s.queue.commits != []
    && s'.queue.commits == s.queue.commits[1..]
    && s'.queue.backlog == s.queue.backlog - {s.queue.commits[0].0}
    && s'.disk == s.disk[AppliedFile := Num(s.queue.commits[0].1)]
    && s'.peers == s.peers && s'.leads == s.leads && s'.readyRole == s.readyRole
  }

  // What the leader finds: the peers setting and its peer map agree.
  predicate NothingChanged(s: Node, setting: Option<set<PeerBytes>>) {
    setting.Some? && Difference(setting.value, s.peers.Values) == {}
  }

  // They differ in this one peer, which has a raft id.
  predicate ChangedIn(s: Node, setting: Option<set<PeerBytes>>, p: PeerBytes) {
    setting.Some? && Difference(setting.value, s.peers.Values) == {p} && 8 <= |p|
  }

  // What a leader does once its block is settled.
  ghost predicate MovedOn(s: Node, setting: Option<set<PeerBytes>>, now: nat, t: Trace, s': Node) {
    && (NothingChanged(s, setting) ==>
          s'.status.Running? && s'.leader == Some(Building(now)) && s'.trace == Then(t, Initialize))
    && (forall p :: ChangedIn(s, setting, p) ==>
          && s'.status.Running? && s'.leader == Some(ChangingConfig)
          && s'.trace == Then(t, ProposeConfChange(ChangeFor(setting.value, p), s.leads)))
    && (!NothingChanged(s, setting) && (forall p :: !ChangedIn(s, setting, p)) ==>
          s'.status.Panicked? && s'.trace == t)
  }

  lemma MovesOn(s: Node, setting: Option<set<PeerBytes>>, now: nat)
    requires s.status.Running?
    ensures var check := if setting.Some? then Some(CheckForConfChange(s.peers, setting.value)) else None;
            var s' := MoveOn(s, check, now);
            && s' == s.(leader := s'.leader, trace := s'.trace, status := s'.status)
            && MovedOn(s, setting, now, s.trace, s')
  {
    if setting.Some? {
      CheckFinds(s.peers, setting.value);
      if CheckForConfChange(s.peers, setting.value).Change? {
        var p :| Difference(setting.value, s.peers.Values) == {p} && 8 <= |p|;
        assert ChangedIn(s, setting, p);
      }
    }
  }

  /** A leader whose block is confirmed takes it off the queue and marks it. If the peers setting on chain
      agrees with its peer map it opens the next block; if they differ in one peer it proposes exactly
      that change and waits for it; otherwise, or if there is no setting to read, it panics with nothing
      opened and nothing proposed. */
  lemma LeaderConfirmed(s: Node, id: BlockId, setting: Option<set<PeerBytes>>, now: nat)
    requires s.status.Running? && s.leader == Some(LeaderState.Committing(id)) && s.follower.None?
    requires s.queue.commits != []
    ensures var s' := OnBlockCommit(s, id, setting, now);
            && FrontSettled(s, s') && s'.follower.None?
            && MovedOn(s, setting, now, After(s.trace, Settlement(s)), s')
  {
    var s1 := FinishBlock(s);
    FinishBlockTrace(s);
    AfterTwo(s.trace, Settlement(s)[0], Settlement(s)[1]);
    MovesOn(s1, setting, now);
    var check := if setting.Some? then Some(CheckForConfChange(s1.peers, setting.value)) else None;
    assert OnBlockCommit(s, id, setting, now) == MoveOn(s1, check, now);
    assert NothingChanged(s1, setting) == NothingChanged(s, setting);
    assert forall p :: ChangedIn(s1, setting, p) == ChangedIn(s, setting, p);
  }

  lemma FollowerConfirmed(s: Node, id: BlockId, setting: Option<set<PeerBytes>>, now: nat)
    requires s.status.Running? && s.leader.None? && s.follower == Some(FollowerState.Committing(id))
    requires s.queue.commits != []
    ensures var s' := OnBlockCommit(s, id, setting, now);
            && FrontSettled(s, s') && s'.status.Running? && s'.leader.None? && s'.follower == Some(Idle)
            && s'.trace == After(s.trace, Settlement(s))
  {
    FinishBlockTrace(s);
    AfterTwo(s.trace, Settlement(s)[0], Settlement(s)[1]);
    assert OnBlockCommit(s, id, setting, now) == FollowerCommitted(s);
  }
}
