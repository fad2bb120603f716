/** What the committed entries of a ready do to a node in any role: to its peer map, its queue and its
    leader state, and when they end it. */
module Deliveries {
  import opened Types
  import opened Config
  import opened Membership
  import opened NodeSpec
  import opened Ledgers
  import opened Durability
  import opened Effects

  // The membership change an entry makes; those of term 1 were made when Raft was bootstrapped.
  function ChangeOf(e: Entry): Option<ConfChange> {
    if e.payload.Conf? && e.term != 1 then Some(e.payload.change) else None
  }

  predicate HasChange(entries: seq<Entry>) {
    exists i :: 0 <= i < |entries| && ChangeOf(entries[i]).Some?
  }

  function Lookup(peers: Peers, id: u64): Option<PeerBytes> {
    if id in peers then Some(peers[id]) else None
  }

  // What is filed under an id after these entries: what the latest change of that id left there, or what
  // was there at first if none changes it.
  function FiledUnder(first: Option<PeerBytes>, entries: seq<Entry>, id: u64): Option<PeerBytes> {
    if entries == [] then first
    else
      var earlier := FiledUnder(first, entries[..|entries| - 1], id);
      match ChangeOf(entries[|entries| - 1])
      case Some(AddNode(added, context)) => if added == id then Some(context) else earlier
      case Some(RemoveNode(removed)) => if removed == id then None else earlier
      case _ => earlier
  }

  // The entry removes this node itself.
  predicate Leaves(self: PeerId, e: Entry) {
    ChangeOf(e) == Some(RemoveNode(RaftId(self)))
  }

  // Entry i cannot be applied: it cannot be parsed, or it removes another peer that is not there.
  predicate Fatal(self: PeerId, peers: Peers, entries: seq<Entry>, i: nat)
    requires i < |entries|
  {
    || (entries[i].payload.Garbled? && entries[i].term != 1)
    || (ChangeOf(entries[i]).Some? && ChangeOf(entries[i]).value.RemoveNode? && !Leaves(self, entries[i]) &&
        var id := ChangeOf(entries[i]).value.nodeId; FiledUnder(Lookup(peers, id), entries[..i], id).None?)
  }

  predicate NoneLeaves(self: PeerId, entries: seq<Entry>, n: nat)
    requires n <= |entries|
  {
    forall j :: 0 <= j < n ==> !Leaves(self, entries[j])
  }

  // Some entry cannot be applied, and none before it makes the node leave.
  predicate Breaks(self: PeerId, peers: Peers, entries: seq<Entry>) {
    exists i :: 0 <= i < |entries| && Fatal(self, peers, entries, i) && NoneLeaves(self, entries, i)
  }

  lemma BreaksLately(self: PeerId, peers: Peers, entries: seq<Entry>)
    requires entries != []
    ensures var n := |entries| - 1;
            Breaks(self, peers, entries) <==>
            Breaks(self, peers, entries[..n]) || (Fatal(self, peers, entries, n) && NoneLeaves(self, entries, n))
  {
    var n := |entries| - 1;
    forall i | 0 <= i < n
      ensures Fatal(self, peers, entries[..n], i) == Fatal(self, peers, entries, i)
      ensures NoneLeaves(self, entries[..n], i) == NoneLeaves(self, entries, i)
    {
      assert entries[..n][..i] == entries[..i];
    }
  }

  lemma {:induction false} DeliverAllLast(s: Node, entries: seq<Entry>, now: nat)
    requires entries != []
    ensures var s1 := DeliverAll(s, entries[..|entries| - 1], now);
            DeliverAll(s, entries, now) ==
            if s1.status.Running? then DeliverOne(s1, entries[|entries| - 1], now) else s1
    decreases |entries|
  {
    var n := |entries| - 1;
    if n > 0 && s.status.Running? {
      var s1 := DeliverOne(s, entries[0], now);
      DeliverAllLast(s1, entries[1..], now);
      assert entries[1..][..n - 1] == entries[..n][1..];
    }
  }

  // What a node does on these entries; one that waits for a membership change opens a block after the
  // first.
  function DeliveryActions(entries: seq<Entry>, waiting: bool): seq<Action> {
    if entries == [] then []
    else
      var n := |entries| - 1;
      var resumes := waiting && ChangeOf(entries[n]).Some? && !HasChange(entries[..n]);
      DeliveryActions(entries[..n], waiting) + ([Deliver(entries[n])] + if resumes then [Initialize] else [])
  }

  function LeaderAfterChanges(leader: Option<LeaderState>, entries: seq<Entry>, now: nat): Option<LeaderState> {
    if leader == Some(ChangingConfig) && HasChange(entries) then Some(Building(now)) else leader
  }

  // The node s' is the node s with these entries applied.
  ghost predicate TookUp(s: Node, entries: seq<Entry>, now: nat, s': Node) {
    && s' == s.(peers := s'.peers, leader := s'.leader, queue := s'.queue, trace := s'.trace)
    && (forall id :: Lookup(s'.peers, id) == FiledUnder(Lookup(s.peers, id), entries, id))
    && s'.leader == LeaderAfterChanges(s.leader, entries, now)
    && s'.queue == s.queue.(commits := s.queue.commits + BlocksOf(entries))
    && s'.trace == After(s.trace, DeliveryActions(entries, s.leader == Some(ChangingConfig)))
  }

  // Which peers a change leaves, if it can be applied.
  lemma AppliedPeers(self: PeerId, peers: Peers, change: ConfChange)
    ensures var applied := ApplyConfChange(self, peers, change);
            && (applied.Leave? <==> change == RemoveNode(RaftId(self)))
            && (applied.UnknownNode? <==>
                  change.RemoveNode? && change.nodeId != RaftId(self) && change.nodeId !in peers)
            && (applied.Joined? ==>
                  forall id :: Lookup(applied.peers, id) ==
                    match change
                    case AddNode(added, context) => if added == id then Some(context) else Lookup(peers, id)
                    case RemoveNode(removed) => if removed == id then None else Lookup(peers, id)
                    case _ => Lookup(peers, id))
  {
  }

  // What one entry makes of a running node.
  ghost predicate TookOne(s: Node, e: Entry, now: nat, s': Node) {
    var resumes := s.leader == Some(ChangingConfig) && ChangeOf(e).Some?;
    && s' == s.(peers := s'.peers, leader := s'.leader, queue := s'.queue, trace := s'.trace)
    && (forall id :: Lookup(s'.peers, id) == FiledUnder(Lookup(s.peers, id), [e], id))
    && s'.leader == (if resumes then Some(Building(now)) else s.leader)
    && s'.queue == s.queue.(commits := s.queue.commits + BlockIn(e))
    && s'.trace == After(s.trace, [Deliver(e)] + if resumes then [Initialize] else [])
  }

  lemma {:induction false} FiledOne(first: Option<PeerBytes>, e: Entry, id: u64)
    ensures FiledUnder(first, [e], id) ==
            match ChangeOf(e)
            case Some(AddNode(added, context)) => if added == id then Some(context) else first
            case Some(RemoveNode(removed)) => if removed == id then None else first
            case _ => first
  {
    assert [e][..0] == [];
  }

  lemma ChangeTaken(s: Node, e: Entry, now: nat)
    requires s.status.Running? && ChangeOf(e).Some?
    ensures var s', applied := DeliverOne(s, e, now), ApplyConfChange(s.self, s.peers, e.payload.change);
            && (s'.status.Panicked? <==> applied.UnknownNode?) && (s'.status.Stopped? <==> applied.Leave?)
            && (s'.status.Running? ==> TookOne(s, e, now, s'))
  {
    var s1, change := Do(s, Deliver(e)), e.payload.change;
    AppliedPeers(s.self, s.peers, change);
    forall id ensures FiledUnder(Lookup(s.peers, id), [e], id) ==
                      match change
                      case AddNode(added, context) => if added == id then Some(context) else Lookup(s.peers, id)
                      case RemoveNode(removed) => if removed == id then None else Lookup(s.peers, id)
                      case _ => Lookup(s.peers, id)
    {
      FiledOne(Lookup(s.peers, id), e, id);
    }
    AfterOne(s.trace, Deliver(e));
    AfterTwo(s.trace, Deliver(e), Initialize);
    assert [Deliver(e)] + [Initialize] == [Deliver(e), Initialize] && [Deliver(e)] + [] == [Deliver(e)];
    assert s.queue.commits + [] == s.queue.commits;
    assert DeliverOne(s, e, now) == Adopt(s1, ApplyConfChange(s.self, s.peers, change), now);
  }

  lemma OtherTaken(s: Node, e: Entry, now: nat)
    requires s.status.Running? && ChangeOf(e).None?
    ensures var s' := DeliverOne(s, e, now);
            && (s'.status.Panicked? <==> e.payload.Garbled? && e.term != 1) && !s'.status.Stopped?
            && (s'.status.Running? ==> TookOne(s, e, now, s'))
  {
    forall id ensures FiledUnder(Lookup(s.peers, id), [e], id) == Lookup(s.peers, id) {
      FiledOne(Lookup(s.peers, id), e, id);
    }
    AfterOne(s.trace, Deliver(e));
    assert [Deliver(e)] + [] == [Deliver(e)];
    assert s.queue.commits + [] == s.queue.commits;
  }

  lemma FiledLater(first: Option<PeerBytes>, entries: seq<Entry>, id: u64)
    requires entries != []
    ensures var n := |entries| - 1;
            FiledUnder(first, entries, id) == FiledUnder(FiledUnder(first, entries[..n], id), [entries[n]], id)
  {
    FiledOne(FiledUnder(first, entries[..|entries| - 1], id), entries[|entries| - 1], id);
  }

  lemma HasChangeLately(entries: seq<Entry>)
    requires entries != []
    ensures HasChange(entries) <==> HasChange(entries[..|entries| - 1]) || ChangeOf(entries[|entries| - 1]).Some?
  {
    var n := |entries| - 1;
    assert forall i :: 0 <= i < n ==> entries[..n][i] == entries[i];
  }

  lemma TookUpOneMore(s: Node, entries: seq<Entry>, now: nat, s1: Node, s': Node)
    requires entries != [] && TookUp(s, entries[..|entries| - 1], now, s1)
    requires TookOne(s1, entries[|entries| - 1], now, s')
    ensures TookUp(s, entries, now, s')
  {
    var n, waiting := |entries| - 1, s.leader == Some(ChangingConfig);
    var e := entries[n];
    var resumes := s1.leader == Some(ChangingConfig) && ChangeOf(e).Some?;
    HasChangeLately(entries);
    assert resumes <==> waiting && ChangeOf(e).Some? && !HasChange(entries[..n]);
    AfterConcat(s.trace, DeliveryActions(entries[..n], waiting), [Deliver(e)] + if resumes then [Initialize] else []);
    Associative(s.queue.commits, BlocksOf(entries[..n]), BlockIn(e));
    forall id ensures Lookup(s'.peers, id) == FiledUnder(Lookup(s.peers, id), entries, id) {
      FiledLater(Lookup(s.peers, id), entries, id);
    }
  }

  lemma NothingTakenUp(s: Node, now: nat)
    ensures TookUp(s, [], now, s)
  {
    assert s.queue.commits + [] == s.queue.commits;
  }

  // How one more entry ends the node.
  lemma OneMoreEnds(s: Node, peers: Peers, entries: seq<Entry>, now: nat)
    requires entries != [] && s.status.Running?
    requires forall id :: Lookup(s.peers, id) == FiledUnder(Lookup(peers, id), entries[..|entries| - 1], id)
    ensures var s', n := DeliverOne(s, entries[|entries| - 1], now), |entries| - 1;
            && (s'.status.Panicked? <==> Fatal(s.self, peers, entries, n))
            && (s'.status.Stopped? <==> Leaves(s.self, entries[n]))
            && (s'.status.Running? ==> TookOne(s, entries[n], now, s'))
  {
    var e := entries[|entries| - 1];
    if ChangeOf(e).Some? {
      ChangeTaken(s, e, now);
      AppliedPeers(s.self, s.peers, e.payload.change);
      if e.payload.change.RemoveNode? {
        var id := e.payload.change.nodeId;
        assert Lookup(s.peers, id) == FiledUnder(Lookup(peers, id), entries[..|entries| - 1], id);
      }
    } else {
      OtherTaken(s, e, now);
    }
  }

  /** Committed entries delivered to a running node in any role. While it runs, its peer map, values
      included, is what the membership changes make of the old one; a leader that waited for a change opens
      a block after the first, and every other leader state stays; the blocks are queued in order. It
      panics if and only if, before any entry that makes it leave, one cannot be parsed or removes another
      peer that is not there at that point, and it stops if one makes it leave before. */
  lemma {:induction false} EntriesTakenUp(s: Node, entries: seq<Entry>, now: nat)
    requires s.status.Running?
    ensures var s' := DeliverAll(s, entries, now);
            && (s'.status.Panicked? <==> Breaks(s.self, s.peers, entries))
            && (s'.status.Running? <==>
                  !Breaks(s.self, s.peers, entries) && NoneLeaves(s.self, entries, |entries|))
            && (s'.status.Running? ==> TookUp(s, entries, now, s'))
  {
    if entries == [] {
      NothingTakenUp(s, now);
    } else {
      var n := |entries| - 1;
      var s1 := DeliverAll(s, entries[..n], now);
      EntriesTakenUp(s, entries[..n], now);
      DeliverAllLast(s, entries, now);
      BreaksLately(s.self, s.peers, entries);
      NoneLeavesLately(s.self, entries);
      if s1.status.Running? {
        OneMoreEnds(s1, s.peers, entries, now);
        if DeliverAll(s, entries, now).status.Running? {
          TookUpOneMore(s, entries, now, s1, DeliverAll(s, entries, now));
        }
      }
    }
  }

  lemma NoneLeavesLately(self: PeerId, entries: seq<Entry>)
    requires entries != []
    ensures var n := |entries| - 1;
            && NoneLeaves(self, entries[..n], n) == NoneLeaves(self, entries, n)
            && (NoneLeaves(self, entries, n + 1) <==> NoneLeaves(self, entries, n) && !Leaves(self, entries[n]))
  {
  }
}
