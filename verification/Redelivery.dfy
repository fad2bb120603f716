/** After a restart Raft hands over again what follows the applied index, while the peer map starts from
    the setting on chain. When that makes the node panic. */
module Redelivery {
  import opened Types
  import opened Config
  import opened Files
  import opened Membership
  import opened NodeSpec
  import opened Cluster
  import opened Deliveries
  import opened Drain

  predicate Listed(setting: seq<PeerId>, id: u64) {
    exists i :: 0 <= i < |setting| && RaftId(setting[i]) == id
  }

  // After these entries a peer is filed under this raft id: the latest change of the id added it, or
  // there was none and the setting lists it.
  predicate Present(setting: seq<PeerId>, entries: seq<Entry>, id: u64) {
    if entries == [] then Listed(setting, id)
    else
      var earlier := Present(setting, entries[..|entries| - 1], id);
      match ChangeOf(entries[|entries| - 1])
      case Some(AddNode(added, _)) => added == id || earlier
      case Some(RemoveNode(removed)) => removed != id && earlier
      case _ => earlier
  }

  lemma {:induction false} PresentIsFiled(setting: seq<PeerId>, entries: seq<Entry>, id: u64)
    ensures Present(setting, entries, id) <==> FiledUnder(Lookup(PeersOf(setting), id), entries, id).Some?
  {
    if entries == [] {
      PeersOfKeys(setting, id);
    } else {
      PresentIsFiled(setting, entries[..|entries| - 1], id);
    }
  }

  // Entry i removes another peer that is not there.
  predicate RemovesAbsent(self: PeerId, setting: seq<PeerId>, entries: seq<Entry>, i: nat)
    requires i < |entries|
  {
    && ChangeOf(entries[i]).Some? && ChangeOf(entries[i]).value.RemoveNode? && !Leaves(self, entries[i])
    && !Present(setting, entries[..i], ChangeOf(entries[i]).value.nodeId)
  }

  predicate Unparsable(e: Entry) {
    e.payload.Garbled? && e.term != 1
  }

  // Some entry cannot be applied, and none before it makes the node leave.
  predicate BreaksOn(self: PeerId, setting: seq<PeerId>, entries: seq<Entry>) {
    exists i :: 0 <= i < |entries| && NoneLeaves(self, entries, i) &&
                (Unparsable(entries[i]) || RemovesAbsent(self, setting, entries, i))
  }

  lemma {:induction false} BreaksFromSetting(self: PeerId, setting: seq<PeerId>, entries: seq<Entry>)
    ensures BreaksOn(self, setting, entries) <==> Breaks(self, PeersOf(setting), entries)
  {
    forall i | 0 <= i < |entries|
      ensures Unparsable(entries[i]) || RemovesAbsent(self, setting, entries, i) <==>
              Fatal(self, PeersOf(setting), entries, i)
    {
      if ChangeOf(entries[i]).Some? && ChangeOf(entries[i]).value.RemoveNode? {
        PresentIsFiled(setting, entries[..i], ChangeOf(entries[i]).value.nodeId);
      }
    }
  }

  // A running node without a leader state whose peers are those of a setting.
  ghost predicate Started(s: Node, setting: seq<PeerId>) {
    s.status.Running? && s.leader.None? && s.peers == PeersOf(setting)
  }

  /** Delivering entries to a node started on a setting panics if and only if, before any entry that
      makes the node leave, one cannot be parsed or removes another peer that is neither in the setting
      nor added earlier, or that was removed earlier. Changes of term 1 are ignored. */
  lemma {:induction false} DeliveryPanics(self: PeerId, period: nat, setting: seq<PeerId>, disk: Directory,
                                          entries: seq<Entry>, now: nat)
    ensures DeliverAll(Boot(self, period, setting, disk), entries, now).status == Panicked <==>
            BreaksOn(self, setting, entries)
  {
    EntriesTakenUp(Boot(self, period, setting, disk), entries, now);
    BreaksFromSetting(self, setting, entries);
  }

  // process_ready on a started follower, as far as its status goes.
  lemma {:induction false} ReadyStatus(s: Node, setting: seq<PeerId>, r: Ready)
    requires Started(s, setting) && !s.leads && r.snapshot.None? && Sendable(r.messages)
    ensures ProcessReady(s, r).status == Panicked <==> BreaksOn(s.self, setting, r.committed)
  {
    var s1 := s.(readyRole := false);
    assert Install(PrepareReady(s, r), r.snapshot) == s1;
    var s2 := Persist(s1, r);
    PersistKeepsApplied(s1, r);
    SendAllKeepsAll(s2, r.messages);
    assert StepDown(s2) == s2;
    EntriesTakenUp(SendAll(s2, r.messages), r.committed, r.now);
    BreaksFromSetting(s.self, setting, r.committed);
  }

  /** So a machine that crashes anywhere and is restarted on a setting panics in its first ready if and
      only if the entries handed over again break on that setting. */
  lemma RestartPanics(m: Machine, at: Trace, period: nat, setting: seq<PeerId>, r: Ready)
    requires r.snapshot.None? && Sendable(r.messages)
    ensures Take(Restart(m, at, period, setting).node, Turn(None, None, Some(r))).status == Panicked <==>
            BreaksOn(m.node.self, setting, r.committed)
  {
    ReadyStatus(Restart(m, at, period, setting).node, setting, r);
  }
}
