/** Detecting a membership change in the peers setting and applying it to the peer map. */
module Membership {
  import opened Types
  import opened Config

  type Peers = map<u64, PeerBytes>

  // TooManyChanges and ShortPeer stand for panics.
  datatype Check = NoChange | Change(change: ConfChange) | TooManyChanges | ShortPeer

  lemma {:induction false} SingletonElement<T>(s: set<T>, x: T, y: T)
    requires |s| == 1 && x in s && y in s
    ensures x == y
  {
    assert |s - {x}| == 0;
  }

  function Element<T(==)>(s: set<T>): (x: T)
    requires |s| == 1
    ensures s == {x}
  {
    assert forall x, y :: x in s && y in s ==> x == y by {
      forall x, y | x in s && y in s ensures x == y {
        SingletonElement(s, x, y);
      }
    }
    var x :| x in s;
    x
  }

  function Difference(a: set<PeerBytes>, b: set<PeerBytes>): set<PeerBytes> {
    (a - b) + (b - a)
  }

  // check_for_conf_change; a peer of fewer than eight bytes has no raft id.
  function CheckForConfChange(peers: Peers, setting: set<PeerBytes>): Check {
    var current := peers.Values;
    var difference := Difference(setting, current);
    if difference == {} then NoChange
    else if |difference| > 1 then TooManyChanges
    else
      var peer := Element(difference);
      if |peer| < 8 then ShortPeer
      else if |setting| > |current| then Change(AddNode(RaftId(peer), peer))
      else Change(RemoveNode(RaftId(peer)))
  }

  // The change that adds a peer which only the setting has, or removes one which only the map has.
  function ChangeFor(setting: set<PeerBytes>, p: PeerBytes): ConfChange
    requires 8 <= |p|
  {
    if p in setting then AddNode(RaftId(p), p) else RemoveNode(RaftId(p))
  }

  /** What the check finds, from the peers in which setting and map differ. */
  lemma CheckFinds(peers: Peers, setting: set<PeerBytes>)
    ensures var difference, check := Difference(setting, peers.Values), CheckForConfChange(peers, setting);
            && (check.NoChange? <==> difference == {})
            && (check.TooManyChanges? <==> |difference| > 1)
            && (check.ShortPeer? <==> exists p :: difference == {p} && |p| < 8)
            && (check.Change? <==> exists p :: difference == {p} && 8 <= |p|)
            && (forall p :: difference == {p} && 8 <= |p| ==> check == Change(ChangeFor(setting, p)))
  {
    var difference := Difference(setting, peers.Values);
    if |difference| == 1 {
      assert difference == {Element(difference)};
    }
    forall p | difference == {p} && 8 <= |p|
      ensures CheckForConfChange(peers, setting) == Change(ChangeFor(setting, p))
    {
      OneMoreOrLess(setting, peers.Values);
      assert Element(difference) == p;
    }
  }

  // What applying a change to the peer map leads to: the new map, leaving the network, or the panic
  // of removing an unknown peer.
  datatype Applied = Joined(peers: Peers) | Leave | UnknownNode

  function ApplyConfChange(self: PeerId, peers: Peers, change: ConfChange): Applied {
    match change
    case RemoveNode(id) =>
      if id == RaftId(self) then Leave
      else if id in peers then Joined(peers - {id}) else UnknownNode
    case AddNode(id, context) => Joined(peers[id := context])
    case AddLearnerNode(_) => Joined(peers)
  }

  // Every peer is filed under its own raft id.
  ghost predicate Filed(peers: Peers) {
    forall id :: id in peers ==> 8 <= |peers[id]| && RaftId(peers[id]) == id
  }

  // SawtoothRaftNode::new collects the peers of the setting.
  function PeersOf(setting: seq<PeerId>): (peers: Peers)
    ensures Filed(peers)
  {
    if setting == [] then map[]
    else PeersOf(setting[..|setting| - 1])[RaftId(setting[|setting| - 1]) := setting[|setting| - 1]]
  }

  lemma {:induction false} PeersOfKeys(setting: seq<PeerId>, id: u64)
    ensures id in PeersOf(setting) <==> exists i :: 0 <= i < |setting| && RaftId(setting[i]) == id
  {
    if setting != [] {
      var n := |setting| - 1;
      PeersOfKeys(setting[..n], id);
      assert forall i :: 0 <= i < n ==> setting[..n][i] == setting[i];
    }
  }

  // Of several peers with one raft id the last is filed.
  lemma {:induction false} PeersOfLast(setting: seq<PeerId>, id: u64)
    requires id in PeersOf(setting)
    ensures exists i :: 0 <= i < |setting| && setting[i] == PeersOf(setting)[id] && RaftId(setting[i]) == id &&
                        forall j :: i < j < |setting| ==> RaftId(setting[j]) != id
  {
    var n := |setting| - 1;
    if RaftId(setting[n]) == id {
      assert setting[n] == PeersOf(setting)[id];
    } else {
      PeersOfLast(setting[..n], id);
      var i :| 0 <= i < n && setting[..n][i] == PeersOf(setting[..n])[id] && RaftId(setting[..n][i]) == id &&
               forall j :: i < j < n ==> RaftId(setting[..n][j]) != id;
      assert setting[i] == PeersOf(setting)[id];
      forall j | i < j < |setting| ensures RaftId(setting[j]) != id {
        assert j < n ==> setting[..n][j] == setting[j];
      }
    }
  }

  // These peers have raft ids, which tell them apart.
  ghost predicate Distinct(peers: set<PeerBytes>) {
    && (forall p :: p in peers ==> 8 <= |p|)
    && forall p, q :: p in peers && q in peers && RaftId(p) == RaftId(q) ==> p == q
  }

  lemma OneMoreOrLess(a: set<PeerBytes>, b: set<PeerBytes>)
    requires |Difference(a, b)| == 1
    ensures var p := Element(Difference(a, b));
            if |a| > |b| then p !in b && a == b + {p} else p in b && a == b - {p}
  {
    var p := Element(Difference(a, b));
    assert p in Difference(a, b);
    forall x | x != p ensures x in a <==> x in b {
      assert x !in Difference(a, b);
    }
    if p in a {
      assert a == b + {p};
    } else {
      assert a == b - {p};
    }
  }

  // This node is not the one the setting drops.
  predicate Stays(self: PeerId, peers: set<PeerBytes>, setting: set<PeerBytes>) {
    forall p :: p in peers && p !in setting && 8 <= |p| ==> RaftId(p) != RaftId(self)
  }

  /** Applying a detected change brings the map to the setting, files every peer correctly, never
      fails the removal, and leaves nothing to detect. */
  lemma ChangeConverges(self: PeerId, peers: Peers, setting: set<PeerBytes>)
    requires Filed(peers) && Distinct(peers.Values + setting)
    requires |Difference(setting, peers.Values)| == 1 && Stays(self, peers.Values, setting)
    ensures CheckForConfChange(peers, setting).Change?
    ensures var applied := ApplyConfChange(self, peers, CheckForConfChange(peers, setting).change);
            && applied.Joined?
            && applied.peers.Values == setting && Filed(applied.peers)
            && CheckForConfChange(applied.peers, setting) == NoChange
  {
    var p := Element(Difference(setting, peers.Values));
    assert p in Difference(setting, peers.Values);
    OneMoreOrLess(setting, peers.Values);
    var change := CheckForConfChange(peers, setting).change;
    if |setting| > |peers.Values| {
      AddFiles(peers, p);
    } else {
      RemoveFiles(peers, p);
    }
    assert Difference(setting, setting) == {};
  }

  lemma AddFiles(peers: Peers, p: PeerId)
    requires Filed(peers)
    ensures Filed(peers[RaftId(p) := p])
    ensures RaftId(p) !in peers ==> peers[RaftId(p) := p].Values == peers.Values + {p}
    ensures RaftId(p) in peers && peers[RaftId(p)] != p ==>
              peers[RaftId(p)] !in peers[RaftId(p) := p].Values
  {
    var added := peers[RaftId(p) := p];
    assert p == added[RaftId(p)];
    if RaftId(p) !in peers {
      forall q | q in peers.Values ensures q in added.Values {
        var id :| id in peers && peers[id] == q;
        assert added[id] == q;
      }
    }
  }

  lemma RemoveFiles(peers: Peers, p: PeerId)
    requires Filed(peers) && p in peers.Values
    ensures RaftId(p) in peers && peers[RaftId(p)] == p
    ensures Filed(peers - {RaftId(p)})
    ensures (peers - {RaftId(p)}).Values == peers.Values - {p}
  {
    var id :| id in peers && peers[id] == p;
    var removed := peers - {id};
    forall q | q in peers.Values && q != p ensures q in removed.Values {
      var i :| i in peers && peers[i] == q;
      assert i in removed && removed[i] == q;
    }
  }

  /** Without distinct raft ids the exact conditions are: the check panics unless the added peer has at
      least eight bytes, and the change reaches the setting if and only if its raft id is not taken. */
  lemma AdditionConverges(self: PeerId, peers: Peers, setting: set<PeerBytes>)
    requires Filed(peers) && |Difference(setting, peers.Values)| == 1 && |setting| > |peers.Values|
    ensures var added, check := Element(Difference(setting, peers.Values)), CheckForConfChange(peers, setting);
            && check.Change? == (8 <= |added|) && check.ShortPeer? == (|added| < 8)
            && (check.Change? ==>
                  var applied := ApplyConfChange(self, peers, check.change);
                  applied.Joined? && (applied.peers.Values == setting <==> RaftId(added) !in peers))
  {
    var p := Element(Difference(setting, peers.Values));
    assert p in Difference(setting, peers.Values);
    OneMoreOrLess(setting, peers.Values);
    if 8 <= |p| {
      AddFiles(peers, p);
      if RaftId(p) in peers {
        assert peers[RaftId(p)] in peers.Values;
      }
    }
  }

  // One setting: checked, and the change applied if there is one. None stands for a panic or for
  // leaving the network.
  function FollowOne(self: PeerId, peers: Peers, setting: set<PeerBytes>): Option<Peers> {
    match CheckForConfChange(peers, setting)
    case NoChange => Some(peers)
    case TooManyChanges => None
    case ShortPeer => None
    case Change(change) =>
      match ApplyConfChange(self, peers, change)
      case Joined(peers') => Some(peers')
      case _ => None
  }

  lemma NoDifference(a: set<PeerBytes>, b: set<PeerBytes>)
    requires Difference(a, b) == {}
    ensures a == b
  {
    forall p ensures p in a <==> p in b {
      assert p !in Difference(a, b);
    }
  }

  lemma ChangeIsFollowed(self: PeerId, peers: Peers, setting: set<PeerBytes>, check: Check)
    requires check == CheckForConfChange(peers, setting) && check.Change?
    requires ApplyConfChange(self, peers, check.change).Joined?
    ensures FollowOne(self, peers, setting) == Some(ApplyConfChange(self, peers, check.change).peers)
  {
  }

  lemma SettingConverges(self: PeerId, peers: Peers, setting: set<PeerBytes>)
    requires Filed(peers) && Moderate(self, peers.Values, setting)
    ensures var end := FollowOne(self, peers, setting);
            end.Some? && Filed(end.value) && end.value.Values == setting
  {
    if Difference(setting, peers.Values) == {} {
      NoDifference(setting, peers.Values);
    } else {
      assert |Difference(setting, peers.Values)| == 1;
      ChangeConverges(self, peers, setting);
      ChangeIsFollowed(self, peers, setting, CheckForConfChange(peers, setting));
    }
  }

  // Settings arriving one after the other, each applied before the next is checked.

  // The peers before setting k.
  function Previous(peers: set<PeerBytes>, settings: seq<set<PeerBytes>>, k: nat): set<PeerBytes>
    requires k <= |settings|
  {
    if k == 0 then peers else settings[k - 1]
  }

  // Every setting changes at most one peer, does not drop this node, and raft ids stay distinct.
  ghost predicate OneAtATime(self: PeerId, peers: set<PeerBytes>, settings: seq<set<PeerBytes>>) {
    forall k :: 0 <= k < |settings| ==> Moderate(self, Previous(peers, settings, k), settings[k])
  }

  ghost predicate Moderate(self: PeerId, peers: set<PeerBytes>, setting: set<PeerBytes>) {
    |Difference(setting, peers)| <= 1 && Distinct(peers + setting) && Stays(self, peers, setting)
  }

  function Follow(self: PeerId, peers: Peers, settings: seq<set<PeerBytes>>): Option<Peers> {
    if settings == [] then Some(peers)
    else
      var n := |settings| - 1;
      var before := Follow(self, peers, settings[..n]);
      if before.Some? then FollowOne(self, before.value, settings[n]) else None
  }

  lemma EarlierSettings(self: PeerId, peers: set<PeerBytes>, settings: seq<set<PeerBytes>>)
    requires OneAtATime(self, peers, settings) && settings != []
    ensures var n := |settings| - 1;
            && OneAtATime(self, peers, settings[..n])
            && Moderate(self, Previous(peers, settings[..n], n), settings[n])
  {
    var n := |settings| - 1;
    assert Moderate(self, Previous(peers, settings, n), settings[n]);
    forall k | 0 <= k < n ensures Moderate(self, Previous(peers, settings[..n], k), settings[..n][k]) {
      assert Moderate(self, Previous(peers, settings, k), settings[k]);
    }
  }

  /** Over any sequence of such settings nothing panics or leaves, and the map ends at the last one. */
  lemma {:induction false} SettingsConverge(self: PeerId, peers: Peers, settings: seq<set<PeerBytes>>)
    requires Filed(peers) && OneAtATime(self, peers.Values, settings)
    ensures Follow(self, peers, settings).Some?
    ensures Filed(Follow(self, peers, settings).value)
    ensures Follow(self, peers, settings).value.Values == Previous(peers.Values, settings, |settings|)
  {
    if settings != [] {
      var n := |settings| - 1;
      EarlierSettings(self, peers.Values, settings);
      SettingsConverge(self, peers, settings[..n]);
      SettingConverges(self, Follow(self, peers, settings[..n]).value, settings[n]);
    }
  }
}
