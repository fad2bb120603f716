/** What a trace adds up to, and what must be true of it at every point. */
module Ledgers {
  import opened Types
  import opened Files
  import opened NodeSpec

  datatype Ledger = Ledger(
    handed: seq<Entry>,            // committed entries Raft delivered
    blocks: seq<(BlockId, nat)>,   // the blocks among them, with their indexes
    popped: seq<(BlockId, nat)>,   // blocks taken off the commit queue
    commits: seq<BlockId>,         // commit_block requests
    marked: seq<BlockId>,          // blocks whose index was written as applied right after their pop
    finalized: seq<BlockId>,       // blocks this node finished building
    proposed: seq<BlockId>,        // blocks proposed to Raft
    changes: seq<ConfChange>,      // membership changes proposed to Raft
    checked: seq<BlockId>,         // blocks the validator was asked to check
    validated: seq<BlockId>,       // blocks it reported as valid
    openings: nat, cancelled: nat,   // initialize_block and cancel_block calls
    building: bool,                // the last initialize_block was neither finalized nor cancelled
    balanced: bool,                // openings and closings alternated so far
    pending: Option<BlockId>,      // the last finalized block while it has not been proposed
    ready: bool,                   // and whether it has been validated since
    orderly: bool,                 // every proposal was the pending block, validated
    led: bool)                     // every call to propose came while Raft's role was leader

  const NOTHING_YET := Ledger([], [], [], [], [], [], [], [], [], [], 0, 0, false, true, None, false, true, true)

  function Post(l: Ledger, a: Action): Ledger {
    match a
    case Deliver(entry) => l.(handed := l.handed + [entry], blocks := l.blocks + BlockIn(entry))
    case Pop(id, index) => l.(popped := l.popped + [(id, index)])
    case Commit(id) => l.(commits := l.commits + [id])
    case Initialize => l.(openings := l.openings + 1, building := true, balanced := l.balanced && !l.building)
    case Finalize(id) =>
      l.(finalized := l.finalized + [id], building := false, balanced := l.balanced && l.building,
         pending := Some(id), ready := false)
    case Cancel => l.(cancelled := l.cancelled + 1, building := false, balanced := l.balanced && l.building)
    case CheckBlocks(id) => l.(checked := l.checked + [id])
    case Validated(id) => l.(validated := l.validated + [id], ready := l.ready || l.pending == Some(id))
    case Propose(id, asLeader) =>
      l.(proposed := l.proposed + [id], pending := None, ready := false,
         orderly := l.orderly && l.pending == Some(id) && l.ready, led := l.led && asLeader)
    case ProposeConfChange(change, asLeader) => l.(changes := l.changes + [change], led := l.led && asLeader)
    case Disk(op) =>
      if op.name == AppliedFile && l.popped != [] then l.(marked := l.marked + [l.popped[|l.popped| - 1].0]) else l
    case _ => l
  }

  function Account(t: Trace): Ledger {
    match t
    case Start => NOTHING_YET
    case Then(before, action) => Post(Account(before), action)
  }

  // The block a log entry carries, with its index: only non-empty normal entries have one.
  function BlockIn(e: Entry): seq<(BlockId, nat)> {
    if e.payload.Normal? then [(e.payload.block, e.index)] else []
  }

  function BlocksOf(entries: seq<Entry>): seq<(BlockId, nat)> {
    if entries == [] then [] else BlocksOf(entries[..|entries| - 1]) + BlockIn(entries[|entries| - 1])
  }

  lemma {:induction false} BlocksOfOneMore(entries: seq<Entry>, e: Entry)
    ensures BlocksOf(entries + [e]) == BlocksOf(entries) + BlockIn(e)
  {
    assert (entries + [e])[..|entries|] == entries;
  }

  lemma PostKeepsBlocks(l: Ledger, a: Action)
    requires l.blocks == BlocksOf(l.handed)
    ensures Post(l, a).blocks == BlocksOf(Post(l, a).handed)
  {
    match a
    case Deliver(e) => BlocksOfOneMore(l.handed, e);
    case _ => assert Post(l, a).handed == l.handed && Post(l, a).blocks == l.blocks;
  }

  lemma {:induction false} HandedBlocks(t: Trace)
    ensures Account(t).blocks == BlocksOf(Account(t).handed)
  {
    if t.Then? {
      HandedBlocks(t.before);
      PostKeepsBlocks(Account(t.before), t.action);
    }
  }

  function Ids(blocks: seq<(BlockId, nat)>): (ids: seq<BlockId>)
    ensures |ids| == |blocks|
    ensures forall i :: 0 <= i < |ids| ==> ids[i] == blocks[i].0
  {
    seq(|blocks|, i requires 0 <= i < |blocks| => blocks[i].0)
  }

  // These are the ids of these blocks, in order.
  ghost predicate Lists(ids: seq<BlockId>, blocks: seq<(BlockId, nat)>) {
    |ids| <= |blocks| && forall i :: 0 <= i < |ids| ==> ids[i] == blocks[i].0
  }

  // Commits are requested once each, in the order Raft delivered, at most one ahead of the pops;
  // block building alternates between open and closed; proposals are orderly.
  ghost predicate Safe(l: Ledger) {
    && l.popped <= l.blocks
    && Lists(l.commits, l.blocks)
    && |l.popped| <= |l.commits| <= |l.popped| + 1
    && l.balanced
    && l.openings == |l.finalized| + l.cancelled + (if l.building then 1 else 0)
    && l.orderly
  }

  // Safe at every point of the trace, so at every crash point.
  ghost predicate AlwaysSafe(t: Trace) {
    Safe(Account(t)) && (t.Then? ==> AlwaysSafe(t.before))
  }

  lemma {:induction false} RecordIsNeutral(t: Trace, ops: seq<FileOp>)
    requires forall i :: 0 <= i < |ops| ==> ops[i].name != AppliedFile
    ensures Account(Record(t, ops)) == Account(t)
    ensures AlwaysSafe(t) ==> AlwaysSafe(Record(t, ops))
  {
    if ops != [] {
      RecordIsNeutral(t, ops[..|ops| - 1]);
    }
  }

  lemma {:induction false} SendingIsNeutral(s: Node, messages: seq<Message>)
    ensures var s' := SendAll(s, messages);
            && s' == s.(trace := s'.trace, status := s'.status)
            && (s'.status != s.status ==> s'.status == Panicked)
            && Account(s'.trace) == Account(s.trace)
            && (AlwaysSafe(s.trace) ==> AlwaysSafe(s'.trace))
  {
    if messages != [] {
      SendingIsNeutral(s, messages[..|messages| - 1]);
    }
  }

  // Derived: the proposed blocks are a subsequence of the finalized ones, each used at most once.

  ghost predicate Subsequence(a: seq<BlockId>, b: seq<BlockId>) {
    a == [] ||
    (b != [] && (Subsequence(a, b[..|b| - 1]) ||
                 (a[|a| - 1] == b[|b| - 1] && Subsequence(a[..|a| - 1], b[..|b| - 1]))))
  }

  lemma {:induction false} SubsequenceGrows(a: seq<BlockId>, b: seq<BlockId>, x: BlockId)
    requires Subsequence(a, b)
    ensures Subsequence(a, b + [x]) && Subsequence(a + [x], b + [x])
  {
    assert (b + [x])[..|b|] == b && (a + [x])[..|a|] == a;
  }

  // Without the pending block, the proposals are a subsequence of the finalizations before it.
  ghost predicate Accounted(l: Ledger) {
    && Subsequence(l.proposed, l.finalized)
    && (l.pending.Some? ==>
          && l.finalized != [] && l.finalized[|l.finalized| - 1] == l.pending.value
          && Subsequence(l.proposed, l.finalized[..|l.finalized| - 1]))
  }

  lemma FinalizeIsAccounted(l: Ledger, id: BlockId)
    requires Accounted(l)
    ensures Accounted(Post(l, Finalize(id)))
  {
    SubsequenceGrows(l.proposed, l.finalized, id);
    assert (l.finalized + [id])[..|l.finalized|] == l.finalized;
  }

  lemma ProposeIsAccounted(l: Ledger, id: BlockId)
    requires Accounted(l) && l.pending == Some(id)
    ensures Subsequence(l.proposed + [id], l.finalized)
  {
    var n := |l.finalized| - 1;
    SubsequenceGrows(l.proposed, l.finalized[..n], id);
    assert l.finalized == l.finalized[..n] + [id];
  }

  lemma PostIsAccounted(l: Ledger, a: Action)
    requires Accounted(l) && Post(l, a).orderly
    ensures Accounted(Post(l, a))
  {
    match a
    case Finalize(id) => FinalizeIsAccounted(l, id);
    case Propose(id, _) => ProposeIsAccounted(l, id);
    case _ =>
  }

  lemma {:induction false} OrderlyProposals(t: Trace)
    requires AlwaysSafe(t)
    ensures Accounted(Account(t))
  {
    if t.Then? {
      OrderlyProposals(t.before);
      PostIsAccounted(Account(t.before), t.action);
    }
  }
}
