/** BlockNew and BlockValid messages may arrive in any order and any number of times. */
module ValidationOrder {
  import opened Types
  import opened BlockQueues
  import opened NodeSpec
  import opened Ledgers
  import opened NodeRuns

  datatype Notice = New(block: Block) | Valid(id: BlockId)

  function Receive(s: Node, notice: Notice): Node {
    match notice
    case New(block) => OnBlockNew(s, block)
    case Valid(id) => OnBlockValid(s, id)
  }

  function ReceiveAll(s: Node, notices: seq<Notice>): Node {
    if notices == [] then s else Receive(ReceiveAll(s, notices[..|notices| - 1]), notices[|notices| - 1])
  }

  // One block content per id.
  ghost predicate Consistent(notices: seq<Notice>) {
    forall a, b :: New(a) in notices && New(b) in notices && a.id == b.id ==> a == b
  }

  ghost predicate Announced(notices: seq<Notice>, id: BlockId) {
    exists block :: New(block) in notices && block.id == id
  }

  lemma SplitLast(notices: seq<Notice>)
    requires notices != []
    ensures forall n :: n in notices <==> n in notices[..|notices| - 1] || n == notices[|notices| - 1]
  {
    assert notices == notices[..|notices| - 1] + [notices[|notices| - 1]];
  }

  // The status of a block afterwards depends only on which notices came.
  lemma {:induction false} StatusAfter(s: Node, notices: seq<Notice>, id: BlockId)
    requires Consistent(notices)
    ensures var q, q' := s.queue, ReceiveAll(s, notices).queue;
            && q'.commits == q.commits
            && (id in q'.backlog <==> id in q.backlog || Announced(notices, id) || Valid(id) in notices)
            && (StatusOf(q', id).valid <==> StatusOf(q, id).valid || Valid(id) in notices)
            && (!Announced(notices, id) ==> StatusOf(q', id).block == StatusOf(q, id).block)
            && (forall block :: New(block) in notices && block.id == id ==> StatusOf(q', id).block == Some(block))
  {
    if notices != [] {
      var n := |notices| - 1;
      SplitLast(notices);
      StatusAfter(s, notices[..n], id);
      var s1 := ReceiveAll(s, notices[..n]);
      ReceivedQueue(s1, notices[n]);
      StatusStep(s1.queue, notices[n], id);
    }
  }

  function QueueAfter(q: Queue, notice: Notice): Queue {
    match notice
    case New(block) => WithBlock(q, block)
    case Valid(id) => WithValid(q, id)
  }

  lemma ReceivedQueue(s: Node, notice: Notice)
    ensures Receive(s, notice).queue == QueueAfter(s.queue, notice)
  {
  }

  lemma StatusStep(q: Queue, notice: Notice, id: BlockId)
    ensures var q' := QueueAfter(q, notice);
            && q'.commits == q.commits
            && (id in q'.backlog <==>
                  id in q.backlog || (notice.New? && notice.block.id == id) || notice == Valid(id))
            && (StatusOf(q', id).valid <==> StatusOf(q, id).valid || notice == Valid(id))
            && StatusOf(q', id).block ==
               if notice.New? && notice.block.id == id then Some(notice.block) else StatusOf(q, id).block
  {
  }

  // So does the leader's state: its unproposed block is proposed once it is valid.
  lemma {:induction false} LeaderAfter(s: Node, notices: seq<Notice>)
    ensures var s', u := ReceiveAll(s, notices), Unproposed(s);
            && s' == s.(queue := s'.queue, leader := s'.leader, trace := s'.trace)
            && s'.leader ==
               (if u.Some? && Valid(u.value) in notices then Some(Proposing(u.value))
                else if u.Some? && Announced(notices, u.value) then Some(Validating(u.value))
                else s.leader)
            && Account(s'.trace).proposed ==
               Account(s.trace).proposed + (if u.Some? && Valid(u.value) in notices then [u.value] else [])
  {
    if notices != [] {
      SplitLast(notices);
      LeaderAfter(s, notices[..|notices| - 1]);
      LeaderStep(ReceiveAll(s, notices[..|notices| - 1]), notices[|notices| - 1]);
    }
  }

  lemma LeaderStep(s: Node, notice: Notice)
    ensures var s', u := Receive(s, notice), Unproposed(s);
            && s' == s.(queue := s'.queue, leader := s'.leader, trace := s'.trace)
            && s'.leader ==
               (if u.Some? && notice == Valid(u.value) then Some(Proposing(u.value))
                else if u.Some? && notice.New? && notice.block.id == u.value then Some(Validating(u.value))
                else s.leader)
            && Account(s'.trace).proposed ==
               Account(s.trace).proposed + (if u.Some? && notice == Valid(u.value) then [u.value] else [])
  {
    if notice.Valid? {
      var t1 := Then(s.trace, Validated(notice.id));
      assert Account(t1).proposed == Account(s.trace).proposed;
    }
  }

  /** Two lists with the same notices, in any order and however often repeated, lead to the same
      backlog, the same next committable block, the same leader state and the same proposals. */
  lemma {:induction false} OrderDoesNotMatter(s: Node, notices: seq<Notice>, others: seq<Notice>)
    requires Consistent(notices)
    requires forall n :: n in notices <==> n in others
    ensures var s1, s2 := ReceiveAll(s, notices), ReceiveAll(s, others);
            && s1.queue == s2.queue && NextCommittable(s1.queue) == NextCommittable(s2.queue)
            && s1.leader == s2.leader
            && Account(s1.trace).proposed == Account(s2.trace).proposed
            && s1 == s2.(trace := s1.trace)
  {
    LeaderAfter(s, notices);
    LeaderAfter(s, others);
    assert forall id :: Announced(notices, id) <==> Announced(others, id);
    var q1, q2 := ReceiveAll(s, notices).queue, ReceiveAll(s, others).queue;
    forall id: BlockId
      ensures id in q1.backlog <==> id in q2.backlog
      ensures id in q1.backlog ==> q1.backlog[id] == q2.backlog[id]
    {
      StatusAfter(s, notices, id);
      StatusAfter(s, others, id);
      if Announced(notices, id) {
        var block :| New(block) in notices && block.id == id;
        assert StatusOf(q1, id).block == Some(block) == StatusOf(q2, id).block;
      }
    }
    StatusAfter(s, notices, BlockId([]));
    StatusAfter(s, others, BlockId([]));
    assert q1.backlog == q2.backlog;
  }
}
