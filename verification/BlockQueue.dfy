/** The backlog of blocks known to the validator and the queue of blocks Raft has committed. */
module BlockQueues {
  import opened Types

  datatype BlockStatus = BlockStatus(block: Option<Block>, valid: bool)

  datatype Queue = Queue(backlog: map<BlockId, BlockStatus>, commits: seq<(BlockId, nat)>)

  const EMPTY_QUEUE := Queue(map[], [])

  function StatusOf(q: Queue, id: BlockId): BlockStatus {
    if id in q.backlog then q.backlog[id] else BlockStatus(None, false)
  }

  function WithBlock(q: Queue, block: Block): Queue {
    q.(backlog := q.backlog[block.id := StatusOf(q, block.id).(block := Some(block))])
  }

  function WithValid(q: Queue, id: BlockId): Queue {
    q.(backlog := q.backlog[id := StatusOf(q, id).(valid := true)])
  }

  function WithCommit(q: Queue, id: BlockId, index: nat): Queue {
    q.(commits := q.commits + [(id, index)])
  }

  function WithoutFront(q: Queue): Queue
    requires q.commits != []
  {
    Queue(q.backlog - {q.commits[0].0}, q.commits[1..])
  }

  /** Popping the front forgets that block and no other. */
  lemma PopForgetsOne(q: Queue)
    requires q.commits != []
    ensures var q', popped := WithoutFront(q), q.commits[0].0;
            && [q.commits[0]] + q'.commits == q.commits
            && popped !in q'.backlog
            && forall id :: id != popped ==>
                              (id in q'.backlog <==> id in q.backlog) && StatusOf(q', id) == StatusOf(q, id)
  {
  }

  function NextCommittable(q: Queue): (next: Option<BlockId>) {
    if q.commits != [] && StatusOf(q, q.commits[0].0).valid then Some(q.commits[0].0) else None
  }

  class BlockQueue {
    var backlog: map<BlockId, BlockStatus>
    var commits: seq<(BlockId, nat)>

    ghost function View(): Queue
      reads this
    {
      Queue(backlog, commits)
    }

    constructor ()
      ensures View() == EMPTY_QUEUE
    {
      backlog, commits := map[], [];
    }

    method BlockNew(block: Block)
      modifies this
      ensures View() == WithBlock(old(View()), block)
    {
      if block.id in backlog {
        backlog := backlog[block.id := backlog[block.id].(block := Some(block))];
      } else {
        backlog := backlog[block.id := BlockStatus(Some(block), false)];
      }
    }

    method BlockValid(id: BlockId)
      modifies this
      ensures View() == WithValid(old(View()), id)
    {
      if id in backlog {
        backlog := backlog[id := backlog[id].(valid := true)];
      } else {
        backlog := backlog[id := BlockStatus(None, true)];
      }
    }

    method AddBlockCommit(id: BlockId, index: nat)
      modifies this
      ensures View() == WithCommit(old(View()), id, index)
    {
      commits := commits + [(id, index)];
    }

    // None stands for the panic on an empty queue.
    method BlockCommitted() returns (index: Option<nat>)
      modifies this
      ensures index.None? <==> old(commits) == []
      ensures index.None? ==> View() == old(View())
      ensures index.Some? ==> index.value == old(commits)[0].1
      ensures index.Some? ==> View() == WithoutFront(old(View()))
      ensures index.Some? ==> [old(commits)[0]] + commits == old(commits) && old(commits)[0].0 !in backlog
      ensures index.Some? ==> forall id :: id != old(commits)[0].0 ==>
                (id in backlog <==> id in old(backlog)) && (id in backlog ==> backlog[id] == old(backlog)[id])
    {
      if commits == [] {
        return None;
      }
      var (id, entry) := commits[0];
      commits := commits[1..];
      backlog := backlog - {id};
      index := Some(entry);
    }

    method GetNextCommittable() returns (next: Option<BlockId>)
      ensures next == NextCommittable(View())
    {
      if commits != [] {
        var id := commits[0].0;
        if id in backlog {
          if backlog[id].valid {
            return Some(id);
          }
        }
      }
      next := None;
    }
  }
}
