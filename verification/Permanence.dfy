/** What a node has marked as applied stays marked, in this life and in all later ones. */
module Permanence {
  import opened Types
  import opened Files
  import opened NodeSpec
  import opened Ledgers
  import opened Durability
  import opened Cluster
  import Engine

  lemma MarkedGrows(l: Ledger, a: Action)
    ensures l.marked <= Post(l, a).marked
  {
  }

  lemma {:induction false} EarlierIsLess(boot: Directory, p: Trace, t: Trace)
    requires MarksRise(boot, t) && Before(p, t)
    ensures AppliedIndex(DiskAfter(boot, p)) <= AppliedIndex(DiskAfter(boot, t))
    ensures Account(p).marked <= Account(t).marked
  {
    if p != t {
      EarlierIsLess(boot, p, t.before);
      MarkedGrows(Account(t.before), t.action);
      if t.action.Disk? && t.action.op.name != AppliedFile {
        OtherWritesKeepApplied(DiskAfter(boot, t.before), t.action);
      }
    }
  }

  lemma MoreMarks(history: seq<BlockId>, a: seq<BlockId>, b: seq<BlockId>)
    requires a <= b
    ensures history + a <= history + b
  {
  }

  // The machine m' has marked what m has, and perhaps more.
  ghost predicate KeepsMarks(m: Machine, m': Machine) {
    Marked(m) <= Marked(m') && AppliedIndex(m.node.disk) <= AppliedIndex(m'.node.disk)
  }

  // What is marked at a point between the node's present and the end of its next turn.
  lemma {:induction false} LaterPoint(log: seq<Entry>, m: Machine, turn: Turn, at: Trace)
    requires SoundMachine(log, m) && LegalTurn(LifeOf(log, m), m.node, turn)
    requires Before(m.node.trace, at) && Before(at, Take(m.node, turn).trace)
    ensures AppliedIndex(m.node.disk) <= AppliedIndex(DiskAfter(m.boot, at))
    ensures Marked(m) <= m.history + Account(at).marked
  {
    SoundMachineResumes(log, m, turn, at);
    EarlierIsLess(m.boot, m.node.trace, at);
    MoreMarks(m.history, Account(m.node.trace).marked, Account(at).marked);
  }

  lemma {:induction false} TurnKeepsMarks(log: seq<Entry>, m: Machine, turn: Turn)
    requires SoundMachine(log, m) && LegalTurn(LifeOf(log, m), m.node, turn)
    ensures KeepsMarks(m, Advance(m, Work(turn)))
  {
    Engine.TurnGrows(m.node, turn);
    LaterPoint(log, m, turn, Take(m.node, turn).trace);
    TakeIsSound(LifeOf(log, m), m.node, turn);
  }

  lemma {:induction false} CrashKeepsMarks(log: seq<Entry>, m: Machine, e: Event)
    requires SoundMachine(log, m) && LegalEvent(log, m, e) && e.Crash?
    ensures KeepsMarks(m, Advance(m, e))
  {
    LaterPoint(log, m, e.turn, e.at);
    SoundMachineResumes(log, m, e.turn, e.at);
    assert Account(Start).marked == [];
  }

  lemma EventKeepsMarks(log: seq<Entry>, m: Machine, e: Event)
    requires SoundMachine(log, m) && LegalEvent(log, m, e)
    ensures KeepsMarks(m, Advance(m, e))
  {
    match e
    case Work(turn) => TurnKeepsMarks(log, m, turn);
    case Crash(_, _, _, _) => CrashKeepsMarks(log, m, e);
  }

  lemma {:induction false} RunKeepsMarks(log: seq<Entry>, ms: seq<Machine>, es: seq<ClusterEvent>, k: nat, i: nat)
    requires LegalClusterRun(log, ms, es) && k <= |es| && i < |ms|
    requires forall j :: 0 <= j < |ms| ==> SoundMachine(log, ms[j])
    ensures |RunCluster(ms, es[..k])| == |ms| == |RunCluster(ms, es)|
    ensures KeepsMarks(RunCluster(ms, es[..k])[i], RunCluster(ms, es)[i])
  {
    if k < |es| {
      var n := |es| - 1;
      RunKeepsMarks(log, ms, es[..n], k, i);
      assert es[..n][..k] == es[..k];
      ClusterIsSound(log, ms, es[..n]);
      if es[n].who == i {
        EventKeepsMarks(log, RunCluster(ms, es[..n])[i], es[n].event);
      }
    } else {
      assert es[..k] == es;
      ClusterIsSound(log, ms, es);
    }
  }

  /** Nothing applied is ever lost: at any two stages of a run of a cluster, whatever turns, crashes and
      restarts lie between them, a node has marked at the later one what it had marked at the earlier
      one, in the same order, and its applied index is no smaller. */
  lemma {:induction false} MarksLast(log: seq<Entry>, selves: seq<PeerId>, period: nat, setting: seq<PeerId>,
                                     es: seq<ClusterEvent>, k: nat, i: nat)
    requires IsLog(log) && LegalClusterRun(log, NewCluster(selves, period, setting), es)
    requires k <= |es| && i < |selves|
    ensures var start := NewCluster(selves, period, setting);
            var before, after := RunCluster(start, es[..k]), RunCluster(start, es);
            && |before| == |after| == |selves|
            && Marked(before[i]) <= Marked(after[i])
            && AppliedIndex(before[i].node.disk) <= AppliedIndex(after[i].node.disk)
  {
    var start := NewCluster(selves, period, setting);
    forall j | 0 <= j < |selves| ensures SoundMachine(log, start[j]) {
      NewMachineIsSound(log, selves[j], period, setting);
    }
    RunKeepsMarks(log, start, es, k, i);
  }
}
