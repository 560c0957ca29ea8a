/** The invariant of `SchedulerState` holds initially and after every iteration of `run`,
    and each iteration changes the processes and the clock only in the ways the source does. */
module SchedulerProofs {
  import opened Common
  import opened Processes
  import opened Queues
  import opened Execution
  import opened SchedulerState
  import opened Scheduler

  /** A waiting process that runs to completion on the last level ends up finished. */
  lemma LastLevelFinishes(p: Process, t: int)
    requires Ready(p, t)
    ensures Finished(Complete(p.(remainingTime := 0), t + p.remainingTime), t + p.remainingTime)
  {
  }

  /** A waiting process dispatched under a quantum either finishes or is still waiting. */
  lemma SliceOutcome(p: Process, t: int, quantum: int)
    requires Ready(p, t)
    ensures var slice := QuantumSlice(p, t, quantum);
      && (slice.finished ==> Finished(Complete(slice.proc, slice.time), slice.time))
      && (!slice.finished ==> Ready(slice.proc, slice.time))
  {
  }

  /** The front of a level is in no other place: not in the backlog, not completed, not
      further back in its own level and not in any other level. */
  lemma FrontUnique(s: State, k: nat)
    requires Inv(s) && k < |s.queues| && |s.queues[k].processes| > 0
    ensures var x := Front(s, k);
      && x !in s.backlog
      && x !in s.completed
      && x !in s.queues[k].processes[1..]
      && forall j :: 0 <= j < |s.queues| && j != k ==> x !in s.queues[j].processes
  {
    var x := Front(s, k);
    var qs := s.queues;
    RangeCount(|s.procs|, x);
    var rest := qs[k := RemoveProcess(qs[k])];
    QueuedIdsRemoveFront(qs, k);
    assert multiset(s.backlog)[x] + QueuedIds(rest)[x] + multiset(s.completed)[x] == 0;
    assert x !in rest[k].processes by {
      if x in rest[k].processes {
        QueuedIdsMember(rest, k, x);
      }
    }
    forall j | 0 <= j < |qs| && j != k
      ensures x !in qs[j].processes
    {
      assert rest[j] == qs[j];
      if x in rest[j].processes {
        QueuedIdsMember(rest, j, x);
      }
    }
  }

  /** The initial state satisfies the invariant when there is at least one level and every
      burst is positive. */
  lemma InitInv(workload: seq<(int, int)>, quanta: seq<int>)
    requires |quanta| >= 1
    requires forall i :: 0 <= i < |workload| ==> workload[i].1 >= 1
    ensures Inv(Init(workload, quanta))
  {
    var s := Init(workload, quanta);
    var n := |workload|;
    forall x: nat | x in s.backlog
      ensures x < |s.procs| && Fresh(s.procs[x])
    {
      RangeMembers(n, x);
    }
    QueuedIdsEmpty(s.queues);
  }

  /** Admission keeps the invariant. */
  lemma CheckProcessesInv(s: State)
    requires Inv(s)
    ensures Inv(CheckProcesses(s))
  {
    if Admits(s) {
      var r := CheckProcesses(s);
      var x := s.backlog[0];
      assert r == Admit(s);
      assert x in s.backlog;
      assert LevelsValid(r) by {
        forall j | 0 <= j < |r.queues|
          ensures r.queues[j].Valid()
        {
        }
      }
      assert BacklogFresh(r) by {
        forall y: nat | y in r.backlog
          ensures y < |r.procs| && Fresh(r.procs[y])
        {
          assert y in s.backlog;
        }
      }
      assert QueuesReady(r) by {
        forall j: int, y: nat {:trigger y in r.queues[j].processes}
            | 0 <= j < |r.queues| && y in r.queues[j].processes
          ensures y < |r.procs| && Ready(r.procs[y], r.time)
        {
          assert y in s.queues[j].processes || y == x;
        }
      }
    }
  }

  /** An identifier in some level after the front of level k is removed was in the same level
      before, and is not the removed front. */
  lemma AfterRemoveFront(s: State, k: nat, j: int, y: nat)
    requires Inv(s) && k < |s.queues| && |s.queues[k].processes| > 0
    requires 0 <= j < |s.queues|
    requires y in s.queues[k := RemoveProcess(s.queues[k])][j].processes
    ensures y in s.queues[j].processes && y != Front(s, k)
  {
    FrontUnique(s, k);
    if j == k {
      assert y in s.queues[k].processes[1..];
    }
  }

  /** The two ways a dispatch ends. Both replace the front's record by p and set the clock to t;
      `FinishFront` moves the front to the completed list, `DemoteFront` to the back of the
      next level. */
  function FinishFront(s: State, k: nat, p: Process, t: int): State
    requires WellFormed(s) && k < |s.queues| && |s.queues[k].processes| > 0
  {
    var x := Front(s, k);
    State(s.procs[x := p], s.backlog, s.queues[k := RemoveProcess(s.queues[k])], t,
          s.completed + [x])
  }

  function DemoteFront(s: State, k: nat, p: Process, t: int): State
    requires WellFormed(s) && k + 1 < |s.queues| && |s.queues[k].processes| > 0
  {
    var x := Front(s, k);
    var removed := s.queues[k := RemoveProcess(s.queues[k])];
    State(s.procs[x := p], s.backlog, removed[k + 1 := AddProcess(s.queues[k + 1], x)], t,
          s.completed)
  }

  /** What both endings need of the new record: same inputs, no earlier clock. */
  predicate Successor(s: State, k: nat, p: Process, t: int)
    requires WellFormed(s) && k < |s.queues| && |s.queues[k].processes| > 0
  {
    var old_ := s.procs[Front(s, k)];
    && p.arrivalTime == old_.arrivalTime
    && p.burstTime == old_.burstTime
    && t >= s.time
  }

  lemma FinishFrontShape(s: State, k: nat, p: Process, t: int)
    requires Inv(s) && k < |s.queues| && |s.queues[k].processes| > 0
    requires Successor(s, k, p, t) && Finished(p, t)
    ensures WellFormed(FinishFront(s, k, p, t)) && LevelsValid(FinishFront(s, k, p, t))
    ensures ArenaOk(FinishFront(s, k, p, t))
  {
    var r := FinishFront(s, k, p, t);
    var x := Front(s, k);
    FrontUnique(s, k);
    forall y: nat | y in r.backlog
      ensures y < |r.procs| && r.procs[y].remainingTime >= 1
    {
      assert y != x;
    }
    forall j: int, y: nat {:trigger y in r.queues[j].processes}
        | 0 <= j < |r.queues| && y in r.queues[j].processes
      ensures y < |r.procs| && r.procs[y].remainingTime >= 1
    {
      AfterRemoveFront(s, k, j, y);
    }
    forall j | 0 <= j < |r.queues|
      ensures r.queues[j].Valid()
      ensures r.queues[j].last == s.queues[j].last && r.queues[j].next == s.queues[j].next
    {
    }
  }

  lemma FinishFrontPlaced(s: State, k: nat, p: Process, t: int)
    requires Inv(s) && k < |s.queues| && |s.queues[k].processes| > 0
    ensures Placed(FinishFront(s, k, p, t))
  {
    var x := Front(s, k);
    var r := FinishFront(s, k, p, t);
    QueuedIdsRemoveFront(s.queues, k);
    assert multiset(r.completed) == multiset(s.completed) + multiset{x};
  }

  lemma FinishFrontFacts(s: State, k: nat, p: Process, t: int)
    requires Inv(s) && k < |s.queues| && |s.queues[k].processes| > 0
    requires Successor(s, k, p, t) && Finished(p, t)
    ensures BacklogFresh(FinishFront(s, k, p, t))
    ensures QueuesReady(FinishFront(s, k, p, t))
    ensures CompletedFinished(FinishFront(s, k, p, t))
  {
    var r := FinishFront(s, k, p, t);
    var x := Front(s, k);
    FrontUnique(s, k);
    forall y: nat | y in r.backlog
      ensures y < |r.procs| && Fresh(r.procs[y])
    {
      assert y != x;
    }
    forall j: int, y: nat {:trigger y in r.queues[j].processes}
        | 0 <= j < |r.queues| && y in r.queues[j].processes
      ensures y < |r.procs| && Ready(r.procs[y], r.time)
    {
      AfterRemoveFront(s, k, j, y);
    }
    forall y: nat | y in r.completed
      ensures y < |r.procs| && Finished(r.procs[y], r.time)
    {
      assert y == x || y in s.completed;
    }
  }

  /** Completing the front of a level keeps the invariant. */
  lemma FinishFrontInv(s: State, k: nat, p: Process, t: int)
    requires Inv(s) && k < |s.queues| && |s.queues[k].processes| > 0
    requires Successor(s, k, p, t) && Finished(p, t)
    ensures Inv(FinishFront(s, k, p, t))
  {
    FinishFrontShape(s, k, p, t);
    FinishFrontPlaced(s, k, p, t);
    FinishFrontFacts(s, k, p, t);
  }

  /** Where an identifier in a level after a demotion came from. */
  lemma AfterDemote(s: State, k: nat, p: Process, t: int, j: int, y: nat)
    requires Inv(s) && k + 1 < |s.queues| && |s.queues[k].processes| > 0
    requires 0 <= j < |s.queues|
    requires y in DemoteFront(s, k, p, t).queues[j].processes
    ensures y == Front(s, k) || (y in s.queues[j].processes && y != Front(s, k))
  {
    var x := Front(s, k);
    FrontUnique(s, k);
    if y != x {
      if j == k + 1 {
        assert y in s.queues[k + 1].processes;
      } else {
        AfterRemoveFront(s, k, j, y);
      }
    }
  }

  lemma DemoteFrontShape(s: State, k: nat, p: Process, t: int)
    requires Inv(s) && k + 1 < |s.queues| && |s.queues[k].processes| > 0
    requires Successor(s, k, p, t) && Ready(p, t)
    ensures WellFormed(DemoteFront(s, k, p, t)) && LevelsValid(DemoteFront(s, k, p, t))
    ensures ArenaOk(DemoteFront(s, k, p, t))
  {
    var r := DemoteFront(s, k, p, t);
    var x := Front(s, k);
    FrontUnique(s, k);
    forall y: nat | y in r.backlog
      ensures y < |r.procs| && r.procs[y].remainingTime >= 1
    {
      assert y != x;
    }
    forall j: int, y: nat {:trigger y in r.queues[j].processes}
        | 0 <= j < |r.queues| && y in r.queues[j].processes
      ensures y < |r.procs| && r.procs[y].remainingTime >= 1
    {
      AfterDemote(s, k, p, t, j, y);
    }
    forall j | 0 <= j < |r.queues|
      ensures r.queues[j].Valid()
      ensures r.queues[j].last == s.queues[j].last && r.queues[j].next == s.queues[j].next
    {
    }
  }

  lemma DemoteFrontPlaced(s: State, k: nat, p: Process, t: int)
    requires Inv(s) && k + 1 < |s.queues| && |s.queues[k].processes| > 0
    ensures Placed(DemoteFront(s, k, p, t))
  {
    var x := Front(s, k);
    var r := DemoteFront(s, k, p, t);
    var qs := s.queues;
    var removed := qs[k := RemoveProcess(qs[k])];
    QueuedIdsRemoveFront(qs, k);
    assert removed[k + 1] == qs[k + 1];
    QueuedIdsAddBack(removed, k + 1, x);
    MultisetCancel(QueuedIds(r.queues), QueuedIds(qs), multiset{x});
  }

  lemma DemoteFrontFacts(s: State, k: nat, p: Process, t: int)
    requires Inv(s) && k + 1 < |s.queues| && |s.queues[k].processes| > 0
    requires Successor(s, k, p, t) && Ready(p, t)
    ensures BacklogFresh(DemoteFront(s, k, p, t))
    ensures QueuesReady(DemoteFront(s, k, p, t))
    ensures CompletedFinished(DemoteFront(s, k, p, t))
  {
    var r := DemoteFront(s, k, p, t);
    var x := Front(s, k);
    FrontUnique(s, k);
    forall y: nat | y in r.backlog
      ensures y < |r.procs| && Fresh(r.procs[y])
    {
      assert y != x;
    }
    forall j: int, y: nat {:trigger y in r.queues[j].processes}
        | 0 <= j < |r.queues| && y in r.queues[j].processes
      ensures y < |r.procs| && Ready(r.procs[y], r.time)
    {
      AfterDemote(s, k, p, t, j, y);
    }
    forall y: nat | y in r.completed
      ensures y < |r.procs| && Finished(r.procs[y], r.time)
    {
      assert y != x;
    }
  }

  /** Demoting the front of a level keeps the invariant. */
  lemma DemoteFrontInv(s: State, k: nat, p: Process, t: int)
    requires Inv(s) && k + 1 < |s.queues| && |s.queues[k].processes| > 0
    requires Successor(s, k, p, t) && Ready(p, t)
    ensures Inv(DemoteFront(s, k, p, t))
  {
    DemoteFrontShape(s, k, p, t);
    DemoteFrontPlaced(s, k, p, t);
    DemoteFrontFacts(s, k, p, t);
  }

  /** The last-level dispatch keeps the invariant. */
  lemma DispatchLastInv(s: State, k: nat)
    requires Inv(s) && k < |s.queues| && s.queues[k].last && |s.queues[k].processes| > 0
    ensures Inv(DispatchLast(s, k))
  {
    var x := Front(s, k);
    var p := s.procs[x];
    var t := s.time + p.remainingTime;
    var done := Complete(p.(remainingTime := 0), t);
    LastLevelFinishes(p, s.time);
    assert DispatchLast(s, k) == FinishFront(s, k, done, t);
    FinishFrontInv(s, k, done, t);
  }

  /** The quantum-bounded dispatch keeps the invariant, whether the process finishes or is
      demoted. */
  lemma DispatchQuantumInv(s: State, k: nat)
    requires Inv(s) && k < |s.queues| && !s.queues[k].last && |s.queues[k].processes| > 0
    ensures Inv(DispatchQuantum(s, k))
  {
    var x := Front(s, k);
    var p := s.procs[x];
    var slice := QuantumSlice(p, s.time, s.queues[k].maxBurstTime);
    SliceOutcome(p, s.time, s.queues[k].maxBurstTime);
    if slice.finished {
      var done := Complete(slice.proc, slice.time);
      assert DispatchQuantum(s, k) == FinishFront(s, k, done, slice.time);
      FinishFrontInv(s, k, done, slice.time);
    } else {
      assert DispatchQuantum(s, k) == DemoteFront(s, k, slice.proc, slice.time);
      DemoteFrontInv(s, k, slice.proc, slice.time);
    }
  }

  /** One iteration of `run` keeps the invariant. */
  lemma StepInv(s: State)
    requires Inv(s)
    ensures Inv(Step(s))
  {
    var s1 := CheckProcesses(s);
    CheckProcessesInv(s);
    match HighestPriorityQueue(s1.queues)
    case None =>
    case Some(k) =>
      if s1.queues[k].last {
        DispatchLastInv(s1, k);
      } else {
        DispatchQuantumInv(s1, k);
      }
  }
}
