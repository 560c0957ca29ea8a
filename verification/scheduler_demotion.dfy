/** Which processes are ever demoted, and how far (proje.py lines 87-91 and 121-139). A process
    enters the first level untouched and leaves a non-last level either finished or for the next
    level after running that level's full quantum. So a process reaches level k only when its
    burst exceeds the quanta of the levels above together; in particular a process whose burst
    fits in the first quantum completes on the first level and is never demoted. */
module SchedulerDemotion {
  import opened Common
  import opened Processes
  import opened Queues
  import opened Execution
  import opened SchedulerState
  import opened Scheduler
  import opened SchedulerProofs
  import opened SchedulerRun

  /** The units of work a process has received by the time it waits on level k: each level
      above ran it for that level's full quantum, and a non-positive quantum runs nothing. */
  function Served(qs: seq<Queue>, k: nat): (n: int)
    requires k <= |qs|
    ensures n >= 0
    ensures forall j :: 0 <= j < k ==> n >= qs[j].maxBurstTime
  {
    if k == 0 then 0
    else Served(qs, k - 1) + (if qs[k - 1].maxBurstTime >= 1 then qs[k - 1].maxBurstTime else 0)
  }

  /** The service above a level depends only on the quanta of the levels above it. */
  lemma {:induction false} ServedDependsOnQuanta(a: seq<Queue>, b: seq<Queue>, k: nat)
    requires k <= |a| && k <= |b|
    requires forall j :: 0 <= j < k ==> a[j].maxBurstTime == b[j].maxBurstTime
    ensures Served(a, k) == Served(b, k)
  {
    if k > 0 {
      ServedDependsOnQuanta(a, b, k - 1);
    }
  }

  /** What a level says about the past of the processes waiting in it: a record on the first
      level is untouched since construction, and a record on level k has executed exactly the
      service of the levels above and still has work left. */
  predicate DemotionHistory(s: State)
    requires |s.queues| >= 1
  {
    && (forall x: nat :: x in s.queues[0].processes ==>
          x < |s.procs| && s.procs[x] == NewProcess(s.procs[x].arrivalTime, s.procs[x].burstTime))
    && (forall k: int, x: nat {:trigger x in s.queues[k].processes} ::
          0 <= k < |s.queues| && x in s.queues[k].processes ==>
          && x < |s.procs| && 1 <= s.procs[x].remainingTime
          && s.procs[x].burstTime - s.procs[x].remainingTime == Served(s.queues, k))
  }

  /** A process waiting on level k has a burst longer than the service of the levels above. */
  lemma WaitingNeedsService(s: State, k: nat, x: nat)
    requires |s.queues| >= 1 && DemotionHistory(s)
    requires k < |s.queues| && x in s.queues[k].processes
    ensures x < |s.procs| && s.procs[x].burstTime > Served(s.queues, k)
  {
  }

  /** A process whose burst fits in the first quantum waits in no later level. */
  lemma ShortStaysOnTop(s: State, x: nat)
    requires |s.queues| >= 1 && DemotionHistory(s)
    requires x < |s.procs| && s.procs[x].burstTime <= s.queues[0].maxBurstTime
    ensures forall k :: 1 <= k < |s.queues| ==> x !in s.queues[k].processes
  {
  }

  /** The constructed scheduler has empty levels, so the history holds trivially. */
  lemma InitHistory(workload: seq<(int, int)>, quanta: seq<int>)
    requires |quanta| >= 1
    ensures DemotionHistory(Init(workload, quanta))
  {
  }

  /** Admission puts an untouched backlog record on the first level. */
  lemma CheckProcessesHistory(s: State)
    requires Inv(s) && DemotionHistory(s)
    ensures DemotionHistory(CheckProcesses(s))
  {
    var r := CheckProcesses(s);
    if Admits(s) {
      var x := s.backlog[0];
      assert x in s.backlog;
      AdmitEvolves(s);
      forall y: nat | y in r.queues[0].processes
        ensures y < |r.procs| && r.procs[y] == NewProcess(r.procs[y].arrivalTime, r.procs[y].burstTime)
      {
        if y != x {
          assert y in s.queues[0].processes;
        }
      }
      forall k: int, y: nat {:trigger y in r.queues[k].processes} | 0 <= k < |r.queues| && y in r.queues[k].processes
        ensures && y < |r.procs| && 1 <= r.procs[y].remainingTime
                && r.procs[y].burstTime - r.procs[y].remainingTime == Served(r.queues, k)
      {
        ServedDependsOnQuanta(r.queues, s.queues, k);
        if k != 0 || y != x {
          assert y in s.queues[k].processes;
        }
      }
    }
  }

  /** Completing the front of a level removes it from every level and touches no other record. */
  lemma FinishFrontHistory(s: State, k: nat, p: Process, t: int)
    requires Inv(s) && DemotionHistory(s) && k < |s.queues| && |s.queues[k].processes| > 0
    ensures DemotionHistory(FinishFront(s, k, p, t))
  {
    var r := FinishFront(s, k, p, t);
    forall y: nat | y in r.queues[0].processes
      ensures y < |r.procs| && r.procs[y] == NewProcess(r.procs[y].arrivalTime, r.procs[y].burstTime)
    {
      AfterRemoveFront(s, k, 0, y);
    }
    forall j: int, y: nat {:trigger y in r.queues[j].processes} | 0 <= j < |r.queues| && y in r.queues[j].processes
      ensures && y < |r.procs| && 1 <= r.procs[y].remainingTime
              && r.procs[y].burstTime - r.procs[y].remainingTime == Served(r.queues, j)
    {
      AfterRemoveFront(s, k, j, y);
      ServedDependsOnQuanta(r.queues, s.queues, j);
    }
  }

  /** Demoting the front of level k to level k + 1 keeps the history when the new record has
      executed exactly the service above level k + 1 and still has work left. */
  lemma DemoteFrontHistory(s: State, k: nat, p: Process, t: int)
    requires Inv(s) && DemotionHistory(s) && k + 1 < |s.queues| && |s.queues[k].processes| > 0
    requires 1 <= p.remainingTime && p.burstTime - p.remainingTime == Served(s.queues, k + 1)
    ensures DemotionHistory(DemoteFront(s, k, p, t))
  {
    var r := DemoteFront(s, k, p, t);
    forall y: nat | y in r.queues[0].processes
      ensures y < |r.procs| && r.procs[y] == NewProcess(r.procs[y].arrivalTime, r.procs[y].burstTime)
    {
      assert r.queues[0] == s.queues[k := RemoveProcess(s.queues[k])][0];
      AfterRemoveFront(s, k, 0, y);
    }
    forall j: int, y: nat {:trigger y in r.queues[j].processes} | 0 <= j < |r.queues| && y in r.queues[j].processes
      ensures && y < |r.procs| && 1 <= r.procs[y].remainingTime
              && r.procs[y].burstTime - r.procs[y].remainingTime == Served(r.queues, j)
    {
      DemotedEntry(s, k, p, t, j, y);
    }
  }

  /** An identifier on some level after a demotion: either the demoted process on level k + 1,
      or a process that was already waiting there with the same record. */
  lemma DemotedEntry(s: State, k: nat, p: Process, t: int, j: int, y: nat)
    requires Inv(s) && DemotionHistory(s) && k + 1 < |s.queues| && |s.queues[k].processes| > 0
    requires 1 <= p.remainingTime && p.burstTime - p.remainingTime == Served(s.queues, k + 1)
    requires 0 <= j < |s.queues| && y in DemoteFront(s, k, p, t).queues[j].processes
    ensures var r := DemoteFront(s, k, p, t);
      && y < |r.procs| && 1 <= r.procs[y].remainingTime
      && r.procs[y].burstTime - r.procs[y].remainingTime == Served(r.queues, j)
  {
    var r := DemoteFront(s, k, p, t);
    var x := Front(s, k);
    assert forall i :: 0 <= i < |r.queues| ==> r.queues[i].maxBurstTime == s.queues[i].maxBurstTime;
    ServedDependsOnQuanta(r.queues, s.queues, j);
    AfterDemote(s, k, p, t, j, y);
    if y == x {
      assert r.procs[x] == p;
      if j != k + 1 {
        AfterRemoveFront(s, k, j, y);
        assert false;
      }
    } else {
      assert y in s.queues[j].processes;
    }
  }

  /** The last-level dispatch keeps the history. */
  lemma DispatchLastHistory(s: State, k: nat)
    requires Inv(s) && DemotionHistory(s)
    requires k < |s.queues| && s.queues[k].last && |s.queues[k].processes| > 0
    ensures DemotionHistory(DispatchLast(s, k))
  {
    var p := s.procs[Front(s, k)];
    var t := s.time + p.remainingTime;
    assert DispatchLast(s, k) == FinishFront(s, k, Complete(p.(remainingTime := 0), t), t);
    FinishFrontHistory(s, k, Complete(p.(remainingTime := 0), t), t);
  }

  /** The quantum dispatch keeps the history: a process leaving level k unfinished ran that
      level's whole quantum (nothing when the quantum is not positive), so it arrives on level
      k + 1 having executed exactly the service above level k + 1. */
  lemma DispatchQuantumHistory(s: State, k: nat)
    requires Inv(s) && DemotionHistory(s)
    requires k < |s.queues| && !s.queues[k].last && |s.queues[k].processes| > 0
    ensures DemotionHistory(DispatchQuantum(s, k))
  {
    var x := Front(s, k);
    var p := s.procs[x];
    var slice := QuantumSlice(p, s.time, s.queues[k].maxBurstTime);
    if slice.finished {
      var done := Complete(slice.proc, slice.time);
      assert DispatchQuantum(s, k) == FinishFront(s, k, done, slice.time);
      FinishFrontHistory(s, k, done, slice.time);
    } else {
      assert DispatchQuantum(s, k) == DemoteFront(s, k, slice.proc, slice.time);
      assert x in s.queues[k].processes;
      assert Served(s.queues, k + 1) == Served(s.queues, k)
        + (if s.queues[k].maxBurstTime >= 1 then s.queues[k].maxBurstTime else 0);
      DemoteFrontHistory(s, k, slice.proc, slice.time);
    }
  }

  /** One iteration of `run` keeps the history. */
  lemma StepHistory(s: State)
    requires Inv(s) && DemotionHistory(s)
    ensures DemotionHistory(Step(s))
  {
    var s1 := CheckProcesses(s);
    CheckProcessesInv(s);
    CheckProcessesHistory(s);
    match HighestPriorityQueue(s1.queues)
    case None =>
    case Some(k) =>
      if s1.queues[k].last {
        DispatchLastHistory(s1, k);
      } else {
        DispatchQuantumHistory(s1, k);
      }
  }

  /** A sequence of states each of which keeps the invariant and is the iteration of the one
      before. */
  ghost predicate IsTrace(t: seq<State>) {
    && (forall i :: 0 <= i < |t| ==> Inv(t[i]))
    && (forall i, j {:trigger t[i], t[j]} :: 0 <= i < j < |t| && j == i + 1 ==>
          Inv(t[i]) && t[j] == Step(t[i]))
  }

  /** A trace starting at the iteration of s extends backwards to s. */
  lemma ConsTrace(s: State, rest: seq<State>)
    requires Inv(s) && IsTrace(rest) && |rest| >= 1 && rest[0] == Step(s)
    ensures IsTrace([s] + rest)
  {
    var t := [s] + rest;
    forall i | 0 <= i < |t|
      ensures Inv(t[i])
    {
      if i > 0 {
        assert t[i] == rest[i - 1];
      }
    }
    forall i, j | 0 <= i < j < |t| && j == i + 1
      ensures Inv(t[i]) && t[j] == Step(t[i])
    {
      assert t[j] == rest[j - 1];
      if i > 0 {
        assert t[i] == rest[i - 1];
      }
    }
  }

  /** Every state the `run` loop passes through, from s to the final state. */
  function Trace(s: State): (t: seq<State>)
    requires Inv(s)
    decreases Primary(s), Weight(s.queues)
    ensures |t| >= 1 && t[0] == s && IsTrace(t)
    ensures forall i :: 0 <= i < |t| ==> Evolves(s, t[i])
  {
    if |s.completed| == |s.procs| then
      EvolvesRefl(s);
      [s]
    else
      StepDecreases(s);
      var rest := Trace(Step(s));
      ConsTrace(s, rest);
      StepEvolves(s);
      ConsEvolves(s, Step(s), rest);
      [s] + rest
  }

  /** Prefixing a state to a sequence of its evolutions gives a sequence of evolutions of it. */
  lemma ConsEvolves(s: State, next: State, rest: seq<State>)
    requires Evolves(s, next)
    requires forall i :: 0 <= i < |rest| ==> Evolves(next, rest[i])
    ensures forall i :: 0 <= i < |rest| + 1 ==> Evolves(s, ([s] + rest)[i])
  {
    EvolvesRefl(s);
    forall i | 1 <= i < |rest| + 1
      ensures Evolves(s, ([s] + rest)[i])
    {
      assert ([s] + rest)[i] == rest[i - 1];
      EvolvesTrans(s, next, rest[i - 1]);
    }
  }

  /** The trace ends in the state `run` returns. */
  lemma {:induction false} TraceEndsInRun(s: State)
    requires Inv(s)
    decreases Primary(s), Weight(s.queues)
    ensures Trace(s)[|Trace(s)| - 1] == Run(s)
  {
    if |s.completed| != |s.procs| {
      var next := Step(s);
      assert Inv(next) && (Primary(next) < Primary(s)
        || (Primary(next) == Primary(s) && Weight(next.queues) < Weight(s.queues))) by {
        StepDecreases(s);
      }
      var t := Trace(next);
      assert Trace(s) == [s] + t;
      TraceEndsInRun(next);
      assert Run(s) == Run(next);
    }
  }

  /** The history of the first state of a trace holds in every state of it. */
  lemma {:induction false} TraceHistory(t: seq<State>, i: nat)
    requires IsTrace(t) && i < |t| && Inv(t[0]) && DemotionHistory(t[0])
    ensures Inv(t[i]) && DemotionHistory(t[i])
  {
    if i > 0 {
      TraceHistory(t, i - 1);
      assert t[i] == Step(t[i - 1]);
      StepHistory(t[i - 1]);
    }
  }

  /** A process whose burst fits in the first quantum is, in every state the loop passes
      through, never waiting in a later level: it completes on the first level. */
  lemma ShortProcessNeverDemoted(s: State, x: nat)
    requires Inv(s) && DemotionHistory(s)
    requires x < |s.procs| && s.procs[x].burstTime <= s.queues[0].maxBurstTime
    ensures forall i, k :: 0 <= i < |Trace(s)| && 1 <= k < |Trace(s)[i].queues| ==>
      x !in Trace(s)[i].queues[k].processes
  {
    var t := Trace(s);
    forall i | 0 <= i < |t|
      ensures forall k :: 1 <= k < |t[i].queues| ==> x !in t[i].queues[k].processes
    {
      var u := t[i];
      assert Inv(u) && DemotionHistory(u) by {
        TraceHistory(t, i);
      }
      assert x < |u.procs| && u.procs[x].burstTime <= u.queues[0].maxBurstTime by {
        assert Evolves(s, u);
      }
      ShortStaysOnTop(u, x);
    }
  }

  /** For a whole simulation: a workload entry whose burst is at most the first quantum is
      never waiting below the first level, from construction to the end of `run`. */
  lemma ShortJobNeverDemoted(workload: seq<(int, int)>, quanta: seq<int>, x: nat)
    requires |quanta| >= 1
    requires forall i :: 0 <= i < |workload| ==> workload[i].1 >= 1
    requires x < |workload| && workload[x].1 <= quanta[0]
    ensures Inv(Init(workload, quanta))
    ensures var t := Trace(Init(workload, quanta));
      forall i, k :: 0 <= i < |t| && 1 <= k < |t[i].queues| ==> x !in t[i].queues[k].processes
  {
    InitInv(workload, quanta);
    InitHistory(workload, quanta);
    ShortProcessNeverDemoted(Init(workload, quanta), x);
  }

  /** In every state the loop passes through, a process waits on level k only if its burst
      exceeds the service of the levels above k. */
  lemma LevelNeedsService(s: State, x: nat, k: nat)
    requires Inv(s) && DemotionHistory(s)
    requires x < |s.procs| && k < |s.queues|
    ensures forall i :: 0 <= i < |Trace(s)| && x in Trace(s)[i].queues[k].processes ==>
      s.procs[x].burstTime > Served(s.queues, k)
  {
    var t := Trace(s);
    forall i | 0 <= i < |t| && x in t[i].queues[k].processes
      ensures s.procs[x].burstTime > Served(s.queues, k)
    {
      var u := t[i];
      assert Inv(u) && DemotionHistory(u) by {
        TraceHistory(t, i);
      }
      assert Evolves(s, u);
      WaitingNeedsService(u, k, x);
      ServedDependsOnQuanta(u.queues, s.queues, k);
    }
  }

  /** For a whole simulation: a workload entry reaches level k only if its burst exceeds the
      non-negative parts of quanta 0 .. k-1 together. */
  lemma JobLevelNeedsService(workload: seq<(int, int)>, quanta: seq<int>, x: nat, k: nat)
    requires |quanta| >= 1
    requires forall i :: 0 <= i < |workload| ==> workload[i].1 >= 1
    requires x < |workload| && k < |quanta|
    ensures Inv(Init(workload, quanta))
    ensures var t := Trace(Init(workload, quanta));
      forall i :: 0 <= i < |t| && x in t[i].queues[k].processes ==>
        workload[x].1 > Served(InitQueues(quanta), k)
  {
    InitInv(workload, quanta);
    InitHistory(workload, quanta);
    LevelNeedsService(Init(workload, quanta), x, k);
  }
}
