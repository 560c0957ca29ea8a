/** The operations of class `MLFQ` (proje.py lines 56-141): construction, admission, level
    selection, the two kinds of dispatch, and one iteration of the `run` loop. */
module Scheduler {
  import opened Common
  import opened Processes
  import opened Queues
  import opened Execution
  import opened SchedulerState

  /** `init_processes`: one fresh record per workload pair, in workload order. */
  function InitProcesses(workload: seq<(int, int)>): (ps: seq<Process>)
    ensures |ps| == |workload|
    ensures forall i :: 0 <= i < |ps| ==>
      ps[i] == NewProcess(workload[i].0, workload[i].1)
  {
    if |workload| == 0 then []
    else
      var w := workload[|workload| - 1];
      InitProcesses(workload[..|workload| - 1]) + [NewProcess(w.0, w.1)]
  }

  /** `MLFQ(queues, processes)`: every process in the backlog in workload order, the levels
      built by `init_queues`, clock 0, nothing completed. */
  function Init(workload: seq<(int, int)>, quanta: seq<int>): (r: State)
    ensures |r.procs| == |workload| && r.backlog == Range(|r.procs|)
    ensures forall i :: 0 <= i < |workload| ==>
      && r.procs[i].arrivalTime == workload[i].0 && r.procs[i].burstTime == workload[i].1
      && r.procs[i].remainingTime == workload[i].1
      && !r.procs[i].isStarted && !r.procs[i].isCompleted
    ensures |r.queues| == |quanta|
    ensures forall k :: 0 <= k < |quanta| ==>
      r.queues[k].maxBurstTime == quanta[k] && r.queues[k].processes == []
    ensures r.time == 0 && r.completed == []
  {
    State(InitProcesses(workload), Range(|workload|), InitQueues(quanta), 0, [])
  }

  /** The admission test of `check_processes`: the backlog front has arrived. */
  predicate Admits(s: State)
    requires WellFormed(s)
  {
    |s.backlog| > 0 && (assert s.backlog[0] in s.backlog; s.time >= s.procs[s.backlog[0]].arrivalTime)
  }

  /** The state after admitting the backlog front into the first level. */
  function Admit(s: State): State
    requires WellFormed(s) && |s.backlog| > 0
  {
    s.(queues := s.queues[0 := AddProcess(s.queues[0], s.backlog[0])], backlog := s.backlog[1..])
  }

  /** Admission keeps the shape facts and only moves one identifier. */
  lemma AdmitFacts(s: State)
    requires WellFormed(s) && |s.backlog| > 0
    ensures WellFormed(Admit(s))
    ensures multiset(Admit(s).backlog) + QueuedIds(Admit(s).queues)
         == multiset(s.backlog) + QueuedIds(s.queues)
  {
    var x := s.backlog[0];
    var q0 := AddProcess(s.queues[0], x);
    var r := s.(queues := s.queues[0 := q0], backlog := s.backlog[1..]);
    assert r == Admit(s);
    QueuedIdsUpdate(s.queues, 0, q0);
    assert s.backlog == [x] + r.backlog;
    assert multiset(s.backlog) == multiset{x} + multiset(r.backlog);
    assert multiset(q0.processes) == multiset(s.queues[0].processes) + multiset{x};
    MultisetCancel(QueuedIds(r.queues), QueuedIds(s.queues) + multiset{x},
                   multiset(s.queues[0].processes));
    assert x in s.backlog;
    forall j: int, y: nat | 0 <= j < |r.queues| && y in r.queues[j].processes
      ensures y < |r.procs| && r.procs[y].remainingTime >= 1
    {
      assert y in s.queues[j].processes || y == x;
    }
    forall y: nat | y in r.backlog
      ensures y < |r.procs| && r.procs[y].remainingTime >= 1
    {
      assert y in s.backlog;
    }
    forall j | 0 <= j < |r.queues|
      ensures r.queues[j].last == s.queues[j].last && r.queues[j].next == s.queues[j].next
    {
    }
  }

  /** `check_processes`: moves at most one process, the backlog front, to the back of the
      first level, and only when it has arrived; otherwise nothing changes. */
  function CheckProcesses(s: State): (r: State)
    requires WellFormed(s)
    ensures WellFormed(r)
    ensures r == s <==> !Admits(s)
    ensures r.procs == s.procs && r.time == s.time && r.completed == s.completed
    ensures |r.queues| == |s.queues|
    ensures multiset(r.backlog) + QueuedIds(r.queues) == multiset(s.backlog) + QueuedIds(s.queues)
    ensures Admits(s) ==>
      && r.backlog == s.backlog[1..]
      && r.queues[0] == AddProcess(s.queues[0], s.backlog[0])
      && forall k :: 1 <= k < |r.queues| ==> r.queues[k] == s.queues[k]
  {
    if Admits(s) then
      AdmitFacts(s);
      assert |Admit(s).backlog| < |s.backlog|;
      Admit(s)
    else
      s
  }

  /** The lowest-indexed non-empty level at or after `from`, if any. */
  function FirstNonEmpty(qs: seq<Queue>, from: nat): (r: Option<nat>)
    requires from <= |qs|
    decreases |qs| - from
    ensures r.None? <==> forall k :: from <= k < |qs| ==> |qs[k].processes| == 0
    ensures r.Some? ==>
      && from <= r.value < |qs|
      && |qs[r.value].processes| > 0
      && forall k :: from <= k < r.value ==> |qs[k].processes| == 0
  {
    if from == |qs| then None
    else if |qs[from].processes| > 0 then Some(from)
    else FirstNonEmpty(qs, from + 1)
  }

  /** `get_highest_priority_queue`: the lowest-indexed non-empty level, or None exactly when
      every level is empty. */
  function HighestPriorityQueue(qs: seq<Queue>): (r: Option<nat>)
    ensures r.None? <==> forall k :: 0 <= k < |qs| ==> |qs[k].processes| == 0
    ensures r.Some? ==>
      && r.value < |qs|
      && |qs[r.value].processes| > 0
      && forall k :: 0 <= k < r.value ==> |qs[k].processes| == 0
  {
    FirstNonEmpty(qs, 0)
  }

  /** The last-level branch of `run` (lines 113-119): the front process runs until its
      remaining time is zero, ignoring the level's quantum; the clock advances by exactly the
      prior remaining time; the process is completed at the new time, removed from the front
      and appended to the completed list. Its start time is not touched. */
  function DispatchLast(s: State, k: nat): (r: State)
    requires WellFormed(s) && k < |s.queues| && s.queues[k].last
    requires |s.queues[k].processes| > 0
    ensures var x := Front(s, k);
      && r.time == s.time + s.procs[x].remainingTime
      && |r.procs| == |s.procs|
      && r.procs[x] == Complete(s.procs[x].(remainingTime := 0), r.time)
      && (forall i :: 0 <= i < |s.procs| && i != x ==> r.procs[i] == s.procs[i])
      && r.completed == s.completed + [x]
      && r.queues == s.queues[k := RemoveProcess(s.queues[k])]
      && r.backlog == s.backlog
  {
    var q := s.queues[k];
    var x := Front(s, k);
    var p := s.procs[x];
    var t := s.time + p.remainingTime;
    s.(procs := s.procs[x := Complete(p.(remainingTime := 0), t)],
       time := t,
       queues := s.queues[k := RemoveProcess(q)],
       completed := s.completed + [x])
  }

  /** The non-last branch of `run` (lines 121-139): the front process runs under the level's
      quantum q. With q >= 1 it runs min(q, remaining) units; the clock and its remaining time
      change by the same amount. If it finishes it is completed at the new time and appended
      to the completed list; otherwise it leaves the front of level k for the back of level
      k+1. There is no promotion. */
  function DispatchQuantum(s: State, k: nat): (r: State)
    requires WellFormed(s) && k < |s.queues| && !s.queues[k].last
    requires |s.queues[k].processes| > 0
    ensures k + 1 < |s.queues|
    ensures var x := Front(s, k);
      var p := s.procs[x];
      var q := s.queues[k].maxBurstTime;
      && |r.procs| == |s.procs|
      && (forall i :: 0 <= i < |s.procs| && i != x ==> r.procs[i] == s.procs[i])
      && r.time - s.time == p.remainingTime - r.procs[x].remainingTime
      && (q >= 1 ==> r.time == s.time + Min(q, p.remainingTime))
      && (q <= 0 ==> r.time == s.time && r.procs[x] == p)
      && r.backlog == s.backlog
      && (p.remainingTime <= q ==>
            && r.procs[x] == Complete(QuantumSlice(p, s.time, q).proc, r.time)
            && r.completed == s.completed + [x]
            && r.queues == s.queues[k := RemoveProcess(s.queues[k])])
      && (p.remainingTime > q ==>
            && r.procs[x] == QuantumSlice(p, s.time, q).proc
            && r.completed == s.completed
            && r.queues == s.queues[k + 1 := AddProcess(s.queues[k + 1], x)]
                                   [k := RemoveProcess(s.queues[k])])
  {
    var q := s.queues[k];
    var x := Front(s, k);
    var slice := QuantumSlice(s.procs[x], s.time, q.maxBurstTime);
    if slice.finished then
      s.(procs := s.procs[x := Complete(slice.proc, slice.time)],
         time := slice.time,
         queues := s.queues[k := RemoveProcess(q)],
         completed := s.completed + [x])
    else
      var nextLevel := q.next.value;
      var demoted := s.queues[nextLevel := AddProcess(s.queues[nextLevel], x)];
      s.(procs := s.procs[x := slice.proc],
         time := slice.time,
         queues := demoted[k := RemoveProcess(demoted[k])])
  }

  /** One iteration of the `while` loop of `run` (lines 108-141): admission, then dispatch
      from the highest-priority non-empty level, or one idle tick when all levels are empty. */
  function Step(s: State): (r: State)
    requires Inv(s)
    ensures |r.procs| == |s.procs| && |r.queues| == |s.queues|
    ensures r.time >= s.time
    ensures s.completed <= r.completed && |r.completed| <= |s.completed| + 1
  {
    var s1 := CheckProcesses(s);
    match HighestPriorityQueue(s1.queues)
    case None => s1.(time := s1.time + 1)
    case Some(k) =>
      if s1.queues[k].last then DispatchLast(s1, k) else DispatchQuantum(s1, k)
  }
}
