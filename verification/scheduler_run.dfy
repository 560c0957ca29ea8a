/** The `run` loop of `MLFQ` (proje.py lines 100-141) as a recursive function over `Step`,
    with a termination measure, and the whole-simulation entry point. */
module SchedulerRun {
  import opened Common
  import opened Processes
  import opened Queues
  import opened Execution
  import opened SchedulerState
  import opened Scheduler
  import opened SchedulerProofs

  /** Total work left in the arena. */
  function SumRemaining(ps: seq<Process>): int {
    if |ps| == 0 then 0 else ps[0].remainingTime + SumRemaining(ps[1..])
  }

  lemma {:induction false} SumRemainingNonNegative(ps: seq<Process>)
    requires forall i :: 0 <= i < |ps| ==> ps[i].remainingTime >= 0
    ensures SumRemaining(ps) >= 0
  {
    if |ps| > 0 {
      SumRemainingNonNegative(ps[1..]);
    }
  }

  /** Replacing one record changes the total work by the change of that record's work. */
  lemma {:induction false} SumRemainingUpdate(ps: seq<Process>, i: nat, p: Process)
    requires i < |ps|
    ensures SumRemaining(ps[i := p]) == SumRemaining(ps) - ps[i].remainingTime + p.remainingTime
  {
    if i == 0 {
      assert ps[i := p][1..] == ps[1..];
    } else {
      assert ps[i := p][1..] == ps[1..][i - 1 := p];
      SumRemainingUpdate(ps[1..], i - 1, p);
    }
  }

  /** The latest arrival time in the arena, 0 for an empty arena. */
  function MaxArrival(ps: seq<Process>): (m: int)
    ensures forall i :: 0 <= i < |ps| ==> ps[i].arrivalTime <= m
  {
    if |ps| == 0 then 0
    else
      var rest := MaxArrival(ps[1..]);
      assert forall i :: 1 <= i < |ps| ==> ps[i] == ps[1..][i - 1];
      if ps[0].arrivalTime > rest then ps[0].arrivalTime else rest
  }

  lemma {:induction false} MaxArrivalSame(ps: seq<Process>, qs: seq<Process>)
    requires |ps| == |qs|
    requires forall i :: 0 <= i < |ps| ==> ps[i].arrivalTime == qs[i].arrivalTime
    ensures MaxArrival(ps) == MaxArrival(qs)
  {
    if |ps| > 0 {
      MaxArrivalSame(ps[1..], qs[1..]);
    }
  }

  /** How long the clock may still have to tick before the last arrival. */
  function Gap(s: State): nat {
    if MaxArrival(s.procs) > s.time then MaxArrival(s.procs) - s.time else 0
  }

  /** The first component of the termination measure: work left, processes not yet admitted,
      and idle ticks left before the last arrival. */
  function Primary(s: State): nat
    requires ArenaOk(s)
  {
    SumRemainingNonNegative(s.procs);
    SumRemaining(s.procs) + |s.backlog| + Gap(s)
  }

  /** The second component: each waiting process counts the levels below its own. It drops
      when a zero quantum only demotes a process. */
  function Weight(qs: seq<Queue>): nat {
    if |qs| == 0 then 0 else |qs[0].processes| * (|qs| - 1) + Weight(qs[1..])
  }

  /** Replacing one level by one with a single extra process raises the weight by that
      level's rank from the bottom. */
  lemma {:induction false} WeightGrow(qs: seq<Queue>, k: nat, v: Queue)
    requires k < |qs| && |v.processes| == |qs[k].processes| + 1
    ensures Weight(qs[k := v]) == Weight(qs) + (|qs| - 1 - k)
  {
    var r := qs[k := v];
    if k == 0 {
      assert r[1..] == qs[1..];
      MulSucc(|qs[0].processes|, |qs| - 1);
    } else {
      assert r[1..] == qs[1..][k - 1 := v];
      WeightGrow(qs[1..], k - 1, v);
    }
  }

  /** Replacing one level by one with a single process fewer lowers the weight by that
      level's rank from the bottom. */
  lemma {:induction false} WeightShrink(qs: seq<Queue>, k: nat, v: Queue)
    requires k < |qs| && |v.processes| + 1 == |qs[k].processes|
    ensures Weight(qs[k := v]) + (|qs| - 1 - k) == Weight(qs)
  {
    var r := qs[k := v];
    if k == 0 {
      assert r[1..] == qs[1..];
      MulSucc(|v.processes|, |qs| - 1);
    } else {
      assert r[1..] == qs[1..][k - 1 := v];
      WeightShrink(qs[1..], k - 1, v);
    }
  }

  lemma MulSucc(a: int, m: int)
    ensures (a + 1) * m == a * m + m
  {
  }

  /** Moving the front of level k to the back of level k+1 lowers the weight by one. */
  lemma DemoteWeight(qs: seq<Queue>, k: nat, x: nat)
    requires k + 1 < |qs| && |qs[k].processes| > 0
    ensures Weight(qs[k + 1 := AddProcess(qs[k + 1], x)][k := RemoveProcess(qs[k])])
         == Weight(qs) - 1
  {
    var added := qs[k + 1 := AddProcess(qs[k + 1], x)];
    WeightGrow(qs, k + 1, AddProcess(qs[k + 1], x));
    WeightShrink(added, k, RemoveProcess(qs[k]));
  }

  /** Counting: when every level is empty and not everything is completed, the backlog is
      not empty. */
  lemma BacklogWhenIdle(s: State)
    requires Inv(s) && |s.completed| < |s.procs|
    requires forall k :: 0 <= k < |s.queues| ==> |s.queues[k].processes| == 0
    ensures |s.backlog| > 0
  {
    QueuedIdsEmpty(s.queues);
    assert |multiset(Range(|s.procs|))| == |s.procs|;
  }

  /** The relation between a state and any later state of `run`: the same processes with the
      same inputs, a clock that never goes back, work that never grows, a start time that is
      set at most once, completed records that never change, a completed list that only
      grows at the end, and the same levels with the same quanta. */
  predicate Evolves(s: State, r: State) {
    && |r.procs| == |s.procs|
    && |r.queues| == |s.queues|
    && (forall k :: 0 <= k < |s.queues| ==> r.queues[k].maxBurstTime == s.queues[k].maxBurstTime)
    && r.time >= s.time
    && |s.completed| <= |r.completed|
    && r.completed[..|s.completed|] == s.completed
    && forall i :: 0 <= i < |s.procs| ==>
      && r.procs[i].arrivalTime == s.procs[i].arrivalTime
      && r.procs[i].burstTime == s.procs[i].burstTime
      && r.procs[i].remainingTime <= s.procs[i].remainingTime
      && (s.procs[i].isStarted ==> r.procs[i].isStarted && r.procs[i].startTime == s.procs[i].startTime)
      && (s.procs[i].isCompleted ==> r.procs[i] == s.procs[i])
  }

  lemma EvolvesRefl(s: State)
    ensures Evolves(s, s)
  {
    assert s.completed[..|s.completed|] == s.completed;
  }

  lemma EvolvesTrans(s: State, m: State, r: State)
    requires Evolves(s, m) && Evolves(m, r)
    ensures Evolves(s, r)
  {
    assert r.completed[..|s.completed|] == r.completed[..|m.completed|][..|s.completed|];
  }

  /** Replacing the record of one not yet completed process by a later version of it, and
      appending at most that process to the completed list, is an evolution. */
  lemma UpdateEvolves(s: State, r: State, x: nat)
    requires x < |s.procs| && !s.procs[x].isCompleted
    requires |r.procs| == |s.procs| && r.procs == s.procs[x := r.procs[x]] && r.time >= s.time
    requires r.completed == s.completed || r.completed == s.completed + [x]
    requires |r.queues| == |s.queues|
    requires forall k :: 0 <= k < |s.queues| ==> r.queues[k].maxBurstTime == s.queues[k].maxBurstTime
    requires r.procs[x].arrivalTime == s.procs[x].arrivalTime
    requires r.procs[x].burstTime == s.procs[x].burstTime
    requires r.procs[x].remainingTime <= s.procs[x].remainingTime
    requires s.procs[x].isStarted ==>
      r.procs[x].isStarted && r.procs[x].startTime == s.procs[x].startTime
    ensures Evolves(s, r)
  {
    assert r.completed[..|s.completed|] == s.completed;
  }

  /** The dispatch of the front of level k is an evolution that completes at most that
      process, and a process it starts is started at the instant its first unit ran. */
  lemma DispatchEvolves(s: State, k: nat)
    requires Inv(s) && k < |s.queues| && |s.queues[k].processes| > 0
    ensures var r := if s.queues[k].last then DispatchLast(s, k) else DispatchQuantum(s, k);
      && Evolves(s, r)
      && |r.completed| <= |s.completed| + 1
      && forall i :: 0 <= i < |s.procs| && !s.procs[i].isStarted && r.procs[i].isStarted ==>
           r.procs[i].startTime == r.time - (s.procs[i].remainingTime - r.procs[i].remainingTime)
  {
    var x := Front(s, k);
    assert !s.procs[x].isCompleted by {
      assert x in s.queues[k].processes;
    }
    if s.queues[k].last {
      UpdateEvolves(s, DispatchLast(s, k), x);
    } else {
      var r := DispatchQuantum(s, k);
      SliceOutcome(s.procs[x], s.time, s.queues[k].maxBurstTime);
      UpdateEvolves(s, r, x);
    }
  }

  /** One iteration changes the state only in the ways `run` allows: at most one process is
      dispatched and completed, and a process that had not started is started at the instant
      its first unit ran or not at all. */
  lemma StepEvolves(s: State)
    requires Inv(s)
    ensures Evolves(s, Step(s))
    ensures |Step(s).completed| <= |s.completed| + 1
    ensures forall i :: 0 <= i < |s.procs| && !s.procs[i].isStarted && Step(s).procs[i].isStarted ==>
      Step(s).procs[i].startTime == Step(s).time - (s.procs[i].remainingTime - Step(s).procs[i].remainingTime)
  {
    var s1 := CheckProcesses(s);
    CheckProcessesInv(s);
    assert Evolves(s, s1) by {
      AdmitEvolves(s);
    }
    match HighestPriorityQueue(s1.queues)
    case None =>
    case Some(k) =>
      var r := Step(s);
      assert Evolves(s1, r) by {
        DispatchEvolves(s1, k);
      }
      EvolvesTrans(s, s1, r);
      DispatchEvolves(s1, k);
  }

  /** Admission changes no record, the clock, the completed list or any quantum. */
  lemma AdmitEvolves(s: State)
    requires WellFormed(s)
    ensures Evolves(s, CheckProcesses(s))
  {
    var r := CheckProcesses(s);
    EvolvesRefl(s);
    if Admits(s) {
      forall k | 0 <= k < |s.queues|
        ensures r.queues[k].maxBurstTime == s.queues[k].maxBurstTime
      {
      }
    }
  }

  /** An idle iteration (every level empty after admission) only advances the clock by one. */
  lemma IdleOnlyTicks(s: State)
    requires Inv(s)
    requires HighestPriorityQueue(CheckProcesses(s).queues).None?
    ensures !Admits(s)
    ensures Step(s) == s.(time := s.time + 1)
  {
    var s1 := CheckProcesses(s);
    assert |s1.queues[0].processes| == 0;
  }

  /** Admission trades one backlog entry for one waiting entry: the first measure component
      drops by one exactly when a process is admitted. */
  lemma AdmitMeasure(s: State)
    requires Inv(s)
    ensures ArenaOk(CheckProcesses(s))
    ensures Primary(CheckProcesses(s)) + (if Admits(s) then 1 else 0) == Primary(s)
  {
    CheckProcessesInv(s);
  }

  /** A dispatch never raises the first measure component, and lowers it unless a quantum of
      zero or less only demotes the process, which lowers the second. */
  lemma DispatchMeasure(s: State, k: nat)
    requires Inv(s) && k < |s.queues| && |s.queues[k].processes| > 0
    ensures var r := if s.queues[k].last then DispatchLast(s, k) else DispatchQuantum(s, k);
      && ArenaOk(r)
      && Primary(r) <= Primary(s)
      && (Primary(r) < Primary(s) || Weight(r.queues) < Weight(s.queues))
  {
    var r := if s.queues[k].last then DispatchLast(s, k) else DispatchQuantum(s, k);
    assert ArenaOk(r) by {
      if s.queues[k].last {
        DispatchLastInv(s, k);
      } else {
        DispatchQuantumInv(s, k);
      }
    }
    assert Gap(r) <= Gap(s) by {
      DispatchEvolves(s, k);
      MaxArrivalSame(s.procs, r.procs);
    }
    var x := Front(s, k);
    var q := s.queues[k];
    if q.last || q.maxBurstTime >= 1 {
      assert r.procs == s.procs[x := r.procs[x]];
      assert r.procs[x].remainingTime < s.procs[x].remainingTime;
      SumRemainingUpdate(s.procs, x, r.procs[x]);
    } else {
      assert r.procs == s.procs && r.time == s.time;
      DemoteWeight(s.queues, k, x);
    }
  }

  /** An idle iteration with work outstanding happens before the last arrival, so the tick
      lowers the first measure component. */
  lemma IdleMeasure(s: State)
    requires Inv(s) && |s.completed| != |s.procs|
    requires HighestPriorityQueue(CheckProcesses(s).queues).None?
    ensures Primary(Step(s)) < Primary(s)
  {
    IdleOnlyTicks(s);
    assert |multiset(s.completed)| <= |multiset(Range(|s.procs|))|;
    BacklogWhenIdle(s);
    assert s.backlog[0] in s.backlog;
    assert s.time < MaxArrival(s.procs);
  }

  /** The measure `(Primary, Weight)` decreases lexicographically on every iteration that
      `run`'s loop condition lets happen. */
  lemma StepDecreases(s: State)
    requires Inv(s) && |s.completed| != |s.procs|
    ensures Inv(Step(s))
    ensures Primary(Step(s)) < Primary(s)
         || (Primary(Step(s)) == Primary(s) && Weight(Step(s).queues) < Weight(s.queues))
  {
    StepInv(s);
    var s1 := CheckProcesses(s);
    CheckProcessesInv(s);
    AdmitMeasure(s);
    match HighestPriorityQueue(s1.queues)
    case None =>
      IdleMeasure(s);
    case Some(k) =>
      DispatchMeasure(s1, k);
  }

  /** The `run` loop: iterate until every process is completed. */
  function Run(s: State): (r: State)
    requires Inv(s)
    decreases Primary(s), Weight(s.queues)
    ensures Inv(r) && Evolves(s, r)
    ensures |r.completed| == |r.procs|
    ensures |s.completed| == |s.procs| ==> r == s
  {
    if |s.completed| == |s.procs| then s
    else
      StepDecreases(s);
      StepEvolves(s);
      var r := Run(Step(s));
      EvolvesTrans(s, Step(s), r);
      r
  }

  /** At the end of `run` every process is completed exactly once, nothing is waiting and
      every record holds the metrics of `complete`. */
  lemma {:induction false} RunCompletes(s: State)
    requires Inv(s)
    ensures var r := Run(s);
      && r.backlog == []
      && (forall k :: 0 <= k < |r.queues| ==> r.queues[k].processes == [])
      && multiset(r.completed) == multiset(Range(|s.procs|))
      && forall i :: 0 <= i < |s.procs| ==> Finished(r.procs[i], r.time)
  {
    var r := Run(s);
    var n := |r.procs|;
    assert |multiset(Range(n))| == n;
    assert |multiset(r.backlog)| == 0 && |QueuedIds(r.queues)| == 0;
    forall k | 0 <= k < |r.queues|
      ensures r.queues[k].processes == []
    {
      if |r.queues[k].processes| > 0 {
        QueuedIdsMember(r.queues, k, r.queues[k].processes[0]);
      }
    }
    forall i | 0 <= i < n
      ensures Finished(r.procs[i], r.time)
    {
      var j: nat := i;
      RangeCount(n, j);
      assert j in multiset(r.completed);
    }
  }

  /** Why a simulation cannot start. */
  datatype SimError = NoQueues

  /** `MLFQ(quanta, workload).run()`: with no level at all the source fails at line 101;
      otherwise the loop runs to the end. */
  function Simulate(workload: seq<(int, int)>, quanta: seq<int>): (r: Result<State, SimError>)
    requires forall i :: 0 <= i < |workload| ==> workload[i].1 >= 1
    ensures r.Err? <==> |quanta| == 0
    ensures r.Ok? ==>
      && |r.value.procs| == |workload|
      && |r.value.completed| == |workload|
      && forall i :: 0 <= i < |workload| ==>
        && r.value.procs[i].arrivalTime == workload[i].0
        && r.value.procs[i].burstTime == workload[i].1
        && Finished(r.value.procs[i], r.value.time)
  {
    if |quanta| == 0 then Err(NoQueues)
    else
      InitInv(workload, quanta);
      RunCompletes(Init(workload, quanta));
      Ok(Run(Init(workload, quanta)))
  }
}
