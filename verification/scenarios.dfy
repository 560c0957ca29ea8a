/** A small workload worked through iteration by iteration. Each iteration is stated as an
    equation between concrete states; the last iteration, which runs process 0 to completion on
    level 1 at clock 8, is not stated here. */
module Scenarios {
  import opened Common
  import opened Processes
  import opened Queues
  import opened SchedulerState
  import opened Scheduler
  import opened SchedulerProofs

  /** Two processes, (arrival 0, burst 5) and (arrival 1, burst 3), on levels with quanta 4
      and 8. */
  const TwoWorkload: seq<(int, int)> := [(0, 5), (1, 3)]
  const TwoQuanta: seq<int> := [4, 8]

  const Level0Empty := Queue(4, [], Some(1), true, false)
  const Level1Empty := Queue(8, [], None, true, true)

  /** Process 0 after four units on level 0; process 1 after finishing on level 0 at clock 7. */
  const P0Demoted := Process(0, 5, 1, 0, 0, 0, 0, false, true)
  const P1Done := Process(1, 3, 0, 4, 7, 3, 6, true, true)

  const Two0 := State([NewProcess(0, 5), NewProcess(1, 3)], [0, 1], [Level0Empty, Level1Empty], 0, [])
  const Two1 := State([P0Demoted, NewProcess(1, 3)], [1], [Level0Empty, Level1Empty.(processes := [0], isCompleted := false)], 4, [])
  const Two2 := State([P0Demoted, P1Done], [], [Level0Empty, Level1Empty.(processes := [0], isCompleted := false)], 7, [1])

  lemma TwoInit()
    ensures Init(TwoWorkload, TwoQuanta) == Two0
    ensures Inv(Two0)
  {
    InitInv(TwoWorkload, TwoQuanta);
    var qs := InitQueues(TwoQuanta);
    assert qs[0] == Level0Empty && qs[1] == Level1Empty;
    assert Range(2) == [0, 1];
    assert InitProcesses(TwoWorkload) == [NewProcess(0, 5), NewProcess(1, 3)];
  }

  /** Process 0 is admitted and runs four units on level 0, then moves to level 1. */
  lemma TwoStep0()
    ensures Inv(Two0) && Step(Two0) == Two1
    ensures Inv(Two1)
  {
    TwoInit();
    FirstIteration();
    StepInv(Two0);
  }

  lemma FirstIteration()
    requires Inv(Two0)
    ensures Step(Two0) == Two1
  {
    var s1 := CheckProcesses(Two0);
    assert Admits(Two0);
    assert AddProcess(Level0Empty, 0) == Level0Empty.(processes := [0], isCompleted := false);
    assert s1 == Two0.(backlog := [1], queues := [Level0Empty.(processes := [0], isCompleted := false), Level1Empty]);
    assert HighestPriorityQueue(s1.queues) == Some(0);
    assert Execution.QuantumSlice(NewProcess(0, 5), 0, 4) == Execution.Slice(P0Demoted, 4, false);
  }

  /** Process 1 is admitted at clock 4 and finishes on level 0 at clock 7. */
  lemma TwoStep1()
    ensures Inv(Two1) && Step(Two1) == Two2
  {
    TwoStep0();
    SecondIteration();
  }

  lemma SecondIteration()
    requires Inv(Two1)
    ensures Step(Two1) == Two2
  {
  }
}

/** A single process on a single level: one iteration completes it, after which `run` stops. */
module SingleScenario {
  import opened Common
  import opened Processes
  import opened Queues
  import opened SchedulerState
  import opened Scheduler
  import opened SchedulerProofs

  /** A single process (arrival 0, burst 1) on a single level with quantum 4. The only level
      is the last one, so the process runs to completion there and its start time is never
      set. */
  const OneWorkload: seq<(int, int)> := [(0, 1)]
  const OneQuanta: seq<int> := [4]

  const OnlyLevel := Queue(4, [], None, true, true)
  const One0 := State([NewProcess(0, 1)], [0], [OnlyLevel], 0, [])
  const OnlyLevelHolding := Queue(4, [0], None, false, true)
  const One0Admitted := State([NewProcess(0, 1)], [], [OnlyLevelHolding], 0, [])

  lemma OneInit()
    ensures Init(OneWorkload, OneQuanta) == One0
    ensures Inv(One0)
  {
    InitInv(OneWorkload, OneQuanta);
    assert InitQueues(OneQuanta)[0] == OnlyLevel;
    assert Range(1) == [0];
    assert InitProcesses(OneWorkload) == [NewProcess(0, 1)];
  }

  /** The only iteration admits the process and dispatches it on the last level. */
  lemma OneStep()
    ensures Inv(One0) && WellFormed(One0Admitted)
    ensures Step(One0) == DispatchLast(One0Admitted, 0)
  {
    OneInit();
    OnlyAdmission();
  }

  /** The record `complete` leaves for the process: end time 1, turnaround 1 and waiting time 0,
      with start time 0 and `is_started` never set. */
  lemma OneMetrics()
    ensures var p := Complete(NewProcess(0, 1).(remainingTime := 0), 1);
      && p.endTime == 1 && p.turnaroundTime == 1 && p.waitingTime == 0
      && p.startTime == 0 && !p.isStarted && p.remainingTime == 0
  {
  }

  /** At clock 0 the process has arrived and is admitted to the only level. */
  lemma OnlyAdmission()
    requires Inv(One0)
    ensures CheckProcesses(One0) == One0Admitted && WellFormed(One0Admitted)
    ensures HighestPriorityQueue(One0Admitted.queues) == Some(0)
  {
    assert Admits(One0);
    assert AddProcess(OnlyLevel, 0) == OnlyLevelHolding;
  }

  /** The last-level dispatch runs the process to completion at clock 1. */
  lemma OnlyDispatch()
    requires WellFormed(One0Admitted)
    ensures |DispatchLast(One0Admitted, 0).procs| == 1
    ensures DispatchLast(One0Admitted, 0).procs[0] == Complete(NewProcess(0, 1).(remainingTime := 0), 1)
  {
    assert Front(One0Admitted, 0) == 0;
  }

  /** The clock advances by the one unit of work. */
  lemma OnlyDispatchClock()
    requires WellFormed(One0Admitted)
    ensures DispatchLast(One0Admitted, 0).time == 1
  {
    assert Front(One0Admitted, 0) == 0;
  }

  /** The process is the one completed. */
  lemma OnlyDispatchCompleted()
    requires WellFormed(One0Admitted)
    ensures DispatchLast(One0Admitted, 0).completed == [0]
  {
    assert Front(One0Admitted, 0) == 0;
  }
}

/** A process whose burst exceeds every quantum need not reach the lowest level: with quanta
    4, 5 and 6, a burst of 7 runs 4 units on the first level and finishes its last 3 on the
    second, so it never waits on the third. */
module DeepScenario {
  import opened Queues
  import opened Scheduler
  import opened SchedulerDemotion

  const DeepQuanta: seq<int> := [4, 5, 6]

  /** The first two levels together grant 9 units, more than the burst of 7. */
  lemma DeepService()
    ensures Served(InitQueues(DeepQuanta), 2) == 9
  {
    var qs := InitQueues(DeepQuanta);
    assert qs[0].maxBurstTime == 4 && qs[1].maxBurstTime == 5;
    assert Served(qs, 1) == 4;
  }

  /** Whatever its arrival time, a single process with burst 7 waits on the third level in no
      state of the run. */
  lemma NeverReachesLowestLevel(arrival: int)
    ensures SchedulerState.Inv(Init([(arrival, 7)], DeepQuanta))
    ensures var t := SchedulerDemotion.Trace(Init([(arrival, 7)], DeepQuanta));
      forall i :: 0 <= i < |t| ==> 0 !in t[i].queues[2].processes
  {
    JobLevelNeedsService([(arrival, 7)], DeepQuanta, 0, 2);
    DeepService();
  }
}
