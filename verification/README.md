# MLFQ scheduler model

A Dafny model of the multilevel feedback queue (MLFQ) simulator in `proje.py`: the `Process`
record, the `Queue` priority level, and the `MLFQ` engine with its constructor, admission
check (`check_processes`), level selection (`get_highest_priority_queue`) and the `run` loop
with its two kinds of dispatch. The loop's last level runs its front process to completion.
Every other level runs its front process for at most one quantum and demotes it to the next
level if it has not finished. The virtual clock advances one unit per executed unit of work,
and by one unit per idle iteration.

The model is functional. A scheduler state (`SchedulerState.State`) holds:

- an arena of process records indexed by the workload position, which is the source's `name`;
- the backlog of identifiers not yet admitted, which is the source's `MLFQ.processes`;
- the levels, each holding identifiers; `next_queue` is the index of the next level;
- the clock;
- the completed list.

One iteration of `run` is `Scheduler.Step`. The whole loop is `SchedulerRun.Run`, a recursive
function whose termination is proved with a lexicographic measure. The first component is the
work left, plus the backlog length, plus the idle ticks left before the last arrival. The
second component is the weight of the levels, which only a quantum of zero or less can leave
as the sole decrease. The two inner `while` loops of `run` are also written as methods that
step one unit at a time (`Execution.QuantumLoop`, `Execution.LastLevelLoop`). They are proved
equal to the closed forms that `Step` uses.

The invariant `SchedulerState.Inv` says the following holds between iterations:

- every process is in exactly one place: the backlog, one level, or the completed list;
- backlog records are untouched since construction;
- waiting records are consistent with the clock;
- completed records carry the metrics that `complete` establishes, with a non-negative
  waiting time;
- every level's `is_completed` flag matches its emptiness.

A second invariant, `SchedulerDemotion.DemotionHistory`, records why a process is where it is.
Every process waiting on the first level has a record untouched since construction. Every
process waiting on level k has executed exactly `Served(k)` units and still has work left.
`Served(k)` is the sum of the quanta of levels 0 to k-1, where a non-positive quantum counts as
0. Both facts are preserved by every iteration. So a process reaches level k only when its
burst exceeds `Served(k)`. In particular, a process whose burst fits in the first quantum
finishes on the first level and is never demoted.
`SchedulerDemotion.Trace` lists every state the loop passes through, which is how that
statement covers the whole run.

Where the scheduler's evident intent and its code differ, the model follows the code:

- On the last level the source never sets `is_started`/`start_time`. A process dispatched
  first on the last level (for instance when there is a single level) keeps start time 0,
  even when it arrived later. `SchedulerState.Finished` states start-time facts only for
  started processes.
- A process whose burst exceeds every quantum need not reach the lowest level, and it may
  finish on any level. Take workload [(0,7)] with quanta [4,5,6]. The process runs 4 units on
  level 0 and is demoted at clock 4 with 3 units left. Level 1 (quantum 5) then runs those 3
  units and completes it at clock 7 (lines 123-134), so it never waits on level 2.
  `DeepScenario.NeverReachesLowestLevel` proves that such a process never waits on level 2,
  whatever its arrival time. What does hold is the bound through
  `Served` above: a process reaches level k only when its burst exceeds `Served(k)`.
- `init_queues` makes one level per quantum, and the last level ignores its quantum. So
  quanta `[4, 8]` give two levels, and level 1 runs to completion.
- The source performs no input validation. A non-positive quantum on a non-last level is
  modelled as the source runs it: the loop body never executes and the process is demoted.
  Unsorted arrivals are also modelled as the source runs them: only the backlog front is ever
  checked.
- `complete` does not check that the remaining time is zero (`Processes.Complete` does not
  either). The invariant shows that every call in the loop happens at remaining time zero.
- Admission is batched as in the source: at most one process per iteration, and none during
  a dispatch.

## Model

| member | source | states |
|---|---|---|
| Processes.Complete | proje.py:21-25 | completion stamps `end_time = t`, turnaround = end − arrival, waiting = turnaround − burst, sets the completed flag and changes no other field |
| Queues.AddProcess | proje.py:38-40 | the identifier is appended at the back, the level becomes non-empty and valid, quantum/link/last flag unchanged |
| Queues.RemoveProcess | proje.py:42-45 | drops exactly the front; `is_completed` is set when the level becomes empty and otherwise left as it was, so a valid level stays valid; no other field changes |
| Queues.FifoOrder | proje.py:38-48 | adding xs to a level then taking fronts until it is empty yields the old contents followed by xs in order |
| Queues.AddQueue | proje.py:71-79 | the new level is appended and marked last; the previous last level loses its last flag and links to it; a chained hierarchy stays chained |
| Queues.InitQueues | proje.py:66-69 | one empty valid level per quantum, in order, with exactly the final one last and each other linked to its successor |
| Processes.NewProcess | proje.py:8-19 | a new record has the given arrival and burst, all of its work left, is neither started nor completed, and has every time field 0 |
| Queues.NewQueue | proje.py:28-36 | a new level has the given quantum, is empty and flagged completed, is not last and has no next level |
| Queues.GetProcess | proje.py:47-48 | the process handed out is the front, a member of the level, and exactly the one `remove_process` drops |
| Execution.MarkStarted | proje.py:124-126 | afterwards the process is started; its start time is the given instant iff it was not started before; no other field changes |
| Execution.MarkStartedOnce | proje.py:124-126 | marking twice is marking once, and two markings agree on the start time iff the process was already started or the instants are equal |
| Scheduler.Init | proje.py:57-62 | construction keeps each workload pair's arrival and burst with all work left and nothing started, puts every identifier in the backlog in workload order, builds one empty level per quantum, and starts at clock 0 with nothing completed |
| Scheduler.Step | proje.py:108-141 | one iteration keeps the number of records and levels, never moves the clock back, and only extends the completed list, by at most one |
| Scheduler.InitProcesses | proje.py:81-85 | one fresh record per workload pair, in workload order |
| SchedulerState.Front | proje.py:47-48 | the front of a non-empty level is its first identifier, names a record, and that record has work left |
| Scheduler.CheckProcesses | proje.py:87-91 | the state changes iff the backlog front has arrived; then exactly that one identifier moves from the backlog front to level 0, which becomes `add_process` of it, and nothing else changes |
| Scheduler.HighestPriorityQueue | proje.py:93-98 | returns the lowest-indexed non-empty level, and None exactly when every level is empty |
| Execution.QuantumSlice | proje.py:123-136 | with quantum q ≥ 1 the process runs min(q, remaining) units and clock and remaining time move by the same amount; it finishes iff 1 ≤ remaining ≤ q; start time is set to the dispatch instant only if not started before; q ≤ 0 changes nothing |
| Execution.QuantumLoop | proje.py:122-136 | executing the quantum loop one unit at a time, with its early exit when remaining time reaches 0, computes exactly the closed form |
| Execution.LastLevelLoop | proje.py:114-117 | the run-to-completion loop ends with remaining time 0 after exactly the prior remaining time, touching no other field |
| Scheduler.DispatchLast | proje.py:113-119 | the front of the last level runs to completion; the clock advances by its prior remaining time; it is completed at the new clock, removed from the front and appended to the completed list; other records and the backlog are unchanged |
| Scheduler.DispatchQuantum | proje.py:121-139 | the front of a non-last level runs min(q, remaining) units; if it finishes it is completed and appended to the completed list, otherwise it moves from the front of level k to the back of level k+1 (no promotion); other records unchanged |
| SchedulerProofs.LastLevelFinishes | proje.py:113-119 | a waiting process run to completion on the last level ends with consistent, non-negative-waiting metrics |
| SchedulerProofs.SliceOutcome | proje.py:122-139 | a quantum dispatch leaves the process either finished with consistent metrics or still waiting, consistent with the new clock |
| SchedulerProofs.FrontUnique | proje.py:104-139 | the front of a level is in no other level, not further back in its own level, not in the backlog and not completed |
| SchedulerProofs.InitInv | proje.py:57-62 | the constructed scheduler satisfies the invariant when there is a level and every burst is positive |
| SchedulerProofs.CheckProcessesInv | proje.py:87-91 | admission preserves the invariant |
| SchedulerProofs.DispatchLastInv | proje.py:113-119 | the last-level dispatch preserves the invariant |
| SchedulerProofs.DispatchQuantumInv | proje.py:121-139 | the quantum dispatch preserves the invariant, both when the process finishes and when it is demoted |
| SchedulerProofs.StepInv | proje.py:108-141 | one iteration of the loop preserves the invariant: every process stays in exactly one place |
| SchedulerRun.StepEvolves | proje.py:108-141 | one iteration keeps arrivals, bursts, the number of levels and every quantum; the clock never decreases; remaining times never increase; a start time, once set, never changes; completed records never change; the completed list grows by at most one at its end |
| SchedulerRun.IdleOnlyTicks | proje.py:140-141 | when every level is empty after admission, nothing was admitted and the iteration only advances the clock by one |
| SchedulerRun.StepDecreases | proje.py:104-141 | while not every process is completed, each iteration strictly decreases the measure, so the loop terminates |
| SchedulerRun.Run | proje.py:104-141 | the loop ends exactly when the completed list holds n entries; the final state keeps the invariant and is an evolution of the initial one |
| SchedulerRun.RunCompletes | proje.py:104-141 | at the end the backlog and every level are empty, each process is completed exactly once, and every record holds the completion metrics |
| SchedulerRun.AdmitEvolves | proje.py:87-91 | admission is an evolution: no record, clock, completed entry or quantum changes |
| SchedulerDemotion.Served | proje.py:121-139 | the service above level k is at least the quantum of each level above it, and never negative |
| SchedulerDemotion.ServedDependsOnQuanta | proje.py:66-79 | the service above level k is determined by the quanta of levels 0..k-1 alone, so it survives every change to the levels' contents |
| SchedulerDemotion.WaitingNeedsService | proje.py:121-139 | under the history, a process waiting on level k has a burst longer than the service above level k |
| SchedulerDemotion.InitHistory | proje.py:57-62 | the constructed scheduler satisfies the demotion history, since every level is empty |
| SchedulerDemotion.CheckProcessesHistory | proje.py:87-91 | admission keeps the history: the admitted record is untouched since construction and joins level 0 |
| SchedulerDemotion.DispatchLastHistory | proje.py:113-119 | the last-level dispatch keeps the history |
| SchedulerDemotion.DispatchQuantumHistory | proje.py:121-139 | the quantum dispatch keeps the history: a process that leaves level k unfinished ran that level's whole quantum (none when it is not positive), so it joins level k+1 having executed exactly the service above k+1, with work left |
| SchedulerDemotion.StepHistory | proje.py:108-141 | one iteration keeps the history |
| SchedulerDemotion.ShortStaysOnTop | proje.py:121-139 | under the history, a process whose burst is at most the first quantum waits in no level below the first |
| SchedulerDemotion.Trace | proje.py:104-141 | the states of the loop from s on: the first is s, each keeps the invariant, each is the iteration of the one before, and each is an evolution of s |
| SchedulerDemotion.TraceEndsInRun | proje.py:104-141 | the last state of the trace is the state `run` ends in |
| SchedulerDemotion.ShortProcessNeverDemoted | proje.py:87-139 | a process whose burst is at most the first quantum is in no lower level in any state of the loop, so it completes on level 0 without being demoted |
| SchedulerDemotion.ShortJobNeverDemoted | proje.py:57-139 | the same for a whole simulation: a workload entry with burst at most `quanta[0]` is never demoted from construction to the end of `run` |
| SchedulerDemotion.LevelNeedsService | proje.py:87-139 | in every state of the loop, a process waiting on level k has a burst longer than the service above level k |
| SchedulerDemotion.JobLevelNeedsService | proje.py:57-139 | the same for a whole simulation: a workload entry waits on level k only if its burst exceeds the positive parts of quanta 0..k-1 together |
| SchedulerRun.Simulate | proje.py:57-141 | an empty quantum list fails (the source's `self.queues[0]` raises); otherwise every workload entry ends completed with its own arrival and burst and consistent metrics |
| Scenarios.TwoInit | proje.py:57-85 | workload [(0,5),(1,3)] with quanta [4,8] constructs two fresh records, backlog [0,1] and two empty chained levels |
| Scenarios.TwoStep0 | proje.py:108-139 | first iteration: process 0 is admitted, runs 4 units from clock 0 (start time 0) and is demoted to level 1 with 1 unit left; both states keep the invariant |
| Scenarios.TwoStep1 | proje.py:108-134 | second iteration: process 1 is only admitted at clock 4, starts at 4, finishes on level 0 at 7 with turnaround 6 and waiting 3 |
| SingleScenario.OneInit | proje.py:57-85 | workload [(0,1)] with quanta [4] constructs one fresh record, backlog [0] and a single empty level that is the last one |
| SingleScenario.OneStep | proje.py:108-119 | the only iteration admits the process at clock 0 and dispatches it on the last level |
| SingleScenario.OnlyDispatch | proje.py:113-119 | the last-level dispatch leaves one record, the completion of the process at clock 1 |
| SingleScenario.OnlyDispatchClock | proje.py:115-117 | the clock advances by the single unit of work, to 1 |
| SingleScenario.OnlyDispatchCompleted | proje.py:118-119 | the process is the one appended to the completed list |
| SingleScenario.OneMetrics | proje.py:21-25 | its record ends with end time 1, turnaround 1, waiting 0, and start time 0 with `is_started` never set |
| DeepScenario.DeepService | proje.py:123-136 | with quanta [4,5,6] the first two levels grant 9 units before the third |
| DeepScenario.NeverReachesLowestLevel | proje.py:121-139 | a single process with burst 7, arriving at any time, under quanta [4,5,6]: it never waits on the third level, although its burst exceeds every quantum |

## Left out

- Printing (lines 105-106), `record` (lines 143-144), `generate_process` and `main` (lines 147-160) are left out. They are I/O, randomness or empty.
- The `name` field of `Process` is carried by the position of its record in the arena, not stored.
- The `priority` fields of `Process` and `Queue`, the `cpu_state` attribute and `Queue.last_queue` are left out. They are written but never read.
- The attributes `current_queue` and `current_process` are not state of the model. They only carry the selected level and its front within one iteration, and the model names those the level index `k` and the identifier `Front(s, k)`.
- The `Queue.MLFQ` back-reference is left out. `complete_process` (lines 50-53) reads the clock through it. That method is modelled inside `Scheduler.DispatchLast` and `Scheduler.DispatchQuantum` as `Complete` at the current clock followed by `RemoveProcess`.
- Object identity and aliasing are left out. Processes are referred to by arena index, and the queue link by level index.
- Scheduler.Step: its own contract states only sizes, the clock and the completed prefix. The invariant, the evolution and the termination measure are the lemmas `StepInv`, `StepEvolves`, `IdleOnlyTicks` and `StepDecreases`.
- SchedulerRun.Simulate: requires every burst to be at least 1. The source terminates for burst 0 only in some configurations, such as a single level, and never returns for a negative remaining time that reaches the last level. The model does not describe those runs.
- The last iteration of the two-process scenario is not stated as a concrete lemma. In it, process 0 completes on level 1 at clock 8. The general lemmas about `Run` cover it.
- SingleScenario.OneStep: states the single-process iteration as admission followed by `DispatchLast`, and the resulting record's fields in the lemmas `OnlyDispatch`, `OnlyDispatchClock`, `OnlyDispatchCompleted` and `OneMetrics`, rather than as one equation between concrete states.
