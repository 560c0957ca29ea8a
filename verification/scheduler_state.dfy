/** The scheduler's state (class `MLFQ`, proje.py lines 56-141) and the invariant that holds
    between iterations of `run`. */
module SchedulerState {
  import opened Common
  import opened Processes
  import opened Queues

  /** `procs` is the arena of process records, indexed by the `name` the constructor assigns
      (proje.py line 84). `backlog` is the source's `MLFQ.processes` list: the identifiers not yet
      admitted, front first. `queues` hold identifiers. `completed` is `complete_processes`.
      The source's `n` is |procs|. */
  datatype State = State(
    procs: seq<Process>,
    backlog: seq<nat>,
    queues: seq<Queue>,
    time: int,
    completed: seq<nat>)

  /** The multiset of identifiers waiting in any level. */
  function QueuedIds(qs: seq<Queue>): multiset<nat> {
    if |qs| == 0 then multiset{}
    else QueuedIds(qs[..|qs| - 1]) + multiset(qs[|qs| - 1].processes)
  }

  /** Shape facts the operations need to be defined: at least one level, a chained hierarchy,
      every identifier in the backlog or a level names a record, and such records still have
      work left. */
  predicate WellFormed(s: State) {
    && |s.queues| >= 1
    && Chained(s.queues)
    && (forall x: nat :: x in s.backlog ==> x < |s.procs| && s.procs[x].remainingTime >= 1)
    && (forall k: int, x: nat {:trigger x in s.queues[k].processes} ::
          0 <= k < |s.queues| && x in s.queues[k].processes ==>
          x < |s.procs| && s.procs[x].remainingTime >= 1)
  }

  /** The identifier at the front of level k. */
  function Front(s: State, k: nat): (x: nat)
    requires WellFormed(s) && k < |s.queues| && |s.queues[k].processes| > 0
    ensures x == s.queues[k].processes[0] && x in s.queues[k].processes
    ensures x < |s.procs| && s.procs[x].remainingTime >= 1
  {
    var x := GetProcess(s.queues[k]);
    assert x in s.queues[k].processes;
    x
  }

  /** A backlog process: untouched since construction, with a positive burst. */
  predicate Fresh(p: Process) {
    p == NewProcess(p.arrivalTime, p.burstTime) && p.burstTime >= 1
  }

  /** A process waiting in some level at clock t: admitted (so t is past its arrival plus the
      work it has done), not finished, and started exactly when it has executed some unit. */
  predicate Ready(p: Process, t: int) {
    && !p.isCompleted
    && 1 <= p.remainingTime <= p.burstTime
    && p.arrivalTime + (p.burstTime - p.remainingTime) <= t
    && (p.isStarted ==>
          p.arrivalTime <= p.startTime && p.startTime + (p.burstTime - p.remainingTime) <= t)
    && (!p.isStarted ==> p.remainingTime == p.burstTime && p.startTime == 0)
  }

  /** A completed process at clock t: its metrics are consistent and non-negative, and its
      start time is either the instant of its first unit or the untouched default 0. */
  predicate Finished(p: Process, t: int) {
    && p.isCompleted
    && p.remainingTime == 0
    && p.endTime <= t
    && MetricsHold(p)
    && p.waitingTime >= 0
    && (p.isStarted ==> p.arrivalTime <= p.startTime && p.startTime + p.burstTime <= p.endTime)
    && (!p.isStarted ==> p.startTime == 0)
  }

  /** Every level's `is_completed` flag matches its emptiness. */
  predicate LevelsValid(s: State) {
    forall k :: 0 <= k < |s.queues| ==> s.queues[k].Valid()
  }

  /** Every record has a positive burst and a remaining time between 0 and the burst. */
  predicate ArenaOk(s: State) {
    forall i :: 0 <= i < |s.procs| ==>
      1 <= s.procs[i].burstTime && 0 <= s.procs[i].remainingTime <= s.procs[i].burstTime
  }

  /** Every process is in exactly one place: the backlog, one level, or the completed list. */
  predicate Placed(s: State) {
    multiset(s.backlog) + QueuedIds(s.queues) + multiset(s.completed)
      == multiset(Range(|s.procs|))
  }

  predicate BacklogFresh(s: State) {
    forall x: nat :: x in s.backlog ==> x < |s.procs| && Fresh(s.procs[x])
  }

  predicate QueuesReady(s: State) {
    forall k: int, x: nat {:trigger x in s.queues[k].processes} ::
      0 <= k < |s.queues| && x in s.queues[k].processes ==>
      x < |s.procs| && Ready(s.procs[x], s.time)
  }

  predicate CompletedFinished(s: State) {
    forall x: nat :: x in s.completed ==> x < |s.procs| && Finished(s.procs[x], s.time)
  }

  /** The invariant between iterations of `run`: the shape facts, the flags, every process in
      exactly one place, and the facts about each process that match its place. */
  predicate Inv(s: State) {
    && WellFormed(s)
    && LevelsValid(s)
    && ArenaOk(s)
    && Placed(s)
    && BacklogFresh(s)
    && QueuesReady(s)
    && CompletedFinished(s)
  }

  /** Replacing one level changes the waiting multiset by exactly that level's contents. */
  lemma {:induction false} QueuedIdsUpdate(qs: seq<Queue>, k: nat, v: Queue)
    requires k < |qs|
    ensures QueuedIds(qs[k := v]) + multiset(qs[k].processes)
         == QueuedIds(qs) + multiset(v.processes)
  {
    var n := |qs| - 1;
    if k == n {
      assert qs[k := v][..n] == qs[..n];
    } else {
      var qs' := qs[k := v];
      assert qs'[..n] == qs[..n][k := v];
      assert qs'[n] == qs[n];
      assert qs[..n][k] == qs[k];
      QueuedIdsUpdate(qs[..n], k, v);
      var a, b := QueuedIds(qs'[..n]), QueuedIds(qs[..n]);
      var m, mk, mv := multiset(qs[n].processes), multiset(qs[k].processes), multiset(v.processes);
      assert a + mk == b + mv;
      assert QueuedIds(qs') == a + m;
      assert QueuedIds(qs) == b + m;
      assert a + m + mk == b + m + mv by {
        assert a + m + mk == (a + mk) + m;
        assert b + m + mv == (b + mv) + m;
      }
    }
  }

  /** Multiset union cancels. */
  lemma MultisetCancel(a: multiset<nat>, b: multiset<nat>, c: multiset<nat>)
    requires a + c == b + c
    ensures a == b
  {
    forall y: nat
      ensures a[y] == b[y]
    {
      assert (a + c)[y] == (b + c)[y];
    }
  }

  /** Appending x to a level adds exactly x to the waiting multiset. */
  lemma QueuedIdsAddBack(qs: seq<Queue>, k: nat, x: nat)
    requires k < |qs|
    ensures QueuedIds(qs[k := AddProcess(qs[k], x)]) == QueuedIds(qs) + multiset{x}
  {
    var v := AddProcess(qs[k], x);
    QueuedIdsUpdate(qs, k, v);
    assert multiset(v.processes) == multiset(qs[k].processes) + multiset{x};
    MultisetCancel(QueuedIds(qs[k := v]), QueuedIds(qs) + multiset{x}, multiset(qs[k].processes));
  }

  /** Removing the front of a level removes exactly that identifier from the waiting multiset. */
  lemma QueuedIdsRemoveFront(qs: seq<Queue>, k: nat)
    requires k < |qs| && |qs[k].processes| > 0
    ensures QueuedIds(qs[k := RemoveProcess(qs[k])]) + multiset{qs[k].processes[0]}
         == QueuedIds(qs)
  {
    var v := RemoveProcess(qs[k]);
    var x := qs[k].processes[0];
    QueuedIdsUpdate(qs, k, v);
    assert qs[k].processes == [x] + v.processes;
    assert multiset(qs[k].processes) == multiset{x} + multiset(v.processes);
    MultisetCancel(QueuedIds(qs[k := v]) + multiset{x}, QueuedIds(qs), multiset(v.processes));
  }

  /** Every identifier in a level is counted in the waiting multiset. */
  lemma QueuedIdsMember(qs: seq<Queue>, k: nat, x: nat)
    requires k < |qs| && x in qs[k].processes
    ensures x in QueuedIds(qs)
  {
    QueuedIdsUpdate(qs, k, qs[k].(processes := []));
  }

  /** When every level is empty nothing is waiting. */
  lemma {:induction false} QueuedIdsEmpty(qs: seq<Queue>)
    requires forall k :: 0 <= k < |qs| ==> |qs[k].processes| == 0
    ensures QueuedIds(qs) == multiset{}
  {
    if |qs| > 0 {
      QueuedIdsEmpty(qs[..|qs| - 1]);
    }
  }
}
