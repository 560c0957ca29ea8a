/** The process record of the scheduler (class `Process`, proje.py lines 7-25). */
module Processes {

  /** One workload entry and its execution bookkeeping. `name` is the process's index in the
      workload and is carried by the position of the record in the scheduler's arena;
      `priority` is write-only in the source and is not modelled. */
  datatype Process = Process(
    arrivalTime: int,
    burstTime: int,
    remainingTime: int,
    startTime: int,
    endTime: int,
    waitingTime: int,
    turnaroundTime: int,
    isCompleted: bool,
    isStarted: bool)

  /** A process as the constructor leaves it: nothing executed, every time field at 0. */
  function NewProcess(arrival: int, burst: int): (r: Process)
    ensures r.arrivalTime == arrival && r.burstTime == burst && r.remainingTime == burst
    ensures !r.isStarted && !r.isCompleted
    ensures r.startTime == 0 && r.endTime == 0 && r.waitingTime == 0 && r.turnaroundTime == 0
  {
    Process(arrival, burst, burst, 0, 0, 0, 0, false, false)
  }

  /** The two metric identities the source establishes when a process completes. */
  predicate MetricsHold(p: Process) {
    && p.turnaroundTime == p.endTime - p.arrivalTime
    && p.waitingTime == p.turnaroundTime - p.burstTime
  }

  /** `complete(t)`: stamps the completion time and derives turnaround and waiting time.
      Like the source, it does not check that the remaining time is zero. */
  function Complete(p: Process, t: int): (r: Process)
    ensures r.isCompleted && r.endTime == t && MetricsHold(r)
    ensures r.waitingTime + r.burstTime + r.arrivalTime == t
    ensures r.(endTime := p.endTime, turnaroundTime := p.turnaroundTime,
               waitingTime := p.waitingTime, isCompleted := p.isCompleted) == p
  {
    var turnaround := t - p.arrivalTime;
    p.(endTime := t, turnaroundTime := turnaround,
       waitingTime := turnaround - p.burstTime, isCompleted := true)
  }
}
