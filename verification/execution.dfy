/** The two inner CPU loops of `MLFQ.run`: the quantum-bounded loop of a non-last level
    (proje.py lines 122-136) and the run-to-completion loop of the last level (lines 114-117).
    Each is given as a closed form, which the scheduler uses, and as a method that executes the
    loop unit by unit and is proved to compute the closed form. */
module Execution {
  import opened Common
  import opened Processes

  /** What one quantum-bounded dispatch leaves behind: the process record, the clock, and
      whether the process's remaining time reached zero (the `break` at line 134). */
  datatype Slice = Slice(proc: Process, time: int, finished: bool)

  /** Marks a process started at `now` unless it already was (lines 124-126). */
  function MarkStarted(p: Process, now: int): (r: Process)
    ensures r.isStarted
    ensures r.startTime == (if p.isStarted then p.startTime else now)
    ensures r.(isStarted := p.isStarted, startTime := p.startTime) == p
  {
    if p.isStarted then p else p.(startTime := now, isStarted := true)
  }

  /** The start time is set once: marking an already marked process again changes nothing. */
  lemma MarkStartedOnce(p: Process, first: int, later: int)
    ensures MarkStarted(MarkStarted(p, first), later) == MarkStarted(p, first)
    ensures MarkStarted(p, first).startTime == MarkStarted(p, later).startTime <==> p.isStarted || first == later
  {
  }

  /** Closed form of the quantum-bounded loop: with quantum q >= 1 the process runs
      min(q, remaining) units when 1 <= remaining <= q (and then finishes), and q units
      otherwise; with q <= 0 the loop body never runs. */
  function QuantumSlice(p: Process, now: int, quantum: int): (r: Slice)
    ensures r.time >= now
    ensures r.proc.remainingTime == p.remainingTime - (r.time - now)
    ensures quantum >= 1 && p.remainingTime >= 1 ==> r.time - now == Min(quantum, p.remainingTime)
    ensures r.finished <==> 1 <= p.remainingTime <= quantum
    ensures r.finished ==> r.proc.remainingTime == 0
    ensures quantum <= 0 ==> r == Slice(p, now, false)
    ensures r.time > now ==> r.proc.isStarted
    ensures r.proc.startTime == (if !p.isStarted && r.time > now then now else p.startTime)
    ensures r.proc.isStarted == (p.isStarted || r.time > now)
    ensures r.proc.(remainingTime := p.remainingTime, startTime := p.startTime,
                    isStarted := p.isStarted) == p
  {
    if quantum <= 0 then
      Slice(p, now, false)
    else if 1 <= p.remainingTime <= quantum then
      Slice(MarkStarted(p, now).(remainingTime := 0), now + p.remainingTime, true)
    else
      Slice(MarkStarted(p, now).(remainingTime := p.remainingTime - quantum), now + quantum, false)
  }

  /** The loop of lines 123-136 executed one unit at a time: `turn_time` counts the units
      granted so far; the loop leaves early when the remaining time reaches zero. */
  method QuantumLoop(p: Process, now: int, quantum: int) returns (q: Process, t: int, finished: bool)
    ensures Slice(q, t, finished) == QuantumSlice(p, now, quantum)
  {
    q, t, finished := p, now, false;
    var turnTime := 0;
    while turnTime < quantum
      invariant 0 <= turnTime
      invariant turnTime == 0 || turnTime <= quantum
      invariant t == now + turnTime
      invariant q.remainingTime == p.remainingTime - turnTime
      invariant p.remainingTime >= 1 ==> turnTime < p.remainingTime
      invariant turnTime == 0 ==> q == p
      invariant turnTime > 0 ==> q == MarkStarted(p, now).(remainingTime := q.remainingTime)
      decreases quantum - turnTime
    {
      if !q.isStarted {
        q := q.(startTime := t, isStarted := true);
      }
      q := q.(remainingTime := q.remainingTime - 1);
      t := t + 1;
      assert q == MarkStarted(p, now).(remainingTime := q.remainingTime);
      if q.remainingTime == 0 {
        finished := true;
        break;
      }
      turnTime := turnTime + 1;
    }
  }

  /** The loop of lines 115-117: decrements the remaining time to zero, advancing the clock by
      one per unit. It needs a non-negative remaining time, since it tests `!= 0`. The start
      time is not touched on this level. */
  method LastLevelLoop(p: Process, now: int) returns (q: Process, t: int)
    requires p.remainingTime >= 0
    ensures q.remainingTime == 0 && t == now + p.remainingTime
    ensures q.(remainingTime := p.remainingTime) == p
  {
    q, t := p, now;
    while q.remainingTime != 0
      invariant 0 <= q.remainingTime <= p.remainingTime
      invariant t == now + (p.remainingTime - q.remainingTime)
      invariant q.(remainingTime := p.remainingTime) == p
      decreases q.remainingTime
    {
      q := q.(remainingTime := q.remainingTime - 1);
      t := t + 1;
    }
  }
}
