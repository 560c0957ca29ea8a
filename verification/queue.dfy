/** One priority level (class `Queue`, proje.py lines 27-53) and the construction of the
    level hierarchy (`init_queues` / `add_queue`, proje.py lines 66-79). */
module Queues {
  import opened Common

  /** A level holds the identifiers of its ready processes, front first. `next` is the index
      of the level that receives demoted processes; `last` marks the run-to-completion level.
      `priority`, `last_queue` and the back-reference to the scheduler are not modelled. */
  datatype Queue = Queue(
    maxBurstTime: int,
    processes: seq<nat>,
    next: Option<nat>,
    isCompleted: bool,
    last: bool)
  {
    /** The `is_completed` flag is kept in step with emptiness. */
    predicate Valid() {
      isCompleted <==> |processes| == 0
    }
  }

  /** `Queue(mlfq, q, 0)`: an empty, non-last level with quantum q. */
  function NewQueue(quantum: int): (r: Queue)
    ensures r.maxBurstTime == quantum && r.processes == [] && r.Valid()
    ensures !r.last && r.next.None?
  {
    Queue(quantum, [], None, true, false)
  }

  /** `add_process`: appends at the back and clears `is_completed`. */
  function AddProcess(q: Queue, x: nat): (r: Queue)
    ensures r.processes == q.processes + [x]
    ensures r.Valid()
    ensures r.(processes := q.processes, isCompleted := q.isCompleted) == q
  {
    q.(processes := q.processes + [x], isCompleted := false)
  }

  /** `remove_process`: drops the front; sets `is_completed` only when the list becomes empty. */
  function RemoveProcess(q: Queue): (r: Queue)
    requires |q.processes| > 0
    ensures r.processes == q.processes[1..]
    ensures q.Valid() ==> r.Valid()
    ensures |r.processes| == 0 ==> r.isCompleted
    ensures |r.processes| > 0 ==> r.isCompleted == q.isCompleted
    ensures r.(processes := q.processes, isCompleted := q.isCompleted) == q
  {
    var rest := q.processes[1..];
    q.(processes := rest, isCompleted := if |rest| == 0 then true else q.isCompleted)
  }

  /** `get_process`: the front of the level. */
  function GetProcess(q: Queue): (x: nat)
    requires |q.processes| > 0
    ensures x in q.processes && x == q.processes[0]
    ensures RemoveProcess(q).processes == q.processes[1..] && [x] + RemoveProcess(q).processes == q.processes
  {
    q.processes[0]
  }

  /** Everything the level hands out by repeatedly taking and removing its front. */
  function Drain(q: Queue): seq<nat>
    decreases |q.processes|
  {
    if |q.processes| == 0 then [] else [GetProcess(q)] + Drain(RemoveProcess(q))
  }

  /** Adds each of xs in order. */
  function Fill(q: Queue, xs: seq<nat>): Queue
    decreases |xs|
  {
    if |xs| == 0 then q else Fill(AddProcess(q, xs[0]), xs[1..])
  }

  /** Removing fronts one by one yields exactly the stored order. */
  lemma {:induction false} DrainIsContents(q: Queue)
    ensures Drain(q) == q.processes
    decreases |q.processes|
  {
    if |q.processes| > 0 {
      DrainIsContents(RemoveProcess(q));
    }
  }

  /** Filling appends in argument order and leaves a valid level when it adds anything. */
  lemma {:induction false} FillAppends(q: Queue, xs: seq<nat>)
    ensures Fill(q, xs).processes == q.processes + xs
    ensures q.Valid() ==> Fill(q, xs).Valid()
    decreases |xs|
  {
    if |xs| > 0 {
      FillAppends(AddProcess(q, xs[0]), xs[1..]);
      assert q.processes + [xs[0]] + xs[1..] == q.processes + xs;
    }
  }

  /** FIFO discipline: processes leave a level in the order they were already waiting,
      followed by the newly added ones in the order they were added. */
  lemma FifoOrder(q: Queue, xs: seq<nat>)
    ensures Drain(Fill(q, xs)) == q.processes + xs
  {
    FillAppends(q, xs);
    DrainIsContents(Fill(q, xs));
  }

  /** After `init_queues`: exactly the final level is `last`, and every earlier level's
      `next_queue` is its successor. */
  predicate Chained(qs: seq<Queue>) {
    forall k :: 0 <= k < |qs| ==>
      && (qs[k].last <==> k == |qs| - 1)
      && qs[k].next == (if k == |qs| - 1 then None else Some(k + 1))
  }

  /** `add_queue`: appends a level, makes it the last one, and links the previous last level
      to it. The levels already present keep their quantum and contents. */
  function AddQueue(qs: seq<Queue>, q: Queue): (r: seq<Queue>)
    ensures |r| == |qs| + 1
    ensures Chained(qs) && q.next == None ==> Chained(r)
    ensures r[|qs|] == q.(last := true)
    ensures forall k :: 0 <= k < |qs| ==>
      r[k].(last := qs[k].last, next := qs[k].next) == qs[k]
  {
    if |qs| == 0 then
      [q.(last := true)]
    else
      var appended := qs + [q.(last := true)];
      var i := |qs| - 1;
      appended[i := appended[i].(last := false, next := Some(|qs|))]
  }

  /** `init_queues`: one empty level per quantum, in order, chained. */
  function InitQueues(quanta: seq<int>): (r: seq<Queue>)
    ensures |r| == |quanta|
    ensures Chained(r)
    ensures forall k :: 0 <= k < |r| ==>
      r[k].maxBurstTime == quanta[k] && r[k].processes == [] && r[k].Valid()
  {
    if |quanta| == 0 then []
    else AddQueue(InitQueues(quanta[..|quanta| - 1]), NewQueue(quanta[|quanta| - 1]))
  }
}
