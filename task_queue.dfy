/**
 * The workflow's pending work: an unbounded first-in first-out queue
 * (src/workflow/task_queue.py). `add_task` appends at the tail, `get_next_task`
 * removes the head or yields None on an empty queue.
 */
module TaskQueues {
  import opened Values

  /** One call a client makes on the queue. */
  datatype QueueOp<T> = Add(task: T) | Get

  /** The queue after one call, and what a `get_next_task` call returned (None for an add). */
  function Apply<T>(q: seq<T>, op: QueueOp<T>): (r: (seq<T>, Option<T>))
    ensures op.Add? ==> r.0 == q + [op.task] && r.1.None?
    ensures op.Get? ==> (r.1.None? <==> q == [])
    ensures op.Get? && r.1.None? ==> r.0 == q
    ensures op.Get? && r.1.Some? ==> [r.1.value] + r.0 == q
  {
    match op
    case Add(t) => (q + [t], None)
    case Get => if |q| == 0 then (q, None) else (q[1..], Some(q[0]))
  }

  /** Runs a sequence of calls; yields the final queue and what each call returned. */
  function Run<T>(q: seq<T>, ops: seq<QueueOp<T>>): (r: (seq<T>, seq<Option<T>>))
    ensures |r.1| == |ops|
    decreases |ops|
  {
    if ops == [] then (q, [])
    else
      var (q', out) := Apply(q, ops[0]);
      var (last, outs) := Run(q', ops[1..]);
      (last, [out] + outs)
  }

  /** The tasks added by a sequence of calls, in call order. */
  function Added<T>(ops: seq<QueueOp<T>>): seq<T> {
    if ops == [] then []
    else (if ops[0].Add? then [ops[0].task] else []) + Added(ops[1..])
  }

  /** The tasks actually handed out (the non-None results), in call order. */
  function Delivered<T>(outs: seq<Option<T>>): seq<T> {
    if outs == [] then []
    else (if outs[0].Some? then [outs[0].value] else []) + Delivered(outs[1..])
  }

  /**
   * FIFO under any interleaving: what was handed out, followed by what is still
   * queued, is exactly what was queued at the start followed by every task added,
   * in the order of the adds.
   */
  lemma {:induction false} RunIsFifo<T>(q: seq<T>, ops: seq<QueueOp<T>>)
    ensures Delivered(Run(q, ops).1) + Run(q, ops).0 == q + Added(ops)
    decreases |ops|
  {
    if ops != [] {
      var (q', out) := Apply(q, ops[0]);
      RunIsFifo(q', ops[1..]);
      var (last, outs) := Run(q', ops[1..]);
      assert Run(q, ops) == (last, [out] + outs);
      assert ([out] + outs)[1..] == outs;
      match ops[0]
      case Add(t) =>
        assert Delivered([out] + outs) == Delivered(outs);
        assert Added(ops) == [t] + Added(ops[1..]);
        assert q' + Added(ops[1..]) == q + Added(ops);
      case Get =>
        assert Added(ops) == Added(ops[1..]);
        if |q| > 0 {
          assert Delivered([out] + outs) == [q[0]] + Delivered(outs);
          calc {
            Delivered([out] + outs) + last;
            [q[0]] + (Delivered(outs) + last);
            [q[0]] + (q[1..] + Added(ops[1..]));
            ([q[0]] + q[1..]) + Added(ops);
            { assert [q[0]] + q[1..] == q; }
            q + Added(ops);
          }
        } else {
          assert Delivered([out] + outs) == Delivered(outs);
        }
    }
  }

  /** Starting empty, the size is the number of adds minus the number of gets that returned a task. */
  lemma SizeCountsAddsAndGets<T>(ops: seq<QueueOp<T>>)
    ensures |Run([], ops).0| == |Added(ops)| - |Delivered(Run([], ops).1)|
  {
    RunIsFifo([], ops);
    assert [] + Added(ops) == Added(ops);
  }

  class TaskQueue<T> {
    /** The queued tasks, head first. */
    var queue: seq<T>

    constructor ()
      ensures queue == []
    {
      queue := [];
    }

    method AddTask(task: T)
      modifies this
      ensures queue == old(queue) + [task]
      ensures (queue, None) == Apply(old(queue), Add(task))
    {
      queue := queue + [task];
    }

    method GetNextTask() returns (task: Option<T>)
      modifies this
      ensures old(queue) != [] ==> task == Some(old(queue)[0]) && queue == old(queue)[1..]
      ensures old(queue) == [] ==> task == None && queue == []
      ensures (queue, task) == Apply(old(queue), Get)
    {
      if |queue| > 0 {
        task := Some(queue[0]);
        queue := queue[1..];
      } else {
        task := None;
      }
    }

    function IsEmpty(): (empty: bool)
      reads this
      ensures empty <==> Size() == 0
      ensures empty <==> queue == []
    {
      |queue| == 0
    }

    function Size(): (n: nat)
      reads this
      ensures n == |queue|
    {
      |queue|
    }
  }
}
