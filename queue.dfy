/** The in-memory FIFO task queue (queue/queue.go). Locking and the
    condition variable are left out: `Pop`'s wait for a non-empty queue
    becomes the precondition that the queue is non-empty. */
module Queue {
  import opened Wrappers
  import opened Model

  class InMemoryQueue {
    /** The queued tasks, head first. */
    var tasks: seq<Task>

    /** `NewInMemoryQueue`: a queue with no tasks. */
    constructor ()
      ensures tasks == []
    {
      tasks := [];
    }

    /** Appends `task` at the tail. The in-memory queue never fails. */
    method Push(task: Task) returns (err: Option<string>)
      modifies this
      ensures tasks == old(tasks) + [task]
      ensures err == None
    {
      tasks := tasks + [task];
      err := None;
    }

    /** Removes and returns the head. The source waits while the queue is
        empty, so by the time it looks at the queue again the queue holds a
        task and its "queue is empty" error is never returned. */
    method Pop() returns (task: Task, err: Option<string>)
      requires tasks != []
      modifies this
      ensures task == old(tasks)[0]
      ensures tasks == old(tasks)[1..]
      ensures err == None
    {
      if |tasks| == 0 {
        // the "queue is empty" branch after the wait loop
        assert false;
      }
      task := tasks[0];
      tasks := tasks[1..];
      err := None;
    }

    /** The number of queued tasks; the queue is left as it was. */
    method Size() returns (n: int)
      ensures n == |tasks|
    {
      n := |tasks|;
    }
  }

  /** A fresh queue given `ts` by successive pushes and then popped `|ts|`
      times hands the tasks back in push order and ends up empty. */
  method PushThenPopInOrder(ts: seq<Task>) returns (popped: seq<Task>, size: int)
    ensures popped == ts
    ensures size == 0
  {
    var q := new InMemoryQueue();
    for i := 0 to |ts|
      invariant q.tasks == ts[..i]
    {
      var _ := q.Push(ts[i]);
    }
    popped := [];
    while |popped| < |ts|
      invariant |popped| <= |ts|
      invariant popped == ts[..|popped|]
      invariant q.tasks == ts[|popped|..]
    {
      var t, _ := q.Pop();
      popped := popped + [t];
    }
    size := q.Size();
  }
}
