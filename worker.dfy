/** The worker pool's per-task lifecycle and worker loop (worker/worker.go),
    with goroutines, the wait group and cancellation left out. A task is
    processed by two writes to the result store under its ID: first a
    `processing` record, then one terminal record. */
module Worker {
  import opened Wrappers
  import opened Model
  import opened Queue
  import opened Storage
  import opened Tasks

  /** The error recorded for a task whose type has no handler. */
  const UnknownTaskType: string := "Unknown task type"

  /** The first record written for a task popped at time `startedAt`. */
  function ProcessingRecord(task: Task, startedAt: Time): TaskResult
  {
    TaskResult(task.id, Processing, None, "", task.createdAt, Some(startedAt), None)
  }

  /** The second, terminal record: the processing record with its status,
      error or payload, and end time filled in. */
  function TerminalRecord(handlers: map<string, Handler>, task: Task, startedAt: Time, endedAt: Time): TaskResult
  {
    var processing := ProcessingRecord(task, startedAt);
    if task.taskType !in handlers then
      processing.(status := Failed, error := UnknownTaskType, endedAt := Some(endedAt))
    else
      match Execute(handlers[task.taskType], task.params)
      case Failure(msg) => processing.(status := Failed, error := msg, endedAt := Some(endedAt))
      case Success(payload) => processing.(status := Completed, result := Some(payload), endedAt := Some(endedAt))
  }

  /** The writes processing `task` issues, in order. */
  function Lifecycle(handlers: map<string, Handler>, task: Task, startedAt: Time, endedAt: Time): seq<Write>
  {
    [(task.id, ProcessingRecord(task, startedAt)), (task.id, TerminalRecord(handlers, task, startedAt, endedAt))]
  }

  /** Exactly two writes, both under the task's ID. The first says
      `processing`, carries the task's creation time and the start time, and
      has no end time, error or payload. The second is terminal, ends at
      `endedAt`, and keeps the task ID, creation time and start time. */
  lemma LifecycleShape(handlers: map<string, Handler>, task: Task, startedAt: Time, endedAt: Time)
    ensures var w := Lifecycle(handlers, task, startedAt, endedAt);
      && |w| == 2 && w[0].0 == task.id && w[1].0 == task.id
      && w[0].1 == TaskResult(task.id, Processing, None, "", task.createdAt, Some(startedAt), None)
      && w[1].1.status.IsTerminal()
      && w[1].1.taskId == task.id
      && w[1].1.createdAt == w[0].1.createdAt == task.createdAt
      && w[1].1.startedAt == w[0].1.startedAt == Some(startedAt)
      && w[1].1.endedAt == Some(endedAt)
  {
  }

  /** How the terminal record depends on the handler lookup and its run:
      an unknown type fails with "Unknown task type" and runs nothing; a
      handler error fails with the handler's message and no payload; a
      handler success completes with the payload and no error. The task
      completes exactly when its type is registered and its handler
      succeeds. */
  lemma TerminalOutcome(handlers: map<string, Handler>, task: Task, startedAt: Time, endedAt: Time)
    ensures var r := TerminalRecord(handlers, task, startedAt, endedAt);
      && (task.taskType !in handlers ==>
            r.status == Failed && r.error == UnknownTaskType && r.result == None)
      && (task.taskType in handlers && Execute(handlers[task.taskType], task.params).Failure? ==>
            r.status == Failed && r.error == Execute(handlers[task.taskType], task.params).error && r.result == None)
      && (task.taskType in handlers && Execute(handlers[task.taskType], task.params).Success? ==>
            r.status == Completed && r.error == "" && r.result == Some(Execute(handlers[task.taskType], task.params).value))
      && (r.status == Completed <==>
            task.taskType in handlers && Execute(handlers[task.taskType], task.params).Success?)
  {
  }

  /** Each write moves the task strictly further along
      `pending -> processing -> completed|failed`. */
  lemma LifecycleAdvances(handlers: map<string, Handler>, task: Task, startedAt: Time, endedAt: Time)
    ensures var w := Lifecycle(handlers, task, startedAt, endedAt);
      Pending.Stage() < w[0].1.status.Stage() < w[1].1.status.Stage()
  {
  }

  /** With a clock that never runs backwards, the timestamps of both records
      are ordered: created <= started <= ended. */
  lemma LifecycleTimestampsOrdered(handlers: map<string, Handler>, task: Task, startedAt: Time, endedAt: Time)
    requires task.createdAt <= startedAt <= endedAt
    ensures var w := Lifecycle(handlers, task, startedAt, endedAt);
      forall k :: 0 <= k < 2 ==>
        && w[k].1.startedAt.Some?
        && w[k].1.createdAt <= w[k].1.startedAt.value
        && (w[k].1.endedAt.Some? ==> w[k].1.startedAt.value <= w[k].1.endedAt.value)
  {
  }

  /** With the default registry, a "long_computation" task completes with the
      long-computation payload, and a task of any other type fails as
      unknown. */
  lemma DefaultRegistryOutcome(task: Task, startedAt: Time, endedAt: Time)
    ensures var r := TerminalRecord(DefaultHandlers(), task, startedAt, endedAt);
      && (task.taskType == LongComputationType ==>
            r.status == Completed && r.result == Some(LongComputationExecute(task.params).value)
            && r.result.value["duration"] == Number(Duration(task.params)))
      && (task.taskType != LongComputationType ==>
            r.status == Failed && r.error == UnknownTaskType)
  {
  }

  /** What `worker`'s loop does with one value returned by `Pop`: an error is
      skipped, a task is processed with clock readings `times`. */
  function StepWrites(handlers: map<string, Handler>, popped: Result<Task, string>, times: (Time, Time)): seq<Write>
  {
    match popped
    case Failure(_) => []
    case Success(task) => Lifecycle(handlers, task, times.0, times.1)
  }

  /** The writes of a worker that received `pops` from successive `Pop`
      calls, with one pair of clock readings per pop. */
  function WorkerWrites(handlers: map<string, Handler>, pops: seq<Result<Task, string>>, clock: seq<(Time, Time)>): seq<Write>
    requires |clock| == |pops|
  {
    if pops == [] then []
    else
      var n := |pops| - 1;
      WorkerWrites(handlers, pops[..n], clock[..n]) + StepWrites(handlers, pops[n], clock[n])
  }

  /** The number of pops that delivered a task. */
  function Delivered(pops: seq<Result<Task, string>>): nat
  {
    if pops == [] then 0
    else Delivered(pops[..|pops| - 1]) + (if pops[|pops| - 1].Success? then 1 else 0)
  }

  /** Failed pops are skipped: the worker writes exactly two records per task
      delivered and nothing for an error, and carries on after it. */
  lemma {:induction false} WorkerWritesTwicePerTask(handlers: map<string, Handler>, pops: seq<Result<Task, string>>, clock: seq<(Time, Time)>)
    requires |clock| == |pops|
    ensures |WorkerWrites(handlers, pops, clock)| == 2 * Delivered(pops)
  {
    if pops != [] {
      var n := |pops| - 1;
      WorkerWritesTwicePerTask(handlers, pops[..n], clock[..n]);
    }
  }

  /** The statuses written under key `id`, in order. */
  function StatusesFor(writes: seq<Write>, id: string): seq<Status>
  {
    if writes == [] then []
    else
      var n := |writes| - 1;
      StatusesFor(writes[..n], id) + (if writes[n].0 == id then [writes[n].1.status] else [])
  }

  lemma {:induction false} StatusesForAppend(a: seq<Write>, b: seq<Write>, id: string)
    ensures StatusesFor(a + b, id) == StatusesFor(a, id) + StatusesFor(b, id)
  {
    if b == [] {
      assert a + b == a;
    } else {
      var n := |b| - 1;
      assert (a + b)[..|a + b| - 1] == a + b[..n];
      StatusesForAppend(a, b[..n], id);
    }
  }

  /** Processing one task writes, under its own ID, `processing` and then
      its terminal status, and nothing under any other ID. */
  lemma LifecycleStatuses(handlers: map<string, Handler>, task: Task, startedAt: Time, endedAt: Time, id: string)
    ensures StatusesFor(Lifecycle(handlers, task, startedAt, endedAt), id) ==
      if task.id == id then [Processing, TerminalRecord(handlers, task, startedAt, endedAt).status] else []
  {
    var w := Lifecycle(handlers, task, startedAt, endedAt);
    assert w[..1][..0] == [];
    assert StatusesFor(w[..1], id) == if task.id == id then [Processing] else [];
  }

  /** The statuses strictly advance: a task never goes back, and never
      reaches a terminal status twice. */
  ghost predicate NeverRegresses(ss: seq<Status>)
  {
    forall i, j :: 0 <= i < j < |ss| ==> ss[i].Stage() < ss[j].Stage()
  }

  /** No two delivered tasks share an ID (the server generates a fresh UUID
      per submission). */
  ghost predicate DistinctIds(pops: seq<Result<Task, string>>)
  {
    forall i, j :: 0 <= i < j < |pops| && pops[i].Success? && pops[j].Success? ==>
      pops[i].value.id != pops[j].value.id
  }

  /** A worker never writes under an ID it has not been handed. */
  lemma {:induction false} WorkerWritesOnlyDelivered(handlers: map<string, Handler>, pops: seq<Result<Task, string>>, clock: seq<(Time, Time)>, id: string)
    requires |clock| == |pops|
    requires forall i :: 0 <= i < |pops| && pops[i].Success? ==> pops[i].value.id != id
    ensures StatusesFor(WorkerWrites(handlers, pops, clock), id) == []
  {
    if pops != [] {
      var n := |pops| - 1;
      WorkerWritesOnlyDelivered(handlers, pops[..n], clock[..n], id);
      StatusesForAppend(WorkerWrites(handlers, pops[..n], clock[..n]), StepWrites(handlers, pops[n], clock[n]), id);
      if pops[n].Success? {
        LifecycleStatuses(handlers, pops[n].value, clock[n].0, clock[n].1, id);
      }
    }
  }

  /** When delivered tasks have distinct IDs, the statuses a worker writes
      under any one ID never regress: an observer sees `processing` and then
      one terminal status, or nothing. */
  lemma {:induction false} WorkerStatusesNeverRegress(handlers: map<string, Handler>, pops: seq<Result<Task, string>>, clock: seq<(Time, Time)>, id: string)
    requires |clock| == |pops|
    requires DistinctIds(pops)
    ensures NeverRegresses(StatusesFor(WorkerWrites(handlers, pops, clock), id))
  {
    if pops != [] {
      var n := |pops| - 1;
      var prefix := WorkerWrites(handlers, pops[..n], clock[..n]);
      var step := StepWrites(handlers, pops[n], clock[n]);
      StatusesForAppend(prefix, step, id);
      if pops[n].Success? && pops[n].value.id == id {
        forall i | 0 <= i < |pops[..n]| && pops[..n][i].Success?
          ensures pops[..n][i].value.id != id
        {
          assert pops[..n][i] == pops[i];
        }
        WorkerWritesOnlyDelivered(handlers, pops[..n], clock[..n], id);
        var t := pops[n].value;
        LifecycleAdvances(handlers, t, clock[n].0, clock[n].1);
        LifecycleStatuses(handlers, t, clock[n].0, clock[n].1, id);
      } else {
        assert DistinctIds(pops[..n]);
        WorkerStatusesNeverRegress(handlers, pops[..n], clock[..n], id);
        if pops[n].Success? {
          LifecycleStatuses(handlers, pops[n].value, clock[n].0, clock[n].1, id);
        }
      }
    }
  }

  class WorkerPool {
    const numWorkers: int
    const taskQueue: InMemoryQueue
    const resultStorage: InMemoryStorage
    const registry: Registry

    /** `NewWorkerPool`: the given queue and store, and a new default
        registry. */
    constructor (numWorkers: int, taskQueue: InMemoryQueue, resultStorage: InMemoryStorage)
      ensures this.numWorkers == numWorkers
      ensures this.taskQueue == taskQueue && this.resultStorage == resultStorage
      ensures fresh(registry) && registry.handlers == DefaultHandlers()
    {
      this.numWorkers := numWorkers;
      this.taskQueue := taskQueue;
      this.resultStorage := resultStorage;
      registry := new Registry();
    }

    /** `processTask`: writes the processing record read at clock `now`,
        looks the handler up, runs it, and writes the terminal record read
        at clock `endTime`. Only the task's key changes. */
    method ProcessTask(task: Task, now: Time, endTime: Time)
      requires resultStorage.Valid()
      modifies resultStorage
      ensures resultStorage.Valid()
      ensures resultStorage.writes == old(resultStorage.writes) + Lifecycle(registry.handlers, task, now, endTime)
      ensures resultStorage.results == old(resultStorage.results)[task.id := TerminalRecord(registry.handlers, task, now, endTime)]
    {
      var result := TaskResult(task.id, Processing, None, "", task.createdAt, Some(now), None);
      var _ := resultStorage.Set(task.id, result);

      var handler := registry.GetHandler(task.taskType);
      if handler.None? {
        result := result.(status := Failed, error := UnknownTaskType, endedAt := Some(endTime));
        var _ := resultStorage.Set(task.id, result);
        return;
      }

      var outcome := Execute(handler.value, task.params);
      result := result.(endedAt := Some(endTime));
      if outcome.Failure? {
        result := result.(status := Failed, error := outcome.error);
      } else {
        result := result.(status := Completed, result := Some(outcome.value));
      }
      var _ := resultStorage.Set(task.id, result);
    }

    /** `worker`'s loop over the values `Pop` returned (`pops`), with the
        clock readings for each: a failed pop is skipped and the loop goes
        on; a task is processed. The pop outcomes are a parameter rather than
        calls of `taskQueue.Pop()`, because the source pops through the
        `TaskQueue` interface, whose implementations may fail; so this loop
        does not read `taskQueue`, and `numWorkers` matters only to the
        goroutines `Start` launches, which are not modelled. */
    method WorkerLoop(pops: seq<Result<Task, string>>, clock: seq<(Time, Time)>)
      requires |clock| == |pops|
      requires resultStorage.Valid()
      modifies resultStorage
      ensures resultStorage.Valid()
      ensures resultStorage.writes == old(resultStorage.writes) + WorkerWrites(registry.handlers, pops, clock)
    {
      for i := 0 to |pops|
        invariant resultStorage.Valid()
        invariant resultStorage.writes == old(resultStorage.writes) + WorkerWrites(registry.handlers, pops[..i], clock[..i])
      {
        assert pops[..i + 1][..i] == pops[..i] && clock[..i + 1][..i] == clock[..i];
        match pops[i]
        case Failure(_) =>
          continue;
        case Success(task) =>
          ProcessTask(task, clock[i].0, clock[i].1);
      }
      assert pops[..|pops|] == pops && clock[..|clock|] == clock;
    }
  }
}
