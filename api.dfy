/** The decision logic of the HTTP handlers (api/server.go): routing, JSON
    decoding and encoding and status codes are left out, and each handler
    returns which of its branches it took. */
module Api {
  import opened Wrappers
  import opened Model
  import opened Queue
  import opened Storage
  import opened Tasks
  import opened Worker

  /** `createTask`: the queue refused the task (500), or it was accepted
      (202) with this response. */
  datatype CreateReply = QueueFailed | Accepted(response: TaskResponse)

  /** `getTaskStatus`: no record (404), or the record's status (200). */
  datatype StatusReply = StatusNotFound | StatusOk(response: TaskResponse)

  /** `getTaskResult`: no record (404), a record that is not `completed`
      (412, "Task is not completed yet"), or the whole record (200). */
  datatype ResultReply = ResultNotFound | NotCompleted | ResultOk(result: TaskResult)

  /** How `getTaskStatus` answers for `taskId` given what the store lookup
      found: not found exactly when the lookup missed, and otherwise the
      stored status under the queried ID. */
  function StatusReplyFor(taskId: string, found: Option<TaskResult>): (reply: StatusReply)
    ensures reply.StatusNotFound? <==> found.None?
    ensures found.Some? ==> reply.response == TaskResponse(taskId, found.value.status)
  {
    match found
    case None => StatusNotFound
    case Some(r) => StatusOk(TaskResponse(taskId, r.status))
  }

  /** How `getTaskResult` answers given what the store lookup found: not
      found when the lookup missed; not completed for any record whose status
      is not `completed`, a `failed` one included; the record itself
      otherwise. */
  function ResultReplyFor(found: Option<TaskResult>): (reply: ResultReply)
    ensures reply.ResultNotFound? <==> found.None?
    ensures reply.NotCompleted? <==> found.Some? && found.value.status != Completed
    ensures reply.ResultOk? <==> found.Some? && found.value.status == Completed
    ensures reply.ResultOk? ==> reply.result == found.value
  {
    match found
    case None => ResultNotFound
    case Some(r) => if r.status != Completed then NotCompleted else ResultOk(r)
  }

  /** A task being processed, or one that failed, is reported as not ready
      rather than as missing; a completed task yields its whole record. */
  lemma ResultReplyAlongLifecycle(handlers: map<string, Handler>, task: Task, startedAt: Time, endedAt: Time)
    ensures ResultReplyFor(Some(ProcessingRecord(task, startedAt))) == NotCompleted
    ensures var r := TerminalRecord(handlers, task, startedAt, endedAt);
      && (r.status == Failed ==> ResultReplyFor(Some(r)) == NotCompleted)
      && (r.status == Completed ==> ResultReplyFor(Some(r)) == ResultOk(r))
  {
    TerminalOutcome(handlers, task, startedAt, endedAt);
  }

  class Server {
    const taskQueue: InMemoryQueue
    const resultStorage: InMemoryStorage

    /** `NewServer`: a server over the given queue and store. */
    constructor (taskQueue: InMemoryQueue, resultStorage: InMemoryStorage)
      ensures this.taskQueue == taskQueue && this.resultStorage == resultStorage
    {
      this.taskQueue := taskQueue;
      this.resultStorage := resultStorage;
    }

    /** `createTask` for a decoded request, with `id` the generated UUID and
        `now` the clock: queues a `pending` task of the requested type and
        parameters created at `now`, answers with its ID and `pending`, and
        writes nothing to the result store. The `QueueFailed` branch is kept
        as the source has it, but it cannot be taken: the server is wired to
        the in-memory queue (main.go), whose `Push` never fails. */
    method CreateTask(req: TaskRequest, id: string, now: Time) returns (reply: CreateReply)
      modifies taskQueue
      ensures taskQueue.tasks == old(taskQueue.tasks) + [Task(id, req.taskType, req.params, Pending, now, None, None)]
      ensures reply == Accepted(TaskResponse(id, Pending))
      ensures unchanged(resultStorage)
    {
      var task := Task(id, req.taskType, req.params, Pending, now, None, None);
      var err := taskQueue.Push(task);
      if err.Some? {
        return QueueFailed;
      }
      reply := Accepted(TaskResponse(task.id, task.status));
    }

    /** `getTaskStatus`: not found exactly when the store has no record for
        `taskId`; otherwise that record's status. */
    method GetTaskStatus(taskId: string) returns (reply: StatusReply)
      ensures reply.StatusNotFound? <==> taskId !in resultStorage.results
      ensures taskId in resultStorage.results ==>
        reply == StatusOk(TaskResponse(taskId, resultStorage.results[taskId].status))
    {
      var found := resultStorage.Get(taskId);
      reply := StatusReplyFor(taskId, found);
    }

    /** `getTaskResult`: not found exactly when the store has no record; not
        completed exactly when the record's status is anything but
        `completed`; otherwise the stored record. */
    method GetTaskResult(taskId: string) returns (reply: ResultReply)
      ensures reply.ResultNotFound? <==> taskId !in resultStorage.results
      ensures reply.NotCompleted? <==>
        taskId in resultStorage.results && resultStorage.results[taskId].status != Completed
      ensures reply.ResultOk? ==>
        taskId in resultStorage.results && reply.result == resultStorage.results[taskId] &&
        reply.result.status == Completed
    {
      var found := resultStorage.Get(taskId);
      reply := ResultReplyFor(found);
    }
  }

  /** A task just submitted under a new ID is reported as not found: the
      server queues it but writes no `pending` record, so only a worker's
      first write makes it visible. */
  method SubmitThenQueryStatus(server: Server, req: TaskRequest, id: string, now: Time)
    returns (created: CreateReply, status: StatusReply)
    requires id !in server.resultStorage.results
    modifies server.taskQueue
    ensures created == Accepted(TaskResponse(id, Pending))
    ensures status == StatusNotFound
  {
    created := server.CreateTask(req, id, now);
    status := server.GetTaskStatus(id);
  }

  /** Once a worker has processed a task, a status query returns the
      terminal status and a result query returns the record when the task
      completed and "not completed" when it failed. */
  method ProcessThenQuery(pool: WorkerPool, server: Server, task: Task, now: Time, endTime: Time)
    returns (status: StatusReply, result: ResultReply)
    requires server.resultStorage == pool.resultStorage
    requires pool.resultStorage.Valid()
    modifies pool.resultStorage
    ensures var r := TerminalRecord(pool.registry.handlers, task, now, endTime);
      && status == StatusOk(TaskResponse(task.id, r.status))
      && (r.status == Completed ==> result == ResultOk(r))
      && (r.status == Failed ==> result == NotCompleted)
  {
    pool.ProcessTask(task, now, endTime);
    status := server.GetTaskStatus(task.id);
    result := server.GetTaskResult(task.id);
  }
}
