# LongTaskRunner task-dispatch core in Dafny

A model of the sequential core of LongTaskRunner, a Go service that accepts
tasks over HTTP, queues them, runs them on a pool of workers and answers
status and result queries. The model covers these parts:

- the FIFO task queue (`Queue.InMemoryQueue`);
- the result store (`Storage.InMemoryStorage`);
- the handler registry and the reference "long_computation" handler (`Tasks`);
- the per-task lifecycle and the worker loop (`Worker`);
- the decision logic of the three API handlers (`Api`).

The records of `model/task.go` are datatypes in `Model`. Status is an
enumeration, and `Status.Name` gives the Go string constant for each value.
The parameter bag `map[string]interface{}` is `map<string, Value>`, where
`Value` is a decoded JSON value. Timestamps are naturals, one per clock
reading, and are passed in. Task IDs are passed in rather than generated.

The source's in-place objects are classes:

- The queue, the store and the registry each keep their Go slice or map as
  a field.
- `Push`, `Set` and `RegisterHandler` reassign that field.
- The store also keeps a ghost log of every `Set` call. Its `Valid()`
  predicate ties the map to a replay of that log. The log is what lets
  `ProcessTask` state its two writes in order.
- `ProcessTask` updates its local `result` record step by step and calls
  `Set` twice, as the Go code does. Its contract ties the writes to the
  specification function `Lifecycle`. The lemmas about `Lifecycle`,
  `TerminalRecord` and `WorkerWrites` state what the source promises.

The model follows these details of the Go code:

- The unknown-type error is `"Unknown task type"` (worker/worker.go:95).
- `createTask` writes no `pending` record to the store
  (api/server.go:56-72), so a just-submitted task is reported as not found
  until a worker picks it up.
- `getTaskResult` answers "not completed yet" for every record whose status
  is not `completed`, a `failed` one included (api/server.go:108-111).
- `Pop` waits while the queue is empty and has no other exit
  (queue/queue.go:49-55), so its "queue is empty" error can never be
  returned.

Handler dispatch, the `TaskHandler.Execute` interface call
(tasks/registry.go:8-10, worker/worker.go:103), is `Tasks.Execute` over the
`Tasks.Handler` datatype.

## Model

| member | source | states |
|---|---|---|
| `Model.StatusNamesDistinct` | model/task.go:7-12 | the four status strings are pairwise distinct: two statuses have the same name exactly when they are the same status |
| `Queue.InMemoryQueue.constructor` | queue/queue.go:25-31 | a new queue holds no tasks |
| `Queue.InMemoryQueue.Push` | queue/queue.go:34-41 | the task is appended at the tail (new contents = old contents + [task]) and the error is always nil |
| `Queue.InMemoryQueue.Pop` | queue/queue.go:44-60 | on a non-empty queue (the wait loop's exit condition) returns the head, leaves exactly the tail, and never returns the "queue is empty" error |
| `Queue.InMemoryQueue.Size` | queue/queue.go:63-67 | returns the number of queued tasks and changes nothing |
| `Queue.PushThenPopInOrder` | queue/queue.go:34-60 | pushing tasks onto a new queue and popping as many returns them in push order and leaves the queue empty |
| `Storage.ReplayHoldsLastWrite` | storage/storage.go:29-34 | a key is stored exactly when some `Set` used it, and it then holds the record of the last such `Set` |
| `Storage.InMemoryStorage.constructor` | storage/storage.go:22-26 | a new store has no records, so every lookup misses |
| `Storage.InMemoryStorage.Set` | storage/storage.go:29-34 | inserts or overwrites the record for the key, leaves every other key as it was, logs the write and returns nil |
| `Storage.InMemoryStorage.Get` | storage/storage.go:37-42 | found exactly when the key is stored, then with its record; the store is not changed |
| `Tasks.Duration` | tasks/long_computation.go:18-21 | the duration is the number under "duration" when there is one, and 180 when the key is missing or holds a non-number |
| `Tasks.LongComputationExecute` | tasks/long_computation.go:14-31 | never fails; the payload has exactly the keys "message" and "duration", with the fixed message and the duration used |
| `Tasks.DefaultDurationPayload` | tasks/long_computation.go:18-30 | without a "duration" parameter the payload reports a duration of 180 |
| `Tasks.Registry.constructor` | tasks/registry.go:18-27 | a new registry resolves "long_computation" to the reference handler and resolves no other type |
| `Tasks.Registry.RegisterHandler` | tasks/registry.go:29-33 | binds the handler to the type, overwriting any earlier binding; other types keep theirs |
| `Tasks.Registry.GetHandler` | tasks/registry.go:35-40 | found exactly when the type is registered, then with its handler; the registry is not changed |
| `Tasks.RegisterThenGet` | tasks/registry.go:29-40 | after registering a handler for a type, looking that type up yields it, and looking up any other type yields what it did before |
| `Worker.LifecycleShape` | worker/worker.go:74-118 | processing a task writes exactly two records, both under its ID: first `processing` with the start time, the task's creation time and no end time, error or payload; then a terminal record with the end time that keeps the ID, creation time and start time |
| `Worker.TerminalOutcome` | worker/worker.go:90-118 | unknown type: `failed` with "Unknown task type" and no payload; handler error: `failed` with its message and no payload; handler success: `completed` with the payload and empty error; completed exactly when the type is registered and its handler succeeds |
| `Worker.LifecycleAdvances` | worker/worker.go:78-115 | the two writes move strictly forward: pending before processing before the terminal status |
| `Worker.LifecycleTimestampsOrdered` | worker/worker.go:77-107 | with a clock that does not run backwards, both records have created <= started <= ended |
| `Worker.DefaultRegistryOutcome` | worker/worker.go:91-115 | with the default registry a "long_computation" task completes with the long-computation payload, and any other type fails as unknown |
| `Worker.LifecycleStatuses` | worker/worker.go:88-118 | processing a task writes `processing` then its terminal status under its ID, and nothing under any other ID |
| `Worker.WorkerWritesTwicePerTask` | worker/worker.go:57-71 | over any sequence of pops, the worker writes two records per delivered task and none for a failed pop |
| `Worker.WorkerWritesOnlyDelivered` | worker/worker.go:57-71 | a worker never writes under an ID that no pop delivered |
| `Worker.WorkerStatusesNeverRegress` | worker/worker.go:57-121 | when delivered tasks have distinct IDs, the statuses written under any ID strictly advance, so none regresses and no terminal status is written twice |
| `Worker.WorkerPool.constructor` | worker/worker.go:27-38 | a new pool keeps the given queue and store and gets a fresh default registry |
| `Worker.WorkerPool.ProcessTask` | worker/worker.go:74-121 | the store's writes are extended by exactly `Lifecycle` (processing record, then terminal record) and only the task's key changes, to the terminal record |
| `Worker.WorkerPool.WorkerLoop` | worker/worker.go:57-71 | each failed pop is skipped and the loop goes on; each delivered task is processed in order, giving exactly `WorkerWrites` |
| `Api.StatusReplyFor` | api/server.go:80-96 | not found exactly when the lookup missed; otherwise the stored status under the queried ID |
| `Api.ResultReplyFor` | api/server.go:99-115 | not found exactly when the lookup missed; not completed exactly for a record whose status is not `completed`, `failed` included; otherwise the record |
| `Api.ResultReplyAlongLifecycle` | api/server.go:108-114 | a task being processed or one that failed is reported not ready (distinct from not found); a completed one yields its whole record |
| `Api.Server.constructor` | api/server.go:24-29 | the server keeps the given queue and store |
| `Api.Server.CreateTask` | api/server.go:49-77 | queues a `pending` task with the given ID, type and parameters, created now; answers with its ID and `pending`; leaves the result store unchanged |
| `Api.Server.GetTaskStatus` | api/server.go:80-96 | not found exactly when the store has no record for the ID; otherwise that record's status |
| `Api.Server.GetTaskResult` | api/server.go:99-115 | not found exactly when there is no record; not completed exactly when its status is not `completed`; otherwise the stored record |
| `Api.SubmitThenQueryStatus` | api/server.go:49-92 | a task just submitted under a new ID is reported as not found |
| `Api.ProcessThenQuery` | api/server.go:80-114 | after a worker processes a task, the status query returns the terminal status, and the result query returns the record if completed and "not completed" if failed |

The field types of the datatypes state the record shapes
(model/task.go:14-42):

- A `Task` always has an ID, a type, parameters, a status and a creation
  time. Its start and end times are `Option`s.
- A `TaskResult` always has a task ID, a status and a creation time. Its
  payload and its start and end times are `Option`s.
- A `TaskResponse` has only an ID and a status.

## Left out

- Goroutines, mutexes, the condition variable, the wait group and context
  cancellation (`Start`, `Stop`, the `select` on `ctx.Done()`): they only
  coordinate concurrency. `Pop`'s blocking wait is the precondition that
  the queue is non-empty.
- The `TaskQueue` and `ResultStorage` interfaces: the pool and the server
  use the in-memory classes directly. The worker loop takes the values
  returned by `Pop` as a sequence of outcomes, so it can still be given an
  error.
- `time.Sleep` in the long-computation handler, and `time.Now`: clock
  readings are parameters.
- `uuid.New()`: the task ID is a parameter.
- HTTP routing, middleware, JSON decoding and encoding, headers and status
  codes: each API handler returns which branch it took. The 400 answer to
  an undecodable body is left out with the decoding.
- main.go and all logging.
- float64 arithmetic and the `time.Duration` conversion: the duration is an
  abstract number (`real`) that is only read and echoed.
- A handler other than the long-computation one is a function from
  parameters to payload or error message. A Go handler that returns both a
  payload and an error is the error case, because the worker ignores the
  payload then. A handler cannot return a nil payload together with a nil
  error, which in Go stores a `completed` record without a payload
  (worker/worker.go:113-114); the registered long-computation handler never
  does this.
- The local `task` copy in `processTask` also gets its status and start time
  updated. That copy is never stored anywhere, so the model does not keep it.
- Worker.WorkerStatusesNeverRegress: covers one worker. The claim that the
  pool processes each task exactly once rests on the queue handing each
  element to one popper, which is a concurrency property.
