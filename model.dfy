/** The records of the task runner (model/task.go): task status, the
    dynamically typed parameter bag, tasks, result records and the API's
    request and response shapes. */
module Model {
  import opened Wrappers

  /** A timestamp: one reading of the clock. */
  type Time = nat

  /** The lifecycle status of a task. The Go code stores it as a string field
      that only ever holds one of four constants; `Name` gives that string. */
  datatype Status = Pending | Processing | Completed | Failed
  {
    function Name(): string
    {
      match this
      case Pending => "pending"
      case Processing => "processing"
      case Completed => "completed"
      case Failed => "failed"
    }

    /** How far along the lifecycle `pending -> processing -> completed|failed`
        a status is. */
    function Stage(): nat
    {
      match this
      case Pending => 0
      case Processing => 1
      case Completed => 2
      case Failed => 2
    }

    predicate IsTerminal()
    {
      Completed? || Failed?
    }
  }

  /** The four status names are pairwise distinct, so a status read back from
      its name is the status that was written. */
  lemma StatusNamesDistinct(a: Status, b: Status)
    ensures a.Name() == b.Name() <==> a == b
  {
  }

  /** A decoded JSON value: what a Go `interface{}` holds after
      `encoding/json` has decoded a request body. JSON numbers decode to
      float64, modelled here as an abstract number. */
  datatype Value =
    | Null
    | Bool(b: bool)
    | Number(n: real)
    | Str(s: string)
    | List(items: seq<Value>)
    | Object(fields: map<string, Value>)

  /** `map[string]interface{}`: task parameters and handler payloads. A nil
      Go map reads like the empty map. */
  type Params = map<string, Value>

  /** A unit of submitted work. ID, type, parameters, status and creation
      time are always present; the start and end times are optional. */
  datatype Task = Task(
    id: string,
    taskType: string,
    params: Params,
    status: Status,
    createdAt: Time,
    startedAt: Option<Time>,
    endedAt: Option<Time>)

  /** The record kept in the result store. Task ID, status and creation time
      are mandatory; the payload and the timestamps are optional, and the
      error message is the empty string when there is none (the Go field is a
      plain string marked `omitempty`). */
  datatype TaskResult = TaskResult(
    taskId: string,
    status: Status,
    result: Option<Params>,
    error: string,
    createdAt: Time,
    startedAt: Option<Time>,
    endedAt: Option<Time>)

  /** The reply to a submission or status query: only the ID and the status. */
  datatype TaskResponse = TaskResponse(id: string, status: Status)

  /** A decoded submission: a type name and a parameter bag. */
  datatype TaskRequest = TaskRequest(taskType: string, params: Params)
}
