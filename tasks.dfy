/** Task handlers and the handler registry (tasks/registry.go,
    tasks/long_computation.go). */
module Tasks {
  import opened Wrappers
  import opened Model

  /** What a handler returns: a payload or an error message. */
  type Outcome = Result<Params, string>

  /** A handler bound to a task type: the reference long-computation handler,
      or one whose behaviour is given as a function of the parameters. */
  datatype Handler =
    | LongComputation
    | External(run: Params -> Outcome)

  /** The type name the reference handler is registered under. */
  const LongComputationType: string := "long_computation"

  /** The duration used when the parameters give no usable one. */
  const DefaultDuration: real := 180.0

  /** The message of the reference handler's payload. */
  const CompletionMessage: string := "Long computation completed successfully"

  /** `params["duration"].(float64)` with the default: the number given
      under "duration", or 180 when the key is missing or holds anything
      but a number. */
  function Duration(params: Params): (d: real)
    ensures "duration" !in params ==> d == DefaultDuration
    ensures "duration" in params && !params["duration"].Number? ==> d == DefaultDuration
    ensures "duration" in params && params["duration"].Number? ==> d == params["duration"].n
  {
    if "duration" in params && params["duration"].Number? then params["duration"].n
    else DefaultDuration
  }

  /** `LongComputationHandler.Execute` without its sleep: always succeeds,
      with a payload of exactly two keys, the fixed message and the duration
      used. */
  function LongComputationExecute(params: Params): (r: Outcome)
    ensures r.Success?
    ensures r.value.Keys == {"message", "duration"}
    ensures r.value["message"] == Str(CompletionMessage)
    ensures r.value["duration"] == Number(Duration(params))
  {
    Success(map["message" := Str(CompletionMessage), "duration" := Number(Duration(params))])
  }

  /** Runs a handler on a task's parameters. */
  function Execute(h: Handler, params: Params): Outcome
  {
    match h
    case LongComputation => LongComputationExecute(params)
    case External(run) => run(params)
  }

  /** A long-computation task given no duration reports the default of 180. */
  lemma DefaultDurationPayload(params: Params)
    requires "duration" !in params
    ensures Execute(LongComputation, params) ==
      Success(map["message" := Str(CompletionMessage), "duration" := Number(180.0)])
  {
  }

  /** The table a new registry starts with. */
  function DefaultHandlers(): map<string, Handler>
  {
    map[LongComputationType := LongComputation]
  }

  class Registry {
    /** The handler registered for each type name. */
    var handlers: map<string, Handler>

    /** `NewRegistry`: registers the long-computation handler and nothing
        else. */
    constructor ()
      ensures handlers == DefaultHandlers()
      ensures forall t :: t in handlers <==> t == LongComputationType
    {
      handlers := map[];
      new;
      RegisterHandler(LongComputationType, LongComputation);
    }

    /** Binds `handler` to `taskType`, replacing any earlier binding; every
        other type keeps its binding. */
    method RegisterHandler(taskType: string, handler: Handler)
      modifies this
      ensures handlers == old(handlers)[taskType := handler]
    {
      handlers := handlers[taskType := handler];
    }

    /** Looks up the handler for `taskType` without changing the registry. */
    method GetHandler(taskType: string) returns (handler: Option<Handler>)
      ensures handler.Some? <==> taskType in handlers
      ensures handler.Some? ==> handler.value == handlers[taskType]
    {
      if taskType in handlers {
        handler := Some(handlers[taskType]);
      } else {
        handler := None;
      }
    }
  }

  /** After registering `h` for `t`, a lookup of `t` yields `h`, a lookup of
      any other type yields what it yielded before. */
  method RegisterThenGet(r: Registry, t: string, h: Handler, other: string)
    returns (got: Option<Handler>, gotOther: Option<Handler>)
    requires other != t
    modifies r
    ensures got == Some(h)
    ensures gotOther == (if other in old(r.handlers) then Some(old(r.handlers)[other]) else None)
  {
    r.RegisterHandler(t, h);
    got := r.GetHandler(t);
    gotOther := r.GetHandler(other);
  }
}
