/** The task executor of src/executor.py: validate a task, dispatch it on its
    declared type, validate the handler's result. Exceptions become the
    `Raise` arm of an outcome; the class holds no state besides its validator,
    so every operation is a function. */
module TaskExecutor {

  /** A payload value as the executor sees it: absent/None, a string, or any
      other Python value, of which only its str() rendering matters here. */
  datatype PyValue = PyNone | PyStr(s: string) | PyOther(text: string)

  /** Python's str() of a payload value. */
  function Str(v: PyValue): string
  {
    match v
    case PyNone => "None"
    case PyStr(s) => s
    case PyOther(text) => text
  }

  type Payload = map<string, PyValue>

  /** A task object; its payload is what `get_payload()` returns. A falsy
      task (None, or an object whose truth value is false) is `None` of
      `Option<Task>`. */
  datatype Task = Task(payload: Payload)

  datatype Option<T> = None | Some(value: T)

  /** The exceptions the executor raises or lets through. */
  datatype PyException =
    | ValueError(message: string)
    | RuntimeError(message: string)
    | NotImplementedError(message: string)
    | OtherException(message: string)

  /** Python's str() of an exception: its message. */
  function Text(e: PyException): string
  {
    e.message
  }

  /** The result of an async call: a returned value or a raised exception. */
  datatype Outcome<T> = Ok(value: T) | Raise(exc: PyException)

  /** What `validator.validate_result(task, result)` does; src/validator.py
      is not part of this model, so the validator is a parameter. */
  type ResultValidator = (Task, Payload) -> Outcome<bool>

  /** The two handler methods, as a subclass may override them. */
  datatype Handlers = Handlers(browser: Task -> Outcome<Payload>, api: Task -> Outcome<Payload>)

  const ValidationFailed := "Task validation failed"
  const ResultValidationFailed := "Result validation failed"
  const ExecutionFailed := "Task execution failed: "
  const UnsupportedType := "Unsupported task type: "

  /** `validate_task`: passes exactly when the task is truthy and its payload
      is a non-empty dictionary. */
  function ValidateTask(task: Option<Task>): (ok: bool)
    ensures ok <==> task.Some? && |task.value.payload| > 0
  {
    !(task.None? || task.value.payload == map[])
  }

  /** `task.get_payload().get("type")`: None when the key is missing. */
  function TaskType(t: Task): (v: PyValue)
    ensures "type" !in t.payload ==> v == PyNone
    ensures "type" in t.payload ==> v == t.payload["type"]
  {
    if "type" in t.payload then t.payload["type"] else PyNone
  }

  /** `_handle_browser_task` as shipped: always raises NotImplementedError(). */
  function HandleBrowserTask(t: Task): (r: Outcome<Payload>)
    ensures r.Raise? && r.exc.NotImplementedError? && Text(r.exc) == ""
  {
    Raise(NotImplementedError(""))
  }

  /** `_handle_api_task` as shipped: always raises NotImplementedError(). */
  function HandleApiTask(t: Task): (r: Outcome<Payload>)
    ensures r.Raise? && r.exc.NotImplementedError? && Text(r.exc) == ""
  {
    Raise(NotImplementedError(""))
  }

  /** The handlers of `TaskExecutor` itself. */
  function ShippedHandlers(): Handlers
  {
    Handlers(HandleBrowserTask, HandleApiTask)
  }

  /** `_process_task`: the two-way type switch. */
  function ProcessTask(h: Handlers, t: Task): (r: Outcome<Payload>)
    ensures TaskType(t) == PyStr("browser") ==> r == h.browser(t)
    ensures TaskType(t) == PyStr("api") ==> r == h.api(t)
    ensures TaskType(t) !in {PyStr("browser"), PyStr("api")} ==>
              r == Raise(ValueError(UnsupportedType + Str(TaskType(t))))
  {
    match TaskType(t)
    case PyStr("browser") => h.browser(t)
    case PyStr("api") => h.api(t)
    case other => Raise(ValueError(UnsupportedType + Str(other)))
  }

  /** The body of the `try` in `execute`: dispatch, then gate the result on
      the validator. */
  function TryBody(h: Handlers, validate: ResultValidator, t: Task): (r: Outcome<Payload>)
    ensures r.Ok? <==> ProcessTask(h, t).Ok? && validate(t, ProcessTask(h, t).value) == Ok(true)
    ensures r.Ok? ==> r == ProcessTask(h, t)
  {
    match ProcessTask(h, t)
    case Raise(e) => Raise(e)
    case Ok(result) =>
      match validate(t, result)
      case Raise(e) => Raise(e)
      case Ok(valid) => if valid then Ok(result) else Raise(ValueError(ResultValidationFailed))
  }

  /** `execute`. A failed validation raises ValueError outside the `try` and
      escapes as it is; every exception inside the `try` surfaces as a
      RuntimeError carrying the original message; a result is returned only
      when the validator accepts it. */
  function Execute(h: Handlers, validate: ResultValidator, task: Option<Task>): (r: Outcome<Payload>)
    ensures !ValidateTask(task) ==> r == Raise(ValueError(ValidationFailed))
    ensures ValidateTask(task) && r.Raise? ==>
              && TryBody(h, validate, task.value).Raise?
              && r.exc == RuntimeError(ExecutionFailed + Text(TryBody(h, validate, task.value).exc))
    ensures r.Ok? ==> task.Some? && ProcessTask(h, task.value) == r
                      && validate(task.value, r.value) == Ok(true)
  {
    if !ValidateTask(task) then
      Raise(ValueError(ValidationFailed))
    else
      match TryBody(h, validate, task.value)
      case Ok(result) => Ok(result)
      case Raise(e) => Raise(RuntimeError(ExecutionFailed + Text(e)))
  }

  /** A task that fails validation reaches no handler and no validator: the
      outcome does not depend on them. */
  lemma ValidationPrecedesDispatch(h1: Handlers, v1: ResultValidator, h2: Handlers, v2: ResultValidator, task: Option<Task>)
    requires !ValidateTask(task)
    ensures Execute(h1, v1, task) == Execute(h2, v2, task) == Raise(ValueError(ValidationFailed))
  {
  }

  /** An unrecognised type (a missing one included) is wrapped, whatever the
      handlers and the validator do. */
  lemma UnsupportedTypeIsWrapped(h: Handlers, validate: ResultValidator, t: Task)
    requires |t.payload| > 0
    requires TaskType(t) != PyStr("browser") && TaskType(t) != PyStr("api")
    ensures Execute(h, validate, Some(t))
            == Raise(RuntimeError(ExecutionFailed + UnsupportedType + Str(TaskType(t))))
  {
  }

  /** A handler's exception is wrapped with its own message and the
      validator is never consulted. */
  lemma HandlerFailureIsWrapped(h: Handlers, v1: ResultValidator, v2: ResultValidator, t: Task)
    requires |t.payload| > 0
    requires ProcessTask(h, t).Raise?
    ensures Execute(h, v1, Some(t)) == Execute(h, v2, Some(t))
            == Raise(RuntimeError(ExecutionFailed + Text(ProcessTask(h, t).exc)))
  {
  }

  /** A result the validator rejects never escapes: it becomes the wrapped
      "Result validation failed". */
  lemma RejectedResultIsWrapped(h: Handlers, validate: ResultValidator, t: Task)
    requires |t.payload| > 0
    requires ProcessTask(h, t).Ok? && validate(t, ProcessTask(h, t).value) == Ok(false)
    ensures Execute(h, validate, Some(t)) == Raise(RuntimeError(ExecutionFailed + ResultValidationFailed))
  {
  }

  /** With the shipped handlers `execute` never returns normally: a valid task
      of type "browser" or "api" ends in RuntimeError("Task execution failed: ")
      (the str of NotImplementedError() is empty), any other valid task in the
      wrapped unsupported-type error, an invalid task in the bare ValueError. */
  lemma ShippedExecuteAlwaysRaises(validate: ResultValidator, task: Option<Task>)
    ensures Execute(ShippedHandlers(), validate, task) ==
      if !ValidateTask(task) then Raise(ValueError(ValidationFailed))
      else if TaskType(task.value) in {PyStr("browser"), PyStr("api")} then Raise(RuntimeError(ExecutionFailed))
      else Raise(RuntimeError(ExecutionFailed + UnsupportedType + Str(TaskType(task.value))))
  {
  }
}
