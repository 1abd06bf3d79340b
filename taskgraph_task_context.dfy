/** The task context: the scope a running task sees (its id, its own state dict and
    the graph's global state dict), held in a context variable that a manager sets on
    enter and resets on exit. */
module TaskContexts {
  import opened Results
  import opened TaskValues

  /** The dict stored in the context variable while a task runs. */
  datatype TaskContext = TaskContext(taskId: string, taskState: Dict, globalState: Dict)

  /** The context variable: no context by default. */
  class ContextVar {
    var current: Option<TaskContext>

    constructor ()
      ensures current == None
    {
      current := None;
    }
  }

  /** The dicts an accessor may touch: the active context's global state. */
  function ActiveGlobal(cv: ContextVar): set<object>
    reads cv
  {
    if cv.current.Some? then {cv.current.value.globalState} else {}
  }

  /** get_current_task_context. */
  function GetCurrentTaskContext(cv: ContextVar): (r: Result<TaskContext, TaskError>)
    reads cv
    ensures r.Failure? <==> cv.current.None?
    ensures r.Failure? ==> r.error == NoActiveTaskContext
    ensures r.Success? ==> Some(r.value) == cv.current
  {
    match cv.current
    case None => Failure(NoActiveTaskContext)
    case Some(ctx) => Success(ctx)
  }

  /** get_global_state: the very dict object of the active context, not a copy. */
  function GetGlobalState(cv: ContextVar): (r: Result<Dict, TaskError>)
    reads cv
    ensures r.Failure? <==> cv.current.None?
    ensures r.Failure? ==> r.error == NoActiveTaskContext
    ensures r.Success? ==> r.value == cv.current.value.globalState
  {
    var ctx :- GetCurrentTaskContext(cv);
    Success(ctx.globalState)
  }

  /** get_global_state_value(key, default): the stored value when the key is present,
      otherwise the default. */
  function GetGlobalStateValue(cv: ContextVar, key: string, default: Value): (r: Result<Value, TaskError>)
    reads cv, ActiveGlobal(cv)
    ensures r.Failure? <==> cv.current.None?
    ensures r.Failure? ==> r.error == NoActiveTaskContext
    ensures r.Success? && key in cv.current.value.globalState.entries ==>
              r.value == cv.current.value.globalState.entries[key]
    ensures r.Success? && key !in cv.current.value.globalState.entries ==> r.value == default
  {
    var d :- GetGlobalState(cv);
    Success(d.Get(key, default))
  }

  /** set_global_state(key, value): store the value in the active global dict, then
      read it back and fail when it does not come back. */
  method SetGlobalState(cv: ContextVar, key: string, value: Value) returns (r: Outcome<TaskError>)
    modifies ActiveGlobal(cv)
    ensures cv.current.None? ==> r == Fail(NoActiveTaskContext)
    ensures cv.current.Some? ==>
              var d := cv.current.value.globalState;
              && d.entries == (if d.storesWrites then old(d.entries)[key := value] else old(d.entries))
              && (r.Pass? <==> d.Get(key, VNone) == value)
              && (r.Fail? ==> r.error == GlobalStateWriteFailed(key, value))
  {
    var got := GetGlobalState(cv);
    if got.Failure? {
      return Fail(got.error);
    }
    var d := got.value;
    d.Put(key, value);
    if d.Get(key, VNone) != value {
      return Fail(GlobalStateWriteFailed(key, value));
    }
    return Pass;
  }

  /** A write to a dict that stores writes always reads back, so set_global_state fails
      only on a dict that drops writes, and then exactly when the key does not already
      hold the value. */
  lemma SetGlobalStateFailsOnlyWhenDropped(d: map<string, Value>, storesWrites: bool, key: string, value: Value)
    ensures var after := if storesWrites then d[key := value] else d;
            var got := if key in after then after[key] else VNone;
            got != value <==> !storesWrites && (if key in d then d[key] else VNone) != value
  {
  }

  /** What the context variable's set hands back: the value to restore. */
  datatype Token = Token(previous: Option<TaskContext>)

  class TaskContextManager {
    const taskId: string
    const taskState: Dict
    const globalState: Dict
    var token: Option<Token>

    constructor Make(taskId: string, taskState: Dict, globalState: Dict)
      ensures this.taskId == taskId && this.taskState == taskState && this.globalState == globalState
      ensures token == None
    {
      this.taskId := taskId;
      this.taskState := taskState;
      this.globalState := globalState;
      token := None;
    }

    /** TaskContextManager(task_id, task_state, global_state): a None global state is
        refused with ValueError. */
    static method New(taskId: string, taskState: Dict, globalState: Option<Dict>)
      returns (r: Result<TaskContextManager, TaskError>)
      ensures globalState.None? <==> r.Failure?
      ensures r.Failure? ==> r.error == GlobalStateNone
      ensures r.Success? ==>
                && fresh(r.value) && r.value.token == None
                && r.value.taskId == taskId && r.value.taskState == taskState
                && r.value.globalState == globalState.value
    {
      if globalState.None? {
        return Failure(GlobalStateNone);
      }
      var m := new TaskContextManager.Make(taskId, taskState, globalState.value);
      return Success(m);
    }

    /** __enter__: the context now holds exactly this task's id and dicts; the token
        remembers what was active before. */
    method Enter(cv: ContextVar)
      modifies this, cv
      ensures cv.current == Some(TaskContext(taskId, taskState, globalState))
      ensures token == Some(Token(old(cv.current)))
    {
      token := Some(Token(cv.current));
      cv.current := Some(TaskContext(taskId, taskState, globalState));
    }

    /** __exit__: reset the context variable to what was active before enter. */
    method Exit(cv: ContextVar)
      requires token.Some?
      modifies cv
      ensures cv.current == token.value.previous
    {
      cv.current := token.value.previous;
    }
  }
}
