/** Values and mutable state containers shared by the task-graph modules: the
    values tasks pass around, the dict objects that hold global and per-task state,
    and the errors the task-graph package raises. */
module TaskValues {

  /** The values tasks yield and store. Strings and lists are iterable in Python;
      None, booleans and integers are not. */
  datatype Value =
    | VNone
    | VBool(b: bool)
    | VInt(n: int)
    | VStr(s: string)
    | VList(items: seq<Value>)

  /** A state dict with string keys, as an object: tasks and graphs share it by
      reference. `storesWrites` is false for a dict subclass whose item assignment
      silently keeps nothing (the case set_global_state checks for). */
  class Dict {
    var entries: map<string, Value>
    const storesWrites: bool

    constructor (entries: map<string, Value>, storesWrites: bool)
      ensures this.entries == entries && this.storesWrites == storesWrites
    {
      this.entries := entries;
      this.storesWrites := storesWrites;
    }

    /** dict.get(key, default). */
    function Get(key: string, default: Value): Value
      reads this
    {
      if key in entries then entries[key] else default
    }

    /** d[key] = value. */
    method Put(key: string, value: Value)
      modifies this
      ensures entries == if storesWrites then old(entries)[key := value] else old(entries)
    {
      if storesWrites {
        entries := entries[key := value];
      }
    }

    /** d.update(incoming): incoming keys overwrite, the others stay. */
    method Update(incoming: map<string, Value>)
      modifies this
      ensures entries == old(entries) + incoming
      ensures forall k :: k in old(entries) && k !in incoming ==> entries[k] == old(entries)[k]
    {
      entries := entries + incoming;
    }
  }

  /** The graph-state dict: task id to that task's state dict. */
  class StateTable {
    var entries: map<string, Dict>

    constructor (entries: map<string, Dict>)
      ensures this.entries == entries
    {
      this.entries := entries;
    }

    /** table.setdefault(key, {}): the existing dict for `key`, or a new empty one
        that is stored under `key`. */
    method SetDefault(key: string) returns (d: Dict)
      modifies this
      ensures key in old(entries) ==> d == old(entries)[key] && entries == old(entries)
      ensures key !in old(entries) ==>
                fresh(d) && d.entries == map[] && d.storesWrites && entries == old(entries)[key := d]
    {
      if key in entries {
        d := entries[key];
      } else {
        d := new Dict(map[], true);
        entries := entries[key := d];
      }
    }

    /** table.update(incoming). */
    method Update(incoming: map<string, Dict>)
      modifies this
      ensures entries == old(entries) + incoming
    {
      entries := entries + incoming;
    }
  }

  /** The exceptions of the task-graph package. */
  datatype TaskError =
    | NoActiveGraph                              // RuntimeError from GraphContext.current
    | PopFromEmptyStack                          // IndexError from GraphContext.pop
    | NoActiveTaskContext                        // TaskContextError
    | GlobalStateNone                            // ValueError from TaskContextManager
    | GlobalStateWriteFailed(key: string, value: Value)  // RuntimeError from set_global_state
    | StateNotADict                              // ValueError from the state setter and update_state
    | NoTaskId(taskName: string)                // NoTaskIdError
    | DuplicateTaskId(taskId: string, graph: string)     // DuplicateTaskIdError
    | HookAccessedTaskContext(hook: string)      // TaskContextError rewritten by the hook runner
    | Raised(message: string)                    // any exception raised by a task body or hook
}
