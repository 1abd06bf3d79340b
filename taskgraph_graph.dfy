/** Task nodes and graphs: nodes hold a body, keyword arguments and two-way edges;
    a graph owns its nodes, its state dicts and its end-of-execution hooks, and
    executes by draining every node's stream in registration order. */
module TaskGraph {
  import opened Results
  import opened TaskValues
  import opened GraphContextStack
  import opened TaskContexts

  // ---------------------------------------------------------------------------
  // Task bodies. A body is abstract: given its resolved keyword arguments it either
  // returns a value, reads the global state at call time, is a generator whose
  // steps run only when its stream is pulled, or raises.

  /** A keyword argument as passed to a node: a plain value or another node. */
  datatype Arg = Literal(value: Value) | NodeRef(node: TaskNode)

  /** A keyword argument as the body receives it: the plain value, or the items of
      the upstream node's stream. */
  datatype Resolved = Given(value: Value) | Stream(items: seq<Value>)

  /** One step of a generator body. */
  datatype Action =
    | Emit(item: Value)                    // yield a value
    | EmitGlobal(key: string)              // yield get_global_state_value(key)
    | SetGlobal(key: string, value: Value) // set_global_state(key, value)
    | SetTaskState(key: string, value: Value)  // ctx["task_state"][key] = value
    | Throw(message: string)               // raise

  datatype Behaviour =
    | Returns(result: Value)               // a plain function's return value
    | ReadsGlobal(key: string)             // a plain function returning get_global_state_value(key)
    | Generator(script: seq<Action>)       // a generator function
    | Raises(message: string)              // a plain function that raises

  type Body = seq<(string, Resolved)> -> Behaviour

  /** What iterating a returned value yields: a list its items, a string its
      characters, and anything that is not iterable the value itself, once. */
  function ItemsOf(v: Value): (items: seq<Value>)
    ensures v.VList? ==> items == v.items
    ensures v.VStr? ==> |items| == |v.s| && forall k :: 0 <= k < |items| ==> items[k] == VStr([v.s[k]])
    ensures !v.VList? && !v.VStr? ==> items == [v]
  {
    match v
    case VList(xs) => xs
    case VStr(s) => seq(|s|, k requires 0 <= k < |s| => VStr([s[k]]))
    case _ => [v]
  }

  /** The generator that re-yields a sequence of items. */
  function Emits(items: seq<Value>): (script: seq<Action>)
    ensures |script| == |items| && forall k :: 0 <= k < |items| ==> script[k] == Emit(items[k])
  {
    seq(|items|, k requires 0 <= k < |items| => Emit(items[k]))
  }

  // ---------------------------------------------------------------------------
  // What a generator body does while its stream is drained inside its task context.

  /** The contents of the global dict and of the task's own state dict. */
  datatype Stores = Stores(global: map<string, Value>, task: map<string, Value>)

  /** The items yielded, the final dict contents, and the error that ended the run. */
  datatype ScriptRun = ScriptRun(items: seq<Value>, stores: Stores, failure: Option<TaskError>)

  function GetOr(m: map<string, Value>, key: string, default: Value): Value {
    if key in m then m[key] else default
  }

  datatype StepResult = StepResult(item: Option<Value>, stores: Stores, failure: Option<TaskError>)

  /** One step against the dict contents. `aliased` says the task state and the global
      state are one dict, so a write to either shows in both. */
  function Step(a: Action, st: Stores, globalWrites: bool, taskWrites: bool, aliased: bool): (s: StepResult)
    ensures a.Emit? ==> s == StepResult(Some(a.item), st, None)
    ensures a.EmitGlobal? ==> s == StepResult(Some(GetOr(st.global, a.key, VNone)), st, None)
    ensures a.SetGlobal? ==> s.item.None? && (s.failure.Some? <==> GetOr(s.stores.global, a.key, VNone) != a.value)
    ensures a.SetGlobal? && globalWrites ==> s.stores.global == st.global[a.key := a.value] && s.failure.None?
    ensures a.SetTaskState? ==> s.item.None? && s.failure.None?
    ensures a.Throw? ==> s == StepResult(None, st, Some(Raised(a.message)))
  {
    match a
    case Emit(v) => StepResult(Some(v), st, None)
    case EmitGlobal(k) => StepResult(Some(GetOr(st.global, k, VNone)), st, None)
    case SetGlobal(k, v) =>
      var g := if globalWrites then st.global[k := v] else st.global;
      var t := if aliased then g else st.task;
      StepResult(None, Stores(g, t), if GetOr(g, k, VNone) != v then Some(GlobalStateWriteFailed(k, v)) else None)
    case SetTaskState(k, v) =>
      var t := if taskWrites then st.task[k := v] else st.task;
      var g := if aliased then t else st.global;
      StepResult(None, Stores(g, t), None)
    case Throw(m) => StepResult(None, st, Some(Raised(m)))
  }

  function ItemSeq(item: Option<Value>): seq<Value> {
    if item.Some? then [item.value] else []
  }

  /** Running the steps in order until one fails. */
  function RunScript(script: seq<Action>, st: Stores, globalWrites: bool, taskWrites: bool, aliased: bool): (r: ScriptRun)
    ensures r.failure.Some? ==> r.failure.value.Raised? || r.failure.value.GlobalStateWriteFailed?
    ensures (forall j :: 0 <= j < |script| ==> script[j].Emit? || script[j].EmitGlobal?)
            ==> r.stores == st && r.failure.None?
    decreases |script|
  {
    if |script| == 0 then ScriptRun([], st, None)
    else
      assert forall j :: 1 <= j < |script| ==> script[1..][j - 1] == script[j];
      var s := Step(script[0], st, globalWrites, taskWrites, aliased);
      if s.failure.Some? then ScriptRun(ItemSeq(s.item), s.stores, s.failure)
      else
        var rest := RunScript(script[1..], s.stores, globalWrites, taskWrites, aliased);
        rest.(items := ItemSeq(s.item) + rest.items)
  }

  /** A returned value's stream yields exactly its items and touches no dict. */
  lemma {:induction false} EmitsRun(items: seq<Value>, st: Stores, globalWrites: bool, taskWrites: bool, aliased: bool)
    ensures RunScript(Emits(items), st, globalWrites, taskWrites, aliased) == ScriptRun(items, st, None)
    decreases |items|
  {
    if |items| > 0 {
      assert Emits(items)[1..] == Emits(items[1..]);
      EmitsRun(items[1..], st, globalWrites, taskWrites, aliased);
      assert [items[0]] + items[1..] == items;
    }
  }

  /** The position of the first step that raises, or the length when none does. */
  function FirstThrow(script: seq<Action>): (k: nat)
    ensures k <= |script|
    ensures forall j :: 0 <= j < k ==> !script[j].Throw?
    ensures k < |script| ==> script[k].Throw?
    decreases |script|
  {
    if |script| == 0 then 0
    else if script[0].Throw? then 0
    else
      var k := FirstThrow(script[1..]);
      assert forall j :: 1 <= j < k + 1 ==> script[j] == script[1..][j - 1];
      k + 1
  }

  /** With a global dict that stores writes, a generator fails exactly when one of its
      steps raises, and then with the message of the first that does. */
  lemma {:induction false} RunScriptFailsOnlyByRaising(script: seq<Action>, st: Stores, taskWrites: bool, aliased: bool)
    requires aliased ==> taskWrites
    ensures var run := RunScript(script, st, true, taskWrites, aliased);
            && (run.failure.Some? <==> FirstThrow(script) < |script|)
            && (run.failure.Some? ==> run.failure.value == Raised(script[FirstThrow(script)].message))
    decreases |script|
  {
    if |script| > 0 && !script[0].Throw? {
      var s := Step(script[0], st, true, taskWrites, aliased);
      assert s.failure.None?;
      RunScriptFailsOnlyByRaising(script[1..], s.stores, taskWrites, aliased);
      var k := FirstThrow(script[1..]);
      if k < |script[1..]| {
        assert script[k + 1] == script[1..][k];
      }
    }
  }

  /** A value a producer writes to the global state is what a later read yields. */
  lemma WriteThenRead(key: string, value: Value, st: Stores, taskWrites: bool, aliased: bool)
    ensures RunScript([SetGlobal(key, value), EmitGlobal(key)], st, true, taskWrites, aliased).items == [value]
  {
    var s := Step(SetGlobal(key, value), st, true, taskWrites, aliased);
    assert [SetGlobal(key, value), EmitGlobal(key)][1..] == [EmitGlobal(key)];
    assert RunScript([EmitGlobal(key)], s.stores, true, taskWrites, aliased).items == [value];
  }

  /** A run yields at most one item per step. */
  lemma {:induction false} RunScriptItemsBounded(script: seq<Action>, st: Stores, globalWrites: bool,
                                                 taskWrites: bool, aliased: bool)
    ensures |RunScript(script, st, globalWrites, taskWrites, aliased).items| <= |script|
    decreases |script|
  {
    if |script| > 0 {
      var s := Step(script[0], st, globalWrites, taskWrites, aliased);
      RunScriptItemsBounded(script[1..], s.stores, globalWrites, taskWrites, aliased);
    }
  }

  /** Unfolding one step of a run that has reached position i. */
  lemma RunScriptAt(script: seq<Action>, i: int, st: Stores, globalWrites: bool, taskWrites: bool, aliased: bool)
    requires 0 <= i < |script|
    ensures var s := Step(script[i], st, globalWrites, taskWrites, aliased);
            RunScript(script[i..], st, globalWrites, taskWrites, aliased)
            == if s.failure.Some? then ScriptRun(ItemSeq(s.item), s.stores, s.failure)
               else var rest := RunScript(script[i + 1..], s.stores, globalWrites, taskWrites, aliased);
                    rest.(items := ItemSeq(s.item) + rest.items)
  {
    assert script[i..][0] == script[i];
    assert script[i..][1..] == script[i + 1..];
  }

  /** A run that has reached step i, with `out` yielded so far: a step that fails ends
      it there with that step's error, and after a step that does not fail the run
      carries on from step i + 1 with the step's item added to `out`. */
  lemma ResumeStep(script: seq<Action>, i: int, st: Stores, out: seq<Value>, globalWrites: bool, taskWrites: bool, aliased: bool)
    requires 0 <= i < |script|
    ensures var s := Step(script[i], st, globalWrites, taskWrites, aliased);
            var here := RunScript(script[i..], st, globalWrites, taskWrites, aliased);
            && (s.failure.Some? ==> here.(items := out + here.items) == ScriptRun(out + ItemSeq(s.item), s.stores, s.failure))
            && (s.failure.None? ==>
                  var next := RunScript(script[i + 1..], s.stores, globalWrites, taskWrites, aliased);
                  here.(items := out + here.items) == next.(items := (out + ItemSeq(s.item)) + next.items))
  {
    RunScriptAt(script, i, st, globalWrites, taskWrites, aliased);
    var s := Step(script[i], st, globalWrites, taskWrites, aliased);
    var next := RunScript(script[i + 1..], s.stores, globalWrites, taskWrites, aliased);
    assert out + (ItemSeq(s.item) + next.items) == (out + ItemSeq(s.item)) + next.items;
  }

  // ---------------------------------------------------------------------------
  // The current graph: the top of the graph context.

  function TopSet(stack: GraphContext<Graph>): set<Graph>
    reads stack
  {
    if |stack.stack| == 0 then {} else {stack.stack[|stack.stack| - 1]}
  }

  /** Entries are only ever added: every task keeps the state dict it had. */
  predicate Grows(before: map<string, Dict>, after: map<string, Dict>) {
    forall k :: k in before ==> k in after && after[k] == before[k]
  }

  /** The table is as it was, or has gained exactly the entry for one id. */
  predicate AddsAtMost(before: map<string, Dict>, after: map<string, Dict>, id: string) {
    || after == before
    || (id !in before && id in after && after == before[id := after[id]])
  }

  /** The body receives every keyword argument under its own name, literals unchanged
      and nodes replaced by their streams. */
  predicate ResolvesKwargs(kwargs: seq<(string, Arg)>, args: seq<(string, Resolved)>) {
    && |args| == |kwargs|
    && forall i :: 0 <= i < |kwargs| ==>
         && args[i].0 == kwargs[i].0
         && (kwargs[i].1.Literal? ==> args[i].1 == Given(kwargs[i].1.value))
         && (kwargs[i].1.NodeRef? ==> args[i].1.Stream?)
  }

  ghost function MaxRank(kwargs: seq<(string, Arg)>): (m: nat)
    ensures forall i :: 0 <= i < |kwargs| && kwargs[i].1.NodeRef? ==> kwargs[i].1.node.rank <= m
    decreases |kwargs|
  {
    if |kwargs| == 0 then 0
    else
      var rest := MaxRank(kwargs[1..]);
      var here := if kwargs[0].1.NodeRef? then kwargs[0].1.node.rank else 0;
      assert forall i :: 1 <= i < |kwargs| ==> kwargs[i] == kwargs[1..][i - 1];
      if here < rest then rest else here
  }

  /** `task_id or name`: an empty id falls back to the function's name. */
  function EffectiveId(taskId: string, name: string): (id: string)
    ensures taskId != "" ==> id == taskId
    ensures taskId == "" ==> id == name
  {
    if taskId == "" then name else taskId
  }

  // ---------------------------------------------------------------------------
  // What executing nodes does, stated over an abstract view of the state dicts.

  /** A state dict as execution sees it: one that existed before, or the one that
      setdefault created for a task id that had none. */
  datatype Handle = Existing(dict: Dict) | Created(owner: string)

  /** Whether item assignment on the dict keeps the value; a created dict is a plain {}. */
  function HandleWrites(h: Handle): bool {
    if h.Existing? then h.dict.storesWrites else true
  }

  /** The graph-state table, from task id to dict, and the contents of the dicts. */
  datatype World = World(table: map<string, Handle>, contents: map<Handle, map<string, Value>>)

  function ContentsOf(w: World, h: Handle): map<string, Value> {
    if h in w.contents then w.contents[h] else map[]
  }

  /** Where a node executes: the current graph's global dict (None when no graph is
      active) and the global dict of the task context active around it, if any. */
  datatype Env = Env(global: Option<Dict>, outer: Option<Dict>)

  /** A result together with the state it leaves. */
  datatype Ran<T> = Ran(result: Result<T, TaskError>, world: World)

  /** graph_state.setdefault(task_id, {}). */
  function SetDefaultIn(w: World, taskId: string): (w': World)
    ensures taskId in w'.table
    ensures taskId in w.table ==> w' == w
    ensures taskId !in w.table ==> w'.table == w.table[taskId := Created(taskId)]
  {
    if taskId in w.table then w
    else World(w.table[taskId := Created(taskId)], w.contents[Created(taskId) := map[]])
  }

  /** The generator wrapper: the steps run against the task's dict from setdefault and
      the graph's global dict, whose new contents the state records. */
  function DrainIn(taskId: string, script: seq<Action>, global: Dict, w: World): (r: Ran<seq<Value>>)
    ensures r.world.table == if taskId in w.table then w.table else w.table[taskId := Created(taskId)]
  {
    var w1 := SetDefaultIn(w, taskId);
    var h := w1.table[taskId];
    var g := Existing(global);
    var run := RunScript(script, Stores(ContentsOf(w1, g), ContentsOf(w1, h)), global.storesWrites,
                         HandleWrites(h), h == g);
    Ran(if run.failure.None? then Success(run.items) else Failure(run.failure.value),
        World(w1.table, w1.contents[g := run.stores.global][h := run.stores.task]))
  }

  /** Calling the body with its resolved arguments, then draining what it gives inside
      the task context. A body that reads the global state does so at call time,
      through the context active around the execution. */
  function CallIn(n: TaskNode, args: seq<(string, Resolved)>, global: Dict, outer: Option<Dict>, w: World): (r: Ran<seq<Value>>)
    ensures r.result.Success? ==> n.taskId in r.world.table
    ensures n.fn(args).Raises? ==> r == Ran(Failure(Raised(n.fn(args).message)), w)
  {
    match n.fn(args)
    case Raises(m) => Ran(Failure(Raised(m)), w)
    case ReadsGlobal(k) =>
      if outer.None? then Ran(Failure(NoActiveTaskContext), w)
      else DrainIn(n.taskId, Emits(ItemsOf(GetOr(ContentsOf(w, Existing(outer.value)), k, VNone))), global, w)
    case Returns(v) => DrainIn(n.taskId, Emits(ItemsOf(v)), global, w)
    case Generator(script) => DrainIn(n.taskId, script, global, w)
  }

  /** execute: resolve the keyword arguments, find the current graph, call the body. */
  ghost function NodeRun(n: TaskNode, env: Env, w: World): (r: Ran<seq<Value>>)
    requires n.Ranked()
    ensures r.result.Success? ==> n.taskId in r.world.table
    decreases n.rank, 1, 0
  {
    var args := ResolveRun(n, |n.kwargs|, env, w);
    if args.result.Failure? then Ran(Failure(args.result.error), args.world)
    else CallInEnv(n, args.result.value, env, args.world)
  }

  /** The rest of execute once the arguments are resolved: look up the current graph,
      then call the body. */
  function CallInEnv(n: TaskNode, args: seq<(string, Resolved)>, env: Env, w: World): (r: Ran<seq<Value>>)
    ensures env.global.None? ==> r == Ran(Failure(NoActiveGraph), w)
    ensures r.result.Success? ==> n.taskId in r.world.table
  {
    if env.global.None? then Ran(Failure(NoActiveGraph), w)
    else CallIn(n, args, env.global.value, env.outer, w)
  }

  /** The first i keyword arguments resolved in order: a literal as given, a node by
      executing it and taking its stream; the first failure stops the resolution. */
  ghost function ResolveRun(n: TaskNode, i: nat, env: Env, w: World): (r: Ran<seq<(string, Resolved)>>)
    requires n.Ranked() && i <= |n.kwargs|
    ensures r.result.Success? ==> |r.result.value| == i
    decreases n.rank, 0, i
  {
    if i == 0 then Ran(Success([]), w)
    else
      var before := ResolveRun(n, i - 1, env, w);
      if before.result.Failure? then before
      else
        var key := n.kwargs[i - 1].0;
        match n.kwargs[i - 1].1
        case Literal(v) => Ran(Success(before.result.value + [(key, Given(v))]), before.world)
        case NodeRef(m) =>
          var sub := NodeRun(m, env, before.world);
          if sub.result.Failure? then Ran(Failure(sub.result.error), sub.world)
          else Ran(Success(before.result.value + [(key, Stream(sub.result.value))]), sub.world)
  }

  /** One more argument of a resolution that has succeeded so far. */
  lemma ResolveRunNext(n: TaskNode, i: nat, env: Env, w: World, resolved: seq<(string, Resolved)>, w0: World)
    requires n.Ranked() && i < |n.kwargs| && ResolveRun(n, i, env, w) == Ran(Success(resolved), w0)
    ensures n.kwargs[i].1.Literal? ==>
              ResolveRun(n, i + 1, env, w) == Ran(Success(resolved + [(n.kwargs[i].0, Given(n.kwargs[i].1.value))]), w0)
    ensures n.kwargs[i].1.NodeRef? ==>
              var sub := NodeRun(n.kwargs[i].1.node, env, w0);
              ResolveRun(n, i + 1, env, w)
              == if sub.result.Failure? then Ran(Failure(sub.result.error), sub.world)
                 else Ran(Success(resolved + [(n.kwargs[i].0, Stream(sub.result.value))]), sub.world)
  {
  }

  /** Once an argument fails, the resolution has failed for good. */
  lemma {:induction false} ResolveRunStops(n: TaskNode, i: nat, j: nat, env: Env, w: World)
    requires n.Ranked() && i <= j <= |n.kwargs| && ResolveRun(n, i, env, w).result.Failure?
    ensures ResolveRun(n, j, env, w) == ResolveRun(n, i, env, w)
    decreases j - i
  {
    if i < j {
      ResolveRunStops(n, i, j - 1, env, w);
    }
  }

  /** The outcome of a graph's node loop: the error that stopped it, how many nodes
      finished, and the state left. */
  datatype NodesRun = NodesRun(failure: Option<TaskError>, drained: nat, world: World)

  /** The nodes executed in order, each from the state the previous one left, until one
      fails. */
  ghost function RunAll(nodes: seq<TaskNode>, env: Env, w: World): (r: NodesRun)
    requires forall k :: 0 <= k < |nodes| ==> nodes[k].Ranked()
    ensures r.drained <= |nodes| && (r.failure.None? <==> r.drained == |nodes|)
    decreases |nodes|
  {
    if |nodes| == 0 then NodesRun(None, 0, w)
    else
      var first := NodeRun(nodes[0], env, w);
      if first.result.Failure? then NodesRun(Some(first.result.error), 0, first.world)
      else
        var rest := RunAll(nodes[1..], env, first.world);
        NodesRun(rest.failure, rest.drained + 1, rest.world)
  }

  /** Argument j as the body receives it: under its own name, a literal as given, a
      node as the stream its own execution yields from the state the earlier
      arguments left. */
  ghost predicate ResolvedAt(n: TaskNode, j: nat, env: Env, w: World, arg: (string, Resolved))
    requires n.Ranked() && j < |n.kwargs|
  {
    && arg.0 == n.kwargs[j].0
    && match n.kwargs[j].1
       case Literal(v) => arg.1 == Given(v)
       case NodeRef(m) =>
         var sub := NodeRun(m, env, ResolveRun(n, j, env, w).world);
         sub.result.Success? && arg.1 == Stream(sub.result.value)
  }

  /** A successful resolution gives every argument in order, each node argument
      replaced by that node's own output. */
  lemma {:induction false} ResolveRunSpec(n: TaskNode, i: nat, env: Env, w: World)
    requires n.Ranked() && i <= |n.kwargs| && ResolveRun(n, i, env, w).result.Success?
    ensures var args := ResolveRun(n, i, env, w).result.value;
            |args| == i && forall j :: 0 <= j < i ==> ResolvedAt(n, j, env, w, args[j])
    decreases i
  {
    if i > 0 {
      var before := ResolveRun(n, i - 1, env, w);
      assert before.result.Success?;
      ResolveRunSpec(n, i - 1, env, w);
      var args := ResolveRun(n, i, env, w).result.value;
      assert args[..i - 1] == before.result.value;
      forall j | 0 <= j < i ensures ResolvedAt(n, j, env, w, args[j]) {
        if j < i - 1 {
          assert args[j] == before.result.value[j];
        }
      }
    }
  }

  /** All keyword arguments resolved: the body gets them as ResolvesKwargs says. */
  lemma ResolveRunKwargs(n: TaskNode, env: Env, w: World)
    requires n.Ranked() && ResolveRun(n, |n.kwargs|, env, w).result.Success?
    ensures ResolvesKwargs(n.kwargs, ResolveRun(n, |n.kwargs|, env, w).result.value)
  {
    ResolveRunSpec(n, |n.kwargs|, env, w);
    var args := ResolveRun(n, |n.kwargs|, env, w).result.value;
    forall j | 0 <= j < |n.kwargs| ensures args[j].0 == n.kwargs[j].0 && (n.kwargs[j].1.NodeRef? ==> args[j].1.Stream?) {
      assert ResolvedAt(n, j, env, w, args[j]);
    }
  }

  /** Outside a graph a node fails with NoActiveGraph and leaves every dict as it was:
      its node arguments fail the same way before any body is called. */
  lemma {:induction false} NodeRunWithoutGraph(n: TaskNode, env: Env, w: World)
    requires n.Ranked() && env.global.None?
    ensures NodeRun(n, env, w) == Ran(Failure(NoActiveGraph), w)
    decreases n.rank, 1, 0
  {
    ResolveRunWithoutGraph(n, |n.kwargs|, env, w);
  }

  lemma {:induction false} ResolveRunWithoutGraph(n: TaskNode, i: nat, env: Env, w: World)
    requires n.Ranked() && i <= |n.kwargs| && env.global.None?
    ensures var r := ResolveRun(n, i, env, w);
            r.world == w && (r.result.Failure? ==> r.result.error == NoActiveGraph)
    decreases n.rank, 0, i
  {
    if i > 0 {
      ResolveRunWithoutGraph(n, i - 1, env, w);
      var before := ResolveRun(n, i - 1, env, w);
      if before.result.Success? && n.kwargs[i - 1].1.NodeRef? {
        NodeRunWithoutGraph(n.kwargs[i - 1].1.node, env, w);
      }
    }
  }

  /** What calling a body gives: a raise is that error, reading the global state
      without an active task context is TaskContextError, and a returned value (or one
      read from the global state) is drained as its items. */
  lemma CallInBehaviour(n: TaskNode, args: seq<(string, Resolved)>, global: Dict, outer: Option<Dict>, w: World)
    ensures var r := CallIn(n, args, global, outer, w);
            match n.fn(args)
            case Raises(m) => r == Ran(Failure(Raised(m)), w)
            case ReadsGlobal(k) =>
              if outer.None? then r == Ran(Failure(NoActiveTaskContext), w)
              else r.result == Success(ItemsOf(GetOr(ContentsOf(w, Existing(outer.value)), k, VNone)))
            case Returns(v) => r.result == Success(ItemsOf(v))
            case Generator(script) => r.result.Success? ==> |r.result.value| <= |script|
  {
    var w1 := SetDefaultIn(w, n.taskId);
    var h := w1.table[n.taskId];
    var st := Stores(ContentsOf(w1, Existing(global)), ContentsOf(w1, h));
    match n.fn(args)
    case Raises(m) =>
    case ReadsGlobal(k) =>
      if outer.Some? {
        EmitsRun(ItemsOf(GetOr(ContentsOf(w, Existing(outer.value)), k, VNone)), st, global.storesWrites,
                 HandleWrites(h), h == Existing(global));
      }
    case Returns(v) =>
      EmitsRun(ItemsOf(v), st, global.storesWrites, HandleWrites(h), h == Existing(global));
    case Generator(script) =>
      RunScriptItemsBounded(script, st, global.storesWrites, HandleWrites(h), h == Existing(global));
  }

  /** Every id keeps the dict it had: execution only adds entries to the table. */
  predicate TableKept(w: World, w': World) {
    forall t :: t in w.table ==> t in w'.table && w'.table[t] == w.table[t]
  }

  /** Calling a body keeps every id's dict. */
  lemma CallInKeepsTable(n: TaskNode, args: seq<(string, Resolved)>, global: Dict, outer: Option<Dict>, w: World)
    ensures TableKept(w, CallIn(n, args, global, outer, w).world)
  {
  }

  /** Executing a node, and resolving its arguments, keeps every id's dict. */
  lemma {:induction false} NodeRunKeepsTable(n: TaskNode, env: Env, w: World)
    requires n.Ranked()
    ensures TableKept(w, NodeRun(n, env, w).world)
    decreases n.rank, 1, 0
  {
    ResolveRunKeepsTable(n, |n.kwargs|, env, w);
    var args := ResolveRun(n, |n.kwargs|, env, w);
    if args.result.Success? && env.global.Some? {
      CallInKeepsTable(n, args.result.value, env.global.value, env.outer, args.world);
    }
  }

  lemma {:induction false} ResolveRunKeepsTable(n: TaskNode, i: nat, env: Env, w: World)
    requires n.Ranked() && i <= |n.kwargs|
    ensures TableKept(w, ResolveRun(n, i, env, w).world)
    decreases n.rank, 0, i
  {
    if i > 0 {
      ResolveRunKeepsTable(n, i - 1, env, w);
      var before := ResolveRun(n, i - 1, env, w);
      if before.result.Success? && n.kwargs[i - 1].1.NodeRef? {
        NodeRunKeepsTable(n.kwargs[i - 1].1.node, env, before.world);
      }
    }
  }

  /** Running a graph's nodes keeps every id's dict. */
  lemma {:induction false} RunAllKeepsTable(nodes: seq<TaskNode>, env: Env, w: World)
    requires forall k :: 0 <= k < |nodes| ==> nodes[k].Ranked()
    ensures TableKept(w, RunAll(nodes, env, w).world)
    decreases |nodes|
  {
    if |nodes| > 0 {
      NodeRunKeepsTable(nodes[0], env, w);
      var first := NodeRun(nodes[0], env, w);
      if first.result.Success? {
        RunAllKeepsTable(nodes[1..], env, first.world);
      }
    }
  }

  /** The state node k starts from when the nodes before it have all succeeded. */
  ghost function WorldBefore(nodes: seq<TaskNode>, k: nat, env: Env, w: World): World
    requires k <= |nodes| && forall j :: 0 <= j < |nodes| ==> nodes[j].Ranked()
    decreases k
  {
    if k == 0 then w else WorldBefore(nodes[1..], k - 1, env, NodeRun(nodes[0], env, w).world)
  }

  /** The nodes run in registration order: every node before the drained count
      succeeds from the state its predecessors left; a failure is the error of the
      node at the drained count; a full run ends in the state the last node left. */
  lemma {:induction false} RunAllInOrder(nodes: seq<TaskNode>, env: Env, w: World)
    requires forall j :: 0 <= j < |nodes| ==> nodes[j].Ranked()
    ensures var r := RunAll(nodes, env, w);
            && (forall k :: 0 <= k < r.drained ==> NodeRun(nodes[k], env, WorldBefore(nodes, k, env, w)).result.Success?)
            && (r.failure.None? ==> r.world == WorldBefore(nodes, |nodes|, env, w))
            && (r.failure.Some? ==>
                  NodeRun(nodes[r.drained], env, WorldBefore(nodes, r.drained, env, w)) == Ran(Failure(r.failure.value), r.world))
    decreases |nodes|
  {
    if |nodes| > 0 {
      var first := NodeRun(nodes[0], env, w);
      if first.result.Success? {
        var rest := nodes[1..];
        RunAllInOrder(rest, env, first.world);
        var r := RunAll(nodes, env, w);
        forall k | 0 < k <= |nodes|
          ensures WorldBefore(nodes, k, env, w) == WorldBefore(rest, k - 1, env, first.world)
        {
        }
        forall k | 0 < k < r.drained
          ensures NodeRun(nodes[k], env, WorldBefore(nodes, k, env, w)).result.Success?
        {
          assert nodes[k] == rest[k - 1];
        }
        if r.failure.Some? {
          assert nodes[r.drained] == rest[r.drained - 1];
        }
      }
    }
  }

  /** A run of the later nodes, counted from the start of the list. */
  function Shifted(r: NodesRun, i: nat): NodesRun {
    NodesRun(r.failure, r.drained + i, r.world)
  }

  /** One more node of a run that has reached position i: a failure ends the run there
      with the node's error, a success moves the run on to the next position. */
  lemma RunAllNext(nodes: seq<TaskNode>, i: nat, env: Env, w: World, total: NodesRun, first: Ran<seq<Value>>)
    requires i < |nodes| && forall k :: 0 <= k < |nodes| ==> nodes[k].Ranked()
    requires total == Shifted(RunAll(nodes[i..], env, w), i) && first == NodeRun(nodes[i], env, w)
    ensures first.result.Failure? ==> total == NodesRun(Some(first.result.error), i, first.world)
    ensures first.result.Success? ==> total == Shifted(RunAll(nodes[i + 1..], env, first.world), i + 1)
  {
    assert nodes[i..][0] == nodes[i];
    assert nodes[i..][1..] == nodes[i + 1..];
  }

  /** A run that has reached the end has drained every node. */
  lemma RunAllDone(nodes: seq<TaskNode>, env: Env, w: World)
    requires forall k :: 0 <= k < |nodes| ==> nodes[k].Ranked()
    ensures RunAll(nodes[|nodes|..], env, w) == NodesRun(None, 0, w)
  {
    assert nodes[|nodes|..] == [];
  }

  /** The dicts the environment names outside the graph-state table. */
  function OuterSet(outer: Option<Dict>): set<Dict> {
    if outer.Some? then {outer.value} else {}
  }

  /** The dicts execution can touch: the global dict, the outer one and the table's. */
  function DictsOf(g: Graph, outer: Option<Dict>): set<Dict>
    reads g, g.graphState
  {
    {g.globalState} + OuterSet(outer) + g.graphState.entries.Values
  }

  /** The contents of the given dicts as they stand. */
  function ContentsIn(ds: set<Dict>): map<Dict, map<string, Value>>
    reads ds
  {
    map d | d in ds :: d.entries
  }

  /** The entry of id t holds what the abstract state says: its dict's contents are
      recorded, an existing handle is the very dict stored, and a created dict is a
      plain {} shared with no other id, the global dict or the outer dict. */
  ghost predicate EntryHolds(global: Dict, outer: Option<Dict>, table: map<string, Dict>,
                             heap: map<Dict, map<string, Value>>, w: World, t: string)
  {
    && t in table && t in w.table
    && table[t] in heap && w.table[t] in w.contents && w.contents[w.table[t]] == heap[table[t]]
    && (w.table[t].Existing? ==> w.table[t].dict == table[t])
    && (w.table[t].Created? ==>
          && w.table[t].owner == t && table[t].storesWrites && table[t] != global
          && (outer.Some? ==> table[t] != outer.value)
          && table[t] !in (table - {t}).Values)
  }

  /** A snapshot of the heap (the table, and every dict's contents) holds what the
      abstract state says: the global and outer dicts' contents are recorded, the
      table has the same ids, and every entry holds. */
  ghost predicate Holds(global: Dict, outer: Option<Dict>, table: map<string, Dict>,
                        heap: map<Dict, map<string, Value>>, w: World)
  {
    && global in heap && (outer.Some? ==> outer.value in heap)
    && Existing(global) in w.contents && w.contents[Existing(global)] == heap[global]
    && (outer.Some? ==> Existing(outer.value) in w.contents && w.contents[Existing(outer.value)] == heap[outer.value])
    && w.table.Keys == table.Keys
    && forall t :: t in w.table ==> EntryHolds(global, outer, table, heap, w, t)
  }

  /** The entry of id t holds what the abstract state says, read from the heap. */
  ghost predicate EntryModels(g: Graph, outer: Option<Dict>, w: World, t: string)
    reads g, g.graphState, if t in g.graphState.entries then {g.graphState.entries[t]} else {}
  {
    && t in g.graphState.entries && t in w.table
    && w.table[t] in w.contents && w.contents[w.table[t]] == g.graphState.entries[t].entries
    && (w.table[t].Existing? ==> w.table[t].dict == g.graphState.entries[t])
    && (w.table[t].Created? ==>
          && w.table[t].owner == t && g.graphState.entries[t].storesWrites
          && g.graphState.entries[t] != g.globalState
          && (outer.Some? ==> g.graphState.entries[t] != outer.value)
          && g.graphState.entries[t] !in (g.graphState.entries - {t}).Values)
  }

  /** The heap holds what the abstract state says: the global and outer dicts' contents
      are recorded, the table has the same ids, and every entry holds. */
  ghost predicate Models(g: Graph, outer: Option<Dict>, w: World)
    reads g, g.graphState, g.graphState.entries.Values, g.globalState, OuterSet(outer)
  {
    && Existing(g.globalState) in w.contents && w.contents[Existing(g.globalState)] == g.globalState.entries
    && (outer.Some? ==> Existing(outer.value) in w.contents && w.contents[Existing(outer.value)] == outer.value.entries)
    && w.table.Keys == g.graphState.entries.Keys
    && forall t :: t in w.table ==> EntryModels(g, outer, w, t)
  }

  /** The heap read directly and through a snapshot of its contents agree. */
  lemma ModelsIsHolds(g: Graph, outer: Option<Dict>, w: World)
    ensures Models(g, outer, w) <==> Holds(g.globalState, outer, g.graphState.entries, ContentsIn(DictsOf(g, outer)), w)
  {
    var heap := ContentsIn(DictsOf(g, outer));
    forall t | t in w.table && t in g.graphState.entries
      ensures EntryModels(g, outer, w, t) <==> EntryHolds(g.globalState, outer, g.graphState.entries, heap, w, t)
    {
      assert g.graphState.entries[t] in heap;
    }
  }

  /** Storing a new key adds its value to the map's values. */
  lemma ValuesAfterAdd<K, V>(m: map<K, V>, k: K, v: V)
    requires k !in m
    ensures m[k := v].Values == m.Values + {v}
  {
    forall x | x in m[k := v].Values ensures x in m.Values + {v} {
      var j :| j in m[k := v] && m[k := v][j] == x;
      if j != k {
        assert m[j] == x;
      }
    }
    forall x | x in m.Values ensures x in m[k := v].Values {
      var j :| j in m && m[j] == x;
      assert m[k := v][j] == x;
    }
    assert m[k := v][k] == v;
  }

  /** setdefault keeps the abstract state in step: a new id gets a created dict that
      nothing else shares. */
  lemma HoldsAfterSetDefault(global: Dict, outer: Option<Dict>, table: map<string, Dict>,
                             heap: map<Dict, map<string, Value>>, w: World, taskId: string, d: Dict)
    requires Holds(global, outer, table, heap, w) && taskId !in table
    requires d !in heap && d.storesWrites
    ensures Holds(global, outer, table[taskId := d], heap[d := map[]], SetDefaultIn(w, taskId))
  {
    var w1 := SetDefaultIn(w, taskId);
    var table1 := table[taskId := d];
    var heap1 := heap[d := map[]];
    forall t | t in w1.table
      ensures EntryHolds(global, outer, table1, heap1, w1, t)
    {
      if t == taskId {
        assert table1 - {taskId} == table;
        assert d !in table.Values by {
          forall u | u in table ensures table[u] != d {
            assert EntryHolds(global, outer, table, heap, w, u);
          }
        }
      } else {
        assert EntryHolds(global, outer, table, heap, w, t);
        if w.table[t].Created? {
          assert table1 - {t} == (table - {t})[taskId := d];
          ValuesAfterAdd(table - {t}, taskId, d);
        }
      }
    }
  }

  /** Running the steps keeps the abstract state in step: the global dict and the task's
      dict get their new contents, every other dict keeps its own. */
  lemma HoldsAfterRun(global: Dict, outer: Option<Dict>, table: map<string, Dict>,
                      heap: map<Dict, map<string, Value>>, w: World, taskId: string,
                      globalAfter: map<string, Value>, taskAfter: map<string, Value>)
    requires Holds(global, outer, table, heap, w) && taskId in table
    requires table[taskId] == global ==> globalAfter == taskAfter
    ensures (w.table[taskId] == Existing(global)) == (table[taskId] == global)
    ensures Holds(global, outer, table, heap[global := globalAfter][table[taskId] := taskAfter],
                  World(w.table, w.contents[Existing(global) := globalAfter][w.table[taskId] := taskAfter]))
  {
    var h := w.table[taskId];
    var state := table[taskId];
    var heap' := heap[global := globalAfter][state := taskAfter];
    var w' := World(w.table, w.contents[Existing(global) := globalAfter][h := taskAfter]);
    assert EntryHolds(global, outer, table, heap, w, taskId);
    forall t | t in w'.table
      ensures EntryHolds(global, outer, table, heap', w', t)
    {
      assert EntryHolds(global, outer, table, heap, w, t);
      if w.table[t] != h && w.table[t] != Existing(global) {
        if w.table[t].Created? {
          assert (table - {t})[taskId] == state;
        } else if h.Created? {
          assert (table - {taskId})[t] == table[t];
        }
      }
    }
  }

  /** After setdefault, the abstract state with the id's handle is what the heap holds,
      and the handle's contents, write behaviour and aliasing are the dict's. */
  lemma TakeRecorded(g: Graph, outer: Option<Dict>, w: World, table: map<string, Dict>,
                     heap: map<Dict, map<string, Value>>, taskId: string)
    requires Holds(g.globalState, outer, table, heap, w)
    requires heap.Keys == {g.globalState} + OuterSet(outer) + table.Values
    requires forall d :: d in heap ==> d.entries == heap[d]
    requires taskId in table ==> g.graphState.entries == table
    requires taskId !in table ==>
               && taskId in g.graphState.entries && g.graphState.entries == table[taskId := g.graphState.entries[taskId]]
               && g.graphState.entries[taskId] !in heap && g.graphState.entries[taskId].entries == map[]
               && g.graphState.entries[taskId].storesWrites
    ensures var w1 := SetDefaultIn(w, taskId);
            && Models(g, outer, w1) && taskId in g.graphState.entries
            && var state := g.graphState.entries[taskId];
               && ContentsOf(w1, Existing(g.globalState)) == g.globalState.entries
               && ContentsOf(w1, w1.table[taskId]) == state.entries
               && HandleWrites(w1.table[taskId]) == state.storesWrites
               && (w1.table[taskId] == Existing(g.globalState)) == (state == g.globalState)
  {
    var w1 := SetDefaultIn(w, taskId);
    var heap1 := ContentsIn(DictsOf(g, outer));
    if taskId in table {
      assert heap1 == heap;
    } else {
      var state := g.graphState.entries[taskId];
      ValuesAfterAdd(table, taskId, state);
      assert heap1 == heap[state := map[]];
      HoldsAfterSetDefault(g.globalState, outer, table, heap, w, taskId, state);
    }
    ModelsIsHolds(g, outer, w1);
    assert EntryModels(g, outer, w1, taskId);
  }

  /** After the steps have run, the abstract state with the global dict's and the task
      dict's new contents is what the heap holds: every other dict kept the contents
      of the snapshot taken before. */
  lemma RecordRun(g: Graph, outer: Option<Dict>, w: World, heap: map<Dict, map<string, Value>>, taskId: string)
    requires Holds(g.globalState, outer, g.graphState.entries, heap, w) && taskId in g.graphState.entries
    requires heap.Keys == DictsOf(g, outer)
    requires forall d :: d in heap && d != g.globalState && d != g.graphState.entries[taskId] ==> d.entries == heap[d]
    ensures Models(g, outer, World(w.table, w.contents[Existing(g.globalState) := g.globalState.entries]
                                                      [w.table[taskId] := g.graphState.entries[taskId].entries]))
  {
    var state := g.graphState.entries[taskId];
    HoldsAfterRun(g.globalState, outer, g.graphState.entries, heap, w, taskId,
                  g.globalState.entries, state.entries);
    var w' := World(w.table, w.contents[Existing(g.globalState) := g.globalState.entries][w.table[taskId] := state.entries]);
    var dicts := DictsOf(g, outer);
    assert ContentsIn(dicts) == heap[g.globalState := g.globalState.entries][state := state.entries];
    ModelsIsHolds(g, outer, w');
  }

  /** An id whose handle names an existing dict still has that very dict. */
  lemma KeptEntries(g: Graph, outer: Option<Dict>, w: World, before: map<string, Dict>)
    requires Models(g, outer, w)
    requires forall t :: t in before ==> t in w.table && w.table[t] == Existing(before[t])
    ensures Grows(before, g.graphState.entries)
  {
    forall t | t in before ensures t in g.graphState.entries && g.graphState.entries[t] == before[t] {
      assert EntryModels(g, outer, w, t);
    }
  }

  /** The abstract state of a graph as it stands: every dict is an existing one. */
  ghost function Abstract(g: Graph, outer: Option<Dict>): (w: World)
    reads g, g.graphState, g.graphState.entries.Values, g.globalState, OuterSet(outer)
    ensures Models(g, outer, w)
  {
    var dicts := DictsOf(g, outer);
    World(map t | t in g.graphState.entries :: Existing(g.graphState.entries[t]),
          map d | d in dicts :: Existing(d) := d.entries)
  }

  class TaskNode {
    const name: string
    const taskId: string
    const fn: Body
    const kwargs: seq<(string, Arg)>
    /** Upstream nodes always exist before their downstream node, so ranks decrease
        along keyword arguments and execution terminates. */
    ghost const rank: nat
    var upstream: set<TaskNode>
    var downstream: set<TaskNode>

    ghost predicate Ranked()
      decreases rank
    {
      forall i :: 0 <= i < |kwargs| && kwargs[i].1.NodeRef? ==>
        kwargs[i].1.node.rank < rank && kwargs[i].1.node.Ranked()
    }

    /** TaskNode(name, fn, kwargs, task_id): the id defaults to the name when it is
        missing or empty; both edge sets start empty. */
    constructor (name: string, fn: Body, kwargs: seq<(string, Arg)>, taskId: Option<string>)
      requires forall i :: 0 <= i < |kwargs| && kwargs[i].1.NodeRef? ==> kwargs[i].1.node.Ranked()
      ensures this.name == name && this.fn == fn && this.kwargs == kwargs
      ensures this.taskId == if taskId.None? then name else EffectiveId(taskId.value, name)
      ensures upstream == {} && downstream == {}
      ensures Ranked()
    {
      this.name := name;
      this.taskId := if taskId.None? || taskId.value == "" then name else taskId.value;
      this.fn := fn;
      this.kwargs := kwargs;
      this.rank := MaxRank(kwargs) + 1;
      upstream := {};
      downstream := {};
    }

    /** set_upstream: record the edge on both ends. */
    method SetUpstream(n: TaskNode)
      modifies this, n
      ensures upstream == old(upstream) + {n}
      ensures n.downstream == old(n.downstream) + {this}
      ensures n != this ==> downstream == old(downstream) && n.upstream == old(n.upstream)
    {
      upstream := upstream + {n};
      n.downstream := n.downstream + {this};
    }

    /** The generator wrapper: take (or create) this task's state dict, enter the task
        context, run the steps, and leave the context on every exit path. */
    method Drain(g: Graph, cv: ContextVar, script: seq<Action>, ghost outer: Option<Dict>, ghost w: World)
      returns (r: Result<seq<Value>, TaskError>, ghost w': World)
      requires Models(g, outer, w)
      modifies cv, g.graphState, g.globalState
      modifies if taskId in g.graphState.entries then {g.graphState.entries[taskId]} else {}
      ensures cv.current == old(cv.current)
      ensures taskId in old(g.graphState.entries) ==> g.graphState.entries == old(g.graphState.entries)
      ensures taskId !in old(g.graphState.entries) ==>
                taskId in g.graphState.entries && fresh(g.graphState.entries[taskId])
                && g.graphState.entries == old(g.graphState.entries)[taskId := g.graphState.entries[taskId]]
      ensures Models(g, outer, w') && Ran(r, w') == DrainIn(taskId, script, g.globalState, w)
    {
      var state: Dict;
      ghost var w1: World;
      state, w1 := TakeState(g, outer, w);
      r, w' := RunAndRecord(g, cv, state, script, outer, w, w1);
    }

    /** The rest of the wrapper once the task's dict is known: run the steps in the
        task context and record the dicts' new contents in the abstract state. */
    method RunAndRecord(g: Graph, cv: ContextVar, state: Dict, script: seq<Action>, ghost outer: Option<Dict>,
                        ghost w: World, ghost w1: World)
      returns (r: Result<seq<Value>, TaskError>, ghost w': World)
      requires w1 == SetDefaultIn(w, taskId) && Models(g, outer, w1)
      requires taskId in g.graphState.entries && state == g.graphState.entries[taskId]
      requires ContentsOf(w1, Existing(g.globalState)) == g.globalState.entries
      requires ContentsOf(w1, w1.table[taskId]) == state.entries
      requires HandleWrites(w1.table[taskId]) == state.storesWrites
      requires (w1.table[taskId] == Existing(g.globalState)) == (state == g.globalState)
      modifies cv, state, g.globalState
      ensures cv.current == old(cv.current)
      ensures Models(g, outer, w') && Ran(r, w') == DrainIn(taskId, script, g.globalState, w)
    {
      ghost var dicts := DictsOf(g, outer);
      ghost var heap1: map<Dict, map<string, Value>> := ContentsIn(dicts);
      ModelsIsHolds(g, outer, w1);
      r := RunInContext(cv, state, g.globalState, script);
      assert forall d :: d in heap1 && d != g.globalState && d != state ==> d.entries == heap1[d];
      RecordRun(g, outer, w1, heap1, taskId);
      w' := World(w1.table, w1.contents[Existing(g.globalState) := g.globalState.entries]
                                       [w1.table[taskId] := state.entries]);
    }

    /** graph_state.setdefault(task_id, {}), with the abstract state it leaves. */
    method TakeState(g: Graph, ghost outer: Option<Dict>, ghost w: World) returns (state: Dict, ghost w1: World)
      requires Models(g, outer, w)
      modifies g.graphState
      ensures taskId in old(g.graphState.entries) ==>
                state == old(g.graphState.entries)[taskId] && g.graphState.entries == old(g.graphState.entries)
      ensures taskId !in old(g.graphState.entries) ==>
                fresh(state) && g.graphState.entries == old(g.graphState.entries)[taskId := state]
      ensures w1 == SetDefaultIn(w, taskId) && Models(g, outer, w1)
      ensures taskId in g.graphState.entries && state == g.graphState.entries[taskId]
      ensures ContentsOf(w1, Existing(g.globalState)) == g.globalState.entries
      ensures ContentsOf(w1, w1.table[taskId]) == state.entries
      ensures HandleWrites(w1.table[taskId]) == state.storesWrites
      ensures (w1.table[taskId] == Existing(g.globalState)) == (state == g.globalState)
    {
      ghost var table := g.graphState.entries;
      ghost var heap: map<Dict, map<string, Value>> := ContentsIn(DictsOf(g, outer));
      ModelsIsHolds(g, outer, w);
      state := g.graphState.SetDefault(taskId);
      w1 := SetDefaultIn(w, taskId);
      TakeRecorded(g, outer, w, table, heap, taskId);
    }

    /** The task context around the yield loop: entered before the first step and left
        on every exit path. */
    method RunInContext(cv: ContextVar, state: Dict, global: Dict, script: seq<Action>)
      returns (r: Result<seq<Value>, TaskError>)
      modifies cv, state, global
      ensures cv.current == old(cv.current)
      ensures var run := RunScript(script, Stores(old(global.entries), old(state.entries)), global.storesWrites,
                                   state.storesWrites, state == global);
              && global.entries == run.stores.global && state.entries == run.stores.task
              && r == (if run.failure.None? then Success(run.items) else Failure(run.failure.value))
    {
      var made := TaskContextManager.New(taskId, state, Some(global));
      var manager := made.value;
      manager.Enter(cv);
      r := Pull(cv, state, global, script);
      manager.Exit(cv);
    }

    /** The `for item in result: yield item` loop inside the task context: each step
        runs against the context's dicts, the first failure ends the stream. */
    method Pull(cv: ContextVar, taskState: Dict, global: Dict, script: seq<Action>) returns (r: Result<seq<Value>, TaskError>)
      requires cv.current == Some(TaskContext(taskId, taskState, global))
      modifies taskState, global
      ensures var run := RunScript(script, Stores(old(global.entries), old(taskState.entries)), global.storesWrites,
                                   taskState.storesWrites, taskState == global);
              && global.entries == run.stores.global && taskState.entries == run.stores.task
              && (run.failure.None? ==> r == Success(run.items))
              && (run.failure.Some? ==> r == Failure(run.failure.value))
    {
      ghost var aliased := taskState == global;
      ghost var whole := RunScript(script, Stores(global.entries, taskState.entries), global.storesWrites,
                                   taskState.storesWrites, aliased);
      var out: seq<Value> := [];
      var i := 0;
      while i < |script|
        invariant 0 <= i <= |script|
        invariant whole == (var rest := RunScript(script[i..], Stores(global.entries, taskState.entries),
                                                  global.storesWrites, taskState.storesWrites, aliased);
                            rest.(items := out + rest.items))
      {
        ResumeStep(script, i, Stores(global.entries, taskState.entries), out, global.storesWrites,
                   taskState.storesWrites, aliased);
        var item, failure := PullStep(cv, taskState, global, script[i]);
        if failure.Some? {
          return Failure(failure.value);
        }
        out := out + ItemSeq(item);
        i := i + 1;
      }
      assert script[i..] == [];
      assert whole.items == out + [] == out;
      return Success(out);
    }

    /** One step of the yield loop, through the task-context accessors: what it
        yields, what it leaves in the dicts and the error it raises are those of Step. */
    method PullStep(cv: ContextVar, taskState: Dict, global: Dict, a: Action)
      returns (item: Option<Value>, failure: Option<TaskError>)
      requires cv.current == Some(TaskContext(taskId, taskState, global))
      modifies taskState, global
      ensures var s := Step(a, Stores(old(global.entries), old(taskState.entries)), global.storesWrites,
                            taskState.storesWrites, taskState == global);
              && item == s.item && failure == s.failure
              && Stores(global.entries, taskState.entries) == s.stores
    {
      match a {
        case Emit(v) =>
          return Some(v), None;
        case EmitGlobal(k) =>
          var v := GetGlobalStateValue(cv, k, VNone);
          return Some(v.value), None;
        case SetGlobal(k, v) =>
          var stored := SetGlobalState(cv, k, v);
          if stored.Fail? {
            return None, Some(stored.error);
          }
          return None, None;
        case SetTaskState(k, v) =>
          var ctx := GetCurrentTaskContext(cv);
          ctx.value.taskState.Put(k, v);
          return None, None;
        case Throw(m) =>
          return None, Some(Raised(m));
      }
    }

    /** The keyword-argument resolution of execute: literals pass through and each
        upstream node is executed, in argument order, its stream taking its place. */
    method Resolve(stack: GraphContext<Graph>, cv: ContextVar, ghost g: Graph, ghost env: Env, ghost w: World)
      returns (r: Result<seq<(string, Resolved)>, TaskError>, ghost w': World)
      requires Ranked() && Placed(stack, cv, g, env) && Models(g, env.outer, w)
      modifies cv, g.graphState, g.globalState, g.graphState.entries.Values
      decreases rank, 0, 1
      ensures cv.current == old(cv.current)
      ensures forall d :: d in g.graphState.entries.Values ==> d in old(g.graphState.entries.Values) || fresh(d)
      ensures Models(g, env.outer, w') && Ran(r, w') == ResolveRun(this, |kwargs|, env, w)
    {
      var resolved: seq<(string, Resolved)> := [];
      w' := w;
      var i := 0;
      while i < |kwargs|
        invariant 0 <= i <= |kwargs|
        invariant cv.current == old(cv.current)
        invariant forall d :: d in g.graphState.entries.Values ==> d in old(g.graphState.entries.Values) || fresh(d)
        invariant Models(g, env.outer, w') && ResolveRun(this, i, env, w) == Ran(Success(resolved), w')
      {
        var next;
        next, w' := ResolveNext(stack, cv, i, resolved, g, env, w, w');
        if next.Failure? {
          ResolveRunStops(this, i + 1, |kwargs|, env, w);
          return next, w';
        }
        resolved := next.value;
        i := i + 1;
      }
      return Success(resolved), w';
    }

    /** One more keyword argument: a literal as given, a node by executing it. */
    method ResolveNext(stack: GraphContext<Graph>, cv: ContextVar, i: nat, resolved: seq<(string, Resolved)>,
                       ghost g: Graph, ghost env: Env, ghost w: World, ghost w0: World)
      returns (r: Result<seq<(string, Resolved)>, TaskError>, ghost w': World)
      requires Ranked() && i < |kwargs| && Placed(stack, cv, g, env) && Models(g, env.outer, w0)
      requires ResolveRun(this, i, env, w) == Ran(Success(resolved), w0)
      modifies cv, g.graphState, g.globalState, g.graphState.entries.Values
      decreases rank, 0, 0
      ensures cv.current == old(cv.current)
      ensures forall d :: d in g.graphState.entries.Values ==> d in old(g.graphState.entries.Values) || fresh(d)
      ensures Models(g, env.outer, w') && Ran(r, w') == ResolveRun(this, i + 1, env, w)
    {
      ResolveRunNext(this, i, env, w, resolved, w0);
      var key := kwargs[i].0;
      match kwargs[i].1 {
        case Literal(v) =>
          return Success(resolved + [(key, Given(v))]), w0;
        case NodeRef(n) =>
          var sub;
          sub, w' := n.Execute(stack, cv, g, env, w0);
          if sub.Failure? {
            return Failure(sub.error), w';
          }
          return Success(resolved + [(key, Stream(sub.value))]), w';
      }
    }

    /** execute: resolve the keyword arguments (each upstream node's stream in place of
        the node), look up the current graph, call the body, and drain what it gives
        inside this task's context. A body that is not a generator runs before the
        context is entered. */
    method Execute(stack: GraphContext<Graph>, cv: ContextVar, ghost g: Graph, ghost env: Env, ghost w: World)
      returns (r: Result<seq<Value>, TaskError>, ghost w': World)
      requires Ranked() && Placed(stack, cv, g, env) && Models(g, env.outer, w)
      modifies cv, g.graphState, g.globalState, g.graphState.entries.Values
      decreases rank, 1
      ensures cv.current == old(cv.current)
      ensures forall d :: d in g.graphState.entries.Values ==> d in old(g.graphState.entries.Values) || fresh(d)
      ensures Models(g, env.outer, w') && Ran(r, w') == NodeRun(this, env, w)
    {
      var args;
      args, w' := Resolve(stack, cv, g, env, w);
      if args.Failure? {
        return Failure(args.error), w';
      }
      r, w' := CallInGraph(stack, cv, args.value, g, env, w');
    }

    /** Look up the current graph and call the body with the resolved arguments. */
    method CallInGraph(stack: GraphContext<Graph>, cv: ContextVar, args: seq<(string, Resolved)>,
                       ghost g: Graph, ghost env: Env, ghost w: World)
      returns (r: Result<seq<Value>, TaskError>, ghost w': World)
      requires Placed(stack, cv, g, env) && Models(g, env.outer, w)
      modifies cv, g.graphState, g.globalState, g.graphState.entries.Values
      ensures cv.current == old(cv.current)
      ensures forall d :: d in g.graphState.entries.Values ==> d in old(g.graphState.entries.Values) || fresh(d)
      ensures Models(g, env.outer, w') && Ran(r, w') == CallInEnv(this, args, env, w)
    {
      var current := stack.Current();
      if current.Failure? {
        return Failure(current.error), w;
      }
      ghost var before := g.graphState.entries;
      r, w' := CallBody(current.value, cv, args, env.outer, w);
      if taskId in g.graphState.entries && taskId !in before {
        ValuesAfterAdd(before, taskId, g.graphState.entries[taskId]);
      }
    }

    /** The rest of execute once the graph is known: call the body with the resolved
        arguments and drain what it gives inside this task's context. */
    method CallBody(g: Graph, cv: ContextVar, resolved: seq<(string, Resolved)>, ghost outer: Option<Dict>, ghost w: World)
      returns (r: Result<seq<Value>, TaskError>, ghost w': World)
      requires Models(g, outer, w) && outer == OuterOf(cv)
      modifies cv, g.graphState, g.globalState
      modifies if taskId in g.graphState.entries then {g.graphState.entries[taskId]} else {}
      ensures cv.current == old(cv.current)
      ensures AddsAtMost(old(g.graphState.entries), g.graphState.entries, taskId)
      ensures taskId in g.graphState.entries && taskId !in old(g.graphState.entries) ==> fresh(g.graphState.entries[taskId])
      ensures Models(g, outer, w') && Ran(r, w') == CallIn(this, resolved, g.globalState, outer, w)
    {
      var items: seq<Value>;
      match fn(resolved) {
        case Raises(m) =>
          return Failure(Raised(m)), w;
        case ReadsGlobal(k) =>
          var v := GetGlobalStateValue(cv, k, VNone);
          if v.Failure? {
            return Failure(v.error), w;
          }
          items := ItemsOf(v.value);
        case Returns(v) =>
          items := ItemsOf(v);
        case Generator(steps) =>
          items := [];
      }
      var script := if fn(resolved).Generator? then fn(resolved).script else Emits(items);
      r, w' := Drain(g, cv, script, outer, w);
    }
  }

  /** The global dict of the task context currently active, if any. */
  function OuterOf(cv: ContextVar): Option<Dict>
    reads cv
  {
    if cv.current.Some? then Some(cv.current.value.globalState) else None
  }

  /** Where a node executes: g is the graph on top of the stack, whose global dict the
      environment names, or the stack is empty and there is no graph; the outer dict
      is that of the active task context. */
  predicate Placed(stack: GraphContext<Graph>, cv: ContextVar, g: Graph, env: Env)
    reads stack, cv, g
  {
    && env.outer == OuterOf(cv)
    && if |stack.stack| == 0 then env.global.None?
       else stack.stack[|stack.stack| - 1] == g && env.global == Some(g.globalState)
  }

  // ---------------------------------------------------------------------------
  // Hooks run when a graph finishes executing. A hook's own effects are abstract:
  // it completes, reads the task context, or raises.

  datatype HookEffect = Completes | ReadsTaskContext | Throws(message: string)

  datatype Hook = Hook(name: string, effect: HookEffect)

  /** One hook call. Reading the task context outside any task raises
      TaskContextError, which the hook runner replaces by one naming the hook. */
  function HookOutcome(h: Hook, contextActive: bool): (o: Outcome<TaskError>)
    ensures o.Fail? <==> h.effect.Throws? || (h.effect.ReadsTaskContext? && !contextActive)
    ensures h.effect.ReadsTaskContext? && !contextActive ==> o == Fail(HookAccessedTaskContext(h.name))
    ensures h.effect.Throws? ==> o == Fail(Raised(h.effect.message))
  {
    match h.effect
    case Completes => Pass
    case ReadsTaskContext => if contextActive then Pass else Fail(HookAccessedTaskContext(h.name))
    case Throws(m) => Fail(Raised(m))
  }

  /** The hooks run in order until one fails: the outcome, and how many were called. */
  function RunHooks(hooks: seq<Hook>, contextActive: bool): (r: (Outcome<TaskError>, nat))
    ensures r.1 <= |hooks|
    ensures r.0.Pass? <==> forall k :: 0 <= k < |hooks| ==> HookOutcome(hooks[k], contextActive).Pass?
    ensures r.0.Pass? ==> r.1 == |hooks|
    ensures r.0.Fail? ==> 0 < r.1 && r.0 == HookOutcome(hooks[r.1 - 1], contextActive)
                          && forall k :: 0 <= k < r.1 - 1 ==> HookOutcome(hooks[k], contextActive).Pass?
    decreases |hooks|
  {
    if |hooks| == 0 then (Pass, 0)
    else
      var here := HookOutcome(hooks[0], contextActive);
      if here.Fail? then (here, 1)
      else
        var rest := RunHooks(hooks[1..], contextActive);
        assert forall k :: 1 <= k < |hooks| ==> hooks[k] == hooks[1..][k - 1];
        (rest.0, rest.1 + 1)
  }

  /** list.remove(h) guarded by `h in list`: drop the first equal hook, if any. */
  function RemoveFirst(hooks: seq<Hook>, h: Hook): (r: seq<Hook>)
    ensures h !in hooks ==> r == hooks
    ensures h in hooks ==> |r| == |hooks| - 1
    decreases |hooks|
  {
    if |hooks| == 0 then []
    else if hooks[0] == h then hooks[1..]
    else [hooks[0]] + RemoveFirst(hooks[1..], h)
  }

  /** Where the first equal hook sits. */
  function FirstIndex(hooks: seq<Hook>, h: Hook): (i: nat)
    requires h in hooks
    ensures i < |hooks| && hooks[i] == h
    ensures forall j :: 0 <= j < i ==> hooks[j] != h
    decreases |hooks|
  {
    if hooks[0] == h then 0
    else
      assert h in hooks[1..];
      var i := FirstIndex(hooks[1..], h);
      assert forall j :: 1 <= j < i + 1 ==> hooks[j] == hooks[1..][j - 1];
      i + 1
  }

  /** Cutting element i out of a tail and putting the head back cuts element i + 1
      out of the whole. */
  lemma ConsSplice<T>(x: T, t: seq<T>, i: int)
    requires 0 <= i < |t|
    ensures [x] + (t[..i] + t[i + 1..]) == ([x] + t)[..i + 1] + ([x] + t)[i + 2..]
  {
    assert ([x] + t)[..i + 1] == [x] + t[..i];
    assert ([x] + t)[i + 2..] == t[i + 1..];
  }

  /** Removing a hook whose first occurrence is at i cuts out exactly element i. */
  lemma {:induction false} RemoveFirstAt(hooks: seq<Hook>, h: Hook, i: nat)
    requires i < |hooks| && hooks[i] == h && forall j :: 0 <= j < i ==> hooks[j] != h
    ensures RemoveFirst(hooks, h) == hooks[..i] + hooks[i + 1..]
    decreases i
  {
    if i == 0 {
      assert hooks[..0] + hooks[1..] == hooks[1..];
    } else {
      var tail := hooks[1..];
      assert tail[i - 1] == h;
      assert forall j :: 0 <= j < i - 1 ==> tail[j] == hooks[j + 1];
      RemoveFirstAt(tail, h, i - 1);
      assert RemoveFirst(hooks, h) == [hooks[0]] + RemoveFirst(tail, h);
      assert [hooks[0]] + tail == hooks;
      ConsSplice(hooks[0], tail, i - 1);
    }
  }

  /** Removing a present hook deletes exactly its first occurrence and keeps the rest
      in order. */
  lemma RemoveFirstPresent(hooks: seq<Hook>, h: Hook)
    requires h in hooks
    ensures var i := FirstIndex(hooks, h);
            RemoveFirst(hooks, h) == hooks[..i] + hooks[i + 1..]
  {
    RemoveFirstAt(hooks, h, FirstIndex(hooks, h));
  }

  /** Removing an absent hook changes nothing. */
  lemma {:induction false} RemoveFirstAbsent(hooks: seq<Hook>, h: Hook)
    requires h !in hooks
    ensures RemoveFirst(hooks, h) == hooks
    decreases |hooks|
  {
    if |hooks| > 0 {
      RemoveFirstAbsent(hooks[1..], h);
      assert [hooks[0]] + hooks[1..] == hooks;
    }
  }

  // ---------------------------------------------------------------------------
  // The exports. Node ids sort by Python's string order, character by character.

  predicate StrLe(a: string, b: string)
    decreases |a|
  {
    |a| == 0 || (|b| > 0 && (a[0] < b[0] || (a[0] == b[0] && StrLe(a[1..], b[1..]))))
  }

  lemma {:induction false} StrLeTotal(a: string, b: string)
    ensures StrLe(a, b) || StrLe(b, a)
    decreases |a|
  {
    if |a| > 0 && |b| > 0 && a[0] == b[0] {
      StrLeTotal(a[1..], b[1..]);
    }
  }

  lemma {:induction false} StrLeTrans(a: string, b: string, c: string)
    requires StrLe(a, b) && StrLe(b, c)
    ensures StrLe(a, c)
    decreases |a|
  {
    if |a| > 0 && a[0] == b[0] && b[0] == c[0] {
      StrLeTrans(a[1..], b[1..], c[1..]);
    }
  }

  function TaskIds(ns: seq<TaskNode>): (ids: seq<string>)
    ensures |ids| == |ns| && forall k :: 0 <= k < |ns| ==> ids[k] == ns[k].taskId
  {
    seq(|ns|, k requires 0 <= k < |ns| => ns[k].taskId)
  }

  predicate SortedIds(ids: seq<string>) {
    forall i, j :: 0 <= i < j < |ids| ==> StrLe(ids[i], ids[j])
  }

  predicate SortedById(ns: seq<TaskNode>) {
    forall i, j :: 0 <= i < j < |ns| ==> StrLe(ns[i].taskId, ns[j].taskId)
  }

  predicate AllAbove(b: string, ns: seq<TaskNode>) {
    forall k :: 0 <= k < |ns| ==> StrLe(b, ns[k].taskId)
  }

  /** Insert before the first node whose id is not smaller, so equal ids keep their
      original order as Python's stable sort does. */
  function InsertById(n: TaskNode, ns: seq<TaskNode>): (r: seq<TaskNode>)
    ensures |r| == |ns| + 1
    decreases |ns|
  {
    if |ns| == 0 then [n]
    else if StrLe(n.taskId, ns[0].taskId) then [n] + ns
    else [ns[0]] + InsertById(n, ns[1..])
  }

  /** sorted(nodes, key=lambda node: node.task_id). */
  function SortById(ns: seq<TaskNode>): (r: seq<TaskNode>)
    ensures |r| == |ns|
    decreases |ns|
  {
    if |ns| == 0 then [] else InsertById(ns[0], SortById(ns[1..]))
  }

  lemma {:induction false} InsertByIdPerm(n: TaskNode, ns: seq<TaskNode>)
    ensures multiset(InsertById(n, ns)) == multiset(ns) + multiset{n}
    decreases |ns|
  {
    if |ns| > 0 && !StrLe(n.taskId, ns[0].taskId) {
      InsertByIdPerm(n, ns[1..]);
      assert ns == [ns[0]] + ns[1..];
    }
  }

  lemma {:induction false} InsertByIdAbove(b: string, n: TaskNode, ns: seq<TaskNode>)
    requires StrLe(b, n.taskId) && AllAbove(b, ns)
    ensures AllAbove(b, InsertById(n, ns))
    decreases |ns|
  {
    if |ns| > 0 && !StrLe(n.taskId, ns[0].taskId) {
      InsertByIdAbove(b, n, ns[1..]);
    }
  }

  lemma {:induction false} InsertBySorted(n: TaskNode, ns: seq<TaskNode>)
    requires SortedById(ns)
    ensures SortedById(InsertById(n, ns))
    decreases |ns|
  {
    if |ns| == 0 {
    } else if StrLe(n.taskId, ns[0].taskId) {
      forall k | 0 <= k < |ns| ensures StrLe(n.taskId, ns[k].taskId) {
        if k > 0 { StrLeTrans(n.taskId, ns[0].taskId, ns[k].taskId); }
      }
    } else {
      InsertBySorted(n, ns[1..]);
      StrLeTotal(n.taskId, ns[0].taskId);
      InsertByIdAbove(ns[0].taskId, n, ns[1..]);
    }
  }

  lemma TaskIdsConcat(a: seq<TaskNode>, b: seq<TaskNode>)
    ensures TaskIds(a + b) == TaskIds(a) + TaskIds(b)
  {
  }

  /** A permutation of the nodes is a permutation of their ids. */
  lemma {:induction false} TaskIdsPerm(ns: seq<TaskNode>, ms: seq<TaskNode>)
    requires multiset(ns) == multiset(ms)
    ensures multiset(TaskIds(ns)) == multiset(TaskIds(ms))
    decreases |ns|
  {
    if |ns| > 0 {
      var n := ns[0];
      assert n in multiset(ms);
      var i :| 0 <= i < |ms| && ms[i] == n;
      var rest := ms[..i] + ms[i + 1..];
      assert ms == ms[..i] + [n] + ms[i + 1..];
      assert multiset(ms) == multiset(ms[..i]) + multiset{n} + multiset(ms[i + 1..]);
      assert ns == [n] + ns[1..];
      assert multiset(ns) == multiset{n} + multiset(ns[1..]);
      assert multiset(rest) == multiset(ms[..i]) + multiset(ms[i + 1..]);
      assert multiset(ns[1..]) == multiset(ns) - multiset{n};
      assert multiset(rest) == multiset(ms) - multiset{n};
      TaskIdsPerm(ns[1..], rest);
      TaskIdsConcat([n], ns[1..]);
      TaskIdsConcat(ms[..i], [n]);
      TaskIdsConcat(ms[..i] + [n], ms[i + 1..]);
      TaskIdsConcat(ms[..i], ms[i + 1..]);
    }
  }

  /** The JSON node order: sorted by id, and a permutation of the nodes. */
  lemma {:induction false} SortByIdSpec(ns: seq<TaskNode>)
    ensures SortedById(SortById(ns))
    ensures multiset(SortById(ns)) == multiset(ns)
    decreases |ns|
  {
    if |ns| > 0 {
      var rest := SortById(ns[1..]);
      assert SortById(ns) == InsertById(ns[0], rest);
      SortByIdSpec(ns[1..]);
      InsertBySorted(ns[0], rest);
      InsertByIdPerm(ns[0], rest);
      assert multiset(ns) == multiset(ns[1..]) + multiset{ns[0]} by {
        assert ns == [ns[0]] + ns[1..];
      }
    }
  }

  /** `e` lists the members of `s`, each once, in some order: the order in which Python
      happens to iterate a set, which the program does not fix. */
  ghost predicate Enumerates(e: seq<TaskNode>, s: set<TaskNode>) {
    && (forall k :: 0 <= k < |e| ==> e[k] in s)
    && (forall x :: x in s ==> x in e)
    && (forall i, j :: 0 <= i < j < |e| ==> e[i] != e[j])
  }

  ghost predicate UpstreamOrders(order: seq<seq<TaskNode>>, ns: seq<TaskNode>)
    reads set n | n in ns
  {
    |order| == |ns| && forall i :: 0 <= i < |ns| ==> Enumerates(order[i], ns[i].upstream)
  }

  lemma UpstreamOrdersSnoc(order: seq<seq<TaskNode>>, ns: seq<TaskNode>, ups: seq<TaskNode>, n: TaskNode)
    requires UpstreamOrders(order, ns) && Enumerates(ups, n.upstream)
    ensures UpstreamOrders(order + [ups], ns + [n])
  {
  }

  datatype Edge = Edge(from: string, to: string)

  /** to_json's data: the graph name, the sorted ids and one edge per upstream relation. */
  datatype JsonGraph = JsonGraph(graph: string, nodes: seq<string>, edges: seq<Edge>)

  function EdgesFor(n: TaskNode, ups: seq<TaskNode>): seq<Edge> {
    seq(|ups|, k requires 0 <= k < |ups| => Edge(ups[k].taskId, n.taskId))
  }

  /** The edges node by node, each node's upstreams in the given order. */
  function AllEdges(ns: seq<TaskNode>, order: seq<seq<TaskNode>>): seq<Edge>
    requires |order| == |ns|
    decreases |ns|
  {
    if |ns| == 0 then [] else AllEdges(ns[..|ns| - 1], order[..|ns| - 1]) + EdgesFor(ns[|ns| - 1], order[|ns| - 1])
  }

  /** Every edge of the export is an upstream relation of a listed node, and every
      such relation is exported. */
  lemma {:induction false} AllEdgesExactly(ns: seq<TaskNode>, order: seq<seq<TaskNode>>)
    requires UpstreamOrders(order, ns)
    ensures forall e :: e in AllEdges(ns, order) <==> UpstreamEdge(ns, e)
    decreases |ns|
  {
    if |ns| > 0 {
      var m := |ns| - 1;
      assert UpstreamOrders(order[..m], ns[..m]);
      AllEdgesExactly(ns[..m], order[..m]);
      forall e | e in AllEdges(ns, order)
        ensures exists i, u :: 0 <= i < |ns| && u in ns[i].upstream && e == Edge(u.taskId, ns[i].taskId)
      {
        if e !in AllEdges(ns[..m], order[..m]) {
          var k :| 0 <= k < |order[m]| && e == Edge(order[m][k].taskId, ns[m].taskId);
          assert order[m][k] in ns[m].upstream;
        } else {
          var i, u :| 0 <= i < m && u in ns[..m][i].upstream && e == Edge(u.taskId, ns[..m][i].taskId);
          assert ns[..m][i] == ns[i];
        }
      }
      forall i, u | 0 <= i < |ns| && u in ns[i].upstream ensures Edge(u.taskId, ns[i].taskId) in AllEdges(ns, order) {
        if i == m {
          var k :| 0 <= k < |order[m]| && order[m][k] == u;
          assert EdgesFor(ns[m], order[m])[k] == Edge(u.taskId, ns[i].taskId);
        } else {
          assert ns[..m][i] == ns[i];
        }
      }
    }
  }

  /** `e` runs from an upstream node to one of the nodes `ns`. */
  ghost predicate UpstreamEdge(ns: seq<TaskNode>, e: Edge)
    reads set n | n in ns
  {
    exists i, u :: 0 <= i < |ns| && u in ns[i].upstream && e == Edge(u.taskId, ns[i].taskId)
  }

  /** Two orderings of the same nodes have the same upstream relations. */
  lemma SameNodesSameEdges(ns: seq<TaskNode>, ms: seq<TaskNode>)
    requires multiset(ns) == multiset(ms)
    ensures forall e :: UpstreamEdge(ns, e) <==> UpstreamEdge(ms, e)
  {
    forall i | 0 <= i < |ns| ensures exists k :: 0 <= k < |ms| && ms[k] == ns[i] {
      assert ns[i] in multiset(ms);
    }
    forall k | 0 <= k < |ms| ensures exists i :: 0 <= i < |ns| && ns[i] == ms[k] {
      assert ms[k] in multiset(ns);
    }
  }

  function NodeLine(id: string): string {
    "  \"" + id + "\";"
  }

  function EdgeLine(from: string, to: string): string {
    "  \"" + from + "\" -> \"" + to + "\";"
  }

  /** A node's line followed by one line per upstream node, in the given order. */
  function NodeBlock(n: TaskNode, ups: seq<TaskNode>): seq<string> {
    [NodeLine(n.taskId)] + seq(|ups|, k requires 0 <= k < |ups| => EdgeLine(ups[k].taskId, n.taskId))
  }

  function Blocks(ns: seq<TaskNode>, order: seq<seq<TaskNode>>): seq<string>
    requires |order| == |ns|
    decreases |ns|
  {
    if |ns| == 0 then [] else Blocks(ns[..|ns| - 1], order[..|ns| - 1]) + NodeBlock(ns[|ns| - 1], order[|ns| - 1])
  }

  function GraphvizHeader(name: string): string {
    "digraph " + name + " {"
  }

  function GraphvizLines(name: string, ns: seq<TaskNode>, order: seq<seq<TaskNode>>): (ls: seq<string>)
    requires |order| == |ns|
    ensures |ls| == |Blocks(ns, order)| + 2
    ensures ls[0] == "digraph " + name + " {" && ls[|ls| - 1] == "}"
  {
    [GraphvizHeader(name)] + Blocks(ns, order) + ["}"]
  }

  /** "\n".join(lines). */
  function Join(lines: seq<string>, sep: string): string
    decreases |lines|
  {
    if |lines| == 0 then "" else if |lines| == 1 then lines[0] else lines[0] + sep + Join(lines[1..], sep)
  }

  /** The graphviz text declares every node, in registration order, and draws every
      upstream relation as an edge line. */
  lemma {:induction false} BlocksMention(ns: seq<TaskNode>, order: seq<seq<TaskNode>>)
    requires UpstreamOrders(order, ns)
    ensures forall i :: 0 <= i < |ns| ==> NodeLine(ns[i].taskId) in Blocks(ns, order)
    ensures forall i, u :: 0 <= i < |ns| && u in ns[i].upstream ==>
              EdgeLine(u.taskId, ns[i].taskId) in Blocks(ns, order)
    decreases |ns|
  {
    if |ns| > 0 {
      var m := |ns| - 1;
      assert UpstreamOrders(order[..m], ns[..m]);
      BlocksMention(ns[..m], order[..m]);
      var block := NodeBlock(ns[m], order[m]);
      assert block[0] == NodeLine(ns[m].taskId);
      forall i | 0 <= i < |ns| ensures NodeLine(ns[i].taskId) in Blocks(ns, order) {
        if i < m { assert ns[..m][i] == ns[i]; }
      }
      forall i, u | 0 <= i < |ns| && u in ns[i].upstream ensures EdgeLine(u.taskId, ns[i].taskId) in Blocks(ns, order) {
        if i < m {
          assert ns[..m][i] == ns[i];
        } else {
          var k :| 0 <= k < |order[m]| && order[m][k] == u;
          assert block[k + 1] == EdgeLine(u.taskId, ns[i].taskId);
        }
      }
    }
  }

  /** `for u in s`: the members of the set, each once, in an order the program does
      not fix. */
  method Enumerate(s: set<TaskNode>) returns (e: seq<TaskNode>)
    ensures Enumerates(e, s)
  {
    e := [];
    var rest := s;
    while rest != {}
      invariant rest <= s
      invariant forall x :: x in e <==> x in s && x !in rest
      invariant forall a, b :: 0 <= a < b < |e| ==> e[a] != e[b]
      decreases rest
    {
      var u :| u in rest;
      e := e + [u];
      rest := rest - {u};
    }
  }

  /** The edge list of to_json: node by node, one edge from each upstream node. */
  method EdgesOf(ns: seq<TaskNode>) returns (edges: seq<Edge>, ghost order: seq<seq<TaskNode>>)
    ensures UpstreamOrders(order, ns) && edges == AllEdges(ns, order)
  {
    edges := [];
    order := [];
    var i := 0;
    while i < |ns|
      invariant 0 <= i <= |ns|
      invariant |order| == i && UpstreamOrders(order, ns[..i])
      invariant edges == AllEdges(ns[..i], order)
    {
      var n := ns[i];
      var ups := Enumerate(n.upstream);
      edges := edges + EdgesFor(n, ups);
      assert ns[..i + 1] == ns[..i] + [n];
      UpstreamOrdersSnoc(order, ns[..i], ups, n);
      order := order + [ups];
      i := i + 1;
    }
    assert ns[..i] == ns;
  }

  /** The argument of the state setter and of update_state. */
  datatype StateArg = NotADict | StateDict(graphState: Option<StateTable>, globalState: Option<Dict>)

  /** The `state` property: the two live dicts, not copies. */
  datatype StateView = StateView(graphState: StateTable, globalState: Dict)

  class Graph {
    const name: string
    var nodes: seq<TaskNode>
    var graphState: StateTable
    var globalState: Dict
    var hooks: seq<Hook>

    ghost predicate Valid()
      reads this
    {
      forall i :: 0 <= i < |nodes| ==> nodes[i].Ranked()
    }

    /** Graph(name, graph_state, global_state): a missing or empty dict is replaced by a
        fresh empty one; a non-empty one is used as is. */
    constructor (name: string, graphState: Option<StateTable>, globalState: Option<Dict>)
      ensures this.name == name && nodes == [] && hooks == [] && Valid()
      ensures graphState.Some? && graphState.value.entries != map[] ==> this.graphState == graphState.value
      ensures !(graphState.Some? && graphState.value.entries != map[]) ==>
                fresh(this.graphState) && this.graphState.entries == map[]
      ensures globalState.Some? && globalState.value.entries != map[] ==> this.globalState == globalState.value
      ensures !(globalState.Some? && globalState.value.entries != map[]) ==>
                fresh(this.globalState) && this.globalState.entries == map[] && this.globalState.storesWrites
    {
      this.name := name;
      nodes := [];
      hooks := [];
      if graphState.Some? && graphState.value.entries != map[] {
        this.graphState := graphState.value;
      } else {
        this.graphState := new StateTable(map[]);
      }
      if globalState.Some? && globalState.value.entries != map[] {
        this.globalState := globalState.value;
      } else {
        this.globalState := new Dict(map[], true);
      }
    }

    /** The `state` getter. */
    function State(): (v: StateView)
      reads this
      ensures v.graphState == graphState && v.globalState == globalState
    {
      StateView(graphState, globalState)
    }

    /** The `state` setter: a non-dict is refused; otherwise each state becomes the
        given dict object, or a fresh empty one when its key is missing. */
    method SetState(value: StateArg) returns (r: Outcome<TaskError>)
      modifies this`graphState, this`globalState
      ensures value.NotADict? ==>
                r == Fail(StateNotADict) && graphState == old(graphState) && globalState == old(globalState)
      ensures value.StateDict? ==> r == Pass
      ensures value.StateDict? && value.graphState.Some? ==> graphState == value.graphState.value
      ensures value.StateDict? && value.graphState.None? ==> fresh(graphState) && graphState.entries == map[]
      ensures value.StateDict? && value.globalState.Some? ==> globalState == value.globalState.value
      ensures value.StateDict? && value.globalState.None? ==>
                fresh(globalState) && globalState.entries == map[] && globalState.storesWrites
    {
      if value.NotADict? {
        return Fail(StateNotADict);
      }
      if value.graphState.Some? {
        graphState := value.graphState.value;
      } else {
        graphState := new StateTable(map[]);
      }
      if value.globalState.Some? {
        globalState := value.globalState.value;
      } else {
        globalState := new Dict(map[], true);
      }
      return Pass;
    }

    /** update_state: merge the given dicts into the current ones; existing keys not
        given are kept. */
    method UpdateState(value: StateArg) returns (r: Outcome<TaskError>)
      modifies graphState, globalState
      ensures value.NotADict? ==>
                r == Fail(StateNotADict)
                && graphState.entries == old(graphState.entries) && globalState.entries == old(globalState.entries)
      ensures value.StateDict? ==>
                && r == Pass
                && graphState.entries == old(graphState.entries)
                     + (if value.graphState.Some? then old(value.graphState.value.entries) else map[])
                && globalState.entries == old(globalState.entries)
                     + (if value.globalState.Some? then old(value.globalState.value.entries) else map[])
    {
      if value.NotADict? {
        return Fail(StateNotADict);
      }
      var incomingGraph := if value.graphState.Some? then value.graphState.value.entries else map[];
      var incomingGlobal := if value.globalState.Some? then value.globalState.value.entries else map[];
      graphState.Update(incomingGraph);
      globalState.Update(incomingGlobal);
      return Pass;
    }

    /** add_node: append, keeping registration order. */
    method AddNode(n: TaskNode)
      requires Valid() && n.Ranked()
      modifies this`nodes
      ensures Valid() && nodes == old(nodes) + [n]
    {
      nodes := nodes + [n];
    }

    /** add_on_execute_end_hook. */
    method AddHook(h: Hook)
      modifies this`hooks
      ensures hooks == old(hooks) + [h]
    {
      hooks := hooks + [h];
    }

    /** remove_on_execute_end_hook: drop the first equal hook, if present. */
    method RemoveHook(h: Hook)
      modifies this`hooks
      ensures hooks == RemoveFirst(old(hooks), h)
      ensures old(h !in hooks) ==> hooks == old(hooks)
      ensures old(h in hooks) ==> |hooks| == |old(hooks)| - 1 && multiset(hooks) == multiset(old(hooks)) - multiset{h}
    {
      if h in hooks {
        RemoveFirstPresent(hooks, h);
        var i := FirstIndex(hooks, h);
        assert hooks == hooks[..i] + [h] + hooks[i + 1..];
      } else {
        RemoveFirstAbsent(hooks, h);
      }
      hooks := RemoveFirst(hooks, h);
    }

    /** clear_on_execute_end_hooks. */
    method ClearHooks()
      modifies this`hooks
      ensures hooks == []
    {
      hooks := [];
    }

    /** to_graphviz: a header, each node's line followed by its upstream edge lines, and
        a closing brace, joined by newlines. */
    method ToGraphviz() returns (text: string, ghost order: seq<seq<TaskNode>>)
      ensures UpstreamOrders(order, nodes)
      ensures text == Join(GraphvizLines(name, nodes, order), "\n")
    {
      var lines := [GraphvizHeader(name)];
      order := [];
      var i := 0;
      while i < |nodes|
        invariant 0 <= i <= |nodes|
        invariant |order| == i && UpstreamOrders(order, nodes[..i])
        invariant lines == [GraphvizHeader(name)] + Blocks(nodes[..i], order)
      {
        var n := nodes[i];
        var ups := Enumerate(n.upstream);
        lines := lines + NodeBlock(n, ups);
        assert nodes[..i + 1] == nodes[..i] + [n];
        UpstreamOrdersSnoc(order, nodes[..i], ups, n);
        order := order + [ups];
        i := i + 1;
      }
      assert nodes[..i] == nodes;
      lines := lines + ["}"];
      text := Join(lines, "\n");
    }

    /** to_json: the graph's name, the node ids sorted, and one edge per upstream
        relation, node by node in sorted order. */
    method ToJson() returns (j: JsonGraph, ghost order: seq<seq<TaskNode>>)
      ensures j.graph == name
      ensures j.nodes == TaskIds(SortById(nodes))
      ensures SortedIds(j.nodes) && multiset(j.nodes) == multiset(TaskIds(nodes))
      ensures UpstreamOrders(order, SortById(nodes)) && j.edges == AllEdges(SortById(nodes), order)
      ensures forall e :: e in j.edges <==> UpstreamEdge(nodes, e)
    {
      var sorted := SortById(nodes);
      SortByIdSpec(nodes);
      TaskIdsPerm(sorted, nodes);
      var edges;
      edges, order := EdgesOf(sorted);
      j := JsonGraph(name, TaskIds(sorted), edges);
      AllEdgesExactly(sorted, order);
      SameNodesSameEdges(sorted, nodes);
    }

    /** _call_execute_end_hooks: call each hook with the graph, in order, stopping at the
        first that raises. */
    method CallExecuteEndHooks(cv: ContextVar) returns (r: Outcome<TaskError>, ghost called: seq<Hook>)
      ensures r == RunHooks(hooks, cv.current.Some?).0
      ensures called == hooks[..RunHooks(hooks, cv.current.Some?).1]
    {
      var active := cv.current.Some?;
      var i := 0;
      while i < |hooks|
        invariant 0 <= i <= |hooks|
        invariant forall k :: 0 <= k < i ==> HookOutcome(hooks[k], active).Pass?
      {
        var outcome := HookOutcome(hooks[i], active);
        if outcome.Fail? {
          HooksStopAt(hooks, i, active);
          return outcome, hooks[..i + 1];
        }
        i := i + 1;
      }
      assert hooks[..i] == hooks;
      return Pass, hooks;
    }

    /** The node loop of execute, run with this graph on top of the stack: the nodes
        execute in order and the first failure stops the loop. */
    method RunNodes(stack: GraphContext<Graph>, cv: ContextVar, ghost w: World)
      returns (failure: Option<TaskError>, ghost run: NodesRun)
      requires Valid() && |stack.stack| > 0 && stack.stack[|stack.stack| - 1] == this
      requires Models(this, OuterOf(cv), w)
      modifies cv, graphState, globalState, graphState.entries.Values
      ensures cv.current == old(cv.current)
      ensures run == RunAll(nodes, Env(Some(globalState), OuterOf(cv)), w)
      ensures failure == run.failure && Models(this, OuterOf(cv), run.world)
    {
      ghost var env := Env(Some(globalState), OuterOf(cv));
      ghost var total := RunAll(nodes, env, w);
      ghost var cur := w;
      var i := 0;
      while i < |nodes|
        invariant 0 <= i <= |nodes|
        invariant cv.current == old(cv.current)
        invariant forall d :: d in graphState.entries.Values ==> d in old(graphState.entries.Values) || fresh(d)
        invariant Models(this, env.outer, cur) && stack.stack == old(stack.stack)
        invariant total == Shifted(RunAll(nodes[i..], env, cur), i)
      {
        ghost var before := cur;
        var out;
        out, cur := nodes[i].Execute(stack, cv, this, env, cur);
        RunAllNext(nodes, i, env, before, total, Ran(out, cur));
        if out.Failure? {
          return Some(out.error), total;
        }
        i := i + 1;
      }
      RunAllDone(nodes, env, cur);
      return None, total;
    }

    /** execute: push the graph, drain every node's stream in registration order, then,
        whatever happened, pop the graph and run the end hooks. A hook's error wins over
        a node's. */
    method Execute(stack: GraphContext<Graph>, cv: ContextVar)
      returns (r: Outcome<TaskError>, ghost run: NodesRun, ghost hooksCalled: seq<Hook>)
      requires Valid()
      modifies stack, cv, graphState, globalState, graphState.entries.Values
      ensures stack.stack == old(stack.stack) && cv.current == old(cv.current)
      ensures Grows(old(graphState.entries), graphState.entries)
      ensures run == RunAll(nodes, Env(Some(globalState), OuterOf(cv)), old(Abstract(this, OuterOf(cv))))
      ensures Models(this, OuterOf(cv), run.world)
      ensures var h := RunHooks(hooks, old(cv.current).Some?);
              && hooksCalled == hooks[..h.1]
              && (h.0.Fail? ==> r == h.0)
              && (h.0.Pass? && run.failure.None? ==> r == Pass)
              && (h.0.Pass? && run.failure.Some? ==> r == Fail(run.failure.value))
    {
      ghost var before := graphState.entries;
      ghost var w := Abstract(this, OuterOf(cv));
      var failure;
      failure, run := RunPushed(stack, cv, w);
      RunAllKeepsTable(nodes, Env(Some(globalState), OuterOf(cv)), w);
      KeptEntries(this, OuterOf(cv), run.world, before);
      var hooksOutcome;
      hooksOutcome, hooksCalled := CallExecuteEndHooks(cv);
      if hooksOutcome.Fail? {
        return hooksOutcome, run, hooksCalled;
      }
      if failure.Some? {
        return Fail(failure.value), run, hooksCalled;
      }
      return Pass, run, hooksCalled;
    }

    /** The node loop between pushing the graph and popping it again. */
    method RunPushed(stack: GraphContext<Graph>, cv: ContextVar, ghost w: World)
      returns (failure: Option<TaskError>, ghost run: NodesRun)
      requires Valid() && Models(this, OuterOf(cv), w)
      modifies stack, cv, graphState, globalState, graphState.entries.Values
      ensures stack.stack == old(stack.stack) && cv.current == old(cv.current)
      ensures run == RunAll(nodes, Env(Some(globalState), OuterOf(cv)), w)
      ensures failure == run.failure && Models(this, OuterOf(cv), run.world)
    {
      stack.Push(this);
      failure, run := RunNodes(stack, cv, w);
      ghost var outer := OuterOf(cv);
      assert Models(this, outer, run.world);
      var popped := stack.Pop();
      assert OuterOf(cv) == outer;
    }
  }

  /** Where the hook runner stops: at the first hook that fails. */
  lemma HooksStopAt(hooks: seq<Hook>, i: int, active: bool)
    requires 0 <= i < |hooks| && HookOutcome(hooks[i], active).Fail?
    requires forall k :: 0 <= k < i ==> HookOutcome(hooks[k], active).Pass?
    ensures RunHooks(hooks, active) == (HookOutcome(hooks[i], active), i + 1)
  {
  }
}
