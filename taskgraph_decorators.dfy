/** The two decorators: `task` turns a call made while a graph is being declared into
    a registered node, and `graph` builds a fresh graph, runs the declaration with the
    graph current, and hands the graph back. */
module Decorators {
  import opened Results
  import opened TaskValues
  import opened GraphContextStack
  import opened TaskGraph

  // ---------------------------------------------------------------------------
  // Duplicate task ids. The check compares the id as passed, while the node takes
  // `task_id or name`: an empty id slips past the check and the node then takes the
  // function's name, which may already be taken.

  predicate DistinctStrings(ids: seq<string>) {
    forall i, j :: 0 <= i < j < |ids| ==> ids[i] != ids[j]
  }

  /** The duplicate check as written: the id as passed is compared. */
  predicate AdmitsAsWritten(ids: seq<string>, taskId: string) {
    taskId !in ids
  }

  /** The duplicate check on the id the node will actually carry. */
  predicate Admits(ids: seq<string>, taskId: string, name: string) {
    EffectiveId(taskId, name) !in ids
  }

  /** With a node "f" already declared, a second call of `f` with task_id="" passes the
      check as written and adds a second node with id "f". */
  lemma AsWrittenAdmitsDuplicate()
    ensures DistinctStrings(["f"])
    ensures AdmitsAsWritten(["f"], "")
    ensures !DistinctStrings(["f"] + [EffectiveId("", "f")])
  {
    var ids := ["f"] + [EffectiveId("", "f")];
    assert ids[0] == ids[1];
  }

  /** The corrected check keeps the ids of a graph's nodes distinct. */
  lemma AdmitsKeepsDistinct(ids: seq<string>, taskId: string, name: string)
    requires DistinctStrings(ids) && Admits(ids, taskId, name)
    ensures DistinctStrings(ids + [EffectiveId(taskId, name)])
  {
    var next := ids + [EffectiveId(taskId, name)];
    forall i, j | 0 <= i < j < |next| ensures next[i] != next[j] {
      if j == |ids| {
        assert next[i] == ids[i];
      }
    }
  }

  /** Whenever the id as passed is not empty, the two checks agree. */
  lemma ChecksAgreeOnNonEmptyIds(ids: seq<string>, taskId: string, name: string)
    requires taskId != ""
    ensures AdmitsAsWritten(ids, taskId) <==> Admits(ids, taskId, name)
  {
  }

  // ---------------------------------------------------------------------------
  // The task decorator.

  /** The nodes passed as keyword arguments. */
  function Refs(kwargs: seq<(string, Arg)>): (refs: set<TaskNode>)
    ensures forall i :: 0 <= i < |kwargs| && kwargs[i].1.NodeRef? ==> kwargs[i].1.node in refs
    ensures forall n :: n in refs ==> exists i :: 0 <= i < |kwargs| && kwargs[i].1 == NodeRef(n)
  {
    set i | 0 <= i < |kwargs| && kwargs[i].1.NodeRef? :: kwargs[i].1.node
  }

  /** The edge loop of the task wrapper: every node passed as an argument becomes
      upstream of `node`, and `node` downstream of it. */
  method LinkUpstream(node: TaskNode, kwargs: seq<(string, Arg)>)
    requires node !in Refs(kwargs) && node.upstream == {}
    modifies node, Refs(kwargs)
    ensures node.upstream == Refs(kwargs) && node.downstream == old(node.downstream)
    ensures forall n :: n in Refs(kwargs) ==> n.upstream == old(n.upstream)
    ensures forall n :: n in Refs(kwargs) ==> n.downstream == old(n.downstream) + {node}
  {
    var i := 0;
    while i < |kwargs|
      invariant 0 <= i <= |kwargs|
      invariant node.upstream == Refs(kwargs[..i]) && node.downstream == old(node.downstream)
      invariant forall n :: n in Refs(kwargs) ==> n.upstream == old(n.upstream)
      invariant forall n :: n in Refs(kwargs) ==>
                  n.downstream == old(n.downstream) + (if n in Refs(kwargs[..i]) then {node} else {})
    {
      if kwargs[i].1.NodeRef? {
        node.SetUpstream(kwargs[i].1.node);
      }
      assert kwargs[..i + 1] == kwargs[..i] + [kwargs[i]];
      i := i + 1;
    }
    assert kwargs[..i] == kwargs;
  }

  /** The task wrapper: with a current graph and an id that is given and free, a new
      node is appended to the graph and linked to every node passed as an argument. */
  method TaskWrapper(fnName: string, fn: Body, kwargs: seq<(string, Arg)>, taskId: Option<string>,
                     stack: GraphContext<Graph>) returns (r: Result<TaskNode, TaskError>)
    requires |stack.stack| > 0 ==> stack.stack[|stack.stack| - 1].Valid()
    requires forall n :: n in Refs(kwargs) ==> n.Ranked()
    modifies TopSet(stack)`nodes, Refs(kwargs)
    ensures |stack.stack| == 0 ==> r == Failure(NoActiveGraph)
    ensures |stack.stack| > 0 ==>
              var g := stack.stack[|stack.stack| - 1];
              && g.Valid()
              && (taskId.None? ==> r == Failure(NoTaskId(fnName)))
              && (taskId.Some? && !Admits(TaskIds(old(g.nodes)), taskId.value, fnName) ==>
                    r == Failure(DuplicateTaskId(taskId.value, g.name)))
              && (r.Failure? ==> g.nodes == old(g.nodes))
              && (taskId.Some? && Admits(TaskIds(old(g.nodes)), taskId.value, fnName) ==> r.Success?)
              && (r.Success? ==>
                    && fresh(r.value) && g.nodes == old(g.nodes) + [r.value]
                    && r.value.taskId == EffectiveId(taskId.value, fnName)
                    && r.value.name == fnName && r.value.kwargs == kwargs
                    && r.value.upstream == Refs(kwargs) && r.value.downstream == {}
                    && forall n :: n in Refs(kwargs) ==> n.downstream == old(n.downstream) + {r.value})
    ensures r.Failure? ==> forall n :: n in Refs(kwargs) ==> n.downstream == old(n.downstream)
    ensures forall n :: n in Refs(kwargs) ==> n.upstream == old(n.upstream)
  {
    var current := stack.Current();
    if current.Failure? {
      return Failure(current.error);
    }
    var g := current.value;
    if taskId.None? {
      return Failure(NoTaskId(fnName));
    }
    var ids := TaskIds(g.nodes);
    if !Admits(ids, taskId.value, fnName) {
      return Failure(DuplicateTaskId(taskId.value, g.name));
    }
    var node := new TaskNode(fnName, fn, kwargs, taskId);
    g.AddNode(node);
    LinkUpstream(node, kwargs);
    return Success(node);
  }

  // ---------------------------------------------------------------------------
  // The graph decorator.

  /** One element of an on_execute_end list: a callable hook, or anything else. */
  datatype HookEntry = Callable(hook: Hook) | NotCallableEntry

  /** The on_execute_end option: absent, one callable, a list or tuple, or a value
      that is neither. */
  datatype HookOption = NoHooks | Single(hook: Hook) | Many(entries: seq<HookEntry>) | NotCallable

  /** The callable entries of a list, in order. */
  function CallableHooks(entries: seq<HookEntry>): (hs: seq<Hook>)
    ensures |hs| <= |entries|
    ensures forall h :: h in hs <==> Callable(h) in entries
    decreases |entries|
  {
    if |entries| == 0 then []
    else
      var rest := CallableHooks(entries[1..]);
      assert entries == [entries[0]] + entries[1..];
      if entries[0].Callable? then [entries[0].hook] + rest else rest
  }

  /** The hooks the new graph starts with. */
  function HooksFromOption(o: HookOption): (hs: seq<Hook>)
    ensures o.Single? ==> hs == [o.hook]
    ensures o.Many? ==> forall h :: h in hs <==> Callable(h) in o.entries
    ensures o.NoHooks? || o.NotCallable? ==> hs == []
  {
    match o
    case NoHooks => []
    case Single(h) => [h]
    case Many(entries) => CallableHooks(entries)
    case NotCallable => []
  }

  /** A keyword argument in a graph's declaration: a value, or the node an earlier
      call of the declaration returned. */
  datatype CallArg = Lit(value: Value) | Earlier(index: nat)

  /** One statement of a graph's declaration: a call of a task-decorated function, or
      a statement that raises. */
  datatype DeclStep =
    | Call(fnName: string, fn: Body, args: seq<(string, CallArg)>, taskId: Option<string>)
    | Raise(message: string)

  /** Every argument refers to an earlier call, as a Python variable bound to the node
      that call returned would. */
  predicate WellFormed(decl: seq<DeclStep>) {
    forall i, k :: 0 <= i < |decl| && decl[i].Call? && 0 <= k < |decl[i].args| && decl[i].args[k].1.Earlier? ==>
      decl[i].args[k].1.index < i && decl[decl[i].args[k].1.index].Call?
  }

  /** One statement of the declaration against the ids declared so far: the ids with
      the new node's id appended, or the error the statement raises. */
  function NextIds(step: DeclStep, ids: seq<string>, graphName: string): (r: Result<seq<string>, TaskError>)
    ensures step.Raise? ==> r == Failure(Raised(step.message))
    ensures r.Success? ==> step.Call? && step.taskId.Some? && |r.value| == |ids| + 1 && r.value[..|ids|] == ids
  {
    if step.Raise? then Failure(Raised(step.message))
    else if step.taskId.None? then Failure(NoTaskId(step.fnName))
    else if !Admits(ids, step.taskId.value, step.fnName) then Failure(DuplicateTaskId(step.taskId.value, graphName))
    else Success(ids + [EffectiveId(step.taskId.value, step.fnName)])
  }

  /** The ids the declaration gives the graph's nodes, or the error of the first
      statement that fails. */
  function DeclIds(decl: seq<DeclStep>, ids: seq<string>, graphName: string): (r: Result<seq<string>, TaskError>)
    ensures r.Success? ==> |r.value| == |ids| + |decl| && r.value[..|ids|] == ids
    decreases |decl|
  {
    if |decl| == 0 then Success(ids)
    else
      var next := NextIds(decl[0], ids, graphName);
      if next.Failure? then next else DeclIds(decl[1..], next.value, graphName)
  }

  /** A declaration that runs to the end leaves the graph with distinct task ids, one
      per statement. */
  lemma {:induction false} DeclIdsDistinct(decl: seq<DeclStep>, ids: seq<string>, graphName: string)
    requires DistinctStrings(ids)
    ensures var r := DeclIds(decl, ids, graphName);
            r.Success? ==> DistinctStrings(r.value) && |r.value| == |ids| + |decl|
    decreases |decl|
  {
    if |decl| > 0 && NextIds(decl[0], ids, graphName).Success? {
      AdmitsKeepsDistinct(ids, decl[0].taskId.value, decl[0].fnName);
      DeclIdsDistinct(decl[1..], NextIds(decl[0], ids, graphName).value, graphName);
    }
  }

  /** The run from statement `i` on is one statement, then the run from `i + 1`. */
  lemma DeclIdsAt(decl: seq<DeclStep>, i: nat, ids: seq<string>, graphName: string)
    requires i < |decl|
    ensures var next := NextIds(decl[i], ids, graphName);
            DeclIds(decl[i..], ids, graphName) == if next.Failure? then next else DeclIds(decl[i + 1..], next.value, graphName)
  {
    assert decl[i..][0] == decl[i];
    assert decl[i..][1..] == decl[i + 1..];
  }

  /** The arguments of a call with earlier calls' nodes in place of their indices. */
  function Bind(args: seq<(string, CallArg)>, made: seq<TaskNode>): (kwargs: seq<(string, Arg)>)
    requires forall k :: 0 <= k < |args| && args[k].1.Earlier? ==> args[k].1.index < |made|
    ensures |kwargs| == |args|
    ensures forall k :: 0 <= k < |args| ==> kwargs[k].0 == args[k].0
    ensures forall k :: 0 <= k < |args| && args[k].1.Lit? ==> kwargs[k].1 == Literal(args[k].1.value)
    ensures forall k :: 0 <= k < |args| && args[k].1.Earlier? ==> kwargs[k].1 == NodeRef(made[args[k].1.index])
  {
    seq(|args|, k requires 0 <= k < |args| =>
      (args[k].0, if args[k].1.Lit? then Literal(args[k].1.value) else NodeRef(made[args[k].1.index])))
  }

  /** Edges are recorded on both ends. */
  ghost predicate Linked(nodes: seq<TaskNode>)
    reads set n | n in nodes
  {
    forall a, b :: a in nodes && b in nodes ==> (a in b.upstream <==> b in a.downstream)
  }

  /** The graph wrapper: a new graph named after the function, the callable hooks
      added, the declaration run with the graph current, and the graph popped whether
      or not the declaration raised. */
  method GraphWrapper(name: string, onEnd: HookOption, graphState: Option<StateTable>, globalState: Option<Dict>,
                      decl: seq<DeclStep>, stack: GraphContext<Graph>) returns (r: Result<Graph, TaskError>)
    requires WellFormed(decl)
    modifies stack
    ensures stack.stack == old(stack.stack)
    ensures var ids := DeclIds(decl, [], name);
            && (r.Success? <==> ids.Success?)
            && (r.Failure? ==> r.error == ids.error)
            && (r.Success? ==> TaskIds(r.value.nodes) == ids.value)
    ensures r.Success? ==>
              && fresh(r.value) && r.value.name == name && r.value.hooks == HooksFromOption(onEnd)
              && r.value.Valid() && DistinctStrings(TaskIds(r.value.nodes))
              && Linked(r.value.nodes)
              && forall n :: n in r.value.nodes ==> fresh(n) && n.upstream <= set m | m in r.value.nodes
    ensures r.Success? && graphState.Some? && graphState.value.entries != map[] ==> r.value.graphState == graphState.value
    ensures r.Success? && !(graphState.Some? && graphState.value.entries != map[]) ==>
              fresh(r.value.graphState) && r.value.graphState.entries == map[]
    ensures r.Success? && globalState.Some? && globalState.value.entries != map[] ==> r.value.globalState == globalState.value
    ensures r.Success? && !(globalState.Some? && globalState.value.entries != map[]) ==>
              fresh(r.value.globalState) && r.value.globalState.entries == map[] && r.value.globalState.storesWrites
  {
    var g := new Graph(name, graphState, globalState);
    AddHooks(g, onEnd);
    var failure := DeclareInGraph(g, decl, stack);
    if failure.Some? {
      return Failure(failure.value);
    }
    return Success(g);
  }

  /** The graph pushed for the declaration and popped again whether or not it raised. */
  method DeclareInGraph(g: Graph, decl: seq<DeclStep>, stack: GraphContext<Graph>) returns (failure: Option<TaskError>)
    requires WellFormed(decl)
    requires g.nodes == [] && g.Valid()
    modifies stack, g`nodes
    ensures stack.stack == old(stack.stack)
    ensures var ids := DeclIds(decl, [], g.name);
            && (failure.None? <==> ids.Success?)
            && (failure.Some? ==> failure.value == ids.error)
            && (failure.None? ==> TaskIds(g.nodes) == ids.value)
    ensures g.Valid() && DistinctStrings(TaskIds(g.nodes)) && Linked(g.nodes)
    ensures forall n :: n in g.nodes ==> fresh(n) && n.upstream <= set m | m in g.nodes
  {
    stack.Push(g);
    failure := Declare(g, decl, stack);
    var popped := stack.Pop();
  }

  /** `func(**kwargs)` with the graph current: each statement in turn until one raises. */
  method Declare(g: Graph, decl: seq<DeclStep>, stack: GraphContext<Graph>) returns (failure: Option<TaskError>)
    requires WellFormed(decl)
    requires |stack.stack| > 0 && stack.stack[|stack.stack| - 1] == g
    requires g.nodes == [] && g.Valid()
    modifies g`nodes
    ensures var ids := DeclIds(decl, [], g.name);
            && (failure.None? <==> ids.Success?)
            && (failure.Some? ==> failure.value == ids.error)
            && (failure.None? ==> TaskIds(g.nodes) == ids.value)
    ensures g.Valid() && DistinctStrings(TaskIds(g.nodes)) && Linked(g.nodes)
    ensures forall n :: n in g.nodes ==> fresh(n) && n.upstream <= set m | m in g.nodes
  {
    var made: seq<TaskNode> := [];
    var i := 0;
    while i < |decl|
      invariant 0 <= i <= |decl| && |made| == i
      invariant g.nodes == made && g.Valid()
      invariant DeclIds(decl, [], g.name) == DeclIds(decl[i..], TaskIds(made), g.name)
      invariant DistinctStrings(TaskIds(made))
      invariant forall n :: n in made ==> fresh(n) && n.upstream <= set m | m in made
      invariant Linked(made)
    {
      DeclIdsAt(decl, i, TaskIds(made), g.name);
      var step := decl[i];
      if step.Raise? {
        return Some(Raised(step.message));
      }
      var node := DeclareCall(g, step, made, stack);
      if node.Failure? {
        return Some(node.error);
      }
      made := made + [node.value];
      i := i + 1;
    }
    assert decl[i..] == [];
    return None;
  }

  /** One call of a task-decorated function during the declaration: the task wrapper
      with the call's arguments bound to the nodes made so far. It either fails with the
      error the declaration records for this call, leaving the nodes as they were, or
      appends a fresh node with the next declared id; either way the graph keeps
      distinct ids and two-way edges inside its nodes. */
  method DeclareCall(g: Graph, step: DeclStep, made: seq<TaskNode>, stack: GraphContext<Graph>)
    returns (r: Result<TaskNode, TaskError>)
    requires step.Call?
    requires forall k :: 0 <= k < |step.args| && step.args[k].1.Earlier? ==> step.args[k].1.index < |made|
    requires |stack.stack| > 0 && stack.stack[|stack.stack| - 1] == g
    requires g.nodes == made && g.Valid() && DistinctStrings(TaskIds(made)) && Linked(made)
    requires forall n :: n in made ==> n.upstream <= set m | m in made
    modifies g`nodes, set m | m in made
    ensures var next := NextIds(step, TaskIds(made), g.name);
            && (r.Success? <==> next.Success?)
            && (r.Failure? ==> r.error == next.error && g.nodes == made)
            && (r.Success? ==> fresh(r.value) && g.nodes == made + [r.value] && TaskIds(g.nodes) == next.value)
    ensures g.Valid() && DistinctStrings(TaskIds(g.nodes)) && Linked(g.nodes)
    ensures forall n :: n in g.nodes ==> n.upstream <= set m | m in g.nodes
  {
    var kwargs := Bind(step.args, made);
    forall n | n in Refs(kwargs) ensures n in made {
      var k :| 0 <= k < |kwargs| && kwargs[k].1 == NodeRef(n);
      assert n == made[step.args[k].1.index];
    }
    r := TaskWrapper(step.fnName, step.fn, kwargs, step.taskId, stack);
    if r.Success? {
      AdmitsKeepsDistinct(TaskIds(made), step.taskId.value, step.fnName);
      assert TaskIds(made + [r.value]) == TaskIds(made) + [EffectiveId(step.taskId.value, step.fnName)];
    }
  }

  /** The hook registration of the graph wrapper. */
  method AddHooks(g: Graph, onEnd: HookOption)
    modifies g`hooks
    ensures g.hooks == old(g.hooks) + HooksFromOption(onEnd)
  {
    match onEnd {
      case Single(h) =>
        g.AddHook(h);
      case Many(entries) =>
        var k := 0;
        while k < |entries|
          invariant 0 <= k <= |entries|
          invariant g.hooks == old(g.hooks) + CallableHooks(entries[..k])
        {
          if entries[k].Callable? {
            g.AddHook(entries[k].hook);
          }
          CallableHooksSnoc(entries[..k], entries[k]);
          assert entries[..k + 1] == entries[..k] + [entries[k]];
          k := k + 1;
        }
        assert entries[..k] == entries;
      case NoHooks =>
      case NotCallable =>
    }
  }

  lemma CallableHooksSnoc(entries: seq<HookEntry>, e: HookEntry)
    ensures CallableHooks(entries + [e]) == CallableHooks(entries) + (if e.Callable? then [e.hook] else [])
    decreases |entries|
  {
    if |entries| > 0 {
      assert (entries + [e])[1..] == entries[1..] + [e];
      CallableHooksSnoc(entries[1..], e);
    }
  }
}
