# python-packages core, modelled in Dafny

This project models three packages of a Python monorepo.

- **taskgraph** is a small dataflow framework. Two decorators cover declaration:
  `@graph` builds a `Graph`, and `@task` turns each call made while that graph is
  current into a `TaskNode`. A node's keyword arguments may be other nodes, and such
  arguments become upstream/downstream edges. `Graph.execute` pushes the graph on
  the graph context and drains each node's stream in registration order. Each node
  runs inside a task context that gives it its own state dict and the graph's global
  state dict. The end-of-execution hooks run last. The graph also exports itself as
  graphviz text and as JSON data.
- **candles** holds the candle and RSI records and timeframes. It also holds the
  timestamp helpers and the merge of a candle into a coarser timeframe. The RSI
  bookkeeping is there too. Last comes the exchange-client base class, which fetches
  in batches, drops repeated candles, imputes gaps with copies of the previous
  candle and validates the stream.
- **trading** has the mock exchange's trade engine. It keeps open orders, an order
  history, the last price per symbol and two balances. On each price update it
  executes the orders whose price the move crossed.

Modules, one file each:

- `Results` holds Option, Result and Outcome.
- `TaskValues` holds values, state dicts and the task-graph errors.
- `GraphContextStack` models context.py.
- `TaskContexts` models task_context.py.
- `TaskGraph` models task.py and graph.py.
- `Decorators` models decorators.py.
- `CandleTypes` models types.py.
- `CandleUtils` models utils.py.
- `CandleOperations` models operations.py.
- `ExchangeClient` models exchangebase.py.
- `MockExchange` models engine.py.

The model keeps the source's form:

- Objects that the source updates in place are classes with `modifies` frames:
  `Graph`, `TaskNode`, the graph context, the context variable, the state dicts,
  `TradeEngine` and the task-context manager.
- Pure code is functions over datatypes.
- Loops are methods with invariants, each proved against a specification function:
  the generator drain, the hook runner, the export loops, the imputation loop, the
  fetch loop and the trigger loop.

## Model

| member | source | states |
|---|---|---|
| GraphContextStack.Top | packages/taskgraph/taskgraph/context.py:18-22 | current() fails with "no active graph" exactly on an empty stack and otherwise yields the last pushed graph |
| GraphContextStack.Popped | packages/taskgraph/taskgraph/context.py:14-16 | pop() on an empty list raises; otherwise the result plus the removed top is the old stack |
| GraphContextStack.GraphContext.constructor | packages/taskgraph/taskgraph/context.py:7-8 | the class-level stack starts empty |
| GraphContextStack.GraphContext.Push | packages/taskgraph/taskgraph/context.py:10-12 | push appends the graph, which becomes current |
| GraphContextStack.GraphContext.Pop | packages/taskgraph/taskgraph/context.py:14-16 | pop removes exactly the top; on an empty stack it fails with IndexError and leaves the stack empty |
| GraphContextStack.GraphContext.Current | packages/taskgraph/taskgraph/context.py:18-22 | current agrees with Top on the stack and changes nothing |
| GraphContextStack.NestedPushPop | packages/taskgraph/taskgraph/context.py:10-22 | nested pushes come off in reverse order: at every depth the n-th pushed graph is current and a pop returns to depth n-1 |
| TaskValues.Dict.Put | packages/taskgraph/taskgraph/task_context.py:23 | item assignment stores the value, or keeps nothing for a dict that drops writes |
| TaskValues.Dict.Update | packages/taskgraph/taskgraph/graph.py:35 | dict.update: incoming keys overwrite and every other key keeps its value |
| TaskValues.StateTable.SetDefault | packages/taskgraph/taskgraph/task.py:36 | setdefault returns the existing dict unchanged, or stores and returns a fresh empty dict under the key |
| TaskValues.StateTable.Update | packages/taskgraph/taskgraph/graph.py:34 | the graph-state table merges the incoming entries |
| TaskContexts.GetCurrentTaskContext | packages/taskgraph/taskgraph/task_context.py:7-11 | raises TaskContextError exactly when no context is set, and otherwise returns the active context |
| TaskContexts.GetGlobalState | packages/taskgraph/taskgraph/task_context.py:14-17 | returns the active context's global dict object itself, not a copy, or the same error |
| TaskContexts.GetGlobalStateValue | packages/taskgraph/taskgraph/task_context.py:29-32 | gives the stored value when the key is present, otherwise the default; fails without a context |
| TaskContexts.SetGlobalState | packages/taskgraph/taskgraph/task_context.py:20-26 | writes into the active global dict, then fails with RuntimeError exactly when reading back does not give the value |
| TaskContexts.SetGlobalStateFailsOnlyWhenDropped | packages/taskgraph/taskgraph/task_context.py:20-26 | the read-back check can fire only on a dict that drops writes, and then exactly when the key did not already hold the value |
| TaskContexts.TaskContextManager.Make | packages/taskgraph/taskgraph/task_context.py:35-42 | the manager records the id and both dicts, with no token yet |
| TaskContexts.TaskContextManager.New | packages/taskgraph/taskgraph/task_context.py:35-42 | a None global state raises ValueError; otherwise a fresh manager holds the given id and dicts |
| TaskContexts.TaskContextManager.Enter | packages/taskgraph/taskgraph/task_context.py:44-51 | the context variable now holds this task's id, state dict and global dict; the token remembers the previous value |
| TaskContexts.TaskContextManager.Exit | packages/taskgraph/taskgraph/task_context.py:53-54 | resetting restores the value the variable had before enter |
| TaskGraph.ItemsOf | packages/taskgraph/taskgraph/task.py:44-49 | iterating a result: a list gives its items, a string its characters, and anything not iterable is yielded once as itself |
| TaskGraph.Emits | packages/taskgraph/taskgraph/task.py:39-40 | the wrapping generator re-yields the items one by one, in order |
| TaskGraph.Step | packages/taskgraph/taskgraph/task_context.py:20-32 | one generator step: a yield, a read of the global state (default None), a checked global write, a task-state write, or a raise |
| TaskGraph.RunScript | packages/taskgraph/taskgraph/task.py:39-40 | a generator run fails only by a raise or a refused global write; a run that only yields changes neither dict and does not fail |
| TaskGraph.EmitsRun | packages/taskgraph/taskgraph/task.py:44-49 | a plain return value's stream yields exactly its items and touches no dict |
| TaskGraph.RunScriptFailsOnlyByRaising | packages/taskgraph/taskgraph/task.py:33-40 | with a global dict that stores writes, a stream fails exactly when a step raises, and with the first raised message |
| TaskGraph.FirstThrow | packages/taskgraph/taskgraph/task.py:39-40 | the position of the first raising step: no step before it raises, and the step there raises unless it is past the end |
| TaskGraph.WriteThenRead | packages/taskgraph/taskgraph/task_context.py:20-32 | a value set in the global state is what a later get_global_state_value yields |
| TaskGraph.RunScriptItemsBounded | packages/taskgraph/taskgraph/task.py:39-40 | a stream yields at most one item per step |
| TaskGraph.RunScriptAt | packages/taskgraph/taskgraph/task.py:39-40 | the run from step i is that step followed by the run from step i+1, or stops there if the step fails |
| TaskGraph.ResumeStep | packages/taskgraph/taskgraph/task.py:39-40 | a step that fails ends the whole run with what was yielded so far and that step's error; after one that does not, carrying on gives the same whole run |
| TaskGraph.SetDefaultIn | packages/taskgraph/taskgraph/task.py:36 | setdefault in the abstract state: an existing id keeps everything, a new id gets its own created dict |
| TaskGraph.DrainIn | packages/taskgraph/taskgraph/task.py:33-40 | draining a stream inside the task context leaves the state table as setdefault leaves it: an existing entry is kept, a missing one is created |
| TaskGraph.CallIn | packages/taskgraph/taskgraph/task.py:42-49 | a successful call leaves the task its entry in graph_state; a raising body fails with its message and changes nothing |
| TaskGraph.CallInEnv | packages/taskgraph/taskgraph/task.py:31-49 | without a current graph the call fails with "no active graph" and changes nothing; a successful call leaves the task its graph_state entry |
| TaskGraph.NodeRun | packages/taskgraph/taskgraph/task.py:28-49 | a successful execution leaves the task its entry in graph_state |
| TaskGraph.ResolveRun | packages/taskgraph/taskgraph/task.py:29 | a successful resolution of the first i keyword arguments has exactly i arguments |
| TaskGraph.ResolveRunStops | packages/taskgraph/taskgraph/task.py:29 | once an argument's node fails, the resolution has failed for good with that error |
| TaskGraph.ResolveRunNext | packages/taskgraph/taskgraph/task.py:29 | one more argument of a successful resolution: a literal is added as given; a node's failure ends the resolution and its stream is added otherwise |
| TaskGraph.ResolveRunSpec | packages/taskgraph/taskgraph/task.py:29 | a successful resolution has every argument in order under its name, a literal as given, and a node as the stream that node's own execution yields from the state the earlier arguments left |
| TaskGraph.ResolveRunKwargs | packages/taskgraph/taskgraph/task.py:29 | a full successful resolution passes every keyword argument to the body by name, literals unchanged and nodes as streams |
| TaskGraph.NodeRunWithoutGraph | packages/taskgraph/taskgraph/task.py:29-31 | outside a graph execution fails with "no active graph" and changes no dict, node arguments included |
| TaskGraph.ResolveRunWithoutGraph | packages/taskgraph/taskgraph/task.py:29 | outside a graph, resolving changes no dict and can only fail with "no active graph" |
| TaskGraph.CallInBehaviour | packages/taskgraph/taskgraph/task.py:42-49 | a raising body fails with its message; reading the global state without a task context fails with TaskContextError; a returned or read value yields its items; a generator yields at most one item per step |
| TaskGraph.CallInKeepsTable | packages/taskgraph/taskgraph/task.py:36 | calling a body keeps every task id's dict |
| TaskGraph.NodeRunKeepsTable | packages/taskgraph/taskgraph/task.py:28-49 | executing a node keeps every task id's dict: setdefault only adds |
| TaskGraph.ResolveRunKeepsTable | packages/taskgraph/taskgraph/task.py:29 | resolving arguments keeps every task id's dict |
| TaskGraph.RunAll | packages/taskgraph/taskgraph/graph.py:86-88 | the node loop drains every node exactly when it does not fail |
| TaskGraph.RunAllKeepsTable | packages/taskgraph/taskgraph/graph.py:86-88 | running the nodes keeps every task id's dict |
| TaskGraph.RunAllInOrder | packages/taskgraph/taskgraph/graph.py:86-88 | the nodes run in registration order: each before the drained count succeeds from the state its predecessors left, and a failure is the error of the next node |
| TaskGraph.RunAllNext | packages/taskgraph/taskgraph/graph.py:86-88 | one more node: a failure ends the loop with that node's error, a success moves on to the next node |
| TaskGraph.RunAllDone | packages/taskgraph/taskgraph/graph.py:86-88 | past the last node the loop has drained everything |
| TaskGraph.HoldsAfterSetDefault | packages/taskgraph/taskgraph/task.py:36 | storing a fresh {} under a new id keeps the real dicts in step with the abstract state |
| TaskGraph.HoldsAfterRun | packages/taskgraph/taskgraph/task.py:34-40 | writing the run's new contents to the global dict and the task's dict keeps the real dicts in step with the abstract state |
| TaskGraph.KeptEntries | packages/taskgraph/taskgraph/task.py:36 | an id whose abstract dict is an existing one still has that very dict |
| TaskGraph.EffectiveId | packages/taskgraph/taskgraph/task.py:15 | `task_id or name`: an empty id falls back to the name and any other id is kept |
| TaskGraph.TaskNode.constructor | packages/taskgraph/taskgraph/task.py:13-22 | the node keeps name, fn and kwargs; the id is the name when missing or empty; both edge sets start empty |
| TaskGraph.TaskNode.SetUpstream | packages/taskgraph/taskgraph/task.py:24-26 | the edge is recorded on both ends and nothing else changes |
| TaskGraph.TaskNode.Drain | packages/taskgraph/taskgraph/task.py:33-40 | takes or creates this task's state dict, runs the stream inside the task context and restores the context; the table gains at most this task's fresh dict, and the result and the dicts' new contents are exactly DrainIn's |
| TaskGraph.TaskNode.TakeState | packages/taskgraph/taskgraph/task.py:36 | setdefault returns the existing dict, or stores and returns a fresh one, and the abstract state follows SetDefaultIn |
| TaskGraph.TaskNode.RunAndRecord | packages/taskgraph/taskgraph/task.py:34-40 | running the steps in the context leaves the real dicts as the abstract run records them |
| TaskGraph.TaskNode.RunInContext | packages/taskgraph/taskgraph/task.py:34-40 | inside an entered and then exited task context, the result and both dicts' new contents are those of the specification run; the context is restored |
| TaskGraph.TaskNode.Pull | packages/taskgraph/taskgraph/task.py:39-40 | the yield loop inside the context: the yielded items, the dict contents and the first error are exactly those of the specification run |
| TaskGraph.TaskNode.PullStep | packages/taskgraph/taskgraph/task_context.py:20-32 | one step through the context accessors yields, writes and raises exactly as the step specification says |
| TaskGraph.TaskNode.Resolve | packages/taskgraph/taskgraph/task.py:29 | the resolution equals ResolveRun: literals in order, each upstream node executed from the state the earlier arguments left, the first failure stopping it; new dicts are fresh and the context is restored |
| TaskGraph.TaskNode.ResolveNext | packages/taskgraph/taskgraph/task.py:29 | resolving one more argument, by executing its node when it is one, gives ResolveRun's next state; new dicts are fresh and the context is restored |
| TaskGraph.TaskNode.Execute | packages/taskgraph/taskgraph/task.py:28-49 | the run equals NodeRun (arguments resolved, then no current graph fails, then the body is called and drained); every new dict is fresh and the context is restored |
| TaskGraph.TaskNode.CallInGraph | packages/taskgraph/taskgraph/task.py:31-49 | no current graph fails with "no active graph"; otherwise the body is called and drained as CallIn says; new dicts are fresh and the context is restored |
| TaskGraph.TaskNode.CallBody | packages/taskgraph/taskgraph/task.py:42-49 | calling the body and draining what it gives equals CallIn; the table gains at most this task's fresh dict and the context is restored |
| TaskGraph.RunHooks | packages/taskgraph/taskgraph/graph.py:93-104 | hooks run in order: the result is Pass exactly when every hook passes; otherwise it is the first failing hook's error, and all hooks before it passed |
| TaskGraph.HookOutcome | packages/taskgraph/taskgraph/graph.py:95-104 | a hook fails exactly when it raises or reads the task context outside a task; a context read becomes the error naming the hook; any other error passes unchanged |
| TaskGraph.FirstIndex | packages/taskgraph/taskgraph/graph.py:49-50 | the position of the first hook equal to h |
| TaskGraph.RemoveFirst | packages/taskgraph/taskgraph/graph.py:47-50 | an absent hook leaves the list unchanged; a present one shortens it by exactly one |
| TaskGraph.RemoveFirstPresent | packages/taskgraph/taskgraph/graph.py:47-50 | removing a present hook deletes exactly its first occurrence and keeps the others in order |
| TaskGraph.RemoveFirstAt | packages/taskgraph/taskgraph/graph.py:47-50 | when the first equal hook is at position i, removal cuts out exactly that element |
| TaskGraph.RemoveFirstAbsent | packages/taskgraph/taskgraph/graph.py:47-50 | removing an absent hook changes nothing |
| TaskGraph.StrLeTotal | packages/taskgraph/taskgraph/graph.py:66 | Python's string order on task ids is total |
| TaskGraph.StrLeTrans | packages/taskgraph/taskgraph/graph.py:66 | Python's string order on task ids is transitive |
| TaskGraph.TaskIds | packages/taskgraph/taskgraph/graph.py:76 | the id list has one entry per node, each node's task_id, in order |
| TaskGraph.InsertByIdPerm | packages/taskgraph/taskgraph/graph.py:66 | inserting a node adds exactly that node |
| TaskGraph.InsertByIdAbove | packages/taskgraph/taskgraph/graph.py:66 | insertion keeps a lower bound on the ids |
| TaskGraph.InsertBySorted | packages/taskgraph/taskgraph/graph.py:66 | inserting into a sorted list keeps it sorted |
| TaskGraph.TaskIdsConcat | packages/taskgraph/taskgraph/graph.py:76 | the ids of concatenated node lists are the concatenated ids |
| TaskGraph.TaskIdsPerm | packages/taskgraph/taskgraph/graph.py:76 | a permutation of the nodes gives a permutation of their ids |
| TaskGraph.SortByIdSpec | packages/taskgraph/taskgraph/graph.py:66 | sorted(nodes, key=task_id) is sorted by id and is a permutation of the nodes |
| TaskGraph.InsertById | packages/taskgraph/taskgraph/graph.py:66 | inserting a node into the sorted list adds exactly one element |
| TaskGraph.SortById | packages/taskgraph/taskgraph/graph.py:66 | the sorted list has exactly as many nodes as the graph |
| TaskGraph.UpstreamOrdersSnoc | packages/taskgraph/taskgraph/graph.py:68-69 | extending the per-node upstream enumerations by one node keeps them valid |
| TaskGraph.AllEdgesExactly | packages/taskgraph/taskgraph/graph.py:67-73 | the exported edges are exactly the upstream relations of the listed nodes, in both directions |
| TaskGraph.SameNodesSameEdges | packages/taskgraph/taskgraph/graph.py:66-73 | sorting the nodes does not change which edges exist |
| TaskGraph.BlocksMention | packages/taskgraph/taskgraph/graph.py:56-63 | the graphviz text has a line for every node and an edge line for every upstream relation |
| TaskGraph.GraphvizLines | packages/taskgraph/taskgraph/graph.py:57-62 | the lines open with "digraph <name> {", close with "}", and hold the node blocks in between |
| TaskGraph.Enumerate | packages/taskgraph/taskgraph/graph.py:60 | iterating a set visits each member exactly once |
| TaskGraph.EdgesOf | packages/taskgraph/taskgraph/graph.py:67-73 | the edge loop builds, node by node, one edge from each upstream node |
| TaskGraph.Graph.constructor | packages/taskgraph/taskgraph/graph.py:10-15 | name kept, no nodes or hooks; a missing or empty state dict is replaced by a fresh empty one and a non-empty one is shared |
| TaskGraph.Graph.State | packages/taskgraph/taskgraph/graph.py:17-22 | the getter exposes the two live dicts |
| TaskGraph.Graph.SetState | packages/taskgraph/taskgraph/graph.py:24-29 | a non-dict raises ValueError and changes nothing; otherwise each state becomes the given dict, or a fresh empty one when its key is missing |
| TaskGraph.Graph.UpdateState | packages/taskgraph/taskgraph/graph.py:31-35 | a non-dict raises ValueError and changes nothing; otherwise both dicts merge the given entries and keep the others |
| TaskGraph.Graph.AddNode | packages/taskgraph/taskgraph/graph.py:37-38 | appends the node, keeping registration order |
| TaskGraph.Graph.AddHook | packages/taskgraph/taskgraph/graph.py:40-45 | appends the hook |
| TaskGraph.Graph.RemoveHook | packages/taskgraph/taskgraph/graph.py:47-50 | an absent hook leaves the list unchanged; a present one is removed once: length minus one and multiset minus that hook |
| TaskGraph.Graph.ClearHooks | packages/taskgraph/taskgraph/graph.py:52-54 | the hook list becomes empty |
| TaskGraph.Graph.ToGraphviz | packages/taskgraph/taskgraph/graph.py:56-63 | the text is the header, each node's line followed by its upstream edge lines, and a closing brace, joined by newlines |
| TaskGraph.Graph.ToJson | packages/taskgraph/taskgraph/graph.py:65-79 | graph name; node ids sorted and a permutation of the graph's ids; an edge exists exactly for each upstream relation |
| TaskGraph.Graph.CallExecuteEndHooks | packages/taskgraph/taskgraph/graph.py:93-104 | the hooks are called in order up to and including the first failure, and the outcome is the hook runner's |
| TaskGraph.Graph.Execute | packages/taskgraph/taskgraph/graph.py:81-91 | stack and context restored; hooks always run and a hook error wins; otherwise it fails with the node loop's error and passes when every node ran; the run is RunAll from the graph's state, which the real dicts then hold, and every task keeps its state dict |
| TaskGraph.Graph.RunPushed | packages/taskgraph/taskgraph/graph.py:83-90 | the graph is pushed for the node loop and popped afterwards; the loop's failure and dicts are RunAll's |
| TaskGraph.Graph.RunNodes | packages/taskgraph/taskgraph/graph.py:86-88 | the loop's failure and final state are exactly RunAll's over the nodes in registration order; the context is restored |
| TaskGraph.HooksStopAt | packages/taskgraph/taskgraph/graph.py:95-104 | the runner stops at the first failing hook, having called it |
| Decorators.AsWrittenAdmitsDuplicate | packages/taskgraph/taskgraph/decorators.py:82-85 | the duplicate check as written lets task_id="" through and yields a second node with an existing id |
| Decorators.AdmitsKeepsDistinct | packages/taskgraph/taskgraph/decorators.py:82-85 | the check on the effective id keeps a graph's task ids distinct |
| Decorators.ChecksAgreeOnNonEmptyIds | packages/taskgraph/taskgraph/decorators.py:82-85 | for any non-empty task_id the check as written and the corrected one agree |
| Decorators.Refs | packages/taskgraph/taskgraph/decorators.py:89-91 | the set of keyword values that are nodes, exactly |
| Decorators.TaskWrapper | packages/taskgraph/taskgraph/decorators.py:74-94 | no current graph, no task_id or a taken id each fail with their error and change nothing; otherwise a fresh node with the effective id is appended and linked both ways to every node argument |
| Decorators.LinkUpstream | packages/taskgraph/taskgraph/decorators.py:89-91 | every node argument becomes upstream of the new node and gains it downstream, and nothing else about them changes |
| Decorators.CallableHooks | packages/taskgraph/taskgraph/decorators.py:55-58 | keeps exactly the callable entries of the list |
| Decorators.HooksFromOption | packages/taskgraph/taskgraph/decorators.py:51-58 | a single callable gives that one hook; a list or tuple gives exactly its callable entries; no option or a non-callable one gives none |
| Decorators.DeclIdsDistinct | packages/taskgraph/taskgraph/decorators.py:60-65 | a declaration that runs to the end leaves distinct task ids, one per call |
| Decorators.NextIds | packages/taskgraph/taskgraph/decorators.py:77-87 | a raising statement fails with its error; a call that succeeds has a task_id and appends exactly one id, keeping the earlier ones |
| Decorators.DeclIds | packages/taskgraph/taskgraph/decorators.py:60-63 | a declaration that runs to the end adds one id per statement and keeps the ids the graph already had in front |
| Decorators.DeclIdsAt | packages/taskgraph/taskgraph/decorators.py:60-65 | the declaration from call i is that call followed by the rest |
| Decorators.Bind | packages/taskgraph/taskgraph/decorators.py:62 | a call's arguments, with earlier calls' nodes in place of the variables bound to them |
| Decorators.GraphWrapper | packages/taskgraph/taskgraph/decorators.py:42-65 | a fresh graph named after the function with the callable hooks; a given non-empty state dict is used and a missing or empty one is replaced by a fresh {}; the context is popped whatever happens; it succeeds exactly when the declaration does, with the declared ids, distinct, and every edge recorded on both ends |
| Decorators.DeclareInGraph | packages/taskgraph/taskgraph/decorators.py:60-65 | the graph is current while the declaration runs and is popped afterwards; the result and node ids are the declaration's, distinct, with two-way edges |
| Decorators.Declare | packages/taskgraph/taskgraph/decorators.py:60-63 | runs the declaration with the graph current, stopping at the first error, which is the declaration's error |
| Decorators.DeclareCall | packages/taskgraph/taskgraph/decorators.py:62 | one task call inside the declaration fails with the error the declaration records, or appends a fresh node with the next declared id, keeping ids distinct and edges two-way |
| Decorators.AddHooks | packages/taskgraph/taskgraph/decorators.py:51-58 | one callable is added; from a list or tuple the callable entries are added in order; anything else adds none |
| Decorators.CallableHooksSnoc | packages/taskgraph/taskgraph/decorators.py:55-58 | filtering a list extended by one entry extends the filtered list by that entry if it is callable |
| CandleTypes.DecimalValue | packages/candles/candles/types.py:29-31 | int() of a digit string is non-negative, and positive without a leading zero |
| CandleTypes.FindUnit | packages/candles/candles/types.py:33-39 | the first unit whose label is the character; ValueError exactly when none matches |
| CandleTypes.Unit | packages/candles/candles/types.py:33-39 | the unit found carries the last character of the timeframe as its label; otherwise ValueError names that character |
| CandleTypes.Length | packages/candles/candles/types.py:29-31 | every timeframe's length is positive |
| CandleTypes.UnitKnown | packages/candles/candles/types.py:33-39 | every timeframe's last character names a unit, so `unit` never raises |
| CandleTypes.Ms | packages/candles/candles/types.py:41-43 | a timeframe's length in milliseconds is positive |
| CandleTypes.MsValues | packages/candles/candles/types.py:7-24 | 5m, 15m, 1h, 4h, 1D and 1W are 300000, 900000, 3600000, 14400000, 86400000 and 604800000 ms |
| CandleTypes.MsInjective | packages/candles/candles/types.py:41-43 | two timeframes have the same ms exactly when they are the same timeframe |
| CandleTypes.MinByMs | packages/candles/candles/types.py:45-47 | min(key=ms) is a member, is no longer than any other, and is the first of the shortest |
| CandleTypes.GetMinTimeframe | packages/candles/candles/types.py:45-47 | the result is one of the timeframes and no timeframe is shorter in ms |
| CandleTypes.MinByMsIs5m | packages/candles/candles/types.py:45-47 | any list containing 5m has 5m as its minimum |
| CandleTypes.MinTimeframeIs5m | packages/candles/candles/types.py:45-47 | get_min_timeframe is 5m |
| CandleTypes.FiveMinutesShortest | packages/candles/candles/types.py:18-47 | every other timeframe is strictly longer than 5m |
| CandleTypes.NewCandle | packages/candles/candles/types.py:85-90 | the defaults: complete, and open, close, high and low all 0 |
| CandleTypes.NewRsi | packages/candles/candles/types.py:93-100 | the defaults: complete, value, price and averages 0, length 0, max_length 14 |
| CandleTypes.Copy | packages/candles/candles/types.py:63-68 | copy keeps the record's kind, and each field is the override if given, else the original |
| CandleTypes.CopyWithoutOverrides | packages/candles/candles/types.py:63-68 | copy without arguments is the identity, and with only a timestamp it changes only the timestamp |
| CandleTypes.EndTimestamp | packages/candles/candles/types.py:70-82 | the end timestamp is exactly one timeframe after the start |
| CandleTypes.StartTimestamp | packages/candles/candles/types.py:70-75 | the start is the record's own timestamp and lies before its end |
| CandleUtils.PyMod | packages/candles/candles/utils.py:73 | Python's floored `%`: for a positive divisor in [0, b), for a negative one in (b, 0] |
| CandleUtils.TimePassedIntervalStart | packages/candles/candles/utils.py:71-73 | the time since the last interval boundary counted from the base initial timestamp lies in [0, interval) |
| CandleUtils.RoundDownToNearestInterval | packages/candles/candles/utils.py:63-65 | rounding down never exceeds the timestamp and is less than one interval below it |
| CandleUtils.TimePassedShift | packages/candles/candles/utils.py:71-73 | the time passed is unchanged by whole intervals |
| CandleUtils.RoundDownAligned | packages/candles/candles/utils.py:63-73 | a rounded timestamp is on the grid, and rounding is idempotent |
| CandleUtils.ValidateCandle | packages/candles/candles/utils.py:40-60 | passes exactly when the candle is after the previous one (if any) and not before the base initial timestamp; otherwise the first failing check's error |
| CandleUtils.DateObjToTimestamp | packages/candles/candles/utils.py:25-33 | an int is returned unchanged; any other object raises ValueError |
| CandleOperations.Max | packages/candles/candles/operations.py:43 | the larger of the two highs |
| CandleOperations.Min | packages/candles/candles/operations.py:44 | the smaller of the two lows |
| CandleOperations.DefaultPrevCandle | packages/candles/candles/operations.py:24-28 | the default previous candle is the candle moved into the target timeframe and one candle length earlier |
| CandleOperations.MergeCandles | packages/candles/candles/operations.py:5-51 | ValueError exactly when the target is finer; on the grid the candle itself; off it, open from the previous candle, close from the candle, and high/low the extremes of both |
| CandleOperations.MergeCompleteRule | packages/candles/candles/operations.py:31-50 | the merged candle is complete exactly when the candle closes the target interval |
| CandleOperations.MergeIntoSameTimeframe | packages/candles/candles/operations.py:5-51 | merging into its own timeframe returns an on-grid candle unchanged and complete, and marks an off-grid one incomplete |
| CandleOperations.MergeKeepsExtremes | packages/candles/candles/operations.py:38-50 | the merged high is at least the candle's high and the merged low at most its low |
| CandleOperations.DefaultPrevRsi | packages/candles/candles/operations.py:58-63 | the default previous RSI is a default record one candle length earlier |
| CandleOperations.CalculateRsi | packages/candles/candles/operations.py:54-100 | a previous price with a length of 0 is the ZeroDivisionError and nothing else fails; otherwise timestamp, complete flag and base timeframe come from the candle, a complete candle sets the price and grows the length up to max_length, and averages update only when there was a previous price |
| CandleOperations.RsiLengthBounded | packages/candles/candles/operations.py:87 | a successful update keeps the RSI length within [0, max_length] |
| ExchangeClient.PyRangeAt | packages/candles/candles/clients/exchange/exchangebase.py:72 | the k-th element of range is start + k*step and lies before stop |
| ExchangeClient.PyRange | packages/candles/candles/clients/exchange/exchangebase.py:72 | range begins at start and every element lies between start and stop, on the side the step points to, stop excluded |
| ExchangeClient.PyRangeExhausted | packages/candles/candles/clients/exchange/exchangebase.py:72 | range is empty exactly when start >= stop, and its last element is within one step of stop |
| ExchangeClient.BatchesTile | packages/candles/candles/clients/exchange/exchangebase.py:70-73 | the batches tile [start, end - interval]: consecutive, each non-empty and at most one step long, the last ending at end - interval |
| ExchangeClient.Batches | packages/candles/candles/clients/exchange/exchangebase.py:70-73 | one batch per range element; no batch ends after end - interval; with a positive step each batch is non-empty, starts at or after start and is at most one step long |
| ExchangeClient.ClientBatches | packages/candles/candles/clients/exchange/exchangebase.py:70-73 | a missing request limit raises, a zero step raises, otherwise these are the batches |
| ExchangeClient.Then | packages/candles/candles/clients/exchange/exchangebase.py:82 | `yield from` yields the given items first, then whatever the generator produces |
| ExchangeClient.CopiesAt | packages/candles/candles/clients/exchange/exchangebase.py:107-110 | at most one copy per timestamp |
| ExchangeClient.CopyAt | packages/candles/candles/clients/exchange/exchangebase.py:108 | the copy is a candle at the given timestamp with every other field of the previous candle |
| ExchangeClient.Impute | packages/candles/candles/clients/exchange/exchangebase.py:101-106 | a gap of at most one interval raises ValueError before yielding anything |
| ExchangeClient.ImputeCandles | packages/candles/candles/clients/exchange/exchangebase.py:90-110 | the range loop yields exactly the specified copies, stopping at the first that fails validation |
| ExchangeClient.CleanBatch | packages/candles/candles/clients/exchange/exchangebase.py:76-87 | one batch's inner loop yields exactly the cleaning function's prefix, and hands its last candle on to the next batch |
| ExchangeClient.CleanOne | packages/candles/candles/clients/exchange/exchangebase.py:77-87 | one candle of the loop: a repeated timestamp is skipped, a gap is filled with copies first, and the candle is validated against the previous one, exactly as the cleaning function says |
| ExchangeClient.Clean | packages/candles/candles/clients/exchange/exchangebase.py:75-87 | the first candle yielded after a previous one is strictly later than it; no raw candles yield nothing |
| ExchangeClient.FetchCandles | packages/candles/candles/clients/exchange/exchangebase.py:46-88 | the batch loop yields exactly what the cleaning function over all batches' raw candles yields |
| ExchangeClient.Fetch | packages/candles/candles/clients/exchange/exchangebase.py:46-73 | a start that is not a timestamp raises before anything is yielded; a missing req_limit_per_min raises with nothing yielded; a range shorter than one interval yields nothing |
| ExchangeClient.ChainedPairs | packages/candles/candles/clients/exchange/exchangebase.py:79-87 | a chained timestamp sequence is strictly increasing with steps of at most one interval |
| ExchangeClient.ChainJoin | packages/candles/candles/clients/exchange/exchangebase.py:82-87 | two chained runs meeting at a shared candle form one chained run |
| ExchangeClient.CopiesChain | packages/candles/candles/clients/exchange/exchangebase.py:107-110 | the imputed copies all validate, step by one interval and reach the next candle within one interval |
| ExchangeClient.CopiesValid | packages/candles/candles/clients/exchange/exchangebase.py:107-110 | every copy after the previous candle validates, one per range element and in order |
| ExchangeClient.RangeChained | packages/candles/candles/clients/exchange/exchangebase.py:107-110 | the range's timestamps, then the stop, step up from the previous timestamp by at most one interval |
| ExchangeClient.ImputeFills | packages/candles/candles/clients/exchange/exchangebase.py:90-110 | for a gap above one interval, exactly the copies at prev + k*interval below the candle, with no error |
| ExchangeClient.CleanStepImputed | packages/candles/candles/clients/exchange/exchangebase.py:81-87 | a gap followed by imputation keeps the stream chained |
| ExchangeClient.CleanStepDirect | packages/candles/candles/clients/exchange/exchangebase.py:83-87 | a candle that is not a duplicate and needs no imputation keeps the stream chained |
| ExchangeClient.CleanChained | packages/candles/candles/clients/exchange/exchangebase.py:74-87 | the cleaned stream strictly increases, never jumps more than one interval, and starts no earlier than the base initial timestamp |
| ExchangeClient.FetchOrdered | packages/candles/candles/clients/exchange/exchangebase.py:46-88 | what fetch_candles yields strictly increases, candles are at most one interval apart, and none is before the base initial timestamp |
| ExchangeClient.DuplicateDropped | packages/candles/candles/clients/exchange/exchangebase.py:79-80 | a raw candle with the previous candle's timestamp is skipped |
| ExchangeClient.OutOfOrderRaises | packages/candles/candles/clients/exchange/exchangebase.py:85 | a raw candle earlier than the previous one raises ValueError before anything is yielded |
| MockExchange.Balances.Set | packages/trading/trading/mock_exchange/engine.py:91 | sets one account and leaves the other |
| MockExchange.Lookup | packages/trading/trading/mock_exchange/engine.py:84 | the open order with the given id |
| MockExchange.PutIds | packages/trading/trading/mock_exchange/engine.py:25 | `orders[id] = order` keeps ids distinct, adds the id, and appends only for a new id |
| MockExchange.Put | packages/trading/trading/mock_exchange/engine.py:25 | after `orders[id] = order` the order is stored, every order with another id stays, and nothing else appears |
| MockExchange.PutLookup | packages/trading/trading/mock_exchange/engine.py:25 | after the put the id maps to the new order and every other id to its old order |
| MockExchange.WithoutSpec | packages/trading/trading/mock_exchange/engine.py:78-79 | popping a set of ids removes exactly those orders and keeps ids distinct |
| MockExchange.Without | packages/trading/trading/mock_exchange/engine.py:78-79 | popping a set of ids never adds orders and leaves no order with a popped id |
| MockExchange.WithoutNothing | packages/trading/trading/mock_exchange/engine.py:78-79 | popping no ids changes nothing |
| MockExchange.RemoveIdWithout | packages/trading/trading/mock_exchange/engine.py:78-79 | popping one more id is removing it from the set |
| MockExchange.RemoveId | packages/trading/trading/mock_exchange/engine.py:42 | after `orders.pop(id)` no order has that id, and no order was added |
| MockExchange.Route | packages/trading/trading/mock_exchange/engine.py:96-110 | exchange order types settle on the exchange account and the others on margin; limit and stop-limit pay the maker fee and market and stop the taker fee; an unknown type raises ValueError |
| MockExchange.AddTo | packages/trading/trading/mock_exchange/engine.py:90-94 | the amount is added to one account and the other is kept; RuntimeError exactly when the result is below zero, after the addition |
| MockExchange.Settle | packages/trading/trading/mock_exchange/engine.py:96-110 | the account is debited by price * quantity * (1 - fee); an unknown type leaves the balances unchanged with ValueError |
| MockExchange.SettleAllAppend | packages/trading/trading/mock_exchange/engine.py:69-77 | settling two runs of orders in turn is settling their concatenation |
| MockExchange.SettleAll | packages/trading/trading/mock_exchange/engine.py:69-77 | no orders leave the balances as they are; a settlement run stops only for an unknown order type or for an account that went below zero |
| MockExchange.SettleAllNonNegative | packages/trading/trading/mock_exchange/engine.py:90-94 | a settlement run that completes never leaves an account below zero |
| MockExchange.SettleExamples | packages/trading/trading/mock_exchange/engine.py:96-99 | with 100000 on margin and maker fee 0.001, buying 1 at 30000 leaves 70030 and selling 1 at 40000 leaves 139960 |
| MockExchange.Execute | packages/trading/trading/mock_exchange/engine.py:83-88 | the executed copy has status EXECUTED and the update time, and all other fields of the original |
| MockExchange.Cancel | packages/trading/trading/mock_exchange/engine.py:39-41 | the canceled copy has status CANCELED and the update time, and all other fields of the original |
| MockExchange.FiredAppend | packages/trading/trading/mock_exchange/engine.py:69-77 | the orders triggered by two runs of orders are those of each run, in order |
| MockExchange.Triggers | packages/trading/trading/mock_exchange/engine.py:72-75 | only orders on the symbol fire, and an order priced exactly at the previous or the new price fires: the range is closed |
| MockExchange.Fired | packages/trading/trading/mock_exchange/engine.py:69-77 | at most one executed copy per open order, each with status EXECUTED, the tick's update time and the tick's symbol |
| MockExchange.FiredExactly | packages/trading/trading/mock_exchange/engine.py:69-79 | triggered are exactly the executed copies of orders on the symbol whose price lies between the old and new price, and the orders left are exactly the others |
| MockExchange.FiredFrom | packages/trading/trading/mock_exchange/engine.py:69-77 | each triggered order is the executed copy of an open order that the move crossed |
| MockExchange.FiredHas | packages/trading/trading/mock_exchange/engine.py:69-77 | every open order the move crossed is triggered |
| MockExchange.SameIdSameOrder | packages/trading/trading/mock_exchange/engine.py:14 | in a dict keyed by id, one id means one order |
| MockExchange.FireStep | packages/trading/trading/mock_exchange/engine.py:69-77 | one iteration of the trigger loop: an uncrossed order changes nothing, and a crossed one is executed and settled |
| MockExchange.RemoveStep | packages/trading/trading/mock_exchange/engine.py:78-80 | one iteration of the removal loop pops the next triggered id |
| MockExchange.Reverse | packages/trading/trading/mock_exchange/engine.py:35 | reversed() gives the same orders from last to first |
| MockExchange.TradeEngine.constructor | packages/trading/trading/mock_exchange/engine.py:7-22 | no orders, no history, no prices, the two initial balances and the fees |
| MockExchange.TradeEngine.AddOrder | packages/trading/trading/mock_exchange/engine.py:24-26 | the id now maps to the order (replacing any order with that id), and the order is appended to the history |
| MockExchange.TradeEngine.GetOrders | packages/trading/trading/mock_exchange/engine.py:28-29 | exactly the open orders, one per id |
| MockExchange.TradeEngine.GetOrderHistory | packages/trading/trading/mock_exchange/engine.py:31-35 | the history in insertion order, or reversed |
| MockExchange.TradeEngine.RemoveOrder | packages/trading/trading/mock_exchange/engine.py:37-44 | an open id is removed and its canceled copy appended to the history and returned; an unknown id changes nothing and returns None |
| MockExchange.TradeEngine.AddBalance | packages/trading/trading/mock_exchange/engine.py:90-94 | the balance after the call is the specified addition; the call fails exactly when the account went negative, otherwise returns the balances |
| MockExchange.TradeEngine.UpdateBalanceWithOrder | packages/trading/trading/mock_exchange/engine.py:96-110 | the balances and outcome are those of the settlement function |
| MockExchange.TradeEngine.ExecuteOrder | packages/trading/trading/mock_exchange/engine.py:83-88 | returns the executed copy of the order and settles it |
| MockExchange.TradeEngine.TriggerOrders | packages/trading/trading/mock_exchange/engine.py:59-81 | without a previous price it raises and changes nothing; otherwise the crossed orders are executed in order, settled, removed and appended to the history; a settlement error leaves orders and history unchanged |
| MockExchange.TradeEngine.SettleCrossed | packages/trading/trading/mock_exchange/engine.py:68-77 | the first loop executes and settles, in dict order, exactly the crossed orders; it stops at the first settlement error with the balances settled so far |
| MockExchange.TradeEngine.RetireFired | packages/trading/trading/mock_exchange/engine.py:78-80 | the second loop pops exactly the fired ids from the dict and appends the fired orders to the history in order |
| MockExchange.TradeEngine.UpdatePrice | packages/trading/trading/mock_exchange/engine.py:46-57 | with no open orders only the price changes; otherwise triggering as above, and the price is recorded unless triggering raised |

## Left out

- `datetime` and string inputs of `dateobj_to_timestamp` are not modelled. The model keeps the int case and the ValueError case. Date parsing and time zones are not modelled.
- `morph_prev_timeseries_obj` is not part of this model, and `BASE_INITIAL_TIMESTAMP` is a constant whose value is not fixed. Both are parameters.
- CandleOperations.CalculateRsi: the floating-point gain/loss averages, the RSI value and `round(…, 2)` are parameters. The contract states which record fields come from where, not the arithmetic. The division by the previous length is kept as the ZeroLengthAverage error. Any other float exception inside the formula is not modelled.
- Decorators.TaskWrapper: the duplicate check compares the id the node will carry (`Admits`), not the `task_id` as passed. The two differ only for `task_id=""` (see Findings). The model uses the corrected check, so it does not reproduce the second node with an existing id that the source adds. Decorators.AsWrittenAdmitsDuplicate exhibits that behaviour.
- Decorators.DeclareCall: it accepts or rejects a call by the corrected duplicate check, as TaskWrapper does.
- Decorators.Declare: its result is defined through NextIds, which uses the corrected duplicate check.
- Decorators.DeclIdsDistinct: distinct ids hold for the corrected check. As written, `task_id=""` can repeat an id.
- Decorators.GraphWrapper: its distinct node ids rest on the corrected duplicate check.
- Decorators.DeclareInGraph: its distinct node ids rest on the corrected duplicate check.
- Decorators.NextIds: it accepts or rejects a call by the corrected duplicate check.
- Decorators.DeclIds: it runs the statements through NextIds, so it uses the corrected duplicate check.
- Floats are modelled as exact reals throughout, so there is no rounding.
- `time.sleep` between batches and the HTTP request behind `fetch_raw_candles` are not modelled. The raw fetch is a function parameter. `url` is abstract.
- ExchangeClient.FetchCandles: a non-positive client interval is excluded by its precondition, because range() semantics with a negative step are not modelled for the imputation loop.
- Type checks (`isinstance(candle, Candle)`, the `callable` checks on single hooks) are enforced by Dafny's types. Only the observable branches are kept.
- TaskGraph.TaskNode.Execute: streams are drained eagerly. An upstream node's stream is drained when its downstream node resolves its arguments, whereas Python generators interleave lazily. So the interleaving of producer and consumer steps is not modelled.
- A task body is abstract: it returns a value, reads the global state, is a fixed sequence of generator steps, or raises.
- Task ids are strings. A non-string `task_id` is not modelled.
- `TaskState` (`node.state`) is never read by the package, so it is not modelled.
- `to_json` builds the data and stops there. The text serialisation by `json.dumps` and the `pretty` indentation are not modelled.
- Hooks compare structurally (name and effect) rather than by object identity. A hook's effect is one of: completes, reads the task context, or raises.
- The "dict that drops writes" (the `storesWrites` flag) stands for a dict subclass that makes `set_global_state`'s read-back check fail. Ordinary dicts store writes.
- `contextvars.ContextVar.reset` errors (a reset with a foreign token) are not modelled. Enter and exit always pair up.
- The `Ranked`/`Valid` and `WellFormed` preconditions are modelling requirements. Python builds nodes only from existing nodes, and a declaration can refer only to nodes it already made.
- TaskContexts.GetGlobalStateValue: a key stored with an explicit `None` value is indistinguishable from the default.
- The `Order` record and the `BalanceType` and `STOP_LIMIT` order types are taken from their use in engine.py. The trading/types.py copy at hand lacks them.
- Order ids are ints.
- `api.py`, `custom_tasks.py` and the exchange subclasses are not modelled; they sit outside the modelled core.

## Findings

| source | as written | input that shows it | evidently intended | confidence | as-written member | corrected member |
|---|---|---|---|---|---|---|
| packages/taskgraph/taskgraph/decorators.py:82-85 | the duplicate check compares the `task_id` as passed, but the node takes `task_id or fn.__name__` | a graph that already has a node "f"; calling `f(task_id="")` passes the check and adds a second node with id "f" | compare the id the node will carry, so a graph's ids stay distinct | medium, not executed | Decorators.AsWrittenAdmitsDuplicate | Decorators.AdmitsKeepsDistinct |
