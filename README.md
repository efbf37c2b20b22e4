# Pipeline graph store and level objective

This project models the logical core of a pipeline-building puzzle game. The
player wires data-processing nodes into a directed graph, and a level is
won when the pipeline's flow reaches a target before the clock runs out.

- `pipeline.dfy`, module `Pipeline`, models the graph store
  (`PipelineManager`). It holds a table of nodes keyed by id and, for each
  node that has outgoing edges, the list of the ids the node feeds. Nodes
  are registered under an id the caller chooses, and a second registration
  under the same id is ignored. An edge is appended only when both of its
  ends are registered. Edges are not deduplicated. The flow is the total
  capacity of the nodes tagged `"DataSource"`.
- `level.dfy`, module `Level`, models the level objective
  (`LevelManager`). It has a countdown timer, a budget and an "active"
  latch. Each frame the timer runs down first. Then the level is lost if
  time is up, or else won if the flow meets the target. A spend succeeds
  only when the budget covers it.

Both source classes update their fields in place, so both are Dafny
classes. `PipelineManager` keeps its two dictionaries as `map` fields.
`LevelManager` keeps its three state fields, plus a ghost `outcome` that
records how the level ended. `LevelManager` reports the outcome only as
console text. Each method is specified by a pure function
(`Register`, `Connect`, `TotalFlow`, `Initialized`, `Step`, `Checked`,
`Ended`, `Spend`), and the lemmas state the properties of those functions.

Comments at Assets/Scripts/FilterNode.cs:30 and
Assets/Scripts/AggregateNode.cs:20-22 anticipate a graph traversal in
`PipelineManager`. The code has none, and the model follows the code:
- the flow is the sum of the data-source capacities, and it does not
  depend on the edges. There is no traversal from the sinks, memoised or
  otherwise;
- there is no table of incoming edges, only the out-edge lists;
- ids are chosen by the caller, not handed out by the store;
- `OnConnectionMade` is subscribed to at
  Assets/Scripts/PipelineVisualizer.cs:20 but is never declared in
  `PipelineManager`, so no notification is modelled.

The level's objective fields (`timeLimit`, `targetFlow`, `initialBudget`)
are public fields that other code may change at any time. The model keeps
them as mutable fields: `InitializeLevel` and every `Tick` read their
current values, and no method of the level changes them.

## Model

| member | source | states |
|---|---|---|
| `Pipeline.Register` | Assets/Scripts/PipelineManager.cs:26-37 | registering a node with a new id adds exactly that entry; a node already stored under the id is kept and the table is unchanged; every existing entry survives |
| `Pipeline.Connect` | Assets/Scripts/PipelineManager.cs:44-59 | when both ends are registered, the list of `fromId` (empty if it had none) gets `toId` appended at its end and no other list changes; otherwise the edge table is unchanged |
| `Pipeline.TotalFlowPick` | Assets/Scripts/PipelineManager.cs:66-79 | the flow does not depend on the order in which nodes are visited: removing any one node takes exactly its contribution off the total |
| `Pipeline.TotalFlowAfterRegister` | Assets/Scripts/PipelineManager.cs:66-79 | registering a node under a new id raises the flow by its capacity if it is a data source and by nothing otherwise; a duplicate registration leaves the flow unchanged |
| `Pipeline.TotalFlowNonNegative` | Assets/Scripts/PipelineManager.cs:66-79 | if every data source has a non-negative capacity, the flow is non-negative |
| `Pipeline.TotalFlowWithoutSources` | Assets/Scripts/PipelineManager.cs:72-75 | only data-source nodes count: a table without one has zero flow, whatever the capacities of the other nodes |
| `Pipeline.FirstRegistrationWins` | Assets/Scripts/PipelineManager.cs:28-36 | registering a second node under an id that is already taken leaves the first node in place |
| `Pipeline.RegisterPreservesIntegrity` | Assets/Scripts/PipelineManager.cs:26-37 | registering keeps every node stored under its own id and every edge between registered nodes |
| `Pipeline.ConnectPreservesIntegrity` | Assets/Scripts/PipelineManager.cs:46-52 | connecting keeps every key of the edge table, and every id in its lists, a registered node |
| `Pipeline.ConnectTwiceKeepsParallelEdges` | Assets/Scripts/PipelineManager.cs:52 | asking twice for the same edge between registered nodes appends the target twice, so the list holds two more copies of it |
| `Pipeline.PipelineManager.constructor` | Assets/Scripts/PipelineManager.cs:12-15 | the store starts with no nodes and no edges, and its invariant holds |
| `Pipeline.PipelineManager.AddNode` | Assets/Scripts/PipelineManager.cs:26-37 | the node table becomes `Register` of the old one; afterwards a lookup of a new id yields the node, lookups of other ids are unchanged, and the edges are untouched; the invariant is kept |
| `Pipeline.PipelineManager.ConnectNodes` | Assets/Scripts/PipelineManager.cs:44-59 | the edge table becomes `Connect` of the old one, so the edge is added all or nothing; the node table is untouched; the invariant that edges only join registered nodes is kept |
| `Pipeline.PipelineManager.CalculateFlow` | Assets/Scripts/PipelineManager.cs:66-79 | the loop over the node table returns exactly the total capacity of the data-source nodes; it reads no edges and changes nothing |
| `Pipeline.PipelineManager.GetNodeById` | Assets/Scripts/PipelineManager.cs:82-86 | yields a node exactly when the id is registered, that node being the one stored under it, whose id is the one asked for; otherwise nothing |
| `Level.Initialized` | Assets/Scripts/LevelManager.cs:40-44 | a started level has the full time limit, the full initial budget, is active and is undecided |
| `Level.Ended` | Assets/Scripts/LevelManager.cs:92-107 | ending drops the active latch and records a win or a loss as asked; timer and budget are untouched |
| `Level.Checked` | Assets/Scripts/LevelManager.cs:72-86 | time up (at or below zero) is a loss whatever the flow; otherwise a flow at or above the target is a win and a lower flow changes nothing; a new win needs time left and enough flow |
| `Level.Step` | Assets/Scripts/LevelManager.cs:57-70 | an inactive level ignores the frame; an active one loses exactly `delta` of its time and then ends lost when time is up, ends won when the flow meets the target, and stays active exactly when neither holds; a frame never re-activates a level or touches the budget |
| `Level.Spend` | Assets/Scripts/LevelManager.cs:113-125 | a spend succeeds exactly when the budget covers the amount, takes exactly the amount off and leaves a non-negative budget; a refused spend changes nothing |
| `Level.EndedLevelStaysEnded` | Assets/Scripts/LevelManager.cs:57-59 | once a level is inactive, any number of frames leaves its whole state unchanged |
| `Level.RunNeverReactivates` | Assets/Scripts/LevelManager.cs:57-86 | frames alone never turn an inactive level active and never change the budget |
| `Level.ActiveRunCountsDown` | Assets/Scripts/LevelManager.cs:57-62 | while a level stays active over a run of frames, its timer has dropped by exactly the elapsed time and, after at least one frame, is still positive |
| `Level.RunEndsWhenTimeIsSpent` | Assets/Scripts/LevelManager.cs:57-79 | a level with time left cannot outlast its clock: once the elapsed time covers the time remaining, the level has ended |
| `Level.LossIgnoresFlow` | Assets/Scripts/LevelManager.cs:75-79 | when time is up after the decrement, the frame's result is the same whatever flow the pipeline reports |
| `Level.LevelManager.constructor` | Assets/Scripts/LevelManager.cs:11-26 | a level has the given objective and starts inactive, with zero time and budget, before it is initialised |
| `Level.LevelManager.WithDefaults` | Assets/Scripts/LevelManager.cs:11-17 | the default objective is 180 seconds, a target flow of 100 and a budget of 5000 |
| `Level.LevelManager.InitializeLevel` | Assets/Scripts/LevelManager.cs:40-55 | the state becomes `Initialized` of the objective's current values: the full time limit, the full budget, active; the objective is unchanged |
| `Level.LevelManager.Tick` | Assets/Scripts/LevelManager.cs:57-70 | one frame moves the state by `Step` against the current target flow; the objective is unchanged |
| `Level.LevelManager.CheckLevelStatus` | Assets/Scripts/LevelManager.cs:72-86 | the state moves by `Checked`: the loss check comes before the win check |
| `Level.LevelManager.EndLevel` | Assets/Scripts/LevelManager.cs:92-107 | the level becomes inactive and records the outcome |
| `Level.LevelManager.SpendBudget` | Assets/Scripts/LevelManager.cs:113-125 | returns true exactly when the old budget covers the amount, and then the budget drops by exactly the amount and is non-negative; otherwise it returns false and the budget is unchanged; the timer and the latch are untouched |

## Left out

- Logging: every `Debug.Log`, `LogWarning` and `LogError` call is left out. Its only effect is console text. The outcome of a level is kept in the ghost `outcome` field instead.
- Unity engine state: `Time.deltaTime` becomes the `delta` parameter of `Tick`. Pausing with `Time.timeScale` is not modelled. The `DashboardManager.Instance` HUD updates are not modelled.
- `LevelManager.Start` and the `pipelineManager` reference are left out. The null check disables the component, which is engine wiring. `Tick` takes the flow that `CalculateFlow` would return as its `flow` parameter. `CheckLevelStatus` calls `CalculateFlow` only when time is left, and `LossIgnoresFlow` states that in the other case the flow has no effect.
- Floating point: times, budgets and capacities are `real`. The C# code uses 32-bit `float`, and its rounding is not modelled. The order in which the C# dictionary lists its values only matters under rounding, so `TotalFlow` does not depend on it.
- `NodeModule.nodeObject` is left out because it is a scene object handle. `NodeModule` is a C# class, so whoever holds a reference to a node can change its fields after it is registered. Such a change would alter what `CalculateFlow` and `GetNodeById` see. The model treats nodes as values, so this aliasing is not captured.
- `AddNode(null)` throws a `NullReferenceException` in the C# code, because `PipelineManager.AddNode` reads `node.id` (Assets/Scripts/PipelineManager.cs:28). `NodeModule` is a datatype here and cannot be null, so the model has no such error path.
- C# `int` ids are unbounded `int`s here. No arithmetic is done on ids, so the width makes no difference.
- The node type hooks (`DataSourceNode`, `FilterNode`, `AggregateNode`, `DataSinkNode`, `NodeBase`, `NodeView`) only set the type tag and the capacity, or log. The model takes `nodeType` and `capacity` as inputs. `DataSinkNode.DeliverData` is an accumulator that nothing calls.
- The input layer refuses a connection from a node to itself. The graph store does not, so `Connect` accepts self-loops.
- Rendering, animation, HUD formatting, level data assets and the event-controller stubs are presentation only and are left out.
