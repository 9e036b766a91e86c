# Rastir, verified

Rastir observes LLM applications: a Python client library instruments functions, agent
graphs and LLM clients, and a collector server ingests the spans they produce. This project
models the stateful pieces of both in Dafny and proves what they promise. `dafny verify
dfyconfig.toml` checks everything.

Code that updates objects step by step is modelled by classes whose methods are proved
against functions on values; what the code promises is then proved about those functions,
over every input, every history or every interleaving.

| module | what it models |
|---|---|
| `ObjectHeap`, `LangGraphState`, `LangGraphPlan` | the undo log of a walk through a cyclic, aliased LangGraph object graph, and which node functions it holds |
| `LangGraphTour`, `LangGraphOwnProxies`, `LangGraphWrappers` | the order of the walk, told from the starting state alone; when it meets its own proxies; what it leaves in the caches of the user's |
| `LangGraphProgress`, `LangGraphSteps`, `LangGraphInvariant`, `LangGraphReads`, `LangGraphNodes`, `LangGraphGlobals`, `LangGraphWalk` | the walk itself, which wraps models, tools and node functions: why it ends, what it finishes, that it follows that order, which global models it leaves bare |
| `LangGraphShown`, `FrameworkRun`, `FrameworkCalls`, `FrameworkGraphs` | a decorated call: what the user's function runs under, graphs wrapped one after the other, the `finally` that replays the log, the agent and active span around it, and small graphs that show the limits |
| `AdkInstall` | callbacks on a graph of ADK agents, cyclic or shared, and taking them back |
| `LlmInterceptors`, `LlmCalls` | discovery of LLM clients, patching of their methods, forward replay of the log, and one `@llm` call with both its context and its patches |
| `CallTree`, `SpanClock`, `SpanContext` | trees of decorated calls that return or raise: context variables, span records, the per-trace clock and its anchor map |
| `TraceStore`, `TraceStoreClass` | the ordered, bounded, expiring trace map |
| `IngestionQueue`, `EvaluationLoop`, `Sampling` | the ingestion queue protocol, the feedback loop with evaluation, trace sampling |
| `Exporter` | the client's span queue, retries with backoff, the background exporter |
| `HexCodec`, `Identifiers` | traceparent headers (W3C Trace Context, section 3.2), OTLP integers, the X-Ray splice |
| `CardinalityGuard`, `AdapterRegistry`, `RateLimiter` | three tables whose fast state must agree with their whole call history |

## How the object graph is modelled

An object is a number; what instrumentation never changes about it (type, closure, class
attributes, which assignments it refuses) is its `Shape`, what it does change is a map from
(object, attribute or key) to value. `wrap()` and the traced node functions allocate new
numbers. A user's own proxy makes the span wrapper of a method when it is first asked for it:
the wrapper closes over what the slot then holds and copies its mark, and stays in the proxy's
cache. An assignment raises exactly if the object refuses proxies and traced functions for that
attribute, and it may or may not take back what it held; a step budget lets every `wrap()` and
look at a new object raise besides. So a contract that speaks of a stopped walk holds wherever
the walk may be stopped. ADK agents are real Dafny objects, since there the source assigns six
fields of the agent itself.

A tour is a walk of the starting state that changes nothing: the places it comes to in order,
the node functions rewritten, the wrappers made meanwhile. Every method of the walk is proved
to do what the tour tells, so what a caller wants to know can be told before the call.

## What was found

These follow from theorems below, each with its exact condition.

- Undoing a completed LangGraph walk is exact if and only if, for each node function, the first
  node in order that rewrites it hands it out as it is (`WalkUndoneIff`); what the nodes give is
  known before the call. A runnable hands out something else exactly through a user's `wrap()`
  proxy that intercepts it; proxies anywhere else do no harm. So for graphs whose nodes give no
  such proxy a whole call puts everything back (`CallIsUndone`, `CleanStays`).
- A slot can be logged twice without harm, if a shared runnable is given bare and then through a
  proxy whose wrapper was cached before, or was made while the function was still the user's. A
  fresh proxy copies the mark of the traced function, and the slot is logged once; the proxy is
  left with a wrapper of a traced function for good, although its object reads as before. In the
  other order the undo writes the proxy's span wrapper back (`CachedIsLoggedTwice`,
  `FreshIsLoggedOnce`, `WrapperOutlivesUndo`, `CaughtFirstIsNotUndone`).
- The record is appended before the assignment. If a runnable has `func` as a property without a
  setter, say, the assignment raises, and the restore starts with that very slot, raises too, and
  puts back nothing: what was written before stays replaced, the agent stays set, and the span
  stays active and is not reported. The graph reads as before if and only if nothing had been
  written. No walk that would rewrite a refusing slot comes to its end, and none is refused
  otherwise (`RefusedStaysReplaced`, `WalkAndRestore`, `FrameworkCalls.FrameworkImplSync`, with
  `RefusedLeavesTheFirst`). Where the object takes its old value back, all is undone as after
  any other stop (`StoppedIsUndone`).
- Where exact, undo and interceptor replay restore what every object *reads as*. The heap itself is
  restored if and only if every overwritten slot existed and no wrapper was made; a method or
  attribute found on the class stays behind as an instance attribute (`UndoIsIdentityIff`,
  `HeapComesBackIff`).
- The walk visits a proxy it made itself if and only if, in the order of the tour, a user's proxy of
  a binding around a bare chat model, one without node functions, comes after the binding, or a
  node is, or stands in front of, such a binding visited before the node's turn (`EntersOwnIff`,
  `WrapGraphInternals`, with `ClosureGraphEntersOwn` and `BindingNodeGraphEntersOwn`).
- Interceptors are put back from the first record to the last. If the user has assigned
  `client.messages = wrap(client.messages)`, the proxy's span wrapper is recorded and written onto
  the resource behind it. The undo is exact if and only if the last proxy patched for each slot
  hands out what the slot holds; replayed from its end the log would also do where the resource
  itself came first (`UndoIsExactIff`, `ProxiedClient`, `ResourceThenProxy`).
- A global name keeps its bare chat model if and only if the model was visited before, through a
  closure cell or another name (`StaysBareIff`).
- Within a trace whose anchor is still in the map when a call ends, children's times nest in
  their parents' and siblings keep their order, whatever the wall clock does and whatever other
  traces the call passes through; 10,001 anchors minus those already there is the number of root
  spans other threads may start before it can be lost. A `@mcp_endpoint` span moved into the trace
  of a client in another process finds no anchor here: nesting and the order of siblings then hold
  exactly as long as the wall clock does not jump by more than there is slack; a child can be
  reported to end before its parent starts, and a sibling to start before the one before it ends.
  An endpoint called inside an anchored span takes along the place its old trace gave it
  (`UnanchoredNestIff`, `ClientTraceComesApart`, `SiblingsChangePlaces`, `MovedEndpointComesApart`).
- `install_interceptors` runs before the `try` of an `@llm` wrapper and lets any exception but
  `AttributeError` and `TypeError` through. A client whose attribute assignment raises another
  one leaves the methods patched before it patched, the span unreported and active, and what the
  caller does next a child of it (`SecondTargetBlocks`, `ActiveInBodyIff`, `StrayIsOrphan`).
- The payload of a batch is built outside the `try` as well. A span that cannot be encoded takes
  its whole batch with it, counted neither as exported nor as dropped, and ends the exporter's
  thread, after which `stop()` flushes nothing (`AllCountedIff`, `BadSpanStrandsTheRest`).
- `context.py` says model and provider are tracked "within the current agent context". They are
  never taken back: a retrieval under one agent reports the model of an LLM call made under
  another agent before it (`RetrievalSeesTheLastLlm`).
- `trace_store.py` calls its eviction FIFO; the code moves a touched trace to the end, so it is
  by least recent update. `docs/configuration.md` says the oldest spans of a long trace are
  dropped; the code drops the newest. `recent` and `search` return one summary for a limit of
  0 or less.
- Tool and retrieval spans are shown to the cardinality guard twice, the second time with empty
  labels included, so spans without a model let the empty string take a place under the cap; LLM
  spans without one use an empty label that was never counted.
- Once the ingestion task has ended, an accepted batch that has not been processed never is. Those
  are exactly the evicted, those of a service called `__stop__`, those queued behind a batch that
  makes processing raise in the final drain, and those put after the end, since `enqueue` never
  looks whether the task still lives (`LostIff`). A client called `__stop__` ends the task while
  the worker still counts as running (`SentinelNameEndsTheTask`).
- The header of `transport.py` speaks of 3.5 s of backoff; at the defaults the loop sleeps
  1.5 s. `queue.py` says the oldest spans are dropped when the queue is full; the new one is.
  A batch size below 1 leaves the queue as it is at shutdown.
- `transport.py` says 5xx answers are retried; 501 and 505, say, are final, and 429 is retried
  (`AttemptsIff`).
- The two X-Ray forms of a trace id agree if and only if the start time in whole seconds is at
  least 1 and below 2^32.

## Model

| member | source | states |
|---|---|---|
| ObjectHeap.RestoreSets | src/rastir/langgraph_support.py:432-441 | backward replay leaves in every logged slot the value of its first record, whatever the heap held |
| ObjectHeap.RestoreKeeps | src/rastir/langgraph_support.py:432-441 | backward replay touches no other slot |
| ObjectHeap.ForwardIsBackward | src/rastir/llm_discovery.py:382-388 | with every slot logged once, replaying front to back is the same undo on every heap |
| ObjectHeap.ReplayIsRestore | src/rastir/langgraph_support.py:432-441 | if every slot of the log takes its old value, the restore loop comes to the end of that replay |
| ObjectHeap.ForwardTakesLast | src/rastir/llm_discovery.py:382-388 | replayed front to back it is the last record of a slot that counts |
| LangGraphState.RecordKeepsCore | src/rastir/langgraph_support.py:402-407 | appending the record and then raising keeps the undo invariant, on every graph: only logged slots differ, only a node function can be logged twice or with another value than its slot held, no proxy or traced function is logged |
| LangGraphState.PutKeepsCore | src/rastir/langgraph_support.py:402-407 | so does the completed replacement, unless refused, after which the slot holds the object made for its last record |
| LangGraphState.AskedKeepsCore | src/rastir/wrapper.py:168-203 | and so does asking a user's proxy for an attribute, which may make a span wrapper |
| LangGraphState.ReplaysUnlessRefused | src/rastir/langgraph_support.py:432-441 | wherever a walk was stopped, its log can be replayed to the end unless the last record is of a slot that takes nothing; then the replay does nothing |
| LangGraphState.UndoneIff | src/rastir/langgraph_support.py:179-441 | if the replay comes to its end, it makes every slot read as at the start if and only if the first record of each node function holds what its slot held |
| LangGraphState.UndoIsExact | src/rastir/langgraph_support.py:179-441 | then every attribute of every original object reads as at the start too, through user proxies as well |
| LangGraphState.UndoIsIdentityIff | src/rastir/langgraph_support.py:432-441 | the heap itself is the starting heap if and only if besides every overwritten slot existed and no wrapper was made |
| LangGraphState.OwnedSlotsUndoToIdentity | src/rastir/langgraph_support.py:432-441 | which a caller can check beforehand: no class defines a replaceable attribute its instance lacks |
| LangGraphState.RefusedKeeps | src/rastir/langgraph_support.py:432-441 | after a refused assignment a slot reads as before if and only if it was not written before it |
| LangGraphState.RefusedUndoneIff | src/rastir/langgraph_support.py:432-441 | so everything does if and only if nothing had been written |
| LangGraphPlan.PlanRawIff | src/rastir/langgraph_support.py:186-197 | from the runnables the nodes give, in order: the first records are raw if and only if whoever is the first to rewrite a function hands it out as its slot holds it |
| LangGraphPlan.PlanTwiceIff | src/rastir/langgraph_support.py:316-366 | a function is logged twice if and only if some runnable rewrites it after another one has |
| LangGraphPlan.AgainIff | src/rastir/langgraph_support.py:316-366 | and that happens exactly through a user proxy that hands out a span wrapper without the mark, one cached before or made over the untraced function |
| LangGraphPlan.UncaughtIsRaw | src/rastir/langgraph_support.py:186-197 | runnables that hand out no wrapper of their own are enough for both |
| LangGraphTour.TourFollowsPlan | src/rastir/langgraph_support.py:186-197 | the node functions rewritten on the tour of the starting state are those planned for what its nodes give |
| LangGraphProgress.ProcessedStays | src/rastir/langgraph_support.py:200-259 | what the walk has finished with an object stays finished whatever it replaces later |
| LangGraphProgress.EvolveTransitive | src/rastir/langgraph_support.py:200-407 | stretches of the walk compose: a slot only ever goes from a value to the proxy of that value, or to a traced function over it or over one that was walked |
| LangGraphSteps.VisitDecreases | src/rastir/langgraph_support.py:207-210 | the termination measure, original objects not visited and then all objects not visited, falls at every first visit although the walk allocates |
| LangGraphOwnProxies.EntersOwnIff | src/rastir/langgraph_support.py:186-259 | before the call: the tour comes to a proxy of the walk if and only if in its order a user proxy of a rewritten binding without node functions comes after the binding, or a node rereads a binding visited before it |
| LangGraphInvariant.AskedWalks | src/rastir/wrapper.py:168-203 | asking a proxy keeps the state what the tour tells: a wrapper made over a traced function is one the tour calls stale |
| LangGraphInvariant.EnterWalks | src/rastir/langgraph_support.py:207-210 | so does a first visit, of an object, a proxy of this walk or a traced function |
| LangGraphInvariant.PutWalks | src/rastir/langgraph_support.py:316-407 | so does every replacement |
| LangGraphInvariant.RecordStops | src/rastir/langgraph_support.py:316-425 | stopped after a record, the node functions logged are the beginning of those the tour tells, and a refused slot is one of its slots |
| LangGraphInvariant.NothingRefused | src/rastir/langgraph_support.py:179-407 | a walk that has come to its end has come to no slot that refuses |
| LangGraphReads.FunctionRead | src/rastir/langgraph_support.py:244-295 | what a function leads to, cells first, is what the tour says: a wrapper made over a traced function leads to that, a traced function to what it replaced |
| LangGraphReads.FollowRead | src/rastir/langgraph_support.py:255-259 | an attribute followed leads to the object it held at the start, the wrapper the proxy hands out, or the proxy this walk has put there |
| LangGraphReads.NameRead | src/rastir/langgraph_support.py:282-295 | a name leads on if and only if it still holds a model or runnable not visited before |
| LangGraphNodes.NodeGives | src/rastir/langgraph_support.py:188-191 | a node gives what the tour says, its binding's own proxy included |
| LangGraphNodes.GivesAsPlanned | src/rastir/langgraph_support.py:316-366 | what a visited runnable hands out, and whether it carries the mark, is what the plan says |
| LangGraphGlobals.StaysBareIff | src/rastir/langgraph_support.py:282-295 | a name keeps its bare model if and only if the model was visited before, in a closure cell say, or an earlier name holds it too |
| LangGraphGlobals.SecondNameStaysBare | src/rastir/langgraph_support.py:282-295 | the smallest function with two names for one model |
| LangGraphWalk.GraphWalk.WrapModelAt | src/rastir/langgraph_support.py:373-407 | a marked model is left alone; otherwise one record, one proxy, one write, or the record alone exactly if the object refuses the write |
| LangGraphWalk.GraphWalk.WrapToolnodeTools | src/rastir/langgraph_support.py:410-425 | afterwards every tool of the node is marked, each replaced at most once |
| LangGraphWalk.GraphWalk.WalkFuncForWrapping | src/rastir/langgraph_support.py:262-295 | every filled closure cell has been visited and every named global is visited, proxied or of no interest; what was visited and in which order is what the tour says |
| LangGraphWalk.GraphWalk.WalkName | src/rastir/langgraph_support.py:285-295 | one global name, as on the tour; one that holds a model takes exactly the turn described there |
| LangGraphWalk.GraphWalk.WalkNames | src/rastir/langgraph_support.py:277-295 | all names of a function; if none holds a runnable the new state is that of their turns one after the other |
| LangGraphWalk.GraphWalk.WrapRunnable | src/rastir/langgraph_support.py:200-259 | the recursion terminates on every finite graph, keeps the undo invariant at every exit, finishes every object it visits, and visits what the tour of the starting state visits |
| LangGraphNodes.NodeFuncIsTraced | src/rastir/langgraph_support.py:316-340 | after a node is treated its synchronous function is a traced one |
| LangGraphNodes.NodeAfuncIsTraced | src/rastir/langgraph_support.py:342-366 | so is its asynchronous function, unless the synchronous one was traced already |
| LangGraphWalk.GraphWalk.WrapNodeFunc | src/rastir/langgraph_support.py:302-366 | the exact new state, logged as planned from the starting state; stopped by a refusal, the log is the beginning of the plan and the refused slot one of it |
| LangGraphWalk.GraphWalk.WrapGraphInternals | src/rastir/langgraph_support.py:179-197 | without a node dict nothing happens; else it comes to its end only if no slot of the tour refuses, stops early only at one that does or out of steps, and at the end every node but `__start__` is done, the state is what the tour tells, and an own proxy was entered if and only if the order of the tour says so |
| LangGraphWalk.GraphWalk.RestoreOriginals | src/rastir/langgraph_support.py:432-441 | the loop is the backward replay up to the first record whose slot takes nothing, and raises there |
| LangGraphWalk.GraphWalk.Fetch | src/rastir/wrapper.py:168-203 | getattr through a proxy hands out the cached wrapper, or makes it over what the slot holds and copies its mark |
| LangGraphWrappers.StaleIff | src/rastir/wrapper.py:187-203 | before the call: a wrapper is going to be made over a traced function if and only if its proxy is first visited in the turn of a node by which the slot has been rewritten |
| LangGraphWrappers.WrapperOutlivesUndo | src/rastir/wrapper.py:187-203 | an unmade wrapper is made if and only if the tour visits its proxy; it wraps a traced function exactly in that case, and the undo leaves it so while the slot reads as before |
| FrameworkRun.WalkUndoneIff | src/rastir/langgraph_support.py:179-441 | the undo of a completed walk is exact if and only if the first runnable, in node order, that rewrites each function hands out its raw value; the runnables are told from the starting state |
| FrameworkRun.StoppedIsUndone | src/rastir/langgraph_support.py:179-441 | a walk stopped on the way, though not by an assignment whose slot refuses its old value too, is undone exactly if they satisfy that |
| FrameworkRun.RefusedStaysReplaced | src/rastir/langgraph_support.py:432-441 | stopped by an assignment to a slot that takes nothing, nothing is put back: exactly the slots written before it stay replaced, and everything reads as before if and only if there were none |
| FrameworkRun.LoggedTwiceIff | src/rastir/langgraph_support.py:302-366 | a slot is logged twice if and only if it is a node function that some runnable rewrites after another has |
| FrameworkRun.WalkAndRestore | src/rastir/langgraph_support.py:179-441 | one graph walked and undone: completed, exact if and only if that condition holds of the starting state; no walk is completed that would rewrite a refusing slot, and unless out of steps one is stopped only by such a slot, the restore raising exactly if that takes nothing |
| FrameworkRun.UndoableExtends | src/rastir/framework_base.py:165-169 | several graphs walked one after the other, the last perhaps only partly, share one log that still undoes all of them |
| FrameworkRun.CleanStays | src/rastir/framework_base.py:165-169 | a graph none of whose nodes gives an intercepting proxy stays so through the walks of the others |
| FrameworkRun.CleanHandsRaw | src/rastir/langgraph_support.py:186-197 | and all its runnables hand out what their slots hold |
| LangGraphShown.FinishedStay | src/rastir/framework_base.py:165-169 | what an earlier walk has finished, all models, tools and functions behind the objects it visited, stays finished through the walk of a later graph |
| LangGraphShown.ShownExtends | src/rastir/framework_base.py:165-169 | so after one graph more every graph walked so far has all its nodes traced and all that its walk visited finished |
| FrameworkRun.WrapAll | src/rastir/framework_base.py:165-169 | all graphs of a call: if it comes to its end, every node of every graph but `__start__` is done and everything any of the walks visited is finished; stopped, if at all, by a refused assignment or out of steps; for one graph known before the call |
| FrameworkRun.CallIsUndone | src/rastir/framework_base.py:184-188 | after the function has used the heap: restored unless refused, then every logged slot reads as before, even if the function wrote it, if and only if each first record is raw, and every other slot holds what the function left; refused, all that was written stays |
| FrameworkCalls.FrameworkImplSync | src/rastir/framework_base.py:144-188 | one decorated call: the function runs on a heap in which every graph argument is instrumented, node by node and whatever was visited from it, and after it the log is replayed; spans, agent and active span as the call tree says if the restore comes to its end; if it is refused, the agent stays set, the own span stays active and nothing is reported |
| FrameworkGraphs.CachedIsLoggedTwice | src/rastir/langgraph_support.py:186-197 | a shared runnable given bare first and then through a proxy whose wrapper was cached, or made through the function's own closure: logged twice, undone exactly |
| FrameworkGraphs.FreshIsLoggedOnce | src/rastir/wrapper.py:187-203 | through a fresh proxy: logged once, undone exactly, and the proxy left with a wrapper of a traced function |
| FrameworkGraphs.FilteredIsExact | src/rastir/wrapper.py:168-203 | a proxy of .afunc alone, left over a traced function by an earlier call, and then a fresh proxy: only .func is logged, as it is |
| FrameworkGraphs.CaughtFirstIsNotUndone | src/rastir/langgraph_support.py:186-197 | the proxy first, cached or fresh: its span wrapper is logged first and written back |
| FrameworkGraphs.RefusedLeavesTheFirst | src/rastir/langgraph_support.py:339-340 | two runnables, the second without a setter for .func: refused there, the first one is left traced |
| FrameworkGraphs.ClosureGraphEntersOwn | src/rastir/langgraph_support.py:266-275 | a graph none of whose nodes is a binding that leads the walk into its own proxy through a closure |
| FrameworkGraphs.BindingNodeGraphEntersOwn | src/rastir/langgraph_support.py:188-191 | a graph without any user proxy in which a node that is a binding does so |
| AdkInstall.PrependCallback | src/rastir/adk_support.py:297-303 | the functions run are ours and then the old ones in order, and a function alone stays bare |
| AdkInstall.AdkInstrumentor.SetCallbacks | src/rastir/adk_support.py:269-287 | after the six assignments each slot runs our function first and then what it ran before |
| AdkInstall.AdkInstrumentor.InstallAdkCallbacks | src/rastir/adk_support.py:155-294 | terminates on any graph; touches nothing outside any closed set holding the agent nor any agent already logged; if not stopped, instruments every new agent once and leaves no sub-agent out |
| AdkInstall.AdkInstrumentor.Wrap | src/rastir/adk_support.py:103-107 | the same for a runner, an agent or any other argument |
| AdkInstall.AdkInstrumentor.RootMeans | src/rastir/adk_support.py:141-152 | a runner leads to its `agent`, and to `_agent` only if it has none; an agent that is not recognised leads nowhere |
| AdkInstall.AdkInstrumentor.WrapAll | src/rastir/framework_base.py:166-168 | all arguments: if not stopped, each leads to a logged agent or to none, and every logged agent is instrumented with all its sub-agents |
| AdkInstall.EditedMeans | src/rastir/framework_base.py:177 | what the function itself sets: the last assignment to an agent counts |
| AdkInstall.AdkInstrumentor.RestoreOriginals | src/rastir/adk_support.py:306-319 | every logged agent gets back each of its six slots whose assignment does not fail, no other agent changes |
| AdkInstall.AdkInstrumentor.FrameworkImplSync | src/rastir/framework_base.py:144-188 | the function runs under callbacks in which every agent an argument leads to, and every agent below one, runs our function first in each of its six slots, and no agent outside the scope is touched; wherever installation stops and whatever the function sets or raises, every logged agent ends with each slot as before the call unless that slot refuses |
| AdkInstall.PutBackIff | src/rastir/adk_support.py:311-319 | an agent is as before if and only if no slot that then holds something else refuses |
| AdkInstall.ReachableIsInstrumented | src/rastir/adk_support.py:289-294 | while the function runs every agent on a path of sub-agents from a logged one is instrumented |
| LlmInterceptors.Discovery.DiscoverLlmClients | src/rastir/llm_discovery.py:260-306 | the targets are those of the distinct visible objects at their first occurrence, in order |
| LlmInterceptors.DistinctMeans | src/rastir/llm_discovery.py:269-279 | each visible object is looked at exactly once |
| LlmInterceptors.VisibleAt | src/rastir/llm_discovery.py:281-306 | every positional and keyword argument, filled closure cell and known global is visible, in that order |
| LlmInterceptors.DistinctInOrder | src/rastir/llm_discovery.py:269-279 | and taken in the order in which it is first found |
| LlmInterceptors.Patcher.InstallInterceptors | src/rastir/llm_discovery.py:352-379 | it ends normally if and only if no target hands out an unpatched method whose assignment raises something else than the two errors caught; what it has logged by then is told from the start |
| LlmInterceptors.RecordsMean | src/rastir/llm_discovery.py:352-379 | logged are exactly the slots of targets that hand out an unpatched method and take the assignment |
| LlmInterceptors.Patcher.Fetch | src/rastir/wrapper.py:168-203 | a target that is a user proxy hands out its span wrapper, made on first access with the mark of what it wraps |
| LlmInterceptors.Patcher.Probe | src/rastir/llm_discovery.py:126-129 | discovery itself makes the wrappers of all targets, before anything is patched |
| LlmInterceptors.Patcher.RestoreOriginals | src/rastir/llm_discovery.py:382-388 | the loop is the forward replay that passes over what is refused with the two errors caught, and raises if and only if some slot raises something else |
| LlmInterceptors.ReplayedSlot | src/rastir/llm_discovery.py:382-388 | a slot that takes the assignment gets the value of its last record, any other keeps what it holds |
| LlmInterceptors.UndoIsExactIff | src/rastir/llm_discovery.py:363-388 | every patched slot gets back what it held if and only if the last proxy patched for each slot hands out what the slot holds |
| LlmInterceptors.OrderIsFree | src/rastir/llm_discovery.py:382-388 | without such proxies the order of the replay does not matter |
| LlmInterceptors.ProxiedClient | src/rastir/llm_discovery.py:126-129 | a client whose resource was replaced by its proxy: afterwards the resource has the span wrapper for a method |
| LlmInterceptors.ResourceThenProxy | src/rastir/llm_discovery.py:382-388 | the resource and then its proxy: front to back the log leaves the wrapper, back to front it would put the method back |
| LlmInterceptors.Patcher.RunPatched | src/rastir/decorators.py:473-487 | the function runs on a heap in which every logged slot holds an interceptor made by this call over what it held, and what is restored is what the function made of that heap; if no target blocks and none raises at the restore, each patched slot that takes the assignment reads what its last record saved, whatever the function did; if one blocks, the function is not run and exactly the slots patched by then read differently for good |
| LlmInterceptors.SecondTargetBlocks | src/rastir/llm_discovery.py:371-378 | two clients, the second a validating model: the first one stays patched |
| LlmCalls.LlmCallSync | src/rastir/decorators.py:463-490 | spans, context and methods of one @llm call together: the function runs on a heap whose logged slots all hold interceptors; the span is reported and the active one given back if no target blocks and the restore does not raise; the methods are put back if and only if none had been patched, or no target blocks and the last proxies hand out what their slots held |
| LlmInterceptors.HeapComesBackIff | src/rastir/llm_discovery.py:382-388 | the heap itself comes back if and only if besides every patched method was the instance's own |
| CallTree.PostOrder | src/rastir/decorators.py:104-118 | every call that happens, but for an @llm call that raises at its door, gives exactly one span, in post-order, with the right name, kind and status |
| CallTree.BodyRaisesIff | src/rastir/decorators.py:104-118 | a function ends in an exception if and only if it raises one itself or does not catch that of a call it makes |
| CallTree.CaughtGoesOn | src/rastir/decorators.py:104-118 | the calls after one that raises are made, and reported, if and only if its exception is caught |
| CallTree.IdsAreFresh | src/rastir/spans.py:54-55 | no two spans share an id |
| CallTree.ParentIsEnclosing | src/rastir/context.py:68-100 | trace and parent of every span not made after such a call are those of the call that directly encloses it; the outermost is a child of what was active before; reparented endpoints carry the request's ids |
| CallTree.ActiveInBodyIff | src/rastir/decorators.py:463-476 | a function is left with its own span active if and only if none of the calls it came to raised before its `try` |
| CallTree.StrayIsOrphan | src/rastir/decorators.py:463-476 | whatever it calls after one that did is reported as a child of a span that is never reported |
| CallTree.AgentIsNearest | src/rastir/context.py:112-129 | each LLM, retrieval and endpoint span names the innermost agent around it |
| CallTree.TagsOutliveTheCall | src/rastir/decorators.py:663-690 | after any call the context's model and provider are what its LLM calls have left, the last to end deciding, or untouched |
| CallTree.RetrievalSeesTheLastLlm | src/rastir/decorators.py:951-956 | so a retrieval reports the last LLM call whoever made it |
| CallTree.LlmSpanTells | src/rastir/decorators.py:555-603 | the span an @llm call reports: a response value that is neither missing, empty nor `unknown` after a return, else the request's if there is one, else `unknown`; after an exception the response counts for nothing; the context is left with the same |
| CallTree.RequestIsAnnounced | src/rastir/decorators.py:663-675 | while it runs the context has what the request names, and keeps what it does not name |
| CallTree.OtherSpansTell | src/rastir/decorators.py:951-956 | a retrieval reports what the context has when it is called, spans of other kinds no model or provider |
| CallTree.RetrievalRepeatsTheLlm | src/rastir/decorators.py:946-968 | so it reports what the span of an @llm call just before it reports, under whatever agent |
| SpanClock.AnchorsBounded | src/rastir/spans.py:70-74 | whatever is called and whatever other threads register, the map holds at most 10,001 anchors |
| SpanClock.DurationsAreMeasured | src/rastir/spans.py:102-110 | wherever a span is placed, its end is its start plus the monotonic time between its own two readings |
| SpanClock.CallsNest | src/rastir/decorators.py:104-118 | the readings of a call lie between those of the call that encloses it, and siblings take theirs one after the other |
| SpanClock.KeptThroughCall | src/rastir/spans.py:64-80 | an anchor found at the end of a call was there unchanged throughout it, unless another thread starts that trace |
| SpanClock.OneTranslation | src/rastir/spans.py:64-93 | whatever traces the calls move between, every span of a trace that keeps its anchor is the monotonic clock moved by that anchor's offset |
| SpanClock.TraceNests | src/rastir/spans.py:64-110 | so within such a trace, endpoints moved into it included, children lie inside their parents at every depth and siblings keep their order, for any wall clock |
| SpanClock.AnchorSurvives | src/rastir/spans.py:70-74 | an anchor, of this thread's trace or a client's, is kept if the map has room for the root spans other threads start meanwhile |
| SpanClock.AnchoredTraceNests | src/rastir/remote.py:425-453 | nesting under that condition alone for any trace that has its anchor once the call is open |
| SpanClock.RootCallNests | src/rastir/spans.py:64-110 | in particular for the trace a root call starts |
| SpanClock.RootStartsNow | src/rastir/spans.py:64-74 | a root span starts at the wall clock's reading, and leaves the anchor made of its two readings |
| SpanClock.UnanchoredOpen | src/rastir/spans.py:75-93 | a span that gets into a trace without an anchor is at the bare wall clock, or, moved there, where its old trace had placed it |
| SpanClock.UnanchoredStarts | src/rastir/spans.py:75-93 | a trace started elsewhere gets no anchor from any call made in it, and so every span of it starts there |
| SpanClock.UnanchoredNestIff | src/rastir/remote.py:425-453 | in it a child lies inside its parent if and only if the clock that placed them was set back by no more than has passed since the parent opened and forward by no more than it goes on after the child, and siblings keep their order if and only if they begin as far apart as the first takes; endpoints that came from anchored traces included |
| SpanClock.ClientTraceComesApart | src/rastir/remote.py:425-453 | a request from another process whose child ends before its parent starts |
| SpanClock.SiblingsChangePlaces | src/rastir/spans.py:75-93 | two calls of a client's trace, the second reported to start before the first ends |
| SpanClock.MovedEndpointComesApart | src/rastir/remote.py:425-453 | an endpoint inside an anchored span keeps the place that trace gave it, its child follows the wall clock |
| SpanContext.SpanRecord.Finish | src/rastir/spans.py:102-110 | the end is the start plus the monotonic time elapsed |
| SpanContext.SpanRecord.MoveTo | src/rastir/remote.py:431-434 | an endpoint span moves to the client's trace and is placed by that trace's anchor if it is here |
| SpanContext.Tracer.StartSpan | src/rastir/context.py:68-100 | new ids, parent link, start time, anchor registration and the token, in one new state |
| SpanContext.Tracer.TraceWrapper | src/rastir/decorators.py:104-118 | context restored, and enqueued spans, clock, ids, anchors and tags as the call tree says, whether the function returns or raises |
| SpanContext.Tracer.AgentWrapper | src/rastir/decorators.py:186-202 | the same, with the agent set for the body and reset |
| SpanContext.Tracer.LlmWrapper | src/rastir/decorators.py:463-490 | the same, with model and provider announced, upgraded and left behind; the active span is restored if and only if nothing raises before the `try` |
| SpanContext.Tracer.RetrievalWrapper | src/rastir/decorators.py:946-968 | the same, with agent, model and provider taken from the context |
| SpanContext.Tracer.McpEndpointWrapper | src/rastir/remote.py:425-453 | the same, in the client's trace |
| SpanContext.FinalTagsAre | src/rastir/decorators.py:555-603 | the response replaces the request's values only when concrete, and `unknown` fills what is missing |
| TraceStore.ExpireKeeps | src/rastir/server/trace_store.py:96-109 | expiry removes a prefix of the order and keeps keys, caps, order and running total consistent |
| TraceStore.ExpireContents | src/rastir/server/trace_store.py:96-109 | exactly the traces last updated before the cutoff go, the others keep their spans |
| TraceStore.InsertKeeps | src/rastir/server/trace_store.py:54-94 | after any insertion timestamp keys equal trace keys, the order is sorted by timestamp, both caps hold and the total is the sum of lengths |
| TraceStore.InsertContents | src/rastir/server/trace_store.py:54-94 | the trace holds its old spans followed by the new ones up to the cap and is last; no other stored trace changes |
| TraceStore.InsertCounts | src/rastir/server/trace_store.py:54-109 | each counter by itself: the traces removed are exactly the stale ones and, for a new trace, the oldest that leave no room; their spans are lost, they count as evicted, and truncated is what the trace would hold beyond the cap |
| TraceStore.RunKeepsAll | src/rastir/server/trace_store.py:54-94 | with expiry off and no more ids than places, over any run every id has its trace, which holds the first spans inserted under it up to the cap, and nothing is evicted |
| TraceStore.RunIsRecency | src/rastir/server/trace_store.py:54-162 | after any history the key order is a suffix of the distinct ids by last insert, and with expiry off exactly the last max_traces of them |
| TraceStore.DistinctByLastMeans | src/rastir/server/trace_store.py:66-94 | that reference sequence holds each inserted id exactly once |
| TraceStore.EverySpanAccounted | src/rastir/server/trace_store.py:54-109 | over any run: inserted spans are stored, truncated or gone with an evicted or expired trace |
| TraceStoreClass.TraceStoreObject.Insert | src/rastir/server/trace_store.py:54-94 | the in-place method is that insertion and keeps the invariant |
| TraceStoreClass.TraceStoreObject.ExpireStale | src/rastir/server/trace_store.py:96-109 | the two loops are that expiry |
| TraceStoreClass.TraceStoreObject.EvictOldest | src/rastir/server/trace_store.py:82-87 | the popitem loop drops exactly the oldest traces that are too many |
| TraceStoreClass.TraceStoreObject.Search | src/rastir/server/trace_store.py:121-162 | expires first, then returns the matching summaries most recently updated first, cut at the limit, but never below one |
| TraceStoreClass.NewestMeans | src/rastir/server/trace_store.py:136-162 | listed are exactly the traces with a span that has the service among its attributes or as its own, each with its number of spans, one updated later before one updated earlier |
| TraceStoreClass.SearchMeans | src/rastir/server/trace_store.py:121-162 | the answer has as many of them as the limit allows, or one if that is below one, in descending order of last update, and none left out was updated after one that is in |
| IngestionQueue.RunKeeps | src/rastir/server/ingestion.py:81-196 | in every reachable state what left the queue followed by the queue is what was accepted, within the bound |
| IngestionQueue.AcceptedIff | src/rastir/server/ingestion.py:129-157 | in every reachable state a batch is accepted in reject mode if and only if there is room, else the refusal is counted and nothing else changes; in the other mode it always is, for the oldest if need be |
| IngestionQueue.RefusalsCounted | src/rastir/server/ingestion.py:129-146 | over any run the rejections, or in the other mode the evictions, are as many as batches came to a full queue |
| IngestionQueue.StopPuts | src/rastir/server/ingestion.py:81-89 | stop takes down the flag and puts the sentinel last if there is room; nothing else changes |
| IngestionQueue.EndsDrained | src/rastir/server/ingestion.py:187-196 | a task that ends normally leaves an empty queue |
| IngestionQueue.RejectModeLosesNothing | src/rastir/server/ingestion.py:138-146 | in reject mode the processed sequence is the accepted one without batches named like the sentinel |
| IngestionQueue.LossIffRejectMode | src/rastir/server/ingestion.py:161-196 | in any run in reject mode the batches processed are all that clients had accepted if and only if none carries the sentinel's name and only sentinels are left in the queue |
| IngestionQueue.EvictsOldest | src/rastir/server/ingestion.py:128-137 | in drop_oldest mode nothing is refused and each eviction takes the oldest queued item |
| IngestionQueue.DropOldestProcessesTheRest | src/rastir/server/ingestion.py:161-196 | what is processed is the accepted sequence minus the evicted and the sentinels |
| IngestionQueue.DrainFailureStrands | src/rastir/server/ingestion.py:187-196 | processing that raises in the drain, and nothing else there, ends the task, and what is queued behind is not processed in any continuation |
| IngestionQueue.DrainEmptiesIff | src/rastir/server/ingestion.py:187-196 | the drain empties the queue if and only if nothing in it makes processing raise |
| IngestionQueue.FlagIsUpUntilStop | src/rastir/server/ingestion.py:81-92 | the flag, and nothing more than the flag, is up exactly until stop is called |
| IngestionQueue.LeavesLoopOnlyIf | src/rastir/server/ingestion.py:164-185 | the task leaves its main loop only if stop was called or it fetched a client batch with the sentinel's name |
| IngestionQueue.EndIsPermanent | src/rastir/server/ingestion.py:96-196 | an ended task stays ended: in every continuation batches are only put and evicted, and nothing more is processed |
| IngestionQueue.EndMeans | src/rastir/server/ingestion.py:187-196 | at its end the queue is empty, or the last batch fetched made processing raise |
| IngestionQueue.LostIff | src/rastir/server/ingestion.py:96-196 | in both modes an accepted batch is never processed, however an ended run goes on, if and only if it was evicted, carries the sentinel's name, was queued behind one that raised in the drain, or was put after the end |
| IngestionQueue.AcceptedAfterStopIsLost | src/rastir/server/ingestion.py:96-157 | a batch accepted after an orderly stop, with no service of that name anywhere |
| IngestionQueue.SentinelNameEndsTheTask | src/rastir/server/ingestion.py:177-180 | a client of that name ends the task while the flag is up, and the next batch is accepted and lost |
| IngestionQueue.StopLeadsToEnd | src/rastir/server/ingestion.py:81-92 | after stop the task takes at most the queue length plus three further steps, and always can take one until it has ended |
| IngestionQueue.IngestionWorker.EnqueueBatch | src/rastir/server/ingestion.py:96-157 | the method is the enqueue step, and tells that the batch was taken if and only if there was room or the oldest may go |
| IngestionQueue.IngestionWorker.SignalStop | src/rastir/server/ingestion.py:81-89 | the method is the stop step; on a full queue no sentinel is put |
| IngestionQueue.IngestionWorker.MainLoopStep | src/rastir/server/ingestion.py:164-185 | each stretch between two awaits is one consumer step |
| IngestionQueue.IngestionWorker.FinalDrain | src/rastir/server/ingestion.py:187-196 | the loop is the whole drain |
| EvaluationLoop.InMemoryEvaluationQueue.Put | src/rastir/server/evaluation_queue.py:92-113 | the new queue and drop count under either policy |
| EvaluationLoop.PutAllKeeps | src/rastir/server/evaluation_queue.py:92-113 | after several offers the queue holds of all tasks the last that fit with drop_oldest, the first with drop_new, and all without a bound |
| EvaluationLoop.ProcessBatch | src/rastir/server/ingestion.py:218-333 | the queue gets exactly the tasks of the batch's evaluated spans, in order |
| EvaluationLoop.MaybeEnqueueEvaluation | src/rastir/server/ingestion.py:339-402 | a task is offered if and only if the span is enabled, has types and is sampled |
| EvaluationLoop.EvaluatesIff | src/rastir/server/ingestion.py:339-402 | a span is evaluated if and only if it is stored, not dropped by redaction, no error, enabled, has types, and the draw is below its own rate or else the default |
| EvaluationLoop.TasksInOrder | src/rastir/server/ingestion.py:218-333 | each such span has its task, right behind those of the spans before it |
| EvaluationLoop.AtMostOneTaskEach | src/rastir/server/ingestion.py:339-402 | at most one task per eligible span and none from any other |
| EvaluationLoop.PutAllAccounts | src/rastir/server/evaluation_queue.py:92-113 | every offered task is queued or counted as dropped, within the bound |
| EvaluationLoop.ProcessTask | src/rastir/server/evaluation_worker.py:178-287 | one span per registered requested type, however its run ended |
| EvaluationLoop.EmittedSpansMean | src/rastir/server/evaluation_worker.py:36-83 | each emitted span belongs to the evaluated span, has the right status and type, and is not enabled for evaluation |
| EvaluationLoop.EvaluationBelongsToSpan | src/rastir/server/ingestion.py:378-392 | one span per registered type asked for, all in the evaluated span's trace and children of it, and none eligible for evaluation again |
| EvaluationLoop.RegisteredMeans | src/rastir/server/evaluation_worker.py:193-203 | the types run are the registered ones with their repetitions |
| EvaluationLoop.StepLosesWeight | src/rastir/server/evaluation_worker.py:277-287 | every batch or task worked off lowers the weight of the two queues, although tasks emit batches and batches create tasks |
| EvaluationLoop.LoopComesToRest | src/rastir/server/evaluation_worker.py:149-174 | without external input every interleaving ends within that weight, and only with both queues empty |
| EvaluationLoop.EmitKeeps | src/rastir/server/evaluation_worker.py:277-287 | a full ingestion queue that evicts keeps the new batch, one that rejects keeps every old one |
| EvaluationLoop.LoopLosesNothing | src/rastir/server/evaluation_worker.py:149-174 | without bounds, over any run and for both queues: what was worked off followed by what is still queued is what was queued followed by what arose |
| Sampling.SamplingIsNested | src/rastir/server/ingestion.py:406-429 | one decision per trace, and kept at a rate implies kept at every higher rate |
| Sampling.SamplingDecides | src/rastir/server/ingestion.py:406-429 | without a trace id the draw decides at every rate; with one it plays no part, and the id raises if and only if the rate lies strictly between 0 and 1 and one of the last eight characters is no hex digit |
| Sampling.KeptIffAmongFirst | src/rastir/server/ingestion.py:421-426 | a trace is kept if and only if its suffix is among the first threshold + 1 |
| Sampling.KeptFraction | src/rastir/server/ingestion.py:421-426 | exactly floor(rate (2^32 - 1)) + 1 of the 2^32 suffixes are kept, within 2^-32 of the rate |
| Sampling.CountBatch | src/rastir/server/ingestion.py:233-248 | sampled plus dropped is the number of spans processed, each counted by its decision, up to a malformed id |
| Exporter.TelemetryClient.SendBatch | src/rastir/transport.py:78-138 | an exception before anything is sent or counted if and only if a span cannot be encoded; else posts made, success, counters and time slept, which is backoff (2^(a-1) - 1) for a sending that ends at attempt a |
| Exporter.Attempts | src/rastir/transport.py:89-131 | at most max_retries attempts; all but the last were retryable failures, and an earlier end was a delivery or a final refusal |
| Exporter.AttemptsIff | src/rastir/transport.py:57-131 | there are more than k attempts if and only if k is below max_retries and each of the first k answers was a timeout, a connection error, or 429, 500, 502, 503 or 504 |
| Exporter.SucceedsIff | src/rastir/transport.py:86-131 | a batch is delivered if and only if some answer below 300 comes after none but such |
| Exporter.SleptClosed | src/rastir/transport.py:103-105 | the doubled waits add up to that closed form |
| Exporter.DefaultBackoff | src/rastir/transport.py:12-16 | at the defaults a batch waits at most 1.5 seconds, and that long if and only if the first two answers ask for a retry, by the statuses above |
| Exporter.BackgroundExporter.EnqueueSpan | src/rastir/queue.py:23-36 | a full queue drops the new span; drained batches and queue stay a partition of the accepted spans |
| Exporter.BackgroundExporter.DrainBatch | src/rastir/queue.py:39-50 | batch and rest are the queue, and the batch has as many spans as asked for unless the queue is then empty |
| Exporter.AllCountedIff | src/rastir/transport.py:86-138 | exported plus dropped is all that was drained if and only if every batch could be encoded |
| Exporter.BackgroundExporter.ThreadRound | src/rastir/transport.py:221-230 | one turn of the thread, which survives it if and only if its batch can be encoded |
| Exporter.LeftMeans | src/rastir/transport.py:232-239 | the final flush empties the queue if all in it can be encoded; else what it leaves begins after the batch of the first span that cannot |
| Exporter.BackgroundExporter.FlushAll | src/rastir/transport.py:232-239 | what is left in the queue, and an exception if and only if a span in it cannot be encoded |
| Exporter.BackgroundExporter.Stop | src/rastir/transport.py:195-215 | with a dead thread nothing is flushed; else the queue is what the thread's last turns and the final flush leave, and it raises if and only if what the thread left cannot be encoded |
| Exporter.StopFlushesEncodable | src/rastir/transport.py:195-239 | so stopping a live exporter empties a queue whose spans can all be encoded |
| Exporter.BadSpanStrandsTheRest | src/rastir/transport.py:195-239 | one span that cannot be encoded kills the thread; stop then returns with the good span behind it still queued and no counter moved |
| HexCodec.ValueEncode | src/rastir/server/metrics.py:784 | reading and writing back gives the string in lower case |
| HexCodec.DigitsInOrder | src/rastir/server/metrics.py:784 | the digits are 0 to 9 and then a to f, read in either case and written in lower case |
| HexCodec.SameValueIff | src/rastir/server/otlp_exporter.py:49-64 | strings of one length denote one number if and only if they differ at most in case |
| Identifiers.ParseIff | src/rastir/remote.py:90-105 | the parser accepts exactly the trimmed strings of four or more dash-separated parts with fields of 32 and 16 characters |
| Identifiers.StripMeans | src/rastir/remote.py:98 | trimming takes off the white space at both ends and all of it |
| Identifiers.NoDashesConcat | src/rastir/remote.py:85-86 | leaving out dashes works character by character |
| Identifiers.NoDashesChar | src/rastir/remote.py:85-86 | a dash is left out, any other character stays |
| Identifiers.WireMeans | src/rastir/remote.py:85-86 | sent are the first 32 and 16 characters of the ids without their dashes, filled up with zeros at the end |
| Identifiers.FormatThenParse | src/rastir/remote.py:75-105 | for any two strings parsing the header succeeds and gives the fields that were sent |
| Identifiers.ParseThenFormat | src/rastir/remote.py:75-105 | formatting what was parsed from a formatted header gives the header back |
| Identifiers.ServerSpanLinksToClient | src/rastir/remote.py:425-434 | the server span's exported trace and parent are the client span's exported trace and span |
| Identifiers.ExportedSpanIdIff | src/rastir/server/otlp_exporter.py:57-64 | two client spans are one after export if and only if their first 16 digits agree |
| Identifiers.XrayFormsAgreeIff | src/rastir/server/metrics.py:773-786 | the metrics' string and the exporter's integer denote one id if and only if the start second is at least 1 and fits 32 bits |
| Identifiers.SplicedDigits | src/rastir/server/otlp_exporter.py:49-54 | the exported id is eight digits of time followed by the last 24 of the trace id |
| Identifiers.StubSeconds | src/rastir/server/evaluation_worker.py:315-318 | the nanosecond stub gives back the whole seconds of the start time |
| Identifiers.EpochCache.TraceEpoch | src/rastir/server/otlp_exporter.py:232-238 | a trace keeps the first start time seen for it until the cache is cleared, and the cache stays within 10,001 entries |
| CardinalityGuard.SeenIsFirstCap | src/rastir/server/metrics.py:800-812 | the values seen are the first `cap` distinct clipped values of the whole history |
| CardinalityGuard.LabelIff | src/rastir/server/metrics.py:800-812 | a value keeps its label if and only if its clipped form is among those, and overflows otherwise |
| CardinalityGuard.AdmittedStays | src/rastir/server/metrics.py:800-812 | an admitted value never turns into overflow |
| CardinalityGuard.FewLabels | src/rastir/server/metrics.py:800-812 | at most cap + 1 labels are ever emitted |
| CardinalityGuard.TotalsAreExact | src/rastir/server/metrics.py:528-696 | LLM, tool and retrieval calls and tokens summed over all label sets are the totals over the recorded spans |
| CardinalityGuard.RegistryFollowsGuard | src/rastir/server/metrics.py:495-499 | every dimension of the registry is the guard run over all values its spans have shown it, so the laws above apply |
| CardinalityGuard.OnlyAdmittedLabels | src/rastir/server/metrics.py:528-696 | a counter's label sets use only admitted values, the overflow label, or the empty label where none was guarded |
| CardinalityGuard.CountersStaySmall | src/rastir/server/metrics.py:528-696 | after any history each of the five counters has at most cap + 1 agent labels and cap + 2 model and provider labels; the tool counter has at most cap + 1 tool labels, the others none |
| CardinalityGuard.LookIsLabelsOf | src/rastir/server/metrics.py:495-689 | the labels a span is counted under, from the arrivals alone: service and environment clipped, its own model, provider, agent and tool if admitted by then, the overflow label if not |
| CardinalityGuard.CountersByLabel | src/rastir/server/metrics.py:528-696 | after any history each of the five counters holds under each label set exactly the sum over the spans that have these labels |
| CardinalityGuard.CountsMean | src/rastir/server/metrics.py:528-696 | what one span counts for: a call of its own kind, and for an LLM span its tokens unless a negative count was refused before |
| CardinalityGuard.MetricsRegistry.GuardValue | src/rastir/server/metrics.py:800-812 | the method is the guard on the given set |
| CardinalityGuard.MetricsRegistry.RecordSpan | src/rastir/server/metrics.py:464-696 | the method's new state, and that it raises exactly on a negative token count of an LLM span |
| AdapterRegistry.SortMeans | src/rastir/adapters/registry.py:33-38 | the sort is descending and keeps the registration order within each priority |
| AdapterRegistry.LazySortIsSort | src/rastir/adapters/registry.py:25-38 | sorting now and again after more registrations is one stable sort of the whole history |
| AdapterRegistry.FiveLayers | src/rastir/adapters/registry.py:62-90 | at most five layers are unwrapped and all framework metadata was told on one of them |
| AdapterRegistry.LayersComeOff | src/rastir/adapters/registry.py:62-90 | layers come off until no framework adapter takes one off any more, or five are off |
| AdapterRegistry.KnowsTheLast | src/rastir/adapters/registry.py:72-83 | what is known of a field after several reports is what the last report about it said |
| AdapterRegistry.FirstIsBest | src/rastir/adapters/registry.py:107-126 | the adapter chosen has the highest priority among those that answer and is the first of them in the list; none is chosen only if none answers |
| AdapterRegistry.MergeFills | src/rastir/adapters/registry.py:92-105 | the merged result shows what the adapter said, and of each field it left open what the last framework report about it said, if there is one |
| AdapterRegistry.ResolutionExplained | src/rastir/adapters/registry.py:41-128 | the result is the best provider's, else the best fallback's, on an object at most five layers inside; framework metadata fills exactly the fields it left open, with what was last reported |
| AdapterRegistry.Registry.Register | src/rastir/adapters/registry.py:25-30 | the list stays the stable sort of an earlier history followed by the later registrations |
| AdapterRegistry.Registry.Resolve | src/rastir/adapters/registry.py:41-128 | however registrations and resolutions interleave, the answer is that of the sorted registration history |
| RateLimiter.WindowCounter.Allow | src/rastir/server/rate_limiter.py:31-39 | the window rotates and the request counts whether allowed or not |
| RateLimiter.CounterIsCount | src/rastir/server/rate_limiter.py:31-39 | the counter is the number of requests of the newest bucket |
| RateLimiter.AdmitsUpToLimit | src/rastir/server/rate_limiter.py:31-39 | a key is admitted exactly min(requests, limit) times in every bucket |
| RateLimiter.AtMostTwiceTheLimit | src/rastir/server/rate_limiter.py:31-39 | and at most twice the limit in any 60 second interval |
| RateLimiter.TableIsHistory | src/rastir/server/rate_limiter.py:59-64 | each counter of the table is the one-key counter run over that key's own history |
| RateLimiter.CheckKeepsBothBounds | src/rastir/server/rate_limiter.py:72-85 | both bounds hold at once in every bucket although blocked requests consume IP quota; for a service exactly min(requests past their IP check, limit) get through |
| RateLimiter.VerdictIff | src/rastir/server/rate_limiter.py:72-85 | a request is blocked by its IP if and only if it is beyond the IP's limit in its minute, and by its service if and only if it is not and is beyond the service's among those that got that far |
| RateLimiter.IpPassesUpToLimit | src/rastir/server/rate_limiter.py:72-85 | in every minute exactly min(requests, limit) of an IP's requests pass its check |
| RateLimiter.RateLimiterObject.CheckRequest | src/rastir/server/rate_limiter.py:72-85 | the new counters, the verdict and the rejection counters, with a counter object for each key made on first use and shared by no other |

## Left out

- Attributes and dict entries are separate slots; that `vars(obj)` makes a dict out of the attributes of an object, and a dict behind a proxy, are not modelled.
- The names given to spans of wrapped models and tools, and what the proxies do when called, are not modelled.
- MCP client discovery and header injection during wrap touch no modelled slot and are left out; so is the search for the instrumentor, a plain first match.
- CrewAI, LlamaIndex and Strands wrapping, which follow the same scheme with weaker logs.
- Async and generator wrappers: the async ones have the shape of the synchronous ones, generators are not well bracketed. What ADK's own callbacks record when ADK calls them is left out for the same reason.
- Of what `functools.wraps` copies, only the two marks are modelled; a traced function whose original has attributes of its own called `func`, `bound` or `first` is taken to have none.
- FrameworkRun.WrapAll: for several graphs in one call the exact conditions are those of each walk in the state the one before it has left; before the call only the sufficient ones, clean graphs and no refusing object, are stated.
- Which assignments an object of a graph refuses is fixed; that the user's function makes one refuse what it took before is modelled for the clients of an `@llm` call only.
- A chat model whose class is also called like a recognised runnable, or a tool node that is one, is not modelled.
- LlmInterceptors: an attribute that is patched is taken to be callable, and its recogniser to have asked for it with `hasattr`, as all recognisers do.
- StaysBareIff: is about functions none of whose names holds a runnable; such a name is walked into, and models met there count as visited for the names after it.
- SpanContext.Tracer.EnqueueSpan: keeps a copy of the record as it is handed over and has no bound; the bounded queue is modelled in `Exporter`.
- SpanContext.Tracer.AgentWrapper: also stands for the plain agent of `framework_base.py`, which uses the attribute key `agent_name` instead of `agent`.
- LlmCallSync: what the function does to the object graph is given as a map of heaps beside the calls it makes; nested `@llm` calls patch in their own turn.
- LlmWrapper: the adapters' answers about request and response are part of the call; what an interceptor notes on the span while the function runs, token counts, captured text and cost are not modelled.
- uuid4 is taken never to repeat within a thread, and times are real numbers without rounding.
- A trace id registered by another thread is taken to differ from every id drawn in this one.
- IngestionWorker: soft-limit warnings, gauges, the cancellation race inside `asyncio.wait_for`, a stop before start, and a second start, which makes a new task after the first has ended, are not modelled; a stop that comes after the end may put one more sentinel here than in the source.
- EvaluationLoop.Emit: repeats the enqueue step of `IngestionQueue` on batches that carry spans; the evaluation worker waits for one task before taking the next, so a task counts as one step.
- ProcessBatch: metrics, redaction text, trace store and OTLP export of a span are decided outside; only whether it is stored and whether redaction drops it matter here.
- ParseHex: Python's `int(s, 16)` also accepts signs, underscores, surrounding space and a `0x` prefix; here anything but plain digits is the error.
- RecordSpan: durations, errors, cost, guardrails, exemplars and attributes that are not strings are not modelled.
- Resolution: an adapter whose `can_handle` raises is not modelled, and `resolve_request` and `resolve_stream_chunk` are left out.
- RateLimiter: the window length is fixed at the 60 seconds the server uses.
- TraceStore: the lock makes each call atomic; `get` and `clear` are left out as easy.
- The metrics' epoch cache is read but never filled in the files modelled, so the X-Ray forms are compared for equal start times.
- HTTP, FastAPI routes, Prometheus and OpenTelemetry objects, configuration loading, redaction rules, evaluation judges and deployment files.
