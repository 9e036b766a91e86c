/**
 One call of a function under a framework decorator with both of its effects outside
 itself: the agent and the active span it sets, and the graphs it instruments. Source:
 src/rastir/framework_base.py:144-188.
 */
module FrameworkCalls {
  import opened ObjectHeap
  import opened CallTree
  import opened SpanContext
  import LangGraphState
  import LangGraphPlan
  import LangGraphTour
  import LangGraphWalk
  import LangGraphShown
  import FrameworkRun

  /** The call as the tracer sees it: if a graph cannot be wrapped, the function is not run. */
  function AsRun(call: Call, wrapped: bool): Call { if wrapped then call else call.(body := Raise) }

  /** Where the call's own span is to be found. */
  function OwnLink(clock: Clock, call: Call, env: Env, w: World): Link {
    var (o, _) := Open(clock, call.kind, env, w);
    Link(o.traceId, o.spanId)
  }

  lemma NotRun(clock: Clock, call: Call, env: Env, w: World)
    ensures BodyRaises(AsRun(call, false).body)
    ensures EmitBody(clock, AsRun(call, false).body, env, w) == Trail([], w, env.parent)
  {
  }

  /**
   "graphs" are the arguments the instrumentor detects, in order; "body" is what the
   user's function does to the heap. The agent, the active span and the report are what
   the decorator promises if and only if the restore comes to its end. If an assignment
   is refused while wrapping, the restore is too, and as its first one: the graphs stay
   as they are, the agent stays set, and the span stays active and is not reported.
   */
  method FrameworkImplSync(tracer: Tracer, w: LangGraphWalk.GraphWalk, call: Call, graphs: seq<Id>, body: Heap -> Heap)
    returns (raised: bool, wrapped: bool, ghost given: Heap, ghost visited: seq<set<Id>>, restored: bool)
    requires call.kind.AgentCall?
    requires LangGraphState.WellFormed(w.S()) && FrameworkRun.AreGraphs(w.shapes, graphs)
    requires w.originals == []  // create_originals()
    modifies tracer, w
    // what the function runs under: in every graph every node done, and all that its walk visited
    ensures wrapped ==> LangGraphShown.Shown(old(w.S()), LangGraphState.State(w.shapes, given, w.originals, w.seen),
                                             graphs, visited)
    // the graphs afterwards
    ensures FrameworkRun.CallUndone(old(w.S()), LangGraphState.State(w.shapes, given, w.originals, w.seen), wrapped,
                                    if wrapped then body(given) else given, w.heap, restored)
    ensures FrameworkRun.AllClean(old(w.S()), graphs) ==> LangGraphState.FirstsRaw(old(w.S()), w.originals)
    ensures FrameworkRun.NothingRefuses(old(w.shapes)) ==> restored && (wrapped || w.steps == 0)
    ensures |graphs| == 1 ==>
              FrameworkRun.OneGraph(old(w.S()).(seen := {}), graphs[0], w.originals, wrapped, !restored,
                                    w.steps)
    // the context
    ensures raised <==> !wrapped || BodyRaises(call.body)
    ensures var (env, before) := (old(tracer.Here()), old(tracer.TheWorld()));
            var t := Emit(tracer.clock, AsRun(call, wrapped), env, before);
            && tracer.TheWorld() == t.world
            && if restored then
                 tracer.currentSpan == old(tracer.currentSpan) && tracer.currentAgent == env.agent &&
                 tracer.enqueued == old(tracer.enqueued) + t.spans
               else
                 tracer.Here() == Env(Some(OwnLink(tracer.clock, call, env, before)), Some(call.name)) &&
                 tracer.enqueued == old(tracer.enqueued)
  {
    hide EmitBody, Start, BodyRaises, FinalTags, Placed, Over, Replay, RegisterAll;
    hide FrameworkRun.Wrapped, FrameworkRun.CallUndone, FrameworkRun.OneGraph, FrameworkRun.AllClean;
    hide FrameworkRun.NothingRefuses, FrameworkRun.AreGraphs, LangGraphState.WellFormed, LangGraphState.FirstsRaw;
    hide LangGraphShown.Shown;
    ghost var s0 := w.S();
    var span, token, agentToken := tracer.BeginAgent(call);
    ghost var refused;
    wrapped, refused, visited := FrameworkRun.WrapAll(w, graphs);
    FrameworkRun.WrappedMeans(s0, graphs, w.S(), wrapped, refused, w.steps, visited);
    given := w.heap;
    ghost var s := w.S();
    NotRun(tracer.clock, call, tracer.Here(), tracer.TheWorld());
    raised := tracer.Attempt(AsRun(call, wrapped), span, old(tracer.Here()), old(tracer.currentTags));
    if wrapped { w.heap := body(w.heap); }
    ghost var used := w.heap;
    restored := w.RestoreOriginals();
    FrameworkRun.CallIsUndone(s0, graphs, s, wrapped, refused, w.steps, visited, used);
    if !restored { return; }
    tracer.ResetCurrentAgent(agentToken);
    tracer.Leave(span, token);
  }
}
