/**
 One @llm call with both of its effects outside itself: the context it enters and the
 client methods it patches. Source: src/rastir/decorators.py:463-490 with
 src/rastir/llm_discovery.py:344-388.
 */
module LlmCalls {
  import opened ObjectHeap
  import opened CallTree
  import opened SpanContext
  import opened LlmInterceptors

  /** Every patched slot reads as it did. */
  ghost predicate MethodsBack(o: Origin, heap: Heap, log: seq<Entry>) {
    forall slot :: Logged(log, slot) ==> ReadSlot(o.classes, heap, slot) == ReadSlot(o.classes, o.heap, slot)
  }

  /** What the user's function leaves, as the call tree tells it. */
  function Within(clock: Clock, call: Call, env: Env, w: World): Trail {
    var (o, w1) := Open(clock, call.kind, env, w);
    EmitBody(clock, call.body, Inside(call, o, env), Announced(call.kind, w1))
  }

  /** The two ways the call goes, as the call tree tells them. */
  lemma CallEmits(clock: Clock, call: Call, env: Env, w: World)
    requires call.kind.LlmCall?
    ensures var (o, w1) := Open(clock, call.kind, env, w);
            Within(clock, call, env, w) ==
            EmitBody(clock, call.body, Env(Some(Link(o.traceId, o.spanId)), env.agent), Announced(call.kind, w1))
    ensures var (o, w1) := Open(clock, call.kind, env, w);
            Emit(clock, call, env, w) ==
            if call.kind.refused then Trail([], Announced(call.kind, w1), Some(Link(o.traceId, o.spanId)))
            else Close(clock, call, env, w.tags, o, Within(clock, call, env, w))
  {
  }

  /**
   The call of the tree whose "refused" says that some target blocks; "later" is what the
   slots make of an assignment once the function has been run. The active span is given
   back, and the span reported, if no target blocks and no slot to be put back raises
   something unexpected. Where all of them take the assignment, the patched methods are
   put back if and only if no target blocks, and the last proxy for each slot hands out
   what the slot held; or none had been patched by then.
   */
  method LlmCallSync(tracer: Tracer, patcher: Patcher, call: Call, targets: seq<Target>, body: Heap -> Heap,
                     later: Slot -> Answer)
    returns (raised: bool, restored: bool, ghost given: Heap)
    requires call.kind.LlmCall? && patcher.Valid() && patcher.originals == []
    requires call.kind.refused <==> !NoneBlocks(patcher.AfterDiscovery(targets), targets)
    modifies tracer, patcher
    ensures raised <==> Raises(call) || !restored
    ensures restored <==> !call.kind.refused && NoneThrows(patcher.originals, later)
    // the function runs under "given", with an interceptor of this call in every slot worth patching
    ensures var o := old(patcher.AfterDiscovery(targets));
            && Patched(o, given, patcher.intercepted, patcher.originals)
            && Intercepting(patcher.calls, given, patcher.originals)
            && (!call.kind.refused ==>
                  && patcher.originals == Records(o, targets)
                  && (patcher.heap, restored) == Replayed(body(given), patcher.originals, later))
    ensures var t := Emit(tracer.clock, call, old(tracer.Here()), old(tracer.TheWorld()));
            restored || call.kind.refused ==>
              && tracer.enqueued == old(tracer.enqueued) + t.spans && tracer.TheWorld() == t.world
              && tracer.Here().parent == t.active && tracer.currentAgent == old(tracer.currentAgent)
              && (tracer.currentSpan == old(tracer.currentSpan) <==> !call.kind.refused)
    // the restore raised: the call's own span is not reported, and whatever was active stays so
    ensures var t := Within(tracer.clock, call, old(tracer.Here()), old(tracer.TheWorld()));
            !restored && !call.kind.refused ==>
              && tracer.enqueued == old(tracer.enqueued) + t.spans && tracer.Here().parent == t.active
              && tracer.currentAgent == old(tracer.currentAgent) && tracer.currentTags == t.world.tags
    ensures var o := old(patcher.AfterDiscovery(targets));
            && (call.kind.refused ==> (MethodsBack(o, patcher.heap, patcher.originals) <==> patcher.originals == []))
            && (!call.kind.refused && (forall slot :: Logged(patcher.originals, slot) ==> later(slot) == Takes) ==>
                  (MethodsBack(o, patcher.heap, patcher.originals) <==> HandsBack(o, targets)))
  {
    hide Patched, Allocated, NoneBlocks, Records, EmitBody, Start, Reparent, FinalTags, AgentLabel, BodyRaises, Over;
    hide HandsBack, Probed, NoneThrows, AllMade, MethodsBack, Replayed, ReadSlot, Blocks, Made, Logged;
    hide Placed, RegisterAll, Intercepting;
    ghost var env, w := tracer.Here(), tracer.TheWorld();
    CallEmits(tracer.clock, call, env, w);
    hide Emit, Within;
    var span, token := tracer.BeginLlm(call);
    ghost var began := span.At();
    ghost var o := patcher.AfterDiscovery(targets);
    var ok;
    ghost var n;
    ok, n := patcher.Instrument(targets);
    if !ok {
      LostPatches(o, patcher.heap, patcher.intercepted, patcher.originals);
      SomethingLost(o, patcher.heap, patcher.originals);
      return true, false, patcher.heap;
    }
    assert targets[..n] == targets;
    ghost var inner := EmitBody(tracer.clock, call.body, tracer.Here(), tracer.TheWorld());
    raised := tracer.Attempt(call, span, env, w.tags);
    given := patcher.heap;
    patcher.heap := body(patcher.heap);
    ghost var used := patcher.heap;
    restored := patcher.RestoreOriginals(later);
    if forall slot :: Logged(patcher.originals, slot) ==> later(slot) == Takes { PutBackIff(o, targets, used, later); }
    if !restored { return true, false, given; }
    tracer.EndLlm(call, span, token, raised, env, w.tags, began, inner.world);
  }

  /** After an installation that was broken off, the methods are back if and only if there was nothing to put back. */
  lemma SomethingLost(o: Origin, heap: Heap, log: seq<Entry>)
    requires forall slot ::
               (ReadSlot(o.classes, heap, slot) == ReadSlot(o.classes, o.heap, slot) <==> !Logged(log, slot))
    ensures MethodsBack(o, heap, log) <==> log == []
  {
    if log != [] { assert Logged(log, log[0].slot); }
  }

  lemma PutBackIff(o: Origin, targets: seq<Target>, used: Heap, later: Slot -> Answer)
    requires forall slot :: Logged(Records(o, targets), slot) ==> later(slot) == Takes
    ensures MethodsBack(o, Replayed(used, Records(o, targets), later).0, Records(o, targets)) <==> HandsBack(o, targets)
  {
    var log := Records(o, targets);
    forall i | 0 <= i < |log| ensures later(log[i].slot) == Takes { assert Logged(log, log[i].slot); }
    UndoIsExactIff(o, targets);
    forall slot | Logged(log, slot)
      ensures ReadSlot(o.classes, Replayed(used, log, later).0, slot) == LastSaved(log, slot)
    {
      ReplayedSlot(used, log, later, slot);
    }
  }
}
