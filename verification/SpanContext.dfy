/**
 The decorators as they run: context variables set and reset through tokens, span
 records filled in place, one shared anchor map. Proved against the context-free
 account in CallTree. Source: src/rastir/context.py:68-129, src/rastir/spans.py:45-110,
 src/rastir/decorators.py, src/rastir/remote.py:383-455.
 */
module SpanContext {
  import opened ObjectHeap  // Option
  import opened CallTree

  /** decorators.py:572-582: the response replaces what the request said only if it is concrete. */
  function Upgrade(request: Option<string>, response: Option<string>): Option<string> {
    if response.Some? && response.value != "" && response.value != "unknown" then response
    else if request == None then Some("unknown")
    else request
  }

  function Filled(t: Tags): Tags {
    Tags(if t.model.Some? then t.model else Some("unknown"), if t.provider.Some? then t.provider else Some("unknown"))
  }

  function Upgraded(request: Tags, response: Tags): Tags {
    Tags(Upgrade(request.model, response.model), Upgrade(request.provider, response.provider))
  }

  lemma FinalTagsAre(kind: Kind, failed: bool)
    requires kind.LlmCall?
    ensures FinalTags(kind, failed) == Filled(if failed then kind.request else Upgraded(kind.request, kind.response))
  {
  }

  class SpanRecord {
    const name: string
    const kind: Kind
    const spanId: Uid
    const monoStart: real
    var traceId: Uid
    var parentId: Option<Uid>
    var startTime: real
    var endTime: Option<real>
    var failed: bool            // status
    var agent: Option<string>   // attributes["agent"]
    var tags: Tags              // attributes["model"], attributes["provider"]

    constructor (name: string, kind: Kind, traceId: Uid, spanId: Uid, parentId: Option<Uid>, wall: real, mono: real)
      ensures this.name == name && this.kind == kind && this.traceId == traceId && this.spanId == spanId
      ensures this.parentId == parentId && startTime == wall && monoStart == mono && endTime == None
      ensures !failed && agent == None && tags == Tags(None, None)
    {
      this.name, this.kind, this.traceId, this.spanId, this.parentId := name, kind, traceId, spanId, parentId;
      startTime, monoStart, endTime, failed, agent, tags := wall, mono, None, false, None, Tags(None, None);
    }

    /** duration_seconds counts an open span as empty. */
    function View(): Span
      reads this
    {
      Span(name, kind, traceId, spanId, parentId, startTime,
           if endTime.Some? then endTime.value else startTime, failed, agent, tags)
    }

    function At(): Opened
      reads this
    {
      Opened(traceId, spanId, parentId, startTime, monoStart)
    }

    /** spans.py:82-93, and the child branch of __post_init__ */
    method Reanchor(anchors: Anchors)
      modifies this`startTime
      ensures startTime ==
              if parentId.Some? then Placed(anchors, traceId, monoStart, old(startTime)) else old(startTime)
    {
      if parentId.Some? && traceId in anchors {
        startTime := anchors[traceId].wall + (monoStart - anchors[traceId].mono);
      }
    }

    /** "if agent_name: span.set_attribute(...)" */
    method LabelAgent(current: Option<string>)
      modifies this`agent
      ensures agent == if Truthy(current).Some? then current else old(agent)
    {
      if current.Some? && current.value != "" { agent := current; }
    }

    /** The same for model and provider, decorators.py:951-956. */
    method InheritTags(current: Tags)
      modifies this`tags
      ensures tags == Over(current, old(tags))
    {
      if current.model.Some? && current.model.value != "" { tags := tags.(model := current.model); }
      if current.provider.Some? && current.provider.value != "" { tags := tags.(provider := current.provider); }
    }

    /** remote.py:431-434 */
    method MoveTo(incoming: Option<Remote>, anchors: Anchors)
      modifies this
      ensures At() == Reparent(EndpointCall(incoming), old(At()), anchors)
      ensures endTime == old(endTime) && agent == old(agent) && tags == old(tags)
    {
      if incoming.Some? {
        traceId := incoming.value.traceId;
        parentId := Some(incoming.value.parentId);
        Reanchor(anchors);
      }
    }

    method Finish(failed: bool, mono: real)
      modifies this`endTime, this`failed
      ensures endTime == Some(startTime + (mono - monoStart)) && this.failed == failed
    {
      var elapsed := mono - monoStart;
      endTime := Some(startTime + elapsed);
      this.failed := failed;
    }
  }

  class Tracer {
    const clock: Clock
    var tick: nat                   // clock readings taken
    var ids: nat                    // uuids drawn
    var anchors: Anchors            // _trace_time_anchor
    var currentSpan: SpanRecord?    // _current_span
    var currentAgent: Option<string>
    var currentTags: Tags           // _current_model, _current_provider
    var enqueued: seq<Span>         // every enqueue_span call so far, with the record as it was handed over

    constructor (clock: Clock)
      ensures this.clock == clock && currentSpan == null && currentAgent == None && enqueued == []
      ensures TheWorld() == World(0, 0, map[], Tags(None, None))
    {
      this.clock, tick, ids, anchors := clock, 0, 0, map[];
      currentSpan, currentAgent, currentTags, enqueued := null, None, Tags(None, None), [];
    }

    function Here(): Env
      reads this, currentSpan
    {
      Env(if currentSpan == null then None else Some(Link(currentSpan.traceId, currentSpan.spanId)), currentAgent)
    }

    function TheWorld(): World
      reads this
    {
      World(ids, tick, anchors, currentTags)
    }

    method ReadWall() returns (t: real)
      modifies this`tick
      ensures t == clock.wall(old(tick)) && tick == old(tick) + 1
    {
      t := clock.wall(tick);
      tick := tick + 1;
    }

    method ReadMono() returns (t: real)
      modifies this`tick
      ensures t == clock.mono(old(tick)) && tick == old(tick) + 1
    {
      t := clock.mono(tick);
      tick := tick + 1;
    }

    /** context.py:68-100 with SpanRecord.__post_init__; the token is the span that was active. */
    method StartSpan(name: string, kind: Kind) returns (span: SpanRecord, token: SpanRecord?)
      modifies this`tick, this`ids, this`anchors, this`currentSpan
      ensures fresh(span) && token == old(currentSpan) && currentSpan == span
      ensures (span.At(), TheWorld()) == Start(clock, old(Here()), old(TheWorld()))
      ensures span.name == name && span.kind == kind && span.endTime == None && span.agent == None &&
              span.tags == Tags(None, None)
    {
      var parent := currentSpan;
      anchors := RegisterAll(anchors, clock.others(tick));
      var wall := ReadWall();
      var mono := ReadMono();
      if parent != null {
        span := new SpanRecord(name, kind, parent.traceId, Uuid(ids), Some(parent.spanId), wall, mono);
        ids := ids + 1;
        span.Reanchor(anchors);
      } else {
        span := new SpanRecord(name, kind, Uuid(ids), Uuid(ids + 1), None, wall, mono);
        ids := ids + 2;
        anchors := Register(anchors, span.traceId, Anchor(wall, mono));
      }
      token := currentSpan;
      currentSpan := span;
    }

    method EndSpan(token: SpanRecord?)
      modifies this`currentSpan
      ensures currentSpan == token
    {
      currentSpan := token;
    }

    method SetCurrentAgent(name: string) returns (token: Option<string>)
      modifies this`currentAgent
      ensures token == old(currentAgent) && currentAgent == Some(name)
    {
      token := currentAgent;
      currentAgent := Some(name);
    }

    method ResetCurrentAgent(token: Option<string>)
      modifies this`currentAgent
      ensures currentAgent == token
    {
      currentAgent := token;
    }

    method EnqueueSpan(span: SpanRecord)
      modifies this`enqueued
      ensures enqueued == old(enqueued) + [span.View()]
    {
      enqueued := enqueued + [span.View()];
    }

    /** The last two lines of every "finally". */
    method Leave(span: SpanRecord, token: SpanRecord?)
      modifies this`currentSpan, this`enqueued
      ensures currentSpan == token && enqueued == old(enqueued) + [span.View()]
    {
      EndSpan(token);
      EnqueueSpan(span);
    }

    // ----- what one decorated call does ---------------------------------------------

    /** The agent is as before; the active span and what was enqueued and left behind are what the tree says. */
    twostate predicate Did(t: Trail)
      reads this, currentSpan
    {
      && Here().parent == t.active && currentAgent == old(currentAgent)
      && enqueued == old(enqueued) + t.spans
      && TheWorld() == t.world
    }

    /**
     The common "try" and "except" of every wrapper: finish(OK) after a return, record_error()
     and finish(ERROR) after an exception.
     */
    method Attempt(call: Call, span: SpanRecord, ghost env: Env, ghost before: Tags) returns (raised: bool)
      requires currentSpan == span && span.name == call.name && span.kind == call.kind && !Refuses(call.kind)
      requires span.agent == AgentLabel(call.kind, call.name, env.agent)
      modifies this, span`endTime, span`failed
      ensures raised == Raises(call)
      ensures var inner := EmitBody(clock, call.body, old(Here()), old(TheWorld()));
              && Did(Trail(inner.spans, After(call, inner.world).(tags := inner.world.tags), inner.active))
              && span.View() == Reported(clock, call, env, before, old(span.At()), inner.world).(tags := span.tags)
      decreases call, 0
    {
      raised := RunBody(call.body);
      if raised {
        var at := ReadWall();  // the timestamp of the exception event
      }
      var mono := ReadMono();
      span.Finish(raised, mono);
    }

    /** decorators.py:104-118 and 271-284: @trace and @metric */
    method TraceWrapper(call: Call) returns (raised: bool)
      requires call.kind.TraceCall? || call.kind.MetricCall?
      modifies this
      ensures raised == Raises(call) && Did(Emit(clock, call, old(Here()), old(TheWorld())))
      ensures currentSpan == old(currentSpan)
      decreases call, 1
    {
      var span, token := StartSpan(call.name, call.kind);
      raised := Attempt(call, span, old(Here()), old(currentTags));
      Leave(span, token);
    }

    /** The lines before "try" of an @agent wrapper. */
    method BeginAgent(call: Call) returns (span: SpanRecord, token: SpanRecord?, agentToken: Option<string>)
      requires call.kind.AgentCall?
      modifies this`tick, this`ids, this`anchors, this`currentSpan, this`currentAgent
      ensures fresh(span) && token == old(currentSpan) && currentSpan == span
      ensures agentToken == old(currentAgent) && currentAgent == Some(call.name)
      ensures (span.At(), TheWorld()) == Open(clock, call.kind, old(Here()), old(TheWorld()))
      ensures span.name == call.name && span.kind == call.kind && span.tags == Tags(None, None)
      ensures span.agent == Some(call.name)
    {
      span, token := StartSpan(call.name, call.kind);
      span.agent := Some(call.name);
      agentToken := SetCurrentAgent(call.name);
    }

    /** decorators.py:186-202, and _plain_agent_sync in framework_base.py:353-378 */
    method AgentWrapper(call: Call) returns (raised: bool)
      requires call.kind.AgentCall?
      modifies this
      ensures raised == Raises(call) && Did(Emit(clock, call, old(Here()), old(TheWorld())))
      ensures currentSpan == old(currentSpan)
      decreases call, 1
    {
      hide EmitBody, Start, BodyRaises;
      var span, token, agentToken := BeginAgent(call);
      raised := Attempt(call, span, old(Here()), old(currentTags));
      ResetCurrentAgent(agentToken);
      Leave(span, token);
    }

    /** _set_llm_base_attrs, _extract_request_metadata and _propagate_model_provider_to_context */
    method DescribeRequest(span: SpanRecord)
      requires span.kind.LlmCall?
      modifies this`currentTags, span`tags, span`agent
      ensures span.tags == span.kind.request && currentTags == Over(span.kind.request, old(currentTags))
      ensures span.agent == if Truthy(currentAgent).Some? then currentAgent else old(span.agent)
    {
      span.tags := span.kind.request;
      span.LabelAgent(currentAgent);
      if span.tags.model.Some? && span.tags.model.value != "" { currentTags := currentTags.(model := span.tags.model); }
      if span.tags.provider.Some? &&
        span.tags.provider.value != "" { currentTags := currentTags.(provider := span.tags.provider); }
    }

    /** decorators.py:678-690 */
    method FinalizeLlmSpan(span: SpanRecord)
      modifies this`currentTags, span`tags
      ensures span.tags == Filled(old(span.tags)) && currentTags == span.tags
    {
      if span.tags.model == None { span.tags := span.tags.(model := Some("unknown")); }
      if span.tags.provider == None { span.tags := span.tags.(provider := Some("unknown")); }
      currentTags := span.tags;
    }

    /** What the response tells, and the span's final tags; finish() comes in between and does not read them. */
    method DescribeResponse(span: SpanRecord, raised: bool)
      requires span.kind.LlmCall? && span.tags == span.kind.request
      modifies this`currentTags, span`tags
      ensures span.tags == FinalTags(span.kind, raised) && currentTags == span.tags
    {
      if !raised { span.tags := Upgraded(span.tags, span.kind.response); }
      FinalizeLlmSpan(span);
      FinalTagsAre(span.kind, raised);
    }

    /** The lines before "try" of an @llm wrapper. */
    method BeginLlm(call: Call) returns (span: SpanRecord, token: SpanRecord?)
      requires call.kind.LlmCall?
      modifies this`tick, this`ids, this`anchors, this`currentSpan, this`currentTags
      ensures fresh(span) && token == old(currentSpan) && currentSpan == span
      ensures var (o, w1) := Open(clock, call.kind, old(Here()), old(TheWorld()));
              span.At() == o && TheWorld() == Announced(call.kind, w1)
      ensures span.name == call.name && span.kind == call.kind && span.tags == call.kind.request
      ensures span.agent == AgentLabel(call.kind, call.name, currentAgent)
    {
      span, token := StartSpan(call.name, call.kind);
      DescribeRequest(span);
    }

    /** What the response tells, and the rest of the "finally". */
    method EndLlm(call: Call, span: SpanRecord, token: SpanRecord?, raised: bool, ghost env: Env, ghost before: Tags,
                  ghost o: Opened, ghost inner: World)
      requires call.kind.LlmCall? && span.kind == call.kind && span.tags == call.kind.request && raised == Raises(call)
      requires span.View() == Reported(clock, call, env, before, o, inner).(tags := span.tags)
      modifies this`currentTags, this`currentSpan, this`enqueued, span`tags
      ensures currentSpan == token && currentTags == FinalTags(call.kind, raised)
      ensures enqueued == old(enqueued) + [Reported(clock, call, env, before, o, inner)]
    {
      DescribeResponse(span, raised);
      Leave(span, token);
    }

    /** decorators.py:463-490 with the helpers it calls */
    method LlmWrapper(call: Call) returns (raised: bool)
      requires call.kind.LlmCall?
      modifies this
      ensures raised == Raises(call) && Did(Emit(clock, call, old(Here()), old(TheWorld())))
      ensures currentSpan == old(currentSpan) <==> !call.kind.refused
      decreases call, 1
    {
      hide EmitBody, Start, Reparent, FinalTags, AgentLabel, BodyRaises, Over;
      var span, token := BeginLlm(call);
      if call.kind.refused { return true; }  // install_interceptors() has raised, outside the "try"
      ghost var o, inner := span.At(), EmitBody(clock, call.body, Here(), TheWorld());
      raised := Attempt(call, span, old(Here()), old(currentTags));
      EndLlm(call, span, token, raised, old(Here()), old(currentTags), o, inner.world);
    }

    /** The lines before "try" of a @retrieval wrapper. */
    method BeginRetrieval(call: Call) returns (span: SpanRecord, token: SpanRecord?)
      requires call.kind.RetrievalCall?
      modifies this`tick, this`ids, this`anchors, this`currentSpan
      ensures fresh(span) && token == old(currentSpan) && currentSpan == span
      ensures (span.At(), TheWorld()) == Open(clock, call.kind, old(Here()), old(TheWorld()))
      ensures span.name == call.name && span.kind == call.kind && span.tags == SpanTags(call.kind, false, currentTags)
      ensures span.agent == AgentLabel(call.kind, call.name, currentAgent)
    {
      span, token := StartSpan(call.name, call.kind);
      span.LabelAgent(currentAgent);
      span.InheritTags(currentTags);
    }

    /** decorators.py:946-968 */
    method RetrievalWrapper(call: Call) returns (raised: bool)
      requires call.kind.RetrievalCall?
      modifies this
      ensures raised == Raises(call) && Did(Emit(clock, call, old(Here()), old(TheWorld())))
      ensures currentSpan == old(currentSpan)
      decreases call, 1
    {
      hide EmitBody, Start, BodyRaises, AgentLabel;
      var span, token := BeginRetrieval(call);
      raised := Attempt(call, span, old(Here()), old(currentTags));
      Leave(span, token);
    }

    /** remote.py:425-453: the span is created as usual, then moved into the client's trace */
    method McpEndpointWrapper(call: Call) returns (raised: bool)
      requires call.kind.EndpointCall?
      modifies this
      ensures raised == Raises(call) && Did(Emit(clock, call, old(Here()), old(TheWorld())))
      ensures currentSpan == old(currentSpan)
      decreases call, 1
    {
      hide EmitBody, Start, BodyRaises, Placed;
      var span, token := StartSpan(call.name, call.kind);
      span.MoveTo(call.kind.incoming, anchors);
      span.LabelAgent(currentAgent);
      raised := Attempt(call, span, old(Here()), old(currentTags));
      Leave(span, token);
    }

    method Invoke(call: Call) returns (raised: bool)
      modifies this
      ensures raised == Raises(call) && Did(Emit(clock, call, old(Here()), old(TheWorld())))
      ensures !Refuses(call.kind) ==> currentSpan == old(currentSpan)
      decreases call, 2
    {
      match call.kind
      case AgentCall => raised := AgentWrapper(call);
      case LlmCall(_, _, _) => raised := LlmWrapper(call);
      case RetrievalCall => raised := RetrievalWrapper(call);
      case EndpointCall(_) => raised := McpEndpointWrapper(call);
      case _ => raised := TraceWrapper(call);
    }

    /** The user's function. */
    method RunBody(b: Body) returns (raised: bool)
      modifies this
      ensures raised == BodyRaises(b) && Did(EmitBody(clock, b, old(Here()), old(TheWorld())))
      decreases b
    {
      match b
      case Return => raised := false;
      case Raise => raised := true;
      case Then(first, caught, rest) =>
        raised := Invoke(first);
        if raised && !caught { return; }
        raised := RunBody(rest);
    }
  }
}
