/**
 What a tree of decorated calls is meant to report, written down without any
 context variable: every call is given its enclosing call and agent explicitly.
 Source: src/rastir/context.py, src/rastir/spans.py, src/rastir/decorators.py,
 src/rastir/remote.py.
 */
module CallTree {
  import opened ObjectHeap  // Option

  /** uuid4().hex drawn in this thread, or an id that was made elsewhere. */
  datatype Uid = Uuid(n: nat) | Foreign(text: string)

  /** The trace context an MCP request arrives with. */
  datatype Remote = Remote(traceId: Uid, parentId: Uid)

  datatype Tags = Tags(model: Option<string>, provider: Option<string>)

  /**
   The decorator. For @llm: what the arguments say about model and provider, what the
   adapters make of the response, and whether patching a client raises before the
   function runs. For @mcp_endpoint: the incoming trace context.
   */
  datatype Kind =
    | TraceCall | MetricCall | AgentCall | RetrievalCall
    | LlmCall(request: Tags, response: Tags, refused: bool)
    | EndpointCall(incoming: Option<Remote>)

  /** A decorated function at work: it makes decorated calls one after the other, then returns or raises. */
  datatype Call = Call(kind: Kind, name: string, body: Body)
  datatype Body = Return | Raise | Then(first: Call, caught: bool, rest: Body)

  /** An @llm call that raises before its "try": the span stays open and active, and nobody reports it. */
  predicate Refuses(kind: Kind) { kind.LlmCall? && kind.refused }

  predicate Raises(call: Call) { Refuses(call.kind) || BodyRaises(call.body) }

  predicate BodyRaises(b: Body) {
    match b
    case Return => false
    case Raise => true
    case Then(first, caught, rest) => Stops(first, caught) || BodyRaises(rest)
  }

  /** Every wrapper re-raises, so an exception nobody catches ends the body that made the call. */
  predicate Stops(first: Call, caught: bool) { (Refuses(first.kind) || BodyRaises(first.body)) && !caught }

  // ----- the clock ------------------------------------------------------------

  datatype Anchor = Anchor(wall: real, mono: real)

  type Anchors = map<Uid, Anchor>

  datatype Registration = Registration(text: string, anchor: Anchor)

  /**
   What the n-th reading of either clock gives, and the root spans other threads
   register before it: the anchor map is shared by the whole process.
   */
  datatype Clock = Clock(wall: nat -> real, mono: nat -> real, others: nat -> seq<Registration>)

  const ANCHOR_LIMIT := 10_000

  function Register(anchors: Anchors, traceId: Uid, a: Anchor): Anchors {
    (if |anchors| > ANCHOR_LIMIT then map[] else anchors)[traceId := a]
  }

  function RegisterAll(anchors: Anchors, rs: seq<Registration>): Anchors
    decreases |rs|
  {
    if rs == [] then anchors else RegisterAll(Register(anchors, Foreign(rs[0].text), rs[0].anchor), rs[1..])
  }

  /** A monotonic reading carried over to the wall clock of the trace's root, if its anchor is still there. */
  function Placed(anchors: Anchors, traceId: Uid, mono: real, otherwise: real): real {
    if traceId in anchors then anchors[traceId].wall + (mono - anchors[traceId].mono) else otherwise
  }

  // ----- what one call reports ----------------------------------------------------

  datatype Span = Span(
    name: string, kind: Kind, traceId: Uid, spanId: Uid, parentId: Option<Uid>,
    start: real, end: real, failed: bool, agent: Option<string>, tags: Tags)

  datatype Link = Link(traceId: Uid, spanId: Uid)

  /** Where a call is made: inside which span, on behalf of which agent. */
  datatype Env = Env(parent: Option<Link>, agent: Option<string>)

  /** What time and earlier calls leave behind: ids drawn, readings taken, anchors, the tags of the last LLM call. */
  datatype World = World(ids: nat, tick: nat, anchors: Anchors, tags: Tags)

  datatype Opened = Opened(traceId: Uid, spanId: Uid, parentId: Option<Uid>, start: real, monoStart: real)

  /** The spans reported, what is left behind, and which span is active afterwards. */
  datatype Trail = Trail(spans: seq<Span>, world: World, active: Option<Link>)

  function Start(clock: Clock, env: Env, w: World): (Opened, World) {
    var anchors := RegisterAll(w.anchors, clock.others(w.tick));
    var wall, mono := clock.wall(w.tick), clock.mono(w.tick + 1);
    match env.parent
    case None =>
      (Opened(Uuid(w.ids), Uuid(w.ids + 1), None, wall, mono),
       World(w.ids + 2, w.tick + 2, Register(anchors, Uuid(w.ids), Anchor(wall, mono)), w.tags))
    case Some(p) =>
      (Opened(p.traceId, Uuid(w.ids), Some(p.spanId), Placed(anchors, p.traceId, mono, wall), mono),
       World(w.ids + 1, w.tick + 2, anchors, w.tags))
  }

  predicate Reparented(kind: Kind) { kind.EndpointCall? && kind.incoming.Some? }

  /** @mcp_endpoint moves its span into the client's trace and places it again. */
  function Reparent(kind: Kind, o: Opened, anchors: Anchors): Opened {
    if !Reparented(kind) then o else
      var r := kind.incoming.value;
      Opened(r.traceId, o.spanId, Some(r.parentId), Placed(anchors, r.traceId, o.monoStart, o.start), o.monoStart)
  }

  function Open(clock: Clock, kind: Kind, env: Env, w: World): (Opened, World) {
    var (o, w1) := Start(clock, env, w);
    (Reparent(kind, o, w1.anchors), w1)
  }

  /** The "if value:" tests: an empty string counts as missing. */
  function Truthy(s: Option<string>): Option<string> { if s == Some("") then None else s }

  function Over(newer: Tags, older: Tags): Tags {
    Tags(if Truthy(newer.model).Some? then newer.model else older.model,
         if Truthy(newer.provider).Some? then newer.provider else older.provider)
  }

  function FinalTag(request: Option<string>, response: Option<string>, failed: bool): Option<string> {
    if !failed && Truthy(response).Some? && response.value != "unknown" then response
    else if request.Some? then request
    else Some("unknown")
  }

  function FinalTags(kind: Kind, failed: bool): Tags
    requires kind.LlmCall?
  {
    Tags(FinalTag(kind.request.model, kind.response.model, failed),
         FinalTag(kind.request.provider, kind.response.provider, failed))
  }

  /** What an @llm call makes known before its function runs. */
  function Announced(kind: Kind, w: World): World {
    if kind.LlmCall? then w.(tags := Over(kind.request, w.tags)) else w
  }

  function Inside(call: Call, o: Opened, env: Env): Env {
    Env(Some(Link(o.traceId, o.spanId)), if call.kind.AgentCall? then Some(call.name) else env.agent)
  }

  function AgentLabel(kind: Kind, name: string, agent: Option<string>): Option<string> {
    match kind
    case AgentCall => Some(name)
    case LlmCall(_, _, _) | RetrievalCall | EndpointCall(_) => Truthy(agent)
    case TraceCall | MetricCall => None
  }

  function SpanTags(kind: Kind, failed: bool, before: Tags): Tags {
    match kind
    case LlmCall(_, _, _) => FinalTags(kind, failed)
    case RetrievalCall => Tags(Truthy(before.model), Truthy(before.provider))
    case _ => Tags(None, None)
  }

  /** The reading finish() takes; record_error() reads the wall clock first. */
  function EndTick(failed: bool, w: World): nat { if failed then w.tick + 1 else w.tick }

  function Reported(clock: Clock, call: Call, env: Env, before: Tags, o: Opened, inner: World): Span {
    var failed := Raises(call);
    Span(call.name, call.kind, o.traceId, o.spanId, o.parentId,
         o.start, o.start + (clock.mono(EndTick(failed, inner)) - o.monoStart), failed,
         AgentLabel(call.kind, call.name, env.agent), SpanTags(call.kind, failed, before))
  }

  function After(call: Call, inner: World): World {
    var failed := Raises(call);
    World(inner.ids, EndTick(failed, inner) + 1, inner.anchors,
          if call.kind.LlmCall? then FinalTags(call.kind, failed) else inner.tags)
  }

  function Close(clock: Clock, call: Call, env: Env, before: Tags, o: Opened, inner: Trail): Trail {
    Trail(inner.spans + [Reported(clock, call, env, before, o, inner.world)], After(call, inner.world), env.parent)
  }

  function Emit(clock: Clock, call: Call, env: Env, w: World): Trail {
    var (o, w1) := Open(clock, call.kind, env, w);
    if Refuses(call.kind) then Trail([], Announced(call.kind, w1), Some(Link(o.traceId, o.spanId)))
    else Close(clock, call, env, w.tags, o, EmitBody(clock, call.body, Inside(call, o, env), Announced(call.kind, w1)))
  }

  function EmitBody(clock: Clock, b: Body, env: Env, w: World): Trail {
    match b
    case Return => Trail([], w, env.parent)
    case Raise => Trail([], w, env.parent)
    case Then(first, caught, rest) =>
      var t1 := Emit(clock, first, env, w);
      if Stops(first, caught) then t1 else
        var t2 := EmitBody(clock, rest, env.(parent := t1.active), t1.world);
        Trail(t1.spans + t2.spans, t2.world, t2.active)
  }

  // ----- which calls are made, from the tree alone -------------------------------------

  datatype Layer = Layer(kind: Kind, name: string)

  /**
   One call that is reported, with the decorated calls around it, outermost first.
   "stray" if a refused @llm call was made before it by the same function.
   */
  datatype Frame = Frame(name: string, kind: Kind, failed: bool, above: seq<Layer>, stray: bool)

  function Own(call: Call, above: seq<Layer>, stray: bool): Frame {
    Frame(call.name, call.kind, Raises(call), above, stray)
  }

  /** The calls that happen and are reported, in the order they end. */
  function Executed(call: Call, above: seq<Layer>, stray: bool): seq<Frame> {
    if Refuses(call.kind) then []
    else ExecutedBody(call.body, above + [Layer(call.kind, call.name)], false) + [Own(call, above, stray)]
  }

  function ExecutedBody(b: Body, above: seq<Layer>, stray: bool): seq<Frame> {
    match b
    case Return => []
    case Raise => []
    case Then(first, caught, rest) =>
      if Stops(first, caught) then Executed(first, above, stray)
      else Executed(first, above, stray) + ExecutedBody(rest, above, stray || Refuses(first.kind))
  }

  /** The calls a function makes one after the other, and whether it catches what they raise. */
  function CallsIn(b: Body): seq<(Call, bool)> {
    match b
    case Then(first, caught, rest) => [(first, caught)] + CallsIn(rest)
    case _ => []
  }

  predicate EndsByRaising(b: Body) {
    match b
    case Then(_, _, rest) => EndsByRaising(rest)
    case Raise => true
    case Return => false
  }

  /** A function ends in an exception exactly when it raises one itself or does not catch that of a call. */
  lemma {:induction false} BodyRaisesIff(b: Body)
    ensures BodyRaises(b) <==> EndsByRaising(b) || exists i ::
              0 <= i < |CallsIn(b)| && Raises(CallsIn(b)[i].0) && !CallsIn(b)[i].1
    decreases b
  {
    if b.Then? {
      BodyRaisesIff(b.rest);
      var calls, rest := CallsIn(b), CallsIn(b.rest);
      assert calls[0] == (b.first, b.caught) && forall i :: 0 <= i < |rest| ==> rest[i] == calls[i + 1];
      if i :| 0 <= i < |rest| && Raises(rest[i].0) && !rest[i].1 {
        assert calls[i + 1] == rest[i];
      }
    }
  }

  /** The calls after one that raises are made exactly when its exception is caught. */
  lemma CaughtGoesOn(clock: Clock, b: Body, env: Env, w: World, above: seq<Layer>, stray: bool)
    requires b.Then?
    ensures var (f, t) := (Executed(b.first, above, stray), Emit(clock, b.first, env, w));
            var ends := Raises(b.first) && !b.caught;
            var more := ExecutedBody(b.rest, above, stray || Refuses(b.first.kind));
            var after := EmitBody(clock, b.rest, env.(parent := t.active), t.world);
            && (ends ==> ExecutedBody(b, above, stray) == f && EmitBody(clock, b, env, w) == t)
            && (!ends ==> ExecutedBody(b, above, stray) == f + more)
            && (!ends ==> EmitBody(clock, b, env, w) == after.(spans := t.spans + after.spans))
  {
  }

  ghost predicate SameCalls(fs: seq<Frame>, ss: seq<Span>) {
    |fs| == |ss| && forall i ::
        0 <= i < |fs| ==> ss[i].name == fs[i].name && ss[i].kind == fs[i].kind && ss[i].failed == fs[i].failed
  }

  /** Every call that happens, but for the refused, gives exactly one span, in post-order, with the right status. */
  lemma {:induction false} PostOrder(clock: Clock, call: Call, env: Env, w: World, above: seq<Layer>, stray: bool)
    ensures SameCalls(Executed(call, above, stray), Emit(clock, call, env, w).spans)
    decreases call
  {
    if !Refuses(call.kind) {
      var (o, w1) := Open(clock, call.kind, env, w);
      var deeper := above + [Layer(call.kind, call.name)];
      PostOrderBody(clock, call.body, Inside(call, o, env), Announced(call.kind, w1), deeper, false);
    }
  }

  lemma {:induction false} PostOrderBody(clock: Clock, b: Body, env: Env, w: World, above: seq<Layer>, stray: bool)
    ensures SameCalls(ExecutedBody(b, above, stray), EmitBody(clock, b, env, w).spans)
    decreases b
  {
    if b.Then? {
      PostOrder(clock, b.first, env, w, above, stray);
      if !Stops(b.first, b.caught) {
        var t1 := Emit(clock, b.first, env, w);
        PostOrderBody(clock, b.rest, env.(parent := t1.active), t1.world, above, stray || Refuses(b.first.kind));
      }
    }
  }

  // ----- ids -----------------------------------------------------------------------

  /** The ids of the spans were drawn between lo and hi, and no two are the same. */
  ghost predicate FreshIds(ss: seq<Span>, lo: nat, hi: nat) {
    && lo <= hi
    && (forall i :: 0 <= i < |ss| ==> ss[i].spanId.Uuid? && lo <= ss[i].spanId.n < hi)
    && (forall i, j :: 0 <= i < j < |ss| ==> ss[i].spanId != ss[j].spanId)
  }

  lemma {:induction false} IdsAreFresh(clock: Clock, call: Call, env: Env, w: World)
    ensures FreshIds(Emit(clock, call, env, w).spans, w.ids, Emit(clock, call, env, w).world.ids)
    decreases call
  {
    if !Refuses(call.kind) {
      var (o, w1) := Open(clock, call.kind, env, w);
      BodyIdsAreFresh(clock, call.body, Inside(call, o, env), Announced(call.kind, w1));
    }
  }

  lemma {:induction false} BodyIdsAreFresh(clock: Clock, b: Body, env: Env, w: World)
    ensures FreshIds(EmitBody(clock, b, env, w).spans, w.ids, EmitBody(clock, b, env, w).world.ids)
    decreases b
  {
    if b.Then? {
      IdsAreFresh(clock, b.first, env, w);
      if !Stops(b.first, b.caught) {
        var t1 := Emit(clock, b.first, env, w);
        BodyIdsAreFresh(clock, b.rest, env.(parent := t1.active), t1.world);
      }
    }
  }

  lemma IdsGrow(clock: Clock, call: Call, env: Env, w: World)
    ensures w.ids <= Emit(clock, call, env, w).world.ids
  {
    IdsAreFresh(clock, call, env, w);
  }

  // ----- parents ----------------------------------------------------------------------

  /** Among calls listed as they end, j encloses i when it is the first later one nearer the root. */
  ghost predicate Encloses(fs: seq<Frame>, i: nat, j: nat) {
    i < j < |fs| && |fs[j].above| < |fs[i].above| && forall k :: i < k < j ==> |fs[k].above| >= |fs[i].above|
  }

  ghost predicate ChildOf(s: Span, parent: Option<Link>) {
    if Reparented(s.kind) then s.traceId == s.kind.incoming.value.traceId &&
      s.parentId == Some(s.kind.incoming.value.parentId)
    else if parent.Some? then s.traceId == parent.value.traceId && s.parentId == Some(parent.value.spanId)
    else s.parentId == None
  }

  ghost predicate Linked(fs: seq<Frame>, ss: seq<Span>)
    requires |fs| == |ss|
  {
    forall i: nat, j: nat ::
        Encloses(fs, i, j) && !fs[i].stray ==> ChildOf(ss[i], Some(Link(ss[j].traceId, ss[j].spanId)))
  }

  ghost predicate Below(fs: seq<Frame>, depth: nat) {
    forall i :: 0 <= i < |fs| ==> |fs[i].above| >= depth
  }

  /** The list is empty or ends with one of its outermost calls. */
  predicate EndsAt(fs: seq<Frame>, depth: nat) { fs == [] || |fs[|fs| - 1].above| == depth }

  /** The outermost of the calls listed are children of the given parent. */
  ghost predicate Rooted(fs: seq<Frame>, ss: seq<Span>, depth: nat, parent: Option<Link>)
    requires |fs| == |ss|
  {
    forall i :: 0 <= i < |fs| && |fs[i].above| == depth && !fs[i].stray ==> ChildOf(ss[i], parent)
  }

  lemma {:induction false} ExecutedBelow(call: Call, above: seq<Layer>, stray: bool)
    ensures Below(Executed(call, above, stray), |above|) && EndsAt(Executed(call, above, stray), |above|)
    decreases call
  {
    BodyBelow(call.body, above + [Layer(call.kind, call.name)], false);
  }

  lemma {:induction false} BodyBelow(b: Body, above: seq<Layer>, stray: bool)
    ensures Below(ExecutedBody(b, above, stray), |above|) && EndsAt(ExecutedBody(b, above, stray), |above|)
    decreases b
  {
    if b.Then? {
      ExecutedBelow(b.first, above, stray);
      BodyBelow(b.rest, above, stray || Refuses(b.first.kind));
    }
  }

  /** Calls listed one after the other at the same level: nothing in the second list encloses anything in the first. */
  lemma EnclosesSplits(f1: seq<Frame>, f2: seq<Frame>, depth: nat, i: nat, j: nat)
    requires Below(f1, depth) && Below(f2, depth) && Encloses(f1 + f2, i, j) && EndsAt(f1, depth)
    ensures (j < |f1| && Encloses(f1, i, j)) || (|f1| <= i && Encloses(f2, i - |f1|, j - |f1|))
  {
    var f := f1 + f2;
    assert Below(f, depth) && (f1 != [] ==> f[|f1| - 1] == f1[|f1| - 1]);
    if j < |f1| {
      forall k | i < k < j ensures |f1[k].above| >= |f1[i].above| { assert f[k] == f1[k]; }
    } else if |f1| <= i {
      forall k | i - |f1| < k < j - |f1| ensures |f2[k].above| >= |f2[i - |f1|].above| { assert f[k + |f1|] == f2[k]; }
    }
  }

  lemma LinkedSplits(f1: seq<Frame>, f2: seq<Frame>, s1: seq<Span>, s2: seq<Span>, depth: nat)
    requires |f1| == |s1| && |f2| == |s2| && Linked(f1, s1) && Linked(f2, s2)
    requires Below(f1, depth) && Below(f2, depth) && EndsAt(f1, depth)
    ensures Linked(f1 + f2, s1 + s2)
  {
    var fs, ss := f1 + f2, s1 + s2;
    forall i: nat, j: nat | Encloses(fs, i, j) && !fs[i].stray
      ensures ChildOf(ss[i], Some(Link(ss[j].traceId, ss[j].spanId)))
    {
      EnclosesSplits(f1, f2, depth, i, j);
    }
  }

  /** The last to end encloses the outermost calls listed before it, and those only. */
  lemma LastEncloses(f1: seq<Frame>, own: Frame, i: nat, j: nat)
    requires Below(f1, |own.above| + 1) && Encloses(f1 + [own], i, j) && EndsAt(f1, |own.above| + 1)
    ensures (j < |f1| && Encloses(f1, i, j)) || (j == |f1| && |f1[i].above| == |own.above| + 1)
  {
    var f := f1 + [own];
    assert f[|f1| - 1] == f1[|f1| - 1] && f[i] == f1[i];
    if j < |f1| {
      forall k | i < k < j ensures |f1[k].above| >= |f1[i].above| { assert f[k] == f1[k]; }
    }
  }

  lemma LinkedUnder(f1: seq<Frame>, own: Frame, s1: seq<Span>, s: Span, parent: Option<Link>)
    requires !own.stray ==> ChildOf(s, parent)
    requires |f1| == |s1| && Linked(f1, s1) && Below(f1, |own.above| + 1) && EndsAt(f1, |own.above| + 1)
    requires Rooted(f1, s1, |own.above| + 1, Some(Link(s.traceId, s.spanId)))
    ensures Linked(f1 + [own], s1 + [s]) && Rooted(f1 + [own], s1 + [s], |own.above|, parent)
  {
    var fs, ss := f1 + [own], s1 + [s];
    forall i: nat, j: nat | Encloses(fs, i, j) && !fs[i].stray
      ensures ChildOf(ss[i], Some(Link(ss[j].traceId, ss[j].spanId)))
    {
      LastEncloses(f1, own, i, j);
    }
  }

  /**
   Every span that is not stray is in the trace, and a child of the span, of the call
   that directly encloses it; the outermost is a child of what was active before.
   */
  lemma {:induction false} ParentIsEnclosing(clock: Clock, call: Call, env: Env, w: World, above: seq<Layer>,
                                             stray: bool)
    ensures var fs, ss := Executed(call, above, stray), Emit(clock, call, env, w).spans;
            |fs| == |ss| && Linked(fs, ss) && Rooted(fs, ss, |above|, env.parent)
    decreases call
  {
    if !Refuses(call.kind) {
      hide Linked, Rooted, Below, EndsAt, ExecutedBody, EmitBody;
      var (o, w1) := Open(clock, call.kind, env, w);
      var deeper, inside, w2 := above + [Layer(call.kind, call.name)], Inside(call, o, env), Announced(call.kind, w1);
      ParentIsEnclosingBody(clock, call.body, inside, w2, deeper, false);
      BodyBelow(call.body, deeper, false);
      var inner := EmitBody(clock, call.body, inside, w2);
      LinkedUnder(ExecutedBody(call.body, deeper, false), Own(call, above, stray), inner.spans,
                  Reported(clock, call, env, w.tags, o, inner.world), env.parent);
    }
  }

  lemma {:induction false} ParentIsEnclosingBody(clock: Clock, b: Body, env: Env, w: World, above: seq<Layer>,
                                                 stray: bool)
    ensures var fs, ss := ExecutedBody(b, above, stray), EmitBody(clock, b, env, w).spans;
            |fs| == |ss| && Linked(fs, ss) && Rooted(fs, ss, |above|, env.parent)
    decreases b
  {
    if b.Then? {
      ParentIsEnclosing(clock, b.first, env, w, above, stray);
      if !Stops(b.first, b.caught) {
        var t1, astray := Emit(clock, b.first, env, w), stray || Refuses(b.first.kind);
        var env1 := env.(parent := t1.active);
        ParentIsEnclosingBody(clock, b.rest, env1, t1.world, above, astray);
        ExecutedBelow(b.first, above, stray);
        BodyBelow(b.rest, above, astray);
        if astray { StrayOutermost(b.rest, above); }
        BodiesLinked(Executed(b.first, above, stray), ExecutedBody(b.rest, above, astray),
                     t1.spans, EmitBody(clock, b.rest, env1, t1.world).spans, |above|, env.parent, env1.parent);
      }
    }
  }

  lemma BodiesLinked(f1: seq<Frame>, f2: seq<Frame>, s1: seq<Span>, s2: seq<Span>, depth: nat, p1: Option<Link>,
                     p2: Option<Link>)
    requires |f1| == |s1| && |f2| == |s2| && Linked(f1, s1) && Linked(f2, s2)
    requires Below(f1, depth) && Below(f2, depth) && EndsAt(f1, depth)
    requires Rooted(f1, s1, depth, p1) && Rooted(f2, s2, depth, p2)
    requires p2 == p1 || forall i :: 0 <= i < |f2| && |f2[i].above| == depth ==> f2[i].stray
    ensures Linked(f1 + f2, s1 + s2) && Rooted(f1 + f2, s1 + s2, depth, p1)
  {
    LinkedSplits(f1, f2, s1, s2, depth);
  }

  lemma StrayFirst(call: Call, above: seq<Layer>)
    ensures var fs := Executed(call, above, true); forall i :: 0 <= i < |fs| && |fs[i].above| == |above| ==> fs[i].stray
  {
    BodyBelow(call.body, above + [Layer(call.kind, call.name)], false);
  }

  /** After a refused call all the outermost calls listed are stray. */
  lemma {:induction false} StrayOutermost(b: Body, above: seq<Layer>)
    ensures var fs := ExecutedBody(b, above, true); forall i ::
              0 <= i < |fs| && |fs[i].above| == |above| ==> fs[i].stray
    decreases b
  {
    if b.Then? {
      StrayFirst(b.first, above);
      StrayOutermost(b.rest, above);
      assert ExecutedBody(b, above, true) == Executed(b.first, above, true)
          + if Stops(b.first, b.caught) then [] else ExecutedBody(b.rest, above, true);
    }
  }

  // ----- the active span ------------------------------------------------------------------

  /** Among the calls the function makes and comes to, one is refused. */
  predicate RefusedIn(b: Body) {
    b.Then? && (Refuses(b.first.kind) || (!Stops(b.first, b.caught) && RefusedIn(b.rest)))
  }

  /** A span id drawn before now, or elsewhere. */
  predicate Before(parent: Option<Link>, ids: nat) {
    parent.Some? && parent.value.spanId.Uuid? ==> parent.value.spanId.n < ids
  }

  /** A call gives the active span back if and only if it is not refused. */
  lemma ActiveRestoredIff(clock: Clock, call: Call, env: Env, w: World)
    requires Before(env.parent, w.ids)
    ensures Emit(clock, call, env, w).active == env.parent <==> !Refuses(call.kind)
  {
  }

  /** So the function is left with its own span active if and only if none of the calls it came to was refused. */
  lemma {:induction false} ActiveInBodyIff(clock: Clock, b: Body, env: Env, w: World)
    requires Before(env.parent, w.ids)
    ensures var t := EmitBody(clock, b, env, w);
            && Before(t.active, t.world.ids)
            && (t.active == env.parent <==> !RefusedIn(b))
            && (RefusedIn(b) ==> t.active.Some? && t.active.value.spanId.Uuid? && t.active.value.spanId.n >= w.ids)
    decreases b
  {
    if b.Then? {
      var t1 := Emit(clock, b.first, env, w);
      IdsGrow(clock, b.first, env, w);
      ActiveRestoredIff(clock, b.first, env, w);
      if !Stops(b.first, b.caught) { ActiveInBodyIff(clock, b.rest, env.(parent := t1.active), t1.world); }
    }
  }

  /** Its parent is no reported span: the given one, or one drawn in between. */
  ghost predicate Orphan(s: Span, ss: seq<Span>, parent: Option<Link>, lo: nat, hi: nat) {
    && s.parentId.Some?
    && ((parent.Some? && s.parentId.value == parent.value.spanId) ||
        (s.parentId.value.Uuid? && lo <= s.parentId.value.n < hi))
    && forall k :: 0 <= k < |ss| ==> ss[k].spanId != s.parentId.value
  }

  ghost predicate Orphans(fs: seq<Frame>, ss: seq<Span>, parent: Option<Link>, lo: nat, hi: nat)
    requires |fs| == |ss|
  {
    forall i :: 0 <= i < |fs| && fs[i].stray && !Reparented(ss[i].kind) ==> Orphan(ss[i], ss, parent, lo, hi)
  }

  lemma OrphansJoin(f1: seq<Frame>, f2: seq<Frame>, s1: seq<Span>, s2: seq<Span>,
                    p1: Option<Link>, p2: Option<Link>, lo: nat, mid: nat, hi: nat)
    requires |f1| == |s1| && |f2| == |s2| && FreshIds(s1, lo, mid) && FreshIds(s2, mid, hi)
    requires Orphans(f1, s1, p1, lo, mid) && Orphans(f2, s2, p2, mid, hi) && Before(p1, lo)
    requires p2 == p1 || (f1 == [] && p2.Some? && p2.value.spanId.Uuid? && lo <= p2.value.spanId.n < mid)
    ensures Orphans(f1 + f2, s1 + s2, p1, lo, hi)
  {
    var fs, ss := f1 + f2, s1 + s2;
    forall i | 0 <= i < |fs| && fs[i].stray && !Reparented(ss[i].kind) ensures Orphan(ss[i], ss, p1, lo, hi) {
      if i < |f1| { assert Orphan(s1[i], s1, p1, lo, mid); } else { assert Orphan(s2[i - |f1|], s2, p2, mid, hi); }
    }
  }

  lemma OrphansUnder(f1: seq<Frame>, own: Frame, s1: seq<Span>, s: Span, parent: Option<Link>, lo: nat, mid: nat,
                     hi: nat)
    requires |f1| == |s1| && lo < mid && FreshIds(s1, mid, hi) && Orphans(f1, s1, None, mid, hi)
    requires s.spanId.Uuid? && lo <= s.spanId.n < mid
    requires own.stray && !Reparented(s.kind) ==>
               parent.Some? && Before(parent, lo) && s.parentId == Some(parent.value.spanId)
    ensures Orphans(f1 + [own], s1 + [s], parent, lo, hi)
  {
    var fs, ss := f1 + [own], s1 + [s];
    forall i | 0 <= i < |fs| && fs[i].stray && !Reparented(ss[i].kind) ensures Orphan(ss[i], ss, parent, lo, hi) {
      if i < |f1| { assert Orphan(s1[i], s1, None, mid, hi); }
    }
  }

  /** Whoever is called after a refused call, by the same function, becomes a child of a span nobody reports. */
  lemma {:induction false} StrayIsOrphan(clock: Clock, call: Call, env: Env, w: World, above: seq<Layer>, stray: bool)
    requires Before(env.parent, w.ids) && (stray ==> env.parent.Some?)
    ensures var fs, t := Executed(call, above, stray), Emit(clock, call, env, w);
            |fs| == |t.spans| && Orphans(fs, t.spans, if stray then env.parent else None, w.ids, t.world.ids)
    decreases call
  {
    if !Refuses(call.kind) {
      var (o, w1) := Open(clock, call.kind, env, w);
      var deeper, inside, w2 := above + [Layer(call.kind, call.name)], Inside(call, o, env), Announced(call.kind, w1);
      StrayInBodyIsOrphan(clock, call.body, inside, w2, deeper, false);
      BodyIdsAreFresh(clock, call.body, inside, w2);
      var inner, t := EmitBody(clock, call.body, inside, w2), Emit(clock, call, env, w);
      OrphansUnder(ExecutedBody(call.body, deeper, false), Own(call, above, stray), inner.spans, t.spans[|inner.spans|],
                   if stray then env.parent else None, w.ids, w2.ids, inner.world.ids);
    }
  }

  lemma {:induction false} StrayInBodyIsOrphan(clock: Clock, b: Body, env: Env, w: World, above: seq<Layer>,
                                               stray: bool)
    requires Before(env.parent, w.ids) && (stray ==> env.parent.Some?)
    ensures var fs, t := ExecutedBody(b, above, stray), EmitBody(clock, b, env, w);
            |fs| == |t.spans| && Orphans(fs, t.spans, if stray then env.parent else None, w.ids, t.world.ids)
    decreases b
  {
    if b.Then? {
      StrayIsOrphan(clock, b.first, env, w, above, stray);
      if !Stops(b.first, b.caught) {
        var t1, astray := Emit(clock, b.first, env, w), stray || Refuses(b.first.kind);
        var env1 := env.(parent := t1.active);
        var t2 := EmitBody(clock, b.rest, env1, t1.world);
        IdsAreFresh(clock, b.first, env, w);
        StrayInBodyIsOrphan(clock, b.rest, env1, t1.world, above, astray);
        BodyIdsAreFresh(clock, b.rest, env1, t1.world);
        OrphansJoin(Executed(b.first, above, stray), ExecutedBody(b.rest, above, astray), t1.spans, t2.spans,
                    if stray then env.parent else None, if astray then env1.parent else None,
                    w.ids, t1.world.ids, t2.world.ids);
      }
    }
  }

  // ----- agents -----------------------------------------------------------------------

  /** The innermost @agent around a call, or the agent in force before the whole tree. */
  function NearestAgent(above: seq<Layer>, outer: Option<string>): Option<string>
    decreases |above|
  {
    if above == [] then outer
    else if above[|above| - 1].kind.AgentCall? then Some(above[|above| - 1].name)
    else NearestAgent(above[..|above| - 1], outer)
  }

  /** Its own name on an agent span, the innermost agent on LLM, retrieval and endpoint spans, nothing on the others. */
  ghost predicate NamesNearest(f: Frame, s: Span, outer: Option<string>) {
    && (f.kind.AgentCall? ==> s.agent == Some(f.name))
    && (f.kind.LlmCall? || f.kind.RetrievalCall? || f.kind.EndpointCall? ==>
           var nearest := NearestAgent(f.above, outer); s.agent == if nearest == Some("") then None else nearest)
    && (f.kind.TraceCall? || f.kind.MetricCall? ==> s.agent == None)
  }

  ghost predicate LabelledByNearest(fs: seq<Frame>, ss: seq<Span>, outer: Option<string>) {
    |fs| == |ss| && forall i :: 0 <= i < |fs| ==> NamesNearest(fs[i], ss[i], outer)
  }

  /** Each @llm, @retrieval and @mcp_endpoint span names the innermost agent around it; an @agent span names itself. */
  lemma {:induction false} AgentIsNearest(clock: Clock, call: Call, env: Env, w: World,
                                          above: seq<Layer>, stray: bool, outer: Option<string>)
    requires env.agent == NearestAgent(above, outer)
    ensures LabelledByNearest(Executed(call, above, stray), Emit(clock, call, env, w).spans, outer)
    decreases call
  {
    if !Refuses(call.kind) {
      var (o, w1) := Open(clock, call.kind, env, w);
      var deeper := above + [Layer(call.kind, call.name)];
      assert deeper[..|deeper| - 1] == above;
      AgentIsNearestBody(clock, call.body, Inside(call, o, env), Announced(call.kind, w1), deeper, false, outer);
    }
  }

  lemma {:induction false} AgentIsNearestBody(clock: Clock, b: Body, env: Env, w: World,
                                              above: seq<Layer>, stray: bool, outer: Option<string>)
    requires env.agent == NearestAgent(above, outer)
    ensures LabelledByNearest(ExecutedBody(b, above, stray), EmitBody(clock, b, env, w).spans, outer)
    decreases b
  {
    if b.Then? {
      AgentIsNearest(clock, b.first, env, w, above, stray, outer);
      if !Stops(b.first, b.caught) {
        var t1 := Emit(clock, b.first, env, w);
        AgentIsNearestBody(clock, b.rest, env.(parent := t1.active), t1.world, above, stray || Refuses(b.first.kind),
                           outer);
      }
    }
  }

  // ----- model and provider -------------------------------------------------------------

  /** An @llm call that has run to its end, or was refused, in the order this happens. */
  datatype LlmEvent = LlmEvent(kind: Kind, failed: bool)

  function LlmEvents(call: Call): seq<LlmEvent> {
    if Refuses(call.kind) then [LlmEvent(call.kind, true)]
    else BodyLlmEvents(call.body) + if call.kind.LlmCall? then [LlmEvent(call.kind, Raises(call))] else []
  }

  function BodyLlmEvents(b: Body): seq<LlmEvent> {
    match b
    case Return => []
    case Raise => []
    case Then(first, caught, rest) =>
      if Stops(first, caught) then LlmEvents(first) else LlmEvents(first) + BodyLlmEvents(rest)
  }

  /**
   What they leave, whoever made them: the last to end decides, and a refused one after it adds
   what it was asked for.
   */
  function LastTags(es: seq<LlmEvent>, before: Tags): Tags
    decreases |es|
  {
    if es == [] then before
    else
      var e := es[|es| - 1];
      if Refuses(e.kind) then Over(e.kind.request, LastTags(es[..|es| - 1], before))
      else if e.kind.LlmCall? then FinalTags(e.kind, e.failed)
      else LastTags(es[..|es| - 1], before)
  }

  lemma {:induction false} LastTagsSplits(e1: seq<LlmEvent>, e2: seq<LlmEvent>, before: Tags)
    ensures LastTags(e1 + e2, before) == LastTags(e2, LastTags(e1, before))
    decreases |e2|
  {
    if e2 == [] {
      assert e1 + e2 == e1;
    } else {
      var init := e2[..|e2| - 1];
      assert (e1 + e2)[..|e1 + e2| - 1] == e1 + init;
      LastTagsSplits(e1, init, before);
    }
  }

  /**
   Model and provider are never taken back, neither at the end of an agent nor of a
   trace: after any call they are what its LLM calls have left, or untouched.
   */
  lemma {:induction false} TagsOutliveTheCall(clock: Clock, call: Call, env: Env, w: World)
    ensures Emit(clock, call, env, w).world.tags == LastTags(LlmEvents(call), w.tags)
    decreases call
  {
    var es := LlmEvents(call);
    if Refuses(call.kind) {
      assert es[..0] == [];
    } else {
      var (o, w1) := Open(clock, call.kind, env, w);
      TagsOutliveTheBody(clock, call.body, Inside(call, o, env), Announced(call.kind, w1));
      if call.kind.LlmCall? {
        assert es[..|es| - 1] == BodyLlmEvents(call.body);
      } else {
        assert es == BodyLlmEvents(call.body);
      }
    }
  }

  lemma {:induction false} TagsOutliveTheBody(clock: Clock, b: Body, env: Env, w: World)
    ensures EmitBody(clock, b, env, w).world.tags == LastTags(BodyLlmEvents(b), w.tags)
    decreases b
  {
    if b.Then? {
      var t1 := Emit(clock, b.first, env, w);
      TagsOutliveTheCall(clock, b.first, env, w);
      if !Stops(b.first, b.caught) {
        TagsOutliveTheBody(clock, b.rest, env.(parent := t1.active), t1.world);
        LastTagsSplits(LlmEvents(b.first), BodyLlmEvents(b.rest), w.tags);
      }
    }
  }

  /** So a @retrieval under one agent reports the model of an LLM call made under another agent before it. */
  lemma RetrievalSeesTheLastLlm(clock: Clock, earlier: Call, retrieval: Call, env1: Env, env2: Env, w: World)
    requires retrieval.kind.RetrievalCall?
    ensures var ss := Emit(clock, retrieval, env2, Emit(clock, earlier, env1, w).world).spans;
            var last := LastTags(LlmEvents(earlier), w.tags);
            ss[|ss| - 1].tags == Tags(Truthy(last.model), Truthy(last.provider))
  {
    TagsOutliveTheCall(clock, earlier, env1, w);
  }

  // ----- what the spans say of model and provider, without the functions above ---------------

  /** A value the response phase lets through. */
  predicate Concrete(v: Option<string>) { v.Some? && v.value != "" && v.value != "unknown" }

  /**
   After a return a concrete response value counts, else the request's value if there is
   one, else "unknown"; after an exception the response counts for nothing.
   */
  predicate Settles(request: Option<string>, response: Option<string>, failed: bool, reported: Option<string>) {
    && (!failed && Concrete(response) ==> reported == response)
    && (failed || !Concrete(response) ==> reported == if request.Some? then request else Some("unknown"))
  }

  /** Of an LLM call's own span, and of what the call leaves in the context. */
  lemma LlmSpanTells(clock: Clock, call: Call, env: Env, w: World)
    requires call.kind.LlmCall? && !Refuses(call.kind)
    ensures var t, k := Emit(clock, call, env, w), call.kind;
            && t.spans != [] && var own := t.spans[|t.spans| - 1].tags;
            && Settles(k.request.model, k.response.model, Raises(call), own.model)
            && Settles(k.request.provider, k.response.provider, Raises(call), own.provider)
            && t.world.tags == own
  {
  }

  /** While it runs, the context has what the request named, and what it did not name as before. */
  lemma RequestIsAnnounced(kind: Kind, w: World)
    requires kind.LlmCall?
    ensures var (r, tags) := (kind.request, Announced(kind, w).tags);
            && (r.model.Some? && r.model.value != "" ==> tags.model == r.model)
            && (r.model == None || r.model == Some("") ==> tags.model == w.tags.model)
            && (r.provider.Some? && r.provider.value != "" ==> tags.provider == r.provider)
            && (r.provider == None || r.provider == Some("") ==> tags.provider == w.tags.provider)
  {
  }

  /** A retrieval tells what the context has when it is called; spans of the other kinds tell nothing. */
  lemma OtherSpansTell(clock: Clock, call: Call, env: Env, w: World)
    requires !call.kind.LlmCall?
    ensures var ss := Emit(clock, call, env, w).spans;
            && ss != [] && var own := ss[|ss| - 1].tags;
            && (!call.kind.RetrievalCall? ==> own.model == None && own.provider == None)
            && (call.kind.RetrievalCall? ==>
                  && own.model == (if w.tags.model == Some("") then None else w.tags.model)
                  && own.provider == (if w.tags.provider == Some("") then None else w.tags.provider))
  {
  }

  /** So what an LLM call's span says, a retrieval called next says too, under whatever agent. */
  lemma RetrievalRepeatsTheLlm(clock: Clock, llm: Call, retrieval: Call, env1: Env, env2: Env, w: World)
    requires llm.kind.LlmCall? && !Refuses(llm.kind) && retrieval.kind.RetrievalCall?
    ensures var t := Emit(clock, llm, env1, w);
            var ss := Emit(clock, retrieval, env2, t.world).spans;
            && t.spans != [] && ss != [] && var (own, after) := (t.spans[|t.spans| - 1].tags, ss[|ss| - 1].tags);
            && (own.model != Some("") ==> after.model == own.model)
            && (own.provider != Some("") ==> after.provider == own.provider)
  {
    LlmSpanTells(clock, llm, env1, w);
    OtherSpansTell(clock, retrieval, env2, Emit(clock, llm, env1, w).world);
  }
}
