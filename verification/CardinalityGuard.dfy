/**
 Metric labels: clipping, the cardinality guard, and the counters kept per label
 set. Source: src/rastir/server/metrics.py:464-696 and 794-812.
 */
module CardinalityGuard {
  import opened ObjectHeap  // Option

  datatype Label = Label(text: string)

  const OVERFLOW := Label("__cardinality_overflow__")

  function Clip(v: Label, maxLen: nat): (r: Label)
    ensures |r.text| <= maxLen && r.text <= v.text && (r == v || |r.text| == maxLen)
  {
    if |v.text| > maxLen then Label(v.text[..maxLen]) else v
  }

  /** One call of the guard: the label to use, and the values seen afterwards. */
  function Guard(v: Label, seen: set<Label>, cap: nat, maxLen: nat): (Label, set<Label>) {
    var c := Clip(v, maxLen);
    if c in seen then (c, seen)
    else if |seen| >= cap then (OVERFLOW, seen)
    else (c, seen + {c})
  }

  // ----- the guard as a function of its history --------------------------------

  /** The values seen after a history of calls. */
  function SeenAfter(h: seq<Label>, cap: nat, maxLen: nat): set<Label> {
    if h == [] then {} else Guard(h[|h| - 1], SeenAfter(h[..|h| - 1], cap, maxLen), cap, maxLen).1
  }

  function LabelAt(h: seq<Label>, k: nat, cap: nat, maxLen: nat): Label
    requires k < |h|
  {
    Guard(h[k], SeenAfter(h[..k], cap, maxLen), cap, maxLen).0
  }

  /** The distinct clipped values of a history, in order of first appearance. */
  function FirstSeen(h: seq<Label>, maxLen: nat): seq<Label> {
    if h == [] then []
    else
      var d, c := FirstSeen(h[..|h| - 1], maxLen), Clip(h[|h| - 1], maxLen);
      if c in d then d else d + [c]
  }

  function FirstN(d: seq<Label>, n: nat): seq<Label> {
    if n < |d| then d[..n] else d
  }

  function ToSet(d: seq<Label>): set<Label> {
    set x | x in d
  }

  lemma {:induction false} FirstSeenMeans(h: seq<Label>, maxLen: nat)
    ensures forall i, j :: 0 <= i < j < |FirstSeen(h, maxLen)| ==> FirstSeen(h, maxLen)[i] != FirstSeen(h, maxLen)[j]
    ensures forall k :: 0 <= k < |h| ==> Clip(h[k], maxLen) in FirstSeen(h, maxLen)
    decreases |h|
  {
    if h != [] {
      FirstSeenMeans(h[..|h| - 1], maxLen);
      var d := FirstSeen(h[..|h| - 1], maxLen);
      forall k | 0 <= k < |h| ensures Clip(h[k], maxLen) in FirstSeen(h, maxLen) {
        if k < |h| - 1 { assert h[..|h| - 1][k] == h[k]; }
      }
    }
  }

  lemma {:induction false} DistinctSize(d: seq<Label>)
    requires forall i, j :: 0 <= i < j < |d| ==> d[i] != d[j]
    ensures |ToSet(d)| == |d|
    decreases |d|
  {
    if d != [] {
      DistinctSize(d[..|d| - 1]);
      assert ToSet(d) == ToSet(d[..|d| - 1]) + {d[|d| - 1]};
    }
  }

  /** The stateful set holds the first cap distinct clipped values of the history. */
  lemma {:induction false} SeenIsFirstCap(h: seq<Label>, cap: nat, maxLen: nat)
    ensures SeenAfter(h, cap, maxLen) == ToSet(FirstN(FirstSeen(h, maxLen), cap))
    ensures |SeenAfter(h, cap, maxLen)| == |FirstN(FirstSeen(h, maxLen), cap)|
    decreases |h|
  {
    FirstSeenMeans(h, maxLen);
    DistinctSize(FirstN(FirstSeen(h, maxLen), cap));
    if h != [] {
      var init := h[..|h| - 1];
      SeenIsFirstCap(init, cap, maxLen);
      var d, c := FirstSeen(init, maxLen), Clip(h[|h| - 1], maxLen);
      if c !in d {
        NewValue(d, c, cap);
      } else if c !in FirstN(d, cap) {
        assert cap < |d|;  // the cap was reached before c first came
      }
    }
  }

  lemma NewValue(d: seq<Label>, c: Label, cap: nat)
    requires c !in d
    ensures c !in ToSet(FirstN(d, cap))
    ensures ToSet(FirstN(d + [c], cap)) ==
            if |FirstN(d, cap)| < cap then ToSet(FirstN(d, cap)) + {c} else ToSet(FirstN(d, cap))
  {
    if cap <= |d| {
      assert (d + [c])[..cap] == d[..cap];
    } else {
      assert FirstN(d + [c], cap) == d + [c];
    }
  }

  /** The k-th call keeps its label exactly when its clipped form is among the first cap distinct ones seen so far. */
  lemma LabelIff(h: seq<Label>, k: nat, cap: nat, maxLen: nat)
    requires k < |h|
    ensures var c := Clip(h[k], maxLen);
            LabelAt(h, k, cap, maxLen) == if c in FirstN(FirstSeen(h[..k + 1], maxLen), cap) then c else OVERFLOW
  {
    SeenIsFirstCap(h[..k + 1], cap, maxLen);
    assert h[..k + 1][..k] == h[..k];
    var c := Clip(h[k], maxLen);
    assert c in FirstN(FirstSeen(h[..k + 1], maxLen), cap) <==> c in SeenAfter(h[..k + 1], cap, maxLen);
  }

  /** The values seen only grow, so a value once admitted is never turned into overflow. */
  lemma {:induction false} SeenGrows(h: seq<Label>, i: nat, k: nat, cap: nat, maxLen: nat)
    requires i <= k <= |h|
    ensures SeenAfter(h[..i], cap, maxLen) <= SeenAfter(h[..k], cap, maxLen)
    decreases k
  {
    if i < k {
      SeenGrows(h, i, k - 1, cap, maxLen);
      assert h[..k][..k - 1] == h[..k - 1];
    }
  }

  lemma AdmittedStays(h: seq<Label>, i: nat, k: nat, cap: nat, maxLen: nat)
    requires i <= k < |h| && Clip(h[i], maxLen) == Clip(h[k], maxLen)
    requires Clip(h[i], maxLen) in SeenAfter(h[..i + 1], cap, maxLen)
    ensures LabelAt(h, k, cap, maxLen) == Clip(h[k], maxLen)
  {
    if i < k {
      SeenGrows(h, i + 1, k, cap, maxLen);
    } else {
      assert h[..k + 1][..k] == h[..k] && h[..k + 1][k] == h[k];
    }
  }

  function Emitted(h: seq<Label>, cap: nat, maxLen: nat): set<Label> {
    set k | 0 <= k < |h| :: LabelAt(h, k, cap, maxLen)
  }

  lemma EmittedIsSeen(h: seq<Label>, k: nat, cap: nat, maxLen: nat)
    requires k < |h|
    ensures LabelAt(h, k, cap, maxLen) in SeenAfter(h, cap, maxLen) + {OVERFLOW}
  {
    SeenGrows(h, k + 1, |h|, cap, maxLen);
    assert h[..k + 1][..k] == h[..k] && h[..|h|] == h;
  }

  /** However many values arrive, at most cap + 1 labels are ever emitted. */
  lemma FewLabels(h: seq<Label>, cap: nat, maxLen: nat)
    ensures |Emitted(h, cap, maxLen)| <= cap + 1
  {
    var seen := SeenAfter(h, cap, maxLen);
    SeenIsFirstCap(h, cap, maxLen);
    forall k | 0 <= k < |h| ensures LabelAt(h, k, cap, maxLen) in seen + {OVERFLOW} {
      EmittedIsSeen(h, k, cap, maxLen);
    }
    SubsetSize(Emitted(h, cap, maxLen), seen + {OVERFLOW});
  }

  lemma SubsetSize<T>(a: set<T>, b: set<T>)
    requires a <= b
    ensures |a| <= |b|
  {
    assert b == a + (b - a);
  }

  // ----- the counters -----------------------------------------------------------

  datatype Kind = Llm | Tool | Retrieval | Other

  /** What record_span reads of a span; a missing model or provider is the empty string. */
  datatype Span = Span(
    kind: Kind, name: Label, model: Label, provider: Label, agent: Option<Label>, tokensIn: int, tokensOut: int)

  /** "tool" is empty but for the tool counter. */
  datatype Labels = Labels(service: Label, env: Label, model: Label, provider: Label, agent: Label, tool: Label)

  datatype Caps = Caps(model: nat, provider: nat, agent: nat, tool: nat, maxLen: nat)

  /** Prometheus counters by label set. */
  type Counter = map<Labels, int>

  function Inc(c: Counter, l: Labels, n: int): Counter {
    c[l := (if l in c then c[l] else 0) + n]
  }

  ghost function Total(c: Counter): int
    decreases |c|
  {
    if c == map[] then 0
    else
      var l :| l in c;
      c[l] + Total(c - {l})
  }

  /** The total does not depend on the order in which label sets are visited. */
  lemma {:induction false} TotalWithout(c: Counter, l: Labels)
    requires l in c
    ensures Total(c) == c[l] + Total(c - {l})
    decreases |c|
  {
    var m :| m in c && Total(c) == c[m] + Total(c - {m});
    if m != l {
      TotalWithout(c - {m}, l);
      TotalWithout(c - {l}, m);
      assert c - {m} - {l} == c - {l} - {m};
    }
  }

  /** Incrementing one label set by n raises the total by n, whichever set it is. */
  lemma IncTotal(c: Counter, l: Labels, n: int)
    ensures Total(Inc(c, l, n)) == Total(c) + n
  {
    var c1 := Inc(c, l, n);
    TotalWithout(c1, l);
    assert c1 - {l} == c - {l};
    if l in c {
      TotalWithout(c, l);
    } else {
      assert c - {l} == c;
    }
  }

  datatype Seen = Seen(models: set<Label>, providers: set<Label>, agents: set<Label>, tools: set<Label>)

  datatype Counters = Counters(llmCalls: Counter, tokensInput: Counter, tokensOutput: Counter,
      toolCalls: Counter, retrievalCalls: Counter)

  datatype Metrics = Metrics(seen: Seen, counters: Counters)

  const NOTHING := Metrics(Seen({}, {}, {}, {}), Counters(map[], map[], map[], map[], map[]))

  const EMPTY := Label("")

  /** An empty model or provider is not guarded at first, an empty agent is. */
  function GuardIfAny(v: Label, seen: set<Label>, cap: nat, maxLen: nat): (Label, set<Label>) {
    if v == EMPTY then (EMPTY, seen) else Guard(v, seen, cap, maxLen)
  }

  function AgentOr(span: Span, default: Label): Label {
    if span.agent.Some? then span.agent.value else default
  }

  /** A tool span without an agent counts under "unknown", any other under the empty string. */
  function SecondAgent(span: Span): Label {
    AgentOr(span, if span.kind == Tool then Label("unknown") else EMPTY)
  }

  /** lines 495-499: the labels every span gets */
  function FirstLook(s: Seen, caps: Caps, span: Span, service: Label, env: Label): (Labels, Seen) {
    var (model, models) := GuardIfAny(span.model, s.models, caps.model, caps.maxLen);
    var (provider, providers) := GuardIfAny(span.provider, s.providers, caps.provider, caps.maxLen);
    var (agent, agents) := Guard(AgentOr(span, EMPTY), s.agents, caps.agent, caps.maxLen);
    (Labels(Clip(service, caps.maxLen), Clip(env, caps.maxLen), model, provider, agent, EMPTY),
     Seen(models, providers, agents, s.tools))
  }

  /** lines 658-689: tool and retrieval spans are guarded again, empty labels included */
  function SecondLook(s: Seen, caps: Caps, span: Span, service: Label, env: Label): (Labels, Seen) {
    var (tool, tools) :=
      if span.kind == Tool then Guard(span.name, s.tools, caps.tool, caps.maxLen) else (EMPTY, s.tools);
    var (agent, agents) := Guard(SecondAgent(span), s.agents, caps.agent, caps.maxLen);
    var (model, models) := Guard(span.model, s.models, caps.model, caps.maxLen);
    var (provider, providers) := Guard(span.provider, s.providers, caps.provider, caps.maxLen);
    (Labels(Clip(service, caps.maxLen), Clip(env, caps.maxLen), model, provider, agent, tool),
     Seen(models, providers, agents, tools))
  }

  predicate LooksTwice(span: Span) { span.kind == Tool || span.kind == Retrieval }

  function Look(s: Seen, caps: Caps, span: Span, service: Label, env: Label): (Labels, Seen) {
    var (l, s1) := FirstLook(s, caps, span, service, env);
    if LooksTwice(span) then SecondLook(s1, caps, span, service, env) else (l, s1)
  }

  /** A negative count is refused by the counter, and after a refusal nothing more is recorded for the span. */
  function CountedIn(s: Span): int {
    if s.kind == Llm && s.tokensIn > 0 then s.tokensIn else 0
  }

  function CountedOut(s: Span): int {
    if s.kind == Llm && s.tokensIn >= 0 && s.tokensOut > 0 then s.tokensOut else 0
  }

  function LlmCall(s: Span): int { if s.kind == Llm then 1 else 0 }

  function ToolCall(s: Span): int { if s.kind == Tool then 1 else 0 }

  function RetrievalCall(s: Span): int { if s.kind == Retrieval then 1 else 0 }

  function IncIf(c: Counter, l: Labels, n: int): Counter {
    if n == 0 then c else Inc(c, l, n)
  }

  function Count(c: Counters, l: Labels, span: Span): Counters {
    Counters(IncIf(c.llmCalls, l, LlmCall(span)), IncIf(c.tokensInput, l, CountedIn(span)),
             IncIf(c.tokensOutput, l, CountedOut(span)),
             IncIf(c.toolCalls, l, ToolCall(span)), IncIf(c.retrievalCalls, l, RetrievalCall(span)))
  }

  function Record(m: Metrics, caps: Caps, span: Span, service: Label, env: Label): Metrics {
    var (l, s) := Look(m.seen, caps, span, service, env);
    Metrics(s, Count(m.counters, l, span))
  }

  datatype Arrival = Arrival(span: Span, service: Label, env: Label)

  function RecordAll(caps: Caps, h: seq<Arrival>): Metrics {
    if h == [] then NOTHING
    else var a := h[|h| - 1]; Record(RecordAll(caps, h[..|h| - 1]), caps, a.span, a.service, a.env)
  }

  // ----- sums over all labels -----------------------------------------------------

  function Sum(h: seq<Arrival>, f: Span -> int): int {
    if h == [] then 0 else Sum(h[..|h| - 1], f) + f(h[|h| - 1].span)
  }

  ghost predicate Exact(c: Counters, h: seq<Arrival>) {
    && Total(c.llmCalls) == Sum(h, LlmCall)
    && Total(c.tokensInput) == Sum(h, CountedIn)
    && Total(c.tokensOutput) == Sum(h, CountedOut)
    && Total(c.toolCalls) == Sum(h, ToolCall)
    && Total(c.retrievalCalls) == Sum(h, RetrievalCall)
  }

  /**
   However labels are clipped, overflowed or merged: summed over all labels, calls and tokens are
   the totals over the spans.
   */
  lemma {:induction false} TotalsAreExact(caps: Caps, h: seq<Arrival>)
    ensures Exact(RecordAll(caps, h).counters, h)
    decreases |h|
  {
    if h != [] {
      var init, a := h[..|h| - 1], h[|h| - 1];
      TotalsAreExact(caps, init);
      var m := RecordAll(caps, init);
      var l, c := Look(m.seen, caps, a.span, a.service, a.env).0, m.counters;
      IncTotal(c.llmCalls, l, LlmCall(a.span));
      IncTotal(c.tokensInput, l, CountedIn(a.span));
      IncTotal(c.tokensOutput, l, CountedOut(a.span));
      IncTotal(c.toolCalls, l, ToolCall(a.span));
      IncTotal(c.retrievalCalls, l, RetrievalCall(a.span));
    }
  }

  // ----- the guard inside the registry -----------------------------------------------

  /** The values one span shows to the guard of a dimension, in order. */
  function Shown(first: Label, guardEmpty: bool, again: bool, second: Label): seq<Label> {
    (if first == EMPTY && !guardEmpty then [] else [first]) + (if again then [second] else [])
  }

  function ModelsShown(span: Span): seq<Label> { Shown(span.model, false, LooksTwice(span), span.model) }

  function ProvidersShown(span: Span): seq<Label> { Shown(span.provider, false, LooksTwice(span), span.provider) }

  function AgentsShown(span: Span): seq<Label> {
    Shown(AgentOr(span, EMPTY), true, LooksTwice(span), SecondAgent(span))
  }

  function ToolsShown(span: Span): seq<Label> { if span.kind == Tool then [span.name] else [] }

  /** The same over a whole history. */
  function AllShown(h: seq<Arrival>, f: Span -> seq<Label>): seq<Label> {
    if h == [] then [] else AllShown(h[..|h| - 1], f) + f(h[|h| - 1].span)
  }

  lemma SeenAppend(h: seq<Label>, v: Label, cap: nat, maxLen: nat)
    ensures SeenAfter(h + [v], cap, maxLen) == Guard(v, SeenAfter(h, cap, maxLen), cap, maxLen).1
    ensures h + [] == h
  {
    assert (h + [v])[..|h|] == h;
  }

  lemma SeenShown(h: seq<Label>, first: Label, guardEmpty: bool, again: bool, second: Label, cap: nat, maxLen: nat)
    ensures var seen := SeenAfter(h, cap, maxLen);
            var seen1 := if first == EMPTY && !guardEmpty then seen else Guard(first, seen, cap, maxLen).1;
            SeenAfter(h + Shown(first, guardEmpty, again, second), cap, maxLen) ==
            if again then Guard(second, seen1, cap, maxLen).1 else seen1
  {
    var h1 := if first == EMPTY && !guardEmpty then h else h + [first];
    SeenAppend(h, first, cap, maxLen);
    SeenAppend(h1, second, cap, maxLen);
    assert h + Shown(first, guardEmpty, again, second) == if again then h1 + [second] else h1;
  }

  ghost predicate FollowsGuard(s: Seen, caps: Caps, h: seq<Arrival>) {
    && s.models == SeenAfter(AllShown(h, ModelsShown), caps.model, caps.maxLen)
    && s.providers == SeenAfter(AllShown(h, ProvidersShown), caps.provider, caps.maxLen)
    && s.agents == SeenAfter(AllShown(h, AgentsShown), caps.agent, caps.maxLen)
    && s.tools == SeenAfter(AllShown(h, ToolsShown), caps.tool, caps.maxLen)
  }

  /** Every dimension of the registry is the guard run over all values its spans have shown it. */
  lemma {:induction false} RegistryFollowsGuard(caps: Caps, h: seq<Arrival>)
    ensures FollowsGuard(RecordAll(caps, h).seen, caps, h)
    decreases |h|
  {
    if h != [] {
      var init, x := h[..|h| - 1], h[|h| - 1].span;
      RegistryFollowsGuard(caps, init);
      SeenShown(AllShown(init, ModelsShown), x.model, false, LooksTwice(x), x.model, caps.model, caps.maxLen);
      SeenShown(AllShown(init, ProvidersShown), x.provider, false, LooksTwice(x), x.provider, caps.provider,
                caps.maxLen);
      SeenShown(AllShown(init, AgentsShown), AgentOr(x, EMPTY), true, LooksTwice(x), SecondAgent(x), caps.agent,
                caps.maxLen);
      SeenAppend(AllShown(init, ToolsShown), x.name, caps.tool, caps.maxLen);
    }
  }

  // ----- what each label set counts ---------------------------------------------------

  /** The label of a value, given all that the dimension was shown up to and including it. */
  function Kept(v: Label, shown: seq<Label>, cap: nat, maxLen: nat): Label {
    if Clip(v, maxLen) in FirstN(FirstSeen(shown, maxLen), cap) then Clip(v, maxLen) else OVERFLOW
  }

  /** The labels of the last arrival, from the arrivals alone. */
  ghost function LabelsOf(caps: Caps, h: seq<Arrival>): Labels
    requires h != []
  {
    var a := h[|h| - 1];
    var twice := a.span.kind == Tool || a.span.kind == Retrieval;
    var agent := match a.span.agent case Some(x) => x case None => Label(if a.span.kind == Tool then "unknown" else "");
    Labels(
      Clip(a.service, caps.maxLen),
      Clip(a.env, caps.maxLen),
      if a.span.model == Label("") && !twice then Label("")
      else Kept(a.span.model, AllShown(h, ModelsShown), caps.model, caps.maxLen),
      if a.span.provider == Label("") && !twice then Label("")
      else Kept(a.span.provider, AllShown(h, ProvidersShown), caps.provider, caps.maxLen),
      Kept(agent, AllShown(h, AgentsShown), caps.agent, caps.maxLen),
      if a.span.kind == Tool then Kept(a.span.name, AllShown(h, ToolsShown), caps.tool, caps.maxLen) else Label(""))
  }

  function Value(c: Counter, l: Labels): int {
    if l in c then c[l] else 0
  }

  /** The sum over the spans that have exactly these labels. */
  ghost function SumAt(caps: Caps, h: seq<Arrival>, l: Labels, f: Span -> int): int {
    if h == [] then 0
    else SumAt(caps, h[..|h| - 1], l, f) + if LabelsOf(caps, h) == l then f(h[|h| - 1].span) else 0
  }

  ghost predicate ByLabel(caps: Caps, h: seq<Arrival>, c: Counters, l: Labels) {
    && Value(c.llmCalls, l) == SumAt(caps, h, l, LlmCall)
    && Value(c.tokensInput, l) == SumAt(caps, h, l, CountedIn)
    && Value(c.tokensOutput, l) == SumAt(caps, h, l, CountedOut)
    && Value(c.toolCalls, l) == SumAt(caps, h, l, ToolCall)
    && Value(c.retrievalCalls, l) == SumAt(caps, h, l, RetrievalCall)
  }

  /** The label the guard gives is that of the last value shown. */
  lemma GuardKeeps(shown: seq<Label>, v: Label, cap: nat, maxLen: nat)
    ensures Guard(v, SeenAfter(shown, cap, maxLen), cap, maxLen).0 == Kept(v, shown + [v], cap, maxLen)
  {
    var h := shown + [v];
    LabelIff(h, |shown|, cap, maxLen);
    assert h[..|shown|] == shown && h[..|shown| + 1] == h;
  }

  lemma LastKept(shown: seq<Label>, first: Label, guardEmpty: bool, again: bool, second: Label, cap: nat, maxLen: nat)
    ensures var seen := SeenAfter(shown, cap, maxLen);
            var (out, seen1) :=
              if first == EMPTY && !guardEmpty then (EMPTY, seen) else Guard(first, seen, cap, maxLen);
            var all := shown + Shown(first, guardEmpty, again, second);
            && (again ==> Guard(second, seen1, cap, maxLen).0 == Kept(second, all, cap, maxLen))
            && (!again && (guardEmpty || first != EMPTY) ==> out == Kept(first, all, cap, maxLen))
  {
    var shown1 := if first == EMPTY && !guardEmpty then shown else shown + [first];
    SeenAppend(shown, first, cap, maxLen);
    GuardKeeps(shown, first, cap, maxLen);
    GuardKeeps(shown1, second, cap, maxLen);
    assert shown + Shown(first, guardEmpty, again, second) == if again then shown1 + [second] else shown1;
  }

  /** The labels that recording a span uses are those the arrivals determine. */
  lemma LookIsLabelsOf(caps: Caps, h: seq<Arrival>)
    requires h != []
    ensures var a := h[|h| - 1];
            Look(RecordAll(caps, h[..|h| - 1]).seen, caps, a.span, a.service, a.env).0 == LabelsOf(caps, h)
  {
    var init, x := h[..|h| - 1], h[|h| - 1].span;
    RegistryFollowsGuard(caps, init);
    LastKept(AllShown(init, ModelsShown), x.model, false, LooksTwice(x), x.model, caps.model, caps.maxLen);
    LastKept(AllShown(init, ProvidersShown), x.provider, false, LooksTwice(x), x.provider, caps.provider, caps.maxLen);
    LastKept(AllShown(init, AgentsShown), AgentOr(x, EMPTY), true, LooksTwice(x), SecondAgent(x), caps.agent,
             caps.maxLen);
    GuardKeeps(AllShown(init, ToolsShown), x.name, caps.tool, caps.maxLen);
    hide Kept, Guard, RecordAll, SeenAfter;
  }

  /** Under each label set stands exactly the sum over the spans that the arrivals give these labels. */
  lemma {:induction false} CountersByLabel(caps: Caps, h: seq<Arrival>, l: Labels)
    ensures ByLabel(caps, h, RecordAll(caps, h).counters, l)
    decreases |h|
  {
    if h != [] {
      CountersByLabel(caps, h[..|h| - 1], l);
      ByLabelStep(caps, h, l);
    }
  }

  lemma ByLabelStep(caps: Caps, h: seq<Arrival>, l: Labels)
    requires h != [] && ByLabel(caps, h[..|h| - 1], RecordAll(caps, h[..|h| - 1]).counters, l)
    ensures ByLabel(caps, h, RecordAll(caps, h).counters, l)
  {
    RecordStep(caps, h);
    var c, c1 := RecordAll(caps, h[..|h| - 1]).counters, RecordAll(caps, h).counters;
    CountAdds(c, LabelsOf(caps, h), h[|h| - 1].span, l);
    hide RecordAll, LabelsOf, Count, Value, LlmCall, CountedIn, CountedOut, ToolCall, RetrievalCall, SumAt;
    CounterStep(caps, h, l, LlmCall, c.llmCalls, c1.llmCalls);
    CounterStep(caps, h, l, CountedIn, c.tokensInput, c1.tokensInput);
    CounterStep(caps, h, l, CountedOut, c.tokensOutput, c1.tokensOutput);
    CounterStep(caps, h, l, ToolCall, c.toolCalls, c1.toolCalls);
    CounterStep(caps, h, l, RetrievalCall, c.retrievalCalls, c1.retrievalCalls);
  }

  lemma CounterStep(caps: Caps, h: seq<Arrival>, l: Labels, f: Span -> int, c: Counter, c1: Counter)
    requires h != [] && Value(c, l) == SumAt(caps, h[..|h| - 1], l, f)
    requires Value(c1, l) == Value(c, l) + if LabelsOf(caps, h) == l then f(h[|h| - 1].span) else 0
    ensures Value(c1, l) == SumAt(caps, h, l, f)
  {
    hide LabelsOf, Value;
  }

  lemma RecordStep(caps: Caps, h: seq<Arrival>)
    requires h != []
    ensures RecordAll(caps, h).counters ==
            Count(RecordAll(caps, h[..|h| - 1]).counters, LabelsOf(caps, h), h[|h| - 1].span)
  {
    LookIsLabelsOf(caps, h);
    hide Look, Count, LabelsOf;
  }

  lemma CountAdds(c: Counters, at: Labels, span: Span, l: Labels)
    ensures var c1 := Count(c, at, span);
            && Value(c1.llmCalls, l) == Value(c.llmCalls, l) + (if at == l then LlmCall(span) else 0)
            && Value(c1.tokensInput, l) == Value(c.tokensInput, l) + (if at == l then CountedIn(span) else 0)
            && Value(c1.tokensOutput, l) == Value(c.tokensOutput, l) + (if at == l then CountedOut(span) else 0)
            && Value(c1.toolCalls, l) == Value(c.toolCalls, l) + (if at == l then ToolCall(span) else 0)
            && Value(c1.retrievalCalls, l) == Value(c.retrievalCalls, l) + if at == l then RetrievalCall(span) else 0
  {
    hide LlmCall, CountedIn, CountedOut, ToolCall, RetrievalCall;
  }

  /** What a span counts for: an LLM call and its tokens, a tool call, a retrieval call, or nothing. */
  lemma CountsMean(s: Span)
    ensures LlmCall(s) + ToolCall(s) + RetrievalCall(s) == if s.kind == Other then 0 else 1
    ensures (LlmCall(s) == 1 <==> s.kind == Llm) && (ToolCall(s) == 1 <==> s.kind == Tool)
    ensures s.kind != Llm ==> CountedIn(s) == CountedOut(s) == 0
    ensures s.kind == Llm && s.tokensIn >= 0 && s.tokensOut >= 0 ==>
              CountedIn(s) == s.tokensIn && CountedOut(s) == s.tokensOut
    ensures s.tokensIn < 0 ==> CountedIn(s) == CountedOut(s) == 0
    ensures s.kind == Llm && s.tokensIn >= 0 && s.tokensOut < 0 ==> CountedIn(s) == s.tokensIn && CountedOut(s) == 0
  {
  }

  /**
   A label set uses only values its dimensions have admitted, the overflow label, or the empty
   label where none was guarded.
   */
  ghost predicate Admits(s: Seen, l: Labels) {
    && l.model in s.models + {OVERFLOW, EMPTY}
    && l.provider in s.providers + {OVERFLOW, EMPTY}
    && l.agent in s.agents + {OVERFLOW}
    && l.tool in s.tools + {OVERFLOW, EMPTY}
  }

  ghost predicate AllAdmitted(s: Seen, c: Counter) {
    forall l :: l in c ==> Admits(s, l)
  }

  ghost predicate CountersAdmitted(m: Metrics) {
    && AllAdmitted(m.seen, m.counters.llmCalls) && AllAdmitted(m.seen, m.counters.tokensInput) &&
         AllAdmitted(m.seen, m.counters.tokensOutput)
    && AllAdmitted(m.seen, m.counters.toolCalls) && AllAdmitted(m.seen, m.counters.retrievalCalls)
  }

  ghost predicate Grown(s: Seen, s1: Seen) {
    s.models <= s1.models && s.providers <= s1.providers && s.agents <= s1.agents && s.tools <= s1.tools
  }

  /** One use of the guard: what it gives is admitted afterwards or the overflow label. */
  lemma GuardAdmits(v: Label, seen: set<Label>, cap: nat, maxLen: nat)
    ensures var (out, after) := Guard(v, seen, cap, maxLen); out in after + {OVERFLOW} && seen <= after
  {
  }

  lemma FirstLookAdmits(s: Seen, caps: Caps, span: Span, service: Label, env: Label)
    ensures var (l, s1) := FirstLook(s, caps, span, service, env); Admits(s1, l) && Grown(s, s1)
  {
    GuardAdmits(span.model, s.models, caps.model, caps.maxLen);
    GuardAdmits(span.provider, s.providers, caps.provider, caps.maxLen);
    GuardAdmits(AgentOr(span, EMPTY), s.agents, caps.agent, caps.maxLen);
  }

  lemma SecondLookAdmits(s: Seen, caps: Caps, span: Span, service: Label, env: Label)
    ensures var (l, s1) := SecondLook(s, caps, span, service, env); Admits(s1, l) && Grown(s, s1)
  {
    GuardAdmits(span.name, s.tools, caps.tool, caps.maxLen);
    GuardAdmits(SecondAgent(span), s.agents, caps.agent, caps.maxLen);
    GuardAdmits(span.model, s.models, caps.model, caps.maxLen);
    GuardAdmits(span.provider, s.providers, caps.provider, caps.maxLen);
  }

  lemma LookAdmits(s: Seen, caps: Caps, span: Span, service: Label, env: Label)
    ensures var (l, s1) := Look(s, caps, span, service, env); Admits(s1, l) && Grown(s, s1)
  {
    FirstLookAdmits(s, caps, span, service, env);
    SecondLookAdmits(FirstLook(s, caps, span, service, env).1, caps, span, service, env);
  }

  lemma {:induction false} OnlyAdmittedLabels(caps: Caps, h: seq<Arrival>)
    ensures CountersAdmitted(RecordAll(caps, h))
    decreases |h|
  {
    if h != [] {
      var a := h[|h| - 1];
      OnlyAdmittedLabels(caps, h[..|h| - 1]);
      LookAdmits(RecordAll(caps, h[..|h| - 1]).seen, caps, a.span, a.service, a.env);
    }
  }

  ghost predicate ToolLess(c: Counter) { forall l :: l in c ==> l.tool == EMPTY }

  /** Only the tool counter has tool labels, and guards all of them. */
  ghost predicate ToolsAdmitted(m: Metrics) {
    && (forall l :: l in m.counters.toolCalls ==> l.tool in m.seen.tools + {OVERFLOW})
    && ToolLess(m.counters.llmCalls) && ToolLess(m.counters.tokensInput) && ToolLess(m.counters.tokensOutput)
    && ToolLess(m.counters.retrievalCalls)
  }

  lemma LookTool(s: Seen, caps: Caps, span: Span, service: Label, env: Label)
    ensures var (l, s1) := Look(s, caps, span, service, env);
            s.tools <= s1.tools && if span.kind == Tool then l.tool in s1.tools + {OVERFLOW} else l.tool == EMPTY
  {
    GuardAdmits(span.name, s.tools, caps.tool, caps.maxLen);
  }

  lemma {:induction false} ToolsAreAdmitted(caps: Caps, h: seq<Arrival>)
    ensures ToolsAdmitted(RecordAll(caps, h))
    decreases |h|
  {
    if h != [] {
      var a := h[|h| - 1];
      ToolsAreAdmitted(caps, h[..|h| - 1]);
      LookTool(RecordAll(caps, h[..|h| - 1]).seen, caps, a.span, a.service, a.env);
    }
  }

  function AgentLabels(c: Counter): set<Label> { set l | l in c :: l.agent }

  function ModelLabels(c: Counter): set<Label> { set l | l in c :: l.model }

  function ProviderLabels(c: Counter): set<Label> { set l | l in c :: l.provider }

  function ToolLabels(c: Counter): set<Label> { set l | l in c :: l.tool }

  /** At most cap + 1 agents; one model and provider more, the empty label of spans that name none. */
  ghost predicate Small(caps: Caps, c: Counter) {
    |AgentLabels(c)| <= caps.agent + 1 && |ModelLabels(c)| <= caps.model + 2 && |ProviderLabels(c)| <= caps.provider + 2
  }

  /** Whatever spans arrive, no counter ever has more label values than that, and the tool counter cap + 1 tools. */
  lemma CountersStaySmall(caps: Caps, h: seq<Arrival>)
    ensures var c := RecordAll(caps, h).counters;
            && Small(caps, c.llmCalls) && Small(caps, c.tokensInput) && Small(caps, c.tokensOutput)
            && Small(caps, c.toolCalls) && Small(caps, c.retrievalCalls)
            && |ToolLabels(c.toolCalls)| <= caps.tool + 1
            && |ToolLabels(c.llmCalls)| <= 1 && |ToolLabels(c.tokensInput)| <= 1 && |ToolLabels(c.tokensOutput)| <= 1
            && |ToolLabels(c.retrievalCalls)| <= 1
  {
    OnlyAdmittedLabels(caps, h);
    ToolsAreAdmitted(caps, h);
    SeenIsSmall(caps, h);
    var m := RecordAll(caps, h);
    hide RecordAll;
    CounterIsSmall(m.seen, caps, m.counters.llmCalls);
    CounterIsSmall(m.seen, caps, m.counters.tokensInput);
    CounterIsSmall(m.seen, caps, m.counters.tokensOutput);
    CounterIsSmall(m.seen, caps, m.counters.toolCalls);
    CounterIsSmall(m.seen, caps, m.counters.retrievalCalls);
    SubsetSize(ToolLabels(m.counters.toolCalls), m.seen.tools + {OVERFLOW});
    SubsetSize(ToolLabels(m.counters.llmCalls), {EMPTY});
    SubsetSize(ToolLabels(m.counters.tokensInput), {EMPTY});
    SubsetSize(ToolLabels(m.counters.tokensOutput), {EMPTY});
    SubsetSize(ToolLabels(m.counters.retrievalCalls), {EMPTY});
  }

  lemma SeenIsSmall(caps: Caps, h: seq<Arrival>)
    ensures var s := RecordAll(caps, h).seen;
            && |s.agents| <= caps.agent && |s.models| <= caps.model
            && |s.providers| <= caps.provider && |s.tools| <= caps.tool
  {
    RegistryFollowsGuard(caps, h);
    SeenIsFirstCap(AllShown(h, AgentsShown), caps.agent, caps.maxLen);
    SeenIsFirstCap(AllShown(h, ModelsShown), caps.model, caps.maxLen);
    SeenIsFirstCap(AllShown(h, ProvidersShown), caps.provider, caps.maxLen);
    SeenIsFirstCap(AllShown(h, ToolsShown), caps.tool, caps.maxLen);
  }

  lemma CounterIsSmall(s: Seen, caps: Caps, c: Counter)
    requires AllAdmitted(s, c) && |s.agents| <= caps.agent && |s.models| <= caps.model && |s.providers| <= caps.provider
    ensures Small(caps, c)
  {
    SubsetSize(AgentLabels(c), s.agents + {OVERFLOW});
    SubsetSize(ModelLabels(c), s.models + {OVERFLOW, EMPTY});
    SubsetSize(ProviderLabels(c), s.providers + {OVERFLOW, EMPTY});
  }

  class MetricsRegistry {
    const caps: Caps
    var seen: Seen
    var counters: Counters

    function View(): Metrics
      reads this
    {
      Metrics(seen, counters)
    }

    constructor (caps: Caps)
      ensures this.caps == caps && View() == NOTHING
    {
      this.caps, seen, counters := caps, NOTHING.seen, NOTHING.counters;
    }

    /** lines 800-812 */
    method GuardValue(value: Label, seen: set<Label>, cap: nat) returns (out: Label, after: set<Label>)
      ensures (out, after) == Guard(value, seen, cap, caps.maxLen)
    {
      out, after := Clip(value, caps.maxLen), seen;
      if out in seen { return; }
      if |seen| >= cap { return OVERFLOW, seen; }
      after := seen + {out};
    }

    /** lines 495-499 */
    method GuardLabels(span: Span, service: Label, env: Label) returns (l: Labels)
      modifies this`seen
      ensures (l, seen) == FirstLook(old(seen), caps, span, service, env)
    {
      var model, models := EMPTY, seen.models;
      if span.model != EMPTY { model, models := GuardValue(span.model, seen.models, caps.model); }
      var provider, providers := EMPTY, seen.providers;
      if span.provider != EMPTY { provider, providers := GuardValue(span.provider, seen.providers, caps.provider); }
      var agent, agents := GuardValue(AgentOr(span, EMPTY), seen.agents, caps.agent);
      seen := Seen(models, providers, agents, seen.tools);
      l := Labels(Clip(service, caps.maxLen), Clip(env, caps.maxLen), model, provider, agent, EMPTY);
    }

    /** lines 658-689 */
    method GuardLabelsAgain(span: Span, service: Label, env: Label) returns (l: Labels)
      modifies this`seen
      ensures (l, seen) == SecondLook(old(seen), caps, span, service, env)
    {
      var tool, tools := EMPTY, seen.tools;
      if span.kind == Tool { tool, tools := GuardValue(span.name, seen.tools, caps.tool); }
      var agent, agents := GuardValue(SecondAgent(span), seen.agents, caps.agent);
      var model, models := GuardValue(span.model, seen.models, caps.model);
      var provider, providers := GuardValue(span.provider, seen.providers, caps.provider);
      seen := Seen(models, providers, agents, tools);
      l := Labels(Clip(service, caps.maxLen), Clip(env, caps.maxLen), model, provider, agent, tool);
    }

    /** lines 532-559; a counter refuses a negative amount */
    method CountLlm(span: Span, l: Labels) returns (ok: bool)
      requires span.kind == Llm
      modifies this`counters
      ensures counters == Count(old(counters), l, span) && (ok <==> span.tokensIn >= 0 && span.tokensOut >= 0)
    {
      counters := counters.(llmCalls := Inc(counters.llmCalls, l, 1));
      if span.tokensIn < 0 { return false; }
      if span.tokensIn != 0 { counters := counters.(tokensInput := Inc(counters.tokensInput, l, span.tokensIn)); }
      if span.tokensOut < 0 { return false; }
      if span.tokensOut != 0 { counters := counters.(tokensOutput := Inc(counters.tokensOutput, l, span.tokensOut)); }
      ok := true;
    }

    /** lines 464-696, the label and counter part; a refused negative count raises */
    method RecordSpan(span: Span, service: Label, env: Label) returns (ok: bool)
      modifies this
      ensures View() == Record(old(View()), caps, span, service, env)
      ensures ok <==> span.kind != Llm || (span.tokensIn >= 0 && span.tokensOut >= 0)
    {
      var l := GuardLabels(span, service, env);
      ok := true;
      match span.kind {
        case Llm =>
          ok := CountLlm(span, l);
        case Tool =>
          l := GuardLabelsAgain(span, service, env);
          counters := counters.(toolCalls := Inc(counters.toolCalls, l, 1));
        case Retrieval =>
          l := GuardLabelsAgain(span, service, env);
          counters := counters.(retrievalCalls := Inc(counters.retrievalCalls, l, 1));
        case Other =>
      }
    }
  }
}
