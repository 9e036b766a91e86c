/**
 Ingestion feeds evaluation and evaluation feeds ingestion. This module follows one
 span through the loop and shows that the loop always comes to rest.
 Sources: src/rastir/server/ingestion.py:198-402, evaluation_queue.py:76-120,
 evaluation_worker.py:36-83 and 178-287.
 */
module EvaluationLoop {
  import opened ObjectHeap  // Option

  /** The parts of a span dict the loop looks at. */
  datatype Span = Span(
    traceId: string, spanId: string, parentId: string, spanType: string, isError: bool,
    evaluationEnabled: bool, evaluationTypes: seq<string>, sampleRate: Option<real>,
    evaluationType: string, evaluationError: Option<string>)

  datatype Batch = Batch(service: string, env: string, spans: seq<Span>)

  datatype Task = Task(traceId: string, parentSpanId: string, service: string, env: string, types: seq<string>)

  /** What is decided outside the loop while one span is processed. */
  datatype Chance = Chance(stored: bool, redactionDropped: bool, draw: real)

  /** How one evaluator run ended. */
  datatype Outcome = Returned(evaluationType: string, error: Option<string>) | TimedOut(text: string)
      | Raised(text: string)

  // ----- the evaluation queue -----------------------------------------------

  datatype EvalQueue = EvalQueue(tasks: seq<Task>, maxsize: nat, dropOldest: bool, dropped: nat)

  predicate QueueFull(q: EvalQueue) {
    q.maxsize > 0 && |q.tasks| >= q.maxsize
  }

  function PutTask(q: EvalQueue, t: Task): EvalQueue {
    if QueueFull(q) && q.dropOldest then q.(tasks := q.tasks[1..] + [t], dropped := q.dropped + 1)
    else if QueueFull(q) then q.(dropped := q.dropped + 1)
    else q.(tasks := q.tasks + [t])
  }

  class InMemoryEvaluationQueue {
    const maxsize: nat
    const dropOldest: bool
    var tasks: seq<Task>
    var dropped: nat

    function View(): EvalQueue
      reads this
    {
      EvalQueue(tasks, maxsize, dropOldest, dropped)
    }

    constructor (maxsize: nat, dropOldest: bool)
      ensures View() == EvalQueue([], maxsize, dropOldest, 0)
    {
      this.maxsize, this.dropOldest := maxsize, dropOldest;
      tasks, dropped := [], 0;
    }

    /** evaluation_queue.py:92-113 */
    method Put(task: Task) returns (ok: bool)
      modifies this
      ensures View() == PutTask(old(View()), task)
      ensures ok <==> !QueueFull(old(View())) || dropOldest
    {
      if maxsize > 0 && |tasks| >= maxsize {
        if dropOldest {
          tasks := tasks[1..];
          dropped := dropped + 1;
        } else {
          dropped := dropped + 1;
          return false;
        }
      }
      tasks := tasks + [task];
      ok := true;
    }

    /** evaluation_queue.py:115-120; None is a timeout on an empty queue */
    method Get() returns (task: Option<Task>)
      modifies this
      ensures if old(tasks) == [] then task == None && View() == old(View())
              else task == Some(old(tasks)[0]) && View() == old(View()).(tasks := old(tasks)[1..])
    {
      if tasks == [] { return None; }
      task := Some(tasks[0]);
      tasks := tasks[1..];
    }
  }

  // ----- from span to task --------------------------------------------------

  /** The part of the decision that lies in the span itself. */
  predicate Eligible(s: Span) {
    !s.isError && s.evaluationEnabled && s.evaluationTypes != []
  }

  predicate Sampled(s: Span, c: Chance, defaultRate: real) {
    var rate := if s.sampleRate.Some? then s.sampleRate.value else defaultRate;
    rate >= 1.0 || c.draw < rate
  }

  predicate Evaluates(s: Span, c: Chance, defaultRate: real) {
    c.stored && !c.redactionDropped && Eligible(s) && Sampled(s, c, defaultRate)
  }

  function TaskFor(s: Span, service: string, env: string): Task {
    Task(s.traceId, s.spanId, service, env, s.evaluationTypes)
  }

  /** The tasks one batch offers to the queue, in span order. */
  function TasksOf(b: Batch, chances: seq<Chance>, defaultRate: real, n: nat): seq<Task>
    requires n <= |b.spans| && n <= |chances|
  {
    if n == 0 then []
    else TasksOf(b, chances, defaultRate, n - 1) +
         if Evaluates(b.spans[n - 1], chances[n - 1], defaultRate)
         then [TaskFor(b.spans[n - 1], b.service, b.env)] else []
  }

  function PutAll(q: EvalQueue, tasks: seq<Task>): EvalQueue {
    if tasks == [] then q else PutTask(PutAll(q, tasks[..|tasks| - 1]), tasks[|tasks| - 1])
  }

  function EligibleCount(spans: seq<Span>): nat {
    if spans == [] then 0 else EligibleCount(spans[..|spans| - 1]) + if Eligible(spans[|spans| - 1]) then 1 else 0
  }

  /** Each span gives rise to at most one task, and only an eligible span to any. */
  lemma {:induction false} AtMostOneTaskEach(b: Batch, chances: seq<Chance>, defaultRate: real, n: nat)
    requires n <= |b.spans| && n <= |chances|
    ensures |TasksOf(b, chances, defaultRate, n)| <= EligibleCount(b.spans[..n])
    ensures forall t :: t in TasksOf(b, chances, defaultRate, n) ==>
              exists i :: 0 <= i < n && Eligible(b.spans[i]) && t == TaskFor(b.spans[i], b.service, b.env)
  {
    if n > 0 {
      AtMostOneTaskEach(b, chances, defaultRate, n - 1);
      assert b.spans[..n][..n - 1] == b.spans[..n - 1];
    }
  }

  /** A span that is evaluated has its task, behind those of the spans before it. */
  lemma {:induction false} TasksInOrder(b: Batch, chances: seq<Chance>, defaultRate: real, n: nat, i: nat)
    requires i < n <= |b.spans| && n <= |chances|
    ensures var all, before := TasksOf(b, chances, defaultRate, n), TasksOf(b, chances, defaultRate, i);
            && before <= all
            && (Evaluates(b.spans[i], chances[i], defaultRate) ==>
                  |all| > |before| && all[|before|] == TaskFor(b.spans[i], b.service, b.env))
            && (!Evaluates(b.spans[i], chances[i], defaultRate) ==>
                  TasksOf(b, chances, defaultRate, i + 1) == before)
    decreases n
  {
    if i < n - 1 { TasksInOrder(b, chances, defaultRate, n - 1, i); }
  }

  /** Every offered task is in the queue or counted as dropped, and the queue stays within its bound. */
  lemma {:induction false} PutAllAccounts(q: EvalQueue, tasks: seq<Task>)
    ensures var q1 := PutAll(q, tasks);
            && |q1.tasks| + q1.dropped == |q.tasks| + q.dropped + |tasks|
            && q1.dropped >= q.dropped && q1.maxsize == q.maxsize && q1.dropOldest == q.dropOldest
            && (q.maxsize > 0 && |q.tasks| <= q.maxsize ==> |q1.tasks| <= q1.maxsize)
    decreases |tasks|
  {
    if tasks != [] { PutAllAccounts(q, tasks[..|tasks| - 1]); }
  }

  /**
   Which tasks are in the queue after several offers: with drop_oldest the last ones that fit of all
   there were, with drop_new the first ones, and all of them without a bound.
   */
  lemma {:induction false} PutAllKeeps(q: EvalQueue, tasks: seq<Task>)
    requires q.maxsize > 0 ==> |q.tasks| <= q.maxsize
    ensures var all, kept := q.tasks + tasks, PutAll(q, tasks).tasks;
            && (q.maxsize == 0 || |all| <= q.maxsize ==> kept == all)
            && (0 < q.maxsize < |all| ==>
                  kept == if q.dropOldest then all[|all| - q.maxsize..] else all[..q.maxsize])
    decreases |tasks|
  {
    if tasks == [] {
      assert q.tasks + tasks == q.tasks;
      return;
    }
    var init, t := tasks[..|tasks| - 1], tasks[|tasks| - 1];
    PutAllKeeps(q, init);
    PutAllAccounts(q, init);
    assert q.tasks + tasks == (q.tasks + init) + [t];
    if q.maxsize > 0 { PutKeeps(q.tasks + init, PutAll(q, init), t); }
  }

  lemma PutKeeps(all: seq<Task>, q: EvalQueue, t: Task)
    requires q.maxsize > 0
    requires q.tasks == (if |all| <= q.maxsize then all
                         else if q.dropOldest then all[|all| - q.maxsize..] else all[..q.maxsize])
    ensures var all1, kept := all + [t], PutTask(q, t).tasks;
            kept == if |all1| <= q.maxsize then all1
                    else if q.dropOldest then all1[|all1| - q.maxsize..] else all1[..q.maxsize]
  {
    if |all| >= q.maxsize {
      assert |q.tasks| == q.maxsize;
      var from := |all| - q.maxsize;
      assert (all + [t])[from + 1..] == all[from..][1..] + [t];
      assert (all + [t])[..q.maxsize] == all[..q.maxsize];
      if |all| == q.maxsize { assert all[..q.maxsize] == all && all[0..] == all; }
    }
  }

  /** For a draw below 1, as the generator gives it: the draw is below the rate and the span meets each condition. */
  lemma EvaluatesIff(s: Span, c: Chance, defaultRate: real)
    requires 0.0 <= c.draw < 1.0
    ensures var drawn := match s.sampleRate case Some(own) => c.draw < own case None => c.draw < defaultRate;
            Evaluates(s, c, defaultRate) <==>
            drawn && s.evaluationEnabled && |s.evaluationTypes| > 0 && !s.isError && c.stored && !c.redactionDropped
  {
  }

  /** ingestion.py:218-333, the evaluation part, with 339-402 */
  method ProcessBatch(b: Batch, chances: seq<Chance>, defaultRate: real, q: InMemoryEvaluationQueue)
    requires |chances| == |b.spans|
    modifies q
    ensures q.View() == PutAll(old(q.View()), TasksOf(b, chances, defaultRate, |b.spans|))
  {
    for i := 0 to |b.spans|
      invariant q.View() == PutAll(old(q.View()), TasksOf(b, chances, defaultRate, i))
    {
      var span, c := b.spans[i], chances[i];
      var before := TasksOf(b, chances, defaultRate, i);
      assert (before + [TaskFor(span, b.service, b.env)])[..|before|] == before && before + [] == before;
      if c.stored && c.redactionDropped { continue; }
      if c.stored && !span.isError {
        var _ := MaybeEnqueueEvaluation(span, c, b.service, b.env, defaultRate, q);
      }
    }
  }

  /** ingestion.py:339-402 */
  method MaybeEnqueueEvaluation(span: Span, c: Chance, service: string, env: string, defaultRate: real,
                                q: InMemoryEvaluationQueue)
    returns (offered: bool)
    requires !span.isError
    modifies q
    ensures offered <==> Eligible(span) && Sampled(span, c, defaultRate)
    ensures q.View() == if offered then PutTask(old(q.View()), TaskFor(span, service, env)) else old(q.View())
  {
    if !span.evaluationEnabled { return false; }
    var rate := if span.sampleRate.Some? then span.sampleRate.value else defaultRate;
    if rate < 1.0 && c.draw >= rate { return false; }
    if span.evaluationTypes == [] { return false; }
    var ok := q.Put(TaskFor(span, service, env));
    offered := true;
  }

  // ----- from task to spans -------------------------------------------------

  function ErrorOf(o: Outcome): Option<string> {
    match o case Returned(_, e) => e case TimedOut(t) => Some(t) case Raised(t) => Some(t)
  }

  /** evaluation_worker.py:36-83; the attribute dict is built anew, so evaluation is never enabled on it */
  function EvalSpan(t: Task, requested: string, o: Outcome, spanId: string): Span {
    Span(t.traceId, spanId, t.parentSpanId, "evaluation", ErrorOf(o).Some?, false, [], None,
         if o.Returned? then o.evaluationType else requested, ErrorOf(o))
  }

  function Registered(types: seq<string>, registry: set<string>): seq<string> {
    if types == [] then []
    else (if types[0] in registry then [types[0]] else []) + Registered(types[1..], registry)
  }

  /** What a task hands to the ingestion worker's enqueue(): one span for each type it runs. */
  function EmittedSpans(t: Task, types: seq<string>, outcomes: nat -> Outcome,
                        ids: nat -> string): (spans: seq<Span>)
    ensures |spans| == |types|
  {
    if types == [] then []
    else EmittedSpans(t, types[..|types| - 1], outcomes, ids) +
         [EvalSpan(t, types[|types| - 1], outcomes(|types| - 1), ids(|types| - 1))]
  }

  /** evaluation_worker.py:195-205: types without an evaluator are skipped */
  method ResolveEvaluators(types: seq<string>, registry: set<string>) returns (toRun: seq<string>)
    ensures toRun == Registered(types, registry)
  {
    toRun := [];
    var k := 0;
    assert types[0..] == types;
    while k < |types|
      invariant 0 <= k <= |types|
      invariant toRun + Registered(types[k..], registry) == Registered(types, registry)
    {
      assert types[k..][1..] == types[k + 1..];
      if types[k] in registry { toRun := toRun + [types[k]]; }
      k := k + 1;
    }
  }

  /** evaluation_worker.py:178-287: every run gives one span whatever became of it */
  method ProcessTask(t: Task, registry: set<string>, outcomes: nat -> Outcome, ids: nat -> string)
    returns (spans: seq<Span>)
    ensures spans == EmittedSpans(t, Registered(t.types, registry), outcomes, ids)
  {
    var toRun := ResolveEvaluators(t.types, registry);
    spans := [];
    for i := 0 to |toRun|
      invariant spans == EmittedSpans(t, toRun[..i], outcomes, ids)
    {
      var span;
      match outcomes(i) {
        case Returned(et, error) =>
          span := Span(t.traceId, ids(i), t.parentSpanId, "evaluation", error.Some?, false, [], None, et, error);
        case TimedOut(text) =>
          span := Span(t.traceId, ids(i), t.parentSpanId, "evaluation", true, false, [], None, toRun[i], Some(text));
        case Raised(text) =>
          span := Span(t.traceId, ids(i), t.parentSpanId, "evaluation", true, false, [], None, toRun[i], Some(text));
      }
      spans := spans + [span];
      assert toRun[..i + 1][..i] == toRun[..i];
    }
    assert toRun[..|toRun|] == toRun;
  }

  /** Each emitted span belongs to the evaluated span, and none is eligible again. */
  lemma {:induction false} EmittedSpansMean(t: Task, types: seq<string>, outcomes: nat -> Outcome,
                                            ids: nat -> string)
    ensures var spans := EmittedSpans(t, types, outcomes, ids);
            forall i :: 0 <= i < |types| ==>
              && spans[i].traceId == t.traceId && spans[i].parentId == t.parentSpanId && spans[i].spanId == ids(i)
              && (spans[i].isError <==> ErrorOf(outcomes(i)).Some?)
              && (!outcomes(i).Returned? ==> spans[i].evaluationType == types[i])
              && (outcomes(i).Returned? ==> spans[i].evaluationType == outcomes(i).evaluationType)
              && (outcomes(i).Returned? ==> spans[i].evaluationError == outcomes(i).error)
              && (!outcomes(i).Returned? ==> spans[i].evaluationError == Some(outcomes(i).text))
              && spans[i].spanType == "evaluation" && !spans[i].evaluationEnabled
    decreases |types|
  {
    if types != [] { EmittedSpansMean(t, types[..|types| - 1], outcomes, ids); }
  }

  /**
   From an evaluated span to its evaluation spans: one per registered type asked for, all
   children of that span in its trace.
   */
  lemma EvaluationBelongsToSpan(s: Span, service: string, env: string, registry: set<string>,
                                outcomes: nat -> Outcome, ids: nat -> string)
    ensures var t := TaskFor(s, service, env);
            var run := Registered(s.evaluationTypes, registry);
            var spans := EmittedSpans(t, Registered(t.types, registry), outcomes, ids);
            && t.service == service && t.env == env && |spans| == |run|
            && forall i :: 0 <= i < |run| ==>
                 && spans[i].traceId == s.traceId && spans[i].parentId == s.spanId
                 && spans[i].spanType == "evaluation" && !Eligible(spans[i])
                 && (spans[i].isError <==> ErrorOf(outcomes(i)).Some?)
  {
    EmittedSpansMean(TaskFor(s, service, env), Registered(s.evaluationTypes, registry), outcomes, ids);
  }

  /** Registered keeps exactly the known types, with their repetitions, in order. */
  lemma {:induction false} RegisteredMeans(types: seq<string>, registry: set<string>)
    ensures forall x :: x in Registered(types, registry) ==> x in registry
    ensures multiset(Registered(types, registry)) <= multiset(types)
    ensures forall x :: x in registry ==> multiset(Registered(types, registry))[x] == multiset(types)[x]
  {
    if types != [] {
      RegisteredMeans(types[1..], registry);
      assert types == [types[0]] + types[1..];
    }
  }

  // ----- the loop -----------------------------------------------------------

  /** Both queues. The ingestion queue rejects or evicts when full, as in module IngestionQueue. */
  datatype Loop = Loop(batches: seq<Batch>, maxBatches: nat, evictBatches: bool, tasks: EvalQueue)

  function Emit(l: Loop, b: Batch): Loop {
    if l.maxBatches > 0 && |l.batches| >= l.maxBatches
    then if l.evictBatches then l.(batches := l.batches[1..] + [b]) else l
    else l.(batches := l.batches + [b])
  }

  datatype Step =
    | Ingest(chances: seq<Chance>)
    | Evaluate(outcomes: nat -> Outcome, ids: nat -> string)

  predicate Enabled(l: Loop, step: Step) {
    match step
    case Ingest(chances) => l.batches != [] && |chances| == |l.batches[0].spans|
    case Evaluate(_, _) => l.tasks.tasks != []
  }

  /** One batch or one task is worked off; waiting rounds are not steps. */
  function Next(l: Loop, step: Step, registry: set<string>, defaultRate: real): Loop
    requires Enabled(l, step)
  {
    match step
    case Ingest(chances) =>
      var b := l.batches[0];
      l.(batches := l.batches[1..], tasks := PutAll(l.tasks, TasksOf(b, chances, defaultRate, |b.spans|)))
    case Evaluate(outcomes, ids) =>
      var t := l.tasks.tasks[0];
      var spans := EmittedSpans(t, Registered(t.types, registry), outcomes, ids);
      var l1 := l.(tasks := l.tasks.(tasks := l.tasks.tasks[1..]));
      if spans == [] then l1 else Emit(l1, Batch(t.service, t.env, spans))
  }

  /** A full queue that evicts keeps the new batch; one that rejects keeps every old one. */
  lemma EmitKeeps(l: Loop, b: Batch)
    ensures var after := Emit(l, b).batches;
            var room := l.maxBatches == 0 || |l.batches| < l.maxBatches;
            && (room || l.evictBatches ==> after != [] && after[|after| - 1] == b)
            && (room || !l.evictBatches ==> l.batches <= after)
            && (l.maxBatches > 0 && |l.batches| <= l.maxBatches ==> |after| <= l.maxBatches)
            && multiset(after) <= multiset(l.batches + [b])
  {
    if l.batches != [] {
      assert l.batches + [b] == [l.batches[0]] + (l.batches[1..] + [b]);
    }
  }

  function BatchWeight(b: Batch): nat {
    1 + 2 * EligibleCount(b.spans)
  }

  function BatchesWeight(batches: seq<Batch>): nat {
    if batches == [] then 0 else BatchWeight(batches[0]) + BatchesWeight(batches[1..])
  }

  /** The work still to come: a task will emit one batch, which creates no further task. */
  function Weight(l: Loop): nat {
    BatchesWeight(l.batches) + 2 * |l.tasks.tasks|
  }

  lemma {:induction false} WeightSplit(a: seq<Batch>, b: seq<Batch>)
    ensures BatchesWeight(a + b) == BatchesWeight(a) + BatchesWeight(b)
  {
    if a == [] {
      assert a + b == b;
    } else {
      assert (a + b)[1..] == a[1..] + b;
      WeightSplit(a[1..], b);
    }
  }

  /** No emitted span can ever create a task again. */
  lemma {:induction false} EmittedIsInert(spans: seq<Span>)
    requires forall i :: 0 <= i < |spans| ==> !spans[i].evaluationEnabled
    ensures EligibleCount(spans) == 0
    decreases |spans|
  {
    if spans != [] { EmittedIsInert(spans[..|spans| - 1]); }
  }

  lemma IngestLosesWeight(l: Loop, chances: seq<Chance>, registry: set<string>, defaultRate: real)
    requires Enabled(l, Ingest(chances))
    ensures Weight(Next(l, Ingest(chances), registry, defaultRate)) < Weight(l)
  {
    var b := l.batches[0];
    AtMostOneTaskEach(b, chances, defaultRate, |b.spans|);
    assert b.spans[..|b.spans|] == b.spans;
    PutAllAccounts(l.tasks, TasksOf(b, chances, defaultRate, |b.spans|));
  }

  /** Whether the emitted batch is put, rejected or displaces an older one, the queue gains at most its weight of 1. */
  lemma EmitWeight(l: Loop, b: Batch)
    requires EligibleCount(b.spans) == 0
    ensures BatchesWeight(Emit(l, b).batches) <= BatchesWeight(l.batches) + 1
  {
    assert [b][1..] == [];
    assert BatchesWeight([b]) == 1;
    WeightSplit(l.batches, [b]);
    if l.batches != [] { WeightSplit(l.batches[1..], [b]); }
  }

  lemma EvaluateLosesWeight(l: Loop, outcomes: nat -> Outcome, ids: nat -> string, registry: set<string>,
                            defaultRate: real)
    requires Enabled(l, Evaluate(outcomes, ids))
    ensures Weight(Next(l, Evaluate(outcomes, ids), registry, defaultRate)) < Weight(l)
  {
    var t := l.tasks.tasks[0];
    var spans := EmittedSpans(t, Registered(t.types, registry), outcomes, ids);
    EmittedSpansMean(t, Registered(t.types, registry), outcomes, ids);
    EmittedIsInert(spans);
    EmitWeight(l.(tasks := l.tasks.(tasks := l.tasks.tasks[1..])), Batch(t.service, t.env, spans));
  }

  /** Working off a batch or a task always leaves less to do. */
  lemma StepLosesWeight(l: Loop, step: Step, registry: set<string>, defaultRate: real)
    requires Enabled(l, step)
    ensures Weight(Next(l, step, registry, defaultRate)) < Weight(l)
  {
    match step
    case Ingest(chances) => IngestLosesWeight(l, chances, registry, defaultRate);
    case Evaluate(outcomes, ids) => EvaluateLosesWeight(l, outcomes, ids, registry, defaultRate);
  }

  predicate Runs(l: Loop, steps: seq<Step>, registry: set<string>, defaultRate: real)
    decreases |steps|
  {
    steps == [] ||
    (Enabled(l, steps[0]) && Runs(Next(l, steps[0], registry, defaultRate), steps[1..], registry, defaultRate))
  }

  function Final(l: Loop, steps: seq<Step>, registry: set<string>, defaultRate: real): Loop
    requires Runs(l, steps, registry, defaultRate)
    decreases |steps|
  {
    if steps == [] then l else Final(Next(l, steps[0], registry, defaultRate), steps[1..], registry, defaultRate)
  }

  /**
   Once external input has stopped, every interleaving of the two workers ends after at
   most Weight(l) pieces of work, and it can only end with both queues empty.
   */
  lemma {:induction false} LoopComesToRest(l: Loop, steps: seq<Step>, registry: set<string>, defaultRate: real)
    requires Runs(l, steps, registry, defaultRate)
    ensures |steps| + Weight(Final(l, steps, registry, defaultRate)) <= Weight(l)
    ensures var f := Final(l, steps, registry, defaultRate);
            (forall step :: !Enabled(f, step)) <==> f.batches == [] && f.tasks.tasks == []
    decreases |steps|
  {
    if steps == [] {
      if l.batches != [] {
        var chances := seq(|l.batches[0].spans|, _ => Chance(false, false, 0.0));
        assert Enabled(l, Ingest(chances));
      }
      if l.tasks.tasks != [] {
        assert Enabled(l, Evaluate(_ => TimedOut(""), _ => ""));
      }
    } else {
      StepLosesWeight(l, steps[0], registry, defaultRate);
      LoopComesToRest(Next(l, steps[0], registry, defaultRate), steps[1..], registry, defaultRate);
    }
  }

  // ----- what goes in comes out ------------------------------------------------

  /** The batches worked off, and the tasks worked off. */
  function Worked(l: Loop, steps: seq<Step>, registry: set<string>, defaultRate: real): (seq<Batch>, seq<Task>)
    requires Runs(l, steps, registry, defaultRate)
    decreases |steps|
  {
    if steps == [] then ([], [])
    else
      var (batches, tasks) := Worked(Next(l, steps[0], registry, defaultRate), steps[1..], registry, defaultRate);
      if steps[0].Ingest? then ([l.batches[0]] + batches, tasks) else (batches, [l.tasks.tasks[0]] + tasks)
  }

  /** The tasks that the worked off batches give rise to, and the batches of the worked off tasks. */
  function Arisen(batches: seq<Batch>, tasks: seq<Task>, steps: seq<Step>, registry: set<string>, defaultRate: real):
    (seq<Task>, seq<Batch>)
    decreases |steps|
  {
    if steps == [] then ([], [])
    else match steps[0]
      case Ingest(chances) =>
        if batches == [] || |chances| != |batches[0].spans| then ([], [])
        else
          var (newTasks, newBatches) := Arisen(batches[1..], tasks, steps[1..], registry, defaultRate);
          (TasksOf(batches[0], chances, defaultRate, |chances|) + newTasks, newBatches)
      case Evaluate(outcomes, ids) =>
        if tasks == [] then ([], [])
        else
          var (newTasks, newBatches) := Arisen(batches, tasks[1..], steps[1..], registry, defaultRate);
          var t := tasks[0];
          var spans := EmittedSpans(t, Registered(t.types, registry), outcomes, ids);
          (newTasks, (if spans == [] then [] else [Batch(t.service, t.env, spans)]) + newBatches)
  }

  /**
   Where neither queue is bounded nothing is lost and nothing overtakes: what was worked off,
   followed by what is still queued, is what was queued followed by what arose.
   */
  lemma {:induction false} LoopLosesNothing(l: Loop, steps: seq<Step>, registry: set<string>, defaultRate: real)
    requires Runs(l, steps, registry, defaultRate) && l.maxBatches == 0 && l.tasks.maxsize == 0
    ensures var f := Final(l, steps, registry, defaultRate);
            var (batches, tasks) := Worked(l, steps, registry, defaultRate);
            var (newTasks, newBatches) := Arisen(batches, tasks, steps, registry, defaultRate);
            batches + f.batches == l.batches + newBatches && tasks + f.tasks.tasks == l.tasks.tasks + newTasks
    decreases |steps|
  {
    if steps == [] { return; }
    var l1 := Next(l, steps[0], registry, defaultRate);
    var (b, k) := Worked(l1, steps[1..], registry, defaultRate);
    var (newTasks, newBatches) := Arisen(b, k, steps[1..], registry, defaultRate);
    var f := Final(l1, steps[1..], registry, defaultRate);
    if steps[0].Ingest? {
      var offered := TasksOf(l.batches[0], steps[0].chances, defaultRate, |steps[0].chances|);
      PutAllKeeps(l.tasks, offered);
      PutAllAccounts(l.tasks, offered);
      LoopLosesNothing(l1, steps[1..], registry, defaultRate);
      Joined(l.batches[0], b, f.batches, l.batches, newBatches);
      Moved(k, f.tasks.tasks, l.tasks.tasks, offered, newTasks);
    } else {
      var t := l.tasks.tasks[0];
      var spans := EmittedSpans(t, Registered(t.types, registry), steps[0].outcomes, steps[0].ids);
      var emitted := if spans == [] then [] else [Batch(t.service, t.env, spans)];
      assert l1.batches == l.batches + emitted;
      LoopLosesNothing(l1, steps[1..], registry, defaultRate);
      Joined(t, k, f.tasks.tasks, l.tasks.tasks, newTasks);
      Moved(b, f.batches, l.batches, emitted, newBatches);
    }
  }

  lemma Joined<T>(first: T, taken: seq<T>, rest: seq<T>, queue: seq<T>, more: seq<T>)
    requires queue != [] && queue[0] == first
    ensures taken + rest == queue[1..] + more ==> [first] + taken + rest == queue + more
    ensures ([first] + taken)[1..] == taken
  {
    assert [first] + (taken + rest) == [first] + taken + rest;
    assert queue == [first] + queue[1..];
  }

  lemma Moved<T>(taken: seq<T>, rest: seq<T>, queue: seq<T>, put: seq<T>, more: seq<T>)
    ensures taken + rest == (queue + put) + more ==> taken + rest == queue + (put + more)
  {
  }
}
