/**
 The ingestion queue protocol: producers with backpressure, one consumer task, a stop
 signal with a sentinel, and a final drain. Every await is a point where other steps
 may come in between, so a run is any interleaving of the steps below.
 Source: src/rastir/server/ingestion.py:81-196.
 */
module IngestionQueue {

  const STOP := "__stop__"

  /** One queue item; "payload" stands for env, version and the span list. */
  datatype Batch = Batch(service: string, payload: nat)

  /** What stop() puts to wake the worker. */
  const STOPITEM := Batch(STOP, 0)

  datatype Mode = Reject | DropOldest

  /** maxsize 0 is an unbounded queue; "raises" tells which batches make processing raise. */
  datatype Config = Config(maxsize: nat, mode: Mode, raises: set<nat>)

  /** Where the consumer task is. */
  datatype Phase = AtTop | Waiting | Draining | Done | Failed

  datatype Fate = Processed | Evicted | Discarded

  datatype Gone = Gone(batch: Batch, fate: Fate)

  /**
   The queue, the running flag and the consumer's position, with what happened so far:
   all items ever put, those put by clients, and the items that left the queue, in order.
   */
  datatype State = State(
    queue: seq<Batch>, running: bool, phase: Phase,
    accepted: seq<Batch>, clients: seq<Batch>, gone: seq<Gone>,
    rejections: nat, evictions: nat)

  const START := State([], true, AtTop, [], [], [], 0, 0)

  predicate Full(c: Config, s: State) {
    c.maxsize > 0 && |s.queue| >= c.maxsize
  }

  /** The queue's head leaves it with the given fate. */
  function Take(s: State, fate: Fate): State
    requires s.queue != []
  {
    s.(queue := s.queue[1..], gone := s.gone + [Gone(s.queue[0], fate)])
  }

  function Put(s: State, b: Batch): State {
    s.(queue := s.queue + [b], accepted := s.accepted + [b])
  }

  // ----- atomic steps -------------------------------------------------------

  datatype Step =
    | Enqueue(batch: Batch)  // enqueue(), lines 96-157
    | Stop                   // the synchronous part of stop(), lines 81-89
    | TestRunning            // the loop test, line 164
    | Timeout                // wait_for gave up, lines 167-170
    | Get                    // an item arrived, lines 166-185
    | Drain                  // one round of lines 187-196
    | Finish                 // the queue is empty, the task ends

  predicate Harmless(c: Config, b: Batch) {
    b.service == STOP || b.payload !in c.raises
  }

  predicate Enabled(s: State, step: Step) {
    match step
    case Enqueue(_) => true
    case Stop => true
    case TestRunning => s.phase == AtTop
    case Timeout => s.phase == Waiting
    case Get => s.phase == Waiting && s.queue != []
    case Drain => s.phase == Draining && s.queue != []
    case Finish => s.phase == Draining && s.queue == []
  }

  function Accepts(c: Config, s: State): bool {
    !Full(c, s) || c.mode == DropOldest
  }

  function Next(c: Config, s: State, step: Step): State
    requires Enabled(s, step)
  {
    match step
    case Enqueue(b) =>
      if !Accepts(c, s) then s.(rejections := s.rejections + 1)
      else
        var s1 := if Full(c, s) then Take(s, Evicted).(evictions := s.evictions + 1) else s;
        Put(s1, b).(clients := s.clients + [b])
    case Stop =>
      var s1 := s.(running := false);
      if Full(c, s) then s1 else Put(s1, STOPITEM)
    case TestRunning => s.(phase := if s.running then Waiting else Draining)
    case Timeout => s.(phase := AtTop)
    case Get =>
      if s.queue[0].service == STOP then Take(s, Discarded).(phase := Draining)
      else Take(s, Processed).(phase := AtTop)  // an exception is caught and logged here
    case Drain =>
      if s.queue[0].service == STOP then Take(s, Discarded)
      else Take(s, Processed).(phase := if s.queue[0].payload in c.raises then Failed else Draining)
    case Finish => s.(phase := Done)
  }

  // ----- runs ---------------------------------------------------------------

  /** The states an interleaving passes through; None stands for a step that cannot happen there. */
  predicate Possible(c: Config, steps: seq<Step>)
    decreases |steps|, 0
  {
    steps == [] || (Possible(c, steps[..|steps| - 1]) && Enabled(After(c, steps[..|steps| - 1]), steps[|steps| - 1]))
  }

  function After(c: Config, steps: seq<Step>): State
    requires Possible(c, steps)
    decreases |steps|, 1
  {
    if steps == [] then START else Next(c, After(c, steps[..|steps| - 1]), steps[|steps| - 1])
  }

  function Batches(gone: seq<Gone>): seq<Batch> {
    if gone == [] then [] else Batches(gone[..|gone| - 1]) + [gone[|gone| - 1].batch]
  }

  function With(gone: seq<Gone>, fate: Fate): seq<Batch> {
    if gone == [] then []
    else With(gone[..|gone| - 1], fate) + if gone[|gone| - 1].fate == fate then [gone[|gone| - 1].batch] else []
  }

  function NotStop(batches: seq<Batch>): seq<Batch> {
    if batches == [] then []
    else
      NotStop(batches[..|batches| - 1]) +
      if batches[|batches| - 1].service != STOP then [batches[|batches| - 1]] else []
  }

  // ----- what a client is told ------------------------------------------------

  /** Clients that have come to a full queue. */
  function CameFull(c: Config, steps: seq<Step>): nat
    requires Possible(c, steps)
    decreases |steps|
  {
    if steps == [] then 0
    else
      var init := steps[..|steps| - 1];
      CameFull(c, init) +
      if steps[|steps| - 1].Enqueue? && 0 < c.maxsize <= |After(c, init).queue| then 1 else 0
  }

  /**
   In every reachable state: in reject mode a batch is accepted, and is then the last of
   the queue, if and only if there is room; otherwise the refusal is counted and nothing
   else changes. In the other mode it is accepted always, for the oldest if need be.
   */
  lemma AcceptedIff(c: Config, steps: seq<Step>, b: Batch)
    requires Possible(c, steps)
    ensures Possible(c, steps + [Enqueue(b)])
    ensures var (s, s1) := (After(c, steps), After(c, steps + [Enqueue(b)]));
            var room := c.maxsize == 0 || |s.queue| < c.maxsize;
            && (room || c.mode == DropOldest <==> s1.clients == s.clients + [b])
            && (room || c.mode == DropOldest <==> s1.rejections == s.rejections)
            && (room || c.mode == DropOldest ==> s1.accepted == s.accepted + [b])
            && (room ==> s1.queue == s.queue + [b] && s1.gone == s.gone && s1.evictions == s.evictions)
            && (!room && c.mode == Reject ==> s1 == s.(rejections := s.rejections + 1))
            && (!room && c.mode == DropOldest ==>
                  && s1.queue == s.queue[1..] + [b] && s1.evictions == s.evictions + 1
                  && s1.gone == s.gone + [Gone(s.queue[0], Evicted)])
  {
    Extend(c, steps, Enqueue(b));
  }

  /** So over a run the refusals, or the evictions, are as many as clients have come to a full queue. */
  lemma {:induction false} RefusalsCounted(c: Config, steps: seq<Step>)
    requires Possible(c, steps)
    ensures var s := After(c, steps);
            && s.rejections == (if c.mode == Reject then CameFull(c, steps) else 0)
            && s.evictions == (if c.mode == DropOldest then CameFull(c, steps) else 0)
    decreases |steps|
  {
    if steps != [] { RefusalsCounted(c, steps[..|steps| - 1]); }
  }

  /** stop() takes down the flag, and puts its item at the end if there is room. */
  lemma StopPuts(c: Config, steps: seq<Step>)
    requires Possible(c, steps)
    ensures Possible(c, steps + [Stop])
    ensures var (s, s1) := (After(c, steps), After(c, steps + [Stop]));
            && !s1.running && s1.clients == s.clients && s1.gone == s.gone && s1.phase == s.phase
            && s1.queue == if c.maxsize == 0 || |s.queue| < c.maxsize then s.queue + [Batch("__stop__", 0)] else s.queue
  {
    Extend(c, steps, Stop);
  }

  // ----- what every step keeps ----------------------------------------------

  predicate FateOk(g: Gone) {
    (g.fate == Processed ==> g.batch.service != STOP) && (g.fate == Discarded ==> g.batch.service == STOP)
  }

  ghost predicate Inv(c: Config, s: State) {
    && Batches(s.gone) + s.queue == s.accepted
    && (c.maxsize > 0 ==> |s.queue| <= c.maxsize)
    && NotStop(s.clients) == NotStop(s.accepted)
    && (forall i :: 0 <= i < |s.gone| ==> FateOk(s.gone[i]))
    && s.evictions == |With(s.gone, Evicted)|
    && (c.mode == Reject ==> s.evictions == 0)
  }

  lemma TakeKeeps(c: Config, s: State, fate: Fate)
    requires Inv(c, s) && s.queue != []
    requires fate == Processed ==> s.queue[0].service != STOP
    requires fate == Discarded ==> s.queue[0].service == STOP
    requires fate == Evicted ==> c.mode == DropOldest
    ensures Inv(c, Take(s, fate).(evictions := s.evictions + if fate == Evicted then 1 else 0))
  {
    var s1 := Take(s, fate);
    assert s1.gone[..|s1.gone| - 1] == s.gone;
    assert Batches(s.gone) + s.queue == Batches(s.gone) + [s.queue[0]] + s.queue[1..];
  }

  lemma PutKeeps(c: Config, s: State, b: Batch, client: bool)
    requires Inv(c, s) && !Full(c, s) && (client || b.service == STOP)
    ensures Inv(c, Put(s, b).(clients := s.clients + if client then [b] else []))
  {
    assert (s.accepted + [b])[..|s.accepted|] == s.accepted;
    assert (s.clients + [b])[..|s.clients|] == s.clients;
    assert s.clients + [] == s.clients;
    assert Batches(s.gone) + (s.queue + [b]) == Batches(s.gone) + s.queue + [b];
  }

  lemma StepKeeps(c: Config, s: State, step: Step)
    requires Inv(c, s) && Enabled(s, step)
    ensures Inv(c, Next(c, s, step))
  {
    match step
    case Enqueue(b) =>
      if Accepts(c, s) {
        if Full(c, s) {
          TakeKeeps(c, s, Evicted);
          PutKeeps(c, Take(s, Evicted).(evictions := s.evictions + 1), b, true);
        } else {
          PutKeeps(c, s, b, true);
        }
      }
    case Stop =>
      if !Full(c, s) {
        PutKeeps(c, s.(running := false), Batch(STOP, 0), false);
        assert s.clients + [] == s.clients;
      }
    case TestRunning =>
    case Timeout =>
    case Get => TakeKeeps(c, s, if s.queue[0].service == STOP then Discarded else Processed);
    case Drain => TakeKeeps(c, s, if s.queue[0].service == STOP then Discarded else Processed);
    case Finish =>
  }

  lemma {:induction false} RunKeeps(c: Config, steps: seq<Step>)
    requires Possible(c, steps)
    ensures Inv(c, After(c, steps))
    decreases |steps|
  {
    if steps == [] {
      assert Batches([]) + [] == [];
    } else {
      RunKeeps(c, steps[..|steps| - 1]);
      StepKeeps(c, After(c, steps[..|steps| - 1]), steps[|steps| - 1]);
    }
  }

  // ----- the promise --------------------------------------------------------

  /** Every item that left the queue was processed, evicted, or is a stop item. */
  lemma {:induction false} ProcessedIsRest(gone: seq<Gone>)
    requires forall i :: 0 <= i < |gone| ==> gone[i].fate != Evicted
    requires forall i :: 0 <= i < |gone| ==> (gone[i].fate == Processed <==> gone[i].batch.service != STOP)
    ensures With(gone, Processed) == NotStop(Batches(gone))
    decreases |gone|
  {
    if gone != [] {
      var init := gone[..|gone| - 1];
      ProcessedIsRest(init);
      assert Batches(gone)[..|Batches(gone)| - 1] == Batches(init);
    }
  }

  lemma {:induction false} NoneEvicted(gone: seq<Gone>)
    requires With(gone, Evicted) == []
    ensures forall i :: 0 <= i < |gone| ==> gone[i].fate != Evicted
    decreases |gone|
  {
    if gone != [] {
      NoneEvicted(gone[..|gone| - 1]);
      assert gone[|gone| - 1].fate != Evicted;
    }
  }

  /** The task ends normally only with an empty queue, so everything accepted has left it in order. */
  lemma EndsDrained(c: Config, steps: seq<Step>)
    requires Possible(c, steps) && steps != [] && steps[|steps| - 1] == Finish
    ensures var s := After(c, steps);
            s.phase == Done && s.queue == [] && Batches(s.gone) == s.accepted
  {
    RunKeeps(c, steps);
    var s := After(c, steps);
    assert Batches(s.gone) + [] == Batches(s.gone);
  }

  /**
   In reject mode the batches processed are the accepted client batches, in order, without those
   named like the sentinel.
   */
  lemma RejectModeLosesNothing(c: Config, steps: seq<Step>)
    requires c.mode == Reject
    requires Possible(c, steps) && steps != [] && steps[|steps| - 1] == Finish
    ensures var s := After(c, steps); With(s.gone, Processed) == NotStop(s.clients)
  {
    EndsDrained(c, steps);
    RunKeeps(c, steps);
    var s := After(c, steps);
    NoneEvicted(s.gone);
    ProcessedIsRest(s.gone);
  }

  lemma {:induction false} NotStopIsAll(batches: seq<Batch>)
    ensures NotStop(batches) == batches <==> forall i :: 0 <= i < |batches| ==> batches[i].service != STOP
    ensures |NotStop(batches)| <= |batches|
    decreases |batches|
  {
    if batches != [] {
      var init, last := batches[..|batches| - 1], batches[|batches| - 1];
      NotStopIsAll(init);
      if last.service != STOP {
        assert batches == init + [last];
        if NotStop(batches) == batches {
          assert NotStop(init) == NotStop(batches)[..|batches| - 1];
        }
      } else {
        assert |NotStop(batches)| <= |init|;
      }
    }
  }

  /** In drop_oldest mode a batch is never refused, and what is evicted is the oldest item still queued. */
  lemma EvictsOldest(c: Config, steps: seq<Step>, b: Batch)
    requires c.mode == DropOldest && Possible(c, steps)
    ensures var s := After(c, steps);
            var s1 := Next(c, s, Enqueue(b));
            && s1.clients == s.clients + [b] && s1.rejections == s.rejections
            && (if Full(c, s)
                then |s.gone| < |s.accepted| && s1.gone == s.gone + [Gone(s.accepted[|s.gone|], Evicted)]
                else s1.gone == s.gone)
  {
    RunKeeps(c, steps);
    var s := After(c, steps);
    BatchesLength(s.gone);
    if Full(c, s) { assert s.accepted[|s.gone|] == s.queue[0]; }
  }

  lemma {:induction false} BatchesLength(gone: seq<Gone>)
    ensures |Batches(gone)| == |gone|
    ensures forall i :: 0 <= i < |gone| ==> Batches(gone)[i] == gone[i].batch
    decreases |gone|
  {
    if gone != [] { BatchesLength(gone[..|gone| - 1]); }
  }

  /**
   In drop_oldest mode what is processed is what was accepted, position by position, minus the
   evicted and the sentinels.
   */
  lemma DropOldestProcessesTheRest(c: Config, steps: seq<Step>)
    requires Possible(c, steps) && steps != [] && steps[|steps| - 1] == Finish
    ensures var s := After(c, steps);
            && |s.gone| == |s.accepted|
            && (forall i :: 0 <= i < |s.gone| ==> s.gone[i].batch == s.accepted[i])
            && (forall i :: 0 <= i < |s.gone| && s.gone[i].fate != Evicted ==>
                  (s.gone[i].fate == Processed <==> s.accepted[i].service != STOP))
  {
    EndsDrained(c, steps);
    RunKeeps(c, steps);
    BatchesLength(After(c, steps).gone);
  }

  /** The running flag, which says nothing about whether the task still lives, is up until stop() is called. */
  lemma {:induction false} FlagIsUpUntilStop(c: Config, steps: seq<Step>)
    requires Possible(c, steps)
    ensures After(c, steps).running <==> Stop !in steps
    decreases |steps|
  {
    if steps != [] {
      FlagIsUpUntilStop(c, steps[..|steps| - 1]);
      assert steps == steps[..|steps| - 1] + [steps[|steps| - 1]];
    }
  }

  // ----- the task does end --------------------------------------------------

  function Rank(s: State): nat {
    match s.phase case Waiting => 3 case AtTop => 2 case Draining => 1 case Done => 0 case Failed => 0
  }

  predicate Ended(s: State) {
    s.phase in {Done, Failed}
  }

  // ----- what an ended task leaves behind -----------------------------------

  lemma Extend(c: Config, steps: seq<Step>, step: Step)
    requires Possible(c, steps) && Enabled(After(c, steps), step)
    ensures Possible(c, steps + [step]) && After(c, steps + [step]) == Next(c, After(c, steps), step)
  {
    assert (steps + [step])[..|steps|] == steps;
  }

  /** While stop() has not been called, every item was put by a client. */
  lemma {:induction false} OnlyClientsBeforeStop(c: Config, steps: seq<Step>)
    requires Possible(c, steps) && Stop !in steps
    ensures After(c, steps).accepted == After(c, steps).clients
    decreases |steps|
  {
    if steps != [] { OnlyClientsBeforeStop(c, steps[..|steps| - 1]); }
  }

  /** The i-th item ever put was fetched and taken for the sentinel. */
  predicate DiscardedAt(s: State, i: nat) {
    i < |s.gone| && s.gone[i].fate == Discarded
  }

  lemma {:induction false} DiscardedOrStopped(c: Config, steps: seq<Step>)
    requires Possible(c, steps) && After(c, steps).phase !in {AtTop, Waiting}
    ensures Stop in steps || exists i: nat :: DiscardedAt(After(c, steps), i)
    decreases |steps|
  {
    var init, step := steps[..|steps| - 1], steps[|steps| - 1];
    var s, s1 := After(c, init), After(c, steps);
    if s.phase !in {AtTop, Waiting} {
      DiscardedOrStopped(c, init);
      if Stop !in init {
        var i: nat :| DiscardedAt(s, i);
        assert DiscardedAt(s1, i);
      }
    } else if step == TestRunning {
      FlagIsUpUntilStop(c, init);
    } else {
      assert DiscardedAt(s1, |s.gone|);
    }
  }

  /**
   The task leaves its main loop only if stop() was called, or it fetched a batch a client named
   like the sentinel.
   */
  lemma LeavesLoopOnlyIf(c: Config, steps: seq<Step>)
    requires Possible(c, steps) && After(c, steps).phase !in {AtTop, Waiting}
    ensures var s := After(c, steps);
            Stop in steps ||
            exists i: nat ::
                DiscardedAt(s, i) && i < |s.clients| && s.gone[i].batch == s.clients[i] && s.clients[i].service == STOP
  {
    hide Possible, After;
    var s := After(c, steps);
    if Stop !in steps {
      DiscardedOrStopped(c, steps);
      OnlyClientsBeforeStop(c, steps);
      RunKeeps(c, steps);
      BatchesLength(s.gone);
      var i: nat :| DiscardedAt(s, i);
      assert s.clients[i] == Batches(s.gone)[i] && FateOk(s.gone[i]);
    }
  }

  /** How far a run goes until its task has ended. */
  function EndOf(c: Config, steps: seq<Step>): (n: nat)
    requires Possible(c, steps) && Ended(After(c, steps))
    ensures 0 < n <= |steps| && Possible(c, steps[..n]) && Ended(After(c, steps[..n]))
    decreases |steps|
  {
    if Ended(After(c, steps[..|steps| - 1])) then
      var n := EndOf(c, steps[..|steps| - 1]);
      assert steps[..|steps| - 1][..n] == steps[..n];
      n
    else assert steps[..|steps|] == steps; |steps|
  }

  function AtEnd(c: Config, steps: seq<Step>): State
    requires Possible(c, steps) && Ended(After(c, steps))
  {
    After(c, steps[..EndOf(c, steps)])
  }

  /** What later steps can do to an ended task: put items, and evict them. */
  ghost predicate Outlives(s: State, s1: State) {
    && s1.phase == s.phase && s.gone <= s1.gone && s.accepted <= s1.accepted
    && forall i :: |s.gone| <= i < |s1.gone| ==> s1.gone[i].fate == Evicted
  }

  lemma OutlivesStep(c: Config, e: State, s: State, step: Step)
    requires Ended(e) && Outlives(e, s) && Enabled(s, step)
    ensures Outlives(e, Next(c, s, step)) && (step.Enqueue? || step.Stop?)
  {
  }

  /** An ended task stays ended: in every continuation no step of the consumer happens and nothing more is processed. */
  lemma {:induction false} EndIsPermanent(c: Config, steps: seq<Step>, more: seq<Step>)
    requires Possible(c, steps + more) && Possible(c, steps) && Ended(After(c, steps))
    ensures Outlives(After(c, steps), After(c, steps + more))
    ensures forall step :: step in more ==> step.Enqueue? || step.Stop?
    decreases |more|
  {
    if more == [] {
      assert steps + more == steps;
    } else {
      var init, step := more[..|more| - 1], more[|more| - 1];
      assert (steps + more)[..|steps + more| - 1] == steps + init;
      assert more == init + [step];
      EndIsPermanent(c, steps, init);
      hide Outlives, Next, Enabled;
      OutlivesStep(c, After(c, steps), After(c, steps + init), step);
    }
  }

  /** At its end the task has worked off all there was, or it failed over the item it fetched last. */
  lemma EndMeans(c: Config, steps: seq<Step>)
    requires Possible(c, steps) && Ended(After(c, steps))
    ensures var e := AtEnd(c, steps);
            && Outlives(e, After(c, steps)) && |e.accepted| == |e.gone| + |e.queue|
            && (e.phase == Done ==> e.queue == [])
            && (e.phase == Failed ==> e.gone != [] && var last := e.gone[|e.gone| - 1];
                  last.fate == Processed && last.batch.payload in c.raises)
  {
    hide Possible, After;
    var n := EndOf(c, steps);
    assert steps == steps[..n] + steps[n..];
    EndIsPermanent(c, steps[..n], steps[n..]);
    RunKeeps(c, steps[..n]);
    BatchesLength(AtEnd(c, steps).gone);
    EndStep(c, steps);
  }

  /** How the task can have ended. */
  predicate EndedAs(c: Config, e: State) {
    && (e.phase == Done ==> e.queue == [])
    && (e.phase == Failed ==> e.gone != [] && var last := e.gone[|e.gone| - 1];
          last.fate == Processed && last.batch.payload in c.raises)
  }

  lemma EndingStep(c: Config, s: State, step: Step)
    requires Enabled(s, step) && !Ended(s) && Ended(Next(c, s, step))
    ensures EndedAs(c, Next(c, s, step))
  {
  }

  lemma {:induction false} EndStep(c: Config, steps: seq<Step>)
    requires Possible(c, steps) && Ended(After(c, steps))
    ensures EndedAs(c, AtEnd(c, steps))
    decreases |steps|
  {
    var init := steps[..|steps| - 1];
    assert steps != [];
    if Ended(After(c, init)) {
      EndStep(c, init);
      assert init[..EndOf(c, init)] == steps[..EndOf(c, steps)];
    } else {
      assert steps[..|steps|] == steps;
      EndingStep(c, After(c, init), steps[|steps| - 1]);
    }
    hide EndedAs, Next;
  }

  /** The i-th item ever put has been processed. */
  predicate ProcessedAt(s: State, i: nat) {
    i < |s.gone| && s.gone[i].fate == Processed
  }

  ghost predicate NeverProcessed(c: Config, steps: seq<Step>, i: nat) {
    forall more :: Possible(c, steps + more) ==> !ProcessedAt(After(c, steps + more), i)
  }

  /** Once the task has ended, what has not been processed never will be. */
  lemma NeverIffNotYet(c: Config, steps: seq<Step>, i: nat)
    requires Possible(c, steps) && Ended(After(c, steps)) && i < |After(c, steps).accepted|
    ensures NeverProcessed(c, steps, i) <==> !ProcessedAt(After(c, steps), i)
  {
    assert steps + [] == steps;
    if !ProcessedAt(After(c, steps), i) {
      forall more | Possible(c, steps + more) ensures !ProcessedAt(After(c, steps + more), i) {
        EndIsPermanent(c, steps, more);
      }
    }
  }

  /** It was still queued when processing an earlier item raised in the drain. */
  predicate BehindFailure(c: Config, steps: seq<Step>, i: nat)
    requires Possible(c, steps) && Ended(After(c, steps))
  {
    var e := AtEnd(c, steps);
    e.phase == Failed && |e.gone| <= i < |e.accepted|
  }

  predicate PutAfterEnd(c: Config, steps: seq<Step>, i: nat)
    requires Possible(c, steps) && Ended(After(c, steps))
  {
    |AtEnd(c, steps).accepted| <= i
  }

  predicate EvictedAt(s: State, i: nat) {
    i < |s.gone| && s.gone[i].fate == Evicted
  }

  /**
   In both modes: an accepted item is never processed, however an ended run goes on, if
   and only if it was evicted, carries the sentinel's name, was queued behind one that
   made the drain raise, or was put after the task had ended.
   */
  lemma LostIff(c: Config, steps: seq<Step>, i: nat)
    requires Possible(c, steps) && Ended(After(c, steps)) && i < |After(c, steps).accepted|
    ensures NeverProcessed(c, steps, i) <==>
            || EvictedAt(After(c, steps), i)
            || After(c, steps).accepted[i].service == STOP
            || BehindFailure(c, steps, i)
            || PutAfterEnd(c, steps, i)
  {
    var s := After(c, steps);
    NeverIffNotYet(c, steps, i);
    EndMeans(c, steps);
    RunKeeps(c, steps);
    BatchesLength(s.gone);
    if i < |s.gone| { assert FateOk(s.gone[i]) && s.accepted[i] == Batches(s.gone)[i]; }
  }

  lemma {:induction false} NotStopJoins(a: seq<Batch>, b: seq<Batch>)
    ensures NotStop(a + b) == NotStop(a) + NotStop(b)
    decreases |b|
  {
    if b == [] {
      assert a + b == a && NotStop(a) + [] == NotStop(a);
    } else {
      var init := b[..|b| - 1];
      assert (a + b)[..|a + b| - 1] == a + init;
      NotStopJoins(a, init);
      assert NotStop(init) + [] == NotStop(init);
    }
  }

  lemma {:induction false} NotStopEmpty(batches: seq<Batch>)
    ensures NotStop(batches) == [] <==> forall i :: 0 <= i < |batches| ==> batches[i].service == STOP
    decreases |batches|
  {
    if batches != [] { NotStopEmpty(batches[..|batches| - 1]); }
  }

  lemma {:induction false} NothingEvicted(c: Config, steps: seq<Step>)
    requires c.mode == Reject && Possible(c, steps)
    ensures With(After(c, steps).gone, Processed) == NotStop(Batches(After(c, steps).gone))
  {
    var s := After(c, steps);
    RunKeeps(c, steps);
    NoneEvicted(s.gone);
    ProcessedIsRest(s.gone);
  }

  /**
   After an ended run in reject mode the batches processed are all those clients had
   accepted if and only if none of them carries the sentinel's name and nothing but
   sentinels is left in the queue.
   */
  lemma LossIffRejectMode(c: Config, steps: seq<Step>)
    requires c.mode == Reject && Possible(c, steps)
    ensures var s := After(c, steps);
            With(s.gone, Processed) == s.clients <==>
            && (forall i :: 0 <= i < |s.clients| ==> s.clients[i].service != STOP)
            && (forall i :: 0 <= i < |s.queue| ==> s.queue[i].service == STOP)
  {
    var s := After(c, steps);
    RunKeeps(c, steps);
    NothingEvicted(c, steps);
    NotStopJoins(Batches(s.gone), s.queue);
    NotStopIsAll(s.clients);
    NotStopEmpty(s.queue);
    assert NotStop(Batches(s.gone)) + [] == NotStop(Batches(s.gone));
  }

  /**
   A batch whose processing raises during the drain, and nothing else, ends the task
   there: what is queued behind it is not processed in any continuation.
   */
  lemma DrainFailureStrands(c: Config, steps: seq<Step>)
    requires Possible(c, steps) && Enabled(After(c, steps), Drain)
    ensures var s := After(c, steps);
            && Possible(c, steps + [Drain])
            && (After(c, steps + [Drain]).phase == Failed <==> !Harmless(c, s.queue[0]))
            && (!Harmless(c, s.queue[0]) ==>
                  forall i: nat :: |s.gone| < i ==> NeverProcessed(c, steps + [Drain], i))
  {
    Extend(c, steps, Drain);
    var s, steps1 := After(c, steps), steps + [Drain];
    if !Harmless(c, s.queue[0]) {
      forall i: nat, more | |s.gone| < i && Possible(c, steps1 + more)
        ensures !ProcessedAt(After(c, steps1 + more), i)
      {
        EndIsPermanent(c, steps1, more);
      }
    }
  }

  lemma OrderlyStop(c: Config)
    ensures var steps := [Stop, TestRunning, Drain, Finish];
            && Possible(c, steps)
            && After(c, steps) == State([], false, Done, [STOPITEM], [], [Gone(STOPITEM, Discarded)], 0, 0)
  {
    var r1, r2, r3 := [Stop], [Stop, TestRunning], [Stop, TestRunning, Drain];
    assert [] + [Stop] == r1 && r1 + [TestRunning] == r2 && r2 + [Drain] == r3;
    assert r3 + [Finish] == [Stop, TestRunning, Drain, Finish];
    Extend(c, [], Stop);
    hide Possible, After;
    assert After(c, r1) == State([STOPITEM], false, AtTop, [STOPITEM], [], [], 0, 0);
    Extend(c, r1, TestRunning);
    Extend(c, r2, Drain);
    Extend(c, r3, Finish);
  }

  /** A batch can be accepted after an orderly stop, and then nobody is called like the sentinel and it is lost. */
  lemma AcceptedAfterStopIsLost(c: Config, b: Batch)
    ensures var steps := [Stop, TestRunning, Drain, Finish, Enqueue(b)];
            && Possible(c, steps) && After(c, steps).clients == [b] && After(c, steps).accepted == [STOPITEM, b]
            && Ended(After(c, steps)) && NeverProcessed(c, steps, 1)
  {
    hide Possible, After;
    var ended := [Stop, TestRunning, Drain, Finish];
    assert ended + [Enqueue(b)] == [Stop, TestRunning, Drain, Finish, Enqueue(b)];
    OrderlyStop(c);
    Extend(c, ended, Enqueue(b));
    NeverIffNotYet(c, ended + [Enqueue(b)], 1);
  }

  lemma StoppedByName(c: Config)
    ensures var steps := [Enqueue(STOPITEM), TestRunning, Get, Finish];
            && Possible(c, steps)
            && After(c, steps) == State([], true, Done, [STOPITEM], [STOPITEM], [Gone(STOPITEM, Discarded)], 0, 0)
  {
    var put := Enqueue(STOPITEM);
    var r1, r2, r3 := [put], [put, TestRunning], [put, TestRunning, Get];
    assert [] + [put] == r1 && r1 + [TestRunning] == r2 && r2 + [Get] == r3;
    assert r3 + [Finish] == [put, TestRunning, Get, Finish];
    Extend(c, [], put);
    hide Possible, After;
    assert After(c, r1) == State([STOPITEM], true, AtTop, [STOPITEM], [STOPITEM], [], 0, 0);
    Extend(c, r1, TestRunning);
    Extend(c, r2, Get);
    Extend(c, r3, Finish);
  }

  /** A client called like the sentinel ends the task while the flag stays up: the next batch is accepted and lost. */
  lemma SentinelNameEndsTheTask(c: Config, b: Batch)
    ensures var ended := [Enqueue(STOPITEM), TestRunning, Get, Finish];
            && Possible(c, ended) && After(c, ended).running && After(c, ended).phase == Done
            && Possible(c, ended + [Enqueue(b)]) && After(c, ended + [Enqueue(b)]).accepted == [STOPITEM, b]
            && NeverProcessed(c, ended + [Enqueue(b)], 1)
  {
    hide Possible, After;
    var ended := [Enqueue(STOPITEM), TestRunning, Get, Finish];
    StoppedByName(c);
    Extend(c, ended, Enqueue(b));
    NeverIffNotYet(c, ended + [Enqueue(b)], 1);
  }

  // ----- the consumer after stop() --------------------------------------------

  /** The consumer alone, for as many of its steps as are given. */
  predicate ConsumerRuns(c: Config, s: State, steps: seq<Step>)
    decreases |steps|
  {
    steps == [] ||
    (steps[0] in {TestRunning, Timeout, Get, Drain, Finish} && Enabled(s, steps[0]) &&
     ConsumerRuns(c, Next(c, s, steps[0]), steps[1..]))
  }

  /**
   Once stop() was called and nothing more is put, the consumer cannot take more than
   |queue| + 3 further steps, whichever timeouts occur, and it can always take one until it has ended.
   */
  lemma {:induction false} StopLeadsToEnd(c: Config, s: State, steps: seq<Step>)
    requires !s.running && ConsumerRuns(c, s, steps)
    ensures |steps| <= Rank(s) + |s.queue|
    ensures !Ended(s) ==> exists step :: step in {TestRunning, Timeout, Drain, Finish} && ConsumerRuns(c, s, [step])
    decreases |steps|
  {
    if !Ended(s) {
      var step :=
        match s.phase
        case AtTop => TestRunning
        case Waiting => Timeout
        case _ => if s.queue == [] then Finish else Drain;
      assert [step][1..] == [] && ConsumerRuns(c, s, [step]);
    }
    if steps != [] { StopLeadsToEnd(c, Next(c, s, steps[0]), steps[1..]); }
  }

  /** The whole drain when nothing comes in between, as on the event loop. */
  function Drained(c: Config, s: State): State
    requires s.phase == Draining
    decreases |s.queue|
  {
    if s.queue == [] then Next(c, s, Finish)
    else var s1 := Next(c, s, Drain); if s1.phase == Failed then s1 else Drained(c, s1)
  }

  lemma {:induction false} DrainKeeps(c: Config, s: State)
    requires s.phase == Draining && Inv(c, s)
    ensures Inv(c, Drained(c, s))
    ensures Drained(c, s).accepted == s.accepted && Drained(c, s).clients == s.clients
    decreases |s.queue|
  {
    if s.queue != [] {
      StepKeeps(c, s, Drain);
      if Next(c, s, Drain).phase != Failed { DrainKeeps(c, Next(c, s, Drain)); }
    }
  }

  /** The drain empties the queue if and only if nothing in it makes processing raise. */
  lemma {:induction false} DrainEmptiesIff(c: Config, s: State)
    requires s.phase == Draining
    ensures var s1 := Drained(c, s);
            && s1.phase in {Done, Failed}
            && (s1.phase == Done ==> s1.queue == [])
            && (s1.phase == Done <==> forall b :: b in s.queue ==> Harmless(c, b))
    decreases |s.queue|
  {
    if s.queue != [] {
      var s1 := Next(c, s, Drain);
      assert s.queue == [s.queue[0]] + s1.queue;
      assert forall b :: b in s.queue <==> b == s.queue[0] || b in s1.queue;
      assert s1.phase == Failed <==> !Harmless(c, s.queue[0]);
      if s1.phase != Failed { DrainEmptiesIff(c, s1); }
    }
  }

  // ----- the object ---------------------------------------------------------

  /** The worker: each method is one uninterrupted stretch of code between two awaits. */
  class IngestionWorker {
    const config: Config
    var queue: seq<Batch>
    var running: bool
    var phase: Phase
    var rejections: nat
    var evictions: nat
    ghost var accepted: seq<Batch>
    ghost var clients: seq<Batch>
    ghost var gone: seq<Gone>

    ghost function View(): State
      reads this
    {
      State(queue, running, phase, accepted, clients, gone, rejections, evictions)
    }

    constructor (config: Config)
      ensures this.config == config && View() == START
    {
      this.config := config;
      queue, running, phase, rejections, evictions := [], true, AtTop, 0, 0;
      accepted, clients, gone := [], [], [];
    }

    predicate QueueFull()
      reads this
    {
      config.maxsize > 0 && |queue| >= config.maxsize
    }

    method GetNowait(ghost fate: Fate) returns (b: Batch)
      requires queue != []
      modifies this
      ensures View() == Take(old(View()), fate) && b == old(queue)[0]
    {
      b := queue[0];
      gone := gone + [Gone(b, fate)];
      queue := queue[1..];
    }

    method PutNowait(b: Batch)
      modifies this
      ensures View() == Put(old(View()), b)
    {
      queue := queue + [b];
      accepted := accepted + [b];
    }

    /** lines 96-157 */
    method EnqueueBatch(b: Batch) returns (ok: bool)
      modifies this
      ensures View() == Next(config, old(View()), Enqueue(b))
      ensures ok <==> config.maxsize == 0 || |old(queue)| < config.maxsize || config.mode == DropOldest
    {
      if QueueFull() {
        if config.mode == DropOldest {
          var oldest := GetNowait(Evicted);
          evictions := evictions + 1;
        } else {
          rejections := rejections + 1;
          return false;
        }
      }
      PutNowait(b);
      clients := clients + [b];
      ok := true;
    }

    /** lines 83-89 */
    method SignalStop()
      modifies this
      ensures View() == Next(config, old(View()), Stop)
    {
      running := false;
      if !QueueFull() { PutNowait(STOPITEM); }
    }

    /** lines 164-185: one pass of the main loop from its test or from its wake-up to the next await */
    method MainLoopStep(timedOut: bool) returns (ghost step: Step)
      requires phase == AtTop || (phase == Waiting && (timedOut || queue != []))
      modifies this
      ensures Enabled(old(View()), step) && View() == Next(config, old(View()), step)
      ensures step in {TestRunning, Timeout, Get}
    {
      if phase == AtTop {
        phase := if running then Waiting else Draining;
        return TestRunning;
      }
      if timedOut { phase := AtTop; return Timeout; }
      var b := GetNowait(if queue[0].service == STOP then Discarded else Processed);
      phase := if b.service == STOP then Draining else AtTop;
      step := Get;
    }

    /** lines 187-196: the whole drain */
    method FinalDrain()
      requires phase == Draining
      modifies this
      ensures View() == Drained(config, old(View()))
    {
      while queue != []
        invariant phase == Draining
        invariant Drained(config, View()) == Drained(config, old(View()))
        decreases |queue|
      {
        var b := GetNowait(if queue[0].service == STOP then Discarded else Processed);
        if b.service != STOP && b.payload in config.raises { phase := Failed; return; }
      }
      phase := Done;
    }
  }
}
