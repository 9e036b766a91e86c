/**
 Callbacks installed on a graph of ADK agents, which may be cyclic or shared, and
 taken back afterwards. Source: src/rastir/adk_support.py:141-319, driven by
 src/rastir/framework_base.py:159-188.
 */
module AdkInstall {
  datatype Slot = BeforeModel | AfterModel | OnModelError | BeforeTool | AfterTool | OnToolError

  /** A function of the user, or the one made for a slot of an agent. */
  datatype Function = UserFunction(n: nat) | SpanFunction(owner: AdkAgent, slot: Slot)

  /** What ADK accepts in a callback slot. */
  datatype Callback = Nothing | Single(f: Function) | List(fs: seq<Function>)

  datatype Slots = Slots(
    beforeModel: Callback, afterModel: Callback, onModelError: Callback,
    beforeTool: Callback, afterTool: Callback, onToolError: Callback)

  function Get(s: Slots, slot: Slot): Callback {
    match slot
    case BeforeModel => s.beforeModel
    case AfterModel => s.afterModel
    case OnModelError => s.onModelError
    case BeforeTool => s.beforeTool
    case AfterTool => s.afterTool
    case OnToolError => s.onToolError
  }

  /** The functions ADK will run, in order. */
  function Chain(c: Callback): seq<Function> {
    match c case Nothing => [] case Single(f) => [f] case List(fs) => fs
  }

  /** lines 297-303 */
  function PrependCallback(existing: Callback, f: Function): (r: Callback)
    ensures Chain(r) == [f] + Chain(existing)
    ensures r.Single? <==> existing == Nothing
  {
    match existing
    case Nothing => Single(f)
    case List(fs) => List([f] + fs)
    case Single(g) => List([f, g])
  }

  class AdkAgent {
    const isAgent: bool             // _is_adk_agent
    var subAgents: seq<AdkAgent>
    var callbacks: Slots
  }

  class AdkRunner {
    var agent: AdkAgent?
    var hiddenAgent: AdkAgent?      // _agent
  }

  /** An argument of the decorated function. */
  datatype Argument = RunnerArgument(runner: AdkRunner) | AgentArgument(agent: AdkAgent) | OtherArgument

  datatype Edit = Edit(agent: AdkAgent, callbacks: Slots)

  datatype Entry = RunnerEntry(runner: AdkRunner) | AgentEntry(agent: AdkAgent, saved: Slots)

  ghost predicate Closed(agents: set<AdkAgent>)
    reads agents
  {
    forall a :: a in agents ==> forall k ::
        0 <= k < |a.subAgents| && a.subAgents[k].isAgent ==> a.subAgents[k] in agents
  }

  /** Every slot runs our function first and then what it ran before. */
  ghost predicate Instrumented(a: AdkAgent, was: Slots)
    reads a
  {
    forall slot: Slot :: Chain(Get(a.callbacks, slot)) == [SpanFunction(a, slot)] + Chain(Get(was, slot))
  }

  function WithOurs(a: AdkAgent, was: Slots): Slots {
    Slots(PrependCallback(was.beforeModel, SpanFunction(a, BeforeModel)),
          PrependCallback(was.afterModel, SpanFunction(a, AfterModel)),
          PrependCallback(was.onModelError, SpanFunction(a, OnModelError)),
          PrependCallback(was.beforeTool, SpanFunction(a, BeforeTool)),
          PrependCallback(was.afterTool, SpanFunction(a, AfterTool)),
          PrependCallback(was.onToolError, SpanFunction(a, OnToolError)))
  }

  lemma WithOursInstruments(a: AdkAgent, was: Slots)
    requires a.callbacks == WithOurs(a, was)
    ensures Instrumented(a, was)
  {
  }

  /** Slots whose assignment raises during the restore; the exception is swallowed and the slot keeps what it holds. */
  type Refusals = set<(AdkAgent, Slot)>

  function PutBackSlot(a: AdkAgent, slot: Slot, now: Slots, saved: Slots, refused: Refusals): Callback {
    if (a, slot) in refused then Get(now, slot) else Get(saved, slot)
  }

  function PutBack(a: AdkAgent, now: Slots, saved: Slots, refused: Refusals): Slots {
    Slots(PutBackSlot(a, BeforeModel, now, saved, refused), PutBackSlot(a, AfterModel, now, saved, refused),
          PutBackSlot(a, OnModelError, now, saved, refused), PutBackSlot(a, BeforeTool, now, saved, refused),
          PutBackSlot(a, AfterTool, now, saved, refused), PutBackSlot(a, OnToolError, now, saved, refused))
  }

  /** An agent is as before if and only if no slot that holds something else refuses. */
  lemma PutBackIff(a: AdkAgent, now: Slots, saved: Slots, refused: Refusals)
    ensures PutBack(a, now, saved, refused) == saved <==>
            forall slot: Slot :: (a, slot) in refused ==> Get(now, slot) == Get(saved, slot)
    ensures forall slot: Slot :: Get(PutBack(a, now, saved, refused), slot) ==
              if (a, slot) in refused then Get(now, slot) else Get(saved, slot)
  {
    forall slot: Slot ensures Get(PutBack(a, now, saved, refused), slot) == PutBackSlot(a, slot, now, saved, refused) {
    }
    SlotsEqual(PutBack(a, now, saved, refused), saved);
  }

  lemma SlotsEqual(s: Slots, t: Slots)
    ensures s == t <==> forall slot: Slot :: Get(s, slot) == Get(t, slot)
  {
    if forall slot: Slot :: Get(s, slot) == Get(t, slot) {
      assert Get(s, BeforeModel) == Get(t, BeforeModel) && Get(s, AfterModel) == Get(t, AfterModel);
      assert Get(s, OnModelError) == Get(t, OnModelError) && Get(s, BeforeTool) == Get(t, BeforeTool);
      assert Get(s, AfterTool) == Get(t, AfterTool) && Get(s, OnToolError) == Get(t, OnToolError);
    }
  }

  /** The agents a log has an entry for. */
  ghost function Agents(log: seq<Entry>): set<AdkAgent> {
    set i | 0 <= i < |log| && log[i].AgentEntry? :: log[i].agent
  }

  lemma AgentsAppend(log: seq<Entry>, e: Entry)
    ensures Agents(log + [e]) == Agents(log) + if e.AgentEntry? then {e.agent} else {}
  {
    forall a | a in Agents(log) ensures a in Agents(log + [e]) {
      var i :| 0 <= i < |log| && log[i].AgentEntry? && log[i].agent == a;
      assert (log + [e])[i] == log[i];
    }
    assert (log + [e])[|log|] == e;
  }

  /** Each agent is logged once, with the callbacks it had at the start. */
  ghost predicate LogOk(log: seq<Entry>, before: map<AdkAgent, Slots>) {
    && Agents(log) <= before.Keys
    && (forall i, j :: 0 <= i < j < |log| && log[i].AgentEntry? && log[j].AgentEntry? ==> log[i].agent != log[j].agent)
    && (forall i ::
           0 <= i < |log| && log[i].AgentEntry? ==> log[i].agent in before && log[i].saved == before[log[i].agent])
  }

  class AdkInstrumentor {
    var originals: seq<Entry>                 // a dict keyed by id(), in insertion order
    var budget: nat                           // attribute accesses left before one of them raises
    ghost const world: set<AdkAgent>          // all agents there are
    ghost const before: map<AdkAgent, Slots>  // their callbacks at the start

    ghost predicate Valid()
      reads this, world
    {
      && Closed(world) && before.Keys == world && LogOk(originals, before)
      && (forall a :: a in world - Agents(originals) ==> a.callbacks == before[a])
    }

    /** The sub-agents of everything recorded are recorded too. */
    ghost predicate Finished(done: set<AdkAgent>)
      reads this, world
      requires Valid() && done <= world
    {
      forall a :: a in done ==>
        Instrumented(a, before[a]) && forall k ::
            0 <= k < |a.subAgents| && a.subAgents[k].isAgent ==> a.subAgents[k] in Agents(originals)
    }

    constructor (ghost world: set<AdkAgent>, budget: nat)
      requires Closed(world)
      ensures Valid() && this.world == world && originals == []
      ensures forall a :: a in world ==> before[a] == a.callbacks
    {
      this.originals, this.budget, this.world := [], budget, world;
      this.before := map a | a in world :: a.callbacks;
    }

    /** Every attribute access of the installation may raise. */
    method Step() returns (ok: bool)
      modifies this`budget
    {
      ok := budget > 0;
      if ok { budget := budget - 1; }
    }

    method Recorded(agent: AdkAgent) returns (b: bool)
      ensures b == (agent in Agents(originals))
    {
      b := false;
      for i := 0 to |originals|
        invariant !b && forall j :: 0 <= j < i && originals[j].AgentEntry? ==> originals[j].agent != agent
      {
        if originals[i].AgentEntry? && originals[i].agent == agent { return true; }
      }
    }

    /** lines 168-179: the entry is made before anything is changed */
    method Save(agent: AdkAgent)
      requires Valid() && agent in world - Agents(originals)
      modifies this`originals
      ensures Valid() && Agents(originals) == old(Agents(originals)) + {agent} && old(originals) <= originals
    {
      AgentsAppend(originals, AgentEntry(agent, agent.callbacks));
      originals := originals + [AgentEntry(agent, agent.callbacks)];
    }

    /** lines 269-287: six assignments, any of which may be the last */
    method SetCallbacks(agent: AdkAgent) returns (ok: bool)
      modifies this`budget, agent`callbacks
      ensures ok ==> Instrumented(agent, old(agent.callbacks))
    {
      ok := Step();
      if !ok { return; }
      agent.callbacks := agent.callbacks.(
        beforeModel := PrependCallback(agent.callbacks.beforeModel, SpanFunction(agent, BeforeModel)));
      ok := Step();
      if !ok { return; }
      agent.callbacks := agent.callbacks.(
        afterModel := PrependCallback(agent.callbacks.afterModel, SpanFunction(agent, AfterModel)));
      ok := Step();
      if !ok { return; }
      agent.callbacks := agent.callbacks.(
        onModelError := PrependCallback(agent.callbacks.onModelError, SpanFunction(agent, OnModelError)));
      ok := Step();
      if !ok { return; }
      agent.callbacks := agent.callbacks.(
        beforeTool := PrependCallback(agent.callbacks.beforeTool, SpanFunction(agent, BeforeTool)));
      ok := Step();
      if !ok { return; }
      agent.callbacks := agent.callbacks.(
        afterTool := PrependCallback(agent.callbacks.afterTool, SpanFunction(agent, AfterTool)));
      ok := Step();
      if !ok { return; }
      agent.callbacks := agent.callbacks.(
        onToolError := PrependCallback(agent.callbacks.onToolError, SpanFunction(agent, OnToolError)));
      WithOursInstruments(agent, old(agent.callbacks));
    }

    /**
     lines 155-294, for any set of agents closed under sub-agents that holds the agent:
     nothing outside it is touched, an agent already in the log is left alone, and a walk
     that is not stopped records and instruments every agent it can reach.
     */
    method InstallAdkCallbacks(agent: AdkAgent, ghost scope: set<AdkAgent>) returns (ok: bool)
      requires Valid() && agent in scope && scope <= world && Closed(scope)
      modifies this`originals, this`budget, (scope - Agents(originals))`callbacks
      ensures Valid() && old(Agents(originals)) <= Agents(originals) <= old(Agents(originals)) + scope
      ensures ok ==> agent in Agents(originals) && Finished(Agents(originals) - old(Agents(originals)))
      decreases scope - Agents(originals), 0
    {
      hide Instrumented;
      var known := Recorded(agent);
      if known { return true; }
      ok := Step();
      if !ok { return; }
      Save(agent);
      ok := SetCallbacks(agent);
      if !ok { return; }
      ok := InstallSubAgents(agent, scope);
    }

    method InstallIfAgent(sub: AdkAgent, ghost scope: set<AdkAgent>) returns (ok: bool)
      requires Valid() && (sub.isAgent ==> sub in scope) && scope <= world && Closed(scope)
      modifies this`originals, this`budget, (scope - Agents(originals))`callbacks
      ensures Valid()
      ensures old(Agents(originals)) <= Agents(originals) <= old(Agents(originals)) + scope
      ensures ok ==> (sub.isAgent ==> sub in Agents(originals)) && Finished(Agents(originals) - old(Agents(originals)))
      decreases scope - Agents(originals), 1
    {
      ok := Step();
      if ok && sub.isAgent { ok := InstallAdkCallbacks(sub, scope); }
    }

    /** lines 289-294 */
    method InstallSubAgents(agent: AdkAgent, ghost scope: set<AdkAgent>) returns (ok: bool)
      requires Valid() && agent in scope && agent in Agents(originals) && scope <= world && Closed(scope)
      modifies this`originals, this`budget, (scope - Agents(originals))`callbacks
      ensures Valid()
      ensures old(Agents(originals)) <= Agents(originals) <= old(Agents(originals)) + scope
      ensures ok ==> Finished(Agents(originals) - old(Agents(originals)))
      ensures ok ==> forall k ::
                0 <= k < |agent.subAgents| && agent.subAgents[k].isAgent ==> agent.subAgents[k] in Agents(originals)
      decreases scope - Agents(originals), 2
    {
      hide Instrumented, LogOk, Agents;
      ghost var was := Agents(originals);
      var k := 0;
      while k < |agent.subAgents|
        invariant 0 <= k <= |agent.subAgents| && Valid()
        invariant was <= Agents(originals) <= was + scope && Finished(Agents(originals) - was)
        invariant forall j :: 0 <= j < k && agent.subAgents[j].isAgent ==> agent.subAgents[j] in Agents(originals)
      {
        ok := InstallIfAgent(agent.subAgents[k], scope);
        if !ok { return; }
        k := k + 1;
      }
      ok := true;
    }

    ghost predicate InWorld(arg: Argument)
      reads this, if arg.RunnerArgument? then {arg.runner} else {}
    {
      match arg
      case RunnerArgument(r) => (r.agent != null ==> r.agent in world) &&
        (r.hiddenAgent != null ==> r.hiddenAgent in world)
      case AgentArgument(a) => a in world
      case OtherArgument => true
    }

    /** The agent an argument leads to, if the instrumentor recognises one. */
    ghost function Root(arg: Argument): set<AdkAgent>
      reads if arg.RunnerArgument? then {arg.runner} else {}
    {
      match arg
      case RunnerArgument(r) =>
        if r.agent != null then (if r.agent.isAgent then {r.agent} else {})
        else if r.hiddenAgent != null && r.hiddenAgent.isAgent then {r.hiddenAgent} else {}
      case AgentArgument(a) => if a.isAgent then {a} else {}
      case OtherArgument => {}
    }

    /**
     A runner leads to its agent, or if it has none to the hidden one; an agent that is not
     recognised hides the other.
     */
    lemma RootMeans(arg: Argument, a: AdkAgent)
      ensures arg.AgentArgument? ==> (a in Root(arg) <==> arg.agent == a && a.isAgent)
      ensures arg.RunnerArgument? ==>
                (a in Root(arg) <==>
                   a.isAgent && (arg.runner.agent == a || (arg.runner.agent == null && arg.runner.hiddenAgent == a)))
      ensures arg.OtherArgument? ==> a !in Root(arg)
    {
    }

    /**
     lines 103-107 and 141-152, for an argument of the decorated function and any closed set
     of agents that holds the one it leads to
     */
    method Wrap(arg: Argument, ghost scope: set<AdkAgent>) returns (ok: bool)
      requires Valid() && InWorld(arg) && Root(arg) <= scope <= world && Closed(scope)
      modifies this`originals, this`budget, (scope - Agents(originals))`callbacks
      ensures Valid() && old(Agents(originals)) <= Agents(originals) <= old(Agents(originals)) + scope
      ensures ok ==> Root(arg) <= Agents(originals) && Finished(Agents(originals) - old(Agents(originals)))
    {
      ok := true;
      var agent: AdkAgent? := null;
      match arg {
        case RunnerArgument(r) =>
          if RunnerEntry(r) !in originals {
            AgentsAppend(originals, RunnerEntry(r));
            originals := originals + [RunnerEntry(r)];
          }
          ok := Step();
          if !ok { return; }
          agent := if r.agent != null then r.agent else r.hiddenAgent;
        case AgentArgument(a) => agent := a;
        case OtherArgument =>
      }
      if agent != null && agent.isAgent {
        ok := InstallAdkCallbacks(agent, scope);
      }
    }

    /** lines 311-319, for one agent: six assignments, each of which may fail */
    method RestoreAgent(agent: AdkAgent, saved: Slots, refused: Refusals)
      modifies agent`callbacks
      ensures agent.callbacks == PutBack(agent, old(agent.callbacks), saved, refused)
    {
      if (agent, BeforeModel) !in refused { agent.callbacks := agent.callbacks.(beforeModel := saved.beforeModel); }
      if (agent, AfterModel) !in refused { agent.callbacks := agent.callbacks.(afterModel := saved.afterModel); }
      if (agent, OnModelError) !in refused { agent.callbacks := agent.callbacks.(onModelError := saved.onModelError); }
      if (agent, BeforeTool) !in refused { agent.callbacks := agent.callbacks.(beforeTool := saved.beforeTool); }
      if (agent, AfterTool) !in refused { agent.callbacks := agent.callbacks.(afterTool := saved.afterTool); }
      if (agent, OnToolError) !in refused { agent.callbacks := agent.callbacks.(onToolError := saved.onToolError); }
    }

    /** lines 306-319: an entry made for a runner has no agent and is passed over */
    method RestoreOriginals(refused: Refusals)
      requires LogOk(originals, before) && before.Keys == world
      modifies world`callbacks
      ensures forall a :: a in Agents(originals) ==> a.callbacks == PutBack(a, old(a.callbacks), before[a], refused)
      ensures forall a :: a in world - Agents(originals) ==> a.callbacks == old(a.callbacks)
    {
      for i := 0 to |originals|
        invariant forall j :: 0 <= j < i && originals[j].AgentEntry? ==>
                    var a := originals[j].agent; a.callbacks == PutBack(a, old(a.callbacks), before[a], refused)
        invariant forall j :: i <= j < |originals| && originals[j].AgentEntry? ==>
                    originals[j].agent.callbacks == old(originals[j].agent.callbacks)
        invariant forall a :: a in world - Agents(originals) ==> a.callbacks == old(a.callbacks)
      {
        if originals[i].AgentEntry? {
          RestoreAgent(originals[i].agent, originals[i].saved, refused);
        }
      }
    }

    /** framework_base.py:166-168 */
    method WrapAll(args: seq<Argument>, ghost scope: set<AdkAgent>) returns (wrapped: bool)
      requires Valid() && originals == [] && Closed(scope) && scope <= world
      requires forall i :: 0 <= i < |args| ==> InWorld(args[i]) && Root(args[i]) <= scope
      modifies this`originals, this`budget, scope`callbacks
      ensures Valid() && Agents(originals) <= scope
      ensures wrapped ==> Finished(Agents(originals)) && forall i ::
                0 <= i < |args| ==> Root(args[i]) <= Agents(originals)
    {
      hide Instrumented;
      assert Agents(originals) == {};
      wrapped := true;
      var i := 0;
      while i < |args| && wrapped
        invariant 0 <= i <= |args| && Valid() && Agents(originals) <= scope
        invariant forall j :: 0 <= j < |args| ==> InWorld(args[j]) && Root(args[j]) <= scope
        invariant wrapped ==> Finished(Agents(originals)) && forall j ::
                    0 <= j < i ==> Root(args[j]) <= Agents(originals)
      {
        wrapped := Wrap(args[i], scope);
        i := i + 1;
      }
    }

    ghost function Now(): map<AdkAgent, Slots>
      reads this, world
    {
      map a | a in world :: a.callbacks
    }

    /** The decorated function may set callbacks itself. */
    method RunUserFunction(edits: seq<Edit>)
      requires forall i :: 0 <= i < |edits| ==> edits[i].agent in world
      modifies world`callbacks
      ensures Now() == Edited(old(Now()), edits)
    {
      for i := 0 to |edits|
        invariant Now() == Edited(old(Now()), edits[..i])
      {
        edits[i].agent.callbacks := edits[i].callbacks;
        assert edits[..i + 1][..i] == edits[..i];
      }
      assert edits[..|edits|] == edits;
    }

    /**
     One decorated call, framework_base.py:144-188. "given" is what the user's function runs
     under: every agent instrumented, with all its sub-agents, and no agent outside the
     scope touched. Wherever the installation stops, and whatever the function sets or
     raises, every agent instrumented has each of its six slots as before unless that slot
     refuses; the others have what the user left in them.
     */
    method FrameworkImplSync(args: seq<Argument>, edits: seq<Edit>, refused: Refusals, ghost scope: set<AdkAgent>)
      returns (wrapped: bool, ghost given: map<AdkAgent, Slots>, ghost left: map<AdkAgent, Slots>)
      requires Valid() && originals == [] && Closed(scope) && scope <= world
      requires forall i :: 0 <= i < |args| ==> InWorld(args[i]) && Root(args[i]) <= scope
      requires forall i :: 0 <= i < |edits| ==> edits[i].agent in world
      modifies this`originals, this`budget, world`callbacks
      ensures Agents(originals) <= scope && given.Keys == left.Keys == world
      ensures wrapped ==> forall i :: 0 <= i < |args| ==> Root(args[i]) <= Agents(originals)
      ensures wrapped ==> forall a :: a in Agents(originals) ==>
                && (forall slot: Slot ::
                      Chain(Get(given[a], slot)) == [SpanFunction(a, slot)] + Chain(Get(old(a.callbacks), slot)))
                && (forall k ::
                      0 <= k < |a.subAgents| && a.subAgents[k].isAgent ==> a.subAgents[k] in Agents(originals))
      ensures forall a :: a in world - Agents(originals) ==> given[a] == old(a.callbacks)
      ensures left == if wrapped then Edited(given, edits) else given
      ensures forall a :: a in world ==>
                a.callbacks ==
                  if a in Agents(originals) then PutBack(a, left[a], old(a.callbacks), refused) else left[a]
    {
      hide Edited, PutBack, Get, Chain;
      wrapped := WrapAll(args, scope);
      given := Now();
      if wrapped { RunUserFunction(edits); }
      left := Now();
      RestoreOriginals(refused);
    }
  }

  /** The callbacks after the user's own assignments, one after the other. */
  function Edited(callbacks: map<AdkAgent, Slots>, edits: seq<Edit>): map<AdkAgent, Slots> {
    if edits == [] then callbacks
    else Edited(callbacks, edits[..|edits| - 1])[edits[|edits| - 1].agent := edits[|edits| - 1].callbacks]
  }

  /** An agent has the callbacks last assigned to it, or those it had. */
  lemma {:induction false} EditedMeans(callbacks: map<AdkAgent, Slots>, edits: seq<Edit>, a: AdkAgent)
    requires a in callbacks
    ensures a in Edited(callbacks, edits)
    ensures (forall i :: 0 <= i < |edits| ==> edits[i].agent != a) ==> Edited(callbacks, edits)[a] == callbacks[a]
    ensures forall i :: 0 <= i < |edits| && edits[i].agent == a && (forall j :: i < j < |edits| ==> edits[j].agent != a)
              ==> Edited(callbacks, edits)[a] == edits[i].callbacks
    decreases |edits|
  {
    if edits != [] {
      var init := edits[..|edits| - 1];
      EditedMeans(callbacks, init, a);
      assert forall i :: 0 <= i < |init| ==> edits[i] == init[i];
    }
  }

  /** While the user's function runs, every agent that can be reached from a recorded one is instrumented. */
  lemma {:induction false} ReachableIsInstrumented(inst: AdkInstrumentor, path: seq<AdkAgent>)
    requires inst.Valid() && inst.Finished(Agents(inst.originals))
    requires path != [] && path[0] in Agents(inst.originals)
    requires forall k :: 0 < k < |path| ==> path[k] in path[k - 1].subAgents && path[k].isAgent
    ensures var last := path[|path| - 1]; last in Agents(inst.originals) && Instrumented(last, inst.before[last])
    decreases |path|
  {
    if |path| > 1 {
      var rest := path[1..];
      assert path[1] in path[0].subAgents && path[1].isAgent;
      assert forall k :: 0 < k < |rest| ==> rest[k] == path[k + 1] && rest[k - 1] == path[k];
      ReachableIsInstrumented(inst, rest);
    }
  }
}
