/**
 The mutually recursive walk itself, in the shape of the source: it visits a cyclic,
 aliased object graph, writes slots in place, appends to "originals" and grows "seen".
 What it does is what the tour of the starting state tells.
 Source: src/rastir/langgraph_support.py:179-441.
 */
module LangGraphWalk {
  import opened ObjectHeap
  import opened LangGraphState
  import opened LangGraphPlan
  import opened LangGraphProgress
  import opened LangGraphSteps
  import opened LangGraphTour
  import opened LangGraphInvariant
  import opened LangGraphReads
  import opened LangGraphNodes
  import opened LangGraphGlobals
  import opened LangGraphOwnProxies

  // ----- what the tour says of each part of the walk ------------------------------------------

  /** What a visited object leads to, told by what it is. */
  function ActsNow(s0: State, s: State, t: Tour, x: Id): seq<Action>
    requires x < |s.shapes|
  {
    match s.shapes[x].tag
    case ToolNode => []
    case RunnableBinding => BindingActs(s0, x)
    case RunnableSequence => SequenceActs(s0, x)
    case OtherType => OtherActs(s0, t, Owner(s.shapes, x), ViewsOf(s0, x), s.shapes[x].isChat)
  }

  function SequenceActs(s0: State, x: Id): seq<Action> {
    EndActs(s0, x, "first") + EndActs(s0, x, "last") + MiddleActs(s0, x)
  }

  lemma VisitIs(s0: State, s: State, t: Tour, pl: Place, x: Id)
    requires Core(s0, s) && Settled(s0, s) && Denotes(s0, s, pl, x) && x < |s.shapes|
    requires pl.Inert? || (pl !in t.order && InRange(s0, pl))
    ensures Visit(s0, t, pl) == Do(s0, EnterPlace(s0, t, pl), ActsNow(s0, s, EnterPlace(s0, t, pl), x))
  {
    hide WellFormed, Accounted, RecordOk, LogFaithful, SettledSlot, OtherActs, MiddleActs, EndActs, BindingActs, Do;
    DoOne(s0, EnterPlace(s0, t, pl), Go(Inert));
    if s.shapes[x].tag == OtherType { OtherActsNow(s0, s, t, pl, x); }
    if pl.OwnProxy? { RewrittenIsProxy(s0, s, pl.binding); }
    if pl.Inert? { assert Created(|s0.shapes|, s.shapes, x); }
  }

  lemma ActsAreFree(s0: State, s: State, s1: State, t: Tour, x: Id)
    requires x < |s.shapes| && s1.shapes == s.shapes
    ensures ActsNow(s0, s1, t, x) == ActsNow(s0, s, t, x)
  {
  }

  /** First one part, then the other. */
  lemma Then(s0: State, t: Tour, a: seq<Action>, b: seq<Action>)
    ensures Do(s0, t, a + b) == Do(s0, Do(s0, t, a), b)
    ensures Do(s0, t, a).order <= Do(s0, t, a + b).order && Do(s0, t, a).log == Do(s0, t, a + b).log == t.log
  {
    DoJoined(s0, t, a, b);
  }

  lemma NoCellsYet(s: State, f: Id)
    requires f < |s.shapes|
    ensures CellsDone(s, f, 0)
  {
  }

  lemma {:induction false} CellActsGrow(n: nat, cells: seq<Option<Id>>, i: nat)
    requires i <= |cells|
    ensures CellActsNow(n, cells[..i]) <= CellActsNow(n, cells)
    decreases |cells|
  {
    if i == |cells| {
      assert cells[..i] == cells;
    } else {
      CellActsGrow(n, cells[..|cells| - 1], i);
      assert cells[..|cells| - 1][..i] == cells[..i];
    }
  }

  lemma CellActsStep(s0: State, t: Tour, n: nat, cells: seq<Option<Id>>, i: nat)
    requires i < |cells|
    ensures var t1, r := Do(s0, t, CellActsNow(n, cells[..i])), Do(s0, t, CellActsNow(n, cells[..i + 1]));
            && (cells[i].None? ==> r == t1)
            && (cells[i].Some? ==> r == Visit(s0, t1, if cells[i].value < n then Obj(cells[i].value) else Inert))
            && r.order <= Do(s0, t, CellActsNow(n, cells)).order && r.log == t.log
  {
    assert cells[..i + 1][..i] == cells[..i];
    Then(s0, t, CellActsNow(n, cells[..i]), CellAct(n, cells[i]));
    if cells[i].Some? {
      DoOne(s0, Do(s0, t, CellActsNow(n, cells[..i])), CellAct(n, cells[i])[0]);
    } else {
      DoOne(s0, Do(s0, t, CellActsNow(n, cells[..i])), Go(Inert));
    }
    CellActsGrow(n, cells, i + 1);
    DoPrefix(s0, t, CellActsNow(n, cells[..i + 1]), CellActsNow(n, cells));
  }

  /** What a cell holds is the place the tour goes to. */
  lemma CellDenotes(s0: State, s: State, f: Id, i: nat)
    requires Core(s0, s) && f < |s.shapes| && i < |Cells(s, f)| && Cells(s, f)[i].Some?
    ensures var v := Cells(s, f)[i].value;
            v < |s.shapes| && Denotes(s0, s, if v < |s0.shapes| then Obj(v) else Inert, v)
  {
    assert ShapeOk(s.shapes, f);
    if f < |s0.shapes| { assert ShapeOk(s0.shapes, f); } else { assert Created(|s0.shapes|, s.shapes, f); }
    if Method(f) in s.heap {
      assert SlotOk(s, Method(f));
      NotProxy(s, s.heap[Method(f)]);
    }
  }

  function PlaceOf(n: nat, v: Id): Place { if v < n then Obj(v) else Inert }

  // ----- small facts the methods use ---------------------------------------------------------------

  predicate ToolForeseen(s0: State, t: Tour, slot: Slot) {
    RawOf(s0, slot) < |s0.shapes| && !s0.shapes[RawOf(s0, slot)].marked ==> Tooled(s0, t.order, slot)
  }

  lemma ToolsAreForeseen(s0: State, s: State, stack: set<Id>, t: Tour, toolnode: Id, name: string)
    requires Walking(s0, s, stack, t) && toolnode in s.seen && toolnode < |s.shapes|
    requires toolnode < |s0.shapes| && s0.shapes[toolnode].tag == ToolNode
    requires var d := Read(s, toolnode, "_tools_by_name");
             d < |s0.shapes| && s0.shapes[d].keys.Some? && name in s0.shapes[d].keys.value
    ensures ToolForeseen(s0, t, Item(Read(s, toolnode, "_tools_by_name"), name))
  {
    WalkingMeans(s0, s, stack, t);
    EndRead(s0, s, toolnode, "_tools_by_name");
    var slot := Item(Read(s, toolnode, "_tools_by_name"), name);
    if RawOf(s0, slot) < |s0.shapes| && !s0.shapes[RawOf(s0, slot)].marked {
      assert Obj(toolnode) in t.order && ToolsHold(s0, Obj(toolnode), slot);
    }
  }

  lemma ToolIsForeseen(s0: State, s: State, t: Tour, slot: Slot)
    requires Core(s0, s) && Settled(s0, s) && slot.Item? && slot in s.heap && !s.shapes[s.heap[slot]].marked
    requires ToolForeseen(s0, t, slot)
    ensures Tooled(s0, t.order, slot)
  {
    ToolIsOriginal(s0, s, slot);
    UnmarkedIsUnlogged(s0, s, slot);
    UnloggedReads(s0, s, slot);
  }

  lemma ToolIsThere(s0: State, s: State, d: Id, name: string)
    requires Core(s0, s) && Settled(s0, s) && d < |s0.shapes|
    requires s0.shapes[d].keys.Some? && name in s0.shapes[d].keys.value
    ensures Item(d, name) in s0.heap && Item(d, name) in s.heap && s.heap[Item(d, name)] < |s.shapes|
  {
    SlotsStay(s0, s);
    RawInRange(s, Item(d, name));
  }

  lemma EvolveMeans(s: State, s1: State)
    requires Evolve(s, s1)
    ensures s.shapes <= s1.shapes && s.seen <= s1.seen && WellFormed(s1)
  {
  }

  /** One place gone to. */
  lemma DoneIs(s0: State, t: Tour, pl: Place)
    ensures Act(s0, t, Go(pl)) == Visit(s0, t, pl)
  {
  }

  lemma ItemsInRange(s0: State, m: Id)
    requires WellFormed(s0) && m < |s0.shapes| && s0.shapes[m].items.Some?
    ensures forall k :: 0 <= k < |s0.shapes[m].items.value| ==> s0.shapes[m].items.value[k] < |s0.shapes|
  {
    assert ShapeOk(s0.shapes, m);
  }

  lemma FirstIsFree(s0: State, order: seq<Place>, order1: seq<Place>, owner: Id, views: map<string, Id>)
    ensures FollowActs(s0, order, owner, views, "first") == FollowActs(s0, order1, owner, views, "first")
  {
  }

  lemma OwnerStays(s: State, s1: State, o: Id)
    requires s.shapes <= s1.shapes && o < |s.shapes|
    ensures Owner(s1.shapes, o) == Owner(s.shapes, o) && s1.shapes[o] == s.shapes[o]
  {
  }

  lemma OtherActsAre(s0: State, t: Tour, owner: Id, views: map<string, Id>, isChat: bool)
    ensures OtherActs(s0, t, owner, views, isChat) ==
            FuncActs(s0, t.log, owner, views, "func") + FuncActs(s0, t.log, owner, views, "afunc") +
            if HasFunction(s0, owner) || isChat then [] else FallbackActs(s0, t.order, owner, views)
  {
  }

  lemma NoFunctionNoActs(s0: State, t: Tour, owner: Id, views: map<string, Id>)
    requires WellFormed(s0) && !HasFunction(s0, owner)
    ensures FuncActs(s0, t.log, owner, views, "func") == [] && FuncActs(s0, t.log, owner, views, "afunc") == []
    ensures Do(s0, t, [] + []) == t
  {
  }

  lemma ShapeKept(s0: State, s: State, o: Id)
    requires Core(s0, s) && o < |s0.shapes|
    ensures o < |s.shapes| && s.shapes[o] == s0.shapes[o]
  {
  }

  /** A tool node or a binding to be rewritten leads nowhere; whatever does is plain. */
  lemma PlainToo(s0: State, stack: set<Id>, o: Id)
    requires Plain(s0, stack - {o})
    ensures Plain(s0, stack) || (o < |s0.shapes| && (s0.shapes[o].tag == ToolNode || Replaceable(s0, o)))
  {
  }

  lemma BoundUntouched(s0: State, s: State, o: Id)
    requires Core(s0, s) && o !in s.seen
    ensures RawOf(s, Attr(o, "bound")) == RawOf(s0, Attr(o, "bound"))
  {
    FixedBound(s0, s, o);
  }

  /** What was visited is not visited again, nor does the tour go there again. */
  lemma SeenIsVisited(s0: State, s: State, stack: set<Id>, t: Tour, pl: Place, x: Id)
    requires Walking(s0, s, stack, t) && Denotes(s0, s, pl, x) && x in s.seen
    ensures Visit(s0, t, pl) == t
  {
  }

  lemma StopsInside(s0: State, s: State, stack: set<Id>, t: Tour, acts: seq<Action>)
    requires Walking(s0, s, stack, t)
    ensures StoppedBy(s0, s, Do(s0, t, acts), 0)
  {
    hide Walking, StoppedBy;
    StopsHere(s0, s, stack, t, Do(s0, t, acts));
  }

  lemma SameRefusal(s0: State, s: State, slot: Slot)
    requires Core(s0, s) && HolderOf(slot) < |s0.shapes|
    ensures Rejects(s.shapes, slot) <==> Rejects(s0.shapes, slot)
  {
  }

  lemma NotRewritten(s0: State, h: Handle, a: string, l: seq<Entry>)
    ensures !Rewrites(s0, h, a, l) ==> PlanAttr(s0, h, a, l) == l
  {
  }

  lemma TracedAttr(s: State, b: Id, a: string)
    requires b < |s.shapes| && AlreadyTraced(s, b, a)
    ensures NodeAttr(s, b, a) == Asked(s, b, a)
  {
  }

  lemma NothingGiven(s: State, s1: State, nodes: Id, name: string)
    requires Evolve(s, s1) && Item(nodes, name) in s.heap && s.heap[Item(nodes, name)] < |s.shapes|
    requires Read(s, s.heap[Item(nodes, name)], "bound") == NONE
    ensures NodeDone(s1, nodes, name)
  {
    BoundStays(s, s1, Item(nodes, name));
  }

  lemma NoNodesYet(s: State, nodes: Id, names: seq<string>)
    ensures NodesPrefix(s, nodes, names, 0)
  {
  }

  lemma StartIsSkipped(s0: State, s: State, t: Tour, nodes: Id, names: seq<string>, i: nat)
    requires i < |names| && names[i] == "__start__"
    ensures NodeTurn(s0, t, nodes, names[i]) == t
    ensures NodesPrefix(s, nodes, names, i) ==> NodesPrefix(s, nodes, names, i + 1)
  {
  }

  lemma SeenDoesNotMatter(s: State, seen: set<Id>)
    ensures WellFormed(s.(seen := seen)) <==> WellFormed(s)
  {
    var s1 := s.(seen := seen);
    forall slot | slot in s.heap ensures SlotOk(s1, slot) <==> SlotOk(s, slot) {
    }
  }

  class GraphWalk {
    var shapes: seq<Shape>
    var heap: Heap
    var originals: seq<Entry>
    var seen: set<Id>
    var steps: nat  // operations that still succeed; the one after them raises

    constructor (shapes: seq<Shape>, heap: Heap, steps: nat)
      ensures S() == State(shapes, heap, [], {}) && this.steps == steps
    {
      this.shapes, this.heap, this.steps, originals, seen := shapes, heap, steps, [], {};
    }

    ghost function S(): State
      reads this
    {
      State(shapes, heap, originals, seen)
    }

    /** Any wrap() or look at a new object may raise: this one does once "steps" runs out. */
    method Step() returns (ok: bool)
      modifies this`steps
      ensures ok <==> old(steps) > 0
      ensures !ok ==> steps == 0
    {
      ok := steps > 0;
      if ok { steps := steps - 1; }
    }

    /** getattr(o, a, None): a user's proxy makes its span wrapper on first access. */
    method Fetch(o: Id, a: string) returns (v: Id)
      requires o < |shapes|
      modifies this`heap
      ensures S() == Asked(old(S()), o, a) && v == Read(old(S()), o, a)
    {
      v := Get(shapes, heap, o, a);
      var raw := Raw(shapes, heap, Attr(Owner(shapes, o), a));
      if shapes[o].target.Some? && a in shapes[o].views && raw < |shapes| && shapes[raw].isCallable &&
         Method(v) !in heap
      {
        var marked := shapes[raw].nodeTraced || Mark(raw) in heap;
        heap := heap[Method(v) := raw];
        if marked { heap := heap[Mark(v) := raw]; }
      }
    }

    /** The three statements of every replacement: log, allocate, write. An object may refuse the write. */
    method Replace(slot: Slot, saved: Id) returns (ok: bool)
      modifies this
      ensures ok <==> !Rejects(old(shapes), slot)
      ensures S() == if ok then Put(old(S()), slot, saved) else Record(old(S()), slot, saved)
      ensures steps == old(steps)
    {
      originals := originals + [Entry(slot, saved)];
      ok := !(slot.Attr? && slot.owner < |shapes| && slot.name in shapes[slot.owner].refuses);
      if !ok { return; }
      heap := heap[slot := |shapes|];
      shapes := shapes + [Replacement(slot, saved)];
    }

    /** lines 373-407 */
    method WrapModelAt(parent: Id, attr: string, model: Id, asItem: bool) returns (ok: bool)
      requires parent < |shapes| && model < |shapes|
      modifies this
      ensures var slot := if asItem then Item(parent, attr) else Attr(Owner(old(shapes), parent), attr);
              if old(shapes)[model].marked then ok && S() == old(S())
              else if ok then S() == Put(old(S()), slot, model) && !Rejects(old(shapes), slot)
              else
                || (S() == old(S()) && steps == 0)
                || (S() == Record(old(S()), slot, model) && Rejects(old(shapes), slot))
    {
      if shapes[model].marked { return true; }
      ok := Step();
      if !ok { return; }
      ok := Replace(if asItem then Item(parent, attr) else Attr(Owner(shapes, parent), attr), model);
    }

    /** The loop body of lines 416-425. wrap() may raise after the record. */
    method WrapTool(toolsDict: Id, name: string, ghost s0: State, ghost stack: set<Id>, ghost t: Tour)
      returns (ok: bool)
      requires Walking(s0, S(), stack, t) && toolsDict < |s0.shapes| && WritableDict(s0, toolsDict)
      requires s0.shapes[toolsDict].keys.Some? && name in s0.shapes[toolsDict].keys.value
      requires ToolForeseen(s0, t, Item(toolsDict, name))
      modifies this
      ensures seen == old(seen) && (!ok ==> StoppedBy(s0, S(), t, steps))
      ensures Item(toolsDict, name) in old(heap) && old(heap)[Item(toolsDict, name)] < |old(shapes)| <= |shapes|
      ensures var slot := Item(toolsDict, name);
              var tool := old(heap)[slot];
              if old(shapes)[tool].marked then ok && S() == old(S())
              else S() == if ok then Put(old(S()), slot, tool) else Record(old(S()), slot, tool)
      ensures ok ==> Walking(s0, S(), stack, t) && Evolve(old(S()), S()) && ToolDone(S(), Item(toolsDict, name))
    {
      hide Evolve, Walking, StoppedBy, Core, Settled, WellFormed, Toured, SameVisits, ToolForeseen, Tooled;
      hide WritableDict;
      var slot := Item(toolsDict, name);
      WalkingMeans(s0, S(), stack, t);
      ToolIsThere(s0, S(), toolsDict, name);
      var tool := heap[slot];
      if shapes[tool].marked { return true; }
      ToolIsForeseen(s0, S(), t, slot);
      ToolStep(s0, S(), stack, t, slot);
      originals := originals + [Entry(slot, tool)];
      ok := Step();
      if !ok { return; }
      heap := heap[slot := |shapes|];
      shapes := shapes + [Replacement(slot, tool)];
    }

    /** lines 410-425 */
    method WrapToolnodeTools(toolnode: Id, ghost s0: State, ghost stack: set<Id>, ghost t: Tour) returns (ok: bool)
      requires Walking(s0, S(), stack, t) && toolnode in seen
      requires toolnode < |s0.shapes| && s0.shapes[toolnode].tag == ToolNode
      modifies this
      ensures seen == old(seen) && old(shapes) <= shapes && (!ok ==> StoppedBy(s0, S(), t, steps))
      ensures ok ==> Walking(s0, S(), stack, t) && Evolve(old(S()), S()) && ToolsDone(S(), toolnode)
    {
      hide Core, WellFormed, Evolve, Settled, Processed, ToolsPrefix, Walking, StoppedBy, SameVisits;
      ghost var start := S();
      WalkingMeans(s0, start, stack, t);
      EndRead(s0, start, toolnode, "_tools_by_name");
      ToolsDictIsWritable(s0, start, toolnode);
      var toolsDict := Get(shapes, heap, toolnode, "_tools_by_name");
      if shapes[toolsDict].keys.None? { return true; }
      var names := shapes[toolsDict].keys.value;
      assert ToolsPrefix(start, toolsDict, names, 0) by { NoToolsYet(start, toolsDict, names); }
      for i := 0 to |names|
        invariant Walking(s0, S(), stack, t) && Evolve(start, S()) && seen == start.seen && start.shapes <= shapes
        invariant ToolsPrefix(S(), toolsDict, names, i)
      {
        ghost var before := S();
        ToolsAreForeseen(s0, start, stack, t, toolnode, names[i]);
        ok := WrapTool(toolsDict, names[i], s0, stack, t);
        if !ok { return; }
        EvolveTransitive(start, before, S());
        ToolsPrefixStep(before, S(), toolsDict, names, i);
      }
      AllToolsDone(start, S(), toolnode);
      ok := true;
    }

    // ----- functions -------------------------------------------------------

    /** lines 266-275: closure cells */
    method WalkCells(func: Id, ghost s0: State, ghost stack: set<Id>, ghost t: Tour) returns (ok: bool)
      requires Walking(s0, S(), stack, t) && Plain(s0, stack) && func < |shapes| && Present(S(), func)
      modifies this
      ensures var r := Do(s0, t, CellActsNow(|s0.shapes|, Cells(old(S()), func)));
              if ok then Stretch(s0, old(S()), S(), stack, r) else StoppedBy(s0, S(), r, steps)
      ensures ok ==> Present(S(), func) && Cells(S(), func) == Cells(old(S()), func)
      ensures ok ==> CellsDone(S(), func, |Cells(S(), func)|)
      decreases Left(|s0.shapes|, seen), Left(|shapes|, seen), 2
    {
      hide Core, Evolve, Settled, Spent, WellFormed, Left, Processed, Walking, StoppedBy, Do, Present, SameVisits;
      hide Toured;
      ghost var start, n := S(), |s0.shapes|;
      WalkingMeans(s0, start, stack, t);
      var cells := Cells(State(shapes, heap, originals, seen), func);
      hide Cells, CellsDone;
      assert cells[..0] == [] && CellActsNow(n, []) == [];
      DoOne(s0, t, Go(Inert));
      NoCellsYet(start, func);
      for i := 0 to |cells|
        invariant Stretch(s0, start, S(), stack, Do(s0, t, CellActsNow(n, cells[..i])))
        invariant Present(S(), func) && Cells(S(), func) == cells && CellsDone(S(), func, i)
      {
        ghost var before, t1 := S(), Do(s0, t, CellActsNow(n, cells[..i]));
        StretchDecreases(s0, start, before);
        WalkingMeans(s0, before, stack, t1);
        CellActsStep(s0, t, n, cells, i);
        if cells[i].Some? {
          CellDenotes(s0, before, func, i);
          ok := WrapRunnable(cells[i].value, s0, stack, t1, PlaceOf(n, cells[i].value));
          if !ok {
            StoppedLater(s0, S(), Do(s0, t, CellActsNow(n, cells[..i + 1])), Do(s0, t, CellActsNow(n, cells)), steps);
            return;
          }
          Joined(s0, start, before, S(), stack, t1, Do(s0, t, CellActsNow(n, cells[..i + 1])));
        }
        CellsStep(before, S(), func, i);
        CellsStay(before, S(), func);
      }
      assert cells[..|cells|] == cells;
      ok := true;
    }

    /** lines 288-291 */
    method WalkGlobalModel(g: Id, name: string, val: Id, ghost s0: State, ghost stack: set<Id>, ghost t: Tour)
      returns (ok: bool)
      requires Walking(s0, S(), stack, t) && g < |s0.shapes| && WritableDict(s0, g)
      requires Item(g, name) in heap && heap[Item(g, name)] == val && val != NONE && val !in seen
      requires val < |shapes| && shapes[val].isChat
      modifies this
      ensures var r := t.(order := t.order + [Obj(val)]);
              if ok then Stretch(s0, old(S()), S(), stack, r) && NameDone(S(), g, name)
              else StoppedBy(s0, S(), r, steps)
      ensures ok ==> S() == GlobalTurn(old(S()), g, name)
    {
      hide Core, Evolve, Settled, Spent, WellFormed, Processed, NameDone, Walking, StoppedBy;
      WalkingMeans(s0, S(), stack, t);
      GlobalModelStep(s0, S(), stack, t, Item(g, name));
      seen := seen + {val};
      ok := WrapModelAt(g, name, val, true);
    }

    /** lines 285-295: one global name */
    method WalkName(g: Id, name: string, ghost s0: State, ghost stack: set<Id>, ghost t: Tour) returns (ok: bool)
      requires Walking(s0, S(), stack, t) && Plain(s0, stack) && g < |s0.shapes| && WritableDict(s0, g)
      modifies this
      ensures var r := Act(s0, t, Named(g, name));
              if ok then Stretch(s0, old(S()), S(), stack, r) && NameDone(S(), g, name)
              else StoppedBy(s0, S(), r, steps)
      ensures ok && ModelAt(old(S()), g, name) ==> S() == GlobalTurn(old(S()), g, name)
      decreases Left(|s0.shapes|, seen), Left(|shapes|, seen), 1
    {
      hide Core, Evolve, Settled, Spent, WellFormed, Left, Processed, Walking, StoppedBy, Act, SameVisits, Toured;
      ghost var before := S();
      WalkingMeans(s0, before, stack, t);
      NameRead(s0, before, stack, t, g, name);
      var slot := Item(g, name);
      var val := if slot in heap then heap[slot] else NONE;
      if val == NONE || val in seen { return true; }
      if shapes[val].isChat {
        ok := WalkGlobalModel(g, name, val, s0, stack, t);
      } else if shapes[val].isRunnable {
        ok := WrapRunnable(val, s0, stack, t, Obj(val));
        if ok { GlobalWalked(before, S(), slot); }
      } else {
        ok := true;
      }
    }

    /** lines 277-295: globals the function names */
    method WalkNames(func: Id, ghost s0: State, ghost stack: set<Id>, ghost t: Tour) returns (ok: bool)
      requires Walking(s0, S(), stack, t) && Plain(s0, stack) && func < |shapes|
      modifies this
      ensures var sh := old(shapes)[func];
              var r := Do(s0, t, if sh.globals.Some? then NameActs(sh.globals.value, sh.names) else []);
              if ok then Stretch(s0, old(S()), S(), stack, r) else StoppedBy(s0, S(), r, steps)
      ensures ok ==> NamesDone(S(), func, |old(shapes)[func].names|)
      ensures var sh := old(shapes)[func];
              ok && sh.globals.Some? && OnlyModels(old(S()), sh.globals.value, sh.names) ==>
                S() == GlobalTurns(old(S()), sh.globals.value, sh.names)
      decreases Left(|s0.shapes|, seen), Left(|shapes|, seen), 2
    {
      hide Core, Evolve, Settled, Spent, WellFormed, Left, Processed, NameDone, OnlyModels, ModelAt, GlobalTurn;
      hide GlobalTurns, WritableDict, Walking, StoppedBy, Do, Act, SameVisits, Toured;
      ghost var start := S();
      WalkingMeans(s0, start, stack, t);
      DoOne(s0, t, Go(Inert));
      if shapes[func].globals.None? { return true; }
      var g, names := shapes[func].globals.value, shapes[func].names;
      ghost var acts := NameActs(g, names);
      GlobalsWritable(s0, start, func);
      assert acts[..0] == [];
      assert names[..0] == [] && GlobalTurns(start, g, []) == start by { NoTurns(start, g); }
      for k := 0 to |names|
        invariant Stretch(s0, start, S(), stack, Do(s0, t, acts[..k]))
        invariant NamesDone(S(), func, k)
        invariant OnlyModels(start, g, names) ==> S() == GlobalTurns(start, g, names[..k]) && OnlyModels(S(), g, names)
      {
        ghost var before := S();
        StretchDecreases(s0, start, before);
        if OnlyModels(start, g, names) { TurnsStep(start, g, names, k); }
        DoStep(s0, t, acts, k);
        ok := WalkName(g, names[k], s0, stack, Do(s0, t, acts[..k]));
        if !ok {
          DoPrefix(s0, t, acts[..k + 1], acts);
          DoPrefix(s0, t, acts[..k + 1], acts[..k + 1]);
          StoppedLater(s0, S(), Do(s0, t, acts[..k + 1]), Do(s0, t, acts), steps);
          return;
        }
        Joined(s0, start, before, S(), stack, Do(s0, t, acts[..k]), Do(s0, t, acts[..k + 1]));
        NamesStep(before, S(), func, k);
      }
      assert names[..|names|] == names && acts[..|names|] == acts;
      ok := true;
    }

    /** lines 262-295 */
    method WalkFuncForWrapping(func: Id, ghost s0: State, ghost stack: set<Id>, ghost t: Tour) returns (ok: bool)
      requires Walking(s0, S(), stack, t) && Plain(s0, stack) && func < |shapes| && Present(S(), func)
      modifies this
      ensures var r := Do(s0, t, FunctionActsNow(|s0.shapes|, old(S()), func));
              if ok then Stretch(s0, old(S()), S(), stack, r) else StoppedBy(s0, S(), r, steps)
      ensures ok ==> FuncWalked(S(), func)
      decreases Left(|s0.shapes|, seen), Left(|shapes|, seen), 3
    {
      hide Core, Evolve, Settled, Spent, WellFormed, Left, Walking, StoppedBy, Do, SameVisits, Toured, Processed;
      hide CellsDone, NamesDone, Cells;
      ghost var start, sh := S(), shapes[func];
      ghost var cells := CellActsNow(|s0.shapes|, Cells(start, func));
      ghost var names := if sh.globals.Some? then NameActs(sh.globals.value, sh.names) else [];
      Then(s0, t, cells, names);
      ok := WalkCells(func, s0, stack, t);
      if !ok {
        StoppedLater(s0, S(), Do(s0, t, cells), Do(s0, t, cells + names), steps);
        return;
      }
      ghost var before := S();
      StretchDecreases(s0, start, before);
      ok := WalkNames(func, s0, stack, Do(s0, t, cells));
      if !ok { return; }
      Joined(s0, start, before, S(), stack, Do(s0, t, cells), Do(s0, t, cells + names));
      WalkedStays(before, S(), func);
      CellsStay(before, S(), func);
    }

    // ----- runnables -------------------------------------------------------

    /** getattr(), and on from there if the attribute is not None. */
    method Follow(obj: Id, a: string, ghost s0: State, ghost stack: set<Id>, ghost t: Tour) returns (ok: bool)
      requires Walking(s0, S(), stack, t) && Plain(s0, stack) && obj < |shapes| && a in ["bound", "first"]
      modifies this
      ensures var r := Do(s0, t, FollowActs(s0, t.order, Owner(old(shapes), obj), ViewsOf(s0, obj), a));
              if ok then Stretch(s0, old(S()), S(), stack, r) else StoppedBy(s0, S(), r, steps)
      ensures ok ==> Read(old(S()), obj, a) == NONE || Read(old(S()), obj, a) in seen
      decreases Left(|s0.shapes|, seen), Left(|shapes|, seen), 1
    {
      hide Core, Evolve, Settled, Spent, WellFormed, Left, Walking, StoppedBy, Do, SameVisits, Toured, Processed;
      hide FollowActs, Denotes, Asked;
      ghost var start := S();
      WalkingMeans(s0, start, stack, t);
      ghost var pl := FollowRead(s0, start, stack, t, obj, a);
      AskedWalks(s0, start, stack, t, obj, a);
      AskedGives(start, obj, a);
      DoOne(s0, t, Go(pl));
      DoneIs(s0, t, pl);
      var inner := Fetch(obj, a);
      if inner == NONE { return true; }
      ghost var before := S();
      WalkingMeans(s0, before, stack, t);
      ok := WrapRunnable(inner, s0, stack, t, pl);
      if ok { Joined(s0, start, before, S(), stack, t, Visit(s0, t, pl)); }
    }

    /** lines 220-227 */
    method WalkBinding(obj: Id, ghost s0: State, ghost stack: set<Id>, ghost t: Tour) returns (ok: bool)
      requires Walking(s0, S(), stack, t) && Plain(s0, stack - {obj}) && obj in seen
      requires obj < |s0.shapes| && s0.shapes[obj].tag == RunnableBinding
      requires RawOf(S(), Attr(obj, "bound")) == RawOf(s0, Attr(obj, "bound"))
      modifies this
      ensures var r := Do(s0, t, BindingActs(s0, obj));
              if ok then Walking(s0, S(), stack, r) && Evolve(old(S()), S()) && obj < |shapes| && Processed(S(), obj)
              else StoppedBy(s0, S(), r, steps)
      decreases Left(|s0.shapes|, seen), Left(|shapes|, seen), 1
    {
      hide Core, Evolve, Settled, Processed, Left, Walking, StoppedBy, Do, Toured, WellFormed, SameVisits, Spent;
      ghost var start := S();
      WalkingMeans(s0, start, stack, t);
      EndRead(s0, start, obj, "bound");
      var inner := Get(shapes, heap, obj, "bound");
      DoOne(s0, t, Go(Obj(inner)));
      DoneIs(s0, t, Obj(inner));
      if inner == NONE { BindingWalked(start, start, obj); return true; }
      if shapes[inner].isChat {
        BindingModelStep(s0, start, stack, t, obj);
        ok := WrapModelAt(obj, "bound", inner, false);
      } else {
        ok := WrapRunnable(inner, s0, stack, t, Obj(inner));
        if ok { BindingWalked(start, S(), obj); }
      }
    }

    /** lines 231-234: one of .first and .last */
    method WalkEnd(obj: Id, a: string, ghost s0: State, ghost stack: set<Id>, ghost t: Tour) returns (ok: bool)
      requires Walking(s0, S(), stack, t) && Plain(s0, stack) && a in ["first", "last"]
      requires obj < |s0.shapes| && s0.shapes[obj].tag == RunnableSequence
      modifies this
      ensures var r := Do(s0, t, EndActs(s0, obj, a));
              if ok then Stretch(s0, old(S()), S(), stack, r) else StoppedBy(s0, S(), r, steps)
      ensures ok ==> obj < |shapes| && (Read(S(), obj, a) == NONE || Read(S(), obj, a) in seen)
      decreases Left(|s0.shapes|, seen), Left(|shapes|, seen), 1
    {
      hide Core, Evolve, Settled, Spent, WellFormed, Left, Processed, Walking, StoppedBy, Do, Toured, SameVisits;
      ghost var start := S();
      WalkingMeans(s0, start, stack, t);
      EndRead(s0, start, obj, a);
      var inner := Get(shapes, heap, obj, a);
      DoOne(s0, t, Go(Obj(inner)));
      DoneIs(s0, t, Obj(inner));
      if inner == NONE { return true; }
      ok := WrapRunnable(inner, s0, stack, t, Obj(inner));
      if ok { FixedReads(start, S(), obj, a); }
    }

    /** lines 235-238 */
    method WalkMiddle(obj: Id, ghost s0: State, ghost stack: set<Id>, ghost t: Tour) returns (ok: bool)
      requires Walking(s0, S(), stack, t) && Plain(s0, stack)
      requires obj < |s0.shapes| && s0.shapes[obj].tag == RunnableSequence
      modifies this
      ensures var r := Do(s0, t, MiddleActs(s0, obj));
              if ok then Stretch(s0, old(S()), S(), stack, r) else StoppedBy(s0, S(), r, steps)
      ensures ok ==>
                obj < |shapes| &&
                var m := Read(S(), obj, "middle");
                m < |shapes| && (shapes[m].items.Some? ==> forall x :: x in shapes[m].items.value ==> x in seen)
      decreases Left(|s0.shapes|, seen), Left(|shapes|, seen), 2
    {
      hide Core, Evolve, Settled, Spent, WellFormed, Left, Processed, Walking, StoppedBy, Do, Act, Toured, SameVisits;
      ghost var start := S();
      WalkingMeans(s0, start, stack, t);
      EndRead(s0, start, obj, "middle");
      var middle := Get(shapes, heap, obj, "middle");
      DoOne(s0, t, Go(Inert));
      if shapes[middle].items.None? { return true; }
      var items := shapes[middle].items.value;
      ghost var acts := MiddleActs(s0, obj);
      ItemsInRange(s0, middle);
      assert acts[..0] == [];
      for k := 0 to |items|
        invariant Stretch(s0, start, S(), stack, Do(s0, t, acts[..k]))
        invariant forall x :: x in items[..k] ==> x in seen
      {
        ghost var before := S();
        StretchDecreases(s0, start, before);
        DoStep(s0, t, acts, k);
        DoneIs(s0, Do(s0, t, acts[..k]), Obj(items[k]));
        ok := WrapRunnable(items[k], s0, stack, Do(s0, t, acts[..k]), Obj(items[k]));
        if !ok {
          DoPrefix(s0, t, acts[..k + 1], acts);
          DoPrefix(s0, t, acts[..k + 1], acts[..k + 1]);
          StoppedLater(s0, S(), Do(s0, t, acts[..k + 1]), Do(s0, t, acts), steps);
          return;
        }
        Joined(s0, start, before, S(), stack, Do(s0, t, acts[..k]), Do(s0, t, acts[..k + 1]));
      }
      assert items[..|items|] == items && acts[..|items|] == acts;
      FixedReads(start, S(), obj, "middle");
      ok := true;
    }

    /** lines 230-239 */
    method WalkSequence(obj: Id, ghost s0: State, ghost stack: set<Id>, ghost t: Tour) returns (ok: bool)
      requires Walking(s0, S(), stack, t) && Plain(s0, stack)
      requires obj < |s0.shapes| && s0.shapes[obj].tag == RunnableSequence
      modifies this
      ensures var r := Do(s0, t, SequenceActs(s0, obj));
              if ok then Stretch(s0, old(S()), S(), stack, r) else StoppedBy(s0, S(), r, steps)
      ensures ok ==> obj < |shapes| && SequenceDone(S(), obj)
      decreases Left(|s0.shapes|, seen), Left(|shapes|, seen), 3
    {
      hide Core, Evolve, Settled, Spent, WellFormed, Left, Processed, Walking, StoppedBy, Do, EndActs, MiddleActs;
      hide SameVisits, Toured;
      ghost var start, first, last := S(), EndActs(s0, obj, "first"), EndActs(s0, obj, "last");
      ghost var middle := MiddleActs(s0, obj);
      ghost var t1, r := Do(s0, t, first), Do(s0, t, first + last + middle);
      Then(s0, t, first, last);
      Then(s0, t, first + last, middle);
      ok := WalkEnd(obj, "first", s0, stack, t);
      if !ok { StoppedLater(s0, S(), t1, r, steps); return; }
      ghost var second, t2 := S(), Do(s0, t, first + last);
      StretchDecreases(s0, start, second);
      ok := WalkEnd(obj, "last", s0, stack, t1);
      if !ok { StoppedLater(s0, S(), t2, r, steps); return; }
      ghost var third := S();
      Joined(s0, start, second, third, stack, t1, t2);
      StretchDecreases(s0, start, third);
      ok := WalkMiddle(obj, s0, stack, t2);
      if !ok { return; }
      Joined(s0, start, third, S(), stack, t2, r);
      FixedReads(second, third, obj, "first");
      FixedReads(third, S(), obj, "first");
      FixedReads(third, S(), obj, "last");
    }

    /** lines 244-247: one of .func and .afunc */
    method WalkCallable(obj: Id, a: string, ghost s0: State, ghost stack: set<Id>, ghost t: Tour) returns (ok: bool)
      requires Walking(s0, S(), stack, t) && Plain(s0, stack) && obj < |shapes| && obj in seen && obj in stack
      requires a in ["func", "afunc"]
      modifies this
      ensures var r := Do(s0, t, FuncActs(s0, t.log, Owner(old(shapes), obj), ViewsOf(s0, obj), a));
              if ok then Stretch(s0, old(S()), S(), stack, r) else StoppedBy(s0, S(), r, steps)
      ensures ok ==> obj < |shapes| && CallableDone(S(), obj, a)
      decreases Left(|s0.shapes|, seen), Left(|shapes|, seen), 5
    {
      hide Core, Evolve, Settled, Spent, WellFormed, Left, Processed, Walking, StoppedBy, Do, Toured, SameVisits;
      hide FuncActs, FunctionActsNow, Asked, CallableDone, FuncWalked, Present;
      ghost var start := S();
      WalkingMeans(s0, start, stack, t);
      FunctionRead(s0, start, stack, t, obj, a);
      AskedWalks(s0, start, stack, t, obj, a);
      AskedGives(start, obj, a);
      DoOne(s0, t, Go(Inert));
      var func := Fetch(obj, a);
      ghost var before := S();
      StretchDecreases(s0, start, before);
      ok := true;
      if func != NONE && shapes[func].isCallable {
        ok := WalkFuncForWrapping(func, s0, stack, t);
        if !ok { return; }
        Joined(s0, start, before, S(), stack, t, Do(s0, t, FunctionActsNow(|s0.shapes|, before, func)));
      }
      CallableWalked(start, S(), obj, a);
    }

    /** lines 255-259: generic fallback */
    method WalkFallback(obj: Id, ghost s0: State, ghost stack: set<Id>, ghost t: Tour) returns (ok: bool)
      requires Walking(s0, S(), stack, t) && Plain(s0, stack) && obj < |shapes|
      modifies this
      ensures var r := Do(s0, t, FallbackActs(s0, t.order, Owner(old(shapes), obj), ViewsOf(s0, obj)));
              if ok then Stretch(s0, old(S()), S(), stack, r) else StoppedBy(s0, S(), r, steps)
      ensures ok ==> obj < |shapes| && Reached(S(), Read(S(), obj, "bound")) && Reached(S(), Read(S(), obj, "first"))
      decreases Left(|s0.shapes|, seen), Left(|shapes|, seen), 2
    {
      hide Core, Evolve, Settled, Spent, WellFormed, Left, Processed, Walking, StoppedBy, Do, Toured, SameVisits;
      hide FollowActs, Reached;
      ghost var start, owner, views := S(), Owner(shapes, obj), ViewsOf(s0, obj);
      ghost var bound := FollowActs(s0, t.order, owner, views, "bound");
      ghost var first := FollowActs(s0, t.order, owner, views, "first");
      ghost var t1, r := Do(s0, t, bound), Do(s0, t, bound + first);
      Then(s0, t, bound, first);
      FirstIsFree(s0, t.order, t1.order, owner, views);
      ok := Follow(obj, "bound", s0, stack, t);
      if !ok { StoppedLater(s0, S(), t1, r, steps); return; }
      ghost var before := S();
      StretchDecreases(s0, start, before);
      OwnerStays(start, before, obj);
      ok := Follow(obj, "first", s0, stack, t1);
      if !ok { return; }
      Joined(s0, start, before, S(), stack, t1, r);
      FollowedStays(start, before, S(), obj, "bound");
      WalkingMeans(s0, S(), stack, r);
      FollowedStays(before, S(), S(), obj, "first");
    }

    /** lines 244-247 */
    method WalkFunctions(obj: Id, ghost s0: State, ghost stack: set<Id>, ghost t: Tour) returns (ok: bool)
      requires Walking(s0, S(), stack, t) && Plain(s0, stack) && obj < |shapes| && obj in seen && obj in stack
      modifies this
      ensures var (owner, views) := (Owner(old(shapes), obj), ViewsOf(s0, obj));
              var both := FuncActs(s0, t.log, owner, views, "func") + FuncActs(s0, t.log, owner, views, "afunc");
              var r := Do(s0, t, both);
              if ok then Stretch(s0, old(S()), S(), stack, r) else StoppedBy(s0, S(), r, steps)
      ensures ok ==> obj < |shapes| && CallableDone(S(), obj, "func") && CallableDone(S(), obj, "afunc")
      decreases Left(|s0.shapes|, seen), Left(|shapes|, seen), 6
    {
      hide Core, Evolve, Settled, Spent, WellFormed, Left, Walking, StoppedBy, Do, Toured, SameVisits, CallableDone;
      hide FuncActs, Asked;
      ghost var start, owner, views := S(), Owner(shapes, obj), ViewsOf(s0, obj);
      ghost var func, afunc := FuncActs(s0, t.log, owner, views, "func"), FuncActs(s0, t.log, owner, views, "afunc");
      ghost var t1, t2 := Do(s0, t, func), Do(s0, t, func + afunc);
      Then(s0, t, func, afunc);
      ok := WalkCallable(obj, "func", s0, stack, t);
      if !ok { StoppedLater(s0, S(), t1, t2, steps); return; }
      ghost var second := S();
      StretchDecreases(s0, start, second);
      OwnerStays(start, second, obj);
      ok := WalkCallable(obj, "afunc", s0, stack, t1);
      if !ok { return; }
      Joined(s0, start, second, S(), stack, t1, t2);
      CallableStays(second, S(), obj, "func");
    }

    /** lines 244-259 */
    method WalkOther(obj: Id, ghost s0: State, ghost stack: set<Id>, ghost t: Tour) returns (ok: bool)
      requires Walking(s0, S(), stack, t) && Plain(s0, stack) && obj < |shapes| && obj in seen && obj in stack
      requires shapes[obj].tag == OtherType
      modifies this
      ensures var r := Do(s0, t, OtherActs(s0, t, Owner(old(shapes), obj), ViewsOf(s0, obj), old(shapes)[obj].isChat));
              if ok then Stretch(s0, old(S()), S(), stack, r) else StoppedBy(s0, S(), r, steps)
      ensures ok ==> obj < |shapes| && Processed(S(), obj)
      decreases Left(|s0.shapes|, seen), Left(|shapes|, seen), 7
    {
      hide Core, Evolve, Settled, Spent, WellFormed, Left, Walking, StoppedBy, Do, Toured, SameVisits, CallableDone;
      hide FuncActs, FallbackActs, Asked, HasFunction, Reached, OtherActs;
      ghost var start, owner, views, isChat := S(), Owner(shapes, obj), ViewsOf(s0, obj), shapes[obj].isChat;
      ghost var both := FuncActs(s0, t.log, owner, views, "func") + FuncActs(s0, t.log, owner, views, "afunc");
      ghost var rest := if HasFunction(s0, owner) || isChat then [] else FallbackActs(s0, t.order, owner, views);
      ghost var t1, r := Do(s0, t, both), Do(s0, t, both + rest);
      Then(s0, t, both, rest);
      OtherActsAre(s0, t, owner, views, isChat);
      ok := WalkFunctions(obj, s0, stack, t);
      if !ok { StoppedLater(s0, S(), t1, r, steps); return; }
      ghost var second := S();
      OwnerStays(start, second, obj);
      var has := HasAny(obj, s0, stack, t1);
      ghost var third := S();
      Joined(s0, start, second, third, stack, t1, t1);
      StretchDecreases(s0, start, third);
      OwnerStays(second, third, obj);
      CallableStays(second, third, obj, "func");
      CallableStays(second, third, obj, "afunc");
      DoOne(s0, t1, Go(Inert));
      if has || shapes[obj].isChat { return; }
      WalkingMeans(s0, third, stack, t1);
      NoFunctionNoActs(s0, t, owner, views);
      ok := WalkFallback(obj, s0, stack, t1);
      if !ok { return; }
      Joined(s0, start, third, S(), stack, t1, r);
      CallableStays(third, S(), obj, "func");
      CallableStays(third, S(), obj, "afunc");
    }

    /** lines 248-249: getattr() once more, for the test against None */
    method HasAny(obj: Id, ghost s0: State, ghost stack: set<Id>, ghost t: Tour) returns (has: bool)
      requires Walking(s0, S(), stack, t) && obj < |shapes| && obj in seen
      modifies this`heap
      ensures Stretch(s0, old(S()), S(), stack, t)
      ensures has <==> HasFunction(s0, Owner(shapes, obj))
      ensures has <==> !(Read(S(), obj, "func") == NONE && Read(S(), obj, "afunc") == NONE)
    {
      hide Evolve, Settled, Spent, WellFormed, Walking, Toured, SameVisits, Asked, Core;
      ghost var start := S();
      WalkingMeans(s0, start, stack, t);
      AskedWalks(s0, start, stack, t, obj, "func");
      AskedGives(start, obj, "func");
      var func := Fetch(obj, "func");
      ghost var before := S();
      WalkingMeans(s0, before, stack, t);
      AskedWalks(s0, before, stack, t, obj, "afunc");
      AskedGives(before, obj, "afunc");
      NoFunction(s0, start, obj, "func");
      NoFunction(s0, before, obj, "afunc");
      if func != NONE { has := true; } else {
        var afunc := Fetch(obj, "afunc");
        has := afunc != NONE;
      }
      Joined(s0, start, before, S(), stack, t, t);
      WalkingMeans(s0, S(), stack, t);
      NoFunction(s0, S(), obj, "func");
      NoFunction(s0, S(), obj, "afunc");
    }

    /** lines 212-259: what a newly visited object is decides what is done with it */
    method Inspect(obj: Id, ghost s0: State, ghost stack: set<Id>, ghost t: Tour) returns (ok: bool)
      requires Walking(s0, S(), stack, t) && Plain(s0, stack - {obj}) && obj < |shapes| && obj in seen && obj in stack
      requires shapes[obj].tag == RunnableBinding ==> RawOf(S(), Attr(obj, "bound")) == RawOf(s0, Attr(obj, "bound"))
      modifies this
      ensures var r := Do(s0, t, ActsNow(s0, old(S()), t, obj));
              if ok then Walking(s0, S(), stack, r) && Evolve(old(S()), S()) && obj < |shapes| && Processed(S(), obj)
              else StoppedBy(s0, S(), r, steps)
      ensures ok && obj >= |s0.shapes| ==> Spent(s0, old(S()), S())
      ensures ok && old(shapes)[obj].tag !in {ToolNode, RunnableBinding} ==> Spent(s0, old(S()), S())
      decreases Left(|s0.shapes|, seen), Left(|shapes|, seen), 8
    {
      hide Evolve, Settled, Spent, WellFormed, Walking, Toured, SameVisits, Left, StoppedBy, Do, Actions, OtherActs;
      hide BindingActs;
      WalkingMeans(s0, S(), stack, t);
      RecognisedIsOriginal(s0, S(), obj);
      if obj < |s0.shapes| { ShapeKept(s0, S(), obj); }
      hide Core;
      DoOne(s0, t, Go(Inert));
      PlainToo(s0, stack, obj);
      match shapes[obj].tag {
        case ToolNode => ok := WrapToolnodeTools(obj, s0, stack, t);
        case RunnableBinding => ok := WalkBinding(obj, s0, stack, t);
        case RunnableSequence => ok := WalkSequence(obj, s0, stack, t);
        case OtherType => ok := WalkOther(obj, s0, stack, t);
      }
    }

    /** lines 200-259 */
    method WrapRunnable(obj: Id, ghost s0: State, ghost stack: set<Id>, ghost t: Tour, ghost pl: Place)
      returns (ok: bool)
      requires Walking(s0, S(), stack, t) && Plain(s0, stack) && Denotes(s0, S(), pl, obj)
      modifies this
      ensures var r := Visit(s0, t, pl);
              if ok then Stretch(s0, old(S()), S(), stack, r) && obj in seen else StoppedBy(s0, S(), r, steps)
      decreases Left(|s0.shapes|, seen), Left(|shapes|, seen), 0
    {
      hide Evolve, WellFormed, Processed, Left, Walking, StoppedBy, Do, Settled, Core, ActsNow, Denotes, Visit;
      ghost var start := S();
      WalkingMeans(s0, start, stack, t);
      if obj in seen { SeenIsVisited(s0, start, stack, t, pl, obj); return true; }
      EnterWalks(s0, start, stack, t, pl, obj);
      BoundUntouched(s0, start, obj);
      seen := seen + {obj};
      ghost var inside, t1 := S(), EnterPlace(s0, t, pl);
      VisitIs(s0, start, t, pl, obj);
      ActsAreFree(s0, start, inside, t1, obj);
      ok := Step();  // the probes of the newly visited object
      if !ok { StopsInside(s0, inside, stack + {obj}, t1, ActsNow(s0, inside, t1, obj)); return; }
      VisitDecreases(s0, start, obj, inside);
      ok := Inspect(obj, s0, stack + {obj}, t1);
      if !ok { return; }
      PopWalks(s0, S(), stack, Visit(s0, t, pl), obj);
      EvolveMeans(inside, S());
      EvolveTransitive(start, inside, S());
      VisitSpends(s0, start, obj, S());
    }

    // ----- nodes -----------------------------------------------------------

    /** lines 316-366: one of .func and .afunc of a node's runnable */
    method WrapNodeAttr(bound: Id, a: string, ghost s0: State, ghost t: Tour, ghost pl: Place)
      returns (ok: bool, wrapped: bool)
      requires Walking(s0, S(), {}, t) && Denotes(s0, S(), pl, bound) && !pl.Inert?
      requires bound in seen && bound < |shapes| && a in ["func", "afunc"]
      modifies this
      ensures var r := t.(log := PlanAttr(s0, HandleAt(s0, t.stale, pl), a, t.log));
              if ok then Walking(s0, S(), {}, r) && Evolve(old(S()), S()) && S() == NodeAttr(old(S()), bound, a)
              else StoppedBy(s0, S(), r, steps)
      ensures seen == old(seen) && (wrapped ==> ok) && (ok ==> (wrapped <==> !AlreadyTraced(old(S()), bound, a)))
    {
      hide Evolve, WellFormed, Walking, StoppedBy, Settled, Core, Denotes, Toured, SameVisits, Asked, Recordable;
      hide HandleAt, PlanAttr, FuncWalked, Comes;
      ghost var start := S();
      WalkingMeans(s0, start, {}, t);
      GivesAsPlanned(s0, start, t, pl, bound, a);
      AskedWalks(s0, start, {}, t, bound, a);
      AskedGives(start, bound, a);
      NotRewritten(s0, HandleAt(s0, t.stale, pl), a, t.log);
      var orig := Fetch(bound, a);
      ok, wrapped := true, true;
      if orig != NONE && shapes[orig].isCallable {
        if shapes[orig].nodeTraced || Mark(orig) in heap { return true, false; }
        ghost var slot, before := Attr(Owner(shapes, bound), a), S();
        NodeFuncStep(s0, start, t, pl, bound, a);
        WalkingMeans(s0, before, {}, t);
        RecordableMeans(s0, before, slot, orig);
        SameRefusal(s0, before, slot);
        if Rejects(s0.shapes, slot) {
          LastComes(s0, t, slot, orig);
          RecordStops(s0, before, {}, t, slot, orig, Rewrote(t, slot, orig), steps);
        } else {
          PutWalks(s0, before, {}, t, slot, orig);
          EvolveTransitive(start, before, Put(before, slot, orig));
        }
        ok := Replace(Attr(Owner(shapes, bound), a), orig);
        wrapped := ok;
      }
    }

    /** lines 302-366 */
    method WrapNodeFunc(bound: Id, ghost s0: State, ghost t: Tour, ghost pl: Place) returns (ok: bool)
      requires Walking(s0, S(), {}, t) && Denotes(s0, S(), pl, bound) && !pl.Inert? && bound in seen && bound < |shapes|
      modifies this
      ensures var r := t.(log := PlanNode(s0, HandleAt(s0, t.stale, pl), t.log));
              if ok then Walking(s0, S(), {}, r) && Evolve(old(S()), S()) && S() == WrapNode(old(S()), bound)
              else StoppedBy(s0, S(), r, steps)
      ensures seen == old(seen)
    {
      hide Evolve, WellFormed, Walking, StoppedBy, Settled, Core, Denotes, Toured, SameVisits, HandleAt, PlanAttr;
      hide Asked, NodeAttr, GivesTraced, AlreadyTraced;
      ghost var start, h := S(), HandleAt(s0, t.stale, pl);
      WalkingMeans(s0, start, {}, t);
      GivesAsPlanned(s0, start, t, pl, bound, "func");
      AskedWalks(s0, start, {}, t, bound, "func");
      PlanGrows(s0, h, t.log);
      ghost var t1, r := t.(log := PlanAttr(s0, h, "func", t.log)), t.(log := PlanNode(s0, h, t.log));
      var wrapped;
      ok, wrapped := WrapNodeAttr(bound, "func", s0, t, pl);
      if !ok { StoppedLater(s0, S(), t1, r, steps); return; }
      ghost var before := S();
      if !wrapped { TracedAttr(start, bound, "func"); return; }  // already wrapped: .afunc is not looked at either
      DenotesStays(s0, start, before, pl, bound);
      EvolveMeans(start, before);
      ok, wrapped := WrapNodeAttr(bound, "afunc", s0, t1, pl);
      if ok { EvolveTransitive(start, before, S()); }
    }

    /** One round of lines 188-197. */
    method WrapGraphNode(nodes: Id, name: string, ghost s0: State, ghost t: Tour) returns (ok: bool)
      requires Walking(s0, S(), {}, t) && Item(nodes, name) in s0.heap && name != "__start__"
      modifies this
      ensures var r := NodeTurn(s0, t, nodes, name);
              if ok then Walking(s0, S(), {}, r) && Evolve(old(S()), S()) && NodeDone(S(), nodes, name)
              else StoppedBy(s0, S(), r, steps)
    {
      hide Core, Evolve, Settled, WellFormed, PlanNode, PlanAttr, Processed, WrapNode, Walking, StoppedBy, Toured;
      hide SameVisits, NodeTurn, Asked, Visit, HandleAt, GivenActs, Denotes;
      ghost var start := S();
      WalkingMeans(s0, start, {}, t);
      ghost var pl := NodeGives(s0, start, t, nodes, name);
      var node := heap[Item(nodes, name)];
      AskedWalks(s0, start, {}, t, node, "bound");
      AskedGives(start, node, "bound");
      TurnIs(s0, t, nodes, name);
      var bound := Fetch(node, "bound");
      ghost var second := S();
      if bound == NONE {
        NothingGiven(start, second, nodes, name);
        return true;
      }
      ok := WrapRunnable(bound, s0, {}, t, pl);
      ghost var t1, r := Visit(s0, t, pl), NodeTurn(s0, t, nodes, name);
      PlanGrows(s0, HandleAt(s0, t1.stale, pl), t1.log);
      if !ok { StoppedLater(s0, S(), t1, r, steps); return; }
      ghost var third := S();
      WalkingMeans(s0, second, {}, t);
      DenotesStays(s0, second, third, pl, bound);
      EvolveMeans(second, third);
      ok := WrapNodeFunc(bound, s0, t1, pl);
      if !ok { StoppedLater(s0, S(), t1.(log := r.log), r, steps); return; }
      HandlesDoNotMatter(s0, S(), {}, t1.(log := r.log), r.hs);
      EvolveTransitive(start, second, third);
      NodeIsDone(start, third, nodes, name);
      EvolveTransitive(start, third, S());
    }

    /** The loop of lines 187-197. */
    method WrapNodes(nodes: Id, names: seq<string>, ghost s0: State) returns (ok: bool)
      requires S() == s0 && WellFormed(s0) && seen == {} && NamesAreItems(s0, nodes, names)
      modifies this
      ensures var r := NodesTour(s0, nodes, names);
              if ok then Walking(s0, S(), {}, r) && Evolve(s0, S()) && NodesPrefix(S(), nodes, names, |names|)
              else StoppedBy(s0, S(), r, steps)
    {
      hide Core, Evolve, Settled, WellFormed, Processed, NodesPrefix, Walking, StoppedBy, Toured, SameVisits;
      hide NodeTurn, NodeDone;
      StartsWalking(s0);
      NoNodesYet(s0, nodes, names);
      assert names[..0] == [];
      for i := 0 to |names|
        invariant Walking(s0, S(), {}, NodesTour(s0, nodes, names[..i])) && Evolve(s0, S())
        invariant NodesPrefix(S(), nodes, names, i)
      {
        ghost var before := S();
        TourGrows(s0, nodes, names, i + 1);
        assert names[..i + 1][..i] == names[..i];
        if names[i] != "__start__" {
          ok := WrapGraphNode(nodes, names[i], s0, NodesTour(s0, nodes, names[..i]));
          if !ok {
            StoppedLater(s0, S(), NodesTour(s0, nodes, names[..i + 1]), NodesTour(s0, nodes, names), steps);
            return;
          }
          EvolveTransitive(s0, before, S());
          NodesPrefixStep(before, S(), nodes, names, i);
        } else {
          StartIsSkipped(s0, S(), NodesTour(s0, nodes, names[..i]), nodes, names, i);
        }
      }
      assert names[..|names|] == names;
      ok := true;
    }

    /** lines 179-197. "graph" is a compiled graph, so no proxy. */
    method WrapGraphInternals(graph: Id) returns (ok: bool)
      requires WellFormed(S()) && graph < |shapes| && shapes[graph].target.None?
      modifies this
      ensures var s0 := old(S()).(seen := {});
              var nodes := Read(s0, graph, "nodes");
              && nodes < |s0.shapes|
              && (s0.shapes[nodes].keys.None? ==> ok && S() == old(S()))
              && (s0.shapes[nodes].keys.Some? ==>
                    var names := s0.shapes[nodes].keys.value;
                    var r := NodesTour(s0, nodes, names);
                    if ok then
                      && Walking(s0, S(), {}, r) && Evolve(s0, S()) && NodesPrefix(S(), nodes, names, |names|)
                      && !WouldRefuse(s0, r)
                      && (Entered(s0, S()) <==> HotAfter(s0, r.order) || SomeReread(s0, nodes, names))
                    else StoppedBy(s0, S(), r, steps))
    {
      ReadInRange(S(), graph, "nodes");
      hide Core, Evolve, Settled, WellFormed, Processed, NodesPrefix, Walking, StoppedBy, Toured, SameVisits, NodesTour;
      hide WouldRefuse, HotAfter, SomeReread, Entered;
      var nodes := Get(shapes, heap, graph, "nodes");
      if shapes[nodes].keys.None? { return true; }
      seen := {};
      ghost var s0 := S();
      SeenDoesNotMatter(old(S()), {});
      assert s0 == old(S()).(seen := {});
      KeysAreItems(s0, nodes);
      ok := WrapNodes(nodes, shapes[nodes].keys.value, s0);
      if ok {
        ghost var r := NodesTour(s0, nodes, s0.shapes[nodes].keys.value);
        NothingRefused(s0, S(), r);
        EnteredAsTold(s0, S(), r);
        EntersOwnIff(s0, nodes, s0.shapes[nodes].keys.value);
      }
    }

    /** lines 432-441: an assignment that raises ends the loop */
    method RestoreOriginals() returns (ok: bool)
      modifies this`heap
      ensures (heap, ok) == Replay(shapes, old(heap), originals)
    {
      var i := |originals|;
      assert originals[..i] == originals;
      while i > 0
        invariant 0 <= i <= |originals|
        invariant Replay(shapes, heap, originals[..i]) == Replay(shapes, old(heap), originals)
      {
        i := i - 1;
        assert originals[..i + 1][..i] == originals[..i];
        var slot := originals[i].slot;
        if slot.Attr? && slot.owner < |shapes| && slot.name in shapes[slot.owner].refuses &&
           shapes[slot.owner].refuses[slot.name]
        {
          return false;
        }
        heap := heap[slot := originals[i].saved];
      }
      ok := true;
    }
  }
}
