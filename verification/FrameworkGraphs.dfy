/**
 Small graphs that show where a LangGraph call is exact, logs twice, leaves something
 behind, meets its own proxies, or cannot be undone. Source:
 src/rastir/langgraph_support.py:179-441 and src/rastir/wrapper.py:168-203.
 */
module FrameworkGraphs {
  import opened ObjectHeap
  import opened LangGraphState
  import opened LangGraphPlan
  import opened LangGraphProgress
  import opened LangGraphTour
  import opened LangGraphInvariant
  import opened LangGraphReads
  import opened LangGraphNodes
  import opened LangGraphOwnProxies
  import opened LangGraphWrappers
  import opened FrameworkRun

  const Plain := Shape(OtherType, false, false, false, false, false, None, None, [], [], None, None,
                       map[], None, map[], map[])

  const Callable := Plain.(isCallable := true)

  function Proxy(target: Id, views: map<string, Id>): Shape {
    Plain.(marked := true, target := Some(target), views := views)
  }

  function WrapperOf(p: Id, a: string): Shape { Callable.(wrapper := Some(View(p, a))) }

  /** No class attributes, and the keys of a dict are in the heap. */
  predicate Simple(s: State, i: Id)
    requires i < |s.shapes|
  {
    s.shapes[i].inherited == map[] &&
    (s.shapes[i].keys.Some? ==> forall k :: k in s.shapes[i].keys.value ==> Item(i, k) in s.heap)
  }

  lemma SimpleIsWellFormed(s: State)
    requires s.shapes != [] && !s.shapes[NONE].isCallable && !s.shapes[NONE].isChat
    requires forall i :: 0 <= i < |s.shapes| ==> ShapeOk(s.shapes, i) && Simple(s, i)
    requires forall slot :: slot in s.heap ==> SlotOk(s, slot)
    ensures WellFormed(s)
  {
    hide ShapeOk, SlotOk;
    forall i | 0 <= i < |s.shapes| ensures s.shapes[i].inherited == map[] { assert Simple(s, i); }
    forall d, k | 0 <= d < |s.shapes| && s.shapes[d].keys.Some? && k in s.shapes[d].keys.value
      ensures Item(d, k) in s.heap
    {
      assert Simple(s, d);
    }
  }

  /** A place that leads nowhere is only entered. */
  lemma LeafVisit(s0: State, t: Tour, pl: Place)
    requires InRange(s0, pl) && pl !in t.order && Actions(s0, t, pl) == []
    ensures Visit(s0, t, pl) == Enter(s0, t, pl)
  {
  }

  lemma OneNode(s0: State, nodes: Id, a: string)
    ensures NodesTour(s0, nodes, [a]) == NodeTurn(s0, START, nodes, a)
  {
    assert [a][..0] == [];
  }

  lemma TwoNodes(s0: State, nodes: Id, a: string, b: string)
    ensures NodesTour(s0, nodes, [a, b]) == NodeTurn(s0, NodeTurn(s0, START, nodes, a), nodes, b)
  {
    assert [a, b][..1] == [a];
    OneNode(s0, nodes, a);
  }

  // ----- a runnable and the user's proxy of it ----------------------------------------

  /**
   Function 1 of runnable 2, the user's unfiltered proxy 3 of the runnable with its span
   wrapper 4, nodes 5 giving the runnable and 6 giving the proxy, table 7, graph 8. The
   wrapper may have been made before, and the function may close over the proxy.
   */
  function SharedGraph(order: seq<string>, cached: bool, closed: bool): State {
    var func := Callable.(closure := if closed then [Some(3)] else []);
    var heap := map[Attr(2, "func") := 1, Attr(5, "bound") := 2, Attr(6, "bound") := 3,
                    Item(7, "bare") := 5, Item(7, "caught") := 6, Attr(8, "nodes") := 7];
    State([Plain, func, Plain, Proxy(2, map["func" := 4]), WrapperOf(3, "func"), Plain, Plain,
           Plain.(keys := Some(order)), Plain],
          if cached then heap[Method(4) := 1] else heap, [], {})
  }

  const Bare := Handle(2, map[], {})

  function Caught(marked: set<string>): Handle { Handle(2, map["func" := 4], marked) }

  const Func := Attr(2, "func")

  lemma SharedIsWellFormed(order: seq<string>, cached: bool, closed: bool)
    requires forall name :: name in order ==> name in ["bare", "caught"]
    ensures WellFormed(SharedGraph(order, cached, closed))
    ensures Read(SharedGraph(order, cached, closed), 8, "nodes") == 7
  {
    hide ShapeOk, SlotOk, Simple, WellFormed;
    var s := SharedGraph(order, cached, closed);
    forall i | 0 <= i < |s.shapes| ensures ShapeOk(s.shapes, i) && Simple(s, i) {
      SharedShapeOk(order, cached, closed, i);
    }
    forall slot | slot in s.heap ensures SlotOk(s, slot) { SharedSlotOk(order, cached, closed, slot); }
    SimpleIsWellFormed(s);
  }

  lemma SharedSlotOk(order: seq<string>, cached: bool, closed: bool, slot: Slot)
    requires slot in SharedGraph(order, cached, closed).heap
    ensures SlotOk(SharedGraph(order, cached, closed), slot)
  {
  }

  lemma SharedShapeOk(order: seq<string>, cached: bool, closed: bool, i: Id)
    requires i < |SharedGraph(order, cached, closed).shapes|
    requires forall name :: name in order ==> name in ["bare", "caught"]
    ensures ShapeOk(SharedGraph(order, cached, closed).shapes, i) && Simple(SharedGraph(order, cached, closed), i)
  {
  }

  lemma SharedGives(order: seq<string>, cached: bool, closed: bool, visited: seq<Place>)
    ensures var s := SharedGraph(order, cached, closed);
            GivenActs(s, visited, 7, "bare") == [Go(Obj(2))] && GivenActs(s, visited, 7, "caught") == [Go(Obj(3))]
  {
  }

  lemma SharedReads(order: seq<string>, cached: bool, closed: bool)
    ensures var s := SharedGraph(order, cached, closed);
            && RawOf(s, Func) == 1 && RawOf(s, Attr(2, "afunc")) == NONE
            && ViewsOf(s, 2) == map[] && ViewsOf(s, 3) == map["func" := 4] && !s.shapes[1].nodeTraced
            && OwnerOf(s, Obj(2)) == 2 && OwnerOf(s, Obj(3)) == 2 && Mark(1) !in s.heap && Mark(4) !in s.heap
            && InRange(s, Obj(3))
  {
  }

  lemma SharedHandles(order: seq<string>, cached: bool, closed: bool, stale: set<Id>)
    ensures var s := SharedGraph(order, cached, closed);
            && HandleAt(s, stale, Obj(2)) == Bare
            && HandleAt(s, stale, Obj(3)) == Caught(if !cached && 4 in stale then {"func"} else {})
  {
    SharedGives(order, cached, closed, []);
    SharedReads(order, cached, closed);
  }

  /** What the turns of the two kinds of handle amount to. */
  lemma SharedTurns(order: seq<string>, cached: bool, closed: bool)
    ensures var s, raw, caught := SharedGraph(order, cached, closed), Entry(Func, 1), Entry(Func, 4);
            && PlanNode(s, Bare, []) == [raw] && RawTurn(s, Bare, [])
            && RawTurn(s, Caught({}), [raw]) && RewritesAgain(s, Caught({}), "func", [raw])
            && RawTurn(s, Caught({"func"}), [raw]) && PlanNode(s, Caught({"func"}), [raw]) == [raw]
            && PlanNode(s, Caught({}), []) == [caught] && !RawTurn(s, Caught({}), [])
  {
    var s, raw := SharedGraph(order, cached, closed), Entry(Func, 1);
    SharedGives(order, cached, closed, []);
    SharedReads(order, cached, closed);
    assert Times([raw], Func) == 1 && Times([raw], Attr(2, "afunc")) == 0;
  }

  lemma BareVisit(order: seq<string>, cached: bool, closed: bool)
    requires forall name :: name in order ==> name in ["bare", "caught"]
    ensures var t := Visit(SharedGraph(order, cached, closed), START, Obj(2));
            (Obj(3) in t.order <==> closed) && 4 !in t.stale && t.log == [] && t.hs == []
  {
    var s := SharedGraph(order, cached, closed);
    SharedIsWellFormed(order, cached, closed);
    SharedReads(order, cached, closed);
    BareActs(order, cached, closed);
    assert InRange(s, Obj(2)) && Enter(s, START, Obj(2)).order == [Obj(2)];
    hide WellFormed, SharedGraph, Actions, Enter;
    VisitStaler(s, START, Obj(2), 3, "func");
    if closed {
      VisitDoes(s, START, Obj(2));
      DoOne(s, Enter(s, START, Obj(2)), Go(Obj(3)));
    } else {
      LeafVisit(s, START, Obj(2));
    }
  }

  /** The proxy is visited in the first node's turn only if the function leads to it. */
  lemma BareTurn(order: seq<string>, cached: bool, closed: bool)
    requires forall name :: name in order ==> name in ["bare", "caught"]
    ensures var s := SharedGraph(order, cached, closed);
            var t := NodeTurn(s, START, 7, "bare");
            t.hs == [Bare] && t.log == [Entry(Func, 1)] && (Obj(3) in t.order <==> closed) && 4 !in t.stale
  {
    hide SharedGraph, GivenActs, HandleAt, PlanNode, Visit, NodeTurn;
    var s := SharedGraph(order, cached, closed);
    SharedGives(order, cached, closed, []);
    BareVisit(order, cached, closed);
    TurnIs(s, START, 7, "bare");
    SharedHandles(order, cached, closed, Visit(s, START, Obj(2)).stale);
    SharedTurns(order, cached, closed);
  }

  lemma BareActs(order: seq<string>, cached: bool, closed: bool)
    ensures Actions(SharedGraph(order, cached, closed), START, Obj(2)) == if closed then [Go(Obj(3))] else []
  {
    var s := SharedGraph(order, cached, closed);
    SharedReads(order, cached, closed);
    assert Cells(s, 1) == if closed then [Some(3)] else [];
    assert closed ==> [Some(3)][..0] == [];
    assert CellActs(Cells(s, 1)) == if closed then [Go(Obj(3))] else [];
    assert FuncActs(s, [], 2, map[], "afunc") == [];
  }

  /** The runnable first, then the proxy: what the proxy hands out depends on when its wrapper was made. */
  lemma BareThenCaught(order: seq<string>, cached: bool, closed: bool)
    requires order == ["bare", "caught"]
    ensures var s := SharedGraph(order, cached, closed);
            && WellFormed(s) && Read(s, 8, "nodes") == 7
            && Given(s, 7, order) == [Bare, Caught(if cached || closed then {} else {"func"})]
  {
    var s := SharedGraph(order, cached, closed);
    var t := NodeTurn(s, START, 7, "bare");
    SharedIsWellFormed(order, cached, closed);
    SharedGives(order, cached, closed, t.order);
    SharedReads(order, cached, closed);
    hide WellFormed, SharedGraph, NodeTurn, GivenActs, HandleAt, Visit, MakesStale, PlanNode, Read;
    BareTurn(order, cached, closed);
    TwoNodes(s, 7, "bare", "caught");
    VisitStaler(s, t, Obj(3), 3, "func");
    SharedHandles(order, cached, closed, Visit(s, t, Obj(3)).stale);
    MakesStaleNow(order, cached, closed);
    TurnIs(s, t, 7, "caught");
  }

  lemma MakesStaleNow(order: seq<string>, cached: bool, closed: bool)
    ensures MakesStale(SharedGraph(order, cached, closed), [Entry(Func, 1)], Obj(3), "func") <==> !cached
  {
    SharedGives(order, cached, closed, []);
    SharedReads(order, cached, closed);
    assert Times([Entry(Func, 1)], Func) == 1;
  }

  lemma PlanOfOne(s0: State, h: Handle)
    ensures Plan(s0, [h]) == PlanNode(s0, h, [])
  {
    assert [h][..0] == [];
  }

  /**
   A wrapper cached before the call, or made while the function was still the user's,
   does not carry the mark: the slot is logged a second time, and the undo is exact.
   */
  lemma CachedIsLoggedTwice(cached: bool, closed: bool)
    requires cached || closed
    ensures var order := ["bare", "caught"];
            var s := SharedGraph(order, cached, closed);
            && WellFormed(s) && Read(s, 8, "nodes") == 7
            && SomeoneAgain(s, Given(s, 7, order), 2, "func") && FirstsHandRaw(s, Given(s, 7, order))
  {
    hide WellFormed, RewritesAgain, RawTurn, NodesTour;
    var order := ["bare", "caught"];
    var s, hs := SharedGraph(order, cached, closed), [Bare, Caught({})];
    BareThenCaught(order, cached, closed);
    SharedTurns(order, cached, closed);
    PlanOfOne(s, Bare);
    assert hs[..0] == [] && hs[..1] == [Bare];
    assert RawTurnAt(s, hs, 0) && RawTurnAt(s, hs, 1);
    assert AgainAt(s, hs, 2, "func", 1);
  }

  /**
   A fresh proxy makes its wrapper over the traced function and copies the mark: the slot
   is logged once, the undo is exact, and the proxy is left with a wrapper of a traced function.
   */
  lemma FreshIsLoggedOnce()
    ensures var order := ["bare", "caught"];
            var s := SharedGraph(order, false, false);
            && WellFormed(s) && Read(s, 8, "nodes") == 7
            && Plan(s, Given(s, 7, order)) == [Entry(Func, 1)] && FirstsHandRaw(s, Given(s, 7, order))
            && VisitedLate(s, 7, order, 3, "func")
  {
    hide WellFormed, RawTurn, NodesTour, PlanNode, LateAt;
    var order := ["bare", "caught"];
    var s, hs := SharedGraph(order, false, false), [Bare, Caught({"func"})];
    BareThenCaught(order, false, false);
    SharedTurns(order, false, false);
    PlanOfOne(s, Bare);
    assert hs[..0] == [] && hs[..1] == [Bare];
    assert RawTurnAt(s, hs, 0) && RawTurnAt(s, hs, 1);
    FreshIsLate(order);
  }

  lemma FreshIsLate(order: seq<string>)
    requires order == ["bare", "caught"]
    ensures LateAt(SharedGraph(order, false, false), 7, order, 3, "func", 1)
  {
    hide WellFormed;
    var s := SharedGraph(order, false, false);
    BareTurn(order, false, false);
    OneNode(s, 7, "bare");
    SharedGives(order, false, false, NodeTurn(s, START, 7, "bare").order);
    MakesStaleNow(order, false, false);
    TwoNodes(s, 7, "bare", "caught");
    assert order[..1] == ["bare"] && order[..2] == order;
  }

  /** The other way round the user's span wrapper is logged first and written back, fresh or not. */
  lemma CaughtFirstIsNotUndone(cached: bool)
    ensures var order := ["caught", "bare"];
            var s := SharedGraph(order, cached, false);
            && WellFormed(s) && Read(s, 8, "nodes") == 7 && !FirstsHandRaw(s, Given(s, 7, order))
  {
    hide RewritesAgain, RawTurn;
    var order := ["caught", "bare"];
    var s := SharedGraph(order, cached, false);
    var t := NodeTurn(s, START, 7, "caught");
    SharedIsWellFormed(order, cached, false);
    SharedGives(order, cached, false, []);
    SharedReads(order, cached, false);
    SharedGives(order, cached, false, t.order);
    hide WellFormed;
    VisitStaler(s, START, Obj(3), 3, "func");
    SharedHandles(order, cached, false, Visit(s, START, Obj(3)).stale);
    SharedTurns(order, cached, false);
    TwoNodes(s, 7, "caught", "bare");
    var hs := Given(s, 7, order);
    assert hs[..0] == [] && hs[0] == Caught({});
    assert !RawTurnAt(s, hs, 0);
  }

  // ----- two proxies of one runnable -----------------------------------------------------

  /**
   Functions 1 and 2 of runnable 3. Proxy 4 intercepts only .afunc, with wrapper 5 made
   over traced function 9 in an earlier call; proxy 6 is fresh, with wrappers 7 and 8 to
   be made. Node 10 gives the first, node 11 the second; table 12.
   */
  function FilteredGraph(): State {
    State([Plain, Callable, Callable, Plain, Proxy(3, map["afunc" := 5]), WrapperOf(4, "afunc"),
           Proxy(3, map["func" := 7, "afunc" := 8]), WrapperOf(6, "func"), WrapperOf(6, "afunc"),
           Callable.(nodeTraced := true), Plain, Plain, Plain.(keys := Some(["filtered", "fresh"]))],
          map[Attr(3, "func") := 1, Attr(3, "afunc") := 2, Method(5) := 9, Mark(5) := 9, Attr(10, "bound") := 4,
              Attr(11, "bound") := 6, Item(12, "filtered") := 10, Item(12, "fresh") := 11], [], {})
  }

  lemma FilteredShapeOk(i: Id)
    requires i < |FilteredGraph().shapes|
    ensures ShapeOk(FilteredGraph().shapes, i) && Simple(FilteredGraph(), i)
  {
    if i < 5 {
      FirstShapesOk(i);
    } else if i < 9 {
      MiddleShapesOk(i);
    } else {
      LastShapesOk(i);
    }
  }

  lemma FirstShapesOk(i: Id)
    requires i < 5
    ensures ShapeOk(FilteredGraph().shapes, i) && Simple(FilteredGraph(), i)
  {
  }

  lemma MiddleShapesOk(i: Id)
    requires 5 <= i < 9
    ensures ShapeOk(FilteredGraph().shapes, i) && Simple(FilteredGraph(), i)
  {
  }

  lemma LastShapesOk(i: Id)
    requires 9 <= i < |FilteredGraph().shapes|
    ensures ShapeOk(FilteredGraph().shapes, i) && Simple(FilteredGraph(), i)
  {
  }

  lemma FilteredSlotOk(slot: Slot)
    requires slot in FilteredGraph().heap
    ensures SlotOk(FilteredGraph(), slot)
  {
  }

  lemma FilteredIsWellFormed()
    ensures WellFormed(FilteredGraph())
  {
    hide ShapeOk, SlotOk, Simple, WellFormed;
    var s := FilteredGraph();
    forall i | 0 <= i < |s.shapes| ensures ShapeOk(s.shapes, i) && Simple(s, i) { FilteredShapeOk(i); }
    forall slot | slot in s.heap ensures SlotOk(s, slot) { FilteredSlotOk(slot); }
    SimpleIsWellFormed(s);
  }

  const Filtered := Handle(3, map["afunc" := 5], {"afunc"})

  lemma FilteredGives(visited: seq<Place>)
    ensures var s := FilteredGraph();
            && GivenActs(s, visited, 12, "filtered") == [Go(Obj(4))]
            && GivenActs(s, visited, 12, "fresh") == [Go(Obj(6))]
  {
  }

  lemma FilteredReads()
    ensures var s := FilteredGraph();
            && RawOf(s, Attr(3, "func")) == 1 && RawOf(s, Attr(3, "afunc")) == 2
            && ViewsAt(s, Obj(4)) == map["afunc" := 5] && ViewsAt(s, Obj(6)) == map["func" := 7, "afunc" := 8]
            && OwnerOf(s, Obj(4)) == 3 && OwnerOf(s, Obj(6)) == 3 && Mark(1) !in s.heap && Method(7) !in s.heap
            && Mark(5) in s.heap && Method(5) in s.heap
  {
  }

  lemma FilteredHandles(stale: set<Id>)
    ensures HandleAt(FilteredGraph(), stale, Obj(4)) == Filtered
    ensures var h := HandleAt(FilteredGraph(), stale, Obj(6)); h.owner == 3 && (7 in stale ==> "func" in h.marked)
    ensures HandleAt(FilteredGraph(), stale, Obj(6)).views == map["func" := 7, "afunc" := 8]
  {
    FilteredGives([]);
    FilteredReads();
  }

  /** What the two of them do to the log: .func is rewritten as it is, and both then give traced functions. */
  lemma FilteredTurns(h: Handle)
    requires h.owner == 3 && h.views == map["func" := 7, "afunc" := 8] && "func" in h.marked
    ensures var s, raw := FilteredGraph(), Entry(Attr(3, "func"), 1);
            && PlanNode(s, Filtered, []) == [raw] && RawTurn(s, Filtered, [])
            && PlanNode(s, h, [raw]) == [raw] && RawTurn(s, h, [raw])
  {
    FilteredGives([]);
    FilteredReads();
    assert Times([Entry(Attr(3, "func"), 1)], Attr(3, "func")) == 1;
  }

  lemma FilteredStale(t: Tour)
    requires t.log == [Entry(Attr(3, "func"), 1)]
    ensures MakesStale(FilteredGraph(), t.log, Obj(6), "func")
  {
    FilteredGives([]);
    FilteredReads();
    assert Times([Entry(Attr(3, "func"), 1)], Attr(3, "func")) == 1;
  }

  /** The tour does not come to the second proxy before its node. */
  lemma FilteredFirstTurn()
    ensures var t := NodeTurn(FilteredGraph(), START, 12, "filtered");
            t.log == [Entry(Attr(3, "func"), 1)] && t.hs == [Filtered] && Obj(6) !in t.order
  {
    var s := FilteredGraph();
    FilteredGives([]);
    FilteredReads();
    FilteredHandles(Visit(s, START, Obj(4)).stale);
    FilteredHandles({7});
    FilteredTurns(HandleAt(s, {7}, Obj(6)));
    FilteredOrder();
  }

  lemma FilteredOrder()
    ensures Obj(6) !in Visit(FilteredGraph(), START, Obj(4)).order
  {
    var s := FilteredGraph();
    var t := Enter(s, START, Obj(4));
    FilteredActs();
    assert [Go(Obj(9))][..0] == [];
    DoOne(s, t, Go(Obj(9)));
    NineIsLeaf(t);
    LeafVisit(s, t, Obj(9));
  }

  lemma FilteredActs()
    ensures Actions(FilteredGraph(), START, Obj(4)) == [Go(Obj(9))]
  {
    var s := FilteredGraph();
    FilteredGives([]);
    FilteredReads();
    assert Cells(s, 1) == [] && Cells(s, 5) == [Some(9)];
    assert [Some(9)][..0] == [];
    assert CellActs(Cells(s, 5)) == [Go(Obj(9))];
    assert FuncActs(s, [], 3, map["afunc" := 5], "func") == [];
    assert FuncActs(s, [], 3, map["afunc" := 5], "afunc") == [Go(Obj(9))];
  }

  lemma NineIsLeaf(t: Tour)
    ensures Actions(FilteredGraph(), t, Obj(9)) == []
  {
    var s := FilteredGraph();
    assert RawOf(s, Attr(9, "func")) == NONE && RawOf(s, Attr(9, "afunc")) == NONE;
    assert RawOf(s, Attr(9, "bound")) == NONE && RawOf(s, Attr(9, "first")) == NONE;
  }

  /** Only .func is logged, as it is, although a stale wrapper of .afunc is handed out first. */
  lemma FilteredIsExact()
    ensures var s, names := FilteredGraph(), ["filtered", "fresh"];
            && WellFormed(s) && FirstsHandRaw(s, Given(s, 12, names))
            && Plan(s, Given(s, 12, names)) == [Entry(Attr(3, "func"), 1)]
  {
    hide WellFormed, RawTurn, PlanNode, FilteredGraph, NodesTour, NodeTurn, Visit, GivenActs, HandleAt, MakesStale;
    var s, names := FilteredGraph(), ["filtered", "fresh"];
    var t := NodeTurn(s, START, 12, "filtered");
    FilteredIsWellFormed();
    FilteredFirstTurn();
    FilteredGives(t.order);
    FilteredReads();
    TwoNodes(s, 12, "filtered", "fresh");
    VisitStaler(s, t, Obj(6), 6, "func");
    FilteredStale(t);
    var h := HandleAt(s, Visit(s, t, Obj(6)).stale, Obj(6));
    FilteredHandles(Visit(s, t, Obj(6)).stale);
    TurnIs(s, t, 12, "fresh");
    var hs := [Filtered, h];
    assert Given(s, 12, names) == hs;
    FilteredTurns(h);
    PlanOfOne(s, Filtered);
    assert hs[..0] == [] && hs[..1] == [Filtered];
    assert RawTurnAt(s, hs, 0) && RawTurnAt(s, hs, 1);
  }

  // ----- an assignment that is refused -------------------------------------------------------

  /** Functions 1 and 2 of runnables 3 and 4; the second takes no assignment to .func. Nodes 5 and 6, table 7. */
  function RefusingGraph(): State {
    State([Plain, Callable, Callable, Plain, Plain.(refuses := map["func" := true]), Plain, Plain,
           Plain.(keys := Some(["one", "two"]))],
          map[Attr(3, "func") := 1, Attr(4, "func") := 2, Attr(5, "bound") := 3, Attr(6, "bound") := 4,
              Item(7, "one") := 5, Item(7, "two") := 6], [], {})
  }

  lemma RefusingShapeOk(i: Id)
    requires i < |RefusingGraph().shapes|
    ensures ShapeOk(RefusingGraph().shapes, i) && Simple(RefusingGraph(), i)
  {
  }

  lemma RefusingSlotOk(slot: Slot)
    requires slot in RefusingGraph().heap
    ensures SlotOk(RefusingGraph(), slot)
  {
  }

  lemma RefusingIsWellFormed()
    ensures WellFormed(RefusingGraph())
  {
    hide ShapeOk, SlotOk, Simple, WellFormed;
    var s := RefusingGraph();
    forall i | 0 <= i < |s.shapes| ensures ShapeOk(s.shapes, i) && Simple(s, i) { RefusingShapeOk(i); }
    forall slot | slot in s.heap ensures SlotOk(s, slot) { RefusingSlotOk(slot); }
    SimpleIsWellFormed(s);
  }

  lemma RefusingReads(f: Id, r: Id, name: string, order: seq<Place>)
    requires (f == 1 && r == 3 && name == "one") || (f == 2 && r == 4 && name == "two")
    ensures var s := RefusingGraph();
            && RawOf(s, Attr(r, "func")) == f && RawOf(s, Attr(r, "afunc")) == NONE && ViewsOf(s, r) == map[]
            && OwnerOf(s, Obj(r)) == r && TagAt(s, Obj(r)) == OtherType && Mark(f) !in s.heap && InRange(s, Obj(r))
            && s.shapes[f] == Callable && Cells(s, f) == [] && GivenActs(s, order, 7, name) == [Go(Obj(r))]
  {
  }

  lemma RefusingGives(t: Tour, f: Id, r: Id, name: string)
    requires (f == 1 && r == 3 && name == "one") || (f == 2 && r == 4 && name == "two")
    requires Obj(r) !in t.order && Times(t.log, Attr(r, "func")) == 0
    ensures var s := RefusingGraph();
            && NodeTurn(s, t, 7, name).log == t.log + [Entry(Attr(r, "func"), f)]
            && NodeTurn(s, t, 7, name).order == t.order + [Obj(r)]
  {
    var s := RefusingGraph();
    RefusingReads(f, r, name, t.order);
    hide RefusingGraph, GivenActs, OwnerOf, TagAt, RawOf, Cells, ViewsOf, NodeTurn, Visit;
    assert Actions(s, t, Obj(r)) == [];
    LeafVisit(s, t, Obj(r));
    TurnIs(s, t, 7, name);
  }

  lemma RefusingTour()
    ensures var s, r := RefusingGraph(), NodesTour(RefusingGraph(), 7, ["one", "two"]);
            && r.log == [Entry(Attr(3, "func"), 1), Entry(Attr(4, "func"), 2)] && r.order == [Obj(3), Obj(4)]
            && WellFormed(s) && WouldBar(s, r)
  {
    hide NodesTour, NodeTurn;
    RefusingIsWellFormed();
    hide WellFormed;
    var s, r := RefusingGraph(), NodesTour(RefusingGraph(), 7, ["one", "two"]);
    assert Bars(s.shapes, Attr(4, "func"));
    hide RefusingGraph, Bars;
    RefusingGives(START, 1, 3, "one");
    TwoNodes(s, 7, "one", "two");
    assert Times([Entry(Attr(3, "func"), 1)], Attr(4, "func")) == 0;
    RefusingGives(NodeTurn(s, START, 7, "one"), 2, 4, "two");
    assert Bars(s.shapes, r.log[1].slot) && Comes(s, r, r.log[1].slot);
  }

  /**
   Wherever the walk over it is refused, the first runnable is left with the traced
   function: the undo starts with the assignment that was refused.
   */
  lemma RefusedLeavesTheFirst(s: State, steps: nat)
    requires StoppedBy(RefusingGraph(), s, NodesTour(RefusingGraph(), 7, ["one", "two"]), steps)
    requires Refused(RefusingGraph(), s)
    ensures Replay(s.shapes, s.heap, NewLog(RefusingGraph(), s)) == (s.heap, false)
    ensures RawOf(s, Attr(3, "func")) != RawOf(RefusingGraph(), Attr(3, "func"))
  {
    hide RefusingGraph, NodesTour, Halted, Core, WouldBar, WellFormed;
    var s0 := RefusingGraph();
    HaltedMeans(s0, s);
    var l, r := NewLog(s0, s), NodesTour(s0, 7, ["one", "two"]);
    RefusingTour();
    RefusingSlots(l[|l| - 1].slot);
    RefusedStaysReplaced(s0, s, r, steps);
    assert l == l[..|l| - 1] + [l[|l| - 1]];
    LastOfTwo(l[..|l| - 1], l[|l| - 1], r.log);
  }

  lemma RefusingSlots(slot: Slot)
    ensures Bars(RefusingGraph().shapes, slot) ==> slot == Attr(4, "func")
  {
  }

  /** A log whose node functions are the first of those two and whose last is the second has the first before it. */
  lemma LastOfTwo(init: seq<Entry>, last: Entry, both: seq<Entry>)
    requires NodePart(init + [last]) <= both && |both| == 2 && both[0].slot != both[1].slot
    requires NodeSlot(both[0].slot) && NodeSlot(both[1].slot) && last.slot == both[1].slot
    ensures Logged(init, both[0].slot)
  {
    hide NodePart, Times, Logged, FirstRecord;
    NodePartAppend(init, last);
    OneBefore(NodePart(init), last, both);
    FirstIsLogged(NodePart(init));
    NodePartKeeps(init, both[0].slot);
  }

  lemma OneBefore(part: seq<Entry>, last: Entry, both: seq<Entry>)
    requires part + [last] <= both && |both| == 2 && both[0].slot != both[1].slot && last.slot == both[1].slot
    ensures part != [] && part[0] == both[0]
  {
    assert (part + [last])[|part|] == both[|part|];
  }

  lemma FirstIsLogged(l: seq<Entry>)
    requires l != []
    ensures Logged(l, l[0].slot)
  {
  }

  // ----- where the walk meets its own proxies -------------------------------------

  const Model := Plain.(isChat := true, isRunnable := true)

  const Binding := Plain.(tag := RunnableBinding, isRunnable := true)

  /**
   Model 1, binding 2, the user's proxy 3 of it, node function 4 closing over both in this order,
   runnable 5, node 6.
   */
  function ClosureGraph(): State {
    State([Plain, Model, Binding, Proxy(2, map[]), Callable.(closure := [Some(2), Some(3)]), Plain, Plain,
           Plain.(keys := Some(["agent"]))],
          map[Attr(2, "bound") := 1, Attr(5, "func") := 4, Attr(6, "bound") := 5, Item(7, "agent") := 6], [], {})
  }

  lemma ClosureShapeOk(i: Id)
    requires i < |ClosureGraph().shapes|
    ensures ShapeOk(ClosureGraph().shapes, i) && Simple(ClosureGraph(), i)
  {
  }

  lemma ClosureSlotOk(slot: Slot)
    requires slot in ClosureGraph().heap
    ensures SlotOk(ClosureGraph(), slot)
  {
  }

  lemma ClosureGraphIsWellFormed()
    ensures WellFormed(ClosureGraph())
  {
    hide ShapeOk, SlotOk, Simple, WellFormed;
    var s := ClosureGraph();
    forall i | 0 <= i < |s.shapes| ensures ShapeOk(s.shapes, i) && Simple(s, i) { ClosureShapeOk(i); }
    forall slot | slot in s.heap ensures SlotOk(s, slot) { ClosureSlotOk(slot); }
    SimpleIsWellFormed(s);
  }

  lemma ClosureGraphReads()
    ensures var s := ClosureGraph();
            && GivenActs(s, [], 7, "agent") == [Go(Obj(5))] && HotPair(s, Obj(2), Obj(3))
            && forall t: Tour :: Actions(s, t, Obj(2)) == []
  {
    assert RawOf(ClosureGraph(), Attr(2, "bound")) == 1;
  }

  lemma ClosureGraphActs()
    ensures Actions(ClosureGraph(), START, Obj(5)) == [Go(Obj(2)), Go(Obj(3))]
  {
    var s := ClosureGraph();
    var cells: seq<Option<Id>> := [Some(2), Some(3)];
    assert RawOf(s, Attr(5, "func")) == 4 && RawOf(s, Attr(5, "afunc")) == NONE;
    assert Cells(s, 4) == cells && cells[..1] == [Some(2)] && cells[..1][..0] == [];
    assert CellActs(cells[..1]) == [Go(Obj(2))];
    assert CellActs(cells) == [Go(Obj(2)), Go(Obj(3))];
    assert FuncActs(s, [], 5, map[], "func") == [Go(Obj(2)), Go(Obj(3))];
  }

  /** No node of it is a binding, yet a walk to its end visits a proxy of its own. */
  lemma ClosureGraphEntersOwn()
    ensures var s := ClosureGraph();
            WellFormed(s) && HotAfter(s, NodesTour(s, 7, ["agent"]).order) && !SomeReread(s, 7, ["agent"])
  {
    ClosureGraphIsWellFormed();
    ClosureGraphReads();
    ClosureGraphActs();
    assert forall i :: 0 <= i < 6 ==> InRange(ClosureGraph(), Obj(i));
    hide WellFormed, HotPair, ClosureGraph, Actions, GivenActs, NodesTour, HotAfter, InRange;
    NodeLeadsToHot(ClosureGraph(), 7, "agent", Obj(5), Obj(2), Obj(3));
    AgentIsNoBinding();
  }

  /** The node's runnable leads to a binding, then to a hot proxy of it. */
  lemma NodeLeadsToHot(s0: State, nodes: Id, name: string, pl: Place, a: Place, b: Place)
    requires GivenActs(s0, [], nodes, name) == [Go(pl)] && Actions(s0, START, pl) == [Go(a), Go(b)]
    requires InRange(s0, pl) && InRange(s0, a) && InRange(s0, b) && pl != a && pl != b && a != b
    requires Actions(s0, Enter(s0, START, pl), a) == [] && HotPair(s0, a, b)
    ensures HotAfter(s0, NodesTour(s0, nodes, [name]).order)
  {
    hide HotPair, Actions, GivenActs, NodeTurn, HandleAt, Visit, PlanNode, NodesTour, HotAfter, InRange, Enter;
    OneNode(s0, nodes, name);
    TurnIs(s0, START, nodes, name);
    LeafThenOther(s0, START, pl, a, b);
    assert [] + [pl, a] == [pl, a];
    AfterIsHot(s0, [pl, a], a, b, NodesTour(s0, nodes, [name]).order);
  }

  /** A place that leads to a leaf and then to another place. */
  lemma LeafThenOther(s0: State, t: Tour, pl: Place, a: Place, b: Place)
    requires InRange(s0, pl) && InRange(s0, a) && InRange(s0, b) && pl != a && pl != b && a != b
    requires pl !in t.order && a !in t.order && b !in t.order
    requires Actions(s0, t, pl) == [Go(a), Go(b)] && Actions(s0, Enter(s0, t, pl), a) == []
    ensures t.order + [pl, a] + [b] <= Visit(s0, t, pl).order
  {
    var t0, acts := Enter(s0, t, pl), [Go(a), Go(b)];
    assert acts[..1] == [Go(a)] && acts[..2] == acts;
    assert t0.order == t.order + [pl] && Enter(s0, t0, a).order == t.order + [pl, a];
    VisitDoes(s0, t, pl);
    hide Visit, Enter, Actions, Do;
    DoOne(s0, t0, Go(a));
    LeafVisit(s0, t0, a);
    DoStep(s0, t0, acts, 1);
    VisitBegins(s0, Enter(s0, t0, a), b);
  }

  lemma VisitDoes(s0: State, t: Tour, pl: Place)
    requires InRange(s0, pl) && pl !in t.order
    ensures Visit(s0, t, pl) == Do(s0, Enter(s0, t, pl), Actions(s0, t, pl))
  {
  }

  lemma AfterIsHot(s0: State, before: seq<Place>, x: Place, y: Place, order: seq<Place>)
    requires x in before && before + [y] <= order && HotPair(s0, x, y)
    ensures HotAfter(s0, order)
  {
    hide HotPair;
    var i :| 0 <= i < |before| && before[i] == x;
    assert (before + [y])[i] == order[i] && (before + [y])[|before|] == order[|before|];
    assert HotPair(s0, order[i], order[|before|]);
  }

  lemma VisitBegins(s0: State, t: Tour, pl: Place)
    requires InRange(s0, pl) && pl !in t.order
    ensures t.order + [pl] <= Visit(s0, t, pl).order
  {
  }

  lemma AgentIsNoBinding()
    ensures !SomeReread(ClosureGraph(), 7, ["agent"])
  {
    assert ClosureGraph().shapes[6].tag != RunnableBinding;
  }

  /** Model 1 bound in binding 2; node 3 gives the binding, and the binding itself is a node too. */
  function BindingNodeGraph(): State {
    State([Plain, Model, Binding, Plain, Plain.(keys := Some(["llm", "raw"]))],
          map[Attr(2, "bound") := 1, Attr(3, "bound") := 2, Item(4, "llm") := 3, Item(4, "raw") := 2], [], {})
  }

  lemma BindingNodeShapeOk(i: Id)
    requires i < |BindingNodeGraph().shapes|
    ensures ShapeOk(BindingNodeGraph().shapes, i) && Simple(BindingNodeGraph(), i)
  {
  }

  lemma BindingNodeSlotOk(slot: Slot)
    requires slot in BindingNodeGraph().heap
    ensures SlotOk(BindingNodeGraph(), slot)
  {
  }

  lemma BindingNodeGraphIsWellFormed()
    ensures WellFormed(BindingNodeGraph())
  {
    hide ShapeOk, SlotOk, Simple, WellFormed;
    var s := BindingNodeGraph();
    forall i | 0 <= i < |s.shapes| ensures ShapeOk(s.shapes, i) && Simple(s, i) { BindingNodeShapeOk(i); }
    forall slot | slot in s.heap ensures SlotOk(s, slot) { BindingNodeSlotOk(slot); }
    SimpleIsWellFormed(s);
  }

  lemma NoProxiesNotHot(s0: State, order: seq<Place>)
    requires forall i :: 0 <= i < |s0.shapes| ==> s0.shapes[i].target.None?
    ensures !HotAfter(s0, order)
  {
  }

  /** It has no user proxy at all; the second node reads the proxy the first one's walk has put there. */
  lemma BindingNodeGraphEntersOwn()
    ensures var s, names := BindingNodeGraph(), ["llm", "raw"];
            WellFormed(s) && SomeReread(s, 4, names) && !HotAfter(s, NodesTour(s, 4, names).order)
  {
    hide WellFormed, BindingNodeGraph, NodesTour, GivenActs, Replaceable, HotAfter;
    var s, names := BindingNodeGraph(), ["llm", "raw"];
    BindingNodeGraphIsWellFormed();
    BindingNodeGraphReads();
    OneNode(s, 4, "llm");
    TurnIs(s, START, 4, "llm");
    VisitBegins(s, START, Obj(2));
    assert NodesTour(s, 4, ["llm"]).order[0] == Obj(2);
    assert names[..1] == ["llm"];
    assert RereadAt(s, 4, names, 1);
    NoProxiesNotHot(s, NodesTour(s, 4, names).order);
  }

  lemma BindingNodeGraphReads()
    ensures var s := BindingNodeGraph();
            && GivenActs(s, [], 4, "llm") == [Go(Obj(2))] && InRange(s, Obj(2)) && Replaceable(s, 2)
            && Item(4, "raw") in s.heap && s.heap[Item(4, "raw")] == 2 && |s.shapes| == 5 && Owner(s.shapes, 2) == 2
            && forall i :: 0 <= i < |s.shapes| ==> s.shapes[i].target.None?
  {
    assert RawOf(BindingNodeGraph(), Attr(2, "bound")) == 1;
  }
}
