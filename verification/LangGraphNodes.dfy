/**
 The functions of a graph's nodes: what a node gives, what of it is rewritten, and that
 this is what was planned. Source: src/rastir/langgraph_support.py:186-197 and 302-366.
 */
module LangGraphNodes {
  import opened ObjectHeap
  import opened LangGraphState
  import opened LangGraphPlan
  import opened LangGraphProgress
  import opened LangGraphSteps
  import opened LangGraphTour
  import opened LangGraphInvariant
  import opened LangGraphReads

  // ----- the effect on one runnable ---------------------------------------------------------

  predicate GivesCallable(s: State, b: Id, a: string)
    requires b < |s.shapes|
  {
    var f := Read(s, b, a);
    f != NONE && f < |s.shapes| && s.shapes[f].isCallable
  }

  predicate AlreadyTraced(s: State, b: Id, a: string)
    requires b < |s.shapes|
  {
    GivesCallable(s, b, a) && Traced(Asked(s, b, a), Read(s, b, a))
  }

  /** The effect of wrapping one node function: a callable not traced yet is replaced and recorded. */
  function NodeAttr(s: State, b: Id, a: string): State
    requires b < |s.shapes|
  {
    if GivesCallable(s, b, a) && !AlreadyTraced(s, b, a)
    then Put(Asked(s, b, a), Attr(Owner(s.shapes, b), a), Read(s, b, a))
    else Asked(s, b, a)
  }

  /** The effect on a node's runnable; a traced .func hides an untraced .afunc. */
  function WrapNode(s: State, b: Id): State
    requires b < |s.shapes|
  {
    if AlreadyTraced(s, b, "func") then Asked(s, b, "func") else NodeAttr(NodeAttr(s, b, "func"), b, "afunc")
  }

  /** Wrapping one function leaves everything else, and what it leaves in its slot is callable if it was. */
  lemma AttrMeans(s: State, b: Id, a: string)
    requires WellFormed(s) && b < |s.shapes|
    ensures var s1, slot := NodeAttr(s, b, a), Attr(Owner(s.shapes, b), a);
            && s.shapes <= s1.shapes && s1.seen == s.seen
            && (forall sl :: !BirthSlot(sl) && sl != slot ==> RawOf(s1, sl) == RawOf(s, sl))
            && (if GivesCallable(s, b, a) && !AlreadyTraced(s, b, a)
                then slot in s1.heap && s1.heap[slot] == |s.shapes| < |s1.shapes| &&
                     s1.shapes[s1.heap[slot]] == Replacement(slot, Read(s, b, a))
                else s1 == Asked(s, b, a) && RawOf(s1, slot) == RawOf(s, slot))
  {
    var slot := Attr(Owner(s.shapes, b), a);
    AskedGives(s, b, a);
    forall sl | !BirthSlot(sl) ensures RawOf(Asked(s, b, a), sl) == RawOf(s, sl) {
      AskedReads(s, b, a, sl);
    }
    if GivesCallable(s, b, a) && !AlreadyTraced(s, b, a) {
      forall sl | !BirthSlot(sl) && sl != slot ensures RawOf(NodeAttr(s, b, a), sl) == RawOf(s, sl) {
        OthersThroughPut(s, Asked(s, b, a), slot, Read(s, b, a), sl);
      }
    }
  }

  lemma AskedReads(s: State, o: Id, a: string, slot: Slot)
    requires WellFormed(s) && o < |s.shapes| && !BirthSlot(slot)
    ensures RawOf(Asked(s, o, a), slot) == RawOf(s, slot)
  {
  }

  lemma OthersThroughPut(s: State, s1: State, slot: Slot, v: Id, other: Slot)
    requires WellFormed(s) && s1.shapes == s.shapes && RawOf(s1, other) == RawOf(s, other) && !BirthSlot(other)
    requires other != slot && other.Attr? ==> other in s.heap ==> other.owner < |s.shapes|
    ensures other != slot ==> RawOf(Put(s1, slot, v), other) == RawOf(s, other)
  {
  }

  lemma SameRead(s: State, s1: State, b: Id, a: string)
    requires WellFormed(s) && b < |s.shapes| && s.shapes <= s1.shapes
    requires RawOf(s1, Attr(Owner(s.shapes, b), a)) == RawOf(s, Attr(Owner(s.shapes, b), a))
    ensures Read(s1, b, a) == Read(s, b, a)
  {
    ReadInRange(s, b, a);
  }

  /** After the wrap the synchronous function is traced. */
  lemma NodeFuncIsTraced(s: State, b: Id)
    requires WellFormed(s) && b < |s.shapes|
    ensures b < |WrapNode(s, b).shapes| && FuncTraced(WrapNode(s, b), b)
  {
    var slot := Attr(Owner(s.shapes, b), "func");
    ReadInRange(s, b, "func");
    AskedGives(s, b, "func");
    AttrMeans(s, b, "func");
    var s1 := NodeAttr(s, b, "func");
    if AlreadyTraced(s, b, "func") {
      SameRead(s, s1, b, "func");
    } else {
      FuncThroughOther(s, s1, b);
    }
  }

  lemma FuncThroughOther(s: State, s1: State, b: Id)
    requires WellFormed(s) && b < |s.shapes| && s1 == NodeAttr(s, b, "func") && !AlreadyTraced(s, b, "func")
    ensures FuncTraced(NodeAttr(s1, b, "afunc"), b)
  {
    var s2, slot := NodeAttr(s1, b, "afunc"), Attr(Owner(s.shapes, b), "func");
    AttrMeans(s, b, "func");
    OtherAttrKept(s1, b);
    assert s2.shapes[b] == s.shapes[b];
    ReadInRange(s, b, "func");
    RawInRange(s, slot);
    hide WellFormed, NodeAttr, AlreadyTraced;
    if !GivesCallable(s, b, "func") { SameNone(s, s2, b); }
  }

  lemma SameNone(s: State, s1: State, b: Id)
    requires b < |s.shapes| && s.shapes <= s1.shapes && !GivesCallable(s, b, "func") && Read(s, b, "func") < |s.shapes|
    requires var slot := Attr(Owner(s.shapes, b), "func"); RawOf(s1, slot) == RawOf(s, slot) < |s.shapes|
    ensures FuncTraced(s1, b)
  {
  }

  lemma OtherAttrKept(s: State, b: Id)
    requires b < |s.shapes|
    ensures var s1, slot := NodeAttr(s, b, "afunc"), Attr(Owner(s.shapes, b), "func");
            && s.shapes <= s1.shapes
            && (slot in s1.heap <==> slot in s.heap) && (slot in s.heap ==> s1.heap[slot] == s.heap[slot])
            && RawOf(s1, slot) == if slot in s.heap || slot.owner < |s.shapes| then RawOf(s, slot) else RawOf(s1, slot)
  {
  }

  /** Wrapping .func does not change whether .afunc is a traced one. */
  lemma AfuncThroughFunc(s: State, b: Id)
    requires WellFormed(s) && b < |s.shapes|
    ensures var s1 := NodeAttr(s, b, "func");
            && b < |s1.shapes| && Owner(s1.shapes, b) == Owner(s.shapes, b)
            && Read(s1, b, "afunc") == Read(s, b, "afunc")
            && (GivesCallable(s1, b, "afunc") <==> GivesCallable(s, b, "afunc"))
            && (AlreadyTraced(s1, b, "afunc") <==> AlreadyTraced(s, b, "afunc"))
  {
    var s1, s2, raw := NodeAttr(s, b, "func"), Asked(s, b, "func"), RawOf(s, Attr(Owner(s.shapes, b), "afunc"));
    AttrMeans(s, b, "func");
    SameRead(s, s1, b, "afunc");
    ReadInRange(s, b, "afunc");
    RawInRange(s, Attr(Owner(s.shapes, b), "afunc"));
    MarksKept(s, b);
    hide WellFormed, NodeAttr, Asked, Traced;
    AskedTraced(s, b, "afunc");
    AskedTraced(s1, b, "afunc");
  }

  /** Whether what getattr() gives is traced, told from the state before. */
  predicate GivesTracedNow(s: State, o: Id, a: string)
    requires o < |s.shapes|
  {
    var f, raw := Read(s, o, a), RawOf(s, Attr(Owner(s.shapes, o), a));
    if Intercepts(s, o, a) && Method(f) !in s.heap then (f < |s.shapes| && s.shapes[f].nodeTraced) || Traced(s, raw)
    else Traced(s, f)
  }

  lemma AskedTraced(s: State, o: Id, a: string)
    requires o < |s.shapes| && (Intercepts(s, o, a) ==> Read(s, o, a) < |s.shapes|)
    requires Intercepts(s, o, a) && Mark(Read(s, o, a)) in s.heap ==> Method(Read(s, o, a)) in s.heap
    ensures Traced(Asked(s, o, a), Read(s, o, a)) <==> GivesTracedNow(s, o, a)
  {
  }

  /** Only the wrapper of .func may have been given a mark, and it was nowhere before. */
  lemma MarksKept(s: State, b: Id)
    requires WellFormed(s) && b < |s.shapes|
    ensures var s1 := NodeAttr(s, b, "func");
            && s.shapes <= s1.shapes
            && (forall x :: Present(s, x) ==> (Traced(s1, x) <==> Traced(s, x)))
            && (Intercepts(s, b, "afunc") ==>
                  var w := s.shapes[b].views["afunc"];
                  && (Method(w) in s1.heap <==> Method(w) in s.heap) && (Traced(s1, w) <==> Traced(s, w))
                  && (Mark(w) in s1.heap <==> Mark(w) in s.heap))
  {
    var s1, s2 := NodeAttr(s, b, "func"), Asked(s, b, "func");
    assert ShapeOk(s.shapes, b);
    if s2 != s {
      AskedMeans(s, b, "func");
      OthersUnmade(s, s.shapes[b].views["func"], RawOf(s, Attr(Owner(s.shapes, b), "func")));
    }
    assert forall x: Id ::
        (Mark(x) in s1.heap <==> Mark(x) in s2.heap) && (Method(x) in s1.heap <==> Method(x) in s2.heap);
    hide Asked, WellFormed, AlreadyTraced, GivesCallable, Read, NodeAttr;
  }

  lemma OthersUnmade(s: State, w: Id, target: Id)
    ensures var s1 := Made(s, w, target);
            forall x ::
              x != w ==> (Mark(x) in s1.heap <==> Mark(x) in s.heap) && (Method(x) in s1.heap <==> Method(x) in s.heap)
  {
  }

  /** The asynchronous function is traced too, unless the synchronous one already was. */
  lemma NodeAfuncIsTraced(s: State, b: Id)
    requires WellFormed(s) && b < |s.shapes|
    ensures var slot, g := Attr(Owner(s.shapes, b), "afunc"), Read(s, b, "afunc");
            var s1 := WrapNode(s, b);
            && g < |s.shapes|
            && (GivesCallable(s, b, "afunc") && !AlreadyTraced(s, b, "afunc") ==>
                  if AlreadyTraced(s, b, "func") then s1 == Asked(s, b, "func")
                  else slot in s1.heap && s1.heap[slot] < |s1.shapes| && s1.shapes[s1.heap[slot]] == TracedShape(g))
  {
    AfuncThroughFunc(s, b);
    ReadInRange(s, b, "afunc");
    var s1 := NodeAttr(s, b, "func");
    hide WellFormed, AlreadyTraced, Asked, Intercepts, RawOf, Read;
  }

  // ----- as planned --------------------------------------------------------------------------

  lemma HandleMeans(s0: State, s: State, t: Tour, pl: Place, b: Id)
    requires Core(s0, s) && Settled(s0, s) && Denotes(s0, s, pl, b) && !pl.Inert?
    ensures b < |s.shapes| && Owner(s.shapes, b) == OwnerOf(s0, pl) < |s0.shapes| && ViewsAt(s0, pl) == ViewsOf(s0, b)
    ensures forall a :: a in ViewsOf(s0, b) ==> pl == Obj(b) && b < |s0.shapes| && ViewsOf(s0, b)[a] < |s0.shapes|
    ensures forall a :: Intercepts(s, b, a) <==> a in ViewsOf(s0, b) && CallableNow(s, Attr(Owner(s.shapes, b), a))
  {
    match pl {
      case Obj(o) =>
        assert ShapeOk(s0.shapes, o);
      case OwnProxy(c) =>
        RewrittenIsProxy(s0, s, c);
        RawInRange(s0, Attr(c, "bound"));
    }
    ViewsNow(s0, s, b);
    forall a | a in ViewsOf(s0, b) ensures pl == Obj(b) && b < |s0.shapes| && ViewsOf(s0, b)[a] < |s0.shapes| {
      ViewInRange(s0, b, a);
    }
  }

  /** A wrapper that has been made carries the mark as the tour says. */
  lemma MarkAsTold(s0: State, s: State, t: Tour, p: Id, a: string)
    requires Walking(s0, s, {}, t) && a in ["func", "afunc"] && a in ViewsOf(s0, p)
    requires Method(ViewsOf(s0, p)[a]) in s.heap
    ensures Traced(s, ViewsOf(s0, p)[a]) <==>
            MarkedView(s0, t.stale, ViewsOf(s0, p)[a], Attr(OwnerOf(s0, Obj(p)), a))
  {
    var w := ViewsOf(s0, p)[a];
    assert ShapeOk(s0.shapes, p) && SameView(s0, s, {}, t, p, a);
    assert s.shapes[w] == s0.shapes[w];
    if Method(w) in s0.heap { TracedSame(s0, s, w); }
  }

  /** What a visited runnable hands out is what the plan says. */
  lemma GivesAsPlanned(s0: State, s: State, t: Tour, pl: Place, b: Id, a: string)
    requires Walking(s0, s, {}, t) && Denotes(s0, s, pl, b) && !pl.Inert? && b in s.seen && a in ["func", "afunc"]
    ensures b < |s.shapes| && Owner(s.shapes, b) == OwnerOf(s0, pl) < |s0.shapes|
    ensures var h, f := HandleAt(s0, t.stale, pl), Read(s, b, a);
            && h.owner == Owner(s.shapes, b)
            && (AlreadyTraced(s, b, a) <==> GivesTraced(s0, h, a, t.log))
            && (Rewrites(s0, h, a, t.log) <==> GivesCallable(s, b, a) && !AlreadyTraced(s, b, a))
            && (Rewrites(s0, h, a, t.log) ==> f == Hands(s0, h, a) < |s0.shapes|)
  {
    hide WellFormed, Core, Settled, Finished, SameLog, SameVisits, SameItems, SameViews, Apart, Asked, MarkedView;
    hide Evolve, Walking, Intercepts, Denotes;
    WalkingMeans(s0, s, {}, t);
    HandleMeans(s0, s, t, pl, b);
    AskedWalks(s0, s, {}, t, b, a);
    var s1, slot := Asked(s, b, a), Attr(Owner(s.shapes, b), a);
    WalkingMeans(s0, s1, {}, t);
    AskedGives(s, b, a);
    NodeSlotNow(s0, s, t, slot);
    if Intercepts(s, b, a) {
      MarkAsTold(s0, s1, t, b, a);
    } else if CallableNow(s, slot) {
      RawTracedIff(s0, s, t, slot);
    }
  }

  lemma RawTracedIff(s0: State, s: State, t: Tour, slot: Slot)
    requires Core(s0, s) && Settled(s0, s) && SameLog(s0, s, t) && NodeSlot(slot) && CallableNow(s, slot)
    ensures Traced(s, RawOf(s, slot)) <==> Times(t.log, slot) > 0 || TracedNow(s0, slot)
  {
    NodeSlotNow(s0, s, t, slot);
    RawInRange(s0, slot);
    if Times(t.log, slot) == 0 { TracedSame(s0, s, RawOf(s0, slot)); }
  }

  /** One node function about to be rewritten. */
  lemma NodeFuncStep(s0: State, s: State, t: Tour, pl: Place, b: Id, a: string)
    requires Walking(s0, s, {}, t) && Denotes(s0, s, pl, b) && !pl.Inert? && b in s.seen && a in ["func", "afunc"]
    requires b < |s.shapes| && GivesCallable(s, b, a) && !AlreadyTraced(s, b, a)
    ensures var f, slot, s1 := Read(s, b, a), Attr(Owner(s.shapes, b), a), Asked(s, b, a);
            && Recordable(s0, s1, slot, f) && CallableNow(s1, slot) && RawOf(s1, slot) != NONE
            && ((f == RawOf(s1, slot) && !s1.shapes[f].nodeTraced) || FuncWalked(s1, f))
    ensures var h := HandleAt(s0, t.stale, pl);
            PlanAttr(s0, h, a, t.log) == t.log + [Entry(Attr(Owner(s.shapes, b), a), Read(s, b, a))]
  {
    hide SameVisits, SameItems, SameViews, Apart, Asked, MarkedView, Evolve, WellFormed, FuncWalked, LogFaithful;
    hide Accounted, SettledSlot, Finished;
    var f, slot, s1 := Read(s, b, a), Attr(Owner(s.shapes, b), a), Asked(s, b, a);
    WalkingMeans(s0, s, {}, t);
    GivesAsPlanned(s0, s, t, pl, b, a);
    AskedWalks(s0, s, {}, t, b, a);
    AskedGives(s, b, a);
    NodeSlotNow(s0, s, t, slot);
    NotProxy(s, f);
    if f != RawOf(s, slot) { HandedIsWalked(s0, s, t, b, a); }
  }

  lemma NotProxy(s: State, f: Id)
    requires WellFormed(s) && f < |s.shapes| && s.shapes[f].isCallable
    ensures s.shapes[f].target.None?
  {
    assert ShapeOk(s.shapes, f);
  }

  /** The wrapper a visited proxy hands out has been walked. */
  lemma HandedIsWalked(s0: State, s: State, t: Tour, b: Id, a: string)
    requires Walking(s0, s, {}, t) && b < |s.shapes| && b in s.seen && a in ["func", "afunc"]
    requires GivesCallable(s, b, a) && Read(s, b, a) != RawOf(s, Attr(Owner(s.shapes, b), a))
    ensures Read(s, b, a) < |Asked(s, b, a).shapes| && FuncWalked(Asked(s, b, a), Read(s, b, a))
  {
    hide Core, Settled, SameVisits, SameItems, SameViews, Apart, SameLog, Asked, FuncWalked, Evolve;
    var f := Read(s, b, a);
    WalkingMeans(s0, s, {}, t);
    AskedWalks(s0, s, {}, t, b, a);
    assert Processed(s, b) && ShapeOk(s.shapes, b);
    hide WellFormed, Finished, ToolsDone, SequenceDone, Reached;
    assert CallableDone(s, b, a);
    assert s.shapes[f].wrapper.Some?;
    WalkedStays(s, Asked(s, b, a), f);
  }

  // ----- what a node gives ---------------------------------------------------------------------

  /** Every name is a key of the node table; it is a dict, so what is not "__start__" is in the heap too. */
  predicate NamesAreItems(s0: State, nodes: Id, names: seq<string>) {
    forall name :: name in names ==> Item(nodes, name) in s0.heap
  }

  lemma KeysAreItems(s0: State, nodes: Id)
    requires WellFormed(s0) && nodes < |s0.shapes| && s0.shapes[nodes].keys.Some?
    ensures NamesAreItems(s0, nodes, s0.shapes[nodes].keys.value)
  {
  }

  /** The node itself may since have been replaced by a proxy; it still reads the same object, in the same way. */
  lemma NodeNow(s0: State, s: State, slot: Slot)
    requires Core(s0, s) && Settled(s0, s) && slot.Item? && slot in s0.heap
    ensures slot in s.heap && s0.heap[slot] < |s0.shapes| && s.heap[slot] < |s.shapes|
    ensures Owner(s.shapes, s.heap[slot]) == Owner(s0.shapes, s0.heap[slot])
    ensures ViewsOf(s0, s.heap[slot]) == ViewsOf(s0, s0.heap[slot])
  {
    assert SlotOk(s0, slot) && ShapeOk(s0.shapes, s0.heap[slot]);
    if Logged(NewLog(s0, s), slot) {
      var i :| 0 <= i < |NewLog(s0, s)| && NewLog(s0, s)[i].slot == slot;
      assert SettledSlot(s0, s, slot) && RecordOk(s0, s, NewLog(s0, s)[i]);
      LastIsFirst(s0, NewLog(s0, s), slot);
    } else {
      assert Accounted(s0, s, slot);
      assert s.shapes[s0.heap[slot]] == s0.shapes[s0.heap[slot]];
    }
  }

  /** A node gives what the tour says: what it gave at the start, or the proxy this walk has put in its place. */
  lemma NodeGives(s0: State, s: State, t: Tour, nodes: Id, name: string) returns (pl: Place)
    requires Walking(s0, s, {}, t) && Item(nodes, name) in s0.heap && name != "__start__"
    ensures Item(nodes, name) in s.heap && s.heap[Item(nodes, name)] < |s.shapes|
    ensures var node := s.heap[Item(nodes, name)];
            var s1, v, acts := Asked(s, node, "bound"), Read(s, node, "bound"), GivenActs(s0, t.order, nodes, name);
            && v < |s1.shapes| && s1.shapes == s.shapes
            && if v == NONE then acts == [] else acts == [Go(pl)] && Denotes(s0, s1, pl, v) && !pl.Inert?
  {
    WalkingMeans(s0, s, {}, t);
    NodeNow(s0, s, Item(nodes, name));
    pl := FollowRead(s0, s, {}, t, s.heap[Item(nodes, name)], "bound");
  }

  /** Whatever the node's runnable reads as by now, it is the one walked or a proxy. */
  lemma NodeNowDone(s: State, s2: State, nodes: Id, name: string)
    requires Evolve(s, s2) && Item(nodes, name) in s.heap && s.heap[Item(nodes, name)] < |s.shapes|
    requires var b := Read(s, s.heap[Item(nodes, name)], "bound");
             b != NONE && b < |s.shapes| && b in s2.seen && FuncTraced(s2, b)
    ensures NodeDone(s2, nodes, name)
  {
    BoundStays(s, s2, Item(nodes, name));
  }

  lemma NodeIsDone(s: State, s1: State, nodes: Id, name: string)
    requires Evolve(s, s1) && Item(nodes, name) in s.heap && s.heap[Item(nodes, name)] < |s.shapes|
    requires var b := Read(s, s.heap[Item(nodes, name)], "bound");
             b != NONE && b < |s.shapes| && b in s1.seen && Evolve(s1, WrapNode(s1, b))
    ensures NodeDone(WrapNode(s1, Read(s, s.heap[Item(nodes, name)], "bound")), nodes, name)
  {
    hide FuncTraced, WrapNode;
    var b := Read(s, s.heap[Item(nodes, name)], "bound");
    var s2 := WrapNode(s1, b);
    NodeFuncIsTraced(s1, b);
    EvolveTransitive(s, s1, s2);
    NodeNowDone(s, s2, nodes, name);
  }

  predicate NodesPrefix(s: State, nodes: Id, names: seq<string>, n: nat) {
    forall k :: 0 <= k < n && k < |names| && names[k] != "__start__" ==> NodeDone(s, nodes, names[k])
  }

  lemma NodesPrefixStep(s: State, s1: State, nodes: Id, names: seq<string>, n: nat)
    requires Evolve(s, s1) && NodesPrefix(s, nodes, names, n) && n < |names| && NodeDone(s1, nodes, names[n])
    ensures NodesPrefix(s1, nodes, names, n + 1)
  {
    forall k | 0 <= k < n && names[k] != "__start__" ensures NodeDone(s1, nodes, names[k]) {
      NodeDoneStays(s, s1, nodes, names[k]);
    }
  }

  lemma PlanGrows(s0: State, h: Handle, l: seq<Entry>)
    ensures l <= PlanNode(s0, h, l)
    ensures PlanAttr(s0, h, "func", l) <= PlanNode(s0, h, l)
  {
  }

  /** The place a node gives, and its turn in the tour. */
  lemma TurnIs(s0: State, t: Tour, nodes: Id, name: string)
    ensures var acts, r := GivenActs(s0, t.order, nodes, name), NodeTurn(s0, t, nodes, name);
            && (acts == [] ==> r == t)
            && (acts != [] && acts[0].Go? ==>
                  var t1 := Visit(s0, t, acts[0].place);
                  var h := HandleAt(s0, t1.stale, acts[0].place);
                  r == t1.(log := PlanNode(s0, h, t1.log), hs := t1.hs + [h]))
  {
  }

  lemma HandlesDoNotMatter(s0: State, s: State, stack: set<Id>, t: Tour, hs: seq<Handle>)
    requires Walking(s0, s, stack, t)
    ensures Walking(s0, s, stack, t.(hs := hs))
  {
    forall p, a | a in ["func", "afunc"] && a in ViewsOf(s0, p) ensures SameView(s0, s, stack, t.(hs := hs), p, a) {
      assert SameView(s0, s, stack, t, p, a);
    }
  }
}
