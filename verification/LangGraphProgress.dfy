/**
 What the LangGraph walk has finished with an object, and why later steps of the
 walk do not undo it. Source: src/rastir/langgraph_support.py:200-295.
 */
module LangGraphProgress {
  import opened ObjectHeap
  import opened LangGraphState

  // ----- finished objects ---------------------------------------------------

  /** Reached, or empty, or already behind a proxy. */
  predicate Reached(s: State, v: Id) {
    v == NONE || v in s.seen || (v < |s.shapes| && s.shapes[v].marked)
  }

  /** A global the function names: reached, or of no interest to the walk. */
  predicate NameDone(s: State, g: Id, name: string) {
    var v := RawOf(s, Item(g, name));
    Reached(s, v) || (v < |s.shapes| && !s.shapes[v].isChat && !s.shapes[v].isRunnable)
  }

  /** The closure cells of a function; a span wrapper closes over the method it was made for as well. */
  function Cells(s: State, f: Id): seq<Option<Id>>
    requires f < |s.shapes|
  {
    (if Method(f) in s.heap then [Some(s.heap[Method(f)])] else []) + s.shapes[f].closure
  }

  predicate CellsDone(s: State, f: Id, n: nat)
    requires f < |s.shapes|
  {
    forall c :: 0 <= c < n && c < |Cells(s, f)| ==> Cells(s, f)[c].Some? ==> Cells(s, f)[c].value in s.seen
  }

  predicate NamesDone(s: State, f: Id, n: nat)
    requires f < |s.shapes|
  {
    s.shapes[f].globals.Some? ==>
      forall k :: 0 <= k < n && k < |s.shapes[f].names| ==> NameDone(s, s.shapes[f].globals.value, s.shapes[f].names[k])
  }

  predicate FuncWalked(s: State, f: Id)
    requires f < |s.shapes|
  {
    Present(s, f) && CellsDone(s, f, |Cells(s, f)|) && NamesDone(s, f, |s.shapes[f].names|)
  }

  /** The function was walked, or it is the traced replacement of one that was. */
  ghost predicate FuncDone(s: State, f: Id)
    requires f < |s.shapes|
  {
    || FuncWalked(s, f)
    || (exists g :: 0 <= g < |s.shapes| && s.shapes[f] == TracedShape(g) && FuncWalked(s, g))
  }

  ghost predicate CallableDone(s: State, o: Id, a: string)
    requires o < |s.shapes|
  {
    var f := Read(s, o, a);
    f != NONE && f < |s.shapes| && s.shapes[f].isCallable ==> FuncDone(s, f)
  }

  predicate ToolsDone(s: State, o: Id)
    requires o < |s.shapes|
  {
    var d := Read(s, o, "_tools_by_name");
    d < |s.shapes| && s.shapes[d].keys.Some? ==>
      forall k :: k in s.shapes[d].keys.value ==> ToolDone(s, Item(d, k))
  }

  predicate ToolDone(s: State, slot: Slot) {
    slot in s.heap && s.heap[slot] < |s.shapes| && s.shapes[s.heap[slot]].marked
  }

  predicate SequenceDone(s: State, o: Id)
    requires o < |s.shapes|
  {
    && (Read(s, o, "first") == NONE || Read(s, o, "first") in s.seen)
    && (Read(s, o, "last") == NONE || Read(s, o, "last") in s.seen)
    && (var m := Read(s, o, "middle");
        m < |s.shapes| && s.shapes[m].items.Some? ==>
          forall k :: 0 <= k < |s.shapes[m].items.value| ==> s.shapes[m].items.value[k] in s.seen)
  }

  /**
   All the walk has to do for a visited object. A chat model reached as a global is
   replaced without looking inside it, so nothing is claimed about its own attributes.
   */
  ghost predicate Processed(s: State, o: Id)
    requires o < |s.shapes|
  {
    s.shapes[o].isChat ||
    match s.shapes[o].tag
    case ToolNode => ToolsDone(s, o)
    // a chat model behind a binding is always replaced; anything else is walked
    case RunnableBinding =>
      var v := Read(s, o, "bound");
      Reached(s, v) && (v < |s.shapes| && s.shapes[v].isChat ==> s.shapes[v].marked)
    case RunnableSequence => SequenceDone(s, o)
    case OtherType =>
      && CallableDone(s, o, "func")
      && CallableDone(s, o, "afunc")
      && (Read(s, o, "func") == NONE && Read(s, o, "afunc") == NONE ==>
            Reached(s, Read(s, o, "bound")) && Reached(s, Read(s, o, "first")))
  }

  // ----- one stretch of the walk --------------------------------------------

  /** How one slot may change: a proxy replaces the value it stands for, a traced function replaces
      the function it closes over, or one that was walked. */
  ghost predicate Advanced(s: State, s1: State, slot: Slot) {
    var v, v1 := RawOf(s, slot), RawOf(s1, slot);
    || v1 == v
    || (WalkSlot(slot) && v1 < |s1.shapes| &&
        if NodeSlot(slot)
        then v < |s.shapes| && v != NONE && v1 != NONE && s.shapes[v].isCallable &&
             exists g :: 0 <= g < |s1.shapes| && s1.shapes[v1] == TracedShape(g) &&
                         ((g == v && !s1.shapes[g].nodeTraced) || FuncWalked(s1, g))
        else v < |s.shapes| && !s.shapes[v].marked && s1.shapes[v1] == ProxyShape(v))
  }

  /** A wrapper once made stays as it was made. */
  ghost predicate Kept(s: State, s1: State, w: Id) {
    && Method(w) in s.heap && Method(w) in s1.heap && s1.heap[Method(w)] == s.heap[Method(w)]
    && (Mark(w) in s1.heap <==> Mark(w) in s.heap)
  }

  ghost predicate Evolve(s: State, s1: State) {
    && WellFormed(s) && WellFormed(s1)
    && s.shapes <= s1.shapes && s.seen <= s1.seen
    && (forall slot :: slot in s.heap ==> slot in s1.heap)
    && (forall w :: Method(w) in s.heap ==> Kept(s, s1, w))
    && (forall slot {:trigger RawOf(s1, slot)} {:trigger RawOf(s, slot)} :: !BirthSlot(slot) ==> Advanced(s, s1, slot))
  }

  lemma TracedStays(s: State, s1: State, x: Id)
    requires Evolve(s, s1) && x < |s.shapes|
    ensures Traced(s, x) ==> Traced(s1, x)
    ensures Present(s, x) ==> Present(s1, x) && (Traced(s, x) <==> Traced(s1, x))
  {
    if Mark(x) in s.heap { assert SlotOk(s, Mark(x)) && Kept(s, s1, x); }
    if Mark(x) in s1.heap { assert SlotOk(s1, Mark(x)) && SlotOk(s1, Method(x)); }
    assert Method(x) in s.heap ==> Kept(s, s1, x);
  }

  lemma CellsStay(s: State, s1: State, f: Id)
    requires Evolve(s, s1) && f < |s.shapes| && Present(s, f)
    ensures Present(s1, f) && Cells(s1, f) == Cells(s, f)
  {
    assert Method(f) in s.heap ==> Kept(s, s1, f);
    assert Method(f) in s1.heap ==> SlotOk(s1, Method(f));
  }

  lemma WalkedStays(s: State, s1: State, f: Id)
    requires Evolve(s, s1) && f < |s.shapes|
    ensures FuncWalked(s, f) ==> FuncWalked(s1, f)
    ensures forall n: nat :: NamesDone(s, f, n) ==> NamesDone(s1, f, n)
    ensures Present(s, f) ==> forall n: nat :: CellsDone(s, f, n) ==> CellsDone(s1, f, n)
  {
    if Present(s, f) { CellsStay(s, s1, f); }
    if s.shapes[f].globals.Some? {
      forall name | NameDone(s, s.shapes[f].globals.value, name)
        ensures NameDone(s1, s.shapes[f].globals.value, name)
      {
        assert Advanced(s, s1, Item(s.shapes[f].globals.value, name));
      }
    }
  }

  lemma DoneStays(s: State, s1: State, f: Id)
    requires Evolve(s, s1) && f < |s.shapes|
    ensures FuncDone(s, f) ==> FuncDone(s1, f)
  {
    WalkedStays(s, s1, f);
    if FuncDone(s, f) && !FuncWalked(s, f) {
      var g :| 0 <= g < |s.shapes| && s.shapes[f] == TracedShape(g) && FuncWalked(s, g);
      WalkedStays(s, s1, g);
      assert s1.shapes[f] == TracedShape(g) && FuncWalked(s1, g);
    }
  }

  lemma AdvancedTransitive(s: State, s1: State, s2: State, slot: Slot)
    requires Evolve(s, s1) && Evolve(s1, s2) && !BirthSlot(slot)
    ensures Advanced(s, s2, slot)
  {
    assert Advanced(s, s1, slot) && Advanced(s1, s2, slot);
    RawInRange(s, slot);
    RawInRange(s1, slot);
    if NodeSlot(slot) && RawOf(s1, slot) != RawOf(s, slot) && RawOf(s2, slot) == RawOf(s1, slot) {
      TracedAdvances(s, s1, s2, slot);
    } else {
      hide Advanced;
      AdvancesOn(s, s1, s2, slot);
    }
  }

  lemma AdvancesOn(s: State, s1: State, s2: State, slot: Slot)
    requires s.shapes <= s1.shapes <= s2.shapes && Advanced(s, s1, slot) && Advanced(s1, s2, slot)
    requires RawOf(s, slot) < |s.shapes| && RawOf(s1, slot) < |s1.shapes|
    requires NodeSlot(slot) && RawOf(s1, slot) != RawOf(s, slot) ==> RawOf(s2, slot) != RawOf(s1, slot)
    ensures Advanced(s, s2, slot)
  {
    hide FuncWalked, RawOf;
  }

  lemma TracedAdvances(s: State, s1: State, s2: State, slot: Slot)
    requires NodeSlot(slot) && Advanced(s, s1, slot) && Evolve(s1, s2)
    requires RawOf(s1, slot) != RawOf(s, slot) && RawOf(s2, slot) == RawOf(s1, slot)
    ensures Advanced(s, s2, slot)
  {
    var v, v1 := RawOf(s, slot), RawOf(s1, slot);
    var g :| 0 <= g < |s1.shapes| && s1.shapes[v1] == TracedShape(g) &&
             ((g == v && !s1.shapes[g].nodeTraced) || FuncWalked(s1, g));
    WalkedStays(s1, s2, g);
    assert s2.shapes[v1] == TracedShape(g) && s2.shapes[g] == s1.shapes[g];
    hide Evolve, FuncWalked;
  }

  lemma EvolveTransitive(s: State, s1: State, s2: State)
    requires Evolve(s, s1) && Evolve(s1, s2)
    ensures Evolve(s, s2)
  {
    forall w | Method(w) in s.heap ensures Kept(s, s2, w) { assert Kept(s, s1, w) && Kept(s1, s2, w); }
    forall slot | !BirthSlot(slot) ensures Advanced(s, s2, slot) { AdvancedTransitive(s, s1, s2, slot); }
  }

  lemma EvolveReflexive(s: State)
    requires WellFormed(s)
    ensures Evolve(s, s)
  {
    forall slot | !BirthSlot(slot) ensures Advanced(s, s, slot) {
    }
  }

  // ----- finished stays finished --------------------------------------------

  lemma ReachedStays(s: State, s1: State, o: Id, a: string)
    requires Evolve(s, s1) && o < |s.shapes| && Reached(s, Read(s, o, a))
    ensures Reached(s1, Read(s1, o, a)) || a in ["func", "afunc"]
    ensures a == "bound" && Read(s, o, a) < |s.shapes| && s.shapes[o].target.None? &&
            (s.shapes[Read(s, o, a)].isChat ==> s.shapes[Read(s, o, a)].marked) ==>
            Read(s1, o, a) < |s1.shapes| && (s1.shapes[Read(s1, o, a)].isChat ==> s1.shapes[Read(s1, o, a)].marked)
  {
    var slot := Attr(Owner(s.shapes, o), a);
    assert Advanced(s, s1, slot);
    assert s1.shapes[o] == s.shapes[o];
    ReadInRange(s, o, a);
    ReadInRange(s1, o, a);
    var raw, raw1 := RawOf(s, slot), RawOf(s1, slot);
    assert s1.shapes[raw] == s.shapes[raw] && s.shapes <= s1.shapes && s.seen <= s1.seen;
    if raw1 != raw && !NodeSlot(slot) {
      assert ShapeOk(s1.shapes, raw1);
    }
    hide Evolve, WellFormed, FuncWalked;
  }

  lemma ReadInRange(s: State, o: Id, a: string)
    requires WellFormed(s) && o < |s.shapes|
    ensures RawOf(s, Attr(Owner(s.shapes, o), a)) < |s.shapes|
    ensures Read(s, o, a) < |s.shapes|
  {
    assert ShapeOk(s.shapes, o);
    RawInRange(s, Attr(Owner(s.shapes, o), a));
  }

  lemma FixedReads(s: State, s1: State, o: Id, a: string)
    requires Evolve(s, s1) && o < |s.shapes| && a !in ["func", "afunc", "bound"]
    ensures Read(s1, o, a) == Read(s, o, a)
  {
    var slot := Attr(Owner(s.shapes, o), a);
    assert Advanced(s, s1, slot);
    assert ShapeOk(s.shapes, o);
    RawInRange(s, slot);
  }

  lemma NoneIsKept(s: State, s1: State, o: Id, a: string)
    requires Evolve(s, s1) && o < |s.shapes| && a in ["func", "afunc"]
    ensures Read(s1, o, a) == NONE ==> Read(s, o, a) == NONE
  {
    var slot := Attr(Owner(s.shapes, o), a);
    assert Advanced(s, s1, slot);
    assert ShapeOk(s.shapes, o);
    RawInRange(s, slot);
  }

  lemma CallableStays(s: State, s1: State, o: Id, a: string)
    requires Evolve(s, s1) && o < |s.shapes| && a in ["func", "afunc"]
    ensures CallableDone(s, o, a) ==> CallableDone(s1, o, a)
    ensures Read(s1, o, a) == NONE ==> Read(s, o, a) == NONE
  {
    var slot := Attr(Owner(s.shapes, o), a);
    NoneIsKept(s, s1, o, a);
    ReadInRange(s, o, a);
    ReadInRange(s1, o, a);
    DoneStays(s, s1, Read(s, o, a));
    WalkedStays(s, s1, Read(s, o, a));
    assert Advanced(s, s1, slot) && s.shapes <= s1.shapes;
    hide Evolve, FuncWalked, WellFormed;
  }

  lemma ToolsStay(s: State, s1: State, o: Id)
    requires Evolve(s, s1) && o < |s.shapes| && ToolsDone(s, o)
    ensures ToolsDone(s1, o)
  {
    FixedReads(s, s1, o, "_tools_by_name");
    ReadInRange(s, o, "_tools_by_name");
    var d := Read(s, o, "_tools_by_name");
    if s.shapes[d].keys.Some? {
      forall k | k in s.shapes[d].keys.value ensures ToolDone(s1, Item(d, k)) {
        assert ToolDone(s, Item(d, k)) && Advanced(s, s1, Item(d, k));
      }
    }
  }

  lemma SequenceStays(s: State, s1: State, o: Id)
    requires Evolve(s, s1) && o < |s.shapes| && SequenceDone(s, o)
    ensures SequenceDone(s1, o)
  {
    FixedReads(s, s1, o, "first");
    FixedReads(s, s1, o, "last");
    FixedReads(s, s1, o, "middle");
    ReadInRange(s, o, "middle");
  }

  lemma BindingStays(s: State, s1: State, o: Id)
    requires Evolve(s, s1) && o < |s.shapes| && s.shapes[o].tag == RunnableBinding && !s.shapes[o].isChat &&
             Processed(s, o)
    ensures Processed(s1, o)
  {
    assert ShapeOk(s.shapes, o);
    ReachedStays(s, s1, o, "bound");
    ReadInRange(s, o, "bound");
  }

  lemma OtherStays(s: State, s1: State, o: Id)
    requires Evolve(s, s1) && o < |s.shapes| && s.shapes[o].tag == OtherType && !s.shapes[o].isChat && Processed(s, o)
    ensures Processed(s1, o)
  {
    CallableStays(s, s1, o, "func");
    CallableStays(s, s1, o, "afunc");
    if Read(s1, o, "func") == NONE && Read(s1, o, "afunc") == NONE {
      ReachedStays(s, s1, o, "bound");
      ReachedStays(s, s1, o, "first");
    }
  }

  lemma ProcessedStays(s: State, s1: State, o: Id)
    requires Evolve(s, s1) && o < |s.shapes| && Processed(s, o)
    ensures Processed(s1, o)
  {
    if !s.shapes[o].isChat {
      match s.shapes[o].tag
      case ToolNode => ToolsStay(s, s1, o);
      case RunnableBinding => BindingStays(s, s1, o);
      case RunnableSequence => SequenceStays(s, s1, o);
      case OtherType => OtherStays(s, s1, o);
    }
  }

  // ----- the two ways a stretch begins --------------------------------------

  lemma VisitEvolves(s: State, o: Id)
    requires WellFormed(s)
    ensures Evolve(s, s.(seen := s.seen + {o}))
  {
    var s1 := s.(seen := s.seen + {o});
    forall slot | slot in s1.heap ensures SlotOk(s1, slot) { assert SlotOk(s, slot); }
    forall i, a | 0 <= i < |s1.shapes| && a in s1.shapes[i].inherited ensures Present(s1, s1.shapes[i].inherited[a]) {
      assert Present(s, s.shapes[i].inherited[a]);
    }
    forall slot | !BirthSlot(slot) ensures Advanced(s, s1, slot) {
    }
  }

  /** Writing a proxy over the value it stands for, or a traced function over a walked one. */
  lemma PutEvolves(s: State, slot: Slot, v: Id)
    requires WellFormed(s) && WalkSlot(slot) && HolderOf(slot) < |s.shapes|
    requires v < |s.shapes| && s.shapes[v].target.None?
    requires !NodeSlot(slot) ==> v == RawOf(s, slot) && !s.shapes[v].marked
    requires NodeSlot(slot) ==>
               RawOf(s, slot) != NONE && RawOf(s, slot) < |s.shapes| && s.shapes[RawOf(s, slot)].isCallable
    requires NodeSlot(slot) ==> (v == RawOf(s, slot) && !s.shapes[v].nodeTraced) || FuncWalked(s, v)
    ensures Evolve(s, Put(s, slot, v))
  {
    PutKeepsWellFormed(s, slot, v);
    var s1 := Put(s, slot, v);
    RawInRange(s, slot);
    assert HolderOf(slot) < |s.shapes| && (slot.Attr? ==> ShapeOk(s.shapes, slot.owner));
    forall sl | !BirthSlot(sl) ensures Advanced(s, s1, sl) {
      if sl == slot { PutAdvances(s, slot, v); } else { OthersKeep(s, slot, v, sl); }
    }
  }

  lemma OthersKeep(s: State, slot: Slot, v: Id, other: Slot)
    requires WellFormed(s) && WellFormed(Put(s, slot, v)) && other != slot
    ensures RawOf(Put(s, slot, v), other) == RawOf(s, other)
  {
    var s1 := Put(s, slot, v);
    assert other in s.heap ==> SlotOk(s, other);
  }

  lemma PutAdvances(s: State, slot: Slot, v: Id)
    requires WalkSlot(slot) && v < |s.shapes| && RawOf(s, slot) < |s.shapes|
    requires !NodeSlot(slot) ==> v == RawOf(s, slot) && !s.shapes[v].marked
    requires NodeSlot(slot) ==> RawOf(s, slot) != NONE && s.shapes[RawOf(s, slot)].isCallable
    requires NodeSlot(slot) ==> (v == RawOf(s, slot) && !s.shapes[v].nodeTraced) || FuncWalked(s, v)
    ensures Advanced(s, Put(s, slot, v), slot)
  {
    var s1 := Put(s, slot, v);
    if NodeSlot(slot) {
      WalkedThroughPut(s, slot, v);
      hide FuncWalked;
      assert s1.shapes[|s.shapes|] == TracedShape(v);
      assert s1.shapes[v] == s.shapes[v];
    }
  }

  lemma WalkedThroughPut(s: State, slot: Slot, v: Id)
    requires WalkSlot(slot) && NodeSlot(slot) && v < |s.shapes|
    ensures FuncWalked(s, v) ==> FuncWalked(Put(s, slot, v), v)
  {
    var s1 := Put(s, slot, v);
    assert Cells(s1, v) == Cells(s, v);
    if FuncWalked(s, v) && s.shapes[v].globals.Some? {
      forall name | NameDone(s, s.shapes[v].globals.value, name) ensures NameDone(s1, s.shapes[v].globals.value, name) {
      }
    }
  }

  /** Asking a proxy for an attribute advances the walk too. */
  lemma AskedEvolves(s: State, o: Id, a: string)
    requires WellFormed(s) && o < |s.shapes|
    ensures Evolve(s, Asked(s, o, a))
  {
    var s1 := Asked(s, o, a);
    EvolveReflexive(s);
    if s1 != s {
      AskedMeans(s, o, a);
      var w, raw := s.shapes[o].views[a], RawOf(s, Attr(Owner(s.shapes, o), a));
      MadeKeepsWellFormed(s, w, raw);
      MadeAdvances(s, w, raw);
      hide WellFormed, Kept, Advanced;
    }
  }

  lemma MadeAdvances(s: State, w: Id, target: Id)
    requires WellFormed(s) && Method(w) !in s.heap
    ensures forall x :: Method(x) in s.heap ==> Kept(s, Made(s, w, target), x)
    ensures forall slot :: !BirthSlot(slot) ==> Advanced(s, Made(s, w, target), slot)
  {
    var s1 := Made(s, w, target);
    forall x | Method(x) in s.heap ensures Kept(s, s1, x) { assert SlotOk(s, Method(x)); }
    forall slot | !BirthSlot(slot) ensures Advanced(s, s1, slot) { assert RawOf(s1, slot) == RawOf(s, slot); }
  }

  // ----- graph nodes --------------------------------------------------------

  /** The function stored behind b, or the one b hands out, is a traced one. */
  predicate FuncTraced(s: State, b: Id)
    requires b < |s.shapes|
  {
    var f, raw := Read(s, b, "func"), RawOf(s, Attr(Owner(s.shapes, b), "func"));
    f != NONE && f < |s.shapes| && s.shapes[f].isCallable ==> Traced(s, f) || Traced(s, raw)
  }

  /** What the walk owes one graph node: its runnable was walked and its function is traced. */
  predicate NodeDone(s: State, nodes: Id, name: string) {
    && Item(nodes, name) in s.heap && s.heap[Item(nodes, name)] < |s.shapes|
    && var b := Read(s, s.heap[Item(nodes, name)], "bound");
       b == NONE || (b < |s.shapes| && (s.shapes[b].marked || (b in s.seen && FuncTraced(s, b))))
  }

  lemma FuncTracedStays(s: State, s1: State, b: Id)
    requires Evolve(s, s1) && b < |s.shapes| && FuncTraced(s, b)
    ensures FuncTraced(s1, b)
  {
    var slot := Attr(Owner(s.shapes, b), "func");
    assert ShapeOk(s.shapes, b);
    ReadInRange(s, b, "func");
    ReadInRange(s1, b, "func");
    TracedStays(s, s1, Read(s, b, "func"));
    TracedStays(s, s1, RawOf(s, slot));
    assert s.shapes <= s1.shapes && Advanced(s, s1, slot);
    hide Evolve, WellFormed, ShapeOk, Advanced;
    FuncTracedAdvances(s, s1, b);
  }

  lemma FuncTracedAdvances(s: State, s1: State, b: Id)
    requires s.shapes <= s1.shapes && b < |s.shapes| && FuncTraced(s, b)
    requires Advanced(s, s1, Attr(Owner(s.shapes, b), "func")) && Read(s1, b, "func") < |s1.shapes|
    requires Read(s, b, "func") < |s.shapes| && RawOf(s, Attr(Owner(s.shapes, b), "func")) < |s.shapes|
    requires Traced(s, Read(s, b, "func")) ==> Traced(s1, Read(s, b, "func"))
    requires Traced(s, RawOf(s, Attr(Owner(s.shapes, b), "func"))) ==>
               Traced(s1, RawOf(s, Attr(Owner(s.shapes, b), "func")))
    ensures FuncTraced(s1, b)
  {
    hide FuncWalked;
  }

  /**
   A node may meanwhile be replaced by a proxy of this walk, which stands for the same
   object and intercepts nothing.
   */
  lemma NodeStays(s: State, s1: State, slot: Slot)
    requires Evolve(s, s1) && slot.Item? && slot in s.heap
    ensures slot in s1.heap && s.heap[slot] < |s.shapes| && s1.heap[slot] < |s1.shapes|
    ensures var node, node1 := s.heap[slot], s1.heap[slot];
            && Owner(s1.shapes, node1) == Owner(s.shapes, node)
            && (node1 == node || (s.shapes[node].target.None? && s1.shapes[node1].views == map[]))
  {
    assert Advanced(s, s1, slot);
    assert SlotOk(s, slot) && SlotOk(s1, slot);
    assert ShapeOk(s.shapes, s.heap[slot]) && ShapeOk(s1.shapes, s1.heap[slot]);
  }

  /** What a node gives stays, or a proxy of this walk takes its place. */
  lemma BoundStays(s: State, s1: State, slot: Slot)
    requires Evolve(s, s1) && slot.Item? && slot in s.heap
    ensures slot in s1.heap && s.heap[slot] < |s.shapes| && s1.heap[slot] < |s1.shapes|
    ensures var b, b1 := Read(s, s.heap[slot], "bound"), Read(s1, s1.heap[slot], "bound");
            b < |s.shapes| && b1 < |s1.shapes| && (b1 == b || s1.shapes[b1].marked)
  {
    NodeStays(s, s1, slot);
    ReadInRange(s, s.heap[slot], "bound");
    ReadInRange(s1, s1.heap[slot], "bound");
    assert s.shapes <= s1.shapes && Advanced(s, s1, Attr(Owner(s.shapes, s.heap[slot]), "bound"));
    hide Evolve;
    BoundAdvances(s, s1, s.heap[slot], s1.heap[slot]);
  }

  lemma BoundAdvances(s: State, s1: State, node: Id, node1: Id)
    requires s.shapes <= s1.shapes && node < |s.shapes| && node1 < |s1.shapes|
    requires Owner(s1.shapes, node1) == Owner(s.shapes, node)
    requires node1 == node || (s.shapes[node].target.None? && s1.shapes[node1].views == map[])
    requires Advanced(s, s1, Attr(Owner(s.shapes, node), "bound"))
    requires RawOf(s, Attr(Owner(s.shapes, node), "bound")) < |s.shapes| && Read(s1, node1, "bound") < |s1.shapes|
    ensures Read(s1, node1, "bound") == Read(s, node, "bound") || s1.shapes[Read(s1, node1, "bound")].marked
  {
  }

  lemma NodeDoneStays(s: State, s1: State, nodes: Id, name: string)
    requires Evolve(s, s1) && NodeDone(s, nodes, name)
    ensures NodeDone(s1, nodes, name)
  {
    BoundStays(s, s1, Item(nodes, name));
    var b := Read(s, s.heap[Item(nodes, name)], "bound");
    if FuncTraced(s, b) { FuncTracedStays(s, s1, b); }
    hide WellFormed, FuncTraced, Advanced;
  }
}
