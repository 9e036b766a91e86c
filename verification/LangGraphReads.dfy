/**
 What the walk reads on its way is what the tour foretold: the cells and names of a
 function, the attributes it follows, the globals, and what the nodes give.
 Source: src/rastir/langgraph_support.py:186-295.
 */
module LangGraphReads {
  import opened ObjectHeap
  import opened LangGraphState
  import opened LangGraphPlan
  import opened LangGraphProgress
  import opened LangGraphSteps
  import opened LangGraphTour
  import opened LangGraphInvariant

  // ----- functions ------------------------------------------------------------------------

  /** What the cells lead to by now; an object of this walk found in one leads nowhere. */
  function CellActsNow(n: nat, cells: seq<Option<Id>>): seq<Action> {
    if cells == [] then []
    else CellActsNow(n, cells[..|cells| - 1]) + CellAct(n, cells[|cells| - 1])
  }

  function CellAct(n: nat, cell: Option<Id>): seq<Action> {
    if cell.None? then [] else if cell.value < n then [Go(Obj(cell.value))] else [Go(Inert)]
  }

  /** What walking the function comes to in this state. */
  function FunctionActsNow(n: nat, s: State, f: Id): seq<Action>
    requires f < |s.shapes|
  {
    CellActsNow(n, Cells(s, f)) +
    if s.shapes[f].globals.Some? then NameActs(s.shapes[f].globals.value, s.shapes[f].names) else []
  }

  predicate Old(n: nat, cells: seq<Option<Id>>) {
    forall c :: 0 <= c < |cells| && cells[c].Some? ==> cells[c].value < n
  }

  lemma {:induction false} OldCells(n: nat, cells: seq<Option<Id>>)
    requires Old(n, cells)
    ensures CellActsNow(n, cells) == CellActs(cells)
    decreases |cells|
  {
    if cells != [] { OldCells(n, cells[..|cells| - 1]); }
  }

  lemma {:induction false} FirstCell(n: nat, cell: Option<Id>, cells: seq<Option<Id>>)
    ensures CellActsNow(n, [cell] + cells) == CellAct(n, cell) + CellActsNow(n, cells)
    decreases |cells|
  {
    var all := [cell] + cells;
    if cells == [] {
      assert all == [cell] && all[..0] == [];
    } else {
      assert all[..|all| - 1] == [cell] + cells[..|cells| - 1];
      FirstCell(n, cell, cells[..|cells| - 1]);
    }
  }

  /** An object in use at the start has the cells it had. */
  lemma CellsSame(s0: State, s: State, f: Id)
    requires Core(s0, s) && Present(s0, f)
    ensures f < |s.shapes| && Cells(s, f) == Cells(s0, f) && Old(|s0.shapes|, Cells(s0, f))
    ensures FunctionActsNow(|s0.shapes|, s, f) == FunctionActs(s0, f)
  {
    assert ShapeOk(s0.shapes, f) && s.shapes[f] == s0.shapes[f];
    assert Accounted(s0, s, Method(f));
    BirthIsUnlogged(s0, s, Method(f));
    if Method(f) in s.heap { assert SlotOk(s, Method(f)); }
    if Method(f) in s0.heap { assert SlotOk(s0, Method(f)); }
    OldCells(|s0.shapes|, Cells(s0, f));
  }

  /** The cells of a traced function hold what it replaced. */
  lemma TracedCells(s0: State, s: State, f: Id, saved: Id)
    requires Core(s0, s) && |s0.shapes| <= f < |s.shapes| && s.shapes[f] == TracedShape(saved)
    ensures saved < |s0.shapes| && Method(f) !in s.heap && FunctionActsNow(|s0.shapes|, s, f) == [Go(Obj(saved))]
  {
    assert Created(|s0.shapes|, s.shapes, f);
    assert Method(f) in s.heap ==> SlotOk(s, Method(f));
    assert Cells(s, f) == [Some(saved)];
    FirstCell(|s0.shapes|, Some(saved), []);
  }

  /** A wrapper made since the start has a cell for its method before the others. */
  lemma WrapperCells(s0: State, s: State, t: Tour, w: Id, slot: Slot)
    requires Core(s0, s) && w < |s0.shapes| && Method(w) !in s0.heap && ShownAs(s0, s, t.stale, w, slot)
    requires w in t.stale <==> Times(t.log, slot) > 0
    requires RawOf(s0, slot) < |s0.shapes|
    ensures w < |s.shapes| && FunctionActsNow(|s0.shapes|, s, w) == WrapperActs(s0, t.log, slot, w)
  {
    var n, closure := |s0.shapes|, s0.shapes[w].closure;
    assert ShapeOk(s0.shapes, w) && s.shapes[w] == s0.shapes[w];
    FirstCell(n, Some(s.heap[Method(w)]), closure);
    OldCells(n, closure);
  }

  /** A created object intercepts nothing. */
  lemma ViewsNow(s0: State, s: State, o: Id)
    requires Core(s0, s) && o < |s.shapes|
    ensures forall a :: Intercepts(s, o, a) <==> a in ViewsOf(s0, o) && CallableNow(s, Attr(Owner(s.shapes, o), a))
    ensures forall a :: a in ViewsOf(s0, o) ==> o < |s0.shapes| && s.shapes[o].views == ViewsOf(s0, o)
    ensures o < |s0.shapes| ==> Owner(s.shapes, o) == Owner(s0.shapes, o)
  {
    if |s0.shapes| <= o { assert Created(|s0.shapes|, s.shapes, o); }
  }

  /** The function an object on the stack gives, if any, leads where the tour says. */
  lemma FunctionRead(s0: State, s: State, stack: set<Id>, t: Tour, o: Id, a: string)
    requires Walking(s0, s, stack, t) && o < |s.shapes| && o in s.seen && o in stack && a in ["func", "afunc"]
    ensures var s1, f := Asked(s, o, a), Read(s, o, a);
            && f < |s1.shapes| && s1.shapes == s.shapes
            && (s.shapes[f].isCallable ==> f != NONE && Present(s1, f))
            && FuncActs(s0, t.log, Owner(s.shapes, o), ViewsOf(s0, o), a) ==
               if s.shapes[f].isCallable then FunctionActsNow(|s0.shapes|, s1, f) else []
  {
    hide Core, Settled, SameLog, SameVisits, SameItems, SameViews, Apart, Finished, Evolve, Asked, FuncActs, Present;
    hide WellFormed, WrapperActs, FunctionActs, FunctionActsNow, CallableNow, Intercepts, Walking;
    WalkingMeans(s0, s, stack, t);
    AskedWalks(s0, s, stack, t, o, a);
    var s1, slot := Asked(s, o, a), Attr(Owner(s.shapes, o), a);
    WalkingMeans(s0, s1, stack, t);
    ViewsNow(s0, s, o);
    NodeSlotNow(s0, s, t, slot);
    AskedGives(s, o, a);
    if Intercepts(s, o, a) {
      ViewRead(s0, s1, stack, t, o, a);
    } else if CallableNow(s, slot) {
      BareRead(s0, s1, t, slot);
    }
    FuncActsCases(s0, t.log, Owner(s.shapes, o), ViewsOf(s0, o), a);
  }

  lemma FuncActsCases(s0: State, log: seq<Entry>, owner: Id, views: map<string, Id>, a: string)
    ensures var slot := Attr(owner, a);
            FuncActs(s0, log, owner, views, a) ==
            if !CallableNow(s0, slot) then []
            else if a in views then WrapperActs(s0, log, slot, views[a])
            else if Times(log, slot) > 0 then [Go(Obj(LastSaved(log, slot)))]
            else FunctionActs(s0, RawOf(s0, slot))
  {
  }

  /** What is handed out, and that it is there afterwards. */
  lemma AskedGives(s: State, o: Id, a: string)
    requires WellFormed(s) && o < |s.shapes|
    ensures var s1, f, slot := Asked(s, o, a), Read(s, o, a), Attr(Owner(s.shapes, o), a);
            && s1.shapes == s.shapes && s1.seen == s.seen && s1.log == s.log && f < |s.shapes|
            && RawOf(s1, slot) == RawOf(s, slot) && (CallableNow(s1, slot) <==> CallableNow(s, slot))
            && (if Intercepts(s, o, a)
                then a in s.shapes[o].views && f == s.shapes[o].views[a] && s.shapes[f].isCallable &&
                     Method(f) in s1.heap
                else f == RawOf(s, slot) && s1 == s && (s.shapes[f].isCallable <==> CallableNow(s, slot)))
            && (s.shapes[f].isCallable ==> f != NONE && Present(s1, f) && CallableNow(s, slot))
  {
    assert ShapeOk(s.shapes, o);
    ReadInRange(s, o, a);
    RawInRange(s, Attr(Owner(s.shapes, o), a));
    if Intercepts(s, o, a) { assert ShapeOk(s.shapes, s.shapes[o].views[a]); }
  }

  lemma ViewRead(s0: State, s: State, stack: set<Id>, t: Tour, p: Id, a: string)
    requires Walking(s0, s, stack, t) && p in stack && a in ["func", "afunc"] && a in ViewsOf(s0, p)
    requires CallableNow(s0, Attr(OwnerOf(s0, Obj(p)), a)) && Method(ViewsOf(s0, p)[a]) in s.heap
    ensures var w, slot := ViewsOf(s0, p)[a], Attr(OwnerOf(s0, Obj(p)), a);
            w < |s.shapes| && FunctionActsNow(|s0.shapes|, s, w) == WrapperActs(s0, t.log, slot, w)
  {
    var w, slot := ViewsOf(s0, p)[a], Attr(OwnerOf(s0, Obj(p)), a);
    assert ShapeOk(s0.shapes, p) && SameView(s0, s, stack, t, p, a);
    RawInRange(s0, slot);
    if Method(w) in s0.heap { CellsSame(s0, s, w); } else { WrapperCells(s0, s, t, w, slot); }
  }

  lemma BareRead(s0: State, s: State, t: Tour, slot: Slot)
    requires Core(s0, s) && Settled(s0, s) && SameLog(s0, s, t) && NodeSlot(slot) && CallableNow(s, slot)
    ensures CallableNow(s0, slot)
    ensures FunctionActsNow(|s0.shapes|, s, RawOf(s, slot)) ==
            if Times(t.log, slot) > 0 then [Go(Obj(LastSaved(t.log, slot)))] else FunctionActs(s0, RawOf(s0, slot))
  {
    NodeSlotNow(s0, s, t, slot);
    RawInRange(s0, slot);
    if Times(t.log, slot) > 0 {
      TracedCells(s0, s, RawOf(s, slot), LastSaved(t.log, slot));
    } else {
      CellsSame(s0, s, RawOf(s0, slot));
    }
  }

  // ----- attributes that are followed ------------------------------------------------------

  /** The attribute's value, unless the binding behind it holds a proxy of this walk, is what it was. */
  lemma FollowedSlot(s0: State, s: State, stack: set<Id>, t: Tour, owner: Id, a: string)
    requires Walking(s0, s, stack, t) && Plain(s0, stack) && a in ["bound", "first"]
    ensures var slot := Attr(owner, a);
            && RawOf(s0, slot) < |s0.shapes| && RawOf(s, slot) < |s.shapes|
            && if a == "bound" && Replaceable(s0, owner) && Obj(owner) in t.order
               then Rewritten(s0, s, owner) && !s.shapes[RawOf(s, slot)].isCallable && RawOf(s, slot) != NONE
               else RawOf(s, slot) == RawOf(s0, slot)
  {
    WalkingMeans(s0, s, stack, t);
    RawInRange(s0, Attr(owner, a));
    RawInRange(s, Attr(owner, a));
    if a == "first" {
      FixedSlot(s0, s, owner, a);
    } else if Replaceable(s0, owner) && Obj(owner) in t.order {
      BindingIsRewritten(s0, s, stack, t, owner);
      RewrittenIsProxy(s0, s, owner);
    } else {
      FixedBound(s0, s, owner);
    }
  }

  /** What is followed is the place the tour goes to. */
  lemma FollowRead(s0: State, s: State, stack: set<Id>, t: Tour, o: Id, a: string) returns (pl: Place)
    requires Walking(s0, s, stack, t) && Plain(s0, stack) && o < |s.shapes| && a in ["bound", "first"]
    ensures var s1, v := Asked(s, o, a), Read(s, o, a);
            var acts := FollowActs(s0, t.order, Owner(s.shapes, o), ViewsOf(s0, o), a);
            && v < |s1.shapes| && s1.shapes == s.shapes
            && if v == NONE then acts == [] else acts == [Go(pl)] && Denotes(s0, s1, pl, v) && !pl.Inert?
  {
    hide Core, Settled, SameLog, SameVisits, SameItems, SameViews, Apart, Finished, Evolve, Asked, WellFormed;
    hide Walking, Intercepts, Replaceable;
    WalkingMeans(s0, s, stack, t);
    var owner, views, v := Owner(s.shapes, o), ViewsOf(s0, o), Read(s, o, a);
    FollowedSlot(s0, s, stack, t, owner, a);
    ViewsNow(s0, s, o);
    AskedGives(s, o, a);
    pl := if a == "bound" && Replaceable(s0, owner) && Obj(owner) in t.order then OwnProxy(owner) else Obj(v);
    if a in views { ViewInRange(s0, o, a); }
  }

  lemma ViewInRange(s0: State, p: Id, a: string)
    requires WellFormed(s0) && a in ViewsOf(s0, p)
    ensures ViewsOf(s0, p)[a] < |s0.shapes|
  {
    assert ShapeOk(s0.shapes, p);
  }

  /** The same for what a binding, a sequence or a tool node holds. */
  lemma EndRead(s0: State, s: State, o: Id, a: string)
    requires Core(s0, s) && o < |s0.shapes| && s0.shapes[o].tag != OtherType
    requires a == "bound" ==> !Replaceable(s0, o) || o !in s.seen || RawOf(s, Attr(o, a)) == RawOf(s0, Attr(o, a))
    requires a !in ["func", "afunc"]
    ensures o < |s.shapes| && Owner(s.shapes, o) == o && s.shapes[o] == s0.shapes[o] && s.shapes[o].target.None?
    ensures Read(s, o, a) == RawOf(s0, Attr(o, a)) < |s0.shapes|
    ensures s.shapes[Read(s, o, a)] == s0.shapes[Read(s, o, a)]
  {
    assert ShapeOk(s0.shapes, o) && s.shapes[o] == s0.shapes[o];
    RawInRange(s0, Attr(o, a));
    if a != "bound" { FixedSlot(s0, s, o, a); } else if !Replaceable(s0, o) || o !in s.seen { FixedBound(s0, s, o); }
  }

  // ----- globals --------------------------------------------------------------------------------

  /** A name leads on only while it holds what it held, and that is a model or runnable not yet visited. */
  lemma NameRead(s0: State, s: State, stack: set<Id>, t: Tour, dict: Id, name: string)
    requires Walking(s0, s, stack, t) && Plain(s0, stack)
    ensures var v := RawOf(s, Item(dict, name));
            && v < |s.shapes|
            && if v == NONE || v in s.seen || !(s.shapes[v].isChat || s.shapes[v].isRunnable)
               then Act(s0, t, Named(dict, name)) == t
               else v < |s0.shapes| && RawOf(s0, Item(dict, name)) == v && s0.shapes[v] == s.shapes[v] &&
                    Act(s0, t, Named(dict, name)) ==
                    if s.shapes[v].isChat then t.(order := t.order + [Obj(v)]) else Visit(s0, t, Obj(v))
  {
    hide Processed, SameViews, Apart;
    WalkingMeans(s0, s, stack, t);
    var slot := Item(dict, name);
    RawInRange(s0, slot);
    RawInRange(s, slot);
    if Logged(NewLog(s0, s), slot) {
      assert SettledSlot(s0, s, slot);
      RecognisedIsOriginal(s0, s, s.heap[slot]);
    } else {
      UnloggedReads(s0, s, slot);
      if Tooled(s0, t.order, slot) { ToolIsLogged(s0, s, stack, t, slot); }
    }
  }

  /** What a visited tool node holds bare at the start is replaced by now. */
  lemma ToolIsLogged(s0: State, s: State, stack: set<Id>, t: Tour, slot: Slot)
    requires Walking(s0, s, stack, t) && Plain(s0, stack) && Tooled(s0, t.order, slot)
    ensures Logged(NewLog(s0, s), slot)
  {
    WalkingMeans(s0, s, stack, t);
    var pl :| pl in t.order && ToolsHold(s0, pl, slot);
    assert ShapeOk(s0.shapes, pl.id) && Processed(s, pl.id);
    RawInRange(s0, slot);
    EndRead(s0, s, pl.id, "_tools_by_name");
    hide WellFormed, Settled, SameViews, SameItems, Apart, Finished, CallableDone, SequenceDone, LogFaithful, RecordOk;
    assert s.shapes[RawOf(s0, slot)] == s0.shapes[RawOf(s0, slot)];
    assert s.shapes[Read(s, pl.id, "_tools_by_name")] == s0.shapes[Read(s, pl.id, "_tools_by_name")];
    assert ToolsDone(s, pl.id) && ToolDone(s, slot);
    if !Logged(NewLog(s0, s), slot) { UnloggedReads(s0, s, slot); }
  }

  // ----- what a place leads to --------------------------------------------------------------

  lemma NothingBeyond(s0: State, t: Tour, o: Id)
    requires WellFormed(s0) && |s0.shapes| <= o
    ensures OtherActs(s0, t, o, map[], false) == []
  {
    forall a ensures RawOf(s0, Attr(o, a)) == NONE {
      assert Attr(o, a) in s0.heap ==> SlotOk(s0, Attr(o, a));
    }
    assert !CallableNow(s0, Attr(o, "func")) && !CallableNow(s0, Attr(o, "afunc"));
  }

  /** Of what is no recognised runnable the tour says what its owner and wrappers say. */
  lemma OtherActsNow(s0: State, s: State, t: Tour, pl: Place, x: Id)
    requires Core(s0, s) && Settled(s0, s) && Denotes(s0, s, pl, x) && x < |s.shapes| && s.shapes[x].tag == OtherType
    ensures (if pl.Inert? then [] else Actions(s0, t, pl)) ==
            OtherActs(s0, EnterPlace(s0, t, pl), Owner(s.shapes, x), ViewsOf(s0, x), s.shapes[x].isChat)
  {
    var t1 := EnterPlace(s0, t, pl);
    match pl {
      case Obj(o) =>
        assert ShapeOk(s0.shapes, o) && s.shapes[o] == s0.shapes[o];
        OrderMatters(s0, t, t1, pl, Owner(s0.shapes, o), ViewsOf(s0, o), s.shapes[o].isChat);
      case OwnProxy(b) =>
        RewrittenIsProxy(s0, s, b);
        OrderMatters(s0, t, t1, pl, RawOf(s0, Attr(b, "bound")), map[], false);
      case Inert =>
        assert Created(|s0.shapes|, s.shapes, x);
        NothingBeyond(s0, t, x);
    }
  }

  /** Entering a place that is no binding changes nothing about where it leads. */
  lemma OrderMatters(s0: State, t: Tour, t1: Tour, pl: Place, owner: Id, views: map<string, Id>, isChat: bool)
    requires t1.log == t.log && t1.order == t.order + [pl] && (Replaceable(s0, owner) ==> pl != Obj(owner))
    ensures OtherActs(s0, t, owner, views, isChat) == OtherActs(s0, t1, owner, views, isChat)
  {
    assert Replaceable(s0, owner) ==> (Obj(owner) in t1.order <==> Obj(owner) in t.order);
    hide FuncActs;
  }
}
