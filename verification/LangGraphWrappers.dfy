/**
 What a walk leaves behind in the caches of the user's proxies: span wrappers made while
 a node function was rewritten close over its traced replacement, and no undo takes them
 back. Source: src/rastir/wrapper.py:168-203 with src/rastir/langgraph_support.py:244-246 and 432-441.
 */
module LangGraphWrappers {
  import opened ObjectHeap
  import opened LangGraphState
  import opened LangGraphPlan
  import opened LangGraphProgress
  import opened LangGraphTour
  import opened LangGraphInvariant
  import opened LangGraphReads
  import opened FrameworkRun

  /** A stretch of the tour makes the wrapper stale exactly if it visits the proxy first, over a traced function. */
  predicate Staler(s0: State, t: Tour, t1: Tour, p: Id, a: string)
    requires a in ViewsOf(s0, p)
  {
    ViewsOf(s0, p)[a] in t1.stale <==>
    || ViewsOf(s0, p)[a] in t.stale
    || (Obj(p) !in t.order && Obj(p) in t1.order && MakesStale(s0, t.log, Obj(p), a))
  }

  lemma StalerJoined(s0: State, t: Tour, t1: Tour, t2: Tour, p: Id, a: string)
    requires a in ViewsOf(s0, p) && Staler(s0, t, t1, p, a) && Staler(s0, t1, t2, p, a)
    requires t1.log == t.log && t.order <= t1.order <= t2.order
    ensures Staler(s0, t, t2, p, a)
  {
    assert forall pl :: pl in t.order ==> pl in t1.order;
    assert forall pl :: pl in t1.order ==> pl in t2.order;
  }

  lemma EnterStaler(s0: State, t: Tour, pl: Place, p: Id, a: string)
    requires WellFormed(s0) && a in ["func", "afunc"] && a in ViewsOf(s0, p) && pl !in t.order
    ensures Staler(s0, t, Enter(s0, t, pl), p, a)
  {
    StaleMeans(s0, t, pl, p, a);
  }

  lemma {:induction false} VisitStaler(s0: State, t: Tour, pl: Place, p: Id, a: string)
    requires WellFormed(s0) && a in ["func", "afunc"] && a in ViewsOf(s0, p)
    ensures Staler(s0, t, Visit(s0, t, pl), p, a)
    decreases Unvisited(s0, t.order), 0, 0
  {
    if InRange(s0, pl) && pl !in t.order {
      var t1 := Enter(s0, t, pl);
      assert t1.order[|t.order|] == pl;
      UnvisitedShrinks(s0, t.order, t1.order);
      EnterStaler(s0, t, pl, p, a);
      DoStaler(s0, t1, Actions(s0, t, pl), p, a);
      StalerJoined(s0, t, t1, Visit(s0, t, pl), p, a);
    }
  }

  lemma {:induction false} ActStaler(s0: State, t: Tour, act: Action, p: Id, a: string)
    requires WellFormed(s0) && a in ["func", "afunc"] && a in ViewsOf(s0, p)
    ensures Staler(s0, t, Act(s0, t, act), p, a)
    decreases Unvisited(s0, t.order), 0, 1
  {
    match act
    case Go(pl) => VisitStaler(s0, t, pl, p, a);
    case Named(dict, name) =>
      VisitStaler(s0, t, Obj(RawOf(s0, Item(dict, name))), p, a);
      assert ShapeOk(s0.shapes, p);
  }

  lemma {:induction false} DoStaler(s0: State, t: Tour, acts: seq<Action>, p: Id, a: string)
    requires WellFormed(s0) && a in ["func", "afunc"] && a in ViewsOf(s0, p)
    ensures Staler(s0, t, Do(s0, t, acts), p, a)
    decreases Unvisited(s0, t.order), |acts|, 2
  {
    if acts != [] {
      var t1 := Do(s0, t, acts[..|acts| - 1]);
      UnvisitedShrinks(s0, t.order, t1.order);
      DoStaler(s0, t, acts[..|acts| - 1], p, a);
      ActStaler(s0, t1, acts[|acts| - 1], p, a);
      StalerJoined(s0, t, t1, Do(s0, t, acts), p, a);
    }
  }

  /** The proxy is first visited in this node's turn, by which an earlier node has had the function rewritten. */
  predicate LateAt(s0: State, nodes: Id, names: seq<string>, p: Id, a: string, k: nat)
    requires k < |names|
  {
    var t := NodesTour(s0, nodes, names[..k]);
    Obj(p) !in t.order && Obj(p) in NodesTour(s0, nodes, names[..k + 1]).order && MakesStale(s0, t.log, Obj(p), a)
  }

  ghost predicate VisitedLate(s0: State, nodes: Id, names: seq<string>, p: Id, a: string) {
    exists k :: 0 <= k < |names| && LateAt(s0, nodes, names, p, a, k)
  }

  lemma LateSplits(s0: State, nodes: Id, names: seq<string>, p: Id, a: string)
    requires names != []
    ensures VisitedLate(s0, nodes, names, p, a) <==>
            VisitedLate(s0, nodes, names[..|names| - 1], p, a) || LateAt(s0, nodes, names, p, a, |names| - 1)
  {
    var init := names[..|names| - 1];
    forall k: nat | k < |init| ensures LateAt(s0, nodes, init, p, a, k) <==> LateAt(s0, nodes, names, p, a, k) {
      assert init[..k] == names[..k] && init[..k + 1] == names[..k + 1];
    }
  }

  /** Told before the call: which wrappers are going to be made over traced functions. */
  lemma {:induction false} StaleIff(s0: State, nodes: Id, names: seq<string>, p: Id, a: string)
    requires WellFormed(s0) && a in ["func", "afunc"] && a in ViewsOf(s0, p)
    ensures ViewsOf(s0, p)[a] in NodesTour(s0, nodes, names).stale <==> VisitedLate(s0, nodes, names, p, a)
    decreases |names|
  {
    if names != [] {
      var n, t := |names| - 1, NodesTour(s0, nodes, names[..|names| - 1]);
      StaleIff(s0, nodes, names[..n], p, a);
      LateSplits(s0, nodes, names, p, a);
      assert names[..n + 1] == names;
      var acts := GivenActs(s0, t.order, nodes, names[n]);
      if acts != [] { VisitStaler(s0, t, acts[0].place, p, a); }
    }
  }

  /**
   A wrapper the proxy had not made is made if and only if the tour visits the proxy. It
   then wraps a traced function of this walk exactly if the proxy was first visited after
   the function's slot had been rewritten, and the undo leaves it as it is: the proxy goes
   on handing it out although the slot reads as before.
   */
  lemma WrapperOutlivesUndo(s0: State, s: State, nodes: Id, names: seq<string>, p: Id, a: string)
    requires Walked(s0, s, nodes, names) && a in ["func", "afunc"] && a in ViewsOf(s0, p)
    requires Method(ViewsOf(s0, p)[a]) !in s0.heap && CallableNow(s0, Attr(OwnerOf(s0, Obj(p)), a))
    ensures |s0.log| <= |s.log|
    ensures var w, slot := ViewsOf(s0, p)[a], Attr(OwnerOf(s0, Obj(p)), a);
            var h := Restore(s.heap, NewLog(s0, s));
            && (Method(w) in h <==> Obj(p) in NodesTour(s0, nodes, names).order)
            && (Method(w) in h ==>
                  if VisitedLate(s0, nodes, names, p, a) then |s0.shapes| <= h[Method(w)]
                  else h[Method(w)] == RawOf(s0, slot))
            && (Undone(s0, s) ==>
                  p < |s.shapes| && Get(s.shapes, h, p, a) == w && Raw(s.shapes, h, slot) == RawOf(s0, slot))
  {
    hide WellFormed, Accounted, RecordOk, LogFaithful, SettledSlot, NodesTour, VisitedLate, Processed;
    var w, slot, t := ViewsOf(s0, p)[a], Attr(OwnerOf(s0, Obj(p)), a), NodesTour(s0, nodes, names);
    WalkingMeans(s0, s, {}, t);
    assert SameView(s0, s, {}, t, p, a);
    NodeSlotNow(s0, s, t, slot);
    StaleIff(s0, nodes, names, p, a);
    BirthAfterUndo(s0, s, Method(w));
    if p in s.seen { ShownWhenDone(s0, s, p, a); }
  }
}
