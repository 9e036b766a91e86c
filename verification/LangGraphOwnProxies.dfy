/**
 When a walk visits a proxy it made itself, told from the order of its tour.
 Source: src/rastir/langgraph_support.py:186-197, 219-227 and 255-259.
 */
module LangGraphOwnProxies {
  import opened ObjectHeap
  import opened LangGraphState
  import opened LangGraphPlan
  import opened LangGraphProgress
  import opened LangGraphTour

  /** x is a binding to be rewritten that has no node function; y is a user's proxy of it. */
  predicate HotPair(s0: State, x: Place, y: Place) {
    && x.Obj? && y.Obj? && y.id < |s0.shapes| && s0.shapes[y.id].target == Some(x.id)
    && Replaceable(s0, x.id) && !HasFunction(s0, x.id)
  }

  /** Such a proxy comes after its binding. */
  ghost predicate HotAfter(s0: State, order: seq<Place>) {
    exists i, j :: 0 <= i < j < |order| && HotPair(s0, order[i], order[j])
  }

  /** The node is, or stands in front of, a binding to be rewritten that was visited before its turn. */
  predicate RereadAt(s0: State, nodes: Id, names: seq<string>, k: nat)
    requires k < |names|
  {
    names[k] != "__start__" && Item(nodes, names[k]) in s0.heap && s0.heap[Item(nodes, names[k])] < |s0.shapes| &&
    var owner := Owner(s0.shapes, s0.heap[Item(nodes, names[k])]);
    Replaceable(s0, owner) && Obj(owner) in NodesTour(s0, nodes, names[..k]).order
  }

  ghost predicate SomeReread(s0: State, nodes: Id, names: seq<string>) {
    exists k :: 0 <= k < |names| && RereadAt(s0, nodes, names, k)
  }

  /** The tour comes to a proxy of the walk. */
  ghost predicate EntersOwn(order: seq<Place>) { exists b :: OwnProxy(b) in order }

  ghost predicate OwnAction(acts: seq<Action>) { exists b :: Go(OwnProxy(b)) in acts }

  lemma HotGrows(s0: State, order: seq<Place>, order1: seq<Place>)
    requires order <= order1
    ensures HotAfter(s0, order) ==> HotAfter(s0, order1)
    ensures EntersOwn(order) ==> EntersOwn(order1)
  {
    if HotAfter(s0, order) {
      var i, j :| 0 <= i < j < |order| && HotPair(s0, order[i], order[j]);
      assert HotPair(s0, order1[i], order1[j]);
    }
    if EntersOwn(order) {
      var b :| OwnProxy(b) in order;
      assert OwnProxy(b) in order1;
    }
  }

  lemma NoneAmongCells(cells: seq<Option<Id>>)
    ensures forall a :: a in CellActs(cells) ==> a.Go? && a.place.Obj?
    decreases |cells|
  {
    if cells != [] { NoneAmongCells(cells[..|cells| - 1]); }
  }

  lemma NoneAmongFunctions(s0: State, log: seq<Entry>, owner: Id, views: map<string, Id>, a: string)
    ensures !OwnAction(FuncActs(s0, log, owner, views, a))
  {
    var slot := Attr(owner, a);
    var f := if a in views then views[a] else RawOf(s0, slot);
    if f < |s0.shapes| {
      NoneAmongCells(Cells(s0, f));
      NoneAmongCells(s0.shapes[f].closure);
    }
  }

  /** Only a proxy that comes after its binding leads to a proxy of the walk. */
  lemma OwnActionMeans(s0: State, t: Tour, pl: Place)
    requires WellFormed(s0) && InRange(s0, pl) && OwnAction(Actions(s0, t, pl)) && !pl.OwnProxy?
    ensures HotAfter(s0, t.order + [pl])
  {
    var owner, views, order := OwnerOf(s0, pl), ViewsAt(s0, pl), t.order + [pl];
    assert ShapeOk(s0.shapes, pl.id);
    if TagAt(s0, pl).OtherType? {
      NoneAmongFunctions(s0, t.log, owner, views, "func");
      NoneAmongFunctions(s0, t.log, owner, views, "afunc");
      assert Replaceable(s0, owner) && Obj(owner) in t.order;
      var i :| 0 <= i < |t.order| && t.order[i] == Obj(owner);
      assert order[i] == Obj(owner) && order[|t.order|] == pl;
      assert HotPair(s0, order[i], order[|t.order|]);
    }
  }

  /** And such a proxy does so at once. */
  lemma HotLeadsIn(s0: State, t: Tour, x: Place, pl: Place)
    requires WellFormed(s0) && HotPair(s0, x, pl) && x in t.order
    ensures Actions(s0, t, pl) != [] && Actions(s0, t, pl)[0] == Go(OwnProxy(x.id))
  {
    assert ShapeOk(s0.shapes, pl.id);
    assert RawOf(s0, Attr(x.id, "func")) == NONE && RawOf(s0, Attr(x.id, "afunc")) == NONE;
  }

  lemma FirstActionDone(s0: State, t: Tour, acts: seq<Action>)
    requires acts != [] && acts[0].Go? && acts[0].place.OwnProxy? && InRange(s0, acts[0].place)
    ensures EntersOwn(Do(s0, t, acts).order)
  {
    DoGrows(s0, t, acts, 1);
    assert acts[..1] == [acts[0]];
    DoOne(s0, t, acts[0]);
    assert acts[0].place in Do(s0, t, acts[..1]).order;
    HotGrows(s0, Do(s0, t, acts[..1]).order, Do(s0, t, acts).order);
  }

  ghost predicate Told(s0: State, order: seq<Place>) { EntersOwn(order) <==> HotAfter(s0, order) }

  /** What is told right before a stretch of the tour is told right after it. */
  ghost predicate StaysTold(s0: State, order: seq<Place>, order1: seq<Place>, own: bool) {
    && (EntersOwn(order1) ==> EntersOwn(order) || HotAfter(s0, order1) || own)
    && (HotAfter(s0, order1) ==> HotAfter(s0, order) || EntersOwn(order1))
  }

  lemma {:induction false} VisitTells(s0: State, t: Tour, pl: Place)
    requires WellFormed(s0)
    ensures StaysTold(s0, t.order, Visit(s0, t, pl).order, pl.OwnProxy?)
    decreases Unvisited(s0, t.order), 0, 0
  {
    if InRange(s0, pl) && pl !in t.order {
      var t1, acts, r := Enter(s0, t, pl), Actions(s0, t, pl), Visit(s0, t, pl);
      assert t1.order[|t.order|] == pl;
      UnvisitedShrinks(s0, t.order, t1.order);
      DoTells(s0, t1, acts);
      HotGrows(s0, t1.order, r.order);
      EnterTells(s0, t, pl);
      if OwnAction(acts) && !pl.OwnProxy? { OwnActionMeans(s0, t, pl); }
    }
  }

  ghost predicate HotWith(s0: State, order: seq<Place>, pl: Place) {
    exists i :: 0 <= i < |order| && HotPair(s0, order[i], pl)
  }

  lemma HotAppend(s0: State, order: seq<Place>, pl: Place)
    ensures HotAfter(s0, order + [pl]) <==> HotAfter(s0, order) || HotWith(s0, order, pl)
  {
    var order1 := order + [pl];
    HotGrows(s0, order, order1);
    if HotAfter(s0, order1) {
      var i, j :| 0 <= i < j < |order1| && HotPair(s0, order1[i], order1[j]);
      if j == |order| { assert HotPair(s0, order[i], pl); } else { assert HotPair(s0, order[i], order[j]); }
    }
    if HotWith(s0, order, pl) {
      var i :| 0 <= i < |order| && HotPair(s0, order[i], pl);
      assert HotPair(s0, order1[i], order1[|order|]);
    }
  }

  lemma EnterTells(s0: State, t: Tour, pl: Place)
    requires WellFormed(s0) && InRange(s0, pl)
    ensures EntersOwn(t.order + [pl]) ==> EntersOwn(t.order) || pl.OwnProxy?
    ensures HotAfter(s0, t.order + [pl]) ==>
              HotAfter(s0, t.order) || EntersOwn(Do(s0, Enter(s0, t, pl), Actions(s0, t, pl)).order)
  {
    HotAppend(s0, t.order, pl);
    if HotWith(s0, t.order, pl) {
      var i :| 0 <= i < |t.order| && HotPair(s0, t.order[i], pl);
      HotLeadsIn(s0, t, t.order[i], pl);
      FirstActionDone(s0, Enter(s0, t, pl), Actions(s0, t, pl));
    }
  }

  lemma {:induction false} ActTells(s0: State, t: Tour, a: Action)
    requires WellFormed(s0)
    ensures StaysTold(s0, t.order, Act(s0, t, a).order, a.Go? && a.place.OwnProxy?)
    decreases Unvisited(s0, t.order), 0, 1
  {
    match a
    case Go(pl) => VisitTells(s0, t, pl);
    case Named(dict, name) =>
      var v := RawOf(s0, Item(dict, name));
      VisitTells(s0, t, Obj(v));
      if v < |s0.shapes| && s0.shapes[v].isChat { ModelTells(s0, t.order, v); }
  }

  lemma ModelTells(s0: State, order: seq<Place>, v: Id)
    requires WellFormed(s0) && v < |s0.shapes| && s0.shapes[v].isChat
    ensures StaysTold(s0, order, order + [Obj(v)], false)
  {
    assert ShapeOk(s0.shapes, v);
    HotAppend(s0, order, Obj(v));
  }

  lemma {:induction false} DoTells(s0: State, t: Tour, acts: seq<Action>)
    requires WellFormed(s0)
    ensures StaysTold(s0, t.order, Do(s0, t, acts).order, OwnAction(acts))
    decreases Unvisited(s0, t.order), |acts|, 2
  {
    if acts != [] {
      var init, a := acts[..|acts| - 1], acts[|acts| - 1];
      var t1 := Do(s0, t, init);
      UnvisitedShrinks(s0, t.order, t1.order);
      DoTells(s0, t, init);
      ActTells(s0, t1, a);
      HotGrows(s0, t1.order, Do(s0, t, acts).order);
      assert acts == init + [a];
      if OwnAction(init) {
        var b :| Go(OwnProxy(b)) in init;
        assert Go(OwnProxy(b)) in acts;
      }
      if a.Go? && a.place.OwnProxy? { assert Go(OwnProxy(a.place.binding)) in acts; }
    }
  }

  lemma TurnTells(s0: State, t: Tour, nodes: Id, names: seq<string>)
    requires WellFormed(s0) && names != [] && t == NodesTour(s0, nodes, names[..|names| - 1])
    ensures var r := NodesTour(s0, nodes, names);
            && (EntersOwn(r.order) ==>
                  EntersOwn(t.order) || HotAfter(s0, r.order) || RereadAt(s0, nodes, names, |names| - 1))
            && (HotAfter(s0, r.order) ==> HotAfter(s0, t.order) || EntersOwn(r.order))
            && (RereadAt(s0, nodes, names, |names| - 1) ==> EntersOwn(r.order))
  {
    var name := names[|names| - 1];
    var acts := GivenActs(s0, t.order, nodes, name);
    if acts != [] {
      VisitTells(s0, t, acts[0].place);
      if RereadAt(s0, nodes, names, |names| - 1) {
        assert acts[0].place in Visit(s0, t, acts[0].place).order;
      }
    }
  }

  lemma RereadSplits(s0: State, nodes: Id, names: seq<string>)
    requires names != []
    ensures SomeReread(s0, nodes, names) <==>
            SomeReread(s0, nodes, names[..|names| - 1]) || RereadAt(s0, nodes, names, |names| - 1)
  {
    var init := names[..|names| - 1];
    forall k: nat | k < |init| ensures RereadAt(s0, nodes, init, k) <==> RereadAt(s0, nodes, names, k) {
      assert init[..k] == names[..k];
    }
  }

  /**
   Before the call: the walk comes to a proxy it has made if and only if in the order of
   the tour a user's proxy of a rewritten binding comes after the binding, or a node reads
   a binding visited before the node's turn.
   */
  lemma {:induction false} EntersOwnIff(s0: State, nodes: Id, names: seq<string>)
    requires WellFormed(s0)
    ensures var order := NodesTour(s0, nodes, names).order;
            EntersOwn(order) <==> HotAfter(s0, order) || SomeReread(s0, nodes, names)
    decreases |names|
  {
    if names != [] {
      var init := names[..|names| - 1];
      EntersOwnIff(s0, nodes, init);
      TurnTells(s0, NodesTour(s0, nodes, init), nodes, names);
      RereadSplits(s0, nodes, names);
      TourGrows(s0, nodes, names, |init|);
      HotGrows(s0, NodesTour(s0, nodes, init).order, NodesTour(s0, nodes, names).order);
    }
  }
}
