/**
 The order in which a walk visits things, worked out from the starting state alone: a
 depth-first tour that changes nothing. Bindings whose model will be replaced lead
 nowhere; what stands in for them is a place of its own. A function that an earlier
 node has had traced leads to what the traced function closes over.
 Source: src/rastir/langgraph_support.py:179-295.
 */
module LangGraphTour {
  import opened ObjectHeap
  import opened LangGraphState
  import opened LangGraphPlan
  import opened LangGraphProgress

  /** An object there was at the start, the proxy the walk puts into a binding, or a traced function. */
  datatype Place = Obj(id: Id) | OwnProxy(binding: Id) | Inert

  /**
   The places visited so far, in order; the span wrappers made over traced functions; the
   node functions rewritten; and what the nodes have given.
   */
  datatype Tour = Tour(order: seq<Place>, stale: set<Id>, log: seq<Entry>, hs: seq<Handle>)

  const START := Tour([], {}, [], [])

  datatype Action = Go(place: Place) | Named(dict: Id, name: string)

  // ----- where a place leads -----------------------------------------------------------

  function ViewsOf(s0: State, o: Id): map<string, Id> {
    if o < |s0.shapes| && s0.shapes[o].target.Some? then s0.shapes[o].views else map[]
  }

  function CellActs(cells: seq<Option<Id>>): seq<Action> {
    if cells == [] then []
    else
      CellActs(cells[..|cells| - 1]) +
      if cells[|cells| - 1].Some? then [Go(Obj(cells[|cells| - 1].value))] else []
  }

  function NameActs(dict: Id, names: seq<string>): seq<Action> {
    seq(|names|, i requires 0 <= i < |names| => Named(dict, names[i]))
  }

  function GlobalActs(s0: State, f: Id): seq<Action> {
    if f < |s0.shapes| && s0.shapes[f].globals.Some?
    then NameActs(s0.shapes[f].globals.value, s0.shapes[f].names)
    else []
  }

  /** Walking a function there was at the start. */
  function FunctionActs(s0: State, f: Id): seq<Action> {
    if f < |s0.shapes| then CellActs(Cells(s0, f)) + GlobalActs(s0, f) else []
  }

  /** Walking a span wrapper: the method it was or is now made for, and the object it was made from. */
  function WrapperActs(s0: State, log: seq<Entry>, slot: Slot, w: Id): seq<Action> {
    if w >= |s0.shapes| || Method(w) in s0.heap then FunctionActs(s0, w)
    else
      [Go(if Times(log, slot) > 0 then Inert else Obj(RawOf(s0, slot)))] +
      CellActs(s0.shapes[w].closure) + GlobalActs(s0, w)
  }

  /** .func or .afunc of an object, or of what a proxy stands for. */
  function FuncActs(s0: State, log: seq<Entry>, owner: Id, views: map<string, Id>, a: string): seq<Action> {
    var slot := Attr(owner, a);
    if !CallableNow(s0, slot) then []
    else if a in views then WrapperActs(s0, log, slot, views[a])
    else if Times(log, slot) > 0 then [Go(Obj(LastSaved(log, slot)))]
    else FunctionActs(s0, RawOf(s0, slot))
  }

  /** .bound or .first; a binding visited before holds the walk's own proxy by now. */
  function FollowActs(s0: State, order: seq<Place>, owner: Id, views: map<string, Id>, a: string): seq<Action> {
    var v := RawOf(s0, Attr(owner, a));
    if a == "bound" && Replaceable(s0, owner) && Obj(owner) in order then [Go(OwnProxy(owner))]
    else if v == NONE then []
    else if a in views && v < |s0.shapes| && s0.shapes[v].isCallable then [Go(Obj(views[a]))]
    else [Go(Obj(v))]
  }

  /** It has a synchronous or asynchronous function, whatever that is. */
  predicate HasFunction(s0: State, owner: Id) {
    RawOf(s0, Attr(owner, "func")) != NONE || RawOf(s0, Attr(owner, "afunc")) != NONE
  }

  function FallbackActs(s0: State, order: seq<Place>, owner: Id, views: map<string, Id>): seq<Action> {
    FollowActs(s0, order, owner, views, "bound") + FollowActs(s0, order, owner, views, "first")
  }

  function OtherActs(s0: State, t: Tour, owner: Id, views: map<string, Id>, isChat: bool): seq<Action> {
    FuncActs(s0, t.log, owner, views, "func") + FuncActs(s0, t.log, owner, views, "afunc") +
    if HasFunction(s0, owner) || isChat then [] else FallbackActs(s0, t.order, owner, views)
  }

  function ItemActs(items: seq<Id>): seq<Action> { seq(|items|, i requires 0 <= i < |items| => Go(Obj(items[i]))) }

  function EndActs(s0: State, o: Id, a: string): seq<Action> {
    var v := RawOf(s0, Attr(o, a));
    if v == NONE then [] else [Go(Obj(v))]
  }

  function MiddleActs(s0: State, o: Id): seq<Action> {
    var m := RawOf(s0, Attr(o, "middle"));
    if m < |s0.shapes| && s0.shapes[m].items.Some? then ItemActs(s0.shapes[m].items.value) else []
  }

  function BindingActs(s0: State, o: Id): seq<Action> {
    var v := RawOf(s0, Attr(o, "bound"));
    if v == NONE || (v < |s0.shapes| && s0.shapes[v].isChat) then [] else [Go(Obj(v))]
  }

  /** The object behind a place that is no recognised runnable. */
  function OwnerOf(s0: State, pl: Place): Id {
    match pl
    case Obj(o) => if o < |s0.shapes| then Owner(s0.shapes, o) else o
    case OwnProxy(b) => RawOf(s0, Attr(b, "bound"))
    case Inert => NONE
  }

  function ViewsAt(s0: State, pl: Place): map<string, Id> {
    if pl.Obj? then ViewsOf(s0, pl.id) else map[]
  }

  predicate ChatAt(s0: State, pl: Place) { pl.Obj? && pl.id < |s0.shapes| && s0.shapes[pl.id].isChat }

  function TagAt(s0: State, pl: Place): Tag {
    if pl.Obj? && pl.id < |s0.shapes| then s0.shapes[pl.id].tag else OtherType
  }

  function Actions(s0: State, t: Tour, pl: Place): seq<Action> {
    if pl.Inert? then []
    else
      match TagAt(s0, pl)
      case ToolNode => []
      case RunnableBinding => BindingActs(s0, pl.id)
      case RunnableSequence => EndActs(s0, pl.id, "first") + EndActs(s0, pl.id, "last") + MiddleActs(s0, pl.id)
      case OtherType => OtherActs(s0, t, OwnerOf(s0, pl), ViewsAt(s0, pl), ChatAt(s0, pl))
  }

  // ----- the tour ---------------------------------------------------------------------

  /** Asked for it now, the proxy makes its wrapper over a function this walk has traced. */
  predicate MakesStale(s0: State, log: seq<Entry>, pl: Place, a: string) {
    var slot := Attr(OwnerOf(s0, pl), a);
    a in ViewsAt(s0, pl) && CallableNow(s0, slot) && Method(ViewsAt(s0, pl)[a]) !in s0.heap && Times(log, slot) > 0
  }

  function StaleAt(s0: State, log: seq<Entry>, pl: Place): set<Id> {
    (if MakesStale(s0, log, pl, "func") then {ViewsAt(s0, pl)["func"]} else {}) +
    (if MakesStale(s0, log, pl, "afunc") then {ViewsAt(s0, pl)["afunc"]} else {})
  }

  function Enter(s0: State, t: Tour, pl: Place): Tour {
    t.(order := t.order + [pl], stale := t.stale + StaleAt(s0, t.log, pl))
  }

  /** One of the visited tool nodes has a proxy put over what this entry held. */
  predicate Tooled(s0: State, order: seq<Place>, slot: Slot) {
    exists pl :: pl in order && ToolsHold(s0, pl, slot)
  }

  predicate ToolsHold(s0: State, pl: Place, slot: Slot) {
    slot.Item? && pl.Obj? && pl.id < |s0.shapes| && s0.shapes[pl.id].tag == ToolNode &&
    var d := RawOf(s0, Attr(pl.id, "_tools_by_name"));
    d == slot.dict && d < |s0.shapes| && s0.shapes[d].keys.Some? && slot.key in s0.shapes[d].keys.value &&
    RawOf(s0, slot) < |s0.shapes| && !s0.shapes[RawOf(s0, slot)].marked
  }

  predicate InRange(s0: State, pl: Place) {
    match pl case Obj(o) => o < |s0.shapes| case OwnProxy(b) => b < |s0.shapes| case Inert => false
  }

  function Places(n: nat): set<Place> {
    (set i | 0 <= i < n :: Obj(i)) + (set i | 0 <= i < n :: OwnProxy(i))
  }

  function Unvisited(s0: State, order: seq<Place>): nat { |set pl | pl in Places(|s0.shapes|) && pl !in order| }

  lemma UnvisitedShrinks(s0: State, order: seq<Place>, order1: seq<Place>)
    requires order <= order1
    ensures Unvisited(s0, order1) <= Unvisited(s0, order)
    ensures forall pl ::
              InRange(s0, pl) && pl !in order && pl in order1 ==> Unvisited(s0, order1) < Unvisited(s0, order)
  {
    var ps := Places(|s0.shapes|);
    var a, b := set pl | pl in ps && pl !in order, set pl | pl in ps && pl !in order1;
    assert forall pl :: pl in order ==> pl in order1;
    assert b <= a;
    assert a == b + (a - b);
    forall pl | InRange(s0, pl) && pl !in order && pl in order1 ensures |b| < |a| {
      assert pl in ps;
      assert pl in a - b;
    }
  }

  function Visit(s0: State, t: Tour, pl: Place): (r: Tour)
    ensures t.order <= r.order && r.log == t.log && r.hs == t.hs && t.stale <= r.stale
    ensures InRange(s0, pl) ==> pl in r.order
    decreases Unvisited(s0, t.order), 0, 0
  {
    if !InRange(s0, pl) || pl in t.order then t
    else
      UnvisitedShrinks(s0, t.order, Enter(s0, t, pl).order);
      assert Enter(s0, t, pl).order[|t.order|] == pl;
      Do(s0, Enter(s0, t, pl), Actions(s0, t, pl))
  }

  /** The value of a global the function names. */
  function Act(s0: State, t: Tour, a: Action): (r: Tour)
    ensures t.order <= r.order && r.log == t.log && r.hs == t.hs && t.stale <= r.stale
    decreases Unvisited(s0, t.order), 0, 1
  {
    match a
    case Go(pl) => Visit(s0, t, pl)
    case Named(dict, name) =>
      var v := RawOf(s0, Item(dict, name));
      if v == NONE || v >= |s0.shapes| || Obj(v) in t.order || Tooled(s0, t.order, Item(dict, name)) then t
      else if s0.shapes[v].isChat then t.(order := t.order + [Obj(v)])
      else if s0.shapes[v].isRunnable then Visit(s0, t, Obj(v))
      else t
  }

  function Do(s0: State, t: Tour, acts: seq<Action>): (r: Tour)
    ensures t.order <= r.order && r.log == t.log && r.hs == t.hs && t.stale <= r.stale
    decreases Unvisited(s0, t.order), |acts|, 2
  {
    if acts == [] then t
    else
      var t1 := Do(s0, t, acts[..|acts| - 1]);
      UnvisitedShrinks(s0, t.order, t1.order);
      Act(s0, t1, acts[|acts| - 1])
  }

  // ----- nodes --------------------------------------------------------------------------

  /** The place a node gives; its binding may hold the walk's own proxy by now. */
  function GivenActs(s0: State, order: seq<Place>, nodes: Id, name: string): seq<Action> {
    if name == "__start__" || Item(nodes, name) !in s0.heap || s0.heap[Item(nodes, name)] >= |s0.shapes| then []
    else
      var node := s0.heap[Item(nodes, name)];
      FollowActs(s0, order, Owner(s0.shapes, node), ViewsOf(s0, node), "bound")
  }

  /**
   The wrapper carries the mark: it was made with it, or is made over a function traced at
   the start or by the walk.
   */
  predicate MarkedView(s0: State, stale: set<Id>, w: Id, slot: Slot) {
    w < |s0.shapes| && (s0.shapes[w].nodeTraced ||
    if Method(w) in s0.heap then Mark(w) in s0.heap else w in stale || Traced(s0, RawOf(s0, slot)))
  }

  function HandleAt(s0: State, stale: set<Id>, pl: Place): Handle {
    var views := ViewsAt(s0, pl);
    Handle(OwnerOf(s0, pl), views, set a | a in views && MarkedView(s0, stale, views[a], Attr(OwnerOf(s0, pl), a)))
  }

  function NodeTurn(s0: State, t: Tour, nodes: Id, name: string): Tour {
    var acts := GivenActs(s0, t.order, nodes, name);
    if acts == [] || acts[0].Named? then t
    else
      var t1 := Visit(s0, t, acts[0].place);
      var h := HandleAt(s0, t1.stale, acts[0].place);
      t1.(log := PlanNode(s0, h, t1.log), hs := t1.hs + [h])
  }

  function NodesTour(s0: State, nodes: Id, names: seq<string>): Tour {
    if names == [] then START else NodeTurn(s0, NodesTour(s0, nodes, names[..|names| - 1]), nodes, names[|names| - 1])
  }

  /** The node functions rewritten are those planned for what the nodes give. */
  lemma {:induction false} TourFollowsPlan(s0: State, nodes: Id, names: seq<string>)
    ensures NodesTour(s0, nodes, names).log == Plan(s0, NodesTour(s0, nodes, names).hs)
  {
    if names != [] {
      var t := NodesTour(s0, nodes, names[..|names| - 1]);
      TourFollowsPlan(s0, nodes, names[..|names| - 1]);
      var t1 := NodesTour(s0, nodes, names);
      if t1.hs != t.hs { assert t1.hs[..|t1.hs| - 1] == t.hs; }
    }
  }

  lemma TurnGrows(s0: State, t: Tour, nodes: Id, name: string)
    ensures var r := NodeTurn(s0, t, nodes, name);
            t.order <= r.order && t.log <= r.log && t.hs <= r.hs && t.stale <= r.stale
  {
  }

  lemma {:induction false} TourGrows(s0: State, nodes: Id, names: seq<string>, i: nat)
    requires i <= |names|
    ensures var t, r := NodesTour(s0, nodes, names[..i]), NodesTour(s0, nodes, names);
            t.order <= r.order && t.log <= r.log && t.hs <= r.hs && t.stale <= r.stale
    decreases |names| - i
  {
    if i == |names| {
      assert names[..i] == names;
    } else {
      assert names[..i + 1][..i] == names[..i];
      TurnGrows(s0, NodesTour(s0, nodes, names[..i]), nodes, names[i]);
      TourGrows(s0, nodes, names, i + 1);
    }
  }

  // ----- sequences of actions ---------------------------------------------------------------

  lemma {:induction false} DoJoined(s0: State, t: Tour, a: seq<Action>, b: seq<Action>)
    ensures Do(s0, t, a + b) == Do(s0, Do(s0, t, a), b)
    decreases |b|
  {
    if b == [] {
      assert a + b == a;
    } else {
      assert (a + b)[..|a + b| - 1] == a + b[..|b| - 1];
      DoJoined(s0, t, a, b[..|b| - 1]);
    }
  }

  lemma DoOne(s0: State, t: Tour, a: Action)
    ensures Do(s0, t, [a]) == Act(s0, t, a) && Do(s0, t, []) == t
  {
    assert [a][..0] == [];
  }

  lemma DoGrows(s0: State, t: Tour, acts: seq<Action>, i: nat)
    requires i <= |acts|
    ensures Do(s0, t, acts[..i]).order <= Do(s0, t, acts).order
  {
    assert acts[..i] + acts[i..] == acts;
    DoJoined(s0, t, acts[..i], acts[i..]);
  }

  lemma DoPrefix(s0: State, t: Tour, a: seq<Action>, b: seq<Action>)
    requires a <= b
    ensures Do(s0, t, a).order <= Do(s0, t, b).order && Do(s0, t, b).log == t.log
  {
    assert b[..|a|] == a;
    DoGrows(s0, t, b, |a|);
  }

  lemma DoStep(s0: State, t: Tour, acts: seq<Action>, i: nat)
    requires i < |acts|
    ensures Do(s0, t, acts[..i + 1]) == Act(s0, Do(s0, t, acts[..i]), acts[i])
  {
    assert acts[..i + 1][..i] == acts[..i];
  }

  // ----- would it be stopped? --------------------------------------------------------------

  /** The walk comes to the slot and rewrites it, or tries to. */
  ghost predicate Comes(s0: State, t: Tour, slot: Slot) {
    || (slot.Attr? && slot.name == "bound" && Obj(slot.owner) in t.order && Replaceable(s0, slot.owner))
    || (exists i :: 0 <= i < |t.log| && t.log[i].slot == slot)
  }

  /** Some slot the walk rewrites refuses what it is given. */
  ghost predicate WouldRefuse(s0: State, t: Tour) {
    exists slot :: Comes(s0, t, slot) && Rejects(s0.shapes, slot)
  }

  /** One refuses the old value too. */
  ghost predicate WouldBar(s0: State, t: Tour) {
    exists slot :: Comes(s0, t, slot) && Bars(s0.shapes, slot)
  }

  /** One takes the old value back. */
  ghost predicate WouldDecline(s0: State, t: Tour) {
    exists slot :: Comes(s0, t, slot) && Rejects(s0.shapes, slot) && !Bars(s0.shapes, slot)
  }

  lemma ComesLater(s0: State, t: Tour, t1: Tour, slot: Slot)
    requires t.order <= t1.order && t.log <= t1.log && Comes(s0, t, slot)
    ensures Comes(s0, t1, slot)
  {
    if i :| 0 <= i < |t.log| && t.log[i].slot == slot { assert t1.log[i] == t.log[i]; }
  }
}
