/**
 One decorated call: wrap every graph argument, run the user's function, undo in
 "finally". Source: src/rastir/framework_base.py:144-188 with the LangGraph
 instrumentor, plus the exact limits of its undo.
 */
module FrameworkRun {
  import opened ObjectHeap
  import opened LangGraphState
  import opened LangGraphPlan
  import opened LangGraphProgress
  import opened LangGraphSteps
  import opened LangGraphTour
  import opened LangGraphInvariant
  import opened LangGraphReads
  import opened LangGraphNodes
  import opened LangGraphWalk
  import opened LangGraphShown

  // ----- one walk and its undo ------------------------------------------------

  /** Only the node functions of a log matter for whether its first records are raw. */
  lemma NodePartRaw(s0: State, l: seq<Entry>)
    ensures FirstsRaw(s0, l) <==> FirstsRaw(s0, NodePart(l))
  {
    forall slot | NodeSlot(slot)
      ensures Logged(NodePart(l), slot) <==> Logged(l, slot)
      ensures Logged(l, slot) ==> NodePart(l)[FirstRecord(NodePart(l), slot)] == l[FirstRecord(l, slot)]
    {
      NodePartKeeps(l, slot);
    }
  }

  /** A walk over these nodes, come to its end. */
  ghost predicate Walked(s0: State, s: State, nodes: Id, names: seq<string>) {
    Walking(s0, s, {}, NodesTour(s0, nodes, names))
  }

  /** What the nodes give as their runnables, told before the call. */
  function Given(s0: State, nodes: Id, names: seq<string>): seq<Handle> { NodesTour(s0, nodes, names).hs }

  lemma WalkedMeans(s0: State, s: State, nodes: Id, names: seq<string>)
    requires Walked(s0, s, nodes, names)
    ensures Core(s0, s) && Settled(s0, s) && NodePart(NewLog(s0, s)) == Plan(s0, Given(s0, nodes, names))
  {
    WalkingMeans(s0, s, {}, NodesTour(s0, nodes, names));
    TourFollowsPlan(s0, nodes, names);
  }

  /**
   After a completed walk the undo is exact if and only if whoever first rewrites a node
   function hands it out as it is; what the nodes give is known before the call.
   */
  lemma WalkUndoneIff(s0: State, s: State, nodes: Id, names: seq<string>)
    requires Walked(s0, s, nodes, names)
    ensures Undone(s0, s) <==> FirstsHandRaw(s0, Given(s0, nodes, names))
  {
    WalkedMeans(s0, s, nodes, names);
    UndoneIff(s0, s);
    NodePartRaw(s0, NewLog(s0, s));
    PlanRawIff(s0, Given(s0, nodes, names));
  }

  lemma FirstsRawPrefix(s0: State, l: seq<Entry>, l1: seq<Entry>)
    requires l <= l1 && FirstsRaw(s0, l1)
    ensures FirstsRaw(s0, l)
  {
    assert l + l1[|l|..] == l1;
    forall slot | NodeSlot(slot) && Logged(l, slot) ensures l[FirstRecord(l, slot)].saved == RawOf(s0, slot) {
      FirstRecordSplits(l, l1[|l|..], slot);
    }
  }

  /**
   A walk stopped on the way, but not by a refused assignment, is undone exactly too, if
   whoever would first rewrite a node function hands it out as it is.
   */
  lemma StoppedIsUndone(s0: State, s: State, nodes: Id, names: seq<string>, steps: nat)
    requires StoppedBy(s0, s, NodesTour(s0, nodes, names), steps) && FirstsHandRaw(s0, Given(s0, nodes, names))
    ensures FirstsRaw(s0, NewLog(s0, s)) && Undone(s0, s)
    ensures !Refused(s0, s) ==>
              Replay(s.shapes, s.heap, NewLog(s0, s)) == (Restore(s.heap, NewLog(s0, s)), true)
  {
    PlanRawIff(s0, Given(s0, nodes, names));
    TourFollowsPlan(s0, nodes, names);
    FirstsRawPrefix(s0, NodePart(NewLog(s0, s)), NodesTour(s0, nodes, names).log);
    NodePartRaw(s0, NewLog(s0, s));
    UndoneIff(s0, s);
    ReplaysUnlessRefused(s0, s);
  }

  /** Out of steps, or by an assignment whose slot takes the old value back. */
  ghost predicate StoppedOtherwise(s0: State, s: State, r: Tour, steps: nat)
    requires |s0.log| <= |s.log|
  {
    steps == 0 || (Declined(s0, s) && WouldDecline(s0, r))
  }

  lemma StopMeans(s0: State, s: State, r: Tour, steps: nat)
    requires StoppedBy(s0, s, r, steps)
    ensures Core(s0, s) && Halted(s0, s) && s0.log <= s.log
    ensures if Refused(s0, s) then WouldBar(s0, r) else StoppedOtherwise(s0, s, r, steps)
  {
    hide Comes;
    CoreMeans(s0, s);
  }

  /**
   Stopped by a refused assignment, nothing is put back: the slots written before it stay
   replaced, no others, and so the graph reads as before if and only if nothing had been written.
   */
  lemma RefusedStaysReplaced(s0: State, s: State, r: Tour, steps: nat)
    requires StoppedBy(s0, s, r, steps) && Refused(s0, s)
    ensures WouldBar(s0, r)
    ensures var l := NewLog(s0, s);
            && Replay(s.shapes, s.heap, l) == (s.heap, false)
            && (forall slot :: !BirthSlot(slot) ==>
                  (RawOf(s, slot) == RawOf(s0, slot) <==> !Logged(l[..|l| - 1], slot)))
            && ((forall slot :: !BirthSlot(slot) ==> RawOf(s, slot) == RawOf(s0, slot)) <==> |l| == 1)
  {
    StopMeans(s0, s, r, steps);
    ReplaysUnlessRefused(s0, s);
    RefusedUndoneIff(s0, s);
    forall slot | !BirthSlot(slot)
      ensures RawOf(s, slot) == RawOf(s0, slot) <==> !Logged(NewLog(s0, s)[..|NewLog(s0, s)| - 1], slot)
    {
      RefusedKeeps(s0, s, slot);
    }
  }

  lemma {:induction false} TwiceMeans(l: seq<Entry>, slot: Slot)
    ensures Times(l, slot) >= 2 ==> exists i, j :: 0 <= i < j < |l| && l[i].slot == slot && l[j].slot == slot
    decreases |l|
  {
    if Times(l, slot) >= 2 {
      var init, n := l[..|l| - 1], |l| - 1;
      assert l == init + [l[n]];
      if l[n].slot == slot {
        TimesMeans(init, slot);
        var i :| 0 <= i < n && init[i].slot == slot;
        assert l[i].slot == slot && l[n].slot == slot;
      } else {
        TwiceMeans(init, slot);
        var i, j :| 0 <= i < j < n && init[i].slot == slot && init[j].slot == slot;
        assert l[i].slot == slot && l[j].slot == slot;
      }
    }
  }

  /**
   A slot is logged twice if and only if it is a node function some runnable rewrites after
   another has: through a user's proxy whose wrapper has been made without the mark.
   */
  lemma LoggedTwiceIff(s0: State, s: State, nodes: Id, names: seq<string>, slot: Slot)
    requires Walked(s0, s, nodes, names)
    ensures Times(NewLog(s0, s), slot) >= 2 <==>
            NodeSlot(slot) && SomeoneAgain(s0, Given(s0, nodes, names), slot.owner, slot.name)
  {
    WalkedMeans(s0, s, nodes, names);
    var l := NewLog(s0, s);
    if NodeSlot(slot) {
      NodePartKeeps(l, slot);
      PlanTwiceIff(s0, Given(s0, nodes, names), slot.owner, slot.name);
    } else {
      TwiceMeans(l, slot);
    }
  }

  /** Every attribute and entry reads as it did. */
  ghost predicate ReadsAsBefore(s0: State, shapes: seq<Shape>, heap: Heap) {
    forall slot :: !BirthSlot(slot) ==> Raw(shapes, heap, slot) == RawOf(s0, slot)
  }

  /**
   Walk one graph and undo it at once. Completed, that is exact if and only if the first to
   rewrite hand out raw. Refused, it puts back nothing. All of it can be told before the
   call, but for when something else raises.
   */
  method WalkAndRestore(w: GraphWalk, graph: Id) returns (ok: bool, restored: bool)
    requires WellFormed(w.S()) && graph < |w.shapes| && w.shapes[graph].target.None? && w.originals == []
    modifies w
    ensures var s0 := old(w.S()).(seen := {});
            var nodes := Read(s0, graph, "nodes");
            && nodes < |s0.shapes|
            && (s0.shapes[nodes].keys.Some? ==>
                  var names := s0.shapes[nodes].keys.value;
                  var r, n := NodesTour(s0, nodes, names), |w.originals|;
                  && (ok ==> restored && !WouldRefuse(s0, r))
                  && (!restored ==> WouldBar(s0, r))
                  && (!ok && restored ==> w.steps == 0 || WouldDecline(s0, r))
                  && (ok ==> (ReadsAsBefore(s0, w.shapes, w.heap) <==> FirstsHandRaw(s0, r.hs)))
                  && (restored && FirstsHandRaw(s0, r.hs) ==> ReadsAsBefore(s0, w.shapes, w.heap))
                  && (!restored ==>
                        && n > 0 && (ReadsAsBefore(s0, w.shapes, w.heap) <==> n == 1)
                        && forall slot :: !BirthSlot(slot) ==>
                             (Raw(w.shapes, w.heap, slot) == RawOf(s0, slot) <==>
                              !Logged(w.originals[..n - 1], slot))))
    ensures var s0 := old(w.S());
            s0.shapes[Read(s0, graph, "nodes")].keys.None? ==> ok && restored && w.heap == s0.heap
  {
    hide Core, WellFormed, Evolve, Settled, Processed, Plan, PlanNode, Walking, StoppedBy, NodesTour, WouldRefuse;
    hide WouldBar, WouldDecline, FirstsHandRaw, Undone, NodesPrefix;
    ghost var s0 := w.S().(seen := {});
    SeenDoesNotMatter(w.S(), {});
    ReadInRange(w.S(), graph, "nodes");
    ghost var nodes := Read(s0, graph, "nodes");
    ok := w.WrapGraphInternals(graph);
    ghost var s := w.S();
    restored := w.RestoreOriginals();
    if s0.shapes[nodes].keys.Some? {
      ghost var names := s0.shapes[nodes].keys.value;
      assert s0.log == [];
      assert NewLog(s0, s) == s.log;
      if ok { CompletedUndo(s0, s, nodes, names); } else { StoppedUndo(s0, s, nodes, names, w.steps); }
    }
  }

  lemma CompletedUndo(s0: State, s: State, nodes: Id, names: seq<string>)
    requires Walked(s0, s, nodes, names)
    ensures s0.log <= s.log
    ensures var l := NewLog(s0, s);
            && Replay(s.shapes, s.heap, l) == (Restore(s.heap, l), true)
            && (ReadsAsBefore(s0, s.shapes, Restore(s.heap, l)) <==> FirstsHandRaw(s0, Given(s0, nodes, names)))
  {
    hide FirstsHandRaw;
    WalkedMeans(s0, s, nodes, names);
    WalkUndoneIff(s0, s, nodes, names);
    SettledReplays(s0, s);
  }

  lemma SettledReplays(s0: State, s: State)
    requires Core(s0, s) && Settled(s0, s)
    ensures Replay(s.shapes, s.heap, NewLog(s0, s)) == (Restore(s.heap, NewLog(s0, s)), true)
  {
    var l := NewLog(s0, s);
    assert l != [] ==> Logged(l, l[|l| - 1].slot);
    ReplaysUnlessRefused(s0, s);
  }

  lemma StoppedUndo(s0: State, s: State, nodes: Id, names: seq<string>, steps: nat)
    requires StoppedBy(s0, s, NodesTour(s0, nodes, names), steps)
    ensures s0.log <= s.log
    ensures var (l, r) := (NewLog(s0, s), NodesTour(s0, nodes, names));
            var (heap, restored) := Replay(s.shapes, s.heap, l);
            && (!restored ==> WouldBar(s0, r)) && (restored ==> steps == 0 || WouldDecline(s0, r))
            && (restored && FirstsHandRaw(s0, r.hs) ==> ReadsAsBefore(s0, s.shapes, heap))
            && (!restored ==>
                  && l != [] && (ReadsAsBefore(s0, s.shapes, heap) <==> |l| == 1)
                  && forall slot :: !BirthSlot(slot) ==>
                       (Raw(s.shapes, heap, slot) == RawOf(s0, slot) <==> !Logged(l[..|l| - 1], slot)))
  {
    hide FirstsHandRaw, NodesTour, StoppedBy, WouldBar, WouldDecline, Core, Halted, Refused, Declined;
    StopMeans(s0, s, NodesTour(s0, nodes, names), steps);
    ReplaysUnlessRefused(s0, s);
    if Refused(s0, s) {
      RefusedStaysReplaced(s0, s, NodesTour(s0, nodes, names), steps);
      RefusedIsLogged(s0, s);
    } else if FirstsHandRaw(s0, Given(s0, nodes, names)) {
      StoppedIsUndone(s0, s, nodes, names, steps);
    }
  }

  lemma RefusedIsLogged(s0: State, s: State)
    requires |s0.log| <= |s.log| && Refused(s0, s)
    ensures NewLog(s0, s) != []
  {
  }

  // ----- what a caller can check -------------------------------------------------

  /** What the node gives is no user proxy that intercepts one of its functions. */
  predicate CleanNode(s: State, nodes: Id, name: string) {
    name == "__start__" || Item(nodes, name) !in s.heap || s.heap[Item(nodes, name)] >= |s.shapes| ||
    var b := Read(s, s.heap[Item(nodes, name)], "bound");
    b >= |s.shapes| || (!Intercepts(s, b, "func") && !Intercepts(s, b, "afunc"))
  }

  predicate CleanNodes(s: State, nodes: Id, names: seq<string>) {
    forall name :: name in names ==> CleanNode(s, nodes, name)
  }

  predicate CleanGraph(s: State, graph: Id) {
    graph < |s.shapes| &&
    var nodes := Read(s, graph, "nodes");
    nodes < |s.shapes| && s.shapes[nodes].keys.Some? ==> CleanNodes(s, nodes, s.shapes[nodes].keys.value)
  }

  /** The handle of a clean node catches nothing, whatever has been visited or rewritten. */
  lemma CleanHandle(s0: State, t: Tour, stale: set<Id>, nodes: Id, name: string)
    requires WellFormed(s0) && CleanNode(s0, nodes, name) && GivenActs(s0, t.order, nodes, name) != []
    requires GivenActs(s0, t.order, nodes, name)[0].Go?
    ensures var h := HandleAt(s0, stale, GivenActs(s0, t.order, nodes, name)[0].place);
            !Catches(s0, h, "func") && !Catches(s0, h, "afunc")
  {
    var node := s0.heap[Item(nodes, name)];
    ReadInRange(s0, node, "bound");
    ViewsOfWrapper(s0, node, "bound");
  }

  /** A wrapper is no proxy. */
  lemma ViewsOfWrapper(s0: State, p: Id, a: string)
    requires WellFormed(s0) && p < |s0.shapes|
    ensures a in ViewsOf(s0, p) ==> ViewsOf(s0, ViewsOf(s0, p)[a]) == map[]
  {
    assert ShapeOk(s0.shapes, p);
    if a in ViewsOf(s0, p) { assert ShapeOk(s0.shapes, ViewsOf(s0, p)[a]); }
  }

  lemma {:induction false} CleanGives(s0: State, nodes: Id, names: seq<string>)
    requires WellFormed(s0) && CleanNodes(s0, nodes, names)
    ensures NoneCatches(s0, Given(s0, nodes, names))
    decreases |names|
  {
    if names != [] {
      var init, name := names[..|names| - 1], names[|names| - 1];
      CleanGives(s0, nodes, init);
      var t := NodesTour(s0, nodes, init);
      var acts := GivenActs(s0, t.order, nodes, name);
      if acts != [] && acts[0].Go? {
        CleanHandle(s0, t, Visit(s0, t, acts[0].place).stale, nodes, name);
        TurnIs(s0, t, nodes, name);
      }
    }
  }

  /** On a clean graph nothing but the slots' own values is logged first. */
  lemma CleanHandsRaw(s0: State, nodes: Id, names: seq<string>)
    requires WellFormed(s0) && CleanNodes(s0, nodes, names)
    ensures FirstsHandRaw(s0, Given(s0, nodes, names))
  {
    CleanGives(s0, nodes, names);
    UncaughtIsRaw(s0, Given(s0, nodes, names));
  }

  /** What is intercepted now was intercepted before the walk. */
  lemma InterceptedBefore(s0: State, s: State, t: Tour, b: Id, a: string)
    requires Walking(s0, s, {}, t) && b < |s.shapes| && a in ["func", "afunc"] && Intercepts(s, b, a)
    ensures b < |s0.shapes| && Intercepts(s0, b, a)
  {
    WalkingMeans(s0, s, {}, t);
    ViewsNow(s0, s, b);
    CoreReflexive(s0);
    if b < |s0.shapes| { ViewsNow(s0, s0, b); }
    NodeSlotNow(s0, s, t, Attr(Owner(s.shapes, b), a));
  }

  lemma CoreReflexive(s: State)
    requires WellFormed(s)
    ensures Core(s, s)
  {
    assert NewLog(s, s) == [];
  }

  lemma CleanNodeStays(s0: State, s: State, t: Tour, nodes: Id, name: string)
    requires Walking(s0, s, {}, t) && Item(nodes, name) in s0.heap && CleanNode(s0, nodes, name)
    ensures CleanNode(s, nodes, name)
  {
    hide WellFormed, Core, Settled, Walking, Toured, SameVisits, Finished, Denotes;
    if name != "__start__" {
      var slot := Item(nodes, name);
      WalkingMeans(s0, s, {}, t);
      NodeNow(s0, s, slot);
      var pl := NodeGives(s0, s, t, nodes, name);
      var b := Read(s, s.heap[slot], "bound");
      forall a | a in ["func", "afunc"] ensures !Intercepts(s, b, a) {
        if Intercepts(s, b, a) {
          InterceptedBefore(s0, s, t, b, a);
          GivenBefore(s0, s, t, nodes, name, b);
        }
      }
    }
  }

  /** A node that gives an object of the start gave it then. */
  lemma GivenBefore(s0: State, s: State, t: Tour, nodes: Id, name: string, b: Id)
    requires Walking(s0, s, {}, t) && Item(nodes, name) in s0.heap && Item(nodes, name) in s.heap
    requires s0.heap[Item(nodes, name)] < |s0.shapes| && s.heap[Item(nodes, name)] < |s.shapes|
    requires b == Read(s, s.heap[Item(nodes, name)], "bound") < |s0.shapes|
    ensures Read(s0, s0.heap[Item(nodes, name)], "bound") == b
  {
    var node := s.heap[Item(nodes, name)];
    WalkingMeans(s0, s, {}, t);
    NodeNow(s0, s, Item(nodes, name));
    FollowedSlot(s0, s, {}, t, Owner(s.shapes, node), "bound");
    ViewsNow(s0, s, node);
    AskedGives(s, node, "bound");
  }

  /** A graph that is clean before a walk, of itself or of another graph, is clean after it. */
  lemma CleanStays(s0: State, s: State, t: Tour, graph: Id)
    requires Walking(s0, s, {}, t) && Evolve(s0, s) && CleanGraph(s0, graph)
    ensures CleanGraph(s, graph)
  {
    ReadInRange(s0, graph, "nodes");
    FixedReads(s0, s, graph, "nodes");
    var nodes := Read(s0, graph, "nodes");
    if s0.shapes[nodes].keys.Some? {
      KeysAreItems(s0, nodes);
      forall name | name in s0.shapes[nodes].keys.value ensures CleanNode(s, nodes, name) {
        CleanNodeStays(s0, s, t, nodes, name);
      }
    }
  }

  // ----- several graphs in one call ------------------------------------------------

  /**
   Whatever has been walked since s0: what is not logged reads as it did, and only a node
   function can have a first record that is not what its slot held.
   */
  ghost predicate Undoable(s0: State, s: State) {
    && WellFormed(s0) && WellFormed(s)
    && s0.shapes <= s.shapes && s0.log <= s.log
    && (forall slot :: Logged(NewLog(s0, s), slot) && !NodeSlot(slot) ==>
          NewLog(s0, s)[FirstRecord(NewLog(s0, s), slot)].saved == RawOf(s0, slot))
    && (forall slot :: !Logged(NewLog(s0, s), slot) && !BirthSlot(slot) ==> RawOf(s, slot) == RawOf(s0, slot))
  }

  /** Every logged slot has been written: it holds an object made since, and does not refuse. */
  ghost predicate AllWritten(s0: State, s: State, l: seq<Entry>) {
    forall slot :: Logged(l, slot) ==>
      && !BirthSlot(slot) && HolderOf(slot) < |s.shapes| && !Rejects(s.shapes, slot)
      && slot in s.heap && |s0.shapes| <= s.heap[slot]
  }

  /** One more graph, walked to the end or not. */
  lemma UndoableExtends(s0: State, s1: State, s2: State)
    requires Undoable(s0, s1) && Core(s1, s2)
    ensures Undoable(s0, s2) && NewLog(s0, s2) == NewLog(s0, s1) + NewLog(s1, s2)
    ensures FirstsRaw(s0, NewLog(s0, s1)) && FirstsRaw(s1, NewLog(s1, s2)) ==> FirstsRaw(s0, NewLog(s0, s2))
  {
    var l1, l2, l := NewLog(s0, s1), NewLog(s1, s2), NewLog(s0, s2);
    assert l == l1 + l2;
    CoreMeans(s1, s2);
    hide WellFormed, Core;
    forall slot
      ensures Logged(l, slot) && !NodeSlot(slot) ==> l[FirstRecord(l, slot)].saved == RawOf(s0, slot)
      ensures Logged(l, slot) && NodeSlot(slot) && FirstsRaw(s0, l1) && FirstsRaw(s1, l2) ==>
                l[FirstRecord(l, slot)].saved == RawOf(s0, slot)
      ensures !Logged(l, slot) && !BirthSlot(slot) ==> RawOf(s2, slot) == RawOf(s0, slot)
    {
      FirstRecordSplits(l1, l2, slot);
      FirstOfSecond(s1, s2, slot);
      if !Logged(l2, slot) && !BirthSlot(slot) { UnloggedReads(s1, s2, slot); }
    }
  }

  lemma FirstOfSecond(s1: State, s2: State, slot: Slot)
    requires Core(s1, s2)
    ensures Logged(NewLog(s1, s2), slot) ==>
              !BirthSlot(slot) && HolderOf(slot) < |s1.shapes| &&
              (!NodeSlot(slot) ==> NewLog(s1, s2)[FirstRecord(NewLog(s1, s2), slot)].saved == RawOf(s1, slot))
  {
    var l := NewLog(s1, s2);
    if Logged(l, slot) {
      assert RecordOk(s1, s2, l[FirstRecord(l, slot)]);
    }
  }

  /** What has been written stays written, and a settled walk adds only written slots. */
  lemma WrittenExtends(s0: State, s1: State, s2: State, l1: seq<Entry>, l2: seq<Entry>)
    requires s0.shapes <= s1.shapes && AllWritten(s0, s1, l1) && Core(s1, s2) && Settled(s1, s2) && l2 == NewLog(s1, s2)
    ensures AllWritten(s0, s2, l1 + l2)
  {
    hide WellFormed, LogFaithful, Created;
    forall slot | Logged(l1 + l2, slot)
      ensures !BirthSlot(slot) && HolderOf(slot) < |s2.shapes| && !Rejects(s2.shapes, slot)
      ensures slot in s2.heap && |s0.shapes| <= s2.heap[slot]
    {
      FirstRecordSplits(l1, l2, slot);
      FirstOfSecond(s1, s2, slot);
      if Logged(l2, slot) { assert SettledSlot(s1, s2, slot); } else { assert Accounted(s1, s2, slot); }
    }
  }

  /** Only what the log names is put back: the user's own writes elsewhere survive. */
  lemma UndoAfterUse(s0: State, s: State, used: Heap, slot: Slot)
    requires Undoable(s0, s) && s0.log == []
    ensures Logged(s.log, slot) ==> Raw(s.shapes, Restore(used, s.log), slot) == s.log[FirstRecord(s.log, slot)].saved
    ensures Logged(s.log, slot) && !NodeSlot(slot) ==> Raw(s.shapes, Restore(used, s.log), slot) == RawOf(s0, slot)
    ensures !Logged(s.log, slot) ==> Raw(s.shapes, Restore(used, s.log), slot) == Raw(s.shapes, used, slot)
  {
    assert NewLog(s0, s) == s.log;
    if Logged(s.log, slot) { RestoreSets(used, s.log, slot); } else { RestoreKeeps(used, s.log, slot); }
  }

  /** Whatever the user's function did to the heap. */
  ghost predicate PutBack(s0: State, s: State, used: Heap) {
    forall slot :: Logged(s.log, slot) ==> Raw(s.shapes, Restore(used, s.log), slot) == RawOf(s0, slot)
  }

  lemma PutBackIff(s0: State, s: State, used: Heap)
    requires Undoable(s0, s) && s0.log == []
    ensures PutBack(s0, s, used) <==> FirstsRaw(s0, s.log)
    ensures forall slot ::
              !Logged(s.log, slot) ==> Raw(s.shapes, Restore(used, s.log), slot) == Raw(s.shapes, used, slot)
  {
    forall slot
      ensures Logged(s.log, slot) ==> Raw(s.shapes, Restore(used, s.log), slot) == s.log[FirstRecord(s.log, slot)].saved
      ensures Logged(s.log, slot) && !NodeSlot(slot) ==> Raw(s.shapes, Restore(used, s.log), slot) == RawOf(s0, slot)
      ensures !Logged(s.log, slot) ==> Raw(s.shapes, Restore(used, s.log), slot) == Raw(s.shapes, used, slot)
    {
      UndoAfterUse(s0, s, used, slot);
    }
  }

  ghost predicate AllClean(s: State, graphs: seq<Id>) {
    forall k :: 0 <= k < |graphs| ==> CleanGraph(s, graphs[k])
  }

  lemma AllCleanStay(s0: State, s: State, t: Tour, graphs: seq<Id>)
    requires Walking(s0, s, {}, t) && Evolve(s0, s) && AllClean(s0, graphs)
    ensures AllClean(s, graphs)
  {
    forall k | 0 <= k < |graphs| ensures CleanGraph(s, graphs[k]) { CleanStays(s0, s, t, graphs[k]); }
  }

  lemma SeenIsNothing(s: State, seen: set<Id>, graphs: seq<Id>)
    ensures AllClean(s.(seen := seen), graphs) <==> AllClean(s, graphs)
  {
    var s1 := s.(seen := seen);
    forall g: Id ensures CleanGraph(s1, g) <==> CleanGraph(s, g) {
      assert forall nodes: Id, name :: CleanNode(s1, nodes, name) <==> CleanNode(s, nodes, name);
    }
  }

  /** The tour of one graph. */
  function GraphTour(s0: State, graph: Id): Tour {
    if graph >= |s0.shapes| then START
    else
      var nodes := Read(s0, graph, "nodes");
      if nodes < |s0.shapes| && s0.shapes[nodes].keys.Some? then NodesTour(s0, nodes, s0.shapes[nodes].keys.value)
      else START
  }

  /** No object refuses an attribute the walk may write. */
  ghost predicate NothingRefuses(shapes: seq<Shape>) {
    forall o, a :: 0 <= o < |shapes| && a in ["func", "afunc", "bound"] ==> a !in shapes[o].refuses
  }

  /** Graphs of the call, objects of the call. */
  ghost predicate AreGraphs(shapes: seq<Shape>, graphs: seq<Id>) {
    forall k :: 0 <= k < |graphs| ==> graphs[k] < |shapes| && shapes[graphs[k]].target.None?
  }

  /** One graph of the call: what is logged and what is done, and that clean graphs stay clean. */
  method WrapOne(w: GraphWalk, graph: Id, ghost graphs: seq<Id>) returns (wrapped: bool, ghost visited: set<Id>)
    requires WellFormed(w.S()) && graph < |w.shapes| && w.shapes[graph].target.None?
    modifies w
    ensures var s0 := old(w.S()).(seen := {});
            && Core(s0, w.S()) && Halted(s0, w.S())
            && (wrapped ==> Settled(s0, w.S()) && !WouldRefuse(s0, GraphTour(s0, graph)))
            && (wrapped ==> (FirstsRaw(s0, NewLog(s0, w.S())) <==> FirstsHandRaw(s0, GraphTour(s0, graph).hs)))
            && (!wrapped ==>
                  if Refused(s0, w.S()) then WouldBar(s0, GraphTour(s0, graph))
                  else StoppedOtherwise(s0, w.S(), GraphTour(s0, graph), w.steps))
            && (CleanGraph(s0, graph) ==> FirstsRaw(s0, NewLog(s0, w.S())))
            && (wrapped && AllClean(s0, graphs) ==> AllClean(w.S(), graphs))
            && (wrapped ==> Evolve(s0, w.S().(seen := visited)) && AllFinished(w.S(), visited))
            && (wrapped ==> NodesShown(s0, w.S(), graph, visited))
  {
    hide Evolve, Settled, Processed, Plan, PlanNode, Core, WellFormed, Walking, StoppedBy, WouldRefuse, NodesTour;
    hide WouldBar, StoppedOtherwise, FirstsRaw, FirstsHandRaw, AllClean, Halted, CleanNodes, Refused;
    hide AllFinished, NodesShown, NodesPrefix;
    ghost var s0 := w.S().(seen := {});
    SeenDoesNotMatter(w.S(), {});
    SeenIsNothing(w.S(), {}, graphs);
    ReadInRange(s0, graph, "nodes");
    ghost var nodes := Read(s0, graph, "nodes");
    wrapped := w.WrapGraphInternals(graph);
    ghost var s := w.S();
    if s0.shapes[nodes].keys.None? {
      visited := {};
      NoGraph(s0, s);
      NothingToShow(s0, s, graph);
      SeenIsNothing(s0, s.seen, graphs);
    } else {
      ghost var names := s0.shapes[nodes].keys.value;
      visited := s.seen;
      if wrapped { WalkShows(s0, s, graph); }
      if wrapped { OneWalked(s0, s, nodes, names); } else { OneStopped(s0, s, nodes, names, w.steps); }
      if CleanGraph(s0, graph) { CleanHandsRaw(s0, nodes, names); }
      if wrapped && AllClean(s0, graphs) { AllCleanStay(s0, s, NodesTour(s0, nodes, names), graphs); }
    }
  }

  lemma NothingToShow(s0: State, s: State, graph: Id)
    requires WellFormed(s0) && s0.seen == {} && s == s0.(seen := s.seen) && graph < |s0.shapes|
    requires var nodes := Read(s0, graph, "nodes"); nodes < |s0.shapes| && s0.shapes[nodes].keys.None?
    ensures Evolve(s0, s.(seen := {})) && AllFinished(s, {}) && NodesShown(s0, s, graph, {})
  {
    EvolveReflexive(s0);
  }

  /** What a completed walk has done with its graph. */
  lemma WalkShows(s0: State, s: State, graph: Id)
    requires graph < |s0.shapes| && Evolve(s0, s)
    requires var nodes := Read(s0, graph, "nodes");
             nodes < |s0.shapes| && s0.shapes[nodes].keys.Some? &&
             Walked(s0, s, nodes, s0.shapes[nodes].keys.value) &&
             NodesPrefix(s, nodes, s0.shapes[nodes].keys.value, |s0.shapes[nodes].keys.value|)
    ensures Evolve(s0, s.(seen := s.seen)) && AllFinished(s, s.seen) && NodesShown(s0, s, graph, s.seen)
  {
    hide NodesTour, Processed, NodesPrefix, Evolve;
    var nodes := Read(s0, graph, "nodes");
    WalkingMeans(s0, s, {}, NodesTour(s0, nodes, s0.shapes[nodes].keys.value));
    assert s.(seen := s.seen) == s;
  }

  lemma NoGraph(s0: State, s: State)
    requires WellFormed(s0) && s == s0.(seen := s.seen)
    ensures Core(s0, s) && Settled(s0, s) && Halted(s0, s) && FirstsRaw(s0, NewLog(s0, s)) && !WouldRefuse(s0, START)
    ensures FirstsHandRaw(s0, START.hs)
  {
    SeenDoesNotMatter(s0, s.seen);
    assert NewLog(s0, s) == [];
  }

  lemma OneWalked(s0: State, s: State, nodes: Id, names: seq<string>)
    requires Walked(s0, s, nodes, names)
    ensures Core(s0, s) && Settled(s0, s) && Halted(s0, s)
    ensures FirstsHandRaw(s0, Given(s0, nodes, names)) <==> FirstsRaw(s0, NewLog(s0, s))
  {
    WalkedMeans(s0, s, nodes, names);
    WalkUndoneIff(s0, s, nodes, names);
    UndoneIff(s0, s);
  }

  lemma OneStopped(s0: State, s: State, nodes: Id, names: seq<string>, steps: nat)
    requires StoppedBy(s0, s, NodesTour(s0, nodes, names), steps)
    ensures Core(s0, s) && Halted(s0, s)
    ensures if Refused(s0, s) then WouldBar(s0, NodesTour(s0, nodes, names))
            else StoppedOtherwise(s0, s, NodesTour(s0, nodes, names), steps)
    ensures FirstsHandRaw(s0, Given(s0, nodes, names)) ==> FirstsRaw(s0, NewLog(s0, s))
  {
    StopMeans(s0, s, NodesTour(s0, nodes, names), steps);
    if FirstsHandRaw(s0, Given(s0, nodes, names)) { StoppedIsUndone(s0, s, nodes, names, steps); }
  }

  /** No record of the log is that of a refused assignment. */
  predicate Replayable(shapes: seq<Shape>, l: seq<Entry>) {
    forall i :: 0 <= i < |l| ==> !Bars(shapes, l[i].slot)
  }

  /** The last record is that of a refused assignment, and the rest has been written. */
  ghost predicate EndsRefused(s0: State, s: State) {
    && |s0.log| < |s.log| && Bars(s.shapes, s.log[|s.log| - 1].slot)
    && Undoable(s0, Unrecorded(s)) && AllWritten(s0, Unrecorded(s), NewLog(s0, Unrecorded(s)))
  }

  lemma WrittenReplays(s0: State, s: State, l: seq<Entry>)
    requires AllWritten(s0, s, l)
    ensures Replayable(s.shapes, l)
  {
    forall i | 0 <= i < |l| ensures !Bars(s.shapes, l[i].slot) { assert Logged(l, l[i].slot); }
  }

  /** A walk that was stopped after others had come to their ends. */
  lemma StoppedAfter(s0: State, s1: State, s2: State)
    requires Undoable(s0, s1) && AllWritten(s0, s1, NewLog(s0, s1)) && Halted(s1, s2)
    ensures NewLog(s0, s2) == NewLog(s0, s1) + NewLog(s1, s2)
    ensures if Refused(s1, s2) then EndsRefused(s0, s2) else Replayable(s2.shapes, NewLog(s0, s2))
  {
    hide Core, Settled, Halted, WellFormed, AllWritten, Refused, Replayable, EndsRefused;
    HaltedMeans(s1, s2);
    var l1, l2, l := NewLog(s0, s1), NewLog(s1, s2), NewLog(s0, s2);
    assert l == l1 + l2;
    if Refused(s1, s2) {
      RefusedIsUnsettled(s1, s2);
      UndoableExtends(s0, s1, Unrecorded(s2));
      assert NewLog(s1, Unrecorded(s2)) == l2[..|l2| - 1];
      WrittenExtends(s0, s1, Unrecorded(s2), l1, l2[..|l2| - 1]);
      assert l[..|l| - 1] == l1 + l2[..|l2| - 1];
      RefusedEnd(s0, s1, s2);
    } else {
      NoneRefuses(s1, s2);
      WrittenReplays(s0, s1, l1);
      BothReplay(s0, s1, s2, l1, l2);
    }
  }

  lemma HaltedMeans(s1: State, s2: State)
    requires Halted(s1, s2)
    ensures s1.shapes <= s2.shapes && s1.log <= s2.log && Core(s1, s2)
    ensures Refused(s1, s2) ==> NewLog(s1, s2) != []
  {
  }

  lemma RefusedEnd(s0: State, s1: State, s2: State)
    requires s1.shapes <= s2.shapes && |s0.log| <= |s1.log| <= |s2.log| && Refused(s1, s2)
    requires Undoable(s0, Unrecorded(s2)) && AllWritten(s0, Unrecorded(s2), NewLog(s0, Unrecorded(s2)))
    ensures EndsRefused(s0, s2)
  {
    assert NewLog(s1, s2)[|NewLog(s1, s2)| - 1] == s2.log[|s2.log| - 1];
  }

  lemma BothReplay(s0: State, s1: State, s2: State, l1: seq<Entry>, l2: seq<Entry>)
    requires s1.shapes <= s2.shapes && AllWritten(s0, s1, l1) && Replayable(s1.shapes, l1) && Replayable(s2.shapes, l2)
    ensures Replayable(s2.shapes, l1 + l2)
  {
    var l := l1 + l2;
    forall i | 0 <= i < |l| ensures !Bars(s2.shapes, l[i].slot) {
      assert if i < |l1| then l[i] == l1[i] else l[i] == l2[i - |l1|];
      if i < |l1| { assert Logged(l1, l1[i].slot); }
    }
  }

  // ----- a whole call -------------------------------------------------------------

  /** The graphs walked so far, and how it stands with the log. */
  ghost predicate Underway(s0: State, s: State, wrapped: bool) {
    && Undoable(s0, s)
    && if wrapped then AllWritten(s0, s, NewLog(s0, s))
       else Replayable(s.shapes, NewLog(s0, s)) || EndsRefused(s0, s)
  }

  lemma NothingYet(s0: State)
    requires WellFormed(s0)
    ensures Underway(s0, s0, true) && FirstsRaw(s0, NewLog(s0, s0))
  {
    assert NewLog(s0, s0) == [];
  }

  lemma UnseenIsUnderway(s0: State, s: State, seen: set<Id>)
    requires Underway(s0, s, true)
    ensures Underway(s0, s.(seen := seen), true) && NewLog(s0, s.(seen := seen)) == NewLog(s0, s)
  {
    SeenDoesNotMatter(s, seen);
  }

  /** One more graph of the call. */
  lemma CallExtends(s0: State, before: State, s: State, wrapped: bool)
    requires Underway(s0, before, true) && Core(before, s) && Halted(before, s) && (wrapped ==> Settled(before, s))
    ensures Underway(s0, s, wrapped) && s0.log <= before.log <= s.log
    ensures FirstsRaw(s0, NewLog(s0, before)) && FirstsRaw(before, NewLog(before, s)) ==> FirstsRaw(s0, NewLog(s0, s))
    ensures Refused(before, s) ==> EndsRefused(s0, s)
    ensures !wrapped && !Refused(before, s) ==> Replayable(s.shapes, NewLog(s0, s))
  {
    hide Core, Settled, Halted, WellFormed, AllWritten, Refused, Replayable, EndsRefused, FirstsRaw;
    HaltedMeans(before, s);
    UndoableExtends(s0, before, s);
    if wrapped {
      WrittenExtends(s0, before, s, NewLog(s0, before), NewLog(before, s));
    }
    StoppedAfter(s0, before, s);
  }

  lemma FreeOfRefusal(before: State, s: State)
    requires Core(before, s) && NothingRefuses(before.shapes)
    ensures NothingRefuses(s.shapes) && !Declined(before, s) && !Refused(before, s)
  {
    hide WellFormed, Accounted, LogFaithful;
    forall o, a | 0 <= o < |s.shapes| && a in ["func", "afunc", "bound"] ensures a !in s.shapes[o].refuses {
      if |before.shapes| <= o { assert Created(|before.shapes|, s.shapes, o); }
    }
    var l := NewLog(before, s);
    if l != [] { assert RecordOk(before, s, l[|l| - 1]); }
  }

  /** What the undo makes of the heap the user's function leaves. */
  lemma UndoneCall(s0: State, s: State, wrapped: bool, used: Heap)
    requires Underway(s0, s, wrapped) && s0.log == []
    ensures var l, (heap, restored) := s.log, Replay(s.shapes, used, s.log);
            && (restored <==> Replayable(s.shapes, l)) && (!restored ==> !wrapped && heap == used && EndsRefused(s0, s))
            && (restored ==>
                  && ((forall slot :: Logged(l, slot) ==> Raw(s.shapes, heap, slot) == RawOf(s0, slot)) <==>
                      FirstsRaw(s0, l))
                  && forall slot :: !Logged(l, slot) ==> Raw(s.shapes, heap, slot) == Raw(s.shapes, used, slot))
  {
    var l := s.log;
    assert NewLog(s0, s) == l;
    if wrapped { WrittenReplays(s0, s, l); }
    if Replayable(s.shapes, l) {
      ReplayIsRestore(s.shapes, used, l);
      PutBackIff(s0, s, used);
    }
  }

  /** Nothing put back: what has been written stays, and what was refused reads as it did. */
  lemma LeftReplaced(s0: State, s: State, slot: Slot)
    requires Underway(s0, s, false) && EndsRefused(s0, s) && s0.log == [] && !BirthSlot(slot)
    ensures s.log != [] && (RawOf(s, slot) == RawOf(s0, slot) <==> !Logged(s.log[..|s.log| - 1], slot))
  {
    var u := Unrecorded(s);
    assert NewLog(s0, u) == s.log[..|s.log| - 1];
    RawInRange(s0, slot);
  }

  /** What is known once the graphs have been walked, or the walk of one of them was stopped. */
  ghost predicate Wrapped(s0: State, graphs: seq<Id>, s: State, wrapped: bool, refused: bool, steps: nat,
                          visited: seq<set<Id>>) {
    && Underway(s0, s, wrapped) && (wrapped ==> Shown(s0, s, graphs, visited))
    && (if wrapped then !refused
        else if refused then EndsRefused(s0, s)
        else Replayable(s.shapes, s.log))
    && (AllClean(s0, graphs) ==> FirstsRaw(s0, s.log))
    && (NothingRefuses(s0.shapes) ==> wrapped || steps == 0)
    && (NothingRefuses(s0.shapes) ==> !refused)
    && (|graphs| == 1 ==> OneGraph(s0.(seen := {}), graphs[0], s.log, wrapped, refused, steps))
  }

  /** With one graph it is known before the call. */
  ghost predicate OneGraph(s0: State, graph: Id, l: seq<Entry>, wrapped: bool, refused: bool, steps: nat) {
    && (wrapped ==> !WouldRefuse(s0, GraphTour(s0, graph)))
    && (wrapped ==> (FirstsRaw(s0, l) <==> FirstsHandRaw(s0, GraphTour(s0, graph).hs)))
    && (refused ==> WouldBar(s0, GraphTour(s0, graph)))
    && (!wrapped && !refused ==> steps == 0 || WouldDecline(s0, GraphTour(s0, graph)))
  }

  /**
   framework_base.py:166-168: the graphs among the arguments, one after the other, into one
   log. "visited" is what each walk has visited.
   */
  method WrapAll(w: GraphWalk, graphs: seq<Id>)
    returns (wrapped: bool, ghost refused: bool, ghost visited: seq<set<Id>>)
    requires WellFormed(w.S()) && AreGraphs(w.shapes, graphs) && w.originals == []
    modifies w
    ensures Wrapped(old(w.S()), graphs, w.S(), wrapped, refused, w.steps, visited)
  {
    hide WellFormed, Core, CleanGraph, FirstsRaw, Underway, Replayable, EndsRefused, Halted, Settled, Refused;
    hide WouldRefuse, WouldBar, WouldDecline, GraphTour, NothingRefuses, FirstsHandRaw, Declined;
    hide Evolve, AllFinished, NodesShown, Shown, Since, Processed;
    ghost var s0 := w.S();
    wrapped, refused, visited := true, false, [];
    assert graphs[..0] == [];
    NothingShown(s0, s0);
    SeenDoesNotMatter(s0, {});
    SinceStart(s0);
    var k := 0;
    NothingYet(s0);
    assert NewLog(s0, s0) == [];
    while k < |graphs| && wrapped
      invariant 0 <= k <= |graphs| && s0.shapes <= w.shapes && s0.log <= w.originals && (k == 0 ==> w.S() == s0)
      invariant Underway(s0, w.S(), wrapped) && WellFormed(w.S())
      invariant AllClean(s0, graphs) ==> FirstsRaw(s0, NewLog(s0, w.S())) && (wrapped ==> AllClean(w.S(), graphs))
      invariant NothingRefuses(s0.shapes) ==> NothingRefuses(w.shapes) && !refused && (wrapped || w.steps == 0)
      invariant if wrapped then !refused
                else if refused then EndsRefused(s0, w.S())
                else Replayable(w.shapes, w.originals)
      invariant |graphs| == 1 && k == 1 ==> OneGraph(s0.(seen := {}), graphs[0], w.originals, wrapped, refused, w.steps)
      invariant k == 0 ==> wrapped
      invariant wrapped ==> Shown(s0, w.S(), graphs[..k], visited) && Since(s0, w.S(), visited)
    {
      ghost var was := w.S();
      ghost var before := w.S().(seen := {});
      SeenDoesNotMatter(w.S(), {});
      SeenIsNothing(w.S(), {}, graphs);
      UnseenIsUnderway(s0, w.S(), {});
      ghost var now;
      wrapped, now := WrapOne(w, graphs[k], graphs);
      if wrapped {
        ShownSince(was, w.S(), graphs[k], now);
        WalkExtends(s0, was, w.S(), graphs, visited, k, now);
        visited := visited + [now];
      }
      HaltedMeans(before, w.S());
      refused := !wrapped && Refused(before, w.S());
      CallExtends(s0, before, w.S(), wrapped);
      if NothingRefuses(before.shapes) { FreeOfRefusal(before, w.S()); }
      CoreMeans(before, w.S());
      k := k + 1;
    }
    assert NewLog(s0, w.S()) == w.originals;
    assert graphs[..|graphs|] == graphs;
  }

  lemma ShownSince(was: State, s: State, graph: Id, now: set<Id>)
    requires graph < |was.shapes| && NodesShown(was.(seen := {}), s, graph, now)
    ensures NodesShown(was, s, graph, now)
  {
  }

  lemma WrappedMeans(s0: State, graphs: seq<Id>, s: State, wrapped: bool, refused: bool, steps: nat,
                     visited: seq<set<Id>>)
    requires Wrapped(s0, graphs, s, wrapped, refused, steps, visited)
    ensures wrapped ==> Shown(s0, s, graphs, visited)
    ensures (wrapped ==> !refused) && (AllClean(s0, graphs) ==> FirstsRaw(s0, s.log))
    ensures NothingRefuses(s0.shapes) ==> !refused && (wrapped || steps == 0)
    ensures |graphs| == 1 ==> OneGraph(s0.(seen := {}), graphs[0], s.log, wrapped, refused, steps)
  {
  }

  /** What the undo makes of the heap "used" the user's function leaves of "s.heap". */
  ghost predicate CallUndone(s0: State, s: State, wrapped: bool, used: Heap, heap: Heap, restored: bool) {
    // restored, every overwritten slot reads as before the call if and only if its first record says so
    && (restored ==>
          ((forall slot :: Logged(s.log, slot) ==> Raw(s.shapes, heap, slot) == RawOf(s0, slot)) <==>
           FirstsRaw(s0, s.log)))
    // the user's own writes survive, and the user's function has seen the rest as it was
    && (forall slot :: !Logged(s.log, slot) && !BirthSlot(slot) ==>
          RawOf(s, slot) == RawOf(s0, slot) && Raw(s.shapes, heap, slot) == Raw(s.shapes, used, slot))
    // a refused assignment leaves all that was written before it, and only that
    && (!restored ==>
          && !wrapped && heap == used && s.log != []
          && (used == s.heap ==>
                forall slot :: !BirthSlot(slot) ==>
                  (Raw(s.shapes, heap, slot) == RawOf(s0, slot) <==> !Logged(s.log[..|s.log| - 1], slot))))
  }

  /** The restore loop after the graphs were walked and the heap was used. */
  lemma CallIsUndone(s0: State, graphs: seq<Id>, s: State, wrapped: bool, refused: bool, steps: nat,
                     visited: seq<set<Id>>, used: Heap)
    requires Wrapped(s0, graphs, s, wrapped, refused, steps, visited) && s0.log == []
    ensures var (heap, restored) := Replay(s.shapes, used, s.log);
            CallUndone(s0, s, wrapped, used, heap, restored) && (restored <==> !refused)
  {
    if refused { RefusedEnds(s0, s); }
    UndoneCall(s0, s, wrapped, used);
    UnloggedSoFar(s0, s, wrapped);
    if refused {
      forall slot | !BirthSlot(slot)
        ensures s.log != [] && (RawOf(s, slot) == RawOf(s0, slot) <==> !Logged(s.log[..|s.log| - 1], slot))
      {
        LeftReplaced(s0, s, slot);
      }
    }
  }

  lemma RefusedEnds(s0: State, s: State)
    requires EndsRefused(s0, s)
    ensures !Replayable(s.shapes, s.log)
  {
  }

  lemma UnloggedSoFar(s0: State, s: State, wrapped: bool)
    requires Underway(s0, s, wrapped) && s0.log == []
    ensures forall slot :: !Logged(s.log, slot) && !BirthSlot(slot) ==> RawOf(s, slot) == RawOf(s0, slot)
  {
    assert NewLog(s0, s) == s.log;
  }
}
