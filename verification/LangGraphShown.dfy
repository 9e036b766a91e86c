/**
 What the user's function runs under: the graphs as their walks have left them, one
 after the other. Each walk starts with nothing visited, and none takes back what an
 earlier one has finished. Source: src/rastir/framework_base.py:166-177 with
 src/rastir/langgraph_support.py:179-197.
 */
module LangGraphShown {
  import opened ObjectHeap
  import opened LangGraphState
  import opened LangGraphProgress
  import opened LangGraphNodes

  function AllOf(visited: seq<set<Id>>): set<Id> {
    if visited == [] then {} else AllOf(visited[..|visited| - 1]) + visited[|visited| - 1]
  }

  /** Every node of the graph but "__start__" is done, its runnable being among those visited. */
  ghost predicate NodesShown(s0: State, s: State, graph: Id, visited: set<Id>) {
    graph < |s0.shapes| &&
    var nodes := Read(s0, graph, "nodes");
    nodes < |s0.shapes| &&
    (s0.shapes[nodes].keys.Some? ==>
       NodesPrefix(s.(seen := visited), nodes, s0.shapes[nodes].keys.value, |s0.shapes[nodes].keys.value|))
  }

  /** Everything visited is finished: what it leads to has been visited, wrapped or traced. */
  ghost predicate AllFinished(s: State, visited: set<Id>) {
    forall x :: x in visited ==> x < |s.shapes| && Processed(s.(seen := visited), x)
  }

  /** All graphs, each with what its own walk has visited. */
  ghost predicate Shown(s0: State, s: State, graphs: seq<Id>, visited: seq<set<Id>>) {
    && |visited| == |graphs|
    && (forall k :: 0 <= k < |graphs| ==> NodesShown(s0, s, graphs[k], visited[k]))
    && AllFinished(s, AllOf(visited))
  }

  lemma SeenGrows(s: State, seen: set<Id>)
    requires WellFormed(s) && s.seen <= seen
    ensures Evolve(s, s.(seen := seen))
  {
    var s1 := s.(seen := seen);
    forall slot | slot in s1.heap ensures SlotOk(s1, slot) { assert SlotOk(s, slot); }
    forall i, a | 0 <= i < |s1.shapes| && a in s1.shapes[i].inherited ensures Present(s1, s1.shapes[i].inherited[a]) {
      assert Present(s, s.shapes[i].inherited[a]);
    }
    forall slot | !BirthSlot(slot) ensures Advanced(s, s1, slot) {
    }
  }

  /** A stretch of a walk counts as one too if more has been visited before it and after it. */
  lemma EvolvesAmongMore(s: State, s1: State, more: set<Id>)
    requires Evolve(s, s1) && s.seen == {}
    ensures Evolve(s.(seen := more), s1.(seen := more + s1.seen))
  {
    var t, t1 := s.(seen := more), s1.(seen := more + s1.seen);
    SeenGrows(s, more);
    SeenGrows(s1, more + s1.seen);
    forall w | Method(w) in t.heap ensures Kept(t, t1, w) { assert Kept(s, s1, w); }
    forall slot | !BirthSlot(slot) ensures Advanced(t, t1, slot) {
      assert Advanced(s, s1, slot);
      WalkedAmongMore(s1, more, slot);
    }
  }

  lemma WalkedAmongMore(s: State, more: set<Id>, slot: Slot)
    requires WellFormed(s)
    ensures forall g :: 0 <= g < |s.shapes| && FuncWalked(s, g) ==> FuncWalked(s.(seen := more + s.seen), g)
  {
    SeenGrows(s, more + s.seen);
    forall g | 0 <= g < |s.shapes| && FuncWalked(s, g) ensures FuncWalked(s.(seen := more + s.seen), g) {
      WalkedStays(s, s.(seen := more + s.seen), g);
    }
  }

  /** A node done with what one walk has visited stays done with it. */
  lemma NodeShownStays(s: State, s1: State, nodes: Id, name: string, visited: set<Id>)
    requires Evolve(s, s1) && NodeDone(s.(seen := visited), nodes, name)
    ensures NodeDone(s1.(seen := visited), nodes, name)
  {
    BoundStays(s, s1, Item(nodes, name));
    var b := Read(s, s.heap[Item(nodes, name)], "bound");
    if FuncTraced(s, b) { FuncTracedStays(s, s1, b); }
    hide Evolve, WellFormed, Advanced;
  }

  lemma NodesShownStay(s0: State, s: State, s1: State, graph: Id, visited: set<Id>)
    requires NodesShown(s0, s, graph, visited) && Evolve(s, s1)
    ensures NodesShown(s0, s1, graph, visited)
  {
    var nodes := Read(s0, graph, "nodes");
    if s0.shapes[nodes].keys.Some? {
      var names := s0.shapes[nodes].keys.value;
      forall k | 0 <= k < |names| && names[k] != "__start__" ensures NodeDone(s1.(seen := visited), nodes, names[k]) {
        NodeShownStays(s, s1, nodes, names[k], visited);
      }
    }
  }

  lemma FinishedStay(s: State, s1: State, visited: set<Id>)
    requires Evolve(s, s1) && s.seen == {} && AllFinished(s, visited) && AllFinished(s1, s1.seen)
    ensures AllFinished(s1, visited + s1.seen)
  {
    var t, t1 := s.(seen := visited), s1.(seen := visited + s1.seen);
    EvolvesAmongMore(s, s1, visited);
    SeenGrows(s1, visited + s1.seen);
    forall x | x in visited + s1.seen ensures x < |s1.shapes| && Processed(t1, x) {
      if x in visited { ProcessedStays(t, t1, x); } else { ProcessedStays(s1, t1, x); }
    }
  }

  /** One more graph has been walked. */
  lemma ShownExtends(s0: State, s: State, s1: State, graphs: seq<Id>, visited: seq<set<Id>>, k: nat)
    requires k < |graphs| && Shown(s0, s, graphs[..k], visited)
    requires s.seen == {} && Evolve(s, s1) && AllFinished(s1, s1.seen) && NodesShown(s0, s1, graphs[k], s1.seen)
    ensures Shown(s0, s1, graphs[..k + 1], visited + [s1.seen])
  {
    var visited1 := visited + [s1.seen];
    FinishedStay(s, s1, AllOf(visited));
    assert visited1[..k] == visited && AllOf(visited1) == AllOf(visited) + s1.seen;
    forall i | 0 <= i < k + 1 ensures NodesShown(s0, s1, graphs[..k + 1][i], visited1[i]) {
      if i < k {
        assert graphs[..k][i] == graphs[..k + 1][i];
        NodesShownStay(s0, s, s1, graphs[i], visited[i]);
      }
    }
  }

  lemma NothingShown(s0: State, s: State)
    ensures Shown(s0, s, [], [])
  {
  }

  /** A walk over graphs since s0, as one stretch. */
  ghost predicate Since(s0: State, s: State, visited: seq<set<Id>>) {
    Evolve(s0.(seen := {}), s.(seen := AllOf(visited)))
  }

  lemma SinceStart(s0: State)
    requires WellFormed(s0.(seen := {}))
    ensures Since(s0, s0, [])
  {
    EvolveReflexive(s0.(seen := {}));
  }

  /** The same, told from the state before this graph's walk. */
  lemma WalkExtends(s0: State, before: State, s: State, graphs: seq<Id>, visited: seq<set<Id>>, k: nat, now: set<Id>)
    requires k < |graphs| && Shown(s0, before, graphs[..k], visited) && Since(s0, before, visited)
    requires graphs[k] < |s0.shapes|
    requires Evolve(before.(seen := {}), s.(seen := now)) && AllFinished(s, now)
    requires NodesShown(before, s, graphs[k], now)
    ensures Shown(s0, s, graphs[..k + 1], visited + [now]) && Since(s0, s, visited + [now])
  {
    hide NodesShown, AllFinished, Shown, Processed, WellFormed;
    var b, s1 := before.(seen := {}), s.(seen := now);
    EvolvesAmongMore(b, s1, AllOf(visited));
    EvolveTransitive(s0.(seen := {}), before.(seen := AllOf(visited)), s.(seen := AllOf(visited) + now));
    assert (visited + [now])[..|visited|] == visited;
    SameNodes(s0, before, s, graphs[k], visited, now);
    SeenIsFree(s0, before, s, graphs[..k], visited, now);
    ShownExtends(s0, b, s1, graphs, visited, k);
    ShownIsFree(s0, s, now, graphs[..k + 1], visited + [now]);
  }

  lemma SameNodes(s0: State, before: State, s: State, graph: Id, visited: seq<set<Id>>, now: set<Id>)
    requires Since(s0, before, visited) && graph < |s0.shapes| && NodesShown(before, s, graph, now)
    ensures NodesShown(s0, s.(seen := now), graph, now)
  {
    FixedReads(s0.(seen := {}), before.(seen := AllOf(visited)), graph, "nodes");
    ReadInRange(s0.(seen := {}), graph, "nodes");
  }

  lemma SeenIsFree(s0: State, before: State, s: State, graphs: seq<Id>, visited: seq<set<Id>>, now: set<Id>)
    ensures Shown(s0, before, graphs, visited) ==> Shown(s0, before.(seen := {}), graphs, visited)
    ensures AllFinished(s, now) ==> AllFinished(s.(seen := now), now)
  {
    ShownIsFree(s0, before, {}, graphs, visited);
  }

  /** What is shown does not depend on what the last walk has left as visited. */
  lemma ShownIsFree(s0: State, s: State, now: set<Id>, graphs: seq<Id>, visited: seq<set<Id>>)
    ensures Shown(s0, s.(seen := now), graphs, visited) <==> Shown(s0, s, graphs, visited)
  {
    var s1 := s.(seen := now);
    forall v: set<Id> ensures s1.(seen := v) == s.(seen := v) {
    }
    forall g, v ensures NodesShown(s0, s1, g, v) <==> NodesShown(s0, s, g, v) {
    }
    assert AllFinished(s1, AllOf(visited)) <==> AllFinished(s, AllOf(visited));
  }
}
