/**
 Which of the models a function reads as globals are replaced. A model counts as visited
 by its identity, so of several names for one model only one gets the proxy.
 Source: src/rastir/langgraph_support.py:277-295.
 */
module LangGraphGlobals {
  import opened ObjectHeap
  import opened LangGraphState

  /** A chat model that is no proxy. */
  predicate BareModel(s: State, v: Id) {
    v != NONE && v < |s.shapes| && s.shapes[v].isChat && !s.shapes[v].marked
  }

  /** The turn of one name that holds a model, or nothing of interest. */
  function GlobalTurn(s: State, g: Id, name: string): State {
    var slot := Item(g, name);
    if slot !in s.heap || s.heap[slot] == NONE || s.heap[slot] in s.seen then s
    else
      var v := s.heap[slot];
      if v >= |s.shapes| || !s.shapes[v].isChat then s
      else if s.shapes[v].marked then s.(seen := s.seen + {v})
      else Put(s.(seen := s.seen + {v}), slot, v)
  }

  function GlobalTurns(s: State, g: Id, names: seq<string>): State
    decreases |names|
  {
    if names == [] then s else GlobalTurn(GlobalTurns(s, g, names[..|names| - 1]), g, names[|names| - 1])
  }

  lemma NoTurns(s: State, g: Id)
    ensures GlobalTurns(s, g, []) == s
  {
  }

  /** The name holds a chat model, or nothing to be walked into. */
  predicate ModelAt(s: State, g: Id, name: string) {
    Item(g, name) in s.heap ==>
      var v := s.heap[Item(g, name)];
      v < |s.shapes| && (s.shapes[v].isRunnable ==> s.shapes[v].isChat)
  }

  predicate OnlyModels(s: State, g: Id, names: seq<string>) {
    forall name :: name in names ==> ModelAt(s, g, name)
  }

  lemma TurnsStep(s: State, g: Id, names: seq<string>, k: nat)
    requires k < |names| && OnlyModels(s, g, names)
    ensures var s1 := GlobalTurns(s, g, names[..k]);
            && (OnlyModels(s1, g, names) ==> ModelAt(s1, g, names[k]))
            && GlobalTurns(s, g, names[..k + 1]) == GlobalTurn(s1, g, names[k])
            && (OnlyModels(s1, g, names) ==> OnlyModels(GlobalTurn(s1, g, names[k]), g, names))
  {
    var s1 := GlobalTurns(s, g, names[..k]);
    assert names[..k + 1][..k] == names[..k];
    if OnlyModels(s1, g, names) {
      forall name | name in names ensures ModelAt(GlobalTurn(s1, g, names[k]), g, name) {
        assert ModelAt(s1, g, name);
      }
    }
  }

  predicate Distinct(names: seq<string>) {
    forall i, j :: 0 <= i < j < |names| ==> names[i] != names[j]
  }

  /** One of the names holds v. */
  predicate Named(s: State, g: Id, names: seq<string>, v: Id) {
    exists name :: name in names && Item(g, name) in s.heap && s.heap[Item(g, name)] == v
  }

  lemma InitIsDistinct(names: seq<string>)
    requires Distinct(names) && names != []
    ensures Distinct(names[..|names| - 1]) && names[|names| - 1] !in names[..|names| - 1]
  {
  }

  /** Turns of other names leave a slot alone. */
  lemma {:induction false} OtherNamesKeep(s: State, g: Id, names: seq<string>, slot: Slot)
    requires slot.Item? ==> slot.dict != g || slot.key !in names
    ensures var s1 := GlobalTurns(s, g, names);
            && s.shapes <= s1.shapes
            && (slot in s1.heap <==> slot in s.heap) && (slot in s.heap ==> s1.heap[slot] == s.heap[slot])
    decreases |names|
  {
    if names != [] { OtherNamesKeep(s, g, names[..|names| - 1], slot); }
  }

  /** A bare model counts as visited afterwards if it did before or one of the names holds it. */
  lemma {:induction false} VisitedIff(s: State, g: Id, names: seq<string>, v: Id)
    requires Distinct(names) && BareModel(s, v)
    ensures v in GlobalTurns(s, g, names).seen <==> v in s.seen || Named(s, g, names, v)
    decreases |names|
  {
    if names != [] {
      var init, last := names[..|names| - 1], names[|names| - 1];
      InitIsDistinct(names);
      VisitedIff(s, g, init, v);
      OtherNamesKeep(s, g, init, Item(g, last));
      assert names == init + [last];
      assert Named(s, g, names, v) <==> Named(s, g, init, v) || (Item(g, last) in s.heap && s.heap[Item(g, last)] == v);
    }
  }

  /**
   A name keeps its bare model if and only if the model was visited before the names'
   turn, in a closure cell say, or an earlier name holds the same model.
   */
  lemma {:induction false} StaysBareIff(s: State, g: Id, names: seq<string>, k: nat)
    requires Distinct(names) && k < |names|
    requires Item(g, names[k]) in s.heap && BareModel(s, s.heap[Item(g, names[k])])
    ensures var slot, s1 := Item(g, names[k]), GlobalTurns(s, g, names);
            && slot in s1.heap
            && (s1.heap[slot] == s.heap[slot] <==> s.heap[slot] in s.seen || Named(s, g, names[..k], s.heap[slot]))
    decreases |names|
  {
    var init, last, slot := names[..|names| - 1], names[|names| - 1], Item(g, names[k]);
    InitIsDistinct(names);
    if k < |init| {
      StaysBareIff(s, g, init, k);
      assert init[..k] == names[..k] && init[k] == names[k];
      assert last != names[k];
    } else {
      OtherNamesKeep(s, g, init, slot);
      VisitedIff(s, g, init, s.heap[slot]);
    }
  }

  /** The smallest case: model 1 under the names "llm" and "model" of globals 2. */
  function TwoNames(): State {
    var plain := Shape(OtherType, false, false, false, false, false, None, None, [], [], None, None,
                       map[], None, map[], map[]);
    State([plain, plain.(isChat := true, isRunnable := true), plain], map[Item(2, "llm") := 1, Item(2, "model") := 1],
          [], {})
  }

  lemma SecondNameStaysBare()
    ensures var s, s1 := TwoNames(), GlobalTurns(TwoNames(), 2, ["llm", "model"]);
            && WellFormed(s)
            && Item(2, "llm") in s1.heap && s1.heap[Item(2, "llm")] != 1
            && Item(2, "model") in s1.heap && s1.heap[Item(2, "model")] == 1
  {
    var s, names := TwoNames(), ["llm", "model"];
    StaysBareIff(s, 2, names, 0);
    StaysBareIff(s, 2, names, 1);
    assert names[0] in names[..1];
    assert Item(2, names[0]) in s.heap && s.heap[Item(2, names[0])] == 1;
  }
}
