/**
 What single steps of the walk do to a state, and why the walk ends although it creates
 objects. Source: src/rastir/langgraph_support.py:179-441.
 */
module LangGraphSteps {
  import opened ObjectHeap
  import opened LangGraphState
  import opened LangGraphPlan
  import opened LangGraphProgress

  // ----- termination ---------------------------------------------------------------

  /** How many of the first n objects are not visited yet. */
  ghost function Left(n: nat, seen: set<Id>): nat {
    |set i | 0 <= i < n && i !in seen|
  }

  lemma LeftShrinks(n: nat, seen: set<Id>, seen': set<Id>)
    requires seen <= seen'
    ensures Left(n, seen') <= Left(n, seen)
    ensures forall x :: 0 <= x < n && x !in seen && x in seen' ==> Left(n, seen') < Left(n, seen)
  {
    var a, b := set i | 0 <= i < n && i !in seen, set i | 0 <= i < n && i !in seen';
    Subsets(b, a);
    forall x | 0 <= x < n && x !in seen && x in seen' ensures Left(n, seen') < Left(n, seen) {
      assert x in a && x !in b;
    }
  }

  lemma Subsets<T>(b: set<T>, a: set<T>)
    requires b <= a
    ensures |b| <= |a| && (b != a ==> |b| < |a|)
  {
    assert a == b + (a - b);
  }

  /** Objects are created only while an original object is visited for the first time. */
  ghost predicate Spent(s0: State, s: State, s1: State) {
    && s.seen <= s1.seen && |s.shapes| <= |s1.shapes|
    && (|s.shapes| < |s1.shapes| ==> Left(|s0.shapes|, s1.seen) < Left(|s0.shapes|, s.seen))
  }

  lemma SpentTransitive(s0: State, s: State, s1: State, s2: State)
    requires Spent(s0, s, s1) && Spent(s0, s1, s2)
    ensures Spent(s0, s, s2)
  {
    LeftShrinks(|s0.shapes|, s.seen, s1.seen);
    LeftShrinks(|s0.shapes|, s1.seen, s2.seen);
  }

  /** After visiting obj the measure of the walk is below what it was, wherever the walk is by now. */
  lemma VisitDecreases(s0: State, s: State, obj: Id, s2: State)
    requires obj < |s.shapes| && obj !in s.seen && Spent(s0, s.(seen := s.seen + {obj}), s2)
    ensures Left(|s0.shapes|, s2.seen) <= Left(|s0.shapes|, s.seen)
    ensures Left(|s0.shapes|, s2.seen) == Left(|s0.shapes|, s.seen) ==>
              Left(|s2.shapes|, s2.seen) < Left(|s.shapes|, s.seen)
  {
    LeftShrinks(|s0.shapes|, s.seen, s.seen + {obj});
    LeftShrinks(|s0.shapes|, s.seen + {obj}, s2.seen);
    LeftShrinks(|s.shapes|, s.seen, s2.seen);
  }

  lemma StretchDecreases(s0: State, s: State, s2: State)
    requires Spent(s0, s, s2)
    ensures Left(|s0.shapes|, s2.seen) <= Left(|s0.shapes|, s.seen)
    ensures Left(|s0.shapes|, s2.seen) == Left(|s0.shapes|, s.seen) ==>
              Left(|s2.shapes|, s2.seen) <= Left(|s.shapes|, s.seen)
    ensures s.seen <= s2.seen
  {
    LeftShrinks(|s0.shapes|, s.seen, s2.seen);
    LeftShrinks(|s.shapes|, s.seen, s2.seen);
  }

  /** A visit pays for the objects created during it: an original object it is about, or one visited later. */
  lemma VisitSpends(s0: State, s: State, o: Id, s2: State)
    requires o < |s.shapes| && o !in s.seen && s.seen + {o} <= s2.seen && |s.shapes| <= |s2.shapes|
    requires o < |s0.shapes| || Spent(s0, s.(seen := s.seen + {o}), s2)
    ensures Spent(s0, s, s2)
  {
    LeftShrinks(|s0.shapes|, s.seen, s2.seen);
    LeftShrinks(|s0.shapes|, s.seen, s.seen + {o});
  }

  // ----- what slots read as --------------------------------------------------------

  /** What a slot reads as is an original object unless this walk has replaced it. */
  lemma RawOriginal(s0: State, s: State, slot: Slot)
    requires Core(s0, s) && !BirthSlot(slot)
    ensures Logged(NewLog(s0, s), slot) || RawOf(s, slot) < |s0.shapes|
  {
    if !Logged(NewLog(s0, s), slot) {
      UnloggedReads(s0, s, slot);
      RawInRange(s0, slot);
    }
  }

  /** Recognised runnables, models and tool nodes are never objects the walk has created. */
  lemma RecognisedIsOriginal(s0: State, s: State, o: Id)
    requires Core(s0, s) && o < |s.shapes|
    ensures s.shapes[o].isChat || s.shapes[o].isRunnable || s.shapes[o].tag != OtherType ==> o < |s0.shapes|
  {
    if |s0.shapes| <= o { assert Created(|s0.shapes|, s.shapes, o); }
  }

  /** A function the walk has not rewritten is none at all now if and only if it was none at the start. */
  lemma NoFunction(s0: State, s: State, o: Id, a: string)
    requires Core(s0, s) && Settled(s0, s) && o < |s.shapes| && a in ["func", "afunc"]
    ensures Read(s, o, a) == NONE <==> RawOf(s0, Attr(Owner(s.shapes, o), a)) == NONE
  {
    var slot := Attr(Owner(s.shapes, o), a);
    GivesNothing(s, o, a);
    if Logged(NewLog(s0, s), slot) { LoggedIsCallable(s0, s, slot); } else { UnloggedReads(s0, s, slot); }
  }

  lemma GivesNothing(s: State, o: Id, a: string)
    requires WellFormed(s) && o < |s.shapes|
    ensures Read(s, o, a) == NONE <==> RawOf(s, Attr(Owner(s.shapes, o), a)) == NONE
  {
    assert ShapeOk(s.shapes, o);
    if Intercepts(s, o, a) { assert ShapeOk(s.shapes, s.shapes[o].views[a]); }
  }

  /** A rewritten node function was callable and is. */
  lemma LoggedIsCallable(s0: State, s: State, slot: Slot)
    requires Core(s0, s) && Settled(s0, s) && NodeSlot(slot) && Logged(NewLog(s0, s), slot)
    ensures RawOf(s, slot) != NONE && RawOf(s0, slot) != NONE && CallableNow(s, slot) && CallableNow(s0, slot)
    ensures |s0.shapes| <= RawOf(s, slot) < |s.shapes|
    ensures s.shapes[RawOf(s, slot)] == TracedShape(LastSaved(NewLog(s0, s), slot))
  {
    var i :| 0 <= i < |NewLog(s0, s)| && NewLog(s0, s)[i].slot == slot;
    assert SettledSlot(s0, s, slot) && RecordOk(s0, s, NewLog(s0, s)[i]);
  }

  lemma GlobalsWritable(s0: State, s: State, f: Id)
    requires Core(s0, s) && f < |s.shapes|
    ensures s.shapes[f].globals.Some? ==>
              s.shapes[f].globals.value < |s0.shapes| && WritableDict(s0, s.shapes[f].globals.value)
  {
    if f < |s0.shapes| { assert ShapeOk(s0.shapes, f); } else { assert Created(|s0.shapes|, s.shapes, f); }
  }

  /** What is no slot of the walk reads as it did. */
  lemma FixedSlot(s0: State, s: State, o: Id, a: string)
    requires Core(s0, s) && a !in ["func", "afunc", "bound"]
    ensures !Logged(NewLog(s0, s), Attr(o, a)) && RawOf(s, Attr(o, a)) == RawOf(s0, Attr(o, a))
  {
    forall i | 0 <= i < |NewLog(s0, s)| ensures NewLog(s0, s)[i].slot != Attr(o, a) {
      assert RecordOk(s0, s, NewLog(s0, s)[i]);
    }
    UnloggedReads(s0, s, Attr(o, a));
  }

  /** So does the bound of what is no visited binding with a bare model. */
  lemma FixedBound(s0: State, s: State, o: Id)
    requires Core(s0, s) && (Replaceable(s0, o) ==> o !in s.seen)
    ensures !Logged(NewLog(s0, s), Attr(o, "bound")) && RawOf(s, Attr(o, "bound")) == RawOf(s0, Attr(o, "bound"))
  {
    forall i | 0 <= i < |NewLog(s0, s)| ensures NewLog(s0, s)[i].slot != Attr(o, "bound") {
      assert RecordOk(s0, s, NewLog(s0, s)[i]);
    }
    UnloggedReads(s0, s, Attr(o, "bound"));
  }

  lemma ItemWasThere(s0: State, s: State, slot: Slot)
    requires Core(s0, s) && slot.Item? && slot in s.heap
    ensures slot in s0.heap
  {
    if Logged(NewLog(s0, s), slot) {
      var i :| 0 <= i < |NewLog(s0, s)| && NewLog(s0, s)[i].slot == slot;
      assert RecordOk(s0, s, NewLog(s0, s)[i]);
    } else {
      assert Accounted(s0, s, slot);
    }
  }

  /** What holds no proxy has not been rewritten. */
  lemma UnmarkedIsUnlogged(s0: State, s: State, slot: Slot)
    requires Core(s0, s) && Settled(s0, s) && !NodeSlot(slot)
    requires RawOf(s, slot) < |s.shapes| && !s.shapes[RawOf(s, slot)].marked
    ensures !Logged(NewLog(s0, s), slot)
  {
    forall i | 0 <= i < |NewLog(s0, s)| ensures NewLog(s0, s)[i].slot != slot {
      assert SettledSlot(s0, s, NewLog(s0, s)[i].slot);
      assert s.heap[NewLog(s0, s)[i].slot] < |s.shapes| && ShapeOk(s.shapes, s.heap[NewLog(s0, s)[i].slot]);
    }
  }

  // ----- tools ---------------------------------------------------------------------

  predicate ToolsPrefix(s: State, d: Id, names: seq<string>, n: nat) {
    forall k :: 0 <= k < n && k < |names| ==> ToolDone(s, Item(d, names[k]))
  }

  lemma AllToolsDone(s: State, s1: State, o: Id)
    requires Evolve(s, s1) && o < |s.shapes|
    requires var d := Read(s, o, "_tools_by_name");
             d < |s.shapes| && s.shapes[d].keys.Some? &&
               ToolsPrefix(s1, d, s.shapes[d].keys.value, |s.shapes[d].keys.value|)
    ensures ToolsDone(s1, o)
  {
    FixedReads(s, s1, o, "_tools_by_name");
  }

  lemma NoToolsYet(s: State, d: Id, names: seq<string>)
    ensures ToolsPrefix(s, d, names, 0)
  {
  }

  lemma ToolsPrefixStep(s: State, s1: State, d: Id, names: seq<string>, n: nat)
    requires Evolve(s, s1) && ToolsPrefix(s, d, names, n)
    requires n < |names| && ToolDone(s1, Item(d, names[n]))
    ensures ToolsPrefix(s1, d, names, n + 1)
  {
    forall k | 0 <= k < n ensures ToolDone(s1, Item(d, names[k])) {
      assert ToolDone(s, Item(d, names[k])) && Advanced(s, s1, Item(d, names[k]));
    }
  }

  /** No dict entry or attribute disappears while the walk is settled. */
  lemma SlotsStay(s0: State, s: State)
    requires Core(s0, s) && Settled(s0, s)
    ensures forall slot :: slot in s0.heap ==> slot in s.heap
  {
    hide WellFormed, RecordOk, LogFaithful;
    forall slot | slot in s0.heap ensures slot in s.heap {
      if Logged(NewLog(s0, s), slot) {
        var i :| 0 <= i < |NewLog(s0, s)| && NewLog(s0, s)[i].slot == slot;
        assert SettledSlot(s0, s, NewLog(s0, s)[i].slot);
      } else {
        assert Accounted(s0, s, slot);
      }
    }
  }

  lemma ToolsDictIsWritable(s0: State, s: State, toolnode: Id)
    requires Core(s0, s) && toolnode < |s.shapes| && s.shapes[toolnode].tag == ToolNode
    ensures toolnode < |s0.shapes|
    ensures var d := Read(s, toolnode, "_tools_by_name"); d < |s0.shapes| && WritableDict(s0, d)
  {
    RecognisedIsOriginal(s0, s, toolnode);
    assert ShapeOk(s.shapes, toolnode) && ShapeOk(s0.shapes, toolnode);
    var slot := Attr(toolnode, "_tools_by_name");
    assert !Logged(NewLog(s0, s), slot) by {
      forall i | 0 <= i < |NewLog(s0, s)| ensures NewLog(s0, s)[i].slot != slot {
        assert RecordOk(s0, s, NewLog(s0, s)[i]);
      }
    }
    UnloggedReads(s0, s, slot);
    RawInRange(s0, slot);
    assert Read(s0, toolnode, "_tools_by_name") == Read(s, toolnode, "_tools_by_name");
  }

  /** An unmarked value of a dict entry is an original object, not a proxy. */
  lemma ToolIsOriginal(s0: State, s: State, slot: Slot)
    requires Core(s0, s) && Settled(s0, s) && slot.Item? && slot in s.heap && !s.shapes[s.heap[slot]].marked
    ensures s.heap[slot] < |s0.shapes| && s.shapes[s.heap[slot]].target.None?
  {
    assert ShapeOk(s.shapes, s.heap[slot]);
    forall i | 0 <= i < |NewLog(s0, s)| ensures NewLog(s0, s)[i].slot != slot {
      assert SettledSlot(s0, s, NewLog(s0, s)[i].slot);
      assert ShapeOk(s.shapes, s.heap[NewLog(s0, s)[i].slot]);
    }
    RawOriginal(s0, s, slot);
  }

  // ----- what finishes an object ---------------------------------------------------

  lemma CellsStep(s: State, s1: State, f: Id, i: nat)
    requires Evolve(s, s1) && f < |s.shapes| && Present(s, f) && i < |Cells(s, f)| && CellsDone(s, f, i)
    requires Cells(s, f)[i].Some? ==> Cells(s, f)[i].value in s1.seen
    ensures CellsDone(s1, f, i + 1)
  {
    CellsStay(s, s1, f);
  }

  lemma NamesStep(s: State, s1: State, f: Id, k: nat)
    requires Evolve(s, s1) && f < |s.shapes| && s.shapes[f].globals.Some? && k < |s.shapes[f].names|
    requires NamesDone(s, f, k) && NameDone(s1, s.shapes[f].globals.value, s.shapes[f].names[k])
    ensures NamesDone(s1, f, k + 1)
  {
    WalkedStays(s, s1, f);
    assert NamesDone(s1, f, k);
  }

  lemma BindingWalked(s: State, s1: State, o: Id)
    requires Evolve(s, s1) && o < |s.shapes| && s.shapes[o].tag == RunnableBinding
    requires var v := Read(s, o, "bound"); v == NONE || (v in s1.seen && v < |s.shapes| && !s.shapes[v].isChat)
    requires WellFormed(s) && s.shapes[o].target.None?
    ensures Processed(s1, o)
  {
    assert Advanced(s, s1, Attr(o, "bound"));
    ReadInRange(s, o, "bound");
    ReadInRange(s1, o, "bound");
    assert ShapeOk(s1.shapes, Read(s1, o, "bound"));
  }

  /** Follow reached what the attribute held; the slot may since have been given a proxy. */
  lemma FollowedStays(s: State, s1: State, s2: State, o: Id, a: string)
    requires Evolve(s, s1) && Evolve(s1, s2) && o < |s.shapes| && a in ["bound", "first"]
    requires Read(s, o, a) == NONE || Read(s, o, a) in s1.seen
    ensures Reached(s2, Read(s2, o, a))
  {
    EvolveTransitive(s, s1, s2);
    var slot := Attr(Owner(s.shapes, o), a);
    ReadInRange(s, o, a);
    ReadInRange(s2, o, a);
    assert s.shapes <= s2.shapes && s1.seen <= s2.seen;
    assert Advanced(s, s2, slot) && WellFormed(s2);
    hide Evolve, WellFormed;
    ReachedAdvances(s, s2, o, a);
  }

  lemma ReachedAdvances(s: State, s1: State, o: Id, a: string)
    requires s.shapes <= s1.shapes && o < |s.shapes| && a in ["bound", "first"]
    requires Advanced(s, s1, Attr(Owner(s.shapes, o), a)) && RawOf(s, Attr(Owner(s.shapes, o), a)) < |s.shapes|
    requires Read(s, o, a) == NONE || Read(s, o, a) in s1.seen
    ensures Reached(s1, Read(s1, o, a))
  {
  }

  lemma CallableWalked(s: State, s1: State, o: Id, a: string)
    requires Evolve(s, s1) && o < |s.shapes| && a in ["func", "afunc"]
    requires var f := Read(s, o, a); f == NONE || (f < |s.shapes| && (s.shapes[f].isCallable ==> FuncWalked(s1, f)))
    ensures CallableDone(s1, o, a)
  {
    var slot := Attr(Owner(s.shapes, o), a);
    var f := Read(s, o, a);
    ReadInRange(s, o, a);
    ReadInRange(s1, o, a);
    assert Advanced(s, s1, slot);
    assert ShapeOk(s.shapes, o);
    hide Evolve, ShapeOk, WellFormed, CellsDone, NamesDone;
  }

  /** A global that was walked is visited, or meanwhile a proxy stands in its place. */
  lemma GlobalWalked(s: State, s1: State, slot: Slot)
    requires Evolve(s, s1) && slot.Item? && slot in s.heap && s.heap[slot] in s1.seen
    ensures NameDone(s1, slot.dict, slot.key)
  {
    assert Advanced(s, s1, slot);
  }

  lemma VisitKeepsCore(s0: State, s: State, o: Id)
    requires Core(s0, s) && Settled(s0, s)
    ensures var s1 := s.(seen := s.seen + {o}); Core(s0, s1) && Settled(s0, s1)
  {
    var s1 := s.(seen := s.seen + {o});
    assert WellFormed(s1) by { VisitEvolves(s, o); }
    hide WellFormed;
    assert NewLog(s0, s1) == NewLog(s0, s);
    forall i | 0 <= i < |NewLog(s0, s)| ensures RecordOk(s0, s1, NewLog(s0, s1)[i]) {
      assert RecordOk(s0, s, NewLog(s0, s)[i]);
    }
    forall slot ensures Accounted(s0, s1, slot) { assert Accounted(s0, s, slot); }
    forall slot | Logged(NewLog(s0, s1), slot) ensures SettledSlot(s0, s1, slot) { assert SettledSlot(s0, s, slot); }
  }
}
