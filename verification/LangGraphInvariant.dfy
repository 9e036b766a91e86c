/**
 What a walk keeps at every step: its state is the one the tour of the starting state tells.
 Source: src/rastir/langgraph_support.py:179-441.
 */
module LangGraphInvariant {
  import opened ObjectHeap
  import opened LangGraphState
  import opened LangGraphPlan
  import opened LangGraphProgress
  import opened LangGraphSteps
  import opened LangGraphTour

  // ----- the state a tour tells -------------------------------------------------------

  /** The binding holds an object of this walk. */
  predicate Rewritten(s0: State, s: State, b: Id) { |s0.shapes| <= RawOf(s, Attr(b, "bound")) }

  /** The object that is the place by now. */
  predicate Denotes(s0: State, s: State, pl: Place, x: Id) {
    match pl
    case Obj(o) => x == o && o < |s0.shapes|
    case OwnProxy(b) => Replaceable(s0, b) && Rewritten(s0, s, b) && x == RawOf(s, Attr(b, "bound"))
    case Inert => |s0.shapes| <= x < |s.shapes| && s.shapes[x].target.None?
  }

  predicate IsProxyOf(s: State, b: Id, x: Id) { RawOf(s, Attr(b, "bound")) == x }

  ghost predicate SameVisits(s0: State, s: State, t: Tour) {
    && (forall i :: 0 <= i < |s0.shapes| ==> (Obj(i) in t.order <==> i in s.seen))
    && (forall b :: OwnProxy(b) in t.order <==>
          Replaceable(s0, b) && Rewritten(s0, s, b) && RawOf(s, Attr(b, "bound")) in s.seen)
    && (forall x :: x in s.seen ==> x < |s.shapes|)
    && (forall x :: x in s.seen && |s0.shapes| <= x < |s.shapes| && s.shapes[x].target.Some? ==>
          exists b :: OwnProxy(b) in t.order && IsProxyOf(s, b, x))
  }

  /** Each proxy stands in one binding only. */
  ghost predicate Apart(s0: State, s: State) {
    forall b, c {:trigger Rewritten(s0, s, b), Rewritten(s0, s, c)} ::
      Rewritten(s0, s, b) && Rewritten(s0, s, c) && RawOf(s, Attr(b, "bound")) == RawOf(s, Attr(c, "bound")) ==> b == c
  }

  predicate SameLog(s0: State, s: State, t: Tour)
    requires |s0.log| <= |s.log|
  {
    NodePart(NewLog(s0, s)) == t.log
  }

  /** A dict entry is rewritten only over a visited model, or as a tool of a visited node. */
  ghost predicate SameItems(s0: State, s: State, t: Tour)
    requires |s0.log| <= |s.log|
  {
    forall slot: Slot {:trigger Logged(NewLog(s0, s), slot)} :: slot.Item? && Logged(NewLog(s0, s), slot) ==>
      Obj(RawOf(s0, slot)) in t.order || Tooled(s0, t.order, slot)
  }

  /** A wrapper made since the start: over the function of the start, or over a traced one. */
  predicate ShownAs(s0: State, s: State, stale: set<Id>, w: Id, slot: Slot) {
    Method(w) in s.heap &&
    if w in stale then |s0.shapes| <= s.heap[Method(w)] && Mark(w) in s.heap
    else s.heap[Method(w)] == RawOf(s0, slot) && (Mark(w) in s.heap <==> Traced(s0, RawOf(s0, slot)))
  }

  /** The wrapper of a node function of proxy p. */
  predicate SameView(s0: State, s: State, stack: set<Id>, t: Tour, p: Id, a: string)
    requires a in ViewsOf(s0, p)
  {
    var w, slot := ViewsOf(s0, p)[a], Attr(OwnerOf(s0, Obj(p)), a);
    Method(w) !in s0.heap ==>
      && (Method(w) in s.heap ==> p in s.seen && ShownAs(s0, s, t.stale, w, slot))
      && (w in t.stale ==> p in s.seen)
      && (p in stack && CallableNow(s0, slot) ==> (w in t.stale <==> Times(t.log, slot) > 0))
  }

  ghost predicate SameViews(s0: State, s: State, stack: set<Id>, t: Tour) {
    forall p, a :: a in ["func", "afunc"] && a in ViewsOf(s0, p) ==> SameView(s0, s, stack, t, p, a)
  }

  ghost predicate Toured(s0: State, s: State, stack: set<Id>, t: Tour)
    requires |s0.log| <= |s.log|
  {
    SameLog(s0, s, t) && SameVisits(s0, s, t) && Apart(s0, s) && SameItems(s0, s, t) && SameViews(s0, s, stack, t)
  }

  ghost predicate Finished(s: State, stack: set<Id>) {
    forall x :: x in s.seen && x !in stack ==> x < |s.shapes| && Processed(s, x)
  }

  /** Holds between two steps of the walk: every visited object not on the stack is finished. */
  ghost predicate Walking(s0: State, s: State, stack: set<Id>, t: Tour) {
    Core(s0, s) && Settled(s0, s) && Finished(s, stack) && Toured(s0, s, stack, t)
  }

  /** No object on the stack is a tool node or a binding to be rewritten: these are worked off on the spot. */
  predicate Plain(s0: State, stack: set<Id>) {
    forall x :: x in stack ==> x < |s0.shapes| ==> s0.shapes[x].tag != ToolNode && !Replaceable(s0, x)
  }

  /** Stopped by an exception on the way to what tour r tells: by a refused assignment, or out of steps. */
  ghost predicate StoppedBy(s0: State, s: State, r: Tour, steps: nat) {
    && Halted(s0, s) && NodePart(NewLog(s0, s)) <= r.log
    && (if Declined(s0, s) then Comes(s0, r, NewLog(s0, s)[|NewLog(s0, s)| - 1].slot) else steps == 0)
  }

  /** A stretch of the walk: it keeps the invariant, changes slots as the walk does, and pays for what it creates. */
  ghost predicate Stretch(s0: State, s: State, s1: State, stack: set<Id>, t: Tour) {
    Walking(s0, s1, stack, t) && Evolve(s, s1) && Spent(s0, s, s1) && s.shapes <= s1.shapes && s.seen <= s1.seen
  }

  /** What most steps need to know about a state of the walk. */
  lemma WalkingMeans(s0: State, s: State, stack: set<Id>, t: Tour)
    requires Walking(s0, s, stack, t)
    ensures Core(s0, s) && Settled(s0, s) && WellFormed(s0) && WellFormed(s)
    ensures Stretch(s0, s, s, stack, t) && s0.shapes <= s.shapes && s0.log <= s.log && Toured(s0, s, stack, t)
    ensures SameLog(s0, s, t) && SameVisits(s0, s, t) && Apart(s0, s)
    ensures SameItems(s0, s, t) && SameViews(s0, s, stack, t)
    ensures Finished(s, stack) && forall x :: x in s.seen ==> x < |s.shapes|
  {
    EvolveReflexive(s);
  }

  lemma StaysFinished(s: State, s1: State, stack: set<Id>, stack1: set<Id>)
    requires Finished(s, stack) && Evolve(s, s1) && s1.seen <= s.seen + stack1 && stack <= stack1
    ensures Finished(s1, stack1)
  {
    hide Processed;
    forall x | x in s1.seen && x !in stack1 ensures x < |s1.shapes| && Processed(s1, x) {
      ProcessedStays(s, s1, x);
    }
  }

  lemma Joined(s0: State, s: State, s1: State, s2: State, stack: set<Id>, t1: Tour, t2: Tour)
    requires Stretch(s0, s, s1, stack, t1) && Stretch(s0, s1, s2, stack, t2)
    ensures Stretch(s0, s, s2, stack, t2)
  {
    EvolveTransitive(s, s1, s2);
    SpentTransitive(s0, s, s1, s2);
  }

  /** Out of steps between two steps. */
  lemma StopsHere(s0: State, s: State, stack: set<Id>, t: Tour, r: Tour)
    requires Walking(s0, s, stack, t) && t.log <= r.log
    ensures StoppedBy(s0, s, r, 0)
  {
    var l := NewLog(s0, s);
    if l != [] { assert Logged(l, l[|l| - 1].slot) && SettledSlot(s0, s, l[|l| - 1].slot); }
  }

  lemma StoppedLater(s0: State, s: State, r: Tour, r1: Tour, steps: nat)
    requires StoppedBy(s0, s, r, steps) && r.order <= r1.order && r.log <= r1.log
    ensures StoppedBy(s0, s, r1, steps)
  {
    if Declined(s0, s) { ComesLater(s0, r, r1, NewLog(s0, s)[|NewLog(s0, s)| - 1].slot); }
  }

  // ----- node functions -------------------------------------------------------------------

  /** What the slot of a node function reads as, in terms of the functions rewritten so far. */
  lemma NodeSlotNow(s0: State, s: State, t: Tour, slot: Slot)
    requires Core(s0, s) && Settled(s0, s) && SameLog(s0, s, t) && NodeSlot(slot)
    ensures CallableNow(s, slot) <==> CallableNow(s0, slot)
    ensures RawOf(s0, slot) < |s0.shapes| && RawOf(s, slot) < |s.shapes|
    ensures if Times(t.log, slot) > 0
            then CallableNow(s0, slot) && |s0.shapes| <= RawOf(s, slot) &&
                 s.shapes[RawOf(s, slot)] == TracedShape(LastSaved(t.log, slot))
            else RawOf(s, slot) == RawOf(s0, slot)
  {
    NodePartKeeps(NewLog(s0, s), slot);
    NodePartLast(NewLog(s0, s), slot);
    TimesMeans(NewLog(s0, s), slot);
    RawInRange(s0, slot);
    if Logged(NewLog(s0, s), slot) { LoggedIsCallable(s0, s, slot); } else { UnloggedReads(s0, s, slot); }
  }

  /** An object that was in use at the start carries the mark of a traced function now if and only if it did then. */
  lemma TracedSame(s0: State, s: State, x: Id)
    requires Core(s0, s) && Present(s0, x)
    ensures Traced(s, x) <==> Traced(s0, x)
  {
    assert Accounted(s0, s, Mark(x));
    BirthIsUnlogged(s0, s, Mark(x));
    if Mark(x) in s.heap { assert SlotOk(s, Mark(x)) && SlotOk(s, Method(x)); }
    if Mark(x) in s0.heap { assert SlotOk(s0, Mark(x)) && SlotOk(s0, Method(x)); }
  }

  // ----- asking a proxy -----------------------------------------------------------------------

  lemma MadeVisits(s0: State, s: State, t: Tour, w: Id, target: Id)
    requires SameVisits(s0, s, t) && Apart(s0, s)
    ensures SameVisits(s0, Made(s, w, target), t) && Apart(s0, Made(s, w, target))
  {
    var s1 := Made(s, w, target);
    forall b ensures RawOf(s1, Attr(b, "bound")) == RawOf(s, Attr(b, "bound")) {
    }
    forall x | x in s1.seen && |s0.shapes| <= x < |s1.shapes| && s1.shapes[x].target.Some?
      ensures exists b :: OwnProxy(b) in t.order && IsProxyOf(s1, b, x)
    {
      var b :| OwnProxy(b) in t.order && IsProxyOf(s, b, x);
      assert IsProxyOf(s1, b, x);
    }
    forall b, c
      | Rewritten(s0, s1, b) && Rewritten(s0, s1, c) && RawOf(s1, Attr(b, "bound")) == RawOf(s1, Attr(c, "bound"))
      ensures b == c
    {
      assert Rewritten(s0, s, b) && Rewritten(s0, s, c);
    }
  }

  /** A visited proxy off the stack has made the wrapper of what it was to be asked for. */
  lemma ShownWhenDone(s0: State, s: State, p: Id, a: string)
    requires Core(s0, s) && Settled(s0, s) && p < |s0.shapes| && Processed(s, p)
    requires a in ["func", "afunc"] && a in ViewsOf(s0, p) && CallableNow(s, Attr(Owner(s0.shapes, p), a))
    ensures Method(ViewsOf(s0, p)[a]) in s.heap
  {
    hide RecordOk, Accounted, LogFaithful, SettledSlot, CellsDone, NamesDone, ToolsDone, SequenceDone, Reached;
    assert ShapeOk(s0.shapes, p) && s.shapes[p] == s0.shapes[p];
    var w := ViewsOf(s0, p)[a];
    assert s.shapes[w].wrapper.Some? && ShapeOk(s.shapes, w);
    hide WellFormed, Core, Settled;
    assert CallableDone(s, p, a) && Read(s, p, a) == w;
    assert FuncDone(s, w);
  }

  /** The wrapper made now shows the function of the start, or a traced one if that has been rewritten. */
  lemma MadeShows(s0: State, s: State, t: Tour, w: Id, slot: Slot)
    requires Core(s0, s) && Settled(s0, s) && SameLog(s0, s, t) && NodeSlot(slot) && CallableNow(s, slot)
    requires w < |s.shapes| && Method(w) !in s.heap && (w in t.stale <==> Times(t.log, slot) > 0)
    ensures CallableNow(s0, slot) && ShownAs(s0, Made(s, w, RawOf(s, slot)), t.stale, w, slot)
  {
    NodeSlotNow(s0, s, t, slot);
    RawInRange(s0, slot);
    if Times(t.log, slot) == 0 { TracedSame(s0, s, RawOf(s, slot)); }
    MarkedNeedsMethod(s, w);
  }

  lemma AskedView(s0: State, s: State, stack: set<Id>, t: Tour, p: Id, a: string)
    requires Walking(s0, s, stack, t) && a in ["func", "afunc"] && a in ViewsOf(s0, p) && p in s.seen
    requires Asked(s, p, a) != s
    ensures p < |s0.shapes| && p < |s.shapes| && SameView(s0, Asked(s, p, a), stack, t, p, a)
  {
    AskedMeans(s, p, a);
    var w, slot := ViewsOf(s0, p)[a], Attr(OwnerOf(s0, Obj(p)), a);
    assert s.shapes[p] == s0.shapes[p] && Asked(s, p, a) == Made(s, w, RawOf(s, slot));
    assert SameView(s0, s, stack, t, p, a);
    if Method(w) !in s0.heap {
      NodeSlotNow(s0, s, t, slot);
      if p !in stack { ShownWhenDone(s0, s, p, a); }
      hide Core, Settled, SameLog, SameVisits, SameItems, Apart, Processed, Asked, WellFormed, ShownAs;
      MadeShows(s0, s, t, w, slot);
    }
  }

  lemma MarkedNeedsMethod(s: State, w: Id)
    requires WellFormed(s)
    ensures Mark(w) in s.heap ==> Method(w) in s.heap
  {
    if Mark(w) in s.heap { assert SlotOk(s, Mark(w)); }
  }

  lemma AskedViews(s0: State, s: State, stack: set<Id>, t: Tour, o: Id, a: string)
    requires Walking(s0, s, stack, t) && o < |s.shapes| && (a in ["func", "afunc"] ==> o in s.seen)
    requires Asked(s, o, a) != s
    ensures SameViews(s0, Asked(s, o, a), stack, t)
  {
    forall p, a' | a' in ["func", "afunc"] && a' in ViewsOf(s0, p)
      ensures SameView(s0, Asked(s, o, a), stack, t, p, a')
    {
      AskedViewAt(s0, s, stack, t, o, a, p, a');
    }
    hide Walking, SameView, Asked;
  }

  lemma AskedViewAt(s0: State, s: State, stack: set<Id>, t: Tour, o: Id, a: string, p: Id, a': string)
    requires Walking(s0, s, stack, t) && o < |s.shapes| && (a in ["func", "afunc"] ==> o in s.seen)
    requires Asked(s, o, a) != s && a' in ["func", "afunc"] && a' in ViewsOf(s0, p)
    ensures SameView(s0, Asked(s, o, a), stack, t, p, a')
  {
    hide Core, Settled, Finished, SameLog, SameVisits, SameItems, Apart, Asked, WellFormed, SameView, Made;
    WalkingMeans(s0, s, stack, t);
    AskedMeans(s, o, a);
    OwnWrapper(s0, s, p, a');
    assert SameView(s0, s, stack, t, p, a');
    if ViewsOf(s0, p)[a'] == s.shapes[o].views[a] {
      AskedView(s0, s, stack, t, p, a');
    } else {
      OtherView(s0, s, stack, t, p, a', s.shapes[o].views[a], RawOf(s, Attr(Owner(s.shapes, o), a)));
    }
  }

  lemma OwnWrapper(s0: State, s: State, p: Id, a: string)
    requires Core(s0, s) && a in ViewsOf(s0, p)
    ensures ViewsOf(s0, p)[a] < |s.shapes| && s.shapes[ViewsOf(s0, p)[a]].wrapper == Some(View(p, a))
  {
    assert ShapeOk(s0.shapes, p);
  }

  lemma OtherView(s0: State, s: State, stack: set<Id>, t: Tour, p: Id, a: string, w: Id, target: Id)
    requires a in ViewsOf(s0, p) && SameView(s0, s, stack, t, p, a) && ViewsOf(s0, p)[a] != w
    ensures SameView(s0, Made(s, w, target), stack, t, p, a)
  {
  }

  lemma AskedWalks(s0: State, s: State, stack: set<Id>, t: Tour, o: Id, a: string)
    requires Walking(s0, s, stack, t) && o < |s.shapes| && (a in ["func", "afunc"] ==> o in s.seen)
    ensures Stretch(s0, s, Asked(s, o, a), stack, t)
  {
    hide Core, Settled, Finished, SameViews, SameVisits, Apart, Evolve, Asked, WellFormed;
    WalkingMeans(s0, s, stack, t);
    var s1 := Asked(s, o, a);
    if s1 != s {
      AskedViews(s0, s, stack, t, o, a);
      AskedKeepsCore(s0, s, o, a);
      AskedEvolves(s, o, a);
      AskedMeans(s, o, a);
      MadeVisits(s0, s, t, s.shapes[o].views[a], RawOf(s, Attr(Owner(s.shapes, o), a)));
      StaysFinished(s, s1, stack, stack);
    }
  }

  // ----- visiting -------------------------------------------------------------------------------

  lemma RewrittenIsProxy(s0: State, s: State, b: Id)
    requires Core(s0, s) && Settled(s0, s) && Rewritten(s0, s, b)
    ensures Logged(NewLog(s0, s), Attr(b, "bound")) && Replaceable(s0, b) && b in s.seen
    ensures var v := RawOf(s, Attr(b, "bound"));
            v < |s.shapes| && s.shapes[v] == ProxyShape(RawOf(s0, Attr(b, "bound")))
  {
    var slot := Attr(b, "bound");
    if !Logged(NewLog(s0, s), slot) { UnloggedReads(s0, s, slot); RawInRange(s0, slot); }
    var i :| 0 <= i < |NewLog(s0, s)| && NewLog(s0, s)[i].slot == slot;
    assert SettledSlot(s0, s, slot) && RecordOk(s0, s, NewLog(s0, s)[i]);
    LastIsFirst(s0, NewLog(s0, s), slot);
  }

  /** Of what is no node function the log saves what the slot held at the start. */
  lemma {:induction false} LastIsFirst(s0: State, l: seq<Entry>, slot: Slot)
    requires Logged(l, slot) && !NodeSlot(slot)
    requires forall i :: 0 <= i < |l| && !NodeSlot(l[i].slot) ==> l[i].saved == RawOf(s0, l[i].slot)
    ensures LastSaved(l, slot) == RawOf(s0, slot)
    decreases |l|
  {
    if l[|l| - 1].slot != slot {
      var i :| 0 <= i < |l| && l[i].slot == slot;
      assert l[..|l| - 1][i].slot == slot;
      LastIsFirst(s0, l[..|l| - 1], slot);
    }
  }

  lemma TooledGrows(s0: State, order: seq<Place>, order1: seq<Place>, slot: Slot)
    requires order <= order1
    ensures Tooled(s0, order, slot) ==> Tooled(s0, order1, slot)
  {
    if Tooled(s0, order, slot) {
      var pl :| pl in order && ToolsHold(s0, pl, slot);
      assert pl in order1;
    }
  }

  function EnterPlace(s0: State, t: Tour, pl: Place): Tour { if pl.Inert? then t else Enter(s0, t, pl) }

  /** What is visited now was not, and of the proxies of this walk it is the one the place says. */
  lemma VisitIsNew(s0: State, s: State, t: Tour, pl: Place, x: Id)
    requires Core(s0, s) && Settled(s0, s) && SameVisits(s0, s, t) && Denotes(s0, s, pl, x) && x !in s.seen
    ensures x < |s.shapes| && (pl.Inert? || (pl !in t.order && InRange(s0, pl)))
    ensures forall b ::
              Rewritten(s0, s, b) ==> Replaceable(s0, b) && RawOf(s, Attr(b, "bound")) < |s.shapes| &&
                                      s.shapes[RawOf(s, Attr(b, "bound"))].target.Some?
  {
    if pl.OwnProxy? { RewrittenIsProxy(s0, s, pl.binding); }
    forall b | Rewritten(s0, s, b)
      ensures Replaceable(s0, b) && RawOf(s, Attr(b, "bound")) < |s.shapes| &&
              s.shapes[RawOf(s, Attr(b, "bound"))].target.Some?
    {
      RewrittenIsProxy(s0, s, b);
    }
  }

  lemma EnterVisits(s0: State, s: State, t: Tour, pl: Place, x: Id)
    requires Core(s0, s) && Settled(s0, s) && SameVisits(s0, s, t) && Apart(s0, s)
    requires Denotes(s0, s, pl, x) && x !in s.seen
    ensures SameVisits(s0, s.(seen := s.seen + {x}), EnterPlace(s0, t, pl))
  {
    hide WellFormed, Accounted, RecordOk, LogFaithful, SettledSlot, StaleAt, Replaceable;
    var s1, t1 := s.(seen := s.seen + {x}), EnterPlace(s0, t, pl);
    VisitIsNew(s0, s, t, pl, x);
    hide Core, Settled;
    assert t1.order == if pl.Inert? then t.order else t.order + [pl];
    forall b ensures RawOf(s1, Attr(b, "bound")) == RawOf(s, Attr(b, "bound")) {
    }
    forall b ensures OwnProxy(b) in t1.order <==>
              Replaceable(s0, b) && Rewritten(s0, s1, b) && RawOf(s1, Attr(b, "bound")) in s1.seen
    {
      assert Rewritten(s0, s1, b) <==> Rewritten(s0, s, b);
      if pl.OwnProxy? { assert Rewritten(s0, s, pl.binding); }
    }
    OwnVisits(s0, s, t, pl, x);
  }

  lemma OwnVisits(s0: State, s: State, t: Tour, pl: Place, x: Id)
    requires SameVisits(s0, s, t) && Denotes(s0, s, pl, x) && x !in s.seen && x < |s.shapes|
    ensures var s1, t1 := s.(seen := s.seen + {x}), EnterPlace(s0, t, pl);
            forall y :: y in s1.seen && |s0.shapes| <= y < |s1.shapes| && s1.shapes[y].target.Some? ==>
              exists b :: OwnProxy(b) in t1.order && IsProxyOf(s1, b, y)
  {
    var s1, t1 := s.(seen := s.seen + {x}), EnterPlace(s0, t, pl);
    forall y | y in s1.seen && |s0.shapes| <= y < |s1.shapes| && s1.shapes[y].target.Some?
      ensures exists b :: OwnProxy(b) in t1.order && IsProxyOf(s1, b, y)
    {
      if y == x {
        assert OwnProxy(pl.binding) in t1.order && IsProxyOf(s1, pl.binding, y);
      } else {
        var b :| OwnProxy(b) in t.order && IsProxyOf(s, b, y);
        assert OwnProxy(b) in t1.order && IsProxyOf(s1, b, y);
      }
    }
  }

  lemma EnterViews(s0: State, s: State, stack: set<Id>, t: Tour, pl: Place, x: Id)
    requires WellFormed(s0) && SameViews(s0, s, stack, t) && Denotes(s0, s, pl, x) && x !in s.seen
    ensures SameViews(s0, s.(seen := s.seen + {x}), stack + {x}, EnterPlace(s0, t, pl))
  {
    var s1, t1 := s.(seen := s.seen + {x}), EnterPlace(s0, t, pl);
    forall p, a | a in ["func", "afunc"] && a in ViewsOf(s0, p) ensures SameView(s0, s1, stack + {x}, t1, p, a) {
      assert SameView(s0, s, stack, t, p, a) && ShapeOk(s0.shapes, p);
      StaleMeans(s0, t, pl, p, a);
    }
  }

  /** Entering a place makes stale only wrappers of its own. */
  lemma StaleMeans(s0: State, t: Tour, pl: Place, p: Id, a: string)
    requires WellFormed(s0) && a in ["func", "afunc"] && a in ViewsOf(s0, p)
    ensures ViewsOf(s0, p)[a] in StaleAt(s0, t.log, pl) <==> pl == Obj(p) && MakesStale(s0, t.log, pl, a)
  {
    assert ShapeOk(s0.shapes, p);
    var w := ViewsOf(s0, p)[a];
    assert s0.shapes[w].wrapper == Some(View(p, a));
    forall b | b in ViewsAt(s0, pl) && ViewsAt(s0, pl)[b] == w ensures pl == Obj(p) && b == a {
      assert ShapeOk(s0.shapes, pl.id);
    }
    hide WellFormed, ShapeOk;
  }

  /** Marking something as visited. A chat model is finished by it, anything else is left to do. */
  lemma EnterWalks(s0: State, s: State, stack: set<Id>, t: Tour, pl: Place, x: Id)
    requires Walking(s0, s, stack, t) && Denotes(s0, s, pl, x) && x !in s.seen
    ensures var s1, t1 := s.(seen := s.seen + {x}), EnterPlace(s0, t, pl);
            && x < |s.shapes| && Evolve(s, s1) && (pl.Inert? || (pl !in t.order && InRange(s0, pl)))
            && Walking(s0, s1, stack + {x}, t1) && (s.shapes[x].isChat ==> Walking(s0, s1, stack, t1))
  {
    hide Core, Settled, Finished, SameViews, SameVisits, SameItems, Evolve, WellFormed, Processed, Enter;
    WalkingMeans(s0, s, stack, t);
    var s1, t1 := s.(seen := s.seen + {x}), EnterPlace(s0, t, pl);
    assert NewLog(s0, s1) == NewLog(s0, s) && t1.log == t.log by { EnterLog(s0, t, pl); }
    VisitIsNew(s0, s, t, pl, x);
    EnterVisits(s0, s, t, pl, x);
    EnterViews(s0, s, stack, t, pl, x);
    EnterItems(s0, s, t, pl, x);
    VisitEvolves(s, x);
    VisitKeepsCore(s0, s, x);
    forall b, c
      | Rewritten(s0, s1, b) && Rewritten(s0, s1, c) && RawOf(s1, Attr(b, "bound")) == RawOf(s1, Attr(c, "bound"))
      ensures b == c
    {
      assert Rewritten(s0, s, b) && Rewritten(s0, s, c);
    }
    StaysFinished(s, s1, stack, stack + {x});
    if s.shapes[x].isChat {
      ChatIsDone(s1, x);
      PopWalks(s0, s1, stack, t1, x);
    }
  }

  lemma EnterLog(s0: State, t: Tour, pl: Place)
    ensures EnterPlace(s0, t, pl).log == t.log
  {
  }

  lemma ChatIsDone(s: State, x: Id)
    requires x < |s.shapes| && s.shapes[x].isChat
    ensures Processed(s, x)
  {
  }

  lemma EnterItems(s0: State, s: State, t: Tour, pl: Place, x: Id)
    requires |s0.log| <= |s.log| && SameItems(s0, s, t)
    ensures SameItems(s0, s.(seen := s.seen + {x}), EnterPlace(s0, t, pl))
  {
    var s1, t1 := s.(seen := s.seen + {x}), EnterPlace(s0, t, pl);
    forall slot: Slot | slot.Item? && Logged(NewLog(s0, s1), slot)
      ensures Obj(RawOf(s0, slot)) in t1.order || Tooled(s0, t1.order, slot)
    {
      assert Logged(NewLog(s0, s), slot);
      TooledGrows(s0, t.order, t1.order, slot);
    }
  }

  lemma SmallerStack(s0: State, s: State, stack: set<Id>, stack1: set<Id>, t: Tour)
    requires |s0.log| <= |s.log| && Toured(s0, s, stack, t) && stack1 <= stack
    ensures Toured(s0, s, stack1, t)
  {
    forall p, a | a in ["func", "afunc"] && a in ViewsOf(s0, p) ensures SameView(s0, s, stack1, t, p, a) {
      assert SameView(s0, s, stack, t, p, a);
    }
  }

  /** The object is finished, so it leaves the stack. */
  lemma PopWalks(s0: State, s: State, stack: set<Id>, t: Tour, x: Id)
    requires Walking(s0, s, stack + {x}, t) && x < |s.shapes| && Processed(s, x)
    ensures Walking(s0, s, stack, t)
  {
    hide Core, Settled, Processed, Toured;
    WalkingMeans(s0, s, stack + {x}, t);
    SmallerStack(s0, s, stack + {x}, stack, t);
  }

  // ----- rewriting -------------------------------------------------------------------------------

  /** What rewriting a slot that is no node function needs to know of the tour. */
  ghost predicate Foreseen(s0: State, t: Tour, slot: Slot) {
    !NodeSlot(slot) && (slot.Item? ==> Obj(RawOf(s0, slot)) in t.order || Tooled(s0, t.order, slot))
  }

  function Rewrote(t: Tour, slot: Slot, v: Id): Tour {
    if NodeSlot(slot) then t.(log := t.log + [Entry(slot, v)]) else t
  }

  lemma PutVisits(s0: State, s: State, t: Tour, slot: Slot, v: Id)
    requires WellFormed(s) && |s0.shapes| <= |s.shapes| && v < |s0.shapes|
    requires SameVisits(s0, s, t) && Apart(s0, s) && !BirthSlot(slot) && (NodeSlot(slot) || v == RawOf(s, slot))
    ensures SameVisits(s0, Put(s, slot, v), Rewrote(t, slot, v)) && Apart(s0, Put(s, slot, v))
  {
    var s1 := Put(s, slot, v);
    forall b ensures RawOf(s, Attr(b, "bound")) < |s.shapes| { RawInRange(s, Attr(b, "bound")); }
    forall b | slot != Attr(b, "bound") ensures RawOf(s1, Attr(b, "bound")) == RawOf(s, Attr(b, "bound")) {
      BoundThroughPut(s, slot, v, b);
    }
    forall b ensures BoundMoves(s0, s, s1, slot, b) {
    }
    hide WellFormed, RawOf, Replaceable;
    assert s1.seen == s.seen && Rewrote(t, slot, v).order == t.order && s1.shapes == s.shapes + [Replacement(slot, v)];
    hide Put, Rewrote;
    PutOwn(s0, s, s1, t, slot);
    PutApart(s0, s, s1, slot);
  }

  /** A bound slot reads as before, or it is the one just written, which had not been rewritten. */
  predicate BoundMoves(s0: State, s: State, s1: State, slot: Slot, b: Id) {
    if slot == Attr(b, "bound") then RawOf(s1, Attr(b, "bound")) == |s.shapes| && !Rewritten(s0, s, b)
    else RawOf(s1, Attr(b, "bound")) == RawOf(s, Attr(b, "bound"))
  }

  lemma PutOwn(s0: State, s: State, s1: State, t: Tour, slot: Slot)
    requires SameVisits(s0, s, t) && s1.seen == s.seen && s.shapes <= s1.shapes
    requires forall b :: BoundMoves(s0, s, s1, slot, b)
    ensures SameVisits(s0, s1, t)
  {
    hide RawOf, Replaceable;
    forall b ensures OwnProxy(b) in t.order <==>
              Replaceable(s0, b) && Rewritten(s0, s1, b) && RawOf(s1, Attr(b, "bound")) in s1.seen
    {
      assert BoundMoves(s0, s, s1, slot, b);
    }
    forall x | x in s1.seen && |s0.shapes| <= x < |s1.shapes| && s1.shapes[x].target.Some?
      ensures exists b :: OwnProxy(b) in t.order && IsProxyOf(s1, b, x)
    {
      var b :| OwnProxy(b) in t.order && IsProxyOf(s, b, x);
      assert BoundMoves(s0, s, s1, slot, b) && IsProxyOf(s1, b, x);
    }
  }

  lemma PutApart(s0: State, s: State, s1: State, slot: Slot)
    requires Apart(s0, s) && forall b :: BoundMoves(s0, s, s1, slot, b)
    requires forall b :: RawOf(s, Attr(b, "bound")) < |s.shapes|
    ensures Apart(s0, s1)
  {
    hide RawOf;
    forall b, c
      | Rewritten(s0, s1, b) && Rewritten(s0, s1, c) && RawOf(s1, Attr(b, "bound")) == RawOf(s1, Attr(c, "bound"))
      ensures b == c
    {
      assert BoundMoves(s0, s, s1, slot, b) && BoundMoves(s0, s, s1, slot, c);
      if slot != Attr(b, "bound") && slot != Attr(c, "bound") { assert Rewritten(s0, s, b) && Rewritten(s0, s, c); }
    }
  }

  lemma BoundThroughPut(s: State, slot: Slot, v: Id, b: Id)
    requires slot != Attr(b, "bound") && WellFormed(s)
    ensures RawOf(Put(s, slot, v), Attr(b, "bound")) == RawOf(s, Attr(b, "bound"))
  {
  }

  lemma PutItems(s0: State, s: State, t: Tour, slot: Slot, v: Id)
    requires |s0.log| <= |s.log| && SameItems(s0, s, t) && (NodeSlot(slot) || Foreseen(s0, t, slot))
    ensures SameItems(s0, Put(s, slot, v), Rewrote(t, slot, v))
  {
    var s1 := Put(s, slot, v);
    assert NewLog(s0, s1) == NewLog(s0, s) + [Entry(slot, v)];
    forall sl: Slot | sl.Item? && Logged(NewLog(s0, s1), sl)
      ensures Obj(RawOf(s0, sl)) in t.order || Tooled(s0, t.order, sl)
    {
      LoggedAppend(NewLog(s0, s), Entry(slot, v), sl);
    }
  }

  lemma PutViews(s0: State, s: State, stack: set<Id>, t: Tour, slot: Slot, v: Id)
    requires SameViews(s0, s, stack, t) && !BirthSlot(slot) && (NodeSlot(slot) ==> stack == {})
    ensures SameViews(s0, Put(s, slot, v), stack, Rewrote(t, slot, v))
  {
    forall p, a | a in ["func", "afunc"] && a in ViewsOf(s0, p)
      ensures SameView(s0, Put(s, slot, v), stack, Rewrote(t, slot, v), p, a)
    {
      assert SameView(s0, s, stack, t, p, a);
    }
  }

  lemma PutLog(s0: State, s: State, s1: State, t: Tour, slot: Slot, v: Id)
    requires |s0.log| <= |s.log| && SameLog(s0, s, t) && s1.log == s.log + [Entry(slot, v)]
    ensures SameLog(s0, s1, Rewrote(t, slot, v))
  {
    NodePartAppend(NewLog(s0, s), Entry(slot, v));
    assert NewLog(s0, s1) == NewLog(s0, s) + [Entry(slot, v)];
  }

  lemma RecordableMeans(s0: State, s: State, slot: Slot, v: Id)
    requires Recordable(s0, s, slot, v)
    ensures WalkSlot(slot) && HolderOf(slot) < |s0.shapes| && v < |s0.shapes| <= |s.shapes| && s.shapes[v].target.None?
    ensures !NodeSlot(slot) ==> !s.shapes[v].marked && v == RawOf(s, slot)
    ensures RecordOk(s0, s, Entry(slot, v))
  {
  }

  /** Recording, allocating and writing: the tour tells the new state too. */
  lemma PutWalks(s0: State, s: State, stack: set<Id>, t: Tour, slot: Slot, v: Id)
    requires Walking(s0, s, stack, t) && Recordable(s0, s, slot, v) && !Rejects(s0.shapes, slot)
    requires !NodeSlot(slot) ==> Foreseen(s0, t, slot)
    requires NodeSlot(slot) ==> stack == {} && CallableNow(s, slot) && RawOf(s, slot) != NONE
    requires NodeSlot(slot) ==> (v == RawOf(s, slot) && !s.shapes[v].nodeTraced) || FuncWalked(s, v)
    ensures Walking(s0, Put(s, slot, v), stack, Rewrote(t, slot, v)) && Evolve(s, Put(s, slot, v))
  {
    hide Core, Settled, Finished, SameViews, SameVisits, SameItems, SameLog, Apart, Evolve, WellFormed, RecordOk;
    hide Foreseen, FuncWalked, Recordable, Rewrote;
    WalkingMeans(s0, s, stack, t);
    RecordableMeans(s0, s, slot, v);
    PutVisits(s0, s, t, slot, v);
    PutItems(s0, s, t, slot, v);
    PutViews(s0, s, stack, t, slot, v);
    PutLog(s0, s, Put(s, slot, v), t, slot, v);
    PutKeepsCore(s0, s, slot, v);
    PutEvolves(s, slot, v);
    StaysFinished(s, Put(s, slot, v), stack, stack);
  }

  // ----- stopping and starting -----------------------------------------------------------------------

  /** Stopped after a record: the assignment was refused, or a tool could not be wrapped. */
  lemma RecordStops(s0: State, s: State, stack: set<Id>, t: Tour, slot: Slot, v: Id, r: Tour, steps: nat)
    requires Walking(s0, s, stack, t) && Recordable(s0, s, slot, v) && Rewrote(t, slot, v).log <= r.log
    requires if Rejects(s0.shapes, slot) then Comes(s0, r, slot) else slot.Item? && steps == 0
    ensures StoppedBy(s0, Record(s, slot, v), r, steps)
  {
    hide Core, Settled, Finished, SameViews, SameVisits, SameItems, SameLog, Apart, Evolve, WellFormed, RecordOk;
    WalkingMeans(s0, s, stack, t);
    RecordKeepsCore(s0, s, slot, v);
    var s1 := Record(s, slot, v);
    PutLog(s0, s, s1, t, slot, v);
    assert NewLog(s0, s1) == NewLog(s0, s) + [Entry(slot, v)];
    assert Unrecorded(s1) == s;
    assert NodePart(NewLog(s0, s1)) == Rewrote(t, slot, v).log by { LogIs(s0, s1, Rewrote(t, slot, v)); }
  }

  lemma LogIs(s0: State, s: State, t: Tour)
    requires |s0.log| <= |s.log| && SameLog(s0, s, t)
    ensures NodePart(NewLog(s0, s)) == t.log
  {
  }

  /** Between two steps no slot the walk has come to refuses. */
  lemma NothingRefused(s0: State, s: State, t: Tour)
    requires Walking(s0, s, {}, t)
    ensures !WouldRefuse(s0, t)
  {
    WalkingMeans(s0, s, {}, t);
    forall slot | Comes(s0, t, slot) ensures !Rejects(s0.shapes, slot) {
      if i :| 0 <= i < |t.log| && t.log[i].slot == slot {
        NodePartIsNode(NewLog(s0, s), i);
        assert Logged(t.log, slot);
        NodePartKeeps(NewLog(s0, s), slot);
      } else {
        BindingIsRewritten(s0, s, {}, t, slot.owner);
        RewrittenIsProxy(s0, s, slot.owner);
      }
      assert SettledSlot(s0, s, slot);
    }
  }

  lemma {:induction false} NodePartIsNode(l: seq<Entry>, i: nat)
    requires i < |NodePart(l)|
    ensures NodeSlot(NodePart(l)[i].slot)
    decreases |l|
  {
    if i < |NodePart(l[..|l| - 1])| { NodePartIsNode(l[..|l| - 1], i); }
  }

  /** A binding with a bare model holds a proxy of this walk once it is visited and off the stack. */
  lemma BindingIsRewritten(s0: State, s: State, stack: set<Id>, t: Tour, b: Id)
    requires Walking(s0, s, stack, t) && Plain(s0, stack) && Replaceable(s0, b) && Obj(b) in t.order
    ensures Rewritten(s0, s, b)
  {
    var slot := Attr(b, "bound");
    assert b in s.seen && b !in stack;
    assert Processed(s, b);
    assert ShapeOk(s0.shapes, b) && s.shapes[b] == s0.shapes[b];
    RawInRange(s0, slot);
    assert s.shapes[RawOf(s0, slot)] == s0.shapes[RawOf(s0, slot)];
    if !Logged(NewLog(s0, s), slot) { UnloggedReads(s0, s, slot); } else { assert SettledSlot(s0, s, slot); }
  }

  lemma StartsWalking(s0: State)
    requires WellFormed(s0) && s0.seen == {}
    ensures Walking(s0, s0, {}, START) && Evolve(s0, s0)
  {
    EvolveReflexive(s0);
    assert NewLog(s0, s0) == [];
    assert Core(s0, s0) && Settled(s0, s0);
    forall b ensures !Rewritten(s0, s0, b) { RawInRange(s0, Attr(b, "bound")); }
    forall p, a | a in ["func", "afunc"] && a in ViewsOf(s0, p) ensures SameView(s0, s0, {}, START, p, a) {
    }
  }

  /** A place stays the object it is. */
  lemma DenotesStays(s0: State, s: State, s1: State, pl: Place, x: Id)
    requires Core(s0, s) && Settled(s0, s) && Evolve(s, s1) && Denotes(s0, s, pl, x)
    ensures Denotes(s0, s1, pl, x)
  {
    if pl.OwnProxy? {
      RewrittenIsProxy(s0, s, pl.binding);
      assert Advanced(s, s1, Attr(pl.binding, "bound"));
    }
  }

  // ----- the two kinds of replacement inside a walk --------------------------------------------------

  /** One tool: whatever the loop body does keeps the walk's invariants and finishes the tool. */
  lemma ToolStep(s0: State, s: State, stack: set<Id>, t: Tour, slot: Slot)
    requires Walking(s0, s, stack, t) && slot.Item? && slot in s0.heap && slot in s.heap
    requires slot.dict < |s0.shapes| && WritableDict(s0, slot.dict)
    requires s.heap[slot] < |s.shapes| && !s.shapes[s.heap[slot]].marked && Tooled(s0, t.order, slot)
    ensures StoppedBy(s0, Record(s, slot, s.heap[slot]), t, 0)
    ensures var s1 := Put(s, slot, s.heap[slot]);
            Walking(s0, s1, stack, t) && Evolve(s, s1) && ToolDone(s1, slot)
  {
    hide Finished, SameViews, SameVisits, SameItems, SameLog, Apart, Evolve, WellFormed, SettledSlot, Accounted;
    hide Walking, StoppedBy, LogFaithful, Comes;
    WalkingMeans(s0, s, stack, t);
    ToolIsOriginal(s0, s, slot);
    PutWalks(s0, s, stack, t, slot, s.heap[slot]);
    RecordStops(s0, s, stack, t, slot, s.heap[slot], t, 0);
  }

  /** The bare model a dict entry holds may be recorded, and is what the entry held at the start. */
  lemma ModelItem(s0: State, s: State, slot: Slot)
    requires Core(s0, s) && Settled(s0, s) && slot.Item? && slot in s.heap && slot.dict < |s0.shapes|
    requires WritableDict(s0, slot.dict) && s.heap[slot] < |s.shapes| && s.shapes[s.heap[slot]].isChat
    ensures s.heap[slot] < |s0.shapes| && RawOf(s0, slot) == s.heap[slot]
    ensures !s.shapes[s.heap[slot]].marked ==> Recordable(s0, s, slot, s.heap[slot])
  {
    var v := s.heap[slot];
    RecognisedIsOriginal(s0, s, v);
    ItemWasThere(s0, s, slot);
    assert ShapeOk(s.shapes, v);
    assert Logged(NewLog(s0, s), slot) ==> SettledSlot(s0, s, slot);
    UnloggedReads(s0, s, slot);
  }

  lemma SeenIsNoRecord(s0: State, s: State, seen: set<Id>, slot: Slot, v: Id)
    requires |s0.log| <= |s.log| && s.seen <= seen && Recordable(s0, s, slot, v)
    ensures Recordable(s0, s.(seen := seen), slot, v)
  {
  }

  /** Replacing a model held in a global: the model counts as visited although nothing inside it is walked. */
  lemma GlobalModelStep(s0: State, s: State, stack: set<Id>, t: Tour, slot: Slot)
    requires Walking(s0, s, stack, t) && slot.Item? && slot in s.heap && slot.dict < |s0.shapes|
    requires WritableDict(s0, slot.dict) && s.heap[slot] < |s.shapes| && s.heap[slot] !in s.seen
    requires s.shapes[s.heap[slot]].isChat
    ensures var v := s.heap[slot];
            var s1, t1 := s.(seen := s.seen + {v}), t.(order := t.order + [Obj(v)]);
            var s2 := if s.shapes[v].marked then s1 else Put(s1, slot, v);
            && StoppedBy(s0, s1, t1, 0)
            && Stretch(s0, s, s2, stack, t1) && NameDone(s2, slot.dict, slot.key)
  {
    hide Finished, SameViews, SameVisits, SameItems, SameLog, Apart, WellFormed, Settled, Core, Walking, Evolve;
    hide StoppedBy, Recordable, Comes;
    WalkingMeans(s0, s, stack, t);
    var v := s.heap[slot];
    var s1, t1 := s.(seen := s.seen + {v}), t.(order := t.order + [Obj(v)]);
    ModelItem(s0, s, slot);
    EnterModel(s0, s, t, v);
    EnterWalks(s0, s, stack, t, Obj(v), v);
    StopsHere(s0, s1, stack, t1, t1);
    LeftShrinks(|s0.shapes|, s.seen, s1.seen);
    if !s.shapes[v].marked {
      SeenIsNoRecord(s0, s, s1.seen, slot, v);
      PutWalks(s0, s1, stack, t1, slot, v);
      EvolveTransitive(s, s1, Put(s1, slot, v));
    }
  }

  /** A model has no wrappers of its own. */
  lemma EnterModel(s0: State, s: State, t: Tour, v: Id)
    requires Core(s0, s) && v < |s0.shapes| && s.shapes[v].isChat
    ensures EnterPlace(s0, t, Obj(v)) == t.(order := t.order + [Obj(v)])
  {
    assert ShapeOk(s0.shapes, v) && s.shapes[v] == s0.shapes[v];
  }

  /** Replacing the chat model behind a RunnableBinding finishes the binding. */
  lemma BindingModelStep(s0: State, s: State, stack: set<Id>, t: Tour, o: Id)
    requires Walking(s0, s, stack, t) && o in s.seen && o < |s0.shapes| && s0.shapes[o].tag == RunnableBinding
    requires RawOf(s, Attr(o, "bound")) == RawOf(s0, Attr(o, "bound"))
    requires var v := RawOf(s, Attr(o, "bound")); v != NONE && v < |s0.shapes| && s0.shapes[v].isChat
    ensures var v, slot := RawOf(s, Attr(o, "bound")), Attr(o, "bound");
            var s1 := if s0.shapes[v].marked then s else Put(s, slot, v);
            && StoppedBy(s0, s, t, 0)
            && (Rejects(s0.shapes, slot) && !s0.shapes[v].marked ==>
                  forall n :: StoppedBy(s0, Record(s, slot, v), t, n))
            && (!Rejects(s0.shapes, slot) || s0.shapes[v].marked ==>
                  Walking(s0, s1, stack, t) && Evolve(s, s1) && Processed(s1, o))
  {
    hide Finished, SameViews, SameItems, SameLog, Apart, Evolve, Walking, StoppedBy, LogFaithful, Accounted;
    var v, slot := RawOf(s, Attr(o, "bound")), Attr(o, "bound");
    WalkingMeans(s0, s, stack, t);
    EvolveReflexive(s);
    assert ShapeOk(s0.shapes, o) && ShapeOk(s0.shapes, v);
    StopsHere(s0, s, stack, t, t);
    if !s0.shapes[v].marked {
      UnmarkedIsUnlogged(s0, s, slot);
      assert Recordable(s0, s, slot, v);
      if Rejects(s0.shapes, slot) {
        forall n ensures StoppedBy(s0, Record(s, slot, v), t, n) { RecordStops(s0, s, stack, t, slot, v, t, n); }
      } else {
        PutWalks(s0, s, stack, t, slot, v);
      }
    }
  }

  /** The walk has visited a proxy it made itself. */
  ghost predicate Entered(s0: State, s: State) {
    exists x :: x in s.seen && |s0.shapes| <= x < |s.shapes| && s.shapes[x].target.Some?
  }

  lemma EnteredAsTold(s0: State, s: State, t: Tour)
    requires Walking(s0, s, {}, t)
    ensures Entered(s0, s) <==> exists b :: OwnProxy(b) in t.order
  {
    if b :| OwnProxy(b) in t.order {
      RewrittenIsProxy(s0, s, b);
      assert RawOf(s, Attr(b, "bound")) in s.seen;
    }
  }

  lemma LastComes(s0: State, t: Tour, slot: Slot, v: Id)
    ensures Comes(s0, t.(log := t.log + [Entry(slot, v)]), slot)
  {
    assert (t.log + [Entry(slot, v)])[|t.log|].slot == slot;
  }
}
