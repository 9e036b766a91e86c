/**
 The state of the LangGraph walk, what it keeps at every point, and what undoing it does.
 Source: src/rastir/langgraph_support.py, src/rastir/wrapper.py:160-210.
 */
module LangGraphState {
  import opened ObjectHeap

  /** Shapes only grow (wrapping allocates), the heap is rewritten, the log and the visited set grow. */
  datatype State = State(shapes: seq<Shape>, heap: Heap, log: seq<Entry>, seen: set<Id>)

  function Read(s: State, o: Id, a: string): Id
    requires o < |s.shapes|
  {
    Get(s.shapes, s.heap, o, a)
  }

  function RawOf(s: State, slot: Slot): Id {
    Raw(s.shapes, s.heap, slot)
  }

  /** What wrap() returns for a model or tool: its include list names no attribute the walk reads. */
  function ProxyShape(target: Id): Shape {
    Shape(OtherType, false, false, false, false, true, None, None, [], [], None, Some(target),
          map[], None, map[], map[])
  }

  /** The traced replacement of a node function, closing over the original. */
  function TracedShape(original: Id): Shape {
    Shape(OtherType, false, false, true, true, false, None, None, [Some(original)], [], None, None,
          map[], None, map[], map[])
  }

  function Replacement(slot: Slot, v: Id): Shape { if NodeSlot(slot) then TracedShape(v) else ProxyShape(v) }

  /** Record the old value, allocate the replacement, write it. */
  function Put(s: State, slot: Slot, saved: Id): State {
    State(s.shapes + [Replacement(slot, saved)], s.heap[slot := |s.shapes|], s.log + [Entry(slot, saved)], s.seen)
  }

  /** The same, stopped by an exception after the record was appended and before the write. */
  function Record(s: State, slot: Slot, saved: Id): State {
    s.(log := s.log + [Entry(slot, saved)])
  }

  // ----- span wrappers of user proxies ---------------------------------------------

  /** Slots that come into being when a wrapper is made; no undo removes them. */
  predicate BirthSlot(slot: Slot) { slot.Method? || slot.Mark? }

  /** Carries _rastir_node_traced. */
  predicate Traced(s: State, x: Id) { x < |s.shapes| && (s.shapes[x].nodeTraced || Mark(x) in s.heap) }

  /** A span wrapper is made over the method it is asked for; functools.wraps copies the mark. */
  function Made(s: State, w: Id, target: Id): State {
    var h := s.heap[Method(w) := target];
    s.(heap := if Traced(s, target) then h[Mark(w) := target] else h)
  }

  /** The proxy intercepts this attribute, and what is there can be called. */
  predicate Intercepts(s: State, o: Id, a: string)
    requires o < |s.shapes|
  {
    var raw := RawOf(s, Attr(Owner(s.shapes, o), a));
    s.shapes[o].target.Some? && a in s.shapes[o].views && raw < |s.shapes| && s.shapes[raw].isCallable
  }

  /** getattr() makes the wrapper on first access and keeps it in the proxy's cache. */
  function Asked(s: State, o: Id, a: string): State
    requires o < |s.shapes|
  {
    if Intercepts(s, o, a) && Method(s.shapes[o].views[a]) !in s.heap
    then Made(s, s.shapes[o].views[a], RawOf(s, Attr(Owner(s.shapes, o), a)))
    else s
  }

  // ----- well-formed object graphs -----------------------------------------

  ghost predicate ShapeOk(shapes: seq<Shape>, i: Id)
    requires i < |shapes|
  {
    var sh := shapes[i];
    && (forall c :: 0 <= c < |sh.closure| ==> sh.closure[c].Some? ==> sh.closure[c].value < |shapes|)
    && (sh.items.Some? ==> forall k :: 0 <= k < |sh.items.value| ==> sh.items.value[k] < |shapes|)
    && (sh.globals.Some? ==> sh.globals.value < |shapes|)
    && (sh.target.Some? ==> sh.target.value < |shapes| && IsProxy(sh) && shapes[sh.target.value].target.None?)
    && (forall a :: a in sh.views ==> sh.views[a] < |shapes| && shapes[sh.views[a]].wrapper == Some(View(i, a)))
    && (forall a :: a in sh.inherited ==> sh.inherited[a] < |shapes|)
    && (sh.wrapper.Some? ==> sh.isCallable)
    && (sh.isChat ==> sh.tag == OtherType)
  }

  /** type() of a proxy is the proxy class, so no recogniser matches it and it is not callable. */
  predicate IsProxy(sh: Shape) {
    sh.target.Some? && sh.marked && sh.tag == OtherType &&
    !sh.isChat && !sh.isRunnable && !sh.isCallable && sh.keys.None? && sh.items.None? && sh.inherited == map[]
  }

  function HolderOf(slot: Slot): Id {
    match slot
    case Attr(o, _) => o
    case Item(d, _) => d
    case Method(w) => w
    case Mark(w) => w
  }

  /** A wrapper yet to be made is nowhere but with its proxy. */
  predicate Present(s: State, x: Id) { x < |s.shapes| && (s.shapes[x].wrapper.Some? ==> Method(x) in s.heap) }

  ghost predicate SlotOk(s: State, slot: Slot)
    requires slot in s.heap
  {
    && Present(s, s.heap[slot]) && HolderOf(slot) < |s.shapes|
    && (slot.Method? ==> s.shapes[slot.wrapper].wrapper.Some? && s.shapes[s.heap[slot]].isCallable)
    && (slot.Mark? ==> Method(slot.wrapper) in s.heap)
  }

  /** Every reference leads to an object, None is inert, and a dict holds its keys. */
  ghost predicate WellFormed(s: State) {
    && 0 < |s.shapes|
    && (forall i :: 0 <= i < |s.shapes| ==> ShapeOk(s.shapes, i))
    && (forall slot :: slot in s.heap ==> SlotOk(s, slot))
    && (forall i, a :: 0 <= i < |s.shapes| && a in s.shapes[i].inherited ==> Present(s, s.shapes[i].inherited[a]))
    && (forall d, k :: 0 <= d < |s.shapes| && s.shapes[d].keys.Some? && k in s.shapes[d].keys.value
          ==> Item(d, k) in s.heap)
    && !s.shapes[NONE].isCallable && !s.shapes[NONE].isChat
  }

  /** A RunnableBinding whose bound chat model the walk will replace when it comes by. */
  predicate Replaceable(s: State, o: Id) {
    && o < |s.shapes| && s.shapes[o].tag == RunnableBinding
    && var v := RawOf(s, Attr(o, "bound")); v < |s.shapes| && s.shapes[v].isChat && !s.shapes[v].marked
  }

  // ----- what holds at every point of a walk that started in s0 -------------

  function NewLog(s0: State, s: State): seq<Entry>
    requires |s0.log| <= |s.log|
  {
    s.log[|s0.log|..]
  }

  /** func and afunc get a traced function; every other slot the walk writes gets a proxy. */
  predicate NodeSlot(slot: Slot) {
    slot.Attr? && slot.name in ["func", "afunc"]
  }

  predicate WalkSlot(slot: Slot) {
    slot.Item? || (slot.Attr? && slot.name in ["func", "afunc", "bound"])
  }

  /** A dict the walk may write: some ToolNode's tools, or some function's globals. */
  ghost predicate WritableDict(s0: State, d: Id) {
    || (exists o :: 0 <= o < |s0.shapes| && s0.shapes[o].tag == ToolNode && Read(s0, o, "_tools_by_name") == d)
    || (exists f :: 0 <= f < |s0.shapes| && s0.shapes[f].globals == Some(d))
  }

  /** The slot holds a callable. */
  predicate CallableNow(s: State, slot: Slot) {
    RawOf(s, slot) < |s.shapes| && s.shapes[RawOf(s, slot)].isCallable
  }

  ghost predicate RecordOk(s0: State, s: State, e: Entry) {
    && WalkSlot(e.slot)
    && HolderOf(e.slot) < |s0.shapes|
    && e.saved < |s0.shapes| <= |s.shapes|
    && s.shapes[e.saved].target.None?
    && (if NodeSlot(e.slot)
        then s.shapes[e.saved].isCallable && !s.shapes[e.saved].nodeTraced && CallableNow(s0, e.slot)
        else !s.shapes[e.saved].marked)
    && (e.slot.Attr? && e.slot.name == "bound" ==> Replaceable(s0, e.slot.owner) && e.slot.owner in s.seen)
    && (e.slot.Item? ==> e.slot in s0.heap && WritableDict(s0, e.slot.dict))
    && (e.slot.Attr? ==> e.saved != NONE)
  }

  ghost predicate SameSlot(s0: State, s: State, slot: Slot) {
    && (slot in s.heap <==> slot in s0.heap)
    && (slot in s0.heap && slot in s.heap ==> s.heap[slot] == s0.heap[slot])
  }

  /** Changed only by a record, or by the making of a wrapper. */
  ghost predicate Accounted(s0: State, s: State, slot: Slot)
    requires |s0.log| <= |s.log|
  {
    || SameSlot(s0, s, slot)
    || Logged(NewLog(s0, s), slot)
    || (BirthSlot(slot) && Method(slot.wrapper) !in s0.heap && (slot in s0.heap ==> slot in s.heap))
  }

  /**
   Only a node function can be logged twice, and only a node function can be logged with
   something else than what its slot held at the start.
   */
  ghost predicate LogFaithful(s0: State, l: seq<Entry>) {
    && (forall i, j :: 0 <= i < j < |l| && l[i].slot == l[j].slot ==> NodeSlot(l[i].slot))
    && (forall i :: 0 <= i < |l| && !NodeSlot(l[i].slot) ==> l[i].saved == RawOf(s0, l[i].slot))
  }

  /**
   Holds between the start s0 and every later state s, also when an exception has
   stopped the walk halfway: a slot differs only if it was logged, and the log never
   holds a proxy or a function this walk has traced.
   */
  ghost predicate Core(s0: State, s: State) {
    && WellFormed(s0) && WellFormed(s)
    && s0.shapes <= s.shapes && s0.log <= s.log
    && (forall i :: |s0.shapes| <= i < |s.shapes| ==> Created(|s0.shapes|, s.shapes, i))
    && (forall slot :: Accounted(s0, s, slot))
    && (forall i :: 0 <= i < |NewLog(s0, s)| ==> RecordOk(s0, s, NewLog(s0, s)[i]))
    && LogFaithful(s0, NewLog(s0, s))
  }

  /** A proxy of, or a traced function over, one of the first n objects. */
  ghost predicate Created(n: nat, shapes: seq<Shape>, i: Id)
    requires i < |shapes|
  {
    || (exists t :: 0 <= t < n && shapes[i] == ProxyShape(t))
    || (exists f :: 0 <= f < n && shapes[i] == TracedShape(f))
  }

  /** While nothing is stopped, every logged slot holds the object this walk has made for its last record. */
  ghost predicate Settled(s0: State, s: State)
    requires |s0.log| <= |s.log|
  {
    forall slot :: Logged(NewLog(s0, s), slot) ==> SettledSlot(s0, s, slot)
  }

  ghost predicate SettledSlot(s0: State, s: State, slot: Slot)
    requires |s0.log| <= |s.log|
  {
    && !Rejects(s0.shapes, slot)
    && slot in s.heap && |s0.shapes| <= s.heap[slot] < |s.shapes|
    && s.shapes[s.heap[slot]] == Replacement(slot, LastSaved(NewLog(s0, s), slot))
  }

  // ----- consequences -------------------------------------------------------

  /** A slot not logged reads as it did at the start. */
  lemma UnloggedReads(s0: State, s: State, slot: Slot)
    requires Core(s0, s) && !BirthSlot(slot)
    requires !Logged(NewLog(s0, s), slot)
    ensures RawOf(s, slot) == RawOf(s0, slot)
  {
    hide RecordOk, LogFaithful, Logged;
    assert Accounted(s0, s, slot);
    if slot !in s.heap && slot.Attr? && |s0.shapes| <= slot.owner < |s.shapes| {
      assert Created(|s0.shapes|, s.shapes, slot.owner);
    }
  }

  /** A record about to be appended; only a node's runnable may hand out something else than the slot holds. */
  ghost predicate Recordable(s0: State, s: State, slot: Slot, v: Id) {
    RecordOk(s0, s, Entry(slot, v)) && (NodeSlot(slot) || v == RawOf(s, slot))
  }

  /** What a slot holds is recorded only once: afterwards it holds an object this walk made. */
  lemma NotYetLogged(s0: State, s: State, slot: Slot, v: Id)
    requires Core(s0, s) && Settled(s0, s) && RecordOk(s0, s, Entry(slot, v)) && v == RawOf(s, slot)
    ensures !Logged(NewLog(s0, s), slot) && v == RawOf(s0, slot)
  {
    assert Logged(NewLog(s0, s), slot) ==> SettledSlot(s0, s, slot);
    UnloggedReads(s0, s, slot);
  }

  lemma FaithfulAppend(s0: State, l: seq<Entry>, e: Entry)
    requires LogFaithful(s0, l) && (NodeSlot(e.slot) || (!Logged(l, e.slot) && e.saved == RawOf(s0, e.slot)))
    ensures LogFaithful(s0, l + [e])
  {
    var l1 := l + [e];
    forall i, j | 0 <= i < j < |l1| && l1[i].slot == l1[j].slot ensures NodeSlot(l1[i].slot) {
      if j == |l| { assert Logged(l, l[i].slot); }
    }
  }

  lemma StillAccounted(s0: State, s: State, s1: State, e: Entry)
    requires |s0.log| <= |s.log| && s1.log == s.log + [e]
    requires forall slot :: Accounted(s0, s, slot)
    requires forall slot :: slot != e.slot ==>
               (slot in s1.heap <==> slot in s.heap) && (slot in s.heap ==> s1.heap[slot] == s.heap[slot])
    ensures forall slot :: Accounted(s0, s1, slot)
  {
    assert NewLog(s0, s1) == NewLog(s0, s) + [e];
    forall slot ensures Accounted(s0, s1, slot) {
      assert Accounted(s0, s, slot);
      LoggedAppend(NewLog(s0, s), e, slot);
    }
  }

  lemma RecordsStayOk(s0: State, s: State, s1: State, e: Entry)
    requires |s0.log| <= |s.log| && s1 == s.(log := s.log + [e]) && RecordOk(s0, s, e)
    requires forall i :: 0 <= i < |NewLog(s0, s)| ==> RecordOk(s0, s, NewLog(s0, s)[i])
    ensures forall i :: 0 <= i < |NewLog(s0, s1)| ==> RecordOk(s0, s1, NewLog(s0, s1)[i])
  {
    var l := NewLog(s0, s);
    assert NewLog(s0, s1) == l + [e];
    forall i | 0 <= i < |l| + 1 ensures RecordOk(s0, s1, NewLog(s0, s1)[i]) {
      if i < |l| { assert RecordOk(s0, s, l[i]); }
    }
  }

  lemma RecordKeepsCore(s0: State, s: State, slot: Slot, v: Id)
    requires Core(s0, s) && Settled(s0, s) && Recordable(s0, s, slot, v)
    ensures Core(s0, Record(s, slot, v))
  {
    var s1, l := Record(s, slot, v), NewLog(s0, s);
    assert NewLog(s0, s1) == l + [Entry(slot, v)];
    RecordsStayOk(s0, s, s1, Entry(slot, v));
    hide WellFormed, RecordOk, SettledSlot;
    if !NodeSlot(slot) { NotYetLogged(s0, s, slot, v); }
    FaithfulAppend(s0, l, Entry(slot, v));
    StillAccounted(s0, s, s1, Entry(slot, v));
    RecordKeepsWellFormed(s, slot, v);
  }

  lemma RecordKeepsWellFormed(s: State, slot: Slot, v: Id)
    requires WellFormed(s)
    ensures WellFormed(Record(s, slot, v))
  {
    var s1 := Record(s, slot, v);
    forall sl | sl in s1.heap ensures SlotOk(s1, sl) { assert SlotOk(s, sl); }
  }

  lemma PutRecordsOk(s0: State, s: State, slot: Slot, v: Id)
    requires Core(s0, s) && Recordable(s0, s, slot, v)
    ensures var s1 := Put(s, slot, v);
            forall i :: 0 <= i < |NewLog(s0, s1)| ==> RecordOk(s0, s1, NewLog(s0, s1)[i])
  {
    var s1, l := Put(s, slot, v), NewLog(s0, s);
    assert NewLog(s0, s1) == l + [Entry(slot, v)];
    forall i | 0 <= i < |l| + 1 ensures RecordOk(s0, s1, NewLog(s0, s1)[i]) {
      if i < |l| { assert RecordOk(s0, s, l[i]); }
    }
  }

  /** The new object is settled in its slot, and nothing else has moved. */
  lemma PutSettles(s0: State, s: State, slot: Slot, v: Id)
    requires |s0.shapes| <= |s.shapes| && |s0.log| <= |s.log| && Settled(s0, s) && !Rejects(s0.shapes, slot)
    ensures Settled(s0, Put(s, slot, v))
  {
    var s1, l, e := Put(s, slot, v), NewLog(s0, s), Entry(slot, v);
    assert NewLog(s0, s1) == l + [e];
    forall sl | Logged(l + [e], sl) ensures SettledSlot(s0, s1, sl) {
      LoggedAppend(l, e, sl);
      LastSavedAppend(l, e, sl);
      if sl != slot { assert SettledSlot(s0, s, sl); }
    }
  }

  lemma PutKeepsCore(s0: State, s: State, slot: Slot, v: Id)
    requires Core(s0, s) && Settled(s0, s) && Recordable(s0, s, slot, v) && !Rejects(s0.shapes, slot)
    ensures Core(s0, Put(s, slot, v)) && Settled(s0, Put(s, slot, v))
  {
    var s1 := Put(s, slot, v);
    RecordKeepsCore(s0, s, slot, v);
    assert v < |s0.shapes| && WalkSlot(slot) && HolderOf(slot) < |s.shapes| && s.shapes[v].target.None?;
    hide WellFormed, RecordOk, Accounted, Settled, LogFaithful, SettledSlot;
    PutKeepsWellFormed(s, slot, v);
    PutSettles(s0, s, slot, v);
    PutRecordsOk(s0, s, slot, v);
    StillAccounted(s0, s, s1, Entry(slot, v));
    assert NewLog(s0, s1) == NewLog(s0, Record(s, slot, v));
    PutCreates(s0, s, slot, v);
    hide Created;
  }

  lemma PutCreates(s0: State, s: State, slot: Slot, v: Id)
    requires v < |s0.shapes| && forall i :: |s0.shapes| <= i < |s.shapes| ==> Created(|s0.shapes|, s.shapes, i)
    ensures var s1 := Put(s, slot, v);
            forall i :: |s0.shapes| <= i < |s1.shapes| ==> Created(|s0.shapes|, s1.shapes, i)
  {
    var s1 := Put(s, slot, v);
    forall i | |s0.shapes| <= i < |s1.shapes| ensures Created(|s0.shapes|, s1.shapes, i) {
      if i < |s.shapes| { assert Created(|s0.shapes|, s.shapes, i); }
    }
  }

  lemma PutKeepsWellFormed(s: State, slot: Slot, v: Id)
    requires WellFormed(s) && HolderOf(slot) < |s.shapes| && WalkSlot(slot)
    requires v < |s.shapes| && s.shapes[v].target.None?
    ensures WellFormed(Put(s, slot, v))
  {
    var s1 := Put(s, slot, v);
    forall i | 0 <= i < |s1.shapes| ensures ShapeOk(s1.shapes, i) {
      if i < |s.shapes| { assert ShapeOk(s.shapes, i); }
    }
    forall sl | sl in s1.heap ensures SlotOk(s1, sl) {
      if sl != slot { assert SlotOk(s, sl); }
    }
    forall i, a | 0 <= i < |s1.shapes| && a in s1.shapes[i].inherited ensures Present(s1, s1.shapes[i].inherited[a]) {
      assert Present(s, s.shapes[i].inherited[a]);
    }
  }

  lemma RawInRange(s: State, slot: Slot)
    requires WellFormed(s)
    ensures RawOf(s, slot) < |s.shapes|
    ensures slot.Attr? ==> RawOf(s, slot) == NONE || Present(s, RawOf(s, slot))
  {
    if slot in s.heap {
      assert SlotOk(s, slot);
    } else if slot.Attr? && slot.owner < |s.shapes| {
      assert ShapeOk(s.shapes, slot.owner);
    }
  }

  lemma MadeKeepsWellFormed(s: State, w: Id, target: Id)
    requires WellFormed(s) && w < |s.shapes| && s.shapes[w].wrapper.Some?
    requires Present(s, target) && s.shapes[target].isCallable
    ensures WellFormed(Made(s, w, target))
  {
    var s1 := Made(s, w, target);
    forall sl | sl in s1.heap ensures SlotOk(s1, sl) {
      if sl in s.heap { assert SlotOk(s, sl); }
    }
    forall i, a | 0 <= i < |s1.shapes| && a in s1.shapes[i].inherited ensures Present(s1, s1.shapes[i].inherited[a]) {
      assert Present(s, s.shapes[i].inherited[a]);
    }
  }

  lemma BirthIsUnlogged(s0: State, s: State, slot: Slot)
    requires Core(s0, s) && BirthSlot(slot)
    ensures !Logged(NewLog(s0, s), slot)
  {
    forall i | 0 <= i < |NewLog(s0, s)| ensures NewLog(s0, s)[i].slot != slot {
      assert RecordOk(s0, s, NewLog(s0, s)[i]);
    }
  }

  lemma MadeIsAccounted(s0: State, s: State, w: Id, target: Id)
    requires |s0.log| <= |s.log| && Method(w) !in s.heap && forall slot :: Accounted(s0, s, slot)
    requires WellFormed(s) && !Logged(NewLog(s0, s), Method(w))
    ensures forall slot :: Accounted(s0, Made(s, w, target), slot)
  {
    var s1 := Made(s, w, target);
    assert NewLog(s0, s1) == NewLog(s0, s);
    assert Accounted(s0, s, Method(w));
    forall slot ensures Accounted(s0, s1, slot) { assert Accounted(s0, s, slot); }
  }

  lemma MadeKeepsSettled(s0: State, s: State, w: Id, target: Id)
    requires |s0.log| <= |s.log| && Settled(s0, s)
    requires forall i :: 0 <= i < |NewLog(s0, s)| ==> RecordOk(s0, s, NewLog(s0, s)[i])
    ensures var s1 := Made(s, w, target);
            Settled(s0, s1) && forall i :: 0 <= i < |NewLog(s0, s1)| ==> RecordOk(s0, s1, NewLog(s0, s1)[i])
  {
    var s1, l := Made(s, w, target), NewLog(s0, s);
    assert NewLog(s0, s1) == l;
    forall slot | Logged(l, slot) ensures SettledSlot(s0, s1, slot) {
      assert SettledSlot(s0, s, slot);
      var i :| 0 <= i < |l| && l[i].slot == slot;
      assert RecordOk(s0, s, l[i]);
    }
    forall i | 0 <= i < |l| ensures RecordOk(s0, s1, l[i]) { assert RecordOk(s0, s, l[i]); }
  }

  lemma AskedMeans(s: State, o: Id, a: string)
    requires WellFormed(s) && o < |s.shapes| && Asked(s, o, a) != s
    ensures a in s.shapes[o].views && Method(s.shapes[o].views[a]) !in s.heap && s.shapes[o].views[a] < |s.shapes|
    ensures s.shapes[s.shapes[o].views[a]].wrapper == Some(View(o, a))
    ensures var raw := RawOf(s, Attr(Owner(s.shapes, o), a));
            && raw < |s.shapes| && Present(s, raw) && s.shapes[raw].isCallable
            && Asked(s, o, a) == Made(s, s.shapes[o].views[a], raw)
  {
    assert ShapeOk(s.shapes, o);
    RawInRange(s, Attr(Owner(s.shapes, o), a));
  }

  /** Asking a proxy for an attribute changes no slot but those of a wrapper not made before. */
  lemma AskedKeepsCore(s0: State, s: State, o: Id, a: string)
    requires Core(s0, s) && Settled(s0, s) && o < |s.shapes|
    ensures Core(s0, Asked(s, o, a)) && Settled(s0, Asked(s, o, a)) && NewLog(s0, Asked(s, o, a)) == NewLog(s0, s)
  {
    if Asked(s, o, a) != s {
      AskedMeans(s, o, a);
      hide WellFormed, Accounted, RecordOk, Settled, Asked, LogFaithful;
      var w, raw := s.shapes[o].views[a], RawOf(s, Attr(Owner(s.shapes, o), a));
      BirthIsUnlogged(s0, s, Method(w));
      MadeKeepsWellFormed(s, w, raw);
      MadeIsAccounted(s0, s, w, raw);
      MadeKeepsSettled(s0, s, w, raw);
    }
  }

  // ----- the undo theorem ---------------------------------------------------

  /** The first record of every node function holds what its slot held at the start. */
  ghost predicate FirstsRaw(s0: State, l: seq<Entry>) {
    forall slot :: NodeSlot(slot) && Logged(l, slot) ==> l[FirstRecord(l, slot)].saved == RawOf(s0, slot)
  }

  /** Replaying the records of the walk backward makes every slot read as it did before. */
  ghost predicate Undone(s0: State, s: State)
    requires |s0.log| <= |s.log|
  {
    forall slot :: !BirthSlot(slot) ==> Raw(s.shapes, Restore(s.heap, NewLog(s0, s)), slot) == RawOf(s0, slot)
  }

  lemma SlotAfterUndo(s0: State, s: State, slot: Slot)
    requires Core(s0, s) && !BirthSlot(slot)
    ensures var l := NewLog(s0, s);
            Raw(s.shapes, Restore(s.heap, l), slot) ==
            if NodeSlot(slot) && Logged(l, slot) then l[FirstRecord(l, slot)].saved else RawOf(s0, slot)
  {
    var l := NewLog(s0, s);
    if Logged(l, slot) {
      RestoreSets(s.heap, l, slot);
    } else {
      RestoreKeeps(s.heap, l, slot);
      UnloggedReads(s0, s, slot);
    }
  }

  /**
   If the replay comes to its end, it is exact if and only if each node function was first
   handed out as its slot held it.
   */
  lemma UndoneIff(s0: State, s: State)
    requires Core(s0, s)
    ensures Undone(s0, s) <==> FirstsRaw(s0, NewLog(s0, s))
  {
    forall slot | !BirthSlot(slot)
      ensures var l, undone := NewLog(s0, s), Raw(s.shapes, Restore(s.heap, NewLog(s0, s)), slot);
              undone == if NodeSlot(slot) && Logged(l, slot) then l[FirstRecord(l, slot)].saved else RawOf(s0, slot)
    {
      SlotAfterUndo(s0, s, slot);
    }
  }

  /** Then every attribute of every object gives the same object as before, proxies of the user included. */
  lemma UndoIsExact(s0: State, s: State)
    requires Core(s0, s) && FirstsRaw(s0, NewLog(s0, s))
    ensures Undone(s0, s)
    ensures var h := Restore(s.heap, NewLog(s0, s));
            forall o, a :: 0 <= o < |s0.shapes| ==> Get(s.shapes, h, o, a) == Read(s0, o, a)
  {
    UndoneIff(s0, s);
    var h := Restore(s.heap, NewLog(s0, s));
    forall o, a | 0 <= o < |s0.shapes| ensures Get(s.shapes, h, o, a) == Read(s0, o, a) {
      assert ShapeOk(s0.shapes, o);
      RawInRange(s0, Attr(Owner(s0.shapes, o), a));
      assert Raw(s.shapes, h, Attr(Owner(s0.shapes, o), a)) == RawOf(s0, Attr(Owner(s0.shapes, o), a));
    }
  }

  lemma HeapAfterUndo(s0: State, s: State, slot: Slot)
    requires Core(s0, s) && !BirthSlot(slot)
    ensures var l, h := NewLog(s0, s), Restore(s.heap, NewLog(s0, s));
            && (slot in h <==> slot in s0.heap || Logged(l, slot))
            && (slot in s0.heap && !(NodeSlot(slot) && Logged(l, slot)) ==> h[slot] == s0.heap[slot])
            && (NodeSlot(slot) && Logged(l, slot) ==> h[slot] == l[FirstRecord(l, slot)].saved)
  {
    var l := NewLog(s0, s);
    if Logged(l, slot) {
      RestoreSets(s.heap, l, slot);
    } else {
      RestoreKeeps(s.heap, l, slot);
      assert Accounted(s0, s, slot);
    }
  }

  lemma BirthAfterUndo(s0: State, s: State, slot: Slot)
    requires Core(s0, s) && BirthSlot(slot)
    ensures var h := Restore(s.heap, NewLog(s0, s));
            (slot in h <==> slot in s.heap) && (slot in s.heap ==> h[slot] == s.heap[slot])
  {
    BirthIsUnlogged(s0, s, slot);
    RestoreKeeps(s.heap, NewLog(s0, s), slot);
  }

  ghost predicate AllOwned(s0: State, l: seq<Entry>) {
    forall i :: 0 <= i < |l| ==> l[i].slot in s0.heap
  }

  /** No proxy was asked for a wrapper it had not made. */
  ghost predicate NothingMade(s0: State, s: State) {
    forall w :: Method(w) in s.heap ==> Method(w) in s0.heap
  }

  lemma UnmadeIsSame(s0: State, s: State, slot: Slot)
    requires Core(s0, s) && NothingMade(s0, s) && BirthSlot(slot)
    ensures SameSlot(s0, s, slot)
  {
    assert Accounted(s0, s, slot) && Accounted(s0, s, Method(slot.wrapper));
    if slot in s.heap { assert SlotOk(s, slot); }
    if slot in s0.heap { assert SlotOk(s0, slot); }
  }

  /** What one slot of the restored heap holds. */
  ghost predicate RestoredSlot(s0: State, s: State, h: Heap, slot: Slot)
    requires |s0.log| <= |s.log|
  {
    var l := NewLog(s0, s);
    if BirthSlot(slot) then
      && (slot in h <==> slot in s.heap)
      && (NothingMade(s0, s) ==> SameSlot(s0, s, slot)) && (slot in h && slot in s.heap ==> h[slot] == s.heap[slot])
    else
      && (slot in h <==> slot in s0.heap || Logged(l, slot))
      && (slot in h && NodeSlot(slot) && Logged(l, slot) ==> h[slot] == l[FirstRecord(l, slot)].saved)
      && (slot in h && slot in s0.heap && !(NodeSlot(slot) && Logged(l, slot)) ==> h[slot] == s0.heap[slot])
  }

  lemma RestoredSlots(s0: State, s: State, slot: Slot)
    requires Core(s0, s)
    ensures RestoredSlot(s0, s, Restore(s.heap, NewLog(s0, s)), slot)
  {
    if BirthSlot(slot) {
      BirthAfterUndo(s0, s, slot);
      if NothingMade(s0, s) { UnmadeIsSame(s0, s, slot); }
    } else {
      HeapAfterUndo(s0, s, slot);
    }
  }

  lemma IdentityIf(s0: State, s: State, h: Heap)
    requires |s0.log| <= |s.log| && forall slot :: RestoredSlot(s0, s, h, slot)
    requires FirstsRaw(s0, NewLog(s0, s)) && AllOwned(s0, NewLog(s0, s)) && NothingMade(s0, s)
    ensures h == s0.heap
  {
    var l := NewLog(s0, s);
    forall slot ensures slot in h <==> slot in s0.heap
      ensures slot in h && slot in s0.heap ==> h[slot] == s0.heap[slot]
    {
      assert RestoredSlot(s0, s, h, slot);
      if Logged(l, slot) { assert l[FirstRecord(l, slot)].slot == slot; }
    }
    assert h.Keys == s0.heap.Keys;
  }

  lemma IdentityOnlyIf(s0: State, s: State, h: Heap)
    requires |s0.log| <= |s.log| && h == s0.heap && forall slot :: RestoredSlot(s0, s, h, slot)
    requires forall i :: 0 <= i < |NewLog(s0, s)| ==> !BirthSlot(NewLog(s0, s)[i].slot)
    ensures FirstsRaw(s0, NewLog(s0, s)) && AllOwned(s0, NewLog(s0, s)) && NothingMade(s0, s)
  {
    var l := NewLog(s0, s);
    forall i | 0 <= i < |l| ensures l[i].slot in s0.heap {
      assert Logged(l, l[i].slot) && RestoredSlot(s0, s, h, l[i].slot);
    }
    forall w | Method(w) in s.heap ensures Method(w) in s0.heap { assert RestoredSlot(s0, s, h, Method(w)); }
    forall slot | NodeSlot(slot) && Logged(l, slot) ensures l[FirstRecord(l, slot)].saved == RawOf(s0, slot) {
      assert RestoredSlot(s0, s, h, slot);
    }
  }

  /**
   The heap itself, not only what it reads as, is the starting heap exactly when besides
   every overwritten slot existed and no wrapper was made.
   */
  lemma UndoIsIdentityIff(s0: State, s: State)
    requires Core(s0, s)
    ensures Restore(s.heap, NewLog(s0, s)) == s0.heap <==>
            FirstsRaw(s0, NewLog(s0, s)) && AllOwned(s0, NewLog(s0, s)) && NothingMade(s0, s)
  {
    var l, h := NewLog(s0, s), Restore(s.heap, NewLog(s0, s));
    forall slot ensures RestoredSlot(s0, s, h, slot) { RestoredSlots(s0, s, slot); }
    forall i | 0 <= i < |l| ensures !BirthSlot(l[i].slot) { assert RecordOk(s0, s, l[i]); }
    hide Core, RestoredSlot, RecordOk, FirstsRaw, AllOwned, NothingMade;
    if FirstsRaw(s0, l) && AllOwned(s0, l) && NothingMade(s0, s) { IdentityIf(s0, s, h); }
    if h == s0.heap { IdentityOnlyIf(s0, s, h); }
  }

  /** Every attribute the walk may replace is an instance attribute wherever the class also defines it. */
  ghost predicate OwnsSlots(s: State) {
    forall o, a :: 0 <= o < |s.shapes| && a in ["func", "afunc", "bound"] && a in s.shapes[o].inherited
      ==> Attr(o, a) in s.heap
  }

  /** Checked before the call, this is enough for the overwritten slots to have existed. */
  lemma OwnedSlotsUndoToIdentity(s0: State, s: State)
    requires Core(s0, s) && OwnsSlots(s0) && FirstsRaw(s0, NewLog(s0, s))
    ensures AllOwned(s0, NewLog(s0, s))
    ensures Restore(s.heap, NewLog(s0, s)) == s0.heap <==> NothingMade(s0, s)
  {
    var l := NewLog(s0, s);
    forall i | 0 <= i < |l| ensures l[i].slot in s0.heap {
      assert RecordOk(s0, s, l[i]);
      assert Logged(l, l[i].slot);
      var k := FirstRecord(l, l[i].slot);
      assert RecordOk(s0, s, l[k]) && l[k].saved == RawOf(s0, l[i].slot);
    }
    UndoIsIdentityIff(s0, s);
  }

  // ----- when the replay itself is stopped ------------------------------------

  /** The assignment that stopped the walk was refused; its record is the last one. */
  predicate Declined(s0: State, s: State)
    requires |s0.log| <= |s.log|
  {
    var l := NewLog(s0, s);
    l != [] && Rejects(s0.shapes, l[|l| - 1].slot)
  }

  /** And the old value would be too. */
  predicate Refused(s0: State, s: State)
    requires |s0.log| <= |s.log|
  {
    var l := NewLog(s0, s);
    l != [] && Bars(s0.shapes, l[|l| - 1].slot)
  }

  function Unrecorded(s: State): State
    requires s.log != []
  {
    s.(log := s.log[..|s.log| - 1])
  }

  /** Between two steps, or just after a record whose write did not come about. */
  ghost predicate Halted(s0: State, s: State) {
    && Core(s0, s)
    && (|| Settled(s0, s)
        || (NewLog(s0, s) != [] && Core(s0, Unrecorded(s)) && Settled(s0, Unrecorded(s)) &&
            (NewLog(s0, s)[|NewLog(s0, s)| - 1].slot.Item? || Declined(s0, s))))
  }

  lemma NewLogInit(s0: State, s: State)
    requires s0.log <= s.log && NewLog(s0, s) != []
    ensures s0.log <= Unrecorded(s).log
    ensures NewLog(s0, s) == NewLog(s0, Unrecorded(s)) + [NewLog(s0, s)[|NewLog(s0, s)| - 1]]
  {
  }

  lemma SettledAccepts(s0: State, s: State)
    requires |s0.log| <= |s.log| && Settled(s0, s)
    ensures forall i :: 0 <= i < |NewLog(s0, s)| ==> !Rejects(s0.shapes, NewLog(s0, s)[i].slot)
  {
    var l := NewLog(s0, s);
    forall i | 0 <= i < |l| ensures !Rejects(s0.shapes, l[i].slot) {
      assert Logged(l, l[i].slot) && SettledSlot(s0, s, l[i].slot);
    }
  }

  /** An object answers as it did at the start. */
  lemma SameAnswer(s0: State, s: State, i: nat)
    requires Core(s0, s) && i < |NewLog(s0, s)|
    ensures Bars(s.shapes, NewLog(s0, s)[i].slot) <==> Bars(s0.shapes, NewLog(s0, s)[i].slot)
  {
    hide WellFormed, Accounted, LogFaithful;
    assert RecordOk(s0, s, NewLog(s0, s)[i]);
  }

  lemma NoneRefuses(s0: State, s: State)
    requires Halted(s0, s) && !Refused(s0, s)
    ensures forall i :: 0 <= i < |NewLog(s0, s)| ==> !Bars(s.shapes, NewLog(s0, s)[i].slot)
  {
    var l := NewLog(s0, s);
    CoreMeans(s0, s);
    forall i | 0 <= i < |l| ensures Bars(s.shapes, l[i].slot) <==> Bars(s0.shapes, l[i].slot) {
      SameAnswer(s0, s, i);
    }
    hide Core, Settled, Rejects;
    if Settled(s0, s) {
      SettledAccepts(s0, s);
    } else {
      NewLogInit(s0, s);
      SettledAccepts(s0, Unrecorded(s));
      assert forall i :: 0 <= i < |l| - 1 ==> l[i] == NewLog(s0, Unrecorded(s))[i];
    }
  }

  /** Unless the walk was stopped by a refused assignment, the whole log can be replayed. */
  lemma ReplaysUnlessRefused(s0: State, s: State)
    requires Halted(s0, s)
    ensures var l := NewLog(s0, s);
            Replay(s.shapes, s.heap, l) == if Refused(s0, s) then (s.heap, false) else (Restore(s.heap, l), true)
  {
    var l := NewLog(s0, s);
    CoreMeans(s0, s);
    if Refused(s0, s) {
      SameAnswer(s0, s, |l| - 1);
    } else {
      NoneRefuses(s0, s);
      hide Halted, Core;
      ReplayIsRestore(s.shapes, s.heap, l);
    }
  }

  lemma RefusedIsUnsettled(s0: State, s: State)
    requires Halted(s0, s) && Refused(s0, s)
    ensures Core(s0, Unrecorded(s)) && Settled(s0, Unrecorded(s))
    ensures NewLog(s0, Unrecorded(s)) == NewLog(s0, s)[..|NewLog(s0, s)| - 1]
  {
    CoreMeans(s0, s);
    hide Core, WellFormed;
    var l := NewLog(s0, s);
    assert Logged(l, l[|l| - 1].slot) && !SettledSlot(s0, s, l[|l| - 1].slot);
    NewLogInit(s0, s);
  }

  /** After a refused assignment the slots written before it keep what the walk has put there, and no others. */
  lemma RefusedKeeps(s0: State, s: State, slot: Slot)
    requires Halted(s0, s) && Refused(s0, s) && !BirthSlot(slot)
    ensures Core(s0, Unrecorded(s)) && NewLog(s0, Unrecorded(s)) == NewLog(s0, s)[..|NewLog(s0, s)| - 1]
    ensures RawOf(s, slot) == RawOf(s0, slot) <==> !Logged(NewLog(s0, Unrecorded(s)), slot)
  {
    RefusedIsUnsettled(s0, s);
    hide Halted, WellFormed;
    var s1 := Unrecorded(s);
    assert s1.heap == s.heap && s1.shapes == s.shapes;
    if Logged(NewLog(s0, s1), slot) {
      assert SettledSlot(s0, s1, slot);
      CoreMeans(s0, s1);
      RawInRange(s0, slot);
    } else {
      UnloggedReads(s0, s1, slot);
    }
  }

  lemma CoreMeans(s0: State, s: State)
    requires Core(s0, s)
    ensures WellFormed(s0) && WellFormed(s) && s0.shapes <= s.shapes && s0.log <= s.log
  {
  }

  /** So it reads as before the walk if and only if nothing had been written. */
  lemma RefusedUndoneIff(s0: State, s: State)
    requires Halted(s0, s) && Refused(s0, s)
    ensures (forall slot :: !BirthSlot(slot) ==> RawOf(s, slot) == RawOf(s0, slot)) <==> |NewLog(s0, s)| == 1
  {
    RefusedIsUnsettled(s0, s);
    forall slot | !BirthSlot(slot)
      ensures RawOf(s, slot) == RawOf(s0, slot) <==> !Logged(NewLog(s0, Unrecorded(s)), slot)
    {
      RefusedKeeps(s0, s, slot);
    }
    var l1 := NewLog(s0, s)[..|NewLog(s0, s)| - 1];
    if l1 != [] {
      assert RecordOk(s0, Unrecorded(s), l1[0]);
      assert Logged(l1, l1[0].slot);
    }
  }
}
