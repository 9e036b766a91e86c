/**
 Finding LLM clients around an @llm function, patching their call methods, and
 putting the methods back by replaying the log from front to back.
 Source: src/rastir/llm_discovery.py:244-388.
 */
module LlmInterceptors {
  import opened ObjectHeap

  /** (target_obj, method_name); whether the method is async decides only which wrapper is built. */
  datatype Target = Target(obj: Id, name: string)

  /** What discovery can see of a function and its call. */
  datatype Scope = Scope(args: seq<Id>, kwargs: seq<Id>, cells: seq<Option<Id>>, globals: seq<Option<Id>>)

  function Given(s: seq<Option<Id>>): seq<Id> {
    if s == [] then [] else (if s[0].Some? then [s[0].value] else []) + Given(s[1..])
  }

  /** In the order they are looked at; an empty cell and an unknown global are passed over. */
  function Visible(s: Scope): seq<Id> {
    s.args + s.kwargs + Given(s.cells) + Given(s.globals)
  }

  /** Each object at its first occurrence. */
  function Distinct(s: seq<Id>): seq<Id>
    decreases |s|
  {
    if s == [] then [] else
      var init := Distinct(s[..|s| - 1]);
      if s[|s| - 1] in init then init else init + [s[|s| - 1]]
  }

  lemma {:induction false} DistinctMeans(s: seq<Id>)
    ensures forall x :: x in Distinct(s) <==> x in s
    ensures forall i, j :: 0 <= i < j < |Distinct(s)| ==> Distinct(s)[i] != Distinct(s)[j]
    decreases |s|
  {
    if s != [] {
      assert s == s[..|s| - 1] + [s[|s| - 1]];
      DistinctMeans(s[..|s| - 1]);
    }
  }

  /** How many of the first n cells or names have something in them. */
  function Filled(s: seq<Option<Id>>, n: nat): nat
    requires n <= |s|
  {
    if n == 0 then 0 else Filled(s, n - 1) + if s[n - 1].Some? then 1 else 0
  }

  /** Everything filled is given, in order, and nothing else. */
  lemma {:induction false} GivenAt(s: seq<Option<Id>>)
    ensures |Given(s)| == Filled(s, |s|)
    ensures forall i :: 0 <= i < |s| && s[i].Some? ==> Filled(s, i) < |Given(s)| && Given(s)[Filled(s, i)] == s[i].value
    decreases |s|
  {
    if s != [] {
      var n := |s| - 1;
      assert s == s[..n] + [s[n]];
      GivenSplits(s[..n], [s[n]]);
      assert Given([s[n]]) == if s[n].Some? then [s[n].value] else [];
      GivenAt(s[..n]);
      FilledPrefix(s, n, n);
      forall i | 0 <= i < |s| && s[i].Some?
        ensures Filled(s, i) < |Given(s)| && Given(s)[Filled(s, i)] == s[i].value
      {
        FilledPrefix(s, n, i);
        if i < n { assert s[..n][i] == s[i]; }
      }
    }
  }

  lemma {:induction false} FilledPrefix(s: seq<Option<Id>>, n: nat, i: nat)
    requires i <= n <= |s|
    ensures Filled(s[..n], i) == Filled(s, i)
    decreases i
  {
    if i > 0 { FilledPrefix(s, n, i - 1); }
  }

  /** All that can be seen, and where: positional and keyword arguments, then filled cells, then known globals. */
  lemma VisibleAt(s: Scope)
    ensures var (v, n) := (Visible(s), |s.args| + |s.kwargs|);
            && |v| == n + Filled(s.cells, |s.cells|) + Filled(s.globals, |s.globals|)
            && (forall i :: 0 <= i < |s.args| ==> v[i] == s.args[i])
            && (forall i :: 0 <= i < |s.kwargs| ==> v[|s.args| + i] == s.kwargs[i])
            && (forall i :: 0 <= i < |s.cells| && s.cells[i].Some? ==>
                  n + Filled(s.cells, i) < |v| && v[n + Filled(s.cells, i)] == s.cells[i].value)
            && (forall i :: 0 <= i < |s.globals| && s.globals[i].Some? ==>
                  var k := n + Filled(s.cells, |s.cells|) + Filled(s.globals, i);
                  k < |v| && v[k] == s.globals[i].value)
  {
    GivenAt(s.cells);
    GivenAt(s.globals);
  }

  /** Where x is first found. */
  function FirstAt(s: seq<Id>, x: Id): (k: nat)
    requires x in s
    ensures k < |s| && s[k] == x
  {
    if s[0] == x then 0 else 1 + FirstAt(s[1..], x)
  }

  lemma {:induction false} FirstAtPrefix(s: seq<Id>, n: nat, x: Id)
    requires n <= |s| && x in s
    ensures x in s[..n] ==> FirstAt(s[..n], x) == FirstAt(s, x)
    ensures x !in s[..n] ==> FirstAt(s, x) >= n
    decreases |s|
  {
    if s[0] != x && n > 0 {
      assert s[..n][1..] == s[1..][..n - 1];
      FirstAtPrefix(s[1..], n - 1, x);
      assert x in s[..n] <==> x in s[1..][..n - 1] by {
        if x in s[..n] {
          var k :| 0 <= k < n && s[..n][k] == x;
          assert s[1..][..n - 1][k - 1] == x;
        }
      }
    } else if n > 0 {
      assert s[..n][0] == x;
    }
  }

  /** In the order in which they are first found. */
  lemma {:induction false} DistinctInOrder(s: seq<Id>)
    ensures forall i, j :: 0 <= i < j < |Distinct(s)| ==>
              Distinct(s)[i] in s && Distinct(s)[j] in s && FirstAt(s, Distinct(s)[i]) < FirstAt(s, Distinct(s)[j])
    decreases |s|
  {
    DistinctMeans(s);
    if s != [] {
      var n, d := |s| - 1, Distinct(s);
      var init := Distinct(s[..n]);
      DistinctInOrder(s[..n]);
      DistinctMeans(s[..n]);
      forall i, j | 0 <= i < j < |d| ensures FirstAt(s, d[i]) < FirstAt(s, d[j]) {
        assert d[i] == init[i];
        FirstAtPrefix(s, n, d[i]);
        FirstAtPrefix(s, n, d[j]);
      }
    }
  }

  function Found(recognize: Id -> seq<Target>, objs: seq<Id>): seq<Target>
    decreases |objs|
  {
    if objs == [] then [] else Found(recognize, objs[..|objs| - 1]) + recognize(objs[|objs| - 1])
  }

  lemma {:induction false} GivenSplits(a: seq<Option<Id>>, b: seq<Option<Id>>)
    ensures Given(a + b) == Given(a) + Given(b)
  {
    if a == [] {
      assert a + b == b;
    } else {
      GivenSplits(a[1..], b);
      assert (a + b)[1..] == a[1..] + b;
      var head := if a[0].Some? then [a[0].value] else [];
      var x, y := Given(a[1..]), Given(b);
      assert head + (x + y) == (head + x) + y;
    }
  }

  class Discovery {
    const recognize: Id -> seq<Target>  // the first of the provider recognisers that matches
    var seen: set<Id>
    var targets: seq<Target>
    ghost var checked: seq<Id>

    constructor (recognize: Id -> seq<Target>)
      ensures this.recognize == recognize && Valid() && checked == []
    {
      this.recognize, seen, targets, checked := recognize, {}, [], [];
    }

    ghost predicate Valid()
      reads this
    {
      (forall x :: x in seen <==> x in checked) && targets == Found(recognize, Distinct(checked))
    }

    /** lines 269-279 */
    method Check(obj: Id)
      requires Valid()
      modifies this
      ensures Valid() && checked == old(checked) + [obj]
    {
      DistinctMeans(checked);
      checked := checked + [obj];
      assert checked[..|checked| - 1] == old(checked);
      if obj in seen { return; }
      seen := seen + {obj};
      var found := recognize(obj);
      targets := targets + found;
      assert Distinct(checked)[..|Distinct(checked)| - 1] == Distinct(old(checked));
    }

    method CheckAll(objs: seq<Id>)
      requires Valid()
      modifies this
      ensures Valid() && checked == old(checked) + objs
    {
      for i := 0 to |objs|
        invariant Valid() && checked == old(checked) + objs[..i]
      {
        Check(objs[i]);
        assert objs[..i + 1] == objs[..i] + [objs[i]];
      }
      assert objs[..|objs|] == objs;
    }

    method CheckGiven(objs: seq<Option<Id>>)
      requires Valid()
      modifies this
      ensures Valid() && checked == old(checked) + Given(objs)
    {
      for i := 0 to |objs|
        invariant Valid() && checked == old(checked) + Given(objs[..i])
      {
        assert objs[..i + 1] == objs[..i] + [objs[i]];
        GivenSplits(objs[..i], [objs[i]]);
        if objs[i].Some? { Check(objs[i].value); }
      }
      assert objs[..|objs|] == objs;
    }

    /** lines 260-306: every visible object is looked at once, in order */
    method DiscoverLlmClients(s: Scope) returns (found: seq<Target>)
      requires Valid() && checked == []
      modifies this
      ensures found == Found(recognize, Distinct(Visible(s)))
    {
      CheckAll(s.args);
      assert checked == s.args;
      CheckAll(s.kwargs);
      CheckGiven(s.cells);
      CheckGiven(s.globals);
      assert checked == Visible(s);
      found := targets;
    }
  }

  // ----- patching -------------------------------------------------------------------

  /** setattr succeeds, raises AttributeError or TypeError, or raises something else, as a validating model may. */
  datatype Answer = Takes | Skips | Throws

  /**
   What a class defines for its instances, what its slots make of setattr, the objects
   behind the user's proxies, and the span wrappers these hand out instead of a method.
   */
  datatype Classes = Classes(
    inherited: map<Slot, Id>,
    answer: Slot -> Answer,
    behind: map<Id, Id>,
    wrappers: map<Target, Id>)

  /** getattr(obj, name, None) on an object that is no proxy */
  function ReadSlot(c: Classes, heap: Heap, slot: Slot): Id {
    if slot in heap then heap[slot] else if slot in c.inherited then c.inherited[slot] else NONE
  }

  /** setattr and getattr on a proxy act on the object behind it. */
  function SlotOf(c: Classes, t: Target): Slot { Attr(if t.obj in c.behind then c.behind[t.obj] else t.obj, t.name) }

  /** The target is a user's proxy that hands out its own wrapper. */
  predicate Caught(c: Classes, heap: Heap, t: Target) {
    t.obj in c.behind && t in c.wrappers && ReadSlot(c, heap, SlotOf(c, t)) != NONE
  }

  /** getattr(target_obj, method_name, None) */
  function Handed(c: Classes, heap: Heap, t: Target): Id {
    if Caught(c, heap, t) then c.wrappers[t] else ReadSlot(c, heap, SlotOf(c, t))
  }

  /** No slot leads to an object that has yet to be allocated, and no wrapper is one. */
  ghost predicate Allocated(c: Classes, heap: Heap, marked: set<Id>, next: Id) {
    && 0 < next && (forall i :: i in marked ==> i < next) && (forall slot :: ReadSlot(c, heap, slot) < next)
    && (forall t :: t in c.wrappers ==> 0 < c.wrappers[t] < next)
  }

  lemma OneMoreObject(c: Classes, heap: Heap, marked: set<Id>, next: Id, slot: Slot)
    requires Allocated(c, heap, marked, next)
    ensures Allocated(c, heap, marked + {next}, next + 1) && Allocated(c, heap[slot := next], marked + {next}, next + 1)
  {
    var patched := heap[slot := next];
    forall sl ensures ReadSlot(c, patched, sl) < next + 1 {
      assert ReadSlot(c, heap, sl) < next;
    }
  }

  // ----- what is done, told from where patching starts ---------------------------------------

  /** Where patching starts: "marked" are the callables that carry _rastir_intercepted. */
  datatype Origin = Origin(classes: Classes, heap: Heap, marked: set<Id>, next: Id)

  function HandedAt(o: Origin, t: Target): Id { Handed(o.classes, o.heap, t) }

  function At(o: Origin, t: Target): Slot { SlotOf(o.classes, t) }

  /** What it hands out has not been patched by an enclosing call. */
  predicate Unpatched(o: Origin, t: Target) { HandedAt(o, t) != NONE && HandedAt(o, t) !in o.marked }

  /** A target worth patching whose slot takes assignments. */
  predicate Wanted(o: Origin, t: Target) { Unpatched(o, t) && o.classes.answer(At(o, t)) == Takes }

  /** One whose assignment raises what nobody catches. */
  predicate Blocks(o: Origin, t: Target) { Unpatched(o, t) && o.classes.answer(At(o, t)) == Throws }

  ghost predicate NoneBlocks(o: Origin, targets: seq<Target>) {
    forall i :: 0 <= i < |targets| ==> !Blocks(o, targets[i])
  }

  /** A proxy is patched whatever has been patched before it: its wrapper does not get the mark any more. */
  predicate Diverts(o: Origin, t: Target) { Wanted(o, t) && Caught(o.classes, o.heap, t) }

  /** The records the targets leave: a method itself is patched once, behind a wrapper again for each wrapper. */
  function Records(o: Origin, targets: seq<Target>): seq<Entry>
    decreases |targets|
  {
    if targets == [] then []
    else
      var t, l := targets[|targets| - 1], Records(o, targets[..|targets| - 1]);
      if Diverts(o, t) || (Wanted(o, t) && !SlotLogged(l, At(o, t))) then l + [Entry(At(o, t), HandedAt(o, t))] else l
  }

  predicate SlotLogged(l: seq<Entry>, slot: Slot) {
    exists i :: 0 <= i < |l| && l[i].slot == slot
  }

  ghost predicate Targeted(o: Origin, targets: seq<Target>, slot: Slot) {
    exists i :: 0 <= i < |targets| && At(o, targets[i]) == slot && Wanted(o, targets[i])
  }

  lemma TargetedAppend(o: Origin, ts: seq<Target>, t: Target)
    ensures forall slot ::
              Targeted(o, ts + [t], slot) <==> Targeted(o, ts, slot) || (slot == At(o, t) && Wanted(o, t))
  {
    var b := ts + [t];
    forall slot ensures Targeted(o, b, slot) <==> Targeted(o, ts, slot) || (slot == At(o, t) && Wanted(o, t)) {
      if Targeted(o, ts, slot) {
        var k :| 0 <= k < |ts| && At(o, ts[k]) == slot && Wanted(o, ts[k]);
        assert b[k] == ts[k];
      }
      assert b[|ts|] == t;
    }
  }

  /** Logged are exactly the slots of the targets that are worth patching and take the assignment. */
  lemma {:induction false} RecordsMean(o: Origin, targets: seq<Target>, slot: Slot)
    ensures Logged(Records(o, targets), slot) <==> Targeted(o, targets, slot)
    decreases |targets|
  {
    if targets != [] {
      var init, t := targets[..|targets| - 1], targets[|targets| - 1];
      assert targets == init + [t];
      RecordsMean(o, init, slot);
      TargetedAppend(o, init, t);
      LoggedAppend(Records(o, init), Entry(At(o, t), HandedAt(o, t)), slot);
    }
  }

  // ----- what the forward replay makes of it ---------------------------------------------------

  /** It is the last to divert its slot. */
  ghost predicate LastToDivert(o: Origin, targets: seq<Target>, k: nat)
    requires k < |targets|
  {
    Diverts(o, targets[k]) &&
    forall j :: k < j < |targets| && At(o, targets[j]) == At(o, targets[k]) ==> !Diverts(o, targets[j])
  }

  /** Before the call: whichever proxy comes last for a slot hands out what the slot holds. */
  ghost predicate HandsBack(o: Origin, targets: seq<Target>) {
    forall k :: 0 <= k < |targets| && LastToDivert(o, targets, k) ==>
      HandedAt(o, targets[k]) == ReadSlot(o.classes, o.heap, At(o, targets[k]))
  }

  ghost predicate AnyDiverts(o: Origin, targets: seq<Target>, slot: Slot) {
    exists k :: 0 <= k < |targets| && At(o, targets[k]) == slot && Diverts(o, targets[k])
  }

  /** The last record of a slot holds what the last proxy for it handed out, or the method itself. */
  lemma {:induction false} LastRecordIs(o: Origin, targets: seq<Target>, slot: Slot) returns (k: nat)
    requires Logged(Records(o, targets), slot)
    ensures if AnyDiverts(o, targets, slot)
            then k < |targets| && At(o, targets[k]) == slot && LastToDivert(o, targets, k) &&
                 LastSaved(Records(o, targets), slot) == HandedAt(o, targets[k])
            else LastSaved(Records(o, targets), slot) == ReadSlot(o.classes, o.heap, slot)
    decreases |targets|
  {
    var init, t := targets[..|targets| - 1], targets[|targets| - 1];
    var l, e := Records(o, init), Entry(At(o, t), HandedAt(o, t));
    assert targets == init + [t];
    LastSavedAppend(l, e, slot);
    LoggedAppend(l, e, slot);
    DivertsAppend(o, init, t, slot);
    if At(o, t) == slot && Diverts(o, t) {
      k := |init|;
    } else if Logged(l, slot) {
      k := LastRecordIs(o, init, slot);
      if AnyDiverts(o, init, slot) { LastStays(o, init, t, k); }
    } else {
      k := 0;
      RecordsMean(o, init, slot);
      DivertersAreTargeted(o, init, slot);
    }
  }

  lemma DivertersAreTargeted(o: Origin, ts: seq<Target>, slot: Slot)
    ensures AnyDiverts(o, ts, slot) ==> Targeted(o, ts, slot)
  {
  }

  lemma DivertsAppend(o: Origin, ts: seq<Target>, t: Target, slot: Slot)
    ensures AnyDiverts(o, ts + [t], slot) <==> AnyDiverts(o, ts, slot) || (At(o, t) == slot && Diverts(o, t))
  {
    var b := ts + [t];
    if AnyDiverts(o, ts, slot) {
      var k :| 0 <= k < |ts| && At(o, ts[k]) == slot && Diverts(o, ts[k]);
      assert b[k] == ts[k];
    }
    assert b[|ts|] == t;
  }

  lemma LastStays(o: Origin, ts: seq<Target>, t: Target, k: nat)
    requires k < |ts| && LastToDivert(o, ts, k) && !(At(o, t) == At(o, ts[k]) && Diverts(o, t))
    ensures LastToDivert(o, ts + [t], k)
  {
    assert (ts + [t])[k] == ts[k];
    forall j | k < j < |ts + [t]| && At(o, (ts + [t])[j]) == At(o, ts[k]) ensures !Diverts(o, (ts + [t])[j]) {
      assert (ts + [t])[j] == if j < |ts| then ts[j] else t;
    }
  }

  /** Every patched slot gets back what it held. */
  ghost predicate SavedRaw(o: Origin, l: seq<Entry>) {
    forall slot :: Logged(l, slot) ==> LastSaved(l, slot) == ReadSlot(o.classes, o.heap, slot)
  }

  /**
   The undo is exact if and only if, of the user's proxies that are patched, the last for
   each slot hands out what the slot holds: none of them its own wrapper, in short.
   */
  lemma UndoIsExactIff(o: Origin, targets: seq<Target>)
    ensures SavedRaw(o, Records(o, targets)) <==> HandsBack(o, targets)
  {
    var l := Records(o, targets);
    if HandsBack(o, targets) {
      forall slot | Logged(l, slot) ensures LastSaved(l, slot) == ReadSlot(o.classes, o.heap, slot) {
        var k := LastRecordIs(o, targets, slot);
        if AnyDiverts(o, targets, slot) { assert LastToDivert(o, targets, k); }
      }
    }
    if SavedRaw(o, l) {
      forall k | 0 <= k < |targets| && LastToDivert(o, targets, k)
        ensures HandedAt(o, targets[k]) == ReadSlot(o.classes, o.heap, At(o, targets[k]))
      {
        var slot := At(o, targets[k]);
        RecordsMean(o, targets, slot);
        assert Targeted(o, targets, slot) && AnyDiverts(o, targets, slot);
        var k1 := LastRecordIs(o, targets, slot);
        assert k1 == k by { OneIsLast(o, targets, k, k1); }
      }
    }
  }

  lemma OneIsLast(o: Origin, targets: seq<Target>, k: nat, k1: nat)
    requires k < |targets| && k1 < |targets| && At(o, targets[k]) == At(o, targets[k1])
    requires LastToDivert(o, targets, k) && LastToDivert(o, targets, k1)
    ensures k == k1
  {
  }

  // ----- the restore loop ------------------------------------------------------------------------

  /** What is caught is passed over, anything else ends the loop. Slots may answer otherwise by then. */
  function Replayed(heap: Heap, log: seq<Entry>, later: Slot -> Answer): (Heap, bool)
    decreases |log|
  {
    if log == [] then (heap, true)
    else
      match later(log[0].slot)
      case Takes => Replayed(heap[log[0].slot := log[0].saved], log[1..], later)
      case Skips => Replayed(heap, log[1..], later)
      case Throws => (heap, false)
  }

  ghost predicate NoneThrows(log: seq<Entry>, later: Slot -> Answer) {
    forall i :: 0 <= i < |log| ==> later(log[i].slot) != Throws
  }

  lemma {:induction false} EndsIff(heap: Heap, log: seq<Entry>, later: Slot -> Answer)
    ensures Replayed(heap, log, later).1 <==> NoneThrows(log, later)
    decreases |log|
  {
    if log != [] {
      var h := if later(log[0].slot) == Takes then heap[log[0].slot := log[0].saved] else heap;
      EndsIff(h, log[1..], later);
      assert NoneThrows(log, later) <==> later(log[0].slot) != Throws && NoneThrows(log[1..], later) by {
        if NoneThrows(log, later) {
          forall i | 0 <= i < |log[1..]| ensures later(log[1..][i].slot) != Throws { assert log[1..][i] == log[i + 1]; }
        }
        if later(log[0].slot) != Throws && NoneThrows(log[1..], later) {
          forall i | 0 <= i < |log| ensures later(log[i].slot) != Throws {
            if i > 0 { assert log[1..][i - 1] == log[i]; }
          }
        }
      }
    }
  }

  /** If the loop comes to its end, a slot gets the value of its last record exactly if it takes it. */
  lemma {:induction false} ReplayedSlot(heap: Heap, log: seq<Entry>, later: Slot -> Answer, slot: Slot)
    requires NoneThrows(log, later)
    ensures var h := Replayed(heap, log, later).0;
            if Logged(log, slot) && later(slot) == Takes then slot in h && h[slot] == LastSaved(log, slot)
            else (slot in h <==> slot in heap) && (slot in heap ==> h[slot] == heap[slot])
    decreases |log|
  {
    if log != [] {
      var e, tail := log[0], log[1..];
      assert log == [e] + tail;
      var h := if later(e.slot) == Takes then heap[e.slot := e.saved] else heap;
      assert NoneThrows(tail, later) by {
        forall i | 0 <= i < |tail| ensures later(tail[i].slot) != Throws { assert tail[i] == log[i + 1]; }
      }
      assert later(e.slot) != Throws;
      ReplayedSlot(h, tail, later, slot);
      FirstRecordSplits([e], tail, slot);
      LastOfRest(e, tail, slot);
    }
  }

  lemma {:induction false} LastOfRest(e: Entry, tail: seq<Entry>, slot: Slot)
    ensures LastSaved([e] + tail, slot) == if Logged(tail, slot) then LastSaved(tail, slot)
                                           else if e.slot == slot then e.saved else NONE
    ensures Logged([e], slot) <==> e.slot == slot
    decreases |tail|
  {
    assert e.slot == slot ==> [e][0].slot == slot;
    if tail == [] {
      assert [e] + tail == [e];
      assert [e][..0] == [];
    } else {
      var init, last := tail[..|tail| - 1], tail[|tail| - 1];
      assert [e] + tail == ([e] + init) + [last];
      assert tail == init + [last];
      LastOfRest(e, init, slot);
      LastSavedAppend([e] + init, last, slot);
      LastSavedAppend(init, last, slot);
      LoggedAppend(init, last, slot);
    }
  }

  lemma {:induction false} TakenIsForward(heap: Heap, log: seq<Entry>, later: Slot -> Answer)
    requires forall i :: 0 <= i < |log| ==> later(log[i].slot) == Takes
    ensures Replayed(heap, log, later) == (ReplayForward(heap, log), true)
    decreases |log|
  {
    if log != [] {
      assert forall i :: 0 <= i < |log[1..]| ==> log[1..][i] == log[i + 1];
      assert later(log[0].slot) == Takes;
      TakenIsForward(heap[log[0].slot := log[0].saved], log[1..], later);
    }
  }

  /** Without diverting proxies no slot is logged twice. */
  lemma {:induction false} RecordsOnce(o: Origin, targets: seq<Target>)
    requires forall k :: 0 <= k < |targets| ==> !Diverts(o, targets[k])
    ensures LoggedOnce(Records(o, targets))
    decreases |targets|
  {
    if targets != [] {
      var init := targets[..|targets| - 1];
      assert forall k :: 0 <= k < |init| ==> init[k] == targets[k];
      RecordsOnce(o, init);
    }
  }

  /** Only then is it all the same that the log is replayed from its front. */
  lemma OrderIsFree(o: Origin, targets: seq<Target>, heap: Heap, later: Slot -> Answer)
    requires forall k :: 0 <= k < |targets| ==> !Diverts(o, targets[k])
    requires forall i :: 0 <= i < |Records(o, targets)| ==> later(Records(o, targets)[i].slot) == Takes
    ensures Replayed(heap, Records(o, targets), later) == (Restore(heap, Records(o, targets)), true)
  {
    RecordsOnce(o, targets);
    TakenIsForward(heap, Records(o, targets), later);
    ForwardIsBackward(heap, Records(o, targets));
  }

  // ----- the state of patching -------------------------------------------------------------------

  /** What has been done since is what the log says. */
  ghost predicate Patched(o: Origin, heap: Heap, marked: set<Id>, log: seq<Entry>) {
    && o.marked <= marked && (forall i :: i in marked ==> i in o.marked || i >= o.next)
    && (forall slot :: Logged(log, slot) ==>
          slot in heap && heap[slot] in marked && heap[slot] >= o.next && ReadSlot(o.classes, o.heap, slot) != NONE &&
          o.classes.answer(slot) == Takes)
    && (forall slot :: !Logged(log, slot) ==> (slot in heap <==> slot in o.heap))
    && (forall slot :: !Logged(log, slot) && slot in heap ==> heap[slot] == o.heap[slot])
  }

  /** Each patched slot holds an interceptor that calls what its last record has saved. */
  ghost predicate Intercepting(calls: map<Id, Id>, heap: Heap, log: seq<Entry>) {
    forall slot :: Logged(log, slot) ==>
      slot in heap && heap[slot] in calls && calls[heap[slot]] == LastSaved(log, slot)
  }

  lemma InterceptsMore(o: Origin, calls: map<Id, Id>, heap: Heap, marked: set<Id>, log: seq<Entry>, e: Entry, next: Id)
    requires Patched(o, heap, marked, log) && Intercepting(calls, heap, log) && forall i :: i in marked ==> i < next
    ensures Intercepting(calls[next := e.saved], heap[e.slot := next], log + [e])
    ensures Intercepting(calls[next := e.saved], heap, log)
  {
    forall slot | Logged(log + [e], slot)
      ensures heap[e.slot := next][slot] in calls[next := e.saved]
      ensures calls[next := e.saved][heap[e.slot := next][slot]] == LastSaved(log + [e], slot)
    {
      LoggedAppend(log, e, slot);
      LastSavedAppend(log, e, slot);
    }
  }

  /** What a target hands out now: an interceptor if its slot was patched and it is no proxy, else what it did. */
  lemma HandsNow(o: Origin, heap: Heap, marked: set<Id>, log: seq<Entry>, t: Target)
    requires Patched(o, heap, marked, log) && Allocated(o.classes, o.heap, o.marked, o.next)
    ensures var v := Handed(o.classes, heap, t);
            && (Caught(o.classes, heap, t) <==> Caught(o.classes, o.heap, t))
            && (v == NONE || v in marked <==>
                !Unpatched(o, t) || (Logged(log, At(o, t)) && !Caught(o.classes, o.heap, t)))
            && (v != NONE && v !in marked ==> v == HandedAt(o, t))
            && (Logged(log, At(o, t)) ==> o.classes.answer(At(o, t)) == Takes)
  {
    var slot := At(o, t);
    assert ReadSlot(o.classes, o.heap, slot) < o.next;
    if Logged(log, slot) { assert slot in heap && heap[slot] in marked; }
  }

  lemma RecordsStep(o: Origin, targets: seq<Target>, i: nat)
    requires i < |targets|
    ensures var t, l := targets[i], Records(o, targets[..i]);
            Records(o, targets[..i + 1]) ==
            if Diverts(o, t) || (Wanted(o, t) && !Logged(l, At(o, t))) then l + [Entry(At(o, t), HandedAt(o, t))] else l
  {
    assert targets[..i + 1][..i] == targets[..i];
  }

  lemma MarkedMore(o: Origin, heap: Heap, marked: set<Id>, log: seq<Entry>, interceptor: Id)
    requires Patched(o, heap, marked, log) && interceptor >= o.next
    ensures Patched(o, heap, marked + {interceptor}, log)
  {
  }

  /** One more record and interceptor. */
  lemma PatchKeeps(o: Origin, heap: Heap, marked: set<Id>, log: seq<Entry>, t: Target, interceptor: Id)
    requires Patched(o, heap, marked, log) && interceptor >= o.next && Wanted(o, t)
    ensures Patched(o, heap[At(o, t) := interceptor], marked + {interceptor}, log + [Entry(At(o, t), HandedAt(o, t))])
  {
    var e := Entry(At(o, t), HandedAt(o, t));
    forall slot ensures Logged(log + [e], slot) <==> Logged(log, slot) || slot == e.slot { LoggedAppend(log, e, slot); }
  }

  /**
   getattr(): a proxy makes its wrapper on first access, and functools.wraps copies the
   mark of what it is made over.
   */
  function Made(c: Classes, heap: Heap, made: set<Id>, marked: set<Id>, t: Target): (set<Id>, set<Id>) {
    if !Caught(c, heap, t) || c.wrappers[t] in made then (made, marked)
    else
      (made + {c.wrappers[t]}, if ReadSlot(c, heap, SlotOf(c, t)) in marked then marked + {c.wrappers[t]} else marked)
  }

  /** The recognisers ask hasattr() for every target they name, before anything is patched. */
  function Probed(c: Classes, heap: Heap, made: set<Id>, marked: set<Id>, targets: seq<Target>): (set<Id>, set<Id>)
    decreases |targets|
  {
    if targets == [] then (made, marked)
    else
      var (made1, marked1) := Probed(c, heap, made, marked, targets[..|targets| - 1]);
      Made(c, heap, made1, marked1, targets[|targets| - 1])
  }

  ghost predicate AllMade(c: Classes, heap: Heap, made: set<Id>, targets: seq<Target>) {
    forall k :: 0 <= k < |targets| && Caught(c, heap, targets[k]) ==> c.wrappers[targets[k]] in made
  }

  lemma {:induction false} ProbedMeans(c: Classes, heap: Heap, made: set<Id>, marked: set<Id>, next: Id,
                                       targets: seq<Target>)
    requires Allocated(c, heap, marked, next)
    ensures var (made1, marked1) := Probed(c, heap, made, marked, targets);
            made <= made1 && marked <= marked1 && Allocated(c, heap, marked1, next) && AllMade(c, heap, made1, targets)
    decreases |targets|
  {
    if targets != [] { ProbedMeans(c, heap, made, marked, next, targets[..|targets| - 1]); }
  }

  lemma MadeAlready(c: Classes, heap: Heap, made: set<Id>, targets: seq<Target>, i: nat)
    requires i < |targets| && AllMade(c, heap, made, targets)
    ensures Caught(c, heap, targets[i]) ==> c.wrappers[targets[i]] in made
  {
  }

  class Patcher {
    const classes: Classes
    var heap: Heap
    var intercepted: set<Id>  // callables that carry _rastir_intercepted
    var calls: map<Id, Id>    // what each interceptor made here calls
    var made: set<Id>         // span wrappers in the caches of their proxies
    var next: Id              // the next object to be allocated
    var originals: seq<Entry>

    constructor (classes: Classes, heap: Heap, intercepted: set<Id>, made: set<Id>, next: Id)
      requires Allocated(classes, heap, intercepted, next)
      ensures Valid() && originals == []
      ensures this.classes == classes && this.heap == heap && this.intercepted == intercepted
      ensures this.made == made && this.next == next
    {
      this.classes, this.heap, this.intercepted, this.made, this.next := classes, heap, intercepted, made, next;
      originals, calls := [], map[];
    }

    ghost predicate Valid()
      reads this
    {
      Allocated(classes, heap, intercepted, next)
    }

    ghost function Start(): Origin
      reads this
    {
      Origin(classes, heap, intercepted, next)
    }

    /** Where patching starts, discovery being over. */
    ghost function AfterDiscovery(targets: seq<Target>): Origin
      reads this
    {
      Origin(classes, heap, Probed(classes, heap, made, intercepted, targets).1, next)
    }

    method Fetch(t: Target) returns (v: Id)
      modifies this`made, this`intercepted
      ensures v == Handed(classes, heap, t)
      ensures (made, intercepted) == Made(classes, heap, old(made), old(intercepted), t)
    {
      var slot := SlotOf(classes, t);
      v := ReadSlot(classes, heap, slot);
      if t.obj in classes.behind && t in classes.wrappers && v != NONE {
        var wrapper := classes.wrappers[t];
        if wrapper !in made {
          made := made + {wrapper};
          if v in intercepted { intercepted := intercepted + {wrapper}; }
        }
        v := wrapper;
      }
    }

    /** The part of discovery that shows: hasattr(target_obj, method_name) */
    method Probe(targets: seq<Target>)
      requires Valid()
      modifies this`made, this`intercepted
      ensures Valid() && AllMade(classes, heap, made, targets)
      ensures (made, intercepted) == Probed(classes, heap, old(made), old(intercepted), targets)
    {
      ProbedMeans(classes, heap, made, intercepted, next, targets);
      for i := 0 to |targets|
        invariant (made, intercepted) == Probed(classes, heap, old(made), old(intercepted), targets[..i])
      {
        var v := Fetch(targets[i]);
        assert targets[..i + 1][..i] == targets[..i];
      }
      assert targets[..|targets|] == targets;
    }

    /** lines 363-378, for one target; an exception other than the two caught leaves the method */
    method Patch(targets: seq<Target>, i: nat, ghost o: Origin) returns (ok: bool)
      requires Valid() && i < |targets| && o.classes == classes && o.next <= next
      requires Allocated(o.classes, o.heap, o.marked, o.next) && Patched(o, heap, intercepted, originals)
      requires originals == Records(o, targets[..i]) && AllMade(classes, o.heap, made, targets)
      requires Intercepting(calls, heap, originals)
      modifies this`heap, this`intercepted, this`calls, this`made, this`next, this`originals
      ensures Valid() && o.next <= next && Patched(o, heap, intercepted, originals) && made == old(made)
      ensures Intercepting(calls, heap, originals) && (ok <==> !Blocks(o, targets[i]))
      ensures originals == Records(o, if ok then targets[..i + 1] else targets[..i])
    {
      hide Patched, Intercepting, Records, AllMade;
      var t := targets[i];
      MadeAlready(classes, o.heap, made, targets, i);
      HandsNow(o, heap, intercepted, originals, t);
      RecordsStep(o, targets, i);
      var original := Fetch(t);
      if original == NONE || original in intercepted { return true; }
      var slot, interceptor := SlotOf(classes, t), next;
      OneMoreObject(classes, heap, intercepted, next, slot);
      InterceptsMore(o, calls, heap, intercepted, originals, Entry(slot, original), next);
      MarkedMore(o, heap, intercepted, originals, interceptor);
      calls := calls[interceptor := original];
      match classes.answer(slot) {
        case Takes =>
          PatchKeeps(o, heap, intercepted, originals, t, interceptor);
          heap := heap[slot := interceptor];
          originals := originals + [Entry(slot, original)];
          ok := true;
        case Skips =>
          ok := true;
        case Throws =>
          ok := false;
      }
      next := next + 1;
      intercepted := intercepted + {interceptor};
    }

    /**
     lines 352-379: the targets before the first that blocks leave the records told from
     the start. If a target blocks, the list is lost with the exception.
     */
    method InstallInterceptors(targets: seq<Target>) returns (ok: bool, ghost n: nat)
      requires Valid() && originals == [] && AllMade(classes, heap, made, targets)
      modifies this`heap, this`intercepted, this`calls, this`made, this`next, this`originals
      ensures Valid() && made == old(made) && Patched(old(Start()), heap, intercepted, originals)
      ensures Intercepting(calls, heap, originals)
      ensures var o := old(Start());
              && n <= |targets| && NoneBlocks(o, targets[..n]) && (n < |targets| ==> Blocks(o, targets[n]))
              && (ok <==> n == |targets|) && (ok <==> NoneBlocks(o, targets)) && originals == Records(o, targets[..n])
    {
      ghost var o := Start();
      assert Patched(o, heap, intercepted, originals);
      for i := 0 to |targets|
        invariant Valid() && o.next <= next && Patched(o, heap, intercepted, originals) && made == old(made)
        invariant NoneBlocks(o, targets[..i]) && originals == Records(o, targets[..i])
        invariant Intercepting(calls, heap, originals)
      {
        ok := Patch(targets, i, o);
        if !ok { return false, i; }
        assert targets[..i + 1] == targets[..i] + [targets[i]];
      }
      assert targets[..|targets|] == targets;
      return true, |targets|;
    }

    /** Discovery, then installation: decorators.py:473-474 */
    method Instrument(targets: seq<Target>) returns (ok: bool, ghost n: nat)
      requires Valid() && originals == []
      modifies this`heap, this`intercepted, this`calls, this`made, this`next, this`originals
      ensures Valid() && Patched(old(AfterDiscovery(targets)), heap, intercepted, originals)
      ensures Intercepting(calls, heap, originals)
      ensures var o := old(AfterDiscovery(targets));
              && Allocated(o.classes, o.heap, o.marked, o.next)
              && n <= |targets| && NoneBlocks(o, targets[..n]) && (n < |targets| ==> Blocks(o, targets[n]))
              && (ok <==> n == |targets|) && (ok <==> NoneBlocks(o, targets)) && originals == Records(o, targets[..n])
    {
      hide Patched, Allocated, NoneBlocks, Blocks, Records, Probed, AllMade;
      Probe(targets);
      ok, n := InstallInterceptors(targets);
    }

    /** lines 382-388: from the first record to the last, passing over what cannot be assigned */
    method RestoreOriginals(later: Slot -> Answer) returns (ok: bool)
      modifies this`heap
      ensures (heap, ok) == Replayed(old(heap), originals, later)
      ensures ok <==> NoneThrows(originals, later)
    {
      EndsIff(heap, originals, later);
      assert originals[0..] == originals;
      for i := 0 to |originals|
        invariant Replayed(heap, originals[i..], later) == Replayed(old(heap), originals, later)
      {
        assert originals[i..][1..] == originals[i + 1..];
        match later(originals[i].slot) {
          case Takes => heap := heap[originals[i].slot := originals[i].saved];
          case Skips =>
          case Throws => return false;
        }
      }
      ok := true;
    }

    /**
     decorators.py:473-487: discover, patch, run the function, put back. The function runs
     under "given", in which every logged slot holds an interceptor made by this call.
     "later" is what the slots make of an assignment by then. If a target blocks, the
     function is not run and what was patched before it stays patched.
     */
    method RunPatched(targets: seq<Target>, body: Heap -> Heap, later: Slot -> Answer)
      returns (ok: bool, ghost n: nat, ghost given: Heap, restored: bool)
      requires Valid() && originals == []
      modifies this
      ensures var o := old(AfterDiscovery(targets));
              && n <= |targets| && NoneBlocks(o, targets[..n]) && (n < |targets| ==> Blocks(o, targets[n]))
              && (ok <==> n == |targets|) && (ok <==> NoneBlocks(o, targets)) && originals == Records(o, targets[..n])
              && (forall slot ::
                    !Logged(originals, slot) ==> ReadSlot(classes, given, slot) == old(ReadSlot(classes, heap, slot)))
              && Patched(o, given, intercepted, originals) && Intercepting(calls, given, originals)
              && (ok ==> (heap, restored) == Replayed(body(given), originals, later))
              // each patched slot that takes the assignment reads as before if and only if its last record says so
              && (ok && NoneThrows(originals, later) ==>
                    && restored
                    && (forall slot :: ReadSlot(classes, heap, slot) ==
                          if Logged(originals, slot) && later(slot) == Takes then LastSaved(originals, slot)
                          else ReadSlot(classes, body(given), slot)))
              && (SavedRaw(o, originals) <==> HandsBack(o, targets[..n]))
              && (ok && restored ==> NoneThrows(originals, later))
              && (!ok ==>
                    && heap == given && !restored
                    && forall slot ::
                         (ReadSlot(classes, heap, slot) == old(ReadSlot(classes, heap, slot)) <==>
                          !Logged(originals, slot)))
    {
      hide NoneBlocks, Blocks, Records, Probed, HandsBack, SavedRaw, NoneThrows, Allocated, Patched;
      hide Intercepting, Replayed;
      ghost var o := AfterDiscovery(targets);
      ok, n := Instrument(targets);
      given := heap;
      UndoIsExactIff(o, targets[..n]);
      LostPatches(o, heap, intercepted, originals);
      restored := false;
      if !ok { return; }
      heap := body(heap);
      ghost var used := heap;
      restored := RestoreOriginals(later);
      if restored {
        forall slot
          ensures ReadSlot(classes, heap, slot) ==
                  if Logged(originals, slot) && later(slot) == Takes then LastSaved(originals, slot)
                  else ReadSlot(classes, used, slot)
        {
          ReplayedSlot(used, originals, later, slot);
        }
      }
    }
  }

  /** Without a restore a slot reads as before if and only if it was not patched. */
  lemma LostPatches(o: Origin, heap: Heap, marked: set<Id>, log: seq<Entry>)
    requires Patched(o, heap, marked, log) && Allocated(o.classes, o.heap, o.marked, o.next)
    ensures forall slot ::
              (ReadSlot(o.classes, heap, slot) == ReadSlot(o.classes, o.heap, slot) <==> !Logged(log, slot))
  {
    forall slot
      ensures (ReadSlot(o.classes, heap, slot) == ReadSlot(o.classes, o.heap, slot)) == !Logged(log, slot)
    {
      assert ReadSlot(o.classes, o.heap, slot) < o.next;
    }
  }

  /**
   The heap itself comes back, and not only what is read from it, if and only if besides
   every patched method was the instance's own: one found on the class stays behind as an
   attribute of the instance.
   */
  lemma HeapComesBackIff(o: Origin, given: Heap, marked: set<Id>, log: seq<Entry>, later: Slot -> Answer)
    requires Patched(o, given, marked, log) && forall i :: 0 <= i < |log| ==> later(log[i].slot) == Takes
    ensures Replayed(given, log, later).0 == o.heap <==>
            SavedRaw(o, log) && forall i :: 0 <= i < |log| ==> log[i].slot in o.heap
  {
    var back := Replayed(given, log, later).0;
    forall slot
      ensures slot in back <==> slot in o.heap || Logged(log, slot)
      ensures slot in back ==> back[slot] == if Logged(log, slot) then LastSaved(log, slot) else o.heap[slot]
    {
      ReplayedSlot(given, log, later, slot);
    }
    forall i | 0 <= i < |log| ensures Logged(log, log[i].slot) {
    }
    if SavedRaw(o, log) && forall i :: 0 <= i < |log| ==> log[i].slot in o.heap {
      forall slot ensures slot in back <==> slot in o.heap
        ensures slot in back && slot in o.heap ==> back[slot] == o.heap[slot]
      {
        if Logged(log, slot) { assert log[FirstRecord(log, slot)].slot == slot; }
      }
      assert back.Keys == o.heap.Keys;
    }
    if back == o.heap {
      forall slot | Logged(log, slot) ensures LastSaved(log, slot) == ReadSlot(o.classes, o.heap, slot) {
        assert slot in back;
      }
    }
  }

  // ----- small cases ------------------------------------------------------------------------------

  /** Two clients, the second a validating model: its exception leaves the first one's method 3 replaced for good. */
  method SecondTargetBlocks() returns (ok: bool, method0: Id)
    ensures !ok && method0 != 3
  {
    var create, run := Attr(1, "create"), Attr(2, "run");
    var classes := Classes(map[], slot => if slot == Attr(2, "run") then Throws else Takes, map[], map[]);
    var p := new Patcher(classes, map[create := 3, run := 4], {}, {}, 5);
    var targets := [Target(1, "create"), Target(2, "run")];
    NoWrappers(p.classes, p.heap, p.made, p.intercepted, targets);
    ghost var o := p.Start();
    assert Blocks(o, targets[1]) && Wanted(o, targets[0]) && !Blocks(o, targets[0]);
    ghost var n, given;
    var restored;
    ok, n, given, restored := p.RunPatched(targets, h => h, slot => Takes);
    assert n == 1;
    RecordsMean(o, targets[..n], create);
    assert At(o, targets[..n][0]) == create && Wanted(o, targets[..n][0]);
    method0 := ReadSlot(p.classes, p.heap, create);
  }

  lemma {:induction false} NoWrappers(c: Classes, heap: Heap, made: set<Id>, marked: set<Id>, targets: seq<Target>)
    requires c.wrappers == map[]
    ensures Probed(c, heap, made, marked, targets) == (made, marked)
    decreases |targets|
  {
    if targets != [] { NoWrappers(c, heap, made, marked, targets[..|targets| - 1]); }
  }

  /**
   The user has assigned client.messages = wrap(client.messages): proxy 2 of resource 1, whose
   method is 3. After the call the resource itself has the proxy's wrapper 4 for a method.
   */
  method ProxiedClient() returns (ok: bool, restored: bool, method0: Id)
    ensures ok && restored && method0 == 4
  {
    var create := Attr(1, "create");
    var t := Target(2, "create");
    var p := new Patcher(Classes(map[], slot => Takes, map[2 := 1], map[t := 4]), map[create := 3], {}, {}, 5);
    var targets := [t];
    assert targets[..0] == [] && targets[..1] == targets;
    assert Probed(p.classes, p.heap, p.made, p.intercepted, targets[..0]) == (p.made, p.intercepted);
    assert Probed(p.classes, p.heap, p.made, p.intercepted, targets).1 == {};
    ghost var o := p.Start();
    assert Diverts(o, t) && At(o, t) == create && HandedAt(o, t) == 4;
    OneRecord(o, t);
    assert forall i :: 0 <= i < |targets| ==> !Blocks(o, targets[i]);
    ghost var n, given;
    ok, n, given, restored := p.RunPatched(targets, h => h, slot => Takes);
    assert p.originals[0].slot == create;
    method0 := ReadSlot(p.classes, p.heap, create);
  }

  lemma OneRecord(o: Origin, t: Target)
    requires Diverts(o, t)
    ensures Records(o, [t]) == [Entry(At(o, t), HandedAt(o, t))]
  {
    assert [t][..0] == [];
    assert [] + [Entry(At(o, t), HandedAt(o, t))] == [Entry(At(o, t), HandedAt(o, t))];
  }

  /**
   With the resource itself as an earlier target its method 3 is logged first: replayed
   from its end, the log would put it back; from its front, it leaves the wrapper.
   */
  lemma ResourceThenProxy(heap: Heap)
    ensures var c := Classes(map[], slot => Takes, map[2 := 1], map[Target(2, "create") := 4]);
            var o := Origin(c, map[Attr(1, "create") := 3], {}, 5);
            var l := Records(o, [Target(1, "create"), Target(2, "create")]);
            && l == [Entry(Attr(1, "create"), 3), Entry(Attr(1, "create"), 4)]
            && Attr(1, "create") in Restore(heap, l) && Restore(heap, l)[Attr(1, "create")] == 3
            && Attr(1, "create") in ReplayForward(heap, l) && ReplayForward(heap, l)[Attr(1, "create")] == 4
  {
    var c := Classes(map[], slot => Takes, map[2 := 1], map[Target(2, "create") := 4]);
    var o, a, b := Origin(c, map[Attr(1, "create") := 3], {}, 5), Target(1, "create"), Target(2, "create");
    var slot := Attr(1, "create");
    assert Wanted(o, a) && !Diverts(o, a) && At(o, a) == slot && HandedAt(o, a) == 3;
    assert Diverts(o, b) && At(o, b) == slot && HandedAt(o, b) == 4;
    assert [a, b][..1] == [a] && [a][..0] == [] && Records(o, []) == [];
    assert Records(o, [a]) == [Entry(slot, 3)];
    var l := [Entry(slot, 3), Entry(slot, 4)];
    assert Records(o, [a, b]) == l;
    assert l[0].slot == slot && FirstRecord(l, slot) == 0;
    RestoreSets(heap, l, slot);
    ForwardTakesLast(heap, l, slot);
  }
}
