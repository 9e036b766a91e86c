/**
 The part of the Python object graph that instrumentation reads and writes, and
 the theory of undo logs over it.

 Every object has a number. Number 0 is None, so "getattr(o, a, None) is None"
 reads "Get(...) == NONE". What the walk never changes about an object (its type,
 its closure, its class attributes, ...) is its Shape; what it does change lives
 in the heap, one slot per instance attribute or dict entry.
 */
module ObjectHeap {
  datatype Option<+T> = None | Some(value: T)

  type Id = nat

  const NONE: Id := 0

  /**
   An attribute, a dict entry, or what a span wrapper holds once a proxy has made it: the
   method it stands for, and the mark of a traced node function if functools.wraps has
   copied one.
   */
  datatype Slot = Attr(owner: Id, name: string) | Item(dict: Id, key: string) | Method(wrapper: Id) | Mark(wrapper: Id)

  type Heap = map<Slot, Id>

  datatype Tag = ToolNode | RunnableBinding | RunnableSequence | OtherType

  /** The immutable facts about one object. */
  datatype Shape = Shape(
    tag: Tag,
    isChat: bool,                // _is_chat_model
    isRunnable: bool,            // _is_runnable
    isCallable: bool,            // callable(obj)
    nodeTraced: bool,            // carries _rastir_node_traced
    marked: bool,                // carries _rastir_wrapped
    keys: Option<seq<string>>,   // for a dict: its keys, in insertion order
    items: Option<seq<Id>>,      // for a list or tuple: its elements
    closure: seq<Option<Id>>,    // __closure__; None is a cell not yet filled
    names: seq<string>,          // __code__.co_names
    globals: Option<Id>,         // __globals__
    target: Option<Id>,          // for a wrap() proxy: the object behind it
    views: map<string, Id>,      // for a proxy: the span wrappers it hands out for callable attributes
    wrapper: Option<View>,       // for such a span wrapper, made or not: where it belongs
    inherited: map<string, Id>,  // attributes found on the class
    refuses: map<string, bool>)  // attributes whose assignment raises: true if it always does, false if
                                 // the object still takes back what it held

  datatype View = View(proxy: Id, name: string)

  /** One undo record: the slot about to be overwritten and the value read before. */
  datatype Entry = Entry(slot: Slot, saved: Id)

  /** setattr and getattr on a proxy act on the object behind it. */
  function Owner(shapes: seq<Shape>, o: Id): (r: Id)
    requires o < |shapes|
  {
    if shapes[o].target.Some? then shapes[o].target.value else o
  }

  /** What a slot reads as, class attributes included. */
  function Raw(shapes: seq<Shape>, heap: Heap, slot: Slot): Id {
    if slot in heap then heap[slot]
    else if slot.Attr? && slot.owner < |shapes| && slot.name in shapes[slot.owner].inherited
    then shapes[slot.owner].inherited[slot.name]
    else NONE
  }

  /** getattr(o, a, None) gives this. A proxy replaces a callable it is set to intercept by its span wrapper. */
  function Get(shapes: seq<Shape>, heap: Heap, o: Id, a: string): Id
    requires o < |shapes|
  {
    var raw := Raw(shapes, heap, Attr(Owner(shapes, o), a));
    if shapes[o].target.Some? && a in shapes[o].views && raw < |shapes| && shapes[raw].isCallable
    then shapes[o].views[a]
    else raw
  }

  // ----- undo logs ---------------------------------------------------------

  /** The restore loop: the log is replayed from its last record to its first. */
  function Restore(heap: Heap, log: seq<Entry>): Heap
    decreases |log|
  {
    if log == [] then heap
    else Restore(heap[log[|log| - 1].slot := log[|log| - 1].saved], log[..|log| - 1])
  }

  /** The other replay order, used for LLM interceptors: first record to last. */
  function ReplayForward(heap: Heap, log: seq<Entry>): Heap
    decreases |log|
  {
    if log == [] then heap
    else ReplayForward(heap[log[0].slot := log[0].saved], log[1..])
  }

  /** The object raises when it is given a proxy or a traced function; a dict takes every entry. */
  predicate Rejects(shapes: seq<Shape>, slot: Slot) {
    slot.Attr? && slot.owner < |shapes| && slot.name in shapes[slot.owner].refuses
  }

  /** It raises whatever it is given, what it holds included: there is no setter. */
  predicate Bars(shapes: seq<Shape>, slot: Slot) {
    Rejects(shapes, slot) && shapes[slot.owner].refuses[slot.name]
  }

  /** The restore loop as it is: an assignment that raises ends it. */
  function Replay(shapes: seq<Shape>, heap: Heap, log: seq<Entry>): (r: (Heap, bool))
    decreases |log|
  {
    if log == [] then (heap, true)
    else
      var last := log[|log| - 1];
      if Bars(shapes, last.slot) then (heap, false)
      else Replay(shapes, heap[last.slot := last.saved], log[..|log| - 1])
  }

  /** If nothing in the log refuses, the loop is the whole replay. */
  lemma {:induction false} ReplayIsRestore(shapes: seq<Shape>, heap: Heap, log: seq<Entry>)
    requires forall i :: 0 <= i < |log| ==> !Bars(shapes, log[i].slot)
    ensures Replay(shapes, heap, log) == (Restore(heap, log), true)
    decreases |log|
  {
    if log != [] {
      var last := log[|log| - 1];
      ReplayIsRestore(shapes, heap[last.slot := last.saved], log[..|log| - 1]);
    }
  }

  ghost predicate Logged(log: seq<Entry>, slot: Slot) {
    exists i :: 0 <= i < |log| && log[i].slot == slot
  }

  ghost predicate LoggedOnce(log: seq<Entry>) {
    forall i, j :: 0 <= i < j < |log| ==> log[i].slot != log[j].slot
  }

  /** Position of the first record for a slot. */
  ghost function FirstRecord(log: seq<Entry>, slot: Slot): (i: nat)
    requires Logged(log, slot)
    ensures i < |log| && log[i].slot == slot
    ensures forall j :: 0 <= j < i ==> log[j].slot != slot
  {
    if log[0].slot == slot then 0 else
      assert Logged(log[1..], slot) by {
        var k :| 0 <= k < |log| && log[k].slot == slot;
        assert log[1..][k - 1].slot == slot;
      }
      var i := FirstRecord(log[1..], slot);
      assert forall j :: 1 <= j < i + 1 ==> log[j] == log[1..][j - 1];
      i + 1
  }

  /** Backward replay leaves in every logged slot the value of its FIRST record, whatever the heap held. */
  lemma {:induction false} RestoreSets(heap: Heap, log: seq<Entry>, slot: Slot)
    requires Logged(log, slot)
    ensures slot in Restore(heap, log)
    ensures Restore(heap, log)[slot] == log[FirstRecord(log, slot)].saved
    decreases |log|
  {
    var last, init := log[|log| - 1], log[..|log| - 1];
    var i := FirstRecord(log, slot);
    if i < |init| {
      assert init[i].slot == slot;
      RestoreSets(heap[last.slot := last.saved], init, slot);
      var j := FirstRecord(init, slot);
      assert log[j] == init[j] && log[i] == init[i];
    } else {
      assert !Logged(init, slot);
      RestoreKeeps(heap[last.slot := last.saved], init, slot);
    }
  }

  /** Backward replay touches no other slot. */
  lemma {:induction false} RestoreKeeps(heap: Heap, log: seq<Entry>, slot: Slot)
    requires !Logged(log, slot)
    ensures slot in Restore(heap, log) <==> slot in heap
    ensures slot in heap ==> Restore(heap, log)[slot] == heap[slot]
    decreases |log|
  {
    if log != [] {
      var last, init := log[|log| - 1], log[..|log| - 1];
      assert last.slot != slot;
      assert !Logged(init, slot);
      RestoreKeeps(heap[last.slot := last.saved], init, slot);
    }
  }

  lemma {:induction false} ForwardKeeps(heap: Heap, log: seq<Entry>, slot: Slot)
    requires !Logged(log, slot)
    ensures slot in ReplayForward(heap, log) <==> slot in heap
    ensures slot in heap ==> ReplayForward(heap, log)[slot] == heap[slot]
    decreases |log|
  {
    if log != [] {
      assert log[0].slot != slot;
      assert !Logged(log[1..], slot);
      ForwardKeeps(heap[log[0].slot := log[0].saved], log[1..], slot);
    }
  }

  /** Forward replay leaves the value of the LAST record, so it needs distinct slots to be an undo. */
  lemma {:induction false} ForwardSets(heap: Heap, log: seq<Entry>, i: nat)
    requires i < |log|
    requires forall j :: i < j < |log| ==> log[j].slot != log[i].slot
    ensures log[i].slot in ReplayForward(heap, log)
    ensures ReplayForward(heap, log)[log[i].slot] == log[i].saved
    decreases |log|
  {
    var heap1, tail := heap[log[0].slot := log[0].saved], log[1..];
    if i == 0 {
      assert !Logged(tail, log[0].slot);
      ForwardKeeps(heap1, tail, log[0].slot);
    } else {
      assert tail[i - 1] == log[i];
      assert forall j :: i - 1 < j < |tail| ==> tail[j] == log[j + 1];
      ForwardSets(heap1, tail, i - 1);
    }
  }

  /** With every slot logged once the two replay orders agree on every heap. */
  lemma ForwardIsBackward(heap: Heap, log: seq<Entry>)
    requires LoggedOnce(log)
    ensures ReplayForward(heap, log) == Restore(heap, log)
  {
    var f, b := ReplayForward(heap, log), Restore(heap, log);
    forall slot: Slot
      ensures slot in f <==> slot in b
      ensures slot in f && slot in b ==> f[slot] == b[slot]
    {
      if Logged(log, slot) {
        ForwardSets(heap, log, FirstRecord(log, slot));
        RestoreSets(heap, log, slot);
      } else {
        ForwardKeeps(heap, log, slot);
        RestoreKeeps(heap, log, slot);
      }
    }
    assert f.Keys == b.Keys;
  }

  /** In two logs joined the record that counts for a slot is the first log's, if it has one. */
  lemma FirstRecordSplits(l1: seq<Entry>, l2: seq<Entry>, slot: Slot)
    ensures Logged(l1 + l2, slot) <==> Logged(l1, slot) || Logged(l2, slot)
    ensures Logged(l1, slot) ==> (l1 + l2)[FirstRecord(l1 + l2, slot)] == l1[FirstRecord(l1, slot)]
    ensures !Logged(l1, slot) && Logged(l2, slot) ==> (l1 + l2)[FirstRecord(l1 + l2, slot)] == l2[FirstRecord(l2, slot)]
  {
    var l := l1 + l2;
    if Logged(l1, slot) {
      assert l[FirstRecord(l1, slot)].slot == slot;
    } else if Logged(l2, slot) {
      var k := |l1| + FirstRecord(l2, slot);
      assert l[k].slot == slot;
      forall j | 0 <= j < k ensures l[j].slot != slot {
        if j < |l1| { assert l[j] == l1[j]; } else { assert l[j] == l2[j - |l1|]; }
      }
    } else {
      forall j | 0 <= j < |l| ensures l[j].slot != slot {
        if j < |l1| { assert l[j] == l1[j]; } else { assert l[j] == l2[j - |l1|]; }
      }
    }
  }

  lemma LoggedAppend(l: seq<Entry>, e: Entry, slot: Slot)
    ensures Logged(l + [e], slot) <==> Logged(l, slot) || slot == e.slot
    ensures Logged(l + [e], slot) ==>
              (l + [e])[FirstRecord(l + [e], slot)] == if Logged(l, slot) then l[FirstRecord(l, slot)] else e
  {
    FirstRecordSplits(l, [e], slot);
    if slot == e.slot { assert [e][0].slot == slot; }
  }

  /** What the last record of a slot saved. */
  function LastSaved(l: seq<Entry>, slot: Slot): Id
    decreases |l|
  {
    if l == [] then NONE
    else if l[|l| - 1].slot == slot then l[|l| - 1].saved
    else LastSaved(l[..|l| - 1], slot)
  }

  lemma LastSavedAppend(l: seq<Entry>, e: Entry, slot: Slot)
    ensures LastSaved(l + [e], slot) == if e.slot == slot then e.saved else LastSaved(l, slot)
  {
    assert (l + [e])[..|l|] == l;
  }

  /** Forward replay leaves in every logged slot the value of its LAST record. */
  lemma {:induction false} ForwardTakesLast(heap: Heap, log: seq<Entry>, slot: Slot)
    requires Logged(log, slot)
    ensures slot in ReplayForward(heap, log) && ReplayForward(heap, log)[slot] == LastSaved(log, slot)
    decreases |log|
  {
    var i := LastRecord(log, slot);
    ForwardSets(heap, log, i);
  }

  lemma {:induction false} LastRecord(log: seq<Entry>, slot: Slot) returns (i: nat)
    requires Logged(log, slot)
    ensures i < |log| && log[i].slot == slot && log[i].saved == LastSaved(log, slot)
    ensures forall j :: i < j < |log| ==> log[j].slot != slot
    decreases |log|
  {
    if log[|log| - 1].slot == slot { return |log| - 1; }
    var init := log[..|log| - 1];
    var k :| 0 <= k < |log| && log[k].slot == slot;
    assert init[k].slot == slot;
    i := LastRecord(init, slot);
    assert forall j :: 0 <= j < |init| ==> log[j] == init[j];
  }
}
