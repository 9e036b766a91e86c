/**
 Which node functions a walk rewrites, worked out from the starting state and from what
 the graph's nodes give as their runnables, and when undoing that is exact.
 Source: src/rastir/langgraph_support.py:186-197 and 302-366.
 */
module LangGraphPlan {
  import opened ObjectHeap
  import opened LangGraphState

  // ----- the node functions in a log ------------------------------------------

  function NodePart(l: seq<Entry>): seq<Entry>
    decreases |l|
  {
    if l == [] then []
    else NodePart(l[..|l| - 1]) + if NodeSlot(l[|l| - 1].slot) then [l[|l| - 1]] else []
  }

  /** How often a slot was logged. */
  function Times(l: seq<Entry>, slot: Slot): nat
    decreases |l|
  {
    if l == [] then 0 else Times(l[..|l| - 1], slot) + if l[|l| - 1].slot == slot then 1 else 0
  }

  lemma NodePartAppend(l: seq<Entry>, e: Entry)
    ensures NodePart(l + [e]) == if NodeSlot(e.slot) then NodePart(l) + [e] else NodePart(l)
  {
    assert (l + [e])[..|l|] == l;
    assert NodePart(l) + [] == NodePart(l);
  }

  lemma TimesAppend(l: seq<Entry>, e: Entry, slot: Slot)
    ensures Times(l + [e], slot) == Times(l, slot) + if e.slot == slot then 1 else 0
  {
    assert (l + [e])[..|l|] == l;
  }

  /** Leaving out what is no node function neither hides a node function nor changes its records. */
  lemma {:induction false} NodePartKeeps(l: seq<Entry>, slot: Slot)
    requires NodeSlot(slot)
    ensures Logged(NodePart(l), slot) <==> Logged(l, slot)
    ensures Logged(l, slot) ==> NodePart(l)[FirstRecord(NodePart(l), slot)] == l[FirstRecord(l, slot)]
    ensures Times(NodePart(l), slot) == Times(l, slot)
    decreases |l|
  {
    if l != [] {
      var init, e := l[..|l| - 1], l[|l| - 1];
      assert l == init + [e];
      NodePartKeeps(init, slot);
      NodePartAppend(init, e);
      LoggedAppend(init, e, slot);
      LoggedAppend(NodePart(init), e, slot);
      TimesAppend(init, e, slot);
      TimesAppend(NodePart(init), e, slot);
    }
  }

  lemma {:induction false} NodePartLast(l: seq<Entry>, slot: Slot)
    requires NodeSlot(slot)
    ensures LastSaved(NodePart(l), slot) == LastSaved(l, slot)
    decreases |l|
  {
    if l != [] {
      var init, e := l[..|l| - 1], l[|l| - 1];
      assert l == init + [e];
      NodePartLast(init, slot);
      NodePartAppend(init, e);
      LastSavedAppend(init, e, slot);
      LastSavedAppend(NodePart(init), e, slot);
    }
  }

  lemma {:induction false} TimesMeans(l: seq<Entry>, slot: Slot)
    ensures Times(l, slot) > 0 <==> Logged(l, slot)
    decreases |l|
  {
    if l != [] {
      var init, e := l[..|l| - 1], l[|l| - 1];
      assert l == init + [e];
      TimesMeans(init, slot);
      TimesAppend(init, e, slot);
      LoggedAppend(init, e, slot);
    }
  }

  // ----- what a node gives --------------------------------------------------------

  /**
   A node's runnable when its functions are about to be rewritten: the object behind it,
   the span wrappers a user proxy hands out instead, and those attributes whose wrapper
   carries the mark of a traced function by then.
   */
  datatype Handle = Handle(owner: Id, views: map<string, Id>, marked: set<string>)

  function SlotOf(h: Handle, a: string): Slot { Attr(h.owner, a) }

  predicate TracedNow(s0: State, slot: Slot) {
    CallableNow(s0, slot) && Traced(s0, RawOf(s0, slot))
  }

  /** A user proxy stands in front of the runnable and hands out its own wrapper for this function. */
  predicate Catches(s0: State, h: Handle, a: string) {
    a in h.views && CallableNow(s0, SlotOf(h, a))
  }

  /** What is handed out the first time. */
  function Hands(s0: State, h: Handle, a: string): Id {
    if Catches(s0, h, a) then h.views[a] else RawOf(s0, SlotOf(h, a))
  }

  /** With the functions in l already rewritten: the function handed out is a traced one. */
  predicate GivesTraced(s0: State, h: Handle, a: string, l: seq<Entry>)
  {
    if Catches(s0, h, a) then a in h.marked
    else Times(l, SlotOf(h, a)) > 0 || TracedNow(s0, SlotOf(h, a))
  }

  /** With the functions in l already rewritten: this one is rewritten too. */
  predicate Rewrites(s0: State, h: Handle, a: string, l: seq<Entry>)
  {
    CallableNow(s0, SlotOf(h, a)) && !GivesTraced(s0, h, a, l)
  }

  function PlanAttr(s0: State, h: Handle, a: string, l: seq<Entry>): seq<Entry>
  {
    if Rewrites(s0, h, a, l) then l + [Entry(SlotOf(h, a), Hands(s0, h, a))] else l
  }

  /** A runnable that gives a traced .func is passed over with its .afunc. */
  function PlanNode(s0: State, h: Handle, l: seq<Entry>): seq<Entry>
  {
    if GivesTraced(s0, h, "func", l) then l else PlanAttr(s0, h, "afunc", PlanAttr(s0, h, "func", l))
  }

  /** The node functions a completed walk logs, for the runnables its nodes give in this order. */
  function Plan(s0: State, hs: seq<Handle>): seq<Entry>
    decreases |hs|
  {
    if hs == [] then [] else PlanNode(s0, hs[|hs| - 1], Plan(s0, hs[..|hs| - 1]))
  }

  // ----- one runnable's turn ----------------------------------------------------------

  /** Is the runnable asked for this function, and what has been rewritten by then? */
  predicate Looks(s0: State, h: Handle, a: string, l: seq<Entry>)
  {
    a == "func" || (a == "afunc" && !GivesTraced(s0, h, "func", l))
  }

  function Before(s0: State, h: Handle, a: string, l: seq<Entry>): seq<Entry>
  {
    if a == "afunc" then PlanAttr(s0, h, "func", l) else l
  }

  predicate RewritesNow(s0: State, h: Handle, a: string, l: seq<Entry>)
  {
    Looks(s0, h, a, l) && Rewrites(s0, h, a, Before(s0, h, a, l))
  }

  /** It rewrites this function of its object as the first to do so. */
  predicate RewritesFirst(s0: State, h: Handle, a: string, l: seq<Entry>)
  {
    RewritesNow(s0, h, a, l) && Times(l, SlotOf(h, a)) == 0
  }

  /** It rewrites this function although an earlier runnable has. */
  predicate RewritesAgain(s0: State, h: Handle, a: string, l: seq<Entry>)
  {
    RewritesNow(s0, h, a, l) && Times(l, SlotOf(h, a)) > 0
  }

  /** If it is the first to rewrite a function, it hands that out as its slot holds it. */
  predicate RawTurn(s0: State, h: Handle, l: seq<Entry>)
  {
    && (RewritesFirst(s0, h, "func", l) ==> Hands(s0, h, "func") == RawOf(s0, SlotOf(h, "func")))
    && (RewritesFirst(s0, h, "afunc", l) ==> Hands(s0, h, "afunc") == RawOf(s0, SlotOf(h, "afunc")))
  }

  lemma FirstsRawAppend(s0: State, l: seq<Entry>, e: Entry)
    requires NodeSlot(e.slot)
    ensures FirstsRaw(s0, l + [e]) <==> FirstsRaw(s0, l) && (Times(l, e.slot) == 0 ==> e.saved == RawOf(s0, e.slot))
  {
    var l1 := l + [e];
    TimesMeans(l, e.slot);
    LoggedAppend(l, e, e.slot);
    if FirstsRaw(s0, l1) {
      forall slot | NodeSlot(slot) && Logged(l, slot) ensures l[FirstRecord(l, slot)].saved == RawOf(s0, slot) {
        LoggedAppend(l, e, slot);
      }
    }
    if FirstsRaw(s0, l) && (!Logged(l, e.slot) ==> e.saved == RawOf(s0, e.slot)) {
      forall slot | NodeSlot(slot) && Logged(l1, slot) ensures l1[FirstRecord(l1, slot)].saved == RawOf(s0, slot) {
        LoggedAppend(l, e, slot);
      }
    }
  }

  /** One function asked for: it adds a first record, a later one, or nothing. */
  lemma AttrRaw(s0: State, h: Handle, a: string, l: seq<Entry>)
    requires a in ["func", "afunc"]
    ensures FirstsRaw(s0, PlanAttr(s0, h, a, l)) <==>
            && FirstsRaw(s0, l)
            && (Times(l, SlotOf(h, a)) == 0 && Rewrites(s0, h, a, l) ==> Hands(s0, h, a) == RawOf(s0, SlotOf(h, a)))
  {
    FirstsRawAppend(s0, l, Entry(SlotOf(h, a), Hands(s0, h, a)));
  }

  lemma AttrTimes(s0: State, h: Handle, a: string, l: seq<Entry>, slot: Slot)
    ensures Times(PlanAttr(s0, h, a, l), slot) ==
            Times(l, slot) + if slot == SlotOf(h, a) && Rewrites(s0, h, a, l) then 1 else 0
  {
    TimesAppend(l, Entry(SlotOf(h, a), Hands(s0, h, a)), slot);
  }

  lemma TurnRaw(s0: State, h: Handle, l: seq<Entry>)
    ensures FirstsRaw(s0, PlanNode(s0, h, l)) <==> FirstsRaw(s0, l) && RawTurn(s0, h, l)
  {
    if !GivesTraced(s0, h, "func", l) {
      var l1 := PlanAttr(s0, h, "func", l);
      AttrRaw(s0, h, "func", l);
      AttrRaw(s0, h, "afunc", l1);
      AttrTimes(s0, h, "func", l, SlotOf(h, "afunc"));
    }
  }

  lemma TurnTimes(s0: State, h: Handle, l: seq<Entry>, a: string)
    requires a in ["func", "afunc"]
    ensures Times(PlanNode(s0, h, l), SlotOf(h, a)) ==
            Times(l, SlotOf(h, a)) + if RewritesNow(s0, h, a, l) then 1 else 0
    ensures forall slot: Slot ::
              !slot.Attr? || slot.owner != h.owner ==> Times(PlanNode(s0, h, l), slot) == Times(l, slot)
  {
    if !GivesTraced(s0, h, "func", l) {
      var l1 := PlanAttr(s0, h, "func", l);
      forall slot
        ensures Times(PlanNode(s0, h, l), slot) ==
                Times(l, slot) + (if slot == SlotOf(h, "func") && Rewrites(s0, h, "func", l) then 1 else 0)
                + if slot == SlotOf(h, "afunc") && Rewrites(s0, h, "afunc", l1) then 1 else 0
      {
        AttrTimes(s0, h, "func", l, slot);
        AttrTimes(s0, h, "afunc", l1, slot);
      }
    }
  }

  /** A function is rewritten again only through a user proxy that hands out a wrapper without the mark. */
  lemma AgainIff(s0: State, h: Handle, a: string, l: seq<Entry>)
    ensures RewritesAgain(s0, h, a, l) <==>
            && Looks(s0, h, a, l) && Times(l, SlotOf(h, a)) > 0
            && Catches(s0, h, a) && a !in h.marked
  {
    if a == "afunc" { AttrTimes(s0, h, "func", l, SlotOf(h, a)); }
  }

  // ----- all turns ----------------------------------------------------------------------

  ghost predicate RawTurnAt(s0: State, hs: seq<Handle>, k: nat)
    requires k < |hs|
  {
    RawTurn(s0, hs[k], Plan(s0, hs[..k]))
  }

  /** Whoever rewrites a function first hands it out as its slot holds it. */
  ghost predicate FirstsHandRaw(s0: State, hs: seq<Handle>)
  {
    forall k :: 0 <= k < |hs| ==> RawTurnAt(s0, hs, k)
  }

  lemma TurnAtInit(s0: State, hs: seq<Handle>, k: nat)
    requires k + 1 < |hs|
    ensures RawTurnAt(s0, hs[..|hs| - 1], k) <==> RawTurnAt(s0, hs, k)
  {
    assert hs[..|hs| - 1][..k] == hs[..k];
  }

  ghost predicate AgainAt(s0: State, hs: seq<Handle>, owner: Id, a: string, k: nat)
    requires k < |hs|
  {
    hs[k].owner == owner && RewritesAgain(s0, hs[k], a, Plan(s0, hs[..k]))
  }

  /** Some runnable rewrites this function of the object although an earlier one has. */
  ghost predicate SomeoneAgain(s0: State, hs: seq<Handle>, owner: Id, a: string)
  {
    exists k :: 0 <= k < |hs| && AgainAt(s0, hs, owner, a, k)
  }

  lemma AgainAtInit(s0: State, hs: seq<Handle>, owner: Id, a: string, k: nat)
    requires k + 1 < |hs|
    ensures AgainAt(s0, hs[..|hs| - 1], owner, a, k) <==> AgainAt(s0, hs, owner, a, k)
  {
    assert hs[..|hs| - 1][..k] == hs[..k];
  }

  lemma FirstsSplit(s0: State, hs: seq<Handle>)
    requires hs != []
    ensures var init := hs[..|hs| - 1];
            FirstsHandRaw(s0, hs) <==> FirstsHandRaw(s0, init) && RawTurnAt(s0, hs, |hs| - 1)
  {
    hide RawTurnAt, Plan;
    var n, init := |hs| - 1, hs[..|hs| - 1];
    forall k | 0 <= k < n ensures RawTurnAt(s0, init, k) <==> RawTurnAt(s0, hs, k) {
      TurnAtInit(s0, hs, k);
    }
  }

  lemma AgainSplit(s0: State, hs: seq<Handle>, owner: Id, a: string)
    requires hs != []
    ensures var n, init := |hs| - 1, hs[..|hs| - 1];
            SomeoneAgain(s0, hs, owner, a) <==>
            SomeoneAgain(s0, init, owner, a) || (hs[n].owner == owner && RewritesAgain(s0, hs[n], a, Plan(s0, init)))
  {
    hide RewritesAgain, Plan;
    var n, init := |hs| - 1, hs[..|hs| - 1];
    assert AgainAt(s0, hs, owner, a, n) <==> hs[n].owner == owner && RewritesAgain(s0, hs[n], a, Plan(s0, init));
    forall k | 0 <= k < n ensures AgainAt(s0, init, owner, a, k) <==> AgainAt(s0, hs, owner, a, k) {
      AgainAtInit(s0, hs, owner, a, k);
    }
  }

  /** The plan has raw first records if and only if whoever rewrites a function first hands it out as it is. */
  lemma {:induction false} PlanRawIff(s0: State, hs: seq<Handle>)
    ensures FirstsRaw(s0, Plan(s0, hs)) <==> FirstsHandRaw(s0, hs)
    decreases |hs|
  {
    if hs != [] {
      var init := hs[..|hs| - 1];
      PlanRawIff(s0, init);
      TurnRaw(s0, hs[|hs| - 1], Plan(s0, init));
      FirstsSplit(s0, hs);
    }
  }

  /** A slot is logged twice if and only if some runnable rewrites it after another has. */
  lemma {:induction false} PlanTwiceIff(s0: State, hs: seq<Handle>, owner: Id, a: string)
    requires a in ["func", "afunc"]
    ensures Times(Plan(s0, hs), Attr(owner, a)) >= 2 <==> SomeoneAgain(s0, hs, owner, a)
    decreases |hs|
  {
    if hs != [] {
      var init := hs[..|hs| - 1];
      PlanTwiceIff(s0, init, owner, a);
      TurnTimes(s0, hs[|hs| - 1], Plan(s0, init), a);
      AgainSplit(s0, hs, owner, a);
    }
  }

  // ----- what a caller can check -----------------------------------------------------------

  /** No runnable of the list is a proxy that hands out its own wrapper for a node function. */
  ghost predicate NoneCatches(s0: State, hs: seq<Handle>) {
    forall k :: 0 <= k < |hs| ==> !Catches(s0, hs[k], "func") && !Catches(s0, hs[k], "afunc")
  }

  /** Then everything is handed out as it is, and nothing is rewritten twice. */
  lemma UncaughtIsRaw(s0: State, hs: seq<Handle>)
    requires NoneCatches(s0, hs)
    ensures FirstsHandRaw(s0, hs)
    ensures forall owner: Id, a :: !SomeoneAgain(s0, hs, owner, a)
  {
    forall k, owner: Id, a: string | 0 <= k < |hs| ensures !AgainAt(s0, hs, owner, a, k) {
      AgainIff(s0, hs[k], a, Plan(s0, hs[..k]));
    }
    forall k | 0 <= k < |hs| ensures RawTurnAt(s0, hs, k) {
    }
  }
}
