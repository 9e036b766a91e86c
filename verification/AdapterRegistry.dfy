/**
 The adapter registry: a list sorted lazily, and the three-phase resolution over it.
 Source: src/rastir/adapters/registry.py:20-128.
 */
module AdapterRegistry {
  import opened ObjectHeap  // Option

  datatype Kind = Framework | Provider | Fallback

  /** What an adapter extracts; "unknown" and None are both "not known". */
  datatype Result = Result(
    unwrapped: Option<nat>, model: Option<string>, finishReason: Option<string>,
    tokensInput: Option<int>, tokensOutput: Option<int>, extra: map<string, string>)

  /** can_handle and transform are left open; transform gives None where it raises. */
  datatype Adapter = Adapter(name: string, kind: Kind, priority: int, canHandle: nat -> bool,
      transform: nat -> Option<Result>)

  // ----- one stable sort --------------------------------------------------------

  /** Behind everything of the same or a higher priority. */
  function InsertSorted(s: seq<Adapter>, a: Adapter): (r: seq<Adapter>)
    ensures |r| == |s| + 1
  {
    if s == [] then [a]
    else if s[0].priority >= a.priority then [s[0]] + InsertSorted(s[1..], a)
    else [a] + s
  }

  /** list.sort(key=priority, reverse=True), which keeps equal priorities in their order. */
  function SortDesc(s: seq<Adapter>): (r: seq<Adapter>)
    ensures |r| == |s|
  {
    if s == [] then [] else InsertSorted(SortDesc(s[..|s| - 1]), s[|s| - 1])
  }

  ghost predicate Descending(s: seq<Adapter>) {
    forall i, j :: 0 <= i < j < |s| ==> s[i].priority >= s[j].priority
  }

  function OfPriority(s: seq<Adapter>, p: int): seq<Adapter> {
    if s == [] then [] else (if s[0].priority == p then [s[0]] else []) + OfPriority(s[1..], p)
  }

  lemma {:induction false} OfPrioritySplit(a: seq<Adapter>, b: seq<Adapter>, p: int)
    ensures OfPriority(a + b, p) == OfPriority(a, p) + OfPriority(b, p)
  {
    if a == [] {
      assert a + b == b;
    } else {
      OfPrioritySplit(a[1..], b, p);
      assert (a + b)[1..] == a[1..] + b;
      var head := if a[0].priority == p then [a[0]] else [];
      var x, y := OfPriority(a[1..], p), OfPriority(b, p);
      assert head + (x + y) == (head + x) + y;
    }
  }

  lemma {:induction false} NoneOfPriority(s: seq<Adapter>, p: int)
    requires forall i :: 0 <= i < |s| ==> s[i].priority != p
    ensures OfPriority(s, p) == []
  {
    if s != [] { NoneOfPriority(s[1..], p); }
  }

  lemma {:induction false} InsertKeepsOrder(s: seq<Adapter>, a: Adapter)
    requires Descending(s)
    ensures Descending(InsertSorted(s, a))
    ensures forall x :: x in InsertSorted(s, a) <==> x in s || x == a
  {
    if s != [] && s[0].priority >= a.priority {
      InsertKeepsOrder(s[1..], a);
      var rest := InsertSorted(s[1..], a);
      forall i | 0 <= i < |rest| ensures s[0].priority >= rest[i].priority {
        assert rest[i] in rest;
      }
    }
  }

  lemma OfPriorityCons(a: Adapter, s: seq<Adapter>, p: int)
    ensures OfPriority([a] + s, p) == (if a.priority == p then [a] else []) + OfPriority(s, p)
  {
    assert ([a] + s)[1..] == s;
  }

  lemma SameHeadAdded(h: Adapter, s: seq<Adapter>, longer: seq<Adapter>, own: seq<Adapter>, p: int)
    requires OfPriority(longer, p) == OfPriority(s, p) + own
    ensures OfPriority([h] + longer, p) == OfPriority([h] + s, p) + own
  {
    OfPriorityCons(h, longer, p);
    OfPriorityCons(h, s, p);
  }

  lemma {:induction false} InsertIsStable(s: seq<Adapter>, a: Adapter, p: int)
    requires Descending(s)
    ensures OfPriority(InsertSorted(s, a), p) == OfPriority(s, p) + if a.priority == p then [a] else []
  {
    if s == [] || s[0].priority < a.priority {
      OfPriorityCons(a, s, p);
      if s == [] { assert [a] + s == [a]; }
      if a.priority == p { NoneOfPriority(s, p); }
    } else {
      InsertIsStable(s[1..], a, p);
      assert s == [s[0]] + s[1..];
      SameHeadAdded(s[0], s[1..], InsertSorted(s[1..], a), if a.priority == p then [a] else [], p);
    }
  }

  /** The sort is descending and keeps the registration order within each priority. */
  lemma {:induction false} SortMeans(s: seq<Adapter>)
    ensures Descending(SortDesc(s))
    ensures forall p :: OfPriority(SortDesc(s), p) == OfPriority(s, p)
    ensures forall x :: x in SortDesc(s) <==> x in s
    decreases |s|
  {
    if s != [] {
      var init, last := s[..|s| - 1], s[|s| - 1];
      SortMeans(init);
      InsertKeepsOrder(SortDesc(init), last);
      assert s == init + [last];
      forall p ensures OfPriority(SortDesc(s), p) == OfPriority(s, p) {
        InsertIsStable(SortDesc(init), last, p);
        OfPrioritySplit(init, [last], p);
      }
    }
  }

  ghost predicate SamePerPriority(a: seq<Adapter>, b: seq<Adapter>) {
    forall p :: OfPriority(a, p) == OfPriority(b, p)
  }

  lemma HeadPriority(a: seq<Adapter>, b: seq<Adapter>)
    requires a != [] && Descending(b) && SamePerPriority(a, b)
    ensures b != [] && a[0].priority <= b[0].priority
  {
    var q := a[0].priority;
    assert OfPriority(a, q) != [];
    if forall i :: 0 <= i < |b| ==> b[i].priority != q { NoneOfPriority(b, q); }
  }

  lemma SameHead(a: seq<Adapter>, b: seq<Adapter>)
    requires a != [] && b != [] && a[0].priority == b[0].priority
    requires OfPriority(a, a[0].priority) == OfPriority(b, a[0].priority)
    ensures a[0] == b[0]
  {
    assert OfPriority(a, a[0].priority)[0] == a[0];
    assert OfPriority(b, a[0].priority)[0] == b[0];
  }

  lemma TailPriority(a: seq<Adapter>, p: int)
    requires a != []
    ensures OfPriority(a[1..], p) == if a[0].priority == p then OfPriority(a, p)[1..] else OfPriority(a, p)
  {
  }

  lemma SameTail(a: seq<Adapter>, b: seq<Adapter>)
    requires a != [] && b != [] && a[0] == b[0] && SamePerPriority(a, b)
    ensures SamePerPriority(a[1..], b[1..])
  {
    forall p ensures OfPriority(a[1..], p) == OfPriority(b[1..], p) {
      assert OfPriority(a, p) == OfPriority(b, p);
      TailPriority(a, p);
      TailPriority(b, p);
    }
  }

  /** A descending list is determined by what it holds of each priority: there is only one stable sort. */
  lemma {:induction false} SortIsUnique(a: seq<Adapter>, b: seq<Adapter>)
    requires Descending(a) && Descending(b) && SamePerPriority(a, b)
    ensures a == b
    decreases |a|
  {
    if a != [] { HeadPriority(a, b); }
    if b != [] { HeadPriority(b, a); }
    if a != [] {
      SameHead(a, b);
      SameTail(a, b);
      SortIsUnique(a[1..], b[1..]);
      assert a == [a[0]] + a[1..] && b == [b[0]] + b[1..];
    }
  }

  /** Sorting now and again after more registrations is sorting the whole registration history once. */
  lemma LazySortIsSort(early: seq<Adapter>, late: seq<Adapter>)
    ensures SortDesc(SortDesc(early) + late) == SortDesc(early + late)
  {
    SortMeans(early);
    SortMeans(SortDesc(early) + late);
    SortMeans(early + late);
    forall p ensures OfPriority(SortDesc(early) + late, p) == OfPriority(early + late, p) {
      OfPrioritySplit(SortDesc(early), late, p);
      OfPrioritySplit(early, late, p);
    }
    SortIsUnique(SortDesc(SortDesc(early) + late), SortDesc(early + late));
  }

  // ----- resolution ---------------------------------------------------------------

  /** What the framework phase has learned so far. */
  datatype Known = Known(
    unwrapped: nat, extra: map<string, string>, tokensInput: Option<int>, tokensOutput: Option<int>,
    model: Option<string>, finishReason: Option<string>)

  function Nothing(input: nat): Known {
    Known(input, map[], None, None, None, None)
  }

  predicate Concrete(s: Option<string>) {
    s.Some? && s.value != "" && s.value != "unknown"
  }

  /** A later report overwrites an earlier one, unless it does not know. */
  function Absorb(k: Known, r: Result): Known {
    Known(if r.unwrapped.Some? then r.unwrapped.value else k.unwrapped,
          k.extra + r.extra,
          if r.tokensInput.Some? then r.tokensInput else k.tokensInput,
          if r.tokensOutput.Some? then r.tokensOutput else k.tokensOutput,
          if Concrete(r.model) then r.model else k.model,
          if Concrete(r.finishReason) then r.finishReason else k.finishReason)
  }

  predicate Applies(a: Adapter, kind: Kind, x: nat) {
    a.kind == kind && a.canHandle(x) && a.transform(x).Some?
  }

  /** One pass over the adapters; it stops at the first that unwraps. */
  function Scan(adapters: seq<Adapter>, k: Known): (Known, bool) {
    if adapters == [] then (k, false)
    else if !Applies(adapters[0], Framework, k.unwrapped) then Scan(adapters[1..], k)
    else
      var r := adapters[0].transform(k.unwrapped).value;
      if r.unwrapped.Some? then (Absorb(k, r), true) else Scan(adapters[1..], Absorb(k, r))
  }

  function Unwrap(adapters: seq<Adapter>, k: Known, rounds: nat): Known
    decreases rounds
  {
    if rounds == 0 then k
    else
      var (k1, matched) := Scan(adapters, k);
      if matched then Unwrap(adapters, k1, rounds - 1) else k1
  }

  const MAX_UNWRAP := 5

  /** Framework metadata fills what the adapter left open, and nothing else. */
  function Merge(r: Result, k: Known): Result {
    Result(r.unwrapped,
           if (r.model == None || r.model == Some("unknown")) && k.model.Some? then k.model else r.model,
           if (r.finishReason == None || r.finishReason == Some("unknown")) && k.finishReason.Some?
           then k.finishReason else r.finishReason,
           if r.tokensInput == None then k.tokensInput else r.tokensInput,
           if r.tokensOutput == None then k.tokensOutput else r.tokensOutput,
           k.extra + r.extra)
  }

  predicate Answers(a: Adapter, kind: Kind, x: nat, ask: bool) {
    a.kind == kind && (ask ==> a.canHandle(x)) && a.transform(x).Some?
  }

  /** The first adapter of a kind that gives a result. */
  function FirstResult(adapters: seq<Adapter>, kind: Kind, x: nat, ask: bool): Option<Result> {
    if adapters == [] then None
    else if Answers(adapters[0], kind, x, ask)
    then adapters[0].transform(x)
    else FirstResult(adapters[1..], kind, x, ask)
  }

  function Resolution(adapters: seq<Adapter>, input: nat): Option<Result> {
    var k := Unwrap(adapters, Nothing(input), MAX_UNWRAP);
    var provider := FirstResult(adapters, Provider, k.unwrapped, true);
    var found := if provider.Some? then provider else FirstResult(adapters, Fallback, k.unwrapped, false);
    if found.Some? then Some(Merge(found.value, k)) else None
  }

  // ----- what resolution promises ---------------------------------------------------

  /** y is x with at most n layers taken off by framework adapters. */
  ghost predicate Peeled(adapters: seq<Adapter>, x: nat, y: nat, n: nat)
    decreases n
  {
    x == y ||
    (n > 0 && exists z, a :: a in adapters && Applies(a, Framework, z) && a.transform(z).value.unwrapped == Some(y) &&
                             Peeled(adapters, x, z, n - 1))
  }

  lemma {:induction false} PeeledMore(adapters: seq<Adapter>, x: nat, y: nat, n: nat)
    requires Peeled(adapters, x, y, n)
    ensures Peeled(adapters, x, y, n + 1)
    decreases n
  {
    if x != y {
      var z, a :| a in adapters && Applies(a, Framework, z) && a.transform(z).value.unwrapped == Some(y) &&
        Peeled(adapters, x, z, n - 1);
      PeeledMore(adapters, x, z, n - 1);
    }
  }

  /** A framework adapter has reported this result on a layer at most n deep. */
  ghost predicate Reported(adapters: seq<Adapter>, x: nat, n: nat, r: Result) {
    exists z, a :: a in adapters && Applies(a, Framework, z) && a.transform(z) == Some(r) && Peeled(adapters, x, z, n)
  }

  /** One piece of framework metadata. */
  datatype Fact = ModelIs(model: string) | FinishIs(reason: string) | InputIs(tokens: int) | OutputIs(tokens: int)
                | ExtraIs(key: string, value: string)

  predicate Knows(k: Known, f: Fact) {
    match f
    case ModelIs(m) => k.model == Some(m)
    case FinishIs(m) => k.finishReason == Some(m)
    case InputIs(n) => k.tokensInput == Some(n)
    case OutputIs(n) => k.tokensOutput == Some(n)
    case ExtraIs(key, v) => key in k.extra && k.extra[key] == v
  }

  predicate Tells(r: Result, f: Fact) {
    match f
    case ModelIs(m) => Concrete(r.model) && r.model == Some(m)
    case FinishIs(m) => Concrete(r.finishReason) && r.finishReason == Some(m)
    case InputIs(n) => r.tokensInput == Some(n)
    case OutputIs(n) => r.tokensOutput == Some(n)
    case ExtraIs(key, v) => key in r.extra && r.extra[key] == v
  }

  /** Everything the framework phase knows was told by a framework adapter on one of the layers. */
  ghost predicate Sourced(adapters: seq<Adapter>, x: nat, n: nat, k: Known) {
    forall f :: Knows(k, f) ==> exists r :: Reported(adapters, x, n, r) && Tells(r, f)
  }

  lemma ReportedMore(adapters: seq<Adapter>, x: nat, n: nat, r: Result)
    requires Reported(adapters, x, n, r)
    ensures Reported(adapters, x, n + 1, r)
  {
    var z, a :| a in adapters && Applies(a, Framework, z) && a.transform(z) == Some(r) && Peeled(adapters, x, z, n);
    PeeledMore(adapters, x, z, n);
  }

  lemma SourcedMore(adapters: seq<Adapter>, x: nat, n: nat, k: Known)
    requires Sourced(adapters, x, n, k)
    ensures Sourced(adapters, x, n + 1, k)
  {
    forall f | Knows(k, f) ensures exists r :: Reported(adapters, x, n + 1, r) && Tells(r, f) {
      var r :| Reported(adapters, x, n, r) && Tells(r, f);
      ReportedMore(adapters, x, n, r);
    }
  }

  lemma AbsorbSourced(adapters: seq<Adapter>, x: nat, n: nat, k: Known, r: Result)
    requires Sourced(adapters, x, n, k) && Reported(adapters, x, n, r)
    ensures Sourced(adapters, x, n, Absorb(k, r))
  {
    forall f | Knows(Absorb(k, r), f) ensures exists q :: Reported(adapters, x, n, q) && Tells(q, f) {
      assert Tells(r, f) || Knows(k, f);
    }
  }

  lemma {:induction false} ScanPeels(all: seq<Adapter>, adapters: seq<Adapter>, x: nat, n: nat, k: Known)
    requires forall a :: a in adapters ==> a in all
    requires Peeled(all, x, k.unwrapped, n) && Sourced(all, x, n, k)
    ensures var (k1, matched) := Scan(adapters, k);
            && Sourced(all, x, n, k1)
            && Peeled(all, x, k1.unwrapped, n + 1)
            && (!matched ==> k1.unwrapped == k.unwrapped)
    decreases |adapters|
  {
    PeeledMore(all, x, k.unwrapped, n);
    if adapters != [] {
      assert adapters[0] in all;
      assert forall a :: a in adapters[1..] ==> a in adapters;
      if Applies(adapters[0], Framework, k.unwrapped) {
        var r := adapters[0].transform(k.unwrapped).value;
        assert Reported(all, x, n, r);
        AbsorbSourced(all, x, n, k, r);
        if r.unwrapped.Some? {
          assert Peeled(all, x, r.unwrapped.value, n + 1);
        } else {
          ScanPeels(all, adapters[1..], x, n, Absorb(k, r));
        }
      } else {
        ScanPeels(all, adapters[1..], x, n, k);
      }
    }
  }

  ghost predicate Explained(adapters: seq<Adapter>, x: nat, n: nat, k: Known) {
    Peeled(adapters, x, k.unwrapped, n) && Sourced(adapters, x, n, k)
  }

  lemma {:induction false} WidenTo(adapters: seq<Adapter>, x: nat, n: nat, m: nat, k: Known)
    requires n <= m && Explained(adapters, x, n, k)
    ensures Explained(adapters, x, m, k)
    decreases m - n
  {
    if n < m {
      PeeledMore(adapters, x, k.unwrapped, n);
      SourcedMore(adapters, x, n, k);
      WidenTo(adapters, x, n + 1, m, k);
    }
  }

  lemma ScanExplained(adapters: seq<Adapter>, x: nat, n: nat, k: Known)
    requires Explained(adapters, x, n, k)
    ensures Explained(adapters, x, n + 1, Scan(adapters, k).0)
  {
    ScanPeels(adapters, adapters, x, n, k);
    SourcedMore(adapters, x, n, Scan(adapters, k).0);
  }

  lemma {:induction false} UnwrapPeels(adapters: seq<Adapter>, x: nat, n: nat, k: Known, rounds: nat)
    requires Explained(adapters, x, n, k)
    ensures Explained(adapters, x, n + rounds, Unwrap(adapters, k, rounds))
    decreases rounds
  {
    if rounds > 0 {
      ScanExplained(adapters, x, n, k);
      var k1 := Scan(adapters, k).0;
      if Scan(adapters, k).1 {
        UnwrapPeels(adapters, x, n + 1, k1, rounds - 1);
      } else {
        WidenTo(adapters, x, n + 1, n + rounds, k1);
      }
    }
  }

  /**
   Any chain of wrappers is peeled at most five layers deep, and whatever framework
   metadata is merged was reported on one of those layers.
   */
  lemma FiveLayers(adapters: seq<Adapter>, input: nat)
    ensures var k := Unwrap(adapters, Nothing(input), MAX_UNWRAP);
            Explained(adapters, input, 5, k)
  {
    UnwrapPeels(adapters, input, 0, Nothing(input), MAX_UNWRAP);
  }

  /** A framework adapter answers for x and takes a layer off. */
  ghost predicate Unwraps(adapters: seq<Adapter>, x: nat) {
    exists a :: a in adapters && Applies(a, Framework, x) && a.transform(x).value.unwrapped.Some?
  }

  /** y is x with exactly n layers taken off. */
  ghost predicate PeeledExactly(adapters: seq<Adapter>, x: nat, y: nat, n: nat)
    decreases n
  {
    if n == 0 then x == y
    else exists z, a :: a in adapters && Applies(a, Framework, z) && a.transform(z).value.unwrapped == Some(y) &&
                        PeeledExactly(adapters, x, z, n - 1)
  }

  /** A pass over the adapters takes a layer off exactly when one of them can. */
  lemma {:induction false} ScanMatchesIff(adapters: seq<Adapter>, k: Known)
    ensures var (k1, matched) := Scan(adapters, k);
            && (matched <==> Unwraps(adapters, k.unwrapped))
            && (matched ==> exists a :: a in adapters && Applies(a, Framework, k.unwrapped) &&
                                        a.transform(k.unwrapped).value.unwrapped == Some(k1.unwrapped))
            && (!matched ==> k1.unwrapped == k.unwrapped)
  {
    if adapters == [] { return; }
    var a, rest := adapters[0], adapters[1..];
    assert forall b :: b in adapters <==> b == a || b in rest;
    if !Applies(a, Framework, k.unwrapped) {
      ScanMatchesIff(rest, k);
    } else {
      var r := a.transform(k.unwrapped).value;
      if r.unwrapped == None { ScanMatchesIff(rest, Absorb(k, r)); }
    }
  }

  lemma {:induction false} UnwrapGoesOn(adapters: seq<Adapter>, x: nat, n: nat, k: Known, rounds: nat)
    returns (m: nat)
    requires PeeledExactly(adapters, x, k.unwrapped, n)
    ensures n <= m <= n + rounds
    ensures var y := Unwrap(adapters, k, rounds).unwrapped;
            PeeledExactly(adapters, x, y, m) && (m == n + rounds || !Unwraps(adapters, y))
    decreases rounds
  {
    m := n;
    if rounds > 0 {
      ScanMatchesIff(adapters, k);
      var (k1, matched) := Scan(adapters, k);
      if matched { m := UnwrapGoesOn(adapters, x, n + 1, k1, rounds - 1); }
    }
  }

  /** Layers come off until no framework adapter takes one off any more, or five are off. */
  lemma LayersComeOff(adapters: seq<Adapter>, input: nat) returns (layers: nat)
    ensures layers <= 5
    ensures var x := Unwrap(adapters, Nothing(input), MAX_UNWRAP).unwrapped;
            PeeledExactly(adapters, input, x, layers) && (layers == 5 || !Unwraps(adapters, x))
  {
    layers := UnwrapGoesOn(adapters, input, 0, Nothing(input), MAX_UNWRAP);
  }

  ghost predicate Best(adapters: seq<Adapter>, best: Adapter, kind: Kind, x: nat, ask: bool) {
    && best in adapters && Answers(best, kind, x, ask)
    && (forall a :: a in adapters && Answers(a, kind, x, ask) ==> a.priority <= best.priority)
    && FirstToAnswer(adapters, best, kind, x, ask)
  }

  /** Those that stand before it do not answer, so among equal priorities the first registered is taken. */
  ghost predicate FirstToAnswer(adapters: seq<Adapter>, best: Adapter, kind: Kind, x: nat, ask: bool) {
    exists i :: 0 <= i < |adapters| && adapters[i] == best &&
                forall j :: 0 <= j < i ==> !Answers(adapters[j], kind, x, ask)
  }

  /** In a sorted list the adapter chosen has the highest priority among those that could have answered. */
  lemma {:induction false} FirstIsBest(adapters: seq<Adapter>, kind: Kind, x: nat, ask: bool)
    requires Descending(adapters)
    ensures var r := FirstResult(adapters, kind, x, ask);
            if r == None then forall a :: a in adapters ==> !Answers(a, kind, x, ask)
            else exists best :: Best(adapters, best, kind, x, ask) && best.transform(x) == r
  {
    if adapters != [] {
      var head, tail := adapters[0], adapters[1..];
      if Answers(head, kind, x, ask) {
        HeadIsBest(adapters, kind, x, ask);
      } else {
        FirstIsBest(tail, kind, x, ask);
        forall best | Best(tail, best, kind, x, ask)
          ensures Best(adapters, best, kind, x, ask)
        {
          TailIsBest(adapters, best, kind, x, ask);
        }
        assert forall a :: a in adapters <==> a == head || a in tail;
      }
    }
  }

  lemma HeadIsBest(adapters: seq<Adapter>, kind: Kind, x: nat, ask: bool)
    requires adapters != [] && Descending(adapters) && Answers(adapters[0], kind, x, ask)
    ensures Best(adapters, adapters[0], kind, x, ask)
  {
    hide Answers;
    assert adapters[0] in adapters && FirstToAnswer(adapters, adapters[0], kind, x, ask);
  }

  lemma TailIsBest(adapters: seq<Adapter>, best: Adapter, kind: Kind, x: nat, ask: bool)
    requires adapters != [] && !Answers(adapters[0], kind, x, ask) && Best(adapters[1..], best, kind, x, ask)
    ensures Best(adapters, best, kind, x, ask)
  {
    hide Answers;
    var tail := adapters[1..];
    var i :| 0 <= i < |tail| && tail[i] == best && forall j :: 0 <= j < i ==> !Answers(tail[j], kind, x, ask);
    assert adapters[i + 1] == best;
    forall j | 0 <= j < i + 1
      ensures !Answers(adapters[j], kind, x, ask)
    {
      if j > 0 { assert adapters[j] == tail[j - 1]; }
    }
    assert FirstToAnswer(adapters, best, kind, x, ask);
    forall a | a in adapters && Answers(a, kind, x, ask)
      ensures a.priority <= best.priority
    {
      assert a in tail;
    }
  }

  predicate Shows(r: Result, f: Fact) {
    match f
    case ModelIs(m) => r.model == Some(m)
    case FinishIs(m) => r.finishReason == Some(m)
    case InputIs(n) => r.tokensInput == Some(n)
    case OutputIs(n) => r.tokensOutput == Some(n)
    case ExtraIs(key, v) => key in r.extra && r.extra[key] == v
  }

  /** The result does not know what the fact is about. */
  predicate LeavesOpen(r: Result, f: Fact) {
    match f
    case ModelIs(_) => r.model == None || r.model == Some("unknown")
    case FinishIs(_) => r.finishReason == None || r.finishReason == Some("unknown")
    case InputIs(_) => r.tokensInput == None
    case OutputIs(_) => r.tokensOutput == None
    case ExtraIs(key, _) => key !in r.extra
  }

  ghost predicate Told(adapters: seq<Adapter>, x: nat, f: Fact) {
    exists r :: Reported(adapters, x, 5, r) && Tells(r, f)
  }

  /**
   The merged result says what the adapter said, and beyond that only what a framework adapter
   told about an open field.
   */
  ghost predicate Supplemented(adapters: seq<Adapter>, x: nat, base: Result, r: Result) {
    forall f ::
      && (Shows(base, f) && !LeavesOpen(base, f) ==> Shows(r, f))
      && (Shows(r, f) ==> Shows(base, f) || (LeavesOpen(base, f) && Told(adapters, x, f)))
  }

  lemma MergeSupplements(adapters: seq<Adapter>, x: nat, base: Result, k: Known)
    requires Sourced(adapters, x, 5, k)
    ensures Supplemented(adapters, x, base, Merge(base, k))
  {
    forall f
      ensures Shows(base, f) && !LeavesOpen(base, f) ==> Shows(Merge(base, k), f)
      ensures Shows(Merge(base, k), f) ==> Shows(base, f) || (LeavesOpen(base, f) && Told(adapters, x, f))
    {
      assert Shows(Merge(base, k), f) ==> Shows(base, f) || (LeavesOpen(base, f) && Knows(k, f));
    }
  }

  // ----- what fills an open field ------------------------------------------------------

  /** What the framework adapters report on one layer, the first that takes it off being the last asked. */
  function LayerReports(adapters: seq<Adapter>, x: nat): seq<Result> {
    if adapters == [] then []
    else if !Applies(adapters[0], Framework, x) then LayerReports(adapters[1..], x)
    else
      var r := adapters[0].transform(x).value;
      [r] + if r.unwrapped.Some? then [] else LayerReports(adapters[1..], x)
  }

  /** The layer that the last report uncovers. */
  function Inner(reports: seq<Result>): Option<nat> {
    if reports == [] then None else reports[|reports| - 1].unwrapped
  }

  /** What is reported on the outermost layers, as many as there are rounds. */
  function Reports(adapters: seq<Adapter>, x: nat, rounds: nat): seq<Result>
    decreases rounds
  {
    if rounds == 0 then []
    else
      var layer := LayerReports(adapters, x);
      layer + if Inner(layer).Some? then Reports(adapters, Inner(layer).value, rounds - 1) else []
  }

  function Absorbed(k: Known, reports: seq<Result>): Known
    decreases |reports|
  {
    if reports == [] then k else Absorbed(Absorb(k, reports[0]), reports[1..])
  }

  lemma {:induction false} AbsorbedSplit(k: Known, a: seq<Result>, b: seq<Result>)
    ensures Absorbed(k, a + b) == Absorbed(Absorbed(k, a), b)
    decreases |a|
  {
    if a == [] {
      assert a + b == b;
    } else {
      assert (a + b)[1..] == a[1..] + b;
      AbsorbedSplit(Absorb(k, a[0]), a[1..], b);
    }
  }

  lemma {:induction false} ScanAbsorbs(adapters: seq<Adapter>, k: Known)
    ensures var (k1, matched) := Scan(adapters, k);
            var layer := LayerReports(adapters, k.unwrapped);
            && k1 == Absorbed(k, layer) && (matched <==> Inner(layer).Some?)
            && (matched ==> k1.unwrapped == Inner(layer).value)
  {
    if adapters != [] {
      if Applies(adapters[0], Framework, k.unwrapped) {
        var r := adapters[0].transform(k.unwrapped).value;
        if r.unwrapped.Some? {
          assert [r] + [] == [r] && [r][1..] == [];
        } else {
          ScanAbsorbs(adapters[1..], Absorb(k, r));
          var rest := LayerReports(adapters[1..], k.unwrapped);
          assert ([r] + rest)[1..] == rest;
        }
      } else {
        ScanAbsorbs(adapters[1..], k);
      }
    }
  }

  lemma {:induction false} UnwrapAbsorbs(adapters: seq<Adapter>, k: Known, rounds: nat)
    ensures Unwrap(adapters, k, rounds) == Absorbed(k, Reports(adapters, k.unwrapped, rounds))
    decreases rounds
  {
    if rounds > 0 {
      ScanAbsorbs(adapters, k);
      var k1, layer := Scan(adapters, k).0, LayerReports(adapters, k.unwrapped);
      if Inner(layer).Some? {
        UnwrapAbsorbs(adapters, k1, rounds - 1);
        AbsorbedSplit(k, layer, Reports(adapters, k1.unwrapped, rounds - 1));
      } else {
        assert layer + [] == layer;
      }
    }
  }

  /** The report says something about the field of the fact. */
  predicate TellsAbout(r: Result, f: Fact) {
    match f
    case ModelIs(_) => r.model.Some? && r.model.value !in ["", "unknown"]
    case FinishIs(_) => r.finishReason.Some? && r.finishReason.value !in ["", "unknown"]
    case InputIs(_) => r.tokensInput.Some?
    case OutputIs(_) => r.tokensOutput.Some?
    case ExtraIs(key, _) => key in r.extra
  }

  /** The last report about the field of the fact tells the fact. */
  ghost predicate LastToldIs(reports: seq<Result>, f: Fact) {
    exists i :: 0 <= i < |reports| && TellsAbout(reports[i], f) && Shows(reports[i], f) &&
                forall j :: i < j < |reports| ==> !TellsAbout(reports[j], f)
  }

  ghost predicate NoneTells(reports: seq<Result>, f: Fact) {
    forall i :: 0 <= i < |reports| ==> !TellsAbout(reports[i], f)
  }

  lemma LastToldStep(r: Result, rest: seq<Result>, f: Fact)
    ensures var all := [r] + rest;
            && (LastToldIs(all, f) <==> LastToldIs(rest, f) || (NoneTells(rest, f) && TellsAbout(r, f) && Shows(r, f)))
            && (NoneTells(all, f) <==> !TellsAbout(r, f) && NoneTells(rest, f))
  {
    hide TellsAbout, Shows;
    var all := [r] + rest;
    assert forall i :: 0 <= i < |rest| ==> rest[i] == all[i + 1];
    assert all[0] == r;
    if LastToldIs(all, f) {
      var i :| 0 <= i < |all| && TellsAbout(all[i], f) && Shows(all[i], f) &&
        forall j :: i < j < |all| ==> !TellsAbout(all[j], f);
      if i > 0 { assert rest[i - 1] == all[i]; }
    }
    if LastToldIs(rest, f) {
      var i :| 0 <= i < |rest| && TellsAbout(rest[i], f) && Shows(rest[i], f) &&
        forall j :: i < j < |rest| ==> !TellsAbout(rest[j], f);
      assert all[i + 1] == rest[i];
    }
  }

  lemma {:induction false} KnowsTheLast(k: Known, reports: seq<Result>, f: Fact)
    ensures Knows(Absorbed(k, reports), f) <==> LastToldIs(reports, f) || (Knows(k, f) && NoneTells(reports, f))
    decreases |reports|
  {
    if reports != [] {
      KnowsTheLast(Absorb(k, reports[0]), reports[1..], f);
      LastToldStep(reports[0], reports[1..], f);
      assert [reports[0]] + reports[1..] == reports;
      assert Knows(Absorb(k, reports[0]), f) <==>
        if TellsAbout(reports[0], f) then Shows(reports[0], f) else Knows(k, f);
    }
  }

  /**
   Exactly what the result shows: what the adapter said where it said something, and where it left
   a field open what the last framework report about it said, if there is one.
   */
  ghost predicate Filled(reports: seq<Result>, base: Result, r: Result) {
    forall f ::
      Shows(r, f) <==>
      if !LeavesOpen(base, f) then Shows(base, f)
      else LastToldIs(reports, f) || (Shows(base, f) && NoneTells(reports, f))
  }

  lemma MergeFills(adapters: seq<Adapter>, input: nat, base: Result)
    ensures Filled(Reports(adapters, input, 5), base,
                   Merge(base, Unwrap(adapters, Nothing(input), MAX_UNWRAP)))
  {
    var reports := Reports(adapters, input, 5);
    var k := Unwrap(adapters, Nothing(input), MAX_UNWRAP);
    UnwrapAbsorbs(adapters, Nothing(input), MAX_UNWRAP);
    forall f
      ensures Shows(Merge(base, k), f) <==>
              if !LeavesOpen(base, f) then Shows(base, f)
              else LastToldIs(reports, f) || (Shows(base, f) && NoneTells(reports, f))
    {
      KnowsTheLast(Nothing(input), reports, f);
      KnowsAboutIff(Nothing(input), reports, f);
      hide Knows, KnowsAbout, Shows, LeavesOpen, LastToldIs, NoneTells, Merge, Unwrap, Reports;
      MergeShows(base, k, f);
      NothingIsKnown(input, f);
    }
  }

  lemma NothingIsKnown(input: nat, f: Fact)
    ensures !Knows(Nothing(input), f) && !KnowsAbout(Nothing(input), f)
  {
  }

  lemma MergeShows(base: Result, k: Known, f: Fact)
    ensures Shows(Merge(base, k), f) <==>
            if !LeavesOpen(base, f) then Shows(base, f)
            else Knows(k, f) || (Shows(base, f) && !KnowsAbout(k, f))
  {
  }

  lemma {:induction false} KnowsAboutIff(k: Known, reports: seq<Result>, f: Fact)
    ensures KnowsAbout(Absorbed(k, reports), f) <==> KnowsAbout(k, f) || !NoneTells(reports, f)
    decreases |reports|
  {
    if reports != [] {
      KnowsAboutIff(Absorb(k, reports[0]), reports[1..], f);
      LastToldStep(reports[0], reports[1..], f);
      assert [reports[0]] + reports[1..] == reports;
    }
  }

  ghost predicate KnowsAbout(k: Known, f: Fact) {
    match f
    case ModelIs(_) => k.model.Some?
    case FinishIs(_) => k.finishReason.Some?
    case InputIs(_) => k.tokensInput.Some?
    case OutputIs(_) => k.tokensOutput.Some?
    case ExtraIs(key, _) => key in k.extra
  }

  /** The best provider, or the best fallback if no provider answers. */
  ghost predicate Chosen(adapters: seq<Adapter>, best: Adapter, x: nat) {
    || Best(adapters, best, Provider, x, true)
    || ((forall a :: a in adapters ==> !Answers(a, Provider, x, true)) && Best(adapters, best, Fallback, x, false))
  }

  ghost predicate ResolvedBy(adapters: seq<Adapter>, input: nat, x: nat, best: Adapter, r: Result) {
    && Peeled(adapters, input, x, 5) && Chosen(adapters, best, x)
    && best.transform(x).Some? && Supplemented(adapters, input, best.transform(x).value, r)
    && Filled(Reports(adapters, input, 5), best.transform(x).value, r)
  }

  /**
   What resolution promises over a sorted registry: some object at most five layers
   inside the input is handed to the adapter of highest priority that answers, and its
   result is only supplemented; there is no result exactly when no adapter answers.
   */
  lemma ResolutionExplained(adapters: seq<Adapter>, input: nat)
    requires Descending(adapters)
    ensures var x, r := Unwrap(adapters, Nothing(input), MAX_UNWRAP).unwrapped, Resolution(adapters, input);
            if r.Some? then exists best :: ResolvedBy(adapters, input, x, best, r.value)
            else forall a :: a in adapters ==> !Answers(a, Provider, x, true) && !Answers(a, Fallback, x, false)
  {
    FiveLayers(adapters, input);
    var k := Unwrap(adapters, Nothing(input), MAX_UNWRAP);
    var x := k.unwrapped;
    FirstIsBest(adapters, Provider, x, true);
    FirstIsBest(adapters, Fallback, x, false);
    var provider, fallback := FirstResult(adapters, Provider, x, true), FirstResult(adapters, Fallback, x, false);
    if provider.Some? {
      MergeSupplements(adapters, input, provider.value, k);
      MergeFills(adapters, input, provider.value);
      var best :| Best(adapters, best, Provider, x, true) && best.transform(x) == provider;
      assert ResolvedBy(adapters, input, x, best, Merge(provider.value, k));
    } else if fallback.Some? {
      MergeSupplements(adapters, input, fallback.value, k);
      MergeFills(adapters, input, fallback.value);
      var best :| Best(adapters, best, Fallback, x, false) && best.transform(x) == fallback;
      assert ResolvedBy(adapters, input, x, best, Merge(fallback.value, k));
    }
  }

  // ----- the object -----------------------------------------------------------------

  class Registry {
    var adapters: seq<Adapter>
    var isSorted: bool
    ghost var history: seq<Adapter>
    ghost var settled: nat  // registrations the last sort has seen

    ghost predicate Valid()
      reads this
    {
      && settled <= |history|
      && adapters == SortDesc(history[..settled]) + history[settled..]
      && (isSorted ==> settled == |history|)
    }

    constructor ()
      ensures Valid() && history == []
    {
      adapters, isSorted, history, settled := [], false, [], 0;
    }

    /** lines 25-30 */
    method Register(a: Adapter)
      requires Valid()
      modifies this
      ensures Valid() && history == old(history) + [a]
    {
      adapters := adapters + [a];
      isSorted := false;
      history := history + [a];
      assert history[..settled] == old(history)[..settled];
      assert history[settled..] == old(history)[settled..] + [a];
    }

    /** lines 33-38 */
    method EnsureSorted()
      requires Valid()
      modifies this
      ensures Valid() && history == old(history) && isSorted && adapters == SortDesc(history)
    {
      if !isSorted {
        LazySortIsSort(history[..settled], history[settled..]);
        assert history[..settled] + history[settled..] == history;
        adapters := SortDesc(adapters);
        isSorted := true;
        settled := |history|;
      }
      assert history[..|history|] == history;
      assert SortDesc(history) + [] == SortDesc(history);
    }

    /** lines 64-90: one round of the framework loop */
    method ScanOnce(k: Known) returns (after: Known, matched: bool)
      ensures (after, matched) == Scan(adapters, k)
    {
      after, matched := k, false;
      var i := 0;
      assert adapters[0..] == adapters;
      while i < |adapters|
        invariant 0 <= i <= |adapters| && !matched
        invariant Scan(adapters, k) == Scan(adapters[i..], after)
      {
        assert adapters[i..][1..] == adapters[i + 1..];
        var a := adapters[i];
        if a.kind == Framework && a.canHandle(after.unwrapped) {
          var ar := a.transform(after.unwrapped);
          if ar.Some? {
            after := Absorb(after, ar.value);
            if ar.value.unwrapped.Some? { return after, true; }
          }
        }
        i := i + 1;
      }
    }

    /** lines 107-126: the provider loop, and the fallback loop that does not ask can_handle */
    method FirstOf(kind: Kind, x: nat, ask: bool) returns (r: Option<Result>)
      ensures r == FirstResult(adapters, kind, x, ask)
    {
      var i := 0;
      assert adapters[0..] == adapters;
      while i < |adapters|
        invariant 0 <= i <= |adapters|
        invariant FirstResult(adapters, kind, x, ask) == FirstResult(adapters[i..], kind, x, ask)
      {
        assert adapters[i..][1..] == adapters[i + 1..];
        var a := adapters[i];
        if a.kind == kind && (!ask || a.canHandle(x)) {
          r := a.transform(x);
          if r.Some? { return; }
        }
        i := i + 1;
      }
      r := None;
    }

    /**
     lines 41-128: however registrations and resolutions interleave, the answer is that of one
     stable sort of the history
     */
    method Resolve(input: nat) returns (r: Option<Result>)
      requires Valid()
      modifies this
      ensures Valid() && history == old(history)
      ensures r == Resolution(SortDesc(history), input)
    {
      if adapters == [] {
        NoAdapters(history, settled);
        return None;
      }
      EnsureSorted();
      var k := Nothing(input);
      var round := 0;
      var matched := true;
      while round < MAX_UNWRAP && matched
        invariant 0 <= round <= MAX_UNWRAP && isSorted && Valid() && history == old(history) &&
                  adapters == SortDesc(history)
        invariant Unwrap(adapters, Nothing(input), MAX_UNWRAP) ==
                  if matched then Unwrap(adapters, k, MAX_UNWRAP - round) else k
      {
        k, matched := ScanOnce(k);
        round := round + 1;
      }
      r := FirstOf(Provider, k.unwrapped, true);
      if r == None { r := FirstOf(Fallback, k.unwrapped, false); }
      if r.Some? { r := Some(Merge(r.value, k)); }
    }
  }

  lemma NoAdapters(history: seq<Adapter>, settled: nat)
    requires settled <= |history| && SortDesc(history[..settled]) + history[settled..] == []
    ensures history == [] && SortDesc(history) == []
  {
    assert |SortDesc(history[..settled]) + history[settled..]| == |history|;
  }
}
