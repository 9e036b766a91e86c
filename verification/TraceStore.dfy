/**
 The in-memory trace store: an ordered, bounded map with optional expiry and running
 counters. Eviction is by least recent update: a touched trace moves to the end.
 Source: src/rastir/server/trace_store.py.
 */
module TraceStore {
  import opened ObjectHeap  // Option

  datatype TraceId = TraceId(hex: string)

  datatype Span = Span(id: nat, service: Option<string>, attrService: Option<string>)

  datatype Summary = Summary(traceId: TraceId, spanCount: nat)

  /** The limits, as server/config.py:593-667 checks them; ttl 0 turns expiry off. */
  datatype Limits = Limits(maxTraces: nat, maxSpansPerTrace: nat, ttl: real) {
    predicate Valid() { maxTraces > 0 && maxSpansPerTrace > 0 && ttl >= 0.0 }
  }

  /** The state of the store. "lost" counts the spans of traces evicted or expired so far. */
  datatype Store = Store(
    order: seq<TraceId>,
    traces: map<TraceId, seq<Span>>,
    timestamps: map<TraceId, real>,
    totalSpans: int,
    evictedTraces: nat,
    spansTruncated: nat,
    lost: int)

  // ----- ordered keys -------------------------------------------------------

  function Without(order: seq<TraceId>, id: TraceId): seq<TraceId> {
    if order == [] then []
    else if order[0] == id then Without(order[1..], id)
    else [order[0]] + Without(order[1..], id)
  }

  function Take<T>(s: seq<T>, n: nat): seq<T> {
    if n < |s| then s[..n] else s
  }

  function LastK<T>(s: seq<T>, n: nat): seq<T> {
    if n < |s| then s[|s| - n..] else s
  }

  function Over(n: int, cap: int): nat {
    if n > cap then n - cap else 0
  }

  function SpanSum(order: seq<TraceId>, traces: map<TraceId, seq<Span>>): int {
    if order == [] then 0
    else (if order[0] in traces then |traces[order[0]]| else 0) + SpanSum(order[1..], traces)
  }

  ghost predicate Distinct<T>(s: seq<T>) {
    forall i, j :: 0 <= i < j < |s| ==> s[i] != s[j]
  }

  function Keys(s: seq<TraceId>): set<TraceId> {
    set k | k in s
  }

  /** The keys left after removing a set of them. */
  function Minus(order: seq<TraceId>, gone: set<TraceId>): seq<TraceId> {
    if order == [] then []
    else (if order[0] in gone then [] else [order[0]]) + Minus(order[1..], gone)
  }

  // ----- operations on the state --------------------------------------------

  /** Drop a set of stored traces. */
  function DropSet(s: Store, gone: set<TraceId>): Store {
    var order := Minus(s.order, gone);
    var spans := SpanSum(s.order, s.traces) - SpanSum(order, s.traces);
    s.(order := order, traces := s.traces - gone, timestamps := s.timestamps - gone,
       totalSpans := s.totalSpans - spans,
       evictedTraces := s.evictedTraces + if |order| <= |s.order| then |s.order| - |order| else 0,
       lost := s.lost + spans)
  }

  function StaleIds(s: Store, cutoff: real): set<TraceId> {
    set id | id in s.timestamps && s.timestamps[id] < cutoff
  }

  function Expire(l: Limits, s: Store, now: real): Store {
    if l.ttl <= 0.0 then s else DropSet(s, StaleIds(s, now - l.ttl))
  }

  /** Appending to a stored trace, up to the per-trace cap. */
  function Append(l: Limits, s: Store, id: TraceId, spans: seq<Span>, now: real): Store
    requires id in s.traces
  {
    var all := s.traces[id] + spans;
    var kept := Take(all, l.maxSpansPerTrace);
    s.(order := Without(s.order, id) + [id], traces := s.traces[id := kept], timestamps := s.timestamps[id := now],
       totalSpans := s.totalSpans + |kept| - |s.traces[id]|,
       spansTruncated := s.spansTruncated + (|all| - |kept|))
  }

  /** Evicting the oldest traces while the store is full. */
  function Evict(l: Limits, s: Store): Store
    requires l.Valid()
  {
    if |s.order| >= l.maxTraces then DropSet(s, Keys(s.order[..|s.order| - l.maxTraces + 1])) else s
  }

  /** A new trace, after evicting down to one free place. */
  function Admit(l: Limits, s: Store, id: TraceId, spans: seq<Span>, now: real): Store
    requires l.Valid()
  {
    var s1 := Evict(l, s);
    var kept := Take(spans, l.maxSpansPerTrace);
    s1.(order := s1.order + [id], traces := s1.traces[id := kept], timestamps := s1.timestamps[id := now],
        totalSpans := s1.totalSpans + |kept|, spansTruncated := s1.spansTruncated + (|spans| - |kept|))
  }

  function Insert(l: Limits, s: Store, id: TraceId, spans: seq<Span>, expiryNow: real, now: real): Store
    requires l.Valid()
  {
    var s1 := Expire(l, s, expiryNow);
    if id in s1.traces then Append(l, s1, id, spans, now) else Admit(l, s1, id, spans, now)
  }

  // ----- what every operation keeps -----------------------------------------

  /** The keys are distinct, agree with the timestamps, and stand in the order of their last update. */
  ghost predicate Ordered(order: seq<TraceId>, timestamps: map<TraceId, real>, now: real) {
    && Distinct(order)
    && (forall i :: 0 <= i < |order| ==> order[i] in timestamps)
    && (forall id :: id in timestamps ==> id in order && timestamps[id] <= now)
    && (forall i, j :: 0 <= i < j < |order| && order[i] in timestamps && order[j] in timestamps
          ==> timestamps[order[i]] <= timestamps[order[j]])
  }

  /** Keys agree, the order is by last update, both caps hold and the running total is right. */
  ghost predicate Consistent(l: Limits, s: Store, now: real) {
    && Ordered(s.order, s.timestamps, now)
    && s.timestamps.Keys == s.traces.Keys
    && |s.order| <= l.maxTraces
    && (forall id :: id in s.traces ==> |s.traces[id]| <= l.maxSpansPerTrace)
    && s.totalSpans == SpanSum(s.order, s.traces)
  }

  lemma {:induction false} WithoutIsMinus(order: seq<TraceId>, id: TraceId)
    ensures Without(order, id) == Minus(order, {id})
  {
    if order != [] { WithoutIsMinus(order[1..], id); }
  }

  lemma {:induction false} MinusSplit(a: seq<TraceId>, b: seq<TraceId>, gone: set<TraceId>)
    ensures Minus(a + b, gone) == Minus(a, gone) + Minus(b, gone)
  {
    if a == [] {
      assert a + b == b;
    } else {
      assert (a + b)[1..] == a[1..] + b;
      MinusSplit(a[1..], b, gone);
    }
  }

  lemma {:induction false} MinusNone(order: seq<TraceId>, gone: set<TraceId>)
    requires forall k :: k in order ==> k !in gone
    ensures Minus(order, gone) == order
  {
    if order != [] { MinusNone(order[1..], gone); }
  }

  lemma {:induction false} MinusAll(order: seq<TraceId>, gone: set<TraceId>)
    requires forall k :: k in order ==> k in gone
    ensures Minus(order, gone) == []
  {
    if order != [] { MinusAll(order[1..], gone); }
  }

  lemma {:induction false} MinusTwice(order: seq<TraceId>, a: set<TraceId>, b: set<TraceId>)
    ensures Minus(Minus(order, a), b) == Minus(order, a + b)
  {
    if order != [] {
      MinusTwice(order[1..], a, b);
      var rest := Minus(order[1..], a);
      if order[0] in a {
        assert Minus(order, a) == rest;
      } else {
        assert Minus(order, a)[0] == order[0] && Minus(order, a)[1..] == rest;
      }
    }
  }

  lemma {:induction false} MinusMembers(order: seq<TraceId>, gone: set<TraceId>)
    ensures forall k :: k in Minus(order, gone) <==> k in order && k !in gone
    ensures |Minus(order, gone)| <= |order|
  {
    if order != [] { MinusMembers(order[1..], gone); }
  }

  /** Removing the first n of distinct keys leaves the rest. */
  lemma MinusPrefix(order: seq<TraceId>, n: nat, gone: set<TraceId>)
    requires Distinct(order) && n <= |order|
    requires forall i :: 0 <= i < |order| ==> (order[i] in gone <==> i < n)
    ensures Minus(order, gone) == order[n..]
  {
    assert order == order[..n] + order[n..];
    MinusSplit(order[..n], order[n..], gone);
    MinusAll(order[..n], gone);
    MinusNone(order[n..], gone);
  }

  lemma {:induction false} SumSplit(a: seq<TraceId>, b: seq<TraceId>, traces: map<TraceId, seq<Span>>)
    ensures SpanSum(a + b, traces) == SpanSum(a, traces) + SpanSum(b, traces)
  {
    if a == [] {
      assert a + b == b;
    } else {
      assert (a + b)[1..] == a[1..] + b;
      SumSplit(a[1..], b, traces);
    }
  }

  lemma {:induction false} SumFrame(order: seq<TraceId>, t: map<TraceId, seq<Span>>, t': map<TraceId, seq<Span>>)
    requires forall id :: id in order ==> (id in t <==> id in t') && (id in t ==> |t[id]| == |t'[id]|)
    ensures SpanSum(order, t) == SpanSum(order, t')
  {
    if order != [] { SumFrame(order[1..], t, t'); }
  }

  /** The first n keys are the ones a removal takes. */
  ghost predicate TakesFirst(order: seq<TraceId>, gone: set<TraceId>, n: nat) {
    n <= |order| && forall i :: 0 <= i < |order| ==> (order[i] in gone <==> i < n)
  }

  lemma SuffixOrdered(order: seq<TraceId>, timestamps: map<TraceId, real>, gone: set<TraceId>, n: nat, now: real)
    requires Ordered(order, timestamps, now) && TakesFirst(order, gone, n)
    ensures Ordered(order[n..], timestamps - gone, now)
  {
    var rest := order[n..];
    assert forall i :: 0 <= i < |rest| ==> rest[i] == order[n + i];
    forall id | id in timestamps - gone ensures id in rest {
      var i :| 0 <= i < |order| && order[i] == id;
      assert rest[i - n] == id;
    }
  }

  lemma SuffixKept(order: seq<TraceId>, gone: set<TraceId>, n: nat)
    requires TakesFirst(order, gone, n)
    ensures forall id :: id in order[n..] ==> id !in gone
  {
    assert forall i :: 0 <= i < |order[n..]| ==> order[n..][i] == order[n + i];
  }

  /** Dropping the n least recently updated traces. */
  lemma DropPrefixKeeps(l: Limits, s: Store, n: nat, gone: set<TraceId>, now: real)
    requires Consistent(l, s, now) && TakesFirst(s.order, gone, n)
    ensures Consistent(l, DropSet(s, gone), now)
    ensures var s' := DropSet(s, gone);
            && s'.order == s.order[n..]
            && s'.totalSpans + s'.lost == s.totalSpans + s.lost
            && s'.lost == s.lost + SpanSum(s.order[..n], s.traces)
            && s'.evictedTraces == s.evictedTraces + n && s'.spansTruncated == s.spansTruncated
  {
    assert s.order == s.order[..n] + s.order[n..];
    SumSplit(s.order[..n], s.order[n..], s.traces);
    MinusPrefix(s.order, n, gone);
    SuffixOrdered(s.order, s.timestamps, gone, n, now);
    SuffixKept(s.order, gone, n);
    SumFrame(s.order[n..], s.traces, s.traces - gone);
  }

  /** In an order sorted by timestamp the stale traces are the first n. */
  lemma StaleIsPrefix(l: Limits, s: Store, cutoff: real, now: real) returns (n: nat)
    requires Consistent(l, s, now)
    ensures TakesFirst(s.order, StaleIds(s, cutoff), n)
  {
    n := 0;
    while n < |s.order| && s.timestamps[s.order[n]] < cutoff
      invariant n <= |s.order|
      invariant forall i :: 0 <= i < n ==> s.order[i] in StaleIds(s, cutoff)
    {
      n := n + 1;
    }
    forall i | n <= i < |s.order| ensures s.order[i] !in StaleIds(s, cutoff) {
      assert s.timestamps[s.order[n]] <= s.timestamps[s.order[i]];
    }
  }

  /** Expiry removes a prefix of the order: exactly the traces last updated before the cutoff. */
  lemma ExpireKeeps(l: Limits, s: Store, now: real) returns (n: nat)
    requires Consistent(l, s, now)
    ensures n <= |s.order| && (l.ttl <= 0.0 ==> n == 0)
    ensures Consistent(l, Expire(l, s, now), now)
    ensures var s' := Expire(l, s, now);
            && s'.order == s.order[n..] && s'.evictedTraces == s.evictedTraces + n
            && s'.totalSpans + s'.lost == s.totalSpans + s.lost
            && s'.lost == s.lost + SpanSum(s.order[..n], s.traces)
            && (forall i :: 0 <= i < |s.order| ==>
                  (i < n <==> l.ttl > 0.0 && s.timestamps[s.order[i]] < now - l.ttl))
  {
    if l.ttl <= 0.0 {
      assert s.order[0..] == s.order;
      return 0;
    }
    assert Expire(l, s, now) == DropSet(s, StaleIds(s, now - l.ttl));
    n := StaleIsPrefix(l, s, now - l.ttl, now);
    DropPrefixKeeps(l, s, n, StaleIds(s, now - l.ttl), now);
  }

  /** Expiry takes exactly the traces last updated before the cutoff and leaves the others as they are. */
  lemma ExpireContents(l: Limits, s: Store, now: real)
    requires s.timestamps.Keys == s.traces.Keys
    ensures var s' := Expire(l, s, now);
            && (forall id :: id in s'.traces <==> id in s.traces && (l.ttl > 0.0 ==> s.timestamps[id] >= now - l.ttl))
            && (forall id :: id in s'.traces ==> s'.traces[id] == s.traces[id])
            && s'.spansTruncated == s.spansTruncated
  {
  }

  // ----- insertion ----------------------------------------------------------

  /** Where an element of the order stands after the i-th one was moved to the end, read backwards. */
  function Source(i: nat, n: nat, k: nat): nat
    requires i < n && k < n
  {
    if k < i then k else if k < n - 1 then k + 1 else i
  }

  function MoveToEnd(order: seq<TraceId>, i: nat): (moved: seq<TraceId>)
    requires i < |order|
    ensures |moved| == |order|
    ensures forall k :: 0 <= k < |order| ==> moved[k] == order[Source(i, |order|, k)]
  {
    order[..i] + order[i + 1..] + [order[i]]
  }

  /** Removing one of several distinct keys cuts it out at its position. */
  lemma {:induction false} WithoutCuts(order: seq<TraceId>, i: nat)
    requires Distinct(order) && i < |order|
    ensures Without(order, order[i]) == order[..i] + order[i + 1..]
  {
    if i == 0 {
      WithoutIsMinus(order[1..], order[0]);
      MinusNone(order[1..], {order[0]});
    } else {
      WithoutCuts(order[1..], i - 1);
      assert order[1..][..i - 1] == order[1..i] && order[1..][i - 1 + 1..] == order[i + 1..];
      assert [order[0]] + order[1..i] == order[..i];
    }
  }

  lemma MovedIsLast(order: seq<TraceId>, i: nat)
    requires Distinct(order) && i < |order|
    ensures Without(order, order[i]) + [order[i]] == MoveToEnd(order, i)
  {
    WithoutCuts(order, i);
  }

  lemma MovedOrdered(order: seq<TraceId>, timestamps: map<TraceId, real>, i: nat, before: real, now: real)
    requires Ordered(order, timestamps, before) && before <= now && i < |order|
    ensures Ordered(MoveToEnd(order, i), timestamps[order[i] := now], now)
  {
    var n, moved, t := |order|, MoveToEnd(order, i), timestamps[order[i] := now];
    forall k, m | 0 <= k < m < n ensures moved[k] != moved[m] && t[moved[k]] <= t[moved[m]] {
      var x, y := Source(i, n, k), Source(i, n, m);
      assert moved[k] == order[x] && moved[m] == order[y] && x != y;
      assert order[x] != order[y] && order[x] != order[i];
    }
    forall id | id in t ensures id in moved && t[id] <= now {
      var k :| 0 <= k < n && order[k] == id;
      var m := if k < i then k else if k == i then n - 1 else k - 1;
      assert Source(i, n, m) == k && moved[m] == id;
    }
  }

  lemma AppendedOrdered(order: seq<TraceId>, timestamps: map<TraceId, real>, id: TraceId, before: real, now: real)
    requires Ordered(order, timestamps, before) && before <= now && id !in timestamps
    ensures Ordered(order + [id], timestamps[id := now], now)
  {
    var longer := order + [id];
    assert forall k :: 0 <= k < |longer| ==> longer[k] == if k < |order| then order[k] else id;
    forall k | k in timestamps ensures k in longer {
      var i :| 0 <= i < |order| && order[i] == k;
      assert longer[i] == k;
    }
    assert longer[|order|] == id;
  }

  lemma MovedSum(order: seq<TraceId>, i: nat, t: map<TraceId, seq<Span>>, kept: seq<Span>)
    requires Distinct(order) && i < |order| && order[i] in t
    ensures SpanSum(MoveToEnd(order, i), t[order[i] := kept]) == SpanSum(order, t) - |t[order[i]]| + |kept|
  {
    var a, id, b := order[..i], order[i], order[i + 1..];
    assert order == a + ([id] + b);
    SumSplit(a, [id] + b, t);
    SumSplit([id], b, t);
    SumSplit(a, b, t);
    SumSplit(a + b, [id], t[id := kept]);
    assert id !in a && id !in b;
    SumFrame(a + b, t, t[id := kept]);
  }

  /** The invariant from its parts. */
  lemma Assemble(l: Limits, s: Store, order: seq<TraceId>, timestamps: map<TraceId, real>, now: real)
    requires s.order == order && s.timestamps == timestamps && Ordered(order, timestamps, now)
    requires timestamps.Keys == s.traces.Keys && |order| <= l.maxTraces && s.totalSpans == SpanSum(order, s.traces)
    requires forall id :: id in s.traces ==> |s.traces[id]| <= l.maxSpansPerTrace
    ensures Consistent(l, s, now)
  {
  }

  lemma AppendCaps(l: Limits, s: Store, id: TraceId, spans: seq<Span>, now: real)
    requires id in s.traces && s.timestamps.Keys == s.traces.Keys
    requires forall k :: k in s.traces ==> |s.traces[k]| <= l.maxSpansPerTrace
    ensures var s' := Append(l, s, id, spans, now);
            && s'.timestamps == s.timestamps[id := now] && s'.timestamps.Keys == s'.traces.Keys
            && forall k :: k in s'.traces ==> |s'.traces[k]| <= l.maxSpansPerTrace
  {
  }

  lemma AppendKeeps(l: Limits, s: Store, id: TraceId, spans: seq<Span>, before: real, now: real)
    requires Consistent(l, s, before) && before <= now && id in s.traces
    ensures Consistent(l, Append(l, s, id, spans, now), now)
    ensures Append(l, s, id, spans, now).order == Without(s.order, id) + [id]
  {
    var i :| 0 <= i < |s.order| && s.order[i] == id;
    MovedIsLast(s.order, i);
    MovedOrdered(s.order, s.timestamps, i, before, now);
    MovedSum(s.order, i, s.traces, Take(s.traces[id] + spans, l.maxSpansPerTrace));
    AppendCaps(l, s, id, spans, now);
    Assemble(l, Append(l, s, id, spans, now), MoveToEnd(s.order, i), s.timestamps[id := now], now);
  }

  /** Making room for a new trace: the most recent maxTraces - 1 stay. */
  lemma EvictKeeps(l: Limits, s: Store, now: real)
    requires l.Valid() && Consistent(l, s, now)
    ensures Consistent(l, Evict(l, s), now)
    ensures var s' := Evict(l, s);
            && s'.order == LastK(s.order, l.maxTraces - 1)
            && s'.totalSpans + s'.lost == s.totalSpans + s.lost
  {
    var n := |s.order| - l.maxTraces + 1;
    if n > 0 {
      FirstKeys(s.order, n);
      DropPrefixKeeps(l, s, n, Keys(s.order[..n]), now);
    }
  }

  lemma EvictCounts(l: Limits, s: Store, now: real) returns (n: nat)
    requires l.Valid() && Consistent(l, s, now)
    ensures n == (if |s.order| >= l.maxTraces then |s.order| - l.maxTraces + 1 else 0)
    ensures var s' := Evict(l, s);
            && s'.lost == s.lost + SpanSum(s.order[..n], s.traces)
            && s'.evictedTraces == s.evictedTraces + n && s'.spansTruncated == s.spansTruncated
  {
    n := 0;
    if |s.order| >= l.maxTraces {
      n := |s.order| - l.maxTraces + 1;
      FirstKeys(s.order, n);
      DropPrefixKeeps(l, s, n, Keys(s.order[..n]), now);
    }
  }

  lemma AdmitKeeps(l: Limits, s: Store, id: TraceId, spans: seq<Span>, before: real, now: real)
    requires l.Valid() && Consistent(l, s, before) && before <= now && id !in s.traces
    ensures Consistent(l, Admit(l, s, id, spans, now), now)
    ensures Admit(l, s, id, spans, now).order == LastK(s.order, l.maxTraces - 1) + [id]
  {
    EvictKeeps(l, s, before);
    var s1 := Evict(l, s);
    AppendedOrdered(s1.order, s1.timestamps, id, before, now);
    AppendedSum(s1.order, s1.traces, id, Take(spans, l.maxSpansPerTrace));
    Assemble(l, Admit(l, s, id, spans, now), s1.order + [id], s1.timestamps[id := now], now);
  }

  lemma AppendedSum(order: seq<TraceId>, t: map<TraceId, seq<Span>>, id: TraceId, kept: seq<Span>)
    requires id !in order
    ensures SpanSum(order + [id], t[id := kept]) == SpanSum(order, t) + |kept|
  {
    SumSplit(order, [id], t[id := kept]);
    SumFrame(order, t, t[id := kept]);
  }

  lemma FirstKeys(order: seq<TraceId>, n: nat)
    requires Distinct(order) && n <= |order|
    ensures TakesFirst(order, Keys(order[..n]), n)
  {
    forall i | 0 <= i < |order| ensures order[i] in Keys(order[..n]) <==> i < n {
      if i < n { assert order[..n][i] == order[i]; }
    }
  }

  /** Whatever is inserted, the invariant holds again. */
  lemma InsertKeeps(l: Limits, s: Store, id: TraceId, spans: seq<Span>, before: real, expiryNow: real, now: real)
    requires l.Valid() && Consistent(l, s, before) && before <= expiryNow <= now
    ensures Consistent(l, Insert(l, s, id, spans, expiryNow, now), now)
  {
    OrderedLater(l, s, before, expiryNow);
    var n := ExpireKeeps(l, s, expiryNow);
    var s1 := Expire(l, s, expiryNow);
    if id in s1.traces {
      AppendKeeps(l, s1, id, spans, expiryNow, now);
    } else {
      AdmitKeeps(l, s1, id, spans, expiryNow, now);
    }
  }

  /** Every span ever inserted is stored, was cut off by the cap, or went with a trace evicted or expired. */
  lemma InsertConserves(l: Limits, s: Store, id: TraceId, spans: seq<Span>, expiryNow: real, now: real)
    requires l.Valid()
    ensures var s' := Insert(l, s, id, spans, expiryNow, now);
            s'.totalSpans + s'.lost + s'.spansTruncated == s.totalSpans + s.lost + s.spansTruncated + |spans|
  {
  }

  /** The i-th trace in the order was last updated too long ago. */
  ghost predicate StaleAt(l: Limits, s: Store, now: real, i: int) {
    && 0 <= i < |s.order| && s.order[i] in s.timestamps
    && l.ttl > 0.0 && s.timestamps[s.order[i]] < now - l.ttl
  }

  ghost predicate StoredFresh(l: Limits, s: Store, now: real, id: TraceId) {
    exists i :: 0 <= i < |s.order| && s.order[i] == id && !StaleAt(l, s, now, i)
  }

  /**
   What each counter grows by, one by one. The traces removed are the n least recently updated:
   the stale ones and, for a new trace, as many more as make room for it. Lost are their spans;
   truncated is what the trace would hold beyond the cap.
   */
  lemma InsertCounts(l: Limits, s: Store, id: TraceId, spans: seq<Span>, before: real, expiryNow: real, now: real)
    returns (n: nat)
    requires l.Valid() && Consistent(l, s, before) && before <= expiryNow <= now
    ensures n <= |s.order|
    ensures forall i :: 0 <= i < |s.order| ==>
              (i < n <==> StaleAt(l, s, expiryNow, i) ||
                          (!StoredFresh(l, s, expiryNow, id) && |s.order| - i >= l.maxTraces))
    ensures var s' := Insert(l, s, id, spans, expiryNow, now);
            var held := if StoredFresh(l, s, expiryNow, id) then |s.traces[id]| else 0;
            && s'.lost == s.lost + SpanSum(s.order[..n], s.traces)
            && s'.evictedTraces == s.evictedTraces + n
            && s'.spansTruncated == s.spansTruncated + Over(held + |spans|, l.maxSpansPerTrace)
  {
    OrderedLater(l, s, before, expiryNow);
    n := StaleFirst(l, s, id, expiryNow);
    var s1 := Expire(l, s, expiryNow);
    InsertAddsUp(l, s, id, spans, expiryNow, now);
    hide *;
    if id !in s1.traces {
      var k := EvictCounts(l, s1, expiryNow);
      JoinSums(s.order, n, k, s.traces, s1.traces);
      n := n + k;
    }
  }

  lemma StaleFirst(l: Limits, s: Store, id: TraceId, now: real) returns (m: nat)
    requires Consistent(l, s, now)
    ensures m <= |s.order|
    ensures forall i :: 0 <= i < |s.order| ==> (i < m <==> StaleAt(l, s, now, i))
    ensures var s1 := Expire(l, s, now);
            && Consistent(l, s1, now) && s1.order == s.order[m..]
            && (id in s1.traces <==> StoredFresh(l, s, now, id))
            && (id in s1.traces ==> |s1.traces[id]| == |s.traces[id]|)
            && (forall k :: k in s1.order ==> k in s.traces && k in s1.traces && |s.traces[k]| == |s1.traces[k]|)
            && s1.lost == s.lost + SpanSum(s.order[..m], s.traces)
            && s1.evictedTraces == s.evictedTraces + m && s1.spansTruncated == s.spansTruncated
  {
    m := ExpireKeeps(l, s, now);
    assert forall i :: 0 <= i < |s.order| ==> (i < m <==> StaleAt(l, s, now, i));
    ExpiredHolds(l, s, Expire(l, s, now), m, id, now);
    ExpireContents(l, s, now);
    hide *;
  }

  lemma ExpiredHolds(l: Limits, s: Store, s1: Store, m: nat, id: TraceId, now: real)
    requires s1 == Expire(l, s, now) && Consistent(l, s, now) && Consistent(l, s1, now)
    requires m <= |s.order| && s1.order == s.order[m..]
    requires forall i :: 0 <= i < |s.order| ==> (i < m <==> StaleAt(l, s, now, i))
    ensures id in s1.traces <==> StoredFresh(l, s, now, id)
    ensures id in s1.traces ==> |s1.traces[id]| == |s.traces[id]|
    ensures forall k :: k in s1.order ==> k in s.traces && k in s1.traces && |s.traces[k]| == |s1.traces[k]|
  {
    ExpireContents(l, s, now);
    hide DropSet, Expire;
    StoredAfterExpiry(s, s1, m, id);
  }

  /** The sum over the first m + k is that over the first m and that over the k after them. */
  lemma JoinSums(order: seq<TraceId>, m: nat, k: nat, t: map<TraceId, seq<Span>>, t': map<TraceId, seq<Span>>)
    requires m + k <= |order|
    requires forall id :: id in order[m..] ==> (id in t <==> id in t') && (id in t ==> |t[id]| == |t'[id]|)
    ensures SpanSum(order[..m + k], t) == SpanSum(order[..m], t) + SpanSum(order[m..][..k], t')
  {
    assert order[..m + k] == order[..m] + order[m..][..k];
    SumSplit(order[..m], order[m..][..k], t);
    SumFrame(order[m..][..k], t, t');
  }

  lemma StoredAfterExpiry(s: Store, s1: Store, n: nat, id: TraceId)
    requires n <= |s.order| && s1.order == s.order[n..] && forall k :: k in s1.traces <==> k in s1.order
    ensures id in s1.traces <==> exists i :: n <= i < |s.order| && s.order[i] == id
  {
    if id in s1.traces {
      var i :| 0 <= i < |s1.order| && s1.order[i] == id;
      assert s.order[n + i] == id;
    }
    forall i | n <= i < |s.order| && s.order[i] == id
      ensures id in s1.traces
    {
      assert s1.order[i - n] == id;
    }
  }

  lemma InsertAddsUp(l: Limits, s: Store, id: TraceId, spans: seq<Span>, expiryNow: real, now: real)
    requires l.Valid()
    ensures var s1 := Expire(l, s, expiryNow);
            var s2 := if id in s1.traces then s1 else Evict(l, s1);
            var held := if id in s1.traces then |s1.traces[id]| else 0;
            var s' := Insert(l, s, id, spans, expiryNow, now);
            && s'.lost == s2.lost && s'.evictedTraces == s2.evictedTraces
            && s'.spansTruncated == s2.spansTruncated + Over(held + |spans|, l.maxSpansPerTrace)
  {
    hide DropSet, Expire, Evict;
  }

  /** The trace holds its old spans followed by the new ones, cut at the cap; no other stored trace changes. */
  lemma InsertContents(l: Limits, s: Store, id: TraceId, spans: seq<Span>, expiryNow: real, now: real)
    requires l.Valid()
    ensures var s' := Insert(l, s, id, spans, expiryNow, now);
            var before := if id in Expire(l, s, expiryNow).traces then s.traces[id] else [];
            && id in s'.traces && s'.traces[id] == Take(before + spans, l.maxSpansPerTrace)
            && s'.order != [] && s'.order[|s'.order| - 1] == id
            && forall k :: k in s'.traces && k != id ==> k in s.traces && s'.traces[k] == s.traces[k]
  {
    assert [] + spans == spans;
  }

  lemma OrderedLater(l: Limits, s: Store, before: real, now: real)
    requires Consistent(l, s, before) && before <= now
    ensures Consistent(l, s, now)
  {
  }

  // ----- whole histories ----------------------------------------------------

  /** Every call that changes the store; recent() and search() expire too. */
  datatype Op = Put(id: TraceId, spans: seq<Span>, expiryNow: real, now: real) | Look(now: real)

  const EMPTY := Store([], map[], map[], 0, 0, 0, 0)

  function Apply(l: Limits, s: Store, op: Op): Store
    requires l.Valid()
  {
    match op
    case Put(id, spans, expiryNow, now) => Insert(l, s, id, spans, expiryNow, now)
    case Look(now) => Expire(l, s, now)
  }

  function Run(l: Limits, ops: seq<Op>): Store
    requires l.Valid()
  {
    if ops == [] then EMPTY else Apply(l, Run(l, ops[..|ops| - 1]), ops[|ops| - 1])
  }

  function Begins(op: Op): real {
    if op.Put? then op.expiryNow else op.now
  }

  /** The monotonic clock never goes back, within one call and from call to call. */
  predicate ClockForward(ops: seq<Op>) {
    && (forall i :: 0 <= i < |ops| ==> Begins(ops[i]) <= ops[i].now)
    && (forall i, j :: 0 <= i < j < |ops| ==> ops[i].now <= Begins(ops[j]))
  }

  /** Trace ids in insertion order. */
  function InsertedIds(ops: seq<Op>): seq<TraceId> {
    if ops == [] then []
    else InsertedIds(ops[..|ops| - 1]) + if ops[|ops| - 1].Put? then [ops[|ops| - 1].id] else []
  }

  function InsertedSpans(ops: seq<Op>): nat {
    if ops == [] then 0
    else InsertedSpans(ops[..|ops| - 1]) + if ops[|ops| - 1].Put? then |ops[|ops| - 1].spans| else 0
  }

  /** Each id once, at the place of its last occurrence. */
  function DistinctByLast(h: seq<TraceId>): seq<TraceId> {
    if h == [] then []
    else if h[0] in h[1..] then DistinctByLast(h[1..])
    else [h[0]] + DistinctByLast(h[1..])
  }

  lemma {:induction false} DistinctByLastMeans(h: seq<TraceId>)
    ensures Distinct(DistinctByLast(h))
    ensures forall id :: id in DistinctByLast(h) <==> id in h
  {
    if h != [] {
      DistinctByLastMeans(h[1..]);
      assert forall id :: id in h <==> id == h[0] || id in h[1..];
    }
  }

  /** One more occurrence moves the id to the end. */
  lemma {:induction false} DistinctByLastStep(h: seq<TraceId>, id: TraceId)
    ensures DistinctByLast(h + [id]) == Without(DistinctByLast(h), id) + [id]
  {
    if h == [] {
      assert h + [id] == [id];
    } else {
      assert (h + [id])[1..] == h[1..] + [id];
      DistinctByLastStep(h[1..], id);
      if h[0] !in h[1..] {
        var rest := DistinctByLast(h[1..]);
        assert ([h[0]] + rest)[1..] == rest;
      }
    }
  }

  ghost predicate Suffix(a: seq<TraceId>, b: seq<TraceId>) {
    |a| <= |b| && b == b[..|b| - |a|] + a
  }

  lemma SuffixOfSuffix(a: seq<TraceId>, b: seq<TraceId>, n: nat)
    requires Suffix(a, b) && n <= |a|
    ensures Suffix(a[n..], b)
  {
    assert b[..|b| - |a|] + a == b[..|b| - |a|] + a[..n] + a[n..];
    assert b[..|b| - |a| + n] == b[..|b| - |a|] + a[..n];
  }

  lemma SuffixMoves(a: seq<TraceId>, b: seq<TraceId>, id: TraceId)
    requires Suffix(a, b)
    ensures Suffix(Without(a, id) + [id], Without(b, id) + [id])
  {
    var p := b[..|b| - |a|];
    WithoutIsMinus(b, id);
    WithoutIsMinus(a, id);
    MinusSplit(p, a, {id});
    var x, y := Without(a, id) + [id], Without(b, id) + [id];
    assert y == Minus(p, {id}) + x;
  }

  lemma WithoutLength(order: seq<TraceId>, id: TraceId)
    requires Distinct(order)
    ensures |Without(order, id)| == |order| - if id in order then 1 else 0
    ensures id !in order ==> Without(order, id) == order
  {
    if id in order {
      var i :| 0 <= i < |order| && order[i] == id;
      WithoutCuts(order, i);
    } else {
      WithoutIsMinus(order, id);
      MinusNone(order, {id});
    }
  }

  /** What an insertion does to the order alone. */
  lemma InsertOrder(l: Limits, s: Store, id: TraceId, spans: seq<Span>, before: real, expiryNow: real, now: real)
    returns (n: nat)
    requires l.Valid() && Consistent(l, s, before) && before <= expiryNow <= now
    ensures n <= |s.order| && (l.ttl == 0.0 ==> n == 0)
    ensures var kept := s.order[n..];
            && Distinct(kept)
            && Insert(l, s, id, spans, expiryNow, now).order ==
               (if id in kept then Without(kept, id) else LastK(kept, l.maxTraces - 1)) + [id]
  {
    OrderedLater(l, s, before, expiryNow);
    n := ExpireKeeps(l, s, expiryNow);
    var s1 := Expire(l, s, expiryNow);
    if id in s1.traces {
      AppendKeeps(l, s1, id, spans, expiryNow, now);
    } else {
      AdmitKeeps(l, s1, id, spans, expiryNow, now);
    }
  }

  /**
   After any history under a forward clock the store is consistent, its key order is a
   suffix of the distinct ids by last insert, and with expiry off it is exactly the
   last maxTraces of them.
   */
  lemma {:induction false} RunIsRecency(l: Limits, ops: seq<Op>, now: real)
    requires l.Valid() && ClockForward(ops) && (ops != [] ==> ops[|ops| - 1].now <= now)
    ensures Consistent(l, Run(l, ops), now)
    ensures Suffix(Run(l, ops).order, DistinctByLast(InsertedIds(ops)))
    ensures l.ttl == 0.0 ==> Run(l, ops).order == LastK(DistinctByLast(InsertedIds(ops)), l.maxTraces)
    decreases |ops|
  {
    if ops == [] { return; }
    var init, op := ops[..|ops| - 1], ops[|ops| - 1];
    RunIsRecency(l, init, Begins(op));
    var s, d := Run(l, init), DistinctByLast(InsertedIds(init));
    match op
    case Look(t) =>
      var n := ExpireKeeps(l, s, t);
      SuffixOfSuffix(s.order, d, n);
      OrderedLater(l, Run(l, ops), t, now);
      assert InsertedIds(ops) == InsertedIds(init);
    case Put(id, spans, expiryNow, t) =>
      InsertKeeps(l, s, id, spans, expiryNow, expiryNow, t);
      OrderedLater(l, Run(l, ops), t, now);
      var n := InsertOrder(l, s, id, spans, expiryNow, expiryNow, t);
      RecencyStep(l, s.order, d, n, id);
      DistinctByLastStep(InsertedIds(init), id);
      DistinctByLastMeans(InsertedIds(init));
      if l.ttl == 0.0 { RecencyStepExact(l, s.order, d, id); }
  }

  lemma RecencyStep(l: Limits, order: seq<TraceId>, d: seq<TraceId>, n: nat, id: TraceId)
    requires l.Valid() && Suffix(order, d) && n <= |order| && Distinct(order[n..])
    ensures var kept := order[n..];
            Suffix((if id in kept then Without(kept, id) else LastK(kept, l.maxTraces - 1)) + [id],
                   Without(d, id) + [id])
  {
    var kept := order[n..];
    SuffixOfSuffix(order, d, n);
    SuffixMoves(kept, d, id);
    if id !in kept {
      WithoutLength(kept, id);
      var k := if l.maxTraces - 1 < |kept| then |kept| - (l.maxTraces - 1) else 0;
      SuffixOfSuffix(kept + [id], Without(d, id) + [id], k);
      assert (kept + [id])[k..] == LastK(kept, l.maxTraces - 1) + [id];
    }
  }

  lemma RecencyStepExact(l: Limits, order: seq<TraceId>, d: seq<TraceId>, id: TraceId)
    requires l.Valid() && order == LastK(d, l.maxTraces) && Distinct(d)
    ensures (if id in order then Without(order, id) else LastK(order, l.maxTraces - 1)) + [id]
         == LastK(Without(d, id) + [id], l.maxTraces)
  {
    assert order[0..] == order;
    assert Suffix(order, d);
    RecencyStep(l, order, d, 0, id);
    WithoutLength(d, id);
    WithoutLength(order, id);
    if id in order { assert id in d; }
    var x := (if id in order then Without(order, id) else LastK(order, l.maxTraces - 1)) + [id];
    var y := Without(d, id) + [id];
    assert x == y[|y| - |x|..];
  }

  /** Over any history whatsoever no span is unaccounted for. */
  lemma {:induction false} RunConserves(l: Limits, ops: seq<Op>)
    requires l.Valid()
    ensures var s := Run(l, ops); s.totalSpans + s.lost + s.spansTruncated == InsertedSpans(ops)
    decreases |ops|
  {
    if ops != [] {
      var init, op := ops[..|ops| - 1], ops[|ops| - 1];
      RunConserves(l, init);
      if op.Put? { InsertConserves(l, Run(l, init), op.id, op.spans, op.expiryNow, op.now); }
    }
  }

  /**
   Under a forward clock: every inserted span is in the store, was cut off by the cap, or left
   with a trace that was evicted or expired.
   */
  lemma EverySpanAccounted(l: Limits, ops: seq<Op>, now: real)
    requires l.Valid() && ClockForward(ops) && (ops != [] ==> ops[|ops| - 1].now <= now)
    ensures var s := Run(l, ops); SpanSum(s.order, s.traces) + s.lost + s.spansTruncated == InsertedSpans(ops)
  {
    RunConserves(l, ops);
    RunIsRecency(l, ops, now);
  }

  // ----- histories in which nothing is removed ---------------------------------

  /** All spans inserted under one id, in order. */
  function SpansOf(ops: seq<Op>, id: TraceId): seq<Span> {
    if ops == [] then []
    else
      var op := ops[|ops| - 1];
      SpansOf(ops[..|ops| - 1], id) + if op.Put? && op.id == id then op.spans else []
  }

  lemma {:induction false} DistinctByLastGrows(h: seq<TraceId>, id: TraceId)
    ensures |DistinctByLast(h)| <= |DistinctByLast(h + [id])|
    ensures id !in h ==> |DistinctByLast(h + [id])| == |DistinctByLast(h)| + 1
  {
    DistinctByLastStep(h, id);
    DistinctByLastMeans(h);
    WithoutLength(DistinctByLast(h), id);
  }

  /** An id not inserted so far has no spans. */
  lemma {:induction false} NoSpans(ops: seq<Op>, id: TraceId)
    requires id !in InsertedIds(ops)
    ensures SpansOf(ops, id) == []
    decreases |ops|
  {
    if ops != [] { NoSpans(ops[..|ops| - 1], id); }
  }

  /** A trace is stored for every id inserted, with the first spans inserted under it, up to the cap. */
  ghost predicate HoldsAll(l: Limits, s: Store, ops: seq<Op>) {
    && (forall id :: id in s.traces <==> id in InsertedIds(ops))
    && (forall id :: id in s.traces ==> s.traces[id] == Take(SpansOf(ops, id), l.maxSpansPerTrace))
  }

  /**
   With expiry off and no more ids than there are places, a trace holds the first spans inserted
   under its id, as many as the cap allows, and nothing is lost.
   */
  lemma {:induction false} RunKeepsAll(l: Limits, ops: seq<Op>, now: real)
    requires l.Valid() && l.ttl == 0.0 && ClockForward(ops) && (ops != [] ==> ops[|ops| - 1].now <= now)
    requires |DistinctByLast(InsertedIds(ops))| <= l.maxTraces
    ensures var s := Run(l, ops);
            && HoldsAll(l, s, ops) && s.lost == 0 && s.evictedTraces == 0
    decreases |ops|
  {
    if ops == [] { return; }
    var init, op := ops[..|ops| - 1], ops[|ops| - 1];
    if op.Put? {
      DistinctByLastGrows(InsertedIds(init), op.id);
    } else {
      assert InsertedIds(ops) == InsertedIds(init);
    }
    RunKeepsAll(l, init, Begins(op));
    RunIsRecency(l, init, Begins(op));
    hide HoldsAll, Apply, Consistent, Suffix;
    if op.Put? {
      PutKeepsAll(l, init, op);
      PutHoldsAll(l, Run(l, init), Run(l, ops), ops);
    } else {
      LookKeeps(l, Run(l, init), op);
      LookHoldsAll(l, Run(l, init), ops);
    }
  }

  lemma PutHoldsAll(l: Limits, s: Store, s': Store, ops: seq<Op>)
    requires ops != [] && ops[|ops| - 1].Put? && HoldsAll(l, s, ops[..|ops| - 1])
    requires var op := ops[|ops| - 1];
             && s'.traces.Keys == s.traces.Keys + {op.id}
             && s'.traces[op.id] == Take(SpansOf(ops[..|ops| - 1], op.id) + op.spans, l.maxSpansPerTrace)
             && forall id :: id in s.traces && id != op.id ==> s'.traces[id] == s.traces[id]
    ensures HoldsAll(l, s', ops)
  {
    var init, op := ops[..|ops| - 1], ops[|ops| - 1];
    forall id | id in s'.traces ensures s'.traces[id] == Take(SpansOf(ops, id), l.maxSpansPerTrace) {
      if id != op.id { assert SpansOf(ops, id) == SpansOf(init, id) + []; }
    }
    assert forall id :: id in s'.traces <==> id == op.id || id in s.traces;
  }

  lemma LookHoldsAll(l: Limits, s: Store, ops: seq<Op>)
    requires ops != [] && ops[|ops| - 1].Look? && HoldsAll(l, s, ops[..|ops| - 1])
    ensures HoldsAll(l, s, ops)
  {
    var init := ops[..|ops| - 1];
    forall id | id in s.traces ensures SpansOf(ops, id) == SpansOf(init, id) {
      assert SpansOf(ops, id) == SpansOf(init, id) + [];
    }
    assert InsertedIds(ops) == InsertedIds(init) + [];
  }

  lemma LookKeeps(l: Limits, s: Store, op: Op)
    requires l.Valid() && l.ttl == 0.0 && op.Look?
    ensures Apply(l, s, op) == s
  {
  }

  lemma PutKeepsAll(l: Limits, init: seq<Op>, op: Op)
    requires l.Valid() && l.ttl == 0.0 && op.Put?
    requires |DistinctByLast(InsertedIds(init) + [op.id])| <= l.maxTraces
    requires var s := Run(l, init);
             && HoldsAll(l, s, init) && s.lost == 0 && s.evictedTraces == 0
             && s.order == LastK(DistinctByLast(InsertedIds(init)), l.maxTraces)
    ensures var s := Apply(l, Run(l, init), op);
            && s.traces.Keys == Run(l, init).traces.Keys + {op.id}
            && s.lost == 0 && s.evictedTraces == 0
            && s.traces[op.id] == Take(SpansOf(init, op.id) + op.spans, l.maxSpansPerTrace)
            && forall id :: id in Run(l, init).traces && id != op.id ==> s.traces[id] == Run(l, init).traces[id]
  {
    var s := Run(l, init);
    DistinctByLastGrows(InsertedIds(init), op.id);
    hide Run, InsertedIds, DistinctByLast, SpansOf, Without, DropSet, SpanSum;
    if op.id in s.traces {
      TakeTwice(SpansOf(init, op.id), op.spans, l.maxSpansPerTrace);
    } else {
      NoSpans(init, op.id);
      assert [] + op.spans == op.spans;
      assert Evict(l, s) == s;
    }
  }

  lemma TakeTwice(a: seq<Span>, b: seq<Span>, n: nat)
    ensures Take(Take(a, n) + b, n) == Take(a + b, n)
  {
  }
}
