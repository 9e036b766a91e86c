/**
 The store as an object that its methods update in place. The clock readings each
 method takes are parameters. Source: src/rastir/server/trace_store.py:27-162.
 */
module TraceStoreClass {
  import opened ObjectHeap  // Option
  import opened TraceStore

  predicate HasService(spans: seq<Span>, service: string) {
    exists i :: 0 <= i < |spans| && (spans[i].attrService == Some(service) || spans[i].service == Some(service))
  }

  predicate Matches(s: Store, id: TraceId, service: Option<string>) {
    id in s.traces && (service.Some? ==> HasService(s.traces[id], service.value))
  }

  /** The summaries of the matching traces, most recently updated first. */
  function NewestFirst(s: Store, order: seq<TraceId>, service: Option<string>): seq<Summary> {
    if order == [] then []
    else
      var id := order[|order| - 1];
      (if Matches(s, id, service) then [Summary(id, |s.traces[id]|)] else []) +
      NewestFirst(s, order[..|order| - 1], service)
  }

  /** The limit is checked after appending, so a limit of 0 or less still returns one summary. */
  function Limited(all: seq<Summary>, limit: int): seq<Summary> {
    Take(all, if limit < 1 then 1 else limit)
  }

  class TraceStoreObject {
    const limits: Limits
    var order: seq<TraceId>               // keys of _traces, an OrderedDict
    var traces: map<TraceId, seq<Span>>
    var timestamps: map<TraceId, real>
    var totalSpans: int
    var evictedTraces: nat
    var spansTruncated: nat
    ghost var lost: int

    ghost function View(): Store
      reads this
    {
      Store(order, traces, timestamps, totalSpans, evictedTraces, spansTruncated, lost)
    }

    constructor (limits: Limits)
      ensures this.limits == limits && View() == EMPTY
    {
      this.limits := limits;
      order, traces, timestamps := [], map[], map[];
      totalSpans, evictedTraces, spansTruncated, lost := 0, 0, 0, 0;
    }

    /** self._traces.pop(tid) and the counters that go with it */
    method Remove(id: TraceId, ghost s0: Store, ghost done: set<TraceId>)
      requires Distinct(s0.order) && id in s0.order && id in s0.traces && id !in done
      requires View() == DropSet(s0, done)
      modifies this
      ensures View() == DropSet(s0, done + {id})
    {
      RemoveStep(s0, id, done);
      totalSpans := totalSpans - |traces[id]|;
      lost := lost + |traces[id]|;
      order := Without(order, id);
      traces := traces - {id};
      timestamps := timestamps - {id};
      evictedTraces := evictedTraces + 1;
    }

    /** lines 104-109; the pops commute, so the order in which the ids are visited is left open */
    method RemoveAll(ids: set<TraceId>)
      requires Distinct(order) && forall id :: id in ids ==> id in order && id in traces
      modifies this
      ensures View() == DropSet(old(View()), ids)
    {
      ghost var s0 := View();
      var expired := ids;
      ghost var done: set<TraceId> := {};
      DropNone(s0);
      while expired != {}
        invariant View() == DropSet(s0, done)
        invariant done + expired == ids && done !! expired
        decreases expired
      {
        var id :| id in expired;
        Remove(id, s0, done);
        done := done + {id};
        expired := expired - {id};
      }
    }

    /** lines 96-109 */
    method ExpireStale(clock: real, ghost before: real)
      requires Consistent(limits, View(), before)
      modifies this
      ensures View() == Expire(limits, old(View()), clock)
    {
      if limits.ttl <= 0.0 { return; }
      var cutoff := clock - limits.ttl;
      RemoveAll(set id | id in timestamps && timestamps[id] < cutoff);
    }

    /** lines 82-87 */
    method EvictOldest()
      requires limits.Valid() && Distinct(order) && forall id :: id in order ==> id in traces
      modifies this
      ensures View() == Evict(limits, old(View()))
    {
      ghost var s0 := View();
      ghost var n := 0;
      DropNone(s0);
      while |order| >= limits.maxTraces
        invariant 0 <= n <= |s0.order| && (n > 0 ==> |s0.order| - n + 1 >= limits.maxTraces)
        invariant View() == DropSet(s0, Keys(s0.order[..n])) && order == s0.order[n..]
        decreases |order|
      {
        NextKey(s0.order, n);
        Remove(order[0], s0, Keys(s0.order[..n]));
        n := n + 1;
      }
    }

    /** lines 67-80 */
    method AppendTo(id: TraceId, spans: seq<Span>, now: real)
      requires id in traces && |traces[id]| <= limits.maxSpansPerTrace
      modifies this
      ensures View() == Append(limits, old(View()), id, spans, now)
    {
      var existing := traces[id];
      TakeAfter(existing, spans, limits.maxSpansPerTrace);
      var room := limits.maxSpansPerTrace - |existing|;
      if room <= 0 {
        spansTruncated := spansTruncated + |spans|;
        order := Without(order, id) + [id];
        timestamps := timestamps[id := now];
        assert existing + Take(spans, 0) == existing && traces == traces[id := existing];
        return;
      }
      var accepted := Take(spans, room);
      if |spans| > room { spansTruncated := spansTruncated + (|spans| - room); }
      traces := traces[id := existing + accepted];
      totalSpans := totalSpans + |accepted|;
      order := Without(order, id) + [id];
      timestamps := timestamps[id := now];
    }

    /** lines 82-92 */
    method AdmitNew(id: TraceId, spans: seq<Span>, now: real)
      requires limits.Valid() && Distinct(order) && forall id :: id in order ==> id in traces
      modifies this
      ensures View() == Admit(limits, old(View()), id, spans, now)
    {
      EvictOldest();
      var accepted := Take(spans, limits.maxSpansPerTrace);
      if |spans| > limits.maxSpansPerTrace { spansTruncated := spansTruncated + (|spans| - limits.maxSpansPerTrace); }
      traces := traces[id := accepted];
      order := order + [id];
      totalSpans := totalSpans + |accepted|;
      timestamps := timestamps[id := now];
    }

    /** lines 54-94 */
    method Insert(id: TraceId, spans: seq<Span>, expiryNow: real, now: real, ghost before: real)
      requires limits.Valid() && Consistent(limits, View(), before) && before <= expiryNow <= now
      modifies this
      ensures View() == TraceStore.Insert(limits, old(View()), id, spans, expiryNow, now)
      ensures Consistent(limits, View(), now)
    {
      InsertKeeps(limits, View(), id, spans, before, expiryNow, now);
      OrderedLater(limits, View(), before, expiryNow);
      ghost var dropped := ExpireKeeps(limits, View(), expiryNow);
      if limits.ttl > 0.0 { ExpireStale(expiryNow, before); }
      if id in traces { AppendTo(id, spans, now); } else { AdmitNew(id, spans, now); }
    }

    /** lines 121-134 and 136-162: recent() is search() without a service */
    method Search(service: Option<string>, limit: int, clock: real, ghost before: real) returns (result: seq<Summary>)
      requires Consistent(limits, View(), before)
      modifies this
      ensures View() == Expire(limits, old(View()), clock)
      ensures result == Limited(NewestFirst(View(), order, service), limit)
    {
      if limits.ttl > 0.0 { ExpireStale(clock, before); }
      result := Collect(service, limit);
    }

    method Collect(service: Option<string>, limit: int) returns (result: seq<Summary>)
      ensures result == Limited(NewestFirst(View(), order, service), limit)
    {
      ghost var all := NewestFirst(View(), order, service);
      result := [];
      var i := |order|;
      assert order[..i] == order && result + all == all;
      while i > 0
        invariant 0 <= i <= |order|
        invariant result + NewestFirst(View(), order[..i], service) == all
        invariant result == [] || |result| < limit
      {
        NewestStep(View(), order, i, service, result);
        i := i - 1;
        var id := order[i];
        if id in traces && (service.Some? ==> HasService(traces[id], service.value)) {
          result := result + [Summary(id, |traces[id]|)];
          if |result| >= limit {
            PrefixTaken(result, NewestFirst(View(), order[..i], service), limit);
            return;
          }
        }
      }
      assert all == result;
    }
  }

  /** a was moved to the end of the order later than b. */
  ghost predicate LaterIn(order: seq<TraceId>, a: TraceId, b: TraceId) {
    exists i, j :: 0 <= i < j < |order| && order[i] == b && order[j] == a
  }

  /** A stored trace with a span that names the service, among its attributes or beside them. */
  ghost predicate Named(s: Store, id: TraceId, service: Option<string>) {
    && id in s.traces
    && match service
       case None => true
       case Some(v) => exists span :: span in s.traces[id] && Some(v) in [span.attrService, span.service]
  }

  /** Listed is each named trace of the order, with the number of its spans. */
  ghost predicate Listed(s: Store, order: seq<TraceId>, service: Option<string>, r: seq<Summary>) {
    forall x :: x in r <==> x.traceId in order && Named(s, x.traceId, service) && x.spanCount == |s.traces[x.traceId]|
  }

  /** A later update comes first. */
  ghost predicate LatestFirst(order: seq<TraceId>, r: seq<Summary>) {
    forall i, j :: 0 <= i < j < |r| ==> LaterIn(order, r[i].traceId, r[j].traceId)
  }

  lemma {:induction false} NewestMeans(s: Store, order: seq<TraceId>, service: Option<string>)
    ensures Listed(s, order, service, NewestFirst(s, order, service))
    ensures LatestFirst(order, NewestFirst(s, order, service))
  {
    if order == [] { return; }
    var init, id := order[..|order| - 1], order[|order| - 1];
    NewestMeans(s, init, service);
    MatchesNamed(s, id, service);
    hide Named, HasService;
    ListedStep(s, init, id, service, NewestFirst(s, init, service));
    LatestFirstStep(s, init, id, service, NewestFirst(s, init, service));
    assert order == init + [id];
  }

  lemma ListedStep(s: Store, init: seq<TraceId>, id: TraceId, service: Option<string>, rest: seq<Summary>)
    requires Listed(s, init, service, rest)
    requires Matches(s, id, service) <==> Named(s, id, service)
    ensures var one := if Matches(s, id, service) then [Summary(id, |s.traces[id]|)] else [];
            Listed(s, init + [id], service, one + rest)
  {
    hide Named, HasService;
    assert Named(s, id, service) ==> id in s.traces by { NamedIsStored(s, id, service); }
    forall x: Summary | x.traceId == id && Named(s, id, service) && x.spanCount == |s.traces[id]|
      ensures x == Summary(id, |s.traces[id]|)
    {
    }
  }

  lemma NamedIsStored(s: Store, id: TraceId, service: Option<string>)
    ensures Named(s, id, service) ==> id in s.traces
  {
  }

  lemma LatestFirstStep(s: Store, init: seq<TraceId>, id: TraceId, service: Option<string>, rest: seq<Summary>)
    requires LatestFirst(init, rest) && Listed(s, init, service, rest)
    ensures var one := if Matches(s, id, service) then [Summary(id, |s.traces[id]|)] else [];
            LatestFirst(init + [id], one + rest)
  {
    var one := if Matches(s, id, service) then [Summary(id, |s.traces[id]|)] else [];
    var order, r := init + [id], one + rest;
    hide Named, HasService, Matches, LaterIn;
    forall i, j | 0 <= i < j < |r|
      ensures LaterIn(order, r[i].traceId, r[j].traceId)
    {
      LaterExtends(init, id, r[i].traceId, r[j].traceId);
      assert r[j] == rest[j - |one|];
      if i < |one| {
        assert r[j] in rest;
      } else {
        assert r[i] == rest[i - |one|];
      }
    }
  }

  lemma LaterExtends(init: seq<TraceId>, id: TraceId, a: TraceId, b: TraceId)
    ensures LaterIn(init, a, b) || (a == id && b in init) ==> LaterIn(init + [id], a, b)
  {
    var order := init + [id];
    if LaterIn(init, a, b) {
      var i, j :| 0 <= i < j < |init| && init[i] == b && init[j] == a;
      assert order[i] == b && order[j] == a;
    } else if a == id && b in init {
      var i :| 0 <= i < |init| && init[i] == b;
      assert order[i] == b && order[|init|] == id;
    }
  }

  lemma MatchesNamed(s: Store, id: TraceId, service: Option<string>)
    ensures Matches(s, id, service) <==> Named(s, id, service)
  {
    if id in s.traces && service.Some? {
      var spans, v := s.traces[id], service.value;
      if span :| span in spans && Some(v) in [span.attrService, span.service] {
        var i :| 0 <= i < |spans| && spans[i] == span;
      }
      if i :| 0 <= i < |spans| && (spans[i].attrService == Some(v) || spans[i].service == Some(v)) {
        assert Some(v) in [spans[i].attrService, spans[i].service];
      }
    }
  }

  /**
   What a search answers: as many of the named traces as the limit allows, or one if it is
   below one, never one that was updated earlier in place of one updated later.
   */
  lemma SearchMeans(l: Limits, s: Store, service: Option<string>, limit: int, now: real)
    requires Consistent(l, s, now)
    ensures var all := NewestFirst(s, s.order, service);
            var r := Limited(all, limit);
            && (|r| == |all| || |r| == limit || (limit < 1 && |r| == 1)) && |r| <= |all|
            && (limit >= 1 ==> |r| <= limit)
            && (forall x :: x in r ==> Named(s, x.traceId, service) && x.spanCount == |s.traces[x.traceId]|)
            && Descending(s, r)
            && (forall id, x :: Named(s, id, service) && Summary(id, |s.traces[id]|) !in r && x in r ==>
                  s.timestamps[x.traceId] >= s.timestamps[id])
  {
    var all := NewestFirst(s, s.order, service);
    NewestMeans(s, s.order, service);
    assert Limited(all, limit) == all[..|Limited(all, limit)|];
    LatestHaveLatestTimes(l, s, all, now);
    FirstAreLatest(s, service, all, Limited(all, limit), l, now);
    hide Named, NewestFirst;
  }

  /** The traces in the order of their last update. */
  ghost predicate Descending(s: Store, r: seq<Summary>) {
    forall i, j :: 0 <= i < j < |r| && r[i].traceId in s.timestamps && r[j].traceId in s.timestamps ==>
      s.timestamps[r[i].traceId] >= s.timestamps[r[j].traceId]
  }

  lemma LatestHaveLatestTimes(l: Limits, s: Store, r: seq<Summary>, now: real)
    requires Consistent(l, s, now) && LatestFirst(s.order, r)
    ensures Descending(s, r)
  {
    forall i, j | 0 <= i < j < |r| && r[i].traceId in s.timestamps && r[j].traceId in s.timestamps
      ensures s.timestamps[r[i].traceId] >= s.timestamps[r[j].traceId]
    {
      assert LaterIn(s.order, r[i].traceId, r[j].traceId);
    }
  }

  /** What is left out of a prefix was not updated later than what is in it. */
  lemma FirstAreLatest(s: Store, service: Option<string>, all: seq<Summary>, r: seq<Summary>, l: Limits, now: real)
    requires Consistent(l, s, now) && Listed(s, s.order, service, all) && Descending(s, all)
    requires |r| <= |all| && r == all[..|r|]
    ensures forall x :: x in r ==> Named(s, x.traceId, service) && x.spanCount == |s.traces[x.traceId]|
    ensures Descending(s, r)
    ensures forall id, x :: Named(s, id, service) && Summary(id, |s.traces[id]|) !in r && x in r ==>
              s.timestamps[x.traceId] >= s.timestamps[id]
  {
    assert forall x :: x in r ==> x in all;
    forall id | Named(s, id, service)
      ensures Summary(id, |s.traces[id]|) in all
    {
      assert id in s.order;
    }
    forall id, x | Named(s, id, service) && Summary(id, |s.traces[id]|) !in r && x in r
      ensures s.timestamps[x.traceId] >= s.timestamps[id]
    {
      var j :| 0 <= j < |all| && all[j] == Summary(id, |s.traces[id]|);
      var i :| 0 <= i < |r| && r[i] == x;
      assert all[i] == x && i < j;
    }
  }

  lemma NewestStep(s: Store, order: seq<TraceId>, i: nat, service: Option<string>, done: seq<Summary>)
    requires 0 < i <= |order|
    ensures var id := order[i - 1];
            done + NewestFirst(s, order[..i], service) ==
            (if Matches(s, id, service) then done + [Summary(id, |s.traces[id]|)] else done) +
            NewestFirst(s, order[..i - 1], service)
  {
    assert order[..i][..i - 1] == order[..i - 1];
    assert order[..i][i - 1] == order[i - 1];
    var rest := NewestFirst(s, order[..i - 1], service);
    if Matches(s, order[i - 1], service) {
      var one := [Summary(order[i - 1], |s.traces[order[i - 1]]|)];
      assert done + (one + rest) == done + one + rest;
    } else {
      assert [] + rest == rest;
    }
  }

  lemma PrefixTaken(a: seq<Summary>, b: seq<Summary>, limit: int)
    requires a != [] && (|a| == 1 || |a| - 1 < limit) && |a| >= limit
    ensures Limited(a + b, limit) == a
  {
    assert (a + b)[..|a|] == a;
    assert a + b == a || |a| < |a + b|;
  }

  lemma TakeAfter(a: seq<Span>, b: seq<Span>, n: nat)
    requires |a| <= n
    ensures Take(a + b, n) == a + Take(b, n - |a|)
  {
    assert a + b[..0] == a;
  }

  lemma NextKey(order: seq<TraceId>, n: nat)
    requires Distinct(order) && n < |order|
    ensures Keys(order[..n + 1]) == Keys(order[..n]) + {order[n]} && order[n] !in Keys(order[..n])
    ensures Minus(order, Keys(order[..n + 1])) == order[n + 1..]
  {
    assert order[..n + 1] == order[..n] + [order[n]];
    FirstKeys(order, n + 1);
    MinusPrefix(order, n + 1, Keys(order[..n + 1]));
  }

  lemma DropNone(s: Store)
    ensures DropSet(s, {}) == s && Keys(s.order[..0]) == {}
  {
    MinusNone(s.order, {});
    assert s.traces - {} == s.traces;
    assert s.timestamps - {} == s.timestamps;
  }

  /** Taking one more key out of the order, and what that does to the span total. */
  lemma RemoveOne(order: seq<TraceId>, t: map<TraceId, seq<Span>>, id: TraceId)
    requires Distinct(order) && id in order && id in t
    ensures |Without(order, id)| == |order| - 1
    ensures SpanSum(Without(order, id), t) == SpanSum(order, t) - |t[id]|
  {
    var i :| 0 <= i < |order| && order[i] == id;
    WithoutCuts(order, i);
    var a, b := order[..i], order[i + 1..];
    assert order == a + ([id] + b);
    SumSplit(a, [id] + b, t);
    SumSplit([id], b, t);
    SumSplit(a, b, t);
  }

  lemma RemoveFromOrder(order: seq<TraceId>, id: TraceId, done: set<TraceId>)
    requires Distinct(order) && id in order && id !in done
    ensures Minus(order, done + {id}) == Without(Minus(order, done), id)
    ensures Distinct(Minus(order, done)) && id in Minus(order, done) && |Minus(order, done)| <= |order|
  {
    WithoutIsMinus(Minus(order, done), id);
    MinusTwice(order, done, {id});
    MinusMembers(order, done);
    MinusDistinct(order, done);
  }

  lemma RemoveStep(s: Store, id: TraceId, done: set<TraceId>)
    requires Distinct(s.order) && id in s.order && id in s.traces && id !in done
    ensures var s1, s2 := DropSet(s, done), DropSet(s, done + {id});
            && id in s1.traces && s1.traces[id] == s.traces[id]
            && s2 == s1.(order := Without(s1.order, id), traces := s1.traces - {id}, timestamps := s1.timestamps - {id},
                         totalSpans := s1.totalSpans - |s.traces[id]|, lost := s1.lost + |s.traces[id]|,
                         evictedTraces := s1.evictedTraces + 1)
  {
    hide Distinct, Minus, Without, SpanSum;
    RemoveFromOrder(s.order, id, done);
    RemoveOne(Minus(s.order, done), s.traces, id);
    assert s.traces - (done + {id}) == s.traces - done - {id};
    assert s.timestamps - (done + {id}) == s.timestamps - done - {id};
  }

  lemma {:induction false} MinusDistinct(order: seq<TraceId>, gone: set<TraceId>)
    requires Distinct(order)
    ensures Distinct(Minus(order, gone))
  {
    if order != [] {
      MinusDistinct(order[1..], gone);
      MinusMembers(order[1..], gone);
    }
  }
}
