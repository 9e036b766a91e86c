/**
 The per-trace clock: the reported times of a trace are the monotonic clock moved by one
 fixed amount, as long as the trace keeps its anchor; a trace without an anchor follows
 the wall clock, jumps included; and the anchor map is bounded.
 Source: src/rastir/spans.py:24-110, src/rastir/remote.py:425-453.
 */
module SpanClock {
  import opened ObjectHeap  // Option
  import opened CallTree

  // ----- the anchor map ------------------------------------------------------------

  ghost predicate Bounded(anchors: Anchors) { |anchors| <= ANCHOR_LIMIT + 1 }

  lemma RegisterBounded(anchors: Anchors, t: Uid, a: Anchor)
    requires Bounded(anchors)
    ensures Bounded(Register(anchors, t, a))
    ensures |Register(anchors, t, a)| <= |anchors| + 1
  {
    var m: Anchors := if |anchors| > ANCHOR_LIMIT then map[] else anchors;
    assert m[t := a].Keys == m.Keys + {t};
    assert |m.Keys + {t}| <= |m.Keys| + 1;
  }

  lemma {:induction false} RegisterAllBounded(anchors: Anchors, rs: seq<Registration>)
    requires Bounded(anchors)
    ensures Bounded(RegisterAll(anchors, rs))
    decreases |rs|
  {
    if rs != [] {
      RegisterBounded(anchors, Foreign(rs[0].text), rs[0].anchor);
      RegisterAllBounded(Register(anchors, Foreign(rs[0].text), rs[0].anchor), rs[1..]);
    }
  }

  lemma OpenBounded(clock: Clock, kind: Kind, env: Env, w: World)
    requires Bounded(w.anchors)
    ensures Bounded(Open(clock, kind, env, w).1.anchors)
  {
    RegisterAllBounded(w.anchors, clock.others(w.tick));
    if env.parent.None? {
      var a := Anchor(clock.wall(w.tick), clock.mono(w.tick + 1));
      RegisterBounded(RegisterAll(w.anchors, clock.others(w.tick)), Uuid(w.ids), a);
    }
  }

  /**
   Whatever is called, and whatever other threads register meanwhile, the map never holds more
   than 10,001 anchors.
   */
  lemma {:induction false} AnchorsBounded(clock: Clock, call: Call, env: Env, w: World)
    requires Bounded(w.anchors)
    ensures Bounded(Emit(clock, call, env, w).world.anchors) && |Emit(clock, call, env, w).world.anchors| <= 10_001
    decreases call
  {
    OpenBounded(clock, call.kind, env, w);
    if !Refuses(call.kind) {
      var (o, w1) := Open(clock, call.kind, env, w);
      BodyAnchorsBounded(clock, call.body, Inside(call, o, env), Announced(call.kind, w1));
    }
  }

  lemma {:induction false} BodyAnchorsBounded(clock: Clock, b: Body, env: Env, w: World)
    requires Bounded(w.anchors)
    ensures Bounded(EmitBody(clock, b, env, w).world.anchors)
    decreases b
  {
    if b.Then? {
      AnchorsBounded(clock, b.first, env, w);
      if !Stops(b.first, b.caught) {
        var t1 := Emit(clock, b.first, env, w);
        BodyAnchorsBounded(clock, b.rest, env.(parent := t1.active), t1.world);
      }
    }
  }

  // ----- which clock readings belong to which span ---------------------------------------

  /**
   A span is opened by the wall reading "open" and the monotonic one after it, and closed by the
   monotonic reading "close".
   */
  datatype Reading = Reading(open: nat, close: nat)

  function Closing(call: Call, tick: nat): nat { if Raises(call) then tick + 1 else tick }

  function TickAfter(call: Call, tick: nat): nat {
    if Refuses(call.kind) then tick + 2 else Closing(call, BodyTickAfter(call.body, tick + 2)) + 1
  }

  function BodyTickAfter(b: Body, tick: nat): nat {
    match b
    case Return => tick
    case Raise => tick
    case Then(first, caught, rest) =>
      if Stops(first, caught) then TickAfter(first, tick) else BodyTickAfter(rest, TickAfter(first, tick))
  }

  /** From the tree alone, for the calls that are reported, as they end. */
  function Readings(call: Call, tick: nat): seq<Reading> {
    if Refuses(call.kind) then []
    else BodyReadings(call.body, tick + 2) + [Reading(tick, Closing(call, BodyTickAfter(call.body, tick + 2)))]
  }

  function BodyReadings(b: Body, tick: nat): seq<Reading> {
    match b
    case Return => []
    case Raise => []
    case Then(first, caught, rest) =>
      if Stops(first, caught) then Readings(first, tick)
      else Readings(first, tick) + BodyReadings(rest, TickAfter(first, tick))
  }

  /** How long a span took, by the monotonic clock. */
  function Elapsed(clock: Clock, r: Reading): real { clock.mono(r.close) - clock.mono(r.open + 1) }

  ghost predicate Measured(clock: Clock, ss: seq<Span>, rs: seq<Reading>) {
    |ss| == |rs| && forall i :: 0 <= i < |ss| ==> ss[i].end == ss[i].start + Elapsed(clock, rs[i])
  }

  lemma OpenReads(clock: Clock, kind: Kind, env: Env, w: World)
    ensures Open(clock, kind, env, w).0.monoStart == clock.mono(w.tick + 1) &&
            Open(clock, kind, env, w).1.tick == w.tick + 2
    ensures Announced(kind, Open(clock, kind, env, w).1).tick == w.tick + 2
  {
  }

  lemma MeasuredUnder(clock: Clock, s1: seq<Span>, s: Span, r1: seq<Reading>, r: Reading)
    requires Measured(clock, s1, r1) && s.end == s.start + Elapsed(clock, r)
    ensures Measured(clock, s1 + [s], r1 + [r])
  {
  }

  lemma MeasuredJoined(clock: Clock, s1: seq<Span>, s2: seq<Span>, r1: seq<Reading>, r2: seq<Reading>)
    requires Measured(clock, s1, r1) && Measured(clock, s2, r2)
    ensures Measured(clock, s1 + s2, r1 + r2)
  {
  }

  /** Wherever a span is placed, its duration is monotonic time. */
  lemma {:induction false} DurationsAreMeasured(clock: Clock, call: Call, env: Env, w: World)
    ensures Emit(clock, call, env, w).world.tick == TickAfter(call, w.tick)
    ensures Measured(clock, Emit(clock, call, env, w).spans, Readings(call, w.tick))
    decreases call
  {
    OpenReads(clock, call.kind, env, w);
    if !Refuses(call.kind) {
      hide Open, Measured, Announced, Inside, EmitBody, BodyReadings;
      var (o, w1) := Open(clock, call.kind, env, w);
      var inside, w2 := Inside(call, o, env), Announced(call.kind, w1);
      BodyDurationsAreMeasured(clock, call.body, inside, w2);
      var inner := EmitBody(clock, call.body, inside, w2);
      var r := Reading(w.tick, Closing(call, BodyTickAfter(call.body, w.tick + 2)));
      MeasuredUnder(clock, inner.spans, Reported(clock, call, env, w.tags, o, inner.world),
                    BodyReadings(call.body, w.tick + 2), r);
    }
  }

  lemma {:induction false} BodyDurationsAreMeasured(clock: Clock, b: Body, env: Env, w: World)
    ensures EmitBody(clock, b, env, w).world.tick == BodyTickAfter(b, w.tick)
    ensures Measured(clock, EmitBody(clock, b, env, w).spans, BodyReadings(b, w.tick))
    decreases b
  {
    if b.Then? {
      DurationsAreMeasured(clock, b.first, env, w);
      if !Stops(b.first, b.caught) {
        hide Measured;
        var t1 := Emit(clock, b.first, env, w);
        var env1 := env.(parent := t1.active);
        BodyDurationsAreMeasured(clock, b.rest, env1, t1.world);
        MeasuredJoined(clock, t1.spans, EmitBody(clock, b.rest, env1, t1.world).spans,
                       Readings(b.first, w.tick), BodyReadings(b.rest, TickAfter(b.first, w.tick)));
      }
    }
  }

  // ----- readings nest as the calls do ----------------------------------------------------

  /** Two calls made by the same function, the one before the other. */
  ghost predicate Siblings(fs: seq<Frame>, i: nat, j: nat) {
    i < j < |fs| && |fs[j].above| == |fs[i].above| && forall k :: i < k < j ==> |fs[k].above| >= |fs[i].above|
  }

  ghost predicate Within(rs: seq<Reading>, lo: nat, hi: nat) {
    lo <= hi && forall i :: 0 <= i < |rs| ==> lo <= rs[i].open && rs[i].open + 1 < rs[i].close < hi
  }

  predicate Inner(r: Reading, outer: Reading) { outer.open < r.open && r.close < outer.close }

  ghost predicate ReadingsNest(fs: seq<Frame>, rs: seq<Reading>)
    requires |fs| == |rs|
  {
    && (forall i: nat, j: nat :: Encloses(fs, i, j) ==> Inner(rs[i], rs[j]))
    && (forall i: nat, j: nat :: Siblings(fs, i, j) ==> rs[i].close < rs[j].open)
  }

  lemma SiblingsSplit(f1: seq<Frame>, f2: seq<Frame>, i: nat, j: nat)
    requires Siblings(f1 + f2, i, j)
    ensures j < |f1| ==> Siblings(f1, i, j)
    ensures |f1| <= i ==> Siblings(f2, i - |f1|, j - |f1|)
  {
    var f := f1 + f2;
    if j < |f1| {
      forall k | i < k < j ensures |f1[k].above| >= |f1[i].above| { assert f[k] == f1[k]; }
    } else if |f1| <= i {
      forall k | i - |f1| < k < j - |f1| ensures |f2[k].above| >= |f2[i - |f1|].above| { assert f[k + |f1|] == f2[k]; }
    }
  }

  lemma EnclosedJoined(f1: seq<Frame>, f2: seq<Frame>, r1: seq<Reading>, r2: seq<Reading>, depth: nat, i: nat, j: nat)
    requires |f1| == |r1| && |f2| == |r2| && ReadingsNest(f1, r1) && ReadingsNest(f2, r2)
    requires Below(f1, depth) && Below(f2, depth) && EndsAt(f1, depth) && Encloses(f1 + f2, i, j)
    ensures Inner((r1 + r2)[i], (r1 + r2)[j])
  {
    EnclosesSplits(f1, f2, depth, i, j);
  }

  lemma SiblingsJoined(f1: seq<Frame>, f2: seq<Frame>, r1: seq<Reading>, r2: seq<Reading>, lo: nat, mid: nat, hi: nat,
                       i: nat, j: nat)
    requires |f1| == |r1| && |f2| == |r2| && ReadingsNest(f1, r1) && ReadingsNest(f2, r2)
    requires Within(r1, lo, mid) && Within(r2, mid, hi) && Siblings(f1 + f2, i, j)
    ensures (r1 + r2)[i].close < (r1 + r2)[j].open
  {
    SiblingsSplit(f1, f2, i, j);
  }

  lemma NestJoined(f1: seq<Frame>, f2: seq<Frame>, r1: seq<Reading>, r2: seq<Reading>, depth: nat, lo: nat, mid: nat,
                   hi: nat)
    requires |f1| == |r1| && |f2| == |r2| && ReadingsNest(f1, r1) && ReadingsNest(f2, r2)
    requires Within(r1, lo, mid) && Within(r2, mid, hi)
    requires Below(f1, depth) && Below(f2, depth) && EndsAt(f1, depth)
    ensures Within(r1 + r2, lo, hi) && ReadingsNest(f1 + f2, r1 + r2)
  {
    hide Encloses, Siblings, Inner, Below, EndsAt;
    var fs, rs := f1 + f2, r1 + r2;
    forall i: nat, j: nat | Encloses(fs, i, j) ensures i < |fs| && j < |fs| && Inner(rs[i], rs[j]) {
      EnclosedBounds(fs, i, j);
      EnclosedJoined(f1, f2, r1, r2, depth, i, j);
    }
    forall i: nat, j: nat | Siblings(fs, i, j) ensures i < |fs| && j < |fs| && rs[i].close < rs[j].open {
      SiblingBounds(fs, i, j);
      SiblingsJoined(f1, f2, r1, r2, lo, mid, hi, i, j);
    }
  }

  lemma EnclosedBounds(fs: seq<Frame>, i: nat, j: nat)
    ensures Encloses(fs, i, j) ==> i < j < |fs|
  {
  }

  lemma SiblingBounds(fs: seq<Frame>, i: nat, j: nat)
    ensures Siblings(fs, i, j) ==> i < j < |fs|
  {
  }

  lemma NestUnder(f1: seq<Frame>, own: Frame, r1: seq<Reading>, r: Reading, lo: nat, hi: nat)
    requires |f1| == |r1| && ReadingsNest(f1, r1) && Within(r1, lo, hi)
    requires Below(f1, |own.above| + 1) && EndsAt(f1, |own.above| + 1)
    requires r.open + 1 < lo && hi <= r.close
    ensures ReadingsNest(f1 + [own], r1 + [r]) && Within(r1 + [r], r.open, r.close + 1)
  {
    var fs, rs := f1 + [own], r1 + [r];
    forall i: nat, j: nat | Encloses(fs, i, j) ensures Inner(rs[i], rs[j]) {
      LastEncloses(f1, own, i, j);
    }
    forall i: nat, j: nat | Siblings(fs, i, j) ensures rs[i].close < rs[j].open {
      SiblingsSplit(f1, [own], i, j);
    }
  }

  /**
   The readings of a call lie between those of the call that encloses it, and siblings take
   theirs one after the other.
   */
  lemma {:induction false} CallsNest(call: Call, tick: nat, above: seq<Layer>, stray: bool)
    ensures var fs, rs := Executed(call, above, stray), Readings(call, tick);
            |fs| == |rs| && Within(rs, tick, TickAfter(call, tick)) && ReadingsNest(fs, rs)
    decreases call
  {
    if !Refuses(call.kind) {
      hide Below, EndsAt, ReadingsNest, Within, ExecutedBody, BodyReadings;
      var deeper, mid := above + [Layer(call.kind, call.name)], BodyTickAfter(call.body, tick + 2);
      BodiesNest(call.body, tick + 2, deeper, false);
      BodyBelow(call.body, deeper, false);
      WithinBounds(BodyReadings(call.body, tick + 2), tick + 2, mid);
      NestUnder(ExecutedBody(call.body, deeper, false), Own(call, above, stray), BodyReadings(call.body, tick + 2),
                Reading(tick, Closing(call, mid)), tick + 2, mid);
    }
  }

  lemma WithinBounds(rs: seq<Reading>, lo: nat, hi: nat)
    ensures Within(rs, lo, hi) ==> lo <= hi
  {
  }

  lemma {:induction false} BodiesNest(b: Body, tick: nat, above: seq<Layer>, stray: bool)
    ensures var fs, rs := ExecutedBody(b, above, stray), BodyReadings(b, tick);
            |fs| == |rs| && Within(rs, tick, BodyTickAfter(b, tick)) && ReadingsNest(fs, rs)
    decreases b
  {
    if b.Then? {
      CallsNest(b.first, tick, above, stray);
      if !Stops(b.first, b.caught) {
        var mid, astray := TickAfter(b.first, tick), stray || Refuses(b.first.kind);
        BodiesNest(b.rest, mid, above, astray);
        ExecutedBelow(b.first, above, stray);
        BodyBelow(b.rest, above, astray);
        NestJoined(Executed(b.first, above, stray), ExecutedBody(b.rest, above, astray),
                   Readings(b.first, tick), BodyReadings(b.rest, mid), |above|, tick, mid, BodyTickAfter(b.rest, mid));
      }
    }
  }

  // ----- an anchor is kept or lost, never replaced ---------------------------------------

  ghost predicate Kept(t: Uid, a: Anchor, anchors: Anchors) { t in anchors && anchors[t] == a }

  /** Other threads do not start the trace t between two readings; they never do if its id was drawn here. */
  ghost predicate Quiet(clock: Clock, t: Uid, lo: nat, hi: nat) {
    forall n: nat :: lo <= n < hi ==> NotAmong(t, clock.others(n))
  }

  ghost predicate NotAmong(t: Uid, rs: seq<Registration>) {
    forall k :: 0 <= k < |rs| ==> Foreign(rs[k].text) != t
  }

  /** The id was drawn before, or elsewhere. */
  predicate Drawn(t: Uid, ids: nat) { t.Uuid? ==> t.n < ids }

  lemma {:induction false} RegisteredBefore(anchors: Anchors, rs: seq<Registration>, t: Uid)
    requires NotAmong(t, rs)
    ensures t in RegisterAll(anchors, rs) ==> Kept(t, RegisterAll(anchors, rs)[t], anchors)
    decreases |rs|
  {
    if rs != [] {
      RegisteredBefore(Register(anchors, Foreign(rs[0].text), rs[0].anchor), rs[1..], t);
    }
  }

  lemma KeptThroughOpen(clock: Clock, kind: Kind, env: Env, w: World, t: Uid, a: Anchor)
    requires Drawn(t, w.ids) && Quiet(clock, t, w.tick, w.tick + 1) && Kept(t, a, Open(clock, kind, env, w).1.anchors)
    ensures Kept(t, a, w.anchors)
  {
    assert NotAmong(t, clock.others(w.tick));
    RegisteredBefore(w.anchors, clock.others(w.tick), t);
  }

  lemma QuietInside(clock: Clock, t: Uid, call: Call, tick: nat)
    requires Quiet(clock, t, tick, TickAfter(call, tick)) && !Refuses(call.kind)
    ensures Quiet(clock, t, tick, tick + 1) && Quiet(clock, t, tick + 2, BodyTickAfter(call.body, tick + 2))
    ensures tick + 2 <= BodyTickAfter(call.body, tick + 2) < TickAfter(call, tick)
  {
    BodiesNest(call.body, tick + 2, [], false);
  }

  lemma QuietHere(clock: Clock, t: Uid, call: Call, tick: nat)
    requires Quiet(clock, t, tick, TickAfter(call, tick))
    ensures Quiet(clock, t, tick, tick + 1)
  {
    if !Refuses(call.kind) { QuietInside(clock, t, call, tick); }
  }

  lemma QuietAlong(clock: Clock, t: Uid, b: Body, tick: nat)
    requires b.Then? && Quiet(clock, t, tick, BodyTickAfter(b, tick))
    ensures Quiet(clock, t, tick, TickAfter(b.first, tick)) &&
            tick <= TickAfter(b.first, tick) <= BodyTickAfter(b, tick)
    ensures !Stops(b.first, b.caught) ==>
              Quiet(clock, t, TickAfter(b.first, tick), BodyTickAfter(b.rest, TickAfter(b.first, tick)))
  {
    CallsNest(b.first, tick, [], false);
    if !Stops(b.first, b.caught) { BodiesNest(b.rest, TickAfter(b.first, tick), [], false); }
  }

  /** An anchor found at the end of a call was there, unchanged, at its beginning. */
  lemma {:induction false} KeptThroughCall(clock: Clock, call: Call, env: Env, w: World, t: Uid, a: Anchor)
    requires Drawn(t, w.ids) && Quiet(clock, t, w.tick, TickAfter(call, w.tick))
    requires Kept(t, a, Emit(clock, call, env, w).world.anchors)
    ensures Kept(t, a, Open(clock, call.kind, env, w).1.anchors) && Kept(t, a, w.anchors)
    decreases call
  {
    var (o, w1) := Open(clock, call.kind, env, w);
    if !Refuses(call.kind) {
      QuietInside(clock, t, call, w.tick);
      KeptThroughBody(clock, call.body, Inside(call, o, env), Announced(call.kind, w1), t, a);
    }
    KeptThroughOpen(clock, call.kind, env, w, t, a);
  }

  lemma {:induction false} KeptThroughBody(clock: Clock, b: Body, env: Env, w: World, t: Uid, a: Anchor)
    requires Drawn(t, w.ids) && Quiet(clock, t, w.tick, BodyTickAfter(b, w.tick))
    requires Kept(t, a, EmitBody(clock, b, env, w).world.anchors)
    ensures Kept(t, a, w.anchors)
    ensures b.Then? ==> Kept(t, a, Emit(clock, b.first, env, w).world.anchors)
    decreases b
  {
    if b.Then? {
      var t1 := Emit(clock, b.first, env, w);
      QuietAlong(clock, t, b, w.tick);
      if !Stops(b.first, b.caught) {
        DurationsAreMeasured(clock, b.first, env, w);
        IdsGrow(clock, b.first, env, w);
        KeptThroughBody(clock, b.rest, env.(parent := t1.active), t1.world, t, a);
      }
      KeptThroughCall(clock, b.first, env, w, t, a);
    }
  }

  // ----- one translation per trace -----------------------------------------------------------

  /** The spans of trace t start at monotonic readings, all moved by the same amount. */
  ghost predicate Translated(clock: Clock, ss: seq<Span>, rs: seq<Reading>, t: Uid, shift: real) {
    |ss| == |rs| && forall i ::
        0 <= i < |ss| && ss[i].traceId == t ==> ss[i].start == clock.mono(rs[i].open + 1) + shift
  }

  /** Where a span of an anchored trace is placed, however it came into that trace. */
  lemma OpenPlaced(clock: Clock, kind: Kind, env: Env, w: World, a: Anchor)
    requires Kept(Open(clock, kind, env, w).0.traceId, a, Open(clock, kind, env, w).1.anchors)
    ensures Open(clock, kind, env, w).0.start == clock.mono(w.tick + 1) + (a.wall - a.mono)
  {
  }

  /** A trace that may be spoken of when the call begins: its own root, if it is one, or an earlier one. */
  predicate Known(t: Uid, env: Env, w: World) { Drawn(t, if env.parent.None? then w.ids + 1 else w.ids) }

  /**
   Wall-clock jumps leave no mark on a trace that still has its anchor when the call
   ends: whatever other traces the call passes through, every span of this one is the
   monotonic clock moved by the anchor's offset.
   */
  lemma {:induction false} OneTranslation(clock: Clock, call: Call, env: Env, w: World, t: Uid, a: Anchor)
    requires Known(t, env, w) && Quiet(clock, t, w.tick, TickAfter(call, w.tick))
    requires Kept(t, a, Emit(clock, call, env, w).world.anchors)
    ensures Translated(clock, Emit(clock, call, env, w).spans, Readings(call, w.tick), t, a.wall - a.mono)
    decreases call
  {
    if !Refuses(call.kind) {
      var (o, w1) := Open(clock, call.kind, env, w);
      var inside, w2 := Inside(call, o, env), Announced(call.kind, w1);
      QuietInside(clock, t, call, w.tick);
      KeptThroughBody(clock, call.body, inside, w2, t, a);
      BodyOneTranslation(clock, call.body, inside, w2, t, a);
      if o.traceId == t { OpenPlaced(clock, call.kind, env, w, a); }
      var inner := EmitBody(clock, call.body, inside, w2);
      var r := Reading(w.tick, Closing(call, BodyTickAfter(call.body, w.tick + 2)));
      TranslatedUnder(clock, inner.spans, Reported(clock, call, env, w.tags, o, inner.world),
                      BodyReadings(call.body, w.tick + 2), r, t, a.wall - a.mono);
    }
  }

  lemma TranslatedUnder(clock: Clock, s1: seq<Span>, s: Span, r1: seq<Reading>, r: Reading, t: Uid, shift: real)
    requires Translated(clock, s1, r1, t, shift) && (s.traceId == t ==> s.start == clock.mono(r.open + 1) + shift)
    ensures Translated(clock, s1 + [s], r1 + [r], t, shift)
  {
  }

  lemma TranslatedJoined(clock: Clock, s1: seq<Span>, s2: seq<Span>, r1: seq<Reading>, r2: seq<Reading>, t: Uid,
                         shift: real)
    requires Translated(clock, s1, r1, t, shift) && Translated(clock, s2, r2, t, shift)
    ensures Translated(clock, s1 + s2, r1 + r2, t, shift)
  {
  }

  lemma {:induction false} BodyOneTranslation(clock: Clock, b: Body, env: Env, w: World, t: Uid, a: Anchor)
    requires Drawn(t, w.ids) && Quiet(clock, t, w.tick, BodyTickAfter(b, w.tick))
    requires Kept(t, a, EmitBody(clock, b, env, w).world.anchors)
    ensures Translated(clock, EmitBody(clock, b, env, w).spans, BodyReadings(b, w.tick), t, a.wall - a.mono)
    decreases b
  {
    if b.Then? {
      var t1, mid := Emit(clock, b.first, env, w), TickAfter(b.first, w.tick);
      QuietAlong(clock, t, b, w.tick);
      KeptThroughBody(clock, b, env, w, t, a);
      OneTranslation(clock, b.first, env, w, t, a);
      if !Stops(b.first, b.caught) {
        DurationsAreMeasured(clock, b.first, env, w);
        IdsGrow(clock, b.first, env, w);
        var env1 := env.(parent := t1.active);
        BodyOneTranslation(clock, b.rest, env1, t1.world, t, a);
        hide Translated;
        TranslatedJoined(clock, t1.spans, EmitBody(clock, b.rest, env1, t1.world).spans,
                         Readings(b.first, w.tick), BodyReadings(b.rest, mid), t, a.wall - a.mono);
      }
    }
  }

  // ----- nesting and order of what is reported ------------------------------------------------

  ghost predicate Monotone(clock: Clock) {
    forall i: nat, j: nat :: i <= j ==> clock.mono(i) <= clock.mono(j)
  }

  predicate Holds(outer: Span, s: Span) { outer.start <= s.start && s.end <= outer.end }

  /** Within trace t: children run inside their parents, and siblings one after the other. */
  ghost predicate TimesNest(fs: seq<Frame>, ss: seq<Span>, t: Uid)
    requires |fs| == |ss|
  {
    && (forall i: nat, j: nat :: Encloses(fs, i, j) && ss[i].traceId == t && ss[j].traceId == t ==> Holds(ss[j], ss[i]))
    && (forall i: nat, j: nat ::
           Siblings(fs, i, j) && ss[i].traceId == t && ss[j].traceId == t ==> ss[i].end <= ss[j].start)
  }

  lemma TranslatedNest(clock: Clock, fs: seq<Frame>, ss: seq<Span>, rs: seq<Reading>, t: Uid, shift: real)
    requires Monotone(clock) && |fs| == |ss| == |rs|
    requires Measured(clock, ss, rs) && Translated(clock, ss, rs, t, shift) && ReadingsNest(fs, rs)
    ensures TimesNest(fs, ss, t)
  {
    forall i: nat, j: nat | Encloses(fs, i, j) && ss[i].traceId == t && ss[j].traceId == t ensures Holds(ss[j], ss[i]) {
      assert Inner(rs[i], rs[j]);
    }
  }

  /**
   However the wall clock jumps, and whatever traces the calls move between: if a trace
   still has its anchor when the call ends, then at every depth its children lie inside
   their parents and siblings keep their order.
   */
  lemma TraceNests(clock: Clock, call: Call, env: Env, w: World, t: Uid, a: Anchor, above: seq<Layer>, stray: bool)
    requires Monotone(clock) && Known(t, env, w) && Quiet(clock, t, w.tick, TickAfter(call, w.tick))
    requires Kept(t, a, Emit(clock, call, env, w).world.anchors)
    ensures var fs, ss := Executed(call, above, stray), Emit(clock, call, env, w).spans;
            |fs| == |ss| && TimesNest(fs, ss, t)
  {
    DurationsAreMeasured(clock, call, env, w);
    CallsNest(call, w.tick, above, stray);
    OneTranslation(clock, call, env, w, t, a);
    var ss, rs := Emit(clock, call, env, w).spans, Readings(call, w.tick);
    TranslatedNest(clock, Executed(call, above, stray), ss, rs, t, a.wall - a.mono);
  }

  // ----- when the anchor is kept -----------------------------------------------------------------

  /** Root spans other threads start between two readings. */
  function Traffic(clock: Clock, lo: nat, hi: nat): nat
    decreases hi - lo
  {
    if lo >= hi then 0 else |clock.others(lo)| + Traffic(clock, lo + 1, hi)
  }

  lemma {:induction false} TrafficSplits(clock: Clock, lo: nat, mid: nat, hi: nat)
    requires lo <= mid <= hi
    ensures Traffic(clock, lo, hi) == Traffic(clock, lo, mid) + Traffic(clock, mid, hi)
    decreases mid - lo
  {
    if lo < mid { TrafficSplits(clock, lo + 1, mid, hi); }
  }

  lemma {:induction false} RegisterAllKeeps(anchors: Anchors, rs: seq<Registration>, t: Uid)
    requires NotAmong(t, rs) && t in anchors && |anchors| + |rs| <= ANCHOR_LIMIT + 1
    ensures Kept(t, anchors[t], RegisterAll(anchors, rs))
    ensures |RegisterAll(anchors, rs)| <= |anchors| + |rs|
    decreases |rs|
  {
    if rs != [] {
      var next := Register(anchors, Foreign(rs[0].text), rs[0].anchor);
      RegisterBounded(anchors, Foreign(rs[0].text), rs[0].anchor);
      RegisterAllKeeps(next, rs[1..], t);
    }
  }

  /** The map has room for what other threads may still start. */
  ghost predicate Room(clock: Clock, anchors: Anchors, lo: nat, hi: nat) {
    lo <= hi && |anchors| + Traffic(clock, lo, hi) <= 10_001
  }

  ghost predicate Roomy(clock: Clock, anchors: Anchors, after: Anchors, t: Uid, lo: nat, hi: nat) {
    t in anchors && Kept(t, anchors[t], after) && |after| <= |anchors| + Traffic(clock, lo, hi)
  }

  lemma RoomyJoined(clock: Clock, a0: Anchors, a1: Anchors, a2: Anchors, t: Uid, lo: nat, mid: nat, hi: nat)
    requires lo <= mid <= hi && Roomy(clock, a0, a1, t, lo, mid) && Roomy(clock, a1, a2, t, mid, hi)
    ensures Roomy(clock, a0, a2, t, lo, hi)
  {
    TrafficSplits(clock, lo, mid, hi);
  }

  lemma RoomAfter(clock: Clock, a0: Anchors, a1: Anchors, t: Uid, lo: nat, mid: nat, hi: nat)
    requires lo <= mid <= hi && Room(clock, a0, lo, hi)
    ensures Room(clock, a0, lo, mid)
    ensures Roomy(clock, a0, a1, t, lo, mid) ==> Room(clock, a1, mid, hi)
  {
    TrafficSplits(clock, lo, mid, hi);
  }

  lemma OpenSurvives(clock: Clock, kind: Kind, env: Env, w: World, t: Uid)
    requires env.parent.Some? && t in w.anchors && NotAmong(t, clock.others(w.tick))
    requires Room(clock, w.anchors, w.tick, w.tick + 2)
    ensures Roomy(clock, w.anchors, Open(clock, kind, env, w).1.anchors, t, w.tick, w.tick + 2)
  {
    TrafficSplits(clock, w.tick, w.tick + 1, w.tick + 2);
    assert Traffic(clock, w.tick + 1, w.tick + 1) == 0;
    RegisterAllKeeps(w.anchors, clock.others(w.tick), t);
  }

  /**
   A trace keeps its anchor through a call made inside some span unless the root spans of other
   threads overflow the map.
   */
  lemma {:induction false} AnchorSurvives(clock: Clock, call: Call, env: Env, w: World, t: Uid)
    requires env.parent.Some? && t in w.anchors && Quiet(clock, t, w.tick, TickAfter(call, w.tick))
    requires Room(clock, w.anchors, w.tick, TickAfter(call, w.tick))
    ensures Roomy(clock, w.anchors, Emit(clock, call, env, w).world.anchors, t, w.tick, TickAfter(call, w.tick))
    decreases call
  {
    var hi := TickAfter(call, w.tick);
    var (o, w1) := Open(clock, call.kind, env, w);
    CallsNest(call, w.tick, [], false);
    BodiesNest(call.body, w1.tick, [], false);
    assert NotAmong(t, clock.others(w.tick));
    RoomAfter(clock, w.anchors, w1.anchors, t, w.tick, w1.tick, hi);
    OpenSurvives(clock, call.kind, env, w, t);
    if !Refuses(call.kind) {
      var mid := BodyTickAfter(call.body, w1.tick);
      var inside, w2 := Inside(call, o, env), Announced(call.kind, w1);
      var inner := EmitBody(clock, call.body, inside, w2).world.anchors;
      RoomAfter(clock, w1.anchors, inner, t, w1.tick, mid, hi);
      BodyAnchorSurvives(clock, call.body, inside, w2, t);
      RoomyJoined(clock, w.anchors, w1.anchors, inner, t, w.tick, w1.tick, mid);
      TrafficSplits(clock, w.tick, mid, hi);
    }
  }

  lemma {:induction false} BodyAnchorSurvives(clock: Clock, b: Body, env: Env, w: World, t: Uid)
    requires env.parent.Some? && t in w.anchors && Quiet(clock, t, w.tick, BodyTickAfter(b, w.tick))
    requires Room(clock, w.anchors, w.tick, BodyTickAfter(b, w.tick))
    ensures Roomy(clock, w.anchors, EmitBody(clock, b, env, w).world.anchors, t, w.tick, BodyTickAfter(b, w.tick))
    decreases b
  {
    if b.Then? {
      var t1, mid, hi := Emit(clock, b.first, env, w), TickAfter(b.first, w.tick), BodyTickAfter(b, w.tick);
      CallsNest(b.first, w.tick, [], false);
      DurationsAreMeasured(clock, b.first, env, w);
      BodiesNest(b.rest, mid, [], false);
      RoomAfter(clock, w.anchors, t1.world.anchors, t, w.tick, mid, hi);
      AnchorSurvives(clock, b.first, env, w, t);
      if !Stops(b.first, b.caught) {
        var t2 := EmitBody(clock, b.rest, env.(parent := t1.active), t1.world);
        BodyAnchorSurvives(clock, b.rest, env.(parent := t1.active), t1.world, t);
        RoomyJoined(clock, w.anchors, t1.world.anchors, t2.world.anchors, t, w.tick, mid, hi);
      }
    }
  }

  /**
   So any trace that has its anchor once the call is open is reported nested, if the map has room
   for what others start meanwhile.
   */
  lemma AnchoredTraceNests(clock: Clock, call: Call, env: Env, w: World, t: Uid, above: seq<Layer>, stray: bool)
    requires Monotone(clock) && !Refuses(call.kind) && Known(t, env, w) &&
             Quiet(clock, t, w.tick, TickAfter(call, w.tick))
    requires var anchors := Open(clock, call.kind, env, w).1.anchors;
             t in anchors && Room(clock, anchors, w.tick + 2, TickAfter(call, w.tick))
    ensures var fs, ss := Executed(call, above, stray), Emit(clock, call, env, w).spans;
            |fs| == |ss| && TimesNest(fs, ss, t)
  {
    var (o, w1) := Open(clock, call.kind, env, w);
    var inside, w2, mid := Inside(call, o, env), Announced(call.kind, w1), BodyTickAfter(call.body, w1.tick);
    CallsNest(call, w.tick, [], false);
    BodiesNest(call.body, w1.tick, [], false);
    RoomAfter(clock, w1.anchors, w1.anchors, t, w1.tick, mid, TickAfter(call, w.tick));
    BodyAnchorSurvives(clock, call.body, inside, w2, t);
    TraceNests(clock, call, env, w, t, w1.anchors[t], above, stray);
  }

  /** A root call has just anchored its trace; this covers what stays in it of a tree with endpoints too. */
  lemma RootCallNests(clock: Clock, call: Call, agent: Option<string>, w: World)
    requires Monotone(clock) && !Refuses(call.kind)
    requires var env := Env(None, agent);
             Room(clock, Open(clock, call.kind, env, w).1.anchors, w.tick + 2, TickAfter(call, w.tick))
    ensures var fs, ss := Executed(call, [], false), Emit(clock, call, Env(None, agent), w).spans;
            |fs| == |ss| && TimesNest(fs, ss, Uuid(w.ids))
  {
    AnchoredTraceNests(clock, call, Env(None, agent), w, Uuid(w.ids), [], false);
  }

  /** And starts at the wall clock, which its anchor carries on from there. */
  lemma RootStartsNow(clock: Clock, call: Call, agent: Option<string>, w: World)
    requires !Refuses(call.kind) && !Reparented(call.kind)
    ensures var ss := Emit(clock, call, Env(None, agent), w).spans;
            ss != [] && ss[|ss| - 1].start == clock.wall(w.tick) && ss[|ss| - 1].parentId == None
    ensures var a := Open(clock, call.kind, Env(None, agent), w).1.anchors;
            Uuid(w.ids) in a && a[Uuid(w.ids)] == Anchor(clock.wall(w.tick), clock.mono(w.tick + 1))
  {
  }

  // ----- a trace without an anchor ----------------------------------------------------------------

  /**
   The anchor by which a span is placed when it is created: that of the trace that is
   active then, if it has one. An endpoint that moves itself into a trace without an
   anchor keeps the place this gives it.
   */
  function OriginOf(clock: Clock, env: Env, w: World): Option<Anchor> {
    var anchors := RegisterAll(w.anchors, clock.others(w.tick));
    if env.parent.Some? && env.parent.value.traceId in anchors then Some(anchors[env.parent.value.traceId]) else None
  }

  /** For the calls that are reported, as they end. */
  function Origins(clock: Clock, call: Call, env: Env, w: World): seq<Option<Anchor>> {
    if Refuses(call.kind) then []
    else
      var (o, w1) := Open(clock, call.kind, env, w);
      BodyOrigins(clock, call.body, Inside(call, o, env), Announced(call.kind, w1)) + [OriginOf(clock, env, w)]
  }

  function BodyOrigins(clock: Clock, b: Body, env: Env, w: World): seq<Option<Anchor>> {
    match b
    case Return => []
    case Raise => []
    case Then(first, caught, rest) =>
      var t1 := Emit(clock, first, env, w);
      Origins(clock, first, env, w) +
      if Stops(first, caught) then [] else BodyOrigins(clock, rest, env.(parent := t1.active), t1.world)
  }

  /** The wall clock's reading, or the monotonic clock's moved by the anchor's offset. */
  function Begin(clock: Clock, r: Reading, origin: Option<Anchor>): real {
    if origin.Some? then clock.mono(r.open + 1) + (origin.value.wall - origin.value.mono) else clock.wall(r.open)
  }

  /** Where the spans of a trace without an anchor start; only an endpoint that moved there comes from elsewhere. */
  ghost predicate Begun(clock: Clock, ss: seq<Span>, rs: seq<Reading>, os: seq<Option<Anchor>>, t: Uid) {
    |ss| == |rs| == |os| && forall i ::
        0 <= i < |ss| && ss[i].traceId == t ==>
          ss[i].start == Begin(clock, rs[i], os[i]) && (Reparented(ss[i].kind) || os[i].None?)
  }

  lemma OpenUnanchored(clock: Clock, kind: Kind, env: Env, w: World, t: Uid)
    requires t !in w.anchors && Drawn(t, w.ids) && Quiet(clock, t, w.tick, w.tick + 1)
    ensures t !in Open(clock, kind, env, w).1.anchors
  {
    assert NotAmong(t, clock.others(w.tick));
    RegisteredBefore(w.anchors, clock.others(w.tick), t);
  }

  /** A span that gets into a trace without an anchor is where its creation has placed it. */
  lemma UnanchoredOpen(clock: Clock, kind: Kind, env: Env, w: World, t: Uid, r: Reading)
    requires t !in w.anchors && Drawn(t, w.ids) && Quiet(clock, t, w.tick, w.tick + 1) && r.open == w.tick
    ensures var o := Open(clock, kind, env, w).0;
            o.traceId == t ==>
              o.start == Begin(clock, r, OriginOf(clock, env, w)) &&
              (Reparented(kind) || OriginOf(clock, env, w).None?)
  {
    OpenUnanchored(clock, kind, env, w, t);
  }

  /** A trace started elsewhere never gets an anchor from the calls made in it. */
  lemma {:induction false} UnanchoredStarts(clock: Clock, call: Call, env: Env, w: World, t: Uid)
    requires t !in w.anchors && Drawn(t, w.ids) && Quiet(clock, t, w.tick, TickAfter(call, w.tick))
    ensures t !in Emit(clock, call, env, w).world.anchors
    ensures Begun(clock, Emit(clock, call, env, w).spans, Readings(call, w.tick), Origins(clock, call, env, w), t)
    decreases call
  {
    hide Begun, Begin, OriginOf, Quiet, EmitBody, BodyReadings, BodyOrigins;
    var (o, w1) := Open(clock, call.kind, env, w);
    QuietHere(clock, t, call, w.tick);
    OpenUnanchored(clock, call.kind, env, w, t);
    if Refuses(call.kind) {
      NoneBegun(clock, t);
    } else {
      var inside, w2 := Inside(call, o, env), Announced(call.kind, w1);
      QuietInside(clock, t, call, w.tick);
      UnanchoredBodyStarts(clock, call.body, inside, w2, t);
      var inner := EmitBody(clock, call.body, inside, w2);
      var r := Reading(w.tick, Closing(call, BodyTickAfter(call.body, w.tick + 2)));
      UnanchoredOpen(clock, call.kind, env, w, t, r);
      BegunUnder(clock, inner.spans, Reported(clock, call, env, w.tags, o, inner.world),
                 BodyReadings(call.body, w.tick + 2), r,
                 BodyOrigins(clock, call.body, inside, w2), OriginOf(clock, env, w), t);
    }
  }

  lemma NoneBegun(clock: Clock, t: Uid)
    ensures Begun(clock, [], [], [], t)
  {
  }

  lemma BegunUnder(clock: Clock, s1: seq<Span>, s: Span, r1: seq<Reading>, r: Reading, o1: seq<Option<Anchor>>,
                   o: Option<Anchor>, t: Uid)
    requires Begun(clock, s1, r1, o1, t)
    requires s.traceId == t ==> s.start == Begin(clock, r, o) && (Reparented(s.kind) || o.None?)
    ensures Begun(clock, s1 + [s], r1 + [r], o1 + [o], t)
  {
  }

  lemma BegunJoined(clock: Clock, s1: seq<Span>, s2: seq<Span>, r1: seq<Reading>, r2: seq<Reading>,
                    o1: seq<Option<Anchor>>, o2: seq<Option<Anchor>>, t: Uid)
    requires Begun(clock, s1, r1, o1, t) && Begun(clock, s2, r2, o2, t)
    ensures Begun(clock, s1 + s2, r1 + r2, o1 + o2, t)
  {
  }

  lemma {:induction false} UnanchoredBodyStarts(clock: Clock, b: Body, env: Env, w: World, t: Uid)
    requires t !in w.anchors && Drawn(t, w.ids) && Quiet(clock, t, w.tick, BodyTickAfter(b, w.tick))
    ensures t !in EmitBody(clock, b, env, w).world.anchors
    ensures Begun(clock, EmitBody(clock, b, env, w).spans, BodyReadings(b, w.tick), BodyOrigins(clock, b, env, w), t)
    decreases b
  {
    if b.Then? {
      var t1, mid := Emit(clock, b.first, env, w), TickAfter(b.first, w.tick);
      QuietAlong(clock, t, b, w.tick);
      UnanchoredStarts(clock, b.first, env, w, t);
      if !Stops(b.first, b.caught) {
        DurationsAreMeasured(clock, b.first, env, w);
        IdsGrow(clock, b.first, env, w);
        var env1 := env.(parent := t1.active);
        UnanchoredBodyStarts(clock, b.rest, env1, t1.world, t);
        hide Begun;
        BegunJoined(clock, t1.spans, EmitBody(clock, b.rest, env1, t1.world).spans,
                    Readings(b.first, w.tick), BodyReadings(b.rest, mid),
                    Origins(clock, b.first, env, w), BodyOrigins(clock, b.rest, env1, t1.world), t);
      }
    }
  }

  /** By how much more than the time that passed the beginnings of two spans are apart. */
  function Jump(clock: Clock, outer: Reading, o: Option<Anchor>, r: Reading, o1: Option<Anchor>): real {
    (Begin(clock, r, o1) - Begin(clock, outer, o)) - (clock.mono(r.open + 1) - clock.mono(outer.open + 1))
  }

  /**
   Set back by no more than has passed since the outer span opened, set forward by no more than
   it goes on after the inner.
   */
  predicate SmallJump(clock: Clock, outer: Reading, o: Option<Anchor>, r: Reading, o1: Option<Anchor>) {
    -(clock.mono(r.open + 1) - clock.mono(outer.open + 1)) <=
    Jump(clock, outer, o, r, o1) <=
    clock.mono(outer.close) - clock.mono(r.close)
  }

  /** The two begin as far apart as the first one takes, or further. */
  predicate FarEnough(clock: Clock, r: Reading, o: Option<Anchor>, next: Reading, o1: Option<Anchor>) {
    Elapsed(clock, r) <= Begin(clock, next, o1) - Begin(clock, r, o)
  }

  /**
   In a trace without an anchor, a child is reported inside its parent if and only if the
   clock that placed them did not jump by more than that between their openings, and
   siblings keep their order if and only if it did not jump back by more than the time
   between them. What places a span is the wall clock, but for an endpoint that has come
   from an anchored trace: that one brings the place its old trace gave it.
   */
  lemma UnanchoredNestIff(clock: Clock, call: Call, env: Env, w: World, t: Uid, above: seq<Layer>, stray: bool)
    requires t !in w.anchors && Drawn(t, w.ids) && Quiet(clock, t, w.tick, TickAfter(call, w.tick))
    ensures var (fs, ss) := (Executed(call, above, stray), Emit(clock, call, env, w).spans);
            var (rs, os) := (Readings(call, w.tick), Origins(clock, call, env, w));
            && |fs| == |ss| == |rs| == |os| && ReadingsNest(fs, rs)
            && (forall i: nat :: i < |ss| && ss[i].traceId == t && !Reparented(ss[i].kind) ==> os[i].None?)
            && (forall i: nat, j: nat :: Encloses(fs, i, j) && ss[i].traceId == t && ss[j].traceId == t ==>
                  (Holds(ss[j], ss[i]) <==> SmallJump(clock, rs[j], os[j], rs[i], os[i])))
            && (forall i: nat, j: nat :: Siblings(fs, i, j) && ss[i].traceId == t && ss[j].traceId == t ==>
                  (ss[i].end <= ss[j].start <==> FarEnough(clock, rs[i], os[i], rs[j], os[j])))
  {
    hide Emit, Executed, Readings, Origins, Encloses, Siblings, Quiet, Drawn, SmallJump, Holds, Elapsed, FarEnough;
    var ss, rs, os := Emit(clock, call, env, w).spans, Readings(call, w.tick), Origins(clock, call, env, w);
    DurationsAreMeasured(clock, call, env, w);
    CallsNest(call, w.tick, above, stray);
    UnanchoredStarts(clock, call, env, w, t);
    var fs := Executed(call, above, stray);
    forall i: nat, j: nat | Encloses(fs, i, j)
      ensures i < |ss| && j < |ss|
      ensures ss[i].traceId == t && ss[j].traceId == t ==>
                (Holds(ss[j], ss[i]) <==> SmallJump(clock, rs[j], os[j], rs[i], os[i]))
    {
      EnclosedBounds(fs, i, j);
      if ss[i].traceId == t && ss[j].traceId == t {
        JumpArithmetic(clock, ss[j], ss[i], rs[j], rs[i], os[j], os[i]);
      }
    }
    forall i: nat, j: nat | Siblings(fs, i, j)
      ensures i < |ss| && j < |ss|
      ensures ss[i].traceId == t && ss[j].traceId == t ==>
                (ss[i].end <= ss[j].start <==> FarEnough(clock, rs[i], os[i], rs[j], os[j]))
    {
      SiblingBounds(fs, i, j);
      if ss[i].traceId == t && ss[j].traceId == t { OrderArithmetic(clock, ss[i], ss[j], rs[i], rs[j], os[i], os[j]); }
    }
  }

  lemma JumpArithmetic(clock: Clock, outer: Span, s: Span, ro: Reading, r: Reading, oo: Option<Anchor>,
                       o: Option<Anchor>)
    requires outer.start == Begin(clock, ro, oo) && outer.end == outer.start + Elapsed(clock, ro)
    requires s.start == Begin(clock, r, o) && s.end == s.start + Elapsed(clock, r)
    ensures Holds(outer, s) <==> SmallJump(clock, ro, oo, r, o)
  {
    hide Begin;
  }

  lemma OrderArithmetic(clock: Clock, s: Span, next: Span, r: Reading, rn: Reading, o: Option<Anchor>,
                        on: Option<Anchor>)
    requires s.start == Begin(clock, r, o) && s.end == s.start + Elapsed(clock, r) && next.start == Begin(clock, rn, on)
    ensures s.end <= next.start <==> FarEnough(clock, r, o, rn, on)
  {
    hide Begin;
  }

  /** A request from another process whose one traced call starts after the wall clock was set back by 100 seconds. */
  function ClientRequest(): Call {
    Call(EndpointCall(Some(Remote(Foreign("client"), Foreign("span")))), "serve",
         Then(Call(TraceCall, "work", Return), false, Return))
  }

  function SetBack(): Clock {
    Clock(n => if n < 2 then 100.0 else 0.0, n => n as real, n => [])
  }

  /** The child is reported to end before its parent starts. */
  lemma ClientTraceComesApart()
    ensures var ss := Emit(SetBack(), ClientRequest(), Env(None, None), World(0, 0, map[], Tags(None, None))).spans;
            |ss| == 2 && ss[0].traceId == ss[1].traceId == Foreign("client") && ss[0].parentId == Some(ss[1].spanId) &&
              ss[0].end < ss[1].start
  {
    var clock, call, env, w := SetBack(), ClientRequest(), Env(None, None), World(0, 0, map[], Tags(None, None));
    var (o, w1) := Open(clock, call.kind, env, w);
    assert clock.others(0) == [] && o == Opened(Foreign("client"), Uuid(1), Some(Foreign("span")), 100.0, 1.0);
    var inside, child := Inside(call, o, env), Call(TraceCall, "work", Return);
    var (c, w2) := Open(clock, child.kind, inside, w1);
    assert c.start == 0.0 && c.monoStart == 3.0;
    var t1 := Emit(clock, child, inside, w1);
    var inner := Trail([], w2, Some(Link(c.traceId, c.spanId)));
    assert EmitBody(clock, child.body, Inside(child, c, inside), Announced(child.kind, w2)) == inner;
    assert t1 == Close(clock, child, inside, w1.tags, c, inner);
    assert t1.spans == [] + [Reported(clock, child, inside, w1.tags, c, w2)];
    assert EmitBody(clock, call.body, inside, w1).spans == t1.spans + [];
  }

  // ----- the same trace with siblings, and with an endpoint that has come from another ------------

  /** A client's trace in which the wall clock is set back by 100 seconds between two calls, one after the other. */
  function TwoSteps(): Body {
    Then(Call(TraceCall, "first", Return), false, Then(Call(TraceCall, "second", Return), false, Return))
  }

  function SetBackBetween(): Clock {
    Clock(n => if n < 3 then 100.0 else 0.0, n => n as real, n => [])
  }

  lemma OneTraceCall(clock: Clock, name: string, env: Env, w: World, t: Uid)
    requires env.parent.Some? && env.parent.value.traceId == t && t !in w.anchors && clock.others(w.tick) == []
    ensures var e := Emit(clock, Call(TraceCall, name, Return), env, w);
            && |e.spans| == 1 && e.spans[0].traceId == t && e.spans[0].start == clock.wall(w.tick)
            && e.spans[0].end == clock.wall(w.tick) + (clock.mono(w.tick + 2) - clock.mono(w.tick + 1))
            && e.world == World(w.ids + 1, w.tick + 3, w.anchors, w.tags) && e.active == env.parent
  {
    var call := Call(TraceCall, name, Return);
    var (o, w1) := Open(clock, call.kind, env, w);
    var inner := EmitBody(clock, call.body, Inside(call, o, env), Announced(call.kind, w1));
    assert inner.spans == [];
    assert Emit(clock, call, env, w) == Close(clock, call, env, w.tags, o, inner);
  }

  /** The second is reported to start before the first has ended. */
  lemma SiblingsChangePlaces()
    ensures var env := Env(Some(Link(Foreign("client"), Foreign("span"))), None);
            var ss := EmitBody(SetBackBetween(), TwoSteps(), env, World(0, 0, map[], Tags(None, None))).spans;
            |ss| == 2 && ss[0].traceId == ss[1].traceId == Foreign("client") && ss[1].start < ss[0].end
  {
    var clock, t := SetBackBetween(), Foreign("client");
    var env, w := Env(Some(Link(t, Foreign("span"))), None), World(0, 0, map[], Tags(None, None));
    OneTraceCall(clock, "first", env, w, t);
    var e1 := Emit(clock, Call(TraceCall, "first", Return), env, w);
    OneTraceCall(clock, "second", env, e1.world, t);
    var e2 := Emit(clock, Call(TraceCall, "second", Return), env, e1.world);
    var rest := Then(Call(TraceCall, "second", Return), false, Return);
    assert EmitBody(clock, rest, env.(parent := e1.active), e1.world).spans == e2.spans + [];
    assert EmitBody(clock, TwoSteps(), env, w).spans == e1.spans + (e2.spans + []);
  }

  /**
   Inside a span of trace 0, whose anchor was taken when the wall clock was 100 seconds
   ahead, an endpoint serves the client's request: it keeps that place in the client's
   trace, the call it makes there follows the wall clock of now.
   */
  lemma MovedEndpointComesApart()
    ensures var w := World(1, 5, map[Uuid(0) := Anchor(100.0, 0.0)], Tags(None, None));
            var env, clock := Env(Some(Link(Uuid(0), Uuid(0))), None), Clock(n => 0.0, n => n as real, n => []);
            var ss := Emit(clock, ClientRequest(), env, w).spans;
            |ss| == 2 && ss[0].traceId == ss[1].traceId == Foreign("client") && ss[0].parentId == Some(ss[1].spanId) &&
              ss[1].start == 106.0 && ss[0].start == 0.0
  {
    var w := World(1, 5, map[Uuid(0) := Anchor(100.0, 0.0)], Tags(None, None));
    var env, clock := Env(Some(Link(Uuid(0), Uuid(0))), None), Clock(n => 0.0, n => n as real, n => []);
    var call := ClientRequest();
    var (o, w1) := Open(clock, call.kind, env, w);
    assert clock.others(5) == [] && o == Opened(Foreign("client"), Uuid(1), Some(Foreign("span")), 106.0, 6.0);
    var inside := Inside(call, o, env);
    OneTraceCall(clock, "work", inside, w1, Foreign("client"));
    var t1 := Emit(clock, Call(TraceCall, "work", Return), inside, w1);
    assert EmitBody(clock, call.body, inside, w1).spans == t1.spans + [];
    ParentOfWork(clock, inside, w1);
  }

  lemma ParentOfWork(clock: Clock, env: Env, w: World)
    requires env.parent.Some?
    ensures var ss := Emit(clock, Call(TraceCall, "work", Return), env, w).spans;
            |ss| == 1 && ss[0].parentId == Some(env.parent.value.spanId)
  {
  }
}
