/**
 The client side: a bounded span queue, a sender with retries, and the background
 exporter that drains one into the other. Sources: src/rastir/queue.py:18-50 and
 src/rastir/transport.py:78-138, 195-239.
 */
module Exporter {

  /**
   Spans are told apart by a number. Despite default=str one may refuse to become JSON: a
   dict attribute with a tuple for a key, or a value that contains itself.
   */
  datatype Span = Span(id: nat, encodable: bool)

  predicate Encodable(spans: seq<Span>) { forall i :: 0 <= i < |spans| ==> spans[i].encodable }

  /** How one POST ended: an HTTP status, a timeout or connection error, or any other exception. */
  datatype Post = Status(code: nat) | Transient | Unexpected

  predicate Retryable(p: Post) {
    p == Transient || (p.Status? && p.code in {429, 500, 502, 503, 504})
  }

  predicate Delivered(p: Post) {
    p.Status? && p.code < 300
  }

  // ----- one batch with retries ----------------------------------------------

  function Power2(n: nat): (p: nat)
    ensures p >= 1
  {
    if n == 0 then 1 else 2 * Power2(n - 1)
  }

  /** The number of attempts made: the first answer that is final ends the sending, else all attempts are used. */
  function Attempts(posts: seq<Post>, maxRetries: nat): (a: nat)
    requires |posts| >= maxRetries
    ensures a <= maxRetries
    ensures forall i :: 0 <= i < a - 1 ==> Retryable(posts[i]) && !Delivered(posts[i])
    ensures a < maxRetries ==> a > 0 && (Delivered(posts[a - 1]) || !Retryable(posts[a - 1]))
  {
    if maxRetries == 0 then 0
    else if Delivered(posts[0]) || !Retryable(posts[0]) then 1
    else 1 + Attempts(posts[1..], maxRetries - 1)
  }

  predicate Succeeds(posts: seq<Post>, maxRetries: nat)
    requires |posts| >= maxRetries
  {
    var a := Attempts(posts, maxRetries);
    a > 0 && Delivered(posts[a - 1])
  }

  /** How send_batch() ends: True, False, or an exception. */
  datatype Sending = Sent | NotSent | Raised

  /** Counters of transport.py:37-41. */
  datatype Stats = Stats(successes: nat, failures: nat, exported: nat, dropped: nat)

  function Counted(s: Stats, n: nat, ok: bool): Stats {
    if ok then s.(successes := s.successes + 1, exported := s.exported + n)
    else s.(failures := s.failures + 1, dropped := s.dropped + n)
  }

  lemma {:induction false} AttemptsPrefix(posts: seq<Post>, maxRetries: nat, k: nat)
    requires |posts| >= maxRetries && k < maxRetries
    requires forall i :: 0 <= i < k ==> Retryable(posts[i]) && !Delivered(posts[i])
    ensures Attempts(posts, maxRetries) >= k + 1
    ensures Delivered(posts[k]) || !Retryable(posts[k]) ==> Attempts(posts, maxRetries) == k + 1
    decreases k
  {
    if k > 0 {
      assert forall i :: 0 <= i < k - 1 ==> posts[1..][i] == posts[i + 1];
      AttemptsPrefix(posts[1..], maxRetries - 1, k - 1);
    }
  }

  /** A timeout or connection error, or one of these statuses: 501 and 505 are not among them, 429 is. */
  ghost predicate AsksForRetry(p: Post) {
    p == Transient ||
    (p.Status? && (p.code == 429 || p.code == 500 || p.code == 502 || p.code == 503 || p.code == 504))
  }

  /** There are more than k attempts exactly when there may be and each of the first k answers asks for a retry. */
  lemma {:induction false} AttemptsIff(posts: seq<Post>, maxRetries: nat, k: nat)
    requires |posts| >= maxRetries
    ensures Attempts(posts, maxRetries) > k <==> k < maxRetries && forall i :: 0 <= i < k ==> AsksForRetry(posts[i])
    decreases k
  {
    if k > 0 && maxRetries > 0 {
      AttemptsIff(posts[1..], maxRetries - 1, k - 1);
      assert forall i :: 0 <= i < k - 1 && i + 1 < |posts| ==> posts[1..][i] == posts[i + 1];
      if AsksForRetry(posts[0]) && k < maxRetries && forall i :: 0 <= i < k - 1 ==> AsksForRetry(posts[1..][i]) {
        forall i | 0 <= i < k
          ensures AsksForRetry(posts[i])
        {
          if i > 0 { assert posts[i] == posts[1..][i - 1]; }
        }
      }
    }
  }

  /** A batch is delivered exactly when an answer below 300 comes after none but requests to retry. */
  lemma SucceedsIff(posts: seq<Post>, maxRetries: nat)
    requires |posts| >= maxRetries
    ensures Succeeds(posts, maxRetries) <==>
            exists k :: 0 <= k < maxRetries && posts[k].Status? && posts[k].code < 300 &&
                        forall i :: 0 <= i < k ==> AsksForRetry(posts[i])
  {
    if Succeeds(posts, maxRetries) {
      var a := Attempts(posts, maxRetries);
      AttemptsIff(posts, maxRetries, a - 1);
      assert posts[a - 1].Status?;
    }
    if k :| 0 <= k < maxRetries && posts[k].Status? && posts[k].code < 300 &&
            forall i :: 0 <= i < k ==> AsksForRetry(posts[i]) {
      AttemptsIff(posts, maxRetries, k);
      AttemptsIff(posts, maxRetries, k + 1);
    }
  }

  /** How often the loop has waited when an attempt begins; there is no wait after the last. */
  function WaitsBefore(attempt: nat, maxRetries: nat): nat
    requires attempt > 0
  {
    if attempt <= maxRetries || maxRetries == 0 then attempt - 1 else maxRetries - 1
  }

  /** The client: how many spans went where, how long it slept in all, how many POSTs it made. */
  class TelemetryClient {
    const maxRetries: nat
    const initialBackoff: real
    var stats: Stats
    var slept: real
    var postsMade: nat

    constructor (maxRetries: nat, initialBackoff: real)
      ensures this.maxRetries == maxRetries && this.initialBackoff == initialBackoff
      ensures stats == Stats(0, 0, 0, 0) && slept == 0.0 && postsMade == 0
    {
      this.maxRetries, this.initialBackoff := maxRetries, initialBackoff;
      stats, slept, postsMade := Stats(0, 0, 0, 0), 0.0, 0;
    }

    /**
     transport.py:78-138. "posts" are the answers the server would give, attempt by attempt.
     A sending that ends at attempt a has slept initialBackoff * (2^(a-1) - 1) seconds. The
     payload is built outside the "try": if a span cannot be encoded the method raises
     before anything is sent or counted.
     */
    method SendBatch(spans: seq<Span>, posts: seq<Post>) returns (result: Sending)
      requires |posts| >= maxRetries
      modifies this
      ensures result == if !Encodable(spans) then Raised else if Succeeds(posts, maxRetries) then Sent else NotSent
      ensures result == Raised ==> stats == old(stats) && postsMade == old(postsMade) && slept == old(slept)
      ensures result == Sent ==>
                stats == old(stats).(successes := old(stats).successes + 1, exported := old(stats).exported + |spans|)
      ensures result == NotSent ==>
                stats == old(stats).(failures := old(stats).failures + 1, dropped := old(stats).dropped + |spans|)
      ensures var a := Attempts(posts, maxRetries);
              result != Raised ==>
                && postsMade == old(postsMade) + a
                && slept == old(slept) + (if a == 0 then 0.0 else initialBackoff * (Power2(a - 1) - 1) as real)
    {
      if !Encodable(spans) { return Raised; }
      var ok := PostWithRetries(|spans|, posts);
      result := if ok then Sent else NotSent;
    }

    /** The loop, for a payload that could be built. */
    method PostWithRetries(n: nat, posts: seq<Post>) returns (ok: bool)
      requires |posts| >= maxRetries
      modifies this
      ensures ok <==> Succeeds(posts, maxRetries)
      ensures stats == Counted(old(stats), n, ok)
      ensures var a := Attempts(posts, maxRetries);
              && postsMade == old(postsMade) + a
              && slept == old(slept) + (if a == 0 then 0.0 else initialBackoff * (Power2(a - 1) - 1) as real)
    {
      hide Power2;
      ghost var a := Attempts(posts, maxRetries);
      SleptClosed(initialBackoff, if a == 0 then 0 else a - 1);
      var backoff := initialBackoff;
      var attempt := 1;
      while attempt <= maxRetries
        invariant 1 <= attempt <= maxRetries + 1
        invariant stats == old(stats) && postsMade == old(postsMade) + attempt - 1
        invariant forall i :: 0 <= i < attempt - 1 ==> Retryable(posts[i]) && !Delivered(posts[i])
        invariant attempt <= maxRetries ==> backoff == Doubling(initialBackoff, attempt - 1)
        invariant slept == old(slept) + Slept(initialBackoff, WaitsBefore(attempt, maxRetries))
      {
        AttemptsPrefix(posts, maxRetries, attempt - 1);
        postsMade := postsMade + 1;
        var response := posts[attempt - 1];
        if Delivered(response) {
          stats := Counted(stats, n, true);
          return true;
        }
        if Retryable(response) {
          if attempt < maxRetries {
            slept := slept + backoff;
            backoff := backoff * 2.0;
          }
        } else {
          stats := Counted(stats, n, false);
          return false;
        }
        attempt := attempt + 1;
      }
      stats := Counted(stats, n, false);
      ok := false;
    }
  }

  /** The wait before attempt k + 2. */
  function Doubling(b: real, k: nat): real {
    if k == 0 then b else Doubling(b, k - 1) * 2.0
  }

  /** The sum of the first k waits. */
  function Slept(b: real, k: nat): real {
    if k == 0 then 0.0 else Slept(b, k - 1) + Doubling(b, k - 1)
  }

  lemma {:induction false} DoublingClosed(b: real, k: nat)
    ensures Doubling(b, k) == b * Power2(k) as real
  {
    if k > 0 {
      DoublingClosed(b, k - 1);
      assert Power2(k) as real == 2.0 * Power2(k - 1) as real;
    }
  }

  lemma {:induction false} SleptClosed(b: real, k: nat)
    ensures Slept(b, k) == b * (Power2(k) - 1) as real
  {
    if k > 0 {
      SleptClosed(b, k - 1);
      DoublingClosed(b, k - 1);
      assert (Power2(k) - 1) as real == (Power2(k - 1) - 1) as real + Power2(k - 1) as real;
    }
  }

  /**
   With the defaults (3 attempts, 0.5 s) a batch waits 1.5 s in all if and only if the first
   two answers ask for a retry; the 3.5 s of transport.py:14 are never reached.
   */
  method DefaultBackoff(spans: seq<Span>, posts: seq<Post>) returns (slept: real)
    requires |posts| >= 3 && Encodable(spans)
    ensures slept <= 1.5
    ensures slept == 1.5 <==> AsksForRetry(posts[0]) && AsksForRetry(posts[1])
  {
    var client := new TelemetryClient(3, 0.5);
    var _ := client.SendBatch(spans, posts);
    slept := client.slept;
    var a := Attempts(posts, 3);
    AttemptsIff(posts, 3, 2);
    assert Power2(0) == 1 && Power2(1) == 2 && Power2(2) == 4;
    assert a == 1 || a == 2 || a == 3;
  }

  // ----- queue and exporter ---------------------------------------------------

  /** range(a) has no round for a negative a; a drain takes no more than there is. */
  function Min(a: int, b: nat): (m: nat)
    ensures m <= b
  {
    if a < 0 then 0 else if a < b then a else b
  }

  function Chunk(q: seq<Span>, size: int): seq<Span> { q[..Min(size, |q|)] }

  function Rest(q: seq<Span>, size: int): seq<Span> { q[Min(size, |q|)..] }

  /** What the final flush leaves in the queue: it goes on until it is empty or a batch cannot be encoded. */
  function Left(q: seq<Span>, size: int): seq<Span>
    decreases |q|
  {
    if q == [] || size < 1 then q
    else if !Encodable(Chunk(q, size)) then Rest(q, size)
    else Left(Rest(q, size), size)
  }

  /** What the thread leaves after so many rounds: one that raises is its last. */
  function ThreadLeft(q: seq<Span>, size: int, rounds: nat): seq<Span>
    decreases rounds
  {
    if rounds == 0 then q
    else if !Encodable(Chunk(q, size)) then Rest(q, size)
    else ThreadLeft(Rest(q, size), size, rounds - 1)
  }

  /** How many spans were in batches that could be encoded. */
  function Counts(batches: seq<seq<Span>>): nat {
    if batches == [] then 0
    else Counts(batches[..|batches| - 1]) + if Encodable(batches[|batches| - 1]) then |batches[|batches| - 1]| else 0
  }

  function Answered(batches: seq<seq<Span>>): nat {
    if batches == [] then 0
    else Answered(batches[..|batches| - 1]) + if Encodable(batches[|batches| - 1]) then 1 else 0
  }

  lemma OneMoreBatch(batches: seq<seq<Span>>, b: seq<Span>)
    ensures Flat(batches + [b]) == Flat(batches) + b
    ensures Counts(batches + [b]) == Counts(batches) + if Encodable(b) then |b| else 0
    ensures Answered(batches + [b]) == Answered(batches) + if Encodable(b) then 1 else 0
  {
    assert (batches + [b])[..|batches|] == batches;
  }

  /** Every span drained is counted as exported or dropped if and only if every batch could be encoded. */
  lemma {:induction false} AllCountedIff(batches: seq<seq<Span>>)
    requires forall i :: 0 <= i < |batches| ==> batches[i] != []
    ensures Counts(batches) <= |Flat(batches)|
    ensures Counts(batches) == |Flat(batches)| <==> forall i :: 0 <= i < |batches| ==> Encodable(batches[i])
    decreases |batches|
  {
    if batches != [] { AllCountedIff(batches[..|batches| - 1]); }
  }

  lemma {:induction false} EncodableParts(q: seq<Span>, size: int)
    ensures Encodable(q) <==> Encodable(Chunk(q, size)) && Encodable(Rest(q, size))
  {
    var m := Min(size, |q|);
    if Encodable(Chunk(q, size)) && Encodable(Rest(q, size)) {
      forall i | 0 <= i < |q| ensures q[i].encodable {
        if i < m { assert q[i] == Chunk(q, size)[i]; } else { assert q[i] == Rest(q, size)[i - m]; }
      }
    }
  }

  /** Where the batch ends that holds position i. */
  function BatchEnd(i: nat, size: int): nat
    requires size >= 1
  {
    if i < size then size else size + BatchEnd(i - size, size)
  }

  /**
   The flush empties the queue if all in it can be encoded; else what it leaves begins
   after the batch that holds the first span that cannot.
   */
  lemma {:induction false} LeftMeans(q: seq<Span>, size: int)
    requires size >= 1
    ensures Encodable(q) ==> Left(q, size) == []
    ensures forall i: nat :: FirstBad(q, i) ==> Left(q, size) == q[Min(BatchEnd(i, size), |q|)..]
    decreases |q|
  {
    if q != [] {
      EncodableParts(q, size);
      if Encodable(Chunk(q, size)) { LeftMeans(Rest(q, size), size); }
      forall i: nat | FirstBad(q, i) ensures Left(q, size) == q[Min(BatchEnd(i, size), |q|)..] {
        LeftAfter(q, size, i);
      }
    }
  }

  predicate FirstBad(q: seq<Span>, i: nat) { i < |q| && !q[i].encodable && Encodable(q[..i]) }

  lemma BadIsHere(q: seq<Span>, size: int, i: nat)
    requires i < size && FirstBad(q, i)
    ensures !Encodable(Chunk(q, size))
  {
    assert Chunk(q, size)[i] == q[i];
  }

  lemma BadIsLater(q: seq<Span>, size: int, i: nat)
    requires 1 <= size <= i && FirstBad(q, i)
    ensures Encodable(Chunk(q, size)) && FirstBad(Rest(q, size), i - size)
  {
    var chunk, before := Chunk(q, size), Rest(q, size)[..i - size];
    forall k | 0 <= k < |chunk| ensures chunk[k].encodable { assert chunk[k] == q[..i][k]; }
    forall k | 0 <= k < |before| ensures before[k].encodable { assert before[k] == q[..i][k + size]; }
  }

  lemma RestFrom(q: seq<Span>, size: int, e: nat)
    requires 1 <= size < |q|
    ensures Rest(q, size)[Min(e, |Rest(q, size)|)..] == q[Min(size + e, |q|)..]
  {
  }

  lemma {:induction false} LeftAfter(q: seq<Span>, size: int, i: nat)
    requires size >= 1 && FirstBad(q, i)
    ensures Left(q, size) == q[Min(BatchEnd(i, size), |q|)..]
    decreases |q|
  {
    hide Encodable;
    if i < size {
      BadIsHere(q, size, i);
    } else {
      BadIsLater(q, size, i);
      LeftAfter(Rest(q, size), size, i - size);
      RestFrom(q, size, BatchEnd(i - size, size));
    }
  }

  /**
   The exporter with its queue and its thread. "accepted" are the spans that entered the
   queue, "drained" the batches taken from it, both in order.
   */
  class BackgroundExporter {
    const maxQueue: nat
    const batchSize: int
    const client: TelemetryClient
    var queue: seq<Span>
    var alive: bool  // the thread
    ghost var accepted: seq<Span>
    ghost var drained: seq<seq<Span>>

    /**
     What was drained so far is a FIFO prefix of what was accepted, and what could be encoded of
     it is counted once.
     */
    ghost predicate Valid()
      reads this, client
    {
      && accepted == Flat(drained) + queue
      && |queue| <= maxQueue
      && (forall i :: 0 <= i < |drained| ==> drained[i] != [])
      && client.stats.exported + client.stats.dropped == Counts(drained)
      && client.stats.successes + client.stats.failures == Answered(drained)
    }

    constructor (maxQueue: nat, batchSize: int, client: TelemetryClient)
      requires client.stats == Stats(0, 0, 0, 0)
      ensures this.maxQueue == maxQueue && this.batchSize == batchSize && this.client == client
      ensures Valid() && queue == [] && accepted == [] && drained == [] && alive
    {
      this.maxQueue, this.batchSize, this.client := maxQueue, batchSize, client;
      queue, alive, accepted, drained := [], true, [], [];
    }

    /** queue.py:23-36: a full queue drops the new span */
    method EnqueueSpan(span: Span)
      requires Valid()
      modifies this
      ensures Valid() && drained == old(drained) && alive == old(alive)
      ensures accepted == old(accepted) + if |old(queue)| < maxQueue then [span] else []
      ensures queue == old(queue) + if |old(queue)| < maxQueue then [span] else []
    {
      if |queue| < maxQueue {
        queue := queue + [span];
        accepted := accepted + [span];
      }
    }

    /** queue.py:39-50 */
    method DrainBatch(maxSize: int) returns (batch: seq<Span>)
      modifies this`queue
      ensures batch == Chunk(old(queue), maxSize) && queue == Rest(old(queue), maxSize)
      ensures old(queue) == batch + queue && (maxSize >= 0 ==> |batch| <= maxSize)
      ensures queue != [] ==> |batch| == if maxSize < 0 then 0 else maxSize
    {
      batch := [];
      var i := 0;
      while i < maxSize && queue != []
        invariant 0 <= i <= |old(queue)| && (maxSize >= 0 ==> i <= maxSize) && (maxSize < 0 ==> i == 0)
        invariant batch == old(queue)[..i] && queue == old(queue)[i..]
        decreases |queue|
      {
        batch := batch + [queue[0]];
        queue := queue[1..];
        i := i + 1;
      }
    }

    /** transport.py:226-230; the batch is off the queue before it turns out that it cannot be encoded */
    method FlushOnce(size: int, posts: seq<Post>) returns (ok: bool, batch: seq<Span>)
      requires Valid() && |posts| >= client.maxRetries
      modifies this`queue, this`drained, client
      ensures Valid() && accepted == old(accepted)
      ensures batch == Chunk(old(queue), size) && queue == Rest(old(queue), size)
      ensures drained == if batch == [] then old(drained) else old(drained) + [batch]
      ensures ok <==> Encodable(batch)
    {
      hide Counts, Answered, Flat;
      batch := DrainBatch(size);
      ok := true;
      if batch != [] {
        var result := client.SendBatch(batch, posts);
        ok := result != Raised;
        drained := drained + [batch];
        OneMoreBatch(old(drained), batch);
        assert Flat(old(drained)) + (batch + queue) == Flat(drained) + queue;
      } else {
        assert queue == old(queue);
      }
    }

    /** transport.py:232-239; ends with an exception if a span still queued cannot be encoded */
    method FlushAll(posts: nat -> seq<Post>) returns (ok: bool)
      requires Valid() && forall k :: |posts(k)| >= client.maxRetries
      modifies this`queue, this`drained, client
      ensures Valid() && accepted == old(accepted)
      ensures queue == Left(old(queue), batchSize)
      ensures ok <==> batchSize < 1 || Encodable(old(queue))
    {
      var round := 0;
      while |queue| > 0
        invariant Valid() && accepted == old(accepted)
        invariant Left(queue, batchSize) == Left(old(queue), batchSize)
        invariant batchSize < 1 ==> queue == old(queue)
        invariant Encodable(queue) <==> Encodable(old(queue))
        decreases |queue|
      {
        EncodableParts(queue, batchSize);
        var batch;
        ok, batch := FlushOnce(batchSize, posts(round));
        if !ok { return; }
        round := round + 1;
        if batch == [] { break; }
      }
      ok := true;
    }

    /** transport.py:221-224: one turn of the thread's loop; an exception is its end */
    method ThreadRound(posts: seq<Post>)
      requires Valid() && alive && |posts| >= client.maxRetries
      modifies this`queue, this`alive, this`drained, client
      ensures Valid() && accepted == old(accepted) && queue == Rest(old(queue), batchSize)
      ensures alive <==> Encodable(Chunk(old(queue), batchSize))
      ensures var batch := Chunk(old(queue), batchSize);
              drained == if batch == [] then old(drained) else old(drained) + [batch]
    {
      var batch;
      alive, batch := FlushOnce(batchSize, posts);
    }

    /** The turns the thread still makes before it sees the stop flag. */
    method RunThread(rounds: nat, posts: nat -> seq<Post>)
      requires Valid() && alive && forall k :: |posts(k)| >= client.maxRetries
      modifies this`queue, this`alive, this`drained, client
      ensures Valid() && accepted == old(accepted) && queue == ThreadLeft(old(queue), batchSize, rounds)
    {
      hide Encodable, Counts, Answered, Flat, Min;
      var left := rounds;
      while left > 0
        invariant Valid() && accepted == old(accepted) && 0 <= left <= rounds && alive
        invariant ThreadLeft(queue, batchSize, left) == ThreadLeft(old(queue), batchSize, rounds)
        decreases left
      {
        ThreadRound(posts(rounds - left));
        left := left - 1;
        if !alive { return; }
      }
    }

    /**
     transport.py:195-215 with a join that finishes: the thread ends its loop, then the
     rest is flushed, which may raise. With a dead thread nothing is flushed at all.
     */
    method Stop(rounds: nat, threadPosts: nat -> seq<Post>, finalPosts: nat -> seq<Post>) returns (ok: bool)
      requires Valid()
      requires forall k :: |threadPosts(k)| >= client.maxRetries && |finalPosts(k)| >= client.maxRetries
      modifies this`queue, this`alive, this`drained, client
      ensures Valid() && accepted == old(accepted)
      ensures !old(alive) ==> ok && queue == old(queue) && drained == old(drained) && client.stats == old(client.stats)
      ensures old(alive) ==> var rest := ThreadLeft(old(queue), batchSize, rounds);
                queue == Left(rest, batchSize) && (ok <==> batchSize < 1 || Encodable(rest))
    {
      if !alive { return true; }
      RunThread(rounds, threadPosts);
      ok := FlushAll(finalPosts);
    }
  }

  lemma {:induction false} ThreadLeavesEncodable(q: seq<Span>, size: int, rounds: nat)
    requires Encodable(q)
    ensures Encodable(ThreadLeft(q, size, rounds))
    decreases rounds
  {
    if rounds > 0 {
      EncodableParts(q, size);
      ThreadLeavesEncodable(Rest(q, size), size, rounds - 1);
    }
  }

  /** Stopping a live exporter whose queue holds nothing that cannot be encoded sends or counts everything in it. */
  lemma StopFlushesEncodable(q: seq<Span>, size: int, rounds: nat)
    requires Encodable(q) && size >= 1
    ensures Left(ThreadLeft(q, size, rounds), size) == []
  {
    ThreadLeavesEncodable(q, size, rounds);
    LeftMeans(ThreadLeft(q, size, rounds), size);
  }

  /**
   One bad span, drained by the thread, and a good one behind it: stop() returns, the good one is
   still queued, and no counter has moved.
   */
  method BadSpanStrandsTheRest(posts: nat -> seq<Post>) returns (left: seq<Span>, stats: Stats)
    requires forall k :: |posts(k)| >= 3
    ensures left == [Span(1, true)] && stats == Stats(0, 0, 0, 0)
  {
    var client := new TelemetryClient(3, 0.5);
    var exporter := new BackgroundExporter(10, 1, client);
    exporter.EnqueueSpan(Span(0, false));
    exporter.EnqueueSpan(Span(1, true));
    assert exporter.queue == [Span(0, false), Span(1, true)];
    assert Chunk(exporter.queue, 1) == [Span(0, false)] && !Chunk(exporter.queue, 1)[0].encodable;
    exporter.ThreadRound(posts(0));
    assert exporter.drained == [[Span(0, false)]] && exporter.drained[..0] == [];
    assert Counts(exporter.drained) == 0 && Answered(exporter.drained) == 0;
    var _ := exporter.Stop(0, posts, posts);
    left, stats := exporter.queue, client.stats;
  }

  function Flat(batches: seq<seq<Span>>): seq<Span> {
    if batches == [] then [] else Flat(batches[..|batches| - 1]) + batches[|batches| - 1]
  }
}
