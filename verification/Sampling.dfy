/**
 Deterministic trace-level sampling. Source: src/rastir/server/ingestion.py:233-248
 (counters) and 406-429 (decision).
 */
module Sampling {
  import opened ObjectHeap  // Option
  import opened HexCodec

  const MASK32 := 0xFFFF_FFFF

  function LastEight(traceId: string): string {
    if |traceId| > 8 then traceId[|traceId| - 8..] else traceId
  }

  /** int(rate * 0xFFFFFFFF) for the rates that reach it. */
  function Threshold(rate: real): int {
    (rate * MASK32 as real).Floor
  }

  /** The decision; None is the ValueError for a trace id that does not end in hex digits. */
  function ShouldStore(rate: real, traceId: string, draw: real): Option<bool> {
    if rate >= 1.0 then Some(true)
    else if rate <= 0.0 then Some(false)
    else if traceId != "" then
      var hash := ParseHex(LastEight(traceId));
      if hash == None then None else Some(hash.value <= Threshold(rate))
    else Some(draw < rate)
  }

  // ----- one decision per trace, nested in the rate ---------------------------

  lemma ThresholdGrows(r1: real, r2: real)
    requires r1 <= r2
    ensures Threshold(r1) <= Threshold(r2)
  {
    var m := MASK32 as real;
    assert r1 * m <= r2 * m;
  }

  /**
   Spans of one trace share the decision whatever is drawn for them, and what is kept
   at a rate is kept at every higher rate, for trace ids sharing no more than their last 8 digits.
   */
  lemma SamplingIsNested(r1: real, r2: real, a: string, b: string, draw1: real, draw2: real)
    requires r1 <= r2 && a != "" && b != "" && LastEight(a) == LastEight(b)
    ensures ShouldStore(r1, a, draw1) == ShouldStore(r1, b, draw2)
    ensures ShouldStore(r1, a, draw1) == Some(true) ==> ShouldStore(r2, b, draw2) == Some(true)
    ensures ShouldStore(r2, b, draw2) == Some(false) ==> ShouldStore(r1, a, draw1) != Some(true)
  {
    ThresholdGrows(r1, r2);
  }

  /**
   Without a trace id a draw decides, which lies in [0, 1) and so fits every rate. With one the
   draw plays no part, rates of 1 and above keep everything, rates of 0 and below nothing, and
   between them an id raises exactly when one of its last eight characters is no hex digit.
   */
  lemma SamplingDecides(rate: real, traceId: string, draw: real)
    requires 0.0 <= draw < 1.0
    ensures traceId == "" ==> ShouldStore(rate, traceId, draw) == Some(draw < rate)
    ensures traceId != "" && rate >= 1.0 ==> ShouldStore(rate, traceId, draw) == Some(true)
    ensures traceId != "" && rate <= 0.0 ==> ShouldStore(rate, traceId, draw) == Some(false)
    ensures ShouldStore(rate, traceId, draw) == None <==>
            0.0 < rate < 1.0 && exists i :: 0 <= i < |traceId| && i >= |traceId| - 8 && !IsHexDigit(traceId[i])
  {
    if |traceId| > 8 {
      assert forall i :: |traceId| - 8 <= i < |traceId| ==> traceId[i] == LastEight(traceId)[i - (|traceId| - 8)];
      assert forall i :: 0 <= i < 8 ==> LastEight(traceId)[i] == traceId[i + (|traceId| - 8)];
    }
  }

  // ----- how many traces a rate keeps -----------------------------------------

  /** The first n of the eight-digit lower-case suffixes. */
  function Suffixes(n: nat): set<string> {
    set v | 0 <= v < n :: Encode(v, 8)
  }

  lemma Width32()
    ensures Pow16(8) == MASK32 + 1
  {
    assert Pow16(2) == 256;
    assert Pow16(4) == 65536;
    PowAdds(4, 4);
  }

  lemma OneMoreSuffix(n: nat)
    requires n <= MASK32
    ensures Suffixes(n + 1) == Suffixes(n) + {Encode(n, 8)} && Encode(n, 8) !in Suffixes(n)
  {
    Width32();
    forall v | 0 <= v < n ensures Encode(v, 8) != Encode(n, 8) {
      EncodeValue(v, 8);
      EncodeValue(n, 8);
    }
  }

  lemma {:induction false} SuffixCount(n: nat)
    requires n <= MASK32 + 1
    ensures |Suffixes(n)| == n
  {
    if n > 0 {
      SuffixCount(n - 1);
      OneMoreSuffix(n - 1);
    }
  }

  /** For a rate strictly between 0 and 1 the traces kept are those whose suffix is among the first threshold + 1. */
  lemma KeptIffAmongFirst(rate: real, prefix: string, suffix: string, draw: real)
    requires 0.0 < rate < 1.0 && |suffix| == 8 && AllHex(suffix)
    ensures Threshold(rate) >= 0
    ensures ShouldStore(rate, prefix + suffix, draw) == Some(Lower(suffix) in Suffixes(Threshold(rate) + 1))
  {
    assert rate * MASK32 as real >= 0.0;
    assert LastEight(prefix + suffix) == suffix;
    ValueEncode(suffix);
    var t := Threshold(rate);
    if Value(suffix) <= t {
      assert Lower(suffix) == Encode(Value(suffix), 8);
    } else {
      ThresholdBelow(rate);
      ValueBound(suffix);
      Width32();
      forall v | 0 <= v < t + 1 ensures Encode(v, 8) != Lower(suffix) {
        EncodeValue(v, 8);
        EncodeValue(Value(suffix), 8);
      }
    }
  }

  lemma ThresholdBelow(rate: real)
    requires 0.0 < rate < 1.0
    ensures 0 <= Threshold(rate) < MASK32
    ensures Threshold(rate) as real <= rate * MASK32 as real < Threshold(rate) as real + 1.0
  {
    var m := MASK32 as real;
    assert 0.0 <= rate * m;
    assert (1.0 - rate) * m > 0.0;
  }

  /** Exactly floor(rate * (2^32 - 1)) + 1 of the 2^32 suffixes are kept, which is within 2^-32 of the rate. */
  lemma KeptFraction(rate: real)
    requires 0.0 < rate < 1.0
    ensures var kept := |Suffixes(Threshold(rate) + 1)|;
            && kept == Threshold(rate) + 1
            && -1.0 < kept as real - rate * 4294967296.0 < 1.0
  {
    ThresholdBelow(rate);
    SuffixCount(Threshold(rate) + 1);
    var t := Threshold(rate) as real;
    assert rate * (MASK32 + 1) as real == rate * MASK32 as real + rate;
  }

  // ----- counters -------------------------------------------------------------

  datatype Sampled = Sampled(traceId: string, draw: real)

  function Decision(rate: real, s: Sampled): Option<bool> {
    ShouldStore(rate, s.traceId, s.draw)
  }

  function Decisions(rate: real, spans: seq<Sampled>, want: bool): nat {
    if spans == [] then 0
    else Decisions(rate, spans[..|spans| - 1], want) + if Decision(rate, spans[|spans| - 1]) == Some(want) then 1 else 0
  }

  lemma DecisionsStep(rate: real, spans: seq<Sampled>, n: nat, want: bool)
    requires n < |spans|
    ensures Decisions(rate, spans[..n + 1], want) ==
            Decisions(rate, spans[..n], want) + if Decision(rate, spans[n]) == Some(want) then 1 else 0
  {
    assert spans[..n + 1][..n] == spans[..n];
  }

  /**
   The sampling part of the loop over a batch: spans are counted one way or the other
   until the batch ends or a malformed trace id raises.
   */
  method CountBatch(rate: real, spans: seq<Sampled>) returns (sampled: nat, dropped: nat, processed: nat)
    ensures processed <= |spans| && sampled + dropped == processed
    ensures sampled == Decisions(rate, spans[..processed], true) &&
            dropped == Decisions(rate, spans[..processed], false)
    ensures processed < |spans| ==> Decision(rate, spans[processed]) == None
  {
    sampled, dropped, processed := 0, 0, 0;
    while processed < |spans|
      invariant 0 <= processed <= |spans| && sampled + dropped == processed
      invariant sampled == Decisions(rate, spans[..processed], true) &&
                dropped == Decisions(rate, spans[..processed], false)
    {
      var store := Decision(rate, spans[processed]);
      if store == None { return; }
      DecisionsStep(rate, spans, processed, true);
      DecisionsStep(rate, spans, processed, false);
      if store.value { sampled := sampled + 1; } else { dropped := dropped + 1; }
      processed := processed + 1;
    }
  }
}
