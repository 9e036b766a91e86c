/**
 Trace and span identifiers on the wire: the W3C traceparent header, the OTLP
 integers, and the X-Ray form of a trace id.
 Sources: src/rastir/remote.py:75-105 and 395-400, src/rastir/server/otlp_exporter.py:38-64
 and 232-259, src/rastir/server/metrics.py:773-786.
 */
module Identifiers {
  import opened ObjectHeap  // Option
  import opened HexCodec

  // ----- string helpers -----------------------------------------------------

  function NoDashes(s: string): (r: string)
    ensures '-' !in r
    ensures '-' !in s ==> r == s
  {
    if s == "" then "" else (if s[0] == '-' then "" else [s[0]]) + NoDashes(s[1..])
  }

  function Zeros(n: nat): (r: string)
    ensures |r| == n && '-' !in r && AllHex(r)
  {
    if n == 0 then "" else Zeros(n - 1) + "0"
  }

  /** s.ljust(n, "0") */
  function LeftJustify(s: string, n: nat): string {
    if |s| < n then s + Zeros(n - |s|) else s
  }

  function Prefix(s: string, n: nat): string {
    if n < |s| then s[..n] else s
  }

  /** What str.strip() trims: the white space of Unicode and the four separators U+001C to U+001F. */
  predicate IsSpace(c: char) {
    || '\t' <= c <= '\r' || (0x1C as char) <= c <= (0x20 as char) || c == (0x85 as char) || c == (0xA0 as char)
    || c == (0x1680 as char) || (0x2000 as char) <= c <= (0x200A as char) || (0x2028 as char) <= c <= (0x2029 as char)
    || c == (0x202F as char) || c == (0x205F as char) || c == (0x3000 as char)
  }

  function Strip(s: string): string {
    if s == "" then ""
    else if IsSpace(s[0]) then Strip(s[1..])
    else if IsSpace(s[|s| - 1]) then Strip(s[..|s| - 1])
    else s
  }

  /** s.split("-") */
  function Split(s: string): (parts: seq<string>)
    ensures parts != []
    ensures forall i :: 0 <= i < |parts| ==> '-' !in parts[i]
  {
    if s == "" then [""]
    else
      var rest := Split(s[1..]);
      if s[0] == '-' then [""] + rest else [[s[0]] + rest[0]] + rest[1..]
  }

  function Join(parts: seq<string>): string
    requires parts != []
  {
    if |parts| == 1 then parts[0] else parts[0] + "-" + Join(parts[1..])
  }

  // ----- traceparent --------------------------------------------------------

  /** The 32 characters sent for a trace id. */
  function WireTraceId(traceId: string): (r: string)
    ensures |r| == 32 && '-' !in r
  {
    Prefix(LeftJustify(NoDashes(traceId), 32), 32)
  }

  /** The 16 characters sent for a span id. */
  function WireSpanId(spanId: string): (r: string)
    ensures |r| == 16 && '-' !in r
  {
    LeftJustify(Prefix(NoDashes(spanId), 16), 16)
  }

  function FormatTraceparent(traceId: string, spanId: string): string {
    "00-" + WireTraceId(traceId) + "-" + WireSpanId(spanId) + "-01"
  }

  function ParseTraceparent(value: string): Option<(string, string)> {
    if value == "" then None
    else
      var parts := Split(Strip(value));
      if |parts| < 4 then None
      else if |parts[1]| != 32 || |parts[2]| != 16 then None
      else Some((parts[1], parts[2]))
  }

  lemma {:induction false} SplitPiece(a: string, b: string)
    requires '-' !in a
    ensures Split(a + "-" + b) == [a] + Split(b)
  {
    var s := a + "-" + b;
    if a == "" {
      assert s[1..] == b;
    } else {
      assert s[1..] == a[1..] + "-" + b;
      SplitPiece(a[1..], b);
      var rest := Split(s[1..]);
      assert rest[0] == a[1..] && rest[1..] == Split(b);
      assert [s[0]] + a[1..] == a;
    }
  }

  lemma {:induction false} SplitWhole(a: string)
    requires '-' !in a
    ensures Split(a) == [a]
  {
    if a != "" {
      SplitWhole(a[1..]);
      assert [a[0]] + a[1..] == a;
    }
  }

  lemma {:induction false} JoinSplit(s: string)
    ensures Join(Split(s)) == s
  {
    if s != "" {
      JoinSplit(s[1..]);
      var rest := Split(s[1..]);
      if s[0] == '-' {
        assert ([""] + rest)[1..] == rest;
        assert "" + "-" + s[1..] == s;
      } else {
        var parts := [[s[0]] + rest[0]] + rest[1..];
        assert parts[1..] == rest[1..];
        assert [s[0]] + s[1..] == s;
      }
    }
  }

  /**
   What the parser accepts: after trimming, four or more dash-separated parts, the second of 32
   and the third of 16 characters.
   */
  lemma ParseIff(value: string, t: string, p: string)
    ensures ParseTraceparent(value) == Some((t, p)) <==>
            exists version: string, rest: string ::
              && Strip(value) == version + "-" + t + "-" + p + "-" + rest
              && '-' !in version && '-' !in t && '-' !in p && |t| == 32 && |p| == 16
  {
    if ParseTraceparent(value) == Some((t, p)) {
      var s := Strip(value);
      var parts := Split(s);
      JoinSplit(s);
      var version, rest := parts[0], Join(parts[3..]);
      assert parts[1..][1..] == parts[2..] && parts[2..][1..] == parts[3..];
      assert Join(parts[2..]) == p + "-" + rest;
      assert Join(parts[1..]) == t + "-" + Join(parts[2..]);
      assert s == version + "-" + (t + "-" + (p + "-" + rest));
      assert s == version + "-" + t + "-" + p + "-" + rest;
    }
    if version: string, rest: string :|
      && Strip(value) == version + "-" + t + "-" + p + "-" + rest
      && '-' !in version && '-' !in t && '-' !in p && |t| == 32 && |p| == 16
    {
      FourParts(version, t, p, rest);
    }
  }

  lemma FourParts(version: string, t: string, p: string, rest: string)
    requires '-' !in version && '-' !in t && '-' !in p
    ensures Split(version + "-" + t + "-" + p + "-" + rest) == [version, t, p] + Split(rest)
  {
    assert version + "-" + t + "-" + p + "-" + rest == version + "-" + (t + "-" + (p + "-" + rest));
    SplitPiece(version, t + "-" + (p + "-" + rest));
    SplitPiece(t, p + "-" + rest);
    SplitPiece(p, rest);
  }

  lemma StripKeeps(s: string)
    requires s != "" && !IsSpace(s[0]) && !IsSpace(s[|s| - 1])
    ensures Strip(s) == s
  {
  }

  lemma WireStrips(t: string, p: string)
    ensures Strip("00-" + t + "-" + p + "-01") == "00-" + t + "-" + p + "-01"
  {
    StripKeeps("00-" + t + "-" + p + "-01");
  }

  lemma WireSplits(t: string, p: string)
    requires '-' !in t && '-' !in p
    ensures Split("00-" + t + "-" + p + "-01") == ["00", t, p, "01"]
  {
    assert "00-" + t + "-" + p + "-01" == "00" + "-" + t + "-" + p + "-" + "01";
    FourParts("00", t, p, "01");
    SplitWhole("01");
  }

  /** Whatever two strings are formatted, parsing succeeds and gives the two fields that were sent. */
  lemma FormatThenParse(traceId: string, spanId: string)
    ensures ParseTraceparent(FormatTraceparent(traceId, spanId)) == Some((WireTraceId(traceId), WireSpanId(spanId)))
  {
    var t, p := WireTraceId(traceId), WireSpanId(spanId);
    WireStrips(t, p);
    WireSplits(t, p);
  }

  /** Formatting what was parsed from a formatted header gives the same header. */
  lemma ParseThenFormat(traceId: string, spanId: string)
    ensures var v := FormatTraceparent(traceId, spanId);
            var ctx := ParseTraceparent(v);
            ctx.Some? && FormatTraceparent(ctx.value.0, ctx.value.1) == v
  {
    FormatThenParse(traceId, spanId);
    var t, p := WireTraceId(traceId), WireSpanId(spanId);
    assert WireTraceId(t) == t && WireSpanId(p) == p;
  }

  /** Leaving out dashes works character by character. */
  lemma {:induction false} NoDashesConcat(a: string, b: string)
    ensures NoDashes(a + b) == NoDashes(a) + NoDashes(b)
    decreases |a|
  {
    if a == "" {
      assert a + b == b;
    } else {
      var first := if a[0] == '-' then "" else [a[0]];
      NoDashesConcat(a[1..], b);
      NoDashesStep(a);
      NoDashesStep(a + b);
      assert (a + b)[1..] == a[1..] + b;
      hide NoDashes;
      Associative(first, NoDashes(a[1..]), NoDashes(b));
    }
  }

  lemma Associative(a: string, b: string, c: string)
    ensures a + (b + c) == (a + b) + c
  {
  }

  lemma NoDashesStep(s: string)
    requires s != ""
    ensures NoDashes(s) == (if s[0] == '-' then "" else [s[0]]) + NoDashes(s[1..])
  {
  }

  /** A dash is left out, any other character stays. */
  lemma NoDashesChar(c: char)
    ensures NoDashes([c]) == if c == '-' then "" else [c]
  {
    NoDashesStep([c]);
    assert [c][1..] == "" && [c] + "" == [c];
  }

  lemma {:induction false} ZerosMean(n: nat)
    ensures forall i :: 0 <= i < n ==> Zeros(n)[i] == '0'
  {
    if n > 0 { ZerosMean(n - 1); }
  }

  /** What is sent of an id: its first characters other than dashes, followed by zeros where there are too few. */
  lemma WireMeans(id: string)
    ensures var s, t, p := NoDashes(id), WireTraceId(id), WireSpanId(id);
            && (forall i :: 0 <= i < 32 ==> t[i] == if i < |s| then s[i] else '0')
            && (forall i :: 0 <= i < 16 ==> p[i] == if i < |s| then s[i] else '0')
  {
    var s := NoDashes(id);
    if |s| < 32 { ZerosMean(32 - |s|); }
    if |s| < 16 { ZerosMean(16 - |s|); }
  }

  /** Trimming takes off white space at both ends, and all of it. */
  lemma {:induction false} StripMeans(s: string) returns (before: string, after: string)
    ensures s == before + Strip(s) + after
    ensures forall c :: c in before || c in after ==> IsSpace(c)
    ensures Strip(s) != "" ==> !IsSpace(Strip(s)[0]) && !IsSpace(Strip(s)[|Strip(s)| - 1])
    decreases |s|
  {
    before, after := "", "";
    if s == "" { return; }
    if IsSpace(s[0]) {
      before, after := StripMeans(s[1..]);
      before := [s[0]] + before;
    } else if IsSpace(s[|s| - 1]) {
      before, after := StripMeans(s[..|s| - 1]);
      after := after + [s[|s| - 1]];
    }
  }

  // ----- OTLP integers ------------------------------------------------------

  const LOW96 := Pow16(24)
  const TWO32 := Pow16(8)

  /** int() of a time: Python truncates toward zero. */
  function Truncate(x: real): int {
    if x >= 0.0 then x.Floor else -((-x).Floor)
  }

  /** otlp_exporter.py:38-54; None is the ValueError of int(). */
  function HexToTraceId(hex: string, startEpoch: Option<real>): Option<nat> {
    var raw := ParseHex(Prefix(hex, 32));
    if raw == None then None
    else match startEpoch
      case None => raw
      case Some(e) => Some((Truncate(e) % TWO32) * LOW96 + raw.value % LOW96)
  }

  /** otlp_exporter.py:57-64 */
  function HexToSpanId(hex: string): Option<nat> {
    ParseHex(Prefix(hex, 16))
  }

  lemma Pow16Of8()
    ensures TWO32 == 0x1_0000_0000
  {
    assert Pow16(4) == 0x1_0000;
    PowAdds(4, 4);
  }

  predicate ClientId(id: string) {
    |id| == 32 && AllHex(id)
  }

  lemma HexHasNoDash(id: string)
    requires AllHex(id)
    ensures '-' !in id
  {
  }

  /**
   remote.py:395-400: the server span takes trace and parent id from the header. For ids
   as uuid4().hex makes them, the exported parent is the exported client span, in the
   same exported trace, whatever start time the exporter has cached for that trace.
   */
  lemma ServerSpanLinksToClient(traceId: string, spanId: string, epoch: Option<real>)
    requires ClientId(traceId) && ClientId(spanId)
    ensures var ctx := ParseTraceparent(FormatTraceparent(traceId, spanId));
            && ctx.Some?
            && ctx.value.0 == traceId
            && HexToTraceId(ctx.value.0, epoch) == HexToTraceId(traceId, epoch) && HexToTraceId(traceId, epoch).Some?
            && HexToSpanId(ctx.value.1) == HexToSpanId(spanId) && HexToSpanId(spanId).Some?
  {
    FormatThenParse(traceId, spanId);
    HexHasNoDash(traceId);
    HexHasNoDash(spanId);
    assert WireTraceId(traceId) == traceId;
    assert WireSpanId(spanId) == spanId[..16];
  }

  /** The link needs more than 16 characters: two spans whose ids share the first 16 are one span after export. */
  lemma ExportedSpanIdIff(a: string, b: string)
    requires ClientId(a) && ClientId(b)
    ensures HexToSpanId(a) == HexToSpanId(b) <==> Lower(a[..16]) == Lower(b[..16])
  {
    SameValueIff(a[..16], b[..16]);
  }

  // ----- X-Ray --------------------------------------------------------------

  /** The digits of a number in lower case, at least n of them, as the format "0nx" gives. */
  function HexAtLeast(v: nat, n: nat): (s: string)
    ensures AllHex(s) && |s| >= n
    decreases v, n
  {
    if v == 0 then Zeros(n) else HexAtLeast(v / 16, if n == 0 then 0 else n - 1) + [DigitChar(v % 16)]
  }

  lemma {:induction false} HexAtLeastFits(v: nat, n: nat)
    ensures v < Pow16(n) ==> HexAtLeast(v, n) == Encode(v, n)
    ensures v >= Pow16(n) ==> |HexAtLeast(v, n)| > n
    decreases v, n
  {
    if v == 0 {
      ZerosEncode(n);
    } else {
      HexAtLeastFits(v / 16, if n == 0 then 0 else n - 1);
    }
  }

  lemma {:induction false} ZerosEncode(n: nat)
    ensures Zeros(n) == Encode(0, n)
  {
    if n > 0 { ZerosEncode(n - 1); }
  }

  /**
   metrics.py:773-786 in "xray" mode: the epoch comes from a nanosecond stamp, or is the current
   time when that is 0.
   */
  function FormatXray(traceId: string, nanos: nat, now: nat): string
    requires |traceId| == 32
  {
    var epoch := nanos / 1_000_000_000;
    "1-" + HexAtLeast(if epoch == 0 then now else epoch, 8) + "-" + traceId[8..]
  }

  /** evaluation_worker.py:315-318: the stamp made from a start time in seconds. */
  function NanoStub(start: real): nat
    requires start >= 0.0
  {
    (start * 1000000000.0).Floor
  }

  lemma StubSeconds(start: real)
    requires start >= 0.0
    ensures NanoStub(start) / 1_000_000_000 == start.Floor
  {
    var n, k := NanoStub(start), start.Floor;
    assert k as real <= start < (k + 1) as real;
    assert (k * 1_000_000_000) as real == k as real * 1000000000.0;
    assert ((k + 1) * 1_000_000_000) as real == (k + 1) as real * 1000000000.0;
    assert k * 1_000_000_000 <= n < (k + 1) * 1_000_000_000;
  }

  /** The 128-bit id an X-Ray string stands for: 8 digits of time, 24 more. */
  function XrayDenotes(s: string): Option<nat> {
    if |s| == 35 && s[0] == '1' && s[1] == '-' && s[10] == '-' && AllHex(s[2..10]) && AllHex(s[11..])
    then Some(Value(s[2..10] + s[11..]))
    else None
  }

  /** The exporter's integer is the value of eight digits of time followed by the 24 last digits of the trace id. */
  lemma SplicedValue(traceId: string, k: nat, start: real)
    requires ClientId(traceId) && Truncate(start) == k
    ensures var field := Encode(k % TWO32, 8);
            AllHex(field + traceId[8..]) && HexToTraceId(traceId, Some(start)) == Some(Value(field + traceId[8..]))
  {
    var field, tail := Encode(k % TWO32, 8), traceId[8..];
    assert traceId == traceId[..8] + tail;
    ValueSplit(traceId[..8], tail);
    EncodeValue(k % TWO32, 8);
    ValueConcat(field, tail);
  }

  /** What the metrics' string denotes: nothing if the time does not fit its eight digits. */
  lemma XrayStringValue(traceId: string, nanos: nat, now: nat)
    requires ClientId(traceId)
    ensures var epoch := if nanos / 1_000_000_000 == 0 then now else nanos / 1_000_000_000;
            XrayDenotes(FormatXray(traceId, nanos, now)) ==
            if epoch < TWO32 then Some(Value(Encode(epoch, 8) + traceId[8..])) else None
  {
    var epoch := if nanos / 1_000_000_000 == 0 then now else nanos / 1_000_000_000;
    HexAtLeastFits(epoch, 8);
    XrayShape(FormatXray(traceId, nanos, now), HexAtLeast(epoch, 8), traceId[8..]);
  }

  lemma XrayShape(s: string, field: string, tail: string)
    requires s == "1-" + field + "-" + tail && |field| >= 8 && |tail| == 24 && AllHex(field) && AllHex(tail)
    ensures |field| == 8 ==> AllHex(field + tail) && XrayDenotes(s) == Some(Value(field + tail))
    ensures |field| > 8 ==> XrayDenotes(s) == None
  {
    XrayParts(s, field, tail);
    hide Value;
  }

  lemma XrayParts(s: string, field: string, tail: string)
    requires s == "1-" + field + "-" + tail
    ensures var n := |field|;
            && |s| == n + 3 + |tail| && s[0] == '1' && s[1] == '-' && s[n + 2] == '-'
            && s[2..n + 2] == field && s[n + 3..] == tail
  {
    var n := |field|;
    assert "1-" == ['1', '-'] && "-" == ['-'];
    assert forall i :: 0 <= i < n ==> s[i + 2] == field[i];
    assert forall i :: 0 <= i < |tail| ==> s[i + n + 3] == tail[i];
  }

  lemma SameTail(a: nat, b: nat, tail: string)
    requires a < TWO32 && b < TWO32 && AllHex(tail)
    ensures AllHex(Encode(a, 8) + tail) && AllHex(Encode(b, 8) + tail)
    ensures Value(Encode(a, 8) + tail) == Value(Encode(b, 8) + tail) <==> a == b
  {
    EncodeValue(a, 8);
    EncodeValue(b, 8);
    ValueSplit(Encode(a, 8), tail);
    ValueSplit(Encode(b, 8), tail);
  }

  /**
   The string the metrics write and the integer the exporter sends are the same id
   exactly when the start time, in whole seconds, is at least 1 and fits 32 bits.
   */
  lemma XrayFormsAgreeIff(traceId: string, start: real, now: nat)
    requires ClientId(traceId) && start >= 0.0 && now >= 1
    ensures XrayDenotes(FormatXray(traceId, NanoStub(start), now)) == HexToTraceId(traceId, Some(start)) <==>
            1 <= start.Floor < 0x1_0000_0000
  {
    Pow16Of8();
    StubSeconds(start);
    SplicedValue(traceId, start.Floor, start);
    XrayStringValue(traceId, NanoStub(start), now);
    EpochsAgreeIff(start.Floor, now, traceId[8..]);
  }

  lemma EpochsAgreeIff(k: nat, now: nat, tail: string)
    requires AllHex(tail) && now >= 1
    ensures var epoch := if k == 0 then now else k;
            (if epoch < TWO32 then Some(Value(Encode(epoch, 8) + tail)) else None) ==
              Some(Value(Encode(k % TWO32, 8) + tail))
            <==> 1 <= k < TWO32
  {
    var epoch, m := if k == 0 then now else k, TWO32;
    Reduce(k, m);
    if epoch < m { SameTail(epoch, k % m, tail); }
  }

  lemma Reduce(k: nat, m: nat)
    requires m > 0
    ensures k % m < m && (k < m ==> k % m == k)
  {
  }

  /** Digit by digit: the exported id starts with the eight digits of the time and ends with the 24 of the trace id. */
  lemma SplicedDigits(traceId: string, start: real)
    requires ClientId(traceId) && start >= 0.0 && start.Floor < 0x1_0000_0000
    ensures var id := HexToTraceId(traceId, Some(start));
            id.Some? && Encode(id.value, 32) == HexAtLeast(start.Floor, 8) + Lower(traceId[8..])
  {
    Pow16Of8();
    SplicedValue(traceId, start.Floor, start);
    Reduce(start.Floor, TWO32);
    HexAtLeastFits(start.Floor, 8);
    DigitsOfConcat(start.Floor, traceId[8..]);
  }

  lemma DigitsOfConcat(k: nat, tail: string)
    requires AllHex(tail) && |tail| == 24
    ensures AllHex(Encode(k, 8) + tail) && Encode(Value(Encode(k, 8) + tail), 32) == Encode(k, 8) + Lower(tail)
  {
    ValueEncode(Encode(k, 8) + tail);
    LowerConcat(Encode(k, 8), tail);
    EncodeIsLower(k, 8);
  }

  lemma {:induction false} EncodeIsLower(v: nat, n: nat)
    ensures Lower(Encode(v, n)) == Encode(v, n)
  {
    if n > 0 {
      EncodeIsLower(v / 16, n - 1);
      var s := Encode(v, n);
      assert s[..|s| - 1] == Encode(v / 16, n - 1);
    }
  }

  // ----- the epoch cache ----------------------------------------------------

  const MAX_CACHED := 10_000

  /**
   otlp_exporter.py:232-238: the time spliced into a trace id is the first one seen for the trace
   since the cache was last cleared.
   */
  class EpochCache {
    var epochs: map<string, real>

    constructor ()
      ensures epochs == map[]
    {
      epochs := map[];
    }

    method TraceEpoch(traceId: string, start: real) returns (epoch: real)
      modifies this
      ensures traceId in old(epochs) ==> epochs == old(epochs) && epoch == old(epochs)[traceId]
      ensures traceId !in old(epochs) ==> epoch == start
      ensures traceId !in old(epochs) ==>
                epochs == (if |old(epochs)| > 10_000 then map[] else old(epochs))[traceId := start]
      ensures |old(epochs)| <= 10_001 ==> |epochs| <= 10_001
    {
      if traceId !in epochs {
        if |epochs| > MAX_CACHED { epochs := map[]; }
        epochs := epochs[traceId := start];
      }
      epoch := epochs[traceId];
    }
  }
}
