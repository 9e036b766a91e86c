/**
 Hexadecimal identifiers: digits, fixed-width strings and the integers they denote.
 Used by int(s, 16) and the "x" formats in src/rastir/server/otlp_exporter.py:38-64,
 src/rastir/server/metrics.py:773-786 and src/rastir/server/ingestion.py:421-426.
 */
module HexCodec {
  import opened ObjectHeap  // Option

  predicate IsHexDigit(c: char) {
    '0' <= c <= '9' || 'a' <= c <= 'f' || 'A' <= c <= 'F'
  }

  function DigitValue(c: char): (v: nat)
    requires IsHexDigit(c)
    ensures v < 16
  {
    if c <= '9' then c as int - '0' as int
    else if c <= 'F' then c as int - 'A' as int + 10
    else c as int - 'a' as int + 10
  }

  function DigitChar(v: nat): (c: char)
    requires v < 16
    ensures IsHexDigit(c) && DigitValue(c) == v
  {
    if v < 10 then ('0' as int + v) as char else ('a' as int + v - 10) as char
  }

  /** The digits in the order of their values, the letters in either case; they are written in lower case. */
  lemma DigitsInOrder(v: nat)
    requires v < 16
    ensures DigitChar(v) == "0123456789abcdef"[v]
    ensures DigitValue("0123456789abcdef"[v]) == v && DigitValue("0123456789ABCDEF"[v]) == v
  {
  }

  predicate AllHex(s: string) {
    forall i :: 0 <= i < |s| ==> IsHexDigit(s[i])
  }

  function Pow16(n: nat): (p: nat)
    ensures p > 0
  {
    if n == 0 then 1 else 16 * Pow16(n - 1)
  }

  function Value(s: string): nat
    requires AllHex(s)
  {
    if s == "" then 0 else 16 * Value(s[..|s| - 1]) + DigitValue(s[|s| - 1])
  }

  /** int(s, 16) for plain digits; None is the ValueError. */
  function ParseHex(s: string): (r: Option<nat>) {
    if s == "" || !AllHex(s) then None else Some(Value(s))
  }

  /** The n lowest digits of a number, in lower case. */
  function Encode(v: nat, n: nat): (s: string)
    ensures |s| == n && AllHex(s)
  {
    if n == 0 then "" else Encode(v / 16, n - 1) + [DigitChar(v % 16)]
  }

  /** Lower-case form of a hex string. */
  function Lower(s: string): string
    requires AllHex(s)
  {
    if s == "" then "" else Lower(s[..|s| - 1]) + [DigitChar(DigitValue(s[|s| - 1]))]
  }

  lemma {:induction false} PowAdds(a: nat, b: nat)
    ensures Pow16(a + b) == Pow16(a) * Pow16(b)
  {
    if a > 0 { PowAdds(a - 1, b); }
  }

  lemma {:induction false} ValueBound(s: string)
    requires AllHex(s)
    ensures Value(s) < Pow16(|s|)
  {
    if s != "" { ValueBound(s[..|s| - 1]); }
  }

  lemma {:induction false} ValueConcat(a: string, b: string)
    requires AllHex(a) && AllHex(b)
    ensures AllHex(a + b)
    ensures Value(a + b) == Value(a) * Pow16(|b|) + Value(b)
    decreases |b|
  {
    if b == "" {
      assert a + b == a;
    } else {
      var init, d := b[..|b| - 1], DigitValue(b[|b| - 1]);
      ValueConcat(a, init);
      assert (a + b)[..|a + b| - 1] == a + init && (a + b)[|a + b| - 1] == b[|b| - 1];
      ShiftDigit(Value(a), Pow16(|init|), Value(init), d, Value(a + init));
    }
  }

  lemma ShiftDigit(x: nat, p: nat, y: nat, d: nat, z: nat)
    requires z == x * p + y
    ensures 16 * z + d == x * (16 * p) + (16 * y + d)
  {
  }

  /** Encoding then reading gives the number back, reduced to the width. */
  lemma {:induction false} EncodeValue(v: nat, n: nat)
    requires v < Pow16(n)
    ensures Value(Encode(v, n)) == v
  {
    if n > 0 {
      EncodeValue(v / 16, n - 1);
      var s := Encode(v, n);
      assert s[..|s| - 1] == Encode(v / 16, n - 1);
    }
  }

  lemma Unpack(hi: nat, lo: nat)
    requires lo < 16
    ensures (16 * hi + lo) / 16 == hi && (16 * hi + lo) % 16 == lo
  {
  }

  /** Reading then encoding gives the string back, in lower case. */
  lemma {:induction false} ValueEncode(s: string)
    requires AllHex(s)
    ensures Encode(Value(s), |s|) == Lower(s)
  {
    if s != "" {
      ValueEncode(s[..|s| - 1]);
      Unpack(Value(s[..|s| - 1]), DigitValue(s[|s| - 1]));
    }
  }

  lemma {:induction false} LowerConcat(a: string, b: string)
    requires AllHex(a) && AllHex(b)
    ensures AllHex(a + b) && Lower(a + b) == Lower(a) + Lower(b)
    decreases |b|
  {
    if b == "" {
      assert a + b == a;
    } else {
      LowerConcat(a, b[..|b| - 1]);
      assert (a + b)[..|a + b| - 1] == a + b[..|b| - 1];
    }
  }

  lemma Distribute(a: int, b: int, m: int)
    ensures (a + b) * m == a * m + b * m
  {
  }

  lemma {:induction false} MultipleIsLarge(d: nat, m: nat)
    requires d > 0
    ensures d * m >= m
  {
    if d > 1 {
      MultipleIsLarge(d - 1, m);
      Distribute(d - 1, 1, m);
    }
  }

  lemma LastDigits(hi: nat, lo: nat, m: nat)
    requires 0 < m && lo < m
    ensures (hi * m + lo) % m == lo && (hi * m + lo) / m == hi
  {
    var q, r := (hi * m + lo) / m, (hi * m + lo) % m;
    if q > hi {
      MultipleIsLarge(q - hi, m);
      Distribute(q - hi, hi, m);
    } else if hi > q {
      MultipleIsLarge(hi - q, m);
      Distribute(hi - q, q, m);
    }
  }

  /** Cutting a hex string in two cuts its value into quotient and remainder. */
  lemma ValueSplit(a: string, b: string)
    requires AllHex(a) && AllHex(b)
    ensures AllHex(a + b)
    ensures Value(a + b) / Pow16(|b|) == Value(a) && Value(a + b) % Pow16(|b|) == Value(b)
  {
    ValueConcat(a, b);
    ValueBound(b);
    LastDigits(Value(a), Value(b), Pow16(|b|));
  }

  /** Strings of one length denote the same number exactly when they differ at most in case. */
  lemma SameValueIff(a: string, b: string)
    requires AllHex(a) && AllHex(b) && |a| == |b|
    ensures Value(a) == Value(b) <==> Lower(a) == Lower(b)
  {
    ValueEncode(a);
    ValueEncode(b);
    ValueBound(a);
    ValueBound(b);
    EncodeValue(Value(a), |a|);
    EncodeValue(Value(b), |b|);
  }
}
