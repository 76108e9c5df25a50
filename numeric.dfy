/**
 * The integer conversions of Go's `strconv` that the collector relies on,
 * and 64-bit `int` arithmetic: `Itoa`, `Atoi`, `FormatFloat(f, 'f', 0, 64)`
 * and the wrap-around of `+=` on `int`.
 */
module Numeric {
  import opened Wrappers

  const MaxInt64: int := 0x7fff_ffff_ffff_ffff
  const MinInt64: int := -0x8000_0000_0000_0000
  const TwoTo64: int := 0x1_0000_0000_0000_0000

  predicate IsDigit(c: char) { '0' <= c <= '9' }

  predicate AllDigits(s: string) { forall k :: 0 <= k < |s| ==> IsDigit(s[k]) }

  function DigitValue(c: char): nat
    requires IsDigit(c)
  {
    (c as int) - ('0' as int)
  }

  function DigitChar(d: nat): (c: char)
    requires d < 10
    ensures IsDigit(c) && DigitValue(c) == d
  {
    (('0' as int) + d) as char
  }

  /** The number a string of decimal digits denotes, most significant digit first. */
  function DecimalValue(s: string): nat
    requires AllDigits(s)
  {
    if s == [] then 0 else DecimalValue(s[..|s| - 1]) * 10 + DigitValue(s[|s| - 1])
  }

  /** The decimal digits of `n` without leading zeros. */
  function NatDigits(n: nat): (s: string)
    ensures |s| > 0 && AllDigits(s)
    ensures IsDigit(s[0])
  {
    if n < 10 then [DigitChar(n)] else NatDigits(n / 10) + [DigitChar(n % 10)]
  }

  /** `strconv.Itoa`. */
  function IntToString(n: int): string
  {
    if n < 0 then "-" + NatDigits(-n) else NatDigits(n)
  }

  lemma {:induction false} DecimalValueOfDigits(n: nat)
    ensures DecimalValue(NatDigits(n)) == n
  {
    if n >= 10 {
      var s := NatDigits(n);
      assert s[..|s| - 1] == NatDigits(n / 10);
      DecimalValueOfDigits(n / 10);
    }
  }

  predicate InInt64(n: int) { MinInt64 <= n <= MaxInt64 }

  function Clamp64(n: int): (r: int)
    ensures InInt64(r)
    ensures InInt64(n) ==> r == n
    ensures n > MaxInt64 ==> r == MaxInt64
    ensures n < MinInt64 ==> r == MinInt64
  {
    if n > MaxInt64 then MaxInt64 else if n < MinInt64 then MinInt64 else n
  }

  datatype AtoiError = SyntaxError | RangeError

  /** What `strconv.Atoi` returns: a value and, on failure, the kind of error. */
  datatype AtoiResult = AtoiResult(value: int, err: Option<AtoiError>)

  /** The syntax `strconv.Atoi` accepts: an optional sign, then one or more decimal digits. */
  predicate IsIntegerSyntax(s: string)
  {
    || (|s| > 0 && AllDigits(s))
    || (|s| > 1 && (s[0] == '-' || s[0] == '+') && AllDigits(s[1..]))
  }

  const MaxUint64: int := 0xffff_ffff_ffff_ffff

  /** `s` without its leading sign, if it has one. */
  function Unsigned(s: string): (t: string)
    ensures |s| > 0 && (s[0] == '-' || s[0] == '+') ==> t == s[1..]
    ensures !(|s| > 0 && (s[0] == '-' || s[0] == '+')) ==> t == s
  {
    if |s| > 0 && (s[0] == '-' || s[0] == '+') then s[1..] else s
  }

  /** The longest prefix of `t` made of decimal digits. */
  function LeadingDigits(t: string): (d: string)
    ensures |d| <= |t| && d == t[..|d|] && AllDigits(d)
    ensures |d| == |t| || !IsDigit(t[|d|])
  {
    if t != [] && IsDigit(t[0]) then [t[0]] + LeadingDigits(t[1..]) else []
  }

  /** A string of digits is its own leading run. */
  lemma LeadingDigitsAll(t: string)
    ensures AllDigits(t) ==> LeadingDigits(t) == t
  {
    var d := LeadingDigits(t);
    if |d| < |t| {
      assert !IsDigit(t[|d|]);
    }
  }

  /**
   * `strconv.ParseUint` reads the digits after the sign from left to right
   * and stops with a range error as soon as the value read so far passes
   * 2^64 - 1, before it looks at any later character.
   */
  predicate OverflowsEarly(s: string)
  {
    DecimalValue(LeadingDigits(Unsigned(s))) > MaxUint64
  }

  /**
   * `strconv.Atoi` on a 64-bit platform. Strings shorter than 19 bytes take
   * its fast path, longer ones `ParseInt`, which clamps what `ParseUint`
   * returns by the sign. A syntax error returns 0; a value outside int64
   * returns the nearest int64 together with a range error, and so does a
   * digit prefix that overflows before a bad character is reached.
   */
  function Atoi(s: string): (r: AtoiResult)
    ensures InInt64(r.value)
    ensures r.err == Some(SyntaxError) <==> !IsIntegerSyntax(s) && !OverflowsEarly(s)
    ensures r.err == Some(SyntaxError) ==> r.value == 0
    ensures OverflowsEarly(s) ==>
      r == AtoiResult(if |s| > 0 && s[0] == '-' then MinInt64 else MaxInt64, Some(RangeError))
    ensures |s| > 0 && AllDigits(s) ==>
      if DecimalValue(s) <= MaxInt64 then r == AtoiResult(DecimalValue(s), None)
      else r == AtoiResult(MaxInt64, Some(RangeError))
    ensures IsIntegerSyntax(s) && !OverflowsEarly(s) ==>
      var m: int := DecimalValue(Unsigned(s));
      var v: int := if s[0] == '-' then -m else m;
      r == if InInt64(v) then AtoiResult(v, None) else AtoiResult(Clamp64(v), Some(RangeError))
  {
    var neg := |s| > 0 && s[0] == '-';
    var body := Unsigned(s);
    var run := LeadingDigits(body);
    LeadingDigitsAll(body);
    if body == [] then
      AtoiResult(0, Some(SyntaxError))
    else if DecimalValue(run) > MaxUint64 then
      AtoiResult(if neg then MinInt64 else MaxInt64, Some(RangeError))
    else if |run| < |body| then
      AtoiResult(0, Some(SyntaxError))
    else
      assert run == body;
      var mag: int := DecimalValue(body);
      var v := if neg then -mag else mag;
      if InInt64(v) then AtoiResult(v, None) else AtoiResult(Clamp64(v), Some(RangeError))
  }

  /** `Atoi` reads a non-negative number back from its digits. */
  lemma AtoiOfNatDigits(m: nat)
    ensures Atoi(NatDigits(m)) ==
      if m <= MaxInt64 then AtoiResult(m, None) else AtoiResult(MaxInt64, Some(RangeError))
  {
    DecimalValueOfDigits(m);
  }

  /** `Atoi` reads a negative number back from its sign and digits. */
  lemma AtoiOfNegDigits(m: nat)
    requires m > 0
    ensures Atoi("-" + NatDigits(m)) ==
      if m <= -MinInt64 then AtoiResult(0 - m, None) else AtoiResult(MinInt64, Some(RangeError))
  {
    var s := "-" + NatDigits(m);
    var t := NatDigits(m);
    assert Unsigned(s) == t;
    LeadingDigitsAll(t);
    DecimalValueOfDigits(m);
  }

  /** `Atoi` undoes `Itoa`, saturating outside int64. */
  lemma AtoiOfIntToString(n: int)
    ensures Atoi(IntToString(n)) ==
      if InInt64(n) then AtoiResult(n, None) else AtoiResult(Clamp64(n), Some(RangeError))
  {
    if n < 0 {
      AtoiOfNegDigits(-n);
    } else {
      AtoiOfNatDigits(n);
    }
  }

  /**
   * Round to the nearest integer, ties to even: the integer that
   * `strconv.FormatFloat(f, 'f', 0, 64)` prints.
   */
  function RoundHalfEven(x: real): (n: int)
    ensures x - 0.5 <= n as real <= x + 0.5
    ensures (n as real - x == 0.5 || x - n as real == 0.5) ==> n % 2 == 0
  {
    var f := x.Floor;
    var frac := x - f as real;
    if frac < 0.5 then f
    else if frac > 0.5 then f + 1
    else if f % 2 == 0 then f else f + 1
  }

  /** `strconv.FormatFloat(f, 'f', 0, 64)`; Go keeps the sign of a negative value that rounds to zero. */
  function FormatFloatNoDecimals(f: real): string
  {
    var n := RoundHalfEven(f);
    if f < 0.0 && n == 0 then "-0" else IntToString(n)
  }

  /**
   * The integer `aggregateAndCombine` takes from a float64 count: Atoi of the
   * float printed with no decimals, the Atoi error ignored.
   */
  function FloatToCount(f: real): (n: int)
  {
    Atoi(FormatFloatNoDecimals(f)).value
  }

  /** A float count rounds (not truncates) to the nearest integer, saturating at the int64 bounds. */
  lemma FloatToCountRounds(f: real)
    ensures FloatToCount(f) == Clamp64(RoundHalfEven(f))
  {
    var n := RoundHalfEven(f);
    if f < 0.0 && n == 0 {
      var s := FormatFloatNoDecimals(f);
      assert s[1..] == "0";
      assert DecimalValue("0") == 0 by { assert "0"[..0] == []; }
    } else {
      AtoiOfIntToString(n);
    }
  }

  /** Two's-complement wrap-around of a Go `int` (64 bits). */
  function Wrap64(x: int): (r: int)
    ensures InInt64(r)
    ensures InInt64(x) ==> r == x
    ensures (x - r) % TwoTo64 == 0
  {
    var q := (x - MinInt64) / TwoTo64;
    assert (x - MinInt64) % TwoTo64 + MinInt64 == x - q * TwoTo64;
    (x - MinInt64) % TwoTo64 + MinInt64
  }

  /** Wrapping after each addition is the same as wrapping once at the end. */
  lemma WrapAdd(a: int, b: int)
    ensures Wrap64(Wrap64(a) + b) == Wrap64(a + b)
  {
    var q := (a - MinInt64) / TwoTo64;
    assert Wrap64(a) == a - q * TwoTo64;
    ModShift(a + b - MinInt64, q);
  }

  lemma ModShift(x: int, q: int)
    ensures (x - q * TwoTo64) % TwoTo64 == x % TwoTo64
  {
    var r := x % TwoTo64;
    var p := x / TwoTo64;
    assert x - q * TwoTo64 == (p - q) * TwoTo64 + r;
  }
}
