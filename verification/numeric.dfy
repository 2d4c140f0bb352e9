/** Optional values, used where the host returns a null player or a parse fails. */
module Wrappers {

  datatype Option<+T> = None | Some(value: T)
}

/**
 Machine integer ranges of the C# fields involved, unchecked `uint` arithmetic,
 and the decimal parser that stands in for `uint.TryParse` / `ulong.TryParse`.
 */
module Numeric {
  import opened Wrappers

  type uint16 = x: int | 0 <= x <= 0xFFFF
  type int16 = x: int | -0x8000 <= x <= 0x7FFF
  type uint32 = x: int | 0 <= x <= 0xFFFF_FFFF
  type int32 = x: int | -0x8000_0000 <= x <= 0x7FFF_FFFF
  type uint64 = x: int | 0 <= x <= 0xFFFF_FFFF_FFFF_FFFF

  const UInt16Max: uint16 := 0xFFFF
  const Int16Min: int16 := -0x8000
  const UInt32Max: uint32 := 0xFFFF_FFFF
  const UInt64Max: uint64 := 0xFFFF_FFFF_FFFF_FFFF
  const TwoTo32: int := 0x1_0000_0000

  /** Unchecked C# `uint` arithmetic: the mathematical result reduced modulo 2^32. */
  function WrapUInt32(x: int): (r: uint32)
    ensures 0 <= x <= UInt32Max ==> r == x
    ensures UInt32Max < x < 2 * TwoTo32 ==> r == x - TwoTo32
    ensures -TwoTo32 <= x < 0 ==> r == x + TwoTo32
  {
    x % TwoTo32
  }

  predicate IsDigit(c: char) {
    '0' <= c <= '9'
  }

  function DigitValue(c: char): (d: nat)
    requires IsDigit(c)
    ensures d < 10
  {
    (c as int) - ('0' as int)
  }

  function DigitChar(d: nat): (c: char)
    requires d < 10
    ensures IsDigit(c) && DigitValue(c) == d
  {
    (('0' as int) + d) as char
  }

  predicate AllDigits(s: string) {
    forall i :: 0 <= i < |s| ==> IsDigit(s[i])
  }

  /** The strings the simplified `TryParse` accepts before its range check. */
  predicate IsUnsignedLiteral(s: string) {
    0 < |s| && AllDigits(s)
  }

  function Pow10(k: nat): (r: nat)
    ensures r >= 1
  {
    if k == 0 then 1 else 10 * Pow10(k - 1)
  }

  /** Positional value of a digit string, last digit least significant. */
  function DecimalValue(s: string): nat
    requires AllDigits(s)
  {
    if |s| == 0 then 0 else DecimalValue(s[..|s| - 1]) * 10 + DigitValue(s[|s| - 1])
  }

  /**
   Left-to-right accumulation as a `TryParse` does it: fail on the first
   non-digit, and fail as soon as the running value exceeds `limit`.
   */
  function Accumulate(acc: nat, s: string, limit: nat): Option<nat>
    decreases |s|
  {
    if |s| == 0 then Some(acc)
    else if !IsDigit(s[0]) then None
    else
      var next := acc * 10 + DigitValue(s[0]);
      if next > limit then None else Accumulate(next, s[1..], limit)
  }

  lemma ShiftDigit(a: int, p: int, b: int, e: int)
    ensures (a * p + b) * 10 + e == a * (10 * p) + (b * 10 + e)
  {
  }

  lemma PrependDigit(acc: int, d: int, p: int, v: int)
    requires p >= 1 && acc >= 0 && d >= 0 && v >= 0
    ensures acc * (10 * p) + (d * p + v) == (acc * 10 + d) * p + v
    ensures (acc * 10 + d) * p + v >= acc * 10 + d
  {
  }

  /** The leading digit of a literal weighs `10^(|s|-1)`. */
  lemma {:induction false} DecimalValueCons(s: string)
    requires IsUnsignedLiteral(s)
    ensures DecimalValue(s) == DigitValue(s[0]) * Pow10(|s| - 1) + DecimalValue(s[1..])
    decreases |s|
  {
    if |s| == 1 {
      assert s[..0] == [];
      assert s[1..] == [];
    } else {
      var t := s[..|s| - 1];
      assert IsUnsignedLiteral(t);
      DecimalValueCons(t);
      var u := s[1..];
      assert u[..|u| - 1] == t[1..];
      assert u[|u| - 1] == s[|s| - 1];
      assert t[0] == s[0];
      ShiftDigit(DigitValue(s[0]), Pow10(|t| - 1), DecimalValue(t[1..]), DigitValue(s[|s| - 1]));
      assert Pow10(|s| - 1) == 10 * Pow10(|t| - 1);
      assert DecimalValue(u) == DecimalValue(t[1..]) * 10 + DigitValue(s[|s| - 1]);
    }
  }

  /** Value of `acc` followed by the digits of `s`. */
  function Extended(acc: nat, s: string): nat
    requires AllDigits(s)
  {
    acc * Pow10(|s|) + DecimalValue(s)
  }

  /** Pushing one more digit into the accumulator does not change the extended value. */
  lemma ExtendedStep(acc: nat, s: string)
    requires IsUnsignedLiteral(s)
    ensures AllDigits(s[1..])
    ensures Extended(acc, s) == Extended(acc * 10 + DigitValue(s[0]), s[1..])
    ensures Extended(acc, s) >= acc * 10 + DigitValue(s[0])
  {
    var rest := s[1..];
    assert forall i :: 0 <= i < |rest| ==> rest[i] == s[i + 1];
    DecimalValueCons(s);
    assert Pow10(|s|) == 10 * Pow10(|rest|);
    PrependDigit(acc, DigitValue(s[0]), Pow10(|rest|), DecimalValue(rest));
  }

  /** The early overflow cut-off never changes the verdict of the positional value. */
  lemma {:induction false} AccumulateMatchesValue(acc: nat, s: string, limit: nat)
    requires acc <= limit
    ensures Accumulate(acc, s, limit) ==
            if AllDigits(s) && Extended(acc, s) <= limit then Some(Extended(acc, s)) else None
    decreases |s|
  {
    if |s| == 0 {
      assert Extended(acc, s) == acc;
    } else if !IsDigit(s[0]) {
    } else {
      var next := acc * 10 + DigitValue(s[0]);
      var rest := s[1..];
      assert AllDigits(s) <==> AllDigits(rest) by {
        if AllDigits(rest) {
          forall i | 0 <= i < |s| ensures IsDigit(s[i]) {
            if i > 0 { assert s[i] == rest[i - 1]; }
          }
        }
      }
      if AllDigits(s) {
        ExtendedStep(acc, s);
      }
      if next <= limit {
        AccumulateMatchesValue(next, rest, limit);
      }
    }
  }

  /** Simplified `TryParse`: a non-empty digit string whose value is at most `limit`. */
  function ParseUnsigned(s: string, limit: nat): (r: Option<nat>)
    ensures r.Some? <==> IsUnsignedLiteral(s) && DecimalValue(s) <= limit
    ensures r.Some? ==> r.value == DecimalValue(s)
  {
    if |s| == 0 then None
    else
      AccumulateMatchesValue(0, s, limit);
      assert AllDigits(s) ==> Extended(0, s) == DecimalValue(s);
      Accumulate(0, s, limit)
  }

  /** `uint.TryParse`. */
  function ParseUInt32(s: string): (r: Option<uint32>)
    ensures r.Some? <==> IsUnsignedLiteral(s) && DecimalValue(s) <= UInt32Max
    ensures r.Some? ==> r.value == DecimalValue(s)
  {
    match ParseUnsigned(s, UInt32Max)
    case None => None
    case Some(n) => Some(n)
  }

  /** `ulong.TryParse`. */
  function ParseUInt64(s: string): (r: Option<uint64>)
    ensures r.Some? <==> IsUnsignedLiteral(s) && DecimalValue(s) <= UInt64Max
    ensures r.Some? ==> r.value == DecimalValue(s)
  {
    match ParseUnsigned(s, UInt64Max)
    case None => None
    case Some(n) => Some(n)
  }

  /** Canonical decimal spelling, as a selection-button suffix carries an id; the parser's inverse. */
  function FormatDecimal(n: nat): (s: string)
    ensures IsUnsignedLiteral(s)
    ensures DecimalValue(s) == n
    decreases n
  {
    if n < 10 then
      assert [DigitChar(n)][..0] == [];
      [DigitChar(n)]
    else
      var t := FormatDecimal(n / 10);
      var s := t + [DigitChar(n % 10)];
      assert s[..|s| - 1] == t;
      s
  }

  /** Parsing undoes formatting for every value in range. */
  lemma ParseFormatRoundTrip(n: nat, limit: nat)
    requires n <= limit
    ensures ParseUnsigned(FormatDecimal(n), limit) == Some(n)
  {
  }
}
