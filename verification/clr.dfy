/**
 * The parts of the .NET runtime that the client relies on: fixed-width
 * integers, the truncating `(int)` cast from `double`, `char.IsWhiteSpace`
 * and `string.IsNullOrWhiteSpace`, how an integer or a null string is
 * rendered inside an interpolated string, and the exceptions involved.
 */
module Clr {
  import opened Wrappers

  const Int32Min: int := -0x8000_0000
  const Int32Max: int := 0x7fff_ffff
  const Int64Min: int := -0x8000_0000_0000_0000
  const Int64Max: int := 0x7fff_ffff_ffff_ffff

  type Int32 = x: int | Int32Min <= x <= Int32Max
  type Int64 = x: int | Int64Min <= x <= Int64Max

  /** The exceptions the modelled code can throw. */
  datatype Exception =
    | ArgumentNull(paramName: string)
    | ArgumentOutOfRange
    | InvalidCast
    | NullReference
    | NotImplemented
    | OpenSky(message: string)

  /** Rounds toward zero, as a cast from a floating value to an integer does. */
  function Truncate(x: real): (n: int)
    ensures 0.0 <= x ==> n as real <= x < n as real + 1.0
    ensures x < 0.0 ==> n as real - 1.0 < x <= n as real
  {
    if x >= 0.0 then x.Floor else -((-x).Floor)
  }

  /**
   * The `(int)` cast of a `double`: truncation toward zero, saturating at
   * the bounds of `int` when the value is out of range.
   */
  function CastToInt32(x: real): (n: Int32)
    ensures Int32Min <= Truncate(x) <= Int32Max ==> n == Truncate(x)
    ensures Truncate(x) < Int32Min ==> n == Int32Min
    ensures Int32Max < Truncate(x) ==> n == Int32Max
  {
    var t := Truncate(x);
    if t < Int32Min then Int32Min else if t > Int32Max then Int32Max else t
  }

  /** `char.IsWhiteSpace`: the Unicode White_Space characters. */
  predicate IsWhiteSpace(c: char) {
    || '\U{0009}' <= c <= '\U{000D}'
    || c == ' '
    || c == '\U{0085}'
    || c == '\U{00A0}'
    || c == '\U{1680}'
    || '\U{2000}' <= c <= '\U{200A}'
    || c == '\U{2028}'
    || c == '\U{2029}'
    || c == '\U{202F}'
    || c == '\U{205F}'
    || c == '\U{3000}'
  }

  /** What is left of `s` once its leading white space is removed (`TrimStart`). */
  function TrimStart(s: string): string {
    if |s| > 0 && IsWhiteSpace(s[0]) then TrimStart(s[1..]) else s
  }

  /** A string trims to nothing exactly when every character in it is white space. */
  lemma {:induction false} TrimStartEmpty(s: string)
    ensures TrimStart(s) == "" <==> forall i | 0 <= i < |s| :: IsWhiteSpace(s[i])
  {
    if |s| > 0 && IsWhiteSpace(s[0]) {
      TrimStartEmpty(s[1..]);
      assert forall i | 1 <= i < |s| :: s[i] == s[1..][i - 1];
    }
  }

  /**
   * `string.IsNullOrWhiteSpace`: null, empty, or white space only; that is,
   * null or nothing left after trimming.
   */
  predicate IsNullOrWhiteSpace(s: Option<string>): (blank: bool)
    ensures blank <==> s.None? || TrimStart(s.value) == ""
  {
    if s.None? then true
    else
      TrimStartEmpty(s.value);
      forall i | 0 <= i < |s.value| :: IsWhiteSpace(s.value[i])
  }

  /** A string interpolation renders a null string as nothing. */
  function Text(s: Option<string>): string {
    s.GetOr("")
  }

  predicate IsDigit(c: char) {
    '0' <= c <= '9'
  }

  predicate AllDigits(s: string) {
    forall i | 0 <= i < |s| :: IsDigit(s[i])
  }

  function DigitChar(d: int): (c: char)
    requires 0 <= d < 10
    ensures IsDigit(c) && c as int - '0' as int == d
  {
    (d + '0' as int) as char
  }

  /** Decimal digits of a natural number, most significant first, no leading zeros. */
  function NatText(n: nat): (s: string)
    ensures 1 <= |s|
    ensures AllDigits(s)
    ensures 1 < |s| ==> s[0] != '0'
  {
    if n < 10 then [DigitChar(n)] else NatText(n / 10) + [DigitChar(n % 10)]
  }

  /** `int.ToString()` with an ASCII minus sign: optional `-`, then the digits. */
  function IntText(n: int): (s: string)
    ensures 1 <= |s|
    ensures forall i | 0 <= i < |s| :: IsDigit(s[i]) || s[i] == '-'
    ensures s[0] == '-' <==> n < 0
  {
    if n < 0 then "-" + NatText(-n) else NatText(n)
  }

  /** Reads a run of decimal digits back (the reference inverse of `NatText`). */
  function ParseNat(s: string): nat
    requires AllDigits(s)
  {
    if |s| == 0 then 0 else 10 * ParseNat(s[..|s| - 1]) + (s[|s| - 1] as int - '0' as int)
  }

  /** Reads an optionally signed decimal integer; `None` when `s` is not one. */
  function ParseInt(s: string): Option<int> {
    if 1 < |s| && s[0] == '-' && AllDigits(s[1..]) then Some(0 - ParseNat(s[1..]))
    else if 0 < |s| && AllDigits(s) then Some(ParseNat(s))
    else None
  }

  lemma {:induction false} NatTextRoundTrip(n: nat)
    ensures ParseNat(NatText(n)) == n
  {
    if n >= 10 {
      var s := NatText(n);
      assert s[..|s| - 1] == NatText(n / 10);
      NatTextRoundTrip(n / 10);
    }
  }

  /** Every rendered integer reads back as itself. */
  lemma IntTextRoundTrip(n: int)
    ensures ParseInt(IntText(n)) == Some(n)
  {
    if n < 0 {
      NatTextRoundTrip(-n);
      assert IntText(n)[1..] == NatText(-n);
    } else {
      NatTextRoundTrip(n);
    }
  }
}
