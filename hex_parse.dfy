/**
  The stage controller answers a readiness query with an ASCII hexadecimal
  number; the driver reads it with `strtol(data, NULL, 16)` and counts the
  axis as ready when the number is zero. This module models that base-16
  conversion (leading white space, an optional sign, an optional `0x`/`0X`
  prefix, the longest run of hexadecimal digits, saturation to the range of
  a 32-bit `long`) and the readiness test built on it.
 */
module HexParse {
  import opened Ints

  type byte = b: int | 0 <= b < 0x100

  const ZERO_DIGIT: byte := 0x30  // '0'

  /** The bytes C's `isspace` accepts: space, \t, \n, \v, \f, \r. */
  predicate IsSpace(b: byte) {
    b == 0x20 || 0x09 <= b <= 0x0D
  }

  /** '0'-'9', 'A'-'F', 'a'-'f'. */
  predicate IsHexDigit(b: byte) {
    0x30 <= b <= 0x39 || 0x41 <= b <= 0x46 || 0x61 <= b <= 0x66
  }

  predicate AllHexDigits(d: seq<byte>) {
    forall i :: 0 <= i < |d| ==> IsHexDigit(d[i])
  }

  function DigitValue(b: byte): (v: nat)
    requires IsHexDigit(b)
    ensures v < 16
  {
    if b <= 0x39 then b - 0x30
    else if b <= 0x46 then b - 0x41 + 10
    else b - 0x61 + 10
  }

  /** The upper-case digit of a value below 16. */
  function DigitOf(v: nat): (b: byte)
    requires v < 16
    ensures IsHexDigit(b) && DigitValue(b) == v
  {
    if v < 10 then 0x30 + v else 0x41 + v - 10
  }

  /** What is left of `s` once its leading white space is skipped. */
  function SkipSpace(s: seq<byte>): (r: seq<byte>)
    ensures |r| <= |s| && r == s[|s| - |r|..]
    ensures forall i :: 0 <= i < |s| - |r| ==> IsSpace(s[i])
    ensures r == [] || !IsSpace(r[0])
  {
    if s != [] && IsSpace(s[0]) then SkipSpace(s[1..]) else s
  }

  /** The longest prefix of `s` made of hexadecimal digits. */
  function DigitRun(s: seq<byte>): (d: seq<byte>)
    ensures d <= s && AllHexDigits(d)
    ensures |d| == |s| || !IsHexDigit(s[|d|])
  {
    if s != [] && IsHexDigit(s[0]) then [s[0]] + DigitRun(s[1..]) else []
  }

  /** The number a string of hexadecimal digits denotes, most significant first. */
  function HexValue(d: seq<byte>): nat
    requires AllHexDigits(d)
  {
    if d == [] then 0 else HexValue(d[..|d| - 1]) * 16 + DigitValue(d[|d| - 1])
  }

  predicate IsSign(b: byte) {
    b == 0x2B || b == 0x2D  // '+' or '-'
  }

  /** `0x` or `0X` followed by a digit: only then does base 16 skip it. */
  predicate HasHexPrefix(u: seq<byte>) {
    |u| >= 3 && u[0] == ZERO_DIGIT && (u[1] == 0x78 || u[1] == 0x58) && IsHexDigit(u[2])
  }

  /** The digits strtol converts: after white space, sign and `0x` prefix. */
  function Digits(s: seq<byte>): (d: seq<byte>)
    ensures AllHexDigits(d)
  {
    var t := SkipSpace(s);
    var u := if t != [] && IsSign(t[0]) then t[1..] else t;
    var w := if HasHexPrefix(u) then u[2..] else u;
    DigitRun(w)
  }

  /** A '-' where strtol looks for the sign, right after the white space. */
  predicate IsNegative(s: seq<byte>) {
    var t := SkipSpace(s);
    t != [] && t[0] == 0x2D
  }

  /** `strtol(s, NULL, 16)` with a 32-bit `long`; no digits at all gives 0. */
  function StrToLong(s: seq<byte>): (r: int32)
    ensures Digits(s) == [] ==> r == 0
    ensures r == 0 <==> HexValue(Digits(s)) == 0
    ensures IsNegative(s) ==> r <= 0
    ensures !IsNegative(s) ==> r >= 0
  {
    var m: int := HexValue(Digits(s));
    Saturate32(if IsNegative(s) then -m else m)
  }

  /** The readiness test the driver means: the reply is the number zero. */
  predicate AxisReady(reply: seq<byte>) {
    StrToLong(reply) == 0
  }

  /**
    The readiness test as the driver writes it: the `long` from strtol is
    first stored in a 16-bit `int`, and that narrowed value is tested.
   */
  predicate ReadyAsWritten(reply: seq<byte>)
    ensures ReadyAsWritten(reply) <==> StrToLong(reply) % 0x1_0000 == 0
  {
    Wrap16ZeroIff(StrToLong(reply));
    Wrap16(StrToLong(reply)) == 0
  }

  /** The digits of `n` in upper case, most significant first, no leading zeros. */
  function ToHex(n: nat): (d: seq<byte>)
    ensures |d| >= 1 && AllHexDigits(d)
  {
    if n < 16 then [DigitOf(n)] else ToHex(n / 16) + [DigitOf(n % 16)]
  }

  lemma {:induction false} HexValueZeroIff(d: seq<byte>)
    requires AllHexDigits(d)
    ensures HexValue(d) == 0 <==> forall i :: 0 <= i < |d| ==> d[i] == ZERO_DIGIT
  {
    if d != [] {
      var init := d[..|d| - 1];
      HexValueZeroIff(init);
      assert forall i :: 0 <= i < |init| ==> init[i] == d[i];
    }
  }

  /** A reply reads as "ready" exactly when every digit strtol converts is '0'. */
  lemma ReadyIffZeroDigits(reply: seq<byte>)
    ensures AxisReady(reply) <==>
      forall i :: 0 <= i < |Digits(reply)| ==> Digits(reply)[i] == ZERO_DIGIT
  {
    HexValueZeroIff(Digits(reply));
  }

  lemma {:induction false} HexValueOfToHex(n: nat)
    ensures HexValue(ToHex(n)) == n
  {
    if n >= 16 {
      var d := ToHex(n);
      HexValueOfToHex(n / 16);
      assert d[..|d| - 1] == ToHex(n / 16);
    }
  }

  /** Whatever non-negative `long` the controller prints in hexadecimal, strtol reads back. */
  lemma ParseToHex(n: nat)
    requires n <= INT32_MAX
    ensures StrToLong(ToHex(n)) == n
  {
    var d := ToHex(n);
    assert !IsSpace(d[0]) && !IsSign(d[0]);
    assert |d| >= 2 ==> !(d[1] == 0x78 || d[1] == 0x58);
    assert Digits(d) == d;
    HexValueOfToHex(n);
  }

  /**
    Base 16 skips `0x` only when a digit follows it: in "0x" followed by
    anything that is not a digit, strtol converts just the '0'.
   */
  lemma HexPrefixNeedsDigit(x: byte, rest: seq<byte>)
    requires x == 0x78 || x == 0x58
    requires rest == [] || !IsHexDigit(rest[0])
    ensures Digits([ZERO_DIGIT, x] + rest) == [ZERO_DIGIT]
    ensures StrToLong([ZERO_DIGIT, x] + rest) == 0
  {
    var s := [ZERO_DIGIT, x] + rest;
    assert SkipSpace(s) == s;
    assert DigitRun(s) == [s[0]] + DigitRun(s[1..]);
    assert DigitRun(s[1..]) == [];
    assert HexValue([ZERO_DIGIT]) == 0 by { assert [ZERO_DIGIT][..0] == []; }
  }

  /** strtol takes at most one sign: a second one ends the conversion with no digit. */
  lemma SignTakenOnce(s: seq<byte>)
    requires |SkipSpace(s)| >= 2 && IsSign(SkipSpace(s)[0]) && IsSign(SkipSpace(s)[1])
    ensures Digits(s) == [] && StrToLong(s) == 0
  {
  }

  /** "10000" is the hexadecimal spelling of 2^16. */
  lemma HexOf65536()
    ensures ToHex(0x1_0000) == [0x31, 0x30, 0x30, 0x30, 0x30]
  {
  }

  /**
    The narrowing to 16 bits lets busy or garbled replies through: a reply
    whose value is a non-zero multiple of 65536, such as "10000" (see
    HexOf65536), is not zero, yet it becomes 0 once stored in an `int`.
   */
  lemma BusyReplyReadAsReady(n: nat)
    requires 0 < n <= INT32_MAX && n % 0x1_0000 == 0
    ensures StrToLong(ToHex(n)) == n
    ensures ReadyAsWritten(ToHex(n)) && !AxisReady(ToHex(n))
  {
    ParseToHex(n);
    Wrap16OfMultiple(n);
  }
}
