/** Numbers written as text: Number.prototype.toString(10), and four hexadecimal digits. */
module Numerals {
  function Digit(d: nat): char
    requires d < 16
  {
    "0123456789abcdef"[d]
  }

  function Decimal(n: nat): (s: string)
    ensures |s| >= 1 && forall i :: 0 <= i < |s| ==> IsDecimalDigit(s[i])
    ensures s[0] == '0' <==> n == 0
    ensures n == 0 ==> s == "0"
  {
    if n < 10 then [Digit(n)] else Decimal(n / 10) + [Digit(n % 10)]
  }

  function Hex4(u: nat): string
    requires u < 0x10000
  {
    [Digit(u / 0x1000), Digit(u / 0x100 % 16), Digit(u / 0x10 % 16), Digit(u % 16)]
  }

  predicate IsDecimalDigit(c: char) { '0' <= c <= '9' }

  function HexValue(c: char): (v: int)
    ensures -1 <= v < 16
  {
    if '0' <= c <= '9' then c as int - '0' as int
    else if 'a' <= c <= 'f' then c as int - 'a' as int + 10
    else if 'A' <= c <= 'F' then c as int - 'A' as int + 10
    else -1
  }

  // The value of a run of decimal digits.
  function DecimalValue(s: string): nat
    requires forall i :: 0 <= i < |s| ==> IsDecimalDigit(s[i])
  {
    if s == "" then 0
    else assert IsDecimalDigit(s[|s| - 1]); DecimalValue(s[..|s| - 1]) * 10 + (s[|s| - 1] as int - '0' as int)
  }

  lemma {:induction false} DecimalRoundTrip(n: nat)
    ensures DecimalValue(Decimal(n)) == n
  {
    if n < 10 {
      assert Decimal(n)[..0] == "";
    } else {
      DecimalRoundTrip(n / 10);
      assert Decimal(n)[..|Decimal(n)| - 1] == Decimal(n / 10);
    }
  }

  // How many of the first characters are digits.
  function DigitsLength(s: string): (n: nat)
    ensures n <= |s| && forall i :: 0 <= i < n ==> IsDecimalDigit(s[i])
  {
    if s != "" && IsDecimalDigit(s[0]) then 1 + DigitsLength(s[1..]) else 0
  }

  lemma {:induction false} DigitsOf(d: string, rest: string)
    requires forall i :: 0 <= i < |d| ==> IsDecimalDigit(d[i])
    requires rest == "" || !IsDecimalDigit(rest[0])
    ensures DigitsLength(d + rest) == |d|
  {
    if d == "" {
      assert d + rest == rest;
    } else {
      assert (d + rest)[1..] == d[1..] + rest;
      DigitsOf(d[1..], rest);
    }
  }

  // The value of the first four characters as hexadecimal digits, or -1.
  function Hex4Value(s: string): (v: int)
    ensures -1 <= v < 0x10000 && (v >= 0 ==> |s| >= 4)
  {
    if |s| < 4 then -1
    else
      var a, b, c, d := HexValue(s[0]), HexValue(s[1]), HexValue(s[2]), HexValue(s[3]);
      if a < 0 || b < 0 || c < 0 || d < 0 then -1 else a * 0x1000 + b * 0x100 + c * 0x10 + d
  }

  lemma HexDigitValue(d: nat)
    requires d < 16
    ensures HexValue(Digit(d)) == d
  {
  }

  lemma HexDigitsValue(u: nat)
    requires u < 0x10000
    ensures u / 0x1000 * 0x1000 + u / 0x100 % 16 * 0x100 + u / 0x10 % 16 * 0x10 + u % 16 == u
  {
    var a := u / 0x10;
    var b := a / 0x10;
    assert b == u / 0x100 && b / 0x10 == u / 0x1000;
    assert u == a * 0x10 + u % 16 && a == b * 0x10 + a % 16 && b == b / 0x10 * 0x10 + b % 16;
  }

  lemma Hex4RoundTrip(u: nat, rest: string)
    requires u < 0x10000
    ensures Hex4Value(Hex4(u) + rest) == u
  {
    HexDigitValue(u / 0x1000);
    HexDigitValue(u / 0x100 % 16);
    HexDigitValue(u / 0x10 % 16);
    HexDigitValue(u % 16);
    HexDigitsValue(u);
  }
}
