/** UTF-8: text written to a stream, and the decoder of section 8.1.1 of the WHATWG Encoding standard, which replaces
    what it cannot decode and, on a stream, waits for the rest of a character. */
module Utf8 {
  import opened Bytes

  const REPLACEMENT := '\U{FFFD}'

  function EncodeChar(c: char): Bytes {
    var u := c as int;
    if u < 0x80 then [u]
    else if u < 0x800 then [0xC0 + u / 0x40, 0x80 + u % 0x40]
    else if u < 0x10000 then [0xE0 + u / 0x1000, 0x80 + u / 0x40 % 0x40, 0x80 + u % 0x40]
    else [0xF0 + u / 0x40000, 0x80 + u / 0x1000 % 0x40, 0x80 + u / 0x40 % 0x40, 0x80 + u % 0x40]
  }

  function Encode(s: string): Bytes {
    if s == "" then [] else EncodeChar(s[0]) + Encode(s[1..])
  }

  // How many bytes follow a lead byte; none if it leads no character.
  function Needed(lead: Byte): nat {
    if 0xC2 <= lead <= 0xDF then 1 else if 0xE0 <= lead <= 0xEF then 2 else if 0xF0 <= lead <= 0xF4 then 3 else 0
  }

  // Whether a byte may come at a position after the lead byte.
  predicate Follows(lead: Byte, at: nat, b: Byte) {
    if at == 1 then
      (if lead == 0xE0 then 0xA0 else if lead == 0xF0 then 0x90 else 0x80) <= b <=
      (if lead == 0xED then 0x9F else if lead == 0xF4 then 0x8F else 0xBF)
    else 0x80 <= b <= 0xBF
  }

  // How many bytes, up to those needed, belong to the character the first one leads.
  function Good(b: Bytes): (n: nat)
    requires b != []
    ensures 1 <= n <= |b| && n <= Needed(b[0]) + 1
    ensures (n >= 2 ==> Follows(b[0], 1, b[1])) && (n >= 3 ==> Follows(b[0], 2, b[2])) &&
      (n >= 4 ==> Follows(b[0], 3, b[3]))
  {
    if Needed(b[0]) == 0 || |b| < 2 || !Follows(b[0], 1, b[1]) then 1
    else if Needed(b[0]) == 1 || |b| < 3 || !Follows(b[0], 2, b[2]) then 2
    else if Needed(b[0]) == 2 || |b| < 4 || !Follows(b[0], 3, b[3]) then 3
    else 4
  }

  // The bytes so far are all good, and more are needed.
  predicate Incomplete(b: Bytes) { b == [] || (Good(b) == |b| && |b| < Needed(b[0]) + 1) }

  // The first character, or the replacement of what cannot be one, and how many bytes it takes.
  function DecodeFirst(b: Bytes): (r: (char, nat))
    requires b != []
    ensures 1 <= r.1 <= |b|
  {
    var n := Good(b);
    if b[0] < 0x80 then (b[0] as char, 1)
    else if Needed(b[0]) == 0 || n <= Needed(b[0]) then (REPLACEMENT, n)
    else
      var second: int := b[1] - 0x80;
      if n == 2 then (((b[0] as int - 0xC0) * 0x40 + second) as char, 2)
      else
        var third := second * 0x40 + (b[2] as int - 0x80);
        if n == 3 then (((b[0] as int - 0xE0) * 0x1000 + third) as char, 3)
        else (((b[0] as int - 0xF0) * 0x40000 + third * 0x40 + (b[3] as int - 0x80)) as char, 4)
  }

  // Buffer.toString
  function Decode(b: Bytes): string {
    if b == [] then "" else
      var (c, n) := DecodeFirst(b);
      [c] + Decode(b[n..])
  }

  // A stream decoder given some more bytes after those it has kept: the text, and the bytes it keeps.
  function Take(b: Bytes): (string, Bytes) {
    if Incomplete(b) then ("", b)
    else
      var (c, n) := DecodeFirst(b);
      var (text, kept) := Take(b[n..]);
      ([c] + text, kept)
  }

  lemma TwoBytes(u: nat)
    requires 0x80 <= u < 0x800
    ensures var a, b := 0xC0 + u / 0x40, 0x80 + u % 0x40;
      && 0xC2 <= a <= 0xDF && 0x80 <= b <= 0xBF && (a - 0xC0) * 0x40 + (b - 0x80) == u
  {
  }

  lemma ThreeBytes(u: nat)
    requires 0x800 <= u < 0xD800 || 0xE000 <= u < 0x10000
    ensures var a, b, c := 0xE0 + u / 0x1000, 0x80 + u / 0x40 % 0x40, 0x80 + u % 0x40;
      && 0xE0 <= a <= 0xEF && 0x80 <= b <= 0xBF && 0x80 <= c <= 0xBF && Follows(a, 1, b)
      && (a - 0xE0) * 0x1000 + (b - 0x80) * 0x40 + (c - 0x80) == u
  {
    var v := u / 0x40;
    assert u == v * 0x40 + u % 0x40 && u / 0x1000 == v / 0x40 && v == v / 0x40 * 0x40 + v % 0x40;
  }

  lemma FourBytes(u: nat)
    requires 0x10000 <= u < 0x110000
    ensures var a, b, c, d := 0xF0 + u / 0x40000, 0x80 + u / 0x1000 % 0x40, 0x80 + u / 0x40 % 0x40, 0x80 + u % 0x40;
      && 0xF0 <= a <= 0xF4 && 0x80 <= b <= 0xBF && 0x80 <= c <= 0xBF && 0x80 <= d <= 0xBF && Follows(a, 1, b)
      && (a - 0xF0) * 0x40000 + (b - 0x80) * 0x1000 + (c - 0x80) * 0x40 + (d - 0x80) == u
  {
    var v := u / 0x40;
    var w := v / 0x40;
    assert u == v * 0x40 + u % 0x40 && u / 0x1000 == w && u / 0x40000 == w / 0x40;
    assert v == w * 0x40 + v % 0x40 && w == w / 0x40 * 0x40 + w % 0x40;
  }

  lemma CharRoundTrip(c: char, rest: Bytes)
    ensures !Incomplete(EncodeChar(c) + rest)
    ensures DecodeFirst(EncodeChar(c) + rest) == (c, |EncodeChar(c)|)
    ensures (EncodeChar(c) + rest)[|EncodeChar(c)|..] == rest
  {
    var u := c as int;
    if u >= 0x10000 { FourBytes(u); } else if u >= 0x800 { ThreeBytes(u); } else if u >= 0x80 { TwoBytes(u); }
  }

  lemma ParsedTwo(a: nat, b: nat)
    requires 0xC2 <= a <= 0xDF && 0x80 <= b <= 0xBF
    ensures var u := (a - 0xC0) * 0x40 + (b - 0x80);
      0x80 <= u < 0x800 && 0xC0 + u / 0x40 == a && 0x80 + u % 0x40 == b
  {
  }

  lemma ParsedThree(a: nat, b: nat, c: nat)
    requires 0xE0 <= a <= 0xEF && 0x80 <= b <= 0xBF && Follows(a, 1, b) && 0x80 <= c <= 0xBF
    ensures var u := (a - 0xE0) * 0x1000 + (b - 0x80) * 0x40 + (c - 0x80);
      && (0x800 <= u < 0xD800 || 0xE000 <= u < 0x10000)
      && 0xE0 + u / 0x1000 == a && 0x80 + u / 0x40 % 0x40 == b && 0x80 + u % 0x40 == c
  {
    var v := (a - 0xE0) * 0x40 + (b - 0x80);
    var u := v * 0x40 + (c - 0x80);
    assert u / 0x40 == v && u % 0x40 == c - 0x80 && v / 0x40 == a - 0xE0 && v % 0x40 == b - 0x80;
    assert u / 0x1000 == v / 0x40;
  }

  lemma ParsedFour(a: nat, b: nat, c: nat, d: nat)
    requires 0xF0 <= a <= 0xF4 && 0x80 <= b <= 0xBF && Follows(a, 1, b) && 0x80 <= c <= 0xBF && 0x80 <= d <= 0xBF
    ensures var u := (a - 0xF0) * 0x40000 + (b - 0x80) * 0x1000 + (c - 0x80) * 0x40 + (d - 0x80);
      && 0x10000 <= u < 0x110000
      && 0xF0 + u / 0x40000 == a && 0x80 + u / 0x1000 % 0x40 == b && 0x80 + u / 0x40 % 0x40 == c && 0x80 + u % 0x40 == d
  {
    var w := (a - 0xF0) * 0x40 + (b - 0x80);
    var v := w * 0x40 + (c - 0x80);
    var u := v * 0x40 + (d - 0x80);
    assert u / 0x40 == v && u % 0x40 == d - 0x80 && v / 0x40 == w && v % 0x40 == c - 0x80;
    assert w / 0x40 == a - 0xF0 && w % 0x40 == b - 0x80;
    assert u / 0x1000 == w && u / 0x40000 == w / 0x40;
  }

  lemma ShortEncodings(b: Bytes)
    requires b != [] && DecodeFirst(b).0 != REPLACEMENT && DecodeFirst(b).1 <= 2
    ensures var (c, n) := DecodeFirst(b); b[..n] == EncodeChar(c)
  {
    if DecodeFirst(b).1 == 2 { ParsedTwo(b[0], b[1]); }
  }

  lemma EncodingsOfThree(b: Bytes)
    requires b != [] && DecodeFirst(b).0 != REPLACEMENT && DecodeFirst(b).1 == 3
    ensures var (c, n) := DecodeFirst(b); b[..n] == EncodeChar(c)
  {
    ParsedThree(b[0], b[1], b[2]);
  }

  lemma EncodingsOfFour(b: Bytes)
    requires b != [] && DecodeFirst(b).0 != REPLACEMENT && DecodeFirst(b).1 > 3
    ensures var (c, n) := DecodeFirst(b); b[..n] == EncodeChar(c)
  {
    ParsedFour(b[0], b[1], b[2], b[3]);
  }

  /** The decoder takes nothing else for a character: what it does not replace is that character's own encoding. */
  lemma OnlyEncodings(b: Bytes)
    requires b != [] && DecodeFirst(b).0 != REPLACEMENT
    ensures var (c, n) := DecodeFirst(b); b[..n] == EncodeChar(c)
  {
    hide DecodeFirst, EncodeChar;
    var n := DecodeFirst(b).1;
    if n <= 2 { ShortEncodings(b); } else if n == 3 { EncodingsOfThree(b); } else { EncodingsOfFour(b); }
  }

  /** Decoding what was encoded gives the text back. */
  lemma {:induction false} RoundTrip(s: string)
    ensures Decode(Encode(s)) == s
  {
    if s != "" {
      CharRoundTrip(s[0], Encode(s[1..]));
      RoundTrip(s[1..]);
      assert [s[0]] + s[1..] == s;
    }
  }

  lemma {:induction false} TakeAll(s: string)
    ensures Take(Encode(s)) == (s, [])
  {
    if s != "" {
      CharRoundTrip(s[0], Encode(s[1..]));
      TakeAll(s[1..]);
      assert [s[0]] + s[1..] == s;
    }
  }

  lemma FirstStable(a: Bytes, more: Bytes)
    requires !Incomplete(a)
    ensures a != [] && !Incomplete(a + more) && DecodeFirst(a + more) == DecodeFirst(a)
  {
  }

  /** A stream decoder gives the same text however the bytes are cut. */
  lemma {:induction false} TakeInPieces(a: Bytes, more: Bytes)
    ensures var (t1, kept) := Take(a);
      var (t2, kept') := Take(kept + more);
      Take(a + more) == (t1 + t2, kept')
    decreases |a|
  {
    hide DecodeFirst, Incomplete;
    if !Incomplete(a) {
      FirstStable(a, more);
      var n := DecodeFirst(a).1;
      assert (a + more)[n..] == a[n..] + more;
      TakeInPieces(a[n..], more);
      var c := DecodeFirst(a).0;
      var (t1, kept) := Take(a[n..]);
      assert Take(a) == ([c] + t1, kept);
      var t2 := Take(kept + more).0;
      assert [c] + (t1 + t2) == [c] + t1 + t2;
    } else {
      var t2 := Take(a + more).0;
      assert "" + t2 == t2;
    }
  }

  lemma {:induction false} TakeKeeps(b: Bytes)
    ensures Incomplete(Take(b).1)
    decreases |b|
  {
    if !Incomplete(b) { TakeKeeps(b[DecodeFirst(b).1..]); }
  }
}
