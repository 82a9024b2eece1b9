/** JavaScript's `split` and `join` on text: sections 22.1.3 and 23.1.3 of ECMA-262. */
module Texts {
  function Characters(s: string): seq<string> { seq(|s|, i requires 0 <= i < |s| => [s[i]]) }

  // Cuts at every occurrence met by one scan from the left; an empty separator gives single characters.
  function Split(s: string, sep: string): (parts: seq<string>)
    ensures sep != "" ==> |parts| >= 1
    decreases |s|
  {
    if sep == "" then Characters(s)
    else if s == "" then [""]
    else if sep <= s then [""] + Split(s[|sep|..], sep)
    else
      var rest := Split(s[1..], sep);
      [[s[0]] + rest[0]] + rest[1..]
  }

  function Join(parts: seq<string>, sep: string): string {
    if parts == [] then "" else if |parts| == 1 then parts[0] else parts[0] + sep + Join(parts[1..], sep)
  }

  predicate Contains(s: string, x: string)
    decreases |s|
  {
    x <= s || (s != "" && Contains(s[1..], x))
  }

  /** `Contains` is that the text occurs at some position. */
  lemma {:induction false} ContainsSomewhere(s: string, x: string)
    ensures Contains(s, x) <==> exists i: nat :: i <= |s| && x <= s[i..]
    decreases |s|
  {
    assert s[0..] == s;
    if !(x <= s) && s != "" {
      ContainsSomewhere(s[1..], x);
      assert forall i: nat | i < |s| :: s[1..][i..] == s[i + 1..];
      assert forall i: nat | 0 < i <= |s| :: s[i..] == s[1..][i - 1..];
    }
  }

  lemma {:induction false} SplitAt(a: string, c: char, b: string)
    requires c !in a
    ensures Split(a + [c] + b, [c]) == [a] + Split(b, [c])
    decreases |a|
  {
    var s := a + [c] + b;
    if a == "" {
      assert s == [c] + b && s[1..] == b;
    } else {
      assert s[0] == a[0] && s[1..] == a[1..] + [c] + b;
      SplitAt(a[1..], c, b);
      assert a == [a[0]] + a[1..];
    }
  }

  lemma {:induction false} SplitOne(a: string, c: char)
    requires c !in a
    ensures Split(a, [c]) == [a]
    decreases |a|
  {
    if a != "" {
      SplitOne(a[1..], c);
      assert a == [a[0]] + a[1..];
    }
  }

  // The text up to the first separator, and the rest.
  lemma {:induction false} Cut(s: string, c: char) returns (a: string, b: string)
    requires c in s
    ensures s == a + [c] + b && c !in a
    decreases |s|
  {
    if s[0] == c {
      a, b := "", s[1..];
    } else {
      a, b := Cut(s[1..], c);
      a := [s[0]] + a;
    }
  }

  /** Cutting at one separator, wherever it stands, leaves the rest of the parts as they are. */
  lemma {:induction false} SplitBetween(a: string, c: char, b: string)
    ensures Split(a + [c] + b, [c]) == Split(a, [c]) + Split(b, [c])
    decreases |a|
  {
    if c in a {
      var x, y := Cut(a, c);
      assert a + [c] + b == x + [c] + (y + [c] + b);
      SplitAt(x, c, y + [c] + b);
      SplitAt(x, c, y);
      SplitBetween(y, c, b);
      assert [x] + (Split(y, [c]) + Split(b, [c])) == [x] + Split(y, [c]) + Split(b, [c]);
    } else {
      SplitAt(a, c, b);
      SplitOne(a, c);
    }
  }

  /** No part holds the separator. */
  lemma {:induction false} SplitParts(s: string, c: char)
    ensures forall p :: p in Split(s, [c]) ==> c !in p
    decreases |s|
  {
    if c in s {
      var a, b := Cut(s, c);
      SplitAt(a, c, b);
      SplitParts(b, c);
    } else {
      SplitOne(s, c);
    }
  }
}
