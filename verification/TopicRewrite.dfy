/** lib/client.js and lib/server.js: topics with `${self}` in them. */
module TopicRewrite {
  import opened Texts

  const PLACEHOLDER := "${self}"

  function Replace(s: string, from: string, to: string): string { Join(Split(s, from), to) }

  // `replace` of both files, and its inverse in a subscriber's wrapper.
  function Expand(topic: string, id: string): string { Replace(topic, PLACEHOLDER, id) }

  function Contract(topic: string, id: string): string { Replace(topic, id, PLACEHOLDER) }

  // `substr` from a position on.
  function Drop(s: string, n: nat): string { if n <= |s| then s[n..] else "" }

  // The topic a call hands to mqlobber, and the topic a wrapper hands to its handler.
  function Sent(prefix: string, topic: string, id: string): string { prefix + Expand(topic, id) }

  function Received(prefix: string, topic: string, id: string): string { Contract(Drop(topic, |prefix|), id) }

  // ---- Replacing by one scan ----

  function Scan(s: string, from: string, to: string): string
    requires from != ""
    decreases |s|
  {
    if s == "" then ""
    else if from <= s then to + Scan(s[|from|..], from, to)
    else [s[0]] + Scan(s[1..], from, to)
  }

  lemma JoinLonger(c: char, parts: seq<string>, sep: string)
    requires parts != []
    ensures Join([[c] + parts[0]] + parts[1..], sep) == [c] + Join(parts, sep)
  {
    assert ([[c] + parts[0]] + parts[1..])[1..] == parts[1..];
  }

  lemma JoinEmptyFirst(parts: seq<string>, sep: string)
    requires parts != []
    ensures Join([""] + parts, sep) == sep + Join(parts, sep)
  {
    assert ([""] + parts)[1..] == parts;
  }

  /** Splitting and joining again is one scan from the left that replaces every occurrence it meets. */
  lemma {:induction false} ReplaceScans(s: string, from: string, to: string)
    requires from != ""
    ensures Replace(s, from, to) == Scan(s, from, to)
    decreases |s|
  {
    if s == "" {
    } else if from <= s {
      JoinEmptyFirst(Split(s[|from|..], from), to);
      ReplaceScans(s[|from|..], from, to);
    } else {
      JoinLonger(s[0], Split(s[1..], from), to);
      ReplaceScans(s[1..], from, to);
    }
  }

  lemma {:induction false} ScanAbsent(s: string, from: string, to: string)
    requires from != "" && !Contains(s, from)
    ensures Scan(s, from, to) == s
    decreases |s|
  {
    if s != "" { ScanAbsent(s[1..], from, to); }
  }

  lemma ScanWhole(from: string, to: string)
    requires from != ""
    ensures Scan(from, from, to) == to
  {
  }

  lemma {:induction false} ScanPresent(s: string, from: string, to: string)
    requires from != "" && Contains(s, from)
    ensures Contains(Scan(s, from, to), to)
    decreases |s|
  {
    if !(from <= s) {
      ScanPresent(s[1..], from, to);
      var r := Scan(s, from, to);
      assert r[1..] == Scan(s[1..], from, to);
    }
  }

  lemma Within(a: string, c: char, b: string, from: string)
    requires c !in from
    ensures from <= a + [c] + b ==> from <= a
  {
    if |from| > |a| { assert from[|a|] != (a + [c] + b)[|a|]; }
  }

  lemma ScanHit(from: string, to: string, rest: string)
    requires from != ""
    ensures Scan(from + rest, from, to) == to + Scan(rest, from, to)
  {
    assert (from + rest)[|from|..] == rest;
  }

  lemma ScanMiss(c: char, rest: string, from: string, to: string)
    requires from != "" && !(from <= [c] + rest)
    ensures Scan([c] + rest, from, to) == [c] + Scan(rest, from, to)
  {
    assert ([c] + rest)[1..] == rest;
  }

  lemma Regroup(x: string, y: string, c: char, z: string)
    ensures x + (y + [c] + z) == x + y + [c] + z
  {
  }

  // What is looked for does not reach across a character it does not hold.
  lemma {:induction false} ScanSplits(a: string, c: char, b: string, from: string, to: string)
    requires from != "" && c !in from
    ensures Scan(a + [c] + b, from, to) == Scan(a, from, to) + [c] + Scan(b, from, to)
    decreases |a|
  {
    Within(a, c, b, from);
    if a == "" {
      assert a + [c] + b == [c] + b;
      ScanMiss(c, b, from, to);
    } else {
      hide Scan;
      if from <= a {
        var a' := a[|from|..];
        assert a == from + a' && a + [c] + b == from + (a' + [c] + b);
        ScanHit(from, to, a');
        ScanHit(from, to, a' + [c] + b);
        ScanSplits(a', c, b, from, to);
        Regroup(to, Scan(a', from, to), c, Scan(b, from, to));
      } else {
        var a' := a[1..];
        assert a == [a[0]] + a' && a + [c] + b == [a[0]] + (a' + [c] + b);
        ScanMiss(a[0], a', from, to);
        ScanMiss(a[0], a' + [c] + b, from, to);
        ScanSplits(a', c, b, from, to);
        Regroup([a[0]], Scan(a', from, to), c, Scan(b, from, to));
      }
    }
  }

  lemma {:induction false} ScanWithout(s: string, c: char, from: string, to: string)
    requires from != "" && c !in s && c !in to
    ensures c !in Scan(s, from, to)
    decreases |s|
  {
    if s == "" {
    } else if from <= s {
      ScanWithout(s[|from|..], c, from, to);
    } else {
      ScanWithout(s[1..], c, from, to);
    }
  }

  // ---- There and back ----

  function Words(topic: string, sep: char): seq<string> { Split(topic, [sep]) }

  // The placeholder occurs only as a whole word.
  predicate WholeWords(topic: string, sep: char) {
    forall w :: w in Words(topic, sep) ==> w == PLACEHOLDER || !Contains(w, PLACEHOLDER)
  }

  // No word other than the placeholder has the id in it.
  predicate LiteralsAvoid(topic: string, sep: char, id: string) {
    forall w :: w in Words(topic, sep) ==> w == PLACEHOLDER || !Contains(w, id)
  }

  function There(s: string, id: string): string
    requires id != ""
  {
    Scan(Scan(s, PLACEHOLDER, id), id, PLACEHOLDER)
  }

  lemma WordThere(w: string, id: string)
    requires id != "" && (w == PLACEHOLDER || !Contains(w, PLACEHOLDER))
    ensures There(w, id) == w <==> w == PLACEHOLDER || !Contains(w, id)
  {
    if w == PLACEHOLDER {
      ScanWhole(PLACEHOLDER, id);
      ScanWhole(id, PLACEHOLDER);
    } else {
      ScanAbsent(w, PLACEHOLDER, id);
      if Contains(w, id) { ScanPresent(w, id, PLACEHOLDER); } else { ScanAbsent(w, id, PLACEHOLDER); }
    }
  }

  lemma FirstMark(a: string, b: string, x: string, y: string, c: char)
    requires c !in a && c !in x
    ensures a + [c] + b == x + [c] + y <==> a == x && b == y
  {
    SplitAt(a, c, b);
    SplitAt(x, c, y);
    if a + [c] + b == x + [c] + y {
      assert a == Split(a + [c] + b, [c])[0] == x;
      assert b == (a + [c] + b)[|a| + 1..] == (x + [c] + y)[|x| + 1..] == y;
    }
  }

  lemma ThereSplits(a: string, c: char, b: string, id: string)
    requires id != "" && c !in id && c !in PLACEHOLDER && c !in a
    ensures There(a + [c] + b, id) == There(a, id) + [c] + There(b, id) && c !in There(a, id)
  {
    ScanSplits(a, c, b, PLACEHOLDER, id);
    ScanSplits(Scan(a, PLACEHOLDER, id), c, Scan(b, PLACEHOLDER, id), id, PLACEHOLDER);
    ScanWithout(a, c, PLACEHOLDER, id);
    ScanWithout(Scan(a, PLACEHOLDER, id), c, id, PLACEHOLDER);
  }

  lemma {:induction false} TopicThere(topic: string, sep: char, id: string)
    requires id != "" && sep !in id && sep !in PLACEHOLDER && WholeWords(topic, sep)
    ensures There(topic, id) == topic <==> LiteralsAvoid(topic, sep, id)
    decreases |topic|
  {
    if sep !in topic {
      SplitOne(topic, sep);
      assert topic in Words(topic, sep);
      WordThere(topic, id);
    } else {
      var w, rest := Cut(topic, sep);
      SplitAt(w, sep, rest);
      assert forall v :: v in Words(topic, sep) <==> v == w || v in Words(rest, sep);
      WordThere(w, id);
      ThereSplits(w, sep, rest, id);
      TopicThere(rest, sep, id);
      FirstMark(There(w, id), There(rest, id), w, rest, sep);
    }
  }

  /** A topic in which the placeholder stands only for whole words, sent under a prefix, is read back as it was written
      exactly when no other word has the id in it. */
  lemma WordRoundTrip(prefix: string, topic: string, sep: char, id: string)
    requires id != "" && sep !in id && sep !in PLACEHOLDER && WholeWords(topic, sep)
    ensures Received(prefix, Sent(prefix, topic, id), id) == topic <==> LiteralsAvoid(topic, sep, id)
  {
    SentBack(prefix, topic, id);
    TopicThere(topic, sep, id);
  }

  lemma SentBack(prefix: string, topic: string, id: string)
    requires id != ""
    ensures Received(prefix, Sent(prefix, topic, id), id) == There(topic, id)
  {
    assert Sent(prefix, topic, id)[|prefix|..] == Expand(topic, id);
    ReplaceScans(topic, PLACEHOLDER, id);
    ReplaceScans(Expand(topic, id), id, PLACEHOLDER);
  }

  // ---- Any topic ----

  // An occurrence of x begins in s, before one that follows it.
  predicate Early(s: string, x: string)
    decreases |s|
  {
    s != "" && (x <= s + x || Early(s[1..], x))
  }

  // What stands between placeholders lets no occurrence of the id begin before the one put in place of the next.
  predicate PartsAvoid(parts: seq<string>, id: string)
    requires parts != []
  {
    if |parts| == 1 then !Contains(parts[0], id) else !Early(parts[0], id) && PartsAvoid(parts[1..], id)
  }

  lemma {:induction false} ScanNotEarly(s: string, from: string, to: string, rest: string)
    requires from != "" && !Early(s, from)
    ensures Scan(s + from + rest, from, to) == s + to + Scan(rest, from, to)
    decreases |s|
  {
    hide Scan;
    if s == "" {
      assert s + from + rest == from + rest;
      ScanHit(from, to, rest);
    } else {
      var s' := s[1..];
      assert s + from == (s + from + rest)[..|s| + |from|];
      assert s == [s[0]] + s' && s + from + rest == [s[0]] + (s' + from + rest);
      ScanMiss(s[0], s' + from + rest, from, to);
      ScanNotEarly(s', from, to, rest);
    }
  }

  // The first occurrence met begins in s, and so does what replaces it.
  lemma {:induction false} ScanEarly(s: string, from: string, to: string, rest: string) returns (k: nat)
    requires from != "" && Early(s, from)
    ensures k < |s| && k <= |Scan(s + from + rest, from, to)| && to <= Scan(s + from + rest, from, to)[k..]
    decreases |s|
  {
    var all := s + from + rest;
    if from <= s + from {
      assert from <= all by { assert s + from == all[..|s| + |from|]; }
      k := 0;
      assert Scan(all, from, to)[0..] == Scan(all, from, to);
    } else {
      assert !(from <= all) by { assert s + from == all[..|s| + |from|]; }
      assert all[1..] == s[1..] + from + rest;
      k := ScanEarly(s[1..], from, to, rest);
      assert Scan(all, from, to)[k + 1..] == Scan(all[1..], from, to)[k..];
      k := k + 1;
    }
  }

  lemma {:induction false} EarlyAt(s: string, x: string, rest: string, k: nat)
    requires k < |s| && x <= (s + x + rest)[k..]
    ensures Early(s, x)
    decreases |s|
  {
    var all := s + x + rest;
    if k == 0 {
      assert all[0..] == all;
      assert x == all[..|x|] == (s + x)[..|x|];
    } else {
      assert all[k..] == (s[1..] + x + rest)[k - 1..];
      EarlyAt(s[1..], x, rest, k - 1);
    }
  }

  lemma LaterPart(c: char, a: string, b: string, sep: string)
    requires sep != "" && !(sep <= [c] + a + sep + b) && !Early(a, sep)
    ensures !Early([c] + a, sep)
    ensures Split(a + sep + b, sep) == [a] + Split(b, sep) ==>
      Split([c] + a + sep + b, sep) == [[c] + a] + Split(b, sep)
  {
    var s := [c] + a + sep + b;
    assert ([c] + a)[1..] == a && s[1..] == a + sep + b;
    assert [c] + a + sep == s[..1 + |a| + |sep|];
    assert ([a] + Split(b, sep))[1..] == Split(b, sep);
  }

  lemma Prepended(s: string, a: string, sep: string, b: string)
    requires s != "" && s[1..] == a + sep + b
    ensures s == [s[0]] + a + sep + b
  {
  }

  // A text is its first part, the separator, and the rest of it.
  lemma {:induction false} FirstPart(s: string, sep: string) returns (a: string, b: string)
    requires sep != "" && |Split(s, sep)| > 1
    ensures s == a + sep + b && Split(s, sep) == [a] + Split(b, sep) && !Early(a, sep) && |b| < |s|
    decreases |s|
  {
    if sep <= s {
      a, b := "", s[|sep|..];
      assert s == a + sep + b;
    } else {
      assert s != "" && |Split(s[1..], sep)| > 1;
      hide Split, Early;
      a, b := FirstPart(s[1..], sep);
      Prepended(s, a, sep, b);
      LaterPart(s[0], a, b, sep);
      a := [s[0]] + a;
    }
  }

  lemma {:induction false} OnlyPart(s: string, sep: string)
    requires sep != "" && |Split(s, sep)| == 1
    ensures Split(s, sep) == [s] && !Contains(s, sep)
    decreases |s|
  {
    if s != "" {
      OnlyPart(s[1..], sep);
      assert s == [s[0]] + s[1..];
    }
  }

  lemma {:induction false} AnyThere(topic: string, id: string)
    requires id != ""
    ensures There(topic, id) == topic <==> PartsAvoid(Split(topic, PLACEHOLDER), id)
    decreases |topic|
  {
    var parts := Split(topic, PLACEHOLDER);
    if |parts| == 1 {
      OnlyPart(topic, PLACEHOLDER);
      ScanAbsent(topic, PLACEHOLDER, id);
      if Contains(topic, id) { ScanPresent(topic, id, PLACEHOLDER); } else { ScanAbsent(topic, id, PLACEHOLDER); }
    } else {
      var a, b := FirstPart(topic, PLACEHOLDER);
      ScanNotEarly(a, PLACEHOLDER, id, b);
      var there := Scan(b, PLACEHOLDER, id);
      assert parts[1..] == Split(b, PLACEHOLDER);
      if Early(a, id) {
        var k := ScanEarly(a, id, PLACEHOLDER, there);
        if There(topic, id) == topic { EarlyAt(a, PLACEHOLDER, b, k); }
      } else {
        ScanNotEarly(a, id, PLACEHOLDER, there);
        AnyThere(b, id);
        SameEnd(a + PLACEHOLDER, There(b, id), b);
      }
    }
  }

  lemma SameEnd(a: string, x: string, y: string)
    ensures a + x == a + y <==> x == y
  {
    if a + x == a + y { assert x == (a + x)[|a|..] == (a + y)[|a|..] == y; }
  }

  /** Any topic sent under a prefix is read back as it was written exactly when, in what stands before each placeholder
      followed by the id, no occurrence of the id begins before that id, and what stands after the last has none. */
  lemma RoundTrip(prefix: string, topic: string, id: string)
    requires id != ""
    ensures Received(prefix, Sent(prefix, topic, id), id) == topic <==> PartsAvoid(Split(topic, PLACEHOLDER), id)
  {
    SentBack(prefix, topic, id);
    AnyThere(topic, id);
  }

  /** So an id that ends as it begins can be read back from too early: here one of letters 'a' only, of any length. */
  lemma ReadTooEarly(id: string)
    requires id != "" && forall i :: 0 <= i < |id| ==> id[i] == 'a'
    ensures Received("", Sent("", "a${self}", id), id) != "a${self}"
  {
    var parts := Split("a" + PLACEHOLDER, PLACEHOLDER);
    assert !(PLACEHOLDER <= "a" + PLACEHOLDER);
    assert ("a" + PLACEHOLDER)[1..] == PLACEHOLDER && PLACEHOLDER[|PLACEHOLDER|..] == "";
    assert Split(PLACEHOLDER, PLACEHOLDER) == [""] + Split("", PLACEHOLDER);
    assert parts[0] == "a" && |parts| == 2;
    assert id <= "a" + id;
    assert Early("a", id);
    assert "a${self}" == "a" + PLACEHOLDER;
    RoundTrip("", "a${self}", id);
  }
}
