/** lib/pattern.js: the compiler from topic limits to one regular expression. */
module Pattern {
  import opened Wrappers
  import opened Numerals
  import opened Regex

  datatype Config = Config(separator: CodeUnit, wildcardSome: CodeUnit, maxWords: nat, maxWildcardSomes: nat,
                           maxTopicLength: Option<nat>)
  {
    // The limits for which the generated text is a quantifier, and the two special characters differ.
    predicate Valid() { maxWords >= 1 && separator != wildcardSome }
  }

  function Escaped(u: CodeUnit): string { "\\u" + Hex4(u) }

  function AtEdge(edge: string, c: Config): string { "(" + ((edge + "|") + Escaped(c.separator)) + ")" }

  // wsw and non_wsw
  function WswText(c: Config): string {
    "(" + (("(?<=" + AtEdge("^", c) + ")") + (Escaped(c.wildcardSome) + ("(?=" + AtEdge("$", c) + ")"))) + ")"
  }

  function NonWswText(c: Config): string {
    var ws := Escaped(c.wildcardSome);
    var midWs := "(" + (("(?<!" + AtEdge("^", c) + ")") + ws) + ")";
    ("(" + (("[^" + ws + "]") + "|" + (midWs + "|" + (ws + ("(?!" + AtEdge("$", c) + ")")))) + ")") + "*"
  }

  function ReMaxWords(c: Config): string
    requires c.Valid()
  {
    var sep := Escaped(c.separator);
    var nonSeps := ("[^" + sep + "]") + "*";
    nonSeps + (("(" + (sep + nonSeps) + ")") + UpToText(c.maxWords - 1))
  }

  function ReMaxWildcardSomes(c: Config): string {
    NonWswText(c) + (("(" + (WswText(c) + NonWswText(c)) + ")") + UpToText(c.maxWildcardSomes))
  }

  /** The text that the source assembles from templates.  Concatenation is associative, so the pieces are
      grouped here as the syntax below groups them. */
  function GetTopicPattern(c: Config): string
    requires c.Valid()
  {
    var checkWords := Check(ReMaxWords(c));
    var checkWildcards := Check(ReMaxWildcardSomes(c));
    if c.maxTopicLength.None? then "^" + (checkWords + checkWildcards)
    else "^" + (checkWords + (checkWildcards + Check("." + UpToText(c.maxTopicLength.value))))
  }

  function Check(body: string): string { "(?=" + (body + "$") + ")" }

  function UpToText(n: nat): string { "{0," + Decimal(n) + "}" }

  // The same pattern as syntax.
  function Boundary(edge: Regex, c: Config): Regex { Group(Alt(edge, Lit(c.separator))) }

  function NonSeps(c: Config): Regex { Repeat(NotIn(c.separator), Unbounded) }

  function WildcardWord(c: Config): Regex {
    Group(Cat(Behind(Boundary(Start, c)), Cat(Lit(c.wildcardSome), Ahead(Boundary(End, c)))))
  }

  function NotWildcardUnit(c: Config): Regex {
    Group(Alt(NotIn(c.wildcardSome),
              Alt(Group(Cat(NotBehind(Boundary(Start, c)), Lit(c.wildcardSome))),
                  Cat(Lit(c.wildcardSome), NotAhead(Boundary(End, c))))))
  }

  function NonWildcardWords(c: Config): Regex { Repeat(NotWildcardUnit(c), Unbounded) }

  // gap(mark gap){0,n}
  function Separated(gap: Regex, mark: Regex, n: nat): Regex {
    Cat(gap, Repeat(Group(Cat(mark, gap)), Bounded(n)))
  }

  // A sequence followed by one more term.
  function Append(r: Regex, last: Regex): Regex {
    match r
    case Cat(a, b) => Cat(a, Append(b, last))
    case _ => Cat(r, last)
  }

  function Whole(r: Regex): Regex { Ahead(Append(r, End)) }

  function LengthCheck(c: Config): Regex
    requires c.maxTopicLength.Some?
  {
    Whole(Repeat(Dot, Bounded(c.maxTopicLength.value)))
  }

  function TopicRegex(c: Config): Regex
    requires c.Valid()
  {
    var words := Whole(Separated(NonSeps(c), Lit(c.separator), c.maxWords - 1));
    var wildcards := Whole(Separated(NonWildcardWords(c), WildcardWord(c), c.maxWildcardSomes));
    Cat(Start, Cat(words, if c.maxTopicLength.Some? then Cat(wildcards, LengthCheck(c)) else wildcards))
  }

  // Writes syntax in the concrete notation.
  function Show(r: Regex): string {
    match r
    case Lit(u) => Escaped(u)
    case NotIn(u) => "[^" + Escaped(u) + "]"
    case Dot => "."
    case Start => "^"
    case End => "$"
    case Group(q) => "(" + Show(q) + ")"
    case Cat(a, b) => Show(a) + Show(b)
    case Alt(a, b) => Show(a) + "|" + Show(b)
    case Repeat(q, max) => Show(q) + (if max.Unbounded? then "*" else UpToText(max.n))
    case Ahead(q) => "(?=" + Show(q) + ")"
    case NotAhead(q) => "(?!" + Show(q) + ")"
    case Behind(q) => "(?<=" + Show(q) + ")"
    case NotBehind(q) => "(?<!" + Show(q) + ")"
  }

  /** What the pattern is for, by counting. */
  function Words(s: Text, sep: CodeUnit): (ws: seq<Text>)
    ensures |ws| >= 1
  {
    if s == [] then [[]]
    else
      var rest := Words(s[1..], sep);
      if s[0] == sep then [[]] + rest else [[s[0]] + rest[0]] + rest[1..]
  }

  function CountWord(ws: seq<Text>, w: Text): nat {
    if ws == [] then 0 else (if ws[0] == w then 1 else 0) + CountWord(ws[1..], w)
  }

  ghost predicate WithinLimits(c: Config, s: Text) {
    && |Words(s, c.separator)| <= c.maxWords
    && CountWord(Words(s, c.separator), [c.wildcardSome]) <= c.maxWildcardSomes
    && (c.maxTopicLength.Some? ==>
          |s| <= c.maxTopicLength.value &&
          forall p :: 0 <= p < |s| ==> s[p] != 0x0A && s[p] != 0x0D && s[p] != 0x2028 && s[p] != 0x2029)
  }

  // ---- Repetition of one-unit expressions, and marks separated by gaps ----

  ghost function CountFrom(f: nat -> bool, lo: nat, hi: nat): nat
    requires lo <= hi
    decreases hi - lo
  {
    if lo == hi then 0 else (if f(lo) then 1 else 0) + CountFrom(f, lo + 1, hi)
  }

  ghost predicate IsUnit(q: Regex, s: Text, g: nat -> bool) {
    forall lo: nat, hi: nat :: lo <= hi <= |s| ==> (Spans(q, s, lo, hi) <==> hi == lo + 1 && g(lo))
  }

  ghost predicate IsGap(q: Regex, s: Text, f: nat -> bool) {
    forall lo: nat, hi: nat :: lo <= hi <= |s| ==> (Spans(q, s, lo, hi) <==> NoneIn(f, lo, hi))
  }

  ghost predicate NoneIn(f: nat -> bool, lo: nat, hi: nat) {
    forall p: nat :: lo <= p < hi ==> !f(p)
  }

  lemma {:induction false} UnitRepeat(q: Regex, max: Limit, s: Text, g: nat -> bool, lo: nat, hi: nat)
    requires lo <= hi <= |s| && IsUnit(q, s, g)
    ensures RepSpans(q, max, s, lo, hi) <==>
            (max.Bounded? ==> hi - lo <= max.n) && forall p: nat :: lo <= p < hi ==> g(p)
    decreases hi - lo
  {
    if lo < hi && !max.Zero() {
      UnitRepeat(q, max.Less(), s, g, lo + 1, hi);
      assert Spans(q, s, lo, lo + 1) == g(lo);
    }
  }

  lemma {:induction false} CountZero(f: nat -> bool, lo: nat, hi: nat)
    requires lo <= hi
    ensures CountFrom(f, lo, hi) == 0 <==> NoneIn(f, lo, hi)
    decreases hi - lo
  {
    if lo < hi {
      CountZero(f, lo + 1, hi);
      assert NoneIn(f, lo, hi) <==> !f(lo) && NoneIn(f, lo + 1, hi);
    }
  }

  lemma {:induction false} CountSplit(f: nat -> bool, lo: nat, m: nat, hi: nat)
    requires lo <= m <= hi
    ensures CountFrom(f, lo, hi) == CountFrom(f, lo, m) + CountFrom(f, m, hi)
    decreases m - lo
  {
    if lo < m { CountSplit(f, lo + 1, m, hi); }
  }

  lemma {:induction false} FirstMark(f: nat -> bool, lo: nat, hi: nat) returns (m: nat)
    requires lo <= hi
    ensures lo <= m <= hi && NoneIn(f, lo, m) && (m < hi ==> f(m))
    decreases hi - lo
  {
    if lo == hi || f(lo) { m := lo; } else { m := FirstMark(f, lo + 1, hi); }
  }

  lemma GapOfUnits(q: Regex, s: Text, f: nat -> bool, g: nat -> bool)
    requires IsUnit(q, s, g) && forall p: nat :: p < |s| ==> g(p) == !f(p)
    ensures IsGap(Repeat(q, Unbounded), s, f)
  {
    forall lo: nat, hi: nat | lo <= hi <= |s|
      ensures Spans(Repeat(q, Unbounded), s, lo, hi) <==> NoneIn(f, lo, hi)
    {
      UnitRepeat(q, Unbounded, s, g, lo, hi);
      assert Spans(Repeat(q, Unbounded), s, lo, hi) == RepSpans(q, Unbounded, s, lo, hi);
      if NoneIn(f, lo, hi) {
        forall p: nat | lo <= p < hi ensures g(p) { assert !f(p); }
      }
      if forall p: nat :: lo <= p < hi ==> g(p) {
        forall p: nat | lo <= p < hi ensures !f(p) { assert g(p); }
      }
    }
  }

  // From a mark, or from the end, the repetition reaches the end exactly when few enough marks remain.
  lemma {:induction false} MarksRemaining(gap: Regex, mark: Regex, n: nat, s: Text, f: nat -> bool, lo: nat)
    requires lo <= |s| && (lo < |s| ==> f(lo))
    requires IsGap(gap, s, f) && IsUnit(mark, s, f)
    ensures RepSpans(Group(Cat(mark, gap)), Bounded(n), s, lo, |s|) <==> CountFrom(f, lo, |s|) <= n
    decreases |s| - lo
  {
    var q := Group(Cat(mark, gap));
    if lo < |s| && n > 0 {
      var next := FirstMark(f, lo + 1, |s|);
      CountSplit(f, lo + 1, next, |s|);
      CountZero(f, lo + 1, next);
      MarksRemaining(gap, mark, n - 1, s, f, next);
      MarkThenGap(gap, mark, s, f, lo, next);
      if RepSpans(q, Bounded(n), s, lo, |s|) {
        var m := RepHead(q, Bounded(n), s, lo, |s|);
        MarkThenGap(gap, mark, s, f, lo, m);
        if m < |s| { RepeatStartsAtMark(gap, mark, n - 1, s, f, m); }
        assert m == next;
      }
    }
  }

  lemma MarkThenGap(gap: Regex, mark: Regex, s: Text, f: nat -> bool, lo: nat, hi: nat)
    requires lo < |s| && lo <= hi <= |s| && f(lo)
    requires IsGap(gap, s, f) && IsUnit(mark, s, f)
    ensures Spans(Group(Cat(mark, gap)), s, lo, hi) <==> lo < hi && NoneIn(f, lo + 1, hi)
  {
    GroupSpans(Cat(mark, gap), s, lo, hi);
    if Spans(Cat(mark, gap), s, lo, hi) {
      var m := CatSplit(mark, gap, s, lo, hi);
      assert m == lo + 1;
    }
    if lo < hi && NoneIn(f, lo + 1, hi) {
      CatJoin(mark, gap, s, lo, lo + 1, hi);
    }
  }

  lemma RepeatStartsAtMark(gap: Regex, mark: Regex, n: nat, s: Text, f: nat -> bool, m: nat)
    requires m < |s| && IsUnit(mark, s, f)
    requires RepSpans(Group(Cat(mark, gap)), Bounded(n), s, m, |s|)
    ensures f(m)
  {
    var q := Group(Cat(mark, gap));
    var p := RepHead(q, Bounded(n), s, m, |s|);
    GroupSpans(Cat(mark, gap), s, m, p);
    var e := CatSplit(mark, gap, s, m, p);
  }

  lemma SeparatedCounts(gap: Regex, mark: Regex, n: nat, s: Text, f: nat -> bool)
    requires IsGap(gap, s, f) && IsUnit(mark, s, f)
    ensures Spans(Separated(gap, mark, n), s, 0, |s|) <==> CountFrom(f, 0, |s|) <= n
  {
    var first := FirstMark(f, 0, |s|);
    var q := Group(Cat(mark, gap));
    CountSplit(f, 0, first, |s|);
    CountZero(f, 0, first);
    MarksRemaining(gap, mark, n, s, f, first);
    assert Spans(gap, s, 0, first);
    if Spans(Separated(gap, mark, n), s, 0, |s|) {
      var m := CatSplit(gap, Repeat(q, Bounded(n)), s, 0, |s|);
      if m < |s| { RepeatStartsAtMark(gap, mark, n, s, f, m); }
      assert NoneIn(f, 0, m);
      assert m == first;
    }
    if CountFrom(f, 0, |s|) <= n { CatJoin(gap, Repeat(q, Bounded(n)), s, 0, first, |s|); }
  }

  // ---- The two instances: separators, and words that are the wildcard ----

  predicate IsSep(c: Config, s: Text, p: nat) { p < |s| && s[p] == c.separator }

  predicate IsWildcardAt(c: Config, s: Text, p: nat) {
    && p < |s| && s[p] == c.wildcardSome
    && (p == 0 || s[p - 1] == c.separator)
    && (p + 1 == |s| || s[p + 1] == c.separator)
  }

  lemma SepInstance(c: Config, s: Text)
    ensures IsGap(NonSeps(c), s, (p: nat) => IsSep(c, s, p))
    ensures IsUnit(Lit(c.separator), s, (p: nat) => IsSep(c, s, p))
  {
    var f := (p: nat) => IsSep(c, s, p);
    var g := (p: nat) => p < |s| && s[p] != c.separator;
    GapOfUnits(NotIn(c.separator), s, f, g);
  }

  lemma BoundarySpans(edge: Regex, c: Config, s: Text, lo: nat, hi: nat)
    requires lo <= hi <= |s|
    ensures Spans(Boundary(edge, c), s, lo, hi) <==> Spans(edge, s, lo, hi) || (hi == lo + 1 && s[lo] == c.separator)
  {
    GroupSpans(Alt(edge, Lit(c.separator)), s, lo, hi);
    AltSpans(edge, Lit(c.separator), s, lo, hi);
  }

  lemma BehindBoundary(c: Config, s: Text, p: nat)
    requires p <= |s|
    ensures Spans(Behind(Boundary(Start, c)), s, p, p) <==> p == 0 || s[p - 1] == c.separator
    ensures Spans(NotBehind(Boundary(Start, c)), s, p, p) <==> !(p == 0 || s[p - 1] == c.separator)
  {
    forall l: nat | l <= p
      ensures Spans(Boundary(Start, c), s, l, p) <==> l == p == 0 || (p == l + 1 && s[l] == c.separator) {
      BoundarySpans(Start, c, s, l, p);
    }
    if p == 0 { assert Spans(Boundary(Start, c), s, 0, p); }
    if p > 0 && s[p - 1] == c.separator { assert Spans(Boundary(Start, c), s, p - 1, p); }
  }

  lemma AheadBoundary(c: Config, s: Text, p: nat)
    requires p <= |s|
    ensures Spans(Ahead(Boundary(End, c)), s, p, p) <==> p == |s| || s[p] == c.separator
    ensures Spans(NotAhead(Boundary(End, c)), s, p, p) <==> !(p == |s| || s[p] == c.separator)
  {
    forall h: nat | p <= h <= |s|
      ensures Spans(Boundary(End, c), s, p, h) <==> p == h == |s| || (h == p + 1 && s[p] == c.separator) {
      BoundarySpans(End, c, s, p, h);
    }
    if p == |s| { assert Spans(Boundary(End, c), s, p, |s|); }
    if p < |s| && s[p] == c.separator { assert Spans(Boundary(End, c), s, p, p + 1); }
  }

  // A one-unit literal with a zero-width check after it.
  lemma CheckedUnit(look: Regex, u: CodeUnit, s: Text, lo: nat, hi: nat)
    requires lo <= hi <= |s| && (look.Ahead? || look.NotAhead?)
    ensures Spans(Cat(Lit(u), look), s, lo, hi) <==> hi == lo + 1 && s[lo] == u && Spans(look, s, hi, hi)
  {
    if Spans(Cat(Lit(u), look), s, lo, hi) { var m := CatSplit(Lit(u), look, s, lo, hi); }
    if hi == lo + 1 && s[lo] == u && Spans(look, s, hi, hi) { CatJoin(Lit(u), look, s, lo, hi, hi); }
  }

  lemma WildcardWordSpans(c: Config, s: Text, lo: nat, hi: nat)
    requires lo <= hi <= |s|
    ensures Spans(WildcardWord(c), s, lo, hi) <==> hi == lo + 1 && IsWildcardAt(c, s, lo)
  {
    var before, after := Behind(Boundary(Start, c)), Ahead(Boundary(End, c));
    var tail := Cat(Lit(c.wildcardSome), after);
    GroupSpans(Cat(before, tail), s, lo, hi);
    ZeroWidthFirst(before, tail, s, lo, hi);
    CheckedUnit(after, c.wildcardSome, s, lo, hi);
    BehindBoundary(c, s, lo);
    AheadBoundary(c, s, hi);
  }

  lemma NotWildcardUnitSpans(c: Config, s: Text, lo: nat, hi: nat)
    requires lo <= hi <= |s|
    ensures Spans(NotWildcardUnit(c), s, lo, hi) <==> hi == lo + 1 && !IsWildcardAt(c, s, lo)
  {
    var u := c.wildcardSome;
    var before, after := NotBehind(Boundary(Start, c)), NotAhead(Boundary(End, c));
    var first, last := Group(Cat(before, Lit(u))), Cat(Lit(u), after);
    GroupSpans(Alt(NotIn(u), Alt(first, last)), s, lo, hi);
    AltSpans(NotIn(u), Alt(first, last), s, lo, hi);
    AltSpans(first, last, s, lo, hi);
    GroupSpans(Cat(before, Lit(u)), s, lo, hi);
    ZeroWidthFirst(before, Lit(u), s, lo, hi);
    CheckedUnit(after, u, s, lo, hi);
    BehindBoundary(c, s, lo);
    AheadBoundary(c, s, hi);
  }

  lemma WildcardInstance(c: Config, s: Text)
    ensures IsGap(NonWildcardWords(c), s, (p: nat) => IsWildcardAt(c, s, p))
    ensures IsUnit(WildcardWord(c), s, (p: nat) => IsWildcardAt(c, s, p))
  {
    var f := (p: nat) => IsWildcardAt(c, s, p);
    var g := (p: nat) => !IsWildcardAt(c, s, p);
    forall lo: nat, hi: nat | lo <= hi <= |s| ensures Spans(NotWildcardUnit(c), s, lo, hi) <==> hi == lo + 1 && g(lo) {
      NotWildcardUnitSpans(c, s, lo, hi);
    }
    GapOfUnits(NotWildcardUnit(c), s, f, g);
    forall lo: nat, hi: nat | lo <= hi <= |s| ensures Spans(WildcardWord(c), s, lo, hi) <==> hi == lo + 1 && f(lo) {
      WildcardWordSpans(c, s, lo, hi);
    }
  }

  lemma {:induction false} SepsCountWords(c: Config, s: Text, lo: nat)
    requires lo <= |s|
    ensures |Words(s[lo..], c.separator)| == CountFrom((p: nat) => IsSep(c, s, p), lo, |s|) + 1
    decreases |s| - lo
  {
    if lo < |s| {
      assert s[lo..][1..] == s[lo + 1..];
      SepsCountWords(c, s, lo + 1);
    }
  }

  lemma {:induction false} WildcardsCountWords(c: Config, s: Text, lo: nat)
    requires c.Valid() && lo <= |s|
    ensures var ws := Words(s[lo..], c.separator);
            CountFrom((p: nat) => IsWildcardAt(c, s, p), lo, |s|)
            == CountWord(if lo == 0 || s[lo - 1] == c.separator then ws else ws[1..], [c.wildcardSome])
    decreases |s| - lo
  {
    var ws := Words(s[lo..], c.separator);
    if lo < |s| {
      assert s[lo..][1..] == s[lo + 1..];
      WildcardsCountWords(c, s, lo + 1);
      var rest := Words(s[lo + 1..], c.separator);
      assert ws[1..] == if s[lo] == c.separator then rest else rest[1..];
      assert ws == [ws[0]] + ws[1..];
      if s[lo] != c.separator {
        assert rest[0] == [] <==> lo + 1 == |s| || s[lo + 1] == c.separator;
        assert ws[0] == [s[lo]] + rest[0];
        assert |ws[0]| == 1 + |rest[0]|;
        assert rest[0] == [] ==> ws[0] == [s[lo]];
        assert ws[0] == [c.wildcardSome] <==> s[lo] == c.wildcardSome && rest[0] == [];
      }
    }
  }

  // ---- Assembly ----

  lemma OneThenEnd(r: Regex, s: Text, lo: nat, hi: nat)
    requires lo <= hi <= |s|
    ensures Spans(Cat(r, End), s, lo, hi) <==> hi == |s| && Spans(r, s, lo, |s|)
  {
    if Spans(Cat(r, End), s, lo, hi) { var m := CatSplit(r, End, s, lo, hi); }
    if hi == |s| && Spans(r, s, lo, |s|) { CatJoin(r, End, s, lo, |s|, |s|); }
  }

  lemma {:induction false} EndAfter(r: Regex, s: Text, lo: nat, hi: nat)
    requires lo <= hi <= |s|
    ensures Spans(Append(r, End), s, lo, hi) <==> hi == |s| && Spans(r, s, lo, |s|)
  {
    hide Spans;
    match r
    case Cat(a, b) =>
      if Spans(Cat(a, Append(b, End)), s, lo, hi) {
        var m := CatSplit(a, Append(b, End), s, lo, hi);
        EndAfter(b, s, m, hi);
        CatJoin(a, b, s, lo, m, |s|);
      }
      if hi == |s| && Spans(r, s, lo, |s|) {
        var m := CatSplit(a, b, s, lo, |s|);
        EndAfter(b, s, m, hi);
        CatJoin(a, Append(b, End), s, lo, m, hi);
      }
    case _ => OneThenEnd(r, s, lo, hi);
  }

  lemma WholeSpans(r: Regex, s: Text, p: nat)
    requires p <= |s|
    ensures Spans(Whole(r), s, p, p) <==> Spans(r, s, p, |s|)
  {
    var body := Append(r, End);
    if h: nat :| p <= h <= |s| && Spans(body, s, p, h) { EndAfter(r, s, p, h); }
    EndAfter(r, s, p, |s|);
  }

  lemma LengthSpans(n: nat, s: Text)
    ensures Spans(Repeat(Dot, Bounded(n)), s, 0, |s|) <==>
            |s| <= n && forall p :: 0 <= p < |s| ==> !LineTerminator(s[p])
  {
    var g := (p: nat) => p < |s| && !LineTerminator(s[p]);
    UnitRepeat(Dot, Bounded(n), s, g, 0, |s|);
    assert (forall p :: 0 <= p < |s| ==> !LineTerminator(s[p])) <==> forall p: nat :: 0 <= p < |s| ==> g(p) by {
      if forall p: nat :: 0 <= p < |s| ==> g(p) {
        forall p | 0 <= p < |s| ensures !LineTerminator(s[p]) { assert g(p); }
      }
    }
  }

  // A zero-width prefix matches where it stands.
  lemma ZeroWidthFirst(a: Regex, b: Regex, s: Text, lo: nat, hi: nat)
    requires lo <= hi <= |s| && (a.Start? || a.Ahead? || a.Behind? || a.NotBehind?)
    ensures Spans(Cat(a, b), s, lo, hi) <==> Spans(a, s, lo, lo) && Spans(b, s, lo, hi)
  {
    if Spans(Cat(a, b), s, lo, hi) { var m := CatSplit(a, b, s, lo, hi); }
    if Spans(a, s, lo, lo) && Spans(b, s, lo, hi) { CatJoin(a, b, s, lo, lo, hi); }
  }

  /** The generated pattern accepts a topic exactly when the topic is within the limits. */
  lemma PatternMeansLimits(c: Config, s: Text)
    requires c.Valid()
    ensures Test(TopicRegex(c), s) <==> WithinLimits(c, s)
  {
    var all: Cont := (j: nat) => true;
    forall i: nat | i <= |s|
      ensures MatchesAt(TopicRegex(c), s, i) <==> exists j: nat :: Reaches(TopicRegex(c), s, i, true, j) && all(j) {
      RunFindsSpans(TopicRegex(c), s, i, true, all);
    }
    forall i: nat, j: nat | i <= j <= |s| ensures Spans(TopicRegex(c), s, i, j) <==> i == j == 0 && WithinLimits(c, s) {
      TopicSpans(c, s, i, j);
    }
    if WithinLimits(c, s) {
      assert Reaches(TopicRegex(c), s, 0, true, 0) && all(0);
      assert MatchesAt(TopicRegex(c), s, 0);
    }
  }

  lemma WordLimit(c: Config, s: Text)
    requires c.Valid()
    ensures Spans(Separated(NonSeps(c), Lit(c.separator), c.maxWords - 1), s, 0, |s|) <==>
            |Words(s, c.separator)| <= c.maxWords
  {
    SepInstance(c, s);
    SeparatedCounts(NonSeps(c), Lit(c.separator), c.maxWords - 1, s, (p: nat) => IsSep(c, s, p));
    SepsCountWords(c, s, 0);
    assert s[0..] == s;
  }

  lemma WildcardLimit(c: Config, s: Text)
    requires c.Valid()
    ensures Spans(Separated(NonWildcardWords(c), WildcardWord(c), c.maxWildcardSomes), s, 0, |s|) <==>
            CountWord(Words(s, c.separator), [c.wildcardSome]) <= c.maxWildcardSomes
  {
    WildcardInstance(c, s);
    SeparatedCounts(NonWildcardWords(c), WildcardWord(c), c.maxWildcardSomes, s, (p: nat) => IsWildcardAt(c, s, p));
    WildcardsCountWords(c, s, 0);
    assert s[0..] == s;
  }

  // Checks in a row after `^`, each of a whole subject.
  lemma StartThen(r: Regex, s: Text, i: nat, j: nat)
    requires i <= j <= |s|
    ensures Spans(Cat(Start, r), s, i, j) <==> i == 0 && Spans(r, s, 0, j)
  {
    ZeroWidthFirst(Start, r, s, i, j);
  }

  lemma CheckThen(a: Regex, r: Regex, s: Text, j: nat)
    requires j <= |s|
    ensures Spans(Cat(Whole(a), r), s, 0, j) <==> Spans(a, s, 0, |s|) && Spans(r, s, 0, j)
  {
    ZeroWidthFirst(Whole(a), r, s, 0, j);
    WholeSpans(a, s, 0);
  }

  lemma LastCheck(a: Regex, s: Text, j: nat)
    requires j <= |s|
    ensures Spans(Whole(a), s, 0, j) <==> j == 0 && Spans(a, s, 0, |s|)
  {
    WholeSpans(a, s, 0);
  }

  lemma TopicParts(c: Config, s: Text, i: nat, j: nat)
    requires c.Valid() && i <= j <= |s|
    ensures Spans(TopicRegex(c), s, i, j) <==>
      && i == j == 0
      && Spans(Separated(NonSeps(c), Lit(c.separator), c.maxWords - 1), s, 0, |s|)
      && Spans(Separated(NonWildcardWords(c), WildcardWord(c), c.maxWildcardSomes), s, 0, |s|)
      && (c.maxTopicLength.Some? ==> Spans(Repeat(Dot, Bounded(c.maxTopicLength.value)), s, 0, |s|))
  {
    hide Spans, Whole, Separated, NonSeps, NonWildcardWords, WildcardWord;
    var words := Separated(NonSeps(c), Lit(c.separator), c.maxWords - 1);
    var wildcards := Separated(NonWildcardWords(c), WildcardWord(c), c.maxWildcardSomes);
    var rest := if c.maxTopicLength.Some? then Cat(Whole(wildcards), LengthCheck(c)) else Whole(wildcards);
    StartThen(Cat(Whole(words), rest), s, i, j);
    CheckThen(words, rest, s, j);
    if c.maxTopicLength.Some? {
      CheckThen(wildcards, LengthCheck(c), s, j);
      LastCheck(Repeat(Dot, Bounded(c.maxTopicLength.value)), s, j);
    } else {
      LastCheck(wildcards, s, j);
    }
  }

  lemma TopicSpans(c: Config, s: Text, i: nat, j: nat)
    requires c.Valid() && i <= j <= |s|
    ensures Spans(TopicRegex(c), s, i, j) <==> i == j == 0 && WithinLimits(c, s)
  {
    TopicParts(c, s, i, j);
    WordLimit(c, s);
    WildcardLimit(c, s);
    if c.maxTopicLength.Some? { LengthSpans(c.maxTopicLength.value, s); }
  }

  lemma ShowSeparated(gap: Regex, mark: Regex, n: nat)
    ensures Show(Separated(gap, mark, n)) == Show(gap) + (("(" + (Show(mark) + Show(gap)) + ")") + UpToText(n))
  {
    var rep := Repeat(Group(Cat(mark, gap)), Bounded(n));
    assert Show(Group(Cat(mark, gap))) == "(" + Show(Cat(mark, gap)) + ")";
    assert Show(rep) == Show(Group(Cat(mark, gap))) + UpToText(n);
    assert Show(Separated(gap, mark, n)) == Show(gap) + Show(rep);
  }

  lemma ShowBoundary(edge: Regex, c: Config)
    ensures Show(Boundary(edge, c)) == AtEdge(Show(edge), c)
  {
    assert Show(Alt(edge, Lit(c.separator))) == (Show(edge) + "|") + Escaped(c.separator);
  }

  lemma ShowWildcardWord(c: Config)
    ensures Show(WildcardWord(c)) == WswText(c)
  {
    var before, after := Behind(Boundary(Start, c)), Ahead(Boundary(End, c));
    ShowBoundary(Start, c);
    ShowBoundary(End, c);
    ShowCat(Lit(c.wildcardSome), after);
    ShowCat(before, Cat(Lit(c.wildcardSome), after));
    ShowGroup(Cat(before, Cat(Lit(c.wildcardSome), after)));
  }

  lemma ShowCat(a: Regex, b: Regex)
    ensures Show(Cat(a, b)) == Show(a) + Show(b)
  {
  }

  lemma ShowGroup(q: Regex)
    ensures Show(Group(q)) == "(" + Show(q) + ")"
  {
  }

  lemma ShowNonWildcardWords(c: Config)
    ensures Show(NonWildcardWords(c)) == NonWswText(c)
  {
    var u := c.wildcardSome;
    var before, after := NotBehind(Boundary(Start, c)), NotAhead(Boundary(End, c));
    var first, last := Group(Cat(before, Lit(u))), Cat(Lit(u), after);
    ShowBoundary(Start, c);
    ShowBoundary(End, c);
    ShowCat(before, Lit(u));
    ShowGroup(Cat(before, Lit(u)));
    ShowCat(Lit(u), after);
    assert Show(Alt(first, last)) == Show(first) + "|" + Show(last);
    ShowGroup(Alt(NotIn(u), Alt(first, last)));
  }

  lemma ShowWhole(r: Regex)
    ensures Show(Whole(r)) == Check(Show(r))
  {
    ShowAppend(r);
  }

  lemma {:induction false} ShowAppend(r: Regex)
    ensures Show(Append(r, End)) == Show(r) + "$"
  {
    match r
    case Cat(a, b) =>
      ShowAppend(b);
      ShowCat(a, Append(b, End));
      ShowCat(a, b);
      assert Show(a) + (Show(b) + "$") == Show(a) + Show(b) + "$";
    case _ => ShowCat(r, End);
  }

  lemma ShowTwoChecks(a: Regex, b: Regex)
    ensures Show(Cat(Start, Cat(Whole(a), Whole(b)))) == "^" + (Check(Show(a)) + Check(Show(b)))
  {
    ShowWhole(a);
    ShowWhole(b);
    ShowCat(Whole(a), Whole(b));
    ShowCat(Start, Cat(Whole(a), Whole(b)));
  }

  lemma ShowThreeChecks(a: Regex, b: Regex, d: Regex)
    ensures Show(Cat(Start, Cat(Whole(a), Cat(Whole(b), Whole(d))))) ==
            "^" + (Check(Show(a)) + (Check(Show(b)) + Check(Show(d))))
  {
    ShowWhole(a);
    ShowWhole(b);
    ShowWhole(d);
    ShowCat(Whole(b), Whole(d));
    ShowCat(Whole(a), Cat(Whole(b), Whole(d)));
    ShowCat(Start, Cat(Whole(a), Cat(Whole(b), Whole(d))));
  }

  lemma ShowWordLimit(c: Config)
    requires c.Valid()
    ensures Show(Separated(NonSeps(c), Lit(c.separator), c.maxWords - 1)) == ReMaxWords(c)
  {
    ShowSeparated(NonSeps(c), Lit(c.separator), c.maxWords - 1);
    hide Separated;
    assert Show(NonSeps(c)) == ("[^" + Escaped(c.separator) + "]") + "*";
  }

  lemma ShowLimits(c: Config)
    requires c.Valid()
    ensures Show(Separated(NonSeps(c), Lit(c.separator), c.maxWords - 1)) == ReMaxWords(c)
    ensures Show(Separated(NonWildcardWords(c), WildcardWord(c), c.maxWildcardSomes)) == ReMaxWildcardSomes(c)
  {
    hide Show, Separated, NonSeps, NonWildcardWords, WildcardWord, NonWswText, WswText, UpToText, ReMaxWords;
    ShowWordLimit(c);
    ShowWildcardWord(c);
    ShowNonWildcardWords(c);
    ShowSeparated(NonWildcardWords(c), WildcardWord(c), c.maxWildcardSomes);
  }
  /** The text the source builds is this syntax, written out. */
  lemma PatternText(c: Config)
    requires c.Valid()
    ensures GetTopicPattern(c) == Show(TopicRegex(c))
  {
    hide Show, Whole, Separated, NonSeps, NonWildcardWords, WildcardWord, ReMaxWords, ReMaxWildcardSomes, UpToText;
    var words := Separated(NonSeps(c), Lit(c.separator), c.maxWords - 1);
    var wildcards := Separated(NonWildcardWords(c), WildcardWord(c), c.maxWildcardSomes);
    ShowLimits(c);
    if c.maxTopicLength.None? {
      ShowTwoChecks(words, wildcards);
    } else {
      var rep := Repeat(Dot, Bounded(c.maxTopicLength.value));
      ShowThreeChecks(words, wildcards, rep);
      ShowLength(c.maxTopicLength.value);
    }
  }

  lemma ShowLength(n: nat)
    ensures Show(Repeat(Dot, Bounded(n))) == "." + UpToText(n)
  {
  }
}
