/** The part of ECMAScript regular expressions that topic patterns use, over UTF-16 code units.
    `Run` is the backtracking matcher of ECMA-262 section 22.2.2 (continuations, a direction, and the
    empty-iteration check of RepeatMatcher).  `Spans` is a relation between positions.  `RunFindsSpans`
    proves that the two agree. */
module Regex {
  type CodeUnit = u: int | 0 <= u < 0x10000
  type Text = seq<CodeUnit>

  datatype Limit = Bounded(n: nat) | Unbounded {
    predicate Zero() { this == Bounded(0) }

    function Less(): Limit
      requires !Zero()
    {
      if Unbounded? then this else Bounded(n - 1)
    }
  }

  datatype Regex =
    | Lit(u: CodeUnit)
    | NotIn(u: CodeUnit)
    | Dot
    | Start
    | End
    | Group(r: Regex)
    | Cat(a: Regex, b: Regex)
    | Alt(a: Regex, b: Regex)
    | Repeat(r: Regex, max: Limit)
    | Ahead(r: Regex)
    | NotAhead(r: Regex)
    | Behind(r: Regex)
    | NotBehind(r: Regex)

  type Cont = nat -> bool

  predicate LineTerminator(u: CodeUnit) {
    u == 0x0A || u == 0x0D || u == 0x2028 || u == 0x2029
  }

  // How many code units are left to read in the direction of travel.
  function Left(s: Text, i: nat, fwd: bool): nat
    requires i <= |s|
  {
    if fwd then |s| - i else i
  }

  // One code unit: accepted when `ok` holds of the unit next to `i`.
  predicate RunUnit(ok: CodeUnit -> bool, s: Text, i: nat, fwd: bool, k: Cont)
    requires i <= |s|
  {
    if fwd then i < |s| && ok(s[i]) && k(i + 1) else i > 0 && ok(s[i - 1]) && k(i - 1)
  }

  predicate Run(r: Regex, s: Text, i: nat, fwd: bool, k: Cont)
    requires i <= |s|
    decreases r, 0, 0
  {
    match r
    case Lit(u) => RunUnit((x: CodeUnit) => x == u, s, i, fwd, k)
    case NotIn(u) => RunUnit((x: CodeUnit) => x != u, s, i, fwd, k)
    case Dot => RunUnit((x: CodeUnit) => !LineTerminator(x), s, i, fwd, k)
    case Start => i == 0 && k(i)
    case End => i == |s| && k(i)
    case Group(q) => Run(q, s, i, fwd, k)
    case Cat(a, b) =>
      if fwd then Run(a, s, i, fwd, Then(b, s, fwd, k)) else Run(b, s, i, fwd, Then(a, s, fwd, k))
    case Alt(a, b) => Run(a, s, i, fwd, k) || Run(b, s, i, fwd, k)
    case Repeat(q, max) => RunRepeat(q, max, s, i, fwd, k)
    case Ahead(q) => Run(q, s, i, true, (j: nat) => true) && k(i)
    case NotAhead(q) => !Run(q, s, i, true, (j: nat) => true) && k(i)
    case Behind(q) => Run(q, s, i, false, (j: nat) => true) && k(i)
    case NotBehind(q) => !Run(q, s, i, false, (j: nat) => true) && k(i)
  }

  function Then(r: Regex, s: Text, fwd: bool, k: Cont): Cont
    decreases r, 1, 0
  {
    (j: nat) => j <= |s| && Run(r, s, j, fwd, k)
  }

  predicate RunRepeat(q: Regex, max: Limit, s: Text, i: nat, fwd: bool, k: Cont)
    requires i <= |s|
    decreases q, Left(s, i, fwd) + 1, 1
  {
    if max.Zero() then k(i)
    else Run(q, s, i, fwd, Again(q, max, s, i, fwd, k)) || k(i)
  }

  // Continue a repetition after one iteration that began at `i`; an iteration that read nothing fails.
  function Again(q: Regex, max: Limit, s: Text, i: nat, fwd: bool, k: Cont): Cont
    requires i <= |s| && !max.Zero()
    decreases q, Left(s, i, fwd) + 1, 0
  {
    (j: nat) => j <= |s| && Left(s, j, fwd) < Left(s, i, fwd) && RunRepeat(q, max.Less(), s, j, fwd, k)
  }

  // RegExp.prototype.test: some start position matches.
  predicate Test(r: Regex, s: Text) {
    exists i: nat | i <= |s| :: MatchesAt(r, s, i)
  }

  predicate MatchesAt(r: Regex, s: Text, i: nat)
    requires i <= |s|
  {
    Run(r, s, i, true, (j: nat) => true)
  }

  /** `r` can match exactly the code units from `lo` to `hi`. */
  ghost predicate Spans(r: Regex, s: Text, lo: nat, hi: nat)
    requires lo <= hi <= |s|
    decreases r, 0
  {
    match r
    case Lit(u) => hi == lo + 1 && s[lo] == u
    case NotIn(u) => hi == lo + 1 && s[lo] != u
    case Dot => hi == lo + 1 && !LineTerminator(s[lo])
    case Start => lo == hi == 0
    case End => lo == hi == |s|
    case Group(q) => Spans(q, s, lo, hi)
    case Cat(a, b) => exists m: nat | lo <= m <= hi :: Spans(a, s, lo, m) && Spans(b, s, m, hi)
    case Alt(a, b) => Spans(a, s, lo, hi) || Spans(b, s, lo, hi)
    case Repeat(q, max) => RepSpans(q, max, s, lo, hi)
    case Ahead(q) => lo == hi && exists h: nat | lo <= h <= |s| :: Spans(q, s, lo, h)
    case NotAhead(q) => lo == hi && !exists h: nat | lo <= h <= |s| :: Spans(q, s, lo, h)
    case Behind(q) => lo == hi && exists l: nat | l <= lo :: Spans(q, s, l, lo)
    case NotBehind(q) => lo == hi && !exists l: nat | l <= lo :: Spans(q, s, l, lo)
  }

  ghost predicate RepSpans(q: Regex, max: Limit, s: Text, lo: nat, hi: nat)
    requires lo <= hi <= |s|
    decreases q, hi - lo + 1
  {
    lo == hi || (!max.Zero() && exists m: nat | lo < m <= hi :: Spans(q, s, lo, m) && RepSpans(q, max.Less(), s, m, hi))
  }

  // One unfolding each, for reasoning about concrete patterns.
  lemma GroupSpans(q: Regex, s: Text, lo: nat, hi: nat)
    requires lo <= hi <= |s|
    ensures Spans(Group(q), s, lo, hi) == Spans(q, s, lo, hi)
  {
  }

  lemma AltSpans(a: Regex, b: Regex, s: Text, lo: nat, hi: nat)
    requires lo <= hi <= |s|
    ensures Spans(Alt(a, b), s, lo, hi) == (Spans(a, s, lo, hi) || Spans(b, s, lo, hi))
  {
  }

  lemma CatSplit(a: Regex, b: Regex, s: Text, lo: nat, hi: nat) returns (m: nat)
    requires lo <= hi <= |s| && Spans(Cat(a, b), s, lo, hi)
    ensures lo <= m <= hi && Spans(a, s, lo, m) && Spans(b, s, m, hi)
  {
    m :| lo <= m <= hi && Spans(a, s, lo, m) && Spans(b, s, m, hi);
  }

  lemma CatJoin(a: Regex, b: Regex, s: Text, lo: nat, m: nat, hi: nat)
    requires lo <= m <= hi <= |s| && Spans(a, s, lo, m) && Spans(b, s, m, hi)
    ensures Spans(Cat(a, b), s, lo, hi)
  {
  }

  lemma RepHead(q: Regex, max: Limit, s: Text, lo: nat, hi: nat) returns (m: nat)
    requires lo < hi <= |s| && RepSpans(q, max, s, lo, hi)
    ensures lo < m <= hi && !max.Zero() && Spans(q, s, lo, m) && RepSpans(q, max.Less(), s, m, hi)
  {
    m :| lo < m <= hi && Spans(q, s, lo, m) && RepSpans(q, max.Less(), s, m, hi);
  }

  // The positions that matching `r` from `i` can reach, in either direction.
  ghost predicate Reaches(r: Regex, s: Text, i: nat, fwd: bool, j: nat)
    requires i <= |s|
  {
    if fwd then i <= j <= |s| && Spans(r, s, i, j) else j <= i && Spans(r, s, j, i)
  }

  // A repetition can also be taken apart at its last iteration, which is how it is matched backwards.
  lemma {:induction false} RepSnoc(q: Regex, max: Limit, s: Text, lo: nat, m: nat, hi: nat)
    requires lo <= m < hi <= |s| && !max.Zero()
    requires RepSpans(q, max.Less(), s, lo, m) && Spans(q, s, m, hi)
    ensures RepSpans(q, max, s, lo, hi)
    decreases hi - lo
  {
    if lo == m {
      assert RepSpans(q, max.Less(), s, hi, hi);
    } else {
      var p: nat :| lo < p <= m && Spans(q, s, lo, p) && RepSpans(q, max.Less().Less(), s, p, m);
      RepSnoc(q, max.Less(), s, p, m, hi);
    }
  }

  lemma {:induction false} RepLast(q: Regex, max: Limit, s: Text, lo: nat, hi: nat) returns (m: nat)
    requires lo < hi <= |s| && RepSpans(q, max, s, lo, hi)
    ensures lo <= m < hi && !max.Zero() && RepSpans(q, max.Less(), s, lo, m) && Spans(q, s, m, hi)
    decreases hi - lo
  {
    var p: nat :| lo < p <= hi && Spans(q, s, lo, p) && RepSpans(q, max.Less(), s, p, hi);
    if p == hi {
      m := lo;
    } else {
      m := RepLast(q, max.Less(), s, p, hi);
    }
  }

  /** The backtracking matcher succeeds exactly when the relation offers an end position that the
      continuation accepts. */
  lemma {:induction false} RunFindsSpans(r: Regex, s: Text, i: nat, fwd: bool, k: Cont)
    requires i <= |s|
    ensures Run(r, s, i, fwd, k) <==> exists j: nat :: Reaches(r, s, i, fwd, j) && k(j)
    decreases r, 1
  {
    match r
    case Lit(u) => RunUnitReaches(r, s, i, fwd, k);
    case NotIn(u) => RunUnitReaches(r, s, i, fwd, k);
    case Dot => RunUnitReaches(r, s, i, fwd, k);
    case Start =>
      assert Run(r, s, i, fwd, k) ==> Reaches(r, s, i, fwd, i);
    case End =>
      assert Run(r, s, i, fwd, k) ==> Reaches(r, s, i, fwd, i);
    case Group(q) =>
      RunFindsSpans(q, s, i, fwd, k);
      forall j: nat ensures Reaches(r, s, i, fwd, j) == Reaches(q, s, i, fwd, j) {}
    case Alt(a, b) =>
      RunFindsSpans(a, s, i, fwd, k);
      RunFindsSpans(b, s, i, fwd, k);
      forall j: nat ensures Reaches(r, s, i, fwd, j) == (Reaches(a, s, i, fwd, j) || Reaches(b, s, i, fwd, j)) {}
    case Cat(a, b) => RunCat(a, b, s, i, fwd, k);
    case Repeat(q, max) =>
      RunRepeatFindsSpans(q, max, s, i, fwd, k);
    case Ahead(q) => RunLook(r, q, s, i, fwd, k, true);
    case NotAhead(q) => RunLook(r, q, s, i, fwd, k, true);
    case Behind(q) => RunLook(r, q, s, i, fwd, k, false);
    case NotBehind(q) => RunLook(r, q, s, i, fwd, k, false);
  }

  lemma RunUnitReaches(r: Regex, s: Text, i: nat, fwd: bool, k: Cont)
    requires i <= |s| && (r.Lit? || r.NotIn? || r.Dot?)
    ensures Run(r, s, i, fwd, k) <==> exists j: nat :: Reaches(r, s, i, fwd, j) && k(j)
  {
    if Run(r, s, i, fwd, k) {
      var j: nat := if fwd then i + 1 else i - 1;
      assert Reaches(r, s, i, fwd, j) && k(j);
    }
  }

  lemma {:induction false} RunLook(r: Regex, q: Regex, s: Text, i: nat, fwd: bool, k: Cont, ahead: bool)
    requires i <= |s|
    requires if ahead then r == Ahead(q) || r == NotAhead(q) else r == Behind(q) || r == NotBehind(q)
    ensures Run(r, s, i, fwd, k) <==> exists j: nat :: Reaches(r, s, i, fwd, j) && k(j)
    decreases q, 2
  {
    RunFindsSpans(q, s, i, ahead, (j: nat) => true);
    var found := exists j: nat :: Reaches(q, s, i, ahead, j);
    if ahead {
      assert found <==> exists h: nat | i <= h <= |s| :: Spans(q, s, i, h) by {
        if h: nat :| i <= h <= |s| && Spans(q, s, i, h) { assert Reaches(q, s, i, true, h); }
      }
    } else {
      assert found <==> exists l: nat | l <= i :: Spans(q, s, l, i) by {
        if l: nat :| l <= i && Spans(q, s, l, i) { assert Reaches(q, s, i, false, l); }
      }
    }
    var wanted := r.Ahead? || r.Behind?;
    assert Run(r, s, i, fwd, k) == (found == wanted && k(i));
    assert Spans(r, s, i, i) == (found == wanted);
    if found == wanted { assert Reaches(r, s, i, fwd, i); }
    if j: nat :| Reaches(r, s, i, fwd, j) && k(j) { assert j == i; }
  }

  lemma {:induction false} RunCat(a: Regex, b: Regex, s: Text, i: nat, fwd: bool, k: Cont)
    requires i <= |s|
    ensures Run(Cat(a, b), s, i, fwd, k) <==> exists j: nat :: Reaches(Cat(a, b), s, i, fwd, j) && k(j)
    decreases Cat(a, b), 0, 1
  {
    if Run(Cat(a, b), s, i, fwd, k) { RunCatSound(a, b, s, i, fwd, k); }
    if j: nat :| Reaches(Cat(a, b), s, i, fwd, j) && k(j) { RunCatComplete(a, b, s, i, fwd, k, j); }
  }

  lemma {:induction false} RunCatSound(a: Regex, b: Regex, s: Text, i: nat, fwd: bool, k: Cont)
    requires i <= |s| && Run(Cat(a, b), s, i, fwd, k)
    ensures exists j: nat :: Reaches(Cat(a, b), s, i, fwd, j) && k(j)
    decreases Cat(a, b), 0, 0
  {
    var first, second := if fwd then a else b, if fwd then b else a;
    var k' := Then(second, s, fwd, k);
    RunFindsSpans(first, s, i, fwd, k');
    var m: nat :| Reaches(first, s, i, fwd, m) && k'(m);
    RunFindsSpans(second, s, m, fwd, k);
    var j: nat :| Reaches(second, s, m, fwd, j) && k(j);
    assert Reaches(Cat(a, b), s, i, fwd, j);
  }

  lemma {:induction false} RunCatComplete(a: Regex, b: Regex, s: Text, i: nat, fwd: bool, k: Cont, j: nat)
    requires i <= |s| && Reaches(Cat(a, b), s, i, fwd, j) && k(j)
    ensures Run(Cat(a, b), s, i, fwd, k)
    decreases Cat(a, b), 0, 0
  {
    var first, second := if fwd then a else b, if fwd then b else a;
    var k' := Then(second, s, fwd, k);
    var lo, hi := if fwd then i else j, if fwd then j else i;
    assert Spans(Cat(a, b), s, lo, hi);
    var m: nat :| lo <= m <= hi && Spans(a, s, lo, m) && Spans(b, s, m, hi);
    assert Reaches(second, s, m, fwd, j);
    RunFindsSpans(second, s, m, fwd, k);
    assert Reaches(first, s, i, fwd, m) && k'(m);
    RunFindsSpans(first, s, i, fwd, k');
  }

  lemma {:induction false} RunRepeatSound(q: Regex, max: Limit, s: Text, i: nat, fwd: bool, k: Cont)
    requires i <= |s| && RunRepeat(q, max, s, i, fwd, k)
    ensures exists j: nat :: Reaches(Repeat(q, max), s, i, fwd, j) && k(j)
    decreases q, Left(s, i, fwd) + 2, 0
  {
    hide Run, Reaches;
    if k(i) {
      ReachHere(q, max, s, i, fwd);
    } else {
      var k' := Again(q, max, s, i, fwd, k);
      RunFindsSpans(q, s, i, fwd, k');
      var m: nat :| Reaches(q, s, i, fwd, m) && k'(m);
      RunRepeatFindsSpans(q, max.Less(), s, m, fwd, k);
      var j: nat :| Reaches(Repeat(q, max.Less()), s, m, fwd, j) && k(j);
      ReachMore(q, max, s, i, fwd, m, j);
    }
  }

  lemma ReachHere(q: Regex, max: Limit, s: Text, i: nat, fwd: bool)
    requires i <= |s|
    ensures Reaches(Repeat(q, max), s, i, fwd, i)
  {
  }

  // One iteration that reads something, and then the rest.
  lemma ReachMore(q: Regex, max: Limit, s: Text, i: nat, fwd: bool, m: nat, j: nat)
    requires i <= |s| && !max.Zero() && m != i
    requires Reaches(q, s, i, fwd, m) && Reaches(Repeat(q, max.Less()), s, m, fwd, j)
    ensures Reaches(Repeat(q, max), s, i, fwd, j)
  {
    if !fwd { RepSnoc(q, max, s, j, m, i); }
  }

  lemma {:induction false} RunRepeatComplete(q: Regex, max: Limit, s: Text, i: nat, fwd: bool, k: Cont, j: nat)
    requires i <= |s| && Reaches(Repeat(q, max), s, i, fwd, j) && k(j) && j != i
    ensures RunRepeat(q, max, s, i, fwd, k)
    decreases q, Left(s, i, fwd) + 2, 0
  {
    var m: nat;
    assert RepSpans(q, max, s, if fwd then i else j, if fwd then j else i);
    if fwd {
      m :| i < m <= j && Spans(q, s, i, m) && RepSpans(q, max.Less(), s, m, j);
    } else {
      m := RepLast(q, max, s, j, i);
    }
    assert Reaches(Repeat(q, max.Less()), s, m, fwd, j);
    RunRepeatFindsSpans(q, max.Less(), s, m, fwd, k);
    var k' := Again(q, max, s, i, fwd, k);
    assert Reaches(q, s, i, fwd, m) && k'(m);
    RunFindsSpans(q, s, i, fwd, k');
  }

  lemma {:induction false} RunRepeatFindsSpans(q: Regex, max: Limit, s: Text, i: nat, fwd: bool, k: Cont)
    requires i <= |s|
    ensures RunRepeat(q, max, s, i, fwd, k) <==> exists j: nat :: Reaches(Repeat(q, max), s, i, fwd, j) && k(j)
    decreases q, Left(s, i, fwd) + 2, 1
  {
    if RunRepeat(q, max, s, i, fwd, k) { RunRepeatSound(q, max, s, i, fwd, k); }
    if j: nat :| Reaches(Repeat(q, max), s, i, fwd, j) && k(j) && j != i {
      RunRepeatComplete(q, max, s, i, fwd, k, j);
    }
  }
}
