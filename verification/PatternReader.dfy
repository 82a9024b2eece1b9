/** A reader of the concrete notation of regular expressions: the productions of section 22.2.1 of ECMA-262 that topic
    patterns use. */
module PatternReader {
  import opened Numerals
  import opened Pattern
  import opened Regex
  import opened Wrappers

  datatype Reading<+T> = Bad | Good(value: T, rest: string)

  predicate Starts(s: string, c: char) { s != "" && s[0] == c }

  // A RegExpUnicodeEscapeSequence of four digits.
  function ReadUnit(s: string): (r: Reading<CodeUnit>)
    ensures r.Good? ==> |r.rest| < |s|
  {
    if |s| < 2 || s[0] != '\\' || s[1] != 'u' || Hex4Value(s[2..]) < 0 then Bad else Good(Hex4Value(s[2..]), s[6..])
  }

  function ReadDisjunction(s: string): (r: Reading<Regex>)
    ensures r.Good? ==> |r.rest| < |s|
    decreases |s|, 4
  {
    var first := ReadAlternative(s);
    if first.Bad? || !Starts(first.rest, '|') then first
    else
      var others := ReadDisjunction(first.rest[1..]);
      if others.Bad? then Bad else Good(Alt(first.value, others.value), others.rest)
  }

  // One term or more: an empty alternative is not read.
  function ReadAlternative(s: string): (r: Reading<Regex>)
    ensures r.Good? ==> |r.rest| < |s|
    decreases |s|, 3
  {
    var first := ReadTerm(s);
    if first.Bad? || first.rest == "" || first.rest[0] == '|' || first.rest[0] == ')' then first
    else
      var others := ReadAlternative(first.rest);
      if others.Bad? then Bad else Good(Cat(first.value, others.value), others.rest)
  }

  // An assertion, or an atom with or without a quantifier.
  function ReadTerm(s: string): (r: Reading<Regex>)
    ensures r.Good? ==> |r.rest| < |s|
    decreases |s|, 2
  {
    if Starts(s, '^') then Good(Start, s[1..])
    else if Starts(s, '$') then Good(End, s[1..])
    else if "(?=" <= s then Made((q: Regex) => Ahead(q), ReadClosed(s, 3))
    else if "(?!" <= s then Made((q: Regex) => NotAhead(q), ReadClosed(s, 3))
    else if "(?<=" <= s then Made((q: Regex) => Behind(q), ReadClosed(s, 4))
    else if "(?<!" <= s then Made((q: Regex) => NotBehind(q), ReadClosed(s, 4))
    else
      var atom := ReadAtom(s);
      if atom.Bad? then Bad else ReadQuantifier(atom.value, atom.rest)
  }

  function Made(f: Regex -> Regex, r: Reading<Regex>): Reading<Regex> {
    if r.Bad? then Bad else Good(f(r.value), r.rest)
  }

  // A disjunction after an opening of some length, and the parenthesis that closes it.
  function ReadClosed(s: string, opening: nat): (r: Reading<Regex>)
    requires 0 < opening <= |s|
    ensures r.Good? ==> |r.rest| < |s|
    decreases |s|, 0
  {
    var inner := ReadDisjunction(s[opening..]);
    if inner.Bad? || !Starts(inner.rest, ')') then Bad else Good(inner.value, inner.rest[1..])
  }

  function ReadAtom(s: string): (r: Reading<Regex>)
    ensures r.Good? ==> |r.rest| < |s|
    decreases |s|, 1
  {
    if Starts(s, '.') then Good(Dot, s[1..])
    else if Starts(s, '(') && !("(?" <= s) then Made((q: Regex) => Group(q), ReadClosed(s, 1))
    else if "[^" <= s then
      var u := ReadUnit(s[2..]);
      if u.Bad? || !Starts(u.rest, ']') then Bad else Good(NotIn(u.value), u.rest[1..])
    else
      var u := ReadUnit(s);
      if u.Bad? then Bad else Good(Lit(u.value), u.rest)
  }

  function ReadQuantifier(q: Regex, s: string): (r: Reading<Regex>)
    ensures r.Good? ==> |r.rest| <= |s|
  {
    if Starts(s, '*') then Good(Repeat(q, Unbounded), s[1..])
    else if "{0," <= s then
      var digits := s[3..];
      var n := DigitsLength(digits);
      if n == 0 || !Starts(digits[n..], '}') then Bad
      else Good(Repeat(q, Bounded(DecimalValue(digits[..n]))), digits[n..][1..])
    else Good(q, s)
  }

  // A whole pattern.
  function Read(s: string): Option<Regex> {
    var r := ReadDisjunction(s);
    if r.Good? && r.rest == "" then Some(r.value) else None
  }

  // ---- Syntax as it is read ----

  predicate IsAtom(r: Regex)
    decreases r, 0
  {
    r.Lit? || r.NotIn? || r.Dot? || (r.Group? && IsDisjunction(r.r))
  }

  predicate IsTerm(r: Regex)
    decreases r, 1
  {
    || r.Start? || r.End?
    || ((r.Ahead? || r.NotAhead? || r.Behind? || r.NotBehind?) && IsDisjunction(r.r))
    || (r.Repeat? && IsAtom(r.r))
    || IsAtom(r)
  }

  predicate IsAlternative(r: Regex)
    decreases r, 2
  {
    if r.Cat? then IsTerm(r.a) && IsAlternative(r.b) else IsTerm(r)
  }

  predicate IsDisjunction(r: Regex)
    decreases r, 3
  {
    if r.Alt? then IsAlternative(r.a) && IsDisjunction(r.b) else IsAlternative(r)
  }

  lemma Widened(r: Regex)
    ensures IsAtom(r) ==> IsTerm(r)
    ensures IsTerm(r) ==> IsAlternative(r)
    ensures IsAlternative(r) ==> IsDisjunction(r)
  {
    assert IsAtom(r) ==> !r.Cat? && !r.Alt?;
    assert IsTerm(r) ==> !r.Cat? && !r.Alt?;
  }

  // What a term begins with is no quantifier, bar or closing parenthesis.
  predicate Opens(c: char) { c == '^' || c == '$' || c == '(' || c == '\\' || c == '[' || c == '.' }

  lemma {:induction false} Opening(r: Regex)
    requires IsDisjunction(r)
    ensures Show(r) != "" && Opens(Show(r)[0])
  {
    if r.Alt? || r.Cat? {
      Widened(r.a);
      Opening(r.a);
    } else if r.Repeat? {
      assert !IsAtom(r) && IsTerm(r);
      assert IsAtom(r.r);
      Widened(r.r);
      Opening(r.r);
    }
  }

  lemma UnitBack(u: CodeUnit, rest: string)
    ensures ReadUnit(Escaped(u) + rest) == Good(u, rest)
  {
    Hex4RoundTrip(u, rest);
    var s := Escaped(u) + rest;
    assert s[2..] == Hex4(u) + rest && s[6..] == rest && s[0] == '\\' && s[1] == 'u';
  }

  lemma ClosedBack(opening: string, q: Regex, rest: string)
    requires opening != "" && ReadDisjunction(Show(q) + (")" + rest)) == Good(q, ")" + rest)
    ensures ReadClosed(opening + Show(q) + ")" + rest, |opening|) == Good(q, rest)
  {
    hide Show, ReadDisjunction;
    AfterOpening(opening, Show(q), rest);
  }

  lemma AfterOpening(opening: string, inner: string, rest: string)
    ensures (opening + inner + ")" + rest)[|opening|..] == inner + (")" + rest) && (")" + rest)[1..] == rest
  {
  }

  lemma NotInBack(u: CodeUnit, rest: string)
    ensures ReadAtom(Show(NotIn(u)) + rest) == Good(NotIn(u), rest)
  {
    hide ReadUnit, Escaped;
    UnitBack(u, "]" + rest);
    var s := "[^" + Escaped(u) + "]" + rest;
    assert s[..2] == "[^" && s[2..] == Escaped(u) + ("]" + rest);
    assert ("]" + rest)[1..] == rest;
  }

  lemma GroupBack(q: Regex, rest: string)
    requires IsDisjunction(q) && ReadDisjunction(Show(q) + (")" + rest)) == Good(q, ")" + rest)
    ensures ReadAtom(Show(Group(q)) + rest) == Good(Group(q), rest)
  {
    hide ReadDisjunction, IsDisjunction;
    ClosedBack("(", q, rest);
    Opening(q);
    var s := "(" + Show(q) + ")" + rest;
    assert s[0] == '(' && s[1] == Show(q)[0];
  }

  lemma {:induction false} AtomBack(r: Regex, rest: string)
    requires IsAtom(r)
    ensures ReadAtom(Show(r) + rest) == Good(r, rest)
    decreases r, 0
  {
    match r
    case Lit(u) =>
      UnitBack(u, rest);
      assert (Show(r) + rest)[0] == '\\';
    case NotIn(u) => NotInBack(u, rest);
    case Dot => assert (Show(r) + rest)[1..] == rest;
    case Group(q) =>
      hide ReadAtom, IsDisjunction;
      DisjunctionBack(q, ")" + rest);
      GroupBack(q, rest);
  }

  lemma QuantifierBack(q: Regex, max: Limit, rest: string)
    ensures ReadQuantifier(q, (if max.Unbounded? then "*" else UpToText(max.n)) + rest) == Good(Repeat(q, max), rest)
  {
    if max.Unbounded? {
      assert ("*" + rest)[1..] == rest;
    } else {
      var d := Decimal(max.n);
      var s := UpToText(max.n) + rest;
      assert s[..3] == "{0," && s[3..] == d + ("}" + rest);
      DigitsOf(d, "}" + rest);
      assert (d + ("}" + rest))[..|d|] == d && (d + ("}" + rest))[|d|..] == "}" + rest;
      assert ("}" + rest)[1..] == rest;
      DecimalRoundTrip(max.n);
    }
  }

  // What may follow a term.
  predicate Follows(rest: string) { rest == "" || Opens(rest[0]) || rest[0] == '|' || rest[0] == ')' }

  // An assertion that looks around is told by its opening.
  lemma LookBack(opening: string, q: Regex, rest: string)
    requires opening in ["(?=", "(?!", "(?<=", "(?<!"] && IsDisjunction(q)
    requires ReadDisjunction(Show(q) + (")" + rest)) == Good(q, ")" + rest)
    ensures ReadTerm(opening + Show(q) + ")" + rest) ==
      Good(if opening == "(?=" then Ahead(q) else if opening == "(?!" then NotAhead(q)
           else if opening == "(?<=" then Behind(q) else NotBehind(q), rest)
  {
    var s := opening + Show(q) + ")" + rest;
    ClosedBack(opening, q, rest);
    assert s[..|opening|] == opening;
    assert s[0] == '(' && s[1] == '?' && s[2] == opening[2] && (|opening| == 4 ==> s[3] == opening[3]);
  }

  lemma Regroup(a: string, b: string, c: string)
    ensures a + b + c == a + (b + c)
  {
  }

  lemma PlainBack(q: Regex, quantifier: string, rest: string, r: Regex)
    requires IsAtom(q) && ReadAtom(Show(q) + (quantifier + rest)) == Good(q, quantifier + rest)
    requires ReadQuantifier(q, quantifier + rest) == Good(r, rest)
    ensures ReadTerm(Show(q) + quantifier + rest) == Good(r, rest)
  {
    hide Show, IsAtom, ReadAtom, ReadQuantifier, ReadClosed;
    Regroup(Show(q), quantifier, rest);
    NoAssertion(q, quantifier + rest);
  }

  lemma NoAssertion(q: Regex, rest: string)
    requires IsAtom(q)
    ensures var s := Show(q) + rest; s != "" && s[0] != '^' && s[0] != '$' && !("(?" <= s)
  {
    if q.Group? {
      Opening(q.r);
      assert (Show(q) + rest)[1] == Show(q.r)[0];
    }
  }

  lemma NoQuantifier(q: Regex, rest: string)
    requires Follows(rest)
    ensures ReadQuantifier(q, rest) == Good(q, rest)
  {
  }

  lemma EdgeBack(r: Regex, rest: string)
    requires r.Start? || r.End?
    ensures ReadTerm(Show(r) + rest) == Good(r, rest)
  {
    assert (Show(r) + rest)[0] == Show(r)[0] && (Show(r) + rest)[1..] == rest;
  }

  lemma {:induction false} TermBack(r: Regex, rest: string)
    requires IsTerm(r) && Follows(rest)
    ensures ReadTerm(Show(r) + rest) == Good(r, rest)
    decreases r, 1
  {
    hide ReadTerm, IsDisjunction;
    if IsAtom(r) {
      AtomBack(r, rest);
      assert "" + rest == rest && Show(r) + "" == Show(r);
      NoQuantifier(r, rest);
      PlainBack(r, "", rest, r);
    } else if r.Repeat? {
      hide UpToText;
      var quantifier := if r.max.Unbounded? then "*" else UpToText(r.max.n);
      AtomBack(r.r, quantifier + rest);
      QuantifierBack(r.r, r.max, rest);
      PlainBack(r.r, quantifier, rest, r);
    } else if r.Start? || r.End? {
      EdgeBack(r, rest);
    } else {
      DisjunctionBack(r.r, ")" + rest);
      var open := if r.Ahead? then "(?=" else if r.NotAhead? then "(?!" else if r.Behind? then "(?<=" else "(?<!";
      LookBack(open, r.r, rest);
    }
  }

  lemma {:induction false} AlternativeBack(r: Regex, rest: string)
    requires IsAlternative(r) && (rest == "" || rest[0] == '|' || rest[0] == ')')
    ensures ReadAlternative(Show(r) + rest) == Good(r, rest)
    decreases r, 2
  {
    hide ReadTerm, IsTerm, ReadAlternative, IsDisjunction;
    if r.Cat? {
      var others := Show(r.b) + rest;
      Widened(r.b);
      Opening(r.b);
      assert others[0] == Show(r.b)[0];
      TermBack(r.a, others);
      AlternativeBack(r.b, rest);
      ThenBack(r.a, others, r.b, rest);
      Regroup(Show(r.a), Show(r.b), rest);
    } else {
      TermBack(r, rest);
      LastBack(r, rest);
    }
  }

  lemma ThenBack(a: Regex, others: string, b: Regex, rest: string)
    requires ReadTerm(Show(a) + others) == Good(a, others) && others != "" && Opens(others[0])
    requires ReadAlternative(others) == Good(b, rest)
    ensures ReadAlternative(Show(a) + others) == Good(Cat(a, b), rest)
  {
    hide Show, ReadTerm;
  }

  lemma LastBack(r: Regex, rest: string)
    requires ReadTerm(Show(r) + rest) == Good(r, rest) && (rest == "" || rest[0] == '|' || rest[0] == ')')
    ensures ReadAlternative(Show(r) + rest) == Good(r, rest)
  {
    hide Show, ReadTerm;
  }

  lemma {:induction false} DisjunctionBack(r: Regex, rest: string)
    requires IsDisjunction(r) && (rest == "" || rest[0] == ')')
    ensures ReadDisjunction(Show(r) + rest) == Good(r, rest)
    decreases r, 3
  {
    hide ReadAlternative, IsAlternative;
    if r.Alt? {
      var b := Show(r.b) + rest;
      AlternativeBack(r.a, "|" + b);
      DisjunctionBack(r.b, rest);
      BarBack(r.a, "|" + b, b, r.b, rest);
      BarText(Show(r.a), Show(r.b), rest);
    } else {
      AlternativeBack(r, rest);
    }
  }

  lemma BarText(a: string, b: string, rest: string)
    ensures a + "|" + b + rest == a + ("|" + (b + rest))
  {
  }

  lemma BarBack(a: Regex, others: string, second: string, b: Regex, rest: string)
    requires ReadAlternative(Show(a) + others) == Good(a, others) && others == "|" + second
    requires ReadDisjunction(second) == Good(b, rest)
    ensures ReadDisjunction(Show(a) + others) == Good(Alt(a, b), rest)
  {
    hide ReadAlternative, Show;
    assert others[1..] == second;
  }

  /** Syntax in the shape of the grammar is read back from what it is written as. */
  lemma ShowThenRead(r: Regex)
    requires IsDisjunction(r)
    ensures Read(Show(r)) == Some(r)
  {
    DisjunctionBack(r, "");
    assert Show(r) + "" == Show(r);
  }

  lemma WholeShape(gap: Regex, mark: Regex, n: nat)
    requires gap.Repeat? && IsTerm(gap) && IsTerm(mark)
    ensures IsTerm(Whole(Separated(gap, mark, n)))
  {
    Widened(mark);
    Widened(gap);
    Widened(End);
    assert IsAlternative(Cat(mark, gap));
    Widened(Cat(mark, gap));
    var rep := Repeat(Group(Cat(mark, gap)), Bounded(n));
    assert IsTerm(rep);
    assert IsAlternative(Cat(rep, End));
    assert Append(Separated(gap, mark, n), End) == Cat(gap, Cat(rep, End));
    assert IsAlternative(Cat(gap, Cat(rep, End)));
    Widened(Cat(gap, Cat(rep, End)));
  }

  lemma BoundaryShape(edge: Regex, c: Config)
    requires edge.Start? || edge.End?
    ensures IsAtom(Boundary(edge, c))
    ensures IsTerm(Ahead(Boundary(edge, c))) && IsTerm(NotAhead(Boundary(edge, c)))
    ensures IsTerm(Behind(Boundary(edge, c))) && IsTerm(NotBehind(Boundary(edge, c)))
  {
    Widened(edge);
    Widened(Lit(c.separator));
    assert IsDisjunction(Alt(edge, Lit(c.separator)));
    Widened(Boundary(edge, c));
  }

  lemma WildcardShape(c: Config)
    ensures IsTerm(WildcardWord(c)) && IsTerm(NonWildcardWords(c))
  {
    var u := Lit(c.wildcardSome);
    BoundaryShape(Start, c);
    BoundaryShape(End, c);
    Widened(u);
    var after := Ahead(Boundary(End, c));
    Widened(after);
    assert IsAlternative(Cat(u, after));
    var word := Cat(Behind(Boundary(Start, c)), Cat(u, after));
    assert IsAlternative(word);
    Widened(word);
    var middle := Cat(NotBehind(Boundary(Start, c)), u);
    assert IsAlternative(middle);
    Widened(middle);
    Widened(Group(middle));
    Widened(NotAhead(Boundary(End, c)));
    var last := Cat(u, NotAhead(Boundary(End, c)));
    assert IsAlternative(last);
    Widened(last);
    Widened(NotIn(c.wildcardSome));
    assert IsDisjunction(Alt(Group(middle), last));
    assert IsDisjunction(Alt(NotIn(c.wildcardSome), Alt(Group(middle), last)));
  }

  lemma TopicShape(c: Config)
    requires c.Valid()
    ensures IsDisjunction(TopicRegex(c))
  {
    WildcardShape(c);
    WholeShape(NonSeps(c), Lit(c.separator), c.maxWords - 1);
    WholeShape(NonWildcardWords(c), WildcardWord(c), c.maxWildcardSomes);
    var words := Whole(Separated(NonSeps(c), Lit(c.separator), c.maxWords - 1));
    var wildcards := Whole(Separated(NonWildcardWords(c), WildcardWord(c), c.maxWildcardSomes));
    Widened(wildcards);
    var rest := wildcards;
    if c.maxTopicLength.Some? {
      LengthShape(c);
      Widened(LengthCheck(c));
      rest := Cat(wildcards, LengthCheck(c));
    }
    assert IsAlternative(rest);
    assert IsAlternative(Cat(words, rest));
    assert IsAlternative(Cat(Start, Cat(words, rest)));
    Widened(TopicRegex(c));
  }

  lemma LengthShape(c: Config)
    requires c.maxTopicLength.Some?
    ensures IsTerm(LengthCheck(c))
  {
    var rep := Repeat(Dot, Bounded(c.maxTopicLength.value));
    Widened(End);
    assert IsTerm(rep);
    assert Append(rep, End) == Cat(rep, End);
    assert IsAlternative(Cat(rep, End));
    Widened(Cat(rep, End));
  }

  /** Read by the grammar of regular expressions, the text the source builds is the syntax whose meaning is proved. */
  lemma PatternIsRead(c: Config)
    requires c.Valid()
    ensures Read(GetTopicPattern(c)) == Some(TopicRegex(c))
  {
    PatternText(c);
    TopicShape(c);
    ShowThenRead(TopicRegex(c));
  }
}
