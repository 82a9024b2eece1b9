/** The JSON that the server-sent-event transport writes and reads: objects of numbers, booleans and
    strings.  Writing follows JSON.stringify, reading follows RFC 8259 (section 7 for strings). */
module Json {
  import opened Wrappers
  import opened Numerals

  datatype Scalar = Num(n: nat) | Bool(b: bool) | Str(s: string)
  type Fields = seq<(string, Scalar)>
  type Object = map<string, Scalar>

  // ---- JSON.stringify ----

  function EscapeChar(c: char): string {
    if c == '\"' then "\\\""
    else if c == '\\' then "\\\\"
    else if c == 8 as char then "\\b"
    else if c == 12 as char then "\\f"
    else if c == '\n' then "\\n"
    else if c == '\r' then "\\r"
    else if c == '\t' then "\\t"
    else if c < ' ' then "\\u" + Hex4(c as int)
    else [c]
  }

  function Escape(s: string): string {
    if s == "" then "" else EscapeChar(s[0]) + Escape(s[1..])
  }

  function Quote(s: string): string { "\"" + (Escape(s) + "\"") }

  function Value(v: Scalar): string {
    match v
    case Num(n) => Decimal(n)
    case Bool(b) => if b then "true" else "false"
    case Str(s) => Quote(s)
  }

  // The members and the closing brace.
  function Members(fs: Fields): string
    requires fs != []
  {
    Quote(fs[0].0) + (":" + (Value(fs[0].1) + (if |fs| == 1 then "}" else "," + Members(fs[1..]))))
  }

  function Stringify(fs: Fields): string { "{" + (if fs == [] then "}" else Members(fs)) }

  // ---- JSON.parse ----

  datatype Parsed<+T> = Fail | Got(value: T, rest: string)

  predicate Space(c: char) { c == ' ' || c == '\t' || c == '\n' || c == '\r' }

  function SkipSpace(s: string): (r: string)
    ensures |r| <= |s|
  {
    if s != "" && Space(s[0]) then SkipSpace(s[1..]) else s
  }

  // The four digits of a Unicode escape. Those that name half of a surrogate pair are refused: characters here are
  // Unicode scalar values.
  function ParseUnicode(s: string): (p: Parsed<char>)
    ensures p.Got? ==> |p.rest| < |s|
  {
    var v := Hex4Value(s);
    if v < 0 || 0xD800 <= v < 0xE000 then Fail else Got(v as char, s[4..])
  }

  // One character of a string, or one escape; the closing quote is not a character.
  function ParseChar(s: string): (p: Parsed<char>)
    ensures p.Got? ==> |p.rest| < |s|
  {
    if s == "" || s[0] == '\"' || s[0] < ' ' then Fail
    else if s[0] != '\\' then Got(s[0], s[1..])
    else if |s| < 2 then Fail
    else match s[1]
      case '\"' => Got('\"', s[2..])
      case '\\' => Got('\\', s[2..])
      case '/' => Got('/', s[2..])
      case 'b' => Got(8 as char, s[2..])
      case 'f' => Got(12 as char, s[2..])
      case 'n' => Got('\n', s[2..])
      case 'r' => Got('\r', s[2..])
      case 't' => Got('\t', s[2..])
      case 'u' => ParseUnicode(s[2..])
      case _ => Fail
  }

  function ParseChars(s: string): (p: Parsed<string>)
    ensures p.Got? ==> |p.rest| < |s|
  {
    if s != "" && s[0] == '\"' then Got("", s[1..])
    else
      var c := ParseChar(s);
      if c.Fail? then Fail
      else
        var more := ParseChars(c.rest);
        if more.Fail? then Fail else Got([c.value] + more.value, more.rest)
  }

  function ParseString(s: string): (p: Parsed<string>)
    ensures p.Got? ==> |p.rest| < |s|
  {
    if s == "" || s[0] != '\"' then Fail else ParseChars(s[1..])
  }

  // Whole numbers only: no sign, fraction or exponent.
  function ParseNumber(s: string): (p: Parsed<Scalar>)
    ensures p.Got? ==> |p.rest| < |s|
  {
    var n := DigitsLength(s);
    if n == 0 || (n > 1 && s[0] == '0') || (n < |s| && (s[n] == '.' || s[n] == 'e' || s[n] == 'E')) then Fail
    else Got(Num(DecimalValue(s[..n])), s[n..])
  }

  function ParseValue(s: string): (p: Parsed<Scalar>)
    ensures p.Got? ==> |p.rest| < |s|
  {
    if "true" <= s then Got(Bool(true), s[4..])
    else if "false" <= s then Got(Bool(false), s[5..])
    else if s != "" && s[0] == '\"' then
      var p := ParseString(s);
      if p.Fail? then Fail else Got(Str(p.value), p.rest)
    else ParseNumber(s)
  }

  // White space and a given punctuation mark.
  function ParseMark(s: string, mark: char): (p: Parsed<()>)
    ensures p.Got? ==> |p.rest| < |s|
  {
    var t := SkipSpace(s);
    if t == "" || t[0] != mark then Fail else Got((), t[1..])
  }

  function ParseMember(s: string): (p: Parsed<(string, Scalar)>)
    ensures p.Got? ==> |p.rest| < |s|
  {
    var key := ParseString(SkipSpace(s));
    if key.Fail? then Fail
    else
      var colon := ParseMark(key.rest, ':');
      if colon.Fail? then Fail
      else
        var value := ParseValue(SkipSpace(colon.rest));
        if value.Fail? then Fail else Got((key.value, value.value), value.rest)
  }

  function ParseMembers(s: string, sofar: Object): (p: Parsed<Object>)
    decreases |s|
  {
    var m := ParseMember(s);
    if m.Fail? then Fail
    else
      var obj := sofar[m.value.0 := m.value.1];
      var close, comma := ParseMark(m.rest, '}'), ParseMark(m.rest, ',');
      if close.Got? then Got(obj, close.rest)
      else if comma.Got? then ParseMembers(comma.rest, obj)
      else Fail
  }

  function Parse(s: string): Option<Object> {
    var open := SkipSpace(s);
    if open == "" || open[0] != '{' then None
    else
      var inside := SkipSpace(open[1..]);
      var p := if inside != "" && inside[0] == '}' then Got(map[], inside[1..]) else ParseMembers(open[1..], map[]);
      if p.Got? && SkipSpace(p.rest) == "" then Some(p.value) else None
  }

  // ---- Round trip ----

  // The object that the fields denote: a repeated key keeps its last value.
  function Assigned(fs: Fields, sofar: Object): Object {
    if fs == [] then sofar else Assigned(fs[1..], sofar[fs[0].0 := fs[0].1])
  }

  lemma ShortRoundTrip(e: string, rest: string)
    requires |e| == 1 || |e| == 2
    ensures |e| == 1 && e[0] != '\"' && e[0] != '\\' && e[0] >= ' ' ==> ParseChar(e + rest) == Got(e[0], rest)
    ensures |e| == 2 && e[0] == '\\' && e[1] != 'u' && ParseChar(e).Got? ==>
      ParseChar(e + rest) == Got(ParseChar(e).value, rest)
  {
    assert (e + rest)[|e|..] == rest;
  }

  // The characters with an escape of their own, and those written as they are.
  predicate Short(c: char) { |EscapeChar(c)| <= 2 }

  lemma EscapeShape(c: char)
    ensures var e := EscapeChar(c);
      if Short(c) then
        (|e| == 1 && e[0] == c && c != '\"' && c != '\\' && c >= ' ')
        || (|e| == 2 && e[0] == '\\' && e[1] != 'u' && ParseChar(e) == Got(c, ""))
      else c < ' ' && e == "\\u" + Hex4(c as int)
  {
  }

  lemma CharRoundTrip(c: char, rest: string)
    ensures ParseChar(EscapeChar(c) + rest) == Got(c, rest)
    ensures EscapeChar(c) != "" && EscapeChar(c)[0] != '\"'
  {
    EscapeShape(c);
    hide EscapeChar, Hex4Value;
    var e := EscapeChar(c);
    if Short(c) {
      ShortRoundTrip(e, rest);
    } else {
      Hex4RoundTrip(c as int, rest);
      assert (Hex4(c as int) + rest)[4..] == rest;
      assert (e + rest)[2..] == Hex4(c as int) + rest;
    }
  }

  lemma Regroup(a: string, b: string, c: string)
    ensures a + b + c == a + (b + c)
  {
  }

  lemma ParseCharsStep(s: string, c: char, tail: string, t: string, rest: string)
    requires s != "" && s[0] != '\"' && ParseChar(s) == Got(c, tail) && ParseChars(tail) == Got(t, rest)
    ensures ParseChars(s) == Got([c] + t, rest)
  {
  }

  lemma {:induction false} CharsRoundTrip(t: string, rest: string)
    ensures ParseChars(Escape(t) + ("\"" + rest)) == Got(t, rest)
  {
    var s := Escape(t) + ("\"" + rest);
    if t == "" {
      assert s == "\"" + rest;
    } else {
      var e, tail := EscapeChar(t[0]), Escape(t[1..]) + ("\"" + rest);
      Regroup(e, Escape(t[1..]), "\"" + rest);
      CharRoundTrip(t[0], tail);
      assert s[0] == e[0];
      CharsRoundTrip(t[1..], rest);
      ParseCharsStep(s, t[0], tail, t[1..], rest);
      assert [t[0]] + t[1..] == t;
    }
  }

  lemma StringRoundTrip(t: string, rest: string)
    ensures ParseString(Quote(t) + rest) == Got(t, rest)
  {
    var s := Quote(t) + rest;
    assert s[1..] == Escape(t) + ("\"" + rest);
    CharsRoundTrip(t, rest);
  }

  lemma ValueRoundTrip(v: Scalar, rest: string)
    requires rest != "" && (rest[0] == ',' || rest[0] == '}')
    ensures ParseValue(Value(v) + rest) == Got(v, rest)
  {
    var s := Value(v) + rest;
    match v
    case Num(n) =>
      DigitsOf(Decimal(n), rest);
      DecimalRoundTrip(n);
      assert s[..|Decimal(n)|] == Decimal(n) && s[|Decimal(n)|..] == rest;
      assert IsDecimalDigit(s[0]);
    case Bool(b) =>
      if b { assert s[..4] == "true" && s[4..] == rest; } else { assert s[..5] == "false" && s[5..] == rest; }
    case Str(t) =>
      StringRoundTrip(t, rest);
      assert s[0] == '\"';
  }

  lemma MarkAt(mark: char, rest: string)
    requires !Space(mark)
    ensures ParseMark([mark] + rest, mark) == Got((), rest)
  {
    assert ([mark] + rest)[1..] == rest;
  }

  lemma MemberRoundTrip(key: string, v: Scalar, tail: string)
    requires tail != "" && (tail[0] == ',' || tail[0] == '}')
    ensures ParseMember(Quote(key) + (":" + (Value(v) + tail))) == Got((key, v), tail)
  {
    var afterColon := Value(v) + tail;
    var afterKey := ":" + afterColon;
    var s := Quote(key) + afterKey;
    assert SkipSpace(s) == s by { assert s[0] == '\"'; }
    StringRoundTrip(key, afterKey);
    MarkAt(':', afterColon);
    assert SkipSpace(afterColon) == afterColon by { ValueStart(v); assert afterColon[0] == Value(v)[0]; }
    ValueRoundTrip(v, tail);
  }

  lemma {:induction false} MembersRoundTrip(fs: Fields, sofar: Object)
    requires fs != []
    ensures ParseMembers(Members(fs), sofar) == Got(Assigned(fs, sofar), "")
  {
    var sofar' := sofar[fs[0].0 := fs[0].1];
    if |fs| == 1 {
      MemberRoundTrip(fs[0].0, fs[0].1, "}");
      MarkAt('}', "");
      assert "}" == ['}'] + "";
      assert fs[1..] == [];
    } else {
      var more := Members(fs[1..]);
      MemberRoundTrip(fs[0].0, fs[0].1, "," + more);
      MarkAt(',', more);
      assert ParseMark("," + more, '}').Fail?;
      MembersRoundTrip(fs[1..], sofar');
    }
  }

  lemma ValueStart(v: Scalar)
    ensures Value(v) != "" && !Space(Value(v)[0])
  {
    if v.Num? { assert IsDecimalDigit(Value(v)[0]); }
  }

  lemma MembersStart(fs: Fields)
    requires fs != []
    ensures Members(fs) != "" && Members(fs)[0] == '\"'
  {
  }

  lemma ParseOpened(text: string)
    requires text != "" && text[0] == '\"'
    ensures Parse("{" + text) ==
      var p := ParseMembers(text, map[]);
      if p.Got? && SkipSpace(p.rest) == "" then Some(p.value) else None
  {
    assert ("{" + text)[1..] == text;
  }

  /** Reading what was written gives the object back, whatever the strings contain. */
  lemma RoundTrip(fs: Fields)
    ensures Parse(Stringify(fs)) == Some(Assigned(fs, map[]))
  {
    var s := Stringify(fs);
    if fs == [] {
      assert s == "{}";
      assert s[1..] == "}" && s[1..][1..] == "";
    } else {
      MembersStart(fs);
      MembersRoundTrip(fs, map[]);
      ParseOpened(Members(fs));
    }
  }

  // Written JSON is one line.
  ghost predicate OneLine(s: string) {
    forall i :: 0 <= i < |s| ==> s[i] != '\n' && s[i] != '\r'
  }

  lemma {:induction false} EscapeOneLine(s: string)
    ensures OneLine(Escape(s))
  {
    if s != "" {
      hide EscapeChar;
      EscapeOneLine(s[1..]);
      CharOneLine(s[0]);
    }
  }

  lemma CharOneLine(c: char)
    ensures OneLine(EscapeChar(c))
  {
    hide Hex4;
    if c < ' ' { HexOneLine(c as int); }
  }

  lemma HexOneLine(u: nat)
    requires u < 0x10000
    ensures OneLine(Hex4(u))
  {
    DigitOneLine(u / 0x1000);
    DigitOneLine(u / 0x100 % 16);
    DigitOneLine(u / 0x10 % 16);
    DigitOneLine(u % 16);
  }

  lemma DigitOneLine(d: nat)
    requires d < 16
    ensures Digit(d) >= '0'
  {
  }

  lemma {:induction false} MembersOneLine(fs: Fields)
    requires fs != []
    ensures OneLine(Members(fs))
  {
    hide Value, Escape;
    EscapeOneLine(fs[0].0);
    ValueOneLine(fs[0].1);
    if |fs| > 1 { MembersOneLine(fs[1..]); }
  }

  lemma ValueOneLine(v: Scalar)
    ensures OneLine(Value(v))
  {
    hide Escape;
    if v.Str? { EscapeOneLine(v.s); }
    if v.Num? { assert forall i :: 0 <= i < |Value(v)| ==> IsDecimalDigit(Value(v)[i]); }
  }

  lemma StringifyOneLine(fs: Fields)
    ensures OneLine(Stringify(fs)) && Stringify(fs) != ""
  {
    if fs != [] { MembersOneLine(fs); }
  }
}
