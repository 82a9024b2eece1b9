/** An incremental parser of event streams: section 9.2.6 of the WHATWG HTML standard, one character at
    a time, so that the text may arrive in any fragments. */
module EventStream {
  datatype Event = Event(kind: string, data: string, lastId: string)

  // What is buffered between characters.  `started` is false until a leading byte order mark can no
  // longer come; `afterCR` says that a line feed would finish the line end already acted on.
  datatype Decoder = Decoder(started: bool, afterCR: bool, line: string, kind: string, data: string, lastId: string)

  const NEW_DECODER := Decoder(false, false, "", "", "", "")
  const BOM := '\U{FEFF}'

  function ColonAt(line: string): (n: nat)
    ensures n <= |line| && (n < |line| ==> line[n] == ':')
  {
    if line == "" || line[0] == ':' then 0 else 1 + ColonAt(line[1..])
  }

  function FieldName(line: string): string { line[..ColonAt(line)] }

  function FieldValue(line: string): string {
    var n := ColonAt(line);
    if n == |line| then ""
    else
      var v := line[n + 1..];
      if v != "" && v[0] == ' ' then v[1..] else v
  }

  // Acts on one whole line.
  function EndLine(d: Decoder): (Decoder, seq<Event>) {
    var d' := d.(line := "");
    if d.line == "" then
      var data := if d.data == "" then "" else d.data[..|d.data| - 1];
      var e := Event(if d.kind == "" then "message" else d.kind, data, d.lastId);
      (d'.(kind := "", data := ""), if d.data == "" then [] else [e])
    else if d.line[0] == ':' then (d', [])
    else
      var name, value := FieldName(d.line), FieldValue(d.line);
      if name == "event" then (d'.(kind := value), [])
      else if name == "data" then (d'.(data := d.data + value + "\n"), [])
      else if name == "id" then (if '\0' in value then d' else d'.(lastId := value), [])
      else (d', [])
  }

  function Step(d: Decoder, c: char): (Decoder, seq<Event>) {
    if !d.started && c == BOM then (d.(started := true), [])
    else if c == '\n' && d.afterCR then (d.(started := true, afterCR := false), [])
    else if c == '\n' || c == '\r' then
      var (d', es) := EndLine(d);
      (d'.(started := true, afterCR := c == '\r'), es)
    else (d.(started := true, afterCR := false, line := d.line + [c]), [])
  }

  // ---- Lines ----

  // Between lines: nothing of the next line has been read.
  ghost predicate AtLine(d: Decoder) { d.started && !d.afterCR && d.line == "" }

  // Between events: nothing of the next event has been read either.
  ghost predicate AtEvent(d: Decoder) { AtLine(d) && d.kind == "" && d.data == "" }

  lemma {:induction false} ColonFound(name: string, rest: string)
    requires ':' !in name
    ensures ColonAt(name + (":" + rest)) == |name|
  {
    if name == "" {
      assert name + (":" + rest) == ":" + rest;
    } else {
      assert (name + (":" + rest))[1..] == name[1..] + (":" + rest);
      ColonFound(name[1..], rest);
    }
  }

  lemma FieldParts(name: string, value: string)
    requires ':' !in name
    ensures FieldName(name + (": " + value)) == name && FieldValue(name + (": " + value)) == value
  {
    var line := name + (": " + value);
    assert ": " + value == ":" + (" " + value);
    ColonFound(name, " " + value);
    assert line[|name| + 1..] == " " + value;
  }
}
