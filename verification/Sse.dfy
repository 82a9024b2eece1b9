/** lib/server_transports/http.js (the writer of server-sent events) and
    test/example/browser/example_sse.js (the reader that puts messages back together by id). */
module Sse {
  import opened Bytes
  import opened EventStream
  import opened Json
  import opened Wrappers

  import HttpResponse
  import Utf8

  // Buffer.toString('binary'): one character per byte.
  function Latin1(bytes: Bytes): string { seq(|bytes|, i requires 0 <= i < |bytes| => bytes[i] as char) }

  function Latin1Bytes(s: string): Bytes
    requires forall i :: 0 <= i < |s| ==> s[i] as int < 256
  {
    seq(|s|, i requires 0 <= i < |s| => s[i] as int)
  }

  // ---- The writer ----

  // What happens on one response: a comment, or an event of the message with a given id.
  datatype Op =
    | Comment(text: string)
    | Begin(info: Fields)
    | Chunk(id: nat, bytes: Bytes)
    | Finish(id: nat)
    | PeerError(id: nat)

  // The messages on one response: how many ids were given out, those not ended, those ended in order.
  datatype Session = Session(next: nat, open: map<nat, (Fields, Bytes)>, ended: seq<(Fields, Bytes)>)

  const NEW_SESSION := Session(0, map[], [])

  ghost predicate HasNo(info: Fields, key: string) { forall i :: 0 <= i < |info| ==> info[i].0 != key }

  // Streams give data and end only between their start and their end.
  ghost predicate Legal(s: Session, op: Op) {
    match op
    case Comment(text) => OneLine(text)
    case Begin(info) => HasNo(info, "id")
    case Chunk(id, _) => id in s.open
    case Finish(id) => id in s.open
    case PeerError(id) => id < s.next
  }

  function Apply(s: Session, op: Op): Session {
    match op
    case Comment(_) => s
    case Begin(info) => s.(next := s.next + 1, open := s.open[s.next := (info, [])])
    case Chunk(id, bytes) => if id in s.open then s.(open := s.open[id := (s.open[id].0, s.open[id].1 + bytes)]) else s
    case Finish(id) => if id in s.open then s.(open := s.open - {id}, ended := s.ended + [s.open[id]]) else s
    case PeerError(_) => s
  }

  function EventText(kind: string, fields: Fields): string {
    "event: " + kind + "\ndata: " + Stringify(fields) + "\n\n"
  }

  function IdField(id: nat): Fields { [("id", Num(id))] }

  // What one operation writes to the response; `next` is the id a new message would get.
  function OpText(next: nat, op: Op): string {
    match op
    case Comment(text) => ":" + text + "\n\n"
    case Begin(info) => EventText("start", IdField(next) + info)
    case Chunk(id, bytes) => EventText("data", IdField(id) + [("data", Str(Latin1(bytes)))])
    case Finish(id) => EventText("end", IdField(id))
    case PeerError(id) => EventText("peer_error", IdField(id))
  }

  function Run(s: Session, ops: seq<Op>): Session
    decreases |ops|
  {
    if ops == [] then s else Run(Apply(s, ops[0]), ops[1..])
  }

  function RunText(s: Session, ops: seq<Op>): string
    decreases |ops|
  {
    if ops == [] then "" else OpText(s.next, ops[0]) + RunText(Apply(s, ops[0]), ops[1..])
  }

  ghost predicate LegalRun(s: Session, ops: seq<Op>)
    decreases |ops|
  {
    ops == [] || (Legal(s, ops[0]) && LegalRun(Apply(s, ops[0]), ops[1..]))
  }

  // ---- The response ----

  // A response to a subscription: what was done to it, and the text of its body.
  datatype Stream = Stream(response: HttpResponse.Response, body: string)

  const NEW_STREAM := Stream(HttpResponse.NEW_RESPONSE, "")
  const CALM := HttpResponse.Behaviour(false, false, false, false)

  function Written(o: Stream, text: string, c: HttpResponse.Config): Stream {
    Stream(HttpResponse.Step(o.response, HttpResponse.EvWrite, CALM, c),
           if o.response.closed then o.body else o.body + text)
  }

  // The end of the series of subscriptions: an event stream starts with a comment.
  function Started(o: Stream, keepAlive: bool, b: HttpResponse.Behaviour, c: HttpResponse.Config): Stream {
    var r := HttpResponse.Step(o.response, HttpResponse.EvSubscribed(keepAlive), b, c);
    Stream(r, if r.subscribed && !o.response.subscribed then o.body + ":ok\n\n" else o.body)
  }

  function WriteAll(o: Stream, s: Session, ops: seq<Op>, c: HttpResponse.Config): Stream
    decreases |ops|
  {
    if ops == [] then o else WriteAll(Written(o, OpText(s.next, ops[0]), c), Apply(s, ops[0]), ops[1..], c)
  }

  class ResponseWriter {
    const request: HttpResponse.Request
    var out: string
    var lastMsgid: nat
    ghost var session: Session

    ghost predicate Valid() reads this, request {
      && request.Valid()
      && session.next == lastMsgid && forall id :: id in session.open ==> id < lastMsgid
    }

    ghost function Contents(): Stream reads this, request { Stream(request.State(), out) }

    constructor (c: HttpResponse.Config)
      ensures Valid() && fresh(request) && request.config == c && session == NEW_SESSION && Contents() == NEW_STREAM
    {
      request := new HttpResponse.Request(c);
      out := "";
      lastMsgid := 0;
      session := NEW_SESSION;
    }

    method Write(text: string)
      requires Valid()
      modifies this`out, request
      ensures Valid() && Contents() == Written(old(Contents()), text, request.config)
    {
      var taken := request.OnWrite();
      if taken { out := out + text; }
    }

    method Subscribed(keepAlive: bool, b: HttpResponse.Behaviour)
      requires Valid() && !request.subscribed
      modifies this`out, request
      ensures Valid() && Contents() == Started(old(Contents()), keepAlive, b, request.config)
      ensures out == old(out) + if request.subscribed then ":ok\n\n" else ""
      ensures request.subscribed <==> !old(request.closed) && old(request.heads) == [] && !b.writeHeadThrows
    {
      var ok := request.OnSubscribed(keepAlive, b);
      if ok { Write(":ok\n\n"); }
    }

    // Called by the timer, while there is one.
    method KeepAlive()
      requires Valid() && request.sseInterval
      modifies this`out, request
      ensures Valid()
      ensures Contents() == Written(old(Contents()), OpText(session.next, Comment("ka")), request.config)
    {
      Write(":ka\n\n");
      assert ":ka\n\n" == ":" + "ka" + "\n\n";
    }

    // The subscription handler; the result is the id under which the message's stream will be written.
    method Handler(info: Fields) returns (msgid: nat)
      requires Valid()
      modifies this, request
      ensures Valid() && msgid == old(session.next) && session == Apply(old(session), Begin(info))
      ensures session.next == msgid + 1 && msgid !in old(session.open)
      ensures session.open == old(session.open)[msgid := (info, [])]
      ensures Contents() == Written(old(Contents()), OpText(old(session.next), Begin(info)), request.config)
    {
      msgid := lastMsgid;
      lastMsgid := lastMsgid + 1;
      session := Apply(session, Begin(info));
      Write("event: " + "start" + "\ndata: " + Stringify(IdField(msgid) + info) + "\n\n");
    }

    // The transform between a message's stream and the response.
    method Transform(msgid: nat, chunk: Bytes)
      requires Valid() && msgid in session.open
      modifies this, request
      ensures Valid() && session == Apply(old(session), Chunk(msgid, chunk))
      ensures Contents() == Written(old(Contents()), OpText(old(session.next), Chunk(msgid, chunk)), request.config)
    {
      session := Apply(session, Chunk(msgid, chunk));
      var fields := [("id", Num(msgid))] + [("data", Str(Latin1(chunk)))];
      Write("event: " + "data" + "\ndata: " + Stringify(fields) + "\n\n");
    }

    method StreamEnd(msgid: nat)
      requires Valid() && msgid in session.open
      modifies this, request
      ensures Valid() && session == Apply(old(session), Finish(msgid))
      ensures Contents() == Written(old(Contents()), OpText(old(session.next), Finish(msgid)), request.config)
    {
      session := Apply(session, Finish(msgid));
      Write("event: " + "end" + "\ndata: " + Stringify([("id", Num(msgid))]) + "\n\n");
    }

    method StreamError(msgid: nat)
      requires Valid() && msgid < session.next
      modifies this`out, request
      ensures Valid()
      ensures Contents() == Written(old(Contents()), OpText(session.next, PeerError(msgid)), request.config)
    {
      Write("event: " + "peer_error" + "\ndata: " + Stringify([("id", Num(msgid))]) + "\n\n");
    }
  }

  // ---- The reader ----

  // The listeners' Map from id to message, and what has been shown: topic and data.
  datatype Page = Page(msgs: map<Option<Scalar>, Object>, shown: seq<(string, string)>)

  function Get(o: Object, key: string): Option<Scalar> { if key in o then Some(o[key]) else None }

  // A property converted to text.
  function Text(v: Option<Scalar>): string {
    match v
    case None => "undefined"
    case Some(Num(n)) => Numerals.Decimal(n)
    case Some(Bool(b)) => if b then "true" else "false"
    case Some(Str(s)) => s
  }

  // A listener that throws leaves the page as it is.
  function OnEvent(p: Page, e: Event): Page {
    var parsed := Parse(e.data);
    if parsed.None? then p
    else
      var info := parsed.value;
      var id := Get(info, "id");
      if e.kind == "start" then p.(msgs := p.msgs[id := info["data" := Str("")]])
      else if id !in p.msgs then p
      else
        var msg := p.msgs[id];
        if e.kind == "data" then
          p.(msgs := p.msgs[id := msg["data" := Str(Text(Get(msg, "data")) + Text(Get(info, "data")))]])
        else if e.kind == "end" then
          Page(p.msgs - {Get(msg, "id")}, p.shown + [(Text(Get(msg, "topic")), Text(Get(msg, "data")))])
        else p
  }

  function OnEvents(p: Page, es: seq<Event>): Page
    decreases |es|
  {
    if es == [] then p else OnEvents(OnEvent(p, es[0]), es[1..])
  }

  function Feed(d: Decoder, p: Page, text: string): (Decoder, Page)
    decreases |text|
  {
    if text == "" then (d, p)
    else
      var (d', es) := Step(d, text[0]);
      Feed(d', OnEvents(p, es), text[1..])
  }

  // The page with the decoders of its event source: bytes of a character not yet complete, and lines and events.
  datatype Reader = Reader(kept: Bytes, decoder: Decoder, page: Page)

  const NEW_READER := Reader([], NEW_DECODER, Page(map[], []))

  function FeedBytes(r: Reader, chunk: Bytes): Reader {
    var (text, kept) := Utf8.Take(r.kept + chunk);
    var (decoder, page) := Feed(r.decoder, r.page, text);
    Reader(kept, decoder, page)
  }

  function FeedChunks(r: Reader, chunks: seq<Bytes>): Reader
    decreases |chunks|
  {
    if chunks == [] then r else FeedChunks(FeedBytes(r, chunks[0]), chunks[1..])
  }

  class Subscriber {
    var kept: Bytes
    var decoder: Decoder
    var msgs: map<Option<Scalar>, Object>
    var shown: seq<(string, string)>

    ghost function State(): Reader reads this { Reader(kept, decoder, Page(msgs, shown)) }

    constructor ()
      ensures State() == NEW_READER
    {
      kept, decoder, msgs, shown := [], NEW_DECODER, map[], [];
    }

    method Dispatch(e: Event)
      modifies this`msgs, this`shown
      ensures Page(msgs, shown) == OnEvent(old(Page(msgs, shown)), e)
    {
      var parsed := Parse(e.data);
      if parsed.None? { return; }
      var info := parsed.value;
      var id := Get(info, "id");
      if e.kind == "start" {
        msgs := msgs[id := info["data" := Str("")]];
      } else if id in msgs && e.kind == "data" {
        var msg := msgs[id];
        msgs := msgs[id := msg["data" := Str(Text(Get(msg, "data")) + Text(Get(info, "data")))]];
      } else if id in msgs && e.kind == "end" {
        var msg := msgs[id];
        shown := shown + [(Text(Get(msg, "topic")), Text(Get(msg, "data")))];
        msgs := msgs - {Get(msg, "id")};
      }
    }

    // Some more of the response arrives.
    method Receive(chunk: Bytes)
      modifies this
      ensures State() == FeedBytes(old(State()), chunk)
    {
      var (text, rest) := Utf8.Take(kept + chunk);
      kept := rest;
      Read(text);
    }

    method Read(fragment: string)
      modifies this`decoder, this`msgs, this`shown
      ensures (decoder, Page(msgs, shown)) == Feed(old(decoder), old(Page(msgs, shown)), fragment)
    {
      var i := 0;
      while i < |fragment|
        invariant 0 <= i <= |fragment|
        invariant Feed(decoder, Page(msgs, shown), fragment[i..]) ==
          Feed(old(decoder), old(Page(msgs, shown)), fragment)
      {
        assert fragment[i..][1..] == fragment[i + 1..];
        var (d, es) := Step(decoder, fragment[i]);
        StepEvents(decoder, fragment[i]);
        decoder := d;
        if |es| > 0 { Dispatch(es[0]); }
        i := i + 1;
      }
    }
  }

  lemma StepEvents(d: Decoder, c: char)
    ensures |Step(d, c).1| <= 1
    ensures forall p :: OnEvents(p, Step(d, c).1) == if |Step(d, c).1| == 0 then p else OnEvent(p, Step(d, c).1[0])
  {
    forall p ensures OnEvents(p, Step(d, c).1) == if |Step(d, c).1| == 0 then p else OnEvent(p, Step(d, c).1[0]) {
      var es := Step(d, c).1;
      if |es| == 1 { assert OnEvents(OnEvent(p, es[0]), es[1..]) == OnEvent(p, es[0]); }
    }
  }

  /** How the text is cut up on the way does not matter. */
  lemma {:induction false} FeedInPieces(d: Decoder, p: Page, a: string, b: string)
    ensures Feed(d, p, a + b) == Feed(Feed(d, p, a).0, Feed(d, p, a).1, b)
    decreases |a|
  {
    if a == "" {
      assert a + b == b;
    } else {
      assert (a + b)[1..] == a[1..] + b;
      var (d', es) := Step(d, a[0]);
      FeedInPieces(d', OnEvents(p, es), a[1..], b);
    }
  }

  // ---- Feeding what the writer writes ----

  // Reads a line without its end.
  lemma {:induction false} FeedLine(d: Decoder, p: Page, line: string)
    requires d.started && !d.afterCR && OneLine(line)
    ensures Feed(d, p, line) == (d.(line := d.line + line), p)
    decreases |line|
  {
    if line == "" {
      assert d.line + line == d.line;
    } else {
      var d' := d.(line := d.line + [line[0]]);
      assert Step(d, line[0]) == (d', []);
      FeedLine(d', p, line[1..]);
      assert d'.line + line[1..] == d.line + line;
    }
  }

  lemma FeedLineEnd(d: Decoder, p: Page, line: string)
    requires AtLine(d) && OneLine(line)
    ensures Feed(d, p, line + "\n") ==
            (EndLine(d.(line := line)).0, OnEvents(p, EndLine(d.(line := line)).1))
  {
    FeedInPieces(d, p, line, "\n");
    FeedLine(d, p, line);
    assert d.line + line == line;
    var d' := d.(line := line);
    assert Feed(d', p, "\n") == Feed(Step(d', '\n').0, OnEvents(p, Step(d', '\n').1), "");
  }

  lemma FeedEventLine(d: Decoder, p: Page, kind: string)
    requires AtEvent(d) && OneLine(kind)
    ensures Feed(d, p, "event" + (": " + kind) + "\n") == (d.(kind := kind), p)
  {
    FieldParts("event", kind);
    FeedLineEnd(d, p, "event" + (": " + kind));
  }

  lemma FeedDataLine(d: Decoder, p: Page, json: string)
    requires AtLine(d) && d.data == "" && OneLine(json)
    ensures Feed(d, p, "data" + (": " + json) + "\n") == (d.(data := json + "\n"), p)
  {
    FieldParts("data", json);
    FeedLineEnd(d, p, "data" + (": " + json));
    assert "" + json + "\n" == json + "\n";
  }

  lemma FeedBlankLine(d: Decoder, p: Page, json: string)
    requires AtLine(d) && d.data == json + "\n" && d.kind != ""
    ensures Feed(d, p, "\n") == (d.(kind := "", data := ""), OnEvent(p, Event(d.kind, json, d.lastId)))
  {
    assert "" + "\n" == "\n";
    FeedLineEnd(d, p, "");
    assert (json + "\n")[..|json|] == json;
    var e := Event(d.kind, json, d.lastId);
    assert OnEvents(p, [e]) == OnEvents(OnEvent(p, e), [e][1..]);
  }

  lemma FeedEvent(d: Decoder, p: Page, kind: string, fields: Fields)
    requires AtEvent(d) && kind != "" && OneLine(kind)
    ensures Feed(d, p, EventText(kind, fields)) == (d, OnEvent(p, Event(kind, Stringify(fields), d.lastId)))
  {
    var json := Stringify(fields);
    StringifyOneLine(fields);
    var line1, line2 := "event" + (": " + kind) + "\n", "data" + (": " + json) + "\n";
    EventTextLines(kind, fields);
    var d1 := d.(kind := kind);
    FeedEventLine(d, p, kind);
    FeedInPieces(d, p, line1, line2 + "\n");
    FeedDataLine(d1, p, json);
    FeedInPieces(d1, p, line2, "\n");
    FeedBlankLine(d1.(data := json + "\n"), p, json);
  }

  lemma Lines(a: string, b: string, kind: string, n: string, d: string, json: string)
    ensures a + b + kind + (n + d + b) + json + (n + n) == (a + (b + kind) + n) + ((d + (b + json) + n) + n)
  {
  }

  lemma EventTextLines(kind: string, fields: Fields)
    ensures EventText(kind, fields) ==
            ("event" + (": " + kind) + "\n") + (("data" + (": " + Stringify(fields)) + "\n") + "\n")
  {
    assert "event: " == "event" + ": " && "\ndata: " == "\n" + "data" + ": " && "\n\n" == "\n" + "\n";
    Lines("event", ": ", kind, "\n", "data", Stringify(fields));
  }

  lemma FeedComment(d: Decoder, p: Page, text: string)
    requires AtEvent(d) && OneLine(text)
    ensures Feed(d, p, OpText(0, Comment(text))) == (d, p)
  {
    var line := ":" + text;
    assert ":" + text + "\n\n" == (line + "\n") + ("" + "\n");
    FeedInPieces(d, p, line + "\n", "" + "\n");
    FeedLineEnd(d, p, line);
    FeedLineEnd(d, p, "");
  }

  // ---- Demultiplexing ----

  function Key(id: nat): Option<Scalar> { Some(Num(id)) }

  // The object the page keeps for a message of which it has read some bytes.
  function Kept(id: nat, info: Fields, bytes: Bytes): Object {
    Assigned(IdField(id) + info, map[])["data" := Str(Latin1(bytes))]
  }

  function ShownFor(info: Fields, bytes: Bytes): (string, string) {
    (Text(Get(Assigned(info, map[]), "topic")), Latin1(bytes))
  }

  ghost predicate Corresponds(p: Page, s: Session) {
    && (forall id :: id in s.open ==> id < s.next && HasNo(s.open[id].0, "id"))
    && (forall id :: id in s.open ==> Key(id) in p.msgs && p.msgs[Key(id)] == Kept(id, s.open[id].0, s.open[id].1))
    && (forall k :: k in p.msgs ==> k.Some? && k.value.Num? && k.value.n in s.open)
    && |p.shown| == |s.ended|
    && (forall i :: 0 <= i < |s.ended| ==> p.shown[i] == ShownFor(s.ended[i].0, s.ended[i].1))
  }

  lemma {:induction false} AssignedKey(fs: Fields, sofar: Object, key: string)
    requires HasNo(fs, key)
    ensures Get(Assigned(fs, sofar), key) == Get(sofar, key)
  {
    if fs != [] {
      assert HasNo(fs[1..], key);
      AssignedKey(fs[1..], sofar[fs[0].0 := fs[0].1], key);
    }
  }

  // Fields read before do not show through a key that was not among them.
  lemma {:induction false} AssignedOther(fs: Fields, a: Object, b: Object, key: string)
    requires Get(a, key) == Get(b, key)
    ensures Get(Assigned(fs, a), key) == Get(Assigned(fs, b), key)
  {
    if fs != [] {
      AssignedOther(fs[1..], a[fs[0].0 := fs[0].1], b[fs[0].0 := fs[0].1], key);
    }
  }

  lemma IdThenInfo(id: nat, info: Fields)
    requires HasNo(info, "id")
    ensures var o := Assigned(IdField(id) + info, map[]);
            Get(o, "id") == Key(id) && Get(o, "topic") == Get(Assigned(info, map[]), "topic")
  {
    var m: Object := map["id" := Num(id)];
    assert (IdField(id) + info)[1..] == info;
    assert map[]["id" := Num(id)] == m;
    assert Assigned(IdField(id) + info, map[]) == Assigned(info, m);
    AssignedKey(info, m, "id");
    AssignedOther(info, m, map[], "topic");
  }

  lemma KeptHas(id: nat, info: Fields, bytes: Bytes)
    requires HasNo(info, "id")
    ensures var o := Kept(id, info, bytes);
            Get(o, "id") == Key(id) && Text(Get(o, "data")) == Latin1(bytes)
            && Text(Get(o, "topic")) == ShownFor(info, bytes).0
  {
    IdThenInfo(id, info);
  }

  lemma IdOnly(id: nat)
    ensures Parse(Stringify(IdField(id))) == Some(map["id" := Num(id)])
  {
    RoundTrip(IdField(id));
    assert IdField(id)[1..] == [];
    assert map[]["id" := Num(id)] == map["id" := Num(id)];
    assert Assigned(IdField(id), map[]) == Assigned(IdField(id)[1..], map[]["id" := Num(id)]);
  }

  lemma IdAndData(id: nat, data: string)
    ensures Parse(Stringify(IdField(id) + [("data", Str(data))])) == Some(map["id" := Num(id), "data" := Str(data)])
  {
    var fs := IdField(id) + [("data", Str(data))];
    RoundTrip(fs);
    var m: Object := map[]["id" := Num(id)];
    assert fs[1..] == [("data", Str(data))];
    assert Assigned(fs, map[]) == Assigned(fs[1..], m);
    assert Assigned(fs[1..], m) == Assigned(fs[1..][1..], m["data" := Str(data)]);
    assert m["data" := Str(data)] == map["id" := Num(id), "data" := Str(data)];
  }

  lemma Latin1Append(a: Bytes, b: Bytes)
    ensures Latin1(a) + Latin1(b) == Latin1(a + b)
  {
  }

  /** Latin-1 decoding loses nothing: the client can encode back to the exact bytes. */
  lemma Latin1RoundTrip(bytes: Bytes)
    ensures Latin1Bytes(Latin1(bytes)) == bytes
  {
  }

  lemma StartEvent(p: Page, s: Session, info: Fields, lastId: string)
    requires Corresponds(p, s) && HasNo(info, "id")
    ensures Corresponds(OnEvent(p, Event("start", Stringify(IdField(s.next) + info), lastId)), Apply(s, Begin(info)))
  {
    hide Corresponds, Stringify;
    RoundTrip(IdField(s.next) + info);
    IdThenInfo(s.next, info);
    assert Latin1([]) == "";
    StartOnPage(p, s, info);
  }

  lemma StartOnPage(p: Page, s: Session, info: Fields)
    requires Corresponds(p, s) && HasNo(info, "id")
    ensures Corresponds(p.(msgs := p.msgs[Key(s.next) := Kept(s.next, info, [])]), Apply(s, Begin(info)))
  {
    hide Kept, ShownFor;
    var p' := p.(msgs := p.msgs[Key(s.next) := Kept(s.next, info, [])]);
    assert forall id | id in s.open :: Key(id) != Key(s.next);
  }

  lemma DataOnPage(p: Page, s: Session, id: nat, bytes: Bytes, text: string, lastId: string)
    requires Corresponds(p, s) && id in s.open
    requires Parse(text) == Some(map["id" := Num(id), "data" := Str(Latin1(bytes))])
    ensures var (info, sofar) := s.open[id];
            OnEvent(p, Event("data", text, lastId)) == p.(msgs := p.msgs[Key(id) := Kept(id, info, sofar + bytes)])
  {
    hide Latin1, Parse;
    var (info, sofar) := s.open[id];
    var parsed := map["id" := Num(id), "data" := Str(Latin1(bytes))];
    assert Get(parsed, "id") == Key(id) && Text(Get(parsed, "data")) == Latin1(bytes);
    KeptHas(id, info, sofar);
    Latin1Append(sofar, bytes);
    assert Kept(id, info, sofar)["data" := Str(Latin1(sofar + bytes))] == Kept(id, info, sofar + bytes);
  }

  lemma ChunkOnPage(p: Page, s: Session, id: nat, bytes: Bytes)
    requires Corresponds(p, s) && id in s.open
    ensures var (info, sofar) := s.open[id];
            Corresponds(p.(msgs := p.msgs[Key(id) := Kept(id, info, sofar + bytes)]), Apply(s, Chunk(id, bytes)))
  {
    hide Kept, ShownFor;
    var (info, sofar) := s.open[id];
    var msgs, open := p.msgs[Key(id) := Kept(id, info, sofar + bytes)], Apply(s, Chunk(id, bytes)).open;
    forall id' | id' in open ensures Key(id') in msgs && msgs[Key(id')] == Kept(id', open[id'].0, open[id'].1) {
      if id' != id { assert Key(id') != Key(id) && open[id'] == s.open[id']; }
    }
  }

  lemma DataEvent(p: Page, s: Session, id: nat, bytes: Bytes, lastId: string)
    requires Corresponds(p, s) && id in s.open
    ensures var e := Event("data", Stringify(IdField(id) + [("data", Str(Latin1(bytes)))]), lastId);
            Corresponds(OnEvent(p, e), Apply(s, Chunk(id, bytes)))
  {
    IdAndData(id, Latin1(bytes));
    DataOnPage(p, s, id, bytes, Stringify(IdField(id) + [("data", Str(Latin1(bytes)))]), lastId);
    ChunkOnPage(p, s, id, bytes);
  }

  lemma EndEvent(p: Page, s: Session, id: nat, lastId: string)
    requires Corresponds(p, s) && id in s.open
    ensures Corresponds(OnEvent(p, Event("end", Stringify(IdField(id)), lastId)), Apply(s, Finish(id)))
  {
    var (info, bytes) := s.open[id];
    var p' := OnEvent(p, Event("end", Stringify(IdField(id)), lastId));
    assert p' == Page(p.msgs - {Key(id)}, p.shown + [ShownFor(info, bytes)]) by {
      IdOnly(id);
      KeptHas(id, info, bytes);
      var parsed: Object := map["id" := Num(id)];
      assert Get(parsed, "id") == Key(id);
    }
    EndedOnPage(p, s, id);
  }

  lemma EndedOnPage(p: Page, s: Session, id: nat)
    requires Corresponds(p, s) && id in s.open
    ensures Corresponds(Page(p.msgs - {Key(id)}, p.shown + [ShownFor(s.open[id].0, s.open[id].1)]),
      Apply(s, Finish(id)))
  {
    hide Kept, ShownFor;
  }

  lemma ErrorEvent(p: Page, s: Session, id: nat, lastId: string)
    requires Corresponds(p, s)
    ensures Corresponds(OnEvent(p, Event("peer_error", Stringify(IdField(id)), lastId)), Apply(s, PeerError(id)))
  {
    hide Corresponds, Stringify;
    IdOnly(id);
  }

  lemma OneOp(d: Decoder, p: Page, s: Session, op: Op)
    requires AtEvent(d) && Corresponds(p, s) && Legal(s, op)
    ensures var (d', p') := Feed(d, p, OpText(s.next, op)); d' == d && Corresponds(p', Apply(s, op))
  {
    hide Feed, Corresponds, EventText, Stringify, OnEvent, AtLine;
    match op
    case Comment(text) => FeedComment(d, p, text);
    case Begin(info) =>
      FeedEvent(d, p, "start", IdField(s.next) + info);
      StartEvent(p, s, info, d.lastId);
    case Chunk(id, bytes) =>
      FeedEvent(d, p, "data", IdField(id) + [("data", Str(Latin1(bytes)))]);
      DataEvent(p, s, id, bytes, d.lastId);
    case Finish(id) =>
      FeedEvent(d, p, "end", IdField(id));
      EndEvent(p, s, id, d.lastId);
    case PeerError(id) =>
      FeedEvent(d, p, "peer_error", IdField(id));
      ErrorEvent(p, s, id, d.lastId);
  }

  lemma {:induction false} Demultiplexed(d: Decoder, p: Page, s: Session, ops: seq<Op>)
    requires AtEvent(d) && Corresponds(p, s) && LegalRun(s, ops)
    ensures var (d', p') := Feed(d, p, RunText(s, ops)); d' == d && Corresponds(p', Run(s, ops))
    decreases |ops|
  {
    if ops != [] {
      var text := OpText(s.next, ops[0]);
      OneOp(d, p, s, ops[0]);
      var p1 := Feed(d, p, text).1;
      Demultiplexed(d, p1, Apply(s, ops[0]), ops[1..]);
      FeedInPieces(d, p, text, RunText(Apply(s, ops[0]), ops[1..]));
    }
  }

  lemma FeedTwo(r: Reader, a: Bytes, more: Bytes)
    ensures FeedBytes(FeedBytes(r, a), more) == FeedBytes(r, a + more)
  {
    hide Feed, Utf8.Take;
    Utf8.TakeInPieces(r.kept + a, more);
    assert r.kept + a + more == r.kept + (a + more);
    var (t1, kept) := Utf8.Take(r.kept + a);
    FeedInPieces(r.decoder, r.page, t1, Utf8.Take(kept + more).0);
  }

  lemma FeedNone(r: Reader)
    requires Utf8.Incomplete(r.kept)
    ensures FeedBytes(r, []) == r
  {
    assert r.kept + [] == r.kept;
  }

  /** However the bytes of a body are cut, the page is the one its text makes. */
  lemma {:induction false} ChunksDoNotMatter(r: Reader, chunks: seq<Bytes>)
    requires Utf8.Incomplete(r.kept)
    ensures FeedChunks(r, chunks) == FeedBytes(r, Concat(chunks))
    decreases |chunks|
  {
    hide FeedBytes, Utf8.Incomplete;
    if chunks == [] {
      FeedNone(r);
    } else {
      StillIncomplete(r, chunks[0]);
      ChunksDoNotMatter(FeedBytes(r, chunks[0]), chunks[1..]);
      FeedTwo(r, chunks[0], Concat(chunks[1..]));
    }
  }

  lemma StillIncomplete(r: Reader, chunk: Bytes)
    ensures Utf8.Incomplete(FeedBytes(r, chunk).kept)
  {
    Utf8.TakeKeeps(r.kept + chunk);
  }

  // ---- Whole responses ----

  // An event source reads only a response whose head said that it is an event stream.
  function PageOf(o: Stream, chunks: seq<Bytes>): Page {
    if o.response.subscribed then FeedChunks(NEW_READER, chunks).page else NEW_READER.page
  }

  ghost predicate Shows(p: Page, ended: seq<(Fields, Bytes)>) {
    |p.shown| == |ended| && forall i :: 0 <= i < |ended| ==> p.shown[i] == ShownFor(ended[i].0, ended[i].1)
  }

  // An open response with more text in its body, of which the first write gave it a head.
  function Grown(o: Stream, text: string, wrote: bool): Stream {
    var r := o.response;
    Stream(r.(heads := if r.heads == [] && wrote then [HttpResponse.Implicit] else r.heads), o.body + text)
  }

  lemma WriteOpen(o: Stream, text: string, c: HttpResponse.Config)
    requires !o.response.closed
    ensures Written(o, text, c) == Grown(o, text, true)
  {
  }

  lemma GrownTwice(o: Stream, a: string, b: string, wrote: bool)
    ensures Grown(Grown(o, a, true), b, wrote) == Grown(o, a + b, true)
  {
    assert o.body + a + b == o.body + (a + b);
  }

  lemma {:induction false} WrittenOpen(o: Stream, s: Session, ops: seq<Op>, c: HttpResponse.Config)
    requires !o.response.closed
    ensures WriteAll(o, s, ops, c) == Grown(o, RunText(s, ops), ops != [])
    decreases |ops|
  {
    if ops == [] {
      assert o.body + "" == o.body;
    } else {
      hide OpText, Apply, Written;
      var text, s' := OpText(s.next, ops[0]), Apply(s, ops[0]);
      WriteOpen(o, text, c);
      WrittenOpen(Grown(o, text, true), s', ops[1..], c);
      GrownTwice(o, text, RunText(s', ops[1..]), ops[1..] != []);
    }
  }

  lemma {:induction false} WrittenClosed(o: Stream, s: Session, ops: seq<Op>, c: HttpResponse.Config)
    requires o.response.closed
    ensures WriteAll(o, s, ops, c) == o
    decreases |ops|
  {
    if ops != [] { WrittenClosed(o, Apply(s, ops[0]), ops[1..], c); }
  }

  lemma StreamText(text: string, ops: seq<Op>)
    requires LegalRun(NEW_SESSION, ops) && text == ":ok\n\n" + RunText(NEW_SESSION, ops)
    ensures Shows(Feed(NEW_DECODER, Page(map[], []), text).1, Run(NEW_SESSION, ops).ended)
  {
    var p := Page(map[], []);
    var d := NEW_DECODER.(started := true);
    FeedInPieces(NEW_DECODER, p, ":ok\n\n", RunText(NEW_SESSION, ops));
    assert Step(NEW_DECODER, ':') == Step(d, ':');
    assert Feed(NEW_DECODER, p, ":ok\n\n") == Feed(d, p, ":ok\n\n");
    FeedComment(d, p, "ok");
    assert ":" + "ok" + "\n\n" == ":ok\n\n";
    Demultiplexed(d, p, NEW_SESSION, ops);
  }

  // What is written before the series of subscriptions ends, and what after it.
  function Response(before: seq<Op>, after: seq<Op>, keepAlive: bool, b: HttpResponse.Behaviour, c: HttpResponse.Config)
    : Stream
  {
    var o := Started(WriteAll(NEW_STREAM, NEW_SESSION, before, c), keepAlive, b, c);
    WriteAll(o, Run(NEW_SESSION, before), after, c)
  }

  lemma StreamResponse(after: seq<Op>, keepAlive: bool, b: HttpResponse.Behaviour, c: HttpResponse.Config)
    requires b.Calm()
    ensures var o := Response([], after, keepAlive, b, c);
      o.response.subscribed && o.body == ":ok\n\n" + RunText(NEW_SESSION, after)
  {
    assert "" + ":ok\n\n" == ":ok\n\n";
    WrittenOpen(Started(NEW_STREAM, keepAlive, b, c), NEW_SESSION, after, c);
  }

  lemma NoStreamResponse(before: seq<Op>, after: seq<Op>, keepAlive: bool, b: HttpResponse.Behaviour,
                         c: HttpResponse.Config)
    requires before != [] && b.Calm()
    ensures !Response(before, after, keepAlive, b, c).response.subscribed
  {
    WrittenOpen(NEW_STREAM, NEW_SESSION, before, c);
    var o := Started(WriteAll(NEW_STREAM, NEW_SESSION, before, c), keepAlive, b, c);
    WrittenClosed(o, Run(NEW_SESSION, before), after, c);
  }

  /** For any messages, cut into any chunks, interleaved in any way with each other and with comments, of which some was
      written before the last subscription was made and some after, and for any chunks in which the bytes of the
      response arrive: if nothing was written before, the page has shown exactly the ended messages, in the order they
      ended, each with its topic and its exact bytes; otherwise it shows nothing. */
  lemma MessagesRecovered(before: seq<Op>, after: seq<Op>, keepAlive: bool, b: HttpResponse.Behaviour,
                          c: HttpResponse.Config, chunks: seq<Bytes>)
    requires LegalRun(NEW_SESSION, before + after) && b.Calm()
    requires Concat(chunks) == Utf8.Encode(Response(before, after, keepAlive, b, c).body)
    ensures var p := PageOf(Response(before, after, keepAlive, b, c), chunks);
      if before == [] then Shows(p, Run(NEW_SESSION, after).ended) else p.shown == []
  {
    if before == [] {
      StreamResponse(after, keepAlive, b, c);
      assert [] + after == after;
      BodyRead(":ok\n\n" + RunText(NEW_SESSION, after), chunks);
      StreamText(":ok\n\n" + RunText(NEW_SESSION, after), after);
    } else {
      NoStreamResponse(before, after, keepAlive, b, c);
    }
  }

  lemma BodyRead(text: string, chunks: seq<Bytes>)
    requires Concat(chunks) == Utf8.Encode(text)
    ensures FeedChunks(NEW_READER, chunks).page == Feed(NEW_DECODER, Page(map[], []), text).1
  {
    ChunksDoNotMatter(NEW_READER, chunks);
    assert [] + Concat(chunks) == Concat(chunks);
    Utf8.TakeAll(text);
  }

  /** So a single message delivered before the last subscription is lost, with all that follow. */
  lemma EarlyMessageLost(info: Fields, c: HttpResponse.Config, chunks: seq<Bytes>)
    requires HasNo(info, "id")
    requires Concat(chunks) == Utf8.Encode(Response([Begin(info), Finish(0)], [], true, CALM, c).body)
    ensures Run(NEW_SESSION, [Begin(info), Finish(0)]).ended == [(info, [])]
    ensures PageOf(Response([Begin(info), Finish(0)], [], true, CALM, c), chunks).shown == []
  {
    var ops := [Begin(info), Finish(0)];
    var s1 := Apply(NEW_SESSION, ops[0]);
    assert ops[1..] == [Finish(0)] && ops[1..][1..] == [];
    assert Run(s1, ops[1..]) == Run(Apply(s1, Finish(0)), []);
    assert LegalRun(Apply(s1, Finish(0)), []);
    assert LegalRun(s1, ops[1..]);
    assert ops + [] == ops;
    MessagesRecovered(ops, [], true, CALM, c, chunks);
  }
}
