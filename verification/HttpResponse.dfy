/** lib/server_transports/http.js: `done` and `end_response`, which write the head of a response and end it,
    whatever else happens to the response and in whatever order. */
module HttpResponse {
  import opened Wrappers

  datatype Config = Config(http2: bool, destroyAfterEndDelay: int)

  // What a response is ended with: nothing, an empty text, or the JSON of an object with an error message.
  datatype Data = Nothing | EmptyText | ErrorObject(message: string)

  // A head written by `writeHead`, or the one Node.js sends before the first of a body when there is none.
  datatype Head = Explicit(code: nat) | Implicit

  // How the response object behaves during one call: which of its methods throw though no head was sent, and
  // whether `end` emits 'prefinish' before it returns or throws.
  datatype Behaviour = Behaviour(setHeaderThrows: bool, writeHeadThrows: bool, endThrows: bool, endFinishes: bool) {
    predicate Calm() { !setHeaderThrows && !writeHeadThrows && !endThrows }
  }

  // The variables of one request, and what was done to the response object: heads sent, bodies it was ended
  // with, destroy timers armed, destroys of the client stream, and results of `done`.
  datatype Response = Response(
    closed: bool, headersWritten: bool, left: bool, sseInterval: bool, subscribed: bool,
    heads: seq<Head>, ends: seq<Data>, destroyTimers: nat, leftDestroys: nat, trues: nat)

  const NEW_RESPONSE := Response(false, false, false, false, false, [], [], 0, 0, 0)

  // Some of a body goes out, after a head.
  function Flush(r: Response): Response { if r.heads == [] then r.(heads := [Implicit]) else r }

  // What `end` does to the request's variables through its 'prefinish' listeners: onclose and, on a
  // subscription, `done` itself, which finds the response closed.
  function Finished(r: Response): Response {
    if r.subscribed then
      r.(closed := true, sseInterval := false, leftDestroys := r.leftDestroys + (if r.left then 1 else 0))
    else r.(closed := true)
  }

  // end_response; the result is false when it throws.
  function EndResponse(r: Response, code: nat, data: Data, b: Behaviour, c: Config): (Response, bool) {
    var r := if b.endFinishes || !b.endThrows then Flush(r) else r;
    var r := if b.endFinishes then Finished(r) else r;
    if b.endThrows then (r, false)
    else
      var timers := if code == 503 && c.destroyAfterEndDelay >= 0 then 1 else 0;
      (r.(closed := true, ends := r.ends + [data], destroyTimers := r.destroyTimers + timers), true)
  }

  function Body(text: string): Data { if text == "" then EmptyText else ErrorObject(text) }

  function Status(code: Option<nat>): nat { if code.Some? && code.value != 0 then code.value else 500 }

  function ErrorText(data: Option<string>): string { if data.Some? then data.value else "server error" }

  function Done(r: Response, code: Option<nat>, data: Option<string>, onlyHeaders: bool, b: Behaviour, c: Config)
    : (Response, bool)
  {
    var r := Settle(r, onlyHeaders);
    if r.closed then (r, false)
    else if r.headersWritten then (EndResponse(r, Status(code), Nothing, b, c).0, false)
    else SendHead(r, Status(code), ErrorText(data), onlyHeaders, b, c)
  }

  predicate SetsHeader(code: nat, text: string, c: Config) { text != "" || (code == 503 && !c.http2) }

  // The header fields, then the head. Neither can be set once a head was sent.
  function SendHead(r: Response, code: nat, text: string, onlyHeaders: bool, b: Behaviour, c: Config)
    : (Response, bool)
  {
    if SetsHeader(code, text, c) && (r.heads != [] || b.setHeaderThrows) then (r, false)
    else WriteHead(r, code, Body(text), onlyHeaders, b, c)
  }

  // The head, and the end unless only headers are wanted.
  function WriteHead(r: Response, code: nat, data: Data, onlyHeaders: bool, b: Behaviour, c: Config): (Response, bool) {
    if r.heads != [] || b.writeHeadThrows then (EndResponse(r, code, data, b, c).0, false)
    else
      var r := r.(headersWritten := true, heads := r.heads + [Explicit(code)]);
      if onlyHeaders then (Returned(r), true)
      else
        var (r', ended) := EndResponse(r, code, data, b, c);
        if ended then (Returned(r'), true) else (r', false)
  }

  // What `done` does first: the keep-alive timer stops, and the client stream goes unless it is still needed.
  function Settle(r: Response, onlyHeaders: bool): Response {
    var destroys := if r.left && (r.closed || !onlyHeaders) then 1 else 0;
    r.(sseInterval := false, leftDestroys := r.leftDestroys + destroys)
  }

  function Returned(r: Response): Response { r.(trues := r.trues + 1) }

  datatype Event =
    | EvDone(code: Option<nat>, data: Option<string>, onlyHeaders: bool)
    | EvLeft
    | EvWrite
    | EvClosed
    | EvSubscribed(keepAlive: bool)

  function Step(r: Response, e: Event, b: Behaviour, c: Config): Response {
    match e
    case EvDone(code, data, onlyHeaders) => Done(r, code, data, onlyHeaders, b, c).0
    case EvLeft => r.(left := true)
    // A message's handler or stream writes, which it can do as soon as its topic is subscribed to.
    case EvWrite => if r.closed then r else Flush(r)
    // 'prefinish' or 'close': onclose, then, on a subscription, done
    case EvClosed =>
      var r := r.(closed := true);
      if r.subscribed then Done(r, None, None, false, b, c).0 else r
    // The end of the series of subscriptions.
    case EvSubscribed(keepAlive) =>
      var (r', ok) := Done(r, Some(200), Some(""), true, b, c);
      if ok then r'.(subscribed := true, sseInterval := keepAlive) else r'
  }

  // ---- Invariant ----

  ghost predicate Inv(r: Response) {
    && |r.heads| <= 1 && (r.headersWritten <==> |r.heads| == 1 && r.heads[0].Explicit?)
    && |r.ends| <= 1 && (|r.ends| == 1 ==> r.closed && r.heads != [])
    && r.trues <= (if r.headersWritten then 1 else 0)
    && (r.sseInterval ==> r.subscribed)
    && (r.subscribed ==> r.heads == [Explicit(200)] && r.trues == 1)
    && r.destroyTimers <= |r.ends|
  }

  // What a call may assume and keep once `Settle` is done: the invariant, with no timer.
  ghost predicate Settled(r: Response) { Inv(r) && !r.sseInterval }

  lemma EndKeepsInv(r: Response, code: nat, data: Data, b: Behaviour, c: Config)
    requires Settled(r) && !r.closed
    ensures var r' := EndResponse(r, code, data, b, c).0;
      Settled(r') && r'.trues == r.trues && r'.headersWritten == r.headersWritten && r'.subscribed == r.subscribed
  {
  }

  lemma WriteHeadKeepsInv(r: Response, code: nat, data: Data, onlyHeaders: bool, b: Behaviour, c: Config)
    requires Settled(r) && !r.closed && !r.headersWritten
    ensures Settled(WriteHead(r, code, data, onlyHeaders, b, c).0)
  {
    hide EndResponse;
    if r.heads != [] || b.writeHeadThrows {
      EndKeepsInv(r, code, data, b, c);
    } else {
      var r1 := r.(headersWritten := true, heads := r.heads + [Explicit(code)]);
      EndKeepsInv(r1, code, data, b, c);
    }
  }

  lemma DoneKeepsInv(r: Response, code: Option<nat>, data: Option<string>, onlyHeaders: bool, b: Behaviour, c: Config)
    requires Inv(r)
    ensures Inv(Done(r, code, data, onlyHeaders, b, c).0)
    ensures !Done(r, code, data, onlyHeaders, b, c).0.sseInterval
  {
    hide EndResponse, WriteHead;
    var r1 := Settle(r, onlyHeaders);
    assert Settled(r1);
    if r1.closed {
    } else if r1.headersWritten {
      EndKeepsInv(r1, Status(code), Nothing, b, c);
    } else {
      WriteHeadKeepsInv(r1, Status(code), Body(ErrorText(data)), onlyHeaders, b, c);
    }
  }

  lemma StepKeepsInv(r: Response, e: Event, b: Behaviour, c: Config)
    requires Inv(r)
    ensures Inv(Step(r, e, b, c))
  {
    hide Done;
    if e.EvDone? { DoneKeepsInv(r, e.code, e.data, e.onlyHeaders, b, c); }
    if e.EvClosed? { DoneKeepsInv(r.(closed := true), None, None, false, b, c); }
    if e.EvSubscribed? { SubscribedKeepsInv(r, e.keepAlive, b, c); }
  }

  lemma SubscribedKeepsInv(r: Response, keepAlive: bool, b: Behaviour, c: Config)
    requires Inv(r)
    ensures Inv(Step(r, EvSubscribed(keepAlive), b, c))
  {
    DoneKeepsInv(r, Some(200), Some(""), true, b, c);
  }

  // There is a header field to set: the type of an error text, or that the connection is closed.
  predicate HasField(code: Option<nat>, data: Option<string>, c: Config) {
    data != Some("") || (code == Some(503) && !c.http2)
  }

  // What `done` ends the response with, once it has the head.
  predicate IsBody(d: Data, data: Option<string>) {
    match data
    case None => d == ErrorObject("server error")
    case Some(text) => if text == "" then d == EmptyText else d == ErrorObject(text)
  }

  // The response that `done` starts from, is to write a head to, and writes it to.
  predicate Succeeds(r: Response, code: Option<nat>, data: Option<string>, onlyHeaders: bool, b: Behaviour, c: Config)
  {
    && !r.closed && r.heads == [] && !b.writeHeadThrows
    && (HasField(code, data, c) ==> !b.setHeaderThrows) && (!onlyHeaders ==> !b.endThrows)
  }

  /** `done` returns true exactly when nothing was sent and nothing throws. The head then has the code given, or 500 for
      none, and the body the text given, or a general one. Once there is a head, or the response is closed, it writes
      none. */
  lemma DoneGives(r: Response, code: Option<nat>, data: Option<string>, onlyHeaders: bool, b: Behaviour, c: Config)
    requires Inv(r)
    ensures var (r', ok) := Done(r, code, data, onlyHeaders, b, c);
      && (ok <==> Succeeds(r, code, data, onlyHeaders, b, c))
      && (ok ==> forall n :: n != 0 && code == Some(n) ==> r'.heads == [Explicit(n)])
      && (ok && (code == None || code == Some(0)) ==> r'.heads == [Explicit(500)])
      && (ok && onlyHeaders ==> r'.ends == [] && !r'.closed)
      && (ok && !onlyHeaders ==> |r'.ends| == 1 && IsBody(r'.ends[0], data) && r'.closed)
      && (r.closed || r.heads != [] ==> r'.heads == r.heads)
  {
  }

  /** A response with a head of `done`'s own is ended by the next call without a body, unless ending throws; one whose
      head went out before is ended with the body given, unless ending throws or there is a field to set; a closed one
      is left as it is. */
  lemma DoneElse(r: Response, code: Option<nat>, data: Option<string>, onlyHeaders: bool, b: Behaviour, c: Config)
    requires Inv(r)
    ensures var ends := Done(r, code, data, onlyHeaders, b, c).0.ends;
      && (r.closed ==> ends == r.ends)
      && (!r.closed && r.headersWritten ==> ends == if b.endThrows then [] else [Nothing])
      && (!r.closed && r.heads == [Implicit] ==>
            if b.endThrows || HasField(code, data, c) then ends == [] else |ends| == 1 && IsBody(ends[0], data))
  {
  }

  // A call of `done` on an open response comes to the point of ending it.
  predicate ComesToEnd(r: Response, code: Option<nat>, data: Option<string>, onlyHeaders: bool, b: Behaviour, c: Config)
  {
    if r.headersWritten then true
    else if r.heads != [] then !HasField(code, data, c)
    else (HasField(code, data, c) ==> !b.setHeaderThrows) && (b.writeHeadThrows || !onlyHeaders)
  }

  /** Whatever throws: `done` ends an open response exactly when it comes to the point and ending does not throw; and
      the response then counts as closed, as it does if ending throws after 'prefinish'. */
  lemma DoneCloses(r: Response, code: Option<nat>, data: Option<string>, onlyHeaders: bool, b: Behaviour, c: Config)
    requires Inv(r)
    ensures var r', ending := Done(r, code, data, onlyHeaders, b, c).0, ComesToEnd(r, code, data, onlyHeaders, b, c);
      && (|r'.ends| > |r.ends| <==> !r.closed && ending && !b.endThrows)
      && (r'.closed <==> r.closed || (ending && (!b.endThrows || b.endFinishes)))
  {
    hide EndResponse;
    var r1, n := Settle(r, onlyHeaders), Status(code);
    EndCloses(r1, n, Nothing, b, c);
    EndCloses(r1, n, Body(ErrorText(data)), b, c);
    EndCloses(r1.(headersWritten := true, heads := r1.heads + [Explicit(n)]), n, Body(ErrorText(data)), b, c);
  }

  lemma EndCloses(r: Response, code: nat, data: Data, b: Behaviour, c: Config)
    ensures var r' := EndResponse(r, code, data, b, c).0;
      && r'.ends == (if b.endThrows then r.ends else r.ends + [data])
      && (r'.closed <==> r.closed || !b.endThrows || b.endFinishes)
  {
  }

  // The client stream goes just when there is one and it is not wanted any longer.
  lemma LeftGoes(r: Response, code: Option<nat>, data: Option<string>, onlyHeaders: bool, b: Behaviour, c: Config)
    requires Inv(r)
    ensures Done(r, code, data, onlyHeaders, b, c).0.leftDestroys > r.leftDestroys <==>
      r.left && (r.closed || !onlyHeaders || (r.subscribed && b.endFinishes))
  {
  }

  lemma EndTimers(r: Response, code: nat, data: Data, b: Behaviour, c: Config)
    ensures var r' := EndResponse(r, code, data, b, c).0;
      && r'.ends == (if b.endThrows then r.ends else r.ends + [data])
      && r'.destroyTimers == r.destroyTimers +
        if !b.endThrows && code == 503 && c.destroyAfterEndDelay >= 0 then 1 else 0
  {
  }

  // What makes the client stream go, if there is one: a call of `done` that does not want it, or finds the response
  // closed.
  predicate DropsLeft(r: Response, e: Event, b: Behaviour) {
    match e
    case EvDone(_, _, onlyHeaders) => r.closed || !onlyHeaders || (r.subscribed && b.endFinishes)
    case EvClosed => r.subscribed
    case EvSubscribed(_) => r.closed || (r.subscribed && b.endFinishes)
    case _ => false
  }

  /** Over all events: only the client stream's own event brings it, and it goes just when it is there and dropped. */
  lemma LeftWhen(r: Response, e: Event, b: Behaviour, c: Config)
    requires Inv(r)
    ensures var r' := Step(r, e, b, c);
      && (r'.left <==> r.left || e.EvLeft?)
      && (r'.leftDestroys > r.leftDestroys <==> r.left && DropsLeft(r, e, b))
  {
    match e
    case EvDone(code, data, onlyHeaders) => LeftGoes(r, code, data, onlyHeaders, b, c);
    case EvClosed =>
    case EvSubscribed(_) => LeftGoes(r, Some(200), Some(""), true, b, c);
    case _ =>
  }

  lemma DoneTimers(r: Response, code: Option<nat>, data: Option<string>, onlyHeaders: bool, b: Behaviour, c: Config)
    requires Inv(r)
    ensures var r' := Done(r, code, data, onlyHeaders, b, c).0;
      r'.destroyTimers == r.destroyTimers +
        if |r'.ends| > |r.ends| && code == Some(503) && c.destroyAfterEndDelay >= 0 then 1 else 0
  {
    hide EndResponse, Body, ErrorText, SetsHeader;
    var r1, n := Settle(r, onlyHeaders), Status(code);
    EndTimers(r1, n, Nothing, b, c);
    EndTimers(r1, n, Body(ErrorText(data)), b, c);
    EndTimers(r1.(headersWritten := true, heads := r1.heads + [Explicit(n)]), n, Body(ErrorText(data)), b, c);
  }

  /** The delayed destroy is armed just when a call of `done` with code 503 ends the response and a delay is set. */
  lemma TimerArmed(r: Response, e: Event, b: Behaviour, c: Config)
    requires Inv(r)
    ensures var r' := Step(r, e, b, c);
      r'.destroyTimers > r.destroyTimers <==>
        e.EvDone? && e.code == Some(503) && |r'.ends| > |r.ends| && c.destroyAfterEndDelay >= 0
  {
    hide Done, Inv;
    match e
    case EvDone(code, data, onlyHeaders) => DoneTimers(r, code, data, onlyHeaders, b, c);
    case EvClosed => ClosedTimers(r, b, c);
    case EvSubscribed(_) => DoneTimers(r, Some(200), Some(""), true, b, c);
    case _ =>
  }

  lemma ClosedTimers(r: Response, b: Behaviour, c: Config)
    requires Inv(r)
    ensures Step(r, EvClosed, b, c).destroyTimers == r.destroyTimers
  {
  }

  class Request {
    const config: Config
    var closed: bool
    var headersWritten: bool
    var left: bool
    var sseInterval: bool
    var subscribed: bool
    var heads: seq<Head>
    var ends: seq<Data>
    var destroyTimers: nat
    var leftDestroys: nat
    ghost var trues: nat

    ghost function State(): Response reads this {
      Response(closed, headersWritten, left, sseInterval, subscribed, heads, ends, destroyTimers, leftDestroys, trues)
    }

    ghost predicate Valid() reads this { Inv(State()) }

    constructor (c: Config)
      ensures Valid() && config == c && State() == NEW_RESPONSE
    {
      config := c;
      closed, headersWritten, left, sseInterval, subscribed := false, false, false, false, false;
      heads, ends, destroyTimers, leftDestroys, trues := [], [], 0, 0, 0;
    }

    method DoFlush()
      modifies this`heads
      ensures State() == Flush(old(State()))
    {
      if heads == [] { heads := [Implicit]; }
    }

    method DoFinished()
      modifies this`closed, this`sseInterval, this`leftDestroys
      ensures State() == Finished(old(State()))
    {
      closed := true;
      if subscribed { DoSettle(false); }
    }

    // The result is false when an exception leaves the method.
    method DoEndResponse(code: nat, data: Data, b: Behaviour) returns (ok: bool)
      modifies this`closed, this`sseInterval, this`leftDestroys, this`heads, this`ends, this`destroyTimers
      ensures var (r, done) := EndResponse(old(State()), code, data, b, config); State() == r && ok == done
    {
      hide Flush, Finished;
      if b.endFinishes || !b.endThrows { DoFlush(); }
      if b.endFinishes { DoFinished(); }
      if b.endThrows { return false; }
      ends := ends + [data];
      closed := true;
      if code == 503 && config.destroyAfterEndDelay >= 0 { destroyTimers := destroyTimers + 1; }
      return true;
    }

    // Succeeds only by writing the response's first and only head; fails once the response is closed or has a head;
    // and stops the keep-alive timer either way.
    method DoDone(code: Option<nat>, data: Option<string>, onlyHeaders: bool, b: Behaviour) returns (ok: bool)
      requires Valid()
      modifies this
      ensures Valid() && !sseInterval
      ensures var (r, done) := Done(old(State()), code, data, onlyHeaders, b, config); State() == r && ok == done
      ensures ok <==> Succeeds(old(State()), code, data, onlyHeaders, b, config)
      ensures ok ==> forall n :: n != 0 && code == Some(n) ==> heads == [Explicit(n)]
      ensures ok && (code == None || code == Some(0)) ==> heads == [Explicit(500)]
      ensures ok && onlyHeaders ==> ends == [] && !closed
      ensures ok && !onlyHeaders ==> |ends| == 1 && IsBody(ends[0], data) && closed
      ensures old(closed) || old(heads) != [] ==> !ok && heads == old(heads)
      ensures destroyTimers == old(destroyTimers) +
        (if |ends| > |old(ends)| && code == Some(503) && config.destroyAfterEndDelay >= 0 then 1 else 0)
    {
      DoneKeepsInv(State(), code, data, onlyHeaders, b, config);
      DoneGives(State(), code, data, onlyHeaders, b, config);
      DoneTimers(State(), code, data, onlyHeaders, b, config);
      hide EndResponse, SendHead, Inv, IsBody, HasField;
      DoSettle(onlyHeaders);
      if closed { return false; }
      if headersWritten {
        ok := DoEndResponse(Status(code), Nothing, b);
        return false;
      }
      ok := DoSendHead(Status(code), ErrorText(data), onlyHeaders, b);
    }

    method DoSettle(onlyHeaders: bool)
      modifies this`sseInterval, this`leftDestroys
      ensures State() == Settle(old(State()), onlyHeaders)
    {
      sseInterval := false;
      if left && (closed || !onlyHeaders) { leftDestroys := leftDestroys + 1; }
    }

    method DoSendHead(status: nat, text: string, onlyHeaders: bool, b: Behaviour) returns (ok: bool)
      modifies this
      ensures var (r, done) := SendHead(old(State()), status, text, onlyHeaders, b, config); State() == r && ok == done
    {
      var body := EmptyText;
      if text != "" {
        if heads != [] || b.setHeaderThrows { return false; }
        body := ErrorObject(text);
      }
      if status == 503 && !config.http2 {
        if heads != [] || b.setHeaderThrows { return false; }
      }
      ok := DoWriteHead(status, body, onlyHeaders, b);
    }

    method DoWriteHead(status: nat, data: Data, onlyHeaders: bool, b: Behaviour) returns (ok: bool)
      modifies this
      ensures var (r, done) := WriteHead(old(State()), status, data, onlyHeaders, b, config); State() == r && ok == done
    {
      hide EndResponse;
      if heads != [] || b.writeHeadThrows {
        ok := DoEndResponse(status, data, b);
        return false;
      }
      heads := heads + [Explicit(status)];
      headersWritten := true;
      if !onlyHeaders {
        ok := DoEndResponse(status, data, b);
        if !ok { return false; }
      }
      trues := trues + 1;
      return true;
    }

    // The client stream is there, to be destroyed later.
    method OnLeft()
      requires Valid()
      modifies this`left
      ensures Valid() && left
    {
      left := true;
    }

    // `res.write`; the result is whether the response still takes it.
    method OnWrite() returns (taken: bool)
      requires Valid()
      modifies this`heads
      ensures Valid() && taken == !closed && (taken ==> heads != [])
      ensures State() == Step(old(State()), EvWrite, Behaviour(false, false, false, false), config)
    {
      taken := !closed;
      if taken && heads == [] { heads := [Implicit]; }
    }

    method OnClosed(b: Behaviour)
      requires Valid()
      modifies this
      ensures Valid() && closed && !sseInterval && heads == old(heads)
      ensures State() == Step(old(State()), EvClosed, b, config)
    {
      closed := true;
      if subscribed { var _ := DoDone(None, None, false, b); }
    }

    // The response becomes an event stream exactly if nothing was sent before, unless the head throws otherwise.
    method OnSubscribed(keepAlive: bool, b: Behaviour) returns (ok: bool)
      requires Valid()
      modifies this
      ensures Valid() && State() == Step(old(State()), EvSubscribed(keepAlive), b, config)
      ensures ok <==> !old(closed) && old(heads) == [] && !b.writeHeadThrows
      ensures ok ==> subscribed && heads == [Explicit(200)] && sseInterval == keepAlive && !closed
      ensures !ok && b.Calm() ==> closed
    {
      ok := DoDone(Some(200), Some(""), true, b);
      if ok {
        subscribed := true;
        sseInterval := keepAlive;
      }
    }
  }

  // ---- What holds in every run ----

  function Run(r: Response, es: seq<(Event, Behaviour)>, c: Config): Response
    decreases |es|
  {
    if es == [] then r else Run(Step(r, es[0].0, es[0].1, c), es[1..], c)
  }

  lemma {:induction false} RunKeepsInv(r: Response, es: seq<(Event, Behaviour)>, c: Config)
    requires Inv(r)
    ensures Inv(Run(r, es, c))
    decreases |es|
  {
    if es != [] {
      StepKeepsInv(r, es[0].0, es[0].1, c);
      RunKeepsInv(Step(r, es[0].0, es[0].1, c), es[1..], c);
    }
  }

  /** Over every sequence of calls, handler writes, close events and exceptions: at most one head is sent, explicit or
      implicit, the response is ended at most once, `done` returns true at most once, and the keep-alive timer runs
      only on a subscription whose 200 head was written. */
  lemma AtMostOnce(es: seq<(Event, Behaviour)>, c: Config)
    ensures var r := Run(NEW_RESPONSE, es, c);
      && |r.heads| <= 1 && |r.ends| <= 1 && r.trues <= 1 && r.destroyTimers <= |r.ends|
      && (r.sseInterval ==> r.subscribed && r.heads == [Explicit(200)] && r.trues == 1)
  {
    RunKeepsInv(NEW_RESPONSE, es, c);
  }

  /** The next call of `done`, from wherever it comes, stops the timer; nothing but a subscription's own
      successful head starts it; and once there is a head, or the response is closed, `done` fails. */
  lemma KeepAliveStops(r: Response, e: Event, b: Behaviour, c: Config)
    requires Inv(r)
    ensures e.EvDone? ==> !Step(r, e, b, c).sseInterval
    ensures e.EvClosed? ==> !Step(r, e, b, c).sseInterval
    ensures !r.sseInterval && Step(r, e, b, c).sseInterval ==>
      e.EvSubscribed? && e.keepAlive && !r.closed && r.heads == [] && Step(r, e, b, c).heads == [Explicit(200)]
    ensures r.closed || r.heads != [] ==> Step(r, e, b, c).trues == r.trues && Step(r, e, b, c).heads == r.heads
  {
  }

  // ---- Writes before the head ----

  predicate NoWrites(es: seq<(Event, Behaviour)>) { forall i :: 0 <= i < |es| ==> !es[i].0.EvWrite? }

  lemma StepHeads(r: Response, e: Event, b: Behaviour, c: Config)
    requires Inv(r)
    ensures var r' := Step(r, e, b, c);
      && (r.closed ==> r'.closed) && (r.headersWritten ==> r'.headersWritten)
      && (!r'.closed && !r'.headersWritten ==> (r'.heads != [] <==> r.heads != [] || e.EvWrite?))
  {
  }

  lemma {:induction false} OpenHeads(r: Response, es: seq<(Event, Behaviour)>, c: Config)
    requires Inv(r) && var r' := Run(r, es, c); !r'.closed && !r'.headersWritten
    ensures !r.closed && !r.headersWritten
    ensures Run(r, es, c).heads != [] <==> r.heads != [] || !NoWrites(es)
    decreases |es|
  {
    hide Step;
    if es != [] {
      var r1 := Step(r, es[0].0, es[0].1, c);
      StepKeepsInv(r, es[0].0, es[0].1, c);
      OpenHeads(r1, es[1..], c);
      StepHeads(r, es[0].0, es[0].1, c);
      assert NoWrites(es) <==> !es[0].0.EvWrite? && NoWrites(es[1..]) by {
        assert forall i :: 0 < i < |es| ==> es[i] == es[1..][i - 1];
      }
    }
  }

  /** A response still open and without a head of its own becomes an event stream exactly when no handler has written
      to it; if one has, the response is ended instead. */
  lemma SubscribedExactly(es: seq<(Event, Behaviour)>, keepAlive: bool, b: Behaviour, c: Config)
    requires var r := Run(NEW_RESPONSE, es, c); !r.closed && !r.headersWritten
    requires b.Calm()
    ensures var r' := Step(Run(NEW_RESPONSE, es, c), EvSubscribed(keepAlive), b, c);
      && (r'.subscribed <==> NoWrites(es))
      && (!r'.subscribed ==> r'.closed && r'.heads == [Implicit] && r'.ends == [EmptyText])
  {
    RunKeepsInv(NEW_RESPONSE, es, c);
    OpenHeads(NEW_RESPONSE, es, c);
  }

  /** So one message delivered before the last topic is subscribed to keeps the stream from starting. */
  lemma WriteBeforeHead(c: Config)
    ensures var b := Behaviour(false, false, false, false);
      var r := Run(NEW_RESPONSE, [(EvWrite, b), (EvSubscribed(true), b)], c);
      !r.subscribed && !r.sseInterval && r.heads == [Implicit] && r.ends == [EmptyText]
  {
    var b := Behaviour(false, false, false, false);
    var es := [(EvWrite, b), (EvSubscribed(true), b)];
    assert es[1..] == [(EvSubscribed(true), b)] && es[1..][1..] == [];
    var r1 := Step(NEW_RESPONSE, EvWrite, b, c);
    var r2 := Step(r1, EvSubscribed(true), b, c);
    assert r2.ends == [EmptyText] && r2.heads == [Implicit];
    assert Run(r1, es[1..], c) == Run(r2, [], c);
  }

  /** With nothing else thrown, a `done` that is to end an open response ends it exactly when `done` wrote the head, no
      handler has written, or there is no field to set. */
  lemma DoneEnds(es: seq<(Event, Behaviour)>, code: Option<nat>, data: Option<string>, b: Behaviour, c: Config)
    requires !Run(NEW_RESPONSE, es, c).closed && b.Calm()
    ensures var r := Run(NEW_RESPONSE, es, c);
      Done(r, code, data, false, b, c).0.closed <==>
      r.headersWritten || NoWrites(es) || !HasField(code, data, c)
  {
    var r := Run(NEW_RESPONSE, es, c);
    RunKeepsInv(NEW_RESPONSE, es, c);
    if !r.headersWritten { OpenHeads(NEW_RESPONSE, es, c); }
    OneDone(r, code, data, b, c);
  }

  lemma OneDone(r: Response, code: Option<nat>, data: Option<string>, b: Behaviour, c: Config)
    requires Inv(r) && !r.closed && b.Calm()
    ensures Done(r, code, data, false, b, c).0.closed <==>
      r.headersWritten || r.heads == [] || !HasField(code, data, c)
  {
  }

  /** So a subscription that fails after a message was delivered leaves its response open: its error text is lost. */
  lemma FailureLeavesOpen(c: Config)
    ensures var b := Behaviour(false, false, false, false);
      var r := Run(NEW_RESPONSE, [(EvWrite, b), (EvDone(None, None, false), b)], c);
      !r.closed && r.heads == [Implicit] && r.ends == []
  {
    var b := Behaviour(false, false, false, false);
    var es := [(EvWrite, b), (EvDone(None, None, false), b)];
    assert es[1..] == [(EvDone(None, None, false), b)] && es[1..][1..] == [];
    var r1 := Step(NEW_RESPONSE, EvWrite, b, c);
    var r2 := Step(r1, EvDone(None, None, false), b, c);
    assert r2.ends == [] && r2.heads == [Implicit] && !r2.closed;
    assert Run(r1, es[1..], c) == Run(r2, [], c);
  }

  // Writes, and calls of `done` that have a field to set.
  predicate KeepsOpen(e: Event, c: Config) {
    e.EvWrite? || e.EvLeft? || (e.EvDone? && HasField(e.code, e.data, c))
  }

  lemma StaysOpen(r: Response, e: Event, b: Behaviour, c: Config)
    requires Inv(r) && !r.closed && r.heads == [Implicit] && KeepsOpen(e, c)
    ensures var r' := Step(r, e, b, c); !r'.closed && r'.heads == [Implicit] && r'.ends == r.ends
  {
  }

  /** From then on no further write and no further `done` with an error text ends it. */
  lemma {:induction false} NeverEnded(r: Response, es: seq<(Event, Behaviour)>, c: Config)
    requires Inv(r) && !r.closed && r.heads == [Implicit]
    requires forall i :: 0 <= i < |es| ==> KeepsOpen(es[i].0, c)
    ensures var r' := Run(r, es, c); !r'.closed && r'.heads == [Implicit] && r'.ends == r.ends
    decreases |es|
  {
    hide Step, Inv;
    if es != [] {
      StaysOpen(r, es[0].0, es[0].1, c);
      StepKeepsInv(r, es[0].0, es[0].1, c);
      NeverEnded(Step(r, es[0].0, es[0].1, c), es[1..], c);
    }
  }
}
