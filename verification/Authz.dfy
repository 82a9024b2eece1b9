/** lib/server.js `transport_authorize`: authorization attempts, their tokens, and their end when the server
    shuts down.  An attempt can be reported on by cancellation, by the reader of the stream, and by the
    stream's close, in any number and order. */
module Authz {
  import opened Wrappers
  import Tokens

  type AttemptId = nat
  type Uri = string

  datatype Config = Config(maxTokens: nat, maxTokenLength: nat, privileged: bool)

  // What got_tokens is called with.
  datatype Report = Error | Missing | Text(s: string) | List(ts: seq<string>)

  // What the authorizer says of one token: refused, or its URI and whether its payload fits the schema.
  datatype Checked = Refused | Handshake(uri: Uri, valid: bool)

  datatype Outcome = Rejected | Accepted(uris: seq<Uri>)

  // `tokens` are being authorized; `settled` says that `cb` was called.  `ends` counts authz_end events,
  // `outcomes` are the calls of the transport's callback, `destroys` counts shutdown destroys.
  datatype Attempt = Attempt(ended: bool, tokens: Option<seq<string>>, settled: bool, ends: nat,
                             outcomes: seq<Outcome>, destroys: nat)

  datatype State = State(pending: set<AttemptId>, attempts: map<AttemptId, Attempt>)

  const NO_ATTEMPTS := State({}, map[])
  const STARTED := Attempt(false, None, false, 0, [], 0)

  // ---- Tokens ----

  // The tokens to authorize, unless the report is an error or there are too few or too many.
  function ToAuthorize(r: Report, c: Config): Option<seq<string>> {
    var ts := match r
      case Error => []
      case Missing => []
      case Text(s) => Tokens.Recovered(s)
      case List(ts) => ts;
    if ts == [] || (c.maxTokens != 0 && |ts| > c.maxTokens) then None else Some(ts)
  }

  // A report that gives tokens, not too many of them.
  predicate Gives(r: Report, ts: seq<string>, c: Config) {
    && 1 <= |ts| && (c.maxTokens == 0 || |ts| <= c.maxTokens)
    && (r == List(ts) || (r.Text? && ts == Tokens.Recovered(r.s)))
  }

  ghost predicate Usable(r: Report, c: Config) { exists ts :: Gives(r, ts, c) }

  /** A report is refused exactly when it gives no tokens to authorize, and otherwise they are the tokens it gives. */
  lemma ReportRead(r: Report, c: Config)
    ensures forall ts :: ToAuthorize(r, c) == Some(ts) <==> Gives(r, ts, c)
    ensures ToAuthorize(r, c).Some? <==> Usable(r, c)
  {
    if ToAuthorize(r, c).Some? { assert Gives(r, ToAuthorize(r, c).value, c); }
  }

  predicate TooLong(t: string, c: Config) { c.maxTokenLength != 0 && |t| > c.maxTokenLength }

  ghost predicate Distinct(hs: seq<Checked>) {
    forall i, j :: 0 <= i < j < |hs| && hs[i].Handshake? && hs[j].Handshake? ==> hs[i].uri != hs[j].uri
  }

  /** When a list of authorized tokens is acceptable. */
  ghost predicate Acceptable(ts: seq<string>, hs: seq<Checked>, c: Config) {
    && |ts| == |hs|
    && (c.maxTokenLength != 0 ==> forall i :: 0 <= i < |ts| ==> |ts[i]| <= c.maxTokenLength)
    && (forall i :: 0 <= i < |hs| ==> hs[i].Handshake? && hs[i].valid)
    && (c.privileged ==> |hs| <= 1)
    && Distinct(hs)
  }

  // The series over the tokens, then the loop over the handshakes.
  method Verdict(ts: seq<string>, answers: seq<Checked>, c: Config) returns (o: Outcome)
    requires |ts| == |answers|
    ensures o.Accepted? <==> Acceptable(ts, answers, c)
    ensures o.Accepted? ==> |o.uris| == |answers|
    ensures o.Accepted? ==> forall i :: 0 <= i < |answers| ==> answers[i].Handshake? && o.uris[i] == answers[i].uri
  {
    var handshakes: seq<Checked> := [];
    for i := 0 to |ts|
      invariant handshakes == answers[..i]
      invariant forall k :: 0 <= k < i ==> !TooLong(ts[k], c) && answers[k].Handshake?
    {
      if TooLong(ts[i], c) || answers[i].Refused? { return Rejected; }
      handshakes := handshakes + [answers[i]];
    }
    if c.privileged && |handshakes| > 1 { return Rejected; }
    var uris: set<Uri> := {};
    var list: seq<Uri> := [];
    for i := 0 to |handshakes|
      invariant |list| == i && forall k :: 0 <= k < i ==> answers[k].valid && list[k] == answers[k].uri
      invariant uris == set k | 0 <= k < i :: answers[k].uri
      invariant Distinct(answers[..i])
    {
      var hs := handshakes[i];
      if !hs.valid { return Rejected; }
      if hs.uri in uris {
        var k :| 0 <= k < i && answers[k].uri == hs.uri;
        assert answers[i].uri == hs.uri;
        return Rejected;
      }
      assert answers[..i + 1] == answers[..i] + [hs];
      uris := uris + {hs.uri};
      list := list + [hs.uri];
    }
    assert answers[..|answers|] == answers;
    return Accepted(list);
  }

  // ---- Steps ----

  function Begin(s: State, id: AttemptId): State {
    State(s.pending + {id}, s.attempts[id := STARTED])
  }

  // cb
  function Settle(s: State, id: AttemptId, o: Outcome): State
    requires id in s.attempts
  {
    var a := s.attempts[id].(settled := true, ends := s.attempts[id].ends + 1);
    State(s.pending - {id}, s.attempts[id := if id in s.pending then a.(outcomes := a.outcomes + [o]) else a])
  }

  function GotTokens(s: State, id: AttemptId, r: Report, c: Config): State
    requires id in s.attempts
  {
    var a := s.attempts[id];
    if a.ended then s
    else
      var ts := ToAuthorize(r, c);
      var s' := s.(attempts := s.attempts[id := a.(ended := true, tokens := ts)]);
      if ts.None? then Settle(s', id, Rejected) else s'
  }

  // close_transports: destroys every pending attempt.  `sync` says whose destroy reports at once.
  function Shutdown(s: State, sync: set<AttemptId>): State {
    State({}, map id | id in s.attempts ::
      if id in s.pending then Destroyed(s.attempts[id], id in sync) else s.attempts[id])
  }

  function Destroyed(a: Attempt, sync: bool): Attempt {
    var a := a.(destroys := a.destroys + 1);
    if sync && !a.ended then
      a.(ended := true, tokens := None, settled := true, ends := a.ends + 1, outcomes := a.outcomes + [Rejected])
    else a
  }

  datatype Event =
    | EvStart(id: AttemptId)
    | EvReport(id: AttemptId, r: Report)
    | EvAuthorized(id: AttemptId, o: Outcome)
    | EvShutdown(sync: set<AttemptId>)

  // The series over an attempt's tokens finishes once.
  predicate Enabled(s: State, e: Event) {
    match e
    case EvStart(id) => id !in s.attempts
    case EvReport(id, _) => id in s.attempts
    case EvAuthorized(id, _) => id in s.attempts && s.attempts[id].tokens.Some? && !s.attempts[id].settled
    case EvShutdown(_) => true
  }

  function Step(s: State, e: Event, c: Config): State
    requires Enabled(s, e)
  {
    match e
    case EvStart(id) => Begin(s, id)
    case EvReport(id, r) => GotTokens(s, id, r, c)
    case EvAuthorized(id, o) => Settle(s, id, o)
    case EvShutdown(sync) => Shutdown(s, sync)
  }

  class Authorizer {
    const config: Config
    var pending: set<AttemptId>
    var attempts: map<AttemptId, Attempt>

    ghost function Now(): State reads this { State(pending, attempts) }

    // Acceptable tokens are accepted, each with its URI; all others are rejected.
    ghost predicate IsVerdict(o: Outcome, ts: seq<string>, answers: seq<Checked>) {
      && (o.Accepted? <==> Acceptable(ts, answers, config))
      && (o.Accepted? ==> |o.uris| == |answers|)
      && (o.Accepted? ==> forall i :: 0 <= i < |answers| ==> answers[i].Handshake? && o.uris[i] == answers[i].uri)
    }

    constructor (c: Config)
      ensures config == c && Now() == NO_ATTEMPTS
    {
      config, pending, attempts := c, {}, map[];
    }

    method TransportAuthorize(id: AttemptId)
      requires id !in attempts
      modifies this
      ensures Now() == Begin(old(Now()), id)
    {
      attempts := attempts[id := STARTED];
      pending := pending + {id};
    }

    method DoCallback(id: AttemptId, o: Outcome)
      requires id in attempts
      modifies this
      ensures Now() == Settle(old(Now()), id, o)
      ensures id in attempts && attempts[id].settled && id !in pending
      ensures attempts[id].outcomes == old(attempts[id].outcomes) + if old(id in pending) then [o] else []
    {
      var a := attempts[id];
      attempts := attempts[id := a.(settled := true, ends := a.ends + 1)];
      if id in pending {
        attempts := attempts[id := attempts[id].(outcomes := a.outcomes + [o])];
      }
      pending := pending - {id};
    }

    method DoGotTokens(id: AttemptId, r: Report)
      requires id in attempts
      modifies this
      ensures Now() == GotTokens(old(Now()), id, r, config)
      ensures id in attempts && attempts[id].ended
      ensures !old(attempts[id].ended) ==> forall ts :: attempts[id].tokens == Some(ts) <==> Gives(r, ts, config)
      ensures !old(attempts[id].ended) && attempts[id].tokens.None? ==>
        attempts[id].outcomes == old(attempts[id].outcomes) + if old(id in pending) then [Rejected] else []
    {
      ReportRead(r, config);
      hide ToAuthorize, Gives, Usable;
      if attempts[id].ended { return; }
      var ts := ToAuthorize(r, config);
      attempts := attempts[id := attempts[id].(ended := true, tokens := ts)];
      if ts.None? { DoCallback(id, Rejected); }
    }

    method Authorized(id: AttemptId, answers: seq<Checked>)
      requires Enabled(Now(), EvAuthorized(id, Rejected)) && |answers| == |attempts[id].tokens.value|
      modifies this
      ensures exists o :: Now() == Settle(old(Now()), id, o) && IsVerdict(o, old(attempts[id].tokens.value), answers)
      ensures id in attempts && attempts[id].settled && id !in pending
      ensures !old(id in pending) ==> attempts[id].outcomes == old(attempts[id].outcomes)
      ensures old(id in pending) ==> exists o ::
        && attempts[id].outcomes == old(attempts[id].outcomes) + [o]
        && IsVerdict(o, old(attempts[id].tokens.value), answers)
    {
      var o := Verdict(attempts[id].tokens.value, answers, config);
      DoCallback(id, o);
    }

    // An attempt may leave the set while the loop goes over it.
    method CloseTransports(sync: set<AttemptId>)
      requires pending <= attempts.Keys
      modifies this
      ensures Now() == Shutdown(old(Now()), sync)
    {
      ghost var s := Now();
      var visited: set<AttemptId> := {};
      assert attempts == AfterVisit(s, {}, sync);
      while pending - visited != {}
        invariant visited <= s.pending && pending <= s.pending && s.pending - visited <= pending
        invariant attempts == AfterVisit(s, visited, sync)
        decreases s.pending - visited
      {
        var id :| id in pending - visited;
        ghost var before := attempts;
        attempts := attempts[id := attempts[id].(destroys := attempts[id].destroys + 1)];
        if id in sync && !attempts[id].ended {
          DoGotTokens(id, Error);
        }
        assert attempts == before[id := Destroyed(before[id], id in sync)];
        assert attempts == AfterVisit(s, visited + {id}, sync);
        visited := visited + {id};
      }
      pending := {};
      assert visited == s.pending;
    }
  }

  ghost function AfterVisit(s: State, visited: set<AttemptId>, sync: set<AttemptId>): map<AttemptId, Attempt> {
    map id | id in s.attempts :: if id in visited then Destroyed(s.attempts[id], id in sync) else s.attempts[id]
  }

  // ---- What holds in every run ----

  // What has reached the transport: the outcome, the shutdown's destroy, or both.
  function Reached(a: Attempt): nat { |a.outcomes| + a.destroys }

  ghost predicate AttemptOk(a: Attempt, pending: bool) {
    && a.ends == (if a.settled then 1 else 0)
    && (a.settled || a.tokens.Some? ==> a.ended)
    && (a.ended && !a.settled ==> a.tokens.Some?)
    && |a.outcomes| <= 1 && a.destroys <= 1
    && (a.outcomes != [] ==> a.settled)
    && (pending ==> !a.settled && a.outcomes == [] && a.destroys == 0)
    && (!pending ==> Reached(a) >= 1)
  }

  ghost predicate Inv(s: State) {
    && s.pending <= s.attempts.Keys
    && forall id :: id in s.attempts ==> AttemptOk(s.attempts[id], id in s.pending)
  }

  lemma StepKeepsInv(s: State, e: Event, c: Config)
    requires Inv(s) && Enabled(s, e)
    ensures Inv(Step(s, e, c))
  {
  }

  ghost predicate IsRun(s: State, es: seq<Event>, c: Config)
    decreases |es|
  {
    es == [] || (Enabled(s, es[0]) && IsRun(Step(s, es[0], c), es[1..], c))
  }

  ghost function Run(s: State, es: seq<Event>, c: Config): State
    requires IsRun(s, es, c)
    decreases |es|
  {
    if es == [] then s else Run(Step(s, es[0], c), es[1..], c)
  }

  lemma {:induction false} RunKeepsInv(s: State, es: seq<Event>, c: Config)
    requires Inv(s) && IsRun(s, es, c)
    ensures Inv(Run(s, es, c))
    decreases |es|
  {
    if es != [] {
      StepKeepsInv(s, es[0], c);
      RunKeepsInv(Step(s, es[0], c), es[1..], c);
    }
  }

  // A shutdown of the run finds the attempt pending and not ended, and its destroy reports at once.
  ghost predicate Caught(s: State, es: seq<Event>, c: Config, id: AttemptId)
    requires IsRun(s, es, c)
    decreases |es|
  {
    && es != []
    && (CaughtNow(s, es[0], id) || Caught(Step(s, es[0], c), es[1..], c, id))
  }

  predicate CaughtNow(s: State, e: Event, id: AttemptId) {
    e.EvShutdown? && id in s.pending && id in e.sync && id in s.attempts && !s.attempts[id].ended
  }

  lemma StepReached(s: State, e: Event, c: Config, id: AttemptId)
    requires Inv(s) && Enabled(s, e) && id in Step(s, e, c).attempts
    ensures var s' := Step(s, e, c);
      if id in s.attempts && id !in s.pending then
        id !in s'.pending && Reached(s'.attempts[id]) == Reached(s.attempts[id]) && !CaughtNow(s, e, id)
      else
        Reached(s'.attempts[id]) == if id in s'.pending then 0 else if CaughtNow(s, e, id) then 2 else 1
  {
  }

  lemma {:induction false} RunReached(s: State, es: seq<Event>, c: Config, id: AttemptId)
    requires Inv(s) && IsRun(s, es, c) && id in Run(s, es, c).attempts
    ensures var s' := Run(s, es, c);
      if id in s.attempts && id !in s.pending then
        id !in s'.pending && Reached(s'.attempts[id]) == Reached(s.attempts[id]) && !Caught(s, es, c, id)
      else
        && (id in s'.pending ==> Reached(s'.attempts[id]) == 0 && !Caught(s, es, c, id))
        && (id !in s'.pending ==> Reached(s'.attempts[id]) == if Caught(s, es, c, id) then 2 else 1)
    decreases |es|
  {
    if es != [] {
      var s1 := Step(s, es[0], c);
      StepKeepsInv(s, es[0], c);
      RunReached(s1, es[1..], c, id);
      if id in s1.attempts { StepReached(s, es[0], c, id); }
    }
  }

  /** Over every run, an attempt no longer pending has reached its transport exactly once, with the outcome or with the
      shutdown's destroy, except that it is both exactly when a shutdown found it pending and not ended and its destroy
      reported at once. */
  lemma BothReach(es: seq<Event>, c: Config, id: AttemptId)
    requires IsRun(NO_ATTEMPTS, es, c) && id in Run(NO_ATTEMPTS, es, c).attempts
    ensures var s := Run(NO_ATTEMPTS, es, c); var a := s.attempts[id];
      && (id in s.pending ==> Reached(a) == 0)
      && (id !in s.pending ==> (Reached(a) == 1 <==> !Caught(NO_ATTEMPTS, es, c, id)))
      && (Caught(NO_ATTEMPTS, es, c, id) ==> |a.outcomes| == 1 && a.destroys == 1)
  {
    RunKeepsInv(NO_ATTEMPTS, es, c);
    RunReached(NO_ATTEMPTS, es, c, id);
    assert AttemptOk(Run(NO_ATTEMPTS, es, c).attempts[id], id in Run(NO_ATTEMPTS, es, c).pending);
  }

  /** So the shutdown of an attempt that has just begun can give its transport both. */
  lemma BothReachOne(c: Config)
    ensures var es := [EvStart(0), EvShutdown({0})];
      && IsRun(NO_ATTEMPTS, es, c)
      && 0 in Run(NO_ATTEMPTS, es, c).attempts
      && Run(NO_ATTEMPTS, es, c).attempts[0].outcomes == [Rejected]
      && Run(NO_ATTEMPTS, es, c).attempts[0].destroys == 1
  {
    var es := [EvStart(0), EvShutdown({0})];
    var s1 := Step(NO_ATTEMPTS, es[0], c);
    var s2 := Step(s1, es[1], c);
    assert es[1..] == [EvShutdown({0})] && es[1..][1..] == [];
    assert IsRun(s2, [], c) && Run(s2, [], c) == s2;
    assert IsRun(s1, es[1..], c) && Run(s1, es[1..], c) == s2;
  }

  // ---- Which outcome ----

  // A step gives the transport of an attempt an outcome: the attempt is pending, and is refused by its first report or
  // by a shutdown whose destroy reports at once, or its tokens have been authorized or not.
  ghost predicate DeliversNow(s: State, e: Event, c: Config, id: AttemptId, o: Outcome) {
    && id in s.pending && id in s.attempts
    && match e
       case EvStart(_) => false
       case EvReport(i, r) => i == id && !s.attempts[id].ended && o == Rejected && !Usable(r, c)
       case EvAuthorized(i, verdict) => i == id && o == verdict
       case EvShutdown(sync) => id in sync && !s.attempts[id].ended && o == Rejected
  }

  ghost predicate Delivers(s: State, es: seq<Event>, c: Config, id: AttemptId, o: Outcome)
    requires IsRun(s, es, c)
    decreases |es|
  {
    es != [] && (DeliversNow(s, es[0], c, id, o) || Delivers(Step(s, es[0], c), es[1..], c, id, o))
  }

  function OutcomesOf(s: State, id: AttemptId): seq<Outcome> {
    if id in s.attempts then s.attempts[id].outcomes else []
  }

  lemma StepDelivers(s: State, e: Event, c: Config, id: AttemptId, o: Outcome)
    requires Inv(s) && Enabled(s, e)
    ensures OutcomesOf(Step(s, e, c), id) == [o] <==> OutcomesOf(s, id) == [o] || DeliversNow(s, e, c, id, o)
    ensures OutcomesOf(s, id) <= OutcomesOf(Step(s, e, c), id)
  {
    hide ToAuthorize, Usable;
    if e.EvReport? { ReportRead(e.r, c); }
    if id in s.attempts { assert AttemptOk(s.attempts[id], id in s.pending); }
    var given := if e.EvAuthorized? then e.o else Rejected;
    if DeliversNow(s, e, c, id, given) {
      assert OutcomesOf(Step(s, e, c), id) == [given];
      assert [given][0] == given && [o][0] == o;
    } else {
      assert OutcomesOf(Step(s, e, c), id) == OutcomesOf(s, id);
    }
  }

  /** Over every run, the outcome that reaches the transport is the verdict on the attempt's tokens, or a rejection by
      its first report or by a shutdown; and each of these reaches it exactly if the attempt is still pending. */
  lemma {:induction false} OutcomeGiven(s: State, es: seq<Event>, c: Config, id: AttemptId, o: Outcome)
    requires Inv(s) && IsRun(s, es, c)
    ensures OutcomesOf(Run(s, es, c), id) == [o] <==> OutcomesOf(s, id) == [o] || Delivers(s, es, c, id, o)
    decreases |es|
  {
    hide Step, Inv, DeliversNow;
    if es != [] {
      StepKeepsInv(s, es[0], c);
      StepDelivers(s, es[0], c, id, o);
      OutcomeGiven(Step(s, es[0], c), es[1..], c, id, o);
    }
  }

  // Every shutdown destroy returns before it reports anything.
  predicate DestroysAreAsync(es: seq<Event>) { forall i :: 0 <= i < |es| && es[i].EvShutdown? ==> es[i].sync == {} }

  lemma {:induction false} AsyncNotCaught(s: State, es: seq<Event>, c: Config, id: AttemptId)
    requires IsRun(s, es, c) && DestroysAreAsync(es)
    ensures !Caught(s, es, c, id)
    decreases |es|
  {
    if es != [] {
      assert forall i :: 0 <= i < |es[1..]| ==> es[1..][i] == es[i + 1];
      AsyncNotCaught(Step(s, es[0], c), es[1..], c, id);
    }
  }

  /** However often an attempt is reported on, it ends at most once.  With asynchronous destroys, once it is
      no longer pending exactly one of the outcome and the shutdown destroy has reached the transport. */
  lemma EndsOnce(es: seq<Event>, c: Config, id: AttemptId)
    requires IsRun(NO_ATTEMPTS, es, c) && id in Run(NO_ATTEMPTS, es, c).attempts
    ensures var s := Run(NO_ATTEMPTS, es, c); var a := s.attempts[id];
      && a.ends <= 1 && |a.outcomes| <= 1 && a.destroys <= 1
      && (a.ends == 1 <==> a.settled) && (a.outcomes != [] ==> a.ends == 1)
      && (id !in s.pending && DestroysAreAsync(es) ==> Reached(a) == 1)
  {
    RunKeepsInv(NO_ATTEMPTS, es, c);
    assert AttemptOk(Run(NO_ATTEMPTS, es, c).attempts[id], id in Run(NO_ATTEMPTS, es, c).pending);
    BothReach(es, c, id);
    if DestroysAreAsync(es) { AsyncNotCaught(NO_ATTEMPTS, es, c, id); }
  }
}
