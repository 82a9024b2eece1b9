/** lib/server_extensions/limit_active.js: counters shared by all connections. */
module LimitActive {
  import Sets

  type RequestId = nat
  type ConnId = nat

  // ---- limit_active_publications ----

  // `decrements` is whether the `decrement` variable still takes one off the count.
  datatype Request = Request(admitted: bool, decrements: bool, answers: nat)

  datatype Publications = Publications(count: int, requests: map<RequestId, Request>)

  datatype PubEvent = Requested(id: RequestId) | Answered(id: RequestId)

  predicate PubEnabled(s: Publications, e: PubEvent) {
    if e.Requested? then e.id !in s.requests else e.id in s.requests && s.requests[e.id].admitted
  }

  function PubStep(s: Publications, e: PubEvent, max: int): Publications
    requires PubEnabled(s, e)
  {
    match e
    case Requested(id) =>
      if s.count >= max then s.(requests := s.requests[id := Request(false, false, 1)])
      else Publications(s.count + 1, s.requests[id := Request(true, true, 0)])
    case Answered(id) =>
      var r := s.requests[id];
      Publications(if r.decrements then s.count - 1 else s.count,
                   s.requests[id := r.(decrements := false, answers := r.answers + 1)])
  }

  function Unanswered(s: Publications): set<RequestId> {
    set id | id in s.requests && s.requests[id].admitted && s.requests[id].answers == 0
  }

  ghost predicate PubInv(s: Publications, max: int) {
    && s.count == |Unanswered(s)| && s.count <= max
    && forall id :: id in s.requests ==>
      (s.requests[id].decrements <==> s.requests[id].admitted && s.requests[id].answers == 0)
  }

  lemma UnansweredAfter(s: Publications, e: PubEvent, max: int)
    requires PubEnabled(s, e)
    ensures Unanswered(PubStep(s, e, max)) ==
      if e.Answered? then Unanswered(s) - {e.id}
      else if s.count >= max then Unanswered(s) else Unanswered(s) + {e.id}
  {
  }

  lemma PubStepKeepsInv(s: Publications, e: PubEvent, max: int)
    requires PubInv(s, max) && PubEnabled(s, e)
    ensures PubInv(PubStep(s, e, max), max)
  {
    var before := Unanswered(s);
    UnansweredAfter(s, e, max);
    if e.Answered? && s.requests[e.id].answers > 0 { assert before - {e.id} == before; }
  }

  lemma NoPublicationsInv(max: int)
    ensures PubInv(Publications(0, map[]), max) <==> max >= 0
  {
    assert Unanswered(Publications(0, map[])) == {};
  }

  class PublicationLimit {
    const max: int
    var count: int
    var requests: map<RequestId, Request>

    ghost function State(): Publications reads this { Publications(count, requests) }

    // The count is the number of admitted requests not yet answered, within the maximum.
    ghost predicate Valid() reads this { PubInv(State(), max) }

    constructor (m: int)
      ensures max == m && State() == Publications(0, map[]) && (Valid() <==> m >= 0)
    {
      max, count, requests := m, 0, map[];
      NoPublicationsInv(m);
    }

    // Admits exactly while fewer than the maximum are unanswered.
    method PublishRequested(id: RequestId) returns (admitted: bool)
      requires Valid() && id !in requests
      modifies this
      ensures Valid() && State() == PubStep(old(State()), Requested(id), max)
      ensures admitted <==> |Unanswered(old(State()))| < max
      ensures Unanswered(State()) == if admitted then Unanswered(old(State())) + {id} else Unanswered(old(State()))
    {
      PubStepKeepsInv(State(), Requested(id), max);
      UnansweredAfter(State(), Requested(id), max);
      if count >= max {
        requests := requests[id := Request(false, false, 1)];
        return false;
      }
      count := count + 1;
      requests := requests[id := Request(true, true, 0)];
      return true;
    }

    // cb2: the callback handed on; it may be called again, and then changes no count.
    method Callback(id: RequestId)
      requires Valid() && id in requests && requests[id].admitted
      modifies this
      ensures Valid() && State() == PubStep(old(State()), Answered(id), max)
      ensures Unanswered(State()) == Unanswered(old(State())) - {id}
      ensures old(requests[id].answers) > 0 ==> count == old(count)
    {
      assert requests[id].decrements <==> requests[id].answers == 0;
      hide PubInv, Unanswered;
      PubStepKeepsInv(State(), Answered(id), max);
      UnansweredAfter(State(), Answered(id), max);
      var r := requests[id];
      if r.decrements { count := count - 1; }
      requests := requests[id := r.(decrements := false, answers := r.answers + 1)];
    }
  }

  predicate PubIsRun(s: Publications, es: seq<PubEvent>, max: int)
    decreases |es|
  {
    es == [] || (PubEnabled(s, es[0]) && PubIsRun(PubStep(s, es[0], max), es[1..], max))
  }

  function PubRun(s: Publications, es: seq<PubEvent>, max: int): Publications
    requires PubIsRun(s, es, max)
    decreases |es|
  {
    if es == [] then s else PubRun(PubStep(s, es[0], max), es[1..], max)
  }

  /** Over every interleaving of requests and of callbacks, however often repeated, the count is the number of
      admitted requests not yet answered, and lies between zero and the maximum. */
  lemma {:induction false} CountIsUnanswered(s: Publications, es: seq<PubEvent>, max: int)
    requires PubInv(s, max) && PubIsRun(s, es, max)
    ensures var s' := PubRun(s, es, max); s'.count == |Unanswered(s')| && 0 <= s'.count <= max
    decreases |es|
  {
    if es != [] {
      PubStepKeepsInv(s, es[0], max);
      CountIsUnanswered(PubStep(s, es[0], max), es[1..], max);
    }
  }

  function AnswersTo(es: seq<PubEvent>, id: RequestId): nat {
    if es == [] then 0 else (if es[0] == Answered(id) then 1 else 0) + AnswersTo(es[1..], id)
  }

  lemma PubStepAnswers(s: Publications, e: PubEvent, max: int, id: RequestId)
    requires PubEnabled(s, e)
    ensures var s' := PubStep(s, e, max);
      if id !in s.requests then
        && (id in s'.requests <==> e == Requested(id))
        && (id in s'.requests ==>
              s'.requests[id].admitted == (s.count < max) && s'.requests[id].answers == if s.count < max then 0 else 1)
      else
        && id in s'.requests && s'.requests[id].admitted == s.requests[id].admitted
        && s'.requests[id].answers == s.requests[id].answers + (if e == Answered(id) then 1 else 0)
        && (e == Answered(id) ==> s.requests[id].admitted)
  {
  }

  lemma {:induction false} AnswersSince(s: Publications, es: seq<PubEvent>, max: int, id: RequestId)
    requires PubIsRun(s, es, max) && id in s.requests
    ensures var r := s.requests[id]; var s' := PubRun(s, es, max);
      && id in s'.requests && s'.requests[id].admitted == r.admitted
      && s'.requests[id].answers == r.answers + AnswersTo(es, id)
      && (!r.admitted ==> AnswersTo(es, id) == 0)
    decreases |es|
  {
    hide PubStep, PubEnabled;
    if es != [] {
      PubStepAnswers(s, es[0], max, id);
      AnswersSince(PubStep(s, es[0], max), es[1..], max, id);
    }
  }

  /** Over every run a refused request is answered exactly once, by the refusal, and an admitted one as often as its
      callback is called. */
  lemma {:induction false} AnsweredOnce(s: Publications, es: seq<PubEvent>, max: int, id: RequestId)
    requires PubIsRun(s, es, max) && id !in s.requests
    ensures var s' := PubRun(s, es, max);
      id in s'.requests ==> s'.requests[id].answers == if s'.requests[id].admitted then AnswersTo(es, id) else 1
    decreases |es|
  {
    hide PubStep;
    if es != [] {
      var s1 := PubStep(s, es[0], max);
      PubStepAnswers(s, es[0], max, id);
      if id in s1.requests { AnswersSince(s1, es[1..], max, id); } else { AnsweredOnce(s1, es[1..], max, id); }
    }
  }

  // ---- limit_active_connections ----

  // The connections seen, those whose close handler has run, and those cancelled.
  datatype Connections = Connections(count: int, seen: set<ConnId>, closed: set<ConnId>, cancelled: set<ConnId>)

  const NO_CONNECTIONS := Connections(0, {}, {}, {})

  // `already`: the connection had closed, so that the close handler runs as it is registered.
  datatype ConnEvent = AuthzStart(id: ConnId, already: bool) | Close(id: ConnId)

  // A close handler runs at most once.
  predicate ConnEnabled(s: Connections, e: ConnEvent) {
    match e
    case AuthzStart(id, _) => id !in s.seen
    case Close(id) => id in s.seen && id !in s.closed
  }

  function ConnStep(s: Connections, e: ConnEvent, max: int): Connections {
    match e
    case AuthzStart(id, already) =>
      var count := s.count + 1;
      var count := if already then count - 1 else count;
      Connections(count, s.seen + {id}, if already then s.closed + {id} else s.closed,
                  if count > max then s.cancelled + {id} else s.cancelled)
    case Close(id) => s.(count := s.count - 1, closed := s.closed + {id})
  }

  function Active(s: Connections): set<ConnId> { s.seen - s.closed - s.cancelled }

  ghost predicate ConnInv(s: Connections, max: int) {
    && s.closed <= s.seen && s.cancelled <= s.seen
    && s.count == |s.seen - s.closed|
    && |Active(s)| <= max
  }

  lemma StartKeepsInv(s: Connections, id: ConnId, already: bool, max: int)
    requires ConnInv(s, max) && id !in s.seen
    ensures ConnInv(ConnStep(s, AuthzStart(id, already), max), max)
  {
    var s' := ConnStep(s, AuthzStart(id, already), max);
    var live := s.seen - s.closed;
    if already {
      assert s'.seen - s'.closed == live;
      Sets.SubsetSize(Active(s'), Active(s));
    } else {
      assert s'.seen - s'.closed == live + {id};
      if s'.count > max { Sets.SubsetSize(Active(s'), Active(s)); } else { Sets.SubsetSize(Active(s'), live + {id}); }
    }
  }

  lemma CloseKeepsInv(s: Connections, id: ConnId, max: int)
    requires ConnInv(s, max) && id in s.seen && id !in s.closed
    ensures ConnInv(ConnStep(s, Close(id), max), max)
  {
    var s' := ConnStep(s, Close(id), max);
    assert s'.seen - s'.closed == (s.seen - s.closed) - {id};
    Sets.SubsetSize(Active(s'), Active(s));
  }

  lemma ConnStepKeepsInv(s: Connections, e: ConnEvent, max: int)
    requires ConnInv(s, max) && ConnEnabled(s, e)
    ensures ConnInv(ConnStep(s, e, max), max)
  {
    match e
    case AuthzStart(id, already) => StartKeepsInv(s, id, already, max);
    case Close(id) => CloseKeepsInv(s, id, max);
  }

  lemma NoConnectionsInv(max: int)
    ensures ConnInv(NO_CONNECTIONS, max) <==> max >= 0
  {
    assert Active(NO_CONNECTIONS) == {};
  }

  lemma ActiveAfterStart(s: Connections, id: ConnId, already: bool, max: int)
    requires ConnInv(s, max) && id !in s.seen
    ensures id !in s.cancelled
    ensures var s' := ConnStep(s, AuthzStart(id, already), max);
      && (id in s'.cancelled <==> |s.seen - s.closed| + (if already then 0 else 1) > max)
      && Active(s') == if already || id in s'.cancelled then Active(s) else Active(s) + {id}
  {
    assert id !in s.cancelled;
  }

  class ConnectionLimit {
    const max: int
    var count: int
    var seen: set<ConnId>
    var closed: set<ConnId>
    var cancelled: set<ConnId>

    ghost function State(): Connections reads this { Connections(count, seen, closed, cancelled) }

    // The count is the number of connections not closed; those not cancelled either are within the maximum.
    ghost predicate Valid() reads this { ConnInv(State(), max) }

    constructor (m: int)
      ensures max == m && State() == NO_CONNECTIONS && (Valid() <==> m >= 0)
    {
      max, count, seen, closed, cancelled := m, 0, {}, {}, {};
      NoConnectionsInv(m);
    }

    // Cancels exactly when, with this one, more connections than the maximum have not closed.
    method DoAuthzStart(id: ConnId, already: bool) returns (cancel: bool)
      requires Valid() && id !in seen
      modifies this
      ensures Valid() && State() == ConnStep(old(State()), AuthzStart(id, already), max)
      ensures cancel <==> |old(seen - closed)| + (if already then 0 else 1) > max
      ensures Active(State()) == if already || cancel then Active(old(State())) else Active(old(State())) + {id}
    {
      hide ConnInv, Active;
      StartKeepsInv(State(), id, already, max);
      ActiveAfterStart(State(), id, already, max);
      count := count + 1;
      seen := seen + {id};
      if already { Decrement(id); }
      cancel := count > max;
      if cancel { cancelled := cancelled + {id}; }
    }

    method Decrement(id: ConnId)
      modifies this`count, this`closed
      ensures count == old(count) - 1 && closed == old(closed) + {id}
    {
      count := count - 1;
      closed := closed + {id};
    }

    method OnClose(id: ConnId)
      requires Valid() && id in seen && id !in closed
      modifies this`count, this`closed
      ensures Valid() && State() == ConnStep(old(State()), Close(id), max)
      ensures Active(State()) == Active(old(State())) - {id}
    {
      CloseKeepsInv(State(), id, max);
      Decrement(id);
    }
  }

  predicate ConnIsRun(s: Connections, es: seq<ConnEvent>, max: int)
    decreases |es|
  {
    es == [] || (ConnEnabled(s, es[0]) && ConnIsRun(ConnStep(s, es[0], max), es[1..], max))
  }

  function ConnRun(s: Connections, es: seq<ConnEvent>, max: int): Connections
    decreases |es|
  {
    if es == [] then s else ConnRun(ConnStep(s, es[0], max), es[1..], max)
  }

  function StartedIn(es: seq<ConnEvent>): set<ConnId> {
    if es == [] then {} else (if es[0].AuthzStart? then {es[0].id} else {}) + StartedIn(es[1..])
  }

  // A run sees every connection that starts in it.
  lemma {:induction false} AllSeen(s: Connections, es: seq<ConnEvent>, max: int)
    ensures ConnRun(s, es, max).seen == s.seen + StartedIn(es)
    decreases |es|
  {
    if es != [] { AllSeen(ConnStep(s, es[0], max), es[1..], max); }
  }

  /** The connections neither closed nor cancelled never outnumber the maximum, and the count is the number of
      connections not closed. */
  lemma {:induction false} ActiveWithinMaximum(s: Connections, es: seq<ConnEvent>, max: int)
    requires ConnInv(s, max) && ConnIsRun(s, es, max)
    ensures var s' := ConnRun(s, es, max); |Active(s')| <= max && s'.count == |s'.seen - s'.closed|
    decreases |es|
  {
    if es != [] {
      ConnStepKeepsInv(s, es[0], max);
      ActiveWithinMaximum(ConnStep(s, es[0], max), es[1..], max);
    }
  }
}
