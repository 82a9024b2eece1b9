/** What the steps of `Lifecycle` change: which connections are told to go, when the shutdown goes on, and when
    callbacks are called. */
module LifecycleSteps {
  import opened Wrappers
  import opened Lifecycle

  // ---- Connections ----

  function Sync(e: Event): set<ConnId> {
    match e
    case EvAnswer(_, sync) => sync
    case EvDestroy(_, sync) => sync
    case EvNotify(_, _, sync) => sync
    case EvAuthzClosed(_, sync) => sync
    case EvContinue(_, sync) => sync
    case _ => {}
  }

  // A connection has a record of another revision of a key than the one given.
  ghost predicate HasOther(c: Conn, uri: Uri, rev: Option<Rev>) {
    exists r :: r in c.hsConns && r.uri == uri && Some(r.rev) != rev
  }

  // Why a connection is told to go: its own destroy, an answer or a notification with another revision than one of its
  // tokens, or the shutdown once the authorizer has closed or the user goes on.
  ghost predicate ToldToGo(y: System, e: Event, id: ConnId)
    requires Enabled(y, e) && id in y.server.reg.conns
  {
    var c := y.server.reg.conns[id];
    match e
    case EvAnswer(i, _) => i == id && c.phase.k < |c.tokens| && c.phase.found != Some(c.tokens[c.phase.k].rev)
    case EvDestroy(i, _) => i == id
    case EvNotify(uri, rev, _) => HasOther(c, uri, rev)
    case EvAuthzClosed(err, _) => !err
    case EvContinue(_, _) => y.server.shut.stage == AuthzFailed
    case _ => false
  }

  lemma StaleHasOther(reg: Registry, uri: Uri, rev: Option<Rev>, id: ConnId)
    requires Indexed(reg) && id in reg.conns
    ensures id in Stale(reg.connections, uri, rev) <==> HasOther(reg.conns[id], uri, rev)
  {
    forall r | r in reg.conns[id].hsConns ensures r.conn == id && InIndex(reg, r) {
      OwnRecord(id, reg.conns[id], r);
    }
  }

  // What telling some connections makes of any of them.
  lemma AfterDestroyAll(s: Server, ids: set<ConnId>, sync: set<ConnId>)
    ensures DestroyAll(s, ids, sync).reg.conns.Keys == s.reg.conns.Keys
    ensures forall id :: id in s.reg.conns ==>
      var c, c' := s.reg.conns[id], DestroyAll(s, ids, sync).reg.conns[id];
      && (c'.destroyed <==> c.destroyed || (c.Open() && id in ids))
      && (c'.closed <==> c.closed || (c.Open() && id in ids && id in sync))
      && c'.tokens == c.tokens && c'.phase == c.phase && (c'.Live() ==> c.hsConns <= c'.hsConns)
  {
  }

  lemma AfterProceed(s: Server, id: ConnId)
    ensures Proceed(s, id).reg.conns.Keys == s.reg.conns.Keys
    ensures forall i :: i in s.reg.conns ==>
      var c, c' := s.reg.conns[i], Proceed(s, id).reg.conns[i];
      && c'.destroyed == c.destroyed && c'.closed == c.closed && c'.tokens == c.tokens
      && (i != id ==> c'.phase == c.phase) && (c'.Live() ==> c.hsConns <= c'.hsConns)
  {
  }

  lemma AfterAnswer(s: Server, id: ConnId, sync: set<ConnId>)
    requires id in s.reg.conns && s.reg.conns[id].phase.Answered? && s.reg.conns[id].phase.k < |s.reg.conns[id].tokens|
    ensures Answer(s, id, sync).reg.conns.Keys == s.reg.conns.Keys
    ensures forall i :: i in s.reg.conns ==>
      var c, c' := s.reg.conns[i], Answer(s, id, sync).reg.conns[i];
      var told := i == id && c.phase.found != Some(c.tokens[c.phase.k].rev);
      && (c'.destroyed <==> c.destroyed || (c.Open() && told))
      && (c'.closed <==> c.closed || (c.Open() && told && id in sync))
      && c'.tokens == c.tokens && (i != id ==> c'.phase == c.phase) && (c'.Live() ==> c.hsConns <= c'.hsConns)
  {
    hide DestroyAll;
    AfterDestroyAll(s, {id}, sync);
  }

  // A notification tells exactly the open connections with a record of another revision.
  lemma ChangeTells(s: Server, uri: Uri, rev: Option<Rev>, sync: set<ConnId>)
    requires Indexed(s.reg)
    ensures var conns, conns' := s.reg.conns, Change(s, uri, rev, sync).reg.conns;
      && conns'.Keys == conns.Keys
      && forall id :: id in conns ==>
           var c, c' := conns[id], conns'[id];
           && (c'.destroyed <==> c.destroyed || (c.Open() && HasOther(c, uri, rev)))
           && (c'.closed <==> c.closed || (c.Open() && HasOther(c, uri, rev) && id in sync))
  {
    hide DestroyAll, Stale, HasOther, Indexed;
    forall id | id in s.reg.conns
      ensures id in Stale(s.reg.connections, uri, rev) <==> HasOther(s.reg.conns[id], uri, rev)
    {
      StaleHasOther(s.reg, uri, rev, id);
    }
    AfterDestroyAll(s, Stale(s.reg.connections, uri, rev), sync);
  }

  // What a step makes of a connection there was before.
  ghost predicate ConnAfter(y: System, e: Event, id: ConnId)
    requires Indexed(y.server.reg) && Enabled(y, e) && id in y.server.reg.conns
  {
    && id in Step(y, e).server.reg.conns
    && var c, c' := y.server.reg.conns[id], Step(y, e).server.reg.conns[id];
    && (c'.destroyed <==> c.destroyed || (c.Open() && ToldToGo(y, e, id)))
    && (c'.closed <==> c.closed || e == EvLost(id) || (c.Open() && ToldToGo(y, e, id) && id in Sync(e)))
    && c'.tokens == c.tokens && (c'.Live() ==> c.hsConns <= c'.hsConns)
    && (c'.phase != c.phase ==> e == EvReadKey(id) || (e.EvAnswer? && e.id == id))
  }

  /** A step tells a connection to go exactly when the connection is open and there is a reason; and a connection closes
      exactly when it is lost, or is told to go and reports its close at once. Until then it loses no record, and its
      phase is moved by its own handshakes only. */
  lemma OnlyWithReason(y: System, e: Event, id: ConnId)
    requires Indexed(y.server.reg) && Enabled(y, e) && id in y.server.reg.conns
    ensures ConnAfter(y, e, id)
  {
    hide ConnAfter, Indexed;
    var s := y.server;
    match e
    case EvAnswer(i, sync) =>
      IndexedConn(s, i);
      AnswerReason(y, i, sync, id);
    case EvNotify(uri, rev, sync) => NotifyReason(y, uri, rev, sync, id);
    case EvAuthzClosed(_, _) => ContReason(y, e, id);
    case EvContinue(_, _) => ContReason(y, e, id);
    case EvConnect(_, _, _) => ConnectReason(y, e, id);
    case EvDestroy(i, sync) => DestroyReason(y, i, sync, id);
    case _ => OtherReason(y, e, id);
  }

  lemma DestroyReason(y: System, i: ConnId, sync: set<ConnId>, id: ConnId)
    requires Indexed(y.server.reg) && Enabled(y, EvDestroy(i, sync)) && id in y.server.reg.conns
    ensures ConnAfter(y, EvDestroy(i, sync), id)
  {
    hide DestroyAll, Indexed;
    AfterDestroyAll(y.server, {i}, sync);
  }

  lemma OtherReason(y: System, e: Event, id: ConnId)
    requires Indexed(y.server.reg) && Enabled(y, e) && id in y.server.reg.conns
    requires e.EvReadKey? || e.EvLost? || e.EvUpdateKey? || e.EvStarted? || e.EvClose? || e.EvTransportsClosed?
    ensures ConnAfter(y, e, id)
  {
    if !e.EvReadKey? { hide ConnOk; }
    hide Started, Close, OnEmpty, Check, Without;
  }

  lemma AnswerReason(y: System, i: ConnId, sync: set<ConnId>, id: ConnId)
    requires Indexed(y.server.reg) && Enabled(y, EvAnswer(i, sync)) && id in y.server.reg.conns
    ensures ConnAfter(y, EvAnswer(i, sync), id)
  {
    hide Answer, Proceed, Indexed;
    IndexedConn(y.server, i);
    AfterAnswer(y.server, i, sync);
    AfterProceed(Answer(y.server, i, sync), i);
  }

  lemma NotifyReason(y: System, uri: Uri, rev: Option<Rev>, sync: set<ConnId>, id: ConnId)
    requires Indexed(y.server.reg) && Enabled(y, EvNotify(uri, rev, sync)) && id in y.server.reg.conns
    ensures ConnAfter(y, EvNotify(uri, rev, sync), id)
  {
    hide DestroyAll, Stale, HasOther, Indexed;
    StaleHasOther(y.server.reg, uri, rev, id);
    AfterDestroyAll(y.server, Stale(y.server.reg.connections, uri, rev), sync);
  }

  lemma AfterCont(s: Server, cb: Option<Callback>, sync: set<ConnId>, id: ConnId)
    requires Indexed(s.reg) && id in s.reg.conns
    ensures id in Cont(s, cb, sync).reg.conns
    ensures var c, c' := s.reg.conns[id], Cont(s, cb, sync).reg.conns[id];
      && c'.destroyed == (c.destroyed || c.Open()) && c'.closed == (c.closed || (c.Open() && id in sync))
      && c'.tokens == c.tokens && c'.phase == c.phase && (c'.Live() ==> c.hsConns <= c'.hsConns)
  {
    hide DestroyAll;
    AfterDestroyAll(s.(shut := s.shut.(stage := Transports, cb := cb, emptyListener := true)), s.reg.connids, sync);
  }

  lemma ContReason(y: System, e: Event, id: ConnId)
    requires Indexed(y.server.reg) && Enabled(y, e) && id in y.server.reg.conns && (e.EvAuthzClosed? || e.EvContinue?)
    ensures ConnAfter(y, e, id)
  {
    hide Cont, Indexed;
    var s := y.server;
    if e.EvAuthzClosed? {
      AfterCont(s, s.shut.cb, e.sync, id);
    } else {
      AfterCont(s.(shut := s.shut.(issued := s.shut.issued + Pending(e.next))), e.next, e.sync, id);
    }
  }

  lemma ConnectReason(y: System, e: Event, id: ConnId)
    requires Indexed(y.server.reg) && Enabled(y, e) && id in y.server.reg.conns && e.EvConnect?
    ensures ConnAfter(y, e, id)
  {
    hide Proceed, Indexed;
    AfterProceed(AtOnce(Connect(y.server, e.id, e.tokens), e.id, e.lost), e.id);
  }

  /** A new connection is accepted exactly before closing, and is open unless it is lost already. */
  lemma NewConnection(y: System, e: Event, id: ConnId)
    requires Indexed(y.server.reg) && Enabled(y, e) && id !in y.server.reg.conns
    ensures var conns' := Step(y, e).server.reg.conns;
      && (id in conns' <==> e.EvConnect? && e.id == id && !y.server.shut.closing)
      && (id in conns' ==>
            !conns'[id].destroyed && conns'[id].closed == e.lost && conns'[id].tokens == e.tokens)
  {
    hide Answer, Proceed, Indexed, DestroyAll, CloseAll;
    var s := y.server;
    match e
    case EvConnect(i, tokens, lost) => EnteredConnection(s, i, tokens, lost);
    case EvAnswer(i, sync) =>
      IndexedConn(s, i);
      AfterAnswer(s, i, sync);
      AfterProceed(Answer(s, i, sync), i);
    case EvDestroy(i, sync) => AfterDestroyAll(s, {i}, sync);
    case EvLost(i) => AfterCloseAll(s, {i});
    case EvNotify(uri, rev, sync) => AfterDestroyAll(s, Stale(s.reg.connections, uri, rev), sync);
    case EvAuthzClosed(_, sync) =>
      AfterDestroyAll(s.(shut := s.shut.(stage := Transports, emptyListener := true)), s.reg.connids, sync);
    case EvContinue(next, sync) =>
      var issued := s.shut.issued + Pending(next);
      var shut := s.shut.(issued := issued, stage := Transports, cb := next, emptyListener := true);
      AfterDestroyAll(s.(shut := shut), s.reg.connids, sync);
    case _ =>
  }

  lemma AfterCloseAll(s: Server, gone: set<ConnId>)
    ensures CloseAll(s, gone).reg.conns.Keys == s.reg.conns.Keys
  {
  }

  lemma EnteredConnection(s: Server, id: ConnId, tokens: seq<Token>, lost: bool)
    requires id !in s.reg.conns
    ensures var conns' := Proceed(AtOnce(Connect(s, id, tokens), id, lost), id).reg.conns;
      && conns'.Keys == s.reg.conns.Keys + (if s.shut.closing then {} else {id})
      && (!s.shut.closing ==> !conns'[id].destroyed && conns'[id].closed == lost && conns'[id].tokens == tokens)
  {
    hide Proceed;
    AfterProceed(AtOnce(Connect(s, id, tokens), id, lost), id);
  }

  // ---- Errors and callbacks ----

  // The authorizer or the transports report an error.
  predicate Failing(e: Event) { (e.EvAuthzClosed? || e.EvTransportsClosed?) && e.err }

  // The callbacks a step is given.
  function Given(e: Event): seq<Callback> {
    if e.EvClose? then [e.cb] else if e.EvContinue? then Pending(e.next) else []
  }

  // The callback that a step which closes the server calls last.
  function InHand(y: System, e: Event): Option<Callback> { if e.EvContinue? then e.next else y.server.shut.cb }

  /** An error stops the shutdown: nothing is closed, told or emitted, and just the callback in hand is called. */
  lemma ErrorStops(y: System, e: Event)
    requires Indexed(y.server.reg) && Enabled(y, e) && Failing(e)
    ensures var s, s' := y.server, Step(y, e).server;
      && s'.reg == s.reg && s'.shut.closed == s.shut.closed && s'.shut.closeEvents == s.shut.closeEvents
      && s'.shut.transportsClosed == s.shut.transportsClosed && s'.shut.emptyListener == s.shut.emptyListener
      && (Leaving(s'.shut) <==> Leaving(s.shut))
      && s'.shut.waiting == s.shut.waiting && s'.shut.calls == s.shut.calls + Pending(s.shut.cb)
  {
  }

  // `given` are the callbacks a step is given, and `held` is the one in hand when it closes the server.
  ghost predicate CallsOk(h: Shutdown, h': Shutdown, given: seq<Callback>, held: Option<Callback>, failing: bool) {
    && h.calls <= h'.calls && h'.issued == h.issued + given
    && (h'.calls != h.calls ==> failing || h'.closed)
    && (h'.closed && !h.closed ==> h'.calls == h.calls + h.waiting + Pending(held))
  }

  lemma OnEmptyCalls(h: Shutdown, empty: bool)
    ensures CallsOk(h, OnEmpty(h, empty), [], h.cb, false)
  {
    assert h.issued + [] == h.issued;
  }

  lemma DestroyAllCalls(s: Server, ids: set<ConnId>, sync: set<ConnId>)
    ensures CallsOk(s.shut, DestroyAll(s, ids, sync).shut, [], s.shut.cb, false)
  {
    hide CallsOk;
    OnEmptyCalls(s.shut, true);
    SameCalls(s.shut, s.shut.cb, false);
  }

  lemma SameCalls(h: Shutdown, held: Option<Callback>, failing: bool)
    ensures CallsOk(h, h, [], held, failing)
  {
    assert h.issued + [] == h.issued;
  }

  lemma ContCalls(s: Server, cb: Option<Callback>, sync: set<ConnId>)
    ensures CallsOk(s.shut, Cont(s, cb, sync).shut, [], cb, false)
  {
    hide DestroyAll;
    DestroyAllCalls(s.(shut := s.shut.(stage := Transports, cb := cb, emptyListener := true)), s.reg.connids, sync);
  }

  lemma AnswerCalls(s: Server, id: ConnId, sync: set<ConnId>)
    requires id in s.reg.conns && s.reg.conns[id].phase.Answered? && s.reg.conns[id].phase.k < |s.reg.conns[id].tokens|
    ensures CallsOk(s.shut, Proceed(Answer(s, id, sync), id).shut, [], s.shut.cb, false)
  {
    hide DestroyAll, CallsOk;
    DestroyAllCalls(s, {id}, sync);
    SameCalls(s.shut, s.shut.cb, false);
  }

  lemma ConnectCalls(s: Server, id: ConnId, tokens: seq<Token>, lost: bool)
    ensures CallsOk(s.shut, Proceed(AtOnce(Connect(s, id, tokens), id, lost), id).shut, [], s.shut.cb, false)
  {
    hide CallsOk, OnEmpty;
    OnEmptyCalls(s.shut, true);
    SameCalls(s.shut, s.shut.cb, false);
  }

  /** A callback is called only with an error, or once the server is closed: then those waiting for 'close', in the
      order they came, and last the one in hand. */
  lemma CallsWhen(y: System, e: Event)
    requires Indexed(y.server.reg) && ShutOk(y.server) && Enabled(y, e)
    ensures CallsOk(y.server.shut, Step(y, e).server.shut, Given(e), InHand(y, e), Failing(e))
  {
    hide DestroyAll, CloseAll, Answer, Proceed, Cont, CallsOk, Indexed, ShutOk;
    var s := y.server;
    match e
    case EvConnect(id, tokens, lost) => ConnectCalls(s, id, tokens, lost);
    case EvAnswer(id, sync) =>
      IndexedConn(s, id);
      AnswerCalls(s, id, sync);
    case EvLost(id) => LostCalls(s, id);
    case EvDestroy(id, sync) => DestroyAllCalls(s, {id}, sync);
    case EvNotify(uri, rev, sync) => DestroyAllCalls(s, Stale(s.reg.connections, uri, rev), sync);
    case EvAuthzClosed(_, _) => FlagsCalls(y, e);
    case EvContinue(_, _) => FlagsCalls(y, e);
    case EvStarted => FlagsCalls(y, e);
    case EvClose(_) => FlagsCalls(y, e);
    case EvTransportsClosed(_) => FlagsCalls(y, e);
    case _ => SameCalls(s.shut, s.shut.cb, false);
  }

  lemma LostCalls(s: Server, id: ConnId)
    ensures CallsOk(s.shut, CloseAll(s, {id}).shut, [], s.shut.cb, false)
  {
    hide CallsOk, OnEmpty;
    OnEmptyCalls(s.shut, true);
    SameCalls(s.shut, s.shut.cb, false);
  }

  lemma FlagsCalls(y: System, e: Event)
    requires Indexed(y.server.reg) && ShutOk(y.server) && Enabled(y, e)
    requires e.EvStarted? || e.EvClose? || e.EvAuthzClosed? || e.EvTransportsClosed? || e.EvContinue?
    ensures CallsOk(y.server.shut, Step(y, e).server.shut, Given(e), InHand(y, e), Failing(e))
  {
    hide Continue, Cont2, AuthzClosed, CallsOk, Indexed, ShutOk;
    var s := y.server;
    match e
    case EvAuthzClosed(err, sync) => AuthzCalls(s, err, sync);
    case EvTransportsClosed(err) => TransportsCalls(s, err);
    case EvContinue(next, sync) => ContinueCalls(s, next, sync);
    case EvClose(cb) => CloseCalls(s.shut, cb);
    case EvStarted => StartedCalls(s.shut);
  }

  lemma StartedCalls(h: Shutdown)
    ensures CallsOk(h, Started(h), [], h.cb, false)
  {
    SameCalls(h, h.cb, false);
  }

  lemma AuthzCalls(s: Server, err: bool, sync: set<ConnId>)
    ensures CallsOk(s.shut, AuthzClosed(s, err, sync).shut, [], s.shut.cb, err)
  {
    hide Cont;
    SameCalls(s.shut, s.shut.cb, false);
    if !err { ContCalls(s, s.shut.cb, sync); }
  }

  lemma Cont2Calls(s: Server, cb: Option<Callback>)
    ensures CallsOk(s.shut, Cont2(s, cb).shut, [], cb, false)
  {
    SameCalls(s.shut, s.shut.cb, false);
  }

  lemma TransportsCalls(s: Server, err: bool)
    ensures CallsOk(s.shut, TransportsClosed(s, err).shut, [], s.shut.cb, err)
  {
    hide Cont2;
    SameCalls(s.shut, s.shut.cb, false);
    if !err { Cont2Calls(s, s.shut.cb); }
  }

  lemma ContinueCalls(s: Server, next: Option<Callback>, sync: set<ConnId>)
    ensures CallsOk(s.shut, Continue(s, next, sync).shut, Pending(next), next, false)
  {
    hide Cont, Cont2;
    var s1 := s.(shut := s.shut.(issued := s.shut.issued + Pending(next)));
    ContCalls(s1, next, sync);
    Cont2Calls(s1, next);
    assert s1.shut.issued + [] == s1.shut.issued;
  }

  lemma CloseCalls(h: Shutdown, cb: Callback)
    ensures CallsOk(h, Close(h, cb), [cb], h.cb, false)
  {
  }

  // ---- Stages ----

  // The flags and stages after a step, from those before.
  ghost predicate StageOk(h: Shutdown, h': Shutdown, e: Event) {
    && (h'.closing <==> h.closing || e.EvClose?) && (h'.ready <==> h.ready || e.EvStarted?)
    && (h'.stage == AuthzFailed <==> (h.stage == AuthzFailed && !e.EvContinue?) || (e.EvAuthzClosed? && e.err))
    && (h'.stage == TransportsFailed <==>
          (h.stage == TransportsFailed && !e.EvContinue?) || (e.EvTransportsClosed? && e.err))
    && (Leaving(h') <==>
          Leaving(h) || (e.EvAuthzClosed? && !e.err) || (e.EvContinue? && h.stage == AuthzFailed))
    && (h'.transportsClosed <==>
          h.transportsClosed || (e.EvTransportsClosed? && !e.err) || (e.EvContinue? && h.stage == TransportsFailed))
  }

  lemma SameStage(h: Shutdown, e: Event)
    requires e.EvConnect? || e.EvReadKey? || e.EvAnswer? || e.EvLost? || e.EvDestroy? || e.EvUpdateKey? || e.EvNotify?
    ensures StageOk(h, h, e)
  {
  }

  // Emptying the connections moves no stage: by then the shutdown has reached the last one.
  lemma CloseAllStage(s: Server, gone: set<ConnId>, e: Event)
    requires s.shut.transportsClosed ==> s.shut.stage == Finished
    requires e.EvConnect? || e.EvReadKey? || e.EvAnswer? || e.EvLost? || e.EvDestroy? || e.EvUpdateKey? || e.EvNotify?
    ensures StageOk(s.shut, CloseAll(s, gone).shut, e)
  {
    hide Without, Closed;
  }

  lemma DestroyAllStage(s: Server, ids: set<ConnId>, sync: set<ConnId>, e: Event)
    requires s.shut.transportsClosed ==> s.shut.stage == Finished
    requires e.EvConnect? || e.EvReadKey? || e.EvAnswer? || e.EvLost? || e.EvDestroy? || e.EvUpdateKey? || e.EvNotify?
    ensures StageOk(s.shut, DestroyAll(s, ids, sync).shut, e)
  {
    hide CloseAll, StageOk;
    CloseAllStage(Tell(s, Tellable(s.reg, ids)), Tellable(s.reg, ids) * sync, e);
  }

  lemma ContStage(s: Server, cb: Option<Callback>, sync: set<ConnId>)
    requires !s.shut.transportsClosed
    ensures var h, h' := s.shut, Cont(s, cb, sync).shut;
      h'.closing == h.closing && h'.ready == h.ready && h'.stage == Transports && !h'.transportsClosed
  {
    hide Without, Closed, Told;
  }

  lemma StepStage(y: System, e: Event)
    requires Indexed(y.server.reg) && ShutOk(y.server) && Enabled(y, e)
    ensures StageOk(y.server.shut, Step(y, e).server.shut, e)
  {
    hide StageOk, Answer, Proceed, CloseAll, DestroyAll, Indexed;
    var s := y.server;
    match e
    case EvConnect(id, tokens, lost) => ConnectStage(s, e);
    case EvReadKey(_) => SameStage(s.shut, e);
    case EvUpdateKey(_, _) => SameStage(s.shut, e);
    case EvAnswer(id, sync) =>
      IndexedConn(s, id);
      AnswerStage(s, e);
    case EvLost(id) => CloseAllStage(s, {id}, e);
    case EvDestroy(id, sync) => DestroyAllStage(s, {id}, sync, e);
    case EvNotify(uri, rev, sync) => DestroyAllStage(s, Stale(s.reg.connections, uri, rev), sync, e);
    case _ => FlagsStage(y, e);
  }

  lemma FlagsStage(y: System, e: Event)
    requires Indexed(y.server.reg) && ShutOk(y.server) && Enabled(y, e)
    requires e.EvStarted? || e.EvClose? || e.EvAuthzClosed? || e.EvTransportsClosed? || e.EvContinue?
    ensures StageOk(y.server.shut, Step(y, e).server.shut, e)
  {
    hide Cont, Indexed, Owed, NoneOpen;
    var s := y.server;
    if e.EvAuthzClosed? && !e.err {
      ContStage(s, s.shut.cb, e.sync);
    } else if e.EvContinue? && s.shut.stage == AuthzFailed {
      ContStage(s.(shut := s.shut.(issued := s.shut.issued + Pending(e.next))), e.next, e.sync);
    }
  }

  lemma ConnectStage(s: Server, e: Event)
    requires e.EvConnect? && (s.shut.transportsClosed ==> s.shut.stage == Finished)
    ensures StageOk(s.shut, Proceed(AtOnce(Connect(s, e.id, e.tokens), e.id, e.lost), e.id).shut, e)
  {
    hide CloseAll, StageOk;
    CloseAllStage(Connect(s, e.id, e.tokens), {e.id}, e);
    SameStage(s.shut, e);
  }

  lemma AnswerStage(s: Server, e: Event)
    requires e.EvAnswer? && e.id in s.reg.conns && s.reg.conns[e.id].phase.Answered?
    requires s.reg.conns[e.id].phase.k < |s.reg.conns[e.id].tokens|
    requires s.shut.transportsClosed ==> s.shut.stage == Finished
    ensures StageOk(s.shut, Proceed(Answer(s, e.id, e.sync), e.id).shut, e)
  {
    hide DestroyAll, StageOk;
    DestroyAllStage(s, {e.id}, e.sync, e);
    SameStage(s.shut, e);
  }

  // In a run, the authorizer closed without an error, or the user went on after one; `failed`: one was reported before.
  predicate AuthzGone(es: seq<Event>, failed: bool)
    decreases |es|
  {
    && es != []
    && ((es[0].EvAuthzClosed? && !es[0].err) || (failed && es[0].EvContinue?)
        || AuthzGone(es[1..], failed || es[0].EvAuthzClosed?))
  }

  // The same for the transports.
  predicate TransportsGone(es: seq<Event>, failed: bool)
    decreases |es|
  {
    && es != []
    && ((es[0].EvTransportsClosed? && !es[0].err) || (failed && es[0].EvContinue?)
        || TransportsGone(es[1..], failed || es[0].EvTransportsClosed?))
  }

  /** Over every run: connections are told to go from the moment the authorizer has closed, and the server can close
      from the moment the transports have, each without an error or with the user going on after one. */
  lemma {:induction false} StagesOfRun(y: System, es: seq<Event>)
    requires Inv(y) && IsRun(y, es)
    ensures var h, h' := y.server.shut, Run(y, es).server.shut;
      && (Leaving(h') <==> Leaving(h) || AuthzGone(es, h.stage == AuthzFailed))
      && (h'.transportsClosed <==> h.transportsClosed || TransportsGone(es, h.stage == TransportsFailed))
    decreases |es|
  {
    hide Step, Enabled, Indexed, Revised, ShutOk;
    if es != [] {
      StepKeepsInv(y, es[0]);
      StepStage(y, es[0]);
      StagesOfRun(Step(y, es[0]), es[1..]);
    }
  }

  /** So 'close' is emitted exactly when that has happened and no connection lives. */
  lemma ClosedExactly(y: System, es: seq<Event>)
    requires Initial(y) && Inv(y) && IsRun(y, es)
    ensures var s := Run(y, es).server;
      && (s.shut.closeEvents == 1 <==>
            TransportsGone(es, false) && forall id :: id in s.reg.conns ==> !s.reg.conns[id].Live())
      && (TransportsGone(es, false) ==> AuthzGone(es, false))
  {
    StagesOfRun(y, es);
    assert Reachable(Run(y, es));
    ClosedOnce(Run(y, es));
  }

  lemma ClosedStays(y: System, e: Event)
    requires Inv(y) && Enabled(y, e) && y.server.shut.closed
    ensures Step(y, e).server.shut.closed
  {
    StepKeepsInv(y, e);
    StepStage(y, e);
    hide Step;
    Additions(y, e);
  }

  lemma {:induction false} ClosedForGood(y: System, es: seq<Event>)
    requires Inv(y) && IsRun(y, es) && y.server.shut.closed
    ensures Run(y, es).server.shut.closed
    decreases |es|
  {
    hide Step, Enabled, Indexed, Revised, ShutOk;
    if es != [] {
      StepKeepsInv(y, es[0]);
      ClosedStays(y, es[0]);
      ClosedForGood(Step(y, es[0]), es[1..]);
    }
  }

  /** Over every run without errors, no callback is called before the server is closed. */
  lemma {:induction false} NoneCalledEarly(y: System, es: seq<Event>)
    requires Inv(y) && IsRun(y, es) && forall i :: 0 <= i < |es| ==> !Failing(es[i])
    ensures var h, h' := y.server.shut, Run(y, es).server.shut; h'.calls == h.calls || h'.closed
    decreases |es|
  {
    hide Step, Enabled, Indexed, Revised, ShutOk;
    if es != [] {
      StepKeepsInv(y, es[0]);
      CallsWhen(y, es[0]);
      NoneCalledEarly(Step(y, es[0]), es[1..]);
      if Step(y, es[0]).server.shut.closed { ClosedForGood(Step(y, es[0]), es[1..]); }
    }
  }
}
