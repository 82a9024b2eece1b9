/** lib/server.js as a state machine over atomic steps: connections and their two indexes, key revisions,
    and the shutdown protocol.  `Step` is what one callback does; the class `CentroServer` takes these steps. */
module Lifecycle {
  import opened Wrappers

  import Sets

  type ConnId = nat
  type Uri = string
  type Rev = string
  type Callback = nat

  datatype Token = Token(uri: Uri, rev: Rev)

  // The record kept for one token of one connection.
  datatype Rec = Rec(conn: ConnId, index: nat, uri: Uri, rev: Rev)

  // Where the series of handshakes of a connection stands: token k to be registered, registered with its
  // key asked for, or the keystore's answer on its way back.
  datatype Phase = Next(k: nat) | Asked(k: nat) | Answered(k: nat, found: Option<Rev>) | Done | Failed

  // The variables of one call of transport_connected.
  datatype Conn = Conn(closed: bool, destroyed: bool, hsConns: set<Rec>, tokens: seq<Token>, phase: Phase) {
    predicate Live() { !closed }
    predicate Open() { !closed && !destroyed }
  }

  type Index = map<Uri, set<Rec>>

  datatype Registry = Registry(connections: Index, connids: set<ConnId>, conns: map<ConnId, Conn>)

  // How far a shutdown is.
  datatype Stage = Idle | Authz | AuthzFailed | Transports | TransportsFailed | Finished

  // `calls` are the callbacks called so far, `issued` those given to `close` or to a continuation.
  datatype Shutdown = Shutdown(
    ready: bool, closing: bool, closed: bool, closeCb: Option<Callback>,
    stage: Stage, cb: Option<Callback>, transportsClosed: bool, emptyListener: bool,
    waiting: seq<Callback>, closeEvents: nat, calls: seq<Callback>, issued: seq<Callback>)

  datatype Server = Server(reg: Registry, shut: Shutdown)

  // The server with its keystore: current revisions, and change notifications not yet delivered.
  datatype System = System(server: Server, keys: map<Uri, Rev>, pending: multiset<(Uri, Option<Rev>)>)

  const NEW_SERVER := Server(
    Registry(map[], {}, map[]),
    Shutdown(false, false, false, None, Idle, None, false, false, [], 0, [], []))

  // ---- Connections ----

  function Lookup<T>(m: map<Uri, T>, uri: Uri): Option<T> { if uri in m then Some(m[uri]) else None }

  // transport_connected, up to the start of the series of handshakes.
  function Connect(s: Server, id: ConnId, tokens: seq<Token>): Server {
    if s.shut.closing then s
    else s.(reg := s.reg.(connids := s.reg.connids + {id},
                          conns := s.reg.conns[id := Conn(false, false, {}, tokens, Next(0))]))
  }

  function RecordOf(c: Conn, id: ConnId, k: nat): Rec
    requires k < |c.tokens|
  {
    Rec(id, k, c.tokens[k].uri, c.tokens[k].rev)
  }

  function AddRecord(index: Index, rec: Rec): Index {
    index[rec.uri := (if rec.uri in index then index[rec.uri] else {}) + {rec}]
  }

  // process_handshake, up to the request for the public key.
  function Process(s: Server, id: ConnId): Server
    requires id in s.reg.conns && s.reg.conns[id].phase.Next? && s.reg.conns[id].phase.k < |s.reg.conns[id].tokens|
  {
    var c := s.reg.conns[id];
    if c.closed then SetPhase(s, id, Failed)
    else
      var rec := RecordOf(c, id, c.phase.k);
      s.(reg := s.reg.(connections := AddRecord(s.reg.connections, rec),
                       conns := s.reg.conns[id := c.(hsConns := c.hsConns + {rec}, phase := Asked(c.phase.k))]))
  }

  // The keystore looks the key up; its answer is delivered by a later step.
  function ReadKey(s: Server, id: ConnId, found: Option<Rev>): Server
    requires id in s.reg.conns && s.reg.conns[id].phase.Asked?
  {
    SetPhase(s, id, Answered(s.reg.conns[id].phase.k, found))
  }

  // got_pub_key, and processed_handshakes when it ends the series.
  function Answer(s: Server, id: ConnId, sync: set<ConnId>): Server
    requires id in s.reg.conns && s.reg.conns[id].phase.Answered? && s.reg.conns[id].phase.k < |s.reg.conns[id].tokens|
  {
    var c := s.reg.conns[id];
    var k := c.phase.k;
    if c.phase.found != Some(c.tokens[k].rev) then
      SetPhase(DestroyAll(s, {id}, sync), id, Failed)
    else SetPhase(s, id, if k + 1 == |c.tokens| then Done else Next(k + 1))
  }

  // `onclose` is given conn_closed, and calls it at once if the connection is already lost.
  function AtOnce(s: Server, id: ConnId, lost: bool): Server {
    if lost && id in s.reg.conns then CloseAll(s, {id}) else s
  }

  // The series takes its next handshake in the same turn: no turn ends with a connection in phase `Next`.
  function Proceed(s: Server, id: ConnId): Server {
    if id in s.reg.conns && s.reg.conns[id].phase.Next? && s.reg.conns[id].phase.k < |s.reg.conns[id].tokens| then
      Process(s, id)
    else s
  }

  function SetPhase(s: Server, id: ConnId, phase: Phase): Server
    requires id in s.reg.conns
  {
    s.(reg := s.reg.(conns := s.reg.conns[id := s.reg.conns[id].(phase := phase)]))
  }

  // The index without the records of some connections; a URI with none left goes too.
  function Without(index: Index, gone: set<ConnId>): Index {
    map u | u in index && Kept(index[u], gone) != {} :: Kept(index[u], gone)
  }

  function Kept(recs: set<Rec>, gone: set<ConnId>): set<Rec> { set r | r in recs && r.conn !in gone }

  // conn_closed, for each of some connections.
  function CloseAll(s: Server, gone: set<ConnId>): Server {
    var reg := Registry(Without(s.reg.connections, gone), s.reg.connids - gone, Closed(s.reg.conns, gone));
    Server(reg, if gone != {} && reg.connids == {} then OnEmpty(s.shut, true) else s.shut)
  }

  function Closed(conns: map<ConnId, Conn>, gone: set<ConnId>): map<ConnId, Conn> {
    map id | id in conns :: if id in gone then conns[id].(closed := true, hsConns := {}) else conns[id]
  }

  // dstroy, for each of some connections.  A transport may report the close at once; `sync` says of
  // which connections it does.
  function DestroyAll(s: Server, ids: set<ConnId>, sync: set<ConnId>): Server {
    var told := Tellable(s.reg, ids);
    CloseAll(Tell(s, told), told * sync)
  }

  function Tell(s: Server, told: set<ConnId>): Server { s.(reg := s.reg.(conns := Told(s.reg.conns, told))) }

  function Tellable(reg: Registry, ids: set<ConnId>): set<ConnId> {
    set id | id in ids && id in reg.conns && reg.conns[id].Open()
  }

  function Told(conns: map<ConnId, Conn>, told: set<ConnId>): map<ConnId, Conn> {
    map id | id in conns :: if id in told then conns[id].(destroyed := true) else conns[id]
  }

  // change: the connections with a record of another revision of the key.
  function Stale(index: Index, uri: Uri, rev: Option<Rev>): set<ConnId> {
    if uri !in index then {} else set r | r in index[uri] && Some(r.rev) != rev :: r.conn
  }

  function Change(s: Server, uri: Uri, rev: Option<Rev>, sync: set<ConnId>): Server {
    DestroyAll(s, Stale(s.reg.connections, uri, rev), sync)
  }

  // ---- Shutdown ----

  // check, given whether no connection remains.
  function Check(h: Shutdown, empty: bool): Shutdown {
    if h.transportsClosed && empty then
      h.(closed := true, stage := Finished, closeEvents := h.closeEvents + 1, waiting := [], cb := None,
         calls := h.calls + h.waiting + Pending(h.cb))
    else h
  }

  function Pending(cb: Option<Callback>): seq<Callback> { if cb.Some? then [cb.value] else [] }

  // The 'empty' event; its listener is registered with `once`.
  function OnEmpty(h: Shutdown, empty: bool): Shutdown {
    if h.emptyListener then Check(h.(emptyListener := false), empty) else h
  }

  function Close(h: Shutdown, cb: Callback): Shutdown {
    var h := h.(issued := h.issued + [cb]);
    if h.closing then
      if h.closed then h.(calls := h.calls + [cb]) else h.(waiting := h.waiting + [cb])
    else if h.ready then h.(closing := true, stage := Authz, cb := Some(cb))
    else h.(closing := true, closeCb := Some(cb))
  }

  // transports_started, when every transport started.
  function Started(h: Shutdown): Shutdown {
    if h.closeCb.Some? then h.(ready := true, closeCb := None, stage := Authz, cb := h.closeCb) else h.(ready := true)
  }

  // `cont`: from here on connections are told to go.
  function Cont(s: Server, cb: Option<Callback>, sync: set<ConnId>): Server {
    DestroyAll(s.(shut := s.shut.(stage := Transports, cb := cb, emptyListener := true)), s.reg.connids, sync)
  }

  // `cont2`
  function Cont2(s: Server, cb: Option<Callback>): Server {
    s.(shut := Check(s.shut.(cb := cb, transportsClosed := true, stage := Finished), s.reg.connids == {}))
  }

  // The callback is called with an error and a continuation.
  function Fail(h: Shutdown, stage: Stage): Shutdown {
    h.(stage := stage, cb := None, calls := h.calls + Pending(h.cb))
  }

  function AuthzClosed(s: Server, err: bool, sync: set<ConnId>): Server {
    if err then s.(shut := Fail(s.shut, AuthzFailed)) else Cont(s, s.shut.cb, sync)
  }

  function TransportsClosed(s: Server, err: bool): Server {
    if err then s.(shut := Fail(s.shut, TransportsFailed)) else Cont2(s, s.shut.cb)
  }

  // The user calls the continuation, with a further callback or none.
  function Continue(s: Server, cb: Option<Callback>, sync: set<ConnId>): Server {
    var s := s.(shut := s.shut.(issued := s.shut.issued + Pending(cb)));
    if s.shut.stage == AuthzFailed then Cont(s, cb, sync) else Cont2(s, cb)
  }

  // ---- Runs ----

  datatype Event =
    | EvConnect(id: ConnId, tokens: seq<Token>, lost: bool)
    | EvReadKey(id: ConnId)
    | EvAnswer(id: ConnId, sync: set<ConnId>)
    | EvLost(id: ConnId)
    | EvDestroy(id: ConnId, sync: set<ConnId>)
    | EvUpdateKey(uri: Uri, rev: Option<Rev>)
    | EvNotify(uri: Uri, rev: Option<Rev>, sync: set<ConnId>)
    | EvStarted
    | EvClose(cb: Callback)
    | EvAuthzClosed(err: bool, sync: set<ConnId>)
    | EvTransportsClosed(err: bool)
    | EvContinue(next: Option<Callback>, sync: set<ConnId>)

  ghost predicate Enabled(y: System, e: Event) {
    var conns, h := y.server.reg.conns, y.server.shut;
    match e
    case EvConnect(id, tokens, _) => id !in conns && tokens != []
    case EvReadKey(id) => id in conns && conns[id].phase.Asked?
    case EvAnswer(id, _) => id in conns && conns[id].phase.Answered?
    case EvLost(id) => id in conns && conns[id].Live()
    case EvDestroy(id, _) => id in conns
    case EvUpdateKey(_, _) => true
    case EvNotify(uri, rev, _) => (uri, rev) in y.pending
    case EvStarted => !h.ready
    case EvClose(_) => true
    case EvAuthzClosed(_, _) => h.stage == Authz
    case EvTransportsClosed(_) => h.stage == Transports
    case EvContinue(_, _) => h.stage == AuthzFailed || h.stage == TransportsFailed
  }

  ghost function Step(y: System, e: Event): System
    requires Indexed(y.server.reg) && Enabled(y, e)
  {
    var s := y.server;
    match e
    case EvConnect(id, tokens, lost) => y.(server := Proceed(AtOnce(Connect(s, id, tokens), id, lost), id))
    case EvReadKey(id) =>
      var c := s.reg.conns[id];
      y.(server := ReadKey(s, id, Lookup(y.keys, c.tokens[c.phase.k].uri)))
    case EvAnswer(id, sync) => y.(server := Proceed(Answer(s, id, sync), id))
    case EvLost(id) => y.(server := CloseAll(s, {id}))
    case EvDestroy(id, sync) => y.(server := DestroyAll(s, {id}, sync))
    case EvUpdateKey(uri, rev) =>
      y.(keys := if rev.Some? then y.keys[uri := rev.value] else y.keys - {uri},
         pending := y.pending + multiset{(uri, rev)})
    case EvNotify(uri, rev, sync) =>
      y.(server := Change(s, uri, rev, sync), pending := y.pending - multiset{(uri, rev)})
    case EvStarted => y.(server := s.(shut := Started(s.shut)))
    case EvClose(cb) => y.(server := s.(shut := Close(s.shut, cb)))
    case EvAuthzClosed(err, sync) => y.(server := AuthzClosed(s, err, sync))
    case EvTransportsClosed(err) => y.(server := TransportsClosed(s, err))
    case EvContinue(next, sync) => y.(server := Continue(s, next, sync))
  }

  // A finite run: the events are enabled one after the other.
  ghost predicate IsRun(y: System, es: seq<Event>)
    requires Inv(y)
    decreases |es|
  {
    es == [] || (Enabled(y, es[0]) && (StepKeepsInv(y, es[0]); IsRun(Step(y, es[0]), es[1..])))
  }

  ghost function Run(y: System, es: seq<Event>): (y': System)
    requires Inv(y) && IsRun(y, es)
    ensures Inv(y')
    decreases |es|
  {
    if es == [] then y else StepKeepsInv(y, es[0]); Run(Step(y, es[0]), es[1..])
  }

  ghost predicate Initial(y: System) { y.server == NEW_SERVER && y.pending == multiset{} }

  // ---- Invariants ----

  // Records of token numbers below this are in the index (unless the connection closed).
  function Registered(c: Conn): nat {
    match c.phase
    case Next(k) => k
    case Asked(k) => k + 1
    case Answered(k, _) => k + 1
    case Done => |c.tokens|
    case Failed => |c.tokens|
  }

  // Token numbers below this have been found current when the keystore was read.
  function Checked(c: Conn): nat {
    match c.phase
    case Next(k) => k
    case Asked(k) => k
    case Answered(k, found) => if k < |c.tokens| && found == Some(c.tokens[k].rev) then k + 1 else k
    case Done => |c.tokens|
    case Failed => 0
  }

  ghost predicate ConnOk(id: ConnId, c: Conn) {
    && c.tokens != []
    && (c.phase.Next? || c.phase.Asked? || c.phase.Answered? ==> c.phase.k < |c.tokens|)
    && (c.closed ==> c.hsConns == {})
    && (c.phase.Failed? ==> !c.Open())
    && (forall r :: r in c.hsConns ==> r.index < |c.tokens| && r.index < Registered(c) && r == RecordOf(c, id, r.index))
  }

  /** `_connections` is the exact inverse of the live connections' records, and `_connids` names the live
      connections. */
  ghost predicate Indexed(reg: Registry) {
    && (forall id :: id in reg.connids <==> id in reg.conns && reg.conns[id].Live())
    && (forall id :: id in reg.conns ==> ConnOk(id, reg.conns[id]))
    && (forall u :: u in reg.connections ==> reg.connections[u] != {})
    && (forall u, r :: u in reg.connections && r in reg.connections[u] ==>
          r.uri == u && r.conn in reg.conns && r in reg.conns[r.conn].hsConns)
    && (forall id, r :: id in reg.conns && r in reg.conns[id].hsConns ==>
          r.uri in reg.connections && r in reg.connections[r.uri])
  }

  /** A connection that passed a check with a revision since replaced is still to be notified. */
  ghost predicate Revised(y: System) {
    forall id, r :: id in y.server.reg.conns && r in y.server.reg.conns[id].hsConns ==>
      RevOk(y, y.server.reg.conns[id], r)
  }

  ghost predicate RevOk(y: System, c: Conn, r: Rec) {
    c.Open() && r.index < Checked(c) ==>
      Lookup(y.keys, r.uri) == Some(r.rev) || (r.uri, Lookup(y.keys, r.uri)) in y.pending
  }

  // Everything the protocol keeps besides having told the connections.
  ghost predicate ShutCore(h: Shutdown, empty: bool) {
    && (h.closed <==> h.closeEvents == 1) && h.closeEvents <= 1
    && (h.closed <==> h.transportsClosed && empty)
    && (h.transportsClosed <==> h.stage == Finished)
    && (h.stage != Idle ==> h.ready && h.closing)
    && (h.closing && h.ready ==> h.stage != Idle)
    && (h.closeCb.Some? <==> h.closing && !h.ready)
    && (h.cb.Some? ==> h.stage in {Authz, Transports, Finished} && !h.closed)
    && (h.waiting != [] ==> h.closing && !h.closed)
    && (h.emptyListener ==> Leaving(h))
    && (Leaving(h) && !empty ==> h.emptyListener)
    && multiset(h.issued) == Owed(h)
  }

  // The connections have been told to go.
  predicate Leaving(h: Shutdown) { h.stage in {Transports, TransportsFailed, Finished} }

  // Every callback that was given is called, waits for 'close', or is held.
  ghost function Owed(h: Shutdown): multiset<Callback> {
    multiset(h.calls) + multiset(h.waiting) + multiset(Pending(h.cb)) + multiset(Pending(h.closeCb))
  }

  ghost predicate NoneOpen(reg: Registry) { forall id :: id in reg.conns ==> !reg.conns[id].Open() }

  ghost predicate ShutOk(s: Server) {
    ShutCore(s.shut, s.reg.connids == {}) && (Leaving(s.shut) ==> NoneOpen(s.reg))
  }

  ghost predicate Inv(y: System) { Indexed(y.server.reg) && Revised(y) && ShutOk(y.server) }

  lemma StepKeepsInv(y: System, e: Event)
    requires Inv(y) && Enabled(y, e)
    ensures Inv(Step(y, e))
  {
    StepKeepsIndexed(y, e);
    StepKeepsRevised(y, e);
    StepKeepsShutOk(y, e);
  }

  lemma ClosedOk(id: ConnId, c: Conn)
    requires ConnOk(id, c)
    ensures ConnOk(id, c.(closed := true, hsConns := {})) && ConnOk(id, c.(destroyed := true))
    ensures c.closed ==> c.hsConns == {}
  {
  }

  lemma OwnRecord(id: ConnId, c: Conn, r: Rec)
    requires ConnOk(id, c) && r in c.hsConns
    ensures r.conn == id && c.Live()
  {
  }

  lemma CloseAllIndexed(s: Server, gone: set<ConnId>)
    requires Indexed(s.reg)
    ensures Indexed(CloseAll(s, gone).reg)
  {
    hide ConnOk, OnEmpty;
    var reg, reg' := s.reg, CloseAll(s, gone).reg;
    forall id | id in reg'.conns ensures ConnOk(id, reg'.conns[id]) {
      ClosedOk(id, reg.conns[id]);
    }
    forall id, r | id in reg'.conns && r in reg'.conns[id].hsConns
      ensures r.uri in reg'.connections && r in reg'.connections[r.uri]
    {
      OwnRecord(id, reg.conns[id], r);
      assert r in Kept(reg.connections[r.uri], gone);
    }
  }

  lemma TellIndexed(s: Server, told: set<ConnId>)
    requires Indexed(s.reg)
    ensures Indexed(Tell(s, told).reg)
  {
    hide ConnOk;
    forall id | id in s.reg.conns ensures ConnOk(id, Tell(s, told).reg.conns[id]) {
      ClosedOk(id, s.reg.conns[id]);
    }
  }

  lemma DestroyAllIndexed(s: Server, ids: set<ConnId>, sync: set<ConnId>)
    requires Indexed(s.reg)
    ensures Indexed(DestroyAll(s, ids, sync).reg)
  {
    var told := Tellable(s.reg, ids);
    TellIndexed(s, told);
    hide Indexed;
    CloseAllIndexed(Tell(s, told), told * sync);
  }

  lemma SetPhaseIndexed(s: Server, id: ConnId, phase: Phase)
    requires Indexed(s.reg) && id in s.reg.conns && ConnOk(id, s.reg.conns[id].(phase := phase))
    ensures Indexed(SetPhase(s, id, phase).reg)
  {
  }

  lemma ConnectIndexed(s: Server, id: ConnId, tokens: seq<Token>)
    requires Indexed(s.reg) && id !in s.reg.conns && tokens != []
    ensures Indexed(Connect(s, id, tokens).reg)
  {
  }

  lemma RegisteredOk(id: ConnId, c: Conn)
    requires ConnOk(id, c) && c.phase.Next? && !c.closed
    ensures c.phase.k < |c.tokens|
    ensures ConnOk(id, c.(hsConns := c.hsConns + {RecordOf(c, id, c.phase.k)}, phase := Asked(c.phase.k)))
  {
  }

  lemma ProcessIndexed(s: Server, id: ConnId)
    requires Indexed(s.reg) && id in s.reg.conns && s.reg.conns[id].phase.Next?
    ensures Indexed(Process(s, id).reg)
  {
    var c := s.reg.conns[id];
    if c.closed {
      SetPhaseIndexed(s, id, Failed);
    } else {
      RegisteredOk(id, c);
      hide ConnOk;
      var rec := RecordOf(c, id, c.phase.k);
      var reg, reg' := s.reg, Process(s, id).reg;
      forall u, r | u in reg'.connections && r in reg'.connections[u]
        ensures r.uri == u && r.conn in reg'.conns && r in reg'.conns[r.conn].hsConns
      {
        if r != rec { assert u in reg.connections && r in reg.connections[u]; }
      }
      forall i, r | i in reg'.conns && r in reg'.conns[i].hsConns
        ensures r.uri in reg'.connections && r in reg'.connections[r.uri]
      {
        if r != rec { assert r in reg.conns[i].hsConns; }
      }
    }
  }

  lemma IndexedConn(s: Server, id: ConnId)
    requires Indexed(s.reg) && id in s.reg.conns
    ensures ConnOk(id, s.reg.conns[id])
  {
  }

  lemma ReadKeyIndexed(y: System, id: ConnId)
    requires Indexed(y.server.reg) && Enabled(y, EvReadKey(id))
    ensures Indexed(Step(y, EvReadKey(id)).server.reg)
  {
    var c := y.server.reg.conns[id];
    SetPhaseIndexed(y.server, id, Answered(c.phase.k, Lookup(y.keys, c.tokens[c.phase.k].uri)));
  }

  lemma ProceedIndexed(s: Server, id: ConnId)
    requires Indexed(s.reg)
    ensures Indexed(Proceed(s, id).reg)
  {
    if id in s.reg.conns && s.reg.conns[id].phase.Next? { ProcessIndexed(s, id); }
  }

  lemma DestroyThenFailIndexed(s: Server, id: ConnId, sync: set<ConnId>)
    requires Indexed(s.reg) && id in s.reg.conns
    ensures Indexed(SetPhase(DestroyAll(s, {id}, sync), id, Failed).reg)
  {
    var s' := DestroyAll(s, {id}, sync);
    DestroyAllIndexed(s, {id}, sync);
    DestroyKeeps(s, {id}, sync, id);
    assert ConnOk(id, s'.reg.conns[id]);
    SetPhaseIndexed(s', id, Failed);
  }

  lemma AnswerIndexed(s: Server, id: ConnId, sync: set<ConnId>)
    requires Indexed(s.reg) && id in s.reg.conns && s.reg.conns[id].phase.Answered?
    ensures Indexed(Answer(s, id, sync).reg)
  {
    var c := s.reg.conns[id];
    assert ConnOk(id, c);
    if c.phase.found != Some(c.tokens[c.phase.k].rev) {
      assert Answer(s, id, sync) == SetPhase(DestroyAll(s, {id}, sync), id, Failed);
      DestroyThenFailIndexed(s, id, sync);
    } else {
      AnsweredOk(id, c);
      assert Answer(s, id, sync) == SetPhase(s, id, if c.phase.k + 1 == |c.tokens| then Done else Next(c.phase.k + 1));
      SetPhaseIndexed(s, id, if c.phase.k + 1 == |c.tokens| then Done else Next(c.phase.k + 1));
    }
  }

  lemma AnsweredOk(id: ConnId, c: Conn)
    requires ConnOk(id, c) && c.phase.Answered?
    ensures ConnOk(id, c.(phase := if c.phase.k + 1 == |c.tokens| then Done else Next(c.phase.k + 1)))
  {
  }

  lemma StepKeepsIndexed(y: System, e: Event)
    requires Indexed(y.server.reg) && Enabled(y, e)
    ensures Indexed(Step(y, e).server.reg)
  {
    hide DestroyAll, CloseAll, Answer, Proceed, Connect;
    var s := y.server;
    match e
    case EvConnect(id, tokens, lost) =>
      ConnectIndexed(s, id, tokens);
      CloseAllIndexed(Connect(s, id, tokens), {id});
      ProceedIndexed(AtOnce(Connect(s, id, tokens), id, lost), id);
    case EvReadKey(id) => ReadKeyIndexed(y, id);
    case EvAnswer(id, sync) =>
      IndexedConn(s, id);
      AnswerIndexed(s, id, sync);
      ProceedIndexed(Answer(s, id, sync), id);
    case EvLost(id) => CloseAllIndexed(s, {id});
    case EvDestroy(id, sync) => DestroyAllIndexed(s, {id}, sync);
    case EvNotify(uri, rev, sync) => DestroyAllIndexed(s, Stale(s.reg.connections, uri, rev), sync);
    case EvAuthzClosed(err, sync) =>
      if !err { ContIndexed(s, s.shut.cb, sync); }
    case EvContinue(next, sync) =>
      if s.shut.stage == AuthzFailed {
        ContIndexed(s.(shut := s.shut.(issued := s.shut.issued + Pending(next))), next, sync);
      }
    case _ =>
  }

  lemma ContIndexed(s: Server, cb: Option<Callback>, sync: set<ConnId>)
    requires Indexed(s.reg)
    ensures Indexed(Cont(s, cb, sync).reg)
  {
    DestroyAllIndexed(s.(shut := s.shut.(stage := Transports, cb := cb, emptyListener := true)), s.reg.connids, sync);
  }

  // Whatever is past its check now was past it before, with nothing replaced meanwhile.
  lemma RevisedKept(y: System, y': System)
    requires Revised(y) && y'.keys == y.keys && y.pending <= y'.pending
    requires forall id, r :: PastCheck(y'.server.reg, id, r) ==> PastCheck(y.server.reg, id, r)
    ensures Revised(y')
  {
    forall id, r | id in y'.server.reg.conns && r in y'.server.reg.conns[id].hsConns
      ensures RevOk(y', y'.server.reg.conns[id], r)
    {
      if PastCheck(y'.server.reg, id, r) {
        assert PastCheck(y.server.reg, id, r);
        assert RevOk(y, y.server.reg.conns[id], r);
      }
    }
  }

  ghost predicate PastCheck(reg: Registry, id: ConnId, r: Rec) {
    id in reg.conns && r in reg.conns[id].hsConns && reg.conns[id].Open() && r.index < Checked(reg.conns[id])
  }

  lemma DestroyAllRevised(y: System, s: Server, ids: set<ConnId>, sync: set<ConnId>)
    requires Revised(y) && s.reg == y.server.reg
    ensures Revised(y.(server := DestroyAll(s, ids, sync)))
  {
    RevisedKept(y, y.(server := DestroyAll(s, ids, sync)));
  }

  lemma ReadKeyRevised(y: System, id: ConnId)
    requires Indexed(y.server.reg) && Revised(y) && Enabled(y, EvReadKey(id))
    ensures Revised(Step(y, EvReadKey(id)))
  {
    var y' := Step(y, EvReadKey(id));
    var conns, conns' := y.server.reg.conns, y'.server.reg.conns;
    forall i, r | i in conns' && r in conns'[i].hsConns
      ensures RevOk(y', conns'[i], r)
    {
      assert RevOk(y, conns[i], r);
      if i == id && r.index == conns[id].phase.k { assert r == RecordOf(conns[id], id, r.index); }
    }
  }

  lemma UpdateKeyRevised(y: System, uri: Uri, rev: Option<Rev>)
    requires Indexed(y.server.reg) && Revised(y)
    ensures Revised(Step(y, EvUpdateKey(uri, rev)))
  {
    var y' := Step(y, EvUpdateKey(uri, rev));
    forall id, r | id in y'.server.reg.conns && r in y'.server.reg.conns[id].hsConns
      ensures RevOk(y', y'.server.reg.conns[id], r)
    {
      assert RevOk(y, y.server.reg.conns[id], r);
    }
  }

  // After the notification of the current revision, every open connection with a record for the URI has it.
  lemma NotifyRevised(y: System, uri: Uri, rev: Option<Rev>, sync: set<ConnId>)
    requires Indexed(y.server.reg) && Revised(y) && Enabled(y, EvNotify(uri, rev, sync))
    ensures Revised(Step(y, EvNotify(uri, rev, sync)))
  {
    var y' := Step(y, EvNotify(uri, rev, sync));
    var conns, conns' := y.server.reg.conns, y'.server.reg.conns;
    forall id, r | id in conns' && r in conns'[id].hsConns
      ensures RevOk(y', conns'[id], r)
    {
      DestroyKeeps(y.server, Stale(y.server.reg.connections, uri, rev), sync, id);
      NotifyOne(y, uri, rev, sync, id, r);
    }
  }

  lemma NotifyOne(y: System, uri: Uri, rev: Option<Rev>, sync: set<ConnId>, id: ConnId, r: Rec)
    requires Indexed(y.server.reg) && Revised(y) && Enabled(y, EvNotify(uri, rev, sync))
    requires id in y.server.reg.conns && r in y.server.reg.conns[id].hsConns
    ensures RevOk(Step(y, EvNotify(uri, rev, sync)), Step(y, EvNotify(uri, rev, sync)).server.reg.conns[id], r)
  {
    var reg := y.server.reg;
    var stale := Stale(reg.connections, uri, rev);
    var c' := Step(y, EvNotify(uri, rev, sync)).server.reg.conns[id];
    DestroyKeeps(y.server, stale, sync, id);
    assert RevOk(y, reg.conns[id], r);
    if c'.Open() && r.uri == uri && rev == Lookup(y.keys, uri) {
      assert r in reg.connections[uri] && r.conn == id;
      assert id !in stale;
    }
  }

  // What telling connections leaves of one of them.
  lemma DestroyKeeps(s: Server, ids: set<ConnId>, sync: set<ConnId>, id: ConnId)
    requires id in s.reg.conns
    ensures id in DestroyAll(s, ids, sync).reg.conns
    ensures var c, c' := s.reg.conns[id], DestroyAll(s, ids, sync).reg.conns[id];
      c'.hsConns <= c.hsConns && c'.phase == c.phase && c'.tokens == c.tokens
      && (c'.Open() <==> c.Open() && id !in ids)
  {
  }

  lemma ProceedRevised(y: System, id: ConnId)
    requires Indexed(y.server.reg) && Revised(y)
    ensures Revised(y.(server := Proceed(y.server, id)))
  {
    var s := y.server;
    if id in s.reg.conns && s.reg.conns[id].phase.Next? {
      assert ConnOk(id, s.reg.conns[id]);
      RevisedKept(y, y.(server := Process(s, id)));
    }
  }

  lemma AnswerRevised(y: System, id: ConnId, sync: set<ConnId>)
    requires Indexed(y.server.reg) && Revised(y) && Enabled(y, EvAnswer(id, sync))
    ensures Revised(y.(server := Answer(y.server, id, sync)))
  {
    var s, c := y.server, y.server.reg.conns[id];
    if c.phase.found != Some(c.tokens[c.phase.k].rev) {
      var y1 := y.(server := DestroyAll(s, {id}, sync));
      DestroyAllRevised(y, s, {id}, sync);
      RevisedKept(y1, y1.(server := SetPhase(y1.server, id, Failed)));
    } else {
      RevisedKept(y, y.(server := Answer(s, id, sync)));
    }
  }

  lemma CloseAllRevised(y: System, gone: set<ConnId>)
    requires Revised(y)
    ensures Revised(y.(server := CloseAll(y.server, gone)))
  {
    RevisedKept(y, y.(server := CloseAll(y.server, gone)));
  }

  lemma ContRevised(y: System, s: Server, cb: Option<Callback>, sync: set<ConnId>)
    requires Revised(y) && s.reg == y.server.reg
    ensures Revised(y.(server := Cont(s, cb, sync)))
  {
    var s1 := s.(shut := s.shut.(stage := Transports, cb := cb, emptyListener := true));
    DestroyAllRevised(y, s1, s.reg.connids, sync);
  }

  lemma SameRegRevised(y: System, s: Server)
    requires Revised(y) && s.reg == y.server.reg
    ensures Revised(y.(server := s))
  {
    RevisedKept(y, y.(server := s));
  }

  lemma ConnectRevised(y: System, id: ConnId, tokens: seq<Token>, lost: bool)
    requires Indexed(y.server.reg) && Revised(y) && Enabled(y, EvConnect(id, tokens, lost))
    ensures Revised(Step(y, EvConnect(id, tokens, lost)))
  {
    var s1 := Connect(y.server, id, tokens);
    ConnectIndexed(y.server, id, tokens);
    RevisedKept(y, y.(server := s1));
    CloseAllIndexed(s1, {id});
    CloseAllRevised(y.(server := s1), {id});
    ProceedRevised(y.(server := AtOnce(s1, id, lost)), id);
  }

  lemma StepKeepsRevised(y: System, e: Event)
    requires Indexed(y.server.reg) && Revised(y) && Enabled(y, e)
    ensures Revised(Step(y, e))
  {
    var s := y.server;
    match e
    case EvConnect(id, tokens, lost) => ConnectRevised(y, id, tokens, lost);
    case EvReadKey(id) => ReadKeyRevised(y, id);
    case EvAnswer(id, sync) =>
      AnswerIndexed(s, id, sync);
      AnswerRevised(y, id, sync);
      ProceedRevised(y.(server := Answer(s, id, sync)), id);
    case EvLost(id) => CloseAllRevised(y, {id});
    case EvDestroy(id, sync) => DestroyAllRevised(y, s, {id}, sync);
    case EvUpdateKey(uri, rev) => UpdateKeyRevised(y, uri, rev);
    case EvNotify(uri, rev, sync) => NotifyRevised(y, uri, rev, sync);
    case EvStarted => SameRegRevised(y, Step(y, e).server);
    case EvClose(_) => SameRegRevised(y, Step(y, e).server);
    case EvAuthzClosed(err, sync) =>
      if err { SameRegRevised(y, Step(y, e).server); } else { ContRevised(y, s, s.shut.cb, sync); }
    case EvTransportsClosed(_) => SameRegRevised(y, Step(y, e).server);
    case EvContinue(next, sync) =>
      if s.shut.stage == AuthzFailed {
        ContRevised(y, s.(shut := s.shut.(issued := s.shut.issued + Pending(next))), next, sync);
      } else {
        SameRegRevised(y, Step(y, e).server);
      }
  }

  lemma CheckOwed(h: Shutdown, empty: bool)
    ensures Owed(Check(h, empty)) == Owed(h)
  {
  }

  lemma EmptyShutCore(h: Shutdown)
    requires ShutCore(h, false)
    ensures ShutCore(OnEmpty(h, true), true)
  {
    CheckOwed(h.(emptyListener := false), true);
  }

  lemma CloseAllShutOk(s: Server, gone: set<ConnId>)
    requires ShutOk(s) && gone <= s.reg.connids
    ensures ShutOk(CloseAll(s, gone))
    ensures CloseAll(s, gone).shut.stage == s.shut.stage
  {
    if gone != {} && s.reg.connids - gone == {} { EmptyShutCore(s.shut); }
    if gone == {} { assert s.reg.connids - gone == s.reg.connids; }
  }

  lemma DestroyAllShutOk(s: Server, ids: set<ConnId>, sync: set<ConnId>)
    requires Indexed(s.reg) && ShutOk(s)
    ensures ShutOk(DestroyAll(s, ids, sync))
    ensures DestroyAll(s, ids, sync).shut.stage == s.shut.stage
  {
    var told := Tellable(s.reg, ids);
    CloseAllShutOk(Tell(s, told), told * sync);
  }

  // What `cont` has done once every connection is told.
  lemma ToldAll(s: Server, cb: Option<Callback>) returns (s2: Server)
    requires Indexed(s.reg) && s.shut.stage in {Authz, AuthzFailed}
    requires ShutCore(s.shut.(stage := Authz, cb := cb), s.reg.connids == {})
    ensures s2.shut == s.shut.(stage := Transports, cb := cb, emptyListener := true)
    ensures s2.reg.connids == s.reg.connids && ShutOk(s2)
    ensures s2 == Tell(s.(shut := s2.shut), Tellable(s.reg, s.reg.connids))
  {
    s2 := Tell(s.(shut := s.shut.(stage := Transports, cb := cb, emptyListener := true)),
               Tellable(s.reg, s.reg.connids));
    assert Owed(s2.shut) == Owed(s.shut.(stage := Authz, cb := cb));
  }

  lemma ContShutOk(s: Server, cb: Option<Callback>, sync: set<ConnId>)
    requires Indexed(s.reg) && s.shut.stage in {Authz, AuthzFailed}
    requires ShutCore(s.shut.(stage := Authz, cb := cb), s.reg.connids == {})
    ensures ShutOk(Cont(s, cb, sync))
  {
    var s2 := ToldAll(s, cb);
    hide ShutOk, ShutCore, Tell, CloseAll;
    CloseAllShutOk(s2, Tellable(s.reg, s.reg.connids) * sync);
  }

  lemma Cont2ShutOk(s: Server, cb: Option<Callback>)
    requires s.shut.stage in {Transports, TransportsFailed} && NoneOpen(s.reg)
    requires ShutCore(s.shut.(stage := Transports, cb := cb), s.reg.connids == {})
    ensures ShutOk(Cont2(s, cb))
  {
    var h := s.shut.(cb := cb, transportsClosed := true, stage := Finished);
    CheckOwed(h, s.reg.connids == {});
    assert Owed(h) == Owed(s.shut.(stage := Transports, cb := cb));
  }

  lemma FailOwed(h: Shutdown, stage: Stage)
    ensures Owed(Fail(h, stage)) == Owed(h)
  {
  }

  lemma CloseShutCore(h: Shutdown, cb: Callback, empty: bool)
    requires ShutCore(h, empty)
    ensures ShutCore(Close(h, cb), empty)
  {
    hide Owed;
    Snoc(h.issued, cb);
    CloseOwed(h, cb);
  }

  lemma Snoc(s: seq<Callback>, cb: Callback)
    ensures multiset(s + [cb]) == multiset(s) + multiset{cb}
  {
  }

  lemma CloseOwed(h: Shutdown, cb: Callback)
    requires h.closing || (h.cb.None? && h.closeCb.None?)
    ensures Owed(Close(h, cb)) == Owed(h) + multiset{cb}
  {
    var h1 := h.(issued := h.issued + [cb]);
    assert Owed(h1) == Owed(h);
    hide Owed;
    if h.closing && h.closed {
      OwedCall(h1, cb);
    } else if h.closing {
      OwedWait(h1, cb);
    } else {
      OwedHeld(h1.(closing := true, stage := if h.ready then Authz else h.stage), cb);
    }
  }

  lemma OwedCall(h: Shutdown, cb: Callback)
    ensures Owed(h.(calls := h.calls + [cb])) == Owed(h) + multiset{cb}
  {
    Snoc(h.calls, cb);
  }

  lemma OwedWait(h: Shutdown, cb: Callback)
    ensures Owed(h.(waiting := h.waiting + [cb])) == Owed(h) + multiset{cb}
  {
    Snoc(h.waiting, cb);
  }

  lemma OwedHeld(h: Shutdown, cb: Callback)
    requires h.cb.None? && h.closeCb.None?
    ensures Owed(h.(cb := Some(cb))) == Owed(h.(closeCb := Some(cb))) == Owed(h) + multiset{cb}
  {
    assert multiset(Pending(Some(cb))) == multiset{cb};
  }

  lemma StartedShutCore(h: Shutdown, empty: bool)
    requires ShutCore(h, empty) && !h.ready
    ensures ShutCore(Started(h), empty)
  {
    assert Owed(Started(h)) == Owed(h);
  }

  lemma ContinueShutOk(s: Server, next: Option<Callback>, sync: set<ConnId>)
    requires Indexed(s.reg) && ShutOk(s) && s.shut.stage in {AuthzFailed, TransportsFailed}
    ensures ShutOk(Continue(s, next, sync))
  {
    hide ShutCore, Cont, Cont2;
    IssuedShutCore(s.shut, next, s.reg.connids == {});
    var s' := s.(shut := s.shut.(issued := s.shut.issued + Pending(next)));
    if s.shut.stage == AuthzFailed { ContShutOk(s', next, sync); } else { Cont2ShutOk(s', next); }
  }

  // The user's further callback is one more to be called.
  lemma IssuedShutCore(h: Shutdown, next: Option<Callback>, empty: bool)
    requires ShutCore(h, empty) && h.stage in {AuthzFailed, TransportsFailed}
    ensures var stage := if h.stage == AuthzFailed then Authz else Transports;
      ShutCore(h.(issued := h.issued + Pending(next), cb := next, stage := stage), empty)
  {
    IssuedOwed(h, next);
    hide Owed;
  }

  lemma IssuedOwed(h: Shutdown, next: Option<Callback>)
    requires h.cb.None?
    ensures var stage := if h.stage == AuthzFailed then Authz else Transports;
      Owed(h.(issued := h.issued + Pending(next), cb := next, stage := stage)) == Owed(h) + multiset(Pending(next))
  {
  }

  lemma AnswerShutOk(s: Server, id: ConnId, sync: set<ConnId>)
    requires Indexed(s.reg) && ShutOk(s) && id in s.reg.conns && s.reg.conns[id].phase.Answered?
    ensures ShutOk(Answer(s, id, sync))
  {
    hide ShutOk, DestroyAll, Indexed;
    IndexedConn(s, id);
    var c := s.reg.conns[id];
    if c.phase.found != Some(c.tokens[c.phase.k].rev) {
      DestroyAllShutOk(s, {id}, sync);
      DestroyKeeps(s, {id}, sync, id);
      SetPhaseShutOk(DestroyAll(s, {id}, sync), id, Failed);
    } else {
      SetPhaseShutOk(s, id, if c.phase.k + 1 == |c.tokens| then Done else Next(c.phase.k + 1));
    }
  }

  lemma SetPhaseShutOk(s: Server, id: ConnId, phase: Phase)
    requires ShutOk(s) && id in s.reg.conns
    ensures ShutOk(SetPhase(s, id, phase))
  {
  }

  lemma ProcessShutOk(s: Server, id: ConnId)
    requires id in s.reg.conns && s.reg.conns[id].phase.Next? && s.reg.conns[id].phase.k < |s.reg.conns[id].tokens|
    requires ShutOk(s)
    ensures ShutOk(Process(s, id))
  {
    hide ShutCore, AddRecord;
  }

  lemma ProceedShutOk(s: Server, id: ConnId)
    requires Indexed(s.reg) && ShutOk(s)
    ensures ShutOk(Proceed(s, id))
  {
    hide Indexed, ShutOk, Process;
    if id in s.reg.conns && s.reg.conns[id].phase.Next? && s.reg.conns[id].phase.k < |s.reg.conns[id].tokens| {
      ProcessShutOk(s, id);
    }
  }

  lemma FailShutOk(s: Server, stage: Stage)
    requires ShutOk(s) && (s.shut.stage, stage) in {(Authz, AuthzFailed), (Transports, TransportsFailed)}
    ensures ShutOk(s.(shut := Fail(s.shut, stage)))
  {
    FailOwed(s.shut, stage);
  }

  lemma ConnectShutOk(s: Server, id: ConnId, tokens: seq<Token>)
    requires ShutOk(s) && Indexed(s.reg) && id !in s.reg.conns
    ensures ShutOk(Connect(s, id, tokens))
  {
  }

  lemma ConnectedShutOk(s: Server, id: ConnId, tokens: seq<Token>, lost: bool)
    requires ShutOk(s) && Indexed(s.reg) && id !in s.reg.conns && tokens != []
    ensures ShutOk(Proceed(AtOnce(Connect(s, id, tokens), id, lost), id))
  {
    hide Indexed, ShutOk, Proceed, CloseAll;
    ConnectShutOk(s, id, tokens);
    ConnectIndexed(s, id, tokens);
    if lost && !s.shut.closing {
      CloseAllShutOk(Connect(s, id, tokens), {id});
      CloseAllIndexed(Connect(s, id, tokens), {id});
    }
    ProceedShutOk(AtOnce(Connect(s, id, tokens), id, lost), id);
  }

  lemma StartedShutOk(s: Server)
    requires ShutOk(s) && !s.shut.ready
    ensures ShutOk(s.(shut := Started(s.shut)))
  {
    StartedShutCore(s.shut, s.reg.connids == {});
  }

  lemma CloseShutOk(s: Server, cb: Callback)
    requires ShutOk(s)
    ensures ShutOk(s.(shut := Close(s.shut, cb)))
  {
    CloseShutCore(s.shut, cb, s.reg.connids == {});
  }

  lemma AuthzClosedShutOk(s: Server, err: bool, sync: set<ConnId>)
    requires Indexed(s.reg) && ShutOk(s) && s.shut.stage == Authz
    ensures ShutOk(AuthzClosed(s, err, sync))
  {
    hide Indexed, Cont, Fail;
    if err { FailShutOk(s, AuthzFailed); } else { ContShutOk(s, s.shut.cb, sync); }
  }

  lemma TransportsClosedShutOk(s: Server, err: bool)
    requires ShutOk(s) && s.shut.stage == Transports
    ensures ShutOk(TransportsClosed(s, err))
  {
    hide Cont2, Fail;
    if err { FailShutOk(s, TransportsFailed); } else { Cont2ShutOk(s, s.shut.cb); }
  }

  lemma StepKeepsShutOk(y: System, e: Event)
    requires Indexed(y.server.reg) && ShutOk(y.server) && Enabled(y, e)
    ensures ShutOk(Step(y, e).server)
  {
    hide Proceed, AtOnce, Connect, SetPhase, Answer, DestroyAll, CloseAll, AuthzClosed, TransportsClosed, Continue;
    hide ShutOk, Started, Close;
    var s := y.server;
    match e
    case EvConnect(id, tokens, lost) => ConnectedShutOk(s, id, tokens, lost);
    case EvReadKey(id) =>
      var c := s.reg.conns[id];
      IndexedConn(s, id);
      SetPhaseShutOk(s, id, Answered(c.phase.k, Lookup(y.keys, c.tokens[c.phase.k].uri)));
    case EvAnswer(id, sync) =>
      IndexedConn(s, id);
      AnswerShutOk(s, id, sync);
      AnswerIndexed(s, id, sync);
      ProceedShutOk(Answer(s, id, sync), id);
    case EvLost(id) => CloseAllShutOk(s, {id});
    case EvDestroy(id, sync) => DestroyAllShutOk(s, {id}, sync);
    case EvUpdateKey(uri, rev) =>
    case EvNotify(uri, rev, sync) => DestroyAllShutOk(s, Stale(s.reg.connections, uri, rev), sync);
    case EvStarted => StartedShutOk(s);
    case EvClose(cb) => CloseShutOk(s, cb);
    case EvAuthzClosed(err, sync) => AuthzClosedShutOk(s, err, sync);
    case EvTransportsClosed(err) => TransportsClosedShutOk(s, err);
    case EvContinue(next, sync) => ContinueShutOk(s, next, sync);
  }

  // ---- What holds in every run ----

  lemma InitialInv(y: System)
    requires Initial(y)
    ensures Inv(y)
  {
    var h := y.server.shut;
    assert Owed(h) == multiset{};
  }

  ghost predicate Reachable(y: System) {
    exists y0, es :: Initial(y0) && Inv(y0) && IsRun(y0, es) && y == Run(y0, es)
  }

  predicate IsLiveRecord(reg: Registry, r: Rec) {
    exists id :: id in reg.conns && reg.conns[id].Live() && r in reg.conns[id].hsConns
  }

  /** `_connections` holds exactly the records of the live connections, each under its own URI, and no
      empty set; `_connids` holds exactly the live connections.  Once every connection has closed, both
      are empty. */
  lemma IndexesExact(y: System)
    requires Reachable(y)
    ensures forall u, r :: (u in y.server.reg.connections && r in y.server.reg.connections[u]) <==>
              r.uri == u && IsLiveRecord(y.server.reg, r)
    ensures forall u :: u in y.server.reg.connections ==> y.server.reg.connections[u] != {}
    ensures forall id :: id in y.server.reg.connids <==> id in y.server.reg.conns && y.server.reg.conns[id].Live()
    ensures (forall id :: id in y.server.reg.conns ==> !y.server.reg.conns[id].Live()) ==>
              y.server.reg.connections == map[] && y.server.reg.connids == {}
  {
    var reg := y.server.reg;
    assert Inv(y);
    forall id, r | id in reg.conns && r in reg.conns[id].hsConns
      ensures r.conn == id && reg.conns[id].Live() && r.uri in reg.connections && r in reg.connections[r.uri]
    {
      assert ConnOk(id, reg.conns[id]);
    }
    forall u, r | u in reg.connections && r in reg.connections[u]
      ensures r.uri == u && r.conn in reg.conns && reg.conns[r.conn].Live() && r in reg.conns[r.conn].hsConns
    {
      assert ConnOk(r.conn, reg.conns[r.conn]);
    }
    if forall id :: id in reg.conns ==> !reg.conns[id].Live() {
      forall u | u in reg.connections ensures false {
        var r := SomeLiveRecord(reg, u);
      }
    }
  }

  lemma SomeLiveRecord(reg: Registry, u: Uri) returns (r: Rec)
    requires Indexed(reg) && u in reg.connections
    ensures r in reg.connections[u] && r.conn in reg.conns && reg.conns[r.conn].Live()
  {
    assert reg.connections[u] != {};
    r :| r in reg.connections[u];
    assert ConnOk(r.conn, reg.conns[r.conn]);
  }

  /** Once no change notification is outstanding, a connection past the check of a token whose revision is
      not the current one has been told to go. */
  lemma StaleConnectionsTold(y: System, id: ConnId, r: Rec)
    requires Reachable(y) && y.pending == multiset{}
    requires id in y.server.reg.conns && y.server.reg.conns[id].Live() && r in y.server.reg.conns[id].hsConns
    requires r.index < Checked(y.server.reg.conns[id]) && Lookup(y.keys, r.uri) != Some(r.rev)
    ensures y.server.reg.conns[id].destroyed
  {
    assert Inv(y);
    assert RevOk(y, y.server.reg.conns[id], r);
  }

  /** 'close' is emitted at most once, exactly when the server counts as closed; by then the transports
      are closed, no connection is live, and every callback ever given has been called exactly as often as
      it was given. */
  lemma ClosedOnce(y: System)
    requires Reachable(y)
    ensures var s := y.server;
      && s.shut.closeEvents <= 1
      && (s.shut.closed <==> s.shut.closeEvents == 1)
      && (s.shut.closed <==> s.shut.transportsClosed && forall id :: id in s.reg.conns ==> !s.reg.conns[id].Live())
      && (s.shut.closed ==> multiset(s.shut.calls) == multiset(s.shut.issued))
      && multiset(s.shut.calls) <= multiset(s.shut.issued)
  {
    assert Inv(y);
    var s := y.server;
    assert s.reg.connids == {} <==> forall id :: id in s.reg.conns ==> !s.reg.conns[id].Live() by {
      if s.reg.connids != {} { var id :| id in s.reg.connids; }
    }
    if s.shut.closed { assert Owed(s.shut) == multiset(s.shut.calls); }
  }

  // ---- What a step can add ----

  ghost predicate InIndex(reg: Registry, r: Rec) { r.uri in reg.connections && r in reg.connections[r.uri] }

  // The step takes the next handshake of a connection that has not closed.
  ghost predicate TakesNext(y: System, e: Event)
    requires Enabled(y, e)
  {
    if e.EvConnect? then !y.server.shut.closing && !e.lost
    else if !e.EvAnswer? then false
    else
      var c := y.server.reg.conns[e.id];
      c.Live() && c.phase.k + 1 < |c.tokens| && c.phase.found == Some(c.tokens[c.phase.k].rev)
  }

  // The record of the handshake it takes.
  ghost function NextRecord(y: System, e: Event): Rec
    requires Enabled(y, e) && TakesNext(y, e)
  {
    if e.EvConnect? then Rec(e.id, 0, e.tokens[0].uri, e.tokens[0].rev)
    else
      var c := y.server.reg.conns[e.id];
      var k := c.phase.k + 1;
      Rec(e.id, k, c.tokens[k].uri, c.tokens[k].rev)
  }

  /** A step adds a connection only when it is a new connection, not yet lost, and closing has not started; and it adds
      no record but that of the handshake it takes of a connection that has not closed. */
  lemma Additions(y: System, e: Event)
    requires Indexed(y.server.reg) && Enabled(y, e)
    ensures var reg, reg' := y.server.reg, Step(y, e).server.reg;
      && (forall id :: id in reg'.connids && id !in reg.connids <==>
            e.EvConnect? && e.id == id && !y.server.shut.closing && !e.lost)
      && (forall r :: InIndex(reg', r) && !InIndex(reg, r) <==> TakesNext(y, e) && r == NextRecord(y, e))
  {
    OnlyConnectAdds(y, e);
    if TakesNext(y, e) { TakenRecord(y, e); } else { OnlyTakingAdds(y, e); }
  }

  lemma OnlyConnectAdds(y: System, e: Event)
    requires Indexed(y.server.reg) && Enabled(y, e)
    ensures forall id :: id in Step(y, e).server.reg.connids && id !in y.server.reg.connids <==>
      e.EvConnect? && e.id == id && !y.server.shut.closing && !e.lost
  {
  }

  lemma TakenRecord(y: System, e: Event)
    requires Indexed(y.server.reg) && Enabled(y, e) && TakesNext(y, e)
    ensures forall r :: InIndex(Step(y, e).server.reg, r) && !InIndex(y.server.reg, r) <==> r == NextRecord(y, e)
  {
    var s, rec := y.server, NextRecord(y, e);
    if e.EvAnswer? { assert ConnOk(e.id, s.reg.conns[e.id]); }
    assert !InIndex(s.reg, rec);
    assert Step(y, e).server.reg.connections == AddRecord(s.reg.connections, rec);
  }

  lemma OnlyTakingAdds(y: System, e: Event)
    requires Indexed(y.server.reg) && Enabled(y, e) && !TakesNext(y, e)
    ensures forall r :: InIndex(Step(y, e).server.reg, r) ==> InIndex(y.server.reg, r)
  {
  }

  function TwoTokens(phase: Phase, hsConns: set<Rec>): Conn {
    Conn(false, false, hsConns, [Token("u", "1"), Token("v", "1")], phase)
  }

  // A connection with two tokens, the first of which is registered.
  lemma AcceptedWithTwo() returns (y: System)
    ensures Reachable(y) && Inv(y) && !y.server.shut.closing && y.keys == map["u" := "1"]
    ensures y.server.reg.connections == map["u" := {Rec(0, 0, "u", "1")}]
    ensures y.server.reg.conns == map[0 := TwoTokens(Asked(0), {Rec(0, 0, "u", "1")})]
  {
    hide Indexed, Revised, ShutOk;
    var y0 := System(NEW_SERVER, map["u" := "1"], multiset{});
    InitialInv(y0);
    assert IsRun(y0, []) && Run(y0, []) == y0;
    var e := EvConnect(0, [Token("u", "1"), Token("v", "1")], false);
    StepReaches(y0, e);
    y := Step(y0, e);
    FirstRecord(Rec(0, 0, "u", "1"));
  }

  lemma FirstRecord(rec: Rec)
    ensures AddRecord(map[], rec) == map[rec.uri := {rec}]
  {
    assert {} + {rec} == {rec};
  }

  // Then `close` is called, and the first token's key is read.
  lemma ClosingBetweenHandshakes() returns (y: System)
    ensures Reachable(y) && Inv(y) && y.server.shut.closing && "v" !in y.server.reg.connections
    ensures y.server.reg.conns == map[0 := TwoTokens(Answered(0, Some("1")), {Rec(0, 0, "u", "1")})]
  {
    hide Indexed, Revised, ShutOk;
    var y1 := AcceptedWithTwo();
    StepReaches(y1, EvClose(0));
    var y2 := Step(y1, EvClose(0));
    StepReaches(y2, EvReadKey(0));
    y := Step(y2, EvReadKey(0));
  }

  /** So closing does not stop records from being added to `_connections`: a connection accepted before the close
      takes its second handshake, and registers its record, after it. */
  lemma RecordAddedWhileClosing()
    ensures exists y, e ::
      && Reachable(y) && Inv(y) && Enabled(y, e) && y.server.shut.closing
      && "v" !in y.server.reg.connections && "v" in Step(y, e).server.reg.connections
  {
    var y := ClosingBetweenHandshakes();
    var e := EvAnswer(0, {});
    assert Enabled(y, e);
    assert "v" in Step(y, e).server.reg.connections;
  }

  lemma StepReaches(y: System, e: Event)
    requires Reachable(y) && Enabled(y, e)
    ensures Inv(y) && Inv(Step(y, e)) && Reachable(Step(y, e))
  {
    hide Step, Enabled, Indexed, Revised, ShutOk;
    var y0, es :| Initial(y0) && Inv(y0) && IsRun(y0, es) && y == Run(y0, es);
    StepKeepsInv(y, e);
    RunSnoc(y0, es, e);
  }

  lemma RunCons(y: System, e: Event, es: seq<Event>)
    requires Inv(y) && Enabled(y, e) && Inv(Step(y, e)) && IsRun(Step(y, e), es)
    ensures IsRun(y, [e] + es) && Run(y, [e] + es) == Run(Step(y, e), es)
  {
    assert ([e] + es)[1..] == es;
  }

  lemma RunFirst(y: System, es: seq<Event>)
    requires Inv(y) && es != [] && IsRun(y, es)
    ensures Enabled(y, es[0]) && Inv(Step(y, es[0])) && IsRun(Step(y, es[0]), es[1..])
    ensures Run(y, es) == Run(Step(y, es[0]), es[1..])
  {
    StepKeepsInv(y, es[0]);
  }

  lemma {:induction false} RunSnoc(y: System, es: seq<Event>, e: Event)
    requires Inv(y) && IsRun(y, es) && Enabled(Run(y, es), e) && Inv(Step(Run(y, es), e))
    ensures IsRun(y, es + [e]) && Run(y, es + [e]) == Step(Run(y, es), e)
    decreases |es|
  {
    hide Step, Enabled, Indexed, Revised, ShutOk;
    if es == [] {
      RunCons(y, e, []);
      assert [] + [e] == [e] + [];
    } else {
      RunFirst(y, es);
      RunSnoc(Step(y, es[0]), es[1..], e);
      RunCons(y, es[0], es[1..] + [e]);
      assert es + [e] == [es[0]] + (es[1..] + [e]);
    }
  }

  // ---- Shutdown ends ----

  // The steps others owe a closing server: the start ends, the authorizer and the transports close, the
  // user continues after an error, and a connection is lost.
  predicate Owing(e: Event) {
    e.EvStarted? || e.EvAuthzClosed? || e.EvTransportsClosed? || e.EvContinue? || e.EvLost?
  }

  ghost function Distance(s: Server): nat {
    |s.reg.connids| +
    match s.shut.stage
    case Idle => 6
    case Authz => 5
    case AuthzFailed => 4
    case Transports => 3
    case TransportsFailed => 2
    case Finished => 0
  }

  lemma CloseAllDistance(s: Server, gone: set<ConnId>)
    requires ShutOk(s) && gone <= s.reg.connids
    ensures Distance(CloseAll(s, gone)) <= Distance(s)
    ensures gone != {} ==> Distance(CloseAll(s, gone)) < Distance(s)
  {
    CloseAllShutOk(s, gone);
    Sets.SubsetSize(s.reg.connids - gone, s.reg.connids);
  }

  lemma DestroyAllDistance(s: Server, ids: set<ConnId>, sync: set<ConnId>)
    requires Indexed(s.reg) && ShutOk(s)
    ensures Distance(DestroyAll(s, ids, sync)) <= Distance(s)
  {
    var told := Tellable(s.reg, ids);
    var s1 := Tell(s, told);
    CloseAllDistance(s1, told * sync);
  }

  lemma ContDistance(s: Server, cb: Option<Callback>, sync: set<ConnId>)
    requires Indexed(s.reg) && s.shut.stage in {Authz, AuthzFailed}
    requires ShutCore(s.shut.(stage := Authz, cb := cb), s.reg.connids == {})
    ensures Distance(Cont(s, cb, sync)) < Distance(s)
  {
    var s2 := ToldAll(s, cb);
    hide ShutOk, ShutCore, Tell, CloseAll;
    CloseAllDistance(s2, Tellable(s.reg, s.reg.connids) * sync);
  }

  lemma ContinueDistance(s: Server, next: Option<Callback>, sync: set<ConnId>)
    requires Indexed(s.reg) && ShutOk(s) && s.shut.stage in {AuthzFailed, TransportsFailed}
    ensures Distance(Continue(s, next, sync)) < Distance(s)
  {
    hide ShutCore, Cont;
    if s.shut.stage == AuthzFailed {
      IssuedShutCore(s.shut, next, s.reg.connids == {});
      ContDistance(s.(shut := s.shut.(issued := s.shut.issued + Pending(next))), next, sync);
    }
  }

  lemma AnswerDistance(s: Server, id: ConnId, sync: set<ConnId>)
    requires Indexed(s.reg) && ShutOk(s) && id in s.reg.conns && s.reg.conns[id].phase.Answered?
    ensures Distance(Answer(s, id, sync)) <= Distance(s)
  {
    hide Indexed, ShutOk, DestroyAll, ConnOk;
    DestroyAllDistance(s, {id}, sync);
  }

  lemma CloseAllClosing(s: Server, gone: set<ConnId>)
    ensures CloseAll(s, gone).shut.closing == s.shut.closing
  {
    hide Without, Closed;
  }

  lemma DestroyAllClosing(s: Server, ids: set<ConnId>, sync: set<ConnId>)
    ensures DestroyAll(s, ids, sync).shut.closing == s.shut.closing
  {
    hide CloseAll;
    var told := Tellable(s.reg, ids);
    CloseAllClosing(Tell(s, told), told * sync);
  }

  lemma AnswerClosing(s: Server, id: ConnId, sync: set<ConnId>)
    requires id in s.reg.conns && s.reg.conns[id].phase.Answered? && s.reg.conns[id].phase.k < |s.reg.conns[id].tokens|
    ensures Proceed(Answer(s, id, sync), id).shut.closing == s.shut.closing
  {
    hide DestroyAll;
    DestroyAllClosing(s, {id}, sync);
  }

  lemma ClosingStays(y: System, e: Event)
    requires Indexed(y.server.reg) && Enabled(y, e) && y.server.shut.closing
    ensures Step(y, e).server.shut.closing
  {
    var s := y.server;
    hide Proceed, Answer, DestroyAll, CloseAll, Cont;
    match e
    case EvConnect(_, _, _) => HandshakeDistance(y, e);
    case EvAnswer(id, sync) =>
      IndexedConn(s, id);
      AnswerClosing(s, id, sync);
    case EvLost(id) => CloseAllClosing(s, {id});
    case EvDestroy(id, sync) => DestroyAllClosing(s, {id}, sync);
    case EvNotify(uri, rev, sync) => DestroyAllClosing(s, Stale(s.reg.connections, uri, rev), sync);
    case EvAuthzClosed(_, sync) => ContClosing(s, s.shut.cb, sync);
    case EvContinue(next, sync) =>
      ContClosing(s.(shut := s.shut.(issued := s.shut.issued + Pending(next))), next, sync);
    case _ =>
  }

  lemma ContClosing(s: Server, cb: Option<Callback>, sync: set<ConnId>)
    ensures Cont(s, cb, sync).shut.closing == s.shut.closing
  {
    DestroyAllClosing(s.(shut := s.shut.(stage := Transports, cb := cb, emptyListener := true)), s.reg.connids, sync);
  }

  lemma AuthzClosedDistance(s: Server, err: bool, sync: set<ConnId>)
    requires Indexed(s.reg) && ShutOk(s) && s.shut.stage == Authz
    ensures Distance(AuthzClosed(s, err, sync)) < Distance(s)
  {
    hide Indexed, ShutCore, NoneOpen, Cont;
    assert s.shut.(stage := Authz, cb := s.shut.cb) == s.shut;
    if !err { ContDistance(s, s.shut.cb, sync); }
  }

  lemma AuthzCloser(y: System, err: bool, sync: set<ConnId>)
    requires Indexed(y.server.reg) && ShutOk(y.server) && Enabled(y, EvAuthzClosed(err, sync))
    ensures Distance(Step(y, EvAuthzClosed(err, sync)).server) < Distance(y.server)
  {
    hide Indexed, ShutOk, AuthzClosed, Distance;
    AuthzClosedDistance(y.server, err, sync);
  }

  lemma ContinueCloser(y: System, next: Option<Callback>, sync: set<ConnId>)
    requires Indexed(y.server.reg) && ShutOk(y.server) && Enabled(y, EvContinue(next, sync))
    ensures Distance(Step(y, EvContinue(next, sync)).server) < Distance(y.server)
  {
    ContinueDistance(y.server, next, sync);
  }

  lemma FlagsCloser(y: System, e: Event)
    requires Indexed(y.server.reg) && ShutOk(y.server) && Enabled(y, e) && y.server.shut.closing
    requires e.EvStarted? || e.EvClose? || e.EvTransportsClosed?
    ensures Distance(Step(y, e).server) <= Distance(y.server)
    ensures Owing(e) ==> Distance(Step(y, e).server) < Distance(y.server)
  {
    hide Indexed, Owed, NoneOpen;
    var h, h' := y.server.shut, Step(y, e).server.shut;
    assert Step(y, e).server.reg == y.server.reg;
    if e.EvStarted? { assert h.stage == Idle && h'.stage == Authz; }
    if e.EvClose? { assert h'.stage == h.stage; }
  }

  lemma HandshakeDistance(y: System, e: Event)
    requires Indexed(y.server.reg) && Enabled(y, e) && y.server.shut.closing
    requires e.EvConnect? || e.EvReadKey? || e.EvUpdateKey?
    ensures Step(y, e).server.shut == y.server.shut && Distance(Step(y, e).server) == Distance(y.server)
  {
  }

  lemma LostCloser(y: System, id: ConnId)
    requires Indexed(y.server.reg) && ShutOk(y.server) && Enabled(y, EvLost(id))
    ensures Distance(Step(y, EvLost(id)).server) < Distance(y.server)
  {
    CloseAllDistance(y.server, {id});
  }

  lemma AnswerCloser(y: System, id: ConnId, sync: set<ConnId>)
    requires Indexed(y.server.reg) && ShutOk(y.server) && Enabled(y, EvAnswer(id, sync))
    ensures Distance(Step(y, EvAnswer(id, sync)).server) <= Distance(y.server)
  {
    AnswerDistance(y.server, id, sync);
  }

  lemma DestroyCloser(y: System, e: Event)
    requires Indexed(y.server.reg) && ShutOk(y.server) && Enabled(y, e) && (e.EvDestroy? || e.EvNotify?)
    ensures Distance(Step(y, e).server) <= Distance(y.server)
  {
    var s := y.server;
    if e.EvDestroy? { DestroyAllDistance(s, {e.id}, e.sync); }
    else { DestroyAllDistance(s, Stale(s.reg.connections, e.uri, e.rev), e.sync); }
  }

  /** Once closing has started, every step that is owed brings the end closer and no step moves it away. */
  lemma Closer(y: System, e: Event)
    requires Indexed(y.server.reg) && ShutOk(y.server) && Enabled(y, e) && y.server.shut.closing
    ensures Distance(Step(y, e).server) <= Distance(y.server)
    ensures Owing(e) ==> Distance(Step(y, e).server) < Distance(y.server)
  {
    hide Step, Distance, Indexed, ShutOk, Enabled;
    if e.EvLost? {
      LostCloser(y, e.id);
    } else if e.EvAnswer? {
      AnswerCloser(y, e.id, e.sync);
    } else if e.EvDestroy? || e.EvNotify? {
      DestroyCloser(y, e);
    } else if e.EvConnect? || e.EvReadKey? || e.EvUpdateKey? {
      HandshakeDistance(y, e);
    } else if e.EvAuthzClosed? {
      AuthzCloser(y, e.err, e.sync);
    } else if e.EvContinue? {
      ContinueCloser(y, e.next, e.sync);
    } else {
      FlagsCloser(y, e);
    }
  }

  function OwedSteps(es: seq<Event>): nat {
    if es == [] then 0 else (if Owing(es[0]) then 1 else 0) + OwedSteps(es[1..])
  }

  /** A closing server ends: a run takes a bounded number of owed steps, and as long as the server has not
      closed some owed step is possible.  From the moment the transports are being closed, every
      connection has been told to go. */
  lemma {:induction false} ShutdownEnds(y: System, es: seq<Event>)
    requires Inv(y) && y.server.shut.closing && IsRun(y, es)
    ensures OwedSteps(es) <= Distance(y.server)
    ensures var y' := Run(y, es);
      && y'.server.shut.closing
      && (y'.server.shut.closed || exists e :: Owing(e) && Enabled(y', e))
      && (Leaving(y'.server.shut) ==> forall id :: id in y'.server.reg.conns ==> !y'.server.reg.conns[id].Open())
    decreases |es|
  {
    if es == [] {
      if !y.server.shut.closed { SomethingOwed(y); }
    } else {
      Closer(y, es[0]);
      ClosingStays(y, es[0]);
      StepKeepsInv(y, es[0]);
      ShutdownEnds(Step(y, es[0]), es[1..]);
    }
  }

  lemma SomethingOwed(y: System)
    requires Inv(y) && y.server.shut.closing && !y.server.shut.closed
    ensures exists e :: Owing(e) && Enabled(y, e)
  {
    var h := y.server.shut;
    if !h.ready { assert Enabled(y, EvStarted); }
    else if h.stage == Authz { assert Enabled(y, EvAuthzClosed(false, {})); }
    else if h.stage == Transports { assert Enabled(y, EvTransportsClosed(false)); }
    else if h.stage == Finished {
      var id :| id in y.server.reg.connids;
      assert Enabled(y, EvLost(id));
    }
    else { assert Enabled(y, EvContinue(None, {})); }
  }
}
