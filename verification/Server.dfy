/** lib/server.js: the server object, whose callbacks update its indexes and flags in place.  Every method
    is proved to take the step that `Lifecycle` gives it. */
module CentroServerModule {
  import opened Wrappers
  import opened Lifecycle
  import opened LifecycleSteps

  class CentroServer {
    var connections: Index
    var connids: set<ConnId>
    // The variables of each call of transport_connected.
    var conns: map<ConnId, Conn>

    var ready: bool
    var closing: bool
    var closed: bool
    var closeCb: Option<Callback>

    // The variables of _close and the listeners it and close register.
    var stage: Stage
    var cb: Option<Callback>
    var transportsClosed: bool
    var emptyListener: bool
    var closeListeners: seq<Callback>
    var closeEvents: nat
    var calls: seq<Callback>
    ghost var issued: seq<Callback>

    ghost function Shut(): Shutdown reads this {
      Shutdown(ready, closing, closed, closeCb, stage, cb, transportsClosed, emptyListener,
               closeListeners, closeEvents, calls, issued)
    }

    ghost function State(): Server reads this { Lifecycle.Server(Registry(connections, connids, conns), Shut()) }

    ghost predicate Valid() reads this { Indexed(State().reg) }

    constructor ()
      ensures Valid() && State() == NEW_SERVER
    {
      connections, connids, conns := map[], {}, map[];
      ready, closing, closed, closeCb := false, false, false, None;
      stage, cb, transportsClosed, emptyListener := Idle, None, false, false;
      closeListeners, closeEvents, calls, issued := [], 0, [], [];
    }

    method TransportConnected(id: ConnId, tokens: seq<Token>, lost: bool)
      requires Valid() && id !in conns && tokens != []
      modifies this
      ensures Valid() && State() == Proceed(AtOnce(Connect(old(State()), id, tokens), id, lost), id)
    {
      ConnectIndexed(State(), id, tokens);
      if closing { return; }
      connids := connids + {id};
      conns := conns[id := Conn(false, false, {}, tokens, Next(0))];
      if lost { ConnClosed(id); }
      ProcessHandshake(id);
    }

    method ConnClosed(id: ConnId)
      requires Valid() && id in conns && conns[id].Live()
      modifies this
      ensures Valid() && State() == CloseAll(old(State()), {id})
    {
      hide Indexed, Minus, Without, Closed, OnEmpty;
      ghost var s := State();
      CloseAllIndexed(s, {id});
      MinusIsWithout(s.reg, id);
      OwnEntries(s.reg, id);
      var hsConns := conns[id].hsConns;
      conns := conns[id := conns[id].(closed := true)];
      RemoveRecords(hsConns);
      conns := conns[id := conns[id].(hsConns := {})];
      connids := connids - {id};
      ClosedOne(s.reg.conns, id);
      assert State().reg == CloseAll(s, {id}).reg;
      if connids == {} { EmitEmpty(); }
    }

    method RemoveRecords(hsConns: set<Rec>)
      requires forall r :: r in hsConns ==> r.uri in connections && r in connections[r.uri]
      requires forall u :: u in connections ==> connections[u] != {} && forall r :: r in connections[u] ==> r.uri == u
      modifies this`connections
      ensures connections == Minus(old(connections), hsConns)
    {
      ghost var index := connections;
      var todo := hsConns;
      MinusNone(index);
      assert hsConns - todo == {};
      while todo != {}
        invariant todo <= hsConns
        invariant connections == Minus(index, hsConns - todo)
      {
        var conn :| conn in todo;
        assert conn in index[conn.uri] - (hsConns - todo);
        MinusOne(index, hsConns - todo, conn);
        VisitedOne(hsConns, todo, conn);
        // 'unknown uri on closed connection' is never warned about.
        if conn.uri !in connections {
          assert false;
        } else {
          var left := connections[conn.uri] - {conn};
          if left == {} {
            connections := connections - {conn.uri};
          } else {
            connections := connections[conn.uri := left];
          }
        }
        todo := todo - {conn};
      }
      assert hsConns - {} == hsConns;
    }

    // emit('empty'), listened to with `once`
    method EmitEmpty()
      requires connids == {}
      modifies this`emptyListener, this`closed, this`stage, this`closeEvents, this`calls, this`closeListeners, this`cb
      ensures Shut() == OnEmpty(old(Shut()), true) && !emptyListener
    {
      if emptyListener {
        emptyListener := false;
        DoCheck();
      }
    }

    method DoCheck()
      modifies this`closed, this`stage, this`closeEvents, this`calls, this`closeListeners, this`cb
      ensures Shut() == Check(old(Shut()), connids == {})
    {
      if transportsClosed && connids == {} {
        closed := true;
        stage := Finished;
        closeEvents := closeEvents + 1;
        calls := calls + closeListeners;
        closeListeners := [];
        if cb.Some? { calls := calls + [cb.value]; }
        cb := None;
      }
    }

    method Dstroy(id: ConnId, sync: set<ConnId>)
      requires Valid() && id in conns
      modifies this
      ensures Valid() && State() == DestroyAll(old(State()), {id}, sync)
    {
      ghost var s := State();
      DestroyAllIndexed(s, {id}, sync);
      DestroyOne(s, id, sync);
      if !conns[id].destroyed && !conns[id].closed {
        if id in sync { ConnClosed(id); }
        ToldOne(conns, id);
        conns := conns[id := conns[id].(destroyed := true)];
      }
    }

    method ProcessHandshake(id: ConnId)
      requires Valid() && id in conns && conns[id].phase.Next?
      modifies this
      ensures Valid() && State() == Process(old(State()), id)
    {
      ProcessIndexed(State(), id);
      var c := conns[id];
      if c.closed {
        conns := conns[id := c.(phase := Failed)];
        return;
      }
      var k := c.phase.k;
      var conn := Rec(id, k, c.tokens[k].uri, c.tokens[k].rev);
      conns := conns[id := c.(hsConns := c.hsConns + {conn}, phase := Asked(k))];
      if conn.uri !in connections { connections := connections[conn.uri := {}]; }
      connections := connections[conn.uri := connections[conn.uri] + {conn}];
      assert connections == AddRecord(old(connections), conn);
    }

    method GotPubKey(id: ConnId, sync: set<ConnId>)
      requires Valid() && id in conns && conns[id].phase.Answered?
      modifies this
      ensures Valid() && State() == Proceed(Answer(old(State()), id, sync), id)
    {
      ghost var s := State();
      AnswerIndexed(s, id, sync);
      var c := conns[id];
      var k := c.phase.k;
      if c.phase.found != Some(c.tokens[k].rev) {
        Dstroy(id, sync);
        SetPhaseTo(id, Failed);
      } else {
        SetPhaseTo(id, if k + 1 == |c.tokens| then Done else Next(k + 1));
        if k + 1 < |c.tokens| { ProcessHandshake(id); }
      }
    }

    method SetPhaseTo(id: ConnId, phase: Phase)
      requires id in conns
      modifies this`conns
      ensures State() == SetPhase(old(State()), id, phase)
    {
      conns := conns[id := conns[id].(phase := phase)];
    }

    // One entry of the set that `Change` goes over; an entry removed meanwhile is passed over.
    method Visit(conn: Rec, rev: Option<Rev>, ghost s: Server, ghost told: set<ConnId>, sync: set<ConnId>)
      requires Valid() && Indexed(s.reg) && State() == DestroyAll(s, told, sync)
      requires conn.uri in s.reg.connections && conn in s.reg.connections[conn.uri]
      modifies this
      ensures Valid() && State() == DestroyAll(s, told + StaleIn({conn}, rev), sync)
    {
      StaleOne(conn, rev);
      if Some(conn.rev) != rev {
        DestroyMore(s, told, conn.conn, sync);
        EntryAfter(s, conn, told, sync);
        if conn in RecordsFor(connections, conn.uri) {
          Dstroy(conn.conn, sync);
        } else {
          DestroyOne(State(), conn.conn, sync);
        }
      } else {
        assert told + {} == told;
      }
    }

    // The keystore's 'change' event.
    method Change(uri: Uri, rev: Option<Rev>, sync: set<ConnId>)
      requires Valid()
      modifies this
      ensures Valid() && State() == Lifecycle.Change(old(State()), uri, rev, sync)
      ensures conns.Keys == old(conns).Keys
      ensures forall id :: id in conns ==>
        var c := old(conns)[id];
        && (conns[id].destroyed <==> c.destroyed || (c.Open() && HasOther(c, uri, rev)))
        && (conns[id].closed <==> c.closed || (c.Open() && HasOther(c, uri, rev) && id in sync))
    {
      ghost var s := State();
      ChangeTells(s, uri, rev, sync);
      hide HasOther, Stale, DestroyAll;
      StaleInSet(connections, uri, rev);
      if uri !in connections {
        DestroyNone(s, sync);
        return;
      }
      UriOfRecords(s.reg, uri);
      VisitAll(connections[uri], rev, sync);
    }

    // A record may leave the set while the loop goes over it.
    method VisitAll(all: set<Rec>, rev: Option<Rev>, sync: set<ConnId>)
      requires Valid() && forall r :: r in all ==> r.uri in connections && r in connections[r.uri]
      modifies this
      ensures Valid() && State() == DestroyAll(old(State()), StaleIn(all, rev), sync)
    {
      ghost var s := State();
      ghost var told: set<ConnId> := {};
      var todo := all;
      DestroyNone(s, sync);
      assert all - todo == {};
      while todo != {}
        invariant todo <= all && told == StaleIn(all - todo, rev)
        invariant Valid() && State() == DestroyAll(s, told, sync)
      {
        var conn :| conn in todo;
        Visit(conn, rev, s, told, sync);
        StaleMore(all - todo, conn, rev);
        VisitedOne(all, todo, conn);
        todo := todo - {conn};
        told := told + StaleIn({conn}, rev);
      }
      assert all - {} == all;
    }

    method Close(callback: Callback)
      modifies this`closing, this`stage, this`cb, this`closeCb, this`closeListeners, this`calls, this`issued
      ensures Shut() == Lifecycle.Close(old(Shut()), callback)
      ensures closing && calls == old(calls) + if old(closing && closed) then [callback] else []
      ensures old(closing && !closed) ==> closeListeners == old(closeListeners) + [callback]
      ensures !old(closing) ==>
        if ready then stage == Authz && cb == Some(callback) else stage == old(stage) && closeCb == Some(callback)
    {
      issued := issued + [callback];
      if closing {
        if closed { calls := calls + [callback]; } else { closeListeners := closeListeners + [callback]; }
        return;
      }
      closing := true;
      if ready { stage, cb := Authz, Some(callback); } else { closeCb := Some(callback); }
    }

    method TransportsStarted()
      modifies this`ready, this`stage, this`cb, this`closeCb
      ensures Shut() == Started(old(Shut()))
    {
      ready := true;
      if closeCb.Some? {
        stage, cb := Authz, closeCb;
        closeCb := None;
      }
    }

    // cont: tell every connection.  Connections may leave the map while the loop goes over it.
    method Cont(callback: Option<Callback>, sync: set<ConnId>)
      requires Valid()
      modifies this
      ensures Valid() && State() == Lifecycle.Cont(old(State()), callback, sync)
    {
      stage, cb, emptyListener := Transports, callback, true;
      ghost var s := State();
      var visited: set<ConnId> := {};
      DestroyNone(s, sync);
      while connids - visited != {}
        invariant Valid() && visited <= s.reg.connids && connids <= s.reg.connids
        invariant State() == DestroyAll(s, visited, sync)
        decreases s.reg.connids - visited
      {
        var id :| id in connids - visited;
        DestroyMore(s, visited, id, sync);
        Dstroy(id, sync);
        visited := visited + {id};
      }
      AllTold(s, visited, sync);
    }

    method CloseTransports(err: bool, sync: set<ConnId>)
      requires Valid()
      modifies this
      ensures Valid() && State() == Lifecycle.AuthzClosed(old(State()), err, sync)
      ensures err ==> State().reg == old(State().reg) && stage == AuthzFailed && calls == old(calls + Pending(cb))
      ensures !err ==> stage != AuthzFailed && forall id :: id in conns ==> !conns[id].Open()
    {
      if err { CallBack(AuthzFailed); } else { Cont(cb, sync); }
    }

    // The callback gets the error and the continuation.
    method CallBack(next: Stage)
      modifies this`stage, this`cb, this`calls
      ensures Shut() == Fail(old(Shut()), next)
    {
      stage := next;
      if cb.Some? { calls := calls + [cb.value]; }
      cb := None;
    }

    method Cont2(callback: Option<Callback>)
      modifies this`transportsClosed, this`closed, this`stage, this`closeEvents, this`calls
      modifies this`closeListeners, this`cb
      ensures State() == Lifecycle.Cont2(old(State()), callback)
    {
      cb, transportsClosed, stage := callback, true, Finished;
      DoCheck();
    }

    method TransportsDone(err: bool)
      requires Valid()
      modifies this
      ensures Valid() && State() == Lifecycle.TransportsClosed(old(State()), err)
      ensures transportsClosed == (old(transportsClosed) || !err)
      ensures err ==> closed == old(closed) && closeEvents == old(closeEvents) && calls == old(calls + Pending(cb))
      ensures !err && old(connids == {}) ==> closed && closeEvents == old(closeEvents) + 1
    {
      if err { CallBack(TransportsFailed); } else { Cont2(cb); }
    }

    method Resume(next: Option<Callback>, sync: set<ConnId>)
      requires Valid() && stage in {AuthzFailed, TransportsFailed}
      modifies this
      ensures Valid() && State() == Continue(old(State()), next, sync)
    {
      issued := issued + Pending(next);
      if stage == AuthzFailed { Cont(next, sync); } else { Cont2(next); }
    }
  }

  // ---- The loops of the methods, as functions of what they have visited ----

  function Minus(index: Index, recs: set<Rec>): Index {
    map u | u in index && index[u] - recs != {} :: index[u] - recs
  }

  lemma MinusOne(index: Index, recs: set<Rec>, r: Rec)
    requires r.uri in index && r in index[r.uri] - recs
    requires forall u :: u in index && u != r.uri ==> r !in index[u]
    ensures var m := Minus(index, recs);
            r.uri in m && Minus(index, recs + {r}) ==
            if m[r.uri] - {r} == {} then m - {r.uri} else m[r.uri := m[r.uri] - {r}]
  {
    var m, m' := Minus(index, recs), Minus(index, recs + {r});
    forall u | u in index ensures index[u] - (recs + {r}) == index[u] - recs - {r} {}
    forall u | u in index && u != r.uri ensures index[u] - (recs + {r}) == index[u] - recs {}
  }

  lemma MinusNone(index: Index)
    requires forall u :: u in index ==> index[u] != {}
    ensures Minus(index, {}) == index
  {
    forall u | u in index ensures index[u] - {} == index[u] {}
  }

  lemma MinusIsWithout(reg: Registry, id: ConnId)
    requires Indexed(reg) && id in reg.conns
    ensures Minus(reg.connections, reg.conns[id].hsConns) == Without(reg.connections, {id})
  {
    forall u | u in reg.connections
      ensures reg.connections[u] - reg.conns[id].hsConns == Kept(reg.connections[u], {id})
    {
      OwnRecords(reg, id, u);
    }
    SameKept(reg.connections, reg.conns[id].hsConns, {id});
  }

  lemma OwnEntries(reg: Registry, id: ConnId)
    requires Indexed(reg) && id in reg.conns
    ensures forall r :: r in reg.conns[id].hsConns ==> r.uri in reg.connections && r in reg.connections[r.uri]
    ensures forall u :: u in reg.connections ==>
      reg.connections[u] != {} && forall r :: r in reg.connections[u] ==> r.uri == u
  {
  }

  lemma SameKept(index: Index, recs: set<Rec>, gone: set<ConnId>)
    requires forall u :: u in index ==> index[u] - recs == Kept(index[u], gone)
    ensures Minus(index, recs) == Without(index, gone)
  {
  }

  lemma OwnRecords(reg: Registry, id: ConnId, u: Uri)
    requires Indexed(reg) && id in reg.conns && u in reg.connections
    ensures reg.connections[u] - reg.conns[id].hsConns == Kept(reg.connections[u], {id})
  {
    assert ConnOk(id, reg.conns[id]);
    forall r | r in reg.connections[u] ensures r in reg.conns[id].hsConns <==> r.conn == id {}
  }

  function RecordsFor(index: Index, uri: Uri): set<Rec> { if uri in index then index[uri] else {} }

  function StaleIn(recs: set<Rec>, rev: Option<Rev>): set<ConnId> { set r | r in recs && Some(r.rev) != rev :: r.conn }

  // A record of the index, after some connections were told, is still there or its connection has gone.
  lemma EntryAfter(s: Server, r: Rec, ids: set<ConnId>, sync: set<ConnId>)
    requires Indexed(s.reg) && r.uri in s.reg.connections && r in s.reg.connections[r.uri]
    ensures var reg' := DestroyAll(s, ids, sync).reg;
      r.conn in reg'.conns && (r !in RecordsFor(reg'.connections, r.uri) ==> !reg'.conns[r.conn].Open())
  {
    var gone := Tellable(s.reg, ids) * sync;
    if r.conn !in gone { assert r in Kept(s.reg.connections[r.uri], gone); }
  }

  lemma UriOfRecords(reg: Registry, uri: Uri)
    requires Indexed(reg)
    ensures forall r :: r in RecordsFor(reg.connections, uri) ==>
      r.uri == uri && uri in reg.connections && r in reg.connections[uri]
  {
  }

  lemma VisitedOne(all: set<Rec>, todo: set<Rec>, r: Rec)
    requires r in todo && todo <= all
    ensures all - (todo - {r}) == (all - todo) + {r}
  {
  }

  lemma StaleOne(r: Rec, rev: Option<Rev>)
    ensures StaleIn({r}, rev) == if Some(r.rev) != rev then {r.conn} else {}
  {
  }

  lemma StaleMore(visited: set<Rec>, r: Rec, rev: Option<Rev>)
    ensures StaleIn(visited + {r}, rev) == StaleIn(visited, rev) + StaleIn({r}, rev)
  {
  }

  lemma StaleInSet(index: Index, uri: Uri, rev: Option<Rev>)
    ensures Stale(index, uri, rev) == if uri in index then StaleIn(index[uri], rev) else {}
  {
  }

  lemma ToldOne(conns: map<ConnId, Conn>, id: ConnId)
    requires id in conns
    ensures Told(conns, {id}) == conns[id := conns[id].(destroyed := true)]
  {
  }

  lemma ClosedOne(conns: map<ConnId, Conn>, id: ConnId)
    requires id in conns
    ensures Closed(conns, {id}) == conns[id := conns[id].(closed := true, hsConns := {})]
  {
  }

  // ---- Destroying and closing connections one after the other ----

  lemma WithoutTwice(index: Index, a: set<ConnId>, b: set<ConnId>)
    ensures Without(Without(index, a), b) == Without(index, a + b)
  {
    forall u | u in index ensures Kept(Kept(index[u], a), b) == Kept(index[u], a + b) {}
  }

  lemma CloseMore(s: Server, a: set<ConnId>, b: set<ConnId>)
    requires a !! b && b <= s.reg.connids
    ensures CloseAll(CloseAll(s, a), b) == CloseAll(s, a + b)
  {
    WithoutTwice(s.reg.connections, a, b);
    assert Closed(Closed(s.reg.conns, a), b) == Closed(s.reg.conns, a + b);
    assert s.reg.connids - a - b == s.reg.connids - (a + b);
    if b == {} {
      assert a + b == a;
      assert s.reg.connids - a - b == s.reg.connids - a;
    } else {
      assert s.reg.connids - a != {} by { var x :| x in b; assert x in s.reg.connids - a; }
    }
  }

  lemma TellAfterClose(s: Server, gone: set<ConnId>, told: set<ConnId>)
    ensures Tell(CloseAll(s, gone), told) == CloseAll(Tell(s, told), gone)
  {
    assert Told(Closed(s.reg.conns, gone), told) == Closed(Told(s.reg.conns, told), gone);
  }

  lemma TellTwice(s: Server, a: set<ConnId>, b: set<ConnId>)
    ensures Tell(Tell(s, a), b) == Tell(s, a + b)
  {
    assert Told(Told(s.reg.conns, a), b) == Told(s.reg.conns, a + b);
  }

  lemma DestroyOne(s: Server, id: ConnId, sync: set<ConnId>)
    requires Indexed(s.reg) && id in s.reg.conns
    ensures DestroyAll(s, {id}, sync) ==
      if !s.reg.conns[id].Open() then s else Tell(if id in sync then CloseAll(s, {id}) else s, {id})
  {
    if !s.reg.conns[id].Open() {
      assert Tellable(s.reg, {id}) == Tellable(s.reg, {}) == {};
      DestroyNone(s, sync);
    } else {
      assert Tellable(s.reg, {id}) == {id};
      if id in sync {
        assert {id} * sync == {id};
        TellAfterClose(s, {id}, {id});
      } else {
        assert {id} * sync == {};
        CloseNone(Tell(s, {id}));
      }
    }
  }

  lemma CloseNone(s: Server)
    requires forall u :: u in s.reg.connections ==> s.reg.connections[u] != {}
    ensures CloseAll(s, {}) == s
  {
    forall u | u in s.reg.connections ensures Kept(s.reg.connections[u], {}) == s.reg.connections[u] {}
    assert Without(s.reg.connections, {}) == s.reg.connections;
    assert Closed(s.reg.conns, {}) == s.reg.conns;
  }

  lemma DestroyNone(s: Server, sync: set<ConnId>)
    requires Indexed(s.reg)
    ensures DestroyAll(s, {}, sync) == s
  {
    assert Tellable(s.reg, {}) == {};
    assert Told(s.reg.conns, {}) == s.reg.conns;
    assert {} * sync == {};
    CloseNone(s);
  }

  lemma TellableAfter(s: Server, ids: set<ConnId>, id: ConnId, sync: set<ConnId>)
    ensures Tellable(DestroyAll(s, ids, sync).reg, {id}) == Tellable(s.reg, {id}) - Tellable(s.reg, ids)
  {
  }

  lemma DestroyMore(s: Server, ids: set<ConnId>, id: ConnId, sync: set<ConnId>)
    requires Indexed(s.reg)
    ensures DestroyAll(DestroyAll(s, ids, sync), {id}, sync) == DestroyAll(s, ids + {id}, sync)
  {
    var t1, t2 := Tellable(s.reg, ids), Tellable(s.reg, {id}) - Tellable(s.reg, ids);
    var x := DestroyAll(s, ids, sync);
    TellableAfter(s, ids, id, sync);
    assert Tellable(s.reg, ids + {id}) == t1 + t2;
    TellAfterClose(Tell(s, t1), t1 * sync, t2);
    TellTwice(s, t1, t2);
    assert (t1 + t2) * sync == t1 * sync + t2 * sync;
    CloseMore(Tell(s, t1 + t2), t1 * sync, t2 * sync);
  }

  lemma AllTold(s: Server, visited: set<ConnId>, sync: set<ConnId>)
    requires visited <= s.reg.connids && DestroyAll(s, visited, sync).reg.connids <= visited
    ensures visited == s.reg.connids
  {
  }
}
