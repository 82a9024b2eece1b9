/** lib/server.js `schedule`, and the expiry timers of token records (section 4.1.4 of RFC 7519).
    A record keeps the handle of its timer so that closing the connection can clear it. */
module Expiry {
  import opened Wrappers

  type ConnId = nat
  type RecId = nat
  type Handle = nat

  // The longest delay setTimeout honours: 2^31 - 1 milliseconds.
  const MAX_TIMEOUT: nat := 0x7FFF_FFFF

  datatype Kind = Recheck | Expire
  datatype Timer = Timer(rec: RecId, kind: Kind, armed: nat, delay: nat)

  // `exp` is the claim, in seconds; `from` and `fires` say when the record was made and how often its
  // timer has fired.
  datatype Record = Record(conn: ConnId, exp: int, timeout: Option<Handle>, from: nat, fires: nat)

  // `closed` are the connections that have closed; `expiries` are the 'expired' events, with the time of each;
  // `early` says that some timer fired before its delay had passed.
  datatype Timing = Timing(now: nat, timers: map<Handle, Timer>, records: map<RecId, Record>, nextHandle: Handle,
                         closed: set<ConnId>, expiries: seq<(RecId, nat)>, early: bool)

  const NO_TIMERS := Timing(0, map[], map[], 0, {}, [], false)

  function Min(a: int, b: int): int { if a < b then a else b }

  function Due(r: Record): int { r.exp * 1000 }

  // schedule(exp * 1000, make_update(record), make_destroy(record))
  function Schedule(s: Timing, id: RecId): Timing
    requires id in s.records
  {
    var r := s.records[id];
    var timer := if Due(r) > s.now then Timer(id, Recheck, s.now, Min(Due(r) - s.now, MAX_TIMEOUT))
                 else Timer(id, Expire, s.now, 0);
    s.(timers := s.timers[s.nextHandle := timer], nextHandle := s.nextHandle + 1,
       records := s.records[id := r.(timeout := Some(s.nextHandle))])
  }

  datatype Event =
    | Register(id: RecId, conn: ConnId, exp: int)
    | Tick(ms: nat)
    | Fire(handle: Handle)
    | Disconnect(conn: ConnId)

  // A connection that has closed takes no more handshakes, and closes once.
  predicate Enabled(s: Timing, e: Event) {
    match e
    case Register(id, conn, _) => id !in s.records && conn !in s.closed
    case Tick(_) => true
    case Fire(h) => h in s.timers && s.timers[h].rec in s.records
    case Disconnect(conn) => conn !in s.closed
  }

  function Fired(s: Timing, h: Handle): Timing
    requires h in s.timers && s.timers[h].rec in s.records
  {
    var timer := s.timers[h];
    var r := s.records[timer.rec];
    s.(timers := s.timers - {h}, records := s.records[timer.rec := r.(fires := r.fires + 1)],
       early := s.early || s.now < timer.armed + timer.delay)
  }

  function FireTimer(s: Timing, h: Handle): Timing
    requires h in s.timers && s.timers[h].rec in s.records
  {
    var timer := s.timers[h];
    var s' := Fired(s, h);
    if timer.kind == Recheck then Schedule(s', timer.rec)
    else
      s'.(records := s'.records[timer.rec := s'.records[timer.rec].(timeout := None)],
          expiries := s'.expiries + [(timer.rec, s.now)])
  }

  function Handles(records: map<RecId, Record>, ids: set<RecId>): set<Handle> {
    set id | id in ids && id in records && records[id].timeout.Some? :: records[id].timeout.value
  }

  // The timers of a connection's records.
  function Cleared(s: Timing, conn: ConnId): set<Handle> {
    Handles(s.records, set id | id in s.records && s.records[id].conn == conn)
  }

  function Step(s: Timing, e: Event): Timing
    requires Enabled(s, e)
  {
    match e
    case Register(id, conn, exp) =>
      Schedule(s.(records := s.records[id := Record(conn, exp, None, s.now, 0)]), id)
    case Tick(ms) => s.(now := s.now + ms)
    case Fire(h) => FireTimer(s, h)
    case Disconnect(conn) => s.(timers := s.timers - Cleared(s, conn), closed := s.closed + {conn})
  }

  // ---- Invariant ----

  // How many delays of at most MAX_TIMEOUT fit between now and the due time.
  function Rounds(due: int, now: nat): nat {
    if due <= now then 0 else (due - now + MAX_TIMEOUT - 1) / MAX_TIMEOUT
  }

  // How often the pending timer, and those it leads to, can still fire when no timer is early.
  function FiresLeft(s: Timing, r: Record): nat {
    if r.conn in s.closed || r.timeout.None? || r.timeout.value !in s.timers then 0
    else if s.timers[r.timeout.value].kind == Expire then 1
    else Rounds(Due(r), s.timers[r.timeout.value].armed) + 1
  }

  ghost predicate TimerOk(s: Timing, h: Handle, t: Timer) {
    && h < s.nextHandle && t.armed <= s.now && t.delay <= MAX_TIMEOUT
    && t.rec in s.records && s.records[t.rec].conn !in s.closed && s.records[t.rec].timeout == Some(h)
    && (t.kind == Expire ==> Due(s.records[t.rec]) <= t.armed && t.delay == 0)
    && (t.kind == Recheck ==> t.armed < Due(s.records[t.rec]))
    && (t.kind == Recheck ==> t.delay == Min(Due(s.records[t.rec]) - t.armed, MAX_TIMEOUT))
  }

  ghost predicate RecordOk(s: Timing, id: RecId, r: Record) {
    && (r.conn !in s.closed && r.timeout.Some? ==> r.timeout.value in s.timers && s.timers[r.timeout.value].rec == id)
    && (r.conn !in s.closed ==> (r.timeout.None? <==> HasExpired(s, id)))
    && (!s.early ==> r.fires + FiresLeft(s, r) <= Rounds(Due(r), r.from) + 1)
  }

  ghost predicate HasExpired(s: Timing, id: RecId) { exists i :: 0 <= i < |s.expiries| && s.expiries[i].0 == id }

  ghost predicate ExpiriesOk(s: Timing) {
    && (forall i :: 0 <= i < |s.expiries| ==>
          s.expiries[i].0 in s.records && Due(s.records[s.expiries[i].0]) <= s.expiries[i].1)
    && (forall i :: 0 <= i < |s.expiries| ==> forall h :: h in s.timers ==> s.timers[h].rec != s.expiries[i].0)
    && (forall i, j :: 0 <= i < j < |s.expiries| ==> s.expiries[i].0 != s.expiries[j].0)
  }

  ghost predicate Inv(s: Timing) {
    && (forall h :: h in s.timers ==> TimerOk(s, h, s.timers[h]))
    && (forall id :: id in s.records ==> RecordOk(s, id, s.records[id]))
    && ExpiriesOk(s)
  }

  lemma OneRoundLess(due: int, armed: nat, now: nat)
    requires armed < due && armed + Min(due - armed, MAX_TIMEOUT) <= now
    ensures Rounds(due, now) + 1 <= Rounds(due, armed)
  {
    if now < due {
      assert due - now + MAX_TIMEOUT - 1 + MAX_TIMEOUT <= due - armed + MAX_TIMEOUT - 1;
      assert (due - now + MAX_TIMEOUT - 1 + MAX_TIMEOUT) / MAX_TIMEOUT ==
        (due - now + MAX_TIMEOUT - 1) / MAX_TIMEOUT + 1;
    }
  }

  lemma TickKeepsInv(s: Timing, ms: nat)
    requires Inv(s)
    ensures Inv(Step(s, Tick(ms)))
  {
    var s' := Step(s, Tick(ms));
    forall id | id in s'.records ensures RecordOk(s', id, s'.records[id]) {
      assert RecordOk(s, id, s.records[id]);
      assert HasExpired(s', id) == HasExpired(s, id);
    }
    forall h | h in s'.timers ensures TimerOk(s', h, s'.timers[h]) { assert TimerOk(s, h, s.timers[h]); }
  }

  // Arming a timer for a live record that has none and has not expired.
  lemma ScheduleKeepsInv(s: Timing, id: RecId)
    requires id in s.records && s.records[id].conn !in s.closed && !HasExpired(s, id)
    requires forall h :: h in s.timers ==> TimerOk(s, h, s.timers[h]) && s.timers[h].rec != id
    requires forall i :: i in s.records && i != id ==> RecordOk(s, i, s.records[i])
    requires var r := s.records[id]; !s.early ==> r.fires + Rounds(Due(r), s.now) <= Rounds(Due(r), r.from)
    requires ExpiriesOk(s)
    ensures Inv(Schedule(s, id))
  {
    var s' := Schedule(s, id);
    forall h | h in s'.timers ensures TimerOk(s', h, s'.timers[h]) {
      if h != s.nextHandle { assert TimerOk(s, h, s.timers[h]); }
    }
    forall i | i in s'.records ensures RecordOk(s', i, s'.records[i]) {
      assert HasExpired(s', i) == HasExpired(s, i);
      if i != id {
        assert RecordOk(s, i, s.records[i]);
        if s.records[i].conn !in s.closed && s.records[i].timeout.Some? {
          assert TimerOk(s, s.records[i].timeout.value, s.timers[s.records[i].timeout.value]);
        }
      }
    }
    forall i, h | 0 <= i < |s'.expiries| && h in s'.timers ensures s'.timers[h].rec != s'.expiries[i].0 {
      assert s'.expiries[i].0 == id ==> HasExpired(s, id);
    }
  }

  lemma RegisterKeepsInv(s: Timing, id: RecId, conn: ConnId, exp: int)
    requires Inv(s) && id !in s.records && conn !in s.closed
    ensures Inv(Step(s, Register(id, conn, exp)))
  {
    var s1 := s.(records := s.records[id := Record(conn, exp, None, s.now, 0)]);
    forall h | h in s1.timers ensures TimerOk(s1, h, s1.timers[h]) && s1.timers[h].rec != id {
      assert TimerOk(s, h, s.timers[h]);
    }
    forall i | i in s1.records && i != id ensures RecordOk(s1, i, s1.records[i]) {
      assert RecordOk(s, i, s.records[i]);
      assert HasExpired(s1, i) == HasExpired(s, i);
    }
    ScheduleKeepsInv(s1, id);
  }

  // Taking a timer out leaves the others, and the other records, as they were.
  lemma FiredKeepsOthers(s: Timing, h: Handle)
    requires Inv(s) && Enabled(s, Fire(h))
    ensures var s1, id := Fired(s, h), s.timers[h].rec;
      && (forall k :: k in s1.timers ==> TimerOk(s1, k, s1.timers[k]) && s1.timers[k].rec != id)
      && (forall i :: i in s1.records && i != id ==> RecordOk(s1, i, s1.records[i]))
      && ExpiriesOk(s1)
  {
    var s1, id := Fired(s, h), s.timers[h].rec;
    assert TimerOk(s, h, s.timers[h]);
    forall k | k in s1.timers ensures TimerOk(s1, k, s1.timers[k]) && s1.timers[k].rec != id {
      assert TimerOk(s, k, s.timers[k]);
    }
    forall i | i in s1.records && i != id ensures RecordOk(s1, i, s1.records[i]) {
      assert RecordOk(s, i, s.records[i]);
      assert HasExpired(s1, i) == HasExpired(s, i);
    }
  }

  lemma RecheckKeepsInv(s: Timing, h: Handle)
    requires Inv(s) && Enabled(s, Fire(h)) && s.timers[h].kind == Recheck
    ensures Inv(Step(s, Fire(h)))
  {
    var timer := s.timers[h];
    var id := timer.rec;
    assert TimerOk(s, h, timer) && RecordOk(s, id, s.records[id]);
    var s1 := Fired(s, h);
    FiredKeepsOthers(s, h);
    if !s1.early { OneRoundLess(Due(s.records[id]), timer.armed, s.now); }
    assert HasExpired(s1, id) == HasExpired(s, id);
    ScheduleKeepsInv(s1, id);
  }

  lemma ExpireKeepsInv(s: Timing, h: Handle)
    requires Inv(s) && Enabled(s, Fire(h)) && s.timers[h].kind == Expire
    ensures Inv(Step(s, Fire(h)))
  {
    var timer := s.timers[h];
    var id := timer.rec;
    var s' := Step(s, Fire(h));
    assert TimerOk(s, h, timer) && RecordOk(s, id, s.records[id]);
    hide RecordOk;
    assert s'.expiries == s.expiries + [(id, s.now)];
    forall k | k in s'.timers ensures TimerOk(s', k, s'.timers[k]) && s'.timers[k].rec != id {
      assert TimerOk(s, k, s.timers[k]);
    }
    forall i | i in s'.records ensures RecordOk(s', i, s'.records[i]) {
      ExpireKeepsRecord(s, h, i);
    }
    forall i | 0 <= i < |s.expiries| ensures s.expiries[i].0 != id {}
  }

  lemma ExpireKeepsRecord(s: Timing, h: Handle, i: RecId)
    requires Inv(s) && Enabled(s, Fire(h)) && s.timers[h].kind == Expire && i in s.records
    ensures RecordOk(Step(s, Fire(h)), i, Step(s, Fire(h)).records[i])
  {
    var id, s' := s.timers[h].rec, Step(s, Fire(h));
    assert TimerOk(s, h, s.timers[h]) && RecordOk(s, id, s.records[id]) && RecordOk(s, i, s.records[i]);
    assert s'.expiries == s.expiries + [(id, s.now)];
    assert s'.expiries[|s.expiries|].0 == id;
    if i != id {
      assert HasExpired(s', i) == HasExpired(s, i) by {
        if k :| 0 <= k < |s.expiries| && s.expiries[k].0 == i { assert s'.expiries[k].0 == i; }
      }
      if s.records[i].conn !in s.closed && s.records[i].timeout.Some? { assert s.records[i].timeout.value != h; }
    }
  }

  lemma DisconnectKeepsInv(s: Timing, conn: ConnId)
    requires Inv(s) && conn !in s.closed
    ensures Inv(Step(s, Disconnect(conn)))
  {
    var s' := Step(s, Disconnect(conn));
    forall h | h in s'.timers ensures TimerOk(s', h, s'.timers[h]) {
      assert TimerOk(s, h, s.timers[h]);
    }
    forall id | id in s'.records ensures RecordOk(s', id, s'.records[id]) {
      assert RecordOk(s, id, s.records[id]);
      assert HasExpired(s', id) == HasExpired(s, id);
    }
  }

  lemma StepKeepsInv(s: Timing, e: Event)
    requires Inv(s) && Enabled(s, e)
    ensures Inv(Step(s, e))
  {
    match e
    case Register(id, conn, exp) => RegisterKeepsInv(s, id, conn, exp);
    case Tick(ms) => TickKeepsInv(s, ms);
    case Fire(h) => if s.timers[h].kind == Recheck { RecheckKeepsInv(s, h); } else { ExpireKeepsInv(s, h); }
    case Disconnect(conn) => DisconnectKeepsInv(s, conn);
  }

  lemma ClearedTimers(s: Timing, conn: ConnId)
    requires Inv(s) && conn !in s.closed
    ensures forall h :: h in s.timers ==> s.timers[h].rec in s.records
    ensures forall h :: h in s.timers ==> (h in Cleared(s, conn) <==> s.records[s.timers[h].rec].conn == conn)
  {
    forall h | h in s.timers
      ensures s.timers[h].rec in s.records && (h in Cleared(s, conn) <==> s.records[s.timers[h].rec].conn == conn)
    {
      assert TimerOk(s, h, s.timers[h]);
      if id :| id in s.records && s.records[id].conn == conn && s.records[id].timeout == Some(h) {
        assert RecordOk(s, id, s.records[id]);
      }
    }
  }

  lemma FiredToken(s: Timing, h: Handle)
    requires Inv(s) && Enabled(s, Fire(h)) && s.timers[h].kind == Expire
    ensures Due(s.records[s.timers[h].rec]) <= s.now && !HasExpired(s, s.timers[h].rec)
  {
    assert TimerOk(s, h, s.timers[h]) && RecordOk(s, s.timers[h].rec, s.records[s.timers[h].rec]);
  }

  lemma OneHandleMore(records: map<RecId, Record>, ids: set<RecId>, id: RecId)
    requires id in records
    ensures Handles(records, ids + {id}) ==
      Handles(records, ids) + if records[id].timeout.Some? then {records[id].timeout.value} else {}
  {
  }

  class TokenTimers {
    var now: nat
    var timers: map<Handle, Timer>
    var records: map<RecId, Record>
    var nextHandle: Handle
    var closed: set<ConnId>
    var expiries: seq<(RecId, nat)>
    ghost var early: bool

    ghost function State(): Timing reads this { Timing(now, timers, records, nextHandle, closed, expiries, early) }

    ghost predicate Valid() reads this { Inv(State()) }

    constructor ()
      ensures Valid() && State() == NO_TIMERS
    {
      now, timers, records, nextHandle, closed, expiries, early := 0, map[], map[], 0, {}, [], false;
    }

    method SetTimeout(id: RecId, kind: Kind, delay: nat) returns (h: Handle)
      modifies this`timers, this`nextHandle
      ensures h == old(nextHandle) && nextHandle == h + 1 && timers == old(timers)[h := Timer(id, kind, now, delay)]
    {
      h := nextHandle;
      nextHandle := nextHandle + 1;
      timers := timers[h := Timer(id, kind, now, delay)];
    }

    method DoSchedule(id: RecId)
      requires id in records
      modifies this`timers, this`nextHandle, this`records
      ensures State() == Schedule(old(State()), id)
    {
      var t := records[id].exp * 1000;
      var h;
      if t > now {
        h := SetTimeout(id, Recheck, Min(t - now, MAX_TIMEOUT));
      } else {
        h := SetTimeout(id, Expire, 0);
      }
      records := records[id := records[id].(timeout := Some(h))];
    }

    // The new record has its timer: for the time left, at most the longest delay, or at once.
    method DoRegister(id: RecId, conn: ConnId, exp: int)
      requires Valid() && id !in records && conn !in closed
      modifies this
      ensures Valid() && State() == Step(old(State()), Register(id, conn, exp))
      ensures id in records && records[id].conn == conn && records[id].exp == exp
      ensures records[id].timeout.Some? && records[id].timeout.value in timers
      ensures timers[records[id].timeout.value].delay ==
        if exp * 1000 > now then Min(exp * 1000 - now, MAX_TIMEOUT) else 0
    {
      RegisterKeepsInv(State(), id, conn, exp);
      records := records[id := Record(conn, exp, None, now, 0)];
      DoSchedule(id);
    }

    // A timer expires its token, whose time has come and which has not expired before, or arms the next one.
    method DoFire(h: Handle) returns (expired: bool)
      requires Valid() && h in timers && timers[h].rec in records
      modifies this
      ensures Valid() && State() == Step(old(State()), Fire(h))
      ensures expiries == if expired then old(expiries) + [(old(timers)[h].rec, now)] else old(expiries)
      ensures expired ==> old(records)[old(timers)[h].rec].exp * 1000 <= now
      ensures expired ==> !HasExpired(old(State()), old(timers)[h].rec)
      ensures expired <==> old(timers)[h].kind == Expire
    {
      hide Inv, HasExpired;
      StepKeepsInv(State(), Fire(h));
      var timer := timers[h];
      if timer.kind == Expire { FiredToken(State(), h); }
      early := early || now < timer.armed + timer.delay;
      timers := timers - {h};
      records := records[timer.rec := records[timer.rec].(fires := records[timer.rec].fires + 1)];
      if timer.kind == Recheck {
        DoSchedule(timer.rec);
      } else {
        records := records[timer.rec := records[timer.rec].(timeout := None)];
        expiries := expiries + [(timer.rec, now)];
      }
      expired := timer.kind == Expire;
    }

    // The part of conn_closed that goes over hs_conns: no timer of the connection is left, and every other is.
    method DoDisconnect(conn: ConnId)
      requires Valid() && conn !in closed
      modifies this
      ensures Valid() && State() == Step(old(State()), Disconnect(conn))
      ensures forall h :: h in timers ==> timers[h].rec in records && records[timers[h].rec].conn != conn
      ensures forall h :: h in old(timers) && old(records)[old(timers)[h].rec].conn != conn ==> h in timers
    {
      hide Inv;
      ghost var s := State();
      DisconnectKeepsInv(s, conn);
      ClearedTimers(s, conn);
      ClearEach(set id | id in records && records[id].conn == conn);
      closed := closed + {conn};
    }

    method ClearEach(hsConns: set<RecId>)
      requires hsConns <= records.Keys
      modifies this`timers
      ensures timers == old(timers) - Handles(records, hsConns)
    {
      var todo := hsConns;
      assert timers - {} == timers;
      while todo != {}
        invariant todo <= hsConns
        invariant timers == old(timers) - Handles(records, hsConns - todo)
      {
        var id :| id in todo;
        OneHandleMore(records, hsConns - todo, id);
        if records[id].timeout.Some? { timers := timers - {records[id].timeout.value}; }
        assert hsConns - (todo - {id}) == hsConns - todo + {id};
        todo := todo - {id};
      }
      assert hsConns - {} == hsConns;
    }
  }

  // ---- What holds in every run ----

  ghost predicate IsRun(s: Timing, es: seq<Event>)
    decreases |es|
  {
    es == [] || (Enabled(s, es[0]) && IsRun(Step(s, es[0]), es[1..]))
  }

  ghost function Run(s: Timing, es: seq<Event>): Timing
    requires IsRun(s, es)
    decreases |es|
  {
    if es == [] then s else Run(Step(s, es[0]), es[1..])
  }

  lemma {:induction false} RunKeepsInv(s: Timing, es: seq<Event>)
    requires Inv(s) && IsRun(s, es)
    ensures Inv(Run(s, es))
    decreases |es|
  {
    if es != [] {
      StepKeepsInv(s, es[0]);
      RunKeepsInv(Step(s, es[0]), es[1..]);
    }
  }

  /** In every run: no token expires before its time, none expires twice, no delay is longer than setTimeout honours, no
      connection that has closed has a pending timer, the only pending timer of a record is the one stored on it, and a
      record of an open connection has one until it expires. */
  lemma TokensExpireOnTime(es: seq<Event>)
    requires IsRun(NO_TIMERS, es)
    ensures var s := Run(NO_TIMERS, es);
      && (forall i :: 0 <= i < |s.expiries| ==>
            s.expiries[i].0 in s.records && s.records[s.expiries[i].0].exp * 1000 <= s.expiries[i].1)
      && (forall i, j :: 0 <= i < j < |s.expiries| ==> s.expiries[i].0 != s.expiries[j].0)
      && (forall h :: h in s.timers ==> s.timers[h].delay <= MAX_TIMEOUT)
      && (forall h :: h in s.timers ==> s.timers[h].rec in s.records)
      && (forall h :: h in s.timers ==>
            s.records[s.timers[h].rec].conn !in s.closed && s.records[s.timers[h].rec].timeout == Some(h))
      && (forall id :: id in s.records && s.records[id].conn !in s.closed ==>
            HasExpired(s, id) || (s.records[id].timeout.Some? && s.records[id].timeout.value in s.timers))
  {
    RunKeepsInv(NO_TIMERS, es);
    var s := Run(NO_TIMERS, es);
    forall h | h in s.timers ensures TimerOk(s, h, s.timers[h]) {}
    forall id | id in s.records ensures RecordOk(s, id, s.records[id]) {}
  }

  /** Nor does a token outlive its time: while no timer is overdue, a token of an open connection whose time has passed
      has expired, or is about to, by a timer armed in this very millisecond without a delay. */
  lemma NoneOutlives(es: seq<Event>, id: RecId)
    requires IsRun(NO_TIMERS, es) && var s := Run(NO_TIMERS, es);
      && (forall h :: h in s.timers ==> s.now <= s.timers[h].armed + s.timers[h].delay)
      && id in s.records && s.records[id].conn !in s.closed && s.records[id].exp * 1000 < s.now
    ensures var s, r := Run(NO_TIMERS, es), Run(NO_TIMERS, es).records[id];
      || HasExpired(s, id)
      || (r.timeout.Some? && r.timeout.value in s.timers
            && s.timers[r.timeout.value] == Timer(id, Expire, s.now, 0))
  {
    RunKeepsInv(NO_TIMERS, es);
    var s := Run(NO_TIMERS, es);
    assert RecordOk(s, id, s.records[id]);
    if !HasExpired(s, id) {
      var h := s.records[id].timeout.value;
      assert TimerOk(s, h, s.timers[h]);
    }
  }

  /** When no timer is early, a token's timer fires at most once for every started stretch of MAX_TIMEOUT
      milliseconds to its expiry, and once more to expire it. */
  lemma BoundedRearming(es: seq<Event>, id: RecId)
    requires IsRun(NO_TIMERS, es) && id in Run(NO_TIMERS, es).records && !Run(NO_TIMERS, es).early
    ensures var r := Run(NO_TIMERS, es).records[id]; r.fires <= Rounds(r.exp * 1000, r.from) + 1
  {
    RunKeepsInv(NO_TIMERS, es);
    assert RecordOk(Run(NO_TIMERS, es), id, Run(NO_TIMERS, es).records[id]);
  }

  // A step keeps the connection of a record, and adds expiries of open connections only.
  lemma StepExpires(s: Timing, e: Event, conn: ConnId)
    requires Inv(s) && Enabled(s, e) && conn in s.closed
    ensures var s' := Step(s, e);
      && conn in s'.closed && s.expiries <= s'.expiries
      && (forall id :: id in s.records ==> id in s'.records && s'.records[id].conn == s.records[id].conn)
      && forall i :: |s.expiries| <= i < |s'.expiries| ==>
           s'.expiries[i].0 in s.records && s.records[s'.expiries[i].0].conn != conn
  {
    if e.Fire? { assert TimerOk(s, e.handle, s.timers[e.handle]); }
  }

  /** After a connection has closed none of its tokens expires, whatever follows. */
  lemma {:induction false} NothingExpiresAfterClose(s: Timing, es: seq<Event>, conn: ConnId)
    requires Inv(s) && IsRun(s, es) && conn in s.closed
    ensures var s' := Run(s, es);
      && s.expiries <= s'.expiries
      && (forall id :: id in s.records ==> id in s'.records && s'.records[id].conn == s.records[id].conn)
      && forall i :: |s.expiries| <= i < |s'.expiries| ==>
           s'.expiries[i].0 in s'.records && s'.records[s'.expiries[i].0].conn != conn
    decreases |es|
  {
    hide Step, Inv;
    if es != [] {
      StepKeepsInv(s, es[0]);
      StepExpires(s, es[0], conn);
      NothingExpiresAfterClose(Step(s, es[0]), es[1..], conn);
    }
  }
}
