/** lib/client.js: each handler keeps a map from client to topic to the wrapper subscribed in its place, beside each
    client's own map from topic to set of wrappers. */
module ClientSubs {
  import opened Wrappers

  import Sets

  type Handler = nat
  type ClientId = nat
  type MapId = nat
  type WrapperId = nat
  type Topic = string

  // A Map from topic to wrapper, and the handler and client it was made for.
  datatype Handlers = Handlers(of: Handler, on: ClientId, wrappers: map<Topic, WrapperId>)

  // What the closure `handler2` holds.
  datatype Wrapper = Wrapper(handler: Handler, handlers: MapId, topic: Topic, n: nat)

  // `centroSubs` is each handler's `_centro_subs`; `maps` are all the inner Maps ever made, also those let go.
  datatype Index = Index(centroSubs: map<Handler, map<ClientId, MapId>>, maps: seq<Handlers>, made: seq<Wrapper>)

  type Subs = map<ClientId, map<Topic, set<WrapperId>>>

  datatype State = State(index: Index, subs: Subs)

  // Topics here are already expanded and prefixed.
  datatype Event =
    | Connect(c: ClientId, presubscribed: set<Topic>)
    | Subscribe(c: ClientId, n: nat, topic: Topic, handler: Handler)
    | Unsubscribe(c: ClientId, topic: Topic, handler: Handler)
    | UnsubscribeTopic(c: ClientId, topic: Topic)
    | UnsubscribeAll(c: ClientId, prefix: string)

  function WrapperFor(ix: Index, h: Handler, c: ClientId, t: Topic): Option<WrapperId> {
    if h in ix.centroSubs && c in ix.centroSubs[h] then
      var m := ix.centroSubs[h][c];
      if m < |ix.maps| && t in ix.maps[m].wrappers then Some(ix.maps[m].wrappers[t]) else None
    else None
  }

  // The check a wrapper makes when it is called.
  predicate Delivers(ix: Index, w: WrapperId) {
    && w < |ix.made|
    && var x := ix.made[w];
    && x.handlers < |ix.maps| && x.topic in ix.maps[x.handlers].wrappers && ix.maps[x.handlers].wrappers[x.topic] == w
  }

  predicate Subscribed(subs: Subs, c: ClientId, t: Topic, w: WrapperId) {
    c in subs && t in subs[c] && w in subs[c][t]
  }

  // ---- Steps ----

  function WithMap(ix: Index, h: Handler, c: ClientId): Index {
    var byClient := if h in ix.centroSubs then ix.centroSubs[h] else map[];
    if c in byClient then ix
    else Index(ix.centroSubs[h := byClient[c := |ix.maps|]], ix.maps + [Handlers(h, c, map[])], ix.made)
  }

  predicate HasMap(ix: Index, h: Handler, c: ClientId) {
    h in ix.centroSubs && c in ix.centroSubs[h] && ix.centroSubs[h][c] < |ix.maps|
  }

  function WithWrapper(ix: Index, h: Handler, c: ClientId, t: Topic, n: nat): Index
    requires HasMap(ix, h, c)
  {
    var m := ix.centroSubs[h][c];
    if t in ix.maps[m].wrappers then ix
    else
      var wrappers := ix.maps[m].wrappers[t := |ix.made|];
      Index(ix.centroSubs, ix.maps[m := ix.maps[m].(wrappers := wrappers)], ix.made + [Wrapper(h, m, t, n)])
  }

  // mqlobber's own subscribe: a set of handlers for each topic.
  function Added(subs: Subs, c: ClientId, t: Topic, w: WrapperId): Subs
    requires c in subs
  {
    subs[c := subs[c][t := (if t in subs[c] then subs[c][t] else {}) + {w}]]
  }

  // mqlobber's own unsubscribe: a topic goes when none of its handlers is left.
  function Removed(subs: Subs, c: ClientId, t: Topic, gone: set<WrapperId>): Subs
    requires c in subs
  {
    if t !in subs[c] then subs
    else if subs[c][t] - gone == {} then subs[c := subs[c] - {t}]
    else subs[c := subs[c][t := subs[c][t] - gone]]
  }

  function Kept(m: Handlers, gone: set<WrapperId>): Handlers {
    m.(wrappers := map t | t in m.wrappers && m.wrappers[t] !in gone :: m.wrappers[t])
  }

  function KeptAll(maps: seq<Handlers>, gone: set<WrapperId>): seq<Handlers> {
    seq(|maps|, i requires 0 <= i < |maps| => Kept(maps[i], gone))
  }

  function Held(byClient: map<ClientId, MapId>, maps: seq<Handlers>): map<ClientId, MapId> {
    map c | c in byClient && byClient[c] < |maps| && maps[byClient[c]].wrappers != map[] :: byClient[c]
  }

  function HeldAll(centroSubs: map<Handler, map<ClientId, MapId>>, maps: seq<Handlers>)
    : map<Handler, map<ClientId, MapId>>
  {
    map h | h in centroSubs && Held(centroSubs[h], maps) != map[] :: Held(centroSubs[h], maps)
  }

  // The index without some wrappers: no map that this empties is held any longer.
  function Without(ix: Index, gone: set<WrapperId>): Index {
    var maps := KeptAll(ix.maps, gone);
    Index(HeldAll(ix.centroSubs, maps), maps, ix.made)
  }

  function WrappersOf(topics: map<Topic, set<WrapperId>>, ts: set<Topic>): set<WrapperId> {
    set t, w | t in topics && t in ts && w in topics[t] :: w
  }

  function WithoutTopics(s: State, c: ClientId, ts: set<Topic>): State
    requires c in s.subs
  {
    State(Without(s.index, WrappersOf(s.subs[c], ts)), s.subs[c := s.subs[c] - ts])
  }

  function Under(topics: map<Topic, set<WrapperId>>, prefix: string): set<Topic> {
    set t | t in topics && prefix <= t
  }

  ghost predicate Enabled(s: State, e: Event) {
    if e.Connect? then e.c !in s.subs else e.c in s.subs
  }

  ghost function Step(s: State, e: Event): State
    requires Inv(s) && Enabled(s, e)
  {
    match e
    case Connect(c, presubscribed) => s.(subs := s.subs[c := map t | t in presubscribed :: {}])
    case Subscribe(c, n, t, h) =>
      MapLinked(s.index, h, c);
      var ix := WithWrapper(WithMap(s.index, h, c), h, c, t, n);
      State(ix, Added(s.subs, c, t, ix.maps[ix.centroSubs[h][c]].wrappers[t]))
    case Unsubscribe(c, t, h) =>
      var w := WrapperFor(s.index, h, c, t);
      var gone := if w.Some? then {w.value} else {};
      State(Without(s.index, gone), Removed(s.subs, c, t, gone))
    case UnsubscribeTopic(c, t) => WithoutTopics(s, c, {t})
    case UnsubscribeAll(c, prefix) => WithoutTopics(s, c, Under(s.subs[c], prefix))
  }

  // ---- Invariant ----

  predicate Reaches(ix: Index, h: Handler, c: ClientId, m: MapId) {
    h in ix.centroSubs && c in ix.centroSubs[h] && ix.centroSubs[h][c] == m
  }

  ghost predicate Linked(ix: Index) {
    && (forall h :: h in ix.centroSubs ==> ix.centroSubs[h] != map[])
    && (forall h, c, m: MapId :: Reaches(ix, h, c, m) ==> m < |ix.maps| && ix.maps[m].of == h && ix.maps[m].on == c)
    && (forall m: nat, t :: m < |ix.maps| && t in ix.maps[m].wrappers ==>
         && Reaches(ix, ix.maps[m].of, ix.maps[m].on, m)
         && var w := ix.maps[m].wrappers[t]; w < |ix.made| && ix.made[w].topic == t && ix.made[w].handlers == m)
    && (forall w: nat :: w < |ix.made| ==>
         ix.made[w].handlers < |ix.maps| && ix.made[w].handler == ix.maps[ix.made[w].handlers].of)
  }

  // No map within reach is empty.
  ghost predicate IndexOk(ix: Index) {
    && Linked(ix)
    && forall h, c, m: MapId :: Reaches(ix, h, c, m) ==> ix.maps[m].wrappers != map[]
  }

  // The client and topic a wrapper was subscribed for.
  predicate IsFor(ix: Index, c: ClientId, t: Topic, w: WrapperId) {
    w < |ix.made| && ix.made[w].topic == t && ix.made[w].handlers < |ix.maps| && ix.maps[ix.made[w].handlers].on == c
  }

  ghost predicate Agree(s: State) {
    && (forall c, t, w: WrapperId :: Subscribed(s.subs, c, t, w) ==> Delivers(s.index, w) && IsFor(s.index, c, t, w))
    && (forall c, t, w: WrapperId :: Delivers(s.index, w) && IsFor(s.index, c, t, w) ==> Subscribed(s.subs, c, t, w))
  }

  ghost predicate Inv(s: State) {
    IndexOk(s.index) && Agree(s)
  }

  lemma MapLinked(ix: Index, h: Handler, c: ClientId)
    requires Linked(ix)
    ensures Linked(WithMap(ix, h, c)) && exists m: MapId :: Reaches(WithMap(ix, h, c), h, c, m)
    ensures forall h', c', m: MapId ::
      Reaches(WithMap(ix, h, c), h', c', m) ==> (h' == h && c' == c) || Reaches(ix, h', c', m)
  {
    var ix' := WithMap(ix, h, c);
    assert Reaches(ix', h, c, ix'.centroSubs[h][c]);
    forall h' | h' in ix'.centroSubs ensures ix'.centroSubs[h'] != map[] {
      if h' == h { assert c in ix'.centroSubs[h']; }
    }
    forall h', c', m: MapId | Reaches(ix, h', c', m) ensures Reaches(ix', h', c', m) {}
    forall h', c', m: MapId | Reaches(ix', h', c', m)
      ensures m < |ix'.maps| && ix'.maps[m].of == h' && ix'.maps[m].on == c'
    {
      assert (h' == h && c' == c) || Reaches(ix, h', c', m);
    }
    forall m: nat, t | m < |ix'.maps| && t in ix'.maps[m].wrappers
      ensures Reaches(ix', ix'.maps[m].of, ix'.maps[m].on, m)
      ensures var w := ix'.maps[m].wrappers[t]; w < |ix'.made| && ix'.made[w].topic == t && ix'.made[w].handlers == m
    {
      assert m < |ix.maps| && ix'.maps[m] == ix.maps[m];
    }
    forall w: nat | w < |ix'.made|
      ensures ix'.made[w].handlers < |ix'.maps| && ix'.made[w].handler == ix'.maps[ix'.made[w].handlers].of
    {
      assert ix'.made[w] == ix.made[w];
    }
  }

  const START := State(Index(map[], [], []), map[])

  // ---- Taking wrappers out of the index ----

  lemma KeptTwice(m: Handlers, a: set<WrapperId>, b: set<WrapperId>)
    ensures Kept(Kept(m, a), b) == Kept(m, a + b)
  {
  }

  lemma HeldTwice(byClient: map<ClientId, MapId>, once: seq<Handlers>, twice: seq<Handlers>)
    requires |once| == |twice|
    requires forall i :: 0 <= i < |once| && once[i].wrappers == map[] ==> twice[i].wrappers == map[]
    ensures Held(Held(byClient, once), twice) == Held(byClient, twice)
  {
  }

  lemma HeldAllTwice(centroSubs: map<Handler, map<ClientId, MapId>>, once: seq<Handlers>, twice: seq<Handlers>)
    requires |once| == |twice|
    requires forall i :: 0 <= i < |once| && once[i].wrappers == map[] ==> twice[i].wrappers == map[]
    ensures HeldAll(HeldAll(centroSubs, once), twice) == HeldAll(centroSubs, twice)
  {
    forall h | h in centroSubs
      ensures Held(Held(centroSubs[h], once), twice) == Held(centroSubs[h], twice)
      ensures Held(centroSubs[h], once) == map[] ==> Held(centroSubs[h], twice) == map[]
    {
      HeldTwice(centroSubs[h], once, twice);
    }
  }

  lemma WithoutTwice(ix: Index, a: set<WrapperId>, b: set<WrapperId>)
    ensures Without(Without(ix, a), b) == Without(ix, a + b)
  {
    var once, twice := KeptAll(ix.maps, a), KeptAll(ix.maps, a + b);
    forall i | 0 <= i < |ix.maps| ensures Kept(once[i], b) == twice[i] { KeptTwice(ix.maps[i], a, b); }
    assert KeptAll(once, b) == twice;
    HeldAllTwice(ix.centroSubs, once, twice);
  }

  lemma KeptAt(ix: Index, gone: set<WrapperId>, m: MapId, t: Topic)
    requires m < |ix.maps|
    ensures var m' := Without(ix, gone).maps[m];
      && m'.of == ix.maps[m].of && m'.on == ix.maps[m].on
      && (t in m'.wrappers <==> t in ix.maps[m].wrappers && ix.maps[m].wrappers[t] !in gone)
      && (t in m'.wrappers ==> m'.wrappers[t] == ix.maps[m].wrappers[t])
  {
  }

  lemma WithoutReaches(ix: Index, gone: set<WrapperId>, h: Handler, c: ClientId, m: MapId)
    requires IndexOk(ix)
    ensures Reaches(Without(ix, gone), h, c, m) <==>
      Reaches(ix, h, c, m) && Without(ix, gone).maps[m].wrappers != map[]
  {
    var maps := KeptAll(ix.maps, gone);
    if Reaches(ix, h, c, m) && maps[m].wrappers != map[] { assert c in Held(ix.centroSubs[h], maps); }
  }

  lemma WithoutOk(ix: Index, gone: set<WrapperId>)
    requires IndexOk(ix)
    ensures IndexOk(Without(ix, gone))
  {
    var ix' := Without(ix, gone);
    forall h, c, m: MapId | Reaches(ix', h, c, m)
      ensures m < |ix'.maps| && ix'.maps[m].of == h && ix'.maps[m].on == c && ix'.maps[m].wrappers != map[]
    {
      WithoutReaches(ix, gone, h, c, m);
    }
    forall m: nat, t | m < |ix'.maps| && t in ix'.maps[m].wrappers
      ensures Reaches(ix', ix'.maps[m].of, ix'.maps[m].on, m)
      ensures var w := ix'.maps[m].wrappers[t]; w < |ix'.made| && ix'.made[w].topic == t && ix'.made[w].handlers == m
    {
      KeptAt(ix, gone, m, t);
      WithoutReaches(ix, gone, ix'.maps[m].of, ix'.maps[m].on, m);
    }
  }

  lemma WithoutDelivers(ix: Index, gone: set<WrapperId>, w: WrapperId)
    ensures Delivers(Without(ix, gone), w) <==> Delivers(ix, w) && w !in gone
  {
    if w < |ix.made| && ix.made[w].handlers < |ix.maps| { KeptAt(ix, gone, ix.made[w].handlers, ix.made[w].topic); }
  }

  lemma FoundDelivers(ix: Index, w: WrapperId, h: Handler, c: ClientId, t: Topic)
    requires IndexOk(ix)
    ensures WrapperFor(ix, h, c, t) == Some(w) <==> Delivers(ix, w) && IsFor(ix, c, t, w) && ix.made[w].handler == h
  {
    if h in ix.centroSubs && c in ix.centroSubs[h] { assert Reaches(ix, h, c, ix.centroSubs[h][c]); }
    if Delivers(ix, w) && IsFor(ix, c, t, w) && ix.made[w].handler == h {
      assert Reaches(ix, h, c, ix.made[w].handlers);
    }
  }

  lemma KeptNone(maps: seq<Handlers>)
    ensures KeptAll(maps, {}) == maps
  {
    forall i | 0 <= i < |maps| ensures Kept(maps[i], {}) == maps[i] {
      assert Kept(maps[i], {}).wrappers == maps[i].wrappers;
    }
  }

  lemma HeldSame(ix: Index, h: Handler)
    requires IndexOk(ix) && h in ix.centroSubs
    ensures Held(ix.centroSubs[h], ix.maps) == ix.centroSubs[h]
  {
    var byClient := ix.centroSubs[h];
    forall c | c in byClient ensures byClient[c] < |ix.maps| && ix.maps[byClient[c]].wrappers != map[] {
      assert Reaches(ix, h, c, byClient[c]);
    }
  }

  lemma HeldAllSame(centroSubs: map<Handler, map<ClientId, MapId>>, maps: seq<Handlers>)
    requires forall h :: h in centroSubs ==> Held(centroSubs[h], maps) == centroSubs[h] && centroSubs[h] != map[]
    ensures HeldAll(centroSubs, maps) == centroSubs
  {
  }

  lemma NothingGone(ix: Index)
    requires IndexOk(ix)
    ensures Without(ix, {}) == ix
  {
    KeptNone(ix.maps);
    forall h | h in ix.centroSubs ensures Held(ix.centroSubs[h], ix.maps) == ix.centroSubs[h] { HeldSame(ix, h); }
    HeldAllSame(ix.centroSubs, ix.maps);
  }

  // ---- Every step keeps the invariant ----

  // Taking the same wrappers out of both sides keeps them in agreement.
  lemma RemovalAgrees(s: State, s': State, gone: set<WrapperId>)
    requires Inv(s) && s'.index == Without(s.index, gone)
    requires forall c, t, w: WrapperId :: Subscribed(s'.subs, c, t, w) <==> Subscribed(s.subs, c, t, w) && w !in gone
    ensures Inv(s')
  {
    hide IndexOk, HeldAll;
    WithoutOk(s.index, gone);
    forall c, t, w: WrapperId
      ensures Subscribed(s'.subs, c, t, w) <==> Delivers(s'.index, w) && IsFor(s'.index, c, t, w)
    {
      WithoutDelivers(s.index, gone, w);
    }
  }

  lemma TopicsAfter(s: State, c: ClientId, ts: set<Topic>, c': ClientId, t: Topic, w: WrapperId)
    requires Inv(s) && c in s.subs
    ensures Subscribed(WithoutTopics(s, c, ts).subs, c', t, w) <==>
      Subscribed(s.subs, c', t, w) && w !in WrappersOf(s.subs[c], ts)
  {
    if Subscribed(s.subs, c', t, w) && w in WrappersOf(s.subs[c], ts) {
      var t' :| t' in s.subs[c] && t' in ts && w in s.subs[c][t'];
      assert Subscribed(s.subs, c, t', w);
    }
  }

  lemma WithoutTopicsInv(s: State, c: ClientId, ts: set<Topic>)
    requires Inv(s) && c in s.subs
    ensures Inv(WithoutTopics(s, c, ts))
  {
    var s' := WithoutTopics(s, c, ts);
    forall c', t, w: WrapperId
      ensures Subscribed(s'.subs, c', t, w) <==> Subscribed(s.subs, c', t, w) && w !in WrappersOf(s.subs[c], ts)
    {
      TopicsAfter(s, c, ts, c', t, w);
    }
    RemovalAgrees(s, s', WrappersOf(s.subs[c], ts));
  }

  lemma UnsubscribeInv(s: State, c: ClientId, t: Topic, h: Handler)
    requires Inv(s) && c in s.subs
    ensures Inv(Step(s, Unsubscribe(c, t, h)))
  {
    var w := WrapperFor(s.index, h, c, t);
    var gone := if w.Some? then {w.value} else {};
    if w.Some? { FoundDelivers(s.index, w.value, h, c, t); }
    RemovalAgrees(s, Step(s, Unsubscribe(c, t, h)), gone);
  }


  lemma WrapperLinked(ix: Index, h: Handler, c: ClientId, t: Topic, n: nat)
    requires Linked(ix) && h in ix.centroSubs && c in ix.centroSubs[h]
    ensures ix.centroSubs[h][c] < |ix.maps|
    ensures var ix' := WithWrapper(ix, h, c, t, n); Linked(ix') && ix'.centroSubs == ix.centroSubs
  {
    assert Reaches(ix, h, c, ix.centroSubs[h][c]);
    var ix' := WithWrapper(ix, h, c, t, n);
    forall h', c', m: MapId ensures Reaches(ix', h', c', m) <==> Reaches(ix, h', c', m) {}
    forall m: nat, t' | m < |ix'.maps| && t' in ix'.maps[m].wrappers
      ensures Reaches(ix', ix'.maps[m].of, ix'.maps[m].on, m)
      ensures var w := ix'.maps[m].wrappers[t']; w < |ix'.made| && ix'.made[w].topic == t' && ix'.made[w].handlers == m
    {
      if m != ix.centroSubs[h][c] || t' != t { assert t' in ix.maps[m].wrappers; }
    }
  }

  lemma SubscribeOk(ix: Index, h: Handler, c: ClientId, t: Topic, n: nat)
    requires IndexOk(ix)
    ensures HasMap(WithMap(ix, h, c), h, c)
    ensures IndexOk(WithWrapper(WithMap(ix, h, c), h, c, t, n))
  {
    MapLinked(ix, h, c);
    var ix1 := WithMap(ix, h, c);
    WrapperLinked(ix1, h, c, t, n);
    var ix2 := WithWrapper(ix1, h, c, t, n);
    forall h', c', m: MapId | Reaches(ix2, h', c', m) ensures ix2.maps[m].wrappers != map[] {
      assert Reaches(ix1, h', c', m);
      if h' == h && c' == c { assert t in ix2.maps[m].wrappers; } else { assert Reaches(ix, h', c', m); }
    }
  }

  lemma MapDelivers(ix: Index, h: Handler, c: ClientId, w: WrapperId, c': ClientId, t': Topic)
    requires Linked(ix)
    ensures Delivers(WithMap(ix, h, c), w) <==> Delivers(ix, w)
    ensures IsFor(WithMap(ix, h, c), c', t', w) <==> IsFor(ix, c', t', w)
  {
  }

  lemma WrapperDelivers(ix: Index, h: Handler, c: ClientId, t: Topic, n: nat, w: WrapperId, c': ClientId, t': Topic)
    requires Linked(ix) && h in ix.centroSubs && c in ix.centroSubs[h] && Reaches(ix, h, c, ix.centroSubs[h][c])
    ensures ix.centroSubs[h][c] < |ix.maps|
    ensures var ix' := WithWrapper(ix, h, c, t, n);
      && WrapperFor(ix', h, c, t).Some?
      && (Delivers(ix', w) && IsFor(ix', c', t', w) <==>
          (Delivers(ix, w) && IsFor(ix, c', t', w)) || (c' == c && t' == t && WrapperFor(ix', h, c, t) == Some(w)))
  {
  }

  // Subscribing makes the one wrapper of the handler for the topic deliver, and changes nothing for any other.
  lemma SubscribeDelivers(ix: Index, h: Handler, c: ClientId, t: Topic, n: nat, w: WrapperId, c': ClientId, t': Topic)
    requires IndexOk(ix)
    ensures HasMap(WithMap(ix, h, c), h, c)
    ensures var ix2 := WithWrapper(WithMap(ix, h, c), h, c, t, n);
      && WrapperFor(ix2, h, c, t).Some?
      && (Delivers(ix2, w) && IsFor(ix2, c', t', w) <==>
          (Delivers(ix, w) && IsFor(ix, c', t', w)) || (c' == c && t' == t && WrapperFor(ix2, h, c, t) == Some(w)))
  {
    MapLinked(ix, h, c);
    MapDelivers(ix, h, c, w, c', t');
    WrapperDelivers(WithMap(ix, h, c), h, c, t, n, w, c', t');
  }

  lemma AddedSubscribed(subs: Subs, c: ClientId, t: Topic, w0: WrapperId, c': ClientId, t': Topic, w: WrapperId)
    requires c in subs
    ensures Subscribed(Added(subs, c, t, w0), c', t', w) <==>
      Subscribed(subs, c', t', w) || (c' == c && t' == t && w == w0)
  {
  }

  lemma SubscribeAgrees(s: State, c: ClientId, n: nat, t: Topic, h: Handler, c': ClientId, t': Topic, w: WrapperId)
    requires Inv(s) && c in s.subs
    ensures var s' := Step(s, Subscribe(c, n, t, h));
      Subscribed(s'.subs, c', t', w) <==> Delivers(s'.index, w) && IsFor(s'.index, c', t', w)
  {
    SubscribeDelivers(s.index, h, c, t, n, w, c', t');
    var ix := WithWrapper(WithMap(s.index, h, c), h, c, t, n);
    AddedSubscribed(s.subs, c, t, WrapperFor(ix, h, c, t).value, c', t', w);
    assert Subscribed(s.subs, c', t', w) <==> Delivers(s.index, w) && IsFor(s.index, c', t', w);
  }

  lemma SubscribeInv(s: State, c: ClientId, n: nat, t: Topic, h: Handler)
    requires Inv(s) && c in s.subs
    ensures Inv(Step(s, Subscribe(c, n, t, h)))
  {
    var s' := Step(s, Subscribe(c, n, t, h));
    SubscribeOk(s.index, h, c, t, n);
    forall c', t', w: WrapperId
      ensures Subscribed(s'.subs, c', t', w) <==> Delivers(s'.index, w) && IsFor(s'.index, c', t', w)
    {
      SubscribeAgrees(s, c, n, t, h, c', t', w);
    }
  }

  lemma ConnectInv(s: State, c: ClientId, presubscribed: set<Topic>)
    requires Inv(s) && c !in s.subs
    ensures Inv(Step(s, Connect(c, presubscribed)))
  {
    var s' := Step(s, Connect(c, presubscribed));
    forall c', t, w: WrapperId ensures Subscribed(s'.subs, c', t, w) <==> Subscribed(s.subs, c', t, w) {}
  }

  lemma StepKeepsInv(s: State, e: Event)
    requires Inv(s) && Enabled(s, e)
    ensures Inv(Step(s, e))
  {
    match e
    case Connect(c, presubscribed) => ConnectInv(s, c, presubscribed);
    case Subscribe(c, n, t, h) => SubscribeInv(s, c, n, t, h);
    case Unsubscribe(c, t, h) => UnsubscribeInv(s, c, t, h);
    case UnsubscribeTopic(c, t) => WithoutTopicsInv(s, c, {t});
    case UnsubscribeAll(c, prefix) => WithoutTopicsInv(s, c, Under(s.subs[c], prefix));
  }

  // ---- Runs ----

  ghost predicate IsRun(s: State, es: seq<Event>)
    requires Inv(s)
    decreases |es|
  {
    if es == [] then true
    else Enabled(s, es[0]) && (StepKeepsInv(s, es[0]); IsRun(Step(s, es[0]), es[1..]))
  }

  ghost function Run(s: State, es: seq<Event>): (r: State)
    requires Inv(s) && IsRun(s, es)
    ensures Inv(r)
    decreases |es|
  {
    if es == [] then s else StepKeepsInv(s, es[0]); Run(Step(s, es[0]), es[1..])
  }

  predicate Has(s: State, c: ClientId, t: Topic, h: Handler) { WrapperFor(s.index, h, c, t).Some? }

  // What one call makes of a handler's subscription to a topic.
  predicate After(had: bool, e: Event, c: ClientId, t: Topic, h: Handler) {
    match e
    case Connect(_, _) => had
    case Subscribe(c', _, t', h') => had || (c' == c && t' == t && h' == h)
    case Unsubscribe(c', t', h') => had && !(c' == c && t' == t && h' == h)
    case UnsubscribeTopic(c', t') => had && !(c' == c && t' == t)
    case UnsubscribeAll(c', prefix) => had && !(c' == c && prefix <= t)
  }

  predicate Wanted(had: bool, es: seq<Event>, c: ClientId, t: Topic, h: Handler)
    decreases |es|
  {
    if es == [] then had else Wanted(After(had, es[0], c, t, h), es[1..], c, t, h)
  }

  lemma WithoutFor(ix: Index, gone: set<WrapperId>, h: Handler, c: ClientId, t: Topic)
    requires IndexOk(ix)
    ensures var w := WrapperFor(ix, h, c, t);
      WrapperFor(Without(ix, gone), h, c, t) == if w.Some? && w.value !in gone then w else None
  {
    WithoutOk(ix, gone);
    var ix' := Without(ix, gone);
    var w, w' := WrapperFor(ix, h, c, t), WrapperFor(ix', h, c, t);
    if w.Some? {
      FoundDelivers(ix, w.value, h, c, t);
      FoundDelivers(ix', w.value, h, c, t);
      WithoutDelivers(ix, gone, w.value);
    }
    if w'.Some? {
      FoundDelivers(ix, w'.value, h, c, t);
      FoundDelivers(ix', w'.value, h, c, t);
      WithoutDelivers(ix, gone, w'.value);
    }
  }

  lemma TopicsHas(s: State, c: ClientId, ts: set<Topic>, c': ClientId, t: Topic, h: Handler)
    requires Inv(s) && c in s.subs
    ensures Has(WithoutTopics(s, c, ts), c', t, h) <==> Has(s, c', t, h) && !(c' == c && t in ts)
  {
    WithoutFor(s.index, WrappersOf(s.subs[c], ts), h, c', t);
    var w := WrapperFor(s.index, h, c', t);
    if w.Some? {
      FoundDelivers(s.index, w.value, h, c', t);
      assert Subscribed(s.subs, c', t, w.value);
      if w.value in WrappersOf(s.subs[c], ts) {
        var t' :| t' in s.subs[c] && t' in ts && w.value in s.subs[c][t'];
        assert Subscribed(s.subs, c, t', w.value);
      }
    }
  }

  lemma UnsubscribeHas(s: State, c: ClientId, t: Topic, h: Handler, c': ClientId, t': Topic, h': Handler)
    requires Inv(s) && c in s.subs
    ensures Has(Step(s, Unsubscribe(c, t, h)), c', t', h') <==> Has(s, c', t', h') && !(c' == c && t' == t && h' == h)
  {
    var w, w' := WrapperFor(s.index, h, c, t), WrapperFor(s.index, h', c', t');
    WithoutFor(s.index, if w.Some? then {w.value} else {}, h', c', t');
    if w.Some? && w'.Some? {
      FoundDelivers(s.index, w.value, h, c, t);
      FoundDelivers(s.index, w'.value, h', c', t');
    }
  }

  lemma MapHas(ix: Index, h: Handler, c: ClientId, h': Handler, c': ClientId, t: Topic)
    requires Linked(ix)
    ensures WrapperFor(WithMap(ix, h, c), h', c', t) == WrapperFor(ix, h', c', t)
  {
    if h' in ix.centroSubs && c' in ix.centroSubs[h'] { assert Reaches(ix, h', c', ix.centroSubs[h'][c']); }
  }

  lemma WrapperHas(ix: Index, h: Handler, c: ClientId, t: Topic, n: nat, h': Handler, c': ClientId, t': Topic)
    requires Linked(ix) && h in ix.centroSubs && c in ix.centroSubs[h] && ix.centroSubs[h][c] < |ix.maps|
    ensures WrapperFor(WithWrapper(ix, h, c, t, n), h', c', t').Some? <==>
      WrapperFor(ix, h', c', t').Some? || (c' == c && t' == t && h' == h)
  {
    assert Reaches(ix, h, c, ix.centroSubs[h][c]);
    if h' in ix.centroSubs && c' in ix.centroSubs[h'] { assert Reaches(ix, h', c', ix.centroSubs[h'][c']); }
  }

  lemma SubscribeHas(s: State, c: ClientId, n: nat, t: Topic, h: Handler, c': ClientId, t': Topic, h': Handler)
    requires Inv(s) && c in s.subs
    ensures Has(Step(s, Subscribe(c, n, t, h)), c', t', h') <==> Has(s, c', t', h') || (c' == c && t' == t && h' == h)
  {
    MapLinked(s.index, h, c);
    WrapperLinked(WithMap(s.index, h, c), h, c, t, n);
    MapHas(s.index, h, c, h', c', t');
    WrapperHas(WithMap(s.index, h, c), h, c, t, n, h', c', t');
  }

  lemma StepHas(s: State, e: Event, c: ClientId, t: Topic, h: Handler)
    requires Inv(s) && Enabled(s, e)
    ensures Has(Step(s, e), c, t, h) <==> After(Has(s, c, t, h), e, c, t, h)
  {
    match e
    case Connect(_, _) =>
    case Subscribe(c', n, t', h') => SubscribeHas(s, c', n, t', h', c, t, h);
    case Unsubscribe(c', t', h') => UnsubscribeHas(s, c', t', h', c, t, h);
    case UnsubscribeTopic(c', t') => TopicsHas(s, c', {t'}, c, t, h);
    case UnsubscribeAll(c', prefix) =>
      TopicsHas(s, c', Under(s.subs[c'], prefix), c, t, h);
      if Has(s, c, t, h) {
        var w := WrapperFor(s.index, h, c, t).value;
        FoundDelivers(s.index, w, h, c, t);
        assert Subscribed(s.subs, c, t, w);
      }
  }

  /** Over every run of calls on any clients and topics, whether a handler is subscribed to a topic is decided by the
      calls about that client, topic and handler alone: the last one that concerns it. */
  lemma {:induction false} LastCallDecides(s: State, es: seq<Event>, c: ClientId, t: Topic, h: Handler)
    requires Inv(s) && IsRun(s, es)
    ensures Has(Run(s, es), c, t, h) <==> Wanted(Has(s, c, t, h), es, c, t, h)
    decreases |es|
  {
    if es != [] {
      StepKeepsInv(s, es[0]);
      StepHas(s, es[0], c, t, h);
      LastCallDecides(Step(s, es[0]), es[1..], c, t, h);
    }
  }

  predicate HasTopic(s: State, c: ClientId, t: Topic) { c in s.subs && t in s.subs[c] }

  // A handler other than the given one is subscribed to the topic.
  predicate OtherHas(s: State, c: ClientId, t: Topic, h: Handler) {
    exists h' :: h' in s.index.centroSubs && h' != h && Has(s, c, t, h')
  }

  lemma UnsubscribeTopics(s: State, c: ClientId, t: Topic, h: Handler)
    requires Inv(s) && HasTopic(s, c, t)
    ensures HasTopic(Step(s, Unsubscribe(c, t, h)), c, t) <==> OtherHas(s, c, t, h)
  {
    var w := WrapperFor(s.index, h, c, t);
    var gone := if w.Some? then {w.value} else {};
    assert HasTopic(Step(s, Unsubscribe(c, t, h)), c, t) <==> s.subs[c][t] - gone != {};
    hide Step;
    if s.subs[c][t] - gone != {} {
      var w' :| w' in s.subs[c][t] - gone;
      var h' := FoundByTopic(s, c, t, w');
      assert Has(s, c, t, h');
    }
    if h' :| h' in s.index.centroSubs && h' != h && Has(s, c, t, h') {
      var w' := WrapperFor(s.index, h', c, t).value;
      FoundIsSubscribed(s, c, t, h', w');
      if w.Some? { FoundIsSubscribed(s, c, t, h, w.value); }
      assert w' in s.subs[c][t] - gone;
    }
  }

  lemma FoundByTopic(s: State, c: ClientId, t: Topic, w: WrapperId) returns (h: Handler)
    requires Inv(s) && Subscribed(s.subs, c, t, w)
    ensures h in s.index.centroSubs && WrapperFor(s.index, h, c, t) == Some(w)
  {
    h := s.index.made[w].handler;
    FoundDelivers(s.index, w, h, c, t);
  }

  lemma FoundIsSubscribed(s: State, c: ClientId, t: Topic, h: Handler, w: WrapperId)
    requires Inv(s) && WrapperFor(s.index, h, c, t) == Some(w)
    ensures Subscribed(s.subs, c, t, w) && s.index.made[w].handler == h
  {
    FoundDelivers(s.index, w, h, c, t);
  }

  /** A client's Map has a topic from the call that first subscribes to it, or the handshake that lists it, until the
      call that takes its last handler or all of it. */
  lemma TopicsExactly(s: State, e: Event, c: ClientId, t: Topic)
    requires Inv(s) && Enabled(s, e)
    ensures HasTopic(Step(s, e), c, t) <==>
      match e
      case Connect(c', topics) => HasTopic(s, c, t) || (c' == c && t in topics)
      case Subscribe(c', _, t', _) => HasTopic(s, c, t) || (c' == c && t' == t)
      case Unsubscribe(c', t', h) => HasTopic(s, c, t) && (c' == c && t' == t ==> OtherHas(s, c, t, h))
      case UnsubscribeTopic(c', t') => HasTopic(s, c, t) && !(c' == c && t' == t)
      case UnsubscribeAll(c', prefix) => HasTopic(s, c, t) && !(c' == c && prefix <= t)
  {
    if e.Unsubscribe? && e.c == c && e.topic == t && HasTopic(s, c, t) { UnsubscribeTopics(s, c, t, e.handler); }
  }

  /** In every state a run reaches, a wrapper delivers exactly when its client has it subscribed to its topic; a handler
      has at most one wrapper for a client and topic, the one its own map leads to; and no map on the way is empty. */
  lemma OneWrapper(es: seq<Event>, c: ClientId, t: Topic, h: Handler, w: WrapperId)
    requires IsRun(START, es)
    ensures var s := Run(START, es);
      && (Subscribed(s.subs, c, t, w) <==> Delivers(s.index, w) && IsFor(s.index, c, t, w))
      && (Subscribed(s.subs, c, t, w) && s.index.made[w].handler == h <==> WrapperFor(s.index, h, c, t) == Some(w))
      && (h in s.index.centroSubs ==> s.index.centroSubs[h] != map[])
      && forall m: MapId :: Reaches(s.index, h, c, m) ==> s.index.maps[m].wrappers != map[]
  {
    FoundDelivers(Run(START, es).index, w, h, c, t);
  }

  lemma SubscribeForgets(s: State, e: Event, w: WrapperId)
    requires Inv(s) && Enabled(s, e) && e.Subscribe? && w < |s.index.made| && !Delivers(s.index, w)
    ensures var s' := Step(s, e); w < |s'.index.made| && s'.index.made[w] == s.index.made[w] && !Delivers(s'.index, w)
  {
    MapLinked(s.index, e.handler, e.c);
    WrapperLinked(WithMap(s.index, e.handler, e.c), e.handler, e.c, e.topic, e.n);
  }

  lemma StepForgets(s: State, e: Event, w: WrapperId)
    requires Inv(s) && Enabled(s, e) && w < |s.index.made| && !Delivers(s.index, w)
    ensures var s' := Step(s, e); w < |s'.index.made| && s'.index.made[w] == s.index.made[w] && !Delivers(s'.index, w)
  {
    hide Delivers, HeldAll, KeptAll, WithMap, WithWrapper;
    match e
    case Connect(_, _) =>
    case Subscribe(_, _, _, _) => SubscribeForgets(s, e, w);
    case Unsubscribe(c, t, h) =>
      var v := WrapperFor(s.index, h, c, t);
      WithoutDelivers(s.index, if v.Some? then {v.value} else {}, w);
    case UnsubscribeTopic(c, t) => WithoutDelivers(s.index, WrappersOf(s.subs[c], {t}), w);
    case UnsubscribeAll(c, prefix) => WithoutDelivers(s.index, WrappersOf(s.subs[c], Under(s.subs[c], prefix)), w);
  }

  /** A wrapper that has been removed never delivers again, whatever is subscribed to afterwards. */
  lemma {:induction false} RemovedForGood(s: State, es: seq<Event>, w: WrapperId)
    requires Inv(s) && IsRun(s, es) && w < |s.index.made| && !Delivers(s.index, w)
    ensures !Delivers(Run(s, es).index, w)
    decreases |es|
  {
    if es != [] {
      StepForgets(s, es[0], w);
      StepKeepsInv(s, es[0]);
      RemovedForGood(Step(s, es[0]), es[1..], w);
    }
  }

  // ---- Unsubscribing from everything, in turns ----

  // The series of unsubscribe calls iterates over a client's Map; other calls run between its turns. `passed` are the
  // topics still in the Map that the iterator is past; one removed and added again is ahead of it.
  datatype Series = Series(c: ClientId, prefix: string, passed: set<Topic>)

  datatype Act = Turn(topic: Topic) | Call(e: Event)

  ghost predicate ActEnabled(s: State, v: Series, a: Act) {
    && v.c in s.subs
    && match a
       case Turn(t) => t in s.subs[v.c] && t !in v.passed
       case Call(e) => Enabled(s, e)
  }

  // What an act does to the subscriptions: a turn skips a topic with another prefix.
  ghost function ActStep(s: State, v: Series, a: Act): State
    requires Inv(s) && ActEnabled(s, v, a)
  {
    match a
    case Turn(t) => if v.prefix <= t then Step(s, UnsubscribeTopic(v.c, t)) else s
    case Call(e) => Step(s, e)
  }

  // Where it leaves the iterator.
  ghost function Moved(s: State, v: Series, a: Act): Series
    requires Inv(s) && ActEnabled(s, v, a)
  {
    var topics := if v.c in ActStep(s, v, a).subs then ActStep(s, v, a).subs[v.c].Keys else {};
    v.(passed := (if a.Turn? then v.passed + {a.topic} else v.passed) * topics)
  }

  ghost predicate SeriesOk(s: State, v: Series) {
    && v.c in s.subs && v.passed <= s.subs[v.c].Keys
    && forall t :: t in v.passed ==> !(v.prefix <= t)
  }

  ghost function Ahead(s: State, v: Series): set<Topic>
    requires v.c in s.subs
  {
    s.subs[v.c].Keys - v.passed
  }

  function Fresh(e: Event, c: ClientId): set<Topic> { if e.Subscribe? && e.c == c then {e.topic} else {} }

  lemma TopicsAfterCall(s: State, e: Event, c: ClientId)
    requires Inv(s) && Enabled(s, e) && c in s.subs
    ensures c in Step(s, e).subs && Step(s, e).subs[c].Keys <= s.subs[c].Keys + Fresh(e, c)
  {
  }

  lemma TurnKeeps(s: State, v: Series, t: Topic)
    requires Inv(s) && SeriesOk(s, v) && ActEnabled(s, v, Turn(t))
    ensures var s', v' := ActStep(s, v, Turn(t)), Moved(s, v, Turn(t));
      Inv(s') && SeriesOk(s', v') && Ahead(s', v') == Ahead(s, v) - {t}
  {
    if v.prefix <= t { StepKeepsInv(s, UnsubscribeTopic(v.c, t)); }
  }

  lemma CallKeeps(s: State, v: Series, e: Event)
    requires Inv(s) && SeriesOk(s, v) && ActEnabled(s, v, Call(e))
    ensures var s', v' := ActStep(s, v, Call(e)), Moved(s, v, Call(e));
      Inv(s') && SeriesOk(s', v') && Ahead(s', v') <= Ahead(s, v) + Fresh(e, v.c)
  {
    hide Step;
    StepKeepsInv(s, e);
    TopicsAfterCall(s, e, v.c);
  }

  ghost predicate IsSeries(s: State, v: Series, acts: seq<Act>)
    decreases |acts|
  {
    acts == [] ||
    (Inv(s) && ActEnabled(s, v, acts[0]) && IsSeries(ActStep(s, v, acts[0]), Moved(s, v, acts[0]), acts[1..]))
  }

  ghost function AfterSeries(s: State, v: Series, acts: seq<Act>): (State, Series)
    requires IsSeries(s, v, acts)
    decreases |acts|
  {
    if acts == [] then (s, v) else AfterSeries(ActStep(s, v, acts[0]), Moved(s, v, acts[0]), acts[1..])
  }

  function Turns(acts: seq<Act>): nat { if acts == [] then 0 else (if acts[0].Turn? then 1 else 0) + Turns(acts[1..]) }

  function Meanwhile(acts: seq<Act>, c: ClientId): nat {
    if acts == [] then 0 else (if acts[0].Call? then |Fresh(acts[0].e, c)| else 0) + Meanwhile(acts[1..], c)
  }

  /** Whatever calls run between its turns, the series takes at most one turn for each topic there was and one for each
      subscription made meanwhile; and when it has no topic ahead of it, the client has none under the prefix. */
  lemma {:induction false} SeriesEnds(s: State, v: Series, acts: seq<Act>)
    requires Inv(s) && SeriesOk(s, v) && IsSeries(s, v, acts)
    ensures Turns(acts) <= |Ahead(s, v)| + Meanwhile(acts, v.c)
    ensures var (s', v') := AfterSeries(s, v, acts);
      && Inv(s') && SeriesOk(s', v') && v'.c == v.c && v'.prefix == v.prefix
      && (Ahead(s', v') == {} ==> Under(s'.subs[v.c], v.prefix) == {})
    decreases |acts|
  {
    hide ActStep, Inv;
    if acts != [] {
      var s1, v1 := ActStep(s, v, acts[0]), Moved(s, v, acts[0]);
      match acts[0] {
        case Turn(t) =>
          TurnKeeps(s, v, t);
          assert Ahead(s, v) == Ahead(s1, v1) + {t};
        case Call(e) =>
          CallKeeps(s, v, e);
          Sets.SubsetSize(Ahead(s1, v1), Ahead(s, v) + Fresh(e, v.c));
      }
      SeriesEnds(s1, v1, acts[1..]);
    }
  }

  /** So when it is over, from its first turn on, nothing under the prefix is subscribed to. */
  lemma NothingLeftUnder(s: State, c: ClientId, prefix: string, acts: seq<Act>)
    requires Inv(s) && c in s.subs && IsSeries(s, Series(c, prefix, {}), acts)
    ensures Turns(acts) <= |s.subs[c].Keys| + Meanwhile(acts, c)
    ensures var (s', v') := AfterSeries(s, Series(c, prefix, {}), acts);
      c in s'.subs && (s'.subs[c].Keys <= v'.passed ==> Under(s'.subs[c], prefix) == {})
  {
    var v := Series(c, prefix, {});
    assert Ahead(s, v) == s.subs[c].Keys;
    SeriesEnds(s, v, acts);
    var (s', v') := AfterSeries(s, v, acts);
    if s'.subs[c].Keys <= v'.passed { assert Ahead(s', v') == {}; }
  }

  // A turn takes its topic if that is under the prefix, and leaves all others.
  lemma TurnLeaves(s: State, v: Series, t: Topic)
    requires Inv(s) && ActEnabled(s, v, Turn(t))
    ensures forall c', t', h :: Has(ActStep(s, v, Turn(t)), c', t', h) <==>
      Has(s, c', t', h) && !(c' == v.c && t' == t && v.prefix <= t)
  {
    hide Has, Step;
    if v.prefix <= t {
      forall c', t', h
        ensures Has(ActStep(s, v, Turn(t)), c', t', h) <==> Has(s, c', t', h) && !(c' == v.c && t' == t)
      {
        StepHas(s, UnsubscribeTopic(v.c, t), c', t', h);
      }
    }
  }

  function Calls(acts: seq<Act>): seq<Event> {
    if acts == [] then [] else (if acts[0].Call? then [acts[0].e] else []) + Calls(acts[1..])
  }

  /** Nor does the series touch anything else: whether a handler is subscribed to a topic that is not under the prefix,
      or of another client, is decided by the calls between its turns alone. */
  lemma {:induction false} SeriesSpares(s: State, v: Series, acts: seq<Act>, c: ClientId, t: Topic, h: Handler)
    requires Inv(s) && SeriesOk(s, v) && IsSeries(s, v, acts) && !(c == v.c && v.prefix <= t)
    ensures Has(AfterSeries(s, v, acts).0, c, t, h) <==> Wanted(Has(s, c, t, h), Calls(acts), c, t, h)
    decreases |acts|
  {
    hide ActStep, Moved, Inv, Has, SeriesOk;
    if acts != [] {
      var s1, v1 := ActStep(s, v, acts[0]), Moved(s, v, acts[0]);
      match acts[0] {
        case Turn(t') =>
          TurnKeeps(s, v, t');
          TurnLeaves(s, v, t');
          assert Calls(acts) == Calls(acts[1..]);
        case Call(e) =>
          CallKeeps(s, v, e);
          CallHas(s, v, e, c, t, h);
          assert Calls(acts) == [e] + Calls(acts[1..]);
      }
      SamePrefix(s, v, acts[0]);
      SeriesSpares(s1, v1, acts[1..], c, t, h);
    }
  }

  lemma CallHas(s: State, v: Series, e: Event, c: ClientId, t: Topic, h: Handler)
    requires Inv(s) && ActEnabled(s, v, Call(e))
    ensures Has(ActStep(s, v, Call(e)), c, t, h) <==> After(Has(s, c, t, h), e, c, t, h)
  {
    StepHas(s, e, c, t, h);
  }

  lemma SamePrefix(s: State, v: Series, a: Act)
    requires Inv(s) && ActEnabled(s, v, a)
    ensures Moved(s, v, a).c == v.c && Moved(s, v, a).prefix == v.prefix
  {
  }
}
