/** lib/client.js: the calls that change a client's subscriptions, over all the clients of a program. */
module CentroClientModule {
  import opened Wrappers
  import opened ClientSubs
  import TopicRewrite

  datatype Handshake = Handshake(self: string, prefixes: seq<string>)

  function Prefixed(prefix: string, topics: set<string>): set<Topic> { set t | t in topics :: prefix + t }

  // The topics a handshake lists for each token.
  function Presubscribed(prefixes: seq<string>, subscriptions: seq<set<string>>): set<Topic>
    requires |subscriptions| <= |prefixes|
  {
    if subscriptions == [] then {}
    else
      var i := |subscriptions| - 1;
      Presubscribed(prefixes, subscriptions[..i]) + Prefixed(prefixes[i], subscriptions[i])
  }

  /** Each topic is under the prefix of the token that lists it. */
  lemma {:induction false} PresubscribedExactly(prefixes: seq<string>, subscriptions: seq<set<string>>, t: Topic)
    requires |subscriptions| <= |prefixes|
    ensures t in Presubscribed(prefixes, subscriptions) <==>
      exists i, s :: 0 <= i < |subscriptions| && s in subscriptions[i] && t == prefixes[i] + s
    decreases |subscriptions|
  {
    if subscriptions != [] {
      var n := |subscriptions| - 1;
      var before := subscriptions[..n];
      PresubscribedExactly(prefixes, before, t);
      if t in Presubscribed(prefixes, before) {
        var i, s :| 0 <= i < n && s in before[i] && t == prefixes[i] + s;
        assert s in subscriptions[i];
      } else if t in Prefixed(prefixes[n], subscriptions[n]) {
        var s :| s in subscriptions[n] && t == prefixes[n] + s;
      }
      if i, s :| 0 <= i < |subscriptions| && s in subscriptions[i] && t == prefixes[i] + s {
        if i < n { assert s in before[i]; } else { assert t in Prefixed(prefixes[n], subscriptions[n]); }
      }
    }
  }

  function NoHandlers(topics: set<Topic>): map<Topic, set<WrapperId>> { map t | t in topics :: {} }

  lemma OneMore(topics: set<Topic>, t: Topic)
    ensures NoHandlers(topics)[t := {}] == NoHandlers(topics + {t})
  {
  }

  lemma OneTopicMore(before: set<Topic>, prefix: string, done: set<string>, t: string)
    ensures before + Prefixed(prefix, done + {t}) == before + Prefixed(prefix, done) + {prefix + t}
  {
  }

  // One call of `unsub` that finds a wrapper takes out just that wrapper.
  lemma UnsubMaps(ix: Index, m: MapId, t: Topic)
    requires Linked(ix) && m < |ix.maps| && t in ix.maps[m].wrappers
    ensures KeptAll(ix.maps, {ix.maps[m].wrappers[t]}) ==
      ix.maps[m := ix.maps[m].(wrappers := ix.maps[m].wrappers - {t})]
  {
    var maps := ix.maps[m := ix.maps[m].(wrappers := ix.maps[m].wrappers - {t})];
    var gone := {ix.maps[m].wrappers[t]};
    forall i | 0 <= i < |ix.maps| ensures Kept(ix.maps[i], gone) == maps[i] {
      assert Kept(ix.maps[i], gone).wrappers == maps[i].wrappers;
    }
  }

  lemma NoneEmpty(ix: Index, h: Handler)
    requires IndexOk(ix) && h in ix.centroSubs
    ensures ix.centroSubs[h] != map[]
  {
  }

  // ... and leaves every map within reach of another handler or client where it is.
  lemma OthersHeld(ix: Index, maps: seq<Handlers>, h: Handler, c: ClientId, h': Handler)
    requires IndexOk(ix) && h in ix.centroSubs && c in ix.centroSubs[h] && |maps| == |ix.maps|
    requires forall i :: 0 <= i < |maps| && i != ix.centroSubs[h][c] ==> maps[i] == ix.maps[i]
    requires h' in ix.centroSubs && h' != h
    ensures Held(ix.centroSubs[h'], maps) == ix.centroSubs[h']
  {
    assert Reaches(ix, h, c, ix.centroSubs[h][c]);
    var byClient := ix.centroSubs[h'];
    forall c' | c' in byClient ensures byClient[c'] < |maps| && maps[byClient[c']].wrappers != map[] {
      assert Reaches(ix, h', c', byClient[c']);
    }
  }

  lemma ThisHeld(ix: Index, maps: seq<Handlers>, h: Handler, c: ClientId)
    requires IndexOk(ix) && h in ix.centroSubs && c in ix.centroSubs[h] && |maps| == |ix.maps|
    requires forall i :: 0 <= i < |maps| && i != ix.centroSubs[h][c] ==> maps[i] == ix.maps[i]
    ensures ix.centroSubs[h][c] < |maps|
    ensures Held(ix.centroSubs[h], maps) ==
      if maps[ix.centroSubs[h][c]].wrappers == map[] then ix.centroSubs[h] - {c} else ix.centroSubs[h]
  {
    var byClient := ix.centroSubs[h];
    assert Reaches(ix, h, c, byClient[c]);
    forall c' | c' in byClient && c' != c ensures byClient[c'] < |maps| && maps[byClient[c']].wrappers != map[] {
      assert Reaches(ix, h, c', byClient[c']);
    }
  }

  lemma LetGo(centroSubs: map<Handler, map<ClientId, MapId>>, maps: seq<Handlers>, h: Handler)
    requires h in centroSubs
    requires forall h' :: h' in centroSubs && h' != h ==> Held(centroSubs[h'], maps) == centroSubs[h'] != map[]
    ensures HeldAll(centroSubs, maps) ==
      if Held(centroSubs[h], maps) == map[] then centroSubs - {h} else centroSubs[h := Held(centroSubs[h], maps)]
  {
    hide Held;
    var held := HeldAll(centroSubs, maps);
    assert forall h' :: h' in held ==> h' in centroSubs && held[h'] == Held(centroSubs[h'], maps);
    assert forall h' :: h' in centroSubs && h' != h ==> h' in held;
  }

  lemma UnsubHeld(ix: Index, maps: seq<Handlers>, h: Handler, c: ClientId)
    requires IndexOk(ix) && h in ix.centroSubs && c in ix.centroSubs[h] && |maps| == |ix.maps|
    requires forall i :: 0 <= i < |maps| && i != ix.centroSubs[h][c] ==> maps[i] == ix.maps[i]
    ensures ix.centroSubs[h][c] < |maps|
    ensures HeldAll(ix.centroSubs, maps) ==
      if maps[ix.centroSubs[h][c]].wrappers != map[] then ix.centroSubs
      else if ix.centroSubs[h] - {c} == map[] then ix.centroSubs - {h}
      else ix.centroSubs[h := ix.centroSubs[h] - {c}]
  {
    hide IndexOk, Held, HeldAll;
    forall h' | h' in ix.centroSubs && h' != h ensures Held(ix.centroSubs[h'], maps) == ix.centroSubs[h'] != map[] {
      NoneEmpty(ix, h');
      OthersHeld(ix, maps, h, c, h');
    }
    NoneEmpty(ix, h);
    ThisHeld(ix, maps, h, c);
    LetGo(ix.centroSubs, maps, h);
    assert ix.centroSubs[h := ix.centroSubs[h]] == ix.centroSubs;
  }

  lemma IndexReaches(ix: Index)
    requires IndexOk(ix)
    ensures forall h, c, m: MapId :: Reaches(ix, h, c, m) ==> m < |ix.maps|
  {
  }

  function TakenOut(ix: Index, h: Handler, c: ClientId, t: Topic): Index
    requires h in ix.centroSubs && c in ix.centroSubs[h] && ix.centroSubs[h][c] < |ix.maps|
  {
    var m := ix.centroSubs[h][c];
    var left := ix.maps[m].wrappers - {t};
    var byClient := ix.centroSubs[h] - {c};
    var centroSubs := if byClient == map[] then ix.centroSubs - {h} else ix.centroSubs[h := byClient];
    Index(if left == map[] then centroSubs else ix.centroSubs, ix.maps[m := ix.maps[m].(wrappers := left)], ix.made)
  }

  lemma UnsubOne(ix: Index, h: Handler, c: ClientId, t: Topic)
    requires IndexOk(ix) && h in ix.centroSubs && c in ix.centroSubs[h]
    requires ix.centroSubs[h][c] < |ix.maps| && t in ix.maps[ix.centroSubs[h][c]].wrappers
    ensures Without(ix, {ix.maps[ix.centroSubs[h][c]].wrappers[t]}) == TakenOut(ix, h, c, t)
  {
    var m := ix.centroSubs[h][c];
    assert Reaches(ix, h, c, m);
    UnsubMaps(ix, m, t);
    UnsubHeld(ix, ix.maps[m := ix.maps[m].(wrappers := ix.maps[m].wrappers - {t})], h, c);
  }

  lemma WrappersOfOne(topics: map<Topic, set<WrapperId>>, t: Topic)
    ensures WrappersOf(topics, {t}) == if t in topics then topics[t] else {}
  {
  }

  lemma WrappersOfBoth(topics: map<Topic, set<WrapperId>>, a: set<Topic>, b: set<Topic>)
    ensures WrappersOf(topics, a) + WrappersOf(topics - a, b) == WrappersOf(topics, a + b)
  {
    forall w | w in WrappersOf(topics, a + b) ensures w in WrappersOf(topics, a) + WrappersOf(topics - a, b) {
      var t :| t in topics && t in a + b && w in topics[t];
      if t in a { assert w in WrappersOf(topics, a); } else { assert t in topics - a && w in (topics - a)[t]; }
    }
  }

  lemma TopicsTwice(s: State, c: ClientId, a: set<Topic>, b: set<Topic>)
    requires c in s.subs
    ensures WithoutTopics(WithoutTopics(s, c, a), c, b) == WithoutTopics(s, c, a + b)
  {
    var topics := s.subs[c];
    WrappersOfBoth(topics, a, b);
    assert topics - a - b == topics - (a + b);
    WithoutTwice(s.index, WrappersOf(topics, a), WrappersOf(topics - a, b));
  }

  lemma NoTopics(s: State, c: ClientId)
    requires IndexOk(s.index) && c in s.subs
    ensures WithoutTopics(s, c, {}) == s
  {
    NothingGone(s.index);
    assert WrappersOf(s.subs[c], {}) == {};
    assert s.subs[c] - {} == s.subs[c];
  }

  predicate AllFor(ix: Index, c: ClientId, t: Topic, ws: set<WrapperId>) {
    forall w :: w in ws ==> Delivers(ix, w) && IsFor(ix, c, t, w)
  }

  // While some wrappers of a topic are gone, each of the others is still found.
  lemma StillFound(ix: Index, gone: set<WrapperId>, w: WrapperId, c: ClientId, t: Topic)
    requires IndexOk(ix) && Delivers(ix, w) && IsFor(ix, c, t, w) && w !in gone
    ensures WrapperFor(Without(ix, gone), ix.made[w].handler, c, t) == Some(w)
  {
    FoundDelivers(ix, w, ix.made[w].handler, c, t);
    WithoutFor(ix, gone, ix.made[w].handler, c, t);
  }

  lemma OneWrapperMore(ix: Index, ws: set<WrapperId>, todo: set<WrapperId>, w: WrapperId)
    requires w in todo && todo <= ws
    ensures Without(Without(ix, ws - todo), {w}) == Without(ix, ws - (todo - {w}))
  {
    WithoutTwice(ix, ws - todo, {w});
    assert ws - todo + {w} == ws - (todo - {w});
  }

  // The call a client makes, once the topic is expanded and prefixed.
  function Unsubscribing(c: ClientId, prefix: string, topic: Option<string>, handler: Option<Handler>, self: string)
    : Event
  {
    if topic.None? then UnsubscribeAll(c, prefix)
    else
      var t := TopicRewrite.Sent(prefix, topic.value, self);
      if handler.None? then UnsubscribeTopic(c, t) else Event.Unsubscribe(c, t, handler.value)
  }

  // The topics and handlers that such a call is about: all under the prefix, one topic, or one handler of it.
  predicate Concerns(prefix: string, topic: Option<string>, handler: Option<Handler>, self: string, t: Topic,
                     h: Handler)
  {
    && (if topic.None? then prefix <= t else t == TopicRewrite.Sent(prefix, topic.value, self))
    && (handler.Some? ==> h == handler.value)
  }

  lemma UnsubscribedExactly(s: State, c: ClientId, prefix: string, topic: Option<string>, handler: Option<Handler>,
                            self: string)
    requires Inv(s) && c in s.subs && (topic.None? ==> handler.None?)
    ensures var s' := Step(s, Unsubscribing(c, prefix, topic, handler, self));
      forall c', t, h ::
        Has(s', c', t, h) <==> Has(s, c', t, h) && !(c' == c && Concerns(prefix, topic, handler, self, t, h))
  {
    var e := Unsubscribing(c, prefix, topic, handler, self);
    hide Step, Has;
    forall c', t, h
      ensures Has(Step(s, e), c', t, h) <==>
        Has(s, c', t, h) && !(c' == c && Concerns(prefix, topic, handler, self, t, h))
    {
      StepHas(s, e, c', t, h);
    }
  }

  lemma SubscribedExactly(s: State, c: ClientId, n: nat, t: Topic, h: Handler)
    requires Inv(s) && c in s.subs
    ensures forall c', t', h' ::
      Has(Step(s, Event.Subscribe(c, n, t, h)), c', t', h') <==>
      Has(s, c', t', h') || (c' == c && t' == t && h' == h)
  {
    hide Step, Has;
    forall c', t', h'
      ensures Has(Step(s, Event.Subscribe(c, n, t, h)), c', t', h') <==>
        Has(s, c', t', h') || (c' == c && t' == t && h' == h)
    {
      SubscribeHas(s, c, n, t, h, c', t', h');
    }
  }

  // Each wrapper has the number of a token of its client, under whose prefix its topic is.
  predicate PrefixesOk(ix: Index, handshakes: map<ClientId, Handshake>) {
    forall w {:trigger ix.made[w]} :: 0 <= w < |ix.made| ==> PrefixOk(ix, handshakes, ix.made[w])
  }

  predicate PrefixOk(ix: Index, handshakes: map<ClientId, Handshake>, x: Wrapper) {
    && x.handlers < |ix.maps|
    && var c := ix.maps[x.handlers].on;
    && c in handshakes && x.n < |handshakes[c].prefixes| && handshakes[c].prefixes[x.n] <= x.topic
  }

  lemma WithoutPrefixes(ix: Index, gone: set<WrapperId>, handshakes: map<ClientId, Handshake>)
    requires PrefixesOk(ix, handshakes)
    ensures PrefixesOk(Without(ix, gone), handshakes)
  {
    var ix' := Without(ix, gone);
    forall w | 0 <= w < |ix'.made| ensures PrefixOk(ix', handshakes, ix'.made[w]) {
      assert PrefixOk(ix, handshakes, ix.made[w]);
    }
  }

  lemma SubscribePrefixes(ix: Index, h: Handler, c: ClientId, t: Topic, n: nat, handshakes: map<ClientId, Handshake>)
    requires IndexOk(ix) && PrefixesOk(ix, handshakes)
    requires c in handshakes && n < |handshakes[c].prefixes| && handshakes[c].prefixes[n] <= t
    ensures HasMap(WithMap(ix, h, c), h, c)
    ensures PrefixesOk(WithWrapper(WithMap(ix, h, c), h, c, t, n), handshakes)
  {
    MapLinked(ix, h, c);
    var ix1 := WithMap(ix, h, c);
    WrapperLinked(ix1, h, c, t, n);
    var ix2 := WithWrapper(ix1, h, c, t, n);
    assert Reaches(ix1, h, c, ix1.centroSubs[h][c]);
    forall w | 0 <= w < |ix2.made| ensures PrefixOk(ix2, handshakes, ix2.made[w]) {
      if w < |ix.made| { assert PrefixOk(ix, handshakes, ix.made[w]); }
    }
  }

  lemma UnsubscribePrefixes(s: State, e: Event, handshakes: map<ClientId, Handshake>)
    requires Inv(s) && Enabled(s, e) && (e.Unsubscribe? || e.UnsubscribeTopic? || e.UnsubscribeAll?)
    requires PrefixesOk(s.index, handshakes)
    ensures PrefixesOk(Step(s, e).index, handshakes)
  {
    match e
    case Unsubscribe(c, t, h) =>
      var w := WrapperFor(s.index, h, c, t);
      WithoutPrefixes(s.index, if w.Some? then {w.value} else {}, handshakes);
    case UnsubscribeTopic(c, t) => WithoutPrefixes(s.index, WrappersOf(s.subs[c], {t}), handshakes);
    case UnsubscribeAll(c, prefix) =>
      WithoutPrefixes(s.index, WrappersOf(s.subs[c], Under(s.subs[c], prefix)), handshakes);
  }

  class CentroClients {
    var centroSubs: map<Handler, map<ClientId, MapId>>
    var maps: seq<Handlers>
    var made: seq<Wrapper>
    var subs: Subs
    var handshakes: map<ClientId, Handshake>

    ghost function Links(): Index reads this { Index(centroSubs, maps, made) }

    ghost function Contents(): State reads this { State(Links(), subs) }

    ghost predicate Valid() reads this {
      Inv(Contents()) && handshakes.Keys == subs.Keys && PrefixesOk(Links(), handshakes)
    }

    constructor ()
      ensures Valid() && Contents() == START
    {
      centroSubs, maps, made, subs, handshakes := map[], [], [], map[], map[];
    }

    method NoSubscribers(prefixes: seq<string>, subscriptions: seq<set<string>>)
      returns (topics: map<Topic, set<WrapperId>>)
      requires |subscriptions| <= |prefixes|
      ensures topics == NoHandlers(Presubscribed(prefixes, subscriptions))
    {
      topics := NoHandlers({});
      for i := 0 to |subscriptions|
        invariant topics == NoHandlers(Presubscribed(prefixes, subscriptions[..i]))
      {
        assert subscriptions[..i + 1][..i] == subscriptions[..i];
        ghost var before := Presubscribed(prefixes, subscriptions[..i]);
        var todo, done := subscriptions[i], {};
        while todo != {}
          invariant done + todo == subscriptions[i] && done !! todo
          invariant topics == NoHandlers(before + Prefixed(prefixes[i], done))
        {
          var t :| t in todo;
          OneMore(before + Prefixed(prefixes[i], done), prefixes[i] + t);
          OneTopicMore(before, prefixes[i], done, t);
          topics := topics[prefixes[i] + t := {}];
          todo, done := todo - {t}, done + {t};
        }
        assert done == subscriptions[i];
      }
      assert subscriptions[..|subscriptions|] == subscriptions;
    }

    method OnHandshake(c: ClientId, hs: Handshake, subscriptions: seq<set<string>>)
      requires Valid() && c !in subs && |subscriptions| <= |hs.prefixes|
      modifies this`subs, this`handshakes
      ensures Valid() && handshakes == old(handshakes)[c := hs]
      ensures Contents() == Step(old(Contents()), Connect(c, Presubscribed(hs.prefixes, subscriptions)))
      ensures subs.Keys == old(subs).Keys + {c} && forall c' :: c' in old(subs) ==> subs[c'] == old(subs)[c']
      ensures forall t :: t in subs[c] ==> subs[c][t] == {}
      ensures forall t :: t in subs[c] <==>
        exists i, s :: 0 <= i < |subscriptions| && s in subscriptions[i] && t == hs.prefixes[i] + s
    {
      forall t
        ensures t in Presubscribed(hs.prefixes, subscriptions) <==>
          exists i, s :: 0 <= i < |subscriptions| && s in subscriptions[i] && t == hs.prefixes[i] + s
      {
        PresubscribedExactly(hs.prefixes, subscriptions, t);
      }
      ConnectInv(Contents(), c, Presubscribed(hs.prefixes, subscriptions));
      var topics := NoSubscribers(hs.prefixes, subscriptions);
      subs, handshakes := subs[c := topics], handshakes[c := hs];
      forall w | 0 <= w < |made| ensures PrefixOk(Links(), handshakes, made[w]) {
        assert PrefixOk(old(Links()), old(handshakes), made[w]);
      }
    }

    method OrigSubscribe(c: ClientId, t: Topic, w: WrapperId)
      requires c in subs
      modifies this`subs
      ensures subs == Added(old(subs), c, t, w)
    {
      var topics := subs[c];
      if t !in topics { topics := topics[t := {}]; }
      topics := topics[t := topics[t] + {w}];
      assert topics == old(subs[c])[t := (if t in old(subs[c]) then old(subs[c])[t] else {}) + {w}];
      subs := subs[c := topics];
    }

    // With no handler given, mqlobber lets go of the topic.
    method OrigUnsubscribe(c: ClientId, t: Topic, handler: Option<Option<WrapperId>>)
      requires c in subs
      modifies this`subs
      ensures subs == match handler
        case None => old(subs)[c := old(subs)[c] - {t}]
        case Some(w) => Removed(old(subs), c, t, if w.Some? then {w.value} else {})
    {
      match handler
      case None => subs := subs[c := subs[c] - {t}];
      case Some(w) =>
        var topics := subs[c];
        if t in topics {
          var left := if w.Some? then topics[t] - {w.value} else topics[t];
          assert left == topics[t] - if w.Some? then {w.value} else {};
          subs := subs[c := if left == {} then topics - {t} else topics[t := left]];
        }
    }

    method HandlersFor(c: ClientId, h: Handler)
      modifies this`centroSubs, this`maps
      ensures Links() == WithMap(old(Links()), h, c)
    {
      var byClient: map<ClientId, MapId> := if h in centroSubs then centroSubs[h] else map[];
      if c !in byClient {
        byClient := byClient[c := |maps|];
        maps := maps + [Handlers(h, c, map[])];
        centroSubs := centroSubs[h := byClient];
      }
    }

    method Handler2For(c: ClientId, h: Handler, t: Topic, n: nat) returns (handler2: WrapperId)
      requires h in centroSubs && c in centroSubs[h] && centroSubs[h][c] < |maps|
      modifies this`maps, this`made
      ensures Links() == WithWrapper(old(Links()), h, c, t, n)
      ensures WrapperFor(Links(), h, c, t) == Some(handler2)
    {
      var m := centroSubs[h][c];
      if t in maps[m].wrappers { return maps[m].wrappers[t]; }
      handler2 := |made|;
      made := made + [Wrapper(h, m, t, n)];
      maps := maps[m := maps[m].(wrappers := maps[m].wrappers[t := handler2])];
    }

    method SubscribeTo(c: ClientId, n: nat, t: Topic, h: Handler)
      requires Inv(Contents()) && c in subs
      modifies this`centroSubs, this`maps, this`made, this`subs
      ensures Contents() == Step(old(Contents()), Event.Subscribe(c, n, t, h))
    {
      MapLinked(Links(), h, c);
      HandlersFor(c, h);
      WrapperLinked(Links(), h, c, t, n);
      var handler2 := Handler2For(c, h, t, n);
      OrigSubscribe(c, t, handler2);
    }

    method Subscribe(c: ClientId, n: nat, topic: string, h: Handler) returns (ok: bool)
      requires Valid() && c in subs
      modifies this`centroSubs, this`maps, this`made, this`subs
      ensures Valid() && (ok <==> n < |handshakes[c].prefixes|)
      ensures Contents() ==
        if ok then
          var t := TopicRewrite.Sent(handshakes[c].prefixes[n], topic, handshakes[c].self);
          Step(old(Contents()), Event.Subscribe(c, n, t, h))
        else old(Contents())
      ensures ok ==> forall c', t', h' ::
        Has(Contents(), c', t', h') <==>
        Has(old(Contents()), c', t', h') ||
        (c' == c && t' == TopicRewrite.Sent(handshakes[c].prefixes[n], topic, handshakes[c].self) && h' == h)
    {
      if n >= |handshakes[c].prefixes| { return false; }
      var t := TopicRewrite.Sent(handshakes[c].prefixes[n], topic, handshakes[c].self);
      hide Has;
      SubscribedExactly(Contents(), c, n, t, h);
      SubscribeInv(Contents(), c, n, t, h);
      SubscribePrefixes(Links(), h, c, t, n, handshakes);
      SubscribeTo(c, n, t, h);
      return true;
    }

    method Unsub(c: ClientId, t: Topic, h: Handler) returns (h2: Option<WrapperId>)
      requires IndexOk(Links())
      modifies this`centroSubs, this`maps
      ensures h2 == WrapperFor(old(Links()), h, c, t)
      ensures Links() == Without(old(Links()), if h2.Some? then {h2.value} else {})
    {
      NothingGone(Links());
      IndexReaches(Links());
      hide IndexOk, Without, TakenOut;
      if h !in centroSubs { return None; }
      if c !in centroSubs[h] { return None; }
      var m := centroSubs[h][c];
      assert Reaches(Links(), h, c, m);
      if t !in maps[m].wrappers { return None; }
      h2 := Some(maps[m].wrappers[t]);
      UnsubOne(Links(), h, c, t);
      TakeOut(c, t, h);
    }

    method TakeOut(c: ClientId, t: Topic, h: Handler)
      requires h in centroSubs && c in centroSubs[h] && centroSubs[h][c] < |maps|
      modifies this`centroSubs, this`maps
      ensures Links() == TakenOut(old(Links()), h, c, t)
    {
      var m := centroSubs[h][c];
      var left := maps[m].wrappers - {t};
      maps := maps[m := maps[m].(wrappers := left)];
      if left == map[] {
        var byClient := centroSubs[h] - {c};
        centroSubs := if byClient == map[] then centroSubs - {h} else centroSubs[h := byClient];
      }
    }

    method UnsubEach(c: ClientId, t: Topic, hs: set<WrapperId>)
      requires IndexOk(Links()) && AllFor(Links(), c, t, hs)
      modifies this`centroSubs, this`maps
      ensures Links() == Without(old(Links()), hs)
    {
      ghost var ix := Links();
      NothingGone(ix);
      var todo := hs;
      assert hs - todo == {};
      while todo != {}
        invariant todo <= hs && Links() == Without(ix, hs - todo)
      {
        var w :| w in todo;
        OneWrapperMore(ix, hs, todo, w);
        StillFound(ix, hs - todo, w, c, t);
        WithoutOk(ix, hs - todo);
        var h2 := Unsub(c, t, made[w].handler);
        todo := todo - {w};
      }
      assert hs - todo == hs;
    }

    method UnsubscribeFromTopic(c: ClientId, t: Topic)
      requires Inv(Contents()) && c in subs
      modifies this`centroSubs, this`maps, this`subs
      ensures Contents() == WithoutTopics(old(Contents()), c, {t})
    {
      WrappersOfOne(subs[c], t);
      if t in subs[c] {
        assert forall w :: w in subs[c][t] ==> Subscribed(subs, c, t, w);
        UnsubEach(c, t, subs[c][t]);
      } else {
        NothingGone(Links());
      }
      OrigUnsubscribe(c, t, None);
    }

    // One turn of the series that unsubscribes from everything, whatever ran since the one before.
    method UnsubscribeTurn(v: Series, t: Topic)
      requires Inv(Contents()) && ActEnabled(Contents(), v, Turn(t))
      modifies this`centroSubs, this`maps, this`subs
      ensures Contents() == ActStep(old(Contents()), v, Turn(t))
      ensures forall c', t', h ::
        Has(Contents(), c', t', h) <==> Has(old(Contents()), c', t', h) && !(c' == v.c && t' == t && v.prefix <= t)
    {
      TurnLeaves(Contents(), v, t);
      hide Has;
      if v.prefix <= t { UnsubscribeFromTopic(v.c, t); }
    }

    method UnsubscribeFromAll(c: ClientId, prefix: string)
      requires Inv(Contents()) && c in subs
      modifies this`centroSubs, this`maps, this`subs
      ensures Contents() == WithoutTopics(old(Contents()), c, Under(old(subs)[c], prefix))
    {
      NoTopics(Contents(), c);
      var todo := subs[c].Keys;
      ghost var done: set<Topic> := {};
      while todo != {}
        invariant todo <= old(subs)[c].Keys && done == Under(old(subs)[c], prefix) - todo
        invariant Contents() == WithoutTopics(old(Contents()), c, done)
      {
        var t :| t in todo;
        todo := todo - {t};
        if prefix <= t {
          WithoutTopicsInv(old(Contents()), c, done);
          TopicsTwice(old(Contents()), c, done, {t});
          UnsubscribeFromTopic(c, t);
          done := done + {t};
        }
      }
      assert done == Under(old(subs)[c], prefix);
    }

    method Unsubscribe(c: ClientId, n: nat, topic: Option<string>, handler: Option<Handler>) returns (ok: bool)
      requires Valid() && c in subs && (topic.None? ==> handler.None?)
      modifies this`centroSubs, this`maps, this`subs
      ensures Valid() && (ok <==> n < |handshakes[c].prefixes|)
      ensures Contents() ==
        if ok then
          var e := Unsubscribing(c, handshakes[c].prefixes[n], topic, handler, handshakes[c].self);
          Step(old(Contents()), e)
        else old(Contents())
      ensures ok ==> forall c', t, h ::
        Has(Contents(), c', t, h) <==>
        Has(old(Contents()), c', t, h) &&
        !(c' == c && Concerns(handshakes[c].prefixes[n], topic, handler, handshakes[c].self, t, h))
    {
      if n >= |handshakes[c].prefixes| { return false; }
      hide Has, Concerns;
      var prefix := handshakes[c].prefixes[n];
      UnsubscribedExactly(Contents(), c, prefix, topic, handler, handshakes[c].self);
      StepKeepsInv(Contents(), Unsubscribing(c, prefix, topic, handler, handshakes[c].self));
      UnsubscribePrefixes(Contents(), Unsubscribing(c, prefix, topic, handler, handshakes[c].self), handshakes);
      if topic.None? {
        UnsubscribeFromAll(c, prefix);
      } else {
        var t := TopicRewrite.Sent(prefix, topic.value, handshakes[c].self);
        if handler.None? {
          UnsubscribeFromTopic(c, t);
        } else {
          var h2 := Unsub(c, t, handler.value);
          OrigUnsubscribe(c, t, Some(h2));
        }
      }
      return true;
    }

    // `handler2`: the topic its handler is called with, if it is called.
    method Deliver(w: WrapperId, infoTopic: string) returns (topic: Option<string>)
      requires Valid() && w < |made|
      ensures made[w].handlers < |maps|
      ensures topic.Some? <==> exists c, t :: Subscribed(subs, c, t, w)
      ensures var c := maps[made[w].handlers].on;
        && c in handshakes && made[w].n < |handshakes[c].prefixes|
        && handshakes[c].prefixes[made[w].n] <= made[w].topic
        && (topic.Some? ==>
              topic.value == TopicRewrite.Received(handshakes[c].prefixes[made[w].n], infoTopic, handshakes[c].self))
    {
      assert PrefixOk(Links(), handshakes, made[w]);
      var x := made[w];
      var hs := handshakes[maps[x.handlers].on];
      if x.topic in maps[x.handlers].wrappers && maps[x.handlers].wrappers[x.topic] == w {
        assert Delivers(Links(), w) && Subscribed(subs, maps[x.handlers].on, x.topic, w);
        return Some(TopicRewrite.Contract(TopicRewrite.Drop(infoTopic, |hs.prefixes[x.n]|), hs.self));
      }
      return None;
    }
  }
}
