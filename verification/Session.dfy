/** lib/server.js: the maps a connection's handshakes fill, and the topics it is subscribed to and published for. */
module Session {
  import opened Wrappers
  import opened TopicRewrite
  import opened Isolation
  import opened Access

  function PresenceOn(env: Env, id: string, presence: map<string, Presence>, key: string, connecting: bool): string
    requires key in presence
  {
    PresenceTopic(env, id, key, if connecting then presence[key].connect else presence[key].disconnect)
  }

  lemma PresenceAnnounced(env: Env, c: Conn, key: string, connecting: bool)
    requires key in Presences(env, c.tokens)
    ensures Announces(env, c, PresenceOn(env, c.id, Presences(env, c.tokens), key, connecting))
  {
  }

  ghost predicate IsEntry(env: Env, c: Conn, connecting: bool, key: string, topic: string) {
    key in Presences(env, c.tokens) && topic == PresenceOn(env, c.id, Presences(env, c.tokens), key, connecting)
  }

  // The messages for the entries of the map are those for the tokens that give them.
  lemma EntryOfToken(env: Env, c: Conn, connecting: bool, key: string, topic: string)
    requires IsEntry(env, c, connecting, key, topic)
    ensures exists i: nat :: IsPresence(env, c, i, connecting, topic)
  {
    hide Presences, Expand, GivesPresence;
    var i := PresenceGiver(env, c.tokens, key);
    assert IsPresence(env, c, i, connecting, topic);
  }

  lemma TokenOfEntry(env: Env, c: Conn, connecting: bool, i: nat, topic: string)
    requires IsPresence(env, c, i, connecting, topic)
    ensures i < |c.tokens| && IsEntry(env, c, connecting, Key(env, c.tokens[i]), topic)
  {
    hide Presences, Expand;
    PresenceKept(env, c.tokens, i);
  }

  lemma EntriesOfTokens(env: Env, c: Conn, connecting: bool, topic: string)
    ensures (exists key :: IsEntry(env, c, connecting, key, topic)) <==>
      exists i: nat :: IsPresence(env, c, i, connecting, topic)
  {
    hide IsEntry, IsPresence;
    if key :| IsEntry(env, c, connecting, key, topic) { EntryOfToken(env, c, connecting, key, topic); }
    if i: nat :| IsPresence(env, c, i, connecting, topic) { TokenOfEntry(env, c, connecting, i, topic); }
  }

  lemma TopicsAreListed(env: Env, c: Conn, of: Token -> seq<string>)
    ensures forall pattern :: pattern in Topics(env, c, of) <==> Listed(env, c.id, c.tokens, of, pattern)
  {
    hide TopicsOf, Listed;
    forall pattern ensures pattern in Topics(env, c, of) <==> Listed(env, c.id, c.tokens, of, pattern) {
      TopicsListed(env, c.id, c.tokens, of, pattern);
    }
  }

  // What one more token adds to the two maps.
  lemma OneMoreToken(env: Env, tokens: seq<Token>, t: Token)
    ensures var acks, all := AckPrefixes(env, tokens), tokens + [t];
      AckPrefixes(env, all) == if t.ack.Some? then acks[Key(env, t) := t.ack.value] else acks
    ensures var entries, all := Presences(env, tokens), tokens + [t];
      Presences(env, all) == if t.presence.Some? then entries[Key(env, t) := t.presence.value] else entries
  {
    assert (tokens + [t])[..|tokens|] == tokens;
  }

  class Handshakes {
    const env: Env
    const connid: string
    var handshakes: seq<Token>
    var ackPrefixes: map<string, string>
    var presence: map<string, Presence>
    var subscriptions: set<string>
    var published: seq<string>

    ghost function Contents(): Conn reads this { Conn(connid, handshakes) }

    ghost predicate Valid() reads this {
      ackPrefixes == AckPrefixes(env, handshakes) && presence == Presences(env, handshakes)
    }

    constructor (e: Env, id: string)
      ensures Valid() && env == e && connid == id && handshakes == [] && subscriptions == {} && published == []
    {
      env, connid, handshakes, ackPrefixes, presence, subscriptions, published := e, id, [], map[], map[], {}, [];
    }

    method ProcessHandshake(hs: Token)
      requires Valid()
      modifies this`handshakes, this`ackPrefixes, this`presence
      ensures Valid() && handshakes == old(handshakes) + [hs]
    {
      hide AckPrefixes, Presences;
      OneMoreToken(env, handshakes, hs);
      var prefix := if env.privileged then "" else env.hash(hs.iss);
      if hs.ack.Some? { ackPrefixes := ackPrefixes[prefix := hs.ack.value]; }
      if hs.presence.Some? { presence := presence[prefix := hs.presence.value]; }
      handshakes := handshakes + [hs];
    }

    // The loops that subscribe a connection to the topics its tokens list.
    method Presubscribe()
      requires Valid() && subscriptions == {}
      modifies this`subscriptions
      ensures forall pattern :: pattern in subscriptions <==>
        pattern in Topics(env, Contents(), (t: Token) => t.subscriptions)
      ensures forall pattern :: pattern in subscriptions <==>
        Listed(env, connid, handshakes, (t: Token) => t.subscriptions, pattern)
    {
      hide AckPrefixes, Presences;
      ghost var of := (t: Token) => t.subscriptions;
      for i := 0 to |handshakes|
        invariant forall p :: p in subscriptions <==> p in TopicsOf(env, connid, handshakes[..i], of)
      {
        var hs := handshakes[i];
        assert handshakes[..i + 1][..i] == handshakes[..i];
        ghost var before := subscriptions;
        ghost var sents := Sents(Prefix(env, hs), hs.subscriptions, connid);
        for j := 0 to |hs.subscriptions|
          invariant forall p :: p in subscriptions <==> p in before || p in sents[..j]
        {
          subscriptions := subscriptions + {Sent(Prefix(env, hs), hs.subscriptions[j], connid)};
          assert sents[..j + 1] == sents[..j] + [sents[j]];
        }
        assert sents[..|sents|] == sents;
      }
      assert handshakes[..|handshakes|] == handshakes;
      TopicsAreListed(env, Contents(), of);
    }

    method AckFor(topic: string) returns (r: Option<string>)
      requires Valid()
      ensures r == AckTopic(env, connid, AckPrefixes(env, handshakes), topic)
    {
      hide AckPrefixes, Presences, IndexOf, Expand;
      var pos, prefix := -1, "";
      if !env.privileged {
        pos := IndexOf(topic, env.sx.separator);
      }
      if pos >= 0 {
        prefix := topic[..pos];
      }
      if prefix !in ackPrefixes {
        return None;
      }
      var ackPrefix := ackPrefixes[prefix];
      if !env.privileged {
        prefix := prefix + [env.sx.separator];
      }
      return Some(prefix + Expand(ackPrefix, connid) + topic[pos + 1..]);
    }

    method OnAck(topic: string) returns (known: bool)
      requires Valid()
      modifies this`published
      ensures var r := AckTopic(env, connid, AckPrefixes(env, handshakes), topic);
        known == r.Some? && published == old(published) + if r.Some? then [r.value] else []
    {
      var ack := AckFor(topic);
      if ack.None? { return false; }
      published := published + [ack.value];
      return true;
    }

    // On connection and on disconnection: one message for each entry, which is the last its issuer's tokens give.
    method Announce(connecting: bool)
      requires Valid()
      modifies this`published
      ensures old(published) <= published && |published| == |old(published)| + |presence|
      ensures forall topic :: topic in published[|old(published)|..] <==>
        exists i: nat :: IsPresence(env, Contents(), i, connecting, topic)
      ensures forall i :: |old(published)| <= i < |published| ==> Announces(env, Contents(), published[i])
    {
      hide PresenceOn, IsPresence, Announces;
      ghost var before, c := |published|, Contents();
      var todo := presence.Keys;
      while todo != {}
        invariant todo <= presence.Keys && old(published) <= published
        invariant |published| + |todo| == before + |presence|
        invariant forall topic :: topic in published[before..] <==>
          exists key :: key !in todo && IsEntry(env, c, connecting, key, topic)
      {
        var key :| key in todo;
        ghost var was := published;
        PublishPresence(key, connecting);
        assert published[before..] == was[before..] + [PresenceOn(env, connid, presence, key, connecting)];
        todo := todo - {key};
      }
      forall topic ensures topic in published[before..] <==> exists i: nat :: IsPresence(env, c, i, connecting, topic) {
        EntriesOfTokens(env, c, connecting, topic);
        if key :| IsEntry(env, c, connecting, key, topic) { assert key !in todo; }
      }
      assert Contents() == c;
      forall i | before <= i < |published| ensures Announces(env, c, published[i]) {
        assert published[i] in published[before..];
        var key :| IsEntry(env, c, connecting, key, published[i]);
        PresenceAnnounced(env, c, key, connecting);
      }
    }

    method PublishPresence(key: string, connecting: bool)
      requires key in presence
      modifies this`published
      ensures published == old(published) + [PresenceOn(env, connid, presence, key, connecting)]
    {
      var prefix := key;
      if !env.privileged { prefix := prefix + [env.sx.separator]; }
      var topic := if connecting then presence[key].connect else presence[key].disconnect;
      published := published + [prefix + Expand(topic, connid)];
    }
  }
}
