/** lib/server.js: the access rules of a connection, said of its tokens one by one, and what its patterns match. */
module Access {
  import opened Wrappers
  import opened TopicRewrite
  import opened Isolation

  // ---- The topics its tokens list ----

  // A topic as a token writes it, under the token's issuer and for this connection.
  predicate Becomes(env: Env, id: string, t: Token, written: string, topic: string) {
    topic == (if env.privileged then "" else env.hash(t.iss) + [env.sx.separator]) + Expand(written, id)
  }

  predicate ListedBy(env: Env, id: string, t: Token, topics: seq<string>, topic: string) {
    exists k :: 0 <= k < |topics| && Becomes(env, id, t, topics[k], topic)
  }

  // A claim of some token lists the topic.
  predicate Listed(env: Env, id: string, tokens: seq<Token>, of: Token -> seq<string>, topic: string) {
    exists i :: 0 <= i < |tokens| && ListedBy(env, id, tokens[i], of(tokens[i]), topic)
  }

  lemma SentsListed(env: Env, id: string, t: Token, topics: seq<string>, topic: string)
    ensures topic in Sents(Prefix(env, t), topics, id) <==> ListedBy(env, id, t, topics, topic)
  {
    var sents := Sents(Prefix(env, t), topics, id);
    if k :| 0 <= k < |topics| && Becomes(env, id, t, topics[k], topic) { assert sents[k] == topic; }
    if k :| 0 <= k < |sents| && sents[k] == topic { assert Becomes(env, id, t, topics[k], topic); }
  }

  /** The topics of a claim are exactly those that some token lists, each under its own issuer's hash, or under nothing
      where the connection is privileged. */
  lemma {:induction false} TopicsListed(env: Env, id: string, tokens: seq<Token>, of: Token -> seq<string>,
                                        topic: string)
    ensures topic in TopicsOf(env, id, tokens, of) <==> Listed(env, id, tokens, of, topic)
    decreases |tokens|
  {
    hide ListedBy;
    if tokens != [] {
      var n := |tokens| - 1;
      TopicsListed(env, id, tokens[..n], of, topic);
      SentsListed(env, id, tokens[n], of(tokens[n]), topic);
      assert forall i :: 0 <= i < n ==> tokens[..n][i] == tokens[i];
    }
  }

  ghost predicate Matched(env: Env, c: Conn, of: Token -> seq<string>, topic: string) {
    exists p :: Listed(env, c.id, c.tokens, of, p) && Matches(p, topic, env.sx)
  }

  lemma MatchedBy(env: Env, c: Conn, of: Token -> seq<string>, topic: string)
    ensures MatchesAny(Topics(env, c, of), topic, env.sx) <==> Matched(env, c, of, topic)
  {
    hide TopicsOf, Listed;
    var patterns := Topics(env, c, of);
    if i :| 0 <= i < |patterns| && Matches(patterns[i], topic, env.sx) {
      TopicsListed(env, c.id, c.tokens, of, patterns[i]);
    }
    if p :| Listed(env, c.id, c.tokens, of, p) && Matches(p, topic, env.sx) {
      TopicsListed(env, c.id, c.tokens, of, p);
      assert p in patterns;
    }
  }

  /** A connection may use a topic exactly when some token's allowed pattern matches it and no token's disallowed one
      does; a blocked topic is one that some token's blocked pattern matches; and what it is subscribed to from the
      start is what its tokens list. */
  lemma AccessRules(env: Env, c: Conn, topic: string)
    ensures MayPublish(env, c, topic) <==>
      && Matched(env, c, (t: Token) => t.publish.allow, topic)
      && !Matched(env, c, (t: Token) => t.publish.disallow, topic)
    ensures MaySubscribe(env, c, topic) <==>
      && Matched(env, c, (t: Token) => t.subscribe.allow, topic)
      && !Matched(env, c, (t: Token) => t.subscribe.disallow, topic)
    ensures Blocked(env, c, topic) <==> Matched(env, c, (t: Token) => t.block, topic)
    ensures MayHold(env, c, topic) <==>
      MaySubscribe(env, c, topic) || Listed(env, c.id, c.tokens, (t: Token) => t.subscriptions, topic)
  {
    hide Matched, MatchesAny, Topics, TopicsOf, Listed;
    MatchedBy(env, c, (t: Token) => t.publish.allow, topic);
    MatchedBy(env, c, (t: Token) => t.publish.disallow, topic);
    MatchedBy(env, c, (t: Token) => t.subscribe.allow, topic);
    MatchedBy(env, c, (t: Token) => t.subscribe.disallow, topic);
    MatchedBy(env, c, (t: Token) => t.block, topic);
    HeldListed(env, c, topic);
  }

  lemma HeldListed(env: Env, c: Conn, topic: string)
    ensures topic in Topics(env, c, (t: Token) => t.subscriptions) <==>
      Listed(env, c.id, c.tokens, (t: Token) => t.subscriptions, topic)
  {
    hide Listed, TopicsOf;
    TopicsListed(env, c.id, c.tokens, (t: Token) => t.subscriptions, topic);
  }

  // ---- What a pattern matches ----

  // Word by word, a literal word or the wildcard for one.
  predicate Fits(pattern: seq<string>, topic: seq<string>, sx: Syntax) {
    |pattern| <= |topic| && forall i :: 0 <= i < |pattern| ==> pattern[i] == sx.one || pattern[i] == topic[i]
  }

  lemma {:induction false} MatchSplit(a: seq<string>, rest: seq<string>, topic: seq<string>, sx: Syntax)
    requires sx.some !in a
    ensures Match(a + rest, topic, sx) <==> Fits(a, topic, sx) && Match(rest, topic[|a|..], sx)
    decreases |a|
  {
    if a == [] {
      assert a + rest == rest && topic[0..] == topic;
    } else {
      assert (a + rest)[1..] == a[1..] + rest;
      if topic != [] { MatchSplit(a[1..], rest, topic[1..], sx); }
      if |a| <= |topic| {
        assert topic[1..][|a| - 1..] == topic[|a|..];
        assert forall i :: 0 < i < |a| ==> a[i] == a[1..][i - 1] && topic[i] == topic[1..][i - 1];
        assert forall i :: 0 <= i < |a| - 1 ==> a[1..][i] == a[i + 1] && topic[1..][i] == topic[i + 1];
      }
    }
  }

  /** A pattern without the second wildcard matches the topics of as many words that fit word by word; one with it,
      those whose first words fit what stands before it, followed by any words and then what the rest matches. */
  lemma MatchMeans(a: seq<string>, rest: seq<string>, topic: seq<string>, sx: Syntax)
    requires sx.some !in a
    ensures Match(a, topic, sx) <==> |a| == |topic| && Fits(a, topic, sx)
    ensures Match(a + ([sx.some] + rest), topic, sx) <==>
      Fits(a, topic, sx) && exists k :: |a| <= k <= |topic| && Match(rest, topic[k..], sx)
  {
    MatchSplit(a, [], topic, sx);
    assert a + [] == a;
    MatchSplit(a, [sx.some] + rest, topic, sx);
    if |a| <= |topic| {
      var tail := topic[|a|..];
      SomeWords(rest, tail, sx);
      if k :| 0 <= k <= |tail| && Match(rest, tail[k..], sx) { assert tail[k..] == topic[|a| + k..]; }
      if k :| |a| <= k <= |topic| && Match(rest, topic[k..], sx) { assert tail[k - |a|..] == topic[k..]; }
    }
  }

  // ---- Acknowledgments of a privileged connection, and presence ----

  // The last token with an acknowledgment prefix.
  predicate LastAck(c: Conn, i: nat) {
    && i < |c.tokens| && c.tokens[i].ack.Some?
    && forall j :: i < j < |c.tokens| ==> c.tokens[j].ack.None?
  }

  /** Where the connection is privileged, every message is acknowledged, by the last token with an acknowledgment
      prefix, unless there is none. */
  lemma AckPrivileged(env: Env, c: Conn, info: string)
    requires env.privileged
    ensures var r := AckTopic(env, c.id, AckPrefixes(env, c.tokens), info);
      && (r.None? <==> forall i :: 0 <= i < |c.tokens| ==> c.tokens[i].ack.None?)
      && (r.Some? ==> exists i: nat :: LastAck(c, i) && r.value == Expand(c.tokens[i].ack.value, c.id) + info)
  {
    hide AckPrefixes, Expand, IndexOf;
    var acks := AckPrefixes(env, c.tokens);
    var r := AckTopic(env, c.id, acks, info);
    if r.Some? {
      var i := AckOwner(env, c.tokens, "");
      assert LastAck(c, i);
      assert info[-1 + 1..] == info && "" + Expand(acks[""], c.id) == Expand(acks[""], c.id);
    } else if i :| 0 <= i < |c.tokens| && c.tokens[i].ack.Some? {
      AckKept(env, c.tokens, i);
      assert false;
    }
  }

  // The last token with a presence entry for its issuer.
  predicate GivesPresence(env: Env, tokens: seq<Token>, i: nat) {
    && i < |tokens| && tokens[i].presence.Some?
    && forall j :: i < j < |tokens| && tokens[j].presence.Some? ==> Key(env, tokens[j]) != Key(env, tokens[i])
  }

  lemma {:induction false} PresenceGiver(env: Env, tokens: seq<Token>, key: string) returns (i: nat)
    requires key in Presences(env, tokens)
    ensures GivesPresence(env, tokens, i) && Key(env, tokens[i]) == key
    ensures Presences(env, tokens)[key] == tokens[i].presence.value
    decreases |tokens|
  {
    var n := |tokens| - 1;
    if tokens[n].presence.Some? && Key(env, tokens[n]) == key {
      i := n;
    } else {
      i := PresenceGiver(env, tokens[..n], key);
      assert forall j :: 0 <= j < n ==> tokens[..n][j] == tokens[j];
    }
  }

  lemma {:induction false} PresenceKept(env: Env, tokens: seq<Token>, i: nat)
    requires GivesPresence(env, tokens, i)
    ensures Key(env, tokens[i]) in Presences(env, tokens)
    ensures Presences(env, tokens)[Key(env, tokens[i])] == tokens[i].presence.value
    decreases |tokens|
  {
    var n := |tokens| - 1;
    if i < n {
      assert forall j :: 0 <= j < n ==> tokens[..n][j] == tokens[j];
      PresenceKept(env, tokens[..n], i);
    }
  }

  // A message for the token's entry, on connecting or disconnecting.
  predicate IsPresence(env: Env, c: Conn, i: nat, connecting: bool, topic: string) {
    && GivesPresence(env, c.tokens, i)
    && var p := c.tokens[i].presence.value;
    Becomes(env, c.id, c.tokens[i], if connecting then p.connect else p.disconnect, topic)
  }
}
