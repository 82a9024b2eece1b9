/** lib/server.js: the topics a connection's tokens let it publish and subscribe to, and those the server publishes on
    its behalf, all under a prefix made from the token's issuer. */
module Isolation {
  import opened Wrappers
  import opened Texts
  import opened TopicRewrite

  datatype Syntax = Syntax(separator: char, one: string, some: string)

  datatype Rules = Rules(allow: seq<string>, disallow: seq<string>)

  datatype Presence = Presence(connect: string, disconnect: string)

  datatype Token = Token(
    iss: string, publish: Rules, subscribe: Rules, block: seq<string>,
    subscriptions: seq<string>, ack: Option<string>, presence: Option<Presence>)

  datatype Conn = Conn(id: string, tokens: seq<Token>)

  // The hash of an issuer in hexadecimal, without the collisions SHA-256 is taken not to have.
  datatype Env = Env(privileged: bool, sx: Syntax, hash: string -> string)

  ghost predicate EnvOk(env: Env) {
    && (forall iss :: IssuerWord(env.hash(iss), env.sx))
    && (forall a, b :: env.hash(a) == env.hash(b) ==> a == b)
  }

  predicate IssuerWord(h: string, sx: Syntax) { h != "" && sx.separator !in h && h != sx.one && h != sx.some }

  // ---- Word matching: the wildcards stand for one word, and for any number of words ----

  predicate Match(pattern: seq<string>, topic: seq<string>, sx: Syntax)
    decreases |pattern| + |topic|
  {
    if pattern == [] then topic == []
    else if pattern[0] == sx.some then
      Match(pattern[1..], topic, sx) || (topic != [] && Match(pattern, topic[1..], sx))
    else topic != [] && (pattern[0] == sx.one || pattern[0] == topic[0]) && Match(pattern[1..], topic[1..], sx)
  }

  /** The second wildcard stands for any number of words. */
  lemma {:induction false} SomeWords(rest: seq<string>, topic: seq<string>, sx: Syntax)
    ensures Match([sx.some] + rest, topic, sx) <==> exists k :: 0 <= k <= |topic| && Match(rest, topic[k..], sx)
    decreases |topic|
  {
    assert ([sx.some] + rest)[1..] == rest && topic[0..] == topic;
    if topic != [] {
      SomeWords(rest, topic[1..], sx);
      assert forall k | 0 < k <= |topic| :: topic[k..] == topic[1..][k - 1..];
      assert forall k | 0 <= k < |topic| :: topic[1..][k..] == topic[k + 1..];
    }
  }

  predicate Matches(pattern: string, topic: string, sx: Syntax) {
    Match(Words(pattern, sx.separator), Words(topic, sx.separator), sx)
  }

  predicate MatchesAny(patterns: seq<string>, topic: string, sx: Syntax) {
    exists i :: 0 <= i < |patterns| && Matches(patterns[i], topic, sx)
  }

  // ---- What a connection may do ----

  function Key(env: Env, t: Token): string { if env.privileged then "" else env.hash(t.iss) }

  function Prefix(env: Env, t: Token): string { if env.privileged then "" else env.hash(t.iss) + [env.sx.separator] }

  function Sents(prefix: string, topics: seq<string>, id: string): seq<string> {
    seq(|topics|, i requires 0 <= i < |topics| => Sent(prefix, topics[i], id))
  }

  // The topics a claim lists, over all tokens.
  function TopicsOf(env: Env, id: string, tokens: seq<Token>, of: Token -> seq<string>): seq<string> {
    if tokens == [] then []
    else
      var t := tokens[|tokens| - 1];
      TopicsOf(env, id, tokens[..|tokens| - 1], of) + Sents(Prefix(env, t), of(t), id)
  }

  function Topics(env: Env, c: Conn, of: Token -> seq<string>): seq<string> { TopicsOf(env, c.id, c.tokens, of) }

  predicate MayPublish(env: Env, c: Conn, topic: string) {
    && MatchesAny(Topics(env, c, (t: Token) => t.publish.allow), topic, env.sx)
    && !MatchesAny(Topics(env, c, (t: Token) => t.publish.disallow), topic, env.sx)
  }

  predicate MaySubscribe(env: Env, c: Conn, pattern: string) {
    && MatchesAny(Topics(env, c, (t: Token) => t.subscribe.allow), pattern, env.sx)
    && !MatchesAny(Topics(env, c, (t: Token) => t.subscribe.disallow), pattern, env.sx)
  }

  predicate MayHold(env: Env, c: Conn, pattern: string) {
    MaySubscribe(env, c, pattern) || pattern in Topics(env, c, (t: Token) => t.subscriptions)
  }

  predicate Blocked(env: Env, c: Conn, topic: string) {
    MatchesAny(Topics(env, c, (t: Token) => t.block), topic, env.sx)
  }

  // ---- What the server publishes for a connection ----

  // Maps from issuer hash, filled token by token.
  function AckPrefixes(env: Env, tokens: seq<Token>): map<string, string> {
    if tokens == [] then map[]
    else
      var t := tokens[|tokens| - 1];
      var m := AckPrefixes(env, tokens[..|tokens| - 1]);
      if t.ack.Some? then m[Key(env, t) := t.ack.value] else m
  }

  function Presences(env: Env, tokens: seq<Token>): map<string, Presence> {
    if tokens == [] then map[]
    else
      var t := tokens[|tokens| - 1];
      var m := Presences(env, tokens[..|tokens| - 1]);
      if t.presence.Some? then m[Key(env, t) := t.presence.value] else m
  }

  function IndexOf(s: string, c: char): (pos: int)
    ensures pos >= -1
    ensures c !in s ==> pos == -1
    ensures c in s ==> 0 <= pos < |s| && s[pos] == c && c !in s[..pos]
  {
    if s == "" then -1
    else if s[0] == c then 0
    else
      var rest := IndexOf(s[1..], c);
      if rest < 0 then -1
      else
        assert s[..rest + 1] == [s[0]] + s[1..][..rest];
        rest + 1
  }

  // The topic acknowledging a message; none when its prefix has no entry.
  function AckTopic(env: Env, id: string, ackPrefixes: map<string, string>, topic: string): Option<string> {
    var pos := if env.privileged then -1 else IndexOf(topic, env.sx.separator);
    var prefix := if pos >= 0 then topic[..pos] else "";
    if prefix !in ackPrefixes then None
    else
      var full := if env.privileged then prefix else prefix + [env.sx.separator];
      Some(full + Expand(ackPrefixes[prefix], id) + topic[pos + 1..])
  }

  function PresenceTopic(env: Env, id: string, key: string, topic: string): string {
    (if env.privileged then key else key + [env.sx.separator]) + Expand(topic, id)
  }

  predicate Announces(env: Env, c: Conn, topic: string) {
    exists key :: key in Presences(env, c.tokens) &&
      topic in [PresenceTopic(env, c.id, key, Presences(env, c.tokens)[key].connect),
                PresenceTopic(env, c.id, key, Presences(env, c.tokens)[key].disconnect)]
  }

  ghost predicate Acknowledges(env: Env, c: Conn, topic: string) {
    exists info :: AckTopic(env, c.id, AckPrefixes(env, c.tokens), info) == Some(topic)
  }

  // A message published by or for one connection that another gets.
  ghost predicate Delivered(env: Env, from: Conn, to: Conn, topic: string, sub: string) {
    && (MayPublish(env, from, topic) || Announces(env, from, topic) || Acknowledges(env, from, topic))
    && MayHold(env, to, sub) && Matches(sub, topic, env.sx) && !Blocked(env, to, topic)
  }

  // ---- Everything of a connection is under the hash of one of its issuers ----

  predicate HasIssuer(c: Conn, iss: string) { exists i :: 0 <= i < |c.tokens| && c.tokens[i].iss == iss }

  predicate Under(env: Env, iss: string, topic: string) {
    Words(topic, env.sx.separator) != [] && Words(topic, env.sx.separator)[0] == env.hash(iss)
  }

  ghost predicate Owned(env: Env, c: Conn, topic: string) {
    exists iss :: HasIssuer(c, iss) && Under(env, iss, topic)
  }

  lemma PrefixUnder(env: Env, iss: string, rest: string)
    requires EnvOk(env)
    ensures Under(env, iss, env.hash(iss) + [env.sx.separator] + rest)
  {
    assert IssuerWord(env.hash(iss), env.sx);
    SplitAt(env.hash(iss), env.sx.separator, rest);
  }

  lemma {:induction false} TopicOwner(env: Env, id: string, tokens: seq<Token>, of: Token -> seq<string>, topic: string)
      returns (i: nat)
    requires EnvOk(env) && !env.privileged && topic in TopicsOf(env, id, tokens, of)
    ensures i < |tokens| && Under(env, tokens[i].iss, topic)
  {
    var n := |tokens| - 1;
    var topics := of(tokens[n]);
    if topic in Sents(Prefix(env, tokens[n]), topics, id) {
      var j :| 0 <= j < |topics| && topic == Sent(Prefix(env, tokens[n]), topics[j], id);
      PrefixUnder(env, tokens[n].iss, Expand(topics[j], id));
      i := n;
    } else {
      i := TopicOwner(env, id, tokens[..n], of, topic);
    }
  }

  // A topic that matches something owned is owned: issuer hashes are not wildcards.
  lemma MatchUnder(env: Env, iss: string, pattern: string, topic: string)
    requires EnvOk(env) && Under(env, iss, pattern) && Matches(pattern, topic, env.sx)
    ensures Under(env, iss, topic)
  {
    assert IssuerWord(env.hash(iss), env.sx);
  }

  lemma AllowedOwned(env: Env, c: Conn, of: Token -> seq<string>, topic: string)
    requires EnvOk(env) && !env.privileged && MatchesAny(Topics(env, c, of), topic, env.sx)
    ensures Owned(env, c, topic)
  {
    var patterns := Topics(env, c, of);
    var k :| 0 <= k < |patterns| && Matches(patterns[k], topic, env.sx);
    var i := TopicOwner(env, c.id, c.tokens, of, patterns[k]);
    MatchUnder(env, c.tokens[i].iss, patterns[k], topic);
    assert HasIssuer(c, c.tokens[i].iss);
  }

  // The last token to give an acknowledgment prefix for a key.
  predicate GivesAck(env: Env, tokens: seq<Token>, i: nat, key: string) {
    && i < |tokens| && tokens[i].ack.Some? && Key(env, tokens[i]) == key
    && forall j :: i < j < |tokens| && tokens[j].ack.Some? ==> Key(env, tokens[j]) != key
  }

  lemma {:induction false} AckOwner(env: Env, tokens: seq<Token>, key: string) returns (i: nat)
    requires key in AckPrefixes(env, tokens)
    ensures GivesAck(env, tokens, i, key) && AckPrefixes(env, tokens)[key] == tokens[i].ack.value
  {
    var n := |tokens| - 1;
    if tokens[n].ack.Some? && Key(env, tokens[n]) == key {
      i := n;
    } else {
      i := AckOwner(env, tokens[..n], key);
      assert forall j :: 0 <= j < n ==> tokens[..n][j] == tokens[j];
    }
  }

  lemma {:induction false} AckKept(env: Env, tokens: seq<Token>, i: nat)
    requires i < |tokens| && tokens[i].ack.Some?
    ensures Key(env, tokens[i]) in AckPrefixes(env, tokens)
  {
    var n := |tokens| - 1;
    if i < n {
      AckKept(env, tokens[..n], i);
      assert tokens[..n][i] == tokens[i];
    }
  }

  lemma {:induction false} PresenceOwner(env: Env, tokens: seq<Token>, key: string)
    requires key in Presences(env, tokens)
    ensures exists i :: 0 <= i < |tokens| && Key(env, tokens[i]) == key
  {
    var n := |tokens| - 1;
    if tokens[n].presence.Some? && Key(env, tokens[n]) == key {
    } else {
      PresenceOwner(env, tokens[..n], key);
      var i :| 0 <= i < n && Key(env, tokens[..n][i]) == key;
      assert tokens[i] == tokens[..n][i];
    }
  }

  lemma {:induction false} FirstIndex(s: string, h: string, c: char)
    requires h + [c] <= s && c !in h
    ensures IndexOf(s, c) == |h| && s[..|h|] == h
  {
    if h == "" {
      assert s[0] == c;
    } else {
      assert s[0] == h[0] && h[1..] + [c] <= s[1..];
      FirstIndex(s[1..], h[1..], c);
      assert s[..|h|] == [s[0]] + s[1..][..|h| - 1];
    }
  }

  predicate AckedBy(env: Env, c: Conn, i: nat, info: string, r: Option<string>)
    requires !env.privileged
  {
    && i < |c.tokens| && GivesAck(env, c.tokens, i, env.hash(c.tokens[i].iss))
    && var prefix := env.hash(c.tokens[i].iss) + [env.sx.separator];
    && prefix <= info
    && r == Some(prefix + Expand(c.tokens[i].ack.value, c.id) + info[|prefix|..])
  }

  lemma HashWord(env: Env, iss: string)
    requires EnvOk(env)
    ensures IssuerWord(env.hash(iss), env.sx)
  {
  }

  // The acknowledgment for a topic that begins with a word, when the word has an entry.
  lemma AckFormed(env: Env, id: string, acks: map<string, string>, h: string, info: string)
    requires !env.privileged && h in acks && h + [env.sx.separator] <= info && env.sx.separator !in h
    ensures var prefix := h + [env.sx.separator];
      AckTopic(env, id, acks, info) == Some(prefix + Expand(acks[h], id) + info[|prefix|..])
  {
    hide Expand, IndexOf;
    FirstIndex(info, h, env.sx.separator);
  }

  // A topic that is acknowledged has a first word, and the word has an entry.
  lemma AckFirstWord(env: Env, id: string, acks: map<string, string>, info: string) returns (h: string)
    requires !env.privileged && "" !in acks && AckTopic(env, id, acks, info).Some?
    ensures h in acks && h + [env.sx.separator] <= info
  {
    hide Expand, IndexOf;
    var pos := IndexOf(info, env.sx.separator);
    h := info[..pos];
    assert h + [env.sx.separator] == info[..pos + 1];
  }

  lemma AckMade(env: Env, c: Conn, info: string)
    requires EnvOk(env) && !env.privileged
    ensures var r := AckTopic(env, c.id, AckPrefixes(env, c.tokens), info);
      r.Some? ==> exists i: nat :: AckedBy(env, c, i, info, r)
  {
    hide AckTopic, AckPrefixes, EnvOk, Expand;
    var acks := AckPrefixes(env, c.tokens);
    var r := AckTopic(env, c.id, acks, info);
    if r.Some? {
      if "" in acks {
        var i := AckOwner(env, c.tokens, "");
        HashWord(env, c.tokens[i].iss);
        assert false;
      }
      var h := AckFirstWord(env, c.id, acks, info);
      var i := AckOwner(env, c.tokens, h);
      HashWord(env, c.tokens[i].iss);
      AckFormed(env, c.id, acks, h, info);
      assert AckedBy(env, c, i, info, r);
    }
  }

  lemma AckNotMissed(env: Env, c: Conn, info: string, i: nat)
    requires EnvOk(env) && !env.privileged && i < |c.tokens| && c.tokens[i].ack.Some?
    requires env.hash(c.tokens[i].iss) + [env.sx.separator] <= info
    ensures AckTopic(env, c.id, AckPrefixes(env, c.tokens), info).Some?
  {
    hide AckPrefixes, IndexOf, Expand;
    assert IssuerWord(env.hash(c.tokens[i].iss), env.sx);
    FirstIndex(info, env.hash(c.tokens[i].iss), env.sx.separator);
    AckKept(env, c.tokens, i);
  }

  /** A message is acknowledged exactly when the first word of its topic is the issuer hash of a token with an
      acknowledgment prefix. The acknowledgment stays under that word, with that prefix before the rest of the topic. */
  lemma AckStaysUnder(env: Env, c: Conn, info: string)
    requires EnvOk(env) && !env.privileged
    ensures var r := AckTopic(env, c.id, AckPrefixes(env, c.tokens), info);
      && (r.Some? ==> exists i: nat :: AckedBy(env, c, i, info, r))
      && (r.None? ==> forall i :: 0 <= i < |c.tokens| && c.tokens[i].ack.Some? ==>
            !(env.hash(c.tokens[i].iss) + [env.sx.separator] <= info))
  {
    hide AckTopic, AckedBy, EnvOk;
    AckMade(env, c, info);
    forall i | 0 <= i < |c.tokens| && c.tokens[i].ack.Some? && env.hash(c.tokens[i].iss) + [env.sx.separator] <= info
      ensures AckTopic(env, c.id, AckPrefixes(env, c.tokens), info).Some?
    {
      AckNotMissed(env, c, info, i);
    }
  }

  lemma PrefixedUnder(env: Env, iss: string, a: string, b: string)
    requires EnvOk(env)
    ensures Under(env, iss, env.hash(iss) + [env.sx.separator] + a + b)
  {
    PrefixUnder(env, iss, a + b);
    assert env.hash(iss) + [env.sx.separator] + a + b == env.hash(iss) + [env.sx.separator] + (a + b);
  }

  lemma AckUnder(env: Env, c: Conn, i: nat, info: string, topic: string)
    requires EnvOk(env) && !env.privileged && AckedBy(env, c, i, info, Some(topic))
    ensures Under(env, c.tokens[i].iss, topic)
  {
    var prefix := env.hash(c.tokens[i].iss) + [env.sx.separator];
    PrefixedUnder(env, c.tokens[i].iss, Expand(c.tokens[i].ack.value, c.id), info[|prefix|..]);
  }

  lemma AckOwned(env: Env, c: Conn, info: string, topic: string)
    requires EnvOk(env) && !env.privileged && AckTopic(env, c.id, AckPrefixes(env, c.tokens), info) == Some(topic)
    ensures Owned(env, c, topic)
  {
    AckStaysUnder(env, c, info);
    var i: nat :| AckedBy(env, c, i, info, Some(topic));
    AckUnder(env, c, i, info, topic);
    assert HasIssuer(c, c.tokens[i].iss);
  }

  lemma PresenceOwned(env: Env, c: Conn, topic: string)
    requires EnvOk(env) && !env.privileged && Announces(env, c, topic)
    ensures Owned(env, c, topic)
  {
    var presences := Presences(env, c.tokens);
    var key :| key in presences &&
      topic in [PresenceTopic(env, c.id, key, presences[key].connect),
        PresenceTopic(env, c.id, key, presences[key].disconnect)];
    PresenceOwner(env, c.tokens, key);
    var i :| 0 <= i < |c.tokens| && Key(env, c.tokens[i]) == key;
    PrefixUnder(env, c.tokens[i].iss, Expand(presences[key].connect, c.id));
    PrefixUnder(env, c.tokens[i].iss, Expand(presences[key].disconnect, c.id));
    assert HasIssuer(c, c.tokens[i].iss);
  }

  lemma HeldOwned(env: Env, c: Conn, pattern: string)
    requires EnvOk(env) && !env.privileged && MayHold(env, c, pattern)
    ensures Owned(env, c, pattern)
  {
    if MaySubscribe(env, c, pattern) {
      AllowedOwned(env, c, (t: Token) => t.subscribe.allow, pattern);
    } else {
      var i := TopicOwner(env, c.id, c.tokens, (t: Token) => t.subscriptions, pattern);
      assert HasIssuer(c, c.tokens[i].iss);
    }
  }

  /** Between connections that are not privileged, a message reaches only a connection with a token of the issuer under
      whose hash it was published, which is an issuer of the sender too. */
  lemma Isolated(env: Env, from: Conn, to: Conn, topic: string, sub: string)
    requires EnvOk(env) && !env.privileged && Delivered(env, from, to, topic, sub)
    ensures exists iss :: HasIssuer(from, iss) && HasIssuer(to, iss) && Under(env, iss, topic)
  {
    if MayPublish(env, from, topic) {
      AllowedOwned(env, from, (t: Token) => t.publish.allow, topic);
    } else if Announces(env, from, topic) {
      PresenceOwned(env, from, topic);
    } else {
      var info :| AckTopic(env, from.id, AckPrefixes(env, from.tokens), info) == Some(topic);
      AckOwned(env, from, info, topic);
    }
    HeldOwned(env, to, sub);
    var iss :| HasIssuer(from, iss) && Under(env, iss, topic);
    var iss' :| HasIssuer(to, iss') && Under(env, iss', sub);
    MatchUnder(env, iss', sub, topic);
    assert env.hash(iss) == env.hash(iss');
  }
}
