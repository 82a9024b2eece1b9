/** lib/server.js `read_frame`: reads one length-prefixed frame from a stream that arrives in any chunks
    and pushes back what follows it; the writer is lib/client.js `stream_auth`.  The decoder, from
    frame-stream, keeps every byte it was given in `buffer` until a frame is complete. */
module ReadFrame {
  import opened Bytes
  import opened Wrappers

  import Tokens
  import Utf8

  datatype Config = Config(lengthSize: nat, maxSize: Option<nat>)

  datatype Decoded = NeedMore | Frame(v: Bytes) | TooBig

  // What the callback is called with: a frame, a decoder error, or the stream's early end.
  datatype Outcome = Got(v: Bytes) | Failed | Ended

  function BigEndian(b: Bytes): nat {
    if b == [] then 0 else BigEndian(b[..|b| - 1]) * 256 + b[|b| - 1]
  }

  function ToBigEndian(n: nat, size: nat): Bytes {
    if size == 0 then [] else ToBigEndian(n / 256, size - 1) + [n % 256]
  }

  function Pow256(size: nat): nat { if size == 0 then 1 else 256 * Pow256(size - 1) }

  function Encode(v: Bytes, c: Config): Bytes { ToBigEndian(|v|, c.lengthSize) + v }

  // What the decoder makes of the bytes it has.
  function Decode(b: Bytes, c: Config): Decoded {
    if |b| < c.lengthSize then NeedMore
    else
      var n := BigEndian(b[..c.lengthSize]);
      if c.maxSize.Some? && n > c.maxSize.value then TooBig
      else if |b| < c.lengthSize + n then NeedMore
      else Frame(b[c.lengthSize..c.lengthSize + n])
  }

  // ---- The loop over what can be read, as a function ----

  // `listening` ends with the first outcome.  `queue` is what the stream holds afterwards.
  datatype Reading = Reading(buffer: Bytes, listening: bool, calls: seq<Outcome>, queue: seq<Bytes>)

  function ReadLoop(buffer: Bytes, chunks: seq<Bytes>, c: Config): Reading
    decreases |chunks|
  {
    if chunks == [] then Reading(buffer, true, [], [])
    else
      var all := buffer + chunks[0];
      match Decode(all, c)
      case NeedMore => ReadLoop(all, chunks[1..], c)
      case Frame(v) => Reading(all, false, [Got(v)], [all[c.lengthSize + |v|..]] + chunks[1..])
      case TooBig =>
        var r := ReadLoop(all, chunks[1..], c);
        r.(listening := false, calls := [Failed] + r.calls)
  }

  // The reading, when the same loop went through other chunks first and called back with `failures`.
  function After(r: Reading, listening: bool, failures: seq<Outcome>): Reading {
    r.(listening := r.listening && listening, calls := failures + r.calls)
  }

  lemma LastChunk(buffer: Bytes, c: Config)
    ensures ReadLoop(buffer, [], c) == Reading(buffer, true, [], [])
  {
  }

  lemma NextChunk(buffer: Bytes, chunks: seq<Bytes>, c: Config, listening: bool, failures: seq<Outcome>)
    requires chunks != []
    ensures var all, more := buffer + chunks[0], chunks[1..];
      After(ReadLoop(buffer, chunks, c), listening, failures) ==
      match Decode(all, c)
      case NeedMore => After(ReadLoop(all, more, c), listening, failures)
      case Frame(v) => Reading(all, false, failures + [Got(v)], [all[c.lengthSize + |v|..]] + more)
      case TooBig => After(ReadLoop(all, more, c), false, failures + [Failed])
  {
    OneChunk(buffer, chunks, c);
    hide Decode, ReadLoop;
    var r := ReadLoop(buffer + chunks[0], chunks[1..], c);
    assert failures + ([Failed] + r.calls) == failures + [Failed] + r.calls;
  }

  lemma OneChunk(buffer: Bytes, chunks: seq<Bytes>, c: Config)
    requires chunks != []
    ensures var all, more := buffer + chunks[0], chunks[1..];
      ReadLoop(buffer, chunks, c) ==
      match Decode(all, c)
      case NeedMore => ReadLoop(all, more, c)
      case Frame(v) => Reading(all, false, [Got(v)], [all[c.lengthSize + |v|..]] + more)
      case TooBig =>
        ReadLoop(all, more, c).(listening := false, calls := [Failed] + ReadLoop(all, more, c).calls)
  {
  }

  // `queue` is what each further read returns: one chunk for each push that `_read` makes before it returns.
  class Stream {
    var queue: seq<Bytes>

    constructor (chunks: seq<Bytes>)
      ensures queue == chunks
    {
      queue := chunks;
    }

    method Read() returns (data: Option<Bytes>)
      modifies this
      ensures old(queue) == [] ==> data == None && queue == []
      ensures old(queue) != [] ==> data == Some(old(queue)[0]) && queue == old(queue)[1..]
    {
      if queue == [] { return None; }
      data := Some(queue[0]);
      queue := queue[1..];
    }

    method Unshift(chunk: Bytes)
      modifies this
      ensures queue == [chunk] + old(queue)
    {
      queue := [chunk] + queue;
    }
  }

  class FrameReader {
    const config: Config
    var buffer: Bytes
    var listening: bool
    var calls: seq<Outcome>

    constructor (c: Config)
      ensures config == c && buffer == [] && listening && calls == []
    {
      config, buffer, listening, calls := c, [], true, [];
    }

    // One chunk through the decoder; true once the frame is there and the rest pushed back.
    method OnData(data: Bytes, s: Stream) returns (got: bool)
      modifies this, s
      ensures var all := old(buffer) + data;
        match Decode(all, config)
        case NeedMore => !got && buffer == all && listening == old(listening) && calls == old(calls) &&
          s.queue == old(s.queue)
        case Frame(v) => got && buffer == all && !listening && calls == old(calls) + [Got(v)]
                         && s.queue == [all[config.lengthSize + |v|..]] + old(s.queue)
        case TooBig => !got && buffer == all && !listening && calls == old(calls) + [Failed] && s.queue == old(s.queue)
    {
      var before := buffer;
      buffer := buffer + data;
      var decoded := Decode(buffer, config);
      got := decoded.Frame?;
      if decoded.Frame? {
        listening := false;
        var rest := before + data;
        s.Unshift(rest[config.lengthSize + |decoded.v|..]);
        calls := calls + [Got(decoded.v)];
      } else if decoded.TooBig? {
        listening := false;
        calls := calls + [Failed];
      }
    }

    // The 'readable' listener.  After a decoder error the loop goes on to the next chunk.
    method OnReadable(s: Stream)
      requires listening
      modifies this, s
      ensures var r := ReadLoop(old(buffer), old(s.queue), config);
        buffer == r.buffer && listening == r.listening && calls == old(calls) + r.calls && s.queue == r.queue
    {
      hide ReadLoop, Decode;
      ghost var whole := ReadLoop(buffer, s.queue, config);
      ghost var failures: seq<Outcome> := [];
      while true
        invariant whole == After(ReadLoop(buffer, s.queue, config), listening, failures)
        invariant calls == old(calls) + failures
        decreases |s.queue|
      {
        LastChunk(buffer, config);
        if s.queue != [] { NextChunk(buffer, s.queue, config, listening, failures); }
        var data := s.Read();
        if data.None? { break; }
        var got := OnData(data.value, s);
        if got { return; }
        failures := if Decode(buffer, config).TooBig? then failures + [Failed] else failures;
      }
    }

    // The 'end' and 'close' listener.
    method OnEnd()
      requires listening
      modifies this
      ensures !listening && calls == old(calls) + [Ended] && buffer == old(buffer)
    {
      listening := false;
      calls := calls + [Ended];
    }
  }

  // ---- Chunks do not matter ----

  // A decision stands whatever comes after.
  lemma DecodeStable(b: Bytes, more: Bytes, c: Config)
    requires Decode(b, c) != NeedMore
    ensures Decode(b + more, c) == Decode(b, c)
  {
    assert (b + more)[..c.lengthSize] == b[..c.lengthSize];
  }

  // The stream's readable events, each with the chunks that have arrived: what the callback gets, and the
  // bytes left in the stream or still to come.
  datatype Result = Result(calls: seq<Outcome>, left: Bytes)

  function Serve(buffer: Bytes, batches: seq<seq<Bytes>>, c: Config): Result
    decreases |batches|
  {
    if batches == [] then Result([], [])
    else
      var r := ReadLoop(buffer, batches[0], c);
      if r.listening then Serve(r.buffer, batches[1..], c)
      else Result(r.calls, Concat(r.queue) + ConcatAll(batches[1..]))
  }

  function ConcatAll(batches: seq<seq<Bytes>>): Bytes {
    if batches == [] then [] else Concat(batches[0]) + ConcatAll(batches[1..])
  }

  lemma {:induction false} LoopOnBytes(buffer: Bytes, chunks: seq<Bytes>, c: Config)
    requires Decode(buffer, c) == NeedMore
    ensures var all, r := buffer + Concat(chunks), ReadLoop(buffer, chunks, c);
      match Decode(all, c)
      case NeedMore => r == Reading(all, true, [], [])
      case Frame(v) => !r.listening && r.calls == [Got(v)] && Concat(r.queue) == all[c.lengthSize + |v|..]
      case TooBig => !r.listening && |r.calls| >= 1 && r.calls[0] == Failed
    decreases |chunks|
  {
    var all := buffer + Concat(chunks);
    if chunks == [] {
      assert all == buffer;
    } else {
      var b1 := buffer + chunks[0];
      assert all == b1 + Concat(chunks[1..]);
      match Decode(b1, c)
      case NeedMore => LoopOnBytes(b1, chunks[1..], c);
      case Frame(v) =>
        DecodeStable(b1, Concat(chunks[1..]), c);
        var rest := [b1[c.lengthSize + |v|..]] + chunks[1..];
        assert rest[1..] == chunks[1..];
        assert all[c.lengthSize + |v|..] == b1[c.lengthSize + |v|..] + Concat(chunks[1..]);
      case TooBig => DecodeStable(b1, Concat(chunks[1..]), c);
    }
  }

  /** However the bytes are cut into chunks and readable events: once a frame is complete the callback is
      called exactly once, with that frame, and what is pushed back and still to come is exactly the bytes
      after it; an oversized frame is an error first; until then nothing is called. */
  lemma {:induction false} ServeOnBytes(buffer: Bytes, batches: seq<seq<Bytes>>, c: Config)
    requires Decode(buffer, c) == NeedMore
    ensures var all, r := buffer + ConcatAll(batches), Serve(buffer, batches, c);
      match Decode(all, c)
      case NeedMore => r.calls == []
      case Frame(v) => r.calls == [Got(v)] && r.left == all[c.lengthSize + |v|..]
      case TooBig => |r.calls| >= 1 && r.calls[0] == Failed
    decreases |batches|
  {
    hide ReadLoop, BigEndian;
    var all := buffer + ConcatAll(batches);
    if batches == [] {
      assert all == buffer;
    } else {
      var b1 := buffer + Concat(batches[0]);
      assert all == b1 + ConcatAll(batches[1..]);
      LoopOnBytes(buffer, batches[0], c);
      match Decode(b1, c)
      case NeedMore => ServeOnBytes(b1, batches[1..], c);
      case Frame(v) =>
        DecodeStable(b1, ConcatAll(batches[1..]), c);
        assert all[c.lengthSize + |v|..] == b1[c.lengthSize + |v|..] + ConcatAll(batches[1..]);
      case TooBig => DecodeStable(b1, ConcatAll(batches[1..]), c);
    }
  }

  /** Header, frame and what is left over make up all the bytes. */
  lemma NothingLost(batches: seq<seq<Bytes>>, c: Config)
    requires c.lengthSize >= 1 && Decode(ConcatAll(batches), c).Frame?
    ensures var all, r := ConcatAll(batches), Serve([], batches, c);
      |r.calls| == 1 && r.calls[0].Got? && all == ToBigEndian(|r.calls[0].v|, c.lengthSize) + r.calls[0].v + r.left
  {
    var all := ConcatAll(batches);
    assert [] + all == all;
    ServeOnBytes([], batches, c);
    FrameParts(all, c);
  }

  lemma FrameParts(all: Bytes, c: Config)
    requires Decode(all, c).Frame?
    ensures var v := Decode(all, c).v;
      |all| >= c.lengthSize + |v| && all == ToBigEndian(|v|, c.lengthSize) + v + all[c.lengthSize + |v|..]
  {
    HeaderRoundTrip(all[..c.lengthSize]);
  }

  lemma {:induction false} HeaderRoundTrip(b: Bytes)
    ensures ToBigEndian(BigEndian(b), |b|) == b
  {
    if b != [] {
      HeaderRoundTrip(b[..|b| - 1]);
      assert b == b[..|b| - 1] + [b[|b| - 1]];
    }
  }

  // A length of so many bytes says less than this.
  lemma {:induction false} LengthBound(b: Bytes)
    ensures BigEndian(b) < Pow256(|b|)
  {
    if b != [] { LengthBound(b[..|b| - 1]); }
  }

  // ---- Client to server ----

  lemma {:induction false} BigEndianRoundTrip(n: nat, size: nat)
    requires n < Pow256(size)
    ensures |ToBigEndian(n, size)| == size && BigEndian(ToBigEndian(n, size)) == n
  {
    if size > 0 {
      BigEndianRoundTrip(n / 256, size - 1);
      var b := ToBigEndian(n, size);
      assert b[..|b| - 1] == ToBigEndian(n / 256, size - 1);
    }
  }

  lemma EncodedDecodes(v: Bytes, more: Bytes, c: Config)
    requires |v| < Pow256(c.lengthSize) && (c.maxSize.Some? ==> |v| <= c.maxSize.value)
    ensures Decode(Encode(v, c) + more, c) == Frame(v)
  {
    BigEndianRoundTrip(|v|, c.lengthSize);
    var b := Encode(v, c) + more;
    assert b[..c.lengthSize] == ToBigEndian(|v|, c.lengthSize);
    assert b[c.lengthSize..c.lengthSize + |v|] == v;
  }

  /** What the decoder makes of any bytes: without a whole length, or without as many bytes as it says, it needs more;
      every length above the maximum is refused, however much of the frame is there; and otherwise the frame is the
      bytes after the length, as many as it says. */
  lemma DecodeMeans(n: nat, rest: Bytes, c: Config)
    requires n < Pow256(c.lengthSize)
    ensures Decode(ToBigEndian(n, c.lengthSize) + rest, c) ==
      if c.maxSize.Some? && n > c.maxSize.value then TooBig
      else if |rest| < n then NeedMore
      else Frame(rest[..n])
    ensures forall b: Bytes :: |b| < c.lengthSize ==> Decode(b, c) == NeedMore
  {
    BigEndianRoundTrip(n, c.lengthSize);
    var b := ToBigEndian(n, c.lengthSize) + rest;
    assert b[..c.lengthSize] == ToBigEndian(n, c.lengthSize);
    if |rest| >= n { assert b[c.lengthSize..c.lengthSize + n] == rest[..n]; }
  }

  /** A client sends the frame of its tokens and then anything: however that arrives, the server's callback gets one
      frame, the bytes after the frame are all there for the next reader, and the server recovers the client's list of
      tokens exactly when none of them is empty or contains a comma. */
  lemma TokensDelivered(ts: seq<string>, more: Bytes, batches: seq<seq<Bytes>>, c: Config)
    requires var v := Utf8.Encode(Tokens.Join(ts));
      && c.lengthSize >= 1 && |v| < Pow256(c.lengthSize) && (c.maxSize.Some? ==> |v| <= c.maxSize.value)
      && ConcatAll(batches) == Encode(v, c) + more
    ensures var r := Serve([], batches, c);
      && |r.calls| == 1 && r.calls[0].Got? && r.left == more
      && (Tokens.Recovered(Utf8.Decode(r.calls[0].v)) == ts <==> forall i :: 0 <= i < |ts| ==> Tokens.Plain(ts[i]))
  {
    var v := Utf8.Encode(Tokens.Join(ts));
    EncodedDecodes(v, more, c);
    ServeOnBytes([], batches, c);
    assert [] + ConcatAll(batches) == ConcatAll(batches);
    Utf8.RoundTrip(Tokens.Join(ts));
    Tokens.TokensRecovered(ts);
    BigEndianRoundTrip(|v|, c.lengthSize);
    assert (Encode(v, c) + more)[c.lengthSize + |v|..] == more;
  }

  // ---- Errors can be reported more than once ----

  lemma {:induction false} FailsAgain(buffer: Bytes, chunks: seq<Bytes>, c: Config)
    requires Decode(buffer, c) == TooBig
    ensures |ReadLoop(buffer, chunks, c).calls| == |chunks|
    decreases |chunks|
  {
    if chunks != [] {
      DecodeStable(buffer, chunks[0], c);
      FailsAgain(buffer + chunks[0], chunks[1..], c);
    }
  }

  // What the decoder makes of the bytes up to and including chunk k.
  function DecodedAt(buffer: Bytes, chunks: seq<Bytes>, k: nat, c: Config): Decoded
    requires k < |chunks|
  {
    Decode(buffer + Concat(chunks[..k + 1]), c)
  }

  /** One readable event calls back at most once unless the frame is too big; then it calls back once for
      each chunk from the one that completes the length, so more than once exactly when more chunks had
      arrived. */
  lemma {:induction false} CallsPerEvent(buffer: Bytes, chunks: seq<Bytes>, c: Config)
    requires Decode(buffer, c) == NeedMore
    ensures |ReadLoop(buffer, chunks, c).calls| > 1 <==>
            exists k :: 0 <= k < |chunks| - 1 && DecodedAt(buffer, chunks, k, c) == TooBig
    decreases |chunks|
  {
    if chunks == [] { return; }
    var b1 := buffer + chunks[0];
    FirstDecoded(buffer, chunks, c);
    match Decode(b1, c)
    case TooBig =>
      FailsAgain(b1, chunks[1..], c);
      if |chunks| > 1 { assert DecodedAt(buffer, chunks, 0, c) == TooBig; }
    case Frame(v) =>
      forall k | 0 <= k < |chunks| - 1 ensures DecodedAt(buffer, chunks, k, c) != TooBig {
        ConcatFirst(buffer, chunks, k);
        DecodeStable(b1, Concat(chunks[1..][..k]), c);
      }
    case NeedMore =>
      CallsPerEvent(b1, chunks[1..], c);
      forall k | 0 < k < |chunks| ensures DecodedAt(buffer, chunks, k, c) == DecodedAt(b1, chunks[1..], k - 1, c) {
        ConcatFirst(buffer, chunks, k);
      }
      if k :| 0 <= k < |chunks[1..]| - 1 && DecodedAt(b1, chunks[1..], k, c) == TooBig {
        assert DecodedAt(buffer, chunks, k + 1, c) == TooBig;
      }
      if k :| 0 <= k < |chunks| - 1 && DecodedAt(buffer, chunks, k, c) == TooBig {
        assert k > 0;
        assert DecodedAt(b1, chunks[1..], k - 1, c) == TooBig;
      }
  }

  lemma FirstDecoded(buffer: Bytes, chunks: seq<Bytes>, c: Config)
    requires chunks != []
    ensures DecodedAt(buffer, chunks, 0, c) == Decode(buffer + chunks[0], c)
  {
    assert chunks[..1][1..] == [];
    assert Concat(chunks[..1]) == chunks[0];
  }

  lemma ConcatFirst(buffer: Bytes, chunks: seq<Bytes>, k: nat)
    requires k < |chunks|
    ensures buffer + Concat(chunks[..k + 1]) == buffer + chunks[0] + Concat(chunks[1..][..k])
  {
    assert chunks[..k + 1][1..] == chunks[1..][..k];
  }

  lemma LengthOf256()
    ensures BigEndian([0, 0, 1, 0]) == 256
  {
    assert [0, 0, 1, 0][..3] == [0, 0, 1] && [0, 0, 1][..2] == [0, 0] && [0, 0][..1] == [0];
    assert BigEndian([0]) == 0;
    assert BigEndian([0, 0]) == 0;
    assert BigEndian([0, 0, 1]) == 1;
  }

  /** So a length above the maximum, followed by one more chunk in the same readable event, is reported twice. */
  lemma FailsTwice()
    ensures ReadLoop([], [[0, 0, 1, 0], [0]], Config(4, Some(10))).calls == [Failed, Failed]
  {
    hide BigEndian;
    var c, b := Config(4, Some(10)), [0, 0, 1, 0];
    LengthOf256();
    assert [] + b == b && b[..4] == b;
    DecodeStable(b, [0], c);
    assert [b, [0]][1..] == [[0]] && [[0]][1..] == [];
    assert ReadLoop(b, [[0]], c).calls == [Failed] + ReadLoop(b + [0], [], c).calls;
  }
}
