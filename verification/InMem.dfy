/** lib/server_transports/in-mem.js: two ends, each pushing what is written to it into the other's read buffer. A write
    whose push fills the buffer leaves its callback on the reading end (`_cb`), to be called when reading has made room.
    The two halves of a stream are those of Node.js: `push`, `read` and the flags they keep. */
module InMem {
  import opened Bytes
  import opened Wrappers

  type Callback = nat

  // A write waiting in the writable half: its chunk and its callback.
  datatype Pending = Pending(chunk: Bytes, cb: Callback)

  // One direction: the writable half of one end and the readable half of the other. `ticks` are the write callbacks
  // queued with process.nextTick, `called` those that have run; `mark` is the reader's high-water mark; `accepted` and
  // `consumed` are the bytes written to the one end and read from the other.
  datatype Direction = Direction(
    queue: seq<Pending>, writing: Option<Callback>, ending: bool,
    buffer: Bytes, mark: nat, reading: bool, needReadable: bool, stored: Option<Callback>, ended: bool,
    ticks: seq<Callback>, called: seq<Callback>, accepted: Bytes, consumed: Bytes)

  function Idle(mark: nat): Direction {
    Direction([], None, false, [], mark, false, false, None, false, [], [], [], [])
  }

  // ---- The reading half (Readable) and the writing half (Writable) ----

  // _read, called when more is wanted.
  function CallRead(d: Direction): Direction {
    if d.stored.Some? then d.(reading := true, ticks := d.ticks + [d.stored.value], stored := None)
    else d.(reading := true)
  }

  // push: `direct` says that the reader is flowing, and gets what finds the buffer empty without its being buffered.
  function Push(d: Direction, chunk: Bytes, direct: bool): Direction {
    if direct && d.buffer == [] then d.(consumed := d.consumed + chunk, reading := false)
    else if chunk == [] then d.(reading := false)
    else d.(buffer := d.buffer + chunk, reading := false, needReadable := false)
  }

  // What push returns.
  predicate HasRoom(buffer: Bytes, mark: nat) { |buffer| < mark || buffer == [] }

  // _write: push, then call back on the next tick or keep the callback.
  function CallWrite(d: Direction, p: Pending, direct: bool): Direction {
    var d := Push(d, p.chunk, direct).(writing := Some(p.cb));
    if HasRoom(d.buffer, d.mark) then d.(ticks := d.ticks + [p.cb]) else d.(stored := Some(p.cb))
  }

  // The writable half hands on one write at a time, and ends once it has none left.
  function StartWrite(d: Direction, direct: bool): Direction {
    if d.queue != [] then CallWrite(d.(queue := d.queue[1..]), d.queue[0], direct)
    else if d.ending then d.(ended := true, reading := false, needReadable := false)
    else d
  }

  datatype Event =
    | Write(chunk: Bytes, cb: Callback, direct: bool)
    | End
    | Tick(direct: bool)
    | Read(n: nat, zero: bool, mark: nat)
    | Readable(flowing: bool)
    | Listen

  // `n` is how much a read gets, and `zero` that it asked for nothing. A read that asks for more than the high-water
  // mark raises it to `mark` first, and one that asks for something gets nothing only when less is buffered.
  ghost predicate Enabled(d: Direction, e: Event) {
    match e
    case Write(_, _, _) => !d.ending
    case End => !d.ending
    case Tick(_) => d.ticks != []
    case Read(n, zero, mark) =>
      && n <= |d.buffer| && d.mark <= mark
      && (zero ==> n == 0 && mark == d.mark) && (n == 0 && !zero ==> HasRoom(d.buffer, mark))
    case Readable(_) => true
    case Listen => true
  }

  // A read of nothing, while 'readable' is still owed and there is something to read, only emits it.
  predicate OnlyEmits(d: Direction, zero: bool) {
    zero && d.needReadable && ((if d.mark != 0 then |d.buffer| >= d.mark else d.buffer != []) || d.ended)
  }

  predicate Asks(d: Direction, n: nat) {
    !d.reading && !d.ended && (d.needReadable || d.buffer == [] || |d.buffer| - n < d.mark)
  }

  function CallForRead(d: Direction, n: nat, zero: bool): Direction
    requires n <= |d.buffer|
  {
    if OnlyEmits(d, zero) then d.(needReadable := false)
    else if n == 0 && d.ended then d
    else
      Taken(if Asks(d, n) then CallRead(d) else d, n)
  }

  function Taken(d: Direction, n: nat): Direction
    requires n <= |d.buffer|
  {
    var left := d.buffer[n..];
    d.(buffer := left, consumed := d.consumed + d.buffer[..n],
       needReadable := if left == [] && !d.ended then true else if n == 0 then |left| <= d.mark else d.needReadable)
  }

  function Step(d: Direction, e: Event): Direction
    requires e.Read? ==> e.n <= |d.buffer|
    requires e.Tick? ==> d.ticks != []
  {
    match e
    case Write(chunk, cb, direct) =>
      var d := d.(queue := d.queue + [Pending(chunk, cb)], accepted := d.accepted + chunk);
      if d.writing.None? then StartWrite(d, direct) else d
    case End =>
      var d := d.(ending := true);
      if d.writing.None? then StartWrite(d, false) else d
    case Tick(direct) =>
      StartWrite(d.(ticks := d.ticks[1..], called := d.called + [d.ticks[0]], writing := None), direct)
    case Read(n, zero, mark) => CallForRead(d.(mark := mark), n, zero)
    // 'readable' has been emitted
    case Readable(flowing) => d.(needReadable := !flowing && !d.ended && |d.buffer| <= d.mark)
    // a listener for 'readable' is added
    case Listen => d.(needReadable := d.buffer == [])
  }

  // ---- Invariant ----

  function Chunks(q: seq<Pending>): Bytes { if q == [] then [] else q[0].chunk + Chunks(q[1..]) }

  function Callbacks(q: seq<Pending>): seq<Callback> { if q == [] then [] else [q[0].cb] + Callbacks(q[1..]) }

  function One(cb: Option<Callback>): seq<Callback> { if cb.Some? then [cb.value] else [] }

  // Every callback so far: those called, the one of the write in progress, and those waiting, in order.
  function AllCallbacks(d: Direction): seq<Callback> { d.called + One(d.writing) + Callbacks(d.queue) }

  ghost predicate FlagsOk(d: Direction) {
    && (d.writing.None? ==> d.queue == [] && d.stored.None? && d.ticks == [])
    && (d.writing.Some? ==>
      (d.stored == d.writing && d.ticks == []) || (d.stored.None? && d.ticks == [d.writing.value]))
    && (d.stored.Some? ==> !d.reading && |d.buffer| >= d.mark)
    && (d.needReadable ==> |d.buffer| <= d.mark)
    && (d.ended <==> d.ending && d.queue == [] && d.writing.None?)
  }

  ghost predicate Inv(d: Direction) {
    d.accepted == d.consumed + d.buffer + Chunks(d.queue) && FlagsOk(d)
  }

  lemma {:induction false} ChunksAppend(q: seq<Pending>, p: Pending)
    ensures Chunks(q + [p]) == Chunks(q) + p.chunk && Callbacks(q + [p]) == Callbacks(q) + [p.cb]
  {
    if q == [] {
      assert [p][1..] == [];
      assert q + [p] == [p];
    } else {
      assert (q + [p])[1..] == q[1..] + [p];
      ChunksAppend(q[1..], p);
    }
  }

  lemma PushKeeps(d: Direction, chunk: Bytes, direct: bool)
    ensures var d' := Push(d, chunk, direct);
      && d'.consumed + d'.buffer == d.consumed + d.buffer + chunk
      && (d'.needReadable ==> d.needReadable && d'.buffer == d.buffer)
      && d' == d.(consumed := d'.consumed, buffer := d'.buffer, reading := false, needReadable := d'.needReadable)
  {
    if direct && d.buffer == [] {
      assert d.consumed + [] == d.consumed;
    } else {
      assert d.consumed + (d.buffer + chunk) == d.consumed + d.buffer + chunk;
    }
  }

  lemma CallWriteKeepsInv(d: Direction, p: Pending, direct: bool)
    requires d.accepted == d.consumed + d.buffer + (p.chunk + Chunks(d.queue))
    requires d.writing.None? && d.stored.None? && d.ticks == [] && !d.ended && (d.needReadable ==> |d.buffer| <= d.mark)
    ensures var d' := CallWrite(d, p, direct);
      && Inv(d') && d'.called == d.called && d'.queue == d.queue && d'.writing == Some(p.cb)
  {
    hide Push;
    PushKeeps(d, p.chunk, direct);
    assert d.consumed + d.buffer + (p.chunk + Chunks(d.queue)) == d.consumed + d.buffer + p.chunk + Chunks(d.queue);
  }

  lemma StartWriteKeepsInv(d: Direction, direct: bool)
    requires d.accepted == d.consumed + d.buffer + Chunks(d.queue)
    requires d.writing.None? && d.stored.None? && d.ticks == [] && !d.ended && (d.needReadable ==> |d.buffer| <= d.mark)
    ensures Inv(StartWrite(d, direct))
    ensures AllCallbacks(StartWrite(d, direct)) == AllCallbacks(d) && StartWrite(d, direct).called == d.called
  {
    if d.queue != [] {
      hide CallWrite;
      CallWriteKeepsInv(d.(queue := d.queue[1..]), d.queue[0], direct);
    }
  }

  lemma WriteKeepsInv(d: Direction, chunk: Bytes, cb: Callback, direct: bool)
    requires Inv(d) && !d.ending
    ensures var d' := Step(d, Write(chunk, cb, direct));
      Inv(d') && AllCallbacks(d') == AllCallbacks(d) + [cb]
  {
    hide StartWrite;
    var p := Pending(chunk, cb);
    ChunksAppend(d.queue, p);
    var d1 := d.(queue := d.queue + [p], accepted := d.accepted + chunk);
    assert d.consumed + d.buffer + Chunks(d.queue) + chunk == d.consumed + d.buffer + (Chunks(d.queue) + chunk);
    if d.writing.None? { StartWriteKeepsInv(d1, direct); }
  }

  // The invariant but for a buffer that a raised mark may exceed.
  ghost predicate TakeOk(d: Direction) {
    Inv(d.(mark := 0, needReadable := false)) && (d.needReadable ==> |d.buffer| <= d.mark)
  }

  lemma TakenKeepsInv(d: Direction, n: nat)
    requires TakeOk(d) && n <= |d.buffer| && (d.stored.Some? ==> |d.buffer| - n >= d.mark)
    ensures var d' := Taken(d, n);
      Inv(d') && AllCallbacks(d') == AllCallbacks(d) && d'.consumed + d'.buffer == d.consumed + d.buffer
  {
    assert d.buffer == d.buffer[..n] + d.buffer[n..];
    assert d.consumed + d.buffer[..n] + d.buffer[n..] == d.consumed + d.buffer;
  }

  lemma ReadKeepsInv(d: Direction, n: nat, zero: bool, mark: nat)
    requires Inv(d) && Enabled(d, Read(n, zero, mark))
    ensures var d' := Step(d, Read(n, zero, mark));
      Inv(d') && AllCallbacks(d') == AllCallbacks(d) && d'.consumed + d'.buffer == d.consumed + d.buffer
  {
    hide Taken;
    var d := d.(mark := mark);
    if !OnlyEmits(d, zero) && !(n == 0 && d.ended) {
      TakenKeepsInv(if Asks(d, n) then CallRead(d) else d, n);
    }
  }

  lemma EndKeepsInv(d: Direction)
    requires Inv(d) && !d.ending
    ensures Inv(Step(d, End)) && AllCallbacks(Step(d, End)) == AllCallbacks(d)
  {
    hide StartWrite;
    if d.writing.None? { StartWriteKeepsInv(d.(ending := true), false); }
  }

  lemma TickKeepsInv(d: Direction, direct: bool)
    requires Inv(d) && d.ticks != []
    ensures Inv(Step(d, Tick(direct))) && AllCallbacks(Step(d, Tick(direct))) == AllCallbacks(d)
  {
    hide StartWrite;
    StartWriteKeepsInv(d.(ticks := d.ticks[1..], called := d.called + [d.ticks[0]], writing := None), direct);
  }

  lemma FlagsKeepInv(d: Direction, e: Event)
    requires Inv(d) && (e.Readable? || e.Listen?)
    ensures Inv(Step(d, e)) && AllCallbacks(Step(d, e)) == AllCallbacks(d)
  {
  }

  lemma StepKeepsInv(d: Direction, e: Event)
    requires Inv(d) && Enabled(d, e)
    ensures Inv(Step(d, e))
    ensures AllCallbacks(Step(d, e)) == AllCallbacks(d) + (if e.Write? then [e.cb] else [])
  {
    if e.Readable? || e.Listen? {
      FlagsKeepInv(d, e);
    } else {
      hide Step, Inv, AllCallbacks;
      match e
      case Write(chunk, cb, direct) => WriteKeepsInv(d, chunk, cb, direct);
      case End => EndKeepsInv(d);
      case Tick(direct) => TickKeepsInv(d, direct);
      case Read(n, zero, mark) => ReadKeepsInv(d, n, zero, mark);
    }
  }

  // One of the two ends; the direction from `w` to `r` is spread over both.
  class Duplex {
    var hwm: nat
    // writable half
    var queue: seq<Pending>
    var writing: Option<Callback>
    var ending: bool
    var ticks: seq<Callback>
    var called: seq<Callback>
    ghost var accepted: Bytes
    // readable half
    var buffer: Bytes
    var reading: bool
    var needReadable: bool
    var ended: bool
    var cb: Option<Callback>
    ghost var consumed: Bytes

    constructor (hwm: nat)
      ensures this.hwm == hwm && queue == [] && writing == None && !ending
      ensures ticks == [] && called == [] && accepted == []
      ensures buffer == [] && !reading && !needReadable && !ended && cb == None && consumed == []
    {
      this.hwm := hwm;
      queue, writing, ending, ticks, called, accepted := [], None, false, [], [], [];
      buffer, reading, needReadable, ended, cb, consumed := [], false, false, false, None, [];
    }

    ghost function To(r: Duplex): Direction reads this, r {
      Direction(queue, writing, ending, r.buffer, r.hwm, r.reading, r.needReadable, r.cb, r.ended,
                ticks, called, accepted, r.consumed)
    }

    // The peer's push; the result is what it returns.
    method PushTo(peer: Duplex, chunk: Bytes, direct: bool) returns (room: bool)
      modifies peer`buffer, peer`reading, peer`needReadable, peer`consumed
      ensures To(peer) == Push(old(To(peer)), chunk, direct) && room == HasRoom(peer.buffer, peer.hwm)
    {
      peer.reading := false;
      if direct && peer.buffer == [] {
        peer.consumed := peer.consumed + chunk;
      } else if chunk != [] {
        peer.buffer := peer.buffer + chunk;
        peer.needReadable := false;
      }
      room := |peer.buffer| < peer.hwm || peer.buffer == [];
    }

    // Pushes into the peer, and leaves the callback there if that leaves no room.
    method DoWrite(peer: Duplex, p: Pending, direct: bool)
      modifies this`writing, this`ticks, peer`buffer, peer`reading, peer`needReadable, peer`cb, peer`consumed
      ensures To(peer) == CallWrite(old(To(peer)), p, direct)
    {
      hide Push;
      var room := PushTo(peer, p.chunk, direct);
      writing := Some(p.cb);
      if room {
        ticks := ticks + [p.cb];
      } else {
        peer.cb := Some(p.cb);
      }
    }

    method Next(peer: Duplex, direct: bool)
      modifies this`queue, this`writing, this`ticks
      modifies peer`buffer, peer`reading, peer`needReadable, peer`cb, peer`consumed, peer`ended
      ensures To(peer) == StartWrite(old(To(peer)), direct)
    {
      hide CallWrite;
      if queue != [] {
        var p := queue[0];
        queue := queue[1..];
        DoWrite(peer, p, direct);
      } else if ending {
        // _final
        peer.ended, peer.reading, peer.needReadable := true, false, false;
      }
    }

    method WriteChunk(peer: Duplex, chunk: Bytes, callback: Callback, direct: bool)
      requires !ending
      modifies this, peer`buffer, peer`reading, peer`needReadable, peer`cb, peer`consumed, peer`ended
      ensures To(peer) == Step(old(To(peer)), Write(chunk, callback, direct))
    {
      queue := queue + [Pending(chunk, callback)];
      accepted := accepted + chunk;
      if writing.None? { Next(peer, direct); }
    }

    method Finish(peer: Duplex)
      requires !ending
      modifies this, peer`buffer, peer`reading, peer`needReadable, peer`cb, peer`consumed, peer`ended
      ensures To(peer) == Step(old(To(peer)), End)
    {
      ending := true;
      if writing.None? { Next(peer, false); }
    }

    // The next queued write callback runs.
    method RunTick(peer: Duplex, direct: bool)
      requires ticks != []
      modifies this, peer`buffer, peer`reading, peer`needReadable, peer`cb, peer`consumed, peer`ended
      ensures To(peer) == Step(old(To(peer)), Tick(direct))
    {
      hide StartWrite;
      called := called + [ticks[0]];
      ticks := ticks[1..];
      writing := None;
      Next(peer, direct);
    }

    // _read
    method DoRead(writer: Duplex)
      modifies this`reading, this`cb, writer`ticks
      ensures writer.To(this) == CallRead(old(writer.To(this)))
    {
      reading := true;
      if cb.Some? {
        writer.ticks := writer.ticks + [cb.value];
        cb := None;
      }
    }

    // Reads from this end what `writer` wrote to the other.
    method ReadBytes(writer: Duplex, n: nat, zero: bool, mark: nat) returns (data: Bytes)
      requires Enabled(writer.To(this), Read(n, zero, mark))
      modifies this`hwm, this`buffer, this`reading, this`needReadable, this`cb, this`consumed, writer`ticks
      ensures data == old(buffer)[..n] && buffer == old(buffer)[n..] && consumed == old(consumed) + data
      ensures writer.To(this) == Step(old(writer.To(this)), Read(n, zero, mark))
    {
      hide Taken;
      hwm := mark;
      data := buffer[..n];
      assert n == 0 ==> buffer[n..] == buffer && consumed + data == consumed;
      if zero && needReadable && ((if hwm != 0 then |buffer| >= hwm else buffer != []) || ended) {
        needReadable := false;
        return;
      }
      if n == 0 && ended { return; }
      if !reading && !ended && (needReadable || buffer == [] || |buffer| - n < hwm) { DoRead(writer); }
      TakeBytes(writer, n);
    }

    method TakeBytes(writer: Duplex, n: nat)
      requires n <= |buffer|
      modifies this`buffer, this`needReadable, this`consumed
      ensures writer.To(this) == Taken(old(writer.To(this)), n)
      ensures buffer == old(buffer)[n..] && consumed == old(consumed) + old(buffer)[..n]
    {
      consumed := consumed + buffer[..n];
      buffer := buffer[n..];
      if n == 0 { needReadable := |buffer| <= hwm; }
      if buffer == [] && !ended { needReadable := true; }
    }
  }

  // ---- What holds in every run ----

  ghost predicate IsRun(d: Direction, es: seq<Event>)
    decreases |es|
  {
    es == [] || (Enabled(d, es[0]) && IsRun(Step(d, es[0]), es[1..]))
  }

  ghost function Run(d: Direction, es: seq<Event>): Direction
    requires IsRun(d, es)
    decreases |es|
  {
    if es == [] then d else Run(Step(d, es[0]), es[1..])
  }

  function Issued(es: seq<Event>): seq<Callback> {
    if es == [] then [] else (if es[0].Write? then [es[0].cb] else []) + Issued(es[1..])
  }

  lemma {:induction false} RunKeepsInv(d: Direction, es: seq<Event>)
    requires Inv(d) && IsRun(d, es)
    ensures Inv(Run(d, es))
    ensures AllCallbacks(Run(d, es)) == AllCallbacks(d) + Issued(es)
    decreases |es|
  {
    hide Step, Inv;
    if es != [] {
      StepKeepsInv(d, es[0]);
      RunKeepsInv(Step(d, es[0]), es[1..]);
    }
  }

  /** Each direction is a first-in first-out channel: the bytes read, those buffered and those still waiting
      to be pushed are the bytes accepted, in order; write callbacks run in the order of their writes, each
      at most once; and the reader sees the end only after every byte has been pushed. */
  lemma FirstInFirstOut(es: seq<Event>, mark: nat)
    requires IsRun(Idle(mark), es)
    ensures var d := Run(Idle(mark), es);
      && d.accepted == d.consumed + d.buffer + Chunks(d.queue)
      && d.called <= Issued(es)
      && (d.ended <==> d.ending && d.called == Issued(es))
      && (d.ended ==> d.accepted == d.consumed + d.buffer)
  {
    assert Inv(Idle(mark)) && AllCallbacks(Idle(mark)) + Issued(es) == Issued(es);
    hide Inv, AllCallbacks;
    RunKeepsInv(Idle(mark), es);
    InOrder(Run(Idle(mark), es));
  }

  lemma InOrder(d: Direction)
    requires Inv(d)
    ensures d.accepted == d.consumed + d.buffer + Chunks(d.queue) && d.called <= AllCallbacks(d)
    ensures d.ended <==> d.ending && d.called == AllCallbacks(d)
    ensures d.ended ==> d.accepted == d.consumed + d.buffer
  {
  }

  /** A callback kept on the reading end is never replaced. It leaves exactly at the read that brings the buffer below
      the high-water mark, or finds it empty, and is then the next thing to run; until then the buffer is full. */
  lemma StoredCallback(d: Direction, e: Event)
    requires Inv(d) && Enabled(d, e) && d.stored.Some?
    ensures var d' := Step(d, e);
      && |d.buffer| >= d.mark
      && (d'.stored.None? <==> e.Read? && (d.buffer == [] || |d.buffer| - e.n < e.mark))
      && (d'.stored.Some? ==> d'.stored == d.stored && d'.ticks == [])
      && (d'.stored.None? ==> d'.ticks == [d.stored.value])
  {
  }

  // A write is handed on in this step, with the chunk and callback given.
  predicate HandsOn(d: Direction, e: Event, p: Pending, direct: bool) {
    || (e == Write(p.chunk, p.cb, direct) && d.writing.None?)
    || (e == Tick(direct) && d.queue != [] && p == d.queue[0])
  }

  /** A write that is handed on reaches the reader at once if it flows and has nothing buffered, and is buffered
      otherwise. It is called back on the next tick exactly if that leaves the buffer empty or below the high-water
      mark; if not, its callback is kept, and nothing is written meanwhile. */
  lemma BackPressure(d: Direction, e: Event, p: Pending, direct: bool)
    requires Inv(d) && Enabled(d, e) && HandsOn(d, e, p, direct)
    ensures Pushed(d, Step(d, e), p, direct)
  {
    hide CallWrite, Pushed;
    if e.Write? {
      assert d.queue + [p] == [p] && [p][1..] == [];
      CallWritePushes(d.(queue := [], accepted := d.accepted + p.chunk), p, direct);
      PushedFrom(d, d.(queue := [], accepted := d.accepted + p.chunk), Step(d, e), p, direct);
    } else {
      var d1 := d.(ticks := [], called := d.called + [d.ticks[0]], writing := None);
      assert d.ticks[1..] == [];
      CallWritePushes(d1.(queue := d.queue[1..]), p, direct);
      PushedFrom(d, d1.(queue := d.queue[1..]), Step(d, e), p, direct);
    }
  }

  ghost predicate Pushed(d: Direction, d': Direction, p: Pending, direct: bool) {
    && d'.writing == Some(p.cb) && (d'.stored.None? ==> d'.ticks == [p.cb])
    && (if direct && d.buffer == [] then d'.buffer == [] && d'.consumed == d.consumed + p.chunk
        else d'.buffer == d.buffer + p.chunk && d'.consumed == d.consumed)
    && (d'.stored == Some(p.cb) <==> d'.buffer != [] && |d'.buffer| >= d.mark)
    && (d'.stored.Some? <==> d'.buffer != [] && |d'.buffer| >= d.mark)
  }

  lemma CallWritePushes(d: Direction, p: Pending, direct: bool)
    requires d.stored.None? && d.ticks == []
    ensures Pushed(d, CallWrite(d, p, direct), p, direct)
  {
  }

  lemma PushedFrom(d: Direction, d1: Direction, d': Direction, p: Pending, direct: bool)
    requires Pushed(d1, d', p, direct) && d1.buffer == d.buffer && d1.consumed == d.consumed && d1.mark == d.mark
    ensures Pushed(d, d', p, direct)
  {
  }

  // A write made while another is in progress waits its turn.
  lemma WaitsItsTurn(d: Direction, e: Event)
    requires Inv(d) && Enabled(d, e) && e.Write? && d.writing.Some?
    ensures var d' := Step(d, e);
      d' == d.(queue := d.queue + [Pending(e.chunk, e.cb)], accepted := d.accepted + e.chunk)
  {
  }

  /** A reader that has emptied the buffer is told when there is more, and has asked for it. */
  lemma ReaderIsTold(d: Direction, e: Event)
    requires Inv(d) && Enabled(d, e) && e.Read? && !d.ended && Step(d, e).buffer == []
    ensures Step(d, e).needReadable && (d.mark > 0 ==> Step(d, e).reading)
  {
  }

  // ---- Destroying the pair ----

  // `tasks` are the 'close' events to be emitted, `timers` the destroys waiting for destroy_wait.
  datatype Task = LeftClose | RightClose

  datatype Ends = Ends(
    leftDestroyed: bool, rightDestroyed: bool, tasks: seq<Task>, timers: nat, leftCloses: nat, rightCloses: nat)

  const BOTH_OPEN := Ends(false, false, [], 0, 0, 0)

  // The stream library's destroy: the first time, 'close' is emitted on a later tick.
  function DestroyLeft(p: Ends): Ends {
    if p.leftDestroyed then p else p.(leftDestroyed := true, tasks := p.tasks + [LeftClose])
  }

  // The closure `destroy` of the right end.
  function DestroyBoth(p: Ends): Ends {
    var p := DestroyLeft(p);
    if p.rightDestroyed then p else p.(rightDestroyed := true, tasks := p.tasks + [RightClose])
  }

  function DestroyRight(p: Ends, wait: bool, now: bool): Ends {
    if !wait || now then DestroyBoth(p) else p.(timers := p.timers + 1)
  }

  datatype PairEvent = CallDestroyLeft | CallDestroyRight(now: bool) | RunTask | RunTimer

  predicate PairEnabled(p: Ends, e: PairEvent) {
    match e
    case RunTask => p.tasks != []
    case RunTimer => p.timers > 0
    case _ => true
  }

  function PairStep(p: Ends, e: PairEvent, wait: bool): Ends
    requires PairEnabled(p, e)
  {
    match e
    case CallDestroyLeft => DestroyLeft(p)
    case CallDestroyRight(now) => DestroyRight(p, wait, now)
    case RunTask =>
      var p' := p.(tasks := p.tasks[1..]);
      if p.tasks[0].LeftClose? then DestroyRight(p'.(leftCloses := p.leftCloses + 1), wait, true)
      else p'.(rightCloses := p.rightCloses + 1)
    case RunTimer => DestroyBoth(p.(timers := p.timers - 1))
  }

  class PairOfEnds {
    const wait: bool
    var leftDestroyed: bool
    var rightDestroyed: bool
    var tasks: seq<Task>
    var timers: nat
    ghost var leftCloses: nat
    ghost var rightCloses: nat

    ghost function State(): Ends reads this {
      Ends(leftDestroyed, rightDestroyed, tasks, timers, leftCloses, rightCloses)
    }

    constructor (wait: bool)
      ensures this.wait == wait && State() == BOTH_OPEN && PairInv(State())
    {
      this.wait := wait;
      leftDestroyed, rightDestroyed, tasks, timers, leftCloses, rightCloses := false, false, [], 0, 0, 0;
    }

    method LeftDestroy()
      modifies this`leftDestroyed, this`tasks
      ensures State() == DestroyLeft(old(State()))
    {
      if !leftDestroyed {
        leftDestroyed := true;
        tasks := tasks + [LeftClose];
      }
    }

    method Destroy()
      modifies this`leftDestroyed, this`rightDestroyed, this`tasks
      ensures State() == DestroyBoth(old(State()))
    {
      LeftDestroy();
      if !rightDestroyed {
        rightDestroyed := true;
        tasks := tasks + [RightClose];
      }
    }

    method RightDestroy(now: bool)
      modifies this`leftDestroyed, this`rightDestroyed, this`tasks, this`timers
      ensures State() == DestroyRight(old(State()), wait, now)
      ensures if !wait || now then leftDestroyed && rightDestroyed && timers == old(timers)
              else leftDestroyed == old(leftDestroyed) && rightDestroyed == old(rightDestroyed)
                   && timers == old(timers) + 1
    {
      if !wait || now {
        Destroy();
      } else {
        timers := timers + 1;
      }
    }

    // The left end's `emit` passes 'close' on to the right end.
    method EmitNext()
      requires tasks != []
      modifies this
      ensures State() == PairStep(old(State()), RunTask, wait)
    {
      var task := tasks[0];
      tasks := tasks[1..];
      if task.LeftClose? {
        leftCloses := leftCloses + 1;
        RightDestroy(true);
      } else {
        rightCloses := rightCloses + 1;
      }
    }
  }

  function CountTask(ts: seq<Task>, t: Task): nat { multiset(ts)[t] }

  ghost predicate PairInv(p: Ends) {
    CloseOnce(p) && (p.rightDestroyed ==> p.leftDestroyed) && (p.leftCloses == 1 ==> p.rightDestroyed)
  }

  function Work(p: Ends): nat {
    |p.tasks| + p.timers + (if p.leftDestroyed then 0 else 2) + (if p.rightDestroyed then 0 else 2)
  }

  lemma TaskCounts(ts: seq<Task>, t: Task, u: Task)
    ensures CountTask(ts + [u], t) == CountTask(ts, t) + (if t == u then 1 else 0)
    ensures ts != [] ==> CountTask(ts, t) == CountTask(ts[1..], t) + (if ts[0] == t then 1 else 0)
  {
    if ts != [] { assert ts == [ts[0]] + ts[1..]; }
  }

  // Every 'close' emitted or to be emitted is of an end that is destroyed, and the other way round.
  ghost predicate CloseOnce(p: Ends) {
    && p.leftCloses + CountTask(p.tasks, LeftClose) == (if p.leftDestroyed then 1 else 0)
    && p.rightCloses + CountTask(p.tasks, RightClose) == (if p.rightDestroyed then 1 else 0)
  }

  lemma DestroyLeftOnce(p: Ends)
    requires CloseOnce(p)
    ensures var p' := DestroyLeft(p); CloseOnce(p') && p'.leftDestroyed && Work(p') <= Work(p)
  {
    TaskCounts(p.tasks, LeftClose, LeftClose);
    TaskCounts(p.tasks, RightClose, LeftClose);
  }

  lemma DestroyBothOnce(p: Ends)
    requires CloseOnce(p)
    ensures var p' := DestroyBoth(p);
      CloseOnce(p') && p'.leftDestroyed && p'.rightDestroyed && Work(p') <= Work(p)
      && p'.timers == p.timers && p'.leftCloses == p.leftCloses
  {
    DestroyLeftOnce(p);
    var q := DestroyLeft(p);
    TaskCounts(q.tasks, LeftClose, RightClose);
    TaskCounts(q.tasks, RightClose, RightClose);
  }

  lemma TaskKeepsInv(p: Ends, wait: bool)
    requires PairInv(p) && p.tasks != []
    ensures PairInv(PairStep(p, RunTask, wait)) && Work(PairStep(p, RunTask, wait)) < Work(p)
  {
    hide DestroyBoth, CountTask;
    TaskCounts(p.tasks, LeftClose, LeftClose);
    TaskCounts(p.tasks, RightClose, LeftClose);
    if p.tasks[0].LeftClose? { DestroyBothOnce(p.(tasks := p.tasks[1..], leftCloses := p.leftCloses + 1)); }
  }

  lemma PairStepKeepsInv(p: Ends, e: PairEvent, wait: bool)
    requires PairInv(p) && PairEnabled(p, e)
    ensures PairInv(PairStep(p, e, wait))
    ensures e.RunTask? || e.RunTimer? ==> Work(PairStep(p, e, wait)) < Work(p)
  {
    hide DestroyBoth;
    match e
    case CallDestroyLeft => DestroyLeftOnce(p);
    case CallDestroyRight(_) => DestroyBothOnce(p);
    case RunTimer => DestroyBothOnce(p.(timers := p.timers - 1));
    case RunTask => TaskKeepsInv(p, wait);
  }

  // Both ends are destroyed in this step: by the right end's destroy, unless it is to wait; by a wait that is over; or
  // by the left end's 'close'.
  predicate DestroysBoth(p: Ends, e: PairEvent, wait: bool)
    requires PairEnabled(p, e)
  {
    match e
    case CallDestroyLeft => false
    case CallDestroyRight(now) => now || !wait
    case RunTask => p.tasks[0].LeftClose?
    case RunTimer => true
  }

  /** Each end is destroyed exactly when it is its turn, and a wait that is set is waited for. */
  lemma DestroyedWhen(p: Ends, e: PairEvent, wait: bool)
    requires PairEnabled(p, e)
    ensures var p' := PairStep(p, e, wait);
      && (p'.leftDestroyed <==> p.leftDestroyed || e.CallDestroyLeft? || DestroysBoth(p, e, wait))
      && (p'.rightDestroyed <==> p.rightDestroyed || DestroysBoth(p, e, wait))
      && (p'.timers > p.timers <==> e.CallDestroyRight? && wait && !e.now)
      && (p'.timers < p.timers <==> e.RunTimer?)
      && p'.leftCloses == p.leftCloses + (if e.RunTask? && p.tasks[0].LeftClose? then 1 else 0)
      && p'.rightCloses == p.rightCloses + (if e.RunTask? && p.tasks[0].RightClose? then 1 else 0)
  {
  }

  function TasksIn(es: seq<PairEvent>): nat {
    if es == [] then 0 else (if es[0].RunTask? then 1 else 0) + TasksIn(es[1..])
  }

  // Every task run emits one 'close'.
  lemma {:induction false} TasksEmit(p: Ends, es: seq<PairEvent>, wait: bool)
    requires PairIsRun(p, es, wait)
    ensures var p' := PairRun(p, es, wait); p'.leftCloses + p'.rightCloses == p.leftCloses + p.rightCloses + TasksIn(es)
    decreases |es|
  {
    hide PairStep;
    if es != [] {
      DestroyedWhen(p, es[0], wait);
      TasksEmit(PairStep(p, es[0], wait), es[1..], wait);
    }
  }

  /** However the two ends are destroyed, neither emits 'close' twice. */
  lemma {:induction false} AnyRunKeepsInv(p: Ends, es: seq<PairEvent>, wait: bool)
    requires PairInv(p) && PairIsRun(p, es, wait)
    ensures PairInv(BOTH_OPEN)
    ensures PairInv(PairRun(p, es, wait))
    decreases |es|
  {
    hide PairStep;
    if es != [] {
      PairStepKeepsInv(p, es[0], wait);
      AnyRunKeepsInv(PairStep(p, es[0], wait), es[1..], wait);
    }
  }

  /** However the two ends are destroyed, each emits 'close' at most once; running the pending tasks and timers
      comes to an end; and when none is left, both ends are destroyed if anything was ever asked for. */
  lemma {:induction false} MutualDestroyEnds(p: Ends, es: seq<PairEvent>, wait: bool)
    requires PairInv(p) && forall i :: 0 <= i < |es| ==> es[i].RunTask? || es[i].RunTimer?
    requires PairIsRun(p, es, wait)
    ensures |es| <= Work(p)
    ensures var p' := PairRun(p, es, wait);
      && p'.leftCloses <= 1 && p'.rightCloses <= 1
      && (p'.tasks == [] && p'.timers == 0 && (p.leftDestroyed || p.rightDestroyed || p.timers > 0) ==>
            p'.leftDestroyed && p'.rightDestroyed && p'.leftCloses == 1 && p'.rightCloses == 1)
    decreases |es|
  {
    if es != [] {
      PairStepKeepsInv(p, es[0], wait);
      MutualDestroyEnds(PairStep(p, es[0], wait), es[1..], wait);
    }
  }

  predicate PairIsRun(p: Ends, es: seq<PairEvent>, wait: bool)
    decreases |es|
  {
    es == [] || (PairEnabled(p, es[0]) && PairIsRun(PairStep(p, es[0], wait), es[1..], wait))
  }

  function PairRun(p: Ends, es: seq<PairEvent>, wait: bool): Ends
    requires PairIsRun(p, es, wait)
    decreases |es|
  {
    if es == [] then p else PairRun(PairStep(p, es[0], wait), es[1..], wait)
  }
}
