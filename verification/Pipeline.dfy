/** lib/server.js `pipeline`: handlers in a row for one event, each deciding with which arguments, and
    whether, the next one runs. */
module Pipeline {
  // What a handler does with its arguments and the event's, which `next.orig_arguments` holds: the argument of each
  // call it makes to `next`, in order.
  type Handler<!A> = (A, A) -> seq<A>

  datatype Call<A> = Ran(i: nat, a: A) | Default(a: A)

  // The calls made when handler i is run on `a`: its own, and those of the rest for each call to `next`.
  function Trace<A(!new)>(hs: seq<Handler<A>>, i: nat, a: A, orig: A): seq<Call<A>>
    requires i <= |hs|
    decreases |hs| - i, 0, 0
  {
    if i == |hs| then [Default(a)] else [Ran(i, a)] + TraceAll(hs, i + 1, hs[i](a, orig), orig)
  }

  function TraceAll<A(!new)>(hs: seq<Handler<A>>, i: nat, args: seq<A>, orig: A): seq<Call<A>>
    requires i <= |hs|
    decreases |hs| - i, 1, |args|
  {
    if args == [] then [] else Trace(hs, i, args[0], orig) + TraceAll(hs, i, args[1..], orig)
  }

  // The default handler's part of a trace.
  function Defaults<A>(t: seq<Call<A>>): seq<A> {
    if t == [] then [] else (if t[0].Default? then [t[0].a] else []) + Defaults(t[1..])
  }

  class Emitter<A(!new)> {
    // One list of handlers for each event name.
    var handlers: map<string, seq<Handler<A>>>
    var trace: seq<Call<A>>

    constructor ()
      ensures handlers == map[] && trace == []
    {
      handlers, trace := map[], [];
    }

    method Pipeline(evname: string, handler: Handler<A>)
      modifies this`handlers
      ensures evname in handlers &&
        handlers[evname] == (if evname in old(handlers) then old(handlers)[evname] else []) + [handler]
      ensures handlers - {evname} == old(handlers) - {evname}
    {
      if evname !in handlers { handlers := handlers[evname := []]; }
      handlers := handlers[evname := handlers[evname] + [handler]];
    }

    method Next(evname: string, i: nat, a: A, orig: A)
      requires evname in handlers && i <= |handlers[evname]|
      modifies this`trace
      ensures trace == old(trace) + Trace(handlers[evname], i, a, orig)
      decreases |handlers[evname]| - i, 0, 0
    {
      var hs := handlers[evname];
      if i == |hs| {
        trace := trace + [Default(a)];
        return;
      }
      ghost var before := trace;
      trace := trace + [Ran(i, a)];
      RunHandler(evname, i + 1, hs[i](a, orig), orig);
      assert before + ([Ran(i, a)] + TraceAll(hs, i + 1, hs[i](a, orig), orig)) ==
        before + [Ran(i, a)] + TraceAll(hs, i + 1, hs[i](a, orig), orig);
    }

    // The calls that one handler makes to its `next`.
    method RunHandler(evname: string, i: nat, args: seq<A>, orig: A)
      requires evname in handlers && i <= |handlers[evname]|
      modifies this`trace
      ensures trace == old(trace) + TraceAll(handlers[evname], i, args, orig)
      decreases |handlers[evname]| - i, 1, |args|
    {
      if args == [] { return; }
      ghost var before := trace;
      var hs := handlers[evname];
      Next(evname, i, args[0], orig);
      RunHandler(evname, i, args[1..], orig);
      assert before + (Trace(hs, i, args[0], orig) + TraceAll(hs, i, args[1..], orig)) ==
        before + Trace(hs, i, args[0], orig) + TraceAll(hs, i, args[1..], orig);
    }

    method Emit(evname: string, a: A)
      modifies this`trace
      ensures trace == old(trace) + if evname in handlers then Trace(handlers[evname], 0, a, a) else []
    {
      if evname in handlers { Next(evname, 0, a, a); }
    }
  }

  // ---- Handlers that call `next` any number of times: composition, level by level ----

  function Spread<A(!new)>(h: Handler<A>, args: seq<A>, orig: A): seq<A> {
    if args == [] then [] else h(args[0], orig) + Spread(h, args[1..], orig)
  }

  function Level<A(!new)>(hs: seq<Handler<A>>, i: nat, args: seq<A>, orig: A): seq<A>
    requires i <= |hs|
    decreases |hs| - i
  {
    if i == |hs| then args else Level(hs, i + 1, Spread(hs[i], args, orig), orig)
  }

  lemma {:induction false} SpreadAppend<A(!new)>(h: Handler<A>, a: seq<A>, b: seq<A>, orig: A)
    ensures Spread(h, a + b, orig) == Spread(h, a, orig) + Spread(h, b, orig)
    decreases |a|
  {
    if a == [] {
      assert a + b == b;
    } else {
      assert (a + b)[1..] == a[1..] + b;
      SpreadAppend(h, a[1..], b, orig);
    }
  }

  lemma {:induction false} LevelAppend<A(!new)>(hs: seq<Handler<A>>, i: nat, a: seq<A>, b: seq<A>, orig: A)
    requires i <= |hs|
    ensures Level(hs, i, a + b, orig) == Level(hs, i, a, orig) + Level(hs, i, b, orig)
    decreases |hs| - i
  {
    hide Spread;
    if i < |hs| {
      SpreadAppend(hs[i], a, b, orig);
      LevelAppend(hs, i + 1, Spread(hs[i], a, orig), Spread(hs[i], b, orig), orig);
    }
  }

  lemma {:induction false} LevelNone<A(!new)>(hs: seq<Handler<A>>, i: nat, orig: A)
    requires i <= |hs|
    ensures Level(hs, i, [], orig) == []
    decreases |hs| - i
  {
    if i < |hs| { LevelNone(hs, i + 1, orig); }
  }

  lemma DefaultsFirst<A>(c: Call<A>, t: seq<Call<A>>)
    ensures Defaults([c] + t) == (if c.Default? then [c.a] else []) + Defaults(t)
  {
    assert ([c] + t)[1..] == t;
  }

  lemma FirstCall<A>(s: seq<Call<A>>, t: seq<Call<A>>)
    requires s != []
    ensures s == [s[0]] + s[1..] && s + t == [s[0]] + (s[1..] + t)
  {
  }

  lemma {:induction false} DefaultsAppend<A>(s: seq<Call<A>>, t: seq<Call<A>>)
    ensures Defaults(s + t) == Defaults(s) + Defaults(t)
    decreases |s|
  {
    if s == [] {
      assert s + t == t;
    } else {
      hide Defaults;
      FirstCall(s, t);
      DefaultsFirst(s[0], s[1..] + t);
      DefaultsFirst(s[0], s[1..]);
      DefaultsAppend(s[1..], t);
    }
  }

  lemma {:induction false} TraceDefaults<A(!new)>(hs: seq<Handler<A>>, i: nat, a: A, orig: A)
    requires i <= |hs|
    ensures Defaults(Trace(hs, i, a, orig)) == Level(hs, i, [a], orig)
    decreases |hs| - i, 0, 0
  {
    if i == |hs| {
      DefaultsFirst(Default(a), []);
      assert [Default(a)] + [] == [Default(a)];
    } else {
      hide TraceAll;
      TraceAllDefaults(hs, i + 1, hs[i](a, orig), orig);
      DefaultsFirst(Ran(i, a), TraceAll(hs, i + 1, hs[i](a, orig), orig));
      assert [a][1..] == [] && hs[i](a, orig) + [] == hs[i](a, orig);
      assert Spread(hs[i], [a], orig) == hs[i](a, orig);
    }
  }

  lemma {:induction false} TraceAllDefaults<A(!new)>(hs: seq<Handler<A>>, i: nat, args: seq<A>, orig: A)
    requires i <= |hs|
    ensures Defaults(TraceAll(hs, i, args, orig)) == Level(hs, i, args, orig)
    decreases |hs| - i, 1, |args|
  {
    if args == [] {
      LevelNone(hs, i, orig);
    } else {
      hide Level, Trace, Defaults;
      TraceDefaults(hs, i, args[0], orig);
      TraceAllDefaults(hs, i, args[1..], orig);
      DefaultsAppend(Trace(hs, i, args[0], orig), TraceAll(hs, i, args[1..], orig));
      LevelAppend(hs, i, [args[0]], args[1..], orig);
      assert [args[0]] + args[1..] == args;
    }
  }

  /** Whatever the handlers do, the default handler gets the composition of them all, from left to right. */
  lemma DefaultGetsComposition<A(!new)>(hs: seq<Handler<A>>, a: A)
    ensures Defaults(Trace(hs, 0, a, a)) == Level(hs, 0, [a], a)
  {
    TraceDefaults(hs, 0, a, a);
  }

  // ---- Handlers that call `next` at most once ----

  ghost predicate AtMostOnce<A(!new)>(hs: seq<Handler<A>>) {
    forall i, a, orig :: 0 <= i < |hs| ==> |hs[i](a, orig)| <= 1
  }

  // The arguments in a row, as long as `next` is called.
  function Chain<A(!new)>(hs: seq<Handler<A>>, i: nat, a: A, orig: A): seq<A>
    requires i <= |hs|
    decreases |hs| - i
  {
    if i == |hs| || |hs[i](a, orig)| != 1 then [a] else [a] + Chain(hs, i + 1, hs[i](a, orig)[0], orig)
  }

  // From handler i on each runs once, in order, on what the one before passed on, up to the first that does not call
  // `next`; the default handler runs exactly when all of them call it.
  ghost predicate InARow<A(!new)>(hs: seq<Handler<A>>, i: nat, t: seq<Call<A>>, args: seq<A>, orig: A)
    requires i <= |hs|
  {
    && 1 <= |t| == |args| <= |hs| - i + 1
    && (forall k :: 0 <= k < |t| ==> t[k] == if i + k < |hs| then Ran(i + k, args[k]) else Default(args[k]))
    && (forall k :: 0 <= k < |args| - 1 ==> hs[i + k](args[k], orig) == [args[k + 1]])
    && (|args| <= |hs| - i ==> hs[i + |args| - 1](args[|args| - 1], orig) == [])
  }

  lemma OneMoreInARow<A(!new)>(hs: seq<Handler<A>>, i: nat, a: A, t: seq<Call<A>>, args: seq<A>, orig: A)
    requires i < |hs| && InARow(hs, i + 1, t, args, orig) && hs[i](a, orig) == [args[0]]
    ensures InARow(hs, i, [Ran(i, a)] + t, [a] + args, orig)
  {
  }

  lemma PassedOn<A(!new)>(hs: seq<Handler<A>>, i: nat, a: A, orig: A)
    requires i < |hs| && |hs[i](a, orig)| == 1
    ensures Trace(hs, i, a, orig) == [Ran(i, a)] + Trace(hs, i + 1, hs[i](a, orig)[0], orig)
    ensures Chain(hs, i, a, orig) == [a] + Chain(hs, i + 1, hs[i](a, orig)[0], orig)
  {
    var passed := hs[i](a, orig);
    assert passed[1..] == [];
    assert TraceAll(hs, i + 1, passed, orig)
        == Trace(hs, i + 1, passed[0], orig) + TraceAll(hs, i + 1, passed[1..], orig);
  }

  lemma NotPassedOn<A(!new)>(hs: seq<Handler<A>>, i: nat, a: A, orig: A)
    requires i <= |hs| && (i < |hs| ==> hs[i](a, orig) == [])
    ensures InARow(hs, i, Trace(hs, i, a, orig), Chain(hs, i, a, orig), orig)
  {
    if i < |hs| {
      assert TraceAll(hs, i + 1, [], orig) == [];
      assert Trace(hs, i, a, orig) == [Ran(i, a)];
    }
  }

  lemma ChainFirst<A(!new)>(hs: seq<Handler<A>>, i: nat, a: A, orig: A)
    requires i <= |hs|
    ensures Chain(hs, i, a, orig) != [] && Chain(hs, i, a, orig)[0] == a
  {
  }

  /** Then handlers run once each, in order, each on what the one before passed on, up to the first that does
      not call `next`; the default handler runs exactly when all of them call it. */
  lemma {:induction false} ShortCircuit<A(!new)>(hs: seq<Handler<A>>, i: nat, a: A, orig: A)
    requires i <= |hs| && AtMostOnce(hs)
    ensures InARow(hs, i, Trace(hs, i, a, orig), Chain(hs, i, a, orig), orig)
    decreases |hs| - i
  {
    hide Trace, Chain, InARow;
    if i == |hs| || |hs[i](a, orig)| == 0 {
      NotPassedOn(hs, i, a, orig);
    } else {
      assert |hs[i](a, orig)| == 1;
      var next := hs[i](a, orig)[0];
      ShortCircuit(hs, i + 1, next, orig);
      PassedOn(hs, i, a, orig);
      ChainFirst(hs, i + 1, next, orig);
      assert hs[i](a, orig) == [next];
      OneMoreInARow(hs, i, a, Trace(hs, i + 1, next, orig), Chain(hs, i + 1, next, orig), orig);
    }
  }
}
