/** The runs of HalfClose that half-close as often as can be are runs of the system: one loop,
    one connection that the application holds, and other threads that call and post. */
module LifecycleWitness {
  import opened Bytes
  import opened Connection
  import opened Channels
  import opened Lifecycle
  import opened LifecycleInvariant
  import opened LifecycleTheorems
  import opened LifecycleProjection
  import H = HalfClose

  // ----- runs and their calls -----

  lemma MakesCons(s: Sys, e: Event, s': Sys, es: seq<Event>, calls: seq<H.Made>, t: Sys)
    requires Enabled(s, e) && s' == Next(s, e) && Makes(s', es, 0, calls, t)
    ensures Makes(s, [e] + es, 0, CallsAt(s, e, 0) + calls, t)
  {
    var p := CallsAt(s, e, 0);
    assert ([e] + es)[1..] == es && (p + calls)[|p|..] == calls;
  }

  lemma Rejoin<T>(p: seq<T>, x: seq<T>, y: seq<T>)
    requires p <= x
    ensures p + (x[|p|..] + y) == x + y
  {
  }

  lemma {:induction false} MakesOn(s: Sys, a: seq<Event>, x: seq<H.Made>, t: Sys, b: seq<Event>, y: seq<H.Made>, u: Sys)
    requires Makes(s, a, 0, x, t) && Makes(t, b, 0, y, u)
    ensures Makes(s, a + b, 0, x + y, u)
    decreases |a|
  {
    if a == [] {
      assert a + b == b && x + y == y;
    } else {
      var s', p := Next(s, a[0]), CallsAt(s, a[0], 0);
      MakesOn(s', a[1..], x[|p|..], t, b, y, u);
      MakesCons(s, a[0], s', a[1..] + b, x[|p|..] + y, u);
      Rejoin([a[0]], a, b);
      Rejoin(p, x, y);
    }
  }

  lemma {:induction false} MakesLeads(s: Sys, es: seq<Event>, c: ConnId, calls: seq<H.Made>, t: Sys)
    requires Makes(s, es, c, calls, t)
    ensures Leads(s, es, t)
    decreases |es|
  {
    if es != [] {
      MakesLeads(Next(s, es[0]), es[1..], c, calls[|CallsAt(s, es[0], c)|..], t);
    }
  }

  /** `t` can be had from `s` by a run on which `calls` are made. */
  ghost predicate Gets(s: Sys, calls: seq<H.Made>, t: Sys) {
    exists es :: Makes(s, es, 0, calls, t)
  }

  lemma GetsOn(s: Sys, x: seq<H.Made>, t: Sys, y: seq<H.Made>, u: Sys)
    requires Gets(s, x, t) && Gets(t, y, u)
    ensures Gets(s, x + y, u)
  {
    var a :| Makes(s, a, 0, x, t);
    var b :| Makes(t, b, 0, y, u);
    MakesOn(s, a, x, t, b, y, u);
  }

  lemma GetsSplit(s: Sys, p: seq<H.Made>, t: Sys, calls: seq<H.Made>, u: Sys)
    requires p <= calls && Gets(s, p, t) && Gets(t, calls[|p|..], u)
    ensures Gets(s, calls, u)
  {
    assert p + calls[|p|..] == calls;
    GetsOn(s, p, t, calls[|p|..], u);
  }

  lemma GetsQuiet(s: Sys, t: Sys, u: Sys)
    requires Gets(s, [], t) && Gets(t, [], u)
    ensures Gets(s, [], u)
  {
    var none: seq<H.Made> := [];
    assert none + none == none;
    GetsOn(s, none, t, none, u);
  }

  lemma GetsSame(s: Sys)
    ensures Gets(s, [], s)
  {
    assert Makes(s, [], 0, [], s);
  }

  lemma GetsOne(s: Sys, e: Event, t: Sys)
    requires Reachable(s) && Enabled(s, e) && Same(Next(s, e), t)
    ensures Gets(s, CallsAt(s, e, 0), t) && Reachable(t)
  {
    SameIsEqual(Next(s, e), t);
    ReachableThen(s, e);
    var p := CallsAt(s, e, 0);
    assert p[|p|..] == [] && [e][1..] == [];
    assert Makes(t, [], 0, [], t);
    assert Makes(s, [e], 0, p, t);
  }

  // ----- one loop, one connection -----

  /** The connection is up, the application holds it, and nothing else happens. */
  function Stage(dispatching: bool, now: seq<Item>, pending: seq<Item>, conn: Conn): Sys {
    Scene(dispatching, now, pending, conn, true, 1, [Up(0)], false)
  }

  predicate IsUp(c: Conn) { c.state == Connected || c.state == Disconnecting }

  const NOTHING := Revents(false, false, false, false)
  const READS := Choice(0, NOTHING.(read := true), WouldBlock, Data)
  const WRITES := Choice(0, NOTHING.(write := true), WouldBlock, ReadError)

  function Answers(r: WriteResult): Choice { Choice(0, NOTHING, r, ReadError) }

  lemma StageEnabled(d: bool, h: Item, rest: seq<Item>, q: seq<Item>, c: Conn, ch: Choice)
    requires Reachable(Stage(d, [h] + rest, q, c)) && ch.target == 0 && !UsesAcceptor(h)
    requires h.SendFn? ==> Possible(ch.wrote, |h.msg|)
    requires h.Calling? && h.call.CallSend? ==> Possible(ch.wrote, |h.call.msg|)
    requires h.WriteFn? ==> Possible(ch.wrote, |c.output|)
    ensures RunEnabled(Stage(d, [h] + rest, q, c), 0, ch)
    ensures Raw(h) || h.Callback? || h.Guard? ==> h.c == 0
  {
    var s := Stage(d, [h] + rest, q, c);
    InvReachable(s);
    InvFormed(s);
    HeadOk(s, 0);
    assert s.loops[0].now[0] == Todo(s, 0)[0] == h;
  }

  /** An item that only goes. */
  lemma Pop(d: bool, h: Item, rest: seq<Item>, q: seq<Item>, c: Conn)
    requires h.Callback? || h.Guard? || h.BatchEnd? || h.Posted?
    requires Reachable(Stage(d, [h] + rest, q, c))
    ensures Gets(Stage(d, [h] + rest, q, c), [], Stage(d, rest, q, c)) && Reachable(Stage(d, rest, q, c))
  {
    StageEnabled(d, h, rest, q, c, QUIET);
    assert ([h] + rest)[1..] == rest && [] + rest == rest && q + [] == q;
    GetsOne(Stage(d, [h] + rest, q, c), Run(0, QUIET), Stage(d, rest, q, c));
  }

  /** A call or a functor of the connection. */
  lemma Carry(d: bool, h: Item, call: Call, r: WriteResult, rest: seq<Item>, q: seq<Item>, c: Conn)
    requires h == Functor(0, call) || h == Calling(0, call)
    requires !call.CallForceClose? && H.Fitting(r, call) && IsUp(c) && Reachable(Stage(d, [h] + rest, q, c))
    ensures Gets(Stage(d, [h] + rest, q, c), [], Stage(d, rest, q, H.Done(c, call, r)))
    ensures Reachable(Stage(d, rest, q, H.Done(c, call, r)))
  {
    StageEnabled(d, h, rest, q, c, Answers(r));
    assert ([h] + rest)[1..] == rest && [] + rest == rest && q + [] == q;
    GetsOne(Stage(d, [h] + rest, q, c), Run(0, Answers(r)), Stage(d, rest, q, H.Done(c, call, r)));
  }

  lemma WriteOut(rest: seq<Item>, q: seq<Item>, c: Conn, r: WriteResult)
    requires Possible(r, |c.output|) && IsUp(c) && Reachable(Stage(true, [WriteFn(0)] + rest, q, c))
    ensures Gets(Stage(true, [WriteFn(0)] + rest, q, c), [], Stage(true, rest, q, HandleWrite(c, r)))
    ensures Reachable(Stage(true, rest, q, HandleWrite(c, r)))
  {
    StageEnabled(true, WriteFn(0), rest, q, c, Answers(r));
    assert ([WriteFn(0)] + rest)[1..] == rest && [] + rest == rest && q + [] == q;
    GetsOne(Stage(true, [WriteFn(0)] + rest, q, c), Run(0, Answers(r)), Stage(true, rest, q, HandleWrite(c, r)));
  }

  /** The channel's event with one bit on. */
  lemma Dispatch(rest: seq<Item>, q: seq<Item>, c: Conn, ch: Choice, fn: seq<Item>)
    requires IsUp(c) && Reachable(Stage(true, [Chan(0)] + rest, q, c))
    requires (ch == READS && fn == [ReadFn(0)]) || (ch == WRITES && fn == [WriteFn(0)]) || (ch == QUIET && fn == [])
    ensures Gets(Stage(true, [Chan(0)] + rest, q, c), [], Stage(true, fn + [Guard(0)] + rest, q, c))
    ensures Reachable(Stage(true, fn + [Guard(0)] + rest, q, c))
  {
    var s := Stage(true, [Chan(0)] + rest, q, c);
    StageEnabled(true, Chan(0), rest, q, c, ch);
    UpConnectionsListen(s, 0);
    DispatchCalls(ch, fn);
    assert ([Chan(0)] + rest)[1..] == rest && q + [] == q;
    GetsOne(s, Run(0, ch), Stage(true, fn + [Guard(0)] + rest, q, c));
  }

  lemma DispatchCalls(ch: Choice, fn: seq<Item>)
    requires (ch == READS && fn == [ReadFn(0)]) || (ch == WRITES && fn == [WriteFn(0)]) || (ch == QUIET && fn == [])
    ensures Calls(0, Fired(ch.revents, {OnError, OnClose, OnRead, OnWrite})) == fn
  {
    var all := {OnError, OnClose, OnRead, OnWrite};
    assert Fired(ch.revents, all) == if ch == READS then [OnRead] else if ch == WRITES then [OnWrite] else [];
    assert [OnRead][1..] == [] && [OnWrite][1..] == [];
    assert Calls(0, [OnRead]) == [ReadFn(0)] + Calls(0, []);
    assert Calls(0, [OnWrite]) == [WriteFn(0)] + Calls(0, []);
  }

  lemma ReadIn(rest: seq<Item>, q: seq<Item>, c: Conn)
    requires IsUp(c) && Reachable(Stage(true, [ReadFn(0)] + rest, q, c))
    ensures Gets(Stage(true, [ReadFn(0)] + rest, q, c), [], Stage(true, [Callback(0)] + rest, q, c))
    ensures Reachable(Stage(true, [Callback(0)] + rest, q, c))
  {
    StageEnabled(true, ReadFn(0), rest, q, c, READS);
    assert ([ReadFn(0)] + rest)[1..] == rest && q + [] == q;
    GetsOne(Stage(true, [ReadFn(0)] + rest, q, c), Run(0, READS), Stage(true, [Callback(0)] + rest, q, c));
  }

  /** A call on the loop's thread, in a callback or a posted functor. */
  lemma CallsIn(d: bool, h: Item, rest: seq<Item>, q: seq<Item>, c: Conn, call: Call)
    requires h == Callback(0) || h == Posted
    requires Passes(c, call) && Reachable(Stage(d, [h] + rest, q, c))
    ensures var t := Stage(d, [Calling(0, call), Guard(0)] + ([h] + rest), q, AfterCheck(c, call));
            Gets(Stage(d, [h] + rest, q, c), [H.Made(call, true)], t) && Reachable(t)
  {
    var s := Stage(d, [h] + rest, q, c);
    StageEnabled(d, h, rest, q, c, QUIET);
    assert ([h] + rest)[1..] == rest && q + [] == q;
    assert [Calling(0, call), Guard(0), h] + rest == [Calling(0, call), Guard(0)] + ([h] + rest);
    GetsOne(s, UserOnLoop(0, Use(0, call)), Stage(d, [Calling(0, call), Guard(0)] + ([h] + rest), q, AfterCheck(c, call)));
  }

  /** A call from another thread, which posts something to the loop before. */
  lemma CallsOff(d: bool, now: seq<Item>, q: seq<Item>, c: Conn, call: Call)
    requires Passes(c, call) && Reachable(Stage(d, now, q, c))
    ensures var t := Stage(d, now, q + [Posted, Functor(0, call)], AfterCheck(c, call));
            Gets(Stage(d, now, q, c), [H.Made(call, false)], t) && Reachable(t)
  {
    Posts(d, now, q, c);
    var s, t := Stage(d, now, q + [Posted], c), Stage(d, now, q + [Posted, Functor(0, call)], AfterCheck(c, call));
    InvReachable(s);
    InvFormed(s);
    assert (q + [Posted]) + [Functor(0, call)] == q + [Posted, Functor(0, call)];
    GetsOne(s, UserElsewhere(Use(0, call)), t);
    GetsOn(Stage(d, now, q, c), [], s, [H.Made(call, false)], t);
    assert [] + [H.Made(call, false)] == [H.Made(call, false)];
  }

  lemma Posts(d: bool, now: seq<Item>, q: seq<Item>, c: Conn)
    requires Reachable(Stage(d, now, q, c))
    ensures Gets(Stage(d, now, q, c), [], Stage(d, now, q + [Posted], c)) && Reachable(Stage(d, now, q + [Posted], c))
  {
    var s := Stage(d, now, q, c);
    InvReachable(s);
    InvFormed(s);
    GetsOne(s, UserElsewhere(Post(0)), Stage(d, now, q + [Posted], c));
  }

  lemma Swaps(q: seq<Item>, c: Conn)
    requires Reachable(Stage(true, [], q, c)) && BatchRefs(q) == {}
    ensures Gets(Stage(true, [], q, c), [], Stage(false, q + [BatchEnd({})], [], c))
    ensures Reachable(Stage(false, q + [BatchEnd({})], [], c))
  {
    var s := Stage(true, [], q, c);
    InvReachable(s);
    InvFormed(s);
    GetsOne(s, Swap(0), Stage(false, q + [BatchEnd({})], [], c));
  }

  /** `n` events of the channel. */
  function Chans(n: nat): seq<Item> { seq(n, _ => Chan(0)) }

  lemma Polls(q: seq<Item>, c: Conn, n: nat)
    requires Reachable(Stage(false, [], q, c)) && IsUp(c)
    ensures Gets(Stage(false, [], q, c), [], Stage(true, Chans(n), q, c)) && Reachable(Stage(true, Chans(n), q, c))
  {
    var s := Stage(false, [], q, c);
    InvReachable(s);
    InvFormed(s);
    UpConnectionsListen(s, 0);
    GetsOne(s, Poll(0, Chans(n)), Stage(true, Chans(n), q, c));
  }

  // ----- the line on the stage -----

  /** Each queued functor has something posted ahead of it, where the loop's thread can call. */
  function Padded(q: seq<Call>): seq<Item> {
    if q == [] then [] else [Posted, Functor(0, q[0])] + Padded(q[1..])
  }

  lemma {:induction false} PaddedAppend(q: seq<Call>, call: Call)
    ensures Padded(q + [call]) == Padded(q) + [Posted, Functor(0, call)]
  {
    if q == [] {
      assert q + [call] == [call] && [call][1..] == [];
    } else {
      assert (q + [call])[1..] == q[1..] + [call];
      PaddedAppend(q[1..], call);
    }
  }

  lemma {:induction false} PaddedRefs(q: seq<Call>, more: seq<Item>)
    requires BatchRefs(more) == {}
    ensures BatchRefs(Padded(q) + more) == {}
    decreases |q|
  {
    if q == [] {
      assert Padded(q) + more == more;
    } else {
      var r := Padded(q) + more;
      assert r[1..] == [Functor(0, q[0])] + (Padded(q[1..]) + more);
      assert r[1..][1..] == Padded(q[1..]) + more;
      PaddedRefs(q[1..], more);
      assert BatchRefs(r[1..]) == Refs(r[1]) + BatchRefs(r[1..][1..]);
    }
  }

  const TAIL: seq<Item> := [Posted] + [BatchEnd({})]

  /** The system that shows the line `l`; a dispatch has `n` more events of the channel. */
  function Shown(l: H.Line, n: nat): Sys {
    var base := if l.running then Padded(l.batch) + TAIL else Chans(n);
    var now := match l.inline
      case None => base
      case Some(call) =>
        if l.running then [Calling(0, call), Guard(0)] + base else [Calling(0, call), Guard(0), Callback(0), Guard(0)] + base;
    Stage(!l.running, now, Padded(l.pending), l.conn)
  }

  lemma PaddedHead(q: seq<Call>) returns (rest: seq<Item>)
    ensures Padded(q) + TAIL == [Posted] + rest
    ensures q != [] ==> rest == [Functor(0, q[0])] + (Padded(q[1..]) + TAIL)
    ensures q == [] ==> rest == [BatchEnd({})]
  {
    rest := if q == [] then [BatchEnd({})] else [Functor(0, q[0])] + (Padded(q[1..]) + TAIL);
    if q != [] {
      assert Padded(q) + TAIL == [Posted, Functor(0, q[0])] + Padded(q[1..]) + TAIL;
    }
  }

  lemma CallsInBatch(l: H.Line, n: nat, call: Call)
    requires l.inline.None? && l.running && Passes(l.conn, call) && Reachable(Shown(l, n))
    ensures var l' := H.Apply(l, H.CallHere(call));
            Gets(Shown(l, n), [H.Made(call, true)], Shown(l', n)) && Reachable(Shown(l', n))
  {
    var rest := PaddedHead(l.batch);
    CallsIn(false, Posted, rest, Padded(l.pending), l.conn, call);
  }

  /** The channel's event brings data to the callback. */
  lemma BringsData(rest: seq<Item>, q: seq<Item>, c: Conn)
    requires IsUp(c) && Reachable(Stage(true, [Chan(0)] + rest, q, c))
    ensures var t := Stage(true, [Callback(0)] + ([Guard(0)] + rest), q, c);
            Gets(Stage(true, [Chan(0)] + rest, q, c), [], t) && Reachable(t)
  {
    var more := [Guard(0)] + rest;
    Dispatch(rest, q, c, READS, [ReadFn(0)]);
    Joins([ReadFn(0)], [Guard(0)], rest);
    ReadIn(more, q, c);
    GetsQuiet(Stage(true, [Chan(0)] + rest, q, c), Stage(true, [ReadFn(0)] + more, q, c), Stage(true, [Callback(0)] + more, q, c));
  }

  /** The callback calls. */
  lemma CallsInCallback(rest: seq<Item>, q: seq<Item>, c: Conn, call: Call)
    requires IsUp(c) && Passes(c, call) && Reachable(Stage(true, [Chan(0)] + rest, q, c))
    ensures var t := Stage(true, [Calling(0, call), Guard(0), Callback(0), Guard(0)] + rest, q, AfterCheck(c, call));
            Gets(Stage(true, [Chan(0)] + rest, q, c), [H.Made(call, true)], t) && Reachable(t)
  {
    var more := [Guard(0)] + rest;
    BringsData(rest, q, c);
    CallsIn(true, Callback(0), more, q, c, call);
    assert [Calling(0, call), Guard(0)] + ([Callback(0)] + more) == [Calling(0, call), Guard(0), Callback(0), Guard(0)] + rest;
    GetsOn(Stage(true, [Chan(0)] + rest, q, c), [], Stage(true, [Callback(0)] + more, q, c), [H.Made(call, true)],
           Stage(true, [Calling(0, call), Guard(0)] + ([Callback(0)] + more), q, AfterCheck(c, call)));
    assert [] + [H.Made(call, true)] == [H.Made(call, true)];
  }

  lemma ShowsCallHere(l: H.Line, n: nat, call: Call)
    requires l.inline.None? && Passes(l.conn, call) && IsUp(l.conn) && n > 0 && Reachable(Shown(l, n))
    ensures var l', n' := H.Apply(l, H.CallHere(call)), if l.running then n else n - 1;
            Gets(Shown(l, n), [H.Made(call, true)], Shown(l', n')) && Reachable(Shown(l', n'))
  {
    if l.running {
      CallsInBatch(l, n, call);
    } else {
      assert Chans(n) == [Chan(0)] + Chans(n - 1);
      CallsInCallback(Chans(n - 1), Padded(l.pending), l.conn, call);
    }
  }

  lemma ShowsDo(l: H.Line, n: nat, r: WriteResult)
    requires H.Enabled(l, H.Do(r)) && !l.inline.value.CallForceClose? && IsUp(l.conn) && Reachable(Shown(l, n))
    ensures var l' := H.Apply(l, H.Do(r)); Gets(Shown(l, n), [], Shown(l', n)) && Reachable(Shown(l', n))
  {
    var call, q, c' := l.inline.value, Padded(l.pending), H.Done(l.conn, l.inline.value, r);
    if l.running {
      var base := Padded(l.batch) + TAIL;
      assert [Calling(0, call), Guard(0)] + base == [Calling(0, call)] + ([Guard(0)] + base);
      CarryGuarded(false, call, r, base, q, l.conn);
    } else {
      var base := Chans(n);
      var rest := [Callback(0), Guard(0)] + base;
      assert [Calling(0, call), Guard(0), Callback(0), Guard(0)] + base == [Calling(0, call)] + ([Guard(0)] + rest);
      CarryGuarded(true, call, r, rest, q, l.conn);
      PopTwo(true, Callback(0), Guard(0), base, q, c');
      GetsQuiet(Shown(l, n), Stage(true, rest, q, c'), Stage(true, base, q, c'));
    }
  }

  lemma CarryGuarded(d: bool, call: Call, r: WriteResult, rest: seq<Item>, q: seq<Item>, c: Conn)
    requires !call.CallForceClose? && H.Fitting(r, call) && IsUp(c)
    requires Reachable(Stage(d, [Calling(0, call)] + ([Guard(0)] + rest), q, c))
    ensures Gets(Stage(d, [Calling(0, call)] + ([Guard(0)] + rest), q, c), [], Stage(d, rest, q, H.Done(c, call, r)))
    ensures Reachable(Stage(d, rest, q, H.Done(c, call, r)))
  {
    var more, c' := [Guard(0)] + rest, H.Done(c, call, r);
    Carry(d, Calling(0, call), call, r, more, q, c);
    Pop(d, Guard(0), rest, q, c');
    GetsQuiet(Stage(d, [Calling(0, call)] + more, q, c), Stage(d, more, q, c'), Stage(d, rest, q, c'));
  }

  lemma PopTwo(d: bool, h: Item, g: Item, rest: seq<Item>, q: seq<Item>, c: Conn)
    requires (h.Callback? || h.Posted?) && (g.Guard? || g.BatchEnd?) && Reachable(Stage(d, [h, g] + rest, q, c))
    ensures Gets(Stage(d, [h, g] + rest, q, c), [], Stage(d, rest, q, c)) && Reachable(Stage(d, rest, q, c))
  {
    assert [h, g] + rest == [h] + ([g] + rest);
    Pop(d, h, [g] + rest, q, c);
    Pop(d, g, rest, q, c);
    GetsQuiet(Stage(d, [h, g] + rest, q, c), Stage(d, [g] + rest, q, c), Stage(d, rest, q, c));
  }

  lemma ShowsServe(l: H.Line, n: nat, r: WriteResult)
    requires H.Enabled(l, H.Serve(r)) && !l.batch[0].CallForceClose? && IsUp(l.conn) && Reachable(Shown(l, n))
    ensures var l' := H.Apply(l, H.Serve(r)); Gets(Shown(l, n), [], Shown(l', n)) && Reachable(Shown(l', n))
  {
    var q, call, rest := Padded(l.pending), l.batch[0], Padded(l.batch[1..]) + TAIL;
    var more := PaddedHead(l.batch);
    Pop(false, Posted, more, q, l.conn);
    Carry(false, Functor(0, call), call, r, rest, q, l.conn);
    GetsQuiet(Shown(l, n), Stage(false, more, q, l.conn), Stage(false, rest, q, H.Done(l.conn, call, r)));
  }

  lemma ShowsTurn(l: H.Line, n: nat)
    requires H.Enabled(l, H.Turn) && IsUp(l.conn) && Reachable(Shown(l, n))
    ensures var l' := H.Apply(l, H.Turn); Gets(Shown(l, n), [], Shown(l', n)) && Reachable(Shown(l', n))
  {
    var q := Padded(l.pending);
    assert Padded(l.batch) + TAIL == [Posted, BatchEnd({})] + [];
    PopTwo(false, Posted, BatchEnd({}), [], q, l.conn);
    Polls(q, l.conn, n);
    GetsQuiet(Shown(l, n), Stage(false, [], q, l.conn), Shown(H.Apply(l, H.Turn), n));
  }

  lemma ShowsWritable(l: H.Line, n: nat, r: WriteResult)
    requires H.Enabled(l, H.Writable(r)) && IsUp(l.conn) && n > 0 && Reachable(Shown(l, n))
    ensures var l' := H.Apply(l, H.Writable(r)); Gets(Shown(l, n), [], Shown(l', n - 1)) && Reachable(Shown(l', n - 1))
  {
    var q, rest, c' := Padded(l.pending), Chans(n - 1), HandleWrite(l.conn, r);
    assert Chans(n) == [Chan(0)] + rest;
    Dispatch(rest, q, l.conn, WRITES, [WriteFn(0)]);
    assert [WriteFn(0)] + [Guard(0)] + rest == [WriteFn(0)] + ([Guard(0)] + rest);
    WriteOut([Guard(0)] + rest, q, l.conn, r);
    Pop(true, Guard(0), rest, q, c');
    var s1, s2 := Stage(true, [WriteFn(0)] + ([Guard(0)] + rest), q, l.conn), Stage(true, [Guard(0)] + rest, q, c');
    GetsQuiet(Shown(l, n), s1, s2);
    GetsQuiet(Shown(l, n), s2, Stage(true, rest, q, c'));
  }

  /** What is left of the dispatch brings nothing. */
  lemma {:induction false} Idles(q: seq<Item>, c: Conn, n: nat)
    requires IsUp(c) && Reachable(Stage(true, Chans(n), q, c))
    ensures Gets(Stage(true, Chans(n), q, c), [], Stage(true, [], q, c)) && Reachable(Stage(true, [], q, c))
    decreases n
  {
    if n == 0 {
      assert Chans(0) == [];
      GetsSame(Stage(true, [], q, c));
    } else {
      var rest := Chans(n - 1);
      assert Chans(n) == [Chan(0)] + rest;
      Dispatch(rest, q, c, QUIET, []);
      assert [] + [Guard(0)] + rest == [Guard(0)] + rest;
      Pop(true, Guard(0), rest, q, c);
      Idles(q, c, n - 1);
      var s1, s2 := Stage(true, [Guard(0)] + rest, q, c), Stage(true, rest, q, c);
      GetsQuiet(Stage(true, Chans(n), q, c), s1, s2);
      GetsQuiet(Stage(true, Chans(n), q, c), s2, Stage(true, [], q, c));
    }
  }

  lemma PostedRefs(q: seq<Call>)
    ensures BatchRefs(Padded(q) + [Posted]) == {}
  {
    assert BatchRefs([Posted]) == Refs(Posted) + BatchRefs([Posted][1..]);
    PaddedRefs(q, [Posted]);
  }

  lemma Joins<T>(a: seq<T>, b: seq<T>, c: seq<T>)
    ensures a + b + c == a + (b + c)
  {
  }

  lemma ShowsSwap(l: H.Line, n: nat)
    requires H.Enabled(l, H.Swap) && IsUp(l.conn) && Reachable(Shown(l, n))
    ensures var l' := H.Apply(l, H.Swap); Gets(Shown(l, n), [], Shown(l', n)) && Reachable(Shown(l', n))
  {
    var q, c := Padded(l.pending), l.conn;
    Idles(q, c, n);
    Posts(true, [], q, c);
    PostedRefs(l.pending);
    Swaps(q + [Posted], c);
    Joins(q, [Posted], [BatchEnd({})]);
    GetsQuiet(Shown(l, n), Stage(true, [], q, c), Stage(true, [], q + [Posted], c));
    GetsQuiet(Shown(l, n), Stage(true, [], q + [Posted], c), Shown(H.Apply(l, H.Swap), n));
  }

  lemma ShowsCallElsewhere(l: H.Line, n: nat, call: Call)
    requires Passes(l.conn, call) && Reachable(Shown(l, n))
    ensures var l' := H.Apply(l, H.CallElsewhere(call));
            Gets(Shown(l, n), [H.Made(call, false)], Shown(l', n)) && Reachable(Shown(l', n))
  {
    var s := Shown(l, n);
    PaddedAppend(l.pending, call);
    CallsOff(!l.running, s.loops[0].now, Padded(l.pending), l.conn, call);
  }

  /** Each step of the line is shown, for the price of at most one event of the channel. */
  lemma ShowsStep(l: H.Line, n: nat, e: H.Event) returns (n': nat)
    requires H.Enabled(l, e) && H.Gentle(l, e) && IsUp(l.conn) && n > 0 && Reachable(Shown(l, n))
    ensures var l' := H.Apply(l, e);
            n' >= n - 1 && IsUp(l'.conn) && Gets(Shown(l, n), H.Passed(l, e), Shown(l', n')) && Reachable(Shown(l', n'))
  {
    n' := n;
    match e
    case CallHere(call) =>
      if Passes(l.conn, call) {
        ShowsCallHere(l, n, call);
        n' := if l.running then n else n - 1;
      } else {
        GetsSame(Shown(l, n));
      }
    case CallElsewhere(call) =>
      if Passes(l.conn, call) { ShowsCallElsewhere(l, n, call); } else { GetsSame(Shown(l, n)); }
    case Do(r) => ShowsDo(l, n, r);
    case Serve(r) => ShowsServe(l, n, r);
    case Turn => ShowsTurn(l, n);
    case Swap => ShowsSwap(l, n);
    case Writable(r) =>
      ShowsWritable(l, n, r);
      n' := n - 1;
  }

  lemma {:induction false} ShowsWalk(l: H.Line, n: nat, es: seq<H.Event>, calls: seq<H.Made>, l': H.Line) returns (n': nat)
    requires H.Walks(l, es, calls, l') && IsUp(l.conn) && n >= |es| && Reachable(Shown(l, n))
    ensures n' >= n - |es| && IsUp(l'.conn) && Gets(Shown(l, n), calls, Shown(l', n')) && Reachable(Shown(l', n'))
    decreases |es|
  {
    if es == [] {
      GetsSame(Shown(l, n));
      n' := n;
    } else {
      var p, l1 := H.Passed(l, es[0]), H.Apply(l, es[0]);
      var n1 := ShowsStep(l, n, es[0]);
      n' := ShowsWalk(l1, n1, es[1..], calls[|p|..], l');
      GetsSplit(Shown(l, n), p, Shown(l1, n1), calls, Shown(l', n'));
    }
  }

  /** The forceClose calls that come last change nothing that is counted. */
  lemma {:induction false} ShowsEnds(l: H.Line, n: nat, calls: seq<H.Made>) returns (t: Sys)
    requires IsUp(l.conn) && (l.inline.None? || (l.inline == Some(CallForceClose) && l.conn.state == Disconnecting))
    requires H.Allowed(H.StageOf(l), calls) && (forall m <- calls :: m.call.CallForceClose?)
    requires n > |calls| && Reachable(Shown(l, n))
    ensures Gets(Shown(l, n), calls, t) && |t.conns| == 1
    ensures t.conns[0].fins == l.conn.fins && t.conns[0].wire == l.conn.wire
    decreases |calls|
  {
    if calls == [] {
      t := Shown(l, n);
      GetsSame(t);
    } else {
      var m := calls[0];
      assert calls == [m] + calls[1..] && m in calls;
      var l' := H.Apply(l, if m.onLoop then H.CallHere(CallForceClose) else H.CallElsewhere(CallForceClose));
      var n' := if m.onLoop && !l.running then n - 1 else n;
      if m.onLoop { ShowsCallHere(l, n, CallForceClose); } else { ShowsCallElsewhere(l, n, CallForceClose); }
      t := ShowsEnds(l', n', calls[1..]);
      GetsOn(Shown(l, n), [m], Shown(l', n'), calls[1..], t);
    }
  }

  // ----- the beginning -----

  const BOOT := Sys([Loop(false, [], [])], [], [], {}, multiset{}, [], {}, true)

  /** The server accepts one connection on its own loop, the application keeps it, and the loop
      gets to a dispatch with `n` events of the channel. */
  lemma Opens(n: nat)
    ensures Gets(BOOT, [], Shown(H.Fresh(), n)) && Reachable(Shown(H.Fresh(), n))
  {
    Accepts();
    var up := Stage(true, [], [], OPEN);
    assert BatchRefs([]) == {} && [] + [BatchEnd({})] == [BatchEnd({})] + [];
    Swaps([], OPEN);
    var idle := Stage(false, [], [], OPEN);
    Pop(false, BatchEnd({}), [], [], OPEN);
    Polls([], OPEN, n);
    GetsQuiet(BOOT, up, Stage(false, [BatchEnd({})] + [], [], OPEN));
    GetsQuiet(BOOT, Stage(false, [BatchEnd({})] + [], [], OPEN), idle);
    GetsQuiet(BOOT, idle, Shown(H.Fresh(), n));
  }

  lemma Accepts()
    ensures Gets(BOOT, [], Stage(true, [], [], OPEN)) && Reachable(Stage(true, [], [], OPEN))
  {
    Returns();
    Tails();
    GetsQuiet(BOOT, Stage(true, [AcceptTail], [], OPEN), Stage(true, [], [], OPEN));
  }

  lemma Tails()
    requires Reachable(Stage(true, [AcceptTail], [], OPEN))
    ensures Gets(Stage(true, [AcceptTail], [], OPEN), [], Stage(true, [], [], OPEN)) && Reachable(Stage(true, [], [], OPEN))
  {
    First(Stage(true, [AcceptTail], [], OPEN), Stage(true, [], [], OPEN));
  }

  lemma Returns()
    ensures Gets(BOOT, [], Stage(true, [AcceptTail], [], OPEN)) && Reachable(Stage(true, [AcceptTail], [], OPEN))
  {
    Keeps();
    Pop(true, Callback(0), [AcceptTail], [], OPEN);
    GetsQuiet(BOOT, Stage(true, [Callback(0)] + [AcceptTail], [], OPEN), Stage(true, [AcceptTail], [], OPEN));
  }

  lemma Keeps()
    ensures var s := Stage(true, [Callback(0)] + [AcceptTail], [], OPEN); Gets(BOOT, [], s) && Reachable(s)
  {
    Establishes();
    var s3 := Scene(true, [Callback(0), AcceptTail], [], OPEN, true, 0, [Up(0)], false);
    var s4 := Stage(true, [Callback(0)] + [AcceptTail], [], OPEN);
    InvReachable(s3);
    InvFormed(s3);
    GetsOne(s3, UserOnLoop(0, Keep(0)), s4);
    GetsQuiet(BOOT, s3, s4);
  }

  lemma Establishes()
    ensures var s := Scene(true, [Callback(0), AcceptTail], [], OPEN, true, 0, [Up(0)], false); Gets(BOOT, [], s) && Reachable(s)
  {
    var s2 := Scene(true, [EstablishFn(0), AcceptTail], [], FRESH, true, 0, [], false);
    var s3 := Scene(true, [Callback(0), AcceptTail], [], OPEN, true, 0, [Up(0)], false);
    Accepted();
    First(s2, s3);
    GetsQuiet(BOOT, s2, s3);
  }

  lemma Accepted()
    ensures var s := Scene(true, [EstablishFn(0), AcceptTail], [], FRESH, true, 0, [], false); Gets(BOOT, [], s) && Reachable(s)
  {
    var s1 := Sys([Loop(true, [Accept], [])], [], [], {}, multiset{}, [], {}, true);
    var s2 := Scene(true, [EstablishFn(0), AcceptTail], [], FRESH, true, 0, [], false);
    Boots(s1);
    First(s1, s2);
    GetsQuiet(BOOT, s1, s2);
  }

  lemma Boots(s1: Sys)
    requires s1 == Sys([Loop(true, [Accept], [])], [], [], {}, multiset{}, [], {}, true)
    ensures Gets(BOOT, [], s1) && Reachable(s1)
  {
    var e := Poll(0, [Accept]);
    assert Initial(BOOT) && Leads(BOOT, [], BOOT);
    ReachableThen(BOOT, e);
    assert Next(BOOT, e) == s1;
    assert Makes(s1, [], 0, [], s1) && [e][1..] == [];
    assert Makes(BOOT, [e], 0, [], s1);
  }

  /** The first item runs, with nothing for the kernel to decide. */
  lemma First(s: Sys, t: Sys)
    requires Reachable(s) && |s.loops| == 1 && s.loops[0].now != []
    requires var h := s.loops[0].now[0]; (h.Accept? || h.EstablishFn? || h.AcceptTail?) && s.acceptor
    requires forall u :: u == QUIET && RunEnabled(s, 0, u) ==> Same(Exec(s, 0, u), t)
    ensures Gets(s, [], t) && Reachable(t)
  {
    InvReachable(s);
    InvFormed(s);
    assert s.loops[0].now[0] == Todo(s, 0)[0];
    assert Enabled(s, Run(0, QUIET));
    GetsOne(s, Run(0, QUIET), t);
  }
}
