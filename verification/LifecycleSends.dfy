/** From send() to the socket: every message that a send() takes is handed to sendInLoop once. */
module LifecycleSends {
  import opened Bytes
  import opened Connection
  import opened Lifecycle
  import opened LifecycleInvariant
  import opened LifecyclePlaces
  import opened LifecycleStreams
  import opened LifecycleProjection
  import opened LifecycleWitness
  import opened LifecycleHalfClose
  import opened LifecycleCallers
  import H = HalfClose
  import Stream = OutputStream

  // How often the message `m` occurs.

  function InCall(call: Call, m: bytes): nat {
    if call == CallSend(m) then 1 else 0
  }

  function InCalls(q: seq<Call>, m: bytes): nat {
    if q == [] then 0 else InCall(q[0], m) + InCalls(q[1..], m)
  }

  /** Among the calls that were made. */
  function TimesSent(calls: seq<H.Made>, m: bytes): nat {
    if calls == [] then 0 else InCall(calls[0].call, m) + TimesSent(calls[1..], m)
  }

  /** Among the messages that sendInLoop was given. */
  function TimesGiven(h: seq<Stream.Event>, m: bytes): nat {
    if h == [] then 0 else Given(h[0], m) + TimesGiven(h[1..], m)
  }

  function Given(ev: Stream.Event, m: bytes): nat {
    if (ev.QueuedSend? || ev.Sent?) && ev.msg == m then 1 else 0
  }

  /** Between the check of send() and sendInLoop. */
  function Underway(l: H.Line, m: bytes): nat {
    (if l.inline.Some? then InCall(l.inline.value, m) else 0) + InCalls(l.batch, m) + InCalls(l.pending, m)
  }

  lemma {:induction false} CallsAppend(q: seq<Call>, call: Call, m: bytes)
    ensures InCalls(q + [call], m) == InCalls(q, m) + InCall(call, m)
  {
    if q == [] {
      assert q + [call] == [call] && [call][1..] == [];
    } else {
      assert (q + [call])[1..] == q[1..] + [call];
      CallsAppend(q[1..], call, m);
    }
  }

  lemma {:induction false} SentConcat(x: seq<H.Made>, y: seq<H.Made>, m: bytes)
    ensures TimesSent(x + y, m) == TimesSent(x, m) + TimesSent(y, m)
  {
    if x == [] {
      assert x + y == y;
    } else {
      assert (x + y)[1..] == x[1..] + y;
      SentConcat(x[1..], y, m);
    }
  }

  // ----- one step -----

  /** Whether an event of the line hands the message to sendInLoop. */
  function HandedOver(l: H.Line, h: H.Event, m: bytes): nat
    requires H.Enabled(l, h)
  {
    match h
    case Do(_) => InCall(l.inline.value, m)
    case Serve(_) => InCall(l.batch[0], m)
    case _ => 0
  }

  lemma LineHandsOver(l: H.Line, h: H.Event, m: bytes)
    requires H.Enabled(l, h)
    ensures Underway(l, m) + TimesSent(H.Passed(l, h), m) == HandedOver(l, h, m) + Underway(H.Apply(l, h), m)
  {
    match h
    case CallElsewhere(call) =>
      CallsAppend(l.pending, call, m);
      assert [H.Made(call, false)][1..] == [];
    case CallHere(call) => assert [H.Made(call, true)][1..] == [];
    case _ =>
  }

  ghost function GivenBy(s: Sys, e: Event, c: ConnId, m: bytes): nat
    requires Enabled(s, e)
  {
    if c < |s.conns| && Effect(s, e, c).Some? then Given(Effect(s, e, c).value, m) else 0
  }

  /** The event that the line sees hands over what the event of the output path sends. */
  lemma RunGives(s: Sys, i: LoopId, ch: Choice, c: ConnId, m: bytes)
    requires Inv(s) && RunEnabled(s, i, ch) && c < |s.conns|
    requires Image(s, Run(i, ch), c).Some? ==> H.Enabled(LineOf(s, c), Image(s, Run(i, ch), c).value)
    ensures var h := Image(s, Run(i, ch), c);
            GivenBy(s, Run(i, ch), c, m) == if h.Some? then HandedOver(LineOf(s, c), h.value, m) else 0
  {
    var now := s.loops[i].now;
    HeadOk(s, i);
    if Own(now[0], c) {
      assert s.home[c] == i;
      assert LineOf(s, c).batch == FunctorOf(now[0], c) + FunctorsOf(now[1..], c);
      assert LineOf(s, c).inline == InlineOf(now, c);
    }
  }

  /** What is on its way to sendInLoop for `c`, which may not exist yet. */
  ghost function OnTheWay(s: Sys, c: ConnId, m: bytes): nat
    requires Inv(s)
  {
    if c < |s.conns| then Underway(LineOf(s, c), m) else 0
  }

  lemma StepGives(s: Sys, e: Event, c: ConnId, m: bytes)
    requires Inv(s) && AllPlaced(s) && Enabled(s, e) && Inv(Next(s, e))
    ensures OnTheWay(s, c, m) + TimesSent(CallsAt(s, e, c), m) == GivenBy(s, e, c, m) + OnTheWay(Next(s, e), c, m)
  {
    if c < |s.conns| {
      StepImage(s, e, c);
      var h := Image(s, e, c);
      if h.Some? {
        LineHandsOver(LineOf(s, c), h.value, m);
      }
      if e.Run? {
        RunGives(s, e.i, e.choice, c, m);
      }
    } else {
      assert CallsAt(s, e, c) == [];
      if c < |Next(s, e).conns| {
        NewLine(s, e, c);
      }
    }
  }

  // ----- whole runs -----

  lemma {:induction false} RunHandsOver(s: Sys, es: seq<Event>, c: ConnId, calls: seq<H.Made>, t: Sys, m: bytes)
    requires Inv(s) && AllPlaced(s) && Makes(s, es, c, calls, t) && Leads(s, es, t)
    ensures Inv(t)
    ensures OnTheWay(s, c, m) + TimesSent(calls, m) == TimesGiven(History(s, es, t, c), m) + OnTheWay(t, c, m)
    decreases |es|
  {
    if es != [] {
      var e, s', p := es[0], Next(s, es[0]), CallsAt(s, es[0], c);
      InvStep(s, e);
      StepPlaced(s, e);
      StepGives(s, e, c, m);
      RunHandsOver(s', es[1..], c, calls[|p|..], t, m);
      assert calls == p + calls[|p|..];
      SentConcat(p, calls[|p|..], m);
      HistoryGives(s, es, t, c, m);
    }
  }

  lemma HistoryGives(s: Sys, es: seq<Event>, t: Sys, c: ConnId, m: bytes)
    requires Leads(s, es, t) && es != []
    ensures TimesGiven(History(s, es, t, c), m)
              == GivenBy(s, es[0], c, m) + TimesGiven(History(Next(s, es[0]), es[1..], t, c), m)
  {
    if c < |s.conns| && Effect(s, es[0], c).Some? {
      assert History(s, es, t, c)[1..] == History(Next(s, es[0]), es[1..], t, c);
    }
  }

  /** In every run: each message was taken by send() as often as sendInLoop was given it and it
      is still on its way, so none is lost, doubled or made up between threads; when the loops
      have run dry, sendInLoop was given exactly what send() took.  (What becomes of it there
      is LifecycleStreams.ConnectionsStream, about the same history.) */
  lemma SendsArrive(s: Sys, es: seq<Event>, c: ConnId, calls: seq<H.Made>, t: Sys, m: bytes)
    requires Initial(s) && Makes(s, es, c, calls, t) && Leads(s, es, t) && c < |t.conns|
    ensures Inv(t) && TimesSent(calls, m) == TimesGiven(History(s, es, t, c), m) + OnTheWay(t, c, m)
    ensures Idle(t) ==> TimesSent(calls, m) == TimesGiven(History(s, es, t, c), m)
  {
    InvInitial(s);
    assert AllPlaced(s);
    RunHandsOver(s, es, c, calls, t, m);
  }
}
