/** How often SHUT_WR is issued, and whether anything is written after it, when calls also
    come from other threads: exactly, in terms of the calls the application makes. */
module HalfClose {
  import opened Bytes
  import opened Connection

  // ----- one connection and its loop -----

  /** The loop is in its dispatch phase or is `running` functors.  `inline` is a call on the
      loop's thread between its state check and what it does, `batch` the connection's functors
      in the swapped batch, `pending` those queued since. */
  datatype Line = Line(conn: Conn, inline: Option<Call>, batch: seq<Call>, pending: seq<Call>, running: bool)

  datatype Event =
    | Establish
    | CallHere(call: Call)
    | Do(r: WriteResult)
    | CallElsewhere(call: Call)
    | Writable(r: WriteResult)
    | Close
    | Swap
    | Serve(r: WriteResult)
    | Turn

  function New(running: bool): Line { Line(FRESH, None, [], [], running) }

  /** A call whose state check passed, made on the loop thread or elsewhere. */
  datatype Made = Made(call: Call, onLoop: bool)

  predicate Fitting(r: WriteResult, call: Call) {
    call.CallSend? ==> Possible(r, |call.msg|)
  }

  /** While a call is being made on the loop's thread only other threads get on. */
  predicate Enabled(l: Line, e: Event) {
    match e
    case CallElsewhere(_) => true
    case Do(r) => l.inline.Some? && Fitting(r, l.inline.value)
    case CallHere(_) => l.inline.None?
    case Establish => l.inline.None? && l.conn.state == Connecting
    case Writable(r) => l.inline.None? && !l.running && Possible(r, |l.conn.output|)
    case Close => l.inline.None? && !l.running
    case Swap => l.inline.None? && !l.running && l.batch == []
    case Serve(r) => l.inline.None? && l.running && l.batch != [] && Fitting(r, l.batch[0])
    case Turn => l.inline.None? && l.running && l.batch == []
  }

  /** sendInLoop, shutdownInLoop or handleClose. */
  function Done(c: Conn, call: Call, r: WriteResult): Conn
    requires Fitting(r, call)
  {
    match call
    case CallSend(msg) => SendInLoop(c, msg, r)
    case CallShutdown => ShutdownInLoop(c)
    case CallForceClose => HandleClose(c)
  }

  function Apply(l: Line, e: Event): Line
    requires Enabled(l, e)
  {
    match e
    case Establish => l.(conn := ConnectEstablished(l.conn))
    case CallHere(call) => if Passes(l.conn, call) then l.(conn := AfterCheck(l.conn, call), inline := Some(call)) else l
    case Do(r) => l.(conn := Done(l.conn, l.inline.value, r), inline := None)
    case CallElsewhere(call) =>
      if Passes(l.conn, call) then l.(conn := AfterCheck(l.conn, call), pending := l.pending + [call]) else l
    case Writable(r) => l.(conn := HandleWrite(l.conn, r))
    case Close => l.(conn := HandleClose(l.conn))
    case Swap => l.(batch := l.pending, pending := [], running := true)
    case Serve(r) => l.(conn := Done(l.conn, l.batch[0], r), batch := l.batch[1..])
    case Turn => l.(running := false)
  }

  function Passed(l: Line, e: Event): seq<Made> {
    match e
    case CallHere(call) => if Passes(l.conn, call) then [Made(call, true)] else []
    case CallElsewhere(call) => if Passes(l.conn, call) then [Made(call, false)] else []
    case _ => []
  }

  /** The events `es` lead from `l` to `l'`, and `calls` are the calls that pass on the way. */
  predicate Goes(l: Line, es: seq<Event>, calls: seq<Made>, l': Line)
    decreases |es|
  {
    if es == [] then calls == [] && l' == l
    else
      && Enabled(l, es[0]) && Passed(l, es[0]) <= calls
      && Goes(Apply(l, es[0]), es[1..], calls[|Passed(l, es[0])|..], l')
  }

  lemma {:induction false} GoesOn(l: Line, a: seq<Event>, x: seq<Made>, l1: Line, b: seq<Event>, y: seq<Made>, l2: Line)
    requires Goes(l, a, x, l1) && Goes(l1, b, y, l2)
    ensures Goes(l, a + b, x + y, l2)
    decreases |a|
  {
    if a == [] {
      assert a + b == b && x + y == y;
    } else {
      var p := Passed(l, a[0]);
      assert (a + b)[1..] == a[1..] + b && (x + y)[|p|..] == x[|p|..] + y;
      GoesOn(Apply(l, a[0]), a[1..], x[|p|..], l1, b, y, l2);
    }
  }

  lemma GoesOne(l: Line, e: Event)
    requires Enabled(l, e)
    ensures Goes(l, [e], Passed(l, e), Apply(l, e))
  {
    var p := Passed(l, e);
    assert p[|p|..] == [] && [e][1..] == [];
    assert Goes(Apply(l, e), [], [], Apply(l, e));
  }

  // ----- the calls -----

  /** The first call that was not a send. */
  datatype Closing = Open | ShutHere | ShutElsewhere | ForceHere | ForceElsewhere

  /** Of the sends before it: whether a nonempty one was made on the loop, and how many
      nonempty ones elsewhere. */
  datatype Tally = Tally(here: bool, elsewhere: nat, closing: Closing)

  const NONE := Tally(false, 0, Open)

  function Add(t: Tally, m: Made): Tally {
    if !t.closing.Open? then t
    else match m.call
      case CallSend(msg) =>
        if msg == [] then t else if m.onLoop then t.(here := true) else t.(elsewhere := t.elsewhere + 1)
      case CallShutdown => t.(closing := if m.onLoop then ShutHere else ShutElsewhere)
      case CallForceClose => t.(closing := if m.onLoop then ForceHere else ForceElsewhere)
  }

  function Tallied(t: Tally, calls: seq<Made>): Tally
    decreases |calls|
  {
    if calls == [] then t else Tallied(Add(t, calls[0]), calls[1..])
  }

  predicate Sent(t: Tally) { t.here || t.elsewhere > 0 }

  function One(b: bool): nat { if b then 1 else 0 }

  /** The largest number of SHUT_WRs.  A shutdown on the loop issues or awaits one, and each of
      the two batches that may still hold sends can bring another; one from elsewhere can be
      preceded by a drain, and so can a forceClose from elsewhere. */
  function MostFins(t: Tally): nat {
    match t.closing
    case ShutHere => 1 + if t.elsewhere < 2 then t.elsewhere else 2
    case ShutElsewhere => 1 + One(Sent(t))
    case ForceElsewhere => One(Sent(t))
    case _ => 0
  }

  /** Bytes may be written after SHUT_WR. */
  predicate Late(t: Tally) {
    match t.closing
    case ShutHere => t.elsewhere >= 1
    case ShutElsewhere => t.elsewhere >= 2 || (t.elsewhere == 1 && t.here)
    case ForceElsewhere => t.elsewhere >= 2 || (t.elsewhere == 1 && t.here)
    case _ => false
  }

  lemma {:induction false} TalliedOnce(t: Tally, calls: seq<Made>)
    requires !t.closing.Open?
    ensures Tallied(t, calls) == t
    decreases |calls|
  {
    if calls != [] {
      TalliedOnce(t, calls[1..]);
    }
  }

  lemma {:induction false} TalliedOn(t: Tally, x: seq<Made>, y: seq<Made>)
    ensures Tallied(t, x + y) == Tallied(Tallied(t, x), y)
    decreases |x|
  {
    if x == [] {
      assert x + y == y;
    } else {
      assert (x + y)[1..] == x[1..] + y;
      TalliedOn(Add(t, x[0]), x[1..], y);
    }
  }

  lemma TalliedThen(t: Tally, p: seq<Made>, calls: seq<Made>)
    requires |p| <= 1 && p <= calls
    ensures Tallied(t, calls) == Tallied(Tallied(t, p), calls[|p|..])
  {
    if p == [] {
      assert calls[0..] == calls;
    } else {
      assert p[1..] == [];
      assert Tallied(t, p) == Add(t, p[0]);
    }
  }

  // ----- no run does more -----

  /** How many nonempty messages wait. */
  function Messages(q: seq<Call>): nat {
    if q == [] then 0 else One(q[0].CallSend? && q[0].msg != []) + Messages(q[1..])
  }

  function Shutdowns(q: seq<Call>): nat {
    if q == [] then 0 else One(q[0].CallShutdown?) + Shutdowns(q[1..])
  }

  function Forces(q: seq<Call>): nat {
    if q == [] then 0 else One(q[0].CallForceClose?) + Forces(q[1..])
  }

  lemma {:induction false} CountsAppend(q: seq<Call>, call: Call)
    ensures Messages(q + [call]) == Messages(q) + One(call.CallSend? && call.msg != [])
    ensures Shutdowns(q + [call]) == Shutdowns(q) + One(call.CallShutdown?)
    ensures Forces(q + [call]) == Forces(q) + One(call.CallForceClose?)
  {
    if q == [] {
      assert q + [call] == [call] && [call][1..] == [];
    } else {
      assert (q + [call])[1..] == q[1..] + [call];
      CountsAppend(q[1..], call);
    }
  }

  /** Sends are checked before the shutdown, so their functors are ahead of it. */
  predicate SendsFirst(q: seq<Call>) {
    q == [] || ((q[0].CallShutdown? ==> Messages(q) == 0) && SendsFirst(q[1..]))
  }

  lemma {:induction false} SendsFirstAppend(q: seq<Call>, call: Call)
    requires SendsFirst(q) && (call.CallSend? ==> Shutdowns(q) == 0)
    ensures SendsFirst(q + [call])
  {
    CountsAppend(q, call);
    if q == [] {
      assert q + [call] == [call];
      assert [call][1..] == [];
    } else {
      assert (q + [call])[1..] == q[1..] + [call];
      SendsFirstAppend(q[1..], call);
    }
  }

  /** A nonempty message that the loop is just sending. */
  function Sending(l: Line): nat {
    One(l.inline.Some? && l.inline.value.CallSend? && l.inline.value.msg != [])
  }

  function Waiting(l: Line): nat { Messages(l.batch) + Messages(l.pending) }

  /** Output waits, or will when the current call or batch has run: one drain to come. */
  predicate DrainDue(l: Line) {
    l.conn.writing || Sending(l) > 0 || Messages(l.batch) > 0
  }

  /** How the parts hang together: only the dispatch phase has an empty batch for sure, only
      queued messages were sent elsewhere, and output comes from messages that were sent. */
  predicate Sound(l: Line, t: Tally) {
    && (!l.running ==> l.batch == [])
    && SendsFirst(l.batch) && SendsFirst(l.pending)
    && Waiting(l) <= t.elsewhere
    && (l.conn.writing || Sending(l) > 0 ==> t.here || Waiting(l) < t.elsewhere)
    && Shutdowns(l.batch) + Shutdowns(l.pending) <= 1
    && (Shutdowns(l.batch) + Shutdowns(l.pending) == 1 ==> t.closing.ShutElsewhere?)
    && (Shutdowns(l.batch) == 1 ==> Messages(l.pending) == 0 && Sending(l) == 0)
    && (l.inline == Some(CallShutdown) ==> t.closing.ShutHere? && l.conn.fins == 0)
    && (t.closing.ShutHere? ==> Sending(l) == 0)
  }

  /** SHUT_WRs issued plus those that can still come. */
  predicate Bounded(l: Line, t: Tally) {
    && Sound(l, t)
    && (l.conn.fins >= 1 && !Late(t) ==> !l.conn.writing && Sending(l) == 0 && Waiting(l) == 0)
    && match t.closing
       case Open =>
         && l.conn.fins == 0 && l.conn.state != Disconnecting
         && (l.conn.state == Connecting ==> l == New(l.running) && t == NONE)
         && (l.conn.state == Connected ==> Forces(l.batch) == Forces(l.pending) == 0)
       case ForceHere =>
         && l.conn.fins == 0 && (l.conn.state == Disconnecting || l.conn.state == Disconnected)
         && (l.conn.state == Disconnecting ==> l.inline == Some(CallForceClose))
       case ShutHere =>
         && (l.conn.state == Disconnecting || l.conn.state == Disconnected)
         && (l.inline != Some(CallShutdown) ==>
               l.conn.fins + One(DrainDue(l)) + One(Messages(l.pending) > 0) <= MostFins(t))
       case ShutElsewhere =>
         && (l.conn.state == Disconnecting || l.conn.state == Disconnected)
         && (if Shutdowns(l.pending) == 1 then l.conn.fins + One(DrainDue(l)) + 1 <= MostFins(t)
             else if Shutdowns(l.batch) == 1 then l.conn.fins + 1 <= MostFins(t)
             else l.conn.fins + One(l.conn.writing) <= MostFins(t) && Waiting(l) == 0 && Sending(l) == 0)
       case ForceElsewhere =>
         && (l.conn.state == Disconnecting || l.conn.state == Disconnected)
         && l.conn.fins <= MostFins(t)
         && (l.conn.state == Disconnecting ==> Forces(l.batch) + Forces(l.pending) > 0)
         && (l.conn.state == Disconnecting && Forces(l.batch) == 0 ==> l.conn.fins + One(DrainDue(l)) <= MostFins(t))
  }

  lemma NewBounded(running: bool)
    ensures Bounded(New(running), NONE)
  {
  }

  lemma ElsewhereKeeps(l: Line, t: Tally, call: Call)
    requires Bounded(l, t) && Passes(l.conn, call)
    ensures Bounded(Apply(l, CallElsewhere(call)), Add(t, Made(call, false)))
  {
    CountsAppend(l.pending, call);
    SendsFirstAppend(l.pending, call);
  }

  lemma HereKeeps(l: Line, t: Tally, call: Call)
    requires Bounded(l, t) && Passes(l.conn, call) && l.inline.None?
    ensures Bounded(Apply(l, CallHere(call)), Add(t, Made(call, true)))
  {
  }

  /** All that matters of what sendInLoop does: a nonempty message may leave output waiting. */
  lemma DoSendKeeps(l: Line, t: Tally, r: WriteResult)
    requires Bounded(l, t) && Enabled(l, Do(r)) && l.inline.value.CallSend?
    ensures Bounded(Apply(l, Do(r)), t)
  {
    AfterSend(l, t, SendInLoop(l.conn, l.inline.value.msg, r));
  }

  lemma AfterSend(l: Line, t: Tally, c: Conn)
    requires Bounded(l, t) && l.inline.Some? && l.inline.value.CallSend?
    requires c.state == l.conn.state && c.fins == l.conn.fins
    requires c.writing ==> l.conn.writing || Sending(l) == 1
    ensures Bounded(l.(conn := c, inline := None), t)
  {
  }

  lemma DoShutdownKeeps(l: Line, t: Tally, r: WriteResult)
    requires Bounded(l, t) && Enabled(l, Do(r)) && l.inline.value.CallShutdown?
    ensures Bounded(Apply(l, Do(r)), t)
  {
  }

  lemma DoForceCloseKeeps(l: Line, t: Tally, r: WriteResult)
    requires Bounded(l, t) && Enabled(l, Do(r)) && l.inline.value.CallForceClose?
    ensures Bounded(Apply(l, Do(r)), t)
  {
  }

  lemma ServeSendKeeps(l: Line, t: Tally, r: WriteResult)
    requires Bounded(l, t) && Enabled(l, Serve(r)) && l.batch[0].CallSend?
    ensures Bounded(Apply(l, Serve(r)), t)
  {
  }

  lemma ServeShutdownKeeps(l: Line, t: Tally, r: WriteResult)
    requires Bounded(l, t) && Enabled(l, Serve(r)) && l.batch[0].CallShutdown?
    ensures Bounded(Apply(l, Serve(r)), t)
  {
  }

  lemma ServeForceCloseKeeps(l: Line, t: Tally, r: WriteResult)
    requires Bounded(l, t) && Enabled(l, Serve(r)) && l.batch[0].CallForceClose?
    ensures Bounded(Apply(l, Serve(r)), t)
  {
  }

  lemma WritableKeeps(l: Line, t: Tally, r: WriteResult)
    requires Bounded(l, t) && Enabled(l, Writable(r))
    ensures Bounded(Apply(l, Writable(r)), t)
  {
  }

  lemma CloseKeeps(l: Line, t: Tally)
    requires Bounded(l, t) && Enabled(l, Close)
    ensures Bounded(Apply(l, Close), t)
  {
  }

  lemma PhaseKeeps(l: Line, t: Tally, e: Event)
    requires Bounded(l, t) && Enabled(l, e) && (e.Establish? || e.Swap? || e.Turn?)
    ensures Bounded(Apply(l, e), t)
  {
  }

  lemma StepKeeps(l: Line, t: Tally, e: Event)
    requires Bounded(l, t) && Enabled(l, e)
    ensures Bounded(Apply(l, e), Tallied(t, Passed(l, e)))
  {
    assert Tallied(t, []) == t;
    match e
    case CallElsewhere(call) =>
      if Passes(l.conn, call) { ElsewhereKeeps(l, t, call); TalliedOne(t, Made(call, false)); }
    case CallHere(call) =>
      if Passes(l.conn, call) { HereKeeps(l, t, call); TalliedOne(t, Made(call, true)); }
    case Do(r) =>
      match l.inline.value {
        case CallSend(_) => DoSendKeeps(l, t, r);
        case CallShutdown => DoShutdownKeeps(l, t, r);
        case CallForceClose => DoForceCloseKeeps(l, t, r);
      }
    case Serve(r) =>
      match l.batch[0] {
        case CallSend(_) => ServeSendKeeps(l, t, r);
        case CallShutdown => ServeShutdownKeeps(l, t, r);
        case CallForceClose => ServeForceCloseKeeps(l, t, r);
      }
    case Writable(r) => WritableKeeps(l, t, r);
    case Close => CloseKeeps(l, t);
    case _ => PhaseKeeps(l, t, e);
  }

  lemma TalliedOne(t: Tally, m: Made)
    ensures Tallied(t, [m]) == Add(t, m)
  {
    assert [m][1..] == [];
  }

  lemma {:induction false} RunKeeps(l: Line, t: Tally, es: seq<Event>, calls: seq<Made>, l': Line)
    requires Bounded(l, t) && Goes(l, es, calls, l')
    ensures Bounded(l', Tallied(t, calls))
    decreases |es|
  {
    if es != [] {
      var p := Passed(l, es[0]);
      StepKeeps(l, t, es[0]);
      TalliedThen(t, p, calls);
      RunKeeps(Apply(l, es[0]), Tallied(t, p), es[1..], calls[|p|..], l');
    }
  }

  lemma StepSilent(l: Line, t: Tally, e: Event)
    requires Bounded(l, t) && Enabled(l, e) && l.conn.fins >= 1 && !Late(t)
    ensures Apply(l, e).conn.wire == l.conn.wire && Apply(l, e).conn.fins >= 1 && !t.closing.Open?
  {
  }

  /** Safe calls: once SHUT_WR is out there is nothing left to write. */
  lemma {:induction false} NothingLate(l: Line, t: Tally, es: seq<Event>, calls: seq<Made>, l': Line)
    requires Bounded(l, t) && Goes(l, es, calls, l') && l.conn.fins >= 1 && !Late(t)
    ensures l'.conn.wire == l.conn.wire
    decreases |es|
  {
    if es != [] {
      var p := Passed(l, es[0]);
      StepSilent(l, t, es[0]);
      StepKeeps(l, t, es[0]);
      TalliedOnce(t, p);
      NothingLate(Apply(l, es[0]), t, es[1..], calls[|p|..], l');
    }
  }

  // ----- which calls can pass -----

  /** How far the connection's end has come. */
  datatype Stage = Up | Leaving | Ending

  /** While up any call passes, then only forceClose, and after one on the loop only those of
      other threads that come before handleClose. */
  predicate Allowed(st: Stage, calls: seq<Made>)
    decreases |calls|
  {
    calls == [] ||
    (var m := calls[0];
     && (st == Up || (m.call.CallForceClose? && (st == Leaving || !m.onLoop)))
     && Allowed(After(st, m), calls[1..]))
  }

  function After(st: Stage, m: Made): Stage {
    if m.call.CallSend? then st
    else if m.call.CallForceClose? && m.onLoop then Ending
    else if st == Up then Leaving else st
  }

  function StageOf(l: Line): Stage {
    if l.conn.state == Connecting || l.conn.state == Connected then Up
    else if l.conn.state == Disconnecting && l.inline != Some(CallForceClose) then Leaving
    else Ending
  }

  lemma {:induction false} AllowedEarlier(st: Stage, st': Stage, calls: seq<Made>)
    requires Allowed(st', calls) && (st == st' || st == Up || st' == Ending)
    ensures Allowed(st, calls)
    decreases |calls|
  {
    if calls != [] {
      AllowedEarlier(After(st, calls[0]), After(st', calls[0]), calls[1..]);
    }
  }

  lemma StageGrows(l: Line, e: Event)
    requires Enabled(l, e)
    ensures var st, st' := StageOf(l), StageOf(Apply(l, e)); st == st' || st == Up || st' == Ending
    ensures forall m <- Passed(l, e) :: (StageOf(l) == Up || (m.call.CallForceClose? && (StageOf(l) == Leaving || !m.onLoop)))
                                        && (StageOf(Apply(l, e)) == After(StageOf(l), m) || StageOf(Apply(l, e)) == Ending)
  {
  }

  lemma {:induction false} CallsAllowed(l: Line, es: seq<Event>, calls: seq<Made>, l': Line)
    requires Goes(l, es, calls, l')
    ensures Allowed(StageOf(l), calls)
    decreases |es|
  {
    if es != [] {
      var p := Passed(l, es[0]);
      CallsAllowed(Apply(l, es[0]), es[1..], calls[|p|..], l');
      StageGrows(l, es[0]);
      if p == [] {
        assert calls[0..] == calls;
        AllowedEarlier(StageOf(l), StageOf(Apply(l, es[0])), calls);
      } else {
        assert calls[0] == p[0] && p[0] in p;
        AllowedEarlier(After(StageOf(l), p[0]), StageOf(Apply(l, es[0])), calls[1..]);
      }
    }
  }

  // ----- some run does as much -----

  /** The steps that the run below takes: no close happens on the way. */
  predicate Gentle(l: Line, e: Event) {
    match e
    case Establish => false
    case Close => false
    case CallHere(call) => !call.CallForceClose?
    case Do(_) => l.inline.Some? && !l.inline.value.CallForceClose?
    case Serve(_) => l.batch != [] && !l.batch[0].CallForceClose?
    case _ => true
  }

  predicate Walks(l: Line, es: seq<Event>, calls: seq<Made>, l': Line)
    decreases |es|
  {
    if es == [] then calls == [] && l' == l
    else
      && Enabled(l, es[0]) && Gentle(l, es[0]) && Passed(l, es[0]) <= calls
      && Walks(Apply(l, es[0]), es[1..], calls[|Passed(l, es[0])|..], l')
  }

  lemma {:induction false} WalksGoes(l: Line, es: seq<Event>, calls: seq<Made>, l': Line)
    requires Walks(l, es, calls, l')
    ensures Goes(l, es, calls, l')
    decreases |es|
  {
    if es != [] {
      WalksGoes(Apply(l, es[0]), es[1..], calls[|Passed(l, es[0])|..], l');
    }
  }

  lemma {:induction false} WalksOn(l: Line, a: seq<Event>, x: seq<Made>, l1: Line, b: seq<Event>, y: seq<Made>, l2: Line)
    requires Walks(l, a, x, l1) && Walks(l1, b, y, l2)
    ensures Walks(l, a + b, x + y, l2)
    decreases |a|
  {
    if a == [] {
      assert a + b == b && x + y == y;
    } else {
      var p := Passed(l, a[0]);
      assert (a + b)[1..] == a[1..] + b && (x + y)[|p|..] == x[|p|..] + y;
      WalksOn(Apply(l, a[0]), a[1..], x[|p|..], l1, b, y, l2);
    }
  }

  lemma WalksOne(l: Line, e: Event)
    requires Enabled(l, e) && Gentle(l, e)
    ensures Walks(l, [e], Passed(l, e), Apply(l, e))
  {
    var p := Passed(l, e);
    assert p[|p|..] == [] && [e][1..] == [];
    assert Walks(Apply(l, e), [], [], Apply(l, e));
  }

  lemma WalksTwo(l: Line, e: Event, e': Event)
    requires Enabled(l, e) && Gentle(l, e) && Enabled(Apply(l, e), e') && Gentle(Apply(l, e), e')
    ensures Walks(l, [e, e'], Passed(l, e) + Passed(Apply(l, e), e'), Apply(Apply(l, e), e'))
  {
    WalksOne(l, e);
    WalksOne(Apply(l, e), e');
    WalksOn(l, [e], Passed(l, e), Apply(l, e), [e'], Passed(Apply(l, e), e'), Apply(Apply(l, e), e'));
    assert [e] + [e'] == [e, e'];
  }

  /** Output waits exactly while write interest is on. */
  predicate Matched(c: Conn) {
    (c.state == Connected || c.state == Disconnecting) && (c.writing <==> c.output != [])
  }

  /** The batch's sends run while the kernel takes nothing. */
  lemma {:induction false} Refused(l: Line) returns (es: seq<Event>, l': Line)
    requires l.running && l.inline.None? && Matched(l.conn) && forall call <- l.batch :: call.CallSend?
    ensures Walks(l, es, [], l') && Matched(l'.conn)
    ensures l' == l.(conn := l'.conn, batch := []) && l'.conn.state == l.conn.state && l'.conn.fins == l.conn.fins
    ensures l'.conn.wire == l.conn.wire && (l'.conn.output != [] <==> l.conn.output != [] || Messages(l.batch) > 0)
    decreases |l.batch|
  {
    if l.batch == [] {
      es, l' := [], l;
    } else {
      var e := Serve(WouldBlock);
      var msg := l.batch[0].msg;
      assert msg[..0] == [] && msg[0..] == msg && l.conn.wire + [] == l.conn.wire;
      WalksOne(l, e);
      var rest;
      rest, l' := Refused(Apply(l, e));
      WalksOn(l, [e], [], Apply(l, e), rest, [], l');
      es := [e] + rest;
    }
  }

  /** The batch's sends run while the kernel takes everything; what follows them stays. */
  lemma {:induction false} Taken(l: Line, sends: seq<Call>, more: seq<Call>) returns (es: seq<Event>, l': Line)
    requires l.running && l.inline.None? && l.batch == sends + more && forall call <- sends :: call.CallSend?
    requires !l.conn.writing && l.conn.output == []
    ensures Walks(l, es, [], l') && l' == l.(conn := l.conn.(wire := l'.conn.wire), batch := more)
    ensures |l'.conn.wire| >= |l.conn.wire| + Messages(sends)
    decreases |sends|
  {
    if sends == [] {
      assert l.batch == more;
      es, l' := [], l;
    } else {
      var msg := sends[0].msg;
      var e := Serve(Wrote(|msg|));
      assert (sends + more)[1..] == sends[1..] + more;
      assert msg[..|msg|] == msg;
      WalksOne(l, e);
      var rest;
      rest, l' := Taken(Apply(l, e), sends[1..], more);
      WalksOn(l, [e], [], Apply(l, e), rest, [], l');
      es := [e] + rest;
    }
  }

  predicate Drained(c: Conn) {
    c.state == Disconnecting && c.output == [] && !c.writing
  }

  /** The batch is done, and the next dispatch drains what is left. */
  lemma TurnAndDrain(l: Line) returns (es: seq<Event>, l': Line)
    requires l.running && l.inline.None? && l.batch == [] && Matched(l.conn) && l.conn.state == Disconnecting
    ensures Walks(l, es, [], l') && Drained(l'.conn) && l' == l.(conn := l'.conn, running := false)
    ensures l'.conn.fins == l.conn.fins + One(l.conn.output != []) && |l'.conn.wire| == |l.conn.wire| + |l.conn.output|
  {
    var n := |l.conn.output|;
    assert l.conn.output[n..] == [] && l.conn.output[..n] == l.conn.output;
    es, l' := [Turn, Writable(Wrote(n))], Apply(Apply(l, Turn), Writable(Wrote(n)));
    WalksTwo(l, Turn, Writable(Wrote(n)));
  }

  // ----- shutdown on the loop -----

  /** The kernel has taken what was sent on the loop; the first nonempty message from
      elsewhere is in a batch that does not get on, the others wait behind it. */
  predicate ReadyHere(l: Line, t: Tally) {
    && l.conn.state == Connected && l.conn.fins == 0 && l.inline.None? && !l.conn.writing && l.conn.output == []
    && t.closing.Open? && (forall call <- l.batch + l.pending :: call.CallSend?)
    && (if l.running then t.elsewhere >= 1 && Messages(l.batch) == 1 && Messages(l.pending) == t.elsewhere - 1
        else t.elsewhere == 0 && l.batch == [] && Messages(l.pending) == 0)
  }

  lemma SendHere(l: Line, t: Tally, m: Made) returns (es: seq<Event>, l': Line)
    requires ReadyHere(l, t) && m.call.CallSend?
    ensures Walks(l, es, [m], l') && ReadyHere(l', Add(t, m))
  {
    var msg := m.call.msg;
    if m.onLoop {
      assert msg[..|msg|] == msg;
      es := [CallHere(m.call), Do(Wrote(|msg|))];
      WalksTwo(l, es[0], es[1]);
      l' := Apply(Apply(l, es[0]), es[1]);
    } else {
      WalksOne(l, CallElsewhere(m.call));
      CountsAppend(l.pending, m.call);
      es, l' := [CallElsewhere(m.call)], Apply(l, CallElsewhere(m.call));
      assert forall call <- l'.batch + l'.pending :: call in l.batch + l.pending || call == m.call;
      if !l.running && msg != [] {
        WalksTwo(l, CallElsewhere(m.call), Swap);
        es, l' := [CallElsewhere(m.call), Swap], Apply(l', Swap);
        assert forall call <- l'.batch + l'.pending :: call in l.pending + [m.call];
      }
    }
  }

  /** shutdown() finds nothing waiting; then the two batches run, and are drained, in turn. */
  lemma ShutsHere(l: Line, t: Tally) returns (a: seq<Event>, l1: Line, b: seq<Event>, l2: Line)
    requires ReadyHere(l, t)
    ensures var t' := Add(t, Made(CallShutdown, true));
            && Walks(l, a, [Made(CallShutdown, true)], l1) && Walks(l1, b, [], l2)
            && l2.conn.fins == MostFins(t') && l2.conn.state == Disconnecting && l2.inline.None?
            && l1.conn.fins >= 1 && (Late(t') ==> |l2.conn.wire| > |l1.conn.wire|)
  {
    a := [CallHere(CallShutdown), Do(WouldBlock)];
    WalksTwo(l, a[0], a[1]);
    l1 := Apply(Apply(l, a[0]), a[1]);
    if !l.running {
      b, l2 := [], l1;
    } else {
      assert forall call <- l.batch :: call in l.batch + l.pending;
      assert forall call <- l.pending :: call in l.batch + l.pending;
      b, l2 := TwoBatches(l1);
    }
  }

  /** The batch that waits and the next one, each followed by a dispatch that drains it. */
  lemma TwoBatches(l: Line) returns (es: seq<Event>, l': Line)
    requires l.running && l.inline.None? && Drained(l.conn)
    requires (forall call <- l.batch :: call.CallSend?) && (forall call <- l.pending :: call.CallSend?)
    ensures Walks(l, es, [], l') && l'.inline.None? && Drained(l'.conn)
    ensures l'.conn.fins == l.conn.fins + One(Messages(l.batch) > 0) + One(Messages(l.pending) > 0)
    ensures Messages(l.batch) > 0 ==> |l'.conn.wire| > |l.conn.wire|
  {
    var b1, l1 := OneBatch(l);
    WalksOne(l1, Swap);
    WalksOn(l, b1, [], l1, [Swap], [], Apply(l1, Swap));
    var b2;
    b2, l' := OneBatch(Apply(l1, Swap));
    WalksOn(l, b1 + [Swap], [], Apply(l1, Swap), b2, [], l');
    es := b1 + [Swap] + b2;
  }

  lemma OneBatch(l: Line) returns (es: seq<Event>, l': Line)
    requires l.running && l.inline.None? && Drained(l.conn) && forall call <- l.batch :: call.CallSend?
    ensures Walks(l, es, [], l') && l' == l.(conn := l'.conn, batch := [], running := false) && Drained(l'.conn)
    ensures l'.conn.fins == l.conn.fins + One(Messages(l.batch) > 0)
    ensures |l'.conn.wire| >= |l.conn.wire| + One(Messages(l.batch) > 0)
  {
    var b1, l1 := Refused(l);
    var b2;
    b2, l' := TurnAndDrain(l1);
    WalksOn(l, b1, [], l1, b2, [], l');
    es := b1 + b2;
  }

  // ----- closing elsewhere -----

  /** What was sent on the loop waits for the kernel, what was sent elsewhere for the loop; if
      nothing is ever sent on the loop (`flush`), the first nonempty message from elsewhere
      has been run and waits for the kernel instead. */
  predicate ReadyElsewhere(l: Line, t: Tally, flush: bool) {
    && l.conn.state == Connected && l.conn.fins == 0 && l.inline.None? && Matched(l.conn) && !l.running && l.batch == []
    && t.closing.Open? && (forall call <- l.pending :: call.CallSend?)
    && (if flush then !t.here && (l.conn.output != [] <==> t.elsewhere > 0)
                      && Messages(l.pending) == if t.elsewhere > 0 then t.elsewhere - 1 else 0
        else (l.conn.output != [] <==> t.here) && Messages(l.pending) == t.elsewhere)
  }

  lemma SendElsewhere(l: Line, t: Tally, m: Made, flush: bool) returns (es: seq<Event>, l': Line)
    requires ReadyElsewhere(l, t, flush) && m.call.CallSend? && (flush ==> !Add(t, m).here)
    ensures Walks(l, es, [m], l') && ReadyElsewhere(l', Add(t, m), flush)
  {
    var msg := m.call.msg;
    if m.onLoop {
      assert msg[..0] == [] && msg[0..] == msg;
      es := [CallHere(m.call), Do(WouldBlock)];
      WalksTwo(l, es[0], es[1]);
      l' := Apply(Apply(l, es[0]), es[1]);
    } else {
      WalksOne(l, CallElsewhere(m.call));
      CountsAppend(l.pending, m.call);
      es, l' := [CallElsewhere(m.call)], Apply(l, CallElsewhere(m.call));
      assert forall call <- l'.pending :: call in l.pending || call == m.call;
      if flush && msg != [] && t.elsewhere == 0 {
        WalksTwo(l, CallElsewhere(m.call), Swap);
        var first := [CallElsewhere(m.call), Swap];
        var rest, l2 := Refused(Apply(l', Swap));
        WalksOn(l, first, [m], Apply(l', Swap), rest, [], l2);
        WalksOne(l2, Turn);
        WalksOn(l, first + rest, [m], l2, [Turn], [], Apply(l2, Turn));
        es, l' := first + rest + [Turn], Apply(l2, Turn);
        assert [m] + [] == [m];
      }
    }
  }

  /** The closing call comes in a dispatch that drains what waits; the next batch writes the
      sends that are left and, behind them, half-closes again. */
  lemma ClosesElsewhere(l: Line, t: Tally, m: Made, flush: bool) returns (a: seq<Event>, l1: Line, b: seq<Event>, l2: Line)
    requires ReadyElsewhere(l, t, flush) && !m.call.CallSend? && !m.onLoop && flush == !t.here
    ensures var t' := Add(t, m);
            && Walks(l, a, [m], l1) && Walks(l1, b, [], l2)
            && l2.conn.fins == MostFins(t') && l2.conn.state == Disconnecting && l2.inline.None?
            && (Late(t') ==> l1.conn.fins >= 1 && |l2.conn.wire| > |l1.conn.wire|)
  {
    a, l1 := DrainsFirst(l, m.call);
    b, l2 := BatchLast(l1, l.pending, m.call);
  }

  lemma DrainsFirst(l: Line, call: Call) returns (es: seq<Event>, l': Line)
    requires l.conn.state == Connected && l.inline.None? && !l.running && l.batch == [] && Matched(l.conn) && !call.CallSend?
    ensures Walks(l, es, [Made(call, false)], l')
    ensures l' == l.(conn := l'.conn, pending := l.pending + [call]) && Drained(l'.conn)
    ensures l'.conn.fins == l.conn.fins + One(l.conn.output != [])
  {
    var n := |l.conn.output|;
    assert l.conn.output[n..] == [];
    es := [CallElsewhere(call), Writable(Wrote(n))];
    WalksTwo(l, es[0], es[1]);
    l' := Apply(Apply(l, es[0]), es[1]);
  }

  lemma BatchLast(l: Line, sends: seq<Call>, call: Call) returns (es: seq<Event>, l': Line)
    requires Drained(l.conn) && l.inline.None? && !l.running && l.batch == [] && l.pending == sends + [call]
    requires (forall send <- sends :: send.CallSend?) && !call.CallSend?
    ensures Walks(l, es, [], l') && l'.inline.None? && l'.conn.state == Disconnecting
    ensures l'.conn.fins == l.conn.fins + One(call.CallShutdown?) && |l'.conn.wire| >= |l.conn.wire| + Messages(sends)
  {
    WalksOne(l, Swap);
    var rest;
    rest, l' := Taken(Apply(l, Swap), sends, [call]);
    WalksOn(l, [Swap], [], Apply(l, Swap), rest, [], l');
    es := [Swap] + rest;
    if call.CallShutdown? {
      WalksOne(l', Serve(WouldBlock));
      WalksOn(l, es, [], l', [Serve(WouldBlock)], [], Apply(l', Serve(WouldBlock)));
      es, l' := es + [Serve(WouldBlock)], Apply(l', Serve(WouldBlock));
    }
  }

  // ----- any calls -----

  lemma {:induction false} HereStays(t: Tally, calls: seq<Made>)
    requires t.here
    ensures Tallied(t, calls).here
    decreases |calls|
  {
    if calls != [] {
      HereStays(Add(t, calls[0]), calls[1..]);
    }
  }

  /** A run in two legs, on which the calls `x` are made; the forceClose calls `z` come last. */
  datatype Trip = Trip(a: seq<Event>, x: seq<Made>, l1: Line, b: seq<Event>, l2: Line, z: seq<Made>)

  /** The run makes these calls; it half-closes as often as can be, and if the calls are not
      safe it writes after SHUT_WR on its second leg. */
  predicate Achieves(l: Line, calls: seq<Made>, t: Tally, trip: Trip) {
    Walks(l, trip.a, trip.x, trip.l1) && calls == trip.x + trip.z && Ends(trip.l1, trip.b, trip.l2, trip.z, t)
  }

  predicate Ends(l1: Line, b: seq<Event>, l2: Line, z: seq<Made>, t: Tally) {
    && Walks(l1, b, [], l2)
    && l2.inline.None? && (l2.conn.state == Connected || l2.conn.state == Disconnecting)
    && Allowed(StageOf(l2), z) && (forall m <- z :: m.call.CallForceClose?)
    && l2.conn.fins == MostFins(t)
    && (Late(t) ==> l1.conn.fins >= 1 && |l2.conn.wire| > |l1.conn.wire|)
  }

  lemma AchievesMore(l: Line, first: seq<Event>, m: Made, l0: Line, calls: seq<Made>, t: Tally, trip: Trip)
    requires Walks(l, first, [m], l0) && Achieves(l0, calls, t, trip)
    ensures Achieves(l, [m] + calls, t, trip.(a := first + trip.a, x := [m] + trip.x))
  {
    WalksOn(l, first, [m], l0, trip.a, trip.x, trip.l1);
    assert [m] + calls == ([m] + trip.x) + trip.z;
  }

  /** The run for a shutdown on the loop. */
  lemma {:induction false} ReplayHere(l: Line, t: Tally, calls: seq<Made>) returns (trip: Trip)
    requires ReadyHere(l, t) && Allowed(Up, calls) && Tallied(t, calls).closing.ShutHere?
    ensures Achieves(l, calls, Tallied(t, calls), trip)
    decreases |calls|
  {
    var m, rest := calls[0], calls[1..];
    assert [m] + rest == calls;
    if m.call.CallSend? {
      var first, l0 := SendHere(l, t, m);
      trip := ReplayHere(l0, Add(t, m), rest);
      AchievesMore(l, first, m, l0, rest, Tallied(t, calls), trip);
      trip := trip.(a := first + trip.a, x := [m] + trip.x);
    } else {
      TalliedOnce(Add(t, m), rest);
      OnlyForces(After(Up, m), rest);
      var a, l1, b, l2 := ShutsHere(l, t);
      trip := Trip(a, [m], l1, b, l2, rest);
    }
  }

  /** The run for every other way to close, or none; after a forceClose on the loop there is
      nothing to drain. */
  lemma {:induction false} ReplayElsewhere(l: Line, t: Tally, calls: seq<Made>, flush: bool) returns (trip: Trip)
    requires ReadyElsewhere(l, t, flush) && Allowed(Up, calls)
    requires !Tallied(t, calls).closing.ShutHere? && flush == !Tallied(t, calls).here
    ensures Achieves(l, calls, Tallied(t, calls), trip)
    decreases |calls|
  {
    if calls == [] {
      trip := Trip([], [], l, [], l, []);
    } else {
      var m, rest := calls[0], calls[1..];
      assert [m] + rest == calls;
      if m.call.CallSend? {
        if Add(t, m).here { HereStays(Add(t, m), rest); }
        var first, l0 := SendElsewhere(l, t, m, flush);
        trip := ReplayElsewhere(l0, Add(t, m), rest, flush);
        AchievesMore(l, first, m, l0, rest, Tallied(t, calls), trip);
        trip := trip.(a := first + trip.a, x := [m] + trip.x);
      } else {
        trip := EndElsewhere(l, t, m, rest, flush);
      }
    }
  }

  lemma EndElsewhere(l: Line, t: Tally, m: Made, rest: seq<Made>, flush: bool) returns (trip: Trip)
    requires ReadyElsewhere(l, t, flush) && !m.call.CallSend? && Allowed(After(Up, m), rest)
    requires !Tallied(t, [m] + rest).closing.ShutHere? && flush == !Tallied(t, [m] + rest).here
    ensures Achieves(l, [m] + rest, Tallied(t, [m] + rest), trip)
  {
    assert ([m] + rest)[1..] == rest;
    TalliedOnce(Add(t, m), rest);
    OnlyForces(After(Up, m), rest);
    if m.onLoop {
      trip := Trip([], [], l, [], l, [m] + rest);
      assert [] + ([m] + rest) == [m] + rest;
    } else {
      var a, l1, b, l2 := ClosesElsewhere(l, t, m, flush);
      trip := Trip(a, [m], l1, b, l2, rest);
    }
  }

  lemma {:induction false} OnlyForces(st: Stage, calls: seq<Made>)
    requires st != Up && Allowed(st, calls)
    ensures forall m <- calls :: m.call.CallForceClose?
    decreases |calls|
  {
    if calls != [] {
      OnlyForces(After(st, calls[0]), calls[1..]);
      assert calls == [calls[0]] + calls[1..];
    }
  }

  /** A connection that has just been established, on a loop that is dispatching. */
  function Fresh(): Line { New(false).(conn := ConnectEstablished(FRESH)) }

  /** For all calls that can pass there is such a run of an established connection. */
  lemma Witness(calls: seq<Made>) returns (trip: Trip)
    requires Allowed(Up, calls)
    ensures Achieves(Fresh(), calls, Tallied(NONE, calls), trip)
  {
    if Tallied(NONE, calls).closing.ShutHere? {
      trip := ReplayHere(Fresh(), NONE, calls);
    } else {
      trip := ReplayElsewhere(Fresh(), NONE, calls, !Tallied(NONE, calls).here);
    }
  }
}
