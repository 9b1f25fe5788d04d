/** Every run of the multi-loop system is, for each of its connections, a run of HalfClose. */
module LifecycleProjection {
  import opened Bytes
  import opened Connection
  import opened Channels
  import opened Lifecycle
  import opened LifecycleInvariant
  import opened LifecycleSteps
  import opened LifecyclePlaces
  import opened LifecycleStreams
  import H = HalfClose
  import Stream = OutputStream

  /** The functors of `c` in a list, as the calls they come from. */
  function FunctorsOf(q: seq<Item>, c: ConnId): seq<Call> {
    if q == [] then [] else FunctorOf(q[0], c) + FunctorsOf(q[1..], c)
  }

  function FunctorOf(it: Item, c: ConnId): seq<Call> {
    match it
    case SendFn(d, msg) => if d == c then [CallSend(msg)] else []
    case ShutdownFn(d) => if d == c then [CallShutdown] else []
    case ForceFn(d) => if d == c then [CallForceClose] else []
    case _ => []
  }

  function InlineOf(now: seq<Item>, c: ConnId): Option<Call> {
    if now != [] && now[0].Calling? && now[0].c == c then Some(now[0].call) else None
  }

  ghost function LineOf(s: Sys, c: ConnId): H.Line
    requires c < |s.conns| && |s.home| == |s.conns| && s.home[c] < |s.loops|
  {
    var l := s.loops[s.home[c]];
    H.Line(s.conns[c], InlineOf(l.now, c), FunctorsOf(l.now, c), FunctorsOf(l.pending, c), !l.dispatching)
  }

  /** The call of `c`'s that an event makes, if its state check passes. */
  ghost function CallsAt(s: Sys, e: Event, c: ConnId): seq<H.Made>
    requires Enabled(s, e)
  {
    match e
    case UserOnLoop(i, Use(d, call)) => if d == c && Passes(s.conns[c], call) then [H.Made(call, s.home[c] == i)] else []
    case UserElsewhere(Use(d, call)) => if d == c && Passes(s.conns[c], call) then [H.Made(call, false)] else []
    case Run(i, _) => (
      match s.loops[i].now[0]
      case Stopping(rest, _) =>
        if rest != [] && rest[0] == c && c < |s.conns| && Passes(s.conns[c], CallShutdown)
        then [H.Made(CallShutdown, s.home[c] == i)] else []
      case _ => [])
    case _ => []
  }

  /** All calls of `c`'s that pass in a run, in order. */
  ghost predicate Makes(s: Sys, es: seq<Event>, c: ConnId, calls: seq<H.Made>, t: Sys)
    decreases |es|
  {
    if es == [] then calls == [] && s == t
    else
      && Enabled(s, es[0]) && CallsAt(s, es[0], c) <= calls
      && Makes(Next(s, es[0]), es[1..], c, calls[|CallsAt(s, es[0], c)|..], t)
  }

  /** What an event of the system is to the connection and its loop. */
  ghost function Image(s: Sys, e: Event, c: ConnId): Option<H.Event>
    requires Enabled(s, e) && c < |s.conns|
  {
    match e
    case Run(i, ch) => (
      match s.loops[i].now[0]
      case EstablishFn(d) => if d == c then Some(H.Establish) else None
      case SendFn(d, _) => if d == c then Some(H.Serve(ch.wrote)) else None
      case ShutdownFn(d) => if d == c then Some(H.Serve(ch.wrote)) else None
      case ForceFn(d) => if d == c then Some(H.Serve(ch.wrote)) else None
      case Calling(d, _) => if d == c then Some(H.Do(ch.wrote)) else None
      case WriteFn(d) => if d == c then Some(H.Writable(ch.wrote)) else None
      case CloseFn(d) => if d == c then Some(H.Close) else None
      case Stopping(rest, _) =>
        if rest == [] || rest[0] != c then None
        else if s.home[c] == i then Some(H.CallHere(CallShutdown)) else Some(H.CallElsewhere(CallShutdown))
      case _ => None)
    case Poll(i, _) => if s.home[c] == i then Some(H.Turn) else None
    case Swap(i) => if s.home[c] == i then Some(H.Swap) else None
    case UserOnLoop(i, Use(d, call)) =>
      if d != c then None else if s.home[c] == i then Some(H.CallHere(call)) else Some(H.CallElsewhere(call))
    case UserElsewhere(Use(d, call)) => if d == c then Some(H.CallElsewhere(call)) else None
    case _ => None
  }

  ghost predicate Images(l: H.Line, h: Option<H.Event>, p: seq<H.Made>, l': H.Line) {
    match h
    case None => l' == l && p == []
    case Some(e) => H.Enabled(l, e) && l' == H.Apply(l, e) && p == H.Passed(l, e)
  }

  // ----- lists -----

  lemma {:induction false} FunctorsConcat(a: seq<Item>, b: seq<Item>, c: ConnId)
    ensures FunctorsOf(a + b, c) == FunctorsOf(a, c) + FunctorsOf(b, c)
  {
    if a == [] {
      assert a + b == b;
    } else {
      assert (a + b)[1..] == a[1..] + b;
      FunctorsConcat(a[1..], b, c);
    }
  }

  lemma {:induction false} NoneWaits(q: seq<Item>, c: ConnId)
    requires forall it <- q :: FunctorOf(it, c) == []
    ensures FunctorsOf(q, c) == []
  {
    if q != [] {
      NoneWaits(q[1..], c);
    }
  }

  lemma ListsAfter(loops: seq<Loop>, i: LoopId, front: seq<Item>, l: LoopId, back: seq<Item>, j: LoopId, c: ConnId)
    requires i < |loops| && l < |loops| && j < |loops| && loops[i].now != []
    requires forall it <- front :: FunctorOf(it, c) == []
    ensures var r := Advance(loops, i, front, l, back)[j];
            && r.now == (if j == i then front + loops[i].now[1..] else loops[j].now)
            && FunctorsOf(r.now, c) == (if j == i then FunctorsOf(loops[i].now[1..], c) else FunctorsOf(loops[j].now, c))
            && FunctorsOf(r.pending, c) == FunctorsOf(loops[j].pending, c) + (if j == l then FunctorsOf(back, c) else [])
            && r.dispatching == loops[j].dispatching
  {
    NoneWaits(front, c);
    FunctorsConcat(front, loops[i].now[1..], c);
    FunctorsConcat(loops[j].pending, back, c);
    assert loops[j].pending + [] == loops[j].pending;
  }

  /** The line of `c` after loop `i` replaced its first item and loop `l` got `back`. */
  lemma LineAfter(s: Sys, s': Sys, i: LoopId, front: seq<Item>, l: LoopId, back: seq<Item>, c: ConnId)
    requires Bounds(s) && c < |s.conns| && i < |s.loops| && l < |s.loops| && s.loops[i].now != []
    requires s'.loops == Advance(s.loops, i, front, l, back)
    requires c < |s'.conns| == |s'.home| && s'.home[c] == s.home[c]
    requires forall it <- front :: FunctorOf(it, c) == []
    ensures var was, now, j := LineOf(s, c), s.loops[i].now, s.home[c];
            LineOf(s', c) == H.Line(s'.conns[c],
                                    if j == i then InlineOf(front + now[1..], c) else was.inline,
                                    if j == i then FunctorsOf(now[1..], c) else was.batch,
                                    was.pending + (if j == l then FunctorsOf(back, c) else []), was.running)
  {
    ListsAfter(s.loops, i, front, l, back, s.home[c], c);
  }

  /** Nothing of a call that runs at once is behind the first item. */
  lemma NoInline(l: Loop, front: seq<Item>, c: ConnId)
    requires Placed(l) && l.now != []
    ensures front == [] ==> InlineOf(front + l.now[1..], c) == None
    ensures front != [] ==> InlineOf(front + l.now[1..], c) == InlineOf(front, c)
  {
    if front == [] && |l.now| > 1 {
      assert (front + l.now[1..])[0] == l.now[1];
    }
  }

  // ----- steps -----

  /** The items that run a call or a functor of `c`, write for it, or close or establish it. */
  predicate Own(it: Item, c: ConnId) {
    (Handed(it) || it.WriteFn? || it.CloseFn? || it.EstablishFn?) && it.c == c
  }

  lemma OwnImage(s: Sys, i: LoopId, ch: Choice, c: ConnId)
    requires Inv(s) && AllPlaced(s) && RunEnabled(s, i, ch) && c < |s.conns| && Own(s.loops[i].now[0], c)
    ensures var s' := Exec(s, i, ch);
            && c < |s'.conns| == |s'.home| && s'.home[c] == s.home[c] && |s'.loops| == |s.loops|
            && Images(LineOf(s, c), Image(s, Run(i, ch), c), [], LineOf(s', c))
  {
    var h, p, s' := s.loops[i].now[0], PlanOf(s, i, ch), Exec(s, i, ch);
    assert Placed(s.loops[i]) && h in s.loops[i].now;
    HeadOk(s, i);
    PlanIsExec(s, i, ch);
    RunEffect(s, i, ch, c);
    OwnPlan(s, i, ch, c);
    OwnKeeps(s, i, ch, c);
    OwnShown(s, s', i, p, ch.wrote, c);
  }

  lemma OwnShown(s: Sys, s': Sys, i: LoopId, p: Plan, r: WriteResult, c: ConnId)
    requires Bounds(s) && c < |s.conns| && i < |s.loops| && p.l < |s.loops| && Placed(s.loops[i])
    requires s.loops[i].now != [] && Own(s.loops[i].now[0], c) && s.home[c] == i
    requires s'.loops == Advance(s.loops, i, p.front, p.l, p.back)
    requires c < |s'.conns| == |s'.home| && s'.home[c] == s.home[c]
    requires p.back == [] && (forall it <- p.front :: FunctorOf(it, c) == []) && InlineOf(p.front, c) == None
    requires Follows(s.conns[c], OwnEffect(s.loops[i].now[0], r), s'.conns[c])
    ensures Images(LineOf(s, c), Some(OwnEvent(s.loops[i].now[0], r)), [], LineOf(s', c))
  {
    var l := s.loops[i];
    assert l.now[0] in l.now;
    assert FunctorsOf(l.now, c) == FunctorOf(l.now[0], c) + FunctorsOf(l.now[1..], c);
    LineAfter(s, s', i, p.front, p.l, p.back, c);
    NoInline(l, p.front, c);
    OwnLine(LineOf(s, c), l.now[0], r, s'.conns[c], FunctorsOf(l.now[1..], c), c);
  }

  lemma OwnKeeps(s: Sys, i: LoopId, ch: Choice, c: ConnId)
    requires Inv(s) && RunEnabled(s, i, ch) && c < |s.conns| && Own(s.loops[i].now[0], c)
    ensures Exec(s, i, ch).home == s.home && |Exec(s, i, ch).conns| == |s.conns|
  {
    HeadOk(s, i);
  }

  lemma OwnPlan(s: Sys, i: LoopId, ch: Choice, c: ConnId)
    requires Inv(s) && RunEnabled(s, i, ch) && c < |s.conns| && Own(s.loops[i].now[0], c)
    ensures var p := PlanOf(s, i, ch);
            p.back == [] && (forall it <- p.front :: FunctorOf(it, c) == []) && InlineOf(p.front, c) == None
  {
  }

  /** On values: the first item gone, and the connection as the step leaves it. */
  lemma OwnLine(l: H.Line, h: Item, r: WriteResult, conn: Conn, rest: seq<Call>, c: ConnId)
    requires Own(h, c) && l.inline == InlineOf([h], c) && l.batch == FunctorOf(h, c) + rest
    requires (Waits(h) ==> l.running) && (h.WriteFn? || h.CloseFn? ==> !l.running)
    requires Follows(l.conn, OwnEffect(h, r), conn)
    ensures H.Enabled(l, OwnEvent(h, r)) && H.Passed(l, OwnEvent(h, r)) == []
    ensures H.Apply(l, OwnEvent(h, r)) == H.Line(conn, None, rest, l.pending, l.running)
  {
    if Waits(h) {
      assert l.batch[1..] == rest;
    }
  }

  function OwnEvent(h: Item, r: WriteResult): H.Event
    requires Handed(h) || h.WriteFn? || h.CloseFn? || h.EstablishFn?
  {
    if Waits(h) then H.Serve(r) else if h.Calling? then H.Do(r)
    else if h.WriteFn? then H.Writable(r) else if h.CloseFn? then H.Close else H.Establish
  }

  function OwnEffect(h: Item, r: WriteResult): Option<Stream.Event> {
    match h
    case EstablishFn(_) => Some(Stream.Established)
    case SendFn(_, msg) => Some(Stream.QueuedSend(msg, r))
    case WriteFn(_) => Some(Stream.Writable(r))
    case ShutdownFn(_) => Some(Stream.QueuedShutDown)
    case ForceFn(_) => Some(Stream.QueuedForceClose)
    case Calling(_, call) => Some(Carried(call, r))
    case CloseFn(_) => Some(Stream.Closed)
    case _ => None
  }

  /** stop() reaches the connection. */
  lemma StopImage(s: Sys, i: LoopId, ch: Choice, c: ConnId)
    requires Inv(s) && AllPlaced(s) && RunEnabled(s, i, ch) && c < |s.conns|
    requires s.loops[i].now[0].Stopping? && s.loops[i].now[0].rest != [] && s.loops[i].now[0].rest[0] == c
    ensures var s' := Exec(s, i, ch);
            && c < |s'.conns| == |s'.home| && s'.home[c] == s.home[c] && |s'.loops| == |s.loops|
            && Images(LineOf(s, c), Image(s, Run(i, ch), c), CallsAt(s, Run(i, ch), c), LineOf(s', c))
  {
    PlanIsExec(s, i, ch);
    StopConn(s, i, ch, c);
    OtherKeeps(s, i, ch, c);
    StopPlan(s, i, ch, c);
    StopShown(s, Exec(s, i, ch), i, PlanOf(s, i, ch), c);
  }

  lemma StopShown(s: Sys, s': Sys, i: LoopId, p: Plan, c: ConnId)
    requires Bounds(s) && c < |s.conns| && i < |s.loops| && p.l < |s.loops| && StopsOne(s, i, p, c)
    requires s.loops[i].now != [] && s.loops[i].now[0].Stopping? && Placed(s.loops[i])
    requires s'.loops == Advance(s.loops, i, p.front, p.l, p.back)
    requires c < |s'.conns| == |s'.home| && s'.home[c] == s.home[c]
    requires s'.conns[c] == if Passes(s.conns[c], CallShutdown) then AfterCheck(s.conns[c], CallShutdown) else s.conns[c]
    ensures var here := s.home[c] == i;
            Images(LineOf(s, c), Some(if here then H.CallHere(CallShutdown) else H.CallElsewhere(CallShutdown)),
                   if Passes(s.conns[c], CallShutdown) then [H.Made(CallShutdown, here)] else [], LineOf(s', c))
  {
    StopLine(s, s', i, p, c);
    ShutdownCall(LineOf(s, c), s'.conns[c], s.home[c] == i);
  }

  /** On values: shutdown() is called. */
  lemma ShutdownCall(l: H.Line, conn: Conn, here: bool)
    requires here ==> l.inline == None
    requires conn == if Passes(l.conn, CallShutdown) then AfterCheck(l.conn, CallShutdown) else l.conn
    ensures var passes := Passes(l.conn, CallShutdown);
            Images(l, Some(if here then H.CallHere(CallShutdown) else H.CallElsewhere(CallShutdown)),
                   if passes then [H.Made(CallShutdown, here)] else [],
                   l.(conn := conn, inline := if passes && here then Some(CallShutdown) else l.inline,
                      pending := l.pending + if passes && !here then [CallShutdown] else []))
  {
  }

  /** What stop() puts on the lists when it reaches `c`. */
  predicate StopsOne(s: Sys, i: LoopId, p: Plan, c: ConnId)
    requires c < |s.conns| == |s.home|
  {
    var passes := Passes(s.conns[c], CallShutdown);
    && (forall it <- p.front :: FunctorOf(it, c) == [])
    && InlineOf(p.front, c) == (if passes && s.home[c] == i then Some(CallShutdown) else None)
    && p.front != []
    && (if s.home[c] == p.l then FunctorsOf(p.back, c) else []) == (if passes && s.home[c] != i then [CallShutdown] else [])
  }

  lemma StopLine(s: Sys, s': Sys, i: LoopId, p: Plan, c: ConnId)
    requires Bounds(s) && c < |s.conns| && i < |s.loops| && p.l < |s.loops| && StopsOne(s, i, p, c)
    requires s.loops[i].now != [] && s.loops[i].now[0].Stopping? && Placed(s.loops[i])
    requires s'.loops == Advance(s.loops, i, p.front, p.l, p.back)
    requires c < |s'.conns| == |s'.home| && s'.home[c] == s.home[c]
    ensures var l, passes, here := LineOf(s, c), Passes(s.conns[c], CallShutdown), s.home[c] == i;
            && (here ==> l.inline == None)
            && LineOf(s', c) == l.(conn := s'.conns[c],
                                   inline := if passes && here then Some(CallShutdown) else l.inline,
                                   pending := l.pending + if passes && !here then [CallShutdown] else [])
  {
    var l := s.loops[i];
    assert FunctorsOf(l.now, c) == FunctorOf(l.now[0], c) + FunctorsOf(l.now[1..], c);
    LineAfter(s, s', i, p.front, p.l, p.back, c);
    NoInline(l, p.front, c);
  }

  lemma StopConn(s: Sys, i: LoopId, ch: Choice, c: ConnId)
    requires Inv(s) && RunEnabled(s, i, ch) && c < |s.conns|
    requires s.loops[i].now[0].Stopping? && s.loops[i].now[0].rest != [] && s.loops[i].now[0].rest[0] == c
    ensures c < |Exec(s, i, ch).conns|
    ensures Exec(s, i, ch).conns[c] == if Passes(s.conns[c], CallShutdown) then AfterCheck(s.conns[c], CallShutdown) else s.conns[c]
  {
    RunEffect(s, i, ch, c);
  }

  lemma StopPlan(s: Sys, i: LoopId, ch: Choice, c: ConnId)
    requires Inv(s) && RunEnabled(s, i, ch) && c < |s.conns|
    requires s.loops[i].now[0].Stopping? && s.loops[i].now[0].rest != [] && s.loops[i].now[0].rest[0] == c
    ensures StopsOne(s, i, PlanOf(s, i, ch), c)
  {
    var rest := s.loops[i].now[0].rest;
    assert rest[0] in rest;
    assert FunctorsOf([ShutdownFn(c)], c) == [CallShutdown] + FunctorsOf([ShutdownFn(c)][1..], c);
  }

  /** Whatever does not concern the connection leaves its line as it is. */
  lemma OtherImage(s: Sys, i: LoopId, ch: Choice, c: ConnId)
    requires Inv(s) && AllPlaced(s) && RunEnabled(s, i, ch) && c < |s.conns| && !Own(s.loops[i].now[0], c)
    requires var h := s.loops[i].now[0]; h.Stopping? ==> h.rest == [] || h.rest[0] != c
    ensures var s' := Exec(s, i, ch);
            && c < |s'.conns| == |s'.home| && s'.home[c] == s.home[c] && |s'.loops| == |s.loops|
            && LineOf(s', c) == LineOf(s, c) && Image(s, Run(i, ch), c) == None && CallsAt(s, Run(i, ch), c) == []
  {
    var h, p, s' := s.loops[i].now[0], PlanOf(s, i, ch), Exec(s, i, ch);
    assert Placed(s.loops[i]);
    PlanIsExec(s, i, ch);
    RunEffect(s, i, ch, c);
    OtherKeeps(s, i, ch, c);
    OtherPlan(s, i, ch, c);
    assert s'.conns[c] == s.conns[c];
    OtherShown(s, s', i, p, c);
  }

  lemma OtherShown(s: Sys, s': Sys, i: LoopId, p: Plan, c: ConnId)
    requires Bounds(s) && c < |s.conns| && i < |s.loops| && p.l < |s.loops| && Placed(s.loops[i])
    requires s.loops[i].now != [] && !Own(s.loops[i].now[0], c)
    requires s'.loops == Advance(s.loops, i, p.front, p.l, p.back)
    requires c < |s'.conns| == |s'.home| && s'.home[c] == s.home[c] && s'.conns[c] == s.conns[c]
    requires forall it <- p.front :: FunctorOf(it, c) == []
    requires forall it <- p.back :: FunctorOf(it, c) == []
    requires InlineOf(p.front, c) == None
    ensures LineOf(s', c) == LineOf(s, c)
  {
    var l := s.loops[i];
    assert FunctorsOf(l.now, c) == FunctorOf(l.now[0], c) + FunctorsOf(l.now[1..], c);
    NoneWaits(p.back, c);
    LineAfter(s, s', i, p.front, p.l, p.back, c);
    NoInline(l, p.front, c);
  }

  lemma OtherKeeps(s: Sys, i: LoopId, ch: Choice, c: ConnId)
    requires Inv(s) && RunEnabled(s, i, ch) && c < |s.conns|
    ensures |Exec(s, i, ch).home| == |Exec(s, i, ch).conns| > c && Exec(s, i, ch).home[c] == s.home[c]
  {
    if s.loops[i].now[0].Stopping? {
      var rest := s.loops[i].now[0].rest;
      assert rest != [] ==> rest[0] in rest;
    }
  }

  lemma OtherPlan(s: Sys, i: LoopId, ch: Choice, c: ConnId)
    requires Inv(s) && RunEnabled(s, i, ch) && c < |s.conns| && !Own(s.loops[i].now[0], c)
    requires var h := s.loops[i].now[0]; h.Stopping? ==> h.rest == [] || h.rest[0] != c
    ensures var p := PlanOf(s, i, ch);
            && (forall it <- p.front :: FunctorOf(it, c) == []) && (forall it <- p.back :: FunctorOf(it, c) == [])
            && InlineOf(p.front, c) == None
  {
    match s.loops[i].now[0]
    case Chan(d) => ChannelPlaced(d, ch.revents);
    case Stopping(_, _) => StoppingPlan(s, i, ch, c);
    case _ =>
  }

  lemma StoppingPlan(s: Sys, i: LoopId, ch: Choice, c: ConnId)
    requires Inv(s) && RunEnabled(s, i, ch) && c < |s.conns|
    requires var h := s.loops[i].now[0]; h.Stopping? && (h.rest == [] || h.rest[0] != c)
    ensures var p := PlanOf(s, i, ch);
            && (forall it <- p.front :: FunctorOf(it, c) == []) && (forall it <- p.back :: FunctorOf(it, c) == [])
            && InlineOf(p.front, c) == None
  {
    var rest := s.loops[i].now[0].rest;
    assert rest != [] ==> rest[0] in rest;
  }

  lemma RunImage(s: Sys, i: LoopId, ch: Choice, c: ConnId)
    requires Inv(s) && AllPlaced(s) && RunEnabled(s, i, ch) && c < |s.conns|
    ensures var s' := Exec(s, i, ch);
            && c < |s'.conns| == |s'.home| && s'.home[c] == s.home[c] && |s'.loops| == |s.loops|
            && Images(LineOf(s, c), Image(s, Run(i, ch), c), CallsAt(s, Run(i, ch), c), LineOf(s', c))
  {
    var h := s.loops[i].now[0];
    if Own(h, c) {
      OwnImage(s, i, ch, c);
    } else if h.Stopping? && h.rest != [] && h.rest[0] == c {
      StopImage(s, i, ch, c);
    } else {
      OtherImage(s, i, ch, c);
    }
  }

  lemma PollImage(s: Sys, i: LoopId, active: seq<Item>, c: ConnId)
    requires Inv(s) && Enabled(s, Poll(i, active)) && c < |s.conns|
    ensures var e := Poll(i, active); Images(LineOf(s, c), Image(s, e, c), [], LineOf(Next(s, e), c))
  {
    PolledPlain(s, i, active, c);
    NoneWaits(active, c);
    assert active != [] ==> active[0] in active;
  }

  lemma PolledPlain(s: Sys, i: LoopId, active: seq<Item>, c: ConnId)
    requires Enabled(s, Poll(i, active))
    ensures forall it <- active :: FunctorOf(it, c) == [] && !it.Calling?
  {
    forall it | it in active ensures FunctorOf(it, c) == [] && !it.Calling? {
      var k :| 0 <= k < |active| && active[k] == it;
      assert Polled(s, i, active[k]);
    }
  }

  lemma SwapImage(s: Sys, i: LoopId, c: ConnId)
    requires Inv(s) && Enabled(s, Swap(i)) && Placed(s.loops[i]) && c < |s.conns|
    ensures Images(LineOf(s, c), Image(s, Swap(i), c), [], LineOf(Next(s, Swap(i)), c))
  {
    if s.home[c] == i {
      SwapLists(s.loops[i].pending, BatchEnd(BatchRefs(s.loops[i].pending)), c);
    }
  }

  lemma SwapLists(batch: seq<Item>, end: Item, c: ConnId)
    requires end.BatchEnd? && forall it <- batch :: !it.Calling?
    ensures FunctorsOf(batch + [end], c) == FunctorsOf(batch, c) && InlineOf(batch + [end], c) == None
  {
    FunctorsConcat(batch, [end], c);
    NoneWaits([end], c);
    assert batch != [] ==> batch[0] in batch && (batch + [end])[0] == batch[0];
  }

  lemma UseImage(s: Sys, onto: int, d: ConnId, call: Call, c: ConnId)
    requires Inv(s) && Formed(s) && AllPlaced(s) && c < |s.conns| && d < |s.conns|
    requires 0 <= onto ==> onto < |s.loops| && s.loops[onto].now != []
                           && (s.loops[onto].now[0].Callback? || s.loops[onto].now[0].Posted?)
    ensures var s' := User(s, onto, Use(d, call));
            && c < |s'.conns| == |s'.home| && s'.home[c] == s.home[c] && |s'.loops| == |s.loops|
            && Images(LineOf(s, c),
                      if d != c then None else if s.home[c] == onto then Some(H.CallHere(call)) else Some(H.CallElsewhere(call)),
                      if d == c && Passes(s.conns[c], call) then [H.Made(call, s.home[c] == onto)] else [], LineOf(s', c))
  {
    var s' := User(s, onto, Use(d, call));
    if Passes(s.conns[d], call) {
      if s.home[d] == onto {
        InlineImage(s, onto, d, call, c);
      } else {
        QueuedImage(s, onto, d, call, c);
      }
    }
  }

  lemma QueueLists(loops: seq<Loop>, l: LoopId, it: Item, j: LoopId, c: ConnId)
    requires l < |loops| && j < |loops|
    ensures var r := Queue(loops, l, [it])[j];
            && r.now == loops[j].now && r.dispatching == loops[j].dispatching
            && FunctorsOf(r.pending, c) == FunctorsOf(loops[j].pending, c) + if j == l then FunctorOf(it, c) else []
  {
    FunctorsConcat(loops[l].pending, [it], c);
    assert [it][1..] == [];
  }

  lemma QueuedImage(s: Sys, onto: int, d: ConnId, call: Call, c: ConnId)
    requires Inv(s) && Formed(s) && c < |s.conns| && d < |s.conns| && s.home[d] != onto && Passes(s.conns[d], call)
    requires 0 <= onto ==> onto < |s.loops| && s.loops[onto].now != []
    ensures var s', was := User(s, onto, Use(d, call)), LineOf(s, c);
            LineOf(s', c) == was.(conn := s'.conns[c], pending := was.pending + if d == c then [call] else [])
  {
    QueueLists(s.loops, s.home[d], Functor(d, call), s.home[c], c);
  }

  lemma InlineImage(s: Sys, i: LoopId, d: ConnId, call: Call, c: ConnId)
    requires Inv(s) && Formed(s) && AllPlaced(s) && c < |s.conns| && d < |s.conns| && s.home[d] == i
    requires i < |s.loops| && s.loops[i].now != [] && (s.loops[i].now[0].Callback? || s.loops[i].now[0].Posted?)
    requires Passes(s.conns[d], call)
    ensures var s', was := User(s, i, Use(d, call)), LineOf(s, c);
            LineOf(s', c) == was.(conn := s'.conns[c], inline := if d == c then Some(call) else was.inline)
            && (s.home[c] == i ==> was.inline == None)
  {
    InlineShown(s, User(s, i, Use(d, call)), i, d, call, c);
  }

  lemma InlineShown(s: Sys, s': Sys, i: LoopId, d: ConnId, call: Call, c: ConnId)
    requires Bounds(s) && c < |s.conns| && d < |s.conns| && i < |s.loops| && s.home[d] == i
    requires s.loops[i].now != [] && (s.loops[i].now[0].Callback? || s.loops[i].now[0].Posted?)
    requires s'.loops == Advance(s.loops, i, [Calling(d, call), Guard(d), s.loops[i].now[0]], i, [])
    requires c < |s'.conns| == |s'.home| && s'.home[c] == s.home[c]
    ensures LineOf(s', c) == LineOf(s, c).(conn := s'.conns[c], inline := if d == c then Some(call) else LineOf(s, c).inline)
    ensures s.home[c] == i ==> LineOf(s, c).inline == None
  {
    var l := s.loops[i];
    assert FunctorsOf(l.now, c) == FunctorOf(l.now[0], c) + FunctorsOf(l.now[1..], c);
    LineAfter(s, s', i, [Calling(d, call), Guard(d), l.now[0]], i, [], c);
  }

  lemma UserImage(s: Sys, onto: int, act: Act, c: ConnId)
    requires Inv(s) && Formed(s) && AllPlaced(s) && c < |s.conns|
    requires 0 <= onto ==> onto < |s.loops| && s.loops[onto].now != []
                           && (s.loops[onto].now[0].Callback? || s.loops[onto].now[0].Posted?)
    requires match act
             case Post(l) => l < |s.loops|
             case Stop => true
             case Keep(d) => d < |s.conns|
             case Drop(d) => d < |s.conns|
             case Use(_, _) => false
    ensures var s' := User(s, onto, act);
            c < |s'.conns| == |s'.home| && s'.home[c] == s.home[c] && |s'.loops| == |s.loops| && LineOf(s', c) == LineOf(s, c)
  {
    match act
    case Post(l) => PostImage(s, l, Posted, c);
    case Stop =>
      if onto == 0 {
        var h := s.loops[0].now[0];
        assert s.loops[0].now == [h] + s.loops[0].now[1..];
        FunctorsConcat([h], s.loops[0].now[1..], c);
        NoneWaits([h], c);
        LineAfter(s, User(s, 0, Stop), 0, [StopFn, h], 0, [], c);
      } else {
        PostImage(s, 0, StopFn, c);
      }
    case _ =>
  }

  lemma PostImage(s: Sys, l: LoopId, it: Item, c: ConnId)
    requires Bounds(s) && c < |s.conns| && l < |s.loops| && FunctorOf(it, c) == []
    ensures LineOf(s.(loops := Queue(s.loops, l, [it])), c) == LineOf(s, c)
  {
    QueueLists(s.loops, l, it, s.home[c], c);
  }

  /** Every event of the system is one step of the connection's line, or leaves it alone; the
      calls are the same. */
  lemma StepImage(s: Sys, e: Event, c: ConnId)
    requires Inv(s) && AllPlaced(s) && Enabled(s, e) && c < |s.conns|
    ensures var s' := Next(s, e);
            && c < |s'.conns| == |s'.home| && s'.home[c] == s.home[c] && |s'.loops| == |s.loops|
            && Images(LineOf(s, c), Image(s, e, c), CallsAt(s, e, c), LineOf(s', c))
  {
    match e
    case Run(i, ch) => RunImage(s, i, ch, c);
    case UserOnLoop(i, act) =>
      if act.Use? { UseImage(s, i, act.d, act.call, c); } else { UserImage(s, i, act, c); }
    case UserElsewhere(act) =>
      if act.Use? { UseImage(s, -1, act.d, act.call, c); } else { UserImage(s, -1, act, c); }
    case Poll(i, active) => PollImage(s, i, active, c);
    case Swap(i) =>
      assert Placed(s.loops[i]);
      SwapImage(s, i, c);
  }
}
