/** When nothing new comes from outside, the loops run dry. */
module LifecycleDrain {
  import opened Bytes
  import opened Connection
  import opened Channels
  import opened Lifecycle
  import opened LifecycleInvariant
  import opened LifecycleSteps
  import opened LifecyclePlaces
  import opened LifecycleAcceptor
  import opened LifecycleTheorems
  import opened LifecycleProgress
  import opened LifecycleStreams
  import Stream = OutputStream
  import opened LifecycleCallers

  /** What the loops do by themselves: polls that report nothing, swaps, and whatever is in
      their lists, with any answer of the kernel. */
  predicate Internal(e: Event) {
    e.Run? || e.Swap? || (e.Poll? && e.active == [])
  }

  predicate AllInternal(es: seq<Event>) {
    es == [] || (Internal(es[0]) && AllInternal(es[1..]))
  }

  /** The end of a batch is bookkeeping; everything else is work. */
  ghost predicate Works(s: Sys, e: Event)
    requires Enabled(s, e)
  {
    e.Run? && !s.loops[e.i].now[0].BatchEnd?
  }

  /** What is measured of a list: the acceptor's events in it, or the work it stands for when
      at most `most` connections are in the map; or what is queued, and the steps a loop
      needs to get back to poll. */
  datatype Measure = Accepts | Work(most: nat) | Queued | Ticks

  /** Everything an item leads to counts towards it. */
  function Weight(it: Item, m: Measure): nat {
    match m
    case Accepts => if it.Accept? then 1 else 0
    case Work(most) => (
      match it
      case BatchEnd(_) => 0
      case Chan(_) => 14
      case ReadFn(_) => 6
      case CloseFn(_) => 5
      case ForceFn(_) => 5
      case Calling(_, call) => if call.CallForceClose? then 5 else 1
      case CloseCallback(_) => 3
      case RemoveFn(_) => 2
      case EstablishFn(_) => 2
      case Accept => 4
      case StopFn => 2 * most + 2
      case Stopping(rest, _) => 2 * |rest| + 1
      case _ => 1)
    case _ => 0
  }

  function Sum(q: seq<Item>, m: Measure): nat {
    if q == [] then 0 else Weight(q[0], m) + Sum(q[1..], m)
  }

  function Of(l: Loop, m: Measure): nat {
    match m
    case Queued => |l.pending|
    case Ticks => |l.now| + (if l.dispatching then (if l.pending == [] then 2 else 0) else if l.pending == [] then 0 else 1)
    case _ => Sum(l.now + l.pending, m)
  }

  function Total(loops: seq<Loop>, m: Measure): nat {
    if loops == [] then 0 else Of(loops[0], m) + Total(loops[1..], m)
  }

  lemma {:induction false} SumConcat(a: seq<Item>, b: seq<Item>, m: Measure)
    ensures Sum(a + b, m) == Sum(a, m) + Sum(b, m)
  {
    if a == [] {
      assert a + b == b;
    } else {
      assert (a + b)[1..] == a[1..] + b;
      SumConcat(a[1..], b, m);
    }
  }

  lemma {:induction false} TotalUpdate(loops: seq<Loop>, i: nat, l: Loop, m: Measure)
    requires i < |loops|
    ensures Total(loops[i := l], m) == Total(loops, m) - Of(loops[i], m) + Of(l, m)
    decreases |loops|
  {
    if i == 0 {
      assert loops[0 := l][1..] == loops[1..];
    } else {
      assert loops[i := l][1..] == loops[1..][i - 1 := l];
      TotalUpdate(loops[1..], i - 1, l, m);
    }
  }

  lemma TotalAtLeast(loops: seq<Loop>, i: nat, m: Measure)
    requires i < |loops|
    ensures Of(loops[i], m) <= Total(loops, m)
  {
    if i > 0 {
      TotalAtLeast(loops[1..], i - 1, m);
    }
  }

  lemma QueueTotal(loops: seq<Loop>, l: LoopId, back: seq<Item>, m: Measure)
    requires l < |loops| && (m.Accepts? || m.Work?)
    ensures Total(Queue(loops, l, back), m) == Total(loops, m) + Sum(back, m)
  {
    var was := loops[l].now + loops[l].pending;
    assert loops[l].now + (loops[l].pending + back) == was + back;
    SumConcat(was, back, m);
    TotalUpdate(loops, l, loops[l].(pending := loops[l].pending + back), m);
  }

  lemma AdvanceTotal(loops: seq<Loop>, i: LoopId, front: seq<Item>, l: LoopId, back: seq<Item>, m: Measure)
    requires i < |loops| && l < |loops| && loops[i].now != [] && (m.Accepts? || m.Work?)
    ensures Total(Advance(loops, i, front, l, back), m)
              == Total(loops, m) - Weight(loops[i].now[0], m) + Sum(front, m) + Sum(back, m)
  {
    var li := loops[i];
    var rest := li.now[1..] + li.pending;
    assert (li.now + li.pending)[1..] == rest;
    assert (front + li.now[1..]) + li.pending == front + rest;
    SumConcat(front, rest, m);
    TotalUpdate(loops, i, li.(now := front + li.now[1..]), m);
    QueueTotal(loops[i := li.(now := front + li.now[1..])], l, back, m);
  }

  // ----- each step -----

  /** What the step passes on weighs less than the item it comes from. */
  lemma PlanWeight(s: Sys, i: LoopId, ch: Choice, most: nat)
    requires Inv(s) && RunEnabled(s, i, ch) && |s.entries| <= most
    ensures var p, h := PlanOf(s, i, ch), s.loops[i].now[0];
            Sum(p.front, Work(most)) + Sum(p.back, Work(most)) + (if h.BatchEnd? then 0 else 1) <= Weight(h, Work(most))
  {
    match s.loops[i].now[0]
    case Chan(c) => ChannelWeight(c, ch.revents, most);
    case Accept => ServerWeight(s, i, ch, most);
    case StopFn => ServerWeight(s, i, ch, most);
    case Stopping(_, _) => ServerWeight(s, i, ch, most);
    case _ => ShortWeight(s, i, ch, most);
  }

  lemma ServerWeight(s: Sys, i: LoopId, ch: Choice, most: nat)
    requires Inv(s) && RunEnabled(s, i, ch) && |s.entries| <= most
    requires s.loops[i].now[0].Accept? || s.loops[i].now[0].StopFn? || s.loops[i].now[0].Stopping?
    ensures var p, h := PlanOf(s, i, ch), s.loops[i].now[0];
            Sum(p.front, Work(most)) + Sum(p.back, Work(most)) + 1 <= Weight(h, Work(most))
  {
    var p := PlanOf(s, i, ch);
    SumShort(p.front, Work(most));
    SumShort(p.back, Work(most));
    match s.loops[i].now[0]
    case StopFn => ListingLength(s.entries);
    case Stopping(rest, _) => assert rest != [] ==> rest[0] in rest && |rest[1..]| == |rest| - 1;
    case _ =>
  }

  lemma ShortWeight(s: Sys, i: LoopId, ch: Choice, most: nat)
    requires Inv(s) && RunEnabled(s, i, ch)
    requires var h := s.loops[i].now[0]; !h.Chan? && !h.Accept? && !h.StopFn? && !h.Stopping?
    ensures var p, h := PlanOf(s, i, ch), s.loops[i].now[0];
            Sum(p.front, Work(most)) + Sum(p.back, Work(most)) + (if h.BatchEnd? then 0 else 1) <= Weight(h, Work(most))
  {
    SumShort(PlanOf(s, i, ch).front, Work(most));
    SumShort(PlanOf(s, i, ch).back, Work(most));
  }

  /** Only poll reports the acceptor. */
  lemma PlanAccepts(s: Sys, i: LoopId, ch: Choice)
    requires Inv(s) && RunEnabled(s, i, ch)
    ensures var p := PlanOf(s, i, ch); Sum(p.front, Accepts) == Sum(p.back, Accepts) == 0
  {
    var p := PlanOf(s, i, ch);
    forall it | it in p.front || it in p.back ensures !it.Accept? {
      PlanItems(s, i, ch, it);
    }
    NoAccepts(p.front);
    NoAccepts(p.back);
  }

  lemma {:induction false} NoAccepts(q: seq<Item>)
    requires forall it <- q :: !it.Accept?
    ensures Sum(q, Accepts) == 0
  {
    if q != [] {
      NoAccepts(q[1..]);
    }
  }

  lemma SumShort(q: seq<Item>, m: Measure)
    ensures |q| == 1 ==> Sum(q, m) == Weight(q[0], m)
    ensures |q| == 2 ==> Sum(q, m) == Weight(q[0], m) + Weight(q[1], m)
  {
    if |q| == 2 {
      assert q[1..] == [q[1]] && [q[1]][1..] == [];
    }
  }

  lemma CallWeight(c: ConnId, r: Revents, cb: Callback, m: Measure)
    ensures Sum(Calls(c, One(r, {OnError, OnClose, OnRead, OnWrite}, cb)), m)
              <= match cb case OnError => 0 case OnClose => Weight(CloseFn(c), m)
                          case OnRead => Weight(ReadFn(c), m) case OnWrite => Weight(WriteFn(c), m)
  {
    assert [cb][1..] == [];
    SumShort(Calls(c, [cb]), m);
  }

  /** One event of a channel fires each callback at most once. */
  lemma ChannelSum(c: ConnId, r: Revents, m: Measure)
    ensures Sum(Calls(c, Fired(r, {OnError, OnClose, OnRead, OnWrite})) + [Guard(c)], m)
              <= Weight(CloseFn(c), m) + Weight(ReadFn(c), m) + Weight(WriteFn(c), m) + Weight(Guard(c), m)
  {
    var all := {OnError, OnClose, OnRead, OnWrite};
    var e, d, n, w := One(r, all, OnError), One(r, all, OnClose), One(r, all, OnRead), One(r, all, OnWrite);
    CallsConcat(c, e + d + n, w);
    CallsConcat(c, e + d, n);
    CallsConcat(c, e, d);
    SumConcat(Calls(c, e + d + n + w), [Guard(c)], m);
    SumConcat(Calls(c, e + d + n), Calls(c, w), m);
    SumConcat(Calls(c, e + d), Calls(c, n), m);
    SumConcat(Calls(c, e), Calls(c, d), m);
    CallWeight(c, r, OnError, m);
    CallWeight(c, r, OnClose, m);
    CallWeight(c, r, OnRead, m);
    CallWeight(c, r, OnWrite, m);
    SumShort([Guard(c)], m);
  }

  lemma ChannelWeight(c: ConnId, r: Revents, most: nat)
    ensures var calls := Calls(c, Fired(r, {OnError, OnClose, OnRead, OnWrite}));
            Sum(calls + [Guard(c)], Work(most)) <= 13
  {
    ChannelSum(c, r, Work(most));
  }

  lemma {:induction false} CallsConcat(c: ConnId, a: seq<Callback>, b: seq<Callback>)
    ensures Calls(c, a + b) == Calls(c, a) + Calls(c, b)
  {
    if a == [] {
      assert a + b == b;
    } else {
      assert (a + b)[1..] == a[1..] + b;
      CallsConcat(c, a[1..], b);
    }
  }

  lemma {:induction false} ListingLength(entries: set<ConnId>)
    ensures |Listing(entries)| == |entries|
    decreases |entries|
  {
    if entries != {} {
      var c := Listing(entries)[0];
      assert Listing(entries)[1..] == Listing(entries - {c});
      ListingLength(entries - {c});
    }
  }

  /** The map and the acceptor's events together never grow by themselves. */
  ghost function Load(s: Sys): nat {
    |s.entries| + Total(s.loops, Accepts)
  }

  lemma RunLoad(s: Sys, i: LoopId, ch: Choice)
    requires Inv(s) && RunEnabled(s, i, ch)
    ensures Load(Exec(s, i, ch)) <= Load(s)
  {
    var p := PlanOf(s, i, ch);
    PlanIsExec(s, i, ch);
    PlanAccepts(s, i, ch);
    AdvanceTotal(s.loops, i, p.front, p.l, p.back, Accepts);
    RunEntries(s, i, ch);
  }

  lemma RunEntries(s: Sys, i: LoopId, ch: Choice)
    requires Inv(s) && RunEnabled(s, i, ch)
    ensures |Exec(s, i, ch).entries| <= |s.entries| + Weight(s.loops[i].now[0], Accepts)
  {
    if s.loops[i].now[0].Stopping? {
      var rest := s.loops[i].now[0].rest;
      assert rest != [] ==> rest[0] in rest;
    }
  }

  /** Every step of work uses some up, whatever the kernel answers; no other step adds any. */
  lemma StepWork(s: Sys, e: Event, most: nat)
    requires Inv(s) && Enabled(s, e) && Internal(e) && Load(s) <= most
    ensures Load(Next(s, e)) <= most
    ensures Total(Next(s, e).loops, Work(most)) + (if Works(s, e) then 1 else 0) <= Total(s.loops, Work(most))
  {
    match e
    case Run(i, ch) =>
      var p := PlanOf(s, i, ch);
      PlanIsExec(s, i, ch);
      PlanWeight(s, i, ch, most);
      AdvanceTotal(s.loops, i, p.front, p.l, p.back, Work(most));
      RunLoad(s, i, ch);
    case Swap(i) =>
      IdleTotals(s, i, false, Accepts);
      IdleTotals(s, i, false, Work(most));
    case Poll(i, _) =>
      IdleTotals(s, i, true, Accepts);
      IdleTotals(s, i, true, Work(most));
  }

  lemma IdleTotals(s: Sys, i: LoopId, poll: bool, m: Measure)
    requires i < |s.loops| && s.loops[i].now == [] && (m.Accepts? || m.Work?)
    ensures var batch := s.loops[i].pending;
            var l := if poll then Loop(true, [], batch) else Loop(false, batch + [BatchEnd(BatchRefs(batch))], []);
            Total(s.loops[i := l], m) == Total(s.loops, m)
  {
    var batch := s.loops[i].pending;
    var end := [BatchEnd(BatchRefs(batch))];
    SumConcat(batch, end, m);
    assert [] + batch == batch && (batch + end) + [] == batch + end;
    TotalUpdate(s.loops, i, if poll then Loop(true, [], batch) else Loop(false, batch + end, []), m);
  }

  /** How often the loops work in a run. */
  ghost function Worked(s: Sys, es: seq<Event>, t: Sys): nat
    requires Leads(s, es, t)
    decreases |es|
  {
    if es == [] then 0 else (if Works(s, es[0]) then 1 else 0) + Worked(Next(s, es[0]), es[1..], t)
  }

  /** Under every schedule of the loops and every answer of the kernel, without events from
      outside, no more items are executed than the lists stand for at the start. */
  lemma {:induction false} WorkIsBounded(s: Sys, es: seq<Event>, t: Sys, most: nat)
    requires Inv(s) && Leads(s, es, t) && Load(s) <= most
    requires AllInternal(es)
    ensures Worked(s, es, t) + Total(t.loops, Work(most)) <= Total(s.loops, Work(most))
    decreases |es|
  {
    if es != [] {
      StepWork(s, es[0], most);
      InvStep(s, es[0]);
      WorkIsBounded(Next(s, es[0]), es[1..], t, most);
    }
  }

  lemma LoopsDoBoundedWork(s: Sys, es: seq<Event>, t: Sys)
    requires Reachable(s) && Leads(s, es, t) && AllInternal(es)
    ensures Worked(s, es, t) <= Total(s.loops, Work(Load(s)))
  {
    InvReachable(s);
    WorkIsBounded(s, es, t, Load(s));
  }

  // ----- running dry -----

  /** Nothing freed is waiting to be used: no channel of a destroyed connection, and no event of
      the acceptor after stop() or with stop() ahead of it. */
  ghost predicate Fresh(s: Sys) {
    NoneStale(s) && s.loops != [] && AcceptorSafe(s)
  }

  /** The kernel answers would-block, reports no data and accepts on the server's own loop. */
  predicate Quiet(e: Event) {
    Internal(e) && (e.Run? ==> e.choice == QUIET)
  }

  lemma FreshKept(s: Sys, e: Event)
    requires Reachable(s) && Fresh(s) && Enabled(s, e) && Internal(e)
    ensures Fresh(Next(s, e))
  {
    InvReachable(s);
    PlacedReachable(s);
    StepAcceptor(s, e);
    StaleKept(s, e);
  }

  lemma StaleKept(s: Sys, e: Event)
    requires Inv(s) && NoneStale(s) && Enabled(s, e) && Internal(e)
    ensures NoneStale(Next(s, e))
  {
    var s' := Next(s, e);
    forall j, it | 0 <= j < |s'.loops| && it in Todo(s', j) && it.Chan? ensures Down(it.c) !in s'.log {
      match e
      case Run(i, ch) => RunChannels(s, i, ch, j, it);
      case Poll(i, _) => PollTodo(s, i, [], j);
      case Swap(i) => SwapTodo(s, i, j);
    }
  }

  /** The next thing loop `i` does on its way back to poll. */
  function NextTick(l: Loop, i: LoopId): Event {
    if l.now != [] then Run(i, QUIET) else if l.dispatching then Swap(i) else Poll(i, [])
  }

  lemma TickEnabled(s: Sys, i: LoopId)
    requires Reachable(s) && Fresh(s) && i < |s.loops|
    ensures Enabled(s, NextTick(s.loops[i], i))
  {
    InvReachable(s);
    InvFormed(s);
    if s.loops[i].now != [] {
      assert s.loops[i].now[0] == Todo(s, i)[0];
      if Raw(s.loops[i].now[0]) {
        RawItemsAlive(s, i, 0);
      }
      SafeNotDangling(s, i);
    }
  }

  /** Each tick of a loop that is not idle brings the system closer to being idle. */
  lemma TickProgress(s: Sys, i: LoopId, most: nat)
    requires Inv(s) && i < |s.loops| && s.loops[i] != Loop(false, [], []) && Load(s) <= most
    requires Enabled(s, NextTick(s.loops[i], i))
    ensures var s' := Next(s, NextTick(s.loops[i], i));
            && Load(s') <= most
            && (Total(s'.loops, Work(most)) < Total(s.loops, Work(most))
                || (Total(s'.loops, Work(most)) <= Total(s.loops, Work(most))
                    && (Total(s'.loops, Queued) < Total(s.loops, Queued)
                        || (Total(s'.loops, Queued) == Total(s.loops, Queued) && Total(s'.loops, Ticks) < Total(s.loops, Ticks)))))
  {
    var e, l := NextTick(s.loops[i], i), s.loops[i];
    StepWork(s, e, most);
    if !Works(s, e) {
      var l' := if l.now != [] then l.(now := l.now[1..])
                else if l.dispatching then Loop(false, l.pending + [BatchEnd(BatchRefs(l.pending))], [])
                else Loop(true, [], l.pending);
      assert Next(s, e).loops == s.loops[i := l'] by {
        if l.now != [] {
          assert [] + l.now[1..] == l.now[1..] && l.pending + [] == l.pending;
        }
      }
      TotalUpdate(s.loops, i, l', Queued);
      TotalUpdate(s.loops, i, l', Ticks);
    }
  }

  /** What running dry does not undo: a connection that is closed, and one that is `Late`. */
  ghost predicate Carries(s: Sys, t: Sys) {
    && |s.conns| <= |t.conns|
    && (forall c :: 0 <= c < |s.conns| && s.conns[c].state == Disconnected ==> t.conns[c].state == Disconnected)
    && (forall c :: Late(s, c) ==> Late(t, c))
  }

  lemma CarriesOn(s: Sys, t: Sys, u: Sys)
    requires Carries(s, t) && Carries(t, u)
    ensures Carries(s, u)
  {
  }

  lemma TickKeeps(s: Sys, i: LoopId)
    requires Reachable(s) && Fresh(s) && i < |s.loops|
    ensures var e := NextTick(s.loops[i], i);
            Enabled(s, e) && Quiet(e) && Reachable(Next(s, e)) && Fresh(Next(s, e)) && Carries(s, Next(s, e))
  {
    InvReachable(s);
    var e := NextTick(s.loops[i], i);
    TickEnabled(s, i);
    FreshKept(s, e);
    ReachableThen(s, e);
    StepCreates(s, e);
    forall c | 0 <= c < |s.conns| && s.conns[c].state == Disconnected ensures Next(s, e).conns[c].state == Disconnected {
      StateMovesForward(s, e, c);
    }
    forall c | Late(s, c) ensures Late(Next(s, e), c) {
      LateKept(s, e, c);
    }
  }

  /** One tick of some loop that is not idle yet. */
  lemma Tick(s: Sys, most: nat) returns (e: Event, s': Sys)
    requires Reachable(s) && Fresh(s) && Load(s) <= most && !Idle(s)
    ensures Enabled(s, e) && s' == Next(s, e) && Quiet(e) && Reachable(s') && Fresh(s') && Carries(s, s') && Load(s') <= most
    ensures Total(s'.loops, Work(most)) <= Total(s.loops, Work(most))
    ensures Total(s'.loops, Work(most)) == Total(s.loops, Work(most)) ==>
              Total(s'.loops, Queued) < Total(s.loops, Queued)
              || (Total(s'.loops, Queued) == Total(s.loops, Queued) && Total(s'.loops, Ticks) < Total(s.loops, Ticks))
  {
    var i :| 0 <= i < |s.loops| && s.loops[i] != Loop(false, [], []);
    e := NextTick(s.loops[i], i);
    InvReachable(s);
    TickKeeps(s, i);
    TickProgress(s, i, most);
    s' := Next(s, e);
  }

  lemma LeadsCons(s: Sys, e: Event, s': Sys, es: seq<Event>, t: Sys)
    requires Enabled(s, e) && s' == Next(s, e) && Leads(s', es, t)
    ensures Leads(s, [e] + es, t)
  {
    assert ([e] + es)[1..] == es;
  }

  lemma {:induction false} RunDry(s: Sys, most: nat) returns (es: seq<Event>, t: Sys)
    requires Reachable(s) && Fresh(s) && Load(s) <= most
    ensures Leads(s, es, t) && AllInternal(es) && Idle(t) && Reachable(t) && Carries(s, t)
    decreases Total(s.loops, Work(most)), Total(s.loops, Queued), Total(s.loops, Ticks)
  {
    if Idle(s) {
      es, t := [], s;
    } else {
      var e, s' := Tick(s, most);
      var rest;
      rest, t := RunDry(s', most);
      CarriesOn(s, s', t);
      LeadsCons(s, e, s', rest, t);
      es := [e] + rest;
      assert es[1..] == rest;
    }
  }

  /** Closed with write interest on, held by the application, and no other close on its way. */
  ghost predicate Late(s: Sys, c: ConnId) {
    && c < |s.conns| && c in s.held && s.conns[c].state == Disconnected && s.conns[c].writing
    && forall j, it :: 0 <= j < |s.loops| && it in Todo(s, j) ==> !ClosesIt(it, c)
  }

  /** Without a close, and with a kernel that takes nothing, write interest stays on. */
  lemma EffectLate(conn: Conn, effect: Option<Stream.Event>, conn': Conn)
    requires Follows(conn, effect, conn') && conn.state == Disconnected && conn.writing
    requires effect.Some? ==> match effect.value
                              case QueuedSend(_, r) => r == WouldBlock
                              case Writable(r) => r == WouldBlock
                              case QueuedShutDown => true
                              case CheckedElsewhere(_) => true
                              case Established => true
                              case _ => false
    ensures conn'.state == Disconnected && conn'.writing
  {
  }

  lemma LateKept(s: Sys, e: Event, c: ConnId)
    requires Inv(s) && Enabled(s, e) && Quiet(e) && Late(s, c)
    ensures Late(Next(s, e), c)
  {
    var s' := Next(s, e);
    StepEffect(s, e, c);
    if e.Run? {
      assert s.loops[e.i].now[0] == Todo(s, e.i)[0];
      assert s.loops[e.i].now[0] in Todo(s, e.i) && !ClosesIt(s.loops[e.i].now[0], c);
      QuietHeld(s, e.i);
    }
    EffectLate(s.conns[c], Effect(s, e, c), s'.conns[c]);
    forall j, it | 0 <= j < |s'.loops| && it in Todo(s', j) ensures !ClosesIt(it, c) {
      if ClosesIt(it, c) { StepCloses(s, e, c, j, it); }
    }
  }

  lemma StepCloses(s: Sys, e: Event, c: ConnId, j: LoopId, it: Item)
    requires Inv(s) && Enabled(s, e) && Quiet(e) && j < |s.loops|
    requires it in Todo(Next(s, e), j) && ClosesIt(it, c)
    ensures it in Todo(s, j)
  {
    match e
    case Run(i, _) => QuietCloses(s, i, c, j, it);
    case Poll(i, _) => PollTodo(s, i, [], j);
    case Swap(i) => SwapTodo(s, i, j);
  }

  predicate ClosesIt(it: Item, c: ConnId) {
    it == CloseFn(c) || it == ForceFn(c) || it == Calling(c, CallForceClose)
  }

  lemma QuietHeld(s: Sys, i: LoopId)
    requires Inv(s) && RunEnabled(s, i, QUIET)
    ensures Exec(s, i, QUIET).held == s.held
  {
    if s.loops[i].now[0].Stopping? {
      var rest := s.loops[i].now[0].rest;
      assert rest != [] ==> rest[0] in rest;
    }
  }

  lemma QuietCloses(s: Sys, i: LoopId, c: ConnId, j: LoopId, it: Item)
    requires Inv(s) && RunEnabled(s, i, QUIET) && j < |s.loops|
    requires it in Todo(Exec(s, i, QUIET), j) && ClosesIt(it, c)
    ensures it in Todo(s, j)
  {
    var p := PlanOf(s, i, QUIET);
    PlanIsExec(s, i, QUIET);
    AdvanceOrigin(s, Exec(s, i, QUIET), i, p.front, p.l, p.back, j, it);
    if it in p.front || it in p.back {
      PlanItems(s, i, QUIET, it);
      QuietPlan(s, i, c);
    }
  }

  lemma QuietPlan(s: Sys, i: LoopId, c: ConnId)
    requires Inv(s) && RunEnabled(s, i, QUIET)
    ensures CloseFn(c) !in PlanOf(s, i, QUIET).front && CloseFn(c) !in PlanOf(s, i, QUIET).back
  {
    match s.loops[i].now[0]
    case Chan(_) => FiredInOrder(QUIET.revents, {OnError, OnClose, OnRead, OnWrite});
    case Stopping(rest, _) => assert rest != [] ==> rest[0] in rest;
    case _ =>
  }

  /** From every reachable state in which no channel of a destroyed connection waits, the loops
      can get back to poll with nothing left to do, without any event from outside; then every
      connection that was closed has been destroyed. */
  lemma LoopsRunDry(s: Sys)
    requires Reachable(s) && Fresh(s)
    ensures exists es, t :: Leads(s, es, t) && AllInternal(es) && Idle(t)
                            && forall c :: 0 <= c < |s.conns| && s.conns[c].state == Disconnected ==> Down(c) in t.log
  {
    var es, t := RunDry(s, Load(s));
    forall c | 0 <= c < |s.conns| && s.conns[c].state == Disconnected ensures Down(c) in t.log {
      QuiescentIsClean(t, c);
    }
  }

  // ----- what a send that comes too late can do -----

  lemma {:induction false} LeadsOn(s: Sys, es: seq<Event>, t: Sys, more: seq<Event>, u: Sys)
    requires Leads(s, es, t) && Leads(t, more, u)
    ensures Leads(s, es + more, u)
    decreases |es|
  {
    if es == [] {
      assert [] + more == more;
    } else {
      assert (es + more)[1..] == es[1..] + more;
      LeadsOn(Next(s, es[0]), es[1..], t, more, u);
    }
  }

  lemma {:induction false} HomeRunLeads(s: Sys, es: seq<Event>, t: Sys)
    requires HomeRun(s, es, t)
    ensures Leads(s, es, t)
    decreases |es|
  {
    if es != [] {
      HomeRunLeads(Next(s, es[0]), es[1..], t);
    }
  }

  /** A queued send of a nonempty message that runs after its connection closed is enough: if
      the application still holds the connection and no other close of it is on its way, the
      system can get from there to the dispatch of the freed channel. */
  lemma LateSendCanDangle(s: Sys, i: LoopId)
    requires Reachable(s) && Fresh(s) && i < |s.loops| && s.loops[i].now != [] && s.loops[i].now[0].SendFn?
    requires var SendFn(c, msg) := s.loops[i].now[0];
             && msg != [] && c in s.held && c < |s.conns| && s.conns[c].state == Disconnected
             && forall j, it :: 0 <= j < |s.loops| && it in Todo(s, j) ==> !ClosesIt(it, c)
    ensures exists es, u, l :: Leads(s, es, u) && 0 <= l < |u.loops| && ConnDangling(u, l)
  {
    var c, e := s.loops[i].now[0].c, Run(i, QUIET);
    LateSendArms(s, i);
    var armed := Next(s, e);
    var es, u, l := LateDangles(armed, c);
    LeadsCons(s, e, armed, es, u);
  }

  lemma LateDangles(s: Sys, c: ConnId) returns (es: seq<Event>, u: Sys, l: LoopId)
    requires Reachable(s) && Fresh(s) && Late(s, c)
    ensures Leads(s, es, u) && l < |u.loops| && ConnDangling(u, l)
  {
    var dry, t := RunDry(s, Load(s));
    var more;
    more, u, l := LooseDangles(t, c);
    HomeRunLeads(t, more, u);
    LeadsOn(s, dry, t, more, u);
    es := dry + more;
  }

  lemma LateSendArms(s: Sys, i: LoopId)
    requires Reachable(s) && Fresh(s) && i < |s.loops| && s.loops[i].now != [] && s.loops[i].now[0].SendFn?
    requires var SendFn(c, msg) := s.loops[i].now[0];
             && msg != [] && c in s.held && c < |s.conns| && s.conns[c].state == Disconnected
             && forall j, it :: 0 <= j < |s.loops| && it in Todo(s, j) ==> !ClosesIt(it, c)
    ensures Enabled(s, Run(i, QUIET))
    ensures var armed := Next(s, Run(i, QUIET));
            Reachable(armed) && Fresh(armed) && Late(armed, s.loops[i].now[0].c)
  {
    InvReachable(s);
    var c, e := s.loops[i].now[0].c, Run(i, QUIET);
    TickKeeps(s, i);
    forall j, it | 0 <= j < |s.loops| && it in Todo(Next(s, e), j) ensures !ClosesIt(it, c) {
      if ClosesIt(it, c) { QuietCloses(s, i, c, j, it); }
    }
  }
}
