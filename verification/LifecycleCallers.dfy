/** What callers must do so that no freed connection or channel is ever used: make every send
    on the thread of the connection's own loop, and not call stop() under the acceptor. */
module LifecycleCallers {
  import opened Bytes
  import opened Connection
  import opened Pollers
  import opened Lifecycle
  import opened LifecycleInvariant
  import opened LifecycleSteps
  import opened LifecyclePlaces
  import opened LifecycleStreams
  import Stream = OutputStream
  import opened LifecycleTheorems
  import opened LifecycleProgress

  /** A send from a thread other than the connection's loop. */
  predicate OffLoopSend(s: Sys, e: Event) {
    match e
    case UserOnLoop(i, Use(d, CallSend(_))) => d < |s.home| && s.home[d] != i
    case UserElsewhere(Use(_, CallSend(_))) => true
    case _ => false
  }

  /** A run from `s` to `t` in which every send is made on its connection's loop. */
  ghost predicate HomeRun(s: Sys, es: seq<Event>, t: Sys)
    decreases |es|
  {
    if es == [] then s == t
    else Enabled(s, es[0]) && !OffLoopSend(s, es[0]) && HomeRun(Next(s, es[0]), es[1..], t)
  }

  /** Closed, and still registered with some interest. */
  predicate Loose(c: Conn) {
    c.state == Disconnected && (c.reading || c.writing)
  }

  predicate NoSends(q: seq<Item>) {
    forall it <- q :: !SendsNow(it)
  }

  /** A sendInLoop that waits is the very next thing its loop does, and the connection is not
      closed before that. */
  ghost predicate SendsAt(s: Sys, j: LoopId)
    requires j < |s.loops|
  {
    var q := Todo(s, j);
    q != [] ==>
      && NoSends(q[1..])
      && (SendsNow(q[0]) ==> s.loops[j].now != [] && (q[0].c < |s.conns| ==> s.conns[q[0].c].state != Disconnected))
  }

  ghost predicate SendsHere(s: Sys) {
    forall j :: 0 <= j < |s.loops| ==> SendsAt(s, j)
  }

  /** Only the connections in `among` can still be polled after their connectDestroyed. */
  ghost predicate Confined(s: Sys, among: set<ConnId>) {
    && SendsHere(s)
    && (forall c :: 0 <= c < |s.conns| && Loose(s.conns[c]) && Alive(s, c) ==> c in among)
    && (forall j, it :: 0 <= j < |s.loops| && it in Todo(s, j) && it.Chan? && Down(it.c) in s.log ==> it.c in among)
  }

  // ----- the sends -----

  /** A list that only loses its first item and gets no send behind the new first one. */
  lemma SendsAfterAdvance(s: Sys, s': Sys, i: LoopId, front: seq<Item>, l: LoopId, back: seq<Item>, j: LoopId)
    requires i < |s.loops| && l < |s.loops| && j < |s.loops| && s.loops[i].now != []
    requires s'.loops == Advance(s.loops, i, front, l, back) && SendsAt(s, j) && NoSends(back)
    requires front != [] ==> NoSends(front[1..])
    requires j == i && front != [] && SendsNow(front[0]) && front[0].c < |s'.conns| ==> s'.conns[front[0].c].state != Disconnected
    requires j != i ==> forall it <- Todo(s, j) :: SendsNow(it) && it.c < |s'.conns| ==> s'.conns[it.c].state != Disconnected
    ensures SendsAt(s', j)
  {
    AdvanceTodo(s.loops, i, front, l, back, j);
    var q, tail := Todo(s, j), if j == l then back else [];
    if j == i {
      var after := front + q[1..] + tail;
      assert q[0] == s.loops[i].now[0] && Todo(s', j) == after;
      if front == [] {
        assert after == q[1..] + tail;
      } else {
        assert after[0] == front[0] && after[1..] == front[1..] + q[1..] + tail;
      }
    } else if q == [] {
      assert Todo(s', j) == tail;
    } else {
      assert Todo(s', j)[1..] == q[1..] + tail;
    }
  }

  lemma RunSends(s: Sys, i: LoopId, ch: Choice)
    requires Inv(s) && SendsHere(s) && RunEnabled(s, i, ch)
    ensures SendsHere(Exec(s, i, ch))
  {
    var s', p := Exec(s, i, ch), PlanOf(s, i, ch);
    PlanIsExec(s, i, ch);
    forall it | it in p.front || it in p.back ensures !SendsNow(it) {
      PlanItems(s, i, ch, it);
    }
    forall j | 0 <= j < |s'.loops| ensures SendsAt(s', j) {
      assert SendsAt(s, j);
      forall it | it in Todo(s, j) && SendsNow(it) && it.c < |s'.conns| && j != i ensures s'.conns[it.c].state != Disconnected {
        OtherLoopSpares(s, i, ch, j, it);
      }
      SendsAfterAdvance(s, s', i, p.front, p.l, p.back, j);
    }
  }

  /** Another loop's step does not close a connection that a send of loop `j` is about to use. */
  lemma OtherLoopSpares(s: Sys, i: LoopId, ch: Choice, j: LoopId, it: Item)
    requires Inv(s) && RunEnabled(s, i, ch) && j < |s.loops| && j != i
    requires it in Todo(s, j) && SendsNow(it) && SendsAt(s, j)
    ensures it.c < |Exec(s, i, ch).conns| && Exec(s, i, ch).conns[it.c].state != Disconnected
  {
    HeadOk(s, i);
    assert LoopInv(s, j);
    assert Todo(s, j) == [Todo(s, j)[0]] + Todo(s, j)[1..];
    assert ItemOk(s, j, Todo(s, j)[0]);
    RunEffect(s, i, ch, it.c);
  }

  lemma UserSends(s: Sys, onto: int, act: Act)
    requires Inv(s) && Formed(s) && SendsHere(s)
    requires 0 <= onto ==> Enabled(s, UserOnLoop(onto, act)) && !OffLoopSend(s, UserOnLoop(onto, act))
    requires onto < 0 ==> Enabled(s, UserElsewhere(act)) && !OffLoopSend(s, UserElsewhere(act))
    ensures SendsHere(User(s, onto, act))
  {
    var s' := User(s, onto, act);
    forall j | 0 <= j < |s'.loops| ensures SendsAt(s', j) {
      assert SendsAt(s, j);
      if act.Use? && Passes(s.conns[act.d], act.call) && s.home[act.d] == onto {
        InlineSends(s, onto, act, j);
      } else if act.Use? && act.call.CallSend? {
      } else if act.Stop? && onto == 0 {
        SendsAfterAdvance(s, s', 0, [StopFn, s.loops[0].now[0]], 0, [], j);
      } else {
        QueuedSends(s, onto, act, j);
      }
    }
  }

  /** A call that only queues, or only counts references. */
  lemma QueuedSends(s: Sys, onto: int, act: Act, j: LoopId)
    requires Formed(s) && j < |s.loops| && SendsAt(s, j)
    requires 0 <= onto ==> onto < |s.loops| && s.loops[onto].now != []
    requires match act
             case Use(d, call) => d < |s.conns| && !call.CallSend? && !(Passes(s.conns[d], call) && s.home[d] == onto)
             case Post(l) => l < |s.loops|
             case Stop => onto != 0
             case _ => act.d < |s.conns|
    ensures SendsAt(User(s, onto, act), j)
  {
    var s' := User(s, onto, act);
    match act
    case Use(d, call) =>
      if Passes(s.conns[d], call) { QueueSends(s, s', s.home[d], Functor(d, call), j); }
    case Post(l) => QueueSends(s, s', l, Posted, j);
    case Stop => QueueSends(s, s', 0, StopFn, j);
    case _ => assert Todo(s', j) == Todo(s, j);
  }

  lemma QueueSends(s: Sys, s': Sys, l: LoopId, it: Item, j: LoopId)
    requires l < |s.loops| && j < |s.loops| && s'.loops == Queue(s.loops, l, [it]) && SendsAt(s, j) && !SendsNow(it)
    requires |s'.conns| == |s.conns|
    requires forall c :: 0 <= c < |s.conns| && s'.conns[c].state == Disconnected ==> s.conns[c].state == Disconnected
    ensures SendsAt(s', j)
  {
    var tail := if j == l then [it] else [];
    assert Todo(s', j) == Todo(s, j) + tail;
    SendsAfterQueue(s, s', j, tail);
  }

  lemma InlineSends(s: Sys, onto: LoopId, act: Act, j: LoopId)
    requires Enabled(s, UserOnLoop(onto, act)) && j < |s.loops| && SendsAt(s, j)
    requires act.Use? && Passes(s.conns[act.d], act.call) && s.home[act.d] == onto
    ensures SendsAt(User(s, onto, act), j)
  {
    var front := [Calling(act.d, act.call), Guard(act.d), s.loops[onto].now[0]];
    assert front[1..] == [Guard(act.d), s.loops[onto].now[0]];
    forall it | it in Todo(s, j) && SendsNow(it) ensures it == Todo(s, j)[0] {
      assert Todo(s, j) == [Todo(s, j)[0]] + Todo(s, j)[1..];
    }
    SendsAfterAdvance(s, User(s, onto, act), onto, front, onto, [], j);
  }

  lemma SendsAfterQueue(s: Sys, s': Sys, j: LoopId, back: seq<Item>)
    requires j < |s.loops| && |s'.loops| == |s.loops| && SendsAt(s, j)
    requires Todo(s', j) == Todo(s, j) || (Todo(s', j) == Todo(s, j) + back && NoSends(back))
    requires s.loops[j].now != [] ==> s'.loops[j].now != []
    requires |s'.conns| == |s.conns|
    requires forall c :: 0 <= c < |s.conns| && s'.conns[c].state == Disconnected ==> s.conns[c].state == Disconnected
    ensures SendsAt(s', j)
  {
    var q := Todo(s, j);
    if q != [] {
      assert (q + back)[1..] == q[1..] + back;
    } else {
      assert q + back == back;
    }
  }

  lemma StepSends(s: Sys, e: Event)
    requires Inv(s) && SendsHere(s) && Enabled(s, e) && !OffLoopSend(s, e)
    ensures SendsHere(Next(s, e))
  {
    var s' := Next(s, e);
    match e
    case Run(i, ch) => RunSends(s, i, ch);
    case UserOnLoop(i, act) => UserSends(s, i, act);
    case UserElsewhere(act) => UserSends(s, -1, act);
    case Poll(i, active) =>
      forall j | 0 <= j < |s'.loops| ensures SendsAt(s', j) {
        PollSends(s, i, active, j);
      }
    case Swap(i) =>
      forall j | 0 <= j < |s'.loops| ensures SendsAt(s', j) {
        assert SendsAt(s, j);
        SwapTodo(s, i, j);
        SendsAfterQueue(s, s', j, [BatchEnd(BatchRefs(s.loops[i].pending))]);
      }
  }

  lemma PollSends(s: Sys, i: LoopId, active: seq<Item>, j: LoopId)
    requires Enabled(s, Poll(i, active)) && SendsHere(s) && j < |s.loops|
    ensures SendsAt(Next(s, Poll(i, active)), j)
  {
    assert SendsAt(s, j);
    PollTodo(s, i, active, j);
    PolledSendsNot(s, i, active);
    if j == i && active != [] {
      assert (active + Todo(s, j))[1..] == active[1..] + Todo(s, j);
    }
  }

  lemma PolledSendsNot(s: Sys, i: LoopId, active: seq<Item>)
    requires Enabled(s, Poll(i, active))
    ensures NoSends(active)
  {
    forall k | 0 <= k < |active| ensures !SendsNow(active[k]) {
      assert Polled(s, i, active[k]);
    }
  }

  // ----- the connections and the channels -----

  /** Only a late send switches interest on. */
  lemma EffectTightens(conn: Conn, effect: Option<Stream.Event>, conn': Conn)
    requires Follows(conn, effect, conn') && Loose(conn')
    ensures Loose(conn) || (effect.Some? && (effect.value.QueuedSend? || effect.value.Sent?) && conn.state == Disconnected)
  {
  }

  /** No step leaves a connection closed with interest unless it was so before. */
  lemma StepTightens(s: Sys, e: Event, c: ConnId)
    requires Inv(s) && SendsHere(s) && Enabled(s, e) && c < |s.conns|
    ensures c < |Next(s, e).conns| && (Loose(Next(s, e).conns[c]) ==> Loose(s.conns[c]))
  {
    StepEffect(s, e, c);
    if Loose(Next(s, e).conns[c]) {
      EffectTightens(s.conns[c], Effect(s, e, c), Next(s, e).conns[c]);
      if e.Run? {
        assert s.loops[e.i].now[0] == Todo(s, e.i)[0] && SendsAt(s, e.i);
      }
    }
  }

  lemma StepRearms(s: Sys, e: Event)
    requires Inv(s) && SendsHere(s) && Enabled(s, e)
    ensures Next(s, e).rearmed == s.rearmed
  {
    if e.Run? && SendsNow(s.loops[e.i].now[0]) {
      assert s.loops[e.i].now[0] == Todo(s, e.i)[0] && SendsAt(s, e.i);
    }
  }

  /** A channel in a list was there before, or was polled just now. */
  lemma StepChannels(s: Sys, e: Event, j: LoopId, it: Item)
    requires Inv(s) && Enabled(s, e)
    requires j < |Next(s, e).loops| && it in Todo(Next(s, e), j) && it.Chan? && Down(it.c) in Next(s, e).log
    ensures j < |s.loops| && Down(it.c) in s.log
    ensures it in Todo(s, j) || (e.Poll? && it in e.active && it.c < |s.conns| && Loose(s.conns[it.c]) && Alive(s, it.c))
  {
    if e.Poll? {
      PollChannels(s, e.i, e.active, j, it);
    } else {
      OtherChannels(s, e, j, it);
    }
  }

  lemma OtherChannels(s: Sys, e: Event, j: LoopId, it: Item)
    requires Inv(s) && Enabled(s, e) && !e.Poll?
    requires j < |Next(s, e).loops| && it in Todo(Next(s, e), j) && it.Chan? && Down(it.c) in Next(s, e).log
    ensures j < |s.loops| && Down(it.c) in s.log && it in Todo(s, j)
  {
    match e
    case Run(i, ch) => RunChannels(s, i, ch, j, it);
    case Swap(i) => SwapChannels(s, i, j, it);
    case UserOnLoop(i, act) => UserChannels(s, i, act, j, it);
    case UserElsewhere(act) => UserChannels(s, -1, act, j, it);
  }

  lemma SwapChannels(s: Sys, i: LoopId, j: LoopId, it: Item)
    requires Enabled(s, Swap(i)) && j < |s.loops| && it in Todo(Next(s, Swap(i)), j) && it.Chan?
    ensures it in Todo(s, j)
  {
    SwapTodo(s, i, j);
  }

  lemma PollChannels(s: Sys, i: LoopId, active: seq<Item>, j: LoopId, it: Item)
    requires Inv(s) && Enabled(s, Poll(i, active))
    requires j < |s.loops| && it in Todo(Next(s, Poll(i, active)), j) && it.Chan? && Down(it.c) in s.log
    ensures it in Todo(s, j) || (it in active && it.c < |s.conns| && Loose(s.conns[it.c]) && Alive(s, it.c))
  {
    PollTodo(s, i, active, j);
    if it !in Todo(s, j) {
      var k :| 0 <= k < |active| && active[k] == it;
      assert Polled(s, i, active[k]);
      DownIsClosed(s, it.c);
    }
  }

  lemma RunChannels(s: Sys, i: LoopId, ch: Choice, j: LoopId, it: Item)
    requires Inv(s) && RunEnabled(s, i, ch)
    requires j < |s.loops| && it in Todo(Exec(s, i, ch), j) && it.Chan?
    ensures it in Todo(s, j) && (Down(it.c) in Exec(s, i, ch).log ==> Down(it.c) in s.log)
  {
    var p := PlanOf(s, i, ch);
    PlanIsExec(s, i, ch);
    AdvanceOrigin(s, Exec(s, i, ch), i, p.front, p.l, p.back, j, it);
    if it in p.front || it in p.back {
      PlanItems(s, i, ch, it);
    } else {
      RunLog(s, i, ch, j, it);
    }
  }

  lemma RunLog(s: Sys, i: LoopId, ch: Choice, j: LoopId, it: Item)
    requires Inv(s) && RunEnabled(s, i, ch) && j < |s.loops| && it.Chan? && it in Todo(s, j)
    ensures Down(it.c) in Exec(s, i, ch).log ==> Down(it.c) in s.log
  {
    HeadOk(s, i);
    if s.loops[i].now[0].DestroyFn? {
      DestroyFinds(s, i);
      NoChannels(s, i, j, s.loops[i].now[0].c);
    }
  }

  lemma DownIsClosed(s: Sys, c: ConnId)
    requires Inv(s) && c < |s.conns| && Down(c) in s.log
    ensures s.conns[c].state == Disconnected && c !in s.entries
  {
    assert ConnInv(s, c);
    MarksIn(s.log, Down(c));
  }

  lemma UserChannels(s: Sys, onto: int, act: Act, j: LoopId, it: Item)
    requires Inv(s) && Formed(s) && it.Chan?
    requires 0 <= onto ==> Enabled(s, UserOnLoop(onto, act))
    requires onto < 0 ==> Enabled(s, UserElsewhere(act))
    requires j < |User(s, onto, act).loops| && it in Todo(User(s, onto, act), j)
    ensures it in Todo(s, j)
  {
    var s' := User(s, onto, act);
    if act.Use? && Passes(s.conns[act.d], act.call) && s.home[act.d] == onto {
      AdvanceOrigin(s, s', onto, [Calling(act.d, act.call), Guard(act.d), s.loops[onto].now[0]], onto, [], j, it);
    } else if act.Stop? && onto == 0 {
      AdvanceOrigin(s, s', 0, [StopFn, s.loops[0].now[0]], 0, [], j, it);
    } else {
      var back := match act case Use(d, call) => [Functor(d, call)] case Post(_) => [Posted] case Stop => [StopFn] case _ => [];
      assert Todo(s', j) == Todo(s, j) || Todo(s', j) == Todo(s, j) + back;
    }
  }

  lemma StepConfined(s: Sys, e: Event, among: set<ConnId>)
    requires Reachable(s) && Confined(s, among) && Enabled(s, e) && !OffLoopSend(s, e)
    ensures Confined(Next(s, e), among) && Next(s, e).rearmed == s.rearmed
  {
    InvReachable(s);
    var s' := Next(s, e);
    StepSends(s, e);
    StepRearms(s, e);
    forall c | 0 <= c < |s'.conns| && Loose(s'.conns[c]) && Alive(s', c) ensures c in among {
      if c >= |s.conns| {
        StepCreates(s, e);
      } else {
        StepTightens(s, e, c);
        assert Loose(s.conns[c]);
        if !Alive(s, c) {
          NoResurrection(s, e, c);
        }
      }
    }
    forall j, it | 0 <= j < |s'.loops| && it in Todo(s', j) && it.Chan? && Down(it.c) in s'.log ensures it.c in among {
      StepChannels(s, e, j, it);
    }
  }

  lemma {:induction false} RunConfined(s: Sys, es: seq<Event>, t: Sys, among: set<ConnId>)
    requires Reachable(s) && Confined(s, among) && HomeRun(s, es, t)
    ensures Reachable(t) && Confined(t, among) && t.rearmed == s.rearmed
    decreases |es|
  {
    if es != [] {
      StepConfined(s, es[0], among);
      ReachableThen(s, es[0]);
      RunConfined(Next(s, es[0]), es[1..], t, among);
    }
  }

  // ----- the theorems -----

  /** If every send is made on the thread of the connection's loop, no loop ever uses a freed
      connection or its channel, whatever else the application and the kernel do. */
  lemma OnLoopSendsNeverDangle(s: Sys, es: seq<Event>, t: Sys, i: LoopId)
    requires Initial(s) && HomeRun(s, es, t) && i < |t.loops|
    ensures t.rearmed == {} && !ConnDangling(t, i)
  {
    assert Leads(s, [], s);
    RunConfined(s, es, t, {});
    NeverDangling(t, i);
  }

  /** Every loop is back at poll with nothing left to do. */
  ghost predicate Idle(t: Sys) {
    forall j :: 0 <= j < |t.loops| ==> t.loops[j] == Loop(false, [], [])
  }

  /** Some run with sends on their loops only leads to the dispatch of a freed channel. */
  ghost predicate CanDangle(t: Sys) {
    exists es, u, i :: HomeRun(t, es, u) && 0 <= i < |u.loops| && ConnDangling(u, i)
  }

  /** The application holds a connection that is closed and still has interest on. */
  ghost predicate Spoilt(t: Sys) {
    exists c :: c in t.held && c < |t.conns| && Loose(t.conns[c])
  }

  /** Exactly when an idle system has been spoilt by earlier sends: whether a freed channel can
      still be dispatched, with sends on their loops only from now on, shows in the connections
      the application holds. */
  lemma IdleDanglesIff(t: Sys)
    requires Reachable(t) && Idle(t)
    ensures CanDangle(t) <==> Spoilt(t)
  {
    if Spoilt(t) {
      var c :| c in t.held && c < |t.conns| && Loose(t.conns[c]);
      var es, u, i := LooseDangles(t, c);
    } else {
      IdleConfined(t);
      forall es, u, i | HomeRun(t, es, u) && 0 <= i < |u.loops| ensures !ConnDangling(u, i) {
        RunConfined(t, es, u, {});
        ConfinedIsSafe(u, i);
      }
    }
  }

  lemma IdleConfined(t: Sys)
    requires Reachable(t) && Idle(t)
    requires !Spoilt(t)
    ensures Confined(t, {})
  {
    forall c | 0 <= c < |t.conns| && Loose(t.conns[c]) ensures !Alive(t, c) {
      QuiescentIsClean(t, c);
    }
  }

  lemma ConfinedIsSafe(u: Sys, i: LoopId)
    requires Reachable(u) && Confined(u, {}) && i < |u.loops|
    ensures !ConnDangling(u, i)
  {
    if u.loops[i].now != [] && Raw(u.loops[i].now[0]) {
      assert u.loops[i].now[0] == Todo(u, i)[0];
      RawItemsAlive(u, i, 0);
    }
  }

  /** The run: poll reports the channel, the application lets go, the dispatch dangles. */
  lemma LooseDangles(t: Sys, c: ConnId) returns (es: seq<Event>, u: Sys, i: LoopId)
    requires Reachable(t) && Idle(t) && c in t.held && c < |t.conns| && Loose(t.conns[c])
    ensures HomeRun(t, es, u) && i < |u.loops| && ConnDangling(u, i)
  {
    InvReachable(t);
    InvFormed(t);
    i := t.home[c];
    assert Polled(t, i, [Chan(c)][0]);
    var polled := Next(t, Poll(i, [Chan(c)]));
    QuiescentIsClean(t, c);
    PolledChannelDanglesIff(t, i, c);
    ReachableThen(t, Poll(i, [Chan(c)]));
    es, u := DropPath(polled, c);
    es := [Poll(i, [Chan(c)])] + es;
  }

  lemma {:induction false} DropPath(t: Sys, c: ConnId) returns (es: seq<Event>, u: Sys)
    requires Reachable(t)
    ensures HomeRun(t, es, u) && u == t.(held := t.held[c := 0])
    decreases t.held[c]
  {
    InvReachable(t);
    InvFormed(t);
    if c in t.held {
      var e := UserElsewhere(Drop(c));
      ReachableThen(t, e);
      var rest;
      rest, u := DropPath(Next(t, e), c);
      es := [e] + rest;
      assert Next(t, e).held[c := 0] == t.held[c := 0];
    } else {
      es, u := [], t;
      assert t.held[c := 0] == t.held;
    }
  }

  /** Where the trouble starts, exactly: a queued send that is next to run can leave its
      connection closed with interest on if and only if the connection was closed before the
      send ran, and the message is not empty or the interest was on already. */
  lemma LateSendArmsIff(t: Sys, i: LoopId)
    requires Reachable(t) && i < |t.loops| && t.loops[i].now != [] && t.loops[i].now[0].SendFn?
    ensures var SendFn(c, msg) := t.loops[i].now[0];
            c < |t.conns|
            && ((exists ch :: RunEnabled(t, i, ch) && Loose(Exec(t, i, ch).conns[c]))
                  <==> t.conns[c].state == Disconnected && (msg != [] || Loose(t.conns[c])))
  {
    InvReachable(t);
    InvFormed(t);
    HeadOk(t, i);
    var SendFn(c, msg) := t.loops[i].now[0];
    assert t.loops[i].now[0] == Todo(t, i)[0];
    RawItemsAlive(t, i, 0);
    assert RunEnabled(t, i, QUIET);
    var after := Exec(t, i, QUIET).conns[c];
  }

  // ----- the kernel's part -----

  /** A run in which poll reports a connection's channel only if kqueue watches it, given that
      the kernel stops at the first failing change of updateChannel. */
  ghost predicate StrictRun(s: Sys, es: seq<Event>, t: Sys)
    decreases |es|
  {
    if es == [] then s == t
    else Enabled(s, es[0]) && Watched(s, es[0]) && StrictRun(Next(s, es[0]), es[1..], t)
  }

  predicate Watched(s: Sys, e: Event) {
    e.Poll? ==> forall it <- e.active :: it.Chan? && it.c < |s.conns| ==> s.conns[it.c].filters != NO_FILTERS
  }

  /** No channel of a destroyed connection is waiting to be dispatched. */
  ghost predicate NoneStale(s: Sys) {
    forall j, it :: 0 <= j < |s.loops| && it in Todo(s, j) && it.Chan? ==> Down(it.c) !in s.log
  }

  lemma StepStale(s: Sys, e: Event)
    requires Reachable(s) && NoneStale(s) && Enabled(s, e) && Watched(s, e)
    ensures NoneStale(Next(s, e))
  {
    InvReachable(s);
    var s' := Next(s, e);
    forall j, it | 0 <= j < |s'.loops| && it in Todo(s', j) && it.Chan? ensures Down(it.c) !in s'.log {
      if Down(it.c) in s'.log {
        StepChannels(s, e, j, it);
        if e.Poll? && it in e.active {
          PolledIsUp(s, e, it.c);
        }
      }
    }
  }

  /** A watched channel's connection is not closed, so not destroyed either. */
  lemma PolledIsUp(s: Sys, e: Event, c: ConnId)
    requires Reachable(s) && Watched(s, e) && e.Poll? && Chan(c) in e.active && c < |s.conns|
    ensures Down(c) !in s.log
  {
    InvReachable(s);
    ConnectionsWatched(s, c);
    assert s.conns[Chan(c).c].filters != NO_FILTERS;
    assert ConnInv(s, c);
    MarksIn(s.log, Down(c));
  }

  lemma {:induction false} StrictRunIsFresh(s: Sys, es: seq<Event>, t: Sys)
    requires Reachable(s) && NoneStale(s) && StrictRun(s, es, t)
    ensures Reachable(t) && NoneStale(t)
    decreases |es|
  {
    if es != [] {
      StepStale(s, es[0]);
      ReachableThen(s, es[0]);
      StrictRunIsFresh(Next(s, es[0]), es[1..], t);
    }
  }

  /** If the kernel stops at the first failing change, a closed connection is never polled
      again, and no loop ever uses a freed connection or its channel, whatever the callers do. */
  lemma StrictKernelNeverDangles(s: Sys, es: seq<Event>, t: Sys, i: LoopId)
    requires Initial(s) && StrictRun(s, es, t) && i < |t.loops|
    ensures !ConnDangling(t, i)
  {
    assert Leads(s, [], s);
    StrictRunIsFresh(s, es, t);
    if t.loops[i].now != [] && Raw(t.loops[i].now[0]) {
      assert t.loops[i].now[0] == Todo(t, i)[0];
      RawItemsAlive(t, i, 0);
    }
  }
}
