/** What shutdown(), forceClose() and stop() bring about, in whole runs. */
module LifecycleEnding {
  import opened Bytes
  import opened Connection
  import opened Lifecycle
  import opened LifecycleInvariant
  import opened LifecycleSteps
  import opened LifecycleStreams
  import opened LifecycleTheorems
  import opened LifecycleProgress
  import opened LifecycleCallers
  import opened LifecycleDrain
  import opened LifecycleAcceptor
  import opened LifecycleReads
  import Stream = OutputStream

  /** An item stays in its list until it is the one executed. */
  lemma StaysInTodo(s: Sys, e: Event, j: LoopId, it: Item)
    requires Inv(s) && Enabled(s, e) && j < |s.loops| && it in Todo(s, j)
    requires !(e.Run? && e.i == j && s.loops[j].now[0] == it)
    ensures j < |Next(s, e).loops| && it in Todo(Next(s, e), j)
  {
    match e
    case Run(i, ch) => RunStays(s, i, ch, j, it);
    case UserOnLoop(i, act) => if it in s.loops[j].now { StaysInNow(s, e, j, it); }
    case Poll(i, active) => PollTodo(s, i, active, j);
    case Swap(i) => SwapTodo(s, i, j);
    case _ =>
  }

  lemma RunStays(s: Sys, i: LoopId, ch: Choice, j: LoopId, it: Item)
    requires Inv(s) && RunEnabled(s, i, ch) && j < |s.loops| && it in Todo(s, j)
    requires !(i == j && s.loops[j].now[0] == it)
    ensures j < |Exec(s, i, ch).loops| && it in Todo(Exec(s, i, ch), j)
  {
    var p := PlanOf(s, i, ch);
    PlanIsExec(s, i, ch);
    if it == s.loops[i].now[0] {
      AdvanceTodo(s.loops, i, p.front, p.l, p.back, j);
    } else {
      StaysQueued(s, Exec(s, i, ch), i, p.front, p.l, p.back, j, it);
    }
  }

  // ----- forceClose -----

  /** Closed, or with a close waiting on its loop. */
  ghost predicate Doomed(s: Sys, c: ConnId) {
    && c < |s.conns| && c < |s.home| && s.home[c] < |s.loops|
    && (s.conns[c].state == Disconnected || exists it <- Todo(s, s.home[c]) :: ClosesIt(it, c))
  }

  lemma DoomedKept(s: Sys, e: Event, c: ConnId)
    requires Reachable(s) && Enabled(s, e) && Doomed(s, c)
    ensures Doomed(Next(s, e), c)
  {
    InvReachable(s);
    StateMovesForward(s, e, c);
    SameLoops(s, e);
    if s.conns[c].state != Disconnected {
      var it :| it in Todo(s, s.home[c]) && ClosesIt(it, c);
      if e.Run? && e.i == s.home[c] && s.loops[e.i].now[0] == it {
        CloseRuns(s, e.i, e.choice, c);
      } else {
        StaysInTodo(s, e, s.home[c], it);
      }
    }
  }

  lemma {:induction false} DoomedCloses(s: Sys, es: seq<Event>, t: Sys, c: ConnId)
    requires Reachable(s) && Doomed(s, c) && Leads(s, es, t)
    ensures Reachable(t) && Doomed(t, c) && t.home[c] == s.home[c]
    decreases |es|
  {
    if es != [] {
      StateMovesForward(s, es[0], c);
      DoomedKept(s, es[0], c);
      ReachableThen(s, es[0]);
      DoomedCloses(Next(s, es[0]), es[1..], t, c);
    }
  }

  predicate CallsOn(e: Event, c: ConnId, call: Call) {
    e == UserElsewhere(Use(c, call)) || (e.UserOnLoop? && e.act == Use(c, call))
  }

  predicate IsUp(c: Conn) {
    c.state == Connected || c.state == Disconnecting
  }

  /** What a call leaves on the connection's loop, if its check passes. */
  lemma CallLeaves(s: Sys, e: Event, c: ConnId, call: Call)
    requires Inv(s) && Enabled(s, e) && CallsOn(e, c, call) && c < |s.conns| && Passes(s.conns[c], call)
    ensures var s' := Next(s, e);
            && c < |s'.conns| && c < |s'.home| && s'.home[c] < |s'.loops| && s'.conns[c] == AfterCheck(s.conns[c], call)
            && (Functor(c, call) in Todo(s', s'.home[c]) || Calling(c, call) in Todo(s', s'.home[c]))
  {
    var s' := Next(s, e);
    if e.UserOnLoop? && e.i == s.home[c] {
      assert Calling(c, call) in s'.loops[e.i].now;
    } else {
      assert Functor(c, call) in s'.loops[s.home[c]].pending;
    }
  }

  /** forceClose() on a connection that is up, from any thread: however the run goes on, the
      connection is Disconnected when its loop has nothing left to do, and out of the map and
      destroyed when no loop has. */
  lemma ForceCloseCloses(s: Sys, e: Event, c: ConnId, es: seq<Event>, t: Sys)
    requires Reachable(s) && Enabled(s, e) && CallsOn(e, c, CallForceClose) && c < |s.conns| && IsUp(s.conns[c])
    requires Leads(Next(s, e), es, t) && c < |t.home| && t.home[c] < |t.loops| && Todo(t, t.home[c]) == []
    ensures c < |t.conns| && t.conns[c].state == Disconnected && GoneWhenIdle(t, c)
  {
    InvReachable(s);
    CallLeaves(s, e, c, CallForceClose);
    ReachableThen(s, e);
    assert ClosesIt(ForceFn(c), c) && ClosesIt(Calling(c, CallForceClose), c);
    DoomedCloses(Next(s, e), es, t, c);
    ClosedIsGone(t, c);
  }

  // ----- shutdown -----

  /** The functors and calls that take a connection on from Disconnecting. */
  predicate Finishes(it: Item, c: ConnId) {
    it == ShutdownFn(c) || it == ForceFn(c) || it == Calling(c, CallShutdown) || it == Calling(c, CallForceClose)
  }

  /** A connection that is shutting down has sent SHUT_WR, or will once its output has drained,
      or has the functor that does so waiting. */
  ghost predicate Finishing(s: Sys, c: ConnId) {
    && c < |s.conns| && c < |s.home| && s.home[c] < |s.loops|
    && (s.conns[c].state == Disconnecting ==>
          s.conns[c].fins >= 1 || s.conns[c].writing || exists it <- Todo(s, s.home[c]) :: Finishes(it, c))
  }

  ghost predicate AllFinishing(s: Sys) {
    forall c :: 0 <= c < |s.conns| ==> Finishing(s, c)
  }

  /** On values: only a call makes a connection Disconnecting, SHUT_WR is never taken back, and
      write interest goes only with SHUT_WR. */
  lemma EffectFinishes(conn: Conn, effect: Option<Stream.Event>, conn': Conn)
    requires Follows(conn, effect, conn') && conn'.state == Disconnecting && effect != Some(Stream.ShutDown)
    ensures conn.state != Disconnecting ==>
              effect.Some? && effect.value.CheckedElsewhere? && !effect.value.call.CallSend? && Passes(conn, effect.value.call)
    ensures conn.state == Disconnecting && (conn.fins >= 1 || conn.writing) ==> conn'.fins >= 1 || conn'.writing
    ensures effect == Some(Stream.QueuedShutDown) ==> conn'.fins >= 1 || conn'.writing
  {
  }

  lemma StepFinishes(s: Sys, e: Event, c: ConnId)
    requires Reachable(s) && AllFinishing(s) && Enabled(s, e) && c < |s.conns|
    ensures Finishing(Next(s, e), c)
  {
    InvReachable(s);
    StateMovesForward(s, e, c);
    SameLoops(s, e);
    StepEffect(s, e, c);
    var s' := Next(s, e);
    assert Finishing(s, c);
    if s'.conns[c].state == Disconnecting {
      EffectFinishes(s.conns[c], Effect(s, e, c), s'.conns[c]);
      if s.conns[c].state != Disconnecting {
        BeginsFinishing(s, e, c);
      } else if !(s.conns[c].fins >= 1 || s.conns[c].writing) {
        var it :| it in Todo(s, s.home[c]) && Finishes(it, c);
        if !(e.Run? && e.i == s.home[c] && s.loops[e.i].now[0] == it) {
          StaysInTodo(s, e, s.home[c], it);
        }
      }
    }
  }

  /** The step that makes the connection Disconnecting leaves a functor or call for it. */
  lemma BeginsFinishing(s: Sys, e: Event, c: ConnId)
    requires Inv(s) && Enabled(s, e) && c < |s.conns| && s.home[c] < |s.loops|
    requires Effect(s, e, c).Some? && Effect(s, e, c).value.CheckedElsewhere? && !Effect(s, e, c).value.call.CallSend?
    requires Passes(s.conns[c], Effect(s, e, c).value.call)
    ensures s.home[c] < |Next(s, e).loops| && exists it <- Todo(Next(s, e), s.home[c]) :: Finishes(it, c)
  {
    var call := Effect(s, e, c).value.call;
    assert Finishes(Functor(c, call), c) && Finishes(Calling(c, call), c);
    if e.Run? {
      StopReaches(s, e.i, e.choice, c);
    } else {
      CallLeaves(s, e, c, call);
    }
  }

  /** stop() gets to a connection that is Connected. */
  lemma StopReaches(s: Sys, i: LoopId, ch: Choice, c: ConnId)
    requires Inv(s) && RunEnabled(s, i, ch) && c < |s.conns| && s.home[c] < |s.loops|
    requires s.loops[i].now[0].Stopping? && s.loops[i].now[0].rest != [] && s.loops[i].now[0].rest[0] == c
    requires Passes(s.conns[c], CallShutdown)
    ensures s.home[c] < |Exec(s, i, ch).loops|
    ensures ShutdownFn(c) in Todo(Exec(s, i, ch), s.home[c]) || Calling(c, CallShutdown) in Todo(Exec(s, i, ch), s.home[c])
  {
    var p, rest := PlanOf(s, i, ch), s.loops[i].now[0].rest;
    assert rest[0] in rest;
    PlanIsExec(s, i, ch);
    Arrives(s, Exec(s, i, ch), i, p.front, p.l, p.back, if s.home[c] == i then Calling(c, CallShutdown) else ShutdownFn(c));
  }

  lemma {:induction false} RunFinishes(s: Sys, es: seq<Event>, t: Sys)
    requires Reachable(s) && AllFinishing(s) && Leads(s, es, t)
    ensures AllFinishing(t)
    decreases |es|
  {
    if es != [] {
      var e, s' := es[0], Next(s, es[0]);
      ReachableThen(s, e);
      InvReachable(s);
      InvReachable(s');
      forall c | 0 <= c < |s'.conns| ensures Finishing(s', c) {
        if c < |s.conns| { StepFinishes(s, e, c); } else { StepCreates(s, e); }
      }
      RunFinishes(s', es[1..], t);
    }
  }

  /** Half-closed, about to be once the rest of the output is gone, or closed. */
  predicate Finished(c: Conn) {
    c.state == Disconnected || (c.state == Disconnecting && (c.fins >= 1 || (c.output != [] && c.writing)))
  }

  /** In every run: when a connection's loop has nothing left to do, the connection has
      half-closed if it is shutting down and its output is gone. */
  lemma ShuttingDownFinishes(t: Sys, c: ConnId)
    requires Reachable(t) && c < |t.conns| && t.conns[c].state == Disconnecting
    requires c < |t.home| && t.home[c] < |t.loops| && Todo(t, t.home[c]) == []
    ensures Finished(t.conns[c])
  {
    var s, es :| Initial(s) && Leads(s, es, t);
    assert Leads(s, [], s);
    RunFinishes(s, es, t);
    ConnectionsStream(s, es, t, c);
    assert Finishing(t, c);
  }

  /** shutdown() on a Connected connection, from any thread: however the run goes on, when its
      loop has nothing left to do SHUT_WR is out, or output still waits, or it is closed. */
  lemma ShutdownFinishes(s: Sys, e: Event, c: ConnId, es: seq<Event>, t: Sys)
    requires Reachable(s) && Enabled(s, e) && CallsOn(e, c, CallShutdown) && c < |s.conns| && s.conns[c].state == Connected
    requires Leads(Next(s, e), es, t) && c < |t.home| && t.home[c] < |t.loops| && Todo(t, t.home[c]) == []
    ensures c < |t.conns| && Finished(t.conns[c])
  {
    InvReachable(s);
    CallLeaves(s, e, c, CallShutdown);
    ReachableThen(s, e);
    LeadsForward(Next(s, e), es, t, c);
    if t.conns[c].state == Disconnecting {
      ShuttingDownFinishes(t, c);
    }
  }

  // ----- stop -----

  /** No longer Connected, or about to be reached by stop()'s loop over the connections. */
  ghost predicate Stopped(s: Sys, c: ConnId) {
    && c < |s.conns| && s.loops != [] && s.conns[c].state != Connecting
    && (s.conns[c].state != Connected || exists it <- s.loops[0].now :: it.Stopping? && c in it.rest)
  }

  lemma StoppedKept(s: Sys, e: Event, c: ConnId)
    requires Reachable(s) && Enabled(s, e) && Stopped(s, c)
    ensures Stopped(Next(s, e), c)
  {
    InvReachable(s);
    StateMovesForward(s, e, c);
    SameLoops(s, e);
    if s.conns[c].state == Connected {
      var it :| it in s.loops[0].now && it.Stopping? && c in it.rest;
      if e.Run? && e.i == 0 && s.loops[0].now[0] == it {
        StoppingGoesOn(s, e.choice, c);
      } else {
        StaysInNow(s, e, 0, it);
      }
    }
  }

  lemma StoppingGoesOn(s: Sys, ch: Choice, c: ConnId)
    requires Inv(s) && RunEnabled(s, 0, ch) && s.loops[0].now[0].Stopping? && c in s.loops[0].now[0].rest && c < |s.conns|
    requires s.conns[c].state == Connected
    ensures var s' := Exec(s, 0, ch);
            && c < |s'.conns| && s'.loops != [] && s'.conns[c].state != Connecting
            && (s'.conns[c].state != Connected || exists it <- s'.loops[0].now :: it.Stopping? && c in it.rest)
  {
    var Stopping(rest, all) := s.loops[0].now[0];
    var p, more := PlanOf(s, 0, ch), Stopping(rest[1..], all);
    assert rest == [rest[0]] + rest[1..] && rest[0] in rest;
    HeadOk(s, 0);
    PlanIsExec(s, 0, ch);
    RunEffect(s, 0, ch, c);
    assert more in p.front;
    assert more in Exec(s, 0, ch).loops[0].now;
    if rest[0] != c {
      assert c in more.rest;
    }
  }

  lemma {:induction false} StoppedStays(s: Sys, es: seq<Event>, t: Sys, c: ConnId)
    requires Reachable(s) && Stopped(s, c) && Leads(s, es, t)
    ensures Reachable(t) && Stopped(t, c)
    decreases |es|
  {
    if es != [] {
      StoppedKept(s, es[0], c);
      ReachableThen(s, es[0]);
      StoppedStays(Next(s, es[0]), es[1..], t, c);
    }
  }

  /** When stop()'s functor runs, the acceptor goes, and every connection that is
      Connected then no longer is when the server's loop has come to the end of its list. */
  lemma StopFunctorShutsDown(s: Sys, ch: Choice, es: seq<Event>, t: Sys, c: ConnId)
    requires Reachable(s) && RunEnabled(s, 0, ch) && s.loops[0].now[0] == StopFn
    requires c < |s.conns| && s.conns[c].state == Connected
    requires Leads(Next(s, Run(0, ch)), es, t) && t.loops != [] && t.loops[0].now == []
    ensures c in s.entries && c < |t.conns| && (t.conns[c].state == Disconnecting || t.conns[c].state == Disconnected)
    ensures !Next(s, Run(0, ch)).acceptor
  {
    UpConnectionsListen(s, c);
    InvReachable(s);
    StepAcceptorGone(s, Run(0, ch));
    StopFunctor(s, ch, c);
    ReachableThen(s, Run(0, ch));
    StoppedStays(Next(s, Run(0, ch)), es, t, c);
  }

  lemma StopFunctor(s: Sys, ch: Choice, c: ConnId)
    requires Reachable(s) && RunEnabled(s, 0, ch) && s.loops[0].now[0] == StopFn
    requires c < |s.conns| && s.conns[c].state != Connecting
    ensures Stopped(Next(s, Run(0, ch)), c)
  {
    InvReachable(s);
    var s' := Next(s, Run(0, ch));
    StateMovesForward(s, Run(0, ch), c);
    if s'.conns[c].state == Connected {
      UpConnectionsListen(s, c);
      assert s'.loops[0].now[0].Stopping? && c in s'.loops[0].now[0].rest;
    }
  }

  /** stop() was called: its functor waits, or it has been at work. */
  ghost predicate StopCalled(s: Sys, c: ConnId) {
    && s.loops != [] && c < |s.conns| && s.conns[c].state != Connecting
    && (StopFn in Todo(s, 0) || (!s.acceptor && Stopped(s, c)))
  }

  lemma StopCalledKept(s: Sys, e: Event, c: ConnId)
    requires Reachable(s) && Enabled(s, e) && StopCalled(s, c)
    ensures StopCalled(Next(s, e), c)
  {
    InvReachable(s);
    StateMovesForward(s, e, c);
    SameLoops(s, e);
    StepAcceptorGone(s, e);
    if StopFn in Todo(s, 0) {
      if e.Run? && e.i == 0 && s.loops[0].now[0] == StopFn {
        StopFunctor(s, e.choice, c);
      } else {
        StaysInTodo(s, e, 0, StopFn);
      }
    } else {
      StoppedKept(s, e, c);
    }
  }

  /** Nothing brings the acceptor back. */
  lemma StepAcceptorGone(s: Sys, e: Event)
    requires Inv(s) && Enabled(s, e)
    ensures !s.acceptor ==> !Next(s, e).acceptor
    ensures e.Run? && s.loops[e.i].now[0].StopFn? ==> !Next(s, e).acceptor
  {
    if e.Run? {
      RunResets(s, e.i, e.choice);
    }
  }

  lemma {:induction false} StopCalledStays(s: Sys, es: seq<Event>, t: Sys, c: ConnId)
    requires Reachable(s) && StopCalled(s, c) && Leads(s, es, t)
    ensures Reachable(t) && StopCalled(t, c)
    decreases |es|
  {
    if es != [] {
      StopCalledKept(s, es[0], c);
      ReachableThen(s, es[0]);
      StopCalledStays(Next(s, es[0]), es[1..], t, c);
    }
  }

  predicate CallsStop(e: Event) {
    e == UserElsewhere(Stop) || (e.UserOnLoop? && e.act == Stop)
  }

  /** stop(), from any thread: however the run goes on, when the server's loop has nothing left
      to do there is no acceptor, and no connection that was up at the call is Connected any
      more; when such a connection's loop has nothing left either, it has sent SHUT_WR, or
      output still waits, or it is closed. */
  lemma StopShutsDown(s: Sys, e: Event, es: seq<Event>, t: Sys, c: ConnId)
    requires Reachable(s) && Enabled(s, e) && CallsStop(e) && c < |s.conns| && s.conns[c].state != Connecting
    requires Leads(Next(s, e), es, t) && t.loops != [] && Todo(t, 0) == []
    ensures !t.acceptor && c < |t.conns| && c < |t.home| && t.home[c] < |t.loops|
    ensures t.conns[c].state == Disconnecting || t.conns[c].state == Disconnected
    ensures Todo(t, t.home[c]) == [] ==> Finished(t.conns[c])
  {
    InvReachable(s);
    StateMovesForward(s, e, c);
    ReachableThen(s, e);
    var s' := Next(s, e);
    assert StopFn in Todo(s', 0) by {
      if e == UserOnLoop(0, Stop) {
        assert StopFn in s'.loops[0].now;
      } else {
        assert StopFn in s'.loops[0].pending;
      }
    }
    StopCalledStays(s', es, t, c);
    InvReachable(t);
    assert t.loops[0].now == [];
    if Todo(t, t.home[c]) == [] && t.conns[c].state == Disconnecting {
      ShuttingDownFinishes(t, c);
    }
  }
}
