/** What a read, a close and a dispatch bring about, in whole runs: the end of the stream
    closes the connection, and the user's callback gets to see what happened. */
module LifecycleReads {
  import opened Connection
  import opened Lifecycle
  import opened LifecycleInvariant
  import opened LifecycleSteps
  import opened LifecycleStreams
  import opened LifecycleTheorems
  import opened LifecycleProgress
  import opened LifecycleCallers
  import opened LifecycleDrain

  // ----- lists and states over runs -----

  /** An item in the list that a loop executes stays there until it is the one executed. */
  lemma StaysInNow(s: Sys, e: Event, j: LoopId, it: Item)
    requires Inv(s) && Enabled(s, e) && j < |s.loops| && it in s.loops[j].now
    requires !(e.Run? && e.i == j && s.loops[j].now[0] == it)
    ensures j < |Next(s, e).loops| && it in Next(s, e).loops[j].now
  {
    match e
    case Run(i, ch) =>
      var p := PlanOf(s, i, ch);
      PlanIsExec(s, i, ch);
      assert s.loops[i].now == [s.loops[i].now[0]] + s.loops[i].now[1..];
    case UserOnLoop(i, _) => assert s.loops[i].now == [s.loops[i].now[0]] + s.loops[i].now[1..];
    case _ =>
  }

  /** state_ and the loop of a connection over a whole run. */
  lemma {:induction false} LeadsForward(s: Sys, es: seq<Event>, t: Sys, c: ConnId)
    requires Reachable(s) && Leads(s, es, t) && c < |s.conns|
    ensures Reachable(t) && Forward(s, t, c) && |t.loops| == |s.loops|
    decreases |es|
  {
    if es == [] {
      InvReachable(s);
    } else {
      StateMovesForward(s, es[0], c);
      ReachableThen(s, es[0]);
      SameLoops(s, es[0]);
      LeadsForward(Next(s, es[0]), es[1..], t, c);
    }
  }

  lemma SameLoops(s: Sys, e: Event)
    requires Reachable(s) && Enabled(s, e)
    ensures |Next(s, e).loops| == |s.loops|
  {
    InvReachable(s);
    if e.Run? {
      PlanIsExec(s, e.i, e.choice);
    }
  }

  // ----- closing -----

  /** Closed, or about to be before the loop gets back to an empty list. */
  ghost predicate Closing(s: Sys, c: ConnId) {
    && c < |s.conns| && c < |s.home| && s.home[c] < |s.loops|
    && (s.conns[c].state == Disconnected || exists it <- s.loops[s.home[c]].now :: ClosesIt(it, c))
  }

  lemma ClosingKept(s: Sys, e: Event, c: ConnId)
    requires Reachable(s) && Enabled(s, e) && Closing(s, c)
    ensures Closing(Next(s, e), c)
  {
    InvReachable(s);
    StateMovesForward(s, e, c);
    SameLoops(s, e);
    if s.conns[c].state != Disconnected {
      var it :| it in s.loops[s.home[c]].now && ClosesIt(it, c);
      if e.Run? && e.i == s.home[c] && s.loops[e.i].now[0] == it {
        CloseRuns(s, e.i, e.choice, c);
      } else {
        StaysInNow(s, e, s.home[c], it);
      }
    }
  }

  lemma CloseRuns(s: Sys, i: LoopId, ch: Choice, c: ConnId)
    requires Inv(s) && RunEnabled(s, i, ch) && c < |s.conns| && ClosesIt(s.loops[i].now[0], c)
    ensures c < |Exec(s, i, ch).conns| && Exec(s, i, ch).conns[c].state == Disconnected
  {
  }

  /** A run in which every read of `c` meets the end of the stream. */
  ghost predicate EofRun(s: Sys, es: seq<Event>, t: Sys, c: ConnId)
    decreases |es|
  {
    if es == [] then s == t
    else
      && Enabled(s, es[0])
      && (es[0].Run? && s.loops[es[0].i].now[0] == ReadFn(c) ==> es[0].choice.read == Eof)
      && EofRun(Next(s, es[0]), es[1..], t, c)
  }

  /** Closing, or waiting to read in this dispatch. */
  ghost predicate Ending(s: Sys, c: ConnId) {
    Closing(s, c) || (c < |s.conns| && c < |s.home| && s.home[c] < |s.loops| && ReadFn(c) in s.loops[s.home[c]].now)
  }

  lemma ReadsEnd(s: Sys, i: LoopId, ch: Choice, c: ConnId)
    requires Reachable(s) && RunEnabled(s, i, ch) && s.loops[i].now[0] == ReadFn(c) && ch.read.Eof?
    ensures Closing(Next(s, Run(i, ch)), c)
  {
    InvReachable(s);
    HeadOk(s, i);
    StateMovesForward(s, Run(i, ch), c);
    assert CloseFn(c) in Next(s, Run(i, ch)).loops[i].now && ClosesIt(CloseFn(c), c);
  }

  lemma {:induction false} EndingCloses(s: Sys, es: seq<Event>, t: Sys, c: ConnId)
    requires Reachable(s) && Ending(s, c) && EofRun(s, es, t, c)
    ensures Reachable(t) && Ending(t, c) && t.home[c] == s.home[c]
    decreases |es|
  {
    if es != [] {
      var e := es[0];
      InvReachable(s);
      StateMovesForward(s, e, c);
      SameLoops(s, e);
      if Closing(s, c) {
        ClosingKept(s, e, c);
      } else if e.Run? && s.loops[e.i].now[0] == ReadFn(c) {
        ReadsEnd(s, e.i, e.choice, c);
      } else {
        StaysInNow(s, e, s.home[c], ReadFn(c));
      }
      ReachableThen(s, e);
      EndingCloses(Next(s, e), es[1..], t, c);
    }
  }

  lemma {:induction false} ClosingCloses(s: Sys, es: seq<Event>, t: Sys, c: ConnId)
    requires Reachable(s) && Closing(s, c) && Leads(s, es, t)
    ensures Reachable(t) && Closing(t, c) && t.home[c] == s.home[c]
    decreases |es|
  {
    if es != [] {
      StateMovesForward(s, es[0], c);
      ClosingKept(s, es[0], c);
      ReachableThen(s, es[0]);
      ClosingCloses(Next(s, es[0]), es[1..], t, c);
    }
  }

  /** A closed connection is gone when the loops have run dry. */
  ghost predicate GoneWhenIdle(t: Sys, c: ConnId) {
    Idle(t) ==> c !in t.entries && Down(c) in t.log
  }

  lemma ClosedIsGone(t: Sys, c: ConnId)
    requires Reachable(t) && c < |t.conns| && t.conns[c].state == Disconnected
    ensures GoneWhenIdle(t, c)
  {
    if Idle(t) {
      QuiescentIsClean(t, c);
    }
  }

  /** A read that returns 0 closes the connection: in whatever way the run goes on, it is
      Disconnected when its loop's list is next empty, and out of the map and destroyed when
      the loops have run dry. */
  lemma EofCloses(s: Sys, i: LoopId, ch: Choice, c: ConnId, es: seq<Event>, t: Sys)
    requires Reachable(s) && RunEnabled(s, i, ch) && s.loops[i].now[0] == ReadFn(c) && ch.read == Eof
    requires Leads(Next(s, Run(i, ch)), es, t) && i < |t.loops| && t.loops[i].now == []
    ensures c < |t.conns| && t.conns[c].state == Disconnected && GoneWhenIdle(t, c)
  {
    InvReachable(s);
    HeadOk(s, i);
    StateMovesForward(s, Run(i, ch), c);
    ReadsEnd(s, i, ch, c);
    ReachableThen(s, Run(i, ch));
    ClosingCloses(Next(s, Run(i, ch)), es, t, c);
    ClosedIsGone(t, c);
  }

  /** So does the dispatch of an event with the close bit, and one with the read bit if the
      reads that follow meet the end of the stream. */
  lemma DispatchCloses(s: Sys, i: LoopId, ch: Choice, c: ConnId, es: seq<Event>, t: Sys)
    requires Reachable(s) && RunEnabled(s, i, ch) && s.loops[i].now[0] == Chan(c)
    requires (ch.revents.close && Leads(Next(s, Run(i, ch)), es, t))
             || (ch.revents.read && EofRun(Next(s, Run(i, ch)), es, t, c))
    requires i < |t.loops| && t.loops[i].now == []
    ensures c < |t.conns| && t.conns[c].state == Disconnected && GoneWhenIdle(t, c)
  {
    InvReachable(s);
    HeadOk(s, i);
    var s' := Next(s, Run(i, ch));
    StateMovesForward(s, Run(i, ch), c);
    ReachableThen(s, Run(i, ch));
    DispatchBrings(s, i, ch, c);
    if ch.revents.close && Leads(s', es, t) {
      assert ClosesIt(CloseFn(c), c);
      ClosingCloses(s', es, t, c);
    } else {
      EndingCloses(s', es, t, c);
    }
    ClosedIsGone(t, c);
  }

  lemma DispatchBrings(s: Sys, i: LoopId, ch: Choice, c: ConnId)
    requires Inv(s) && RunEnabled(s, i, ch) && s.loops[i].now[0] == Chan(c)
    ensures ch.revents.close ==> CloseFn(c) in Next(s, Run(i, ch)).loops[i].now
    ensures ch.revents.read ==> ReadFn(c) in Next(s, Run(i, ch)).loops[i].now
  {
    Channels.FiredInOrder(ch.revents, {Channels.OnError, Channels.OnClose, Channels.OnRead, Channels.OnWrite});
  }

  // ----- the user's callback -----

  /** The user's callback runs on loop `i` with the connection as its argument. */
  predicate Tells(s: Sys, i: LoopId, c: ConnId) {
    i < |s.loops| && s.loops[i].now != [] && s.loops[i].now[0] == Callback(c)
  }

  /** The user is told that a connection is up, */
  lemma UserIsToldUp(s: Sys, i: LoopId, ch: Choice, c: ConnId)
    requires Reachable(s) && RunEnabled(s, i, ch) && s.loops[i].now[0] == EstablishFn(c)
    ensures var s' := Next(s, Run(i, ch));
            Tells(s', i, c) && c < |s'.conns| && s'.conns[c].state == Connected && c in s'.entries
  {
    InvReachable(s);
    EstablishFinds(s, i);
  }

  /** that it is closed, before anything else happens on the loop, */
  lemma UserIsToldClosed(s: Sys, i: LoopId, ch: Choice, c: ConnId)
    requires Reachable(s) && RunEnabled(s, i, ch) && ClosesIt(s.loops[i].now[0], c)
    ensures var s' := Next(s, Run(i, ch));
            Tells(s', i, c) && c < |s'.conns| && s'.conns[c].state == Disconnected && s'.entries == s.entries
  {
    InvReachable(s);
    HeadOk(s, i);
  }

  /** and that there is data; a read that fails changes nothing and calls nobody. */
  lemma UserIsToldData(s: Sys, i: LoopId, ch: Choice, c: ConnId)
    requires Reachable(s) && RunEnabled(s, i, ch) && s.loops[i].now[0] == ReadFn(c) && ch.read != Eof
    ensures var s' := Next(s, Run(i, ch));
            && s' == s.(loops := s'.loops)
            && (ch.read == Data ==> Tells(s', i, c))
            && (ch.read == ReadError ==> s'.loops == s.loops[i := s.loops[i].(now := s.loops[i].now[1..])])
  {
    InvReachable(s);
    if ch.read == ReadError {
      assert [] + s.loops[i].now[1..] == s.loops[i].now[1..] && s.loops[i].pending + [] == s.loops[i].pending;
    }
  }

  // ----- the batch -----

  /** A run in which loop `i` does not come to the end of its list. */
  ghost predicate BusyRun(s: Sys, es: seq<Event>, t: Sys, i: LoopId)
    decreases |es|
  {
    && i < |s.loops| && s.loops[i].now != []
    && (if es == [] then s == t else Enabled(s, es[0]) && BusyRun(Next(s, es[0]), es[1..], t, i))
  }

  /** The vector of functors at the end of the list owns `c`. */
  predicate VectorHolds(s: Sys, i: LoopId, c: ConnId) {
    i < |s.loops| && s.loops[i].now != [] && var last := s.loops[i].now[|s.loops[i].now| - 1]; last.BatchEnd? && c in last.refs
  }

  lemma VectorStays(s: Sys, e: Event, i: LoopId, c: ConnId)
    requires Inv(s) && Enabled(s, e) && VectorHolds(s, i, c)
    requires i < |Next(s, e).loops| && Next(s, e).loops[i].now != []
    ensures VectorHolds(Next(s, e), i, c)
  {
    match e
    case Run(j, ch) => RunVector(s, j, ch, i, c);
    case UserOnLoop(j, _) => if j == i { UserLast(s, e, i); }
    case _ =>
  }

  lemma RunVector(s: Sys, j: LoopId, ch: Choice, i: LoopId, c: ConnId)
    requires Inv(s) && RunEnabled(s, j, ch) && VectorHolds(s, i, c)
    requires i < |Exec(s, j, ch).loops| && Exec(s, j, ch).loops[i].now != []
    ensures VectorHolds(Exec(s, j, ch), i, c)
  {
    var p := PlanOf(s, j, ch);
    PlanIsExec(s, j, ch);
    assert s.loops[j].now[0].BatchEnd? ==> p.front == [];
    AdvanceLast(s.loops, j, p.front, p.l, p.back, i);
  }

  lemma AdvanceLast(loops: seq<Loop>, j: LoopId, front: seq<Item>, l: LoopId, back: seq<Item>, i: LoopId)
    requires j < |loops| && l < |loops| && i < |loops| && loops[j].now != [] && loops[i].now != []
    ensures var now := Advance(loops, j, front, l, back)[i].now;
            now != [] && !(i == j && |loops[j].now| == 1) ==> now[|now| - 1] == loops[i].now[|loops[i].now| - 1]
  {
  }

  lemma UserLast(s: Sys, e: Event, i: LoopId)
    requires Enabled(s, e) && e.UserOnLoop? && e.i == i
    ensures Next(s, e).loops[i].now != [] && Next(s, e).loops[i].now[|Next(s, e).loops[i].now| - 1] == s.loops[i].now[|s.loops[i].now| - 1]
  {
  }

  lemma {:induction false} BusyHolds(s: Sys, es: seq<Event>, t: Sys, i: LoopId, c: ConnId)
    requires Reachable(s) && VectorHolds(s, i, c) && BusyRun(s, es, t, i)
    ensures VectorHolds(t, i, c)
    decreases |es|
  {
    if es != [] {
      InvReachable(s);
      VectorStays(s, es[0], i, c);
      ReachableThen(s, es[0]);
      BusyHolds(Next(s, es[0]), es[1..], t, i, c);
    }
  }

  lemma {:induction false} BatchOwns(q: seq<Item>, k: nat, c: ConnId)
    requires k < |q| && c in Refs(q[k])
    ensures c in BatchRefs(q)
  {
    if k > 0 {
      BatchOwns(q[1..], k - 1, c);
    }
  }

  /** What a functor in the batch owns lives until the whole batch has run, not only until
      the functor has: the swapped vector goes last. */
  lemma BatchKeepsAlive(s: Sys, i: LoopId, k: nat, c: ConnId, es: seq<Event>, t: Sys)
    requires Reachable(s) && Enabled(s, Swap(i)) && k < |s.loops[i].pending| && c in Refs(s.loops[i].pending[k])
    requires BusyRun(Next(s, Swap(i)), es, t, i)
    ensures Alive(t, c)
  {
    BatchOwns(s.loops[i].pending, k, c);
    ReachableThen(s, Swap(i));
    BusyHolds(Next(s, Swap(i)), es, t, i, c);
    var n := |t.loops[i].now| - 1;
    assert Todo(t, i)[n] == t.loops[i].now[n];
  }
}
