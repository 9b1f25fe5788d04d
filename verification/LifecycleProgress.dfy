/** Nothing gets stuck on the way: every connection that is due for a step of its life has
    that step queued, in every run of the Lifecycle machine. */
module LifecycleProgress {
  import opened Connection
  import opened Channels
  import opened Lifecycle
  import opened LifecycleInvariant
  import opened LifecycleSteps
  import opened LifecycleStreams

  /** A closed connection that the map still owns is on its way out. */
  ghost predicate Leaving(s: Sys, c: ConnId)
    requires |s.loops| >= 1
  {
    c < |s.conns| && c < |s.home| && s.home[c] < |s.loops|
    && (s.conns[c].state == Disconnected && c in s.entries ==>
          CloseCallback(c) in Todo(s, s.home[c]) || RemoveFn(c) in Todo(s, 0))
  }

  ghost predicate AllLeaving(s: Sys) {
    |s.loops| >= 1 && forall c :: 0 <= c < |s.conns| ==> Leaving(s, c)
  }

  /** An item stays in its list until it is the one executed. */
  lemma StaysQueued(s: Sys, s': Sys, i: LoopId, front: seq<Item>, l: LoopId, back: seq<Item>, j: LoopId, it: Item)
    requires i < |s.loops| && l < |s.loops| && j < |s.loops| && s.loops[i].now != []
    requires s'.loops == Advance(s.loops, i, front, l, back)
    requires it in Todo(s, j) && it != s.loops[i].now[0]
    ensures it in Todo(s', j)
  {
    AdvanceTodo(s.loops, i, front, l, back, j);
    var q := Todo(s, j);
    if j == i {
      assert q == [q[0]] + q[1..] && q[0] == s.loops[i].now[0];
      assert it in q[1..];
    }
  }

  /** New items arrive in the lists they are put on. */
  lemma Arrives(s: Sys, s': Sys, i: LoopId, front: seq<Item>, l: LoopId, back: seq<Item>, it: Item)
    requires i < |s.loops| && l < |s.loops| && s.loops[i].now != []
    requires s'.loops == Advance(s.loops, i, front, l, back)
    ensures it in front ==> it in Todo(s', i)
    ensures it in back ==> it in Todo(s', l)
  {
    AdvanceTodo(s.loops, i, front, l, back, i);
    AdvanceTodo(s.loops, i, front, l, back, l);
  }

  /** A step that neither closes `c` nor executes its CloseCallback or RemoveFn. */
  lemma LeavingKept(s: Sys, s': Sys, i: LoopId, front: seq<Item>, l: LoopId, back: seq<Item>, c: ConnId)
    requires |s.loops| >= 1 && Leaving(s, c)
    requires i < |s.loops| && l < |s.loops| && s.loops[i].now != [] && s'.loops == Advance(s.loops, i, front, l, back)
    requires c < |s'.conns| && c < |s'.home| && s'.home[c] == s.home[c]
    requires c in s'.entries ==> c in s.entries
    requires s'.conns[c].state == Disconnected ==> s.conns[c].state == Disconnected
    requires s.loops[i].now[0] != CloseCallback(c) && s.loops[i].now[0] != RemoveFn(c)
    ensures Leaving(s', c)
  {
    if s'.conns[c].state == Disconnected && c in s'.entries {
      if CloseCallback(c) in Todo(s, s.home[c]) {
        StaysQueued(s, s', i, front, l, back, s.home[c], CloseCallback(c));
      } else {
        StaysQueued(s, s', i, front, l, back, 0, RemoveFn(c));
      }
    }
  }

  /** Nothing but removeConnectionInLoop takes a connection out of the map, and nothing but
      newConnection puts one in. */
  lemma RunEntries(s: Sys, i: LoopId, ch: Choice, c: ConnId)
    requires Inv(s) && RunEnabled(s, i, ch) && c < |s.conns|
    ensures c in Exec(s, i, ch).entries <==> c in s.entries && s.loops[i].now[0] != RemoveFn(c)
  {
    if s.loops[i].now[0].Stopping? {
      var rest := s.loops[i].now[0].rest;
      assert rest != [] ==> rest[0] in rest;
    }
  }

  /** Only handleClose makes a connection Disconnected. */
  lemma RunCloses(s: Sys, i: LoopId, ch: Choice, c: ConnId)
    requires Inv(s) && RunEnabled(s, i, ch) && c < |s.conns|
    ensures c < |Exec(s, i, ch).conns|
    ensures Exec(s, i, ch).conns[c].state == Disconnected ==>
              s.conns[c].state == Disconnected || (Closes(s.loops[i].now[0]) && s.loops[i].now[0].c == c)
  {
    RunEffect(s, i, ch, c);
  }

  lemma OldLeaves(s: Sys, i: LoopId, ch: Choice, c: ConnId)
    requires Inv(s) && RunEnabled(s, i, ch) && c < |s.conns| && Leaving(s, c)
    ensures Leaving(Exec(s, i, ch), c)
  {
    var p := PlanOf(s, i, ch);
    HeadOk(s, i);
    PlanIsExec(s, i, ch);
    RunCloses(s, i, ch, c);
    RunEntries(s, i, ch, c);
    RunHome(s, i, ch, c);
    PlanLeaves(s, Exec(s, i, ch), i, p, c);
  }

  /** A closed connection passes from its close to the close callback, to the removal. */
  lemma PlanLeaves(s: Sys, s': Sys, i: LoopId, p: Plan, c: ConnId)
    requires |s.loops| >= 1 && Leaving(s, c) && i < |s.loops| && p.l < |s.loops| && s.loops[i].now != []
    requires s'.loops == Advance(s.loops, i, p.front, p.l, p.back)
    requires c < |s'.conns| && c < |s'.home| && s'.home[c] == s.home[c]
    requires var h := s.loops[i].now[0];
             && (c in s'.entries <==> c in s.entries && h != RemoveFn(c))
             && (s'.conns[c].state == Disconnected ==> s.conns[c].state == Disconnected || (Closes(h) && h.c == c))
             && (Closes(h) && h.c == c ==> CloseCallback(c) in p.front && s.home[c] == i)
             && (h == CloseCallback(c) ==> RemoveFn(c) in (if i == 0 then p.front else p.back) && (i != 0 ==> p.l == 0))
    ensures Leaving(s', c)
  {
    var h := s.loops[i].now[0];
    if Closes(h) && h.c == c {
      Arrives(s, s', i, p.front, p.l, p.back, CloseCallback(c));
    } else if h == CloseCallback(c) {
      Arrives(s, s', i, p.front, p.l, p.back, RemoveFn(c));
    } else if h != RemoveFn(c) {
      LeavingKept(s, s', i, p.front, p.l, p.back, c);
    }
  }

  lemma RunHome(s: Sys, i: LoopId, ch: Choice, c: ConnId)
    requires Inv(s) && RunEnabled(s, i, ch) && c < |s.conns|
    ensures c < |Exec(s, i, ch).home| && Exec(s, i, ch).home[c] == s.home[c]
  {
    if s.loops[i].now[0].Stopping? {
      var rest := s.loops[i].now[0].rest;
      assert rest != [] ==> rest[0] in rest;
    }
  }

  lemma RunLeaves(s: Sys, i: LoopId, ch: Choice, c: ConnId)
    requires Inv(s) && AllLeaving(s) && RunEnabled(s, i, ch) && c < |Exec(s, i, ch).conns|
    ensures Leaving(Exec(s, i, ch), c)
  {
    if c < |s.conns| {
      assert Leaving(s, c);
      OldLeaves(s, i, ch, c);
    } else {
      RunCreates(s, i, ch);
      RunStep(s, i, ch);
    }
  }

  /** A call from outside, a poll or a swap takes nothing out of any list. */
  lemma GrownLeaves(s: Sys, s': Sys, c: ConnId)
    requires AllLeaving(s) && c < |s.conns| && |s'.loops| == |s.loops|
    requires c < |s'.conns| && s'.home == s.home && s'.entries == s.entries
    requires s'.conns[c].state == Disconnected ==> s.conns[c].state == Disconnected
    requires forall j, it :: 0 <= j < |s.loops| && it in Todo(s, j) ==> it in Todo(s', j)
    ensures Leaving(s', c)
  {
    assert Leaving(s, c);
  }

  lemma UserLeaves(s: Sys, onto: int, act: Act, c: ConnId)
    requires Inv(s) && AllLeaving(s) && Formed(s) && c < |s.conns|
    requires 0 <= onto ==> Enabled(s, UserOnLoop(onto, act))
    requires onto < 0 ==> Enabled(s, UserElsewhere(act))
    ensures Leaving(User(s, onto, act), c)
  {
    var s' := User(s, onto, act);
    assert Leaving(s, c);
    if act.Use? && Passes(s.conns[act.d], act.call) && s.home[act.d] == onto {
      var front := [Calling(act.d, act.call), Guard(act.d), s.loops[onto].now[0]];
      LeavingKept(s, s', onto, front, onto, [], c);
    } else if act.Stop? && onto == 0 {
      LeavingKept(s, s', 0, [StopFn, s.loops[0].now[0]], 0, [], c);
    } else {
      GrownLeaves(s, s', c);
    }
  }

  lemma StepLeaves(s: Sys, e: Event)
    requires Inv(s) && AllLeaving(s) && Enabled(s, e)
    ensures AllLeaving(Next(s, e))
  {
    var s' := Next(s, e);
    forall c | 0 <= c < |s'.conns| ensures Leaving(s', c) {
      match e
      case Run(i, ch) => RunLeaves(s, i, ch, c);
      case UserOnLoop(i, act) => UserLeaves(s, i, act, c);
      case UserElsewhere(act) => UserLeaves(s, -1, act, c);
      case Poll(i, active) => GrownLeaves(s, s', c);
      case Swap(i) => GrownLeaves(s, s', c);
    }
  }

  lemma {:induction false} LeadsLeaves(s: Sys, es: seq<Event>, t: Sys)
    requires Inv(s) && AllLeaving(s) && Leads(s, es, t)
    ensures AllLeaving(t)
    decreases |es|
  {
    if es != [] {
      InvStep(s, es[0]);
      StepLeaves(s, es[0]);
      LeadsLeaves(Next(s, es[0]), es[1..], t);
    }
  }

  /** No removal is lost: a closed connection that the server's map still owns has its
      removeConnection or removeConnectionInLoop waiting. */
  lemma ClosedIsOnItsWayOut(t: Sys, c: ConnId)
    requires Reachable(t) && c < |t.conns| && t.conns[c].state == Disconnected && c in t.entries
    ensures c < |t.home| && t.home[c] < |t.loops| && |t.loops| >= 1
    ensures CloseCallback(c) in Todo(t, t.home[c]) || RemoveFn(c) in Todo(t, 0)
  {
    InvReachable(t);
    var s, es :| Initial(s) && Leads(s, es, t);
    InvInitial(s);
    LeadsLeaves(s, es, t);
    assert Leaving(t, c);
  }

  /** When every loop has run dry, each connection is either up and in the map, or closed,
      out of the map, and destroyed; nothing is left half-way. */
  lemma QuiescentIsClean(t: Sys, c: ConnId)
    requires Reachable(t) && c < |t.conns|
    requires forall i :: 0 <= i < |t.loops| ==> Todo(t, i) == []
    ensures Up(c) in t.log
    ensures t.conns[c].state == Disconnected <==> c !in t.entries
    ensures c !in t.entries <==> Down(c) in t.log
    ensures t.conns[c].state != Connecting
  {
    InvReachable(t);
    assert ConnInv(t, c);
    MarksIn(t.log, Up(c));
    MarksIn(t.log, Down(c));
    if t.conns[c].state == Disconnected && c in t.entries {
      ClosedIsOnItsWayOut(t, c);
    }
  }

  /** The machine has no hidden dead ends: unless its next item dangles, every loop can
      always make a step of its own, whatever the others do. */
  lemma LoopsNeverStuck(t: Sys, i: LoopId)
    requires Reachable(t) && i < |t.loops|
    ensures Dangling(t, i) || Enabled(t, Poll(i, [])) || Enabled(t, Swap(i))
            || Enabled(t, Run(i, Choice(0, Revents(false, false, false, false), WouldBlock, ReadError)))
  {
    InvReachable(t);
    InvFormed(t);
    if t.loops[i].now != [] {
      assert t.loops[i].now[0] == Todo(t, i)[0];
    }
  }
}
