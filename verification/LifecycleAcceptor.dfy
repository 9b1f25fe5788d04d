/** stop() frees the acceptor while the acceptor's own event may still be in the dispatch. */
module LifecycleAcceptor {
  import opened Connection
  import opened Lifecycle
  import opened LifecycleInvariant
  import opened LifecycleSteps
  import opened LifecyclePlaces
  import opened LifecycleTheorems

  /** stop() called on the server's loop while the acceptor's event is in the dispatch, or is
      itself what leads to the call. */
  predicate StopsUnderAcceptor(s: Sys, e: Event) {
    e == UserOnLoop(0, Stop) && s.loops != [] && exists it <- s.loops[0].now :: UsesAcceptor(it)
  }

  ghost predicate CarefulRun(s: Sys, es: seq<Event>, t: Sys)
    decreases |es|
  {
    if es == [] then s == t
    else Enabled(s, es[0]) && !StopsUnderAcceptor(s, es[0]) && CarefulRun(Next(s, es[0]), es[1..], t)
  }

  /** Whoever still uses the acceptor finds it, and no stop() is ahead. */
  predicate AcceptorSafe(s: Sys)
    requires s.loops != []
  {
    (exists it <- s.loops[0].now :: UsesAcceptor(it)) ==> s.acceptor && StopFn !in s.loops[0].now
  }

  lemma RunAcceptor(s: Sys, i: LoopId, ch: Choice)
    requires Inv(s) && AllPlaced(s) && RunEnabled(s, i, ch) && AcceptorSafe(s)
    ensures AcceptorSafe(Exec(s, i, ch))
  {
    var s', p := Exec(s, i, ch), PlanOf(s, i, ch);
    PlanIsExec(s, i, ch);
    PlanAcceptor(s, i, ch);
    RunResets(s, i, ch);
    HeadOk(s, i);
    if it :| it in s'.loops[0].now && UsesAcceptor(it) {
      NowAfter(s, s', i, p);
    }
  }

  /** The items of loop 0's list after a step were there before or are new. */
  lemma NowAfter(s: Sys, s': Sys, i: LoopId, p: Plan)
    requires i < |s.loops| && p.l < |s.loops| && s.loops[i].now != []
    requires s'.loops == Advance(s.loops, i, p.front, p.l, p.back)
    ensures s'.loops[0].now == if i == 0 then p.front + s.loops[0].now[1..] else s.loops[0].now
  {
  }

  lemma RunResets(s: Sys, i: LoopId, ch: Choice)
    requires Inv(s) && RunEnabled(s, i, ch)
    ensures Exec(s, i, ch).acceptor == (s.acceptor && !s.loops[i].now[0].StopFn?)
  {
    if s.loops[i].now[0].Stopping? {
      var rest := s.loops[i].now[0].rest;
      assert rest != [] ==> rest[0] in rest;
    }
  }

  lemma StepAcceptor(s: Sys, e: Event)
    requires Inv(s) && AllPlaced(s) && Enabled(s, e) && AcceptorSafe(s) && !StopsUnderAcceptor(s, e)
    ensures AcceptorSafe(Next(s, e))
  {
    match e
    case Run(i, ch) => RunAcceptor(s, i, ch);
    case Poll(i, active) => assert forall k :: 0 <= k < |active| ==> Polled(s, i, active[k]);
    case Swap(i) => assert Placed(s.loops[i]);
    case UserOnLoop(i, act) => UserAcceptor(s, i, act);
    case UserElsewhere(act) => UserAcceptor(s, -1, act);
  }

  lemma UserAcceptor(s: Sys, onto: int, act: Act)
    requires Formed(s) && AcceptorSafe(s) && !(0 <= onto && StopsUnderAcceptor(s, UserOnLoop(onto, act)))
    requires 0 <= onto ==> onto < |s.loops| && s.loops[onto].now != []
                           && (s.loops[onto].now[0].Callback? || s.loops[onto].now[0].Posted?)
    requires match act
             case Post(l) => l < |s.loops|
             case Stop => true
             case _ => act.d < |s.conns|
    ensures AcceptorSafe(User(s, onto, act))
  {
    var s' := User(s, onto, act);
    if act.Use? && Passes(s.conns[act.d], act.call) && s.home[act.d] == onto {
      NowAfter(s, s', onto, Plan([Calling(act.d, act.call), Guard(act.d), s.loops[onto].now[0]], onto, []));
    } else if act.Stop? && onto == 0 {
      NowAfter(s, s', 0, Plan([StopFn, s.loops[0].now[0]], 0, []));
    } else {
      assert s'.loops[0].now == s.loops[0].now;
    }
  }

  lemma CarefulStep(s: Sys, e: Event)
    requires Reachable(s) && s.loops != [] && AcceptorSafe(s) && Enabled(s, e) && !StopsUnderAcceptor(s, e)
    ensures Reachable(Next(s, e)) && Next(s, e).loops != [] && AcceptorSafe(Next(s, e))
  {
    InvReachable(s);
    PlacedReachable(s);
    StepAcceptor(s, e);
    ReachableThen(s, e);
  }

  lemma {:induction false} RunCareful(s: Sys, es: seq<Event>, t: Sys)
    requires Reachable(s) && s.loops != [] && AcceptorSafe(s) && CarefulRun(s, es, t)
    ensures Reachable(t) && t.loops != [] && AcceptorSafe(t)
    decreases |es|
  {
    if es != [] {
      CarefulStep(s, es[0]);
      RunCareful(Next(s, es[0]), es[1..], t);
    }
  }

  lemma SafeNotDangling(t: Sys, i: LoopId)
    requires Reachable(t) && t.loops != [] && AcceptorSafe(t) && i < |t.loops|
    ensures !AcceptorDangling(t, i)
  {
    InvReachable(t);
    if t.loops[i].now != [] {
      HeadOk(t, i);
      assert t.loops[i].now[0] in t.loops[i].now;
    }
  }

  /** If stop() is never called on the server's loop under the acceptor's event, no loop ever
      uses the freed acceptor. */
  lemma CarefulStopsNeverDangle(s: Sys, es: seq<Event>, t: Sys, i: LoopId)
    requires Initial(s) && CarefulRun(s, es, t) && i < |t.loops|
    ensures !AcceptorDangling(t, i)
  {
    assert Leads(s, [], s);
    RunCareful(s, es, t);
    SafeNotDangling(t, i);
  }
}
