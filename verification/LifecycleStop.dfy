/** stop() under the acceptor: when it leads to the use of the freed acceptor. */
module LifecycleStop {
  import opened Connection
  import opened Lifecycle
  import opened LifecycleInvariant
  import opened LifecycleSteps
  import opened LifecyclePlaces
  import opened LifecycleAcceptor
  import opened LifecycleTheorems
  import opened LifecycleCallers
  import opened LifecycleDrain

  /** The loops can by themselves get from `s` to the use of the freed acceptor. */
  ghost predicate WillUseAcceptor(s: Sys) {
    exists es, u :: Leads(s, es, u) && AllInternal(es) && u.loops != [] && AcceptorDangling(u, 0)
  }

  /** The dispatch goes on to the acceptor's event, which is freed by then. */
  lemma {:induction false} ReachesAcceptor(s: Sys, it: Item, most: nat) returns (es: seq<Event>, u: Sys)
    requires Reachable(s) && NoneStale(s) && Load(s) <= most && s.loops != []
    requires it in s.loops[0].now && UsesAcceptor(it) && (s.acceptor ==> s.loops[0].now[0].StopFn?)
    ensures Leads(s, es, u) && AllInternal(es) && u.loops != [] && AcceptorDangling(u, 0)
    decreases Total(s.loops, Work(most)), |s.loops[0].now|
  {
    if UsesAcceptor(s.loops[0].now[0]) {
      es, u := [], s;
    } else {
      var s' := StoppedTick(s, it, most);
      var rest;
      rest, u := ReachesAcceptor(s', it, most);
      LeadsCons(s, Run(0, QUIET), s', rest, u);
      es := [Run(0, QUIET)] + rest;
      assert es[1..] == rest;
    }
  }

  lemma StoppedTick(s: Sys, it: Item, most: nat) returns (s': Sys)
    requires Reachable(s) && NoneStale(s) && Load(s) <= most && s.loops != []
    requires it in s.loops[0].now && UsesAcceptor(it) && (s.acceptor ==> s.loops[0].now[0].StopFn?)
    requires !UsesAcceptor(s.loops[0].now[0])
    ensures Enabled(s, Run(0, QUIET)) && s' == Next(s, Run(0, QUIET))
    ensures Reachable(s') && NoneStale(s') && Load(s') <= most && s'.loops != [] && it in s'.loops[0].now && !s'.acceptor
    ensures Total(s'.loops, Work(most)) <= Total(s.loops, Work(most))
    ensures Total(s'.loops, Work(most)) == Total(s.loops, Work(most)) ==> |s'.loops[0].now| < |s.loops[0].now|
  {
    InvReachable(s);
    InvFormed(s);
    assert s.loops[0].now[0] == Todo(s, 0)[0];
    if Raw(s.loops[0].now[0]) {
      RawItemsAlive(s, 0, 0);
    }
    StepWork(s, Run(0, QUIET), most);
    StaleKept(s, Run(0, QUIET));
    ReachableThen(s, Run(0, QUIET));
    StoppedStays(s, it);
    s' := Next(s, Run(0, QUIET));
  }

  lemma StoppedStays(s: Sys, it: Item)
    requires Inv(s) && RunEnabled(s, 0, QUIET) && it in s.loops[0].now && it != s.loops[0].now[0]
    requires s.acceptor ==> s.loops[0].now[0].StopFn?
    ensures Exec(s, 0, QUIET).loops != []
    ensures it in Exec(s, 0, QUIET).loops[0].now && !Exec(s, 0, QUIET).acceptor
    ensures s.loops[0].now[0].BatchEnd? ==> |Exec(s, 0, QUIET).loops[0].now| < |s.loops[0].now|
  {
    var p, now := PlanOf(s, 0, QUIET), s.loops[0].now;
    PlanIsExec(s, 0, QUIET);
    RunResets(s, 0, QUIET);
    NowAfter(s, Exec(s, 0, QUIET), 0, p);
    assert now == [now[0]] + now[1..];
    assert it in now[1..];
  }

  /** Exactly when stop() on the server's loop leads to the use of the freed acceptor: if and
      only if the acceptor's event is in the dispatch, or is what led to the call. */
  lemma StopDanglesIff(s: Sys)
    requires Reachable(s) && Fresh(s) && Enabled(s, UserOnLoop(0, Stop))
    ensures WillUseAcceptor(Next(s, UserOnLoop(0, Stop))) <==> exists it <- s.loops[0].now :: UsesAcceptor(it)
  {
    var e := UserOnLoop(0, Stop);
    var s' := Next(s, e);
    InvReachable(s);
    ReachableThen(s, e);
    assert s'.loops[0].now == [StopFn, s.loops[0].now[0]] + s.loops[0].now[1..];
    if it :| it in s.loops[0].now && UsesAcceptor(it) {
      assert s.loops[0].now == [s.loops[0].now[0]] + s.loops[0].now[1..];
      assert it in s'.loops[0].now;
      StopStale(s);
      var es, u := ReachesAcceptor(s', it, Load(s'));
    } else {
      forall es, u | Leads(s', es, u) && AllInternal(es) && u.loops != [] ensures !AcceptorDangling(u, 0) {
        InternalIsCareful(s', es, u);
        RunCareful(s', es, u);
        SafeNotDangling(u, 0);
      }
    }
  }

  lemma StopStale(s: Sys)
    requires Inv(s) && NoneStale(s) && Enabled(s, UserOnLoop(0, Stop))
    ensures NoneStale(Next(s, UserOnLoop(0, Stop)))
  {
    var s' := Next(s, UserOnLoop(0, Stop));
    forall j, it | 0 <= j < |s'.loops| && it in Todo(s', j) && it.Chan? ensures Down(it.c) !in s'.log {
      UserChannels(s, 0, Stop, j, it);
    }
  }

  lemma {:induction false} InternalIsCareful(s: Sys, es: seq<Event>, t: Sys)
    requires Leads(s, es, t) && AllInternal(es)
    ensures CarefulRun(s, es, t)
    decreases |es|
  {
    if es != [] {
      InternalIsCareful(Next(s, es[0]), es[1..], t);
    }
  }

  /** stop() called by the connection callback of a connection that the server's own loop has
      just accepted: the acceptor is freed inside its own event. */
  lemma StopInsideAccept()
    ensures exists t :: Reachable(t) && t.loops != [] && AcceptorDangling(t, 0)
  {
    SceneEstablishes();
    var s := Scene(true, [Callback(0), AcceptTail], [], OPEN, true, 0, [Up(0)], false);
    InvReachable(s);
    InvFormed(s);
    assert s.loops[0].now[1] == AcceptTail && AcceptTail in s.loops[0].now;
    var e := UserOnLoop(0, Stop);
    assert Fresh(s);
    StopDanglesIff(s);
    var es, u :| Leads(Next(s, e), es, u) && AllInternal(es) && u.loops != [] && AcceptorDangling(u, 0);
    ReachableThen(s, e);
    ReachableOn(Next(s, e), es, u);
  }

  /** Callers that keep to both rules, sends on their connection's loop and no stop() under the
      acceptor's event, never make any loop use anything freed. */
  lemma SafeCallersNeverDangle(s: Sys, es: seq<Event>, t: Sys, i: LoopId)
    requires Initial(s) && HomeRun(s, es, t) && CarefulRun(s, es, t) && i < |t.loops|
    ensures !Dangling(t, i)
  {
    OnLoopSendsNeverDangle(s, es, t, i);
    CarefulStopsNeverDangle(s, es, t, i);
  }

  lemma ReachableOn(t: Sys, es: seq<Event>, u: Sys)
    requires Reachable(t) && Leads(t, es, u)
    ensures Reachable(u)
  {
    var s, steps :| Initial(s) && Leads(s, steps, t);
    LeadsOn(s, steps, t, es, u);
  }
}
