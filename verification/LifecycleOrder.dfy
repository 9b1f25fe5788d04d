/** Functors handed to a loop before the connection's removal run before connectDestroyed. */
module LifecycleOrder {
  import opened Connection
  import opened Lifecycle
  import opened LifecycleInvariant
  import opened LifecycleSteps

  /** No functor of send, shutdown or forceClose is behind the connectDestroyed of its
      connection, waiting or run. */
  ghost predicate FunctorsFirst(q: seq<Item>, log: seq<Mark>) {
    && (forall k :: 0 <= k < |q| && Handed(q[k]) ==> Down(q[k].c) !in log)
    && (forall j, k :: 0 <= j < k < |q| && Handed(q[k]) ==> q[j] != DestroyFn(q[k].c))
  }

  ghost predicate AllFirst(s: Sys) {
    forall j :: 0 <= j < |s.loops| ==> FunctorsFirst(Todo(s, j), s.log)
  }

  /** A connection in the map has no connectDestroyed anywhere. */
  lemma MapExcludesDestroy(s: Sys, c: ConnId, j: LoopId)
    requires Inv(s) && j < |s.loops| && c in s.entries
    ensures DestroyFn(c) !in Todo(s, j) && Down(c) !in s.log
  {
    assert ConnInv(s, c) && LoopInv(s, j);
    MarksIn(s.log, Down(c));
    CountZeroOrIn(Todo(s, s.home[c]), DestroyFn(c));
    forall k | 0 <= k < |Todo(s, j)| ensures Todo(s, j)[k] != DestroyFn(c) {
      assert ItemOk(s, j, Todo(s, j)[k]);
      assert Todo(s, j)[k] in multiset(Todo(s, j));
    }
  }

  /** Replacing the first item and queueing keeps the order, if new functors are of
      connections without connectDestroyed and a new connectDestroyed goes to the end. */
  lemma FirstAdvance(front: seq<Item>, h: Item, rest: seq<Item>, back: seq<Item>, log: seq<Mark>, log': seq<Mark>)
    requires FunctorsFirst([h] + rest, log)
    requires forall it <- front :: !it.DestroyFn?
    requires forall it <- front :: Handed(it) ==> Down(it.c) !in log'
    requires forall it <- back :: Handed(it) ==> Down(it.c) !in log' && DestroyFn(it.c) !in [h] + rest && DestroyFn(it.c) !in back
    requires forall it <- rest :: Handed(it) ==> Down(it.c) !in log'
    ensures FunctorsFirst(front + rest + back, log')
  {
    var q, was := front + rest + back, [h] + rest;
    forall k | 0 <= k < |q| && Handed(q[k]) ensures Down(q[k].c) !in log' && forall j :: 0 <= j < k ==> q[j] != DestroyFn(q[k].c) {
      assert q[k] in front || q[k] in rest || q[k] in back;
      forall j | 0 <= j < k ensures q[j] != DestroyFn(q[k].c) {
        if j < |front| {
          assert q[j] in front;
        } else if k < |front| + |rest| {
          assert q[j] == was[j - |front| + 1] && q[k] == was[k - |front| + 1];
        } else if j < |front| + |rest| {
          assert q[k] in back && q[j] in was;
        } else {
          assert q[k] in back && q[j] in back;
        }
      }
    }
  }

  lemma FirstQueue(q: seq<Item>, back: seq<Item>, log: seq<Mark>, log': seq<Mark>)
    requires FunctorsFirst(q, log)
    requires forall it <- back :: Handed(it) ==> Down(it.c) !in log' && DestroyFn(it.c) !in q && DestroyFn(it.c) !in back
    requires forall it <- q :: Handed(it) ==> Down(it.c) !in log'
    ensures FunctorsFirst(q + back, log')
  {
    assert FunctorsFirst([Posted] + q, log) by {
      assert forall k :: 1 <= k < |[Posted] + q| ==> ([Posted] + q)[k] == q[k - 1];
    }
    FirstAdvance([], Posted, q, back, log, log');
    assert [] + q + back == q + back;
  }

  lemma FirstAfterAdvance(s: Sys, s': Sys, i: LoopId, front: seq<Item>, l: LoopId, back: seq<Item>, j: LoopId)
    requires Inv(s) && i < |s.loops| && l < |s.loops| && j < |s.loops| && s.loops[i].now != []
    requires FunctorsFirst(Todo(s, j), s.log) && s'.loops == Advance(s.loops, i, front, l, back)
    requires forall it <- front :: !it.DestroyFn? && (Handed(it) ==> it.c in s.entries && Down(it.c) !in s'.log)
    requires forall it <- back :: Handed(it) ==> it.c in s.entries && Down(it.c) !in s'.log && DestroyFn(it.c) !in back
    requires forall k :: (if j == i then 1 else 0) <= k < |Todo(s, j)| && Handed(Todo(s, j)[k]) ==> Down(Todo(s, j)[k].c) !in s'.log
    ensures FunctorsFirst(Todo(s', j), s'.log)
  {
    AdvanceTodo(s.loops, i, front, l, back, j);
    var q := Todo(s, j);
    var tail := if j == l then back else [];
    forall it | it in tail && Handed(it) ensures DestroyFn(it.c) !in q {
      MapExcludesDestroy(s, it.c, j);
    }
    if j == i {
      assert q == [q[0]] + q[1..];
      FirstAdvance(front, q[0], q[1..], tail, s.log, s'.log);
    } else {
      FirstQueue(q, tail, s.log, s'.log);
    }
  }

  lemma RunFirst(s: Sys, i: LoopId, ch: Choice)
    requires Inv(s) && AllFirst(s) && RunEnabled(s, i, ch)
    ensures AllFirst(Exec(s, i, ch))
  {
    var s', p := Exec(s, i, ch), PlanOf(s, i, ch);
    PlanIsExec(s, i, ch);
    forall it | it in p.front || it in p.back
      ensures it.DestroyFn? ==> it !in p.front
      ensures Handed(it) ==> it.c in s.entries && Down(it.c) !in s'.log && DestroyFn(it.c) !in p.back
    {
      PlanItems(s, i, ch, it);
      if Handed(it) {
        if DestroyFn(it.c) in p.back {
          PlanItems(s, i, ch, DestroyFn(it.c));
        }
        MapExcludesDestroy(s, it.c, i);
      }
    }
    forall j | 0 <= j < |s'.loops| ensures FunctorsFirst(Todo(s', j), s'.log) {
      LogKeepsFunctors(s, i, ch, j);
      FirstAfterAdvance(s, s', i, p.front, p.l, p.back, j);
    }
  }

  /** When connectDestroyed runs, no functor of its connection is left anywhere. */
  lemma LogKeepsFunctors(s: Sys, i: LoopId, ch: Choice, j: LoopId)
    requires Inv(s) && AllFirst(s) && RunEnabled(s, i, ch) && j < |s.loops|
    ensures forall k :: (if j == i then 1 else 0) <= k < |Todo(s, j)| && Handed(Todo(s, j)[k])
              ==> Down(Todo(s, j)[k].c) !in Exec(s, i, ch).log
  {
    HeadOk(s, i);
    var q, h := Todo(s, j), s.loops[i].now[0];
    assert FunctorsFirst(q, s.log) && LoopInv(s, j);
    if h.DestroyFn? {
      DestroyFinds(s, i);
      forall k | (if j == i then 1 else 0) <= k < |q| && Handed(q[k]) ensures q[k].c != h.c {
        assert ItemOk(s, j, q[k]);
        assert j == i ==> q[0] == h;
      }
    }
  }

  /** Items put at the end of a list (a batch's end, a functor of a mapped connection). */
  lemma FirstAppend(s: Sys, q: seq<Item>, it: Item)
    requires FunctorsFirst(q, s.log) && (Handed(it) ==> Down(it.c) !in s.log && DestroyFn(it.c) !in q)
    ensures FunctorsFirst(q + [it], s.log)
  {
    var r := q + [it];
    forall j, k | 0 <= j < k < |r| && Handed(r[k]) ensures r[j] != DestroyFn(r[k].c) {
      assert r[j] == q[j];
    }
  }

  lemma UseFirst(s: Sys, onto: int, d: ConnId, call: Call)
    requires Inv(s) && Formed(s) && AllFirst(s) && d < |s.conns|
    requires 0 <= onto ==> onto < |s.loops| && s.loops[onto].now != []
                           && (s.loops[onto].now[0].Callback? || s.loops[onto].now[0].Posted?)
    ensures AllFirst(User(s, onto, Use(d, call)))
  {
    var s', f := User(s, onto, Use(d, call)), Functor(d, call);
    if Passes(s.conns[d], call) {
      assert ConnInv(s, d);
      forall j | 0 <= j < |s'.loops| ensures FunctorsFirst(Todo(s', j), s'.log) {
        MapExcludesDestroy(s, d, j);
        assert FunctorsFirst(Todo(s, j), s.log);
        if s.home[d] == onto {
          var front := [Calling(d, call), Guard(d), s.loops[onto].now[0]];
          FirstAfterAdvance(s, s', onto, front, onto, [], j);
        } else if j == s.home[d] {
          FirstAppend(s, Todo(s, j), f);
          assert Todo(s', j) == Todo(s, j) + [f];
        } else {
          assert Todo(s', j) == Todo(s, j);
        }
      }
    }
  }

  lemma UserFirst(s: Sys, onto: int, act: Act)
    requires Inv(s) && Formed(s) && AllFirst(s)
    requires 0 <= onto ==> Enabled(s, UserOnLoop(onto, act))
    requires onto < 0 ==> Enabled(s, UserElsewhere(act))
    ensures AllFirst(User(s, onto, act))
  {
    var s' := User(s, onto, act);
    if act.Use? {
      UseFirst(s, onto, act.d, act.call);
    } else {
      forall j | 0 <= j < |s'.loops| ensures FunctorsFirst(Todo(s', j), s'.log) {
        assert FunctorsFirst(Todo(s, j), s.log);
        if act.Stop? && onto == 0 {
          FirstAfterAdvance(s, s', 0, [StopFn, s.loops[0].now[0]], 0, [], j);
        } else if act.Stop? && j == 0 {
          FirstAppend(s, Todo(s, j), StopFn);
          assert Todo(s', j) == Todo(s, j) + [StopFn];
        } else if act.Post? && j == act.l {
          FirstAppend(s, Todo(s, j), Posted);
          assert Todo(s', j) == Todo(s, j) + [Posted];
        } else {
          assert Todo(s', j) == Todo(s, j);
        }
      }
    }
  }

  lemma FirstPrepend(active: seq<Item>, q: seq<Item>, log: seq<Mark>)
    requires FunctorsFirst(q, log)
    requires forall k :: 0 <= k < |active| ==> !Handed(active[k]) && !active[k].DestroyFn?
    ensures FunctorsFirst(active + q, log)
  {
    var r := active + q;
    assert forall k :: 0 <= k < |active| ==> r[k] == active[k];
    assert forall k :: |active| <= k < |r| ==> r[k] == q[k - |active|];
  }

  lemma PollFirst(s: Sys, i: LoopId, active: seq<Item>)
    requires Inv(s) && AllFirst(s) && Enabled(s, Poll(i, active))
    ensures AllFirst(Next(s, Poll(i, active)))
  {
    var s' := Next(s, Poll(i, active));
    forall k | 0 <= k < |active| ensures !Handed(active[k]) && !active[k].DestroyFn? {
      assert Polled(s, i, active[k]);
    }
    forall j | 0 <= j < |s'.loops| ensures FunctorsFirst(Todo(s', j), s'.log) {
      PollTodo(s, i, active, j);
      if j == i {
        FirstPrepend(active, Todo(s, j), s.log);
      }
    }
  }

  lemma StepFirst(s: Sys, e: Event)
    requires Inv(s) && AllFirst(s) && Enabled(s, e)
    ensures AllFirst(Next(s, e))
  {
    match e
    case Poll(i, active) => PollFirst(s, i, active);
    case Swap(i) =>
      var s' := Next(s, e);
      var end := BatchEnd(BatchRefs(s.loops[i].pending));
      forall j | 0 <= j < |s'.loops| ensures FunctorsFirst(Todo(s', j), s'.log) {
        assert FunctorsFirst(Todo(s, j), s.log);
        FirstAppend(s, Todo(s, j), end);
        SwapTodo(s, i, j);
      }
    case Run(i, ch) => RunFirst(s, i, ch);
    case UserOnLoop(i, act) => UserFirst(s, i, act);
    case UserElsewhere(act) => UserFirst(s, -1, act);
  }

  lemma {:induction false} LeadsFirst(s: Sys, es: seq<Event>, t: Sys)
    requires Inv(s) && AllFirst(s) && Leads(s, es, t)
    ensures AllFirst(t)
    decreases |es|
  {
    if es != [] {
      InvStep(s, es[0]);
      StepFirst(s, es[0]);
      LeadsFirst(Next(s, es[0]), es[1..], t);
    }
  }

  /** The functors that send, shutdown and forceClose hand to the connection's loop run before
      connectDestroyed, in every run: wherever one waits, connectDestroyed has not run and is
      not ahead of it; if the map has let go of the connection, it is waiting further back. */
  lemma FunctorsPrecedeDestroy(t: Sys, i: LoopId, k: nat)
    requires Reachable(t) && i < |t.loops| && k < |Todo(t, i)| && Handed(Todo(t, i)[k])
    ensures var c := Todo(t, i)[k].c;
            && c < |t.home| && t.home[c] == i && Alive(t, c)
            && Down(c) !in t.log && DestroyFn(c) !in Todo(t, i)[..k]
            && (c !in t.entries <==> DestroyFn(c) in Todo(t, i)[k + 1..])
  {
    InvReachable(t);
    var s, es :| Initial(s) && Leads(s, es, t);
    InvInitial(s);
    LeadsFirst(s, es, t);
    FunctorPlaced(t, i, k);
  }

  lemma FunctorPlaced(t: Sys, i: LoopId, k: nat)
    requires Inv(t) && AllFirst(t) && i < |t.loops| && k < |Todo(t, i)| && Handed(Todo(t, i)[k])
    ensures var c := Todo(t, i)[k].c;
            && c < |t.home| && t.home[c] == i && Alive(t, c)
            && Down(c) !in t.log && DestroyFn(c) !in Todo(t, i)[..k]
            && (c !in t.entries <==> DestroyFn(c) in Todo(t, i)[k + 1..])
  {
    assert LoopInv(t, i) && FunctorsFirst(Todo(t, i), t.log);
    var q, c := Todo(t, i), Todo(t, i)[k].c;
    assert ItemOk(t, i, q[k]);
    if c in t.entries {
      MapExcludesDestroy(t, c, i);
    } else {
      RemovedHasDestroy(t, c);
      var m :| 0 <= m < |q| && q[m] == DestroyFn(c);
      assert q[k + 1..][m - k - 1] == q[m];
      assert c in Refs(q[m]);
    }
  }

  lemma RemovedHasDestroy(t: Sys, c: ConnId)
    requires Inv(t) && c < |t.conns| && c !in t.entries && Down(c) !in t.log
    ensures DestroyFn(c) in Todo(t, t.home[c])
  {
    assert ConnInv(t, c);
    MarksIn(t.log, Down(c));
    CountZeroOrIn(Todo(t, t.home[c]), DestroyFn(c));
  }
}
