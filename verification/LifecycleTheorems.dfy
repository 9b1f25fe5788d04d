/** What holds in every run of the Lifecycle machine. */
module LifecycleTheorems {
  import opened Connection
  import opened Channels
  import opened Lifecycle
  import opened LifecycleInvariant
  import opened LifecycleSteps
  import opened Pollers

  /** No raw pointer is used after the connection is gone: whatever a loop still has to
      execute through a raw pointer finds the connection alive.  The one exception is a
      channel event of a connection that was already destroyed, and that needs a queued
      send which switched write interest back on after the close. */
  lemma RawItemsAlive(t: Sys, i: LoopId, k: nat)
    requires Reachable(t) && i < |t.loops| && k < |Todo(t, i)| && Raw(Todo(t, i)[k])
    ensures var it := Todo(t, i)[k];
            Alive(t, it.c) || (it.Chan? && Down(it.c) in t.log && it.c in t.rearmed)
  {
    InvReachable(t);
    assert LoopInv(t, i);
    var q := Todo(t, i);
    assert ItemOk(t, i, q[k]);
    if Needs(q[k], t.log) {
      assert Held(q, k, t.entries);
    }
  }

  /** So as long as no send re-arms a closed connection, no step uses a freed one. */
  lemma NeverDangling(t: Sys, i: LoopId)
    requires Reachable(t) && i < |t.loops| && t.rearmed == {}
    ensures !ConnDangling(t, i)
  {
    if t.loops[i].now != [] && Raw(t.loops[i].now[0]) {
      assert t.loops[i].now[0] == Todo(t, i)[0];
      RawItemsAlive(t, i, 0);
    }
  }

  /** connectEstablished and connectDestroyed: each at most once per connection, in that order. */
  lemma OnceAndInOrder(t: Sys)
    requires Reachable(t)
    ensures forall j, k :: 0 <= j < k < |t.log| ==> t.log[j] != t.log[k]
    ensures forall k :: 0 <= k < |t.log| && t.log[k].Down? ==> exists j :: 0 <= j < k && t.log[j] == Up(t.log[k].c)
  {
    InvReachable(t);
    forall j, k | 0 <= j < k < |t.log| ensures t.log[j] != t.log[k] {
      var m := t.log[j];
      assert m in t.log;
      assert ConnInv(t, m.c);
      if t.log[k] == m {
        MarkedTwice(t.log, j, k);
      }
    }
    forall k | 0 <= k < |t.log| && t.log[k].Down? ensures exists j :: 0 <= j < k && t.log[j] == Up(t.log[k].c) {
      assert Up(t.log[k].c) in t.log[..k];
    }
  }

  lemma MarkedTwice(log: seq<Mark>, j: nat, k: nat)
    requires j < k < |log| && log[j] == log[k]
    ensures Marks(log, log[j]) >= 2
  {
    var m := log[j];
    assert log == log[..j] + [m] + log[j + 1..k] + [m] + log[k + 1..];
    assert multiset(log) == multiset(log[..j]) + multiset{m} + multiset(log[j + 1..k]) + multiset{m} + multiset(log[k + 1..]);
  }

  /** The assertions of the source hold: connectEstablished finds Connecting; connectDestroyed
      finds Disconnected (so its Connected branch is dead); a connection is freed only when
      Disconnected, established and destroyed. */
  lemma AssertionsHold(t: Sys, i: LoopId)
    requires Reachable(t) && i < |t.loops| && t.loops[i].now != []
    ensures var it := t.loops[i].now[0];
            && (it.EstablishFn? ==> it.c < |t.conns| && t.conns[it.c].state == Connecting)
            && (it.DestroyFn? ==> it.c < |t.conns| && t.conns[it.c].state == Disconnected && it.c !in t.entries)
            && !it.DestroyTail?
  {
    InvReachable(t);
    HeadOk(t, i);
    if t.loops[i].now[0].EstablishFn? {
      EstablishFinds(t, i);
    } else if t.loops[i].now[0].DestroyFn? {
      DestroyFinds(t, i);
    }
  }

  lemma FreedAfterDestroy(t: Sys, c: ConnId)
    requires Reachable(t) && c < |t.conns| && !Alive(t, c)
    ensures t.conns[c].state == Disconnected && Up(c) in t.log && Down(c) in t.log
  {
    InvReachable(t);
    assert ConnInv(t, c);
    var q := Todo(t, t.home[c]);
    CountZeroOrIn(q, DestroyFn(c));
    MarksIn(t.log, Down(c));
  }

  /** connections_ holds exactly the connections whose removal has not begun: a removed
      one has its single DestroyFn queued on its own loop or already run. */
  lemma MapIsUndestroyed(t: Sys, c: ConnId)
    requires Reachable(t) && c < |t.conns|
    ensures c < |t.home| && t.home[c] < |t.loops|
    ensures c !in t.entries <==> (DestroyFn(c) in Todo(t, t.home[c]) || Down(c) in t.log)
    ensures t.conns[c].state != Disconnected ==> c in t.entries
    ensures Count(Todo(t, t.home[c]), DestroyFn(c)) + Marks(t.log, Down(c)) <= 1
  {
    InvReachable(t);
    assert ConnInv(t, c);
    CountZeroOrIn(Todo(t, t.home[c]), DestroyFn(c));
    MarksIn(t.log, Down(c));
    if DestroyFn(c) in Todo(t, t.home[c]) {
      assert DestroyFn(c) in multiset(Todo(t, t.home[c]));
    }
  }

  /** While a connection is up it is in the map, alive, tied to its channel and registered
      for reading on its loop. */
  lemma UpConnectionsListen(t: Sys, c: ConnId)
    requires Reachable(t) && c < |t.conns| && (t.conns[c].state == Connected || t.conns[c].state == Disconnecting)
    ensures c in t.entries && Alive(t, c) && t.conns[c].tied && t.conns[c].reading && Up(c) in t.log && Down(c) !in t.log
    ensures c < |t.home| && t.home[c] < |t.loops| && Polled(t, t.home[c], Chan(c))
  {
    InvReachable(t);
    assert ConnInv(t, c);
    MarksIn(t.log, Down(c));
  }

  // ----- single steps -----

  /** state_ only moves forward, and a connection never changes loop. */
  lemma StateMovesForward(t: Sys, e: Event, c: ConnId)
    requires Reachable(t) && Enabled(t, e) && c < |t.conns|
    ensures Forward(t, Next(t, e), c)
  {
    InvReachable(t);
    match e
    case Run(i, ch) => RunForward(t, i, ch, c);
    case UserOnLoop(i, act) => UserForward(t, i, act, c);
    case UserElsewhere(act) => UserForward(t, -1, act, c);
    case _ =>
  }

  lemma RunForward(t: Sys, i: LoopId, ch: Choice, c: ConnId)
    requires Inv(t) && RunEnabled(t, i, ch) && c < |t.conns|
    ensures Forward(t, Exec(t, i, ch), c)
  {
    HeadOk(t, i);
    match t.loops[i].now[0]
    case Accept => AcceptForward(t, i, ch, c);
    case Stopping(_, _) => StoppingForward(t, i, ch, c);
    case EstablishFn(_) => OneForward(t, i, ch, c);
    case DestroyFn(_) => OneForward(t, i, ch, c);
    case CloseFn(_) => OneForward(t, i, ch, c);
    case ForceFn(_) => OneForward(t, i, ch, c);
    case Calling(_, _) => OneForward(t, i, ch, c);
    case SendFn(_, _) => OneForward(t, i, ch, c);
    case WriteFn(_) => OneForward(t, i, ch, c);
    case ShutdownFn(_) => OneForward(t, i, ch, c);
    case _ =>
  }

  lemma UserForward(t: Sys, onto: int, act: Act, c: ConnId)
    requires Inv(t) && Formed(t) && c < |t.conns|
    requires 0 <= onto ==> Enabled(t, UserOnLoop(onto, act))
    requires onto < 0 ==> Enabled(t, UserElsewhere(act))
    ensures Forward(t, User(t, onto, act), c)
  {
  }

  ghost predicate Forward(s: Sys, s': Sys, c: ConnId) {
    && c < |s.conns| && c < |s'.conns| && c < |s.home| && c < |s'.home| && s'.home[c] == s.home[c]
    && Rank(s.conns[c].state) <= Rank(s'.conns[c].state)
  }

  lemma AcceptForward(t: Sys, i: LoopId, ch: Choice, c: ConnId)
    requires Inv(t) && RunEnabled(t, i, ch) && c < |t.conns| && t.loops[i].now[0].Accept?
    ensures Forward(t, Exec(t, i, ch), c)
  {
  }

  lemma StoppingForward(t: Sys, i: LoopId, ch: Choice, c: ConnId)
    requires Inv(t) && RunEnabled(t, i, ch) && c < |t.conns| && t.loops[i].now[0].Stopping?
    ensures Forward(t, Exec(t, i, ch), c)
  {
    HeadOk(t, i);
    var rest := t.loops[i].now[0].rest;
    assert rest != [] ==> rest[0] in rest;
  }

  lemma OneForward(t: Sys, i: LoopId, ch: Choice, c: ConnId)
    requires Inv(t) && RunEnabled(t, i, ch) && c < |t.conns|
    requires var it := t.loops[i].now[0];
             it.EstablishFn? || it.DestroyFn? || it.CloseFn? || Handed(it) || it.WriteFn?
    ensures Forward(t, Exec(t, i, ch), c)
  {
    if t.loops[i].now[0].EstablishFn? {
      EstablishFinds(t, i);
    }
  }

  lemma AdvanceAlive(s: Sys, s': Sys, i: LoopId, front: seq<Item>, l: LoopId, back: seq<Item>, c: ConnId)
    requires i < |s.loops| && l < |s.loops| && s.loops[i].now != []
    requires s'.loops == Advance(s.loops, i, front, l, back) && s'.held == s.held
    requires c in s'.entries ==> c in s.entries
    requires forall it :: (it in front || it in back) && c in Refs(it) ==> Alive(s, c)
    ensures Alive(s', c) ==> Alive(s, c)
  {
    if Alive(s', c) && c !in s'.entries && c !in s'.held {
      var j, k :| 0 <= j < |s'.loops| && 0 <= k < |Todo(s', j)| && c in Refs(Todo(s', j)[k]);
      AdvanceOrigin(s, s', i, front, l, back, j, Todo(s', j)[k]);
    }
  }

  /** A connection whose last shared_ptr is gone stays gone. */
  lemma NoResurrection(t: Sys, e: Event, c: ConnId)
    requires Reachable(t) && Enabled(t, e) && c < |t.conns| && !Alive(t, c)
    ensures !Alive(Next(t, e), c)
  {
    InvReachable(t);
    match e
    case Run(i, ch) => NoResurrectionRun(t, i, ch, c);
    case Poll(i, active) =>
      var t' := Next(t, e);
      assert Todo(t', i) == active + Todo(t, i);
      forall j, k | 0 <= j < |t'.loops| && 0 <= k < |Todo(t', j)| ensures c !in Refs(Todo(t', j)[k]) {
        if j != i {
          assert Todo(t', j)[k] == Todo(t, j)[k];
        } else if k < |active| {
          assert Polled(t, i, active[k]);
        } else {
          assert Todo(t', j)[k] == Todo(t, i)[k - |active|];
        }
      }
    case Swap(i) =>
      var t' := Next(t, e);
      var batch := t.loops[i].pending;
      assert Todo(t, i) == batch && Todo(t', i) == batch + [BatchEnd(BatchRefs(batch))];
      assert c !in BatchRefs(batch) by {
        forall m | 0 <= m < |batch| ensures c !in Refs(batch[m]) {
          assert batch[m] == Todo(t, i)[m];
        }
      }
      forall j, k | 0 <= j < |t'.loops| && 0 <= k < |Todo(t', j)| ensures c !in Refs(Todo(t', j)[k]) {
        if j != i {
          assert Todo(t', j)[k] == Todo(t, j)[k];
        } else if k < |batch| {
          assert Todo(t', j)[k] == Todo(t, i)[k];
        }
      }
    case UserOnLoop(i, act) => NoResurrectionUser(t, i, act, c);
    case UserElsewhere(act) => NoResurrectionUser(t, -1, act, c);
  }

  /** Whatever executing an item passes on was alive before. */
  lemma NoResurrectionRun(t: Sys, i: LoopId, ch: Choice, c: ConnId)
    requires Inv(t) && RunEnabled(t, i, ch) && c < |t.conns|
    ensures Alive(Exec(t, i, ch), c) ==> Alive(t, c)
  {
    var t', p := Exec(t, i, ch), PlanOf(t, i, ch);
    PlanIsExec(t, i, ch);
    forall it | (it in p.front || it in p.back) && c in Refs(it) ensures Alive(t, c) {
      PlanRefs(t, i, ch, it, c);
    }
    AdvanceAlive(t, t', i, p.front, p.l, p.back, c);
  }

  lemma NoResurrectionUser(t: Sys, onto: int, act: Act, c: ConnId)
    requires Inv(t) && Formed(t) && c < |t.conns| && !Alive(t, c)
    requires 0 <= onto ==> Enabled(t, UserOnLoop(onto, act))
    requires onto < 0 ==> Enabled(t, UserElsewhere(act))
    ensures !Alive(User(t, onto, act), c)
  {
    var t' := User(t, onto, act);
    if 0 <= onto {
      assert t.loops[onto].now[0] == Todo(t, onto)[0];
    }
    match act
    case Use(d, call) =>
      if Passes(t.conns[d], call) {
        if t.home[d] == onto {
          AdvanceAlive(t, t', onto, [Calling(d, call), Guard(d), t.loops[onto].now[0]], onto, [], c);
        } else {
          QueueAlive(t, t', t.home[d], Functor(d, call), c);
        }
      }
    case Keep(d) => SameListsAlive(t, t', c);
    case Drop(d) => SameListsAlive(t, t', c);
    case Post(l) => QueueAlive(t, t', l, Posted, c);
    case Stop =>
      if onto == 0 {
        AdvanceAlive(t, t', 0, [StopFn, t.loops[0].now[0]], 0, [], c);
      } else {
        QueueAlive(t, t', 0, StopFn, c);
      }
  }

  lemma QueueAlive(s: Sys, s': Sys, l: LoopId, it: Item, c: ConnId)
    requires l < |s.loops| && s'.loops == Queue(s.loops, l, [it]) && s'.entries == s.entries && s'.held == s.held
    requires c !in Refs(it) && !Alive(s, c)
    ensures !Alive(s', c)
  {
    forall j, k | 0 <= j < |s'.loops| && 0 <= k < |Todo(s', j)| ensures c !in Refs(Todo(s', j)[k]) {
      if k < |Todo(s, j)| {
        assert Todo(s', j)[k] == Todo(s, j)[k];
      } else {
        assert Todo(s', j)[k] == it;
      }
    }
  }

  lemma SameListsAlive(s: Sys, s': Sys, c: ConnId)
    requires s' == s.(held := s'.held) && c !in s'.held && !Alive(s, c)
    ensures !Alive(s', c)
  {
    forall j, k | 0 <= j < |s'.loops| && 0 <= k < |Todo(s', j)| ensures c !in Refs(Todo(s', j)[k]) {
      assert Todo(s', j)[k] == Todo(s, j)[k];
    }
  }

  // ----- the exception -----

  lemma {:induction false} LeadsThen(s: Sys, es: seq<Event>, t: Sys, e: Event)
    requires Leads(s, es, t) && Enabled(t, e)
    ensures Leads(s, es + [e], Next(t, e))
    decreases |es|
  {
    if es == [] {
      assert Leads(Next(t, e), [], Next(t, e));
      assert ([e])[1..] == [];
    } else {
      LeadsThen(Next(s, es[0]), es[1..], t, e);
      assert (es + [e])[1..] == es[1..] + [e];
    }
  }

  lemma ReachableThen(t: Sys, e: Event)
    requires Reachable(t) && Enabled(t, e)
    ensures Reachable(Next(t, e))
  {
    var s, es :| Initial(s) && Leads(s, es, t);
    LeadsThen(s, es, t, e);
  }

  /** The application lets go of `c` altogether. */
  lemma {:induction false} DropAll(t: Sys, c: ConnId)
    requires Reachable(t)
    ensures Reachable(t.(held := t.held[c := 0]))
    decreases t.held[c]
  {
    InvReachable(t);
    InvFormed(t);
    if c in t.held {
      var e := UserElsewhere(Drop(c));
      ReachableThen(t, e);
      var t' := Next(t, e);
      DropAll(t', c);
      assert t'.held[c := 0] == t.held[c := 0];
    } else {
      assert t.held[c := 0] == t.held;
    }
  }

  /** Exactly when polling a channel is unsafe: the application can make loop `i` use the
      channel of a freed connection during this dispatch, just by letting its own
      references go, if and only if connectDestroyed has already run and no queued or
      running item holds the connection any more. */
  lemma PolledChannelDanglesIff(t: Sys, i: LoopId, c: ConnId)
    requires Reachable(t) && Enabled(t, Poll(i, [Chan(c)]))
    ensures var u := Next(t, Poll(i, [Chan(c)]));
            var v := u.(held := u.held[c := 0]);
            && Reachable(v)
            && (ConnDangling(v, i) <==>
                  Down(c) in t.log && forall j, k :: 0 <= j < |t.loops| && 0 <= k < |Todo(t, j)| ==> c !in Refs(Todo(t, j)[k]))
  {
    assert Polled(t, i, [Chan(c)][0]);
    ReachableThen(t, Poll(i, [Chan(c)]));
    var u := Next(t, Poll(i, [Chan(c)]));
    DropAll(u, c);
    var v := u.(held := u.held[c := 0]);
    if ConnDangling(v, i) {
      FreedAfterDestroy(v, c);
    } else if Down(c) in t.log {
      MapIsUndestroyed(t, c);
    }
    PolledRefs(t, v, i, c);
  }

  /** The polled channel itself holds nothing. */
  lemma PolledRefs(t: Sys, v: Sys, i: LoopId, c: ConnId)
    requires i < |t.loops| && t.loops[i].now == []
    requires v.loops == t.loops[i := Loop(true, [Chan(c)], t.loops[i].pending)]
    requires c !in v.held
    ensures Alive(v, c) <==>
              c in v.entries || exists j, k :: 0 <= j < |t.loops| && 0 <= k < |Todo(t, j)| && c in Refs(Todo(t, j)[k])
  {
    assert Todo(v, i) == [Chan(c)] + Todo(t, i);
    if j, k :| 0 <= j < |v.loops| && 0 <= k < |Todo(v, j)| && c in Refs(Todo(v, j)[k]) {
      assert c in Refs(Todo(t, j)[if j == i then k - 1 else k]);
    }
    if j, k :| 0 <= j < |t.loops| && 0 <= k < |Todo(t, j)| && c in Refs(Todo(t, j)[k]) {
      assert c in Refs(Todo(v, j)[if j == i then k + 1 else k]);
    }
  }

  // ----- a run that meets the exception -----

  const QUIET := Choice(0, Revents(false, false, false, false), WouldBlock, ReadError)
  const OPEN := Conn(Connected, true, false, true, Filters(true, false), [], [], 0)
  const CLOSING := OPEN.(state := Disconnecting)
  const CLOSED := Conn(Disconnected, false, false, true, NO_FILTERS, [], [], 0)
  const ARMED := CLOSED.(output := [0], writing := true)

  /** A server with one loop and one connection, part way through a run: the loop, the
      connection, whether the map has it, how often it is held, log and rearmed. */
  function Scene(dispatching: bool, now: seq<Item>, pending: seq<Item>, conn: Conn, entered: bool, held: nat,
                 log: seq<Mark>, rearmed: bool): Sys
  {
    Sys([Loop(dispatching, now, pending)], [conn], [0], if entered then {0} else {}, multiset{}[0 := held], log,
        if rearmed then {0} else {}, true)
  }

  /** Equality of two scenes, part by part. */
  ghost predicate Same(x: Sys, t: Sys) {
    && |x.loops| == |t.loops| == 1 && |x.conns| == |t.conns| == 1
    && x.loops[0].dispatching == t.loops[0].dispatching
    && x.loops[0].now == t.loops[0].now && x.loops[0].pending == t.loops[0].pending
    && x.conns[0] == t.conns[0]
    && x.home == t.home && x.entries == t.entries && x.held == t.held && x.log == t.log && x.rearmed == t.rearmed && x.acceptor == t.acceptor
  }

  lemma SameIsEqual(x: Sys, t: Sys)
    requires Same(x, t)
    ensures x == t
  {
    assert x.loops == [t.loops[0]] == t.loops;
    assert x.conns == [t.conns[0]] == t.conns;
  }

  /** The first item of a scene executes, leading to `t`. */
  lemma SceneRuns(s: Sys, t: Sys)
    requires Reachable(s) && |s.loops| == 1 && s.loops[0].now != []
    requires var h := s.loops[0].now[0]; !h.WriteFn? && (Raw(h) ==> h.c in s.held) && (UsesAcceptor(h) ==> s.acceptor)
    requires forall u :: u == QUIET && RunEnabled(s, 0, u) ==> Same(Exec(s, 0, u), t)
    ensures Reachable(t)
  {
    InvReachable(s);
    InvFormed(s);
    assert s.loops[0].now[0] == Todo(s, 0)[0];
    assert Enabled(s, Run(0, QUIET));
    ReachableThen(s, Run(0, QUIET));
    SameIsEqual(Next(s, Run(0, QUIET)), t);
  }

  lemma ScenePops(d: bool, h: Item, rest: seq<Item>, q: seq<Item>, conn: Conn, entered: bool, held: nat, log: seq<Mark>, r: bool)
    requires h.Callback? || h.Guard? || h.BatchEnd? || h.AcceptTail?
    requires Reachable(Scene(d, [h] + rest, q, conn, entered, held, log, r))
    ensures Reachable(Scene(d, rest, q, conn, entered, held, log, r))
  {
    assert ([h] + rest)[1..] == rest && [] + rest == rest && q + [] == q;
    SceneRuns(Scene(d, [h] + rest, q, conn, entered, held, log, r), Scene(d, rest, q, conn, entered, held, log, r));
  }

  lemma SceneStarts()
    ensures Reachable(Sys([Loop(true, [Accept], [])], [], [], {}, multiset{}, [], {}, true))
  {
    var s0 := Sys([Loop(false, [], [])], [], [], {}, multiset{}, [], {}, true);
    assert Initial(s0) && Leads(s0, [], s0);
    ReachableThen(s0, Poll(0, [Accept]));
    assert Next(s0, Poll(0, [Accept])) == Sys([Loop(true, [Accept], [])], [], [], {}, multiset{}, [], {}, true);
  }

  lemma SceneAccepts()
    ensures Reachable(Scene(true, [EstablishFn(0), AcceptTail], [], FRESH, true, 0, [], false))
  {
    SceneStarts();
    SceneRuns(Sys([Loop(true, [Accept], [])], [], [], {}, multiset{}, [], {}, true),
              Scene(true, [EstablishFn(0), AcceptTail], [], FRESH, true, 0, [], false));
  }

  lemma SceneEstablishes()
    ensures Reachable(Scene(true, [Callback(0), AcceptTail], [], OPEN, true, 0, [Up(0)], false))
  {
    SceneAccepts();
    SceneRuns(Scene(true, [EstablishFn(0), AcceptTail], [], FRESH, true, 0, [], false), Scene(true, [Callback(0), AcceptTail], [], OPEN, true, 0, [Up(0)], false));
  }

  lemma SceneUser(s: Sys, e: Event, t: Sys)
    requires Reachable(s) && (e.UserOnLoop? || e.UserElsewhere?)
    requires forall e' :: e' == e && Formed(s) ==> Enabled(s, e') && Same(Next(s, e'), t)
    ensures Reachable(t)
  {
    InvReachable(s);
    InvFormed(s);
    ReachableThen(s, e);
    SameIsEqual(Next(s, e), t);
  }

  /** In its callback the application keeps a reference. */
  lemma SceneKeeps()
    ensures Reachable(Scene(true, [Callback(0), AcceptTail], [], OPEN, true, 1, [Up(0)], false))
  {
    SceneEstablishes();
    SceneUser(Scene(true, [Callback(0), AcceptTail], [], OPEN, true, 0, [Up(0)], false), UserOnLoop(0, Keep(0)),
              Scene(true, [Callback(0), AcceptTail], [], OPEN, true, 1, [Up(0)], false));
  }

  /** Another thread sends one byte. */
  lemma SceneSends()
    ensures Reachable(Scene(true, [Callback(0), AcceptTail], [SendFn(0, [0])], OPEN, true, 1, [Up(0)], false))
  {
    SceneKeeps();
    SceneUser(Scene(true, [Callback(0), AcceptTail], [], OPEN, true, 1, [Up(0)], false), UserElsewhere(Use(0, CallSend([0]))),
              Scene(true, [Callback(0), AcceptTail], [SendFn(0, [0])], OPEN, true, 1, [Up(0)], false));
  }

  /** The callback force-closes. */
  lemma SceneForces()
    ensures Reachable(Scene(true, [Calling(0, CallForceClose), Guard(0), Callback(0), AcceptTail], [SendFn(0, [0])], CLOSING, true, 1, [Up(0)], false))
  {
    SceneSends();
    var q := [SendFn(0, [0])];
    assert q + [] == q;
    SceneUser(Scene(true, [Callback(0), AcceptTail], q, OPEN, true, 1, [Up(0)], false), UserOnLoop(0, Use(0, CallForceClose)),
              Scene(true, [Calling(0, CallForceClose), Guard(0), Callback(0), AcceptTail], q, CLOSING, true, 1, [Up(0)], false));
  }

  /** handleClose runs. */
  lemma SceneCloses()
    ensures Reachable(Scene(true, [CloseCallback(0), Guard(0), Callback(0), AcceptTail], [SendFn(0, [0])], CLOSED, true, 1, [Up(0)], false))
  {
    SceneForces();
    var q := [SendFn(0, [0])];
    var rest := [CloseCallback(0), Guard(0), Callback(0), AcceptTail];
    assert q + [] == q;
    SceneRuns(Scene(true, [Calling(0, CallForceClose), Guard(0), Callback(0), AcceptTail], q, CLOSING, true, 1, [Up(0)], false),
              Scene(true, [Callback(0)] + rest, q, CLOSED, true, 1, [Up(0)], false));
    ScenePops(true, Callback(0), rest, q, CLOSED, true, 1, [Up(0)], false);
  }

  /** The server removes the connection from its map. */
  lemma SceneRemoves()
    ensures Reachable(Scene(true, [Guard(0), Callback(0), AcceptTail], [SendFn(0, [0]), DestroyFn(0)], CLOSED, false, 1, [Up(0)], false))
  {
    SceneCloses();
    var q := [SendFn(0, [0])];
    assert q + [] == q && q + [DestroyFn(0)] == [SendFn(0, [0]), DestroyFn(0)];
    var t := Scene(true, [RemoveFn(0), Guard(0), Callback(0), AcceptTail], q, CLOSED, true, 1, [Up(0)], false);
    SceneRuns(Scene(true, [CloseCallback(0), Guard(0), Callback(0), AcceptTail], q, CLOSED, true, 1, [Up(0)], false), t);
    SceneRuns(t, Scene(true, [Guard(0), Callback(0), AcceptTail], [SendFn(0, [0]), DestroyFn(0)], CLOSED, false, 1, [Up(0)], false));
  }

  /** The dispatch ends. */
  lemma ScenePhaseEnds()
    ensures Reachable(Scene(true, [], [SendFn(0, [0]), DestroyFn(0)], CLOSED, false, 1, [Up(0)], false))
  {
    SceneRemoves();
    var q := [SendFn(0, [0]), DestroyFn(0)];
    var rest := [Callback(0), AcceptTail];
    assert [Guard(0)] + rest == [Guard(0), Callback(0), AcceptTail] && [Callback(0)] + [AcceptTail] == rest;
    assert [AcceptTail] + [] == [AcceptTail];
    ScenePops(true, Guard(0), rest, q, CLOSED, false, 1, [Up(0)], false);
    ScenePops(true, Callback(0), [AcceptTail], q, CLOSED, false, 1, [Up(0)], false);
    ScenePops(true, AcceptTail, [], q, CLOSED, false, 1, [Up(0)], false);
  }

  /** The batch with the send and connectDestroyed is swapped in. */
  lemma SceneSwaps()
    ensures Reachable(Scene(false, [SendFn(0, [0]), DestroyFn(0), BatchEnd({0})], [], CLOSED, false, 1, [Up(0)], false))
  {
    ScenePhaseEnds();
    var q := [SendFn(0, [0]), DestroyFn(0)];
    var s := Scene(true, [], q, CLOSED, false, 1, [Up(0)], false);
    InvReachable(s);
    InvFormed(s);
    ReachableThen(s, Swap(0));
    assert BatchRefs(q) == {0};
    SameIsEqual(Next(s, Swap(0)), Scene(false, q + [BatchEnd({0})], [], CLOSED, false, 1, [Up(0)], false));
    assert q + [BatchEnd({0})] == [SendFn(0, [0]), DestroyFn(0), BatchEnd({0})];
  }

  /** The late send arms the closed channel. */
  lemma SceneArms()
    ensures Reachable(Scene(false, [DestroyFn(0), BatchEnd({0})], [], ARMED, false, 1, [Up(0)], true))
  {
    SceneSwaps();
    SceneRuns(Scene(false, [SendFn(0, [0]), DestroyFn(0), BatchEnd({0})], [], CLOSED, false, 1, [Up(0)], false),
              Scene(false, [DestroyFn(0), BatchEnd({0})], [], ARMED, false, 1, [Up(0)], true));
  }

  /** connectDestroyed leaves it armed. */
  lemma SceneDestroys()
    ensures Reachable(Scene(false, [], [], ARMED, false, 1, [Up(0), Down(0)], true))
  {
    SceneArms();
    var t := Scene(false, [BatchEnd({0})] + [], [], ARMED, false, 1, [Up(0), Down(0)], true);
    SceneRuns(Scene(false, [DestroyFn(0), BatchEnd({0})], [], ARMED, false, 1, [Up(0)], true), t);
    ScenePops(false, BatchEnd({0}), [], [], ARMED, false, 1, [Up(0), Down(0)], true);
  }

  /** poll reports the channel, the application's last reference goes, and the dispatch
      uses a freed channel: the exception in RawItemsAlive is real. */
  lemma ReArmedChannelDangles()
    ensures exists t :: Reachable(t) && |t.loops| == 1 && ConnDangling(t, 0)
  {
    SceneDestroys();
    var s := Scene(false, [], [], ARMED, false, 1, [Up(0), Down(0)], true);
    InvReachable(s);
    InvFormed(s);
    assert Polled(s, 0, [Chan(0)][0]);
    PolledChannelDanglesIff(s, 0, 0);
  }
}
