/** Which items occur in which phase of a loop. */
module LifecyclePlaces {
  import opened Connection
  import opened Channels
  import opened Lifecycle
  import opened LifecycleInvariant
  import opened LifecycleSteps

  /** What a channel's event consists of: only the dispatch phase has it. */
  predicate OfDispatch(it: Item) {
    UsesAcceptor(it) || it.Chan? || it.WriteFn? || it.ReadFn? || it.CloseFn?
  }

  /** Channel events belong to the dispatch and queued functors to the functor phase; a call
      runs first of all, and so does a stop() made in a dispatch. */
  predicate Placed(l: Loop) {
    && (forall it <- l.now :: (OfDispatch(it) ==> l.dispatching) && (Waits(it) ==> !l.dispatching))
    && (forall k :: 1 <= k < |l.now| ==> !l.now[k].Calling? && (l.dispatching ==> !l.now[k].StopFn?))
    && (forall it <- l.pending :: !OfDispatch(it) && !it.Calling?)
  }

  ghost predicate AllPlaced(s: Sys) {
    forall j :: 0 <= j < |s.loops| ==> Placed(s.loops[j])
  }

  lemma PlacedAdvance(loops: seq<Loop>, i: LoopId, front: seq<Item>, l: LoopId, back: seq<Item>, j: LoopId)
    requires i < |loops| && l < |loops| && j < |loops| && loops[i].now != [] && Placed(loops[j])
    requires forall it <- front :: (OfDispatch(it) ==> loops[i].dispatching) && (Waits(it) ==> !loops[i].dispatching)
    requires forall k :: 1 <= k < |front| ==> !front[k].Calling? && !front[k].StopFn?
    requires forall it <- back :: !OfDispatch(it) && !it.Calling?
    ensures Placed(Advance(loops, i, front, l, back)[j])
  {
    var was, after := loops[j], Advance(loops, i, front, l, back)[j];
    assert after.pending == was.pending + if j == l then back else [];
    if j == i {
      assert after.now == front + was.now[1..];
      forall k | 1 <= k < |after.now| ensures !after.now[k].Calling? && (after.dispatching ==> !after.now[k].StopFn?) {
        assert after.now[k] == if k < |front| then front[k] else was.now[k - |front| + 1];
      }
    }
  }

  /** What a step puts in front suits the phase of the item it comes from. */
  lemma PlanPlaced(s: Sys, i: LoopId, ch: Choice)
    requires Inv(s) && RunEnabled(s, i, ch) && Placed(s.loops[i])
    ensures var p := PlanOf(s, i, ch);
            && (forall it <- p.front :: (OfDispatch(it) ==> s.loops[i].dispatching) && !Waits(it))
            && (forall k :: 1 <= k < |p.front| ==> !p.front[k].Calling?)
            && (forall it <- p.back :: !OfDispatch(it) && !it.Calling?)
  {
    var h := s.loops[i].now[0];
    assert h in s.loops[i].now;
    match h
    case Stopping(rest, _) => assert rest != [] ==> rest[0] in rest;
    case Chan(c) => ChannelPlaced(c, ch.revents);
    case _ =>
  }

  /** No step but a call of stop() leads to it, and only the acceptor's event to what is left
      of it. */
  lemma PlanAcceptor(s: Sys, i: LoopId, ch: Choice)
    requires Inv(s) && RunEnabled(s, i, ch)
    ensures forall it <- PlanOf(s, i, ch).front :: !it.StopFn? && (UsesAcceptor(it) ==> s.loops[i].now[0].Accept?)
  {
    match s.loops[i].now[0]
    case Chan(c) => ChannelPlaced(c, ch.revents);
    case Stopping(rest, _) => assert rest != [] ==> rest[0] in rest;
    case _ =>
  }

  lemma ChannelPlaced(c: ConnId, r: Revents)
    ensures var front := Calls(c, Fired(r, {OnError, OnClose, OnRead, OnWrite})) + [Guard(c)];
            forall it <- front :: !it.Calling? && !it.StopFn? && !Waits(it) && !UsesAcceptor(it)
  {
    var calls := Calls(c, Fired(r, {OnError, OnClose, OnRead, OnWrite}));
    forall it | it in calls + [Guard(c)] ensures !it.Calling? && !it.StopFn? && !Waits(it) && !UsesAcceptor(it) {
      assert it in calls || it == Guard(c);
    }
  }

  lemma RunPlaced(s: Sys, i: LoopId, ch: Choice)
    requires Inv(s) && RunEnabled(s, i, ch) && AllPlaced(s)
    ensures AllPlaced(Exec(s, i, ch))
  {
    var p := PlanOf(s, i, ch);
    PlanIsExec(s, i, ch);
    PlanPlaced(s, i, ch);
    PlanAcceptor(s, i, ch);
    forall j | 0 <= j < |s.loops| ensures Placed(Exec(s, i, ch).loops[j]) {
      PlacedAdvance(s.loops, i, p.front, p.l, p.back, j);
    }
  }

  lemma UserPlaced(s: Sys, onto: int, act: Act)
    requires Inv(s) && Formed(s) && AllPlaced(s)
    requires 0 <= onto ==> onto < |s.loops| && s.loops[onto].now != []
                           && (s.loops[onto].now[0].Callback? || s.loops[onto].now[0].Posted?)
    requires match act
             case Post(l) => l < |s.loops|
             case Stop => true
             case _ => act.d < |s.conns|
    ensures AllPlaced(User(s, onto, act))
  {
    var s' := User(s, onto, act);
    forall j | 0 <= j < |s'.loops| ensures Placed(s'.loops[j]) {
      assert Placed(s.loops[j]);
      if act.Use? && Passes(s.conns[act.d], act.call) && s.home[act.d] == onto {
        PlacedAdvance(s.loops, onto, [Calling(act.d, act.call), Guard(act.d), s.loops[onto].now[0]], onto, [], j);
      } else if act.Stop? && onto == 0 {
        PlacedAdvance(s.loops, 0, [StopFn, s.loops[0].now[0]], 0, [], j);
      }
    }
  }

  lemma StepPlaced(s: Sys, e: Event)
    requires Inv(s) && AllPlaced(s) && Enabled(s, e)
    ensures AllPlaced(Next(s, e))
  {
    match e
    case Run(i, ch) => RunPlaced(s, i, ch);
    case UserOnLoop(i, act) => UserPlaced(s, i, act);
    case UserElsewhere(act) => UserPlaced(s, -1, act);
    case Poll(i, active) =>
      assert forall k :: 0 <= k < |active| ==> Polled(s, i, active[k]);
      assert forall j :: 0 <= j < |s.loops| ==> Placed(s.loops[j]);
    case Swap(i) =>
      assert forall j :: 0 <= j < |s.loops| ==> Placed(s.loops[j]);
  }

  lemma {:induction false} LeadsPlaced(s: Sys, es: seq<Event>, t: Sys)
    requires Inv(s) && AllPlaced(s) && Leads(s, es, t)
    ensures AllPlaced(t)
    decreases |es|
  {
    if es != [] {
      InvStep(s, es[0]);
      StepPlaced(s, es[0]);
      LeadsPlaced(Next(s, es[0]), es[1..], t);
    }
  }

  /** In every run. */
  lemma PlacedReachable(t: Sys)
    requires Reachable(t)
    ensures AllPlaced(t)
  {
    var s, es :| Initial(s) && Leads(s, es, t);
    InvInitial(s);
    LeadsPlaced(s, es, t);
  }
}
