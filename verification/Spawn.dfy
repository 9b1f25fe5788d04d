/** Ownership of spawned coroutine frames: spawn(), SpawnTask's final suspension and
    EventLoop::cleanupSpawnedTask. */
module Spawning {

  type Handle = nat

  /** Fresh: suspended initially.  Live: running, on any thread.  Parked: suspended at an
      await.  Final: suspended finally. */
  datatype Frame = Fresh | Live | Parked | Final | Destroyed

  datatype Functor = Start(h: Handle) | Cleanup(h: Handle) | Other

  /** Frame `h` is `frames[h]`; `todo` is what the owning loop will run, in order;
      `registered` is spawnedTasks_.  `destroyed` is the history of destroy() calls, and
      `broken` records a resume of a frame that is not suspended or an early destroy. */
  datatype Spawns = Spawns(
    frames: seq<Frame>,
    registered: set<Handle>,
    todo: seq<Functor>,
    destroyed: seq<Handle>,
    broken: bool)

  /** Spawn: spawn() is called, on the loop thread or elsewhere.  Park, Resume and Finish
      happen on whatever thread runs the frame. */
  datatype Event = Spawn(onLoop: bool) | RunHead | Park(h: Handle) | Resume(h: Handle) | Finish(h: Handle) | Post

  const EMPTY := Spawns([], {}, [], [], false)

  predicate Enabled(s: Spawns, e: Event) {
    match e
    case Spawn(_) => true
    case RunHead => s.todo != [] && (s.todo[0].Other? || s.todo[0].h < |s.frames|)
    case Park(h) => h < |s.frames| && s.frames[h] == Live
    case Resume(h) => h < |s.frames| && s.frames[h] == Parked
    case Finish(h) => h < |s.frames| && s.frames[h] == Live
    case Post => true
  }

  /** The functor of EventLoop::spawn: register, then first resume. */
  function Started(s: Spawns, h: Handle): Spawns
    requires h < |s.frames|
  {
    s.(registered := s.registered + {h}, frames := s.frames[h := Live], broken := s.broken || s.frames[h] != Fresh)
  }

  /** cleanupSpawnedTask. */
  function CleanedUp(s: Spawns, h: Handle): Spawns
    requires h < |s.frames|
  {
    if h in s.registered then
      s.(registered := s.registered - {h}, frames := s.frames[h := Destroyed], destroyed := s.destroyed + [h],
         broken := s.broken || s.frames[h] != Final)
    else s
  }

  function Next(s: Spawns, e: Event): Spawns
    requires Enabled(s, e)
  {
    match e
    case Spawn(onLoop) =>
      var s1 := s.(frames := s.frames + [Fresh]);
      if onLoop then Started(s1, |s.frames|) else s1.(todo := s.todo + [Start(|s.frames|)])
    case RunHead =>
      var s1 := s.(todo := s.todo[1..]);
      (match s.todo[0]
       case Start(h) => Started(s1, h)
       case Cleanup(h) => CleanedUp(s1, h)
       case Other => s1)
    case Park(h) => s.(frames := s.frames[h := Parked])
    case Resume(h) => s.(frames := s.frames[h := Live])
    case Finish(h) => s.(frames := s.frames[h := Final], todo := s.todo + [Cleanup(h)])
    case Post => s.(todo := s.todo + [Other])
  }

  ghost predicate Leads(s: Spawns, es: seq<Event>, t: Spawns)
    decreases |es|
  {
    if es == [] then s == t else Enabled(s, es[0]) && Leads(Next(s, es[0]), es[1..], t)
  }

  function Count<T(==)>(q: seq<T>, x: T): nat { multiset(q)[x] }

  /** What the loop's queue, the registry and the history say about frame `h`. */
  predicate FrameOk(s: Spawns, h: Handle)
    requires h < |s.frames|
  {
    var f := s.frames[h];
    && Count(s.todo, Start(h)) == (if f.Fresh? then 1 else 0)
    && Count(s.todo, Cleanup(h)) == (if f.Final? then 1 else 0)
    && Count(s.destroyed, h) == (if f.Destroyed? then 1 else 0)
    && (h in s.registered <==> f.Live? || f.Parked? || f.Final?)
  }

  ghost predicate Inv(s: Spawns) {
    && !s.broken
    && (forall h :: 0 <= h < |s.frames| ==> FrameOk(s, h))
    && (forall h <- s.registered :: h < |s.frames|)
    && (forall f <- s.todo :: f.Other? || f.h < |s.frames|)
    && (forall h <- s.destroyed :: h < |s.frames|)
  }

  lemma CountAppend<T>(q: seq<T>, x: T, y: T)
    ensures Count(q + [x], y) == Count(q, y) + (if x == y then 1 else 0)
  {
    assert multiset(q + [x]) == multiset(q) + multiset([x]);
  }

  lemma CountTail<T>(q: seq<T>, y: T)
    requires q != []
    ensures Count(q, y) == Count(q[1..], y) + (if q[0] == y then 1 else 0)
  {
    assert q == [q[0]] + q[1..];
    assert multiset(q) == multiset([q[0]]) + multiset(q[1..]);
  }

  lemma CountNone<T>(q: seq<T>, y: T)
    requires y !in q
    ensures Count(q, y) == 0
  {
    assert y !in multiset(q);
  }

  lemma SpawnKeeps(s: Spawns, onLoop: bool)
    requires Inv(s)
    ensures Inv(Next(s, Spawn(onLoop)))
  {
    var s' := Next(s, Spawn(onLoop));
    var n := |s.frames|;
    CountNone(s.todo, Start(n)); CountNone(s.todo, Cleanup(n)); CountNone(s.destroyed, n);
    forall h | 0 <= h < |s'.frames| ensures FrameOk(s', h) {
      CountAppend(s.todo, Start(n), Start(h));
      CountAppend(s.todo, Start(n), Cleanup(h));
      if h < n { assert FrameOk(s, h); }
    }
  }

  lemma RunHeadKeeps(s: Spawns)
    requires Inv(s) && Enabled(s, RunHead)
    ensures Inv(Next(s, RunHead))
  {
    var s' := Next(s, RunHead);
    var f := s.todo[0];
    if !f.Other? {
      CountTail(s.todo, f);
      assert FrameOk(s, f.h);
    }
    forall h | 0 <= h < |s'.frames| ensures FrameOk(s', h) {
      assert FrameOk(s, h);
      CountTail(s.todo, Start(h));
      CountTail(s.todo, Cleanup(h));
      if f.Cleanup? { CountAppend(s.destroyed, f.h, h); }
    }
  }

  lemma StepKeeps(s: Spawns, e: Event)
    requires Inv(s) && Enabled(s, e)
    ensures Inv(Next(s, e))
  {
    var s' := Next(s, e);
    match e
    case Spawn(onLoop) => SpawnKeeps(s, onLoop);
    case RunHead => RunHeadKeeps(s);
    case Finish(g) => QueueKeeps(s, s', Cleanup(g));
    case Post => QueueKeeps(s, s', Other);
    case Park(_) => QuietKeeps(s, s');
    case Resume(_) => QuietKeeps(s, s');
  }

  lemma QueueKeeps(s: Spawns, s': Spawns, f: Functor)
    requires Inv(s)
    requires (f.Cleanup? && Enabled(s, Finish(f.h)) && s' == Next(s, Finish(f.h))) || (f.Other? && s' == Next(s, Post))
    ensures Inv(s')
  {
    forall h | 0 <= h < |s'.frames| ensures FrameOk(s', h) {
      assert FrameOk(s, h);
      CountAppend(s.todo, f, Start(h));
      CountAppend(s.todo, f, Cleanup(h));
    }
  }

  lemma QuietKeeps(s: Spawns, s': Spawns)
    requires Inv(s) && s' == s.(frames := s'.frames) && |s'.frames| == |s.frames|
    requires forall h :: 0 <= h < |s.frames| && s'.frames[h] != s.frames[h] ==>
               (s.frames[h].Live? || s.frames[h].Parked?) && (s'.frames[h].Live? || s'.frames[h].Parked?)
    ensures Inv(s')
  {
    forall h | 0 <= h < |s'.frames| ensures FrameOk(s', h) {
      assert FrameOk(s, h);
    }
  }

  lemma {:induction false} RunKeeps(s: Spawns, es: seq<Event>, t: Spawns)
    requires Inv(s) && Leads(s, es, t)
    ensures Inv(t)
    decreases |es|
  {
    if es != [] {
      StepKeeps(s, es[0]);
      RunKeeps(Next(s, es[0]), es[1..], t);
    }
  }

  /** In every run: a frame is registered before it is first resumed and until it is
      destroyed; one cleanup is queued exactly while it is finally suspended; it is destroyed
      at most once, never earlier; and no frame is resumed unless suspended. */
  lemma FramesAreOwned(es: seq<Event>, t: Spawns, h: Handle)
    requires Leads(EMPTY, es, t) && h < |t.frames|
    ensures var f := t.frames[h];
            && (h in t.registered <==> f.Live? || f.Parked? || f.Final?)
            && Count(t.todo, Cleanup(h)) == (if f.Final? then 1 else 0)
            && Count(t.destroyed, h) == (if f.Destroyed? then 1 else 0)
    ensures !t.broken
  {
    RunKeeps(EMPTY, es, t);
    assert FrameOk(t, h);
  }

  /** The cleanup that the loop runs always finds its frame in spawnedTasks_ and destroys it. */
  lemma CleanupFinds(es: seq<Event>, t: Spawns)
    requires Leads(EMPTY, es, t) && Enabled(t, RunHead) && t.todo[0].Cleanup?
    ensures var h := t.todo[0].h;
            h in t.registered && t.frames[h] == Final && Next(t, RunHead).destroyed == t.destroyed + [h]
  {
    RunKeeps(EMPTY, es, t);
    assert FrameOk(t, t.todo[0].h);
    CountTail(t.todo, t.todo[0]);
  }

  /** A frame is registered and resumed for the first time by the loop's thread only: when the
      loop runs a functor, or in a spawn made on that thread. */
  lemma StartedOnLoop(es: seq<Event>, t: Spawns, e: Event, h: Handle)
    requires Leads(EMPTY, es, t) && Enabled(t, e) && h < |Next(t, e).frames|
    requires h !in t.registered && (h >= |t.frames| || t.frames[h] == Fresh)
    requires h in Next(t, e).registered || Next(t, e).frames[h] != Fresh
    ensures e == RunHead || (e == Spawn(true) && h == |t.frames|)
    ensures h in Next(t, e).registered && Next(t, e).frames[h] == Live
  {
    RunKeeps(EMPTY, es, t);
    if h < |t.frames| {
      assert FrameOk(t, h);
      CountNone(t.todo, Cleanup(h));
      if e.RunHead? { assert Count(t.todo, t.todo[0]) > 0; }
    }
  }

  /** What spawn() leaves: on the loop's thread a frame that is registered and running, and
      nothing queued; elsewhere a frame that is neither, and its start queued last. */
  lemma SpawnLeaves(es: seq<Event>, t: Spawns, onLoop: bool)
    requires Leads(EMPTY, es, t)
    ensures var u, h := Next(t, Spawn(onLoop)), |t.frames|;
            && |u.frames| == h + 1 && (forall k :: 0 <= k < h ==> u.frames[k] == t.frames[k])
            && (if onLoop then u.frames[h] == Live && u.registered == t.registered + {h} && h !in t.registered && u.todo == t.todo
                else u.frames[h] == Fresh && h !in u.registered && u.registered == t.registered && u.todo == t.todo + [Start(h)])
            && u.destroyed == t.destroyed
  {
    RunKeeps(EMPTY, es, t);
  }

  /** How many functors the loop runs. */
  function Turns(es: seq<Event>): nat {
    if es == [] then 0 else (if es[0].RunHead? then 1 else 0) + Turns(es[1..])
  }

  /** A frame spawned elsewhere stays fresh and unregistered exactly until the loop has run
      what was queued before it, and then it. */
  lemma {:induction false} WaitsItsTurn(s: Spawns, k: nat, es: seq<Event>, t: Spawns)
    requires Inv(s) && k < |s.todo| && s.todo[k].Start? && Leads(s, es, t)
    ensures var h := s.todo[k].h;
            h < |t.frames| && (t.frames[h] == Fresh <==> Turns(es) <= k) && (t.frames[h] == Fresh ==> h !in t.registered)
    decreases |es|
  {
    var h := s.todo[k].h;
    assert FrameOk(s, h);
    assert Count(s.todo, s.todo[k]) > 0;
    if es != [] {
      var s' := Next(s, es[0]);
      StepKeeps(s, es[0]);
      if !es[0].RunHead? {
        WaitsItsTurn(s', k, es[1..], t);
      } else if k > 0 {
        CountTail(s.todo, Start(h));
        assert s'.todo[k - 1] == s.todo[k];
        WaitsItsTurn(s', k - 1, es[1..], t);
      } else {
        StaysStarted(s', h, es[1..], t);
      }
    }
  }

  lemma {:induction false} StaysStarted(s: Spawns, h: Handle, es: seq<Event>, t: Spawns)
    requires Inv(s) && h < |s.frames| && s.frames[h] != Fresh && Leads(s, es, t)
    ensures h < |t.frames| && t.frames[h] != Fresh
    decreases |es|
  {
    if es != [] {
      assert FrameOk(s, h);
      StepKeeps(s, es[0]);
      StaysStarted(Next(s, es[0]), h, es[1..], t);
    }
  }

  /** In every run. */
  lemma SpawnedElsewhereWaits(es: seq<Event>, t: Spawns, more: seq<Event>, u: Spawns)
    requires Leads(EMPTY, es, t) && Leads(Next(t, Spawn(false)), more, u)
    ensures var h := |t.frames|;
            h < |u.frames| && (u.frames[h] == Fresh <==> Turns(more) <= |t.todo|) && (u.frames[h] == Fresh ==> h !in u.registered)
  {
    RunKeeps(EMPTY, es, t);
    StepKeeps(t, Spawn(false));
    SpawnLeaves(es, t, false);
    WaitsItsTurn(Next(t, Spawn(false)), |t.todo|, more, u);
  }

  /** Nothing leaks: when no frame is running or parked and the queue is empty, every frame
      ever spawned has been destroyed, exactly once. */
  lemma NothingLeaks(es: seq<Event>, t: Spawns)
    requires Leads(EMPTY, es, t) && t.todo == []
    requires forall h :: 0 <= h < |t.frames| ==> t.frames[h] != Live && t.frames[h] != Parked
    ensures t.registered == {}
    ensures forall h :: 0 <= h < |t.frames| ==> t.frames[h] == Destroyed && Count(t.destroyed, h) == 1
  {
    RunKeeps(EMPTY, es, t);
    forall h | 0 <= h < |t.frames| ensures t.frames[h] == Destroyed && Count(t.destroyed, h) == 1 && h !in t.registered {
      assert FrameOk(t, h);
    }
  }

  /** The loop's side: spawnedTasks_ and the functors that concern it. */
  class Loop {
    var spawnedTasks: set<Handle>
    var functors: seq<Functor>
    ghost var model: Spawns

    ghost predicate Ok()
      reads this
    {
      spawnedTasks == model.registered && functors == model.todo
    }

    constructor ()
      ensures Ok() && model == EMPTY
    {
      spawnedTasks, functors, model := {}, [], EMPTY;
    }

    /** EventLoop::spawn for the new frame `h`: run the start functor, or queue it. */
    method Spawn(h: Handle, inLoopThread: bool)
      requires Ok() && h == |model.frames|
      modifies this
      ensures Ok() && model == Next(old(model), Event.Spawn(inLoopThread))
      ensures spawnedTasks == old(spawnedTasks) + (if inLoopThread then {h} else {})
      ensures functors == old(functors) + (if inLoopThread then [] else [Start(h)])
    {
      model := model.(frames := model.frames + [Fresh]);
      if inLoopThread {
        StartTask(h);
      } else {
        functors := functors + [Start(h)];
        model := model.(todo := model.todo + [Start(h)]);
      }
    }

    method StartTask(h: Handle)
      requires Ok() && h < |model.frames|
      modifies this`spawnedTasks, this`model
      ensures Ok() && model == Started(old(model), h)
    {
      spawnedTasks := spawnedTasks + {h};
      model := Started(model, h);
    }

    /** `destroyed` tells whether handle.destroy() was called. */
    method CleanupSpawnedTask(h: Handle) returns (destroyed: bool)
      requires Ok() && h < |model.frames|
      modifies this`spawnedTasks, this`model
      ensures Ok() && model == CleanedUp(old(model), h)
      ensures destroyed <==> |model.destroyed| == |old(model).destroyed| + 1
    {
      destroyed := h in spawnedTasks;
      if destroyed {
        spawnedTasks := spawnedTasks - {h};
      }
      model := CleanedUp(model, h);
    }

    /** FinalAwaiter::await_suspend, from whichever thread ran the frame. */
    method FinalSuspend(h: Handle)
      requires Ok() && Enabled(model, Finish(h))
      modifies this`functors, this`model
      ensures Ok() && model == Next(old(model), Finish(h))
    {
      functors := functors + [Cleanup(h)];
      model := Next(model, Finish(h));
    }

    method RunFirst()
      requires Ok() && Enabled(model, RunHead)
      modifies this
      ensures Ok() && model == Next(old(model), RunHead)
    {
      var f := functors[0];
      functors := functors[1..];
      model := model.(todo := model.todo[1..]);
      match f
      case Start(h) => StartTask(h);
      case Cleanup(h) => var _ := CleanupSpawnedTask(h);
      case Other =>
    }
  }
}
