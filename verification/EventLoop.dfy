/** The functor queue and the wake-up pipe of one EventLoop. */
module EventLoops {
  // ----- the protocol: one loop thread and any number of producers -----

  /** Blocking: at or in poll.  Dispatching: channel events and wake-up reads.  Running:
      doPendingFunctors, from the swap on. */
  datatype Phase = Blocking | Dispatching | Running | Exited

  /** `owing` counts the other threads that have pushed (or set quit_) and not yet written
      their token; `selfOwes` is the loop thread between the two.  `queued` is the history
      of everything pushed, `ran` of everything started, and `swapped` is |queued| at the
      last swap. */
  datatype Loop<F> = Loop(
    phase: Phase,
    pending: seq<F>,
    batch: seq<F>,
    tokens: nat,
    owing: nat,
    selfOwes: bool,
    quit: bool,
    ran: seq<F>,
    queued: seq<F>,
    swapped: nat)

  datatype Event<F> =
    | Push(f: F)
    | Quit
    | WriteToken
    | PollReturns
    | HandleWakeup
    | SelfPush(f: F)
    | SelfWrite
    | SelfQuit
    | Swap
    | RunNext
    | Finish

  predicate Enabled<F>(s: Loop<F>, e: Event<F>) {
    var inLoop := (s.phase == Dispatching || s.phase == Running) && !s.selfOwes;
    match e
    case Push(_) => true
    case Quit => true
    case WriteToken => s.owing > 0
    case PollReturns => s.phase == Blocking
    case HandleWakeup => s.phase == Dispatching
    case SelfPush(_) => inLoop
    case SelfWrite => s.selfOwes
    case SelfQuit => inLoop
    case Swap => s.phase == Dispatching
    case RunNext => s.phase == Running && !s.selfOwes && s.batch != []
    case Finish => s.phase == Running && !s.selfOwes && s.batch == []
  }

  function Next<F>(s: Loop<F>, e: Event<F>): Loop<F>
    requires Enabled(s, e)
  {
    match e
    case Push(f) => s.(pending := s.pending + [f], queued := s.queued + [f], owing := s.owing + 1)
    case Quit => s.(quit := true, owing := s.owing + 1)
    case WriteToken => s.(owing := s.owing - 1, tokens := s.tokens + 1)
    case PollReturns => s.(phase := Dispatching)
    case HandleWakeup => s.(tokens := if s.tokens > 0 then s.tokens - 1 else 0)
    case SelfPush(f) => s.(pending := s.pending + [f], queued := s.queued + [f], selfOwes := s.phase == Running)
    case SelfWrite => s.(selfOwes := false, tokens := s.tokens + 1)
    case SelfQuit => s.(quit := true)
    case Swap => s.(phase := Running, batch := s.pending, pending := [], swapped := |s.queued|)
    case RunNext => s.(ran := s.ran + [s.batch[0]], batch := s.batch[1..])
    case Finish => s.(phase := if s.quit then Exited else Blocking)
  }

  /** What loop() starts from: functors, tokens and half-done pushes may be left over. */
  function Entry<F>(pending: seq<F>, tokens: nat, owing: nat): Loop<F> {
    Loop(Blocking, pending, [], tokens, owing, false, false, [], pending, 0)
  }

  ghost predicate Leads<F(!new)>(s: Loop<F>, es: seq<Event<F>>, t: Loop<F>)
    decreases |es|
  {
    if es == [] then s == t else Enabled(s, es[0]) && Leads(Next(s, es[0]), es[1..], t)
  }

  ghost predicate Reaches<F(!new)>(s: Loop<F>, t: Loop<F>) {
    exists es :: Leads(s, es, t)
  }

  /** About to block although there is work, and nothing will wake it. */
  predicate Asleep<F>(s: Loop<F>) {
    s.phase == Blocking && (s.pending != [] || s.quit) && s.tokens == 0 && s.owing == 0
  }

  predicate Awake<F>(s: Loop<F>) {
    && (s.selfOwes ==> s.phase == Running)
    && (s.phase == Running || s.phase == Blocking ==> s.pending == [] || s.tokens + s.owing > 0 || s.selfOwes)
    && (s.phase == Blocking && s.quit ==> s.tokens + s.owing > 0)
  }

  lemma {:induction false} AwakeKept<F(!new)>(s: Loop<F>, es: seq<Event<F>>, t: Loop<F>)
    requires Awake(s) && Leads(s, es, t)
    ensures Awake(t)
    decreases |es|
  {
    if es != [] {
      AwakeKept(Next(s, es[0]), es[1..], t);
    }
  }

  /** No lost wake-up, exactly: no interleaving leaves the loop asleep on pending functors or
      a quit request if and only if loop() starts with an empty queue, or with a token in the
      pipe or on its way.  (queueInLoop on the loop's own thread before loop() writes none.) */
  lemma NoLostWakeupIff<F(!new)>(pending: seq<F>, tokens: nat, owing: nat)
    ensures (forall t :: Reaches(Entry(pending, tokens, owing), t) ==> !Asleep(t))
              <==> (pending == [] || tokens + owing > 0)
  {
    var s := Entry(pending, tokens, owing);
    if pending == [] || tokens + owing > 0 {
      forall t | Reaches(s, t) ensures !Asleep(t) {
        var es :| Leads(s, es, t);
        AwakeKept(s, es, t);
      }
    } else {
      assert Leads(s, [], s);
      assert Reaches(s, s) && Asleep(s);
    }
  }

  /** quit() ends the loop at the end of the iteration that is under way, or of the next one if
      the loop was blocked, and nothing else ends it. */
  lemma {:induction false} QuitEndsLoop<F(!new)>(s: Loop<F>, es: seq<Event<F>>, t: Loop<F>)
    requires s.phase != Exited && Leads(s, es, t)
    ensures s.quit ==> t.quit && (t.phase == Exited <==> Finish in es)
    ensures t.phase == Exited ==> t.quit && Finish in es
    decreases |es|
  {
    if es != [] {
      assert es == [es[0]] + es[1..];
      if Next(s, es[0]).phase == Exited {
        StaysExited(Next(s, es[0]), es[1..], t);
      } else {
        QuitEndsLoop(Next(s, es[0]), es[1..], t);
      }
    }
  }

  /** Other threads may go on queueing, but the loop runs nothing more. */
  lemma {:induction false} StaysExited<F(!new)>(s: Loop<F>, es: seq<Event<F>>, t: Loop<F>)
    requires s.phase == Exited && Leads(s, es, t)
    ensures t.phase == Exited && t.ran == s.ran && (s.quit ==> t.quit)
    decreases |es|
  {
    if es != [] {
      StaysExited(Next(s, es[0]), es[1..], t);
    }
  }

  /** Every functor queued since the last swap has a wake-up of its own outstanding. */
  predicate Paid<F>(s: Loop<F>) {
    && (s.selfOwes ==> s.phase == Running)
    && (s.phase == Running || s.phase == Blocking ==> |s.pending| <= s.tokens + s.owing + if s.selfOwes then 1 else 0)
  }

  lemma {:induction false} PaidKept<F(!new)>(s: Loop<F>, es: seq<Event<F>>, t: Loop<F>)
    requires Paid(s) && Leads(s, es, t)
    ensures Paid(t)
    decreases |es|
  {
    if es != [] {
      PaidKept(Next(s, es[0]), es[1..], t);
    }
  }

  /** A loop never runs functors or blocks with more functors pending than wake-ups outstanding,
      in any run, if and only if loop() does not start that way. */
  lemma OneWakeupPerFunctorIff<F(!new)>(pending: seq<F>, tokens: nat, owing: nat)
    ensures (forall t :: Reaches(Entry(pending, tokens, owing), t) && (t.phase == Running || t.phase == Blocking) ==>
                           |t.pending| <= t.tokens + t.owing + if t.selfOwes then 1 else 0)
              <==> |pending| <= tokens + owing
  {
    var s := Entry(pending, tokens, owing);
    if |pending| <= tokens + owing {
      forall t | Reaches(s, t) ensures Paid(t) {
        var es :| Leads(s, es, t);
        PaidKept(s, es, t);
      }
    } else {
      assert Leads(s, [], s);
      assert Reaches(s, s) && s.phase == Blocking;
    }
  }

  /** FIFO and exactly once, and where the current batch ends. */
  ghost predicate InOrder<F>(s: Loop<F>) {
    && s.ran + s.batch + s.pending == s.queued
    && (s.phase == Running ==> |s.ran| + |s.batch| == s.swapped)
    && (s.phase != Running ==> s.batch == [])
  }

  lemma StepInOrder<F>(s: Loop<F>, e: Event<F>)
    requires InOrder(s) && Enabled(s, e)
    ensures InOrder(Next(s, e))
  {
    var s' := Next(s, e);
    match e
    case RunNext => assert s.batch == [s.batch[0]] + s.batch[1..];
                    assert s'.ran + s'.batch == s.ran + s.batch;
    case Push(f) => assert s'.ran + s'.batch + s'.pending == (s.ran + s.batch + s.pending) + [f];
    case SelfPush(f) => assert s'.ran + s'.batch + s'.pending == (s.ran + s.batch + s.pending) + [f];
    case Swap => assert s.ran + [] + s.pending == s.ran + s.pending + [];
    case _ =>
  }

  lemma {:induction false} InOrderKept<F(!new)>(s: Loop<F>, es: seq<Event<F>>, t: Loop<F>)
    requires InOrder(s) && Leads(s, es, t)
    ensures InOrder(t)
    decreases |es|
  {
    if es != [] {
      StepInOrder(s, es[0]);
      InOrderKept(Next(s, es[0]), es[1..], t);
    }
  }

  /** In every run, what has been started, the rest of the batch and the queue are together
      everything queued, in order; and when a batch ends, exactly what was queued before its
      swap has been started: nothing queued while it ran. */
  lemma FunctorsInOrder<F(!new)>(pending: seq<F>, tokens: nat, owing: nat, t: Loop<F>)
    requires Reaches(Entry(pending, tokens, owing), t)
    ensures t.ran + t.batch + t.pending == t.queued
    ensures Enabled(t, Finish) ==> t.swapped <= |t.queued| && t.ran == t.queued[..t.swapped]
  {
    var s := Entry(pending, tokens, owing);
    var es :| Leads(s, es, t);
    assert [] + [] + pending == pending;
    InOrderKept(s, es, t);
  }

  // ----- the class -----

  lemma {:induction false} LeadsOn<F(!new)>(s: Loop<F>, es: seq<Event<F>>, t: Loop<F>, more: seq<Event<F>>, u: Loop<F>)
    requires Leads(s, es, t) && Leads(t, more, u)
    ensures Leads(s, es + more, u)
    decreases |es|
  {
    if es == [] {
      assert es + more == more;
    } else {
      assert (es + more)[1..] == es[1..] + more;
      LeadsOn(Next(s, es[0]), es[1..], t, more, u);
    }
  }

  lemma ReachesThen<F(!new)>(s: Loop<F>, t: Loop<F>, e: Event<F>)
    requires Reaches(s, t) && Enabled(t, e)
    ensures Reaches(s, Next(t, e))
  {
    var es :| Leads(s, es, t);
    assert [e][1..] == [] && Leads(Next(t, e), [], Next(t, e));
    assert Leads(t, [e], Next(t, e));
    LeadsOn(s, es, t, [e], Next(t, e));
  }

  /** queueInLoop as steps of the protocol: the push, and the token where one is written. */
  function Queued<F>(s: Loop<F>, f: F, inLoopThread: bool): Loop<F>
    requires inLoopThread ==> Enabled(s, SelfPush(f))
  {
    if !inLoopThread then Next(Next(s, Push(f)), WriteToken)
    else
      var pushed := Next(s, SelfPush(f));
      if pushed.selfOwes then Next(pushed, SelfWrite) else pushed
  }

  lemma QueuedReaches<F(!new)>(s: Loop<F>, t: Loop<F>, f: F, inLoopThread: bool)
    requires Reaches(s, t) && (inLoopThread ==> Enabled(t, SelfPush(f)))
    ensures Reaches(s, Queued(t, f, inLoopThread))
  {
    if inLoopThread {
      ReachesThen(s, t, SelfPush(f));
      if Next(t, SelfPush(f)).selfOwes {
        ReachesThen(s, Next(t, SelfPush(f)), SelfWrite);
      }
    } else {
      ReachesThen(s, t, Push(f));
      ReachesThen(s, Next(t, Push(f)), WriteToken);
    }
  }

  /** The loop's thread queues each of `fs`. */
  function QueuedAll<F>(s: Loop<F>, fs: seq<F>): Loop<F>
    requires s.phase == Running && !s.selfOwes
    decreases |fs|
  {
    if fs == [] then s else QueuedAll(Queued(s, fs[0], true), fs[1..])
  }

  lemma {:induction false} QueuedAllIs<F(!new)>(z: Loop<F>, s: Loop<F>, fs: seq<F>)
    requires Reaches(z, s) && s.phase == Running && !s.selfOwes
    ensures Reaches(z, QueuedAll(s, fs))
    ensures QueuedAll(s, fs) == s.(pending := s.pending + fs, queued := s.queued + fs, tokens := s.tokens + |fs|)
    decreases |fs|
  {
    if fs == [] {
      assert s.pending + fs == s.pending && s.queued + fs == s.queued;
    } else {
      QueuedReaches(z, s, fs[0], true);
      QueuedAllIs(z, Queued(s, fs[0], true), fs[1..]);
      assert s.pending + [fs[0]] + fs[1..] == s.pending + fs && s.queued + [fs[0]] + fs[1..] == s.queued + fs;
    }
  }

  /** Running the batch: each functor is started and queues what it queues. */
  function RunBatch<F>(s: Loop<F>, effect: F -> seq<F>): Loop<F>
    requires s.phase == Running && !s.selfOwes
    decreases |s.batch|
  {
    if s.batch == [] then s
    else
      var started := Next(s, RunNext);
      var fs := effect(s.batch[0]);
      RunBatch(started.(pending := started.pending + fs, queued := started.queued + fs, tokens := started.tokens + |fs|), effect)
  }

  lemma {:induction false} RunBatchIs<F(!new)>(z: Loop<F>, s: Loop<F>, effect: F -> seq<F>)
    requires Reaches(z, s) && s.phase == Running && !s.selfOwes
    ensures var t := RunBatch(s, effect);
            && Reaches(z, t) && t.phase == Running && !t.selfOwes && t.batch == [] && t.quit == s.quit
            && t.ran == s.ran + s.batch && t.pending == s.pending + Requeued(s.batch, effect)
            && t.tokens == s.tokens + |Requeued(s.batch, effect)|
    decreases |s.batch|
  {
    if s.batch == [] {
      assert s.ran + s.batch == s.ran && s.pending + [] == s.pending;
    } else {
      var started, fs := Next(s, RunNext), effect(s.batch[0]);
      ReachesThen(z, s, RunNext);
      QueuedAllIs(z, started, fs);
      var s1 := QueuedAll(started, fs);
      RunBatchIs(z, s1, effect);
      assert s.ran + [s.batch[0]] + s.batch[1..] == s.ran + s.batch;
      assert s.pending + fs + Requeued(s.batch[1..], effect) == s.pending + Requeued(s.batch, effect);
    }
  }

  /** doPendingFunctors as steps of the protocol. */
  function Done<F>(s: Loop<F>, effect: F -> seq<F>): Loop<F>
    requires s.phase == Dispatching && !s.selfOwes
  {
    var t := RunBatch(Next(s, Swap), effect);
    t.(phase := if t.quit then Exited else Blocking)
  }

  /** Those steps are steps of the protocol; they start exactly what was pending, in order. */
  lemma DoneReaches<F(!new)>(s: Loop<F>, effect: F -> seq<F>)
    requires s.phase == Dispatching && !s.selfOwes
    ensures Reaches(s, Done(s, effect))
    ensures Done(s, effect).ran == s.ran + s.pending && Done(s, effect).pending == Requeued(s.pending, effect)
    ensures Done(s, effect).tokens == s.tokens + |Requeued(s.pending, effect)|
    ensures Done(s, effect).quit == s.quit && !Done(s, effect).selfOwes
    ensures Done(s, effect).phase == if s.quit then Exited else Blocking
  {
    assert Leads(s, [], s);
    ReachesThen(s, s, Swap);
    RunBatchIs(s, Next(s, Swap), effect);
    ReachesThen(s, RunBatch(Next(s, Swap), effect), Finish);
    assert [] + Requeued(s.pending, effect) == Requeued(s.pending, effect);
  }

  /** What running the functors of `fs` in turn queues on the same loop; a functor's effect
      is the list of functors it queues. */
  function Requeued<F>(fs: seq<F>, effect: F -> seq<F>): seq<F> {
    if fs == [] then [] else effect(fs[0]) + Requeued(fs[1..], effect)
  }

  lemma {:induction false} RequeuedAppend<F>(fs: seq<F>, f: F, effect: F -> seq<F>)
    ensures Requeued(fs + [f], effect) == Requeued(fs, effect) + effect(f)
  {
    if fs == [] {
      assert [f][1..] == [] && [] + [f] == [f];
    } else {
      assert (fs + [f])[1..] == fs[1..] + [f];
      RequeuedAppend(fs[1..], f, effect);
    }
  }

  class EventLoop<F(!new)> {
    var pendingFunctors: seq<F>
    var callingPendingFunctors: bool
    var quit: bool
    var tokens: nat
    ghost var ran: seq<F>

    /** This object is in the state `s` of the protocol, with no call half done. */
    ghost predicate Shows(s: Loop<F>)
      reads this
    {
      && pendingFunctors == s.pending && tokens == s.tokens && quit == s.quit
      && callingPendingFunctors == s.phase.Running? && !s.selfOwes
    }

    constructor ()
      ensures pendingFunctors == [] && !callingPendingFunctors && tokens == 0 && ran == [] && Shows(Entry([], 0, 0))
    {
      pendingFunctors, callingPendingFunctors, quit, tokens, ran := [], false, false, 0, [];
    }

    /** The last clause is the call before loop(): the queue grows and no token is written. */
    method QueueInLoop(f: F, inLoopThread: bool, ghost s: Loop<F>)
      requires Shows(s)
      modifies this`pendingFunctors, this`tokens
      ensures pendingFunctors == old(pendingFunctors) + [f]
      ensures tokens == old(tokens) + if !inLoopThread || callingPendingFunctors then 1 else 0
      ensures !inLoopThread || Enabled(s, SelfPush(f)) ==> Shows(Queued(s, f, inLoopThread))
      ensures s == Entry(s.pending, s.tokens, s.owing) && inLoopThread ==> Shows(Entry(s.pending + [f], s.tokens, s.owing))
    {
      pendingFunctors := pendingFunctors + [f];
      if !inLoopThread || callingPendingFunctors {
        Wakeup();
      }
    }

    method Wakeup()
      modifies this`tokens
      ensures tokens == old(tokens) + 1
    {
      tokens := tokens + 1;
    }

    method HandleWakeup(ghost s: Loop<F>)
      requires Shows(s)
      modifies this`tokens
      ensures tokens == if old(tokens) == 0 then 0 else old(tokens) - 1
      ensures Enabled(s, Event<F>.HandleWakeup) ==> Shows(Next(s, Event<F>.HandleWakeup))
    {
      if tokens > 0 {
        tokens := tokens - 1;
      }
    }

    method Quit(inLoopThread: bool, ghost s: Loop<F>)
      requires Shows(s)
      modifies this`quit, this`tokens
      ensures !inLoopThread ==> Shows(Next(Next(s, Event<F>.Quit), WriteToken))
      ensures inLoopThread && Enabled(s, SelfQuit) ==> Shows(Next(s, SelfQuit))
      ensures quit
    {
      quit := true;
      if !inLoopThread {
        Wakeup();
      }
    }

    /** A functor runs and queues what it queues, on the loop's own thread. */
    method Execute(f: F, effect: F -> seq<F>)
      modifies this`pendingFunctors, this`tokens, this`ran
      ensures ran == old(ran) + [f] && pendingFunctors == old(pendingFunctors) + effect(f)
      ensures tokens == old(tokens) + if callingPendingFunctors then |effect(f)| else 0
    {
      ran := ran + [f];
      var fs := effect(f);
      for i := 0 to |fs|
        invariant ran == old(ran) + [f] && pendingFunctors == old(pendingFunctors) + fs[..i]
        invariant tokens == old(tokens) + if callingPendingFunctors then i else 0
      {
        ghost var s := Entry(pendingFunctors, tokens, 0).(quit := quit, phase := if callingPendingFunctors then Running else Dispatching);
        QueueInLoop(fs[i], true, s);
      }
    }

    method RunInLoop(f: F, inLoopThread: bool, effect: F -> seq<F>, ghost s: Loop<F>)
      requires Shows(s)
      modifies this`pendingFunctors, this`tokens, this`ran
      ensures inLoopThread ==> ran == old(ran) + [f] && pendingFunctors == old(pendingFunctors) + effect(f)
      ensures !inLoopThread ==> ran == old(ran) && pendingFunctors == old(pendingFunctors) + [f] && tokens == old(tokens) + 1
      ensures !inLoopThread ==> Shows(Queued(s, f, false))
    {
      if inLoopThread {
        Execute(f, effect);
      } else {
        QueueInLoop(f, false, s);
      }
    }

    /** Runs exactly the functors that were queued before the call, in order; what they queue
        waits for the next batch, each with its token.  Ends whatever they queue. */
    method DoPendingFunctors(effect: F -> seq<F>, ghost s: Loop<F>)
      requires Shows(s) && s.phase == Dispatching
      modifies this`pendingFunctors, this`callingPendingFunctors, this`tokens, this`ran
      ensures ran == old(ran) + old(pendingFunctors)
      ensures pendingFunctors == Requeued(old(pendingFunctors), effect)
      ensures tokens == old(tokens) + |pendingFunctors|
      ensures !callingPendingFunctors
      ensures Shows(Done(s, effect))
    {
      callingPendingFunctors := true;
      var functors := pendingFunctors;
      pendingFunctors := [];
      for i := 0 to |functors|
        invariant callingPendingFunctors
        invariant ran == old(ran) + functors[..i]
        invariant pendingFunctors == Requeued(functors[..i], effect)
        invariant tokens == old(tokens) + |pendingFunctors|
      {
        Execute(functors[i], effect);
        assert functors[..i + 1] == functors[..i] + [functors[i]];
        RequeuedAppend(functors[..i], functors[i], effect);
      }
      assert functors[..|functors|] == functors;
      callingPendingFunctors := false;
      DoneReaches(s, effect);
    }
  }
}
