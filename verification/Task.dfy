/** Task<T>: coroutine frames, continuations and symmetric transfer, against direct
    evaluation. */
module Tasks {
  import opened Bytes

  /** A coroutine's local variables, oldest first. */
  type Locals = seq<int>

  /** A coroutine body between its awaits.  `Await` creates the task `child` from the values
      `arg` computes, awaits it, and goes on with `then_` and the value appended to the
      locals, or with `catch_` and the exception appended; a body that does not catch
      rethrows there. */
  datatype Body =
    | Return(result: Locals -> int)
    | Throw(error: Locals -> int)
    | Branch(test: Locals -> bool, yes: Body, no: Body)
    | Await(child: Body, arg: Locals -> Locals, then_: Body, catch_: Body)

  datatype Outcome = Value(v: int) | Exception(e: int)

  /** Direct evaluation: awaiting a task is calling it. */
  function Eval(b: Body, l: Locals): Outcome {
    match b
    case Return(f) => Value(f(l))
    case Throw(f) => Exception(f(l))
    case Branch(t, yes, no) => if t(l) then Eval(yes, l) else Eval(no, l)
    case Await(child, arg, then_, catch_) =>
      match Eval(child, arg(l))
      case Value(v) => Eval(then_, l + [v])
      case Exception(e) => Eval(catch_, l + [e])
  }

  /** How many machine steps that takes. */
  function Cost(b: Body, l: Locals): nat {
    match b
    case Return(_) => 1
    case Throw(_) => 1
    case Branch(t, yes, no) => 1 + if t(l) then Cost(yes, l) else Cost(no, l)
    case Await(child, arg, then_, catch_) =>
      2 + Cost(child, arg(l)) +
      match Eval(child, arg(l))
      case Value(v) => Cost(then_, l + [v])
      case Exception(e) => Cost(catch_, l + [e])
  }

  type Handle = nat

  /** A frame: the body still to run, and the promise.  `awaiting` is the child task whose
      await_resume comes next; `done` is final suspension. */
  datatype Frame = Frame(
    body: Body,
    locals: Locals,
    awaiting: Option<Handle>,
    value: int,
    exception: Option<int>,
    continuation: Option<Handle>,
    done: bool)

  function NewFrame(b: Body, l: Locals, continuation: Option<Handle>): Frame {
    Frame(b, l, None, 0, None, continuation, false)
  }

  /** `current` is the running coroutine; None once FinalAwaiter has transferred to the noop
      coroutine and resume() returns. */
  datatype Machine = Machine(frames: map<Handle, Frame>, current: Option<Handle>, next: Handle)

  /** await_resume on a finished task. */
  function Result(f: Frame): Outcome {
    if f.exception.Some? then Exception(f.exception.value) else Value(f.value)
  }

  predicate CanStep(m: Machine) {
    && m.current.Some? && m.current.value in m.frames
    && (var f := m.frames[m.current.value];
        && !f.done
        && (f.awaiting.Some? ==> f.body.Await? && f.awaiting.value in m.frames && f.awaiting.value != m.current.value))
  }

  /** The waiting coroutine `h` goes on: await_resume, and the child's Task destroys its frame. */
  function Resumed(f: Frame, o: Outcome): Frame
    requires f.body.Await?
  {
    match o
    case Value(v) => f.(body := f.body.then_, locals := f.locals + [v], awaiting := None)
    case Exception(e) => f.(body := f.body.catch_, locals := f.locals + [e], awaiting := None)
  }

  function Step(m: Machine): Machine
    requires CanStep(m)
  {
    var h := m.current.value;
    var f := m.frames[h];
    if f.awaiting.Some? then
      var c := f.awaiting.value;
      m.(frames := (m.frames - {c})[h := Resumed(f, Result(m.frames[c]))])
    else
      match f.body
      case Return(g) => m.(frames := m.frames[h := f.(value := g(f.locals), done := true)], current := f.continuation)
      case Throw(g) => m.(frames := m.frames[h := f.(exception := Some(g(f.locals)), done := true)], current := f.continuation)
      case Branch(t, yes, no) => m.(frames := m.frames[h := f.(body := if t(f.locals) then yes else no)])
      case Await(child, arg, _, _) => // lazy start, continuation stored, transfer
        var c := m.next;
        Machine(m.frames[h := f.(awaiting := Some(c))][c := NewFrame(child, arg(f.locals), Some(h))], Some(c), c + 1)
  }

  // ----- the chain of continuations -----

  /** `chain` runs from the innermost unfinished coroutine out to the task that get() was
      called on; each waits for the one before it. */
  ghost predicate Linked(m: Machine, chain: seq<Handle>) {
    && chain != []
    && (forall j, k :: 0 <= j < k < |chain| ==> chain[j] != chain[k])
    && (forall k :: 0 <= k < |chain| ==> Unfinished(m, chain[k]))
    && (forall k :: 0 < k < |chain| ==> Waits(m, chain[k], chain[k - 1]))
    && m.frames[chain[|chain| - 1]].continuation == None
    && (forall h <- m.frames :: h < m.next)
  }

  ghost predicate Unfinished(m: Machine, h: Handle) {
    h in m.frames && !m.frames[h].done && m.frames[h].exception == None
  }

  /** Coroutine `h` is suspended in `co_await` on task `c`. */
  ghost predicate Waits(m: Machine, h: Handle, c: Handle) {
    && h in m.frames && c in m.frames
    && m.frames[h].body.Await? && m.frames[h].awaiting == Some(c) && m.frames[c].continuation == Some(h)
  }

  /** The frames are the chain and, while its innermost coroutine has a result to collect,
      the finished child. */
  ghost predicate Owned(m: Machine, chain: seq<Handle>)
    requires Linked(m, chain)
  {
    var top := m.frames[chain[0]];
    && m.current == Some(chain[0])
    && (top.awaiting.Some? ==> top.body.Await? && top.awaiting.value !in chain
                               && top.awaiting.value in m.frames && m.frames[top.awaiting.value].done)
    && (forall h <- m.frames :: h in chain || Some(h) == top.awaiting)
  }

  /** The frame of the innermost coroutine after collecting a pending result. */
  function Ready(m: Machine, f: Frame): Frame
    requires f.awaiting.Some? ==> f.body.Await? && f.awaiting.value in m.frames
  {
    if f.awaiting.Some? then Resumed(f, Result(m.frames[f.awaiting.value])) else f
  }

  /** What the outermost task yields if its innermost waiting coroutine's child yields `o`. */
  ghost function Unwind(frames: map<Handle, Frame>, waiting: seq<Handle>, o: Outcome): Outcome {
    if waiting == [] || waiting[0] !in frames || !frames[waiting[0]].body.Await? then o
    else
      var f := Resumed(frames[waiting[0]], o);
      Unwind(frames, waiting[1..], Eval(f.body, f.locals))
  }

  ghost function UnwindCost(frames: map<Handle, Frame>, waiting: seq<Handle>, o: Outcome): nat {
    if waiting == [] || waiting[0] !in frames || !frames[waiting[0]].body.Await? then 0
    else
      var f := Resumed(frames[waiting[0]], o);
      1 + Cost(f.body, f.locals) + UnwindCost(frames, waiting[1..], Eval(f.body, f.locals))
  }

  /** Both depend only on the bodies and locals of the waiting frames. */
  lemma {:induction false} UnwindFrame(frames: map<Handle, Frame>, frames': map<Handle, Frame>, waiting: seq<Handle>, o: Outcome)
    requires forall k :: 0 <= k < |waiting| ==>
               && waiting[k] in frames && waiting[k] in frames'
               && frames'[waiting[k]].body == frames[waiting[k]].body
               && frames'[waiting[k]].locals == frames[waiting[k]].locals
    ensures Unwind(frames', waiting, o) == Unwind(frames, waiting, o)
    ensures UnwindCost(frames', waiting, o) == UnwindCost(frames, waiting, o)
    decreases |waiting|
  {
    if waiting != [] && frames[waiting[0]].body.Await? {
      var f := Resumed(frames[waiting[0]], o);
      UnwindFrame(frames, frames', waiting[1..], Eval(f.body, f.locals));
    }
  }

  ghost predicate Good(m: Machine, chain: seq<Handle>) {
    Linked(m, chain) && Owned(m, chain)
  }

  /** What the machine will yield, and in how many steps. */
  ghost function Meaning(m: Machine, chain: seq<Handle>): Outcome
    requires Good(m, chain)
  {
    var f := Ready(m, m.frames[chain[0]]);
    Unwind(m.frames, chain[1..], Eval(f.body, f.locals))
  }

  ghost function Measure(m: Machine, chain: seq<Handle>): nat
    requires Good(m, chain)
  {
    var top := m.frames[chain[0]];
    var f := Ready(m, top);
    (if top.awaiting.Some? then 1 else 0) + Cost(f.body, f.locals)
    + UnwindCost(m.frames, chain[1..], Eval(f.body, f.locals))
  }

  /** Finished: only the outermost frame is left, it is done and holds `o`. */
  ghost predicate Finished(m: Machine, root: Handle, o: Outcome) {
    m.current == None && m.frames.Keys == {root} && m.frames[root].done && Result(m.frames[root]) == o
  }

  /** The chain after a step; empty when that step finished the outermost task. */
  ghost function After(m: Machine, chain: seq<Handle>): seq<Handle>
    requires Good(m, chain)
  {
    var f := m.frames[chain[0]];
    if f.awaiting.Some? || f.body.Branch? then chain
    else if f.body.Await? then [m.next] + chain
    else chain[1..]
  }

  /** The waiting part of the chain is untouched when only its head's frame changes. */
  lemma WaitingUntouched(m: Machine, m': Machine, chain: seq<Handle>, o: Outcome)
    requires Linked(m, chain)
    requires forall k :: 0 < k < |chain| ==> chain[k] in m'.frames && m'.frames[chain[k]] == m.frames[chain[k]]
    ensures Unwind(m'.frames, chain[1..], o) == Unwind(m.frames, chain[1..], o)
    ensures UnwindCost(m'.frames, chain[1..], o) == UnwindCost(m.frames, chain[1..], o)
  {
    forall k | 0 <= k < |chain[1..]|
      ensures chain[1..][k] in m.frames && chain[1..][k] in m'.frames && m'.frames[chain[1..][k]] == m.frames[chain[1..][k]]
    {
      assert Unfinished(m, chain[k + 1]);
    }
    UnwindFrame(m.frames, m'.frames, chain[1..], o);
  }

  /** The same for the chain's own shape. */
  lemma LinkedUntouched(m: Machine, m': Machine, chain: seq<Handle>)
    requires Linked(m, chain) && m'.next >= m.next && (forall h <- m'.frames :: h < m'.next)
    requires forall k :: 0 < k < |chain| ==> chain[k] in m'.frames && m'.frames[chain[k]] == m.frames[chain[k]]
    requires Unfinished(m', chain[0]) && m'.frames[chain[0]].continuation == m.frames[chain[0]].continuation
    ensures Linked(m', chain)
  {
    forall k | 0 <= k < |chain| ensures Unfinished(m', chain[k]) {
      assert Unfinished(m, chain[k]);
    }
    forall k | 0 < k < |chain| ensures Waits(m', chain[k], chain[k - 1]) {
      assert Waits(m, chain[k], chain[k - 1]) && Unfinished(m', chain[k - 1]);
    }
  }

  lemma HeadUnfinished(m: Machine, chain: seq<Handle>)
    requires Good(m, chain)
    ensures chain[0] in chain && Unfinished(m, chain[0]) && m.current == Some(chain[0])
    ensures forall k :: 0 < k < |chain| ==> chain[k] in m.frames && chain[k] != chain[0]
  {
    forall k | 0 < k < |chain| ensures chain[k] in m.frames && chain[k] != chain[0] {
      assert Unfinished(m, chain[k]);
    }
  }

  lemma ResumeStep(m: Machine, chain: seq<Handle>)
    requires Good(m, chain) && m.frames[chain[0]].awaiting.Some?
    ensures CanStep(m) && Good(Step(m), chain)
    ensures Meaning(Step(m), chain) == Meaning(m, chain) && Measure(Step(m), chain) < Measure(m, chain)
  {
    HeadUnfinished(m, chain);
    var m' := Step(m);
    var c := m.frames[chain[0]].awaiting.value;
    forall k | 0 < k < |chain| ensures chain[k] in m'.frames && m'.frames[chain[k]] == m.frames[chain[k]] {
      assert chain[k] in chain;
    }
    LinkedUntouched(m, m', chain);
    var f := m'.frames[chain[0]];
    WaitingUntouched(m, m', chain, Eval(f.body, f.locals));
  }

  lemma BranchStep(m: Machine, chain: seq<Handle>)
    requires Good(m, chain) && m.frames[chain[0]].awaiting == None && m.frames[chain[0]].body.Branch?
    ensures CanStep(m) && Good(Step(m), chain)
    ensures Meaning(Step(m), chain) == Meaning(m, chain) && Measure(Step(m), chain) < Measure(m, chain)
  {
    HeadUnfinished(m, chain);
    var m' := Step(m);
    LinkedUntouched(m, m', chain);
    var f := m'.frames[chain[0]];
    WaitingUntouched(m, m', chain, Eval(f.body, f.locals));
  }

  lemma AwaitLinked(m: Machine, chain: seq<Handle>)
    requires Good(m, chain) && m.frames[chain[0]].awaiting == None && m.frames[chain[0]].body.Await?
    ensures CanStep(m) && Linked(Step(m), [m.next] + chain)
  {
    HeadUnfinished(m, chain);
    var h, c := chain[0], m.next;
    var m' := Step(m);
    var chain' := [c] + chain;
    forall k | 0 <= k < |chain'| ensures Unfinished(m', chain'[k]) && (k > 0 ==> chain'[k] != c) {
      if k > 0 { assert Unfinished(m, chain[k - 1]); }
    }
    forall k | 0 < k < |chain'| ensures Waits(m', chain'[k], chain'[k - 1]) {
      if k > 1 {
        assert Waits(m, chain[k - 1], chain[k - 2]);
        assert Unfinished(m, chain[k - 1]) && Unfinished(m, chain[k - 2]);
      }
    }
    assert Unfinished(m, chain[|chain| - 1]);
  }

  lemma AwaitGood(m: Machine, chain: seq<Handle>)
    requires Good(m, chain) && m.frames[chain[0]].awaiting == None && m.frames[chain[0]].body.Await?
    ensures CanStep(m) && Good(Step(m), [m.next] + chain)
  {
    AwaitLinked(m, chain);
    var m' := Step(m);
    forall g | g in m'.frames ensures g in [m.next] + chain {
      assert g == m.next || g in m.frames;
    }
  }

  /** Unwinding through the coroutine that has just begun to wait. */
  lemma AwaitUnwinds(m: Machine, m': Machine, chain: seq<Handle>, o: Outcome)
    requires Linked(m, chain) && m.frames[chain[0]].body.Await?
    requires chain[0] in m'.frames
    requires m'.frames[chain[0]].body == m.frames[chain[0]].body && m'.frames[chain[0]].locals == m.frames[chain[0]].locals
    requires forall k :: 0 < k < |chain| ==> chain[k] in m'.frames && m'.frames[chain[k]] == m.frames[chain[k]]
    ensures var g := Resumed(m.frames[chain[0]], o);
            && Unwind(m'.frames, chain, o) == Unwind(m.frames, chain[1..], Eval(g.body, g.locals))
            && UnwindCost(m'.frames, chain, o) ==
                 1 + Cost(g.body, g.locals) + UnwindCost(m.frames, chain[1..], Eval(g.body, g.locals))
  {
    var g := Resumed(m.frames[chain[0]], o);
    WaitingUntouched(m, m', chain, Eval(g.body, g.locals));
  }

  lemma AwaitStep(m: Machine, chain: seq<Handle>)
    requires Good(m, chain) && m.frames[chain[0]].awaiting == None && m.frames[chain[0]].body.Await?
    ensures CanStep(m) && Good(Step(m), [m.next] + chain)
    ensures Meaning(Step(m), [m.next] + chain) == Meaning(m, chain)
    ensures Measure(Step(m), [m.next] + chain) < Measure(m, chain)
  {
    HeadUnfinished(m, chain);
    AwaitGood(m, chain);
    var m' := Step(m);
    var f := m.frames[chain[0]];
    forall k | 0 < k < |chain| ensures chain[k] in m'.frames && m'.frames[chain[k]] == m.frames[chain[k]] {
      assert Unfinished(m, chain[k]);
    }
    var o := Eval(f.body.child, f.body.arg(f.locals));
    AwaitUnwinds(m, m', chain, o);
    AwaitMeans(f, o);
    assert ([m.next] + chain)[1..] == chain;
    assert m'.frames[m.next] == NewFrame(f.body.child, f.body.arg(f.locals), Some(chain[0]));
  }

  lemma AwaitMeans(f: Frame, o: Outcome)
    requires f.body.Await? && o == Eval(f.body.child, f.body.arg(f.locals))
    ensures var g := Resumed(f, o);
            && Eval(f.body, f.locals) == Eval(g.body, g.locals)
            && Cost(f.body, f.locals) == 2 + Cost(f.body.child, f.body.arg(f.locals)) + Cost(g.body, g.locals)
  {
  }

  /** A coroutine that returns or throws inside an await transfers to its continuation. */
  lemma ReturnLinked(m: Machine, chain: seq<Handle>)
    requires Good(m, chain) && m.frames[chain[0]].awaiting == None && |chain| > 1
    requires m.frames[chain[0]].body.Return? || m.frames[chain[0]].body.Throw?
    ensures CanStep(m) && Linked(Step(m), chain[1..])
  {
    HeadUnfinished(m, chain);
    var chain' := chain[1..];
    var m' := Step(m);
    forall k | 0 <= k < |chain'| ensures Unfinished(m', chain'[k]) {
      assert Unfinished(m, chain[k + 1]);
    }
    forall k | 0 < k < |chain'| ensures Waits(m', chain'[k], chain'[k - 1]) {
      assert Waits(m, chain[k + 1], chain[k]);
      assert Unfinished(m', chain'[k]) && Unfinished(m', chain'[k - 1]);
    }
  }

  lemma ReturnGood(m: Machine, chain: seq<Handle>)
    requires Good(m, chain) && m.frames[chain[0]].awaiting == None && |chain| > 1
    requires m.frames[chain[0]].body.Return? || m.frames[chain[0]].body.Throw?
    ensures CanStep(m) && Good(Step(m), chain[1..])
  {
    HeadUnfinished(m, chain);
    ReturnLinked(m, chain);
    assert Waits(m, chain[1], chain[0]);
    assert chain == [chain[0]] + chain[1..];
  }

  lemma ReturnStep(m: Machine, chain: seq<Handle>)
    requires Good(m, chain) && m.frames[chain[0]].awaiting == None && |chain| > 1
    requires m.frames[chain[0]].body.Return? || m.frames[chain[0]].body.Throw?
    ensures CanStep(m) && Good(Step(m), chain[1..])
    ensures Meaning(Step(m), chain[1..]) == Meaning(m, chain)
    ensures Measure(Step(m), chain[1..]) < Measure(m, chain)
  {
    HeadUnfinished(m, chain);
    ReturnGood(m, chain);
    var m' := Step(m);
    var f := m.frames[chain[0]];
    var o := Eval(f.body, f.locals);
    assert Result(m'.frames[chain[0]]) == o;
    assert Waits(m, chain[1], chain[0]);
    assert m'.frames[chain[1]] == m.frames[chain[1]];
    var g := Resumed(m.frames[chain[1]], o);
    var rest := chain[1..];
    assert rest[0] == chain[1] && rest[1..] == chain[2..];
    forall k | 0 <= k < |rest[1..]| ensures rest[1..][k] in m.frames && rest[1..][k] in m'.frames
                                            && m'.frames[rest[1..][k]] == m.frames[rest[1..][k]] {
      assert rest[1..][k] == chain[k + 2];
    }
    UnwindFrame(m.frames, m'.frames, rest[1..], Eval(g.body, g.locals));
  }

  /** The outermost task finishes: FinalAwaiter has no continuation and resume() returns. */
  lemma FinalStep(m: Machine, chain: seq<Handle>)
    requires Good(m, chain) && m.frames[chain[0]].awaiting == None && |chain| == 1
    requires m.frames[chain[0]].body.Return? || m.frames[chain[0]].body.Throw?
    ensures CanStep(m) && Finished(Step(m), chain[0], Meaning(m, chain))
  {
    HeadUnfinished(m, chain);
    assert chain == [chain[0]];
  }

  /** One step keeps what will be yielded and costs something, or ends with exactly that. */
  lemma StepKeeps(m: Machine, chain: seq<Handle>)
    requires Good(m, chain)
    ensures CanStep(m)
    ensures var chain' := After(m, chain);
            if chain' == [] then Finished(Step(m), chain[|chain| - 1], Meaning(m, chain))
            else Good(Step(m), chain') && Meaning(Step(m), chain') == Meaning(m, chain)
                 && Measure(Step(m), chain') < Measure(m, chain) && chain'[|chain'| - 1] == chain[|chain| - 1]
  {
    var f := m.frames[chain[0]];
    if f.awaiting.Some? { ResumeStep(m, chain); }
    else if f.body.Branch? { BranchStep(m, chain); }
    else if f.body.Await? { AwaitStep(m, chain); }
    else if |chain| > 1 { ReturnStep(m, chain); }
    else { FinalStep(m, chain); }
  }

  // ----- resume() and get() -----

  /** The coroutine machine of one thread. */
  class Runtime {
    var machine: Machine

    /** A lazily started task: its frame exists, nothing has run. */
    constructor (b: Body, l: Locals)
      ensures machine == Machine(map[0 := NewFrame(b, l, None)], None, 1)
    {
      machine := Machine(map[0 := NewFrame(b, l, None)], None, 1);
    }

    /** handle.resume(): runs until control comes back. */
    method Resume(root: Handle, ghost o: Outcome)
      requires Good(machine.(current := Some(root)), [root]) && Meaning(machine.(current := Some(root)), [root]) == o
      modifies this
      ensures Finished(machine, root, o)
    {
      machine := machine.(current := Some(root));
      ghost var chain := [root];
      while machine.current.Some?
        invariant chain != [] ==> Good(machine, chain) && Meaning(machine, chain) == o && chain[|chain| - 1] == root
        invariant chain == [] ==> Finished(machine, root, o)
        decreases if chain == [] then 0 else 1, if chain == [] then 0 else Measure(machine, chain)
      {
        StepKeeps(machine, chain);
        chain := After(machine, chain);
        machine := Step(machine);
      }
    }

    /** get(): while the task is not done, resume it; then await_resume.  On a task that
        nothing has run yet the first resume already ends done, and the result is that of
        direct evaluation; on a finished one the stored result comes back; an empty handle
        throws. */
    method Get(root: Option<Handle>, ghost b: Body, ghost l: Locals) returns (r: Option<Outcome>, resumes: nat)
      requires root.Some? ==> root.value < machine.next && root.value in machine.frames
      requires root.Some? && !machine.frames[root.value].done ==> machine.frames == map[root.value := NewFrame(b, l, None)]
      modifies this
      ensures root.None? ==> r == None && resumes == 0 && machine == old(machine)
      ensures root.Some? && !old(machine).frames[root.value].done ==>
                r == Some(Eval(b, l)) && resumes == 1
                && machine.frames.Keys == {root.value} && machine.frames[root.value].done
      ensures root.Some? && old(machine).frames[root.value].done ==>
                r == Some(Result(old(machine).frames[root.value])) && resumes == 0 && machine == old(machine)
    {
      if root.None? {
        return None, 0;
      }
      var h := root.value;
      resumes := 0;
      while !machine.frames[h].done
        invariant resumes == 0 ==> machine == old(machine)
        invariant resumes > 0 ==> resumes == 1 && !old(machine).frames[h].done && Finished(machine, h, Eval(b, l))
        decreases 1 - resumes
      {
        Resume(h, Eval(b, l));
        resumes := resumes + 1;
      }
      r := Some(Result(machine.frames[h]));
    }
  }
}
