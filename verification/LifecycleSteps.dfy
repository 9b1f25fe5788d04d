/** The shape of a step: which items a Run event puts in front and which it queues where. */
module LifecycleSteps {
  import opened Connection
  import opened Channels
  import opened Lifecycle
  import opened LifecycleInvariant

  /** The first item gives way to `front`; `back` is queued on loop `l`. */
  datatype Plan = Plan(front: seq<Item>, l: LoopId, back: seq<Item>)

  ghost function PlanOf(s: Sys, i: LoopId, ch: Choice): Plan
    requires RunEnabled(s, i, ch)
  {
    var it := s.loops[i].now[0];
    match it
    case Accept =>
      if ch.target == i then Plan([EstablishFn(|s.conns|), AcceptTail], i, [])
      else Plan([AcceptTail], ch.target, [EstablishFn(|s.conns|)])
    case EstablishFn(c) => Plan([Callback(c)], i, [])
    case Chan(c) => Plan(Calls(c, Fired(ch.revents, {OnError, OnClose, OnRead, OnWrite})) + [Guard(c)], i, [])
    case ReadFn(c) =>
      Plan(match ch.read case Data => [Callback(c)] case Eof => [CloseFn(c)] case ReadError => [], i, [])
    case CloseFn(c) => Plan([Callback(c), CloseCallback(c)], i, [])
    case ForceFn(c) => Plan([Callback(c), CloseCallback(c)], i, [])
    case Calling(c, CallForceClose) => Plan([Callback(c), CloseCallback(c)], i, [])
    case CloseCallback(c) => if i == 0 then Plan([RemoveFn(c)], i, []) else Plan([], 0, [RemoveFn(c)])
    case RemoveFn(c) => if c in s.entries then Plan([], s.home[c], [DestroyFn(c)]) else Plan([], i, [])
    case StopFn => Plan([Stopping(Listing(s.entries), s.entries)], i, [])
    case Stopping(rest, all) =>
      if rest == [] then Plan([], i, [])
      else
        var d, more := rest[0], Stopping(rest[1..], all);
        assert d in rest;
        if !Passes(s.conns[d], CallShutdown) then Plan([more], i, [])
        else if s.home[d] == i then Plan([Calling(d, CallShutdown), more], i, [])
        else Plan([more], s.home[d], [ShutdownFn(d)])
    case _ => Plan([], i, [])
  }

  lemma PlanIsExec(s: Sys, i: LoopId, ch: Choice)
    requires Inv(s) && RunEnabled(s, i, ch)
    ensures var p := PlanOf(s, i, ch); p.l < |s.loops| && Exec(s, i, ch).loops == Advance(s.loops, i, p.front, p.l, p.back)
  {
    HeadOk(s, i);
    match s.loops[i].now[0]
    case DestroyFn(_) => DestroyFinds(s, i);
    case Stopping(rest, _) => assert rest != [] ==> rest[0] in rest;
    case _ =>
  }

  /** What a step may pass on: connectDestroyed only as the single item queued by
      removeConnectionInLoop, and of the functors only stop()'s shutdown of a connection
      that is up. */
  lemma PlanItems(s: Sys, i: LoopId, ch: Choice, it: Item)
    requires Inv(s) && RunEnabled(s, i, ch)
    requires it in PlanOf(s, i, ch).front || it in PlanOf(s, i, ch).back
    ensures !it.Accept? && !it.Chan? && !it.SendFn? && !it.ForceFn?
    ensures it.DestroyFn? ==> PlanOf(s, i, ch) == Plan([], PlanOf(s, i, ch).l, [it])
    ensures it.Calling? ==> it.call.CallShutdown?
    ensures it.ShutdownFn? || it.Calling? ==> it.c in s.entries && !s.loops[i].now[0].DestroyFn?
  {
    match s.loops[i].now[0]
    case Stopping(_, _) => StoppingItems(s, i, ch, it);
    case Chan(c) => assert it in Calls(c, Fired(ch.revents, {OnError, OnClose, OnRead, OnWrite})) || it == Guard(c);
    case _ =>
  }

  lemma StoppingItems(s: Sys, i: LoopId, ch: Choice, it: Item)
    requires Inv(s) && RunEnabled(s, i, ch) && s.loops[i].now[0].Stopping?
    requires it in PlanOf(s, i, ch).front || it in PlanOf(s, i, ch).back
    ensures it.Stopping? || ((it.ShutdownFn? || (it.Calling? && it.call.CallShutdown?)) && it.c in s.entries)
  {
    HeadOk(s, i);
    var rest := s.loops[i].now[0].rest;
    if rest != [] {
      assert rest[0] in rest;
      assert ConnInv(s, rest[0]);
    }
  }

  /** Every shared_ptr a step passes on is one of a new connection, or one that some
      shared_ptr was already keeping alive. */
  lemma PlanRefs(s: Sys, i: LoopId, ch: Choice, it: Item, c: ConnId)
    requires Inv(s) && RunEnabled(s, i, ch) && c < |s.conns|
    requires it in PlanOf(s, i, ch).front || it in PlanOf(s, i, ch).back
    requires c in Refs(it)
    ensures Alive(s, c)
  {
    var h := s.loops[i].now[0];
    assert h == Todo(s, i)[0];
    match h
    case Stopping(_, _) => StoppingItems(s, i, ch, it);
    case Chan(d) => assert it in Calls(d, Fired(ch.revents, {OnError, OnClose, OnRead, OnWrite})) || it == Guard(d);
    case _ =>
  }

  /** An item present after an advance is new or was there before. */
  lemma AdvanceOrigin(s: Sys, s': Sys, i: LoopId, front: seq<Item>, l: LoopId, back: seq<Item>, j: LoopId, it: Item)
    requires i < |s.loops| && l < |s.loops| && j < |s.loops| && s.loops[i].now != []
    requires s'.loops == Advance(s.loops, i, front, l, back)
    requires it in Todo(s', j)
    ensures (j == i && it in front) || (j == l && it in back) || it in Todo(s, j)
  {
    AdvanceTodo(s.loops, i, front, l, back, j);
    var q := Todo(s, j);
    var head := if j == i then front + q[1..] else q;
    assert it in head || (j == l && it in back);
    if j == i {
      assert it in head ==> it in front || it in q[1..];
      assert it in q[1..] ==> it in q;
    }
  }

  lemma SwapTodo(s: Sys, i: LoopId, j: LoopId)
    requires Enabled(s, Swap(i)) && j < |s.loops|
    ensures Todo(Next(s, Swap(i)), j) ==
              if j == i then Todo(s, j) + [BatchEnd(BatchRefs(s.loops[i].pending))] else Todo(s, j)
  {
  }

  lemma PollTodo(s: Sys, i: LoopId, active: seq<Item>, j: LoopId)
    requires Enabled(s, Poll(i, active)) && j < |s.loops|
    ensures Todo(Next(s, Poll(i, active)), j) == if j == i then active + Todo(s, j) else Todo(s, j)
  {
  }
}
