/** Connections, their server and N event loops as one state machine.

    Every loop is a thread that executes the list `now` from the front: in the
    dispatch phase the active channels that poll returned, in the functor phase the
    swapped batch.  A call made inline (runInLoop on the loop's own thread, a user
    callback) puts its work in front of `now`; a call from elsewhere, and every
    queueInLoop, appends to `pending`.  One event executes one item, so the loops
    and the application's own threads interleave freely between items.  The state
    check of send, shutdown and forceClose and the hand-over of their functor are
    one event. */
module Lifecycle {
  import opened Bytes
  import opened Connection
  import opened Channels

  type ConnId = nat
  type LoopId = nat

  /** The first group uses a connection through a raw pointer, the second holds a
      shared_ptr to it, the third refers to no connection.  SendFn, ShutdownFn and ForceFn
      are the queued functors of send, shutdown and forceClose, Calling is one that runs at
      once on the loop's thread; CloseFn is the channel's close callback, or handleClose called
      by handleRead.  Accept is the acceptor's channel event and AcceptTail what is left of it
      after newConnection: handleEventWithGuard still reads the channel. */
  datatype Item =
    | Chan(c: ConnId)
    | SendFn(c: ConnId, msg: bytes)
    | ShutdownFn(c: ConnId)
    | ForceFn(c: ConnId)
    | Calling(c: ConnId, call: Call)
    | CloseFn(c: ConnId)
    | ReadFn(c: ConnId)
    | WriteFn(c: ConnId)
    | EstablishFn(c: ConnId)
    | RemoveFn(c: ConnId)
    | DestroyFn(c: ConnId)
    | DestroyTail(c: ConnId)
    | Callback(c: ConnId)
    | CloseCallback(c: ConnId)
    | Guard(c: ConnId)
    | BatchEnd(refs: set<ConnId>)
    | Stopping(rest: seq<ConnId>, all: set<ConnId>)
    | Accept
    | AcceptTail
    | Posted
    | StopFn

  predicate Waits(it: Item) {
    it.SendFn? || it.ShutdownFn? || it.ForceFn?
  }

  predicate Handed(it: Item) {
    Waits(it) || it.Calling?
  }

  predicate UsesAcceptor(it: Item) {
    it.Accept? || it.AcceptTail?
  }

  predicate Raw(it: Item) {
    it.Chan? || Handed(it) || it.CloseFn? || it.ReadFn? || it.WriteFn?
  }

  function Refs(it: Item): set<ConnId> {
    match it
    case EstablishFn(c) => {c}
    case RemoveFn(c) => {c}
    case DestroyFn(c) => {c}
    case DestroyTail(c) => {c}
    case Callback(c) => {c}
    case CloseCallback(c) => {c}
    case Guard(c) => {c}
    case BatchEnd(refs) => refs
    case Stopping(_, all) => all
    case _ => {}
  }

  datatype Loop = Loop(dispatching: bool, now: seq<Item>, pending: seq<Item>)

  /** History: connectEstablished and connectDestroyed calls in order. */
  datatype Mark = Up(c: ConnId) | Down(c: ConnId)

  /** Connection `c` is `conns[c]` and lives on loop `home[c]`; `entries` are the keys
      of connections_; `held` counts shared_ptrs the application keeps; `acceptor` is whether
      acceptor_ is set.  `log` and `rearmed` (write interest switched on after the close) are
      history. */
  datatype Sys = Sys(
    loops: seq<Loop>,
    conns: seq<Conn>,
    home: seq<LoopId>,
    entries: set<ConnId>,
    held: multiset<ConnId>,
    log: seq<Mark>,
    rearmed: set<ConnId>,
    acceptor: bool)

  /** What a loop still has to execute, in order. */
  function Todo(s: Sys, i: LoopId): seq<Item>
    requires i < |s.loops|
  {
    s.loops[i].now + s.loops[i].pending
  }

  /** Some shared_ptr to the connection is left. */
  ghost predicate Alive(s: Sys, c: ConnId) {
    || c in s.entries
    || c in s.held
    || exists i, k :: 0 <= i < |s.loops| && 0 <= k < |Todo(s, i)| && c in Refs(Todo(s, i)[k])
  }

  // ----- events -----

  datatype ReadOutcome = Data | Eof | ReadError

  /** Everything the kernel and the loop pool decide while one item executes. */
  datatype Choice = Choice(target: LoopId, revents: Revents, wrote: WriteResult, read: ReadOutcome)

  datatype Act =
    | Use(d: ConnId, call: Call)
    | Keep(d: ConnId)
    | Drop(d: ConnId)
    | Post(l: LoopId)
    | Stop

  datatype Event =
    | Poll(i: LoopId, active: seq<Item>)
    | Swap(i: LoopId)
    | Run(i: LoopId, choice: Choice)
    | UserOnLoop(i: LoopId, act: Act)
    | UserElsewhere(act: Act)

  /** Loop `i` replaces its first item by `front`; loop `l` gets `back` queued. */
  function Advance(loops: seq<Loop>, i: LoopId, front: seq<Item>, l: LoopId, back: seq<Item>): (r: seq<Loop>)
    requires i < |loops| && l < |loops| && loops[i].now != []
    ensures |r| == |loops|
  {
    Queue(loops[i := loops[i].(now := front + loops[i].now[1..])], l, back)
  }

  function Queue(loops: seq<Loop>, l: LoopId, back: seq<Item>): (r: seq<Loop>)
    requires l < |loops|
    ensures |r| == |loops|
  {
    loops[l := loops[l].(pending := loops[l].pending + back)]
  }

  /** The functor that send, shutdown or forceClose queues on the connection's loop. */
  function Functor(d: ConnId, call: Call): Item {
    match call
    case CallSend(msg) => SendFn(d, msg)
    case CallShutdown => ShutdownFn(d)
    case CallForceClose => ForceFn(d)
  }

  /** The connection's side of the callbacks its channel fires; handleError does nothing. */
  function Calls(c: ConnId, fired: seq<Callback>): (r: seq<Item>)
    ensures forall it <- r :: it == CloseFn(c) || it == ReadFn(c) || it == WriteFn(c)
    ensures CloseFn(c) in r <==> OnClose in fired
    ensures ReadFn(c) in r <==> OnRead in fired
    ensures WriteFn(c) in r <==> OnWrite in fired
  {
    if fired == [] then []
    else
      (match fired[0]
       case OnError => []
       case OnClose => [CloseFn(c)]
       case OnRead => [ReadFn(c)]
       case OnWrite => [WriteFn(c)]) + Calls(c, fired[1..])
  }

  /** Write interest that comes on after the close is remembered. */
  function Rearms(c: Conn, c': Conn, id: ConnId): set<ConnId> {
    if c.state == Disconnected && !c.writing && c'.writing then {id} else {}
  }

  ghost function Exec(s: Sys, i: LoopId, ch: Choice): Sys
    requires RunEnabled(s, i, ch)
  {
    var it := s.loops[i].now[0];
    match it
    case Accept => // TcpServer::newConnection
      var c := |s.conns|;
      var s1 := s.(conns := s.conns + [FRESH], home := s.home + [ch.target], entries := s.entries + {c});
      if ch.target == i then s1.(loops := Advance(s.loops, i, [EstablishFn(c), AcceptTail], i, []))
      else s1.(loops := Advance(s.loops, i, [AcceptTail], ch.target, [EstablishFn(c)]))
    case EstablishFn(c) =>
      s.(conns := s.conns[c := ConnectEstablished(s.conns[c])], log := s.log + [Up(c)],
         loops := Advance(s.loops, i, [Callback(c)], i, []))
    case Chan(c) => // Channel::handleEvent
      var calls := Calls(c, Fired(ch.revents, {OnError, OnClose, OnRead, OnWrite}));
      s.(loops := Advance(s.loops, i, if s.conns[c].tied then calls + [Guard(c)] else calls, i, []))
    case ReadFn(c) =>
      var front := match ch.read
        case Data => [Callback(c)]
        case Eof => [CloseFn(c)]
        case ReadError => [];
      s.(loops := Advance(s.loops, i, front, i, []))
    case WriteFn(c) =>
      s.(conns := s.conns[c := HandleWrite(s.conns[c], ch.wrote)], loops := Advance(s.loops, i, [], i, []))
    case SendFn(c, msg) =>
      var conn := SendInLoop(s.conns[c], msg, ch.wrote);
      s.(conns := s.conns[c := conn], rearmed := s.rearmed + Rearms(s.conns[c], conn, c),
         loops := Advance(s.loops, i, [], i, []))
    case ShutdownFn(c) =>
      s.(conns := s.conns[c := ShutdownInLoop(s.conns[c])], loops := Advance(s.loops, i, [], i, []))
    case Calling(c, CallSend(msg)) =>
      var conn := SendInLoop(s.conns[c], msg, ch.wrote);
      s.(conns := s.conns[c := conn], rearmed := s.rearmed + Rearms(s.conns[c], conn, c),
         loops := Advance(s.loops, i, [], i, []))
    case Calling(c, CallShutdown) =>
      s.(conns := s.conns[c := ShutdownInLoop(s.conns[c])], loops := Advance(s.loops, i, [], i, []))
    case Calling(c, CallForceClose) =>
      s.(conns := s.conns[c := HandleClose(s.conns[c])],
         loops := Advance(s.loops, i, [Callback(c), CloseCallback(c)], i, []))
    case ForceFn(c) => // handleClose
      s.(conns := s.conns[c := HandleClose(s.conns[c])],
         loops := Advance(s.loops, i, [Callback(c), CloseCallback(c)], i, []))
    case CloseFn(c) => // handleClose: guardThis, the user's callback, closeCallback_
      s.(conns := s.conns[c := HandleClose(s.conns[c])],
         loops := Advance(s.loops, i, [Callback(c), CloseCallback(c)], i, []))
    case CloseCallback(c) => // removeConnection
      s.(loops := if i == 0 then Advance(s.loops, i, [RemoveFn(c)], i, []) else Advance(s.loops, i, [], 0, [RemoveFn(c)]))
    case RemoveFn(c) => // removeConnectionInLoop
      if c !in s.entries then s.(loops := Advance(s.loops, i, [], i, []))
      else s.(entries := s.entries - {c}, loops := Advance(s.loops, i, [], s.home[c], [DestroyFn(c)]))
    case DestroyFn(c) => // connectDestroyed
      if s.conns[c].state == Connected then
        s.(conns := s.conns[c := DisableAll(s.conns[c])], log := s.log + [Down(c)],
           loops := Advance(s.loops, i, [Callback(c), DestroyTail(c)], i, []))
      else
        s.(conns := s.conns[c := ConnectDestroyed(s.conns[c])], log := s.log + [Down(c)],
           loops := Advance(s.loops, i, [], i, []))
    case DestroyTail(c) =>
      s.(conns := s.conns[c := s.conns[c].(state := Disconnected)], loops := Advance(s.loops, i, [], i, []))
    case Stopping(rest, all) => // the loop of TcpServer::stop
      if rest == [] then s.(loops := Advance(s.loops, i, [], i, []))
      else
        var d := rest[0];
        assert d in rest;
        var more := Stopping(rest[1..], all);
        if !Passes(s.conns[d], CallShutdown) then s.(loops := Advance(s.loops, i, [more], i, []))
        else
          var s1 := s.(conns := s.conns[d := AfterCheck(s.conns[d], CallShutdown)]);
          if s.home[d] == i then s1.(loops := Advance(s.loops, i, [Calling(d, CallShutdown), more], i, []))
          else s1.(loops := Advance(s.loops, i, [more], s.home[d], [ShutdownFn(d)]))
    case StopFn => // acceptor_.reset(), then the copy of the map
      s.(acceptor := false, loops := Advance(s.loops, i, [Stopping(Listing(s.entries), s.entries)], i, []))
    case _ => // a callback or posted functor returns, a guard or batch vector is released
      s.(loops := Advance(s.loops, i, [], i, []))
  }

  /** The order in which stop() meets the entries of the map (its own order is by name). */
  ghost function Listing(entries: set<ConnId>): (r: seq<ConnId>)
    ensures forall c :: c in r <==> c in entries
    decreases |entries|
  {
    if entries == {} then [] else
      var c :| c in entries;
      [c] + Listing(entries - {c})
  }

  /** The first item of loop `i` would use a freed connection or its channel. */
  ghost predicate ConnDangling(s: Sys, i: LoopId)
    requires i < |s.loops|
  {
    s.loops[i].now != [] && Raw(s.loops[i].now[0]) && !Alive(s, s.loops[i].now[0].c)
  }

  /** The first item of loop `i` would use the freed acceptor's channel. */
  predicate AcceptorDangling(s: Sys, i: LoopId)
    requires i < |s.loops|
  {
    s.loops[i].now != [] && UsesAcceptor(s.loops[i].now[0]) && !s.acceptor
  }

  ghost predicate Dangling(s: Sys, i: LoopId)
    requires i < |s.loops|
  {
    ConnDangling(s, i) || AcceptorDangling(s, i)
  }

  predicate ItemKnown(s: Sys, it: Item) {
    match it
    case BatchEnd(refs) => forall c <- refs :: c < |s.conns|
    case Stopping(rest, all) => (forall c <- rest :: c < |s.conns|) && (forall c <- all :: c < |s.conns|)
    case Accept => true
    case AcceptTail => true
    case Posted => true
    case StopFn => true
    case _ => it.c < |s.conns|
  }

  /** Ids are in range: what the types of the source guarantee. */
  ghost predicate Formed(s: Sys) {
    && |s.loops| >= 1
    && |s.home| == |s.conns|
    && (forall c :: 0 <= c < |s.home| ==> s.home[c] < |s.loops|)
    && (forall c <- s.entries :: c < |s.conns|)
    && (forall c <- s.held :: c < |s.conns|)
    && (forall i, k :: 0 <= i < |s.loops| && 0 <= k < |Todo(s, i)| ==> ItemKnown(s, Todo(s, i)[k]))
  }

  ghost predicate RunEnabled(s: Sys, i: LoopId, ch: Choice) {
    && Formed(s)
    && i < |s.loops| && s.loops[i].now != []
    && ch.target < |s.loops|
    && (var it := s.loops[i].now[0];
        && ItemKnown(s, it)
        && (it.SendFn? ==> Possible(ch.wrote, |it.msg|))
        && (it.Calling? && it.call.CallSend? ==> Possible(ch.wrote, |it.call.msg|))
        && (it.WriteFn? ==> Possible(ch.wrote, |s.conns[it.c].output|)))
    && !Dangling(s, i)
  }

  /** Inside a callback the application may use its argument and whatever it holds. */
  predicate Reaches(s: Sys, it: Item, d: ConnId) {
    d < |s.conns| && (d in s.held || it == Callback(d))
  }

  ghost predicate Enabled(s: Sys, e: Event) {
    && Formed(s)
    && match e
       case Poll(i, active) =>
         && i < |s.loops| && s.loops[i].now == [] && !s.loops[i].dispatching
         && forall k :: 0 <= k < |active| ==> Polled(s, i, active[k])
       case Swap(i) => i < |s.loops| && s.loops[i].now == [] && s.loops[i].dispatching
       case Run(i, ch) => RunEnabled(s, i, ch)
       case UserOnLoop(i, act) =>
         && i < |s.loops| && s.loops[i].now != []
         && (var it := s.loops[i].now[0];
             && (it.Callback? || it.Posted?)
             && match act
                case Use(d, _) => Reaches(s, it, d)
                case Keep(d) => Reaches(s, it, d)
                case Drop(d) => d in s.held
                case Post(l) => l < |s.loops|
                case Stop => true)
       case UserElsewhere(act) =>
         match act
         case Post(l) => l < |s.loops|
         case Stop => true
         case _ => act.d in s.held
  }

  /** poll reports the acceptor, which unregisters itself when it goes, or a channel with some
      interest.  Closing the descriptor of a dead connection unregisters it. */
  ghost predicate Polled(s: Sys, i: LoopId, it: Item) {
    || (it == Accept && i == 0 && s.acceptor)
    || (it.Chan? && it.c < |s.conns| && |s.home| == |s.conns| && s.home[it.c] == i
        && Alive(s, it.c) && (s.conns[it.c].reading || s.conns[it.c].writing))
  }

  /** An application call.  `onto` is the loop thread it is made on, if any: there
      `front` goes before the current item, which stays. */
  ghost function User(s: Sys, onto: int, act: Act): Sys
    requires Formed(s)
    requires 0 <= onto ==> onto < |s.loops| && s.loops[onto].now != []
    requires match act
             case Post(l) => l < |s.loops|
             case Stop => true
             case _ => act.d < |s.conns|
  {
    match act
    case Use(d, call) =>
      if !Passes(s.conns[d], call) then s
      else
        var s1 := s.(conns := s.conns[d := AfterCheck(s.conns[d], call)]);
        if s.home[d] == onto then
          s1.(loops := Advance(s.loops, onto, [Calling(d, call), Guard(d), s.loops[onto].now[0]], onto, []))
        else
          s1.(loops := Queue(s.loops, s.home[d], [Functor(d, call)]))
    case Keep(d) => s.(held := s.held + multiset{d})
    case Drop(d) => s.(held := s.held - multiset{d})
    case Post(l) => s.(loops := Queue(s.loops, l, [Posted]))
    case Stop =>
      if onto == 0 then s.(loops := Advance(s.loops, 0, [StopFn, s.loops[0].now[0]], 0, []))
      else s.(loops := Queue(s.loops, 0, [StopFn]))
  }

  /** The shared_ptrs that the functors of a swapped batch keep until the vector dies. */
  function BatchRefs(q: seq<Item>): (r: set<ConnId>)
    ensures forall c :: c in r ==> exists k :: 0 <= k < |q| && c in Refs(q[k])
  {
    if q == [] then {} else Refs(q[0]) + BatchRefs(q[1..])
  }

  ghost function Next(s: Sys, e: Event): Sys
    requires Enabled(s, e)
  {
    match e
    case Poll(i, active) => s.(loops := s.loops[i := Loop(true, active, s.loops[i].pending)])
    case Swap(i) =>
      var batch := s.loops[i].pending;
      s.(loops := s.loops[i := Loop(false, batch + [BatchEnd(BatchRefs(batch))], [])])
    case Run(i, ch) => Exec(s, i, ch)
    case UserOnLoop(i, act) => User(s, i, act)
    case UserElsewhere(act) => User(s, -1, act)
  }

  /** Loop 0 is the server's; the others are the pool's. */
  predicate Initial(s: Sys) {
    && |s.loops| >= 1
    && (forall i :: 0 <= i < |s.loops| ==> s.loops[i] == Loop(false, [], []))
    && s.conns == [] && s.home == [] && s.entries == {} && s.held == multiset{} && s.log == [] && s.rearmed == {} && s.acceptor
  }

  /** `t` is reached from `s` by the events `es`. */
  ghost predicate Leads(s: Sys, es: seq<Event>, t: Sys)
    decreases |es|
  {
    if es == [] then s == t
    else Enabled(s, es[0]) && Leads(Next(s, es[0]), es[1..], t)
  }

  ghost predicate Reachable(t: Sys) {
    exists s, es :: Initial(s) && Leads(s, es, t)
  }
}
