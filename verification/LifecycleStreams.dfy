/** The multi-loop system runs, for each of its connections, the output path of OutputStream. */
module LifecycleStreams {
  import opened Bytes
  import opened Connection
  import opened Pollers
  import opened Lifecycle
  import opened LifecycleInvariant
  import Stream = OutputStream

  /** A call on the loop's thread: its check is one event, what it then does another. */
  function Carried(call: Call, r: WriteResult): Stream.Event {
    match call
    case CallSend(msg) => Stream.QueuedSend(msg, r)
    case CallShutdown => Stream.QueuedShutDown
    case CallForceClose => Stream.QueuedForceClose
  }

  /** What an event of the system is to connection `c`, if anything. */
  ghost function Effect(s: Sys, e: Event, c: ConnId): Option<Stream.Event>
    requires Enabled(s, e)
  {
    match e
    case Run(i, ch) => (
      match s.loops[i].now[0]
      case EstablishFn(d) => if d == c then Some(Stream.Established) else None
      case SendFn(d, msg) => if d == c then Some(Stream.QueuedSend(msg, ch.wrote)) else None
      case WriteFn(d) => if d == c then Some(Stream.Writable(ch.wrote)) else None
      case ShutdownFn(d) => if d == c then Some(Stream.QueuedShutDown) else None
      case ForceFn(d) => if d == c then Some(Stream.QueuedForceClose) else None
      case Calling(d, call) => if d == c then Some(Carried(call, ch.wrote)) else None
      case CloseFn(d) => if d == c then Some(Stream.Closed) else None
      case Stopping(rest, _) => if rest != [] && rest[0] == c then Some(Stream.CheckedElsewhere(CallShutdown)) else None
      case _ => None)
    case UserOnLoop(_, Use(d, call)) => if d == c then Some(Stream.CheckedElsewhere(call)) else None
    case UserElsewhere(Use(d, call)) => if d == c then Some(Stream.CheckedElsewhere(call)) else None
    case _ => None
  }

  ghost predicate Follows(conn: Conn, effect: Option<Stream.Event>, conn': Conn) {
    match effect
    case None => conn' == conn
    case Some(ev) => Stream.Enabled(conn, ev) && conn' == Stream.Apply(conn, ev)
  }

  lemma OutputEffect(s: Sys, i: LoopId, ch: Choice, c: ConnId)
    requires Inv(s) && RunEnabled(s, i, ch) && c < |s.conns|
    requires var it := s.loops[i].now[0]; SendsNow(it) || ShutsNow(it) || it.WriteFn?
    ensures c < |Exec(s, i, ch).conns| && Follows(s.conns[c], Effect(s, Run(i, ch), c), Exec(s, i, ch).conns[c])
  {
  }

  lemma StateEffect(s: Sys, i: LoopId, ch: Choice, c: ConnId)
    requires Inv(s) && RunEnabled(s, i, ch) && c < |s.conns|
    requires var it := s.loops[i].now[0]; it.EstablishFn? || Closes(it)
    ensures c < |Exec(s, i, ch).conns| && Follows(s.conns[c], Effect(s, Run(i, ch), c), Exec(s, i, ch).conns[c])
  {
    if s.loops[i].now[0].EstablishFn? {
      EstablishFinds(s, i);
    }
  }

  lemma StoppingEffect(s: Sys, i: LoopId, ch: Choice, c: ConnId)
    requires Inv(s) && RunEnabled(s, i, ch) && c < |s.conns| && s.loops[i].now[0].Stopping?
    ensures c < |Exec(s, i, ch).conns| && Follows(s.conns[c], Effect(s, Run(i, ch), c), Exec(s, i, ch).conns[c])
  {
    var rest := s.loops[i].now[0].rest;
    assert rest != [] ==> rest[0] in rest;
  }

  /** The items that leave every connection as it is; connectDestroyed is one of them, since
      it finds the connection Disconnected. */
  lemma NoEffect(s: Sys, i: LoopId, ch: Choice, c: ConnId)
    requires Inv(s) && RunEnabled(s, i, ch) && c < |s.conns|
    requires var it := s.loops[i].now[0];
             !Handed(it) && !it.WriteFn? && !it.EstablishFn? && !it.CloseFn? && !it.Stopping?
    ensures c < |Exec(s, i, ch).conns| && Exec(s, i, ch).conns[c] == s.conns[c]
  {
    HeadOk(s, i);
    if s.loops[i].now[0].DestroyFn? {
      DestroyFinds(s, i);
    }
  }

  lemma RunEffect(s: Sys, i: LoopId, ch: Choice, c: ConnId)
    requires Inv(s) && RunEnabled(s, i, ch) && c < |s.conns|
    ensures c < |Exec(s, i, ch).conns| && Follows(s.conns[c], Effect(s, Run(i, ch), c), Exec(s, i, ch).conns[c])
  {
    match s.loops[i].now[0]
    case SendFn(_, _) => OutputEffect(s, i, ch, c);
    case WriteFn(_) => OutputEffect(s, i, ch, c);
    case ShutdownFn(_) => OutputEffect(s, i, ch, c);
    case EstablishFn(_) => StateEffect(s, i, ch, c);
    case ForceFn(_) => StateEffect(s, i, ch, c);
    case Calling(_, call) => if call.CallForceClose? { StateEffect(s, i, ch, c); } else { OutputEffect(s, i, ch, c); }
    case CloseFn(_) => StateEffect(s, i, ch, c);
    case Stopping(_, _) => StoppingEffect(s, i, ch, c);
    case _ => NoEffect(s, i, ch, c);
  }

  /** Every event changes a connection by one step of its output path, or not at all. */
  lemma StepEffect(s: Sys, e: Event, c: ConnId)
    requires Inv(s) && Enabled(s, e) && c < |s.conns|
    ensures c < |Next(s, e).conns| && Follows(s.conns[c], Effect(s, e, c), Next(s, e).conns[c])
  {
    if e.Run? {
      RunEffect(s, e.i, e.choice, c);
    }
  }

  /** New connections start fresh. */
  lemma StepCreates(s: Sys, e: Event)
    requires Inv(s) && Enabled(s, e)
    ensures |Next(s, e).conns| == |s.conns| || Next(s, e).conns == s.conns + [FRESH]
  {
    if e.Run? {
      RunCreates(s, e.i, e.choice);
    }
  }

  lemma RunCreates(s: Sys, i: LoopId, ch: Choice)
    requires Inv(s) && RunEnabled(s, i, ch)
    ensures |Exec(s, i, ch).conns| == |s.conns| || Exec(s, i, ch).conns == s.conns + [FRESH]
  {
    if s.loops[i].now[0].Stopping? {
      var rest := s.loops[i].now[0].rest;
      assert rest != [] ==> rest[0] in rest;
    }
  }

  /** What a run of the system is to connection `c`: its steps of the output path, in order. */
  ghost function History(s: Sys, es: seq<Event>, t: Sys, c: ConnId): seq<Stream.Event>
    requires Leads(s, es, t)
    decreases |es|
  {
    if es == [] then []
    else if c >= |s.conns| || Effect(s, es[0], c).None? then History(Next(s, es[0]), es[1..], t, c)
    else [Effect(s, es[0], c).value] + History(Next(s, es[0]), es[1..], t, c)
  }

  lemma {:induction false} HistoryRuns(s: Sys, es: seq<Event>, t: Sys, c: ConnId)
    requires Inv(s) && Leads(s, es, t) && c < |t.conns|
    ensures var c0, h := if c < |s.conns| then s.conns[c] else FRESH, History(s, es, t, c);
            Stream.Legal(c0, h) && t.conns[c] == Stream.Run(c0, h)
    decreases |es|
  {
    if es != [] {
      var e, s' := es[0], Next(s, es[0]);
      InvStep(s, e);
      HistoryRuns(s', es[1..], t, c);
      if c < |s.conns| {
        StepEffect(s, e, c);
        if Effect(s, e, c).Some? {
          assert History(s, es, t, c)[1..] == History(s', es[1..], t, c);
        }
      } else {
        StepCreates(s, e);
      }
    }
  }

  /** In every run of the multi-loop system the output path of each connection is what its own
      events make it: the kernel took as many bytes as it reported, they are a prefix of the
      messages the connection took responsibility for, in order, the output buffer has the
      rest, and until the close write interest is on exactly while the buffer is not empty. */
  lemma ConnectionsStream(s: Sys, es: seq<Event>, t: Sys, c: ConnId)
    requires Initial(s) && Leads(s, es, t) && c < |t.conns|
    ensures var h := History(s, es, t, c);
            && Stream.Legal(FRESH, h) && t.conns[c] == Stream.Run(FRESH, h)
            && |t.conns[c].wire| == Stream.AllReported(FRESH, h)
            && t.conns[c].wire + t.conns[c].output == Joined(Stream.AllAccepted(FRESH, h))
    ensures Stream.InterestMatches(t.conns[c])
  {
    InvInitial(s);
    HistoryRuns(s, es, t, c);
    var h := History(s, es, t, c);
    Stream.WireIsReported(FRESH, h);
    Stream.Conservation(FRESH, h);
    Stream.WriteInterest(h);
    assert FRESH.wire + FRESH.output + Joined(Stream.AllAccepted(FRESH, h)) == Joined(Stream.AllAccepted(FRESH, h));
  }

  /** If the kernel stops at the first failing change, kqueue watches no closed connection, in
      any run, even one that a late send re-armed. */
  lemma ConnectionsWatched(t: Sys, c: ConnId)
    requires Reachable(t) && c < |t.conns|
    ensures t.conns[c].state == Disconnected ==> t.conns[c].filters == NO_FILTERS
    ensures t.conns[c].state == Connected || t.conns[c].state == Disconnecting ==> t.conns[c].filters.read
  {
    var s, steps :| Initial(s) && Leads(s, steps, t);
    InvInitial(s);
    HistoryRuns(s, steps, t, c);
    Stream.FiltersKept(FRESH, History(s, steps, t, c));
  }
}
