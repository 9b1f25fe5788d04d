/** The output path of one connection over whole runs of its loop. */
module OutputStream {
  import opened Bytes
  import opened Connection
  import opened Pollers

  /** What can happen to a connection, in the order its loop (or, for the last two, another
      thread's state check) executes it.  `Sent` and `ShutDown` are calls made on the loop
      thread, which run inline; the `Queued` ones are functors of calls made elsewhere. */
  datatype Event =
    | Established
    | Sent(msg: bytes, r: WriteResult)
    | Writable(r: WriteResult)
    | ShutDown
    | ForceClosed
    | Closed
    | QueuedSend(msg: bytes, r: WriteResult)
    | QueuedShutDown
    | QueuedForceClose
    | CheckedElsewhere(call: Call)

  predicate Enabled(c: Conn, e: Event) {
    match e
    case Established => c.state == Connecting
    case Sent(msg, r) => Possible(r, |msg|)
    case QueuedSend(msg, r) => Possible(r, |msg|)
    case Writable(r) => Possible(r, |c.output|)
    case _ => true
  }

  function Apply(c: Conn, e: Event): Conn
    requires Enabled(c, e)
  {
    match e
    case Established => ConnectEstablished(c)
    case Sent(msg, r) => if Passes(c, CallSend(msg)) then SendInLoop(c, msg, r) else c
    case Writable(r) => HandleWrite(c, r)
    case ShutDown => if Passes(c, CallShutdown) then ShutdownInLoop(AfterCheck(c, CallShutdown)) else c
    case ForceClosed => if Passes(c, CallForceClose) then HandleClose(c) else c
    case Closed => HandleClose(c)
    case QueuedSend(msg, r) => SendInLoop(c, msg, r)
    case QueuedShutDown => ShutdownInLoop(c)
    case QueuedForceClose => HandleClose(c)
    case CheckedElsewhere(call) => if Passes(c, call) then AfterCheck(c, call) else c
  }

  predicate Legal(c: Conn, es: seq<Event>)
    decreases |es|
  {
    es == [] || (Enabled(c, es[0]) && Legal(Apply(c, es[0]), es[1..]))
  }

  function Run(c: Conn, es: seq<Event>): Conn
    requires Legal(c, es)
    decreases |es|
  {
    if es == [] then c else Run(Apply(c, es[0]), es[1..])
  }

  /** The message a step takes responsibility for: everything handed to sendInLoop, except
      that EPIPE or ECONNRESET on a direct write, with nothing waiting, loses it. */
  function Accepted(c: Conn, e: Event): bytes
    requires Enabled(c, e)
  {
    match e
    case Sent(msg, r) => if c.state == Connected && !(r.PeerGone? && !c.writing && c.output == []) then msg else []
    case QueuedSend(msg, r) => if r.PeerGone? && !c.writing && c.output == [] then [] else msg
    case _ => []
  }

  function AllAccepted(c: Conn, es: seq<Event>): seq<bytes>
    requires Legal(c, es)
    decreases |es|
  {
    if es == [] then [] else [Accepted(c, es[0])] + AllAccepted(Apply(c, es[0]), es[1..])
  }

  lemma StepConserves(c: Conn, e: Event)
    requires Enabled(c, e)
    ensures var c' := Apply(c, e); c'.wire + c'.output == c.wire + c.output + Accepted(c, e)
  {
    match e
    case Sent(msg, r) => if Passes(c, CallSend(msg)) { SendConserves(c, msg, r); }
    case QueuedSend(msg, r) => SendConserves(c, msg, r);
    case _ =>
  }

  lemma SendConserves(c: Conn, msg: bytes, r: WriteResult)
    requires Possible(r, |msg|)
    ensures var c' := SendInLoop(c, msg, r);
            c'.wire + c'.output == c.wire + c.output + (if Dropped(c, r) then [] else msg)
  {
    var n := if WritesDirectly(c) && r.Wrote? then r.n else 0;
    assert msg[..n] + msg[n..] == msg;
    if WritesDirectly(c) {
      assert c.output == [];
      assert (c.wire + msg[..n]) + msg[n..] == c.wire + msg;
    } else {
      assert msg[..0] == [] && msg[0..] == msg;
      assert c.wire + (c.output + msg) == c.wire + c.output + msg;
    }
  }

  /** Whatever the kernel does, the bytes it took followed by the output buffer are the
      accepted messages in order: nothing lost, repeated or reordered. */
  lemma {:induction false} Conservation(c: Conn, es: seq<Event>)
    requires Legal(c, es)
    ensures var t := Run(c, es); t.wire + t.output == c.wire + c.output + Joined(AllAccepted(c, es))
    decreases |es|
  {
    if es != [] {
      StepConserves(c, es[0]);
      Conservation(Apply(c, es[0]), es[1..]);
      var a, rest := Accepted(c, es[0]), AllAccepted(Apply(c, es[0]), es[1..]);
      assert AllAccepted(c, es)[1..] == rest;
      assert c.wire + c.output + a + Joined(rest) == c.wire + c.output + (a + Joined(rest));
    } else {
      assert c.wire + c.output + [] == c.wire + c.output;
    }
  }

  // ----- what the kernel reports -----

  /** The bytes a step offers to `::write`, if it calls it at all. */
  function Offered(c: Conn, e: Event): Option<bytes> {
    match e
    case Writable(_) => if c.writing then Some(c.output) else None
    case Sent(msg, _) => if c.state == Connected && !c.writing && c.output == [] then Some(msg) else None
    case QueuedSend(msg, _) => if !c.writing && c.output == [] then Some(msg) else None
    case _ => None
  }

  /** How many bytes the kernel said it took. */
  function Reported(c: Conn, e: Event): nat {
    if Offered(c, e).None? then 0
    else match e
      case Writable(Wrote(n)) => n
      case Sent(_, Wrote(n)) => n
      case QueuedSend(_, Wrote(n)) => n
      case _ => 0
  }

  function AllReported(c: Conn, es: seq<Event>): nat
    requires Legal(c, es)
    decreases |es|
  {
    if es == [] then 0 else Reported(c, es[0]) + AllReported(Apply(c, es[0]), es[1..])
  }

  /** `wire` is what the kernel took: its length is the sum of the counts that `::write`
      returned.  With Conservation this fixes every byte of it, and of the output buffer. */
  lemma {:induction false} WireIsReported(c: Conn, es: seq<Event>)
    requires Legal(c, es)
    ensures |Run(c, es).wire| == |c.wire| + AllReported(c, es)
    decreases |es|
  {
    if es != [] {
      StepReports(c, es[0]);
      WireIsReported(Apply(c, es[0]), es[1..]);
    }
  }

  lemma StepReports(c: Conn, e: Event)
    requires Enabled(c, e)
    ensures |Apply(c, e).wire| == |c.wire| + Reported(c, e)
  {
  }

  /** In every run, after a write: the bytes it took are on the wire and exactly the others
      wait, with write interest on as long as there are any; without an answer that counts
      bytes none is taken, and only EPIPE or ECONNRESET on a direct write loses any. */
  lemma RestWaits(es: seq<Event>, e: Event)
    requires Legal(FRESH, es) && Enabled(Run(FRESH, es), e) && Offered(Run(FRESH, es), e).Some?
    ensures var c, o := Run(FRESH, es), Offered(Run(FRESH, es), e).value;
            var c', n := Apply(c, e), Reported(c, e);
            && n <= |o| && c'.wire == c.wire + o[..n]
            && c'.output == (if (e == Sent(o, PeerGone) || e == QueuedSend(o, PeerGone)) then [] else o[n..])
            && (c'.writing <==> c'.output != [])
  {
    InterestNeeded(FRESH, es);
  }

  /** Write interest is never on with nothing waiting, closed or not. */
  lemma {:induction false} InterestNeeded(c: Conn, es: seq<Event>)
    requires Legal(c, es) && (c.writing ==> c.output != [])
    ensures Run(c, es).writing ==> Run(c, es).output != []
    decreases |es|
  {
    if es != [] {
      InterestNeeded(Apply(c, es[0]), es[1..]);
    }
  }

  // ----- write interest -----

  /** Until the close, write interest is on exactly while output is waiting. */
  predicate InterestMatches(c: Conn) {
    c.state != Disconnected ==> (c.writing <==> c.output != [])
  }

  lemma {:induction false} WriteInterest(es: seq<Event>)
    requires Legal(FRESH, es)
    ensures InterestMatches(Run(FRESH, es))
  {
    InterestKept(FRESH, es);
  }

  lemma {:induction false} InterestKept(c: Conn, es: seq<Event>)
    requires Legal(c, es) && InterestMatches(c)
    ensures InterestMatches(Run(c, es))
    decreases |es|
  {
    if es != [] {
      InterestKept(Apply(c, es[0]), es[1..]);
    }
  }

  /** If kqueue stops at the first failing change: it watches for reading while the connection
      is up, and nothing once it is closed, even if write interest comes on again. */
  predicate FiltersMatch(c: Conn) {
    if c.state == Connected || c.state == Disconnecting then c.reading && c.filters.read
    else c.filters == NO_FILTERS && !c.reading
  }

  lemma {:induction false} FiltersKept(c: Conn, es: seq<Event>)
    requires Legal(c, es) && FiltersMatch(c)
    ensures FiltersMatch(Run(c, es))
    decreases |es|
  {
    if es != [] {
      FiltersKept(Apply(c, es[0]), es[1..]);
    }
  }

  // ----- half-close -----

  /** Every call is made on the loop thread. */
  predicate OnLoop(es: seq<Event>) {
    forall k :: 0 <= k < |es| ==> !es[k].QueuedSend? && !es[k].QueuedShutDown? && !es[k].QueuedForceClose? && !es[k].CheckedElsewhere?
  }

  predicate HalfCloseOk(c: Conn) {
    && InterestMatches(c)
    && c.fins <= 1
    && (c.state == Connecting ==> c.output == [])
    && (c.fins == 1 ==> !c.writing && c.output == [])
    && (c.state == Connecting || c.state == Connected ==> c.fins == 0)
    && (c.state == Disconnecting ==> (c.fins == 1 <==> c.output == []))
    && (c.state == Disconnected ==> !c.writing)
  }

  lemma {:induction false} HalfCloseKept(c: Conn, es: seq<Event>)
    requires Legal(c, es) && OnLoop(es) && HalfCloseOk(c)
    ensures HalfCloseOk(Run(c, es))
    decreases |es|
  {
    if es != [] {
      assert !es[0].QueuedSend?;
      HalfCloseKept(Apply(c, es[0]), es[1..]);
    }
  }

  /** Graceful half-close, all calls on the loop thread.  SHUT_WR is issued at most once; it
      is out exactly when, after shutdown(), the output has drained; by then the kernel has
      every accepted byte; and whatever happens later, nothing more is written. */
  lemma GracefulHalfClose(es: seq<Event>, more: seq<Event>)
    requires Legal(FRESH, es) && OnLoop(es)
    requires Legal(Run(FRESH, es), more) && OnLoop(more)
    ensures var c := Run(FRESH, es);
            && c.fins <= 1
            && (c.state == Disconnecting ==> (c.fins == 1 <==> c.output == []))
            && (c.fins == 1 ==> c.wire == Joined(AllAccepted(FRESH, es)))
            && (c.fins == 1 ==> Run(c, more).wire == c.wire && Run(c, more).fins == 1)
  {
    HalfCloseKept(FRESH, es);
    Conservation(FRESH, es);
    var c := Run(FRESH, es);
    assert c.wire + c.output == [] + [] + Joined(AllAccepted(FRESH, es)) == Joined(AllAccepted(FRESH, es));
    if c.fins == 1 {
      SilentAfterFin(c, more);
    }
  }

  predicate Finished(c: Conn) {
    c.fins >= 1 && !c.writing && c.output == [] && (c.state == Disconnecting || c.state == Disconnected)
  }

  lemma {:induction false} SilentAfterFin(c: Conn, es: seq<Event>)
    requires Legal(c, es) && OnLoop(es) && Finished(c)
    ensures Run(c, es).wire == c.wire && Run(c, es).fins == c.fins
    decreases |es|
  {
    if es != [] {
      assert !es[0].QueuedSend?;
      SilentAfterFin(Apply(c, es[0]), es[1..]);
    }
  }

  /** The same step with another answer of the kernel. */
  function Answered(e: Event, r: WriteResult): Event {
    match e
    case Sent(msg, _) => Sent(msg, r)
    case QueuedSend(msg, _) => QueuedSend(msg, r)
    case Writable(_) => Writable(r)
    case _ => e
  }

  /** With calls from other threads the promise fails: after SHUT_WR the kernel can make a step
      put bytes on the wire if and only if it is a queued send of a nonempty message.  (HalfClose
      says which calls lead there.) */
  lemma WritesAfterFinIff(c: Conn, e: Event)
    requires Finished(c) && Enabled(c, e)
    ensures (exists r :: Enabled(c, Answered(e, r)) && Apply(c, Answered(e, r)).wire != c.wire)
              <==> e.QueuedSend? && e.msg != []
  {
    if e.QueuedSend? && e.msg != [] {
      var all := Answered(e, Wrote(|e.msg|));
      assert Enabled(c, all) && |Apply(c, all).wire| == |c.wire| + |e.msg|;
    } else {
      forall r | Enabled(c, Answered(e, r)) ensures Apply(c, Answered(e, r)).wire == c.wire {
      }
    }
  }

  /** It does happen: a send queued before shutdown() on the loop runs after the SHUT_WR. */
  lemma LateSend()
    ensures var es := [Established, CheckedElsewhere(CallSend([7])), ShutDown];
            && Legal(FRESH, es) && Finished(Run(FRESH, es))
            && Apply(Run(FRESH, es), QueuedSend([7], Wrote(1))).wire == [7]
  {
    var c1 := Apply(FRESH, Established);
    var c2 := Apply(c1, CheckedElsewhere(CallSend([7])));
    var c3 := Apply(c2, ShutDown);
    assert Legal(c3, []) && Legal(c2, [ShutDown]) && Legal(c1, [CheckedElsewhere(CallSend([7])), ShutDown]) by {
      assert [CheckedElsewhere(CallSend([7])), ShutDown][1..] == [ShutDown] && [ShutDown][1..] == [];
    }
    var es := [Established, CheckedElsewhere(CallSend([7])), ShutDown];
    assert es[1..] == [CheckedElsewhere(CallSend([7])), ShutDown];
    assert Run(FRESH, es) == Run(c1, es[1..]) == Run(c2, [ShutDown]) == Run(c3, []) == c3;
  }
}
