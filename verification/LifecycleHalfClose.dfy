/** Half-close in the multi-loop system: how often SHUT_WR is issued, and whether anything is
    written after it, exactly, in terms of the calls the application makes. */
module LifecycleHalfClose {
  import opened Bytes
  import opened Connection
  import opened Lifecycle
  import opened LifecycleInvariant
  import opened LifecyclePlaces
  import opened LifecycleStreams
  import opened LifecycleProjection
  import opened LifecycleWitness
  import H = HalfClose

  /** A connection begins fresh, on a loop that has nothing for it. */
  lemma NewLine(s: Sys, e: Event, c: ConnId)
    requires Inv(s) && AllPlaced(s) && Enabled(s, e) && |s.conns| <= c < |Next(s, e).conns|
    ensures Inv(Next(s, e)) && exists r :: LineOf(Next(s, e), c) == H.New(r)
  {
    InvStep(s, e);
    StepPlaced(s, e);
    StepCreates(s, e);
    var s' := Next(s, e);
    var l := s'.loops[s'.home[c]];
    assert Placed(l);
    NewLists(s, e, c);
    assert LineOf(s', c) == H.New(!l.dispatching);
  }

  lemma NewLists(s: Sys, e: Event, c: ConnId)
    requires Inv(s) && Enabled(s, e) && Inv(Next(s, e)) && |s.conns| <= c < |Next(s, e).conns|
    ensures var l := Next(s, e).loops[Next(s, e).home[c]];
            FunctorsOf(l.now, c) == [] && FunctorsOf(l.pending, c) == [] && InlineOf(l.now, c) == None
  {
    var s' := Next(s, e);
    var j := s'.home[c];
    assert ConnInv(s', c) && LoopInv(s', j) && s'.conns[c].state == Connecting by {
      StepCreates(s, e);
    }
    var l := s'.loops[j];
    forall it | it in l.now || it in l.pending ensures FunctorOf(it, c) == [] && !(it.Calling? && it.c == c) {
      assert it in Todo(s', j);
      var k :| 0 <= k < |Todo(s', j)| && Todo(s', j)[k] == it;
      assert ItemOk(s', j, Todo(s', j)[k]);
    }
    NoneWaits(l.now, c);
    NoneWaits(l.pending, c);
  }

  /** The run of the system, as the connection's line sees it. */
  lemma {:induction false} Projects(s: Sys, es: seq<Event>, c: ConnId, calls: seq<H.Made>, t: Sys)
    returns (l: H.Line, hs: seq<H.Event>)
    requires Inv(s) && AllPlaced(s) && Makes(s, es, c, calls, t) && c < |t.conns|
    ensures Inv(t) && H.Goes(l, hs, calls, LineOf(t, c))
    ensures if c < |s.conns| then l == LineOf(s, c) else exists r :: l == H.New(r)
    decreases |es|
  {
    if es == [] {
      l, hs := LineOf(s, c), [];
    } else {
      var e, s', p := es[0], Next(s, es[0]), CallsAt(s, es[0], c);
      InvStep(s, e);
      StepPlaced(s, e);
      l, hs := Projects(s', es[1..], c, calls[|p|..], t);
      if c < |s.conns| {
        StepImage(s, e, c);
        hs := Prepend(LineOf(s, c), Image(s, e, c), p, l, hs, calls, LineOf(t, c));
        l := LineOf(s, c);
      } else {
        assert p == [] && calls[0..] == calls;
        if c < |s'.conns| {
          NewLine(s, e, c);
        }
      }
    }
  }

  lemma Prepend(l: H.Line, h: Option<H.Event>, p: seq<H.Made>, l1: H.Line, hs: seq<H.Event>, calls: seq<H.Made>, l2: H.Line)
    returns (r: seq<H.Event>)
    requires Images(l, h, p, l1) && p <= calls && H.Goes(l1, hs, calls[|p|..], l2)
    ensures H.Goes(l, r, calls, l2)
  {
    match h
    case None =>
      assert calls[0..] == calls;
      r := hs;
    case Some(e) =>
      r := [e] + hs;
      assert r[1..] == hs;
  }

  // ----- the theorems -----

  /** A run of the system that ends in `t`, and on which these calls of `c`'s pass. */
  ghost predicate RunsWith(c: ConnId, calls: seq<H.Made>, t: Sys) {
    c < |t.conns| && exists s, es :: Initial(s) && Makes(s, es, c, calls, t)
  }

  lemma RunBounded(c: ConnId, calls: seq<H.Made>, t: Sys)
    requires RunsWith(c, calls, t)
    ensures Inv(t) && AllPlaced(t) && H.Bounded(LineOf(t, c), H.Tallied(H.NONE, calls)) && H.Allowed(H.Up, calls)
  {
    var s, es :| Initial(s) && Makes(s, es, c, calls, t);
    InvInitial(s);
    var l, hs := Projects(s, es, c, calls, t);
    var r :| l == H.New(r);
    H.NewBounded(r);
    H.RunKeeps(l, H.NONE, hs, calls, LineOf(t, c));
    H.CallsAllowed(l, hs, calls, LineOf(t, c));
    MakesReach(s, es, c, calls, t);
    PlacedReachable(t);
  }

  lemma MakesReach(s: Sys, es: seq<Event>, c: ConnId, calls: seq<H.Made>, t: Sys)
    requires Initial(s) && Makes(s, es, c, calls, t)
    ensures Reachable(t)
  {
    MakesLeads(s, es, c, calls, t);
  }

  /** In every run of the system SHUT_WR is issued at most MostFins of the calls made. */
  lemma FinsBounded(c: ConnId, calls: seq<H.Made>, t: Sys)
    requires RunsWith(c, calls, t)
    ensures t.conns[c].fins <= H.MostFins(H.Tallied(H.NONE, calls))
  {
    RunBounded(c, calls, t);
  }

  /** Some run with these calls issues SHUT_WR `n` times. */
  ghost predicate CanIssue(calls: seq<H.Made>, n: nat) {
    exists c: ConnId, t :: RunsWith(c, calls, t) && t.conns[c].fins == n
  }

  /** Some run with these calls writes bytes after SHUT_WR. */
  ghost predicate CanWriteLate(calls: seq<H.Made>) {
    exists c: ConnId, x, t, y, es, u ::
      RunsWith(c, x, t) && Makes(t, es, c, y, u) && x + y == calls && c < |u.conns|
      && t.conns[c].fins >= 1 && u.conns[c].wire != t.conns[c].wire
  }

  /** A run that does all it can: it issues SHUT_WR as often as possible, and writes after it
      if the calls allow that at all. */
  lemma Reaches(calls: seq<H.Made>)
    requires H.Allowed(H.Up, calls)
    ensures CanIssue(calls, H.MostFins(H.Tallied(H.NONE, calls)))
    ensures H.Late(H.Tallied(H.NONE, calls)) ==> CanWriteLate(calls)
  {
    var trip := H.Witness(calls);
    var t1, t := Travels(calls, trip);
    Issued(calls, t);
    if H.Late(H.Tallied(H.NONE, calls)) {
      WrittenLate(trip.x, t1, trip.z, t);
    }
  }

  /** The run that achieves the most, in the system: its two legs, and what is left. */
  lemma Travels(calls: seq<H.Made>, trip: H.Trip) returns (t1: Sys, t: Sys)
    requires H.Achieves(H.Fresh(), calls, H.Tallied(H.NONE, calls), trip)
    ensures |t1.conns| == |t.conns| == 1 && t1.conns[0] == trip.l1.conn
    ensures t.conns[0].fins == trip.l2.conn.fins && t.conns[0].wire == trip.l2.conn.wire
    ensures Gets(BOOT, trip.x, t1) && Gets(t1, trip.z, t) && Gets(BOOT, calls, t)
  {
    var n := |trip.a| + |trip.b| + |calls| + 1;
    var n1 := FirstLeg(trip.a, trip.x, trip.l1, n);
    t1 := Shown(trip.l1, n1);
    t := SecondLeg(trip.l1, trip.b, trip.l2, trip.z, n1);
    GetsOn(BOOT, trip.x, t1, trip.z, t);
  }

  lemma FirstLeg(a: seq<H.Event>, x: seq<H.Made>, l: H.Line, n: nat) returns (n': nat)
    requires H.Walks(H.Fresh(), a, x, l) && n >= |a|
    ensures n' >= n - |a| && IsUp(l.conn) && Gets(BOOT, x, Shown(l, n')) && Reachable(Shown(l, n'))
  {
    Opens(n);
    n' := ShowsWalk(H.Fresh(), n, a, x, l);
    GetsOn(BOOT, [], Shown(H.Fresh(), n), x, Shown(l, n'));
    assert [] + x == x;
  }

  lemma SecondLeg(l1: H.Line, b: seq<H.Event>, l2: H.Line, z: seq<H.Made>, n: nat) returns (t: Sys)
    requires H.Walks(l1, b, [], l2) && IsUp(l1.conn) && n > |b| + |z| && Reachable(Shown(l1, n))
    requires l2.inline.None? && H.Allowed(H.StageOf(l2), z) && forall m <- z :: m.call.CallForceClose?
    ensures Gets(Shown(l1, n), z, t) && |t.conns| == 1
    ensures t.conns[0].fins == l2.conn.fins && t.conns[0].wire == l2.conn.wire
  {
    var n' := ShowsWalk(l1, n, b, [], l2);
    t := ShowsEnds(l2, n', z);
    GetsOn(Shown(l1, n), [], Shown(l2, n'), z, t);
    assert [] + z == z;
  }

  lemma Issued(calls: seq<H.Made>, t: Sys)
    requires Gets(BOOT, calls, t) && |t.conns| == 1
    ensures CanIssue(calls, t.conns[0].fins)
  {
    var es :| Makes(BOOT, es, 0, calls, t);
    assert Initial(BOOT);
    assert RunsWith(0, calls, t);
  }

  lemma WrittenLate(x: seq<H.Made>, t: Sys, y: seq<H.Made>, u: Sys)
    requires Gets(BOOT, x, t) && Gets(t, y, u) && |t.conns| == |u.conns| == 1
    requires t.conns[0].fins >= 1 && |u.conns[0].wire| > |t.conns[0].wire|
    ensures CanWriteLate(x + y)
  {
    var a :| Makes(BOOT, a, 0, x, t);
    assert Initial(BOOT);
    assert RunsWith(0, x, t);
    var b :| Makes(t, b, 0, y, u);
  }

  /** Over all runs of the system in which the application makes these calls of a connection's,
      the largest number of SHUT_WRs is exactly MostFins of the calls. */
  lemma MostFinsIsExact(c: ConnId, calls: seq<H.Made>, t: Sys)
    requires RunsWith(c, calls, t)
    ensures forall n: nat :: CanIssue(calls, n) ==> n <= H.MostFins(H.Tallied(H.NONE, calls))
    ensures CanIssue(calls, H.MostFins(H.Tallied(H.NONE, calls)))
  {
    CallsPass(c, calls, t);
    Reaches(calls);
    forall n: nat | CanIssue(calls, n) ensures n <= H.MostFins(H.Tallied(H.NONE, calls)) {
      IssueBounded(calls, n);
    }
  }

  lemma CallsPass(c: ConnId, calls: seq<H.Made>, t: Sys)
    requires RunsWith(c, calls, t)
    ensures H.Allowed(H.Up, calls)
  {
    RunBounded(c, calls, t);
  }

  lemma IssueBounded(calls: seq<H.Made>, n: nat)
    requires CanIssue(calls, n)
    ensures n <= H.MostFins(H.Tallied(H.NONE, calls))
  {
    var c: ConnId, t :| RunsWith(c, calls, t) && t.conns[c].fins == n;
    FinsBounded(c, calls, t);
  }

  /** Some run with these calls issues SHUT_WR more than once if and only if shutdown() was
      called elsewhere after a nonempty send, or on the loop after a nonempty send elsewhere. */
  lemma HalfCloseOnceIff(c: ConnId, calls: seq<H.Made>, t: Sys)
    requires RunsWith(c, calls, t)
    ensures var tally := H.Tallied(H.NONE, calls);
            (exists n: nat :: n >= 2 && CanIssue(calls, n)) <==>
              (tally.closing.ShutElsewhere? && (tally.here || tally.elsewhere > 0))
              || (tally.closing.ShutHere? && tally.elsewhere > 0)
  {
    MostFinsIsExact(c, calls, t);
  }

  /** Some run with these calls writes bytes after SHUT_WR if and only if a nonempty send was
      made elsewhere and then shutdown() on the loop, or the closing call elsewhere with another
      nonempty send besides. */
  lemma LateWriteIff(c: ConnId, calls: seq<H.Made>, t: Sys)
    requires RunsWith(c, calls, t)
    ensures var tally := H.Tallied(H.NONE, calls);
            CanWriteLate(calls) <==>
              match tally.closing
              case ShutHere => tally.elsewhere >= 1
              case ShutElsewhere => tally.elsewhere >= 2 || (tally.elsewhere == 1 && tally.here)
              case ForceElsewhere => tally.elsewhere >= 2 || (tally.elsewhere == 1 && tally.here)
              case _ => false
  {
    CallsPass(c, calls, t);
    if H.Late(H.Tallied(H.NONE, calls)) {
      Reaches(calls);
    } else {
      SafeCalls(calls);
    }
  }

  lemma SafeCalls(calls: seq<H.Made>)
    requires !H.Late(H.Tallied(H.NONE, calls))
    ensures !CanWriteLate(calls)
  {
    forall c: ConnId, x, t, y, es, u | RunsWith(c, x, t) && Makes(t, es, c, y, u) && x + y == calls && c < |u.conns|
                                       && t.conns[c].fins >= 1
      ensures u.conns[c].wire == t.conns[c].wire
    {
      NeverLate(c, x, t, y, es, u);
    }
  }

  lemma NeverLate(c: ConnId, x: seq<H.Made>, t: Sys, y: seq<H.Made>, es: seq<Event>, u: Sys)
    requires RunsWith(c, x, t) && Makes(t, es, c, y, u) && t.conns[c].fins >= 1 && c < |u.conns|
    requires !H.Late(H.Tallied(H.NONE, x + y))
    ensures u.conns[c].wire == t.conns[c].wire
  {
    RunBounded(c, x, t);
    var tally := H.Tallied(H.NONE, x);
    H.TalliedOn(H.NONE, x, y);
    H.TalliedOnce(tally, y);
    var l, hs := Projects(t, es, c, y, u);
    H.NothingLate(l, tally, hs, y, LineOf(u, c));
  }

  /** Two SHUT_WRs without any send from another thread: shutdown() is called elsewhere while
      output waits, the drain half-closes, and then the functor does again. */
  lemma ShutTwice()
    ensures CanIssue([H.Made(CallSend([1]), true), H.Made(CallShutdown, false)], 2)
  {
    var calls := [H.Made(CallSend([1]), true), H.Made(CallShutdown, false)];
    assert calls[1..] == [H.Made(CallShutdown, false)] && calls[1..][1..] == [];
    var t := H.Tally(true, 0, H.Open);
    assert H.Tallied(H.NONE, calls) == H.Tallied(t, calls[1..]) == H.Tallied(t.(closing := H.ShutElsewhere), []);
    assert H.Allowed(H.Up, calls[1..]);
    Reaches(calls);
  }

  /** Three: on the loop, after two sends elsewhere that end up in two batches. */
  lemma ShutThreeTimes()
    ensures CanIssue([H.Made(CallSend([1]), false), H.Made(CallSend([2]), false), H.Made(CallShutdown, true)], 3)
  {
    var a, b, c := H.Made(CallSend([1]), false), H.Made(CallSend([2]), false), H.Made(CallShutdown, true);
    var calls := [a, b, c];
    assert calls[1..] == [b, c] && [b, c][1..] == [c] && [c][1..] == [];
    assert H.Tallied(H.NONE, calls) == H.Tallied(H.Tally(false, 1, H.Open), [b, c]) == H.Tallied(H.Tally(false, 2, H.Open), [c])
        == H.Tallied(H.Tally(false, 2, H.ShutHere), []);
    assert H.Allowed(H.Up, [c]) && H.Allowed(H.Up, [b, c]);
    Reaches(calls);
  }
}
