/** The check / re-check / store-or-queue hand-off behind `co_await recv()` and
    `co_await accept()`: one consumer coroutine, a producer, and the loop that runs
    resume functors.  recv takes everything that is there, accept the first element. */
module HandOff {
  import opened Channels

  datatype Take = All | First

  /** Free: the coroutine runs user code.  Checked: await_ready said no.  Suspended: between
      await_suspend and its resumption.  Resuming: await_resume is next. */
  datatype Pc = Free | Checked | Suspended | Resuming

  /** `stored` is whether the optional handle is engaged, `resumes` how many resume functors
      are queued; `delivered`, `arrived`, the number `resumed` of resume functors that ran and
      `closed` are histories.  `broken` records a resume of a coroutine that is not suspended,
      or an await_resume that finds nothing. */
  datatype Hand<T> = Hand(
    items: seq<T>,
    stored: bool,
    resumes: nat,
    pc: Pc,
    delivered: seq<T>,
    arrived: seq<T>,
    resumed: nat,
    closed: bool,
    broken: bool)

  /** Close: handleClose runs the connection and close callbacks, none of which is bound to
      the receiver; for accept, a connection that went down calls the connection callback. */
  datatype Event<T> = Arrive(xs: seq<T>) | Close | AwaitReady | AwaitSuspend | RunResume | AwaitResume

  function Start<T>(): Hand<T> { Hand([], false, 0, Free, [], [], 0, false, false) }

  /** handleRead calls back only with n > 0 bytes, so an arrival is never empty.  It may still
      come after the close: one dispatch runs the close callback before the read callback. */
  predicate Enabled<T>(s: Hand<T>, e: Event<T>) {
    match e
    case Arrive(xs) => |xs| > 0
    case Close => true
    case AwaitReady => s.pc == Free
    case AwaitSuspend => s.pc == Checked
    case RunResume => s.resumes > 0
    case AwaitResume => s.pc == Resuming
  }

  function Taken<T>(items: seq<T>, take: Take): nat {
    if take == First && |items| > 0 then 1 else |items|
  }

  function Next<T>(s: Hand<T>, take: Take, e: Event<T>): Hand<T>
    requires Enabled(s, e)
  {
    match e
    case Arrive(xs) =>
      var s1 := s.(items := s.items + xs, arrived := s.arrived + xs);
      if s.stored then s1.(stored := false, resumes := s.resumes + 1) else s1
    case Close => s.(closed := true)
    case AwaitReady => s.(pc := if |s.items| > 0 then Resuming else Checked)
    case AwaitSuspend =>
      if |s.items| > 0 then s.(pc := Suspended, resumes := s.resumes + 1) else s.(pc := Suspended, stored := true)
    case RunResume =>
      s.(resumes := s.resumes - 1, resumed := s.resumed + 1, pc := Resuming, broken := s.broken || s.pc != Suspended)
    case AwaitResume =>
      var n := Taken(s.items, take);
      s.(items := s.items[n..], delivered := s.delivered + s.items[..n], pc := Free, broken := s.broken || |s.items| == 0)
  }

  ghost predicate Leads<T(!new)>(s: Hand<T>, take: Take, es: seq<Event<T>>, t: Hand<T>)
    decreases |es|
  {
    if es == [] then s == t else Enabled(s, es[0]) && Leads(Next(s, take, es[0]), take, es[1..], t)
  }

  ghost predicate Inv<T>(s: Hand<T>) {
    && !s.broken
    && (s.pc == Suspended ==> (if s.stored then s.resumes == 0 else s.resumes == 1))
    && (s.pc != Suspended ==> !s.stored && s.resumes == 0)
    && (s.stored ==> s.items == [])
    && (s.resumes > 0 || s.pc == Resuming ==> s.items != [])
    && s.delivered + s.items == s.arrived
  }

  lemma StepKeeps<T>(s: Hand<T>, take: Take, e: Event<T>)
    requires Inv(s) && Enabled(s, e)
    ensures Inv(Next(s, take, e))
  {
    var s' := Next(s, take, e);
    match e
    case Arrive(xs) => assert s'.delivered + s'.items == (s.delivered + s.items) + xs;
    case AwaitResume =>
      var n := Taken(s.items, take);
      assert s.items[..n] + s.items[n..] == s.items;
      assert s'.delivered + s'.items == s.delivered + (s.items[..n] + s.items[n..]);
    case _ =>
  }

  lemma {:induction false} RunKeeps<T(!new)>(s: Hand<T>, take: Take, es: seq<Event<T>>, t: Hand<T>)
    requires Inv(s) && Leads(s, take, es, t)
    ensures Inv(t)
    decreases |es|
  {
    if es != [] {
      StepKeeps(s, take, es[0]);
      RunKeeps(Next(s, take, es[0]), take, es[1..], t);
    }
  }

  /** Under every interleaving: delivered then waiting is everything that arrived, in order; a
      stored coroutine means there is nothing to take, a queued or started resume means there
      is; a suspended coroutine is stored or queued exactly once, never both or neither; and
      neither a resume of a running coroutine nor an empty await_resume ("shouldn't happen")
      is reachable. */
  lemma HandOffIsSafe<T(!new)>(take: Take, es: seq<Event<T>>, t: Hand<T>)
    requires Leads(Start<T>(), take, es, t)
    ensures t.delivered + t.items == t.arrived
    ensures t.stored ==> t.items == []
    ensures t.resumes > 0 || t.pc == Resuming ==> t.items != []
    ensures t.pc == Suspended <==> (if t.stored then 1 else 0) + t.resumes == 1
    ensures (if t.stored then 1 else 0) + t.resumes <= 1
    ensures !t.broken
  {
    var nothing: seq<T> := [];
    assert nothing + nothing == nothing;
    RunKeeps(Start<T>(), take, es, t);
  }

  /** Some data came during `es`. */
  ghost predicate Arrives<T(!new)>(es: seq<Event<T>>) {
    exists k :: 0 <= k < |es| && es[k].Arrive?
  }

  /** Until data comes, a stored coroutine stays stored and nothing but closes can happen to it. */
  lemma {:induction false} StaysStored<T(!new)>(s: Hand<T>, take: Take, es: seq<Event<T>>, t: Hand<T>)
    requires Inv(s) && s.stored && Leads(s, take, es, t) && !Arrives(es)
    ensures t == s.(closed := t.closed)
    decreases |es|
  {
    if es != [] {
      assert !es[0].Arrive?;
      assert !Arrives(es[1..]) by {
        assert forall k :: 0 <= k < |es[1..]| ==> es[1..][k] == es[k + 1];
      }
      StaysStored(Next(s, take, es[0]), take, es[1..], t);
    }
  }

  /** A resume that was queued is run or still queued. */
  lemma {:induction false} ResumesCounted<T(!new)>(s: Hand<T>, take: Take, es: seq<Event<T>>, t: Hand<T>)
    requires Leads(s, take, es, t)
    ensures t.resumed + t.resumes >= s.resumed + s.resumes
    ensures s.stored && Arrives(es) ==> t.resumed + t.resumes > s.resumed + s.resumes
    decreases |es|
  {
    if es != [] {
      ResumesCounted(Next(s, take, es[0]), take, es[1..], t);
      if s.stored && Arrives(es) && !es[0].Arrive? {
        var k :| 0 <= k < |es| && es[k].Arrive?;
        assert es[1..][k - 1] == es[k];
      }
    }
  }

  /** What a close means for a pending recv, exactly: when the connection closes at `t` while a
      coroutine is stored, it is resumed afterwards if and only if more data arrives; otherwise
      it stays stored, however long the run goes on. */
  lemma PendingAtCloseIff<T(!new)>(take: Take, es: seq<Event<T>>, t: Hand<T>, more: seq<Event<T>>, u: Hand<T>)
    requires Leads(Start<T>(), take, es, t) && t.stored && Leads(Next(t, take, Event<T>.Close), take, more, u)
    ensures u.resumed + u.resumes > t.resumed <==> Arrives(more)
    ensures !Arrives(more) ==> u.stored && u.pc == Suspended && u.delivered == t.delivered && u.closed
  {
    var nothing: seq<T> := [];
    assert nothing + nothing == nothing;
    RunKeeps(Start<T>(), take, es, t);
    var closed := Next(t, take, Event<T>.Close);
    ResumesCounted(closed, take, more, u);
    if !Arrives(more) {
      StaysStored(closed, take, more, u);
    }
  }

  /** What readFd finds when the read callback runs. */
  datatype Found<T> = Bytes(xs: seq<T>) | End | Failure

  /** The callbacks of one dispatch, in order, as they reach the receiver. */
  function Reaching<T>(fired: seq<Callback>, found: Found<T>): seq<Event<T>> {
    if fired == [] then []
    else
      (match fired[0]
       case OnClose => [Close]
       case OnRead => if found.Bytes? then [Arrive(found.xs)] else if found.End? then [Close] else []
       case _ => []) + Reaching(fired[1..], found)
  }

  lemma {:induction false} ReachingConcat<T>(a: seq<Callback>, b: seq<Callback>, found: Found<T>)
    ensures Reaching(a + b, found) == Reaching(a, found) + Reaching(b, found)
  {
    if a == [] {
      assert a + b == b;
    } else {
      assert (a + b)[1..] == a[1..] + b;
      ReachingConcat(a[1..], b, found);
    }
  }

  lemma ClosingDispatch<T>(r: Revents, found: Found<T>)
    requires r.close
    ensures Reaching(Fired(r, {OnError, OnClose, OnRead, OnWrite}), found)
              == [Event<T>.Close]
                 + if !r.read || found.Failure? then [] else if found.Bytes? then [Arrive(found.xs)] else [Event<T>.Close]
  {
    var all := {OnError, OnClose, OnRead, OnWrite};
    var e, c, d, w := One(r, all, OnError), One(r, all, OnClose), One(r, all, OnRead), One(r, all, OnWrite);
    ReachingConcat(e + c + d, w, found);
    ReachingConcat(e + c, d, found);
    ReachingConcat(e, c, found);
    assert forall cb: Callback :: [cb][1..] == [];
    assert Reaching(e, found) == [] && Reaching(w, found) == [];
    assert Reaching(c, found) == [Event<T>.Close];
  }

  /** In the dispatch that closes the connection: a coroutine that is stored before it is
      resumed in it if and only if poll also reported the read bit and the read brings data,
      and then the data waits for it; otherwise it stays stored. */
  lemma ClosingDispatchResumesIff<T(!new)>(take: Take, es: seq<Event<T>>, t: Hand<T>, r: Revents, found: Found<T>, u: Hand<T>)
    requires Leads(Start<T>(), take, es, t) && t.stored && r.close
    requires Leads(t, take, Reaching(Fired(r, {OnError, OnClose, OnRead, OnWrite}), found), u)
    ensures u.closed && (u.resumes == 1 <==> r.read && found.Bytes?)
    ensures if u.resumes == 1 then u.items == found.xs && !u.stored else u.stored && u.items == []
  {
    HandOffIsSafe(take, es, t);
    ClosingDispatch(r, found);
    var rest: seq<Event<T>> :=
      if !r.read || found.Failure? then [] else if found.Bytes? then [Arrive(found.xs)] else [Event<T>.Close];
    assert ([Event<T>.Close] + rest)[1..] == rest;
    var t' := t.(closed := true);
    assert Leads(t', take, rest, u);
    if rest != [] {
      assert rest[1..] == [];
      assert Leads(Next(t', take, rest[0]), take, [], u);
    }
  }

  /** The run that the documentation of recv() rules out: the connection closes, and the
      coroutine is never given the empty buffer. */
  lemma ClosedRecvWaits<T(!new)>(take: Take)
    ensures exists t :: Leads(Start<T>(), take, [AwaitReady, Event<T>.AwaitSuspend, Close], t)
                        && t.closed && t.stored && t.pc == Suspended && t.resumes == t.resumed == 0
  {
    var s1 := Next(Start<T>(), take, AwaitReady);
    var s2 := Next(s1, take, Event<T>.AwaitSuspend);
    var s3 := Next(s2, take, Close);
    var es := [AwaitReady, Event<T>.AwaitSuspend, Close];
    assert es[1..] == [Event<T>.AwaitSuspend, Close] && es[1..][1..] == [Event<T>.Close] && es[1..][1..][1..] == [];
    assert Leads(s3, take, [], s3);
    assert Leads(s2, take, es[1..][1..], s3);
    assert Leads(s1, take, es[1..], s3);
  }

  /** Awaiting suspends only if there is nothing: otherwise await_ready goes straight on to
      await_resume, which takes everything for recv and the first element for accept. */
  lemma ReadyTakesAtOnce<T(!new)>(take: Take, es: seq<Event<T>>, t: Hand<T>)
    requires Leads(Start<T>(), take, es, t) && t.pc == Free
    ensures t.items == [] ==> Next(t, take, AwaitReady) == t.(pc := Checked)
    ensures t.items != [] ==>
              var u := Next(t, take, AwaitReady);
              && u.pc == Resuming && Enabled(u, Event<T>.AwaitResume)
              && var v := Next(u, take, Event<T>.AwaitResume);
                 && v.pc == Free && v.delivered == t.delivered + (if take == All then t.items else [t.items[0]])
                 && v.items == (if take == All then [] else t.items[1..])
  {
    HandOffIsSafe(take, es, t);
    if t.items != [] {
      assert t.items[..1] == [t.items[0]] && t.items[..|t.items|] == t.items;
    }
  }

  /** No wake-up is lost: a coroutine that waits while something is there has its resume queued. */
  lemma WaitingWithItemsIsQueued<T(!new)>(take: Take, es: seq<Event<T>>, t: Hand<T>)
    requires Leads(Start<T>(), take, es, t) && t.pc == Suspended
    ensures t.items != [] <==> t.resumes == 1
  {
    HandOffIsSafe(take, es, t);
  }
}

/** AsyncConnection's receive side, with its moves. */
module AsyncConnections {
  import opened Bytes
  import opened HandOff

  type Handle = nat

  /** The TcpConnection as far as this layer sees it: whom its message callback captured.  Its
      connection and close callbacks belong to the server. */
  class Endpoint {
    var target: AsyncConnection?
    var connected: bool

    constructor ()
      ensures target == null && connected
    {
      target, connected := null, true;
    }

    /** handleClose: neither the connection callback nor the close callback reaches the
        AsyncConnection, so the hand-off is where it was. */
    method HandleClose(ghost h: Hand<byte>)
      requires target != null && target.Shows(h)
      modifies this`connected
      ensures !connected && target == old(target) && target.Shows(Next(h, All, Event<byte>.Close))
    {
      connected := false;
    }

    /** The message callback fires with the bytes of one read. */
    method Message(d: bytes, ghost h: Hand<byte>) returns (resume: Option<Handle>)
      requires target != null && target.Shows(h) && |d| > 0
      modifies target`receivedData, target`recvCoroutine
      ensures target.Shows(Next(h, All, Arrive(d)))
      ensures resume.Some? <==> Next(h, All, Arrive(d)).resumes == h.resumes + 1
      ensures resume.Some? ==> resume == old(target.recvCoroutine)
    {
      resume := target.OnMessage(d, h);
    }
  }

  class AsyncConnection {
    var conn: Endpoint?
    var receivedData: bytes
    var recvCoroutine: Option<Handle>

    /** This object is in the state `h` of the hand-off. */
    ghost predicate Shows(h: Hand<byte>)
      reads this
    {
      receivedData == h.items && recvCoroutine.Some? == h.stored
    }

    constructor (conn: Endpoint)
      modifies conn
      ensures this.conn == conn && conn.target == this && Shows(Start())
    {
      this.conn := conn;
      receivedData, recvCoroutine := [], None;
      new;
      BindCallbacks();
    }

    method BindCallbacks()
      modifies conn
      ensures conn != null ==> conn.target == this
    {
      if conn != null {
        conn.target := this;
      }
    }

    /** Moving between awaits: the new object takes over data, handle and callbacks, so the
        hand-off goes on where it was.  What the moved-from buffer holds is left open. */
    constructor Move(other: AsyncConnection, ghost h: Hand<byte>)
      requires other.Shows(h) && h.pc == Free
      modifies other, other.conn
      ensures conn == old(other.conn) && Shows(h)
      ensures conn != null ==> conn.target == this
      ensures other.conn == null
    {
      conn := other.conn;
      receivedData, recvCoroutine := other.receivedData, other.recvCoroutine;
      new;
      other.conn := null;
      other.receivedData := *;
      BindCallbacks();
    }

    /** The connection this object had before keeps calling it back: its messages will join
        those of the new one. */
    method MoveAssign(other: AsyncConnection, ghost h: Hand<byte>)
      requires other.Shows(h) && h.pc == Free
      modifies this, other, other.conn
      ensures conn == old(other.conn) && Shows(h)
      ensures other != this && conn != null ==> conn.target == this
      ensures other != this ==> other.conn == null
      ensures old(conn) != null && old(conn) != conn ==> old(conn).target == old(conn.target)
      ensures other == this ==> conn == old(conn)
    {
      if other != this {
        conn := other.conn;
        receivedData, recvCoroutine := other.receivedData, other.recvCoroutine;
        other.conn := null;
        other.receivedData := *;
        BindCallbacks();
      }
    }

    /** Returns the coroutine whose resume functor is queued. */
    method OnMessage(d: bytes, ghost h: Hand<byte>) returns (resume: Option<Handle>)
      requires Shows(h) && |d| > 0
      modifies this`receivedData, this`recvCoroutine
      ensures Shows(Next(h, All, Arrive(d)))
      ensures resume.Some? <==> Next(h, All, Arrive(d)).resumes == h.resumes + 1
      ensures resume.Some? ==> resume == old(recvCoroutine)
    {
      receivedData := receivedData + d;
      resume := recvCoroutine;
      if recvCoroutine.Some? {
        recvCoroutine := None;
      }
    }

    method AwaitReady(ghost h: Hand<byte>) returns (ready: bool)
      requires Shows(h) && h.pc == Free
      ensures Shows(Next(h, All, Event<byte>.AwaitReady))
      ensures ready <==> Next(h, All, Event<byte>.AwaitReady).pc == Resuming
      ensures ready <==> receivedData != []
    {
      ready := |receivedData| > 0;
    }

    method AwaitSuspend(handle: Handle, ghost h: Hand<byte>) returns (resume: Option<Handle>)
      requires Shows(h) && h.pc == Checked
      modifies this`recvCoroutine
      ensures var h' := Next(h, All, Event<byte>.AwaitSuspend);
              Shows(h') && (resume == Some(handle) <==> h'.resumes == h.resumes + 1)
      ensures resume.None? <==> recvCoroutine == Some(handle) && receivedData == []
    {
      if |receivedData| > 0 {
        resume := Some(handle);
      } else {
        recvCoroutine := Some(handle);
        resume := None;
      }
    }

    method AwaitResume(ghost h: Hand<byte>) returns (r: bytes)
      requires Shows(h) && h.pc == Resuming
      modifies this`receivedData
      ensures var h' := Next(h, All, Event<byte>.AwaitResume);
              Shows(h') && h'.delivered == h.delivered + r
      ensures receivedData == []
    {
      r := receivedData;
      receivedData := [];
      assert r[|r|..] == [] && r[..|r|] == r;
    }
  }
}

/** AsyncServer's accept side. */
module AsyncServers {
  import opened Bytes
  import opened HandOff

  type Handle = nat

  class AsyncServer<Connection> {
    var pendingConnections: seq<Connection>
    var acceptCoroutine: Option<Handle>

    ghost predicate Shows(h: Hand<Connection>)
      reads this
    {
      pendingConnections == h.items && acceptCoroutine.Some? == h.stored
    }

    constructor ()
      ensures Shows(Start())
    {
      pendingConnections, acceptCoroutine := [], None;
    }

    /** The connection callback: only a connection that is up counts as an arrival; one that
        went down changes nothing. */
    method OnConnection(conn: Connection, connected: bool, ghost h: Hand<Connection>) returns (resume: Option<Handle>)
      requires Shows(h)
      modifies this
      ensures connected ==> Shows(Next(h, First, Arrive([conn])))
      ensures connected ==> (resume.Some? <==> Next(h, First, Arrive([conn])).resumes == h.resumes + 1)
      ensures resume.Some? ==> resume == old(acceptCoroutine)
      ensures !connected ==> Shows(Next(h, First, Event<Connection>.Close)) && resume == None
    {
      resume := None;
      if connected {
        pendingConnections := pendingConnections + [conn];
        if acceptCoroutine.Some? {
          resume := acceptCoroutine;
          acceptCoroutine := None;
        }
      }
    }

    method AwaitReady(ghost h: Hand<Connection>) returns (ready: bool)
      requires Shows(h) && h.pc == Free
      ensures Shows(Next(h, First, Event<Connection>.AwaitReady))
      ensures ready <==> Next(h, First, Event<Connection>.AwaitReady).pc == Resuming
      ensures ready <==> |pendingConnections| > 0
    {
      ready := |pendingConnections| > 0;
    }

    method AwaitSuspend(handle: Handle, ghost h: Hand<Connection>) returns (resume: Option<Handle>)
      requires Shows(h) && h.pc == Checked
      modifies this`acceptCoroutine
      ensures var h' := Next(h, First, Event<Connection>.AwaitSuspend);
              Shows(h') && (resume == Some(handle) <==> h'.resumes == h.resumes + 1)
      ensures resume.None? <==> acceptCoroutine == Some(handle) && |pendingConnections| == 0
    {
      if |pendingConnections| > 0 {
        resume := Some(handle);
        return;
      }
      acceptCoroutine := Some(handle);
      resume := None;
    }

    /** None where the source throws. */
    method AwaitResume(ghost h: Hand<Connection>) returns (r: Option<Connection>)
      requires Shows(h) && h.pc == Resuming
      modifies this`pendingConnections
      ensures var h' := Next(h, First, Event<Connection>.AwaitResume);
              Shows(h') && h'.delivered == h.delivered + (if r.Some? then [r.value] else [])
      ensures r.None? <==> h.items == []
    {
      if |pendingConnections| == 0 {
        return None;
      }
      r := Some(pendingConnections[0]);
      pendingConnections := pendingConnections[1..];
    }
  }
}
