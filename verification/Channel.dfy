/** Channel: the tie, and the order in which callbacks fire. */
module Channels {

  datatype Callback = OnError | OnClose | OnRead | OnWrite

  /** The event bits poll reported. */
  datatype Revents = Revents(error: bool, close: bool, read: bool, write: bool)

  function Bit(r: Revents, cb: Callback): bool {
    match cb
    case OnError => r.error
    case OnClose => r.close
    case OnRead => r.read
    case OnWrite => r.write
  }

  function Position(cb: Callback): nat {
    match cb
    case OnError => 0
    case OnClose => 1
    case OnRead => 2
    case OnWrite => 3
  }

  function One(r: Revents, set_: set<Callback>, cb: Callback): seq<Callback> {
    if Bit(r, cb) && cb in set_ then [cb] else []
  }

  /** handleEventWithGuard, for a channel on which the callbacks `set_` are set. */
  function Fired(r: Revents, set_: set<Callback>): seq<Callback> {
    One(r, set_, OnError) + One(r, set_, OnClose) + One(r, set_, OnRead) + One(r, set_, OnWrite)
  }

  /** A callback fires exactly if its bit is on and it is set, once, and errors come before
      closes, closes before reads, reads before writes. */
  lemma FiredInOrder(r: Revents, set_: set<Callback>)
    ensures forall cb :: cb in Fired(r, set_) <==> Bit(r, cb) && cb in set_
    ensures Ordered(Fired(r, set_))
  {
    var e, c, d, w := One(r, set_, OnError), One(r, set_, OnClose), One(r, set_, OnRead), One(r, set_, OnWrite);
    Append(e, c);
    Append(e + c, d);
    Append(e + c + d, w);
    forall cb ensures cb in Fired(r, set_) <==> Bit(r, cb) && cb in set_ {
      assert cb in Fired(r, set_) <==> cb in e || cb in c || cb in d || cb in w;
      match cb
      case OnError =>
      case OnClose =>
      case OnRead =>
      case OnWrite =>
    }
  }

  ghost predicate Ordered(calls: seq<Callback>) {
    forall j, k :: 0 <= j < k < |calls| ==> Position(calls[j]) < Position(calls[k])
  }

  lemma Append(calls: seq<Callback>, more: seq<Callback>)
    requires Ordered(calls) && |more| <= 1
    requires forall cb <- calls, m <- more :: Position(cb) < Position(m)
    ensures Ordered(calls + more)
  {
  }

  class Channel {
    var revents: Revents
    var tied: bool
    var callbacks: set<Callback>

    constructor ()
      ensures !tied && callbacks == {} && revents == Revents(false, false, false, false)
    {
      tied, callbacks := false, {};
      revents := Revents(false, false, false, false);
    }

    method SetCallback(cb: Callback)
      modifies this`callbacks
      ensures callbacks == old(callbacks) + {cb}
    {
      callbacks := callbacks + {cb};
    }

    method Tie()
      modifies this`tied
      ensures tied
    {
      tied := true;
    }

    /** `ownerAlive` is whether the tie can still be locked; the calls are made in order. */
    method HandleEvent(ownerAlive: bool) returns (calls: seq<Callback>)
      ensures tied && !ownerAlive ==> calls == []
      ensures !tied || ownerAlive ==>
                && (forall cb :: cb in calls <==> Bit(revents, cb) && cb in callbacks)
                && Ordered(calls)
    {
      calls := [];
      if tied {
        if ownerAlive {
          calls := HandleEventWithGuard();
        }
      } else {
        calls := HandleEventWithGuard();
      }
      FiredInOrder(revents, callbacks);
    }

    method HandleEventWithGuard() returns (calls: seq<Callback>)
      ensures calls == Fired(revents, callbacks)
    {
      calls := [];
      if revents.error && OnError in callbacks {
        calls := calls + [OnError];
      }
      assert calls == One(revents, callbacks, OnError);
      if revents.close && OnClose in callbacks {
        calls := calls + [OnClose];
      }
      assert calls == One(revents, callbacks, OnError) + One(revents, callbacks, OnClose);
      if revents.read && OnRead in callbacks {
        calls := calls + [OnRead];
      }
      if revents.write && OnWrite in callbacks {
        calls := calls + [OnWrite];
      }
    }
  }
}
