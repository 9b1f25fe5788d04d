/** The state of one TcpConnection and what each of its methods does to it, as
    functions on values.  The class TcpConnections.TcpConnection is proved
    against these functions, and Lifecycle runs them for every connection. */
module Connection {
  import opened Bytes
  import opened Pollers

  datatype ConnState = Connecting | Connected | Disconnecting | Disconnected

  /** What `::write` reports: bytes taken, or one of the three kinds of errno
      that sendInLoop tells apart. */
  datatype WriteResult = Wrote(n: nat) | WouldBlock | PeerGone | OtherError

  /** `output` is outputBuffer_, `reading`/`writing` are the bits of the channel's
      events_, `tied` is the channel's tied_.  `filters` is what kqueue watches if it stops
      at the first failing change; otherwise it watches the interest bits.  `wire` is
      everything the kernel has accepted and `fins` how often SHUT_WR was issued. */
  datatype Conn = Conn(
    state: ConnState,
    reading: bool,
    writing: bool,
    tied: bool,
    filters: Filters,
    output: bytes,
    wire: bytes,
    fins: nat)

  const FRESH := Conn(Connecting, false, false, false, NO_FILTERS, [], [], 0)

  function Rank(s: ConnState): nat {
    match s
    case Connecting => 0
    case Connected => 1
    case Disconnecting => 2
    case Disconnected => 3
  }

  /** The kernel never takes more than it is offered. */
  predicate Possible(r: WriteResult, len: nat) {
    r.Wrote? ==> r.n <= len
  }

  /** sendInLoop tries the socket first only when nothing is waiting. */
  predicate WritesDirectly(c: Conn) {
    !c.writing && c.output == []
  }

  /** The message is lost: the direct write met EPIPE or ECONNRESET. */
  predicate Dropped(c: Conn, r: WriteResult) {
    WritesDirectly(c) && r.PeerGone?
  }

  /** The channel's update(), after a change of interest. */
  function Update(c: Conn): Conn {
    c.(filters := Updated(c.filters, c.reading, c.writing, true))
  }

  function EnableWriting(c: Conn): Conn {
    if c.writing then c else Update(c.(writing := true))
  }

  function SendInLoop(c: Conn, msg: bytes, r: WriteResult): Conn
    requires Possible(r, |msg|)
  {
    var n := if WritesDirectly(c) && r.Wrote? then r.n else 0;
    var sent := c.(wire := c.wire + msg[..n]);
    if !Dropped(c, r) && n < |msg| then
      EnableWriting(sent.(output := c.output + msg[n..]))
    else
      sent
  }

  function ShutdownInLoop(c: Conn): Conn {
    if c.writing then c else c.(fins := c.fins + 1)
  }

  function HandleWrite(c: Conn, r: WriteResult): Conn
    requires Possible(r, |c.output|)
  {
    if c.writing && r.Wrote? && r.n > 0 then
      var taken := c.(wire := c.wire + c.output[..r.n], output := c.output[r.n..]);
      if taken.output != [] then taken
      else
        var drained := Update(taken.(writing := false));
        if c.state == Disconnecting then ShutdownInLoop(drained) else drained
    else c
  }

  function DisableAll(c: Conn): Conn {
    Update(c.(reading := false, writing := false))
  }

  /** handleClose up to its callbacks. */
  function HandleClose(c: Conn): Conn {
    DisableAll(c).(state := Disconnected)
  }

  /** connectDestroyed around its callback: interest goes only if still Connected. */
  function ConnectDestroyed(c: Conn): Conn {
    (if c.state == Connected then DisableAll(c) else c).(state := Disconnected)
  }

  function ConnectEstablished(c: Conn): Conn {
    Update(c.(state := Connected, tied := true, reading := true))
  }

  /** The three public calls: what each does to state_ when its check passes, and
      whether the check passes. */
  datatype Call = CallSend(msg: bytes) | CallShutdown | CallForceClose

  predicate Passes(c: Conn, call: Call) {
    c.state == Connected || (call.CallForceClose? && c.state == Disconnecting)
  }

  function AfterCheck(c: Conn, call: Call): Conn
    requires Passes(c, call)
  {
    if call.CallSend? then c else c.(state := Disconnecting)
  }
}
