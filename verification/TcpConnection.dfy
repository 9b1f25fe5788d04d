/** TcpConnection with its output Buffer, method by method.  The kernel's answer to each
    `::write` is a parameter; callbacks and the hand-over to another loop belong to Lifecycle. */
module TcpConnections {
  import opened Bytes
  import opened Buffers
  import opened Connection
  import opened Pollers
  import OutputStream

  class TcpConnection {
    var state: ConnState
    var reading: bool
    var writing: bool
    var tied: bool
    var filters: Filters
    const outputBuffer: Buffer
    ghost var wire: bytes
    ghost var fins: nat

    ghost predicate Ok()
      reads this, outputBuffer
    {
      outputBuffer.Ok()
    }

    /** The connection as the value that Connection's functions work on. */
    ghost function Model(): Conn
      requires Ok()
      reads this, outputBuffer, outputBuffer.data
    {
      Conn(state, reading, writing, tied, filters, View(outputBuffer.State()), wire, fins)
    }

    constructor (rule: Rule)
      ensures Ok() && Model() == FRESH && fresh(outputBuffer) && fresh(outputBuffer.data) && outputBuffer.rule == rule
    {
      state, reading, writing, tied, filters := Connecting, false, false, false, NO_FILTERS;
      outputBuffer := new Buffer(rule);
      wire, fins := [], 0;
    }

    /** Channel::update. */
    method UpdateChannel()
      modifies this`filters
      ensures filters == Updated(old(filters), reading, writing, true)
    {
      if reading || filters.read {
        filters := Filters(reading, writing);
      }
    }

    /** The last part of sendInLoop: what is left goes to the buffer. */
    method KeepRest(rest: bytes) returns (ok: bool)
      requires Ok()
      modifies this`writing, this`filters, outputBuffer, outputBuffer.data
      ensures Ok() && (outputBuffer.data == old(outputBuffer.data) || fresh(outputBuffer.data))
      ensures ok ==> Model() == Connection.EnableWriting(old(Model()).(output := old(Model()).output + rest))
      ensures ok == Fits(outputBuffer.rule, old(outputBuffer.State()), |rest|)
      ensures outputBuffer.rule.AsDocumented? ==> ok
    {
      ok := outputBuffer.Append(rest);
      if ok && !writing {
        writing := true;
        UpdateChannel();
      }
    }

    /** Buffers what the kernel does not take at once; `ok` is false where that copy would
        leave the buffer's vector. */
    method SendInLoop(msg: bytes, r: WriteResult) returns (ok: bool)
      requires Ok() && Possible(r, |msg|)
      modifies this`writing, this`filters, this`wire, outputBuffer, outputBuffer.data
      ensures Ok() && (outputBuffer.data == old(outputBuffer.data) || fresh(outputBuffer.data))
      ensures ok ==> Model() == Connection.SendInLoop(old(Model()), msg, r)
      ensures var e := OutputStream.QueuedSend(msg, r);
              var offered, n := OutputStream.Offered(old(Model()), e).Some?, OutputStream.Reported(old(Model()), e);
              && |wire| == |old(wire)| + n
              && ok == ((offered && r.PeerGone?) || n == |msg| || Fits(outputBuffer.rule, old(outputBuffer.State()), |msg| - n))
      ensures ok ==> Model().wire + Model().output
                       == old(Model().wire + Model().output) + OutputStream.Accepted(old(Model()), OutputStream.QueuedSend(msg, r))
      ensures outputBuffer.rule.AsDocumented? ==> ok
    {
      var nwrote := 0;
      var remaining := |msg|;
      var faultError := false;
      ghost var was := Model();
      OutputStream.StepConserves(was, OutputStream.QueuedSend(msg, r));
      if !writing && outputBuffer.ReadableBytes() == 0 {
        if r.Wrote? {
          nwrote := r.n;
          remaining := |msg| - nwrote;
        } else if r.PeerGone? {
          faultError := true;
        }
      }
      wire := wire + msg[..nwrote];
      ok := true;
      if !faultError && remaining > 0 {
        ok := KeepRest(msg[nwrote..]);
      }
    }

    method HandleWrite(r: WriteResult)
      requires Ok() && Possible(r, |View(outputBuffer.State())|)
      modifies this`writing, this`filters, this`wire, this`fins, outputBuffer
      ensures Ok() && outputBuffer.data == old(outputBuffer.data)
      ensures Model() == Connection.HandleWrite(old(Model()), r)
      ensures |wire| == |old(wire)| + OutputStream.Reported(old(Model()), OutputStream.Writable(r))
      ensures wire + View(outputBuffer.State()) == old(wire) + old(View(outputBuffer.State()))
    {
      OutputStream.StepConserves(Model(), OutputStream.Writable(r));
      OutputStream.StepReports(Model(), OutputStream.Writable(r));
      if writing && r.Wrote? && r.n > 0 {
        wire := wire + View(outputBuffer.State())[..r.n];
        outputBuffer.Retrieve(r.n);
        if outputBuffer.ReadableBytes() == 0 {
          writing := false;
          UpdateChannel();
          if state == Disconnecting {
            ShutdownInLoop();
          }
        }
      }
    }

    method ShutdownInLoop()
      requires Ok()
      modifies this`fins
      ensures Ok() && Model() == Connection.ShutdownInLoop(old(Model()))
    {
      if !writing {
        fins := fins + 1;
      }
    }

    /** send(): inline on the loop thread, otherwise `queued` asks for a sendInLoop functor. */
    method Send(msg: bytes, inLoop: bool, r: WriteResult) returns (ok: bool, queued: bool)
      requires Ok() && Possible(r, |msg|)
      modifies this`writing, this`filters, this`wire, outputBuffer, outputBuffer.data
      ensures Ok() && (outputBuffer.data == old(outputBuffer.data) || fresh(outputBuffer.data))
      ensures queued == (Passes(old(Model()), CallSend(msg)) && !inLoop)
      ensures Passes(old(Model()), CallSend(msg)) && inLoop && ok ==> Model() == Connection.SendInLoop(old(Model()), msg, r)
      ensures !(Passes(old(Model()), CallSend(msg)) && inLoop) ==> Model() == old(Model())
      ensures outputBuffer.rule.AsDocumented? ==> ok
    {
      ok, queued := true, false;
      if state == Connected {
        if inLoop {
          ok := SendInLoop(msg, r);
        } else {
          queued := true;
        }
      }
    }

    method Shutdown(inLoop: bool) returns (queued: bool)
      requires Ok()
      modifies this`state, this`fins
      ensures Ok()
      ensures queued == (Passes(old(Model()), CallShutdown) && !inLoop)
      ensures var was := old(Model());
              Model() == if !Passes(was, CallShutdown) then was
                         else if inLoop then Connection.ShutdownInLoop(AfterCheck(was, CallShutdown))
                         else AfterCheck(was, CallShutdown)
    {
      queued := false;
      if state == Connected {
        state := Disconnecting;
        if inLoop {
          ShutdownInLoop();
        } else {
          queued := true;
        }
      }
    }

    method ForceClose(inLoop: bool) returns (queued: bool)
      requires Ok()
      modifies this`state, this`reading, this`writing, this`filters
      ensures Ok()
      ensures queued == (Passes(old(Model()), CallForceClose) && !inLoop)
      ensures var was := old(Model());
              Model() == if !Passes(was, CallForceClose) then was
                         else if inLoop then Connection.HandleClose(AfterCheck(was, CallForceClose))
                         else AfterCheck(was, CallForceClose)
    {
      queued := false;
      if state == Connected || state == Disconnecting {
        state := Disconnecting;
        if inLoop {
          HandleClose();
        } else {
          queued := true;
        }
      }
    }

    method HandleClose()
      requires Ok()
      modifies this`state, this`reading, this`writing, this`filters
      ensures Ok() && Model() == Connection.HandleClose(old(Model()))
    {
      state := Disconnected;
      reading, writing := false, false;
      UpdateChannel();
    }

    method ConnectEstablished()
      requires Ok() && state == Connecting
      modifies this`state, this`reading, this`tied, this`filters
      ensures Ok() && Model() == Connection.ConnectEstablished(old(Model()))
    {
      state := Connected;
      tied := true;
      reading := true;
      UpdateChannel();
    }

    /** Interest is dropped only when the connection is still Connected. */
    method ConnectDestroyed()
      requires Ok()
      modifies this`state, this`reading, this`writing, this`filters
      ensures Ok() && Model() == Connection.ConnectDestroyed(old(Model()))
    {
      if state == Connected {
        reading, writing := false, false;
        UpdateChannel();
      }
      state := Disconnected;
    }
  }
}
