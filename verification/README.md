# Hayai, modelled and proved in Dafny

Hayai is a C++ reactor (one event loop per thread, functor queues between
threads, connections shared by reference count) with a layer of C++20
coroutines on top. This project models its connection life cycle across
loops, the wake-up protocol of an event loop, the I/O buffer, the output path
of a connection, the coroutine hand-offs, `Task<T>`, `spawn`, the round-robin
pool and the server's connection map, and proves what holds in every run.

Verify everything with `dafny verify dfyconfig.toml`.

## How it is organised

- `Lifecycle.dfy`, `LifecycleInvariant.dfy`, `LifecycleTheorems.dfy`,
  `LifecycleProgress.dfy`: any number of loops, connections and application
  threads as one state machine. A loop executes its list `now` from the front;
  inline calls put their work in front, `queueInLoop` appends to `pending`.
  Every shared_ptr is an item, a map entry or a count of references the
  application holds; every raw `this` and every raw `Channel*` is an item too.
- `LifecycleSteps.dfy` is the shape of a step of that machine and
  `LifecyclePlaces.dfy` which items occur in which phase of a loop;
  `LifecycleOrder.dfy` has the order of functors and connectDestroyed;
  `LifecycleCallers.dfy` and `LifecycleAcceptor.dfy` what callers must do to be
  safe; `LifecycleDrain.dfy` how the loops run dry; `LifecycleStop.dfy` when
  stop() leads to the use of the freed acceptor. `LifecycleReads.dfy` is what a
  dispatch and a read bring about, `LifecycleEnding.dfy` what shutdown(),
  forceClose() and stop() do, over whole runs.
- `LifecycleStreams.dfy` ties every connection of the machine to the runs of
  `OutputStream.dfy`. `LifecycleProjection.dfy` ties it, with its calls, to the
  runs of `HalfClose.dfy`, and `LifecycleWitness.dfy` lifts the runs found there
  back into the machine, so that `LifecycleHalfClose.dfy` is about the machine.
  `LifecycleSends.dfy` follows each message from send() to sendInLoop.
- `Connection.dfy` gives each method of TcpConnection as a function on values.
  `TcpConnection.dfy` proves the class against these functions, `Lifecycle.dfy`
  runs the same functions, and `OutputStream.dfy` proves whole runs of them.
  `HalfClose.dfy` is one connection and its loop: calls on the loop and from other
  threads, the batch of functors being run and those queued since, with channel
  events only between batches.
- `Channel.dfy`: the dispatch of one event; `Lifecycle.dfy` runs the callbacks
  it fires. `Poller.dfy`: what kqueue watches after updateChannel.
- `Buffer.dfy`: the class over an array, its value-level specification, and
  histories over any number of buffers.
- `EventLoop.dfy`, `HandOff.dfy`, `Task.dfy`, `Spawn.dfy`, `ThreadPool.dfy`,
  `TcpServer.dfy`: one component each, a protocol or specification with its
  theorems and the class that is proved against it. The hand-off behind
  `recv()` and `accept()` is one machine used twice.

## Where the code departs from its own promises

Each of these is kept as the code has it, with the exact condition proved.

- `writableBytes()` is coded as `size - readerIndex_`; the layout diagram and
  every user mean `size - writerIndex_`. `Buffer.dfy` proves both readings side
  by side: `ReadingsAgreeIff`, `CodedFitsIff` and `CodedReadFitsIff` give the
  exact condition under which the coded form stays inside the vector,
  `CodedOverrun` a case where it does not, `DocumentedRunsComplete` that the
  documented form always does.
- A send queued from another thread may run after the connection closed and
  switch write interest back on; connectDestroyed then leaves it on, because it
  only clears interest in state Connected and `Channel::index_` is never set.
  If the kernel applies every change that updateChannel lists, the channel can be
  polled again and freed before it is dispatched. `RawItemsAlive` proves that this
  is the only way a raw pointer to a connection or its channel can dangle.
  If every send is made on the connection's loop it never happens
  (`OnLoopSendsNeverDangle`). One queued send to a closed connection that the
  application holds is enough to get there (`LateSendCanDangle`);
  `IdleDanglesIff` tells from the state between iterations whether it still can
  happen, and `ReArmedChannelDangles` is a run.
- Whether such a channel is watched again depends on the kernel: updateChannel
  deletes the READ filter, which is gone already, before it adds the WRITE filter
  (src/net/Poller.cc:69-81). `UpdatedIff` says when the filters are the interest
  bits. If kevent stops at the first failing change, the re-armed channel is not
  watched (`ConnectionsWatched`) and no connection or channel of one dangles
  whatever the callers do (`StrictKernelNeverDangles`).
- stop() on the server's loop runs its functor inline and frees the acceptor
  (src/net/TcpServer.cc:46-47) while the acceptor's own event may be in the
  dispatch, or be what led to the call (src/net/EventLoop.cc:54-56).
  `StopDanglesIff`: the loop goes on to use the freed acceptor if and only if that
  is so. `CarefulStopsNeverDangle` proves that nothing else can do it,
  `StopInsideAccept` is a run. `SafeCallersNeverDangle`: callers that keep to both
  rules make no loop use anything freed.
- The half-close promise (SHUT_WR once, nothing written after it) needs calls on
  the loop thread. With calls from other threads
  `LifecycleHalfClose.MostFinsIsExact` gives the largest number of SHUT_WRs as a
  function of the calls, at most three; `HalfCloseOnceIff` and `LateWriteIff` say
  for exactly which calls each half of the promise can fail; `ShutTwice` and
  `ShutThreeTimes` are runs, `OutputStream.LateSend` one on the values.
- `queueInLoop` on the loop's own thread before `loop()` writes no token:
  `NoLostWakeupIff` has the exact condition on the state at loop entry.
- `recv()` is documented to return an empty buffer on close. A recv that is
  pending at the close is resumed if and only if more data arrives
  (`PendingAtCloseIff`). In the dispatch of the close itself that is so if and only
  if the read bit is on as well and the read brings data
  (`ClosingDispatchResumesIff`). `ClosedRecvWaits` is a run in which it stays
  pending, and it never returns empty (`HandOffIsSafe`).
- After a move assignment the connection the target had before still calls the
  target back (`MoveAssign`).
- Round robin is disturbed when the size_t counter wraps, unless the number of
  loops divides 2^64 (`WrapKeepsRotationIff`).

## Assumptions

- `state_` is a plain field read by several threads. The state check of send,
  shutdown and forceClose and the hand-over of their functor are one atomic
  step; regions under a mutex and operations on atomics are atomic steps.
- poll reports channels with some interest, in any number and order, the same one
  any number of times; which event bits they carry is arbitrary. So kevent is
  taken to apply every change of a list even after one that failed. What holds if
  it stops there is proved apart, in the results about the filters. Closing a
  descriptor, and the acceptor's destructor, unregister it.
- The application reaches a connection only through a shared_ptr it holds or
  was passed, and does not call connectEstablished, connectDestroyed or
  setCloseCallback. The server outlives its loops.
- One receiver per AsyncConnection and one acceptor per AsyncServer; an
  AsyncConnection is moved only while no awaiter is outstanding.
- The wake-up pipe never fills.

## Model

| member | source | states |
|---|---|---|
| LifecycleTheorems.RawItemsAlive | src/net/TcpConnection.cc:27-36 | In every run, whatever a loop still has to execute through a raw connection or channel pointer finds the connection alive; the only exception is a channel of an already destroyed connection whose write interest a late send switched on again |
| LifecycleTheorems.NeverDangling | src/net/EventLoop.cc:49-60 | As long as no send re-arms a closed connection, no loop's next step uses a freed connection or its channel |
| LifecycleOrder.FunctorsPrecedeDestroy | src/net/TcpServer.cc:107-113 | In every run: wherever a functor of send, shutdown or forceClose waits, it is on the connection's own loop and finds it alive, connectDestroyed has neither run nor stands ahead of it, and stands behind it exactly if the map has let go of the connection |
| LifecycleOrder.MapExcludesDestroy | src/net/TcpServer.cc:97-106 | While the map has a connection, its connectDestroyed is in no list and has not run |
| LifecycleTheorems.PolledChannelDanglesIff | src/net/TcpConnection.cc:147-163 | A polled channel can be freed before its dispatch by the application dropping its references, if and only if connectDestroyed already ran and no item holds the connection |
| LifecycleTheorems.ReArmedChannelDangles | src/net/TcpConnection.cc:60-67 | If kevent applies every change: a complete run that reaches the dangling dispatch, as sendInLoop has no state check |
| LifecycleCallers.OnLoopSendsNeverDangle | src/net/TcpConnection.cc:27-36 | In every run in which each send is made on the thread of the connection's loop, no closed connection is re-armed and no loop ever uses a freed connection or the channel of one |
| LifecycleCallers.StrictKernelNeverDangles | src/net/Poller.cc:60-82 | If kevent stops at the first failing change, no loop ever uses a freed connection or the channel of one, whatever the callers do |
| LifecycleStreams.ConnectionsWatched | src/net/Poller.cc:69-81 | If kevent stops at the first failing change, in every run a closed connection has no filter, re-armed or not, and one that is up has its READ filter |
| Pollers.UpdatedIff | src/net/Poller.cc:60-82 | The filters are the interest bits exactly if the kernel goes on, or the READ change cannot fail, or the WRITE filter is right already |
| LifecycleAcceptor.CarefulStopsNeverDangle | src/net/TcpServer.cc:43-61 | In every run in which stop() is not called on the server's loop with the acceptor's event in or behind the call, no loop uses the freed acceptor |
| LifecycleStop.StopDanglesIff | src/net/TcpServer.cc:46-47 | From every state with nothing freed on the lists: after stop() on the server's loop the loops by themselves get to the use of the freed acceptor if and only if the acceptor's event is in the dispatch or is what led to the call |
| LifecycleStop.StopInsideAccept | src/net/Accpetor.cc:30-46 | A run: the connection callback of a connection just accepted calls stop(), and the acceptor is used after it is freed |
| LifecycleStop.SafeCallersNeverDangle | src/net/EventLoop.cc:49-60 | In every run with each send on its connection's loop and no stop() under the acceptor's event, no loop uses anything freed |
| LifecycleCallers.IdleDanglesIff | src/net/TcpConnection.cc:147-163 | With all loops back at poll, if kevent applies every change: some run with sends on their loops still dispatches the channel of a freed connection if and only if the application holds a connection that is closed and has interest on |
| LifecycleCallers.LateSendArmsIff | src/net/TcpConnection.cc:60-67 | One step, used below: a queued send about to run can leave its connection closed with interest on exactly if it closed before, and the message is not empty or interest was on |
| LifecycleDrain.LateSendCanDangle | src/net/TcpConnection.cc:38-68 | From every state in which such a send of a nonempty message is next, the application holds the connection, no other close of it waits and nothing freed is on the lists, a run leads to the dispatch of its freed channel, if kevent applies every change |
| LifecycleTheorems.OnceAndInOrder | src/net/TcpServer.cc:85-90 | connectEstablished and connectDestroyed run at most once per connection, establish before destroy, although handleClose may run several times |
| LifecycleTheorems.AssertionsHold | src/net/TcpConnection.cc:131-158 | connectEstablished always finds Connecting, connectDestroyed always Disconnected and out of the map |
| LifecycleTheorems.FreedAfterDestroy | src/net/TcpConnection.cc:25 | A freed connection is Disconnected (the destructor's assert) and has been established and destroyed |
| LifecycleTheorems.MapIsUndestroyed | src/net/TcpServer.cc:97-114 | connections_ holds exactly the connections with no connectDestroyed queued or run; there is never more than one such functor, however often removal is asked for |
| LifecycleTheorems.StateMovesForward | include/hayai/net/TcpConnection.h:69 | state_ only moves forward through Connecting, Connected, Disconnecting, Disconnected, and a connection never changes loop |
| LifecycleTheorems.NoResurrection | src/net/Channel.cc:18-26 | Once the last shared_ptr is gone no step brings one back: tie, guards, functors and callbacks only pass on references to live connections |
| LifecycleTheorems.UpConnectionsListen | src/net/TcpConnection.cc:131-140 | In every run a connection that is Connected or Disconnecting is established and not destroyed, in the map, alive, tied, and registered for reading on its own loop, so poll can report its close |
| LifecycleInvariant.InvStep | src/net/TcpServer.cc:63-114 | The life-cycle invariant is kept by every event of every loop and thread |
| LifecycleInvariant.EstablishFinds | src/net/TcpServer.cc:89 | The establish functor runs for the first time on a connection the map owns |
| LifecycleInvariant.DestroyFinds | src/net/TcpServer.cc:113 | The destroy functor runs for the first time, after establish, on a closed connection out of the map |
| LifecycleInvariant.AnchoredErase | src/net/TcpServer.cc:101-113 | Erasing a connection from the map is covered for all raw items on its loop by queueing connectDestroyed behind them |
| LifecycleInvariant.PolledHeld | src/net/EventLoop.cc:49-60 | A polled channel whose connection is out of the map but not destroyed has connectDestroyed waiting behind this dispatch |
| LifecycleProgress.ClosedIsOnItsWayOut | src/net/TcpConnection.cc:111-127 | No removal is lost: a closed connection still in the map has removeConnection or removeConnectionInLoop waiting |
| LifecycleProgress.QuiescentIsClean | src/net/TcpServer.cc:92-114 | When all loops have run dry, each connection is either up and in the map or closed, out of the map and destroyed |
| LifecycleProgress.LoopsNeverStuck | src/net/EventLoop.cc:43-63 | Every loop can always take a step of its own unless its next item dangles |
| LifecycleDrain.LoopsDoBoundedWork | src/net/EventLoop.cc:111-125 | Without events from outside, under every schedule and every answer of the kernel, the loops execute no more items than a measure of what is queued |
| LifecycleDrain.LoopsRunDry | src/net/TcpServer.cc:92-114 | From every state with nothing freed on the lists (no destroyed connection's channel, no event of the acceptor after or behind stop()), the loops can by themselves get back to poll with nothing left, and then every closed connection has been destroyed |
| LifecycleStreams.StepEffect | src/net/TcpConnection.cc:27-185 | Every event of the multi-loop system is one step of a connection's output path, or leaves it as it is |
| LifecycleStreams.ConnectionsStream | src/net/TcpConnection.cc:38-109 | In every run of the multi-loop system, for the connection's own history in that run: the kernel has as many bytes as it reported taking, they and the output buffer are the accepted messages in order, and write interest is on exactly while output waits, until it is closed |
| LifecycleSends.SendsArrive | src/net/TcpConnection.cc:27-36 | In every run each message was taken by send(), on any thread, as often as sendInLoop was given it and it is still on its way; when the loops have run dry, sendInLoop was given exactly what send() took |
| LifecycleReads.EofCloses | src/net/TcpConnection.cc:79-81 | A read that returns 0: however the run goes on, the connection is Disconnected when its loop's list is next empty, and out of the map and destroyed when the loops have run dry |
| LifecycleReads.DispatchCloses | src/net/Channel.cc:28-45 | The same after the dispatch of an event with the close bit, and of one with the read bit if the read meets the end of the stream |
| LifecycleReads.UserIsToldUp | src/net/TcpConnection.cc:131-140 | After connectEstablished the user's callback runs, with the connection Connected and in the map |
| LifecycleReads.UserIsToldClosed | src/net/TcpConnection.cc:111-127 | After any handleClose the user's callback runs, with the connection Disconnected and before its removal |
| LifecycleReads.UserIsToldData | src/net/TcpConnection.cc:70-85 | A read with data leads to the user's callback and leaves the connection as it is; a read that fails leaves everything as it is and calls nobody |
| LifecycleReads.BatchKeepsAlive | src/net/EventLoop.cc:111-125 | Whatever a functor of the batch owns stays alive until the whole batch has run |
| LifecycleEnding.StopFunctorShutsDown | src/net/TcpServer.cc:46-59 | When stop()'s functor runs the acceptor goes, and every connection that is Connected then is Disconnecting or Disconnected when the server's loop is next at the end of its list |
| LifecycleEnding.StopShutsDown | src/net/TcpServer.cc:43-61 | stop() from any thread: when the server's loop has nothing left there is no acceptor and no connection that was up at the call is Connected; when such a connection's loop has nothing left either, SHUT_WR is out, or output waits with interest on, or it is closed |
| LifecycleEnding.ShutdownFinishes | src/net/TcpConnection.cc:165-178 | shutdown() from any thread on a Connected connection: when its loop has nothing left, SHUT_WR is out, or output waits with interest on, or it is closed |
| LifecycleEnding.ShuttingDownFinishes | src/net/TcpConnection.cc:98-105 | In every run, whatever made it so, a Disconnecting connection whose loop has nothing left has half-closed or has output waiting with interest on |
| LifecycleEnding.ForceCloseCloses | src/net/TcpConnection.cc:180-185 | forceClose() from any thread on a connection that is up: Disconnected when its loop has nothing left, out of the map and destroyed when no loop has |
| OutputStream.Conservation | src/net/TcpConnection.cc:38-68 | For any kernel behaviour, bytes taken by the kernel followed by the output buffer are the messages, in order, except those whose direct write, with nothing waiting, met EPIPE or ECONNRESET |
| OutputStream.WireIsReported | src/net/TcpConnection.cc:87-97 | In every run the number of bytes taken by the kernel is the sum of what `::write` returned on the writes it was asked for |
| OutputStream.RestWaits | src/net/TcpConnection.cc:43-67 | In every run, after a write that took n bytes exactly the others wait, in order, with write interest on if and only if there are any; no other answer but EPIPE or ECONNRESET on a direct write loses a byte |
| OutputStream.WriteInterest | src/net/TcpConnection.cc:87-109 | Until Disconnected, write interest is on exactly while output is waiting |
| OutputStream.GracefulHalfClose | src/net/TcpConnection.cc:165-178 | Calls on the loop thread: SHUT_WR at most once, issued exactly when the output has drained after shutdown, with every accepted byte taken by the kernel, and nothing written after it |
| OutputStream.WritesAfterFinIff | src/net/TcpConnection.cc:32-33 | One step: after SHUT_WR the kernel can make it write exactly if it is a queued send of a nonempty message |
| OutputStream.LateSend | src/net/TcpConnection.cc:165-170 | A run in which a queued send writes after SHUT_WR |
| HalfClose.RunKeeps | src/net/EventLoop.cc:111-125 | One connection and its loop, every run: the SHUT_WRs issued and still to come never exceed the largest number for the calls made, batch by batch |
| HalfClose.NothingLate | src/net/TcpConnection.cc:38-68 | One connection and its loop: for the calls that are safe, nothing is written once SHUT_WR is out |
| HalfClose.Witness | src/net/EventLoop.cc:49-60 | For all calls the state checks let through, a run of one connection and its loop that issues SHUT_WR the largest number of times, and writes after it where the calls allow that |
| LifecycleProjection.StepImage | src/net/EventLoop.cc:49-60 | Every event of the multi-loop system is, for each connection, one event of its line in HalfClose with the same calls, or leaves it alone |
| LifecycleWitness.ShowsStep | src/net/EventLoop.cc:111-125 | In the multi-loop system a connection that is up can be brought to do every event of such a line but those that close it, with the same calls, whatever the kernel answers |
| LifecycleHalfClose.FinsBounded | src/net/TcpConnection.cc:98-105 | In every run of the multi-loop system a connection issues at most as many SHUT_WRs as the number computed from its calls |
| LifecycleHalfClose.MostFinsIsExact | src/net/TcpConnection.cc:98-105 | Over all runs of the multi-loop system with given calls on a connection, on its loop or elsewhere, the largest number of SHUT_WRs is exactly: 1 plus the nonempty sends made elsewhere, at most 3, for shutdown on the loop; 2 with a nonempty send and 1 without for shutdown elsewhere; at most 1, and with a nonempty send exactly 1, for forceClose elsewhere; none otherwise |
| LifecycleHalfClose.HalfCloseOnceIff | src/net/TcpConnection.cc:165-178 | Some run of the multi-loop system with these calls issues SHUT_WR more than once if and only if shutdown was called elsewhere after a nonempty send, or on the loop after a nonempty send elsewhere |
| LifecycleHalfClose.LateWriteIff | src/net/TcpConnection.cc:27-36 | Some run of the multi-loop system with these calls writes bytes after SHUT_WR if and only if a nonempty send was made elsewhere and either shutdown on the loop, or the closing call elsewhere and another nonempty send besides |
| LifecycleHalfClose.ShutTwice | src/net/TcpConnection.cc:165-178 | A run with one send on the loop and one shutdown() elsewhere that issues SHUT_WR twice |
| LifecycleHalfClose.ShutThreeTimes | src/net/TcpConnection.cc:165-178 | A run with two sends elsewhere and one shutdown() on the loop that issues SHUT_WR three times |
| Channels.FiredInOrder | src/net/Channel.cc:28-45 | A callback fires exactly if its bit is reported and it is set, once, and in the order error, close, read, write |
| Channels.Channel.HandleEvent | src/net/Channel.cc:18-26 | Nothing fires when the tie cannot be locked; otherwise, and untied, exactly the callbacks above in that order |
| Channels.Channel.HandleEventWithGuard | src/net/Channel.cc:28-45 | The callbacks called are those the life-cycle machine runs for a polled channel |
| TcpConnections.TcpConnection.SendInLoop | src/net/TcpConnection.cc:38-68 | Takes from the message exactly the bytes the kernel reports, keeps the others behind what waits, and loses the message only on EPIPE or ECONNRESET; unless the buffer copy would leave its vector, which happens exactly when the rest does not fit |
| TcpConnections.TcpConnection.HandleWrite | src/net/TcpConnection.cc:87-109 | Takes from the buffer exactly the bytes the kernel reports, switches write interest off when drained, and half-closes if Disconnecting |
| TcpConnections.TcpConnection.ShutdownInLoop | src/net/TcpConnection.cc:172-178 | SHUT_WR unless write interest is on |
| TcpConnections.TcpConnection.Send | src/net/TcpConnection.cc:27-36 | Inline on the loop thread, a functor otherwise, nothing unless Connected |
| TcpConnections.TcpConnection.Shutdown | src/net/TcpConnection.cc:165-170 | Only from Connected, at once to Disconnecting |
| TcpConnections.TcpConnection.ForceClose | src/net/TcpConnection.cc:180-185 | From Connected or Disconnecting, closing inline or through a functor |
| TcpConnections.TcpConnection.HandleClose | src/net/TcpConnection.cc:111-118 | Disconnected, without any interest |
| TcpConnections.TcpConnection.ConnectEstablished | src/net/TcpConnection.cc:131-140 | Connected, tied and reading |
| TcpConnections.TcpConnection.ConnectDestroyed | src/net/TcpConnection.cc:147-158 | Disconnected; interest is cleared only if it was still Connected |
| EventLoops.NoLostWakeupIff | src/net/EventLoop.cc:80-109 | No interleaving leaves the loop blocked on pending functors or a quit request without a token in the pipe or on its way, if and only if loop() starts with an empty queue or a wake-up outstanding |
| EventLoops.OneWakeupPerFunctorIff | src/net/EventLoop.cc:80-89 | In every run, while running functors or blocked, there are at least as many wake-ups outstanding as functors pending, if and only if loop() starts that way |
| EventLoops.FunctorsInOrder | src/net/EventLoop.cc:111-125 | Started functors, rest of the batch and queue are everything queued, in order; a finished batch has run exactly what was queued before its swap |
| EventLoops.QuitEndsLoop | src/net/EventLoop.cc:43-70 | Once quit is set the loop ends with the iteration under way, or the next one if it was blocked, and nothing else ends it |
| EventLoops.DoneReaches | src/net/EventLoop.cc:111-125 | What doPendingFunctors does is a run of the protocol that starts exactly the pending functors, in order, and leaves what they queued with a token each |
| EventLoops.QueuedReaches | src/net/EventLoop.cc:80-89 | What queueInLoop does is a run of the protocol |
| EventLoops.EventLoop.QueueInLoop | src/net/EventLoop.cc:80-89 | Appends, and writes a token off the loop thread or while functors run: the protocol's steps; before loop() it makes an entry state with one more functor and no token |
| EventLoops.EventLoop.RunInLoop | src/net/EventLoop.cc:72-78 | Runs at once on the loop thread, queues with a token elsewhere |
| EventLoops.EventLoop.DoPendingFunctors | src/net/EventLoop.cc:111-125 | Runs exactly the functors queued before, in order, and ends in the protocol's state after them; what they queue waits with a token each; ends even if every functor requeues itself |
| EventLoops.EventLoop.HandleWakeup | src/net/EventLoop.cc:106-109 | Takes one token, as the protocol does |
| EventLoops.EventLoop.Quit | src/net/EventLoop.cc:65-70 | Sets the flag, with a token from another thread, as the protocol does |
| Buffers.HistoriesRefine | include/hayai/utils/Buffer.h:56-135 | For every run of append, retrieve, ensureWritableBytes, shrink, readFd and swap over any number of buffers that stays in bounds: indices ordered, readable bytes equal the byte queues, and no vector larger than its start or twice the peak request plus 8 |
| Buffers.DocumentedRunsComplete | include/hayai/utils/Buffer.h:14-20 | With the writable space of the layout diagram every legal run stays in bounds |
| Buffers.CodedFitsIff | include/hayai/utils/Buffer.h:38-40 | Exactly when append stays in bounds with writableBytes as coded |
| Buffers.CodedReadFitsIff | src/utils/Buffer.cc:19-37 | Exactly when readFd stays in bounds with writableBytes as coded |
| Buffers.CodedOverrun | include/hayai/utils/Buffer.h:56-60 | Two appends of 600 bytes to a default buffer overrun it as coded |
| Buffers.ReadingsAgreeIff | include/hayai/utils/Buffer.h:38-40 | The two readings agree exactly when the buffer is empty |
| Buffers.EnsureKeepsContent | include/hayai/utils/Buffer.h:125-135 | Making room keeps the content |
| Buffers.CompactsOnlyForward | include/hayai/utils/Buffer.h:125-135 | The compaction branch is entered only with readerIndex above 8; with readerIndex at 8 the vector grows |
| Buffers.ReadAppends | src/utils/Buffer.cc:7-40 | The scatter read leaves the old content followed by exactly the bytes returned |
| Buffers.ShrinkKeepsContent | include/hayai/utils/Buffer.h:101-106 | shrink keeps the content in a vector of 8 plus the larger of 1024 and content plus reserve |
| Buffers.GrowthBound | include/hayai/utils/Buffer.h:125-127 | Making room never exceeds twice the request plus 8 |
| Buffers.Buffer.MoveDown | include/hayai/utils/Buffer.h:129-133 | The overlapping forward copy moves the readable bytes from above index 8 down to it intact |
| Buffers.Buffer.Resize | include/hayai/utils/Buffer.h:127 | The grown vector starts with the old one |
| Buffers.Buffer.EnsureWritableBytes | include/hayai/utils/Buffer.h:95-99 | Makes room as specified and keeps the content |
| Buffers.Buffer.Append | include/hayai/utils/Buffer.h:56-60 | Appends the bytes if they fit where the code puts them, which under the documented layout is always |
| Buffers.RetrieveTakes | include/hayai/utils/Buffer.h:67-79 | Retrieving drops exactly the first bytes; a buffer that is empty afterwards has both indices at 8 |
| Buffers.Buffer.Retrieve | include/hayai/utils/Buffer.h:67-79 | Drops the first bytes; an emptied buffer is reset |
| Buffers.Buffer.RetrieveAsString | include/hayai/utils/Buffer.h:87-92 | Returns and drops the first bytes |
| Buffers.Buffer.Swap | include/hayai/utils/Buffer.h:108-112 | Exchanges the two buffers |
| Buffers.Buffer.Shrink | include/hayai/utils/Buffer.h:101-106 | As specified, with the content kept |
| Buffers.Buffer.ReadFd | src/utils/Buffer.cc:7-40 | Fills the tail, appends the overflow; content followed by the bytes read |
| HandOff.HandOffIsSafe | src/coro/AsyncConnection.cc:79-107 | recv and accept under every interleaving: delivered then waiting equals arrived in order; stored means empty; a suspended coroutine is stored or queued exactly once; await_resume never finds nothing |
| HandOff.WaitingWithItemsIsQueued | src/coro/AsyncServer.cc:20-54 | A waiting coroutine has its resume queued exactly when something is there |
| HandOff.ReadyTakesAtOnce | src/coro/AsyncConnection.cc:79-83 | In every run awaiting suspends only if there is nothing; otherwise it goes straight on and takes everything (recv) or the first connection (accept) |
| HandOff.PendingAtCloseIff | include/hayai/coro/AsyncConnection.h:36-41 | A coroutine stored when the connection closes is resumed afterwards if and only if more data arrives; otherwise it stays stored for ever |
| HandOff.ClosingDispatchResumesIff | src/net/Channel.cc:28-45 | A recv stored at the start of the dispatch that closes is resumed in it if and only if the read bit is on too and the read brings data, which then waits for it |
| HandOff.ClosedRecvWaits | include/hayai/coro/AsyncConnection.h:36-41 | A run in which the connection closes and the recv stays pending |
| AsyncConnections.Endpoint.HandleClose | src/net/TcpConnection.cc:111-127 | The close reaches no callback of the AsyncConnection: the hand-off is where it was |
| AsyncConnections.AsyncConnection.OnMessage | src/coro/AsyncConnection.cc:48-63 | The bytes join the buffered ones and a stored coroutine is queued |
| AsyncConnections.AsyncConnection.AwaitSuspend | src/coro/AsyncConnection.cc:85-99 | Re-checks, then queues or stores the coroutine |
| AsyncConnections.AsyncConnection.AwaitResume | src/coro/AsyncConnection.cc:101-107 | Hands over everything buffered |
| AsyncConnections.AsyncConnection.Move | src/coro/AsyncConnection.cc:25-33 | The new object continues the same hand-off and is the one the connection calls back |
| AsyncConnections.AsyncConnection.MoveAssign | src/coro/AsyncConnection.cc:35-46 | The same; the target's former connection keeps calling the target back; self-assignment changes nothing |
| AsyncServers.AsyncServer.OnConnection | src/coro/AsyncServer.cc:20-37 | A connection that is up joins the queue and a stored acceptor is queued |
| AsyncServers.AsyncServer.AwaitSuspend | src/coro/AsyncServer.cc:46-56 | Re-checks, then queues or stores the acceptor |
| AsyncServers.AsyncServer.AwaitResume | src/coro/AsyncServer.cc:58-68 | Hands over the first pending connection; nothing exactly when there is none |
| Tasks.StepKeeps | include/hayai/coro/Task.h:32-51 | Every step of the frame machine keeps the result of direct evaluation and costs something, or ends with exactly that result and only the outermost frame left |
| Tasks.AwaitStep | include/hayai/coro/Task.h:81-85 | Awaiting a task (lazy start, continuation stored, transfer) keeps the result to come |
| Tasks.ReturnStep | include/hayai/coro/Task.h:35-42 | Returning or throwing transfers to the continuation with the result kept |
| Tasks.ResumeStep | include/hayai/coro/Task.h:87-92 | await_resume passes on the value or rethrows, and the child's frame goes |
| Tasks.Runtime.Resume | include/hayai/coro/Task.h:100-102 | One resume of a fresh task ends done with the result of direct evaluation |
| Tasks.Runtime.Get | include/hayai/coro/Task.h:95-110 | get() returns or throws what direct evaluation does, after exactly one resume; a finished task gives its stored result, an empty one throws |
| Spawning.FramesAreOwned | src/net/EventLoop.cc:131-145 | A frame is registered from before its first resume until it is destroyed, has one cleanup queued exactly while finally suspended, and is destroyed at most once and not earlier |
| Spawning.CleanupFinds | src/net/EventLoop.cc:139-145 | A cleanup always finds its frame and destroys it |
| Spawning.NothingLeaks | include/hayai/coro/spawn.h:96-110 | When nothing runs, waits or is queued, every spawned frame has been destroyed exactly once |
| Spawning.StartedOnLoop | src/net/EventLoop.cc:131-137 | In every run a frame is registered and resumed for the first time only when the loop runs a functor, or in a spawn on the loop's thread |
| Spawning.SpawnLeaves | src/net/EventLoop.cc:131-137 | spawn on the loop's thread leaves the frame registered and running and queues nothing; elsewhere it leaves it fresh and unregistered with its start queued last |
| Spawning.SpawnedElsewhereWaits | src/net/EventLoop.cc:131-137 | In every run a frame spawned elsewhere stays fresh and unregistered exactly until the loop has run what was queued before it, and then it |
| Spawning.Loop.Spawn | src/net/EventLoop.cc:131-137 | On the loop thread the frame is registered and nothing queued; elsewhere only its start is queued; as the protocol does |
| Spawning.Loop.CleanupSpawnedTask | src/net/EventLoop.cc:139-145 | Erases and destroys a registered frame, ignores others |
| Spawning.Loop.FinalSuspend | include/hayai/coro/spawn.h:49-56 | Queues one cleanup |
| ThreadPool.LoadAfter | src/net/EventLoopThreadPool.cc:40-52 | After k calls loop i was chosen k / n times, once more if i < k % n |
| ThreadPool.Balanced | src/net/EventLoopThreadPool.cc:48-51 | Any two loads differ by at most one |
| ThreadPool.EveryWindow | src/net/EventLoopThreadPool.cc:48-51 | Any n consecutive calls choose every loop once |
| ThreadPool.WrapKeepsRotationIff | src/net/EventLoopThreadPool.cc:50 | A wrap of the counter keeps the rotation if and only if n divides 2^64 |
| ThreadPool.EventLoopThreadPool.Start | src/net/EventLoopThreadPool.cc:16-38 | One new thread per loop, all different, and their loops in order |
| ThreadPool.EventLoopThreadPool.GetNextLoop | src/net/EventLoopThreadPool.cc:40-52 | The next pick of the rotation, or the base loop when there are none |
| TcpServers.NamesInjective | src/net/TcpServer.cc:70 | Connection names are equal exactly when the ids are |
| TcpServers.NameParts | src/net/TcpServer.cc:70 | A name is the server's name, '#', and digits that read back as the id |
| TcpServers.ParseDecimal | src/net/TcpServer.cc:70 | Decimal formatting can be read back |
| TcpServers.TcpServer.NewConnection | src/net/TcpServer.cc:63-90 | A name never used before, no entry overwritten, one more entry, the next loop of the pool |
| TcpServers.TcpServer.RemoveConnectionInLoop | src/net/TcpServer.cc:97-114 | Erases once and asks for connectDestroyed; again has no effect; map size stays accepted minus removed |
| TcpServers.TcpServer.Start | src/net/TcpServer.cc:33-41 | Only the first call starts the pool |

## Left out

- Socket and InetAddress; of the Acceptor only its event, its lifetime and that
  nothing is accepted once it is gone, of the Poller only updateChannel. accept
  and poll are events of the environment.
- Channel's remove; its interest bits and filters are fields of the connection.
  handleError does nothing in the source and puts no item on a loop.
- An accept() that fails, or finds no callback set.
- A connection still Connecting when stop() gets to it is not shut down, as in
  the source; nothing is claimed about connections that are not up at the call.
- inputBuffer_ and the choice between message, close and error in handleRead
  are a free choice in Lifecycle; the buffer itself is Buffers.Buffer.
- `findCRLF` and the size accessors of Buffer.
- A start of `loop()` with quit_ already set: loop() clears it.
- The resumption of `co_await send()`: writeCompleteCallback_ is stored but
  never called by TcpConnection.
- Concurrent moves of an AsyncConnection, several receivers or acceptors, and
  what a moved-from AsyncConnection's buffer holds (the source's keeps its
  indices over an empty vector).
- `Task::detach`, moving a Task after its start, `get()` on a task that waits
  for an external event, the moved-from value a second `get()` returns, and
  local loops in a coroutine body (bodies are finite trees).
- An exception that leaves a spawned task (the source terminates), and frames
  still registered when the loop is destroyed.
- TcpServer's destructor, setIoLoopNum, and the iteration order of its map.
- Memory ordering and threads: see Assumptions.
