# A verified model of cpp_muduo

cpp_muduo is a one-loop-per-thread network reactor. This project models its four stateful layers in
Dafny and proves what each promises over whole runs, so that the lower layers give what the upper
ones rely on. The methods are the code, updating their fields in place; each is proved against a
function on values, and the properties of runs are lemmas about those functions.

| layer | files | what is proved |
|---|---|---|
| byte buffer | `Buffer.dfy` | it is a byte queue on every run; the scatter read is exact for every count; an exact bound on the array |
| channel and poller | `Epoll.dfy` | the kernel's epoll set, the poller's map and the channels' masks mirror each other; no epoll_ctl call can fail |
| connection | `Connection.dfy`, `ConnectionLaws.dfy` (values), `TcpConnection.dfy` (object) | exactly which events change which field, outbound and inbound conservation, write interest iff backlog, callbacks counted, half-close, exactly when a closed connection stays silent |
| loop | `LoopMachine.dfy` (threads interleaved), `EventLoop.dfy` (object) | functors run in order exactly once; no functor stranded; quit not lost |
| server | `Server.dfy`, `ServerSafety.dfy`, `ServerLoops.dfy`, `ServerOwnership.dfy`, `ServerCallbacks.dfy`, `ServerClosing.dfy`, `ServerRemoval.dfy`, `ServerHistory.dfy`, `ServerSilence.dfy`, `ServerRevival.dfy` (all loops and threads interleaved), `ThreadPool.dfy`, `TcpServer.dfy` (objects) | ownership until destruction, removal after a close, descriptors never shared, deferred destruction, callbacks once and in order, exactly when a closed or destroyed connection stays out of the poller and silent, balanced placement, names that never collide |

How the layers meet. `TcpConnection` methods are built on `Buffer` and `Channel` methods, so the
backlog of `Connection.Conn` is the real array's contents and its slot is the real poller's;
`TcpConnectionObject.Replay` takes the object through any sequence of events and ends where
`Connection.After` says. `ServerHistory` proves that on every run of the server each connection is
`Connection.After` of its own events, so what is proved of event sequences holds of the server's
connections and of the object alike. `ServerLoops` proves that every loop of `Server` goes through a
run of `LoopMachine` that posts and runs the same functors, so order, exactly once and no stranded
functor hold of each of them. `TcpServer` refines `Server` by keying the map with names that are
proved distinct.

Kernel and environment are parameters: `write` accepts as many of the offered bytes as fit, or fails
with EWOULDBLOCK, EPIPE/ECONNRESET or another error; `readv` fills its segments in order and returns
any count that fits; the eventfd is a counter; epoll_wait reports any of the registered descriptors,
each at most once, EPOLLERR and EPOLLHUP always included; user callbacks are arbitrary finite
sequences of send, shutdown and retrieve on the connection.

## Where the code departs from its intent

Each item is modelled as the code stands, with the exact condition under which it matters.

- TcpConnection.cc:275 assigns `kDisconnected` where the comment describes a test for
  `kDisconnecting`. A shutdown is then lost exactly when it finds a backlog
  (`WrittenShutdownIsLostExactlyOverABacklog`), while under the intended test SHUT_WR is sent exactly
  once the backlog has drained (`IntendedShutdownIsSentIffDrained`); `WrittenTestRefuted` is a run
  where the two part, and every drain silently ends a connection's ability to send
  (`WrittenDrainDisconnects`).
- TcpConnection.cc:186-188 checks and sets in two steps. A closed connection writes again or returns
  to the kernel's set exactly when such a stale store is followed by a queued send of some data that
  does not fault at once, or handleClose or connectEstablished runs again (`ClosedIsAbsorbingExactly`,
  `StaleShutdownRevives`); the state itself goes back on the stale store alone
  (`DisconnectedLastsExactly`, `StateMovesForwardExactly`).
- Channel.cc:61-77 and EPollPoller.cc:80-88: EPOLLHUP with EPOLLPRI and without EPOLLIN, on an
  end-of-file read, is exactly when handleClose runs twice in a dispatch, which puts the descriptor
  back into the kernel set (`DispatchClosesAsCounted`, `DisableAllUnregistersExactlyTheRegistered`).
- TcpConnection.cc:215 overlooks `kDisconnecting`: the down callback is then skipped, and a queued
  send runs behind connectDestroyed as if nothing had happened (`DestroyOfALiveConnection`). Over all
  runs, a destroyed connection writes nothing and stays out of the kernel's set exactly if it was
  destroyed, not in `kConnected`, while waiting for EPOLLOUT, or no queued send of some data that does
  not fault at once runs behind it in `kDisconnecting`, be it from a shutdown pending at the destroy or
  from a stale store since (`DestroyedStaysSilentExactly`, `DestroyedStaysOutExactly`). Without stale
  stores this is: unless a shutdown was pending, there was no backlog, and such a send runs
  (`DestroyedSpeaksOnlyIfPending`). Both ways occur. The server's destructor with a pending shutdown is
  one (`DestroyedSpeaks`), and there the descriptor may be closed while its channel is still in the
  poller's map (`ReleasedWhileListed`). While the server lives it takes a stale store
  (`ConnectionsEndByClosing`), and then the ordinary close by the peer leads there as well
  (`ClosedSpeaks`): from its handleClose on a connection stays silent exactly unless such a send follows
  a stale store, or handleClose runs again (`ClosedStaysSilentExactly`).
- EventLoop.cc:138 writes no wakeup for a functor the owner queues before `loop()`; functors are
  stranded exactly from such a start (`NoFunctorIsStrandedExactly`).
- EventLoop.cc:68 clears `quit_`, so an earlier `quit()` is lost (`QuitBeforeLoopIsLost`); and a
  `quit()` leaves earlier functors unrun exactly when it falls between a swap and the next poll with
  functors pending (`QuitRunsEarlierFunctorsExactly`).
- The comment at Buffer.cc:32-33 says one read takes at most 65536 bytes; the code takes up to the
  writable tail plus 65536 (`ReadCapacity`).

## Model

| member | source | states |
|---|---|---|
| ByteBuffer.Buffer.constructor | Buffer.h:14-18 | a new buffer is an empty queue, with its prepend area and initial size |
| ByteBuffer.Buffer.ReadableBytes | Buffer.h:24-27 | the count is the length of the queue |
| ByteBuffer.Buffer.Retrieve | Buffer.h:50-67 | the queue loses its first `len` bytes, or everything when `len` reaches or exceeds its length |
| ByteBuffer.Buffer.RetrieveAll | Buffer.h:69-72 | the queue is empty, the array kept |
| ByteBuffer.Buffer.RetrieveAsString | Buffer.h:79-84 | the returned bytes followed by the remaining queue are the old queue |
| ByteBuffer.Buffer.EnsureWritableBytes | Buffer.h:86-92 | room for `len` bytes is made without changing the queue |
| ByteBuffer.Buffer.MakeSpace | Buffer.h:128-146 | growth or compaction keeps the bytes; compaction only happens with the reader index beyond the prepend area, where the forward copy is sound |
| ByteBuffer.CopyForward | Buffer.h:139-142 | the overlapping front-to-back copy delivers the original bytes when the destination starts before the source |
| ByteBuffer.Buffer.Append | Buffer.h:95-103 | the queue gains exactly the data, at its end |
| ByteBuffer.Readv | Buffer.cc:26-35 | readv fills the tail of the array first and the 64K area after it |
| ByteBuffer.Buffer.ReadFd | Buffer.cc:12-53 | for every count the kernel can return, the queue gains exactly those bytes in stream order, spilling or not; on failure nothing changes but the saved errno |
| ByteBuffer.Buffer.WriteFd | Buffer.cc:55-63 | the kernel is offered exactly the queue and accepts a prefix of it; the buffer is unchanged; errno is saved on failure only |
| ByteBuffer.AppendMovesExactly | Buffer.h:86-103 | in terms of size and indices: an append uses the tail if it has room, else compacts to index 8 if that makes enough, else grows by what is missing |
| ByteBuffer.ReadTakesExactly | Buffer.cc:18-52 | one read takes at most the writable tail, and 65536 bytes more when the tail is shorter than that |
| ByteBuffer.RetrieveMovesExactly | Buffer.h:50-72 | a retrieve moves the reader index, or both indices back to 8 when nothing is left |
| ByteBuffer.Replay | Buffer.h:50-146 | after any run of operations the buffer holds what the reference queue holds, in the predicted shape |
| ByteBuffer.SpaceIsBounded | Buffer.h:86-146 | over every run the array is at most max(8 + initial, M + 8, 2M + 6), hence at most max(8 + initial, 2M + 7), M the largest readable length held or asked room for |
| ByteBuffer.SpaceBoundIsReached | Buffer.h:86-146 | the bound is exact: for every M of two or more a run reaches 2M + 6 |
| Epoll.MirrorHoldsOverRuns | EPollPoller.cc:76-118 | after any sequence of enable, disable and remove, the kernel entry exists iff the index is kAdded and carries the channel's mask, the map lists the channel iff it is not kNew, kDeleted means no interest; and no epoll_ctl of the sequence fails |
| Epoll.InterestIsExact | Channel.h:50-54 | each operation sets or clears just its own bits of the mask |
| Epoll.RegistrationIsExact | EPollPoller.cc:76-118 | on agreeing slots: kNew after remove, kDeleted if a kAdded channel lost its interest, else kAdded; the map and the kernel entry accordingly |
| Epoll.DisableAllUnregistersExactlyTheRegistered | EPollPoller.cc:80-97 | disableAll takes a descriptor out of the kernel set iff it was in it; otherwise it re-adds it with an empty mask |
| Epoll.EPollPoller.UpdateChannel | EPollPoller.cc:76-103 | the channel's slot moves as ADD, MOD or DEL requires and every other channel's slot is untouched |
| Epoll.EPollPoller.RemoveChannel | EPollPoller.cc:105-118 | the channel leaves the map and the kernel set, whatever else is registered |
| Epoll.EPollPoller.EpollCtl | EPollPoller.cc:130-150 | ADD succeeds on absent descriptors only, MOD and DEL on present ones only, each with its effect on the kernel set |
| Epoll.EPollPoller.Poll | EPollPoller.cc:29-62 | the active list is what was reported, in order, each channel with its own events; a full event list doubles, so that the next wait always has room for more |
| Epoll.EPollPoller.HasChannel | Poller.cc:10-13 | a channel is found iff its index is not kNew |
| Epoll.Channel.constructor | Channel.cc:13-15 | a new channel, on a descriptor no other channel still uses, is unknown to poller and kernel and disturbs no other |
| Epoll.Channel.Retire | Channel.cc:17-22 | a channel that is not with the poller goes without trace, and its descriptor may be used again |
| Epoll.Channel.Apply | Channel.h:50-54 | on a valid poller no operation's system call fails, and only this channel's slot changes |
| Epoll.ApplyAll | Channel.h:50-67 | any script over any of a loop's channels, with distinct descriptors, gives each channel just its own operations |
| Connection.OutboundConservation | TcpConnection.cc:104-181 | on every run the bytes the kernel accepted followed by the backlog are the in-order concatenation of the payloads that passed the state check and missed the fault branch |
| Connection.InboundConservation | TcpConnection.cc:225-248 | on every run what the user retrieved followed by what is buffered is what arrived |
| Connection.WriteCompleteCallbacksCountFlushes | TcpConnection.cc:121-134 | on every run one write-complete callback is queued for each event that leaves nothing unsent |
| Connection.HighWaterCallbacksCountCrossings | TcpConnection.cc:158-173 | on every run one high-water callback is queued for each upward crossing of the mark, and given the new backlog |
| Connection.CrossingsAreSeparatedByADrain | TcpConnection.cc:158-173 | between two crossings the backlog has been below the mark |
| ConnectionLaws.WireIsWhatIsWritten | TcpConnection.cc:104-292 | on every run the wire carries just what sends write at once, with nothing queued before them, and writable events take from the backlog, as much as the kernel has room for |
| ConnectionLaws.BacklogChangesExactly | TcpConnection.cc:104-292 | what a send leaves unwritten is kept unless it faulted at once; behind a backlog all is kept; a writable event takes from the front |
| ConnectionLaws.InputChangesExactly | TcpConnection.cc:225-248 | only reads of data and retrieves change the input buffer |
| ConnectionLaws.StateChangesExactly | TcpConnection.cc:104-305 | every change of state_, over all events |
| ConnectionLaws.StateLastsExactly | TcpConnection.cc:104-305 | on every run a connection stays in its state, kConnected and kDisconnecting included, exactly until an event that leaves it; reads of data and sends never do |
| ConnectionLaws.HalfClosesExactly | TcpConnection.cc:184-200 | SHUT_WR is issued exactly by a shutdown carried out with no write interest, or by the intended test after a drain |
| ConnectionLaws.ShutdownHalfClosesAtOnce | TcpConnection.cc:184-200 | shutdown() on a live connection half-closes at once iff it is connected without backlog, from the loop or from another thread |
| ConnectionLaws.CallbacksFireExactly | TcpConnection.cc:202-305 | the connection and close callbacks fire on establishment, handleClose and connectDestroyed of a connected one, and on nothing else |
| ConnectionLaws.CallbacksAreQueuedExactly | TcpConnection.cc:121-173 | write-complete and high-water callbacks are queued, if set, on whole writes, drains and crossings, and on nothing else |
| ConnectionLaws.InterestChangesExactly | TcpConnection.cc:158-305 | which events change the interest mask, and to what |
| ConnectionLaws.RegistrationChangesExactly | EPollPoller.cc:76-118 | which events change the channel's index, map and kernel entry, and to what |
| ConnectionLaws.NothingAtBirth | TcpConnection.cc:26-38 | a new connection is connecting, with empty buffers and no interest, registration or callback |
| Connection.EstablishedIsLive | TcpConnection.cc:202-210 | connectEstablished leaves the channel registered for reading, with no backlog |
| Connection.WriteInterestAgreesWithBacklog | TcpConnection.cc:119-180 | from then until handleClose or connectDestroyed, in every interleaving, isWriting and the kernel's EPOLLOUT bit hold iff the output buffer is non-empty |
| Connection.HalfCloseNeverCutsAcceptedData | TcpConnection.cc:193-200 | while the connection is live SHUT_WR is only issued with an empty backlog |
| Connection.WrittenShutdownIsLostExactlyOverABacklog | TcpConnection.cc:253-281 | as written, a shutdown, from its shutdown() on the loop or its functor there, never sends SHUT_WR, past handleClose and connectDestroyed too, iff it found a backlog |
| Connection.IntendedShutdownIsSentIffDrained | TcpConnection.cc:275-280 | with the intended test, from the same event on, SHUT_WR has been sent iff the backlog has drained since |
| Connection.WrittenTestRefuted | TcpConnection.cc:275-280 | a shutdown over a backlog followed by a drain: sent under the intended test, never as written |
| Connection.WrittenDrainDisconnects | TcpConnection.cc:262-280 | as written a writable event disconnects a connected connection iff it drains a backlog |
| Connection.CloseCloses | TcpConnection.cc:294-300 | handleClose on a live connection leaves it disconnected and out of the kernel set |
| Connection.ClosedIsAbsorbingExactly | TcpConnection.cc:294-305 | on every run a closed connection writes nothing and stays out of the kernel's set iff no handleClose or connectEstablished runs again and no stale store is followed by a queued send of some data that does not fault at once |
| Connection.DisconnectedLastsExactly | TcpConnection.cc:184-191 | on every run kDisconnected lasts iff no stale store and no connectEstablished happens |
| Connection.StaleShutdownRevives | TcpConnection.cc:184-191 | after a stale store a queued send reaches the kernel or its epoll set, unless empty or faulting at once |
| Connection.StateMovesForwardExactly | TcpConnection.h:76-78 | the state moves backwards exactly on a stale store into kDisconnected or a late connectEstablished |
| Connection.DestroyOfALiveConnection | TcpConnection.cc:213-222 | connectDestroyed always leaves the poller; it fires "down" iff the state was kConnected; a later send can touch the kernel iff a shutdown was pending without backlog |
| Connection.DispatchOrder | Channel.cc:58-84 | close on EPOLLHUP without EPOLLIN, read on EPOLLIN or EPOLLPRI, write on EPOLLOUT, in this order and once each |
| Connection.ReactionsFollowTheirCallbacks | Channel.cc:58-84 | each callback is followed by the user code it runs, and by that alone |
| Connection.DispatchClosesAsCounted | Channel.cc:58-84 | a dispatch with arbitrary user reactions fires "down" and the close callback once for each handleClose and writes nothing after a hang-up; handleClose runs twice iff EPOLLHUP, EPOLLPRI, no EPOLLIN and an end-of-file read |
| TcpConnectionObject.Socket.ShutdownWrite | Socket.cc:46-52 | one more SHUT_WR on the socket |
| TcpConnectionObject.TcpConnection.constructor | TcpConnection.cc:26-59 | a new object is the initial connection: connecting, unregistered, empty buffers |
| TcpConnectionObject.TcpConnection.ConnectEstablished | TcpConnection.cc:202-210 | the object takes the connectEstablished step and is tied |
| TcpConnectionObject.TcpConnection.ConnectDestroyed | TcpConnection.cc:213-222 | the object takes the connectDestroyed step |
| TcpConnectionObject.TcpConnection.Send | TcpConnection.cc:75-99 | a send on the loop's thread is refused unless connected, else is sendInLoop |
| TcpConnectionObject.TcpConnection.SendInLoop | TcpConnection.cc:104-181 | socket, buffer array, channel and poller together take the sendInLoop step |
| TcpConnectionObject.TcpConnection.WriteAtOnce | TcpConnection.cc:119-149 | the direct write delivers an accepted prefix and reports EPIPE and ECONNRESET as the only faults |
| TcpConnectionObject.TcpConnection.EnqueueRest | TcpConnection.cc:158-180 | the rest is appended behind the backlog, the high-water callback queued on a crossing, and write interest enabled |
| TcpConnectionObject.TcpConnection.Shutdown | TcpConnection.cc:184-191 | a shutdown on the loop's thread takes its step |
| TcpConnectionObject.TcpConnection.ShutdownInLoop | TcpConnection.cc:193-200 | SHUT_WR is issued iff the channel is not writing |
| TcpConnectionObject.TcpConnection.HandleRead | TcpConnection.cc:225-248 | for every count readv returns: input appended, close on zero, nothing on failure |
| TcpConnectionObject.TcpConnection.HandleWrite | TcpConnection.cc:253-292 | the accepted prefix leaves the buffer for the socket, and the drain has the effect of the code as written |
| TcpConnectionObject.TcpConnection.HandleClose | TcpConnection.cc:294-305 | the object takes the handleClose step |
| TcpConnectionObject.TcpConnection.HandleEvent | Channel.cc:45-84 | a tied channel whose object is gone does nothing; otherwise the object goes through the dispatch of its reported events in the fixed order, with whatever the user does in each callback |
| TcpConnectionObject.TcpConnection.Drive | TcpConnection.cc:75-305 | the object goes wherever any sequence of events takes its abstract connection |
| TcpConnectionObject.Replay | TcpConnection.cc:26-305 | for any sequence of events a new object ends with the state, socket bytes, backlog, input and kernel entry of the abstract connection |
| LoopMachine.FunctorsRunInOrderExactlyOnce | EventLoop.cc:128-198 | in every interleaving executed, rest of batch and pending are together the push order; outside a batch what has run is a prefix of it |
| LoopMachine.NoFunctorIsStrandedExactly | EventLoop.cc:65-198 | at every moment of every run of loop() pending functors imply the loop is past poll and before its swap, the eventfd is readable or a pusher is before its wakeup, iff this holds at the start of loop() |
| LoopMachine.CounterCountsWakeups | EventLoop.cc:146-165 | on every run the eventfd counter is the number of wakeups since its last read, on top of the initial count if there was none |
| LoopMachine.UnwokenLoopSleeps | EventLoop.cc:146-154 | a loop nobody has woken since it read its eventfd does not return woken from poll |
| LoopMachine.QuitIsStoredExactly | EventLoop.cc:65-113 | on every run quit_ is set exactly by quit() and cleared exactly by the start of loop() |
| LoopMachine.QuitIsNotLost | EventLoop.cc:71-113 | at every moment of every run of loop(), a loop parked with quit_ set has a wakeup pending or on its way; a quit inside loop() stays set and poll is not entered again |
| LoopMachine.QuitBeforeLoopIsLost | EventLoop.cc:65-75 | a quit before loop() is cleared and the loop parks |
| LoopMachine.QuitRunsEarlierFunctorsExactly | EventLoop.cc:71-92 | everything pushed before a quit has run when the loop tests quit_, iff the quit fell from poll to swap or nothing was pending |
| EventLoopObject.EventLoop.constructor | EventLoop.cc:32-55 | a new loop is idle with nothing queued, its eventfd registered for reading |
| EventLoopObject.EventLoop.Close | EventLoop.cc:56-62 | the wakeup channel leaves the poller and the kernel's set |
| EventLoopObject.EventLoop.QueueInLoop | EventLoop.cc:128-143 | the owner's push goes last and writes the eventfd iff a batch is running |
| EventLoopObject.EventLoop.QueueFromThread | EventLoop.cc:128-143 | another thread's push goes last and always writes the eventfd afterwards |
| EventLoopObject.EventLoop.Quit | EventLoop.cc:106-113 | the owner's quit sets the flag without a wakeup |
| EventLoopObject.EventLoop.QuitFromThread | EventLoop.cc:106-113 | another thread's quit sets the flag, then writes the eventfd |
| EventLoopObject.EventLoop.HandleRead | EventLoop.cc:146-154 | reading the eventfd empties its counter |
| EventLoopObject.EventLoop.Wakeup | EventLoop.cc:157-165 | the counter grows by one |
| EventLoopObject.EventLoop.DoPendingFunctors | EventLoop.cc:182-198 | exactly the functors pending at the swap run, in order; what they queue is left for the next iteration with one wakeup each |
| EventLoopObject.EventLoop.DispatchAll | EventLoop.cc:76-80 | functors queued by channel callbacks need no wakeup and run nothing |
| EventLoopObject.EventLoop.Poll | EventLoop.cc:73-80 | a reported eventfd is read to zero, an unreported one is left |
| EventLoopObject.EventLoop.Iterate | EventLoop.cc:71-92 | one iteration runs what was pending and what its dispatch queued, in that order; what those queue waits with one wakeup each; quit_ is set iff one of them quits |
| EventLoopObject.EventLoop.Loop | EventLoop.cc:65-95 | loop() is a run of the machine: it returns only with quit_ set or parks, keeps push order, and after one iteration has run everything pushed before it started |
| Server.AcceptAddsOne | TcpServer.cc:72-114 | the one connection more, in the map, on its round-robin loop, with its descriptor and settings, established at once or queued there |
| Server.PlanFollowsTheReport | EventLoop.cc:76-80 | a pass goes through the reported channels in their order, each with its own callbacks |
| Server.PlannedCallsAreTheDispatch | Channel.cc:58-84 | the callbacks a pass plans for a channel are those of its dispatch, in order |
| ServerSafety.ActionIsSafe | TcpServer.cc:37-133 | every action of every loop, user and thread keeps the ownership invariant |
| ServerSafety.PassMakesItsCalls | Channel.cc:58-84 | each callback of a pass brings its connection the next planned event, whatever the kernel answers, and a handleClose its close callback next |
| ServerSafety.GuardOutlivesTheCallback | Channel.cc:45-55 | between two callbacks of one channel the guard alone keeps its connection referenced |
| ServerLoops.OffLoopCallsAreQueued | TcpConnection.cc:75-191 | on every run the sends and shutdowns of other threads reach their connection's loop, in order and once each |
| ServerLoops.EveryLoopRunsTheMachine | EventLoop.cc:65-198 | on every run of the server each loop is a run of EventLoop's machine: its functors run in the order posted, exactly once, and a waiting loop with functors pending has been woken |
| ServerOwnership.ConnectionsAreOwnedUntilDestroyed | TcpServer.cc:98-133 | on every run a connection is referenced until connectDestroyed has run, open descriptors and so registered channels are distinct, connectDestroyed never precedes connectEstablished, and a destroyed or released connection has left poller and kernel iff no late send has revived it since its last connectDestroyed |
| ServerOwnership.DestroyedStaysOutExactly | TcpConnection.cc:213-222 | on every run, stale stores included, connectDestroyed takes the channel out of the poller for good iff no late send that must wait for EPOLLOUT runs behind it |
| ServerOwnership.ActiveChannelsStay | EventLoop.cc:73-80 | in every reachable world the channels of a dispatch pass are still with the poller, and their connections referenced unless a late send has revived them since they were last destroyed |
| ServerOwnership.DestructionIsDeferred | TcpServer.cc:117-133 | connectDestroyed only runs in a batch of the connection's loop, or from the server's destructor outside dispatch |
| ServerOwnership.PlacementOverRuns | TcpServer.cc:72-75 | on every run the k-th connection is on sub-loop k mod n, or on the base loop when there is none |
| ServerCallbacks.CallbacksFireOnceAndInOrder | TcpConnection.cc:202-305 | on every run without the two anomalies, "up" fires once, "down" at most once and after it, the state only moves forward, and a closed connection writes nothing and returns to no kernel set |
| ServerClosing.ConnectionsEndByClosing | TcpServer.cc:117-133 | while the server lives a connection leaves the map only after its handleClose, and a late send revives only connections that have suffered a stale store; on the runs without the two anomalies a destroyed connection has fired "down" exactly once |
| ServerRemoval.CloseLeadsToRemoval | TcpServer.cc:117-133 | on every run a connection whose handleClose has run is destroyed, or its close callback, its removal or its connectDestroyed is pending where it belongs; in the map it is one of the first two; with all loops at rest it is destroyed and out of the map |
| ServerRemoval.DestructorLeadsToDestruction | TcpServer.cc:37-50 | an entry the server's destructor treats is out of the map, and destroyed or queued to be on its loop |
| ServerHistory.FunctorsTakeEffect | EventLoop.cc:193-196 | what each queued functor does to each connection when it runs |
| ServerHistory.UserCallsTakeEffect | TcpConnection.cc:75-200 | a user's call on the loop is the connection's next event and changes nothing else |
| ServerHistory.OffLoopOnlyStores | TcpConnection.cc:184-191 | another thread changes the connection by shutdown()'s store alone, stale or not, and is inside send() or shutdown() from its check to its push |
| ServerHistory.ConnectionsFollowTheirEvents | TcpServer.cc:68-133 | on every run each connection is what its events make of a new one, so accepted bytes followed by backlog are the payloads of those events, in order |
| ServerSilence.ClosedStaysSilentExactly | TcpConnection.cc:294-305 | on every run, from a handleClose on a registered channel on, the connection writes nothing and stays out of the kernel's set iff handleClose does not run again and no stale store is followed by a queued send of some data that does not fault at once |
| ServerSilence.DestroyedStaysSilentExactly | TcpConnection.cc:213-222 | on every run, stale stores included, a connection writes nothing and stays out of the kernel's set from its connectDestroyed on, iff it was waiting for EPOLLOUT and not in kConnected, or no queued send of some data that does not fault at once runs in kDisconnecting |
| ServerSilence.DestroyedSpeaksOnlyIfPending | TcpConnection.cc:213-222 | on the runs without the two anomalies that is: iff not (destroyed in kDisconnecting with an empty backlog, and a non-empty non-faulting send queued behind it) |
| ServerRevival.DestroyedSpeaks | TcpServer.cc:37-50 | a run from startup, with the server's destructor, a send() and a shutdown() of another thread, after which a destroyed connection has written, or is back in the kernel's set |
| ServerRevival.ReleasedWhileListed | TcpServer.cc:37-50 | the same run carried on: the last reference goes, and the descriptor with it, while the poller's map lists the channel |
| ServerRevival.ClosedSpeaks | TcpConnection.cc:184-191 | a run from startup without the server's destructor: the peer closes, the connection is removed and destroyed, a stale store and a queued send follow, and it has written, or is back in the kernel's set |
| ThreadPool.EventLoopThreadPool.Start | EventLoopThreadPool.cc:22-40 | one sub-loop for each thread |
| ThreadPool.EventLoopThreadPool.GetNextLoop | EventLoopThreadPool.cc:43-57 | the k-th call hands out the k-th connection's placement |
| ThreadPool.LoadInClosedForm | EventLoopThreadPool.cc:43-57 | after k connections sub-loop l has k div n of them, and one more iff l is among the first k mod n |
| ThreadPool.LoadsAreBalanced | EventLoopThreadPool.cc:43-57 | after any number of connections two sub-loops' loads differ by at most one |
| TcpServerObject.DecimalReadsBack | TcpServer.cc:77 | the printed number reads back as the number, in digits only and without a leading zero |
| TcpServerObject.DecimalIsInjective | TcpServer.cc:77 | different numbers print differently |
| TcpServerObject.NamesCountFromOne | TcpServer.cc:76-80 | the k-th connection's name is the server's, a dash, its address, a hash and k as printed |
| TcpServerObject.SnprintfCutsAt63 | TcpServer.cc:76-77 | the 64-byte buffer keeps at most 63 characters |
| TcpServerObject.NamesAreDistinct | TcpServer.cc:76-80 | connection names are pairwise distinct, the 64-byte buffer included |
| TcpServerObject.InsertAddsOne | TcpServer.cc:100 | inserting a connection under its name evicts no other from the map |
| TcpServerObject.DropTakesOne | TcpServer.cc:128 | erasing or resetting by name takes that connection alone out of the map |
| TcpServerObject.TcpServer.constructor | TcpServer.cc:19-36 | a started server with its pool and no connection |
| TcpServerObject.StartServer | TcpServer.cc:53-66 | setThreadNum and start give a server with that many sub-loops and no connection |
| TcpServerObject.TcpServer.NewConnection | TcpServer.cc:72-114 | the map gains the new connection under a name it did not hold, on the pool's next loop, established at once or queued there |
| TcpServerObject.TcpServer.CloseCallback | TcpServer.cc:117-122 | removal runs at once on the base loop's thread, else is queued there |
| TcpServerObject.TcpServer.RemoveConnectionInLoop | TcpServer.cc:125-133 | the connection leaves the map and its connectDestroyed is queued on its own loop |
| TcpServerObject.TcpServer.DestroyItem | TcpServer.cc:39-49 | one entry is reset and its connectDestroyed runs or is queued |
| TcpServerObject.TcpServer.Destructor | TcpServer.cc:37-50 | in any order of the map the destructor is a run of the world, and leaves no reference in the map |

## Left out

- Real system calls: they are the nondeterministic kernel models described above.
- What the program does to a connection whose last reference has gone (functors bound to a bare `this`, the raw channel pointers of a dispatch pass or of the poller): undefined behaviour, and a run of the server model ends there. Functors that run while the batch under way, a queue, the map, a dispatch guard or a user still refers to the connection do run in the model.
- References the user and queued user callbacks hold are one flag for each connection, set and cleared at any time.
- The dangling `c_str()` bound by `send` from another thread (TcpConnection.cc:91-96): payloads are values.
- A server object that is gone while its connections' close callbacks still name it: the destructor's effect on the map and queues is modelled, the dangling server is not.
- `TcpServer` holds its connections as abstract values, not as references to `TcpConnection` objects; `ServerHistory` and `Replay` are what joins the two.
- Integer widths: sizes are unbounded, and `nextConnId_` stays within INT_MAX.
- eventfd saturation at 2^64 - 2.
- `runInLoop` on the loop's own thread, which just calls its argument: the server model calls directly.
- Acceptor, InetAddress, Socket options, Logger, Timestamp, Thread and EventLoopThread: wrappers and start-up plumbing; sub-loops are taken to be started.
- `handleError`: it only logs.
- `getAllLoops` and other accessors.
