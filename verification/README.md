# A verified model of the reactor core and the HTTP front end

The repository is a C++ reactor network library (`muduo/`) and a small HTTP server on top of it
(`web_server/`). This project models its stateful core in Dafny and proves what holds over every
run, not only over one call.

| file | models |
|---|---|
| `TcpServer.dfy` | life of a connection across the iterations of the base loop and the I/O loops |
| `TcpHazards.dfy` | when that life goes wrong, and exactly when it does not |
| `TcpServerObject.dfy` | the server with its fields updated in place |
| `TcpConnection.dfy` | output path of a connection: partial writes, deferred half-close, forced close |
| `EventLoop.dfy` | pending functors and the eventfd wakeup |
| `TimerQueue.dfy` | two indices over the same timers, the batch in flight, callbacks that add and cancel |
| `Pollers.dfy` | poll(2) and epoll(7) pollers as two forms of one interest map |
| `Buffer.dfy` | byte buffer in one array, with integers in network order |
| `HttpParser.dfy`, `HttpTheorems.dfy` | resumable request parser; independence of chunking; round trip |
| `Calendar.dfy`, `UtcTime.dfy`, `TimeZones.dfy` | Julian day numbers, UTC conversion, local time |
| `TimerWheel.dfy` | idle-connection wheel against a map of deadlines |
| `BoundedQueue.dfy` | blocking queue as a monitor with two conditions |

Most components come in two layers. A *value layer* has a state datatype, one function per operation
of the source and a `Step` type for whatever the threads and the environment may do next; run
theorems quantify over every list of enabled steps. A *class layer* has the source's fields and
updates them in place; its methods are proved equal to the functions of the value layer.

What a run has done is told by functions on the list of its steps (`Told`, `Brought`, `Up`, `Served`
and others) that know nothing of buffers, queues, flags or conditions; the run theorems tie the state
at the end to these, so that nothing asked for can get lost on the way.

Threads appear as interleaved steps; what the source does under a mutex is one step. Results of
system calls (`read`, `write`, `poll`, `timerfd`, the clock) are parameters or steps. Timers live in
an explicit heap from addresses to timers, so that an address can be used again after `delete`.

What the proofs show about corner cases of the code:

- `getYearMonthDay` and `getJulianDayNumber` are inverse exactly from 1 March 4801 BC on, because
  integer division truncates. The day of the week is wrong for day numbers below -1, except on
  Sundays, and the day of the year is wrong in 4801 BC.
- `fromLocalTime(toLocalTime(t))` is `t` exactly when `t` is not on the first pass of an overlap, or
  the overlap is a one-hour change from daylight saving to standard time. `HalfHourBackFails` is a
  change for which it fails.
- Updating an epoll channel that already has an empty mask puts it back into the kernel's set
  (`EmptyMaskToggles`). So `disableAll` leaves a closed connection watched if `stopRead` came before
  it, in `forceCloseInLoop` (`ForceCloseUnread`) or on a report from earlier in the iteration
  (`StaleReport`), and a hang-up then closes it a second time. `CarefulExactly` says which runs are
  free of this. On the base loop a late report does no harm, because `connectDestroyed` runs before
  the next poll. With poll(2) it takes a `startRead` after the close.
- `shutdown` queues a raw pointer after it has changed the state. If the connection ends in between,
  the loop can use a pointer to nothing (`LateShutdown`), unless the pointer gets into the same batch
  as `connectDestroyed` (`SameBatchHolds`). `RawPointerExactly` has the exact condition.
- A timer cancelled on the loop thread before its queued addition has run is not cancelled
  (`CancelFinalExactly`).
- An entry inserted into the timer wheel at phase 0 lives for one tick, at any other phase for a
  full turn.
- A header line without a colon ends the header section like an empty line does
  (`ColonlessLineEnds`).
- `reset` does not set the timerfd for an earliest expiration at or before the epoch; the timerfd is
  in time all the same, because adding such a timer has set it.

## Model

| member | source | states |
|---|---|---|
| TcpHazards.CarefulExactly | muduo/net/TcpConnection.cc:261-421 | the runs in which no assertion of the lifecycle ever comes within reach of failing are exactly the careful ones: with epoll, no `forceCloseInLoop`, and off the base loop no report handled late, closes a connection whose mask is empty, and no `stopRead` follows a close with `reading_` still set unless `connectDestroyed` is due before the next poll; with either poller, no `startRead` follows a close |
| TcpHazards.StepSoundExactly | muduo/net/TcpConnection.cc:261-421 | one step from every state a careful run leads to: an assertion can come to fail with no further hazard if and only if the step is a hazard |
| TcpHazards.ForceCloseUnread | muduo/net/TcpConnection.cc:239-269 | a run with epoll, `stopRead` and then `forceClose`, after which an assertion can fail |
| TcpHazards.StaleReport | muduo/net/EventLoop.cc:93-108 | a run with epoll in which `poll` reports end of stream, another handler of the iteration calls `stopRead`, and the report is handled then, after which an assertion can fail |
| TcpHazards.BadCloseRemovesTwice | muduo/net/TcpConnection.cc:408-421 | every close that meets a closed connection makes a second removal |
| TcpHazards.HazardFails | muduo/net/EventLoop.cc:86-113 | from every hazard, whatever else is queued and reported, the loop gets to a failing assertion by careful steps alone |
| TcpHazards.RawPointerExactly | muduo/net/TcpConnection.cc:194-203 | the raw pointer that `shutdown` queues can be used after the end of its connection if and only if it is queued when the server has erased the connection, no `connectDestroyed` or `forceCloseInLoop` of it is queued and not yet taken into a batch, and no thread is inside `forceClose` on it |
| TcpHazards.LateShutdown | muduo/net/TcpConnection.cc:194-203 | a run, with either poller, after which the pointer can dangle |
| TcpHazards.SameBatchHolds | muduo/net/EventLoop.cc:211-222 | the same run one step shorter: the pointer goes into the batch of `connectDestroyed`, which holds the connection to its end |
| TcpHazards.NoDanglingPointer | muduo/net/TcpConnection.cc:194-203 | without a late push no loop ever uses the pointer of a connection that nothing refers to |
| TcpHazards.LateDangles | muduo/net/EventLoop.cc:211-222 | from a late push both loops finish their iterations by careful steps, whatever else is queued, and the pointer is used when nothing refers to the connection |
| TcpHazards.ExactlyOnePhase | muduo/net/TcpServer.cc:60-101 | in every careful interleaving of all loops and threads, each accepted connection is in one and only one of: establish pending, live, closed with one removal pending, erased with one destruction pending, gone |
| TcpHazards.OnceAndInOrder | muduo/net/TcpServer.cc:60-101 | `connectEstablished`, `removeConnectionInLoop` and `connectDestroyed` each run at most once per connection, none before the one it follows |
| TcpHazards.AssertionsHold | muduo/net/TcpServer.cc:89-101 | before every step of every careful run the source's assertions hold where that step meets them: the erase removes one entry, closes meet open connections, states and masks are the asserted ones |
| TcpHazards.InvAsserts | muduo/net/TcpConnection.cc:323-345 | the same assertions from the invariants alone, for every enabled step |
| TcpHazards.DestructorsAssert | muduo/net/TcpConnection.cc:66-72 | until `connectDestroyed` has run something owns the object; without an owner it is disconnected, unregistered and has an empty mask |
| TcpHazards.PhaseReferences | muduo/net/TcpServer.cc:60-101 | in every phase but the last, the map or a queued functor keeps the object alive |
| TcpHazards.NeverRefused | muduo/net/TcpServer.cc:60-101 | every enabled step can be taken in every state a careful run leads to: no object it needs is missing |
| TcpHazards.WatchedIsLive | muduo/net/TcpConnection.cc:408-421 | in careful runs the kernel watches only live connections with a mask, and closed ones that are destroyed before the next poll |
| TcpHazards.StepKeepsTuned | muduo/net/TcpConnection.cc:293-345 | every careful step keeps watch, mask and `reading_` in agreement, and every report one on an open connection |
| TcpHazards.RunKeepsTuned | muduo/net/TcpConnection.cc:293-345 | the same over whole runs, in which no close meets a closed connection |
| TcpHazards.ClosedTuned | muduo/net/TcpConnection.cc:408-421 | closing leaves a connection watched exactly if epoll had set it aside |
| TcpHazards.CloseRevives | muduo/net/TcpConnection.cc:408-421 | such a connection stays watched past the next poll |
| TcpHazards.StepKeepsRaw | muduo/net/TcpConnection.cc:194-203 | every step but a late push keeps all queued raw pointers safe |
| TcpHazards.RunKeepsRaw | muduo/net/TcpConnection.cc:194-203 | the same over whole runs |
| TcpHazards.RawPointerAlive | muduo/net/TcpConnection.cc:194-203 | a safe raw pointer that is next to run is that of a connection something refers to |
| TcpHazards.EpollWatches | muduo/net/poller/EPollPoller.cc:107-149 | the lifecycle's bit for being watched changes exactly as the set kept by the epoll poller |
| TcpHazards.PollWatches | muduo/net/poller/PollPoller.cc:75-110 | or as the sign of the descriptor in the poll(2) array |
| TcpServers.StepMoves | muduo/net/TcpServer.cc:60-101 | any step but a close on a closed connection leaves every connection in its phase or moves it to the next one; only on the base loop does closing skip the pending removal |
| TcpServers.StepKeepsInv | muduo/net/TcpServer.cc:60-101 | such a step keeps one phase per connection, every functor and report with its loop, and every batch held |
| TcpServers.RunKeepsInv | muduo/net/TcpServer.cc:60-101 | the same over whole runs |
| TcpServers.FrontPhase | muduo/net/TcpServer.cc:60-101 | a lifecycle functor that is next to run finds its connection in the phase it is meant for |
| TcpServers.AcceptOwn | muduo/net/TcpServer.cc:60-83 | a new connection starts with its establishment pending, or live when its loop is the base loop |
| TcpServers.AcceptOthers | muduo/net/TcpServer.cc:60-83 | accepting leaves every other connection in its phase |
| TcpServers.EstablishMovesOn | muduo/net/TcpConnection.cc:323-332 | a queued `connectEstablished` makes its connection live |
| TcpServers.CloseMovesOn | muduo/net/TcpConnection.cc:408-421 | closing a live connection leaves exactly one removal pending, or erases at once on the base loop |
| TcpServers.RemoveMovesOn | muduo/net/TcpServer.cc:89-101 | a queued `removeConnectionInLoop` leaves one `connectDestroyed` pending |
| TcpServers.DestroyMovesOn | muduo/net/TcpConnection.cc:334-345 | a queued `connectDestroyed` ends the life of its connection |
| TcpServers.ForceCloseMoves | muduo/net/TcpConnection.cc:261-269 | `forceCloseInLoop` closes an open connection, which leaves its phase, and leaves all others in theirs |
| TcpServers.MaskMoves | muduo/net/TcpConnection.cc:298-321 | changes of read and write interest leave all connections in their phases |
| TcpServers.PeerChanges | muduo/net/TcpConnection.cc:194-421 | exactly these steps change the state of a connection: its establishment, `shutdown` or `forceClose` on it, and its closing; mask and `reading_` change with these and with its own read and write interest only |
| TcpServers.ForceCloseIsKept | muduo/net/TcpConnection.cc:239-269 | in every continuation of a `forceClose` on an open connection it is closed, or the close is queued or about to be |
| TcpServers.ForceCloseTakesHold | muduo/net/TcpConnection.cc:239-247 | so it is after the call |
| TcpServers.ShutdownTakesHold | muduo/net/TcpConnection.cc:194-203 | a connected connection is disconnecting after `shutdown`, and a foreign thread is about to queue the rest |
| TcpServerObjects.TcpServer.UpdateChannel | muduo/net/Channel.cc:53-57 | mask, registration and watch change as the poller's update does |
| TcpServerObjects.TcpServer.DoNewConnection | muduo/net/TcpServer.cc:60-83 | the fields change as the accepting step says, and the lifecycle invariant is kept |
| TcpServerObjects.TcpServer.DoRemoveConnection | muduo/net/TcpServer.cc:85-87 | removal runs at once on the base loop and is queued there from any other |
| TcpServerObjects.TcpServer.DoRemoveConnectionInLoop | muduo/net/TcpServer.cc:89-101 | the entry is erased and `connectDestroyed` queued to the connection's own loop |
| TcpServerObjects.TcpServer.DoConnectEstablished | muduo/net/TcpConnection.cc:323-332 | a connecting connection becomes connected, registered and reading |
| TcpServerObjects.TcpServer.DoHandleClose | muduo/net/TcpConnection.cc:408-421 | an open connection becomes disconnected, its channel is updated with an empty mask and the server is told once |
| TcpServerObjects.TcpServer.DoConnectDestroyed | muduo/net/TcpConnection.cc:334-345 | the channel is taken out of the poller |
| TcpServerObjects.TcpServer.HandleReport | muduo/net/EventLoop.cc:101-107 | a report of end of stream or a hang-up is used up and closes the connection; the invariant is kept |
| TcpServerObjects.TcpServer.DoStopReadInLoop | muduo/net/TcpConnection.cc:313-321 | the fields change as the step says, in every state, and the invariant is kept |
| TcpServerObjects.TcpServer.DoStartReadInLoop | muduo/net/TcpConnection.cc:298-306 | likewise |
| TcpServerObjects.TcpServer.DoForceClose | muduo/net/TcpConnection.cc:239-247 | goes on to queue its functor exactly if the connection is open, which becomes disconnecting |
| TcpServerObjects.TcpServer.DoShutdown | muduo/net/TcpConnection.cc:194-203 | goes on to queue its functor exactly if the connection is connected, which becomes disconnecting |
| TcpServerObjects.TcpServer.FinishCall | muduo/net/TcpConnection.cc:199-201 | queueing the functor keeps the invariant, and every raw pointer safe unless it comes too late |
| TcpServerObjects.TcpServer.DoTakeBatch | muduo/net/EventLoop.cc:211-217 | everything queued by now is the batch and is held |
| TcpServerObjects.TcpServer.RunFunctor | muduo/net/EventLoop.cc:218-220 | running the next functor, where the source's assertions hold, is the step of the model and keeps the invariant |
| TcpServerObjects.TcpServer.DoEndBatch | muduo/net/EventLoop.cc:221-222 | the batch no longer holds anything, and the loop polls again |
| TcpConnections.OutputConserved | muduo/net/TcpConnection.cc:92-421 | over every run, told by the list of steps alone: the state; the bytes accepted, which are the data of the sends that got through, in order; the bytes written, which are the first of these, as many as the socket took; the buffer, which holds the rest; the write interest, while there is a rest; and whether the stream has been ended |
| TcpConnections.HalfCloseAfterAllBytes | muduo/net/TcpConnection.cc:205-213 | a connection that is half-closed and not disconnected has written every accepted byte |
| TcpConnections.SilentAfterHalfClose | muduo/net/TcpConnection.cc:194-213 | after a half-close nothing more is accepted or written, for the rest of the run |
| TcpConnections.DrainHalfCloses | muduo/net/TcpConnection.cc:376-390 | the write that empties the buffer while disconnecting half-closes, whichever thread called `shutdown` |
| TcpConnections.NothingForgotten | muduo/net/TcpConnection.cc:194-213 | a disconnecting connection with nothing buffered, queued, about to be queued or delayed is half-closed |
| TcpConnections.ShutdownIsKept | muduo/net/TcpConnection.cc:194-213 | after a `shutdown` that came while the connection was up, by the list of steps, no continuation is connected again, and one with nothing left to write or to run is half-closed behind every byte taken |
| TcpConnections.ShutdownTakesHold | muduo/net/TcpConnection.cc:194-213 | `shutdown` on a connected connection makes it disconnecting, with the half-close done, about to be queued, or waiting for the buffer |
| TcpConnections.ClosingStays | muduo/net/TcpConnection.cc:194-269 | a closing connection is never connected again |
| TcpConnections.StateStep | muduo/net/TcpConnection.cc:194-421 | each step changes state and queue as the list of steps tells: up, asked to close, gone |
| TcpConnections.StoryStep | muduo/net/TcpConnection.cc:92-421 | each step changes bytes taken and sent, calls under way, timers and the end of the stream as the list of steps tells |
| TcpConnections.SendKeepsInv | muduo/net/TcpConnection.cc:139-192 | `sendInLoop` takes all the data unless disconnected or refused by a broken peer, writes what `write` took if nothing was buffered, and keeps the invariant |
| TcpConnections.WriteKeepsInv | muduo/net/TcpConnection.cc:368-406 | `handleWrite` writes exactly what `write` took, accepts nothing, and keeps the invariant |
| TcpConnections.SilentStep | muduo/net/TcpConnection.cc:92-110 | no single step after a half-close accepts or writes anything |
| TcpConnections.StepKeepsInv | muduo/net/TcpConnection.cc:92-421 | every enabled step keeps the output invariant |
| TcpConnections.RunKeepsInv | muduo/net/TcpConnection.cc:92-421 | the same over whole runs |
| TcpConnections.TcpConnection.DoSend | muduo/net/TcpConnection.cc:92-110 | data is taken only while connected |
| TcpConnections.TcpConnection.DoConnectEstablished | muduo/net/TcpConnection.cc:323-332 | the connection is connected and its channel reading |
| TcpConnections.TcpConnection.DoSendInLoop | muduo/net/TcpConnection.cc:139-192 | data goes behind a non-empty buffer whole; otherwise what `write` took is written and the rest is the buffer; the fields change as the model says for every outcome, whatever other threads did since |
| TcpConnections.TcpConnection.SendAll | muduo/net/TcpConnection.cc:92-192 | the whole of `send`: nothing unless connected, else written and buffered bytes together grow by exactly the data, unless a broken peer refuses it |
| TcpConnections.TcpConnection.DoShutdown | muduo/net/TcpConnection.cc:194-203 | a connected connection becomes disconnecting, whatever is buffered; the half-close is done, or about to be queued by the calling thread |
| TcpConnections.TcpConnection.QueueJob | muduo/net/TcpConnection.cc:199-201 | the thread inside `shutdown` or `forceClose` queues its functor |
| TcpConnections.TcpConnection.RunNextJob | muduo/net/TcpConnection.cc:205-269 | the queued half-close or close takes effect in the state it finds |
| TcpConnections.TcpConnection.DoForceCloseWithDelay | muduo/net/TcpConnection.cc:249-259 | an open connection becomes disconnecting with a timer set |
| TcpConnections.TcpConnection.DoDelayOver | muduo/net/TcpConnection.cc:249-259 | the timer asks for the close if the connection is still open |
| TcpConnections.TcpConnection.DoShutdownInLoop | muduo/net/TcpConnection.cc:205-213 | half-closes exactly when the channel is not writing |
| TcpConnections.TcpConnection.DoForceClose | muduo/net/TcpConnection.cc:239-247 | an open connection becomes disconnecting and a close is about to be queued |
| TcpConnections.TcpConnection.DoHandleWrite | muduo/net/TcpConnection.cc:368-406 | what `write` took moves from the front of the buffer to the bytes written; an emptied buffer stops writing, and half-closes while disconnecting |
| TcpConnections.TcpConnection.DoHandleClose | muduo/net/TcpConnection.cc:408-421 | the connection is disconnected with an empty mask |
| EventLoops.NoLostWakeup | muduo/net/EventLoop.cc:131-140 | in every run with any number of foreign threads, a loop at `poll` with pending functors or a quit request has a readable eventfd, or some thread is about to make it so |
| EventLoops.RunInQueueOrder | muduo/net/EventLoop.cc:86-222 | over every run, told by the list of steps alone: the functors run, taken and pending are those that the calls of `queueInloop` brought, in their order; one has run per turn; the eventfd counts the wakeups since it was read; the loop is asked to quit exactly if some `quit` was called |
| EventLoops.StopsExactly | muduo/net/EventLoop.cc:86-120 | an iteration ends with the loop stopped if and only if some `quit` was called before |
| EventLoops.StoppedStays | muduo/net/EventLoop.cc:86-113 | a loop that has stopped runs nothing more, whatever other threads do |
| EventLoops.IterationEnds | muduo/net/EventLoop.cc:86-113 | from anywhere in an iteration the loop thread alone gets to its end, having run all it had to |
| EventLoops.PendingCanRun | muduo/net/EventLoop.cc:86-113 | the iteration that starts when `poll` returns runs all that is pending, in order |
| EventLoops.IterationRunsAll | muduo/net/EventLoop.cc:86-113 | what was queued before the handlers ran has run when the loop is back at `poll` or has stopped |
| EventLoops.PendingAtPollRuns | muduo/net/EventLoop.cc:86-113 | what is pending while the loop sleeps is run by the iteration the wakeup starts |
| EventLoops.StepConserves | muduo/net/EventLoop.cc:211-222 | functors pushed are those run, taken and pending, in this order |
| EventLoops.StepHandsOver | muduo/net/EventLoop.cc:86-113 | each step keeps track of how far the functors queued before an iteration have come |
| EventLoops.StepKeepsInv | muduo/net/EventLoop.cc:86-222 | every step of the loop and of foreign threads keeps conservation and the coming wakeup |
| EventLoops.RunKeepsInv | muduo/net/EventLoop.cc:86-222 | the same over whole runs |
| EventLoops.EventLoop.WakeUp | muduo/net/EventLoop.cc:195-201 | discharges the wakeup that a push, from another thread or from a functor, still owes, after which the eventfd is readable |
| EventLoops.EventLoop.QueueInLoop | muduo/net/EventLoop.cc:131-140 | the functor is pending behind the others, and the caller goes on to wake the loop exactly if it is a foreign thread or inside a functor |
| EventLoops.EventLoop.Quit | muduo/net/EventLoop.cc:115-120 | the loop is asked to quit, and a foreign thread goes on to wake it |
| EventLoops.EventLoop.HandleRead | muduo/net/EventLoop.cc:203-209 | the eventfd is no longer readable |
| EventLoops.EventLoop.TakePendingFunctors | muduo/net/EventLoop.cc:211-217 | the whole pending list becomes the batch |
| EventLoops.EventLoop.CallFunctor | muduo/net/EventLoop.cc:218-220 | a functor that queues others leaves them pending, each signalled |
| EventLoops.EventLoop.DoPendingFunctors | muduo/net/EventLoop.cc:211-222 | exactly the functors pending at the start run, and what they queue is pending and signalled afterwards |
| TimerQueues.ExactlyOnePlace | muduo/net/TimerQueue.cc:132-259 | in every run each timer object is in one and only one of: pending addition, waiting, in flight; it waits exactly if its entry is in the expiration index |
| TimerQueues.DeletedOnce | muduo/net/TimerQueue.cc:132-259 | every timer number given out is alive or was deleted exactly once, never both |
| TimerQueues.NoDanglingPointer | muduo/net/TimerQueue.cc:132-259 | no address in either index, in the batch or pending is that of a deleted timer |
| TimerQueues.AssertionsHold | muduo/net/TimerQueue.cc:143-259 | the indices have equal size, nothing is inserted twice, and every erase finds its entry |
| TimerQueues.SameSize | muduo/net/TimerQueue.cc:146-160 | two indices with the same timers have the same number of elements |
| TimerQueues.BatchIsTheDue | muduo/net/TimerQueue.cc:183-202 | a batch is exactly the waiting timers with expiration at or before now, in order, and the rest stays |
| TimerQueues.BatchRanInOrder | muduo/net/TimerQueue.cc:163-181 | once the calls are done, each timer of the batch has run once in it, in order, and nothing else has |
| TimerQueues.BatchSettles | muduo/net/TimerQueue.cc:163-233 | over one `handleRead`, whatever the callbacks add and cancel: every due timer that repeats and is not cancelled in between waits again, the same but for its expiration, which is the time of the batch plus its interval in whole microseconds; every other due timer is deleted |
| TimerQueues.FiresAgain | muduo/net/TimerQueue.cc:163-233 | from every state, a repeating timer that nobody cancels can go on to run any number of times |
| TimerQueues.TimerAsAsked | muduo/net/TimerQueue.cc:116-124 | over every run after `addTimer`, the timer keeps its address and the interval asked for as long as it lives, and the time asked for until it has run |
| TimerQueues.CancelFinalExactly | muduo/net/TimerQueue.cc:126-161 | for every id that `addTimer` gave out: cancelling silences the timer in all later batches of all continuations if and only if its addition has run; a cancellation that overtakes the queued addition does nothing |
| TimerQueues.PendingFires | muduo/net/TimerQueue.cc:116-141 | a timer whose addition is still queued can come to run in a later batch, from every state |
| TimerQueues.CancelIsFinal | muduo/net/TimerQueue.cc:143-222 | after cancelling an added timer, be it waiting, in flight or gone, no later batch of any continuation runs it |
| TimerQueues.CancelTouchesOne | muduo/net/TimerQueue.cc:143-161 | cancelling changes nothing about any other timer, not even a newer one at the same address |
| TimerQueues.WaitsUntilDue | muduo/net/TimerQueue.cc:132-259 | in every run a waiting timer that nobody cancels keeps waiting, unchanged, until its time has come |
| TimerQueues.DueIsTaken | muduo/net/TimerQueue.cc:41-55 | between events the timerfd is armed for a time no later than any waiting expiration or 100 microseconds after it was set, and handling it takes every timer that is due |
| TimerQueues.OneShotRunsOnce | muduo/net/TimerQueue.cc:204-222 | a timer without an interval runs at most once in every run |
| TimerQueues.TimespecOfWait | muduo/net/TimerQueue.cc:41-55 | the timespec is well-formed and is, in nanoseconds, the time left or 100 microseconds, whichever is more |
| TimerQueues.RestartIsLater | muduo/net/Timer.cc:16-26 | a restarted timer expires the whole microseconds of its interval after the time of its batch, and not before it |
| TimerQueues.CreateKeepsInv | muduo/net/TimerQueue.cc:116-124 | creating a timer at any free address keeps the invariant |
| TimerQueues.AddKeepsInv | muduo/net/TimerQueue.cc:132-141 | `addTimerInLoop`, between events or in a callback, keeps the indices equal, and sets the timerfd to the new time exactly if it is the earliest |
| TimerQueues.CancelActiveKeepsInv | muduo/net/TimerQueue.cc:149-155 | cancelling a waiting timer keeps the invariant and deletes it |
| TimerQueues.CancelOtherKeepsInv | muduo/net/TimerQueue.cc:156-159 | cancelling anything else, with any id, keeps it too |
| TimerQueues.BeginKeepsInv | muduo/net/TimerQueue.cc:163-202 | taking the due timers out of both indices keeps the invariant, also on a spurious alarm |
| TimerQueues.RunKeeps | muduo/net/TimerQueue.cc:174-177 | running a callback keeps the record of what ran in order |
| TimerQueues.ResetKeepsInv | muduo/net/TimerQueue.cc:208-222 | each turn of `reset` puts back a repeating timer that was not cancelled, for the time of the batch plus its interval, and deletes any other; the invariant is kept |
| TimerQueues.EndKeepsInv | muduo/net/TimerQueue.cc:224-232 | after `reset` the timerfd is set to the earliest expiration, or to 100 microseconds from now, if there is a valid one |
| TimerQueues.Rearm | muduo/net/TimerQueue.cc:41-83 | setting the timerfd arms it for the time given, or for 100 microseconds from now |
| TimerQueues.StepKeepsInv | muduo/net/TimerQueue.cc:116-259 | every enabled step keeps the invariant |
| TimerQueues.RunKeepsInv | muduo/net/TimerQueue.cc:116-259 | the same over whole runs |
| TimerQueues.TimerQueue.AddTimer | muduo/net/TimerQueue.cc:116-124 | the id returned names the new timer, with a number never used before and the time and interval asked for |
| TimerQueues.TimerQueue.InsertBoth | muduo/net/TimerQueue.cc:235-259 | both indices grow by the same timer; the answer is whether it is the new earliest |
| TimerQueues.TimerQueue.DoAddTimerInLoop | muduo/net/TimerQueue.cc:132-141 | the fields change as the adding step says, and the invariant is kept |
| TimerQueues.TimerQueue.DoCancelInLoop | muduo/net/TimerQueue.cc:143-161 | the fields change as the cancelling step says; the indices keep equal size |
| TimerQueues.TimerQueue.GetExpired | muduo/net/TimerQueue.cc:183-202 | the due prefix is returned and leaves both indices |
| TimerQueues.TimerQueue.BeginHandleRead | muduo/net/TimerQueue.cc:163-172 | the fields change as the beginning step says, and the invariant is kept |
| TimerQueues.TimerQueue.RunTimer | muduo/net/TimerQueue.cc:174-177 | the next timer of the batch runs |
| TimerQueues.TimerQueue.ResetExpired | muduo/net/TimerQueue.cc:208-222 | every timer of the batch has been put back for its next time or deleted; the loop is one resetting step per timer |
| TimerQueues.TimerQueue.FinishHandleRead | muduo/net/TimerQueue.cc:178-180 | likewise at the end of `handleRead`, which is the run of those steps followed by setting the timerfd |
| Pollers.PollersAgree | muduo/net/poller/EPollPoller.cc:107-170 | after every legal sequence of updates and removals both pollers wait for the same map from descriptors to non-empty masks |
| Pollers.PollRun | muduo/net/poller/PollPoller.cc:75-140 | the poll(2) array follows the abstract interest map through every legal sequence |
| Pollers.EpollRun | muduo/net/poller/EPollPoller.cc:107-170 | so does the epoll table, and no ADD meets a present descriptor, no MOD or DEL an absent one |
| Pollers.PollStep | muduo/net/poller/PollPoller.cc:75-140 | one call keeps channels and slots in one-to-one correspondence and acts as on the interest map |
| Pollers.EpollStep | muduo/net/poller/EPollPoller.cc:107-170 | one call keeps added channels equal to the kernel's set and acts as on the interest map |
| Pollers.PollUpdateRefines | muduo/net/poller/PollPoller.cc:75-110 | an update registers or replaces one mask and keeps the correspondence |
| Pollers.PollRemoveValid | muduo/net/poller/PollPoller.cc:112-140 | swap-remove keeps the correspondence and every other channel's slot contents |
| Pollers.PollRemoveRefines | muduo/net/poller/PollPoller.cc:112-140 | swap-remove removes exactly one descriptor from the interest map |
| Pollers.PollMonitorsWanted | muduo/net/poller/PollPoller.cc:75-110 | poll(2) waits for exactly the descriptors with a non-empty mask: the others have a negative number in the array |
| Pollers.EpollUpdateRefines | muduo/net/poller/EPollPoller.cc:107-149 | an update in any of the three channel states acts as on the interest map |
| Pollers.EpollRemoveRefines | muduo/net/poller/EPollPoller.cc:151-170 | a removal acts as on the interest map |
| Pollers.EpollMonitorsWanted | muduo/net/poller/EPollPoller.cc:107-170 | on non-empty masks the kernel's set is the interest map |
| Pollers.EmptyMaskToggles | muduo/net/poller/EPollPoller.cc:107-149 | an update with an empty mask takes a descriptor out of the kernel's set if it is in, and puts it in if it is not |
| Pollers.ReportedPrefix | muduo/net/poller/PollPoller.cc:55-73 | once as many slots were found as announced, no later slot has anything to report |
| Pollers.PollPoller.UpdateChannel | muduo/net/poller/PollPoller.cc:75-110 | array, map and stored index change as the model says, and stay in correspondence |
| Pollers.PollPoller.RemoveChannel | muduo/net/poller/PollPoller.cc:112-140 | the channel is gone and the moved channel knows its new slot |
| Pollers.PollPoller.FillActiveChannels | muduo/net/poller/PollPoller.cc:55-73 | the active channels are exactly the reported ones, in slot order, although the loop stops early |
| Pollers.EPollPoller.UpdateChannel | muduo/net/poller/EPollPoller.cc:107-149 | map, stored state and kernel set change as the model says, and agree |
| Pollers.EPollPoller.RemoveChannel | muduo/net/poller/EPollPoller.cc:151-170 | the channel is in neither map nor kernel set and can be used anew |
| Buffers.Run | muduo/net/Buffer.h:113-219 | every legal sequence of operations, with reads up to the full size of both segments, leaves exactly the bytes that the operations give on a plain byte sequence, and exactly the room in front and behind that the model computes |
| Buffers.ExecOnBytes | muduo/net/Buffer.h:113-219 | growing, moving, shrinking and split reads leave no trace in the bytes, over every run |
| Buffers.ApplyOnBytes | muduo/net/Buffer.h:113-219 | the same for one operation |
| Buffers.HeadroomKept | muduo/net/Buffer.h:390-409 | only prepending takes the room in front below the eight bytes every buffer starts with |
| Buffers.Perform | muduo/net/Buffer.h:113-219 | each operation changes bytes and room as the model says |
| Buffers.CopyDown | muduo/net/Buffer.h:402-404 | copying inside one array to a lower place keeps the bytes even when the ranges overlap |
| Buffers.Buffer.constructor | muduo/net/Buffer.h:48-56 | empty, with the initial size writable and 8 bytes prependable |
| Buffers.Buffer.FindCRLF | muduo/net/Buffer.h:80-85 | the first line end among the readable bytes, or none |
| Buffers.Buffer.RetrieveAll | muduo/net/Buffer.h:153-157 | nothing is readable and the room in front is restored |
| Buffers.Buffer.Retrieve | muduo/net/Buffer.h:113-124 | the first bytes are dropped |
| Buffers.Buffer.RetrieveAsString | muduo/net/Buffer.h:164-170 | the result followed by what is left is what was there |
| Buffers.Buffer.MakeSpace | muduo/net/Buffer.h:390-409 | growing or moving keeps the content and makes exactly the room of the model; the assertion inside holds |
| Buffers.Buffer.EnsureWritableBytes | muduo/net/Buffer.h:194-201 | the room asked for is there, the content unchanged |
| Buffers.Buffer.Append | muduo/net/Buffer.h:182-187 | content is concatenated with the data, whatever the room was |
| Buffers.Buffer.Unwrite | muduo/net/Buffer.h:215-219 | the last bytes are trimmed |
| Buffers.Buffer.Prepend | muduo/net/Buffer.h:354-360 | the data goes in front |
| Buffers.Buffer.Shrink | muduo/net/Buffer.h:362-369 | same content in a new array with the reserve writable |
| Buffers.Buffer.ReadFd | muduo/net/Buffer.cc:25-57 | whatever `readv` put into the two segments is appended in order; an error changes nothing |
| Buffers.Buffer.AppendInt | muduo/net/Buffer.h:224-248 | the integer's bytes in network order go behind the content |
| Buffers.Buffer.PrependInt | muduo/net/Buffer.h:328-352 | they go in front |
| Buffers.Buffer.PeekInt | muduo/net/Buffer.h:290-323 | the integer whose bytes stand in front |
| Buffers.Buffer.ReadInt | muduo/net/Buffer.h:254-284 | the bytes of the result followed by what is left are what was there |
| Buffers.ReadBack | muduo/net/Buffer.h:254-284 | an integer written in front is read back unchanged, with the same rest |
| Bytes.IntRoundTrip | muduo/net/Endian.h:29-57 | decoding undoes encoding for every integer that fits any width |
| Bytes.IntBytesRoundTrip | muduo/net/Endian.h:29-57 | encoding undoes decoding for every byte string |
| Bytes.NetworkOrder | muduo/net/Endian.h:29-57 | for every width the first byte is the most significant, and its top bit the sign |
| Bytes.UnsignedOrder | muduo/net/Endian.h:29-57 | the same without the sign |
| HttpTheorems.ChunkingIrrelevant | web_server/ContextParse.cc:4-50 | from any settled parser, calling it after each chunk ends as one call on the whole: same result, state, request and bytes left |
| HttpTheorems.SameStreamSameParse | web_server/ContextParse.cc:4-50 | two ways of cutting the same stream cannot be told apart |
| HttpTheorems.Receive | web_server/ContextParse.cc:4-50 | the same for the parser object on a real buffer, fed chunk by chunk |
| HttpTheorems.ParseAppend | web_server/ContextParse.cc:4-50 | parsing two pieces joined is parsing the first and going on with the second |
| HttpTheorems.ParseSettles | web_server/ContextParse.cc:4-50 | after a call nothing is left to do with the bytes at hand |
| HttpTheorems.RequestRoundTrip | web_server/ContextParse.cc:4-86 | parsing a rendered request (sections 3.1.1 and 3.2 of RFC 7230) followed by any bytes gives its fields and leaves exactly those bytes |
| HttpTheorems.StoredDistinct | web_server/Request.h:56-67 | with distinct names exactly the headers sent are stored |
| HttpTheorems.HeadersRoundTrip | web_server/ContextParse.cc:26-42 | every list of valid headers is parsed into the map it stands for |
| HttpTheorems.ColonlessLineEnds | web_server/ContextParse.cc:28-37 | a line without a colon ends the header section like an empty one, and is dropped |
| HttpTheorems.HeaderRoundTrip | web_server/Request.h:56-67 | a header line stores its name and its value without the blanks around it |
| HttpTheorems.TrimRoundTrip | web_server/Request.h:56-67 | trimming removes exactly the blanks added on both sides |
| HttpTheorems.RequestLineAccepted | web_server/ContextParse.cc:52-86 | a line is accepted if and only if it is a known method, a target without spaces and a known version, apart by single spaces |
| HttpTheorems.BadRequestLine | web_server/ContextParse.cc:52-86 | a bad line is refused, and leaves set exactly what was found before the first fault |
| HttpTheorems.NamesOnTheWire | web_server/Request.h:77-101 | methods, versions and separators are these bytes on the wire, and nothing else is a method or a version |
| HttpTheorems.SpaceBytes | web_server/Request.h:56-67 | the bytes that are trimmed are those of `isspace` in the C locale |
| HttpTheorems.RequestLineRoundTrip | web_server/ContextParse.cc:52-86 | a rendered request line gives back method, path, query and version |
| HttpTheorems.TargetRoundTrip | web_server/ContextParse.cc:61-68 | path and query are split at the first question mark |
| HttpTheorems.FirstCrlfExtends | muduo/net/Buffer.h:80-85 | more input does not move the first line end |
| HttpTheorems.LineFound | muduo/net/Buffer.h:80-85 | a line is found whole, whatever follows |
| Http.RequestObject.SetMethod | web_server/Request.h:77-100 | succeeds exactly on the known names |
| Http.RequestObject.AddHeader | web_server/Request.h:56-67 | the two trimming loops store what the specification says |
| Http.ContextParse.ProcessRequestLine | web_server/ContextParse.cc:52-86 | result and fields for good and bad lines |
| Http.ContextParse.ParseRequest | web_server/ContextParse.cc:4-50 | terminates on every input with the specified outcome, and sets the receive time with the request line |
| Calendar.JulianDayRoundTrip | muduo/base/Date.cc:21-43 | a valid date is given back if and only if it is 1 March 4801 BC or later |
| Calendar.YearMonthDayExact | muduo/base/Date.cc:30-43 | the result is a calendar date if and only if the day number is at least -32044, and then it has that number |
| Calendar.YearMonthDayBeforeFirst | muduo/base/Date.cc:30-43 | before that the day of the month is zero or negative |
| Calendar.JulianNextDay | muduo/base/Date.cc:21-28 | the calendar's next day under the leap-year rule has the next number |
| Calendar.YearMonthDayOverflow | muduo/base/Date.cc:30-43 | 32-bit arithmetic suffices if and only if the day number is at most 536838867 |
| Calendar.JulianDayNumberFits | muduo/base/Date.cc:21-28 | it then suffices for the way back as well |
| Calendar.JulianDayNumberIsDayNumber | muduo/base/Date.cc:21-28 | the truncating formula equals the floor-based day count on the whole range |
| Calendar.YearMonthDayIsDateOf | muduo/base/Date.cc:30-43 | the truncating formula equals the floor-based date on the whole range |
| Calendar.EpochDay | muduo/base/Date.cc:21-28 | 1 January 1970 has the number the source uses for it |
| Calendar.NextDayNumber | muduo/base/Date.cc:21-28 | the floor-based count advances by one a day, for all dates |
| Calendar.DateOfDayNumber | muduo/base/Date.cc:30-43 | floor-based dates and numbers are inverse, for all dates |
| Calendar.DayNumberOfDate | muduo/base/Date.cc:30-43 | and for all numbers |
| UtcTime.ToUtcTime | muduo/base/TimeZone.cc:322-348 | all fields are those of the calendar from the first day on; weekday and day of year have their exact conditions |
| UtcTime.FillHMS | muduo/base/TimeZone.cc:76-82 | hours, minutes and seconds add up and are in range |
| UtcTime.UtcRoundTrip | muduo/base/TimeZone.cc:322-363 | `fromUtcTime` undoes `toUtcTime` for every second from the first day on, negative ones included |
| UtcTime.UtcFieldsRoundTrip | muduo/base/TimeZone.cc:322-363 | `toUtcTime` undoes `fromUtcTime` for every valid date and time from the first day on |
| UtcTime.FieldsInRange | muduo/base/TimeZone.cc:322-348 | every field is in range and the date exists |
| UtcTime.NextDayAtSameTime | muduo/base/TimeZone.cc:322-348 | 86400 seconds later are the next date and the next weekday at the same time |
| UtcTime.WeekdayOfDay | muduo/base/Date.h:94-97 | the truncating weekday is the calendar's if and only if the day number is at least -1 or the day is a Sunday |
| UtcTime.DayOfYearExact | muduo/base/TimeZone.cc:342-346 | the subtraction gives the day of the year if and only if the year is after 4801 BC |
| UtcTime.DayOfYearByNumber | muduo/base/TimeZone.cc:342-346 | counting months and subtracting day numbers agree |
| UtcTime.UtcFitsInt32 | muduo/base/TimeZone.cc:322-363 | no 32-bit value overflows within the day-number bound |
| TimeZones.LocalTimeRoundTrip | muduo/base/TimeZone.cc:277-320 | local time gives the instant back if and only if it is not the first pass of an overlap, or the overlap is a one-hour change to standard time |
| TimeZones.InstantOfLocalTime | muduo/base/TimeZone.cc:299-320 | for every local time, shown once, twice or never: the result is the last instant at which the clocks show it, an hour earlier if daylight saving is claimed and not in force there; for a skipped time it is what the offset before the gap gives, with the same correction only if hour and minute agree |
| TimeZones.PlainIsLast | muduo/base/TimeZone.cc:299-307 | if the clocks ever show a local time, the search by local time finds the last instant at which they do |
| TimeZones.HalfHourBackFails | muduo/base/TimeZone.cc:299-320 | a half-hour change for which it does not |
| TimeZones.RoundTripOutside | muduo/base/TimeZone.cc:277-320 | outside first passes it always does |
| TimeZones.RoundTripFirstPass | muduo/base/TimeZone.cc:299-320 | on a first pass it does exactly for the one-hour change |
| TimeZones.LocalSearch | muduo/base/TimeZone.cc:223-255 | the search by local time finds the instant's own transition, or the next one on a first pass |
| TimeZones.SecondPass | muduo/base/TimeZone.cc:299-320 | the same local time under the next type is an instant after the transition |
| TimeZones.LastNotAfterUnique | muduo/base/TimeZone.cc:223-255 | the searched transition is determined by its neighbours |
| TimeZones.SpacedBothSorted | muduo/base/TimeZone.cc:223-255 | transitions spaced wider than offsets differ are sorted by both keys |
| TimeZones.LocalTmMeaning | muduo/base/TimeZone.cc:277-297 | a local time minus its own offset is the instant, and carries the flag in force |
| TimeZones.LowerBound | muduo/base/TimeZone.cc:234-237 | binary search for the first transition not before the key |
| TimeZones.FindLocaltime | muduo/base/TimeZone.cc:223-255 | the type of the last transition not after the key, in either order |
| TimeZones.ToLocalTime | muduo/base/TimeZone.cc:277-297 | the local time of an instant |
| TimeZones.FromLocalTime | muduo/base/TimeZone.cc:299-320 | the instant of a local time, with the correction for the hour that is read twice |
| TimerWheels.SurvivesUntilDeadline | web_server/TimeWheel.h:49-54 | in every run, told by the list of steps alone, an entry is alive exactly while an insertion is posted or its deadline is to come, never more than a full turn ahead |
| TimerWheels.PostedSurvives | web_server/TimeWheel.cc:34-38 | an entry inserted from another thread is alive from the call on, and is in the wheel with its deadline once the post has run |
| TimerWheels.DestroyedAtDeadline | web_server/TimeWheel.cc:26-32 | the step that drops an entry's last reference is exactly the tick of its deadline |
| TimerWheels.InsertProlongs | web_server/TimeWheel.h:49-54 | an insertion never shortens a life and touches no other entry |
| TimerWheels.DeadStaysDead | web_server/Server.cc:121-127 | once the wheel has dropped an entry, no request on its connection brings it back, so the wheel shuts a connection down at most once |
| TimerWheels.DeadStep | web_server/Server.cc:121-127 | no step revives a dead entry: the weak reference cannot be locked |
| TimerWheels.TimerWheel.OnConnection | web_server/Server.cc:85-94 | a new entry is inserted, or posted from another thread |
| TimerWheels.TimerWheel.OnRequest | web_server/Server.cc:121-127 | the entry is inserted again exactly if something still holds it |
| TimerWheels.TimerWheel.DoInsertEntry | web_server/TimeWheel.cc:34-38 | nothing while stopped; at once on the loop thread, posted from any other |
| TimerWheels.WheelIsDeadlineMap | web_server/TimeWheel.h:49-54 | being in the wheel is having a deadline to come |
| TimerWheels.TickRelated | web_server/TimeWheel.cc:26-32 | clearing a slot is letting one tick pass in the deadline map |
| TimerWheels.InsertRelated | web_server/TimeWheel.h:49-54 | an insertion sets the deadline one tick or one turn ahead, depending on the phase |
| TimerWheels.StepRelated | web_server/TimeWheel.cc:26-38 | every step keeps wheel and deadline map related |
| TimerWheels.RunRelated | web_server/TimeWheel.cc:26-38 | so does every run |
| TimerWheels.TimerWheel.OnTick | web_server/TimeWheel.cc:26-32 | the slot array changes as the model's tick |
| TimerWheels.TimerWheel.DoInsert | web_server/TimeWheel.h:49-54 | the slot array changes as the model's insertion |
| BoundedQueues.EveryInterleaving | muduo/base/BoundedBlockingQueue.h:20-51 | with any number of threads, barging and spurious wakeups, told by the list of steps alone: the items handed out are the first of those that the put turns queued, in the order of these turns, and the queue holds the rest, never over capacity; every caller not served sleeps or is woken, with its item; no sleeper is left with an item or a slot that nobody was woken for |
| BoundedQueues.RunKeepsLog | muduo/base/BoundedBlockingQueue.h:20-51 | from any state on, the monitor does what a plain log of items with a count of those handed out does |
| BoundedQueues.StepKeepsLog | muduo/base/BoundedBlockingQueue.h:20-51 | every turn of a thread does so |
| BoundedQueues.NeverStuck | muduo/base/BoundedBlockingQueue.h:20-51 | if takers and putters sleep at the same time, some woken thread can proceed |
| BoundedQueues.StepKeepsInv | muduo/base/BoundedBlockingQueue.h:20-51 | every turn of a thread keeps the monitor's invariant |
| BoundedQueues.RunKeepsInv | muduo/base/BoundedBlockingQueue.h:20-51 | so does every run |
| BoundedQueues.PutTurnKeeps | muduo/base/BoundedBlockingQueue.h:20-28 | a turn of `put` queues its item behind the others if there is room, and restores the invariant even if its thread has just used up a wakeup |
| BoundedQueues.TakeTurnKeeps | muduo/base/BoundedBlockingQueue.h:40-51 | a turn of `take` takes the first item, and restores the invariant too |
| BoundedQueues.BoundedBlockingQueue.PutSection | muduo/base/BoundedBlockingQueue.h:20-28 | waits exactly when full, else the item is behind the others and a taker is notified |
| BoundedQueues.BoundedBlockingQueue.TakeSection | muduo/base/BoundedBlockingQueue.h:40-51 | waits exactly when empty, else the answer was in front of what is left and a putter is notified |

## Left out

- Sockets, addresses, the acceptor and the system calls themselves: their results are parameters or steps.
- Sends from foreign threads: `handleWrite` may half-close before a queued send runs, so sends are on the loop thread; shutdown and forced close may come from any thread.
- Races inside `shutdown` and `forceClose`: each test and change of the state is one step; the push to the queue is another.
- References to a connection that user code keeps for itself: only the server's map, queued functors and threads inside a call hold one.
- The server's destructor, and `connectDestroyed` on a connection that is not closed: the server outlives the run.
- `startRead` and `stopRead` from other threads, before `connectEstablished` or after `connectDestroyed`.
- `Channel::handleEvent`: one report has one outcome, a close or not; a hang-up without readable data does not come together with urgent or half-closed input.
- Loop-thread calls of `queueInloop` outside handlers and functors.
- Overflow of the eventfd counter, of `size_t` in the buffer and of 64-bit time: integers are unbounded there.
- Different speeds of the wall clock and the timerfd clock: there is one clock, it never goes back, and it is positive.
- Floating-point rounding of timer intervals: intervals are reals, truncated to microseconds as in the source.
- `TimerQueue`'s destructor, and calling a timer's function: a callback is a step after which any additions and cancellations may follow.
- Timer objects as Dafny objects: they are values in an explicit heap, because Dafny never uses an address twice.
- `start` and `stop` of the wheel, and the moment between the two calls of `lock()` on a request, in which the entry may die.
- The TZif reader: transitions and types are given data; `gmtime_r` and `timegm` are the floor-based calendar.
- `parseRequest` on a parser that has everything or has rejected a line: the source must not be called there.
- Routing and response rendering, logging, files, process information, exceptions: formatting and I/O.
- Threads, mutexes, conditions, singletons: what they guard is one step each.
- `BlockingQueue`, `CountDownLatch`, `ThreadPool`, `EventLoopThreadPool`, `Connector`, `TcpClient`: easier members of the same families.
- High-water-mark and write-complete callbacks, `findEOL`, `hasWritten`, connection names: no hard property.
- BoundedQueues.BoundedBlockingQueue.PutSection: one critical section of `put`, not the whole call, because other threads run while it waits.
- BoundedQueues.BoundedBlockingQueue.TakeSection: one critical section of `take`, for the same reason.
- TcpHazards.DestructorsAssert: does not model `eventHandling_`, because a handler is one step and the tie keeps the connection alive during it.
- TcpConnections.TcpConnection.DoHandleClose: does not model the two callbacks; the close callback is the server's removal in TcpServerObjects.
- EventLoops.EventLoop.DoPendingFunctors: states the batch with no foreign push in between; the run theorems cover pushes at any point.
