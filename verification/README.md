# Verification model of muduo-x

A Dafny model of muduo-x, a C++ reactor library (event loops, TCP server, asynchronous logger, task
pool, IOCP poller), with proofs about whole runs of it. `dafny verify dfyconfig.toml` checks everything.

## How the model is built

Each part exists twice. Specification functions over values (`ConnectionStream`, `Lifecycle`,
`LogRolling`, `LogPipeline`, `IocpOwnership`, ...) take the branches of the code; the long-range
properties are proved about them, over every run. Classes (`Buffer`, `Channel`, `EpollPoller`,
`TcpConnection`, `TcpServer`, `FixedBuffer`, `LogFile`, `AsyncLogging`, `BlockQueue`, `EventLoop`,
`IocpPoller`) update fields and arrays in place as the C++ classes do, and each method's `ensures`
says that its new state is what the specification function gives for the old one.

**Connections** (`Lifecycle*.dfy`). One step relation holds all event loops, connections, poller tables,
kernel interest sets, open descriptors and `connections_`. Loop 0 accepts; with no pool loop it also
serves, and then `runInLoop` runs inline. One step is one functor body, one kind of event on one channel,
or one call by user code (its state test, state change and enqueueing together). What callbacks do is
not scripted: while a loop is not polling, its thread may make any call on any connection at any time,
and foreign threads may at any time too. That is more than any callback can do. Results of `send` and
`readFd` and the sets of ready channels are arbitrary; the kernel reuses a descriptor only after it was
closed. Things that must not happen (a failed `assertInLoopThread`, a failing `epoll_ctl`, a raw-`this`
functor after `connectDestroyed`, an event on an unregistered channel, a second close) do not block a
step: they leave a mark in `faults`, and `NothingGoesWrong` shows the set stays empty.

**Output stream** (`ConnectionStream.dfy`, `TcpConnection.dfy`). A connection's value is its state,
interest bits and unsent bytes, and three histories: the bytes on the wire, the bytes accepted for
sending, and the wire length at the first half-close. A payload is accepted when it passes the state test of
`sendInLoop`, or of the inline path of `send(Buffer*)`. A send from another thread is
accepted when the loop comes to it exactly if no shutdown, forceClose or close took effect since it was queued
(`LifecycleCalls.CrossThreadSendExactly`).

**Logger** (`FixedBuffer`, `LogRolling`, `LogFile`, `LogPipeline`, `AsyncLogging`). One step is one
critical section, one write of one buffer, or the recycling part of the writer. Clock readings, `fopen`
and `fwrite` results are arbitrary; only `LogRolling.DayRollLag` needs a clock that does not go back, and only
`LogPipeline.LoggedInOrder` needs every `fopen` and `fwrite` to succeed.

**Queues** (`BlockQueue`, `ThreadPool`, `EventLoop`). Each step is one critical section, one notification,
one wake-up byte or one functor. Notifications are counted until they are delivered; wake-ups may be spurious.

**IOCP** (`IocpOwnership`, `IocpRuns`, `IocpPoller`). The kernel's outstanding zero-byte operations are a
multiset; a packet can be delivered only for an operation outstanding at that moment. Whether a socket
listens is fixed from its creation.

## Where the code does less than it seems to

Each of these is proved with its exact condition, over whole runs where runs matter.

- A half-close can lose bytes. In any run, a step calls `shutdownWrite` on a connection with unsent bytes exactly
  when it ends a write-complete callback of `handleWrite` that began with the connection connected, and during which a send
  by the loop's thread was not written out and after it a shutdown or forceClose came from any thread.
- Write interest can be on over an empty buffer: exactly when every piece buffered since it came on is empty (an
  empty `Buffer`, or an empty message whose direct `send` fails). Then, and only then, the next write event can do
  nothing but close the connection; buffering something first avoids it.
- A refused `fopen` during a roll closes the log file for good, and all later lines are dropped. The files equal the
  appended lines exactly when no line is longer than 4,000,000 bytes, the file was open for every buffer, and every `fwrite`
  took all.
- A functor that a loop's own thread queues is still queued at the loop's next poll exactly when it was queued by a
  functor (while pending functors ran); queued by an event handler it has run by then. The loop is woken for neither.
- `IocpPoller::removeChannel` throws from `std::any_cast` exactly on a channel that is not registered.
- After an IOCP poll a direction that a registered channel wants is watched exactly if the retry loop has kept the channel
  in `pendingPosts_`, or its operation is posted and no packet for it came, or it is the read direction, exactly one read
  packet came, it succeeded and the new post was accepted. So one write completion, or two read completions in one
  poll, end it: no poll lists such an event for the channel until its next `updateChannel`, although the interest stays on.
- `BlockQueue` is described as bounded in the repository's README.md:64; the code has no bound, and neither has the model.

## Model

| member | source | states |
|---|---|---|
| BufferModel.MoveToFront | muduox/net/tcp/Buffer.cpp:94-98 | The overlapping in-array copy moves exactly the readable bytes and leaves everything past the target zone alone. |
| BufferModel.Buffer.Retrieve | muduox/net/tcp/Buffer.cpp:54-60 | Drops min(len, readable) bytes from the front of the byte queue; reading past the end empties it. |
| BufferModel.Buffer.RetrieveAsString | muduox/net/tcp/Buffer.cpp:67-72 | The returned bytes followed by the remaining ones are the old queue, for any length asked for. |
| BufferModel.Buffer.RetrieveAllAsString | muduox/net/tcp/Buffer.cpp:74-76 | Returns the whole queue and leaves it empty. |
| BufferModel.Buffer.Append | muduox/net/tcp/Buffer.cpp:78-82 | Appends to the queue through in-place write, compaction or growth; the array is replaced exactly when no arrangement of the old one has room; the capacity bound of Valid is kept. |
| BufferModel.Buffer.EnsureWritable | muduox/net/tcp/Buffer.cpp:84-88 | Makes room for len bytes without changing the queue; does nothing when there is room. |
| BufferModel.Buffer.MakeSpace | muduox/net/tcp/Buffer.cpp:90-103 | Compacts when the free zones suffice and grows otherwise; either way the queue is unchanged and size() stays within max(1032, 2 * peak + 6), peak being the most ever demanded. |
| BufferModel.Buffer.ReadFd | muduox/net/tcp/Buffer.cpp:32-51 | A scatter read of up to writable + 65536 bytes appends exactly what arrived; an error changes nothing and reports errno; the demand that bounds the capacity grows only by a spill, to the bytes then readable. |
| BufferModel.CapacityBoundIsReached | muduox/net/tcp/Buffer.cpp:84-103 | The capacity bound cannot be lowered: a run reaches 2 * peak + 6. |
| EpollModel.Channel.DisableReading | muduox/net/core/Channel.cpp:39-42 | Clears the read bit only and passes the change to the poller. |
| EpollModel.Channel.DisableAll | muduox/net/core/Channel.cpp:54-57 | Clears both interest bits and passes the change to the poller. |
| EpollModel.Channel.HandleEvent | muduox/net/core/Channel.cpp:16-32 | Runs error, close, read and write callbacks in this order, each exactly if its event occurred and the callback is set, and clears revents_. |
| EpollModel.DispatchExactly | muduox/net/core/Channel.cpp:20-31 | Each callback is called if and only if its event occurred and it is set, none twice, in the order error, close, read, write. |
| EpollModel.EpollPoller.UpdateChannel | muduox/net/poller/EpollPoller.cpp:51-54 | ADD for a new channel, MOD otherwise; tables and index change only if epoll_ctl succeeds. |
| EpollModel.EpollPoller.RemoveChannel | muduox/net/poller/EpollPoller.cpp:56-59 | DEL, and the channels_ entry goes even if epoll_ctl fails. |
| EpollModel.EpollPoller.Poll | muduox/net/poller/EpollPoller.cpp:27-49 | Each ready channel is listed in the kernel's order; its read, write, error and close events are set exactly by EPOLLIN, EPOLLPRI or EPOLLRDHUP, EPOLLOUT, EPOLLERR and EPOLLHUP; a full event array doubles. |
| TcpServerModel.TcpServer.NewConnection | muduox/net/tcp/TcpServer.cpp:63-76 | The new connection gets a name not in use and is the only change to connections_. |
| TcpServerModel.TcpServer.RemoveConnectionInLoop | muduox/net/tcp/TcpServer.cpp:103-113 | Erases the name; a destroy is asked for exactly when it was there. |
| TcpConnectionModel.TcpConnection.ConnectEstablished | muduox/net/tcp/TcpConnection.cpp:37-38 | The connection becomes connected and its free channel registered for reading. |
| TcpConnectionModel.TcpConnection.ConnectDestroyed | muduox/net/tcp/TcpConnection.cpp:45-50 | The channel leaves the poller and the socket is closed; the stream does not change. |
| TcpConnectionModel.TcpConnection.HandleRead | muduox/net/tcp/TcpConnection.cpp:52-66 | Received bytes join the input buffer; end of file and every error close the connection. |
| TcpConnectionModel.TcpConnection.HandleWrite | muduox/net/tcp/TcpConnection.cpp:68-91 | Over the real output Buffer and Channel, one write event does what the stream specification says, with any calls of the callback and any stops by other threads before the final test of the state. |
| TcpConnectionModel.TcpConnection.Send | muduox/net/tcp/TcpConnection.cpp:93-105 | Inline on the loop thread; from others a task with exactly the payload if connected; nothing unless connected. |
| TcpConnectionModel.TcpConnection.SendBuffer | muduox/net/tcp/TcpConnection.cpp:111-125 | The inline path only buffers and turns on write interest. |
| TcpConnectionModel.TcpConnection.SendInLoop | muduox/net/tcp/TcpConnection.cpp:127-154 | Direct write only without pending bytes or write interest; what is not written is buffered; the result tells whether the write-complete callback is due. |
| TcpConnectionModel.TcpConnection.Shutdown | muduox/net/tcp/TcpConnection.cpp:156-161 | Changes the state at once and half-closes inline or by a queued task. |
| TcpConnectionModel.TcpConnection.ShutdownInLoop | muduox/net/tcp/TcpConnection.cpp:163-170 | Half-closes exactly when write interest is off. |
| TcpConnectionModel.TcpConnection.ForceClose | muduox/net/tcp/TcpConnection.cpp:172-177 | A close task is always queued, also on the loop thread, exactly from kConnected or kDisconnecting. |
| ConnectionStream.SendInLoopKeeps | muduox/net/tcp/TcpConnection.cpp:127-154 | Wire followed by buffer stays equal to the accepted bytes, grown by exactly this payload if connected, for every answer of send(). |
| ConnectionStream.SendBufferInLoopKeeps | muduox/net/tcp/TcpConnection.cpp:113-117 | The same for the inline path of send(Buffer*), which never writes to the socket itself. |
| ConnectionStream.WriteSomeKeeps | muduox/net/tcp/TcpConnection.cpp:68-91 | A write event moves bytes from the front of the buffer to the wire and loses none. |
| ConnectionStream.WriteEventExactly | muduox/net/tcp/TcpConnection.cpp:68-91 | By what send() returned: nothing without write interest; a failure closes the connection however many bytes wait; otherwise exactly the bytes sent leave the front of the buffer for the wire, and write interest goes exactly when it is empty. |
| ConnectionStream.SendsExactly | muduox/net/tcp/TcpConnection.cpp:93-125 | A foreign send leaves exactly its payload to the loop and changes nothing; one on the loop leaves nothing and is accepted whole; neither does anything unless connected. |
| ConnectionStream.StopsExactly | muduox/net/tcp/TcpConnection.cpp:156-177 | Which task shutdown and forceClose leave, the state they set, and when a shutdown half-closes at once; no byte moves. |
| ConnectionStream.HalfCloseLosesBytesExactly | muduox/net/tcp/TcpConnection.cpp:68-91 | If and only if, for one write event with all calls that take effect during its callback: the half-close leaves unsent bytes behind exactly when the event drains a connected connection and some thread stops it after a send that was not written out. |
| ConnectionStream.HalfCloseCanLoseBytes | muduox/net/tcp/TcpConnection.cpp:78-84 | A concrete case, with the stop by the callback or by another thread: a byte of the reply is left behind the half-close. |
| ConnectionStream.TightExactly | muduox/net/tcp/TcpConnection.cpp:111-154 | If and only if: which sends keep "write interest on exactly when bytes wait" on a connected connection. |
| ConnectionStream.EmptySendCloses | muduox/net/tcp/TcpConnection.cpp:86-89 | After an empty send(Buffer*), or an empty message whose direct send fails, a write event that comes before anything else is buffered closes the connection, whatever send() answers. |
| LifecycleInvariant.StepKeeps | muduox/net/tcp/TcpServer.cpp:59-113 | Every step of every interleaving keeps the invariant tying connection states, table, queues, poller tables, kernel sets and descriptors together. |
| LifecycleInvariant.AcceptKeeps | muduox/net/tcp/TcpServer.cpp:59-95 | Accepting keeps it, inline on a single loop or queued to a pool loop, although the descriptor may have been used before. |
| LifecycleInvariant.RunNextKeeps | muduox/net/core/EventLoop.cpp:115-125 | Running the next functor keeps it, whichever of establish, send, shutdown, forced close, removal or destroy it is. |
| LifecycleInvariant.WriteEventKeeps | muduox/net/tcp/TcpConnection.cpp:68-91 | A write event keeps it, also when its failure closes the connection while other channels wait to be dispatched. |
| LifecycleInvariant.CallKeeps | muduox/net/tcp/TcpConnection.cpp:93-177 | A public call from any thread keeps it together with the functor it queues. |
| LifecycleTheorems.NothingGoesWrong | muduox/net/tcp/TcpConnection.cpp:35-50 | In every run with any number of pool loops: no thread assertion fails, no epoll_ctl is an ADD of a present or a MOD/DEL of an absent descriptor, no raw-this functor runs after connectDestroyed, no event reaches an unregistered channel, no descriptor is closed twice. |
| LifecycleSafety.EveryStepIsSafe | muduox/net/tcp/TcpConnection.cpp:35-184 | The same told from the states: every step possible in any reachable state runs on the right loop, and the connection it touches is registered under its own open descriptor, or not at all when it is about to be. |
| LifecycleSafety.MarksAreLeft | muduox/net/tcp/TcpConnection.cpp:35-50 | In any state, reachable or not, a step that did the wrong thing would leave its mark, so the empty set of marks means something. |
| LifecycleSafety.EpollCtlExactly | muduox/net/poller/EpollPoller.cpp:61-78 | epoll_ctl fails if and only if it adds a present descriptor or changes or removes an absent one; otherwise that entry alone changes. |
| LifecycleSafety.CtlOutcomesExactly | muduox/net/poller/EpollPoller.cpp:51-78 | When update and remove succeed, and what they leave in the tables and the index in both cases. |
| LifecycleBodies.AcceptExactly | muduox/net/tcp/TcpServer.cpp:63-94 | A new connection gets the next name and its descriptor, and is established at once or by a functor queued last on its loop; nothing else changes. |
| LifecycleBodies.EstablishedExactly | muduox/net/tcp/TcpConnection.cpp:35-43 | An unregistered connection becomes connected and registered, and no other object changes. |
| LifecycleBodies.HandleCloseExactly | muduox/net/tcp/TcpConnection.cpp:179-184 | Only this connection is closed, and it is removed at once on the accepting loop or by a functor queued there. |
| LifecycleBodies.RemovalExactly | muduox/net/tcp/TcpServer.cpp:103-113 | Only this name leaves connections_, and connectDestroyed is queued on the connection's loop exactly if it was there. |
| LifecycleBodies.DestroyedExactly | muduox/net/tcp/TcpConnection.cpp:45-50 | The descriptor is unregistered and closed, the socket gone, and nothing else changes. |
| LifecycleTheorems.LifeOfAConnection | muduox/net/tcp/TcpServer.cpp:63-113 | Each connection is established once; connectDestroyed is pending or has run, once in all, exactly when its name has left connections_, however often handleClose fires; names are distinct. |
| LifecycleTheorems.RawFunctorsAreSafe | muduox/net/tcp/TcpConnection.cpp:100-175 | While a raw-this functor is pending its connection is open and held by the table or by a pending destroy functor, which is behind it in the same queue. |
| LifecycleTheorems.RegistrationAgrees | muduox/net/poller/EpollPoller.cpp:51-78 | index(), channels_, the kernel's interest set and the channel's bits agree for every connection, and every registered descriptor is open and its own, despite reuse. |
| LifecycleTheorems.DispatchedChannelsAreAlive | muduox/net/core/EventLoop.cpp:54-63 | Every channel still to be dispatched is registered, open and held, whatever earlier handlers closed, also with a single loop. |
| LifecycleTheorems.NoLoopIsStuck | muduox/net/core/EventLoop.cpp:49-66 | No guard of the step relation blocks a pending functor, an event or a loop, so the theorems are not true for lack of steps. |
| LifecycleOrder.StepMoves | muduox/net/core/EventLoop.cpp:84-125 | Each step of the server only appends to a loop's queue, takes from the front of its batch, or swaps the queue into the batch. |
| LifecycleOrder.KeepsPlace | muduox/net/core/EventLoop.cpp:84-125 | In every run of the whole server, the functor at place i of what is pending on a loop is the next one when the loop has run i functors. |
| LifecycleOrder.ClosedConnectionsEnd | muduox/net/tcp/TcpServer.cpp:97-113 | From any reachable state in which a connection is closed, once the accepting loop and then its own loop have completed a drain, connectDestroyed has run, once, and its descriptor is closed, whatever else happens. |
| LifecycleOrder.ReadyIsDispatched | muduox/net/core/EventLoop.cpp:54-62 | Between a poll and the functors after it, the loop turns to every channel the poll reported, once, in that order. |
| LifecycleOrder.StateMoves | muduox/net/tcp/TcpConnection.cpp:52-184 | kConnected is left exactly by a shutdown, a forceClose or a closing step, kDisconnected is entered exactly by the closing ones (end of file, error, failed write under write interest, the functor of a forceClose), and is final. |
| LifecycleOrder.CloseBeginsRemoval | muduox/net/tcp/TcpConnection.cpp:179-188 | A closing step leaves the connection closed, and its removal from connections_ done or pending on the accepting loop. |
| LifecycleCalls.CallsQueueExactly | muduox/net/tcp/TcpConnection.cpp:93-177 | Told from the call and the state alone: which functor a public call leaves at the end of the connection's loop, and that it leaves nothing anywhere else. |
| LifecycleCalls.CrossThreadSendExactly | muduox/net/tcp/TcpConnection.cpp:93-130 | A foreign send on a connected connection queues exactly its payload last; the loop comes to it after what was pending, and it is then accepted if and only if nothing stopped or closed the connection since. |
| LifecycleCalls.ForceCloseCloses | muduox/net/tcp/TcpConnection.cpp:172-184 | forceClose by any thread closes: its functor is queued last, and once that loop has completed a drain the connection is closed, whatever else happens. |
| LifecycleCalls.ForceCloseEnds | muduox/net/tcp/TcpServer.cpp:97-113 | Three drains after a forceClose, of its own loop, the accepting one and its own, the connection is destroyed, once, and its descriptor closed. |
| LifecycleCalls.ForeignShutdownServed | muduox/net/tcp/TcpConnection.cpp:156-170 | A shutdown by another thread is queued last and, once the loop has completed a drain, made, or left to a write event that is awaited or being handled, or overtaken by a close. |
| LifecycleCalls.OwnShutdownExactly | muduox/net/tcp/TcpConnection.cpp:156-170 | A shutdown on the loop's thread queues nothing and half-closes at once unless write events are awaited. |
| LifecycleTheorems.StepConns | muduox/net/tcp/TcpConnection.cpp:35-184 | A step changes a connection only as the stream specification says, reopens nothing and moves it to no other loop. |
| LifecycleStreams.DeliveredInOrder | muduox/net/tcp/TcpConnection.cpp:68-154 | In every run, wire followed by buffer equals all accepted payloads in order of acceptance, and buffered bytes of an open connection have write interest on. |
| LifecycleStreams.HalfCloseIsClean | muduox/net/tcp/TcpConnection.cpp:75-84 | If write-complete callbacks run by handleWrite do not send on their own connection, every half-close happens with the buffer empty and everything accepted on the wire, and nothing is written after it in any continuation. |
| LifecycleHalfClose.DirtyHalfCloseExactly | muduox/net/tcp/TcpConnection.cpp:75-84 | If and only if, over whole runs with calls of every thread between the two halves of handleWrite: which steps half-close a connection with unsent bytes. |
| LifecycleExamples.DirtyHalfCloseInARun | muduox/net/tcp/TcpConnection.cpp:75-84 | The witness from the initial state: the callback replies, another thread shuts down before it returns, and a byte of the reply is unsent at the half-close. |
| LifecycleHalfClose.HalfClosesAreRecorded | muduox/net/tcp/TcpConnection.cpp:82-84 | The steps that theorem speaks of are exactly those that record a half-close, and they move no byte. |
| LifecycleHalfClose.OnlyCallsCount | muduox/net/tcp/TcpConnection.cpp:78-80 | While its write-complete callback runs, a connection changes only by the calls on it, whatever other loops do. |
| LifecycleStreams.WriteInterestIsExact | muduox/net/tcp/TcpConnection.cpp:127-154 | With non-empty payloads, write interest is on exactly while bytes wait, in every reachable state. |
| LifecycleInterest.IdleInterestExactly | muduox/net/tcp/TcpConnection.cpp:68-154 | If and only if, over whole runs: write interest is on over an empty buffer when every piece buffered since it came on is empty; and exactly then a write event can only close the connection. |
| LifecycleExamples.EmptySendInARun | muduox/net/tcp/TcpConnection.cpp:111-117 | The witness from the initial state: after an empty send(Buffer*) the connected, open connection can only be closed by the write event being dispatched. |
| LifecycleStreams.DeferredShutdownEnds | muduox/net/tcp/TcpConnection.cpp:68-170 | In any run in which a shutdown is deferred by waiting bytes, the state stays kDisconnecting and each write event sends at least one byte, however many: nothing more is accepted, what waits is less by exactly what the write events sent, in at most as many events, and the last callback or the half-close is reached if and only if they have sent all of it, with exactly the accepted bytes on the wire; before that write interest stays on. |
| EventLoopModel.RunInOrder | muduox/net/core/EventLoop.cpp:84-125 | Functors run once each in enqueue order, across every swap. |
| EventLoopModel.NoLostWakeup | muduox/net/core/EventLoop.cpp:54-113 | When the loop polls while a functor of a returned cross-thread call is queued, an unread wakeup byte makes the poll return, although one receive may take several bytes. |
| EventLoopModel.WakeupsExactly | muduox/net/core/EventLoop.cpp:84-113 | Which steps put bytes into the wakeup socket and take them out, and from when to when a call from another thread is under way. |
| EventLoopModel.OwnFunctorsWaitExactly | muduox/net/core/EventLoop.cpp:54-125 | If and only if, for every run before and every continuation to the loop's next poll: a functor queued by the loop's own thread still waits then exactly if functors were being run when it came, and has run exactly if events were being dispatched. |
| EventLoopModel.OwnFunctorsMayWait | muduox/net/core/EventLoop.cpp:90-92 | The witness: a run in which a functor queued by a functor waits while nothing wakes the poll. |
| EventLoopModel.EventLoop.QueueInLoop | muduox/net/core/EventLoop.cpp:84-93 | The push step of the machine above, followed by its wakeup step exactly for foreign threads. |
| EventLoopModel.EventLoop.RunInLoop | muduox/net/core/EventLoop.cpp:76-82 | Inline, with nothing queued, exactly on the loop's own thread. |
| EventLoopModel.EventLoop.DoPendingFunctors | muduox/net/core/EventLoop.cpp:115-125 | With anything queued while each functor runs, the method is the run of the machine that swaps and runs the whole batch in order; what is queued meanwhile stays. |
| FixedBufferModel.FixedBuffer.Append | muduox/base/logging/FixedBuffer.h:20-27 | Appends what fits and never changes bytes before it. |
| LogRolling.OpenIsValid | muduox/base/logging/LogFile.cpp:22-41 | A new log is in order, and open exactly if the clock is positive and fopen succeeds. |
| LogRolling.RollKeeps | muduox/base/logging/LogFile.cpp:77-103 | Rolling keeps roll times strictly increasing and startOfPeriod_ the UTC day of lastRoll_, and loses no byte. |
| LogRolling.AppendKeeps | muduox/base/logging/LogFile.cpp:105-129 | An append adds exactly what fwrite took, at the end of the current file, before any roll, and opens at most one file; the log is open afterwards if and only if it was and did not roll onto a refused fopen. |
| LogRolling.AppendRollsExactly | muduox/base/logging/LogFile.cpp:105-129 | If and only if: an append rolls when the current file with this write exceeds a positive roll size, or else a due check falls on another UTC day than the last roll, and the clock is past that roll; with the counter and the flush time after it. |
| LogRolling.UtcDay | muduox/base/logging/LogFile.cpp:82 | The period start is a multiple of 86400 seconds, the last one not after a time since 1970. |
| LogRolling.ClosedForGood | muduox/base/logging/LogFile.cpp:105-106 | A log that is not open drops every later line, for any number of appends. |
| LogRolling.OpenAtEndExactly | muduox/base/logging/LogFile.cpp:77-129 | If and only if: after any appends the log is open when it was before and every roll among them found fopen succeeding. |
| LogRolling.DayRollLag | muduox/base/logging/LogFile.cpp:105-129 | With a clock that never goes back, at most max(1, checkEveryN_) appends begun on a later UTC day land in any one file, under any mix of size rolls, day checks and failing opens. |
| LogFileModel.LogFile.RollFile | muduox/base/logging/LogFile.cpp:77-103 | Rolls only to a later second; the fields become what the specification says. |
| LogFileModel.LogFile.Append | muduox/base/logging/LogFile.cpp:105-129 | The in-place append does what the specification says, in every branch. |
| LogPipeline.OpenStarts | muduox/base/logging/AsyncLogging.cpp:59 | The log file the writer opens is ready for the theorems below if and only if the clock is positive and fopen succeeds. |
| LogPipeline.StepKeeps | muduox/base/logging/AsyncLogging.cpp:41-127 | Every interleaved step, with any answers of the clock, fopen and fwrite, keeps the buffer and order invariant. |
| LogPipeline.StepKeepsLog | muduox/base/logging/LogFile.cpp:105-129 | Every step, with any answers, keeps the files equal to what fwrite took while the log was open. |
| LogPipeline.NobodyIsStuck | muduox/base/logging/AsyncLogging.cpp:69-110 | No guard of the steps blocks an appending thread, a write with any answers, or the recycling with its asserts. |
| LogPipeline.RecyclingNeverFails | muduox/base/logging/AsyncLogging.cpp:61-110 | In every run, from any log file and with any answers of the clock, fopen and fwrite: the current buffer is there, a missing spare means a full buffer waits until the final section, both writer buffers are there and empty at the top of the loop, and both recycling asserts hold. |
| LogPipeline.LoggedInOrder | muduox/base/logging/AsyncLogging.cpp:41-127 | If every fopen and fwrite succeeds: when the writer ends, the files in opening order hold the lines appended before its final section, in order, each line in one file; they equal the lines if and only if none exceeds 4,000,000 bytes. |
| LogPipeline.LoggedExactly | muduox/base/logging/AsyncLogging.cpp:41-127 | With any answers: the buffers handed to the file are those lines in order, the files hold what fwrite took of each while the file was open, the file is open exactly as long as every roll opened one, and the files equal the lines if and only if no line is cut, the file was open for every buffer and every fwrite took all. |
| LogPipeline.StoredIsWholeExactly | muduox/base/logging/FixedBuffer.h:20-27 | What is stored equals what was appended if and only if no line exceeds a buffer. |
| AsyncLoggingModel.AsyncLogging.Append | muduox/base/logging/AsyncLogging.cpp:41-56 | On real buffers: the line goes to the current buffer, or after rotation to the spare or a new one; no two owners ever share bytes. |
| AsyncLoggingModel.AsyncLogging.Collect | muduox/base/logging/AsyncLogging.cpp:70-82 | The first critical section moves the pointers as specified and keeps them distinct. |
| AsyncLoggingModel.AsyncLogging.FinalCollect | muduox/base/logging/AsyncLogging.cpp:113-120 | The final section takes the current buffer exactly if it holds bytes. |
| AsyncLoggingModel.AsyncLogging.WriteBuffers | muduox/base/logging/AsyncLogging.cpp:84-88 | The files grow, in order, by what fwrite took of every collected buffer while the file was open, and by all of it if every fopen and fwrite succeeds. |
| AsyncLoggingModel.WritesAreTheMachines | muduox/base/logging/AsyncLogging.cpp:84-88 | The log file after the method is the one the step machine reaches with one write step for each collected buffer. |
| AsyncLoggingModel.AsyncLogging.Recycle | muduox/base/logging/AsyncLogging.cpp:90-109 | Both writer buffers are there afterwards, refilled ones empty, and nothing is shared. |
| BlockQueueModel.BlockQueue.Insert | muduox/net/core/BlockQueue.h:41-47 | Appends at the end, without a bound, and owes one notify_one. |
| BlockQueueModel.BlockQueue.Stop | muduox/net/core/BlockQueue.h:31-37 | Stops for good, keeps the queue, and owes one notify_all. |
| BlockQueueModel.BlockQueue.TryPop | muduox/net/core/BlockQueue.h:20-29 | Under the lock: sleeps exactly if empty and not stopped, leaves exactly if stopped, otherwise takes the head. |
| ThreadPoolModel.PoolSize | muduox/net/core/ThreadPool.cpp:7-14 | In every state the pool has as many workers as asked for, and at least one. |
| ThreadPoolModel.TakerRunsHead | muduox/net/core/ThreadPool.cpp:29-36 | A worker that takes a task is busy with that task, the head of the queue; no other worker changes. |
| ThreadPoolModel.TakenInOrder | muduox/net/core/BlockQueue.h:20-47 | In every run the taken tasks are a prefix of the pushed ones and the rest is the queue, so each is taken at most once. |
| ThreadPoolModel.SleepersAreCovered | muduox/net/core/BlockQueue.h:20-47 | Before stop, if a worker sleeps then queued tasks are at most woken workers plus notifications owed. |
| ThreadPoolModel.QueueMakesProgress | muduox/net/core/ThreadPool.cpp:29-36 | A queued task before stop never leaves the pool without a possible step towards it. |
| ThreadPoolModel.StoppedPoolEnds | muduox/net/core/ThreadPool.cpp:16-36 | After stop nothing is taken, the workers' remaining steps are bounded, and until all have left one is possible. |
| IocpOwnership.UpdateKeeps | muduox/net/poller/IocpPoller.cpp:83-122 | Registration keeps the ownership invariant, enters the channel in channels_, puts a listening one where select looks and any other that wants something where the retry loop looks, under a context of its own; a failed bind changes nothing, and no other channel is touched. |
| IocpOwnership.RemoveKeeps | muduox/net/poller/IocpPoller.cpp:124-137 | Removal keeps the invariant, moves the context to deadContexts_ and takes the channel off every list; it throws if and only if the channel is not registered. |
| IocpOwnership.RearmedExactly | muduox/net/poller/IocpPoller.cpp:202-240 | If and only if: when a completed direction is watched again. |
| IocpReadiness.PollWatchesExactly | muduox/net/poller/IocpPoller.cpp:139-245 | If and only if, for both directions and every poll: when a registered channel is still watched afterwards. |
| IocpReadiness.WriteCompletionUnwatches | muduox/net/poller/IocpPoller.cpp:232-240 | A poll that delivers a write completion leaves the channel unwatched for writing, unless the retry loop has kept it enrolled. |
| IocpReadiness.NoEventUntilUpdate | muduox/net/poller/IocpPoller.cpp:139-245 | Once a channel is unwatched in a direction, in every run without an updateChannel of it no poll lists an event of that direction for it, whatever its interest and the answers. |
| IocpReadiness.InterestCanStarve | muduox/net/poller/IocpPoller.cpp:139-245 | For each direction a run that gets there with the interest on: a completed write, and two reads completed in one poll. |
| IocpRuns.RetryAllExactly | muduox/net/poller/IocpPoller.cpp:142-167 | The retry loop keeps a visited channel enrolled if and only if some wanted operation is not posted, whatever the posts answer. |
| IocpRuns.RetryAllPostsExactly | muduox/net/poller/IocpPoller.cpp:54-81 | The retry loop posts exactly the wanted operations of the channels it visits that are not posted yet and are accepted. |
| IocpRuns.DrainExactly | muduox/net/poller/IocpPoller.cpp:176-245 | For registered channels only: read or write is listed if and only if a successful packet of that direction came while it was wanted, error if and only if a failed packet came, close never. |
| IocpRuns.PollReports | muduox/net/poller/IocpPoller.cpp:139-279 | A poll lists no channel twice and no removed one, and a channel exactly if select found it, a wanted operation succeeded or one failed. |
| IocpRuns.OwnershipHolds | muduox/net/poller/IocpPoller.cpp:54-136 | In every run a pending flag of a context in use is set exactly if one operation is outstanding; every outstanding operation's context exists and is either used by one registered channel or on deadContexts_ exactly once. |
| IocpRuns.RunKeeps | muduox/net/poller/IocpPoller.cpp:45-136 | No run frees a context or takes one off deadContexts_. |
| IocpPollerModel.IocpPoller.UpdateChannel | muduox/net/poller/IocpPoller.cpp:83-122 | The tables change as specified, also on a failed bind. |
| IocpPollerModel.IocpPoller.RemoveChannel | muduox/net/poller/IocpPoller.cpp:124-137 | The tables change as specified up to the throw. |
| IocpPollerModel.IocpPoller.RetryPending | muduox/net/poller/IocpPoller.cpp:142-167 | The loop does what the specification of all visits says. |
| IocpPollerModel.IocpPoller.TakePackets | muduox/net/poller/IocpPoller.cpp:176-245 | The loop takes at most 128 packets and lists their events as specified. |
| IocpPollerModel.IocpPoller.Poll | muduox/net/poller/IocpPoller.cpp:139-279 | Retry, packets and select together hand over the specified channels, each with its completed events or, when select found it, with a read event. |

## Left out

- TcpServerModel.TcpServer.NewConnection: states the table and the name only; making and running the connection (TcpServer.cpp:73-94) is in the lifecycle step of accepting.
- TcpConnectionModel.TcpConnection.ConnectEstablished: the thread assertion and the connection callback are not in its contract; the lifecycle records a wrong thread as a fault and lets callbacks call anything.
- Server teardown and destructors: `TcpServer::stop` destroys the acceptor from the calling thread, and `quit()` before `loop()` is undone by EventLoop.cpp:52, so no claim is made that stopping ends.
- The choice `getNextLoop` makes: any loop of the pool may be chosen.
- Address, log-line and file-name formatting; log file names use local time and may repeat, so files are identified by the order of opening.
- Failures of `epoll_ctl`, `socketpair` and allocation for lack of resources, and signals interrupting calls.
- Races finer than one call: the test-then-set in `shutdown` and `forceClose` and the test-then-queue in `send` are one step each.
- Messages after a close, and a single closed notification: the code promises neither.
- The input stream's delivery to user code: `handleRead` is modelled up to the input buffer, and in the lifecycle by the value `readFd` returns.
- `nextConnId_` is an `int` in the source and unbounded here, so its overflow is not modelled.
- The Windows form of `Buffer::readFd`, and `append` with data that points into the buffer itself.
- `std::vector` capacity: the array's length stands for `buffer_.size()`.
- The lifecycle step relation works on values, not on the classes: its connections are the values the class methods are tied to, so aliasing between connection objects is not modelled there.
- The functors of the event loop class are numbers: what they do is the lifecycle's matter.
- `ThreadPool::work` and the writer's loop of `AsyncLogging` appear as steps of a machine and as methods for their atomic parts; the thread objects and their joining are not modelled.
- Lines appended after the writer's final critical section: nothing is said about them.
- Flushing (`fflush`) changes no modelled contents; only the time bookkeeping for it is there.
- Recovering a context from an OVERLAPPED pointer: an operation carries its context and direction.
- Channels and contexts of the IOCP poller are entries of maps from identifiers; their memory and the poller's destructor are not modelled.
- Two loops of the IOCP poll test for cases that cannot arise (a pending channel without a context, a listening channel with packets); those branches are absent from the methods, and the invariant is what excludes them.
