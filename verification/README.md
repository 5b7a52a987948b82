# A verified model of the reactor

This project models a muduo-style C++ network library: event loops with a cross-thread task
queue, an epoll poller, buffered TCP connections, and a server that spreads connections over
loops. Logging and system calls are thin there; the substance is what every interleaving of
loops, queues, poller registration and connection state keeps. That is what is proved here, in
four linked parts.

1. **Task queue and wake-up** (`EventLoop.dfy`). `LoopProtocol` steps one loop: its owner tests,
   polls, dispatches, swaps and runs; any number of other threads push and then write the eventfd
   in two steps. `EventLoops.EventLoop` is the object; its pass is shown to be a run of the protocol.
2. **Poller registration** (`Poller.dfy`, `Channel.dfy`). `Registration` is the machine that
   `index_`, `events_`, `channels_` and the kernel's set form; the classes `Channel` and
   `EPollPoller` in `Channels` are proved to be that machine.
3. **Buffer and output stream** (`Buffer.dfy`, `TcpConnection.dfy`). `Buffers.Buffer` refines a byte
   queue in a growable array. `Streams` is one connection's output path with every partial write
   and every interleaving of sends and drains; `TcpConnections.TcpConnection` is the object, each
   method proved against the function of the same name.
4. **The whole server** (`Server*.dfy`, with `EventLoopThreadPool.dfy`, `Names.dfy`,
   `TcpServer.dfy`). `Servers` composes 1 to 3 into one step system: accept on the base loop,
   establish and close on the connection's loop, erase on the base loop, destroy on the
   connection's loop, while user code on any thread sends, shuts down and force-closes any live
   connection. `ServerInvariant` holds the inductive invariant; `ServerLoops`, `ServerConns`,
   `ServerSteps`, `ServerReferences`, `ServerHandlers`, `ServerRuns`, `ServerAdvance` and
   `ServerAccept` show that each kind of step keeps it, `ServerExecution` joins them,
   `ServerTheorems` and `ServerRefinement` draw the consequences, `ServerWitnesses` and `ServerCuts`
   show where they end. `ServerEveryRun`, `ServerAccounts` and `ServerQueues` have what holds without
   any assumption on the run; `ServerLedger` and `ServerHalfClose` follow bytes and requested ends.

The environment is nondeterministic within what the kernel documents: a poll reports any channels
it holds, `write` and `readv` report any count that fits or any error, ADD fails on a descriptor
that is present, MOD and DEL on one that is absent, reading an eventfd resets it, and an accepted
descriptor is any number that is not open. User callbacks are arbitrary finite sequences of calls.
Atomics are sequentially consistent and the mutex is correct.

## What the text gets wrong

Where a line departs from the evident intent, the model has the intended form, and an exact
condition says when the line as written does the same.

- `Buffer.h:35` subtracts `readerIndex_` and `Buffer.h:87-91` never advances `writerIndex_`:
  `BufferAsWritten` (`AppendAsWrittenCorrectIff`, `AppendAsWrittenInBoundsIff`, `ReadAsWrittenCorrectIff`).
- `Channel.h:53-54` compare the whole mask with one unit: `Channels.TestsAsWrittenIff`, and what
  that and the append do to a send, `Streams.SendAsWrittenConservesIff`.
- `TcpConnection.cc:81` binds a borrowed `c_str()`; the payload is modelled as copied. The text
  sends the message exactly when the caller's string still holds it as the functor runs
  (`BorrowedPayload.BorrowedSendsIff`).
- `TcpConnection.cc:178` and `245` bind a data member, which only reads it; the model queues the
  notice that was meant. In the text the user hears what was meant exactly when no write-complete
  callback is installed or the output is not completed (`Streams.NoticesAsWrittenIff`).
- `TcpConnection.cc:66-95` hand raw `this` pointers to another thread: safe exactly when io loops
  are apart from the base loop and no call is cut between its test of `state_` and its push,
  whatever events the polls report (`ServerWitnesses.RawSafeIff`).
- `TcpConnection.cc:66-95` let an off-loop send be overtaken by the half-close of a later shutdown:
  the wire stays complete exactly as long as no such send's functor runs behind the shut
  (`Streams.WireCompleteIff`).
- `TcpConnection.cc:90-92` and `99-101` test and store `state_` in two steps, and `Channel.cc:70-93`
  can run the close and the read callback for one event: the connection's lifecycle keeps its order
  exactly when neither happens (`ServerWitnesses.LifecycleIffTame`).
- The same two steps let a channel be registered for good after its connection is gone: registered
  and reported channels are alive, pollers agree with the kernel and output keeps its write interest
  exactly when no call is cut (`ServerCuts.RegisteredSafeIff`, `DispatchSafeIff`, `PollersOkIff`, `OutputsOkIff`).
- `EventLoop.cc:128` wakes nobody for a functor the owner queues before `loop()`, and
  `EventLoop.cc:67` erases an earlier `quit()`: `LoopProtocol.FirstPollStuckIff`, `LoopProtocol.StuckIff` and
  `LoopProtocol.EarlyQuitErased` say exactly when a loop sleeps beside work and when it leaves.

## Model

A `Mode` says which of two assumptions a run of a started server keeps: each off-loop test of
`state_` and its push are one step (`atomic`), and no hang-up carries PRI without IN (`benign`).
`Ends(s, m)` says that such a run ends in s, with any number of loops, connections and threads;
`Reachable(s)` assumes `atomic` alone. What concerns the order of a life is said of calm
connections, to which no event was dispatched that is a close and a read (`wild` records it).

| member | source | states |
|---|---|---|
| LoopProtocol.ExactlyOnceInOrder | EventLoop.cc:120-132 | after any run with any number of producers, executed functors, then the rest of the swapped batch, then the pending ones are exactly the pushes in push order |
| LoopProtocol.NoLostWakeup | EventLoop.cc:64-143 | an owner in the poll with work or a later quit request finds the eventfd positive or a producer about to write it, unless the owner itself queued the work before loop() |
| LoopProtocol.NeverStuckUnlessPreloaded | EventLoop.cc:120-132 | a run in which the owner queues only from inside the loop never sleeps beside pending work |
| LoopProtocol.StuckIff | EventLoop.cc:120-132 | over all runs, an owner in the poll sleeps beside work exactly when it queued something outside loop() since its last swap and nobody has written the eventfd or is about to |
| LoopProtocol.FirstPollStuckIff | EventLoop.cc:64-132 | the first poll of a loop at rest does so exactly when its owner queued something before it and no other thread has called queueInLoop or quit |
| LoopProtocol.PreloadedFunctorSleeps | EventLoop.cc:120-132 | an instance: one functor queued by the owner before loop() is enough |
| LoopProtocol.EarlyQuitErased | EventLoop.cc:64-71 | whatever came before, the first test of an entered loop leaves it exactly when some thread called quit() in between |
| LoopProtocol.StepKeepsInv | EventLoop.cc:64-184 | the queue and wake-up invariant survives every step of owner and producers |
| LoopProtocol.StepMovesWork | EventLoop.cc:120-132 | pushes go to the end of the owner's remaining work, running takes its head, nothing else moves it |
| LoopProtocol.RunKeepsInv | EventLoop.cc:64-184 | and so does every run |
| LoopProtocol.PassRunsItsBatch | EventLoop.cc:171-184 | whatever is pushed meanwhile, one pass runs at most, and when it can end exactly, the functors present at its swap, in order |
| LoopProtocol.WrittenUntilRead | EventLoop.cc:135-143 | a written eventfd stays readable until the owner's next read of it |
| LoopProtocol.EventfdCounts | EventLoop.cc:135-169 | after any run the counter is the number of writes since the last read, and a poll may report the wakeup channel exactly when there are any |
| LoopProtocol.ReadEmpties | EventLoop.cc:161-169 | after a read no poll reports the wakeup channel until somebody writes again |
| LoopProtocol.ReportedIsRead | EventLoop.cc:73-90 | between a poll and the pass behind it the eventfd is read exactly if the poll reported it |
| LoopProtocol.EveryWriteIsOwed | EventLoop.cc:94-143 | over any run writes made and still to be made are one for each push or quit of another thread and each push of the owner's functors |
| LoopProtocol.RequeuedIsAnnounced | EventLoop.cc:120-132 | a functor queued by a functor obliges the owner to write the eventfd before anything else, and the next poll can return at once |
| EventLoops.EventLoop.QueueInLoop | EventLoop.cc:120-132 | the object's call is the protocol's push followed, except for the owner outside a pass, by its write |
| EventLoops.EventLoop.RunInLoop | EventLoop.cc:105-117 | the functor is run at once on the owner thread and queued with a wake-up from any other |
| EventLoops.EventLoop.Quit | EventLoop.cc:94-102 | sets the flag and wakes the loop only from another thread: the protocol's steps |
| EventLoops.EventLoop.HandleRead | EventLoop.cc:161-169 | the wakeup channel's read callback leaves the counter at 0: the protocol's read |
| EventLoops.EventLoop.DoPendingFunctors | EventLoop.cc:171-184 | a pass ends although functors requeue, runs exactly what was pending, leaves exactly what they queued, announced once each, and is a run of the protocol |
| Registration.ChangeConsistentIff | EPollPoller.cc:78-114 | an enable or disable call keeps index_, events_, channels_ and the kernel in agreement exactly when the channel is registered already or no registered channel has its descriptor |
| Registration.RemoveConsistentIff | EPollPoller.cc:117-130 | the same for remove(), and erasing by descriptor takes the caller's own entry |
| Registration.ChangeMeans | EPollPoller.cc:78-114 | from an enable or disable call on the kernel watches the descriptor for exactly the new events, or no more if a watched one is disabled, and nothing else changes |
| Registration.RemoveMeans | EPollPoller.cc:117-130 | after remove() the descriptor is in neither the map nor the kernel, and nothing else changes |
| Registration.RunConsistent | EPollPoller.cc:78-130 | any sequence of such calls over channels with distinct descriptors keeps agreement and no epoll_ctl is ever refused |
| Registration.RegisteredDistinct | EPollPoller.cc:83-98 | registered channels of a consistent poller have distinct descriptors |
| Registration.CreateConsistent | Channel.cc:14-21 | constructing a channel keeps agreement |
| Registration.SharedDescriptorRefused | EPollPoller.cc:83-98 | two channels on one descriptor: the second ADD is refused and takes the first one's map entry |
| Channels.MaskUnits | Channel.h:45-54 | setting, clearing and testing the two units of the mask are what they say on (read, write) interests |
| Channels.TestsAsWrittenIff | Channel.h:53-54 | the tests as written agree with the interest they name exactly while the two are not on together |
| Channels.CallbacksOrdered | Channel.cc:65-102 | an event runs each installed callback at most once, in the order close, error, read, write |
| Channels.CloseAndReadIff | Channel.cc:70-93 | close and read both run exactly on a hang-up with PRI and without IN |
| Channels.CallbacksByMask | Channel.cc:65-102 | which bits of the mask select which installed callback: HUP without IN, ERR, IN or PRI, OUT |
| Channels.Channel.HandleEventWithGuard | Channel.cc:65-102 | the same of the object's revents_, in the order close, error, read, write |
| Channels.Channel.HandleEvent | Channel.cc:46-62 | a tied channel whose owner is gone calls nothing; otherwise exactly the installed callbacks whose bits are set in revents_, in order |
| Channels.Channel.EnableReading | Channel.h:45 | changes one unit of the interest, and the poller makes the machine's step |
| Channels.Channel.EnableWriting | Channel.h:47 | the same for the write unit |
| Channels.Channel.DisableWriting | Channel.h:48 | the same for clearing it |
| Channels.Channel.DisableAll | Channel.h:49 | clears the mask, and the poller makes the machine's step |
| Channels.Channel.Remove | Channel.cc:35-38 | the poller makes the machine's removal step |
| Channels.EPollPoller.UpdateChannelOf | EPollPoller.cc:78-114 | the object's fields and the kernel set after the call are the registration machine's |
| Channels.EPollPoller.RemoveChannelOf | EPollPoller.cc:117-130 | the same for removal |
| Channels.EPollPoller.FillActiveChannels | EPollPoller.cc:133-143 | the active list is extended by the reported channels in order, each carrying its last reported events; registration is untouched |
| Buffers.MakeSpaceFits | Buffer.h:79-125 | after making space len bytes fit, content length is kept, compaction happens only with the reader beyond the prepend area, storage grows to at most readable + 2 len + 7 |
| Buffers.ReadOffers | Buffer.cc:14-48 | one readFd can take 65536 bytes or more, uses the stack area only behind a writable part shorter than that, and never appends more than 65536 bytes from it |
| Buffers.RunStaysBounded | Buffer.h:79-125 | over any run of append, retrieve and readFd the indices delimit the queue's length, and storage never exceeds the larger of its start and twice the content bound plus 7 |
| Buffers.Buffer.Perform | Buffer.h:43-91 | any run of append, retrieve and readFd on the object leaves the content of the byte queue the run describes, in the specified layout |
| Buffers.Buffer.Append | Buffer.h:87-91 | (repaired) content becomes old content followed by the data; the layout is the specified one |
| Buffers.Buffer.Retrieve | Buffer.h:43-56 | drops len bytes from the front, or everything; an emptied buffer is back at its initial indices |
| Buffers.Buffer.RetrieveAsString | Buffer.h:70-75 | result and remaining content together are the old content; a longer len returns stale bytes behind it and empties the buffer |
| Buffers.Buffer.RetrieveAllAsString | Buffer.h:65-68 | returns the whole content and empties the buffer |
| Buffers.Buffer.EnsureWritableBytes | Buffer.h:79-85 | len bytes fit afterwards, content unchanged |
| Buffers.Buffer.MakeSpace | Buffer.h:107-125 | grows or compacts in place with an overlapping forward copy, content unchanged |
| Buffers.Buffer.ReadFd | Buffer.cc:14-48 | (repaired) for every writable size and every count readv may return, content becomes old content followed by exactly the bytes delivered; an error changes nothing |
| Buffers.Buffer.WriteFd | Buffer.cc:50-58 | what was sent followed by the rest is the content; errors are reported |
| BufferAsWritten.AppendAsWrittenCorrectIff | Buffer.h:87-91 | the text's append adds its argument exactly when there is nothing to add |
| BufferAsWritten.AppendAsWrittenInBoundsIff | Buffer.h:35 | and stays inside the vector exactly under the stated condition on sizes |
| BufferAsWritten.ReadAsWrittenCorrectIff | Buffer.cc:14-48 | the text's readFd is right exactly when the bytes fit the true free space |
| BufferAsWritten.ReadAsWrittenOverruns | Buffer.cc:14-48 | any 1025 bytes into a fresh buffer show it: the last one is copied behind the vector's end |
| BufferAsWritten.AppendAsWrittenLosesOneByte | Buffer.h:87-91 | a fresh buffer and one byte show it |
| ThreadPools.NextIsCallsModulo | EventLoopThreadPool.cc:38-51 | the cursor is the number of calls modulo the number of loops |
| ThreadPools.CountOfPicks | EventLoopThreadPool.cc:38-51 | exact number of picks of each loop after k calls |
| ThreadPools.PicksAreFair | EventLoopThreadPool.cc:38-51 | no loop is ever more than one pick ahead of another |
| ThreadPools.EventLoopThreadPool.GetNextLoop | EventLoopThreadPool.cc:38-51 | the k-th call from 0 after start returns loop k mod n (offset by the cursor if started again), or the base loop without threads |
| ThreadPools.EventLoopThreadPool.Start | EventLoopThreadPool.cc:18-35 | one more loop per thread, in order, at every start; the init callback runs on the base loop exactly without threads |
| ThreadPools.EventLoopThreadPool.GetAllLoops | EventLoopThreadPool.cc:53-63 | the n-th entry is what getNextLoop returns with the cursor at n, one entry for each position the cursor takes; the next pick is among them |
| Names.ConnNameInjective | TcpServer.cc:77-80 | connection names are pairwise distinct |
| Names.SuffixNotTruncated | TcpServer.cc:77-78 | the 64-byte buffer holds the suffix for every positive int id and IPv4 address |
| Streams.ActKeepsInv | TcpConnection.cc:115-290 | every handler, call and functor keeps the byte accounts and the interest rule |
| Streams.SendAccounts | TcpConnection.cc:223-283 | a send extends wire-then-buffer by the whole message, or loses all of it; ActAccounts says which and by how much |
| Streams.ByteConservation | TcpConnection.cc:159-283 | for all partial writes and interleavings, until a message is lost wire then buffer is everything accepted in order, afterwards counts add up; while up, write interest is on exactly over a non-empty buffer |
| Streams.ActAccounts | TcpConnection.cc:159-283 | each act extends the wire by exactly what write(2) reported, and wire and buffer together by its message unless that was given up on a broken connection |
| Streams.WireIsReported | TcpConnection.cc:159-283 | in every run the wire is as many bytes of what was sent and not given up, from the front, as write(2) reported in all, and the buffer is the rest |
| Streams.StateIsHistory | TcpConnection.cc:88-135 | in every run state_ and the half-close are decided by which acts came: established, asked to end, closed, and tested with nothing to write |
| Streams.NoticesExact | TcpConnection.cc:159-276 | the notices of an act, exactly: write-complete when it completes the output, high-water on an upward crossing, never both |
| Streams.ShutdownStarts | TcpConnection.cc:88-95 | shutdown of a connection that is up makes it Disconnecting at once, whatever is buffered, and half-closes at once exactly over an empty buffer |
| Streams.ShutOnlyWhenDrained | TcpConnection.cc:284-290 | outside Disconnected the write side is shut only over an empty buffer, with every accepted byte on the wire |
| Streams.ShutOverEmpty | TcpConnection.cc:284-290 | in every run, once shut a connection still up keeps an empty buffer |
| Streams.WireCompleteIff | TcpConnection.cc:66-95 | in every run, the wire of an intact connection never grows after the half-close, and it stays everything accepted exactly as long as no off-loop send's functor runs behind it |
| Streams.WireCompleteAfterShut | TcpConnection.cc:88-95 | so without off-loop functors after the half-close the wire is complete for good |
| Streams.OffLoopSendOvertaken | TcpConnection.cc:66-95 | for all non-empty messages a run in which an off-loop send is overtaken by the drain and lost |
| Streams.ShutdownCompletes | TcpConnection.cc:159-196 | from a shutdown() of a connection that is up, among any other acts short of a close or an off-loop send, what was buffered drains in order, each write that makes progress counts against it, and behind the last byte the next test shuts |
| Streams.FlushCompletes | TcpConnection.cc:159-196 | undisturbed, whole calls of handleWrite drain and shut by themselves |
| Streams.HighWaterIffCrossing | TcpConnection.cc:266-276 | the notice is queued exactly on an upward crossing and carries the new backlog |
| Streams.HighWaterSeparated | TcpConnection.cc:266-276 | between two notices the backlog was below the mark |
| Streams.SendAsWrittenConservesIff | TcpConnection.cc:223-283 | with the faulty lines a send past an empty buffer, the connection up, keeps the byte accounts exactly when the socket takes all at once or is broken |
| Streams.NoticesAsWrittenIff | TcpConnection.cc:174-180 | with the bind as written the notices that reach the user are those meant exactly when no write-complete callback is installed or the act does not complete the output |
| BorrowedPayload.BorrowedSendsIff | TcpConnection.cc:79-82 | with the bind as written the functor sends the message exactly when it is empty, or the caller's string is alive and what was last assigned to it starts with the message |
| BorrowedPayload.TemporaryIsLost | TcpConnection.cc:79-82 | a temporary string is gone before the functor runs |
| TcpConnections.TcpConnection.constructor | TcpConnection.cc:23-58 | a fresh Connecting connection, channel constructed on the poller with all four callbacks, untied |
| TcpConnections.TcpConnection.Send | TcpConnection.cc:66-85 | on the loop thread the stream's send, elsewhere exactly one queued functor and one wake-up while Connected |
| TcpConnections.TcpConnection.Shutdown | TcpConnection.cc:88-95 | a Connected connection becomes Disconnecting, whatever is buffered; on the loop's thread the write side is shut unless it is writing, elsewhere one functor is queued with a wake-up |
| TcpConnections.TcpConnection.ForceClose | TcpConnection.cc:97-104 | state store and one queued functor, even on the loop thread, with a wake-up unless the loop is dispatching |
| TcpConnections.TcpConnection.ForceCloseInLoop | TcpConnection.cc:106-112 | closes exactly a connection still up |
| TcpConnections.TcpConnection.ConnectEstablished | TcpConnection.cc:115-122 | Connected, tied, reading registered with the poller, callback made |
| TcpConnections.TcpConnection.ConnectDestroyed | TcpConnection.cc:124-135 | closes and calls back only a Connected connection; the channel leaves the poller |
| TcpConnections.TcpConnection.HandleRead | TcpConnection.cc:138-158 | input grows by the bytes read; exactly a read of zero closes; an error changes nothing and calls nobody |
| TcpConnections.TcpConnection.HandleWrite | TcpConnection.cc:159-196 | the bytes write(2) reported move from the front of the buffer to the wire, interest is told to the poller, the notice queued, and a drained connection asked to end is shut |
| TcpConnections.TcpConnection.HandleClose | TcpConnection.cc:197-206 | Disconnected, all interest off, the two callbacks in order |
| TcpConnections.TcpConnection.SendInLoop | TcpConnection.cc:223-283 | wire, buffer, poller and loop queue are those of the specified send; in its own fields, the wire grows by what write(2) reported of a direct write and wire and buffer together by the message |
| TcpConnections.TcpConnection.ShutdownInLoop | TcpConnection.cc:284-290 | shuts the write side unless write interest is on |
| TcpServers.TcpServer.NewConnection | TcpServer.cc:73-110 | inserts under a name not in the map, takes the pool's next loop, runs connectEstablished there or queues it with a wake-up, touches no other loop; an object that showed a state of the server shows the state after its step Accept |
| TcpServers.TcpServer.RemoveConnection | TcpServer.cc:113-118 | runs the removal on the base loop or queues it with a wake-up: on a state of the server, the handler part Report |
| TcpServers.TcpServer.RemoveConnectionInLoop | TcpServer.cc:120-132 | exactly the connection's own entry goes, and connectDestroyed is run on its loop or queued with a wake-up: on a state of the server, the handler part Erase |
| TcpServers.TcpServer.Start | TcpServer.cc:61-70 | only the first call starts the pool and the listening |
| TcpServers.AcceptFront | TcpServer.cc:73-110 | of the map, the counter, the pool's cursor and the queues, the server's step Accept changes just what newConnection does |
| TcpServers.ReportFront | TcpServer.cc:113-118 | the close callback's step changes just what removeConnection does |
| TcpServers.EraseFront | TcpServer.cc:120-132 | the erase step changes just what removeConnectionInLoop does |
| ServerExecution.StepKeepsInv | TcpServer.cc:73-132 | every step of every thread that cuts no off-loop call keeps the server's invariant, whatever events are reported |
| ServerTheorems.LifecycleInOrder | TcpConnection.cc:114-135 | a calm connection's history is a prefix of established, up callback, handleClose, down callback, erased, destroyed; state_ says how far; a handleClose without its callback has it next |
| ServerTheorems.EveryCloseIsPaired | TcpConnection.cc:197-206 | of any connection, calm or not: established once and first, and each handleClose has a callback, an erase and a connectDestroyed of its own, made or on its way |
| ServerTheorems.DestroyFindsDisconnected | TcpConnection.cc:124-135 | connectDestroyed runs on the connection's loop and finds it Disconnected; in a calm life it is all that is missing |
| ServerTheorems.QuiescentIsSettled | TcpServer.cc:106-132 | when nothing is left to do every connection is up, mapped and registered, or fully destroyed as often as closed, unmapped and unregistered |
| ServerTheorems.RawFunctorsAreSafe | TcpConnection.cc:66-95 | with a pool, each queued raw-this functor waits on its connection's loop, ahead of every connectDestroyed, with the connection alive and not destroyed |
| ServerTheorems.RegisteredIsAlive | TcpServer.cc:94-132 | a registered channel's connection is alive and its descriptor is unique among live connections, registered channels of all pollers, and whatever accept can return |
| ServerTheorems.PollersAgree | EPollPoller.cc:78-130 | every poller of the server agrees with its kernel set and no epoll_ctl was refused |
| ServerTheorems.UndispatchedIsSafe | EventLoop.cc:73-82 | every channel still to be dispatched belongs to a live connection of that loop and is registered, whatever callbacks did; if calm, the connection is mapped and up |
| ServerTheorems.EveryFunctorRuns | EventLoop.cc:171-184 | with a pool, a loop about to take a functor never meets a missing connection: the step's guard is only about what the kernel may report |
| ServerTheorems.EveryHandlerAdvances | TcpConnection.cc:115-206 | a handler under way can always go on and its connection is alive |
| ServerTheorems.EveryAcceptIsTaken | TcpServer.cc:73-110 | a dispatching, idle base loop can accept on any descriptor that is not open |
| ServerTheorems.LoopsGoOn | EventLoop.cc:64-90 | every loop's thread can always take a step of its own, but for a single-loop server about to run a raw functor of a connection that is gone |
| ServerTheorems.DispatchEnds | Channel.cc:46-62 | the end of a dispatch releases the guard and frees the loop for the next channel or pass |
| ServerTheorems.NothingLeaks | TcpServer.cc:94-132 | while all loops sleep, a connection is alive exactly if it is in the map, and then up and registered, or user code holds it |
| ServerEveryRun.MapAgreement | TcpServer.cc:94-126 | in every run at all, connections_ holds exactly the accepted connections not erased, under pairwise distinct names |
| ServerEveryRun.ErasedIsDestroyed | TcpServer.cc:126-130 | in every run at all, each erased connection's connectDestroyed is queued on its own loop, running there, or done |
| ServerEveryRun.LoopsAreServed | EventLoop.cc:120-184 | in every run at all, every loop of the server runs its pushes once and in order and never sleeps beside work |
| ServerEveryRun.BytesAreConserved | TcpConnection.cc:159-283 | in every run at all, every connection conserves bytes and its poller holds its current interest |
| ServerEveryRun.BenignIsCalm | Channel.cc:70-93 | a run without a hang-up that carries PRI and no IN leaves every connection calm |
| ServerAccounts.StepParts | TcpConnection.cc:115-206 | a step runs the first part a loop has at hand and puts what that part, an event or a functor leads to in front of the rest, in the source's order |
| ServerAccounts.EveryPartIsRun | TcpConnection.cc:115-206 | in every run at all, each part of a handler that an event, a functor or another part starts on a loop has been run there or is still at hand, and no other is run |
| ServerAccounts.StepEvents | TcpConnection.cc:115-206 | a step adds to a connection's history exactly the events of the part it runs |
| ServerAccounts.CloseHasCause | TcpConnection.cc:106-158 | in every run at all, a connection's closes, done or at hand, are exactly the reads of it that returned 0, the hang-ups without IN dispatched to it, and the forceClose functors that found it up |
| ServerAccounts.ReadIsHandleRead | TcpConnection.cc:138-158 | the server's read part closes or calls the user exactly when the object's handleRead, told the same by readv, does |
| ServerAccounts.EventBits | Channel.cc:65-102 | which bits of a reported mask start which handler of a connection |
| ServerAccounts.EventsAreDispatched | EventLoop.cc:73-87 | every event a loop's polls report is dispatched once, in the order reported, or still waits in the active list |
| ServerQueues.HandedIsRun | EventLoop.cc:105-184 | in every run at all, what a loop has run, has swapped out and has pending are exactly the functors that accepts, closes, erases, off-loop calls, forceCloses, notices and user code handed to it, in order |
| ServerRefinement.StepMoves | TcpConnection.cc:66-290 | a step is at most one act of a connection's stream, the one named, adds at most one event to its log, and never moves its loop or descriptor |
| ServerRefinement.NeverMovesBack | TcpConnection.cc:88-135 | no connection moves back along Connecting, Connected, Disconnecting, Disconnected, and its history only grows |
| ServerRefinement.ConnectionsAreStreams | TcpConnection.cc:66-290 | along every run of the server, the states of a connection and its acts, stutters dropped, are a run of Streams |
| ServerRefinement.TraceSplits | TcpConnection.cc:66-290 | what such a trace is up to any moment of the run and from it on |
| ServerRefinement.RequestTakes | TcpConnection.cc:88-104 | a shutdown() or forceClose() of a connection that is up, from any thread, makes it Disconnecting whatever is buffered, and changes no byte |
| ServerRefinement.WireCompleteIff | TcpConnection.cc:66-95 | from the moment a connection of the server is half-closed, intact and still up, its wire never grows, and it stays everything accepted exactly as long as no loop takes a non-empty off-loop send of it in Disconnecting |
| ServerRefinement.ShutdownCompletes | TcpConnection.cc:159-196 | from a shutdown() on any thread of a connection that is up, and short of a close or an off-loop send of it, what was buffered drains in order, as many writes as bytes were buffered suffice for every accepted byte to be on the wire, and the next test of the empty buffer shuts the write side |
| ServerRefinement.InterestFollowsOutput | TcpConnection.cc:159-290 | while a connection of the server is up, write interest is on exactly over a non-empty buffer, and the write side is shut only with nothing left to write |
| ServerRefinement.ConnectionsTakeTurns | TcpServer.cc:76 | the c-th accepted connection lives on the loop of the pool's c-th pick |
| ServerLedger.StepLedger | TcpConnection.cc:66-85 | a step adds to a connection's account the message it sends, to its wire what write(2) reports |
| ServerLedger.WireIsReported | TcpConnection.cc:159-283 | along any run of the server a connection has accepted exactly what was sent on it, and its wire is as many of those bytes, from the front, as write(2) reported in all |
| ServerHalfClose.EndIsRemembered | TcpConnection.cc:88-112 | a connection that is Disconnecting has been half-closed, or has output and asks to write it, or a half-closing test or a close of it is at hand or queued on its loop |
| ServerHalfClose.QuiescentIsHalfClosed | TcpConnection.cc:159-196 | with nothing left to do every connection asked to end is half-closed or waits for the kernel to take its output |
| ServerWitnesses.SingleLoopRawDangles | TcpConnection.cc:79-82 | in a single-loop server an off-loop send can be run on a connection that no longer exists |
| ServerWitnesses.SplitSendDangles | TcpConnection.cc:66-85 | with any pool, a send cut between its test and its push can queue its functor for a connection that is gone |
| ServerWitnesses.RawSafeIff | TcpConnection.cc:66-95 | for every pool and over all runs of every mode, raw functors are safe exactly when io loops are apart from the base loop and each off-loop test and push is one step |
| ServerWitnesses.SplitCallClosesTwice | TcpConnection.cc:97-104 | a forceClose cut between test and store moves the state back and closes twice |
| ServerWitnesses.HangUpClosesTwice | Channel.cc:70-93 | a hang-up with PRI and without IN closes twice |
| ServerWitnesses.LifecycleIffTame | TcpConnection.cc:88-112 | the lifecycle keeps its order in all runs exactly when neither happens |
| ServerCuts.RegisteredSafeIff | TcpConnection.cc:66-104 | registered channels' connections are alive in all runs of a mode exactly when no off-loop call is cut |
| ServerCuts.DispatchSafeIff | EventLoop.cc:73-82 | the same for reported channels not yet dispatched |
| ServerCuts.PollersOkIff | EPollPoller.cc:78-130 | the same for the agreement of pollers and kernel |
| ServerCuts.OutputsOkIff | TcpConnection.cc:159-290 | the same for the write interest and the half-close over an empty buffer |

## Left out

- Server teardown, loops that quit with work queued, and destruction of loops and threads: the theorems are about a server that is alive with its loops running; `quit` is in `LoopProtocol` only.
- `EventLoop::loop` as a method: it need not end, so it is the owner's cycle of steps in `LoopProtocol`; the object has the calls and one pass.
- Connector and TcpClient: retry is declared but absent, so a model would have to be invented.
- Thread and loop start-up handshakes: loops exist when the server starts.
- Memory-model effects, integer width of `nextConnId_` and of the eventfd counter: unbounded here.
- epoll timeouts, the doubling of the event list, time stamps, errno logging, the poll(2) switch and `handleError`: nothing depends on them.
- The wakeup and acceptor channels of the server: their effect is in the loop's and accept's own steps, their descriptors in `reserved`.
- `disenableReading` and the `reading_` flag inside connections: connections never use them; the call is modelled on channels.
- In the server's steps a handler is cut where other threads can see or change something; what lies between two cuts, including the output path's queueing of a notice, is one step.
- User code inside the classes: callbacks are reported as results of the method that makes them; their calls back into the library are the server's steps.
- The callback and mark setters of a connection: the configuration is fixed for a run.
