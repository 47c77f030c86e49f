# Verification of the reactor

A Dafny model of the event-driven networking library in `SrcFile`: one event loop per thread, an epoll
poller with channels, a timer queue on one timerfd, a queue of functors that any thread may fill, TCP
connections with output buffers, a reconnecting connector, and a server whose connections live in several loops.
`dafny verify dfyconfig.toml` checks everything.

Two kinds of modules work together. Objects that the library updates in place are classes
(`TimerQueue`, `EventLoop`, `Channel` and `EPollPoller`, `TcpConnection`, `Connector`, `TcpServer`,
`EventLoopThreadPool`); each of their methods is proved to make one step of a machine on values. The machines
(`TimerSpec`, `TimerRuns`, `EventLoopProtocol`, `Connection`, `ConnectionRuns`, `Connecting`, `ConnectorRuns`,
`Ownership`, `LoopDispatch`) state what the library is for, as lemmas over all their runs: all interleavings of
threads, all answers of the kernel, all callbacks.

| files | what they cover |
|---|---|
| TimerSpec, TimerRuns | the timer queue as a map from identities to due times, and whole runs of it |
| OrderedEntries, TimerIndex, TimerQueue | two ordered sets over one heap of timers with reused addresses, and the refinement |
| EventLoopProtocol, EventLoop | functor queue and wakeup, loop thread against any number of others |
| Interest, EPollPoller | channel masks, the three-valued index, the kernel's interest list |
| Connection, TcpConnection | the output path and the states of one connection |
| ConnectionRuns, ConnectionLife | the connection in its loop: byte stream, call order, life cycle, reading stopped and started |
| ConnectionCare | the exact condition for the life cycle, step by step, and the runs that break it |
| ConnectionProgress | over whole runs: buffered bytes reach the wire, reported events are handled, closes and read switches take effect |
| HalfClose, RemoteHalfClose | shutdown from the loop thread, and from another thread |
| Connecting, Connector, ConnectorRuns | the connector, its channel hand-over, back-off, stop and restart |
| ConnectorProgress | a wanted connector is never forgotten, and queued closes are served |
| Ownership, OwnershipCare | who keeps a connection alive across loops, and exactly which steps break it |
| ConnectionNames, TcpServer, EventLoopThreadPool | names and table of connections, round robin |
| LoopDispatch, LoopCare | what calls made by handlers may remove, destroy or change while active channels are handled, and exactly which steps break it |
| Queues | how often something is queued |

## Where the code does not do what it is meant to

Each of these is stated as a lemma with the exact condition under which the intended behaviour holds.

* **shutdown's guard** (`SrcFile/TcpConnection.c:156`) is an assignment, so it never fails.
  On a closed connection shutdown reopens it, and a forced close can then close it twice: exactly then
  (`ShutdownReopensIffClosed`; `LateShutdownHappens` is such a run). On a connection that is shutting down and has
  been drained it half-closes once more: two calls in the loop thread send two FINs (`TwoShutdownsHappen`), and
  `LoopThreadHalfClose` counts them. `Info/TcpServer.txt:159-160` says shutdown acts only when connected. The life
  cycle is proved for every caller that does not call it on a closed connection; what is proved of a shutdown call
  from another thread is for callers that keep to the documented rule (`HalfClose.Proper`). The class has the line as
  written.
* **stopRead, then close**: with reading stopped and nothing to write the mask is empty, and disableAll puts the
  channel back into epoll, where a hang-up closes the connection again. A close can come to a second one exactly when
  nobody is reading and nothing is left to write (`ClosesTwiceIffSilent`; `SilentCloseHappens` is the run: connected,
  stopRead, forceClose). startRead and stopRead on a closed connection can do the same. `CarefulIff` gives the exact
  condition for every step of every run, functors still queued included.
* **After such a second close** the server's table has no entry left to erase, and connectDestroyed comes a second time
  and removes a channel the poller does not know. In the machines of whole loops (`LoopDispatch`) and of the server
  (`Ownership`) the results are therefore about careful runs: shutdown is called on no closed connection, and epoll
  reports none, which it does only if one is in its list (`ReportedIffListed`). Both machines have the careless steps
  too, and each is shown to be able to end in a failure: `LoopCare.CarefulIff`, `OwnershipCare.CarefulIff`.
* **shutdown from another thread** changes the state at once but queues the half-close. If the output buffer drains in
  between, handleWrite half-closes by itself: ahead of messages queued before the call, which are then lost to
  EPIPE, and a second time when the queued half-close runs. `RemoteHalfCloseIff` says exactly when either can happen,
  and `OvertakingHappens` that it does.
* **cancel of a timer whose addition is still queued** finds nothing and is forgotten; otherwise cancel is final
  (`CancelIsFinal`, `CancelInCallbackIsFinal`).
* **The connector needs short loop iterations**: a retry that comes due before the queued resetChannel has run finds the
  slot taken. If nobody starts or restarts the connector between stop() and its stopInLoop, iterations shorter than
  500 ms suffice; if somebody may, as when TcpClient has just tested its own flag while another thread calls
  stop(), two iterations together must be shorter (`ConnectorSafeIff`).
* **Connection names are cut at 63 characters**, and the name is the key of the server's table: names are distinct
  exactly as long as the last id fits (`NamesDistinctIff`). With 10 digits and 51 characters of address it just does.

## Assumptions

* One monotone clock, integer microseconds for timers and milliseconds for the connector.
* Sequence numbers, connection ids and queues are unbounded.
* The allocator never answers an address in use (`TimerSpec.Legal`); it may answer one that was freed. A callback's
  effect on the queue is a finite list of additions and cancellations.
* epoll_wait, connect, write, read and SO_ERROR are parameters: any answer, but write takes no more than it is given and
  fails with EPIPE after shutdownWrite; epoll reports registered events, ERR and HUP, and no PRI with a HUP
  that comes without IN. Descriptors are not reused within one connector's run.
* A user's call from another thread is one step. Calls of queueInLoop in the loop's own thread come from inside an
  iteration; a push before loop() starts waits for the poll timeout.
* start() of a connector is called once, restart() only after a delivered connection has closed, stop() at any time.
* A connection's functors run while the connection exists, also those that hold a raw `this`.

## Model

| member | source | states |
|---|---|---|
| `TimerSpec.HandleReadOutcome` | SrcFile/TimerQueue.c:131-146 | After one handleRead, for every identity: a due timer is still queued iff it repeats and no callback cancelled it, and is then due at now + interval; one not due stays iff not cancelled; a new one is there iff some callback added it and none cancelled it afterwards |
| `TimerSpec.DueOrderUnique` | SrcFile/TimerQueue.h:26-29 | The order by (expiration, pointer) of the due timers is unique, so "runs the due timers in order" says which sequence |
| `TimerSpec.IssuedThroughOps` | SrcFile/TimerQueue.c:87-105 | Whatever callbacks do, an issued timer leaves the queue iff its id is cancelled, and its data never change; a cancel that finds nothing during a batch is remembered |
| `TimerSpec.FreshThroughOps` | SrcFile/TimerQueue.c:64-80 | A new identity is queued afterwards iff some operation created it and no later one cancelled it; guessing an id beforehand has no effect |
| `TimerSpec.SequencesGrow` | SrcFile/Timer.h:11-17 | No identity is ever issued twice, although addresses are: a stale id never meets a newer timer |
| `TimerSpec.ApplyKeepsInv` | SrcFile/TimerQueue.c:64-105 | Additions and cancellations keep every timer in exactly one of queue, pending addition and batch, with distinct addresses and sequence numbers |
| `TimerRuns.RunsKeepTime` | SrcFile/TimerQueue.c:107-182 | In every run no timer runs before its expiration, only repeating timers run again, and two runs of one are at least its interval apart |
| `TimerRuns.CancelIsFinal` | SrcFile/TimerQueue.c:87-105 | After cancelInLoop between batches the timer never runs again in any continuation, iff its addition was not still queued |
| `TimerRuns.CancelInCallbackIsFinal` | SrcFile/TimerQueue.c:138-145 | Cancelled from any callback, its own included, a timer runs at most in the batch already taken and in no later one, iff its addition was not still queued |
| `TimerRuns.GoneNeverRuns` | SrcFile/TimerQueue.c:183-187 | A deleted timer never runs again, whatever is allocated at its address |
| `OrderedEntries.Insert` | SrcFile/TimerQueue.c:159-162 | Inserting keeps the set ordered and adds that entry only |
| `OrderedEntries.Erase` | SrcFile/TimerQueue.c:95-98 | Erasing takes out that entry only and keeps the order |
| `OrderedEntries.LowerBound` | SrcFile/TimerQueue.c:111-114 | Everything before the bound is less than the entry, nothing from it on is |
| `TimerIndex.SizesAgree` | SrcFile/TimerQueue.c:90-104 | Indexes that hold the same timers have the same size: the size assertions of every operation |
| `TimerIndex.IndexedAfterInsert` | SrcFile/TimerQueue.c:148-170 | Neither set holds a timer that is about to be inserted (both insert assertions), and the sets agree afterwards |
| `TimerIndex.IndexedAfterErase` | SrcFile/TimerQueue.c:93-99 | timers_ holds the entry that activeTimers_ leads to (the assertion n==1), and the sets agree without the freed timer |
| `TimerIndex.OwnedAfterDelete` | SrcFile/TimerQueue.c:178-187 | Deleting a timer leaves every other timer with exactly one owner and no pointer to the freed address |
| `TimerIndex.ExpiredIsDueOrder` | SrcFile/TimerQueue.c:107-129 | The entries below the sentry are exactly the due timers, once each, in (expiration, pointer) order |
| `TimerIndex.ExpireRefines` | SrcFile/TimerQueue.c:107-129 | Erasing that range from both sets is taking the due timers from the simple queue |
| `TimerIndex.DiscardRefines` | SrcFile/TimerQueue.c:87-99 | Cancelling an indexed timer by its entry, and freeing it, is removing it from the simple queue |
| `TimerIndex.RescheduleRefines` | SrcFile/TimerQueue.c:176-182 | Restarting and inserting an expired timer is putting it back due at now + interval |
| `TimerIndex.ResetTimerRefines` | SrcFile/TimerQueue.c:176-188 | One turn of the loop in reset does one timer's share of the simple queue's finish, also when callbacks reused addresses |
| `TimerQueue.TimerQueue.HandleRead` | SrcFile/TimerQueue.c:131-146 | With callbacks that add and cancel: the timers run are the due ones in due order, the queue afterwards is the simple queue's, and the timerfd is set for the earliest expiration left, 100 us from now at the earliest |
| `TimerQueue.TimerQueue.GetExpired` | SrcFile/TimerQueue.c:107-129 | Both sets lose exactly the due timers, the vector holds them in order, and nothing due is left |
| `TimerQueue.TimerQueue.Reset` | SrcFile/TimerQueue.c:173-197 | Uncancelled repeating timers are back, the others freed, and the timerfd is set for exactly the earliest expiration, 100 us from now at the earliest, or left alone when there is none; the queue stays covered whatever callbacks inserted or cancelled |
| `TimerQueue.TimerQueue.ResetTimer` | SrcFile/TimerQueue.c:176-188 | One expired timer is rescheduled or freed and leaves the batch |
| `TimerQueue.TimerQueue.Insert` | SrcFile/TimerQueue.c:148-170 | Both sets gain the timer; the result says whether the earliest expiration became earlier |
| `TimerQueue.TimerQueue.AddTimer` | SrcFile/TimerQueue.c:64-69 | In the loop thread the timer is queued at once under a new identity; if the timerfd covered the earliest timer it still does |
| `TimerQueue.TimerQueue.AddTimerInLoop` | SrcFile/TimerQueue.c:71-80 | The waiting timer joins the queue; the timerfd is set for exactly its expiration if that is the new earliest one, and is not touched otherwise |
| `TimerQueue.TimerQueue.CancelInLoop` | SrcFile/TimerQueue.c:87-105 | The simple queue's cancel, with no access to a freed timer; coverage by the timerfd is kept |
| `TimerQueue.TimerQueue.ResetTimerfd` | SrcFile/TimerQueue.c:48-60 | The timerfd fires at the expiration, but not within 100 microseconds of being set |
| `TimerQueue.TimerQueue.ReadTimerfd` | SrcFile/TimerQueue.c:37-46 | A readable one-shot timerfd is disarmed by reading; otherwise nothing changes |
| `TimerQueue.TimerQueue.DueIsReadable` | SrcFile/TimerQueue.c:24-35 | Outside handleRead a due timer makes the timerfd readable, at the latest 100 microseconds after it was last set |
| `TimerQueue.TimerQueue.constructor` | SrcFile/TimerQueue.c:199-210 | An empty queue, correctly indexed and covered |
| `EventLoopProtocol.NoLostWakeup` | SrcFile/EventLoop.c:185-195 | In every interleaving, whenever the loop is in epoll_wait with functors queued or quit requested, the eventfd is readable or some thread is between its push and its write |
| `EventLoopProtocol.PollCanReturn` | SrcFile/EventLoop.c:132-136 | Then epoll_wait can return, after at most one step of another thread |
| `EventLoopProtocol.StepKeepsInv` | SrcFile/EventLoop.c:124-208 | Every step of every thread keeps the wakeup and queue invariant, eventfd overflow included |
| `EventLoopProtocol.ExactlyOnceFifo` | SrcFile/EventLoop.c:51-64 | In every run, functors executed, then the rest of the batch, then pendingFunctors_, is the sequence of pushes in lock order |
| `EventLoopProtocol.BatchIsFixed` | SrcFile/EventLoop.c:59-62 | While a batch runs, whatever is pushed, the functors run are those of the batch, and no more than it had |
| `EventLoopProtocol.DoPendingFunctorsRunsTheBatch` | SrcFile/EventLoop.c:51-64 | One doPendingFunctors runs exactly what was queued at its swap, in order |
| `EventLoopProtocol.IterationRunsTheQueue` | SrcFile/EventLoop.c:132-152 | Everything queued while no functors run has run, in order, at the end of the next doPendingFunctors |
| `EventLoopProtocol.SilentPushIsSafeIffRoused` | SrcFile/EventLoop.c:191-194 | A push by the loop thread without a wakeup outside handlers and functors is safe iff the loop is roused anyway: why the condition of queueInLoop is enough |
| `EventLoopProtocol.StopsWhenAsked` | SrcFile/EventLoop.c:132-177 | In every run quit_ is set iff quit was called, the loop stops only then, and it does not poll again once it was called outside epoll_wait |
| `EventLoopProtocol.RousedLoopRunsTheQueue` | SrcFile/EventLoop.c:132-152 | A loop whose eventfd is readable comes back, by its own steps alone, to the test of quit_ with the eventfd empty and everything that was queued run in order |
| `EventLoopProtocol.QueuedFunctorsRun` | SrcFile/EventLoop.c:170-195 | So functors queued while the loop is in epoll_wait do run, and a quit then does stop it, after at most one write that some thread still owes |
| `EventLoopProtocol.QueuedWhilePolling` | SrcFile/EventLoop.c:124-136 | A loop just started polls, and work can be queued then while the eventfd is not readable: what NoLostWakeup is about happens |
| `EventLoop.EventLoop.QueueInLoop` | SrcFile/EventLoop.c:185-195 | The push, and the wakeup where the code makes one, are steps of the protocol, which keeps its invariant |
| `EventLoop.EventLoop.RunInLoop` | SrcFile/EventLoop.c:198-208 | In the loop thread the functor runs at once, and what it queues makes steps of the protocol; elsewhere it is queued with a wakeup, as steps of the protocol |
| `EventLoop.EventLoop.DoPendingFunctors` | SrcFile/EventLoop.c:51-64 | With functors that queue further functors and other threads pushing: the batch is run in order and what was pushed meanwhile stays queued; the whole is a run of the protocol |
| `EventLoop.EventLoop.HandleRead` | SrcFile/EventLoop.c:105-114 | Reading the eventfd empties it and keeps the invariant |
| `EventLoop.EventLoop.WakeUp` | SrcFile/EventLoop.c:255-265 | The eventfd is readable afterwards, also when the write is refused because it is full |
| `Interest.WantedMeansAdded` | SrcFile/Channel.h:39-43 | After any sequence of enable and disable calls a channel that wants events is in epoll, and has left kNew |
| `Interest.DisableAllLeavesEpollIffAdded` | SrcFile/EPollPoller.c:92-135 | disableAll takes a channel out of epoll iff it was in; otherwise it puts it in with an empty mask |
| `EPollPoller.EPollPoller.UpdateChannel` | SrcFile/EPollPoller.c:92-135 | The kernel's list is again exactly the added channels with their masks; no ADD hits a present descriptor, no MOD or DEL an absent one |
| `EPollPoller.EPollPoller.RemoveChannel` | SrcFile/EPollPoller.c:137-156 | The channel leaves the map and, if it was there, the kernel's list; nothing else changes and no call is refused |
| `EPollPoller.EPollPoller.EpollCtl` | SrcFile/EPollPoller.c:158-180 | The kernel's rules: which of ADD, MOD and DEL is refused, and what the others do |
| `EPollPoller.EPollPoller.Poll` | SrcFile/EPollPoller.c:39-90 | Active channels are registered ones, none twice, with the reported events; a full event array doubles |
| `EPollPoller.Channel.Change` | SrcFile/Channel.c:31-35 | A mask change keeps the poller's map equal to the kernel's list, and touches this descriptor only |
| `EPollPoller.Channel.Remove` | SrcFile/Channel.c:37-42 | A silent channel can be removed in either index state and is then unknown to poller and kernel |
| `Connection.SendTakesAllOrNothing` | SrcFile/TcpConnection.c:101-152 | A message adds all its bytes to wire and buffer, in order after the earlier ones, or, hit by EPIPE or ECONNRESET or after closing, none |
| `Connection.SendFate` | SrcFile/TcpConnection.c:107-152 | A message is given up iff the connection is closed; dropped iff it is written at once (nothing buffered, nobody watching) and that write says EPIPE or ECONNRESET; kept otherwise, so also whenever it waits behind buffered bytes |
| `Connection.SendWritesAtOnce` | SrcFile/TcpConnection.c:112-151 | Behind buffered bytes nothing is written; otherwise exactly what the kernel takes is written at once, and write interest is on iff a rest is buffered |
| `Connection.SendKeeps` | SrcFile/TcpConnection.c:101-152 | sendInLoop keeps the byte stream and keeps write interest on iff the buffer is not empty |
| `Connection.WriteKeeps` | SrcFile/TcpConnection.c:291-325 | handleWrite keeps both, and never takes back a written byte |
| `Connection.WriteTakes` | SrcFile/TcpConnection.c:291-316 | A writable event moves exactly what the kernel takes from the front of the buffer to the wire; writing is disabled, and a pending FIN sent, iff that empties the buffer |
| `Connection.CloseLeavesEpollIffInterested` | SrcFile/TcpConnection.c:327-337 | Closing takes the channel out of epoll iff its mask was not empty |
| `Connection.CloseAfterStopRead` | SrcFile/TcpConnection.c:237-245 | After stopRead with nothing to write, closing leaves the channel in epoll |
| `Connection.ShutdownForwardIffNotClosed` | SrcFile/TcpConnection.c:154-161 | The line as written moves the state forward iff the connection is not closed |
| `ConnectionRuns.ByteStreamPreserved` | SrcFile/TcpConnection.c:101-152 | Over every run of sends, events and functors, partial writes and errors included, wire followed by outputBuffer_ is the concatenation of the kept messages in order |
| `ConnectionRuns.CallOrderKept` | SrcFile/TcpConnection.c:62-76 | With one calling thread, in the loop or not, messages reach sendInLoop in call order, none lost or doubled |
| `ConnectionProgress.BufferDrains` | SrcFile/TcpConnection.c:291-316 | Over every careful run that ends open and brings no new message, writable events move exactly min(room offered, bytes buffered) bytes to the wire; with room for all the buffer is empty, the wire is every kept message, and the channel no longer watches |
| `ConnectionProgress.NothingIsLost` | SrcFile/TcpConnection.c:62-152 | Over every run, while the connection is up, not half-closed, and no write met EPIPE or ECONNRESET: the bytes one thread passed to send are, in order, the wire, the buffer, and the functors still queued |
| `ConnectionProgress.ReportedIsHandled` | SrcFile/Channel.c:61-94 | When a channel has been handled, close, error, read and write handlers have been called, in this order and at most once, each iff the reported events ask for it |
| `ConnectionProgress.DispatchClosesIff` | SrcFile/TcpConnection.c:270-289 | While a channel is handled, whatever else is called, an open connection is closed iff it hung up without IN or a read found the end of the stream; reported IN with the stream at its end closes it, once |
| `ConnectionProgress.ForceCloseCloses` | SrcFile/TcpConnection.c:172-198 | Whatever happens after forceClose on an open connection, it has been closed, once, when its functor is no longer queued |
| `ConnectionProgress.ClosedIsDestroyed` | SrcFile/TcpConnection.c:258-268 | Once connectDestroyed is queued, and then nothing is queued any more, it has run and the channel is unknown to the poller |
| `ConnectionProgress.SendsStop` | SrcFile/TcpConnection.c:62-76 | After shutdown or forceClose on an open connection, from any thread, send takes no message in any careful continuation |
| `ConnectionProgress.LastReadCallCounts` | SrcFile/TcpConnection.c:217-245 | With one calling thread, in the loop or not, once nothing is queued an open connection can be reported for input iff the last of its startRead and stopRead calls, if any, was startRead |
| `ConnectionLife.LifeCycle` | SrcFile/TcpConnection.c:154-337 | Over every careful run, with reading stopped and started at will: no assertion fails, up once, down and close callback at most once and together, an open connection is in epoll with exactly the events it waits for, a closed one never when the loop polls, connectDestroyed at most once and for good; epoll can report input iff it reads and writability iff bytes are buffered, and a queued connectDestroyed has run when nothing is queued |
| `ConnectionCare.CarefulIff` | SrcFile/TcpConnection.c:217-245 | A step of any healthy state is careful iff no careful continuation breaks an assertion, closes or destroys the connection twice, or brings a destroyed channel back |
| `ConnectionCare.ClosesTwiceIffSilent` | SrcFile/TcpConnection.c:327-337 | With no startRead or stopRead queued, some continuation of a close closes again iff reading was stopped and the buffer empty |
| `ConnectionCare.ShutdownReopensIffClosed` | SrcFile/TcpConnection.c:154-161 | Some continuation of a shutdown call as written closes twice iff the connection was closed |
| `ConnectionCare.SilentCloseHappens` | SrcFile/TcpConnection.c:232-245 | The run: connected, stopRead, forceClose, and the close can be followed by a second |
| `ConnectionCare.LateShutdownHappens` | SrcFile/TcpConnection.c:156-158 | A run that closes a connection on which shutdown can then be called, and closes it again |
| `ConnectionCare.TwoShutdownsHappen` | SrcFile/TcpConnection.c:156-169 | Two shutdown calls in the loop thread with nothing buffered send two FINs |
| `ConnectionLife.CloseShuts` | SrcFile/TcpConnection.c:327-337 | A close of an open connection leaves its channel in epoll iff nobody was reading and nothing was left to write |
| `ConnectionLife.StateMovesForward` | SrcFile/TcpConnection.c:154-198 | The state never goes back over any careful run, shutdown called again while disconnecting included |
| `ConnectionLife.OneCloserPerDispatch` | SrcFile/Channel.c:61-94 | One handleEvent calls at most one handler that can close the connection |
| `HalfClose.NothingAfterFin` | SrcFile/TcpConnection.c:163-170 | In every run no byte is written after shutdownWrite |
| `HalfClose.LoopThreadHalfClose` | SrcFile/TcpConnection.c:154-170 | All sends and then shutdown in the loop thread: a FIN is sent as soon as and only when every undropped byte is on the wire, no message is lost to it, and it is sent once iff shutdown is not called again on the drained connection, and once more per such call |
| `RemoteHalfClose.RemoteHalfCloseIff` | SrcFile/TcpConnection.c:301-314 | shutdown from another thread: some continuation half-closes twice iff the buffer may drain before the queued half-close, and some loses messages iff besides one is queued |
| `RemoteHalfClose.SafeWhenNotDrained` | SrcFile/TcpConnection.c:154-170 | Otherwise, in every continuation at most one FIN and no message lost, through functor queue and deferred shutdown |
| `RemoteHalfClose.OvertakingHappens` | SrcFile/TcpConnection.c:62-76 | One other thread sends twice while the first message is buffered: shutdown now can half-close twice and lose the second |
| `TcpConnection.TcpConnection.Send` | SrcFile/TcpConnection.c:62-94 | Written or buffered at once in the loop thread, queued as a functor elsewhere, ignored when not connected |
| `TcpConnection.TcpConnection.SendInLoop` | SrcFile/TcpConnection.c:101-152 | Makes the machine's send step and keeps the poller equal to the kernel |
| `TcpConnection.TcpConnection.HandleWrite` | SrcFile/TcpConnection.c:291-325 | Makes the machine's write step: retrieve, disable writing when empty, deferred half-close |
| `TcpConnection.TcpConnection.HandleClose` | SrcFile/TcpConnection.c:327-337 | Makes the machine's close step: state, mask and both callbacks |
| `TcpConnection.TcpConnection.HandleRead` | SrcFile/TcpConnection.c:270-289 | Closes on end of stream only |
| `TcpConnection.TcpConnection.Shutdown` | SrcFile/TcpConnection.c:154-161 | The line as written: the state changes whatever it was, the half-close is done or queued |
| `TcpConnection.TcpConnection.ShutdownInLoop` | SrcFile/TcpConnection.c:163-170 | Half-closes iff the channel is not watching for writability |
| `TcpConnection.TcpConnection.ForceClose` | SrcFile/TcpConnection.c:172-179 | Queued iff the connection is open, and then disconnecting |
| `TcpConnection.TcpConnection.ForceCloseInLoop` | SrcFile/TcpConnection.c:191-198 | Closes iff still open |
| `TcpConnection.TcpConnection.StartReadInLoop` | SrcFile/TcpConnection.c:222-230 | Reading on, unless flag and mask say so already |
| `TcpConnection.TcpConnection.StopReadInLoop` | SrcFile/TcpConnection.c:237-245 | Reading off, unless flag and mask say so already |
| `TcpConnection.TcpConnection.ConnectEstablished` | SrcFile/TcpConnection.c:247-255 | Connected, registered for reading, reported up; the kernel watches for IN |
| `TcpConnection.TcpConnection.WatchedIff` | SrcFile/Channel.c:7-9 | In the life cycle of an open connection the kernel's mask has IN iff it reads and OUT iff bytes are buffered |
| `TcpConnection.TcpConnection.ConnectDestroyed` | SrcFile/TcpConnection.c:258-268 | The channel may be removed, and is unknown to poller and kernel afterwards |
| `Connecting.BackoffDoubles` | SrcFile/Connector.c:197-197 | Doubling with a cap is min(500 * 2^k, 30000) |
| `Connecting.BackoffTable` | SrcFile/Connector.h:34-35 | The delays are 500, 1000, 2000, 4000, 8000, 16000 and from then on 30000 ms |
| `Connecting.RetryBacksOff` | SrcFile/Connector.c:186-204 | The k-th retry since construction or restart waits exactly min(500 * 2^k, 30000) ms |
| `Connecting.ConnectConserves` | SrcFile/Connector.c:60-101 | Whatever errno connect(2) gives, the new socket is in the channel or closed once |
| `Connecting.ConnectByErrno` | SrcFile/Connector.c:60-101 | The channel watches the new socket iff connect said 0, EINPROGRESS, EINTR or EISCONN, and the socket is closed otherwise; a retry after the current delay is set iff it said EAGAIN, EADDRINUSE, EADDRNOTAVAIL, ECONNREFUSED or ENETUNREACH and the connection is wanted |
| `Connecting.WriteConserves` | SrcFile/Connector.c:137-172 | However the attempt ends, its socket leaves the channel and is handed over or closed, exactly one of them |
| `Connecting.WriteByOutcome` | SrcFile/Connector.c:137-172 | A writable socket is handed over iff it is established and wanted, closed otherwise, and tried again iff it failed and is wanted |
| `Connecting.ErrorAndStopGiveUp` | SrcFile/Connector.c:49-58 | Under way, an attempt that meets handleError or stopInLoop is closed, its channel removed, and made again iff wanted; otherwise neither does anything |
| `Connecting.StartsAttempt` | SrcFile/Connector.c:28-41 | startInLoop makes a socket iff one is wanted; restart always does, and its first retry waits 500 ms |
| `ConnectorRuns.ConnectorSafeIff` | SrcFile/Connector.c:112-135 | No assertion fails in any run (slot free in connecting, state in startInLoop and handleWrite, channel destroyed only when removed) iff iterations are shorter than the first delay, or half of it when the client may restart while a stopInLoop is queued |
| `ConnectorRuns.ConnectorSafety` | SrcFile/Connector.c:28-58 | In every run: at most one retry outstanding and only when disconnected, kConnecting iff a channel is registered, every delay the back-off's |
| `ConnectorRuns.SocketsConserved` | SrcFile/Connector.c:60-98 | In every run every socket ever made is in the channel, handed over once or closed once, exactly one of them |
| `ConnectorRuns.StopIsFinal` | SrcFile/Connector.c:43-58 | After stop() and until the client starts again no socket is made or handed over, and once stopInLoop has run all sockets not handed over are closed |
| `ConnectorProgress.WantedIsPursued` | SrcFile/Connector.c:22-110 | Over every run with short iterations at most one thing goes on for a connector: a queued start, a retry timer, an attempt, or an open connection; and while connect has not failed for good and the client restarts, a wanted connector has exactly one |
| `ConnectorProgress.CloseIsNoticed` | SrcFile/TcpClient.c:129-147 | A closed connection is forgotten by the client; if it restarts, a new attempt is made at once with the first delay |
| `ConnectorProgress.QueuedCloseIsServed` | SrcFile/TcpConnection.c:172-198 | A forced close of the delivered connection has taken place when its functor is no longer queued, whatever happens meanwhile |
| `ConnectorRuns.StepKeepsInv` | SrcFile/TcpClient.c:99-147 | Every event mix, functor, timer, stop and restart through the client keeps the connector's invariant |
| `Connector.Connector.Connect` | SrcFile/Connector.c:60-101 | The switch on errno: registered, closed with a retry, or closed |
| `Connector.Connector.Register` | SrcFile/Connector.c:112-121 | The slot is free, and the kernel watches the socket for writability afterwards |
| `Connector.Connector.StartInLoop` | SrcFile/Connector.c:28-41 | Connects iff still wanted |
| `Connector.Connector.Start` | SrcFile/Connector.c:22-26 | At once in the loop thread, queued elsewhere |
| `Connector.Connector.Stop` | SrcFile/Connector.c:43-47 | The flag falls at once, stopInLoop is queued from every thread |
| `Connector.Connector.StopInLoop` | SrcFile/Connector.c:49-58 | An attempt under way is given up: channel removed, socket closed |
| `Connector.Connector.Restart` | SrcFile/Connector.c:103-110 | The back-off starts over and a new attempt is made |
| `Connector.Connector.RemoveAndResetChannel` | SrcFile/Connector.c:123-130 | The descriptor leaves the kernel's list, the object stays until the queued resetChannel |
| `Connector.Connector.ResetChannel` | SrcFile/Connector.c:132-135 | The slot is free again |
| `Connector.Connector.HandleWrite` | SrcFile/Connector.c:137-172 | Error and self-connect retry; otherwise handed over iff still wanted, else closed |
| `Connector.Connector.HandleError` | SrcFile/Connector.c:174-184 | Gives up the attempt iff one is under way |
| `Connector.Connector.Retry` | SrcFile/Connector.c:186-204 | Closed, disconnected, and set to start again iff still wanted |
| `Connector.Connector.ConnectingIsWatched` | SrcFile/Connector.c:112-121 | In state kConnecting the kernel's list has the socket with exactly the write mask |
| `Ownership.AliveUntilDestroyed` | SrcFile/TcpServer.c:50-90 | Over every careful run with any number of loops: every erase removes exactly one entry, every functor runs in the right loop and state, a strong holder exists from newConnection until connectDestroyed has run, and no handler's connection is destroyed under it |
| `OwnershipCare.CarefulIff` | SrcFile/TcpServer.c:80-90 | A step of any healthy server is careful iff no careful continuation breaks an assertion: a close of a connection that is not open, an erase that finds no entry, a connectDestroyed that comes twice |
| `OwnershipCare.LateShutdownFails` | SrcFile/TcpServer.c:73-90 | A run that accepts and closes a connection on which shutdown can then be called, and leads to such a failure |
| `Ownership.QuietTable` | SrcFile/TcpServer.c:80-90 | In a careful run, when nothing is queued the table is exactly the connections that are up, and all others are destroyed: none leaks |
| `Ownership.CalledOnceInOrder` | SrcFile/TcpConnection.c:247-268 | Over every careful run connectEstablished, handleClose and connectDestroyed are called at most once each on a connection, none before the one that precedes it, and once each on one that is gone |
| `Ownership.StepKeepsInv` | SrcFile/Channel.c:44-60 | Every careful step of every loop keeps the holder passing from table to queued functor, with the guard in handleEvent |
| `ConnectionNames.NamesDistinctIff` | SrcFile/TcpServer.c:54-57 | All names up to an id differ iff the last one fits in the buffer |
| `ConnectionNames.IdsFitIff` | SrcFile/TcpServer.c:54-57 | In figures: no 31-bit id is cut iff the address has at most 51 characters |
| `TcpServer.TcpServer.NewConnection` | SrcFile/TcpServer.c:50-70 | The entry under the new name, for the next loop; connectEstablished at once or queued there; when the name fits it is unused, and this is the accept step of the ownership machine |
| `TcpServer.TcpServer.RemoveConnection` | SrcFile/TcpServer.c:73-77 | Inline in the base loop, where it is the removal step while names fit; queued there from others |
| `TcpServer.TcpServer.RemoveConnectionInLoop` | SrcFile/TcpServer.c:80-90 | The entry with the name is erased; while names fit it is this connection's and no other's, the result is 1 iff it was there, and this is the removal step of the ownership machine |
| `EventLoopThreadPool.EventLoopThreadPool.GetNextLoop` | SrcFile/EventLoopThreadPool.c:44-61 | Call number i returns loop i mod n, or the base loop when there are no threads |
| `EventLoopThreadPool.EventLoopThreadPool.Start` | SrcFile/EventLoopThreadPool.c:22-42 | One loop per thread, in order |
| `EventLoopThreadPool.RoundRobinIsBalanced` | SrcFile/EventLoopThreadPool.c:44-61 | After m calls each of n loops was returned m / n times, the first m mod n of them once more |
| `EventLoopThreadPool.LoopsStayEven` | SrcFile/TcpServer.c:50-53 | Two loops never differ by more than one connection, and after n none is unused |
| `LoopDispatch.RemovalIsSafe` | SrcFile/EventLoop.c:132-151 | Over every careful run, whatever other calls handlers, functors and other threads make on any object: the assertions in removeChannel hold, handleClose finds its connection open, only channels the poller knows are removed and only removed ones destroyed, the object being handled exists, and every object still to be handled is in use |
| `LoopDispatch.EachIsHandledOnce` | SrcFile/EventLoop.c:142-150 | Between one poll and doPendingFunctors, handleEvent is called on each reported channel once, in the reported order, whatever handlers do |
| `LoopDispatch.ReactionTakesEffect` | SrcFile/TcpConnection.c:301-337 | A drained connection stops watching; a hang-up closes it and has connectDestroyed queued or on its way; the end of dialing removes the channel and has resetChannel queued; nothing else changes |
| `LoopDispatch.NothingIsLeftOver` | SrcFile/Connector.c:123-135 | Over every careful run, when nothing is queued or on its way every object is in use or gone |
| `LoopCare.CarefulIff` | SrcFile/EventLoop.c:216-225 | A step of any healthy loop is careful iff no careful continuation breaks an assertion of removeChannel or handleClose, or finds an object again that is gone |
| `LoopCare.ReportedIffListed` | SrcFile/EPollPoller.c:39-90 | epoll can report a closed connection iff one is in its list |
| `LoopCare.LateShutdownRemovesTwice` | SrcFile/TcpConnection.c:154-179 | The run: forceClose, then shutdown before connectDestroyed has run, can remove the channel twice |
| `LoopCare.SilentCloseIsReported` | SrcFile/TcpConnection.c:232-245 | The run: stopRead, then forceClose, and epoll may report the closed connection |
| `LoopDispatch.StopMustBeQueued` | SrcFile/Connector.c:43-47 | Run at once in another channel's handler, stopInLoop would break the assertion in removeChannel iff the connector's channel is in the active list: why stop() is queued |
| `LoopDispatch.OnlyCallsChangeOthers` | SrcFile/EventLoop.c:216-225 | In a careful run, while one active list is handled, an object whose turn did not come is changed by nothing but the calls made on it, in order: send, startRead and stopRead in the loop thread change its mask, shutdown and forceClose in any thread its state |
| `LoopDispatch.StillListensIff` | SrcFile/TcpConnection.c:217-245 | So an open connection still to be handled has a non-empty mask iff it reads after those calls or has something to write |

## Left out

* The library's raw system calls, Acceptor, InetAddress and address formatting: answers of the kernel are parameters.
* Buffer's representation: a buffer is a byte sequence (its implementation is not part of this model).
* Mutex, Condition, CountDownLatch, Thread and EventLoopThread: a lock section is one step.
* Destructors of TcpServer, TcpClient, EventLoop and TimerQueue, and connectDestroyed on a connection that is still
  disconnecting: the source does not settle these races.
* Functors that hold a raw `this` of a connection that is gone.
* The high-water-mark and write-complete callbacks, logging, thread names and `reventsToString`.
* quit() before loop(), which clears the flag first: the protocol starts after that.
* forceCloseWithDelay: a timer that calls forceClose through a weak pointer.
* Double-precision intervals, and the difference between the realtime and the monotonic clock.
* The `while` of loop() has no method of its own, for it need not end: iterations are runs of `EventLoopProtocol` and of `LoopDispatch`.
* The dispatch in Channel::handleEventWithGuard is modelled on values (`ConnectionRuns.Handlers`): the order of the handlers, not the callback fields.
* TcpClient has no class: its newConnection and removeConnection are steps of `ConnectorRuns`.
* getLoopForHash and getAllLoops: they only read.
- ConnectionLife.LifeCycle: is about careful runs; without care it is false, and `CarefulIff` says exactly at which step.
- RemoteHalfClose.RemoteHalfCloseIff: continuations call shutdown only while connected, as documented, and are careful.
- LoopDispatch.RemovalIsSafe: is about careful runs, see `LoopCare.CarefulIff`; it leaves out the assertion that a removed
  channel is silent, which is in `LifeCycle`.
- Ownership.AliveUntilDestroyed: is about careful runs, see `OwnershipCare.CarefulIff`, and counts the references the
  library itself keeps; users may keep more.
- Ownership.CalledOnceInOrder: is about careful runs; a connection can be closed twice otherwise.
- TcpServer.TcpServer.NewConnection: when the name is cut, only the effect on the map is stated; `NamesDistinctIff` says
  that another connection may then lose its entry.
