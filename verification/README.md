# SecondGear, modelled and verified in Dafny

SecondGear is a C++ reactor: one loop per thread that polls descriptors, dispatches
events, and runs functors queued by any thread, with timers and TCP connections on top.
This project models its state-keeping parts and proves what they keep over whole runs.
`dafny verify dfyconfig.toml` checks everything.

| file | models |
|---|---|
| `Buffer.dfy` | `Buffer.h`, `Buffer.cpp`: array with two indices, refined to a byte queue; memory bound over runs |
| `Poller.dfy` | `Poller.cpp`, `Channel.h`: dense array, map and channel indices, refined to a plain map; contract of poll() |
| `EventLoop.dfy` | `EventLoop.cpp`: threads interleaving on the functor queue, the quit flag and the eventfd; the code of one thread as a class |
| `Handshake.dfy` | `thread/CountDownLatch.cpp`, `thread/Thread.cpp`, `EventLoopThread.cpp`: monitor steps with spurious wakeups |
| `LoopThread.dfy` | `EventLoopThread.cpp` with its destructor: the handshake, the child's loop and the request to quit, composed |
| `TimerQueue.dfy` | `TimerQueue.cpp`, `time/Timer.cpp`: the ordered set over mutable timers, the one-shot timerfd |
| `TimerLaws.dfy` | what addTimer and handleRead do, timer by timer, without reference to how |
| `Connection.dfy` | `TcpConnection.cpp` on values: one connection, its channel, its two streams |
| `ConnectionLaws.dfy` | what the calls on one connection and their results determine, over every run |
| `SharedShutdown.dfy` | `TcpConnection::shutdown` from any thread, step by step |
| `Reactor.dfy` | all of it together in the loop thread: poll, dispatch, queued teardown, user callbacks |
| `ReactorTrace.dfy` | the reactor projected on one connection, its input, its functors, its events, in terms of its steps |
| `TcpServer.dfy` | `TcpConnection` and `TcpServer` as mutable objects, proved to do what the value functions do |
| `Outcome.dfy` | results of steps that may stop at a failed assert |

## How to read the model

* Code that changes fields is a class here; each method is proved against a function on
  values (`Content`, `Updated`, `QueueCall`, `AddTimer`, `Connections.Send`, ...), and the
  theorems over runs are about those functions.
* What these functions do is said once more without them, as laws over runs: what the peer
  and the user get, when the write end closes, which timer is due when, which functors have
  run are determined by the calls, their results and nothing else (`ConnectionLaws`,
  `TimerLaws`, `ReactorTraces`).
* A failed `assert` of the source is the result `AssertFailed`; `NotEnabled` is a move the
  environment cannot make (a write that takes more bytes than it was given, `accept`
  returning an open descriptor). A run is a chain of successful steps.
* Results of poll, readv, write, accept and the clock, choices of user callbacks, and the
  scheduling of threads are arguments of the steps; every statement quantifies over them.
* poll() follows IEEE Std 1003.1-2017, System Interfaces, poll(): negative descriptors are
  ignored with no revents, and the return value counts entries with nonzero revents.
* Event masks are sets of flags; times are microseconds; a timer's interval is the
  microsecond count `addTime` adds; a pointer is its address, which orders set entries.

## Where the code departs from its apparent intent

The model follows the code. Each departure is a lemma or a hypothesis:

* `updateChannel` mutes a slot and never unmutes it, and a channel first registered with an
  empty mask keeps its positive descriptor (`MutedExactly`, `MuteIsSticky`).
* `enableWriting` overwrites the mask (`Channel.EnableWriting`), so `disableWriting` leaves
  an empty mask and mutes the slot.  A connection therefore stops asking for input with the
  first send that is not written at once (`ReadsExactly`, `InputIsAskedForExactly`), and the
  reactor never reads, closes or forgets it again (`NeverReadAgain`).
* `removeChannel` leaves the channel's index; the reactor never updates such a channel
  again (`NoAssertFails`).
* The sentry of `getExpired` has a null pointer: the cut is strictly before `now`, and the
  assert behind it fails exactly for a timer due at `now` (`CutAssertExactly`, `DueNowAborts`).
* `reset` re-arms only for a valid, that is positive, expiration (`HandleReadArmsExactly`,
  `AlarmIsAlwaysSetExactly`).
* `loop()` clears `quit_` on entry (`QuitIsHonouredExactly`, `QuitBeforeLoopIsLost`); the
  destructor of `EventLoopThread` can come before it (`DestructorQuitIsSeenExactly`,
  `EarlyDestructorIsStuck`).  A functor queued by the
  loop thread before it gets no wakeup (`NoLostWakeupExactly`, `PushBeforeLoopIsUnannounced`).
* `shrink` does not move the indices (`ShrinkExact`, `ShrinkLosesBytes`).
* `handleClose` leaves `state_`, so a later `shutdown` can half-close over buffered bytes
  (`HalfCloseStrandsExactly`, `CloseStrandsMessage`).
* The header calls `shutdown` thread safe, but no lock guards its test and store of `state_`:
  calls that overlap half-close without bound (`OverlapHalfClosesOften`).  Even alone, a
  foreign call changes the state before its functor runs, so a drain in between and the
  functor both half-close (`ForeignShutdownExactly`, `DrainHalfClosesTwice`); that takes a
  write callback, which the repository does not set.  The streams stay safe in every case
  (`AnyOverlapIsSafe`).
* `TcpConnection` registers only the read callback; a step of the reactor may or may not
  have `handleWrite` registered, and the theorems hold either way.

## Model

| member | source | states |
|---|---|---|
| `ByteBuffer.Buffer.constructor` | Buffer.h:28-36 | a new buffer is empty, with 8 prependable and 1024 writable bytes |
| `ByteBuffer.Buffer.Swap` | Buffer.h:40-45 | the two buffers exchange content and memory, nothing else |
| `ByteBuffer.Buffer.Retrieve` | Buffer.h:62-66 | drops exactly the first `len` bytes of the content, within the assert |
| `ByteBuffer.Buffer.RetrieveUntil` | Buffer.h:68-73 | drops exactly the bytes before the pointer |
| `ByteBuffer.Buffer.RetrieveAll` | Buffer.h:75-79 | empties the queue and restores the prepend area, whatever the indices were |
| `ByteBuffer.Buffer.RetrieveAsString` | Buffer.h:81-86 | returns the whole content in order and leaves the queue empty |
| `ByteBuffer.Buffer.Append` | Buffer.h:93-98 | content grows by exactly the given bytes at its end, over the in-place, sliding and growing branches |
| `ByteBuffer.Buffer.EnsureWritableBytes` | Buffer.h:105-112 | enough room afterwards, content unchanged; the assert of line 111 is the `WritableBytes() >= len` clause |
| `ByteBuffer.Buffer.HasWritten` | Buffer.h:120-121 | only the writer index advances |
| `ByteBuffer.Buffer.Prepend` | Buffer.h:123-129 | the bytes appear in front of the content, which is untouched |
| `ByteBuffer.Buffer.Shrink` | Buffer.h:131-136 | the new storage holds the content at offset 8, while both indices stay where they were |
| `ByteBuffer.ShrinkExact` | Buffer.h:131-136 | the buffer is still the same queue after shrink, whatever bytes it holds, if and only if its reader index is 8, or it is empty and the index fits the new storage |
| `ByteBuffer.ShrinkLosesBytes` | Buffer.h:131-136 | a run of append and retrieve leads outside that condition, for every reserve: shrink then loses a byte |
| `ByteBuffer.Buffer.MakeSpace` | Buffer.h:152-170 | content survives both branches; the asserts of lines 161 and 168 are proved on the way |
| `ByteBuffer.Buffer.SlideToFront` | Buffer.h:162-165 | the overlapping copy, byte by byte, moves the content intact |
| `ByteBuffer.Buffer.ReadFd` | Buffer.cpp:9-28 | content grows by exactly the delivered bytes in order, whether they fit or spill into the stack buffer; an error changes nothing |
| `ByteBuffer.StepBound` | Buffer.h:93-112 | an operation either keeps the storage size or ends with at most 2 * readable + 7 |
| `ByteBuffer.SlidesExactly` | Buffer.h:154-168 | space is made by sliding, in storage of the same size, if and only if prepend area, content and `len` more bytes fit there; otherwise the storage grows to the writer index plus `len` and nothing moves |
| `ByteBuffer.EnsuresOnlyIfNeeded` | Buffer.h:105-112 | space is made if and only if it is missing |
| `ByteBuffer.MemoryBound` | Buffer.h:152-157 | over every run of append, prepend, retrieve, retrieveAll and readFd the storage never exceeds max(1032, 2 * peak content + 7) |
| `ByteBuffer.MemoryBoundIsTight` | Buffer.h:152-157 | a run that reaches the bound exactly, so the bound cannot be improved |
| `Polling.Mute` | Poller.cpp:86 | the encoding -fd-1 is negative and names the same descriptor |
| `Polling.Channel.EnableReading` | Channel.h:45 | overwrites the mask, and updates array, map and index; all agree afterwards if and only if a new channel has a descriptor nobody else is registered under |
| `Polling.Channel.EnableWriting` | Channel.h:46 | overwrites the mask, so reading is no longer asked for, and updates array, map and index; all agree afterwards if and only if a new channel has a descriptor nobody else is registered under |
| `Polling.Channel.DisableWriting` | Channel.h:47 | removes the write flag only, and updates array, map and index; all agree afterwards if and only if a new channel has a descriptor nobody else is registered under |
| `Polling.Channel.DisableAll` | Channel.h:48 | empties the mask; a channel already registered is muted in its slot, and updates array, map and index; all agree afterwards if and only if a new channel has a descriptor nobody else is registered under |
| `Polling.Poller.UpdateChannel` | Poller.cpp:50-90 | the array becomes `Updated` of the old one and the asserts of lines 70-77 hold; array, map and channel indices stay in agreement if and only if a new channel has a descriptor nobody else is registered under |
| `Polling.Poller.RemoveChannel` | Poller.cpp:92-116 | swap with the last slot keeps array, map and indices in agreement; the requires clauses are its asserts; the removed channel keeps its stale index |
| `Polling.Poller.FillHole` | Poller.cpp:105-115 | the last slot is dropped or moves into the hole with its channel index; all agree again and the array is `Removed` of the old one |
| `Polling.Poller.Poll` | Poller.cpp:12-26 | on success the active list is the channels of the reporting slots, with their revents; on error it is empty |
| `Polling.Poller.GetActiveChannels` | Poller.cpp:28-48 | the scan that stops early still returns the channel of every reporting slot, in slot order, with its revents; the lookup never fails |
| `Polling.Poller.IndexIsPosition` | Poller.cpp:63-65 | agreement makes descriptors distinct, the keys of the map exactly the registered ones, and an index the position of the descriptor |
| `Polling.UpdatedRefinesMap` | Poller.cpp:50-90 | registering or updating is one map update of the abstract registry; no other watch changes |
| `Polling.RemovedRefinesMap` | Poller.cpp:103-115 | swap-with-last removal is plain map removal: no other watch or mute changes, none appears |
| `Polling.StepRefines` | Poller.cpp:50-116 | each legal operation on the array is the naive operation on a map |
| `Polling.RunRefinesMap` | Poller.cpp:50-116 | over any legal run the array holds exactly what the naive map would hold |
| `Polling.MuteIsSticky` | Poller.cpp:77-87 | a muted descriptor stays muted over any run without its removal, whatever masks it is given |
| `Polling.MutedExactly` | Poller.cpp:55-116 | in every run from an empty array a descriptor is muted if and only if an update has emptied its mask and it has not been removed since; so a registration with an empty mask does not mute |
| `Polling.StepMutes` | Poller.cpp:82-87 | one operation mutes exactly by an empty update and unmutes exactly by removal |
| `Polling.ReadyIsExact` | Poller.cpp:32-45 | the reported slots are strictly increasing and are exactly those with nonempty revents |
| `Polling.MutedIsNeverReady` | Poller.cpp:82-87 | under the contract of poll() a muted slot is never reported |
| `EventLoops.FunctorsRunOnceInOrder` | EventLoop.cpp:149-203 | in every reachable state: queued = executed, then the rest of the batch, then pending; so first in first out and never twice |
| `EventLoops.ExecutedArePushed` | EventLoop.cpp:149-203 | in every reachable state the queue history is the functors of the push steps, of all threads, and what has been executed is the first of them, as many as there were functor calls |
| `EventLoops.StepKeepsInv` | EventLoop.cpp:149-203 | each step of any thread keeps that equation and the meaning of callingPendingFunctors_ |
| `EventLoops.BatchIsFixedAtSwap` | EventLoop.cpp:192-200 | whatever is pushed while a batch runs, its functor calls are exactly the functors pending at the swap, in order |
| `EventLoops.BatchExecutesWhatWasQueued` | EventLoop.cpp:187-203 | when the batch ends everything queued before the swap has been executed and nothing else; the batch has that many calls |
| `EventLoops.StepKeepsAnnounced` | EventLoop.cpp:156-162 | each step keeps: from the batch to poll a nonempty queue is announced on the eventfd or by a thread about to write to it |
| `EventLoops.NoLostWakeupExactly` | EventLoop.cpp:65-84 | if and only if loop() is entered with an empty or announced queue, no interleaving of the session sleeps in poll on queued functors or on quit |
| `EventLoops.PushBeforeLoopIsUnannounced` | EventLoop.cpp:159 | the failing case is reachable: a functor queued by the loop thread before loop() gets no wakeup |
| `EventLoops.QuitEndsTheLoop` | EventLoop.cpp:72-105 | as long as loop() is not entered again, a quit flag stays set and at most one more poll returns, only if the loop was already in poll |
| `EventLoops.QuitIsHonouredExactly` | EventLoop.cpp:65-105 | over every run the quit flag is set if and only if some thread has asked to quit and loop() has not been entered since |
| `EventLoops.QuitBeforeLoopIsLost` | EventLoop.cpp:70 | the losing case is reachable: a foreign quit before loop() is cleared and the loop goes to sleep |
| `EventLoops.EventLoop.Wakeup` | EventLoop.cpp:166-174 | the counter grows by one, saturating, and nothing else changes: the Wake step |
| `EventLoops.EventLoop.HandleRead` | EventLoop.cpp:176-185 | the counter becomes zero and nothing else changes: the HandleWakeup step |
| `EventLoops.EventLoop.Quit` | EventLoop.cpp:97-105 | sets the flag and, from a foreign thread, wakes the loop |
| `EventLoops.EventLoop.QueueInLoop` | EventLoop.cpp:149-163 | appends the functor and wakes the loop exactly when called from a foreign thread or inside a batch |
| `EventLoops.EventLoop.DoPendingFunctors` | EventLoop.cpp:187-203 | runs what was pending at the start, in order, and leaves exactly what the functors queued, announced to the next poll |
| `Latches.LatchIsSafe` | thread/CountDownLatch.cpp:10-27 | under any scheduling and spurious wakeups a waiter has passed only after `count` countDown calls, and once they are made and the mutex is free nobody sleeps |
| `Latches.StepKeepsInv` | thread/CountDownLatch.cpp:10-27 | each monitor step keeps mutual exclusion, "nobody passes while counting" and "a sleeper has a notify to come" |
| `Latches.NotifyStaysToCome` | thread/CountDownLatch.cpp:19-27 | a notifyAll that is owed stays owed until it is made |
| `Startup.StartupIsSafe` | thread/Thread.cpp:89-114 | after a successful creation start() returns only with tid set and its assert holds; startLoop returns only a non-null loop, and never after a failed creation |
| `Startup.CreatorIsNotStranded` | EventLoopThread.cpp:22-49 | once the child has counted down or published its loop, the creator is not asleep on the latch or on the condition |
| `LoopThreads.DestructorQuitIsSeenExactly` | EventLoopThread.cpp:15-49 | with nobody else asking to quit, the destructor request stands inside loop() if and only if the child had entered loop() when it was made |
| `LoopThreads.SeenQuitWakesTheLoop` | EventLoopThread.cpp:15-20 | a request made after entry never finds the loop asleep in poll without a wakeup to come |
| `LoopThreads.EarlyDestructorIsStuck` | EventLoopThread.cpp:15-49 | a run from the start of the thread in which a destructor right after startLoop waits for a loop that sleeps for ever |
| `LoopThreads.RunKeepsInv` | EventLoopThread.cpp:15-49 | handshake, functor history and announcement hold together in every reachable state of the composed thread |
| `Timers.DelayIsNeverZero` | TimerQueue.cpp:26-68 | the relative delay is a legal timespec of exactly the time that is left, or of 100 microseconds if less is left; arming never disarms, and goes off at the later of the expiration and 100 microseconds from now |
| `Timers.InsertKeepsKeyed` | TimerQueue.cpp:198-214 | inserting a timer that is not in the set passes the uniqueness assert, keeps keys equal to expirations, and reports the new minimum |
| `Timers.AddTimerKeepsBatch` | TimerQueue.cpp:106-119 | a timer added between getExpired and reset, or outside, disturbs no other timer and no pending batch |
| `Timers.DueEntriesAreExact` | TimerQueue.cpp:140-164 | the prefix cut separates exactly the entries before `now` from the others |
| `Timers.CutAssertExactly` | TimerQueue.cpp:144-146 | the assert after lower_bound fails if and only if some timer is due exactly at `now` |
| `Timers.DueNowAborts` | TimerQueue.cpp:144-146 | that case is reachable for every timer: a clock that shows exactly its due time |
| `Timers.FiringKeepsBatch` | TimerQueue.cpp:131-135 | running one due timer keeps "on time" and "an interval apart" over the whole history |
| `Timers.ReinsertKeepsBatch` | TimerQueue.cpp:172-184 | restart and insert of a repeating timer pass the assert and restore its standing; a one-shot timer is dropped |
| `Timers.CallbacksKeepBatch` | TimerQueue.cpp:131-135 | the same for all callbacks of a batch, each adding any timers it likes |
| `Timers.CallbacksRunInOrder` | TimerQueue.cpp:131-135 | the callbacks of a batch run once each in the order of the set, whatever they add |
| `Timers.HandleReadIsSafe` | TimerQueue.cpp:122-138 | handleRead aborts if and only if a timer is due exactly at `now`; otherwise it runs each timer due earlier once, in due order, no other, and the invariant holds again |
| `Timers.TimersRunSafely` | TimerQueue.cpp:122-195 | over any run: no callback before its due time, one-shot timers at most once and otherwise pending, firings of a repeating timer more than its interval apart, and the due-now assert is the only one that can fail |
| `Timers.AddTimerArms` | TimerQueue.cpp:106-119 | adding a timer keeps the timerfd set to go off for the minimum, or readable |
| `Timers.HandleReadArms` | TimerQueue.cpp:186-195 | after handleRead the timerfd is armed for the minimum, even if callbacks added timers with expirations that are not positive |
| `Timers.AlarmIsAlwaysSet` | TimerQueue.cpp:186-195 | over any run with a positive clock: whenever no method runs and a timer is pending, the timerfd goes off at the earliest expiration, or 100 microseconds after it was set if that is later, or is already readable |
| `Timers.HandleReadArmsExactly` | TimerQueue.cpp:186-195 | handleRead at `now` leaves every sound queue armed, whatever its callbacks add, if and only if `now` is positive |
| `Timers.AlarmIsAlwaysSetExactly` | TimerQueue.cpp:186-195 | all runs whose clock never shows less than `earliest` always have the alarm set, if and only if `earliest` is positive |
| `Timers.AlarmNeedsValidTimestamps` | TimerQueue.cpp:191-194 | for every `now` that is not positive, the run add, alarm, read at `now` ends with a pending timer and a disarmed timerfd |
| `Timers.Timer.Restart` | time/Timer.cpp:12-22 | the expiration becomes now plus the interval, or 0 for a one-shot timer, and nothing else changes |
| `Timers.TimerQueue.InsertTimer` | TimerQueue.cpp:198-214 | the object does what `Insert` does to a value, and reports whether the earliest changed |
| `Timers.TimerQueue.AddTimerInLoop` | TimerQueue.cpp:90-119 | the object does what `AddTimer` does to a value; existing timers are untouched |
| `Timers.TimerQueue.GetExpired` | TimerQueue.cpp:140-164 | returns and removes exactly the due prefix |
| `Timers.TimerQueue.Reset` | TimerQueue.cpp:167-195 | restarts, re-inserts and re-arms as the value model does |
| `Timers.HandleReadParts` | TimerQueue.cpp:122-138 | a successful handleRead is cut, callbacks, reinsertion and re-arming, each successful, with the due timers logged once in order |
| `TimerLaws.AddTimerAddsIt` | TimerQueue.cpp:106-119 | exactly this timer is new, with the value asked for, pending at its expiration; the alarm is set anew if and only if it is due before all others |
| `TimerLaws.AddTimersAddThem` | TimerQueue.cpp:106-119 | the same for several additions, as a callback makes them |
| `TimerLaws.ReinsertPutsBack` | TimerQueue.cpp:172-184 | of the expired timers exactly those that repeat are due one interval after `now`; every other value and entry stays |
| `TimerLaws.HandleReadServes` | TimerQueue.cpp:122-195 | pool and set after a successful handleRead, timer by timer: due repeating timers are due one interval after `now`, due one-shot timers are pending no more, all others are untouched, callbacks have added exactly what they asked for; the alarm has been read and is set for the earliest valid expiration |
| `TimerLaws.CutIsByTimer` | TimerQueue.cpp:140-164 | the timers served are exactly those with an entry before `now` |
| `Timers.TimerQueue.HandleReadable` | TimerQueue.cpp:122-138 | does to the mutable timers and set exactly what the value model does, and logs each due timer once in order |
| `Connections.SendKeepsStream` | TcpConnection.cpp:137-195 | send keeps written + buffered = accepted, and writing is on while bytes are buffered |
| `Connections.HandleWriteKeepsStream` | TcpConnection.cpp:93-114 | handleWrite keeps the same, for any partial or failed write |
| `Connections.StreamsAreConserved` | TcpConnection.cpp:65-204 | over any interleaving: written + buffered = accepted, and consumed + buffered = read; shutdownWrite at most once, nothing written after it, and until handleClose it never overtakes buffered bytes; `ConnectionLaws.StreamsFollowCalls` says what accepted and read are |
| `Connections.HalfCloseStrandsExactly` | TcpConnection.cpp:116-204 | a half-close overtakes buffered bytes in exactly those runs that call shutdown on a connected connection that handleClose found with bytes buffered and that was handed none since |
| `Connections.StrandedExactly` | TcpConnection.cpp:116-195 | before any shutdown, bytes are buffered with writing off if and only if handleClose found bytes buffered and none were handed over since |
| `Connections.ReadsExactly` | TcpConnection.cpp:188-194 | until a close, an established connection asks for input if and only if every direct write so far took its whole message |
| `Connections.UserCallsIgnored` | TcpConnection.cpp:137-165 | calls of the user outside the connected state change nothing |
| `Connections.DestroyedIsRemovable` | TcpConnection.cpp:49-62 | after disableAll the asserts of removeChannel hold |
| `Connections.ReadInConserves` | TcpConnection.cpp:71-83 | readFd and the message callback keep consumed + buffered = read, in order |
| `ConnectionLaws.StateFollowsCalls` | TcpConnection.cpp:39-165 | in every run the state is the one that the calls of connectEstablished, shutdown and connectDestroyed lead to, and no other call matters |
| `ConnectionLaws.BytesFollowCalls` | TcpConnection.cpp:65-195 | in every run: accepted = the messages handed to send while connected; read = what readFd delivered; as many bytes are written as `::write` took, and consumed as callbacks took out |
| `ConnectionLaws.StreamsFollowCalls` | TcpConnection.cpp:65-195 | in every run the wire has the first bytes of the messages handed to send while connected, as many as the kernel took, and the output buffer the rest; callbacks have got the first bytes of what was read, and the input buffer has the rest |
| `ConnectionLaws.IdleSendWritesThrough` | TcpConnection.cpp:172-194 | on an idle channel exactly the bytes `::write` takes go out, the others are buffered, and writing is enabled if and only if there are any |
| `ConnectionLaws.HalfClosesExactly` | TcpConnection.cpp:97-106 | in every run, after shutdown: the write end is closed if and only if nothing is left to write, or shutdown came after a close that had left bytes behind; before shutdown it is not |
| `ConnectionLaws.HalfClosesWhenDrained` | TcpConnection.cpp:153-204 | so before any close it is closed if and only if the output buffer is empty |
| `ConnectionLaws.UserCallsAreCalls` | TcpConnection.cpp:46 | what a user callback does is exactly the run of its calls, one by one |
| `SharedShutdowns.AnyOverlapIsSafe` | TcpConnection.cpp:153-165 | with test and store of state_ as separate steps, however calls of shutdown overlap: no byte is lost, none is written after the first half-close, and shutdownWrite is called at most once more than queued functors have run |
| `SharedShutdowns.UndisturbedIsShutdown` | TcpConnection.cpp:153-165 | in the loop thread, with nobody in between, test and store are the member function |
| `SharedShutdowns.RunKeepsAlone` | TcpConnection.cpp:153-165 | where calls do not overlap at most one gets past its test, and one half-close precedes its functor if and only if handleWrite has drained first |
| `SharedShutdowns.ForeignShutdownExactly` | TcpConnection.cpp:97-204 | where calls do not overlap, shutdownWrite is called at most twice, and twice if and only if handleWrite drains between a foreign call and its functor |
| `SharedShutdowns.DrainHalfClosesTwice` | TcpConnection.cpp:97-106 | that case is reachable, without overlap, on a connection whose write callback is set |
| `SharedShutdowns.OverlapHalfClosesOften` | TcpConnection.cpp:155-163 | with overlap there is no bound: for every k, k foreign calls half-close k times and nothing is written |
| `SharedShutdowns.LoopOverlapHalfClosesTwice` | TcpConnection.cpp:155-163 | one foreign call that overlaps one of the loop thread half-closes twice and nothing is written |
| `Reactor.NewConnectionIsGood` | TcpServer.cpp:63-96 | a new connection on a free descriptor keeps the system invariant and meets no failing assert |
| `Reactor.HandleCloseIsGood` | TcpConnection.cpp:116-127 | closing inside a handler passes erase == 1 and keeps every channel still to be handled in its slot |
| `Reactor.ConnectDestroyedIsGood` | TcpConnection.cpp:49-62 | the queued teardown passes all asserts of removeChannel even if the user callback sends or shuts down in between |
| `Reactor.PollIsGood` | EventLoop.cpp:74-75 | poll yields only registered channels, each in its slot, of connections not yet closed |
| `Reactor.StepIsGood` | EventLoop.cpp:72-84 | no step of the whole reactor fails an assert; each keeps the system invariant, and states only move forward |
| `Reactor.NoAssertFails` | EventLoop.cpp:72-84 | in no run, whatever the environment does, is an assert on states, on erase == 1, or of updateChannel and removeChannel violated |
| `Reactor.RegistryAgreesAtPoll` | TcpServer.cpp:83-118 | at every poll the connections in the server map and the connection descriptors in the Poller correspond one to one, and every removed connection is fully destroyed |
| `Reactor.RunAdvances` | TcpConnection.cpp:39-62 | over any run a connection never disappears, keeps its descriptor and never moves back in state |
| `Reactor.LifecycleIsLinear` | TcpConnection.cpp:39-165 | over any run: forward states only, at most one handleClose and one connectDestroyed, connection callback true once and then false once |
| `Reactor.StreamsAreConserved` | TcpConnection.cpp:65-204 | both streams conserved, and drain before half-close, for every connection in every reachable state of the whole reactor |
| `Reactor.CloseStrandsMessage` | TcpConnection.cpp:116-127 | a run of the whole reactor, through poll and dispatch, that half-closes over a whole message after handleClose |
| `Reactor.DispatchIsSafe` | EventLoop.cpp:77-80 | each active channel still to be handled is registered in the slot poll found it in, and its connection is alive, unclosed and owned |
| `Reactor.RegisteredIsOwned` | TcpServer.cpp:107-115 | whoever is registered with the Poller is owned by the map or by the queued teardown |
| `Reactor.HandlerLeavesAnOwner` | TcpServer.cpp:110-115 | after any handler, also one that closed its own connection, the connection still has an owner |
| `Reactor.InlineTeardownLeavesNoOwner` | TcpServer.cpp:113-115 | the answer to the question in the source: run inline, the teardown would succeed without a failing assert and leave no owner while handleEvent is still running |
| `Tcp.TcpConnection.ConnectEstablished` | TcpConnection.cpp:39-47 | the object does exactly what `Connections.ConnectEstablished` and then the calls of the user callback do to a value |
| `Tcp.TcpConnection.ConnectDestroyed` | TcpConnection.cpp:49-62 | the object does what `BeginDestroy` and `RemoveChannel` do to a value, and whatever the user callback calls on its connection changes nothing |
| `Tcp.TcpConnection.ConnectionCallback` | TcpConnection.cpp:46 | any calls a user callback makes on its connection have exactly the effect `UserCalls` gives them |
| `Tcp.TcpConnection.HandleRead` | TcpConnection.cpp:65-91 | bytes read go behind the input buffer, of which the message callback takes a prefix, and its calls on the connection have their effect; zero bytes close; an error changes nothing |
| `Tcp.TcpConnection.HandleWrite` | TcpConnection.cpp:93-114 | the object, its buffer, socket and slot change as `Connections.HandleWrite` says |
| `Tcp.TcpConnection.HandleClose` | TcpConnection.cpp:116-127 | mutes the channel, leaves the server map, and queues its own teardown |
| `Tcp.TcpConnection.Send` | TcpConnection.cpp:137-151 | as `Connections.Send`, whose effect over runs is `ConnectionLaws.StreamsFollowCalls`; ignored unless connected |
| `Tcp.TcpConnection.SendInLoop` | TcpConnection.cpp:167-195 | as `Connections.SendInLoop`, direct write included |
| `Tcp.TcpConnection.Shutdown` | TcpConnection.cpp:153-165 | as `Connections.Shutdown`, whose effect over runs is `ConnectionLaws.StateFollowsCalls` and `ConnectionLaws.HalfClosesExactly` |
| `Tcp.TcpConnection.ShutdownInLoop` | TcpConnection.cpp:197-204 | as `Connections.ShutdownInLoop`, whose effect over runs is `ConnectionLaws.HalfClosesExactly` |
| `Tcp.TcpServer.NewConnection` | TcpServer.cpp:63-96 | a fresh connection under a name not in use, established, with the calls of the user callback; no other entry changes |
| `Tcp.TcpServer.RemoveConnection` | TcpServer.cpp:102-118 | erases exactly this name, keeps names below the counter, and queues exactly this teardown |
| `ByteBuffer.Layout.MadeSpace` | Buffer.h:152-170 | grown or slid, the layout has room for `len` more bytes and the same number of readable bytes |
| `ByteBuffer.Layout.AfterRead` | Buffer.cpp:13-27 | fitting or spilling, exactly `n` more bytes are readable |
| `Polling.Find` | Poller.cpp:73-77 | the one slot that stands for a descriptor, muted or not, or -1 when none does |
| `Polling.UpdatedFind` | Poller.cpp:55-87 | an update keeps descriptors distinct and every slot in place |
| `Polling.RemovedFind` | Poller.cpp:105-115 | removal keeps descriptors distinct, moves only the last slot, and only into the hole |
| `EventLoops.SessionStaysAnnounced` | EventLoop.cpp:72-84 | in every state after entry a nonempty queue from the batch to poll, and quit at poll, is announced |
| `Startup.RunKeepsInv` | thread/Thread.cpp:48-114 | the latch opens only behind the store to tid, and the loop is published exactly when the child runs it, in every reachable state |
| `Timers.FiringIsSound` | TimerQueue.cpp:131-135 | a due timer that has rested its interval may run: both promises about the history survive |
| `Timers.CutKeepsBatch` | TimerQueue.cpp:140-164 | after the cut each timer is in at most one of the set and the expired batch, and none is lost |
| `Timers.RunKeepsInv` | TimerQueue.cpp:106-195 | entry keys equal current expirations and every timer is pending or has finished, in every reachable state |
| `Timers.TimerQueue.PutBack` | TimerQueue.cpp:174-178 | restart and insert of one mutable timer: set and pool change as the value model says |
| `Timers.TimerQueue.RunExpired` | TimerQueue.cpp:131-135 | the loop over expired timers with re-entrant additions equals the value model |
| `Connections.StepKeepsStream` | TcpConnection.cpp:39-204 | every member function keeps the stream invariant and never moves the state back |
| `Reactor.RunKeepsInv` | EventLoop.cpp:72-84 | the system invariant holds in every reachable state |
| `Reactor.ActAllKeepsInv` | TcpConnection.cpp:137-165 | user code may send, shut down and queue as it likes: the invariant and the phase survive, no assert fails |
| `Reactor.ActiveEventsAreOk` | Poller.cpp:28-48 | the lookup assert of the scan holds, and each active channel is registered and unclosed |
| `Reactor.FreeIsUnregistered` | TcpServer.cpp:63-96 | a descriptor that accept may return is not registered with the Poller |
| `Reactor.NobodyIsClosedAtPoll` | EventLoop.cpp:74-82 | a live connection at a poll point is unclosed and in the server map |
| `Reactor.EndOfStreamCloses` | TcpConnection.cpp:84-85 | in any run, a handler that reads end of stream succeeds, erases the connection and queues its teardown |
| `Reactor.ClosedIsGoneByNextPoll` | EventLoop.cpp:74-82 | a connection closed at any time is destroyed exactly once, and its channel unregistered, by the next poll |
| `Reactor.NeverReadAgain` | TcpConnection.cpp:188-194 | over every run: a live connection that does not ask for input at a poll point has nothing read again, is never closed or torn down and stays in the server map |
| `Reactor.StepLeavesDeaf` | Poller.cpp:79-87 | one step of the reactor never makes such a connection readable, whatever poll reports and user code does |
| `Reactor.SendStopsReading` | TcpConnection.cpp:188-194 | what triggers it: after a send a reading connection still asks for input if and only if the direct write took the whole message |
| `Reactor.InputIsAskedForExactly` | TcpConnection.cpp:167-195 | over every run: at a poll point a live connection asks for input if and only if every send it received while connected had its whole message taken by the direct write |
| `Reactor.StepAsks` | EventLoop.cpp:72-84 | one step of the reactor stops a connection from asking for input if and only if user code in it sends short |
| `ReactorTraces.RunProjects` | EventLoop.cpp:72-84 | in every run of the reactor, each connection is what the calls made on it by the steps, and no others, make of a new connection |
| `ReactorTraces.StepMakes` | Channel.cpp:36-64 | one step makes exactly its calls on a connection: what the event asks for, what readFd and write return, and what user code does |
| `ReactorTraces.ConnectionFollowsSteps` | TcpConnection.cpp:39-204 | so in every run of the reactor: state, accepted, read, consumed and half-closed are what the calls say, and the wire is as long as the kernel took |
| `ReactorTraces.InputFollowsSteps` | TcpConnection.cpp:65-91 | in every run, what a connection has read is the bytes readFd delivered in the steps that handled its read events, in order; callbacks have got the first of them, as many as they took out, and the input buffer has the rest |
| `ReactorTraces.StepReads` | TcpConnection.cpp:71-83 | in one step that reads, exactly the delivered bytes are added and exactly as many are consumed as the callback takes; in any other step none |
| `ReactorTraces.FailedReadChangesNothing` | TcpConnection.cpp:86-90 | a read that fails changes no connection, no slot, no map and no queue |
| `ReactorTraces.FunctorsRunInOrder` | EventLoop.cpp:149-203 | in every run of the reactor the functors that have run, then those that wait, are those queued by user code, other threads, and once per end of stream, in order |
| `ReactorTraces.PollReportsAll` | Poller.cpp:28-48 | dispatch gets exactly one event for each slot with something to report, in slot order, with its channel and revents; otherwise poll changes only revents |
| `ReactorTraces.AcceptAddsOne` | TcpServer.cpp:63-96 | a step that accepts adds exactly one connection, on the accepted descriptor, under the next number, in the map and registered |
| `ReactorTraces.ActAllKeepsShape` | TcpConnection.cpp:137-165 | user code that sends, shuts down and queues changes no map, no registration and no phase |
| `Tcp.TcpConnection.BeginDestroy` | TcpConnection.cpp:49-56 | connectDestroyed up to removeChannel: state, mute and callback, as the value model says |

## Left out

- `loop()` as one method: it does not terminate by design; its steps are proved instead.
- Cross-thread `send` and `addTimer`: they capture locals by reference, so only calls in the loop thread have a contract to prove.
- Cross-thread `shutdown` inside whole reactor runs: it is modelled for one connection.  The other members of TcpConnection look at `state_` once, so each is one step there.
- On heap objects a user callback acts on its own connection only; on values it may act on any connection and queue functors.
- Acceptor, sockets, addresses, logging, `main.cpp` and the tests: thin calls and output.
- `Channel::handleEvent` and whole runs of the composed reactor on heap objects: `Reactor.dfy` composes values; the heap classes are tied to those values method by method. The `eventHandling_` flag appears as "the handler has not returned", and the object's lifetime as ownership.
- Close and error callbacks of `Channel`: the repository registers neither on a connection.
- Floating-point seconds: an interval is a truncated microsecond count.
- Data races on the plain `bool` fields `quit_` and `callingPendingFunctors_`: each access is one atomic step.
- A push of another thread that falls between two pushes inside one functor: the class method runs undisturbed; the step system covers every interleaving.
- Destruction of `TcpServer` or `EventLoop` while in use, of an `EventLoopThread` whose thread was never created, and raw memory lifetime beyond ownership by map and functors.
- Delivery after re-enabling a muted channel: the code does not provide it.
- Overflow of `nextConnId_` and of the 64-bit clock.
- Reuse of a dead timer's address by a later timer: addresses of timers are fresh in the model.
- `TimerId`, cancellation (not implemented), `waitForSeconds`, thread names.
