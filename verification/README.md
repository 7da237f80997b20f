# FUSE client and toy RCU: a Dafny model

This project models two concurrent programs and proves properties of them over every interleaving of
their lock-protected sections:

- the FUSE kernel client (`old/fuse`): the request engine with its queues, background scheduler,
  interrupts, forgets and abort; the copy between kernel buffers and a userspace buffer; writeback with
  its biased counter and chains of secondary writes; asynchronous direct I/O; attribute versions; lookup
  counts; the splice ring; page descriptors; the scrambling of lock owners;
- the lock-based RCU of `rcu/toy_impl`.

Verify it with `dafny verify dfyconfig.toml`; the proofs are written for a resource limit of 2000000.

## How it is built

Each protocol has three layers. A *state machine* on values says what every lock-held section does:
`RequestEngine.Next`, `Writeback.Next`, `AsyncIo.Next`, `ToyRcu.Next`, `AttrVersions.Next` and
`LookupCounts.Next` take any event in any state, and `Run` any sequence of events, so that its results
hold for any number of threads in any order. An *invariant* is kept by every event, and the *theorems*
follow from it for every reachable state or every run. A *class* has the fields that the code updates in
place; its methods have the loops and branches of the code, and are proved to compute the state that the
state machine gives (`ensures View() == ...`), so that the theorems hold of them. What a method requires
beyond its arguments (that a request is on the list it is taken from, say) is part of the invariant.

What the functions of a state machine compute is pinned a second time, without them: by recursion on the
events of a run (`AsyncIo.FirstError`, `WritebackHistories.LatestIn`, `LookupCounts.NamedIn`,
`EngineOutcomes.CopyFails`), or by an account of each request or list (`EngineHistories.Lives`,
`EngineOrders.Ordered`, `LookupCounts.Taken`, `EngineReads.Delivered`), and theorems connect the two.

| files | source |
|---|---|
| ReadSchedule | the choice of what to read next |
| Errno, Lists, Pages | error numbers; lists without duplicates; the page size |
| Requests, RequestQueues | one request and its flags; the lists that link requests |
| RequestEngine, EngineInvariant, EngineEvolution, EngineTheorems | the engine, its invariant, what never goes back, results |
| EngineMemory, EngineWindows | who touches a request and whether it is still there; runs that go wrong |
| EngineHistories, EngineOrders | what a section does to one request, and to the ordered lists, told without the state machine's functions |
| EngineOutcomes, EngineReads, EngineSignals | errors, reading order and signals over whole runs |
| AbortSweep, EngineAbort | abort without interruption and in any run |
| Connection | the connection object |
| ForgetQueue | the forget list with its pointers |
| CopyEngine, CopyShares | copying arguments and pages, replies |
| Writeback, WritebackInvariant, WritebackTheorems, WritebackHistories, WritebackRace, WritebackInode | writeback of one inode and the nowrite barrier |
| AsyncIo, DirectIo, SpliceRing, OwnerScramble | direct I/O, page descriptors, splice, XTEA |
| AttrVersions, LookupCounts | stale attributes; lookup references |
| ToyRcu | the toy RCU |

In the request engine and in writeback a section is what one thread does under one spin lock, or one
operation on a flag without one. So the request a reader has taken off pending is in no list until it is
put on io; the move to processing, the setting of FR_SENT, the test of FR_INTERRUPTED and the
queue_interrupt that may follow are four sections, and the waiter's half of that handshake three; an
interrupt reply lets go of fpq->lock before it queues the interrupt again; `request_end` has three
sections; and `fuse_abort_conn` has one for each device, one for each turn of its flush and one for the
queue, and ends the requests it has collected one by one afterwards. `end_requests` picks a request, unlinks
it and starts its end in three sections, for abort as for release. A thread that keeps fc->lock while it
takes and releases other locks is the holder of `Conn.lock`, which keeps out only the sections that need
fc->lock: a flush_bg_queue takes fiq->waitq.lock anew for each request, and readers run in between. The
merges that remain are listed under "Left out" at `EngineTheorems.NextInv`.

## What does not hold

Some promises fail. For each there is a run or a state in which it does, and a theorem that says exactly
when.

- A request can be freed while a thread still works on it, in four windows: on to_end1, where
  `fuse_abort_conn` takes its reference only when it reaches the request (`FreedOnEnd1`); in the tail of the
  reader, behind the move to processing (`FreedBehindReader`); in the interrupt reply, behind fpq->lock
  (`FreedBehindInterrupt`); and in `end_requests`, when release goes through a processing list without a
  lock while an abort splices it, so that each of them may end the request that the other has picked
  (`FreedBehindRelease`, `FreedBehindAbort`). `NoUseAfterFree` shows that between sections there is no other
  window, and that in each the request is gone exactly when its ender and its submitter are both through
  with it; the fourth needs both an abort and a closed device (`SoleKept`).
- The reference that `fuse_abort_conn` takes for a request of to_end1 is never dropped, since the second
  `request_end` of a request returns at once: the request is leaked (`LeakedByAbort`). `AbortLeaks` shows
  that this is so in every run, and `FreedAtLast` that no other request is leaked.
- Not every request unfinished at an abort ends with -ECONNABORTED. One that a reader takes off pending
  before abort closes the queue, and puts on io behind the sweep of its device, ends with error 0
  (`InHandEndsWithoutError`, `ReadBehindAbort`). `AbortError` and `NotReached` say which, for every run.
- The WARN_ON of FR_SENT in `request_end` can fire (`SentWarningFires`), exactly when the reader sets the
  flag behind the reply, `end_requests` or the end of the request (`SentWarning`, `LateSent`).
- A page dirtied again while its WRITE is pending can lose its contents: `fuse_writepage_in_flight` tests
  FR_PENDING under fc->lock, but the reader clears it under fiq->waitq.lock, and may have taken the old
  contents before the new ones are copied in (`OutrunLoses`). `NoteLoses` is the exact condition, and
  `NothingLost` holds without such a race, without cut flushes and without WRITEs that fail.
- A queued write that is dropped whole leaks the secondaries on its chain (`DropLeaks`), and a flush that
  finds the file cut loses snapshots (`FlushLoses`, `EndOneLoses`).
- `fuse_dev_splice_write` sizes its array before it takes the pipe lock. If the pipe has grown by then, more
  buffers can come out than the array holds (`GrownDoesNotFit`); `Extract` says exactly when they fit.
- `fuse_rmdir` clears the link count without a new attribute version, so an older reply may bring it
  back (`RmdirUndone`); all other changes of size and link count are safe (`ChangesBump`,
  `StaleReplyDropped`).
- A short read of an inode that has not changed since its sample may leave the size as it is: the
  comparison is one of equality with the connection's counter (`ShortReadShrinks`,
  `UnchangedMayNotShrink`).
- Replies of a wrong or unexpected file type are dropped with their reference: `AllReturned` holds
  exactly without them.

## Model

| member | source | states |
|---|---|---|
| ReadSchedule.BatchStaysInRange | old/fuse/dev.c:1241-1257 | forget_batch stays between -7 and 16 through any sequence of reads |
| ReadSchedule.AtMostEightRequests | old/fuse/dev.c:1247-1257 | while forgets and requests both wait, no more than 8 ordinary requests are read in a row |
| ReadSchedule.AtMostSixteenForgets | old/fuse/dev.c:1247-1249 | while both wait, no more than 16 forget turns come in a row |
| ReadSchedule.SixteenThenEight | old/fuse/dev.c:1247-1257 | under steady contention the turns are periodic, 16 forgets and then 8 requests, from wherever the counter starts; the choice of every turn is given |
| ReadSchedule.ServesWhatWaits | old/fuse/dev.c:1226-1258 | a read waits only if nothing is there for it, an interrupt goes before all else, and what waits alone is served, at any point of any sequence of reads |
| ReadSchedule.BatchStays | old/fuse/dev.c:1247-1252 | forget_batch moves only at reads at which both kinds wait and no interrupt does |
| Requests.PutUnique | old/fuse/dev.c:302-305 | writing a request back with its old IDs, or with one that the counter has just produced, keeps all IDs distinct |
| RequestQueues.MoveLinked | old/fuse/dev.c:344-348 | moving one list node keeps every list exact: each holds precisely the requests linked on it, each once |
| RequestEngine.RequestFind | old/fuse/dev.c:1773-1782 | the result is on the list and matches the ID, and NotFound means that no request on the list does |
| EngineInvariant.FlushInv | old/fuse/dev.c:336-351 | flush_bg_queue keeps the invariant and leaves bg_queue empty or the limit reached |
| EngineInvariant.ReadInv | old/fuse/dev.c:1226-1258 | the locked part of a read keeps the invariant, whatever it chooses to read |
| EngineInvariant.ReplyInv | old/fuse/dev.c:1843-1877 | the section of a reply under fpq->lock keeps the invariant, for any ID, error and length the server writes |
| EngineInvariant.RequeueInv | old/fuse/dev.c:1866-1867 | so does the queue_interrupt of an interrupt reply, which comes after fpq->lock is released |
| EngineInvariant.EndAccountInv | old/fuse/dev.c:373-392 | giving up a background place keeps the counters exact, blocked included |
| EngineInvariant.AbortBeginInv | old/fuse/dev.c:2076-2085 | abort marks the connection down and starts its sweep: the invariant is kept, with blocked cleared before the limit is lifted |
| EngineInvariant.AbortDeviceInv | old/fuse/dev.c:2086-2103 | so does the sweep of one device under its lock, which leaves every list exact |
| EngineInvariant.AbortFlushInv | old/fuse/dev.c:2105-2106 | so does lifting the limit, before the flush |
| EngineInvariant.FlushTurnInv | old/fuse/dev.c:336-351 | one turn of any flush keeps the invariant, and the thread that flushes releases fc->lock only with bg_queue empty or the limit reached |
| EngineInvariant.AbortCloseInv | old/fuse/dev.c:2107-2115 | so does the section under fiq->waitq.lock, which needs bg_queue to be empty by then |
| EngineInvariant.ReleasePickInv | old/fuse/dev.c:2027-2031 | release picks the first request of the processing list of its device without a lock: the invariant is kept, by which every request that a loop of end_requests has picked stays one that such a loop may have, and two loops have the same one only if an abort has begun and the file of a device is closed |
| EngineInvariant.AbortPickInv | old/fuse/dev.c:2030-2031 | so does abort for its to_end2 |
| EngineInvariant.UnlinkPickedInv | old/fuse/dev.c:2032-2034 | so does the unlinking of the picked request, wherever it is by then: on processing, on to_end2, unlinked or ended |
| EngineInvariant.EndPickedInv | old/fuse/dev.c:2035-2035 | so does the start of its end, which the first of two loops wins |
| EngineTheorems.NextInv | old/fuse/dev.c:302-2152 | every section of every thread keeps the invariant of the connection; end_requests has three sections, on release as in abort, which hold no lock |
| EngineTheorems.ReachableInv | old/fuse/inode.c:606-629 | every state reached from a new connection satisfies the invariant |
| EngineTheorems.OnExactlyOneList | old/fuse/dev.c:336-2127 | in every reachable state a request is on one list at most and none twice; an unfinished one is on a list, or a reader has just taken it in hand, or a loop of end_requests has unlinked it and is about to end it, or its waiter has bailed out |
| EngineTheorems.EndedOnce | old/fuse/dev.c:361-397 | the callback runs at most once per request and the background counters go down at most once for it, by their own counts: the callback has run exactly when the body of request_end is over, and a background request is uncounted exactly when it has lost FR_BACKGROUND |
| EngineTheorems.PendingWarning | old/fuse/dev.c:371-371 | the first WARN_ON of request_end cannot fire |
| EngineTheorems.SentWarning | old/fuse/dev.c:372-372 | the second one fires exactly if the reader has set FR_SENT after the reply, end_requests or the end of the request had cleared it |
| EngineTheorems.LateSent | old/fuse/dev.c:1296-1296 | which it does exactly if before its set_bit the request is answered or ended, or end_requests has cleared the flag |
| EngineMemory.NoUseAfterFree | old/fuse/dev.c:302-2152 | no section of any thread touches a request that is freed, itself or as a neighbour on a list, outside four windows; in a window the request is freed exactly when both the body of request_end and the submitter are through with it, unless abort has its own reference; the window of end_requests opens only if an abort has begun and the file of a device is closed |
| EngineMemory.NotFreedEarly | old/fuse/dev.c:361-397 | no request is freed while it is on a list other than to_end1, waits for its interrupt, is in hand or copied (aborted and ended or not), or its submitter holds it; on to_end1 it is freed exactly when both its ender and its submitter are through with it |
| EngineWindows.FreedOnEnd1 | old/fuse/dev.c:2121-2126 | a run in which a request is freed while to_end1 links it and abort is about to take a reference to it |
| EngineWindows.FreedBehindReader | old/fuse/dev.c:1294-1300 | a run in which a request is freed before its reader comes to set FR_SENT |
| EngineWindows.FreedBehindInterrupt | old/fuse/dev.c:1857-1867 | a run in which a request is freed before the writer of its interrupt reply comes to queue_interrupt |
| EngineWindows.FreedBehindRelease | old/fuse/dev.c:2027-2037 | a run in which release has picked a request, abort splices it and ends it, and it is freed before release writes to it |
| EngineWindows.FreedBehindAbort | old/fuse/dev.c:2027-2037 | the other way round: abort has picked a request that release ends |
| EngineMemory.SoleKept | old/fuse/dev.c:2027-2037 | until an abort has begun, or as long as no file of a device is closed, what a loop of end_requests has picked is not freed |
| EngineMemory.ReleaseWarning | old/fuse/dev.c:2142-2142 | the WARN_ON of fuse_dev_release cannot fire: no request is on io of a device whose file is closed |
| EngineMemory.AbortLeaks | old/fuse/dev.c:2121-2126 | in any run, a request to which abort takes its extra reference while it is still there is never freed |
| EngineMemory.FreedAtLast | old/fuse/dev.c:361-397 | and no other request is leaked: once the submitter and the body of request_end are through with it, its count is 0 and it is freed, unless abort has a reference |
| EngineWindows.LeakedByAbort | old/fuse/dev.c:2121-2126 | a run after which nobody refers to a request and it is not freed |
| EngineWindows.SentWarningFires | old/fuse/dev.c:371-372 | a run in which the second WARN_ON fires |
| EngineTheorems.ReplyNamesOne | old/fuse/dev.c:1773-1782 | over the processing lists of all devices an ID names one request at most, and never both as a request ID and as an interrupt ID |
| EngineTheorems.RepeatedReplyFindsNothing | old/fuse/dev.c:1852-1895 | once a request is answered or ended, its ID finds nothing on any processing list, in any later state of any run |
| EngineTheorems.NotifyNeverProcessed | old/fuse/dev.c:600-616 | a notification reply, whose ID the server chose, is never on a processing list in any run |
| EngineTheorems.SchedulerExact | old/fuse/dev.c:373-391 | in every reachable state num_background counts the background requests, equals active_background plus the length of bg_queue, and the limit is respected; bg_queue waits only at the limit or while a flush is under way, and blocked tells whether the limit is reached except during the sweep of abort |
| EngineTheorems.FlushInOrder | old/fuse/dev.c:336-351 | the flush moves exactly as many requests as the limit allows, from the head of bg_queue to the tail of pending in order; submitted requests are those flushed followed by those waiting |
| EngineTheorems.NoLostInterrupt | old/fuse/dev.c:426-430 | a request both INTERRUPTED and SENT, with both tests made, has its interrupt queued or delivered unless it has finished |
| EngineTheorems.NoLateInterrupt | old/fuse/dev.c:365-370 | no request whose request_end has passed the removal is on the interrupts list, and only requests that userspace has read get there |
| EngineHistories.NextLives | old/fuse/dev.c:302-2152 | for every section and every request: the error, the list, the flags, the IDs and the threads with which the request goes on, told request by request from the event and the fields before; and which requests a section adds, as what |
| EngineOrders.NextOrders | old/fuse/dev.c:302-2152 | for every section: what it does to pending, bg_queue, the forgets and the interrupts list, in order, and what replies to interrupts do |
| EngineOutcomes.ReplyError | old/fuse/dev.c:1852-1895 | the server answers a request by its own ID with an accepted error: in every later run, if the request has ended, it is with -EIO iff the copy of that reply failed on a live device (or the server said so), with -ECONNABORTED iff an abort swept its device before the copy was over (or the server said so), and otherwise with the error of the server |
| EngineOutcomes.NoSuccessWithoutReply | old/fuse/dev.c:1262-1309 | in every reachable state a request that expects a reply and has ended without one has -EIO, -E2BIG or -ECONNABORTED, or the connection is down: none passes for answered |
| EngineReads.ReadDelivers | old/fuse/dev.c:1226-1258 | what a read takes and leaves: the first interrupt if there is one; forgets that wait alone, the oldest min(max, n) of them, and a request that waits alone, the first, neither touching the counter; while both wait the counter decides; nothing iff nothing waits or the queue is closed |
| EngineReads.ForgetsInOrder | old/fuse/dev.c:316-334 | over every run the forgets read are the oldest of those that waited or were queued since, in order, each once; and while the queue is open the rest still waits |
| EngineReads.NoOvertaking | old/fuse/dev.c:336-351 | over every run, of two requests that wait on pending, or behind it on bg_queue, the second is not read while the first waits, and they stay in order |
| EngineSignals.NoSpuriousInterrupt | old/fuse/dev.c:399-430 | in every reachable state a request whose interrupt is queued, delivered or about to be queued again is one whose waiter a signal has come to in that run |
| EngineSignals.NoInterruptExact | old/fuse/dev.c:1857-1870 | over every run no_interrupt is set exactly if a live device has taken a bare reply of -ENOSYS to an interrupt |
| EngineSignals.NeverInterruptedAgain | old/fuse/dev.c:419-430 | from then on, no request that is sent later is ever marked as interrupted, queued as one or given an interrupt ID |
| EngineSignals.KilledIfNotForced | old/fuse/dev.c:433-451 | in every reachable state the waiter of a forced request cannot be killed, and that of any other can from the end of its interruptible wait for as long as the request is on pending |
| EngineSignals.KilledInTime | old/fuse/dev.c:433-451 | a waiter killed while its request is on pending takes it back with -EINTR: over every later run it is never read and never ends; later, nothing but the wait changes |
| EngineAbort.AbortEmpties | old/fuse/dev.c:2107-2115 | once abort has closed the queue, and after anything that follows, bg_queue, pending, the forget queue and all processing lists are empty |
| EngineAbort.AbortSurvivors | old/fuse/dev.c:2091-2100 | when abort is through, an unfinished request is locked by its copier on io with -ECONNABORTED, or is one that a reader has in hand or has put on io behind the sweep, or one that the release of its device has unlinked with -ECONNABORTED |
| EngineAbort.CopierFinishes | old/fuse/dev.c:1280-1309 | the copier of a request on io of a dead device finishes it and leaves its error |
| EngineAbort.SweptEndsAborted | old/fuse/dev.c:2086-2103 | in any run, a request linked on a device when abort sweeps it ends with -ECONNABORTED |
| EngineAbort.AbortError | old/fuse/dev.c:2107-2127 | in any run, a request unfinished when abort closes the queue ends with -ECONNABORTED if and only if abort has it on its lists, has marked it or finds it on pending, or a release has unlinked it; otherwise with no error, -EIO or -E2BIG |
| EngineAbort.NotReached | old/fuse/dev.c:1255-1273 | those that abort does not get hold of are exactly the requests that a reader has taken off pending and not yet put on io, or has put on io of a device behind the sweep |
| EngineAbort.InHandEndsWithoutError | old/fuse/dev.c:1271-1284 | a request in hand for a dead device ends with error 0 |
| EngineWindows.ReadBehindAbort | old/fuse/dev.c:2103-2108 | a run in which a request on pending when abort begins is read between the sweep of the device and the closing of the queue, and ends without an error |
| EngineAbort.FlushRun | old/fuse/dev.c:336-351 | the turns of one thread, not interrupted, make up the whole of flush_bg_queue |
| EngineAbort.SendBackgroundRun | old/fuse/dev.c:584-597 | the sections of a background send, not interrupted, make up what the method below does |
| EngineAbort.EndAccountRun | old/fuse/dev.c:373-391 | the same for the fc->lock section of request_end |
| EngineAbort.AbortRun | old/fuse/dev.c:2072-2119 | the sections of an abort, not interrupted, with the devices in any order, make up the abort of the method below |
| AbortSweep.FlushAhead | old/fuse/dev.c:2086-2105 | flush_bg_queue does the same whether the devices were swept before it or not |
| AbortSweep.SameQueues | old/fuse/dev.c:2091-2109 | the lists are determined by where the requests are linked, but for the order of the ordered ones |
| AbortSweep.AbortParts | old/fuse/dev.c:2083-2115 | the loop over the devices, the flush and the section under the queue lock, in the order of the code, make up the whole of abort |
| Connection.FuseConn.constructor | old/fuse/inode.c:606-629 | a new connection satisfies the invariant |
| Connection.FuseConn.SendForeground | old/fuse/dev.c:459-474 | does what the state machine says; false without any effect if the queue is not connected |
| Connection.FuseConn.SendNotify | old/fuse/dev.c:600-616 | the same for a notification reply with the server's ID |
| Connection.FuseConn.FlushOne | old/fuse/dev.c:340-350 | one turn of the flush, as in the state machine |
| Connection.FuseConn.FlushBgQueue | old/fuse/dev.c:336-351 | the loop computes the whole flush |
| Connection.FuseConn.Enqueue | old/fuse/dev.c:563-580 | counts the request, blocks at the limit and appends it |
| Connection.FuseConn.SendBackground | old/fuse/dev.c:584-597 | enqueue and flush, or no effect on a dead connection |
| Connection.FuseConn.QueueForget | old/fuse/dev.c:316-334 | a forget is appended, or dropped when the queue is not connected |
| Connection.FuseConn.Read | old/fuse/dev.c:1226-1258 | waits iff the queue is closed or interrupts, forgets and pending are all empty; an interrupt that waits is the one taken and leaves its list; forgets leave from the head, at most max of them; a request taken is the first and is in hand; forget_batch moves only while both wait |
| Connection.FuseConn.CountRequest | old/fuse/dev.c:1248-1252 | forget_batch counts down on a request that is read while forgets wait, and starts again after eight |
| Connection.FuseConn.ReadForgets | old/fuse/dev.c:1247-1249 | the oldest min(max, n) forgets leave the queue, and forget_batch counts the turn only if requests wait too |
| Connection.FuseConn.ReadInterrupt | old/fuse/dev.c:1059-1076 | the first interrupt leaves its list with a fresh ID |
| Connection.FuseConn.ReadRequest | old/fuse/dev.c:1255-1257 | the first pending request is taken in hand |
| Connection.FuseConn.TooLarge | old/fuse/dev.c:1262-1268 | a request that does not fit the reader's buffer ends with -EIO or, for setxattr, -E2BIG |
| Connection.FuseConn.AddIo | old/fuse/dev.c:1271-1273 | the request in hand joins io |
| Connection.FuseConn.LockRequest | old/fuse/dev.c:644-674 | an aborted request is neither locked nor unlocked |
| Connection.FuseConn.FinishRead | old/fuse/dev.c:1280-1309 | the request awaits its reply exactly if the device lives, the copy succeeded and a reply is expected; otherwise it ends |
| Connection.FuseConn.AwaitReply | old/fuse/dev.c:1294-1295 | io to the tail of processing |
| Connection.FuseConn.SetSent | old/fuse/dev.c:1296-1296 | FR_SENT is set |
| Connection.FuseConn.TestInterrupted | old/fuse/dev.c:1299-1299 | FR_INTERRUPTED is tested after FR_SENT is set; the result is the flag |
| Connection.FuseConn.ReaderQueue | old/fuse/dev.c:1300-1300 | the queue_interrupt that follows if it was set |
| Connection.FuseConn.QueueInterrupt | old/fuse/dev.c:399-412 | queued once, and not once the request has finished |
| Connection.FuseConn.FindRequest | old/fuse/dev.c:1773-1782 | the loop computes RequestFind |
| Connection.FuseConn.Reply | old/fuse/dev.c:1843-1877 | under fpq->lock, a reply reaches the request it names or nothing; an interrupt reply sets no_interrupt, or the result names the request to requeue |
| Connection.FuseConn.Requeue | old/fuse/dev.c:1866-1867 | the interrupt is queued again, after fpq->lock is released |
| Connection.FuseConn.TakeReply | old/fuse/dev.c:1873-1876 | processing to io, locked, with FR_SENT cleared and with the error of the reply's header; EngineOutcomes.ReplyError says what becomes of it |
| Connection.FuseConn.FinishReply | old/fuse/dev.c:1885-1895 | the answered request leaves io unless abort made it private, and ends |
| Connection.FuseConn.EndCopy | old/fuse/dev.c:1304-1308 | a request leaves io unless it is private |
| Connection.FuseConn.EndRemove | old/fuse/dev.c:368-370 | off the interrupts list |
| Connection.FuseConn.EndAccount | old/fuse/dev.c:373-391 | the counters go down, then the flush |
| Connection.FuseConn.EndCallback | old/fuse/dev.c:393-396 | the callback runs and the reference is dropped |
| Connection.FuseConn.Signal | old/fuse/dev.c:421-426 | FR_INTERRUPTED is set before FR_SENT is tested |
| Connection.FuseConn.TestSent | old/fuse/dev.c:429-429 | FR_SENT is tested after FR_INTERRUPTED is set; the result is the flag |
| Connection.FuseConn.WaiterQueue | old/fuse/dev.c:430-430 | the queue_interrupt that follows if it was set |
| Connection.FuseConn.Kill | old/fuse/dev.c:433-450 | the waiter leaves with -EINTR exactly if the request is still pending |
| Connection.FuseConn.Return | old/fuse/dev.c:452-457 | the waiter returns |
| Connection.FuseConn.Release | old/fuse/dev.c:473-477 | the submitter drops its reference |
| Connection.FuseConn.MarkAborted | old/fuse/dev.c:2092-2099 | one request of an io list is marked, and moved unless it is locked; all lists stay exact |
| Connection.FuseConn.MarkIo | old/fuse/dev.c:2091-2100 | the loop marks exactly the requests of that io list |
| Connection.FuseConn.SpliceProcessing | old/fuse/dev.c:2101-2101 | the processing list moves to to_end2 as a whole |
| Connection.FuseConn.SweepDevice | old/fuse/dev.c:2086-2103 | exactly the requests of this device are marked or moved |
| Connection.FuseConn.SweepDevices | old/fuse/dev.c:2086-2103 | exactly the requests on devices are marked or moved, and every device is down |
| Connection.FuseConn.AbortDevices | old/fuse/dev.c:2083-2104 | abort up to its flush |
| Connection.FuseConn.AbortPending | old/fuse/dev.c:2107-2115 | pending moves to to_end2, the forgets are freed |
| Connection.FuseConn.AbortConn | old/fuse/dev.c:2072-2119 | abort with its loops, not interrupted, does what Abort of the state machine says and keeps the invariant |
| Connection.FuseConn.AbortLive | old/fuse/dev.c:2083-2119 | the same for a connection that is up |
| Connection.FuseConn.AbortEnd1 | old/fuse/dev.c:2121-2126 | one private request is ended, with an extra reference |
| Connection.FuseConn.AbortPick | old/fuse/dev.c:2030-2031 | abort picks a request of to_end2 |
| Connection.FuseConn.ReleasePick | old/fuse/dev.c:2030-2031 | release picks the first request of the processing list |
| Connection.FuseConn.UnlinkPicked | old/fuse/dev.c:2032-2034 | the picked request gets -ECONNABORTED, loses FR_SENT and leaves the list on which it is by then |
| Connection.FuseConn.EndPicked | old/fuse/dev.c:2035-2035 | its end starts, unless it has ended |
| Connection.FuseConn.EndOne | old/fuse/dev.c:2027-2037 | a turn of end_requests for to_end2, not interrupted |
| Connection.FuseConn.ReleaseOne | old/fuse/dev.c:2134-2143 | a turn of end_requests for the processing list of a device, on release, not interrupted |
| Connection.FuseConn.CloseDevice | old/fuse/dev.c:2134-2141 | fuse_dev_release begins: no thread reads from the device or writes to it from here on |
| Connection.FuseConn.AddDevice | old/fuse/inode.c:1018-1033 | a new device with empty lists |
| ForgetQueue.ForgetList.constructor | old/fuse/inode.c:587-594 | an empty list, whose tail is the sentinel |
| ForgetQueue.ForgetList.Enqueue | old/fuse/dev.c:316-334 | the link is appended, and the tail pointer stays right |
| ForgetQueue.ForgetList.ForgetPending | old/fuse/dev.c:1040-1043 | tells whether the list is empty |
| ForgetQueue.ForgetList.Walk | old/fuse/dev.c:1094-1099 | the walk ends at min(max, length), also with max 0, where newhead still points to the local head |
| ForgetQueue.ForgetList.Dequeue | old/fuse/dev.c:1090-1110 | the list splits into its first min(max, length) entries, a list of their own, and the rest in order; the tail pointer stays right |
| ForgetQueue.ForgetList.ReadBatchForget | old/fuse/dev.c:1145-1192 | the message never exceeds the reader's room and takes the oldest forgets, in order, as many as fit; if a copy fails the error is returned and the forgets not yet copied are lost |
| ForgetQueue.ForgetList.TakeFitting | old/fuse/dev.c:1165-1167 | as many forgets as fit are dequeued, and no fewer |
| ForgetQueue.ForgetList.CopyForgets | old/fuse/dev.c:1171-1184 | the dequeued forgets are copied out one after the other, each once, until a copy fails |
| ForgetQueue.ForgetList.ReadSingleForget | old/fuse/dev.c:1112-1143 | the forget leaves the queue even when the message does not fit or its copy fails |
| ForgetQueue.RoomFor | old/fuse/dev.c:1165-1166 | max_forgets is the largest number that fits |
| CopyEngine.CopiedReach | old/fuse/dev.c:949-984 | a copy succeeds exactly if the buffer can be filled that far, and leaves the cursor after the bytes, whatever the split into segments |
| CopyEngine.CopiedMark | old/fuse/dev.c:949-984 | position, bytes left, reach and first error after a copy do not depend on the split into segments |
| CopyEngine.FlatRead | old/fuse/dev.c:1023-1038 | pieces that each hold their share of the buffer are together the flat content of it |
| CopyEngine.ReceivedIsFlat | old/fuse/dev.c:1023-1038 | what was copied in is, piece after piece, the flat content of the userspace buffer |
| CopyEngine.RoundTrip | old/fuse/dev.c:1023-1038 | what one side copies out the other copies in, for any layouts and any splits with the same total |
| CopyEngine.ZeroFill | old/fuse/dev.c:987-1006 | with page_zeroing and full pages, the pages hold the payload followed by zeros to the end of the last page |
| CopyEngine.OutAccepted | old/fuse/dev.c:1784-1805 | a success reply is accepted if and only if its length matches or the last variable argument absorbs the shortfall, the sizes then add up to its length; an error reply is a bare header |
| CopyEngine.RequestTotal | old/fuse/dev.c:1023-1038 | the pieces never take more than the sizes of the arguments |
| CopyShares.PageShare | old/fuse/dev.c:987-1006 | a page takes, from its offset on, what of the bytes lies behind the room of the pages before it, as far as its own room goes; it is cleared first only with page_zeroing and if it is not filled whole |
| CopyShares.OutsideKept | old/fuse/dev.c:949-984 | copying in changes no byte outside the piece, unless the page is cleared first |
| CopyEngine.CopyState.CopyFill | old/fuse/dev.c:721-778 | the next segment is made current, or the error of the fill is returned |
| CopyEngine.CopyState.CopyDo | old/fuse/dev.c:781-800 | min(size, len) bytes move and the cursor follows |
| CopyEngine.CopyState.Copy | old/fuse/dev.c:949-984 | the loop moves exactly `size` bytes between the value and the flat buffer, or returns the first error |
| CopyEngine.CopyState.CopyOne | old/fuse/dev.c:1009-1020 | one argument |
| CopyEngine.CopyState.CopyPage | old/fuse/dev.c:949-984 | one page, cleared first if it is not filled whole |
| CopyEngine.CopyState.CopyPages | old/fuse/dev.c:987-1006 | the pages of the last argument, each with its share of the bytes |
| CopyEngine.CopyState.CopyArgs | old/fuse/dev.c:1023-1038 | all arguments are copied, as one concatenation, or the copy stops with the first error; success exactly if the buffer reaches far enough |
| CopyEngine.CopyState.CheckLength | old/fuse/dev.c:1784-1803 | the length check, with the shortened last argument |
| CopyEngine.CopyState.CopyOutArgs | old/fuse/dev.c:1784-1805 | a reply is refused, or a bare error, or all its bytes land in the arguments as OutAccepted sizes them |
| Writeback.FindCover | old/fuse/file.c:1743-1751 | the first listed request that covers the page; None means that none does |
| Writeback.ChainMatch | old/fuse/file.c:1758-1765 | the last single-page request of the chain for the page; None means that there is none |
| WritebackTheorems.NextInv | old/fuse/file.c:1477-1895 | every section of filling, sending, reading, answering and of the barrier keeps the invariant of the inode |
| WritebackTheorems.OneUnansweredWrite | old/fuse/file.c:1789-1895 | over every run at most one unanswered WRITE covers a page |
| WritebackTheorems.OneSecondary | old/fuse/file.c:1729-1787 | over every run the chains hold at most one secondary per page, on the first request that covers it |
| WritebackTheorems.LastSnapshotServed | old/fuse/file.c:1533-1578 | once a page is not under writeback, the last WRITE answered for it carried its last snapshot, unless that was dropped, cut off or outrun by a reader |
| WritebackTheorems.NoteLoses | old/fuse/file.c:1767-1778 | redirtying a page loses its contents exactly if a reader takes the pending single-page WRITE between the test of FR_PENDING and the end of the copy, and loses no other page |
| WritebackRace.OutrunLoses | old/fuse/file.c:1767-1778 | a run without any error, truncation or lost connection after which a clean page's last contents are not the server's |
| WritebackTheorems.FlushLoses | old/fuse/file.c:1486-1531 | exactly when a turn of the flush loses a page's last snapshot |
| WritebackTheorems.EndOneLoses | old/fuse/file.c:1540-1573 | exactly when the end of a WRITE loses the snapshot of its next secondary: the connection is down or the page lies beyond what the WRITE sent |
| WritebackTheorems.NothingLost | old/fuse/file.c:1477-1578 | while the connection is up, no WRITE fails, no flush finds the file cut and no reader outruns an overwrite, every page at rest was last written with its last snapshot |
| WritebackTheorems.CounterExact | old/fuse/dir.c:1522-1549 | writectr is the number of WRITEs in flight plus the bias; neither BUG_ON can fire |
| WritebackTheorems.NoneWhileHeld | old/fuse/dir.c:1531-1533 | when fuse_set_nowrite returns nothing is in flight, and nothing is sent until release, in any run |
| WritebackTheorems.ReleaseDrains | old/fuse/dir.c:1542-1549 | release empties queued_writes, in the order of queuing |
| WritebackTheorems.NoneStranded | old/fuse/file.c:1663-1665 | while the barrier is down a queued request waits only for a thread that is flushing; requests leave the queue in the order they joined it |
| WritebackTheorems.DropLeaks | old/fuse/file.c:1503-1508 | a queued request that is dropped leaks exactly the secondaries on its chain, and nothing else does |
| WritebackHistories.FlushSendsBytes | old/fuse/file.c:1486-1500 | of the first queued request a turn of the flush sends exactly the bytes below the file size that its thread sampled |
| WritebackHistories.EndSendsBytes | old/fuse/file.c:1540-1573 | a secondary carries exactly the bytes of its page that its primary sent |
| WritebackHistories.NextRecorded | old/fuse/file.c:1477-1895 | for every section: which contents it copies from a page, which the server gets, which request it queues, with which file size a flush begins, and where the barrier stands |
| WritebackHistories.LastCopyServed | old/fuse/file.c:1533-1578 | over every run, once a page is not under writeback, what the server got last of it is what was copied from it last, both told by the events alone, unless that was lost; requests leave the queue in the order of the events that queued them |
| WritebackHistories.NowriteStops | old/fuse/dir.c:1522-1533 | from fuse_set_nowrite on, in any run without fuse_release_nowrite, no queued request is sent |
| WritebackInode.SecondariesCounted | old/fuse/file.c:1540-1574 | a wholly carried request hands its place in writectr to every one of its secondaries |
| WritebackInode.FuseInode.constructor | old/fuse/inode.c:81-110 | an idle inode |
| WritebackInode.FuseInode.SendWritepage | old/fuse/file.c:1477-1509 | sent exactly if the connection is up and its first byte is below the crop, and then with a positive size that covers a byte of its pages if and only if the byte is below the crop; otherwise dropped |
| WritebackInode.FuseInode.Transmit | old/fuse/file.c:1498-1500 | counted and handed to the background queue |
| WritebackInode.FuseInode.Drop | old/fuse/file.c:1503-1508 | freed without walking its chain |
| WritebackInode.FuseInode.Unqueue | old/fuse/file.c:1527-1528 | the first queued request |
| WritebackInode.FuseInode.FlushWritepages | old/fuse/file.c:1517-1531 | the loop flushes the queue in order with the size sampled at its start |
| WritebackInode.FuseInode.Unchain | old/fuse/file.c:1543-1547 | the next secondary becomes a request of its own |
| WritebackInode.FuseInode.WritepageEnd | old/fuse/file.c:1533-1578 | the loop sends the chain, then frees the request |
| WritebackInode.FuseInode.Finish | old/fuse/file.c:1574-1575 | the counter goes down and the request leaves writepages |
| WritebackInode.FuseInode.Find | old/fuse/file.c:1743-1751 | the loop computes FindCover |
| WritebackInode.FuseInode.Match | old/fuse/file.c:1758-1765 | the loop computes ChainMatch |
| WritebackInode.FuseInode.NoteInFlight | old/fuse/file.c:1729-1787 | a pending single-page request is overwritten, else a secondary is chained, else nothing is found; the result says which. No reader interferes |
| WritebackInode.FuseInode.Overwrite | old/fuse/file.c:1767-1778 | the pending request takes over the new contents |
| WritebackInode.FuseInode.Attach | old/fuse/file.c:1779-1782 | the new request joins the chain |
| WritebackInode.FuseInode.SetNowrite | old/fuse/dir.c:1522-1532 | adds the bias, which makes the counter negative; the BUG_ON does not fire |
| WritebackInode.FuseInode.ReleaseNowrite | old/fuse/dir.c:1542-1549 | takes the bias away and sends every queued request in order; the BUG_ON does not fire |
| AsyncIo.NextInv | old/fuse/file.c:578-648 | sending, completing in any order and the submitter's own call keep the reducer exact |
| AsyncIo.SignalledOnce | old/fuse/file.c:588-607 | over every order of completion the signal comes at most once, exactly when every part is back and the submitter has made its call |
| AsyncIo.SettledAfterSignal | old/fuse/file.c:588-609 | nothing changes the record after the signal |
| AsyncIo.ContiguousIsBytes | old/fuse/file.c:562-577 | the smallest end of a short part is the longest contiguous prefix |
| AsyncIo.ResultOfRun | old/fuse/file.c:551-586 | for every order: the first error that arrives, of a part or of the submission loop, told by the events alone; else for a read the longest contiguous prefix, for a write its full size or -EIO if any part came back with another size |
| AsyncIo.FirstErrorKept | old/fuse/file.c:584-585 | over any run the error kept is the first one that arrives |
| AsyncIo.RecordOfRun | old/fuse/file.c:612-648 | the parts that the results speak of are those sent in the run, in order, each with what came back for it; the submitter is through exactly if it has made its own call |
| AsyncIo.FuseIoPriv.constructor | old/fuse/file.c:2861-2888 | one reference for the submitter, no bytes known |
| AsyncIo.FuseIoPriv.AsyncReqSend | old/fuse/file.c:632-648 | counts the part before it is sent |
| AsyncIo.FuseIoPriv.AioComplete | old/fuse/file.c:578-610 | an error is kept unless one came before, the smallest end is kept, the last caller signals; AsyncIo.FirstErrorKept says which error that is over a run |
| AsyncIo.FuseIoPriv.AioCompleteReq | old/fuse/file.c:612-630 | a short part reports where it ended, relative to the whole |
| AsyncIo.FuseIoPriv.GetRes | old/fuse/file.c:551-560 | the result of the record |
| ToyRcu.NextInv | rcu/toy_impl/sample_use.c:30-64 | every step of any number of readers and updaters keeps the invariant |
| ToyRcu.NoUseAfterFree | rcu/toy_impl/sample_use.c:30-64 | in every reachable state no enabled step dereferences or frees memory that is not live |
| ToyRcu.ReadsPublished | rcu/toy_impl/sample_use.c:59-59 | a reader returns the version that was published when it dereferenced the pointer, whatever the others do in between |
| ToyRcu.FreedExactlyOnce | rcu/toy_impl/sample_use.c:46-47 | a replaced version is freed at most once, and until then some updater is on its way to free it; the published one is not freed |
| ToyRcu.FreedAfterReaders | rcu/toy_impl/sample_locking.c:30-46 | when an updater is past its grace period no reader still holds its old version |
| ToyRcu.ExitLeavesNothing | rcu/toy_impl/sample_use.c:174-182 | after exit nothing is allocated, and every version but the last was freed before |
| ToyRcu.OtherFieldsKept | rcu/toy_impl/sample_use.c:41-42 | an update changes the field a alone, in every version of every run |
| ToyRcu.Rcu.constructor | rcu/toy_impl/sample_use.c:19-28 | init publishes the value 5 |
| ToyRcu.Rcu.ReadLock | rcu/toy_impl/sample_locking.c:20-23 | a reader enters |
| ToyRcu.Rcu.ReadUnlock | rcu/toy_impl/sample_locking.c:25-28 | a reader leaves |
| ToyRcu.Rcu.GetA | rcu/toy_impl/sample_use.c:59-59 | the dereference returns the last published value |
| ToyRcu.Rcu.FooGetA | rcu/toy_impl/sample_use.c:52-64 | the whole reader |
| ToyRcu.Rcu.Replace | rcu/toy_impl/sample_use.c:39-44 | the section under foo_mutex publishes a copy with the new a |
| ToyRcu.Rcu.Synchronize | rcu/toy_impl/sample_locking.c:30-46 | the grace period, once no reader is inside |
| ToyRcu.Rcu.KFree | rcu/toy_impl/sample_use.c:47-47 | the memory freed is live, and a version that was replaced |
| ToyRcu.Rcu.FooUpdateA | rcu/toy_impl/sample_use.c:30-50 | one update publishes one version and frees its predecessor |
| AttrVersions.VersionsGrow | old/fuse/inode.c:161-168 | over every run no inode's version exceeds the connection's, and none goes back |
| AttrVersions.NewerIffTouched | old/fuse/inode.c:203-230 | an inode is newer than a sample if and only if some event touched it since |
| AttrVersions.AppliedIffUntouched | old/fuse/inode.c:213-217 | a reply is applied if and only if its inode was not touched since its sample nor is its size being changed |
| AttrVersions.ChangesBump | old/fuse/dir.c:676-686 | every change of size or link count advances the version, except where the link count is cleared |
| AttrVersions.StaleReplyDropped | old/fuse/inode.c:203-230 | a reply sampled before a local change is never applied after it |
| AttrVersions.RmdirUndone | old/fuse/dir.c:708-711 | rmdir clears the link count without a new version, and an older reply brings it back exactly if nothing else touched the directory |
| AttrVersions.ZeroSampleApplies | old/fuse/dir.c:565-566 | create_new_entry samples 0, and its attributes apply whatever happened before |
| AttrVersions.ShortReadShrinks | old/fuse/file.c:672-685 | exactly when a short read shrinks the file |
| AttrVersions.UnchangedMayNotShrink | old/fuse/file.c:679-683 | an inode that has not changed since the sample need not shrink: it must also have been the last to change on the connection |
| AttrVersions.NewInodeLeaves | old/fuse/inode.c:81-110 | what a new inode has |
| AttrVersions.ReplyLeaves | old/fuse/inode.c:203-230 | the whole state after an attribute reply: nothing of a stale one, link count, size and version of any other |
| AttrVersions.SetattrLeaves | old/fuse/dir.c:1678-1699 | the whole state after setattr |
| AttrVersions.SizesLeft | old/fuse/file.c:672-999 | the size after a write is the larger of the old size and the end of the write; after a short read, a truncating open and an asynchronous completion the inode is told exactly |
| AttrVersions.LinksLeft | old/fuse/dir.c:676-833 | unlink undoes link, does not go below zero, and rmdir clears the count without a version |
| AttrVersions.OthersLeft | old/fuse/inode.c:161-230 | an event touches one inode |
| AttrVersions.FuseConn.GetAttrVersion | old/fuse/dir.c:157-170 | the sample is the counter, and nothing changes |
| AttrVersions.FuseInode.constructor | old/fuse/inode.c:81-110 | a new inode has version 0, the size of the reply and one link |
| AttrVersions.FuseInode.ChangeAttributes | old/fuse/inode.c:203-230 | a reply older than the inode or met by a size under change leaves everything; any other gives the link count, the size unless a writeback cache keeps it, and a new version |
| AttrVersions.FuseInode.Setattr | old/fuse/dir.c:1678-1699 | the attributes of the reply with a new version; the size of a truncation even from a writeback cache |
| AttrVersions.FuseInode.WriteUpdateSize | old/fuse/file.c:984-999 | the size becomes the end of the write if that is beyond it, and the result says so; always a new version |
| AttrVersions.FuseInode.ReadUpdateSize | old/fuse/file.c:672-685 | the size becomes what was read exactly if the sample is the inode's version, the size is beyond it and not under change |
| AttrVersions.FuseInode.Unlinked | old/fuse/dir.c:676-686 | one link less, not below zero, and a new version |
| AttrVersions.FuseInode.Linked | old/fuse/dir.c:830-833 | one link more and a new version |
| AttrVersions.FuseInode.ClearNlink | old/fuse/dir.c:709-709 | no link is left, and no new version |
| LookupCounts.Find | old/fuse/inode.c:281-308 | the first inode of the node that is not bad; its absence means that there is none |
| LookupCounts.IgetTakesOne | old/fuse/inode.c:297-331 | fuse_iget takes exactly one reference on the node if it succeeds and none if not, through any number of retries over inodes that changed type |
| LookupCounts.IgetTakes | old/fuse/inode.c:297-331 | the first inode of the node that has the file type gets one reference more; those of the node before it, or all of them if there is none, are of another type and turn bad; no other inode changes; a new one is added iff none fits and there is memory, and the call succeeds iff one fits or there is memory |
| LookupCounts.QueueOwed | old/fuse/dir.c:222-233 | forgets are queued for exactly three reasons, and only while connected: a reply without an inode and without memory, a revalidation that names another node, an eviction while mounted |
| LookupCounts.RevalidateTakes | old/fuse/dir.c:222-233 | a revalidation that names the same node raises the count of that inode alone |
| LookupCounts.LookupsConserved | old/fuse/dir.c:222-233 | over every run, while connected and mounted, the replies of the run that named a node equal the references its inodes hold, plus those in forgets queued or taken, plus its rejected replies |
| LookupCounts.NeverForgottenTwice | old/fuse/inode.c:128-138 | the server never gets back more references than it gave, whatever is aborted or unmounted |
| LookupCounts.AllReturned | old/fuse/inode.c:128-138 | when no inode of the node is left and no forget waits, all references are back, exactly if no reply was rejected |
| LookupCounts.FuseSuper.FindInode | old/fuse/inode.c:281-288 | the search computes Find |
| LookupCounts.FuseSuper.IgetInode | old/fuse/inode.c:297-331 | the retry loop leaves the first inode of the right type with one reference more, or a new one, and makes exactly the inodes of the node with another type before it bad |
| LookupCounts.FuseSuper.Forget | old/fuse/dev.c:316-334 | queued, or dropped on a dead connection |
| LookupCounts.FuseSuper.TakeEntry | old/fuse/dir.c:334-341 | a named node is kept in an inode of the right type, or given back by one forget |
| LookupCounts.FuseSuper.EvictInode | old/fuse/inode.c:128-138 | all references of the inode go into one forget, while mounted and connected |
| SpliceRing.MaskWraps | old/fuse/dev.c:1945-1946 | masking with a power of two less one wraps around the ring |
| SpliceRing.TakeSplits | old/fuse/dev.c:1954-1979 | the buffers taken hold exactly the first len bytes, and with those left exactly what was there; no more come out than went in |
| SpliceRing.TakeWhole | old/fuse/dev.c:1959-1978 | a buffer comes out as it was, except the last if it is taken in part, which is shared with the pipe and is no gift |
| SpliceRing.RingTail | old/fuse/dev.c:1964-1968 | a ring without its first buffer goes on at the next slot |
| SpliceRing.Pipe.HasBytes | old/fuse/dev.c:1943-1949 | tells exactly whether the ring holds len bytes |
| SpliceRing.Pipe.TakeOne | old/fuse/dev.c:1959-1978 | one buffer leaves, whole or in part |
| SpliceRing.Pipe.Turn | old/fuse/dev.c:1959-1978 | one turn of the loop; neither BUG_ON fires |
| SpliceRing.Pipe.Extract | old/fuse/dev.c:1938-1980 | exactly the first len bytes are extracted, or nothing if there are fewer; the loop ends, and stays within bufs if and only if no more buffers come out than bufs has places |
| SpliceRing.UnresizedFits | old/fuse/dev.c:1938-1942 | which is so if the pipe has as many places under the lock as when bufs was sized |
| SpliceRing.GrownDoesNotFit | old/fuse/dev.c:1938-1942 | and is not for a pipe of one buffer that grows to two in between |
| DirectIo.PackedExactly | old/fuse/file.c:1281-1310 | the descriptors describe exactly the bytes packed, none reaches past its page, and there are no more of them than room |
| DirectIo.ChunkLengths | old/fuse/file.c:1291-1302 | the first k pages of a chunk hold its bytes up to the end of page k |
| DirectIo.ByteDescribed | old/fuse/file.c:1291-1302 | every byte of a chunk lies in the part of its page that the page's descriptor names |
| DirectIo.PackedUntil | old/fuse/file.c:1272-1305 | packing takes whole chunks until it has the bytes it wants, no room, or a chunk that fails |
| DirectIo.SentConsecutive | old/fuse/file.c:1354-1391 | the requests of a transfer follow each other without gap or overlap, within the transfer and the connection's limit, none empty |
| DirectIo.SentPartition | old/fuse/file.c:1354-1391 | they partition the range that is sent: every byte of it is in exactly one request and no other byte is in any |
| DirectIo.MovedWithin | old/fuse/file.c:1369-1380 | unless the server claims too much, what is moved is what was sent but for the rest of the last request |
| DirectIo.EndsShort | old/fuse/file.c:1354-1391 | every turn before the last is full, one request for each; a transfer ends before its end only behind a failed request, a short or overlong one, one after which no other can be had, or a turn that packs nothing; what is moved is what its requests move |
| DirectIo.ReturnedIs | old/fuse/file.c:1381-1398 | -EIO for a server that claims too much, else the bytes moved, and only without any the error of the first turn |
| DirectIo.Request.LengthInit | old/fuse/file.c:1239-1247 | each of the n descriptors gets the rest of its page |
| DirectIo.Request.AddChunk | old/fuse/file.c:1291-1302 | the descriptors of one chunk, with the end of its last page cut off |
| DirectIo.Request.GetUserPages | old/fuse/file.c:1260-1313 | the loop packs exactly what the chunks bring |
| DirectIo.Transfer | old/fuse/file.c:1350-1398 | the loop sends exactly those ranges and returns the bytes moved or the reason for none; the position follows the bytes |
| OwnerScramble.RoundsUndone | old/fuse/file.c:321-327 | any number of rounds is undone by as many inverse rounds, with wrapping 32-bit arithmetic |
| OwnerScramble.UnroundsUndone | old/fuse/file.c:321-327 | and the other way round |
| OwnerScramble.ScrambleUndone | old/fuse/file.c:315-331 | the scrambled ID determines the owner and every ID is one, for every key |
| OwnerScramble.DistinctOwners | old/fuse/file.c:315-331 | different lock owners get different IDs |
| OwnerScramble.SumOfRounds | old/fuse/file.c:321-326 | after n rounds the sum is n times the constant, modulo 2^32 |
| OwnerScramble.KeySchedule | old/fuse/file.c:325-327 | which word of the key each half of a round takes: by bits 0 and 1 of the sum, and by bits 11 and 12 of the next |
| OwnerScramble.HalvesMixed | old/fuse/file.c:325-327 | what each half takes of the other, where the key cancels the sum |
| OwnerScramble.LockOwnerId | old/fuse/file.c:315-331 | the loop of 32 rounds computes the scrambled ID |

## Left out

- Connection.FuseConn.Read: the forgets leave the queue as values here; the pointers of the list are in ForgetQueue.
- Connection.FuseConn.AbortConn: the method runs without interruption, from a state in which nobody holds fc->lock; AbortRun says which run of the state machine that is, and the results about abort are about all runs.
- Connection.FuseConn.AbortLive: the same as AbortConn, for a connection that is up.
- Connection.FuseConn.FlushBgQueue: the method runs without interruption; FlushRun says which run that is.
- Connection.FuseConn.SendBackground: its flush runs without interruption; SendBackgroundRun says which run that is.
- Connection.FuseConn.EndAccount: its flush runs without interruption; EndAccountRun says which run that is.
- Connection.FuseConn.EndOne: a turn without interruption; its three sections are AbortPick, UnlinkPicked and EndPicked.
- Connection.FuseConn.ReleaseOne: a turn without interruption; its three sections are ReleasePick, UnlinkPicked and EndPicked.
- Devices are added and never removed: the end of `fuse_dev_release`, which takes the device off the connection and frees it (old/fuse/dev.c:2149), and its abort for the last open device, which may come at any time here, are left out.
- Connection.FuseConn.MarkIo: io, to_end1 and to_end2 are sets, since nothing depends on their order; bg_queue, pending, processing and interrupts are sequences.
- EngineTheorems.NextInv: some steps of one thread are one section. The test_and_set of FR_FINISHED that opens `request_end` goes with the section that calls it; the wake-up, the callback and the put that close it are one; the test of no_interrupt goes with the section that queues a request, and its setting with the reply.
- EngineMemory.NoUseAfterFree: a list operation of `end_requests` is atomic. On release the code does it without a lock, and it races with the splice of an abort, with its walk over to_end2 and with the list operations of its own `end_requests`: what such a race makes of the lists is not modelled.
- EngineTheorems.SchedulerExact: max_background is fixed and positive once the connection is set up; the control file, which changes it without recomputing `blocked` (old/fuse/control.c:128), is not modelled.
- WritebackInode.FuseInode.NoteInFlight: the class runs without interruption; the reader that outruns the overwrite is in Writeback.NoteInFlight.
- WritebackInode.FuseInode.FlushWritepages: the class runs the loop without interruption; the turns of several flushing threads interleave in Writeback only. A chain is a sequence in its primary request, not a list of pointers.
- WritebackInode.FuseInode.Drop: fc->lock is released for the free of the request in the code, and no other thread runs there in the class; in Writeback the section ends there.
- WritebackInode.FuseInode.WritepageEnd: the class runs without interruption; the turns of its loop interleave with other threads in Writeback only.
- CopyEngine.CopyState.CopyFill: segments come from a list of lengths and faults; pipe buffers as their source and the allocation of a missing page are not modelled.
- CopyEngine.CopyState.CopyPage: page stealing and page references (fuse_try_move_page, fuse_ref_page) are not modelled.
- CopyEngine.ZeroFill: the pages are full ones, as the only callers with page_zeroing lay them out.
- DirectIo.Request.GetUserPages: the shortcut for kernel buffers (ITER_KVEC) is not modelled; what iov_iter_get_pages promises is its assumption.
- SpliceRing.Pipe.TakeOne: references on a buffer that is split are not counted.
- SpliceRing.Pipe.Extract: references on pipe buffers are not counted.
- ToyRcu.Rcu.Synchronize: the class requires that no reader is inside, where the code waits; any interleaving, with the wait, is in ToyRcu.Next.
- ToyRcu.Rcu.FooUpdateA: the class runs an update by one thread while no reader is inside; any interleaving is in ToyRcu.Next. kmalloc does not fail (the code does not test it), and a failing init is not modelled.
- LookupCounts.LookupsConserved: the root node, whose first reference comes from no reply, is left out; a FORGET counts as sent when a reader takes it, and the one that readdirplus sends with force when it is queued.
- LookupCounts.FuseSuper.TakeEntry: the paths of lookup, create and revalidate are reduced to whether the reply's node is kept in an inode or given back.
- Memory ordering: sections and single flag operations are sequentially consistent; the barriers of the code are there to provide that.
- The counters for request IDs and attribute versions do not wrap, a connection has fewer than 2^32 - 1 background requests, and an inode fewer than 2^31 writes.
- Sizes of `struct`s are parameters; PAGE_SIZE is 4096.
- Waiting, wake-ups, fasync, poll and the congestion of the backing device: a section runs when its condition holds, and nothing says that it ever does.
- fuse_notify and its notifications, retrieve and store.
- fuse_launder_page, read-ahead, buffered reads and fuse_perform_write, file locks, fallocate.
- Directories, symbolic links, xattrs, ACLs, statfs, mount options, the control filesystem, CUSE.
- `old/tuse`, `old/tmp`, the device demos, `get_user_pages`, `rcu/use_example`: unfinished, copies, or plumbing.
