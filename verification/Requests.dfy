/**
 One FUSE request: its flags, its list node, and where each thread that serves it stands. The functions
 say what each lock-held section does to its request, and the predicates what holds of a request at all
 times, by the place of its node: who may be working on it, which flags it can have, how many references
 there are and whose they are, and how far its body of request_end has come. The lemmas show, function
 by function, that each section keeps all of that.
 */
module Requests {
  import opened Errno

  type ReqId = nat
  type DevId = nat

  /** The list on which a request's `list` node is linked. */
  datatype Place =
    | Nowhere
    | OnBg
    | OnPending
    | OnIo(dev: DevId)
    | OnProcessing(dev: DevId)
    | OnEnd1            // fuse_abort_conn's to_end1
    | OnEnd2            // fuse_abort_conn's to_end2

  /** Where the thread that reads the request from the device stands. */
  datatype Reader =
    | NotRead
    | InHand(dev: DevId)     // off pending, not yet on io: no lock is held
    | Reading(dev: DevId)    // copying to userspace
    | SettingSent            // moved to processing, FR_SENT not yet set
    | TestingInterrupted     // FR_SENT set, FR_INTERRUPTED not yet tested
    | ReaderQueues           // it was set: about to call queue_interrupt
    | ReadDone

  /** Where the thread that writes the reply stands. */
  datatype Replier = NotReplied | Copying(dev: DevId) | ReplyDone

  /** Where the thread that waits in request_wait_answer stands. WaiterQueues has found FR_SENT set and
      is about to call queue_interrupt. */
  datatype Waiter =
    | NoWaiter | Interruptible | TestingSent | WaiterQueues | Killable | Uninterruptible | Returned | Gone

  /** How far the body of request_end has come. */
  datatype Ender = NotEnding | Removing | Accounting | CallingBack | Ended

  /** The last five are histories: FR_SENT was set after the reply or the end of the request had cleared
      it; how often the callback has run; how often the request was uncounted from the background requests;
      its last reference was dropped; end_requests has unlinked it. */
  datatype Req = Req(
    unique: nat, intrUnique: nat, on: Place,
    isReply: bool, force: bool, background: bool, aborted: bool, interrupted: bool,
    locked: bool, pending: bool, sent: bool, finished: bool, private: bool,
    error: int, count: int, abortRef: bool, bailed: bool,
    reader: Reader, replier: Replier, waiter: Waiter, ender: Ender,
    late: bool, callbacks: nat, retired: nat, freed: bool, unlinked: bool)

  // What each lock-held section does to its request.

  /** fuse_request_init and the flags its submitter sets. */
  function FreshReq(unique: nat, on: Place, isReply: bool, force: bool, background: bool, count: int, waiter: Waiter): Req {
    Req(unique, 0, on, isReply, force, background, false, false, false, true, false, false, false,
        0, count, false, false, NotRead, NotReplied, waiter, NotEnding, false, 0, 0, false, false)
  }

  /** The wait that follows the interruptible one. */
  function SecondWait(force: bool): Waiter { if force then Uninterruptible else Killable }

  function Foreground(unique: nat, isReply: bool, force: bool, noInterrupt: bool): Req {
    FreshReq(unique, OnPending, isReply, force, false, 2, if noInterrupt then SecondWait(force) else Interruptible)
  }

  function Notify(unique: nat): Req { FreshReq(unique, OnPending, false, false, false, 1, NoWaiter) }

  function Background(): Req { FreshReq(0, OnBg, true, false, true, 1, NoWaiter) }

  /** flush_bg_queue hands the request to userspace. */
  function Flushed(r: Req, unique: nat): Req { r.(unique := unique, on := OnPending) }

  /** Taken off pending by a reader of the device. */
  function Take(r: Req, d: DevId): Req { r.(pending := false, on := Nowhere, reader := InHand(d)) }

  /** The test_and_set of FR_FINISHED that starts request_end; only the first caller runs the body. */
  function StartEnd(r: Req): Req {
    r.(finished := true, ender := if r.finished then r.ender else Removing)
  }

  /** The request is larger than the reader's buffer. */
  function Oversize(r: Req, setxattr: bool): Req {
    StartEnd(r.(error := if setxattr then E2BIG else EIO, reader := ReadDone))
  }

  function StartCopy(r: Req): Req
    requires r.reader.InHand?
  {
    r.(on := OnIo(r.reader.dev), reader := Reading(r.reader.dev))
  }

  /** lock_request or unlock_request: nothing happens to an aborted request. */
  function SetLocked(r: Req, locked: bool): Req { r.(locked := if r.aborted then r.locked else locked) }

  /** Where a copied request's node is when it ends: list_del_init is skipped for FR_PRIVATE. */
  function EndPlace(r: Req): Place { if r.private then r.on else Nowhere }

  /** The tail of fuse_dev_do_read; `alive` is fpq->connected. A request that expects a reply moves
      on to processing unless the copy failed or the device died; any other ends here. */
  function EndRead(r: Req, alive: bool, failed: bool): Req
    requires r.reader.Reading?
  {
    if alive && !failed && r.isReply then r.(locked := false, on := OnProcessing(r.reader.dev), reader := SettingSent)
    else StartEnd(r.(locked := false, error := if alive && failed then EIO else r.error, on := EndPlace(r), reader := ReadDone))
  }

  /** A reply names the request: back to io, with the reply's header. */
  function StartReply(r: Req, d: DevId, error: int): Req {
    r.(sent := false, on := OnIo(d), error := error, locked := true, replier := Copying(d))
  }

  /** The tail of fuse_dev_do_write. */
  function EndReply(r: Req, alive: bool, failed: bool): Req {
    StartEnd(r.(locked := false, error := if alive && failed then EIO else r.error, on := EndPlace(r), replier := ReplyDone))
  }

  /** A fatal signal: leave with -EINTR if the request is still pending, else wait it out. */
  function Die(r: Req): Req {
    r.(on := if r.pending then Nowhere else r.on, bailed := r.bailed || r.pending,
       error := if r.pending then EINTR else r.error, count := if r.pending then r.count - 1 else r.count,
       waiter := if r.pending then Returned else Uninterruptible)
  }

  /** fuse_abort_conn ends a request of to_end1, with an extra reference. */
  function EndPrivate(r: Req): Req { StartEnd(r.(on := Nowhere, count := r.count + 1, abortRef := true)) }

  /** end_requests stores the error, clears FR_SENT and unlinks the request; request_end follows. */
  function Unlink(r: Req): Req {
    r.(on := Nowhere, error := ECONNABORTED, sent := false, late := false, unlinked := true)
  }

  /** fuse_read_interrupt gives the interrupt an ID of its own. */
  function Interrupt(r: Req, unique: nat): Req { r.(intrUnique := unique) }

  /** request_end has taken the request off the interrupts list. */
  function Removed(r: Req): Req { r.(ender := if r.background then Accounting else CallingBack) }

  /** request_end has given up the request's place among the background requests. */
  function Accounted(r: Req): Req { r.(background := false, ender := CallingBack, retired := r.retired + 1) }

  /** request_end has run the callback and dropped its reference. */
  function CalledBack(r: Req): Req {
    r.(ender := Ended, callbacks := r.callbacks + 1, count := r.count - 1, freed := r.freed || r.count == 1)
  }

  /** The submitter's fuse_put_request. */
  function Released(r: Req): Req { r.(waiter := Gone, count := r.count - 1, freed := r.freed || r.count == 1) }

  /** A reply has been taken, or the request has ended, or end_requests has begun on it: FR_SENT is cleared
      by then. */
  predicate Answered(r: Req) { r.replier != NotReplied || r.finished || r.unlinked }

  /** The reader sets FR_SENT. */
  function Sent(r: Req): Req { r.(sent := true, reader := TestingInterrupted, late := r.late || Answered(r)) }

  /** The reader tests FR_INTERRUPTED. */
  function TestedInterrupted(r: Req): Req { r.(reader := if r.interrupted then ReaderQueues else ReadDone) }

  /** A signal has ended the interruptible wait. */
  function Signalled(r: Req): Req { r.(interrupted := true, waiter := TestingSent) }

  /** The waiter tests FR_SENT. */
  function TestedSent(r: Req): Req { r.(waiter := if r.sent then WaiterQueues else SecondWait(r.force)) }

  /** The list that fuse_abort_conn moves the request to. */
  function AbortPlace(r: Req): Place {
    if r.on.OnIo? then if r.locked then r.on else OnEnd1
    else if r.on.OnProcessing? || r.on.OnPending? then OnEnd2
    else r.on
  }

  /** What fuse_abort_conn does to every request: those on io are marked, and moved unless a copier
      has locked them; pending and processing ones are moved. */
  function AbortReq(r: Req): Req {
    r.(error := if r.on.OnIo? then ECONNABORTED else r.error,
       aborted := r.aborted || r.on.OnIo?,
       private := r.private || (r.on.OnIo? && !r.locked),
       pending := r.pending && !r.on.OnPending?,
       on := AbortPlace(r))
  }

  predicate Matches(r: Req, u: nat) { r.unique == u || r.intrUnique == u }

  /** A copier works on the request. */
  ghost predicate Copied(r: Req) { r.reader.Reading? || r.replier.Copying? }

  ghost function CopierDev(r: Req): DevId
    requires Copied(r)
  {
    if r.reader.Reading? then r.reader.dev else r.replier.dev
  }

  /** The submitter's reference. */
  ghost predicate Holds(r: Req) { r.waiter != NoWaiter && r.waiter != Gone }

  /** The queue's reference, which the body of request_end drops, or the waiter who bails out. */
  ghost predicate QueueRef(r: Req) { r.ender != Ended && !r.bailed }

  /** Nothing has happened to the request since it was queued. */
  ghost predicate Untouched(r: Req) {
    && r.reader == NotRead && r.replier == NotReplied
    && !r.locked && !r.sent && !r.private && !r.aborted && !r.finished
  }

  /** The reader has moved the request on to processing. */
  ghost predicate PastIo(r: Req) { r.reader in {SettingSent, TestingInterrupted, ReaderQueues, ReadDone} }

  ghost predicate PlaceOk(r: Req) {
    match r.on
    case Nowhere => r.finished || r.bailed || r.reader.InHand? || r.unlinked
    case OnBg => Untouched(r) && r.background && r.unique == 0 && r.error == 0 && r.isReply
    case OnPending => Untouched(r) && r.error == 0 && (r.isReply ==> r.unique != 0)
    case OnIo(d) => !r.private && !r.finished && Copied(r) && CopierDev(r) == d && (r.aborted ==> r.locked)
    case OnProcessing(_) =>
      && r.isReply && r.unique != 0 && r.error == 0 && !r.finished && r.replier == NotReplied
      && PastIo(r) && !r.locked && !r.private && !r.aborted
    case OnEnd1 => r.private && r.aborted && !r.locked
    case OnEnd2 => !r.finished && !r.locked && !r.private && !r.aborted && !Copied(r) && !r.reader.InHand?
  }

  ghost predicate CopierOk(r: Req) {
    && (r.reader.InHand? ==>
          r.on == Nowhere && !r.finished && !r.bailed && !r.locked && !r.aborted && !r.private && !r.sent
          && r.replier == NotReplied && r.error == 0 && (r.isReply ==> r.unique != 0))
    && (Copied(r) ==> r.on.OnIo? || r.private)
    && (r.reader.Reading? ==> r.replier == NotReplied && !r.sent && (r.isReply ==> r.unique != 0))
    && (r.reader.Reading? && !r.aborted ==> r.error == 0)
    && (r.replier.Copying? ==> r.isReply && r.unique != 0)
    && (r.locked ==> Copied(r))
    && (r.private ==> r.aborted && !r.locked)
    && (r.private && !r.finished ==> r.on == OnEnd1 && Copied(r))
    && (r.aborted ==> r.error == ECONNABORTED)
    && (r.replier == ReplyDone ==> r.finished)
  }

  ghost predicate EndOk(r: Req) {
    && (r.finished ==> r.on == Nowhere || r.on == OnEnd1)
    && (r.finished <==> r.ender != NotEnding)
    && (r.bailed ==> r.pending && r.on == Nowhere && Untouched(r) && r.waiter in {Returned, Gone})
    && (!r.bailed ==> (r.pending <==> r.on.OnBg? || r.on.OnPending?))
    && (r.background ==> r.isReply && r.waiter == NoWaiter && r.ender in {NotEnding, Removing, Accounting})
    && (r.ender == Accounting ==> r.background)
    && r.callbacks == (if r.ender == Ended then 1 else 0)
    && r.count == (if Holds(r) then 1 else 0) + (if QueueRef(r) then 1 else 0) + (if r.abortRef then 1 else 0)
    && (r.abortRef ==> r.finished && r.on == Nowhere)
    && (r.freed ==> !Holds(r) && !QueueRef(r) && !Copied(r))
    && (!r.abortRef ==> (r.freed <==> r.count == 0))
    && (Copied(r) && r.finished ==> r.abortRef)
    && (r.waiter in {TestingSent, WaiterQueues} ==> r.interrupted)
    && (r.interrupted ==> r.waiter !in {NoWaiter, Interruptible})
    && r.retired == (if !r.background && r.waiter == NoWaiter && r.isReply then 1 else 0)
    && (r.retired == 1 ==> r.ender in {CallingBack, Ended})
  }

  /** No other thread but those in end_requests is after a request that one of them has unlinked. */
  ghost predicate UnlinkedOk(r: Req) {
    r.unlinked ==>
      && r.on == Nowhere && r.error == ECONNABORTED && r.replier == NotReplied && !Copied(r) && !r.reader.InHand?
      && !r.aborted && !r.private && !r.locked && !r.abortRef && !r.bailed && !r.pending
  }

  /** After the reply or the end, FR_SENT is set exactly if the reader has set it since. */
  ghost predicate SentOk(r: Req) {
    && (Answered(r) ==> (r.sent <==> r.late))
    && (r.late ==> Answered(r))
  }

  /** What holds of one request at all times. */
  ghost predicate ReqOk(r: Req) { PlaceOk(r) && CopierOk(r) && EndOk(r) && SentOk(r) && UnlinkedOk(r) }

  /** The set-then-test handshake between the reader and the waiter; `queued` says that the request
      is on the interrupts list. */
  ghost predicate HandshakeOk(queued: bool, r: Req) {
    && (r.on.OnProcessing? ==> r.sent || r.reader == SettingSent)
    && (r.interrupted && r.sent && !r.finished && r.waiter !in {TestingSent, WaiterQueues} && r.reader == ReadDone ==>
          queued || r.intrUnique != 0)
    && (queued ==> r.ender in {NotEnding, Removing} && PastIo(r))
    && (r.sent || r.waiter == WaiterQueues ==> r.reader in {TestingInterrupted, ReaderQueues, ReadDone})
  }

  /** The `connected` flags of the connection, of its input queue, and of each device; and the devices whose
      file is closed. */
  datatype Flags = Flags(connected: bool, open: bool, devs: map<DevId, bool>, closed: set<DevId>)

  /** The device is known, and dead if the input queue is closed. */
  ghost predicate DeviceKnown(f: Flags, d: DevId) { d in f.devs && (!f.open ==> !f.devs[d]) }

  /** The devices a request names exist; a dead one has no processing list, and its replies are marked. */
  ghost predicate DeviceOk(f: Flags, r: Req) {
    && (r.on.OnIo? ==> r.on.dev in f.devs)
    && (r.on.OnProcessing? ==> r.on.dev in f.devs && f.devs[r.on.dev])
    && (r.reader.InHand? ==> DeviceKnown(f, r.reader.dev) && r.reader.dev !in f.closed)
    && (Copied(r) ==> DeviceKnown(f, CopierDev(r)) && CopierDev(r) !in f.closed && (r.aborted ==> !f.devs[CopierDev(r)]))
    && (f.connected ==> !r.aborted)
    && (r.replier.Copying? ==> r.replier.dev in f.devs && (!f.devs[r.replier.dev] ==> r.aborted))
  }

  /** A live connection has no private lists, and a closed queue has no lists that lead to it. */
  ghost predicate PlaceLive(f: Flags, p: Place) {
    && (f.connected ==> p != OnEnd1 && p != OnEnd2)
    && (!f.open ==> p == Nowhere || p == OnEnd1 || p == OnEnd2 || p.OnIo?)
  }

  ghost predicate RequestOk(f: Flags, queued: bool, r: Req) {
    ReqOk(r) && HandshakeOk(queued, r) && DeviceOk(f, r) && PlaceLive(f, r.on)
  }

  ghost predicate IdsBelow(ctr: nat, r: Req) {
    r.intrUnique <= ctr && (r.isReply ==> r.unique <= ctr)
  }

  /** No two IDs a reply can name are equal: request IDs of requests that expect a reply, and
      interrupt IDs. Zero names nothing. */
  ghost predicate Distinct(a: ReqId, ra: Req, b: ReqId, rb: Req) {
    && (a != b && ra.isReply && rb.isReply && ra.unique == rb.unique ==> ra.unique == 0)
    && (a != b && ra.intrUnique == rb.intrUnique ==> ra.intrUnique == 0)
    && (ra.isReply && ra.unique == rb.intrUnique ==> ra.unique == 0)
  }

  ghost predicate IdsAt(reqs: map<ReqId, Req>, ctr: nat, a: ReqId) {
    a in reqs ==> IdsBelow(ctr, reqs[a])
  }

  ghost predicate DistinctAt(reqs: map<ReqId, Req>, a: ReqId, b: ReqId) {
    a in reqs && b in reqs ==> Distinct(a, reqs[a], b, reqs[b])
  }

  ghost predicate UniqueOk(reqs: map<ReqId, Req>, ctr: nat) {
    && (forall a :: IdsAt(reqs, ctr, a))
    && (forall a, b :: DistinctAt(reqs, a, b))
  }

  /** The IDs that request id gets when it is written back as r: as before, or one of them new. */
  ghost predicate IdsFrom(reqs: map<ReqId, Req>, before: nat, id: ReqId, r: Req, ctr: nat) {
    var intr := if id in reqs then reqs[id].intrUnique else 0;
    && before <= ctr
    && (|| (id in reqs && r.isReply == reqs[id].isReply && r.unique == reqs[id].unique
            && (r.intrUnique == intr || before < r.intrUnique == ctr))
        || ((!r.isReply || r.unique == 0 || before < r.unique == ctr) && r.intrUnique == intr))
  }

  lemma PutUnique(reqs: map<ReqId, Req>, before: nat, id: ReqId, r: Req, ctr: nat)
    requires UniqueOk(reqs, before) && IdsFrom(reqs, before, id, r, ctr)
    ensures UniqueOk(reqs[id := r], ctr)
  {
    var reqs' := reqs[id := r];
    forall a, b ensures DistinctAt(reqs', a, b) {
      assert DistinctAt(reqs, a, b) && IdsAt(reqs, before, a) && IdsAt(reqs, before, b);
    }
    forall a ensures IdsAt(reqs', ctr, a) {
      assert IdsAt(reqs, before, a);
    }
  }

  /** A thread in end_requests may have the request: it is on a list that one goes through, or one has
      unlinked it. */
  ghost predicate Within(closed: set<DevId>, r: Req) {
    r.unlinked || r.on == OnEnd2 || (r.on.OnProcessing? && r.on.dev in closed)
  }

  /** Only end_requests and abort's splice disturb such a request. */
  ghost predicate Undisturbed(closed: set<DevId>, r: Req, after: Req) {
    && after.unlinked == r.unlinked && (r.finished ==> after.finished)
    && (Within(closed, r) ==> after.on == r.on && after.finished == r.finished)
  }

  /** What no section but the ones that flush a background request or account for its end, and those of
      end_requests, changes. */
  ghost predicate Keeps(closed: set<DevId>, r: Req, after: Req) {
    && after.isReply == r.isReply && after.unique == r.unique && after.background == r.background
    && r.on != OnBg && after.on != OnBg
    && (PastIo(r) ==> PastIo(after))
    && Undisturbed(closed, r, after)
  }

  // Each of them keeps the request consistent.

  lemma TakeOk(f: Flags, queued: bool, r: Req, d: DevId)
    requires RequestOk(f, queued, r)
    requires r.on == OnPending && d in f.devs && d !in f.closed && f.open
    ensures RequestOk(f, queued, Take(r, d))
    ensures Keeps(f.closed, r, Take(r, d))
  {
  }

  lemma OversizeOk(f: Flags, queued: bool, r: Req, setxattr: bool)
    requires RequestOk(f, queued, r)
    requires r.reader.InHand?
    ensures RequestOk(f, queued, Oversize(r, setxattr))
    ensures Keeps(f.closed, r, Oversize(r, setxattr))
  {
  }

  lemma StartCopyOk(f: Flags, queued: bool, r: Req)
    requires RequestOk(f, queued, r)
    requires r.reader.InHand?
    ensures RequestOk(f, queued, StartCopy(r))
    ensures Keeps(f.closed, r, StartCopy(r))
  {
  }

  lemma SetLockedOk(f: Flags, queued: bool, r: Req, locked: bool)
    requires RequestOk(f, queued, r)
    requires Copied(r)
    ensures RequestOk(f, queued, SetLocked(r, locked))
    ensures Keeps(f.closed, r, SetLocked(r, locked))
  {
  }

  lemma EndReadOk(f: Flags, queued: bool, r: Req, failed: bool)
    requires RequestOk(f, queued, r)
    requires r.reader.Reading? && r.reader.dev in f.devs
    ensures RequestOk(f, queued, EndRead(r, f.devs[r.reader.dev], failed))
    ensures Keeps(f.closed, r, EndRead(r, f.devs[r.reader.dev], failed))
  {
  }

  lemma ForegroundOk(f: Flags, unique: nat, isReply: bool, force: bool, noInterrupt: bool)
    requires f.open && unique != 0
    ensures var r := Foreground(unique, isReply, force, noInterrupt);
      RequestOk(f, false, r) && r.on != OnBg && !r.background && !r.unlinked
  {
  }

  lemma BackgroundOk(f: Flags)
    requires f.open
    ensures RequestOk(f, false, Background())
  {
  }

  lemma FlushedOk(f: Flags, queued: bool, r: Req, unique: nat)
    requires RequestOk(f, queued, r)
    requires r.on == OnBg && unique != 0
    ensures RequestOk(f, queued, Flushed(r, unique))
    ensures Undisturbed(f.closed, r, Flushed(r, unique))
  {
  }

  lemma DownOk(f: Flags, queued: bool, r: Req)
    requires RequestOk(f, queued, r)
    ensures RequestOk(f.(connected := false), queued, r)
  {
  }

  lemma DeviceSweptOk(f: Flags, queued: bool, r: Req, d: DevId)
    requires RequestOk(f, queued, r) && !f.connected && f.open && d in f.devs
    ensures RequestOk(f.(devs := f.devs[d := false]), queued, if r.on == OnIo(d) || r.on == OnProcessing(d) then AbortReq(r) else r)
  {
  }

  lemma ClosedOk(f: Flags, queued: bool, r: Req)
    requires RequestOk(f, queued, r) && !f.connected && (forall d :: d in f.devs ==> !f.devs[d]) && r.on != OnBg
    ensures RequestOk(f.(open := false), queued, if r.on == OnPending then AbortReq(r) else r)
  {
  }

  lemma InterruptOk(f: Flags, r: Req, u: nat)
    requires RequestOk(f, true, r)
    requires u != 0
    ensures RequestOk(f, false, Interrupt(r, u))
    ensures Keeps(f.closed, r, Interrupt(r, u))
  {
  }

  lemma RequeueOk(f: Flags, queued: bool, r: Req)
    requires RequestOk(f, queued, r) && PastIo(r)
    ensures RequestOk(f, queued || !r.finished, r)
    ensures Keeps(f.closed, r, r)
  {
  }

  lemma StartReplyOk(f: Flags, queued: bool, r: Req, d: DevId, error: int)
    requires RequestOk(f, queued, r)
    requires r.on == OnProcessing(d) && d !in f.closed
    ensures RequestOk(f, queued, StartReply(r, d, error))
    ensures Keeps(f.closed, r, StartReply(r, d, error))
  {
  }

  lemma EndReplyOk(f: Flags, queued: bool, r: Req, failed: bool)
    requires RequestOk(f, queued, r)
    requires r.replier.Copying? && r.replier.dev in f.devs
    ensures RequestOk(f, queued, EndReply(r, f.devs[r.replier.dev], failed))
    ensures Keeps(f.closed, r, EndReply(r, f.devs[r.replier.dev], failed))
  {
  }

  lemma DieOk(f: Flags, queued: bool, r: Req)
    requires RequestOk(f, queued, r)
    requires r.waiter == Killable
    ensures RequestOk(f, queued, Die(r))
    ensures Keeps(f.closed, r, Die(r))
  {
  }

  lemma EndPrivateOk(f: Flags, queued: bool, r: Req)
    requires RequestOk(f, queued, r)
    requires r.on == OnEnd1
    ensures RequestOk(f, queued, EndPrivate(r))
    ensures Keeps(f.closed, r, EndPrivate(r))
  {
  }

  lemma UnlinkOk(f: Flags, queued: bool, r: Req)
    requires RequestOk(f, queued, r) && Within(f.closed, r)
    ensures RequestOk(f, queued, Unlink(r))
    ensures PastIo(r) == PastIo(Unlink(r)) && r.on != OnBg
  {
  }

  lemma EndUnlinkedOk(f: Flags, queued: bool, r: Req)
    requires RequestOk(f, queued, r) && r.unlinked
    ensures RequestOk(f, queued, StartEnd(r))
  {
  }

  /** No thread is in a read or a write of the device with the request. */
  ghost predicate Away(r: Req, d: DevId) { r.reader != InHand(d) && r.reader != Reading(d) && r.replier != Copying(d) }

  /** The file of a device is closed only when no thread reads from it or writes to it. */
  lemma DeviceClosedOk(f: Flags, queued: bool, r: Req, d: DevId)
    requires RequestOk(f, queued, r)
    requires Away(r, d)
    ensures RequestOk(f.(closed := f.closed + {d}), queued, r)
  {
  }

  lemma SentStepOk(f: Flags, queued: bool, r: Req)
    requires RequestOk(f, queued, r)
    requires r.reader == SettingSent
    ensures RequestOk(f, queued, Sent(r))
    ensures Keeps(f.closed, r, Sent(r))
  {
  }

  lemma TestedInterruptedOk(f: Flags, queued: bool, r: Req)
    requires RequestOk(f, queued, r)
    requires r.reader == TestingInterrupted
    ensures RequestOk(f, queued, TestedInterrupted(r))
    ensures Keeps(f.closed, r, TestedInterrupted(r))
  {
  }

  lemma ReaderQueuedOk(f: Flags, queued: bool, r: Req)
    requires RequestOk(f, queued, r)
    requires r.reader == ReaderQueues
    ensures RequestOk(f, queued || !r.finished, r.(reader := ReadDone))
    ensures Keeps(f.closed, r, r.(reader := ReadDone))
  {
  }

  lemma SignalledOk(f: Flags, queued: bool, r: Req)
    requires RequestOk(f, queued, r)
    requires r.waiter == Interruptible
    ensures RequestOk(f, queued, Signalled(r))
    ensures Keeps(f.closed, r, Signalled(r))
  {
  }

  lemma TestedSentOk(f: Flags, queued: bool, r: Req)
    requires RequestOk(f, queued, r)
    requires r.waiter == TestingSent
    ensures RequestOk(f, queued, TestedSent(r))
    ensures Keeps(f.closed, r, TestedSent(r))
  {
  }

  lemma WaiterQueuedOk(f: Flags, queued: bool, r: Req)
    requires RequestOk(f, queued, r)
    requires r.waiter == WaiterQueues
    ensures RequestOk(f, queued || !r.finished, r.(waiter := SecondWait(r.force)))
    ensures Keeps(f.closed, r, r.(waiter := SecondWait(r.force)))
  {
  }

  lemma RemovedOk(f: Flags, queued: bool, r: Req)
    requires RequestOk(f, queued, r)
    requires r.ender == Removing
    ensures RequestOk(f, false, Removed(r))
    ensures Keeps(f.closed, r, Removed(r))
  {
  }

  lemma AccountedOk(f: Flags, queued: bool, r: Req)
    requires RequestOk(f, queued, r)
    requires r.ender == Accounting
    ensures RequestOk(f, queued, Accounted(r))
    ensures Undisturbed(f.closed, r, Accounted(r))
  {
  }

  lemma CalledBackOk(f: Flags, queued: bool, r: Req)
    requires RequestOk(f, queued, r)
    requires r.ender == CallingBack
    ensures RequestOk(f, queued, CalledBack(r))
    ensures Keeps(f.closed, r, CalledBack(r))
  {
  }

  lemma ReturnedOk(f: Flags, queued: bool, r: Req)
    requires RequestOk(f, queued, r)
    requires r.finished && r.waiter in {Interruptible, Killable, Uninterruptible}
    ensures RequestOk(f, queued, r.(waiter := Returned))
    ensures Keeps(f.closed, r, r.(waiter := Returned))
  {
  }

  lemma ReleasedOk(f: Flags, queued: bool, r: Req)
    requires RequestOk(f, queued, r)
    requires r.waiter == Returned
    ensures RequestOk(f, queued, Released(r))
    ensures Keeps(f.closed, r, Released(r))
  {
  }
}
