/**
 The FUSE request engine of old/fuse/dev.c as a state machine over lock-held sections: every
 function that takes a `Conn` is one section, and `Next` lets the sections of any number of
 submitters, device readers, repliers and one abort follow each other in any order. A thread that holds
 fc->lock while it takes and releases the other locks keeps out only those that need fc->lock.
 */
module RequestEngine {
  import opened Lists
  import opened Errno
  import opened Requests
  import opened RequestQueues
  import ForgetQueue
  import ReadSchedule

  const UINT_MAX := 0xFFFF_FFFF

  type ForgetOne = ForgetQueue.ForgetOne

  /** The background scheduler. `submitted` and `flushed` are histories: what was put on bg_queue and
      what flush_bg_queue has taken off it. */
  datatype Sched = Sched(
    maxBackground: nat, numBackground: int, activeBackground: int, blocked: bool,
    submitted: seq<ReqId>, flushed: seq<ReqId>)

  /** Who holds fc->lock from one section to the next. */
  datatype Lock =
    | Unheld
    | Flushing(id: ReqId)              // flush_bg_queue, by the submitter or the ender of this request
    | Sweeping(todo: set<DevId>)       // fuse_abort_conn in its loop over the devices
    | LastFlush                        // its flush_bg_queue
    | Closing                          // before it takes fiq->waitq.lock

  predicate Aborting(l: Lock) { l.Sweeping? || l == LastFlush || l == Closing }

  /** Who calls end_requests: fuse_abort_conn for its to_end2, or fuse_dev_release for the processing list of
      its device, without a lock. */
  datatype Picker = ByAbort | ByRelease(dev: DevId)

  /** The request that a loop of end_requests works on, and whether it has unlinked it. */
  datatype Grip = Grip(id: ReqId, unlinked: bool)

  /** `connected` is fc->connected, `open` is fiq->connected. `requeuers` are the requests that writers of
      an interrupt reply of -EAGAIN still point to after they have released fpq->lock, `closed` the devices
      whose file is closed, and `picked` what the loops of end_requests point to. */
  datatype Conn = Conn(
    connected: bool, open: bool, lock: Lock,
    q: Queues,
    reqs: map<ReqId, Req>,
    devs: map<DevId, bool>,                   // each device's fpq->connected
    reqctr: nat, interrupts: seq<ReqId>, noInterrupt: bool, requeuers: multiset<ReqId>,
    closed: set<DevId>, picked: map<Picker, Grip>,
    forgets: seq<ForgetOne>, forgetBatch: int,
    sched: Sched)

  function Init(maxBackground: nat): Conn {
    Conn(true, true, Unheld, Empty, map[], map[], 0, [], false, multiset{}, {}, map[], [], 0, Sched(maxBackground, 0, 0, false, [], []))
  }

  function FlagsOf(s: Conn): Flags { Flags(s.connected, s.open, s.devs, s.closed) }

  /** Writes the request back and, when its node changes lists, moves the node. */
  function Put(s: Conn, id: ReqId, r: Req): Conn {
    s.(q := Move(s.q, id, PlaceOf(s.reqs, id), r.on), reqs := s.reqs[id := r])
  }

  // ---------------------------------------------------------------- submission

  /** __fuse_request_send up to the wait; an unconnected queue leaves everything as it was. */
  function SendForeground(s: Conn, id: ReqId, isReply: bool, force: bool): Conn {
    if !s.open then s
    else Put(s, id, Foreground(s.reqctr + 1, isReply, force, s.noInterrupt)).(reqctr := s.reqctr + 1)
  }

  /** fuse_request_send_notify_reply: the server chose the unique ID and no reply is expected. */
  function SendNotify(s: Conn, id: ReqId, unique: nat): Conn {
    if !s.open then s
    else Put(s, id, Notify(unique))
  }

  /** The counters when flush_bg_queue takes request id off bg_queue. */
  function Activate(c: Sched, id: ReqId): Sched {
    c.(activeBackground := c.activeBackground + 1, flushed := c.flushed + [id])
  }

  /** The counters when request id is put on bg_queue. */
  function Admit(c: Sched, id: ReqId): Sched {
    c.(numBackground := c.numBackground + 1,
       blocked := if c.numBackground + 1 == c.maxBackground then true else c.blocked,
       submitted := c.submitted + [id])
  }

  /** The counters when a background request ends. */
  function Retire(c: Sched): Sched {
    c.(blocked := if c.numBackground == c.maxBackground then false else c.blocked,
       numBackground := c.numBackground - 1, activeBackground := c.activeBackground - 1)
  }

  /** One iteration of flush_bg_queue. */
  function FlushOne(s: Conn): Conn
    requires s.q.bg != [] && s.q.bg[0] in s.reqs
  {
    var id := s.q.bg[0];
    var r := Flushed(s.reqs[id], s.reqctr + 1);
    Conn(s.connected, s.open, s.lock, Move(s.q, id, s.reqs[id].on, r.on), s.reqs[id := r], s.devs, s.reqctr + 1, s.interrupts,
         s.noInterrupt, s.requeuers, s.closed, s.picked, s.forgets, s.forgetBatch, Activate(s.sched, id))
  }

  /** All of flush_bg_queue, if no other thread runs in between. */
  function Flush(s: Conn): Conn
    requires forall id :: id in s.q.bg ==> id in s.reqs && s.reqs[id].on == OnBg
    decreases s.sched.maxBackground - s.sched.activeBackground
  {
    if s.sched.activeBackground < s.sched.maxBackground && s.q.bg != [] then Flush(FlushOne(s)) else s
  }

  predicate CanFlush(s: Conn) { s.sched.activeBackground < s.sched.maxBackground && s.q.bg != [] }

  /** The next turn of flush_bg_queue, or its end. */
  function FlushTurn(s: Conn): Conn
    requires s.q.bg != [] ==> s.q.bg[0] in s.reqs
  {
    if CanFlush(s) then FlushOne(s) else s.(lock := if s.lock == LastFlush then Closing else Unheld)
  }

  /** The part of fuse_request_send_background_locked before the flush. */
  function Enqueue(s: Conn, id: ReqId): Conn {
    Conn(s.connected, s.open, s.lock, Move(s.q, id, PlaceOf(s.reqs, id), OnBg), s.reqs[id := Background()], s.devs, s.reqctr,
         s.interrupts, s.noInterrupt, s.requeuers, s.closed, s.picked, s.forgets, s.forgetBatch, Admit(s.sched, id))
  }

  /** fuse_request_send_background up to its flush. */
  function SendBackground(s: Conn, id: ReqId): Conn {
    if !s.connected then s else Enqueue(s, id).(lock := Flushing(id))
  }

  function QueueForget(s: Conn, f: ForgetOne): Conn {
    if s.open then s.(forgets := s.forgets + [f]) else s
  }

  // ---------------------------------------------------------------- the reader of the device

  function ReadChoice(s: Conn): (ReadSchedule.Choice, int) {
    ReadSchedule.Dispatch(s.interrupts != [], s.forgets != [], s.q.pending != [], s.forgetBatch)
  }

  /** fuse_read_interrupt: the interrupt leaves its list with a new ID of its own. */
  function Deliver(s: Conn, id: ReqId): Conn
    requires id in s.reqs
  {
    Put(s, id, Interrupt(s.reqs[id], s.reqctr + 1))
      .(interrupts := Without(s.interrupts, id), reqctr := s.reqctr + 1)
  }

  /** The first pending request is taken off the list. */
  function ReadRequest(s: Conn, dev: DevId): Conn
    requires s.q.pending != [] && s.q.pending[0] in s.reqs
  {
    Put(s, s.q.pending[0], Take(s.reqs[s.q.pending[0]], dev))
  }

  /** The locked part of fuse_dev_do_read; `max` bounds how many forgets one batch can carry. */
  function Read(s: Conn, dev: DevId, max: nat): Conn
    requires forall id :: id in s.interrupts || id in s.q.pending ==> id in s.reqs
  {
    if !s.open then s
    else
      var (c, b) := ReadChoice(s);
      match c
      case Wait => s
      case Interrupt => Deliver(s, s.interrupts[0])
      case Forget =>
        var n := if max <= |s.forgets| then max else |s.forgets|;
        s.(forgets := s.forgets[n..], forgetBatch := b, reqctr := s.reqctr + 1)
      case Request => ReadRequest(s, dev).(forgetBatch := b)
  }

  /** The request is too large for the reader's buffer. */
  function TooLarge(s: Conn, id: ReqId, setxattr: bool): Conn
    requires id in s.reqs
  {
    Put(s, id, Oversize(s.reqs[id], setxattr))
  }

  function AddIo(s: Conn, id: ReqId): Conn
    requires id in s.reqs && s.reqs[id].reader.InHand?
  {
    Put(s, id, StartCopy(s.reqs[id]))
  }

  /** lock_request and unlock_request. */
  function LockRequest(s: Conn, id: ReqId, locked: bool): Conn
    requires id in s.reqs
  {
    Put(s, id, SetLocked(s.reqs[id], locked))
  }

  /** fpq->connected. */
  predicate Alive(s: Conn, d: DevId) { d in s.devs && s.devs[d] }

  /** The tail of fuse_dev_do_read after the copy, which `failed` or not. */
  function FinishRead(s: Conn, id: ReqId, failed: bool): Conn
    requires id in s.reqs && s.reqs[id].reader.Reading?
  {
    Put(s, id, EndRead(s.reqs[id], Alive(s, s.reqs[id].reader.dev), failed))
  }

  function SetSent(s: Conn, id: ReqId): Conn
    requires id in s.reqs
  {
    Put(s, id, Sent(s.reqs[id]))
  }

  function QueueInterrupt(s: Conn, id: ReqId): Conn
    requires id in s.reqs
  {
    if s.reqs[id].finished || id in s.interrupts then s
    else s.(interrupts := s.interrupts + [id])
  }

  function TestInterrupted(s: Conn, id: ReqId): Conn
    requires id in s.reqs
  {
    Put(s, id, TestedInterrupted(s.reqs[id]))
  }

  /** The reader's queue_interrupt. */
  function ReaderQueue(s: Conn, id: ReqId): Conn
    requires id in s.reqs
  {
    QueueInterrupt(Put(s, id, s.reqs[id].(reader := ReadDone)), id)
  }

  // ---------------------------------------------------------------- the writer of the reply

  datatype Found = NotFound | Found(id: ReqId)

  /** request_find: the first request on the list whose ID or interrupt ID is u. */
  function RequestFind(reqs: map<ReqId, Req>, processing: seq<ReqId>, u: nat): (f: Found)
    requires forall id :: id in processing ==> id in reqs
    ensures f.Found? ==> f.id in processing && Matches(reqs[f.id], u)
    ensures f.NotFound? ==> forall id :: id in processing ==> !Matches(reqs[id], u)
  {
    if processing == [] then NotFound
    else if Matches(reqs[processing[0]], u) then Found(processing[0])
    else
      assert processing == [processing[0]] + processing[1..];
      RequestFind(reqs, processing[1..], u)
  }

  /** A reply names request id, by its interrupt ID or by its own. The queue_interrupt that an interrupt
      reply may ask for comes after the release of fpq->lock. */
  function ReplyFound(s: Conn, d: DevId, id: ReqId, u: nat, error: int, headerOnly: bool): Conn
    requires id in s.reqs
  {
    if s.reqs[id].intrUnique == u then
      if !headerOnly then s
      else if error == ENOSYS then s.(noInterrupt := true)
      else if error == EAGAIN then s.(requeuers := s.requeuers + multiset{id})
      else s
    else Put(s, id, StartReply(s.reqs[id], d, error))
  }

  /** The locked part of fuse_dev_do_write for a header with unique ID u (0 announces a
      notification); `headerOnly` says that the message ends after the header. */
  function Reply(s: Conn, d: DevId, u: nat, error: int, headerOnly: bool): Conn
    requires d in s.q.processing && forall id :: id in s.q.processing[d] ==> id in s.reqs
  {
    if u == 0 || error <= -1000 || error > 0 || !Alive(s, d) then s
    else
      match RequestFind(s.reqs, s.q.processing[d], u)
      case NotFound => s
      case Found(id) => ReplyFound(s, d, id, u, error, headerOnly)
  }

  /** The queue_interrupt of an interrupt reply. */
  function Requeue(s: Conn, id: ReqId): Conn
    requires id in s.reqs
  {
    QueueInterrupt(s.(requeuers := s.requeuers - multiset{id}), id)
  }

  /** The tail of fuse_dev_do_write after copy_out_args, which `failed` or not. */
  function FinishReply(s: Conn, id: ReqId, failed: bool): Conn
    requires id in s.reqs && s.reqs[id].replier.Copying?
  {
    Put(s, id, EndReply(s.reqs[id], Alive(s, s.reqs[id].replier.dev), failed))
  }

  // ---------------------------------------------------------------- the body of request_end

  function EndRemove(s: Conn, id: ReqId): Conn
    requires id in s.reqs
  {
    Put(s, id, Removed(s.reqs[id]))
      .(interrupts := Without(s.interrupts, id))
  }

  /** The fc->lock section of request_end, before its flush_bg_queue. */
  function Account(s: Conn, id: ReqId): Conn
    requires id in s.reqs
  {
    Put(s, id, Accounted(s.reqs[id])).(sched := Retire(s.sched))
  }

  /** Its flush_bg_queue follows. */
  function EndAccount(s: Conn, id: ReqId): Conn
    requires id in s.reqs
  {
    Account(s, id).(lock := Flushing(id))
  }

  /** wake_up, the `end` callback and fuse_put_request. */
  function EndCallback(s: Conn, id: ReqId): Conn
    requires id in s.reqs
  {
    Put(s, id, CalledBack(s.reqs[id]))
  }

  // ---------------------------------------------------------------- request_wait_answer

  function Signal(s: Conn, id: ReqId): Conn
    requires id in s.reqs
  {
    Put(s, id, Signalled(s.reqs[id]))
  }

  function TestSent(s: Conn, id: ReqId): Conn
    requires id in s.reqs
  {
    Put(s, id, TestedSent(s.reqs[id]))
  }

  /** The waiter's queue_interrupt. */
  function WaiterQueue(s: Conn, id: ReqId): Conn
    requires id in s.reqs
  {
    QueueInterrupt(Put(s, id, s.reqs[id].(waiter := SecondWait(s.reqs[id].force))), id)
  }

  /** A fatal signal. */
  function Kill(s: Conn, id: ReqId): Conn
    requires id in s.reqs
  {
    Put(s, id, Die(s.reqs[id]))
  }

  function Return(s: Conn, id: ReqId): Conn
    requires id in s.reqs
  {
    Put(s, id, s.reqs[id].(waiter := Returned))
  }

  /** The submitter's fuse_put_request. */
  function Release(s: Conn, id: ReqId): Conn
    requires id in s.reqs
  {
    Put(s, id, Released(s.reqs[id]))
  }

  // ---------------------------------------------------------------- abort and release

  /** fuse_abort_conn takes fc->lock and finds the connection up. */
  function AbortBegin(s: Conn): Conn {
    if !s.connected then s
    else s.(connected := false, lock := Sweeping(s.devs.Keys), sched := s.sched.(blocked := false))
  }

  predicate OnDevice(p: Place, d: DevId) { p == OnIo(d) || p == OnProcessing(d) }

  /** One turn of the loop over the devices, under fpq->lock. */
  function AbortDevice(s: Conn, d: DevId): Conn
    requires s.lock.Sweeping? && d in s.q.io && d in s.q.processing
  {
    s.(reqs := map id | id in s.reqs :: if OnDevice(s.reqs[id].on, d) then AbortReq(s.reqs[id]) else s.reqs[id],
       devs := s.devs[d := false], lock := Sweeping(s.lock.todo - {d}),
       q := Queues(
         s.q.bg, s.q.pending,
         s.q.io[d := set id | id in s.q.io[d] && id in s.reqs && s.reqs[id].locked],
         s.q.processing[d := []],
         s.q.end1 + (set id | id in s.reqs && s.reqs[id].on == OnIo(d) && !s.reqs[id].locked),
         s.q.end2 + (set id | id in s.reqs && s.reqs[id].on == OnProcessing(d))))
  }

  function Unlimited(c: Sched): Sched { c.(blocked := false, maxBackground := UINT_MAX) }

  /** The loop is through; the last flush_bg_queue begins. */
  function AbortFlush(s: Conn): Conn { s.(lock := LastFlush, sched := Unlimited(s.sched)) }

  /** The section under fiq->waitq.lock, after which fc->lock is released. */
  function AbortClose(s: Conn): Conn {
    s.(open := false, lock := Unheld, forgets := [],
       reqs := map id | id in s.reqs :: if s.reqs[id].on == OnPending then AbortReq(s.reqs[id]) else s.reqs[id],
       q := s.q.(pending := [], end2 := s.q.end2 + set id | id in s.reqs && s.reqs[id].on == OnPending))
  }

  /** Everything fuse_abort_conn does to the requests once bg_queue is flushed. */
  function Sweep(s: Conn): Conn {
    s.(connected := false, open := false, forgets := [],
       devs := map d | d in s.devs :: false,
       q := Queues(
         s.q.bg, [],
         map d | d in s.q.io :: (set id | id in s.q.io[d] && id in s.reqs && s.reqs[id].locked),
         map d | d in s.q.processing :: [],
         s.q.end1 + (set id | id in s.reqs && s.reqs[id].on.OnIo? && !s.reqs[id].locked),
         s.q.end2 + (set id | id in s.reqs && (s.reqs[id].on.OnProcessing? || s.reqs[id].on.OnPending?))),
       reqs := map id | id in s.reqs :: AbortReq(s.reqs[id]))
  }

  /** The locked part of fuse_abort_conn, if no other thread runs in between. */
  function Abort(s: Conn): Conn
    requires forall id :: id in s.q.bg ==> id in s.reqs && s.reqs[id].on == OnBg
  {
    if !s.connected then s else Sweep(Flush(s.(sched := Unlimited(s.sched))))
  }

  /** fuse_abort_conn ends one request of to_end1, with an extra reference. */
  function AbortEnd1(s: Conn, id: ReqId): Conn
    requires id in s.reqs
  {
    Put(s, id, EndPrivate(s.reqs[id]))
  }

  /** The last reference to the file of a device is gone: fuse_dev_release begins. */
  function CloseDevice(s: Conn, d: DevId): Conn { s.(closed := s.closed + {d}) }

  /** end_requests takes the first request of its list. */
  function Pick(s: Conn, p: Picker, id: ReqId): Conn { s.(picked := s.picked[p := Grip(id, false)]) }

  /** It stores the error, clears FR_SENT and unlinks the request. */
  function UnlinkPicked(s: Conn, p: Picker): Conn
    requires p in s.picked && s.picked[p].id in s.reqs
  {
    var id := s.picked[p].id;
    Put(s, id, Unlink(s.reqs[id])).(picked := s.picked[p := Grip(id, true)])
  }

  /** It calls request_end. */
  function EndPicked(s: Conn, p: Picker): Conn
    requires p in s.picked && s.picked[p].id in s.reqs
  {
    var id := s.picked[p].id;
    Put(s, id, StartEnd(s.reqs[id])).(picked := s.picked - {p})
  }

  /** A turn of the loop in end_requests, if no other thread runs in between. */
  function EndOne(s: Conn, p: Picker, id: ReqId): Conn
    requires id in s.reqs
  {
    EndPicked(UnlinkPicked(Pick(s, p, id), p), p)
  }

  /** fuse_dev_alloc, by mount or by fuse_device_clone. */
  function AddDevice(s: Conn, d: DevId): Conn {
    s.(devs := s.devs[d := true], q := s.q.(io := s.q.io[d := {}], processing := s.q.processing[d := []]))
  }

  // ---------------------------------------------------------------- events and runs

  ghost predicate InterruptsOk(interrupts: seq<ReqId>, reqs: map<ReqId, Req>) {
    NoDup(interrupts) && forall id :: id in interrupts ==> id in reqs
  }

  /** What threads still point to has been read by userspace. */
  ghost predicate RequeuersOk(requeuers: multiset<ReqId>, reqs: map<ReqId, Req>) {
    forall id :: id in requeuers ==> id in reqs && PastIo(reqs[id])
  }

  ghost predicate GripsNamed(picked: map<Picker, Grip>, reqs: map<ReqId, Req>) {
    forall p :: p in picked ==> picked[p].id in reqs
  }

  /** Every list and every pointer names a request. */
  ghost predicate Named(s: Conn) {
    && Located(s.q, s.reqs) && InterruptsOk(s.interrupts, s.reqs) && RequeuersOk(s.requeuers, s.reqs)
    && GripsNamed(s.picked, s.reqs)
    && s.q.io.Keys == s.devs.Keys && s.q.processing.Keys == s.devs.Keys
  }

  datatype Event =
    | ESendForeground(id: ReqId, isReply: bool, force: bool)
    | ESendBackground(id: ReqId)
    | ESendNotify(id: ReqId, unique: nat)
    | EQueueForget(f: ForgetOne)
    | ERead(dev: DevId, max: nat)
    | ETooLarge(id: ReqId, setxattr: bool)
    | EAddIo(id: ReqId)
    | ELockRequest(id: ReqId, locked: bool)
    | EFinishRead(id: ReqId, failed: bool)
    | ESetSent(id: ReqId)
    | ETestInterrupted(id: ReqId)
    | EReaderQueue(id: ReqId)
    | EReply(dev: DevId, unique: nat, error: int, headerOnly: bool)
    | ERequeue(id: ReqId)
    | EFinishReply(id: ReqId, failed: bool)
    | EEndRemove(id: ReqId)
    | EEndAccount(id: ReqId)
    | EEndCallback(id: ReqId)
    | EFlushTurn
    | ESignal(id: ReqId)
    | ETestSent(id: ReqId)
    | EWaiterQueue(id: ReqId)
    | EKill(id: ReqId)
    | EReturn(id: ReqId)
    | ERelease(id: ReqId)
    | EAbortBegin
    | EAbortDevice(dev: DevId)
    | EAbortFlush
    | EAbortClose
    | EAbortEnd1(id: ReqId)
    | EAbortPick(id: ReqId)
    | ECloseDevice(dev: DevId)
    | EReleasePick(dev: DevId)
    | EUnlinkPicked(picker: Picker)
    | EEndPicked(picker: Picker)
    | EAddDevice(dev: DevId)

  /** No thread is in a read or a write of the device with a request that the device still has. */
  ghost predicate Quiet(s: Conn, d: DevId) {
    forall id :: id in s.reqs ==> Away(s.reqs[id], d) && (s.reqs[id].on == OnProcessing(d) ==> s.reqs[id].reader == ReadDone)
  }

  /** Which section can run next: a thread runs only the section it stands at, fc->lock has one holder, a
      new request is a fresh object, and the unsigned background counter does not wrap. */
  ghost predicate Enabled(s: Conn, e: Event) {
    match e
    case ESendForeground(id, _, _) => id !in s.reqs
    case ESendBackground(id) => s.lock == Unheld && id !in s.reqs && s.sched.numBackground + 1 < UINT_MAX
    case ESendNotify(id, _) => id !in s.reqs
    case EQueueForget(_) => true
    case ERead(d, _) => d in s.devs && d !in s.closed
    case ETooLarge(id, _) => id in s.reqs && s.reqs[id].reader.InHand?
    case EAddIo(id) => id in s.reqs && s.reqs[id].reader.InHand?
    case ELockRequest(id, _) => id in s.reqs && Copied(s.reqs[id])
    case EFinishRead(id, _) => id in s.reqs && s.reqs[id].reader.Reading?
    case ESetSent(id) => id in s.reqs && s.reqs[id].reader == SettingSent
    case ETestInterrupted(id) => id in s.reqs && s.reqs[id].reader == TestingInterrupted
    case EReaderQueue(id) => id in s.reqs && s.reqs[id].reader == ReaderQueues
    case EReply(d, _, _, _) => d in s.q.processing && d !in s.closed
    case ERequeue(id) => id in s.requeuers
    case EFinishReply(id, _) => id in s.reqs && s.reqs[id].replier.Copying?
    case EEndRemove(id) => id in s.reqs && s.reqs[id].ender == Removing
    case EEndAccount(id) => s.lock == Unheld && id in s.reqs && s.reqs[id].ender == Accounting
    case EEndCallback(id) => id in s.reqs && s.reqs[id].ender == CallingBack && s.lock != Flushing(id)
    case EFlushTurn => s.lock.Flushing? || s.lock == LastFlush
    case ESignal(id) => id in s.reqs && s.reqs[id].waiter == Interruptible
    case ETestSent(id) => id in s.reqs && s.reqs[id].waiter == TestingSent
    case EWaiterQueue(id) => id in s.reqs && s.reqs[id].waiter == WaiterQueues
    case EKill(id) => id in s.reqs && s.reqs[id].waiter == Killable
    case EReturn(id) =>
      id in s.reqs && s.reqs[id].finished && s.reqs[id].waiter in {Interruptible, Killable, Uninterruptible}
    case ERelease(id) => id in s.reqs && s.reqs[id].waiter == Returned
    case EAbortBegin => s.lock == Unheld
    case EAbortDevice(d) => s.lock.Sweeping? && d in s.lock.todo && d in s.devs
    case EAbortFlush => s.lock == Sweeping({})
    case EAbortClose => s.lock == Closing
    case EAbortEnd1(id) => !Aborting(s.lock) && id in s.q.end1
    case EAbortPick(id) => !Aborting(s.lock) && id in s.q.end2 && ByAbort !in s.picked
    case ECloseDevice(d) => d in s.devs && d !in s.closed && Quiet(s, d)
    case EReleasePick(d) => d in s.closed && d in s.q.processing && s.q.processing[d] != [] && ByRelease(d) !in s.picked
    case EUnlinkPicked(p) => p in s.picked && !s.picked[p].unlinked
    case EEndPicked(p) => p in s.picked && s.picked[p].unlinked
    case EAddDevice(d) => s.lock == Unheld && d !in s.devs
  }

  /** A request that a thread waits for, or that answers a notification. */
  predicate IsSend(e: Event) { e.ESendForeground? || e.ESendNotify? }

  ghost function SendStep(s: Conn, e: Event): Conn
    requires Named(s) && Enabled(s, e) && IsSend(e)
  {
    match e
    case ESendForeground(id, isReply, force) => SendForeground(s, id, isReply, force)
    case ESendNotify(id, unique) => SendNotify(s, id, unique)
  }

  /** Background requests and forgets. */
  predicate IsEnqueue(e: Event) { e.ESendBackground? || e.EQueueForget? }

  ghost function EnqueueStep(s: Conn, e: Event): Conn
    requires Named(s) && Enabled(s, e) && IsEnqueue(e)
  {
    match e
    case ESendBackground(id) => SendBackground(s, id)
    case EQueueForget(f) => QueueForget(s, f)
  }

  /** The reader of the device takes something. */
  predicate IsTake(e: Event) { e.ERead? || e.ETooLarge? }

  ghost function TakeStep(s: Conn, e: Event): Conn
    requires Named(s) && Enabled(s, e) && IsTake(e)
  {
    Members(s.q, s.reqs);
    match e
    case ERead(dev, max) => Read(s, dev, max)
    case ETooLarge(id, setxattr) => TooLarge(s, id, setxattr)
  }

  /** The copy of a request or a reply. */
  predicate IsCopy(e: Event) { e.EAddIo? || e.ELockRequest? }

  ghost function CopyStep(s: Conn, e: Event): Conn
    requires Named(s) && Enabled(s, e) && IsCopy(e)
  {
    match e
    case EAddIo(id) => AddIo(s, id)
    case ELockRequest(id, locked) => LockRequest(s, id, locked)
  }

  /** The end of the copy. */
  predicate IsFinish(e: Event) { e.EFinishRead? || e.EFinishReply? }

  ghost function FinishStep(s: Conn, e: Event): Conn
    requires Named(s) && Enabled(s, e) && IsFinish(e)
  {
    match e
    case EFinishRead(id, failed) => FinishRead(s, id, failed)
    case EFinishReply(id, failed) => FinishReply(s, id, failed)
  }

  /** The reader of the device after the move to processing. */
  predicate IsSent(e: Event) { e.ESetSent? || e.ETestInterrupted? }

  ghost function SentStep(s: Conn, e: Event): Conn
    requires Named(s) && Enabled(s, e) && IsSent(e)
  {
    match e
    case ESetSent(id) => SetSent(s, id)
    case ETestInterrupted(id) => TestInterrupted(s, id)
  }

  /** A signal ends the interruptible wait. */
  predicate IsSignal(e: Event) { e.ESignal? || e.ETestSent? }

  ghost function SignalStep(s: Conn, e: Event): Conn
    requires Named(s) && Enabled(s, e) && IsSignal(e)
  {
    match e
    case ESignal(id) => Signal(s, id)
    case ETestSent(id) => TestSent(s, id)
  }

  /** The calls of queue_interrupt. */
  predicate IsQueue(e: Event) { e.EReaderQueue? || e.EWaiterQueue? || e.ERequeue? }

  ghost function QueueStep(s: Conn, e: Event): Conn
    requires Named(s) && Enabled(s, e) && IsQueue(e)
  {
    Members(s.q, s.reqs);
    match e
    case EReaderQueue(id) => ReaderQueue(s, id)
    case EWaiterQueue(id) => WaiterQueue(s, id)
    case ERequeue(id) => Requeue(s, id)
  }

  /** The writer of a reply. */
  predicate IsReply(e: Event) { e.EReply? }

  ghost function ReplyStep(s: Conn, e: Event): Conn
    requires Named(s) && Enabled(s, e) && IsReply(e)
  {
    Members(s.q, s.reqs);
    match e
    case EReply(dev, unique, error, headerOnly) => Reply(s, dev, unique, error, headerOnly)
  }

  /** The first and the last section of request_end. */
  predicate IsEnd(e: Event) { e.EEndRemove? || e.EEndCallback? }

  ghost function EndStep(s: Conn, e: Event): Conn
    requires Named(s) && Enabled(s, e) && IsEnd(e)
  {
    match e
    case EEndRemove(id) => EndRemove(s, id)
    case EEndCallback(id) => EndCallback(s, id)
  }

  /** The one between them, and flush_bg_queue. */
  predicate IsFlush(e: Event) { e.EEndAccount? || e.EFlushTurn? }

  ghost function FlushStep(s: Conn, e: Event): Conn
    requires Named(s) && Enabled(s, e) && IsFlush(e)
  {
    Members(s.q, s.reqs);
    match e
    case EEndAccount(id) => EndAccount(s, id)
    case EFlushTurn => FlushTurn(s)
  }

  /** The rest of the wait. */
  predicate IsWait(e: Event) { e.EKill? || e.EReturn? }

  ghost function WaitStep(s: Conn, e: Event): Conn
    requires Named(s) && Enabled(s, e) && IsWait(e)
  {
    match e
    case EKill(id) => Kill(s, id)
    case EReturn(id) => Return(s, id)
  }

  /** The submitter's fuse_put_request. */
  predicate IsRelease(e: Event) { e.ERelease? }

  ghost function ReleaseStep(s: Conn, e: Event): Conn
    requires Named(s) && Enabled(s, e) && IsRelease(e)
  {
    match e
    case ERelease(id) => Release(s, id)
  }

  /** The sweep of fuse_abort_conn. */
  predicate IsAbort(e: Event) { e.EAbortBegin? || e.EAbortDevice? }

  ghost function AbortStep(s: Conn, e: Event): Conn
    requires Named(s) && Enabled(s, e) && IsAbort(e)
  {
    match e
    case EAbortBegin => AbortBegin(s)
    case EAbortDevice(dev) => AbortDevice(s, dev)
  }

  /** Its last sections under fc->lock. */
  predicate IsClose(e: Event) { e.EAbortFlush? || e.EAbortClose? }

  ghost function CloseStep(s: Conn, e: Event): Conn
    requires Named(s) && Enabled(s, e) && IsClose(e)
  {
    match e
    case EAbortFlush => AbortFlush(s)
    case EAbortClose => AbortClose(s)
  }

  /** What it does after them. */
  predicate IsRest(e: Event) { e.EAbortEnd1? || e.EAbortPick? }

  ghost function RestStep(s: Conn, e: Event): Conn
    requires Named(s) && Enabled(s, e) && IsRest(e)
  {
    Members(s.q, s.reqs);
    match e
    case EAbortEnd1(id) => AbortEnd1(s, id)
    case EAbortPick(id) => Pick(s, ByAbort, id)
  }

  /** The rest of end_requests. */
  predicate IsPicked(e: Event) { e.EUnlinkPicked? || e.EEndPicked? }

  ghost function PickedStep(s: Conn, e: Event): Conn
    requires Named(s) && Enabled(s, e) && IsPicked(e)
  {
    match e
    case EUnlinkPicked(p) => UnlinkPicked(s, p)
    case EEndPicked(p) => EndPicked(s, p)
  }

  /** Release and new devices. */
  predicate IsDevice(e: Event) { e.ECloseDevice? || e.EReleasePick? || e.EAddDevice? }

  ghost function DeviceStep(s: Conn, e: Event): Conn
    requires Named(s) && Enabled(s, e) && IsDevice(e)
  {
    Members(s.q, s.reqs);
    match e
    case ECloseDevice(dev) => CloseDevice(s, dev)
    case EReleasePick(dev) => Pick(s, ByRelease(dev), s.q.processing[dev][0])
    case EAddDevice(dev) => AddDevice(s, dev)
  }

  /** A request on its way to userspace. */
  predicate IsOut(e: Event) { IsSend(e) || IsEnqueue(e) || IsTake(e) || IsCopy(e) }

  ghost function OutStep(s: Conn, e: Event): Conn
    requires Named(s) && Enabled(s, e) && IsOut(e)
  {
    if IsSend(e) then SendStep(s, e)
    else if IsEnqueue(e) then EnqueueStep(s, e)
    else if IsTake(e) then TakeStep(s, e)
    else CopyStep(s, e)
  }

  /** The end of a copy, and the interrupt of a request. */
  predicate IsPass(e: Event) { IsFinish(e) || IsSent(e) || IsSignal(e) || IsQueue(e) }

  ghost function PassStep(s: Conn, e: Event): Conn
    requires Named(s) && Enabled(s, e) && IsPass(e)
  {
    if IsFinish(e) then FinishStep(s, e)
    else if IsSent(e) then SentStep(s, e)
    else if IsSignal(e) then SignalStep(s, e)
    else QueueStep(s, e)
  }

  /** The reply, and the end of a request. */
  predicate IsBack(e: Event) { IsReply(e) || IsEnd(e) || IsFlush(e) || IsWait(e) || IsRelease(e) }

  ghost function BackStep(s: Conn, e: Event): Conn
    requires Named(s) && Enabled(s, e) && IsBack(e)
  {
    if IsReply(e) then ReplyStep(s, e)
    else if IsEnd(e) then EndStep(s, e)
    else if IsFlush(e) then FlushStep(s, e)
    else if IsWait(e) then WaitStep(s, e)
    else ReleaseStep(s, e)
  }

  /** Abort, release and new devices. */
  predicate IsDown(e: Event) { IsAbort(e) || IsClose(e) || IsRest(e) || IsPicked(e) || IsDevice(e) }

  ghost function DownStep(s: Conn, e: Event): Conn
    requires Named(s) && Enabled(s, e) && IsDown(e)
  {
    if IsAbort(e) then AbortStep(s, e)
    else if IsClose(e) then CloseStep(s, e)
    else if IsRest(e) then RestStep(s, e)
    else if IsPicked(e) then PickedStep(s, e)
    else DeviceStep(s, e)
  }

  /** One section of any thread; a section that no thread stands at does nothing. */
  ghost function Next(s: Conn, e: Event): Conn
    requires Named(s)
  {
    if !Enabled(s, e) then s
    else if IsOut(e) then OutStep(s, e)
    else if IsPass(e) then PassStep(s, e)
    else if IsBack(e) then BackStep(s, e)
    else DownStep(s, e)
  }

  // What Next does, section by section.

  lemma SendSections(s: Conn, e: Event)
    requires Named(s) && Enabled(s, e) && IsSend(e)
    ensures e.ESendForeground? ==> Next(s, e) == SendForeground(s, e.id, e.isReply, e.force)
    ensures e.ESendNotify? ==> Next(s, e) == SendNotify(s, e.id, e.unique)
  {
  }

  lemma EnqueueSections(s: Conn, e: Event)
    requires Named(s) && Enabled(s, e) && IsEnqueue(e)
    ensures e.ESendBackground? ==> Next(s, e) == SendBackground(s, e.id)
    ensures e.EQueueForget? ==> Next(s, e) == QueueForget(s, e.f)
  {
  }

  lemma TakeSections(s: Conn, e: Event)
    requires Named(s) && Enabled(s, e) && IsTake(e)
    ensures forall id :: id in s.interrupts || id in s.q.pending ==> id in s.reqs
    ensures e.ERead? ==> Next(s, e) == Read(s, e.dev, e.max)
    ensures e.ETooLarge? ==> Next(s, e) == TooLarge(s, e.id, e.setxattr)
  {
    Members(s.q, s.reqs);
  }

  lemma CopySections(s: Conn, e: Event)
    requires Named(s) && Enabled(s, e) && IsCopy(e)
    ensures e.EAddIo? ==> Next(s, e) == AddIo(s, e.id)
    ensures e.ELockRequest? ==> Next(s, e) == LockRequest(s, e.id, e.locked)
  {
  }

  lemma FinishSections(s: Conn, e: Event)
    requires Named(s) && Enabled(s, e) && IsFinish(e)
    ensures e.EFinishRead? ==> Next(s, e) == FinishRead(s, e.id, e.failed)
    ensures e.EFinishReply? ==> Next(s, e) == FinishReply(s, e.id, e.failed)
  {
  }

  lemma SentSections(s: Conn, e: Event)
    requires Named(s) && Enabled(s, e) && IsSent(e)
    ensures e.ESetSent? ==> Next(s, e) == SetSent(s, e.id)
    ensures e.ETestInterrupted? ==> Next(s, e) == TestInterrupted(s, e.id)
  {
  }

  lemma SignalSections(s: Conn, e: Event)
    requires Named(s) && Enabled(s, e) && IsSignal(e)
    ensures e.ESignal? ==> Next(s, e) == Signal(s, e.id)
    ensures e.ETestSent? ==> Next(s, e) == TestSent(s, e.id)
  {
  }

  lemma WaiterQueueSection(s: Conn, id: ReqId)
    requires Named(s) && Enabled(s, EWaiterQueue(id))
    ensures Next(s, EWaiterQueue(id)) == WaiterQueue(s, id)
  {
  }

  lemma ReplySections(s: Conn, e: Event)
    requires Named(s) && Enabled(s, e) && IsReply(e)
    ensures e.dev in s.q.processing && forall id :: id in s.q.processing[e.dev] ==> id in s.reqs
    ensures Next(s, e) == Reply(s, e.dev, e.unique, e.error, e.headerOnly)
  {
    Members(s.q, s.reqs);
  }

  lemma EndSections(s: Conn, e: Event)
    requires Named(s) && Enabled(s, e) && IsEnd(e)
    ensures e.EEndRemove? ==> Next(s, e) == EndRemove(s, e.id)
    ensures e.EEndCallback? ==> Next(s, e) == EndCallback(s, e.id)
  {
  }

  lemma FlushSections(s: Conn, e: Event)
    requires Named(s) && Enabled(s, e) && IsFlush(e)
    ensures s.q.bg != [] ==> s.q.bg[0] in s.reqs
    ensures e.EEndAccount? ==> Next(s, e) == EndAccount(s, e.id)
    ensures e.EFlushTurn? ==> Next(s, e) == FlushTurn(s)
  {
    Members(s.q, s.reqs);
  }

  lemma WaitSections(s: Conn, e: Event)
    requires Named(s) && Enabled(s, e) && IsWait(e)
    ensures e.EKill? ==> Next(s, e) == Kill(s, e.id)
    ensures e.EReturn? ==> Next(s, e) == Return(s, e.id)
  {
  }

  lemma ReleaseSections(s: Conn, e: Event)
    requires Named(s) && Enabled(s, e) && IsRelease(e)
    ensures Next(s, e) == Release(s, e.id)
  {
  }

  lemma AbortSections(s: Conn, e: Event)
    requires Named(s) && Enabled(s, e) && IsAbort(e)
    ensures e.EAbortBegin? ==> Next(s, e) == AbortBegin(s)
    ensures e.EAbortDevice? ==> Next(s, e) == AbortDevice(s, e.dev)
  {
  }

  lemma CloseSections(s: Conn, e: Event)
    requires Named(s) && Enabled(s, e) && IsClose(e)
    ensures e.EAbortFlush? ==> Next(s, e) == AbortFlush(s)
    ensures e.EAbortClose? ==> Next(s, e) == AbortClose(s)
  {
  }

  lemma RestSections(s: Conn, e: Event)
    requires Named(s) && Enabled(s, e) && IsRest(e)
    ensures e.id in s.reqs
    ensures e.EAbortEnd1? ==> Next(s, e) == AbortEnd1(s, e.id)
    ensures e.EAbortPick? ==> Next(s, e) == Pick(s, ByAbort, e.id)
  {
    Members(s.q, s.reqs);
  }

  lemma UnlinkSection(s: Conn, p: Picker)
    requires Named(s) && p in s.picked && !s.picked[p].unlinked
    ensures s.picked[p].id in s.reqs && Next(s, EUnlinkPicked(p)) == UnlinkPicked(s, p)
  {
    PickedIsDown(s, EUnlinkPicked(p));
  }

  lemma PickedIsDown(s: Conn, e: Event)
    requires Named(s) && Enabled(s, e) && IsPicked(e)
    ensures Next(s, e) == PickedStep(s, e)
  {
  }

  lemma EndSection(s: Conn, p: Picker)
    requires Named(s) && p in s.picked && s.picked[p].unlinked
    ensures s.picked[p].id in s.reqs && Next(s, EEndPicked(p)) == EndPicked(s, p)
  {
    PickedIsDown(s, EEndPicked(p));
  }

  lemma DeviceSections(s: Conn, e: Event)
    requires Named(s) && Enabled(s, e) && IsDevice(e)
    ensures e.ECloseDevice? ==> Next(s, e) == CloseDevice(s, e.dev)
    ensures e.EReleasePick? ==> s.q.processing[e.dev][0] in s.reqs
    ensures e.EReleasePick? ==> Next(s, e) == Pick(s, ByRelease(e.dev), s.q.processing[e.dev][0])
    ensures e.EAddDevice? ==> Next(s, e) == AddDevice(s, e.dev)
  {
    Members(s.q, s.reqs);
  }
}
