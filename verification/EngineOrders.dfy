/**
 What a section does to the lists whose order matters: pending and bg_queue, the forgets, and the
 interrupts. As in EngineHistories this is told without the functions of RequestEngine: list by list, which
 event puts what on it or takes what off it, and at which end (Ordered), and which replies to an interrupt
 turn interrupts off or ask for another one (Heeded). NextOrders connects the two for every section of
 every thread. What follows for whole runs, that nothing is overtaken, lost or read twice, is in
 EngineReads, and what follows for interrupts in EngineSignals.
 */
module EngineOrders {
  import opened Errno
  import opened Lists
  import opened Pages
  import opened Requests
  import opened RequestQueues
  import opened RequestEngine
  import opened EngineInvariant
  import opened EngineEvolution
  import opened EngineTheorems
  import opened EngineHistories

  // ---------------------------------------------------------------- one section

  predicate FlushesOne(s: Conn) { s.sched.activeBackground < s.sched.maxBackground && s.q.bg != [] }

  ghost function PendingAfter(s: Conn, e: Event): seq<ReqId> {
    match e
    case ESendForeground(id, _, _) => if s.open then s.q.pending + [id] else s.q.pending
    case ESendNotify(id, _) => if s.open then s.q.pending + [id] else s.q.pending
    case EFlushTurn => if FlushesOne(s) then s.q.pending + [s.q.bg[0]] else s.q.pending
    case ERead(_, _) => if TakesRequest(s) then s.q.pending[1..] else s.q.pending
    case EKill(id) => if id in s.reqs && s.reqs[id].pending then Without(s.q.pending, id) else s.q.pending
    case EAbortClose => []
    case _ => s.q.pending
  }

  ghost function BgAfter(s: Conn, e: Event): seq<ReqId> {
    match e
    case ESendBackground(id) => if s.connected then s.q.bg + [id] else s.q.bg
    case EFlushTurn => if FlushesOne(s) then s.q.bg[1..] else s.q.bg
    case _ => s.q.bg
  }

  ghost function ForgetsAfter(s: Conn, e: Event): seq<ForgetOne> {
    match e
    case EQueueForget(f) => if s.open then s.forgets + [f] else s.forgets
    case ERead(_, max) => if TakesForgets(s) then s.forgets[Min(max, |s.forgets|)..] else s.forgets
    case EAbortClose => []
    case _ => s.forgets
  }

  function Joined(list: seq<ReqId>, id: ReqId, finished: bool): seq<ReqId> {
    if finished || id in list then list else list + [id]
  }

  ghost function InterruptsAfter(s: Conn, e: Event): seq<ReqId> {
    match e
    case EReaderQueue(id) => if id in s.reqs then Joined(s.interrupts, id, s.reqs[id].finished) else s.interrupts
    case EWaiterQueue(id) => if id in s.reqs then Joined(s.interrupts, id, s.reqs[id].finished) else s.interrupts
    case ERequeue(id) => if id in s.reqs then Joined(s.interrupts, id, s.reqs[id].finished) else s.interrupts
    case ERead(_, _) => if s.open && s.interrupts != [] then s.interrupts[1..] else s.interrupts
    case EEndRemove(id) => Without(s.interrupts, id)
    case _ => s.interrupts
  }

  /** The section takes a reply to the interrupt of request id, with nothing behind its header. */
  ghost predicate Replies(s: Conn, e: Event, error: int, id: ReqId) {
    && e.EReply? && e.unique != 0 && e.error == error && e.headerOnly && DevAlive(s, e.dev)
    && id in s.reqs && s.reqs[id].on == OnProcessing(e.dev) && s.reqs[id].intrUnique == e.unique
  }

  datatype Lines = Lines(pending: seq<ReqId>, bg: seq<ReqId>, forgets: seq<ForgetOne>, interrupts: seq<ReqId>)

  ghost predicate Ordered(s: Conn, e: Event, t: Conn) {
    Lines(t.q.pending, t.q.bg, t.forgets, t.interrupts)
      == Lines(PendingAfter(s, e), BgAfter(s, e), ForgetsAfter(s, e), InterruptsAfter(s, e))
  }

  /** What the replies to interrupts do. */
  ghost predicate Heeded(s: Conn, e: Event, t: Conn) {
    && (t.noInterrupt <==> s.noInterrupt || exists id :: Replies(s, e, ENOSYS, id))
    && (forall id :: Replies(s, e, EAGAIN, id) ==> t.requeuers == s.requeuers + multiset{id})
    && ((forall id :: !Replies(s, e, EAGAIN, id)) ==>
          t.requeuers == if e.ERequeue? then s.requeuers - multiset{e.id} else s.requeuers)
  }

  /** Any other section. */
  ghost predicate Unheard(s: Conn, e: Event, t: Conn) {
    t.noInterrupt == s.noInterrupt && t.requeuers == if e.ERequeue? then s.requeuers - multiset{e.id} else s.requeuers
  }

  /** A section that moves nothing to or from bg_queue and pending. */
  lemma PutElsewhere(s: Conn, id: ReqId, r: Req)
    requires PlaceOf(s.reqs, id) == r.on || (PlaceOf(s.reqs, id) !in {OnBg, OnPending} && r.on !in {OnBg, OnPending})
    ensures Put(s, id, r).q.pending == s.q.pending && Put(s, id, r).q.bg == s.q.bg
  {
  }

  lemma Elsewhere(s: Conn, id: ReqId)
    requires Inv(s) && id in s.reqs
    ensures var r := s.reqs[id];
      && (r.reader.InHand? ==> r.on == Nowhere) && (Copied(r) ==> r.on.OnIo? || (r.private && !Alive(s, CopierDev(r))))
      && (r.waiter == Killable && r.pending ==> r.on == OnPending)
  {
    At(s, id);
  }

  lemma SendOrders(s: Conn, e: Event)
    requires Inv(s) && Enabled(s, e) && IsSend(e)
    ensures Ordered(s, e, SendStep(s, e)) && Unheard(s, e, SendStep(s, e))
  {
  }

  lemma EnqueueOrders(s: Conn, e: Event)
    requires Inv(s) && Enabled(s, e) && IsEnqueue(e)
    ensures Ordered(s, e, EnqueueStep(s, e)) && Unheard(s, e, EnqueueStep(s, e))
  {
  }

  lemma InterruptOrders(s: Conn, e: Event)
    requires e.ERead? && ReadNamed(s) && s.open && s.interrupts != [] && NoDup(s.interrupts)
    ensures Ordered(s, e, Read(s, e.dev, e.max)) && Unheard(s, e, Read(s, e.dev, e.max))
  {
    TakesInterrupt(s, e.dev, e.max);
    WithoutHead(s.interrupts);
    PutElsewhere(s, s.interrupts[0], Interrupt(s.reqs[s.interrupts[0]], s.reqctr + 1));
  }

  lemma RequestOrders(s: Conn, e: Event)
    requires e.ERead? && ReadNamed(s) && TakesRequest(s) && NoDup(s.q.pending) && s.reqs[s.q.pending[0]].on == OnPending
    ensures Ordered(s, e, Read(s, e.dev, e.max)) && Unheard(s, e, Read(s, e.dev, e.max))
  {
    TakesFirstRequest(s, e.dev, e.max);
    WithoutHead(s.q.pending);
  }

  lemma OtherReadOrders(s: Conn, e: Event)
    requires e.ERead? && ReadNamed(s) && (s.open ==> s.interrupts == []) && !TakesRequest(s)
    ensures Ordered(s, e, Read(s, e.dev, e.max)) && Unheard(s, e, Read(s, e.dev, e.max))
  {
    if TakesForgets(s) { TakesOldestForgets(s, e.dev, e.max); } else { TakesNothing(s, e.dev, e.max); }
  }

  lemma TakeOrders(s: Conn, e: Event)
    requires Inv(s) && Enabled(s, e) && IsTake(e)
    ensures Ordered(s, e, TakeStep(s, e)) && Unheard(s, e, TakeStep(s, e))
  {
    Members(s.q, s.reqs);
    if e.ERead? {
      if s.open && s.interrupts != [] {
        InterruptOrders(s, e);
      } else if TakesRequest(s) {
        RequestOrders(s, e);
      } else {
        OtherReadOrders(s, e);
      }
    }
  }

  lemma CopyOrders(s: Conn, e: Event)
    requires Inv(s) && Enabled(s, e) && IsCopy(e)
    ensures Ordered(s, e, CopyStep(s, e)) && Unheard(s, e, CopyStep(s, e))
  {
    Elsewhere(s, e.id);
  }

  lemma EndReadPlace(r: Req, alive: bool, failed: bool)
    requires r.reader.Reading?
    ensures EndRead(r, alive, failed).on == if alive && !failed && r.isReply then OnProcessing(r.reader.dev) else EndPlace(r)
  {
  }

  /** The ends of the copies of a request that is on io, or private because of an abort. */
  lemma FinishReadOrders(s: Conn, e: Event)
    requires e.EFinishRead? && e.id in s.reqs && s.reqs[e.id].reader.Reading?
    requires s.reqs[e.id].on.OnIo? || (s.reqs[e.id].private && !Alive(s, s.reqs[e.id].reader.dev))
    ensures Ordered(s, e, FinishRead(s, e.id, e.failed)) && Unheard(s, e, FinishRead(s, e.id, e.failed))
  {
    var r := s.reqs[e.id];
    EndReadPlace(r, Alive(s, r.reader.dev), e.failed);
    PutElsewhere(s, e.id, EndRead(r, Alive(s, r.reader.dev), e.failed));
  }

  lemma FinishReplyOrders(s: Conn, e: Event)
    requires e.EFinishReply? && e.id in s.reqs && s.reqs[e.id].replier.Copying? && (s.reqs[e.id].on.OnIo? || s.reqs[e.id].private)
    ensures Ordered(s, e, FinishReply(s, e.id, e.failed)) && Unheard(s, e, FinishReply(s, e.id, e.failed))
  {
    var r := s.reqs[e.id];
    PutElsewhere(s, e.id, EndReply(r, Alive(s, r.replier.dev), e.failed));
  }

  lemma FinishOrders(s: Conn, e: Event)
    requires Inv(s) && Enabled(s, e) && IsFinish(e)
    ensures Ordered(s, e, FinishStep(s, e)) && Unheard(s, e, FinishStep(s, e))
  {
    Elsewhere(s, e.id);
    if e.EFinishRead? { FinishReadOrders(s, e); } else { FinishReplyOrders(s, e); }
  }

  lemma SentOrders(s: Conn, e: Event)
    requires Inv(s) && Enabled(s, e) && IsSent(e)
    ensures Ordered(s, e, SentStep(s, e)) && Unheard(s, e, SentStep(s, e))
  {
  }

  lemma SignalOrders(s: Conn, e: Event)
    requires Inv(s) && Enabled(s, e) && IsSignal(e)
    ensures Ordered(s, e, SignalStep(s, e)) && Unheard(s, e, SignalStep(s, e))
  {
  }

  lemma QueuesOne(s: Conn, e: Event, m: Conn, t: Conn)
    requires (e.EReaderQueue? || e.EWaiterQueue?) && e.id in s.reqs && e.id in m.reqs && m.reqs[e.id].finished == s.reqs[e.id].finished
    requires m == s.(q := m.q, reqs := m.reqs) && m.q.pending == s.q.pending && m.q.bg == s.q.bg
    requires t == QueueInterrupt(m, e.id)
    ensures Ordered(s, e, t) && Unheard(s, e, t)
  {
  }

  lemma ReaderQueueOrders(s: Conn, e: Event)
    requires e.EReaderQueue? && e.id in s.reqs
    ensures Ordered(s, e, ReaderQueue(s, e.id)) && Unheard(s, e, ReaderQueue(s, e.id))
  {
    var r := s.reqs[e.id].(reader := ReadDone);
    PutElsewhere(s, e.id, r);
    QueuesOne(s, e, Put(s, e.id, r), ReaderQueue(s, e.id));
  }

  lemma WaiterQueueOrders(s: Conn, e: Event)
    requires e.EWaiterQueue? && e.id in s.reqs
    ensures Ordered(s, e, WaiterQueue(s, e.id)) && Unheard(s, e, WaiterQueue(s, e.id))
  {
    var r := s.reqs[e.id].(waiter := SecondWait(s.reqs[e.id].force));
    PutElsewhere(s, e.id, r);
    QueuesOne(s, e, Put(s, e.id, r), WaiterQueue(s, e.id));
  }

  lemma RequeueOrders(s: Conn, e: Event)
    requires e.ERequeue? && e.id in s.reqs
    ensures Ordered(s, e, Requeue(s, e.id)) && Unheard(s, e, Requeue(s, e.id))
  {
  }

  lemma QueueOrders(s: Conn, e: Event, t: Conn)
    requires Named(s) && Enabled(s, e) && IsQueue(e) && t == QueueStep(s, e)
    ensures Ordered(s, e, t) && Unheard(s, e, t)
  {
    if e.EReaderQueue? {
      ReaderQueueOrders(s, e);
    } else if e.EWaiterQueue? {
      WaiterQueueOrders(s, e);
    } else {
      RequeueOrders(s, e);
    }
  }

  lemma FindsInterrupt(s: Conn, e: Event, id: ReqId)
    requires Inv(s) && e.EReply? && Replies(s, e, e.error, id)
    ensures e.dev in s.q.processing && forall x :: x in s.q.processing[e.dev] ==> x in s.reqs
    ensures RequestFind(s.reqs, s.q.processing[e.dev], e.unique) == RequestEngine.Found.Found(id)
  {
    Members(s.q, s.reqs);
    assert On(s.q, OnProcessing(e.dev), id) <==> PlaceOf(s.reqs, id) == OnProcessing(e.dev);
    forall x | x in s.q.processing[e.dev] && Matches(s.reqs[x], e.unique) ensures x == id {
      ReplyNamesOne(s, e.unique, e.dev, x, e.dev, id);
    }
  }

  lemma ReplyPlaces(s: Conn, d: DevId, u: nat, error: int, h: bool)
    requires d in s.q.processing && forall x :: x in s.q.processing[d] ==> x in s.reqs && s.reqs[x].on == OnProcessing(d)
    ensures Ordered(s, EReply(d, u, error, h), Reply(s, d, u, error, h))
  {
    var f := RequestFind(s.reqs, s.q.processing[d], u);
    if f.Found? { PutElsewhere(s, f.id, StartReply(s.reqs[f.id], d, error)); }
  }

  lemma NoReply(s: Conn, e: Event)
    requires e.EReply? && e.dev in s.q.processing && forall x :: x in s.q.processing[e.dev] ==> x in s.reqs && s.reqs[x].on == OnProcessing(e.dev)
    requires forall id :: !Replies(s, e, e.error, id)
    ensures var t := Reply(s, e.dev, e.unique, e.error, e.headerOnly); t.noInterrupt == s.noInterrupt && t.requeuers == s.requeuers
  {
    var f := RequestFind(s.reqs, s.q.processing[e.dev], e.unique);
    if f.Found? { assert !Replies(s, e, e.error, f.id); }
  }

  lemma InterruptReply(s: Conn, e: Event, id: ReqId)
    requires Inv(s) && e.EReply? && Replies(s, e, e.error, id) && e.error in {ENOSYS, EAGAIN}
    ensures e.dev in s.q.processing && forall x :: x in s.q.processing[e.dev] ==> x in s.reqs
    ensures var t := Reply(s, e.dev, e.unique, e.error, e.headerOnly);
      && t.noInterrupt == (s.noInterrupt || e.error == ENOSYS)
      && t.requeuers == (if e.error == EAGAIN then s.requeuers + multiset{id} else s.requeuers)
  {
    FindsInterrupt(s, e, id);
  }

  lemma OneInterrupt(s: Conn, e: Event, id: ReqId, x: ReqId)
    requires Inv(s) && e.EReply? && Replies(s, e, e.error, id) && Replies(s, e, e.error, x)
    ensures x == id
  {
    FindsInterrupt(s, e, x);
    FindsInterrupt(s, e, id);
  }

  lemma HeededOne(s: Conn, e: Event, id: ReqId, t: Conn)
    requires e.EReply? && Replies(s, e, e.error, id) && e.error in {ENOSYS, EAGAIN}
    requires forall x :: Replies(s, e, e.error, x) ==> x == id
    requires t.noInterrupt == (s.noInterrupt || e.error == ENOSYS)
    requires t.requeuers == if e.error == EAGAIN then s.requeuers + multiset{id} else s.requeuers
    ensures Heeded(s, e, t)
  {
  }

  lemma HeededNone(s: Conn, e: Event, t: Conn)
    requires e.EReply? && (e.error in {ENOSYS, EAGAIN} ==> forall x :: !Replies(s, e, e.error, x))
    requires t.noInterrupt == s.noInterrupt && t.requeuers == s.requeuers
    ensures Heeded(s, e, t)
  {
  }

  lemma ReplyHeeded(s: Conn, e: Event, t: Conn)
    requires Inv(s) && Enabled(s, e) && e.EReply? && forall x :: x in s.q.processing[e.dev] ==> x in s.reqs && s.reqs[x].on == OnProcessing(e.dev)
    requires t == Reply(s, e.dev, e.unique, e.error, e.headerOnly)
    ensures Heeded(s, e, t)
  {
    if e.error !in {ENOSYS, EAGAIN} {
      OtherReply(s, e);
      HeededNone(s, e, t);
    } else if id :| Replies(s, e, e.error, id) {
      InterruptReply(s, e, id);
      forall x | Replies(s, e, e.error, x) ensures x == id { OneInterrupt(s, e, id, x); }
      HeededOne(s, e, id, t);
    } else {
      NoReply(s, e);
      HeededNone(s, e, t);
    }
  }

  lemma OtherReply(s: Conn, e: Event)
    requires e.EReply? && e.dev in s.q.processing && (forall x :: x in s.q.processing[e.dev] ==> x in s.reqs) && e.error !in {ENOSYS, EAGAIN}
    ensures var t := Reply(s, e.dev, e.unique, e.error, e.headerOnly); t.noInterrupt == s.noInterrupt && t.requeuers == s.requeuers
  {
  }

  lemma ReplyOrders(s: Conn, e: Event)
    requires Inv(s) && Enabled(s, e) && IsReply(e)
    ensures Ordered(s, e, ReplyStep(s, e)) && Heeded(s, e, ReplyStep(s, e))
  {
    Members(s.q, s.reqs);
    ReplyPlaces(s, e.dev, e.unique, e.error, e.headerOnly);
    ReplyHeeded(s, e, ReplyStep(s, e));
  }

  lemma EndOrders(s: Conn, e: Event)
    requires Inv(s) && Enabled(s, e) && IsEnd(e)
    ensures Ordered(s, e, EndStep(s, e)) && Unheard(s, e, EndStep(s, e))
  {
  }

  lemma FlushTurnOrders(s: Conn)
    requires Linked(s.q, s.reqs, s.devs)
    ensures s.q.bg != [] ==> s.q.bg[0] in s.reqs
    ensures Ordered(s, EFlushTurn, FlushTurn(s)) && Unheard(s, EFlushTurn, FlushTurn(s))
  {
    Members(s.q, s.reqs);
    if CanFlush(s) { FlushOneQueues(s); }
  }

  lemma FlushOrders(s: Conn, e: Event)
    requires Inv(s) && Enabled(s, e) && IsFlush(e)
    ensures Ordered(s, e, FlushStep(s, e)) && Unheard(s, e, FlushStep(s, e))
  {
    if e.EFlushTurn? { FlushTurnOrders(s); }
  }

  lemma WaitOrders(s: Conn, e: Event)
    requires Inv(s) && Enabled(s, e) && IsWait(e)
    ensures Ordered(s, e, WaitStep(s, e)) && Unheard(s, e, WaitStep(s, e))
  {
    Elsewhere(s, e.id);
  }

  lemma ReleaseOrders(s: Conn, e: Event)
    requires Inv(s) && Enabled(s, e) && IsRelease(e)
    ensures Ordered(s, e, ReleaseStep(s, e)) && Unheard(s, e, ReleaseStep(s, e))
  {
  }

  lemma AbortOrders(s: Conn, e: Event)
    requires Inv(s) && Enabled(s, e) && IsAbort(e)
    ensures Ordered(s, e, AbortStep(s, e)) && Unheard(s, e, AbortStep(s, e))
  {
  }

  lemma CloseOrders(s: Conn, e: Event)
    requires Inv(s) && Enabled(s, e) && IsClose(e)
    ensures Ordered(s, e, CloseStep(s, e)) && Unheard(s, e, CloseStep(s, e))
  {
  }

  lemma RestOrders(s: Conn, e: Event, t: Conn)
    requires Inv(s) && Enabled(s, e) && IsRest(e) && t == RestStep(s, e)
    ensures Ordered(s, e, t) && Unheard(s, e, t)
  {
    Members(s.q, s.reqs);
  }

  lemma PickedOrders(s: Conn, e: Event)
    requires Inv(s) && Enabled(s, e) && IsPicked(e)
    ensures Ordered(s, e, PickedStep(s, e)) && Unheard(s, e, PickedStep(s, e))
  {
    Gripped(s, e.picker);
    var id := s.picked[e.picker].id;
    assert s.reqs[id].on !in {OnBg, OnPending} by { At(s, id); }
    PutElsewhere(s, id, if e.EUnlinkPicked? then Unlink(s.reqs[id]) else StartEnd(s.reqs[id]));
  }

  lemma DeviceOrders(s: Conn, e: Event)
    requires Inv(s) && Enabled(s, e) && IsDevice(e)
    ensures Ordered(s, e, DeviceStep(s, e)) && Unheard(s, e, DeviceStep(s, e))
  {
  }

  lemma OutOrders(s: Conn, e: Event, t: Conn)
    requires Inv(s) && Enabled(s, e) && IsOut(e) && t == OutStep(s, e)
    ensures Ordered(s, e, t) && Unheard(s, e, t)
  {
    if IsSend(e) {
      SendOrders(s, e);
    } else if IsEnqueue(e) {
      EnqueueOrders(s, e);
    } else if IsTake(e) {
      TakeOrders(s, e);
    } else {
      CopyOrders(s, e);
    }
  }

  lemma PassOrders(s: Conn, e: Event, t: Conn)
    requires Inv(s) && Enabled(s, e) && IsPass(e) && t == PassStep(s, e)
    ensures Ordered(s, e, t) && Unheard(s, e, t)
  {
    if IsFinish(e) {
      FinishOrders(s, e);
    } else if IsSent(e) {
      SentOrders(s, e);
    } else if IsSignal(e) {
      SignalOrders(s, e);
    } else {
      QueueOrders(s, e, t);
    }
  }

  lemma BackOrders(s: Conn, e: Event, t: Conn)
    requires Inv(s) && Enabled(s, e) && IsBack(e) && t == BackStep(s, e)
    ensures Ordered(s, e, t) && (e.EReply? ==> Heeded(s, e, t)) && (!e.EReply? ==> Unheard(s, e, t))
  {
    if IsReply(e) {
      ReplyOrders(s, e);
    } else if IsEnd(e) {
      EndOrders(s, e);
    } else if IsFlush(e) {
      FlushOrders(s, e);
    } else if IsWait(e) {
      WaitOrders(s, e);
    } else {
      ReleaseOrders(s, e);
    }
  }

  lemma DownOrders(s: Conn, e: Event, t: Conn)
    requires Inv(s) && Enabled(s, e) && IsDown(e) && t == DownStep(s, e)
    ensures Ordered(s, e, t) && Unheard(s, e, t)
  {
    if IsAbort(e) {
      AbortOrders(s, e);
    } else if IsClose(e) {
      CloseOrders(s, e);
    } else if IsRest(e) {
      RestOrders(s, e, t);
    } else if IsPicked(e) {
      PickedOrders(s, e);
    } else {
      DeviceOrders(s, e);
    }
  }

  lemma UnheardHeeded(s: Conn, e: Event, t: Conn)
    requires !e.EReply? && Unheard(s, e, t)
    ensures Heeded(s, e, t)
  {
  }

  /** What every section does to the lists, and what the replies to interrupts do. */
  lemma NextOrders(s: Conn, e: Event, t: Conn)
    requires Inv(s) && Enabled(s, e) && t == Next(s, e)
    ensures Ordered(s, e, t) && Heeded(s, e, t)
  {
    if IsOut(e) {
      OutOrders(s, e, t);
    } else if IsPass(e) {
      PassOrders(s, e, t);
    } else if IsBack(e) {
      BackOrders(s, e, t);
    } else {
      DownOrders(s, e, t);
    }
    if !e.EReply? { UnheardHeeded(s, e, t); }
  }
}
