/**
 What the request engine keeps over every run: the main results about old/fuse/dev.c. The first part
 puts the sections together, so that Run keeps the invariant; then come the placing of requests, the
 routing of replies, the background scheduler, and interrupts.
 */
module EngineTheorems {
  import opened Pages
  import opened Requests
  import opened RequestQueues
  import opened RequestEngine
  import opened EngineInvariant
  import opened EngineEvolution

  lemma SendNext(s: Conn, e: Event)
    requires Inv(s) && Enabled(s, e) && IsSend(e)
    ensures Inv(SendStep(s, e))
  {
    match e
    case ESendForeground(id, isReply, force) => SendForegroundInv(s, id, isReply, force);
    case ESendNotify(id, unique) => SendNotifyInv(s, id, unique);
  }

  lemma EnqueueNext(s: Conn, e: Event)
    requires Inv(s) && Enabled(s, e) && IsEnqueue(e)
    ensures Inv(EnqueueStep(s, e))
  {
    match e
    case ESendBackground(id) => SendBackgroundInv(s, id);
    case EQueueForget(f) => QueueForgetInv(s, f);
  }

  lemma TakeNext(s: Conn, e: Event)
    requires Inv(s) && Enabled(s, e) && IsTake(e)
    ensures Inv(TakeStep(s, e))
  {
    match e
    case ERead(dev, max) => ReadInv(s, dev, max);
    case ETooLarge(id, setxattr) => TooLargeInv(s, id, setxattr);
  }

  lemma CopyNext(s: Conn, e: Event)
    requires Inv(s) && Enabled(s, e) && IsCopy(e)
    ensures Inv(CopyStep(s, e))
  {
    match e
    case EAddIo(id) => AddIoInv(s, id);
    case ELockRequest(id, locked) => LockInv(s, id, locked);
  }

  lemma FinishNext(s: Conn, e: Event)
    requires Inv(s) && Enabled(s, e) && IsFinish(e)
    ensures Inv(FinishStep(s, e))
  {
    match e
    case EFinishRead(id, failed) => FinishReadInv(s, id, failed);
    case EFinishReply(id, failed) => FinishReplyInv(s, id, failed);
  }

  lemma SentNext(s: Conn, e: Event)
    requires Inv(s) && Enabled(s, e) && IsSent(e)
    ensures Inv(SentStep(s, e))
  {
    match e
    case ESetSent(id) => SetSentInv(s, id);
    case ETestInterrupted(id) => TestInterruptedInv(s, id);
  }

  lemma SignalNext(s: Conn, e: Event)
    requires Inv(s) && Enabled(s, e) && IsSignal(e)
    ensures Inv(SignalStep(s, e))
  {
    match e
    case ESignal(id) => SignalInv(s, id);
    case ETestSent(id) => TestSentInv(s, id);
  }

  lemma QueueNext(s: Conn, e: Event)
    requires Inv(s) && Enabled(s, e) && IsQueue(e)
    ensures Inv(QueueStep(s, e))
  {
    match e
    case EReaderQueue(id) => ReaderQueueInv(s, id);
    case EWaiterQueue(id) => WaiterQueueInv(s, id);
    case ERequeue(id) => RequeueInv(s, id);
  }

  lemma ReplyNext(s: Conn, e: Event)
    requires Inv(s) && Enabled(s, e) && IsReply(e)
    ensures Inv(ReplyStep(s, e))
  {
    match e
    case EReply(dev, unique, error, headerOnly) => ReplyInv(s, dev, unique, error, headerOnly);
  }

  lemma EndNext(s: Conn, e: Event)
    requires Inv(s) && Enabled(s, e) && IsEnd(e)
    ensures Inv(EndStep(s, e))
  {
    match e
    case EEndRemove(id) => EndRemoveInv(s, id);
    case EEndCallback(id) => EndCallbackInv(s, id);
  }

  lemma FlushNext(s: Conn, e: Event)
    requires Inv(s) && Enabled(s, e) && IsFlush(e)
    ensures Inv(FlushStep(s, e))
  {
    match e
    case EEndAccount(id) => EndAccountInv(s, id);
    case EFlushTurn => FlushTurnInv(s);
  }

  lemma WaitNext(s: Conn, e: Event)
    requires Inv(s) && Enabled(s, e) && IsWait(e)
    ensures Inv(WaitStep(s, e))
  {
    match e
    case EKill(id) => KillInv(s, id);
    case EReturn(id) => ReturnInv(s, id);
  }

  lemma ReleaseNext(s: Conn, e: Event)
    requires Inv(s) && Enabled(s, e) && IsRelease(e)
    ensures Inv(ReleaseStep(s, e))
  {
    match e
    case ERelease(id) => ReleaseInv(s, id);
  }

  lemma AbortNext(s: Conn, e: Event)
    requires Inv(s) && Enabled(s, e) && IsAbort(e)
    ensures Inv(AbortStep(s, e))
  {
    match e
    case EAbortBegin => AbortBeginInv(s);
    case EAbortDevice(dev) => AbortDeviceInv(s, dev);
  }

  lemma CloseNext(s: Conn, e: Event)
    requires Inv(s) && Enabled(s, e) && IsClose(e)
    ensures Inv(CloseStep(s, e))
  {
    match e
    case EAbortFlush => AbortFlushInv(s);
    case EAbortClose => AbortCloseInv(s);
  }

  lemma RestNext(s: Conn, e: Event)
    requires Inv(s) && Enabled(s, e) && IsRest(e)
    ensures Inv(RestStep(s, e))
  {
    match e
    case EAbortEnd1(id) => AbortEnd1Inv(s, id);
    case EAbortPick(id) => AbortPickInv(s, id);
  }

  lemma PickedNext(s: Conn, e: Event)
    requires Inv(s) && Enabled(s, e) && IsPicked(e)
    ensures Inv(PickedStep(s, e))
  {
    match e
    case EUnlinkPicked(p) => UnlinkPickedInv(s, p);
    case EEndPicked(p) => EndPickedInv(s, p);
  }

  lemma DeviceNext(s: Conn, e: Event)
    requires Inv(s) && Enabled(s, e) && IsDevice(e)
    ensures Inv(DeviceStep(s, e))
  {
    match e
    case ECloseDevice(dev) => CloseDeviceInv(s, dev);
    case EReleasePick(dev) => ReleasePickInv(s, dev);
    case EAddDevice(dev) => AddDeviceInv(s, dev);
  }

  lemma OutNext(s: Conn, e: Event)
    requires Inv(s) && Enabled(s, e) && IsOut(e)
    ensures Inv(OutStep(s, e))
  {
    if IsSend(e) {
      SendNext(s, e);
    } else if IsEnqueue(e) {
      EnqueueNext(s, e);
    } else if IsTake(e) {
      TakeNext(s, e);
    } else {
      CopyNext(s, e);
    }
  }

  lemma PassNext(s: Conn, e: Event)
    requires Inv(s) && Enabled(s, e) && IsPass(e)
    ensures Inv(PassStep(s, e))
  {
    if IsFinish(e) {
      FinishNext(s, e);
    } else if IsSent(e) {
      SentNext(s, e);
    } else if IsSignal(e) {
      SignalNext(s, e);
    } else {
      QueueNext(s, e);
    }
  }

  lemma BackNext(s: Conn, e: Event)
    requires Inv(s) && Enabled(s, e) && IsBack(e)
    ensures Inv(BackStep(s, e))
  {
    if IsReply(e) {
      ReplyNext(s, e);
    } else if IsEnd(e) {
      EndNext(s, e);
    } else if IsFlush(e) {
      FlushNext(s, e);
    } else if IsWait(e) {
      WaitNext(s, e);
    } else {
      ReleaseNext(s, e);
    }
  }

  lemma DownNext(s: Conn, e: Event)
    requires Inv(s) && Enabled(s, e) && IsDown(e)
    ensures Inv(DownStep(s, e))
  {
    if IsAbort(e) {
      AbortNext(s, e);
    } else if IsClose(e) {
      CloseNext(s, e);
    } else if IsRest(e) {
      RestNext(s, e);
    } else if IsPicked(e) {
      PickedNext(s, e);
    } else {
      DeviceNext(s, e);
    }
  }

  /** Every section keeps the invariant. */
  lemma NextInv(s: Conn, e: Event)
    requires Inv(s)
    ensures Inv(Next(s, e))
  {
    if Enabled(s, e) {
      if IsOut(e) {
        OutNext(s, e);
      } else if IsPass(e) {
        PassNext(s, e);
      } else if IsBack(e) {
        BackNext(s, e);
      } else {
        DownNext(s, e);
      }
    }
  }

  /** The state after any sequence of sections; every one of them keeps the invariant. */
  ghost function Run(s: Conn, es: seq<Event>): (t: Conn)
    requires Inv(s)
    ensures Inv(t)
    decreases |es|
  {
    if es == [] then s
    else
      NextInv(s, es[0]);
      Run(Next(s, es[0]), es[1..])
  }

  lemma {:induction false} RunEvolves(s: Conn, es: seq<Event>)
    requires Inv(s)
    ensures AllEvolve(s.open, s.reqs, Run(s, es).reqs) && FlagsFall(s, Run(s, es))
    decreases |es|
  {
    if es == [] {
      NoneEvolves(s.open, s.reqs);
    } else {
      var t := Next(s, es[0]);
      NextInv(s, es[0]);
      NextEvolves(s, es[0]);
      RunEvolves(t, es[1..]);
      NextFlags(s, es[0]);
      Weaken(s.open, s.reqs, t.reqs, t.open, Run(s, es).reqs);
    }
  }

  /** Whatever lasts on a queue that may have been closed lasts on one that was open before. */
  lemma Weaken(before: bool, a: map<ReqId, Req>, b: map<ReqId, Req>, after: bool, c: map<ReqId, Req>)
    requires AllEvolve(before, a, b) && AllEvolve(after, b, c) && (!before ==> !after)
    ensures AllEvolve(before, a, c)
  {
    forall x ensures EvolvesAt(before, a, c, x) {
      assert EvolvesAt(before, a, b, x) && EvolvesAt(after, b, c, x);
    }
  }

  /** One request over a run. */
  lemma RunReq(s: Conn, es: seq<Event>, id: ReqId)
    requires Inv(s) && id in s.reqs
    ensures id in Run(s, es).reqs && Evolves(s.open, s.reqs[id], Run(s, es).reqs[id])
  {
    RunEvolves(s, es);
    assert EvolvesAt(s.open, s.reqs, Run(s, es).reqs, id);
  }

  /** A run in two parts. */
  lemma {:induction false} RunTwice(s: Conn, es: seq<Event>, fs: seq<Event>)
    requires Inv(s)
    ensures Run(s, es + fs) == Run(Run(s, es), fs)
    decreases |es|
  {
    if es == [] {
      assert es + fs == fs;
    } else {
      assert (es + fs)[1..] == es[1..] + fs;
      NextInv(s, es[0]);
      RunTwice(Next(s, es[0]), es[1..], fs);
    }
  }

  /** A run and one more section. */
  lemma RunThen(s: Conn, es: seq<Event>, e: Event)
    requires Inv(s)
    ensures Run(s, es + [e]) == Next(Run(s, es), e)
  {
    var t := Run(s, es);
    RunTwice(s, es, [e]);
    NextInv(t, e);
    assert [e][1..] == [];
    assert Run(t, [e]) == Run(Next(t, e), []);
  }

  /** So every reachable state satisfies the invariant that the results below start from. */
  lemma {:induction false} ReachableInv(maxBackground: nat, es: seq<Event>)
    requires 0 < maxBackground <= UINT_MAX
    ensures Inv(Init(maxBackground)) && Inv(Run(Init(maxBackground), es))
  {
    InitInv(maxBackground);
  }

  // ---------------------------------------------------------------- every request is somewhere, once

  /** In every reachable state a request's node is on one list at most, and no list holds it twice.
      An unfinished request whose waiter has not bailed out is on a list, or a reader has just taken
      it off pending, or an end_requests has just unlinked it: none is lost. */
  lemma OnExactlyOneList(s: Conn, id: ReqId)
    requires Inv(s) && id in s.reqs
    ensures forall p, p' :: On(s.q, p, id) && On(s.q, p', id) ==> p == p'
    ensures Once(s.q)
    ensures !s.reqs[id].finished && !s.reqs[id].bailed ==>
      || On(s.q, s.reqs[id].on, id)
      || (s.reqs[id].on == Nowhere && s.reqs[id].reader.InHand?)
      || (s.reqs[id].on == Nowhere && exists p :: p in s.picked && s.picked[p] == Grip(id, true))
  {
    forall p, p' | On(s.q, p, id) && On(s.q, p', id) ensures p == p' {
      OnOneList(s.q, s.reqs, s.devs, id, p, p');
    }
    var p := s.reqs[id].on;
    assert p != Nowhere ==> (On(s.q, p, id) <==> PlaceOf(s.reqs, id) == p);
    assert !s.reqs[id].finished && !s.reqs[id].bailed && p == Nowhere ==> s.reqs[id].reader.InHand? || s.reqs[id].unlinked by {
      At(s, id);
    }
    assert HeldAt(s.picked, s.reqs, id);
  }

  /** The body of request_end runs at most once for a request: its callback, which has run exactly when the
      body is over, and before it the decrement of the background counters, which has run exactly when a
      background request no longer counts as one. */
  lemma EndedOnce(s: Conn, id: ReqId)
    requires Inv(s) && id in s.reqs
    ensures s.reqs[id].callbacks <= 1 && s.reqs[id].retired <= 1
    ensures s.reqs[id].callbacks == 1 <==> s.reqs[id].ender == Ended
    ensures s.reqs[id].ender == Ended ==> s.reqs[id].finished
    ensures s.reqs[id].background ==> s.reqs[id].retired == 0 && s.reqs[id].callbacks == 0
    ensures s.reqs[id].retired == 1 ==> s.reqs[id].ender in {CallingBack, Ended}
    ensures s.reqs[id].waiter == NoWaiter && s.reqs[id].isReply ==> (s.reqs[id].retired == 1 <==> !s.reqs[id].background)
  {
    At(s, id);
  }

  // ---------------------------------------------------------------- the warnings of request_end

  /** The first WARN_ON of request_end cannot fire: a request whose body of request_end runs is not pending. */
  lemma PendingWarning(s: Conn, id: ReqId)
    requires Inv(s) && id in s.reqs && s.reqs[id].finished
    ensures !s.reqs[id].pending
  {
    At(s, id);
  }

  /** The second one fires exactly if the reader of the device has set FR_SENT after the reply, or the end
      of the request, had cleared it. */
  lemma SentWarning(s: Conn, id: ReqId)
    requires Inv(s) && id in s.reqs && s.reqs[id].finished
    ensures s.reqs[id].sent <==> s.reqs[id].late
  {
    At(s, id);
  }

  /** Which it does when it comes to its set_bit behind the reply. */
  lemma LateSent(s: Conn, id: ReqId)
    requires Inv(s) && Enabled(s, ESetSent(id))
    ensures SetSent(s, id).reqs[id].late <==> Answered(s.reqs[id])
  {
    At(s, id);
  }

  // ---------------------------------------------------------------- reply routing

  /** A reply's ID names one request at most, over the processing lists of all devices. */
  lemma ReplyNamesOne(s: Conn, u: nat, d: DevId, id: ReqId, d': DevId, id': ReqId)
    requires Inv(s) && u != 0
    requires d in s.q.processing && id in s.q.processing[d] && d' in s.q.processing && id' in s.q.processing[d']
    requires id in s.reqs && Matches(s.reqs[id], u) && id' in s.reqs && Matches(s.reqs[id'], u)
    ensures id == id' && d == d'
    ensures s.reqs[id].isReply && (s.reqs[id].unique == u <==> s.reqs[id].intrUnique != u)
  {
    Members(s.q, s.reqs);
    assert s.reqs[id].isReply && s.reqs[id'].isReply by { At(s, id); At(s, id'); }
    assert DistinctAt(s.reqs, id, id') && DistinctAt(s.reqs, id', id);
    assert DistinctAt(s.reqs, id, id) && DistinctAt(s.reqs, id', id');
  }

  /** A repeated reply finds nothing: once a request is answered, its ID matches no request on any
      processing list, in any later state of any run. */
  lemma {:induction false} RepeatedReplyFindsNothing(s: Conn, es: seq<Event>, id: ReqId, d: DevId)
    requires Inv(s) && id in s.reqs && s.reqs[id].isReply && s.reqs[id].unique != 0 && Answered(s.reqs[id])
    requires d in Run(s, es).q.processing
    ensures forall x :: x in Run(s, es).q.processing[d] ==> x in Run(s, es).reqs
    ensures RequestFind(Run(s, es).reqs, Run(s, es).q.processing[d], s.reqs[id].unique) == NotFound
  {
    var t := Run(s, es);
    RunReq(s, es, id);
    AnsweredNotFound(t, id, d);
  }

  lemma AnsweredNotFound(t: Conn, id: ReqId, d: DevId)
    requires Inv(t) && id in t.reqs && t.reqs[id].isReply && t.reqs[id].unique != 0 && Answered(t.reqs[id])
    requires d in t.q.processing
    ensures forall x :: x in t.q.processing[d] ==> x in t.reqs
    ensures RequestFind(t.reqs, t.q.processing[d], t.reqs[id].unique) == NotFound
  {
    var u := t.reqs[id].unique;
    Members(t.q, t.reqs);
    forall x | x in t.q.processing[d] ensures !Matches(t.reqs[x], u) {
      assert t.reqs[x].isReply && !Answered(t.reqs[x]) by { At(t, x); }
      assert DistinctAt(t.reqs, id, x);
    }
  }

  /** A notification reply carries an ID the server chose. It never reaches a processing list. */
  lemma {:induction false} NotifyNeverProcessed(s: Conn, es: seq<Event>, id: ReqId, d: DevId)
    requires Inv(s) && id in s.reqs && !s.reqs[id].isReply
    requires d in Run(s, es).q.processing
    ensures id !in Run(s, es).q.processing[d]
  {
    var t := Run(s, es);
    RunReq(s, es, id);
    if id in t.q.processing[d] {
      ProcessedExpectsReply(t, d, id);
    }
  }

  lemma ProcessedExpectsReply(t: Conn, d: DevId, id: ReqId)
    requires Inv(t) && d in t.q.processing && id in t.q.processing[d]
    ensures id in t.reqs && t.reqs[id].isReply
  {
    Members(t.q, t.reqs);
    At(t, id);
  }

  // ---------------------------------------------------------------- the background scheduler

  /** In every reachable state the counters are exact and the limit is respected. Nothing waits unless the
      limit is reached or a flush_bg_queue is under way, and `blocked` tells whether the limit is reached,
      except while abort has cleared it and not yet lifted the limit. */
  lemma SchedulerExact(s: Conn)
    requires Inv(s)
    ensures s.sched.numBackground == |set id | id in s.reqs && s.reqs[id].background|
    ensures s.sched.numBackground == s.sched.activeBackground + |s.q.bg|
    ensures 0 <= s.sched.activeBackground <= s.sched.maxBackground
    ensures s.q.bg != [] ==> s.sched.activeBackground == s.sched.maxBackground || s.lock.Flushing? || s.lock == LastFlush
    ensures !s.lock.Sweeping? ==> (s.sched.blocked <==> s.sched.numBackground >= s.sched.maxBackground)
    ensures s.sched.submitted == s.sched.flushed + s.q.bg
  {
    assert Backgrounds(s.reqs) == set id | id in s.reqs && s.reqs[id].background;
  }

  /** The first k requests of bg_queue have gone to the tail of pending, in order. */
  ghost predicate FlushedTo(s: Conn, t: Conn, k: nat)
    requires k <= |s.q.bg|
  {
    && t.q.pending == s.q.pending + s.q.bg[..k]
    && t.q.bg == s.q.bg[k..]
    && t.sched.flushed == s.sched.flushed + s.q.bg[..k]
    && t.sched.activeBackground == s.sched.activeBackground + k
    && t.reqctr == s.reqctr + k
  }

  /** How many requests the limit lets through. */
  function Allowed(s: Conn): nat
    requires s.sched.activeBackground <= s.sched.maxBackground
  {
    Min(|s.q.bg|, s.sched.maxBackground - s.sched.activeBackground)
  }

  /** flush_bg_queue moves as many requests as the limit allows, from the head of bg_queue to the
      tail of pending, in order. With `submitted == flushed + bg_queue` above, background requests
      enter pending in the order in which they were sent. */
  lemma {:induction false} FlushInOrder(s: Conn)
    requires Linked(s.q, s.reqs, s.devs) && s.sched.activeBackground <= s.sched.maxBackground
    ensures forall id :: id in s.q.bg ==> id in s.reqs && s.reqs[id].on == OnBg
    ensures FlushedTo(s, Flush(s), Allowed(s))
    decreases s.sched.maxBackground - s.sched.activeBackground
  {
    Members(s.q, s.reqs);
    if s.sched.activeBackground < s.sched.maxBackground && s.q.bg != [] {
      FlushOneTail(s);
      FlushInOrder(FlushOne(s));
      OneMoreFlushed(s, FlushOne(s), Flush(s), Allowed(s));
    }
  }

  lemma {:induction false} OneMoreFlushed(s: Conn, m: Conn, t: Conn, k: nat)
    requires 1 <= k <= |s.q.bg| && m.q.bg == s.q.bg[1..] && m.q.pending == s.q.pending + [s.q.bg[0]]
    requires m.sched == Activate(s.sched, s.q.bg[0]) && m.reqctr == s.reqctr + 1
    requires FlushedTo(m, t, k - 1)
    ensures FlushedTo(s, t, k)
  {
    assert s.q.bg[..k] == [s.q.bg[0]] + s.q.bg[1..][..k - 1];
  }

  lemma FlushOneTail(s: Conn)
    requires Linked(s.q, s.reqs, s.devs) && s.q.bg != []
    ensures s.q.bg[0] in s.reqs && s.reqs[s.q.bg[0]].on == OnBg
    ensures var t := FlushOne(s);
      && Linked(t.q, t.reqs, t.devs) && t.q.bg == s.q.bg[1..] && t.q.pending == s.q.pending + [s.q.bg[0]]
      && t.sched == Activate(s.sched, s.q.bg[0]) && t.reqctr == s.reqctr + 1
  {
    FlushOneQueues(s);
    MoveLinked(s.q, s.reqs, s.devs, s.q.bg[0], Flushed(s.reqs[s.q.bg[0]], s.reqctr + 1));
  }

  // ---------------------------------------------------------------- interrupts

  /** No interrupt is lost: a request that is both FR_INTERRUPTED and FR_SENT, and whose reader and
      waiter are both through with their test and with the queue_interrupt it may lead to, has its
      interrupt on the list or already delivered, unless the request has finished. */
  lemma NoLostInterrupt(s: Conn, id: ReqId)
    requires Inv(s) && id in s.reqs
    requires s.reqs[id].interrupted && s.reqs[id].sent && !s.reqs[id].finished
    requires s.reqs[id].waiter !in {TestingSent, WaiterQueues} && s.reqs[id].reader !in {TestingInterrupted, ReaderQueues}
    ensures id in s.interrupts || s.reqs[id].intrUnique != 0
  {
    At(s, id);
  }

  /** No interrupt is late: once request_end has taken a request off the interrupts list, it is not
      put back, and an interrupt is only ever queued for a request that userspace has read. */
  lemma NoLateInterrupt(s: Conn, id: ReqId)
    requires Inv(s) && id in s.interrupts
    ensures id in s.reqs && s.reqs[id].ender in {NotEnding, Removing}
    ensures !s.reqs[id].pending && PastIo(s.reqs[id])
  {
    At(s, id);
  }
}
