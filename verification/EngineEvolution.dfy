/**
 What one section can do to a request that already exists, and what therefore lasts. The invariant tells
 what a state is like; some results are about two states of a run, such as that a request once answered
 stays so, that it keeps its ID, or that the error with which an abort ends it is not overwritten.
 They follow from a relation between an earlier and a later form of the same request that every section
 keeps and that holds from any state of a run to any later one.
 */
module EngineEvolution {
  import opened Errno
  import opened Requests
  import opened RequestQueues
  import opened RequestEngine
  import opened EngineInvariant

  /** fuse_abort_conn did not see the request: a reader had it in hand, or read it behind the sweep of its
      device. Its copier ends it with the error it had (none), or with the reader's own -EIO or -E2BIG. */
  ghost predicate Missed(r: Req) {
    && !r.aborted && r.on != OnEnd1 && r.on != OnEnd2
    && if r.finished then r.error in {0, EIO, E2BIG}
       else r.error == 0 && (r.reader.InHand? || r.reader.Reading?)
  }

  /** fuse_abort_conn saw the request. */
  ghost predicate Doomed(r: Req) {
    || r.aborted
    || (r.on == OnEnd2 && !r.finished)
    || r.unlinked
    || (r.finished && r.error == ECONNABORTED)
  }

  /** The facts about a request that no section undoes; `open` is fiq->connected. */
  ghost predicate Evolves(open: bool, r: Req, r': Req) {
    && r'.isReply == r.isReply
    && (r.unique != 0 ==> r'.unique == r.unique)
    && (r.finished ==> r'.finished && r'.error == r.error)
    && (r.replier != NotReplied ==> r'.replier != NotReplied)
    && (r.bailed ==> r'.bailed) && (r.unlinked ==> r'.unlinked)
    && (Doomed(r) ==> Doomed(r'))
    && (r.abortRef && !r.freed ==> r'.abortRef && !r'.freed)
    && (!open ==> (Missed(r) ==> Missed(r')))
  }

  ghost predicate EvolvesAt(open: bool, reqs: map<ReqId, Req>, reqs': map<ReqId, Req>, id: ReqId) {
    id in reqs ==> id in reqs' && Evolves(open, reqs[id], reqs'[id])
  }

  ghost predicate AllEvolve(open: bool, reqs: map<ReqId, Req>, reqs': map<ReqId, Req>) {
    forall id :: EvolvesAt(open, reqs, reqs', id)
  }

  lemma OneEvolves(open: bool, reqs: map<ReqId, Req>, id: ReqId, r: Req)
    requires id in reqs ==> Evolves(open, reqs[id], r)
    ensures AllEvolve(open, reqs, reqs[id := r])
  {
    var reqs' := reqs[id := r];
    forall x ensures EvolvesAt(open, reqs, reqs', x) {}
  }

  lemma NoneEvolves(open: bool, reqs: map<ReqId, Req>)
    ensures AllEvolve(open, reqs, reqs)
  {
    forall x ensures EvolvesAt(open, reqs, reqs, x) {}
  }

  lemma FlushedEvolves(f: Flags, queued: bool, r: Req, unique: nat)
    requires RequestOk(f, queued, r)
    requires r.on == OnBg
    ensures Evolves(f.open, r, Flushed(r, unique))
  {
  }

  lemma TakeEvolves(f: Flags, queued: bool, r: Req, d: DevId)
    requires RequestOk(f, queued, r)
    requires r.on == OnPending
    ensures Evolves(f.open, r, Take(r, d))
  {
  }

  lemma OversizeEvolves(f: Flags, queued: bool, r: Req, setxattr: bool)
    requires RequestOk(f, queued, r)
    requires r.reader.InHand?
    ensures Evolves(f.open, r, Oversize(r, setxattr))
  {
  }

  lemma StartCopyEvolves(f: Flags, queued: bool, r: Req)
    requires RequestOk(f, queued, r)
    requires r.reader.InHand?
    ensures Evolves(f.open, r, StartCopy(r))
  {
  }

  lemma EndReadEvolves(f: Flags, queued: bool, r: Req, failed: bool)
    requires RequestOk(f, queued, r)
    requires r.reader.Reading? && r.reader.dev in f.devs
    ensures Evolves(f.open, r, EndRead(r, f.devs[r.reader.dev], failed))
  {
  }

  lemma StartReplyEvolves(f: Flags, queued: bool, r: Req, d: DevId, error: int)
    requires RequestOk(f, queued, r)
    requires r.on == OnProcessing(d)
    ensures Evolves(f.open, r, StartReply(r, d, error))
  {
  }

  lemma EndReplyEvolves(f: Flags, queued: bool, r: Req, failed: bool)
    requires RequestOk(f, queued, r)
    requires r.replier.Copying? && r.replier.dev in f.devs
    ensures Evolves(f.open, r, EndReply(r, f.devs[r.replier.dev], failed))
  {
  }

  lemma DieEvolves(f: Flags, queued: bool, r: Req)
    requires RequestOk(f, queued, r)
    requires r.waiter == Killable
    ensures Evolves(f.open, r, Die(r))
  {
  }

  lemma EndPrivateEvolves(f: Flags, queued: bool, r: Req)
    requires RequestOk(f, queued, r)
    requires r.on == OnEnd1
    ensures Evolves(f.open, r, EndPrivate(r))
  {
  }

  lemma UnlinkEvolves(f: Flags, queued: bool, r: Req)
    requires RequestOk(f, queued, r) && Within(f.closed, r)
    ensures Evolves(f.open, r, Unlink(r))
  {
  }

  lemma EndUnlinkedEvolves(f: Flags, queued: bool, r: Req)
    requires RequestOk(f, queued, r) && r.unlinked
    ensures Evolves(f.open, r, StartEnd(r))
  {
  }

  lemma AbortReqEvolves(f: Flags, queued: bool, r: Req)
    requires RequestOk(f, queued, r) && f.open
    ensures Evolves(true, r, AbortReq(r))
  {
  }

  lemma PastIoEvolves(f: Flags, queued: bool, r: Req, r': Req)
    requires RequestOk(f, queued, r) && PastIo(r) && PastIo(r')
    requires r' == r.(reader := r'.reader, sent := r'.sent, late := r'.late)
    ensures Evolves(f.open, r, r')
  {
  }

  /** Sections that leave the list, the outcome and the copiers alone. */
  lemma OtherEvolves(open: bool, r: Req, r': Req)
    requires r'.isReply == r.isReply && r'.unique == r.unique && r'.finished == r.finished && r'.error == r.error
    requires r'.replier == r.replier && r'.bailed == r.bailed && r'.aborted == r.aborted && r'.unlinked == r.unlinked
    requires r'.on == r.on && r'.reader == r.reader
    requires r.abortRef && !r.freed ==> r'.abortRef && !r'.freed
    ensures Evolves(open, r, r')
  {
  }

  // ---------------------------------------------------------------- section by section

  lemma SendForegroundEvolves(s: Conn, id: ReqId, isReply: bool, force: bool)
    requires id !in s.reqs
    ensures AllEvolve(s.open, s.reqs, SendForeground(s, id, isReply, force).reqs)
  {
    NoneEvolves(s.open, s.reqs);
    OneEvolves(s.open, s.reqs, id, Foreground(s.reqctr + 1, isReply, force, s.noInterrupt));
  }

  lemma SendBackgroundEvolves(s: Conn, id: ReqId)
    requires id !in s.reqs
    ensures AllEvolve(s.open, s.reqs, SendBackground(s, id).reqs)
  {
    NoneEvolves(s.open, s.reqs);
    OneEvolves(s.open, s.reqs, id, Background());
  }

  lemma SendNotifyEvolves(s: Conn, id: ReqId, unique: nat)
    requires id !in s.reqs
    ensures AllEvolve(s.open, s.reqs, SendNotify(s, id, unique).reqs)
  {
    NoneEvolves(s.open, s.reqs);
    OneEvolves(s.open, s.reqs, id, Notify(unique));
  }

  lemma DeliverEvolves(s: Conn, id: ReqId)
    requires id in s.reqs
    ensures AllEvolve(s.open, s.reqs, Deliver(s, id).reqs)
  {
    var r := Interrupt(s.reqs[id], s.reqctr + 1);
    assert Deliver(s, id).reqs == s.reqs[id := r];
    OtherEvolves(s.open, s.reqs[id], r);
    OneEvolves(s.open, s.reqs, id, r);
  }

  lemma ReadRequestEvolves(s: Conn, d: DevId)
    requires Core(s) && s.q.pending != [] && s.q.pending[0] in s.reqs && s.reqs[s.q.pending[0]].on == OnPending
    ensures AllEvolve(s.open, s.reqs, ReadRequest(s, d).reqs)
  {
    var id := s.q.pending[0];
    assert Evolves(s.open, s.reqs[id], Take(s.reqs[id], d)) by {
      At(s, id);
      TakeEvolves(FlagsOf(s), id in s.interrupts, s.reqs[id], d);
    }
    OneEvolves(s.open, s.reqs, id, Take(s.reqs[id], d));
  }

  lemma ReadEvolves(s: Conn, d: DevId, max: nat)
    requires Inv(s)
    ensures forall id :: id in s.interrupts || id in s.q.pending ==> id in s.reqs
    ensures AllEvolve(s.open, s.reqs, Read(s, d, max).reqs)
  {
    Members(s.q, s.reqs);
    NoneEvolves(s.open, s.reqs);
    if s.open {
      match ReadChoice(s).0
      case Interrupt => DeliverEvolves(s, s.interrupts[0]);
      case Request => ReadRequestEvolves(s, d);
      case _ =>
    }
  }

  lemma TooLargeEvolves(s: Conn, id: ReqId, setxattr: bool)
    requires Core(s) && id in s.reqs && s.reqs[id].reader.InHand?
    ensures AllEvolve(s.open, s.reqs, TooLarge(s, id, setxattr).reqs)
  {
    var r := Oversize(s.reqs[id], setxattr);
    assert Evolves(s.open, s.reqs[id], r) by {
      At(s, id);
      OversizeEvolves(FlagsOf(s), id in s.interrupts, s.reqs[id], setxattr);
    }
    OneEvolves(s.open, s.reqs, id, r);
  }

  lemma AddIoEvolves(s: Conn, id: ReqId)
    requires Core(s) && id in s.reqs && s.reqs[id].reader.InHand?
    ensures AllEvolve(s.open, s.reqs, AddIo(s, id).reqs)
  {
    var r := StartCopy(s.reqs[id]);
    assert Evolves(s.open, s.reqs[id], r) by {
      At(s, id);
      StartCopyEvolves(FlagsOf(s), id in s.interrupts, s.reqs[id]);
    }
    OneEvolves(s.open, s.reqs, id, r);
  }

  lemma LockEvolves(s: Conn, id: ReqId, locked: bool)
    requires id in s.reqs
    ensures AllEvolve(s.open, s.reqs, LockRequest(s, id, locked).reqs)
  {
    var r := SetLocked(s.reqs[id], locked);
    OtherEvolves(s.open, s.reqs[id], r);
    OneEvolves(s.open, s.reqs, id, r);
  }

  lemma FinishReadEvolves(s: Conn, id: ReqId, failed: bool)
    requires Core(s) && id in s.reqs && s.reqs[id].reader.Reading?
    ensures AllEvolve(s.open, s.reqs, FinishRead(s, id, failed).reqs)
  {
    var r := EndRead(s.reqs[id], Alive(s, s.reqs[id].reader.dev), failed);
    assert Evolves(s.open, s.reqs[id], r) by {
      At(s, id);
      EndReadEvolves(FlagsOf(s), id in s.interrupts, s.reqs[id], failed);
    }
    OneEvolves(s.open, s.reqs, id, r);
  }

  lemma PastIoStep(s: Conn, id: ReqId, r: Req)
    requires Core(s) && id in s.reqs && PastIo(s.reqs[id]) && PastIo(r)
    requires r == s.reqs[id].(reader := r.reader, sent := r.sent, late := r.late)
    ensures AllEvolve(s.open, s.reqs, s.reqs[id := r])
  {
    assert Evolves(s.open, s.reqs[id], r) by {
      At(s, id);
      PastIoEvolves(FlagsOf(s), id in s.interrupts, s.reqs[id], r);
    }
    OneEvolves(s.open, s.reqs, id, r);
  }

  lemma StartReplyStep(s: Conn, d: DevId, id: ReqId, error: int)
    requires Core(s) && id in s.reqs && s.reqs[id].on == OnProcessing(d)
    ensures AllEvolve(s.open, s.reqs, s.reqs[id := StartReply(s.reqs[id], d, error)])
  {
    var r := StartReply(s.reqs[id], d, error);
    assert Evolves(s.open, s.reqs[id], r) by {
      At(s, id);
      StartReplyEvolves(FlagsOf(s), id in s.interrupts, s.reqs[id], d, error);
    }
    OneEvolves(s.open, s.reqs, id, r);
  }

  lemma ReplyEvolves(s: Conn, d: DevId, u: nat, error: int, h: bool)
    requires Inv(s) && d in s.q.processing
    ensures forall id :: id in s.q.processing[d] ==> id in s.reqs
    ensures AllEvolve(s.open, s.reqs, Reply(s, d, u, error, h).reqs)
  {
    Members(s.q, s.reqs);
    NoneEvolves(s.open, s.reqs);
    match RequestFind(s.reqs, s.q.processing[d], u)
    case NotFound =>
    case Found(id) => StartReplyStep(s, d, id, error);
  }

  lemma FinishReplyEvolves(s: Conn, id: ReqId, failed: bool)
    requires Core(s) && id in s.reqs && s.reqs[id].replier.Copying?
    ensures AllEvolve(s.open, s.reqs, FinishReply(s, id, failed).reqs)
  {
    var r := EndReply(s.reqs[id], Alive(s, s.reqs[id].replier.dev), failed);
    assert Evolves(s.open, s.reqs[id], r) by {
      At(s, id);
      EndReplyEvolves(FlagsOf(s), id in s.interrupts, s.reqs[id], failed);
    }
    OneEvolves(s.open, s.reqs, id, r);
  }

  /** Sections that leave the list, the outcome and the copiers of request id alone. */
  lemma OtherStep(s: Conn, id: ReqId, r: Req)
    requires id in s.reqs
    requires r.isReply == s.reqs[id].isReply && r.unique == s.reqs[id].unique && r.finished == s.reqs[id].finished
    requires r.error == s.reqs[id].error && r.replier == s.reqs[id].replier && r.bailed == s.reqs[id].bailed
    requires r.aborted == s.reqs[id].aborted && r.on == s.reqs[id].on && r.reader == s.reqs[id].reader
    requires r.unlinked == s.reqs[id].unlinked
    requires s.reqs[id].abortRef && !s.reqs[id].freed ==> r.abortRef && !r.freed
    ensures AllEvolve(s.open, s.reqs, s.reqs[id := r])
  {
    OtherEvolves(s.open, s.reqs[id], r);
    OneEvolves(s.open, s.reqs, id, r);
  }

  lemma EndRemoveEvolves(s: Conn, id: ReqId)
    requires id in s.reqs
    ensures AllEvolve(s.open, s.reqs, EndRemove(s, id).reqs)
  {
    OtherStep(s, id, Removed(s.reqs[id]));
  }

  lemma EndAccountEvolves(s: Conn, id: ReqId)
    requires id in s.reqs
    ensures AllEvolve(s.open, s.reqs, EndAccount(s, id).reqs)
  {
    OtherStep(s, id, Accounted(s.reqs[id]));
  }

  /** The last reference is not dropped while abort has one. */
  lemma AbortRefStays(s: Conn, id: ReqId)
    requires Core(s) && id in s.reqs && s.reqs[id].abortRef
    requires s.reqs[id].ender == CallingBack || s.reqs[id].waiter == Returned
    ensures s.reqs[id].count >= 2
  {
    At(s, id);
  }

  lemma EndCallbackEvolves(s: Conn, id: ReqId)
    requires Core(s) && id in s.reqs && s.reqs[id].ender == CallingBack
    ensures AllEvolve(s.open, s.reqs, EndCallback(s, id).reqs)
  {
    if s.reqs[id].abortRef { AbortRefStays(s, id); }
    OtherStep(s, id, CalledBack(s.reqs[id]));
  }

  lemma SignalEvolves(s: Conn, id: ReqId)
    requires id in s.reqs
    ensures AllEvolve(s.open, s.reqs, Signal(s, id).reqs)
  {
    OtherStep(s, id, Signalled(s.reqs[id]));
  }

  lemma TestSentEvolves(s: Conn, id: ReqId)
    requires id in s.reqs
    ensures AllEvolve(s.open, s.reqs, TestSent(s, id).reqs)
  {
    OtherStep(s, id, TestedSent(s.reqs[id]));
  }

  lemma WaiterQueueEvolves(s: Conn, id: ReqId)
    requires id in s.reqs
    ensures AllEvolve(s.open, s.reqs, WaiterQueue(s, id).reqs)
  {
    OtherStep(s, id, s.reqs[id].(waiter := SecondWait(s.reqs[id].force)));
  }

  lemma ReturnEvolves(s: Conn, id: ReqId)
    requires id in s.reqs
    ensures AllEvolve(s.open, s.reqs, Return(s, id).reqs)
  {
    OtherStep(s, id, s.reqs[id].(waiter := Returned));
  }

  lemma ReleaseEvolves(s: Conn, id: ReqId)
    requires Core(s) && id in s.reqs && s.reqs[id].waiter == Returned
    ensures AllEvolve(s.open, s.reqs, Release(s, id).reqs)
  {
    if s.reqs[id].abortRef { AbortRefStays(s, id); }
    OtherStep(s, id, Released(s.reqs[id]));
  }

  lemma SetSentEvolves(s: Conn, id: ReqId)
    requires Core(s) && id in s.reqs && s.reqs[id].reader == SettingSent
    ensures AllEvolve(s.open, s.reqs, SetSent(s, id).reqs)
  {
    PastIoStep(s, id, Sent(s.reqs[id]));
  }

  lemma TestInterruptedEvolves(s: Conn, id: ReqId)
    requires Core(s) && id in s.reqs && s.reqs[id].reader == TestingInterrupted
    ensures AllEvolve(s.open, s.reqs, TestInterrupted(s, id).reqs)
  {
    PastIoStep(s, id, TestedInterrupted(s.reqs[id]));
  }

  lemma ReaderQueueEvolves(s: Conn, id: ReqId)
    requires Core(s) && id in s.reqs && s.reqs[id].reader == ReaderQueues
    ensures AllEvolve(s.open, s.reqs, ReaderQueue(s, id).reqs)
  {
    PastIoStep(s, id, s.reqs[id].(reader := ReadDone));
  }

  lemma FlushTurnEvolves(s: Conn)
    requires Core(s)
    ensures s.q.bg != [] ==> s.q.bg[0] in s.reqs
    ensures AllEvolve(s.open, s.reqs, FlushTurn(s).reqs)
  {
    Members(s.q, s.reqs);
    NoneEvolves(s.open, s.reqs);
    if CanFlush(s) { FlushedStep(s, s.q.bg[0]); }
  }

  lemma FlushedStep(s: Conn, id: ReqId)
    requires Core(s) && id in s.reqs && s.reqs[id].on == OnBg
    ensures AllEvolve(s.open, s.reqs, s.reqs[id := Flushed(s.reqs[id], s.reqctr + 1)])
  {
    var r := Flushed(s.reqs[id], s.reqctr + 1);
    assert Evolves(s.open, s.reqs[id], r) by {
      At(s, id);
      FlushedEvolves(FlagsOf(s), id in s.interrupts, s.reqs[id], s.reqctr + 1);
    }
    OneEvolves(s.open, s.reqs, id, r);
  }

  lemma KillEvolves(s: Conn, id: ReqId)
    requires Core(s) && id in s.reqs && s.reqs[id].waiter == Killable
    ensures AllEvolve(s.open, s.reqs, Kill(s, id).reqs)
  {
    assert Evolves(s.open, s.reqs[id], Die(s.reqs[id])) by {
      At(s, id);
      DieEvolves(FlagsOf(s), id in s.interrupts, s.reqs[id]);
    }
    OneEvolves(s.open, s.reqs, id, Die(s.reqs[id]));
  }

  /** A section of abort marks some of the requests. */
  lemma MarkedEvolves(s: Conn, marked: map<ReqId, Req>)
    requires Core(s) && s.open && Marked(s.reqs, marked)
    ensures AllEvolve(true, s.reqs, marked)
  {
    NoneEvolves(true, s.reqs);
    forall x ensures EvolvesAt(true, s.reqs, marked, x) {
      assert EvolvesAt(true, s.reqs, s.reqs, x);
      if x in s.reqs {
        At(s, x);
        AbortReqEvolves(FlagsOf(s), x in s.interrupts, s.reqs[x]);
      }
    }
  }

  lemma AbortEnd1Evolves(s: Conn, id: ReqId)
    requires Core(s) && id in s.q.end1
    ensures id in s.reqs && AllEvolve(s.open, s.reqs, AbortEnd1(s, id).reqs)
  {
    Members(s.q, s.reqs);
    assert Evolves(s.open, s.reqs[id], EndPrivate(s.reqs[id])) by {
      At(s, id);
      EndPrivateEvolves(FlagsOf(s), id in s.interrupts, s.reqs[id]);
    }
    OneEvolves(s.open, s.reqs, id, EndPrivate(s.reqs[id]));
  }

  lemma UnlinkPickedEvolves(s: Conn, p: Picker)
    requires Core(s) && p in s.picked
    ensures s.picked[p].id in s.reqs && AllEvolve(s.open, s.reqs, UnlinkPicked(s, p).reqs)
  {
    Gripped(s, p);
    var id := s.picked[p].id;
    assert Evolves(s.open, s.reqs[id], Unlink(s.reqs[id])) by {
      At(s, id);
      UnlinkEvolves(FlagsOf(s), id in s.interrupts, s.reqs[id]);
    }
    OneEvolves(s.open, s.reqs, id, Unlink(s.reqs[id]));
  }

  lemma EndPickedEvolves(s: Conn, p: Picker)
    requires Core(s) && p in s.picked && s.picked[p].unlinked
    ensures s.picked[p].id in s.reqs && AllEvolve(s.open, s.reqs, EndPicked(s, p).reqs)
  {
    Gripped(s, p);
    var id := s.picked[p].id;
    assert Evolves(s.open, s.reqs[id], StartEnd(s.reqs[id])) by {
      At(s, id);
      EndUnlinkedEvolves(FlagsOf(s), id in s.interrupts, s.reqs[id]);
    }
    OneEvolves(s.open, s.reqs, id, StartEnd(s.reqs[id]));
  }

  // ---------------------------------------------------------------- all sections

  lemma SendAllEvolve(s: Conn, e: Event)
    requires Inv(s) && Enabled(s, e) && IsSend(e)
    ensures AllEvolve(s.open, s.reqs, SendStep(s, e).reqs)
  {
    match e
    case ESendForeground(id, isReply, force) => SendForegroundEvolves(s, id, isReply, force);
    case ESendNotify(id, unique) => SendNotifyEvolves(s, id, unique);
  }

  lemma EnqueueAllEvolve(s: Conn, e: Event)
    requires Inv(s) && Enabled(s, e) && IsEnqueue(e)
    ensures AllEvolve(s.open, s.reqs, EnqueueStep(s, e).reqs)
  {
    NoneEvolves(s.open, s.reqs);
    match e
    case ESendBackground(id) => SendBackgroundEvolves(s, id);
    case _ =>
  }

  lemma TakeAllEvolve(s: Conn, e: Event)
    requires Inv(s) && Enabled(s, e) && IsTake(e)
    ensures AllEvolve(s.open, s.reqs, TakeStep(s, e).reqs)
  {
    match e
    case ERead(dev, max) => ReadEvolves(s, dev, max);
    case ETooLarge(id, setxattr) => TooLargeEvolves(s, id, setxattr);
  }

  lemma CopyAllEvolve(s: Conn, e: Event)
    requires Inv(s) && Enabled(s, e) && IsCopy(e)
    ensures AllEvolve(s.open, s.reqs, CopyStep(s, e).reqs)
  {
    match e
    case EAddIo(id) => AddIoEvolves(s, id);
    case ELockRequest(id, locked) => LockEvolves(s, id, locked);
  }

  lemma FinishAllEvolve(s: Conn, e: Event)
    requires Inv(s) && Enabled(s, e) && IsFinish(e)
    ensures AllEvolve(s.open, s.reqs, FinishStep(s, e).reqs)
  {
    match e
    case EFinishRead(id, failed) => FinishReadEvolves(s, id, failed);
    case EFinishReply(id, failed) => FinishReplyEvolves(s, id, failed);
  }

  lemma SentAllEvolve(s: Conn, e: Event)
    requires Inv(s) && Enabled(s, e) && IsSent(e)
    ensures AllEvolve(s.open, s.reqs, SentStep(s, e).reqs)
  {
    match e
    case ESetSent(id) => SetSentEvolves(s, id);
    case ETestInterrupted(id) => TestInterruptedEvolves(s, id);
  }

  lemma SignalAllEvolve(s: Conn, e: Event)
    requires Inv(s) && Enabled(s, e) && IsSignal(e)
    ensures AllEvolve(s.open, s.reqs, SignalStep(s, e).reqs)
  {
    match e
    case ESignal(id) => SignalEvolves(s, id);
    case ETestSent(id) => TestSentEvolves(s, id);
  }

  lemma QueueAllEvolve(s: Conn, e: Event)
    requires Inv(s) && Enabled(s, e) && IsQueue(e)
    ensures AllEvolve(s.open, s.reqs, QueueStep(s, e).reqs)
  {
    match e
    case EReaderQueue(id) => ReaderQueueEvolves(s, id);
    case EWaiterQueue(id) => WaiterQueueEvolves(s, id);
    case ERequeue(id) => NoneEvolves(s.open, s.reqs);
  }

  lemma ReplyAllEvolve(s: Conn, e: Event)
    requires Inv(s) && Enabled(s, e) && IsReply(e)
    ensures AllEvolve(s.open, s.reqs, ReplyStep(s, e).reqs)
  {
    match e
    case EReply(dev, unique, error, headerOnly) => ReplyEvolves(s, dev, unique, error, headerOnly);
  }

  lemma EndAllEvolve(s: Conn, e: Event)
    requires Inv(s) && Enabled(s, e) && IsEnd(e)
    ensures AllEvolve(s.open, s.reqs, EndStep(s, e).reqs)
  {
    match e
    case EEndRemove(id) => EndRemoveEvolves(s, id);
    case EEndCallback(id) => EndCallbackEvolves(s, id);
  }

  lemma FlushAllEvolve(s: Conn, e: Event)
    requires Inv(s) && Enabled(s, e) && IsFlush(e)
    ensures AllEvolve(s.open, s.reqs, FlushStep(s, e).reqs)
  {
    match e
    case EEndAccount(id) => EndAccountEvolves(s, id);
    case EFlushTurn => FlushTurnEvolves(s);
  }

  lemma WaitAllEvolve(s: Conn, e: Event)
    requires Inv(s) && Enabled(s, e) && IsWait(e)
    ensures AllEvolve(s.open, s.reqs, WaitStep(s, e).reqs)
  {
    match e
    case EKill(id) => KillEvolves(s, id);
    case EReturn(id) => ReturnEvolves(s, id);
  }

  lemma ReleaseAllEvolve(s: Conn, e: Event)
    requires Inv(s) && Enabled(s, e) && IsRelease(e)
    ensures AllEvolve(s.open, s.reqs, ReleaseStep(s, e).reqs)
  {
    match e
    case ERelease(id) => ReleaseEvolves(s, id);
  }

  lemma AbortAllEvolve(s: Conn, e: Event)
    requires Inv(s) && Enabled(s, e) && IsAbort(e)
    ensures AllEvolve(s.open, s.reqs, AbortStep(s, e).reqs)
  {
    NoneEvolves(s.open, s.reqs);
    match e
    case EAbortDevice(dev) => MarkedEvolves(s, AbortDevice(s, dev).reqs);
    case _ =>
  }

  lemma CloseAllEvolve(s: Conn, e: Event)
    requires Inv(s) && Enabled(s, e) && IsClose(e)
    ensures AllEvolve(s.open, s.reqs, CloseStep(s, e).reqs)
  {
    NoneEvolves(s.open, s.reqs);
    match e
    case EAbortClose => MarkedEvolves(s, AbortClose(s).reqs);
    case _ =>
  }

  lemma RestAllEvolve(s: Conn, e: Event)
    requires Inv(s) && Enabled(s, e) && IsRest(e)
    ensures AllEvolve(s.open, s.reqs, RestStep(s, e).reqs)
  {
    match e
    case EAbortEnd1(id) => AbortEnd1Evolves(s, id);
    case EAbortPick(id) => NoneEvolves(s.open, s.reqs);
  }

  lemma PickedAllEvolve(s: Conn, e: Event)
    requires Inv(s) && Enabled(s, e) && IsPicked(e)
    ensures AllEvolve(s.open, s.reqs, PickedStep(s, e).reqs)
  {
    match e
    case EUnlinkPicked(p) => UnlinkPickedEvolves(s, p);
    case EEndPicked(p) => EndPickedEvolves(s, p);
  }

  lemma DeviceAllEvolve(s: Conn, e: Event)
    requires Inv(s) && Enabled(s, e) && IsDevice(e)
    ensures AllEvolve(s.open, s.reqs, DeviceStep(s, e).reqs)
  {
    NoneEvolves(s.open, s.reqs);
  }

  lemma OutAllEvolve(s: Conn, e: Event)
    requires Inv(s) && Enabled(s, e) && IsOut(e)
    ensures AllEvolve(s.open, s.reqs, OutStep(s, e).reqs)
  {
    if IsSend(e) {
      SendAllEvolve(s, e);
    } else if IsEnqueue(e) {
      EnqueueAllEvolve(s, e);
    } else if IsTake(e) {
      TakeAllEvolve(s, e);
    } else {
      CopyAllEvolve(s, e);
    }
  }

  lemma PassAllEvolve(s: Conn, e: Event)
    requires Inv(s) && Enabled(s, e) && IsPass(e)
    ensures AllEvolve(s.open, s.reqs, PassStep(s, e).reqs)
  {
    if IsFinish(e) {
      FinishAllEvolve(s, e);
    } else if IsSent(e) {
      SentAllEvolve(s, e);
    } else if IsSignal(e) {
      SignalAllEvolve(s, e);
    } else {
      QueueAllEvolve(s, e);
    }
  }

  lemma BackAllEvolve(s: Conn, e: Event)
    requires Inv(s) && Enabled(s, e) && IsBack(e)
    ensures AllEvolve(s.open, s.reqs, BackStep(s, e).reqs)
  {
    if IsReply(e) {
      ReplyAllEvolve(s, e);
    } else if IsEnd(e) {
      EndAllEvolve(s, e);
    } else if IsFlush(e) {
      FlushAllEvolve(s, e);
    } else if IsWait(e) {
      WaitAllEvolve(s, e);
    } else {
      ReleaseAllEvolve(s, e);
    }
  }

  lemma DownAllEvolve(s: Conn, e: Event)
    requires Inv(s) && Enabled(s, e) && IsDown(e)
    ensures AllEvolve(s.open, s.reqs, DownStep(s, e).reqs)
  {
    if IsAbort(e) {
      AbortAllEvolve(s, e);
    } else if IsClose(e) {
      CloseAllEvolve(s, e);
    } else if IsRest(e) {
      RestAllEvolve(s, e);
    } else if IsPicked(e) {
      PickedAllEvolve(s, e);
    } else {
      DeviceAllEvolve(s, e);
    }
  }

  /** Every request evolves, whatever section of whatever thread comes next. */
  lemma NextEvolves(s: Conn, e: Event)
    requires Inv(s)
    ensures AllEvolve(s.open, s.reqs, Next(s, e).reqs)
  {
    NoneEvolves(s.open, s.reqs);
    if Enabled(s, e) {
      if IsOut(e) {
        OutAllEvolve(s, e);
      } else if IsPass(e) {
        PassAllEvolve(s, e);
      } else if IsBack(e) {
        BackAllEvolve(s, e);
      } else {
        DownAllEvolve(s, e);
      }
    }
  }

  // ---------------------------------------------------------------- the flags

  /** The connected flags are only ever cleared, and only by abort. */
  ghost predicate FlagsFall(s: Conn, t: Conn) { (t.open ==> s.open) && (t.connected ==> s.connected) }

  lemma SendFlags(s: Conn, e: Event)
    requires Named(s) && Enabled(s, e) && IsSend(e)
    ensures FlagsFall(s, SendStep(s, e))
  {
  }

  lemma EnqueueFlags(s: Conn, e: Event)
    requires Named(s) && Enabled(s, e) && IsEnqueue(e)
    ensures FlagsFall(s, EnqueueStep(s, e))
  {
  }

  lemma TakeFlags(s: Conn, e: Event)
    requires Named(s) && Enabled(s, e) && IsTake(e)
    ensures FlagsFall(s, TakeStep(s, e))
  {
  }

  lemma CopyFlags(s: Conn, e: Event)
    requires Named(s) && Enabled(s, e) && IsCopy(e)
    ensures FlagsFall(s, CopyStep(s, e))
  {
  }

  lemma FinishFlags(s: Conn, e: Event)
    requires Named(s) && Enabled(s, e) && IsFinish(e)
    ensures FlagsFall(s, FinishStep(s, e))
  {
  }

  lemma SentFlags(s: Conn, e: Event)
    requires Named(s) && Enabled(s, e) && IsSent(e)
    ensures FlagsFall(s, SentStep(s, e))
  {
  }

  lemma SignalFlags(s: Conn, e: Event)
    requires Named(s) && Enabled(s, e) && IsSignal(e)
    ensures FlagsFall(s, SignalStep(s, e))
  {
  }

  lemma QueueFlags(s: Conn, e: Event)
    requires Named(s) && Enabled(s, e) && IsQueue(e)
    ensures FlagsFall(s, QueueStep(s, e))
  {
  }

  lemma ReplyFlags(s: Conn, e: Event)
    requires Named(s) && Enabled(s, e) && IsReply(e)
    ensures FlagsFall(s, ReplyStep(s, e))
  {
  }

  lemma EndFlags(s: Conn, e: Event)
    requires Named(s) && Enabled(s, e) && IsEnd(e)
    ensures FlagsFall(s, EndStep(s, e))
  {
  }

  lemma FlushFlags(s: Conn, e: Event)
    requires Named(s) && Enabled(s, e) && IsFlush(e)
    ensures FlagsFall(s, FlushStep(s, e))
  {
  }

  lemma WaitFlags(s: Conn, e: Event)
    requires Named(s) && Enabled(s, e) && IsWait(e)
    ensures FlagsFall(s, WaitStep(s, e))
  {
  }

  lemma ReleaseFlags(s: Conn, e: Event)
    requires Named(s) && Enabled(s, e) && IsRelease(e)
    ensures FlagsFall(s, ReleaseStep(s, e))
  {
  }

  lemma AbortFlags(s: Conn, e: Event)
    requires Named(s) && Enabled(s, e) && IsAbort(e)
    ensures FlagsFall(s, AbortStep(s, e))
  {
  }

  lemma CloseFlags(s: Conn, e: Event)
    requires Named(s) && Enabled(s, e) && IsClose(e)
    ensures FlagsFall(s, CloseStep(s, e))
  {
  }

  lemma RestFlags(s: Conn, e: Event)
    requires Named(s) && Enabled(s, e) && IsRest(e)
    ensures FlagsFall(s, RestStep(s, e))
  {
  }

  lemma PickedFlags(s: Conn, e: Event)
    requires Named(s) && Enabled(s, e) && IsPicked(e)
    ensures FlagsFall(s, PickedStep(s, e))
  {
  }

  lemma DeviceFlags(s: Conn, e: Event)
    requires Named(s) && Enabled(s, e) && IsDevice(e)
    ensures FlagsFall(s, DeviceStep(s, e))
  {
  }

  lemma OutFlags(s: Conn, e: Event)
    requires Named(s) && Enabled(s, e) && IsOut(e)
    ensures FlagsFall(s, OutStep(s, e))
  {
    if IsSend(e) {
      SendFlags(s, e);
    } else if IsEnqueue(e) {
      EnqueueFlags(s, e);
    } else if IsTake(e) {
      TakeFlags(s, e);
    } else {
      CopyFlags(s, e);
    }
  }

  lemma PassFlags(s: Conn, e: Event)
    requires Named(s) && Enabled(s, e) && IsPass(e)
    ensures FlagsFall(s, PassStep(s, e))
  {
    if IsFinish(e) {
      FinishFlags(s, e);
    } else if IsSent(e) {
      SentFlags(s, e);
    } else if IsSignal(e) {
      SignalFlags(s, e);
    } else {
      QueueFlags(s, e);
    }
  }

  lemma BackFlags(s: Conn, e: Event)
    requires Named(s) && Enabled(s, e) && IsBack(e)
    ensures FlagsFall(s, BackStep(s, e))
  {
    if IsReply(e) {
      ReplyFlags(s, e);
    } else if IsEnd(e) {
      EndFlags(s, e);
    } else if IsFlush(e) {
      FlushFlags(s, e);
    } else if IsWait(e) {
      WaitFlags(s, e);
    } else {
      ReleaseFlags(s, e);
    }
  }

  lemma DownFlags(s: Conn, e: Event)
    requires Named(s) && Enabled(s, e) && IsDown(e)
    ensures FlagsFall(s, DownStep(s, e))
  {
    if IsAbort(e) {
      AbortFlags(s, e);
    } else if IsClose(e) {
      CloseFlags(s, e);
    } else if IsRest(e) {
      RestFlags(s, e);
    } else if IsPicked(e) {
      PickedFlags(s, e);
    } else {
      DeviceFlags(s, e);
    }
  }

  lemma NextFlags(s: Conn, e: Event)
    requires Named(s)
    ensures FlagsFall(s, Next(s, e))
  {
    if Enabled(s, e) {
      if IsOut(e) {
        OutFlags(s, e);
      } else if IsPass(e) {
        PassFlags(s, e);
      } else if IsBack(e) {
        BackFlags(s, e);
      } else {
        DownFlags(s, e);
      }
    }
  }
}
