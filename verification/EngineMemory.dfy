/**
 Which section of old/fuse/dev.c touches which request, and whether the request is still there: it is,
 but for four windows, in each of which a run is given that touches freed memory.
 */
module EngineMemory {
  import opened Requests
  import opened RequestQueues
  import opened RequestEngine
  import opened EngineInvariant
  import opened EngineTheorems

  ghost predicate OnIoOf(s: Conn, d: DevId, id: ReqId) { On(s.q, OnIo(d), id) }

  ghost predicate OnProcessingOf(s: Conn, d: DevId, id: ReqId) { On(s.q, OnProcessing(d), id) }

  /** The section works on request id itself. */
  ghost predicate Names(s: Conn, e: Event, id: ReqId) {
    match e
    case ESendForeground(_, _, _) => false
    case ESendBackground(_) => false
    case ESendNotify(_, _) => false
    case EQueueForget(_) => false
    case ERead(_, _) => false
    case EReply(_, _, _, _) => false
    case EFlushTurn => false
    case EAbortBegin => false
    case EAbortDevice(_) => false
    case EAbortFlush => false
    case EAbortClose => false
    case ECloseDevice(_) => false
    case EReleasePick(_) => false
    case EUnlinkPicked(p) => p in s.picked && s.picked[p].id == id
    case EEndPicked(p) => p in s.picked && s.picked[p].id == id
    case EAddDevice(_) => false
    case _ => id == e.id
  }

  /** Request id is linked on a list that the section walks or links: list_add and list_del write to the
      neighbours of the node, too. */
  ghost predicate Neighbours(s: Conn, e: Event, id: ReqId) {
    match e
    case ESendForeground(_, _, _) => id in s.q.pending
    case ESendBackground(_) => id in s.q.bg
    case ESendNotify(_, _) => id in s.q.pending
    case ERead(_, _) => id in s.q.pending || id in s.interrupts
    case EAddIo(x) => x in s.reqs && s.reqs[x].reader.InHand? && OnIoOf(s, s.reqs[x].reader.dev, id)
    case EFinishRead(x, _) =>
      x in s.reqs && s.reqs[x].reader.Reading? &&
      (OnIoOf(s, s.reqs[x].reader.dev, id) || OnProcessingOf(s, s.reqs[x].reader.dev, id))
    case EReaderQueue(_) => id in s.interrupts
    case EWaiterQueue(_) => id in s.interrupts
    case ERequeue(_) => id in s.interrupts
    case EReply(d, _, _, _) => OnProcessingOf(s, d, id) || OnIoOf(s, d, id)
    case EFinishReply(x, _) => x in s.reqs && s.reqs[x].replier.Copying? && OnIoOf(s, s.reqs[x].replier.dev, id)
    case EEndRemove(_) => id in s.interrupts
    case EFlushTurn => id in s.q.bg || id in s.q.pending
    case EKill(_) => id in s.q.pending
    case EAbortDevice(d) => OnIoOf(s, d, id) || OnProcessingOf(s, d, id) || id in s.q.end1 || id in s.q.end2
    case EAbortClose => id in s.q.pending || id in s.q.end2
    case EAbortEnd1(_) => id in s.q.end1
    case EAbortPick(_) => id in s.q.end2
    case EReleasePick(d) => OnProcessingOf(s, d, id)
    case EUnlinkPicked(p) =>
      p in s.picked && s.picked[p].id in s.reqs && s.reqs[s.picked[p].id].on != Nowhere && On(s.q, s.reqs[s.picked[p].id].on, id)
    case _ => false
  }

  ghost predicate Touches(s: Conn, e: Event, id: ReqId) { Names(s, e, id) || Neighbours(s, e, id) }

  /** The reader of the device works on a request that it has moved on to processing; the writer of an
      interrupt reply, on one it has found there. */
  ghost predicate Behind(e: Event, id: ReqId) {
    e == ESetSent(id) || e == ETestInterrupted(id) || e == EReaderQueue(id) || e == ERequeue(id)
  }

  /** A loop of end_requests works on a request that it has picked, while an abort has begun and the file of
      a device is closed, so that there can be two of them. */
  ghost predicate Overlap(s: Conn, e: Event, id: ReqId) {
    (e.EUnlinkPicked? || e.EEndPicked?) && e.picker in s.picked && s.picked[e.picker].id == id && !s.connected && s.closed != {}
  }

  /** The four windows: to_end1, the tail of the reader, the requeued interrupt, and end_requests. */
  ghost predicate Window(s: Conn, e: Event, id: ReqId) { id in s.q.end1 || Behind(e, id) || Overlap(s, e, id) }

  // ---------------------------------------------------------------- what keeps a request alive

  lemma ListKeeps(s: Conn, p: Place, id: ReqId)
    requires Core(s) && On(s.q, p, id) && p != OnEnd1
    ensures id in s.reqs && !s.reqs[id].freed && s.reqs[id].count >= 1
  {
    assert PlaceOf(s.reqs, id) == p;
    At(s, id);
  }

  lemma {:induction false} InterruptKeeps(s: Conn, id: ReqId)
    requires Core(s) && id in s.interrupts
    ensures id in s.reqs && !s.reqs[id].freed && s.reqs[id].count >= 1
  {
    At(s, id);
  }

  /** What a thread works on while the queue's or its own reference lasts. */
  ghost predicate Kept(r: Req) {
    || r.reader.InHand? || Copied(r) || r.ender in {Removing, Accounting, CallingBack}
    || r.waiter in {Interruptible, TestingSent, WaiterQueues, Killable, Uninterruptible, Returned}
  }

  lemma ThreadKeeps(s: Conn, id: ReqId)
    requires Core(s) && id in s.reqs && Kept(s.reqs[id])
    ensures !s.reqs[id].freed && s.reqs[id].count >= 1
  {
    At(s, id);
  }

  /** A request that a loop of end_requests has picked, when there is only one. */
  lemma SoleKept(s: Conn, p: Picker)
    requires Core(s) && p in s.picked && (s.connected || s.closed == {})
    ensures s.picked[p].id in s.reqs && !s.reqs[s.picked[p].id].freed && s.reqs[s.picked[p].id].count >= 1
  {
    Gripped(s, p);
    var id := s.picked[p].id;
    assert !s.reqs[id].finished by { assert SoleAt(s.picked, s.reqs, p); }
    UnfinishedKept(s, id);
  }

  /** The queue's reference lasts while end_requests may have the request and it is not ended. */
  lemma UnfinishedKept(s: Conn, id: ReqId)
    requires Core(s) && id in s.reqs && Within(s.closed, s.reqs[id]) && !s.reqs[id].finished
    ensures !s.reqs[id].freed && s.reqs[id].count >= 1
  {
    At(s, id);
  }

  /** A request on to_end1, one that userspace has read, or one that end_requests may have, when it is freed. */
  lemma FreedWhen(s: Conn, id: ReqId)
    requires Core(s) && id in s.reqs && (s.reqs[id].on == OnEnd1 || PastIo(s.reqs[id]) || Within(s.closed, s.reqs[id]))
    ensures s.reqs[id].freed ==> s.reqs[id].ender == Ended && !Holds(s.reqs[id])
    ensures !s.reqs[id].abortRef ==> (s.reqs[id].freed <==> s.reqs[id].ender == Ended && !Holds(s.reqs[id]))
    ensures s.reqs[id].on == OnEnd1 ==> !s.reqs[id].abortRef
  {
    At(s, id);
  }

  lemma EndKeeps(s: Conn, id: ReqId)
    requires Core(s) && id in s.q.end1
    ensures id in s.reqs && s.reqs[id].on == OnEnd1
  {
    Members(s.q, s.reqs);
  }

  lemma BehindRead(s: Conn, e: Event, id: ReqId)
    requires Inv(s) && Enabled(s, e) && Behind(e, id)
    ensures id in s.reqs && PastIo(s.reqs[id])
  {
  }

  lemma NamedKept(s: Conn, e: Event, id: ReqId)
    requires Inv(s) && Enabled(s, e) && Names(s, e, id) && !Window(s, e, id) && !IsPicked(e)
    ensures id in s.reqs && (Kept(s.reqs[id]) || On(s.q, OnEnd2, id))
  {
    if e.EAbortPick? {
      assert On(s.q, OnEnd2, id) <==> PlaceOf(s.reqs, id) == OnEnd2;
    } else {
      ThreadKept(s, e, id);
    }
  }

  lemma ThreadKept(s: Conn, e: Event, id: ReqId)
    requires Enabled(s, e) && Names(s, e, id) && !Window(s, e, id) && !e.EAbortPick? && !IsPicked(e)
    ensures id in s.reqs && Kept(s.reqs[id])
  {
  }

  /** The device whose lists the section works on. */
  ghost function DeviceOf(s: Conn, e: Event): DevId {
    match e
    case EAddIo(x) => if x in s.reqs && s.reqs[x].reader.InHand? then s.reqs[x].reader.dev else 0
    case EFinishRead(x, _) => if x in s.reqs && s.reqs[x].reader.Reading? then s.reqs[x].reader.dev else 0
    case EReply(d, _, _, _) => d
    case EFinishReply(x, _) => if x in s.reqs && s.reqs[x].replier.Copying? then s.reqs[x].replier.dev else 0
    case EAbortDevice(d) => d
    case EReleasePick(d) => d
    case _ => 0
  }

  lemma NeighbourOn(s: Conn, e: Event, id: ReqId)
    requires Neighbours(s, e, id)
    ensures e.EUnlinkPicked? ==> e.picker in s.picked
    ensures || id in s.interrupts || id in s.q.pending || id in s.q.bg || id in s.q.end1 || id in s.q.end2
      || OnIoOf(s, DeviceOf(s, e), id) || OnProcessingOf(s, DeviceOf(s, e), id)
      || (e.EUnlinkPicked? && On(s.q, PlaceOf(s.reqs, s.picked[e.picker].id), id))
  {
  }

  lemma NeighbourKept(s: Conn, e: Event, id: ReqId) returns (p: Place)
    requires Neighbours(s, e, id) && id !in s.q.end1
    ensures id in s.interrupts || (p != OnEnd1 && On(s.q, p, id))
  {
    NeighbourOn(s, e, id);
    var d := DeviceOf(s, e);
    p := if id in s.q.pending then OnPending
      else if id in s.q.bg then OnBg
      else if id in s.q.end2 then OnEnd2
      else if OnIoOf(s, d, id) then OnIo(d)
      else if e.EUnlinkPicked? then PlaceOf(s.reqs, s.picked[e.picker].id)
      else OnProcessing(d);
  }

  // ---------------------------------------------------------------- the theorem

  lemma InWindow(s: Conn, e: Event, id: ReqId)
    requires Inv(s) && Enabled(s, e) && Window(s, e, id)
    ensures id in s.reqs && (s.reqs[id].freed ==> s.reqs[id].ender == Ended && !Holds(s.reqs[id]))
    ensures !s.reqs[id].abortRef ==> (s.reqs[id].freed <==> s.reqs[id].ender == Ended && !Holds(s.reqs[id]))
    ensures id in s.q.end1 ==> !s.reqs[id].abortRef
  {
    if id in s.q.end1 {
      EndKeeps(s, id);
    } else if Behind(e, id) {
      BehindRead(s, e, id);
    } else {
      Gripped(s, e.picker);
    }
    FreedWhen(s, id);
  }

  lemma OutsideWindow(s: Conn, e: Event, id: ReqId)
    requires Inv(s) && Enabled(s, e) && Touches(s, e, id) && !Window(s, e, id)
    ensures id in s.reqs && !s.reqs[id].freed && s.reqs[id].count >= 1
  {
    if !Names(s, e, id) {
      var p := NeighbourKept(s, e, id);
      if id in s.interrupts { InterruptKeeps(s, id); } else { ListKeeps(s, p, id); }
    } else if IsPicked(e) {
      SoleKept(s, e.picker);
    } else {
      NamedKept(s, e, id);
      if Kept(s.reqs[id]) { ThreadKeeps(s, id); } else { ListKeeps(s, OnEnd2, id); }
    }
  }

  /** No section of any thread touches a request that is freed, outside the windows; and in a window the
      request is freed exactly when both the body of request_end and the submitter are through with it,
      unless abort has taken its own reference. The window of end_requests opens only when an abort has
      begun and the file of a device is closed, as Overlap says. */
  lemma NoUseAfterFree(s: Conn, e: Event, id: ReqId)
    requires Inv(s) && Enabled(s, e) && Touches(s, e, id)
    ensures id in s.reqs
    ensures !Window(s, e, id) ==> !s.reqs[id].freed && s.reqs[id].count >= 1
    ensures s.reqs[id].freed ==> s.reqs[id].ender == Ended && !Holds(s.reqs[id])
    ensures Window(s, e, id) && !s.reqs[id].abortRef ==>
      (s.reqs[id].freed <==> s.reqs[id].ender == Ended && !Holds(s.reqs[id]))
    ensures id in s.q.end1 ==> !s.reqs[id].abortRef
  {
    if Window(s, e, id) { InWindow(s, e, id); } else { OutsideWindow(s, e, id); }
  }

  /** The WARN_ON of fuse_dev_release cannot fire: no request is copied when the file of a device is closed. */
  lemma ReleaseWarning(s: Conn, d: DevId)
    requires Inv(s) && d in s.closed
    ensures d in s.q.io && s.q.io[d] == {}
  {
    Members(s.q, s.reqs);
    forall id | id in s.q.io[d] ensures false { At(s, id); }
  }

  /** The reference that fuse_abort_conn takes for a request of to_end1 is never dropped: the request, if it
      was still there, is never freed in any run that follows, though everybody is through with it. */
  lemma {:induction false} AbortLeaks(s: Conn, id: ReqId, es: seq<Event>)
    requires Inv(s) && Enabled(s, EAbortEnd1(id)) && id in s.reqs && !s.reqs[id].freed
    ensures Inv(Next(s, EAbortEnd1(id))) && id in Run(Next(s, EAbortEnd1(id)), es).reqs
    ensures var r := Run(Next(s, EAbortEnd1(id)), es).reqs[id]; !r.freed && r.count >= 1
  {
    var e := EAbortEnd1(id);
    NextInv(s, e);
    var t := Next(s, e);
    assert id in t.reqs && t.reqs[id].abortRef && !t.reqs[id].freed by { RestSections(s, e); }
    RunReq(t, es, id);
    AbortRefKeeps(Run(t, es), id);
  }

  lemma AbortRefKeeps(s: Conn, id: ReqId)
    requires Core(s) && id in s.reqs && s.reqs[id].abortRef
    ensures s.reqs[id].count >= 1
  {
    At(s, id);
  }

  /** And no other request is leaked: once everybody is through with it, it is freed. */
  lemma FreedAtLast(s: Conn, id: ReqId)
    requires Inv(s) && id in s.reqs && !Holds(s.reqs[id]) && !QueueRef(s.reqs[id])
    ensures s.reqs[id].count == 0 <==> !s.reqs[id].abortRef
    ensures !s.reqs[id].abortRef ==> s.reqs[id].freed
  {
    At(s, id);
  }

  /** No request is freed while it is queued, waits for its interrupt, or is in hand or copied, aborted and
      ended or not. On to_end1 it is freed exactly when both its ender and its submitter are through. */
  lemma NotFreedEarly(s: Conn, id: ReqId, p: Place)
    requires Inv(s) && id in s.reqs
    ensures On(s.q, p, id) && p != OnEnd1 ==> !s.reqs[id].freed && s.reqs[id].count >= 1
    ensures id in s.interrupts ==> !s.reqs[id].freed && s.reqs[id].count >= 1
    ensures s.reqs[id].reader.InHand? || Copied(s.reqs[id]) ==> !s.reqs[id].freed && s.reqs[id].count >= 1
    ensures Holds(s.reqs[id]) ==> !s.reqs[id].freed && s.reqs[id].count >= 1
    ensures On(s.q, OnEnd1, id) ==> (s.reqs[id].freed <==> s.reqs[id].ender == Ended && !Holds(s.reqs[id]))
  {
    if On(s.q, p, id) && p != OnEnd1 { ListKeeps(s, p, id); }
    if id in s.interrupts { InterruptKeeps(s, id); }
    if Kept(s.reqs[id]) { ThreadKeeps(s, id); }
    if On(s.q, OnEnd1, id) {
      EndKeeps(s, id);
      FreedWhen(s, id);
    }
  }
}
