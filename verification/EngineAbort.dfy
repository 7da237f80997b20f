/**
 What fuse_abort_conn leaves behind, in any run that its sections and those of other threads make up, and
 what it comes to when no other thread runs in between.
 */
module EngineAbort {
  import opened Errno
  import opened Requests
  import opened RequestQueues
  import opened RequestEngine
  import opened EngineInvariant
  import opened EngineEvolution
  import opened EngineTheorems
  import opened AbortSweep

  // ---------------------------------------------------------------- the queues

  lemma ClosedQueues(s: Conn)
    requires Inv(s) && !s.open
    ensures s.q.bg == [] && s.q.pending == [] && s.forgets == []
    ensures forall d :: d in s.q.processing ==> s.q.processing[d] == []
  {
    Members(s.q, s.reqs);
    if |s.q.bg| > 0 { At(s, s.q.bg[0]); }
    if |s.q.pending| > 0 { At(s, s.q.pending[0]); }
    forall d | d in s.q.processing ensures s.q.processing[d] == [] {
      if |s.q.processing[d]| > 0 { At(s, s.q.processing[d][0]); }
    }
  }

  /** Once abort has closed the queue, and after anything that follows, bg_queue, pending, the forget queue
      and every processing list are empty. */
  lemma {:induction false} AbortEmpties(s: Conn, es: seq<Event>)
    requires Inv(s) && !s.open
    ensures var t := Run(s, es);
      && !t.open && t.q.bg == [] && t.q.pending == [] && t.forgets == []
      && forall d :: d in t.q.processing ==> t.q.processing[d] == []
  {
    RunEvolves(s, es);
    ClosedQueues(Run(s, es));
  }

  // ---------------------------------------------------------------- the requests

  /** When fuse_abort_conn is through, an unfinished request is one its copier has locked on io, one that a
      reader has in hand or on io of a dead device without a mark, or one that a release of its device has
      unlinked and is about to end. */
  lemma AbortSurvivors(s: Conn, id: ReqId)
    requires Inv(s) && !s.open && s.q.end1 == {} && s.q.end2 == {} && ByAbort !in s.picked
    requires id in s.reqs && !s.reqs[id].finished && !s.reqs[id].bailed
    ensures var r := s.reqs[id];
      || (r.on.OnIo? && r.aborted && r.locked && r.error == ECONNABORTED && Copied(r))
      || (Missed(r) && r.error == 0 && (r.reader.InHand? || (r.on.OnIo? && r.reader.Reading?)))
      || (r.error == ECONNABORTED && exists d :: ByRelease(d) in s.picked && s.picked[ByRelease(d)] == Grip(id, true))
  {
    var p := s.reqs[id].on;
    assert p != Nowhere ==> (On(s.q, p, id) <==> PlaceOf(s.reqs, id) == p);
    At(s, id);
    if s.reqs[id].unlinked {
      assert HeldAt(s.picked, s.reqs, id);
      var holder :| holder in s.picked && s.picked[holder] == Grip(id, true);
      assert holder == ByRelease(holder.dev);
    }
  }

  ghost predicate EndsAsItWas(s: Conn, id: ReqId, t: Conn) {
    id in s.reqs && id in t.reqs && t.reqs[id].finished && t.reqs[id].error == s.reqs[id].error
  }

  lemma DeadCopyEnds(r: Req, failed: bool)
    ensures r.reader.Reading? ==> EndRead(r, false, failed).finished && EndRead(r, false, failed).error == r.error
    ensures EndReply(r, false, failed).finished && EndReply(r, false, failed).error == r.error
  {
  }

  /** The copier of a request on io of a dead device finishes it, and leaves its error as it is. */
  lemma CopierFinishes(s: Conn, id: ReqId, failed: bool)
    requires Inv(s) && id in s.reqs && s.reqs[id].on.OnIo? && !Alive(s, s.reqs[id].on.dev)
    ensures !s.reqs[id].finished && Copied(s.reqs[id])
    ensures s.reqs[id].reader.Reading? ==> EndsAsItWas(s, id, FinishRead(s, id, failed))
    ensures s.reqs[id].replier.Copying? ==> EndsAsItWas(s, id, FinishReply(s, id, failed))
  {
    var r := s.reqs[id];
    assert Copied(r) && !r.finished && CopierDev(r) == r.on.dev && (r.replier.Copying? ==> !r.reader.Reading?) by { At(s, id); }
    if r.reader.Reading? { DeadReadEnds(s, id, failed); } else { DeadReplyEnds(s, id, failed); }
  }

  lemma DeadReadEnds(s: Conn, id: ReqId, failed: bool)
    requires id in s.reqs && s.reqs[id].reader.Reading? && !Alive(s, s.reqs[id].reader.dev)
    ensures EndsAsItWas(s, id, FinishRead(s, id, failed))
  {
    DeadCopyEnds(s.reqs[id], failed);
  }

  lemma DeadReplyEnds(s: Conn, id: ReqId, failed: bool)
    requires id in s.reqs && s.reqs[id].replier.Copying? && !Alive(s, s.reqs[id].replier.dev)
    ensures EndsAsItWas(s, id, FinishReply(s, id, failed))
  {
    DeadCopyEnds(s.reqs[id], failed);
  }

  lemma FinishedError(u: Conn, id: ReqId)
    requires Inv(u) && id in u.reqs && u.reqs[id].finished
    ensures Missed(u.reqs[id]) ==> u.reqs[id].error in {0, EIO, E2BIG}
    ensures Doomed(u.reqs[id]) ==> u.reqs[id].error == ECONNABORTED
  {
    At(u, id);
  }

  /** A request that is linked on io or processing of a device when abort sweeps it ends with
      -ECONNABORTED, in any run that follows. */
  lemma SweptEndsAborted(s: Conn, d: DevId, es: seq<Event>, id: ReqId)
    requires Inv(s) && Enabled(s, EAbortDevice(d)) && id in s.reqs && OnDevice(s.reqs[id].on, d)
    ensures Inv(Next(s, EAbortDevice(d))) && id in Run(Next(s, EAbortDevice(d)), es).reqs
    ensures var r := Run(Next(s, EAbortDevice(d)), es).reqs[id]; r.finished ==> r.error == ECONNABORTED
  {
    var e := EAbortDevice(d);
    NextInv(s, e);
    var t := Next(s, e);
    SweepDooms(s, d, id);
    assert id in t.reqs && Doomed(t.reqs[id]) by { AbortSections(s, e); }
    DoomedAborted(t, es, id);
  }

  lemma SweepDooms(s: Conn, d: DevId, id: ReqId)
    requires Core(s) && s.lock.Sweeping? && d in s.q.io && d in s.q.processing && id in s.reqs && OnDevice(s.reqs[id].on, d)
    ensures id in AbortDevice(s, d).reqs && Doomed(AbortDevice(s, d).reqs[id])
  {
    At(s, id);
  }

  lemma {:induction false} DoomedAborted(t: Conn, es: seq<Event>, id: ReqId)
    requires Inv(t) && id in t.reqs && Doomed(t.reqs[id])
    ensures id in Run(t, es).reqs
    ensures var r := Run(t, es).reqs[id]; r.finished ==> r.error == ECONNABORTED
  {
    RunReq(t, es, id);
    if Run(t, es).reqs[id].finished { FinishedError(Run(t, es), id); }
  }

  /** What abort gets hold of when it closes the queue: the requests it has on its own lists, has marked, or
      finds on pending; and those that a release of their device has just unlinked. */
  predicate Reached(r: Req) { r.aborted || r.on.OnPending? || r.on.OnEnd1? || r.on.OnEnd2? || r.unlinked }

  /** What a request that is unfinished when abort closes the queue ends with, in any run that follows:
      -ECONNABORTED if and only if abort or release gets hold of it. */
  lemma AbortError(s: Conn, es: seq<Event>, id: ReqId)
    requires Inv(s) && s.lock == Closing
    requires id in s.reqs && !s.reqs[id].finished && !s.reqs[id].bailed
    ensures Inv(AbortClose(s)) && id in Run(AbortClose(s), es).reqs
    ensures var r := Run(AbortClose(s), es).reqs[id];
      r.finished ==> (r.error == ECONNABORTED <==> Reached(s.reqs[id])) && (!Reached(s.reqs[id]) ==> r.error in {0, EIO, E2BIG})
  {
    AbortCloseInv(s);
    var t := AbortClose(s);
    CloseMarks(s, id);
    RunReq(t, es, id);
    if Run(t, es).reqs[id].finished { FinishedError(Run(t, es), id); }
  }

  lemma CloseMarks(s: Conn, id: ReqId)
    requires Inv(s) && s.lock == Closing
    requires id in s.reqs && !s.reqs[id].finished && !s.reqs[id].bailed
    ensures id in AbortClose(s).reqs
    ensures if Reached(s.reqs[id]) then Doomed(AbortClose(s).reqs[id]) else Missed(AbortClose(s).reqs[id])
  {
    NoneOnBg(s.q, s.reqs);
    At(s, id);
  }

  /** Whom abort does not get hold of: those that a reader has taken off pending and not yet put on io, or
      that it has put on io of a device behind the sweep. */
  lemma NotReached(s: Conn, id: ReqId)
    requires Inv(s) && s.lock == Closing
    requires id in s.reqs && !s.reqs[id].finished && !s.reqs[id].bailed
    ensures !Reached(s.reqs[id]) <==> s.reqs[id].reader.InHand? || (s.reqs[id].reader.Reading? && !s.reqs[id].aborted)
  {
    NoneOnBg(s.q, s.reqs);
    At(s, id);
  }

  /** Whatever a reader has in hand for a dead device ends with no error when it has put it on io, copied it
      and found the device dead. */
  lemma InHandEndsWithoutError(s: Conn, id: ReqId, failed: bool)
    requires Inv(s) && id in s.reqs && s.reqs[id].reader.InHand? && !Alive(s, s.reqs[id].reader.dev)
    ensures var t := FinishRead(AddIo(s, id), id, failed);
      id in t.reqs && t.reqs[id].finished && t.reqs[id].error == 0
  {
    var r := s.reqs[id];
    assert !r.finished && r.error == 0 by { At(s, id); }
    DeadCopyEnds(StartCopy(r), failed);
  }

  // ---------------------------------------------------------------- without interruption

  /** fc->lock after a flush_bg_queue. */
  function Done(s: Conn): Conn { s.(lock := if s.lock == LastFlush then Closing else Unheld) }

  lemma {:induction false} RunFirst(s: Conn, e: Event, es: seq<Event>, t: Conn)
    requires Inv(s) && t == Next(s, e)
    ensures Inv(t) && Run(s, [e] + es) == Run(t, es)
  {
    NextInv(s, e);
    assert ([e] + es)[1..] == es;
  }

  /** One turn. */
  lemma FlushStep(s: Conn)
    requires Inv(s) && FlushPending(s.lock)
    ensures BgLinked(s)
    ensures Next(s, EFlushTurn) == if CanFlush(s) then FlushOne(s) else Done(s)
    ensures if CanFlush(s) then BgLinked(FlushOne(s)) && Flush(s) == Flush(FlushOne(s)) && FlushOne(s).lock == s.lock else Flush(s) == s
  {
    Members(s.q, s.reqs);
    FlushSections(s, EFlushTurn);
    if CanFlush(s) {
      FlushOneInv(s);
      Members(FlushOne(s).q, FlushOne(s).reqs);
    }
  }

  /** The turns of one thread make up the whole of flush_bg_queue. */
  lemma {:induction false} FlushRun(s: Conn) returns (es: seq<Event>)
    requires Inv(s) && FlushPending(s.lock)
    ensures BgLinked(s) && Run(s, es) == Done(Flush(s))
    ensures forall i :: 0 <= i < |es| ==> es[i] == EFlushTurn
    decreases s.sched.maxBackground - s.sched.activeBackground
  {
    FlushStep(s);
    var t := Next(s, EFlushTurn);
    var rest := [];
    assert Inv(t) by { NextInv(s, EFlushTurn); }
    if CanFlush(s) {
      rest := FlushRun(t);
    }
    es := [EFlushTurn] + rest;
    RunFirst(s, EFlushTurn, rest, t);
  }

  lemma {:induction false} FlushAnyLock(s: Conn, l: Lock)
    requires Linked(s.q, s.reqs, s.devs) && BgLinked(s)
    ensures Flush(s.(lock := l)) == Flush(s).(lock := l)
    decreases s.sched.maxBackground - s.sched.activeBackground
  {
    if CanFlush(s) {
      var m := FlushOne(s);
      FlushOneLinked(s, l);
      assert BgLinked(m) by { Members(m.q, m.reqs); }
      FlushAnyLock(m, l);
      FlushLockStep(s, m, l);
    }
  }

  lemma FlushLockStep(s: Conn, m: Conn, l: Lock)
    requires BgLinked(s) && CanFlush(s) && m == FlushOne(s) && BgLinked(m)
    requires FlushOne(s.(lock := l)) == m.(lock := l) && Flush(m.(lock := l)) == Flush(m).(lock := l)
    ensures Flush(s.(lock := l)) == Flush(s).(lock := l)
  {
  }

  lemma FlushOneLinked(s: Conn, l: Lock)
    requires Linked(s.q, s.reqs, s.devs) && s.q.bg != []
    ensures s.q.bg[0] in s.reqs && FlushOne(s.(lock := l)) == FlushOne(s).(lock := l)
    ensures Linked(FlushOne(s).q, FlushOne(s).reqs, FlushOne(s).devs)
  {
    Members(s.q, s.reqs);
    var id := s.q.bg[0];
    MoveLinked(s.q, s.reqs, s.devs, id, Flushed(s.reqs[id], s.reqctr + 1));
  }

  /** A flush that a thread begins with fc->lock in state s and that nobody interrupts. */
  lemma {:induction false} HeldFlushRun(s: Conn, id: ReqId) returns (es: seq<Event>)
    requires Core(s) && s.lock == Unheld
    ensures Inv(s.(lock := Flushing(id))) && BgLinked(s) && Run(s.(lock := Flushing(id)), es) == Flush(s)
  {
    var h := s.(lock := Flushing(id));
    HoldInv(s, id);
    es := FlushRun(h);
    Members(s.q, s.reqs);
    FlushAnyLock(s, Flushing(id));
    FlushInv(s);
  }

  /** What fuse_request_send_background comes to without interruption. */
  lemma SendBackgroundRun(s: Conn, id: ReqId) returns (es: seq<Event>)
    requires Inv(s) && Enabled(s, ESendBackground(id)) && s.connected
    ensures BgLinked(Enqueue(s, id)) && Run(s, es) == Flush(Enqueue(s, id))
  {
    EnqueueInv(s, id);
    EnqueueSections(s, ESendBackground(id));
    var rest := HeldFlushRun(Enqueue(s, id), id);
    es := [ESendBackground(id)] + rest;
    RunFirst(s, ESendBackground(id), rest, SendBackground(s, id));
  }

  /** What the fc->lock section of request_end comes to. */
  lemma EndAccountRun(s: Conn, id: ReqId) returns (es: seq<Event>)
    requires Inv(s) && Enabled(s, EEndAccount(id))
    ensures BgLinked(Account(s, id)) && Run(s, es) == Flush(Account(s, id))
  {
    AccountInv(s, id);
    FlushSections(s, EEndAccount(id));
    var rest := HeldFlushRun(Account(s, id), id);
    es := [EEndAccount(id)] + rest;
    RunFirst(s, EEndAccount(id), rest, EndAccount(s, id));
  }

  lemma SweepTwice(reqs: map<ReqId, Req>, a: set<DevId>, b: set<DevId>)
    requires a !! b
    ensures SweepReqs(SweepReqs(reqs, a), b) == SweepReqs(reqs, a + b)
  {
    forall id | id in reqs ensures SweepReqs(SweepReqs(reqs, a), b)[id] == SweepReqs(reqs, a + b)[id] {
      if OnAny(reqs[id].on, a) { assert !OnAny(AbortReq(reqs[id]).on, b); }
    }
  }

  /** From s to t, the devices ds have been swept. */
  ghost predicate Swept(s: Conn, t: Conn, ds: set<DevId>) {
    && Ahead(s, t, ds) && t.connected == s.connected && t.open == s.open && t.forgets == s.forgets
    && t.q.io.Keys == s.q.io.Keys
    && t.q.processing == (map d | d in s.q.processing :: if d in ds then [] else s.q.processing[d])
    && t.devs == (map d | d in s.devs :: if d in ds then false else s.devs[d])
  }

  lemma SweepOne(s: Conn, d: DevId)
    requires Named(s) && Enabled(s, EAbortDevice(d))
    ensures Swept(s, AbortDevice(s, d), {d})
  {
    SweepOneReqs(s, d);
  }

  lemma SweepOneReqs(s: Conn, d: DevId)
    requires s.lock.Sweeping? && d in s.q.io && d in s.q.processing
    ensures AbortDevice(s, d).reqs == SweepReqs(s.reqs, {d})
  {
  }

  lemma SweptMore(s: Conn, t: Conn, u: Conn, a: set<DevId>, b: set<DevId>)
    requires Swept(s, t, a) && Swept(t, u, b) && a !! b
    ensures Swept(s, u, a + b)
  {
    SweepTwice(s.reqs, a, b);
  }

  lemma SweptNone(s: Conn)
    ensures Swept(s, s, {})
  {
    assert SweepReqs(s.reqs, {}) == s.reqs;
  }

  /** The loop over the devices, in any order. */
  lemma {:induction false} SweepRun(s: Conn) returns (es: seq<Event>)
    requires Inv(s) && s.lock.Sweeping?
    ensures Run(s, es).lock == Sweeping({}) && Swept(s, Run(s, es), s.lock.todo)
    decreases s.lock.todo
  {
    if s.lock.todo == {} {
      es := [];
      SweptNone(s);
    } else {
      var d :| d in s.lock.todo;
      var t := SweepNext(s, d);
      var rest := SweepRun(t);
      es := [EAbortDevice(d)] + rest;
      RunFirst(s, EAbortDevice(d), rest, t);
      SweptRest(s, t, Run(t, rest), d);
    }
  }

  lemma SweptRest(s: Conn, t: Conn, u: Conn, d: DevId)
    requires s.lock.Sweeping? && d in s.lock.todo && t.lock == Sweeping(s.lock.todo - {d})
    requires Swept(s, t, {d}) && Swept(t, u, t.lock.todo)
    ensures Swept(s, u, s.lock.todo)
  {
    SweptMore(s, t, u, {d}, s.lock.todo - {d});
    assert {d} + (s.lock.todo - {d}) == s.lock.todo;
  }

  lemma SweepNext(s: Conn, d: DevId) returns (t: Conn)
    requires Inv(s) && s.lock.Sweeping? && d in s.lock.todo
    ensures Inv(t) && t == Next(s, EAbortDevice(d)) && Swept(s, t, {d}) && t.lock == Sweeping(s.lock.todo - {d})
  {
    var e := EAbortDevice(d);
    AbortSections(s, e);
    SweepOne(s, d);
    AbortDeviceInv(s, d);
    t := AbortDevice(s, d);
  }

  lemma ClosesSwept(s: Conn)
    requires Inv(s) && s.lock == Closing
    ensures PendingSwept(s, AbortClose(s))
  {
    Members(s.q, s.reqs);
    forall id ensures id in Elements(s.q.pending) <==> id in s.reqs && s.reqs[id].on == OnPending {
      assert On(s.q, OnPending, id) <==> PlaceOf(s.reqs, id) == OnPending;
    }
    assert Elements(s.q.pending) == set id | id in s.reqs && s.reqs[id].on == OnPending;
  }

  lemma PendingSweptOf(g: Conn, t: Conn)
    requires PendingSwept(Done(g), t)
    ensures PendingSwept(g, t)
  {
  }

  lemma FlushedDevices(s: Conn, a: Conn, b: Conn)
    requires Inv(s) && s.connected && Swept(AbortBegin(s), a, s.devs.Keys) && Linked(a.q, a.reqs, a.devs)
    requires b == AbortFlush(a)
    ensures DevicesSwept(s, b)
  {
  }

  /** The states between the sections of one abort. */
  lemma AbortStates(s: Conn, a: Conn, c: Conn)
    requires Inv(s) && s.lock == Unheld && s.connected && Inv(a) && a.lock == Sweeping({}) && Swept(AbortBegin(s), a, s.devs.Keys)
    requires BgLinked(AbortFlush(a)) && c == Done(Flush(AbortFlush(a))) && Inv(c) && c.lock == Closing
    ensures BgLinked(s) && AbortClose(c) == Abort(s)
  {
    var b := AbortFlush(a);
    FlushedDevices(s, a, b);
    ClosesSwept(c);
    PendingSweptOf(Flush(b), AbortClose(c));
    AbortParts(s, b, AbortClose(c));
  }

  /** An abort that nobody interrupts comes to RequestEngine.Abort. */
  lemma AbortRun(s: Conn) returns (es: seq<Event>)
    requires Inv(s) && s.lock == Unheld && s.connected
    ensures BgLinked(s) && Run(s, es) == Abort(s)
  {
    AbortBeginInv(s);
    var sweep := SweepRun(AbortBegin(s));
    var a := Run(AbortBegin(s), sweep);
    AbortFlushInv(a);
    var flush := FlushRun(AbortFlush(a));
    var c := Run(AbortFlush(a), flush);
    FlushInv(AbortFlush(a));
    AbortStates(s, a, c);
    es := [EAbortBegin] + sweep + [EAbortFlush] + flush + [EAbortClose];
    BeginNext(s);
    FlushNext(a);
    CloseNext(c);
    Chain(s, sweep, flush, AbortBegin(s), a, AbortFlush(a), c, AbortClose(c));
  }

  /** So it keeps the invariant. */
  lemma AbortValid(s: Conn)
    requires Inv(s) && s.lock == Unheld
    ensures BgLinked(s) && Inv(Abort(s))
  {
    Members(s.q, s.reqs);
    if s.connected { var es := AbortRun(s); }
  }

  lemma BeginNext(s: Conn)
    requires Inv(s) && s.lock == Unheld
    ensures Next(s, EAbortBegin) == AbortBegin(s)
  {
    AbortSections(s, EAbortBegin);
  }

  lemma FlushNext(s: Conn)
    requires Inv(s) && s.lock == Sweeping({})
    ensures Next(s, EAbortFlush) == AbortFlush(s)
  {
    CloseSections(s, EAbortFlush);
  }

  lemma CloseNext(s: Conn)
    requires Inv(s) && s.lock == Closing
    ensures Next(s, EAbortClose) == AbortClose(s)
  {
    CloseSections(s, EAbortClose);
  }

  lemma {:induction false} Chain(s: Conn, sweep: seq<Event>, flush: seq<Event>, s1: Conn, a: Conn, b: Conn, c: Conn, t: Conn)
    requires Inv(s) && s1 == Next(s, EAbortBegin) && Inv(s1) && a == Run(s1, sweep) && b == Next(a, EAbortFlush) && Inv(b)
    requires c == Run(b, flush) && t == Next(c, EAbortClose)
    ensures Run(s, [EAbortBegin] + sweep + [EAbortFlush] + flush + [EAbortClose]) == t
  {
    assert [EAbortBegin] == [] + [EAbortBegin] && Run(s, []) == s;
    RunThen(s, [], EAbortBegin);
    RunTwice(s, [EAbortBegin], sweep);
    RunThen(s, [EAbortBegin] + sweep, EAbortFlush);
    RunTwice(s, [EAbortBegin] + sweep + [EAbortFlush], flush);
    RunThen(s, [EAbortBegin] + sweep + [EAbortFlush] + flush, EAbortClose);
  }
}
