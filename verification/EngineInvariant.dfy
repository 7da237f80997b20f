/**
 The invariant of the request engine, and the proof that every section keeps it. It says that every
 request is consistent with what its reader, replier, waiter and ender have done (RequestsOk), that the
 lists are exact (Linked), that the IDs which a reply can name are distinct (UniqueOk), and that the
 counters of the background scheduler agree with its queue (CountsOk), that the connected flags fit the
 holder of fc->lock (ConnOk), and that what the loops of end_requests point to is theirs (PickersOk).
 Core is what holds within a flush_bg_queue too; Inv adds that the flush has nothing left to do when none
 is under way. Most sections write a single request back, and PutCore is the common part of their proofs.
 */
module EngineInvariant {
  import opened Lists
  import opened Errno
  import opened Requests
  import opened RequestQueues
  import opened RequestEngine
  import ReadSchedule

  ghost predicate OkAt(f: Flags, interrupts: seq<ReqId>, reqs: map<ReqId, Req>, id: ReqId) {
    id in reqs ==> RequestOk(f, id in interrupts, reqs[id])
  }

  ghost predicate RequestsOk(f: Flags, interrupts: seq<ReqId>, reqs: map<ReqId, Req>) {
    forall id :: OkAt(f, interrupts, reqs, id)
  }

  ghost predicate AllAlive(devs: map<DevId, bool>) { forall d :: d in devs ==> devs[d] }

  ghost predicate AllDead(devs: map<DevId, bool>) { forall d :: d in devs ==> !devs[d] }

  /** How far an abort has come, by the holder of fc->lock. */
  ghost predicate LockOk(l: Lock, f: Flags) {
    match l
    case Unheld => f.connected == f.open
    case Flushing(_) => f.connected == f.open
    case Sweeping(todo) => !f.connected && f.open && todo <= f.devs.Keys && forall d :: d in f.devs ==> (f.devs[d] <==> d in todo)
    case LastFlush => !f.connected && f.open && AllDead(f.devs)
    case Closing => !f.connected && f.open && AllDead(f.devs)
  }

  ghost predicate ConnOk(s: Conn) {
    && LockOk(s.lock, FlagsOf(s))
    && (s.connected ==> AllAlive(s.devs))
    && (!s.open ==> s.forgets == []) && s.closed <= s.devs.Keys
    && ReadSchedule.InRange(s.forgetBatch)
  }

  /** What a loop of end_requests points to is on its list, or unlinked. */
  ghost predicate GripAt(closed: set<DevId>, picked: map<Picker, Grip>, reqs: map<ReqId, Req>, p: Picker) {
    p in picked ==>
      && picked[p].id in reqs && Within(closed, reqs[picked[p].id]) && (picked[p].unlinked ==> reqs[picked[p].id].unlinked)
      && (p.ByRelease? ==> p.dev in closed)
  }

  /** A request that is unlinked and not yet ended is in the hand of such a loop. */
  ghost predicate HeldAt(picked: map<Picker, Grip>, reqs: map<ReqId, Req>, id: ReqId) {
    id in reqs && reqs[id].unlinked && !reqs[id].finished ==> exists p :: p in picked && picked[p] == Grip(id, true)
  }

  /** Nobody else has come to the request since it was picked. */
  ghost predicate SoleAt(picked: map<Picker, Grip>, reqs: map<ReqId, Req>, p: Picker) {
    p in picked && picked[p].id in reqs ==>
      var r := reqs[picked[p].id];
      !r.finished && r.unlinked == picked[p].unlinked
        && (!r.unlinked ==> r.on == if p.ByAbort? then OnEnd2 else OnProcessing(p.dev))
  }

  ghost predicate ApartAt(picked: map<Picker, Grip>, p: Picker, p': Picker) {
    p in picked && p' in picked && p != p' ==> picked[p].id != picked[p'].id
  }

  ghost predicate Apart(picked: map<Picker, Grip>, reqs: map<ReqId, Req>) {
    (forall p :: SoleAt(picked, reqs, p)) && forall p, p' :: ApartAt(picked, p, p')
  }

  /** The loops of end_requests; until an abort has begun, or as long as no file of a device is closed, they
      work on different requests. */
  ghost predicate PickersOk(connected: bool, closed: set<DevId>, picked: map<Picker, Grip>, reqs: map<ReqId, Req>) {
    && GripsNamed(picked, reqs)
    && (forall p :: GripAt(closed, picked, reqs, p))
    && (forall id :: HeldAt(picked, reqs, id))
    && (connected || closed == {} ==> Apart(picked, reqs))
  }

  ghost function Backgrounds(reqs: map<ReqId, Req>): set<ReqId> {
    set id | id in reqs && reqs[id].background
  }

  /** The counters of the background scheduler, flush_bg_queue pending or not. Between its first and its
      last section under fc->lock, abort has cleared `blocked` and not yet lifted the limit. */
  ghost predicate CountsOk(l: Lock, c: Sched, bg: seq<ReqId>, backgrounds: nat) {
    && c.numBackground == backgrounds
    && c.numBackground == c.activeBackground + |bg|
    && 0 <= c.activeBackground <= c.maxBackground
    && c.numBackground < UINT_MAX
    && 0 < c.maxBackground <= UINT_MAX
    && (if l.Sweeping? then !c.blocked else c.blocked <==> c.numBackground >= c.maxBackground)
    && c.submitted == c.flushed + bg
    && (l == LastFlush || l == Closing ==> c.maxBackground == UINT_MAX)
  }

  /** flush_bg_queue has nothing left to do. */
  ghost predicate Settled(c: Sched, bg: seq<ReqId>) { bg != [] ==> c.activeBackground == c.maxBackground }

  ghost predicate Core(s: Conn) {
    && Linked(s.q, s.reqs, s.devs)
    && RequestsOk(FlagsOf(s), s.interrupts, s.reqs)
    && InterruptsOk(s.interrupts, s.reqs) && RequeuersOk(s.requeuers, s.reqs)
    && UniqueOk(s.reqs, s.reqctr)
    && PickersOk(s.connected, s.closed, s.picked, s.reqs)
    && ConnOk(s)
    && CountsOk(s.lock, s.sched, s.q.bg, |Backgrounds(s.reqs)|)
  }

  /** A flush_bg_queue is under way. */
  predicate FlushPending(l: Lock) { l.Flushing? || l == LastFlush }

  ghost predicate Inv(s: Conn) { Core(s) && (!FlushPending(s.lock) ==> Settled(s.sched, s.q.bg)) }

  lemma InitInv(maxBackground: nat)
    requires 0 < maxBackground <= UINT_MAX
    ensures Inv(Init(maxBackground))
  {
    assert Backgrounds(map[]) == {};
  }

  /** Only request id may enter or leave the interrupts list. */
  ghost predicate InterruptsFrom(before: seq<ReqId>, id: ReqId, after: seq<ReqId>) {
    NoDup(after) && forall x :: x != id ==> (x in after <==> x in before)
  }

  lemma {:induction false} PutRequests(f: Flags, interrupts: seq<ReqId>, reqs: map<ReqId, Req>,
                    id: ReqId, r: Req, after: seq<ReqId>)
    requires RequestsOk(f, interrupts, reqs)
    requires RequestOk(f, id in after, r) && InterruptsFrom(interrupts, id, after)
    ensures RequestsOk(f, after, reqs[id := r])
  {
    var reqs' := reqs[id := r];
    forall x ensures OkAt(f, after, reqs', x) {
      if x != id {
        assert OkAt(f, interrupts, reqs, x);
        assert (x in after) == (x in interrupts);
      }
    }
  }

  lemma PutBackgrounds(reqs: map<ReqId, Req>, id: ReqId, r: Req)
    requires r.background == (id in reqs && reqs[id].background)
    ensures Backgrounds(reqs[id := r]) == Backgrounds(reqs)
  {
  }

  lemma PutDevices(f: Flags, queued: bool, r: Req)
    requires RequestOk(f, queued, r)
    ensures r.on.OnIo? || r.on.OnProcessing? ==> r.on.dev in f.devs
  {
  }

  /** A section that does not disturb end_requests. */
  lemma {:induction false} PutPickers(connected: bool, closed: set<DevId>, picked: map<Picker, Grip>,
      reqs: map<ReqId, Req>, id: ReqId, r: Req)
    requires PickersOk(connected, closed, picked, reqs) && Steady(closed, reqs, id, r)
    ensures PickersOk(connected, closed, picked, reqs[id := r])
  {
    var reqs' := reqs[id := r];
    forall p ensures GripAt(closed, picked, reqs', p) { assert GripAt(closed, picked, reqs, p); }
    forall x ensures HeldAt(picked, reqs', x) { assert HeldAt(picked, reqs, x); }
    if connected || closed == {} {
      forall p ensures SoleAt(picked, reqs', p) { assert SoleAt(picked, reqs, p) && GripAt(closed, picked, reqs, p); }
    }
  }

  /** A fresh request, or one that is written back without being disturbed. */
  ghost predicate Steady(closed: set<DevId>, reqs: map<ReqId, Req>, id: ReqId, r: Req) {
    if id in reqs then Undisturbed(closed, reqs[id], r) else !r.unlinked
  }

  /** The frame of a section that touches one request. */
  lemma {:induction false} PutCore(s: Conn, id: ReqId, r: Req, interrupts: seq<ReqId>, ctr: nat, sched: Sched,
      picked: map<Picker, Grip>, t: Conn)
    requires Core(s)
    requires RequestsOk(FlagsOf(s), interrupts, s.reqs[id := r]) && InterruptsFrom(s.interrupts, id, interrupts)
    requires UniqueOk(s.reqs[id := r], ctr) && (id in s.reqs && PastIo(s.reqs[id]) ==> PastIo(r))
    requires PickersOk(s.connected, s.closed, picked, s.reqs[id := r])
    requires CountsOk(s.lock, sched, Relink(s.q.bg, id, PlaceOf(s.reqs, id) == OnBg, r.on == OnBg), |Backgrounds(s.reqs[id := r])|)
    requires t == Put(s, id, r).(interrupts := interrupts, reqctr := ctr, sched := sched, picked := picked)
    ensures Core(t)
  {
    assert Linked(t.q, t.reqs, t.devs) by {
      assert OkAt(FlagsOf(s), interrupts, s.reqs[id := r], id);
      PutDevices(FlagsOf(s), id in interrupts, r);
      MoveLinked(s.q, s.reqs, s.devs, id, r);
    }
  }

  /** The frame of a section that touches neither the background queue nor its counters. */
  lemma {:induction false} PutMoves(s: Conn, id: ReqId, r: Req, interrupts: seq<ReqId>, ctr: nat,
      picked: map<Picker, Grip>, t: Conn)
    requires Inv(s)
    requires RequestsOk(FlagsOf(s), interrupts, s.reqs[id := r]) && InterruptsFrom(s.interrupts, id, interrupts)
    requires UniqueOk(s.reqs[id := r], ctr) && (id in s.reqs && PastIo(s.reqs[id]) ==> PastIo(r))
    requires PickersOk(s.connected, s.closed, picked, s.reqs[id := r])
    requires PlaceOf(s.reqs, id) != OnBg && r.on != OnBg
    requires r.background == (id in s.reqs && s.reqs[id].background)
    requires t == Put(s, id, r).(interrupts := interrupts, reqctr := ctr, picked := picked)
    ensures Inv(t)
  {
    PutBackgrounds(s.reqs, id, r);
    PutCore(s, id, r, interrupts, ctr, s.sched, picked, t);
  }

  /** Nor does it disturb end_requests. */
  lemma {:induction false} PutKeeps(s: Conn, id: ReqId, r: Req, interrupts: seq<ReqId>, ctr: nat, t: Conn)
    requires Inv(s)
    requires RequestsOk(FlagsOf(s), interrupts, s.reqs[id := r]) && InterruptsFrom(s.interrupts, id, interrupts)
    requires UniqueOk(s.reqs[id := r], ctr) && (id in s.reqs && PastIo(s.reqs[id]) ==> PastIo(r))
    requires Steady(s.closed, s.reqs, id, r)
    requires PlaceOf(s.reqs, id) != OnBg && r.on != OnBg
    requires r.background == (id in s.reqs && s.reqs[id].background)
    requires t == Put(s, id, r).(interrupts := interrupts, reqctr := ctr)
    ensures Inv(t)
  {
    PutPickers(s.connected, s.closed, s.picked, s.reqs, id, r);
    PutMoves(s, id, r, interrupts, ctr, s.picked, t);
  }

  /** Request id, which is not on bg_queue, may be written back as r, with or without its interrupt on the
      list. */
  ghost predicate Rewrites(s: Conn, id: ReqId, r: Req, after: seq<ReqId>) {
    && id in s.reqs && RequestsOk(FlagsOf(s), after, s.reqs[id := r]) && InterruptsFrom(s.interrupts, id, after)
    && Keeps(s.closed, s.reqs[id], r)
  }

  lemma {:induction false} ToRewrite(s: Conn, id: ReqId, r: Req, after: seq<ReqId>)
    requires Core(s) && id in s.reqs && RequestOk(FlagsOf(s), id in after, r) && InterruptsFrom(s.interrupts, id, after)
    requires Keeps(s.closed, s.reqs[id], r)
    ensures Rewrites(s, id, r, after)
  {
    PutRequests(FlagsOf(s), s.interrupts, s.reqs, id, r, after);
  }

  /** The same when only the record changes. */
  lemma PutOnly(s: Conn, id: ReqId, r: Req, t: Conn)
    requires Inv(s) && Rewrites(s, id, r, s.interrupts) && r.intrUnique == s.reqs[id].intrUnique
    requires t == Put(s, id, r)
    ensures Inv(t)
  {
    PutUnique(s.reqs, s.reqctr, id, r, s.reqctr);
    PutKeeps(s, id, r, s.interrupts, s.reqctr, t);
  }

  // ---------------------------------------------------------------- sections of one request

  lemma At(s: Conn, id: ReqId)
    requires Core(s) && id in s.reqs
    ensures RequestOk(FlagsOf(s), id in s.interrupts, s.reqs[id])
  {
    assert OkAt(FlagsOf(s), s.interrupts, s.reqs, id);
  }

  /** A fresh request. */
  lemma {:induction false} NewInv(s: Conn, id: ReqId, r: Req, ctr: nat, t: Conn)
    requires Inv(s) && id !in s.reqs && RequestOk(FlagsOf(s), false, r) && r.on != OnBg && !r.background && !r.unlinked
    requires UniqueOk(s.reqs[id := r], ctr) && t == Put(s, id, r).(reqctr := ctr)
    ensures Inv(t)
  {
    assert RequestsOk(FlagsOf(s), s.interrupts, s.reqs[id := r]) by {
      PutRequests(FlagsOf(s), s.interrupts, s.reqs, id, r, s.interrupts);
    }
    PutKeeps(s, id, r, s.interrupts, ctr, t);
  }

  lemma SendForegroundInv(s: Conn, id: ReqId, isReply: bool, force: bool)
    requires Inv(s) && id !in s.reqs
    ensures Inv(SendForeground(s, id, isReply, force))
  {
    if s.open {
      var r := Foreground(s.reqctr + 1, isReply, force, s.noInterrupt);
      assert RequestOk(FlagsOf(s), false, r) && r.on != OnBg && !r.background && !r.unlinked by {
        ForegroundOk(FlagsOf(s), s.reqctr + 1, isReply, force, s.noInterrupt);
      }
      assert UniqueOk(s.reqs[id := r], s.reqctr + 1) by { PutUnique(s.reqs, s.reqctr, id, r, s.reqctr + 1); }
      NewInv(s, id, r, s.reqctr + 1, SendForeground(s, id, isReply, force));
    }
  }

  lemma SendNotifyInv(s: Conn, id: ReqId, u: nat)
    requires Inv(s) && id !in s.reqs
    ensures Inv(SendNotify(s, id, u))
  {
    if s.open {
      PutUnique(s.reqs, s.reqctr, id, Notify(u), s.reqctr);
      NewInv(s, id, Notify(u), s.reqctr, SendNotify(s, id, u));
    }
  }

  lemma QueueForgetInv(s: Conn, f: ForgetOne)
    requires Inv(s)
    ensures Inv(QueueForget(s, f))
  {
  }

  lemma UniqueMono(reqs: map<ReqId, Req>, ctr: nat, ctr': nat)
    requires UniqueOk(reqs, ctr) && ctr <= ctr'
    ensures UniqueOk(reqs, ctr')
  {
    forall a ensures IdsAt(reqs, ctr', a) { assert IdsAt(reqs, ctr, a); }
  }

  lemma {:induction false} DeliverRewrites(s: Conn, id: ReqId, ctr: nat)
    requires Core(s) && id in s.reqs && id in s.interrupts && ctr != 0
    ensures Rewrites(s, id, Interrupt(s.reqs[id], ctr), Without(s.interrupts, id))
  {
    At(s, id);
    InterruptOk(FlagsOf(s), s.reqs[id], ctr);
    ToRewrite(s, id, Interrupt(s.reqs[id], ctr), Without(s.interrupts, id));
  }

  lemma DeliverInv(s: Conn, id: ReqId)
    requires Inv(s) && id in s.interrupts && id in s.reqs
    ensures Inv(Deliver(s, id))
  {
    var ctr := s.reqctr + 1;
    var r := Interrupt(s.reqs[id], ctr);
    var after := Without(s.interrupts, id);
    DeliverRewrites(s, id, ctr);
    assert UniqueOk(s.reqs[id := r], ctr) by { PutUnique(s.reqs, s.reqctr, id, r, ctr); }
    PutKeeps(s, id, r, after, ctr, Deliver(s, id));
  }

  lemma ReadRequestInv(s: Conn, d: DevId)
    requires Inv(s) && d in s.devs && d !in s.closed && s.q.pending != [] && s.q.pending[0] in s.reqs && s.open
    ensures Inv(ReadRequest(s, d))
  {
    var id := s.q.pending[0];
    var r := Take(s.reqs[id], d);
    assert Rewrites(s, id, r, s.interrupts) by {
      Members(s.q, s.reqs);
      At(s, id);
      TakeOk(FlagsOf(s), id in s.interrupts, s.reqs[id], d);
      ToRewrite(s, id, r, s.interrupts);
    }
    PutOnly(s, id, r, ReadRequest(s, d));
  }

  lemma {:induction false} BatchInv(s: Conn, forgets: seq<ForgetOne>, batch: int, ctr: nat)
    requires Inv(s) && s.open && ReadSchedule.InRange(batch) && s.reqctr <= ctr
    ensures Inv(s.(forgets := forgets, forgetBatch := batch, reqctr := ctr))
  {
    UniqueMono(s.reqs, s.reqctr, ctr);
  }

  lemma {:induction false} ReadTurnInv(s: Conn, d: DevId, batch: int)
    requires Inv(s) && d in s.devs && d !in s.closed && s.q.pending != [] && s.q.pending[0] in s.reqs && s.open
    requires ReadSchedule.InRange(batch)
    ensures Inv(ReadRequest(s, d).(forgetBatch := batch))
  {
    var t := ReadRequest(s, d);
    ReadRequestInv(s, d);
    assert t.(forgets := t.forgets, forgetBatch := batch, reqctr := t.reqctr) == t.(forgetBatch := batch);
    BatchInv(t, t.forgets, batch, t.reqctr);
  }

  lemma ReadInv(s: Conn, d: DevId, max: nat)
    requires Inv(s) && d in s.devs && d !in s.closed
    ensures forall id :: id in s.interrupts || id in s.q.pending ==> id in s.reqs
    ensures Inv(Read(s, d, max))
  {
    Members(s.q, s.reqs);
    if s.open {
      var (c, b) := ReadChoice(s);
      match c
      case Wait =>
      case Interrupt => DeliverInv(s, s.interrupts[0]);
      case Forget =>
        var n := if max <= |s.forgets| then max else |s.forgets|;
        BatchInv(s, s.forgets[n..], b, s.reqctr + 1);
      case Request => ReadTurnInv(s, d, b);
    }
  }

  lemma TooLargeInv(s: Conn, id: ReqId, x: bool)
    requires Inv(s) && Enabled(s, ETooLarge(id, x))
    ensures Inv(TooLarge(s, id, x))
  {
    var r := Oversize(s.reqs[id], x);
    assert Rewrites(s, id, r, s.interrupts) by {
      At(s, id);
      OversizeOk(FlagsOf(s), id in s.interrupts, s.reqs[id], x);
      ToRewrite(s, id, r, s.interrupts);
    }
    PutOnly(s, id, r, TooLarge(s, id, x));
  }

  lemma AddIoInv(s: Conn, id: ReqId)
    requires Inv(s) && Enabled(s, EAddIo(id))
    ensures Inv(AddIo(s, id))
  {
    var r := StartCopy(s.reqs[id]);
    assert Rewrites(s, id, r, s.interrupts) by {
      At(s, id);
      StartCopyOk(FlagsOf(s), id in s.interrupts, s.reqs[id]);
      ToRewrite(s, id, r, s.interrupts);
    }
    PutOnly(s, id, r, AddIo(s, id));
  }

  lemma LockInv(s: Conn, id: ReqId, locked: bool)
    requires Inv(s) && Enabled(s, ELockRequest(id, locked))
    ensures Inv(LockRequest(s, id, locked))
  {
    var r := SetLocked(s.reqs[id], locked);
    assert Rewrites(s, id, r, s.interrupts) by {
      At(s, id);
      SetLockedOk(FlagsOf(s), id in s.interrupts, s.reqs[id], locked);
      ToRewrite(s, id, r, s.interrupts);
    }
    PutOnly(s, id, r, LockRequest(s, id, locked));
  }

  lemma {:induction false} FinishReadRewrites(s: Conn, id: ReqId, failed: bool)
    requires Core(s) && id in s.reqs && s.reqs[id].reader.Reading?
    ensures Rewrites(s, id, EndRead(s.reqs[id], Alive(s, s.reqs[id].reader.dev), failed), s.interrupts)
  {
    At(s, id);
    EndReadOk(FlagsOf(s), id in s.interrupts, s.reqs[id], failed);
    ToRewrite(s, id, EndRead(s.reqs[id], Alive(s, s.reqs[id].reader.dev), failed), s.interrupts);
  }

  lemma FinishReadInv(s: Conn, id: ReqId, failed: bool)
    requires Inv(s) && Enabled(s, EFinishRead(id, failed))
    ensures Inv(FinishRead(s, id, failed))
  {
    var r := EndRead(s.reqs[id], Alive(s, s.reqs[id].reader.dev), failed);
    FinishReadRewrites(s, id, failed);
    PutOnly(s, id, r, FinishRead(s, id, failed));
  }

  lemma SetSentInv(s: Conn, id: ReqId)
    requires Inv(s) && Enabled(s, ESetSent(id))
    ensures Inv(SetSent(s, id))
  {
    var r := Sent(s.reqs[id]);
    assert Rewrites(s, id, r, s.interrupts) by {
      At(s, id);
      SentStepOk(FlagsOf(s), id in s.interrupts, s.reqs[id]);
      ToRewrite(s, id, r, s.interrupts);
    }
    PutOnly(s, id, r, SetSent(s, id));
  }

  ghost function Queued(s: Conn, id: ReqId): seq<ReqId> {
    if id in s.interrupts then s.interrupts else s.interrupts + [id]
  }

  /** queue_interrupt after request id is written back. */
  lemma {:induction false} QueueInterruptInv(s: Conn, id: ReqId, r: Req, t: Conn)
    requires Inv(s) && id in s.reqs && r.intrUnique == s.reqs[id].intrUnique
    requires Rewrites(s, id, r, if r.finished then s.interrupts else Queued(s, id))
    requires t == QueueInterrupt(Put(s, id, r), id)
    ensures Inv(t)
  {
    var after := if r.finished then s.interrupts else Queued(s, id);
    PutUnique(s.reqs, s.reqctr, id, r, s.reqctr);
    PutKeeps(s, id, r, after, s.reqctr, t);
  }

  lemma QueuedFrom(s: Conn, id: ReqId)
    requires NoDup(s.interrupts)
    ensures InterruptsFrom(s.interrupts, id, Queued(s, id)) && InterruptsFrom(s.interrupts, id, s.interrupts) && id in Queued(s, id)
  {
  }

  lemma TestInterruptedInv(s: Conn, id: ReqId)
    requires Inv(s) && Enabled(s, ETestInterrupted(id))
    ensures Inv(TestInterrupted(s, id))
  {
    var r := TestedInterrupted(s.reqs[id]);
    assert Rewrites(s, id, r, s.interrupts) by {
      At(s, id);
      TestedInterruptedOk(FlagsOf(s), id in s.interrupts, s.reqs[id]);
      ToRewrite(s, id, r, s.interrupts);
    }
    PutOnly(s, id, r, TestInterrupted(s, id));
  }

  lemma ReaderQueueInv(s: Conn, id: ReqId)
    requires Inv(s) && Enabled(s, EReaderQueue(id))
    ensures Inv(ReaderQueue(s, id))
  {
    var r := s.reqs[id].(reader := ReadDone);
    var after := if r.finished then s.interrupts else Queued(s, id);
    assert Rewrites(s, id, r, after) by {
      At(s, id);
      QueuedFrom(s, id);
      ReaderQueuedOk(FlagsOf(s), id in s.interrupts, s.reqs[id]);
      ToRewrite(s, id, r, after);
    }
    QueueInterruptInv(s, id, r, ReaderQueue(s, id));
  }

  lemma ReplyFoundInv(s: Conn, d: DevId, id: ReqId, u: nat, error: int, h: bool)
    requires Inv(s) && id in s.reqs && s.reqs[id].on == OnProcessing(d) && d !in s.closed
    ensures Inv(ReplyFound(s, d, id, u, error, h))
  {
    if s.reqs[id].intrUnique != u {
      var r := StartReply(s.reqs[id], d, error);
      assert Rewrites(s, id, r, s.interrupts) by {
        At(s, id);
        StartReplyOk(FlagsOf(s), id in s.interrupts, s.reqs[id], d, error);
        ToRewrite(s, id, r, s.interrupts);
      }
      PutOnly(s, id, r, ReplyFound(s, d, id, u, error, h));
    } else if h && error == EAGAIN {
      PointInv(s, id);
    }
  }

  /** The writer of an interrupt reply keeps a pointer to its request. */
  lemma PointInv(s: Conn, id: ReqId)
    requires Inv(s) && id in s.reqs && s.reqs[id].on.OnProcessing?
    ensures Inv(s.(requeuers := s.requeuers + multiset{id}))
  {
    assert PastIo(s.reqs[id]) by { At(s, id); }
  }

  lemma ForgetPointer(s: Conn, id: ReqId, t: Conn)
    requires Inv(s) && t == s.(requeuers := s.requeuers - multiset{id})
    ensures Inv(t)
  {
  }

  lemma RequeueInv(s: Conn, id: ReqId)
    requires Inv(s) && id in s.requeuers
    ensures id in s.reqs && Inv(Requeue(s, id))
  {
    var s1 := s.(requeuers := s.requeuers - multiset{id});
    ForgetPointer(s, id, s1);
    PastIoQueueInv(s1, id);
  }

  /** queue_interrupt for a request that userspace has read. */
  lemma {:induction false} PastIoQueueInv(s: Conn, id: ReqId)
    requires Inv(s) && id in s.reqs && PastIo(s.reqs[id])
    ensures Inv(QueueInterrupt(s, id))
  {
    var r := s.reqs[id];
    var after := if r.finished then s.interrupts else Queued(s, id);
    SameRequest(s, id);
    assert Rewrites(s, id, r, after) by {
      At(s, id);
      QueuedFrom(s, id);
      RequeueOk(FlagsOf(s), id in s.interrupts, r);
      ToRewrite(s, id, r, after);
    }
    QueueInterruptInv(s, id, r, QueueInterrupt(s, id));
  }

  lemma SameRequest(s: Conn, id: ReqId)
    requires id in s.reqs
    ensures Put(s, id, s.reqs[id]) == s
  {
    assert s.reqs[id := s.reqs[id]] == s.reqs;
    Stay(s.q, id, s.reqs[id].on);
  }

  lemma ReplyInv(s: Conn, d: DevId, u: nat, error: int, h: bool)
    requires Inv(s) && d in s.q.processing && d !in s.closed
    ensures forall id :: id in s.q.processing[d] ==> id in s.reqs
    ensures Inv(Reply(s, d, u, error, h))
  {
    Members(s.q, s.reqs);
    if u != 0 && -1000 < error <= 0 && Alive(s, d) {
      match RequestFind(s.reqs, s.q.processing[d], u)
      case NotFound =>
      case Found(id) => ReplyFoundInv(s, d, id, u, error, h);
    }
  }

  lemma {:induction false} FinishReplyRewrites(s: Conn, id: ReqId, failed: bool)
    requires Core(s) && id in s.reqs && s.reqs[id].replier.Copying?
    ensures Rewrites(s, id, EndReply(s.reqs[id], Alive(s, s.reqs[id].replier.dev), failed), s.interrupts)
  {
    At(s, id);
    EndReplyOk(FlagsOf(s), id in s.interrupts, s.reqs[id], failed);
    ToRewrite(s, id, EndReply(s.reqs[id], Alive(s, s.reqs[id].replier.dev), failed), s.interrupts);
  }

  lemma FinishReplyInv(s: Conn, id: ReqId, failed: bool)
    requires Inv(s) && Enabled(s, EFinishReply(id, failed))
    ensures Inv(FinishReply(s, id, failed))
  {
    var r := EndReply(s.reqs[id], Alive(s, s.reqs[id].replier.dev), failed);
    FinishReplyRewrites(s, id, failed);
    PutOnly(s, id, r, FinishReply(s, id, failed));
  }

  lemma {:induction false} EndRemoveRewrites(s: Conn, id: ReqId)
    requires Core(s) && id in s.reqs && s.reqs[id].ender == Removing
    ensures Rewrites(s, id, Removed(s.reqs[id]), Without(s.interrupts, id))
  {
    At(s, id);
    RemovedOk(FlagsOf(s), id in s.interrupts, s.reqs[id]);
    ToRewrite(s, id, Removed(s.reqs[id]), Without(s.interrupts, id));
  }

  lemma EndRemoveInv(s: Conn, id: ReqId)
    requires Inv(s) && Enabled(s, EEndRemove(id))
    ensures Inv(EndRemove(s, id))
  {
    var r := Removed(s.reqs[id]);
    var after := Without(s.interrupts, id);
    EndRemoveRewrites(s, id);
    PutUnique(s.reqs, s.reqctr, id, r, s.reqctr);
    PutKeeps(s, id, r, after, s.reqctr, EndRemove(s, id));
  }

  lemma EndCallbackInv(s: Conn, id: ReqId)
    requires Inv(s) && Enabled(s, EEndCallback(id))
    ensures Inv(EndCallback(s, id))
  {
    var r := CalledBack(s.reqs[id]);
    assert Rewrites(s, id, r, s.interrupts) by {
      At(s, id);
      CalledBackOk(FlagsOf(s), id in s.interrupts, s.reqs[id]);
      ToRewrite(s, id, r, s.interrupts);
    }
    PutOnly(s, id, r, EndCallback(s, id));
  }

  lemma SignalInv(s: Conn, id: ReqId)
    requires Inv(s) && Enabled(s, ESignal(id))
    ensures Inv(Signal(s, id))
  {
    var r := Signalled(s.reqs[id]);
    assert Rewrites(s, id, r, s.interrupts) by {
      At(s, id);
      SignalledOk(FlagsOf(s), id in s.interrupts, s.reqs[id]);
      ToRewrite(s, id, r, s.interrupts);
    }
    PutOnly(s, id, r, Signal(s, id));
  }

  lemma TestSentInv(s: Conn, id: ReqId)
    requires Inv(s) && Enabled(s, ETestSent(id))
    ensures Inv(TestSent(s, id))
  {
    var r := TestedSent(s.reqs[id]);
    assert Rewrites(s, id, r, s.interrupts) by {
      At(s, id);
      TestedSentOk(FlagsOf(s), id in s.interrupts, s.reqs[id]);
      ToRewrite(s, id, r, s.interrupts);
    }
    PutOnly(s, id, r, TestSent(s, id));
  }

  lemma WaiterQueueInv(s: Conn, id: ReqId)
    requires Inv(s) && Enabled(s, EWaiterQueue(id))
    ensures Inv(WaiterQueue(s, id))
  {
    var r := s.reqs[id].(waiter := SecondWait(s.reqs[id].force));
    var after := if r.finished then s.interrupts else Queued(s, id);
    assert Rewrites(s, id, r, after) by {
      At(s, id);
      QueuedFrom(s, id);
      WaiterQueuedOk(FlagsOf(s), id in s.interrupts, s.reqs[id]);
      ToRewrite(s, id, r, after);
    }
    QueueInterruptInv(s, id, r, WaiterQueue(s, id));
  }

  lemma {:induction false} KillRewrites(s: Conn, id: ReqId)
    requires Core(s) && id in s.reqs && s.reqs[id].waiter == Killable
    ensures Rewrites(s, id, Die(s.reqs[id]), s.interrupts)
  {
    At(s, id);
    DieOk(FlagsOf(s), id in s.interrupts, s.reqs[id]);
    ToRewrite(s, id, Die(s.reqs[id]), s.interrupts);
  }

  lemma KillInv(s: Conn, id: ReqId)
    requires Inv(s) && id in s.reqs && s.reqs[id].waiter == Killable
    ensures Inv(Kill(s, id))
  {
    var r := Die(s.reqs[id]);
    KillRewrites(s, id);
    PutOnly(s, id, r, Kill(s, id));
  }

  lemma ReturnInv(s: Conn, id: ReqId)
    requires Inv(s) && Enabled(s, EReturn(id))
    ensures Inv(Return(s, id))
  {
    var r := s.reqs[id].(waiter := Returned);
    assert Rewrites(s, id, r, s.interrupts) by {
      At(s, id);
      ReturnedOk(FlagsOf(s), id in s.interrupts, s.reqs[id]);
      ToRewrite(s, id, r, s.interrupts);
    }
    PutOnly(s, id, r, Return(s, id));
  }

  lemma ReleaseInv(s: Conn, id: ReqId)
    requires Inv(s) && Enabled(s, ERelease(id))
    ensures Inv(Release(s, id))
  {
    var r := Released(s.reqs[id]);
    assert Rewrites(s, id, r, s.interrupts) by {
      At(s, id);
      ReleasedOk(FlagsOf(s), id in s.interrupts, s.reqs[id]);
      ToRewrite(s, id, r, s.interrupts);
    }
    PutOnly(s, id, r, Release(s, id));
  }

  lemma AbortEnd1Inv(s: Conn, id: ReqId)
    requires Inv(s) && id in s.q.end1
    ensures id in s.reqs && Inv(AbortEnd1(s, id))
  {
    Members(s.q, s.reqs);
    var r := EndPrivate(s.reqs[id]);
    assert Rewrites(s, id, r, s.interrupts) by {
      At(s, id);
      EndPrivateOk(FlagsOf(s), id in s.interrupts, s.reqs[id]);
      ToRewrite(s, id, r, s.interrupts);
    }
    PutOnly(s, id, r, AbortEnd1(s, id));
  }

  // ---------------------------------------------------------------- end_requests

  /** What a loop of end_requests points to. */
  lemma {:induction false} Gripped(s: Conn, p: Picker)
    requires Core(s) && p in s.picked
    ensures s.picked[p].id in s.reqs && Within(s.closed, s.reqs[s.picked[p].id])
    ensures s.picked[p].unlinked ==> s.reqs[s.picked[p].id].unlinked
  {
    assert GripAt(s.closed, s.picked, s.reqs, p);
  }

  /** A request joins those that are picked. */
  lemma {:induction false} PickPickers(s: Conn, p: Picker, id: ReqId)
    requires PickersOk(s.connected, s.closed, s.picked, s.reqs) && p !in s.picked && id in s.reqs && Within(s.closed, s.reqs[id])
    requires if p.ByAbort? then s.reqs[id].on == OnEnd2
      && !s.connected else s.reqs[id].on == OnProcessing(p.dev) && p.dev in s.closed
    requires !s.reqs[id].finished && !s.reqs[id].unlinked
    ensures PickersOk(s.connected, s.closed, s.picked[p := Grip(id, false)], s.reqs)
  {
    var picked := s.picked[p := Grip(id, false)];
    forall x ensures GripAt(s.closed, picked, s.reqs, x) { assert GripAt(s.closed, s.picked, s.reqs, x); }
    forall x ensures HeldAt(picked, s.reqs, x) {
      assert HeldAt(s.picked, s.reqs, x);
      if x in s.reqs && s.reqs[x].unlinked && !s.reqs[x].finished {
        var y :| y in s.picked && s.picked[y] == Grip(x, true);
        assert y in picked && picked[y] == Grip(x, true);
      }
    }
    if s.connected || s.closed == {} {
      forall x ensures SoleAt(picked, s.reqs, x) { assert SoleAt(s.picked, s.reqs, x); }
      forall x, y ensures ApartAt(picked, x, y) {
        assert ApartAt(s.picked, x, y) && SoleAt(s.picked, s.reqs, x) && SoleAt(s.picked, s.reqs, y);
        assert GripAt(s.closed, s.picked, s.reqs, x) && GripAt(s.closed, s.picked, s.reqs, y);
      }
    }
  }

  lemma AbortPickInv(s: Conn, id: ReqId)
    requires Inv(s) && id in s.q.end2 && ByAbort !in s.picked
    ensures id in s.reqs && Inv(Pick(s, ByAbort, id))
  {
    Members(s.q, s.reqs);
    assert !s.connected && !s.reqs[id].finished && !s.reqs[id].unlinked by { At(s, id); }
    PickPickers(s, ByAbort, id);
  }

  lemma ReleasePickInv(s: Conn, d: DevId)
    requires Inv(s) && d in s.closed && d in s.q.processing && s.q.processing[d] != [] && ByRelease(d) !in s.picked
    ensures s.q.processing[d][0] in s.reqs && Inv(Pick(s, ByRelease(d), s.q.processing[d][0]))
  {
    Members(s.q, s.reqs);
    var id := s.q.processing[d][0];
    assert !s.reqs[id].finished && !s.reqs[id].unlinked by { At(s, id); }
    PickPickers(s, ByRelease(d), id);
  }

  lemma {:induction false} UnlinkHeld(picked: map<Picker, Grip>, reqs: map<ReqId, Req>, p: Picker, id: ReqId, r: Req, x: ReqId)
    requires HeldAt(picked, reqs, x) && p in picked && picked[p] == Grip(id, false)
    ensures HeldAt(picked[p := Grip(id, true)], reqs[id := r], x)
  {
    var picked', reqs' := picked[p := Grip(id, true)], reqs[id := r];
    assert p in picked' && picked'[p] == Grip(id, true);
    if x != id && x in reqs && reqs[x].unlinked && !reqs[x].finished {
      var y :| y in picked && picked[y] == Grip(x, true);
      assert y in picked' && picked'[y] == Grip(x, true);
    }
  }

  lemma {:induction false} UnlinkPickers(s: Conn, p: Picker, id: ReqId, r: Req)
    requires PickersOk(s.connected, s.closed, s.picked, s.reqs)
    requires p in s.picked && s.picked[p] == Grip(id, false) && id in s.reqs && r == Unlink(s.reqs[id])
    ensures PickersOk(s.connected, s.closed, s.picked[p := Grip(id, true)], s.reqs[id := r])
  {
    var picked, reqs := s.picked[p := Grip(id, true)], s.reqs[id := r];
    forall x ensures GripAt(s.closed, picked, reqs, x) { assert GripAt(s.closed, s.picked, s.reqs, x); }
    forall x ensures HeldAt(picked, reqs, x) {
      assert HeldAt(s.picked, s.reqs, x);
      UnlinkHeld(s.picked, s.reqs, p, id, r, x);
    }
    if s.connected || s.closed == {} {
      forall x ensures SoleAt(picked, reqs, x) { assert SoleAt(s.picked, s.reqs, x) && ApartAt(s.picked, p, x); }
      forall x, y ensures ApartAt(picked, x, y) { assert ApartAt(s.picked, x, y); }
    }
  }

  lemma {:induction false} UnlinkRequests(s: Conn, id: ReqId, r: Req)
    requires Core(s) && id in s.reqs && Within(s.closed, s.reqs[id]) && r == Unlink(s.reqs[id])
    ensures RequestsOk(FlagsOf(s), s.interrupts, s.reqs[id := r]) && UniqueOk(s.reqs[id := r], s.reqctr)
    ensures s.reqs[id].on != OnBg && PastIo(s.reqs[id]) == PastIo(r)
  {
    At(s, id);
    UnlinkOk(FlagsOf(s), id in s.interrupts, s.reqs[id]);
    PutRequests(FlagsOf(s), s.interrupts, s.reqs, id, r, s.interrupts);
    PutUnique(s.reqs, s.reqctr, id, r, s.reqctr);
  }

  lemma UnlinkPickedInv(s: Conn, p: Picker)
    requires Inv(s) && p in s.picked && !s.picked[p].unlinked
    ensures s.picked[p].id in s.reqs && Inv(UnlinkPicked(s, p))
  {
    Gripped(s, p);
    var id := s.picked[p].id;
    var r := Unlink(s.reqs[id]);
    UnlinkRequests(s, id, r);
    UnlinkPickers(s, p, id, r);
    PutMoves(s, id, r, s.interrupts, s.reqctr, s.picked[p := Grip(id, true)], UnlinkPicked(s, p));
  }

  lemma {:induction false} EndPickers(s: Conn, p: Picker, id: ReqId, r: Req)
    requires PickersOk(s.connected, s.closed, s.picked, s.reqs)
    requires p in s.picked && s.picked[p] == Grip(id, true) && id in s.reqs && r == StartEnd(s.reqs[id])
    ensures PickersOk(s.connected, s.closed, s.picked - {p}, s.reqs[id := r])
  {
    var picked, reqs := s.picked - {p}, s.reqs[id := r];
    forall x ensures GripAt(s.closed, picked, reqs, x) { assert GripAt(s.closed, s.picked, s.reqs, x); }
    forall x ensures HeldAt(picked, reqs, x) {
      if x != id && x in reqs && reqs[x].unlinked && !reqs[x].finished {
        assert HeldAt(s.picked, s.reqs, x);
        var y :| y in s.picked && s.picked[y] == Grip(x, true);
        assert y in picked && picked[y] == Grip(x, true);
      }
    }
    if s.connected || s.closed == {} {
      forall x ensures SoleAt(picked, reqs, x) { assert SoleAt(s.picked, s.reqs, x) && ApartAt(s.picked, p, x); }
      forall x, y ensures ApartAt(picked, x, y) { assert ApartAt(s.picked, x, y); }
    }
  }

  lemma {:induction false} EndRequests(s: Conn, id: ReqId, r: Req)
    requires Core(s) && id in s.reqs && s.reqs[id].unlinked && r == StartEnd(s.reqs[id])
    ensures RequestsOk(FlagsOf(s), s.interrupts, s.reqs[id := r]) && UniqueOk(s.reqs[id := r], s.reqctr)
    ensures s.reqs[id].on == Nowhere
  {
    At(s, id);
    EndUnlinkedOk(FlagsOf(s), id in s.interrupts, s.reqs[id]);
    PutRequests(FlagsOf(s), s.interrupts, s.reqs, id, r, s.interrupts);
    PutUnique(s.reqs, s.reqctr, id, r, s.reqctr);
  }

  lemma EndPickedInv(s: Conn, p: Picker)
    requires Inv(s) && p in s.picked && s.picked[p].unlinked
    ensures s.picked[p].id in s.reqs && Inv(EndPicked(s, p))
  {
    Gripped(s, p);
    var id := s.picked[p].id;
    var r := StartEnd(s.reqs[id]);
    EndRequests(s, id, r);
    EndPickers(s, p, id, r);
    PutMoves(s, id, r, s.interrupts, s.reqctr, s.picked - {p}, EndPicked(s, p));
  }

  lemma {:induction false} CloseDevicePickers(s: Conn, d: DevId)
    requires Core(s)
    ensures PickersOk(s.connected, s.closed + {d}, s.picked, s.reqs)
  {
    forall p ensures GripAt(s.closed + {d}, s.picked, s.reqs, p) { assert GripAt(s.closed, s.picked, s.reqs, p); }
  }

  lemma CloseDeviceInv(s: Conn, d: DevId)
    requires Inv(s) && d in s.devs && Quiet(s, d)
    ensures Inv(CloseDevice(s, d))
  {
    CloseDevicePickers(s, d);
    CloseDeviceRequests(FlagsOf(s), s.interrupts, s.reqs, d);
  }

  lemma {:induction false} CloseDeviceRequests(f: Flags, interrupts: seq<ReqId>, reqs: map<ReqId, Req>, d: DevId)
    requires RequestsOk(f, interrupts, reqs) && forall id :: id in reqs ==> Away(reqs[id], d)
    ensures RequestsOk(f.(closed := f.closed + {d}), interrupts, reqs)
  {
    forall x ensures OkAt(f.(closed := f.closed + {d}), interrupts, reqs, x) {
      assert OkAt(f, interrupts, reqs, x);
      if x in reqs { DeviceClosedOk(f, x in interrupts, reqs[x], d); }
    }
  }

  // ---------------------------------------------------------------- a new device

  lemma {:induction false} AddDeviceRequests(f: Flags, interrupts: seq<ReqId>, reqs: map<ReqId, Req>, d: DevId)
    requires RequestsOk(f, interrupts, reqs) && d !in f.devs
    ensures RequestsOk(f.(devs := f.devs[d := true]), interrupts, reqs)
  {
    var f' := f.(devs := f.devs[d := true]);
    forall x ensures OkAt(f', interrupts, reqs, x) {
      assert OkAt(f, interrupts, reqs, x);
    }
  }

  lemma AddDeviceLinked(s: Conn, d: DevId)
    requires Core(s) && d !in s.devs
    ensures var t := AddDevice(s, d); Linked(t.q, t.reqs, t.devs)
  {
    var t := AddDevice(s, d);
    forall p, x | p != Nowhere ensures On(t.q, p, x) <==> PlaceOf(t.reqs, x) == p {
      assert On(s.q, p, x) <==> PlaceOf(s.reqs, x) == p;
      if x in s.reqs { At(s, x); }
    }
  }

  lemma AddDeviceInv(s: Conn, d: DevId)
    requires Inv(s) && s.lock == Unheld && d !in s.devs
    ensures Inv(AddDevice(s, d))
  {
    AddDeviceLinked(s, d);
    AddDeviceRequests(FlagsOf(s), s.interrupts, s.reqs, d);
  }

  // ---------------------------------------------------------------- the background queue

  lemma FlushOneQueues(s: Conn)
    requires Linked(s.q, s.reqs, s.devs) && s.q.bg != []
    ensures s.q.bg[0] in s.reqs && s.reqs[s.q.bg[0]].on == OnBg
    ensures FlushOne(s).q.bg == s.q.bg[1..] && FlushOne(s).q.pending == s.q.pending + [s.q.bg[0]]
    ensures Relink(s.q.bg, s.q.bg[0], true, false) == s.q.bg[1..]
  {
    Members(s.q, s.reqs);
    WithoutHead(s.q.bg);
  }

  lemma FlushOneIsPut(s: Conn, id: ReqId, r: Req)
    requires s.q.bg != [] && s.q.bg[0] == id && id in s.reqs && r == Flushed(s.reqs[id], s.reqctr + 1)
    ensures FlushOne(s) == Put(s, id, r).(reqctr := s.reqctr + 1, sched := Activate(s.sched, id))
  {
  }

  lemma {:induction false} FlushOneCounts(l: Lock, c: Sched, bg: seq<ReqId>, backgrounds: nat)
    requires CountsOk(l, c, bg, backgrounds) && bg != [] && c.activeBackground < c.maxBackground
    ensures CountsOk(l, Activate(c, bg[0]), bg[1..], backgrounds)
  {
    assert bg == [bg[0]] + bg[1..];
  }

  lemma {:induction false} FlushOneRequests(s: Conn, id: ReqId, r: Req)
    requires Core(s) && id in s.reqs && s.reqs[id].on == OnBg && r == Flushed(s.reqs[id], s.reqctr + 1)
    ensures RequestsOk(FlagsOf(s), s.interrupts, s.reqs[id := r]) && !PastIo(s.reqs[id])
    ensures UniqueOk(s.reqs[id := r], s.reqctr + 1) && PickersOk(s.connected, s.closed, s.picked, s.reqs[id := r])
  {
    At(s, id);
    FlushedOk(FlagsOf(s), id in s.interrupts, s.reqs[id], s.reqctr + 1);
    PutRequests(FlagsOf(s), s.interrupts, s.reqs, id, r, s.interrupts);
    PutUnique(s.reqs, s.reqctr, id, r, s.reqctr + 1);
    PutPickers(s.connected, s.closed, s.picked, s.reqs, id, r);
  }

  lemma FlushOneInv(s: Conn)
    requires Core(s) && CanFlush(s)
    ensures s.q.bg[0] in s.reqs && s.reqs[s.q.bg[0]].on == OnBg
    ensures Core(FlushOne(s))
  {
    var id := s.q.bg[0];
    FlushOneQueues(s);
    var r := Flushed(s.reqs[id], s.reqctr + 1);
    FlushOneRequests(s, id, r);
    FlushOneCounts(s.lock, s.sched, s.q.bg, |Backgrounds(s.reqs)|);
    PutBackgrounds(s.reqs, id, r);
    FlushOneIsPut(s, id, r);
    PutCore(s, id, r, s.interrupts, s.reqctr + 1, Activate(s.sched, id), s.picked, FlushOne(s));
  }

  lemma FlushTurnInv(s: Conn)
    requires Inv(s) && Enabled(s, EFlushTurn)
    ensures s.q.bg != [] ==> s.q.bg[0] in s.reqs
    ensures Inv(FlushTurn(s))
  {
    Members(s.q, s.reqs);
    if CanFlush(s) { FlushOneInv(s); }
  }

  /** All of a flush_bg_queue that nobody interrupts. */
  lemma {:induction false} FlushInv(s: Conn)
    requires Core(s)
    ensures forall id :: id in s.q.bg ==> id in s.reqs && s.reqs[id].on == OnBg
    ensures Inv(Flush(s)) && Settled(Flush(s).sched, Flush(s).q.bg) && FlagsOf(Flush(s)) == FlagsOf(s) && Flush(s).lock == s.lock
    ensures Flush(s).sched.maxBackground == s.sched.maxBackground
    decreases s.sched.maxBackground - s.sched.activeBackground
  {
    Members(s.q, s.reqs);
    if CanFlush(s) {
      FlushOneInv(s);
      FlushInv(FlushOne(s));
    }
  }

  lemma {:induction false} AdmitCounts(l: Lock, c: Sched, bg: seq<ReqId>, reqs: map<ReqId, Req>, id: ReqId, r: Req)
    requires CountsOk(l, c, bg, |Backgrounds(reqs)|) && c.numBackground + 1 < UINT_MAX && l == Unheld
    requires id !in reqs && r.background
    ensures CountsOk(l, Admit(c, id), bg + [id], |Backgrounds(reqs[id := r])|)
  {
    assert Backgrounds(reqs[id := r]) == Backgrounds(reqs) + {id};
  }

  lemma EnqueueInv(s: Conn, id: ReqId)
    requires Inv(s) && s.connected && s.lock == Unheld && id !in s.reqs && s.sched.numBackground + 1 < UINT_MAX
    ensures Core(Enqueue(s, id))
  {
    var r := Background();
    BackgroundOk(FlagsOf(s));
    PutUnique(s.reqs, s.reqctr, id, r, s.reqctr);
    PutRequests(FlagsOf(s), s.interrupts, s.reqs, id, r, s.interrupts);
    AdmitCounts(s.lock, s.sched, s.q.bg, s.reqs, id, r);
    PutPickers(s.connected, s.closed, s.picked, s.reqs, id, r);
    PutCore(s, id, r, s.interrupts, s.reqctr, Admit(s.sched, id), s.picked, Enqueue(s, id));
  }

  /** A thread keeps fc->lock for its flush_bg_queue. */
  lemma HoldInv(s: Conn, id: ReqId)
    requires Core(s) && s.lock == Unheld
    ensures Inv(s.(lock := Flushing(id)))
  {
  }

  lemma SendBackgroundInv(s: Conn, id: ReqId)
    requires Inv(s) && Enabled(s, ESendBackground(id))
    ensures Inv(SendBackground(s, id))
  {
    if s.connected {
      EnqueueInv(s, id);
      HoldInv(Enqueue(s, id), id);
    }
  }

  /** A background request that is no longer on bg_queue is counted as active. */
  lemma ActiveBackground(s: Conn, id: ReqId)
    requires Core(s) && id in s.reqs && s.reqs[id].background && s.reqs[id].on != OnBg
    ensures s.sched.activeBackground >= 1
  {
    Members(s.q, s.reqs);
    var waiting := set x | x in s.q.bg;
    forall x | x in waiting ensures x in Backgrounds(s.reqs) - {id} { At(s, x); }
    NoDupCard(s.q.bg);
    SubsetCard(waiting, Backgrounds(s.reqs) - {id});
  }

  lemma {:induction false} RetireCounts(l: Lock, c: Sched, bg: seq<ReqId>, reqs: map<ReqId, Req>, id: ReqId, r: Req)
    requires CountsOk(l, c, bg, |Backgrounds(reqs)|) && c.activeBackground >= 1 && l == Unheld
    requires id in reqs && reqs[id].background && !r.background
    ensures CountsOk(l, Retire(c), bg, |Backgrounds(reqs[id := r])|)
  {
    assert Backgrounds(reqs[id := r]) == Backgrounds(reqs) - {id};
  }

  lemma AccountInv(s: Conn, id: ReqId)
    requires Inv(s) && Enabled(s, EEndAccount(id))
    ensures Core(Account(s, id))
  {
    var r := Accounted(s.reqs[id]);
    assert s.reqs[id].background && s.reqs[id].on != OnBg && RequestsOk(FlagsOf(s), s.interrupts, s.reqs[id := r])
      && Undisturbed(s.closed, s.reqs[id], r) by {
      At(s, id);
      AccountedOk(FlagsOf(s), id in s.interrupts, s.reqs[id]);
      PutRequests(FlagsOf(s), s.interrupts, s.reqs, id, r, s.interrupts);
    }
    PutUnique(s.reqs, s.reqctr, id, r, s.reqctr);
    ActiveBackground(s, id);
    RetireCounts(s.lock, s.sched, s.q.bg, s.reqs, id, r);
    PutPickers(s.connected, s.closed, s.picked, s.reqs, id, r);
    PutCore(s, id, r, s.interrupts, s.reqctr, Retire(s.sched), s.picked, Account(s, id));
  }

  lemma EndAccountInv(s: Conn, id: ReqId)
    requires Inv(s) && Enabled(s, EEndAccount(id))
    ensures Inv(EndAccount(s, id))
  {
    AccountInv(s, id);
    HoldInv(Account(s, id), id);
  }

  // ---------------------------------------------------------------- abort

  lemma AbortBeginInv(s: Conn)
    requires Inv(s) && s.lock == Unheld
    ensures Inv(AbortBegin(s))
  {
    var t := AbortBegin(s);
    forall x ensures OkAt(FlagsOf(t), t.interrupts, t.reqs, x) {
      assert OkAt(FlagsOf(s), s.interrupts, s.reqs, x);
      if x in s.reqs { DownOk(FlagsOf(s), x in s.interrupts, s.reqs[x]); }
    }
  }

  lemma AbortReqIds(r: Req)
    ensures AbortReq(r).unique == r.unique && AbortReq(r).intrUnique == r.intrUnique
    ensures AbortReq(r).isReply == r.isReply && AbortReq(r).background == r.background && AbortReq(r).reader == r.reader
    ensures AbortReq(r).unlinked == r.unlinked && AbortReq(r).finished == r.finished
    ensures r.on == OnEnd2 || r.on.OnProcessing? ==> AbortReq(r).on == OnEnd2
  {
  }

  /** The requests before and after a section of abort: it marks some of them. */
  ghost predicate Marked(reqs: map<ReqId, Req>, marked: map<ReqId, Req>) {
    marked.Keys == reqs.Keys && forall id :: id in reqs ==> marked[id] == reqs[id] || marked[id] == AbortReq(reqs[id])
  }

  lemma MarkedUnique(reqs: map<ReqId, Req>, ctr: nat, marked: map<ReqId, Req>)
    requires UniqueOk(reqs, ctr) && Marked(reqs, marked)
    ensures UniqueOk(marked, ctr) && Backgrounds(marked) == Backgrounds(reqs)
  {
    forall id ensures IdsAt(marked, ctr, id) && (id in reqs ==> marked[id].background == reqs[id].background) {
      if id in reqs { AbortReqIds(reqs[id]); }
      assert IdsAt(reqs, ctr, id);
    }
    forall a, b ensures DistinctAt(marked, a, b) {
      if a in reqs { AbortReqIds(reqs[a]); }
      if b in reqs { AbortReqIds(reqs[b]); }
      assert DistinctAt(reqs, a, b);
    }
  }

  lemma {:induction false} MarkedNamed(interrupts: seq<ReqId>, requeuers: multiset<ReqId>, reqs: map<ReqId,
      Req>, marked: map<ReqId, Req>)
    requires InterruptsOk(interrupts, reqs) && RequeuersOk(requeuers, reqs) && Marked(reqs, marked)
    ensures InterruptsOk(interrupts, marked) && RequeuersOk(requeuers, marked)
  {
    forall id | id in requeuers ensures PastIo(marked[id]) { AbortReqIds(reqs[id]); }
  }

  /** While abort runs, the loops of end_requests keep what they point to. */
  lemma {:induction false} MarkedPickers(closed: set<DevId>, picked: map<Picker, Grip>, reqs: map<ReqId, Req>,
      marked: map<ReqId, Req>)
    requires PickersOk(false, closed, picked, reqs) && Marked(reqs, marked)
    requires forall id :: id in reqs && reqs[id].unlinked ==> marked[id].on == reqs[id].on
    ensures PickersOk(false, closed, picked, marked)
  {
    forall p ensures GripAt(closed, picked, marked, p) {
      assert GripAt(closed, picked, reqs, p);
      if p in picked { AbortReqIds(reqs[picked[p].id]); }
    }
    forall id ensures HeldAt(picked, marked, id) {
      assert HeldAt(picked, reqs, id);
      if id in reqs { AbortReqIds(reqs[id]); }
    }
    if closed == {} {
      forall p ensures SoleAt(picked, marked, p) {
        assert SoleAt(picked, reqs, p) && GripAt(closed, picked, reqs, p);
        if p in picked { AbortReqIds(reqs[picked[p].id]); }
      }
    }
  }

  lemma AbortDeviceOn(s: Conn, d: DevId, p: Place, x: ReqId, t: Conn)
    requires Located(s.q, s.reqs) && s.lock.Sweeping? && d in s.q.io && d in s.q.processing && p != Nowhere
    requires t == AbortDevice(s, d)
    ensures On(t.q, p, x) <==> PlaceOf(t.reqs, x) == p
  {
    assert On(s.q, p, x) <==> PlaceOf(s.reqs, x) == p;
    assert On(s.q, OnIo(d), x) <==> PlaceOf(s.reqs, x) == OnIo(d);
    assert On(s.q, OnProcessing(d), x) <==> PlaceOf(s.reqs, x) == OnProcessing(d);
  }

  lemma AbortDeviceLinked(s: Conn, d: DevId)
    requires Linked(s.q, s.reqs, s.devs) && s.lock.Sweeping? && d in s.devs
    ensures var t := AbortDevice(s, d); Linked(t.q, t.reqs, t.devs)
  {
    var t := AbortDevice(s, d);
    forall p, x | p != Nowhere ensures On(t.q, p, x) <==> PlaceOf(t.reqs, x) == p { AbortDeviceOn(s, d, p, x, t); }
  }

  lemma AbortDeviceRequests(s: Conn, d: DevId)
    requires Core(s) && Enabled(s, EAbortDevice(d))
    ensures var t := AbortDevice(s, d); RequestsOk(FlagsOf(t), t.interrupts, t.reqs)
  {
    var t := AbortDevice(s, d);
    forall x ensures OkAt(FlagsOf(t), t.interrupts, t.reqs, x) {
      if x in s.reqs {
        assert OkAt(FlagsOf(s), s.interrupts, s.reqs, x);
        DeviceSweptOk(FlagsOf(s), x in s.interrupts, s.reqs[x], d);
      }
    }
  }

  lemma UnlinkedNowhere(s: Conn)
    requires Core(s)
    ensures forall id :: id in s.reqs && s.reqs[id].unlinked ==> s.reqs[id].on == Nowhere
  {
    forall id | id in s.reqs && s.reqs[id].unlinked ensures s.reqs[id].on == Nowhere { At(s, id); }
  }

  lemma AbortDeviceInv(s: Conn, d: DevId)
    requires Inv(s) && Enabled(s, EAbortDevice(d))
    ensures Inv(AbortDevice(s, d))
  {
    AbortDeviceLinked(s, d);
    AbortDeviceRequests(s, d);
    MarkedUnique(s.reqs, s.reqctr, AbortDevice(s, d).reqs);
    MarkedNamed(s.interrupts, s.requeuers, s.reqs, AbortDevice(s, d).reqs);
    AbortDevicePickers(s, d, AbortDevice(s, d));
  }

  lemma AbortDevicePickers(s: Conn, d: DevId, t: Conn)
    requires Core(s) && s.lock.Sweeping? && d in s.q.io && d in s.q.processing && t == AbortDevice(s, d)
    ensures PickersOk(t.connected, t.closed, t.picked, t.reqs)
  {
    assert forall id :: id in s.reqs && s.reqs[id].unlinked ==> s.reqs[id].on == Nowhere by { UnlinkedNowhere(s); }
    SweptMarked(s, d);
    MarkedPickers(s.closed, s.picked, s.reqs, t.reqs);
  }

  lemma SweptMarked(s: Conn, d: DevId)
    requires s.lock.Sweeping? && d in s.q.io && d in s.q.processing
    ensures var t := AbortDevice(s, d);
      Marked(s.reqs, t.reqs) && forall id :: id in s.reqs && s.reqs[id].on == Nowhere ==> t.reqs[id] == s.reqs[id]
  {
  }

  lemma AbortFlushInv(s: Conn)
    requires Inv(s) && s.lock == Sweeping({})
    ensures Inv(AbortFlush(s))
  {
  }

  lemma AbortCloseOn(s: Conn, p: Place, x: ReqId)
    requires Located(s.q, s.reqs) && p != Nowhere
    ensures On(AbortClose(s).q, p, x) <==> PlaceOf(AbortClose(s).reqs, x) == p
  {
    assert On(s.q, p, x) <==> PlaceOf(s.reqs, x) == p;
    assert On(s.q, OnPending, x) <==> PlaceOf(s.reqs, x) == OnPending;
  }

  lemma AbortCloseLinked(s: Conn)
    requires Linked(s.q, s.reqs, s.devs)
    ensures var t := AbortClose(s); Linked(t.q, t.reqs, t.devs)
  {
    var t := AbortClose(s);
    forall p, x | p != Nowhere ensures On(t.q, p, x) <==> PlaceOf(t.reqs, x) == p { AbortCloseOn(s, p, x); }
  }

  lemma NoneOnBg(q: Queues, reqs: map<ReqId, Req>)
    requires Located(q, reqs) && q.bg == []
    ensures forall id :: id in reqs ==> reqs[id].on != OnBg
  {
    forall id | id in reqs ensures reqs[id].on != OnBg {
      assert On(q, OnBg, id) <==> PlaceOf(reqs, id) == OnBg;
    }
  }

  lemma AbortCloseRequests(s: Conn)
    requires Core(s) && s.lock == Closing && s.q.bg == []
    ensures var t := AbortClose(s); RequestsOk(FlagsOf(t), t.interrupts, t.reqs)
  {
    var t := AbortClose(s);
    NoneOnBg(s.q, s.reqs);
    forall x ensures OkAt(FlagsOf(t), t.interrupts, t.reqs, x) {
      if x in s.reqs {
        assert OkAt(FlagsOf(s), s.interrupts, s.reqs, x);
        ClosedOk(FlagsOf(s), x in s.interrupts, s.reqs[x]);
      }
    }
  }

  lemma AbortCloseInv(s: Conn)
    requires Inv(s) && s.lock == Closing
    ensures Inv(AbortClose(s))
  {
    AbortCloseLinked(s);
    AbortCloseRequests(s);
    MarkedUnique(s.reqs, s.reqctr, AbortClose(s).reqs);
    MarkedNamed(s.interrupts, s.requeuers, s.reqs, AbortClose(s).reqs);
    UnlinkedNowhere(s);
    MarkedPickers(s.closed, s.picked, s.reqs, AbortClose(s).reqs);
  }
}
