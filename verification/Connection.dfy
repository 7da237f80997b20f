/**
 The connection object of old/fuse/dev.c, whose sections update its fields in place. Every method is
 proved to do exactly what the section of the same name in RequestEngine does, and so keeps the
 invariant and all that follows from it. The loops of flush_bg_queue and fuse_abort_conn, which other
 threads may interrupt, are run here by one thread; EngineAbort says which runs of sections they are.
 */
module Connection {
  import opened Lists
  import opened Errno
  import opened Requests
  import opened RequestQueues
  import opened RequestEngine
  import opened EngineInvariant
  import opened AbortSweep
  import opened EngineAbort
  import opened Pages
  import ReadSchedule

  /** bg_queue links each of its requests once. */
  ghost predicate BgQueue(bg: seq<ReqId>, reqs: map<ReqId, Req>) {
    NoDup(bg) && forall i :: i in bg ==> i in reqs && reqs[i].on == OnBg
  }

  lemma {:induction false} BgQueueTail(bg: seq<ReqId>, reqs: map<ReqId, Req>, r: Req)
    requires BgQueue(bg, reqs) && bg != []
    ensures BgQueue(bg[1..], reqs[bg[0] := r])
  {
  }

  lemma {:induction false} BgQueueMore(bg: seq<ReqId>, reqs: map<ReqId, Req>, id: ReqId, r: Req)
    requires BgQueue(bg, reqs) && id !in reqs && r.on == OnBg
    ensures BgQueue(bg + [id], reqs[id := r])
  {
  }

  lemma {:induction false} BgQueueSame(bg: seq<ReqId>, reqs: map<ReqId, Req>, id: ReqId, r: Req)
    requires BgQueue(bg, reqs) && id in reqs && r.on == reqs[id].on
    ensures BgQueue(bg, reqs[id := r])
  {
  }

  /** Where a request that end_requests has picked is linked. */
  ghost predicate AtEnd(on: Place, processing: map<DevId, seq<ReqId>>) {
    on == OnEnd2 || on == Nowhere || (on.OnProcessing? && on.dev in processing)
  }

  /** list_del_init of it. */
  lemma {:induction false} LeaveEndList(q: Queues, id: ReqId, on: Place)
    requires on.OnProcessing? ==> on.dev in q.processing
    ensures on == OnEnd2 ==> Move(q, id, on, Nowhere) == q.(end2 := q.end2 - {id})
    ensures on.OnProcessing? ==>
      Move(q, id, on, Nowhere) == q.(processing := q.processing[on.dev := Without(q.processing[on.dev], id)])
    ensures on == Nowhere ==> Move(q, id, on, Nowhere) == q
  {
    LeaveEnd(q, id);
    Stay(q, id, Nowhere);
    if on.OnProcessing? { LeaveProcessing(q, id, on.dev); }
  }

  /** What it changes, with the rest of its section. */
  lemma UnlinkFields(s: Conn, p: Picker, id: ReqId)
    requires p in s.picked && s.picked[p].id == id && id in s.reqs
    ensures RequestEngine.UnlinkPicked(s, p) == s.(
      q := Move(s.q, id, s.reqs[id].on, Nowhere), reqs := s.reqs[id := Unlink(s.reqs[id])], picked := s.picked[p := Grip(id, true)])
  {
  }

  /** What giving up a background place changes. */
  lemma AccountFields(s: Conn, id: ReqId)
    requires id in s.reqs
    ensures Account(s, id) == s.(reqs := s.reqs[id := Accounted(s.reqs[id])], sched := Retire(s.sched))
  {
    Stay(s.q, id, s.reqs[id].on);
  }

  /** What one turn of flush_bg_queue changes, field by field. */
  lemma FlushOneFields(s: Conn)
    requires BgQueue(s.q.bg, s.reqs) && s.q.bg != []
    ensures RequestEngine.FlushOne(s) == Conn(
      s.connected, s.open, s.lock, s.q.(bg := s.q.bg[1..], pending := s.q.pending + [s.q.bg[0]]),
      s.reqs[s.q.bg[0] := Flushed(s.reqs[s.q.bg[0]], s.reqctr + 1)], s.devs, s.reqctr + 1, s.interrupts, s.noInterrupt,
      s.requeuers, s.closed, s.picked, s.forgets, s.forgetBatch, Activate(s.sched, s.q.bg[0]))
  {
    BgToPending(s.q);
  }

  /** What delivering an interrupt changes. */
  lemma DeliverFields(s: Conn, id: ReqId)
    requires id in s.reqs && Move(s.q, id, s.reqs[id].on, s.reqs[id].on) == s.q
    ensures Deliver(s, id) ==
      s.(reqs := s.reqs[id := Interrupt(s.reqs[id], s.reqctr + 1)], interrupts := Without(s.interrupts, id), reqctr := s.reqctr + 1)
  {
  }

  /** What queuing a background request changes, field by field. */
  lemma EnqueueFields(s: Conn, id: ReqId)
    requires id !in s.reqs
    ensures RequestEngine.Enqueue(s, id) == Conn(
      s.connected, s.open, s.lock, s.q.(bg := s.q.bg + [id]), s.reqs[id := Background()], s.devs, s.reqctr, s.interrupts,
      s.noInterrupt, s.requeuers, s.closed, s.picked, s.forgets, s.forgetBatch, Admit(s.sched, id))
  {
    JoinBg(s.q, id);
  }

  /** What the connection has no fields for: the requests that threads point to (requeuers, picked), the
      devices whose file is closed, and the histories of bg_queue. */
  datatype Aside = Aside(
    requeuers: multiset<ReqId>, closed: set<DevId>, picked: map<Picker, Grip>, submitted: seq<ReqId>, flushed: seq<ReqId>)

  class FuseConn {
    var connected: bool               // fc->connected
    var open: bool                    // fiq->connected
    ghost var lock: Lock
    var bg: seq<ReqId>
    var pending: seq<ReqId>
    var io: map<DevId, set<ReqId>>
    var processing: map<DevId, seq<ReqId>>
    var end1: set<ReqId>
    var end2: set<ReqId>
    var reqs: map<ReqId, Req>
    var devs: map<DevId, bool>
    var reqctr: nat
    var interrupts: seq<ReqId>
    var noInterrupt: bool
    var forgets: seq<ForgetOne>
    var forgetBatch: int
    var maxBackground: nat
    var numBackground: int
    var activeBackground: int
    var blocked: bool
    ghost var aside: Aside

    ghost function View(): Conn
      reads this
    {
      Conn(connected, open, lock, Queues(bg, pending, io, processing, end1, end2), reqs, devs, reqctr, interrupts, noInterrupt,
           aside.requeuers, aside.closed, aside.picked, forgets, forgetBatch,
           Sched(maxBackground, numBackground, activeBackground, blocked, aside.submitted, aside.flushed))
    }

    ghost predicate Valid()
      reads this
    {
      Inv(View())
    }

    /** fuse_conn_init. */
    constructor (limit: nat)
      requires 0 < limit <= UINT_MAX
      ensures Valid() && View() == Init(limit)
      ensures connected && open && !blocked && !noInterrupt && maxBackground == limit && numBackground == activeBackground == 0
      ensures reqs == map[] && devs == map[] && interrupts == [] && forgets == [] && reqctr == 0 && forgetBatch == 0
    {
      connected, open, lock, noInterrupt, blocked := true, true, Unheld, false, false;
      bg, pending, interrupts, forgets := [], [], [], [];
      io, processing, reqs, devs := map[], map[], map[], map[];
      end1, end2, aside := {}, {}, Aside(multiset{}, {}, map[], [], []);
      reqctr, forgetBatch, maxBackground, numBackground, activeBackground := 0, 0, limit, 0, 0;
      new;
      InitInv(limit);
    }

    // ------------------------------------------------------------ submission

    /** __fuse_request_send up to the wait; false if the queue is not connected. */
    method SendForeground(id: ReqId, isReply: bool, force: bool) returns (sent: bool)
      requires id !in reqs
      modifies this
      ensures View() == RequestEngine.SendForeground(old(View()), id, isReply, force)
      ensures sent == old(open)
    {
      sent := open;
      if open {
        reqctr := reqctr + 1;
        reqs := reqs[id := Foreground(reqctr, isReply, force, noInterrupt)];
        pending := pending + [id];
        JoinPending(old(View()).q, id);
        assert reqs == RequestEngine.SendForeground(old(View()), id, isReply, force).reqs;
        assert View().q == RequestEngine.SendForeground(old(View()), id, isReply, force).q;
      }
    }

    /** fuse_request_send_notify_reply. */
    method SendNotify(id: ReqId, unique: nat) returns (sent: bool)
      requires id !in reqs
      modifies this
      ensures View() == RequestEngine.SendNotify(old(View()), id, unique)
      ensures sent == old(open)
    {
      sent := open;
      if open {
        reqs := reqs[id := Notify(unique)];
        pending := pending + [id];
        JoinPending(old(View()).q, id);
      }
    }

    /** One turn of the loop in flush_bg_queue: list_del, active_background++, a unique ID, queue_request. */
    method TakeBackground()
      requires bg != [] && bg[0] in reqs
      modifies this`bg, this`pending, this`activeBackground, this`reqctr, this`reqs, this`aside
      ensures bg == old(bg)[1..] && pending == old(pending) + [old(bg)[0]]
      ensures aside == old(aside).(flushed := old(aside.flushed) + [old(bg)[0]])
      ensures activeBackground == old(activeBackground) + 1 && reqctr == old(reqctr) + 1
      ensures reqs == old(reqs)[old(bg)[0] := Flushed(old(reqs)[old(bg)[0]], reqctr)]
    {
      var id := bg[0];
      bg, aside := bg[1..], aside.(flushed := aside.flushed + [id]);
      activeBackground, reqctr := activeBackground + 1, reqctr + 1;
      pending, reqs := pending + [id], reqs[id := Flushed(reqs[id], reqctr)];
    }

    method FlushOne()
      requires BgQueue(bg, reqs) && bg != []
      modifies this`bg, this`pending, this`activeBackground, this`reqctr, this`reqs, this`aside
      ensures View() == RequestEngine.FlushOne(old(View()))
    {
      FlushOneFields(View());
      TakeBackground();
    }

    /** flush_bg_queue. */
    method FlushBgQueue()
      requires BgQueue(bg, reqs)
      modifies this
      ensures View() == Flush(old(View())) && BgQueue(bg, reqs)
    {
      while activeBackground < maxBackground && bg != []
        invariant BgQueue(bg, reqs)
        invariant Flush(View()) == Flush(old(View()))
        decreases maxBackground - activeBackground
      {
        FlushOneFields(View());
        BgQueueTail(bg, reqs, Flushed(reqs[bg[0]], reqctr + 1));
        FlushOne();
      }
    }

    /** fuse_request_send_background; false if the connection is down. */
    method SendBackground(id: ReqId) returns (sent: bool)
      requires id !in reqs && BgQueue(bg, reqs)
      modifies this
      ensures View() == if sent then Flush(RequestEngine.Enqueue(old(View()), id)) else old(View())
      ensures sent == old(connected)
    {
      sent := connected;
      if connected {
        BgQueueMore(bg, reqs, id, Background());
        EnqueueFields(View(), id);
        Enqueue(id);
        FlushBgQueue();
      }
    }

    /** fuse_request_send_background_locked, before its flush. */
    method Enqueue(id: ReqId)
      requires id !in reqs && BgQueue(bg, reqs)
      modifies this
      ensures View() == RequestEngine.Enqueue(old(View()), id)
    {
      JoinBg(View().q, id);
      CountBackground();
      reqs, bg, aside := reqs[id := Background()], bg + [id], aside.(submitted := aside.submitted + [id]);
    }

    method CountBackground()
      modifies this`numBackground, this`blocked
      ensures numBackground == old(numBackground) + 1
      ensures blocked == if numBackground == maxBackground then true else old(blocked)
    {
      numBackground := numBackground + 1;
      if numBackground == maxBackground { blocked := true; }
    }

    /** fuse_queue_forget. */
    method QueueForget(f: ForgetOne)
      modifies this
      ensures View() == RequestEngine.QueueForget(old(View()), f)
    {
      if open { forgets := forgets + [f]; }
    }

    // ------------------------------------------------------------ the reader of the device

    /** The locked part of fuse_dev_do_read. */
    method Read(dev: DevId, max: nat) returns (choice: ReadSchedule.Choice)
      requires (forall id :: id in interrupts || id in pending ==> id in reqs)
      requires NoDup(interrupts) && NoDup(pending) && forall id :: id in pending ==> reqs[id].on == OnPending
      modifies this
      ensures View() == RequestEngine.Read(old(View()), dev, max)
      ensures choice == ReadSchedule.Wait <==> !old(open) || (old(interrupts) == [] && old(forgets) == [] && old(pending) == [])
      ensures choice == ReadSchedule.Interrupt <==> old(open) && old(interrupts) != []
      ensures choice == ReadSchedule.Interrupt ==> interrupts == old(interrupts)[1..] && forgetBatch == old(forgetBatch)
      ensures choice == ReadSchedule.Forget ==> old(forgets) != [] && (old(pending) == [] || old(forgetBatch) > 0)
      ensures choice == ReadSchedule.Forget ==> forgets == old(forgets)[Min(max, |old(forgets)|)..]
      ensures choice == ReadSchedule.Forget ==> forgetBatch == if old(pending) == [] then old(forgetBatch) else old(forgetBatch) - 1
      ensures choice == ReadSchedule.Request ==> old(pending) != [] && (old(forgets) == [] || old(forgetBatch) <= 0)
      ensures choice == ReadSchedule.Request ==> pending == old(pending)[1..] && reqs[old(pending)[0]].reader == InHand(dev)
      ensures choice == ReadSchedule.Request ==>
        forgetBatch == if old(forgets) == [] then old(forgetBatch) else if old(forgetBatch) <= -7 then 16 else old(forgetBatch) - 1
      ensures choice != ReadSchedule.Interrupt ==> interrupts == old(interrupts)
      ensures choice != ReadSchedule.Forget ==> forgets == old(forgets)
      ensures choice != ReadSchedule.Request ==> pending == old(pending)
    {
      choice := ReadSchedule.Wait;
      if open {
        if interrupts != [] {
          choice := ReadSchedule.Interrupt;
          ReadInterrupt();
        } else if forgets != [] && (pending == [] || forgetBatch > 0) {
          choice := ReadSchedule.Forget;
          ReadForgets(max);
        } else if pending != [] {
          choice := ReadSchedule.Request;
          CountRequest();
          ReadRequest(dev);
        }
      }
    }

    /** fuse_read_forget takes up to `max` forgets. */
    method ReadForgets(max: nat)
      requires interrupts == [] && forgets != [] && (pending == [] || forgetBatch > 0) && open
      requires forall id :: id in pending ==> id in reqs
      modifies this`forgets, this`forgetBatch, this`reqctr
      ensures View() == RequestEngine.Read(old(View()), 0, max)
      ensures forgets == old(forgets)[Min(max, |old(forgets)|)..]
      ensures forgetBatch == if pending == [] then old(forgetBatch) else old(forgetBatch) - 1
    {
      forgetBatch := if pending == [] then forgetBatch else forgetBatch - 1;
      reqctr := reqctr + 1;
      forgets := forgets[if max <= |forgets| then max else |forgets|..];
    }

    /** fuse_read_interrupt takes the first interrupt. */
    method ReadInterrupt()
      requires interrupts != [] && interrupts[0] in reqs && NoDup(interrupts)
      modifies this`interrupts, this`reqctr, this`reqs
      ensures View() == Deliver(old(View()), old(interrupts)[0]) && interrupts == old(interrupts)[1..]
    {
      ghost var id := interrupts[0];
      WithoutHead(interrupts);
      Stay(View().q, id, reqs[id].on);
      DeliverFields(View(), id);
      TakeInterrupt();
    }

    method TakeInterrupt()
      requires interrupts != [] && interrupts[0] in reqs
      modifies this`interrupts, this`reqctr, this`reqs
      ensures interrupts == old(interrupts)[1..] && reqctr == old(reqctr) + 1
      ensures reqs == old(reqs)[old(interrupts)[0] := Interrupt(old(reqs)[old(interrupts)[0]], reqctr)]
    {
      var id := interrupts[0];
      interrupts := interrupts[1..];
      reqctr := reqctr + 1;
      reqs := reqs[id := Interrupt(reqs[id], reqctr)];
    }

    /** The countdown in the test that a request passes while forgets wait, and its reset. */
    method CountRequest()
      requires interrupts == [] && pending != [] && (forgets == [] || forgetBatch <= 0)
      modifies this`forgetBatch
      ensures ReadChoice(old(View())) == (ReadSchedule.Request, forgetBatch)
      ensures forgetBatch == if forgets == [] then old(forgetBatch) else if old(forgetBatch) <= -7 then 16 else old(forgetBatch) - 1
    {
      if forgets != [] {
        forgetBatch := forgetBatch - 1;
        if forgetBatch <= -8 { forgetBatch := 16; }
      }
    }

    /** The first pending request is taken off the list. */
    method ReadRequest(dev: DevId)
      requires pending != [] && pending[0] in reqs && NoDup(pending) && reqs[pending[0]].on == OnPending
      modifies this`pending, this`reqs
      ensures View() == RequestEngine.ReadRequest(old(View()), dev)
      ensures pending == old(pending)[1..] && reqs == old(reqs)[old(pending)[0] := Take(old(reqs)[old(pending)[0]], dev)]
    {
      var id := pending[0];
      LeavePending(View().q, id);
      pending := pending[1..];
      reqs := reqs[id := Take(reqs[id], dev)];
      assert View().q == RequestEngine.ReadRequest(old(View()), dev).q;
    }

    /** The reader puts the request it has in hand on io. */
    method AddIo(id: ReqId)
      requires id in reqs && reqs[id].reader.InHand? && reqs[id].on == Nowhere && reqs[id].reader.dev in io
      modifies this`io, this`reqs
      ensures View() == RequestEngine.AddIo(old(View()), id)
    {
      var d := reqs[id].reader.dev;
      JoinIo(View().q, id, d);
      io := io[d := io[d] + {id}];
      reqs := reqs[id := StartCopy(reqs[id])];
      assert View().q == RequestEngine.AddIo(old(View()), id).q;
    }

    /** The tail of fuse_dev_do_read; true if the request awaits its reply. */
    method FinishRead(id: ReqId, failed: bool) returns (awaits: bool)
      requires id in reqs && reqs[id].reader.Reading? && reqs[id].reader.dev in devs
      requires reqs[id].reader.dev in io && reqs[id].reader.dev in processing
      requires reqs[id].on == OnIo(reqs[id].reader.dev) || reqs[id].private
      requires reqs[id].private ==> !devs[reqs[id].reader.dev]
      modifies this`io, this`processing, this`reqs
      ensures View() == RequestEngine.FinishRead(old(View()), id, failed)
      ensures awaits == (old(devs[reqs[id].reader.dev]) && !failed && old(reqs[id].isReply))
    {
      var r := reqs[id];
      var d := r.reader.dev;
      awaits := devs[d] && !failed && r.isReply;
      if awaits {
        AwaitReply(id, d);
      } else {
        EndCopy(id, EndRead(r, devs[d], failed), d);
      }
    }

    /** The copied request moves to processing. */
    method AwaitReply(id: ReqId, d: DevId)
      requires id in reqs && reqs[id].on == OnIo(d) && reqs[id].reader == Reading(d) && reqs[id].isReply
      requires d in io && d in processing
      modifies this`io, this`processing, this`reqs
      ensures View() == Put(old(View()), id, EndRead(old(reqs[id]), true, false))
    {
      IoToProcessing(View().q, id, d);
      MoveRead(id, d);
      assert View().q == Move(old(View()).q, id, OnIo(d), OnProcessing(d));
    }

    method MoveRead(id: ReqId, d: DevId)
      requires id in reqs && d in io && d in processing
      modifies this`io, this`processing, this`reqs
      ensures io == old(io)[d := old(io)[d] - {id}] && processing == old(processing)[d := old(processing)[d] + [id]]
      ensures reqs == old(reqs)[id := old(reqs)[id].(locked := false, on := OnProcessing(d), reader := SettingSent)]
    {
      io := io[d := io[d] - {id}];
      processing := processing[d := processing[d] + [id]];
      reqs := reqs[id := reqs[id].(locked := false, on := OnProcessing(d), reader := SettingSent)];
    }

    /** A copied request leaves io, unless it is private, and ends. */
    method EndCopy(id: ReqId, r: Req, d: DevId)
      requires id in reqs && d in io && r.on == EndPlace(reqs[id])
      requires reqs[id].private || reqs[id].on == OnIo(d)
      modifies this`io, this`reqs
      ensures View() == Put(old(View()), id, r)
    {
      if reqs[id].private {
        Stay(View().q, id, reqs[id].on);
        reqs := reqs[id := r];
      } else {
        LeaveIo(View().q, id, d);
        io := io[d := io[d] - {id}];
        reqs := reqs[id := r];
        assert View().q == Move(old(View()).q, id, OnIo(d), Nowhere);
      }
    }

    /** queue_interrupt. */
    method QueueInterrupt(id: ReqId)
      requires id in reqs
      modifies this`interrupts
      ensures View() == RequestEngine.QueueInterrupt(old(View()), id)
    {
      if !reqs[id].finished && id !in interrupts { interrupts := interrupts + [id]; }
    }

    /** The last sections of fuse_dev_do_read: FR_SENT is set, then FR_INTERRUPTED is tested; true if
        queue_interrupt is to follow. */
    method SetSent(id: ReqId)
      requires id in reqs
      modifies this`reqs
      ensures View() == RequestEngine.SetSent(old(View()), id)
    {
      Stay(View().q, id, reqs[id].on);
      reqs := reqs[id := Sent(reqs[id])];
    }

    method TestInterrupted(id: ReqId) returns (interrupted: bool)
      requires id in reqs
      modifies this`reqs
      ensures View() == RequestEngine.TestInterrupted(old(View()), id)
      ensures interrupted == old(reqs[id].interrupted)
    {
      Stay(View().q, id, reqs[id].on);
      interrupted := reqs[id].interrupted;
      reqs := reqs[id := reqs[id].(reader := if interrupted then ReaderQueues else ReadDone)];
    }

    method ReaderQueue(id: ReqId)
      requires id in reqs
      modifies this`reqs, this`interrupts
      ensures View() == RequestEngine.ReaderQueue(old(View()), id)
    {
      Stay(View().q, id, reqs[id].on);
      reqs := reqs[id := reqs[id].(reader := ReadDone)];
      QueueInterrupt(id);
    }

    // ------------------------------------------------------------ the writer of the reply

    /** request_find. */
    method FindRequest(d: DevId, u: nat) returns (f: Found)
      requires d in processing && forall id :: id in processing[d] ==> id in reqs
      ensures f == RequestFind(reqs, processing[d], u)
    {
      var list := processing[d];
      var i := 0;
      while i < |list|
        invariant 0 <= i <= |list|
        invariant forall id :: id in list[i..] ==> id in reqs
        invariant RequestFind(reqs, list, u) == RequestFind(reqs, list[i..], u)
      {
        assert list[i..] == [list[i]] + list[i + 1..];
        if Matches(reqs[list[i]], u) { return Found(list[i]); }
        assert list[i..][1..] == list[i + 1..];
        i := i + 1;
      }
      f := NotFound;
    }

    /** The locked part of fuse_dev_do_write. After an interrupt reply of -EAGAIN, queue_interrupt for
        request `again` is to follow, fpq->lock being released. */
    method Reply(d: DevId, u: nat, error: int, headerOnly: bool) returns (again: Found)
      requires d in processing && d in io
      requires forall id :: id in processing[d] ==> id in reqs && reqs[id].on == OnProcessing(d)
      modifies this
      ensures View() == RequestEngine.Reply(old(View()), d, u, error, headerOnly)
      ensures aside.requeuers == old(aside.requeuers) + if again.Found? then multiset{again.id} else multiset{}
    {
      again := NotFound;
      if u != 0 && -1000 < error <= 0 && d in devs && devs[d] {
        var f := FindRequest(d, u);
        if f.Found? {
          if reqs[f.id].intrUnique == u {
            if headerOnly {
              if error == ENOSYS { noInterrupt := true; }
              else if error == EAGAIN {
                again := f;
                aside := aside.(requeuers := aside.requeuers + multiset{f.id});
              }
            }
          } else {
            TakeReply(f.id, d, error);
          }
        }
      }
    }

    /** The queue_interrupt of an interrupt reply. */
    method Requeue(id: ReqId)
      requires id in reqs
      modifies this`aside, this`interrupts
      ensures View() == RequestEngine.Requeue(old(View()), id)
    {
      aside := aside.(requeuers := aside.requeuers - multiset{id});
      QueueInterrupt(id);
    }

    /** The reply's request goes back to io. */
    method TakeReply(id: ReqId, d: DevId, error: int)
      requires id in reqs && d in processing && d in io && reqs[id].on == OnProcessing(d)
      modifies this`io, this`processing, this`reqs
      ensures View() == Put(old(View()), id, StartReply(old(reqs[id]), d, error))
      ensures reqs == old(reqs)[id := old(reqs[id]).(error := error, on := OnIo(d), sent := false, locked := true, replier := Copying(d))]
    {
      ProcessingToIo(View().q, id, d);
      MoveReply(id, d, error);
      assert View().q == Move(old(View()).q, id, OnProcessing(d), OnIo(d));
    }

    method MoveReply(id: ReqId, d: DevId, error: int)
      requires id in reqs && d in processing && d in io
      modifies this`io, this`processing, this`reqs
      ensures io == old(io)[d := old(io)[d] + {id}] && processing == old(processing)[d := Without(old(processing)[d], id)]
      ensures reqs == old(reqs)[id := StartReply(old(reqs)[id], d, error)]
    {
      io := io[d := io[d] + {id}];
      processing := processing[d := Without(processing[d], id)];
      reqs := reqs[id := StartReply(reqs[id], d, error)];
    }

    /** The tail of fuse_dev_do_write. */
    method FinishReply(id: ReqId, failed: bool)
      requires id in reqs && reqs[id].replier.Copying? && reqs[id].replier.dev in devs && reqs[id].replier.dev in io
      requires reqs[id].on == OnIo(reqs[id].replier.dev) || reqs[id].private
      modifies this`io, this`reqs
      ensures View() == RequestEngine.FinishReply(old(View()), id, failed)
    {
      var r := reqs[id];
      EndCopy(id, EndReply(r, devs[r.replier.dev], failed), r.replier.dev);
    }

    // ------------------------------------------------------------ the body of request_end

    method EndRemove(id: ReqId)
      requires id in reqs
      modifies this`interrupts, this`reqs
      ensures View() == RequestEngine.EndRemove(old(View()), id)
    {
      Stay(View().q, id, reqs[id].on);
      interrupts := Without(interrupts, id);
      reqs := reqs[id := Removed(reqs[id])];
    }

    /** The fc->lock section: the scheduler's counters, then the requests that may follow. */
    method EndAccount(id: ReqId)
      requires id in reqs && BgQueue(bg, reqs)
      modifies this
      ensures View() == Flush(Account(old(View()), id))
    {
      GiveUpPlace(id);
      FlushBgQueue();
    }

    method GiveUpPlace(id: ReqId)
      requires id in reqs && BgQueue(bg, reqs)
      modifies this`reqs, this`blocked, this`numBackground, this`activeBackground
      ensures View() == Account(old(View()), id) && BgQueue(bg, reqs)
    {
      AccountFields(View(), id);
      BgQueueSame(bg, reqs, id, Accounted(reqs[id]));
      reqs := reqs[id := Accounted(reqs[id])];
      Uncount();
      assert View().sched == Retire(old(View().sched));
    }

    method Uncount()
      modifies this`blocked, this`numBackground, this`activeBackground
      ensures blocked == if old(numBackground) == maxBackground then false else old(blocked)
      ensures numBackground == old(numBackground) - 1 && activeBackground == old(activeBackground) - 1
    {
      if numBackground == maxBackground { blocked := false; }
      numBackground := numBackground - 1;
      activeBackground := activeBackground - 1;
    }

    method EndCallback(id: ReqId)
      requires id in reqs
      modifies this`reqs
      ensures View() == RequestEngine.EndCallback(old(View()), id)
    {
      Stay(View().q, id, reqs[id].on);
      reqs := reqs[id := CalledBack(reqs[id])];
    }

    // ------------------------------------------------------------ request_wait_answer

    /** FR_SENT is tested; true if queue_interrupt is to follow. */
    method TestSent(id: ReqId) returns (sent: bool)
      requires id in reqs
      modifies this`reqs
      ensures View() == RequestEngine.TestSent(old(View()), id)
      ensures sent == old(reqs[id].sent)
    {
      Stay(View().q, id, reqs[id].on);
      sent := reqs[id].sent;
      reqs := reqs[id := reqs[id].(waiter := if sent then WaiterQueues else SecondWait(reqs[id].force))];
    }

    method WaiterQueue(id: ReqId)
      requires id in reqs
      modifies this`reqs, this`interrupts
      ensures View() == RequestEngine.WaiterQueue(old(View()), id)
    {
      Stay(View().q, id, reqs[id].on);
      reqs := reqs[id := reqs[id].(waiter := SecondWait(reqs[id].force))];
      QueueInterrupt(id);
    }

    /** A fatal signal; true if the waiter leaves with -EINTR. */
    method Kill(id: ReqId) returns (leaves: bool)
      requires id in reqs && (reqs[id].pending ==> reqs[id].on == OnPending)
      modifies this`pending, this`reqs
      ensures View() == RequestEngine.Kill(old(View()), id)
      ensures leaves == old(reqs[id].pending)
    {
      leaves := reqs[id].pending;
      if leaves {
        BailOut(id);
      } else {
        Stay(View().q, id, reqs[id].on);
        reqs := reqs[id := reqs[id].(waiter := Uninterruptible)];
      }
    }

    method BailOut(id: ReqId)
      requires id in reqs && reqs[id].pending && reqs[id].on == OnPending
      modifies this`pending, this`reqs
      ensures View() == RequestEngine.Kill(old(View()), id)
    {
      LeavePending(View().q, id);
      pending := Without(pending, id);
      reqs := reqs[id := Die(reqs[id])];
      assert View().q == RequestEngine.Kill(old(View()), id).q;
    }

    method Signal(id: ReqId)
      requires id in reqs
      modifies this`reqs
      ensures View() == RequestEngine.Signal(old(View()), id)
    {
      Stay(View().q, id, reqs[id].on);
      reqs := reqs[id := Signalled(reqs[id])];
    }

    method Return(id: ReqId)
      requires id in reqs
      modifies this`reqs
      ensures View() == RequestEngine.Return(old(View()), id)
    {
      Stay(View().q, id, reqs[id].on);
      reqs := reqs[id := reqs[id].(waiter := Returned)];
    }

    /** The submitter's fuse_put_request. */
    method Release(id: ReqId)
      requires id in reqs
      modifies this`reqs
      ensures View() == RequestEngine.Release(old(View()), id)
    {
      Stay(View().q, id, reqs[id].on);
      reqs := reqs[id := Released(reqs[id])];
    }

    // ------------------------------------------------------------ abort and release

    /** One turn of fuse_abort_conn's loop over an io list. */
    method MarkAborted(id: ReqId, d: DevId)
      requires Linked(Queues(bg, pending, io, processing, end1, end2), reqs, devs) && id in reqs && reqs[id].on == OnIo(d)
      modifies this`io, this`end1, this`reqs
      ensures Linked(Queues(bg, pending, io, processing, end1, end2), reqs, devs) && io.Keys == old(io.Keys)
      ensures reqs == old(reqs)[id := AbortReq(old(reqs)[id])]
    {
      assert d in io by { assert On(Queues(bg, pending, io, processing, end1, end2), OnIo(d), id) <==> PlaceOf(reqs, id) == OnIo(d); }
      MoveLinked(Queues(bg, pending, io, processing, end1, end2), reqs, devs, id, AbortReq(reqs[id]));
      if reqs[id].locked {
        Stay(Queues(bg, pending, io, processing, end1, end2), id, OnIo(d));
      } else {
        LeavesIo(Queues(bg, pending, io, processing, end1, end2), id, d);
        io, end1 := io[d := io[d] - {id}], end1 + {id};
      }
      reqs := reqs[id := AbortReq(reqs[id])];
    }

    /** fuse_abort_conn's loop over the io list of device d. */
    method MarkIo(d: DevId)
      requires Linked(Queues(bg, pending, io, processing, end1, end2), reqs, devs) && d in io
      modifies this`io, this`end1, this`reqs
      ensures Linked(Queues(bg, pending, io, processing, end1, end2), reqs, devs) && io.Keys == old(io.Keys)
      ensures reqs == MarkReqs(old(reqs), old(io)[d])
    {
      var todo := io[d];
      Members(Queues(bg, pending, io, processing, end1, end2), reqs);
      while todo != {}
        invariant todo <= old(io)[d]
        invariant Linked(Queues(bg, pending, io, processing, end1, end2), reqs, devs) && io.Keys == old(io.Keys)
        invariant reqs == MarkReqs(old(reqs), old(io)[d] - todo)
        decreases todo
      {
        var id :| id in todo;
        MarkOne(old(reqs), old(io)[d] - todo, id);
        MarkAborted(id, d);
        assert old(io)[d] - (todo - {id}) == old(io)[d] - todo + {id};
        todo := todo - {id};
      }
      assert old(io)[d] - {} == old(io)[d];
    }

    /** The processing list of device d is spliced to to_end2. */
    method SpliceProcessing(d: DevId)
      requires Linked(Queues(bg, pending, io, processing, end1, end2), reqs, devs) && d in processing
      modifies this`processing, this`end2, this`reqs
      ensures Linked(Queues(bg, pending, io, processing, end1, end2), reqs, devs)
      ensures processing == old(processing)[d := []]
      ensures reqs == MarkReqs(old(reqs), Elements(old(processing)[d]))
    {
      SpliceLinked(Queues(bg, pending, io, processing, end1, end2), reqs, devs, d);
      reqs := MarkReqs(reqs, Elements(processing[d]));
      end2 := end2 + Elements(processing[d]);
      processing := processing[d := []];
    }

    /** One turn of fuse_abort_conn's loop over the devices. */
    method SweepDevice(d: DevId)
      requires Linked(Queues(bg, pending, io, processing, end1, end2), reqs, devs) && d in devs
      modifies this`devs, this`io, this`end1, this`processing, this`end2, this`reqs
      ensures Linked(Queues(bg, pending, io, processing, end1, end2), reqs, devs) && io.Keys == old(io.Keys)
      ensures processing == old(processing)[d := []] && devs == old(devs)[d := false]
      ensures reqs == SweepReqs(old(reqs), {d})
    {
      DeviceParts(Queues(bg, pending, io, processing, end1, end2), reqs, d);
      devs := devs[d := false];
      MarkIo(d);
      SpliceProcessing(d);
    }

    /** fuse_abort_conn's loop over the devices. */
    method SweepDevices()
      requires Linked(Queues(bg, pending, io, processing, end1, end2), reqs, devs)
      modifies this`devs, this`io, this`end1, this`processing, this`end2, this`reqs
      ensures Linked(Queues(bg, pending, io, processing, end1, end2), reqs, devs) && io.Keys == old(io.Keys)
      ensures processing == (map d | d in old(processing) :: []) && devs == (map d | d in old(devs) :: false)
      ensures reqs == SweepReqs(old(reqs), old(devs.Keys))
    {
      var todo := devs.Keys;
      assert reqs == SweepReqs(reqs, {});
      while todo != {}
        invariant todo <= old(devs.Keys) && devs.Keys == old(devs.Keys)
        invariant Linked(Queues(bg, pending, io, processing, end1, end2), reqs, devs) && io.Keys == old(io.Keys)
        invariant reqs == SweepReqs(old(reqs), old(devs.Keys) - todo)
        invariant forall d :: d in devs && d !in todo ==> d in processing && processing[d] == [] && !devs[d]
        decreases todo
      {
        var d :| d in todo;
        NextDevice(old(reqs), old(devs.Keys) - todo, d);
        SweepDevice(d);
        assert old(devs.Keys) - (todo - {d}) == old(devs.Keys) - todo + {d};
        todo := todo - {d};
      }
      assert old(devs.Keys) - {} == old(devs.Keys);
    }

    /** What fuse_abort_conn does before its flush_bg_queue, field by field. */
    method DisableDevices()
      requires Linked(Queues(bg, pending, io, processing, end1, end2), reqs, devs)
      modifies this`connected, this`blocked, this`maxBackground, this`devs, this`io, this`end1, this`processing, this`end2, this`reqs
      ensures Linked(Queues(bg, pending, io, processing, end1, end2), reqs, devs) && io.Keys == old(io.Keys)
      ensures processing == (map d | d in old(processing) :: []) && devs == (map d | d in old(devs) :: false)
      ensures reqs == SweepReqs(old(reqs), old(devs.Keys))
      ensures !connected && !blocked && maxBackground == UINT_MAX
    {
      connected, blocked := false, false;
      SweepDevices();
      maxBackground := UINT_MAX;
    }

    /** fuse_abort_conn up to its flush_bg_queue. */
    method AbortDevices()
      requires Linked(Queues(bg, pending, io, processing, end1, end2), reqs, devs)
      modifies this`connected, this`blocked, this`maxBackground, this`devs, this`io, this`end1, this`processing, this`end2, this`reqs
      ensures DevicesSwept(old(View()), View()) && !connected
    {
      DisableDevices();
    }

    /** What fuse_abort_conn does under fiq->waitq.lock, field by field. */
    method DropPending()
      modifies this`pending, this`end2, this`reqs, this`forgets, this`open
      ensures end2 == old(end2) + Elements(old(pending)) && reqs == MarkReqs(old(reqs), Elements(old(pending)))
      ensures pending == [] && forgets == [] && !open
    {
      end2, reqs := end2 + Elements(pending), MarkReqs(reqs, Elements(pending));
      pending, forgets, open := [], [], false;
    }

    /** fuse_abort_conn under fiq->waitq.lock. */
    method AbortPending()
      requires !connected
      modifies this`pending, this`end2, this`reqs, this`forgets, this`open
      ensures PendingSwept(old(View()), View())
    {
      DropPending();
    }

    /** The locked part of fuse_abort_conn. */
    method AbortConn()
      requires Valid() && BgQueue(bg, reqs) && lock == Unheld
      modifies this
      ensures View() == Abort(old(View())) && Valid()
    {
      AbortValid(View());
      if connected { AbortLive(); }
    }

    method AbortLive()
      requires Valid() && BgQueue(bg, reqs) && lock == Unheld && connected
      modifies this
      ensures View() == Abort(old(View()))
    {
      ghost var s := View();
      AbortDevices();
      ghost var a := View();
      FlushLinked(a);
      FlushBgQueue();
      FlushKeepsLock(a);
      AbortPending();
      AbortParts(s, a, View());
    }

    /** fuse_abort_conn ends one request of to_end1. */
    method AbortEnd1(id: ReqId)
      requires id in reqs && reqs[id].on == OnEnd1
      modifies this`end1, this`reqs
      ensures View() == RequestEngine.AbortEnd1(old(View()), id)
    {
      LeaveEnd(View().q, id);
      end1 := end1 - {id};
      reqs := reqs[id := EndPrivate(reqs[id])];
    }

    // ------------------------------------------------------------ end_requests

    /** The last reference to the file of a device is dropped. */
    ghost method CloseDevice(d: DevId)
      modifies this`aside
      ensures View() == RequestEngine.CloseDevice(old(View()), d)
    {
      aside := aside.(closed := aside.closed + {d});
    }

    /** list_entry in end_requests: release takes the first request of its processing list. */
    method ReleasePick(d: DevId) returns (id: ReqId)
      requires d in processing && processing[d] != []
      modifies this`aside
      ensures id == processing[d][0] && View() == Pick(old(View()), ByRelease(d), id)
    {
      id := processing[d][0];
      aside := aside.(picked := aside.picked[ByRelease(d) := Grip(id, false)]);
    }

    /** The same for abort and its to_end2. */
    ghost method AbortPick(id: ReqId)
      modifies this`aside
      ensures View() == Pick(old(View()), ByAbort, id)
    {
      aside := aside.(picked := aside.picked[ByAbort := Grip(id, false)]);
    }

    /** The error, clear_bit and list_del_init in end_requests, wherever the request is linked by then. */
    method UnlinkPicked(ghost p: Picker, id: ReqId)
      requires p in aside.picked && aside.picked[p].id == id && id in reqs
      requires AtEnd(reqs[id].on, processing)
      modifies this`end2, this`processing, this`reqs, this`aside
      ensures View() == RequestEngine.UnlinkPicked(old(View()), p)
    {
      ghost var s := View();
      UnlinkFields(s, p, id);
      DeleteNode(id);
      Unlinked(p, id);
      assert View().reqs == s.reqs[id := Unlink(s.reqs[id])];
    }

    /** list_del_init. */
    method DeleteNode(id: ReqId)
      requires id in reqs
      requires AtEnd(reqs[id].on, processing)
      modifies this`end2, this`processing
      ensures Queues(bg, pending, io, processing, end1, end2)
        == Move(Queues(bg, pending, io, old(processing), end1, old(end2)), id, reqs[id].on, Nowhere)
    {
      LeaveEndList(Queues(bg, pending, io, processing, end1, end2), id, reqs[id].on);
      match reqs[id].on {
        case OnEnd2 => end2 := end2 - {id};
        case OnProcessing(d) => processing := processing[d := Without(processing[d], id)];
        case _ =>
      }
    }

    method Unlinked(ghost p: Picker, id: ReqId)
      requires id in reqs
      modifies this`reqs, this`aside
      ensures reqs == old(reqs)[id := Unlink(old(reqs)[id])]
      ensures aside == old(aside).(picked := old(aside.picked)[p := Grip(id, true)])
    {
      reqs := reqs[id := Unlink(reqs[id])];
      aside := aside.(picked := aside.picked[p := Grip(id, true)]);
    }

    /** The call of request_end in end_requests, up to its test_and_set. */
    method EndPicked(ghost p: Picker, id: ReqId)
      requires p in aside.picked && aside.picked[p].id == id && id in reqs
      modifies this`reqs, this`aside
      ensures View() == RequestEngine.EndPicked(old(View()), p)
    {
      Stay(View().q, id, reqs[id].on);
      reqs := reqs[id := StartEnd(reqs[id])];
      aside := aside.(picked := aside.picked - {p});
    }

    /** A turn of the loop for to_end2. */
    method EndOne(id: ReqId)
      requires id in reqs && reqs[id].on == OnEnd2
      modifies this`end2, this`processing, this`reqs, this`aside
      ensures View() == RequestEngine.EndOne(old(View()), ByAbort, id)
    {
      AbortPick(id);
      UnlinkPicked(ByAbort, id);
      EndPicked(ByAbort, id);
    }

    /** A turn of the loop for the processing list of a device, on release. */
    method ReleaseOne(d: DevId)
      requires d in processing && processing[d] != []
      requires processing[d][0] in reqs && reqs[processing[d][0]].on == OnProcessing(d)
      modifies this`end2, this`processing, this`reqs, this`aside
      ensures View() == RequestEngine.EndOne(old(View()), ByRelease(d), old(processing[d][0]))
    {
      var id := ReleasePick(d);
      UnlinkPicked(ByRelease(d), id);
      EndPicked(ByRelease(d), id);
    }

    /** fuse_dev_alloc. */
    method AddDevice(d: DevId)
      modifies this`devs, this`io, this`processing
      ensures View() == RequestEngine.AddDevice(old(View()), d)
    {
      devs, io, processing := devs[d := true], io[d := {}], processing[d := []];
    }

    /** The reader's buffer is too small. */
    method TooLarge(id: ReqId, setxattr: bool)
      requires id in reqs
      modifies this`reqs
      ensures View() == RequestEngine.TooLarge(old(View()), id, setxattr)
    {
      Stay(View().q, id, reqs[id].on);
      reqs := reqs[id := Oversize(reqs[id], setxattr)];
    }

    /** lock_request and unlock_request; false if the request is aborted. */
    method LockRequest(id: ReqId, locked: bool) returns (ok: bool)
      requires id in reqs
      modifies this`reqs
      ensures View() == RequestEngine.LockRequest(old(View()), id, locked)
      ensures ok == !old(reqs[id].aborted)
    {
      Stay(View().q, id, reqs[id].on);
      ok := !reqs[id].aborted;
      reqs := reqs[id := SetLocked(reqs[id], locked)];
    }
  }
}
