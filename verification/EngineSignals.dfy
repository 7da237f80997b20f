/** Whose interrupts userspace is told of, and whose waits a signal ends, over whole runs. */
module EngineSignals {
  import opened Errno
  import opened Requests
  import opened RequestQueues
  import opened RequestEngine
  import opened EngineInvariant
  import opened EngineEvolution
  import opened EngineTheorems
  import opened EngineHistories
  import opened EngineOrders
  import opened EngineReads
  import opened EngineOutcomes

  // ---------------------------------------------------------------- no spurious interrupt

  /** Whatever has to do with an interrupt of the request follows a signal. */
  ghost predicate Wanted(s: Conn, id: ReqId) {
    id in s.reqs ==>
      var r := s.reqs[id];
      (|| id in s.interrupts || id in s.requeuers || r.intrUnique != 0
       || r.reader == ReaderQueues || r.waiter == TestingSent || r.waiter == WaiterQueues) ==> r.interrupted
  }

  lemma QueuedBy(s: Conn, e: Event, id: ReqId, t: Conn)
    requires Ordered(s, e, t) && id in t.interrupts
    ensures id in s.interrupts || ((e.EReaderQueue? || e.EWaiterQueue? || e.ERequeue?) && e.id == id && id in s.reqs)
  {
  }

  lemma PointedBy(s: Conn, e: Event, id: ReqId, t: Conn)
    requires Heeded(s, e, t) && id in t.requeuers
    ensures id in s.requeuers || Replies(s, e, EAGAIN, id)
  {
    if x :| Replies(s, e, EAGAIN, x) { assert t.requeuers == s.requeuers + multiset{x}; }
  }

  lemma WantedOn(s: Conn, e: Event, id: ReqId, r: Req)
    requires Enabled(s, e) && id in s.reqs && Wanted(s, id) && Lives(s, e, id, r)
    ensures r.intrUnique != 0 || r.reader == ReaderQueues || r.waiter == TestingSent || r.waiter == WaiterQueues ==> r.interrupted
    ensures s.reqs[id].interrupted ==> r.interrupted
  {
  }

  lemma WantedEnabled(s: Conn, e: Event, id: ReqId, t: Conn)
    requires Enabled(s, e) && Wanted(s, id) && Ordered(s, e, t) && Heeded(s, e, t)
    requires id in s.reqs && id in t.reqs && Lives(s, e, id, t.reqs[id])
    ensures Wanted(t, id)
  {
    if id in t.interrupts { QueuedBy(s, e, id, t); }
    if id in t.requeuers { PointedBy(s, e, id, t); }
    WantedOn(s, e, id, t.reqs[id]);
  }

  lemma NewcomerUnwanted(s: Conn, e: Event, id: ReqId, t: Conn)
    requires Named(s) && Enabled(s, e) && id !in s.reqs && Ordered(s, e, t) && Heeded(s, e, t)
    requires id in t.reqs ==> Begins(s, e, t.reqs[id])
    ensures Wanted(t, id)
  {
    if id in t.interrupts { QueuedBy(s, e, id, t); }
    if id in t.requeuers { PointedBy(s, e, id, t); }
  }

  lemma WantedStep(s: Conn, e: Event, id: ReqId, t: Conn)
    requires Inv(s) && t == Next(s, e) && Wanted(s, id)
    ensures Inv(t) && Wanted(t, id)
  {
    NextInv(s, e);
    if Enabled(s, e) {
      NextLives(s, e);
      NextOrders(s, e, t);
      assert LivesAt(s, e, t.reqs, id);
      if id in s.reqs { WantedEnabled(s, e, id, t); } else { NewcomerUnwanted(s, e, id, t); }
    }
  }

  lemma {:induction false} WantedRun(s: Conn, es: seq<Event>, id: ReqId)
    requires Inv(s) && Wanted(s, id)
    ensures Wanted(Run(s, es), id)
    decreases |es|
  {
    if es != [] {
      WantedStep(s, es[0], id, Next(s, es[0]));
      WantedRun(Next(s, es[0]), es[1..], id);
    }
  }

  /** In the run es from s, a signal ends the interruptible wait for request id. */
  ghost predicate SignalledIn(s: Conn, es: seq<Event>, id: ReqId)
    requires Inv(s)
    decreases |es|
  {
    es != [] && ((es[0] == ESignal(id) && Enabled(s, es[0])) || (NextInv(s, es[0]); SignalledIn(Next(s, es[0]), es[1..], id)))
  }

  lemma InterruptedStep(s: Conn, e: Event, id: ReqId, t: Conn)
    requires Inv(s) && t == Next(s, e)
    ensures Inv(t)
    ensures id in t.reqs && t.reqs[id].interrupted <==> (id in s.reqs && s.reqs[id].interrupted) || (e == ESignal(id) && Enabled(s, e))
  {
    LivesOn(s, e, id, t);
    if Enabled(s, e) { InterruptedOn(s, e, id, t.reqs); }
  }

  lemma LivesOn(s: Conn, e: Event, id: ReqId, t: Conn)
    requires Inv(s) && t == Next(s, e)
    ensures Inv(t) && if Enabled(s, e) then LivesAt(s, e, t.reqs, id) else t == s
  {
    NextInv(s, e);
    if Enabled(s, e) { NextLives(s, e); }
  }

  lemma InterruptedOn(s: Conn, e: Event, id: ReqId, reqs: map<ReqId, Req>)
    requires LivesAt(s, e, reqs, id) && Enabled(s, e)
    ensures id in reqs && reqs[id].interrupted <==> (id in s.reqs && s.reqs[id].interrupted) || e == ESignal(id)
  {
  }

  /** FR_INTERRUPTED is set exactly if there was such a signal. */
  lemma {:induction false} InterruptedRun(s: Conn, es: seq<Event>, id: ReqId)
    requires Inv(s)
    ensures id in Run(s, es).reqs && Run(s, es).reqs[id].interrupted <==> (id in s.reqs && s.reqs[id].interrupted) || SignalledIn(s, es, id)
    decreases |es|
  {
    if es != [] {
      InterruptedStep(s, es[0], id, Next(s, es[0]));
      InterruptedRun(Next(s, es[0]), es[1..], id);
    }
  }

  /** No interrupt is spurious: in every reachable state, a request whose interrupt waits to be read, has been read, or is
      about to be queued again for a reply of -EAGAIN, is one whose waiter a signal has come to. */
  lemma {:induction false} NoSpuriousInterrupt(maxBackground: nat, es: seq<Event>, id: ReqId)
    requires 0 < maxBackground <= UINT_MAX
    ensures Inv(Init(maxBackground))
    ensures
      var s := Run(Init(maxBackground), es);
      id in s.reqs && (id in s.interrupts || id in s.requeuers || s.reqs[id].intrUnique != 0) ==> SignalledIn(Init(maxBackground), es, id)
  {
    InitInv(maxBackground);
    WantedRun(Init(maxBackground), es, id);
    InterruptedRun(Init(maxBackground), es, id);
  }

  // ---------------------------------------------------------------- the server does not know interrupts

  /** In the run es from s, a live device takes a reply of -ENOSYS to an interrupt. */
  ghost predicate DeclinedIn(s: Conn, es: seq<Event>)
    requires Inv(s)
    decreases |es|
  {
    && es != []
    && (|| (Enabled(s, es[0]) && exists id :: Replies(s, es[0], ENOSYS, id))
        || (NextInv(s, es[0]); DeclinedIn(Next(s, es[0]), es[1..])))
  }

  lemma DeclineStep(s: Conn, e: Event, t: Conn)
    requires Inv(s) && t == Next(s, e)
    ensures Inv(t) && (t.noInterrupt <==> s.noInterrupt || (Enabled(s, e) && exists id :: Replies(s, e, ENOSYS, id)))
  {
    NextInv(s, e);
    if Enabled(s, e) { NextOrders(s, e, t); }
  }

  /** fc->no_interrupt is set exactly if that has happened. */
  lemma {:induction false} NoInterruptExact(s: Conn, es: seq<Event>)
    requires Inv(s)
    ensures Run(s, es).noInterrupt <==> s.noInterrupt || DeclinedIn(s, es)
    decreases |es|
  {
    if es != [] {
      DeclineStep(s, es[0], Next(s, es[0]));
      NoInterruptExact(Next(s, es[0]), es[1..]);
    }
  }

  /** No signal comes to the waiter of the request. */
  ghost predicate Deaf(s: Conn, id: ReqId) {
    s.noInterrupt && (id in s.reqs ==> s.reqs[id].waiter != Interruptible && !s.reqs[id].interrupted)
  }

  lemma DeafStep(s: Conn, e: Event, id: ReqId, t: Conn)
    requires Inv(s) && t == Next(s, e) && Deaf(s, id)
    ensures Inv(t) && Deaf(t, id)
  {
    DeclineStep(s, e, t);
    LivesOn(s, e, id, t);
    if Enabled(s, e) { DeafOn(s, e, id, t.reqs); }
  }

  lemma DeafOn(s: Conn, e: Event, id: ReqId, reqs: map<ReqId, Req>)
    requires LivesAt(s, e, reqs, id) && Enabled(s, e) && Deaf(s, id)
    ensures id in reqs ==> reqs[id].waiter != Interruptible && !reqs[id].interrupted
  {
  }

  lemma {:induction false} DeafRun(s: Conn, es: seq<Event>, id: ReqId)
    requires Inv(s) && Deaf(s, id)
    ensures Deaf(Run(s, es), id)
    decreases |es|
  {
    if es != [] {
      DeafStep(s, es[0], id, Next(s, es[0]));
      DeafRun(Next(s, es[0]), es[1..], id);
    }
  }

  /** Once the server has declined one, no request that is sent later is interrupted, nor told of to the server. */
  lemma {:induction false} NeverInterruptedAgain(s: Conn, es: seq<Event>, id: ReqId)
    requires Inv(s) && s.noInterrupt && id !in s.reqs
    ensures
      var t := Run(s, es);
      id in t.reqs ==> !t.reqs[id].interrupted && id !in t.interrupts && t.reqs[id].intrUnique == 0
  {
    DeafRun(s, es, id);
    assert id !in s.interrupts && Wanted(s, id);
    WantedRun(s, es, id);
  }

  // ---------------------------------------------------------------- signals that kill

  /** How the request is waited for. */
  ghost predicate Patient(r: Req) {
    && (r.force ==> r.waiter != Killable)
    && (!r.force && r.waiter == Uninterruptible ==> !Waits(r))
    && (r.waiter == Returned || r.waiter == Gone ==> !Waits(r))
  }

  lemma PatientOn(s: Conn, e: Event, id: ReqId, r: Req)
    requires id in s.reqs && Enabled(s, e) && Lives(s, e, id, r) && Patient(s.reqs[id])
    requires s.reqs[id].waiter == Killable ==> (s.reqs[id].pending <==> Waits(s.reqs[id]))
    requires (s.reqs[id].finished ==> !Waits(s.reqs[id])) && (Waits(r) ==> Waits(s.reqs[id]) && !(e.EKill? && e.id == id))
    ensures Patient(r)
  {
  }

  lemma WaitsBefore(s: Conn, e: Event, id: ReqId, r: Req)
    requires Inv(s) && Enabled(s, e) && id in s.reqs && Lives(s, e, id, r)
    ensures s.reqs[id].waiter == Killable ==> (s.reqs[id].pending <==> Waits(s.reqs[id]))
    ensures (s.reqs[id].finished ==> !Waits(s.reqs[id])) && (Waits(r) ==> Waits(s.reqs[id]) && !(e.EKill? && e.id == id))
  {
    if s.reqs[id].waiter == Killable { KilledWaits(s, id); }
    if s.reqs[id].finished { EndedWaits(s, id); }
    if Waits(r) { WaitsStill(s, e, id, r); }
  }

  lemma EndedWaits(s: Conn, id: ReqId)
    requires Inv(s) && id in s.reqs && s.reqs[id].finished
    ensures !Waits(s.reqs[id])
  {
    At(s, id);
  }

  lemma PatientStep(s: Conn, e: Event, id: ReqId, t: Conn)
    requires Inv(s) && t == Next(s, e) && (id in s.reqs ==> Patient(s.reqs[id]))
    ensures Inv(t) && (id in t.reqs ==> Patient(t.reqs[id]))
  {
    Step(s, e, id, t);
    if Enabled(s, e) && id in s.reqs {
      WaitsBefore(s, e, id, t.reqs[id]);
      PatientOn(s, e, id, t.reqs[id]);
    }
  }

  lemma {:induction false} PatientRun(s: Conn, es: seq<Event>, id: ReqId)
    requires Inv(s) && (id in s.reqs ==> Patient(s.reqs[id]))
    ensures id in Run(s, es).reqs ==> Patient(Run(s, es).reqs[id])
    decreases |es|
  {
    if es != [] {
      PatientStep(s, es[0], id, Next(s, es[0]));
      PatientRun(Next(s, es[0]), es[1..], id);
    }
  }

  /** The waiter of a forced request is never killed. The waiter of any other can be, from the end of its interruptible wait
      for as long as the request is on pending. */
  lemma {:induction false} KilledIfNotForced(maxBackground: nat, es: seq<Event>, id: ReqId)
    requires 0 < maxBackground <= UINT_MAX
    ensures Inv(Init(maxBackground))
    ensures var s := Run(Init(maxBackground), es); id in s.reqs && s.reqs[id].force ==> !Enabled(s, EKill(id))
    ensures
      var s := Run(Init(maxBackground), es);
      (id in s.reqs && !s.reqs[id].force && s.reqs[id].on == OnPending
       && s.reqs[id].waiter !in {NoWaiter, Interruptible, TestingSent, WaiterQueues}) ==> Enabled(s, EKill(id))
  {
    InitInv(maxBackground);
    PatientRun(Init(maxBackground), es, id);
  }

  /** The waiter has been killed and has taken the request off pending. */
  ghost predicate Killed(s: Conn, id: ReqId) { id in s.reqs && s.reqs[id].bailed && s.reqs[id].error == EINTR }

  lemma KilledStays(s: Conn, e: Event, id: ReqId, r: Req)
    requires id in s.reqs && Enabled(s, e) && Lives(s, e, id, r) && s.reqs[id].on == Nowhere && s.reqs[id].reader == NotRead
    requires s.reqs[id].replier == NotReplied && s.reqs[id].waiter in {Returned, Gone} && forall p :: !Grips(s, p, id)
    ensures r.error == s.reqs[id].error
  {
  }

  lemma KilledAlone(s: Conn, id: ReqId)
    requires Inv(s) && id in s.reqs && s.reqs[id].bailed
    ensures s.reqs[id].on == Nowhere && s.reqs[id].reader == NotRead && s.reqs[id].replier == NotReplied && !s.reqs[id].finished
    ensures s.reqs[id].waiter in {Returned, Gone} && forall p :: !Grips(s, p, id)
  {
    At(s, id);
    forall p ensures !Grips(s, p, id) {
      if p in s.picked { Gripped(s, p); }
    }
  }

  lemma KilledStep(s: Conn, e: Event, id: ReqId, t: Conn)
    requires Inv(s) && t == Next(s, e) && Killed(s, id)
    ensures Inv(t) && Killed(t, id)
  {
    Step(s, e, id, t);
    if Enabled(s, e) {
      KilledAlone(s, id);
      KilledStays(s, e, id, t.reqs[id]);
    }
  }

  lemma {:induction false} KilledRun(s: Conn, es: seq<Event>, id: ReqId)
    requires Inv(s) && Killed(s, id)
    ensures Killed(Run(s, es), id)
    decreases |es|
  {
    if es != [] {
      KilledStep(s, es[0], id, Next(s, es[0]));
      KilledRun(Next(s, es[0]), es[1..], id);
    }
  }

  /** A waiter that is killed while its request is on pending takes it back with -EINTR: userspace never reads it, and it
      never ends. If the request has left pending, the waiter goes on waiting and nothing happens to it. */
  lemma {:induction false} KilledInTime(s: Conn, es: seq<Event>, id: ReqId)
    requires Inv(s) && Enabled(s, EKill(id))
    ensures Inv(Next(s, EKill(id))) && id in Run(Next(s, EKill(id)), es).reqs
    ensures
      var t, r := Next(s, EKill(id)), Run(Next(s, EKill(id)), es).reqs[id];
      if s.reqs[id].on == OnPending then r.error == EINTR && r.reader == NotRead && !r.finished && r.on == Nowhere
      else t.q == s.q && t.reqs == s.reqs[id := s.reqs[id].(waiter := Uninterruptible)]
  {
    var t := Next(s, EKill(id));
    NextInv(s, EKill(id));
    KillEffect(s, id, t);
    RunReq(t, es, id);
    if s.reqs[id].on == OnPending {
      KilledRun(t, es, id);
      KilledAlone(Run(t, es), id);
    }
  }

  lemma KillEffect(s: Conn, id: ReqId, t: Conn)
    requires Inv(s) && Enabled(s, EKill(id)) && t == Next(s, EKill(id))
    ensures if s.reqs[id].on == OnPending then Killed(t, id)
      else id in t.reqs && t.q == s.q && t.reqs == s.reqs[id := s.reqs[id].(waiter := Uninterruptible)]
  {
    WaitSections(s, EKill(id));
    KilledWaits(s, id);
    assert s.reqs[id].on != OnBg by { At(s, id); }
    KillFields(s, id);
  }

  lemma KillFields(s: Conn, id: ReqId)
    requires id in s.reqs && s.reqs[id].on != OnBg && (s.reqs[id].pending <==> Waits(s.reqs[id]))
    ensures if s.reqs[id].on == OnPending then Killed(Kill(s, id), id)
      else Kill(s, id).q == s.q && Kill(s, id).reqs == s.reqs[id := s.reqs[id].(waiter := Uninterruptible)]
  {
  }
}
