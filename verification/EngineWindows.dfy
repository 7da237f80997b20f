/**
 Runs of the request engine that touch or leak memory, that fire a warning, and that end a request
 without an error behind an abort. Each is a run of one device and one request, from a new connection.
 */
module EngineWindows {
  import opened Lists
  import opened Errno
  import opened Requests
  import opened RequestQueues
  import opened RequestEngine
  import opened EngineInvariant
  import opened EngineTheorems
  import ReadSchedule

  const LIMIT := 12

  ghost predicate ReachedBy(s: Conn, es: seq<Event>) { InitInv(LIMIT); s == Run(Init(LIMIT), es) }

  /** A state that a run from a new connection reaches. */
  ghost predicate Reached(s: Conn) { exists es :: ReachedBy(s, es) }

  lemma Start()
    ensures Reached(Init(LIMIT))
  {
    InitInv(LIMIT);
    assert ReachedBy(Init(LIMIT), []);
  }

  lemma {:induction false} RunsOn(es: seq<Event>, s: Conn, e: Event, t: Conn)
    requires ReachedBy(s, es) && Named(s) && t == Next(s, e)
    ensures ReachedBy(t, es + [e])
  {
    InitInv(LIMIT);
    RunThen(Init(LIMIT), es, e);
  }

  lemma Go(s: Conn, e: Event, t: Conn)
    requires Reached(s) && Named(s) && t == Next(s, e)
    ensures Reached(t)
  {
    var es :| ReachedBy(s, es);
    RunsOn(es, s, e, t);
  }

  lemma ReachedInv(s: Conn)
    requires Reached(s)
    ensures Inv(s)
  {
    InitInv(LIMIT);
  }

  /** Request 1 is the only request, and device 0 the only device. */
  ghost predicate Solo(s: Conn, r: Req) {
    && Reached(s) && s.reqs == map[1 := r] && s.devs.Keys == {0} && s.forgets == [] && (forall x :: x in s.interrupts ==> x == 1)
  }

  /** All but the request and its list. */
  ghost function Around(s: Conn): Conn { s.(reqs := map[], q := Empty, reqctr := 0) }

  lemma PutStep(s: Conn, r: Req, e: Event, r': Req)
    requires Solo(s, r) && Named(s) && Next(s, e) == Put(s, 1, r')
    ensures Solo(Next(s, e), r') && Around(Next(s, e)) == Around(s)
  {
    Go(s, e, Next(s, e));
    SoloPut(s, r, r');
  }

  lemma SoloPut(s: Conn, r: Req, r': Req)
    requires s.reqs == map[1 := r]
    ensures var t := Put(s, 1, r');
      && t.reqs == map[1 := r'] && Around(t) == Around(s)
      && t.devs == s.devs && t.forgets == s.forgets && t.interrupts == s.interrupts
  {
  }

  /** The lists of a single request. */
  lemma {:induction false} SoloLists(s: Conn, r: Req)
    requires Solo(s, r)
    ensures s.q.pending == if r.on == OnPending then [1] else []
    ensures s.q.bg == if r.on == OnBg then [1] else []
    ensures 0 in s.q.io && s.q.io[0] == if r.on == OnIo(0) then {1} else {}
    ensures 0 in s.q.processing && s.q.processing[0] == if r.on == OnProcessing(0) then [1] else []
    ensures s.q.end1 == (if r.on == OnEnd1 then {1} else {}) && s.q.end2 == (if r.on == OnEnd2 then {1} else {})
  {
    assert s.reqs.Keys == {1};
    forall p, x | p != Nowhere ensures On(s.q, p, x) <==> x == 1 && p == r.on {
      assert On(s.q, p, x) <==> PlaceOf(s.reqs, x) == p;
    }
    Members(s.q, s.reqs);
    forall x | x in s.q.processing[0] ensures x == 1 { assert On(s.q, OnProcessing(0), x); }
    assert On(s.q, OnPending, 1) <==> r.on == OnPending;
    assert On(s.q, OnBg, 1) <==> r.on == OnBg;
    assert On(s.q, OnEnd1, 1) <==> r.on == OnEnd1;
    assert On(s.q, OnEnd2, 1) <==> r.on == OnEnd2;
    assert On(s.q, OnIo(0), 1) <==> r.on == OnIo(0);
    assert On(s.q, OnProcessing(0), 1) <==> r.on == OnProcessing(0);
    Single(s.q.pending);
    Single(s.q.bg);
    Single(s.q.processing[0]);
  }

  lemma {:induction false} SomeIn(list: seq<ReqId>)
    ensures list == [] || exists x :: x in list
  {
    if list != [] { assert list[0] in list; }
  }

  lemma {:induction false} Single(list: seq<ReqId>)
    requires NoDup(list) && forall x :: x in list ==> x == 1
    ensures list == if 1 in list then [1] else []
  {
    if list != [] {
      var rest := list[1..];
      SomeIn(rest);
      assert list[0] in list && list == [list[0]] + rest;
      assert forall x :: x in rest ==> x in list && x != list[0];
    }
  }

  // ---------------------------------------------------------------- steps of request 1

  /** A request is sent over a connection with one device. */
  lemma Sends() returns (s: Conn, r: Req)
    ensures Solo(s, r) && r == Foreground(1, true, false, false) && s.lock == Unheld && s.connected && s.open && s.devs[0]
    ensures s.interrupts == [] && s.requeuers == multiset{} && s.reqctr == 1 && s.closed == {} && s.picked == map[]
  {
    Start();
    var s0 := Init(LIMIT);
    ReachedInv(s0);
    DeviceSections(s0, EAddDevice(0));
    var s1 := AddDevice(s0, 0);
    Go(s0, EAddDevice(0), s1);
    r := Foreground(1, true, false, false);
    s := FirstSend(s1, r);
  }

  lemma FirstSend(s: Conn, r: Req) returns (t: Conn)
    requires Reached(s) && s == AddDevice(Init(LIMIT), 0) && r == Foreground(1, true, false, false)
    ensures Solo(t, r) && Around(t) == Around(s) && t.reqctr == 1
  {
    var e := ESendForeground(1, true, false);
    ReachedInv(s);
    SendSections(s, e);
    t := SendForeground(s, 1, true, false);
    assert t.reqs == map[1 := r];
    Go(s, e, t);
  }

  lemma Reads(s: Conn, r: Req) returns (t: Conn)
    requires Solo(s, r) && 0 !in s.closed && r.on == OnPending && s.open && s.interrupts == []
    ensures Solo(t, Take(r, 0)) && Around(t) == Around(s)
  {
    var e := ERead(0, 1);
    ReadsIt(s, r);
    TakeSections(s, e);
    PutStep(s, r, e, Take(r, 0));
    t := Next(s, e);
  }

  lemma ReadsIt(s: Conn, r: Req)
    requires Solo(s, r) && r.on == OnPending && s.open && s.interrupts == []
    ensures s.q.pending == [1] && Read(s, 0, 1) == Put(s, 1, Take(r, 0))
  {
    SoloLists(s, r);
    assert ReadChoice(s) == (ReadSchedule.Request, s.forgetBatch);
  }

  lemma Copies(s: Conn, r: Req) returns (t: Conn)
    requires Solo(s, r) && r.reader == InHand(0)
    ensures Solo(t, StartCopy(r)) && Around(t) == Around(s)
  {
    CopySections(s, EAddIo(1));
    PutStep(s, r, EAddIo(1), StartCopy(r));
    t := Next(s, EAddIo(1));
  }

  lemma Finishes(s: Conn, r: Req) returns (t: Conn)
    requires Solo(s, r) && r.reader == Reading(0)
    ensures Solo(t, EndRead(r, s.devs[0], false)) && Around(t) == Around(s)
  {
    var e := EFinishRead(1, false);
    FinishSections(s, e);
    PutStep(s, r, e, EndRead(r, s.devs[0], false));
    t := Next(s, e);
  }

  /** The reply arrives and is copied. */
  lemma Replies(s: Conn, r: Req, u: nat) returns (t: Conn)
    requires Solo(s, r) && 0 !in s.closed && r.on == OnProcessing(0) && s.devs[0] && r.unique == u != r.intrUnique && u != 0
    ensures Solo(t, EndReply(StartReply(r, 0, 0), s.devs[0], false)) && Around(t) == Around(s)
  {
    var e, e' := EReply(0, u, 0, false), EFinishReply(1, false);
    SoloLists(s, r);
    ReplySections(s, e);
    PutStep(s, r, e, StartReply(r, 0, 0));
    var s1 := Next(s, e);
    FinishSections(s1, e');
    PutStep(s1, StartReply(r, 0, 0), e', EndReply(StartReply(r, 0, 0), s.devs[0], false));
    t := Next(s1, e');
  }

  /** The body of request_end runs. */
  lemma Ends(s: Conn, r: Req) returns (t: Conn)
    requires Solo(s, r) && r.ender == Removing && !r.background && !s.lock.Flushing?
    ensures Solo(t, CalledBack(Removed(r))) && Around(t) == Around(s).(interrupts := Without(s.interrupts, 1))
  {
    var s1 := Removes(s, r);
    EndSections(s1, EEndCallback(1));
    PutStep(s1, Removed(r), EEndCallback(1), CalledBack(Removed(r)));
    t := Next(s1, EEndCallback(1));
  }

  lemma Removes(s: Conn, r: Req) returns (t: Conn)
    requires Solo(s, r) && r.ender == Removing
    ensures Solo(t, Removed(r)) && Around(t) == Around(s).(interrupts := Without(s.interrupts, 1))
  {
    var e := EEndRemove(1);
    t := EndRemove(s, 1);
    EndSections(s, e);
    Removal(s, r);
    Arrives(s, e, t, Removed(r));
  }

  /** The section leads to t, whose only request is r. */
  lemma Arrives(s: Conn, e: Event, t: Conn, r: Req)
    requires Reached(s) && Named(s) && s.devs.Keys == {0} && Next(s, e) == t
    requires t.reqs == map[1 := r] && t.devs.Keys == {0} && t.forgets == [] && forall x :: x in t.interrupts ==> x == 1
    ensures Solo(t, r)
  {
    Go(s, e, t);
  }

  lemma Removal(s: Conn, r: Req)
    requires s.reqs == map[1 := r]
    ensures EndRemove(s, 1).reqs == map[1 := Removed(r)]
    ensures Around(EndRemove(s, 1)) == Around(s).(interrupts := Without(s.interrupts, 1))
  {
  }

  lemma Requeueing(s: Conn, r: Req)
    requires s.reqs == map[1 := r] && !r.finished && s.interrupts == []
    ensures var t := WaiterQueue(s, 1);
      t.reqs == map[1 := r.(waiter := SecondWait(r.force))] && Around(t) == Around(s).(interrupts := [1]) && t.reqctr == s.reqctr
  {
    var r' := r.(waiter := SecondWait(r.force));
    assert Put(s, 1, r').reqs == map[1 := r'];
  }

  lemma Delivery(s: Conn, r: Req)
    requires s.reqs == map[1 := r] && s.open && s.interrupts == [1] && forall id :: id in s.q.pending ==> id in s.reqs
    ensures Read(s, 0, 1) == Deliver(s, 1) && Deliver(s, 1).reqs == map[1 := Interrupt(r, s.reqctr + 1)]
    ensures Around(Deliver(s, 1)) == Around(s).(interrupts := [])
  {
    assert ReadChoice(s).0 == ReadSchedule.Interrupt;
    assert Without([1], 1) == [];
  }

  /** The submitter returns and drops its reference. */
  lemma Leaves(s: Conn, r: Req) returns (t: Conn)
    requires Solo(s, r) && r.finished && r.waiter in {Interruptible, Killable}
    ensures Solo(t, Released(r.(waiter := Returned))) && Around(t) == Around(s)
  {
    var s1 := Comes(s, r);
    var r1 := r.(waiter := Returned);
    ReleaseSections(s1, ERelease(1));
    PutStep(s1, r1, ERelease(1), Released(r1));
    t := Next(s1, ERelease(1));
  }

  lemma Comes(s: Conn, r: Req) returns (t: Conn)
    requires Solo(s, r) && r.finished && r.waiter in {Interruptible, Killable}
    ensures Solo(t, r.(waiter := Returned)) && Around(t) == Around(s)
  {
    WaitSections(s, EReturn(1));
    PutStep(s, r, EReturn(1), r.(waiter := Returned));
    t := Next(s, EReturn(1));
  }

  /** The reader of the device sets FR_SENT and finds no interrupt. */
  lemma Sents(s: Conn, r: Req) returns (t: Conn)
    requires Solo(s, r) && r.reader == SettingSent && !r.interrupted
    ensures Solo(t, Sent(r).(reader := ReadDone)) && Around(t) == Around(s)
  {
    SentSections(s, ESetSent(1));
    PutStep(s, r, ESetSent(1), Sent(r));
    var s1 := Next(s, ESetSent(1));
    SentSections(s1, ETestInterrupted(1));
    PutStep(s1, Sent(r), ETestInterrupted(1), TestedInterrupted(Sent(r)));
    t := Next(s1, ETestInterrupted(1));
  }

  /** A signal arrives, and the waiter finds FR_SENT set. */
  lemma Signals(s: Conn, r: Req) returns (t: Conn)
    requires Solo(s, r) && r.waiter == Interruptible && r.sent
    ensures Solo(t, TestedSent(Signalled(r))) && Around(t) == Around(s)
  {
    SignalSections(s, ESignal(1));
    PutStep(s, r, ESignal(1), Signalled(r));
    var s1 := Next(s, ESignal(1));
    SignalSections(s1, ETestSent(1));
    PutStep(s1, Signalled(r), ETestSent(1), TestedSent(Signalled(r)));
    t := Next(s1, ETestSent(1));
  }

  /** It queues the interrupt. */
  lemma Queues1(s: Conn, r: Req) returns (t: Conn)
    requires Solo(s, r) && r.waiter == WaiterQueues && !r.finished && s.interrupts == []
    ensures Solo(t, r.(waiter := SecondWait(r.force))) && Around(t) == Around(s).(interrupts := [1]) && t.reqctr == s.reqctr
  {
    var e := EWaiterQueue(1);
    t := WaiterQueue(s, 1);
    WaiterQueueSection(s, 1);
    Requeueing(s, r);
    Arrives(s, e, t, r.(waiter := SecondWait(r.force)));
  }

  /** Userspace reads the interrupt. */
  lemma Delivers(s: Conn, r: Req) returns (t: Conn)
    requires Solo(s, r) && 0 !in s.closed && s.open && s.interrupts == [1]
    ensures Solo(t, Interrupt(r, s.reqctr + 1)) && Around(t) == Around(s).(interrupts := [])
  {
    var e := ERead(0, 1);
    t := Deliver(s, 1);
    TakeSections(s, e);
    Delivery(s, r);
    Arrives(s, e, t, Interrupt(r, s.reqctr + 1));
  }

  /** Userspace answers it with -EAGAIN; the writer of the answer has yet to queue it again. */
  lemma Asks(s: Conn, r: Req, u: nat) returns (t: Conn)
    requires Solo(s, r) && 0 !in s.closed && r.on == OnProcessing(0) && s.devs[0] && r.intrUnique == u != 0
    ensures Solo(t, r) && Around(t) == Around(s).(requeuers := s.requeuers + multiset{1})
  {
    var e := EReply(0, u, EAGAIN, true);
    ReachedInv(s);
    SoloLists(s, r);
    ReplySections(s, e);
    t := Reply(s, 0, u, EAGAIN, true);
    Asking(s, r, u, t);
    Arrives(s, e, t, r);
  }

  lemma Asking(s: Conn, r: Req, u: nat, t: Conn)
    requires s.reqs == map[1 := r] && 0 in s.q.processing && s.q.processing[0] == [1] && 0 in s.devs && s.devs[0]
    requires r.intrUnique == u != 0 && t == Reply(s, 0, u, EAGAIN, true)
    ensures t == s.(requeuers := s.requeuers + multiset{1})
  {
    assert RequestFind(s.reqs, [1], u) == Found(1);
  }

  /** The files that are closed, and what the loops of end_requests point to, are the same. */
  ghost predicate Pickers(t: Conn, s: Conn) { t.closed == s.closed && t.picked == s.picked }

  /** Abort sweeps the device. */
  lemma Sweeps(s: Conn, r: Req) returns (t: Conn)
    requires Solo(s, r) && s.connected && s.lock == Unheld
    ensures Solo(t, if OnDevice(r.on, 0) then AbortReq(r) else r)
    ensures !t.connected && t.open == s.open && t.lock == Sweeping({}) && !t.devs[0]
    ensures t.interrupts == s.interrupts && Pickers(t, s)
  {
    ReachedInv(s);
    AbortSections(s, EAbortBegin);
    var s1 := AbortBegin(s);
    Arrives(s, EAbortBegin, s1, r);
    t := SweepsDevice(s1, r);
  }

  lemma SweepsDevice(s: Conn, r: Req) returns (t: Conn)
    requires Solo(s, r) && s.lock == Sweeping({0})
    ensures Solo(t, if OnDevice(r.on, 0) then AbortReq(r) else r)
    ensures t.connected == s.connected && t.open == s.open && t.lock == Sweeping({}) && !t.devs[0]
    ensures t.interrupts == s.interrupts && Pickers(t, s)
  {
    var e := EAbortDevice(0);
    t := AbortDevice(s, 0);
    SoloSwept(s, r);
    assert Next(s, e) == t by { AbortSections(s, e); }
    Arrives(s, e, t, if OnDevice(r.on, 0) then AbortReq(r) else r);
  }

  lemma SoloSwept(s: Conn, r: Req)
    requires s.reqs == map[1 := r] && s.lock == Sweeping({0}) && s.devs.Keys == {0} && 0 in s.q.io && 0 in s.q.processing
    ensures var t := AbortDevice(s, 0);
      && t.reqs == map[1 := if OnDevice(r.on, 0) then AbortReq(r) else r] && t.devs.Keys == {0} && !t.devs[0]
      && t.connected == s.connected && t.open == s.open && t.lock == Sweeping({})
      && t.interrupts == s.interrupts && t.forgets == s.forgets && Pickers(t, s)
  {
    assert {0} - {0} == {};
  }

  /** And closes the queue. */
  lemma Closes(s: Conn, r: Req) returns (t: Conn)
    requires Solo(s, r) && s.lock == Sweeping({}) && r.on != OnBg && r.on != OnPending
    ensures Solo(t, r) && t.lock == Unheld && !t.open && !t.connected && t.devs == s.devs
    ensures t.interrupts == s.interrupts && Pickers(t, s)
  {
    var s1 := LastFlushes(s, r);
    t := ClosesQueue(s1, r);
  }

  lemma LastFlushes(s: Conn, r: Req) returns (t: Conn)
    requires Solo(s, r) && s.lock == Sweeping({}) && r.on != OnBg
    ensures Solo(t, r) && t.lock == Closing && t.connected == s.connected && t.devs == s.devs
    ensures t.interrupts == s.interrupts && Pickers(t, s)
  {
    assert s.q.bg == [] by { SoloLists(s, r); }
    CloseSections(s, EAbortFlush);
    var s1 := Next(s, EAbortFlush);
    Arrives(s, EAbortFlush, s1, r);
    assert s1.q.bg == [];
    FlushSections(s1, EFlushTurn);
    t := Next(s1, EFlushTurn);
    Arrives(s1, EFlushTurn, t, r);
  }

  lemma ClosesQueue(s: Conn, r: Req) returns (t: Conn)
    requires Solo(s, r) && s.lock == Closing && r.on != OnPending
    ensures Solo(t, r) && t.lock == Unheld && !t.open && !t.connected && t.devs == s.devs
    ensures t.interrupts == s.interrupts && Pickers(t, s)
  {
    t := AbortClose(s);
    SoloClosed(s, r);
    assert Next(s, EAbortClose) == t by { CloseSections(s, EAbortClose); }
    Arrives(s, EAbortClose, t, r);
  }

  lemma SoloClosed(s: Conn, r: Req)
    requires s.reqs == map[1 := r] && s.forgets == [] && r.on != OnPending
    ensures var t := AbortClose(s);
      t.reqs == s.reqs && t.devs == s.devs && t.forgets == [] && t.lock == Unheld && !t.open
      && t.interrupts == s.interrupts && t.connected == s.connected && Pickers(t, s)
  {
  }

  // ---------------------------------------------------------------- end_requests

  /** The file of the device is closed. */
  lemma ClosesFile(s: Conn, r: Req) returns (t: Conn)
    requires Solo(s, r) && 0 !in s.closed && r.reader == ReadDone && r.replier == NotReplied
    ensures Solo(t, r) && t == s.(closed := s.closed + {0})
  {
    ReachedInv(s);
    t := CloseDevice(s, 0);
    assert Next(s, ECloseDevice(0)) == t by { DeviceSections(s, ECloseDevice(0)); }
    Arrives(s, ECloseDevice(0), t, r);
  }

  /** Release picks the request. */
  lemma ReleasePicks(s: Conn, r: Req) returns (t: Conn)
    requires Solo(s, r) && r.on == OnProcessing(0) && 0 in s.closed && ByRelease(0) !in s.picked
    ensures Solo(t, r) && t == Pick(s, ByRelease(0), 1)
  {
    ReachedInv(s);
    SoloLists(s, r);
    DeviceSections(s, EReleasePick(0));
    t := Pick(s, ByRelease(0), 1);
    Arrives(s, EReleasePick(0), t, r);
  }

  /** Abort picks it. */
  lemma AbortPicks(s: Conn, r: Req) returns (t: Conn)
    requires Solo(s, r) && r.on == OnEnd2 && !Aborting(s.lock) && ByAbort !in s.picked
    ensures Solo(t, r) && t == Pick(s, ByAbort, 1)
  {
    ReachedInv(s);
    SoloLists(s, r);
    RestSections(s, EAbortPick(1));
    t := Pick(s, ByAbort, 1);
    Arrives(s, EAbortPick(1), t, r);
  }

  /** One of them goes on to the end of its turn. */
  lemma EndsFirst(s: Conn, r: Req, p: Picker) returns (t: Conn)
    requires Solo(s, r) && p in s.picked && s.picked[p] == Grip(1, false)
    ensures Solo(t, StartEnd(Unlink(r))) && Around(t) == Around(s).(picked := s.picked - {p})
  {
    var s1 := Unlinks(s, r, p);
    t := EndsUnlinked(s1, Unlink(r), p);
    AroundEnded(s, s1, t, p);
  }

  lemma AroundEnded(s: Conn, s1: Conn, t: Conn, p: Picker)
    requires Around(s1) == Around(s).(picked := s.picked[p := Grip(1, true)]) && Around(t) == Around(s1).(picked := s1.picked - {p})
    ensures Around(t) == Around(s).(picked := s.picked - {p})
  {
    assert s1.picked == Around(s1).picked;
    assert s.picked[p := Grip(1, true)] - {p} == s.picked - {p};
  }

  lemma EndsUnlinked(s: Conn, r: Req, p: Picker) returns (t: Conn)
    requires Solo(s, r) && p in s.picked && s.picked[p] == Grip(1, true)
    ensures Solo(t, StartEnd(r)) && Around(t) == Around(s).(picked := s.picked - {p})
  {
    ReachedInv(s);
    EndSection(s, p);
    t := EndPicked(s, p);
    SoloEnded(s, r, p);
    Arrives(s, EEndPicked(p), t, StartEnd(r));
  }

  lemma Unlinks(s: Conn, r: Req, p: Picker) returns (t: Conn)
    requires Solo(s, r) && p in s.picked && s.picked[p] == Grip(1, false)
    ensures Solo(t, Unlink(r)) && Around(t) == Around(s).(picked := s.picked[p := Grip(1, true)])
  {
    ReachedInv(s);
    UnlinkSection(s, p);
    t := UnlinkPicked(s, p);
    SoloUnlinked(s, r, p);
    Arrives(s, EUnlinkPicked(p), t, Unlink(r));
  }

  lemma SoloUnlinked(s: Conn, r: Req, p: Picker)
    requires s.reqs == map[1 := r] && p in s.picked && s.picked[p].id == 1
    ensures var t := UnlinkPicked(s, p);
      t.reqs == map[1 := Unlink(r)] && Around(t) == Around(s).(picked := s.picked[p := Grip(1, true)])
  {
    SoloPut(s, r, Unlink(r));
  }

  lemma SoloEnded(s: Conn, r: Req, p: Picker)
    requires s.reqs == map[1 := r] && p in s.picked && s.picked[p].id == 1
    ensures var t := EndPicked(s, p); t.reqs == map[1 := StartEnd(r)] && Around(t) == Around(s).(picked := s.picked - {p})
  {
    SoloPut(s, r, StartEnd(r));
  }

  // ---------------------------------------------------------------- the windows

  /** A request is copied to userspace. */
  lemma Copying() returns (s: Conn, r: Req)
    ensures Solo(s, r) && r == StartCopy(Take(Foreground(1, true, false, false), 0))
    ensures s.lock == Unheld && s.connected && s.open && s.devs[0] && s.interrupts == []
    ensures s.requeuers == multiset{} && s.closed == {} && s.picked == map[]
  {
    s, r := Sends();
    s := Reads(s, r);
    s := Copies(s, Take(r, 0));
    r := StartCopy(Take(r, 0));
  }

  /** The window of to_end1: while fuse_abort_conn has the request there, its copier ends it and its
      submitter leaves. The request is freed, still linked on to_end1, and abort is about to take a
      reference to it. */
  lemma FreedOnEnd1() returns (s: Conn)
    ensures Reached(s) && Enabled(s, EAbortEnd1(1)) && 1 in s.reqs && s.reqs[1].freed && On(s.q, OnEnd1, 1)
  {
    var r;
    s, r := EndsPrivate();
    s := Leaves(s, r);
    assert s.lock == Unheld by { assert s.lock == Around(s).lock; }
    OnEnd1Freed(s, Released(r.(waiter := Returned)));
  }

  lemma OnEnd1Freed(s: Conn, r: Req)
    requires Solo(s, r) && r.on == OnEnd1 && r.freed && s.lock == Unheld
    ensures Enabled(s, EAbortEnd1(1)) && 1 in s.reqs && s.reqs[1].freed && On(s.q, OnEnd1, 1)
  {
    SoloLists(s, r);
  }

  /** The copier has ended the request, and its reference is gone. */
  lemma EndsPrivate() returns (s: Conn, r: Req)
    ensures Solo(s, r) && r.on == OnEnd1 && r.finished && r.waiter == Interruptible && r.count == 1 && s.lock == Unheld
  {
    s, r := AbortsCopy();
    s := Finishes(s, r);
    r := EndRead(r, false, false);
    s := Ends(s, r);
    r := CalledBack(Removed(r));
  }

  /** The device is down, and the request is on to_end1 while its copier works. */
  lemma AbortsCopy() returns (s: Conn, r: Req)
    ensures Solo(s, r) && r == AbortReq(StartCopy(Take(Foreground(1, true, false, false), 0)))
    ensures s.lock == Unheld && !s.devs[0] && s.interrupts == []
  {
    s, r := Copying();
    s := Sweeps(s, r);
    r := AbortReq(r);
    s := Closes(s, r);
  }

  /** A leak: abort ends a request of to_end1, with its extra reference, and the submitter and the copier
      leave. Nothing refers to the request any more, and it is not freed. */
  lemma LeakedByAbort() returns (s: Conn)
    ensures Reached(s) && 1 in s.reqs && !s.reqs[1].freed && s.reqs[1].count == 1
    ensures var r := s.reqs[1]; r.on == Nowhere && r.ender == Ended && r.waiter == Gone && !Copied(r)
  {
    var r;
    s, r := EndsByAbort();
    s := Leaves(s, r);
    s := CopierLeaves(s, Released(r.(waiter := Returned)));
  }

  lemma CopierLeaves(s: Conn, r: Req) returns (t: Conn)
    requires Solo(s, r) && r.finished && r.private && r.reader == Reading(0) && r.replier == NotReplied && !s.devs[0]
    ensures Reached(t) && 1 in t.reqs && t.reqs[1].freed == r.freed && t.reqs[1].count == r.count && t.reqs[1].on == r.on
    ensures t.reqs[1].ender == r.ender && t.reqs[1].waiter == r.waiter && !Copied(t.reqs[1])
  {
    t := Finishes(s, r);
  }

  /** Abort has ended the request while its copier works. */
  lemma EndsByAbort() returns (s: Conn, r: Req)
    ensures Solo(s, r) && r.on == Nowhere && r.finished && r.ender == Ended && r.waiter == Interruptible && r.count == 2
    ensures r.private && r.reader == Reading(0) && r.replier == NotReplied && !r.freed && !s.devs[0]
  {
    s, r := AbortsCopy();
    assert s.q.end1 == {1} by { SoloLists(s, r); }
    RestSections(s, EAbortEnd1(1));
    PutStep(s, r, EAbortEnd1(1), EndPrivate(r));
    s, r := Next(s, EAbortEnd1(1)), EndPrivate(r);
    s := Ends(s, r);
    r := CalledBack(Removed(r));
  }

  /** The window of the reader's tail: before it comes to FR_SENT, the reply is there, the request has ended
      and its submitter has left. */
  lemma FreedBehindReader() returns (s: Conn)
    ensures Reached(s) && Enabled(s, ESetSent(1)) && 1 in s.reqs && s.reqs[1].freed
  {
    var r;
    s, r := Copying();
    s := Finishes(s, r);
    r := EndRead(r, true, false);
    s := Replies(s, r, 1);
    r := EndReply(StartReply(r, 0, 0), true, false);
    s := Ends(s, r);
    r := CalledBack(Removed(r));
    s := Leaves(s, r);
  }

  /** The window of the interrupt reply: before its writer comes to queue_interrupt, the request has ended
      and its submitter has left. */
  lemma FreedBehindInterrupt() returns (s: Conn)
    ensures Reached(s) && Enabled(s, ERequeue(1)) && 1 in s.reqs && s.reqs[1].freed
  {
    var r;
    s, r := Interrupted();
    s := Asks(s, r, r.intrUnique);
    s := Replies(s, r, 1);
    r := EndReply(StartReply(r, 0, 0), true, false);
    s := Ends(s, r);
    r := CalledBack(Removed(r));
    s := Leaves(s, r);
  }

  /** The file of the device is closed, and its loop of end_requests points to the request. */
  lemma ReleaseHolds() returns (s: Conn)
    ensures Solo(s, Awaiting()) && s.closed == {0} && s.picked == map[ByRelease(0) := Grip(1, false)]
    ensures s.lock == Unheld && s.connected && s.interrupts == []
  {
    var r;
    s, r := Copying();
    s := Finishes(s, r);
    s := Sents(s, EndRead(r, true, false));
    r := Awaiting();
    assert r.reader == ReadDone && r.replier == NotReplied && r.on == OnProcessing(0);
    s := ReleaseComes(s, r);
  }

  lemma ReleaseComes(s: Conn, r: Req) returns (t: Conn)
    requires Solo(s, r) && r.reader == ReadDone && r.replier == NotReplied && r.on == OnProcessing(0)
    requires s.closed == {} && s.picked == map[]
    ensures Solo(t, r) && t == s.(closed := {0}, picked := map[ByRelease(0) := Grip(1, false)])
  {
    t := ClosesFile(s, r);
    t := ReleasePicks(t, r);
  }

  /** An abort splices the list of the device, and its own loop comes to the request. */
  lemma BothPick() returns (s: Conn)
    ensures Solo(s, AbortReq(Awaiting())) && s.lock == Unheld && s.interrupts == []
    ensures s.picked == map[ByRelease(0) := Grip(1, false), ByAbort := Grip(1, false)]
  {
    s := ReleaseHolds();
    s := Sweeps(s, Awaiting());
    s := Closes(s, AbortReq(Awaiting()));
    s := AbortPicks(s, AbortReq(Awaiting()));
  }

  lemma AwaitingFacts()
    ensures var r := AbortReq(Awaiting()); r.waiter == Interruptible && r.count == 2 && !r.finished && !r.background
  {
  }

  /** The request that the loop is about to write to is freed. */
  ghost predicate FreedFor(s: Conn, p: Picker) {
    Enabled(s, EUnlinkPicked(p)) && s.picked[p].id == 1 && 1 in s.reqs && s.reqs[1].freed
  }

  lemma FreedBehindEnd(s0: Conn, r: Req, first: Picker, second: Picker) returns (s: Conn)
    requires Solo(s0, r) && s0.lock == Unheld && first != second
    requires s0.picked == map[first := Grip(1, false), second := Grip(1, false)]
    requires r.waiter == Interruptible && r.count == 2 && !r.finished && !r.background
    ensures Reached(s) && FreedFor(s, second)
  {
    var s1 := FirstEnds(s0, r, first, second);
    s := Passes(s1, StartEnd(Unlink(r)));
    Ready(s1, s, second);
  }

  lemma FirstEnds(s: Conn, r: Req, first: Picker, second: Picker) returns (t: Conn)
    requires Solo(s, r) && s.lock == Unheld && first != second
    requires s.picked == map[first := Grip(1, false), second := Grip(1, false)]
    ensures Solo(t, StartEnd(Unlink(r))) && t.lock == Unheld && second in t.picked && t.picked[second] == Grip(1, false)
  {
    t := EndsFirst(s, r, first);
    assert t.lock == Around(t).lock && t.picked == Around(t).picked;
  }

  lemma Ready(s: Conn, t: Conn, p: Picker)
    requires p in s.picked && s.picked[p] == Grip(1, false) && Around(t).picked == Around(s).picked
    requires 1 in t.reqs && t.reqs[1].freed
    ensures FreedFor(t, p)
  {
    assert t.picked == Around(t).picked && s.picked == Around(s).picked;
  }

  /** The body of request_end runs, and the submitter leaves. */
  lemma Passes(s: Conn, r: Req) returns (t: Conn)
    requires Solo(s, r) && r.ender == Removing && !r.background && s.lock == Unheld
    requires r.finished && r.waiter == Interruptible && r.count == 2
    ensures Solo(t, Released(CalledBack(Removed(r)).(waiter := Returned)))
    ensures Around(t) == Around(s).(interrupts := Without(s.interrupts, 1))
    ensures 1 in t.reqs && t.reqs[1].freed
  {
    t := Ends(s, r);
    t := Leaves(t, CalledBack(Removed(r)));
  }

  /** The window of end_requests: abort has ended the request, and its submitter has left, when release, which
      picked it before, comes to write to it. */
  lemma FreedBehindRelease() returns (s: Conn)
    ensures Reached(s) && FreedFor(s, ByRelease(0))
  {
    s := BothPick();
    AwaitingFacts();
    s := FreedBehindEnd(s, AbortReq(Awaiting()), ByAbort, ByRelease(0));
  }

  /** The other way round: release has ended the request that abort's loop points to. */
  lemma FreedBehindAbort() returns (s: Conn)
    ensures Reached(s) && FreedFor(s, ByAbort)
  {
    s := BothPick();
    AwaitingFacts();
    s := FreedBehindEnd(s, AbortReq(Awaiting()), ByRelease(0), ByAbort);
  }

  /** Userspace has read the request, and a signal has queued its interrupt. */
  lemma Signalling() returns (s: Conn, r: Req)
    ensures Solo(s, r) && r == TestedSent(Signalled(Awaiting())).(waiter := Killable)
    ensures s.lock == Unheld && s.open && s.devs[0] && s.interrupts == [1] && s.closed == {}
  {
    s, r := Copying();
    s := Finishes(s, r);
    s := Sents(s, EndRead(r, true, false));
    s := Signals(s, Awaiting());
    r := TestedSent(Signalled(Awaiting()));
    s := Queues1(s, r);
    r := r.(waiter := Killable);
  }

  /** Request 1 once userspace has read it. */
  ghost function Awaiting(): Req {
    Sent(EndRead(StartCopy(Take(Foreground(1, true, false, false), 0)), true, false)).(reader := ReadDone)
  }

  /** Userspace has read the request and then its interrupt. */
  lemma Interrupted() returns (s: Conn, r: Req)
    ensures Solo(s, r) && r.on == OnProcessing(0) && s.devs[0] && r.unique == 1 && r.intrUnique > 1 && !r.finished
    ensures s.lock == Unheld && r.waiter == Killable && !r.background && r.count == 2 && s.closed == {}
    ensures r.isReply && !r.private && !r.aborted && r.ender == NotEnding && !r.freed && !r.abortRef && !r.bailed
  {
    s, r := Signalling();
    var u := s.reqctr + 1;
    assert u > 1 by { assert IdsAt(s.reqs, s.reqctr, 1); }
    s := Delivers(s, r);
    r := Interrupt(r, u);
  }

  /** A run in which the second WARN_ON of request_end fires: the reader comes to its set_bit behind the
      reply, and before the body of request_end. */
  lemma SentWarningFires() returns (s: Conn)
    ensures Reached(s) && 1 in s.reqs && s.reqs[1].finished && s.reqs[1].ender == Removing && s.reqs[1].sent
  {
    var r;
    s, r := Copying();
    s := Finishes(s, r);
    r := EndRead(r, true, false);
    s := Replies(s, r, 1);
    r := EndReply(StartReply(r, 0, 0), true, false);
    SentSections(s, ESetSent(1));
    PutStep(s, r, ESetSent(1), Sent(r));
    s := Next(s, ESetSent(1));
  }

  // ---------------------------------------------------------------- a request that abort misses

  /** A request is on pending when abort begins; a reader of the device that abort has swept takes it
      before abort closes the queue, and ends it without an error. */
  lemma ReadBehindAbort() returns (begins: Conn, s: Conn)
    ensures Reached(begins) && Enabled(begins, EAbortBegin) && begins.connected && 1 in begins.reqs
    ensures begins.reqs[1].on == OnPending
    ensures Reached(s) && !s.open && 1 in s.reqs && s.reqs[1].finished && s.reqs[1].error == 0
  {
    var r;
    begins, r := Sends();
    s := Sweeps(begins, r);
    s := ReadsLate(s, r);
    r := StartCopy(Take(r, 0));
    s := Closes(s, r);
    s := FinishesDead(s, r);
  }

  lemma FinishesDead(s: Conn, r: Req) returns (t: Conn)
    requires Solo(s, r) && r.reader == Reading(0) && !s.devs[0] && r.error == 0
    ensures Reached(t) && t.open == s.open && 1 in t.reqs && t.reqs[1].finished && t.reqs[1].error == 0
  {
    t := Finishes(s, r);
    assert t.open == Around(t).open;
  }

  lemma ReadsLate(s: Conn, r: Req) returns (t: Conn)
    requires Solo(s, r) && 0 !in s.closed && r.on == OnPending && s.open && s.interrupts == [] && r.reader == NotRead
    ensures Solo(t, StartCopy(Take(r, 0))) && Around(t) == Around(s)
  {
    t := Reads(s, r);
    t := Copies(t, Take(r, 0));
  }
}
