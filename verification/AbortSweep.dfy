/**
 fuse_abort_conn in the order of its code: device by device, each io list request by request, then
 flush_bg_queue, then pending. What comes of it is RequestEngine.Abort, which says all of it at once.
 */
module AbortSweep {
  import opened Lists
  import opened Requests
  import opened RequestQueues
  import opened RequestEngine
  import opened EngineInvariant

  /** The requests `ids` are marked or moved, the others are as they were. */
  function MarkReqs(reqs: map<ReqId, Req>, ids: set<ReqId>): map<ReqId, Req> {
    map id | id in reqs :: if id in ids then AbortReq(reqs[id]) else reqs[id]
  }

  ghost predicate OnAny(p: Place, ds: set<DevId>) { (p.OnIo? || p.OnProcessing?) && p.dev in ds }

  /** The requests of the devices `ds` are marked or moved. */
  ghost function SweepReqs(reqs: map<ReqId, Req>, ds: set<DevId>): map<ReqId, Req> {
    map id | id in reqs :: if OnAny(reqs[id].on, ds) then AbortReq(reqs[id]) else reqs[id]
  }

  function Elements(list: seq<ReqId>): set<ReqId> { set id | id in list }

  // ---------------------------------------------------------------- the lists

  lemma LeavesIo(q: Queues, id: ReqId, d: DevId)
    requires d in q.io
    ensures Move(q, id, OnIo(d), OnEnd1) == q.(io := q.io[d := q.io[d] - {id}], end1 := q.end1 + {id})
  {
  }

  lemma MarkOne(reqs: map<ReqId, Req>, ids: set<ReqId>, id: ReqId)
    requires id in reqs && id !in ids
    ensures MarkReqs(reqs, ids)[id] == reqs[id]
    ensures MarkReqs(reqs, ids)[id := AbortReq(reqs[id])] == MarkReqs(reqs, ids + {id})
  {
  }

  ghost function Splice(q: Queues, d: DevId): Queues
    requires d in q.processing
  {
    q.(processing := q.processing[d := []], end2 := q.end2 + Elements(q.processing[d]))
  }

  ghost function SplicePending(q: Queues): Queues { q.(pending := [], end2 := q.end2 + Elements(q.pending)) }

  lemma SpliceOn(q: Queues, reqs: map<ReqId, Req>, d: DevId, p: Place, x: ReqId)
    requires Located(q, reqs) && d in q.processing && p != Nowhere
    ensures On(Splice(q, d), p, x) <==> PlaceOf(MarkReqs(reqs, Elements(q.processing[d])), x) == p
  {
    assert On(q, p, x) <==> PlaceOf(reqs, x) == p;
    assert On(q, OnProcessing(d), x) <==> PlaceOf(reqs, x) == OnProcessing(d);
  }

  lemma SpliceLinked(q: Queues, reqs: map<ReqId, Req>, devs: map<DevId, bool>, d: DevId)
    requires Linked(q, reqs, devs) && d in q.processing
    ensures Linked(Splice(q, d), MarkReqs(reqs, Elements(q.processing[d])), devs)
  {
    var r := MarkReqs(reqs, Elements(q.processing[d]));
    forall p, x | p != Nowhere ensures On(Splice(q, d), p, x) <==> PlaceOf(r, x) == p { SpliceOn(q, reqs, d, p, x); }
  }

  lemma SplicePendingOn(q: Queues, reqs: map<ReqId, Req>, p: Place, x: ReqId)
    requires Located(q, reqs) && p != Nowhere
    ensures On(SplicePending(q), p, x) <==> PlaceOf(MarkReqs(reqs, Elements(q.pending)), x) == p
  {
    assert On(q, p, x) <==> PlaceOf(reqs, x) == p;
    assert On(q, OnPending, x) <==> PlaceOf(reqs, x) == OnPending;
  }

  lemma SplicePendingLinked(q: Queues, reqs: map<ReqId, Req>, devs: map<DevId, bool>)
    requires Linked(q, reqs, devs)
    ensures Linked(SplicePending(q), MarkReqs(reqs, Elements(q.pending)), devs)
  {
    var r := MarkReqs(reqs, Elements(q.pending));
    forall p, x | p != Nowhere ensures On(SplicePending(q), p, x) <==> PlaceOf(r, x) == p { SplicePendingOn(q, reqs, p, x); }
  }

  /** The two parts of one device's sweep. */
  lemma DeviceParts(q: Queues, reqs: map<ReqId, Req>, d: DevId)
    requires Located(q, reqs) && d in q.io && d in q.processing
    ensures MarkReqs(MarkReqs(reqs, q.io[d]), Elements(q.processing[d])) == SweepReqs(reqs, {d})
  {
    forall id | id in reqs
      ensures MarkReqs(MarkReqs(reqs, q.io[d]), Elements(q.processing[d]))[id] == SweepReqs(reqs, {d})[id]
    {
      assert On(q, OnProcessing(d), id) <==> PlaceOf(reqs, id) == OnProcessing(d);
      assert On(q, OnIo(d), id) <==> PlaceOf(reqs, id) == OnIo(d);
    }
  }

  lemma NextDevice(reqs: map<ReqId, Req>, ds: set<DevId>, d: DevId)
    requires d !in ds
    ensures SweepReqs(SweepReqs(reqs, ds), {d}) == SweepReqs(reqs, ds + {d})
  {
    forall id | id in reqs
      ensures SweepReqs(SweepReqs(reqs, ds), {d})[id] == SweepReqs(reqs, ds + {d})[id]
    {
      if OnAny(reqs[id].on, ds) { assert !OnAny(AbortReq(reqs[id]).on, {d}); }
    }
  }

  /** Lists that link the same requests are the same, but for the order of the ordered ones. */
  lemma SameQueues(a: Queues, b: Queues, reqs: map<ReqId, Req>)
    requires Located(a, reqs) && Located(b, reqs)
    requires a.bg == b.bg && a.pending == b.pending && a.processing == b.processing && a.io.Keys == b.io.Keys
    ensures a == b
  {
    forall d | d in a.io ensures a.io[d] == b.io[d] {
      forall x ensures x in a.io[d] <==> x in b.io[d] {
        assert On(a, OnIo(d), x) <==> PlaceOf(reqs, x) == OnIo(d);
        assert On(b, OnIo(d), x) <==> PlaceOf(reqs, x) == OnIo(d);
      }
    }
    forall x ensures (x in a.end1 <==> x in b.end1) && (x in a.end2 <==> x in b.end2) {
      assert On(a, OnEnd1, x) <==> PlaceOf(reqs, x) == OnEnd1;
      assert On(b, OnEnd1, x) <==> PlaceOf(reqs, x) == OnEnd1;
      assert On(a, OnEnd2, x) <==> PlaceOf(reqs, x) == OnEnd2;
      assert On(b, OnEnd2, x) <==> PlaceOf(reqs, x) == OnEnd2;
    }
  }

  // ---------------------------------------------------------------- flush_bg_queue does not mind

  ghost predicate BgLinked(s: Conn) { forall id :: id in s.q.bg ==> id in s.reqs && s.reqs[id].on == OnBg }

  /** b is a with the devices ds swept. */
  ghost predicate Ahead(a: Conn, b: Conn, ds: set<DevId>) {
    && b.reqs == SweepReqs(a.reqs, ds)
    && b.q.bg == a.q.bg && b.q.pending == a.q.pending
    && b.reqctr == a.reqctr && b.interrupts == a.interrupts && b.noInterrupt == a.noInterrupt && b.requeuers == a.requeuers && b.closed == a.closed && b.picked == a.picked
    && b.forgetBatch == a.forgetBatch && b.sched == a.sched
  }

  /** What flush_bg_queue leaves alone. */
  ghost predicate SameDevices(a: Conn, b: Conn) {
    && b.q.processing == a.q.processing && b.q.io == a.q.io && b.devs == a.devs
  }

  lemma FlushOneAhead(a: Conn, b: Conn, ds: set<DevId>)
    requires BgLinked(a) && Ahead(a, b, ds) && a.q.bg != []
    ensures b.q.bg[0] in b.reqs && b.reqs[b.q.bg[0]].on == OnBg
    ensures Ahead(FlushOne(a), FlushOne(b), ds) && SameDevices(b, FlushOne(b))
  {
    var id := a.q.bg[0];
    assert id in a.q.bg;
    SweepUpdate(a.reqs, ds, id, Flushed(a.reqs[id], a.reqctr + 1));
    FlushOneFrame(a, id);
    FlushOneFrame(b, id);
  }

  /** All that a turn of flush_bg_queue changes. */
  lemma FlushOneFrame(s: Conn, id: ReqId)
    requires s.q.bg != [] && s.q.bg[0] == id && id in s.reqs && s.reqs[id].on == OnBg
    ensures FlushOne(s) == s.(
      q := s.q.(bg := Without(s.q.bg, id), pending := s.q.pending + [id]), reqs := s.reqs[id := Flushed(s.reqs[id], s.reqctr + 1)],
      reqctr := s.reqctr + 1, sched := Activate(s.sched, id))
  {
    BgMove(s.q, id);
  }

  lemma BgMove(q: Queues, id: ReqId)
    ensures Move(q, id, OnBg, OnPending) == q.(bg := Without(q.bg, id), pending := q.pending + [id])
  {
  }

  lemma SweepUpdate(reqs: map<ReqId, Req>, ds: set<DevId>, id: ReqId, r: Req)
    requires id in reqs && !OnAny(reqs[id].on, ds) && !OnAny(r.on, ds)
    ensures SweepReqs(reqs, ds)[id] == reqs[id]
    ensures SweepReqs(reqs[id := r], ds) == SweepReqs(reqs, ds)[id := r]
  {
  }

  lemma {:induction false} FlushAhead(a: Conn, b: Conn, ds: set<DevId>)
    requires Core(a) && Ahead(a, b, ds)
    ensures BgLinked(a) && BgLinked(b)
    ensures Ahead(Flush(a), Flush(b), ds) && SameDevices(b, Flush(b))
    decreases a.sched.maxBackground - a.sched.activeBackground
  {
    Members(a.q, a.reqs);
    forall id | id in b.q.bg ensures id in b.reqs && b.reqs[id].on == OnBg { assert b.reqs[id] == a.reqs[id]; }
    if a.sched.activeBackground < a.sched.maxBackground && a.q.bg != [] {
      FlushOneAhead(a, b, ds);
      FlushOneInv(a);
      FlushAhead(FlushOne(a), FlushOne(b), ds);
    }
  }

  lemma {:induction false} FlushLinked(s: Conn)
    requires Linked(s.q, s.reqs, s.devs)
    ensures BgLinked(s)
    ensures Linked(Flush(s).q, Flush(s).reqs, Flush(s).devs) && Flush(s).devs == s.devs
    decreases s.sched.maxBackground - s.sched.activeBackground
  {
    Members(s.q, s.reqs);
    if s.sched.activeBackground < s.sched.maxBackground && s.q.bg != [] {
      var id := s.q.bg[0];
      MoveLinked(s.q, s.reqs, s.devs, id, Flushed(s.reqs[id], s.reqctr + 1));
      FlushLinked(FlushOne(s));
    }
  }

  lemma {:induction false} FlushKeepsLock(s: Conn)
    requires Linked(s.q, s.reqs, s.devs)
    ensures BgLinked(s)
    ensures Flush(s).lock == s.lock && Flush(s).connected == s.connected
    decreases s.sched.maxBackground - s.sched.activeBackground
  {
    Members(s.q, s.reqs);
    if s.sched.activeBackground < s.sched.maxBackground && s.q.bg != [] {
      var id := s.q.bg[0];
      MoveLinked(s.q, s.reqs, s.devs, id, Flushed(s.reqs[id], s.reqctr + 1));
      FlushKeepsLock(FlushOne(s));
    }
  }

  // ---------------------------------------------------------------- the whole

  /** From s to t, the loop over the devices is through. */
  ghost predicate DevicesSwept(s: Conn, t: Conn) {
    && Linked(t.q, t.reqs, t.devs)
    && Ahead(s.(sched := Unlimited(s.sched)), t, s.devs.Keys)
    && t.q.io.Keys == s.q.io.Keys
    && t.q.processing == (map d | d in s.q.processing :: [])
    && t.devs == (map d | d in s.devs :: false)
  }

  /** From s to t, fiq->waitq.lock has been held. */
  ghost predicate PendingSwept(s: Conn, t: Conn) {
    && t.q == SplicePending(s.q) && t.reqs == MarkReqs(s.reqs, Elements(s.q.pending))
    && t.forgets == [] && !t.connected && !t.open
    && t.devs == s.devs && t.reqctr == s.reqctr && t.interrupts == s.interrupts && t.noInterrupt == s.noInterrupt
    && t.requeuers == s.requeuers && t.closed == s.closed && t.picked == s.picked && t.forgetBatch == s.forgetBatch && t.sched == s.sched
  }

  lemma OneMarked(r: Req, ds: set<DevId>, pending: bool)
    requires pending <==> r.on == OnPending
    requires r.on.OnIo? || r.on.OnProcessing? ==> r.on.dev in ds
    ensures AbortReq(r) ==
      if OnAny(r.on, ds) then AbortReq(r) else if pending then AbortReq(r) else r
  {
  }

  lemma {:induction false} AllMarked(s: Conn, reqs: map<ReqId, Req>)
    requires Linked(s.q, s.reqs, s.devs)
    requires reqs == MarkReqs(SweepReqs(s.reqs, s.devs.Keys), Elements(s.q.pending))
    ensures reqs == map id | id in s.reqs :: AbortReq(s.reqs[id])
  {
    forall id | id in s.reqs ensures reqs[id] == AbortReq(s.reqs[id]) {
      PlacesExist(s.q, s.reqs, s.devs, id);
      OneMarked(s.reqs[id], s.devs.Keys, id in Elements(s.q.pending));
    }
  }

  lemma PlacesExist(q: Queues, reqs: map<ReqId, Req>, devs: map<DevId, bool>, id: ReqId)
    requires Linked(q, reqs, devs) && id in reqs
    ensures id in Elements(q.pending) <==> reqs[id].on == OnPending
    ensures reqs[id].on.OnIo? || reqs[id].on.OnProcessing? ==> reqs[id].on.dev in devs
  {
    var p := reqs[id].on;
    assert On(q, OnPending, id) <==> PlaceOf(reqs, id) == OnPending;
    if p != Nowhere { assert On(q, p, id) <==> PlaceOf(reqs, id) == p; }
  }

  lemma SweepOn(s: Conn, p: Place, x: ReqId)
    requires Located(s.q, s.reqs) && s.q.bg == [] && p != Nowhere
    requires s.q.end1 == {} && s.q.end2 == {}
    ensures On(Sweep(s).q, p, x) <==> PlaceOf(Sweep(s).reqs, x) == p
  {
    assert On(s.q, p, x) <==> PlaceOf(s.reqs, x) == p;
    assert On(s.q, OnEnd1, x) <==> PlaceOf(s.reqs, x) == OnEnd1;
    assert On(s.q, OnEnd2, x) <==> PlaceOf(s.reqs, x) == OnEnd2;
    assert On(s.q, OnBg, x) <==> PlaceOf(s.reqs, x) == OnBg;
  }

  lemma NoEnds(s: Conn)
    requires Core(s) && s.connected
    ensures s.q.end1 == {} && s.q.end2 == {}
  {
    Members(s.q, s.reqs);
    forall id | id in s.q.end1 ensures false { At(s, id); }
    forall id | id in s.q.end2 ensures false { At(s, id); }
  }

  lemma SweepLinked(s: Conn)
    requires Core(s) && s.connected && s.q.bg == []
    ensures Linked(Sweep(s).q, Sweep(s).reqs, Sweep(s).devs)
  {
    NoEnds(s);
    forall p, x | p != Nowhere ensures On(Sweep(s).q, p, x) <==> PlaceOf(Sweep(s).reqs, x) == p {
      SweepOn(s, p, x);
    }
  }

  /** From f, where bg_queue is flushed, to t everything has been swept. */
  ghost predicate SweptFrom(f: Conn, g: Conn, t: Conn) {
    && Core(f) && f.connected && f.q.bg == [] && Ahead(f, g, f.devs.Keys) && PendingSwept(g, t) && t.lock == f.lock
    && Linked(g.q, g.reqs, g.devs)
    && g.devs == (map d | d in f.devs :: false) && g.q.processing == (map d | d in f.q.processing :: [])
  }

  lemma {:induction false} SweptReqs(f: Conn, g: Conn, t: Conn)
    requires SweptFrom(f, g, t)
    ensures t.reqs == Sweep(f).reqs
  {
    AllMarked(f, t.reqs);
  }

  lemma {:induction false} SweptLists(f: Conn, g: Conn, t: Conn)
    requires SweptFrom(f, g, t) && t.reqs == Sweep(f).reqs
    ensures t.q == Sweep(f).q
  {
    SweepLinked(f);
    SplicePendingLinked(g.q, g.reqs, g.devs);
    SameQueues(t.q, Sweep(f).q, t.reqs);
  }

  lemma {:induction false} SweptAll(f: Conn, g: Conn, t: Conn)
    requires SweptFrom(f, g, t)
    ensures t == Sweep(f)
  {
    SweptReqs(f, g, t);
    SweptLists(f, g, t);
  }

  /** The parts make up RequestEngine.Abort. */
  lemma AbortParts(s: Conn, a: Conn, t: Conn)
    requires Inv(s) && s.connected && DevicesSwept(s, a) && BgLinked(a) && PendingSwept(Flush(a), t) && t.lock == s.lock == Unheld
    ensures BgLinked(s) && t == Abort(s)
  {
    Members(s.q, s.reqs);
    var s1 := s.(sched := Unlimited(s.sched));
    FlushInv(s1);
    FlushLinked(s1);
    FlushLinked(a);
    FlushAhead(s1, a, s.devs.Keys);
    SweptAll(Flush(s1), Flush(a), t);
  }
}
