/** In what order userspace reads what waits, over whole runs, and whose waits a signal ends. */
module EngineReads {
  import opened Errno
  import opened Lists
  import opened Pages
  import opened Requests
  import opened RequestQueues
  import opened RequestEngine
  import opened EngineInvariant
  import opened EngineEvolution
  import opened EngineTheorems
  import opened EngineHistories
  import opened EngineOrders

  // ---------------------------------------------------------------- one read

  /** What one read of the device delivers, and what it leaves. */
  ghost predicate Delivered(s: Conn, d: DevId, max: nat, t: Conn) {
    && ((!s.open || (s.interrupts == [] && s.forgets == [] && s.q.pending == [])) <==> t == s)
    && (s.open && s.interrupts != [] ==>
          && t.interrupts == s.interrupts[1..] && t.forgets == s.forgets && t.q == s.q && t.forgetBatch == s.forgetBatch
          && s.interrupts[0] in s.reqs
          && t.reqs == s.reqs[s.interrupts[0] := s.reqs[s.interrupts[0]].(intrUnique := t.reqctr)] && t.reqctr == s.reqctr + 1)
    && (s.open && s.interrupts == [] && s.forgets != [] && (s.q.pending == [] || s.forgetBatch > 0) ==>
          && t.forgets == s.forgets[Min(max, |s.forgets|)..] && t.interrupts == [] && t.q == s.q && t.reqs == s.reqs
          && t.forgetBatch == if s.q.pending == [] then s.forgetBatch else s.forgetBatch - 1)
    && (s.open && s.interrupts == [] && s.q.pending != [] && (s.forgets == [] || s.forgetBatch <= 0) ==>
          && t.forgets == s.forgets && t.interrupts == [] && t.q.pending == s.q.pending[1..]
          && s.q.pending[0] in s.reqs
          && t.reqs == s.reqs[s.q.pending[0] := s.reqs[s.q.pending[0]].(pending := false, on := Nowhere, reader := InHand(d))]
          && t.forgetBatch == if s.forgets == [] then s.forgetBatch else if s.forgetBatch == -7 then 16 else s.forgetBatch - 1)
  }

  lemma InterruptDelivered(s: Conn, d: DevId, max: nat)
    requires ReadNamed(s) && s.open && s.interrupts != [] && NoDup(s.interrupts)
    ensures Delivered(s, d, max, Read(s, d, max))
  {
    TakesInterrupt(s, d, max);
    WithoutHead(s.interrupts);
    var id := s.interrupts[0];
    assert Deliver(s, id).q == s.q;
  }

  lemma RequestDelivered(s: Conn, d: DevId, max: nat)
    requires ReadNamed(s) && TakesRequest(s) && NoDup(s.q.pending) && s.reqs[s.q.pending[0]].on == OnPending
    requires s.forgetBatch >= -7
    ensures Delivered(s, d, max, Read(s, d, max))
  {
    TakesFirstRequest(s, d, max);
    WithoutHead(s.q.pending);
  }

  lemma OtherDelivered(s: Conn, d: DevId, max: nat)
    requires ReadNamed(s) && (s.open ==> s.interrupts == []) && !TakesRequest(s)
    ensures Delivered(s, d, max, Read(s, d, max))
  {
    if TakesForgets(s) { TakesOldestForgets(s, d, max); } else { TakesNothing(s, d, max); }
  }

  /** An interrupt that waits goes first. Forgets that wait alone are read, the oldest ones, and so is a request that
      waits alone; neither touches the counter. While both wait the counter decides. Nothing is read, and nothing changes,
      exactly if nothing waits or the queue is closed. */
  lemma ReadDelivers(s: Conn, d: DevId, max: nat, t: Conn)
    requires Inv(s) && Enabled(s, ERead(d, max)) && t == Next(s, ERead(d, max))
    ensures Delivered(s, d, max, t)
  {
    Members(s.q, s.reqs);
    TakeSections(s, ERead(d, max));
    if s.open && s.interrupts != [] {
      InterruptDelivered(s, d, max);
    } else if TakesRequest(s) {
      RequestDelivered(s, d, max);
    } else {
      OtherDelivered(s, d, max);
    }
  }

  // ---------------------------------------------------------------- forgets

  /** The forgets that a section queues. */
  ghost function Added(s: Conn, e: Event): seq<ForgetOne> { if e.EQueueForget? && s.open then [e.f] else [] }

  /** Those that it reads. */
  ghost function Taken(s: Conn, e: Event): seq<ForgetOne> {
    if e.ERead? && Enabled(s, e) && TakesForgets(s) then s.forgets[..Min(e.max, |s.forgets|)] else []
  }

  /** The forgets that are queued in the run es from s. */
  ghost function QueuedIn(s: Conn, es: seq<Event>): seq<ForgetOne>
    requires Inv(s)
    decreases |es|
  {
    if es == [] then []
    else
      NextInv(s, es[0]);
      Added(s, es[0]) + QueuedIn(Next(s, es[0]), es[1..])
  }

  /** Those that are read in it. */
  ghost function ReadIn(s: Conn, es: seq<Event>): seq<ForgetOne>
    requires Inv(s)
    decreases |es|
  {
    if es == [] then []
    else
      NextInv(s, es[0]);
      Taken(s, es[0]) + ReadIn(Next(s, es[0]), es[1..])
  }

  lemma ForgetsMove(s: Conn, e: Event, t: Conn)
    requires Enabled(s, e) && Ordered(s, e, t) && (t.open ==> !e.EAbortClose?)
    ensures if t.open then s.forgets + Added(s, e) == Taken(s, e) + t.forgets else Taken(s, e) <= s.forgets + Added(s, e)
  {
  }

  lemma CloseClears(s: Conn)
    requires Inv(s) && Enabled(s, EAbortClose)
    ensures !Next(s, EAbortClose).open
  {
    CloseSections(s, EAbortClose);
  }

  /** One section: what was there and what it adds is what it takes and what is left, unless it closes the queue. */
  lemma ForgetStep(s: Conn, e: Event, t: Conn)
    requires Inv(s) && t == Next(s, e)
    ensures Inv(t) && (t.open ==> s.open) && (!s.open ==> s.forgets == [])
    ensures if t.open then s.forgets + Added(s, e) == Taken(s, e) + t.forgets else Taken(s, e) <= s.forgets + Added(s, e)
  {
    NextInv(s, e);
    NextFlags(s, e);
    if Enabled(s, e) {
      NextOrders(s, e, t);
      if e.EAbortClose? { CloseClears(s); }
      ForgetsMove(s, e, t);
    }
  }

  /** A closed queue takes none and gives none. */
  lemma {:induction false} ClosedQueue(s: Conn, es: seq<Event>)
    requires Inv(s) && !s.open
    ensures QueuedIn(s, es) == [] && ReadIn(s, es) == []
    decreases |es|
  {
    if es != [] {
      ForgetStep(s, es[0], Next(s, es[0]));
      ClosedQueue(Next(s, es[0]), es[1..]);
    }
  }

  lemma {:induction false} SameSums(a: seq<ForgetOne>, x: seq<ForgetOne>, taken: seq<ForgetOne>, b: seq<ForgetOne>,
                                    more: seq<ForgetOne>, later: seq<ForgetOne>, c: seq<ForgetOne>)
    requires a + x == taken + b && b + more == later + c
    ensures a + (x + more) == (taken + later) + c
  {
    assert a + (x + more) == (a + x) + more;
    assert (taken + b) + more == taken + (b + more);
    assert taken + (later + c) == (taken + later) + c;
  }

  lemma {:induction false} LongerPrefix(a: seq<ForgetOne>, x: seq<ForgetOne>, taken: seq<ForgetOne>, b: seq<ForgetOne>,
                                        more: seq<ForgetOne>, later: seq<ForgetOne>)
    requires a + x == taken + b && later <= b + more
    ensures taken + later <= a + (x + more)
  {
    SameSums(a, x, taken, b, more, later, (b + more)[|later|..]);
  }

  /** Userspace reads the forgets in the order in which they were queued, each once; and as long as the queue is open none
      is lost: those that waited and those queued since are those read since and those that wait. */
  lemma {:induction false} ForgetsInOrder(s: Conn, es: seq<Event>)
    requires Inv(s)
    ensures Run(s, es).open ==> s.open && s.forgets + QueuedIn(s, es) == ReadIn(s, es) + Run(s, es).forgets
    ensures ReadIn(s, es) <= s.forgets + QueuedIn(s, es)
    decreases |es|
  {
    if es != [] {
      ForgetStep(s, es[0], Next(s, es[0]));
      ForgetsInOrder(Next(s, es[0]), es[1..]);
      ForgetsFrom(s, es, Next(s, es[0]));
    }
  }

  lemma {:induction false} ForgetsFrom(s: Conn, es: seq<Event>, t: Conn)
    requires Inv(s) && es != [] && t == Next(s, es[0]) && Inv(t)
    requires if t.open then s.forgets + Added(s, es[0]) == Taken(s, es[0]) + t.forgets else Taken(s, es[0]) <= s.forgets + Added(s, es[0])
    requires Run(t, es[1..]).open ==> t.open && t.forgets + QueuedIn(t, es[1..]) == ReadIn(t, es[1..]) + Run(t, es[1..]).forgets
    requires ReadIn(t, es[1..]) <= t.forgets + QueuedIn(t, es[1..])
    ensures Run(s, es).open ==> s.forgets + QueuedIn(s, es) == ReadIn(s, es) + Run(s, es).forgets
    ensures ReadIn(s, es) <= s.forgets + QueuedIn(s, es)
  {
    var x, taken, more, later := Added(s, es[0]), Taken(s, es[0]), QueuedIn(t, es[1..]), ReadIn(t, es[1..]);
    if t.open {
      LongerPrefix(s.forgets, x, taken, t.forgets, more, later);
      if Run(t, es[1..]).open { SameSums(s.forgets, x, taken, t.forgets, more, later, Run(t, es[1..]).forgets); }
    } else {
      ClosedQueue(t, es[1..]);
    }
  }

  // ---------------------------------------------------------------- requests

  /** a stands before b in the list. */
  predicate Precedes(list: seq<ReqId>, a: ReqId, b: ReqId) {
    list != [] && ((list[0] == a && b in list[1..]) || Precedes(list[1..], a, b))
  }

  lemma {:induction false} PrecedesByIndex(list: seq<ReqId>, i: nat, j: nat)
    requires i < j < |list|
    ensures Precedes(list, list[i], list[j])
    decreases |list|
  {
    if i > 0 { PrecedesByIndex(list[1..], i - 1, j - 1); } else { assert list[j] == list[1..][j - 1]; }
  }

  lemma {:induction false} PrecedesBoth(list: seq<ReqId>, a: ReqId, b: ReqId)
    requires Precedes(list, a, b)
    ensures a in list && b in list
  {
    if !(list[0] == a && b in list[1..]) { PrecedesBoth(list[1..], a, b); }
  }

  /** The head of a list that holds its elements once stands behind nothing. */
  lemma {:induction false} HeadFirst(list: seq<ReqId>, a: ReqId, b: ReqId)
    requires Precedes(list, a, b) && NoDup(list)
    ensures list[0] != b
  {
    if Precedes(list[1..], a, b) { PrecedesBoth(list[1..], a, b); }
    assert b in list[1..];
  }

  lemma {:induction false} PrecedesInserted(x: seq<ReqId>, id: ReqId, y: seq<ReqId>, a: ReqId, b: ReqId)
    requires Precedes(x + y, a, b)
    ensures Precedes(x + [id] + y, a, b)
    decreases |x|
  {
    if x == [] {
      assert x + y == y && x + [id] + y == [id] + y && ([id] + y)[1..] == y;
    } else {
      assert (x + y)[1..] == x[1..] + y && (x + [id] + y)[1..] == x[1..] + [id] + y;
      if Precedes((x + y)[1..], a, b) { PrecedesInserted(x[1..], id, y, a, b); }
    }
  }

  lemma {:induction false} PrecedesLater(id: ReqId, list: seq<ReqId>, a: ReqId, b: ReqId)
    requires Precedes(list, a, b) || (id == a && b in list)
    ensures Precedes([id] + list, a, b)
  {
    assert ([id] + list)[1..] == list;
  }

  /** One step down the list: the head is a and b comes later, or both come later. */
  lemma {:induction false} PrecedesStep(x: seq<ReqId>, y: seq<ReqId>, a: ReqId, b: ReqId)
    requires x != [] && Precedes(x + y, a, b)
    ensures (x[0] == a && (b in x[1..] || b in y)) || Precedes(x[1..] + y, a, b)
  {
    assert (x + y)[1..] == x[1..] + y;
  }

  lemma {:induction false} WithoutStep(x: seq<ReqId>, id: ReqId)
    requires x != []
    ensures Without(x, id) == if x[0] == id then Without(x[1..], id) else [x[0]] + Without(x[1..], id)
  {
  }

  lemma {:induction false} PrecedesMore(id: ReqId, x: seq<ReqId>, y: seq<ReqId>, a: ReqId, b: ReqId)
    requires Precedes(x + y, a, b) || (id == a && (b in x || b in y))
    ensures Precedes([id] + x + y, a, b)
  {
    PrecedesLater(id, x + y, a, b);
    assert [id] + (x + y) == [id] + x + y;
  }

  lemma {:induction false} PrecedesWithout(x: seq<ReqId>, id: ReqId, y: seq<ReqId>, a: ReqId, b: ReqId)
    requires Precedes(x + y, a, b) && a != id && b != id
    ensures Precedes(Without(x, id) + y, a, b)
    decreases |x|
  {
    if x != [] {
      PrecedesStep(x, y, a, b);
      WithoutStep(x, id);
      if Precedes(x[1..] + y, a, b) { PrecedesWithout(x[1..], id, y, a, b); }
      if x[0] != id { PrecedesMore(x[0], Without(x[1..], id), y, a, b); }
    }
  }

  lemma {:induction false} PrecedesBehind(x: seq<ReqId>, y: seq<ReqId>, a: ReqId, b: ReqId)
    requires Precedes(x + y, a, b) && a !in x
    ensures Precedes(y, a, b)
    decreases |x|
  {
    if x == [] {
      assert x + y == y;
    } else {
      assert (x + y)[1..] == x[1..] + y;
      PrecedesBehind(x[1..], y, a, b);
    }
  }

  /** pending, and behind it bg_queue, which flush_bg_queue moves to the tail of pending. */
  function Line(s: Conn): seq<ReqId> { s.q.pending + s.q.bg }

  predicate Waits(r: Req) { r.on == OnPending || r.on == OnBg }

  /** If a still waits, b has not been read, and waits behind a or not at all. */
  ghost predicate Behind(s: Conn, a: ReqId, b: ReqId) {
    && a in s.reqs && b in s.reqs && a != b
    && (Waits(s.reqs[a]) ==> s.reqs[b].reader == NotRead && (Waits(s.reqs[b]) ==> Precedes(Line(s), a, b)))
  }

  lemma {:induction false} AppendOnce(x: seq<ReqId>, y: seq<ReqId>)
    requires NoDup(x) && NoDup(y) && forall id :: id in x ==> id !in y
    ensures NoDup(x + y)
  {
    forall i, j | 0 <= i < j < |x + y| ensures (x + y)[i] != (x + y)[j] {
      if i < |x| <= j { assert x[i] !in y; }
    }
  }

  lemma LineOnce(s: Conn)
    requires Inv(s)
    ensures NoDup(Line(s)) && forall id :: id in Line(s) <==> id in s.reqs && Waits(s.reqs[id])
  {
    Members(s.q, s.reqs);
    AppendOnce(s.q.pending, s.q.bg);
    forall id ensures id in Line(s) <==> id in s.reqs && Waits(s.reqs[id]) {
      assert On(s.q, OnPending, id) <==> PlaceOf(s.reqs, id) == OnPending;
      assert On(s.q, OnBg, id) <==> PlaceOf(s.reqs, id) == OnBg;
    }
  }

  /** Who still waits has waited, and is not the one that is taken off its list. */
  lemma StillWaits(s: Conn, e: Event, id: ReqId, r: Req)
    requires id in s.reqs && Enabled(s, e) && Lives(s, e, id, r) && Waits(r)
    requires s.reqs[id].waiter == Killable ==> (s.reqs[id].pending <==> Waits(s.reqs[id]))
    ensures Flushes(s, e, id) || (r.on == s.reqs[id].on && !Reads(s, e, id) && !(e.EKill? && e.id == id))
    ensures e.EAbortClose? ==> r.on == OnBg
  {
    assert r.on == PlaceAfter(s, e, id);
  }

  lemma KilledWaits(s: Conn, id: ReqId)
    requires Inv(s) && id in s.reqs && s.reqs[id].waiter == Killable
    ensures s.reqs[id].pending <==> Waits(s.reqs[id])
  {
    At(s, id);
  }

  lemma {:induction false} PrecedesAppended(x: seq<ReqId>, y: seq<ReqId>, id: ReqId, a: ReqId, b: ReqId)
    requires Precedes(x + y, a, b)
    ensures Precedes(x + (y + [id]), a, b)
  {
    assert x + y + [] == x + y && x + y + [id] + [] == x + (y + [id]);
    PrecedesInserted(x + y, id, [], a, b);
  }

  predicate IsAdd(e: Event) { e.ESendForeground? || e.ESendNotify? || e.ESendBackground? || e.EFlushTurn? }

  lemma LineGrows(s: Conn, e: Event, a: ReqId, b: ReqId)
    requires IsAdd(e) && Precedes(Line(s), a, b)
    ensures Precedes(PendingAfter(s, e) + BgAfter(s, e), a, b)
  {
    var p, g := s.q.pending, s.q.bg;
    if e.EFlushTurn? {
      if FlushesOne(s) { assert p + [g[0]] + g[1..] == p + g; }
    } else if e.ESendBackground? {
      PrecedesAppended(p, g, e.id, a, b);
    } else {
      PrecedesInserted(p, e.id, g, a, b);
    }
  }

  lemma {:induction false} PrecedesTail(x: seq<ReqId>, y: seq<ReqId>, a: ReqId, b: ReqId)
    requires Precedes(x + y, a, b) && x != [] && x[0] != a
    ensures Precedes(x[1..] + y, a, b)
  {
    assert (x + y)[1..] == x[1..] + y;
  }

  lemma LineRead(s: Conn, e: Event, a: ReqId, b: ReqId)
    requires e.ERead? && Precedes(Line(s), a, b) && !Reads(s, e, a)
    ensures Precedes(PendingAfter(s, e) + BgAfter(s, e), a, b)
  {
    if TakesRequest(s) { PrecedesTail(s.q.pending, s.q.bg, a, b); }
  }

  lemma LineKilled(s: Conn, e: Event, a: ReqId, b: ReqId)
    requires e.EKill? && Precedes(Line(s), a, b) && e.id != a && e.id != b
    ensures Precedes(PendingAfter(s, e) + BgAfter(s, e), a, b)
  {
    PrecedesWithout(s.q.pending, e.id, s.q.bg, a, b);
  }

  lemma LineClosed(s: Conn, a: ReqId, b: ReqId)
    requires Precedes(Line(s), a, b) && a !in s.q.pending
    ensures Precedes(PendingAfter(s, EAbortClose) + BgAfter(s, EAbortClose), a, b)
  {
    PrecedesBehind(s.q.pending, s.q.bg, a, b);
    assert [] + s.q.bg == s.q.bg;
  }

  lemma LineStays(s: Conn, e: Event)
    requires !IsAdd(e) && !e.ERead? && !e.EKill? && !e.EAbortClose?
    ensures PendingAfter(s, e) + BgAfter(s, e) == Line(s)
  {
  }

  /** What a section does to the line, if a and b stay in it. */
  lemma LineStep(s: Conn, e: Event, t: Conn, a: ReqId, b: ReqId)
    requires Ordered(s, e, t) && Precedes(Line(s), a, b)
    requires !Reads(s, e, a) && !(e.EKill? && (e.id == a || e.id == b)) && (e.EAbortClose? ==> a !in s.q.pending)
    ensures Precedes(Line(t), a, b)
  {
    if IsAdd(e) {
      LineGrows(s, e, a, b);
    } else if e.ERead? {
      LineRead(s, e, a, b);
    } else if e.EKill? {
      LineKilled(s, e, a, b);
    } else if e.EAbortClose? {
      LineClosed(s, a, b);
    } else {
      LineStays(s, e);
    }
  }

  /** Nobody is read who stands behind one that waits. */
  lemma ReadInTurn(s: Conn, e: Event, a: ReqId, b: ReqId)
    requires Precedes(Line(s), a, b) && NoDup(Line(s))
    ensures !Reads(s, e, b)
  {
    HeadFirst(Line(s), a, b);
  }

  lemma UnreadStays(s: Conn, e: Event, id: ReqId, r: Req)
    requires id in s.reqs && s.reqs[id].reader == NotRead && Enabled(s, e) && Lives(s, e, id, r) && !Reads(s, e, id)
    ensures r.reader == NotRead
  {
  }

  lemma BehindStep(s: Conn, e: Event, t: Conn, a: ReqId, b: ReqId)
    requires Inv(s) && t == Next(s, e) && Behind(s, a, b)
    ensures Inv(t) && Behind(t, a, b)
  {
    NextInv(s, e);
    if Enabled(s, e) {
      NextLives(s, e);
      NextOrders(s, e, t);
      assert LivesAt(s, e, t.reqs, a) && LivesAt(s, e, t.reqs, b);
      if Waits(t.reqs[a]) { BehindStill(s, e, t, a, b); }
    }
  }

  /** Who waits is in the line, and has waited before. */
  lemma WaitsStill(s: Conn, e: Event, id: ReqId, r: Req)
    requires Inv(s) && Enabled(s, e) && id in s.reqs && Lives(s, e, id, r) && Waits(r)
    ensures Waits(s.reqs[id]) && !Reads(s, e, id) && !(e.EKill? && e.id == id) && (e.EAbortClose? ==> id !in s.q.pending)
  {
    Members(s.q, s.reqs);
    if s.reqs[id].waiter == Killable { KilledWaits(s, id); }
    StillWaits(s, e, id, r);
  }

  lemma BehindStill(s: Conn, e: Event, t: Conn, a: ReqId, b: ReqId)
    requires Inv(s) && Enabled(s, e) && Behind(s, a, b) && Ordered(s, e, t)
    requires a in t.reqs && b in t.reqs && Lives(s, e, a, t.reqs[a]) && Lives(s, e, b, t.reqs[b]) && Waits(t.reqs[a])
    ensures Behind(t, a, b)
  {
    WaitsStill(s, e, a, t.reqs[a]);
    assert NoDup(Line(s)) && (Reads(s, e, b) ==> Waits(s.reqs[b])) by { LineOnce(s); ReadWaits(s, e, b); }
    if Waits(s.reqs[b]) { ReadInTurn(s, e, a, b); }
    UnreadStays(s, e, b, t.reqs[b]);
    if Waits(t.reqs[b]) {
      WaitsStill(s, e, b, t.reqs[b]);
      LineStep(s, e, t, a, b);
    }
  }

  lemma ReadWaits(s: Conn, e: Event, id: ReqId)
    requires Inv(s) && id in s.reqs
    ensures Reads(s, e, id) ==> Waits(s.reqs[id])
  {
    Members(s.q, s.reqs);
  }

  lemma {:induction false} BehindRun(s: Conn, es: seq<Event>, a: ReqId, b: ReqId)
    requires Inv(s) && Behind(s, a, b)
    ensures Behind(Run(s, es), a, b)
    decreases |es|
  {
    if es != [] {
      BehindStep(s, es[0], Next(s, es[0]), a, b);
      BehindRun(Next(s, es[0]), es[1..], a, b);
    }
  }

  lemma BehindAtFirst(s: Conn, i: nat, j: nat)
    requires Inv(s) && i < j < |s.q.pending + s.q.bg|
    ensures Behind(s, Line(s)[i], Line(s)[j])
  {
    LineOnce(s);
    PrecedesByIndex(Line(s), i, j);
    assert Line(s)[j] in Line(s) && Line(s)[i] in Line(s);
    At(s, Line(s)[j]);
  }

  /** No request overtakes another: of two that wait on pending, or behind it on bg_queue, userspace does not read the
      second while the first waits, and as long as both wait they stay in that order. */
  lemma {:induction false} NoOvertaking(s: Conn, es: seq<Event>, i: nat, j: nat)
    requires Inv(s) && i < j < |s.q.pending + s.q.bg|
    ensures
      var a, b, t := (s.q.pending + s.q.bg)[i], (s.q.pending + s.q.bg)[j], Run(s, es);
      && a in t.reqs && b in t.reqs
      && (t.reqs[a].on in {OnPending, OnBg} ==>
            && t.reqs[b].reader == NotRead
            && (t.reqs[b].on in {OnPending, OnBg} ==> Precedes(t.q.pending + t.q.bg, a, b)))
  {
    BehindAtFirst(s, i, j);
    BehindRun(s, es, Line(s)[i], Line(s)[j]);
  }
}
