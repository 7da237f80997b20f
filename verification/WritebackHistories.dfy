/** Which bytes a WRITE carries, and what the histories of the writeback say, told by the events of the run. */
module WritebackHistories {
  import opened Lists
  import opened Writeback
  import opened WritebackInvariant
  import opened WritebackTheorems

  // ---------------------------------------------------------------- bytes

  /** What fuse_send_writepage makes of request r: it is sent exactly if the connection is up and its first byte lies below
      the crop, and then it carries of its bytes those that do. */
  ghost predicate SentUpTo(s: Inode, id: WriteId, crop: nat, t: Inode)
    requires id in s.reqs
  {
    var r := s.reqs[id];
    if s.connected && r.first * PAGE_SIZE < crop then
      && id in t.reqs && t.reqs[id] == r.(size := t.reqs[id].size, phase := Sent) && 0 < t.reqs[id].size
      && t.writectr == s.writectr + 1
      && forall b: nat :: HasByte(r, b) ==> (CarriesByte(t.reqs[id], b) <==> b < crop)
    else id !in t.reqs && t.writectr == s.writectr
  }

  lemma SentBytes(s: Inode, id: WriteId, crop: nat)
    requires id in s.reqs && s.reqs[id].data != []
    ensures SentUpTo(s, id, crop, SendWritepage(s, id, crop))
  {
  }

  /** A turn of a flush sends the bytes of the first queued request that lie below the file size which its thread sampled,
      all of them and no other. */
  lemma FlushSendsBytes(s: Inode, tid: Thread)
    requires Inv(s) && Enabled(s, EFlush(tid)) && CanFlush(s)
    ensures HeadsOk(s) && s.queued[0] in s.reqs
    ensures SentUpTo(s, s.queued[0], s.flushers[tid], Next(s, EFlush(tid)))
  {
    Heads(s);
    var id := s.queued[0];
    assert ListedAt(s.reqs, s.writepages, s.queued, id) && ChainAt(s.reqs, id);
    SentBytes(Unqueue(s), id, s.flushers[tid]);
  }

  /** A secondary carries the bytes of its page that its primary sent, whatever the file size is by then. */
  lemma EndSendsBytes(s: Inode, c: WriteId)
    requires Inv(s) && HeadsOk(s) && Enabled(s, EEndOne(c))
    ensures SentUpTo(s, s.reqs[c].chain[0], s.reqs[c].first * PAGE_SIZE + s.reqs[c].size, Next(s, EEndOne(c)))
  {
    var n := s.reqs[c].chain[0];
    OneMatch(s.reqs, s.writepages, c, n);
    SentBytes(Unchain(s, c), n, s.reqs[c].first * PAGE_SIZE + s.reqs[c].size);
  }

  // ---------------------------------------------------------------- one section

  /** The section is one that copies page p: into a new request, into one that waits, or onto a chain. */
  ghost predicate Copies(s: Inode, e: Event, p: Page) {
    match e
    case EAddPage(q, _, _) => q == p
    case EWritePage(q, _, _, _) => q == p
    case ENoteInFlight(q, id, _, _) => q == p && exists c :: c in s.writepages && c != id && c in s.reqs && Covers(s.reqs[c], p)
    case _ => false
  }

  ghost function Copied(s: Inode, e: Event, latest: map<Page, Snapshot>): map<Page, Snapshot> {
    if !Enabled(s, e) then latest
    else
      match e
      case EAddPage(p, _, d) => latest[p := d]
      case EWritePage(p, _, d, _) => latest[p := d]
      case ENoteInFlight(p, _, d, _) => if Copies(s, e, p) then latest[p := d] else latest
      case _ => latest
  }

  /** The contents that the server gets with the WRITE that it answers. */
  ghost function Served(s: Inode, e: Event, served: map<Page, Snapshot>): map<Page, Snapshot> {
    if e.EAnswer? && Enabled(s, e) then
      var r := s.reqs[e.id];
      served + map p | r.first <= p < r.first + |r.data| && p * PAGE_SIZE < r.first * PAGE_SIZE + r.size :: r.data[p - r.first]
    else served
  }

  /** The request that the section puts on queued_writes. */
  ghost function Submits(s: Inode, e: Event): seq<WriteId> {
    if !Enabled(s, e) then []
    else
      match e
      case EEnqueue(id, _) => [id]
      case EWritePage(_, id, _, _) => [id]
      case _ => []
  }

  /** The threads in fuse_flush_writepages, with the file size each has sampled on entry. */
  ghost function Sampled(s: Inode, e: Event): map<Thread, nat> {
    if !Enabled(s, e) then s.flushers
    else
      match e
      case EEnqueue(_, tid) => s.flushers[tid := s.size]
      case EWritePage(_, _, _, tid) => s.flushers[tid := s.size]
      case EReleaseNowrite(tid) => s.flushers[tid := s.size]
      case EFlush(tid) => if s.writectr >= 0 && s.queued != [] then s.flushers else s.flushers - {tid}
      case _ => s.flushers
  }

  ghost function BarrierAfter(s: Inode, e: Event): Barrier {
    if !Enabled(s, e) then s.barrier
    else
      match e
      case ESetNowrite => Draining
      case EDrained => Held
      case EReleaseNowrite(_) => Free
      case _ => s.barrier
  }

  ghost predicate Recorded(s: Inode, e: Event, t: Inode) {
    && t.hist.latest == Copied(s, e, s.hist.latest) && t.hist.served == Served(s, e, s.hist.served)
    && t.submitted == s.submitted + Submits(s, e) && t.flushers == Sampled(s, e) && t.barrier == BarrierAfter(s, e)
    && t.size == (if e.ESetSize? then e.n else s.size)
    && t.connected == (s.connected && !e.EDisconnect?)
  }

  lemma NoteCopies(s: Inode, p: Page, id: WriteId, d: Snapshot, race: Race)
    ensures Copies(s, ENoteInFlight(p, id, d, race), p) <==> FindCover(s.reqs, Without(s.writepages, id), p).Some?
  {
    var f := FindCover(s.reqs, Without(s.writepages, id), p);
    if f.Some? { assert f.id in s.writepages && f.id != id; }
  }

  lemma NoteSize(s: Inode, p: Page, id: WriteId, d: Snapshot, race: Race)
    ensures NoteInFlight(s, p, id, d, race).size == s.size
  {
  }

  lemma NoteRecorded(s: Inode, e: Event, t: Inode)
    requires e.ENoteInFlight? && Enabled(s, e) && t.hist.served == s.hist.served && SameQueue(s, t) && t.size == s.size
    requires t.hist.latest == if Copies(s, e, e.p) then s.hist.latest[e.p := e.d] else s.hist.latest
    ensures Recorded(s, e, t)
  {
  }

  lemma NoteStep(s: Inode, e: Event, t: Inode)
    requires e.ENoteInFlight? && Enabled(s, e) && t == NoteInFlight(s, e.p, e.id, e.d, e.race)
    ensures Recorded(s, e, t)
  {
    NoteHist(s, e.p, e.id, e.d, e.race);
    NoteFlight(s, e.p, e.id, e.d, e.race, e.id);
    NoteCopies(s, e.p, e.id, e.d, e.race);
    NoteSize(s, e.p, e.id, e.d, e.race);
    NoteRecorded(s, e, t);
  }

  predicate IsFill(e: Event) { e.ELockPage? || e.EUnlockPage? || e.ENewWrite? || e.ENoteInFlight? || e.EAddPage? || e.EWritePage? }

  lemma PlainFill(s: Inode, e: Event, t: Inode)
    requires HeadsOk(s) && Enabled(s, e) && t == FillStep(s, e) && IsFill(e) && !e.ENoteInFlight?
    ensures Recorded(s, e, t)
  {
  }

  lemma TransmitRecorded(s: Inode, id: WriteId, crop: nat)
    requires id in s.reqs
    ensures
      var t := SendWritepage(s, id, crop);
      && t.hist.latest == s.hist.latest && t.hist.served == s.hist.served && t.submitted == s.submitted && t.flushers == s.flushers
      && t.barrier == s.barrier && t.size == s.size && t.connected == s.connected
  {
  }

  lemma FlushRecorded(s: Inode, tid: Thread)
    requires tid in s.flushers && (s.queued != [] ==> s.queued[0] in s.reqs)
    ensures Recorded(s, EFlush(tid), FlushStep(s, tid))
  {
    if CanFlush(s) { TransmitRecorded(Unqueue(s), s.queued[0], s.flushers[tid]); }
  }

  lemma EndRecorded(s: Inode, c: WriteId)
    requires HeadsOk(s) && Enabled(s, EEndOne(c))
    ensures Recorded(s, EEndOne(c), EndOne(s, c))
  {
    TransmitRecorded(Unchain(s, c), s.reqs[c].chain[0], s.reqs[c].first * PAGE_SIZE + s.reqs[c].size);
  }

  lemma AnswerRecorded(s: Inode, id: WriteId)
    requires Enabled(s, EAnswer(id))
    ensures Recorded(s, EAnswer(id), Answer(s, id))
  {
    assert Answer(s, id).hist.served == Served(s, EAnswer(id), s.hist.served);
  }

  lemma PlainSend(s: Inode, e: Event, t: Inode)
    requires HeadsOk(s) && Enabled(s, e) && t == SendStep(s, e) && (e.EEnqueue? || e.ERead? || e.EFail? || e.EFinish?)
    ensures Recorded(s, e, t)
  {
  }

  lemma SendRecorded(s: Inode, e: Event, t: Inode)
    requires HeadsOk(s) && Enabled(s, e) && t == SendStep(s, e)
    requires e.EEnqueue? || e.EFlush? || e.ERead? || e.EAnswer? || e.EFail? || e.EEndOne? || e.EFinish?
    ensures Recorded(s, e, t)
  {
    if e.EFlush? {
      FlushRecorded(s, e.tid);
    } else if e.EEndOne? {
      EndRecorded(s, e.id);
    } else if e.EAnswer? {
      AnswerRecorded(s, e.id);
    } else {
      PlainSend(s, e, t);
    }
  }

  lemma OtherRecorded(s: Inode, e: Event, t: Inode)
    requires Enabled(s, e) && t == OtherStep(s, e) && (e.ESetNowrite? || e.EDrained? || e.EReleaseNowrite? || e.ESetSize? || e.EDisconnect?)
    ensures Recorded(s, e, t)
  {
  }

  lemma NothingRecorded(s: Inode, e: Event)
    requires !Enabled(s, e)
    ensures Recorded(s, e, s)
  {
  }

  /** What every section records. */
  lemma NextRecorded(s: Inode, e: Event, t: Inode)
    requires HeadsOk(s) && t == Next(s, e)
    ensures Recorded(s, e, t)
  {
    if !Enabled(s, e) {
      NothingRecorded(s, e);
    } else if e.ENoteInFlight? {
      NoteStep(s, e, t);
    } else if IsFill(e) {
      PlainFill(s, e, t);
    } else if e.EEnqueue? || e.EFlush? || e.ERead? || e.EAnswer? || e.EFail? || e.EEndOne? || e.EFinish? {
      SendRecorded(s, e, t);
    } else {
      OtherRecorded(s, e, t);
    }
  }

  // ---------------------------------------------------------------- whole runs

  /** The last contents copied from each page in a run. */
  ghost function LatestIn(s: Inode, es: seq<Event>, latest: map<Page, Snapshot>): map<Page, Snapshot>
    requires Inv(s)
    decreases |es|
  {
    if es == [] then latest
    else
      NextInv(s, es[0]);
      LatestIn(Next(s, es[0]), es[1..], Copied(s, es[0], latest))
  }

  /** The contents of each page in the last WRITE answered for it. */
  ghost function ServedIn(s: Inode, es: seq<Event>, served: map<Page, Snapshot>): map<Page, Snapshot>
    requires Inv(s)
    decreases |es|
  {
    if es == [] then served
    else
      NextInv(s, es[0]);
      ServedIn(Next(s, es[0]), es[1..], Served(s, es[0], served))
  }

  /** The requests put on queued_writes, in order. */
  ghost function SubmittedIn(s: Inode, es: seq<Event>): seq<WriteId>
    requires Inv(s)
    decreases |es|
  {
    if es == [] then []
    else
      NextInv(s, es[0]);
      Submits(s, es[0]) + SubmittedIn(Next(s, es[0]), es[1..])
  }

  lemma {:induction false} LatestRun(s: Inode, es: seq<Event>)
    requires Inv(s)
    ensures Run(s, es).hist.latest == LatestIn(s, es, s.hist.latest)
    decreases |es|
  {
    if es != [] {
      NextInv(s, es[0]);
      var t := Next(s, es[0]);
      assert t.hist.latest == Copied(s, es[0], s.hist.latest) by { NextRecorded(s, es[0], t); }
      LatestRun(t, es[1..]);
    }
  }

  lemma {:induction false} ServedRun(s: Inode, es: seq<Event>)
    requires Inv(s)
    ensures Run(s, es).hist.served == ServedIn(s, es, s.hist.served)
    decreases |es|
  {
    if es != [] {
      NextInv(s, es[0]);
      var t := Next(s, es[0]);
      assert t.hist.served == Served(s, es[0], s.hist.served) by { NextRecorded(s, es[0], t); }
      ServedRun(t, es[1..]);
    }
  }

  lemma {:induction false} Joined(a: seq<WriteId>, b: seq<WriteId>, c: seq<WriteId>, sum: seq<WriteId>)
    requires sum == b + c
    ensures (a + b) + c == a + sum
  {
  }

  lemma {:induction false} SubmittedRun(s: Inode, es: seq<Event>)
    requires Inv(s)
    ensures Run(s, es).submitted == s.submitted + SubmittedIn(s, es)
    decreases |es|
  {
    if es != [] {
      NextInv(s, es[0]);
      var t, mine := Next(s, es[0]), Submits(s, es[0]);
      var rest := SubmittedIn(t, es[1..]);
      assert t.submitted == s.submitted + mine by { NextRecorded(s, es[0], t); }
      assert SubmittedIn(s, es) == mine + rest;
      SubmittedRun(t, es[1..]);
      Joined(s.submitted, mine, rest, SubmittedIn(s, es));
    }
  }

  /** Once a page is not under writeback, what the server has of it is what was last copied from it, unless that was dropped
      or cut off, or a reader outran it: both told by the events alone. And requests leave queued_writes in the order in
      which they were put there. */
  lemma {:induction false} LastCopyServed(es: seq<Event>, p: Page)
    ensures Inv(Idle)
    ensures
      var s, latest, served := Run(Idle, es), LatestIn(Idle, es, map[]), ServedIn(Idle, es, map[]);
      && (p in latest && !IsWriteback(s, p) && p !in s.hist.lost ==> p in served && served[p] == latest[p])
      && SubmittedIn(Idle, es) == s.flushed + s.queued
  {
    LastSnapshotServed(es, p);
    LatestRun(Idle, es);
    ServedRun(Idle, es);
    SubmittedRun(Idle, es);
    NoneStranded(es);
    assert [] + SubmittedIn(Idle, es) == SubmittedIn(Idle, es);
  }

  // ---------------------------------------------------------------- the barrier goes up

  lemma BarrierStays(s: Inode, e: Event, t: Inode)
    requires Inv(s) && s.barrier != Free && !e.EReleaseNowrite? && HeadsOk(s) && t == Next(s, e)
    ensures Inv(t) && t.barrier != Free && t.flushed == s.flushed
  {
    NextInv(s, e);
    NextRecorded(s, e, t);
    SignTellsBias(s);
    if Enabled(s, e) { FillQueue(s, e, 0); }
  }

  /** From fuse_set_nowrite on, and until fuse_release_nowrite, no queued request is sent, and the barrier does not come
      down. */
  lemma {:induction false} NothingFlushed(s: Inode, es: seq<Event>)
    requires Inv(s) && s.barrier != Free && forall i :: 0 <= i < |es| ==> !es[i].EReleaseNowrite?
    ensures Run(s, es).flushed == s.flushed && Run(s, es).barrier != Free
    decreases |es|
  {
    if es != [] {
      NextInv(s, es[0]);
      BarrierStays(s, es[0], Next(s, es[0]));
      NothingFlushed(Next(s, es[0]), es[1..]);
    }
  }

  lemma {:induction false} NowriteStops(s: Inode, es: seq<Event>)
    requires Inv(s) && Enabled(s, ESetNowrite) && forall i :: 0 <= i < |es| ==> !es[i].EReleaseNowrite?
    ensures HeadsOk(s) && Inv(Next(s, ESetNowrite))
    ensures var t := Run(Next(s, ESetNowrite), es); t.flushed == s.flushed && t.barrier != Free && t.writectr < 0
  {
    NextInv(s, ESetNowrite);
    NextRecorded(s, ESetNowrite, Next(s, ESetNowrite));
    NothingFlushed(Next(s, ESetNowrite), es);
    SignTellsBias(Run(Next(s, ESetNowrite), es));
  }
}
