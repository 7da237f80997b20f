/** What the writeback state machine keeps over every run of filling, sending, answering and truncation. */
module WritebackTheorems {
  import opened Lists
  import opened Writeback
  import opened WritebackInvariant

  // ---------------------------------------------------------------- every section keeps the invariant

  /** The bias outweighs any number of requests, so the sign of writectr tells whether it is there. */
  lemma SignTellsBias(s: Inode)
    requires CounterOk(s)
    ensures s.writectr >= 0 <==> s.barrier == Free
  {
    FlyingCount(s.reqs);
  }

  lemma LockCore(s: Inode, p: Page, fillers: map<Page, Filler>)
    requires Core(s) && (fillers == LockPage(s, p).fillers || fillers == UnlockPage(s, p).fillers)
    ensures Core(s.(fillers := fillers))
  {
    forall q ensures FillerAt(s.reqs, s.writepages, fillers, q) { assert FillerAt(s.reqs, s.writepages, s.fillers, q); }
  }

  lemma FillCore(s: Inode, e: Event)
    requires Core(s) && HeadsOk(s) && Enabled(s, e)
    ensures Core(FillStep(s, e))
  {
    match e
    case ELockPage(p) => LockCore(s, p, LockPage(s, p).fillers);
    case EUnlockPage(p) => LockCore(s, p, UnlockPage(s, p).fillers);
    case ENewWrite(p, id) => NewWriteCore(s, p, id, NewWrite(s, p, id));
    case ENoteInFlight(p, id, d, race) => NoteInFlightCore(s, p, id, d, race, NoteInFlight(s, p, id, d, race));
    case EAddPage(p, id, d) => Uncovered(s, p); AddPageCore(s, p, id, d, AddPage(s, p, id, d));
    case EWritePage(p, id, d, tid) => Uncovered(s, p); WritePageCore(s, p, id, d, tid, WritePage(s, p, id, d, tid));
    case _ =>
  }

  lemma {:induction false} Uncovered(s: Inode, p: Page)
    requires Core(s) && p in s.fillers && s.fillers[p] != Tested(true)
    ensures FindCover(s.reqs, s.writepages, p).None?
  {
    assert FillerAt(s.reqs, s.writepages, s.fillers, p);
  }

  /** Nothing of the queue and of the barrier changes. */
  ghost predicate SameQueue(s: Inode, t: Inode) {
    && t.writectr == s.writectr && t.barrier == s.barrier && t.connected == s.connected && t.flushed == s.flushed
    && t.queued == s.queued && t.submitted == s.submitted && t.flushers == s.flushers
  }

  /** Request id is in flight as before, except perhaps for its contents. */
  ghost predicate SameFlight(s: Inode, t: Inode, id: WriteId) {
    id in t.reqs && InFlight(t.reqs[id]) ==>
      && id in s.reqs && InFlight(s.reqs[id]) && t.reqs[id].first == s.reqs[id].first && t.reqs[id].size == s.reqs[id].size
      && |t.reqs[id].data| == |s.reqs[id].data|
  }

  /** A reader takes the request that fuse_writepage_in_flight is about to overwrite: it covers the page
      alone, no secondary holds the page, and it is still pending when it is tested. */
  ghost predicate Outrun(s: Inode, p: Page, id: WriteId, race: Race) {
    var f := FindCover(s.reqs, Without(s.writepages, id), p);
    && race.Late? && f.Some? && |s.reqs[f.id].data| == 1 && s.reqs[f.id].phase == Sent
    && ChainMatch(s.reqs, s.reqs[f.id].chain, p).None?
  }

  lemma RefillFlight(s: Inode, p: Page, id: WriteId, prev: WriteId, d: Snapshot, h: Hist, x: WriteId)
    requires prev in s.reqs && |s.reqs[prev].data| == 1
    ensures SameQueue(s, Refill(s, p, id, prev, d, h)) && SameFlight(s, Refill(s, p, id, prev, d, h), x)
  {
  }

  lemma {:induction false} AttachFlight(s: Inode, p: Page, id: WriteId, c: WriteId, chain: seq<WriteId>, d: Snapshot, x: WriteId)
    requires c in s.reqs
    ensures SameQueue(s, Attach(s, p, id, c, chain, d)) && SameFlight(s, Attach(s, p, id, c, chain, d), x)
  {
  }

  lemma NoteFlight(s: Inode, p: Page, id: WriteId, d: Snapshot, race: Race, x: WriteId)
    ensures SameQueue(s, NoteInFlight(s, p, id, d, race)) && SameFlight(s, NoteInFlight(s, p, id, d, race), x)
  {
    var f := FindCover(s.reqs, Without(s.writepages, id), p);
    if f.Some? {
      var c := f.id;
      var m := ChainMatch(s.reqs, s.reqs[c].chain, p);
      if m.Some? {
        RefillFlight(s, p, id, m.id, d, Snap(s.hist, p, d), x);
        AttachFlight(s, p, id, c, InsertAfter(s.reqs[c].chain, m.id, id), d, x);
      } else {
        if |s.reqs[c].data| == 1 {
          RefillFlight(s, p, id, c, d, Snap(s.hist, p, d), x);
          if race.Late? { RefillFlight(ReadBy(s, c), p, id, c, race.carried, Miss(s.hist, p, d), x); }
        }
        AttachFlight(s, p, id, c, [id] + s.reqs[c].chain, d, x);
      }
    }
  }

  /** Exactly when redirtying a page loses its contents: a reader outruns the overwrite. Nothing else is
      lost by it. */
  lemma NoteLoses(s: Inode, p: Page, id: WriteId, d: Snapshot, race: Race, q: Page)
    requires q !in s.hist.lost
    ensures q in NoteInFlight(s, p, id, d, race).hist.lost <==> q == p && Outrun(s, p, id, race)
  {
    NoteHist(s, p, id, d, race);
  }

  lemma NoteHist(s: Inode, p: Page, id: WriteId, d: Snapshot, race: Race)
    ensures var h := NoteInFlight(s, p, id, d, race).hist;
      if FindCover(s.reqs, Without(s.writepages, id), p).None? then h == s.hist
      else if Outrun(s, p, id, race) then h == Miss(s.hist, p, d)
      else h == Snap(s.hist, p, d)
  {
  }

  /** Filling changes no request in flight; only fuse_writepage_locked queues its request at once. */
  lemma FillQueue(s: Inode, e: Event, x: WriteId)
    requires HeadsOk(s) && Enabled(s, e)
    ensures SameFlight(s, FillStep(s, e), x)
    ensures !e.EWritePage? ==> SameQueue(s, FillStep(s, e))
    ensures e.EWritePage? ==>
      var t := FillStep(s, e);
      && t.queued == s.queued + [e.id] && t.submitted == s.submitted + [e.id] && e.tid in t.flushers
      && t.writectr == s.writectr && t.barrier == s.barrier && t.connected == s.connected && t.flushed == s.flushed
  {
    if e.ENoteInFlight? { NoteFlight(s, e.p, e.id, e.d, e.race, x); }
  }

  /** Filling loses nothing unless a reader outruns it. */
  lemma FillKeeps(s: Inode, e: Event, q: Page)
    requires HeadsOk(s) && Enabled(s, e) && q !in s.hist.lost
    requires e.ENoteInFlight? ==> !Outrun(s, e.p, e.id, e.race)
    ensures q !in FillStep(s, e).hist.lost
  {
    if e.ENoteInFlight? { NoteLoses(s, e.p, e.id, e.d, e.race, q); }
  }

  lemma FillInv(s: Inode, e: Event)
    requires Inv(s) && HeadsOk(s) && Enabled(s, e)
    ensures Inv(FillStep(s, e))
  {
    FillCore(s, e);
    FillQueue(s, e, 0);
  }

  lemma FlushStepInv(s: Inode, tid: Thread)
    requires Inv(s) && HeadsOk(s) && tid in s.flushers
    ensures Inv(FlushStep(s, tid))
  {
    if CanFlush(s) { FlushOneCore(s, s.flushers[tid], FlushOne(s, s.flushers[tid])); }
  }

  lemma EnqueueInv(s: Inode, id: WriteId, tid: Thread)
    requires Inv(s) && HeadsOk(s) && Enabled(s, EEnqueue(id, tid))
    ensures Inv(Enqueue(s, id, tid))
  {
    var t := Enqueue(s, id, tid);
    EnqueueCore(s, id, tid, t);
    assert tid in t.flushers;
  }

  lemma AnswerInv(s: Inode, id: WriteId)
    requires Inv(s) && id in s.reqs
    ensures s.reqs[id].phase == Read ==> Inv(Answer(s, id))
    ensures s.reqs[id].phase in {Sent, Read} ==> Inv(Fail(s, id))
    ensures s.reqs[id].phase == Sent ==> Inv(ReadBy(s, id))
  {
    if s.reqs[id].phase == Read { AnswerCore(s, id, Answer(s, id)); }
    if s.reqs[id].phase in {Sent, Read} { FailCore(s, id, Fail(s, id)); }
    if s.reqs[id].phase == Sent { ReadCore(s, id, ReadBy(s, id)); }
  }

  lemma EndOneInv(s: Inode, id: WriteId)
    requires Inv(s) && HeadsOk(s) && Enabled(s, EEndOne(id))
    ensures Inv(EndOne(s, id))
  {
    var t := EndOne(s, id);
    EndOneCore(s, id, t);
    SignTellsBias(s);
    SignTellsBias(t);
  }

  lemma FinishInv(s: Inode, id: WriteId)
    requires Inv(s) && Enabled(s, EFinish(id))
    ensures Inv(Finish(s, id))
  {
    FinishCore(s, id, Finish(s, id));
  }

  lemma SendInv(s: Inode, e: Event)
    requires Inv(s) && HeadsOk(s) && Enabled(s, e)
    ensures Inv(SendStep(s, e))
  {
    match e
    case EEnqueue(id, tid) => EnqueueInv(s, id, tid);
    case EFlush(tid) => FlushStepInv(s, tid);
    case ERead(id) => AnswerInv(s, id);
    case EAnswer(id) => AnswerInv(s, id);
    case EFail(id) => AnswerInv(s, id);
    case EEndOne(id) => EndOneInv(s, id);
    case EFinish(id) => FinishInv(s, id);
    case _ =>
  }

  lemma OtherInv(s: Inode, e: Event)
    requires Inv(s) && Enabled(s, e)
    ensures Inv(OtherStep(s, e))
  {
    FlyingCount(s.reqs);
    var t := OtherStep(s, e);
    if e.EReleaseNowrite? { assert e.tid in t.flushers; }
  }

  lemma NextInv(s: Inode, e: Event)
    requires Inv(s)
    ensures HeadsOk(s) && Inv(Next(s, e))
  {
    Heads(s);
    if Enabled(s, e) {
      FillInv(s, e);
      SendInv(s, e);
      OtherInv(s, e);
    }
  }

  /** The state after any sequence of sections. */
  ghost function Run(s: Inode, es: seq<Event>): (t: Inode)
    requires Inv(s)
    ensures Inv(t)
    decreases |es|
  {
    if es == [] then s
    else
      NextInv(s, es[0]);
      Run(Next(s, es[0]), es[1..])
  }

  lemma {:induction false} RunThen(s: Inode, es: seq<Event>, e: Event)
    requires Inv(s)
    ensures HeadsOk(Run(s, es)) && Run(s, es + [e]) == Next(Run(s, es), e)
    decreases |es|
  {
    if es == [] {
      NextInv(s, e);
      assert [] + [e] == [e] && [e][1..] == [];
      assert Run(s, [e]) == Run(Next(s, e), []);
    } else {
      NextInv(s, es[0]);
      RunThen(Next(s, es[0]), es[1..], e);
      assert (es + [e])[1..] == es[1..] + [e];
    }
  }

  // ---------------------------------------------------------------- ordering

  /** The request has been sent and its WRITE is not answered. */
  predicate Unanswered(r: Write) { r.phase == Sent || r.phase == Read }

  /** At most one unanswered WRITE covers a page, at any point of any run. */
  lemma {:induction false} OneUnansweredWrite(es: seq<Event>, c: WriteId, c': WriteId, p: Page)
    ensures Inv(Idle)
    ensures var s := Run(Idle, es);
      c in s.reqs && c' in s.reqs && Unanswered(s.reqs[c]) && Unanswered(s.reqs[c']) && Covers(s.reqs[c], p) && Covers(s.reqs[c'], p)
      ==> c == c'
  {
    IdleInv();
    var s := Run(Idle, es);
    if c in s.reqs && c' in s.reqs && Unanswered(s.reqs[c]) && Unanswered(s.reqs[c']) && Covers(s.reqs[c], p) && Covers(s.reqs[c'], p) {
      PageOf(s, c, p);
      PageOf(s, c', p);
    }
  }

  /** The chains hold at most one secondary per page between them, and it waits on the first request
      that covers its page. */
  lemma {:induction false} OneSecondary(es: seq<Event>, c: WriteId, x: WriteId, c': WriteId, y: WriteId)
    ensures Inv(Idle)
    ensures var s := Run(Idle, es);
      c in s.reqs && c' in s.reqs && x in s.reqs[c].chain && y in s.reqs[c'].chain ==>
        && x in s.reqs && y in s.reqs && |s.reqs[x].data| == 1 && Covers(s.reqs[c], s.reqs[x].first)
        && (s.reqs[x].first == s.reqs[y].first ==> c == c' && x == y)
  {
    IdleInv();
    var s := Run(Idle, es);
    if c in s.reqs && c' in s.reqs && x in s.reqs[c].chain && y in s.reqs[c'].chain {
      OneMatch(s.reqs, s.writepages, c, x);
      OneMatch(s.reqs, s.writepages, c', y);
    }
  }

  /** Once a page is not under writeback, the last WRITE answered for it carried its last snapshot,
      unless that snapshot was dropped or cut off, or a reader outran it. */
  lemma {:induction false} LastSnapshotServed(es: seq<Event>, p: Page)
    ensures Inv(Idle)
    ensures var s := Run(Idle, es);
      p in s.hist.latest && !IsWriteback(s, p) && p !in s.hist.lost ==> p in s.hist.served && s.hist.served[p] == s.hist.latest[p]
  {
    IdleInv();
    var s := Run(Idle, es);
    assert PageAt(s.reqs, s.writepages, s.hist, p);
  }

  /** Exactly when a turn of the flush loop loses the last snapshot of a page: the request at the head
      of the queue covers it, and the connection is down, or the page lies beyond the crop and either
      the whole request does or no secondary holds the page. */
  lemma {:induction false} FlushLoses(s: Inode, tid: Thread, p: Page)
    requires Inv(s) && tid in s.flushers && CanFlush(s) && p !in s.hist.lost
    ensures HeadsOk(s)
    ensures var r := s.reqs[s.queued[0]];
      p in FlushStep(s, tid).hist.lost <==>
        Covers(r, p) && (!s.connected ||
          (s.flushers[tid] <= p * PAGE_SIZE && (s.flushers[tid] <= r.first * PAGE_SIZE || ChainMatch(s.reqs, r.chain, p).None?)))
  {
    Heads(s);
    var id := s.queued[0];
    var crop := s.flushers[tid];
    var s1 := Unqueue(s);
    var r := s1.reqs[id];
    assert ListedAt(s.reqs, s.writepages, s.queued, id);
    forall x | x in r.chain ensures x in s.reqs { OneMatch(s.reqs, s.writepages, id, x); }
    MatchSame(s.reqs, s1.reqs, r.chain, p);
    MatchSame(s.reqs, s1.reqs[id := r.(size := CroppedSize(r, crop), phase := Sent)], r.chain, p);
    assert ChainAt(s.reqs, id);
    if s.connected && r.first * PAGE_SIZE < crop {
      CropCarries(r, crop, p);
    }
  }

  /** A page of a cut request is carried exactly if it starts below the crop. */
  lemma CropCarries(r: Write, crop: nat, p: Page)
    requires r.data != [] && r.first * PAGE_SIZE < crop
    ensures 0 < CroppedSize(r, crop) <= |r.data| * PAGE_SIZE
    ensures Carries(r.(size := CroppedSize(r, crop)), p) <==> Covers(r, p) && p * PAGE_SIZE < crop
  {
  }

  /** Exactly when the loop of fuse_writepage_end loses the last snapshot of a page: its next secondary
      holds it, and the connection is down or the page lies beyond what the ended request sent. */
  lemma EndOneLoses(s: Inode, c: WriteId, p: Page)
    requires Inv(s) && HeadsOk(s) && Enabled(s, EEndOne(c)) && p !in s.hist.lost
    ensures p in EndOne(s, c).hist.lost <==>
      p == s.reqs[s.reqs[c].chain[0]].first && (!s.connected || s.reqs[c].first * PAGE_SIZE + s.reqs[c].size <= p * PAGE_SIZE)
  {
    var n := s.reqs[c].chain[0];
    OneMatch(s.reqs, s.writepages, c, n);
    assert s.reqs[n].chain == [] by { assert ChainAt(s.reqs, n); }
    SendLoses(Unchain(s, c), n, s.reqs[c].first * PAGE_SIZE + s.reqs[c].size, p);
  }

  /** What fuse_send_writepage loses of a request without a chain. */
  lemma SendLoses(s: Inode, id: WriteId, crop: nat, p: Page)
    requires id in s.reqs && s.reqs[id].chain == [] && s.reqs[id].data != [] && p !in s.hist.lost
    ensures p in SendWritepage(s, id, crop).hist.lost <==> Covers(s.reqs[id], p) && (!s.connected || crop <= p * PAGE_SIZE)
  {
    var r := s.reqs[id];
    if s.connected && r.first * PAGE_SIZE < crop { CropCarries(r, crop, p); }
  }

  /** Every WRITE in flight carries all its pages. */
  ghost predicate Whole(s: Inode) {
    s.connected && s.hist.lost == {} && forall id, p :: id in s.reqs && InFlight(s.reqs[id]) && Covers(s.reqs[id], p) ==> Carries(s.reqs[id], p)
  }

  /** The connection stays up, no reader outruns an overwrite, and a flush finds the file at least as long
      as the request at its head needs: longer than where the request's last page starts. */
  ghost predicate Uncut(s: Inode, e: Event) {
    match e
    case EFail(_) => false
    case EDisconnect => false
    case ENoteInFlight(p, id, _, race) => !Outrun(s, p, id, race)
    case EFlush(tid) =>
      tid in s.flushers && CanFlush(s) && s.queued[0] in s.reqs ==>
        var r := s.reqs[s.queued[0]]; (r.first + |r.data| - 1) * PAGE_SIZE < s.flushers[tid]
    case _ => true
  }

  lemma SendWhole(s: Inode, id: WriteId, crop: nat)
    requires Whole(s) && id in s.reqs && s.reqs[id].data != [] && (s.reqs[id].first + |s.reqs[id].data| - 1) * PAGE_SIZE < crop
    ensures Whole(SendWritepage(s, id, crop))
  {
    var r := s.reqs[id].(size := CroppedSize(s.reqs[id], crop), phase := Sent);
    forall p | Covers(r, p) ensures Carries(r, p) { CropCarries(s.reqs[id], crop, p); }
    assert (set p | p in OwnPages(s.reqs, r) && !Carries(r, p)) == {};
  }

  lemma FlushWhole(s: Inode, tid: Thread)
    requires Inv(s) && HeadsOk(s) && Whole(s) && Uncut(s, EFlush(tid)) && tid in s.flushers
    ensures Whole(FlushStep(s, tid))
  {
    if CanFlush(s) {
      assert ListedAt(s.reqs, s.writepages, s.queued, s.queued[0]);
      assert ChainAt(s.reqs, s.queued[0]);
      SendWhole(Unqueue(s), s.queued[0], s.flushers[tid]);
    }
  }

  lemma EndOneWhole(s: Inode, c: WriteId)
    requires Inv(s) && HeadsOk(s) && Whole(s) && Enabled(s, EEndOne(c))
    ensures Whole(EndOne(s, c))
  {
    var n := s.reqs[c].chain[0];
    OneMatch(s.reqs, s.writepages, c, n);
    assert Carries(s.reqs[c], s.reqs[n].first);
    UnchainWhole(s, c);
    SendWhole(Unchain(s, c), n, s.reqs[c].first * PAGE_SIZE + s.reqs[c].size);
  }

  lemma UnchainWhole(s: Inode, c: WriteId)
    requires Inv(s) && HeadsOk(s) && Whole(s) && Enabled(s, EEndOne(c))
    ensures Whole(Unchain(s, c))
  {
    var t := Unchain(s, c);
    forall id, p | id in t.reqs && InFlight(t.reqs[id]) && Covers(t.reqs[id], p) ensures Carries(t.reqs[id], p) {
      assert Carries(s.reqs[id], p);
    }
  }

  lemma FillWhole(s: Inode, e: Event)
    requires HeadsOk(s) && Whole(s) && Enabled(s, e) && Uncut(s, e)
    ensures Whole(FillStep(s, e))
  {
    var t := FillStep(s, e);
    FillQueue(s, e, 0);
    forall q ensures q !in t.hist.lost { FillKeeps(s, e, q); }
    forall id, p | id in t.reqs && InFlight(t.reqs[id]) && Covers(t.reqs[id], p) ensures Carries(t.reqs[id], p) {
      FillQueue(s, e, id);
      assert Carries(s.reqs[id], p);
    }
  }

  lemma SendStepWhole(s: Inode, e: Event)
    requires Inv(s) && HeadsOk(s) && Whole(s) && Enabled(s, e) && Uncut(s, e)
    ensures Whole(SendStep(s, e))
  {
    if e.EFlush? { FlushWhole(s, e.tid); }
    else if e.EEndOne? { EndOneWhole(s, e.id); }
    else {
      var t := SendStep(s, e);
      forall id, p | id in t.reqs && InFlight(t.reqs[id]) && Covers(t.reqs[id], p) ensures Carries(t.reqs[id], p) {
        assert Carries(s.reqs[id], p);
      }
    }
  }

  lemma NextWhole(s: Inode, e: Event)
    requires Inv(s) && HeadsOk(s) && Whole(s) && Uncut(s, e)
    ensures Whole(Next(s, e))
  {
    if Enabled(s, e) {
      SendStepWhole(s, e);
      FillWhole(s, e);
    }
  }

  /** No step of the run cuts anything. */
  ghost predicate UncutRun(s: Inode, es: seq<Event>)
    requires Inv(s)
    decreases |es|
  {
    es == [] || (Uncut(s, es[0]) && (NextInv(s, es[0]); UncutRun(Next(s, es[0]), es[1..])))
  }

  lemma {:induction false} RunWhole(s: Inode, es: seq<Event>)
    requires Inv(s) && Whole(s) && UncutRun(s, es)
    ensures Whole(Run(s, es))
    decreases |es|
  {
    if es != [] {
      NextInv(s, es[0]);
      NextWhole(s, es[0]);
      RunWhole(Next(s, es[0]), es[1..]);
    }
  }

  /** While the connection is up, no flush finds the file cut and no reader outruns an overwrite, nothing
      is lost: every page that is not under writeback was last written with its last snapshot. */
  lemma {:induction false} NothingLost(es: seq<Event>, p: Page)
    requires (IdleInv(); UncutRun(Idle, es))
    ensures Inv(Idle)
    ensures var s := Run(Idle, es);
      p in s.hist.latest && !IsWriteback(s, p) ==> p in s.hist.served && s.hist.served[p] == s.hist.latest[p]
  {
    RunWhole(Idle, es);
    LastSnapshotServed(es, p);
  }

  // ---------------------------------------------------------------- the nowrite barrier

  /** The write counter is exact, so neither BUG_ON of old/fuse/dir.c can fire. */
  lemma {:induction false} CounterExact(es: seq<Event>)
    ensures Inv(Idle)
    ensures var s := Run(Idle, es);
      && s.writectr == |set id | id in s.reqs && InFlight(s.reqs[id])| + (if s.barrier == Free then 0 else FUSE_NOWRITE)
      && (s.barrier == Free ==> s.writectr >= 0)
      && (s.barrier == Held ==> s.writectr == FUSE_NOWRITE)
  {
    IdleInv();
    var s := Run(Idle, es);
    assert Flying(s.reqs) == set id | id in s.reqs && InFlight(s.reqs[id]);
  }

  /** When fuse_set_nowrite returns, nothing is in flight and no chain waits for an answer; until
      fuse_release_nowrite that stays so, whatever the other threads do. */
  lemma {:induction false} NoneWhileHeld(s: Inode, es: seq<Event>, id: WriteId)
    requires Inv(s) && s.barrier == Held
    requires forall i :: 0 <= i < |es| ==> !es[i].EReleaseNowrite?
    ensures Run(s, es).barrier == Held
    ensures id in Run(s, es).reqs ==> !InFlight(Run(s, es).reqs[id])
    ensures Run(s, es).flushed == s.flushed && s.queued <= Run(s, es).queued
    decreases |es|
  {
    if es == [] {
      if id in s.reqs && InFlight(s.reqs[id]) { InFlightNotHeld(s, id); }
    } else {
      NextInv(s, es[0]);
      HeldStays(s, es[0]);
      NoneWhileHeld(Next(s, es[0]), es[1..], id);
    }
  }

  /** The barrier and the queue, while the barrier is held. */
  ghost predicate HeldFrom(s: Inode, t: Inode) { t.barrier == Held && t.flushed == s.flushed && s.queued <= t.queued }

  lemma HeldSend(s: Inode, e: Event)
    requires Inv(s) && HeadsOk(s) && s.barrier == Held && Enabled(s, e)
    ensures HeldFrom(s, SendStep(s, e))
  {
    SignTellsBias(s);
    if e.EEndOne? { InFlightNotHeld(s, e.id); }
  }

  lemma HeldStays(s: Inode, e: Event)
    requires Inv(s) && HeadsOk(s) && s.barrier == Held && !e.EReleaseNowrite?
    ensures HeldFrom(s, Next(s, e))
  {
    if Enabled(s, e) {
      HeldSend(s, e);
      FillQueue(s, e, 0);
    }
  }

  /** The flush that fuse_release_nowrite starts, run to its end by one thread. */
  ghost function FlushAll(s: Inode, crop: nat): (t: Inode)
    requires Core(s)
    ensures Core(t)
    decreases |s.queued|
  {
    if CanFlush(s) then
      Heads(s);
      FlushOneCore(s, crop, FlushOne(s, crop));
      FlushAll(FlushOne(s, crop), crop)
    else s
  }

  lemma FlushOneQueue(s: Inode, crop: nat)
    requires s.queued != [] && s.queued[0] in s.reqs
    ensures var t := FlushOne(s, crop); t.queued == s.queued[1..] && t.flushed == s.flushed + [s.queued[0]] && t.barrier == s.barrier
  {
  }

  /** One turn of the loop, which runs while anything is queued. */
  lemma FlushAllStep(s: Inode, crop: nat)
    requires Core(s) && s.barrier == Free
    ensures s.queued == [] ==> FlushAll(s, crop) == s
    ensures s.queued != [] ==> CanFlush(s) && s.queued[0] in s.reqs
    ensures s.queued != [] ==> Core(FlushOne(s, crop)) && FlushAll(s, crop) == FlushAll(FlushOne(s, crop), crop)
  {
    SignTellsBias(s);
    Heads(s);
    if s.queued != [] { FlushOneCore(s, crop, FlushOne(s, crop)); }
  }

  /** Release drains queued_writes in the order in which the requests were queued, and between flushes
      nothing is left on it. */
  lemma {:induction false} ReleaseDrains(s: Inode, crop: nat)
    requires Core(s) && s.barrier == Free
    ensures FlushAll(s, crop).queued == []
    ensures FlushAll(s, crop).flushed == s.flushed + s.queued
    decreases |s.queued|
  {
    FlushAllStep(s, crop);
    if s.queued != [] {
      FlushOneQueue(s, crop);
      ReleaseDrains(FlushOne(s, crop), crop);
      assert s.queued == [s.queued[0]] + s.queued[1..];
    }
  }

  /** No queued request is forgotten: while the barrier is down, a request waits on queued_writes only
      if a thread is in fuse_flush_writepages; and requests leave it in the order they joined it. */
  lemma {:induction false} NoneStranded(es: seq<Event>)
    ensures Inv(Idle)
    ensures var s := Run(Idle, es);
      (s.barrier == Free && s.queued != [] ==> s.flushers != map[]) && s.submitted == s.flushed + s.queued
  {
    IdleInv();
    SignTellsBias(Run(Idle, es));
  }

  // ---------------------------------------------------------------- the chain of a dropped request

  /** A secondary that no chain holds: nothing will send it or free it. */
  ghost predicate Leaked(s: Inode, x: WriteId) {
    x in s.reqs && s.reqs[x].phase == Secondary && forall c :: c in s.reqs ==> x !in s.reqs[c].chain
  }

  /** When the crop drops a queued request whole, its chain is not walked: every secondary on it is
      leaked, and those are all that the step leaks. */
  lemma DropLeaks(s: Inode, tid: Thread, x: WriteId)
    requires Inv(s) && tid in s.flushers && CanFlush(s) && !Leaked(s, x)
    ensures HeadsOk(s)
    ensures Leaked(FlushStep(s, tid), x) <==>
      && (!s.connected || s.flushers[tid] <= s.reqs[s.queued[0]].first * PAGE_SIZE)
      && x in s.reqs[s.queued[0]].chain
  {
    Heads(s);
    assert ListedAt(s.reqs, s.writepages, s.queued, s.queued[0]);
    if s.connected && s.reqs[s.queued[0]].first * PAGE_SIZE < s.flushers[tid] {
      SentKeepsChains(s, tid, x);
    } else {
      DropLosesChain(s, tid, x);
    }
  }

  lemma SentKeepsChains(s: Inode, tid: Thread, x: WriteId)
    requires HeadsOk(s) && tid in s.flushers && CanFlush(s) && !Leaked(s, x)
    requires s.connected && s.reqs[s.queued[0]].first * PAGE_SIZE < s.flushers[tid]
    ensures !Leaked(FlushStep(s, tid), x)
  {
    var t := FlushStep(s, tid);
    if Leaked(t, x) {
      forall c | c in s.reqs ensures x !in s.reqs[c].chain { assert c in t.reqs && t.reqs[c].chain == s.reqs[c].chain; }
    }
  }

  lemma DropLosesChain(s: Inode, tid: Thread, x: WriteId)
    requires Inv(s) && HeadsOk(s) && tid in s.flushers && CanFlush(s) && !Leaked(s, x)
    requires !s.connected || s.flushers[tid] <= s.reqs[s.queued[0]].first * PAGE_SIZE
    ensures Leaked(FlushStep(s, tid), x) <==> x in s.reqs[s.queued[0]].chain
  {
    var id := s.queued[0];
    var t := FlushStep(s, tid);
    assert t.reqs == Unqueue(s).reqs - {id};
    assert ListedAt(s.reqs, s.writepages, s.queued, id);
    if x in s.reqs[id].chain {
      OneMatch(s.reqs, s.writepages, id, x);
      forall c | c in t.reqs ensures x !in t.reqs[c].chain {
        if x in s.reqs[c].chain { OneMatch(s.reqs, s.writepages, c, x); }
      }
    } else if Leaked(t, x) {
      forall c | c in s.reqs ensures x !in s.reqs[c].chain { assert c == id || (c in t.reqs && t.reqs[c] == s.reqs[c]); }
    }
  }
}
