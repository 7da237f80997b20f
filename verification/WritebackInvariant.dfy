/**
 The invariant of the writeback state machine, and the proof that every section keeps it. It says that
 writepages and queued_writes list the requests that they should (ListsOk), that a secondary waits on the
 chain of the first listed request that covers its page and no other does for that page (ChainsOk), that
 only a request which is already answered can be hidden by a newer one (CoversOk), where the last snapshot
 of every page is (PagesOk), what a page lock guarantees (FillersOk), and that the write counter is exact
 (CounterOk). Pages that no section touches are the bulk of the proofs, so that each section has lemmas
 for the page it is about and for the others.
 */
module WritebackInvariant {
  import opened Lists
  import opened Writeback

  // ---------------------------------------------------------------- finding the request of a page

  lemma {:induction false} FindSame(a: map<WriteId, Write>, b: map<WriteId, Write>, list: seq<WriteId>, p: Page)
    requires forall id :: id in list ==> id in a && id in b && (Covers(a[id], p) <==> Covers(b[id], p))
    ensures FindCover(a, list, p) == FindCover(b, list, p)
  {
    if list != [] {
      assert list == [list[0]] + list[1..];
      FindSame(a, b, list[1..], p);
    }
  }

  /** Unlinking a request that is not the first to cover the page. */
  lemma {:induction false} FindWithout(reqs: map<WriteId, Write>, list: seq<WriteId>, id: WriteId, p: Page)
    requires FindCover(reqs, list, p) != Some(id)
    ensures FindCover(reqs, Without(list, id), p) == FindCover(reqs, list, p)
  {
    if list != [] {
      assert list == [list[0]] + list[1..];
      if list[0] == id {
        FindWithout(reqs, list[1..], id, p);
      } else if !(list[0] in reqs && Covers(reqs[list[0]], p)) {
        FindWithout(reqs, list[1..], id, p);
      }
    }
  }

  lemma {:induction false} MatchSame(a: map<WriteId, Write>, b: map<WriteId, Write>, chain: seq<WriteId>, p: Page)
    requires forall id :: id in chain ==> id in a && id in b && a[id].first == b[id].first && |a[id].data| == |b[id].data|
    ensures ChainMatch(a, chain, p) == ChainMatch(b, chain, p)
  {
    if chain != [] {
      assert chain == chain[..|chain| - 1] + [chain[|chain| - 1]];
      MatchSame(a, b, chain[..|chain| - 1], p);
    }
  }

  // ---------------------------------------------------------------- the invariant

  ghost predicate ListedAt(reqs: map<WriteId, Write>, writepages: seq<WriteId>, queued: seq<WriteId>, id: WriteId) {
    && (id in writepages <==> id in reqs && reqs[id].phase != Secondary)
    && (id in queued <==> id in reqs && reqs[id].phase == Queued)
  }

  ghost predicate ListsOk(reqs: map<WriteId, Write>, writepages: seq<WriteId>, queued: seq<WriteId>) {
    NoDup(writepages) && NoDup(queued) && forall id :: ListedAt(reqs, writepages, queued, id)
  }

  ghost predicate WriteOk(r: Write) {
    && (r.phase != Filling ==> r.data != [])
    && (r.phase == Secondary ==> |r.data| == 1 && r.chain == [])
    && (InFlight(r) ==> 0 < r.size <= |r.data| * PAGE_SIZE)
  }

  /** Request x is on the chain of request c: it holds one page, and c is the first request on
      writepages that covers it. */
  ghost predicate LinkAt(reqs: map<WriteId, Write>, list: seq<WriteId>, c: WriteId, x: WriteId) {
    c in reqs && x in reqs[c].chain ==>
      && x in reqs && reqs[x].phase == Secondary && |reqs[x].data| == 1
      && FindCover(reqs, list, reqs[x].first) == Some(c)
  }

  /** The chain of a request holds no page twice. */
  ghost predicate ChainAt(reqs: map<WriteId, Write>, c: WriteId) {
    c in reqs ==>
      && WriteOk(reqs[c]) && NoDup(reqs[c].chain)
      && forall x, y :: x in reqs[c].chain && y in reqs[c].chain && x in reqs && y in reqs && reqs[x].first == reqs[y].first ==> x == y
  }

  /** Only a request that is already answered can be hidden by a newer one that covers the page. */
  ghost predicate CoverAt(reqs: map<WriteId, Write>, list: seq<WriteId>, c: WriteId, p: Page) {
    c in list && c in reqs && Covers(reqs[c], p) ==> FindCover(reqs, list, p) == Some(c) || reqs[c].phase == Ending
  }

  ghost predicate Settled(h: Hist, p: Page)
    requires p in h.latest
  {
    p in h.lost || (p in h.served && h.served[p] == h.latest[p])
  }

  /** Where the last snapshot of a page is that request r covers and no secondary holds. */
  ghost predicate PartOk(r: Write, h: Hist, p: Page)
    requires p in h.latest && Covers(r, p)
  {
    match r.phase
    case Ending => Settled(h, p)
    case Sent => if Carries(r, p) then r.data[p - r.first] == h.latest[p] && p !in h.lost else p in h.lost
    case Read => p in h.lost || (Carries(r, p) && r.data[p - r.first] == h.latest[p])
    case _ => r.data[p - r.first] == h.latest[p] && p !in h.lost
  }

  /** Where the last snapshot of page p is. */
  ghost predicate PageAt(reqs: map<WriteId, Write>, list: seq<WriteId>, h: Hist, p: Page) {
    var f := FindCover(reqs, list, p);
    if p !in h.latest then f.None?
    else if f.None? then Settled(h, p)
    else
      var m := ChainMatch(reqs, reqs[f.id].chain, p);
      if m.Some? then reqs[m.id].data == [h.latest[p]] && p !in h.lost
      else PartOk(reqs[f.id], h, p)
  }

  /** The page lock keeps a page that was found not to be under writeback so. */
  ghost predicate FillerAt(reqs: map<WriteId, Write>, list: seq<WriteId>, fillers: map<Page, Filler>, p: Page) {
    p in fillers && fillers[p] != Tested(true) ==> FindCover(reqs, list, p).None?
  }

  ghost function Flying(reqs: map<WriteId, Write>): set<WriteId> { set id | id in reqs && InFlight(reqs[id]) }

  /** The write counter and the barrier. */
  ghost predicate CounterOk(s: Inode) {
    && s.writectr == |Flying(s.reqs)| + (if s.barrier == Free then 0 else FUSE_NOWRITE)
    && |s.reqs| <= INT_MAX
    && (s.barrier == Held ==> s.writectr == FUSE_NOWRITE)
  }

  ghost predicate QueueOk(s: Inode) {
    s.submitted == s.flushed + s.queued && (CanFlush(s) ==> s.flushers != map[])
  }

  ghost predicate ChainsOk(reqs: map<WriteId, Write>, list: seq<WriteId>) {
    (forall c :: ChainAt(reqs, c)) && forall c, x :: LinkAt(reqs, list, c, x)
  }

  ghost predicate CoversOk(reqs: map<WriteId, Write>, list: seq<WriteId>) {
    forall c, p :: CoverAt(reqs, list, c, p)
  }

  ghost predicate PagesOk(reqs: map<WriteId, Write>, list: seq<WriteId>, h: Hist) {
    forall p :: PageAt(reqs, list, h, p)
  }

  ghost predicate FillersOk(reqs: map<WriteId, Write>, list: seq<WriteId>, fillers: map<Page, Filler>) {
    forall p :: FillerAt(reqs, list, fillers, p)
  }

  /** All but the flush, which may be under way. */
  ghost predicate Core(s: Inode) {
    && ListsOk(s.reqs, s.writepages, s.queued)
    && ChainsOk(s.reqs, s.writepages)
    && CoversOk(s.reqs, s.writepages)
    && PagesOk(s.reqs, s.writepages, s.hist)
    && FillersOk(s.reqs, s.writepages, s.fillers)
    && CounterOk(s)
  }

  ghost predicate Inv(s: Inode) { Core(s) && QueueOk(s) }

  lemma IdleInv()
    ensures Inv(Idle)
  {
    assert Flying(map[]) == {};
  }

  /** The heads that the loops take are requests. */
  lemma Heads(s: Inode)
    requires Core(s)
    ensures HeadsOk(s)
  {
    forall id | id in s.queued ensures id in s.reqs { assert ListedAt(s.reqs, s.writepages, s.queued, id); }
    forall c, x | c in s.reqs && x in s.reqs[c].chain ensures x in s.reqs && x != c {
      assert LinkAt(s.reqs, s.writepages, c, x);
      assert ChainAt(s.reqs, c);
    }
  }

  /** A page has at most one secondary, and it is on the chain of the first request that covers it. */
  lemma {:induction false} OneMatch(reqs: map<WriteId, Write>, list: seq<WriteId>, c: WriteId, x: WriteId)
    requires ChainsOk(reqs, list) && c in reqs && x in reqs[c].chain
    ensures x in reqs && reqs[x].phase == Secondary && |reqs[x].data| == 1
    ensures FindCover(reqs, list, reqs[x].first) == Some(c)
    ensures ChainMatch(reqs, reqs[c].chain, reqs[x].first) == Some(x)
  {
    assert LinkAt(reqs, list, c, x);
    assert ChainAt(reqs, c);
  }

  // ---------------------------------------------------------------- a request changes phase

  /** What a change of request id to r, and of the histories to h', must keep of page p. */
  ghost predicate KeepsPage(reqs: map<WriteId, Write>, list: seq<WriteId>, h: Hist, id: WriteId, r: Write, h': Hist, p: Page)
    requires id in reqs
  {
    var f := FindCover(reqs, list, p);
    p in h.latest ==>
      if f != Some(id) then
        (p in h'.lost <==> p in h.lost) && (p in h'.served <==> p in h.served) && (p in h.served ==> h'.served[p] == h.served[p])
      else if ChainMatch(reqs, reqs[id].chain, p).Some? then p in h'.lost <==> p in h.lost
      else Covers(r, p) && p in h'.latest && PartOk(r, h', p)
  }

  /** The request keeps its pages, their contents and its chain. */
  ghost predicate KeepsWrite(before: Write, after: Write) {
    && after.first == before.first && after.data == before.data && after.chain == before.chain
    && before.phase != Secondary && after.phase != Secondary && WriteOk(after)
    && (before.phase == Ending ==> after.phase == Ending)
  }

  lemma {:induction false} ReplacePage(reqs: map<WriteId, Write>, list: seq<WriteId>, h: Hist, id: WriteId, r: Write, h': Hist, p: Page)
    requires id in reqs && KeepsWrite(reqs[id], r) && h'.latest == h.latest
    requires forall x :: x in list ==> x in reqs
    requires ChainsOk(reqs, list)
    requires PageAt(reqs, list, h, p) && KeepsPage(reqs, list, h, id, r, h', p)
    ensures PageAt(reqs[id := r], list, h', p)
  {
    var reqs' := reqs[id := r];
    FindSame(reqs, reqs', list, p);
    var f := FindCover(reqs, list, p);
    if f.Some? {
      forall x | x in reqs[f.id].chain ensures x in reqs && x != id { OneMatch(reqs, list, f.id, x); }
      MatchSame(reqs, reqs', reqs[f.id].chain, p);
    }
  }

  lemma {:induction false} ReplaceChains(reqs: map<WriteId, Write>, list: seq<WriteId>, id: WriteId, r: Write)
    requires id in reqs && KeepsWrite(reqs[id], r)
    requires forall x :: x in list ==> x in reqs
    requires ChainsOk(reqs, list) && CoversOk(reqs, list)
    ensures ChainsOk(reqs[id := r], list) && CoversOk(reqs[id := r], list)
    ensures forall p :: FindCover(reqs[id := r], list, p) == FindCover(reqs, list, p)
  {
    var reqs' := reqs[id := r];
    forall p ensures FindCover(reqs', list, p) == FindCover(reqs, list, p) { FindSame(reqs, reqs', list, p); }
    forall c ensures ChainAt(reqs', c) {
      assert ChainAt(reqs, c);
      if c in reqs { forall x | x in reqs[c].chain ensures x in reqs { OneMatch(reqs, list, c, x); } }
    }
    forall c, x ensures LinkAt(reqs', list, c, x) { assert LinkAt(reqs, list, c, x); }
    forall c, p ensures CoverAt(reqs', list, c, p) { assert CoverAt(reqs, list, c, p); }
  }

  /** Everything but the counter, when request id changes phase. */
  lemma Replace(s: Inode, id: WriteId, r: Write, t: Inode)
    requires Core(s) && id in s.reqs && KeepsWrite(s.reqs[id], r)
    requires t.reqs == s.reqs[id := r] && t.writepages == s.writepages && t.fillers == s.fillers
    requires NoDup(t.queued) && forall x :: x in t.queued <==> if x == id then r.phase == Queued else x in s.queued
    requires t.hist.latest == s.hist.latest
    requires forall p :: KeepsPage(s.reqs, s.writepages, s.hist, id, r, t.hist, p)
    requires CounterOk(t)
    ensures Core(t)
  {
    forall x ensures ListedAt(t.reqs, t.writepages, t.queued, x) { assert ListedAt(s.reqs, s.writepages, s.queued, x); }
    forall x | x in s.writepages ensures x in s.reqs { assert ListedAt(s.reqs, s.writepages, s.queued, x); }
    ReplaceChains(s.reqs, s.writepages, id, r);
    forall p ensures PageAt(t.reqs, t.writepages, t.hist, p) {
      assert PageAt(s.reqs, s.writepages, s.hist, p);
      assert KeepsPage(s.reqs, s.writepages, s.hist, id, r, t.hist, p);
      ReplacePage(s.reqs, s.writepages, s.hist, id, r, t.hist, p);
    }
    forall p ensures FillerAt(t.reqs, t.writepages, t.fillers, p) { assert FillerAt(s.reqs, s.writepages, s.fillers, p); }
  }

  lemma FlyingReplace(reqs: map<WriteId, Write>, id: WriteId, r: Write)
    requires id in reqs
    ensures |reqs[id := r]| == |reqs|
    ensures |Flying(reqs[id := r])| == |Flying(reqs)| + (if InFlight(r) then 1 else 0) - (if InFlight(reqs[id]) then 1 else 0)
  {
    assert reqs[id := r].Keys == reqs.Keys;
    var rest := Flying(reqs) - {id};
    assert Flying(reqs) == rest + (if InFlight(reqs[id]) then {id} else {});
    assert Flying(reqs[id := r]) == rest + (if InFlight(r) then {id} else {});
  }

  /** What the invariant says of the pages of a request that no newer one can hide. */
  lemma {:induction false} PageOf(s: Inode, id: WriteId, p: Page)
    requires Core(s) && id in s.reqs && s.reqs[id].phase != Secondary && Covers(s.reqs[id], p)
    ensures s.reqs[id].phase != Ending ==> FindCover(s.reqs, s.writepages, p) == Some(id)
    ensures FindCover(s.reqs, s.writepages, p) == Some(id) ==> PageAt(s.reqs, s.writepages, s.hist, p) && p in s.hist.latest
  {
    assert ListedAt(s.reqs, s.writepages, s.queued, id);
    assert CoverAt(s.reqs, s.writepages, id, p);
    assert PageAt(s.reqs, s.writepages, s.hist, p);
  }

  lemma EnqueueCore(s: Inode, id: WriteId, tid: Thread, t: Inode)
    requires Core(s) && IsFilling(s, id) && s.reqs[id].data != [] && t == Enqueue(s, id, tid)
    ensures Core(t)
  {
    var r := s.reqs[id].(phase := Queued);
    assert ListedAt(s.reqs, s.writepages, s.queued, id);
    FlyingReplace(s.reqs, id, r);
    forall p ensures KeepsPage(s.reqs, s.writepages, s.hist, id, r, t.hist, p) {
      if Covers(r, p) { PageOf(s, id, p); }
    }
    Replace(s, id, r, t);
  }

  lemma UnqueueCore(s: Inode, t: Inode)
    requires Core(s) && s.queued != [] && s.queued[0] in s.reqs && t == Unqueue(s)
    ensures Core(t) && t.reqs[s.queued[0]].phase == Popped
  {
    var id := s.queued[0];
    var r := s.reqs[id].(phase := Popped);
    assert ListedAt(s.reqs, s.writepages, s.queued, id);
    assert ChainAt(s.reqs, id);
    FlyingReplace(s.reqs, id, r);
    forall p ensures KeepsPage(s.reqs, s.writepages, s.hist, id, r, t.hist, p) {
      if Covers(r, p) { PageOf(s, id, p); }
    }
    WithoutHead(s.queued);
    Replace(s, id, r, t);
  }

  lemma ReadCore(s: Inode, id: WriteId, t: Inode)
    requires Core(s) && id in s.reqs && s.reqs[id].phase == Sent && t == ReadBy(s, id)
    ensures Core(t)
  {
    var r := s.reqs[id].(phase := Read);
    assert ListedAt(s.reqs, s.writepages, s.queued, id);
    assert ChainAt(s.reqs, id);
    FlyingReplace(s.reqs, id, r);
    forall p ensures KeepsPage(s.reqs, s.writepages, s.hist, id, r, t.hist, p) {
      if Covers(r, p) { PageOf(s, id, p); }
    }
    Replace(s, id, r, t);
  }

  lemma AnswerCore(s: Inode, id: WriteId, t: Inode)
    requires Core(s) && id in s.reqs && s.reqs[id].phase == Read && t == Answer(s, id)
    ensures Core(t)
  {
    var r := s.reqs[id].(phase := Ending);
    assert ListedAt(s.reqs, s.writepages, s.queued, id);
    assert ChainAt(s.reqs, id);
    FlyingReplace(s.reqs, id, r);
    forall p ensures KeepsPage(s.reqs, s.writepages, s.hist, id, r, t.hist, p) {
      if Covers(r, p) { PageOf(s, id, p); }
    }
    Replace(s, id, r, t);
  }

  lemma FailCore(s: Inode, id: WriteId, t: Inode)
    requires Core(s) && id in s.reqs && s.reqs[id].phase in {Sent, Read} && t == Fail(s, id)
    ensures Core(t)
  {
    var r := s.reqs[id].(phase := Ending);
    assert ListedAt(s.reqs, s.writepages, s.queued, id);
    assert ChainAt(s.reqs, id);
    FlyingReplace(s.reqs, id, r);
    forall p ensures KeepsPage(s.reqs, s.writepages, s.hist, id, r, t.hist, p) {
      if Covers(r, p) { PageOf(s, id, p); }
    }
    Replace(s, id, r, t);
  }

  lemma TransmitCore(s: Inode, id: WriteId, size: nat, t: Inode)
    requires Core(s) && id in s.reqs && s.reqs[id].phase == Popped && s.barrier != Held
    requires 0 < size <= |s.reqs[id].data| * PAGE_SIZE && t == Transmit(s, id, size)
    ensures Core(t)
  {
    var r := s.reqs[id].(size := size, phase := Sent);
    assert ListedAt(s.reqs, s.writepages, s.queued, id);
    assert ChainAt(s.reqs, id);
    FlyingReplace(s.reqs, id, r);
    forall p ensures KeepsPage(s.reqs, s.writepages, s.hist, id, r, t.hist, p) {
      if Covers(r, p) { PageOf(s, id, p); }
    }
    Replace(s, id, r, t);
  }

  // ---------------------------------------------------------------- a request is freed

  lemma {:induction false} FindRemoved(reqs: map<WriteId, Write>, list: seq<WriteId>, id: WriteId, p: Page)
    requires FindCover(reqs, list, p) != Some(id)
    requires forall x :: x in list ==> x in reqs
    ensures FindCover(reqs - {id}, Without(list, id), p) == FindCover(reqs, list, p)
  {
    FindWithout(reqs, list, id, p);
    FindSame(reqs, reqs - {id}, Without(list, id), p);
  }

  /** A request that nothing new can be attached to leaves writepages. */
  lemma {:induction false} RemovePage(s: Inode, id: WriteId, h': Hist, p: Page)
    requires Core(s) && id in s.reqs && s.reqs[id].phase in {Popped, Ending}
    requires h'.latest == s.hist.latest && h'.served == s.hist.served
    requires s.hist.lost <= h'.lost && (p in h'.lost ==> p in s.hist.lost || FindCover(s.reqs, s.writepages, p) == Some(id))
    requires p in h'.latest && FindCover(s.reqs, s.writepages, p) == Some(id) ==> Settled(h', p)
    ensures PageAt(s.reqs - {id}, Without(s.writepages, id), h', p)
  {
    assert PageAt(s.reqs, s.writepages, s.hist, p);
    var f := FindCover(s.reqs, s.writepages, p);
    forall x | x in s.writepages ensures x in s.reqs { assert ListedAt(s.reqs, s.writepages, s.queued, x); }
    var reqs', list' := s.reqs - {id}, Without(s.writepages, id);
    if f != Some(id) {
      FindRemoved(s.reqs, s.writepages, id, p);
      if f.Some? {
        forall x | x in s.reqs[f.id].chain ensures x in s.reqs && x != id { OneMatch(s.reqs, s.writepages, f.id, x); }
        MatchSame(s.reqs, reqs', s.reqs[f.id].chain, p);
      }
    } else {
      var e := FindCover(reqs', list', p);
      if e.Some? {
        assert CoverAt(s.reqs, s.writepages, e.id, p);
        var m := ChainMatch(reqs', reqs'[e.id].chain, p);
        if m.Some? { OneMatch(s.reqs, s.writepages, e.id, m.id); }
      }
    }
  }

  lemma {:induction false} RemoveCore(s: Inode, id: WriteId, t: Inode)
    requires Core(s) && id in s.reqs && s.reqs[id].phase in {Popped, Ending}
    requires t.reqs == s.reqs - {id} && t.writepages == Without(s.writepages, id) && t.fillers == s.fillers
    requires t.queued == s.queued
    requires forall p :: PageAt(t.reqs, t.writepages, t.hist, p)
    requires CounterOk(t)
    ensures Core(t)
  {
    forall x ensures ListedAt(t.reqs, t.writepages, t.queued, x) { assert ListedAt(s.reqs, s.writepages, s.queued, x); }
    forall x | x in s.writepages ensures x in s.reqs { assert ListedAt(s.reqs, s.writepages, s.queued, x); }
    forall c ensures ChainAt(t.reqs, c) { assert ChainAt(s.reqs, c); }
    forall c, x ensures LinkAt(t.reqs, t.writepages, c, x) {
      if c in t.reqs && x in t.reqs[c].chain {
        OneMatch(s.reqs, s.writepages, c, x);
        FindRemoved(s.reqs, s.writepages, id, s.reqs[x].first);
      }
    }
    forall c, p ensures CoverAt(t.reqs, t.writepages, c, p) {
      assert CoverAt(s.reqs, s.writepages, c, p);
      if FindCover(s.reqs, s.writepages, p) != Some(id) { FindRemoved(s.reqs, s.writepages, id, p); }
    }
    forall p ensures FillerAt(t.reqs, t.writepages, t.fillers, p) {
      assert FillerAt(s.reqs, s.writepages, s.fillers, p);
      if FindCover(s.reqs, s.writepages, p) != Some(id) { FindRemoved(s.reqs, s.writepages, id, p); }
    }
  }

  lemma FlyingRemove(reqs: map<WriteId, Write>, id: WriteId)
    requires id in reqs
    ensures |reqs - {id}| == |reqs| - 1
    ensures |Flying(reqs - {id})| == |Flying(reqs)| - (if InFlight(reqs[id]) then 1 else 0)
  {
    assert (reqs - {id}).Keys == reqs.Keys - {id};
    assert Flying(reqs - {id}) == Flying(reqs) - {id};
  }

  lemma DropCore(s: Inode, id: WriteId, t: Inode)
    requires Core(s) && id in s.reqs && s.reqs[id].phase == Popped && t == Drop(s, id)
    ensures Core(t)
  {
    FlyingRemove(s.reqs, id);
    forall p ensures PageAt(t.reqs, t.writepages, t.hist, p) {
      if Covers(s.reqs[id], p) { PageOf(s, id, p); }
      RemovePage(s, id, t.hist, p);
    }
    RemoveCore(s, id, t);
  }

  lemma FinishCore(s: Inode, id: WriteId, t: Inode)
    requires Core(s) && id in s.reqs && s.reqs[id].phase == Ending && s.reqs[id].chain == [] && t == Finish(s, id)
    ensures Core(t)
  {
    FlyingRemove(s.reqs, id);
    assert s.barrier != Held by { InFlightNotHeld(s, id); }
    forall p ensures PageAt(t.reqs, t.writepages, t.hist, p) {
      assert PageAt(s.reqs, s.writepages, s.hist, p);
      RemovePage(s, id, t.hist, p);
    }
    RemoveCore(s, id, t);
  }

  /** The barrier is not held while a WRITE is in flight. */
  lemma InFlightNotHeld(s: Inode, id: WriteId)
    requires CounterOk(s) && id in s.reqs && InFlight(s.reqs[id])
    ensures s.barrier != Held && |Flying(s.reqs)| > 0
  {
    assert id in Flying(s.reqs);
  }

  lemma SendCore(s: Inode, id: WriteId, crop: nat, t: Inode)
    requires Core(s) && id in s.reqs && s.reqs[id].phase == Popped && s.barrier != Held
    requires t == SendWritepage(s, id, crop)
    ensures Core(t)
  {
    if s.connected && s.reqs[id].first * PAGE_SIZE < crop {
      assert ChainAt(s.reqs, id);
      TransmitCore(s, id, CroppedSize(s.reqs[id], crop), t);
    } else {
      DropCore(s, id, t);
    }
  }

  lemma FlushOneCore(s: Inode, crop: nat, t: Inode)
    requires Core(s) && CanFlush(s) && s.queued[0] in s.reqs && t == FlushOne(s, crop)
    ensures Core(t)
  {
    FlyingCount(s.reqs);
    UnqueueCore(s, Unqueue(s));
    SendCore(Unqueue(s), s.queued[0], crop, t);
  }

  lemma FlyingCount(reqs: map<WriteId, Write>)
    ensures |Flying(reqs)| <= |reqs|
  {
    SubsetCard(Flying(reqs), reqs.Keys);
  }

  // ---------------------------------------------------------------- a secondary becomes a request

  lemma {:induction false} FindUnchained(s: Inode, c: WriteId, n: WriteId, reqs': map<WriteId, Write>, p: Page)
    requires Core(s) && c in s.reqs && n in s.reqs && s.reqs[n].phase == Secondary && |s.reqs[n].data| == 1
    requires reqs'.Keys == s.reqs.Keys && forall x :: x in s.reqs ==> reqs'[x].first == s.reqs[x].first && reqs'[x].data == s.reqs[x].data
    ensures FindCover(reqs', [n] + s.writepages, p) == if p == s.reqs[n].first then Some(n) else FindCover(s.reqs, s.writepages, p)
  {
    forall x | x in s.writepages ensures x in s.reqs { assert ListedAt(s.reqs, s.writepages, s.queued, x); }
    FindSame(s.reqs, reqs', s.writepages, p);
    assert ([n] + s.writepages)[1..] == s.writepages;
  }

  /** The page of the secondary that came off the chain. */
  lemma UnchainedPage(s: Inode, c: WriteId, t: Inode)
    requires Core(s) && c in s.reqs && s.reqs[c].phase == Ending && s.reqs[c].chain != []
    requires s.reqs[c].chain[0] in s.reqs && t == Unchain(s, c)
    requires FindCover(t.reqs, t.writepages, s.reqs[s.reqs[c].chain[0]].first) == Some(s.reqs[c].chain[0])
    ensures PageAt(t.reqs, t.writepages, t.hist, s.reqs[s.reqs[c].chain[0]].first)
  {
    var n := s.reqs[c].chain[0];
    OneMatch(s.reqs, s.writepages, c, n);
    assert ChainAt(s.reqs, n);
    assert PageAt(s.reqs, s.writepages, s.hist, s.reqs[n].first);
  }

  /** Another page of the request whose chain got shorter. */
  lemma {:induction false} UnchainOwnPage(s: Inode, c: WriteId, t: Inode, p: Page)
    requires Core(s) && c in s.reqs && s.reqs[c].phase == Ending && s.reqs[c].chain != []
    requires s.reqs[c].chain[0] in s.reqs && t == Unchain(s, c)
    requires p != s.reqs[s.reqs[c].chain[0]].first
    requires FindCover(t.reqs, t.writepages, p) == FindCover(s.reqs, s.writepages, p) == Some(c)
    ensures PageAt(t.reqs, t.writepages, t.hist, p)
  {
    var n := s.reqs[c].chain[0];
    OneMatch(s.reqs, s.writepages, c, n);
    assert ChainAt(s.reqs, n);
    assert PageAt(s.reqs, s.writepages, s.hist, p);
    var m, m' := ChainMatch(s.reqs, s.reqs[c].chain, p), ChainMatch(t.reqs, t.reqs[c].chain, p);
    if m'.Some? { OneMatch(s.reqs, s.writepages, c, m'.id); }
    if m.Some? { assert m.id in s.reqs[c].chain[1..]; }
  }

  lemma {:induction false} UnchainOtherPage(s: Inode, c: WriteId, t: Inode, p: Page)
    requires Core(s) && c in s.reqs && s.reqs[c].phase == Ending && s.reqs[c].chain != []
    requires s.reqs[c].chain[0] in s.reqs && t == Unchain(s, c)
    requires FindCover(t.reqs, t.writepages, p) == FindCover(s.reqs, s.writepages, p) != Some(c)
    ensures PageAt(t.reqs, t.writepages, t.hist, p)
  {
    var n := s.reqs[c].chain[0];
    OneMatch(s.reqs, s.writepages, c, n);
    assert ChainAt(s.reqs, n);
    assert PageAt(s.reqs, s.writepages, s.hist, p);
    var f := FindCover(s.reqs, s.writepages, p);
    if f.Some? {
      forall x | x in s.reqs[f.id].chain ensures x in s.reqs && x != c && x != n { OneMatch(s.reqs, s.writepages, f.id, x); }
      assert ListedAt(s.reqs, s.writepages, s.queued, n);
      MatchSame(s.reqs, t.reqs, s.reqs[f.id].chain, p);
    }
  }

  lemma {:induction false} UnchainPage(s: Inode, c: WriteId, t: Inode, p: Page)
    requires Core(s) && c in s.reqs && s.reqs[c].phase == Ending && s.reqs[c].chain != []
    requires s.reqs[c].chain[0] in s.reqs && t == Unchain(s, c)
    requires FindCover(t.reqs, t.writepages, p) == if p == s.reqs[s.reqs[c].chain[0]].first then Some(s.reqs[c].chain[0]) else FindCover(s.reqs, s.writepages, p)
    ensures PageAt(t.reqs, t.writepages, t.hist, p)
  {
    if p == s.reqs[s.reqs[c].chain[0]].first {
      UnchainedPage(s, c, t);
    } else if FindCover(s.reqs, s.writepages, p) == Some(c) {
      UnchainOwnPage(s, c, t, p);
    } else {
      UnchainOtherPage(s, c, t, p);
    }
  }

  lemma UnchainCore(s: Inode, c: WriteId, t: Inode)
    requires Core(s) && c in s.reqs && s.reqs[c].phase == Ending && s.reqs[c].chain != []
    requires s.reqs[c].chain[0] in s.reqs && t == Unchain(s, c)
    ensures Core(t)
  {
    var n := s.reqs[c].chain[0];
    UnchainCounts(s, c, t);
    forall p ensures FindCover(t.reqs, t.writepages, p) == if p == s.reqs[n].first then Some(n) else FindCover(s.reqs, s.writepages, p) {
      OneMatch(s.reqs, s.writepages, c, n);
      assert ChainAt(s.reqs, n) && ListedAt(s.reqs, s.writepages, s.queued, n);
      FindUnchained(s, c, n, t.reqs, p);
    }
    forall x ensures ChainAt(t.reqs, x) { UnchainedChain(s, c, t, x); }
    forall x, y ensures LinkAt(t.reqs, t.writepages, x, y) { UnchainedLink(s, c, t, x, y); }
    UnchainCovers(s, c, t);
    forall p ensures PageAt(t.reqs, t.writepages, t.hist, p) { UnchainPage(s, c, t, p); }
  }

  lemma UnchainCounts(s: Inode, c: WriteId, t: Inode)
    requires Core(s) && c in s.reqs && s.reqs[c].phase == Ending && s.reqs[c].chain != []
    requires s.reqs[c].chain[0] in s.reqs && t == Unchain(s, c)
    ensures ListsOk(t.reqs, t.writepages, t.queued) && CounterOk(t)
  {
    var n := s.reqs[c].chain[0];
    OneMatch(s.reqs, s.writepages, c, n);
    assert ListedAt(s.reqs, s.writepages, s.queued, n);
    var reqs1 := s.reqs[c := s.reqs[c].(chain := s.reqs[c].chain[1..])];
    FlyingReplace(s.reqs, c, reqs1[c]);
    FlyingReplace(reqs1, n, t.reqs[n]);
    forall x ensures ListedAt(t.reqs, t.writepages, t.queued, x) { assert ListedAt(s.reqs, s.writepages, s.queued, x); }
  }

  lemma UnchainCovers(s: Inode, c: WriteId, t: Inode)
    requires Core(s) && c in s.reqs && s.reqs[c].phase == Ending && s.reqs[c].chain != []
    requires s.reqs[c].chain[0] in s.reqs && t == Unchain(s, c)
    requires forall p :: FindCover(t.reqs, t.writepages, p) == if p == s.reqs[s.reqs[c].chain[0]].first then Some(s.reqs[c].chain[0]) else FindCover(s.reqs, s.writepages, p)
    ensures CoversOk(t.reqs, t.writepages) && FillersOk(t.reqs, t.writepages, t.fillers)
  {
    OneMatch(s.reqs, s.writepages, c, s.reqs[c].chain[0]);
    forall x, p ensures CoverAt(t.reqs, t.writepages, x, p) { assert CoverAt(s.reqs, s.writepages, x, p); }
    forall p ensures FillerAt(t.reqs, t.writepages, t.fillers, p) { assert FillerAt(s.reqs, s.writepages, s.fillers, p); }
  }

  lemma UnchainedChain(s: Inode, c: WriteId, t: Inode, x: WriteId)
    requires Core(s) && c in s.reqs && s.reqs[c].phase == Ending && s.reqs[c].chain != []
    requires s.reqs[c].chain[0] in s.reqs && t == Unchain(s, c)
    ensures ChainAt(t.reqs, x)
  {
    assert ChainAt(s.reqs, x);
    assert ChainAt(s.reqs, c);
    OneMatch(s.reqs, s.writepages, c, s.reqs[c].chain[0]);
  }

  lemma UnchainedLink(s: Inode, c: WriteId, t: Inode, x: WriteId, y: WriteId)
    requires Core(s) && c in s.reqs && s.reqs[c].phase == Ending && s.reqs[c].chain != []
    requires s.reqs[c].chain[0] in s.reqs && t == Unchain(s, c)
    requires forall p :: FindCover(t.reqs, t.writepages, p) == if p == s.reqs[s.reqs[c].chain[0]].first then Some(s.reqs[c].chain[0]) else FindCover(s.reqs, s.writepages, p)
    ensures LinkAt(t.reqs, t.writepages, x, y)
  {
    var n := s.reqs[c].chain[0];
    OneMatch(s.reqs, s.writepages, c, n);
    assert ChainAt(s.reqs, n) && ChainAt(s.reqs, c);
    if x in t.reqs && y in t.reqs[x].chain {
      assert y in s.reqs[x].chain;
      OneMatch(s.reqs, s.writepages, x, y);
      assert y != n && y != c;
      assert s.reqs[y].first != s.reqs[n].first;
    }
  }

  lemma EndOneCore(s: Inode, c: WriteId, t: Inode)
    requires Core(s) && c in s.reqs && s.reqs[c].phase == Ending && s.reqs[c].chain != []
    requires s.reqs[c].chain[0] in s.reqs && s.reqs[c].chain[0] != c && t == EndOne(s, c)
    ensures Core(t)
  {
    InFlightNotHeld(s, c);
    UnchainCore(s, c, Unchain(s, c));
    SendCore(Unchain(s, c), s.reqs[c].chain[0], s.reqs[c].first * PAGE_SIZE + s.reqs[c].size, t);
  }

  // ---------------------------------------------------------------- filling

  /** No request changes, but a new one without pages may be there, and every page finds the same. */
  ghost predicate Extends(s: Inode, reqs: map<WriteId, Write>, list: seq<WriteId>, id: WriteId) {
    && (forall x :: x in s.reqs ==> x in reqs && reqs[x] == s.reqs[x])
    && (forall x :: x in reqs ==> x in s.reqs || (x == id && reqs[x] == Write(reqs[x].first, [], 0, Filling, [])))
    && (forall q :: FindCover(reqs, list, q) == FindCover(s.reqs, s.writepages, q))
    && (forall x :: x in list ==> x in s.writepages || x !in s.reqs)
  }

  lemma {:induction false} ExtendsPage(s: Inode, reqs: map<WriteId, Write>, list: seq<WriteId>, id: WriteId, q: Page)
    requires Core(s) && Extends(s, reqs, list, id)
    ensures PageAt(reqs, list, s.hist, q)
  {
    assert PageAt(s.reqs, s.writepages, s.hist, q);
    var f := FindCover(s.reqs, s.writepages, q);
    if f.Some? {
      forall x | x in s.reqs[f.id].chain ensures x in s.reqs { OneMatch(s.reqs, s.writepages, f.id, x); }
      MatchSame(s.reqs, reqs, s.reqs[f.id].chain, q);
    }
  }

  lemma {:induction false} ExtendsChains(s: Inode, reqs: map<WriteId, Write>, list: seq<WriteId>, id: WriteId)
    requires Core(s) && Extends(s, reqs, list, id)
    ensures ChainsOk(reqs, list) && CoversOk(reqs, list) && FillersOk(reqs, list, s.fillers)
  {
    forall c ensures ChainAt(reqs, c) {
      assert ChainAt(s.reqs, c);
      if c in s.reqs { forall x | x in s.reqs[c].chain ensures x in s.reqs { OneMatch(s.reqs, s.writepages, c, x); } }
    }
    forall c, x ensures LinkAt(reqs, list, c, x) {
      assert LinkAt(s.reqs, s.writepages, c, x);
    }
    forall c, q ensures CoverAt(reqs, list, c, q) { assert CoverAt(s.reqs, s.writepages, c, q); }
    forall q ensures FillerAt(reqs, list, s.fillers, q) { assert FillerAt(s.reqs, s.writepages, s.fillers, q); }
  }

  lemma NewWriteCore(s: Inode, p: Page, id: WriteId, t: Inode)
    requires Core(s) && id !in s.reqs && |s.reqs| < INT_MAX && t == NewWrite(s, p, id)
    ensures Core(t)
  {
    assert ListedAt(s.reqs, s.writepages, s.queued, id);
    assert t.reqs.Keys == s.reqs.Keys + {id};
    assert Flying(t.reqs) == Flying(s.reqs);
    forall x ensures ListedAt(t.reqs, t.writepages, t.queued, x) { assert ListedAt(s.reqs, s.writepages, s.queued, x); }
    forall q ensures FindCover(t.reqs, t.writepages, q) == FindCover(s.reqs, s.writepages, q) {
      forall x | x in s.writepages ensures x in s.reqs { assert ListedAt(s.reqs, s.writepages, s.queued, x); }
      FindSame(s.reqs, t.reqs, s.writepages, q);
      assert t.writepages[1..] == s.writepages;
    }
    ExtendsChains(s, t.reqs, t.writepages, id);
    forall q ensures PageAt(t.reqs, t.writepages, t.hist, q) { ExtendsPage(s, t.reqs, t.writepages, id, q); }
  }

  /** A request without pages covers none, wherever it stands on the list. */
  lemma {:induction false} EmptyCovers(s: Inode, id: WriteId, q: Page)
    requires Core(s) && IsFilling(s, id) && s.reqs[id].data == []
    ensures FindCover(s.reqs, Without(s.writepages, id), q) == FindCover(s.reqs, s.writepages, q)
    ensures FindCover(s.reqs, [id] + Without(s.writepages, id), q) == FindCover(s.reqs, s.writepages, q)
    ensures s.reqs[id].chain == []
  {
    FindWithout(s.reqs, s.writepages, id, q);
    assert ([id] + Without(s.writepages, id))[1..] == Without(s.writepages, id);
    if s.reqs[id].chain != [] { OneMatch(s.reqs, s.writepages, id, s.reqs[id].chain[0]); }
  }

  lemma {:induction false} RelinkCore(s: Inode, p: Page, id: WriteId, t: Inode)
    requires Core(s) && IsFilling(s, id) && s.reqs[id].data == [] && FindCover(s.reqs, s.writepages, p).None?
    requires t == s.(writepages := [id] + Without(s.writepages, id), fillers := s.fillers[p := NotFound])
    ensures Core(t)
  {
    assert ListedAt(s.reqs, s.writepages, s.queued, id);
    forall x ensures ListedAt(t.reqs, t.writepages, t.queued, x) { assert ListedAt(s.reqs, s.writepages, s.queued, x); }
    forall q ensures FindCover(t.reqs, t.writepages, q) == FindCover(s.reqs, s.writepages, q) { EmptyCovers(s, id, q); }
    ExtendsChains(s, t.reqs, t.writepages, id);
    forall q ensures PageAt(t.reqs, t.writepages, t.hist, q) { ExtendsPage(s, t.reqs, t.writepages, id, q); }
    forall q ensures FillerAt(t.reqs, t.writepages, t.fillers, q) { assert FillerAt(s.reqs, s.writepages, s.fillers, q); }
  }

  // A page that no request covers becomes part of one.

  lemma {:induction false} FindAdded(s: Inode, p: Page, id: WriteId, d: Snapshot, reqs': map<WriteId, Write>, q: Page)
    requires Core(s) && IsFilling(s, id) && s.reqs[id].first + |s.reqs[id].data| == p
    requires FindCover(s.reqs, s.writepages, p).None? && reqs' == s.reqs[id := s.reqs[id].(data := s.reqs[id].data + [d])]
    ensures FindCover(reqs', s.writepages, q) == if q == p then Some(id) else FindCover(s.reqs, s.writepages, q)
  {
    forall x | x in s.writepages ensures x in s.reqs { assert ListedAt(s.reqs, s.writepages, s.queued, x); }
    assert ListedAt(s.reqs, s.writepages, s.queued, id);
    if q != p { FindSame(s.reqs, reqs', s.writepages, q); }
  }

  lemma {:induction false} AddPageChains(s: Inode, p: Page, id: WriteId, d: Snapshot, reqs': map<WriteId, Write>)
    requires Core(s) && IsFilling(s, id) && s.reqs[id].first + |s.reqs[id].data| == p
    requires FindCover(s.reqs, s.writepages, p).None? && reqs' == s.reqs[id := s.reqs[id].(data := s.reqs[id].data + [d])]
    requires forall q :: FindCover(reqs', s.writepages, q) == if q == p then Some(id) else FindCover(s.reqs, s.writepages, q)
    ensures ChainsOk(reqs', s.writepages) && CoversOk(reqs', s.writepages)
  {
    forall c ensures ChainAt(reqs', c) {
      assert ChainAt(s.reqs, c);
      if c in s.reqs { forall x | x in s.reqs[c].chain ensures x in s.reqs && x != id { OneMatch(s.reqs, s.writepages, c, x); } }
    }
    forall c, x ensures LinkAt(reqs', s.writepages, c, x) { assert LinkAt(s.reqs, s.writepages, c, x); }
    forall c, q ensures CoverAt(reqs', s.writepages, c, q) { assert CoverAt(s.reqs, s.writepages, c, q); }
  }

  lemma {:induction false} AddPageAt(s: Inode, p: Page, id: WriteId, d: Snapshot, t: Inode, q: Page)
    requires Core(s) && IsFilling(s, id) && s.reqs[id].first + |s.reqs[id].data| == p
    requires FindCover(s.reqs, s.writepages, p).None? && t == AddPage(s, p, id, d)
    requires FindCover(t.reqs, s.writepages, q) == if q == p then Some(id) else FindCover(s.reqs, s.writepages, q)
    ensures PageAt(t.reqs, t.writepages, t.hist, q)
  {
    assert PageAt(s.reqs, s.writepages, s.hist, q);
    var f := FindCover(t.reqs, s.writepages, q);
    if f.Some? {
      forall x | x in s.reqs[f.id].chain ensures x in s.reqs && x != id { OneMatch(s.reqs, s.writepages, f.id, x); }
      MatchSame(s.reqs, t.reqs, s.reqs[f.id].chain, q);
      if q == p {
        var m := ChainMatch(s.reqs, s.reqs[id].chain, p);
        if m.Some? { OneMatch(s.reqs, s.writepages, id, m.id); }
      }
    }
  }

  lemma {:induction false} AddPageCore(s: Inode, p: Page, id: WriteId, d: Snapshot, t: Inode)
    requires Core(s) && IsFilling(s, id) && s.reqs[id].first + |s.reqs[id].data| == p
    requires FindCover(s.reqs, s.writepages, p).None? && t == AddPage(s, p, id, d)
    ensures Core(t)
  {
    forall x ensures ListedAt(t.reqs, t.writepages, t.queued, x) { assert ListedAt(s.reqs, s.writepages, s.queued, x); }
    FlyingReplace(s.reqs, id, t.reqs[id]);
    forall q ensures FindCover(t.reqs, s.writepages, q) == if q == p then Some(id) else FindCover(s.reqs, s.writepages, q) {
      FindAdded(s, p, id, d, t.reqs, q);
    }
    AddPageChains(s, p, id, d, t.reqs);
    forall q ensures PageAt(t.reqs, t.writepages, t.hist, q) { AddPageAt(s, p, id, d, t, q); }
    forall q ensures FillerAt(t.reqs, t.writepages, t.fillers, q) { assert FillerAt(s.reqs, s.writepages, s.fillers, q); }
  }

  lemma {:induction false} WritePageCore(s: Inode, p: Page, id: WriteId, d: Snapshot, tid: Thread, t: Inode)
    requires Core(s) && id !in s.reqs && |s.reqs| < INT_MAX && FindCover(s.reqs, s.writepages, p).None?
    requires t == WritePage(s, p, id, d, tid)
    ensures Core(t)
  {
    var s1 := NewWrite(s, p, id);
    NewWriteCore(s, p, id, s1);
    assert FindCover(s1.reqs, s1.writepages, p).None? by {
      forall x | x in s.writepages ensures x in s.reqs { assert ListedAt(s.reqs, s.writepages, s.queued, x); }
      FindSame(s.reqs, s1.reqs, s.writepages, p);
      assert s1.writepages[1..] == s.writepages;
    }
    AddPageCore(s1, p, id, d, AddPage(s1, p, id, d));
    EnqueueCore(AddPage(s1, p, id, d), id, tid, t);
  }

  // A page that a request covers, snapshot again.

  /** The new request gets the page: fuse_writepage_in_flight has found request c. */
  ghost predicate Redirtied(s: Inode, p: Page, id: WriteId, c: WriteId) {
    && Core(s) && IsFilling(s, id) && s.reqs[id].data == [] && s.reqs[id].first == p
    && FindCover(s.reqs, s.writepages, p) == Some(c)
  }

  /** The request whose contents fuse_writepage_in_flight replaces. */
  ghost predicate Replaced(s: Inode, p: Page, c: WriteId, prev: WriteId)
    requires c in s.reqs
  {
    if ChainMatch(s.reqs, s.reqs[c].chain, p).Some? then ChainMatch(s.reqs, s.reqs[c].chain, p) == Some(prev)
    else prev == c && |s.reqs[c].data| == 1 && (Pending(s.reqs[c]) || s.reqs[c].phase == Read)
  }

  /** The page's last snapshot goes into a request that is still pending, or a request that a reader has
      taken misses it. */
  ghost predicate Refills(s: Inode, p: Page, id: WriteId, c: WriteId, prev: WriteId, contents: Snapshot, h: Hist) {
    && Redirtied(s, p, id, c) && Replaced(s, p, c, prev) && prev in s.reqs
    && (|| (Pending(s.reqs[prev]) && h == Snap(s.hist, p, contents))
        || (s.reqs[prev].phase == Read && p in h.latest && h == Miss(s.hist, p, h.latest[p])))
  }

  lemma {:induction false} RefillFind(s: Inode, p: Page, id: WriteId, c: WriteId, prev: WriteId, d: Snapshot, h: Hist, t: Inode, q: Page)
    requires Refills(s, p, id, c, prev, d, h) && t == Refill(s, p, id, prev, d, h)
    ensures FindCover(t.reqs, t.writepages, q) == FindCover(s.reqs, s.writepages, q)
  {
    OnePage(s, p, id, c, prev);
    forall x | x in t.writepages
      ensures x in s.reqs && x in t.reqs && (Covers(s.reqs[x], q) <==> Covers(t.reqs[x], q))
    {
      assert ListedAt(s.reqs, s.writepages, s.queued, x);
    }
    EmptyCovers(s, id, q);
    FindSame(s.reqs, t.reqs, t.writepages, q);
  }

  /** The request whose contents are replaced holds one page. */
  lemma OnePage(s: Inode, p: Page, id: WriteId, c: WriteId, prev: WriteId)
    requires Redirtied(s, p, id, c) && Replaced(s, p, c, prev)
    ensures prev in s.reqs && prev != id && |s.reqs[prev].data| == 1
    ensures s.reqs[prev].phase == Read ==> prev == c && ChainMatch(s.reqs, s.reqs[c].chain, p).None?
  {
    if ChainMatch(s.reqs, s.reqs[c].chain, p).Some? { OneMatch(s.reqs, s.writepages, c, prev); }
  }

  lemma RefillChains(s: Inode, p: Page, id: WriteId, c: WriteId, prev: WriteId, d: Snapshot, h: Hist, t: Inode)
    requires Refills(s, p, id, c, prev, d, h) && t == Refill(s, p, id, prev, d, h)
    requires forall q :: FindCover(t.reqs, t.writepages, q) == FindCover(s.reqs, s.writepages, q)
    ensures ChainsOk(t.reqs, t.writepages)
  {
    forall x ensures ChainAt(t.reqs, x) {
      assert ChainAt(s.reqs, x);
      if x in s.reqs { forall y | y in s.reqs[x].chain ensures y in s.reqs && y != id { OneMatch(s.reqs, s.writepages, x, y); } }
    }
    forall x, y ensures LinkAt(t.reqs, t.writepages, x, y) { assert LinkAt(s.reqs, s.writepages, x, y); }
  }

  lemma RefillCovers(s: Inode, p: Page, id: WriteId, c: WriteId, prev: WriteId, d: Snapshot, h: Hist, t: Inode)
    requires Refills(s, p, id, c, prev, d, h) && t == Refill(s, p, id, prev, d, h)
    requires forall q :: FindCover(t.reqs, t.writepages, q) == FindCover(s.reqs, s.writepages, q)
    ensures CoversOk(t.reqs, t.writepages) && FillersOk(t.reqs, t.writepages, t.fillers)
  {
    forall x, q ensures CoverAt(t.reqs, t.writepages, x, q) { assert CoverAt(s.reqs, s.writepages, x, q); }
    forall q ensures FillerAt(t.reqs, t.writepages, t.fillers, q) { assert FillerAt(s.reqs, s.writepages, s.fillers, q); }
  }

  lemma {:induction false} RefillOther(s: Inode, p: Page, id: WriteId, c: WriteId, prev: WriteId, d: Snapshot, h: Hist, t: Inode, q: Page)
    requires Refills(s, p, id, c, prev, d, h) && t == Refill(s, p, id, prev, d, h)
    requires FindCover(t.reqs, t.writepages, q) == FindCover(s.reqs, s.writepages, q) && q != p
    ensures PageAt(t.reqs, t.writepages, t.hist, q)
  {
    assert PageAt(s.reqs, s.writepages, s.hist, q);
    var f := FindCover(s.reqs, s.writepages, q);
    if f.Some? {
      forall x | x in s.reqs[f.id].chain ensures x in s.reqs && x != id { OneMatch(s.reqs, s.writepages, f.id, x); }
      MatchSame(s.reqs, t.reqs, s.reqs[f.id].chain, q);
      assert t.reqs[f.id] == s.reqs[f.id];
    }
  }

  lemma {:induction false} RefillSame(s: Inode, p: Page, id: WriteId, c: WriteId, prev: WriteId, d: Snapshot, h: Hist, t: Inode)
    requires Refills(s, p, id, c, prev, d, h) && t == Refill(s, p, id, prev, d, h)
    requires FindCover(t.reqs, t.writepages, p) == Some(c)
    ensures PageAt(t.reqs, t.writepages, t.hist, p)
  {
    var m := ChainMatch(s.reqs, s.reqs[c].chain, p);
    assert ChainMatch(t.reqs, t.reqs[c].chain, p) == m by {
      OnePage(s, p, id, c, prev);
      forall x | x in s.reqs[c].chain ensures x in s.reqs && x != id { OneMatch(s.reqs, s.writepages, c, x); }
      MatchSame(s.reqs, t.reqs, s.reqs[c].chain, p);
    }
    if m.Some? { OneMatch(s.reqs, s.writepages, c, prev); } else { RefillPart(s, p, id, c, d, h, t); }
  }

  /** The request that covers the page holds nothing else, and is refilled itself. */
  lemma {:induction false} RefillPart(s: Inode, p: Page, id: WriteId, c: WriteId, d: Snapshot, h: Hist, t: Inode)
    requires Refills(s, p, id, c, c, d, h) && t == Refill(s, p, id, c, d, h)
    requires ChainMatch(s.reqs, s.reqs[c].chain, p).None?
    ensures c in t.reqs && Covers(t.reqs[c], p) && p in h.latest && PartOk(t.reqs[c], h, p)
  {
    OnePage(s, p, id, c, c);
    assert ChainAt(s.reqs, c);
  }

  lemma RefillCore(s: Inode, p: Page, id: WriteId, c: WriteId, prev: WriteId, d: Snapshot, h: Hist, t: Inode)
    requires Refills(s, p, id, c, prev, d, h) && t == Refill(s, p, id, prev, d, h)
    ensures Core(t)
  {
    FlyingReplace(s.reqs, prev, s.reqs[prev].(data := [d]));
    FlyingRemove(s.reqs[prev := s.reqs[prev].(data := [d])], id);
    forall x ensures ListedAt(t.reqs, t.writepages, t.queued, x) { assert ListedAt(s.reqs, s.writepages, s.queued, x); }
    forall q ensures FindCover(t.reqs, t.writepages, q) == FindCover(s.reqs, s.writepages, q) { RefillFind(s, p, id, c, prev, d, h, t, q); }
    RefillChains(s, p, id, c, prev, d, h, t);
    RefillCovers(s, p, id, c, prev, d, h, t);
    forall q ensures PageAt(t.reqs, t.writepages, t.hist, q) {
      if q == p { RefillSame(s, p, id, c, prev, d, h, t); } else { RefillOther(s, p, id, c, prev, d, h, t, q); }
    }
  }

  lemma {:induction false} AttachFind(s: Inode, p: Page, id: WriteId, c: WriteId, d: Snapshot, t: Inode, q: Page)
    requires Redirtied(s, p, id, c) && t == Attach(s, p, id, c, [id] + s.reqs[c].chain, d)
    ensures FindCover(t.reqs, t.writepages, q) == FindCover(s.reqs, s.writepages, q)
  {
    forall x | x in s.writepages ensures x in s.reqs { assert ListedAt(s.reqs, s.writepages, s.queued, x); }
    EmptyCovers(s, id, q);
    FindSame(s.reqs, t.reqs, t.writepages, q);
  }

  lemma AttachLink(s: Inode, p: Page, id: WriteId, c: WriteId, d: Snapshot, t: Inode, x: WriteId, y: WriteId)
    requires Redirtied(s, p, id, c) && t == Attach(s, p, id, c, [id] + s.reqs[c].chain, d)
    requires forall q :: FindCover(t.reqs, t.writepages, q) == FindCover(s.reqs, s.writepages, q)
    ensures LinkAt(t.reqs, t.writepages, x, y)
  {
    if x in s.reqs && y in s.reqs[x].chain { OneMatch(s.reqs, s.writepages, x, y); }
    if x in s.reqs && y in s.reqs[id].chain { OneMatch(s.reqs, s.writepages, id, y); }
  }

  lemma {:induction false} AttachChain(s: Inode, p: Page, id: WriteId, c: WriteId, d: Snapshot, t: Inode)
    requires Redirtied(s, p, id, c) && t == Attach(s, p, id, c, [id] + s.reqs[c].chain, d)
    requires ChainMatch(s.reqs, s.reqs[c].chain, p).None?
    ensures ChainAt(t.reqs, c)
  {
    assert ChainAt(s.reqs, c);
    forall y | y in s.reqs[c].chain ensures y in s.reqs && y != id && s.reqs[y].first != p {
      OneMatch(s.reqs, s.writepages, c, y);
    }
    var chain' := t.reqs[c].chain;
    assert ListedAt(s.reqs, s.writepages, s.queued, c);
    assert c != id && chain' == [id] + s.reqs[c].chain;
    forall x, y | x in chain' && y in chain' && x in t.reqs && y in t.reqs && t.reqs[x].first == t.reqs[y].first ensures x == y {
      assert x == id || x in s.reqs[c].chain;
      assert y == id || y in s.reqs[c].chain;
    }
  }

  lemma AttachOtherChain(s: Inode, p: Page, id: WriteId, c: WriteId, d: Snapshot, t: Inode, x: WriteId)
    requires Redirtied(s, p, id, c) && t == Attach(s, p, id, c, [id] + s.reqs[c].chain, d) && x != c
    ensures ChainAt(t.reqs, x)
  {
    assert ChainAt(s.reqs, x);
  }

  lemma {:induction false} AttachOther(s: Inode, p: Page, id: WriteId, c: WriteId, d: Snapshot, t: Inode, q: Page)
    requires Redirtied(s, p, id, c) && t == Attach(s, p, id, c, [id] + s.reqs[c].chain, d) && q != p
    requires FindCover(t.reqs, t.writepages, q) == FindCover(s.reqs, s.writepages, q)
    ensures PageAt(t.reqs, t.writepages, t.hist, q)
  {
    assert PageAt(s.reqs, s.writepages, s.hist, q);
    var f := FindCover(s.reqs, s.writepages, q);
    if f.Some? {
      forall x | x in s.reqs[f.id].chain ensures x in s.reqs && x != id { OneMatch(s.reqs, s.writepages, f.id, x); }
      MatchSame(s.reqs, t.reqs, s.reqs[f.id].chain, q);
      if f.id == c { MatchPast(t.reqs, id, s.reqs[c].chain, q); }
    }
  }

  /** A new head for another page does not change the search. */
  lemma {:induction false} MatchPast(reqs: map<WriteId, Write>, id: WriteId, chain: seq<WriteId>, q: Page)
    requires id in reqs && reqs[id].first != q
    ensures ChainMatch(reqs, [id] + chain, q) == ChainMatch(reqs, chain, q)
  {
    if chain != [] {
      MatchPast(reqs, id, chain[..|chain| - 1], q);
      assert ([id] + chain)[..|chain|] == [id] + chain[..|chain| - 1];
    } else {
      assert [id] + chain == [id];
      assert [id][..0] == [];
    }
  }

  /** A new head for a page that the rest of the chain does not hold is found. */
  lemma {:induction false} MatchHead(reqs: map<WriteId, Write>, id: WriteId, chain: seq<WriteId>, p: Page)
    requires id in reqs && reqs[id].first == p && |reqs[id].data| == 1
    requires ChainMatch(reqs, chain, p).None?
    ensures ChainMatch(reqs, [id] + chain, p) == Some(id)
  {
    assert ([id] + chain)[0] == id;
    assert id in [id] + chain;
  }

  lemma {:induction false} AttachSame(s: Inode, p: Page, id: WriteId, c: WriteId, d: Snapshot, t: Inode)
    requires Redirtied(s, p, id, c) && t == Attach(s, p, id, c, [id] + s.reqs[c].chain, d)
    requires ChainMatch(s.reqs, s.reqs[c].chain, p).None?
    requires FindCover(t.reqs, t.writepages, p) == Some(c)
    ensures PageAt(t.reqs, t.writepages, t.hist, p)
  {
    forall x | x in s.reqs[c].chain ensures x in s.reqs && x != id && x != c {
      OneMatch(s.reqs, s.writepages, c, x);
      assert ListedAt(s.reqs, s.writepages, s.queued, c);
    }
    MatchSame(s.reqs, t.reqs, s.reqs[c].chain, p);
    MatchHead(t.reqs, id, s.reqs[c].chain, p);
  }

  lemma {:induction false} AttachCore(s: Inode, p: Page, id: WriteId, c: WriteId, d: Snapshot, t: Inode)
    requires Redirtied(s, p, id, c) && t == Attach(s, p, id, c, [id] + s.reqs[c].chain, d)
    requires ChainMatch(s.reqs, s.reqs[c].chain, p).None?
    ensures Core(t)
  {
    var reqs1 := s.reqs[c := s.reqs[c].(chain := [id] + s.reqs[c].chain)];
    FlyingReplace(s.reqs, c, reqs1[c]);
    FlyingReplace(reqs1, id, t.reqs[id]);
    forall x ensures ListedAt(t.reqs, t.writepages, t.queued, x) { assert ListedAt(s.reqs, s.writepages, s.queued, x); }
    forall q ensures FindCover(t.reqs, t.writepages, q) == FindCover(s.reqs, s.writepages, q) { AttachFind(s, p, id, c, d, t, q); }
    forall x ensures ChainAt(t.reqs, x) {
      if x == c { AttachChain(s, p, id, c, d, t); } else { AttachOtherChain(s, p, id, c, d, t, x); }
    }
    forall x, y ensures LinkAt(t.reqs, t.writepages, x, y) { AttachLink(s, p, id, c, d, t, x, y); }
    forall x, q ensures CoverAt(t.reqs, t.writepages, x, q) { assert CoverAt(s.reqs, s.writepages, x, q); }
    forall q ensures PageAt(t.reqs, t.writepages, t.hist, q) {
      if q == p { AttachSame(s, p, id, c, d, t); } else { AttachOther(s, p, id, c, d, t, q); }
    }
    forall q ensures FillerAt(t.reqs, t.writepages, t.fillers, q) { assert FillerAt(s.reqs, s.writepages, s.fillers, q); }
  }

  /** The request is overwritten in time. */
  lemma OverwriteCore(s: Inode, p: Page, id: WriteId, c: WriteId, prev: WriteId, d: Snapshot)
    requires Redirtied(s, p, id, c) && Replaced(s, p, c, prev) && prev in s.reqs && Pending(s.reqs[prev])
    ensures Core(Overwrite(s, p, id, prev, d))
  {
    RefillCore(s, p, id, c, prev, d, Snap(s.hist, p, d), Overwrite(s, p, id, prev, d));
  }

  /** A reader was faster. */
  lemma {:induction false} OverwriteLateCore(s: Inode, p: Page, id: WriteId, c: WriteId, d: Snapshot, carried: Snapshot)
    requires Redirtied(s, p, id, c) && c in s.reqs && |s.reqs[c].data| == 1 && s.reqs[c].phase == Sent
    requires ChainMatch(s.reqs, s.reqs[c].chain, p).None?
    ensures Core(OverwriteLate(s, p, id, c, d, carried))
  {
    var s1 := ReadBy(s, c);
    ReadCore(s, c, s1);
    ReadFinds(s, c, p);
    RefillCore(s1, p, id, c, c, carried, Miss(s.hist, p, d), OverwriteLate(s, p, id, c, d, carried));
  }

  /** Reading a request changes no search. */
  lemma {:induction false} ReadFinds(s: Inode, c: WriteId, p: Page)
    requires Core(s) && c in s.reqs && s.reqs[c].phase == Sent
    ensures var t := ReadBy(s, c);
      && FindCover(t.reqs, t.writepages, p) == FindCover(s.reqs, s.writepages, p)
      && ChainMatch(t.reqs, t.reqs[c].chain, p) == ChainMatch(s.reqs, s.reqs[c].chain, p)
  {
    var t := ReadBy(s, c);
    forall x | x in s.writepages ensures x in s.reqs { assert ListedAt(s.reqs, s.writepages, s.queued, x); }
    FindSame(s.reqs, t.reqs, s.writepages, p);
    forall x | x in s.reqs[c].chain ensures x in s.reqs { OneMatch(s.reqs, s.writepages, c, x); }
    MatchSame(s.reqs, t.reqs, s.reqs[c].chain, p);
  }

  lemma NoteInFlightCore(s: Inode, p: Page, id: WriteId, d: Snapshot, race: Race, t: Inode)
    requires Core(s) && IsFilling(s, id) && s.reqs[id].data == [] && s.reqs[id].first == p
    requires t == NoteInFlight(s, p, id, d, race)
    ensures Core(t)
  {
    EmptyCovers(s, id, p);
    var f := FindCover(s.reqs, s.writepages, p);
    if f.None? {
      RelinkCore(s, p, id, t);
    } else {
      var m := ChainMatch(s.reqs, s.reqs[f.id].chain, p);
      if m.Some? {
        OneMatch(s.reqs, s.writepages, f.id, m.id);
        OverwriteCore(s, p, id, f.id, m.id, d);
      } else if |s.reqs[f.id].data| == 1 && Pending(s.reqs[f.id]) {
        OverwriteCore(s, p, id, f.id, f.id, d);
        if race.Late? && s.reqs[f.id].phase == Sent { OverwriteLateCore(s, p, id, f.id, d, race.carried); }
      } else {
        AttachCore(s, p, id, f.id, d, t);
      }
    }
  }
}
