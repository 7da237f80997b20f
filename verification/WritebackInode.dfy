/**
 The writeback fields of an inode, which old/fuse/file.c and old/fuse/dir.c update in place. Each
 method runs its section without interruption and is proved to do what Writeback says of it.
 */
module WritebackInode {
  import opened Lists
  import opened Writeback
  import opened WritebackInvariant
  import opened WritebackTheorems

  /** fuse_writepage_end from its loop on: the chain is sent one by one, then the request is freed. */
  ghost function EndAll(s: Inode, c: WriteId): (t: Inode)
    requires Core(s) && c in s.reqs && s.reqs[c].phase == Ending
    ensures Core(t)
    decreases |s.reqs[c].chain|
  {
    Heads(s);
    if s.reqs[c].chain != [] then
      EndOneCore(s, c, EndOne(s, c));
      EndOneChain(s, c);
      EndAll(EndOne(s, c), c)
    else
      FinishCore(s, c, Finish(s, c));
      Finish(s, c)
  }

  lemma EndOneChain(s: Inode, c: WriteId)
    requires Core(s) && HeadsOk(s) && c in s.reqs && s.reqs[c].phase == Ending && s.reqs[c].chain != []
    ensures var t := EndOne(s, c); c in t.reqs && t.reqs[c] == s.reqs[c].(chain := s.reqs[c].chain[1..])
    ensures var t := EndOne(s, c); t.barrier == s.barrier && t.connected == s.connected
    ensures EndOne(s, c).writectr == s.writectr + if Survives(s, c) then 1 else 0
  {
    OneMatch(s.reqs, s.writepages, c, s.reqs[c].chain[0]);
  }

  /** The next secondary of request c is sent when c ends, not dropped. */
  predicate Survives(s: Inode, c: WriteId)
    requires c in s.reqs && s.reqs[c].chain != [] && s.reqs[c].chain[0] in s.reqs
  {
    s.connected && s.reqs[s.reqs[c].chain[0]].first * PAGE_SIZE < s.reqs[c].first * PAGE_SIZE + s.reqs[c].size
  }

  /** A request whose pages were all carried hands its place in the write counter to its secondaries:
      each of them is sent, so a barrier that waits for zero waits for them too. */
  lemma {:induction false} SecondariesCounted(s: Inode, c: WriteId)
    requires Core(s) && c in s.reqs && s.reqs[c].phase == Ending && s.connected
    requires s.reqs[c].size == |s.reqs[c].data| * PAGE_SIZE
    ensures EndAll(s, c).writectr == s.writectr - 1 + |s.reqs[c].chain|
    ensures c !in EndAll(s, c).reqs
    decreases |s.reqs[c].chain|
  {
    Heads(s);
    if s.reqs[c].chain != [] {
      EndOneCore(s, c, EndOne(s, c));
      EndOneChain(s, c);
      OneMatch(s.reqs, s.writepages, c, s.reqs[c].chain[0]);
      SecondariesCounted(EndOne(s, c), c);
    }
  }

  class FuseInode {
    var reqs: map<WriteId, Write>
    var writepages: seq<WriteId>
    var queuedWrites: seq<WriteId>
    var writectr: int
    var connected: bool
    var size: nat
    ghost var barrier: Barrier
    ghost var fillers: map<Page, Filler>
    ghost var flushers: map<Thread, nat>
    ghost var hist: Hist
    ghost var submitted: seq<WriteId>
    ghost var flushed: seq<WriteId>

    ghost function View(): Inode
      reads this
    {
      Inode(reqs, writepages, queuedWrites, writectr, barrier, connected, size, fillers, flushers, hist, submitted, flushed)
    }

    constructor ()
      ensures View() == Idle && Inv(View())
      ensures reqs == map[] && queuedWrites == [] && writectr == 0 && connected && size == 0
    {
      reqs, writepages, queuedWrites, writectr, connected, size := map[], [], [], 0, true, 0;
      barrier, fillers, flushers, hist, submitted, flushed := Free, map[], map[], Hist(map[], map[], {}), [], [];
      new;
      IdleInv();
    }

    // ------------------------------------------------------------ sending

    /** fuse_send_writepage; false if the request was dropped. */
    method SendWritepage(id: WriteId, crop: nat) returns (sent: bool)
      requires id in reqs && reqs[id].data != []
      modifies this`reqs, this`writepages, this`writectr, this`hist
      ensures View() == Writeback.SendWritepage(old(View()), id, crop)
      ensures sent == (connected && old(reqs[id].first) * PAGE_SIZE < crop)
      ensures sent ==> id in reqs && reqs[id].phase == Sent && 0 < reqs[id].size
      ensures sent ==> forall b: nat :: HasByte(old(reqs[id]), b) ==> (CarriesByte(reqs[id], b) <==> b < crop)
      ensures !sent ==> id !in reqs
    {
      var dataSize := |reqs[id].data| * PAGE_SIZE;
      var offset := reqs[id].first * PAGE_SIZE;
      sent := connected && offset < crop;
      if connected && offset + dataSize <= crop {
        Transmit(id, dataSize);
      } else if connected && offset < crop {
        Transmit(id, crop - offset);
      } else {
        Drop(id);
      }
    }

    method Transmit(id: WriteId, n: nat)
      requires id in reqs
      modifies this`reqs, this`writectr, this`hist
      ensures View() == Writeback.Transmit(old(View()), id, n)
      ensures reqs == old(reqs)[id := old(reqs[id]).(size := n, phase := Sent)]
    {
      hist := Writeback.Transmit(View(), id, n).hist;
      reqs, writectr := reqs[id := reqs[id].(size := n, phase := Sent)], writectr + 1;
    }

    method Drop(id: WriteId)
      requires id in reqs
      modifies this`reqs, this`writepages, this`hist
      ensures View() == Writeback.Drop(old(View()), id) && reqs == old(reqs) - {id}
    {
      hist := Writeback.Drop(View(), id).hist;
      reqs, writepages := reqs - {id}, Without(writepages, id);
    }

    /** list_del_init of the first queued request. */
    method Unqueue() returns (id: WriteId)
      requires queuedWrites != [] && queuedWrites[0] in reqs
      modifies this`reqs, this`queuedWrites, this`flushed
      ensures View() == Writeback.Unqueue(old(View())) && id == old(queuedWrites[0])
    {
      id := queuedWrites[0];
      reqs := reqs[id := reqs[id].(phase := Popped)];
      queuedWrites, flushed := queuedWrites[1..], flushed + [id];
    }

    /** fuse_flush_writepages. */
    method FlushWritepages()
      requires Core(View())
      modifies this`reqs, this`writepages, this`queuedWrites, this`writectr, this`hist, this`flushed
      ensures View() == FlushAll(old(View()), size)
    {
      var crop := size;
      while writectr >= 0 && queuedWrites != []
        invariant Core(View()) && FlushAll(View(), crop) == FlushAll(old(View()), crop)
        decreases |queuedWrites|
      {
        FlushTurn(crop);
      }
    }

    method FlushTurn(crop: nat)
      requires Core(View()) && CanFlush(View())
      modifies this`reqs, this`writepages, this`queuedWrites, this`writectr, this`hist, this`flushed
      ensures Core(View()) && queuedWrites == old(queuedWrites)[1..]
      ensures FlushAll(View(), crop) == FlushAll(old(View()), crop)
    {
      ghost var s := View();
      Heads(s);
      FlushOneCore(s, crop, FlushOne(s, crop));
      UnqueueCore(s, Writeback.Unqueue(s));
      assert ChainAt(Writeback.Unqueue(s).reqs, queuedWrites[0]);
      var id := Unqueue();
      var sent := SendWritepage(id, crop);
      assert View() == FlushOne(s, crop);
    }

    // ------------------------------------------------------------ the end of a WRITE

    /** The next secondary comes off the chain and joins writepages. */
    method Unchain(c: WriteId) returns (n: WriteId)
      requires c in reqs && reqs[c].chain != [] && reqs[c].chain[0] in reqs
      modifies this`reqs, this`writepages
      ensures View() == Writeback.Unchain(old(View()), c) && n == old(reqs[c].chain[0])
    {
      n := reqs[c].chain[0];
      reqs := reqs[c := reqs[c].(chain := reqs[c].chain[1..])][n := reqs[n].(phase := Popped)];
      writepages := [n] + writepages;
    }

    /** fuse_writepage_end of an answered request. */
    method WritepageEnd(c: WriteId)
      requires Core(View()) && c in reqs && reqs[c].phase == Ending
      modifies this`reqs, this`writepages, this`writectr, this`hist
      ensures View() == EndAll(old(View()), c)
    {
      while reqs[c].chain != []
        invariant Core(View()) && c in reqs && reqs[c].phase == Ending
        invariant EndAll(View(), c) == EndAll(old(View()), c)
        decreases |reqs[c].chain|
      {
        EndTurn(c);
      }
      Finish(c);
    }

    /** writectr-- and fuse_writepage_finish. */
    method Finish(c: WriteId)
      requires c in reqs
      modifies this`reqs, this`writepages, this`writectr
      ensures View() == Writeback.Finish(old(View()), c)
    {
      reqs, writepages, writectr := reqs - {c}, Without(writepages, c), writectr - 1;
    }

    method EndTurn(c: WriteId)
      requires Core(View()) && c in reqs && reqs[c].phase == Ending && reqs[c].chain != []
      modifies this`reqs, this`writepages, this`writectr, this`hist
      ensures Core(View()) && c in reqs && reqs[c] == old(reqs[c]).(chain := old(reqs[c].chain)[1..])
      ensures EndAll(View(), c) == EndAll(old(View()), c)
    {
      ghost var s := View();
      Heads(s);
      EndOneCore(s, c, EndOne(s, c));
      EndOneChain(s, c);
      OneMatch(s.reqs, s.writepages, c, reqs[c].chain[0]);
      var crop := reqs[c].first * PAGE_SIZE + reqs[c].size;
      var n := Unchain(c);
      var sent := SendWritepage(n, crop);
      assert View() == EndOne(s, c);
    }

    // ------------------------------------------------------------ a page dirtied again

    /** The search of fuse_writepage_in_flight and of fuse_page_is_writeback. */
    method Find(list: seq<WriteId>, p: Page) returns (f: Find)
      requires forall id :: id in list ==> id in reqs
      ensures f == FindCover(reqs, list, p)
    {
      var i := 0;
      while i < |list|
        invariant 0 <= i <= |list|
        invariant FindCover(reqs, list, p) == FindCover(reqs, list[i..], p)
      {
        assert list[i..][1..] == list[i + 1..];
        var r := reqs[list[i]];
        if r.first <= p && p < r.first + |r.data| { return Some(list[i]); }
        i := i + 1;
      }
      f := None;
    }

    /** The walk down misc.write.next, which keeps the last single-page request for the page. */
    method Match(chain: seq<WriteId>, p: Page) returns (f: Find)
      requires forall id :: id in chain ==> id in reqs
      ensures f == ChainMatch(reqs, chain, p)
    {
      var i := 0;
      f := None;
      while i < |chain|
        invariant 0 <= i <= |chain|
        invariant f == ChainMatch(reqs, chain[..i], p)
      {
        assert chain[..i + 1][..i] == chain[..i];
        if |reqs[chain[i]].data| == 1 && reqs[chain[i]].first == p { f := Some(chain[i]); }
        i := i + 1;
      }
      assert chain[..|chain|] == chain;
    }

    /** fuse_writepage_in_flight for page p with contents d, which the new request id would hold. */
    method NoteInFlight(p: Page, id: WriteId, d: Snapshot) returns (found: bool)
      requires Core(View()) && IsFilling(View(), id) && reqs[id].data == [] && reqs[id].first == p
      modifies this`reqs, this`writepages, this`fillers, this`hist
      ensures View() == Writeback.NoteInFlight(old(View()), p, id, d, InTime)
      ensures found == old(IsWriteback(View(), p))
    {
      ghost var s := View();
      EmptyCovers(s, id, p);
      forall x | x in writepages ensures x in reqs { assert ListedAt(s.reqs, s.writepages, s.queued, x); }
      var rest := Without(writepages, id);
      var f := Find(rest, p);
      found := f.Some?;
      if !found {
        writepages, fillers := [id] + rest, fillers[p := NotFound];
      } else {
        forall x | x in reqs[f.id].chain ensures x in reqs { OneMatch(s.reqs, s.writepages, f.id, x); }
        var m := Match(reqs[f.id].chain, p);
        var prev := if m.Some? then m.id else f.id;
        if |reqs[prev].data| == 1 && Pending(reqs[prev]) {
          Overwrite(p, id, prev, d);
        } else {
          if m.Some? { OneMatch(s.reqs, s.writepages, f.id, m.id); }
          Attach(p, id, f.id, d);
        }
      }
    }

    method Overwrite(p: Page, id: WriteId, prev: WriteId, d: Snapshot)
      requires prev in reqs
      modifies this`reqs, this`writepages, this`fillers, this`hist
      ensures View() == Writeback.Overwrite(old(View()), p, id, prev, d)
    {
      hist, fillers := Snap(hist, p, d), fillers - {p};
      reqs, writepages := reqs[prev := reqs[prev].(data := [d])] - {id}, Without(writepages, id);
    }

    method Attach(p: Page, id: WriteId, c: WriteId, d: Snapshot)
      requires c in reqs
      modifies this`reqs, this`writepages, this`fillers, this`hist
      ensures View() == Writeback.Attach(old(View()), p, id, c, [id] + old(reqs[c].chain), d)
    {
      hist, fillers := Snap(hist, p, d), fillers - {p};
      var chain := [id] + reqs[c].chain;
      reqs, writepages := reqs[c := reqs[c].(chain := chain)][id := Write(p, [d], 0, Secondary, [])], Without(writepages, id);
    }

    // ------------------------------------------------------------ the barrier

    /** fuse_set_nowrite, up to its wait. */
    method SetNowrite()
      requires Core(View()) && barrier == Free
      modifies this`writectr, this`barrier
      ensures old(writectr) >= 0 && View() == Writeback.SetNowrite(old(View()))
      ensures writectr == old(writectr) + FUSE_NOWRITE < 0 && barrier == Draining
    {
      SignTellsBias(View());
      writectr, barrier := writectr + FUSE_NOWRITE, Draining;
      SignTellsBias(View());
    }

    /** __fuse_release_nowrite: the bias goes, and every queued request with it, in order. */
    method ReleaseNowrite()
      requires Core(View()) && barrier == Held
      modifies this`reqs, this`writepages, this`queuedWrites, this`writectr, this`hist, this`flushed, this`barrier
      ensures old(writectr) == FUSE_NOWRITE
      ensures (ReleaseCore(old(View())); View() == FlushAll(old(View()).(writectr := 0, barrier := Free), size))
      ensures queuedWrites == [] && flushed == old(flushed + queuedWrites) && barrier == Free
    {
      ReleaseCore(View());
      writectr, barrier := 0, Free;
      ReleaseDrains(View(), size);
      ghost var s := View();
      FlushWritepages();
      FlushKeepsBarrier(s, size);
    }
  }

  /** Taking the bias away while the barrier is held. */
  lemma ReleaseCore(s: Inode)
    requires Core(s) && s.barrier == Held
    ensures Core(s.(writectr := 0, barrier := Free))
  {
    FlyingCount(s.reqs);
  }

  lemma {:induction false} FlushKeepsBarrier(s: Inode, crop: nat)
    requires Core(s)
    ensures FlushAll(s, crop).barrier == s.barrier
    decreases |s.queued|
  {
    if CanFlush(s) {
      Heads(s);
      FlushOneCore(s, crop, FlushOne(s, crop));
      FlushOneQueue(s, crop);
      FlushKeepsBarrier(FlushOne(s, crop), crop);
    }
  }
}
