/** A run that loses the last contents of a page without any error. */
module WritebackRace {
  import opened Lists
  import opened Writeback
  import opened WritebackInvariant
  import opened WritebackTheorems

  ghost predicate ReachedBy(s: Inode, es: seq<Event>) { IdleInv(); s == Run(Idle, es) }

  /** A state that a run from an idle inode reaches. */
  ghost predicate Reached(s: Inode) { exists es :: ReachedBy(s, es) }

  lemma Start()
    ensures Reached(Idle)
  {
    IdleInv();
    assert ReachedBy(Idle, []);
  }

  ghost predicate Step(s: Inode, e: Event, t: Inode) { HeadsOk(s) && t == Next(s, e) }

  lemma Go(s: Inode, e: Event, t: Inode)
    requires Reached(s) && Step(s, e, t)
    ensures Reached(t)
  {
    IdleInv();
    var es :| ReachedBy(s, es);
    RunThen(Idle, es, e);
    assert ReachedBy(t, es + [e]);
  }

  /** Thread 0 has queued request 1, for page 0, and perhaps sent it. */
  ghost function After(w: Write, h: Hist): Inode {
    Inode(map[1 := w], [1], [], 1, Free, true, PAGE_SIZE, map[], map[0 := PAGE_SIZE], h, [1], [1])
  }

  const QUEUED := Write(0, [7], 0, Queued, [])

  const SENT := Write(0, [7], PAGE_SIZE, Sent, [])

  const BEFORE := Hist(map[0 := 7], map[], {})

  const MISSED := Hist(map[0 := 8], map[], {0})

  ghost function Waiting(): Inode { After(QUEUED, BEFORE).(queued := [1], flushed := [], writectr := 0) }

  /** The page is dirtied again, and request 2 made for it. */
  ghost function Redirtied(): Inode {
    After(SENT, BEFORE).(reqs := map[1 := SENT, 2 := Write(0, [], 0, Filling, [])], writepages := [2, 1], fillers := map[0 := Tested(true)])
  }

  ghost function Locked(s: Inode, f: Filler): Inode { s.(fillers := map[0 := f]) }

  const SIZED := Idle.(size := PAGE_SIZE)

  lemma Queues()
    ensures Reached(Waiting())
  {
    Start();
    assert Step(Idle, ESetSize(PAGE_SIZE), SIZED);
    Go(Idle, ESetSize(PAGE_SIZE), SIZED);
    LockFree();
    Go(SIZED, ELockPage(0), Locked(SIZED, Tested(false)));
    Writes();
    Go(Locked(SIZED, Tested(false)), EWritePage(0, 1, 7, 0), Waiting());
  }

  lemma LockFree()
    ensures Step(SIZED, ELockPage(0), Locked(SIZED, Tested(false)))
  {
  }

  lemma Writes()
    ensures Step(Locked(SIZED, Tested(false)), EWritePage(0, 1, 7, 0), Waiting())
  {
    var s := NewWrite(Locked(SIZED, Tested(false)), 0, 1);
    assert s.writepages == [1] && s.reqs == map[1 := Write(0, [], 0, Filling, [])];
    var t := AddPage(s, 0, 1, 7);
    assert [] + [7] == [7] && t.reqs == map[1 := Write(0, [7], 0, Filling, [])];
    assert Enqueue(t, 1, 0) == Waiting();
  }

  lemma Sends()
    ensures Step(Waiting(), EFlush(0), After(SENT, BEFORE))
  {
    assert (set p | p in OwnPages(map[1 := SENT], SENT) && !Carries(SENT, p)) == {};
    assert FlushOne(Waiting(), PAGE_SIZE) == After(SENT, BEFORE);
  }

  lemma LockWriteback()
    ensures Step(After(SENT, BEFORE), ELockPage(0), Locked(After(SENT, BEFORE), Tested(true)))
  {
  }

  lemma Renews()
    ensures Step(Locked(After(SENT, BEFORE), Tested(true)), ENewWrite(0, 2), Redirtied())
  {
    assert [2] + [1] == [2, 1];
  }

  /** What fuse_writepage_in_flight finds. */
  lemma Finds()
    ensures var s := Redirtied();
      Without(s.writepages, 2) == [1] && FindCover(s.reqs, [1], 0) == Some(1) && ChainMatch(s.reqs, s.reqs[1].chain, 0) == None
  {
    var list := Redirtied().writepages;
    assert list[1..] == [1] && Without([1], 2) == [1] by { assert [1][1..] == []; }
  }

  lemma RefillsLate()
    ensures OverwriteLate(Redirtied(), 0, 2, 1, 8, 7) == After(SENT.(phase := Read), MISSED)
  {
    Finds();
  }

  /** A reader takes request 1 between the test of FR_PENDING and the copy of the new contents, 8. */
  lemma Races()
    ensures Step(Redirtied(), ENoteInFlight(0, 2, 8, Late(7)), After(SENT.(phase := Read), MISSED))
  {
    RaceEnabled();
    NotesLate();
    RefillsLate();
  }

  lemma RaceEnabled()
    ensures HeadsOk(Redirtied()) && Enabled(Redirtied(), ENoteInFlight(0, 2, 8, Late(7)))
  {
  }

  lemma NotesLate()
    ensures NoteInFlight(Redirtied(), 0, 2, 8, Late(7)) == OverwriteLate(Redirtied(), 0, 2, 1, 8, 7)
  {
    Finds();
  }

  ghost function Answered(): Inode { After(SENT.(phase := Ending), MISSED.(served := map[0 := 7])) }

  lemma Answers()
    ensures Step(After(SENT.(phase := Read), MISSED), EAnswer(1), Answered())
  {
    assert PagesOf(SENT.(phase := Read)) == {0};
    assert Serve(MISSED, SENT.(phase := Read)).served == map[0 := 7];
  }

  ghost function Clean(): Inode { Answered().(reqs := map[], writepages := [], writectr := 0) }

  lemma Finishes()
    ensures Step(Answered(), EFinish(1), Clean())
  {
  }

  lemma RunsToRace()
    ensures Reached(After(SENT.(phase := Read), MISSED))
  {
    Queues();
    Sends();
    Go(Waiting(), EFlush(0), After(SENT, BEFORE));
    LockWriteback();
    Go(After(SENT, BEFORE), ELockPage(0), Locked(After(SENT, BEFORE), Tested(true)));
    Renews();
    Go(Locked(After(SENT, BEFORE), Tested(true)), ENewWrite(0, 2), Redirtied());
    Races();
    Go(Redirtied(), ENoteInFlight(0, 2, 8, Late(7)), After(SENT.(phase := Read), MISSED));
  }

  /** The WRITE is answered, and the page ends clean: its last contents are 8, and the server has 7. The
      connection is up and the file as long as it was. */
  lemma OutrunLoses() returns (s: Inode)
    ensures Reached(s) && s.connected && s.size == PAGE_SIZE
    ensures !IsWriteback(s, 0) && s.hist.latest == map[0 := 8] && s.hist.served == map[0 := 7]
  {
    RunsToRace();
    Answers();
    Go(After(SENT.(phase := Read), MISSED), EAnswer(1), Answered());
    Finishes();
    Go(Answered(), EFinish(1), Clean());
    s := Clean();
  }
}
