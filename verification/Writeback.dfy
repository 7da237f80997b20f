/**
 The writeback of one inode (old/fuse/file.c, old/fuse/dir.c) as a state machine over sections held
 under fc->lock: page snapshots are gathered into WRITE requests, queued, sent, answered, and a page
 that is dirtied again while its request is under way gets a secondary request on that one's chain.
 */
module Writeback {
  import opened Lists
  import Pages

  type Page = nat
  type Snapshot = nat        // the contents copied from a page by copy_highpage
  type WriteId = nat
  type Thread = nat

  const PAGE_SIZE := Pages.PAGE_SIZE
  const FUSE_NOWRITE := -0x8000_0000
  const INT_MAX := 0x7FFF_FFFF

  datatype Phase =
    | Filling      // on writepages, fuse_writepages still adds pages
    | Queued       // on queued_writes
    | Popped       // taken off queued_writes or off a chain, in fuse_send_writepage
    | Secondary    // on the chain of another request, or lost with it
    | Sent         // given to the background queue, FR_PENDING still set
    | Read         // taken by a reader of the device
    | Ending       // answered, in the loop of fuse_writepage_end

  /** A WRITE of whole pages. `size` is inarg->size; `chain` is the list that misc.write.next starts. */
  datatype Write = Write(first: Page, data: seq<Snapshot>, size: nat, phase: Phase, chain: seq<WriteId>)

  datatype Find = None | Some(id: WriteId)

  /** A page lock held by fuse_writepages_fill or fuse_writepage, and what is known of the page: the
      answer of fuse_page_is_writeback, then perhaps that of fuse_writepage_in_flight. */
  datatype Filler = Tested(writeback: bool) | NotFound

  /** fuse_set_nowrite adds the bias, then waits until nothing is in flight. */
  datatype Barrier = Free | Draining | Held

  /** Histories: the last snapshot of each page, the one the last answered WRITE carried, and the
      pages whose last snapshot was dropped or cut off. */
  datatype Hist = Hist(latest: map<Page, Snapshot>, served: map<Page, Snapshot>, lost: set<Page>)

  /** `flushers` are the threads in fuse_flush_writepages with the crop each has sampled; `submitted`
      and `flushed` are the histories of queued_writes. */
  datatype Inode = Inode(
    reqs: map<WriteId, Write>, writepages: seq<WriteId>, queued: seq<WriteId>, writectr: int,
    barrier: Barrier, connected: bool, size: nat,
    fillers: map<Page, Filler>, flushers: map<Thread, nat>,
    hist: Hist, submitted: seq<WriteId>, flushed: seq<WriteId>)

  const Idle := Inode(map[], [], [], 0, Free, true, 0, map[], map[], Hist(map[], map[], {}), [], [])

  predicate Covers(r: Write, p: Page) { r.first <= p < r.first + |r.data| }

  /** Some bytes of the page are within the size of the WRITE. */
  predicate Carries(r: Write, p: Page) { Covers(r, p) && p * PAGE_SIZE < r.first * PAGE_SIZE + r.size }

  /** Byte b of the file lies in the pages of the request. */
  predicate HasByte(r: Write, b: nat) { r.first * PAGE_SIZE <= b < (r.first + |r.data|) * PAGE_SIZE }

  /** Byte b is written by the WRITE. */
  predicate CarriesByte(r: Write, b: nat) { r.first * PAGE_SIZE <= b < r.first * PAGE_SIZE + r.size }

  predicate Pending(r: Write) { r.phase in {Filling, Queued, Popped, Secondary, Sent} }

  predicate InFlight(r: Write) { r.phase in {Sent, Read, Ending} }

  /** The first request on the list that covers the page. */
  function FindCover(reqs: map<WriteId, Write>, list: seq<WriteId>, p: Page): (f: Find)
    ensures f.Some? ==> f.id in list && f.id in reqs && Covers(reqs[f.id], p)
    ensures f.None? ==> forall id :: id in list && id in reqs ==> !Covers(reqs[id], p)
  {
    if list == [] then None
    else if list[0] in reqs && Covers(reqs[list[0]], p) then Some(list[0])
    else
      assert list == [list[0]] + list[1..];
      FindCover(reqs, list[1..], p)
  }

  /** The last single-page request on the chain that holds the page. */
  function ChainMatch(reqs: map<WriteId, Write>, chain: seq<WriteId>, p: Page): (f: Find)
    ensures f.Some? ==> f.id in chain && f.id in reqs && |reqs[f.id].data| == 1 && reqs[f.id].first == p
    ensures f.None? ==> forall id :: id in chain && id in reqs ==> !(|reqs[id].data| == 1 && reqs[id].first == p)
  {
    if chain == [] then None
    else
      var last := chain[|chain| - 1];
      if last in reqs && |reqs[last].data| == 1 && reqs[last].first == p then Some(last)
      else
        assert chain == chain[..|chain| - 1] + [last];
        ChainMatch(reqs, chain[..|chain| - 1], p)
  }

  function InsertAfter(chain: seq<WriteId>, x: WriteId, id: WriteId): seq<WriteId> {
    if chain == [] then [id]
    else if chain[0] == x then [x, id] + chain[1..]
    else [chain[0]] + InsertAfter(chain[1..], x, id)
  }

  /** fuse_page_is_writeback. */
  predicate IsWriteback(s: Inode, p: Page) { FindCover(s.reqs, s.writepages, p).Some? }

  // ---------------------------------------------------------------- filling

  /** A new snapshot of the page. */
  function Snap(h: Hist, p: Page, d: Snapshot): Hist { Hist(h.latest[p := d], h.served, h.lost - {p}) }

  /** A new snapshot of the page, which no WRITE will carry. */
  function Miss(h: Hist, p: Page, d: Snapshot): Hist { Hist(h.latest[p := d], h.served, h.lost + {p}) }

  /** The page is locked and fuse_page_is_writeback asked. */
  function LockPage(s: Inode, p: Page): Inode { s.(fillers := s.fillers[p := Tested(IsWriteback(s, p))]) }

  function UnlockPage(s: Inode, p: Page): Inode { s.(fillers := s.fillers - {p}) }

  /** fuse_writepages_fill starts a request, which has no pages yet. */
  function NewWrite(s: Inode, p: Page, id: WriteId): Inode {
    s.(reqs := s.reqs[id := Write(p, [], 0, Filling, [])], writepages := [id] + s.writepages)
  }

  /** A reader of the device takes the request. */
  function ReadBy(s: Inode, id: WriteId): Inode
    requires id in s.reqs
  {
    s.(reqs := s.reqs[id := s.reqs[id].(phase := Read)])
  }

  /** The single-page request prev gets new contents in place; the new request is freed. */
  function Refill(s: Inode, p: Page, id: WriteId, prev: WriteId, contents: Snapshot, h: Hist): Inode
    requires prev in s.reqs
  {
    s.(reqs := s.reqs[prev := s.reqs[prev].(data := [contents])] - {id}, writepages := Without(s.writepages, id),
       fillers := s.fillers - {p}, hist := h)
  }

  /** copy_highpage into the pending request. */
  function Overwrite(s: Inode, p: Page, id: WriteId, prev: WriteId, d: Snapshot): Inode
    requires prev in s.reqs
  {
    Refill(s, p, id, prev, d, Snap(s.hist, p, d))
  }

  /** The same when a reader, who does not take fc->lock, takes the request after the test of FR_PENDING:
      its WRITE carries what the page held before, or some of each. */
  function OverwriteLate(s: Inode, p: Page, id: WriteId, prev: WriteId, d: Snapshot, carried: Snapshot): Inode
    requires prev in s.reqs
  {
    Refill(ReadBy(s, prev), p, id, prev, carried, Miss(s.hist, p, d))
  }

  /** The new request joins the chain of request c. */
  function Attach(s: Inode, p: Page, id: WriteId, c: WriteId, chain: seq<WriteId>, d: Snapshot): Inode
    requires c in s.reqs
  {
    s.(reqs := s.reqs[c := s.reqs[c].(chain := chain)][id := Write(p, [d], 0, Secondary, [])],
       writepages := Without(s.writepages, id),
       fillers := s.fillers - {p}, hist := Snap(s.hist, p, d))
  }

  /** Whether a reader takes the request between the test of FR_PENDING and the end of copy_highpage. */
  datatype Race = InTime | Late(carried: Snapshot)

  /** fuse_writepage_in_flight for the new request id and page p, whose contents are d. */
  function NoteInFlight(s: Inode, p: Page, id: WriteId, d: Snapshot, race: Race): Inode {
    var rest := Without(s.writepages, id);
    match FindCover(s.reqs, rest, p)
    case None => s.(writepages := [id] + rest, fillers := s.fillers[p := NotFound])
    case Some(c) =>
      match ChainMatch(s.reqs, s.reqs[c].chain, p)
      case Some(m) =>
        if Pending(s.reqs[m]) then Overwrite(s, p, id, m, d)
        else Attach(s, p, id, c, InsertAfter(s.reqs[c].chain, m, id), d)
      case None =>
        if |s.reqs[c].data| == 1 && Pending(s.reqs[c]) then
          if race.Late? && s.reqs[c].phase == Sent then OverwriteLate(s, p, id, c, d, race.carried)
          else Overwrite(s, p, id, c, d)
        else Attach(s, p, id, c, [id] + s.reqs[c].chain, d)
  }

  /** The end of fuse_writepages_fill: the page counts as the request's. */
  function AddPage(s: Inode, p: Page, id: WriteId, d: Snapshot): Inode
    requires id in s.reqs
  {
    s.(reqs := s.reqs[id := s.reqs[id].(data := s.reqs[id].data + [d])],
       fillers := s.fillers - {p}, hist := Snap(s.hist, p, d))
  }

  /** list_add_tail to queued_writes; a flush by the same thread follows. */
  function Enqueue(s: Inode, id: WriteId, tid: Thread): Inode
    requires id in s.reqs
  {
    s.(reqs := s.reqs[id := s.reqs[id].(phase := Queued)], queued := s.queued + [id],
       flushers := s.flushers[tid := s.size], submitted := s.submitted + [id])
  }

  /** fuse_writepage_locked: a request of one page, queued at once. */
  function WritePage(s: Inode, p: Page, id: WriteId, d: Snapshot, tid: Thread): Inode {
    Enqueue(AddPage(NewWrite(s, p, id), p, id, d), id, tid)
  }

  // ---------------------------------------------------------------- sending

  /** How much of the request lies below the crop: its inarg->size if it is sent. */
  function CroppedSize(r: Write, crop: nat): nat {
    if r.first * PAGE_SIZE + |r.data| * PAGE_SIZE <= crop then |r.data| * PAGE_SIZE
    else if r.first * PAGE_SIZE < crop then crop - r.first * PAGE_SIZE
    else 0
  }

  ghost function PagesOf(r: Write): set<Page> { set p | r.first <= p < r.first + |r.data| && Covers(r, p) }

  /** Pages whose last snapshot is in the request itself, not in a secondary. */
  ghost function OwnPages(reqs: map<WriteId, Write>, r: Write): set<Page> {
    set p | p in PagesOf(r) && ChainMatch(reqs, r.chain, p).None?
  }

  /** fuse_request_send_background_locked, with the size cut to the crop. */
  ghost function Transmit(s: Inode, id: WriteId, size: nat): Inode
    requires id in s.reqs
  {
    var r := s.reqs[id].(size := size, phase := Sent);
    s.(reqs := s.reqs[id := r], writectr := s.writectr + 1,
       hist := s.hist.(lost := s.hist.lost + (set p | p in OwnPages(s.reqs, r) && !Carries(r, p))))
  }

  /** out_free: the request is freed, its chain is not walked. */
  ghost function Drop(s: Inode, id: WriteId): Inode
    requires id in s.reqs
  {
    s.(reqs := s.reqs - {id}, writepages := Without(s.writepages, id),
       hist := s.hist.(lost := s.hist.lost + PagesOf(s.reqs[id])))
  }

  /** fuse_send_writepage. */
  ghost function SendWritepage(s: Inode, id: WriteId, crop: nat): Inode
    requires id in s.reqs
  {
    if s.connected && s.reqs[id].first * PAGE_SIZE < crop then Transmit(s, id, CroppedSize(s.reqs[id], crop))
    else Drop(s, id)
  }

  function Unqueue(s: Inode): Inode
    requires s.queued != [] && s.queued[0] in s.reqs
  {
    s.(reqs := s.reqs[s.queued[0] := s.reqs[s.queued[0]].(phase := Popped)],
       queued := s.queued[1..], flushed := s.flushed + [s.queued[0]])
  }

  /** One turn of the loop of fuse_flush_writepages, with the crop its thread has sampled. */
  ghost function FlushOne(s: Inode, crop: nat): Inode
    requires s.queued != [] && s.queued[0] in s.reqs
  {
    SendWritepage(Unqueue(s), s.queued[0], crop)
  }

  predicate CanFlush(s: Inode) { s.writectr >= 0 && s.queued != [] }

  ghost function FlushStep(s: Inode, tid: Thread): Inode
    requires tid in s.flushers && (s.queued != [] ==> s.queued[0] in s.reqs)
  {
    if CanFlush(s) then FlushOne(s, s.flushers[tid]) else s.(flushers := s.flushers - {tid})
  }

  // ---------------------------------------------------------------- the server and the reply

  ghost function Serve(h: Hist, r: Write): Hist {
    h.(served := map p | p in h.served.Keys + (set p | p in PagesOf(r) && Carries(r, p)) ::
         if Carries(r, p) then r.data[p - r.first] else h.served[p])
  }

  /** The WRITE is answered, which starts fuse_writepage_end. */
  ghost function Answer(s: Inode, id: WriteId): Inode
    requires id in s.reqs
  {
    s.(reqs := s.reqs[id := s.reqs[id].(phase := Ending)], hist := Serve(s.hist, s.reqs[id]))
  }

  /** The WRITE ends without an answer, because the connection is aborted. */
  ghost function Fail(s: Inode, id: WriteId): Inode
    requires id in s.reqs
  {
    s.(reqs := s.reqs[id := s.reqs[id].(phase := Ending)],
       hist := s.hist.(lost := s.hist.lost + OwnPages(s.reqs, s.reqs[id])))
  }

  function Unchain(s: Inode, c: WriteId): Inode
    requires c in s.reqs && s.reqs[c].chain != [] && s.reqs[c].chain[0] in s.reqs
  {
    var n := s.reqs[c].chain[0];
    s.(reqs := s.reqs[c := s.reqs[c].(chain := s.reqs[c].chain[1..])][n := s.reqs[n].(phase := Popped)],
       writepages := [n] + s.writepages)
  }

  /** One turn of the loop of fuse_writepage_end: the next secondary becomes a request of its own,
      cut to what its primary sent. */
  ghost function EndOne(s: Inode, c: WriteId): Inode
    requires c in s.reqs && s.reqs[c].chain != [] && s.reqs[c].chain[0] in s.reqs && s.reqs[c].chain[0] != c
  {
    SendWritepage(Unchain(s, c), s.reqs[c].chain[0], s.reqs[c].first * PAGE_SIZE + s.reqs[c].size)
  }

  /** The end of fuse_writepage_end. */
  function Finish(s: Inode, c: WriteId): Inode
    requires c in s.reqs
  {
    s.(reqs := s.reqs - {c}, writepages := Without(s.writepages, c), writectr := s.writectr - 1)
  }

  // ---------------------------------------------------------------- the nowrite barrier

  function SetNowrite(s: Inode): Inode { s.(writectr := s.writectr + FUSE_NOWRITE, barrier := Draining) }

  /** wait_event in fuse_set_nowrite has its condition. */
  function Drained(s: Inode): Inode { s.(barrier := Held) }

  /** __fuse_release_nowrite; its flush follows. */
  function ReleaseNowrite(s: Inode, tid: Thread): Inode {
    s.(writectr := 0, barrier := Free, flushers := s.flushers[tid := s.size])
  }

  // ---------------------------------------------------------------- events

  datatype Event =
    | ELockPage(p: Page)
    | EUnlockPage(p: Page)
    | ENewWrite(p: Page, id: WriteId)
    | ENoteInFlight(p: Page, id: WriteId, d: Snapshot, race: Race)
    | EAddPage(p: Page, id: WriteId, d: Snapshot)
    | EWritePage(p: Page, id: WriteId, d: Snapshot, tid: Thread)
    | EEnqueue(id: WriteId, tid: Thread)
    | EFlush(tid: Thread)
    | ERead(id: WriteId)
    | EAnswer(id: WriteId)
    | EFail(id: WriteId)
    | EEndOne(id: WriteId)
    | EFinish(id: WriteId)
    | ESetNowrite
    | EDrained
    | EReleaseNowrite(tid: Thread)
    | ESetSize(n: nat)
    | EDisconnect

  predicate IsFilling(s: Inode, id: WriteId) { id in s.reqs && s.reqs[id].phase == Filling }

  /** What a thread's position allows. New requests are fresh objects and fit an int's worth of memory;
      the inode lock keeps calls of fuse_set_nowrite and fuse_release_nowrite paired. */
  ghost predicate Enabled(s: Inode, e: Event) {
    match e
    case ELockPage(p) => p !in s.fillers
    case EUnlockPage(p) => p in s.fillers
    case ENewWrite(p, id) => p in s.fillers && id !in s.reqs && |s.reqs| < INT_MAX
    case ENoteInFlight(p, id, _, _) =>
      p in s.fillers && s.fillers[p] == Tested(true) && IsFilling(s, id) && s.reqs[id].first == p && s.reqs[id].data == []
    case EAddPage(p, id, _) =>
      p in s.fillers && s.fillers[p] != Tested(true) && IsFilling(s, id) && s.reqs[id].first + |s.reqs[id].data| == p
    case EWritePage(p, id, _, tid) =>
      p in s.fillers && s.fillers[p] == Tested(false) && id !in s.reqs && |s.reqs| < INT_MAX && tid !in s.flushers
    case EEnqueue(id, tid) => IsFilling(s, id) && s.reqs[id].data != [] && tid !in s.flushers
    case EFlush(tid) => tid in s.flushers
    case ERead(id) => id in s.reqs && s.reqs[id].phase == Sent
    case EAnswer(id) => id in s.reqs && s.reqs[id].phase == Read
    case EFail(id) => id in s.reqs && s.reqs[id].phase in {Sent, Read}
    case EEndOne(id) => id in s.reqs && s.reqs[id].phase == Ending && s.reqs[id].chain != []
    case EFinish(id) => id in s.reqs && s.reqs[id].phase == Ending && s.reqs[id].chain == []
    case ESetNowrite => s.barrier == Free
    case EDrained => s.barrier == Draining && s.writectr == FUSE_NOWRITE
    case EReleaseNowrite(tid) => s.barrier == Held && tid !in s.flushers
    case ESetSize(_) => true
    case EDisconnect => true
  }

  /** The heads that the loops take are requests. */
  ghost predicate HeadsOk(s: Inode) {
    && (forall id :: id in s.queued ==> id in s.reqs)
    && (forall c, x :: c in s.reqs && x in s.reqs[c].chain ==> x in s.reqs && x != c)
  }

  ghost function FillStep(s: Inode, e: Event): Inode
    requires HeadsOk(s) && Enabled(s, e)
  {
    match e
    case ELockPage(p) => LockPage(s, p)
    case EUnlockPage(p) => UnlockPage(s, p)
    case ENewWrite(p, id) => NewWrite(s, p, id)
    case ENoteInFlight(p, id, d, race) => NoteInFlight(s, p, id, d, race)
    case EAddPage(p, id, d) => AddPage(s, p, id, d)
    case EWritePage(p, id, d, tid) => WritePage(s, p, id, d, tid)
    case _ => s
  }

  ghost function SendStep(s: Inode, e: Event): Inode
    requires HeadsOk(s) && Enabled(s, e)
  {
    match e
    case EEnqueue(id, tid) => Enqueue(s, id, tid)
    case EFlush(tid) => FlushStep(s, tid)
    case ERead(id) => ReadBy(s, id)
    case EAnswer(id) => Answer(s, id)
    case EFail(id) => Fail(s, id)
    case EEndOne(id) => EndOne(s, id)
    case EFinish(id) => Finish(s, id)
    case _ => s
  }

  ghost function OtherStep(s: Inode, e: Event): Inode {
    match e
    case ESetNowrite => SetNowrite(s)
    case EDrained => Drained(s)
    case EReleaseNowrite(tid) => ReleaseNowrite(s, tid)
    case ESetSize(n) => s.(size := n)
    case EDisconnect => s.(connected := false)
    case _ => s
  }

  /** One section of any thread; a section that no thread stands at does nothing. */
  ghost function Next(s: Inode, e: Event): Inode
    requires HeadsOk(s)
  {
    if !Enabled(s, e) then s
    else if e.ELockPage? || e.EUnlockPage? || e.ENewWrite? || e.ENoteInFlight? || e.EAddPage? || e.EWritePage? then FillStep(s, e)
    else if e.EEnqueue? || e.EFlush? || e.ERead? || e.EAnswer? || e.EFail? || e.EEndOne? || e.EFinish? then SendStep(s, e)
    else OtherStep(s, e)
  }
}
