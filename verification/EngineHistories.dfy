/**
 What becomes of one request, whichever thread the next section belongs to. The sections of RequestEngine
 are told thread by thread: each says what it writes. Here the same is told request by request: with which
 error, on which list, with which flags and IDs and with its reader, its replier and its waiter where a
 request goes on, for any event (Lives), and which requests an event adds (Creates, Begins). Nothing of it
 is said with the functions of RequestEngine or Requests; NextLives connects the two. What it says of whole
 runs is in EngineOutcomes, EngineReads and EngineSignals.
 */
module EngineHistories {
  import opened Errno
  import opened Lists
  import opened Pages
  import opened Requests
  import opened RequestQueues
  import opened RequestEngine
  import opened EngineInvariant
  import opened EngineEvolution
  import opened EngineTheorems

  // ---------------------------------------------------------------- one request, one section

  /** The next read of the device delivers forgets. */
  predicate TakesForgets(s: Conn) {
    s.open && s.interrupts == [] && s.forgets != [] && (s.q.pending == [] || s.forgetBatch > 0)
  }

  /** It delivers a request. */
  predicate TakesRequest(s: Conn) {
    s.open && s.interrupts == [] && s.q.pending != [] && (s.forgets == [] || s.forgetBatch <= 0)
  }

  /** It delivers the interrupt of request id. */
  predicate Delivers(s: Conn, e: Event, id: ReqId) { e.ERead? && s.open && s.interrupts != [] && s.interrupts[0] == id }

  /** It delivers request id. */
  predicate Reads(s: Conn, e: Event, id: ReqId) { e.ERead? && TakesRequest(s) && s.q.pending[0] == id }

  /** flush_bg_queue lets the request through. */
  predicate Flushes(s: Conn, e: Event, id: ReqId) {
    e.EFlushTurn? && s.sched.activeBackground < s.sched.maxBackground && s.q.bg != [] && s.q.bg[0] == id
  }

  /** A reply with an accepted error names request id by its own ID, and its device is alive. */
  predicate Names(s: Conn, e: Event, id: ReqId) {
    && e.EReply? && e.unique != 0 && -1000 < e.error <= 0 && e.dev in s.devs && s.devs[e.dev]
    && id in s.reqs && s.reqs[id].on == OnProcessing(e.dev) && s.reqs[id].unique == e.unique
  }

  predicate DevAlive(s: Conn, d: DevId) { d in s.devs && s.devs[d] }

  /** The copy to userspace has gone well and a reply is expected. */
  predicate Passes(s: Conn, e: Event, id: ReqId) {
    && e.EFinishRead? && e.id == id && id in s.reqs && s.reqs[id].reader.Reading?
    && DevAlive(s, s.reqs[id].reader.dev) && !e.failed && s.reqs[id].isReply
  }

  /** A copy fails on a live device. */
  predicate Fails(s: Conn, e: Event, id: ReqId) {
    && id in s.reqs
    && (|| (e == EFinishRead(id, true) && s.reqs[id].reader.Reading? && DevAlive(s, s.reqs[id].reader.dev))
        || (e == EFinishReply(id, true) && s.reqs[id].replier.Copying? && DevAlive(s, s.reqs[id].replier.dev)))
  }

  /** A loop of end_requests works on the request. */
  predicate Grips(s: Conn, p: Picker, id: ReqId) { p in s.picked && s.picked[p].id == id }

  /** abort sweeps the device on whose io list the request is. */
  predicate Marks(s: Conn, e: Event, id: ReqId) { e.EAbortDevice? && id in s.reqs && s.reqs[id].on == OnIo(e.dev) }

  ghost function ErrorAfter(s: Conn, e: Event, id: ReqId): int
    requires id in s.reqs
  {
    match e
    case EReply(_, _, error, _) => if Names(s, e, id) then error else s.reqs[id].error
    case EFinishRead(_, _) => if Fails(s, e, id) then EIO else s.reqs[id].error
    case EFinishReply(_, _) => if Fails(s, e, id) then EIO else s.reqs[id].error
    case ETooLarge(x, setxattr) => if x == id then if setxattr then E2BIG else EIO else s.reqs[id].error
    case EKill(x) => if x == id && s.reqs[id].pending then EINTR else s.reqs[id].error
    case EAbortDevice(d) => if s.reqs[id].on == OnIo(d) then ECONNABORTED else s.reqs[id].error
    case EUnlinkPicked(p) => if Grips(s, p, id) then ECONNABORTED else s.reqs[id].error
    case _ => s.reqs[id].error
  }

  /** request_end begins. */
  ghost predicate Ends(s: Conn, e: Event, id: ReqId) {
    match e
    case ETooLarge(x, _) => x == id
    case EFinishRead(x, _) => x == id && !Passes(s, e, id)
    case EFinishReply(x, _) => x == id
    case EAbortEnd1(x) => x == id
    case EEndPicked(p) => Grips(s, p, id)
    case _ => false
  }

  ghost function PlaceAfter(s: Conn, e: Event, id: ReqId): Place
    requires id in s.reqs
  {
    var r := s.reqs[id];
    match e
    case EFlushTurn => if Flushes(s, e, id) then OnPending else r.on
    case ERead(_, _) => if Reads(s, e, id) then Nowhere else r.on
    case EAddIo(x) => if x == id && r.reader.InHand? then OnIo(r.reader.dev) else r.on
    case EFinishRead(x, _) =>
      if Passes(s, e, id) then OnProcessing(r.reader.dev) else if x == id && !r.private then Nowhere else r.on
    case EReply(d, _, _, _) => if Names(s, e, id) then OnIo(d) else r.on
    case EFinishReply(x, _) => if x == id && !r.private then Nowhere else r.on
    case EKill(x) => if x == id && r.pending then Nowhere else r.on
    case EAbortDevice(d) => if r.on == OnIo(d) && !r.locked then OnEnd1 else if r.on == OnProcessing(d) then OnEnd2 else r.on
    case EAbortClose => if r.on == OnPending then OnEnd2 else r.on
    case EAbortEnd1(x) => if x == id then Nowhere else r.on
    case EUnlinkPicked(p) => if Grips(s, p, id) then Nowhere else r.on
    case _ => r.on
  }

  ghost function ReaderAfter(s: Conn, e: Event, id: ReqId): Reader
    requires id in s.reqs
  {
    var r := s.reqs[id];
    match e
    case ERead(d, _) => if Reads(s, e, id) then InHand(d) else r.reader
    case EAddIo(x) => if x == id && r.reader.InHand? then Reading(r.reader.dev) else r.reader
    case EFinishRead(x, _) => if Passes(s, e, id) then SettingSent else if x == id then ReadDone else r.reader
    case ETooLarge(x, _) => if x == id then ReadDone else r.reader
    case ESetSent(x) => if x == id then TestingInterrupted else r.reader
    case ETestInterrupted(x) => if x != id then r.reader else if r.interrupted then ReaderQueues else ReadDone
    case EReaderQueue(x) => if x == id then ReadDone else r.reader
    case _ => r.reader
  }

  /** After the interruptible wait, only a signal that kills can end the wait early, and that not if the
      request is forced or has left pending. */
  ghost function WaiterAfter(s: Conn, e: Event, id: ReqId): Waiter
    requires id in s.reqs
  {
    var r := s.reqs[id];
    match e
    case ESignal(x) => if x == id then TestingSent else r.waiter
    case ETestSent(x) => if x != id then r.waiter else if r.sent then WaiterQueues else if r.force then Uninterruptible else Killable
    case EWaiterQueue(x) => if x != id then r.waiter else if r.force then Uninterruptible else Killable
    case EKill(x) => if x != id then r.waiter else if r.pending then Returned else Uninterruptible
    case EReturn(x) => if x == id then Returned else r.waiter
    case ERelease(x) => if x == id then Gone else r.waiter
    case _ => r.waiter
  }

  ghost predicate LockedAfter(s: Conn, e: Event, id: ReqId)
    requires id in s.reqs
  {
    match e
    case ELockRequest(x, locked) => if x == id && !s.reqs[id].aborted then locked else s.reqs[id].locked
    case EReply(_, _, _, _) => Names(s, e, id) || s.reqs[id].locked
    case EFinishRead(x, _) => x != id && s.reqs[id].locked
    case EFinishReply(x, _) => x != id && s.reqs[id].locked
    case _ => s.reqs[id].locked
  }

  /** What section e does to request id. */
  ghost predicate Lives(s: Conn, e: Event, id: ReqId, r': Req)
    requires id in s.reqs
  {
    var r := s.reqs[id];
    && r'.isReply == r.isReply && r'.force == r.force
    && r'.error == ErrorAfter(s, e, id)
    && r'.finished == (r.finished || Ends(s, e, id))
    && r'.on == PlaceAfter(s, e, id)
    && r'.reader == ReaderAfter(s, e, id)
    && r'.replier == (if Names(s, e, id) then Copying(e.dev) else if e.EFinishReply? && e.id == id then ReplyDone else r.replier)
    && r'.waiter == WaiterAfter(s, e, id)
    && r'.locked == LockedAfter(s, e, id)
    && r'.aborted == (r.aborted || Marks(s, e, id))
    && r'.interrupted == (r.interrupted || (e.ESignal? && e.id == id))
    && r'.unique == (if Flushes(s, e, id) then s.reqctr + 1 else r.unique)
    && r'.intrUnique == (if Delivers(s, e, id) then s.reqctr + 1 else r.intrUnique)
  }

  /** The section adds request id, which it does only if the queue that the request goes to is up. */
  predicate Creates(s: Conn, e: Event, id: ReqId) {
    || ((e.ESendForeground? || e.ESendNotify?) && e.id == id && s.open)
    || (e.ESendBackground? && e.id == id && s.connected)
  }

  /** As what it is added. */
  ghost predicate Begins(s: Conn, e: Event, r: Req) {
    && !r.finished && r.error == 0 && !r.aborted && !r.interrupted && !r.locked && r.intrUnique == 0
    && r.reader == NotRead && r.replier == NotReplied
    && r.on == (if e.ESendBackground? then OnBg else OnPending)
    && r.background == e.ESendBackground?
    && r.isReply == (e.ESendBackground? || (e.ESendForeground? && e.isReply))
    && r.force == (e.ESendForeground? && e.force)
    && r.unique == (if e.ESendForeground? then s.reqctr + 1 else if e.ESendNotify? then e.unique else 0)
    && r.waiter == if !e.ESendForeground? then NoWaiter
                   else if !s.noInterrupt then Interruptible
                   else if e.force then Uninterruptible else Killable
  }

  ghost predicate LivesAt(s: Conn, e: Event, reqs: map<ReqId, Req>, id: ReqId) {
    if id in s.reqs then id in reqs && Lives(s, e, id, reqs[id])
    else if Creates(s, e, id) then id in reqs && Begins(s, e, reqs[id])
    else id !in reqs
  }

  ghost predicate AllLive(s: Conn, e: Event, reqs: map<ReqId, Req>) {
    forall id :: LivesAt(s, e, reqs, id)
  }

  /** The section has to do with request x. */
  predicate Concerns(s: Conn, e: Event, x: ReqId)
    requires x in s.reqs
  {
    match e
    case ETooLarge(y, _) => x == y
    case EAddIo(y) => x == y
    case ELockRequest(y, _) => x == y
    case EFinishRead(y, _) => x == y
    case ESetSent(y) => x == y
    case ETestInterrupted(y) => x == y
    case EReaderQueue(y) => x == y
    case EFinishReply(y, _) => x == y
    case ESignal(y) => x == y
    case ETestSent(y) => x == y
    case EWaiterQueue(y) => x == y
    case EKill(y) => x == y
    case EReturn(y) => x == y
    case ERelease(y) => x == y
    case EAbortEnd1(y) => x == y
    case ERead(_, _) => Reads(s, e, x) || Delivers(s, e, x)
    case EReply(_, _, _, _) => Names(s, e, x)
    case EFlushTurn => Flushes(s, e, x)
    case EAbortDevice(d) => OnDevice(s.reqs[x].on, d)
    case EAbortClose => s.reqs[x].on == OnPending
    case EUnlinkPicked(p) => Grips(s, p, x)
    case EEndPicked(p) => Grips(s, p, x)
    case _ => false
  }

  lemma NotNamed(s: Conn, e: Event, x: ReqId)
    requires x in s.reqs && !Concerns(s, e, x)
    ensures !Reads(s, e, x) && !Flushes(s, e, x) && !Names(s, e, x) && !Marks(s, e, x) && !Delivers(s, e, x)
    ensures !Passes(s, e, x) && !Fails(s, e, x) && !Ends(s, e, x)
  {
  }

  lemma PlaceStays(s: Conn, e: Event, x: ReqId)
    requires x in s.reqs && !Concerns(s, e, x)
    ensures PlaceAfter(s, e, x) == s.reqs[x].on
  {
    NotNamed(s, e, x);
  }

  lemma ErrorStays(s: Conn, e: Event, x: ReqId)
    requires x in s.reqs && !Concerns(s, e, x)
    ensures ErrorAfter(s, e, x) == s.reqs[x].error && LockedAfter(s, e, x) == s.reqs[x].locked
  {
    NotNamed(s, e, x);
  }

  lemma ThreadsStay(s: Conn, e: Event, x: ReqId)
    requires x in s.reqs && !Concerns(s, e, x)
    ensures ReaderAfter(s, e, x) == s.reqs[x].reader && WaiterAfter(s, e, x) == s.reqs[x].waiter
  {
    NotNamed(s, e, x);
  }

  lemma OtherLives(s: Conn, e: Event, x: ReqId)
    requires x in s.reqs && !Concerns(s, e, x)
    ensures Lives(s, e, x, s.reqs[x])
  {
    NotNamed(s, e, x);
    PlaceStays(s, e, x);
    ErrorStays(s, e, x);
    ThreadsStay(s, e, x);
  }

  lemma OtherAt(s: Conn, e: Event, reqs: map<ReqId, Req>, x: ReqId)
    requires if x in s.reqs then !Concerns(s, e, x) && x in reqs && reqs[x] == s.reqs[x] else !Creates(s, e, x) && x !in reqs
    ensures LivesAt(s, e, reqs, x)
  {
    if x in s.reqs { OtherLives(s, e, x); }
  }

  /** A section that writes request id back and has to do with no other. */
  lemma OneLives(s: Conn, e: Event, id: ReqId, r: Req, reqs: map<ReqId, Req>)
    requires id in s.reqs && reqs == s.reqs[id := r] && Lives(s, e, id, r) && !IsSend(e) && !e.ESendBackground?
    requires forall x :: x in s.reqs && x != id ==> !Concerns(s, e, x)
    ensures AllLive(s, e, reqs)
  {
    forall x ensures LivesAt(s, e, reqs, x) {
      if x != id { OtherAt(s, e, reqs, x); }
    }
  }

  /** A section that has to do with none. */
  lemma NoneLives(s: Conn, e: Event)
    requires forall x :: if x in s.reqs then !Concerns(s, e, x) else !Creates(s, e, x)
    ensures AllLive(s, e, s.reqs)
  {
    forall x ensures LivesAt(s, e, s.reqs, x) { OtherAt(s, e, s.reqs, x); }
  }

  /** A section that adds one. */
  lemma NewLives(s: Conn, e: Event, id: ReqId, r: Req, reqs: map<ReqId, Req>)
    requires (IsSend(e) || e.ESendBackground?) && e.id == id && Creates(s, e, id) && id !in s.reqs
    requires reqs == s.reqs[id := r] && Begins(s, e, r)
    ensures AllLive(s, e, reqs)
  {
    forall x ensures LivesAt(s, e, reqs, x) {
      if x != id { OtherAt(s, e, reqs, x); }
    }
  }

  // ---------------------------------------------------------------- the read of the device

  ghost predicate ReadNamed(s: Conn) { forall id :: id in s.interrupts || id in s.q.pending ==> id in s.reqs }

  /** A waiting interrupt is what the read of an open queue takes, whatever else waits. */
  lemma TakesInterrupt(s: Conn, d: DevId, max: nat)
    requires ReadNamed(s) && s.open && s.interrupts != []
    ensures Read(s, d, max) == Deliver(s, s.interrupts[0])
  {
  }

  /** Forgets that wait alone, or whose turn it is: the oldest of them, and the counter goes down if a request waits. */
  lemma TakesOldestForgets(s: Conn, d: DevId, max: nat)
    requires ReadNamed(s) && TakesForgets(s)
    ensures Read(s, d, max) ==
      s.(forgets := s.forgets[Min(max, |s.forgets|)..], reqctr := s.reqctr + 1,
         forgetBatch := if s.q.pending == [] then s.forgetBatch else s.forgetBatch - 1)
  {
  }

  lemma TakesFirstRequest(s: Conn, d: DevId, max: nat)
    requires ReadNamed(s) && TakesRequest(s)
    ensures Read(s, d, max) ==
      ReadRequest(s, d).(forgetBatch := if s.forgets == [] then s.forgetBatch else if s.forgetBatch <= -7 then 16 else s.forgetBatch - 1)
  {
  }

  lemma TakesNothing(s: Conn, d: DevId, max: nat)
    requires ReadNamed(s) && (s.open ==> s.interrupts == [] && s.forgets == [] && s.q.pending == [])
    ensures Read(s, d, max) == s
  {
  }

  lemma InterruptReadLives(s: Conn, d: DevId, max: nat)
    requires ReadNamed(s) && s.open && s.interrupts != []
    ensures AllLive(s, ERead(d, max), Read(s, d, max).reqs)
  {
    TakesInterrupt(s, d, max);
    var id := s.interrupts[0];
    OneLives(s, ERead(d, max), id, Interrupt(s.reqs[id], s.reqctr + 1), Deliver(s, id).reqs);
  }

  lemma RequestReadLives(s: Conn, d: DevId, max: nat)
    requires ReadNamed(s) && TakesRequest(s)
    ensures AllLive(s, ERead(d, max), Read(s, d, max).reqs)
  {
    TakesFirstRequest(s, d, max);
    var id := s.q.pending[0];
    OneLives(s, ERead(d, max), id, Take(s.reqs[id], d), ReadRequest(s, d).reqs);
  }

  lemma OtherReadLives(s: Conn, d: DevId, max: nat)
    requires ReadNamed(s) && (s.open ==> s.interrupts == []) && !TakesRequest(s)
    ensures AllLive(s, ERead(d, max), Read(s, d, max).reqs)
  {
    if TakesForgets(s) { TakesOldestForgets(s, d, max); } else { TakesNothing(s, d, max); }
    NoneLives(s, ERead(d, max));
  }

  // ---------------------------------------------------------------- the reply

  /** request_find finds request id by its own ID, and no other. */
  lemma FindsNamed(s: Conn, e: Event, id: ReqId)
    requires Inv(s) && Names(s, e, id)
    ensures e.dev in s.q.processing && forall x :: x in s.q.processing[e.dev] ==> x in s.reqs
    ensures RequestFind(s.reqs, s.q.processing[e.dev], e.unique) == RequestEngine.Found.Found(id)
    ensures s.reqs[id].intrUnique != e.unique
    ensures forall x :: x in s.reqs && x != id ==> !Names(s, e, x)
  {
    Members(s.q, s.reqs);
    assert On(s.q, OnProcessing(e.dev), id) <==> PlaceOf(s.reqs, id) == OnProcessing(e.dev);
    forall x | x in s.q.processing[e.dev] && Matches(s.reqs[x], e.unique) ensures x == id {
      ReplyNamesOne(s, e.unique, e.dev, x, e.dev, id);
    }
    ReplyNamesOne(s, e.unique, e.dev, id, e.dev, id);
    forall x | x in s.reqs && Names(s, e, x) ensures x == id {
      assert On(s.q, OnProcessing(e.dev), x) <==> PlaceOf(s.reqs, x) == OnProcessing(e.dev);
    }
  }

  /** A reply whose ID no request has as its own. */
  lemma NamesNone(s: Conn, e: Event, d: DevId, u: nat, error: int, h: bool)
    requires Named(s) && d in s.q.processing && e == EReply(d, u, error, h) && forall x :: x in s.reqs ==> !Names(s, e, x)
    ensures forall x :: x in s.q.processing[d] ==> x in s.reqs
    ensures Reply(s, d, u, error, h).reqs == s.reqs
  {
    Members(s.q, s.reqs);
    var f := RequestFind(s.reqs, s.q.processing[d], u);
    assert f.Found? && -1000 < error <= 0 && u != 0 && Alive(s, d) ==> s.reqs[f.id].unique != u;
  }

  lemma NamedReply(s: Conn, d: DevId, u: nat, error: int, h: bool, id: ReqId)
    requires d in s.q.processing && (forall x :: x in s.q.processing[d] ==> x in s.reqs) && Names(s, EReply(d, u, error, h), id)
    requires RequestFind(s.reqs, s.q.processing[d], u) == RequestEngine.Found.Found(id) && s.reqs[id].intrUnique != u
    ensures Reply(s, d, u, error, h).reqs == s.reqs[id := StartReply(s.reqs[id], d, error)]
  {
  }

  lemma AnswerLives(s: Conn, e: Event, id: ReqId)
    requires Names(s, e, id) && forall x :: x in s.reqs && x != id ==> !Names(s, e, x)
    ensures AllLive(s, e, s.reqs[id := StartReply(s.reqs[id], e.dev, e.error)])
  {
    OneLives(s, e, id, StartReply(s.reqs[id], e.dev, e.error), s.reqs[id := StartReply(s.reqs[id], e.dev, e.error)]);
  }

  // ---------------------------------------------------------------- the ends of the copies, and the flush

  lemma ReadPasses(s: Conn, e: Event, r: Req, reqs: map<ReqId, Req>)
    requires e.EFinishRead? && e.id in s.reqs && s.reqs[e.id].reader.Reading? && Passes(s, e, e.id)
    requires r == EndRead(s.reqs[e.id], true, false) && reqs == s.reqs[e.id := r]
    ensures AllLive(s, e, reqs)
  {
    OneLives(s, e, e.id, r, reqs);
  }

  lemma ReadEnds(s: Conn, e: Event, alive: bool, r: Req, reqs: map<ReqId, Req>)
    requires e.EFinishRead? && e.id in s.reqs && s.reqs[e.id].reader.Reading? && !Passes(s, e, e.id)
    requires alive == DevAlive(s, s.reqs[e.id].reader.dev) && r == EndRead(s.reqs[e.id], alive, e.failed) && reqs == s.reqs[e.id := r]
    ensures AllLive(s, e, reqs)
  {
    assert ErrorAfter(s, e, e.id) == r.error;
    assert PlaceAfter(s, e, e.id) == r.on;
    assert Ends(s, e, e.id) && r.finished;
    OneLives(s, e, e.id, r, reqs);
  }

  lemma ReplyEnds(s: Conn, e: Event, alive: bool, r: Req, reqs: map<ReqId, Req>)
    requires e.EFinishReply? && e.id in s.reqs && s.reqs[e.id].replier.Copying?
    requires alive == DevAlive(s, s.reqs[e.id].replier.dev) && r == EndReply(s.reqs[e.id], alive, e.failed) && reqs == s.reqs[e.id := r]
    ensures AllLive(s, e, reqs)
  {
    assert ErrorAfter(s, e, e.id) == r.error;
    assert PlaceAfter(s, e, e.id) == r.on;
    assert Ends(s, e, e.id) && r.finished;
    OneLives(s, e, e.id, r, reqs);
  }

  lemma FinishReadLives(s: Conn, e: Event)
    requires e.EFinishRead? && e.id in s.reqs && s.reqs[e.id].reader.Reading?
    ensures AllLive(s, e, FinishRead(s, e.id, e.failed).reqs)
  {
    var alive := Alive(s, s.reqs[e.id].reader.dev);
    var r, reqs := EndRead(s.reqs[e.id], alive, e.failed), FinishRead(s, e.id, e.failed).reqs;
    if Passes(s, e, e.id) { ReadPasses(s, e, r, reqs); } else { ReadEnds(s, e, alive, r, reqs); }
  }

  lemma FinishReplyLives(s: Conn, e: Event)
    requires e.EFinishReply? && e.id in s.reqs && s.reqs[e.id].replier.Copying?
    ensures AllLive(s, e, FinishReply(s, e.id, e.failed).reqs)
  {
    var alive := Alive(s, s.reqs[e.id].replier.dev);
    ReplyEnds(s, e, alive, EndReply(s.reqs[e.id], alive, e.failed), FinishReply(s, e.id, e.failed).reqs);
  }

  lemma ReaderQueueLives(s: Conn, id: ReqId)
    requires id in s.reqs && s.reqs[id].reader == ReaderQueues
    ensures AllLive(s, EReaderQueue(id), ReaderQueue(s, id).reqs)
  {
    OneLives(s, EReaderQueue(id), id, s.reqs[id].(reader := ReadDone), ReaderQueue(s, id).reqs);
  }

  lemma WaiterQueueLives(s: Conn, id: ReqId)
    requires id in s.reqs && s.reqs[id].waiter == WaiterQueues
    ensures AllLive(s, EWaiterQueue(id), WaiterQueue(s, id).reqs)
  {
    OneLives(s, EWaiterQueue(id), id, s.reqs[id].(waiter := SecondWait(s.reqs[id].force)), WaiterQueue(s, id).reqs);
  }

  lemma FlushTurnLives(s: Conn)
    requires s.q.bg != [] ==> s.q.bg[0] in s.reqs
    ensures AllLive(s, EFlushTurn, FlushTurn(s).reqs)
  {
    if CanFlush(s) {
      OneLives(s, EFlushTurn, s.q.bg[0], Flushed(s.reqs[s.q.bg[0]], s.reqctr + 1), FlushOne(s).reqs);
    } else {
      NoneLives(s, EFlushTurn);
    }
  }

  // ---------------------------------------------------------------- the sweep of abort

  lemma SweptLives(s: Conn, d: DevId, x: ReqId)
    requires x in s.reqs && OnDevice(s.reqs[x].on, d)
    ensures Lives(s, EAbortDevice(d), x, AbortReq(s.reqs[x]))
  {
  }

  lemma AbortDeviceLives(s: Conn, d: DevId)
    requires Named(s) && Enabled(s, EAbortDevice(d))
    ensures AllLive(s, EAbortDevice(d), AbortDevice(s, d).reqs)
  {
    var e, t := EAbortDevice(d), AbortDevice(s, d).reqs;
    forall x ensures LivesAt(s, e, t, x) {
      if x in s.reqs && OnDevice(s.reqs[x].on, d) { SweptLives(s, d, x); } else { OtherAt(s, e, t, x); }
    }
  }

  lemma ClosedLives(s: Conn, x: ReqId)
    requires x in s.reqs && s.reqs[x].on == OnPending
    ensures Lives(s, EAbortClose, x, AbortReq(s.reqs[x]))
  {
  }

  lemma AbortCloseLives(s: Conn)
    ensures AllLive(s, EAbortClose, AbortClose(s).reqs)
  {
    forall x ensures LivesAt(s, EAbortClose, AbortClose(s).reqs, x) {
      if x in s.reqs && s.reqs[x].on == OnPending { ClosedLives(s, x); } else { OtherAt(s, EAbortClose, AbortClose(s).reqs, x); }
    }
  }

  // ---------------------------------------------------------------- all sections

  lemma SendLife(s: Conn, e: Event)
    requires Named(s) && Enabled(s, e) && IsSend(e)
    ensures AllLive(s, e, SendStep(s, e).reqs)
  {
    match e
    case ESendForeground(id, isReply, force) =>
      if s.open { NewLives(s, e, id, Foreground(s.reqctr + 1, isReply, force, s.noInterrupt), SendForeground(s, id, isReply, force).reqs); }
      else { NoneLives(s, e); }
    case ESendNotify(id, unique) =>
      if s.open { NewLives(s, e, id, Notify(unique), SendNotify(s, id, unique).reqs); } else { NoneLives(s, e); }
  }

  lemma EnqueueLife(s: Conn, e: Event)
    requires Named(s) && Enabled(s, e) && IsEnqueue(e)
    ensures AllLive(s, e, EnqueueStep(s, e).reqs)
  {
    match e
    case ESendBackground(id) =>
      if s.connected { NewLives(s, e, id, Background(), SendBackground(s, id).reqs); } else { NoneLives(s, e); }
    case EQueueForget(f) => NoneLives(s, e);
  }

  lemma TakeLife(s: Conn, e: Event)
    requires Named(s) && Enabled(s, e) && IsTake(e)
    ensures AllLive(s, e, TakeStep(s, e).reqs)
  {
    Members(s.q, s.reqs);
    match e
    case ERead(d, max) =>
      if s.open && s.interrupts != [] { InterruptReadLives(s, d, max); }
      else if TakesRequest(s) { RequestReadLives(s, d, max); }
      else { OtherReadLives(s, d, max); }
    case ETooLarge(id, setxattr) => OneLives(s, e, id, Oversize(s.reqs[id], setxattr), TooLarge(s, id, setxattr).reqs);
  }

  lemma CopyLife(s: Conn, e: Event)
    requires Named(s) && Enabled(s, e) && IsCopy(e)
    ensures AllLive(s, e, CopyStep(s, e).reqs)
  {
    match e
    case EAddIo(id) => OneLives(s, e, id, StartCopy(s.reqs[id]), AddIo(s, id).reqs);
    case ELockRequest(id, locked) => OneLives(s, e, id, SetLocked(s.reqs[id], locked), LockRequest(s, id, locked).reqs);
  }

  lemma FinishLife(s: Conn, e: Event)
    requires Named(s) && Enabled(s, e) && IsFinish(e)
    ensures AllLive(s, e, FinishStep(s, e).reqs)
  {
    match e
    case EFinishRead(id, failed) =>  FinishReadLives(s, e);
    case EFinishReply(id, failed) =>  FinishReplyLives(s, e);
  }

  lemma SentLife(s: Conn, e: Event)
    requires Named(s) && Enabled(s, e) && IsSent(e)
    ensures AllLive(s, e, SentStep(s, e).reqs)
  {
    match e
    case ESetSent(id) => OneLives(s, e, id, Requests.Sent(s.reqs[id]), SetSent(s, id).reqs);
    case ETestInterrupted(id) => OneLives(s, e, id, TestedInterrupted(s.reqs[id]), TestInterrupted(s, id).reqs);
  }

  lemma SignalLife(s: Conn, e: Event)
    requires Named(s) && Enabled(s, e) && IsSignal(e)
    ensures AllLive(s, e, SignalStep(s, e).reqs)
  {
    match e
    case ESignal(id) => OneLives(s, e, id, Signalled(s.reqs[id]), Signal(s, id).reqs);
    case ETestSent(id) => OneLives(s, e, id, TestedSent(s.reqs[id]), TestSent(s, id).reqs);
  }

  lemma QueueLife(s: Conn, e: Event)
    requires Named(s) && Enabled(s, e) && IsQueue(e)
    ensures AllLive(s, e, QueueStep(s, e).reqs)
  {
    match e
    case EReaderQueue(id) => ReaderQueueLives(s, id);
    case EWaiterQueue(id) => WaiterQueueLives(s, id);
    case ERequeue(id) => NoneLives(s, e);
  }

  lemma ReplyLife(s: Conn, e: Event)
    requires Inv(s) && Enabled(s, e) && IsReply(e)
    ensures AllLive(s, e, ReplyStep(s, e).reqs)
  {
    match e
    case EReply(d, u, error, h) =>
      if id :| id in s.reqs && Names(s, e, id) {
        FindsNamed(s, e, id);
        NamedReply(s, d, u, error, h, id);
        AnswerLives(s, e, id);
      } else {
        NamesNone(s, e, d, u, error, h);
        NoneLives(s, e);
      }
  }

  lemma EndLife(s: Conn, e: Event)
    requires Named(s) && Enabled(s, e) && IsEnd(e)
    ensures AllLive(s, e, EndStep(s, e).reqs)
  {
    match e
    case EEndRemove(id) => OneLives(s, e, id, Removed(s.reqs[id]), EndRemove(s, id).reqs);
    case EEndCallback(id) => OneLives(s, e, id, CalledBack(s.reqs[id]), EndCallback(s, id).reqs);
  }

  lemma FlushLife(s: Conn, e: Event)
    requires Named(s) && Enabled(s, e) && IsFlush(e)
    ensures AllLive(s, e, FlushStep(s, e).reqs)
  {
    Members(s.q, s.reqs);
    match e
    case EEndAccount(id) => OneLives(s, e, id, Accounted(s.reqs[id]), EndAccount(s, id).reqs);
    case EFlushTurn => FlushTurnLives(s);
  }

  lemma WaitLife(s: Conn, e: Event)
    requires Named(s) && Enabled(s, e) && IsWait(e)
    ensures AllLive(s, e, WaitStep(s, e).reqs)
  {
    match e
    case EKill(id) => OneLives(s, e, id, Die(s.reqs[id]), Kill(s, id).reqs);
    case EReturn(id) => OneLives(s, e, id, s.reqs[id].(waiter := Returned), Return(s, id).reqs);
  }

  lemma ReleaseLife(s: Conn, e: Event)
    requires Named(s) && Enabled(s, e) && IsRelease(e)
    ensures AllLive(s, e, ReleaseStep(s, e).reqs)
  {
    match e
    case ERelease(id) => OneLives(s, e, id, Released(s.reqs[id]), Release(s, id).reqs);
  }

  lemma AbortLife(s: Conn, e: Event)
    requires Named(s) && Enabled(s, e) && IsAbort(e)
    ensures AllLive(s, e, AbortStep(s, e).reqs)
  {
    match e
    case EAbortBegin => NoneLives(s, e);
    case EAbortDevice(dev) => AbortDeviceLives(s, dev);
  }

  lemma CloseLife(s: Conn, e: Event)
    requires Named(s) && Enabled(s, e) && IsClose(e)
    ensures AllLive(s, e, CloseStep(s, e).reqs)
  {
    match e
    case EAbortFlush => NoneLives(s, e);
    case EAbortClose => AbortCloseLives(s);
  }

  lemma RestLife(s: Conn, e: Event)
    requires Named(s) && Enabled(s, e) && IsRest(e)
    ensures AllLive(s, e, RestStep(s, e).reqs)
  {
    Members(s.q, s.reqs);
    match e
    case EAbortEnd1(id) => OneLives(s, e, id, EndPrivate(s.reqs[id]), AbortEnd1(s, id).reqs);
    case EAbortPick(id) => NoneLives(s, e);
  }

  lemma PickedLife(s: Conn, e: Event)
    requires Named(s) && Enabled(s, e) && IsPicked(e)
    ensures AllLive(s, e, PickedStep(s, e).reqs)
  {
    match e
    case EUnlinkPicked(p) => OneLives(s, e, s.picked[p].id, Unlink(s.reqs[s.picked[p].id]), UnlinkPicked(s, p).reqs);
    case EEndPicked(p) => OneLives(s, e, s.picked[p].id, StartEnd(s.reqs[s.picked[p].id]), EndPicked(s, p).reqs);
  }

  lemma DeviceLife(s: Conn, e: Event)
    requires Named(s) && Enabled(s, e) && IsDevice(e)
    ensures AllLive(s, e, DeviceStep(s, e).reqs)
  {
    NoneLives(s, e);
  }

  lemma OutLife(s: Conn, e: Event)
    requires Inv(s) && Enabled(s, e) && IsOut(e)
    ensures AllLive(s, e, OutStep(s, e).reqs)
  {
    if IsSend(e) {
      SendLife(s, e);
    } else if IsEnqueue(e) {
      EnqueueLife(s, e);
    } else if IsTake(e) {
      TakeLife(s, e);
    } else {
      CopyLife(s, e);
    }
  }

  lemma PassLife(s: Conn, e: Event)
    requires Inv(s) && Enabled(s, e) && IsPass(e)
    ensures AllLive(s, e, PassStep(s, e).reqs)
  {
    if IsFinish(e) {
      FinishLife(s, e);
    } else if IsSent(e) {
      SentLife(s, e);
    } else if IsSignal(e) {
      SignalLife(s, e);
    } else {
      QueueLife(s, e);
    }
  }

  lemma BackLife(s: Conn, e: Event)
    requires Inv(s) && Enabled(s, e) && IsBack(e)
    ensures AllLive(s, e, BackStep(s, e).reqs)
  {
    if IsReply(e) {
      ReplyLife(s, e);
    } else if IsEnd(e) {
      EndLife(s, e);
    } else if IsFlush(e) {
      FlushLife(s, e);
    } else if IsWait(e) {
      WaitLife(s, e);
    } else {
      ReleaseLife(s, e);
    }
  }

  lemma DownLife(s: Conn, e: Event)
    requires Inv(s) && Enabled(s, e) && IsDown(e)
    ensures AllLive(s, e, DownStep(s, e).reqs)
  {
    if IsAbort(e) {
      AbortLife(s, e);
    } else if IsClose(e) {
      CloseLife(s, e);
    } else if IsRest(e) {
      RestLife(s, e);
    } else if IsPicked(e) {
      PickedLife(s, e);
    } else {
      DeviceLife(s, e);
    }
  }

  /** Every request lives on as said, whatever section of whatever thread comes next. */
  lemma NextLives(s: Conn, e: Event)
    requires Inv(s) && Enabled(s, e)
    ensures AllLive(s, e, Next(s, e).reqs)
  {
    if IsOut(e) {
      OutLife(s, e);
    } else if IsPass(e) {
      PassLife(s, e);
    } else if IsBack(e) {
      BackLife(s, e);
    } else {
      DownLife(s, e);
    }
  }
}
