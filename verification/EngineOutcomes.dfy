/** What requests come to over whole runs: with which error they end, in which order they are read, who is interrupted. */
module EngineOutcomes {
  import opened Errno
  import opened Lists
  import opened Pages
  import opened Requests
  import opened RequestQueues
  import opened RequestEngine
  import opened EngineInvariant
  import opened EngineEvolution
  import opened EngineTheorems
  import opened EngineAbort
  import opened EngineHistories
  import opened EngineOrders

  /** One section from a state of a run, seen from request id. */
  lemma Step(s: Conn, e: Event, id: ReqId, t: Conn)
    requires Inv(s) && t == Next(s, e)
    ensures Inv(t)
    ensures !Enabled(s, e) ==> t == s
    ensures Enabled(s, e) ==> LivesAt(s, e, t.reqs, id)
    ensures id in s.reqs ==> id in t.reqs && Evolves(s.open, s.reqs[id], t.reqs[id])
  {
    NextInv(s, e);
    NextEvolves(s, e);
    assert EvolvesAt(s.open, s.reqs, t.reqs, id);
    if Enabled(s, e) { NextLives(s, e); }
  }

  // ---------------------------------------------------------------- the error of an answered request

  /** In the run es from s, the copy of the reply to request id fails while its device is alive. */
  ghost predicate CopyFails(s: Conn, es: seq<Event>, id: ReqId)
    requires Inv(s)
    decreases |es|
  {
    && es != []
    && (|| (es[0].EFinishReply? && Fails(s, es[0], id))
        || (NextInv(s, es[0]); CopyFails(Next(s, es[0]), es[1..], id)))
  }

  /** In the run es from s, an abort comes to the device on whose io list request id is. */
  ghost predicate SweptIn(s: Conn, es: seq<Event>, id: ReqId)
    requires Inv(s)
    decreases |es|
  {
    && es != []
    && (|| (Enabled(s, es[0]) && Marks(s, es[0], id))
        || (NextInv(s, es[0]); SweptIn(Next(s, es[0]), es[1..], id)))
  }

  /** A writer copies the reply to the request, whose error has been stored, and no abort has come. */
  ghost predicate Answering(s: Conn, id: ReqId, error: int) {
    id in s.reqs && s.reqs[id].replier.Copying? && !s.reqs[id].finished && !s.reqs[id].aborted && s.reqs[id].error == error
  }

  /** Nobody else works on it meanwhile. */
  ghost predicate OnlyCopied(s: Conn, id: ReqId) {
    && id in s.reqs && s.reqs[id].on.OnIo? && !s.reqs[id].reader.InHand? && !s.reqs[id].reader.Reading? && !s.reqs[id].pending
    && id !in s.q.pending && id !in s.q.end1 && forall p :: !Grips(s, p, id)
  }

  lemma AnswerAlone(s: Conn, id: ReqId, error: int)
    requires Inv(s) && Answering(s, id, error)
    ensures OnlyCopied(s, id) && Alive(s, s.reqs[id].replier.dev)
  {
    Members(s.q, s.reqs);
    assert s.reqs[id].on.OnIo? && !Within(s.closed, s.reqs[id]) && !s.reqs[id].reader.InHand? && !s.reqs[id].reader.Reading?
      && !s.reqs[id].pending && Alive(s, s.reqs[id].replier.dev) by { At(s, id); }
    forall p ensures !Grips(s, p, id) {
      if p in s.picked { Gripped(s, p); }
    }
  }

  lemma AnswerGoesOn(s: Conn, e: Event, id: ReqId, r: Req)
    requires OnlyCopied(s, id) && Enabled(s, e) && Lives(s, e, id, r)
    requires !(e.EFinishReply? && e.id == id) && !Marks(s, e, id)
    ensures r.error == s.reqs[id].error && r.replier == s.reqs[id].replier
    ensures r.finished == s.reqs[id].finished && r.aborted == s.reqs[id].aborted
  {
  }

  lemma AnswerEnds(s: Conn, e: Event, id: ReqId, r: Req)
    requires OnlyCopied(s, id) && e.EFinishReply? && e.id == id && s.reqs[id].replier.Copying? && Lives(s, e, id, r)
    requires Alive(s, s.reqs[id].replier.dev)
    ensures r.finished && r.replier == ReplyDone && r.error == if e.failed then EIO else s.reqs[id].error
  {
  }

  /** The end of the copy or an abort ends that. */
  lemma AnswerStep(s: Conn, e: Event, id: ReqId, error: int, t: Conn)
    requires Inv(s) && Answering(s, id, error) && Enabled(s, e) && t == Next(s, e)
    ensures id in t.reqs && Alive(s, s.reqs[id].replier.dev)
    ensures e.EFinishReply? && e.id == id ==>
      t.reqs[id].finished && t.reqs[id].replier == ReplyDone && t.reqs[id].error == if e.failed then EIO else error
    ensures Marks(s, e, id) ==> t.reqs[id].aborted
    ensures e.EFinishReply? && Fails(s, e, id) <==> e.EFinishReply? && e.id == id && e.failed
    ensures !(e.EFinishReply? && e.id == id) && !Marks(s, e, id) ==> Answering(t, id, error)
  {
    assert LivesAt(s, e, t.reqs, id) by { Step(s, e, id, t); }
    AnswerAlone(s, id, error);
    if e.EFinishReply? && e.id == id {
      AnswerEnds(s, e, id, t.reqs[id]);
    } else if !Marks(s, e, id) {
      AnswerGoesOn(s, e, id, t.reqs[id]);
    }
  }

  /** The reply is in, and the request has ended. */
  ghost predicate Answered(s: Conn, id: ReqId) { id in s.reqs && s.reqs[id].finished && s.reqs[id].replier == ReplyDone }

  lemma AnsweredStays(s: Conn, e: Event, id: ReqId, r: Req)
    requires id in s.reqs && s.reqs[id].finished && s.reqs[id].replier == ReplyDone && !s.reqs[id].on.OnProcessing? && Lives(s, e, id, r)
    ensures r.finished && r.replier == ReplyDone
  {
  }

  lemma AnsweredStep(s: Conn, e: Event, id: ReqId, t: Conn)
    requires Inv(s) && Answered(s, id) && t == Next(s, e)
    ensures Inv(t) && Answered(t, id) && !s.reqs[id].on.OnIo?
  {
    Step(s, e, id, t);
    NotListed(s, id);
    if Enabled(s, e) { AnsweredStays(s, e, id, t.reqs[id]); }
  }

  /** Once the reply is in, neither happens any more. */
  lemma {:induction false} NoFailureAfter(s: Conn, es: seq<Event>, id: ReqId)
    requires Inv(s) && Answered(s, id)
    ensures !CopyFails(s, es, id)
    decreases |es|
  {
    if es != [] {
      AnsweredStep(s, es[0], id, Next(s, es[0]));
      NoFailureAfter(Next(s, es[0]), es[1..], id);
    }
  }

  lemma {:induction false} NoSweepAfter(s: Conn, es: seq<Event>, id: ReqId)
    requires Inv(s) && Answered(s, id)
    ensures !SweptIn(s, es, id)
    decreases |es|
  {
    if es != [] {
      AnsweredStep(s, es[0], id, Next(s, es[0]));
      NoSweepAfter(Next(s, es[0]), es[1..], id);
    }
  }

  lemma MarkedStep(s: Conn, e: Event, id: ReqId, t: Conn)
    requires Inv(s) && id in s.reqs && s.reqs[id].aborted && t == Next(s, e)
    ensures Inv(t) && id in t.reqs && t.reqs[id].aborted
    ensures s.reqs[id].replier.Copying? ==> !Alive(s, s.reqs[id].replier.dev)
  {
    Step(s, e, id, t);
    At(s, id);
  }

  /** A request that an abort has marked is on a dead device. */
  lemma {:induction false} MarkedNeverFails(s: Conn, es: seq<Event>, id: ReqId)
    requires Inv(s) && id in s.reqs && s.reqs[id].aborted
    ensures !CopyFails(s, es, id)
    decreases |es|
  {
    if es != [] {
      MarkedStep(s, es[0], id, Next(s, es[0]));
      MarkedNeverFails(Next(s, es[0]), es[1..], id);
    }
  }

  /** The error with which a request ends while the reply `error` to it is copied. */
  ghost predicate EndsWith(s: Conn, es: seq<Event>, id: ReqId, error: int, t: Conn)
    requires Inv(s)
  {
    && id in t.reqs && !(CopyFails(s, es, id) && SweptIn(s, es, id))
    && (t.reqs[id].finished ==>
          t.reqs[id].error == if CopyFails(s, es, id) then EIO else if SweptIn(s, es, id) then ECONNABORTED else error)
  }

  lemma AnswerIn(s: Conn, es: seq<Event>, id: ReqId)
    requires Inv(s) && Answered(s, id)
    ensures !CopyFails(s, es, id) && !SweptIn(s, es, id)
    ensures id in Run(s, es).reqs && Run(s, es).reqs[id].finished && Run(s, es).reqs[id].error == s.reqs[id].error
  {
    NoFailureAfter(s, es, id);
    NoSweepAfter(s, es, id);
    RunReq(s, es, id);
  }

  lemma AnswerLost(s: Conn, es: seq<Event>, id: ReqId)
    requires Inv(s) && id in s.reqs && s.reqs[id].aborted
    ensures !CopyFails(s, es, id)
    ensures id in Run(s, es).reqs && (Run(s, es).reqs[id].finished ==> Run(s, es).reqs[id].error == ECONNABORTED)
  {
    MarkedNeverFails(s, es, id);
    DoomedAborted(s, es, id);
  }

  lemma {:induction false} EndsLater(s: Conn, es: seq<Event>, id: ReqId, error: int, t: Conn)
    requires Inv(s) && es != [] && t == Next(s, es[0]) && Inv(t) && EndsWith(t, es[1..], id, error, Run(t, es[1..]))
    requires !(es[0].EFinishReply? && Fails(s, es[0], id)) && !(Enabled(s, es[0]) && Marks(s, es[0], id))
    ensures EndsWith(s, es, id, error, Run(s, es))
  {
  }

  lemma {:induction false} AnswerEvent(s: Conn, es: seq<Event>, id: ReqId, error: int, t: Conn)
    requires Inv(s) && Answering(s, id, error) && es != [] && t == Next(s, es[0]) && Inv(t) && Enabled(s, es[0])
    requires (es[0].EFinishReply? && es[0].id == id) || Marks(s, es[0], id)
    ensures EndsWith(s, es, id, error, Run(s, es))
  {
    AnswerStep(s, es[0], id, error, t);
    if es[0].EFinishReply? { AnswerIn(t, es[1..], id); } else { AnswerLost(t, es[1..], id); }
  }

  lemma {:induction false} AnswerOutcome(s: Conn, es: seq<Event>, id: ReqId, error: int)
    requires Inv(s) && Answering(s, id, error)
    ensures EndsWith(s, es, id, error, Run(s, es))
    decreases |es|
  {
    if es != [] {
      var e, t := es[0], Next(s, es[0]);
      NextInv(s, e);
      if Enabled(s, e) && ((e.EFinishReply? && e.id == id) || Marks(s, e, id)) {
        AnswerEvent(s, es, id, error, t);
      } else {
        if Enabled(s, e) { AnswerStep(s, e, id, error, t); }
        AnswerOutcome(t, es[1..], id, error);
        EndsLater(s, es, id, error, t);
      }
    }
  }

  /** What becomes of a reply. The server answers request id, by its own ID and over a live device, with an accepted
      error: in every later run, if the request has ended, it has ended with -EIO if the copy of that reply failed while
      the device was alive, with -ECONNABORTED if an abort came to its device before the copy was over, and otherwise
      with the error of the server; the first two exclude each other. */
  lemma ReplyError(s: Conn, d: DevId, u: nat, error: int, headerOnly: bool, es: seq<Event>, id: ReqId)
    requires Inv(s) && Enabled(s, EReply(d, u, error, headerOnly))
    requires u != 0 && -1000 < error <= 0 && Alive(s, d)
    requires id in s.reqs && s.reqs[id].on == OnProcessing(d) && s.reqs[id].unique == u
    ensures Inv(Next(s, EReply(d, u, error, headerOnly)))
    ensures
      var t := Next(s, EReply(d, u, error, headerOnly));
      var failed, swept := CopyFails(t, es, id), SweptIn(t, es, id);
      && id in Run(t, es).reqs && !(failed && swept)
      && (var r := Run(t, es).reqs[id];
          r.finished ==>
            && (r.error == EIO <==> failed || (error == EIO && !swept))
            && (r.error == ECONNABORTED <==> swept || (error == ECONNABORTED && !failed))
            && (!failed && !swept ==> r.error == error))
  {
    var e := EReply(d, u, error, headerOnly);
    var t := Next(s, e);
    Step(s, e, id, t);
    assert Answering(t, id, error) by { At(s, id); }
    AnswerOutcome(t, es, id, error);
  }

  // ---------------------------------------------------------------- no success without a reply

  /** A request that expects a reply and ends without one ends with an error, unless the connection is down. */
  ghost predicate Accountable(connected: bool, r: Req) {
    r.isReply && r.finished && r.replier != ReplyDone ==> r.error in {EIO, E2BIG, ECONNABORTED} || (r.error == 0 && !connected)
  }

  /** Who is at the request when it ends. */
  ghost predicate EndsSoon(s: Conn, e: Event, id: ReqId) {
    && id in s.reqs && s.reqs[id].isReply && !s.reqs[id].finished
    && (e.EFinishRead? && e.id == id ==>
          && s.reqs[id].reader.Reading?
          && (if s.reqs[id].aborted then s.reqs[id].error == ECONNABORTED && !DevAlive(s, s.reqs[id].reader.dev)
              else s.reqs[id].error == 0 && (s.connected ==> DevAlive(s, s.reqs[id].reader.dev))))
    && (e == EAbortEnd1(id) || (e.EEndPicked? && Grips(s, e.picker, id)) ==> s.reqs[id].error == ECONNABORTED)
  }

  lemma EndingFacts(f: Flags, queued: bool, r: Req)
    requires RequestOk(f, queued, r) && r.isReply && !r.finished
    ensures r.reader.Reading? ==> r.reader.dev in f.devs && if r.aborted then r.error == ECONNABORTED && !f.devs[r.reader.dev] else r.error == 0
    ensures r.on == OnEnd1 || r.unlinked ==> r.error == ECONNABORTED
  {
  }

  lemma EndingAt(s: Conn, id: ReqId)
    requires Inv(s) && id in s.reqs && s.reqs[id].isReply && !s.reqs[id].finished
    ensures
      var r := s.reqs[id];
      && (r.reader.Reading? ==>
            && r.reader.dev in s.devs && (s.connected ==> s.devs[r.reader.dev])
            && if r.aborted then r.error == ECONNABORTED && !s.devs[r.reader.dev] else r.error == 0)
      && (r.on == OnEnd1 || r.unlinked ==> r.error == ECONNABORTED)
  {
    At(s, id);
    EndingFacts(FlagsOf(s), id in s.interrupts, s.reqs[id]);
  }

  /** What the loops of abort and release end is on their lists or unlinked. */
  lemma EndingOn(s: Conn, e: Event, id: ReqId)
    requires Inv(s) && Enabled(s, e) && id in s.reqs
    ensures e == EAbortEnd1(id) ==> s.reqs[id].on == OnEnd1
    ensures e.EEndPicked? && Grips(s, e.picker, id) ==> s.reqs[id].unlinked
  {
    Members(s.q, s.reqs);
    if e.EEndPicked? { Gripped(s, e.picker); }
  }

  lemma EndingRequest(s: Conn, e: Event, id: ReqId)
    requires Inv(s) && Enabled(s, e) && id in s.reqs && s.reqs[id].isReply && !s.reqs[id].finished
    ensures EndsSoon(s, e, id)
  {
    EndingAt(s, id);
    EndingOn(s, e, id);
  }

  lemma EndsAccountably(s: Conn, e: Event, id: ReqId, r: Req)
    requires EndsSoon(s, e, id) && Lives(s, e, id, r)
    ensures Accountable(s.connected, r)
  {
  }

  lemma StaysAccountable(s: Conn, e: Event, id: ReqId, r: Req, connected: bool)
    requires id in s.reqs && Accountable(s.connected, s.reqs[id]) && (connected ==> s.connected)
    requires Lives(s, e, id, r) && r.error == s.reqs[id].error && s.reqs[id].finished && !s.reqs[id].on.OnProcessing?
    ensures Accountable(connected, r)
  {
  }

  lemma NotListed(s: Conn, id: ReqId)
    requires Inv(s) && id in s.reqs && s.reqs[id].finished
    ensures !s.reqs[id].on.OnProcessing? && !s.reqs[id].on.OnIo?
  {
    At(s, id);
  }

  lemma AccountEnabled(s: Conn, e: Event, id: ReqId, r: Req, connected: bool)
    requires Inv(s) && Enabled(s, e) && id in s.reqs && s.reqs[id].isReply && Accountable(s.connected, s.reqs[id])
    requires Lives(s, e, id, r) && (s.reqs[id].finished ==> r.error == s.reqs[id].error) && (connected ==> s.connected)
    ensures Accountable(connected, r)
  {
    if s.reqs[id].finished {
      NotListed(s, id);
      StaysAccountable(s, e, id, r, connected);
    } else {
      EndingRequest(s, e, id);
      EndsAccountably(s, e, id, r);
    }
  }

  lemma AccountStep(s: Conn, e: Event, id: ReqId, t: Conn)
    requires Inv(s) && t == Next(s, e) && (id in s.reqs ==> Accountable(s.connected, s.reqs[id]))
    ensures Inv(t) && (id in t.reqs ==> Accountable(t.connected, t.reqs[id]))
  {
    Step(s, e, id, t);
    NextFlags(s, e);
    if Enabled(s, e) && id in s.reqs && s.reqs[id].isReply { AccountEnabled(s, e, id, t.reqs[id], t.connected); }
  }

  lemma {:induction false} AccountRun(s: Conn, es: seq<Event>, id: ReqId)
    requires Inv(s) && (id in s.reqs ==> Accountable(s.connected, s.reqs[id]))
    ensures id in Run(s, es).reqs ==> Accountable(Run(s, es).connected, Run(s, es).reqs[id])
    decreases |es|
  {
    if es != [] {
      AccountStep(s, es[0], id, Next(s, es[0]));
      AccountRun(Next(s, es[0]), es[1..], id);
    }
  }

  /** No request that expects a reply is taken for answered when it is not: in every reachable state, if it has ended with
      no error, its reply is in, or the connection is down; and the errors with which it can end without a reply are
      those of its reader, -EIO and -E2BIG, and that of an abort or a release. */
  lemma {:induction false} NoSuccessWithoutReply(maxBackground: nat, es: seq<Event>, id: ReqId)
    requires 0 < maxBackground <= UINT_MAX
    ensures Inv(Init(maxBackground))
    ensures
      var s := Run(Init(maxBackground), es);
      id in s.reqs && s.reqs[id].isReply && s.reqs[id].finished && s.reqs[id].replier != ReplyDone ==>
        s.reqs[id].error in {EIO, E2BIG, ECONNABORTED} || (s.reqs[id].error == 0 && !s.connected)
  {
    InitInv(maxBackground);
    AccountRun(Init(maxBackground), es, id);
  }
}
