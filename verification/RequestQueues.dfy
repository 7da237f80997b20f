/**
 The lists that hold requests. A request's `list` node links it on at most one of them, and the request
 knows which: Located says that the lists hold exactly the requests whose node is linked on them, so
 that every list_move of the source is one Move from the place that the request names to another, and
 MoveLinked is all that a section has to know about the lists it touches.
 */
module RequestQueues {
  import opened Lists
  import opened Requests

  datatype Queues = Queues(
    bg: seq<ReqId>, pending: seq<ReqId>,
    io: map<DevId, set<ReqId>>, processing: map<DevId, seq<ReqId>>,
    end1: set<ReqId>, end2: set<ReqId>)

  const Empty := Queues([], [], map[], map[], {}, {})

  function PlaceOf(reqs: map<ReqId, Req>, id: ReqId): Place {
    if id in reqs then reqs[id].on else Nowhere
  }

  /** One list when the node of request id leaves it or joins its tail; a node that does both stays. */
  function Relink(list: seq<ReqId>, id: ReqId, leaves: bool, joins: bool): seq<ReqId> {
    if leaves == joins then list else if leaves then Without(list, id) else list + [id]
  }

  function RelinkSet(list: set<ReqId>, id: ReqId, leaves: bool, joins: bool): set<ReqId> {
    if leaves == joins then list else if leaves then list - {id} else list + {id}
  }

  /** list_del from one list and list_add_tail to the other; a node that stays is not touched. */
  function Move(q: Queues, id: ReqId, from: Place, to: Place): Queues {
    Queues(
      Relink(q.bg, id, from == OnBg, to == OnBg),
      Relink(q.pending, id, from == OnPending, to == OnPending),
      map d | d in q.io :: RelinkSet(q.io[d], id, from == OnIo(d), to == OnIo(d)),
      map d | d in q.processing :: Relink(q.processing[d], id, from == OnProcessing(d), to == OnProcessing(d)),
      RelinkSet(q.end1, id, from == OnEnd1, to == OnEnd1),
      RelinkSet(q.end2, id, from == OnEnd2, to == OnEnd2))
  }

  /** Whether the node of request id is linked on the list that `place` names. */
  ghost predicate On(q: Queues, place: Place, id: ReqId) {
    match place
    case Nowhere => false
    case OnBg => id in q.bg
    case OnPending => id in q.pending
    case OnIo(d) => d in q.io && id in q.io[d]
    case OnProcessing(d) => d in q.processing && id in q.processing[d]
    case OnEnd1 => id in q.end1
    case OnEnd2 => id in q.end2
  }

  ghost predicate Once(q: Queues) {
    NoDup(q.bg) && NoDup(q.pending) && forall d :: d in q.processing ==> NoDup(q.processing[d])
  }

  ghost predicate HasDevices(q: Queues, devs: map<DevId, bool>) {
    q.io.Keys == devs.Keys && q.processing.Keys == devs.Keys
  }

  ghost predicate Located(q: Queues, reqs: map<ReqId, Req>) {
    forall p, id :: p != Nowhere ==> (On(q, p, id) <==> PlaceOf(reqs, id) == p)
  }

  /** Every list holds exactly the requests whose node is linked on it, each once. */
  ghost predicate Linked(q: Queues, reqs: map<ReqId, Req>, devs: map<DevId, bool>) {
    Located(q, reqs) && Once(q) && HasDevices(q, devs)
  }

  /** What membership of a list says about a request. */
  lemma Members(q: Queues, reqs: map<ReqId, Req>)
    requires Located(q, reqs)
    ensures forall id :: id in q.bg ==> id in reqs && reqs[id].on == OnBg
    ensures forall id :: id in q.pending ==> id in reqs && reqs[id].on == OnPending
    ensures forall id :: id in q.end1 ==> id in reqs && reqs[id].on == OnEnd1
    ensures forall id :: id in q.end2 ==> id in reqs && reqs[id].on == OnEnd2
    ensures forall d, id :: d in q.io && id in q.io[d] ==> id in reqs && reqs[id].on == OnIo(d)
    ensures forall d, id :: d in q.processing && id in q.processing[d] ==> id in reqs && reqs[id].on == OnProcessing(d)
  {
    assert forall id :: id in q.bg ==> On(q, OnBg, id);
    assert forall id :: id in q.pending ==> On(q, OnPending, id);
    assert forall id :: id in q.end1 ==> On(q, OnEnd1, id);
    assert forall id :: id in q.end2 ==> On(q, OnEnd2, id);
    assert forall d, id :: d in q.io && id in q.io[d] ==> On(q, OnIo(d), id);
    assert forall d, id :: d in q.processing && id in q.processing[d] ==> On(q, OnProcessing(d), id);
  }

  /** A request is on one list at most, and on no list twice. */
  lemma OnOneList(q: Queues, reqs: map<ReqId, Req>, devs: map<DevId, bool>, id: ReqId, p: Place, p': Place)
    requires Linked(q, reqs, devs)
    requires On(q, p, id) && On(q, p', id)
    ensures p == p' == PlaceOf(reqs, id)
  {
  }

  lemma {:induction false} RelinkOnce(list: seq<ReqId>, id: ReqId, leaves: bool, joins: bool)
    requires NoDup(list) && (joins && !leaves ==> id !in list)
    ensures NoDup(Relink(list, id, leaves, joins))
    ensures forall x :: x in Relink(list, id, leaves, joins) <==> if leaves != joins && x == id then joins else x in list
  {
  }

  lemma MoveOnce(q: Queues, id: ReqId, from: Place, to: Place)
    requires Once(q)
    requires forall p :: p != Nowhere ==> (On(q, p, id) <==> from == p)
    ensures Once(Move(q, id, from, to))
  {
    assert On(q, OnBg, id) <==> from == OnBg;
    assert On(q, OnPending, id) <==> from == OnPending;
    RelinkOnce(q.bg, id, from == OnBg, to == OnBg);
    RelinkOnce(q.pending, id, from == OnPending, to == OnPending);
    forall d | d in q.processing
      ensures NoDup(Relink(q.processing[d], id, from == OnProcessing(d), to == OnProcessing(d)))
    {
      assert On(q, OnProcessing(d), id) <==> from == OnProcessing(d);
      RelinkOnce(q.processing[d], id, from == OnProcessing(d), to == OnProcessing(d));
    }
  }

  lemma MoveOn(q: Queues, id: ReqId, from: Place, to: Place, p: Place, x: ReqId)
    requires Once(q) && p != Nowhere
    requires forall p' :: p' != Nowhere ==> (On(q, p', id) <==> from == p')
    requires to.OnIo? ==> to.dev in q.io
    requires to.OnProcessing? ==> to.dev in q.processing
    ensures On(Move(q, id, from, to), p, x) <==> if x == id then p == to else On(q, p, x)
  {
    assert On(q, p, id) <==> from == p;
    match p
    case OnBg => RelinkOnce(q.bg, id, from == OnBg, to == OnBg);
    case OnPending => RelinkOnce(q.pending, id, from == OnPending, to == OnPending);
    case OnProcessing(d) => MoveOnProcessing(q, id, from, to, d, x);
    case _ =>
  }

  lemma MoveOnProcessing(q: Queues, id: ReqId, from: Place, to: Place, d: DevId, x: ReqId)
    requires Once(q) && (On(q, OnProcessing(d), id) <==> from == OnProcessing(d))
    requires to.OnProcessing? ==> to.dev in q.processing
    ensures On(Move(q, id, from, to), OnProcessing(d), x) <==> if x == id then OnProcessing(d) == to else On(q, OnProcessing(d), x)
  {
    if d in q.processing { RelinkOnce(q.processing[d], id, from == OnProcessing(d), to == OnProcessing(d)); }
  }

  /** Moving one node keeps every list consistent. */
  lemma MoveLinked(q: Queues, reqs: map<ReqId, Req>, devs: map<DevId, bool>, id: ReqId, r: Req)
    requires Linked(q, reqs, devs)
    requires r.on.OnIo? || r.on.OnProcessing? ==> r.on.dev in devs
    ensures Linked(Move(q, id, PlaceOf(reqs, id), r.on), reqs[id := r], devs)
  {
    var from := PlaceOf(reqs, id);
    var q' := Move(q, id, from, r.on);
    MoveOnce(q, id, from, r.on);
    forall p, x | p != Nowhere ensures On(q', p, x) <==> PlaceOf(reqs[id := r], x) == p {
      MoveOn(q, id, from, r.on, p, x);
      assert On(q, p, x) <==> PlaceOf(reqs, x) == p;
    }
  }

  // What each move of the source changes.

  lemma Stay(q: Queues, id: ReqId, p: Place)
    ensures Move(q, id, p, p) == q
  {
  }

  lemma JoinPending(q: Queues, id: ReqId)
    ensures Move(q, id, Nowhere, OnPending) == q.(pending := q.pending + [id])
  {
  }

  lemma JoinBg(q: Queues, id: ReqId)
    ensures Move(q, id, Nowhere, OnBg) == q.(bg := q.bg + [id])
  {
  }

  lemma BgToPending(q: Queues)
    requires NoDup(q.bg) && q.bg != []
    ensures Move(q, q.bg[0], OnBg, OnPending) == q.(bg := q.bg[1..], pending := q.pending + [q.bg[0]])
  {
    WithoutHead(q.bg);
  }

  lemma {:induction false} LeavePending(q: Queues, id: ReqId)
    ensures Move(q, id, OnPending, Nowhere) == q.(pending := Without(q.pending, id))
    ensures NoDup(q.pending) && q.pending != [] && id == q.pending[0] ==> Without(q.pending, id) == q.pending[1..]
  {
    if NoDup(q.pending) && q.pending != [] { WithoutHead(q.pending); }
  }

  lemma JoinIo(q: Queues, id: ReqId, d: DevId)
    requires d in q.io
    ensures Move(q, id, Nowhere, OnIo(d)) == q.(io := q.io[d := q.io[d] + {id}])
  {
  }

  lemma LeaveIo(q: Queues, id: ReqId, d: DevId)
    requires d in q.io
    ensures Move(q, id, OnIo(d), Nowhere) == q.(io := q.io[d := q.io[d] - {id}])
  {
  }

  lemma IoToProcessing(q: Queues, id: ReqId, d: DevId)
    requires d in q.io && d in q.processing
    ensures Move(q, id, OnIo(d), OnProcessing(d)) ==
      q.(io := q.io[d := q.io[d] - {id}], processing := q.processing[d := q.processing[d] + [id]])
  {
  }

  lemma {:induction false} ProcessingToIo(q: Queues, id: ReqId, d: DevId)
    requires d in q.io && d in q.processing
    ensures Move(q, id, OnProcessing(d), OnIo(d)) ==
      q.(io := q.io[d := q.io[d] + {id}], processing := q.processing[d := Without(q.processing[d], id)])
  {
  }

  lemma {:induction false} LeaveProcessing(q: Queues, id: ReqId, d: DevId)
    requires d in q.processing
    ensures Move(q, id, OnProcessing(d), Nowhere) == q.(processing := q.processing[d := Without(q.processing[d], id)])
  {
  }

  lemma LeaveEnd(q: Queues, id: ReqId)
    ensures Move(q, id, OnEnd1, Nowhere) == q.(end1 := q.end1 - {id})
    ensures Move(q, id, OnEnd2, Nowhere) == q.(end2 := q.end2 - {id})
  {
  }
}
