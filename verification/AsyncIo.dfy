/**
 Asynchronous direct I/O (old/fuse/file.c): one read or write is sent as contiguous sub-requests
 that complete in any order, and struct fuse_io_priv reduces their outcomes to one result.
 */
module AsyncIo {

  import opened Errno

  /** What came back for a sub-request: its error, and how many bytes if there was none. */
  datatype Outcome = Waiting | Done(err: int, n: nat)

  datatype Part = Part(size: nat, out: Outcome)

  /** struct fuse_io_priv, with histories: the sub-requests in the order they were sent, the errors in
      the order they arrived, whether the submitter's own fuse_aio_complete is still to come, and how
      often completion was signalled. */
  datatype Io = Io(
    write: bool, reqs: int, bytes: int, size: nat, err: int,
    parts: seq<Part>, errors: seq<int>, submitting: bool, signals: nat)

  function Init(write: bool): Io { Io(write, 1, -1, 0, 0, [], [], true, 0) }

  /** Where sub-request i starts, relative to the whole. */
  function Start(parts: seq<Part>, i: nat): nat
    requires i <= |parts|
  {
    if i == 0 then 0 else Start(parts, i - 1) + parts[i - 1].size
  }

  /** fuse_async_req_send. */
  function Send(io: Io, n: nat): Io {
    io.(reqs := io.reqs + 1, size := io.size + n, parts := io.parts + [Part(n, Waiting)])
  }

  /** fuse_aio_complete: the first error wins; without one, the smallest position does. */
  function Complete(io: Io, err: int, pos: int): Io {
    io.(err := if err != 0 && io.err == 0 then err else io.err,
        bytes := if err == 0 && pos >= 0 && (io.bytes < 0 || pos < io.bytes) then pos else io.bytes,
        reqs := io.reqs - 1,
        signals := io.signals + if io.reqs == 1 then 1 else 0,
        errors := if err != 0 then io.errors + [err] else io.errors)
  }

  /** fuse_aio_complete_req for sub-request i, of which n bytes came back. */
  function CompleteReq(io: Io, i: nat, err: int, n: nat): Io
    requires i < |io.parts|
  {
    var pos := if io.parts[i].size != n then Start(io.parts, i) + n else -1;
    Complete(io, err, pos).(parts := io.parts[i := io.parts[i].(out := Done(err, n))])
  }

  /** The submitter's own completion, with the error of its submission loop if that failed. */
  function EndSubmit(io: Io, ret: int): Io { Complete(io, if ret < 0 then ret else 0, -1).(submitting := false) }

  /** fuse_get_res_by_io. */
  function Result(io: Io): int {
    if io.err != 0 then io.err
    else if io.bytes >= 0 && io.write then EIO
    else if io.bytes < 0 then io.size else io.bytes
  }

  datatype Event = ESend(n: nat) | EComplete(i: nat, err: int, n: nat) | EEndSubmit(ret: int)

  /** A sub-request completes once, and a successful read returns no more than was asked for. */
  predicate Enabled(io: Io, e: Event) {
    match e
    case ESend(_) => io.submitting
    case EComplete(i, err, n) => i < |io.parts| && io.parts[i].out.Waiting? && (!io.write && err == 0 ==> n <= io.parts[i].size)
    case EEndSubmit(_) => io.submitting
  }

  function Next(io: Io, e: Event): Io {
    if !Enabled(io, e) then io
    else
      match e
      case ESend(n) => Send(io, n)
      case EComplete(i, err, n) => CompleteReq(io, i, err, n)
      case EEndSubmit(ret) => EndSubmit(io, ret)
  }

  // ---------------------------------------------------------------- the invariant

  function Pending(parts: seq<Part>, k: nat): nat
    requires k <= |parts|
  {
    if k == 0 then 0 else Pending(parts, k - 1) + if parts[k - 1].out.Waiting? then 1 else 0
  }

  /** Sub-request i came back without an error, but not with the bytes asked for. */
  predicate Short(parts: seq<Part>, i: nat)
    requires i < |parts|
  {
    parts[i].out.Done? && parts[i].out.err == 0 && parts[i].out.n != parts[i].size
  }

  /** `bytes` is the smallest end of a short sub-request, or -1. */
  predicate BytesOk(parts: seq<Part>, bytes: int) {
    && -1 <= bytes
    && (forall i :: 0 <= i < |parts| && Short(parts, i) ==> 0 <= bytes <= Start(parts, i) + parts[i].out.n)
    && (bytes >= 0 ==> exists i :: 0 <= i < |parts| && Short(parts, i) && bytes == Start(parts, i) + parts[i].out.n)
  }

  /** Outcomes agree with the errors that arrived, and reads are never longer than asked for. */
  predicate OutcomesOk(io: Io) {
    forall i :: 0 <= i < |io.parts| && io.parts[i].out.Done? ==>
      && (io.parts[i].out.err != 0 ==> io.errors != [])
      && (!io.write && io.parts[i].out.err == 0 ==> io.parts[i].out.n <= io.parts[i].size)
  }

  predicate Inv(io: Io) {
    && io.reqs == Pending(io.parts, |io.parts|) + (if io.submitting then 1 else 0)
    && io.signals == (if io.reqs == 0 then 1 else 0)
    && io.size == Start(io.parts, |io.parts|)
    && BytesOk(io.parts, io.bytes)
    && io.err == (if io.errors == [] then 0 else io.errors[0])
    && (forall e :: e in io.errors ==> e != 0)
    && OutcomesOk(io)
  }

  lemma {:induction false} StartSame(a: seq<Part>, b: seq<Part>, k: nat)
    requires k <= |a| && k <= |b| && forall i :: 0 <= i < k ==> a[i].size == b[i].size
    ensures Start(a, k) == Start(b, k)
  {
    if k > 0 { StartSame(a, b, k - 1); }
  }

  lemma {:induction false} PendingSame(a: seq<Part>, b: seq<Part>, k: nat)
    requires k <= |a| && k <= |b| && forall i :: 0 <= i < k ==> a[i].out == b[i].out
    ensures Pending(a, k) == Pending(b, k)
  {
    if k > 0 { PendingSame(a, b, k - 1); }
  }

  lemma {:induction false} PendingDone(a: seq<Part>, i: nat, out: Outcome, k: nat)
    requires i < k <= |a| && a[i].out.Waiting? && out.Done?
    ensures Pending(a[i := a[i].(out := out)], k) == Pending(a, k) - 1
  {
    var b := a[i := a[i].(out := out)];
    if i < k - 1 {
      PendingDone(a, i, out, k - 1);
    } else {
      PendingSame(a, b, k - 1);
    }
  }

  lemma SendInv(io: Io, n: nat)
    requires Inv(io) && io.submitting
    ensures Inv(Send(io, n))
  {
    var parts' := io.parts + [Part(n, Waiting)];
    StartSame(io.parts, parts', |io.parts|);
    PendingSame(io.parts, parts', |io.parts|);
    forall i | 0 <= i < |io.parts| ensures Start(parts', i) == Start(io.parts, i) { StartSame(io.parts, parts', i); }
    assert forall i :: 0 <= i < |io.parts| ==> Short(parts', i) == Short(io.parts, i);
  }

  /** The positions after sub-request i is done. */
  lemma {:induction false} DoneBytes(parts: seq<Part>, bytes: int, i: nat, err: int, n: nat, bytes': int)
    requires BytesOk(parts, bytes) && i < |parts| && parts[i].out.Waiting?
    requires var pos := if parts[i].size != n then Start(parts, i) + n else -1;
      bytes' == if err == 0 && pos >= 0 && (bytes < 0 || pos < bytes) then pos else bytes
    ensures BytesOk(parts[i := parts[i].(out := Done(err, n))], bytes')
  {
    var parts' := parts[i := parts[i].(out := Done(err, n))];
    forall j | 0 <= j < |parts| ensures Start(parts', j) == Start(parts, j) { StartSame(parts, parts', j); }
    assert forall j :: 0 <= j < |parts| && j != i ==> Short(parts', j) == Short(parts, j);
    assert Short(parts', i) <==> err == 0 && n != parts[i].size;
    if bytes >= 0 {
      var j :| 0 <= j < |parts| && Short(parts, j) && bytes == Start(parts, j) + parts[j].out.n;
      assert j != i && Short(parts', j) && bytes == Start(parts', j) + parts'[j].out.n;
    }
  }

  /** The error that is kept is the first one. */
  lemma FirstErrorStays(io: Io, err: int, pos: int)
    requires Inv(io)
    ensures var t := Complete(io, err, pos);
      t.err == (if t.errors == [] then 0 else t.errors[0]) && (forall e :: e in t.errors ==> e != 0)
  {
    if io.errors != [] { assert io.errors[0] in io.errors; }
  }

  lemma CompleteInv(io: Io, i: nat, err: int, n: nat)
    requires Inv(io) && Enabled(io, EComplete(i, err, n))
    ensures Inv(CompleteReq(io, i, err, n))
  {
    var t := CompleteReq(io, i, err, n);
    FirstErrorStays(io, err, if io.parts[i].size != n then Start(io.parts, i) + n else -1);
    DoneBytes(io.parts, io.bytes, i, err, n, t.bytes);
    PendingDone(io.parts, i, Done(err, n), |io.parts|);
    StartSame(io.parts, t.parts, |io.parts|);
  }

  lemma NextInv(io: Io, e: Event)
    requires Inv(io)
    ensures Inv(Next(io, e))
  {
    if Enabled(io, e) {
      match e
      case ESend(n) => SendInv(io, n);
      case EComplete(i, err, n) => CompleteInv(io, i, err, n);
      case EEndSubmit(ret) => FirstErrorStays(io, if ret < 0 then ret else 0, -1);
    }
  }

  function Run(io: Io, es: seq<Event>): Io
    decreases |es|
  {
    if es == [] then io else Run(Next(io, es[0]), es[1..])
  }

  lemma {:induction false} RunInv(io: Io, es: seq<Event>)
    requires Inv(io)
    ensures Inv(Run(io, es))
    decreases |es|
  {
    if es != [] {
      NextInv(io, es[0]);
      RunInv(Next(io, es[0]), es[1..]);
    }
  }

  // ---------------------------------------------------------------- results

  lemma {:induction false} NonePending(parts: seq<Part>, k: nat)
    requires k <= |parts|
    ensures Pending(parts, k) == 0 <==> forall i :: 0 <= i < k ==> parts[i].out.Done?
  {
    if k > 0 { NonePending(parts, k - 1); }
  }

  /** Whatever the order of completion, completion is signalled at most once, and it is signalled
      exactly when every sub-request has come back and the submitter has made its own call. */
  lemma {:induction false} SignalledOnce(write: bool, es: seq<Event>)
    ensures var io := Run(Init(write), es);
      && io.signals <= 1
      && (io.signals == 1 <==> !io.submitting && forall i :: 0 <= i < |io.parts| ==> io.parts[i].out.Done?)
  {
    RunInv(Init(write), es);
    var io := Run(Init(write), es);
    NonePending(io.parts, |io.parts|);
  }

  /** After the signal no section touches the record any more, so its reader sees the final result. */
  lemma {:induction false} SettledAfterSignal(io: Io, es: seq<Event>)
    requires Inv(io) && io.signals == 1
    ensures Run(io, es) == io
    decreases |es|
  {
    if es != [] {
      NonePending(io.parts, |io.parts|);
      SettledAfterSignal(io, es[1..]);
    }
  }

  /** The bytes transferred without a gap from sub-request k on: the reference for a read's result. */
  function Contiguous(parts: seq<Part>, k: nat): nat
    requires k <= |parts| && forall i :: 0 <= i < |parts| ==> parts[i].out.Done?
    decreases |parts| - k
  {
    if k == |parts| then 0
    else if parts[k].out.n == parts[k].size then parts[k].size + Contiguous(parts, k + 1)
    else parts[k].out.n
  }

  lemma {:induction false} StartGrows(parts: seq<Part>, i: nat, j: nat)
    requires i < j <= |parts|
    ensures Start(parts, i) + parts[i].size <= Start(parts, j)
  {
    if i < j - 1 { StartGrows(parts, i, j - 1); }
  }

  lemma {:induction false} ContiguousIsBytes(parts: seq<Part>, bytes: int, k: nat)
    requires k <= |parts| && BytesOk(parts, bytes)
    requires forall i :: 0 <= i < |parts| ==> parts[i].out.Done? && parts[i].out.err == 0 && parts[i].out.n <= parts[i].size
    requires forall i :: 0 <= i < k ==> parts[i].out.n == parts[i].size
    ensures Start(parts, k) + Contiguous(parts, k) == if bytes < 0 then Start(parts, |parts|) else bytes
    decreases |parts| - k
  {
    if k == |parts| {
    } else if parts[k].out.n == parts[k].size {
      ContiguousIsBytes(parts, bytes, k + 1);
    } else {
      assert Short(parts, k);
      var i :| 0 <= i < |parts| && Short(parts, i) && bytes == Start(parts, i) + parts[i].out.n;
      assert i >= k;
      if i > k { StartGrows(parts, k, i); }
    }
  }

  // What the events say, without the record.

  /** The error that event e brings, if the event can happen: a failed sub-request, or a failed submission loop. */
  function ErrorOf(io: Io, e: Event): int {
    if !Enabled(io, e) then 0
    else
      match e
      case ESend(_) => 0
      case EComplete(_, err, _) => err
      case EEndSubmit(ret) => if ret < 0 then ret else 0
  }

  /** The first error that arrives, or 0. */
  function FirstError(io: Io, es: seq<Event>): int
    decreases |es|
  {
    if es == [] then 0
    else if ErrorOf(io, es[0]) != 0 then ErrorOf(io, es[0])
    else FirstError(Next(io, es[0]), es[1..])
  }

  /** The sizes that are sent, in order. */
  function SentIn(io: Io, es: seq<Event>): seq<nat>
    decreases |es|
  {
    if es == [] then []
    else (if es[0].ESend? && Enabled(io, es[0]) then [es[0].n] else []) + SentIn(Next(io, es[0]), es[1..])
  }

  /** What comes back for sub-request i. */
  function CameIn(io: Io, es: seq<Event>, i: nat): Outcome
    decreases |es|
  {
    if es == [] then Waiting
    else if es[0].EComplete? && es[0].i == i && Enabled(io, es[0]) then Done(es[0].err, es[0].n)
    else CameIn(Next(io, es[0]), es[1..], i)
  }

  /** The submitter has made its own call. */
  predicate EndedIn(io: Io, es: seq<Event>)
    decreases |es|
  {
    es != [] && ((es[0].EEndSubmit? && Enabled(io, es[0])) || EndedIn(Next(io, es[0]), es[1..]))
  }

  /** The first error wins. */
  lemma {:induction false} FirstErrorKept(io: Io, es: seq<Event>)
    ensures Run(io, es).err == if io.err != 0 then io.err else FirstError(io, es)
    decreases |es|
  {
    if es != [] { FirstErrorKept(Next(io, es[0]), es[1..]); }
  }

  lemma {:induction false} NoErrors(io: Io, es: seq<Event>)
    ensures Run(io, es).errors == [] <==> io.errors == [] && FirstError(io, es) == 0
    decreases |es|
  {
    if es != [] { NoErrors(Next(io, es[0]), es[1..]); }
  }

  /** One event and sub-request i. */
  lemma PartStep(io: Io, e: Event, i: nat)
    requires i < |io.parts|
    ensures
      var t := Next(io, e);
      && i < |t.parts| && t.parts[i].size == io.parts[i].size
      && t.parts[i].out == if e.EComplete? && e.i == i && Enabled(io, e) then Done(e.err, e.n) else io.parts[i].out
  {
  }

  /** A sub-request that is there: its size stays, and what came back for it is kept. */
  lemma {:induction false} PartKept(io: Io, es: seq<Event>, i: nat)
    requires i < |io.parts|
    ensures i < |Run(io, es).parts| && Run(io, es).parts[i].size == io.parts[i].size
    ensures Run(io, es).parts[i].out == if io.parts[i].out.Done? then io.parts[i].out else CameIn(io, es, i)
    decreases |es|
  {
    if es != [] {
      PartStep(io, es[0], i);
      PartKept(Next(io, es[0]), es[1..], i);
    }
  }

  /** Every sub-request: its size is as sent, its outcome as it came back. */
  lemma {:induction false} PartsAreEvents(io: Io, es: seq<Event>, i: nat)
    ensures |Run(io, es).parts| == |io.parts| + |SentIn(io, es)|
    ensures i < |SentIn(io, es)| ==>
      Run(io, es).parts[|io.parts| + i] == Part(SentIn(io, es)[i], CameIn(io, es, |io.parts| + i))
    decreases |es|
  {
    if es != [] {
      var e, t := es[0], Next(io, es[0]);
      if e.ESend? && Enabled(io, e) {
        PartKept(t, es[1..], |io.parts|);
        PartsAreEvents(t, es[1..], if i > 0 then i - 1 else 0);
      } else {
        PartsAreEvents(t, es[1..], i);
      }
    }
  }

  lemma {:induction false} SubmittingUntilEnd(io: Io, es: seq<Event>)
    ensures Run(io, es).submitting <==> io.submitting && !EndedIn(io, es)
    decreases |es|
  {
    if es != [] { SubmittingUntilEnd(Next(io, es[0]), es[1..]); }
  }

  /** The record after any run from the start, told by its events alone. */
  lemma {:induction false} RecordOfRun(write: bool, es: seq<Event>)
    ensures
      var io, sent := Run(Init(write), es), SentIn(Init(write), es);
      && |io.parts| == |sent| && (forall i :: 0 <= i < |sent| ==> io.parts[i] == Part(sent[i], CameIn(Init(write), es, i)))
      && (io.submitting <==> !EndedIn(Init(write), es))
      && io.write == write
  {
    var io, sent := Run(Init(write), es), SentIn(Init(write), es);
    PartsAreEvents(Init(write), es, 0);
    forall i | 0 <= i < |sent| ensures io.parts[i] == Part(sent[i], CameIn(Init(write), es, i)) {
      PartsAreEvents(Init(write), es, i);
    }
    SubmittingUntilEnd(Init(write), es);
    RunWrite(Init(write), es);
  }

  /** For any order of completion, once completion is signalled: the result is the first error that arrived, of a
      sub-request or of the submission loop. Without one a read returns the longest contiguous prefix that was
      transferred, and a write its full size, or -EIO if any part of it came back with another size than was sent. */
  lemma {:induction false} ResultOfRun(write: bool, es: seq<Event>)
    ensures
      var io, first := Run(Init(write), es), FirstError(Init(write), es);
      io.signals == 1 ==>
        && (forall i :: 0 <= i < |io.parts| ==> io.parts[i].out.Done?)
        && (first != 0 ==> Result(io) == first)
        && (first == 0 && !write ==> Result(io) == Contiguous(io.parts, 0))
        && (first == 0 && write ==>
             Result(io) == if forall i :: 0 <= i < |io.parts| ==> io.parts[i].out.n == io.parts[i].size then Start(io.parts, |io.parts|) else EIO)
  {
    RunInv(Init(write), es);
    RunWrite(Init(write), es);
    FirstErrorKept(Init(write), es);
    NoErrors(Init(write), es);
    var io := Run(Init(write), es);
    NonePending(io.parts, |io.parts|);
    if io.signals == 1 && io.errors == [] {
      if write { WriteResult(io); } else { ContiguousIsBytes(io.parts, io.bytes, 0); }
    }
  }

  lemma {:induction false} RunWrite(io: Io, es: seq<Event>)
    ensures Run(io, es).write == io.write
    decreases |es|
  {
    if es != [] { RunWrite(Next(io, es[0]), es[1..]); }
  }

  lemma WriteResult(io: Io)
    requires Inv(io) && io.write && io.errors == [] && forall i :: 0 <= i < |io.parts| ==> io.parts[i].out.Done?
    ensures Result(io) == if forall i :: 0 <= i < |io.parts| ==> io.parts[i].out.n == io.parts[i].size then Start(io.parts, |io.parts|) else EIO
  {
    if i :| 0 <= i < |io.parts| && io.parts[i].out.n != io.parts[i].size {
      assert Short(io.parts, i);
    }
  }

  // ---------------------------------------------------------------- the record that is updated in place

  class FuseIoPriv {
    const write: bool
    const blocking: bool
    const offset: nat
    var reqs: int
    var bytes: int
    var size: nat
    var err: int
    ghost var parts: seq<Part>
    ghost var errors: seq<int>
    ghost var submitting: bool
    ghost var signals: nat

    ghost function View(): Io
      reads this
    {
      Io(write, reqs, bytes, size, err, parts, errors, submitting, signals)
    }

    constructor (write: bool, blocking: bool, offset: nat)
      ensures View() == Init(write) && Inv(View())
      ensures this.blocking == blocking && this.offset == offset
      ensures reqs == 1 && bytes == -1 && size == 0 && err == 0
    {
      this.write, this.blocking, this.offset := write, blocking, offset;
      reqs, bytes, size, err := 1, -1, 0, 0;
      parts, errors, submitting, signals := [], [], true, 0;
    }

    method AsyncReqSend(n: nat)
      modifies this
      ensures View() == Send(old(View()), n)
    {
      size, reqs, parts := size + n, reqs + 1, parts + [Part(n, Waiting)];
    }

    /** fuse_aio_complete; completed if this call signals completion, and then a non-blocking caller's
        ki_complete gets the result. */
    method AioComplete(e: int, pos: int) returns (completed: bool, res: int)
      modifies this`err, this`bytes, this`reqs, this`errors, this`signals
      ensures View() == Complete(old(View()), e, pos)
      ensures err == if old(err) != 0 then old(err) else e
      ensures completed == (old(reqs) == 1)
      ensures completed && !blocking ==> res == Result(View())
    {
      res := 0;
      if e != 0 {
        err := if err != 0 then err else e;
        errors := errors + [e];
      } else if pos >= 0 && (bytes < 0 || pos < bytes) {
        bytes := pos;
      }
      reqs := reqs - 1;
      completed := reqs == 0;
      if completed { signals := signals + 1; }
      if completed && !blocking { res := GetRes(); }
    }

    /** fuse_get_res_by_io. */
    method GetRes() returns (res: int)
      ensures res == Result(View())
    {
      if err != 0 { return err; }
      if bytes >= 0 && write { return EIO; }
      res := if bytes < 0 then size else bytes;
    }

    /** fuse_aio_complete_req for a sub-request sent at file position `at` with `asked` bytes. */
    method AioCompleteReq(ghost i: nat, at: nat, asked: nat, e: int, n: nat) returns (completed: bool, res: int)
      requires i < |parts| && at == offset + Start(parts, i) && asked == parts[i].size
      modifies this`err, this`bytes, this`reqs, this`errors, this`signals, this`parts
      ensures View() == CompleteReq(old(View()), i, e, n)
      ensures completed == (old(reqs) == 1)
      ensures completed && !blocking ==> res == Result(View())
    {
      var pos := -1;
      if asked != n { pos := at - offset + n; }
      completed, res := AioComplete(e, pos);
      parts := parts[i := parts[i].(out := Done(e, n))];
    }
  }
}
