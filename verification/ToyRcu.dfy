/**
 The toy RCU of rcu/toy_impl: a grace period is an empty write-locked section of a reader-writer
 lock. Any number of readers (foo_get_a) and updaters (foo_update_a) take their steps in any order.
 */
module ToyRcu {
  import opened Lists

  type Thread = nat
  type Ptr = nat          // an address; kmalloc may hand out one that was freed

  datatype Foo = Foo(a: int, b: int, c: int)

  /** A live allocation. `version` tells which publication it is, or None before rcu_assign_pointer. */
  datatype Obj = Obj(foo: Foo, version: Version)

  datatype Version = Unpublished | Version(n: nat)

  /** Where a thread stands, with its local variables. */
  datatype Pc =
    | Idle
    // foo_get_a
    | ReadLocked
    | Loaded(p: Ptr, ver: nat)
    | Got(retval: int, ver: nat)
    // foo_update_a
    | Allocated(newFp: Ptr, newA: int)
    | Locked(newFp: Ptr, newA: int)
    | OldLoaded(newFp: Ptr, newA: int, oldFp: Ptr)
    | Copied(newFp: Ptr, newA: int, oldFp: Ptr)
    | Assigned(newFp: Ptr, oldFp: Ptr)
    | Published(oldFp: Ptr)
    | Synchronizing(oldFp: Ptr)     // outside foo_mutex, before write_lock
    | WriteLocked(oldFp: Ptr)
    | Synchronized(oldFp: Ptr)      // toy_synchronize_rcu has returned

  datatype Holder = Nobody | By(t: Thread)

  /** `log` is the history of published values, `freed` that of freed versions. */
  datatype State = State(
    heap: map<Ptr, Obj>, gbl: Ptr, pcs: map<Thread, Pc>,
    readers: set<Thread>, writer: Holder, mutex: Holder,
    log: seq<Foo>, freed: seq<nat>)

  function PcOf(pcs: map<Thread, Pc>, t: Thread): Pc { if t in pcs then pcs[t] else Idle }

  /** init_foo: b and c are whatever kmalloc found there. */
  function Init(p: Ptr, b: int, c: int): State {
    var foo := Foo(5, b, c);
    State(map[p := Obj(foo, Version(0))], p, map[], {}, Nobody, Nobody, [foo], [])
  }

  datatype Event =
    | EReadLock(t: Thread) | ELoad(t: Thread) | EDeref(t: Thread) | EReadUnlock(t: Thread)
    | EAlloc(t: Thread, p: Ptr, garbage: Foo, a: int) | ELockMutex(t: Thread) | ELoadOld(t: Thread) | ECopy(t: Thread)
    | ESetA(t: Thread) | EPublish(t: Thread) | EUnlockMutex(t: Thread)
    | EWriteLock(t: Thread) | EWriteUnlock(t: Thread) | EFree(t: Thread)

  /** A thread takes the step it stands at; a lock is taken when it is free; kmalloc hands out memory
      that is not in use. */
  predicate Enabled(s: State, e: Event) {
    var pc := PcOf(s.pcs, e.t);
    match e
    case EReadLock(_) => pc == Idle && s.writer == Nobody
    case ELoad(_) => pc == ReadLocked
    case EDeref(_) => pc.Loaded?
    case EReadUnlock(_) => pc.Got?
    case EAlloc(_, p, _, _) => pc == Idle && p !in s.heap
    case ELockMutex(_) => pc.Allocated? && s.mutex == Nobody
    case ELoadOld(_) => pc.Locked?
    case ECopy(_) => pc.OldLoaded?
    case ESetA(_) => pc.Copied?
    case EPublish(_) => pc.Assigned?
    case EUnlockMutex(_) => pc.Published?
    case EWriteLock(_) => pc.Synchronizing? && s.readers == {} && s.writer == Nobody
    case EWriteUnlock(_) => pc.WriteLocked?
    case EFree(_) => pc.Synchronized?
  }

  /** The address that the step dereferences or frees must be live. */
  predicate Safe(s: State, e: Event) {
    var pc := PcOf(s.pcs, e.t);
    match e
    case EDeref(_) => pc.Loaded? ==> pc.p in s.heap
    case ECopy(_) => pc.OldLoaded? ==> pc.oldFp in s.heap && pc.newFp in s.heap
    case ESetA(_) => pc.Copied? ==> pc.newFp in s.heap
    case EPublish(_) => pc.Assigned? ==> pc.newFp in s.heap
    case EFree(_) => pc.Synchronized? ==> pc.oldFp in s.heap && s.heap[pc.oldFp].version.Version?
    case _ => true
  }

  function ReadLock(s: State, t: Thread): State { s.(readers := s.readers + {t}, pcs := s.pcs[t := ReadLocked]) }

  function Load(s: State, t: Thread): State
    requires s.log != []
  {
    s.(pcs := s.pcs[t := Loaded(s.gbl, |s.log| - 1)])
  }

  function Deref(s: State, t: Thread, p: Ptr, ver: nat): State
    requires p in s.heap
  {
    s.(pcs := s.pcs[t := Got(s.heap[p].foo.a, ver)])
  }

  function ReadUnlock(s: State, t: Thread): State { s.(readers := s.readers - {t}, pcs := s.pcs[t := Idle]) }

  function Alloc(s: State, t: Thread, p: Ptr, garbage: Foo, a: int): State {
    s.(heap := s.heap[p := Obj(garbage, Unpublished)], pcs := s.pcs[t := Allocated(p, a)])
  }

  function LockMutex(s: State, t: Thread, p: Ptr, a: int): State { s.(mutex := By(t), pcs := s.pcs[t := Locked(p, a)]) }

  function LoadOld(s: State, t: Thread, p: Ptr, a: int): State { s.(pcs := s.pcs[t := OldLoaded(p, a, s.gbl)]) }

  function Copy(s: State, t: Thread, p: Ptr, a: int, q: Ptr): State
    requires p in s.heap && q in s.heap
  {
    s.(heap := s.heap[p := s.heap[p].(foo := s.heap[q].foo)], pcs := s.pcs[t := Copied(p, a, q)])
  }

  function SetA(s: State, t: Thread, p: Ptr, a: int, q: Ptr): State
    requires p in s.heap
  {
    s.(heap := s.heap[p := s.heap[p].(foo := s.heap[p].foo.(a := a))], pcs := s.pcs[t := Assigned(p, q)])
  }

  /** rcu_assign_pointer. */
  function Publish(s: State, t: Thread, p: Ptr, q: Ptr): State
    requires p in s.heap
  {
    s.(heap := s.heap[p := s.heap[p].(version := Version(|s.log|))], gbl := p, log := s.log + [s.heap[p].foo],
       pcs := s.pcs[t := Published(q)])
  }

  function UnlockMutex(s: State, t: Thread, q: Ptr): State { s.(mutex := Nobody, pcs := s.pcs[t := Synchronizing(q)]) }

  function WriteLock(s: State, t: Thread, q: Ptr): State { s.(writer := By(t), pcs := s.pcs[t := WriteLocked(q)]) }

  function WriteUnlock(s: State, t: Thread, q: Ptr): State { s.(writer := Nobody, pcs := s.pcs[t := Synchronized(q)]) }

  function Free(s: State, t: Thread, q: Ptr): State
    requires q in s.heap && s.heap[q].version.Version?
  {
    s.(heap := s.heap - {q}, freed := s.freed + [s.heap[q].version.n], pcs := s.pcs[t := Idle])
  }

  function Next(s: State, e: Event): State
    requires s.log != [] && Safe(s, e)
  {
    if !Enabled(s, e) then s
    else
      var pc := PcOf(s.pcs, e.t);
      match e
      case EReadLock(t) => ReadLock(s, t)
      case ELoad(t) => Load(s, t)
      case EDeref(t) => Deref(s, t, pc.p, pc.ver)
      case EReadUnlock(t) => ReadUnlock(s, t)
      case EAlloc(t, p, garbage, a) => Alloc(s, t, p, garbage, a)
      case ELockMutex(t) => LockMutex(s, t, pc.newFp, pc.newA)
      case ELoadOld(t) => LoadOld(s, t, pc.newFp, pc.newA)
      case ECopy(t) => Copy(s, t, pc.newFp, pc.newA, pc.oldFp)
      case ESetA(t) => SetA(s, t, pc.newFp, pc.newA, pc.oldFp)
      case EPublish(t) => Publish(s, t, pc.newFp, pc.oldFp)
      case EUnlockMutex(t) => UnlockMutex(s, t, pc.oldFp)
      case EWriteLock(t) => WriteLock(s, t, pc.oldFp)
      case EWriteUnlock(t) => WriteUnlock(s, t, pc.oldFp)
      case EFree(t) => Free(s, t, pc.oldFp)
  }

  // ---------------------------------------------------------------- the invariant

  predicate Reading(pc: Pc) { pc.ReadLocked? || pc.Loaded? || pc.Got? }

  predicate InMutex(pc: Pc) { pc.Locked? || pc.OldLoaded? || pc.Copied? || pc.Assigned? || pc.Published? }

  /** The thread's new allocation is not published yet. */
  predicate HasNew(pc: Pc) { pc.Allocated? || pc.Locked? || pc.OldLoaded? || pc.Copied? || pc.Assigned? }

  /** The thread has replaced an allocation and is to free it. */
  predicate HasOld(pc: Pc) { pc.Published? || pc.Synchronizing? || pc.WriteLocked? || pc.Synchronized? }

  /** The thread alone is responsible for the allocation. */
  predicate Owns(pc: Pc, p: Ptr) { (HasNew(pc) && pc.newFp == p) || (HasOld(pc) && pc.oldFp == p) }

  ghost predicate Current(heap: map<Ptr, Obj>, p: Ptr, log: seq<Foo>, ver: nat) {
    p in heap && ver < |log| && heap[p] == Obj(log[ver], Version(ver))
  }

  /** What holds of one thread. */
  ghost predicate ThreadOk(s: State, t: Thread) {
    var pc := PcOf(s.pcs, t);
    && s.log != [] && (t in s.readers <==> Reading(pc))
    && (s.writer == By(t) <==> pc.WriteLocked?)
    && (s.mutex == By(t) <==> InMutex(pc))
    && (pc.Loaded? ==> Current(s.heap, pc.p, s.log, pc.ver))
    && (pc.Got? ==> pc.ver < |s.log| && pc.retval == s.log[pc.ver].a)
    && (HasNew(pc) ==> pc.newFp in s.heap && pc.newFp != s.gbl && s.heap[pc.newFp].version == Unpublished)
    && (pc.OldLoaded? || pc.Copied? || pc.Assigned? ==> pc.oldFp == s.gbl)
    && (pc.Copied? ==> s.heap[pc.newFp].foo == s.log[|s.log| - 1])
    && (pc.Assigned? ==> s.heap[pc.newFp].foo == s.log[|s.log| - 1].(a := s.heap[pc.newFp].foo.a))
    && (HasOld(pc) ==> pc.oldFp in s.heap && pc.oldFp != s.gbl && s.heap[pc.oldFp].version.Version?)
  }

  /** What holds of two threads: nothing is owned twice, and an allocation whose grace period is over
      is not in a reader's hands. */
  ghost predicate PairOk(s: State, t: Thread, t': Thread) {
    var pc, pc' := PcOf(s.pcs, t), PcOf(s.pcs, t');
    && (t != t' ==> forall p :: !(Owns(pc, p) && Owns(pc', p)))
    && (pc.Loaded? && (pc'.WriteLocked? || pc'.Synchronized?) ==> pc.p != pc'.oldFp)
  }

  /** Every allocation is the published one, or some thread answers for it. */
  ghost predicate AllocOk(s: State, p: Ptr) {
    p in s.heap && p != s.gbl ==> exists t :: t in s.pcs && Owns(s.pcs[t], p)
  }

  /** A published version is live or freed, not both. */
  ghost predicate VersionOk(s: State, n: nat) {
    n < |s.log| ==> (n in s.freed <==> forall p :: p in s.heap ==> s.heap[p].version != Version(n))
  }

  ghost predicate ObjOk(s: State, p: Ptr) {
    p in s.heap && s.heap[p].version.Version? ==> Current(s.heap, p, s.log, s.heap[p].version.n)
  }

  ghost predicate SameVersion(s: State, p: Ptr, q: Ptr) {
    p in s.heap && q in s.heap && s.heap[p].version == s.heap[q].version && s.heap[p].version.Version? ==> p == q
  }

  ghost predicate LogOk(log: seq<Foo>) {
    log != [] && forall i :: 0 <= i < |log| ==> log[i].b == log[0].b && log[i].c == log[0].c
  }

  ghost predicate Inv(s: State) {
    && LogOk(s.log) && Current(s.heap, s.gbl, s.log, |s.log| - 1) && NoDup(s.freed)
    && (forall t :: ThreadOk(s, t))
    && (forall t, t' :: PairOk(s, t, t'))
    && (forall p :: AllocOk(s, p))
    && (forall n :: VersionOk(s, n))
    && (forall p :: ObjOk(s, p))
    && (forall p, q :: SameVersion(s, p, q))
    && (forall n :: n in s.freed ==> n < |s.log|)
    && (s.writer != Nobody ==> s.readers == {})
  }

  lemma InitInv(p: Ptr, b: int, c: int)
    ensures Inv(Init(p, b, c))
  {
  }

  lemma Parts(s: State, e: Event)
    requires Inv(s)
    ensures ThreadOk(s, e.t) && Safe(s, e)
  {
    assert ThreadOk(s, e.t);
  }

  /** No step dereferences or frees memory that is not live, in any reachable state. */
  lemma StepSafe(s: State, e: Event)
    requires Inv(s)
    ensures Safe(s, e)
  {
    Parts(s, e);
  }

  /** A step that changes neither the heap nor the publications. */
  ghost predicate SameHeap(s: State, u: State, t: Thread) {
    && u.heap == s.heap && u.gbl == s.gbl && u.log == s.log && u.freed == s.freed
    && u.pcs == s.pcs[t := PcOf(u.pcs, t)]
    && (forall p :: Owns(PcOf(u.pcs, t), p) <==> Owns(PcOf(s.pcs, t), p))
    && (forall x :: x != t ==> (x in u.readers <==> x in s.readers))
    && (forall x :: x != t ==> (u.writer == By(x) <==> s.writer == By(x)) && (u.mutex == By(x) <==> s.mutex == By(x)))
    && (u.writer != Nobody ==> u.readers == {})
  }

  lemma SameHeapInv(s: State, u: State, t: Thread)
    requires Inv(s) && SameHeap(s, u, t) && ThreadOk(u, t)
    requires forall x :: PairOk(u, t, x) && PairOk(u, x, t)
    ensures Inv(u)
  {
    forall x ensures ThreadOk(u, x) { assert ThreadOk(s, x); }
    forall x, y ensures PairOk(u, x, y) { assert PairOk(s, x, y); assert PairOk(u, t, y) && PairOk(u, x, t); }
    forall p ensures AllocOk(u, p) {
      assert AllocOk(s, p);
      if p in s.heap && p != s.gbl {
        var x :| x in s.pcs && Owns(s.pcs[x], p);
        assert x in u.pcs && Owns(u.pcs[x], p);
      }
    }
    forall n ensures VersionOk(u, n) { assert VersionOk(s, n); }
    forall p ensures ObjOk(u, p) { assert ObjOk(s, p); }
    forall p, q ensures SameVersion(u, p, q) { assert SameVersion(s, p, q); }
  }

  lemma Pairs(s: State, t: Thread)
    requires Inv(s)
    ensures ThreadOk(s, t) && forall x :: ThreadOk(s, x) && PairOk(s, t, x) && PairOk(s, x, t)
  {
  }

  lemma ReaderInv(s: State, e: Event)
    requires Inv(s) && Enabled(s, e) && (e.EReadLock? || e.ELoad? || e.EDeref? || e.EReadUnlock?)
    ensures Safe(s, e) && Inv(Next(s, e))
  {
    Pairs(s, e.t);
    var u := Next(s, e);
    forall x ensures PairOk(u, e.t, x) && PairOk(u, x, e.t) {
      assert ThreadOk(s, x) && PairOk(s, e.t, x) && PairOk(s, x, e.t);
    }
    SameHeapInv(s, u, e.t);
  }

  lemma MutexInv(s: State, e: Event)
    requires Inv(s) && Enabled(s, e) && (e.ELockMutex? || e.ELoadOld? || e.EUnlockMutex?)
    ensures Safe(s, e) && Inv(Next(s, e))
  {
    Pairs(s, e.t);
    var u := Next(s, e);
    forall x ensures PairOk(u, e.t, x) && PairOk(u, x, e.t) {
      assert ThreadOk(s, x) && PairOk(s, e.t, x) && PairOk(s, x, e.t);
    }
    SameHeapInv(s, u, e.t);
  }

  /** The grace period: when the write lock is taken, no reader is left that could hold the old
      allocation, and those that come later cannot load it. */
  lemma GracePeriodInv(s: State, e: Event)
    requires Inv(s) && Enabled(s, e) && (e.EWriteLock? || e.EWriteUnlock?)
    ensures Safe(s, e) && Inv(Next(s, e))
  {
    Pairs(s, e.t);
    var u := Next(s, e);
    forall x ensures PairOk(u, e.t, x) && PairOk(u, x, e.t) {
      assert ThreadOk(s, x) && PairOk(s, e.t, x) && PairOk(s, x, e.t);
    }
    SameHeapInv(s, u, e.t);
  }

  /** A step on the thread's own unpublished allocation p. */
  ghost predicate SamePublished(s: State, u: State, t: Thread, p: Ptr) {
    && u.gbl == s.gbl && u.log == s.log && u.freed == s.freed && u.readers == s.readers && u.writer == s.writer && u.mutex == s.mutex
    && u.pcs == s.pcs[t := PcOf(u.pcs, t)] && p in u.heap && u.heap == s.heap[p := u.heap[p]]
    && u.heap[p].version == Unpublished && (p in s.heap ==> s.heap[p].version == Unpublished)
    && Owns(PcOf(u.pcs, t), p) && (forall q :: q != p ==> (Owns(PcOf(u.pcs, t), q) <==> Owns(PcOf(s.pcs, t), q)))
    && !PcOf(u.pcs, t).Loaded? && !PcOf(u.pcs, t).WriteLocked? && !PcOf(u.pcs, t).Synchronized?
    && (forall x :: x != t ==> !Owns(PcOf(s.pcs, x), p))
  }

  lemma SamePublishedInv(s: State, u: State, t: Thread, p: Ptr)
    requires Inv(s) && SamePublished(s, u, t, p) && ThreadOk(u, t)
    ensures Inv(u)
  {
    forall x ensures ThreadOk(u, x) {
      assert ThreadOk(s, x);
      if x != t { assert !Owns(PcOf(s.pcs, x), p); }
    }
    forall x, y ensures PairOk(u, x, y) { SamePublishedPair(s, u, t, p, x, y); }
    forall q ensures AllocOk(u, q) {
      assert AllocOk(s, q);
      if q == p {
        assert t in u.pcs && Owns(u.pcs[t], q);
      } else if q in s.heap && q != s.gbl {
        var x :| x in s.pcs && Owns(s.pcs[x], q);
        assert x in u.pcs && Owns(u.pcs[x], q);
      }
    }
    forall n ensures VersionOk(u, n) { SamePublishedVersion(s, u, t, p, n); }
    forall q ensures ObjOk(u, q) { assert ObjOk(s, q); }
    forall q, r ensures SameVersion(u, q, r) { assert SameVersion(s, q, r); }
  }

  lemma SamePublishedPair(s: State, u: State, t: Thread, p: Ptr, x: Thread, y: Thread)
    requires SamePublished(s, u, t, p) && PairOk(s, x, y)
    ensures PairOk(u, x, y)
  {
    if x != y {
      forall q ensures !(Owns(PcOf(u.pcs, x), q) && Owns(PcOf(u.pcs, y), q)) {
        assert !(Owns(PcOf(s.pcs, x), q) && Owns(PcOf(s.pcs, y), q));
        assert q != p ==> (Owns(PcOf(u.pcs, t), q) <==> Owns(PcOf(s.pcs, t), q));
        assert x != t ==> !Owns(PcOf(s.pcs, x), p);
        assert y != t ==> !Owns(PcOf(s.pcs, y), p);
      }
    }
  }

  lemma SamePublishedVersion(s: State, u: State, t: Thread, p: Ptr, n: nat)
    requires SamePublished(s, u, t, p) && VersionOk(s, n)
    ensures VersionOk(u, n)
  {
    if n < |s.log| && n !in s.freed {
      var q :| q in s.heap && s.heap[q].version == Version(n);
      assert q in u.heap && u.heap[q].version == Version(n);
    }
  }

  lemma AllocInv(s: State, t: Thread, p: Ptr, garbage: Foo, a: int)
    requires Inv(s) && Enabled(s, EAlloc(t, p, garbage, a))
    ensures Inv(Alloc(s, t, p, garbage, a))
  {
    Pairs(s, t);
    forall x ensures !Owns(PcOf(s.pcs, x), p) { assert ThreadOk(s, x); }
    SamePublishedInv(s, Alloc(s, t, p, garbage, a), t, p);
  }

  lemma FillInv(s: State, e: Event)
    requires Inv(s) && Enabled(s, e) && (e.ECopy? || e.ESetA?)
    ensures Safe(s, e) && Inv(Next(s, e))
  {
    Pairs(s, e.t);
    var p := PcOf(s.pcs, e.t).newFp;
    forall x | x != e.t ensures !Owns(PcOf(s.pcs, x), p) { assert PairOk(s, e.t, x); assert Owns(PcOf(s.pcs, e.t), p); }
    SamePublishedInv(s, Next(s, e), e.t, p);
  }

  lemma PublishInv(s: State, t: Thread)
    requires Inv(s) && Enabled(s, EPublish(t))
    ensures Safe(s, EPublish(t)) && Inv(Next(s, EPublish(t)))
  {
    Pairs(s, t);
    var pc := PcOf(s.pcs, t);
    var p, q := pc.newFp, pc.oldFp;
    var u := Publish(s, t, p, q);
    assert Owns(pc, p);
    forall x | x != t ensures !Owns(PcOf(s.pcs, x), p) && !Owns(PcOf(s.pcs, x), s.gbl) { assert PairOk(s, t, x); assert ThreadOk(s, x); }
    forall x ensures ThreadOk(u, x) { assert ThreadOk(s, x); }
    forall x, y ensures PairOk(u, x, y) { assert PairOk(s, x, y); assert ThreadOk(s, x) && ThreadOk(s, y); }
    forall r ensures AllocOk(u, r) { PublishAlloc(s, t, p, q, r); }
    forall n ensures VersionOk(u, n) { PublishVersion(s, t, p, q, n); }
    forall r ensures ObjOk(u, r) { assert ObjOk(s, r); }
    forall a, b ensures SameVersion(u, a, b) { assert SameVersion(s, a, b); assert ObjOk(s, a) && ObjOk(s, b); }
  }

  lemma PublishAlloc(s: State, t: Thread, p: Ptr, q: Ptr, r: Ptr)
    requires Inv(s) && p in s.heap && t in s.pcs && HasNew(s.pcs[t]) && s.pcs[t].newFp == p && q == s.gbl
    ensures AllocOk(Publish(s, t, p, q), r)
  {
    var u := Publish(s, t, p, q);
    assert AllocOk(s, r);
    if r == q {
      assert Owns(u.pcs[t], r);
    } else if r in s.heap && r != p {
      var x :| x in s.pcs && Owns(s.pcs[x], r);
      assert x in u.pcs && Owns(u.pcs[x], r);
    }
  }

  lemma PublishVersion(s: State, t: Thread, p: Ptr, q: Ptr, n: nat)
    requires Inv(s) && p in s.heap && s.heap[p].version == Unpublished
    ensures VersionOk(Publish(s, t, p, q), n)
  {
    var u := Publish(s, t, p, q);
    assert VersionOk(s, n);
    if n == |s.log| {
      assert u.heap[p].version == Version(n);
    } else if n < |s.log| && n !in s.freed {
      var r :| r in s.heap && s.heap[r].version == Version(n);
      assert r in u.heap && u.heap[r].version == Version(n);
    }
  }

  lemma FreeInv(s: State, t: Thread)
    requires Inv(s) && Enabled(s, EFree(t))
    ensures Safe(s, EFree(t)) && Inv(Next(s, EFree(t)))
  {
    Pairs(s, t);
    var q := PcOf(s.pcs, t).oldFp;
    var u := Free(s, t, q);
    assert Owns(PcOf(s.pcs, t), q);
    forall x | x != t ensures !Owns(PcOf(s.pcs, x), q) { assert PairOk(s, t, x); }
    forall x ensures ThreadOk(u, x) { assert ThreadOk(s, x); assert PairOk(s, x, t); }
    forall x, y ensures PairOk(u, x, y) { assert PairOk(s, x, y); }
    forall r ensures AllocOk(u, r) { FreeAlloc(s, t, q, r); }
    FreedOnce(s, t, q);
    forall n ensures VersionOk(u, n) { FreeVersion(s, t, q, n); }
    forall r ensures ObjOk(u, r) { assert ObjOk(s, r); }
    forall a, b ensures SameVersion(u, a, b) { assert SameVersion(s, a, b); }
  }

  lemma FreeAlloc(s: State, t: Thread, q: Ptr, r: Ptr)
    requires Inv(s) && q in s.heap && s.heap[q].version.Version? && t in s.pcs && Owns(s.pcs[t], q) && HasOld(s.pcs[t])
    ensures AllocOk(Free(s, t, q), r)
  {
    var u := Free(s, t, q);
    assert AllocOk(s, r);
    if r in s.heap && r != s.gbl && r != q {
      var x :| x in s.pcs && Owns(s.pcs[x], r);
      assert x != t && x in u.pcs && Owns(u.pcs[x], r);
    }
  }

  /** The version of a live allocation has not been freed before. */
  lemma FreedOnce(s: State, t: Thread, q: Ptr)
    requires Inv(s) && q in s.heap && s.heap[q].version.Version?
    ensures s.heap[q].version.n !in s.freed && s.heap[q].version.n < |s.log| && NoDup(Free(s, t, q).freed)
  {
    assert ObjOk(s, q);
    assert VersionOk(s, s.heap[q].version.n);
  }

  lemma FreeVersion(s: State, t: Thread, q: Ptr, n: nat)
    requires Inv(s) && q in s.heap && s.heap[q].version.Version?
    ensures VersionOk(Free(s, t, q), n)
  {
    var u := Free(s, t, q);
    assert VersionOk(s, n);
    if n == s.heap[q].version.n {
      assert n in u.freed;
      forall p | p in u.heap ensures u.heap[p].version != Version(n) { assert SameVersion(s, p, q); }
    } else if n < |s.log| && n !in s.freed {
      var p :| p in s.heap && s.heap[p].version == Version(n);
      assert p in u.heap && u.heap[p].version == Version(n);
    }
  }

  lemma NextInv(s: State, e: Event)
    requires Inv(s)
    ensures Safe(s, e) && Inv(Next(s, e))
  {
    StepSafe(s, e);
    if Enabled(s, e) {
      match e
      case EReadLock(_) => ReaderInv(s, e);
      case ELoad(_) => ReaderInv(s, e);
      case EDeref(_) => ReaderInv(s, e);
      case EReadUnlock(_) => ReaderInv(s, e);
      case EAlloc(t, p, garbage, a) => AllocInv(s, t, p, garbage, a);
      case ELockMutex(_) => MutexInv(s, e);
      case ELoadOld(_) => MutexInv(s, e);
      case EUnlockMutex(_) => MutexInv(s, e);
      case ECopy(_) => FillInv(s, e);
      case ESetA(_) => FillInv(s, e);
      case EPublish(t) => PublishInv(s, t);
      case EWriteLock(_) => GracePeriodInv(s, e);
      case EWriteUnlock(_) => GracePeriodInv(s, e);
      case EFree(t) => FreeInv(s, t);
    }
  }

  ghost function Run(s: State, es: seq<Event>): (u: State)
    requires Inv(s)
    ensures Inv(u)
    decreases |es|
  {
    if es == [] then s else NextInv(s, es[0]); Run(Next(s, es[0]), es[1..])
  }

  // ---------------------------------------------------------------- results

  /** With any number of readers and updaters, whatever the next step of any thread is, it touches only
      live memory. */
  lemma {:induction false} NoUseAfterFree(p: Ptr, b: int, c: int, es: seq<Event>, e: Event)
    ensures Inv(Init(p, b, c)) && Safe(Run(Init(p, b, c), es), e)
  {
    InitInv(p, b, c);
    StepSafe(Run(Init(p, b, c), es), e);
  }

  /** foo_get_a returns the value of the version that was published when it loaded the pointer, even
      if that version has been replaced since. */
  lemma {:induction false} ReadsPublished(s: State, t: Thread, es: seq<Event>)
    requires Inv(s) && PcOf(s.pcs, t) == ReadLocked
    requires forall i :: 0 <= i < |es| ==> es[i].t != t
    ensures var s1 := Next(s, ELoad(t));
      && Inv(s1) && PcOf(Run(s1, es).pcs, t) == Loaded(s.gbl, |s.log| - 1)
      && Safe(Run(s1, es), EDeref(t))
      && PcOf(Next(Run(s1, es), EDeref(t)).pcs, t) == Got(s.log[|s.log| - 1].a, |s.log| - 1)
  {
    NextInv(s, ELoad(t));
    var s1 := Next(s, ELoad(t));
    Stays(s1, t, es);
    var s2 := Run(s1, es);
    StepSafe(s2, EDeref(t));
    assert ThreadOk(s2, t);
  }

  /** Other threads' steps do not move a thread, and publications are only ever added. */
  lemma {:induction false} Stays(s: State, t: Thread, es: seq<Event>)
    requires Inv(s) && forall i :: 0 <= i < |es| ==> es[i].t != t
    ensures PcOf(Run(s, es).pcs, t) == PcOf(s.pcs, t)
    ensures s.log <= Run(s, es).log
    decreases |es|
  {
    if es != [] {
      NextInv(s, es[0]);
      Stays(Next(s, es[0]), t, es[1..]);
    }
  }

  /** Each replaced version is freed at most once, and it is either freed or some thread is still on its
      way to free it; the published one is not freed. */
  lemma FreedExactlyOnce(s: State, n: nat)
    requires Inv(s) && n < |s.log|
    ensures NoDup(s.freed)
    ensures n == |s.log| - 1 ==> n !in s.freed
    ensures n < |s.log| - 1 && n !in s.freed ==>
      exists t :: t in s.pcs && HasOld(s.pcs[t]) && s.pcs[t].oldFp in s.heap && s.heap[s.pcs[t].oldFp].version == Version(n)
  {
    assert VersionOk(s, n);
    if n !in s.freed && n < |s.log| - 1 {
      var p :| p in s.heap && s.heap[p].version == Version(n);
      assert AllocOk(s, p);
      var t :| t in s.pcs && Owns(s.pcs[t], p);
      assert ThreadOk(s, t);
    }
  }

  /** A version is freed only after every reader that had loaded it has left. */
  lemma FreedAfterReaders(s: State, t: Thread, r: Thread)
    requires Inv(s) && PcOf(s.pcs, t).Synchronized? && PcOf(s.pcs, r).Loaded?
    ensures PcOf(s.pcs, r).p != PcOf(s.pcs, t).oldFp
  {
    assert PairOk(s, r, t);
  }

  /** exit_sample_toy_rcu: kthread_stop has returned for every thread, then gbl_foo is freed. */
  function Exit(s: State): map<Ptr, Obj> { s.heap - {s.gbl} }

  /** After exit nothing is left allocated, and every version but the last was freed before. */
  lemma ExitLeavesNothing(s: State)
    requires Inv(s) && forall t :: t in s.pcs ==> s.pcs[t] == Idle
    ensures Exit(s) == map[]
    ensures forall n :: 0 <= n < |s.log| - 1 ==> n in s.freed
    ensures |s.freed| == |s.log| - 1
  {
    forall p | p in s.heap ensures p == s.gbl { assert AllocOk(s, p); }
    forall n | 0 <= n < |s.log| - 1 ensures n in s.freed { FreedExactlyOnce(s, n); }
    FreedExactlyOnce(s, |s.log| - 1);
    AllBelow(s.freed, |s.log| - 1);
  }

  lemma {:induction false} HeadIn(list: seq<nat>)
    requires list != []
    ensures list[0] in list
  {
  }

  /** A list that holds each number below n once has n elements. */
  lemma {:induction false} AllBelow(list: seq<nat>, n: nat)
    requires NoDup(list) && (forall x :: x in list ==> x < n) && forall x :: 0 <= x < n ==> x in list
    ensures |list| == n
  {
    if n == 0 {
      if list != [] { HeadIn(list); }
    } else {
      var top: nat := n - 1;
      assert top in list;
      var i :| 0 <= i < |list| && list[i] == n - 1;
      var rest := list[..i] + list[i + 1..];
      assert forall x :: x in rest <==> x in list && x != n - 1;
      AllBelow(rest, n - 1);
    }
  }

  /** foo_update_a changes a and keeps the other fields: so does every version. */
  lemma {:induction false} OtherFieldsKept(p: Ptr, b: int, c: int, es: seq<Event>)
    ensures Inv(Init(p, b, c))
    ensures forall i :: 0 <= i < |Run(Init(p, b, c), es).log| ==>
      Run(Init(p, b, c), es).log[i].b == b && Run(Init(p, b, c), es).log[i].c == c
  {
    InitInv(p, b, c);
    LogGrows(Init(p, b, c), es);
  }

  lemma {:induction false} LogGrows(s: State, es: seq<Event>)
    requires Inv(s)
    ensures s.log <= Run(s, es).log
    decreases |es|
  {
    if es != [] {
      NextInv(s, es[0]);
      LogGrows(Next(s, es[0]), es[1..]);
    }
  }

  /** The state after the section of foo_update_a under foo_mutex. */
  ghost function Replaced(s: State, t: Thread, p: Ptr, a: int): State
    requires s.gbl in s.heap
  {
    var foo := s.heap[s.gbl].foo.(a := a);
    State(s.heap[p := Obj(foo, Version(|s.log|))], p, s.pcs[t := Synchronizing(s.gbl)], s.readers, s.writer, s.mutex, s.log + [foo], s.freed)
  }

  lemma CopySteps(s: State, t: Thread, p: Ptr, a: int)
    requires Inv(s) && PcOf(s.pcs, t) == Allocated(p, a) && s.mutex == Nobody
    ensures s.gbl in s.heap && p in s.heap && p != s.gbl && s.heap[s.gbl] == Obj(s.log[|s.log| - 1], Version(|s.log| - 1))
    ensures s.heap[p].version == Unpublished
    ensures Inv(Copy(LoadOld(LockMutex(s, t, p, a), t, p, a), t, p, a, s.gbl))
  {
    assert ThreadOk(s, t);
    NextInv(s, ELockMutex(t));
    NextInv(LockMutex(s, t, p, a), ELoadOld(t));
    NextInv(LoadOld(LockMutex(s, t, p, a), t, p, a), ECopy(t));
  }

  lemma PublishSteps(s: State, t: Thread, p: Ptr, a: int, q: Ptr)
    requires Inv(s) && PcOf(s.pcs, t) == Copied(p, a, q) && p in s.heap
    ensures Inv(UnlockMutex(Publish(SetA(s, t, p, a, q), t, p, q), t, q))
  {
    NextInv(s, ESetA(t));
    NextInv(SetA(s, t, p, a, q), EPublish(t));
    NextInv(Publish(SetA(s, t, p, a, q), t, p, q), EUnlockMutex(t));
  }

  lemma ReplaceSteps(s: State, t: Thread, p: Ptr, a: int)
    requires Inv(s) && PcOf(s.pcs, t) == Allocated(p, a) && s.mutex == Nobody
    ensures s.gbl in s.heap && p != s.gbl && s.heap[s.gbl] == Obj(s.log[|s.log| - 1], Version(|s.log| - 1))
    ensures Inv(Replaced(s, t, p, a))
  {
    CopySteps(s, t, p, a);
    var s3 := Copy(LoadOld(LockMutex(s, t, p, a), t, p, a), t, p, a, s.gbl);
    PublishSteps(s3, t, p, a, s.gbl);
    ReplaceFields(s, t, p, a);
  }

  /** The steps of the section, field by field. */
  lemma ReplaceFields(s: State, t: Thread, p: Ptr, a: int)
    requires s.gbl in s.heap && p in s.heap && p != s.gbl && s.mutex == Nobody
    ensures UnlockMutex(Publish(SetA(Copy(LoadOld(LockMutex(s, t, p, a), t, p, a), t, p, a, s.gbl), t, p, a, s.gbl), t, p, s.gbl), t, s.gbl)
      == Replaced(s, t, p, a)
  {
  }

  // ---------------------------------------------------------------- the code, run by one thread

  /** The shared variables. Each method is one or more steps of the calling thread, proved to do what
      the state machine says. */
  class Rcu {
    var heap: map<Ptr, Obj>
    var gblFoo: Ptr
    var readers: set<Thread>
    var rcuWriter: Holder
    var fooMutex: Holder
    var log: seq<Foo>               // history: it numbers the versions
    ghost var pcs: map<Thread, Pc>
    ghost var freed: seq<nat>

    ghost function View(): State
      reads this
    {
      State(heap, gblFoo, pcs, readers, rcuWriter, fooMutex, log, freed)
    }

    /** init_foo, with the memory that kmalloc handed out. */
    constructor (p: Ptr, b: int, c: int)
      ensures View() == Init(p, b, c) && Inv(View())
      ensures gblFoo == p && p in heap && heap[p].foo == Foo(5, b, c) && log == [Foo(5, b, c)] && readers == {}
    {
      var foo := Foo(5, b, c);
      heap, gblFoo, readers, rcuWriter, fooMutex := map[p := Obj(foo, Version(0))], p, {}, Nobody, Nobody;
      pcs, log, freed := map[], [foo], [];
    }

    method ReadLock(t: Thread)
      requires Inv(View()) && Enabled(View(), EReadLock(t))
      modifies this`readers, this`pcs
      ensures (StepSafe(old(View()), EReadLock(t)); View() == Next(old(View()), EReadLock(t))) && Inv(View())
    {
      NextInv(View(), EReadLock(t));
      readers, pcs := readers + {t}, pcs[t := ReadLocked];
    }

    method ReadUnlock(t: Thread)
      requires Inv(View()) && Enabled(View(), EReadUnlock(t))
      modifies this`readers, this`pcs
      ensures (StepSafe(old(View()), EReadUnlock(t)); View() == Next(old(View()), EReadUnlock(t))) && Inv(View())
    {
      NextInv(View(), EReadUnlock(t));
      readers, pcs := readers - {t}, pcs[t := Idle];
    }

    /** rcu_dereference, then the load of the field through the pointer. */
    method GetA(t: Thread) returns (retval: int)
      requires Inv(View()) && PcOf(pcs, t) == ReadLocked
      modifies this`pcs
      ensures Inv(View()) && PcOf(pcs, t) == Got(retval, |log| - 1)
      ensures retval == log[|log| - 1].a
    {
      NextInv(View(), ELoad(t));
      ghost var s1 := Next(View(), ELoad(t));
      NextInv(s1, EDeref(t));
      var p := gblFoo;
      retval := heap[p].foo.a;
      pcs := pcs[t := Got(retval, |log| - 1)];
      assert View() == Next(s1, EDeref(t));
    }

    /** foo_get_a. */
    method FooGetA(t: Thread) returns (retval: int)
      requires Inv(View()) && PcOf(pcs, t) == Idle && rcuWriter == Nobody
      modifies this`readers, this`pcs
      ensures Inv(View()) && PcOf(pcs, t) == Idle && readers == old(readers)
      ensures retval == log[|log| - 1].a
    {
      assert t !in readers by { assert ThreadOk(View(), t); }
      ReadLock(t);
      retval := GetA(t);
      ReadUnlock(t);
    }

    /** The section of foo_update_a under foo_mutex; newFp is what kmalloc returned. */
    method Replace(t: Thread, newFp: Ptr, newA: int) returns (oldFp: Ptr)
      requires Inv(View()) && PcOf(pcs, t) == Allocated(newFp, newA) && fooMutex == Nobody
      modifies this`heap, this`gblFoo, this`log, this`pcs
      ensures Inv(View()) && PcOf(pcs, t) == Synchronizing(oldFp)
      ensures oldFp == old(gblFoo) && gblFoo == newFp
      ensures oldFp in heap && heap[oldFp].version == Version(|old(log)| - 1)
      ensures log == old(log) + [old(log)[|old(log)| - 1].(a := newA)]
    {
      ReplaceSteps(View(), t, newFp, newA);
      ghost var u := Replaced(View(), t, newFp, newA);
      oldFp := gblFoo;
      var foo := heap[oldFp].foo.(a := newA);
      heap, gblFoo := heap[newFp := Obj(foo, Version(|log|))], newFp;
      log, pcs := log + [foo], pcs[t := Synchronizing(oldFp)];
      assert View() == u;
    }

    /** toy_synchronize_rcu, once no reader is left. */
    method Synchronize(t: Thread)
      requires Inv(View()) && Enabled(View(), EWriteLock(t))
      modifies this`pcs
      ensures Inv(View()) && PcOf(pcs, t) == Synchronized(old(PcOf(pcs, t).oldFp))
    {
      NextInv(View(), EWriteLock(t));
      ghost var s1 := Next(View(), EWriteLock(t));
      NextInv(s1, EWriteUnlock(t));
      pcs := pcs[t := Synchronized(PcOf(pcs, t).oldFp)];
      assert View() == Next(s1, EWriteUnlock(t));
    }

    method KFree(t: Thread, p: Ptr)
      requires Inv(View()) && PcOf(pcs, t) == Synchronized(p)
      modifies this`heap, this`freed, this`pcs
      ensures Inv(View()) && PcOf(pcs, t) == Idle && heap == old(heap) - {p}
      ensures old(p in heap && heap[p].version.Version?) && freed == old(freed) + [old(heap)[p].version.n]
    {
      NextInv(View(), EFree(t));
      assert ThreadOk(View(), t);
      ghost var s1 := Next(View(), EFree(t));
      freed := freed + [heap[p].version.n];
      heap, pcs := heap - {p}, pcs[t := Idle];
      assert View() == s1;
    }

    /** foo_update_a, with memory newFp from kmalloc, while no reader is about. */
    method FooUpdateA(t: Thread, newFp: Ptr, garbage: Foo, newA: int)
      requires Inv(View()) && PcOf(pcs, t) == Idle && newFp !in heap
      requires fooMutex == Nobody && readers == {} && rcuWriter == Nobody
      modifies this`heap, this`gblFoo, this`log, this`pcs, this`freed
      ensures Inv(View()) && PcOf(pcs, t) == Idle && gblFoo == newFp
      ensures log == old(log) + [old(log)[|old(log)| - 1].(a := newA)] && freed == old(freed) + [|old(log)| - 1]
    {
      NextInv(View(), EAlloc(t, newFp, garbage, newA));
      ghost var s1 := Next(View(), EAlloc(t, newFp, garbage, newA));
      heap, pcs := heap[newFp := Obj(garbage, Unpublished)], pcs[t := Allocated(newFp, newA)];
      assert View() == s1;
      var oldFp := Replace(t, newFp, newA);
      Synchronize(t);
      KFree(t, oldFp);
    }
  }
}
