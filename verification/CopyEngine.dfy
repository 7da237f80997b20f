/**
 The copy engine of old/fuse/dev.c: request arguments are copied to or from a userspace buffer that
 arrives in segments of any positive length, each of which may turn out to be unreadable.
 */
module CopyEngine {
  import opened Errno
  import opened Pages

  type byte = bv8

  /** What the next call of fuse_copy_fill finds: n more bytes of the userspace buffer, or an error
      (an unmapped page, no memory, or a request that was aborted while unlocked). */
  datatype Fill = Chunk(n: nat) | Fault(err: int)

  predicate FillsOk(fills: seq<Fill>) {
    forall f :: f in fills ==> if f.Chunk? then f.n > 0 else f.err < 0
  }

  /** All the bytes that the segments hold. */
  function Total(fills: seq<Fill>): nat {
    if fills == [] then 0 else (if fills[0].Chunk? then fills[0].n else 0) + Total(fills[1..])
  }

  /** The bytes before the first error. */
  function Ahead(fills: seq<Fill>): (n: nat)
    ensures n <= Total(fills)
  {
    if fills == [] || fills[0].Fault? then 0 else fills[0].n + Ahead(fills[1..])
  }

  function FirstError(fills: seq<Fill>): int {
    if fills == [] then 0 else if fills[0].Fault? then fills[0].err else FirstError(fills[1..])
  }

  function Zeros(n: nat): (s: seq<byte>)
    ensures |s| == n && forall i :: 0 <= i < n ==> s[i] == 0
  {
    seq(n, i => 0)
  }

  /** The copy cursor: what is left of the current segment, where it continues in the userspace
      buffer, and the segments to come. */
  datatype Cursor = Cursor(fills: seq<Fill>, len: nat, offset: nat)

  predicate CursorOk(c: Cursor, bytes: nat) { FillsOk(c.fills) && c.offset + c.len + Total(c.fills) <= bytes }

  /** Every byte that is left, and those that can be copied before an error. */
  function Left(c: Cursor): nat { c.len + Total(c.fills) }

  function Reach(c: Cursor): nat { c.len + Ahead(c.fills) }

  /** The cursor after fuse_copy_fill found a segment or an error. */
  function Filled(c: Cursor): Cursor
    requires c.fills != []
  {
    Cursor(c.fills[1..], if c.fills[0].Chunk? then c.fills[0].n else 0, c.offset)
  }

  function Advanced(c: Cursor, n: nat): Cursor
    requires n <= c.len
  {
    Cursor(c.fills, c.len - n, c.offset + n)
  }

  /** Filling and copying until `size` bytes are done or an error comes. */
  function Copied(c: Cursor, size: nat): (r: (Cursor, int))
    decreases |c.fills|, size
  {
    if size == 0 || (c.len == 0 && c.fills == []) then (c, 0)
    else if c.len > 0 then Copied(Advanced(c, Min(size, c.len)), size - Min(size, c.len))
    else if c.fills[0].Fault? then (Filled(c), c.fills[0].err)
    else Copied(Filled(c), size)
  }

  lemma FilledOk(c: Cursor, bytes: nat)
    requires CursorOk(c, bytes) && c.len == 0 && c.fills != []
    ensures CursorOk(Filled(c), bytes)
    ensures c.fills[0].Chunk? ==> Left(Filled(c)) == Left(c) && Reach(Filled(c)) == Reach(c) && Filled(c).len > 0
  {
    assert c.fills[0] in c.fills;
    assert forall f :: f in c.fills[1..] ==> f in c.fills;
  }

  /** A copy fails exactly if an error comes before its last byte; it then returns that error and has
      moved the bytes before it. How the buffer is split makes no difference. */
  lemma {:induction false} CopiedReach(c: Cursor, size: nat, bytes: nat)
    requires CursorOk(c, bytes) && size <= Left(c)
    ensures var (d, err) := Copied(c, size);
      && CursorOk(d, bytes) && err <= 0
      && (err == 0 <==> size <= Reach(c))
      && (err != 0 ==> err == FirstError(c.fills))
      && d.offset == c.offset + Min(size, Reach(c))
      && (err == 0 ==> Reach(d) == Reach(c) - size && Left(d) == Left(c) - size)
    decreases |c.fills|, size
  {
    if size == 0 {
    } else if c.len > 0 {
      CopiedReach(Advanced(c, Min(size, c.len)), size - Min(size, c.len), bytes);
    } else {
      assert c.fills[0] in c.fills;
      FilledOk(c, bytes);
      if c.fills[0].Chunk? { CopiedReach(Filled(c), size, bytes); }
    }
  }

  /** A cursor in figures: where it stands, the bytes left, those before an error, and that error. */
  datatype Mark = Mark(offset: nat, left: nat, reach: nat, error: int) {
    function Ahead(n: nat): Mark
      requires n <= left && n <= reach
    {
      Mark(offset + n, left - n, reach - n, error)
    }
  }

  function MarkOf(c: Cursor): Mark { Mark(c.offset, Left(c), Reach(c), FirstError(c.fills)) }

  /** A copy in figures: it fails exactly if an error comes before its last byte. */
  lemma {:induction false} CopiedMark(c: Cursor, size: nat, bytes: nat)
    requires CursorOk(c, bytes) && size <= Left(c)
    ensures Copied(c, size).1 == if size <= Reach(c) then 0 else FirstError(c.fills)
    ensures Reach(c) < size ==> FirstError(c.fills) < 0
    ensures size <= Reach(c) ==> MarkOf(Copied(c, size).0) == MarkOf(c).Ahead(size)
    decreases |c.fills|, size
  {
    CopiedReach(c, size, bytes);
    if size == 0 {
    } else if c.len > 0 {
      CopiedMark(Advanced(c, Min(size, c.len)), size - Min(size, c.len), bytes);
    } else {
      assert c.fills[0] in c.fills;
      FilledOk(c, bytes);
      if c.fills[0].Chunk? { CopiedMark(Filled(c), size, bytes); }
    }
  }

  lemma CopiedFacts(c: Cursor, size: nat, bytes: nat)
    requires CursorOk(c, bytes) && size <= Left(c)
    ensures CursorOk(Copied(c, size).0, bytes) && Copied(c, size).1 == (if size <= Reach(c) then 0 else FirstError(c.fills))
    ensures Reach(c) < size ==> FirstError(c.fills) < 0
    ensures size <= Reach(c) ==> MarkOf(Copied(c, size).0) == MarkOf(c).Ahead(size)
  {
    CopiedReach(c, size, bytes);
    CopiedMark(c, size, bytes);
  }

  /** `data` written over `base` from position `at` on. */
  function Patch(base: seq<byte>, at: nat, data: seq<byte>): (r: seq<byte>)
    requires at + |data| <= |base|
    ensures |r| == |base|
  {
    base[..at] + data + base[at + |data|..]
  }

  /** What copying n bytes makes of the userspace buffer and of the kernel's. */
  function Transfer(write: bool, user: seq<byte>, from: nat, val: seq<byte>, at: nat, n: nat): (r: (seq<byte>, seq<byte>))
    requires from + n <= |user| && at + n <= |val|
    ensures |r.0| == |user| && |r.1| == |val|
  {
    if write then (Patch(user, from, val[at..at + n]), val) else (user, Patch(val, at, user[from..from + n]))
  }

  lemma {:induction false} TransferMore(write: bool, user: seq<byte>, from: nat, val: seq<byte>, at: nat, n: nat, m: nat)
    requires from + n + m <= |user| && at + n + m <= |val|
    ensures var (u, v) := Transfer(write, user, from, val, at, n);
      Transfer(write, u, from + n, v, at + n, m) == Transfer(write, user, from, val, at, n + m)
  {
    if write { PatchSlices(user, from, val, at, n, m); } else { PatchSlices(val, at, user, from, n, m); }
  }

  lemma {:induction false} PatchSlices(base: seq<byte>, at: nat, data: seq<byte>, from: nat, n: nat, m: nat)
    requires at + n + m <= |base| && from + n + m <= |data|
    ensures Patch(Patch(base, at, data[from..from + n]), at + n, data[from + n..from + n + m]) == Patch(base, at, data[from..from + n + m])
  {
    PatchMore(base, at, data[from..from + n], data[from + n..from + n + m]);
    assert data[from..from + n] + data[from + n..from + n + m] == data[from..from + n + m];
  }

  lemma {:induction false} PatchMore(base: seq<byte>, at: nat, a: seq<byte>, b: seq<byte>)
    requires at + |a| + |b| <= |base|
    ensures Patch(Patch(base, at, a), at + |a|, b) == Patch(base, at, a + b)
  {
  }

  lemma {:induction false} TransferNone(write: bool, user: seq<byte>, from: nat, val: seq<byte>, at: nat)
    requires from <= |user| && at <= |val|
    ensures Transfer(write, user, from, val, at, 0).0 == user && Transfer(write, user, from, val, at, 0).1 == val
  {
  }

  /** The buffers once n bytes of the transfer have moved. */
  ghost predicate Moved(write: bool, user: seq<byte>, from: nat, val: seq<byte>, at: nat, n: nat, user': seq<byte>, val': seq<byte>) {
    from + n <= |user| && at + n <= |val| && (user', val') == Transfer(write, user, from, val, at, n)
  }

  lemma {:induction false} MovedMore(write: bool, user: seq<byte>, from: nat, val: seq<byte>, at: nat, n: nat, m: nat,
      u: seq<byte>, v: seq<byte>, u': seq<byte>, v': seq<byte>)
    requires from + n + m <= |user| && at + n + m <= |val| && Moved(write, user, from, val, at, n, u, v)
    requires |u| == |user| && |v| == |val|
    requires Moved(write, u, from + n, v, at + n, m, u', v')
    ensures Moved(write, user, from, val, at, n + m, u', v')
  {
    TransferMore(write, user, from, val, at, n, m);
  }

  // ---------------------------------------------------------------- requests of several pieces

  /** A part of a kernel buffer that takes part in a copy; `clear` says that the buffer is zeroed first. */
  datatype Piece = Piece(at: nat, size: nat, clear: bool)

  /** The bytes of the first k pieces. */
  function Start(ps: seq<Piece>, k: nat): nat
    requires k <= |ps|
  {
    if k == 0 then 0 else Start(ps, k - 1) + ps[k - 1].size
  }

  lemma {:induction false} StartGrows(ps: seq<Piece>, j: nat, k: nat)
    requires j <= k <= |ps|
    ensures Start(ps, j) <= Start(ps, k)
  {
    if j < k { StartGrows(ps, j, k - 1); }
  }

  predicate Fits(vals: seq<seq<byte>>, ps: seq<Piece>) {
    |vals| == |ps| && forall i :: 0 <= i < |ps| ==> ps[i].at + ps[i].size <= |vals[i]|
  }

  /** The bytes that the first k pieces hold, one after the other. */
  function Flat(vals: seq<seq<byte>>, ps: seq<Piece>, k: nat): (s: seq<byte>)
    requires Fits(vals, ps) && k <= |ps|
    ensures |s| == Start(ps, k)
  {
    if k == 0 then [] else Flat(vals, ps, k - 1) + vals[k - 1][ps[k - 1].at..ps[k - 1].at + ps[k - 1].size]
  }

  function Prepared(val: seq<byte>, clear: bool): (r: seq<byte>)
    ensures |r| == |val|
  {
    if clear then Zeros(|val|) else val
  }

  /** A kernel buffer whose piece was copied in from the bytes `data`. */
  function Into(val: seq<byte>, p: Piece, data: seq<byte>): (r: seq<byte>)
    requires p.at + |data| <= |val|
    ensures |r| == |val|
  {
    Patch(Prepared(val, p.clear), p.at, data)
  }

  /** Piece i holds its share of the userspace buffer from position `from` on. */
  predicate Holds(user: seq<byte>, from: nat, vals: seq<seq<byte>>, ps: seq<Piece>, i: nat)
    requires Fits(vals, ps) && i < |ps|
  {
    var a := from + Start(ps, i);
    a + ps[i].size <= |user| && vals[i][ps[i].at..ps[i].at + ps[i].size] == user[a..a + ps[i].size]
  }

  /** Copying in leaves the first k pieces holding the bytes of the userspace buffer. */
  lemma {:induction false} FlatRead(user: seq<byte>, from: nat, vals: seq<seq<byte>>, ps: seq<Piece>, k: nat)
    requires Fits(vals, ps) && k <= |ps| && from + Start(ps, k) <= |user|
    requires forall i :: 0 <= i < k ==> Holds(user, from, vals, ps, i)
    ensures Flat(vals, ps, k) == user[from..from + Start(ps, k)]
  {
    if k > 0 {
      FlatRead(user, from, vals, ps, k - 1);
      assert Holds(user, from, vals, ps, k - 1);
      var n, m := Start(ps, k - 1), ps[k - 1].size;
      SliceJoin(user, from, n, m);
      calc {
        Flat(vals, ps, k);
        Flat(vals, ps, k - 1) + vals[k - 1][ps[k - 1].at..ps[k - 1].at + m];
        user[from..from + n] + user[from + n..from + n + m];
        user[from..from + (n + m)];
      }
    } else {
      assert user[from..from] == [];
    }
  }

  lemma {:induction false} SliceJoin(user: seq<byte>, from: nat, n: nat, m: nat)
    requires from + n + m <= |user|
    ensures user[from..from + n] + user[from + n..from + n + m] == user[from..from + (n + m)]
  {
  }

  /** The bytes that fuse_copy_pages has left when it comes to page i. */
  function PageBytes(descs: seq<PageDesc>, nbytes: nat, i: nat): nat
    requires i <= |descs|
  {
    if i == 0 then nbytes else
      var left := PageBytes(descs, nbytes, i - 1);
      left - Min(left, descs[i - 1].length)
  }

  /** What fuse_copy_pages copies of page i. */
  function PiecePage(descs: seq<PageDesc>, nbytes: nat, zeroing: bool, i: nat): Piece
    requires i < |descs|
  {
    var count := Min(PageBytes(descs, nbytes, i), descs[i].length);
    Piece(descs[i].offset, count, zeroing && count < PAGE_SIZE)
  }

  function PagePieces(descs: seq<PageDesc>, nbytes: nat, zeroing: bool): (ps: seq<Piece>)
    ensures |ps| == |descs| && forall i :: 0 <= i < |descs| ==> ps[i] == PiecePage(descs, nbytes, zeroing, i)
  {
    seq(|descs|, i requires 0 <= i < |descs| => PiecePage(descs, nbytes, zeroing, i))
  }

  lemma {:induction false} PageStart(descs: seq<PageDesc>, nbytes: nat, zeroing: bool, ps: seq<Piece>, k: nat)
    requires k <= |descs| && ps == PagePieces(descs, nbytes, zeroing)
    ensures Start(ps, k) + PageBytes(descs, nbytes, k) == nbytes
  {
    if k > 0 {
      PageStart(descs, nbytes, zeroing, ps, k - 1);
      assert Start(ps, k) == Start(ps, k - 1) + ps[k - 1].size;
    }
  }

  /** Once no bytes are left, no page gets any. */
  lemma {:induction false} PagesDone(descs: seq<PageDesc>, nbytes: nat, i: nat, k: nat)
    requires i <= k <= |descs| && PageBytes(descs, nbytes, i) == 0
    ensures PageBytes(descs, nbytes, k) == 0
  {
    if i < k { PagesDone(descs, nbytes, i, k - 1); }
  }

  function Concat(vals: seq<seq<byte>>, k: nat): seq<byte>
    requires k <= |vals|
  {
    if k == 0 then [] else Concat(vals, k - 1) + vals[k - 1]
  }

  ghost predicate FullPages(descs: seq<PageDesc>) {
    forall i :: 0 <= i < |descs| ==> descs[i] == PageDesc(0, PAGE_SIZE)
  }

  lemma {:induction false} FullBytes(descs: seq<PageDesc>, nbytes: nat, k: nat)
    requires FullPages(descs) && k <= |descs|
    ensures PageBytes(descs, nbytes, k) == if nbytes <= k * PAGE_SIZE then 0 else nbytes - k * PAGE_SIZE
  {
    if k > 0 { FullBytes(descs, nbytes, k - 1); }
  }

  /** Buffer i was copied in from its share of the userspace buffer. */
  ghost predicate Received(user: seq<byte>, from: nat, before: seq<byte>, after: seq<byte>, ps: seq<Piece>, i: nat)
    requires i < |ps| && ps[i].at + ps[i].size <= |before|
  {
    var a := from + Start(ps, i);
    a + ps[i].size <= |user| && after == Into(before, ps[i], user[a..a + ps[i].size])
  }

  /** Page i holds its share of the payload, then zeros. */
  ghost predicate ShareAt(user: seq<byte>, from: nat, after: seq<seq<byte>>, nbytes: nat, i: nat)
    requires from + nbytes <= |user|
  {
    i < |after| ==>
      var n := Min(nbytes, i * PAGE_SIZE);
      var m := Min(nbytes - n, PAGE_SIZE);
      after[i] == user[from + n..from + n + m] + Zeros(PAGE_SIZE - m)
  }

  lemma {:induction false} ConcatShares(user: seq<byte>, from: nat, after: seq<seq<byte>>, nbytes: nat, k: nat)
    requires k <= |after| && from + nbytes <= |user| && forall i :: ShareAt(user, from, after, nbytes, i)
    ensures var n := Min(nbytes, k * PAGE_SIZE); Concat(after, k) == user[from..from + n] + Zeros(k * PAGE_SIZE - n)
  {
    if k == 0 {
      assert user[from..from] + Zeros(0) == [];
    } else {
      ConcatShares(user, from, after, nbytes, k - 1);
      assert ShareAt(user, from, after, nbytes, k - 1);
      var n := Min(nbytes, (k - 1) * PAGE_SIZE);
      ConcatZeros(user, from, after, n, Min(nbytes - n, PAGE_SIZE), k);
    }
  }

  /** With page_zeroing a short reply fills whole pages with its payload followed by zeros. */
  lemma {:induction false} ZeroFill(user: seq<byte>, from: nat, before: seq<seq<byte>>, after: seq<seq<byte>>,
                                    descs: seq<PageDesc>, nbytes: nat, ps: seq<Piece>)
    requires FullPages(descs) && |before| == |after| == |descs| && nbytes <= |descs| * PAGE_SIZE && from + nbytes <= |user|
    requires forall i :: 0 <= i < |descs| ==> |before[i]| == PAGE_SIZE
    requires ps == PagePieces(descs, nbytes, true)
    requires forall i :: 0 <= i < |descs| ==> Received(user, from, before[i], after[i], ps, i)
    ensures Concat(after, |after|) == user[from..from + nbytes] + Zeros(|after| * PAGE_SIZE - nbytes)
  {
    forall i: nat ensures ShareAt(user, from, after, nbytes, i) {
      if i < |descs| {
        assert Received(user, from, before[i], after[i], ps, i);
        ZeroFillOne(user, from, before[i], after[i], descs, nbytes, ps, i + 1);
      }
    }
    ConcatShares(user, from, after, nbytes, |after|);
  }

  lemma {:induction false} ConcatZeros(user: seq<byte>, from: nat, after: seq<seq<byte>>, n: nat, m: nat, k: nat)
    requires 0 < k <= |after| && n <= (k - 1) * PAGE_SIZE && m <= PAGE_SIZE && from + n + m <= |user|
    requires n < (k - 1) * PAGE_SIZE ==> m == 0
    requires Concat(after, k - 1) == user[from..from + n] + Zeros((k - 1) * PAGE_SIZE - n)
    requires after[k - 1] == user[from + n..from + n + m] + Zeros(PAGE_SIZE - m)
    ensures Concat(after, k) == user[from..from + (n + m)] + Zeros(k * PAGE_SIZE - (n + m))
  {
    ZerosJoin(user, from, n, m, k);
  }

  lemma {:induction false} ZeroFillOne(user: seq<byte>, from: nat, before: seq<byte>, after: seq<byte>, descs: seq<PageDesc>, nbytes: nat, ps: seq<Piece>, k: nat)
    requires FullPages(descs) && 0 < k <= |descs| && from + nbytes <= |user| && |before| == PAGE_SIZE
    requires ps == PagePieces(descs, nbytes, true) && Received(user, from, before, after, ps, k - 1)
    ensures var n := Min(nbytes, (k - 1) * PAGE_SIZE);
      var m := Min(nbytes - n, PAGE_SIZE);
      after == user[from + n..from + n + m] + Zeros(PAGE_SIZE - m)
  {
    FullPiece(descs, nbytes, ps, k);
    var n := Min(nbytes, (k - 1) * PAGE_SIZE);
    var m := Min(nbytes - n, PAGE_SIZE);
    assert after == Into(before, Piece(0, m, m < PAGE_SIZE), user[from + n..from + n + m]);
    PageFilled(user, from + n, before, m);
  }

  /** Where the k-th full page starts in the payload, and how much of it the page takes. */
  lemma {:induction false} FullPiece(descs: seq<PageDesc>, nbytes: nat, ps: seq<Piece>, k: nat)
    requires FullPages(descs) && 0 < k <= |descs| && ps == PagePieces(descs, nbytes, true)
    ensures var n := Min(nbytes, (k - 1) * PAGE_SIZE);
      var m := Min(nbytes - n, PAGE_SIZE);
      Start(ps, k - 1) == n && ps[k - 1] == Piece(0, m, m < PAGE_SIZE)
  {
    FullBytes(descs, nbytes, k - 1);
    PageStart(descs, nbytes, true, ps, k - 1);
  }

  lemma {:induction false} PageFilled(user: seq<byte>, from: nat, page: seq<byte>, n: nat)
    requires |page| == PAGE_SIZE && n <= PAGE_SIZE && from + n <= |user|
    ensures Into(page, Piece(0, n, n < PAGE_SIZE), user[from..from + n]) == user[from..from + n] + Zeros(PAGE_SIZE - n)
  {
  }

  lemma {:induction false} ZerosJoin(user: seq<byte>, from: nat, n: nat, m: nat, k: nat)
    requires k > 0 && n <= (k - 1) * PAGE_SIZE && m <= PAGE_SIZE && from + n + m <= |user|
    requires n < (k - 1) * PAGE_SIZE ==> m == 0
    ensures user[from..from + n] + Zeros((k - 1) * PAGE_SIZE - n) + (user[from + n..from + n + m] + Zeros(PAGE_SIZE - m))
      == user[from..from + (n + m)] + Zeros(k * PAGE_SIZE - (n + m))
  {
    assert user[from..from + n] + user[from + n..from + n + m] == user[from..from + (n + m)];
    if m == 0 {
      assert Zeros((k - 1) * PAGE_SIZE - n) + Zeros(PAGE_SIZE) == Zeros(k * PAGE_SIZE - n);
    }
  }

  class CopyState {
    const write: bool
    const user: array<byte>
    var fills: seq<Fill>
    var len: nat
    var offset: nat

    ghost function At(): Cursor
      reads this
    {
      Cursor(fills, len, offset)
    }

    /** fuse_copy_init. */
    constructor (write: bool, user: array<byte>, fills: seq<Fill>)
      ensures this.write == write && this.user == user && At() == Cursor(fills, 0, 0)
    {
      this.write, this.user, this.fills, len, offset := write, user, fills, 0, 0;
    }

    /** fuse_copy_fill: the next segment, or its error. The userspace buffer is not used up, so that
        its BUG_ON does not fire. */
    method CopyFill() returns (err: int)
      requires fills != []
      modifies this`len, this`fills
      ensures At() == Filled(old(At()))
      ensures err == if old(fills[0]).Fault? then old(fills[0]).err else 0
    {
      match fills[0] {
        case Fault(e) => err, len := e, 0;
        case Chunk(n) => err, len := 0, n;
      }
      fills := fills[1..];
    }

    /** fuse_copy_do: as much as the segment allows, between it and val from `at` on. */
    method CopyDo(val: array<byte>, at: nat, size: nat) returns (n: nat)
      requires CursorOk(At(), user.Length) && at + size <= val.Length && val != user
      modifies this`len, this`offset, user, val
      ensures n == Min(size, old(len)) && At() == Advanced(old(At()), n)
      ensures user[..] == Transfer(write, old(user[..]), old(offset), old(val[..]), at, Min(size, old(len))).0
      ensures val[..] == Transfer(write, old(user[..]), old(offset), old(val[..]), at, Min(size, old(len))).1
    {
      n := Min(size, len);
      if write {
        forall i | 0 <= i < n { user[offset + i] := val[at + i]; }
      } else {
        forall i | 0 <= i < n { val[at + i] := user[offset + i]; }
      }
      len, offset := len - n, offset + n;
    }

    /** The loop of fuse_copy_one and of fuse_copy_page: fill and copy until done or failed. */
    method Copy(val: array<byte>, at: nat, size: nat) returns (err: int)
      requires CursorOk(At(), user.Length) && at + size <= val.Length && val != user && size <= Left(At())
      modifies this`len, this`offset, this`fills, user, val
      ensures (At(), err) == Copied(old(At()), size)
      ensures CursorOk(At(), user.Length) && offset == old(offset) + Min(size, old(Reach(At())))
      ensures user[..] == Transfer(write, old(user[..]), old(offset), old(val[..]), at, Min(size, old(Reach(At())))).0
      ensures val[..] == Transfer(write, old(user[..]), old(offset), old(val[..]), at, Min(size, old(Reach(At())))).1
    {
      ghost var c, u, v := At(), user[..], val[..];
      CopiedReach(c, size, user.Length);
      var n: nat := 0;
      err := 0;
      TransferNone(write, u, offset, v, at);
      while n < size && err == 0
        invariant Progress(At(), n, err, c, size, user.Length)
        invariant Moved(write, u, c.offset, v, at, n, user[..], val[..])
        decreases |fills|, size - n
      {
        if len == 0 {
          FillProgress(At(), n, c, size, user.Length);
          err := CopyFill();
        } else {
          n := CopyMore(val, at, size, n, c, u, v);
        }
      }
    }

    /** One call of fuse_copy_do in that loop. */
    method CopyMore(val: array<byte>, at: nat, size: nat, n: nat, ghost c: Cursor, ghost u: seq<byte>, ghost v: seq<byte>) returns (n': nat)
      requires Progress(At(), n, 0, c, size, user.Length) && len > 0 && n < size
      requires at + size <= val.Length && val != user && |u| == user.Length && |v| == val.Length
      requires Moved(write, u, c.offset, v, at, n, user[..], val[..])
      modifies this`len, this`offset, user, val
      ensures n < n' && Progress(At(), n', 0, c, size, user.Length)
      ensures Moved(write, u, c.offset, v, at, n', user[..], val[..])
    {
      DoProgress(At(), n, c, size, user.Length);
      ghost var u1, v1, from := user[..], val[..], offset;
      var m := CopyDo(val, at + n, size - n);
      n' := n + m;
      assert Moved(write, u1, from, v1, at + n, m, user[..], val[..]);
      MovedMore(write, u, c.offset, v, at, n, m, u1, v1, user[..], val[..]);
    }

    // ------------------------------------------------------------ arguments and pages

    /** fuse_copy_one. */
    method CopyOne(val: array<byte>, size: nat) returns (err: int)
      requires CursorOk(At(), user.Length) && size <= val.Length && val != user && size <= Left(At())
      modifies this`len, this`offset, this`fills, user, val
      ensures (At(), err) == Copied(old(At()), size)
      ensures user[..] == Transfer(write, old(user[..]), old(offset), old(val[..]), 0, Min(size, old(Reach(At())))).0
      ensures val[..] == Transfer(write, old(user[..]), old(offset), old(val[..]), 0, Min(size, old(Reach(At())))).1
    {
      err := Copy(val, 0, size);
    }

    /** fuse_copy_page, except for the moving of whole pages. */
    method CopyPage(page: array<byte>, at: nat, count: nat, zeroing: bool) returns (err: int)
      requires CursorOk(At(), user.Length) && page.Length == PAGE_SIZE && at + count <= PAGE_SIZE && page != user
      requires count <= Left(At())
      modifies this`len, this`offset, this`fills, user, page
      ensures (At(), err) == Copied(old(At()), count)
      ensures var val := Prepared(old(page[..]), zeroing && count < PAGE_SIZE);
        && user[..] == Transfer(write, old(user[..]), old(offset), val, at, Min(count, old(Reach(At())))).0
        && page[..] == Transfer(write, old(user[..]), old(offset), val, at, Min(count, old(Reach(At())))).1
    {
      if zeroing && count < PAGE_SIZE {
        forall i | 0 <= i < page.Length { page[i] := 0; }
        assert page[..] == Prepared(old(page[..]), true);
      }
      err := Copy(page, at, count);
    }

    /** The present state of the cursor and of all buffers. */
    ghost predicate Is(bufs: seq<array<byte>>, st: State)
      reads this, user, bufs
    {
      && CursorOk(At(), user.Length) && st.d == MarkOf(At()) && st.user == user[..] && |st.vals| == |bufs|
      && forall j :: 0 <= j < |bufs| ==> st.vals[j] == bufs[j][..]
    }

    /** The part of one buffer, cleared first if it is a page that gets less than a page with zeroing. */
    method CopyPart(buf: array<byte>, at: nat, size: nat, zeroing: bool, ghost p: Piece, ghost m: Mark) returns (err: int)
      requires CursorOk(At(), user.Length) && m == MarkOf(At()) && at + size <= buf.Length && buf != user && size <= m.left
      requires zeroing ==> buf.Length == PAGE_SIZE && !write
      requires p == Piece(at, size, zeroing && size < PAGE_SIZE)
      modifies this`len, this`offset, this`fills, user, buf
      ensures CursorOk(At(), user.Length) && m.offset + m.left <= user.Length
      ensures err == (if size <= m.reach then 0 else m.error) && (err == 0 <==> size <= m.reach)
      ensures err == 0 ==> MarkOf(At()) == m.Ahead(size)
      ensures err == 0 && write ==> buf[..] == old(buf[..]) && user[..] == Patch(old(user[..]), m.offset, buf[at..at + size])
      ensures err == 0 && !write ==> user[..] == old(user[..]) && buf[..] == Into(old(buf[..]), p, user[m.offset..m.offset + size])
    {
      CopiedFacts(At(), size, user.Length);
      if zeroing { err := CopyPage(buf, at, size, zeroing); } else { err := Copy(buf, at, size); }
    }

    /** One more piece of the request. */
    method CopyPiece(bufs: seq<array<byte>>, i: nat, at: nat, size: nat, zeroing: bool, ghost plan: Plan, ghost st: State)
      returns (err: int, ghost st': State)
      requires Separate(user, bufs) && Is(bufs, st) && plan.Ok() && |plan.ps| == |bufs| && i < |bufs|
      requires plan.write == write && Done(plan, st, i) && at + size <= bufs[i].Length
      requires plan.ps[i] == Piece(at, size, zeroing && size < PAGE_SIZE) && (zeroing ==> bufs[i].Length == PAGE_SIZE && !write)
      modifies this`len, this`offset, this`fills, user, bufs[i]
      ensures Is(bufs, st')
      ensures if err == 0 then Done(plan, st', i + 1) else Failed(plan, err)
    {
      MarkStep(plan, st.d, i);
      err := CopyPart(bufs[i], at, size, zeroing, plan.ps[i], st.d);
      st' := State(MarkOf(At()), user[..], st.vals[i := bufs[i][..]]);
      if err == 0 && write {
        PieceOut(plan, st, i, st');
      } else if err == 0 {
        assert bufs[i][..] == Into(st.vals[i], plan.ps[i], st.user[st.d.offset..st.d.offset + size]);
        PieceIn(plan, st, i, st');
      }
    }

    /** One page of fuse_copy_pages. */
    method PageTurn(bufs: seq<array<byte>>, m: nat, k: nat, descs: seq<PageDesc>, left: nat, zeroing: bool,
                    ghost nbytes: nat, ghost plan: Plan, ghost st: State) returns (err: int, k': nat, left': nat, ghost st': State)
      requires Separate(user, bufs) && Is(bufs, st) && plan.Ok() && |plan.ps| == |bufs| && m <= k < |bufs| == m + |descs|
      requires plan.write == write && Done(plan, st, k) && (zeroing ==> !write) && bufs[k].Length == PAGE_SIZE
      requires descs[k - m].offset + descs[k - m].length <= PAGE_SIZE
      requires left == PageBytes(descs, nbytes, k - m) && plan.ps[k] == PiecePage(descs, nbytes, zeroing, k - m)
      modifies this`len, this`offset, this`fills, user, bufs[k]
      ensures Is(bufs, st') && k' == k + 1 && left' == PageBytes(descs, nbytes, k' - m)
      ensures if err == 0 then Done(plan, st', k') else Failed(plan, err)
    {
      var count := Min(left, descs[k - m].length);
      k', left' := k + 1, left - count;
      err, st' := CopyPiece(bufs, k, descs[k - m].offset, count, zeroing, plan, st);
    }

    /** fuse_copy_pages: bufs[m..] are the pages, with one descriptor each. */
    method CopyPages(bufs: seq<array<byte>>, m: nat, descs: seq<PageDesc>, nbytes: nat, zeroing: bool, ghost plan: Plan, ghost st: State)
      returns (err: int, ghost st': State)
      requires Separate(user, bufs) && Is(bufs, st) && plan.Ok() && |plan.ps| == |bufs| == m + |descs|
      requires plan.write == write && Done(plan, st, m) && (zeroing ==> !write)
      requires forall k :: PageAt(plan.ps, m, descs, nbytes, zeroing, k)
      requires forall k :: m <= k < |bufs| ==> bufs[k].Length == PAGE_SIZE
      modifies this`len, this`offset, this`fills, user, bufs[m..]
      ensures Is(bufs, st')
      ensures if err == 0 then Done(plan, st', |bufs|) else Failed(plan, err)
    {
      var k, left := m, nbytes;
      st', err := st, 0;
      while k < |bufs| && (left > 0 || zeroing)
        invariant m <= k <= |bufs| && left == PageBytes(descs, nbytes, k - m)
        invariant Is(bufs, st') && Done(plan, st', k)
      {
        assert PageAt(plan.ps, m, descs, nbytes, zeroing, k);
        err, k, left, st' := PageTurn(bufs, m, k, descs, left, zeroing, nbytes, plan, st');
        if err != 0 { return; }
      }
      if k < |bufs| { SkipPages(plan, st', descs, nbytes, zeroing, m, k); }
    }

    /** One argument of fuse_copy_args. */
    method ArgTurn(bufs: seq<array<byte>>, i: nat, size: nat, ghost plan: Plan, ghost st: State) returns (err: int, i': nat, ghost st': State)
      requires Separate(user, bufs) && Is(bufs, st) && plan.Ok() && |plan.ps| == |bufs| && i < |bufs|
      requires plan.write == write && Done(plan, st, i) && size <= bufs[i].Length && plan.ps[i] == Piece(0, size, false)
      modifies this`len, this`offset, this`fills, user, bufs[i]
      ensures Is(bufs, st') && i' == i + 1
      ensures if err == 0 then Done(plan, st', i') else Failed(plan, err)
    {
      err, st' := CopyPiece(bufs, i, 0, size, false, plan, st);
      i' := i + 1;
    }

    /** The loop of fuse_copy_args over the arguments that are not in pages. */
    method PlainArgs(bufs: seq<array<byte>>, m: nat, sizes: seq<nat>, ghost plan: Plan, ghost st: State) returns (err: int, ghost st': State)
      requires Separate(user, bufs) && Is(bufs, st) && plan.Ok() && |plan.ps| == |bufs| && m <= |bufs| && m <= |sizes|
      requires plan.write == write && Done(plan, st, 0) && forall i :: ArgAt(plan, sizes, m, i)
      requires plan.st == st
      modifies this`len, this`offset, this`fills, user, bufs[..m]
      ensures Is(bufs, st')
      ensures if err == 0 then Done(plan, st', m) else Failed(plan, err)
    {
      var i := 0;
      err, st' := 0, st;
      while i < m
        invariant i <= m && Is(bufs, st') && Done(plan, st', i)
      {
        assert ArgAt(plan, sizes, m, i);
        err, i, st' := ArgTurn(bufs, i, sizes[i], plan, st');
        if err != 0 { return; }
      }
    }

    method AllArgs(bufs: seq<array<byte>>, m: nat, sizes: seq<nat>, descs: seq<PageDesc>, zeroing: bool, ghost plan: Plan, ghost st: State)
      returns (err: int, ghost st': State)
      requires Separate(user, bufs) && Is(bufs, st) && plan.Ok() && |plan.ps| == |bufs| && m <= |bufs| && m <= |sizes|
      requires |bufs| == m + (if m < |sizes| then |descs| else 0) && (zeroing ==> !write)
      requires plan.write == write && plan.st == st && Done(plan, st, 0) && forall i :: ArgAt(plan, sizes, m, i)
      requires m < |sizes| ==> forall k :: PageAt(plan.ps, m, descs, sizes[m], zeroing, k)
      requires forall k :: m <= k < |bufs| ==> bufs[k].Length == PAGE_SIZE
      modifies this`len, this`offset, this`fills, user, bufs
      ensures Is(bufs, st')
      ensures if err == 0 then Done(plan, st', |bufs|) else Failed(plan, err)
    {
      err, st' := PlainArgs(bufs, m, sizes, plan, st);
      if err == 0 && m < |sizes| {
        err, st' := CopyPages(bufs, m, descs, sizes[m], zeroing, plan, st');
      }
    }

    /** fuse_copy_args: bufs are the values of the arguments that are not in pages, then the pages.
        Either every argument is copied, or the copy stops at the first error. */
    method CopyArgs(bufs: seq<array<byte>>, sizes: seq<nat>, argpages: bool, descs: seq<PageDesc>, zeroing: bool, ghost st: State)
      returns (err: int, ghost st': State)
      requires Separate(user, bufs) && Is(bufs, st)
      requires LayoutOk(st.vals, sizes, argpages, descs) && (zeroing ==> !write)
      requires Start(RequestPieces(sizes, argpages, descs, zeroing), |bufs|) <= st.d.left
      modifies this`len, this`offset, this`fills, user, bufs
      ensures Is(bufs, st')
      ensures var ps := RequestPieces(sizes, argpages, descs, zeroing);
        && err == (if Start(ps, |ps|) <= st.d.reach then 0 else st.d.error) && (err == 0 <==> Start(ps, |ps|) <= st.d.reach)
        && (err == 0 && write ==> SentFlat(st, ps, st'))
        && (err == 0 && !write ==> ReceivedFlat(st, ps, st'))
    {
      ghost var plan := Plan(write, st, RequestPieces(sizes, argpages, descs, zeroing));
      PlanStarts(plan);
      var m := if argpages && sizes != [] then |sizes| - 1 else |sizes|;
      RequestPlan(plan, sizes, argpages, descs, zeroing, m);
      err, st' := AllArgs(bufs, m, sizes, descs, zeroing, plan, st);
      if err == 0 { PlanDone(plan, st'); }
    }

    /** The length check of copy_out_args, which shortens a variable last argument. */
    method CheckLength(header: nat, error: int, sizes: seq<nat>, argvar: bool, nbytes: nat) returns (v: Verdict)
      requires argvar ==> sizes != []
      ensures v == CheckOut(header, error, sizes, argvar, nbytes)
    {
      var reqsize := header;
      if error != 0 {
        return if nbytes != reqsize then Invalid else ErrorReply;
      }
      reqsize := reqsize + SumSizes(sizes);
      if reqsize < nbytes || (reqsize > nbytes && !argvar) { return Invalid; }
      if reqsize > nbytes {
        var last := |sizes| - 1;
        var diffsize := reqsize - nbytes;
        if diffsize > sizes[last] { return Invalid; }
        return Args(sizes[last := sizes[last] - diffsize]);
      }
      v := Args(sizes);
    }

    /** copy_out_args for a reply of nbytes bytes, of which the header takes `header`. */
    method CopyOutArgs(bufs: seq<array<byte>>, sizes: seq<nat>, argvar: bool, argpages: bool, descs: seq<PageDesc>, zeroing: bool,
                       header: nat, error: int, nbytes: nat, ghost st: State) returns (err: int, ghost st': State)
      requires Separate(user, bufs) && Is(bufs, st) && !write && (argvar ==> sizes != [])
      requires LayoutOk(st.vals, sizes, argpages, descs) && nbytes <= header + st.d.left
      modifies this`len, this`offset, this`fills, user, bufs
      ensures Is(bufs, st')
      ensures Answered(st, CheckOut(header, error, sizes, argvar, nbytes), argpages, descs, zeroing, err, st')
    {
      var v := CheckLength(header, error, sizes, argvar, nbytes);
      st' := st;
      match v
      case Invalid => err := EINVAL;
      case ErrorReply => err := 0;
      case Args(actual) =>
        OutFits(st.vals, sizes, argvar, argpages, descs, zeroing, header, nbytes);
        err, st' := CopyArgs(bufs, actual, argpages, descs, zeroing, st);
    }
  }

  /** What a reply leaves behind, whose length was judged v. */
  ghost predicate Answered(st: State, v: Verdict, argpages: bool, descs: seq<PageDesc>, zeroing: bool, err: int, st': State) {
    match v
    case Invalid => err == EINVAL && st' == st
    case ErrorReply => err == 0 && st' == st
    case Args(sizes) =>
      LayoutOk(st.vals, sizes, argpages, descs) &&
      var ps := RequestPieces(sizes, argpages, descs, zeroing);
      err == (if Start(ps, |ps|) <= st.d.reach then 0 else st.d.error) && (err == 0 ==> ReceivedFlat(st, ps, st'))
  }

  lemma {:induction false} ReceivedHolds(user: seq<byte>, from: nat, before: seq<byte>, after: seq<byte>, ps: seq<Piece>, i: nat)
    requires i < |ps| && ps[i].at + ps[i].size <= |before| && Received(user, from, before, after, ps, i)
    ensures |after| == |before|
    ensures from + Start(ps, i) + ps[i].size <= |user|
    ensures after[ps[i].at..ps[i].at + ps[i].size] == user[from + Start(ps, i)..from + Start(ps, i) + ps[i].size]
  {
  }

  lemma {:induction false} ReceivedFits(st: State, ps: seq<Piece>, st': State)
    requires Fits(st.vals, ps) && ReceivedFlat(st, ps, st')
    ensures Fits(st'.vals, ps)
  {
    forall i | 0 <= i < |ps| ensures ps[i].at + ps[i].size <= |st'.vals[i]| {
      ReceivedHolds(st.user, st.d.offset, st.vals[i], st'.vals[i], ps, i);
    }
  }

  lemma {:induction false} ReceivedHoldsAll(st: State, ps: seq<Piece>, st': State)
    requires Fits(st.vals, ps) && ReceivedFlat(st, ps, st') && Fits(st'.vals, ps)
    ensures forall i :: 0 <= i < |ps| ==> Holds(st.user, st.d.offset, st'.vals, ps, i)
  {
    forall i | 0 <= i < |ps| ensures Holds(st.user, st.d.offset, st'.vals, ps, i) {
      ReceivedHolds(st.user, st.d.offset, st.vals[i], st'.vals[i], ps, i);
    }
  }

  /** What was copied in is the flat content of the userspace buffer, piece after piece. */
  lemma {:induction false} ReceivedIsFlat(st: State, ps: seq<Piece>, st': State)
    requires Fits(st.vals, ps) && ReceivedFlat(st, ps, st') && st.d.offset + Start(ps, |ps|) <= |st.user|
    ensures Fits(st'.vals, ps)
    ensures Flat(st'.vals, ps, |ps|) == st.user[st.d.offset..st.d.offset + Start(ps, |ps|)]
  {
    ReceivedFits(st, ps, st');
    ReceivedHoldsAll(st, ps, st');
    FlatRead(st.user, st.d.offset, st'.vals, ps, |ps|);
  }

  /** What one side copies out, the other side copies in, whatever the layouts and the splits of the
      buffers, if the layouts agree on the total. */
  lemma {:induction false} RoundTrip(sender: State, ps: seq<Piece>, sent: State, receiver: State, ps': seq<Piece>, received: State)
    requires Fits(sender.vals, ps) && SentFlat(sender, ps, sent)
    requires Fits(receiver.vals, ps') && ReceivedFlat(receiver, ps', received)
    requires receiver.user == sent.user && receiver.d.offset == sender.d.offset && Start(ps', |ps'|) == Start(ps, |ps|)
    ensures Fits(received.vals, ps') && Flat(received.vals, ps', |ps'|) == Flat(sender.vals, ps, |ps|)
  {
    ReceivedIsFlat(receiver, ps', received);
    var a, n := sender.d.offset, Start(ps, |ps|);
    assert sent.user[a..a + n] == Flat(sender.vals, ps, |ps|);
  }

  // ---------------------------------------------------------------- replies

  /** What copy_out_args makes of a reply's length: -EINVAL, nothing to copy, or the argument sizes. */
  datatype Verdict = Invalid | ErrorReply | Args(sizes: seq<nat>)

  /** len_args. */
  function SumSizes(sizes: seq<nat>): nat {
    if sizes == [] then 0 else SumSizes(sizes[..|sizes| - 1]) + sizes[|sizes| - 1]
  }

  function CheckOut(header: nat, error: int, sizes: seq<nat>, argvar: bool, nbytes: nat): Verdict
    requires argvar ==> sizes != []
  {
    var reqsize := header + SumSizes(sizes);
    if error != 0 then if nbytes != header then Invalid else ErrorReply
    else if reqsize < nbytes || (reqsize > nbytes && !argvar) then Invalid
    else if reqsize > nbytes then
      var last := |sizes| - 1;
      if reqsize - nbytes > sizes[last] then Invalid else Args(sizes[last := sizes[last] - (reqsize - nbytes)])
    else Args(sizes)
  }

  /** A success reply is accepted exactly if its length matches, or the last argument is variable and
      absorbs the shortfall; the sizes then add up to the length. An error reply is a bare header. */
  lemma {:induction false} OutAccepted(header: nat, error: int, sizes: seq<nat>, argvar: bool, nbytes: nat)
    requires argvar ==> sizes != []
    ensures var v := CheckOut(header, error, sizes, argvar, nbytes);
      && (v.Args? <==>
           error == 0 &&
           (nbytes == header + SumSizes(sizes) || (argvar && header + SumSizes(sizes[..|sizes| - 1]) <= nbytes < header + SumSizes(sizes))))
      && (v.Args? ==> header + SumSizes(v.sizes) == nbytes && |v.sizes| == |sizes|
                      && forall i :: 0 <= i < |sizes| - 1 ==> v.sizes[i] == sizes[i])
      && (v.ErrorReply? <==> error != 0 && nbytes == header)
  {
    var v := CheckOut(header, error, sizes, argvar, nbytes);
    if v.Args? && v.sizes != sizes { assert v.sizes[..|sizes| - 1] == sizes[..|sizes| - 1]; }
  }

  lemma {:induction false} ArgPiecesTotal(plan: Plan, sizes: seq<nat>, m: nat, k: nat)
    requires k <= m <= |sizes| && m <= |plan.ps| && plan.Ok() && forall i :: ArgAt(plan, sizes, m, i)
    ensures Start(plan.ps, k) == SumSizes(sizes[..k])
  {
    if k > 0 {
      ArgPiecesTotal(plan, sizes, m, k - 1);
      assert ArgAt(plan, sizes, m, k - 1);
      assert sizes[..k][..k - 1] == sizes[..k - 1];
    }
  }

  /** Pages never take more than the argument's size. */
  lemma {:induction false} PagePiecesTotal(descs: seq<PageDesc>, nbytes: nat, zeroing: bool, m: nat, ps: seq<Piece>, k: nat)
    requires m + k <= |ps| && k <= |descs|
    requires forall j :: PageAt(ps, m, descs, nbytes, zeroing, j)
    ensures Start(ps, m + k) + PageBytes(descs, nbytes, k) == Start(ps, m) + nbytes
  {
    if k > 0 {
      PagePiecesTotal(descs, nbytes, zeroing, m, ps, k - 1);
      assert PageAt(ps, m, descs, nbytes, zeroing, m + k - 1);
    }
  }

  lemma {:induction false} RequestTotal(vals: seq<seq<byte>>, sizes: seq<nat>, argpages: bool, descs: seq<PageDesc>, zeroing: bool)
    requires LayoutOk(vals, sizes, argpages, descs)
    ensures Start(RequestPieces(sizes, argpages, descs, zeroing), |vals|) <= SumSizes(sizes)
  {
    var ps := RequestPieces(sizes, argpages, descs, zeroing);
    var m := if argpages && sizes != [] then |sizes| - 1 else |sizes|;
    var plan := Plan(false, State(Mark(0, 0, 0, 0), [], vals), ps);
    RequestPlan(plan, sizes, argpages, descs, zeroing, m);
    ArgPiecesTotal(plan, sizes, m, m);
    if m < |sizes| {
      PagePiecesTotal(descs, sizes[m], zeroing, m, ps, |descs|);
    } else {
      assert sizes[..m] == sizes;
    }
  }

  lemma {:induction false} OutFits(vals: seq<seq<byte>>, sizes: seq<nat>, argvar: bool, argpages: bool, descs: seq<PageDesc>, zeroing: bool, header: nat, nbytes: nat)
    requires (argvar ==> sizes != []) && LayoutOk(vals, sizes, argpages, descs) && CheckOut(header, 0, sizes, argvar, nbytes).Args?
    ensures var v := CheckOut(header, 0, sizes, argvar, nbytes);
      LayoutOk(vals, v.sizes, argpages, descs) && Start(RequestPieces(v.sizes, argpages, descs, zeroing), |vals|) <= nbytes - header
  {
    OutAccepted(header, 0, sizes, argvar, nbytes);
    RequestTotal(vals, CheckOut(header, 0, sizes, argvar, nbytes).sizes, argpages, descs, zeroing);
  }

  /** The cursor, the userspace buffer and the kernel's buffers. */
  datatype State = State(d: Mark, user: seq<byte>, vals: seq<seq<byte>>)

  /** A copy of pieces `ps` that began in state `st`. */
  datatype Plan = Plan(write: bool, st: State, ps: seq<Piece>) {
    predicate Ok() { Fits(st.vals, ps) }

    function Total(): nat { Start(ps, |ps|) }
  }

  /** Everything was copied out: the buffer holds the concatenation of the pieces. */
  ghost predicate SentFlat(st: State, ps: seq<Piece>, st': State)
    requires Fits(st.vals, ps)
  {
    && st'.vals == st.vals && st.d.offset + Start(ps, |ps|) <= |st.user|
    && st'.user == Patch(st.user, st.d.offset, Flat(st.vals, ps, |ps|))
  }

  /** Everything was copied in: each piece holds its share of the buffer. */
  ghost predicate ReceivedFlat(st: State, ps: seq<Piece>, st': State)
    requires Fits(st.vals, ps)
  {
    && st'.user == st.user && |st'.vals| == |st.vals|
    && forall i :: 0 <= i < |ps| ==> Received(st.user, st.d.offset, st.vals[i], st'.vals[i], ps, i)
  }

  ghost predicate DoneMark(plan: Plan, d: Mark, i: nat)
    requires i <= |plan.ps|
  {
    && Start(plan.ps, i) <= plan.st.d.reach && Start(plan.ps, i) <= plan.Total() <= plan.st.d.left
    && plan.st.d.offset + plan.st.d.left <= |plan.st.user|
    && d == plan.st.d.Ahead(Start(plan.ps, i))
  }

  /** An error came before the last byte. */
  ghost predicate Failed(plan: Plan, err: int) { err == plan.st.d.error && err != 0 && plan.st.d.reach < plan.Total() }

  ghost predicate DoneOut(before: seq<byte>, from: nat, vals: seq<seq<byte>>, ps: seq<Piece>, user: seq<byte>, i: nat)
    requires Fits(vals, ps) && i <= |ps|
  {
    from + Start(ps, i) <= |before| && user == Patch(before, from, Flat(vals, ps, i))
  }

  ghost predicate InAt(from: nat, vals: seq<seq<byte>>, ps: seq<Piece>, user: seq<byte>, cur: seq<seq<byte>>, i: nat, j: nat)
    requires Fits(vals, ps) && |cur| == |vals|
  {
    j < |ps| ==> if j < i then Received(user, from, vals[j], cur[j], ps, j) else cur[j] == vals[j]
  }

  ghost predicate DoneIn(from: nat, vals: seq<seq<byte>>, ps: seq<Piece>, user: seq<byte>, cur: seq<seq<byte>>, i: nat)
    requires Fits(vals, ps) && i <= |ps|
  {
    |cur| == |vals| && forall j :: InAt(from, vals, ps, user, cur, i, j)
  }

  /** The first i pieces are copied. */
  ghost predicate Done(plan: Plan, st: State, i: nat)
    requires plan.Ok() && i <= |plan.ps|
  {
    && DoneMark(plan, st.d, i)
    && if plan.write then st.vals == plan.st.vals && DoneOut(plan.st.user, plan.st.d.offset, plan.st.vals, plan.ps, st.user, i)
       else st.user == plan.st.user && DoneIn(plan.st.d.offset, plan.st.vals, plan.ps, st.user, st.vals, i)
  }

  lemma MarkStep(plan: Plan, d: Mark, i: nat)
    requires i < |plan.ps| && DoneMark(plan, d, i)
    ensures plan.ps[i].size <= d.left && d.offset + plan.ps[i].size <= |plan.st.user|
    ensures plan.ps[i].size <= d.reach ==> DoneMark(plan, d.Ahead(plan.ps[i].size), i + 1)
    ensures plan.ps[i].size > d.reach ==> plan.st.d.reach < plan.Total() && d.error == plan.st.d.error
  {
    StartGrows(plan.ps, i + 1, |plan.ps|);
  }

  lemma PieceOut(plan: Plan, st: State, i: nat, st': State)
    requires plan.Ok() && i < |plan.ps| && Done(plan, st, i) && plan.write && DoneMark(plan, st'.d, i + 1)
    requires st.d.offset + plan.ps[i].size <= |st.user| && st'.vals == st.vals
    requires st'.user == Patch(st.user, st.d.offset, st.vals[i][plan.ps[i].at..plan.ps[i].at + plan.ps[i].size])
    ensures Done(plan, st', i + 1)
  {
    OutStep(plan.st.user, plan.st.d.offset, plan.st.vals, plan.ps, st.user, i, st.d.offset, st.vals[i][plan.ps[i].at..plan.ps[i].at + plan.ps[i].size]);
  }

  lemma PieceIn(plan: Plan, st: State, i: nat, st': State)
    requires plan.Ok() && i < |plan.ps| && Done(plan, st, i) && !plan.write && DoneMark(plan, st'.d, i + 1)
    requires st.d.offset + plan.ps[i].size <= |st.user| && st'.user == st.user && |st.vals| == |plan.ps|
    requires plan.ps[i].at + plan.ps[i].size <= |st.vals[i]|
    requires st'.vals == st.vals[i := Into(st.vals[i], plan.ps[i], st.user[st.d.offset..st.d.offset + plan.ps[i].size])]
    ensures Done(plan, st', i + 1)
  {
    assert InAt(plan.st.d.offset, plan.st.vals, plan.ps, st.user, st.vals, i, i);
    IntoReceived(plan.st.d.offset, st.vals[i], plan.ps, st.user, i, st.d.offset);
    InStep(plan.st.d.offset, plan.st.vals, plan.ps, st.user, st.vals, i, st'.vals[i]);
  }

  lemma PlanDone(plan: Plan, st: State)
    requires plan.Ok() && Done(plan, st, |plan.ps|)
    ensures plan.Total() <= plan.st.d.reach
    ensures plan.write ==> SentFlat(plan.st, plan.ps, st)
    ensures !plan.write ==> ReceivedFlat(plan.st, plan.ps, st)
  {
    if !plan.write {
      forall j | 0 <= j < |plan.ps| ensures Received(plan.st.user, plan.st.d.offset, plan.st.vals[j], st.vals[j], plan.ps, j) {
        assert InAt(plan.st.d.offset, plan.st.vals, plan.ps, st.user, st.vals, |plan.ps|, j);
      }
    }
  }

  /** The buffers of a request fit its arguments: one value for each argument that is not in pages,
      then one page for each descriptor. */
  predicate LayoutOk(vals: seq<seq<byte>>, sizes: seq<nat>, argpages: bool, descs: seq<PageDesc>) {
    var m := if argpages && sizes != [] then |sizes| - 1 else |sizes|;
    && |vals| == m + (if m < |sizes| then |descs| else 0)
    && (forall i :: 0 <= i < m ==> sizes[i] <= |vals[i]|)
    && (forall i :: m <= i < |vals| ==> |vals[i]| == PAGE_SIZE)
    && (forall i :: 0 <= i < |descs| ==> descs[i].offset + descs[i].length <= PAGE_SIZE)
  }

  /** What fuse_copy_args copies: the arguments, of which the last may be in pages. */
  function RequestPieces(sizes: seq<nat>, argpages: bool, descs: seq<PageDesc>, zeroing: bool): (ps: seq<Piece>)
    ensures var m := if argpages && sizes != [] then |sizes| - 1 else |sizes|;
      && |ps| == m + (if m < |sizes| then |descs| else 0)
      && (forall i :: 0 <= i < m ==> ps[i] == Piece(0, sizes[i], false))
      && (m < |sizes| ==> forall k :: m <= k < |ps| ==> ps[k] == PiecePage(descs, sizes[m], zeroing, k - m))
  {
    var m := if argpages && sizes != [] then |sizes| - 1 else |sizes|;
    ArgPieces(sizes, m) + if m < |sizes| then PagePieces(descs, sizes[m], zeroing) else []
  }

  function ArgPieces(sizes: seq<nat>, m: nat): (ps: seq<Piece>)
    requires m <= |sizes|
    ensures |ps| == m && forall i :: 0 <= i < m ==> ps[i] == Piece(0, sizes[i], false)
  {
    if m == 0 then [] else ArgPieces(sizes, m - 1) + [Piece(0, sizes[m - 1], false)]
  }

  lemma PlanStarts(plan: Plan)
    requires plan.Ok() && plan.st.d.offset + plan.st.d.left <= |plan.st.user| && plan.Total() <= plan.st.d.left
    ensures Done(plan, plan.st, 0)
  {
    assert Flat(plan.st.vals, plan.ps, 0) == [];
    assert Patch(plan.st.user, plan.st.d.offset, []) == plan.st.user;
  }

  /** Pieces without bytes change nothing. */
  lemma {:induction false} SkipRest(plan: Plan, st: State, i: nat)
    requires plan.Ok() && i <= |plan.ps| && Done(plan, st, i)
    requires forall j :: i <= j < |plan.ps| ==> plan.ps[j].size == 0 && !plan.ps[j].clear
    ensures Done(plan, st, |plan.ps|)
    decreases |plan.ps| - i
  {
    if i < |plan.ps| {
      SkipOne(plan, st, i);
      SkipRest(plan, st, i + 1);
    }
  }

  /** Piece i is what fuse_copy_args copies of argument i. */
  ghost predicate ArgAt(plan: Plan, sizes: seq<nat>, m: nat, i: nat)
    requires plan.Ok()
  {
    i < m && i < |sizes| && i < |plan.ps| ==> plan.ps[i] == Piece(0, sizes[i], false) && sizes[i] <= |plan.st.vals[i]|
  }

  lemma {:induction false} RequestPlan(plan: Plan, sizes: seq<nat>, argpages: bool, descs: seq<PageDesc>, zeroing: bool, m: nat)
    requires LayoutOk(plan.st.vals, sizes, argpages, descs) && plan.ps == RequestPieces(sizes, argpages, descs, zeroing)
    requires m == (if argpages && sizes != [] then |sizes| - 1 else |sizes|)
    ensures plan.Ok()
    ensures forall i :: ArgAt(plan, sizes, m, i)
    ensures m < |sizes| ==> forall k :: PageAt(plan.ps, m, descs, sizes[m], zeroing, k)
  {
    if m < |sizes| {
      forall k ensures PageAt(plan.ps, m, descs, sizes[m], zeroing, k) {}
    }
  }

  /** Buffer k is a page and piece k what fuse_copy_pages copies of it. */
  ghost predicate PageAt(ps: seq<Piece>, m: nat, descs: seq<PageDesc>, nbytes: nat, zeroing: bool, k: nat) {
    m <= k < m + |descs| && k < |ps| ==>
      && descs[k - m].offset + descs[k - m].length <= PAGE_SIZE
      && ps[k] == PiecePage(descs, nbytes, zeroing, k - m)
  }

  lemma {:induction false} SkipPages(plan: Plan, st: State, descs: seq<PageDesc>, nbytes: nat, zeroing: bool, m: nat, k: nat)
    requires plan.Ok() && m <= k <= |plan.ps| == m + |descs| && Done(plan, st, k) && !zeroing
    requires forall j :: PageAt(plan.ps, m, descs, nbytes, zeroing, j)
    requires PageBytes(descs, nbytes, k - m) == 0
    ensures Done(plan, st, |plan.ps|)
  {
    forall j | k <= j < |plan.ps| ensures plan.ps[j].size == 0 && !plan.ps[j].clear {
      assert PageAt(plan.ps, m, descs, nbytes, zeroing, j);
      PagesDone(descs, nbytes, k - m, j - m);
    }
    SkipRest(plan, st, k);
  }

  lemma SkipOne(plan: Plan, st: State, i: nat)
    requires plan.Ok() && i < |plan.ps| && Done(plan, st, i) && plan.ps[i].size == 0 && !plan.ps[i].clear
    ensures Done(plan, st, i + 1)
  {
    MarkStep(plan, st.d, i);
    if plan.write {
      OutStep(plan.st.user, plan.st.d.offset, plan.st.vals, plan.ps, st.user, i, st.d.offset, []);
      assert Patch(st.user, st.d.offset, []) == st.user;
    } else {
      assert InAt(plan.st.d.offset, plan.st.vals, plan.ps, st.user, st.vals, i, i);
      IntoReceived(plan.st.d.offset, st.vals[i], plan.ps, st.user, i, st.d.offset);
      assert Into(st.vals[i], plan.ps[i], []) == st.vals[i];
      InStep(plan.st.d.offset, plan.st.vals, plan.ps, st.user, st.vals, i, st.vals[i]);
      assert st.vals[i := st.vals[i]] == st.vals;
    }
  }

  lemma {:induction false} FlatStep(vals: seq<seq<byte>>, ps: seq<Piece>, i: nat)
    requires Fits(vals, ps) && i < |ps|
    ensures Flat(vals, ps, i + 1) == Flat(vals, ps, i) + vals[i][ps[i].at..ps[i].at + ps[i].size]
    ensures Start(ps, i + 1) == Start(ps, i) + ps[i].size
  {
  }

  lemma {:induction false} OutStep(before: seq<byte>, from: nat, vals: seq<seq<byte>>, ps: seq<Piece>, u: seq<byte>, i: nat, a: nat, data: seq<byte>)
    requires Fits(vals, ps) && i < |ps| && DoneOut(before, from, vals, ps, u, i)
    requires a == from + Start(ps, i) && a + ps[i].size <= |u|
    requires data == vals[i][ps[i].at..ps[i].at + ps[i].size]
    ensures DoneOut(before, from, vals, ps, Patch(u, a, data), i + 1)
  {
    FlatStep(vals, ps, i);
    PatchMore(before, from, Flat(vals, ps, i), data);
  }

  lemma {:induction false} InStepAt(from: nat, vals: seq<seq<byte>>, ps: seq<Piece>, u: seq<byte>, cur: seq<seq<byte>>, i: nat, v: seq<byte>, k: nat, j: nat)
    requires Fits(vals, ps) && i < |ps| && k == i + 1 && |cur| == |vals| && InAt(from, vals, ps, u, cur, i, j)
    requires Received(u, from, vals[i], v, ps, i)
    ensures InAt(from, vals, ps, u, cur[i := v], k, j)
  {
  }

  lemma {:induction false} IntoReceived(from: nat, val: seq<byte>, ps: seq<Piece>, u: seq<byte>, i: nat, a: nat)
    requires i < |ps| && a == from + Start(ps, i) && a + ps[i].size <= |u| && ps[i].at + ps[i].size <= |val|
    ensures Received(u, from, val, Into(val, ps[i], u[a..a + ps[i].size]), ps, i)
  {
  }

  lemma {:induction false} InStep(from: nat, vals: seq<seq<byte>>, ps: seq<Piece>, u: seq<byte>, cur: seq<seq<byte>>, i: nat, v: seq<byte>)
    requires Fits(vals, ps) && i < |ps| && DoneIn(from, vals, ps, u, cur, i)
    requires Received(u, from, vals[i], v, ps, i)
    ensures DoneIn(from, vals, ps, u, cur[i := v], i + 1)
  {
    var cur', k := cur[i := v], i + 1;
    forall j ensures InAt(from, vals, ps, u, cur', k, j) {
      assert InAt(from, vals, ps, u, cur, i, j);
      InStepAt(from, vals, ps, u, cur, i, v, k, j);
    }
  }

  ghost predicate Separate(user: array<byte>, bufs: seq<array<byte>>) {
    user !in bufs && forall i, j :: 0 <= i < j < |bufs| ==> bufs[i] != bufs[j]
  }

  /** Where the copy of `size` bytes that began at cursor c stands after n of them. */
  ghost predicate Progress(d: Cursor, n: nat, err: int, c: Cursor, size: nat, bytes: nat) {
    && CursorOk(d, bytes) && n <= size && d.offset == c.offset + n <= bytes
    && (err == 0 ==> Copied(d, size - n) == Copied(c, size) && size - n <= Left(d) && Reach(c) == Reach(d) + n)
    && (err != 0 ==> (d, err) == Copied(c, size) && n == Min(size, Reach(c)))
  }

  lemma FillProgress(d: Cursor, n: nat, c: Cursor, size: nat, bytes: nat)
    requires Progress(d, n, 0, c, size, bytes) && d.len == 0 && n < size
    ensures d.fills != []
    ensures Progress(Filled(d), n, if d.fills[0].Fault? then d.fills[0].err else 0, c, size, bytes)
  {
    FilledOk(d, bytes);
    assert d.fills[0] in d.fills;
  }

  lemma DoProgress(d: Cursor, n: nat, c: Cursor, size: nat, bytes: nat)
    requires Progress(d, n, 0, c, size, bytes) && d.len > 0 && n < size
    ensures Progress(Advanced(d, Min(size - n, d.len)), n + Min(size - n, d.len), 0, c, size, bytes)
  {
  }
}
