/**
 The extraction loop of fuse_dev_splice_write (old/fuse/dev.c): a given number of bytes is taken from
 the ring of buffers of a pipe, the last buffer perhaps in part.
 */
module SpliceRing {

  // ---------------------------------------------------------------- masking with a power of two

  /** The bitwise and of two numbers. */
  function And(a: nat, b: nat): nat
    decreases a
  {
    if a == 0 || b == 0 then 0 else 2 * And(a / 2, b / 2) + (a % 2) * (b % 2)
  }

  function Pow2(k: nat): (p: nat)
    ensures p > 0
  {
    if k == 0 then 1 else 2 * Pow2(k - 1)
  }

  /** The slot that lies x after slot 0 of a ring. */
  function Wrap(cap: nat, x: nat): (i: nat)
    requires x < 2 * cap
    ensures i < cap
  {
    if x < cap then x else x - cap
  }

  /** Masking with 2^k - 1 wraps around a ring of 2^k slots. */
  lemma {:induction false} MaskWraps(x: nat, k: nat)
    requires x < 2 * Pow2(k)
    ensures And(x, Pow2(k) - 1) == Wrap(Pow2(k), x)
    decreases k
  {
    if k > 0 && x > 0 {
      var p := Pow2(k - 1);
      MaskWraps(x / 2, k - 1);
      MaskStep(x, p);
    }
  }

  lemma MaskStep(x: nat, p: nat)
    requires p > 0 && 0 < x < 4 * p
    ensures And(x, 2 * p - 1) == 2 * And(x / 2, p - 1) + x % 2
  {
    assert (2 * p - 1) / 2 == p - 1 && (2 * p - 1) % 2 == 1;
  }

  // ---------------------------------------------------------------- buffers and rings

  /** A pipe buffer: a span of a page. `gift` is PIPE_BUF_FLAG_GIFT, `ops` says that it is in use. */
  datatype Buf = Buf(page: nat, offset: nat, len: nat, gift: bool, ops: bool)

  /** A byte, by its page and its position in the page. */
  datatype Byte = Byte(page: nat, pos: nat)

  function Span(b: Buf): (s: seq<Byte>)
    ensures |s| == b.len && forall i :: 0 <= i < b.len ==> s[i] == Byte(b.page, b.offset + i)
  {
    seq(b.len, i requires 0 <= i => Byte(b.page, b.offset + i))
  }

  /** The bytes of a sequence of buffers. */
  function Bytes(bs: seq<Buf>): seq<Byte> {
    if bs == [] then [] else Span(bs[0]) + Bytes(bs[1..])
  }

  function Size(bs: seq<Buf>): (n: nat)
    ensures n == |Bytes(bs)|
  {
    if bs == [] then 0 else bs[0].len + Size(bs[1..])
  }

  predicate RingOk(cap: nat, k: nat, cur: nat, n: nat) { cap == Pow2(k) && cur < cap && n <= cap }

  /** The buffers in use, from the current one on. */
  function Ring(ring: seq<Buf>, cur: nat, n: nat): (bs: seq<Buf>)
    requires cur < |ring| && n <= |ring|
    ensures |bs| == n
    ensures forall i :: 0 <= i < n ==> bs[i] == ring[Wrap(|ring|, cur + i)]
  {
    if n == 0 then [] else Ring(ring, cur, n - 1) + [ring[Wrap(|ring|, cur + n - 1)]]
  }

  /** The first len bytes of a sequence of buffers, and what is left of it. A buffer that is taken in
      part is shared, and loses its gift flag on the way out. */
  function Take(bs: seq<Buf>, len: nat): (r: (seq<Buf>, seq<Buf>))
    requires len <= Size(bs)
    decreases |bs|
  {
    if len == 0 then ([], bs)
    else if len >= bs[0].len then
      var (taken, rest) := Take(bs[1..], len - bs[0].len);
      ([bs[0]] + taken, rest)
    else ([bs[0].(gift := false, len := len)], [Left(bs[0], len)] + bs[1..])
  }

  /** The buffers that are taken hold exactly the first len bytes, in order, and together with those
      that are left they hold what was there. No more buffers come out than went in, and the ring runs
      empty only if nothing is left to take: so the source's two BUG_ONs cannot fire. */
  lemma {:induction false} TakeSplits(bs: seq<Buf>, len: nat)
    requires len <= Size(bs)
    ensures Bytes(Take(bs, len).0) == Bytes(bs)[..len]
    ensures Bytes(Take(bs, len).0) + Bytes(Take(bs, len).1) == Bytes(bs)
    ensures |Take(bs, len).0| <= |bs|
    decreases |bs|
  {
    if len == 0 {
    } else if len >= bs[0].len {
      TakeSplits(bs[1..], len - bs[0].len);
      TakeCons(bs[0], Bytes(bs[1..]), len, Take(bs[1..], len - bs[0].len).0, Take(bs[1..], len - bs[0].len).1);
    } else {
      SplitOne(bs, len);
    }
  }

  /** A buffer comes out as it was, gift flag and all, except the last one if it is taken in part: that one is shared with
      the pipe, and so is no gift. */
  lemma {:induction false} TakeWhole(bs: seq<Buf>, len: nat)
    requires len <= Size(bs)
    ensures
      var (taken, rest) := Take(bs, len);
      var n := |taken|;
      && n <= |bs| && (forall i :: 0 <= i < n - 1 ==> taken[i] == bs[i])
      && (n == 0 ==> rest == bs)
      && (n > 0 && taken[n - 1] == bs[n - 1] ==> rest == bs[n..])
      && (n > 0 && taken[n - 1] != bs[n - 1] ==>
            && 0 < taken[n - 1].len < bs[n - 1].len && taken[n - 1] == bs[n - 1].(gift := false, len := taken[n - 1].len)
            && rest == [bs[n - 1].(offset := bs[n - 1].offset + taken[n - 1].len, len := bs[n - 1].len - taken[n - 1].len)] + bs[n..])
    decreases |bs|
  {
    if len > 0 && len >= bs[0].len {
      var more, left := Take(bs[1..], len - bs[0].len).0, Take(bs[1..], len - bs[0].len).1;
      TakeWhole(bs[1..], len - bs[0].len);
      assert Take(bs, len).0 == [bs[0]] + more;
      if |more| > 0 {
        assert bs[1..][|more| - 1] == bs[|more|] && bs[1..][|more|..] == bs[|more| + 1..];
        forall i | 0 <= i < |more| ensures Take(bs, len).0[i] == bs[i] {
          if i > 0 { assert more[i - 1] == bs[1..][i - 1]; }
        }
      }
    }
  }

  lemma {:induction false} TakeCons(b: Buf, tail: seq<Byte>, len: nat, taken: seq<Buf>, rest: seq<Buf>)
    requires b.len <= len <= b.len + |tail| && Bytes(taken) == tail[..len - b.len] && Bytes(taken) + Bytes(rest) == tail
    ensures Bytes([b] + taken) == (Span(b) + tail)[..len]
    ensures Bytes([b] + taken) + Bytes(rest) == Span(b) + tail
  {
    assert ([b] + taken)[1..] == taken;
    assert (Span(b) + tail)[..len] == Span(b) + tail[..len - b.len];
  }

  lemma {:induction false} SplitOne(bs: seq<Buf>, len: nat)
    requires bs != [] && 0 < len < bs[0].len
    ensures Bytes([bs[0].(gift := false, len := len)]) == Bytes(bs)[..len]
    ensures Bytes([bs[0].(gift := false, len := len)])
      + Bytes([bs[0].(offset := bs[0].offset + len, len := bs[0].len - len)] + bs[1..]) == Bytes(bs)
  {
    var a, b := bs[0].(gift := false, len := len), bs[0].(offset := bs[0].offset + len, len := bs[0].len - len);
    assert [a][1..] == [] && Bytes([a]) == Span(a);
    assert ([b] + bs[1..])[1..] == bs[1..];
    assert Span(a) + Span(b) == Span(bs[0]);
    assert Bytes(bs)[..len] == Span(bs[0])[..len];
  }

  // ---------------------------------------------------------------- the loop on the ring

  /** Without its first buffer, a ring goes on at the next slot, and the freed slot is not part of it. */
  lemma {:induction false} RingTail(ring: seq<Buf>, cur: nat, n: nat, freed: Buf)
    requires cur < |ring| && 0 < n <= |ring|
    ensures Ring(ring, cur, n)[0] == ring[cur]
    ensures Ring(ring[cur := freed], Wrap(|ring|, cur + 1), n - 1) == Ring(ring, cur, n)[1..]
  {
    var next := Wrap(|ring|, cur + 1);
    forall i | 0 <= i < n - 1 ensures Ring(ring[cur := freed], next, n - 1)[i] == Ring(ring, cur, n)[1..][i] {
      var j := i + 1;
      assert Wrap(|ring|, next + i) == Wrap(|ring|, cur + j) != cur;
    }
  }

  /** A ring whose first buffer is changed in place. */
  lemma {:induction false} RingHead(ring: seq<Buf>, cur: nat, n: nat, b: Buf)
    requires cur < |ring| && 0 < n <= |ring|
    ensures Ring(ring, cur, n)[0] == ring[cur]
    ensures Ring(ring[cur := b], cur, n) == [b] + Ring(ring, cur, n)[1..]
  {
    forall i | 0 <= i < n ensures Ring(ring[cur := b], cur, n)[i] == ([b] + Ring(ring, cur, n)[1..])[i] {
      assert i > 0 ==> Wrap(|ring|, cur + i) != cur;
    }
  }

  /** What is left of a buffer whose first n bytes are taken. */
  function Left(b: Buf, n: nat): Buf
    requires n <= b.len
  {
    b.(offset := b.offset + n, len := b.len - n)
  }

  lemma {:induction false} TakeHead(bs: seq<Buf>, len: nat)
    requires bs != [] && 0 < len <= Size(bs)
    ensures len >= bs[0].len ==>
      len - bs[0].len <= Size(bs[1..]) &&
      Take(bs, len) == ([bs[0]] + Take(bs[1..], len - bs[0].len).0, Take(bs[1..], len - bs[0].len).1)
    ensures len < bs[0].len ==>
      Take(bs, len) == ([bs[0].(gift := false, len := len)] + Take([Left(bs[0], len)] + bs[1..], 0).0, Take([Left(bs[0], len)] + bs[1..], 0).1)
  {
    var x := bs[0].(gift := false, len := len);
    assert [x] + [] == [x];
  }

  /** After some turns `taken` is out and rem bytes are still to come from `left`. */
  ghost predicate Extracted(bs: seq<Buf>, len: nat, taken: seq<Buf>, left: seq<Buf>, rem: nat) {
    len <= Size(bs) && rem <= Size(left) && Take(bs, len) == (taken + Take(left, rem).0, Take(left, rem).1)
  }

  lemma {:induction false} ExtractedOne(bs: seq<Buf>, len: nat, taken: seq<Buf>, left: seq<Buf>, rem: nat, obuf: Buf, left': seq<Buf>)
    requires Extracted(bs, len, taken, left, rem) && obuf.len <= rem && rem - obuf.len <= Size(left')
    requires Take(left, rem) == ([obuf] + Take(left', rem - obuf.len).0, Take(left', rem - obuf.len).1)
    ensures Extracted(bs, len, taken + [obuf], left', rem - obuf.len)
  {
    var tail := Take(left', rem - obuf.len).0;
    assert taken + ([obuf] + tail) == (taken + [obuf]) + tail;
  }

  lemma {:induction false} TakeSome(bs: seq<Buf>, len: nat)
    requires 0 < len <= Size(bs)
    ensures |Take(bs, len).0| >= 1
  {
  }

  /** With as many places in bufs as the ring has, which is so if nobody resizes the pipe in between, every
      extraction fits. */
  lemma {:induction false} UnresizedFits(ring: seq<Buf>, cur: nat, n: nat, len: nat)
    requires cur < |ring| && n <= |ring| && len <= Size(Ring(ring, cur, n))
    ensures |Take(Ring(ring, cur, n), len).0| <= |ring|
  {
    TakeSplits(Ring(ring, cur, n), len);
  }

  /** A pipe of one buffer that grows to two, and holds a byte in each, before the lock is taken: there is
      room for one, and two come out. */
  lemma GrownDoesNotFit(b: Buf)
    requires b.len == 1
    ensures Size([b, b]) == 2 && |Take([b, b], 2).0| == 2
  {
    assert [b, b][1..] == [b] && [b][1..] == [];
    assert Size([b]) == 1 && Take([b], 1) == ([b] + [], []);
  }

  lemma SizeFrom(bs: seq<Buf>, i: nat)
    requires i < |bs|
    ensures Size(bs[i..]) == bs[i].len + Size(bs[i + 1..])
  {
    assert bs[i..][1..] == bs[i + 1..];
  }

  class Pipe {
    const ring: array<Buf>
    const k: nat                // pipe->buffers is 2^k
    var curbuf: nat
    var nrbufs: nat

    ghost predicate Valid()
      reads this
    {
      RingOk(ring.Length, k, curbuf, nrbufs)
    }

    ghost function InUse(): (bs: seq<Buf>)
      requires Valid()
      reads this, ring
      ensures |bs| == nrbufs
    {
      Ring(ring[..], curbuf, nrbufs)
    }

    /** The first loop: whether the ring holds at least len bytes. */
    method HasBytes(len: nat) returns (enough: bool)
      requires Valid()
      ensures enough == (Size(InUse()) >= len)
    {
      var idx, rem := 0, 0;
      ghost var bs := InUse();
      while idx < nrbufs && rem < len
        invariant idx <= nrbufs && rem + Size(bs[idx..]) == Size(bs)
      {
        MaskWraps(curbuf + idx, k);
        SizeFrom(bs, idx);
        rem := rem + ring[And(curbuf + idx, ring.Length - 1)].len;
        idx := idx + 1;
      }
      enough := rem >= len;
    }

    /** The first buffer leaves the ring. */
    method TakeWhole() returns (obuf: Buf)
      requires Valid() && nrbufs > 0
      modifies this`curbuf, this`nrbufs, ring
      ensures Valid() && obuf == old(InUse())[0] && InUse() == old(InUse())[1..]
    {
      ghost var before := ring[..];
      MaskWraps(curbuf + 1, k);
      obuf := ring[curbuf];
      RingTail(before, curbuf, nrbufs, obuf.(ops := false));
      ring[curbuf] := obuf.(ops := false);
      assert ring[..] == before[curbuf := obuf.(ops := false)];
      curbuf := And(curbuf + 1, ring.Length - 1);
      nrbufs := nrbufs - 1;
    }

    /** The first rem bytes of the first buffer leave the ring. */
    method TakePart(rem: nat) returns (obuf: Buf)
      requires Valid() && nrbufs > 0 && rem < ring[curbuf].len
      modifies ring
      ensures Valid() && obuf == old(InUse())[0].(gift := false, len := rem)
      ensures rem < old(InUse())[0].len && InUse() == [Left(old(InUse())[0], rem)] + old(InUse())[1..]
    {
      ghost var before := ring[..];
      var left := Left(ring[curbuf], rem);
      RingHead(before, curbuf, nrbufs, left);
      obuf := ring[curbuf].(gift := false, len := rem);
      ring[curbuf] := left;
      assert ring[..] == before[curbuf := left];
    }

    /** One turn of the second loop: the first buffer leaves the ring, whole or in part. */
    method TakeOne(rem: nat) returns (obuf: Buf)
      requires Valid() && nrbufs > 0 && 0 < rem <= Size(InUse())
      modifies this`curbuf, this`nrbufs, ring
      ensures Valid() && obuf.len <= rem && rem - obuf.len <= Size(InUse())
      ensures Take(old(InUse()), rem) == ([obuf] + Take(InUse(), rem - obuf.len).0, Take(InUse(), rem - obuf.len).1)
      ensures nrbufs < old(nrbufs) || (nrbufs == old(nrbufs) && obuf.len == rem)
    {
      ghost var bs := InUse();
      assert bs[0] == ring[curbuf];
      TakeHead(bs, rem);
      if rem >= ring[curbuf].len { obuf := TakeWhole(); } else { obuf := TakePart(rem); }
    }

    /** fuse_dev_splice_write under the pipe lock: exactly the first len bytes are extracted, or nothing
        if there are fewer. bufs was sized before the lock was taken: `fits` is false where the code would
        go on past its end. */
    method Extract(bufs: array<Buf>, len: nat) returns (ok: bool, fits: bool, nbuf: nat)
      requires Valid() && bufs != ring
      modifies this`curbuf, this`nrbufs, ring, bufs
      ensures Valid() && ok == (old(Size(InUse())) >= len)
      ensures !ok ==> InUse() == old(InUse())
      ensures ok ==> (fits <==> |Take(old(InUse()), len).0| <= bufs.Length)
      ensures ok && fits ==> nbuf <= bufs.Length && (bufs[..nbuf], InUse()) == Take(old(InUse()), len)
    {
      nbuf, fits := 0, true;
      ok := HasBytes(len);
      if !ok { return; }
      var rem: nat := len;
      ghost var bs := InUse();
      assert bufs[..0] + Take(bs, len).0 == Take(bs, len).0;
      while rem > 0
        invariant Valid() && nbuf <= bufs.Length && (rem > 0 ==> nbuf + nrbufs <= ring.Length)
        invariant Extracted(bs, len, bufs[..nbuf], InUse(), rem)
        decreases rem, nrbufs
      {
        if nbuf == bufs.Length {
          TakeSome(InUse(), rem);
          fits := false;
          return;
        }
        rem := Turn(bufs, nbuf, rem, bs, len);
        nbuf := nbuf + 1;
      }
      assert bufs[..nbuf] + [] == bufs[..nbuf];
    }

    /** One turn of the second loop. The ring is not empty, and no more buffers are out than it has places:
        its BUG_ONs do not fire. */
    method Turn(bufs: array<Buf>, nbuf: nat, rem: nat, ghost bs: seq<Buf>, ghost len: nat) returns (rem': nat)
      requires Valid() && bufs != ring && rem > 0 && nbuf < bufs.Length && nbuf + nrbufs <= ring.Length
      requires Extracted(bs, len, bufs[..nbuf], InUse(), rem)
      modifies this`curbuf, this`nrbufs, ring, bufs
      ensures old(nrbufs) > 0 && nbuf < ring.Length
      ensures Valid() && Extracted(bs, len, bufs[..nbuf + 1], InUse(), rem')
      ensures rem' <= rem && (rem' == 0 || nrbufs < old(nrbufs)) && (rem' < rem || nrbufs < old(nrbufs))
    {
      ghost var left, taken := InUse(), bufs[..nbuf];
      var obuf := TakeOne(rem);
      ExtractedOne(bs, len, taken, left, rem, obuf, InUse());
      bufs[nbuf] := obuf;
      assert bufs[..nbuf + 1] == taken + [obuf];
      rem' := rem - obuf.len;
    }
  }
}
