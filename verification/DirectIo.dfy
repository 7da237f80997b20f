/**
 Direct I/O (old/fuse/file.c): how fuse_get_user_pages describes the pages of a user buffer, and how
 fuse_direct_io cuts a transfer into requests.
 */
module DirectIo {
  import opened Errno
  import opened Pages

  // ---------------------------------------------------------------- page descriptors

  /** What one call of iov_iter_get_pages finds: so many bytes from an offset into their first page, or
      an error. */
  datatype Chunk = Pages(bytes: nat, start: nat) | Fails(err: int)

  /** Pages that a span of n bytes from the start of a page touches. */
  function PageCount(n: nat): nat { (n + PAGE_SIZE - 1) / PAGE_SIZE }

  /** What iov_iter_get_pages promises while `want` bytes are asked for and `room` pages are free. */
  predicate ChunksOk(chunks: seq<Chunk>, want: nat, room: nat)
    decreases |chunks|
  {
    want > 0 && room > 0 ==>
      chunks != [] &&
      match chunks[0]
      case Fails(err) => err < 0
      case Pages(bytes, start) =>
        && 0 < bytes <= want && start < PAGE_SIZE && PageCount(start + bytes) <= room
        && ChunksOk(chunks[1..], want - bytes, room - PageCount(start + bytes))
  }

  /** Page j of a chunk: where the chunk lies in it. */
  function ChunkDesc(bytes: nat, start: nat, j: nat): PageDesc
    requires start < PAGE_SIZE && j * PAGE_SIZE < start + bytes
  {
    var offset := if j == 0 then start else 0;
    PageDesc(offset, Min(PAGE_SIZE, start + bytes - j * PAGE_SIZE) - offset)
  }

  /** The first k pages of a chunk. */
  function ChunkDescs(bytes: nat, start: nat, k: nat): (ds: seq<PageDesc>)
    requires bytes > 0 && start < PAGE_SIZE && k <= PageCount(start + bytes)
    ensures |ds| == k && forall j :: 0 <= j < k ==> ds[j] == ChunkDesc(bytes, start, j)
  {
    if k == 0 then [] else ChunkDescs(bytes, start, k - 1) + [ChunkDesc(bytes, start, k - 1)]
  }

  /** The descriptors of all chunks, and the bytes in them. */
  function Packed(chunks: seq<Chunk>, want: nat, room: nat): (r: (seq<PageDesc>, nat))
    requires ChunksOk(chunks, want, room)
    decreases |chunks|
  {
    if want == 0 || room == 0 || chunks[0].Fails? then ([], 0)
    else
      var n := PageCount(chunks[0].start + chunks[0].bytes);
      var (ds, bytes) := Packed(chunks[1..], want - chunks[0].bytes, room - n);
      (ChunkDescs(chunks[0].bytes, chunks[0].start, n) + ds, chunks[0].bytes + bytes)
  }

  function Lengths(ds: seq<PageDesc>): nat {
    if ds == [] then 0 else Lengths(ds[..|ds| - 1]) + ds[|ds| - 1].length
  }

  lemma {:induction false} LengthsSplit(a: seq<PageDesc>, b: seq<PageDesc>)
    ensures Lengths(a + b) == Lengths(a) + Lengths(b)
  {
    if b == [] {
      assert a + b == a;
    } else {
      assert (a + b)[..|a + b| - 1] == a + b[..|b| - 1];
      LengthsSplit(a, b[..|b| - 1]);
    }
  }

  /** The first k pages of a chunk hold its bytes up to the end of page k. */
  lemma {:induction false} ChunkLengths(bytes: nat, start: nat, k: nat)
    requires bytes > 0 && start < PAGE_SIZE && 0 < k <= PageCount(start + bytes)
    ensures Lengths(ChunkDescs(bytes, start, k)) == Min(k * PAGE_SIZE, start + bytes) - start
    ensures forall d :: d in ChunkDescs(bytes, start, k) ==> d.offset + d.length <= PAGE_SIZE
  {
    var ds := ChunkDescs(bytes, start, k);
    assert ds[..k - 1] == ChunkDescs(bytes, start, k - 1);
    if k > 1 {
      ChunkLengths(bytes, start, k - 1);
    } else {
      assert Lengths(ds[..0]) == 0;
    }
  }

  /** The descriptors describe exactly the bytes packed, none reaches past its page, and there are no
      more of them than the request has room for. */
  lemma {:induction false} PackedExactly(chunks: seq<Chunk>, want: nat, room: nat)
    requires ChunksOk(chunks, want, room)
    ensures var (ds, bytes) := Packed(chunks, want, room);
      && Lengths(ds) == bytes <= want && |ds| <= room
      && forall d :: d in ds ==> d.offset + d.length <= PAGE_SIZE
    decreases |chunks|
  {
    if want > 0 && room > 0 && chunks[0].Pages? {
      var n := PageCount(chunks[0].start + chunks[0].bytes);
      PackedExactly(chunks[1..], want - chunks[0].bytes, room - n);
      ChunkLengths(chunks[0].bytes, chunks[0].start, n);
      LengthsSplit(ChunkDescs(chunks[0].bytes, chunks[0].start, n), Packed(chunks[1..], want - chunks[0].bytes, room - n).0);
    }
  }

  /** Each byte of a chunk lies in the part of its page that the page's descriptor names: byte k of it is start + k bytes
      behind the start of the first page. */
  lemma {:induction false} ByteDescribed(bytes: nat, start: nat, k: nat)
    requires k < bytes && start < PAGE_SIZE
    ensures
      var ds, j, at := ChunkDescs(bytes, start, PageCount(start + bytes)), (start + k) / PAGE_SIZE, (start + k) % PAGE_SIZE;
      j < |ds| && ds[j].offset <= at < ds[j].offset + ds[j].length
  {
    assert ChunkDescs(bytes, start, PageCount(start + bytes))[(start + k) / PAGE_SIZE] == ChunkDesc(bytes, start, (start + k) / PAGE_SIZE);
  }

  /** The bytes and the pages of the first k chunks. */
  function BytesIn(chunks: seq<Chunk>, k: nat): nat
    requires k <= |chunks| && forall i :: 0 <= i < k ==> chunks[i].Pages?
  {
    if k == 0 then 0 else BytesIn(chunks, k - 1) + chunks[k - 1].bytes
  }

  function PagesIn(chunks: seq<Chunk>, k: nat): nat
    requires k <= |chunks| && forall i :: 0 <= i < k ==> chunks[i].Pages?
  {
    if k == 0 then 0 else PagesIn(chunks, k - 1) + PageCount(chunks[k - 1].start + chunks[k - 1].bytes)
  }

  lemma {:induction false} ChunksShift(chunks: seq<Chunk>, k: nat)
    requires 0 < k <= |chunks| && forall i :: 0 <= i < k ==> chunks[i].Pages?
    ensures BytesIn(chunks, k) == chunks[0].bytes + BytesIn(chunks[1..], k - 1)
    ensures PagesIn(chunks, k) == PageCount(chunks[0].start + chunks[0].bytes) + PagesIn(chunks[1..], k - 1)
  {
    if k > 1 { ChunksShift(chunks, k - 1); }
  }

  /** Packing takes whole chunks, and goes on until it has the bytes it wants or no room, or a chunk fails. */
  lemma {:induction false} PackedUntil(chunks: seq<Chunk>, want: nat, room: nat) returns (k: nat)
    requires ChunksOk(chunks, want, room)
    ensures k <= |chunks| && forall i :: 0 <= i < k ==> chunks[i].Pages?
    ensures Packed(chunks, want, room).1 == BytesIn(chunks, k) && |Packed(chunks, want, room).0| == PagesIn(chunks, k)
    ensures BytesIn(chunks, k) == want || PagesIn(chunks, k) == room || (k < |chunks| && chunks[k].Fails?)
    decreases |chunks|
  {
    k := 0;
    if want > 0 && room > 0 && chunks[0].Pages? {
      var n := PageCount(chunks[0].start + chunks[0].bytes);
      k := PackedUntil(chunks[1..], want - chunks[0].bytes, room - n);
      k := k + 1;
      ChunksShift(chunks, k);
    }
  }

  /** x & (PAGE_SIZE - 1) on a two's complement x, which may be negative. */
  function PageMask(x: int): nat { x % PAGE_SIZE }

  class Request {
    const descs: array<PageDesc>
    var numPages: nat

    /** A request comes zeroed from its allocator, with room for maxPages. */
    constructor (maxPages: nat)
      ensures numPages == 0 && fresh(descs) && descs.Length == maxPages
      ensures forall i :: 0 <= i < maxPages ==> descs[i].offset == 0
    {
      descs := new PageDesc[maxPages](i => PageDesc(0, 0));
      numPages := 0;
    }

    /** fuse_page_descs_length_init. */
    method LengthInit(index: nat, n: nat)
      requires index + n <= descs.Length && forall i :: index <= i < index + n ==> descs[i].offset <= PAGE_SIZE
      modifies descs
      ensures forall i :: 0 <= i < descs.Length ==>
        descs[i] == if index <= i < index + n then PageDesc(old(descs[i].offset), PAGE_SIZE - old(descs[i].offset)) else old(descs[i])
    {
      var i := index;
      while i < index + n
        invariant index <= i <= index + n
        invariant forall j :: 0 <= j < descs.Length ==>
          descs[j] == if index <= j < i then PageDesc(old(descs[j].offset), PAGE_SIZE - old(descs[j].offset)) else old(descs[j])
      {
        descs[i] := PageDesc(descs[i].offset, PAGE_SIZE - descs[i].offset);
        i := i + 1;
      }
    }

    /** The descriptors of one chunk: full lengths first, then the end of the last page is cut off. */
    method AddChunk(bytes: nat, start: nat)
      requires bytes > 0 && start < PAGE_SIZE && numPages + PageCount(start + bytes) <= descs.Length
      requires forall i :: numPages <= i < descs.Length ==> descs[i].offset == 0
      modifies this`numPages, descs
      ensures numPages == old(numPages) + PageCount(start + bytes)
      ensures descs[..numPages] == old(descs[..numPages]) + ChunkDescs(bytes, start, PageCount(start + bytes))
      ensures forall i :: numPages <= i < descs.Length ==> descs[i].offset == 0
    {
      var ret := bytes + start;
      var npages := (ret + PAGE_SIZE - 1) / PAGE_SIZE;
      var first := numPages;
      descs[first] := PageDesc(start, descs[first].length);
      LengthInit(first, npages);
      numPages := numPages + npages;
      var last := numPages - 1;
      LastPage(ret, npages);
      descs[last] := PageDesc(descs[last].offset, descs[last].length - PageMask(PAGE_SIZE - ret));
      forall j | 0 <= j < npages ensures descs[first + j] == ChunkDesc(bytes, start, j) {}
    }

    /** One successful turn of the loop of fuse_get_user_pages. */
    method PackChunk(todo: seq<Chunk>, want: nat, nbytes: nat, ghost goal: (seq<PageDesc>, nat)) returns (nbytes': nat)
      requires numPages < descs.Length && nbytes < want
      requires Packing(goal, todo, want - nbytes, descs.Length - numPages, nbytes, descs[..numPages])
      requires todo[0].Pages? && forall i :: numPages <= i < descs.Length ==> descs[i].offset == 0
      modifies this`numPages, descs
      ensures nbytes < nbytes' <= want && numPages <= descs.Length
      ensures Packing(goal, todo[1..], want - nbytes', descs.Length - numPages, nbytes', descs[..numPages])
      ensures forall i :: numPages <= i < descs.Length ==> descs[i].offset == 0
    {
      PackOne(goal, todo, want - nbytes, descs.Length - numPages, nbytes, descs[..numPages]);
      AddChunk(todo[0].bytes, todo[0].start);
      nbytes' := nbytes + todo[0].bytes;
    }

    /** fuse_get_user_pages for a user buffer. */
    method GetUserPages(chunks: seq<Chunk>, want: nat) returns (nbytes: nat, err: int)
      requires numPages == 0 && (forall i :: 0 <= i < descs.Length ==> descs[i].offset == 0)
      requires ChunksOk(chunks, want, descs.Length)
      modifies this`numPages, descs
      ensures numPages <= descs.Length && (descs[..numPages], nbytes) == Packed(chunks, want, descs.Length)
      ensures err <= 0 && (err == 0 && want > 0 && descs.Length > 0 ==> nbytes > 0)
    {
      nbytes, err := 0, 0;
      ghost var goal := Packed(chunks, want, descs.Length);
      var todo := chunks;
      assert descs[..0] == [] && [] + goal.0 == goal.0;
      while nbytes < want && numPages < descs.Length && err == 0
        invariant numPages <= descs.Length && nbytes <= want && Packing(goal, todo, want - nbytes, descs.Length - numPages, nbytes, descs[..numPages])
        invariant forall i :: numPages <= i < descs.Length ==> descs[i].offset == 0
        invariant err <= 0 && (err == 0 && nbytes == 0 ==> numPages == 0)
        invariant err < 0 ==> nbytes < want && numPages < descs.Length && todo[0].Fails?
        decreases |todo|, err == 0
      {
        if todo[0].Fails? {
          err := todo[0].err;
        } else {
          nbytes := PackChunk(todo, want, nbytes, goal);
          todo := todo[1..];
        }
      }
      PackingEnds(goal, todo, want - nbytes, descs.Length - numPages, nbytes, descs[..numPages]);
    }
  }

  /** Where fuse_get_user_pages stands: nbytes are packed and described by `done`, and the chunks
      `todo` will bring what is missing of the goal. */
  ghost predicate Packing(goal: (seq<PageDesc>, nat), todo: seq<Chunk>, want: nat, room: nat, nbytes: nat, done: seq<PageDesc>) {
    && ChunksOk(todo, want, room)
    && goal.0 == done + Packed(todo, want, room).0 && goal.1 == nbytes + Packed(todo, want, room).1
  }

  lemma {:induction false} PackOne(goal: (seq<PageDesc>, nat), todo: seq<Chunk>, want: nat, room: nat, nbytes: nat, done: seq<PageDesc>)
    requires Packing(goal, todo, want, room, nbytes, done) && want > 0 && room > 0 && todo[0].Pages?
    ensures var (bytes, start) := (todo[0].bytes, todo[0].start);
      && 0 < bytes <= want && start < PAGE_SIZE && PageCount(start + bytes) <= room
      && Packing(goal, todo[1..], want - bytes, room - PageCount(start + bytes), nbytes + bytes,
                 done + ChunkDescs(bytes, start, PageCount(start + bytes)))
  {
    var n := PageCount(todo[0].start + todo[0].bytes);
    var ds := ChunkDescs(todo[0].bytes, todo[0].start, n);
    var rest := Packed(todo[1..], want - todo[0].bytes, room - n).0;
    assert done + (ds + rest) == (done + ds) + rest;
  }

  lemma {:induction false} PackingEnds(goal: (seq<PageDesc>, nat), todo: seq<Chunk>, want: nat, room: nat, nbytes: nat, done: seq<PageDesc>)
    requires Packing(goal, todo, want, room, nbytes, done) && (want == 0 || room == 0 || todo[0].Fails?)
    ensures goal == (done, nbytes)
  {
    assert done + [] == done;
  }

  /** What is cut off the last page of a span of ret bytes. */
  lemma LastPage(ret: nat, npages: nat)
    requires ret > 0 && npages == PageCount(ret)
    ensures npages > 0 && PageMask(PAGE_SIZE - ret) == npages * PAGE_SIZE - ret < PAGE_SIZE
  {
  }

  // ---------------------------------------------------------------- the requests of a transfer

  /** A range of the file that a request asks for. */
  datatype Range = Range(pos: nat, n: nat)

  /** What happens in one turn of fuse_direct_io: what fuse_get_user_pages packed and returned, what the
      request returned, and whether a request for the next turn could be had. */
  datatype Turn = Turn(packed: nat, packErr: int, reqErr: int, nres: nat, next: bool)

  /** fuse_get_user_pages packs no more than it is asked for, and something unless it fails. Errors are
      not positive. */
  predicate TurnOk(t: Turn, want: nat) { t.packed <= want && t.packErr <= 0 && t.reqErr <= 0 && (t.packErr == 0 ==> t.packed > 0) }

  /** Whether the loop goes on after the turn. */
  predicate GoesOn(t: Turn, count: nat) { t.packed > 0 && t.reqErr == 0 && t.nres == t.packed < count && t.next }

  predicate TurnsOk(turns: seq<Turn>, count: nat, nmax: nat)
    decreases |turns|
  {
    count > 0 ==>
      turns != [] && TurnOk(turns[0], Min(count, nmax))
      && (GoesOn(turns[0], count) ==> TurnsOk(turns[1..], count - turns[0].packed, nmax))
  }

  /** The ranges that are sent. */
  function Sent(turns: seq<Turn>, pos: nat, count: nat, nmax: nat): seq<Range>
    requires TurnsOk(turns, count, nmax)
    decreases |turns|
  {
    if count == 0 || turns[0].packed == 0 then []
    else if !GoesOn(turns[0], count) then [Range(pos, turns[0].packed)]
    else [Range(pos, turns[0].packed)] + Sent(turns[1..], pos + turns[0].packed, count - turns[0].packed, nmax)
  }

  /** The ranges follow each other without a gap or an overlap, stay within the transfer and within the
      connection's limit, and none is empty. */
  lemma {:induction false} SentConsecutive(turns: seq<Turn>, pos: nat, count: nat, nmax: nat)
    requires TurnsOk(turns, count, nmax)
    ensures var rs := Sent(turns, pos, count, nmax);
      && (rs != [] ==> rs[0].pos == pos)
      && (forall i :: 0 <= i < |rs| - 1 ==> rs[i + 1].pos == rs[i].pos + rs[i].n)
      && (forall i :: 0 <= i < |rs| ==> 0 < rs[i].n <= nmax && pos <= rs[i].pos && rs[i].pos + rs[i].n <= pos + count)
    decreases |turns|
  {
    if count > 0 && turns[0].packed > 0 && GoesOn(turns[0], count) {
      SentConsecutive(turns[1..], pos + turns[0].packed, count - turns[0].packed, nmax);
      var rest := Sent(turns[1..], pos + turns[0].packed, count - turns[0].packed, nmax);
      var rs := Sent(turns, pos, count, nmax);
      assert rs == [Range(pos, turns[0].packed)] + rest;
      forall i | 0 <= i < |rs| - 1 ensures rs[i + 1].pos == rs[i].pos + rs[i].n {
        if i > 0 { assert rs[i] == rest[i - 1] && rs[i + 1] == rest[i]; }
      }
    }
  }

  /** A byte of the file is in the range. */
  predicate Contains(r: Range, b: nat) { r.pos <= b < r.pos + r.n }

  function Total(rs: seq<Range>): nat {
    if rs == [] then 0 else rs[0].n + Total(rs[1..])
  }

  /** The ranges partition what is sent: the bytes from the start of the transfer up to some end within it are
      each in exactly one range, and no other byte is in any. */
  lemma {:induction false} SentPartition(turns: seq<Turn>, pos: nat, count: nat, nmax: nat, b: nat)
    requires TurnsOk(turns, count, nmax)
    ensures var rs := Sent(turns, pos, count, nmax);
      && Total(rs) <= count
      && (pos <= b < pos + Total(rs) <==> exists i :: 0 <= i < |rs| && Contains(rs[i], b))
      && forall i, j :: 0 <= i < |rs| && 0 <= j < |rs| && Contains(rs[i], b) && Contains(rs[j], b) ==> i == j
  {
    SentConsecutive(turns, pos, count, nmax);
    var rs := Sent(turns, pos, count, nmax);
    RangesPartition(rs, pos, b);
    if rs != [] { LastEnd(rs, pos); }
  }

  lemma {:induction false} RangesPartition(rs: seq<Range>, pos: nat, b: nat)
    requires rs != [] ==> rs[0].pos == pos
    requires forall i :: 0 <= i < |rs| - 1 ==> rs[i + 1].pos == rs[i].pos + rs[i].n
    ensures pos <= b < pos + Total(rs) <==> exists i :: 0 <= i < |rs| && Contains(rs[i], b)
    ensures forall i, j :: 0 <= i < |rs| && 0 <= j < |rs| && Contains(rs[i], b) && Contains(rs[j], b) ==> i == j
  {
    if rs != [] {
      var rest := rs[1..];
      RangesPartition(rest, pos + rs[0].n, b);
      forall i | 0 <= i < |rs| ensures Contains(rs[i], b) <==> if i == 0 then pos <= b < pos + rs[0].n else Contains(rest[i - 1], b) {}
      if i :| 0 <= i < |rest| && Contains(rest[i], b) { assert Contains(rs[i + 1], b); }
      if Contains(rs[0], b) { assert exists i :: 0 <= i < |rs| && Contains(rs[i], b); }
    }
  }

  lemma {:induction false} LastEnd(rs: seq<Range>, pos: nat)
    requires rs != [] && rs[0].pos == pos
    requires forall i :: 0 <= i < |rs| - 1 ==> rs[i + 1].pos == rs[i].pos + rs[i].n
    ensures pos + Total(rs) == rs[|rs| - 1].pos + rs[|rs| - 1].n
  {
    var rest := rs[1..];
    if rest != [] { LastEnd(rest, pos + rs[0].n); }
  }

  /** A server claims to have moved more than it was asked to. */
  predicate Overrun(turns: seq<Turn>, count: nat, nmax: nat)
    requires TurnsOk(turns, count, nmax)
    decreases |turns|
  {
    count > 0 && turns[0].packed > 0 && turns[0].reqErr == 0 &&
    (turns[0].nres > turns[0].packed || (GoesOn(turns[0], count) && Overrun(turns[1..], count - turns[0].packed, nmax)))
  }

  /** The bytes that all requests together moved. */
  function Moved(turns: seq<Turn>, count: nat, nmax: nat): nat
    requires TurnsOk(turns, count, nmax)
    decreases |turns|
  {
    if count == 0 || turns[0].packed == 0 || turns[0].reqErr != 0 then 0
    else if GoesOn(turns[0], count) then turns[0].nres + Moved(turns[1..], count - turns[0].packed, nmax)
    else turns[0].nres
  }

  /** Unless the server claims too much, no more is moved than was asked for, and it is what was sent
      except for what the last request left. */
  lemma {:induction false} MovedWithin(turns: seq<Turn>, pos: nat, count: nat, nmax: nat)
    requires TurnsOk(turns, count, nmax) && !Overrun(turns, count, nmax)
    ensures Moved(turns, count, nmax) <= count
    ensures var rs := Sent(turns, pos, count, nmax);
      if rs == [] then Moved(turns, count, nmax) == 0
      else rs[|rs| - 1].pos <= pos + Moved(turns, count, nmax) <= rs[|rs| - 1].pos + rs[|rs| - 1].n
    decreases |turns|
  {
    if count > 0 && GoesOn(turns[0], count) {
      MovedWithin(turns[1..], pos + turns[0].packed, count - turns[0].packed, nmax);
      var rest := Sent(turns[1..], pos + turns[0].packed, count - turns[0].packed, nmax);
      var rs := Sent(turns, pos, count, nmax);
      assert rs == [Range(pos, turns[0].packed)] + rest;
      assert rest != [] ==> rs[|rs| - 1] == rest[|rest| - 1];
    }
  }

  /** A turn that moves all that it packs and has a request for the next one. */
  predicate Full(t: Turn) { t.packed > 0 && t.reqErr == 0 && t.nres == t.packed && t.next }

  /** The bytes that the first n turns move. */
  function MovedBy(turns: seq<Turn>, n: nat): nat
    requires n <= |turns|
  {
    if n == 0 then 0 else MovedBy(turns, n - 1) + if turns[n - 1].reqErr == 0 then turns[n - 1].nres else 0
  }

  lemma {:induction false} MovedShift(turns: seq<Turn>, n: nat)
    requires 0 < n <= |turns|
    ensures MovedBy(turns, n) == (if turns[0].reqErr == 0 then turns[0].nres else 0) + MovedBy(turns[1..], n - 1)
  {
    if n > 1 { MovedShift(turns, n - 1); }
  }

  /** Each turn but one whose packing fails sends one request for what it packed; what is moved is what those requests move.
      All turns before the last are full, and a transfer ends before its end only behind a request that failed, that moved
      less or more than was packed, or after which no other could be had, or at a turn that can pack nothing. */
  lemma {:induction false} EndsShort(turns: seq<Turn>, pos: nat, count: nat, nmax: nat)
    requires TurnsOk(turns, count, nmax)
    ensures
      var rs := Sent(turns, pos, count, nmax);
      var n := |rs|;
      && n <= |turns| && (forall i :: 0 <= i < n ==> rs[i].n == turns[i].packed)
      && (forall i :: 0 <= i < n - 1 ==> Full(turns[i]))
      && Moved(turns, count, nmax) == MovedBy(turns, n)
      && (Overrun(turns, count, nmax) <==> n > 0 && turns[n - 1].reqErr == 0 && turns[n - 1].nres > turns[n - 1].packed)
      && (Total(rs) < count ==> (n > 0 && !Full(turns[n - 1])) || (n < |turns| && turns[n].packed == 0))
    decreases |turns|
  {
    var rs := Sent(turns, pos, count, nmax);
    if count > 0 && turns[0].packed > 0 && GoesOn(turns[0], count) {
      var more := turns[1..];
      var left := count - turns[0].packed;
      EndsShort(more, pos + turns[0].packed, left, nmax);
      var rest := Sent(more, pos + turns[0].packed, left, nmax);
      assert rs == [Range(pos, turns[0].packed)] + rest && rs[1..] == rest;
      MovedShift(turns, |rs|);
      forall i | 0 <= i < |rs| ensures rs[i].n == turns[i].packed && (i < |rs| - 1 ==> Full(turns[i])) {
        if i > 0 { assert rs[i] == rest[i - 1] && turns[i] == more[i - 1]; }
      }
      if rest != [] { assert turns[|rs| - 1] == more[|rest| - 1]; }
    } else if count > 0 && turns[0].packed > 0 {
      MovedShift(turns, 1);
    }
  }

  /** Why nothing was moved: the first turn's error, or 0 at the end of the file. */
  function FirstError(turns: seq<Turn>, count: nat): int
    requires count > 0 ==> turns != []
  {
    if count == 0 then 0
    else if turns[0].packed == 0 || turns[0].reqErr == 0 then turns[0].packErr
    else turns[0].reqErr
  }

  function Returned(turns: seq<Turn>, count: nat, nmax: nat): int
    requires TurnsOk(turns, count, nmax)
  {
    if Overrun(turns, count, nmax) then EIO
    else if Moved(turns, count, nmax) > 0 then Moved(turns, count, nmax)
    else FirstError(turns, count)
  }

  /** What the caller gets: an error if a server claims too much; else the bytes moved, errors or not; and only if there are
      none, why the first turn moved none. */
  lemma {:induction false} ReturnedIs(turns: seq<Turn>, pos: nat, count: nat, nmax: nat)
    requires TurnsOk(turns, count, nmax)
    ensures
      var n, ret := |Sent(turns, pos, count, nmax)|, Returned(turns, count, nmax);
      && n <= |turns|
      && (if n > 0 && turns[n - 1].reqErr == 0 && turns[n - 1].nres > turns[n - 1].packed then ret == EIO
          else if MovedBy(turns, n) > 0 then ret == MovedBy(turns, n)
          else if count == 0 then ret == 0
          else if turns[0].packed > 0 && turns[0].reqErr != 0 then ret == turns[0].reqErr
          else ret == turns[0].packErr)
  {
    EndsShort(turns, pos, count, nmax);
  }

  /** What one turn of the loop does when the loop goes on after it. */
  lemma {:induction false} OneTurn(turns: seq<Turn>, pos: nat, count: nat, nmax: nat)
    requires TurnsOk(turns, count, nmax) && count > 0 && GoesOn(turns[0], count)
    ensures TurnsOk(turns[1..], count - turns[0].packed, nmax)
    ensures Sent(turns, pos, count, nmax) == [Range(pos, turns[0].packed)] + Sent(turns[1..], pos + turns[0].packed, count - turns[0].packed, nmax)
    ensures Moved(turns, count, nmax) == turns[0].packed + Moved(turns[1..], count - turns[0].packed, nmax)
    ensures Overrun(turns, count, nmax) == Overrun(turns[1..], count - turns[0].packed, nmax)
  {
  }

  /** Where the loop stands before turn k. */
  ghost predicate Going(turns: seq<Turn>, pos: nat, count: nat, nmax: nat, k: nat, left: nat, res: nat, sent: seq<Range>) {
    && TurnsOk(turns, count, nmax) && k <= |turns| && TurnsOk(turns[k..], left, nmax) && left + res == count
    && Sent(turns, pos, count, nmax) == sent + Sent(turns[k..], pos + res, left, nmax)
    && Moved(turns, count, nmax) == res + Moved(turns[k..], left, nmax)
    && Overrun(turns, count, nmax) == Overrun(turns[k..], left, nmax)
    && (if k == 0 then res == 0 else res > 0)
  }

  lemma {:induction false} GoingOn(turns: seq<Turn>, pos: nat, count: nat, nmax: nat, k: nat, left: nat, res: nat, sent: seq<Range>)
    requires Going(turns, pos, count, nmax, k, left, res, sent) && left > 0 && GoesOn(turns[k], left)
    ensures Going(turns, pos, count, nmax, k + 1, left - turns[k].packed, res + turns[k].packed, sent + [Range(pos + res, turns[k].packed)])
  {
    OneTurn(turns[k..], pos + res, left, nmax);
    assert turns[k..][1..] == turns[k + 1..];
  }

  /** The loop is over, with what it keeps in res and err. */
  ghost predicate Ended(turns: seq<Turn>, pos: nat, count: nat, nmax: nat, res: nat, err: int, sent: seq<Range>) {
    && TurnsOk(turns, count, nmax) && sent == Sent(turns, pos, count, nmax)
    && Returned(turns, count, nmax) == (if res > 0 then res else err) && err <= 0
  }

  /** A turn after which the loop does not go on. */
  lemma {:induction false} Ends(turns: seq<Turn>, pos: nat, count: nat, nmax: nat, k: nat, left: nat, res: nat, sent: seq<Range>)
    requires Going(turns, pos, count, nmax, k, left, res, sent) && left > 0 && !GoesOn(turns[k], left)
    ensures var t := turns[k];
      && TurnOk(t, left)
      && (t.packed == 0 ==> Ended(turns, pos, count, nmax, res, t.packErr, sent))
      && (t.packed > 0 ==>
           var sent' := sent + [Range(pos + res, t.packed)];
           if t.reqErr != 0 then Ended(turns, pos, count, nmax, res, t.reqErr, sent')
           else if t.nres > t.packed then Ended(turns, pos, count, nmax, 0, EIO, sent')
           else Ended(turns, pos, count, nmax, res + t.nres, t.packErr, sent'))
  {
    assert turns[k..][0] == turns[k];
    assert k == 0 ==> turns[k..] == turns;
    assert sent + [] == sent;
  }

  /** Where the loop stands at its test. */
  ghost predicate Standing(turns: seq<Turn>, pos: nat, count: nat, nmax: nat, k: nat, left: nat, res: nat, err: int, sent: seq<Range>) {
    if left > 0 then Going(turns, pos, count, nmax, k, left, res, sent) else Ended(turns, pos, count, nmax, res, err, sent)
  }

  lemma {:induction false} Turned(turns: seq<Turn>, pos: nat, count: nat, nmax: nat, k: nat, left: nat, res: nat, sent: seq<Range>)
    requires Going(turns, pos, count, nmax, k, left, res, sent) && left > 0
    ensures k < |turns| && TurnOk(turns[k], left)
    ensures var t := turns[k];
      && (t.packed == 0 ==> Ended(turns, pos, count, nmax, res, t.packErr, sent))
      && (t.packed > 0 ==>
           var sent' := sent + [Range(pos + res, t.packed)];
           if t.reqErr != 0 then Ended(turns, pos, count, nmax, res, t.reqErr, sent')
           else if t.nres > t.packed then Ended(turns, pos, count, nmax, 0, EIO, sent')
           else if GoesOn(t, left) then Standing(turns, pos, count, nmax, k + 1, left - t.nres, res + t.nres, t.packErr, sent')
           else Ended(turns, pos, count, nmax, res + t.nres, t.packErr, sent'))
  {
    var t := turns[k];
    if GoesOn(t, left) {
      GoingOn(turns, pos, count, nmax, k, left, res, sent);
    } else {
      Ends(turns, pos, count, nmax, k, left, res, sent);
    }
  }

  /** fuse_direct_io from its loop on. It returns the bytes moved, or why there are none, and the file
      position follows the bytes. */
  method Transfer(pos: nat, count: nat, nmax: nat, turns: seq<Turn>) returns (ret: int, newPos: nat, sent: seq<Range>)
    requires TurnsOk(turns, count, nmax)
    ensures sent == Sent(turns, pos, count, nmax) && ret == Returned(turns, count, nmax)
    ensures newPos == if ret > 0 then pos + ret else pos
  {
    var left: nat, at: nat, res: nat, err: int := count, pos, 0, 0;
    var k: nat := 0;
    sent := [];
    assert turns[0..] == turns && [] + Sent(turns, pos, count, nmax) == Sent(turns, pos, count, nmax);
    while left > 0
      invariant at == pos + res
      invariant Standing(turns, pos, count, nmax, k, left, res, err, sent)
      decreases left
    {
      Turned(turns, pos, count, nmax, k, left, res, sent);
      var t := turns[k];
      err := t.packErr;
      if err != 0 && t.packed == 0 {
        assert Ended(turns, pos, count, nmax, res, err, sent);
        break;
      }
      sent := sent + [Range(at, t.packed)];
      if t.reqErr != 0 {
        err := t.reqErr;
        break;
      } else if t.nres > t.packed {
        res, at, err := 0, pos, EIO;
        break;
      }
      left, res, at := left - t.nres, res + t.nres, at + t.nres;
      if t.nres != t.packed || (left > 0 && !t.next) {
        assert Ended(turns, pos, count, nmax, res, err, sent);
        break;
      }
      k := k + 1;
    }
    newPos := if res > 0 then at else pos;
    ret := if res > 0 then res else err;
  }
}
