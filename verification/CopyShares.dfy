/** What a page of an argument gets in a copy, by the room of the pages before it, and what a copy leaves as it was. */
module CopyShares {
  import opened CopyEngine
  import opened Pages

  /** The room in the pages before page k. */
  function RoomBefore(descs: seq<PageDesc>, k: nat): nat
    requires k <= |descs|
  {
    if k == 0 then 0 else RoomBefore(descs, k - 1) + descs[k - 1].length
  }

  lemma {:induction false} BytesLeft(descs: seq<PageDesc>, nbytes: nat, k: nat)
    requires k <= |descs|
    ensures PageBytes(descs, nbytes, k) == if nbytes <= RoomBefore(descs, k) then 0 else nbytes - RoomBefore(descs, k)
  {
    if k > 0 { BytesLeft(descs, nbytes, k - 1); }
  }

  /** Page k takes, from its offset on, what of the bytes lies behind the room of the pages before it, as far as its own room
      goes; it is cleared first only if page_zeroing asks for it and the page is not filled whole. */
  lemma {:induction false} PageShare(descs: seq<PageDesc>, nbytes: nat, zeroing: bool, k: nat)
    requires k < |descs|
    ensures
      var p := PiecePage(descs, nbytes, zeroing, k);
      && p.at == descs[k].offset
      && p.size == (if nbytes <= RoomBefore(descs, k) then 0 else Min(nbytes - RoomBefore(descs, k), descs[k].length))
      && (p.clear <==> zeroing && p.size < PAGE_SIZE)
  {
    BytesLeft(descs, nbytes, k);
  }

  /** Copying in changes no byte outside the piece, unless the page is cleared first. */
  lemma {:induction false} OutsideKept(val: seq<byte>, p: Piece, data: seq<byte>, j: nat)
    requires p.at + |data| <= |val| && j < |val|
    ensures Into(val, p, data)[j] == if p.at <= j < p.at + |data| then data[j - p.at] else if p.clear then 0 else val[j]
  {
  }
}
