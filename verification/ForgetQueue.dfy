/**
 The forget queue of old/fuse/dev.c at pointer level: a singly linked list behind a sentinel, with a
 pointer to its last link, and a dequeue that walks a pointer to a pointer.
 */
module ForgetQueue {
  import opened Errno
  import opened Pages

  datatype ForgetOne = ForgetOne(nodeid: nat, nlookup: nat)


  class Link {
    var forgetOne: ForgetOne
    var next: Link?

    constructor (f: ForgetOne)
      ensures forgetOne == f && next == null
    {
      forgetOne, next := f, null;
    }
  }

  ghost predicate Distinct(links: seq<Link>) {
    forall i, j :: 0 <= i < j < |links| ==> links[i] != links[j]
  }

  /** What link i of a list leads to. */
  function After(links: seq<Link>, i: nat): Link? { if i + 1 < |links| then links[i + 1] else null }

  ghost predicate Leads(links: seq<Link>, i: nat)
    reads links
  {
    i < |links| ==> links[i].next == After(links, i)
  }

  /** The links of a list lead from one to the next, and the last one nowhere. */
  ghost predicate Chained(links: seq<Link>)
    reads links
  {
    Distinct(links) && forall i :: Leads(links, i)
  }

  /** The first link of a list, as a pointer to it. */
  function First(links: seq<Link>): Link? { if links == [] then null else links[0] }

  ghost function Contents(links: seq<Link>): (s: seq<ForgetOne>)
    reads links
    ensures |s| == |links|
    ensures forall i :: 0 <= i < |links| ==> s[i] == links[i].forgetOne
  {
    if links == [] then [] else Contents(links[..|links| - 1]) + [links[|links| - 1].forgetOne]
  }

  lemma {:induction false} ContentsParts(links: seq<Link>, k: nat, whole: seq<ForgetOne>)
    requires k <= |links| == |whole| && forall i :: 0 <= i < |links| ==> links[i].forgetOne == whole[i]
    ensures Contents(links[..k]) == whole[..k]
    ensures Contents(links[k..]) == whole[k..]
  {
  }

  class ForgetList {
    const head: Link          // forget_list_head
    var tail: Link            // forget_list_tail
    ghost var links: seq<Link>

    ghost predicate Valid()
      reads this, [head] + links
    {
      Chained([head] + links) && tail == ([head] + links)[|links|]
    }

    /** fuse_iqueue_init. */
    constructor ()
      ensures Valid() && fresh(head) && links == []
    {
      head := new Link(ForgetOne(0, 0));
      tail, links := head, [];
    }

    /** fuse_queue_forget on a connected queue; the link comes zeroed from fuse_alloc_forget. */
    method Enqueue(forget: Link, nodeid: nat, nlookup: nat)
      requires Valid() && forget !in [head] + links && forget.next == null
      modifies this`tail, this`links, tail`next, forget`forgetOne
      ensures Valid() && links == old(links) + [forget]
      ensures Contents(links) == old(Contents(links)) + [ForgetOne(nodeid, nlookup)]
    {
      ghost var nodes := [head] + links;
      assert nodes[|links|] == tail;
      forget.forgetOne := ForgetOne(nodeid, nlookup);
      assert Contents(links) == old(Contents(links));
      tail.next := forget;
      tail := forget;
      links := links + [forget];
      assert links[..|links| - 1] == old(links);
      ghost var nodes' := nodes + [forget];
      assert [head] + links == nodes';
      forall i: nat ensures Leads(nodes', i) {
        assert old(Leads(nodes, i));
        if i + 1 < |nodes| { assert nodes[i] != nodes[|nodes| - 1]; }
      }
    }

    /** forget_pending. */
    method ForgetPending() returns (pending: bool)
      requires Valid()
      ensures pending == (links != [])
    {
      ghost var nodes := [head] + links;
      assert nodes[0] == head && (links != [] ==> nodes[1] == links[0]);
      assert Leads(nodes, 0);
      pending := head.next != null;
    }

    /** The walk of dequeue_forget. `prev` stands for the pointer newhead: null for the local head,
        else for the next field of that link; `cur` is what it points to. */
    method Walk(max: nat) returns (first: Link?, prev: Link?, cur: Link?, count: nat)
      requires Valid()
      ensures count == Min(max, |links|) && first == First(links)
      ensures cur == After([head] + links, count)
      ensures prev == if count == 0 then null else ([head] + links)[count]
    {
      ghost var nodes := [head] + links;
      assert nodes[0] == head && Leads(nodes, 0) && (links != [] ==> nodes[1] == links[0]);
      first := head.next;
      prev := null;
      cur := first;
      count := 0;
      while cur != null && count < max
        invariant count <= max && count <= |links|
        invariant cur == After(nodes, count)
        invariant prev == if count == 0 then null else nodes[count]
        decreases |links| - count
      {
        assert Leads(nodes, count + 1);
        prev := cur;
        cur := cur.next;
        count := count + 1;
      }
    }

    /** The writes of dequeue_forget: the sentinel skips the first count links, and the last of them
        becomes the end of its own list. */
    method Cut(first: Link?, prev: Link?, cur: Link?, count: nat) returns (head': Link?, ghost taken: seq<Link>)
      requires Valid() && count <= |links| && first == First(links) && cur == After([head] + links, count)
      requires prev == if count == 0 then null else ([head] + links)[count]
      modifies this`tail, this`links, [head] + links
      ensures Valid() && Chained(taken) && head' == First(taken)
      ensures taken == old(links)[..count] && links == old(links)[count..]
      ensures forall x :: x in old(links) ==> x.forgetOne == old(x.forgetOne)
    {
      ghost var nodes := [head] + links;
      taken, links := links[..count], links[count..];
      assert nodes == [head] + taken + links;
      assert nodes[0] == head && cur == First(links);
      head' := first;
      head.next := cur;
      if prev == null { head' := null; } else { prev.next := null; }
      if head.next == null { tail := head; }
      forall i: nat | 0 < i < |nodes| ensures nodes[i].next == if i == count then null else After(nodes, i) {
        assert nodes[i] != nodes[0];
        assert old(Leads(nodes, i));
        if count > 0 && i != count { assert nodes[i] != nodes[count]; }
      }
      Split(nodes, taken, links, count);
      assert links != [] ==> ([head] + links)[|links|] == nodes[|nodes| - 1];
    }

    /** dequeue_forget. The list is split into its first min(max, length) links, which are returned as a
        list of their own, and the rest; with max 0, where newhead never leaves the local head, nothing
        moves. */
    method Dequeue(max: nat) returns (first: Link?, count: nat, ghost taken: seq<Link>)
      requires Valid()
      modifies this`tail, this`links, [head] + links
      ensures Valid() && Chained(taken) && first == First(taken)
      ensures count == |taken| == Min(max, |old(links)|)
      ensures taken == old(links)[..count] && links == old(links)[count..]
      ensures Contents(taken) == old(Contents(links))[..count] && Contents(links) == old(Contents(links))[count..]
    {
      var prev: Link?, cur: Link?;
      ghost var all, contents := links, Contents(links);
      first, prev, cur, count := Walk(max);
      first, taken := Cut(first, prev, cur, count);
      ContentsParts(all, count, contents);
    }

    /** The two lists that the cut leaves. */
    lemma {:induction false} Split(nodes: seq<Link>, taken: seq<Link>, rest: seq<Link>, count: nat)
      requires nodes == [head] + taken + rest && |taken| == count && Distinct(nodes)
      requires head.next == First(rest)
      requires forall i: nat :: 0 < i < |nodes| ==> nodes[i].next == if i == count then null else After(nodes, i)
      ensures Chained(taken) && Chained([head] + rest)
    {
      var list := [head] + rest;
      forall i: nat ensures Leads(taken, i) {
        if i < |taken| { SplitTaken(nodes, taken, rest, count, i); }
      }
      forall i: nat ensures Leads(list, i) {
        if i < |list| { SplitRest(nodes, taken, rest, count, i); }
      }
      forall i, j | 0 <= i < j < |taken| ensures taken[i] != taken[j] { assert taken[i] == nodes[i + 1] && taken[j] == nodes[j + 1]; }
      forall i, j | 0 <= i < j < |list| ensures list[i] != list[j] {
        assert list[j] == nodes[count + j];
        if i > 0 { assert list[i] == nodes[count + i]; } else { assert list[i] == nodes[0]; }
      }
    }

    lemma {:induction false} SplitTaken(nodes: seq<Link>, taken: seq<Link>, rest: seq<Link>, count: nat, i: nat)
      requires nodes == [head] + taken + rest && |taken| == count && i < count
      requires forall i: nat :: 0 < i < |nodes| ==> nodes[i].next == if i == count then null else After(nodes, i)
      ensures Leads(taken, i)
    {
      var k := i + 1;
      assert taken[i] == nodes[k];
      if k < count { assert taken[k] == nodes[k + 1]; }
    }

    lemma {:induction false} SplitRest(nodes: seq<Link>, taken: seq<Link>, rest: seq<Link>, count: nat, i: nat)
      requires nodes == [head] + taken + rest && |taken| == count && i <= |rest|
      requires head.next == First(rest)
      requires forall i: nat :: 0 < i < |nodes| ==> nodes[i].next == if i == count then null else After(nodes, i)
      ensures Leads([head] + rest, i)
    {
      var list := [head] + rest;
      var k := count + i;
      if i == 0 {
        if rest != [] { assert list[1] == rest[0]; }
      } else {
        assert list[i] == nodes[k];
        if i < |rest| { assert list[i + 1] == nodes[k + 1]; }
      }
    }

    /** fuse_read_batch_forget with room for nbytes bytes, of which the two headers take `headers` and
        each forget `one`: the message never exceeds the room, and takes the oldest forgets in order, as
        many as fit. The first `good` calls of fuse_copy_one succeed, the next one fails with `error`;
        `sent` are the forgets that reach userspace. A fault loses the others that were taken. */
    method ReadBatchForget(nbytes: nat, headers: nat, one: nat, good: nat, error: int)
      returns (len: int, count: nat, sent: seq<ForgetOne>)
      requires Valid() && one > 0 && error < 0
      modifies this`tail, this`links, [head] + links
      ensures Valid()
      ensures nbytes < headers ==> len == EINVAL && count == 0 && sent == [] && links == old(links)
      ensures nbytes >= headers ==>
        && count <= |old(links)| && BatchSize(headers, one, count) <= nbytes
        && (links != [] ==> nbytes < BatchSize(headers, one, count + 1))
        && Contents(links) == old(Contents(links))[count..]
        && len == (if good >= count + 2 then BatchSize(headers, one, count) else error)
        && sent == old(Contents(links))[..Copied(good, count)]
    {
      if nbytes < headers { return EINVAL, 0, []; }
      len, count, sent := SendBatch(nbytes, headers, one, good, error);
    }

    /** fuse_read_batch_forget past its check of the room. */
    method SendBatch(nbytes: nat, headers: nat, one: nat, good: nat, error: int)
      returns (len: int, count: nat, sent: seq<ForgetOne>)
      requires Valid() && one > 0 && error < 0 && headers <= nbytes
      modifies this`tail, this`links, [head] + links
      ensures Valid() && count <= |old(links)| && BatchSize(headers, one, count) <= nbytes
      ensures links != [] ==> nbytes < BatchSize(headers, one, count + 1)
      ensures Contents(links) == old(Contents(links))[count..]
      ensures len == if good >= count + 2 then BatchSize(headers, one, count) else error
      ensures sent == old(Contents(links))[..Copied(good, count)]
    {
      ghost var waiting := Contents(links);
      var first, full;
      ghost var taken;
      first, count, full, taken := TakeFitting(nbytes, headers, one);
      len, sent := CopyForgets(first, taken, good, error, full, waiting);
    }

    /** The locked part of fuse_read_batch_forget: as many forgets as fit are dequeued. */
    method TakeFitting(nbytes: nat, headers: nat, one: nat) returns (first: Link?, count: nat, full: nat, ghost taken: seq<Link>)
      requires Valid() && one > 0 && headers <= nbytes
      modifies this`tail, this`links, [head] + links
      ensures Valid() && Chained(taken) && first == First(taken) && count == |taken| <= |old(links)|
      ensures full == BatchSize(headers, one, count) <= nbytes && (links != [] ==> nbytes < BatchSize(headers, one, count + 1))
      ensures Contents(taken) == old(Contents(links))[..count] && Contents(links) == old(Contents(links))[count..]
    {
      var maxForgets := (nbytes - headers) / one;
      first, count, taken := Dequeue(maxForgets);
      RoomFor(nbytes, headers, one, count);
      BatchTotal(headers, one, count);
      full := headers + count * one;
    }

    /** What follows in fuse_read_batch_forget: the two headers, then the dequeued forgets one after the
        other, until a copy fails. */
    method CopyForgets(first: Link?, ghost taken: seq<Link>, good: nat, error: int, full: nat, ghost waiting: seq<ForgetOne>)
      returns (len: int, sent: seq<ForgetOne>)
      requires Chained(taken) && first == First(taken) && error < 0
      requires |taken| <= |waiting| && Contents(taken) == waiting[..|taken|]
      ensures sent == waiting[..Copied(good, |taken|)]
      ensures len == if good >= |taken| + 2 then full else error
    {
      var cur, err := first, if good >= 2 then 0 else error;
      sent := [];
      ghost var i: nat := 0;
      while cur != null
        invariant i <= |taken| && cur == First(taken[i..])
        invariant sent == waiting[..Copied(good, i)]
        invariant err == if good >= i + 2 then 0 else error
        decreases |taken| - i
      {
        assert Leads(taken, i);
        if err == 0 {
          if |sent| + 2 < good { sent := sent + [cur.forgetOne]; } else { err := error; }
        }
        cur := cur.next;
        i := i + 1;
      }
      len := if err != 0 then err else full;
    }

    /** fuse_read_single_forget: the forget is dequeued before the room is checked, so that a message
        that does not fit, or whose copy fails with `error`, loses it. */
    method ReadSingleForget(nbytes: nat, len: nat, error: int) returns (res: int, sent: seq<ForgetOne>)
      requires Valid() && links != [] && error <= 0
      modifies this`tail, this`links, [head] + links
      ensures Valid() && Contents(links) == old(Contents(links))[1..]
      ensures res == if nbytes < len then EINVAL else if error != 0 then error else len
      ensures sent == if nbytes < len || error != 0 then [] else old(Contents(links))[..1]
    {
      var forget, count;
      ghost var taken;
      forget, count, taken := Dequeue(1);
      if nbytes < len { return EINVAL, []; }
      if error != 0 { return error, []; }
      assert taken[0] == forget;
      res, sent := len, [forget.forgetOne];
    }
  }

  /** How many of count forgets reach userspace when the first `good` copies succeed, the headers' included. */
  function Copied(good: nat, count: nat): nat { if good < 2 then 0 else Min(good - 2, count) }

  /** ih.len of a FUSE_BATCH_FORGET with n forgets. */
  function BatchSize(headers: nat, one: nat, n: nat): nat { if n == 0 then headers else BatchSize(headers, one, n - 1) + one }

  lemma {:induction false} BatchTotal(headers: nat, one: nat, n: nat)
    ensures BatchSize(headers, one, n) == headers + n * one
  {
    if n > 0 { BatchTotal(headers, one, n - 1); }
  }

  /** As many as fit, and no more. */
  lemma RoomFor(nbytes: nat, headers: nat, one: nat, count: nat)
    requires one > 0 && headers <= nbytes && count <= (nbytes - headers) / one
    ensures BatchSize(headers, one, count) <= nbytes
    ensures count == (nbytes - headers) / one ==> nbytes < BatchSize(headers, one, count + 1)
  {
    BatchTotal(headers, one, count);
    BatchTotal(headers, one, count + 1);
    var max := (nbytes - headers) / one;
    assert count * one <= max * one;
    assert nbytes - headers == max * one + (nbytes - headers) % one;
  }
}
