/**
 Lookup counts (old/fuse/inode.c, dir.c): every reply that names a node gives the kernel a reference
 on it, which is kept in an inode's nlookup until a FORGET returns it to the server.
 */
module LookupCounts {
  import opened ForgetQueue
  import Pages

  type NodeId = nat

  const ROOT: NodeId := 1

  /** The file type bits of a mode. */
  datatype Kind = Kind(n: nat)

  /** An inode of the superblock. A bad inode (make_bad_inode) is no longer found by its node ID. */
  datatype Node = Node(nodeid: NodeId, nlookup: nat, kind: Kind, bad: bool)

  /** The inodes in existence, the forget queue, and histories: the forgets that readers of the device
      have taken, the node IDs that replies named, and those of replies that were rejected. */
  datatype Super = Super(
    connected: bool, active: bool, inodes: seq<Node>,
    queue: seq<ForgetOne>, sent: seq<ForgetOne>, replies: seq<NodeId>, rejected: seq<NodeId>)

  /** A mounted filesystem with its root inode. */
  const Mounted := Super(true, true, [Node(ROOT, 1, Kind(4), false)], [], [], [], [])

  predicate Matches(ino: Node, nodeid: NodeId) { ino.nodeid == nodeid && !ino.bad }

  /** The first inode that iget5_locked finds for a node ID; the length of the list if there is none. */
  function Find(inodes: seq<Node>, nodeid: NodeId): (i: nat)
    ensures i <= |inodes| && (i < |inodes| ==> Matches(inodes[i], nodeid))
    ensures forall j :: 0 <= j < i ==> !Matches(inodes[j], nodeid)
  {
    if inodes == [] || Matches(inodes[0], nodeid) then 0 else 1 + Find(inodes[1..], nodeid)
  }

  function Good(inodes: seq<Node>): nat {
    if inodes == [] then 0 else (if inodes[0].bad then 0 else 1) + Good(inodes[1..])
  }

  lemma {:induction false} GoodSpoiled(inodes: seq<Node>, i: nat)
    requires i < |inodes| && !inodes[i].bad
    ensures Good(inodes[i := inodes[i].(bad := true)]) == Good(inodes) - 1
  {
    var spoiled := inodes[i := inodes[i].(bad := true)];
    if i == 0 {
      assert spoiled[1..] == inodes[1..];
    } else {
      assert spoiled[1..] == inodes[1..][i - 1 := inodes[i].(bad := true)];
      GoodSpoiled(inodes[1..], i - 1);
    }
  }

  /** fuse_iget. `memory` says whether a new inode can be allocated; the result is whether there is one. */
  function Iget(inodes: seq<Node>, nodeid: NodeId, kind: Kind, memory: bool): (seq<Node>, bool)
    decreases Good(inodes)
  {
    var i := Find(inodes, nodeid);
    if i == |inodes| then if memory then (inodes + [Node(nodeid, 1, kind, false)], true) else (inodes, false)
    else if inodes[i].kind != kind then
      GoodSpoiled(inodes, i);
      Iget(inodes[i := inodes[i].(bad := true)], nodeid, kind, memory)
    else (inodes[i := inodes[i].(nlookup := inodes[i].nlookup + 1)], true)
  }

  /** The inode is found by the node ID and has the file type. */
  predicate Fits(ino: Node, nodeid: NodeId, kind: Kind) { ino.nodeid == nodeid && !ino.bad && ino.kind == kind }

  predicate NoneFits(inodes: seq<Node>, nodeid: NodeId, kind: Kind, n: nat)
    requires n <= |inodes|
  {
    forall j :: 0 <= j < n ==> !Fits(inodes[j], nodeid, kind)
  }

  /** What becomes of inode j: the first one that fits gets a reference; those of the same node that come before it, or all
      of them if none fits, are of another type and turn bad; nothing happens to any other. */
  function Became(inodes: seq<Node>, nodeid: NodeId, kind: Kind, j: nat): Node
    requires j < |inodes|
  {
    if !NoneFits(inodes, nodeid, kind, j) then inodes[j]
    else if Fits(inodes[j], nodeid, kind) then inodes[j].(nlookup := inodes[j].nlookup + 1)
    else if Matches(inodes[j], nodeid) then inodes[j].(bad := true)
    else inodes[j]
  }

  /** fuse_iget finds an inode that fits, or makes one if it has the memory; a new inode holds one reference. */
  predicate Taken(inodes: seq<Node>, nodeid: NodeId, kind: Kind, memory: bool, after: seq<Node>, found: bool) {
    var none := NoneFits(inodes, nodeid, kind, |inodes|);
    && (found <==> !none || memory)
    && |after| == |inodes| + (if none && memory then 1 else 0)
    && (forall j :: 0 <= j < |inodes| ==> after[j] == Became(inodes, nodeid, kind, j))
    && (none && memory ==> after[|inodes|] == Node(nodeid, 1, kind, false))
  }

  lemma {:induction false} SpoiledFits(inodes: seq<Node>, nodeid: NodeId, kind: Kind, i: nat)
    requires i < |inodes| && Matches(inodes[i], nodeid) && inodes[i].kind != kind
    requires forall j :: 0 <= j < i ==> !Matches(inodes[j], nodeid)
    ensures
      var spoiled := inodes[i := inodes[i].(bad := true)];
      && NoneFits(spoiled, nodeid, kind, |inodes|) == NoneFits(inodes, nodeid, kind, |inodes|)
      && forall j :: 0 <= j < |inodes| ==> Became(spoiled, nodeid, kind, j) == Became(inodes, nodeid, kind, j)
  {
    var spoiled := inodes[i := inodes[i].(bad := true)];
    forall j | 0 <= j < |inodes| ensures Fits(spoiled[j], nodeid, kind) == Fits(inodes[j], nodeid, kind) {}
    forall n | 0 <= n <= |inodes| ensures NoneFits(spoiled, nodeid, kind, n) == NoneFits(inodes, nodeid, kind, n) {
      if k :| 0 <= k < n && Fits(inodes[k], nodeid, kind) { assert Fits(spoiled[k], nodeid, kind); }
    }
  }

  /** What fuse_iget comes to, retries and all. */
  lemma {:induction false} IgetTakes(inodes: seq<Node>, nodeid: NodeId, kind: Kind, memory: bool)
    ensures var (after, found) := Iget(inodes, nodeid, kind, memory); Taken(inodes, nodeid, kind, memory, after, found)
    decreases Good(inodes)
  {
    var i := Find(inodes, nodeid);
    if i < |inodes| && inodes[i].kind != kind {
      GoodSpoiled(inodes, i);
      SpoiledFits(inodes, nodeid, kind, i);
      IgetTakes(inodes[i := inodes[i].(bad := true)], nodeid, kind, memory);
    } else if i < |inodes| {
      assert Fits(inodes[i], nodeid, kind);
    }
  }

  // ---------------------------------------------------------------- events

  /** fuse_queue_forget: a queue that is not connected drops it. */
  function QueueForget(s: Super, nodeid: NodeId, nlookup: nat): Super {
    if s.connected then s.(queue := s.queue + [ForgetOne(nodeid, nlookup)]) else s
  }

  /** A reply that names a node: fuse_iget takes the reference, or a forget gives it back. */
  function Entry(s: Super, nodeid: NodeId, kind: Kind, memory: bool): Super {
    var (inodes, found) := Iget(s.inodes, nodeid, kind, memory);
    var t := s.(inodes := inodes, replies := s.replies + [nodeid]);
    if found then t else QueueForget(t, nodeid, 1)
  }

  /** A reply with an invalid or unexpected file type is dropped with its reference. */
  function Reject(s: Super, nodeid: NodeId): Super {
    s.(replies := s.replies + [nodeid], rejected := s.rejected + [nodeid])
  }

  /** fuse_dentry_revalidate for a dentry of inode i. */
  function Revalidate(s: Super, i: nat, nodeid: NodeId): Super
    requires i < |s.inodes|
  {
    var t := s.(replies := s.replies + [nodeid]);
    if nodeid != s.inodes[i].nodeid then QueueForget(t, nodeid, 1)
    else t.(inodes := s.inodes[i := s.inodes[i].(nlookup := s.inodes[i].nlookup + 1)])
  }

  /** fuse_evict_inode: the inode's references go back to the server, if the filesystem is mounted. */
  function Evict(s: Super, i: nat): Super
    requires i < |s.inodes|
  {
    var t := s.(inodes := s.inodes[..i] + s.inodes[i + 1..]);
    if s.active then QueueForget(t, s.inodes[i].nodeid, s.inodes[i].nlookup) else t
  }

  datatype Event =
    | EEntry(nodeid: NodeId, kind: Kind, memory: bool)     // lookup, create, mknod, link, readdirplus
    | EReject(nodeid: NodeId)
    | ERevalidate(i: nat, nodeid: NodeId)
    | EReaddirplusFails(nodeid: NodeId)                    // fuse_force_forget
    | EEvict(i: nat)
    | EReadForgets(max: nat)
    | EAbort
    | EUnmount

  function Next(s: Super, e: Event): Super {
    match e
    case EEntry(nodeid, kind, memory) => Entry(s, nodeid, kind, memory)
    case EReject(nodeid) => Reject(s, nodeid)
    case ERevalidate(i, nodeid) => if i < |s.inodes| then Revalidate(s, i, nodeid) else s
    case EReaddirplusFails(nodeid) => s.(replies := s.replies + [nodeid], sent := s.sent + [ForgetOne(nodeid, 1)])
    case EEvict(i) => if i < |s.inodes| then Evict(s, i) else s
    case EReadForgets(max) => var k := Pages.Min(max, |s.queue|); s.(queue := s.queue[k..], sent := s.sent + s.queue[..k])
    case EAbort => s.(connected := false, queue := [])
    case EUnmount => s.(active := false)
  }

  function Run(s: Super, es: seq<Event>): Super
    decreases |es|
  {
    if es == [] then s else Run(Next(s, es[0]), es[1..])
  }

  // ---------------------------------------------------------------- sums

  /** The references that inodes hold on node n. */
  function Held(inodes: seq<Node>, n: NodeId): nat {
    if inodes == [] then 0 else (if inodes[0].nodeid == n then inodes[0].nlookup else 0) + Held(inodes[1..], n)
  }

  function Forgotten(fs: seq<ForgetOne>, n: NodeId): nat {
    if fs == [] then 0 else (if fs[0].nodeid == n then fs[0].nlookup else 0) + Forgotten(fs[1..], n)
  }

  function Count(ids: seq<NodeId>, n: NodeId): nat {
    if ids == [] then 0 else (if ids[0] == n then 1 else 0) + Count(ids[1..], n)
  }

  lemma {:induction false} HeldSplit(a: seq<Node>, b: seq<Node>, n: NodeId)
    ensures Held(a + b, n) == Held(a, n) + Held(b, n)
  {
    if a == [] {
      assert a + b == b;
    } else {
      assert (a + b)[1..] == a[1..] + b;
      HeldSplit(a[1..], b, n);
    }
  }

  lemma {:induction false} ForgottenSplit(a: seq<ForgetOne>, b: seq<ForgetOne>, n: NodeId)
    ensures Forgotten(a + b, n) == Forgotten(a, n) + Forgotten(b, n)
  {
    if a == [] {
      assert a + b == b;
    } else {
      assert (a + b)[1..] == a[1..] + b;
      ForgottenSplit(a[1..], b, n);
    }
  }

  lemma {:induction false} CountMore(a: seq<NodeId>, x: NodeId, n: NodeId)
    ensures Count(a + [x], n) == Count(a, n) + if x == n then 1 else 0
  {
    if a == [] {
      assert a + [x] == [x];
    } else {
      assert (a + [x])[1..] == a[1..] + [x];
      CountMore(a[1..], x, n);
    }
  }

  /** Replacing one inode. */
  lemma {:induction false} HeldUpdate(inodes: seq<Node>, i: nat, ino: Node, n: NodeId)
    requires i < |inodes| && ino.nodeid == inodes[i].nodeid
    ensures Held(inodes[i := ino], n) == Held(inodes, n) + if ino.nodeid == n then ino.nlookup - inodes[i].nlookup else 0
  {
    assert inodes == inodes[..i] + ([inodes[i]] + inodes[i + 1..]);
    assert inodes[i := ino] == inodes[..i] + ([ino] + inodes[i + 1..]);
    HeldSplit(inodes[..i], [inodes[i]] + inodes[i + 1..], n);
    HeldSplit(inodes[..i], [ino] + inodes[i + 1..], n);
    assert ([inodes[i]] + inodes[i + 1..])[1..] == ([ino] + inodes[i + 1..])[1..];
  }

  /** fuse_iget takes one reference if it finds or makes an inode, and none otherwise, even when it
      replaces inodes whose file type has changed. */
  lemma {:induction false} IgetTakesOne(inodes: seq<Node>, nodeid: NodeId, kind: Kind, memory: bool, n: NodeId)
    ensures var (after, found) := Iget(inodes, nodeid, kind, memory);
      Held(after, n) == Held(inodes, n) + if found && nodeid == n then 1 else 0
    decreases Good(inodes)
  {
    var i := Find(inodes, nodeid);
    if i == |inodes| {
      HeldSplit(inodes, [Node(nodeid, 1, kind, false)], n);
    } else if inodes[i].kind != kind {
      GoodSpoiled(inodes, i);
      HeldUpdate(inodes, i, inodes[i].(bad := true), n);
      IgetTakesOne(inodes[i := inodes[i].(bad := true)], nodeid, kind, memory, n);
    } else {
      HeldUpdate(inodes, i, inodes[i].(nlookup := inodes[i].nlookup + 1), n);
    }
  }

  // ---------------------------------------------------------------- what the events say

  /** The node that the reply of event e names, if it is one. */
  function NamedBy(s: Super, e: Event): seq<NodeId> {
    match e
    case EEntry(nodeid, _, _) => [nodeid]
    case EReject(nodeid) => [nodeid]
    case ERevalidate(i, nodeid) => if i < |s.inodes| then [nodeid] else []
    case EReaddirplusFails(nodeid) => [nodeid]
    case _ => []
  }

  /** The nodes that the replies of a run name, and those among them whose file type is rejected. */
  function NamedIn(s: Super, es: seq<Event>): seq<NodeId>
    decreases |es|
  {
    if es == [] then [] else NamedBy(s, es[0]) + NamedIn(Next(s, es[0]), es[1..])
  }

  function RejectedIn(es: seq<Event>): seq<NodeId> {
    if es == [] then [] else (if es[0].EReject? then [es[0].nodeid] else []) + RejectedIn(es[1..])
  }

  lemma {:induction false} RepliesNamed(s: Super, es: seq<Event>)
    ensures Run(s, es).replies == s.replies + NamedIn(s, es) && Run(s, es).rejected == s.rejected + RejectedIn(es)
    decreases |es|
  {
    if es != [] {
      RepliesNamed(Next(s, es[0]), es[1..]);
      assert Next(s, es[0]).replies == s.replies + NamedBy(s, es[0]);
    }
  }

  /** The references that event e owes to the server, if the connection is up: of a reply for whose node there is no inode
      and no memory, of a revalidation that names another node, and of an inode that is evicted while mounted. */
  function Owed(s: Super, e: Event): seq<ForgetOne> {
    match e
    case EEntry(nodeid, kind, memory) =>
      if NoneFits(s.inodes, nodeid, kind, |s.inodes|) && !memory then [ForgetOne(nodeid, 1)] else []
    case ERevalidate(i, nodeid) => if i < |s.inodes| && s.inodes[i].nodeid != nodeid then [ForgetOne(nodeid, 1)] else []
    case EEvict(i) => if i < |s.inodes| && s.active then [ForgetOne(s.inodes[i].nodeid, s.inodes[i].nlookup)] else []
    case _ => []
  }

  /** Exactly those are queued, behind what waits; a reader takes the oldest; an abort drops them all. */
  lemma QueueOwed(s: Super, e: Event)
    ensures
      if e.EAbort? then Next(s, e).queue == [] && !Next(s, e).connected
      else if e.EReadForgets? then
        Next(s, e).queue == s.queue[Pages.Min(e.max, |s.queue|)..] && Next(s, e).sent == s.sent + s.queue[..Pages.Min(e.max, |s.queue|)]
      else
        && Next(s, e).queue == s.queue + (if s.connected then Owed(s, e) else []) && Next(s, e).connected == s.connected
        && Next(s, e).sent == s.sent + if e.EReaddirplusFails? then [ForgetOne(e.nodeid, 1)] else []
  {
    if e.EEntry? { IgetTakes(s.inodes, e.nodeid, e.kind, e.memory); }
  }

  /** A revalidated dentry whose node the server names again keeps its inode, with one reference more. */
  lemma RevalidateTakes(s: Super, i: nat, nodeid: NodeId)
    requires i < |s.inodes|
    ensures
      var t := Next(s, ERevalidate(i, nodeid));
      && |t.inodes| == |s.inodes| && (forall j :: 0 <= j < |s.inodes| && j != i ==> t.inodes[j] == s.inodes[j])
      && t.inodes[i] == if s.inodes[i].nodeid == nodeid then s.inodes[i].(nlookup := s.inodes[i].nlookup + 1) else s.inodes[i]
  {
  }

  // ---------------------------------------------------------------- conservation

  /** The references on node n that are accounted for. */
  function Accounted(s: Super, n: NodeId): nat {
    Held(s.inodes, n) + Forgotten(s.queue, n) + Forgotten(s.sent, n) + Count(s.rejected, n)
  }

  ghost predicate Balanced(s: Super, n: NodeId) {
    if s.connected && s.active then Accounted(s, n) == Count(s.replies, n) else Accounted(s, n) <= Count(s.replies, n)
  }

  lemma {:induction false} QueueSum(s: Super, nodeid: NodeId, nlookup: nat, n: NodeId)
    ensures Forgotten(QueueForget(s, nodeid, nlookup).queue, n)
      == Forgotten(s.queue, n) + if s.connected && nodeid == n then nlookup else 0
  {
    ForgottenSplit(s.queue, [ForgetOne(nodeid, nlookup)], n);
  }

  lemma EntryBalanced(s: Super, nodeid: NodeId, kind: Kind, memory: bool, n: NodeId)
    requires Balanced(s, n)
    ensures Balanced(Entry(s, nodeid, kind, memory), n)
  {
    CountMore(s.replies, nodeid, n);
    IgetTakesOne(s.inodes, nodeid, kind, memory, n);
    var (inodes, found) := Iget(s.inodes, nodeid, kind, memory);
    QueueSum(s.(inodes := inodes, replies := s.replies + [nodeid]), nodeid, 1, n);
  }

  lemma RevalidateBalanced(s: Super, i: nat, nodeid: NodeId, n: NodeId)
    requires Balanced(s, n) && i < |s.inodes|
    ensures Balanced(Revalidate(s, i, nodeid), n)
  {
    CountMore(s.replies, nodeid, n);
    QueueSum(s.(replies := s.replies + [nodeid]), nodeid, 1, n);
    HeldUpdate(s.inodes, i, s.inodes[i].(nlookup := s.inodes[i].nlookup + 1), n);
  }

  lemma EvictBalanced(s: Super, i: nat, n: NodeId)
    requires Balanced(s, n) && i < |s.inodes|
    ensures Balanced(Evict(s, i), n)
  {
    var rest := s.inodes[..i] + s.inodes[i + 1..];
    assert s.inodes == s.inodes[..i] + ([s.inodes[i]] + s.inodes[i + 1..]);
    HeldSplit(s.inodes[..i], [s.inodes[i]] + s.inodes[i + 1..], n);
    HeldSplit(s.inodes[..i], s.inodes[i + 1..], n);
    assert ([s.inodes[i]] + s.inodes[i + 1..])[1..] == s.inodes[i + 1..];
    QueueSum(s.(inodes := rest), s.inodes[i].nodeid, s.inodes[i].nlookup, n);
  }

  lemma NextBalanced(s: Super, e: Event, n: NodeId)
    requires Balanced(s, n)
    ensures Balanced(Next(s, e), n)
  {
    match e
    case EEntry(nodeid, kind, memory) => EntryBalanced(s, nodeid, kind, memory, n);
    case EReject(nodeid) => CountMore(s.replies, nodeid, n); CountMore(s.rejected, nodeid, n);
    case ERevalidate(i, nodeid) => if i < |s.inodes| { RevalidateBalanced(s, i, nodeid, n); }
    case EReaddirplusFails(nodeid) => CountMore(s.replies, nodeid, n); ForgottenSplit(s.sent, [ForgetOne(nodeid, 1)], n);
    case EEvict(i) => if i < |s.inodes| { EvictBalanced(s, i, n); }
    case EReadForgets(max) =>
      var k := Pages.Min(max, |s.queue|);
      assert s.queue == s.queue[..k] + s.queue[k..];
      ForgottenSplit(s.queue[..k], s.queue[k..], n);
      ForgottenSplit(s.sent, s.queue[..k], n);
    case EAbort =>
    case EUnmount =>
  }

  lemma {:induction false} RunBalanced(s: Super, es: seq<Event>, n: NodeId)
    requires Balanced(s, n)
    ensures Balanced(Run(s, es), n)
    decreases |es|
  {
    if es != [] {
      NextBalanced(s, es[0], n);
      RunBalanced(Next(s, es[0]), es[1..], n);
    }
  }

  lemma MountedBalanced(n: NodeId)
    requires n != ROOT
    ensures Balanced(Mounted, n)
  {
    var root := [Node(ROOT, 1, Kind(4), false)];
    assert Mounted.inodes == root && root[1..] == [];
    assert Held(root, n) == Held(root[1..], n);
  }

  /** While the filesystem is connected and mounted, for every node but the root the replies that named
      it are exactly the references its inodes hold, plus those in FORGETs queued or taken by a reader,
      plus the replies that were rejected. */
  lemma {:induction false} LookupsConserved(es: seq<Event>, n: NodeId)
    requires n != ROOT
    ensures var s := Run(Mounted, es);
      s.connected && s.active ==>
        Count(NamedIn(Mounted, es), n) == Held(s.inodes, n) + Forgotten(s.queue, n) + Forgotten(s.sent, n) + Count(RejectedIn(es), n)
  {
    MountedBalanced(n);
    RunBalanced(Mounted, es, n);
    RepliesNamed(Mounted, es);
    assert [] + NamedIn(Mounted, es) == NamedIn(Mounted, es) && [] + RejectedIn(es) == RejectedIn(es);
  }

  /** The server never gets back more references than it gave out, whatever is aborted or unmounted. */
  lemma {:induction false} NeverForgottenTwice(es: seq<Event>, n: NodeId)
    requires n != ROOT
    ensures var s := Run(Mounted, es); Forgotten(s.sent, n) <= Count(NamedIn(Mounted, es), n)
  {
    MountedBalanced(n);
    RunBalanced(Mounted, es, n);
    RepliesNamed(Mounted, es);
    assert [] + NamedIn(Mounted, es) == NamedIn(Mounted, es);
  }

  /** When every inode of the node is gone and every forget has been read, the server has all its
      references back: exactly if no reply for it was rejected. */
  lemma {:induction false} AllReturned(es: seq<Event>, n: NodeId)
    requires n != ROOT
    ensures var s := Run(Mounted, es);
      s.connected && s.active && Held(s.inodes, n) == 0 && s.queue == [] ==>
        (Forgotten(s.sent, n) == Count(NamedIn(Mounted, es), n) <==> Count(RejectedIn(es), n) == 0)
  {
    LookupsConserved(es, n);
  }

  // ---------------------------------------------------------------- the superblock, updated in place

  class FuseSuper {
    var connected: bool
    var active: bool
    var inodes: seq<Node>
    var queue: seq<ForgetOne>

    constructor ()
      ensures connected == Mounted.connected && active == Mounted.active && inodes == Mounted.inodes && queue == Mounted.queue
    {
      connected, active, inodes, queue := true, true, [Node(ROOT, 1, Kind(4), false)], [];
    }

    /** iget5_locked's search. */
    method FindInode(nodeid: NodeId) returns (i: nat)
      ensures i == Find(inodes, nodeid)
    {
      i := 0;
      while i < |inodes| && !(inodes[i].nodeid == nodeid && !inodes[i].bad)
        invariant i <= |inodes| && Find(inodes, nodeid) == i + Find(inodes[i..], nodeid)
      {
        assert inodes[i..][1..] == inodes[i + 1..];
        i := i + 1;
      }
    }

    /** fuse_iget, with its retry after an inode of the wrong type was made bad. */
    method IgetInode(nodeid: NodeId, kind: Kind, memory: bool) returns (found: bool)
      modifies this`inodes
      ensures (inodes, found) == Iget(old(inodes), nodeid, kind, memory)
      ensures Taken(old(inodes), nodeid, kind, memory, inodes, found)
    {
      IgetTakes(inodes, nodeid, kind, memory);
      var i := FindInode(nodeid);
      while i < |inodes| && inodes[i].kind != kind
        invariant i == Find(inodes, nodeid)
        invariant Iget(inodes, nodeid, kind, memory) == Iget(old(inodes), nodeid, kind, memory)
        decreases Good(inodes)
      {
        GoodSpoiled(inodes, i);
        inodes := inodes[i := inodes[i].(bad := true)];
        i := FindInode(nodeid);
      }
      found := i < |inodes| || memory;
      if i < |inodes| {
        inodes := inodes[i := inodes[i].(nlookup := inodes[i].nlookup + 1)];
      } else if memory {
        inodes := inodes + [Node(nodeid, 1, kind, false)];
      }
    }

    method Forget(nodeid: NodeId, nlookup: nat)
      modifies this`queue
      ensures queue == if connected then old(queue) + [ForgetOne(nodeid, nlookup)] else old(queue)
    {
      if connected { queue := queue + [ForgetOne(nodeid, nlookup)]; }
    }

    /** The end of fuse_lookup_name and of create_new_entry for a reply with a valid file type: what
        inodes and queue are is what the event makes of them. */
    method TakeEntry(nodeid: NodeId, kind: Kind, memory: bool, ghost s: Super) returns (found: bool)
      requires s.connected == connected && s.inodes == inodes && s.queue == queue
      modifies this`inodes, this`queue
      ensures inodes == Entry(s, nodeid, kind, memory).inodes && queue == Entry(s, nodeid, kind, memory).queue
      ensures Taken(old(inodes), nodeid, kind, memory, inodes, found)
      ensures queue == if !found && connected then old(queue) + [ForgetOne(nodeid, 1)] else old(queue)
    {
      found := IgetInode(nodeid, kind, memory);
      if !found { Forget(nodeid, 1); }
    }

    /** fuse_evict_inode. */
    method EvictInode(i: nat, ghost s: Super)
      requires s.connected == connected && s.active == active && s.inodes == inodes && s.queue == queue && i < |inodes|
      modifies this`inodes, this`queue
      ensures inodes == Evict(s, i).inodes && queue == Evict(s, i).queue
      ensures queue == if active && connected then old(queue) + [ForgetOne(old(inodes)[i].nodeid, old(inodes)[i].nlookup)] else old(queue)
    {
      var ino := inodes[i];
      inodes := inodes[..i] + inodes[i + 1..];
      if active { Forget(ino.nodeid, ino.nlookup); }
    }
  }
}
