/** Attribute versions (old/fuse/inode.c, dir.c, file.c), which tell whether a reply is stale. */
module AttrVersions {
  // A counter of the connection that every local change of an inode's size or link count advances, and that
  // decides whether a reply's attributes are older than what is known locally.

  type InodeId = nat

  /** The cached attributes of an inode that the protocol is about; `version` is fi->attr_version and
      `unstable` FUSE_I_SIZE_UNSTABLE. */
  datatype Inode = Inode(version: nat, size: nat, nlink: nat, regular: bool, unstable: bool)

  /** The attributes that a reply carries. */
  datatype Attr = Attr(size: nat, nlink: nat)

  datatype Conn = Conn(version: nat, writeback: bool, inodes: map<InodeId, Inode>)

  /** fuse_conn_init. */
  function Init(writeback: bool): Conn { Conn(1, writeback, map[]) }

  // ---------------------------------------------------------------- one inode, under fc->lock

  /** Whether the server's size is believed: with a writeback cache the local one of a regular file
      may be ahead of it. */
  predicate TrustsSize(writeback: bool, ino: Inode) { !writeback || !ino.regular }

  /** The test of fuse_change_attributes. */
  predicate Stale(ino: Inode, sampled: nat) { (sampled != 0 && ino.version > sampled) || ino.unstable }

  /** The test of fuse_read_update_size. */
  predicate Shrinks(ino: Inode, size: nat, sampled: nat) { sampled == ino.version && size < ino.size && !ino.unstable }

  // ---------------------------------------------------------------- events

  datatype Event =
    | ENewInode(i: InodeId, regular: bool, attr: Attr)             // iget5_locked and fuse_init_inode
    | EChangeAttributes(i: InodeId, attr: Attr, sampled: nat)      // fuse_change_attributes
    | ESetattr(i: InodeId, attr: Attr, truncate: bool)             // the locked part of fuse_do_setattr
    | EWriteUpdateSize(i: InodeId, pos: nat)                       // fuse_write_update_size
    | EReadUpdateSize(i: InodeId, size: nat, sampled: nat)         // fuse_read_update_size
    | EOpenTruncate(i: InodeId)                                    // O_TRUNC in fuse_finish_open
    | EAioComplete(i: InodeId)                                     // fuse_aio_complete
    | EUnlink(i: InodeId)
    | ELink(i: InodeId)
    | EClearNlink(i: InodeId)                                      // fuse_rmdir, fuse_reverse_inval_entry
    | ESetUnstable(i: InodeId, unstable: bool)

  predicate Enabled(s: Conn, e: Event) {
    if e.ENewInode? then e.i !in s.inodes else e.i in s.inodes
  }

  /** Whether the event advances the version of its inode. */
  predicate Bumps(s: Conn, e: Event)
    requires Enabled(s, e)
  {
    match e
    case ENewInode(_, _, _) => false
    case EChangeAttributes(i, _, sampled) => !Stale(s.inodes[i], sampled)
    case EReadUpdateSize(i, size, sampled) => Shrinks(s.inodes[i], size, sampled)
    case EClearNlink(_) => false
    case ESetUnstable(_, _) => false
    case _ => true
  }

  /** The inode's size and link count after the event. */
  function NewAttr(s: Conn, e: Event): Attr
    requires Enabled(s, e) && !e.ENewInode?
  {
    var ino := s.inodes[e.i];
    match e
    case EChangeAttributes(_, attr, sampled) =>
      if Stale(ino, sampled) then Attr(ino.size, ino.nlink)
      else Attr(if TrustsSize(s.writeback, ino) then attr.size else ino.size, attr.nlink)
    case ESetattr(_, attr, truncate) => Attr(if TrustsSize(s.writeback, ino) || truncate then attr.size else ino.size, attr.nlink)
    case EWriteUpdateSize(_, pos) => Attr(if pos > ino.size then pos else ino.size, ino.nlink)
    case EReadUpdateSize(_, size, sampled) => Attr(if Shrinks(ino, size, sampled) then size else ino.size, ino.nlink)
    case EOpenTruncate(_) => Attr(0, ino.nlink)
    case EUnlink(_) => Attr(ino.size, if ino.nlink > 0 then ino.nlink - 1 else 0)
    case ELink(_) => Attr(ino.size, ino.nlink + 1)
    case EClearNlink(_) => Attr(ino.size, 0)
    case _ => Attr(ino.size, ino.nlink)
  }

  function NewInode(s: Conn, e: Event): Inode
    requires Enabled(s, e)
  {
    match e
    case ENewInode(_, regular, attr) => Inode(0, attr.size, 1, regular, false)
    case ESetUnstable(i, unstable) => s.inodes[i].(unstable := unstable)
    case _ =>
      var a := NewAttr(s, e);
      s.inodes[e.i].(version := if Bumps(s, e) then s.version + 1 else s.inodes[e.i].version, size := a.size, nlink := a.nlink)
  }

  function Next(s: Conn, e: Event): Conn {
    if !Enabled(s, e) then s
    else s.(version := if Bumps(s, e) then s.version + 1 else s.version, inodes := s.inodes[e.i := NewInode(s, e)])
  }

  function Run(s: Conn, es: seq<Event>): Conn
    decreases |es|
  {
    if es == [] then s else Run(Next(s, es[0]), es[1..])
  }

  // ---------------------------------------------------------------- what each event leaves

  /** A new inode has the size of the reply, one link, and a version older than any sample. */
  lemma NewInodeLeaves(s: Conn, i: InodeId, regular: bool, attr: Attr)
    requires i !in s.inodes
    ensures Next(s, ENewInode(i, regular, attr)) == s.(inodes := s.inodes[i := Inode(0, attr.size, 1, regular, false)])
  {
  }

  /** An attribute reply that is fresh gives the link count, and the size unless a writeback cache keeps it; a reply that is
      older than the inode's version, or that meets a size under change, gives nothing. */
  lemma ReplyLeaves(s: Conn, i: InodeId, attr: Attr, sampled: nat)
    requires i in s.inodes
    ensures
      var ino, t := s.inodes[i], Next(s, EChangeAttributes(i, attr, sampled));
      if ino.unstable || 0 < sampled < ino.version then t == s
      else
        t == s.(version := s.version + 1, inodes := s.inodes[i := ino.(
          version := s.version + 1, nlink := attr.nlink, size := if s.writeback && ino.regular then ino.size else attr.size)])
  {
    if Stale(s.inodes[i], sampled) { assert s.inodes[i := s.inodes[i]] == s.inodes; }
  }

  /** Setattr takes the reply's attributes whatever their age, and the size of a truncation even from a writeback cache. */
  lemma SetattrLeaves(s: Conn, i: InodeId, attr: Attr, truncate: bool)
    requires i in s.inodes
    ensures
      var ino, t := s.inodes[i], Next(s, ESetattr(i, attr, truncate));
      t == s.(version := s.version + 1, inodes := s.inodes[i := ino.(
        version := s.version + 1, nlink := attr.nlink, size := if s.writeback && ino.regular && !truncate then ino.size else attr.size)])
  {
  }

  /** A write that ends at pos makes the file at least that long, and no longer than it has to; a short read makes it as
      short as what was read if the inode is the one that was sampled. */
  lemma SizesLeft(s: Conn, i: InodeId, pos: nat, sampled: nat)
    requires i in s.inodes
    ensures
      var ino, w, r := s.inodes[i], Next(s, EWriteUpdateSize(i, pos)), Next(s, EReadUpdateSize(i, pos, sampled));
      && w.inodes[i].size >= pos && w.inodes[i].size >= ino.size && (w.inodes[i].size == pos || w.inodes[i].size == ino.size)
      && w.inodes[i].version == w.version == s.version + 1
      && w.inodes[i] == ino.(size := w.inodes[i].size, version := w.version)
      && (if sampled == ino.version && pos < ino.size && !ino.unstable
          then r.inodes[i] == ino.(size := pos, version := r.version) && r.version == s.version + 1
          else r.inodes[i] == ino && r.version == s.version)
      && Next(s, EOpenTruncate(i)).inodes[i] == ino.(size := 0, version := s.version + 1)
      && Next(s, EAioComplete(i)).inodes[i] == ino.(version := s.version + 1)
  {
  }

  /** Unlink and link undo each other but for the version; the count never goes below zero, and rmdir clears it. */
  lemma LinksLeft(s: Conn, i: InodeId)
    requires i in s.inodes
    ensures
      var ino, l, u := s.inodes[i], Next(s, ELink(i)), Next(s, EUnlink(i));
      && l.inodes[i] == ino.(nlink := l.inodes[i].nlink, version := s.version + 1) && l.inodes[i].nlink == ino.nlink + 1
      && u.inodes[i] == ino.(nlink := u.inodes[i].nlink, version := s.version + 1)
      && (ino.nlink > 0 ==> u.inodes[i].nlink + 1 == ino.nlink) && (ino.nlink == 0 ==> u.inodes[i].nlink == 0)
      && Next(l, EUnlink(i)).inodes[i].nlink == ino.nlink
      && Next(s, EClearNlink(i)).inodes[i] == ino.(nlink := 0)
  {
  }

  /** An event touches one inode, and the flag of a size under change is set by its event alone. */
  lemma OthersLeft(s: Conn, e: Event, j: InodeId)
    requires j in s.inodes
    ensures
      var t := Next(s, e);
      && j in t.inodes && (e.i != j ==> t.inodes[j] == s.inodes[j]) && t.writeback == s.writeback
      && t.inodes[j].regular == s.inodes[j].regular
      && t.inodes[j].unstable == if e.ESetUnstable? && e.i == j then e.unstable else s.inodes[j].unstable
  {
  }

  // ---------------------------------------------------------------- invariants

  ghost predicate Inv(s: Conn) { s.version >= 1 && forall i :: i in s.inodes ==> s.inodes[i].version <= s.version }

  lemma NextInv(s: Conn, e: Event)
    requires Inv(s)
    ensures Inv(Next(s, e)) && s.version <= Next(s, e).version
    ensures forall i :: i in s.inodes ==> i in Next(s, e).inodes && s.inodes[i].version <= Next(s, e).inodes[i].version
  {
  }

  /** No inode's version is ever ahead of the connection's, and none ever goes back. */
  lemma {:induction false} VersionsGrow(s: Conn, es: seq<Event>, i: InodeId)
    requires Inv(s)
    ensures Inv(Run(s, es)) && s.version <= Run(s, es).version
    ensures i in s.inodes ==> i in Run(s, es).inodes && s.inodes[i].version <= Run(s, es).inodes[i].version <= Run(s, es).version
    decreases |es|
  {
    if es != [] {
      NextInv(s, es[0]);
      VersionsGrow(Next(s, es[0]), es[1..], i);
    }
  }

  /** Some event of the run advances the version of inode i. */
  predicate Touched(s: Conn, es: seq<Event>, i: InodeId)
    decreases |es|
  {
    es != [] && ((Enabled(s, es[0]) && es[0].i == i && Bumps(s, es[0])) || Touched(Next(s, es[0]), es[1..], i))
  }

  /** The version of an inode tells whether it was touched since a sample of the connection's counter. */
  lemma {:induction false} NewerIffTouched(s: Conn, es: seq<Event>, i: InodeId)
    requires Inv(s) && i in s.inodes
    ensures i in Run(s, es).inodes
    ensures if Touched(s, es, i) then Run(s, es).inodes[i].version > s.version
            else Run(s, es).inodes[i].version == s.inodes[i].version
    decreases |es|
  {
    if es != [] {
      var t := Next(s, es[0]);
      NextInv(s, es[0]);
      NewerIffTouched(t, es[1..], i);
      VersionsGrow(t, es[1..], i);
    }
  }

  // ---------------------------------------------------------------- stale replies

  /** Exactly when a reply is applied: its sender took a sample of the counter (fuse_get_attr_version)
      in state s, the events `es` came in between, and inode i was not touched since the sample, nor is
      its size being changed. */
  lemma {:induction false} AppliedIffUntouched(s: Conn, es: seq<Event>, i: InodeId, attr: Attr)
    requires Inv(s) && i in s.inodes
    ensures var t := Run(s, es);
      && i in t.inodes && Enabled(t, EChangeAttributes(i, attr, s.version))
      && (Bumps(t, EChangeAttributes(i, attr, s.version)) <==> !Touched(s, es, i) && !t.inodes[i].unstable)
      && (!Bumps(t, EChangeAttributes(i, attr, s.version)) ==> Next(t, EChangeAttributes(i, attr, s.version)) == t)
  {
    NewerIffTouched(s, es, i);
    var t := Run(s, es);
    var e := EChangeAttributes(i, attr, s.version);
    if Stale(t.inodes[i], s.version) { assert Next(t, e).inodes == t.inodes; }
  }

  /** A change of size or link count advances the version, except where the link count is cleared. */
  lemma ChangesBump(s: Conn, e: Event, i: InodeId)
    requires i in s.inodes
    requires var t := Next(s, e); t.inodes[i].size != s.inodes[i].size || t.inodes[i].nlink != s.inodes[i].nlink
    ensures Enabled(s, e) && e.i == i && (Bumps(s, e) <==> !e.EClearNlink?)
  {
  }

  /** So a reply whose sample is older than a local change is dropped when it comes after it, whatever
      happened before, in between and since. */
  lemma {:induction false} StaleReplyDropped(s: Conn, before: seq<Event>, change: Event, after: seq<Event>, i: InodeId, attr: Attr)
    requires Inv(s) && i in s.inodes && !change.EClearNlink?
    requires var t := Run(s, before);
      i in t.inodes && i in Next(t, change).inodes &&
      (Next(t, change).inodes[i].size != t.inodes[i].size || Next(t, change).inodes[i].nlink != t.inodes[i].nlink)
    ensures var u := Run(Next(Run(s, before), change), after);
      Next(u, EChangeAttributes(i, attr, s.version)) == u
  {
    var t := Run(s, before);
    VersionsGrow(s, before, i);
    ChangesBump(t, change, i);
    NextInv(t, change);
    var t' := Next(t, change);
    VersionsGrow(t', after, i);
    var u := Run(t', after);
    assert t'.inodes[i].version == t.version + 1 > s.version;
    assert Stale(u.inodes[i], s.version) && Next(u, EChangeAttributes(i, attr, s.version)).inodes == u.inodes;
  }

  /** fuse_rmdir clears the link count without advancing the version, so this fails for it: a reply that
      is older than the removal is applied after it and brings the link count back, exactly if nothing
      else touched the directory since the reply's sample. */
  lemma {:induction false} RmdirUndone(s: Conn, before: seq<Event>, i: InodeId, attr: Attr)
    requires Inv(s) && i in s.inodes && attr.nlink > 0
    ensures i in Run(s, before).inodes
    ensures var t := Next(Run(s, before), EClearNlink(i));
      && i in t.inodes && t.inodes[i].nlink == 0
      && (Next(t, EChangeAttributes(i, attr, s.version)).inodes[i].nlink == attr.nlink
          <==> !Touched(s, before, i) && !Run(s, before).inodes[i].unstable)
  {
    NewerIffTouched(s, before, i);
  }

  /** create_new_entry passes the sample 0, and its reply is applied whatever happened before. */
  lemma ZeroSampleApplies(s: Conn, i: InodeId, attr: Attr)
    requires i in s.inodes
    ensures Enabled(s, EChangeAttributes(i, attr, 0))
    ensures Bumps(s, EChangeAttributes(i, attr, 0)) <==> !s.inodes[i].unstable
    ensures !s.inodes[i].unstable ==> Next(s, EChangeAttributes(i, attr, 0)).inodes[i].nlink == attr.nlink
  {
  }

  // ---------------------------------------------------------------- short reads

  /** Exactly when a short read shrinks the file. Its sample was taken in state s: the inode must then
      have been the one that changed last on the connection, must not have been touched since, and its
      size must not be under change. */
  lemma {:induction false} ShortReadShrinks(s: Conn, es: seq<Event>, i: InodeId, size: nat)
    requires Inv(s) && i in s.inodes
    ensures i in Run(s, es).inodes
    ensures var t := Run(s, es);
      Next(t, EReadUpdateSize(i, size, s.version)).inodes[i].size < t.inodes[i].size
      <==> s.inodes[i].version == s.version && !Touched(s, es, i) && size < t.inodes[i].size && !t.inodes[i].unstable
  {
    NewerIffTouched(s, es, i);
  }

  /** An unchanged inode is not enough: once another inode has changed, a short read of the first no
      longer shrinks it, though nothing has happened to it. */
  lemma UnchangedMayNotShrink()
    ensures var s0 := Next(Next(Init(false), ENewInode(1, true, Attr(10, 1))), EChangeAttributes(1, Attr(10, 1), 0));
      var s := Next(Next(s0, ENewInode(2, true, Attr(0, 1))), EWriteUpdateSize(2, 5));
      && s.inodes[1] == s0.inodes[1] && !s.inodes[1].unstable && 3 < s.inodes[1].size
      && Next(s, EReadUpdateSize(1, 3, s.version)).inodes[1].size == s.inodes[1].size
  {
  }

  // ---------------------------------------------------------------- the fields, updated in place

  class FuseConn {
    const writeback: bool
    var attrVersion: nat

    constructor (writeback: bool)
      ensures this.writeback == writeback && attrVersion == Init(writeback).version == 1
    {
      this.writeback, attrVersion := writeback, 1;
    }

    /** fuse_get_attr_version. */
    method GetAttrVersion() returns (v: nat)
      ensures v == attrVersion
    {
      v := attrVersion;
    }
  }

  class FuseInode {
    const fc: FuseConn
    const regular: bool
    var attrVersion: nat
    var iSize: nat
    var nlink: nat
    var unstable: bool

    ghost function View(): Inode
      reads this
    {
      Inode(attrVersion, iSize, nlink, regular, unstable)
    }

    /** The connection as this inode sees it. */
    ghost function Alone(): Conn
      reads this, fc
    {
      Conn(fc.attrVersion, fc.writeback, map[0 := View()])
    }

    ghost predicate Did(before: Conn, e: Event)
      reads this, fc
    {
      Alone().version == Next(before, e).version && 0 in Next(before, e).inodes && View() == Next(before, e).inodes[0]
    }

    constructor (fc: FuseConn, regular: bool, attr: Attr)
      ensures this.fc == fc && View() == NewInode(Init(fc.writeback), ENewInode(0, regular, attr))
      ensures View() == Inode(0, attr.size, 1, regular, false)
    {
      this.fc, this.regular := fc, regular;
      attrVersion, iSize, nlink, unstable := 0, attr.size, 1, false;
    }

    /** fuse_change_attributes. */
    method ChangeAttributes(attr: Attr, sampled: nat)
      modifies this, fc
      ensures Did(old(Alone()), EChangeAttributes(0, attr, sampled))
      ensures
        if old(unstable) || 0 < sampled < old(attrVersion) then View() == old(View()) && fc.attrVersion == old(fc.attrVersion)
        else
          && attrVersion == fc.attrVersion == old(fc.attrVersion) + 1 && nlink == attr.nlink
          && iSize == if fc.writeback && regular then old(iSize) else attr.size
    {
      if (sampled != 0 && attrVersion > sampled) || unstable { return; }
      fc.attrVersion := fc.attrVersion + 1;
      attrVersion, nlink := fc.attrVersion, attr.nlink;
      if !fc.writeback || !regular { iSize := attr.size; }
    }

    /** The locked part of fuse_do_setattr. */
    method Setattr(attr: Attr, truncate: bool)
      modifies this, fc
      ensures Did(old(Alone()), ESetattr(0, attr, truncate))
      ensures attrVersion == fc.attrVersion == old(fc.attrVersion) + 1 && nlink == attr.nlink
      ensures iSize == if fc.writeback && regular && !truncate then old(iSize) else attr.size
    {
      fc.attrVersion := fc.attrVersion + 1;
      attrVersion, nlink := fc.attrVersion, attr.nlink;
      if !fc.writeback || truncate || !regular { iSize := attr.size; }
    }

    /** fuse_write_update_size. */
    method WriteUpdateSize(pos: nat) returns (grew: bool)
      modifies this, fc
      ensures Did(old(Alone()), EWriteUpdateSize(0, pos)) && grew == (pos > old(iSize))
      ensures iSize == (if grew then pos else old(iSize)) && attrVersion == fc.attrVersion == old(fc.attrVersion) + 1
    {
      fc.attrVersion := fc.attrVersion + 1;
      attrVersion := fc.attrVersion;
      grew := pos > iSize;
      if grew { iSize := pos; }
    }

    /** fuse_read_update_size. */
    method ReadUpdateSize(size: nat, sampled: nat)
      modifies this, fc
      ensures Did(old(Alone()), EReadUpdateSize(0, size, sampled))
      ensures iSize == if sampled == old(attrVersion) && size < old(iSize) && !unstable then size else old(iSize)
    {
      if sampled == attrVersion && size < iSize && !unstable {
        fc.attrVersion := fc.attrVersion + 1;
        attrVersion, iSize := fc.attrVersion, size;
      }
    }

    /** The locked part of fuse_unlink. */
    method Unlinked()
      modifies this, fc
      ensures Did(old(Alone()), EUnlink(0)) && attrVersion == old(fc.attrVersion) + 1
      ensures if old(nlink) > 0 then nlink + 1 == old(nlink) else nlink == 0
    {
      fc.attrVersion := fc.attrVersion + 1;
      attrVersion := fc.attrVersion;
      if nlink > 0 { nlink := nlink - 1; }
    }

    /** The locked part of fuse_link. */
    method Linked()
      modifies this, fc
      ensures Did(old(Alone()), ELink(0)) && attrVersion == old(fc.attrVersion) + 1 && nlink == old(nlink) + 1
    {
      fc.attrVersion := fc.attrVersion + 1;
      attrVersion, nlink := fc.attrVersion, nlink + 1;
    }

    /** clear_nlink in fuse_rmdir, outside the lock. */
    method ClearNlink()
      modifies this`nlink
      ensures Did(old(Alone()), EClearNlink(0)) && nlink == 0
    {
      nlink := 0;
    }
  }
}
