/** What is on a Files-11 volume, as far as a crash can tell: the headers, the
    two bitmaps and the directory blocks.  A volume is sound when every
    directory entry names a file that is there, every extension link the next
    header of its file, and every cluster a header maps is allocated and no
    other header's. */
module Disk {
  import opened Directory
  import Bitmap

  /** What a header's link count holds. */
  type U16 = x: int | 0 <= x <= MAX_LINKS

  const MAX_LINKS := 0xffff

  /** A header.  at is the clusters its pointers give, in order; base how many
      the headers before it map, and file the file's ID, its own in a primary
      header.  eof is the blocks a directory uses, in its primary header.  back
      is the back link, to a directory that lists the file, and links how many
      entries it has, where the volume counts them. */
  datatype Header = Header(seqno: int, seg: nat, file: Fid, base: nat, at: seq<nat>, ext: Option<Fid>, dir: bool,
                           eof: nat, back: Fid, links: U16)

  /** live has the headers in use, by file number, and dead the sequence numbers
      of the deleted ones; used is the index file bitmap; bits the storage
      bitmap, true where a cluster is free; and data the directory blocks, by
      cluster and block of the cluster. */
  datatype Disk = Disk(live: map<int, Header>, dead: map<int, int>, used: set<int>, indexEof: int, bits: seq<bool>,
                       data: map<(nat, nat), Block>)

  // ---------------------------------------------------------------------
  // Soundness
  // ---------------------------------------------------------------------

  /** The file ID is a file's: a live primary header with its sequence number. */
  predicate Named(d: Disk, f: Fid) {
    f.num in d.live && d.live[f.num].seqno == f.seqno && d.live[f.num].seg == 0
  }

  predicate Good(d: Disk, b: Block) {
    forall r <- b.recs, e <- r.entries :: Named(d, e.fid)
  }

  // A virtual block, from its cluster's place in the file.
  function Vbn(v: nat, k: nat, j: nat): nat { k * v + j }

  /** Block j of the i-th cluster of header n is one a directory uses. */
  predicate Uses(v: nat, d: Disk, n: int, i: nat, j: nat) {
    && n in d.live && i < |d.live[n].at| && j < v
    && Named(d, d.live[n].file) && d.live[d.live[n].file.num].dir
    && Vbn(v, d.live[n].base + i, j) < d.live[d.live[n].file.num].eof
  }

  // The directory block there, if one was written.
  function BlockAt(d: Disk, n: int, i: nat, j: nat): Block
    requires n in d.live && i < |d.live[n].at|
  {
    if (d.live[n].at[i], j) in d.data then d.data[(d.live[n].at[i], j)] else Block([], 0)
  }

  /** Every entry of every directory names a file that is there. */
  ghost predicate Shown(v: nat, d: Disk) {
    forall n, i: nat, j: nat | Uses(v, d, n, i, j) :: Good(d, BlockAt(d, n, i, j))
  }

  predicate Linked(d: Disk, h: Header) {
    h.ext.Some? ==>
      && h.ext.value.num in d.live
      && var e := d.live[h.ext.value.num];
      e.seqno == h.ext.value.seqno && e.seg == h.seg + 1 && e.file == h.file && e.base == h.base + |h.at|
  }

  /** Every extension link names the file's next header. */
  ghost predicate Links(d: Disk) { forall n <- d.live :: Linked(d, d.live[n]) }

  predicate Allocated(d: Disk, h: Header) { forall c <- h.at :: c < |d.bits| && !d.bits[c] }

  /** Every cluster mapped is marked allocated. */
  ghost predicate Held(d: Disk) { forall n <- d.live :: Allocated(d, d.live[n]) }

  predicate Distinct(m: seq<nat>) { forall i, j | 0 <= i < j < |m| :: m[i] != m[j] }

  predicate Apart(a: seq<nat>, b: seq<nat>) { forall c <- a :: c !in b }

  /** No cluster is mapped twice. */
  ghost predicate Disjoint(d: Disk) {
    && (forall n <- d.live :: Distinct(d.live[n].at))
    && (forall n <- d.live, m <- d.live | n != m :: Apart(d.live[n].at, d.live[m].at))
  }

  ghost predicate Sound(v: nat, d: Disk) { Shown(v, d) && Links(d) && Held(d) && Disjoint(d) }

  // ---------------------------------------------------------------------
  // What a block write may do
  // ---------------------------------------------------------------------

  /** Taking clusters spoils nothing. */
  lemma BitsTaken(v: nat, d: Disk, bits: seq<bool>)
    requires Sound(v, d) && |bits| == |d.bits| && forall c | 0 <= c < |bits| :: bits[c] ==> d.bits[c]
    ensures Sound(v, d.(bits := bits))
  {
    SameHeaders(v, d, d.(bits := bits));
  }

  /** Nor does freeing those that no header maps. */
  lemma BitsGiven(v: nat, d: Disk, bits: seq<bool>)
    requires Sound(v, d) && |bits| == |d.bits|
    requires forall c | 0 <= c < |bits| && bits[c] != d.bits[c] :: forall n <- d.live :: c !in d.live[n].at
    ensures Sound(v, d.(bits := bits))
  {
    SameHeaders(v, d, d.(bits := bits));
  }

  // Headers and directory blocks as they were.
  lemma SameHeaders(v: nat, d: Disk, d': Disk)
    requires d'.live == d.live && d'.data == d.data && Sound(v, d)
    ensures Shown(v, d') && Links(d') && Disjoint(d')
  {
    forall n, i: nat, j: nat | Uses(v, d', n, i, j)
      ensures Good(d', BlockAt(d', n, i, j))
    {
      assert Uses(v, d, n, i, j);
    }
    assert forall n <- d.live :: Linked(d, d.live[n]) ==> Linked(d', d.live[n]);
  }

  /** The index file's bitmap and end of file name nothing. */
  lemma IndexWritten(v: nat, d: Disk, used: set<int>, dead: map<int, int>, eof: int)
    requires Sound(v, d)
    ensures Sound(v, d.(used := used, dead := dead, indexEof := eof))
  {
    SameHeaders(v, d, d.(used := used, dead := dead, indexEof := eof));
  }

  /** A directory block may go anywhere if all it names is there. */
  lemma BlockWritten(v: nat, d: Disk, c: nat, j: nat, b: Block)
    requires Sound(v, d) && Good(d, b)
    ensures Sound(v, d.(data := d.data[(c, j) := b]))
  {
    var d' := d.(data := d.data[(c, j) := b]);
    forall n, i: nat, k: nat | Uses(v, d', n, i, k)
      ensures Good(d', BlockAt(d', n, i, k))
    {
      assert Uses(v, d, n, i, k);
      assert Good(d, BlockAt(d', n, i, k));
    }
    assert forall n <- d.live :: Linked(d, d.live[n]) ==> Linked(d', d.live[n]);
  }

  lemma JoinDistinct(a: seq<nat>, b: seq<nat>)
    requires Distinct(a) && Distinct(b) && Apart(a, b)
    ensures Distinct(a + b)
  {
    forall i, j | 0 <= i < j < |a + b|
      ensures (a + b)[i] != (a + b)[j]
    {
      if i < |a| <= j { assert (a + b)[i] in a && (a + b)[j] in b; }
    }
  }

  lemma SplitDistinct(a: seq<nat>, b: seq<nat>)
    requires Distinct(a + b)
    ensures Distinct(a) && Distinct(b) && Apart(a, b)
  {
    var s := a + b;
    forall i, j | 0 <= i < j < |a|
      ensures a[i] != a[j]
    {
      assert s[i] == a[i] && s[j] == a[j];
    }
    forall i, j | 0 <= i < j < |b|
      ensures b[i] != b[j]
    {
      assert s[|a| + i] == b[i] && s[|a| + j] == b[j];
    }
    forall c | c in a
      ensures c !in b
    {
      var i :| 0 <= i < |a| && a[i] == c;
      forall j | 0 <= j < |b|
        ensures b[j] != c
      {
        assert s[i] == c && s[|a| + j] == b[j];
      }
    }
  }

  // A header's clusters, allocated and no other header's.
  ghost predicate Fits(d: Disk, n: int, h: Header) {
    Allocated(d, h) && Distinct(h.at) && forall m <- d.live | m != n :: Apart(h.at, d.live[m].at)
  }

  lemma ApartSymmetric(a: seq<nat>, b: seq<nat>)
    requires Apart(a, b)
    ensures Apart(b, a)
  {
  }

  lemma FitsDisjoint(d: Disk, n: int, h: Header)
    requires Held(d) && Disjoint(d) && Fits(d, n, h)
    ensures Held(d.(live := d.live[n := h])) && Disjoint(d.(live := d.live[n := h]))
  {
    hide Apart, Distinct;
    var d' := d.(live := d.live[n := h]);
    forall m | m in d'.live
      ensures Allocated(d', d'.live[m])
    {
      assert m != n ==> Allocated(d, d.live[m]);
    }
    forall m, k | m in d'.live && k in d'.live && m != k
      ensures Apart(d'.live[m].at, d'.live[k].at)
    {
      if k == n { ApartSymmetric(h.at, d.live[m].at); }
    }
  }

  /** A header goes in an empty slot: nothing refers to it yet. */
  lemma HeaderAdded(v: nat, d: Disk, n: int, h: Header)
    requires Sound(v, d) && n !in d.live && Fits(d, n, h) && Linked(d, h)
    requires forall m <- d.live :: d.live[m].file != Fid(n, h.seqno)
    requires var d' := d.(live := d.live[n := h]);
      forall i: nat, j: nat | Uses(v, d', n, i, j) :: Good(d, BlockAt(d', n, i, j))
    ensures Sound(v, d.(live := d.live[n := h]))
  {
    hide Fits, Held, Disjoint, Vbn;
    var d' := d.(live := d.live[n := h]);
    FitsDisjoint(d, n, h);
    assert forall f :: Named(d, f) ==> Named(d', f);
    forall m | m in d'.live
      ensures Linked(d', d'.live[m])
    {
      assert Linked(d, if m == n then h else d.live[m]);
    }
    forall m, i: nat, j: nat | Uses(v, d', m, i, j)
      ensures Good(d', BlockAt(d', m, i, j))
    {
      if m != n {
        assert Uses(v, d, m, i, j);
        assert Good(d, BlockAt(d, m, i, j));
      }
    }
  }

  /** A header deleted that nothing links to and no directory entry names. */
  lemma HeaderKilled(v: nat, d: Disk, n: int)
    requires Sound(v, d) && n in d.live
    requires forall m <- d.live :: d.live[m].ext.Some? ==> d.live[m].ext.value.num != n
    requires d.live[n].seg == 0 ==> UnlistedElsewhere(v, d, Fid(n, d.live[n].seqno))
    ensures Sound(v, d.(live := d.live - {n}))
  {
    hide Vbn;
    var d' := d.(live := d.live - {n});
    forall m | m in d'.live
      ensures Linked(d', d'.live[m])
    {
      assert Linked(d, d.live[m]);
    }
    forall m, i: nat, j: nat | Uses(v, d', m, i, j)
      ensures Good(d', BlockAt(d', m, i, j))
    {
      assert Uses(v, d, m, i, j);
      var b := BlockAt(d, m, i, j);
      assert Good(d, b);
      forall r, e | r in b.recs && e in r.entries
        ensures Named(d', e.fid)
      {
        assert Named(d, e.fid);
      }
    }
    assert forall m <- d'.live :: Allocated(d, d.live[m]);
  }

  // Nor has any directory but the file itself.
  ghost predicate UnlistedElsewhere(v: nat, d: Disk, f: Fid) {
    forall n, i: nat, j: nat | Uses(v, d, n, i, j) && d.live[n].file != f ::
      forall r <- BlockAt(d, n, i, j).recs, e <- r.entries :: e.fid != f
  }

  /** No directory has an entry for the file. */
  ghost predicate Unlisted(v: nat, d: Disk, f: Fid) {
    forall n, i: nat, j: nat | Uses(v, d, n, i, j) ::
      forall r <- BlockAt(d, n, i, j).recs, e <- r.entries :: e.fid != f
  }

  /** A header rewritten in place, with the same ID, segment and place. */
  ghost predicate SameIdentity(h: Header, h': Header) {
    h'.seqno == h.seqno && h'.seg == h.seg && h'.file == h.file && h'.base == h.base && h'.dir == h.dir
  }

  lemma HeaderSet(v: nat, d: Disk, n: int, h: Header)
    requires Sound(v, d) && n in d.live && SameIdentity(d.live[n], h) && Fits(d, n, h) && Linked(d, h)
    requires var d' := d.(live := d.live[n := h]);
      forall m, i: nat, j: nat | Uses(v, d', m, i, j) :: Good(d, BlockAt(d', m, i, j))
    ensures Sound(v, d.(live := d.live[n := h]))
  {
    hide Fits, Held, Disjoint, Vbn;
    var d' := d.(live := d.live[n := h]);
    FitsDisjoint(d, n, h);
    assert forall f :: Named(d, f) <==> Named(d', f);
    forall m | m in d'.live
      ensures Linked(d', d'.live[m])
    {
      assert Linked(d, d'.live[m]);
    }
    forall m, i: nat, j: nat | Uses(v, d', m, i, j)
      ensures Good(d', BlockAt(d', m, i, j))
    {
      assert Good(d, BlockAt(d', m, i, j));
    }
  }

  // ---------------------------------------------------------------------
  // Headers rewritten
  // ---------------------------------------------------------------------

  lemma VbnPast(v: nat, a: nat, b: nat, j: nat)
    requires a <= b
    ensures Vbn(v, a, 0) <= Vbn(v, b, j)
  {
    assert b * v == a * v + (b - a) * v;
  }

  /** The directory's end of file is not past this header's clusters. */
  predicate EndsWithin(v: nat, d: Disk, h: Header) {
    Named(d, h.file) && d.live[h.file.num].dir ==> d.live[h.file.num].eof <= Vbn(v, h.base + |h.at|, 0)
  }

  /** Clusters added to a file's last header, with a link to the next where
      there is one. */
  lemma HeaderExtended(v: nat, d: Disk, n: int, more: seq<nat>, link: Option<Fid>)
    requires Sound(v, d) && n in d.live && EndsWithin(v, d, d.live[n])
    requires var h := d.live[n].(at := d.live[n].at + more, ext := link); Fits(d, n, h) && Linked(d, h)
    ensures Sound(v, d.(live := d.live[n := d.live[n].(at := d.live[n].at + more, ext := link)]))
  {
    hide Vbn, Fits, Linked;
    var h := d.live[n];
    var h' := h.(at := h.at + more, ext := link);
    var d' := d.(live := d.live[n := h']);
    forall m, i: nat, j: nat | Uses(v, d', m, i, j)
      ensures Good(d, BlockAt(d', m, i, j))
    {
      assert Named(d, d'.live[m].file);
      if m == n {
        if i >= |h.at| { VbnPast(v, h.base + |h.at|, h.base + i, j); }
        assert Uses(v, d, n, i, j) && h'.at[i] == h.at[i];
      } else {
        assert Uses(v, d, m, i, j);
      }
      assert BlockAt(d', m, i, j) == BlockAt(d, m, i, j);
    }
    HeaderSet(v, d, n, h');
  }

  /** A header keeps its first clusters and links to nothing; a directory's end
      of file may go back. */
  lemma HeaderCut(v: nat, d: Disk, n: int, keep: nat, eof: nat)
    requires Sound(v, d) && n in d.live && keep <= |d.live[n].at| && eof <= d.live[n].eof
    ensures Sound(v, d.(live := d.live[n := d.live[n].(at := d.live[n].at[..keep], ext := None, eof := eof)]))
  {
    hide Vbn;
    var h := d.live[n];
    var h' := h.(at := h.at[..keep], ext := None, eof := eof);
    var d' := d.(live := d.live[n := h']);
    FewerFit(d, n, keep);
    forall m, i: nat, j: nat | Uses(v, d', m, i, j)
      ensures Good(d, BlockAt(d', m, i, j))
    {
      assert Uses(v, d, m, i, j);
      assert BlockAt(d', m, i, j) == BlockAt(d, m, i, j);
    }
    HeaderSet(v, d, n, h');
  }

  lemma FewerFit(d: Disk, n: int, keep: nat)
    requires Held(d) && Disjoint(d) && n in d.live && keep <= |d.live[n].at|
    ensures forall ext, eof :: Fits(d, n, d.live[n].(at := d.live[n].at[..keep], ext := ext, eof := eof))
  {
    var h := d.live[n];
    assert Allocated(d, h);
    assert forall c <- h.at[..keep] :: c in h.at;
    forall ext, eof
      ensures Fits(d, n, h.(at := h.at[..keep], ext := ext, eof := eof))
    {
      var h' := h.(at := h.at[..keep], ext := ext, eof := eof);
      assert Distinct(h'.at);
      forall m | m in d.live && m != n
        ensures Apart(h'.at, d.live[m].at)
      {
        assert Apart(h.at, d.live[m].at);
      }
    }
  }

  /** A directory's end of file moves, over blocks that name what is there. */
  lemma EofMoved(v: nat, d: Disk, n: int, eof: nat)
    requires Sound(v, d) && n in d.live
    requires var d' := d.(live := d.live[n := d.live[n].(eof := eof)]);
      forall m, i: nat, j: nat | Uses(v, d', m, i, j) && !Uses(v, d, m, i, j) :: Good(d, BlockAt(d', m, i, j))
    ensures Sound(v, d.(live := d.live[n := d.live[n].(eof := eof)]))
  {
    hide Vbn;
    var h := d.live[n];
    var h' := h.(eof := eof);
    var d' := d.(live := d.live[n := h']);
    WholeFits(d, n, eof);
    forall m, i: nat, j: nat | Uses(v, d', m, i, j)
      ensures Good(d, BlockAt(d', m, i, j))
    {
      assert BlockAt(d', m, i, j) == BlockAt(d, m, i, j);
      if Uses(v, d, m, i, j) { assert Good(d, BlockAt(d, m, i, j)); }
    }
    assert Linked(d, h);
    HeaderSet(v, d, n, h');
  }

  lemma WholeFits(d: Disk, n: int, eof: nat)
    requires Held(d) && Disjoint(d) && n in d.live
    ensures Fits(d, n, d.live[n].(eof := eof))
  {
    assert Allocated(d, d.live[n]);
  }

  /** A directory in one header goes to a new place: its blocks there name what
      is there. */
  lemma DirectoryMoved(v: nat, d: Disk, n: int, at: seq<nat>, eof: nat)
    requires Sound(v, d) && n in d.live && d.live[n].seg == 0 && d.live[n].file == Fid(n, d.live[n].seqno)
    requires forall m <- d.live | m != n :: d.live[m].file != d.live[n].file
    requires Fits(d, n, d.live[n].(at := at, ext := None, eof := eof))
    requires forall i: nat, j: nat | i < |at| && j < v && Vbn(v, d.live[n].base + i, j) < eof && (at[i], j) in d.data ::
      Good(d, d.data[(at[i], j)])
    ensures Sound(v, d.(live := d.live[n := d.live[n].(at := at, ext := None, eof := eof)]))
  {
    hide Vbn, Fits;
    var h' := d.live[n].(at := at, ext := None, eof := eof);
    var d' := d.(live := d.live[n := h']);
    forall m, i: nat, j: nat | Uses(v, d', m, i, j)
      ensures Good(d, BlockAt(d', m, i, j))
    {
      if m != n {
        assert Uses(v, d, m, i, j);
        assert BlockAt(d', m, i, j) == BlockAt(d, m, i, j);
      }
    }
    HeaderSet(v, d, n, h');
  }

  // ---------------------------------------------------------------------
  // Consistency
  // ---------------------------------------------------------------------

  // A live header's number is marked in use, and within the index file.
  ghost predicate Numbered(d: Disk) { forall n <- d.live :: n in d.used && 0 < n < d.indexEof }

  // A primary header is its own file's; an extension header is a file's.
  predicate Typed(d: Disk, n: int)
    requires n in d.live
  {
    var h := d.live[n];
    (h.seg == 0 ==> h.file == Fid(n, h.seqno) && h.base == 0) && (h.seg > 0 ==> Named(d, h.file))
  }

  ghost predicate AllTyped(d: Disk) { forall n <- d.live :: Typed(d, n) }

  predicate LinksTo(d: Disk, p: int, n: int) {
    p in d.live && d.live[p].ext.Some? && d.live[p].ext.value.num == n
  }

  // Each extension header has one link to it.
  ghost predicate OneLink(d: Disk) {
    && (forall p, q, n | LinksTo(d, p, n) && LinksTo(d, q, n) :: p == q)
    && (forall n <- d.live | d.live[n].seg > 0 :: exists p :: LinksTo(d, p, n))
  }

  ghost predicate Ended(v: nat, d: Disk) {
    forall n <- d.live | d.live[n].ext.None? :: EndsWithin(v, d, d.live[n])
  }

  /** What an operation starts from and leaves. */
  ghost predicate Consistent(v: nat, d: Disk) {
    Sound(v, d) && Numbered(d) && AllTyped(d) && OneLink(d) && Ended(v, d)
  }

  predicate Owned(d: Disk, c: nat) { exists n <- d.live :: c in d.live[n].at }

  /** Every cluster is free or a file's, but for those in the set. */
  ghost predicate Conserved(d: Disk, but: set<nat>) {
    forall c | 0 <= c < |d.bits| && !d.bits[c] :: Owned(d, c) || c in but
  }

  /** Where nothing is lost, a cluster is free just when no header maps it, and
      one header at most does, in one place. */
  lemma EachOnce(v: nat, d: Disk, c: nat)
    requires Sound(v, d) && Conserved(d, {}) && c < |d.bits|
    ensures d.bits[c] <==> !Owned(d, c)
    ensures forall n <- d.live, m <- d.live | c in d.live[n].at && c in d.live[m].at :: n == m
    ensures forall n <- d.live, i, j | 0 <= i < |d.live[n].at| && 0 <= j < |d.live[n].at|
      && d.live[n].at[i] == d.live[n].at[j] == c :: i == j
  {
    hide Shown, Links;
    if Owned(d, c) {
      var n :| n in d.live && c in d.live[n].at;
      assert Allocated(d, d.live[n]);
    }
    forall n, m | n in d.live && m in d.live && c in d.live[n].at && c in d.live[m].at
      ensures n == m
    {
    }
    forall n, i, j | n in d.live && 0 <= i < |d.live[n].at| && 0 <= j < |d.live[n].at|
      && d.live[n].at[i] == d.live[n].at[j] == c
      ensures i == j
    {
      assert Distinct(d.live[n].at);
    }
  }

  /** The bitmaps do not matter to the rest of it. */
  lemma ConsistentBits(v: nat, d: Disk, bits: seq<bool>)
    requires Consistent(v, d) && Sound(v, d.(bits := bits))
    ensures Consistent(v, d.(bits := bits))
  {
    hide Sound, Vbn;
    var d' := d.(bits := bits);
    assert forall n <- d.live :: Typed(d, n) ==> Typed(d', n);
    assert forall p, n :: LinksTo(d', p, n) <==> LinksTo(d, p, n);
    assert forall n <- d.live :: EndsWithin(v, d, d.live[n]) ==> EndsWithin(v, d', d.live[n]);
  }

  lemma ConsistentIndex(v: nat, d: Disk, used: set<int>, dead: map<int, int>, eof: int)
    requires Consistent(v, d) && eof >= d.indexEof && forall n <- d.live :: n in used
    ensures Consistent(v, d.(used := used, dead := dead, indexEof := eof))
  {
    hide Sound, Vbn;
    var d' := d.(used := used, dead := dead, indexEof := eof);
    IndexWritten(v, d, used, dead, eof);
    assert forall n <- d.live :: Typed(d, n) ==> Typed(d', n);
    assert forall p, n :: LinksTo(d', p, n) <==> LinksTo(d, p, n);
    assert forall n <- d.live :: EndsWithin(v, d, d.live[n]) ==> EndsWithin(v, d', d.live[n]);
  }

  lemma ConsistentData(v: nat, d: Disk, data: map<(nat, nat), Block>)
    requires Consistent(v, d) && Sound(v, d.(data := data))
    ensures Consistent(v, d.(data := data))
  {
    hide Sound, Vbn;
    var d' := d.(data := data);
    assert forall n <- d.live :: Typed(d, n) ==> Typed(d', n);
    assert forall p, n :: LinksTo(d', p, n) <==> LinksTo(d, p, n);
    assert forall n <- d.live :: EndsWithin(v, d, d.live[n]) ==> EndsWithin(v, d', d.live[n]);
  }

  // ---------------------------------------------------------------------
  // A file's headers
  // ---------------------------------------------------------------------

  /** The file's headers, primary first. */
  ghost predicate Chain(d: Disk, f: Fid, nums: seq<int>) {
    && nums != [] && nums[0] == f.num && Named(d, f)
    && (forall i | 0 <= i < |nums| :: nums[i] in d.live && d.live[nums[i]].seg == i && d.live[nums[i]].file == f)
    && (forall i | 0 <= i < |nums| - 1 :: d.live[nums[i]].ext == Some(Fid(nums[i + 1], d.live[nums[i + 1]].seqno)))
    && d.live[nums[|nums| - 1]].ext.None?
  }

  lemma {:induction false} NoMoreThan(nums: seq<int>, keys: set<int>)
    requires (forall n <- nums :: n in keys) && forall i, j | 0 <= i < j < |nums| :: nums[i] != nums[j]
    ensures |nums| <= |keys|
  {
    if nums != [] {
      var l := |nums| - 1;
      assert forall i | 0 <= i < l :: nums[..l][i] == nums[i] && nums[i] != nums[l];
      NoMoreThan(nums[..l], keys - {nums[l]});
      assert nums[l] in nums;
    }
  }
}
