/** A directory on the disk: its blocks in order, through its map.  What each
    way of writing an update does to them, and to nothing else. */
module DirDisk {
  import opened Disk
  import opened Directory
  import opened Numbers

  // A block as it is read back: its records, and the rest of it.
  function Parsed(b: Block): Block {
    Block(b.recs, if Used(b.recs) <= BLOCK then BLOCK - Used(b.recs) else 0)
  }

  /** A directory in one header, its end of file within its clusters. */
  predicate IsDir(v: nat, d: Disk, n: int) {
    && v > 0 && n in d.live && d.live[n].dir && d.live[n].seg == 0 && d.live[n].base == 0 && d.live[n].ext.None?
    && d.live[n].file == Fid(n, d.live[n].seqno) && d.live[n].eof <= Vbn(v, |d.live[n].at|, 0)
  }

  // The cluster of a file a virtual block is in, and which of its blocks it is.
  function Quot(k: nat, v: nat): nat
    requires v > 0
  {
    k / v
  }

  function Rem(k: nat, v: nat): nat
    requires v > 0
  {
    k % v
  }

  lemma VbnAt(v: nat, k: nat)
    requires v > 0
    ensures Vbn(v, Quot(k, v), Rem(k, v)) == k && Rem(k, v) < v
  {
  }

  lemma VbnIs(v: nat, i: nat, j: nat)
    requires j < v
    ensures Quot(Vbn(v, i, j), v) == i && Rem(Vbn(v, i, j), v) == j
  {
    DivModUnique(Vbn(v, i, j), i, j, v);
  }

  lemma VbnBelow(v: nat, k: nat, n: nat)
    requires v > 0 && k < Vbn(v, n, 0)
    ensures Quot(k, v) < n
  {
    var q := Quot(k, v);
    assert q * v == n * v + (q - n) * v && (q >= n ==> (q - n) * v >= 0);
  }

  /** The directory's blocks, in order. */
  function DirBlocks(v: nat, d: Disk, n: int): (bs: seq<Block>)
    requires IsDir(v, d, n)
    ensures |bs| == d.live[n].eof
  {
    seq(d.live[n].eof, k requires 0 <= k < d.live[n].eof => VbnBelow(v, k, |d.live[n].at|);
        Parsed(BlockAt(d, n, Quot(k, v), Rem(k, v))))
  }

  /** A directory the volume can list and change. */
  ghost predicate IsReadable(v: nat, d: Disk, n: int) {
    && IsDir(v, d, n) && Readable(DirBlocks(v, d, n))
    && (forall b <- DirBlocks(v, d, n), r <- b.recs :: |r.name| <= MAX_NAME)
  }

  /** Some used block of the header has the record. */
  ghost predicate Lists(v: nat, d: Disk, n: int, r: Rec) {
    exists i: nat, j: nat :: Uses(v, d, n, i, j) && r in BlockAt(d, n, i, j).recs
  }

  // The record has an entry for the file.
  predicate NamesFile(r: Rec, f: Fid) { exists e <- r.entries :: e.fid == f }

  lemma UnlistedIf(v: nat, d: Disk, f: Fid)
    requires forall n, r | Lists(v, d, n, r) :: !NamesFile(r, f)
    ensures Unlisted(v, d, f)
  {
    forall n, i: nat, j: nat | Uses(v, d, n, i, j)
      ensures forall r <- BlockAt(d, n, i, j).recs, e <- r.entries :: e.fid != f
    {
      forall r, e | r in BlockAt(d, n, i, j).recs && e in r.entries
        ensures e.fid != f
      {
        assert Lists(v, d, n, r);
      }
    }
  }

  lemma BlockIn(v: nat, d: Disk, n: int, i: nat, j: nat)
    requires IsDir(v, d, n) && Uses(v, d, n, i, j)
    ensures Vbn(v, i, j) < d.live[n].eof && DirBlocks(v, d, n)[Vbn(v, i, j)] == Parsed(BlockAt(d, n, i, j))
  {
    VbnIs(v, i, j);
  }

  lemma BlockOf(v: nat, d: Disk, n: int, k: nat)
    requires IsDir(v, d, n) && k < d.live[n].eof
    ensures Quot(k, v) < |d.live[n].at| && Uses(v, d, n, Quot(k, v), Rem(k, v))
    ensures DirBlocks(v, d, n)[k] == Parsed(BlockAt(d, n, Quot(k, v), Rem(k, v)))
  {
    VbnAt(v, k);
    VbnBelow(v, k, |d.live[n].at|);
  }

  lemma {:induction false} FlatHas(bs: seq<Block>, e: Entry)
    ensures HasEntry(Flat(bs), e) <==> exists k | 0 <= k < |bs| :: HasEntry(bs[k].recs, e)
  {
    if bs != [] {
      FlatHas(bs[1..], e);
      JoinHas(bs[0].recs, Flat(bs[1..]), e);
      if exists k | 0 <= k < |bs| :: HasEntry(bs[k].recs, e) {
        var k :| 0 <= k < |bs| && HasEntry(bs[k].recs, e);
        if k > 0 { assert bs[1..][k - 1] == bs[k]; }
      }
      if exists k | 0 <= k < |bs[1..]| :: HasEntry(bs[1..][k].recs, e) {
        var k :| 0 <= k < |bs[1..]| && HasEntry(bs[1..][k].recs, e);
        assert bs[1..][k] == bs[k + 1];
      }
    }
  }

  lemma JoinHas(a: seq<Rec>, b: seq<Rec>, e: Entry)
    ensures HasEntry(a + b, e) <==> HasEntry(a, e) || HasEntry(b, e)
  {
    if HasEntry(a, e) {
      var i :| 0 <= i < |a| && e in a[i].entries;
      assert (a + b)[i] == a[i];
    }
    if HasEntry(b, e) {
      var i :| 0 <= i < |b| && e in b[i].entries;
      assert (a + b)[|a| + i] == b[i];
    }
    if HasEntry(a + b, e) {
      var i :| 0 <= i < |a + b| && e in (a + b)[i].entries;
      if i < |a| { assert e in a[i].entries; } else { assert e in b[i - |a|].entries; }
    }
  }

  /** What a directory lists is what its blocks have. */
  lemma ListsAre(v: nat, d: Disk, n: int, r: Rec)
    requires IsDir(v, d, n)
    ensures Lists(v, d, n, r) <==> r in Flat(DirBlocks(v, d, n))
  {
    hide IsDir, DirBlocks, Flat, Vbn;
    var bs := DirBlocks(v, d, n);
    FlatIn(bs, r);
    if Lists(v, d, n, r) {
      var i: nat, j: nat :| Uses(v, d, n, i, j) && r in BlockAt(d, n, i, j).recs;
      BlockIn(v, d, n, i, j);
      assert r in bs[Vbn(v, i, j)].recs;
    }
    if r in Flat(bs) {
      var k :| 0 <= k < |bs| && r in bs[k].recs;
      BlockOf(v, d, n, k);
    }
  }

  /** On a sound volume every entry of the directory is a file's. */
  lemma EntriesNamed(v: nat, d: Disk, n: int, e: Entry)
    requires Sound(v, d) && IsDir(v, d, n) && HasEntry(Flat(DirBlocks(v, d, n)), e)
    ensures Named(d, e.fid)
  {
    hide IsDir, DirBlocks, Flat, Uses, Links, Held, Disjoint;
    var bs := DirBlocks(v, d, n);
    FlatHas(bs, e);
    var k :| 0 <= k < |bs| && HasEntry(bs[k].recs, e);
    BlockOf(v, d, n, k);
    var b := BlockAt(d, n, Quot(k, v), Rem(k, v));
    assert Good(d, b);
    var i :| 0 <= i < |b.recs| && e in b.recs[i].entries;
    assert b.recs[i] in b.recs;
  }

  lemma AllGood(d: Disk, bs: seq<Block>, k: nat)
    requires k < |bs| && forall e :: HasEntry(Flat(bs), e) ==> Named(d, e.fid)
    ensures Good(d, bs[k])
  {
    forall r, e | r in bs[k].recs && e in r.entries
      ensures Named(d, e.fid)
    {
      var i :| 0 <= i < |bs[k].recs| && bs[k].recs[i] == r;
      assert HasEntry(bs[k].recs, e);
      FlatHas(bs, e);
    }
  }

  // ---------------------------------------------------------------------
  // Writing a block
  // ---------------------------------------------------------------------

  function Put(d: Disk, c: nat, j: nat, b: Block): Disk {
    d.(data := d.data[(c, j) := b])
  }

  lemma IsDirSame(v: nat, d: Disk, d': Disk, n: int)
    requires IsDir(v, d, n) && d'.live == d.live
    ensures IsDir(v, d', n)
  {
  }

  /** The k-th block changes, and no other of the directory. */
  lemma PutInPlace(v: nat, d: Disk, n: int, k: nat, b: Block)
    requires IsDir(v, d, n) && k < d.live[n].eof && Quot(k, v) < |d.live[n].at| && Distinct(d.live[n].at)
    ensures IsDir(v, Put(d, d.live[n].at[Quot(k, v)], Rem(k, v), b), n)
    ensures DirBlocks(v, Put(d, d.live[n].at[Quot(k, v)], Rem(k, v), b), n) == DirBlocks(v, d, n)[k := Parsed(b)]
  {
    hide Vbn, Parsed, Quot, Rem, DirBlocks;
    var d' := Put(d, d.live[n].at[Quot(k, v)], Rem(k, v), b);
    IsDirSame(v, d, d', n);
    forall m | 0 <= m < d.live[n].eof
      ensures DirBlocks(v, d', n)[m] == DirBlocks(v, d, n)[k := Parsed(b)][m]
    {
      BlockOf(v, d, n, m);
      BlockOf(v, d', n, m);
      SamePlaceOnce(v, d.live[n].at, k, m);
    }
  }

  // Two blocks of a file are in different places.
  lemma SamePlaceOnce(v: nat, at: seq<nat>, k: nat, m: nat)
    requires v > 0 && Quot(k, v) < |at| && Quot(m, v) < |at| && Distinct(at)
    ensures at[Quot(k, v)] == at[Quot(m, v)] && Rem(k, v) == Rem(m, v) ==> k == m
  {
    if at[Quot(k, v)] == at[Quot(m, v)] && Rem(k, v) == Rem(m, v) {
      assert Quot(k, v) == Quot(m, v);
      assert k == (Quot(k, v)) * v + Rem(k, v) && m == (Quot(m, v)) * v + Rem(m, v);
    }
  }

  /** A block of no cluster of a header changes none of its blocks. */
  lemma PutElsewhere(v: nat, d: Disk, n: int, c: nat, j: nat, b: Block)
    requires n in d.live && c !in d.live[n].at
    ensures forall i: nat, k: nat | i < |d.live[n].at| :: BlockAt(Put(d, c, j, b), n, i, k) == BlockAt(d, n, i, k)
    ensures forall r :: Lists(v, Put(d, c, j, b), n, r) <==> Lists(v, d, n, r)
  {
    hide Vbn;
    var d' := Put(d, c, j, b);
    forall i: nat, k: nat | i < |d.live[n].at|
      ensures BlockAt(d', n, i, k) == BlockAt(d, n, i, k)
    {
      assert d.live[n].at[i] != c;
    }
    assert forall i: nat, k: nat :: Uses(v, d', n, i, k) <==> Uses(v, d, n, i, k);
  }

  lemma BlocksElsewhere(v: nat, d: Disk, n: int, c: nat, j: nat, b: Block)
    requires IsDir(v, d, n) && c !in d.live[n].at
    ensures IsDir(v, Put(d, c, j, b), n) && DirBlocks(v, Put(d, c, j, b), n) == DirBlocks(v, d, n)
  {
    hide Vbn, Lists, Quot, Rem, DirBlocks, BlockAt;
    var d' := Put(d, c, j, b);
    IsDirSame(v, d, d', n);
    PutElsewhere(v, d, n, c, j, b);
    forall m | 0 <= m < d.live[n].eof
      ensures DirBlocks(v, d', n)[m] == DirBlocks(v, d, n)[m]
    {
      BlockOf(v, d, n, m);
      BlockOf(v, d', n, m);
    }
  }

  // ---------------------------------------------------------------------
  // Moving the end of file
  // ---------------------------------------------------------------------

  function WithEof(d: Disk, n: int, eof: nat): Disk
    requires n in d.live
  {
    d.(live := d.live[n := d.live[n].(eof := eof)])
  }

  lemma EofBlockAt(d: Disk, n: int, eof: nat)
    requires n in d.live
    ensures forall i: nat, j: nat | i < |d.live[n].at| :: BlockAt(WithEof(d, n, eof), n, i, j) == BlockAt(d, n, i, j)
  {
  }

  /** Shorter, the directory has fewer blocks; longer by one, one more. */
  lemma EofBlocks(v: nat, d: Disk, n: int, eof: nat)
    requires IsDir(v, d, n) && eof <= Vbn(v, |d.live[n].at|, 0)
    ensures IsDir(v, WithEof(d, n, eof), n)
    ensures eof <= d.live[n].eof ==> DirBlocks(v, WithEof(d, n, eof), n) == DirBlocks(v, d, n)[..eof]
    ensures eof == d.live[n].eof + 1 ==>
      && Quot(eof - 1, v) < |d.live[n].at|
      && DirBlocks(v, WithEof(d, n, eof), n) ==
         DirBlocks(v, d, n) + [Parsed(BlockAt(d, n, Quot(eof - 1, v), Rem(eof - 1, v)))]
  {
    hide Vbn, Quot, Rem, DirBlocks, BlockAt;
    var d' := WithEof(d, n, eof);
    assert IsDir(v, d', n);
    assert forall i: nat, j: nat | i < |d.live[n].at| ::
      BlockAt(d', n, i, j) == BlockAt(d, n, i, j) by { EofBlockAt(d, n, eof); }
    forall m | 0 <= m < eof
      ensures Quot(m, v) < |d.live[n].at| && DirBlocks(v, d', n)[m] == Parsed(BlockAt(d, n, Quot(m, v), Rem(m, v)))
    {
      BlockOf(v, d', n, m);
    }
    forall m | 0 <= m < d.live[n].eof
      ensures Quot(m, v) < |d.live[n].at| && DirBlocks(v, d, n)[m] == Parsed(BlockAt(d, n, Quot(m, v), Rem(m, v)))
    {
      BlockOf(v, d, n, m);
    }
  }

  // The other headers' blocks are in use as they were.
  lemma OthersSame(v: nat, d: Disk, d': Disk, n: int, m: int, r: Rec)
    requires m != n && n in d.live && n in d'.live && d'.live == d.live[n := d'.live[n]] && d'.data == d.data
    requires SameIdentity(d.live[n], d'.live[n])
    requires m in d.live ==> d.live[m].file.num != n || d.live[m].file.seqno != d.live[n].seqno
    ensures Lists(v, d', m, r) ==> Lists(v, d, m, r)
  {
    hide Vbn;
    if Lists(v, d', m, r) {
      var i: nat, j: nat :| Uses(v, d', m, i, j) && r in BlockAt(d', m, i, j).recs;
      assert Uses(v, d, m, i, j) && BlockAt(d, m, i, j) == BlockAt(d', m, i, j);
    }
  }

  // ---------------------------------------------------------------------
  // Moving it all
  // ---------------------------------------------------------------------

  /** The first blocks of a list of clusters hold these. */
  ghost predicate Written(v: nat, d: Disk, at: seq<nat>, bs: seq<Block>) {
    && v > 0 && |bs| <= Vbn(v, |at|, 0)
    && forall k | 0 <= k < |bs| ::
       Quot(k, v) < |at| && (at[Quot(k, v)], Rem(k, v)) in d.data && d.data[(at[Quot(k, v)], Rem(k, v))] == bs[k]
  }

  function Moved(d: Disk, n: int, at: seq<nat>, eof: nat): Disk
    requires n in d.live
  {
    d.(live := d.live[n := d.live[n].(at := at, ext := None, eof := eof)])
  }

  lemma MovedBlocks(v: nat, d: Disk, n: int, at: seq<nat>, bs: seq<Block>)
    requires IsDir(v, d, n) && Written(v, d, at, bs)
    ensures IsDir(v, Moved(d, n, at, |bs|), n) && DirBlocks(v, Moved(d, n, at, |bs|), n) == ParsedAll(bs)
  {
    hide Vbn, Quot, Rem, DirBlocks;
    var d' := Moved(d, n, at, |bs|);
    assert IsDir(v, d', n);
    forall k | 0 <= k < |bs|
      ensures DirBlocks(v, d', n)[k] == Parsed(bs[k])
    {
      BlockOf(v, d', n, k);
    }
  }

  lemma WrittenMore(v: nat, d: Disk, at: seq<nat>, bs: seq<Block>, k: nat)
    requires k < |bs| && Written(v, d, at, bs[..k]) && |bs| <= Vbn(v, |at|, 0) && Distinct(at)
    ensures Quot(k, v) < |at| && Written(v, Put(d, at[Quot(k, v)], Rem(k, v), bs[k]), at, bs[..k + 1])
  {
    hide Vbn, Quot, Rem;
    VbnBelow(v, k, |at|);
    var d' := Put(d, at[Quot(k, v)], Rem(k, v), bs[k]);
    forall m | 0 <= m < k + 1
      ensures Quot(m, v) < |at| && (at[Quot(m, v)], Rem(m, v)) in d'.data
      ensures d'.data[(at[Quot(m, v)], Rem(m, v))] == bs[m]
    {
      if m < k {
        assert bs[..k][m] == bs[m];
        SamePlaceOnce(v, at, k, m);
      }
    }
  }

  /** Moved, the directory's blocks name what is there. */
  lemma MovedGood(v: nat, d: Disk, n: int, at: seq<nat>, bs: seq<Block>)
    requires IsDir(v, d, n) && Written(v, d, at, bs) && forall k | 0 <= k < |bs| :: Good(d, bs[k])
    ensures forall i: nat, j: nat | i < |at| && j < v && Vbn(v, d.live[n].base + i, j) < |bs| && (at[i], j) in d.data ::
      Good(d, d.data[(at[i], j)])
  {
    hide Vbn, Quot, Rem;
    forall i: nat, j: nat | i < |at| && j < v && Vbn(v, d.live[n].base + i, j) < |bs| && (at[i], j) in d.data
      ensures Good(d, d.data[(at[i], j)])
    {
      VbnIs(v, i, j);
      assert Good(d, bs[Vbn(v, i, j)]);
    }
  }

  function ParsedAll(bs: seq<Block>): (r: seq<Block>)
    ensures |r| == |bs| && forall k | 0 <= k < |bs| :: r[k] == Parsed(bs[k])
  {
    seq(|bs|, k requires 0 <= k < |bs| => Parsed(bs[k]))
  }

  lemma {:induction false} FlatParsed(bs: seq<Block>)
    ensures Flat(ParsedAll(bs)) == Flat(bs)
  {
    hide Used;
    if bs != [] {
      FlatParsed(bs[1..]);
      assert ParsedAll(bs)[1..] == ParsedAll(bs[1..]);
    }
  }

  lemma DirParsed(v: nat, d: Disk, n: int)
    requires IsDir(v, d, n)
    ensures ParsedAll(DirBlocks(v, d, n)) == DirBlocks(v, d, n)
  {
    hide Vbn, Quot, Rem, IsDir;
    var bs := DirBlocks(v, d, n);
    forall k | 0 <= k < |bs|
      ensures Parsed(bs[k]) == bs[k]
    {
      BlockOf(v, d, n, k);
    }
  }

  lemma ParsedWith(bs: seq<Block>, k: nat, b: Block)
    requires k < |bs| && ParsedAll(bs) == bs
    ensures ParsedAll(bs[k := b]) == bs[k := Parsed(b)]
  {
    hide Parsed;
    var now := bs[k := Parsed(b)];
    forall i | 0 <= i < |now|
      ensures ParsedAll(bs[k := b])[i] == now[i]
    {
      assert ParsedAll(bs)[i] == bs[i];
    }
  }

  // ---------------------------------------------------------------------
  // The other directories
  // ---------------------------------------------------------------------

  /** A directory whose header and blocks are as they were. */
  lemma SameDir(v: nat, d: Disk, now: Disk, m: int)
    requires IsDir(v, d, m) && m in now.live && now.live[m] == d.live[m]
    requires forall i: nat, j: nat | i < |d.live[m].at| :: BlockAt(now, m, i, j) == BlockAt(d, m, i, j)
    ensures IsDir(v, now, m) && DirBlocks(v, now, m) == DirBlocks(v, d, m)
  {
    hide Vbn, Quot, Rem, DirBlocks, Parsed, BlockAt;
    assert IsDir(v, now, m);
    forall k | 0 <= k < d.live[m].eof
      ensures DirBlocks(v, now, m)[k] == DirBlocks(v, d, m)[k]
    {
      BlockOf(v, d, m, k);
      BlockOf(v, now, m, k);
    }
  }

  /** Every directory but one is as it was. */
  ghost predicate KeepsDirs(v: nat, d: Disk, now: Disk, n: int) {
    forall m | m != n && IsDir(v, d, m) :: IsDir(v, now, m) && DirBlocks(v, now, m) == DirBlocks(v, d, m)
  }

  // Only headers other than the directories' own have changed.
  lemma KeepsByHeaders(v: nat, d: Disk, now: Disk, n: int)
    requires now.data == d.data
    requires forall m <- d.live | m != n && d.live[m].dir && d.live[m].seg == 0 ::
      m in now.live && now.live[m] == d.live[m]
    ensures KeepsDirs(v, d, now, n)
  {
    hide Vbn, DirBlocks;
    forall m | m != n && IsDir(v, d, m)
      ensures IsDir(v, now, m) && DirBlocks(v, now, m) == DirBlocks(v, d, m)
    {
      SameDir(v, d, now, m);
    }
  }

  lemma KeepsByPut(v: nat, d: Disk, n: int, c: nat, j: nat, b: Block)
    requires forall m <- d.live | m != n && d.live[m].dir && d.live[m].seg == 0 :: c !in d.live[m].at
    ensures KeepsDirs(v, d, Put(d, c, j, b), n)
  {
    hide Vbn, DirBlocks, Lists;
    forall m | m != n && IsDir(v, d, m)
      ensures IsDir(v, Put(d, c, j, b), m) && DirBlocks(v, Put(d, c, j, b), m) == DirBlocks(v, d, m)
    {
      PutElsewhere(v, d, m, c, j, b);
      SameDir(v, d, Put(d, c, j, b), m);
    }
  }

  lemma KeepsTrans(v: nat, a: Disk, b: Disk, c: Disk, n: int)
    requires KeepsDirs(v, a, b, n) && KeepsDirs(v, b, c, n)
    ensures KeepsDirs(v, a, c, n)
  {
    hide IsDir, DirBlocks;
  }

  /** Every directory lists what it did. */
  ghost predicate SameListings(v: nat, d: Disk, now: Disk) {
    forall m | IsDir(v, d, m) :: IsDir(v, now, m) && DirBlocks(v, now, m) == DirBlocks(v, d, m)
  }

  lemma ListingsTrans(v: nat, a: Disk, b: Disk, c: Disk)
    requires SameListings(v, a, b) && SameListings(v, b, c)
    ensures SameListings(v, a, c)
  {
    hide IsDir, DirBlocks;
  }

  lemma ListingsSame(v: nat, d: Disk, now: Disk)
    requires now.live == d.live && now.data == d.data
    ensures SameListings(v, d, now)
  {
    hide Vbn, DirBlocks;
    forall m | IsDir(v, d, m)
      ensures IsDir(v, now, m) && DirBlocks(v, now, m) == DirBlocks(v, d, m)
    {
      SameDir(v, d, now, m);
    }
  }

  // All but one, and that one too.
  lemma ListingsAll(v: nat, d: Disk, now: Disk, n: int)
    requires KeepsDirs(v, d, now, n) && IsDir(v, d, n) && IsDir(v, now, n) && DirBlocks(v, now, n) == DirBlocks(v, d, n)
    ensures SameListings(v, d, now)
  {
  }

  // ---------------------------------------------------------------------
  // Runs
  // ---------------------------------------------------------------------

  /** No header lists what it did not, and no file is new or has fewer links. */
  ghost predicate Calm(v: nat, d: Disk, now: Disk) {
    && (forall n, r | Lists(v, now, n, r) ::
          Lists(v, d, n, r) && n in now.live && n in d.live && now.live[n].file == d.live[n].file)
    && (forall n <- now.live | now.live[n].seg == 0 ::
          n in d.live && d.live[n].seg == 0 && now.live[n].seqno == d.live[n].seqno
          && now.live[n].links >= d.live[n].links)
  }

  lemma CalmTrans(v: nat, a: Disk, b: Disk, c: Disk)
    requires Calm(v, a, b) && Calm(v, b, c)
    ensures Calm(v, a, c)
  {
    hide Lists;
  }

  lemma ListsSame(v: nat, d: Disk, now: Disk, n: int, r: Rec)
    requires now.live == d.live && now.data == d.data
    ensures Lists(v, now, n, r) <==> Lists(v, d, n, r)
  {
    hide Vbn;
    assert forall i: nat, j: nat :: Uses(v, now, n, i, j) <==> Uses(v, d, n, i, j);
  }

  lemma ListsLive(v: nat, d: Disk, n: int, r: Rec)
    requires Lists(v, d, n, r)
    ensures n in d.live
  {
  }

  lemma CalmSame(v: nat, d: Disk, now: Disk)
    requires now.live == d.live && now.data == d.data
    ensures Calm(v, d, now)
  {
    hide Lists;
    forall n, r | Lists(v, now, n, r)
      ensures Lists(v, d, n, r) && n in d.live
    {
      ListsSame(v, d, now, n, r);
      ListsLive(v, now, n, r);
    }
  }

  /** Every directory lists what it did, and no file is new or has fewer links. */
  ghost predicate Still(v: nat, d: Disk, now: Disk) { SameListings(v, d, now) && Calm(v, d, now) }

  lemma StillTrans(v: nat, a: Disk, b: Disk, c: Disk)
    requires Still(v, a, b) && Still(v, b, c)
    ensures Still(v, a, c)
  {
    hide SameListings, Calm;
    ListingsTrans(v, a, b, c);
    CalmTrans(v, a, b, c);
  }

  lemma StillSame(v: nat, d: Disk, now: Disk)
    requires now.live == d.live && now.data == d.data
    ensures Still(v, d, now)
  {
    hide SameListings, Calm;
    ListingsSame(v, d, now);
    CalmSame(v, d, now);
  }

  /** In the states from k to m every directory lists what it does in d. */
  ghost predicate Quiet(v: nat, run: seq<Disk>, k: nat, m: nat, d: Disk) {
    k <= m <= |run| && forall i | k <= i < m :: Still(v, d, run[i])
  }

  /** One write of the run takes the directories from what they list in d to
      what they list in the end. */
  ghost predicate Atomic(v: nat, run: seq<Disk>, k: nat, d: Disk, now: Disk) {
    exists m: nat :: Quiet(v, run, k, m, d) && Quiet(v, run, m, |run|, now)
  }

  lemma QuietMore(v: nat, run: seq<Disk>, more: seq<Disk>, k: nat, m: nat, d: Disk)
    requires Quiet(v, run, k, m, d) && run <= more
    ensures Quiet(v, more, k, m, d)
  {
    hide Still;
  }

  lemma QuietJoin(v: nat, run: seq<Disk>, k: nat, m: nat, l: nat, d: Disk, x: Disk)
    requires Quiet(v, run, k, m, d) && Quiet(v, run, m, l, x) && Still(v, d, x)
    ensures Quiet(v, run, k, l, d)
  {
    hide Still;
    forall i | k <= i < l
      ensures Still(v, d, run[i])
    {
      if i >= m { StillTrans(v, d, x, run[i]); }
    }
  }

  lemma QuietNone(v: nat, run: seq<Disk>, k: nat, d: Disk)
    requires k <= |run|
    ensures Quiet(v, run, k, k, d)
  {
  }

  lemma QuietOne(v: nat, run: seq<Disk>, d: Disk)
    requires run != [] && Still(v, d, run[|run| - 1])
    ensures Quiet(v, run, |run| - 1, |run|, d)
  {
  }

  lemma AtomicIf(v: nat, run: seq<Disk>, k: nat, m: nat, d: Disk, now: Disk)
    requires Quiet(v, run, k, m, d) && Quiet(v, run, m, |run|, now)
    ensures Atomic(v, run, k, d, now)
  {
  }

  // The last write is the one.
  lemma AtomicLast(v: nat, run: seq<Disk>, k: nat, d: Disk)
    requires run != [] && Quiet(v, run, k, |run| - 1, d)
    ensures Atomic(v, run, k, d, run[|run| - 1])
  {
    var now := run[|run| - 1];
    StillSame(v, now, now);
    QuietOne(v, run, now);
    AtomicIf(v, run, k, |run| - 1, d, now);
  }

  // States that differ in the bitmaps only.
  ghost predicate BitsOnly(run: seq<Disk>, k: nat, d: Disk) {
    k <= |run| && forall i | k <= i < |run| :: run[i] == d.(bits := run[i].bits)
  }

  lemma BitsQuiet(v: nat, run: seq<Disk>, k: nat, d: Disk)
    requires BitsOnly(run, k, d)
    ensures Quiet(v, run, k, |run|, d)
  {
    hide Still;
    forall i | k <= i < |run|
      ensures Still(v, d, run[i])
    {
      StillSame(v, d, run[i]);
    }
  }

  /** What an update writes can be read back. */
  lemma ReadableAgain(v: nat, d: Disk, n: int, bs: seq<Block>)
    requires IsDir(v, d, n) && DirBlocks(v, d, n) == ParsedAll(bs) && Sorted(Flat(bs))
    requires forall b <- bs :: Encodes(b) && Proper(b)
    ensures IsReadable(v, d, n)
  {
    hide IsDir, DirBlocks, Flat, Sorted, Used;
    FlatParsed(bs);
    var ps := ParsedAll(bs);
    forall b | b in ps
      ensures Used(b.recs) <= BLOCK && b.tail == BLOCK - Used(b.recs) && Proper(b)
    {
      var k :| 0 <= k < |ps| && ps[k] == b;
      assert bs[k] in bs;
    }
  }

  // ---------------------------------------------------------------------
  // All directories in order
  // ---------------------------------------------------------------------

  /** A directory's primary header. */
  predicate HeadsDir(d: Disk, m: int) { m in d.live && d.live[m].dir && d.live[m].seg == 0 }

  /** It can be read, its names are in order and each name's versions are, and
      it has no entry for itself unless it is a reserved file. */
  ghost predicate Neat(v: nat, res: int, d: Disk, n: int) {
    && IsReadable(v, d, n) && (forall name :: Descending(Entries(Flat(DirBlocks(v, d, n)), name)))
    && (n > res ==> forall e | HasEntry(Flat(DirBlocks(v, d, n)), e) :: e.fid.num != n)
  }

  ghost predicate Orderly(v: nat, res: int, d: Disk) {
    forall m | HeadsDir(d, m) :: Neat(v, res, d, m)
  }

  /** There is no new directory, but for one. */
  ghost predicate OldDirs(d: Disk, now: Disk, but: Option<int>) {
    forall m | HeadsDir(now, m) && but != Some(m) :: HeadsDir(d, m)
  }

  lemma NeatSame(v: nat, res: int, d: Disk, now: Disk, n: int)
    requires Neat(v, res, d, n) && IsDir(v, now, n) && DirBlocks(v, now, n) == DirBlocks(v, d, n)
    ensures Neat(v, res, now, n)
  {
    hide IsDir, DirBlocks, Flat, Entries, Descending, Readable, HasEntry;
  }

  lemma NeatDir(v: nat, res: int, d: Disk, n: int)
    requires Neat(v, res, d, n)
    ensures IsDir(v, d, n) && HeadsDir(d, n)
  {
    hide DirBlocks, Flat, Entries, Descending, Readable;
  }

  /** Where one directory at most has changed, and is in order, all are. */
  lemma OrderlyBut(v: nat, res: int, d: Disk, now: Disk, n: int)
    requires Orderly(v, res, d) && KeepsDirs(v, d, now, n) && OldDirs(d, now, Some(n))
    requires HeadsDir(now, n) ==> Neat(v, res, now, n)
    ensures Orderly(v, res, now)
  {
    hide IsDir, DirBlocks, Neat, HeadsDir;
    forall m | HeadsDir(now, m)
      ensures Neat(v, res, now, m)
    {
      if m != n {
        NeatDir(v, res, d, m);
        NeatSame(v, res, d, now, m);
      }
    }
  }

  lemma OrderlyKept(v: nat, res: int, d: Disk, now: Disk)
    requires Orderly(v, res, d) && SameListings(v, d, now) && OldDirs(d, now, None)
    ensures Orderly(v, res, now)
  {
    hide IsDir, DirBlocks, Neat, HeadsDir;
    forall m | HeadsDir(now, m)
      ensures Neat(v, res, now, m)
    {
      NeatDir(v, res, d, m);
      NeatSame(v, res, d, now, m);
    }
  }

  lemma OldTrans(a: Disk, b: Disk, c: Disk, but: Option<int>)
    requires OldDirs(a, b, but) && OldDirs(b, c, but)
    ensures OldDirs(a, c, but)
  {
    hide HeadsDir;
  }
}
