/** A file's first header, and the clusters it is given: what they leave of the
    rest of the volume. */
module NewFile {
  import opened Disk
  import opened Directory
  import opened DirDisk
  import E = Extension

  /** A primary header with nothing after it. */
  function First(f: Fid, at: seq<nat>, dir: bool, eof: nat, back: Fid, links: U16): Header {
    Header(f.seqno, 0, f, 0, at, None, dir, eof, back, links)
  }

  function Added(d: Disk, f: Fid, h: Header): Disk {
    d.(live := d.live[f.num := h])
  }

  // A file ID that is no file's yet, its number taken in the index file.
  ghost predicate Vacant(d: Disk, f: Fid) { f.num !in d.live && f.num in d.used && 0 < f.num < d.indexEof }

  ghost predicate MayAdd(v: nat, d: Disk, f: Fid, h: Header) {
    && Consistent(v, d) && Vacant(d, f) && h == First(f, h.at, h.dir, h.eof, h.back, h.links) && E.Fresh(d, h.at)
    && h.eof <= Vbn(v, |h.at|, 0)
    && (h.dir ==> forall i: nat, j: nat | i < |h.at| && j < v && Vbn(v, i, j) < h.eof ::
          (h.at[i], j) in d.data && d.data[(h.at[i], j)].recs == [])
  }

  lemma NoneOfIt(d: Disk, f: Fid)
    requires AllTyped(d) && f.num !in d.live
    ensures forall m <- d.live :: d.live[m].file != f && d.live[m].file.num in d.live
  {
    forall m | m in d.live
      ensures d.live[m].file != f && d.live[m].file.num in d.live
    {
      assert Typed(d, m);
    }
  }

  /** The header goes on the disk: nothing names it yet, and a new directory's
      blocks are empty. */
  lemma AddedSound(v: nat, d: Disk, f: Fid, h: Header)
    requires MayAdd(v, d, f, h)
    ensures Sound(v, Added(d, f, h))
  {
    hide Sound, Vbn, OneLink, Numbered, Ended, E.Fresh, AllTyped;
    var now := Added(d, f, h);
    NoneOfIt(d, f);
    FreshFits(d, f.num, h);
    forall i: nat, j: nat | Uses(v, now, f.num, i, j)
      ensures Good(d, BlockAt(now, f.num, i, j))
    {
    }
    HeaderAdded(v, d, f.num, h);
  }

  lemma FreshFits(d: Disk, n: int, h: Header)
    requires E.Fresh(d, h.at)
    ensures Fits(d, n, h)
  {
    E.FreshSays(d, h.at);
    forall m | m in d.live && m != n
      ensures Apart(h.at, d.live[m].at)
    {
      E.UnownedApart(d, h.at, m);
    }
  }

  lemma AddedConsistent(v: nat, d: Disk, f: Fid, h: Header)
    requires MayAdd(v, d, f, h) && Sound(v, Added(d, f, h))
    ensures Consistent(v, Added(d, f, h))
    ensures forall g :: Named(Added(d, f, h), g) <==> Named(d, g) || g == f
  {
    hide Sound, Vbn, E.Fresh;
    var now := Added(d, f, h);
    NoneOfIt(d, f);
    forall m | m in now.live
      ensures Typed(now, m)
    {
      if m != f.num { assert Typed(d, m); }
    }
    assert forall p, q :: LinksTo(now, p, q) <==> LinksTo(d, p, q);
    forall m | m in now.live && now.live[m].seg > 0
      ensures exists p :: LinksTo(now, p, m)
    {
      var p :| LinksTo(d, p, m);
      assert LinksTo(now, p, m);
    }
    forall m | m in now.live && now.live[m].ext.None?
      ensures EndsWithin(v, now, now.live[m])
    {
      if m != f.num { assert EndsWithin(v, d, d.live[m]); }
    }
  }

  // No other directory changes, and none lists more.
  lemma AddedKeeps(v: nat, d: Disk, f: Fid, h: Header)
    requires MayAdd(v, d, f, h)
    ensures KeepsDirs(v, d, Added(d, f, h), f.num)
    ensures forall m, r | Lists(v, Added(d, f, h), m, r) ::
      Lists(v, d, m, r) && m in d.live && m in Added(d, f, h).live && Added(d, f, h).live[m].file == d.live[m].file
    ensures h.dir && v > 0 ==> IsDir(v, Added(d, f, h), f.num)
  {
    hide Sound, OneLink, Numbered, Ended, E.Fresh, KeepsDirs, Vbn, AllTyped;
    var now := Added(d, f, h);
    NoneOfIt(d, f);
    KeepsByHeaders(v, d, now, f.num);
    forall m, r | Lists(v, now, m, r)
      ensures Lists(v, d, m, r) && m in d.live && m in now.live && now.live[m].file == d.live[m].file
    {
      var i: nat, j: nat :| Uses(v, now, m, i, j) && r in BlockAt(now, m, i, j).recs;
      assert m != f.num;
      assert Uses(v, d, m, i, j) && BlockAt(d, m, i, j) == BlockAt(now, m, i, j);
    }
  }

  lemma AddedOwns(d: Disk, f: Fid, h: Header, c: nat)
    requires f.num !in d.live
    ensures Owned(Added(d, f, h), c) <==> Owned(d, c) || c in h.at
  {
    var now := Added(d, f, h);
    if Owned(d, c) {
      var m :| m in d.live && c in d.live[m].at;
      assert c in now.live[m].at;
    }
    if c in h.at { assert c in now.live[f.num].at; }
  }

  /** Clusters appended to a file that is no directory show in none. */
  lemma AppendedFile(v: nat, d: Disk, p: E.Plan)
    requires E.Ready(v, d, p) && !d.live[p.f.num].dir
    ensures KeepsDirs(v, d, E.Appended(d, p), p.f.num)
    ensures forall m, r | Lists(v, E.Appended(d, p), m, r) ::
      Lists(v, d, m, r) && m in d.live && m in E.Appended(d, p).live && E.Appended(d, p).live[m].file == d.live[m].file
  {
    hide Sound, OneLink, Numbered, Ended, E.Fresh, KeepsDirs, Vbn, E.Appended, E.Concat, E.Total, Lists;
    E.AppendedIs(v, d, p);
    var y := E.Appended(d, p);
    assert Typed(d, p.last);
    KeepsByHeaders(v, d, y, p.f.num);
    forall m, r | Lists(v, y, m, r)
      ensures Lists(v, d, m, r) && m in d.live && m in y.live && y.live[m].file == d.live[m].file
    {
      ListsBefore(v, d, p, m, r);
    }
  }

  lemma ListsBefore(v: nat, d: Disk, p: E.Plan, m: int, r: Rec)
    requires E.Ready(v, d, p) && !d.live[p.f.num].dir && Lists(v, E.Appended(d, p), m, r)
    ensures Lists(v, d, m, r) && m in d.live && m in E.Appended(d, p).live
    ensures E.Appended(d, p).live[m].file == d.live[m].file
  {
    hide E.Ready, Vbn, E.Appended;
    E.ReadyLens(v, d, p);
    var y := E.Appended(d, p);
    var i: nat, j: nat :| Uses(v, y, m, i, j) && r in BlockAt(y, m, i, j).recs;
    PrimarySame(v, d, p);
    PrimaryFid(v, d, p, y.live[m].file);
    OldOnly(v, d, p, m);
    E.AppendedData(v, d, p);
    assert Uses(v, d, m, i, j);
  }

  // The new headers are the file's.
  lemma OldOnly(v: nat, d: Disk, p: E.Plan, m: int)
    requires E.Ready(v, d, p) && m in E.Appended(d, p).live && E.Appended(d, p).live[m].file != p.f
    ensures m in d.live && m != p.last && E.Appended(d, p).live[m] == d.live[m]
  {
    hide Sound, OneLink, Numbered, Ended, AllTyped, E.Fresh, E.Appended, E.Concat, E.Total;
    E.AppendedIs(v, d, p);
  }

  lemma PrimarySame(v: nat, d: Disk, p: E.Plan)
    requires E.Ready(v, d, p)
    ensures forall n <- d.live :: n in E.Appended(d, p).live
    ensures forall n <- d.live ::
      E.Appended(d, p).live[n].dir == d.live[n].dir && E.Appended(d, p).live[n].eof == d.live[n].eof
  {
    hide Sound, OneLink, Numbered, Ended, AllTyped, E.Fresh, E.Appended, E.Concat, E.Total;
    E.AppendedIs(v, d, p);
  }

  lemma PrimaryFid(v: nat, d: Disk, p: E.Plan, g: Fid)
    requires E.Ready(v, d, p) && !d.live[p.f.num].dir && Named(E.Appended(d, p), g) && E.Appended(d, p).live[g.num].dir
    ensures g != p.f && Named(d, g) && d.live[g.num].dir
  {
    hide Sound, OneLink, Numbered, Ended, AllTyped, E.Fresh, E.Appended, E.Concat, E.Total;
    E.AppendedNames(v, d, p, g);
    PrimarySame(v, d, p);
  }
}
