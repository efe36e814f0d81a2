/** What every operation on a volume starts from and leaves, and how an edit of
    a directory changes where a file's entries are. */
module Tidiness {
  import opened Wildcards
  import opened Directory
  import opened Disk
  import opened DirDisk
  import opened Contents
  import opened LinkCount
  import opened Volume
  import opened Operations

  /** The volume is consistent, and every directory on it can be read, is in
      order and has no entry for itself, the reserved ones apart. */
  ghost predicate Tidy(v: nat, res: int, d: Disk) { Consistent(v, d) && Orderly(v, res, d) }

  // What a tidy volume says of a directory and a name in it.
  lemma TidySays(v: nat, res: int, d: Disk, n: int, name: seq<Char16>)
    requires Tidy(v, res, d) && HeadsDir(d, n)
    ensures Consistent(v, d) && Orderly(v, res, d) && IsReadable(v, d, n)
    ensures Descending(Entries(Flat(DirBlocks(v, d, n)), name))
    ensures n > res ==> forall e | HasEntry(Flat(DirBlocks(v, d, n)), e) :: e.fid.num != n
  {
    hide Consistent, DirBlocks, Flat, Entries, Descending, IsReadable, IsDir, HeadsDir, HasEntry;
  }

  lemma TidyUndone(v: nat, res: int, d: Disk, now: Disk, left: set<int>)
    requires Tidy(v, res, d) && Undone(v, d, now, left) && OldDirs(d, now, None)
    ensures Tidy(v, res, now)
  {
    hide Consistent, Orderly, SameListings, SameContents, KeepsSpace, OldDirs, SameLinks;
    OrderlyKept(v, res, d, now);
  }

  lemma TidyMade(v: nat, res: int, d: Disk, now: Disk, f: Fid, cs: seq<nat>)
    requires Tidy(v, res, d) && Made(v, d, now, f, cs) && OldDirs(d, now, Some(f.num))
    requires HeadsDir(now, f.num) ==> Neat(v, res, now, f.num)
    ensures Tidy(v, res, now)
  {
    hide Consistent, Orderly, IsDir, DirBlocks, SameContents, KeepsSpace, OldDirs, Maps, Unlisted, NoMoreListed,
         SameLinks, Marks, HeadsDir, Neat;
    OrderlyBut(v, res, d, now, f.num);
  }

  // A file that is not a directory is not one more.
  lemma NotNew(d: Disk, now: Disk, n: int)
    requires OldDirs(d, now, None)
    ensures OldDirs(d, now, Some(n)) && (n !in d.live ==> !HeadsDir(now, n))
  {
  }

  // The directory made is gone again.
  lemma OldGone(d: Disk, x: Disk, now: Disk, f: Fid)
    requires OldDirs(d, x, Some(f.num)) && OldDirs(x, now, None)
    requires (forall g :: Named(now, g) <==> Named(x, g) && g != f) && Named(x, f)
    ensures OldDirs(d, now, None) && !HeadsDir(now, f.num)
  {
    forall m | HeadsDir(now, m)
      ensures m != f.num
    {
      assert Named(now, Fid(m, now.live[m].seqno));
    }
  }

  lemma TidyEdit(v: nat, res: int, d: Disk, now: Disk, n: int, name: seq<Char16>, edit: Edit)
    requires Tidy(v, res, d) && IsDir(v, d, n) && DirOnly(v, d, now, n) && IsReadable(v, now, n)
    requires var was := Flat(DirBlocks(v, d, n));
      Listed(was, Flat(DirBlocks(v, now, n)), name, Changed(Entries(was, name), edit))
    requires edit.Add? ==> !Has(Entries(Flat(DirBlocks(v, d, n)), name), edit.version) && edit.fid.num != n
    ensures Tidy(v, res, now) && HeadsDir(now, n) && OldDirs(d, now, None)
  {
    hide Consistent, Orderly, DirOnly, DirBlocks, Flat, Entries, Listed, Readable, Changed, Has;
    OrderlyEdit(v, res, d, now, n, name, edit);
    DirOnlyKeeps(v, d, now, n);
    OnlyOld(v, d, now, n);
  }

  lemma OnlyOld(v: nat, d: Disk, now: Disk, n: int)
    requires DirOnly(v, d, now, n)
    ensures OldDirs(d, now, None) && SameLinks(d, now)
  {
    hide Consistent, Lists, KeepsDirs, Conserved;
  }

  lemma TidyGone(v: nat, res: int, d: Disk, now: Disk, f: Fid)
    requires Tidy(v, res, d) && Consistent(v, now) && KeepsDirs(v, d, now, f.num) && OldDirs(d, now, None)
    requires Named(d, f)
    requires forall g :: Named(now, g) <==> Named(d, g) && g != f
    ensures Tidy(v, res, now)
  {
    hide Consistent, Orderly, KeepsDirs, HeadsDir, Neat;
    OldGone(d, d, now, f);
    OrderlyBut(v, res, d, now, f.num);
  }

  lemma DirHeads(v: nat, d: Disk, n: int)
    requires IsDir(v, d, n)
    ensures HeadsDir(d, n)
  {
  }

  lemma EmptyNeat(v: nat, res: int, d: Disk, n: int)
    requires IsReadable(v, d, n) && DirBlocks(v, d, n) == [EMPTY]
    ensures Neat(v, res, d, n)
  {
    hide IsDir, DirBlocks, Readable;
    NothingFlat();
    assert forall name :: Entries([], name) == [];
  }

  // ---------------------------------------------------------------------
  // Where the entries are, from the listings
  // ---------------------------------------------------------------------

  /** The listing has the version of the name, for the file. */
  ghost predicate ListedAt(recs: seq<Rec>, key: seq<Char16>, version: int, f: Fid) {
    exists r <- recs :: Fold(r.name) == key && Entry(version, f) in r.entries
  }

  lemma EntriesAt(recs: seq<Rec>, name: seq<Char16>, version: int, f: Fid)
    ensures ListedAt(recs, Fold(name), version, f) <==> Entry(version, f) in Entries(recs, name)
  {
    hide Fold, Entries, Cmp;
    if ListedAt(recs, Fold(name), version, f) {
      var r :| r in recs && Fold(r.name) == Fold(name) && Entry(version, f) in r.entries;
      var i :| 0 <= i < |recs| && recs[i] == r;
      EntryIn(recs, i, Entry(version, f));
      CmpFold(r.name, name);
      EntriesAlike(recs, r.name, name);
    }
    if Entry(version, f) in Entries(recs, name) {
      EntriesFrom(recs, name, Entry(version, f));
      var i :| 0 <= i < |recs| && Entry(version, f) in recs[i].entries && Cmp(recs[i].name, name) == 0;
      CmpFold(recs[i].name, name);
      assert recs[i] in recs;
    }
  }

  /** An edit changes what is listed of its own name only. */
  lemma EditedAt(was: seq<Rec>, now: seq<Rec>, name: seq<Char16>, es: seq<Entry>, key: seq<Char16>, version: int,
                 f: Fid)
    requires Listed(was, now, name, es)
    ensures key == Fold(name) ==> (ListedAt(now, key, version, f) <==> Entry(version, f) in es)
    ensures key != Fold(name) ==> (ListedAt(now, key, version, f) <==> ListedAt(was, key, version, f))
  {
    hide Fold, Entries, Cmp, Sorted;
    if key == Fold(name) {
      EntriesAt(now, name, version, f);
    } else if ListedAt(now, key, version, f) || ListedAt(was, key, version, f) {
      var r :| (r in now || r in was) && Fold(r.name) == key && Entry(version, f) in r.entries;
      CmpFold(r.name, name);
      EntriesAt(now, r.name, version, f);
      EntriesAt(was, r.name, version, f);
    }
  }

  /** On a tidy volume a file's places are those the listings have. */
  lemma TidyPlaces(v: nat, res: int, d: Disk, f: Fid, p: Place)
    requires Tidy(v, res, d)
    ensures p in Places(v, d, f) <==>
      HeadsDir(d, p.dir) && IsDir(v, d, p.dir) && ListedAt(Flat(DirBlocks(v, d, p.dir)), p.name, p.version, f)
  {
    hide Consistent, IsDir, DirBlocks, Flat, Places, Fold, Neat, Lists, HeadsDir;
    InPlaces(v, d, f, p);
    if EntryThere(v, d, p, f) {
      var n, r :| Lists(v, d, n, r) && n in d.live && d.live[n].file.num == p.dir && Fold(r.name) == p.name
        && Entry(p.version, f) in r.entries;
      ListsOnly(v, res, d, n, r);
      ListsAre(v, d, n, r);
    }
    if HeadsDir(d, p.dir) && IsDir(v, d, p.dir) && ListedAt(Flat(DirBlocks(v, d, p.dir)), p.name, p.version, f) {
      var r :| r in Flat(DirBlocks(v, d, p.dir)) && Fold(r.name) == p.name && Entry(p.version, f) in r.entries;
      ListsAre(v, d, p.dir, r);
      DirSays(v, d, p.dir);
    }
  }

  // A header that lists something is a directory's one header.
  lemma ListsOnly(v: nat, res: int, d: Disk, n: int, r: Rec)
    requires Tidy(v, res, d) && Lists(v, d, n, r)
    ensures n in d.live && HeadsDir(d, n) && IsDir(v, d, n) && d.live[n].file.num == n
  {
    hide Sound, Numbered, OneLink, Ended, IsDir, DirBlocks, Flat, Neat, Vbn;
    var i: nat, j: nat :| Uses(v, d, n, i, j) && r in BlockAt(d, n, i, j).recs;
    var k := d.live[n].file.num;
    assert HeadsDir(d, k);
    NeatDir(v, res, d, k);
    DirSays(v, d, k);
    if n != k {
      OneHeader(v, d, k, n);
    }
  }

  lemma OneHeader(v: nat, d: Disk, k: int, n: int)
    requires Consistent(v, d) && IsDir(v, d, k) && n in d.live && n != k
    ensures d.live[n].file != Fid(k, d.live[k].seqno)
  {
    hide Consistent, IsDir;
    SoleHeader(v, d, k);
  }

  // ---------------------------------------------------------------------
  // An edit, and the places
  // ---------------------------------------------------------------------

  lemma OtherPlaces(v: nat, res: int, d: Disk, now: Disk, n: int, f: Fid, p: Place)
    requires Tidy(v, res, d) && Tidy(v, res, now) && DirOnly(v, d, now, n) && p.dir != n
    ensures p in Places(v, now, f) <==> p in Places(v, d, f)
  {
    hide Consistent, Conserved, IsDir, DirBlocks, Flat, Places, Orderly, ListedAt, Lists;
    TidyPlaces(v, res, d, f, p);
    TidyPlaces(v, res, now, f, p);
    OnlyOld(v, d, now, n);
    if HeadsDir(d, p.dir) {
      TidySays(v, res, d, p.dir, []);
      DirOf(v, d, p.dir);
    }
    if HeadsDir(now, p.dir) {
      assert HeadsDir(d, p.dir);
    }
  }

  /** One entry more, where the edit puts it. */
  lemma AddedPlaces(v: nat, res: int, d: Disk, now: Disk, n: int, name: seq<Char16>, version: int, f: Fid, g: Fid)
    requires Tidy(v, res, d) && Tidy(v, res, now) && DirOnly(v, d, now, n) && IsDir(v, d, n) && IsDir(v, now, n)
    requires var was := Flat(DirBlocks(v, d, n));
      Listed(was, Flat(DirBlocks(v, now, n)), name, Insert(Entries(was, name), Entry(version, f)))
      && !Has(Entries(was, name), version)
    requires Descending(Entries(Flat(DirBlocks(v, d, n)), name))
    ensures var p := Place(n, Fold(name), version);
      p !in Places(v, d, g) && Places(v, now, g) == if g == f then Places(v, d, g) + {p} else Places(v, d, g)
  {
    hide Tidy, DirOnly, IsDir, DirBlocks, Flat, Places, Fold, Entries, Descending, Insert, ListedAt, Listed;
    var was, recs, p := Flat(DirBlocks(v, d, n)), Flat(DirBlocks(v, now, n)), Place(n, Fold(name), version);
    DirHeads(v, d, n);
    DirHeads(v, now, n);
    InsertOrders(Entries(was, name), Entry(version, f));
    forall q
      ensures q in Places(v, now, g) <==> q in Places(v, d, g) || (g == f && q == p)
    {
      if q.dir != n {
        OtherPlaces(v, res, d, now, n, g, q);
      } else {
        TidyPlaces(v, res, d, g, q);
        TidyPlaces(v, res, now, g, q);
        EditedAt(was, recs, name, Insert(Entries(was, name), Entry(version, f)), q.name, q.version, g);
        EntriesAt(was, name, q.version, g);
      }
    }
    TidyPlaces(v, res, d, g, p);
    EntriesAt(was, name, version, g);
  }

  /** One entry fewer. */
  lemma RemovedPlaces(v: nat, res: int, d: Disk, now: Disk, n: int, name: seq<Char16>, version: int, f: Fid, g: Fid)
    requires Tidy(v, res, d) && Tidy(v, res, now) && DirOnly(v, d, now, n) && IsDir(v, d, n) && IsDir(v, now, n)
    requires var was := Flat(DirBlocks(v, d, n));
      Listed(was, Flat(DirBlocks(v, now, n)), name, Without(Entries(was, name), version))
      && Entry(version, f) in Entries(was, name)
    requires Descending(Entries(Flat(DirBlocks(v, d, n)), name))
    ensures var p := Place(n, Fold(name), version);
      (g == f <==> p in Places(v, d, g)) && Places(v, now, g) == Places(v, d, g) - {p}
  {
    hide Tidy, DirOnly, IsDir, DirBlocks, Flat, Places, Fold, Entries, Without, ListedAt, Listed;
    var was, recs, p := Flat(DirBlocks(v, d, n)), Flat(DirBlocks(v, now, n)), Place(n, Fold(name), version);
    DirHeads(v, d, n);
    DirHeads(v, now, n);
    WithoutOrders(Entries(was, name), version);
    forall q
      ensures q in Places(v, now, g) <==> q in Places(v, d, g) && q != p
    {
      if q.dir != n {
        OtherPlaces(v, res, d, now, n, g, q);
      } else {
        TidyPlaces(v, res, d, g, q);
        TidyPlaces(v, res, now, g, q);
        EditedAt(was, recs, name, Without(Entries(was, name), version), q.name, q.version, g);
        EntriesAt(was, name, q.version, g);
      }
    }
    TidyPlaces(v, res, d, g, p);
    EntriesAt(was, name, version, g);
    VersionOnce(Entries(was, name), Entry(version, f));
  }

  // A name has each version once.
  lemma VersionOnce(es: seq<Entry>, e: Entry)
    requires Descending(es) && e in es
    ensures forall x <- es :: x.version == e.version ==> x == e
  {
  }

  // ---------------------------------------------------------------------
  // And the count that covers them
  // ---------------------------------------------------------------------

  lemma AddedCovered(v: nat, hard: bool, res: int, d: Disk, now: Disk, n: int, name: seq<Char16>, version: int, f: Fid)
    requires Tidy(v, res, d) && Tidy(v, res, now) && DirOnly(v, d, now, n) && IsDir(v, d, n) && IsDir(v, now, n)
    requires var was := Flat(DirBlocks(v, d, n));
      Listed(was, Flat(DirBlocks(v, now, n)), name, Insert(Entries(was, name), Entry(version, f)))
      && !Has(Entries(was, name), version)
    requires Descending(Entries(Flat(DirBlocks(v, d, n)), name)) && Covered(v, hard, d) && Named(d, f)
    ensures Covered(v, hard, now) <==> |Places(v, d, f)| < Reckoned(hard, d.live[f.num])
  {
    hide Tidy, DirOnly, IsDir, DirBlocks, Flat, Places, Fold, Entries, Descending, Insert, Listed, Has;
    DirOnlyKeeps(v, d, now, n);
    DirOnlyLinks(v, d, now, n);
    AddedPlaces(v, res, d, now, n, name, version, f, f);
    forall g | Named(now, g) && g != f
      ensures |Places(v, now, g)| <= Reckoned(hard, now.live[g.num])
    {
      AddedPlaces(v, res, d, now, n, name, version, f, g);
    }
  }

  lemma RemovedCovered(v: nat, hard: bool, res: int, d: Disk, now: Disk, n: int, name: seq<Char16>, version: int,
                       f: Fid)
    requires Tidy(v, res, d) && Tidy(v, res, now) && DirOnly(v, d, now, n) && IsDir(v, d, n) && IsDir(v, now, n)
    requires var was := Flat(DirBlocks(v, d, n));
      Listed(was, Flat(DirBlocks(v, now, n)), name, Without(Entries(was, name), version))
      && Entry(version, f) in Entries(was, name)
    requires Descending(Entries(Flat(DirBlocks(v, d, n)), name)) && Covered(v, hard, d)
    ensures Covered(v, hard, now)
  {
    hide Tidy, DirOnly, IsDir, DirBlocks, Flat, Places, Fold, Entries, Descending, Without, Listed;
    DirOnlyKeeps(v, d, now, n);
    DirOnlyLinks(v, d, now, n);
    forall g | Named(now, g)
      ensures |Places(v, now, g)| <= Reckoned(hard, now.live[g.num])
    {
      RemovedPlaces(v, res, d, now, n, name, version, f, g);
      NoMore(Places(v, now, g), Places(v, d, g));
    }
  }

  lemma DirOnlyLinks(v: nat, d: Disk, now: Disk, n: int)
    requires DirOnly(v, d, now, n)
    ensures forall m <- d.live ::
      m in now.live && now.live[m].links == d.live[m].links && now.live[m].back == d.live[m].back
    ensures forall m <- d.live | m != n :: now.live[m] == d.live[m]
  {
    hide Consistent, Lists, KeepsDirs, Conserved;
  }

  // ---------------------------------------------------------------------
  // A header's link count and back link written
  // ---------------------------------------------------------------------

  function WithLinks(d: Disk, n: int, back: Fid, links: U16): Disk
    requires n in d.live
  {
    d.(live := d.live[n := d.live[n].(back := back, links := links)])
  }

  lemma LinksSound(v: nat, d: Disk, n: int, back: Fid, links: U16)
    requires Sound(v, d) && n in d.live
    ensures Sound(v, WithLinks(d, n, back, links))
  {
    hide Vbn;
    var now := WithLinks(d, n, back, links);
    assert Allocated(d, d.live[n]);
    assert Linked(d, d.live[n]);
    forall m, i: nat, j: nat | Uses(v, now, m, i, j)
      ensures Good(d, BlockAt(now, m, i, j))
    {
      assert Uses(v, d, m, i, j) && BlockAt(now, m, i, j) == BlockAt(d, m, i, j);
    }
    HeaderSet(v, d, n, now.live[n]);
  }

  lemma LinksConsistent(v: nat, d: Disk, n: int, back: Fid, links: U16)
    requires Consistent(v, d) && n in d.live
    ensures Consistent(v, WithLinks(d, n, back, links))
  {
    hide Sound, Numbered, AllTyped, OneLink, Ended, WithLinks;
    LinksSound(v, d, n, back, links);
    LinksTyped(d, n, back, links);
    LinksEnded(v, d, n, back, links);
  }

  lemma LinksTyped(d: Disk, n: int, back: Fid, links: U16)
    requires n in d.live && Numbered(d) && AllTyped(d) && OneLink(d)
    ensures var now := WithLinks(d, n, back, links); Numbered(now) && AllTyped(now) && OneLink(now)
  {
    var now := WithLinks(d, n, back, links);
    assert forall g :: Named(now, g) <==> Named(d, g);
    forall m | m in now.live
      ensures Typed(now, m)
    {
      assert Typed(d, m);
    }
    assert forall p, q :: LinksTo(now, p, q) <==> LinksTo(d, p, q);
    forall m | m in now.live && now.live[m].seg > 0
      ensures exists p :: LinksTo(now, p, m)
    {
      var p :| LinksTo(d, p, m);
      assert LinksTo(now, p, m);
    }
  }

  lemma LinksEnded(v: nat, d: Disk, n: int, back: Fid, links: U16)
    requires n in d.live && Ended(v, d)
    ensures Ended(v, WithLinks(d, n, back, links))
  {
    hide Vbn;
    var now := WithLinks(d, n, back, links);
    forall m | m in now.live && now.live[m].ext.None?
      ensures EndsWithin(v, now, now.live[m])
    {
      assert EndsWithin(v, d, d.live[m]);
    }
  }

  lemma LinksListed(v: nat, d: Disk, n: int, back: Fid, links: U16, m: int, r: Rec)
    requires n in d.live
    ensures Lists(v, WithLinks(d, n, back, links), m, r) <==> Lists(v, d, m, r)
  {
    hide Vbn;
    var now := WithLinks(d, n, back, links);
    if Lists(v, now, m, r) {
      var i: nat, j: nat :| Uses(v, now, m, i, j) && r in BlockAt(now, m, i, j).recs;
      assert Uses(v, d, m, i, j) && BlockAt(now, m, i, j) == BlockAt(d, m, i, j);
    }
    if Lists(v, d, m, r) {
      var i: nat, j: nat :| Uses(v, d, m, i, j) && r in BlockAt(d, m, i, j).recs;
      assert Uses(v, now, m, i, j) && BlockAt(now, m, i, j) == BlockAt(d, m, i, j);
    }
  }

  lemma LinksPlaces(v: nat, d: Disk, n: int, back: Fid, links: U16, f: Fid)
    requires n in d.live
    ensures Places(v, WithLinks(d, n, back, links), f) == Places(v, d, f)
  {
    hide Lists, Places;
    var now := WithLinks(d, n, back, links);
    forall m, r
      ensures Lists(v, now, m, r) <==> Lists(v, d, m, r)
      ensures Lists(v, d, m, r) ==> m in d.live
    {
      LinksListed(v, d, n, back, links, m, r);
      if Lists(v, d, m, r) { ListsLive(v, d, m, r); }
    }
    CalmPlaces(v, d, now, f);
    CalmPlaces(v, now, d, f);
  }

  lemma LinksDir(v: nat, d: Disk, n: int, back: Fid, links: U16, m: int)
    requires n in d.live && IsDir(v, d, m)
    ensures IsDir(v, WithLinks(d, n, back, links), m)
    ensures DirBlocks(v, WithLinks(d, n, back, links), m) == DirBlocks(v, d, m)
  {
    hide Vbn, DirBlocks, Quot, Rem, Parsed;
    var now := WithLinks(d, n, back, links);
    assert IsDir(v, now, m);
    forall k | 0 <= k < d.live[m].eof
      ensures DirBlocks(v, now, m)[k] == DirBlocks(v, d, m)[k]
    {
      BlockOf(v, d, m, k);
      BlockOf(v, now, m, k);
    }
  }

  /** It changes nothing else that shows. */
  lemma LinksKeep(v: nat, res: int, d: Disk, n: int, back: Fid, links: U16)
    requires n in d.live
    ensures var now := WithLinks(d, n, back, links);
      && SameListings(v, d, now) && SameContents(d, now) && KeepsSpace(d, now) && OldDirs(d, now, None)
      && (forall g :: Named(now, g) <==> Named(d, g)) && (Tidy(v, res, d) ==> Tidy(v, res, now))
  {
    hide IsDir, DirBlocks, Maps, Consistent, Orderly, Vbn;
    var now := WithLinks(d, n, back, links);
    forall m | IsDir(v, d, m)
      ensures IsDir(v, now, m) && DirBlocks(v, now, m) == DirBlocks(v, d, m)
    {
      LinksDir(v, d, n, back, links, m);
    }
    forall g, cs | Maps(d, g, cs)
      ensures Maps(now, g, cs)
    {
      SameFile(d, now, g, cs);
    }
    forall c
      ensures Owned(now, c) <==> Owned(d, c)
    {
      LinksOwned(d, n, back, links, c);
    }
    if Tidy(v, res, d) {
      LinksConsistent(v, d, n, back, links);
      OrderlyKept(v, res, d, now);
    }
  }

  lemma LinksOwned(d: Disk, n: int, back: Fid, links: U16, c: nat)
    requires n in d.live
    ensures Owned(WithLinks(d, n, back, links), c) <==> Owned(d, c)
  {
    var now := WithLinks(d, n, back, links);
    if Owned(d, c) {
      var m :| m in d.live && c in d.live[m].at;
      assert c in now.live[m].at;
    }
    if Owned(now, c) {
      var m :| m in now.live && c in now.live[m].at;
      assert c in d.live[m].at;
    }
  }

  lemma LinksCovered(v: nat, hard: bool, d: Disk, f: Fid, back: Fid, links: U16)
    requires Covered(v, hard, d) && Named(d, f)
    ensures Covered(v, hard, WithLinks(d, f.num, back, links)) <==> |Places(v, d, f)| <= if hard then links else 1
  {
    hide Places;
    var now := WithLinks(d, f.num, back, links);
    LinksPlaces(v, d, f.num, back, links, f);
    forall g | Named(now, g) && g != f
      ensures |Places(v, now, g)| <= Reckoned(hard, now.live[g.num])
    {
      LinksPlaces(v, d, f.num, back, links, g);
      assert Named(d, g);
    }
  }

  lemma OnlySpace(v: nat, d: Disk, now: Disk, n: int)
    requires DirOnly(v, d, now, n)
    ensures KeepsSpace(d, now) && KeepsDirs(v, d, now, n)
  {
    hide Consistent, Lists, KeepsDirs, Conserved;
  }

  lemma ListingsKept(v: nat, d: Disk, x: Disk, now: Disk, n: int)
    requires SameListings(v, d, x) && DirOnly(v, x, now, n)
    ensures KeepsDirs(v, d, now, n)
  {
    hide Consistent, Lists, Conserved, IsDir, DirBlocks, DirOnly;
    OnlySpace(v, x, now, n);
  }

  // A change to one directory leaves what the other files hold.
  lemma DirOnlyFiles(v: nat, d: Disk, now: Disk, n: int)
    requires DirOnly(v, d, now, n) && IsDir(v, d, n)
    ensures forall g: Fid, cs | g.num != n && Maps(d, g, cs) :: Maps(now, g, cs)
  {
    hide Consistent, Lists, KeepsDirs, Conserved, Maps;
    forall g: Fid, cs | g.num != n && Maps(d, g, cs)
      ensures Maps(now, g, cs)
    {
      forall m | m in d.live && d.live[m].file == g
        ensures m in now.live && SameMap(d.live[m], now.live[m])
      {
        assert m != n;
      }
      SameFile(d, now, g, cs);
    }
  }

  lemma ReadableKept(v: nat, d: Disk, now: Disk, n: int)
    requires SameListings(v, d, now) && IsReadable(v, d, n)
    ensures IsReadable(v, now, n) && DirBlocks(v, now, n) == DirBlocks(v, d, n)
  {
    hide Readable;
  }

  lemma OtherListing(v: nat, d: Disk, now: Disk, n: int, m: int)
    requires DirOnly(v, d, now, n) && m != n && IsDir(v, d, m)
    ensures IsDir(v, now, m) && DirBlocks(v, now, m) == DirBlocks(v, d, m)
  {
    hide Consistent, Lists, Conserved, IsDir, DirBlocks;
  }
}
