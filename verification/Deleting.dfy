/** Deleting a version.  The header says whether the file goes with its entry:
    its link count where the volume counts entries, and else its back link.  The
    count is right, so there nothing is ever left naming a file that is gone; the
    back link is right just when the file has no other entry. */
module Deleting {
  import opened Wildcards
  import opened Directory
  import opened Disk
  import opened DirDisk
  import opened DirRoom
  import opened Contents
  import opened LinkCount
  import opened Volume
  import opened Operations
  import opened Tidiness

  /** last is whether the file went too, and dangles whether an entry is left that
      names it. */
  datatype Deletion = Deleted(fid: Fid, last: bool, dangles: bool) | NoEntry | Reserved | NotEmpty | NotEdited

  /** What the header says of an entry in directory n: that the file goes with it. */
  predicate GoesWith(hard: bool, d: Disk, n: int, f: Fid)
    requires n in d.live && f.num in d.live
  {
    var h := d.live[f.num];
    if hard then h.links <= 1 else h.back == Fid(n, d.live[n].seqno) || (h.back.num == n && h.back.seqno == 0)
  }

  /** The file has no entry anywhere else. */
  predicate Sole(v: nat, d: Disk, n: int, name: seq<Char16>, version: int, f: Fid) {
    Places(v, d, f) <= {Place(n, Fold(name), version)}
  }

  // Its entry is not deleted: it is reserved, or a directory that is not empty.
  ghost predicate Stays(v: nat, res: int, d: Disk, f: Fid) {
    f.num <= res || (HeadsDir(d, f.num) && IsDir(v, d, f.num) && Flat(DirBlocks(v, d, f.num)) != [])
  }

  /** One file fewer where it goes with the entry, and else the same ones; the
      other files and directories are as they were, and no space is lost. */
  ghost predicate Drops(v: nat, d: Disk, now: Disk, n: int, f: Fid, last: bool) {
    && KeepsSpace(d, now)
    && (forall g :: Named(now, g) <==> Named(d, g) && !(last && g == f))
    && (forall g: Fid, c | g.num != n && !(last && g == f) && Maps(d, g, c) :: Maps(now, g, c))
    && (forall m | m != n && !(last && m == f.num) && IsDir(v, d, m) ::
          IsDir(v, now, m) && DirBlocks(v, now, m) == DirBlocks(v, d, m))
  }

  /** The link counts after it. */
  ghost predicate CountsDown(d: Disk, now: Disk, f: Fid, less: nat) {
    forall g | Named(d, g) && Named(now, g) ::
      && now.live[g.num].back == d.live[g.num].back
      && now.live[g.num].links == d.live[g.num].links - if g == f then less else 0
  }

  method Find(es: seq<Entry>, version: int) returns (e: Option<Entry>)
    ensures e.None? <==> !Has(es, version)
    ensures e.Some? ==> e.value in es && e.value.version == version
  {
    for i := 0 to |es|
      invariant forall k | 0 <= k < i :: es[k].version != version
    {
      if es[i].version == version {
        return Some(es[i]);
      }
    }
    e := None;
  }

  lemma EntryNamed(v: nat, d: Disk, n: int, name: seq<Char16>, e: Entry)
    requires Sound(v, d) && IsDir(v, d, n) && e in Entries(Flat(DirBlocks(v, d, n)), name)
    ensures Named(d, e.fid) && HasEntry(Flat(DirBlocks(v, d, n)), e)
  {
    hide IsDir, DirBlocks, Flat, Sound, Entries;
    var recs := Flat(DirBlocks(v, d, n));
    EntriesFrom(recs, name, e);
    assert HasEntry(recs, e);
    EntriesNamed(v, d, n, e);
  }

  lemma EntryShows(recs: seq<Rec>, name: seq<Char16>)
    requires Entries(recs, name) != []
    ensures recs != []
  {
  }

  lemma DropsEntry(v: nat, d: Disk, now: Disk, n: int, f: Fid)
    requires DirOnly(v, d, now, n) && IsDir(v, d, n)
    ensures Drops(v, d, now, n, f, false)
  {
    hide Consistent, Maps, KeepsSpace, IsDir, DirBlocks, DirOnly;
    DirOnlyKeeps(v, d, now, n);
    DirOnlyFiles(v, d, now, n);
    OnlySpace(v, d, now, n);
  }

  lemma DropsFile(v: nat, d: Disk, x: Disk, now: Disk, n: int, f: Fid)
    requires Drops(v, d, x, n, f, false) && (forall g :: Named(now, g) <==> Named(x, g) && g != f)
    requires KeepsFiles(x, now, f) && KeepsDirs(v, x, now, f.num)
    requires forall but :: Conserved(x, but) ==> Conserved(now, but)
    ensures Drops(v, d, now, n, f, true)
  {
    hide Maps, IsDir, DirBlocks, Conserved;
  }

  lemma DropsLinks(v: nat, d: Disk, x: Disk, n: int, f: Fid, k: int, back: Fid, links: U16)
    requires Drops(v, d, x, n, f, false) && k in x.live
    ensures Drops(v, d, WithLinks(x, k, back, links), n, f, false)
  {
    hide Maps, IsDir, DirBlocks, Conserved, Tidy, OldDirs;
    LinksKeep(v, 0, x, k, back, links);
  }

  // With its one entry gone, nothing lists the file; with another left,
  // something does, and not the file itself where that is an empty directory.
  lemma LastEntry(v: nat, res: int, d: Disk, now: Disk, n: int, name: seq<Char16>, version: int, f: Fid)
    requires Tidy(v, res, d) && Tidy(v, res, now) && DirOnly(v, d, now, n) && IsDir(v, d, n) && IsDir(v, now, n)
    requires Named(d, f) && f.num != n
    requires var was := Flat(DirBlocks(v, d, n));
      Listed(was, Flat(DirBlocks(v, now, n)), name, Without(Entries(was, name), version))
      && Entry(version, f) in Entries(was, name)
    requires Descending(Entries(Flat(DirBlocks(v, d, n)), name))
    requires IsDir(v, d, f.num) ==> Flat(DirBlocks(v, d, f.num)) == []
    ensures Unlisted(v, now, f) <==> Sole(v, d, n, name, version, f)
    ensures UnlistedElsewhere(v, now, f) ==> Sole(v, d, n, name, version, f)
  {
    hide Tidy, DirOnly, IsDir, DirBlocks, Flat, Places, Fold, Entries, Descending, Without, Listed, Unlisted,
         UnlistedElsewhere;
    RemovedPlaces(v, res, d, now, n, name, version, f, f);
    UnlistedNowhere(v, now, f);
    if !Sole(v, d, n, name, version, f) {
      var p :| p in Places(v, d, f) && p != Place(n, Fold(name), version);
      StillElsewhere(v, res, d, now, n, f, p);
    }
  }

  lemma StillElsewhere(v: nat, res: int, d: Disk, now: Disk, n: int, f: Fid, p: Place)
    requires Tidy(v, res, d) && Tidy(v, res, now) && DirOnly(v, d, now, n) && p in Places(v, now, f) && f.num != n
    requires IsDir(v, d, f.num) ==> Flat(DirBlocks(v, d, f.num)) == []
    ensures !UnlistedElsewhere(v, now, f)
  {
    hide Consistent, Conserved, DirBlocks, Flat, Places, Fold, IsDir, Vbn, KeepsDirs, Orderly;
    InPlaces(v, now, f, p);
    var m, r :| Lists(v, now, m, r) && m in now.live && now.live[m].file.num == p.dir && Fold(r.name) == p.name
      && Entry(p.version, f) in r.entries;
    ListsOnly(v, res, now, m, r);
    ListsAre(v, now, m, r);
    if m == f.num {
      OnlyOld(v, d, now, n);
      HeadsRead(v, res, d, m);
      OtherListing(v, d, now, n, m);
    }
    DirSays(v, now, m);
    var i: nat, j: nat :| Uses(v, now, m, i, j) && r in BlockAt(now, m, i, j).recs;
    assert now.live[m].file != f;
  }

  lemma HeadsRead(v: nat, res: int, d: Disk, m: int)
    requires Tidy(v, res, d) && HeadsDir(d, m)
    ensures IsDir(v, d, m)
  {
    hide Consistent, IsDir, Neat;
    NeatDir(v, res, d, m);
  }

  // Where the count covers the entries and is one, there is no other.
  lemma CountedSole(v: nat, hard: bool, res: int, d: Disk, n: int, name: seq<Char16>, version: int, f: Fid)
    requires Tidy(v, res, d) && HeadsDir(d, n) && IsDir(v, d, n)
    requires Entry(version, f) in Entries(Flat(DirBlocks(v, d, n)), name)
    requires Covered(v, hard, d) && Named(d, f) && Reckoned(hard, d.live[f.num]) <= 1
    ensures Sole(v, d, n, name, version, f)
  {
    hide Tidy, IsDir, DirBlocks, Flat, Places, Fold, Entries;
    var p := Place(n, Fold(name), version);
    TidyPlaces(v, res, d, f, p);
    EntriesAt(Flat(DirBlocks(v, d, n)), name, version, f);
    forall q | q in Places(v, d, f)
      ensures q == p
    {
      NoMore({p, q}, Places(v, d, f));
    }
  }

  // What a delete finds before it writes anything: NotEdited if it may go on.
  method MayDelete(vol: Volume, n: int, name: seq<Char16>, version: int) returns (r: Deletion, f: Fid)
    requires vol.Inv() && Tidy(vol.v, vol.reserved, vol.d) && HeadsDir(vol.d, n) && IsDir(vol.v, vol.d, n)
    ensures !r.Deleted? && (r.NoEntry? <==> !Has(Entries(Flat(DirBlocks(vol.v, vol.d, n)), name), version))
    ensures r.Reserved? <==>
      exists e <- Entries(Flat(DirBlocks(vol.v, vol.d, n)), name) :: e.version == version && e.fid.num <= vol.reserved
    ensures r.NotEmpty? <==>
      exists e <- Entries(Flat(DirBlocks(vol.v, vol.d, n)), name) ::
        && e.version == version && e.fid.num > vol.reserved && e.fid.num in vol.d.live
        && GoesWith(vol.hard, vol.d, n, e.fid)
        && HeadsDir(vol.d, e.fid.num) && Flat(DirBlocks(vol.v, vol.d, e.fid.num)) != []
    ensures r.Reserved? || r.NotEmpty? ==>
      exists e <- Entries(Flat(DirBlocks(vol.v, vol.d, n)), name) ::
        e.version == version && Stays(vol.v, vol.reserved, vol.d, e.fid)
    ensures r.NotEdited? ==>
      Entry(version, f) in Entries(Flat(DirBlocks(vol.v, vol.d, n)), name) && Named(vol.d, f) && f.num > vol.reserved
      && f.num != n
    ensures r.NotEdited? && GoesWith(vol.hard, vol.d, n, f) && IsDir(vol.v, vol.d, f.num) ==>
      Flat(DirBlocks(vol.v, vol.d, f.num)) == []
  {
    hide Sound, Consistent, IsDir, DirBlocks, Flat, Entries, Descending, IsReadable, Orderly, Neat;
    f := Fid(0, 0);
    ghost var d0 := vol.d;
    TidySays(vol.v, vol.reserved, d0, n, name);
    DirOf(vol.v, d0, n);
    DirSays(vol.v, d0, n);
    var bs := vol.ReadDir(n);
    var found := Find(Entries(Flat(bs), name), version);
    if found.None? {
      r := NoEntry;
      return;
    }
    f := found.value.fid;
    assert found.value == Entry(version, f);
    VersionOnce(Entries(Flat(bs), name), found.value);
    EntryShows(Flat(bs), name);
    SoundOf(vol.v, d0);
    EntryNamed(vol.v, d0, n, name, found.value);
    if f.num <= vol.reserved {
      r := Reserved;
      return;
    }
    NotADir(vol.v, d0, f);
    if GoesWith(vol.hard, vol.d, n, f) && vol.d.live[f.num].dir {
      HeadsRead(vol.v, vol.reserved, d0, f.num);
      var inner := vol.ReadDir(f.num);
      if Flat(inner) != [] {
        r := NotEmpty;
        return;
      }
    }
    r := NotEdited;
  }

  /** delete: the entry goes, and the file with it where the header says so; a
      directory only where it is empty.  Otherwise one link fewer is counted, after
      the entry has gone.  The disk stays sound just when the file stays or had no
      other entry, and always where the volume counts entries. */
  method Delete(vol: Volume, n: int, name: seq<Char16>, version: int, erase: Fid -> bool) returns (r: Deletion)
    requires vol.Inv() && Tidy(vol.v, vol.reserved, vol.d) && HeadsDir(vol.d, n) && |name| <= MAX_NAME
    modifies vol
    ensures vol.Shape() && old(vol.trace) <= vol.trace && OldDirs(old(vol.d), vol.d, None)
    ensures r.NoEntry? <==> !Has(Entries(Flat(DirBlocks(vol.v, old(vol.d), n)), name), version)
    ensures !r.Deleted? ==> vol.d == old(vol.d) && vol.Inv()
    ensures r.Reserved? <==>
      exists e <- Entries(Flat(DirBlocks(vol.v, old(vol.d), n)), name) ::
        e.version == version && e.fid.num <= vol.reserved
    ensures r.NotEmpty? <==>
      exists e <- Entries(Flat(DirBlocks(vol.v, old(vol.d), n)), name) ::
        && e.version == version && e.fid.num > vol.reserved && e.fid.num in old(vol.d).live
        && GoesWith(vol.hard, old(vol.d), n, e.fid)
        && HeadsDir(old(vol.d), e.fid.num) && Flat(DirBlocks(vol.v, old(vol.d), e.fid.num)) != []
    ensures r.Deleted? ==>
      Named(old(vol.d), r.fid) && r.fid.num > vol.reserved && r.last == GoesWith(vol.hard, old(vol.d), n, r.fid)
    ensures r.Deleted? ==> Drops(vol.v, old(vol.d), vol.d, n, r.fid, r.last) && IsDir(vol.v, vol.d, n)
    ensures r.Reserved? || r.NotEmpty? ==>
      exists e <- Entries(Flat(DirBlocks(vol.v, old(vol.d), n)), name) ::
        e.version == version && Stays(vol.v, vol.reserved, vol.d, e.fid)
    ensures r.Deleted? || r.NotEdited? ==>
      (r.NotEdited? <==> Updated(vol.v, LayoutOf(vol.v, old(vol.d), n), name, Remove(version)).None?)
    ensures |DirBlocks(vol.v, old(vol.d), n)| == 1 ==>
      !r.NotEdited? && (r.Deleted? ==> |DirBlocks(vol.v, vol.d, n)| == 1)
    ensures r.Deleted? ==> var was := Flat(DirBlocks(vol.v, old(vol.d), n));
      && Entry(version, r.fid) in Entries(was, name)
      && Listed(was, Flat(DirBlocks(vol.v, vol.d, n)), name, Without(Entries(was, name), version))
    ensures r.Deleted? ==> CountsDown(old(vol.d), vol.d, r.fid, if vol.hard && !r.last then 1 else 0)
    ensures r.Deleted? && r.last && erase(r.fid) ==> Emptied(vol.v, old(vol.d), vol.d, r.fid)
    ensures r.Deleted? ==>
      r.dangles == (r.last && !Sole(vol.v, old(vol.d), n, name, version, r.fid)) == !Sound(vol.v, vol.d)
    ensures r.Deleted? && !r.dangles ==> vol.Inv() && Tidy(vol.v, vol.reserved, vol.d)
    ensures Covered(vol.v, vol.hard, old(vol.d)) ==> Covered(vol.v, vol.hard, vol.d) && (r.Deleted? ==> !r.dangles)
    ensures old(vol.Counted()) ==> vol.Counted()
  {
    hide Emptied, Updated, Sound, Consistent, IsDir, DirBlocks, Flat, Entries, Descending, IsReadable, DirOnly, Listed,
         Unlisted, UnlistedElsewhere, Without, Sole, Drops, Conserved, KeepsFiles, KeepsDirs, Orderly, OldDirs, Neat,
         Covered, CountsDown, Roomy;
    ghost var d0 := vol.d;
    NoneNew(d0, None);
    TidySays(vol.v, vol.reserved, d0, n, name);
    DirOf(vol.v, d0, n);
    DirSays(vol.v, d0, n);
    var f: Fid;
    r, f := MayDelete(vol, n, name, version);
    if !r.NotEdited? {
      return;
    }
    var h := vol.d.live[f.num];
    var last := GoesWith(vol.hard, vol.d, n, f);
    var dangles := last && !Sole(vol.v, vol.d, n, name, version, f);
    var edited := vol.DirUpdate(n, name, Remove(version));
    if !edited.Entered? {
      r := NotEdited;
      return;
    }
    r := Deleted(f, last, dangles);
    ghost var d1 := vol.d;
    DirOf(vol.v, d1, n);
    DirOnlyKeeps(vol.v, d0, d1, n);
    DirOnlyLinks(vol.v, d0, d1, n);
    TidyEdit(vol.v, vol.reserved, d0, d1, n, name, Remove(version));
    DropsEntry(vol.v, d0, d1, n, f);
    if Covered(vol.v, vol.hard, d0) { RemovedCovered(vol.v, vol.hard, vol.reserved, d0, d1, n, name, version, f); }
    vol.SoundNow();
    if last {
      if Covered(vol.v, vol.hard, d0) { CountedSole(vol.v, vol.hard, vol.reserved, d0, n, name, version, f); }
      DropFile(vol, d0, n, name, version, f, erase(f));
    } else if vol.hard {
      CountDown(vol, d0, n, name, version, f, h);
    } else {
      SameCounts(d0, d1, vol.d, f);
    }
  }

  // The file goes, once the entry has.
  method DropFile(vol: Volume, ghost d0: Disk, ghost n: int, ghost name: seq<Char16>, ghost version: int, f: Fid,
                  erase: bool)
    requires vol.Inv() && Tidy(vol.v, vol.reserved, d0) && Tidy(vol.v, vol.reserved, vol.d)
    requires DirOnly(vol.v, d0, vol.d, n) && f.num != n
    requires IsDir(vol.v, d0, n) && IsDir(vol.v, vol.d, n) && Named(d0, f)
    requires IsDir(vol.v, d0, f.num) ==> Flat(DirBlocks(vol.v, d0, f.num)) == []
    requires var was := Flat(DirBlocks(vol.v, d0, n));
      && Listed(was, Flat(DirBlocks(vol.v, vol.d, n)), name, Without(Entries(was, name), version))
      && Entry(version, f) in Entries(was, name) && Descending(Entries(was, name))
    requires Drops(vol.v, d0, vol.d, n, f, false) && OldDirs(d0, vol.d, None)
    modifies vol
    ensures vol.Shape() && old(vol.trace) <= vol.trace && OldDirs(d0, vol.d, None)
    ensures Sound(vol.v, vol.d) <==> Sole(vol.v, d0, n, name, version, f)
    ensures Sole(vol.v, d0, n, name, version, f) ==> vol.Inv() && Tidy(vol.v, vol.reserved, vol.d)
    ensures Drops(vol.v, d0, vol.d, n, f, true) && IsDir(vol.v, vol.d, n)
    ensures DirBlocks(vol.v, vol.d, n) == DirBlocks(vol.v, old(vol.d), n)
    ensures CountsDown(d0, vol.d, f, 0) && (erase ==> Emptied(vol.v, d0, vol.d, f))
    ensures old(vol.Counted()) ==> vol.Counted()
    ensures Covered(vol.v, vol.hard, old(vol.d)) ==> Covered(vol.v, vol.hard, vol.d)
  {
    hide Sound, Consistent, IsDir, DirBlocks, Flat, Entries, Descending, DirOnly, Listed, Unlisted, UnlistedElsewhere,
         Without, Sole, Drops, Conserved, KeepsFiles, KeepsDirs, Orderly, OldDirs, Covered, CountsDown, Calm, Emptied;
    ghost var d1 := vol.d;
    DirOnlyKeeps(vol.v, d0, d1, n);
    DirOnlyLinks(vol.v, d0, d1, n);
    LastEntry(vol.v, vol.reserved, d0, d1, n, name, version, f);
    vol.DeleteFile(f, erase);
    if Covered(vol.v, vol.hard, d1) { CalmCovered(vol.v, vol.hard, d1, vol.d); }
    DropsFile(vol.v, d0, d1, vol.d, n, f);
    KeptDir(vol.v, d1, vol.d, f.num, n);
    OldTrans(d0, d1, vol.d, None);
    if Sole(vol.v, d0, n, name, version, f) {
      TidyGone(vol.v, vol.reserved, d1, vol.d, f);
      SoundOf(vol.v, vol.d);
    }
    SameCounts(d0, d1, vol.d, f);
    if erase { EmptiedFrom(vol.v, d0, d1, vol.d, n, f); }
  }

  // The directory's update left the file's headers alone.
  lemma EmptiedFrom(v: nat, d: Disk, x: Disk, now: Disk, n: int, f: Fid)
    requires DirOnly(v, d, x, n) && IsDir(v, d, n) && f.num != n && Emptied(v, x, now, f)
    ensures Emptied(v, d, now, f)
  {
    hide Lists, Consistent, Conserved, AllEmpty, IsDir;
    DirSays(v, d, n);
    forall k | HeaderOf(d, k, f)
      ensures AllEmpty(now, d.live[k].at, v)
    {
      assert k != n;
      assert HeaderOf(x, k, f);
    }
  }

  // One link fewer, once the entry has gone.
  method CountDown(vol: Volume, ghost d0: Disk, ghost n: int, ghost name: seq<Char16>, ghost version: int, f: Fid,
                   h: Header)
    requires vol.hard && vol.Inv() && Tidy(vol.v, vol.reserved, d0) && Tidy(vol.v, vol.reserved, vol.d)
    requires DirOnly(vol.v, d0, vol.d, n) && f.num != n
    requires IsDir(vol.v, d0, n) && IsDir(vol.v, vol.d, n) && Named(d0, f) && h == d0.live[f.num] && h.links > 1
    requires var was := Flat(DirBlocks(vol.v, d0, n));
      && Listed(was, Flat(DirBlocks(vol.v, vol.d, n)), name, Without(Entries(was, name), version))
      && Entry(version, f) in Entries(was, name) && Descending(Entries(was, name))
    requires Drops(vol.v, d0, vol.d, n, f, false) && OldDirs(d0, vol.d, None)
    modifies vol
    ensures vol.Inv() && old(vol.trace) <= vol.trace && OldDirs(d0, vol.d, None) && Tidy(vol.v, vol.reserved, vol.d)
    ensures Sound(vol.v, vol.d)
    ensures Drops(vol.v, d0, vol.d, n, f, false) && IsDir(vol.v, vol.d, n)
    ensures DirBlocks(vol.v, vol.d, n) == DirBlocks(vol.v, old(vol.d), n)
    ensures CountsDown(d0, vol.d, f, 1)
    ensures old(vol.Counted()) && Covered(vol.v, vol.hard, d0) ==> vol.Counted()
    ensures Covered(vol.v, vol.hard, d0) ==> Covered(vol.v, vol.hard, vol.d)
  {
    hide Sound, Consistent, IsDir, DirBlocks, Flat, Entries, Descending, DirOnly, Listed, Without, Drops, Conserved,
         Orderly, OldDirs, Covered, Places, SameListings, SameContents, KeepsSpace, Fold;
    ghost var d1 := vol.d;
    DirOnlyKeeps(vol.v, d0, d1, n);
    DirOnlyLinks(vol.v, d0, d1, n);
    var links: U16 := h.links - 1;
    LinksKeep(vol.v, vol.reserved, d1, f.num, h.back, links);
    LinksDir(vol.v, d1, f.num, h.back, links, n);
    DropsLinks(vol.v, d0, d1, n, f, f.num, h.back, links);
    SoundOf(vol.v, WithLinks(d1, f.num, h.back, links));
    if Covered(vol.v, vol.hard, d0) {
      RemovedCovered(vol.v, vol.hard, vol.reserved, d0, d1, n, name, version, f);
      RemovedPlaces(vol.v, vol.reserved, d0, d1, n, name, version, f, f);
      FewerPlaces(vol.v, vol.hard, d0, d1, f, Place(n, Fold(name), version));
      LinksCovered(vol.v, vol.hard, d1, f, h.back, links);
    }
    vol.PutHeader(f.num, h.(links := links));
    OldTrans(d0, d1, vol.d, None);
  }

  lemma FewerPlaces(v: nat, hard: bool, d: Disk, now: Disk, f: Fid, p: Place)
    requires p in Places(v, d, f) && Places(v, now, f) == Places(v, d, f) - {p} && Covered(v, hard, d) && Named(d, f)
    ensures |Places(v, now, f)| <= Reckoned(hard, d.live[f.num]) - 1
  {
    hide Places;
  }

  lemma SameCounts(d: Disk, x: Disk, now: Disk, f: Fid)
    requires forall m <- d.live :: m in x.live && x.live[m].links == d.live[m].links && x.live[m].back == d.live[m].back
    requires forall n <- now.live :: n in x.live && now.live[n] == x.live[n]
    ensures CountsDown(d, now, f, 0)
  {
  }

  lemma NotADir(v: nat, d: Disk, f: Fid)
    requires Named(d, f)
    ensures IsDir(v, d, f.num) ==> d.live[f.num].dir
    ensures HeadsDir(d, f.num) <==> d.live[f.num].dir
  {
  }

  lemma KeptDir(v: nat, d: Disk, now: Disk, n: int, m: int)
    requires KeepsDirs(v, d, now, n) && IsDir(v, d, m) && m != n
    ensures IsDir(v, now, m) && DirBlocks(v, now, m) == DirBlocks(v, d, m)
  {
  }
}
