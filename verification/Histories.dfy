/** Any operations on a volume, one after another.  Whatever they are and
    whatever becomes of them, the volume stays tidy, each file and directory
    that none of them is about stays as it was, and every cluster is free or a
    file's.  A volume that counts entries stays so whatever is done; one that does
    not, as long as no rename stops between its two updates. */
module Histories {
  import opened Disk
  import opened Directory
  import opened DirDisk
  import opened Contents
  import opened NewFile
  import opened Wildcards
  import opened LinkCount
  import opened Volume
  import opened Slots
  import opened Operations
  import opened Tidiness
  import D = Deleting
  import opened Purging
  import opened Creating
  import opened Renaming
  import R = Renaming
  import Bitmap
  import F = FileMap
  import N = NameSyntax

  /** What is asked for.  erase says of each file whether its blocks are erased when it
      goes, by its own flag or the volume's; last is the pointers of the file's last
      header. */
  datatype Op =
    | CreateFile(dir: int, name: seq<Char16>, asked: Option<int>, want: nat, how: Bitmap.How, flags: int, limit: int,
                 erase: Fid -> bool)
    | MakeDirectory(dir: int, name: seq<Char16>, flags: int, erase: Fid -> bool)
    | DeleteEntry(dir: int, name: seq<Char16>, version: int, erase: Fid -> bool)
    | PurgeVersions(dir: int, name: seq<Char16>, keep: nat, erase: Fid -> bool)
    | RenameEntry(dir: int, name: seq<Char16>, which: N.Version, into: int, to: seq<Char16>, asked: Option<int>,
                  flags: int,
                  limit: int)
    | ExtendFile(file: Fid, want: nat, how: Bitmap.How, contiguous: bool, last: F.Seg)
    | TruncateFile(file: Fid, keep: nat)

  /** The operation is about the file: one it resizes, or a directory it names. */
  predicate Touches(op: Op, g: Fid) {
    match op
    case RenameEntry(dir, _, _, into, _, _, _, _) => g.num == dir || g.num == into
    case ExtendFile(file, _, _, _, _) => g == file
    case TruncateFile(file, _) => g == file
    case _ => g.num == op.dir
  }

  /** A directory lists what it did; another file holds what it did. */
  ghost predicate Unchanged(v: nat, d: Disk, now: Disk, g: Fid) {
    if HeadsDir(d, g.num) then IsDir(v, d, g.num) && IsDir(v, now, g.num)
      && DirBlocks(v, now, g.num) == DirBlocks(v, d, g.num)
    else forall cs | Maps(d, g, cs) :: Maps(now, g, cs)
  }

  /** The files but those gone are there, directories where they were, and those
      no operation is about are as they were. */
  ghost predicate Keeps(v: nat, d: Disk, now: Disk, gone: set<Fid>, ops: seq<Op>) {
    forall g | Named(d, g) && g !in gone ::
      && Named(now, g) && (HeadsDir(now, g.num) <==> HeadsDir(d, g.num))
      && ((forall op <- ops :: !Touches(op, g)) ==> Unchanged(v, d, now, g))
  }

  lemma KeptSelf(v: nat, res: int, d: Disk, ops: seq<Op>)
    requires Orderly(v, res, d)
    ensures Keeps(v, d, d, {}, ops)
  {
    hide IsDir, DirBlocks, Maps, Neat;
    forall m | HeadsDir(d, m)
      ensures IsDir(v, d, m)
    {
      NeatDir(v, res, d, m);
    }
  }

  lemma UnchangedOn(v: nat, a: Disk, b: Disk, c: Disk, g: Fid)
    requires Unchanged(v, a, b, g) && Unchanged(v, b, c, g) && (HeadsDir(b, g.num) <==> HeadsDir(a, g.num))
    ensures Unchanged(v, a, c, g)
  {
    hide IsDir, DirBlocks, Maps, HeadsDir;
  }

  lemma KeptOn(v: nat, a: Disk, b: Disk, c: Disk, g1: set<Fid>, g2: set<Fid>, ops: seq<Op>, op: Op)
    requires Keeps(v, a, b, g1, ops) && Keeps(v, b, c, g2, [op])
    ensures Keeps(v, a, c, g1 + g2, ops + [op])
  {
    hide Unchanged, HeadsDir, Touches, Named;
    forall g | Named(a, g) && g !in g1 + g2
      ensures Named(c, g) && (HeadsDir(c, g.num) <==> HeadsDir(a, g.num))
      ensures (forall o <- ops + [op] :: !Touches(o, g)) ==> Unchanged(v, a, c, g)
    {
      if forall o <- ops + [op] :: !Touches(o, g) {
        forall o | o in ops
          ensures !Touches(o, g)
        {
          assert o in ops + [op];
        }
        assert op in ops + [op];
        UnchangedOn(v, a, b, c, g);
      }
    }
  }

  // A directory stays one, and no other file becomes one.
  lemma StaysDir(v: nat, d: Disk, now: Disk, g: Fid, but: Option<int>)
    requires OldDirs(d, now, but) && Named(d, g) && Named(now, g) && but != Some(g.num)
    requires HeadsDir(d, g.num) ==> IsDir(v, now, g.num) || HeadsDir(now, g.num)
    ensures HeadsDir(now, g.num) <==> HeadsDir(d, g.num)
  {
    hide DirBlocks, Vbn;
  }

  lemma AllRead(v: nat, res: int, d: Disk)
    requires Orderly(v, res, d)
    ensures forall m | HeadsDir(d, m) :: IsDir(v, d, m)
  {
    hide IsDir, Neat, HeadsDir;
    forall m | HeadsDir(d, m)
      ensures IsDir(v, d, m)
    {
      NeatDir(v, res, d, m);
    }
  }

  lemma KeptUndone(v: nat, res: int, d: Disk, now: Disk, left: set<int>, ops: seq<Op>)
    requires Orderly(v, res, d) && Undone(v, d, now, left) && OldDirs(d, now, None)
    ensures Keeps(v, d, now, {}, ops)
  {
    hide Consistent, Orderly, IsDir, DirBlocks, Maps, KeepsSpace, HeadsDir, OldDirs, SameLinks;
    AllRead(v, res, d);
    forall g | Named(d, g)
      ensures Named(now, g) && (HeadsDir(now, g.num) <==> HeadsDir(d, g.num)) && Unchanged(v, d, now, g)
    {
      StaysDir(v, d, now, g, None);
    }
  }

  // A number is one file's at a time.
  lemma OneFile(d: Disk, now: Disk, f: Fid, g: Fid)
    requires Named(d, g) && Named(now, g) && Named(now, f) && !Named(d, f)
    ensures g.num != f.num
  {
  }

  lemma KeptEntered(v: nat, res: int, d: Disk, now: Disk, n: int, f: Fid, cs: seq<nat>, op: Op)
    requires Orderly(v, res, d) && EnteredAs(v, d, now, n, f, cs) && HeadsDir(now, n) && OldDirs(d, now, Some(f.num))
    requires forall g: Fid | g.num == n :: Touches(op, g)
    ensures Keeps(v, d, now, {}, [op])
  {
    hide Orderly, IsDir, DirBlocks, Maps, KeepsSpace, HeadsDir, OldDirs, Named, Touches;
    AllRead(v, res, d);
    forall g | Named(d, g)
      ensures Named(now, g) && (HeadsDir(now, g.num) <==> HeadsDir(d, g.num))
      ensures !Touches(op, g) ==> Unchanged(v, d, now, g)
    {
      OneFile(d, now, f, g);
      StaysDir(v, d, now, g, Some(f.num));
    }
    OnlyOp(op);
  }

  lemma KeptCreated(v: nat, res: int, d: Disk, now: Disk, n: int, f: Fid, cs: seq<nat>, gone: set<Fid>, op: Op)
    requires Orderly(v, res, d) && Enters(v, d, now, n, f, cs, gone) && HeadsDir(now, n) && OldDirs(d, now, None)
    requires forall g: Fid | g.num == n :: Touches(op, g)
    ensures Keeps(v, d, now, gone, [op])
  {
    hide Orderly, IsDir, DirBlocks, Maps, KeepsSpace, HeadsDir, OldDirs, Touches;
    AllRead(v, res, d);
    forall g | Named(d, g) && g !in gone
      ensures Named(now, g) && (HeadsDir(now, g.num) <==> HeadsDir(d, g.num))
      ensures !Touches(op, g) ==> Unchanged(v, d, now, g)
    {
      if HeadsDir(d, g.num) { SameFid(d, g); }
      StaysDir(v, d, now, g, None);
    }
    OnlyOp(op);
  }

  lemma SameFid(d: Disk, g: Fid)
    requires Named(d, g)
    ensures g.num in d.live && g == Fid(g.num, d.live[g.num].seqno)
  {
  }

  lemma OnlyOp(op: Op)
    ensures forall g: Fid :: (forall o <- [op] :: !Touches(o, g)) ==> !Touches(op, g)
  {
    hide Touches;
    assert op in [op];
  }

  lemma KeptLoses(v: nat, res: int, d: Disk, now: Disk, n: int, gone: set<Fid>, op: Op)
    requires Orderly(v, res, d) && Loses(v, d, now, n, gone) && HeadsDir(now, n) && OldDirs(d, now, None)
    requires forall g: Fid | g.num == n :: Touches(op, g)
    ensures Keeps(v, d, now, gone, [op])
  {
    hide Orderly, IsDir, DirBlocks, Maps, KeepsSpace, HeadsDir, OldDirs, Touches;
    AllRead(v, res, d);
    forall g | Named(d, g) && g !in gone
      ensures Named(now, g) && (HeadsDir(now, g.num) <==> HeadsDir(d, g.num))
      ensures !Touches(op, g) ==> Unchanged(v, d, now, g)
    {
      if HeadsDir(d, g.num) { SameFid(d, g); }
      StaysDir(v, d, now, g, None);
    }
    OnlyOp(op);
  }

  lemma KeptMoved(v: nat, res: int, d: Disk, now: Disk, n: int, m: int, op: Op)
    requires Orderly(v, res, d) && BesidesTwo(v, d, now, n, m) && IsDir(v, now, n) && IsDir(v, now, m)
    requires OldDirs(d, now, None)
    requires (forall g :: Named(now, g) <==> Named(d, g)) && forall g: Fid | g.num == n || g.num == m :: Touches(op, g)
    ensures Keeps(v, d, now, {}, [op])
  {
    hide Orderly, IsDir, DirBlocks, Maps, HeadsDir, OldDirs, Touches, Named;
    AllRead(v, res, d);
    forall g | Named(d, g)
      ensures Named(now, g) && (HeadsDir(now, g.num) <==> HeadsDir(d, g.num))
      ensures !Touches(op, g) ==> Unchanged(v, d, now, g)
    {
      StaysDir(v, d, now, g, None);
    }
    OnlyOp(op);
  }

  lemma KeptSized(v: nat, res: int, d: Disk, now: Disk, f: Fid, op: Op)
    requires Orderly(v, res, d) && Named(d, f) && !HeadsDir(d, f.num) && OldDirs(d, now, None) && Touches(op, f)
    requires KeepsFiles(d, now, f) && KeepsDirs(v, d, now, f.num) && forall g :: Named(now, g) <==> Named(d, g)
    ensures Keeps(v, d, now, {}, [op]) && Orderly(v, res, now)
  {
    hide Orderly, IsDir, DirBlocks, Maps, OldDirs, Touches;
    AllRead(v, res, d);
    forall g | Named(d, g)
      ensures Named(now, g) && (HeadsDir(now, g.num) <==> HeadsDir(d, g.num))
      ensures !Touches(op, g) ==> Unchanged(v, d, now, g)
    {
      StaysDir(v, d, now, g, None);
    }
    OnlyOp(op);
    NotNew(d, now, f.num);
    NotHeadStill(d, now, f.num);
    OrderlyBut(v, res, d, now, f.num);
  }

  // ---------------------------------------------------------------------
  // Where a history may begin
  // ---------------------------------------------------------------------

  // A volume of nothing but an empty directory.
  function Blank(size: nat, f: Fid, c: nat, top: int, links: U16): Disk {
    Disk(map[f.num := NewFile.First(f, [c], true, 1, f, links)], map[], {f.num}, top, seq(size, k => k != c),
         map[(c, 0) := EMPTY])
  }

  lemma BlankTidy(v: nat, hard: bool, res: int, size: nat, f: Fid, c: nat, top: int, links: U16)
    requires v > 0 && c < size && 0 < f.num < top
    ensures var d := Blank(size, f, c, top, links);
      Tidy(v, res, d) && Covered(v, hard, d) && Conserved(d, {}) && HeadsDir(d, f.num)
  {
    hide Neat, Places, Calm;
    var d := Blank(size, f, c, top, links);
    var bare := d.(live := map[]);
    var h := NewFile.First(f, [c], true, 1, f, links);
    EmptyDir(v, bare, f, c, f, links);
    AddedConsistent(v, bare, f, h);
    assert Added(bare, f, h) == d;
    EmptyLists(v, d, f, c, f, links);
    EmptyNeat(v, res, d, f.num);
    BlankUnlisted(v, res, d, f);
  }

  lemma BlankUnlisted(v: nat, res: int, d: Disk, f: Fid)
    requires Tidy(v, res, d) && (forall m <- d.live :: m == f.num) && IsDir(v, d, f.num)
    requires Flat(DirBlocks(v, d, f.num)) == []
    ensures forall g :: Places(v, d, g) == {}
  {
    hide Tidy, IsDir, DirBlocks, Flat, Places, Fold;
    forall g, p
      ensures p !in Places(v, d, g)
    {
      TidyPlaces(v, res, d, g, p);
    }
  }

  // ---------------------------------------------------------------------
  // What operations do
  // ---------------------------------------------------------------------

  /** The files gone, the clusters lost, and whether a rename was left with more
      entries for a file than are counted. */
  datatype Effect = Effect(gone: set<Fid>, lost: set<nat>, slips: bool)

  const NO_EFFECT := Effect({}, {}, false)

  /** What is so after operations.  The disk is sound unless an entry dangles, and
      then it is tidy; where each file had as many links as entries and no rename
      slipped, that is still so, and none dangles. */
  ghost predicate Did(v: nat, hard: bool, res: int, d: Disk, now: Disk, ops: seq<Op>, dangles: bool, e: Effect) {
    && (dangles <==> !Sound(v, now)) && (!dangles ==> Tidy(v, res, now))
    && Keeps(v, d, now, e.gone, ops) && (forall g <- e.gone :: g.num > res)
    && (forall but :: Conserved(d, but) ==> Conserved(now, but + e.lost))
    && (Covered(v, hard, d) && !e.slips ==> Covered(v, hard, now) && !dangles)
  }

  /** A file with as many entries as a link count can say. */
  ghost predicate Crowded(v: nat, run: seq<Disk>) {
    exists x <- run, f :: |Places(v, x, f)| >= MAX_LINKS
  }

  /** The rename finds space for the new entry on the disk and then none to remove the old
      one. */
  ghost predicate Strands(v: nat, d: Disk, op: Op) {
    && op.RenameEntry? && |op.name| <= MAX_NAME && |op.to| <= MAX_NAME && IsDir(v, d, op.dir) && IsDir(v, d, op.into)
    && exists x: Entry :: Resolves(VersionsIn(v, d, op.dir, op.name), op.which, x) && Named(d, x.fid) && (
         var to := RenamedVersion(VersionsIn(v, d, op.into, op.to), op.asked, d.live[x.fid.num].dir, x.version);
         R.Strands(v, d, op.dir, op.name, x.version, op.into, op.to, Add(to, x.fid, op.flags, op.limit)))
  }

  /** One of the operations did so somewhere on the way. */
  ghost predicate Stranded(v: nat, run: seq<Disk>, ops: seq<Op>) {
    exists x <- run, op <- ops :: Strands(v, x, op)
  }

  lemma DidNothing(v: nat, hard: bool, res: int, d: Disk, ops: seq<Op>)
    requires Tidy(v, res, d) && Sound(v, d)
    ensures Did(v, hard, res, d, d, ops, false, NO_EFFECT)
  {
    hide Sound, Consistent, Orderly, Keeps, Conserved, Covered;
    KeptSelf(v, res, d, ops);
    NoMoreLost();
  }

  lemma NoMoreLost()
    ensures forall but: set<nat> :: but + {} == but
  {
  }

  function Both(a: Effect, b: Effect): Effect { Effect(a.gone + b.gone, a.lost + b.lost, a.slips || b.slips) }

  lemma DidOn(v: nat, hard: bool, res: int, a: Disk, b: Disk, c: Disk, ops: seq<Op>, op: Op, dangles: bool, e: Effect,
              f: Effect)
    requires Did(v, hard, res, a, b, ops, false, e) && Did(v, hard, res, b, c, [op], dangles, f)
    ensures Did(v, hard, res, a, c, ops + [op], dangles, Both(e, f))
  {
    hide Sound, Tidy, Keeps, Conserved, Covered;
    KeptOn(v, a, b, c, e.gone, f.gone, ops, op);
    forall but | Conserved(a, but)
      ensures Conserved(c, but + Both(e, f).lost)
    {
      assert but + (e.lost + f.lost) == (but + e.lost) + f.lost;
    }
  }

  // ---------------------------------------------------------------------
  // One operation
  // ---------------------------------------------------------------------

  method Enter(vol: Volume, op: Op) returns (dangles: bool, ghost e: Effect)
    requires vol.Inv() && Tidy(vol.v, vol.reserved, vol.d)
    requires op.CreateFile? && HeadsDir(vol.d, op.dir) && |op.name| <= MAX_NAME
    modifies vol
    ensures vol.Shape() && old(vol.trace) <= vol.trace && (!dangles ==> vol.Inv())
    ensures old(vol.Counted()) ==> vol.Counted()
    ensures Did(vol.v, vol.hard, vol.reserved, old(vol.d), vol.d, [op], dangles, e) && KeepsSpace(old(vol.d), vol.d)
    ensures e.lost == {} && !e.slips
  {
    hide Sound, Consistent, Orderly, Keeps, OldDirs, Undone, EnteredPast, HeadsDir, IsDir, DirBlocks, Flat, Entries,
         Has, Conserved, Covered, Vacancies, LeavesMarked, InOnePiece, NewVersion;
    ghost var d0, take, left, gone, purged := vol.d, [], {}, {}, 0;
    var r: Creation;
    r, take, left, gone, purged := Create(vol, op.dir, op.name, op.asked, op.want, op.how, op.flags, op.limit,
                                          op.erase);
    dangles := r.LeftDangling?;
    e := Effect(gone, {}, false);
    if IsMade(r) {
      TidySays(vol.v, vol.reserved, d0, op.dir, op.name);
      DirOf(vol.v, d0, op.dir);
      DirHeads(vol.v, vol.d, op.dir);
      EntersSays(vol.v, d0, vol.d, op.dir, op.name, op.limit, r, take, gone, purged);
      KeptCreated(vol.v, vol.reserved, d0, vol.d, op.dir, r.fid, take, gone, op);
    } else {
      KeptUndone(vol.v, vol.reserved, d0, vol.d, left, [op]);
      UndoneSpace(vol.v, d0, vol.d, left);
    }
    KeepsNone(d0, vol.d);
  }

  lemma EntersSays(v: nat, d: Disk, now: Disk, n: int, name: seq<Char16>, limit: int, r: Creation, take: seq<nat>,
                   gone: set<Fid>, purged: nat)
    requires IsMade(r) && IsDir(v, d, n) && IsDir(v, now, n)
    requires EnteredPast(v, d, now, n, name, limit, r, take, gone, purged)
    ensures Enters(v, d, now, n, r.fid, take, gone) && KeepsSpace(d, now)
  {
    hide IsDir, DirBlocks, Flat, Entries, Has, Conserved, Maps, Kept, Listed, Insert, Limit, Newer, KeepsSpace;
  }

  lemma UndoneSpace(v: nat, d: Disk, now: Disk, left: set<int>)
    requires Undone(v, d, now, left)
    ensures KeepsSpace(d, now)
  {
    hide Consistent, SameFiles, Conserved;
  }

  lemma KeepsNone(d: Disk, now: Disk)
    ensures KeepsSpace(d, now) <==> forall but :: Conserved(d, but) ==> Conserved(now, but + {})
  {
    hide Conserved;
    forall but: set<nat>
      ensures but + {} == but
    {
    }
  }

  method Place(vol: Volume, op: Op) returns (ghost e: Effect)
    requires vol.Inv() && Tidy(vol.v, vol.reserved, vol.d)
    requires op.MakeDirectory? && HeadsDir(vol.d, op.dir) && |op.name| <= MAX_NAME
    modifies vol
    ensures vol.Inv() && old(vol.trace) <= vol.trace && (old(vol.Counted()) ==> vol.Counted())
    ensures Did(vol.v, vol.hard, vol.reserved, old(vol.d), vol.d, [op], false, e) && KeepsSpace(old(vol.d), vol.d)
    ensures e == NO_EFFECT
  {
    hide Sound, Consistent, Orderly, Keeps, OldDirs, Undone, EnteredAs, HeadsDir, IsDir, DirBlocks, Flat, Entries,
         Listed, Conserved, Covered;
    ghost var d0, at := vol.d, 0;
    var r: Placing;
    r, at := CreateDir(vol, op.dir, op.name, op.flags, op.erase);
    vol.SoundNow();
    e := NO_EFFECT;
    if r.Placed? {
      KeptEntered(vol.v, vol.reserved, d0, vol.d, op.dir, r.fid, [at], op);
      EnteredSpace(vol.v, d0, vol.d, op.dir, r.fid, [at]);
    } else {
      KeptUndone(vol.v, vol.reserved, d0, vol.d, {}, [op]);
      UndoneSpace(vol.v, d0, vol.d, {});
    }
    KeepsNone(d0, vol.d);
  }

  lemma EnteredSpace(v: nat, d: Disk, now: Disk, n: int, f: Fid, cs: seq<nat>)
    requires EnteredAs(v, d, now, n, f, cs)
    ensures KeepsSpace(d, now)
  {
    hide Maps, KeepsDirs, Conserved;
  }

  method Remove(vol: Volume, op: Op) returns (dangles: bool, ghost e: Effect)
    requires vol.Inv() && Tidy(vol.v, vol.reserved, vol.d)
    requires op.DeleteEntry? && HeadsDir(vol.d, op.dir) && |op.name| <= MAX_NAME
    modifies vol
    ensures vol.Shape() && old(vol.trace) <= vol.trace && (!dangles ==> vol.Inv())
    ensures old(vol.Counted()) ==> vol.Counted()
    ensures Did(vol.v, vol.hard, vol.reserved, old(vol.d), vol.d, [op], dangles, e) && KeepsSpace(old(vol.d), vol.d)
    ensures e.lost == {} && !e.slips
  {
    hide Sound, Consistent, Orderly, IsDir, DirBlocks, Flat, Entries, HeadsDir, Keeps, OldDirs, D.Drops, D.CountsDown,
         D.Sole, D.GoesWith, Listed, Has, Without, Conserved, Covered, Loses;
    ghost var d0 := vol.d;
    vol.SoundNow();
    DidNothing(vol.v, vol.hard, vol.reserved, d0, [op]);
    NothingSpent(d0);
    var r := D.Delete(vol, op.dir, op.name, op.version, op.erase);
    dangles := r.Deleted? && r.dangles;
    e := NO_EFFECT;
    if r.Deleted? {
      ghost var gone := if r.last then {r.fid} else {};
      LosesDrops(vol.v, d0, vol.d, op.dir, r.fid, r.last);
      LosesSpace(vol.v, d0, vol.d, op.dir, gone);
      DirHeads(vol.v, vol.d, op.dir);
      KeptLoses(vol.v, vol.reserved, d0, vol.d, op.dir, gone, op);
      KeepsNone(d0, vol.d);
      e := Effect(gone, {}, false);
    }
  }

  lemma LosesSpace(v: nat, d: Disk, now: Disk, n: int, gone: set<Fid>)
    requires Loses(v, d, now, n, gone)
    ensures KeepsSpace(d, now)
  {
    hide Maps, IsDir, DirBlocks, Conserved;
  }

  method RemoveOld(vol: Volume, op: Op) returns (dangles: bool, ghost e: Effect)
    requires vol.Inv() && Tidy(vol.v, vol.reserved, vol.d)
    requires op.PurgeVersions? && HeadsDir(vol.d, op.dir) && |op.name| <= MAX_NAME
    modifies vol
    ensures vol.Shape() && old(vol.trace) <= vol.trace && (!dangles ==> vol.Inv())
    ensures old(vol.Counted()) ==> vol.Counted()
    ensures Did(vol.v, vol.hard, vol.reserved, old(vol.d), vol.d, [op], dangles, e) && KeepsSpace(old(vol.d), vol.d)
    ensures e.lost == {} && !e.slips
  {
    hide Sound, Consistent, Orderly, IsDir, DirBlocks, Flat, Entries, HeadsDir, Keeps, OldDirs, Listed, Conserved,
         Covered, Loses, Purging.First;
    ghost var d0, gone := vol.d, {};
    var r: Purge;
    r, gone := PurgeName(vol, op.dir, op.name, op.keep, op.erase);
    dangles := r.Dangles?;
    LosesSpace(vol.v, d0, vol.d, op.dir, gone);
    DirHeads(vol.v, vol.d, op.dir);
    KeptLoses(vol.v, vol.reserved, d0, vol.d, op.dir, gone, op);
    KeepsNone(d0, vol.d);
    e := Effect(gone, {}, false);
  }

  method Move(vol: Volume, op: Op) returns (ghost e: Effect)
    requires vol.Inv() && Tidy(vol.v, vol.reserved, vol.d)
    requires op.RenameEntry? && HeadsDir(vol.d, op.dir) && HeadsDir(vol.d, op.into) && |op.name| <= MAX_NAME
    requires |op.to| <= MAX_NAME
    modifies vol
    ensures vol.Inv() && old(vol.trace) <= vol.trace && (vol.hard && old(vol.Counted()) && !e.slips ==> vol.Counted())
    ensures Did(vol.v, vol.hard, vol.reserved, old(vol.d), vol.d, [op], false, e) && KeepsSpace(old(vol.d), vol.d)
    ensures e == NO_EFFECT.(slips := e.slips)
    ensures e.slips && Covered(vol.v, vol.hard, old(vol.d)) ==> !Covered(vol.v, vol.hard, vol.d)
    ensures vol.hard && e.slips ==> exists f :: |Places(vol.v, old(vol.d), f)| >= MAX_LINKS
    ensures !vol.hard && e.slips ==> Strands(vol.v, old(vol.d), op)
  {
    hide Sound, Consistent, Orderly, IsDir, DirBlocks, Flat, Entries, HeadsDir, Keeps, OldDirs, Conserved, Covered,
         NeverLost, Moves, TwoDirs, Places, Refused, VersionsIn, Has, Strands, R.Strands;
    ghost var d0, x, t, mid := vol.d, Entry(0, Fid(0, 0)), 0, [];
    vol.SoundNow();
    DidNothing(vol.v, vol.hard, vol.reserved, d0, [op]);
    NothingSpent(d0);
    var r: Renaming;
    r, x, t, mid := Rename(vol, op.dir, op.name, op.which, op.into, op.to, op.asked, op.flags, op.limit);
    vol.SoundNow();
    e := NO_EFFECT;
    if Counting(r) {
      TwoSays(vol.v, d0, vol.d, op.dir, op.into, x.fid);
      KeptMoved(vol.v, vol.reserved, d0, vol.d, op.dir, op.into, op);
      KeepsNone(d0, vol.d);
      e := e.(slips := if vol.hard then |Places(vol.v, d0, x.fid)| >= MAX_LINKS else r.HalfMoved?);
      if r.HalfMoved? { StrandsIf(vol.v, vol.reserved, d0, op, x, t, r); }
    }
  }

  lemma StrandsIf(v: nat, res: int, d: Disk, op: Op, x: Entry, to: int, r: Renaming)
    requires op.RenameEntry? && |op.name| <= MAX_NAME && |op.to| <= MAX_NAME && IsDir(v, d, op.dir)
    requires IsDir(v, d, op.into)
    requires r.HalfMoved? && Refused(v, res, d, op.dir, op.name, op.which, op.into, op.to, op.asked, x, to, r)
    requires R.Strands(v, d, op.dir, op.name, x.version, op.into, op.to, Add(to, x.fid, op.flags, op.limit))
    ensures Strands(v, d, op)
  {
    hide IsDir, VersionsIn, Resolves, Reaches, R.Strands, DirType, Cmp;
  }

  lemma TwoSays(v: nat, d: Disk, now: Disk, n: int, m: int, f: Fid)
    requires TwoDirs(v, d, now, n, m, f)
    ensures KeepsSpace(d, now) && (forall g :: Named(now, g) <==> Named(d, g)) && BesidesTwo(v, d, now, n, m)
    ensures OldDirs(d, now, None)
  {
    hide KeepsSpace, BesidesTwo, OldDirs, OthersAlike;
  }

  method Grow(vol: Volume, op: Op) returns (ghost e: Effect)
    requires vol.Inv() && Tidy(vol.v, vol.reserved, vol.d)
    requires op.ExtendFile? && Named(vol.d, op.file) && !vol.d.live[op.file.num].dir
    requires LastStands(vol.v, vol.d, op.file, op.last)
    modifies vol
    ensures vol.Inv() && old(vol.trace) <= vol.trace && (old(vol.Counted()) ==> vol.Counted())
    ensures Did(vol.v, vol.hard, vol.reserved, old(vol.d), vol.d, [op], false, e)
    ensures KeepsSpace(old(vol.d), vol.d) <==> e.lost == {}
    ensures e.gone == {} && !e.slips
  {
    hide Sound, Consistent, Orderly, Maps, KeepsFiles, KeepsDirs, Conserved, Owned, Keeps, OldDirs, Suits,
         SameContents, Covered, Calm, Vacancies, SameLinks, KeepsSpace;
    ghost var d0 := vol.d;
    var r, take := Extend(vol, op.file, op.want, op.how, op.contiguous, op.last);
    vol.SoundNow();
    NotHeaded(d0, op.file);
    KeptSized(vol.v, vol.reserved, d0, vol.d, op.file, op);
    if Covered(vol.v, vol.hard, d0) { CalmCovered(vol.v, vol.hard, d0, vol.d); }
    KeepsNone(d0, vol.d);
    if r.NoHeaders? { assert take.value[0] in take.value; }
    e := Effect({}, if r.NoHeaders? then set c | c in take.value else {}, false);
  }

  lemma NotHeaded(d: Disk, f: Fid)
    requires Named(d, f) && !d.live[f.num].dir
    ensures !HeadsDir(d, f.num)
  {
  }

  method Shrink(vol: Volume, op: Op) returns (ghost e: Effect)
    requires vol.Inv() && Tidy(vol.v, vol.reserved, vol.d)
    requires op.TruncateFile? && Named(vol.d, op.file) && !vol.d.live[op.file.num].dir
    modifies vol
    ensures vol.Inv() && old(vol.trace) <= vol.trace && (old(vol.Counted()) ==> vol.Counted())
    ensures Did(vol.v, vol.hard, vol.reserved, old(vol.d), vol.d, [op], false, e) && KeepsSpace(old(vol.d), vol.d)
    ensures e == NO_EFFECT
  {
    hide Sound, Consistent, Orderly, Maps, KeepsFiles, KeepsDirs, Conserved, Keeps, OldDirs, Covered, Calm;
    ghost var d0 := vol.d;
    vol.Truncate(op.file, op.keep);
    vol.SoundNow();
    NotHeaded(d0, op.file);
    KeptSized(vol.v, vol.reserved, d0, vol.d, op.file, op);
    if Covered(vol.v, vol.hard, d0) { CalmCovered(vol.v, vol.hard, d0, vol.d); }
    KeepsNone(d0, vol.d);
    e := NO_EFFECT;
  }

  predicate Deletes(op: Op) { op.DeleteEntry? || op.PurgeVersions? || op.CreateFile? }

  /** Any operation: what it cannot do it leaves undone. */
  method Perform(vol: Volume, op: Op) returns (dangles: bool, ghost e: Effect)
    requires vol.Inv() && Tidy(vol.v, vol.reserved, vol.d)
    modifies vol
    ensures vol.Shape() && old(vol.trace) <= vol.trace && (!dangles ==> vol.Inv() && Tidy(vol.v, vol.reserved, vol.d))
    ensures dangles ==> Deletes(op)
    ensures Did(vol.v, vol.hard, vol.reserved, old(vol.d), vol.d, [op], dangles, e)
    ensures (Deletes(op) || e.gone == {}) && (op.ExtendFile? || e.lost == {}) && (op.RenameEntry? || !e.slips)
    ensures KeepsSpace(old(vol.d), vol.d) <==> e.lost == {}
    ensures Covered(vol.v, vol.hard, old(vol.d)) ==> (Covered(vol.v, vol.hard, vol.d) <==> !e.slips)
    ensures vol.hard && old(vol.Counted()) && !e.slips ==> vol.Counted()
    ensures vol.hard && e.slips ==> exists f :: |Places(vol.v, old(vol.d), f)| >= MAX_LINKS
    ensures !vol.hard && e.slips ==> Strands(vol.v, old(vol.d), op)
  {
    hide Sound, Tidy, Keeps, Conserved, Covered, Places, KeepsSpace, HeadsDir, Strands;
    dangles, e := false, NO_EFFECT;
    vol.SoundNow();
    DidNothing(vol.v, vol.hard, vol.reserved, vol.d, [op]);
    NothingSpent(vol.d);
    match op {
      case CreateFile(dir, name, _, _, _, _, _, _) =>
        if HeadsDir(vol.d, dir) && |name| <= MAX_NAME { dangles, e := Enter(vol, op); }
      case MakeDirectory(dir, name, _, _) => if HeadsDir(vol.d, dir) && |name| <= MAX_NAME { e := Place(vol, op); }
      case DeleteEntry(dir, name, _, _) =>
        if HeadsDir(vol.d, dir) && |name| <= MAX_NAME { dangles, e := Remove(vol, op); }
      case PurgeVersions(dir, name, _, _) =>
        if HeadsDir(vol.d, dir) && |name| <= MAX_NAME { dangles, e := RemoveOld(vol, op); }
      case RenameEntry(dir, name, _, into, to, _, _, _) =>
        if HeadsDir(vol.d, dir) && HeadsDir(vol.d, into) && |name| <= MAX_NAME && |to| <= MAX_NAME {
          e := Move(vol, op);
        }
      case ExtendFile(file, _, _, _, last) =>
        if Named(vol.d, file) && !vol.d.live[file.num].dir && LastStands(vol.v, vol.d, file, last) {
          e := Grow(vol, op);
        }
      case TruncateFile(file, _) => if Named(vol.d, file) && !vol.d.live[file.num].dir { e := Shrink(vol, op); }
    }
  }

  // ---------------------------------------------------------------------
  // Any number
  // ---------------------------------------------------------------------

  lemma StillCrowded(v: nat, run: seq<Disk>, more: seq<Disk>, d: Disk)
    requires run <= more && run != [] && run[|run| - 1] == d && exists f :: |Places(v, d, f)| >= MAX_LINKS
    ensures Crowded(v, more)
  {
    hide Places;
    assert more[|run| - 1] == d;
    var f :| |Places(v, d, f)| >= MAX_LINKS;
    assert d in more;
  }

  lemma StrandedOn(v: nat, run: seq<Disk>, more: seq<Disk>, ops: seq<Op>)
    requires run <= more && Stranded(v, run, ops)
    ensures Stranded(v, more, ops)
  {
    hide Strands;
    var x, op :| x in run && op in ops && Strands(v, x, op);
    assert x in more;
  }

  lemma StrandedAt(v: nat, run: seq<Disk>, more: seq<Disk>, d: Disk, ops: seq<Op>, k: nat)
    requires run <= more && run != [] && run[|run| - 1] == d && k < |ops| && Strands(v, d, ops[k])
    ensures Stranded(v, more, ops)
  {
    hide Strands;
    assert more[|run| - 1] == d && ops[k] in ops;
  }

  lemma CrowdedOn(v: nat, run: seq<Disk>, more: seq<Disk>)
    requires run <= more && Crowded(v, run)
    ensures Crowded(v, more)
  {
    hide Places;
    var x, f :| x in run && |Places(v, x, f)| >= MAX_LINKS;
    assert x in more;
  }

  /** Any operations, in any order, until one leaves an entry dangling.  Until then
      every state is sound and the disk is tidy between operations.  A file or directory
      that none was about is as it was, only deletions make files go, none of the
      reserved ones, and no cluster is lost but to extensions that found no header.
      Where each file had as many links as entries and no rename slipped, all are done
      and that is so afterwards; with hard links it is so in every state on the way, and
      a rename slips only on a file with as many entries as its count can say, without
      them only where it found space for the new entry and none to remove the old one.
      The next file in the slot of a deleted one never has its ID. */
  method Run(vol: Volume, ops: seq<Op>) returns (done: nat, dangles: bool, ghost e: Effect)
    requires vol.Inv() && Tidy(vol.v, vol.reserved, vol.d)
    modifies vol
    ensures vol.Shape() && old(vol.trace) <= vol.trace && (!dangles ==> vol.Inv() && Tidy(vol.v, vol.reserved, vol.d))
    ensures done <= |ops| && (!dangles ==> done == |ops|) && (dangles ==> done > 0 && Deletes(ops[done - 1]))
    ensures Did(vol.v, vol.hard, vol.reserved, old(vol.d), vol.d, ops[..done], dangles, e)
    ensures (forall op <- ops :: !Deletes(op)) ==> e.gone == {} && !dangles
    ensures (forall op <- ops :: !op.ExtendFile?) ==> e.lost == {}
    ensures (forall op <- ops :: !op.RenameEntry?) ==> !e.slips
    ensures vol.hard && old(vol.Counted()) && !e.slips ==> vol.Counted()
    ensures vol.hard && !Crowded(vol.v, vol.trace) ==> !e.slips
    ensures !vol.hard && !Stranded(vol.v, vol.trace, ops) ==> !e.slips
    ensures Slotted(vol.trace) && NoneBack(vol.trace)
  {
    hide Slotted, NoneBack, Sound, Tidy, Keeps, Conserved, Covered, KeepsSpace, Places, Crowded, Deletes, Did, Strands,
         Stranded;
    done, dangles, e := 0, false, NO_EFFECT;
    ghost var d0 := vol.d;
    vol.SoundNow();
    DidNothing(vol.v, vol.hard, vol.reserved, d0, []);
    while done < |ops| && !dangles
      invariant vol.Shape() && old(vol.trace) <= vol.trace
      invariant !dangles ==> vol.Inv() && Tidy(vol.v, vol.reserved, vol.d)
      invariant done <= |ops| && (dangles ==> done > 0 && Deletes(ops[done - 1]))
      invariant Did(vol.v, vol.hard, vol.reserved, d0, vol.d, ops[..done], dangles, e)
      invariant e.gone == {} || exists op <- ops :: Deletes(op)
      invariant e.lost == {} || exists op <- ops :: op.ExtendFile?
      invariant !e.slips || exists op <- ops :: op.RenameEntry?
      invariant vol.hard && old(vol.Counted()) && !e.slips ==> vol.Counted()
      invariant vol.hard && e.slips ==> Crowded(vol.v, vol.trace)
      invariant !vol.hard && e.slips ==> Stranded(vol.v, vol.trace, ops)
    {
      ghost var d1, was, more, run := vol.d, e, NO_EFFECT, vol.trace;
      dangles, more := Perform(vol, ops[done]);
      assert ops[..done + 1] == ops[..done] + [ops[done]];
      DidOn(vol.v, vol.hard, vol.reserved, d0, d1, vol.d, ops[..done], ops[done], dangles, was, more);
      e := Both(was, more);
      if vol.hard && was.slips { CrowdedOn(vol.v, run, vol.trace); }
      if vol.hard && more.slips { StillCrowded(vol.v, run, vol.trace, d1); }
      if !vol.hard && was.slips { StrandedOn(vol.v, run, vol.trace, ops); }
      if !vol.hard && more.slips { StrandedAt(vol.v, run, vol.trace, d1, ops, done); }
      done := done + 1;
    }
    NoneBackIf(vol.trace);
  }
}
