/** Creating files and directories.  A create past the name's version limit
    deletes the versions past it, the new one among them where it is one. */
module Creating {
  import opened Wildcards
  import opened Directory
  import opened Disk
  import opened DirDisk
  import opened DirRoom
  import opened Contents
  import opened LinkCount
  import opened NewFile
  import opened Volume
  import opened Operations
  import opened Tidiness
  import opened Deleting
  import opened Purging
  import opened Sharing
  import Bitmap
  import F = FileMap

  // ---------------------------------------------------------------------
  // Entering a file
  // ---------------------------------------------------------------------

  /** Where only the directory has changed since the file was made. */
  ghost predicate EnteredAs(v: nat, d: Disk, now: Disk, n: int, f: Fid, cs: seq<nat>) {
    && !Named(d, f) && (forall g :: Named(now, g) <==> Named(d, g) || g == f)
    && Maps(now, f, cs) && (forall g: Fid, c | g.num != n && Maps(d, g, c) :: Maps(now, g, c))
    && KeepsDirs(v, d, now, n) && KeepsSpace(d, now)
  }

  lemma EnteredMade(v: nat, d: Disk, x: Disk, now: Disk, n: int, f: Fid, cs: seq<nat>)
    requires Made(v, d, x, f, cs) && DirOnly(v, x, now, n) && IsDir(v, x, n) && n != f.num
    ensures EnteredAs(v, d, now, n, f, cs)
  {
    hide Consistent, Lists, Unlisted, Maps, KeepsDirs, Conserved, DirOnly, NoMoreListed, SameLinks, Marks;
    DirOnlyKeeps(v, x, now, n);
    DirOnlyFiles(v, x, now, n);
    forall g: Fid, c | g.num != n && Maps(d, g, c)
      ensures Maps(now, g, c)
    {
    }
    ListingsKept(v, d, x, now, n);
    OnlySpace(v, x, now, n);
  }

  /** The same, with some files deleted since. */
  ghost predicate Enters(v: nat, d: Disk, now: Disk, n: int, f: Fid, cs: seq<nat>, gone: set<Fid>) {
    && !Named(d, f) && (forall g :: Named(now, g) <==> (Named(d, g) || g == f) && g !in gone)
    && (f !in gone ==> Maps(now, f, cs))
    && (forall g: Fid, c | g.num != n && g !in gone && Maps(d, g, c) :: Maps(now, g, c))
    && (forall m | m != n && IsDir(v, d, m) && Fid(m, d.live[m].seqno) !in gone ::
          IsDir(v, now, m) && DirBlocks(v, now, m) == DirBlocks(v, d, m))
    && KeepsSpace(d, now)
  }

  lemma EntersNames(v: nat, d: Disk, x: Disk, now: Disk, n: int, f: Fid, cs: seq<nat>, gone: set<Fid>)
    requires EnteredAs(v, d, x, n, f, cs) && Loses(v, x, now, n, gone)
    ensures (forall g | Named(d, g) :: Named(x, g)) && (f !in gone ==> Named(now, f))
  {
    hide Maps, KeepsDirs, KeepsSpace, IsDir, DirBlocks;
  }

  lemma EntersLoses(v: nat, d: Disk, x: Disk, now: Disk, n: int, f: Fid, cs: seq<nat>, gone: set<Fid>)
    requires EnteredAs(v, d, x, n, f, cs) && Loses(v, x, now, n, gone) && f.num != n
    ensures Enters(v, d, now, n, f, cs, gone)
  {
    hide IsDir, DirBlocks, Maps, Conserved;
    forall m | m != n && IsDir(v, d, m)
      ensures m in d.live && m in x.live && Named(d, Fid(m, d.live[m].seqno)) && Named(x, Fid(m, x.live[m].seqno))
      ensures x.live[m].seqno == d.live[m].seqno
    {
      DirSays(v, d, m);
      DirSays(v, x, m);
      assert Named(x, Fid(m, d.live[m].seqno));
    }
  }

  lemma MadeSays(v: nat, d: Disk, now: Disk, f: Fid, cs: seq<nat>)
    requires Made(v, d, now, f, cs)
    ensures Consistent(v, now) && Named(now, f) && Unlisted(v, now, f) && f.num !in d.live && SameListings(v, d, now)
    ensures forall g :: Named(now, g) <==> Named(d, g) || g == f
  {
    hide Consistent, Maps, SameContents, SameListings, Unlisted, Adds, KeepsSpace, Marks, NoMoreListed, SameLinks;
    AddsSays(v, d, now, f, cs);
  }

  lemma MadeCovered(v: nat, hard: bool, d: Disk, now: Disk, f: Fid, cs: seq<nat>)
    requires Made(v, d, now, f, cs) && Covered(v, hard, d)
    ensures Covered(v, hard, now)
  {
    hide Adds, KeepsSpace, Marks, Covered;
    AddsCovered(v, hard, d, now, f, cs);
  }

  // As before, the entries are where they were.
  lemma UndoneCovered(v: nat, hard: bool, res: int, d: Disk, now: Disk, left: set<int>)
    requires Tidy(v, res, d) && Tidy(v, res, now) && Undone(v, d, now, left) && OldDirs(d, now, None)
    requires Covered(v, hard, d)
    ensures Covered(v, hard, now)
  {
    hide Tidy, Consistent, IsDir, DirBlocks, Flat, Places, SameContents, KeepsSpace, ListedAt;
    forall f | Named(now, f)
      ensures |Places(v, now, f)| <= Reckoned(hard, now.live[f.num])
    {
      forall p | p in Places(v, now, f)
        ensures p in Places(v, d, f)
      {
        TidyPlaces(v, res, now, f, p);
        TidyPlaces(v, res, d, f, p);
        assert HeadsDir(d, p.dir);
        HeadsRead(v, res, d, p.dir);
      }
      NoMore(Places(v, now, f), Places(v, d, f));
      assert Named(d, f);
    }
  }

  lemma MadeDeleted(v: nat, d: Disk, x: Disk, now: Disk, f: Fid, cs: seq<nat>)
    requires Made(v, d, x, f, cs) && Consistent(v, now) && (forall g :: Named(now, g) <==> Named(x, g) && g != f)
    requires KeepsFiles(x, now, f) && KeepsDirs(v, x, now, f.num)
    requires forall but :: Conserved(x, but) ==> Conserved(now, but)
    requires forall n <- now.live :: n in x.live && now.live[n] == x.live[n]
    requires forall n :: n in now.used <==> n in x.used && !HeaderOf(x, n, f)
    ensures Undone(v, d, now, {})
  {
    hide Consistent, Adds, SameFiles, KeepsFiles, KeepsDirs, Conserved, HeaderOf;
    AddsDeleted(v, d, x, now, f, cs);
    forall n
      ensures n in now.used <==> n in d.used
    {
      assert n in x.used <==> n in d.used || HeaderOf(x, n, f);
      assert HeaderOf(x, n, f) ==> n !in d.used;
    }
    assert now.used == d.used + {};
  }

  // ---------------------------------------------------------------------
  // The new version among the others
  // ---------------------------------------------------------------------

  // The version asked for, or one above the highest.
  function NewVersion(es: seq<Entry>, asked: Option<int>): int {
    if asked.Some? then asked.value else if es == [] then 1 else es[0].version + 1
  }

  lemma Highest(es: seq<Entry>)
    requires Descending(es) && es != []
    ensures !Has(es, es[0].version + 1)
  {
  }

  /** How many versions are above this one. */
  function Newer(es: seq<Entry>, version: int): nat {
    if es == [] then 0 else (if es[0].version > version then 1 else 0) + Newer(es[1..], version)
  }

  lemma {:induction false} NoneAbove(es: seq<Entry>, version: int)
    requires forall e <- es :: e.version <= version
    ensures Newer(es, version) == 0
  {
    if es != [] { NoneAbove(es[1..], version); }
  }

  /** That is its place among them. */
  lemma {:induction false} InsertAt(es: seq<Entry>, e: Entry)
    requires Descending(es) && !Has(es, e.version)
    ensures var k := Newer(es, e.version); k <= |es| && Insert(es, e) == es[..k] + [e] + es[k..]
  {
    if es == [] {
    } else if es[0].version < e.version {
      NoneAbove(es, e.version);
      assert es[..0] + [e] + es[0..] == [e] + es;
    } else {
      assert es[0] in es;
      InsertAt(es[1..], e);
      var k := Newer(es[1..], e.version);
      assert [es[0]] + (es[1..][..k] + [e] + es[1..][k..]) == es[..k + 1] + [e] + es[k + 1..];
    }
  }

  /** The name's version limit: its first record's, or the one it is to start with. */
  function LimitOf(recs: seq<Rec>, name: seq<Char16>, start: int): int {
    if recs == [] then start else if Cmp(recs[0].name, name) == 0 then recs[0].verlimit
      else LimitOf(recs[1..], name, start)
  }

  /** How many of its versions stay: at least one. */
  function Limit(recs: seq<Rec>, name: seq<Char16>, start: int): (k: nat)
    ensures k >= 1
  {
    var l := LimitOf(recs, name, start);
    if l < 1 then 1 else l
  }

  /** With one more every version stays just when there were fewer than the limit; so of
      a limit of 0, which keeps one, just when there was none. */
  lemma AllStay(recs: seq<Rec>, name: seq<Char16>, start: int, e: Entry)
    ensures var es, k := Entries(recs, name), Limit(recs, name, start);
      && (|Insert(es, e)| <= k <==> |es| < k)
      && (LimitOf(recs, name, start) <= 0 ==> (|Insert(es, e)| <= k <==> es == []))
  {
    hide Entries, LimitOf;
    InsertSize(Entries(recs, name), e);
  }

  // ---------------------------------------------------------------------
  // Creating a file
  // ---------------------------------------------------------------------

  datatype Creation =
    | Created(fid: Fid, version: int)
    | PurgeStopped(fid: Fid, version: int)
    | LeftDangling(fid: Fid, version: int)
    | BadVersion | VersionExists | VersionOverflow | NoFile

  predicate IsMade(r: Creation) { r.Created? || r.PurgeStopped? || r.LeftDangling? }

  function Digits(n: nat): nat { if n < 10 then 1 else 1 + Digits(n / 10) }

  /** The room for pointers in the header of a file entered so: its ident area has the
      name with its version. */
  function RoomFor(ods5: bool, name: seq<Char16>, version: int): nat {
    F.MapRoom(ods5, |name| + 1 + Digits(if version < 0 then 0 else version))
  }

  // What a create that fails leaves marked: where there are too few numbers for its
  // headers, those there were but its own.
  ghost predicate LeavesMarked(vacant: set<int>, take: seq<nat>, parts: nat, left: set<int>) {
    if take != [] && |vacant| < parts then exists k :: Lowest(vacant, k) && left == vacant - {k} else left == {}
  }

  lemma LeavesIf(vacant: set<int>, take: seq<nat>, parts: nat, left: set<int>)
    requires if take != [] && |vacant| < parts then exists k ::
      Lowest(vacant, k) && left == vacant - {k} else left == {}
    ensures LeavesMarked(vacant, take, parts, left)
  {
  }

  /** There is nothing to make a file of that size of: no number, no space, or too few
      numbers for the headers. */
  ghost predicate NoneFor(vacant: set<int>, bits: seq<bool>, want: nat, how: Bitmap.How, parts: nat) {
    vacant == {} || (want > 0 && (!Bitmap.HasRoom(bits, want, how, Bitmap.None) || |vacant| < parts))
  }

  /** Or there is no space for the entry, once the file has its clusters. */
  ghost predicate Excused(v: nat, res: int, max: int, d: Disk, n: int, name: seq<Char16>, version: int, want: nat,
                          how: Bitmap.How, take: seq<nat>, parts: nat)
    requires IsDir(v, d, n) && |name| <= MAX_NAME
  {
    || NoneFor(Vacancies(d, res, max), d.bits, want, how, parts)
    || NoPlaceFor(v, LayoutOf(v, d, n).(bits := Minus(d.bits, take)), name, version)
  }

  lemma NoneIf(vacant: set<int>, bits: seq<bool>, want: nat, how: Bitmap.How, parts: nat, m: Making)
    requires m.NoNumber? <==> vacant == {}
    requires m.NoMoreHeaders? <==> want > 0 && !m.NoNumber? && !m.NoSpaceLeft? && |vacant| < parts
    requires m.NoSpaceLeft? <==> vacant != {} && want > 0 && !Bitmap.HasRoom(bits, want, how, Bitmap.None)
    ensures m.MadeFile? <==> !NoneFor(vacant, bits, want, how, parts)
  {
    hide Bitmap.HasRoom;
  }

  // The directory once the file is made.
  lemma MadeLayout(v: nat, d: Disk, now: Disk, f: Fid, cs: seq<nat>, n: int)
    requires Made(v, d, now, f, cs) && IsDir(v, d, n)
    ensures IsDir(v, now, n) && LayoutOf(v, now, n) == LayoutOf(v, d, n).(bits := Minus(d.bits, cs))
  {
    hide IsDir, DirBlocks, Minus, Consistent, Maps, Unlisted, SameContents, KeepsSpace, SameLinks, NoMoreListed, Marks;
    DirSays(v, d, n);
  }

  // The file made and the entry for it, or neither.
  method MakeEntry(vol: Volume, n: int, name: seq<Char16>, version: int, want: nat, how: Bitmap.How,
                   flags: int, limit: int, erase: Fid -> bool)
    returns (f: Option<Fid>, ghost take: seq<nat>, ghost left: set<int>)
    requires vol.Inv() && Tidy(vol.v, vol.reserved, vol.d) && HeadsDir(vol.d, n) && |name| <= MAX_NAME
    requires !Has(Entries(Flat(DirBlocks(vol.v, vol.d, n)), name), version)
    modifies vol
    ensures vol.Inv() && Tidy(vol.v, vol.reserved, vol.d) && old(vol.trace) <= vol.trace
    ensures OldDirs(old(vol.d), vol.d, None)
    ensures f.None? ==> Undone(vol.v, old(vol.d), vol.d, left)
    ensures f.None? ==>
      LeavesMarked(Vacancies(old(vol.d), vol.reserved, vol.maxFiles), take,
                   HeadersFor(vol.v, RoomFor(vol.ods5, name, version), take), left)
    ensures f.None? <==>
      Excused(vol.v, vol.reserved, vol.maxFiles, old(vol.d), n, name, version, want, how, take,
              HeadersFor(vol.v, RoomFor(vol.ods5, name, version), take))
    ensures f.Some? ==> Enrolled(vol.v, vol.hard, vol.reserved, old(vol.d), vol.d, n, name, version, f.value, take)
    ensures f.Some? ==> LedIn(vol.v, old(vol.d), vol.d, n, name, Add(version, f.value, flags, limit))
    ensures f.Some? ==> |take| == want && (how.Whole? ==> InOnePiece(take))
    ensures Covered(vol.v, vol.hard, old(vol.d)) ==> Covered(vol.v, vol.hard, vol.d)
    ensures old(vol.Counted()) ==> vol.Counted()
  {
    hide Sound, Consistent, IsDir, DirBlocks, Flat, Entries, Made, Undone, Orderly, OldDirs, HeadsDir, Has, Covered,
         Vacancies, Tidy, LeavesMarked, InOnePiece, Lowest, Roomy, NoneFor, Bitmap.HasRoom, Enrolled, NoPlaceFor,
         LayoutOf, Minus, LedIn;
    ghost var d0 := vol.d;
    TidySays(vol.v, vol.reserved, d0, n, name);
    DirOf(vol.v, d0, n);
    DirSays(vol.v, d0, n);
    var m: Making;
    m, take, left := MakeFile(vol, want, how, RoomFor(vol.ods5, name, version), erase, Fid(n, vol.d.live[n].seqno));
    NoneIf(Vacancies(d0, vol.reserved, vol.maxFiles), d0.bits, want, how,
           HeadersFor(vol.v, RoomFor(vol.ods5, name, version), take), m);
    if !m.MadeFile? {
      TidyUndone(vol.v, vol.reserved, d0, vol.d, left);
      if Covered(vol.v, vol.hard, d0) { UndoneCovered(vol.v, vol.hard, vol.reserved, d0, vol.d, left); }
      LeavesIf(Vacancies(d0, vol.reserved, vol.maxFiles), take,
               HeadersFor(vol.v, RoomFor(vol.ods5, name, version), take), left);
      f := None;
      return;
    }
    LeavesIf(Vacancies(d0, vol.reserved, vol.maxFiles), take, HeadersFor(vol.v, RoomFor(vol.ods5, name, version), take),
             {});
    MadeSays(vol.v, d0, vol.d, m.fid, take);
    var ok := EnterMade(vol, d0, n, name, version, m.fid, take, flags, limit, erase(m.fid));
    f := if ok then Some(m.fid) else None;
  }

  /** The file's header names the directory it is in and counts its one entry. */
  ghost predicate Bears(hard: bool, d: Disk, now: Disk, n: int, f: Fid) {
    && n in d.live && f.num in now.live && now.live[f.num].back == Fid(n, d.live[n].seqno)
    && now.live[f.num].links == if hard then 1 else 0
  }

  lemma BearsStill(v: nat, hard: bool, d: Disk, x: Disk, now: Disk, n: int, f: Fid, cs: seq<nat>)
    requires Made(v, d, x, f, cs) && DirOnly(v, x, now, n) && Bears(hard, d, x, n, f)
    ensures Bears(hard, d, now, n, f) && SameLinks(d, now)
  {
    hide Consistent, Adds, KeepsSpace, Marks, DirOnly;
    DirOnlyLinks(v, x, now, n);
  }

  /** A file more, whose one entry it goes with. */
  ghost predicate Enrolled(v: nat, hard: bool, res: int, d: Disk, now: Disk, n: int, name: seq<Char16>, version: int,
                           f: Fid, cs: seq<nat>)
    requires IsDir(v, d, n)
  {
    && EnteredAs(v, d, now, n, f, cs) && IsDir(v, now, n) && HeadsDir(now, n) && f.num != n && !HeadsDir(now, f.num)
    && Named(now, f) && n in now.live && GoesWith(hard, now, n, f) && f.num > res
    && Bears(hard, d, now, n, f) && SameLinks(d, now)
    && Places(v, now, f) == {Place(n, Fold(name), version)}
    && (var was := Flat(DirBlocks(v, d, n));
        Listed(was, Flat(DirBlocks(v, now, n)), name, Insert(Entries(was, name), Entry(version, f))))
    && (Roomy(DirBlocks(v, d, n), name, |Entries(Flat(DirBlocks(v, d, n)), name)| + 1) ==> |DirBlocks(v, now, n)| == 1)
  }

  // The entry for a file just made, or else the file gone again.
  method EnterMade(vol: Volume, ghost d0: Disk, n: int, name: seq<Char16>, version: int, id: Fid, ghost take: seq<nat>,
                   flags: int, limit: int, erase: bool) returns (ok: bool)
    requires vol.Inv() && Tidy(vol.v, vol.reserved, d0) && HeadsDir(d0, n) && |name| <= MAX_NAME && n in d0.live
    requires IsDir(vol.v, d0, n)
    requires !Has(Entries(Flat(DirBlocks(vol.v, d0, n)), name), version)
    requires Made(vol.v, d0, vol.d, id, take) && OldDirs(d0, vol.d, None) && id.num > vol.reserved
    requires id.num in vol.d.live
    requires var h := vol.d.live[id.num]; !h.dir && h.back == Fid(n, d0.live[n].seqno) && h.links == if vol.hard then 1
      else 0
    modifies vol
    ensures vol.Inv() && Tidy(vol.v, vol.reserved, vol.d) && old(vol.trace) <= vol.trace && OldDirs(d0, vol.d, None)
    ensures !ok ==>
      Undone(vol.v, d0, vol.d, {})
      && !Roomy(DirBlocks(vol.v, d0, n), name, |Entries(Flat(DirBlocks(vol.v, d0, n)), name)| + 1)
    ensures ok <==> !NoPlaceFor(vol.v, LayoutOf(vol.v, d0, n).(bits := Minus(d0.bits, take)), name, version)
    ensures ok ==> Enrolled(vol.v, vol.hard, vol.reserved, d0, vol.d, n, name, version, id, take)
    ensures ok ==> LedIn(vol.v, d0, vol.d, n, name, Add(version, id, flags, limit))
    ensures Covered(vol.v, vol.hard, d0) ==> Covered(vol.v, vol.hard, vol.d)
    ensures old(vol.Counted()) && Covered(vol.v, vol.hard, d0) ==> vol.Counted()
  {
    hide Sound, Consistent, IsDir, DirBlocks, Flat, Entries, Descending, IsReadable, Made, Undone, EnteredAs, DirOnly,
         Listed, Unlisted, UnlistedElsewhere, Insert, Orderly, OldDirs, Neat, HeadsDir, Has, Covered, Places, Fold,
         KeepsFiles, KeepsDirs, Conserved, Owned, Calm, Tidy, Roomy, Updated, NoPlaceFor, LayoutOf, Minus, LedIn,
         Styled, SameLinks;
    TidySays(vol.v, vol.reserved, d0, n, name);
    DirOf(vol.v, d0, n);
    DirSays(vol.v, d0, n);
    ghost var d1 := vol.d;
    MadeSays(vol.v, d0, d1, id, take);
    if Covered(vol.v, vol.hard, d0) { MadeCovered(vol.v, vol.hard, d0, d1, id, take); }
    NotNew(d0, d1, id.num);
    TidyMade(vol.v, vol.reserved, d0, d1, id, take);
    ReadableKept(vol.v, d0, d1, n);
    DirOf(vol.v, d1, n);
    UnlistedNowhere(vol.v, d1, id);
    NamedSeqno(d0, d1, n, id);
    InsertSize(Entries(Flat(DirBlocks(vol.v, d0, n)), name), Entry(version, id));
    MadeLayout(vol.v, d0, d1, id, take, n);
    AddAlike(vol.v, LayoutOf(vol.v, d1, n), name, version, id, flags, limit);
    var entered := vol.DirUpdate(n, name, Add(version, id, flags, limit));
    ok := entered.Entered?;
    if !ok {
      vol.DeleteFile(id, erase);
      MadeDeleted(vol.v, d0, d1, vol.d, id, take);
      OldTrans(d0, d1, vol.d, None);
      TidyUndone(vol.v, vol.reserved, d0, vol.d, {});
      if Covered(vol.v, vol.hard, d0) { UndoneCovered(vol.v, vol.hard, vol.reserved, d0, vol.d, {}); }
      return;
    }
    DirOf(vol.v, vol.d, n);
    LedIf(vol.v, d0, d1, vol.d, n, name, Add(version, id, flags, limit));
    EnteredMade(vol.v, d0, d1, vol.d, n, id, take);
    BearsStill(vol.v, vol.hard, d0, d1, vol.d, n, id, take);
    TidyEdit(vol.v, vol.reserved, d1, vol.d, n, name, Add(version, id, flags, limit));
    OldTrans(d0, d1, vol.d, None);
    NotHead(d0, vol.d, id);
    DirOnlyKeeps(vol.v, d1, vol.d, n);
    DirOnlyLinks(vol.v, d1, vol.d, n);
    AddedPlaces(vol.v, vol.reserved, d1, vol.d, n, name, version, id, id);
    if Covered(vol.v, vol.hard, d0) { AddedCovered(vol.v, vol.hard, vol.reserved, d1, vol.d, n, name, version, id); }
  }

  /** The name's records in the directory are as they are to be. */
  ghost predicate LedIn(v: nat, d: Disk, now: Disk, n: int, name: seq<Char16>, edit: Edit) {
    IsDir(v, d, n) && IsDir(v, now, n) && Led(Flat(DirBlocks(v, d, n)), Flat(DirBlocks(v, now, n)), name, edit)
  }

  lemma LedIf(v: nat, d: Disk, x: Disk, now: Disk, n: int, name: seq<Char16>, edit: Edit)
    requires IsDir(v, d, n) && IsDir(v, x, n) && IsDir(v, now, n) && DirBlocks(v, x, n) == DirBlocks(v, d, n)
    requires edit.Add?
    requires var was, all := Flat(DirBlocks(v, x, n)), Flat(DirBlocks(v, now, n));
      Styled(was, all, name, edit) && Listed(was, all, name, Changed(Entries(was, name), edit))
    ensures LedIn(v, d, now, n, name, edit)
  {
    hide IsDir, DirBlocks, Flat, Entries, Styled, Led;
    var was, all := Flat(DirBlocks(v, x, n)), Flat(DirBlocks(v, now, n));
    InsertSize(Entries(was, name), Entry(edit.version, edit.fid));
    ListedSays(was, all, name, Changed(Entries(was, name), edit));
    StyledLeads(was, all, name, edit);
  }

  lemma NotHead(d: Disk, now: Disk, f: Fid)
    requires OldDirs(d, now, None) && f.num !in d.live
    ensures !HeadsDir(now, f.num)
  {
  }

  lemma NamedSeqno(d: Disk, now: Disk, n: int, f: Fid)
    requires n in d.live && d.live[n].seg == 0 && f.num !in d.live
    requires forall g :: Named(now, g) <==> Named(d, g) || g == f
    ensures n in now.live && now.live[n].seqno == d.live[n].seqno && n != f.num
  {
    assert Named(d, Fid(n, d.live[n].seqno));
  }

  // What is so of a file entered as a version, with those past the limit purged.
  ghost predicate EnteredPast(v: nat, d: Disk, now: Disk, n: int, name: seq<Char16>, limit: int, r: Creation,
                              take: seq<nat>, gone: set<Fid>, purged: nat)
    requires IsMade(r) && IsDir(v, d, n) && IsDir(v, now, n)
  {
    var was := Flat(DirBlocks(v, d, n));
    var all := Insert(Entries(was, name), Entry(r.version, r.fid));
    var keep := if Limit(was, name, limit) < |all| then Limit(was, name, limit) else |all|;
    && Enters(v, d, now, n, r.fid, take, gone) && !Has(Entries(was, name), r.version)
    && keep + purged <= |all| && Listed(was, Flat(DirBlocks(v, now, n)), name, Kept(all, keep, purged))
    && (r.Created? ==> Kept(all, keep, purged) == all[..keep])
    && (r.Created? ==> (r.fid !in gone <==> Newer(Entries(was, name), r.version) < Limit(was, name, limit)))
  }

  /** The new file's header, and those of the files none of whose entries were purged. */
  ghost predicate Headed(v: nat, hard: bool, d: Disk, now: Disk, n: int, name: seq<Char16>, limit: int, r: Creation,
                         gone: set<Fid>, purged: nat)
    requires IsMade(r) && IsDir(v, d, n)
  {
    var was := Flat(DirBlocks(v, d, n));
    var all := Insert(Entries(was, name), Entry(r.version, r.fid));
    var keep := if Limit(was, name, limit) < |all| then Limit(was, name, limit) else |all|;
    && (r.fid !in gone ==> Bears(hard, d, now, n, r.fid))
    && keep + purged <= |all| && OthersCount(d, now, all, keep, purged)
  }

  lemma HeadedIf(hard: bool, d: Disk, x: Disk, now: Disk, n: int, es: seq<Entry>, e: Entry, keep: nat, i: nat,
                 gone: set<Fid>)
    requires Descending(es) && !Has(es, e.version) && (forall y <- es :: y.fid != e.fid) && n in x.live
    requires keep + i <= |Insert(es, e)| && WentWith(hard, x, n, Insert(es, e), keep, i, gone)
    requires Named(x, e.fid) && GoesWith(hard, x, n, e.fid) && Bears(hard, d, x, n, e.fid) && SameLinks(d, x)
    requires OthersCount(x, now, Insert(es, e), keep, i) && (forall g | Named(d, g) :: Named(x, g))
    requires e.fid !in gone ==> Named(now, e.fid)
    ensures OthersCount(d, now, Insert(es, e), keep, i) && (e.fid !in gone ==> Bears(hard, d, now, n, e.fid))
  {
    hide GoesWith, Insert, Has, Descending, Newer;
    var all := Insert(es, e);
    if e.fid !in gone {
      InsertAt(es, e);
      var k := Newer(es, e.version);
      forall j | 0 <= j < |all| && j != k
        ensures all[j].fid != e.fid
      {
        if j < k { assert all[j] == es[j]; } else { assert all[j] == es[j - 1]; }
      }
      assert OnceIn(all, k) && !Past(all, keep, i, e.fid);
    }
  }

  lemma HeadsPurged(v: nat, hard: bool, d: Disk, x: Disk, now: Disk, n: int, name: seq<Char16>, e: Entry, cs: seq<nat>,
                    keep: nat, i: nat, gone: set<Fid>)
    requires IsDir(v, d, n) && Consistent(v, d) && EnteredAs(v, d, x, n, e.fid, cs) && Loses(v, x, now, n, gone)
    requires var es := Entries(Flat(DirBlocks(v, d, n)), name);
      && Descending(es) && !Has(es, e.version) && n in x.live && keep + i <= |Insert(es, e)|
      && WentWith(hard, x, n, Insert(es, e), keep, i, gone) && OthersCount(x, now, Insert(es, e), keep, i)
    requires Named(x, e.fid) && GoesWith(hard, x, n, e.fid) && Bears(hard, d, x, n, e.fid) && SameLinks(d, x)
    ensures var all := Insert(Entries(Flat(DirBlocks(v, d, n)), name), e);
      OthersCount(d, now, all, keep, i) && (e.fid !in gone ==> Bears(hard, d, now, n, e.fid))
  {
    hide IsDir, Consistent, EnteredAs, Loses, Entries, Flat, DirBlocks, Descending, Has, Insert, WentWith, OthersCount,
         GoesWith, Bears, SameLinks;
    EnteredNew(v, d, x, n, name, e.fid, cs);
    EntersNames(v, d, x, now, n, e.fid, cs, gone);
    HeadedIf(hard, d, x, now, n, Entries(Flat(DirBlocks(v, d, n)), name), e, keep, i, gone);
  }

  // Making, entering, and purging past the limit.
  method EnterAndPurge(vol: Volume, n: int, name: seq<Char16>, version: int, want: nat, how: Bitmap.How,
                       flags: int, limit: int, erase: Fid -> bool)
    returns (r: Creation, ghost take: seq<nat>, ghost left: set<int>, ghost gone: set<Fid>, ghost purged: nat)
    requires vol.Inv() && Tidy(vol.v, vol.reserved, vol.d) && HeadsDir(vol.d, n) && |name| <= MAX_NAME
    requires !Has(Entries(Flat(DirBlocks(vol.v, vol.d, n)), name), version)
    modifies vol
    ensures vol.Shape() && old(vol.trace) <= vol.trace && OldDirs(old(vol.d), vol.d, None) && (r.NoFile? || IsMade(r))
    ensures r.NoFile? ==> Undone(vol.v, old(vol.d), vol.d, left) && gone == {}
    ensures r.NoFile? ==>
      LeavesMarked(Vacancies(old(vol.d), vol.reserved, vol.maxFiles), take,
                   HeadersFor(vol.v, RoomFor(vol.ods5, name, version), take), left)
    ensures IsMade(r) ==>
      r.version == version && |take| == want && (how.Whole? ==> InOnePiece(take)) && IsDir(vol.v, vol.d, n)
    ensures IsMade(r) ==> EnteredPast(vol.v, old(vol.d), vol.d, n, name, limit, r, take, gone, purged)
    ensures IsMade(r) ==> LedIn(vol.v, old(vol.d), vol.d, n, name, Add(r.version, r.fid, flags, limit))
    ensures IsMade(r) ==> Headed(vol.v, vol.hard, old(vol.d), vol.d, n, name, limit, r, gone, purged)
    ensures r.NoFile? <==>
      Excused(vol.v, vol.reserved, vol.maxFiles, old(vol.d), n, name, version, want, how, take,
              HeadersFor(vol.v, RoomFor(vol.ods5, name, version), take))
    ensures r.PurgeStopped? ==> var was := Flat(DirBlocks(vol.v, old(vol.d), n));
      StopsThere(vol.v, vol.reserved, vol.d, n, name, Limit(was, name, limit))
    ensures var bs := DirBlocks(vol.v, old(vol.d), n);
      r.PurgeStopped? && Roomy(bs, name, |Entries(Flat(bs), name)| + 1) ==>
        exists e <- Entries(Flat(bs), name) :: Stays(vol.v, vol.reserved, vol.d, e.fid)
    ensures forall g <- gone :: g.num > vol.reserved
    ensures r.LeftDangling? <==> !Sound(vol.v, vol.d)
    ensures !r.LeftDangling? ==> vol.Inv() && Tidy(vol.v, vol.reserved, vol.d)
    ensures Covered(vol.v, vol.hard, old(vol.d)) ==> Covered(vol.v, vol.hard, vol.d) && !r.LeftDangling?
    ensures old(vol.Counted()) ==> vol.Counted()
  {
    hide Sound, Consistent, IsDir, DirBlocks, Flat, Entries, Descending, IsReadable, Undone, EnteredAs, Enters, Listed,
         Insert, Orderly, OldDirs, Neat, HeadsDir, Has, Covered, Places, Fold, Loses, WentWith, OthersCount, Kept,
         Vacancies, LeavesMarked, GoesWith, Newer, LimitOf, InOnePiece, Excused, Roomy, Stays, StopsThere, LedIn,
         OthersCount, Bears, SameLinks;
    gone, purged := {}, 0;
    ghost var d0 := vol.d;
    TidySays(vol.v, vol.reserved, d0, n, name);
    DirOf(vol.v, d0, n);
    var bs := vol.ReadDir(n);
    var es := Entries(Flat(bs), name);
    var f: Option<Fid>;
    f, take, left := MakeEntry(vol, n, name, version, want, how, flags, limit, erase);
    vol.SoundNow();
    if f.None? {
      r := NoFile;
      return;
    }
    var id := f.value;
    ghost var d1 := vol.d;
    TidySays(vol.v, vol.reserved, d1, n, name);
    DirOf(vol.v, d1, n);
    DirSays(vol.v, d1, n);
    var all := Insert(es, Entry(version, id));
    ListedSays(Flat(bs), Flat(DirBlocks(vol.v, d1, n)), name, all);
    var keep := if Limit(Flat(bs), name, limit) < |all| then Limit(Flat(bs), name, limit) else |all|;
    var p: Purge;
    var i: nat;
    p, i, gone := PurgePast(vol, n, name, all, keep, erase);
    purged := i;
    OldTrans(d0, d1, vol.d, None);
    EntersLoses(vol.v, d0, d1, vol.d, n, id, take, gone);
    InsertSize(es, Entry(version, id));
    LedPurged(vol.v, d0, d1, vol.d, n, name, Add(version, id, flags, limit), all, keep, i);
    ListedThen(Flat(bs), Flat(DirBlocks(vol.v, d1, n)), Flat(DirBlocks(vol.v, vol.d, n)), name, all,
               Kept(all, keep, i));
    if p.Stopped? && |DirBlocks(vol.v, d1, n)| == 1 {
      OldStays(vol.v, vol.reserved, d1, vol.d, es, Entry(version, id), all[keep + i]);
    }
    HeadsPurged(vol.v, vol.hard, d0, d1, vol.d, n, name, Entry(version, id), take, keep, i, gone);
    if p.AllGone? {
      KeptAll(all, keep);
      EnteredNew(vol.v, d0, d1, n, name, id, take);
      NewStays(vol.hard, d1, n, es, Entry(version, id), keep, Limit(Flat(bs), name, limit), gone);
    }
    r := match p { case AllGone => Created(id, version) case Stopped => PurgeStopped(id, version) case Dangles =>
                  LeftDangling(id, version) };
  }

  lemma LedPurged(v: nat, d: Disk, x: Disk, now: Disk, n: int, name: seq<Char16>, edit: Edit, all: seq<Entry>,
                  keep: nat, i: nat)
    requires LedIn(v, d, x, n, name, edit) && IsDir(v, now, n) && 0 < keep && keep + i <= |all|
    requires Listed(Flat(DirBlocks(v, x, n)), Flat(DirBlocks(v, now, n)), name, Kept(all, keep, i))
    ensures LedIn(v, d, now, n, name, edit)
  {
    hide IsDir, DirBlocks, Flat, Led, Listed;
    LedStill(Flat(DirBlocks(v, d, n)), Flat(DirBlocks(v, x, n)), Flat(DirBlocks(v, now, n)), name, edit,
             Kept(all, keep, i));
  }

  // What stops the purge is not the new file.
  lemma OldStays(v: nat, res: int, d: Disk, now: Disk, es: seq<Entry>, e: Entry, x: Entry)
    requires Descending(es) && !Has(es, e.version) && x in Insert(es, e) && Stays(v, res, now, x.fid)
    requires OldDirs(d, now, None) && !HeadsDir(d, e.fid.num) && e.fid.num > res
    ensures exists y <- es :: Stays(v, res, now, y.fid)
  {
    hide IsDir, DirBlocks, Flat, Descending;
    InsertOrders(es, e);
    NotHeadStill(d, now, e.fid.num);
  }

  lemma NotHeadStill(d: Disk, now: Disk, n: int)
    requires OldDirs(d, now, None) && !HeadsDir(d, n)
    ensures !HeadsDir(now, n)
  {
  }

  /** create: a file of the size asked for, entered as the version asked for or one
      above the highest, and the versions past the name's limit deleted.  The file is
      there afterwards just when fewer versions than the limit are above it. */
  method Create(vol: Volume, n: int, name: seq<Char16>, asked: Option<int>, want: nat, how: Bitmap.How,
                flags: int, limit: int, erase: Fid -> bool)
    returns (r: Creation, ghost take: seq<nat>, ghost left: set<int>, ghost gone: set<Fid>, ghost purged: nat)
    requires vol.Inv() && Tidy(vol.v, vol.reserved, vol.d) && HeadsDir(vol.d, n) && |name| <= MAX_NAME
    modifies vol
    ensures vol.Shape() && old(vol.trace) <= vol.trace && OldDirs(old(vol.d), vol.d, None)
    ensures var es := Entries(Flat(DirBlocks(vol.v, old(vol.d), n)), name);
      && (r.BadVersion? <==> asked.Some? && !(0 < asked.value <= MAX_VERSION))
      && (r.VersionExists? <==> asked.Some? && 0 < asked.value <= MAX_VERSION && Has(es, asked.value))
      && (r.VersionOverflow? <==> asked.None? && es != [] && es[0].version >= MAX_VERSION)
      && (IsMade(r) ==> r.version == NewVersion(es, asked))
    ensures !IsMade(r) ==> Undone(vol.v, old(vol.d), vol.d, left) && gone == {}
    ensures var version := NewVersion(Entries(Flat(DirBlocks(vol.v, old(vol.d), n)), name), asked);
      !IsMade(r) ==>
        LeavesMarked(Vacancies(old(vol.d), vol.reserved, vol.maxFiles), take,
                     HeadersFor(vol.v, RoomFor(vol.ods5, name, version), take), left)
    ensures IsMade(r) ==> |take| == want && (how.Whole? ==> InOnePiece(take)) && IsDir(vol.v, vol.d, n)
    ensures IsMade(r) ==> EnteredPast(vol.v, old(vol.d), vol.d, n, name, limit, r, take, gone, purged)
    ensures IsMade(r) ==> LedIn(vol.v, old(vol.d), vol.d, n, name, Add(r.version, r.fid, flags, limit))
    ensures IsMade(r) ==> Headed(vol.v, vol.hard, old(vol.d), vol.d, n, name, limit, r, gone, purged)
    ensures var version := NewVersion(Entries(Flat(DirBlocks(vol.v, old(vol.d), n)), name), asked);
      !r.BadVersion? && !r.VersionExists? && !r.VersionOverflow? ==>
        (r.NoFile? <==>
         Excused(vol.v, vol.reserved, vol.maxFiles, old(vol.d), n, name, version, want, how, take,
                 HeadersFor(vol.v, RoomFor(vol.ods5, name, version), take)))
    ensures r.PurgeStopped? ==> var was := Flat(DirBlocks(vol.v, old(vol.d), n));
      StopsThere(vol.v, vol.reserved, vol.d, n, name, Limit(was, name, limit))
    ensures var bs := DirBlocks(vol.v, old(vol.d), n);
      r.PurgeStopped? && Roomy(bs, name, |Entries(Flat(bs), name)| + 1) ==>
        exists e <- Entries(Flat(bs), name) :: Stays(vol.v, vol.reserved, vol.d, e.fid)
    ensures forall g <- gone :: g.num > vol.reserved
    ensures r.LeftDangling? <==> !Sound(vol.v, vol.d)
    ensures !r.LeftDangling? ==> vol.Inv() && Tidy(vol.v, vol.reserved, vol.d)
    ensures Covered(vol.v, vol.hard, old(vol.d)) ==> Covered(vol.v, vol.hard, vol.d) && !r.LeftDangling?
    ensures old(vol.Counted()) ==> vol.Counted()
  {
    hide Sound, Consistent, IsDir, DirBlocks, Flat, Entries, Descending, IsReadable, Undone, Orderly, OldDirs, Neat,
         HeadsDir, Has, Covered, Vacancies, LeavesMarked, EnteredPast, InOnePiece, Excused, Roomy, Stays, StopsThere,
         LedIn, Headed;
    take, left, gone, purged := [], {}, {}, 0;
    ghost var d0 := vol.d;
    TidySays(vol.v, vol.reserved, d0, n, name);
    DirOf(vol.v, d0, n);
    LeavesIf(Vacancies(d0, vol.reserved, vol.maxFiles), take,
             HeadersFor(vol.v, RoomFor(vol.ods5, name, NewVersion(Entries(Flat(DirBlocks(vol.v, d0, n)), name), asked)),
                        take), left);
    NothingDone(vol.v, d0);
    NoneNew(d0, None);
    vol.SoundNow();
    var bs := vol.ReadDir(n);
    var es := Entries(Flat(bs), name);
    if asked.Some? && !(0 < asked.value <= MAX_VERSION) {
      r := BadVersion;
      return;
    }
    if asked.Some? {
      var has := HasVersion(es, asked.value);
      if has {
        r := VersionExists;
        return;
      }
    }
    if asked.None? && es != [] && es[0].version >= MAX_VERSION {
      r := VersionOverflow;
      return;
    }
    if es != [] { Highest(es); } else { NoVersions(NewVersion(es, asked)); }
    r, take, left, gone, purged := EnterAndPurge(vol, n, name, NewVersion(es, asked), want, how, flags, limit, erase);
  }

  // The limit in the record is the one the name was entered with.
  lemma LimitLed(was: seq<Rec>, now: seq<Rec>, name: seq<Char16>, edit: Edit, start: int)
    requires Led(was, now, name, edit) && edit.Add? && Entries(was, name) == []
    requires forall r <- was :: r.entries != []
    ensures Limit(now, name, start) == if edit.limit < 1 then 1 else edit.limit
  {
    hide Cmp, Leads, Entries;
    FirstHas(was, name);
    LeadsOne(was, name);
    LeadsOne(now, name);
    var st := Style(name, edit.limit, edit.flags);
    assert Destined(was, name, edit, st);
    LimitFirst(now, name, start);
  }

  lemma {:induction false} LimitFirst(recs: seq<Rec>, name: seq<Char16>, start: int)
    ensures LimitOf(recs, name, start) ==
      if FirstOf(recs, name).None? then start else recs[FirstOf(recs, name).value].verlimit
  {
    hide Cmp;
    if recs != [] { LimitFirst(recs[1..], name, start); }
  }

  /** A new name entered under a limit of two or more keeps its first version when it gets a
      second, whatever the limit is then. */
  method CreateTwice(vol: Volume, n: int, name: seq<Char16>, want: nat, how: Bitmap.How, flags: int, limit: int,
                     later: int, erase: Fid -> bool)
    returns (a: Creation, b: Creation)
    requires vol.Inv() && Tidy(vol.v, vol.reserved, vol.d) && HeadsDir(vol.d, n) && |name| <= MAX_NAME
    requires Entries(Flat(DirBlocks(vol.v, vol.d, n)), name) == [] && limit >= 2
    modifies vol
    ensures a.Created? && b.Created? ==>
      IsDir(vol.v, vol.d, n) && Entries(Flat(DirBlocks(vol.v, vol.d, n)), name) == [Entry(2, b.fid), Entry(1, a.fid)]
  {
    hide Sound, Tidy, IsDir, DirBlocks, Flat, Entries, HeadsDir, Covered, EnteredPast, Undone, LeavesMarked, Excused,
         Roomy, LedIn, OldDirs, Vacancies, Stays, StopsThere, InOnePiece, Has, Limit;
    ghost var d0 := vol.d;
    ghost var take, left, gone, purged := [], {}, {}, 0;
    TidyDir(vol.v, vol.reserved, d0, n, name);
    a, take, left, gone, purged := Create(vol, n, name, None, want, how, flags, limit, erase);
    b := NoFile;
    if a.Created? {
      ghost var d1 := vol.d;
      FirstVersion(vol.v, d0, d1, n, name, limit, a, take, gone, purged);
      DirHeads(vol.v, d1, n);
      LedLimit(vol.v, d0, d1, n, name, Add(1, a.fid, flags, limit), later);
      b, take, left, gone, purged := Create(vol, n, name, None, want, how, flags, later, erase);
      if b.Created? { SecondVersion(vol.v, d1, vol.d, n, name, later, a.fid, b, take, gone, purged); }
    }
  }

  lemma TidyDir(v: nat, res: int, d: Disk, n: int, name: seq<Char16>)
    requires Tidy(v, res, d) && HeadsDir(d, n)
    ensures IsDir(v, d, n) && forall r <- Flat(DirBlocks(v, d, n)) :: r.entries != []
  {
    hide Consistent, Orderly, IsDir, DirBlocks, Flat, Entries, HeadsDir;
    TidySays(v, res, d, n, name);
    forall r | r in Flat(DirBlocks(v, d, n))
      ensures r.entries != []
    {
      FlatIn(DirBlocks(v, d, n), r);
    }
  }

  lemma FirstVersion(v: nat, d: Disk, now: Disk, n: int, name: seq<Char16>, limit: int, r: Creation, take: seq<nat>,
                     gone: set<Fid>, purged: nat)
    requires r.Created? && r.version == 1 && IsDir(v, d, n) && IsDir(v, now, n)
    requires EnteredPast(v, d, now, n, name, limit, r, take, gone, purged)
    requires Entries(Flat(DirBlocks(v, d, n)), name) == []
    ensures Entries(Flat(DirBlocks(v, now, n)), name) == [Entry(1, r.fid)]
  {
    hide IsDir, DirBlocks, Flat, Entries, Enters, Limit, Kept;
    InsertFirst(Entry(1, r.fid));
  }

  lemma LedLimit(v: nat, d: Disk, now: Disk, n: int, name: seq<Char16>, edit: Edit, start: int)
    requires LedIn(v, d, now, n, name, edit) && edit.Add? && edit.limit >= 2
    requires Entries(Flat(DirBlocks(v, d, n)), name) == [] && forall r <- Flat(DirBlocks(v, d, n)) :: r.entries != []
    ensures IsDir(v, now, n) && Limit(Flat(DirBlocks(v, now, n)), name, start) >= 2
  {
    hide IsDir, DirBlocks, Flat, Entries, Led, Limit;
    LimitLed(Flat(DirBlocks(v, d, n)), Flat(DirBlocks(v, now, n)), name, edit, start);
  }

  lemma SecondVersion(v: nat, d: Disk, now: Disk, n: int, name: seq<Char16>, limit: int, f: Fid, r: Creation,
                      take: seq<nat>, gone: set<Fid>, purged: nat)
    requires r.Created? && r.version == 2 && IsDir(v, d, n) && IsDir(v, now, n)
    requires EnteredPast(v, d, now, n, name, limit, r, take, gone, purged)
    requires Entries(Flat(DirBlocks(v, d, n)), name) == [Entry(1, f)]
    requires Limit(Flat(DirBlocks(v, d, n)), name, limit) >= 2
    ensures Entries(Flat(DirBlocks(v, now, n)), name) == [Entry(2, r.fid), Entry(1, f)]
  {
    hide IsDir, DirBlocks, Flat, Entries, Enters, Limit, Kept;
    assert Insert([Entry(1, f)], Entry(2, r.fid)) == [Entry(2, r.fid), Entry(1, f)];
  }

  lemma NoVersions(version: int)
    ensures !Has([], version)
  {
  }

  lemma ListedThen(was: seq<Rec>, mid: seq<Rec>, now: seq<Rec>, name: seq<Char16>, es: seq<Entry>, fs: seq<Entry>)
    requires Listed(was, mid, name, es) && Listed(mid, now, name, fs) && es != []
    ensures Listed(was, now, name, fs)
  {
    hide Entries, Cmp, Sorted, Others, Leads;
  }

  // No version there was is the new file's.
  lemma EnteredNew(v: nat, d: Disk, now: Disk, n: int, name: seq<Char16>, f: Fid, cs: seq<nat>)
    requires EnteredAs(v, d, now, n, f, cs) && Consistent(v, d) && IsDir(v, d, n)
    ensures forall e <- Entries(Flat(DirBlocks(v, d, n)), name) :: e.fid != f
  {
    hide Consistent, Maps, KeepsDirs, KeepsSpace, IsDir, DirBlocks, Flat, Entries, Named;
    SoundOf(v, d);
    forall e | e in Entries(Flat(DirBlocks(v, d, n)), name)
      ensures e.fid != f
    {
      EntryNamed(v, d, n, name, e);
    }
  }

  lemma NewStays(hard: bool, d: Disk, n: int, es: seq<Entry>, e: Entry, keep: nat, limit: nat, gone: set<Fid>)
    requires Descending(es) && !Has(es, e.version) && (forall x <- es :: x.fid != e.fid) && n in d.live
    requires e.fid.num in d.live
    requires var all := Insert(es, e);
      keep == (if limit < |all| then limit else |all|) && WentWith(hard, d, n, all, keep, |all| - keep, gone)
    requires GoesWith(hard, d, n, e.fid)
    ensures e.fid !in gone <==> Newer(es, e.version) < limit
  {
    hide GoesWith, Newer, Insert, Has, Descending;
    InsertAt(es, e);
    var k, all := Newer(es, e.version), Insert(es, e);
    assert all[k] == e;
    forall j | 0 <= j < |all| && j != k
      ensures all[j].fid != e.fid
    {
      if j < k { assert all[j] == es[j]; } else { assert all[j] == es[j - 1]; }
    }
    assert OnceIn(all, k);
  }

  // ---------------------------------------------------------------------
  // Creating a directory
  // ---------------------------------------------------------------------

  /** There is no file number, no cluster, or no space for the entry once the first free
      cluster is taken. */
  ghost predicate NoDirFor(v: nat, res: int, max: int, d: Disk, n: int, name: seq<Char16>)
    requires IsDir(v, d, n) && |name| <= MAX_NAME
  {
    var c := RunFrom(d.bits, 1, 0);
    || Vacancies(d, res, max) == {} || c.None?
    || NoPlaceFor(v, LayoutOf(v, d, n).(bits := Minus(d.bits, [c.value])), name, 1)
  }

  lemma NoRun(bits: seq<bool>)
    ensures RunFrom(bits, 1, 0).Some? <==> Bitmap.HasRoom(bits, 1, Bitmap.Whole, Bitmap.None)
  {
    hide RunFrom, Bitmap.AllFree;
    if Bitmap.HasRoom(bits, 1, Bitmap.Whole, Bitmap.None) {
      var s :| Bitmap.AllFree(bits, s, 1);
      FreeFrom(bits, s);
    }
  }

  lemma FreeFrom(bits: seq<bool>, s: int)
    requires Bitmap.AllFree(bits, s, 1)
    ensures s >= 0
  {
  }

  datatype Placing = Placed(fid: Fid) | NameTaken | NotPlaced

  /** create_dir: an empty directory, entered as version 1 of a name that has no
      versions.  Where it fails the volume is as it was. */
  method CreateDir(vol: Volume, n: int, name: seq<Char16>, flags: int, erase: Fid -> bool)
    returns (r: Placing, ghost at: nat)
    requires vol.Inv() && Tidy(vol.v, vol.reserved, vol.d) && HeadsDir(vol.d, n) && |name| <= MAX_NAME
    modifies vol
    ensures vol.Inv() && Tidy(vol.v, vol.reserved, vol.d) && old(vol.trace) <= vol.trace
    ensures OldDirs(old(vol.d), vol.d, if r.Placed? then Some(r.fid.num) else None)
    ensures r.NameTaken? <==> Entries(Flat(DirBlocks(vol.v, old(vol.d), n)), name) != []
    ensures !r.Placed? ==> Undone(vol.v, old(vol.d), vol.d, {})
    ensures !r.NameTaken? ==> (r.NotPlaced? <==>
                               NoDirFor(vol.v, vol.reserved, vol.maxFiles, old(vol.d), n, name))
    ensures r.Placed? ==>
      EnteredAs(vol.v, old(vol.d), vol.d, n, r.fid, [at]) && HeadsDir(vol.d, n) && HeadsDir(vol.d, r.fid.num)
    ensures r.Placed? ==> Flat(DirBlocks(vol.v, vol.d, r.fid.num)) == []
    ensures r.Placed? ==>
      Listed(Flat(DirBlocks(vol.v, old(vol.d), n)), Flat(DirBlocks(vol.v, vol.d, n)), name, [Entry(1, r.fid)])
    ensures r.Placed? ==> LedIn(vol.v, old(vol.d), vol.d, n, name, Add(1, r.fid, flags, MAX_VERSION))
    ensures r.Placed? ==> Bears(vol.hard, old(vol.d), vol.d, n, r.fid) && SameLinks(old(vol.d), vol.d)
    ensures Covered(vol.v, vol.hard, old(vol.d)) ==> Covered(vol.v, vol.hard, vol.d)
    ensures old(vol.Counted()) ==> vol.Counted()
  {
    hide Sound, Consistent, IsDir, DirBlocks, Flat, Entries, Descending, IsReadable, Made, Undone, EnteredAs, DirOnly,
         Listed, Unlisted, UnlistedElsewhere, Orderly, OldDirs, Neat, HeadsDir, Has, Covered, Places, Fold, KeepsFiles,
         KeepsDirs, Conserved, Vacancies, Owned, NoPlaceFor, LayoutOf, Minus, RunFrom, Bitmap.HasRoom,
         LedIn, Bears, SameLinks;
    at := 0;
    ghost var d0 := vol.d;
    TidySays(vol.v, vol.reserved, d0, n, name);
    DirOf(vol.v, d0, n);
    DirSays(vol.v, d0, n);
    NothingDone(vol.v, d0);
    NoneNew(d0, None);
    var bs := vol.ReadDir(n);
    if Entries(Flat(bs), name) != [] {
      r := NameTaken;
      return;
    }
    NoRun(d0.bits);
    var m, c := MakeDir(vol, Fid(n, vol.d.live[n].seqno));
    if !m.MadeFile? {
      TidyUndone(vol.v, vol.reserved, d0, vol.d, {});
      if Covered(vol.v, vol.hard, d0) { UndoneCovered(vol.v, vol.hard, vol.reserved, d0, vol.d, {}); }
      r := NotPlaced;
      return;
    }
    at := c;
    var ok := EnterDir(vol, d0, n, name, m.fid, c, flags, erase(m.fid));
    r := if ok then Placed(m.fid) else NotPlaced;
  }

  // The entry for a directory just made, or else it gone again.
  method EnterDir(vol: Volume, ghost d0: Disk, n: int, name: seq<Char16>, f: Fid, c: nat, flags: int, erase: bool)
    returns (ok: bool)
    requires vol.Inv() && Tidy(vol.v, vol.reserved, d0) && HeadsDir(d0, n) && |name| <= MAX_NAME && n in d0.live
    requires IsDir(vol.v, d0, n) && Entries(Flat(DirBlocks(vol.v, d0, n)), name) == []
    requires Made(vol.v, d0, vol.d, f, [c]) && OldDirs(d0, vol.d, Some(f.num)) && f.num in vol.d.live
    requires vol.d.live[f.num] == NewFile.First(f, [c], true, 1, Fid(n, d0.live[n].seqno), if vol.hard then 1 else 0)
    requires IsReadable(vol.v, vol.d, f.num) && DirBlocks(vol.v, vol.d, f.num) == [EMPTY]
    modifies vol
    ensures vol.Inv() && Tidy(vol.v, vol.reserved, vol.d) && old(vol.trace) <= vol.trace
    ensures OldDirs(d0, vol.d, if ok then Some(f.num) else None) && (!ok ==> Undone(vol.v, d0, vol.d, {}))
    ensures ok <==> !NoPlaceFor(vol.v, LayoutOf(vol.v, d0, n).(bits := Minus(d0.bits, [c])), name, 1)
    ensures ok ==> EnteredAs(vol.v, d0, vol.d, n, f, [c]) && HeadsDir(vol.d, n) && HeadsDir(vol.d, f.num)
    ensures ok ==> Flat(DirBlocks(vol.v, vol.d, f.num)) == []
    ensures ok ==> Listed(Flat(DirBlocks(vol.v, d0, n)), Flat(DirBlocks(vol.v, vol.d, n)), name, [Entry(1, f)])
    ensures ok ==> LedIn(vol.v, d0, vol.d, n, name, Add(1, f, flags, MAX_VERSION))
    ensures ok ==> Bears(vol.hard, d0, vol.d, n, f) && SameLinks(d0, vol.d)
    ensures Covered(vol.v, vol.hard, d0) ==> Covered(vol.v, vol.hard, vol.d)
    ensures old(vol.Counted()) && Covered(vol.v, vol.hard, d0) ==> vol.Counted()
  {
    hide Sound, Consistent, IsDir, DirBlocks, Flat, Entries, Descending, IsReadable, Made, Undone, EnteredAs, DirOnly,
         Listed, Unlisted, UnlistedElsewhere, Orderly, OldDirs, Neat, HeadsDir, Has, Covered, Places, Fold, KeepsFiles,
         KeepsDirs, Conserved, Vacancies, Owned, Updated, NoPlaceFor, LayoutOf, Minus, LedIn, Styled,
         SameLinks;
    TidySays(vol.v, vol.reserved, d0, n, name);
    DirOf(vol.v, d0, n);
    DirSays(vol.v, d0, n);
    ghost var d1 := vol.d;
    MadeSays(vol.v, d0, d1, f, [c]);
    if Covered(vol.v, vol.hard, d0) { MadeCovered(vol.v, vol.hard, d0, d1, f, [c]); }
    NamedSeqno(d0, d1, n, f);
    EmptyNeat(vol.v, vol.reserved, d1, f.num);
    TidyMade(vol.v, vol.reserved, d0, d1, f, [c]);
    ReadableKept(vol.v, d0, d1, n);
    DirOf(vol.v, d1, n);
    DirOf(vol.v, d1, f.num);
    UnlistedNowhere(vol.v, d1, f);
    NoVersions(1);
    MadeLayout(vol.v, d0, d1, f, [c], n);
    AddAlike(vol.v, LayoutOf(vol.v, d1, n), name, 1, f, flags, MAX_VERSION);
    var entered := vol.DirUpdate(n, name, Add(1, f, flags, MAX_VERSION));
    ok := entered.Entered?;
    if !ok {
      vol.DeleteFile(f, erase);
      MadeDeleted(vol.v, d0, d1, vol.d, f, [c]);
      OldGone(d0, d1, vol.d, f);
      TidyUndone(vol.v, vol.reserved, d0, vol.d, {});
      if Covered(vol.v, vol.hard, d0) { UndoneCovered(vol.v, vol.hard, vol.reserved, d0, vol.d, {}); }
      return;
    }
    DirOf(vol.v, vol.d, n);
    LedIf(vol.v, d0, d1, vol.d, n, name, Add(1, f, flags, MAX_VERSION));
    EnteredMade(vol.v, d0, d1, vol.d, n, f, [c]);
    BearsStill(vol.v, vol.hard, d0, d1, vol.d, n, f, [c]);
    TidyEdit(vol.v, vol.reserved, d1, vol.d, n, name, Add(1, f, flags, MAX_VERSION));
    if Covered(vol.v, vol.hard, d0) { AddedCovered(vol.v, vol.hard, vol.reserved, d1, vol.d, n, name, 1, f); }
    NotNew(d1, vol.d, f.num);
    OldTrans(d0, d1, vol.d, Some(f.num));
    OtherListing(vol.v, d1, vol.d, n, f.num);
    DirHeads(vol.v, vol.d, f.num);
    NothingFlat();
    InsertFirst(Entry(1, f));
  }

  lemma InsertFirst(e: Entry)
    ensures Insert([], e) == [e]
  {
  }
}
