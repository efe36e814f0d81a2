/** Small volumes on which an operation does less than it is for, each the least
    that shows where the condition in that operation's contract fails. */
module Shortfalls {
  import opened Disk
  import opened Directory
  import opened DirDisk
  import opened DirRoom
  import opened NewFile
  import opened Contents
  import opened Wildcards
  import opened LinkCount
  import opened Volume
  import opened Operations
  import opened Tidiness
  import opened Deleting
  import opened Creating
  import opened Renaming
  import opened Sharing
  import Bitmap
  import F = FileMap
  import N = NameSyntax
  import P = Purging
  import R = Removal

  const DIR := Fid(4, 1)
  const FILE := Fid(5, 1)
  const A: seq<Char16> := [0x41, 0x2e] // A.
  const B: seq<Char16> := [0x42, 0x2e]

  // A name as it is given: Latin-1.
  function Latin(name: seq<Char16>): seq<N.Byte>
    requires forall i | 0 <= i < |name| :: name[i] < 0x100
  {
    seq(|name|, i requires 0 <= i < |name| => LatinChar(name[i]))
  }

  function LatinChar(c: Char16): N.Byte
    requires c < 0x100
  {
    c as int
  }

  // Such a name may be created, on a volume of either level.
  ghost predicate MayBe(name: seq<Char16>) {
    (forall i | 0 <= i < |name| :: name[i] < 0x100) && forall level :: N.Valid(level, Latin(name))
  }

  lemma PlainName(name: seq<Char16>)
    requires 0 < |name| <= 10 && name[|name| - 1] == 0x2e
    requires forall i | 0 <= i < |name| - 1 :: 0x41 <= name[i] <= 0x5a || name[i] == 0x24
    ensures MayBe(name)
  {
    var bytes := Latin(name);
    var dot := |name| - 1;
    assert bytes[dot] == 0x2e;
    LastDot(bytes);
  }

  lemma LastDot(name: seq<N.Byte>)
    requires name != [] && name[|name| - 1] == 0x2e
    ensures N.TypeDot(name) == N.Some(|name| - 1)
  {
  }

  // ---------------------------------------------------------------------
  // Two files of one header each
  // ---------------------------------------------------------------------

  predicate Alone(h: Header, f: Fid) { h == First(f, h.at, h.dir, h.eof, h.back, h.links) }

  predicate Pair(d: Disk, f: Fid, g: Fid) {
    && f.num != g.num && d.live.Keys == {f.num, g.num} && Alone(d.live[f.num], f) && Alone(d.live[g.num], g)
    && {f.num, g.num} <= d.used && 0 < f.num < d.indexEof && 0 < g.num < d.indexEof
  }

  lemma PairLinked(d: Disk, f: Fid, g: Fid)
    requires Pair(d, f, g)
    ensures Links(d) && Numbered(d) && AllTyped(d) && OneLink(d)
  {
  }

  lemma PairHeld(d: Disk, f: Fid, g: Fid)
    requires Pair(d, f, g) && Allocated(d, d.live[f.num]) && Allocated(d, d.live[g.num])
    requires Distinct(d.live[f.num].at) && Distinct(d.live[g.num].at)
    requires Apart(d.live[f.num].at, d.live[g.num].at) && Apart(d.live[g.num].at, d.live[f.num].at)
    ensures Held(d) && Disjoint(d)
  {
    hide Allocated, Distinct, Apart;
  }

  lemma PairEnds(v: nat, d: Disk, f: Fid, g: Fid)
    requires Pair(d, f, g) && EndsWithin(v, d, d.live[f.num]) && EndsWithin(v, d, d.live[g.num])
    ensures Ended(v, d)
  {
    hide EndsWithin;
  }

  lemma PairConsistent(v: nat, d: Disk, f: Fid, g: Fid)
    requires Pair(d, f, g) && Allocated(d, d.live[f.num]) && Allocated(d, d.live[g.num]) && Shown(v, d)
    requires Distinct(d.live[f.num].at) && Distinct(d.live[g.num].at)
    requires Apart(d.live[f.num].at, d.live[g.num].at) && Apart(d.live[g.num].at, d.live[f.num].at)
    requires EndsWithin(v, d, d.live[f.num]) && EndsWithin(v, d, d.live[g.num])
    ensures Consistent(v, d)
  {
    hide Pair, Allocated, Distinct, Apart, EndsWithin, Shown, Links, Numbered, AllTyped, OneLink, Held, Disjoint, Ended;
    PairLinked(d, f, g);
    PairHeld(d, f, g);
    PairEnds(v, d, f, g);
  }

  // A directory of one block, and a file of no clusters that is in it.
  function Small(recs: seq<Rec>, size: nat): Disk {
    Disk(map[4 := First(DIR, [0], true, 1, DIR, 1), 5 := First(FILE, [], false, 0, DIR, 1)], map[], {4, 5}, 6,
         seq(size, k => k != 0), map[(0, 0) := Block(recs, 0)])
  }

  // Records of the file, as a directory has them.
  ghost predicate OfFile(recs: seq<Rec>) {
    && Sorted(recs) && Used(recs) <= BLOCK && (forall name :: Descending(Entries(recs, name)))
    && forall r <- recs :: r.entries != [] && |r.name| <= MAX_NAME && forall e <- r.entries :: e.fid == FILE
  }

  lemma SmallConsistent(recs: seq<Rec>, size: nat)
    requires OfFile(recs) && size > 0
    ensures Consistent(1, Small(recs, size)) && Conserved(Small(recs, size), {})
  {
    hide Sorted, Descending, Entries, Used, Consistent;
    var d := Small(recs, size);
    assert Named(d, FILE) && Named(d, DIR);
    assert 0 in d.live[4].at;
    PairConsistent(1, d, DIR, FILE);
  }

  lemma SmallDir(recs: seq<Rec>, size: nat)
    requires OfFile(recs) && size > 0
    ensures var d := Small(recs, size);
      IsDir(1, d, 4) && DirBlocks(1, d, 4) == [Parsed(Block(recs, 0))] && Neat(1, 3, d, 4)
    ensures Flat(DirBlocks(1, Small(recs, size), 4)) == recs
  {
    hide Sorted, Descending, Entries, Used, Flat;
    var d := Small(recs, size);
    assert Quot(0, 1) == 0 && Rem(0, 1) == 0;
    assert DirBlocks(1, d, 4)[0] == Parsed(Block(recs, 0));
    FlatOne(Parsed(Block(recs, 0)));
  }

  lemma SmallTidy(recs: seq<Rec>, size: nat)
    requires OfFile(recs) && size > 0
    ensures var d := Small(recs, size);
      Tidy(1, 3, d) && HeadsDir(d, 4) && IsDir(1, d, 4) && Flat(DirBlocks(1, d, 4)) == recs
    ensures |DirBlocks(1, Small(recs, size), 4)| == 1
  {
    hide Consistent, IsDir, DirBlocks, Flat, Neat, OfFile;
    SmallConsistent(recs, size);
    SmallDir(recs, size);
  }

  function One(name: seq<Char16>, version: int, limit: int := 1): Rec { Rec(name, limit, 0, [Entry(version, FILE)]) }

  lemma OneEntries(name: seq<Char16>, version: int, other: seq<Char16>, limit: int := 1)
    ensures Entries([One(name, version, limit)], other) == if Cmp(name, other) == 0 then [Entry(version, FILE)] else []
  {
    assert [One(name, version, limit)][1..] == [];
  }

  lemma OneOfFile(name: seq<Char16>, version: int, limit: int := 1)
    requires |name| <= MAX_NAME
    ensures OfFile([One(name, version, limit)])
  {
    hide Entries;
    var r := One(name, version, limit);
    forall other
      ensures Descending(Entries([r], other))
    {
      OneEntries(name, version, other, limit);
    }
    assert Used([r]) == Size(r) + Used([r][1..]);
  }

  lemma TwoEntries(other: seq<Char16>)
    ensures Entries([One(A, 1), One(B, 1)], other) == if Cmp(A, other) == 0 || Cmp(B, other) == 0 then [Entry(1, FILE)]
      else []
  {
    var a, b := One(A, 1), One(B, 1);
    assert [a, b] == [a] + [b];
    EntriesSplit([a], [b], other);
    OneEntries(A, 1, other);
    OneEntries(B, 1, other);
    CmpTrans(A, other, B);
    CmpAnti(B, other);
  }

  lemma TwoOfFile()
    ensures OfFile([One(A, 1), One(B, 1)])
  {
    hide Entries;
    var a, b := One(A, 1), One(B, 1);
    assert [a, b] == [a] + [b];
    UsedSplit([a], [b]);
    OneOfFile(A, 1);
    OneOfFile(B, 1);
    assert Used([a]) == Size(a) + Used([a][1..]) && Used([b]) == Size(b) + Used([b][1..]);
    forall other
      ensures Descending(Entries([a, b], other))
    {
      TwoEntries(other);
    }
  }

  // ---------------------------------------------------------------------
  // Clusters lost, and file numbers
  // ---------------------------------------------------------------------

  // Files 4 to 3 + k of one cluster each, the first a directory, with a free cluster
  // after each, and a file of none.
  function Comb(k: nat): Disk {
    Disk(Teeth(k), map[], Teeth(k).Keys, 5 + k, seq(2 * k, c => c % 2 == 1), map[(0, 0) := Block([], 0)])
  }

  function Teeth(k: nat): map<int, Header> { map n | 4 <= n <= 4 + k :: Tooth(k, n) }

  function Tooth(k: nat, n: int): Header
    requires 4 <= n <= 4 + k
  {
    First(Fid(n, 1), if n == 4 + k then [] else [2 * (n - 4)], n == 4, if n == 4 then 1 else 0, DIR, 1)
  }

  lemma CombSound(k: nat)
    requires k > 0
    ensures Sound(1, Comb(k))
  {
    var d := Comb(k);
    assert d.live[4] == Tooth(k, 4) && Named(d, DIR);
    assert forall n <- d.live :: d.live[n] == Tooth(k, n);
    forall n, i: nat, j: nat | Uses(1, d, n, i, j)
      ensures BlockAt(d, n, i, j) == Block([], 0)
    {
      assert d.live[n] == Tooth(k, n);
    }
  }

  lemma CombConsistent(k: nat)
    requires k > 0
    ensures Consistent(1, Comb(k))
  {
    hide Sound;
    CombSound(k);
    var d := Comb(k);
    assert forall n <- d.live :: d.live[n] == Tooth(k, n);
  }

  lemma CombConserved(k: nat)
    ensures Conserved(Comb(k), {})
  {
    var d := Comb(k);
    forall c | 0 <= c < |d.bits| && !d.bits[c]
      ensures Owned(d, c)
    {
      var n := 4 + c / 2;
      assert n in d.live && d.live[n] == Tooth(k, n) && c in d.live[n].at;
    }
  }

  lemma {:induction false} CombFree(k: nat, n: nat)
    requires n <= k
    ensures Bitmap.FreeBelow(Comb(k).bits, 2 * n) == n
  {
    if n > 0 {
      CombFree(k, n - 1);
      var bits := Comb(k).bits;
      assert bits[2 * n - 1] && !bits[2 * n - 2];
      assert Bitmap.FreeBelow(bits, 2 * n) == Bitmap.FreeBelow(bits, 2 * n - 1) + 1;
    }
  }

  lemma CombRoom(k: nat)
    ensures Bitmap.HasRoom(Comb(k).bits, k, Bitmap.Wherever, Bitmap.None)
  {
    CombFree(k, k);
  }

  /** Whichever free clusters they are and in whatever order, no two make one run. */
  lemma CombNeed(k: nat, cs: seq<nat>)
    requires k < 0x10_0000 && forall c <- cs :: c < |Comb(k).bits| && Comb(k).bits[c]
    ensures Further(1, F.Seg([], 310), cs) == if |cs| <= 77 then 0 else (|cs| - 77 + 106) / 107
  {
    hide Further;
    forall i | 0 < i < |cs|
      ensures cs[i - 1] + 1 != cs[i]
    {
      assert cs[i - 1] in cs && cs[i] in cs;
    }
    ScatteredNeed(1, 310, cs);
  }

  /** 78 clusters for a file of none, none next to another: 77 pointers fit its header,
      and there is no number for another.  They are taken and no file's. */
  method ExtensionLosesSpace() returns (vol: Volume, r: Growth)
    ensures fresh(vol) && r.NoHeaders? && vol.Inv()
    ensures Conserved(Comb(78), {}) && !Conserved(vol.d, {})
  {
    hide Sound, Consistent, Maps, KeepsFiles, KeepsDirs, SameContents, KeepsSpace, OldDirs, Calm, SameLinks, Further,
         Conserved, Vacancies, Suits, Comb, Stands;
    var f := Fid(82, 1);
    CombConsistent(78);
    CombConserved(78);
    SoundOf(1, Comb(78));
    vol := new Volume(Comb(78), 1, 82, 3, true, false);
    CombRoom(78);
    CombFull(78);
    CombFile(78);
    var take: Option<seq<nat>>;
    r, take := Extend(vol, f, 78, Bitmap.Wherever, false, F.Seg([], F.MapRoom(false, 0)));
    CombTakes(78, take);
    NotConserved(vol.d, take.value);
  }

  // No number is vacant up to the last file's.
  lemma CombFull(k: nat)
    ensures Vacancies(Comb(k), 3, 4 + k) == {}
  {
  }

  lemma CombFile(k: nat)
    ensures Named(Comb(k), Fid(4 + k, 1)) && Maps(Comb(k), Fid(4 + k, 1), [])
    ensures LastStands(1, Comb(k), Fid(4 + k, 1), F.Seg([], 310)) && F.MapRoom(false, 0) == 310
  {
    var d, n := Comb(k), 4 + k;
    assert d.live[n] == Tooth(k, n);
    assert Chain(d, Fid(n, 1), [n]);
    assert [n][1..] == [];
    assert R.ClustersOf(d, [n]) == [];
    assert forall m <- d.live :: d.live[m] == Tooth(k, m);
  }

  lemma CombTakes(k: nat, take: Option<seq<nat>>)
    requires 0 < k < 0x10_0000 && Suits(Comb(k).bits, [], k, Bitmap.Wherever, take)
    ensures take.Some? && |take.value| == k && Further(1, F.Seg([], 310), take.value) == if k <= 77 then 0
      else (k - 77 + 106) / 107
  {
    hide Further, Comb;
    CombRoom(k);
    CombNeed(k, take.value);
  }

  lemma NotConserved(d: Disk, cs: seq<nat>)
    requires cs != [] && forall c <- cs :: c < |d.bits| && !d.bits[c] && !Owned(d, c)
    ensures !Conserved(d, {})
  {
    assert cs[0] in cs;
  }

  /** A new file of 185 clusters, none next to another, needs three headers, and there
      are two numbers: the second stays marked, and is no header's. */
  method CreationKeepsNumber() returns (vol: Volume, r: Making)
    ensures fresh(vol) && r.NoMoreHeaders? && vol.Inv()
    ensures vol.d.used == Comb(185).used + {191} && 191 !in Comb(185).used && forall g | Named(vol.d, g) :: g.num != 191
  {
    hide Sound, Maps, KeepsFiles, KeepsDirs, OldDirs, SameListings, SameContents, SameLinks, KeepsSpace,
         Bitmap.HasRoom, Consistent, Vacancies, Lowest, Adds, Marks, Made, InOnePiece, Further, Comb;
    CombConsistent(185);
    SoundOf(1, Comb(185));
    vol := new Volume(Comb(185), 1, 191, 3, true, false);
    CombRoom(185);
    CombTwo(185);
    ghost var take, left := [], {};
    r, take, left := MakeFile(vol, 185, Bitmap.Wherever, RoomFor(false, A, 1), f => false, DIR);
    CombNeed(185, take);
    LowestOfTwo();
  }

  // Two numbers are.
  lemma CombTwo(k: nat)
    requires k == 185
    ensures Vacancies(Comb(k), 3, 191) == {190, 191} && RoomFor(false, A, 1) == 310
    ensures 191 !in Comb(k).used && forall g | Named(Comb(k), g) :: g.num != 191
  {
  }

  lemma LowestOfTwo()
    ensures forall n | Lowest({190, 191}, n) :: n == 190
  {
    assert 190 in {190, 191};
  }

  // ---------------------------------------------------------------------
  // Files gone
  // ---------------------------------------------------------------------

  lemma TwoPlaces()
    ensures var recs := [One(A, 1), One(B, 1)];
      !Sole(1, Small(recs, 1), 4, A, 1, FILE) && Entries(recs, A) == [Entry(1, FILE)]
  {
    hide Consistent, IsDir, DirBlocks, Flat, OfFile, Orderly, Places;
    var recs := [One(A, 1), One(B, 1)];
    TwoOfFile();
    SmallTidy(recs, 1);
    TwoEntries(A);
    CmpAnti(A, A);
    TidyPlaces(1, 3, Small(recs, 1), FILE, Place(4, Fold(B), 1));
    assert One(B, 1) in recs;
    assert ListedAt(recs, Fold(B), 1, FILE);
    assert Fold(A)[0] != Fold(B)[0];
  }

  /** A file with a back link to a directory that has two entries for it, on a volume
      that does not count them: deleting one takes the file, and the other dangles. */
  method DeletionDangles() returns (vol: Volume, r: Deletion)
    ensures MayBe(A) && MayBe(B) && fresh(vol) && r.Deleted? && !Sound(vol.v, vol.d) && !Named(vol.d, FILE)
  {
    hide Consistent, IsDir, DirBlocks, Flat, OfFile, KeepsSpace, Maps, CountsDown, Listed, OldDirs, Orderly, Covered,
         Sole, Sound, MayBe;
    var recs := [One(A, 1), One(B, 1)];
    var d := Small(recs, 1);
    PlainName(A);
    PlainName(B);
    TwoOfFile();
    SmallTidy(recs, 1);
    SoundOf(1, d);
    TwoPlaces();
    vol := new Volume(d, 1, 10, 3, false, false);
    r := Delete(vol, 4, A, 1, f => false);
  }

  /** Version 3 of a name that keeps one version and has version 5: what is created
      is deleted again. */
  method CreationVanishes() returns (vol: Volume, r: Creation)
    ensures MayBe(A) && fresh(vol) && r.Created? && !Named(vol.d, r.fid)
  {
    hide Consistent, IsDir, DirBlocks, Flat, OfFile, Listed, OldDirs, Orderly, HeadsDir, Covered, Undone, EnteredPast,
         Entries, Cmp, Sound, LeavesMarked, Excused, Roomy, Stays, Vacancies, MayBe;
    var recs := [One(A, 5)];
    var d := Small(recs, 2);
    OneEntries(A, 5, A);
    CmpAnti(A, A);
    PlainName(A);
    OneOfFile(A, 5);
    OneCovered();
    SmallTidy(recs, 2);
    SoundOf(1, d);
    vol := new Volume(d, 1, 10, 3, true, false);
    ghost var take, left, gone, purged := [], {}, {}, 0;
    r, take, left, gone, purged := Create(vol, 4, A, Some(3), 0, Bitmap.Wherever, 0, 1, f => false);
    OldVersionGoes(d, vol.d, 1);
    NotExcused(1, 3, take, HeadersFor(1, RoomFor(false, A, 3), take));
    if r.Created? { GoneAgain(d, vol.d, recs, r, take, gone, purged); }
  }

  lemma OldVersionGoes(d: Disk, now: Disk, limit: int)
    requires d == Small([One(A, 5, limit)], 2) && OldDirs(d, now, None)
    ensures !Stays(1, 3, now, FILE)
  {
    hide IsDir, DirBlocks, Flat;
    NotHeadStill(d, now, 5);
  }

  lemma OneCovered(limit: int := 1)
    ensures Covered(1, true, Small([One(A, 5, limit)], 2))
  {
    hide Tidy, IsDir, DirBlocks, Flat, OfFile, Places, Fold;
    var recs := [One(A, 5, limit)];
    var d := Small(recs, 2);
    OneOfFile(A, 5, limit);
    SmallTidy(recs, 2);
    forall f | Named(d, f)
      ensures |Places(1, d, f)| <= 1
    {
      forall p | p in Places(1, d, f)
        ensures p in {Place(4, Fold(A), 5)}
      {
        TidyPlaces(1, 3, d, f, p);
      }
      NoMore(Places(1, d, f), {Place(4, Fold(A), 5)});
    }
  }

  // There is a number for the file and room for its entry.
  lemma NotExcused(limit: int, version: int, take: seq<nat>, parts: nat)
    ensures var d := Small([One(A, 5, limit)], 2);
      IsDir(1, d, 4) && !Excused(1, 3, 10, d, 4, A, version, 0, Bitmap.Wherever, take, parts)
    ensures var bs := DirBlocks(1, Small([One(A, 5, limit)], 2), 4); Roomy(bs, A, |Entries(Flat(bs), A)| + 1)
  {
    hide IsDir, DirBlocks, Flat, OfFile, Roomy, Tidy, Updated;
    var recs := [One(A, 5, limit)];
    var d := Small(recs, 2);
    OneOfFile(A, 5, limit);
    SmallTidy(recs, 2);
    OneEntries(A, 5, A, limit);
    CmpAnti(A, A);
    assert 6 in Vacancies(d, 3, 10);
    OneRoomy(DirBlocks(1, d, 4), limit);
    InsertSize(Entries(recs, A), Entry(version, Fid(0, 0)));
    RoomyFits(1, LayoutOf(1, d, 4).(bits := Minus(d.bits, take)), A, Add(version, Fid(0, 0), 0, 0));
  }

  lemma OneRoomy(blocks: seq<Block>, limit: int)
    requires |blocks| == 1 && Flat(blocks) == [One(A, 5, limit)]
    ensures Roomy(blocks, A, 2)
  {
    hide Flat, Cmp, Directory.Below, Above, RecordsOf;
    CmpAnti(A, A);
    var recs := [One(A, 5, limit)];
    PartsOf(recs, A);
    forall g: Group | Cmp(g.name, A) == 0 && |g.name| <= MAX_NAME && |g.entries| == 2
      ensures Used(Edited(recs, A, RecordsOf(g))) <= MAX_RECORD
    {
      CmpLength(g.name, A);
      FewRecords(g);
      assert [] + RecordsOf(g) + [] == RecordsOf(g);
    }
  }

  /** A name whose limit is 0, which is to be none: a second version is created, and the
      first is deleted. */
  method ZeroLimitPurges() returns (vol: Volume, r: Creation)
    ensures MayBe(A) && fresh(vol) && r.Created? && IsDir(vol.v, vol.d, 4)
    ensures Entries(Flat(DirBlocks(vol.v, vol.d, 4)), A) == [Entry(6, r.fid)]
  {
    hide Consistent, IsDir, DirBlocks, Flat, OfFile, Listed, OldDirs, Orderly, HeadsDir, Covered, Undone, EnteredPast,
         Entries, Cmp, Sound, LeavesMarked, Excused, Roomy, Stays, Vacancies, MayBe, P.StopsThere;
    var recs := [One(A, 5, 0)];
    var d := Small(recs, 2);
    OneEntries(A, 5, A, 0);
    CmpAnti(A, A);
    PlainName(A);
    OneOfFile(A, 5, 0);
    OneCovered(0);
    SmallTidy(recs, 2);
    SoundOf(1, d);
    vol := new Volume(d, 1, 10, 3, true, false);
    ghost var take, left, gone, purged := [], {}, {}, 0;
    r, take, left, gone, purged := Create(vol, 4, A, None, 0, Bitmap.Wherever, 0, 1, f => false);
    OldVersionGoes(d, vol.d, 0);
    NotExcused(0, 6, take, HeadersFor(1, RoomFor(false, A, 6), take));
    if r.Created? { OnlyNewest(d, vol.d, recs, r, take, gone, purged); }
  }

  lemma OnlyNewest(d: Disk, now: Disk, recs: seq<Rec>, r: Creation, take: seq<nat>, gone: set<Fid>, purged: nat)
    requires r.Created? && r.version == 6 && IsDir(1, d, 4) && IsDir(1, now, 4)
    requires EnteredPast(1, d, now, 4, A, 1, r, take, gone, purged)
    requires recs == [One(A, 5, 0)] && Flat(DirBlocks(1, d, 4)) == recs && Entries(recs, A) == [Entry(5, FILE)]
    ensures Entries(Flat(DirBlocks(1, now, 4)), A) == [Entry(6, r.fid)]
  {
    hide IsDir, DirBlocks, Flat, Entries, Maps, KeepsSpace, Named, P.Kept;
    CmpAnti(A, A);
    assert LimitOf(recs, A, 1) == 0;
    assert Insert([Entry(5, FILE)], Entry(6, r.fid)) == [Entry(6, r.fid), Entry(5, FILE)];
  }

  lemma GoneAgain(d: Disk, now: Disk, recs: seq<Rec>, r: Creation, take: seq<nat>, gone: set<Fid>, purged: nat)
    requires r.Created? && r.version == 3 && IsDir(1, d, 4) && IsDir(1, now, 4)
    requires EnteredPast(1, d, now, 4, A, 1, r, take, gone, purged)
    requires recs == [One(A, 5)] && Flat(DirBlocks(1, d, 4)) == recs && Entries(recs, A) == [Entry(5, FILE)]
    ensures !Named(now, r.fid)
  {
    hide IsDir, DirBlocks, Flat, Listed, Entries, Maps, KeepsSpace, Named, Insert;
    assert Newer([Entry(5, FILE)], 3) == 1;
    CmpAnti(A, A);
    assert LimitOf(recs, A, 1) == 1;
  }

  // ---------------------------------------------------------------------
  // A directory that is not seen below another
  // ---------------------------------------------------------------------

  const SUB := Fid(6, 1)
  const LOWER: seq<Char16> := [0x62, 0x2e, 0x64, 0x69, 0x72]

  function Inner(): Rec { Rec(LOWER, 1, 0, [Entry(1, SUB)]) }

  // A directory, and in it another, named b.dir.
  function Below(): Disk {
    Disk(map[4 := First(DIR, [0], true, 1, DIR, 1), 6 := First(SUB, [1], true, 1, DIR, 1)], map[], {4, 6}, 7,
         [false, false],
         map[(0, 0) := Block([Inner()], 0), (1, 0) := Block([], 0)])
  }

  lemma BelowConsistent()
    ensures Consistent(1, Below())
  {
    hide Consistent, Shown;
    BelowShown();
    PairConsistent(1, Below(), DIR, SUB);
  }

  lemma BelowShown()
    ensures Shown(1, Below())
  {
    var d := Below();
    assert Named(d, SUB) && Named(d, DIR);
    forall n, i: nat, j: nat | Uses(1, d, n, i, j)
      ensures Good(d, BlockAt(d, n, i, j))
    {
      assert i == 0 && j == 0 && (n == 4 || n == 6);
    }
  }

  lemma BelowListed(n: int, c: nat, recs: seq<Rec>)
    requires (n == 4 && c == 0 && recs == [Inner()]) || (n == 6 && c == 1 && recs == [])
    ensures IsDir(1, Below(), n) && DirBlocks(1, Below(), n) == [Parsed(Block(recs, 0))]
    ensures Flat(DirBlocks(1, Below(), n)) == recs
  {
    hide Flat, Used;
    var d := Below();
    assert Quot(0, 1) == 0 && Rem(0, 1) == 0;
    assert DirBlocks(1, d, n)[0] == Parsed(Block(recs, 0));
    FlatOne(Parsed(Block(recs, 0)));
  }

  lemma BelowTidy()
    ensures Tidy(1, 3, Below())
  {
    hide Consistent, IsDir, DirBlocks, Flat, Neat;
    BelowConsistent();
    BelowListed(4, 0, [Inner()]);
    BelowListed(6, 1, []);
    BelowNeat(4, [Inner()]);
    BelowNeat(6, []);
  }

  lemma BelowNeat(n: int, recs: seq<Rec>)
    requires (n == 4 && recs == [Inner()]) || (n == 6 && recs == [])
    requires IsDir(1, Below(), n) && DirBlocks(1, Below(), n) == [Parsed(Block(recs, 0))]
    requires Flat(DirBlocks(1, Below(), n)) == recs
    ensures Neat(1, 3, Below(), n)
  {
    hide IsDir, DirBlocks, Flat, Cmp;
    assert n == 4 ==> recs[1..] == [];
    assert Used(recs) <= BLOCK;
    forall name
      ensures Descending(Entries(recs, name))
    {
    }
  }

  /** The directory lists the other, and has it below it by no way that is looked at. */
  method NotSeenBelow() returns (vol: Volume, yes: bool)
    ensures fresh(vol) && !yes && IsDir(vol.v, vol.d, 4) && HeadsDir(vol.d, SUB.num)
    ensures Entry(1, SUB) in Entries(Flat(DirBlocks(vol.v, vol.d, 4)), LOWER)
  {
    hide Consistent, Tidy, IsDir, DirBlocks, Flat, Sound;
    BelowTidy();
    BelowConsistent();
    SoundOf(1, Below());
    BelowListed(4, 0, [Inner()]);
    vol := new Volume(Below(), 1, 10, 3, true, true);
    yes := ContainsDir(vol, DIR, SUB);
    NoWay(vol.d);
    EntryIn([Inner()], 0, Entry(1, SUB));
  }

  lemma NoWay(d: Disk)
    requires IsDir(1, d, 4) && Flat(DirBlocks(1, d, 4)) == [Inner()]
    ensures !Reaches(1, d, DIR, SUB)
  {
    hide IsDir, DirBlocks, Flat, Sub;
    forall path: seq<Fid> | Down(1, d, path) && path[0] == DIR
      ensures |path| == 1
    {
      var b := if |path| > 1 then path[1] else DIR;
      assert |path| > 1 ==> Sub(1, d, path[0], b);
      NoSub(d, b);
    }
  }

  lemma NoSub(d: Disk, b: Fid)
    requires IsDir(1, d, 4) && Flat(DirBlocks(1, d, 4)) == [Inner()]
    ensures !Sub(1, d, DIR, b)
  {
    hide IsDir, DirBlocks, Flat;
    assert LOWER[1] != DIR_TYPE[0] || LOWER[2] != DIR_TYPE[1];
  }

  // ---------------------------------------------------------------------
  // As many entries as a link count can say
  // ---------------------------------------------------------------------

  // Names of four letters from A to P and a dot, in order.
  function Name(k: nat): seq<Char16>
    requires k < MAX_LINKS
  {
    [Letter(k / 0x1000), Letter(k / 0x100 % 16), Letter(k / 16 % 16), Letter(k % 16), 0x2e]
  }

  function Letter(x: nat): Char16
    requires x < 16
  {
    (0x41 + x) as Char16
  }

  lemma NamesRise(j: nat, k: nat)
    requires j < k < MAX_LINKS
    ensures Cmp(Name(j), Name(k)) < 0 && Fold(Name(j)) != Fold(Name(k))
  {
    hide Cmp;
    var a, b := Name(j), Name(k);
    var i := FirstDigit(j, k);
    CmpAt(a, b, i);
    CmpFold(a, b);
  }

  // Where the two differ.
  lemma FirstDigit(j: nat, k: nat) returns (i: nat)
    requires j < k < MAX_LINKS
    ensures i < 4 && Name(j)[..i] == Name(k)[..i] && Name(j)[i] < Name(k)[i]
  {
    Powers(j);
    Powers(k);
    if j / 16 == k / 16 {
      LessDigit(j, k);
      return 3;
    }
    if j / 0x100 == k / 0x100 {
      LessDigit(j / 16, k / 16);
      return 2;
    }
    if j / 0x1000 == k / 0x1000 {
      LessDigit(j / 0x100, k / 0x100);
      return 1;
    }
    i := 0;
  }

  lemma Powers(x: nat)
    ensures x / 0x100 == x / 16 / 16 && x / 0x1000 == x / 0x100 / 16
  {
  }

  lemma LessDigit(a: nat, b: nat)
    requires a < b && a / 16 == b / 16
    ensures a % 16 < b % 16
  {
  }

  lemma {:induction false} CmpAt(a: seq<Char16>, b: seq<Char16>, i: nat)
    requires i < |a| && i < |b| && a[..i] == b[..i] && Upcase(a[i]) < Upcase(b[i])
    ensures Cmp(a, b) < 0
  {
    if i > 0 {
      assert a[0] == a[..i][0] && b[0] == b[..i][0];
      assert a[1..][..i - 1] == a[..i][1..] && b[1..][..i - 1] == b[..i][1..];
      CmpAt(a[1..], b[1..], i - 1);
    }
  }

  // A directory of n blocks with an entry each, all for one file.
  function Listing(n: nat): (bs: seq<Block>)
    requires n <= MAX_LINKS
    ensures |bs| == n && forall k | 0 <= k < n :: bs[k] == Parsed(Block([One(Name(k), 1)], 0))
  {
    seq(n, k requires 0 <= k < n => Parsed(Block([One(Name(k), 1)], 0)))
  }

  function Recs(n: nat): (rs: seq<Rec>)
    requires n <= MAX_LINKS
    ensures |rs| == n && forall k | 0 <= k < n :: rs[k] == One(Name(k), 1)
  {
    seq(n, k requires 0 <= k < n => One(Name(k), 1))
  }

  lemma {:induction false} ListingFlat(n: nat)
    requires n <= MAX_LINKS
    ensures Flat(Listing(n)) == Recs(n)
  {
    hide Flat, Name;
    if n == 0 {
      FlatNone();
    } else {
      ListingFlat(n - 1);
      var b := Parsed(Block([One(Name(n - 1), 1)], 0));
      assert Listing(n) == Listing(n - 1) + [b];
      FlatSplit(Listing(n - 1), [b]);
      FlatOne(b);
      assert Recs(n) == Recs(n - 1) + [One(Name(n - 1), 1)];
    }
  }

  lemma {:induction false} RecsEntries(n: nat, name: seq<Char16>)
    requires n <= MAX_LINKS
    ensures |Entries(Recs(n), name)| <= 1
    ensures Entries(Recs(n), name) != [] ==> exists k | 0 <= k < n :: Cmp(Name(k), name) == 0
  {
    hide Name, Cmp, Entries;
    if n == 0 {
      EntriesNone(name);
      assert Recs(0) == [];
    } else {
      RecsEntries(n - 1, name);
      var r := One(Name(n - 1), 1);
      assert Recs(n) == Recs(n - 1) + [r];
      EntriesSplit(Recs(n - 1), [r], name);
      OneEntries(Name(n - 1), 1, name);
      if Entries(Recs(n - 1), name) != [] && Cmp(Name(n - 1), name) == 0 {
        var k :| 0 <= k < n - 1 && Cmp(Name(k), name) == 0;
        NamesRise(k, n - 1);
        CmpTrans(Name(k), name, Name(n - 1));
        CmpAnti(Name(n - 1), name);
      }
    }
  }

  function Crowd(): Disk {
    var n := MAX_LINKS;
    Disk(map[4 := First(DIR, [0], true, n, DIR, 1), 5 := First(FILE, [], false, 0, DIR, n)], map[], {4, 5}, 6, [false],
         map k | 0 <= k < n :: (0, k) := Block([One(Name(k), 1)], 0))
  }

  lemma CrowdConsistent()
    ensures Consistent(MAX_LINKS, Crowd())
  {
    hide Shown, Name, Consistent;
    CrowdShown();
    PairConsistent(MAX_LINKS, Crowd(), DIR, FILE);
  }

  lemma CrowdShown()
    ensures Shown(MAX_LINKS, Crowd())
  {
    hide Name;
    var d := Crowd();
    assert Named(d, FILE);
    forall n, i: nat, j: nat | Uses(MAX_LINKS, d, n, i, j)
      ensures Good(d, BlockAt(d, n, i, j))
    {
      assert n == 4 && i == 0 && (0, j) in d.data;
      assert BlockAt(d, n, i, j) == Block([One(Name(j), 1)], 0);
    }
  }

  lemma CrowdDir()
    ensures var d := Crowd(); IsDir(MAX_LINKS, d, 4) && DirBlocks(MAX_LINKS, d, 4) == Listing(MAX_LINKS)
  {
    hide Name, Parsed;
    var d := Crowd();
    var bs := DirBlocks(MAX_LINKS, d, 4);
    forall k | 0 <= k < MAX_LINKS
      ensures bs[k] == Parsed(Block([One(Name(k), 1)], 0))
    {
      assert Quot(k, MAX_LINKS) == 0 && Rem(k, MAX_LINKS) == k;
      assert (0, k) in d.data;
    }
  }

  lemma RecsSorted(n: nat)
    requires n <= MAX_LINKS
    ensures Sorted(Recs(n))
  {
    hide Name, Cmp;
    forall i, j | 0 <= i < j < n
      ensures Cmp(Recs(n)[i].name, Recs(n)[j].name) <= 0
    {
      NamesRise(i, j);
    }
  }

  lemma ListingReadable(n: nat)
    requires n <= MAX_LINKS
    ensures Readable(Listing(n)) && forall b <- Listing(n), r <- b.recs :: |r.name| <= MAX_NAME
  {
    hide Flat, Sorted;
    ListingFlat(n);
    RecsSorted(n);
    forall k | 0 <= k < n
      ensures Used(Listing(n)[k].recs) == 20
    {
      assert [One(Name(k), 1)][1..] == [];
    }
  }

  lemma CrowdTidy()
    ensures Tidy(MAX_LINKS, 3, Crowd()) && HeadsDir(Crowd(), 4) && IsDir(MAX_LINKS, Crowd(), 4)
    ensures Flat(DirBlocks(MAX_LINKS, Crowd(), 4)) == Recs(MAX_LINKS)
  {
    hide Consistent, IsDir, DirBlocks, Flat, Readable, Entries, Name;
    CrowdConsistent();
    CrowdDir();
    ListingReadable(MAX_LINKS);
    ListingFlat(MAX_LINKS);
    forall name
      ensures Descending(Entries(Recs(MAX_LINKS), name))
    {
      RecsEntries(MAX_LINKS, name);
    }
  }

  ghost function Spots(n: nat): set<Place>
    requires n <= MAX_LINKS
  {
    set k | 0 <= k < n :: Place(4, Fold(Name(k)), 1)
  }

  lemma {:induction false} ManySpots(n: nat)
    requires n <= MAX_LINKS
    ensures |Spots(n)| == n
  {
    hide Name, Fold;
    if n > 0 {
      ManySpots(n - 1);
      var p := Place(4, Fold(Name(n - 1)), 1);
      if p in Spots(n - 1) {
        var k :| 0 <= k < n - 1 && p == Place(4, Fold(Name(k)), 1);
        NamesRise(k, n - 1);
      }
      assert Spots(n) == Spots(n - 1) + {p};
    }
  }

  lemma CrowdPlaces(f: Fid)
    ensures Places(MAX_LINKS, Crowd(), f) == if f == FILE then Spots(MAX_LINKS) else {}
  {
    hide Tidy, IsDir, DirBlocks, Flat, Name, Fold, Places, HeadsDir;
    CrowdTidy();
    var recs := Recs(MAX_LINKS);
    forall p
      ensures p in Places(MAX_LINKS, Crowd(), f) <==> f == FILE && p in Spots(MAX_LINKS)
    {
      TidyPlaces(MAX_LINKS, 3, Crowd(), f, p);
      OneHead(p.dir);
      if ListedAt(recs, p.name, p.version, f) {
        var r :| r in recs && Fold(r.name) == p.name && Entry(p.version, f) in r.entries;
        var k :| 0 <= k < |recs| && recs[k] == r;
      }
      if p in Spots(MAX_LINKS) {
        var k :| 0 <= k < MAX_LINKS && p == Place(4, Fold(Name(k)), 1);
        assert recs[k] in recs;
      }
    }
  }

  lemma OneHead(m: int)
    ensures HeadsDir(Crowd(), m) <==> m == 4
  {
  }

  lemma CrowdCovered()
    ensures Covered(MAX_LINKS, true, Crowd())
  {
    hide Places, Spots, Name;
    ManySpots(MAX_LINKS);
    forall f | Named(Crowd(), f)
      ensures |Places(MAX_LINKS, Crowd(), f)| <= Reckoned(true, Crowd().live[f.num])
    {
      CrowdPlaces(f);
    }
  }

  lemma NamesMay()
    ensures forall k: nat | k < MAX_LINKS :: MayBe(Name(k))
  {
    hide MayBe;
    forall k: nat | k < MAX_LINKS
      ensures MayBe(Name(k))
    {
      PlainName(Name(k));
    }
  }

  lemma NameShort(k: nat)
    requires k < MAX_LINKS
    ensures |Name(k)| == 5
  {
  }

  lemma TheFile(e: Entry, to: int, r: Renaming)
    requires Refused(MAX_LINKS, 3, Crowd(), 4, Name(0), N.Highest, 4, A, None, e, to, r)
    ensures e.fid == FILE && Counting(r)
  {
    hide Name, IsDir, DirBlocks, Flat, Entries, Reaches, Cmp, DirType;
    CrowdTidy();
    var recs := Recs(MAX_LINKS);
    EntryIn(recs, 0, Entry(1, FILE));
    assert recs[0].name == Name(0);
    RecsEntries(MAX_LINKS, Name(0));
    assert Resolves(VersionsIn(MAX_LINKS, Crowd(), 4, Name(0)), N.Highest, Entry(1, FILE));
    OtherName();
  }

  // It has no version, and is no other way of writing the name there is.
  lemma OtherName()
    ensures Entries(Recs(MAX_LINKS), A) == [] && Cmp(A, Name(0)) != 0
  {
    hide Name, Cmp, Entries;
    RecsEntries(MAX_LINKS, A);
    forall k: nat | k < MAX_LINKS
      ensures Cmp(Name(k), A) != 0
    {
      NameShort(k);
      if Cmp(Name(k), A) == 0 { CmpLength(Name(k), A); }
    }
    CmpAnti(A, Name(0));
  }

  /** A file with 65,535 entries, which is what its count says: a rename counts no more,
      and when it is over the count says one too few. */
  method RenameUncounts() returns (vol: Volume, r: Renaming)
    ensures MayBe(A) && forall k: nat | k < MAX_LINKS :: MayBe(Name(k))
    ensures fresh(vol) && Counting(r) && Covered(vol.v, true, Crowd()) && !Covered(vol.v, true, vol.d)
  {
    hide Tidy, IsDir, DirBlocks, Flat, Name, Places, HeadsDir, Covered, Sound, Spots, TwoDirs, NeverLost, Refused,
         Moves, HeaderAfter, VersionsIn, Has, MayBe;
    PlainName(A);
    NamesMay();
    CrowdTidy();
    CrowdCovered();
    CrowdConsistent();
    SoundOf(MAX_LINKS, Crowd());
    vol := new Volume(Crowd(), MAX_LINKS, 10, 3, true, false);
    ghost var e, to, mid := Entry(1, FILE), 0, [];
    NameShort(0);
    r, e, to, mid := Rename(vol, 4, Name(0), N.Highest, 4, A, None, 0, 1);
    TheFile(e, to, r);
    CrowdPlaces(FILE);
    ManySpots(MAX_LINKS);
  }

  // ---------------------------------------------------------------------
  // A rename that stops half way
  // ---------------------------------------------------------------------

  const LOW: seq<Char16> := [0x24, 0x2e] // $.
  const TOP: seq<Char16> := [0x30, 0x30, 0x30, 0x30, 0x30, 0x30, 0x2e, 0x44, 0x49, 0x52] // 000000.DIR

  function Mine(): Rec { Rec(LOW, 1, 0, [Entry(1, FILE)]) }

  function Itself(): Rec { Rec(TOP, 1, 0, [Entry(1, DIR)]) }

  // The master file directory, of two blocks, on a volume that is full: a file's entry
  // in the first, its own in the second.
  function Tight(): Disk {
    Disk(map[4 := First(DIR, [0, 1], true, 2, DIR, 1), 5 := First(FILE, [], false, 0, DIR, 1)], map[], {4, 5}, 6,
         [false, false], map[(0, 0) := Block([Mine()], 0), (1, 0) := Block([Itself()], 0)])
  }

  lemma TightConsistent()
    ensures Consistent(1, Tight())
  {
    hide Consistent, Shown;
    var d := Tight();
    TightShown();
    assert Distinct([0, 1]);
    PairConsistent(1, d, DIR, FILE);
  }

  lemma TightShown()
    ensures Shown(1, Tight())
  {
    var d := Tight();
    assert Named(d, FILE) && Named(d, DIR);
    forall n, i: nat, j: nat | Uses(1, d, n, i, j)
      ensures Good(d, BlockAt(d, n, i, j))
    {
      assert j == 0 && n == 4 && (i == 0 || i == 1);
    }
  }

  function Halves(): seq<Block> { [Parsed(Block([Mine()], 0)), Parsed(Block([Itself()], 0))] }

  lemma TightListed()
    ensures IsDir(1, Tight(), 4) && DirBlocks(1, Tight(), 4) == Halves() && Flat(Halves()) == [Mine(), Itself()]
  {
    hide Flat, Used, Parsed;
    var d := Tight();
    assert Quot(0, 1) == 0 && Rem(0, 1) == 0 && Quot(1, 1) == 1 && Rem(1, 1) == 0;
    var bs := DirBlocks(1, d, 4);
    assert |bs| == 2 && bs[0] == Parsed(Block([Mine()], 0)) && bs[1] == Parsed(Block([Itself()], 0));
    assert Halves() == [Halves()[0]] + [Halves()[1]];
    FlatSplit([Halves()[0]], [Halves()[1]]);
    FlatOne(Halves()[0]);
    FlatOne(Halves()[1]);
    ParsedRecs(Block([Mine()], 0));
    ParsedRecs(Block([Itself()], 0));
  }

  lemma ParsedRecs(b: Block)
    ensures Parsed(b).recs == b.recs
  {
  }

  lemma HalvesEntries(name: seq<Char16>)
    ensures Entries([Mine(), Itself()], name) ==
      if Cmp(LOW, name) == 0 then [Entry(1, FILE)] else if Cmp(TOP, name) == 0 then [Entry(1, DIR)] else []
  {
    hide Cmp;
    var a, b := Mine(), Itself();
    assert [a, b] == [a] + [b];
    EntriesSplit([a], [b], name);
    EntriesOne(a, name);
    EntriesOne(b, name);
    if Cmp(LOW, name) == 0 && Cmp(TOP, name) == 0 {
      CmpTrans(LOW, name, TOP);
      CmpAnti(TOP, name);
      InOrder();
    }
  }

  lemma InOrder()
    ensures Cmp(LOW, TOP) < 0 && Cmp(LOW, A) < 0 && Cmp(TOP, A) < 0 && Cmp(TOP, LOW) > 0 && Cmp(A, LOW) > 0
    ensures Cmp(LOW, LOW) == 0
  {
    CmpAnti(LOW, LOW);
  }

  lemma TightTidy()
    ensures Tidy(1, 4, Tight()) && HeadsDir(Tight(), 4)
  {
    hide Consistent, IsDir, DirBlocks, Flat, Cmp, Entries;
    TightConsistent();
    TightListed();
    InOrder();
    forall name
      ensures Descending(Entries([Mine(), Itself()], name))
    {
      HalvesEntries(name);
    }
    HalvesUsed();
  }

  lemma HalvesUsed()
    ensures Used([Mine()]) == 16 && Used([Itself()]) == 24
  {
    UsedOne(Mine());
    UsedOne(Itself());
  }

  function Before(): Layout { Layout([false, false], [0, 1], Halves()) }

  function Between(): Layout {
    Before().(bs := [Parsed(Block([Mine()], 0)), Parsed(Block([Itself(), One(A, 1)], 0))])
  }

  lemma NewRecord()
    ensures NewRecords([Mine(), Itself()], A, Add(1, FILE, 0, 1)) == [One(A, 1)]
  {
    hide Cmp;
    var recs := [Mine(), Itself()];
    InOrder();
    CmpAnti(A, TOP);
    HalvesEntries(A);
    assert FirstOf([Itself()], A).None? && FirstOf([Mine()], A).None?;
    assert recs == [Mine()] + [Itself()];
    FirstSplit([Mine()], [Itself()], A);
    assert Insert([], Entry(1, FILE)) == [Entry(1, FILE)];
  }

  lemma BothUsed()
    ensures Used([Itself(), One(A, 1)]) == 40
  {
    assert [Itself(), One(A, 1)] == [Itself()] + [One(A, 1)];
    UsedSplit([Itself()], [One(A, 1)]);
    UsedOne(Itself());
    UsedOne(One(A, 1));
  }

  // There is room for the new entry in the second block.
  lemma Fits()
    ensures Updated(1, Before(), A, Add(1, FILE, 0, 1)) == Some(Between())
  {
    hide Cmp, Flat, NewRecords, Used, Stretched, Packed, Edited, Parsed;
    var t := Before();
    TightListed();
    NewRecord();
    InOrder();
    ParsedRecs(Block([Mine()], 0));
    ParsedRecs(Block([Itself()], 0));
    HereLast(t.bs);
    var rs := [One(A, 1)];
    InLast(rs);
    BothUsed();
    var blk := Block([Itself(), One(A, 1)], t.bs[1].tail);
    assert PlanFor(t.bs, A, rs, Stretched(1, t).Some?) == InPlace(1, blk);
    SameParse(t.bs, blk);
  }

  lemma {:induction false} HereLast(bs: seq<Block>)
    requires |bs| == 2 && bs[0].recs == [Mine()] && bs[1].recs == [Itself()]
    ensures !Across(bs, A) && Where(bs, A) == 1
  {
    hide Cmp;
    InOrder();
  }

  lemma InLast(rs: seq<Rec>)
    ensures Edited([Itself()], A, rs) == [Itself()] + rs
  {
    hide Cmp;
    InOrder();
    PartsOf([Itself()], A);
  }

  lemma SameParse(bs: seq<Block>, blk: Block)
    requires bs == Halves() && blk.recs == [Itself(), One(A, 1)]
    ensures ParsedAll(bs[1 := blk]) == Between().bs
  {
    hide Used;
  }

  // But none for the directory without the old one.
  lemma NoneLeft()
    ensures Updated(1, Between(), LOW, Remove(1)).None?
  {
    hide Cmp, Flat, NewRecords, Used, Stretched, Packed, Edited, Parsed, Updated;
    var t := Between();
    ParsedRecs(Block([Mine()], 0));
    ParsedRecs(Block([Itself(), One(A, 1)], 0));
    FlatTwo(t.bs[0], t.bs[1]);
    var all := [Mine(), Itself(), One(A, 1)];
    assert [Mine()] + [Itself(), One(A, 1)] == all;
    OldRecords(all);
    FirstEmpties(t.bs);
    var n := Clusters(1, |Packed(Edited(all, LOW, []))|);
    SomeClusters(1, |Packed(Edited(all, LOW, []))|);
    forall s: nat
      ensures !Bitmap.AllFree(t.bits, s, n)
    {
      NoneFree(s, n);
    }
    UsedNone();
    UpdateFails(1, t, LOW, Remove(1));
  }

  lemma NoneFree(s: nat, n: nat)
    requires n > 0
    ensures !Bitmap.AllFree([false, false], s, n)
  {
    if s + n <= 2 { assert ![false, false][s]; }
  }

  lemma FlatTwo(a: Block, b: Block)
    ensures Flat([a, b]) == a.recs + b.recs
  {
    assert [a, b] == [a] + [b];
    FlatSplit([a], [b]);
    FlatOne(a);
    FlatOne(b);
  }

  lemma OldRecords(all: seq<Rec>)
    requires all == [Mine(), Itself(), One(A, 1)]
    ensures NewRecords(all, LOW, Remove(1)) == []
  {
    hide Cmp;
    InOrder();
    assert all == [Mine(), Itself()] + [One(A, 1)];
    EntriesSplit([Mine(), Itself()], [One(A, 1)], LOW);
    HalvesEntries(LOW);
    EntriesOne(One(A, 1), LOW);
    assert Entries(all, LOW) == [Entry(1, FILE)];
  }

  lemma {:induction false} FirstEmpties(bs: seq<Block>)
    requires |bs| == 2 && bs[0].recs == [Mine()] && bs[1].recs == [Itself(), One(A, 1)]
    ensures !Across(bs, LOW) && Where(bs, LOW) == 0 && Edited([Mine()], LOW, []) == []
  {
    hide Cmp;
    InOrder();
    assert Mine() in bs[0].recs && !AllBelow(bs[0].recs, LOW);
    PartsStart([Mine()], LOW);
    PartsStart([], LOW);
    assert [Mine()][1..] == [];
  }

  lemma TightStrands()
    ensures IsDir(1, Tight(), 4) && Strands(1, Tight(), 4, LOW, 1, 4, A, Add(1, FILE, 0, 1))
  {
    hide IsDir, DirBlocks, Flat, Updated;
    TightListed();
    Fits();
    NoneLeft();
    assert LayoutOf(1, Tight(), 4) == Before();
  }

  lemma TightCovered()
    ensures Covered(1, false, Tight())
  {
    hide Tidy, IsDir, DirBlocks, Flat, Places, Fold;
    var d := Tight();
    TightTidy();
    TightListed();
    forall f | Named(d, f)
      ensures |Places(1, d, f)| <= 1
    {
      var only := Place(4, Fold(if f == FILE then LOW else TOP), 1);
      forall p | p in Places(1, d, f)
        ensures p in {only}
      {
        TidyPlaces(1, 4, d, f, p);
      }
      NoMore(Places(1, d, f), {only});
    }
  }

  // What the rename is of.
  lemma TheEntry(e: Entry, to: int, r: Renaming)
    requires Refused(1, 4, Tight(), 4, LOW, N.Highest, 4, A, None, e, to, r)
    ensures e == Entry(1, FILE) && to == 1 && Counting(r)
    ensures !Has(VersionsIn(1, Tight(), 4, A), 1)
  {
    hide IsDir, DirBlocks, Flat, Entries, Reaches, Cmp, DirType;
    TightListed();
    InOrder();
    HalvesEntries(LOW);
    HalvesEntries(A);
    CmpAnti(A, TOP);
    assert Resolves(VersionsIn(1, Tight(), 4, LOW), N.Highest, Entry(1, FILE));
  }

  /** A full volume that does not count entries: the new entry goes into the second block,
      and to remove the old one, alone in the first, the directory would have to be
      written anew.  Both are left, and the file has more than one. */
  method RenameStrands() returns (vol: Volume, r: Renaming)
    ensures MayBe(LOW) && MayBe(A)
    ensures fresh(vol) && r.HalfMoved? && Covered(vol.v, false, Tight()) && !Covered(vol.v, false, vol.d)
  {
    hide Tidy, IsDir, DirBlocks, Flat, Places, HeadsDir, Covered, Sound, TwoDirs, NeverLost, Refused, Moves,
         HeaderAfter, VersionsIn, Has, MayBe, Strands, NoPlaceIn;
    PlainName(LOW);
    PlainName(A);
    TightTidy();
    TightConsistent();
    TightCovered();
    TightStrands();
    SoundOf(1, Tight());
    vol := new Volume(Tight(), 1, 10, 4, false, false);
    ghost var e, to, mid := Entry(1, FILE), 0, [];
    r, e, to, mid := Rename(vol, 4, LOW, N.Highest, 4, A, None, 0, 1);
    TheEntry(e, to, r);
  }
}
