/** Creating, extending, deleting and renaming files, from the volume's smaller
    steps.  Each leaves the volume consistent and every cluster free or a
    file's, and what it fails to do it leaves undone. */
module Operations {
  import opened Disk
  import opened Directory
  import opened DirDisk
  import opened Contents
  import opened NewFile
  import opened Wildcards
  import opened Volume
  import opened DirRoom
  import opened LinkCount
  import Bitmap
  import E = Extension
  import R = Removal
  import F = FileMap
  import opened Sharing

  const MAX_VERSION := 32767

  ghost predicate SameContents(d: Disk, now: Disk) {
    forall g, cs | Maps(d, g, cs) :: Maps(now, g, cs)
  }

  ghost predicate KeepsSpace(d: Disk, now: Disk) {
    forall but :: Conserved(d, but) ==> Conserved(now, but)
  }

  // The files there were have the link counts and back links they had.
  ghost predicate SameLinks(d: Disk, now: Disk) {
    forall n <- now.live | n in d.live && now.live[n].seg == 0 ::
      now.live[n].links == d.live[n].links && now.live[n].back == d.live[n].back
  }

  // The same files, holding what they did, and the same directories.
  ghost predicate SameFiles(v: nat, d: Disk, now: Disk) {
    && Consistent(v, now) && (forall g :: Named(now, g) <==> Named(d, g)) && SameListings(v, d, now)
    && SameContents(d, now)
    && SameLinks(d, now)
  }

  /** The volume as it was: its files, its directories and its space; and the
      file numbers in use, but that some more are marked. */
  ghost predicate Undone(v: nat, d: Disk, now: Disk, left: set<int>) {
    SameFiles(v, d, now) && KeepsSpace(d, now) && now.used == d.used + left
  }

  // The numbers taken are those of the file's headers.
  ghost predicate Marks(d: Disk, now: Disk, f: Fid) {
    && (forall n :: n in now.used <==> n in d.used || HeaderOf(now, n, f))
    && (forall n | HeaderOf(now, n, f) :: n !in d.used)
  }

  // No header lists what it did not, and each is its file's as before.
  ghost predicate NoMoreListed(v: nat, d: Disk, now: Disk) {
    forall n, r | Lists(v, now, n, r) ::
      Lists(v, d, n, r) && n in now.live && n in d.live && now.live[n].file == d.live[n].file
  }

  // One file more, in no directory, and the others as they were.
  ghost predicate Adds(v: nat, d: Disk, now: Disk, f: Fid, cs: seq<nat>) {
    && Consistent(v, now) && f.num !in d.live && (forall g :: Named(now, g) <==> Named(d, g) || g == f)
    && Maps(now, f, cs) && Unlisted(v, now, f) && SameListings(v, d, now) && SameContents(d, now)
    && NoMoreListed(v, d, now) && SameLinks(d, now)
  }

  // The headers there were are as they were, and just those clusters no longer free.
  ghost predicate Beside(d: Disk, now: Disk, cs: seq<nat>) {
    now.bits == Minus(d.bits, cs) && forall k <- d.live :: k in now.live && now.live[k] == d.live[k]
  }

  /** There is one file more, in no directory, and the rest is as it was. */
  ghost predicate Made(v: nat, d: Disk, now: Disk, f: Fid, cs: seq<nat>) {
    Adds(v, d, now, f, cs) && KeepsSpace(d, now) && Marks(d, now, f) && Beside(d, now, cs)
  }

  // ---------------------------------------------------------------------
  // Frames
  // ---------------------------------------------------------------------

  lemma SameAll(v: nat, d: Disk, now: Disk)
    requires now.live == d.live && now.data == d.data
    ensures SameListings(v, d, now) && SameContents(d, now) && forall g :: Named(now, g) <==> Named(d, g)
    ensures NoMoreListed(v, d, now) && SameLinks(d, now)
  {
    hide IsDir, DirBlocks, Maps, Lists, Vbn;
    ListingsSame(v, d, now);
    forall g, cs | Maps(d, g, cs)
      ensures Maps(now, g, cs)
    {
      SameFile(d, now, g, cs);
    }
    forall m, r | Lists(v, now, m, r)
      ensures Lists(v, d, m, r) && m in d.live
    {
      ListsSame(v, d, now, m, r);
      ListsLive(v, now, m, r);
    }
  }

  lemma ListedTrans(v: nat, a: Disk, b: Disk, c: Disk)
    requires NoMoreListed(v, a, b) && NoMoreListed(v, b, c)
    ensures NoMoreListed(v, a, c)
  {
    hide Lists;
  }

  lemma ContentsTrans(a: Disk, b: Disk, c: Disk)
    requires SameContents(a, b) && SameContents(b, c)
    ensures SameContents(a, c)
  {
    hide Maps;
  }

  // What is not there yet is no directory, and no file.
  lemma ListingsIf(v: nat, d: Disk, now: Disk, n: int)
    requires KeepsDirs(v, d, now, n) && n !in d.live
    ensures SameListings(v, d, now)
  {
  }

  // The disk with the numbers taken, to which the clusters were appended.
  lemma Before(v: nat, d: Disk, p: E.Plan, now: Disk) returns (x: Disk)
    requires E.Appends(v, d, p, now)
    ensures x == d.(used := x.used, indexEof := x.indexEof) && E.Ready(v, x, p) && p.last in x.live
    ensures |p.chunks| == |p.ids|
    ensures now == E.Appended(x, p)
  {
    var used, eof :| E.Ready(v, d.(used := used, indexEof := eof), p)
      && now == E.Appended(d.(used := used, indexEof := eof), p);
    x := d.(used := used, indexEof := eof);
  }

  /** All that appending does, whether or not it took numbers first. */
  lemma AppendsSays(v: nat, d: Disk, p: E.Plan, now: Disk)
    requires E.Appends(v, d, p, now)
    ensures now.bits == d.bits && KeepsFiles(d, now, p.f) && (forall g :: Named(now, g) <==> Named(d, g))
    ensures forall cs :: Maps(d, p.f, cs) ==> Maps(now, p.f, cs + (p.first + E.Concat(p.chunks)))
    ensures forall c :: Owned(now, c) <==> Owned(d, c) || c in p.first + E.Concat(p.chunks)
    ensures OldDirs(d, now, None) && SameLinks(d, now)
    ensures forall n :: HeaderOf(now, n, p.f) <==> HeaderOf(d, n, p.f) || n in NumsOf(p.ids)
  {
    hide E.Ready, E.Appended, E.Concat, Maps, KeepsFiles, Owned, NumsOf;
    var x := Before(v, d, p, now);
    AppendedBits(v, x, p);
    AppendedKeeps(v, x, p);
    SameAll(v, d, x);
    KeepsFrom(d, x, now, p.f);
    forall g
      ensures Named(now, g) <==> Named(d, g)
    {
      E.AppendedNames(v, x, p, g);
    }
    forall cs | Maps(d, p.f, cs)
      ensures Maps(now, p.f, cs + (p.first + E.Concat(p.chunks)))
    {
      AppendedMaps(v, x, p, cs);
    }
    forall c
      ensures Owned(now, c) <==> Owned(d, c) || c in p.first + E.Concat(p.chunks)
    {
      E.AppendedOwns(v, x, p, c);
      OwnedSame(d, x, c);
    }
  }

  lemma AppendedBits(v: nat, d: Disk, p: E.Plan)
    requires E.Ready(v, d, p)
    ensures var y := E.Appended(d, p);
      && y.bits == d.bits && OldDirs(d, y, None) && SameLinks(d, y)
      && forall n :: HeaderOf(y, n, p.f) <==> HeaderOf(d, n, p.f) || n in NumsOf(p.ids)
  {
    hide Consistent, E.Fresh, E.Appended, E.Total;
    E.AppendedIs(v, d, p);
    var y := E.Appended(d, p);
    forall n
      ensures HeaderOf(y, n, p.f) <==> HeaderOf(d, n, p.f) || n in NumsOf(p.ids)
    {
      if n in NumsOf(p.ids) {
        var k :| 0 <= k < |p.ids| && p.ids[k].num == n;
        assert y.live[p.ids[k].num] == E.ExtHeader(d, p, k);
      }
    }
  }

  lemma KeepsFrom(d: Disk, x: Disk, now: Disk, f: Fid)
    requires SameContents(d, x) && KeepsFiles(x, now, f)
    ensures KeepsFiles(d, now, f)
  {
    hide Maps;
  }

  lemma OwnedSame(d: Disk, now: Disk, c: nat)
    requires now.live == d.live
    ensures Owned(now, c) <==> Owned(d, c)
  {
  }

  lemma AppendsFile(v: nat, d: Disk, p: E.Plan, now: Disk)
    requires E.Appends(v, d, p, now) && Named(d, p.f) && !d.live[p.f.num].dir
    ensures KeepsDirs(v, d, now, p.f.num) && NoMoreListed(v, d, now)
  {
    hide E.Ready, E.Appended, KeepsDirs, Lists;
    var x := Before(v, d, p, now);
    AppendedFile(v, x, p);
    SameAll(v, d, x);
    ListedTrans(v, d, x, now);
    KeepsByHeaders(v, d, x, p.f.num);
    KeepsTrans(v, d, x, now, p.f.num);
  }

  // Clusters taken are accounted for once a file has them.
  lemma SpaceTaken(d: Disk, now: Disk, cs: seq<nat>, bits: seq<bool>)
    requires now.bits == bits && |bits| == |d.bits| && (forall c | 0 <= c < |bits| && c !in cs :: bits[c] == d.bits[c])
    requires forall c :: Owned(d, c) || c in cs ==> Owned(now, c)
    ensures KeepsSpace(d, now)
  {
    hide Owned;
  }

  lemma SpaceLost(d: Disk, now: Disk, cs: seq<nat>, but: set<nat>)
    requires |now.bits| == |d.bits| && (forall c | 0 <= c < |d.bits| && c !in cs :: now.bits[c] == d.bits[c])
    requires (forall c :: Owned(now, c) <==> Owned(d, c)) && Conserved(d, but)
    ensures Conserved(now, but + set c | c in cs)
  {
    hide Owned;
  }

  // ---------------------------------------------------------------------
  // Extending a file
  // ---------------------------------------------------------------------

  datatype Growth = Grown | NoRoom | NoHeaders

  // How the clusters are to be had: a contiguous file stays so.
  function Mode(contiguous: bool, how: Bitmap.How): Bitmap.How {
    if contiguous && !how.Wherever? then Bitmap.Whole else how
  }

  // The cluster after a file's last one.
  function AfterLast(cs: seq<nat>): Bitmap.Option<nat> {
    if cs == [] then Bitmap.None else Bitmap.Some(cs[|cs| - 1] + 1)
  }

  /** Clusters one after another. */
  predicate InOnePiece(cs: seq<nat>) { forall i | 0 <= i < |cs| :: cs[i] == cs[0] + i }

  lemma OnePieceOf(take: seq<Bitmap.Piece>)
    requires |take| == 1
    ensures InOnePiece(ClustersOf(take)) && (ClustersOf(take) != [] ==> ClustersOf(take)[0] == take[0].start)
  {
    assert take[1..] == [];
    var p := take[0];
    assert ClustersOf(take) == seq(p.len, i requires 0 <= i => p.start + i) + [];
  }

  // What a file that is to grow gets, after its clusters cs.
  ghost predicate Suits(bits: seq<bool>, cs: seq<nat>, want: nat, mode: Bitmap.How, take: Option<seq<nat>>) {
    && (take.None? <==> want > 0 && !Bitmap.HasRoom(bits, want, mode, AfterLast(cs)))
    && (take.Some? ==> |take.value| == want && forall c <- take.value :: c < |bits| && bits[c])
    && (take.Some? && mode.Whole? ==>
        InOnePiece(take.value) && (cs != [] && want > 0 ==> take.value[0] == cs[|cs| - 1] + 1))
  }

  // Clusters no header maps, taken; all else is as it was.
  ghost predicate Reserves(d: Disk, now: Disk, take: seq<nat>) {
    && now == d.(bits := now.bits) && |now.bits| == |d.bits| && E.Fresh(now, take)
    && (forall c <- take :: c < |d.bits| && d.bits[c])
    && forall c | 0 <= c < |d.bits| && c !in take :: now.bits[c] == d.bits[c]
  }

  /** The space for it, and the header rewritten where the file is no longer
      contiguous. */
  method Reserve(vol: Volume, f: Fid, want: nat, how: Bitmap.How, contiguous: bool) returns (take: Option<seq<nat>>)
    requires vol.Inv() && Consistent(vol.v, vol.d) && Named(vol.d, f)
    modifies vol
    ensures vol.Inv() && Consistent(vol.v, vol.d) && old(vol.trace) <= vol.trace
    ensures old(vol.Counted()) ==> vol.Counted()
    ensures forall cs :: Maps(old(vol.d), f, cs) ==> Suits(old(vol.d).bits, cs, want, Mode(contiguous, how), take)
    ensures take.None? ==> vol.d == old(vol.d)
    ensures vol.d.live == old(vol.d).live && vol.d.data == old(vol.d).data
    ensures take.Some? ==> |take.value| == want && Reserves(old(vol.d), vol.d, take.value)
  {
    hide Sound, Consistent, Maps, Owned, Bitmap.Chosen, Bitmap.HasRoom, Bitmap.Marked, ClustersOf, R.ClustersOf, Chain,
         Distinct, E.Fresh, InOnePiece, Covered;
    ghost var d0 := vol.d;
    var nums := vol.Headers(f);
    HasMap(vol.d, f, nums);
    var next := AfterLast(R.ClustersOf(vol.d, nums));
    TheMap(d0, f, nums);
    var got := vol.Allocate(want, Mode(contiguous, how), next);
    if got.None? {
      return None;
    }
    take := Some(ClustersOf(got.value));
    if |got.value| == 1 { OnePieceOf(got.value); }
    TakenFresh(vol.v, d0, got.value, want);
    if want == 0 { NoneInOnePiece(take.value); }
    vol.SoundNow();
    ConsistentBits(vol.v, d0, vol.d.bits);
    if contiguous && how.Wherever? && (|got.value| > 1 || got.value == [] || next != Bitmap.Some(got.value[0].start)) {
      if vol.Counted() { CoveredSame(vol.v, vol.hard, vol.d, vol.d); }
      vol.Write(vol.d);
    }
    FreshIf(vol.d, take.value);
  }

  lemma NoneInOnePiece(cs: seq<nat>)
    requires |cs| == 0
    ensures InOnePiece(cs)
  {
  }

  /** extend: clusters are allocated after the file's last one where that is
      asked for, and go to the end of the file.  Where there are no headers for
      them the file stays as it is, and the clusters taken are lost. */
  method Extend(vol: Volume, f: Fid, want: nat, how: Bitmap.How, contiguous: bool, last: F.Seg)
    returns (r: Growth, take: Option<seq<nat>>)
    requires vol.Inv() && Consistent(vol.v, vol.d) && Named(vol.d, f) && LastStands(vol.v, vol.d, f, last)
    modifies vol
    ensures vol.Inv() && Consistent(vol.v, vol.d) && old(vol.trace) <= vol.trace
    ensures old(vol.Counted()) ==> vol.Counted()
    ensures Calm(vol.v, old(vol.d), vol.d)
    ensures (forall g :: Named(vol.d, g) <==> Named(old(vol.d), g)) && KeepsFiles(old(vol.d), vol.d, f)
    ensures SameLinks(old(vol.d), vol.d)
    ensures OldDirs(old(vol.d), vol.d, None)
    ensures !old(vol.d).live[f.num].dir ==> KeepsDirs(vol.v, old(vol.d), vol.d, f.num)
    ensures forall cs :: Maps(old(vol.d), f, cs) ==> Suits(old(vol.d).bits, cs, want, Mode(contiguous, how), take)
    ensures (r.NoRoom? <==> take.None?) && (r.NoRoom? ==> vol.d == old(vol.d))
    ensures r.NoHeaders? <==>
      take.Some? && |Vacancies(old(vol.d), vol.reserved, vol.maxFiles)| < Further(vol.v, last, take.value)
    ensures r.NoHeaders? ==> vol.d.used == old(vol.d).used + Vacancies(old(vol.d), vol.reserved, vol.maxFiles)
    ensures KeepsSpace(old(vol.d), vol.d) <==> !r.NoHeaders?
    ensures r.Grown? ==> forall cs :: Maps(old(vol.d), f, cs) ==> Maps(vol.d, f, cs + take.value)
    ensures r.NoHeaders? ==>
      SameContents(old(vol.d), vol.d) && forall c <- take.value ::
        c < |vol.d.bits| && !vol.d.bits[c] && !Owned(vol.d, c)
    ensures r.NoHeaders? ==> forall but :: Conserved(old(vol.d), but) ==>
      Conserved(vol.d, but + set c | c in take.value)
    ensures !r.Grown? ==> LastStands(vol.v, vol.d, f, last)
    ensures r.Grown? && Addressed(vol.v, take.value) ==> LastStands(vol.v, vol.d, f, NewLast(vol.v, last, take.value))
  {
    hide Addressed, Stands, Sound, Consistent, Maps, KeepsFiles, KeepsDirs, Conserved, Owned, E.Fresh, E.Appends,
         Divided, F.Spread, SameContents, KeepsSpace, Suits, Reserves, SameLinks, Vacancies, OldDirs, Covered, NumsOf,
         Calm;
    ghost var d0 := vol.d;
    NothingSpent(d0);
    take := Reserve(vol, f, want, how, contiguous);
    CalmSame(vol.v, d0, vol.d);
    if take.None? {
      SameAll(vol.v, d0, d0);
      KeepsAll(d0, d0, f);
      KeepsByHeaders(vol.v, d0, d0, f.num);
      NoneNew(d0, None);
      r := NoRoom;
      return;
    }
    ghost var d1 := vol.d;
    ReservesSays(d0, d1, take.value);
    if take.value == [] {
      ExtendNothing(vol.v, d0, d1, f);
      NoneFurther(vol.v, last);
      r := Grown;
      return;
    }
    SameVacancies(d0, d1, vol.reserved, vol.maxFiles);
    var parts := Divided(vol.v, last, take.value);
    DividedSays(vol.v, last, take.value);
    var ok: bool;
    ghost var p: E.Plan;
    ok, p := vol.AppendRuns(f, parts[0], parts[1..]);
    CalmTrans(vol.v, d0, d1, vol.d);
    if ok {
      ExtendDone(vol.v, d0, d1, p, vol.d, take.value);
      if Addressed(vol.v, take.value) { LastStandsAfter(vol.v, d1, p, vol.d, last, take.value); }
      r := Grown;
    } else {
      TakenFree(d0, d1, take.value);
      ExtendFailed(vol.v, d0, d1, vol.d, f, take.value);
      r := NoHeaders;
    }
  }

  // With no clusters to add nothing is written.
  lemma ExtendNothing(v: nat, d: Disk, now: Disk, f: Fid)
    requires now.live == d.live && now.data == d.data && |now.bits| == |d.bits|
    requires forall c | 0 <= c < |d.bits| :: now.bits[c] == d.bits[c]
    ensures KeepsFiles(d, now, f) && KeepsSpace(d, now) && (forall g :: Named(now, g) <==> Named(d, g))
    ensures SameLinks(d, now)
    ensures OldDirs(d, now, None) && KeepsDirs(v, d, now, f.num)
    ensures forall cs :: Maps(d, f, cs) ==> Maps(now, f, cs + [])
  {
    hide Maps, KeepsFiles, KeepsDirs, Owned, SameContents, SameListings, Lists;
    SameAll(v, d, now);
    KeepsAll(d, now, f);
    KeepsByHeaders(v, d, now, f.num);
    OwnedAll(d, now);
    forall cs | Maps(d, f, cs)
      ensures Maps(now, f, cs + [])
    {
      SameFile(d, now, f, cs);
      assert cs + [] == cs;
    }
  }

  lemma SameVacancies(d: Disk, now: Disk, lo: int, hi: int)
    requires now.live == d.live && now.used == d.used
    ensures Vacancies(now, lo, hi) == Vacancies(d, lo, hi)
  {
  }

  lemma NothingSpent(d: Disk)
    ensures KeepsSpace(d, d)
  {
  }

  lemma NoneNew(d: Disk, but: Option<int>)
    ensures OldDirs(d, d, but)
  {
  }

  lemma ReservesSays(d: Disk, now: Disk, take: seq<nat>)
    requires Reserves(d, now, take)
    ensures now.live == d.live && now.data == d.data && now.used == d.used && |now.bits| == |d.bits|
    ensures E.Fresh(now, take)
    ensures forall c | 0 <= c < |d.bits| && c !in take :: now.bits[c] == d.bits[c]
    ensures forall c <- take :: c < |now.bits| && !now.bits[c] && !Owned(now, c)
  {
  }

  lemma TakenFree(d: Disk, now: Disk, take: seq<nat>)
    requires Reserves(d, now, take) && take != []
    ensures take[0] < |d.bits| && d.bits[take[0]]
  {
  }

  lemma TheMap(d: Disk, f: Fid, nums: seq<int>)
    requires Chain(d, f, nums) && R.AllLive(d, nums)
    ensures forall cs :: Maps(d, f, cs) ==> cs == R.ClustersOf(d, nums)
  {
    hide Chain, Maps, R.ClustersOf;
    forall cs | Maps(d, f, cs)
      ensures cs == R.ClustersOf(d, nums)
    {
      MapOf(d, f, nums, cs);
    }
  }

  lemma ExtendDone(v: nat, d0: Disk, d1: Disk, p: E.Plan, now: Disk, take: seq<nat>)
    requires d1.live == d0.live && d1.data == d0.data && |d1.bits| == |d0.bits| && E.Appends(v, d1, p, now)
    requires p.first + E.Concat(p.chunks) == take
    requires forall c | 0 <= c < |d0.bits| && c !in take :: d1.bits[c] == d0.bits[c]
    ensures |now.bits| == |d0.bits| && KeepsFiles(d0, now, p.f) && KeepsSpace(d0, now)
    ensures forall g :: Named(now, g) <==> Named(d0, g)
    ensures forall cs :: Maps(d0, p.f, cs) ==> Maps(now, p.f, cs + take)
    ensures OldDirs(d0, now, None) && SameLinks(d0, now)
    ensures Named(d0, p.f) && !d0.live[p.f.num].dir ==> KeepsDirs(v, d0, now, p.f.num)
  {
    hide Maps, KeepsFiles, KeepsDirs, Conserved, Owned, E.Appends, SameContents, SameListings, Lists, E.Concat;
    SameAll(v, d0, d1);
    AppendsSays(v, d1, p, now);
    if Named(d0, p.f) && !d0.live[p.f.num].dir {
      AppendsFile(v, d1, p, now);
      KeepsByHeaders(v, d0, d1, p.f.num);
      KeepsTrans(v, d0, d1, now, p.f.num);
    }
    KeepsFrom(d0, d1, now, p.f);
    GrownMaps(d0, d1, now, p.f, take);
    OwnedAll(d0, d1);
    SpaceTaken(d0, now, take, d1.bits);
  }

  lemma ExtendFailed(v: nat, d0: Disk, d1: Disk, now: Disk, f: Fid, take: seq<nat>)
    requires d1.live == d0.live && d1.data == d0.data && |d1.bits| == |d0.bits|
    requires now.live == d1.live && now.data == d1.data && now.bits == d1.bits
    requires forall c <- take :: c < |d1.bits| && !d1.bits[c] && !Owned(d1, c)
    requires forall c | 0 <= c < |d0.bits| && c !in take :: d1.bits[c] == d0.bits[c]
    requires take != [] && take[0] < |d0.bits| && d0.bits[take[0]]
    ensures SameLinks(d0, now) && !KeepsSpace(d0, now)
    ensures KeepsFiles(d0, now, f) && SameContents(d0, now) && (forall g :: Named(now, g) <==> Named(d0, g))
    ensures OldDirs(d0, now, None) && KeepsDirs(v, d0, now, f.num)
    ensures forall c <- take :: !Owned(now, c)
    ensures forall but :: Conserved(d0, but) ==> Conserved(now, but + set c | c in take)
  {
    hide Maps, KeepsFiles, KeepsDirs, Conserved, Owned, SameContents, SameListings, Lists;
    SameAll(v, d0, now);
    KeepsAll(d0, now, f);
    KeepsByHeaders(v, d0, now, f.num);
    OwnedAll(d0, now);
    OwnedAll(d1, now);
    forall but | Conserved(d0, but)
      ensures Conserved(now, but + set c | c in take)
    {
      SpaceLost(d0, now, take, but);
    }
    SpaceNotKept(d0, now, take[0]);
  }

  // A cluster that was free is allocated and no file's.
  lemma SpaceNotKept(d: Disk, now: Disk, c: nat)
    requires c < |d.bits| == |now.bits| && d.bits[c] && !now.bits[c] && !Owned(now, c)
    ensures !KeepsSpace(d, now)
  {
    var but := set k | 0 <= k < |d.bits| && !d.bits[k];
    assert Conserved(d, but);
    assert !Conserved(now, but);
  }

  lemma KeepsAll(d: Disk, now: Disk, f: Fid)
    requires SameContents(d, now)
    ensures KeepsFiles(d, now, f)
  {
    hide Maps;
  }

  lemma FreshIf(d: Disk, cs: seq<nat>)
    requires Distinct(cs) && forall c <- cs :: c < |d.bits| && !d.bits[c] && !Owned(d, c)
    ensures E.Fresh(d, cs)
  {
  }

  lemma DividedSays(v: nat, last: F.Seg, cs: seq<nat>)
    requires v > 0
    ensures var parts := Divided(v, last, cs); parts != [] && parts[0] + E.Concat(parts[1..]) == cs
  {
    hide Divided;
    DividedAll(v, last, cs);
  }

  // The runs allocate gives, in blocks.
  function PieceRuns(v: nat, ps: seq<Bitmap.Piece>): seq<F.Run> {
    if ps == [] then [] else [F.Run(Times(ps[0].start, v), Times(ps[0].len, v))] + PieceRuns(v, ps[1..])
  }

  lemma OneCluster(v: nat, c: nat)
    ensures BlocksAt(v, [c]) == F.Span(Times(c, v), v)
  {
    assert Runs(v, [c]) == [F.Run(c * v, v)];
    F.LbnsOne(F.Run(c * v, v));
  }

  lemma NoClusters(v: nat)
    ensures BlocksAt(v, []) == []
  {
  }

  lemma {:induction false} SpanOf(v: nat, s: nat, n: nat)
    ensures F.Span(Times(s, v), Times(n, v)) == BlocksAt(v, seq(n, i requires 0 <= i => s + i))
  {
    hide F.Span, BlocksAt, Times;
    var cs := seq(n, i requires 0 <= i => s + i);
    if n == 0 {
      F.SpanNone(Times(s, v));
      TimesMore(0, 0, v);
      NoClusters(v);
      assert cs == [];
    } else {
      var init := seq(n - 1, i requires 0 <= i => s + i);
      SpanOf(v, s, n - 1);
      assert cs == init + [s + (n - 1)];
      BlocksAtSplit(v, init, [s + (n - 1)]);
      OneCluster(v, s + (n - 1));
      TimesMore(n - 1, 1, v);
      TimesMore(s, n - 1, v);
      F.SpanSplit(Times(s, v), Times(n - 1, v), v);
    }
  }

  lemma {:induction false} PieceBlocks(v: nat, ps: seq<Bitmap.Piece>)
    ensures F.Lbns(PieceRuns(v, ps)) == BlocksAt(v, ClustersOf(ps))
  {
    hide F.Span;
    if ps != [] {
      SpanOf(v, ps[0].start, ps[0].len);
      PieceBlocks(v, ps[1..]);
      BlocksAtSplit(v, seq(ps[0].len, i requires 0 <= i => ps[0].start + i), ClustersOf(ps[1..]));
      assert PieceRuns(v, ps)[1..] == PieceRuns(v, ps[1..]);
    }
  }

  lemma {:induction false} PieceRunsSome(v: nat, ps: seq<Bitmap.Piece>)
    requires v > 0 && forall p <- ps :: p.len > 0
    ensures forall r <- PieceRuns(v, ps) :: r.count > 0
  {
    if ps != [] {
      assert ps[0] in ps && forall p <- ps[1..] :: p in ps;
      PieceRunsSome(v, ps[1..]);
    }
  }

  /** The runs allocated are merged into the same as their clusters one at a time, so the
      division by clusters is the one that append_runs makes. */
  lemma SameRuns(v: nat, ps: seq<Bitmap.Piece>)
    requires v > 0 && forall p <- ps :: p.len > 0
    ensures F.Merged(PieceRuns(v, ps)) == F.Merged(Runs(v, ClustersOf(ps)))
    ensures forall last :: F.Spread(last, PieceRuns(v, ps)) == Shared(v, last, ClustersOf(ps))
  {
    hide F.Merged, F.Lbns, ClustersOf;
    PieceBlocks(v, ps);
    PieceRunsSome(v, ps);
    LbnsAre(v, ClustersOf(ps));
    F.MergedOnly(PieceRuns(v, ps), Runs(v, ClustersOf(ps)));
  }

  lemma NoneFurther(v: nat, last: F.Seg)
    ensures Further(v, last, []) == 0 && NewLast(v, last, []) == last
  {
  }

  /** The pointers are those of the file's last header. */
  predicate LastStands(v: nat, d: Disk, f: Fid, last: F.Seg) {
    forall n <- d.live | d.live[n].file == f && d.live[n].ext.None? :: Stands(v, last, d.live[n].at)
  }

  // The clusters have addresses, and no pointer ends inside one.
  predicate Addressed(v: nat, cs: seq<nat>)
    requires v > 0
  {
    Whole(v, |cs|) && forall c <- cs :: (c + 1) * v <= 0x1_0000_0000
  }

  /** The pointers written are those of the header that is now the last. */
  lemma LastStandsAfter(v: nat, d: Disk, p: E.Plan, now: Disk, last: F.Seg, cs: seq<nat>)
    requires v > 0 && E.Appends(v, d, p, now) && LastStands(v, d, p.f, last) && Addressed(v, cs)
    requires var parts := Divided(v, last, cs); p.first == parts[0] && p.chunks == parts[1..]
    requires forall n <- d.live | d.live[n].file == p.f && d.live[n].ext.None? :: n == p.last
    ensures LastStands(v, now, p.f, NewLast(v, last, cs))
  {
    hide E.Ready, E.Appended, Divided, F.Spread, Stands, Addressed, E.Total;
    var x := Before(v, d, p, now);
    LastIs(v, x, p, now);
    PartsStand(v, d.live[p.last].at, last, cs);
    var s, parts := Shared(v, last, cs), Divided(v, last, cs);
    forall n <- now.live | now.live[n].file == p.f && now.live[n].ext.None?
      ensures Stands(v, NewLast(v, last, cs), now.live[n].at)
    {
      if p.chunks != [] {
        assert p.chunks[|p.chunks| - 1] == parts[|s.chunks|];
      }
    }
  }

  lemma PartsStand(v: nat, at: seq<nat>, last: F.Seg, cs: seq<nat>)
    requires v > 0 && Stands(v, last, at) && Addressed(v, cs)
    ensures var s, parts := Shared(v, last, cs), Divided(v, last, cs);
      && Stands(v, F.Seg(s.kept, last.cap), at + parts[0])
      && forall j | 0 <= j < |s.chunks| :: Stands(v, F.Seg(s.chunks[j], F.EXT_CAP), parts[j + 1])
  {
    hide F.Spread, Stands, Divided;
    StandsAfter(v, last, at, cs);
  }

  // The header without a link is then the one written last.
  lemma LastIs(v: nat, d: Disk, p: E.Plan, now: Disk)
    requires E.Ready(v, d, p) && now == E.Appended(d, p)
    requires forall n <- d.live | d.live[n].file == p.f && d.live[n].ext.None? :: n == p.last
    ensures p.last in d.live && d.live[p.last].file == p.f && d.live[p.last].ext.None? && |p.ids| == |p.chunks|
    ensures forall n <- now.live | now.live[n].file == p.f && now.live[n].ext.None? ::
      now.live[n].at == if p.chunks == [] then d.live[p.last].at + p.first else p.chunks[|p.chunks| - 1]
  {
    hide Consistent, E.Fresh, E.Appended, E.Total;
    E.AppendedIs(v, d, p);
    forall n <- now.live | now.live[n].file == p.f && now.live[n].ext.None?
      ensures now.live[n].at == if p.chunks == [] then d.live[p.last].at + p.first else p.chunks[|p.chunks| - 1]
    {
      if n !in d.live {
        var k :| 0 <= k < |p.ids| && p.ids[k].num == n;
        assert E.ExtHeader(d, p, k).ext == E.LinkAt(p, k + 1);
      }
    }
  }

  lemma GrownMaps(d0: Disk, d1: Disk, now: Disk, f: Fid, take: seq<nat>)
    requires SameContents(d0, d1) && forall cs :: Maps(d1, f, cs) ==> Maps(now, f, cs + take)
    ensures forall cs :: Maps(d0, f, cs) ==> Maps(now, f, cs + take)
  {
    hide Maps;
  }

  lemma OwnedAll(d: Disk, now: Disk)
    requires now.live == d.live
    ensures forall c :: Owned(now, c) <==> Owned(d, c)
  {
  }

  // ---------------------------------------------------------------------
  // A new file
  // ---------------------------------------------------------------------

  datatype Making = MadeFile(fid: Fid) | NoNumber | NoSpaceLeft | NoMoreHeaders

  // The number goes back.
  method Forget(vol: Volume, f: Fid, ghost d0: Disk)
    requires vol.Inv() && Consistent(vol.v, vol.d) && f.num !in vol.d.live
    requires vol.d.live == d0.live && vol.d.data == d0.data && vol.d.bits == d0.bits && vol.d.used == d0.used + {f.num}
    requires f.num !in d0.used
    modifies vol
    ensures vol.Inv() && old(vol.trace) <= vol.trace && (old(vol.Counted()) ==> vol.Counted())
    ensures Undone(vol.v, d0, vol.d, {}) && OldDirs(d0, vol.d, None)
  {
    hide Sound, Consistent, Maps, SameContents, SameListings, Lists, Conserved, Covered;
    ghost var d := vol.d;
    NumbersSay(vol.v, d);
    ConsistentIndex(vol.v, d, d.used - {f.num}, d.dead, d.indexEof);
    vol.PutIndexBit(f.num, false);
    SameAll(vol.v, d0, vol.d);
    forall but | Conserved(d0, but)
      ensures Conserved(vol.d, but)
    {
      ConservedSame(d0, vol.d, but);
    }
  }

  // A file with no clusters goes, and the clusters meant for it.
  method Unmake(vol: Volume, f: Fid, cs: seq<nat>, erase: bool, ghost d0: Disk, ghost left: set<int>)
    requires vol.Inv() && Adds(vol.v, d0, vol.d, f, []) && Consistent(vol.v, vol.d) && OldDirs(d0, vol.d, None)
    requires vol.d.used == d0.used + {f.num} + left && f.num !in d0.used + left
    requires forall n :: HeaderOf(vol.d, n, f) <==> n == f.num
    requires Distinct(cs) && forall c <- cs :: c < |vol.d.bits| && !vol.d.bits[c] && !Owned(vol.d, c)
    requires |vol.d.bits| == |d0.bits| && (forall c :: Owned(vol.d, c) <==> Owned(d0, c))
    requires forall c | 0 <= c < |d0.bits| && c !in cs :: vol.d.bits[c] == d0.bits[c]
    modifies vol
    ensures vol.Inv() && old(vol.trace) <= vol.trace && (old(vol.Counted()) ==> vol.Counted())
    ensures Undone(vol.v, d0, vol.d, left) && OldDirs(d0, vol.d, None)
  {
    hide Sound, Consistent, Maps, KeepsFiles, Conserved, Owned, Distinct, SameContents, SameListings, Lists, Unlisted,
         KeepsDirs, Freed, SameFiles, Adds, Covered, UnlistedElsewhere, HeaderOf;
    AddsSays(vol.v, d0, vol.d, f, []);
    ghost var d := vol.d;
    vol.DeleteFile(f, erase);
    ghost var d1 := vol.d;
    AddsDeleted(vol.v, d0, d, d1, f, []);
    OldTrans(d0, d, d1, None);
    vol.Release(cs);
    vol.SoundNow();
    forall n
      ensures n in vol.d.used <==> n in d0.used + left
    {
      assert HeaderOf(d, n, f) <==> n == f.num;
      assert n in d1.used <==> n in d.used && !HeaderOf(d, n, f);
    }
    FilesBits(vol.v, d0, d1, vol.d);
    forall but | Conserved(d0, but)
      ensures Conserved(vol.d, but)
    {
      SpaceLost(d0, d, cs, but);
      SpaceBack(d1, vol.d, cs, but);
    }
  }

  lemma AddsSays(v: nat, d: Disk, now: Disk, f: Fid, cs: seq<nat>)
    requires Adds(v, d, now, f, cs)
    ensures Consistent(v, now) && Named(now, f) && Unlisted(v, now, f) && f.num !in d.live && Maps(now, f, cs)
    ensures forall g :: Named(now, g) <==> Named(d, g) || g == f
    ensures NoMoreListed(v, d, now) && SameLinks(d, now) && SameListings(v, d, now) && SameContents(d, now)
  {
    hide Consistent, Maps, SameContents, SameListings, NoMoreListed, SameLinks, Unlisted;
  }

  lemma AddsDeleted(v: nat, d: Disk, x: Disk, now: Disk, f: Fid, cs: seq<nat>)
    requires Adds(v, d, x, f, cs) && Consistent(v, now) && (forall g :: Named(now, g) <==> Named(x, g) && g != f)
    requires KeepsFiles(x, now, f) && KeepsDirs(v, x, now, f.num)
    requires forall n <- now.live :: n in x.live && now.live[n] == x.live[n]
    ensures SameFiles(v, d, now)
  {
    hide Consistent, Lists, Unlisted, IsDir, DirBlocks, Maps;
    forall m | IsDir(v, d, m)
      ensures IsDir(v, now, m) && DirBlocks(v, now, m) == DirBlocks(v, d, m)
    {
      DirSays(v, d, m);
    }
    forall g, c | Maps(d, g, c)
      ensures Maps(now, g, c)
    {
      MapsNamed(d, g, c);
    }
  }

  lemma FilesBits(v: nat, d: Disk, x: Disk, now: Disk)
    requires SameFiles(v, d, x) && now == x.(bits := now.bits) && Sound(v, now)
    ensures SameFiles(v, d, now)
  {
    hide Sound, Consistent, SameContents, SameListings;
    ConsistentBits(v, x, now.bits);
    SameAll(v, x, now);
    ListingsTrans(v, d, x, now);
    ContentsTrans(d, x, now);
  }

  lemma SpaceBack(d: Disk, now: Disk, cs: seq<nat>, but: set<nat>)
    requires Conserved(d, but + set c | c in cs) && now.live == d.live && now.bits == Freed(d.bits, cs)
    ensures Conserved(now, but)
  {
    forall c | 0 <= c < |now.bits| && !now.bits[c]
      ensures Owned(now, c) || c in but
    {
      assert Owned(d, c) ==> Owned(now, c);
    }
  }

  lemma NothingDone(v: nat, d: Disk)
    requires Consistent(v, d)
    ensures Undone(v, d, d, {})
  {
    hide Consistent, Conserved;
    SameAll(v, d, d);
  }

  lemma EmptyFile(v: nat, d: Disk, f: Fid, back: Fid, links: U16)
    requires Consistent(v, d) && Vacant(d, f)
    ensures MayAdd(v, d, f, First(f, [], false, 0, back, links))
    ensures Sound(v, d.(live := d.live[f.num := First(f, [], false, 0, back, links)]))
  {
    hide Consistent, Sound;
    AddedSound(v, d, f, First(f, [], false, 0, back, links));
  }

  lemma EmptyFresh(d: Disk, now: Disk, f: Fid, cs: seq<nat>, back: Fid, links: U16)
    requires f.num !in d.live && now == Added(d, f, First(f, [], false, 0, back, links))
    requires Distinct(cs) && forall c <- cs :: c < |d.bits| && !d.bits[c] && !Owned(d, c)
    ensures E.Fresh(now, cs) && Named(now, f) && !now.live[f.num].dir && forall c :: Owned(now, c) <==> Owned(d, c)
  {
    forall c
      ensures Owned(now, c) <==> Owned(d, c)
    {
      AddedOwns(d, f, First(f, [], false, 0, back, links), c);
    }
  }

  lemma ListsNamed(v: nat, d: Disk, m: int, r: Rec)
    requires Sound(v, d) && Lists(v, d, m, r)
    ensures forall e <- r.entries :: Named(d, e.fid)
  {
    hide Vbn, Links, Held, Disjoint;
    var i: nat, j: nat :| Uses(v, d, m, i, j) && r in BlockAt(d, m, i, j).recs;
    assert Good(d, BlockAt(d, m, i, j));
  }

  lemma NewlyUnlisted(v: nat, d: Disk, now: Disk, f: Fid)
    requires Sound(v, d) && !Named(d, f) && NoMoreListed(v, d, now)
    ensures Unlisted(v, now, f)
  {
    hide Sound, Lists;
    forall m, r | Lists(v, now, m, r)
      ensures !NamesFile(r, f)
    {
      ListsNamed(v, d, m, r);
    }
    UnlistedIf(v, now, f);
  }

  /** The header alone makes a file. */
  lemma FirstAdds(v: nat, d: Disk, f: Fid, h: Header)
    requires MayAdd(v, d, f, h) && Sound(v, Added(d, f, h))
    ensures Adds(v, d, Added(d, f, h), f, h.at)
  {
    hide Sound, Lists, KeepsDirs, Unlisted, SameListings, SameContents, Maps, E.Fresh, Numbered, Ended, OneLink;
    var now := Added(d, f, h);
    AddedConsistent(v, d, f, h);
    AddedKeeps(v, d, f, h);
    NewlyUnlisted(v, d, now, f);
    FirstMaps(now, f);
    ListingsIf(v, d, now, f.num);
    AllKept(d, now);
    AddsIf(v, d, now, f, h.at);
  }

  lemma AllKept(d: Disk, now: Disk)
    requires forall n | n in d.live :: n in now.live && now.live[n] == d.live[n]
    ensures SameContents(d, now)
  {
    hide Maps;
    forall g, cs | Maps(d, g, cs)
      ensures Maps(now, g, cs)
    {
      SameFile(d, now, g, cs);
    }
  }

  lemma AddsFrom(v: nat, d: Disk, x: Disk, now: Disk, f: Fid, cs: seq<nat>)
    requires x.live == d.live && x.data == d.data && Adds(v, x, now, f, cs)
    ensures Adds(v, d, now, f, cs)
  {
    hide Consistent, Lists, Unlisted, SameListings, SameContents, Maps, NoMoreListed;
    SameAll(v, d, x);
    ListingsTrans(v, d, x, now);
    ContentsTrans(d, x, now);
    ListedTrans(v, d, x, now);
  }

  lemma AddsSame(v: nat, d: Disk, x: Disk, now: Disk, f: Fid, cs: seq<nat>)
    requires Adds(v, d, x, f, cs) && now.live == x.live && now.data == x.data && Consistent(v, now)
    ensures Adds(v, d, now, f, cs)
  {
    hide Consistent, Lists, Unlisted, SameListings, SameContents, Maps, NoMoreListed;
    SameAll(v, x, now);
    ListingsTrans(v, d, x, now);
    ContentsTrans(d, x, now);
    ListedTrans(v, d, x, now);
    SameFile(x, now, f, cs);
    R.StillUnlisted(v, x, now, f);
  }

  lemma AddsAppend(v: nat, d: Disk, x: Disk, p: E.Plan, now: Disk, cs: seq<nat>)
    requires Adds(v, d, x, p.f, []) && E.Appends(v, x, p, now) && Consistent(v, now) && !x.live[p.f.num].dir
    requires Sound(v, d) && p.first + E.Concat(p.chunks) == cs
    ensures Adds(v, d, now, p.f, cs)
  {
    hide Sound, Consistent, Lists, Unlisted, Maps, KeepsDirs, KeepsFiles, E.Appends, E.Concat, Adds, SameListings,
         SameContents, NoMoreListed, NumsOf;
    AddsSays(v, d, x, p.f, []);
    AppendsSays(v, x, p, now);
    AppendsFile(v, x, p, now);
    ListedTrans(v, d, x, now);
    LinksTrans(v, d, x, now, p.f);
    assert [] + cs == cs;
    NewlyUnlisted(v, d, now, p.f);
    StillThere(v, d, x, now, p.f);
    AddsIf(v, d, now, p.f, cs);
  }

  lemma AddsIf(v: nat, d: Disk, now: Disk, f: Fid, cs: seq<nat>)
    requires Consistent(v, now) && f.num !in d.live && (forall g :: Named(now, g) <==> Named(d, g) || g == f)
    requires Maps(now, f, cs) && Unlisted(v, now, f) && SameListings(v, d, now) && SameContents(d, now)
    requires NoMoreListed(v, d, now) && SameLinks(d, now)
    ensures Adds(v, d, now, f, cs)
  {
  }

  lemma LinksTrans(v: nat, d: Disk, x: Disk, now: Disk, f: Fid)
    requires SameLinks(d, x) && SameLinks(x, now) && f.num !in d.live
    requires forall g :: Named(now, g) <==> Named(d, g) || g == f
    requires forall g :: Named(x, g) <==> Named(d, g) || g == f
    ensures SameLinks(d, now)
  {
    forall n | n in now.live && n in d.live && now.live[n].seg == 0
      ensures now.live[n].links == d.live[n].links && now.live[n].back == d.live[n].back
    {
      assert Named(now, Fid(n, now.live[n].seqno));
      assert Named(x, Fid(n, now.live[n].seqno));
    }
  }

  // Where one file changed that was not there before, all of before is there.
  lemma StillThere(v: nat, d: Disk, x: Disk, now: Disk, f: Fid)
    requires SameListings(v, d, x) && SameContents(d, x) && KeepsDirs(v, x, now, f.num) && KeepsFiles(x, now, f)
    requires f.num !in d.live
    ensures SameListings(v, d, now) && SameContents(d, now)
  {
    hide IsDir, DirBlocks, Maps;
    forall m | IsDir(v, d, m)
      ensures IsDir(v, now, m) && DirBlocks(v, now, m) == DirBlocks(v, d, m)
    {
      DirSays(v, d, m);
    }
    forall g, c | Maps(d, g, c)
      ensures Maps(now, g, c)
    {
      MapsNamed(d, g, c);
    }
  }

  /** A vacant number, lower than the others of the set. */
  ghost predicate Lowest(vacant: set<int>, n: int) { n in vacant && forall m <- vacant :: n <= m }

  /** The headers and clusters of a new file, before it is in a directory.  It
      fails where there is no number for it, no space, or no numbers for the
      further headers its map needs.  Then the numbers there were for those
      stay marked, and else nothing is left of it. */
  method MakeFile(vol: Volume, want: nat, how: Bitmap.How, room: nat, erase: Fid -> bool, back: Fid)
    returns (r: Making, ghost take: seq<nat>, ghost left: set<int>)
    requires vol.Inv() && Consistent(vol.v, vol.d)
    modifies vol
    ensures vol.Inv() && old(vol.trace) <= vol.trace && OldDirs(old(vol.d), vol.d, None)
    ensures old(vol.Counted()) ==> vol.Counted()
    ensures !r.MadeFile? ==> Undone(vol.v, old(vol.d), vol.d, left)
    ensures r.MadeFile? ==>
      Made(vol.v, old(vol.d), vol.d, r.fid, take) && |take| == want && (how.Whole? ==> InOnePiece(take))
    ensures r.MadeFile? ==> r.fid.num > vol.reserved && var h := vol.d.live[r.fid.num];
      !h.dir && h.back == back && h.links == if vol.hard then 1 else 0
    ensures var vacant := Vacancies(old(vol.d), vol.reserved, vol.maxFiles);
      && (r.NoNumber? <==> vacant == {})
      && (r.NoSpaceLeft? <==> vacant != {} && want > 0 && !Bitmap.HasRoom(old(vol.d).bits, want, how, Bitmap.None))
      && (r.NoNumber? || r.NoSpaceLeft? ==> take == []) && (r.NoMoreHeaders? ==> want > 0)
      && (take != [] ==> |take| == want && forall c <- take :: c < |old(vol.d).bits| && old(vol.d).bits[c])
      && (r.NoMoreHeaders? <==> take != [] && |vacant| < HeadersFor(vol.v, room, take))
      && (r.NoMoreHeaders? ==> exists n :: Lowest(vacant, n) && left == vacant - {n})
      && (!r.NoMoreHeaders? ==> left == {})
    ensures r.MadeFile? && Addressed(vol.v, take) ==>
      LastStands(vol.v, vol.d, r.fid, NewLast(vol.v, F.Seg([], room), take))
  {
    hide Addressed, LastStands, Sound, Consistent, Maps, KeepsFiles, Conserved, Owned, Bitmap.Chosen, Bitmap.HasRoom,
         Bitmap.Marked, E.Fresh, E.Appends, ClustersOf, Distinct, F.Spread, SameContents, KeepsSpace, SameListings,
         Lists, Unlisted, KeepsDirs, Undone, Adds, Vacancies, Vacancy, Covered, NoMoreListed, SameLinks, OldDirs,
         Marks, Minus, Beside, Further, Lowest;
    take, left := [], {};
    ghost var d0 := vol.d;
    NothingDone(vol.v, d0);
    NoneNew(d0, None);
    var id := vol.AllocHeader();
    if id.None? {
      r := NoNumber;
      return;
    }
    var f := id.value;
    ghost var d1 := vol.d;
    LowestIs(d0, vol.reserved, vol.maxFiles, f.num);
    var got := vol.Allocate(want, how, Bitmap.None);
    if got.None? {
      Forget(vol, f, d0);
      r := NoSpaceLeft;
      return;
    }
    var cs := ClustersOf(got.value);
    take := cs;
    if |got.value| == 1 { OnePieceOf(got.value); }
    TakenFresh(vol.v, d1, got.value, want);
    vol.SoundNow();
    ConsistentBits(vol.v, d1, vol.d.bits);
    ghost var d2 := vol.d;
    var links: U16 := if vol.hard then 1 else 0;
    EmptyFile(vol.v, d2, f, back, links);
    vol.PutHeader(f.num, First(f, [], false, 0, back, links));
    ghost var d3 := vol.d;
    FirstAdds(vol.v, d2, f, First(f, [], false, 0, back, links));
    if old(vol.Counted()) { AddsCovered(vol.v, vol.hard, d2, d3, f, []); }
    AddsFrom(vol.v, d0, d2, d3, f, []);
    AddsSays(vol.v, d0, d3, f, []);
    EmptyFresh(d2, d3, f, cs, back, links);
    OnlyHeader(vol.v, d0, d3, f);
    NotDirYet(d0, d3, f);
    OwnedAll(d0, d2);
    VacantStill(d1, d3, vol.reserved, vol.maxFiles);
    BesideNew(d0, d3, f, cs);
    var ok: bool;
    ok, left := Furnish(vol, f, cs, room, erase(f), d0);
    CardLess(Vacancies(d0, vol.reserved, vol.maxFiles), f.num);
    r := if ok then MadeFile(f) else NoMoreHeaders;
  }

  lemma BesideNew(d: Disk, now: Disk, f: Fid, cs: seq<nat>)
    requires f.num !in d.live && f.num in now.live && now.live == d.live[f.num := now.live[f.num]]
    requires |now.bits| == |d.bits| && (forall c <- cs :: c < |d.bits| && !now.bits[c])
    requires forall c | 0 <= c < |d.bits| && c !in cs :: now.bits[c] == d.bits[c]
    ensures Beside(d, now, cs)
  {
    MinusIs(d.bits, now.bits, cs);
  }

  lemma LowestIs(d: Disk, lo: int, hi: int, n: int)
    requires n in Vacancies(d, lo, hi) && forall m | lo < m <= hi && m < n :: !Vacancy(d, m)
    ensures Lowest(Vacancies(d, lo, hi), n)
  {
  }

  lemma CardLess(s: set<int>, n: int)
    requires n in s
    ensures |s - {n}| == |s| - 1
  {
  }

  lemma VacantStill(d: Disk, now: Disk, lo: int, hi: int)
    requires now.used == d.used && (forall n <- now.live :: n in d.live || n in d.used)
    requires forall n <- d.live :: n in now.live
    ensures Vacancies(now, lo, hi) == Vacancies(d, lo, hi)
  {
  }

  lemma OnlyHeader(v: nat, d: Disk, now: Disk, f: Fid)
    requires Consistent(v, d) && f.num !in d.live && f.num in now.live && now.live == d.live[f.num := now.live[f.num]]
    requires now.live[f.num].file == f
    ensures forall n :: HeaderOf(now, n, f) <==> n == f.num
  {
    hide Sound, Numbered, OneLink, Ended;
    NoneOfIt(d, f);
  }

  lemma NotDirYet(d: Disk, now: Disk, f: Fid)
    requires f.num !in d.live && f.num in now.live && now.live == d.live[f.num := now.live[f.num]]
    requires !now.live[f.num].dir
    ensures OldDirs(d, now, None)
  {
  }

  lemma AddsCovered(v: nat, hard: bool, d: Disk, now: Disk, f: Fid, cs: seq<nat>)
    requires Adds(v, d, now, f, cs) && Covered(v, hard, d)
    ensures Covered(v, hard, now)
  {
    hide Consistent, Maps, SameListings, SameContents, Lists, Unlisted, Covered;
    NewCovered(v, hard, d, now, f);
  }

  // The new file gets its clusters, or goes.
  method Furnish(vol: Volume, f: Fid, cs: seq<nat>, room: nat, erase: bool, ghost d0: Disk)
    returns (ok: bool, ghost left: set<int>)
    requires vol.Inv() && Adds(vol.v, d0, vol.d, f, []) && Consistent(vol.v, vol.d) && Sound(vol.v, d0)
    requires Named(vol.d, f) && !vol.d.live[f.num].dir && E.Fresh(vol.d, cs) && OldDirs(d0, vol.d, None)
    requires |vol.d.bits| == |d0.bits| && (forall c :: Owned(vol.d, c) <==> Owned(d0, c))
    requires forall c | 0 <= c < |d0.bits| && c !in cs :: vol.d.bits[c] == d0.bits[c]
    requires Beside(d0, vol.d, cs) && f.num !in d0.live
    requires vol.d.used == d0.used + {f.num} && f.num !in d0.used && forall n :: HeaderOf(vol.d, n, f) <==> n == f.num
    requires vol.d.live[f.num].at == []
    modifies vol
    ensures vol.Inv() && old(vol.trace) <= vol.trace && (old(vol.Counted()) ==> vol.Counted())
    ensures OldDirs(d0, vol.d, None) && if ok then Made(vol.v, d0, vol.d, f, cs) else Undone(vol.v, d0, vol.d, left)
    ensures var vacant := Vacancies(old(vol.d), vol.reserved, vol.maxFiles);
      (ok <==> cs == [] || |vacant| >= Further(vol.v, F.Seg([], room), cs)) && left == if ok then {} else vacant
    ensures ok ==> f.num in vol.d.live && var h, was := vol.d.live[f.num], old(vol.d).live[f.num];
      !h.dir && h.back == was.back && h.links == was.links
    ensures ok && Addressed(vol.v, cs) ==> LastStands(vol.v, vol.d, f, NewLast(vol.v, F.Seg([], room), cs))
  {
    hide Addressed, LastStands, Sound, Consistent, Owned, E.Fresh, E.Appends, Divided, F.Spread, Undone, Adds,
         KeepsSpace, Maps, KeepsFiles, Vacancies, NumsOf, Covered, OldDirs, SameLinks, NoMoreListed, Beside;
    ghost var d := vol.d;
    left := {};
    EmptyStands(vol.v, d, f, room);
    if cs == [] {
      NothingTaken(d0, d);
      NoneFurther(vol.v, F.Seg([], room));
      ok := true;
      return;
    }
    var parts := Divided(vol.v, F.Seg([], room), cs);
    DividedSays(vol.v, F.Seg([], room), cs);
    NotVacant(d, vol.reserved, vol.maxFiles);
    ghost var p: E.Plan;
    ok, p := vol.AppendRuns(f, parts[0], parts[1..]);
    if ok {
      AddsAppend(vol.v, d0, d, p, vol.d, cs);
      AppendsSays(vol.v, d, p, vol.d);
      FirstStays(vol.v, d, p, vol.d);
      BesideAppend(vol.v, d0, d, p, vol.d, cs);
      OldTrans(d0, d, vol.d, None);
      SpaceTaken(d0, vol.d, cs, d.bits);
      if Addressed(vol.v, cs) { LastStandsAfter(vol.v, d, p, vol.d, F.Seg([], room), cs); }
    } else {
      AddsSame(vol.v, d0, d, vol.d, f, []);
      OwnedAll(d, vol.d);
      FreshStays(d, vol.d, cs);
      left := Vacancies(d, vol.reserved, vol.maxFiles);
      OldSame(d0, d, vol.d);
      assert forall n :: HeaderOf(vol.d, n, f) <==> HeaderOf(d, n, f);
      Unmake(vol, f, cs, erase, d0, left);
    }
  }

  lemma EmptyStands(v: nat, d: Disk, f: Fid, room: nat)
    requires f.num in d.live && d.live[f.num].at == [] && forall n :: HeaderOf(d, n, f) <==> n == f.num
    ensures LastStands(v, d, f, F.Seg([], room))
  {
    assert BlocksAt(v, []) == [];
    forall n <- d.live | d.live[n].file == f
      ensures n == f.num
    {
      assert HeaderOf(d, n, f);
    }
  }

  lemma NothingTaken(d: Disk, now: Disk)
    requires |now.bits| == |d.bits| && (forall c :: Owned(now, c) <==> Owned(d, c))
    requires forall c | 0 <= c < |d.bits| :: now.bits[c] == d.bits[c]
    ensures KeepsSpace(d, now)
  {
    hide Owned;
  }

  lemma NotVacant(d: Disk, lo: int, hi: int)
    ensures forall n <- Vacancies(d, lo, hi) :: n !in d.used && n !in d.live
  {
  }

  lemma OldSame(d: Disk, x: Disk, now: Disk)
    requires OldDirs(d, x, None) && now.live == x.live
    ensures OldDirs(d, now, None)
  {
  }

  // The primary header is as it was but for what it maps and its link.
  lemma FirstStays(v: nat, d: Disk, p: E.Plan, now: Disk)
    requires E.Appends(v, d, p, now) && p.f.num in d.live
    ensures p.f.num in now.live && var h, was := now.live[p.f.num], d.live[p.f.num];
      h.dir == was.dir && h.back == was.back && h.links == was.links
  {
    hide E.Ready, E.Appended;
    var x := Before(v, d, p, now);
    AppendedFirstIs(v, x, p);
  }

  // Only the file's own header is written over.
  lemma BesideAppend(v: nat, d0: Disk, d: Disk, p: E.Plan, now: Disk, cs: seq<nat>)
    requires E.Appends(v, d, p, now) && Beside(d0, d, cs) && p.f.num !in d0.live
    requires forall n :: HeaderOf(d, n, p.f) <==> n == p.f.num
    ensures Beside(d0, now, cs)
  {
    hide E.Ready, E.Appended, E.Total, E.ExtHeader, E.LinkAt, Minus;
    var x := Before(v, d, p, now);
    AppendedLast(v, x, p);
    assert HeaderOf(d, p.last, p.f);
  }

  lemma AppendedLast(v: nat, d: Disk, p: E.Plan)
    requires E.Ready(v, d, p)
    ensures var y := E.Appended(d, p);
      && y.bits == d.bits && p.last in d.live && d.live[p.last].file == p.f
      && forall n <- d.live | n != p.last :: n in y.live && y.live[n] == d.live[n]
  {
    hide Consistent, E.Fresh, E.Appended, E.Total, E.ExtHeader;
    E.AppendedIs(v, d, p);
  }

  lemma AppendedFirstIs(v: nat, d: Disk, p: E.Plan)
    requires E.Ready(v, d, p) && p.f.num in d.live
    ensures p.f.num in E.Appended(d, p).live && var h, was := E.Appended(d, p).live[p.f.num], d.live[p.f.num];
      h.dir == was.dir && h.back == was.back && h.links == was.links
  {
    hide Consistent, E.Fresh, E.Appended, E.Total;
    E.AppendedIs(v, d, p);
  }

  lemma FreshStays(d: Disk, now: Disk, cs: seq<nat>)
    requires E.Fresh(d, cs) && now.live == d.live && now.bits == d.bits
    ensures Distinct(cs) && forall c <- cs :: c < |now.bits| && !now.bits[c] && !Owned(now, c)
  {
  }

  // ---------------------------------------------------------------------
  // A new directory
  // ---------------------------------------------------------------------

  /** A block written where no header maps shows nowhere. */
  lemma PutKeeps(v: nat, d: Disk, c: nat, j: nat, b: Block)
    requires !Owned(d, c)
    ensures SameListings(v, d, Put(d, c, j, b)) && SameContents(d, Put(d, c, j, b))
    ensures NoMoreListed(v, d, Put(d, c, j, b)) && SameLinks(d, Put(d, c, j, b))
  {
    hide IsDir, DirBlocks, Lists, Owned;
    var now := Put(d, c, j, b);
    UnownedNowhere(d, c);
    forall m | IsDir(v, d, m)
      ensures IsDir(v, now, m) && DirBlocks(v, now, m) == DirBlocks(v, d, m)
    {
      DirSays(v, d, m);
      BlocksElsewhere(v, d, m, c, j, b);
    }
    AllKept(d, now);
    forall m, r | Lists(v, now, m, r)
      ensures Lists(v, d, m, r) && m in d.live
    {
      PutUnowned(v, d, d, m, c, j, b, r);
      ListsLive(v, now, m, r);
    }
  }

  lemma AddsAfter(v: nat, d: Disk, x: Disk, now: Disk, f: Fid, cs: seq<nat>)
    requires Adds(v, x, now, f, cs) && x.live == d.live && SameListings(v, d, x) && SameContents(d, x)
    requires NoMoreListed(v, d, x)
    ensures Adds(v, d, now, f, cs)
  {
    hide Consistent, Lists, Unlisted, SameListings, SameContents, Maps, NoMoreListed;
    ListingsTrans(v, d, x, now);
    ContentsTrans(d, x, now);
    ListedTrans(v, d, x, now);
  }

  // An empty directory block.
  const EMPTY := Block([], BLOCK)

  lemma EmptyGood(d: Disk)
    ensures Good(d, EMPTY)
  {
  }

  lemma EmptyDir(v: nat, d: Disk, f: Fid, c: nat, back: Fid, links: U16)
    requires v > 0 && Consistent(v, d) && Vacant(d, f) && c < |d.bits| && !d.bits[c] && !Owned(d, c) && (c, 0) in d.data
    requires d.data[(c, 0)] == EMPTY
    ensures var h := First(f, [c], true, 1, back, links); MayAdd(v, d, f, h) && Sound(v, Added(d, f, h))
  {
    hide Consistent, Sound, Owned;
    var h := First(f, [c], true, 1, back, links);
    FreshIf(d, [c]);
    AddedSound(v, d, f, h);
  }

  /** It lists nothing. */
  lemma EmptyLists(v: nat, d: Disk, f: Fid, c: nat, back: Fid, links: U16)
    requires v > 0 && f.num in d.live && d.live[f.num] == First(f, [c], true, 1, back, links) && (c, 0) in d.data
    requires d.data[(c, 0)] == EMPTY
    ensures IsReadable(v, d, f.num) && DirBlocks(v, d, f.num) == [EMPTY] && Flat([EMPTY]) == []
  {
    hide Quot, Rem;
    assert IsDir(v, d, f.num);
    BlockOf(v, d, f.num, 0);
    VbnIs(v, 0, 0);
    assert Used([]) == 0;
    assert DirBlocks(v, d, f.num) == [EMPTY];
    NothingFlat();
    EmptyReadable();
  }

  lemma EmptyReadable()
    ensures Readable([EMPTY]) && forall b <- [EMPTY], r <- b.recs :: |r.name| <= MAX_NAME
  {
    NothingFlat();
    assert Used([]) == 0;
  }

  /** The header and the one cluster of a new directory, before it is in one. */
  method MakeDir(vol: Volume, back: Fid) returns (r: Making, c: nat)
    requires vol.Inv() && Consistent(vol.v, vol.d)
    modifies vol
    ensures vol.Inv() && old(vol.trace) <= vol.trace && (old(vol.Counted()) ==> vol.Counted()) && !r.NoMoreHeaders?
    ensures r.NoNumber? <==> Vacancies(old(vol.d), vol.reserved, vol.maxFiles) == {}
    ensures r.NoSpaceLeft? <==> !r.NoNumber? && !Bitmap.HasRoom(old(vol.d).bits, 1, Bitmap.Whole, Bitmap.None)
    ensures !r.MadeFile? ==> Undone(vol.v, old(vol.d), vol.d, {}) && OldDirs(old(vol.d), vol.d, None)
    ensures r.MadeFile? ==>
      r.fid.num in vol.d.live && vol.d.live[r.fid.num] == First(r.fid, [c], true, 1, back, if vol.hard then 1 else 0)
    ensures r.MadeFile? ==> OldDirs(old(vol.d), vol.d, Some(r.fid.num))
    ensures r.MadeFile? ==> Made(vol.v, old(vol.d), vol.d, r.fid, [c]) && IsReadable(vol.v, vol.d, r.fid.num)
    ensures r.MadeFile? ==> DirBlocks(vol.v, vol.d, r.fid.num) == [EMPTY]
    ensures r.MadeFile? ==> RunFrom(old(vol.d).bits, 1, 0) == Some(c)
  {
    hide Sound, Consistent, Maps, Conserved, Owned, Bitmap.Chosen, Bitmap.HasRoom, Bitmap.Marked, SameContents,
         KeepsSpace, SameListings, Lists, Undone, Adds, IsReadable, MayAdd, Good, DirBlocks, Distinct, Covered,
         NoMoreListed, SameLinks, Vacancies, OldDirs, Vacancy, Minus, RunFrom, Relocated, Span, ClustersOf, Freed,
         Bitmap.AllFree;
    c := 0;
    ghost var d0 := vol.d;
    NothingDone(vol.v, d0);
    NoneNew(d0, None);
    var id := vol.AllocHeader();
    if id.None? {
      r := NoNumber;
      return;
    }
    var f := id.value;
    ghost var d1 := vol.d;
    var got := vol.Allocate(1, Bitmap.Whole, Bitmap.None);
    if got.None? {
      Forget(vol, f, d0);
      r := NoSpaceLeft;
      return;
    }
    c := got.value[0].start;
    TakenOne(vol.v, d1, got.value);
    RunChosen(d1.bits, got, 1, []);
    MinusIs(d0.bits, vol.d.bits, [c]);
    vol.SoundNow();
    ConsistentBits(vol.v, d1, vol.d.bits);
    ghost var d2 := vol.d;
    OwnedAll(d1, d2);
    OwnedAll(d0, d2);
    EmptyGood(d2);
    if vol.Counted() { PutCovered(vol.v, vol.hard, d2, c, 0, EMPTY); }
    vol.PutBlock(c, 0, EMPTY);
    vol.SoundNow();
    ghost var d3 := vol.d;
    ConsistentData(vol.v, d2, d3.data);
    SameAll(vol.v, d0, d2);
    PutKeeps(vol.v, d2, c, 0, EMPTY);
    ListingsTrans(vol.v, d0, d2, d3);
    ContentsTrans(d0, d2, d3);
    ListedTrans(vol.v, d0, d2, d3);
    OwnedAll(d2, d3);
    var links: U16 := if vol.hard then 1 else 0;
    EmptyDir(vol.v, d3, f, c, back, links);
    vol.PutHeader(f.num, First(f, [c], true, 1, back, links));
    FirstAdds(vol.v, d3, f, First(f, [c], true, 1, back, links));
    if old(vol.Counted()) { AddsCovered(vol.v, vol.hard, d3, vol.d, f, [c]); }
    OneMoreDir(d0, vol.d, f);
    FirstMarks(vol.v, d0, vol.d, f);
    AddsAfter(vol.v, d0, d3, vol.d, f, [c]);
    DirSpace(d0, d3, vol.d, f, c, back, links);
    EmptyLists(vol.v, vol.d, f, c, back, links);
    r := MadeFile(f);
  }

  lemma PutCovered(v: nat, hard: bool, d: Disk, c: nat, j: nat, b: Block)
    requires Covered(v, hard, d) && !Owned(d, c)
    ensures Covered(v, hard, Put(d, c, j, b))
  {
    hide Covered, Owned, Still, SameListings;
    StillPut(v, d, d, c, j, b);
    StillCovered(v, hard, d, Put(d, c, j, b));
  }

  lemma OneMoreDir(d: Disk, now: Disk, f: Fid)
    requires f.num in now.live && now.live == d.live[f.num := now.live[f.num]]
    ensures OldDirs(d, now, Some(f.num))
  {
  }

  lemma FirstMarks(v: nat, d: Disk, now: Disk, f: Fid)
    requires Consistent(v, d) && f.num !in d.live && f.num in now.live && now.live == d.live[f.num := now.live[f.num]]
    requires now.live[f.num].file == f
    requires now.used == d.used + {f.num} && f.num !in d.used
    ensures Marks(d, now, f)
  {
    hide Consistent;
    OnlyHeader(v, d, now, f);
  }

  lemma DirSpace(d: Disk, x: Disk, now: Disk, f: Fid, c: nat, back: Fid, links: U16)
    requires x.live == d.live && f.num !in d.live && c < |d.bits| && x.bits == d.bits[c := false]
    requires now == Added(x, f, First(f, [c], true, 1, back, links))
    ensures KeepsSpace(d, now)
  {
    hide Owned;
    forall k
      ensures Owned(d, k) || k in [c] ==> Owned(now, k)
    {
      AddedOwns(x, f, First(f, [c], true, 1, back, links), k);
      OwnedSame(d, x, k);
    }
    SpaceTaken(d, now, [c], x.bits);
  }

  lemma NothingFlat()
    ensures Flat([EMPTY]) == []
  {
    assert [EMPTY][1..] == [];
  }
}
