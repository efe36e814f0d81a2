/** Renaming and moving entries: the new entry is made before the old one goes, the
    back link following it, and the link count covers both while there are both. */
module Renaming {
  import opened Wildcards
  import opened Directory
  import opened Disk
  import opened DirDisk
  import opened DirRoom
  import opened Contents
  import opened LinkCount
  import opened Volume
  import opened Operations
  import opened Tidiness
  import opened Deleting
  import opened Creating
  import N = NameSyntax

  // ---------------------------------------------------------------------
  // Directories below a directory
  // ---------------------------------------------------------------------

  const DIR_TYPE: seq<Char16> := [0x2e, 0x44, 0x49, 0x52]

  /** The name ends in .DIR, as it stands or whatever its case. */
  predicate DirName(name: seq<Char16>) { |name| >= 4 && name[|name| - 4..] == DIR_TYPE }

  predicate DirType(name: seq<Char16>) { |name| >= 4 && Fold(name[|name| - 4..]) == DIR_TYPE }

  // The subdirectories a directory lists by such names, as version 1.
  predicate IsSub(d: Disk, dir: Fid, r: Rec, e: Entry) {
    DirName(r.name) && e.version == 1 && e.fid != dir && Named(d, e.fid) && d.live[e.fid.num].dir
  }

  ghost predicate Sub(v: nat, d: Disk, a: Fid, b: Fid) {
    IsDir(v, d, a.num) && exists r <- Flat(DirBlocks(v, d, a.num)), e <- r.entries :: IsSub(d, a, r, e) && e.fid == b
  }

  /** A way down from a directory. */
  ghost predicate Down(v: nat, d: Disk, path: seq<Fid>) {
    path != [] && forall i | 0 <= i < |path| - 1 :: Sub(v, d, path[i], path[i + 1])
  }

  /** The directory is inner, or has it below it. */
  ghost predicate Reaches(v: nat, d: Disk, dir: Fid, inner: Fid) {
    exists path: seq<Fid> :: Down(v, d, path) && path[0] == dir && path[|path| - 1] == inner
  }

  lemma ReachesOn(v: nat, d: Disk, a: Fid, b: Fid, c: Fid)
    requires Reaches(v, d, a, b) && Sub(v, d, b, c)
    ensures Reaches(v, d, a, c)
  {
    hide Sub;
    var path :| Down(v, d, path) && path[0] == a && path[|path| - 1] == b;
    var more := path + [c];
    forall i | 0 <= i < |more| - 1
      ensures Sub(v, d, more[i], more[i + 1])
    {
      if i < |path| - 1 { assert Sub(v, d, path[i], path[i + 1]); }
    }
    assert Down(v, d, more);
  }

  lemma ReachesSelf(v: nat, d: Disk, a: Fid)
    ensures Reaches(v, d, a, a)
  {
    assert Down(v, d, [a]);
  }

  // What is closed under going down has all that is below.
  lemma {:induction false} Closed(v: nat, d: Disk, seen: set<Fid>, path: seq<Fid>)
    requires Down(v, d, path) && path[0] in seen && forall a <- seen, b | Sub(v, d, a, b) :: b in seen
    ensures path[|path| - 1] in seen
  {
    hide Sub;
    if |path| > 1 {
      var rest := path[1..];
      assert Sub(v, d, path[0], path[1]);
      forall i | 0 <= i < |rest| - 1
        ensures Sub(v, d, rest[i], rest[i + 1])
      {
        assert Sub(v, d, path[i + 1], path[i + 2]);
      }
      Closed(v, d, seen, rest);
    }
  }

  // The subdirectories of one directory, in order.
  method Subs(d: Disk, dir: Fid, recs: seq<Rec>) returns (subs: seq<Fid>)
    ensures forall b :: b in subs <==> exists r <- recs, e <- r.entries :: IsSub(d, dir, r, e) && e.fid == b
  {
    hide IsSub;
    subs := [];
    for i := 0 to |recs|
      invariant forall b :: b in subs <==> exists r <- recs[..i], e <- r.entries :: IsSub(d, dir, r, e) && e.fid == b
    {
      var r, was := recs[i], subs;
      assert recs[..i + 1] == recs[..i] + [r];
      for k := 0 to |r.entries|
        invariant forall b :: b in subs <==> b in was || exists e <- r.entries[..k] :: IsSub(d, dir, r, e) && e.fid == b
      {
        assert r.entries[..k + 1] == r.entries[..k] + [r.entries[k]];
        if IsSub(d, dir, r, r.entries[k]) {
          subs := subs + [r.entries[k].fid];
        }
      }
      assert r.entries[..|r.entries|] == r.entries;
    }
    assert recs[..|recs|] == recs;
  }

  /** contains_dir: the search finds inner exactly when there is a way down.  It ends, as a
      directory is looked into once. */
  method ContainsDir(vol: Volume, dir: Fid, inner: Fid) returns (yes: bool)
    requires vol.Inv() && Tidy(vol.v, vol.reserved, vol.d) && Named(vol.d, dir) && vol.d.live[dir.num].dir
    ensures yes <==> Reaches(vol.v, vol.d, dir, inner)
  {
    hide Tidy, Sub, IsDir, DirBlocks, Flat, Reaches, IsSub, Named;
    var todo, seen := [dir], {};
    ghost var all := Dirs(vol.d);
    DirsHas(vol.d, dir);
    ReachesSelf(vol.v, vol.d, dir);
    while todo != []
      invariant seen <= all && (forall a <- todo :: a in all && Reaches(vol.v, vol.d, dir, a))
      invariant (dir in seen || dir in todo) && inner !in seen
      invariant forall a <- seen, b | Sub(vol.v, vol.d, a, b) :: b in seen || b in todo
      decreases |all - seen|, |todo|
      modifies {}
    {
      var a := todo[|todo| - 1];
      ghost var before := todo;
      todo := todo[..|todo| - 1];
      assert before == todo + [a];
      if a == inner {
        return true;
      }
      if a !in seen {
        DirsSay(vol.d, a);
        HeadsRead(vol.v, vol.reserved, vol.d, a.num);
        var bs := vol.ReadDir(a.num);
        var subs := Subs(vol.d, a, Flat(bs));
        forall b
          ensures b in subs <==> Sub(vol.v, vol.d, a, b)
          ensures b in subs ==> b in all && Reaches(vol.v, vol.d, dir, b)
        {
          SubIs(vol.v, vol.d, a, b);
          if b in subs { ReachesOn(vol.v, vol.d, dir, a, b); }
        }
        CardDown(all, seen, a);
        seen := seen + {a};
        todo := todo + subs;
      }
    }
    if Reaches(vol.v, vol.d, dir, inner) { ReachesIn(vol.v, vol.d, seen, dir, inner); }
    yes := false;
  }

  ghost function Dirs(d: Disk): set<Fid> { set n | n in d.live && HeadsDir(d, n) :: Fid(n, d.live[n].seqno) }

  lemma DirsHas(d: Disk, f: Fid)
    requires Named(d, f) && d.live[f.num].dir
    ensures f in Dirs(d)
  {
    assert f == Fid(f.num, d.live[f.num].seqno);
  }

  lemma DirsSay(d: Disk, f: Fid)
    requires f in Dirs(d)
    ensures HeadsDir(d, f.num)
  {
  }

  lemma SubIs(v: nat, d: Disk, a: Fid, b: Fid)
    requires IsDir(v, d, a.num)
    ensures Sub(v, d, a, b) <==> exists r <- Flat(DirBlocks(v, d, a.num)), e <- r.entries ::
      IsSub(d, a, r, e) && e.fid == b
    ensures Sub(v, d, a, b) ==> b in Dirs(d)
  {
    hide IsDir, DirBlocks, Flat;
    if Sub(v, d, a, b) { DirsHas(d, b); }
  }

  lemma CardDown(all: set<Fid>, seen: set<Fid>, a: Fid)
    requires a in all && a !in seen
    ensures |all - (seen + {a})| < |all - seen|
  {
    assert all - (seen + {a}) == (all - seen) - {a};
  }

  lemma ReachesIn(v: nat, d: Disk, seen: set<Fid>, dir: Fid, inner: Fid)
    requires Reaches(v, d, dir, inner) && dir in seen && forall a <- seen, b | Sub(v, d, a, b) :: b in seen
    ensures inner in seen
  {
    hide Sub;
    var path :| Down(v, d, path) && path[0] == dir && path[|path| - 1] == inner;
    Closed(v, d, seen, path);
  }

  // ---------------------------------------------------------------------
  // A file is never without an entry
  // ---------------------------------------------------------------------

  /** The directory has an entry for the file. */
  ghost predicate Knows(v: nat, d: Disk, n: int, f: Fid) { IsDir(v, d, n) && Mentions(Flat(DirBlocks(v, d, n)), f) }

  /** In every state from the k-th on, one of the directories has an entry for
      the file. */
  ghost predicate NeverLost(v: nat, run: seq<Disk>, k: nat, n: int, m: int, f: Fid) {
    forall i | 0 <= k <= i < |run| :: Knows(v, run[i], n, f) || Knows(v, run[i], m, f)
  }

  lemma KnowsEntry(v: nat, d: Disk, n: int, name: seq<Char16>, e: Entry)
    requires IsDir(v, d, n) && e in Entries(Flat(DirBlocks(v, d, n)), name)
    ensures Knows(v, d, n, e.fid)
  {
    hide IsDir, DirBlocks, Flat, Entries;
    EntriesFrom(Flat(DirBlocks(v, d, n)), name, e);
  }

  lemma KnowsStill(v: nat, d: Disk, x: Disk, n: int, f: Fid)
    requires Knows(v, d, n, f) && SameListings(v, d, x)
    ensures Knows(v, x, n, f)
  {
  }

  // A run that changes the directories in one write, from one that has the
  // entry to one that has.
  lemma AtomicKnows(v: nat, run: seq<Disk>, k: nat, d: Disk, now: Disk, n: int, m: int, f: Fid)
    requires Atomic(v, run, k, d, now) && (Knows(v, d, n, f) || Knows(v, d, m, f))
    requires Knows(v, now, n, f) || Knows(v, now, m, f)
    ensures NeverLost(v, run, k, n, m, f)
  {
    hide SameListings, Knows;
    var w: nat :| Quiet(v, run, k, w, d) && Quiet(v, run, w, |run|, now);
    forall i | 0 <= k <= i < |run|
      ensures Knows(v, run[i], n, f) || Knows(v, run[i], m, f)
    {
      var x := if i < w then d else now;
      assert SameListings(v, x, run[i]);
      if Knows(v, x, n, f) { KnowsStill(v, x, run[i], n, f); } else { KnowsStill(v, x, run[i], m, f); }
    }
  }

  // Runs in turn.
  lemma NeverLostJoin(v: nat, was: seq<Disk>, run: seq<Disk>, k: nat, n: int, m: int, f: Fid)
    requires NeverLost(v, was, k, n, m, f) && was <= run && NeverLost(v, run, |was|, n, m, f) && k <= |was|
    ensures NeverLost(v, run, k, n, m, f)
  {
    hide Knows;
    forall i | 0 <= k <= i < |run|
      ensures Knows(v, run[i], n, f) || Knows(v, run[i], m, f)
    {
      if i < |was| { assert run[i] == was[i]; }
    }
  }

  lemma NeverLostOne(v: nat, was: seq<Disk>, run: seq<Disk>, x: Disk, n: int, m: int, f: Fid)
    requires run == was + [x] && (Knows(v, x, n, f) || Knows(v, x, m, f))
    ensures NeverLost(v, run, |was|, n, m, f)
  {
    hide Knows;
  }

  /** The entry made stays when another is removed. */
  lemma EntryStays(was: seq<Rec>, now: seq<Rec>, name: seq<Char16>, version: int, other: seq<Char16>, e: Entry)
    requires e in Entries(was, other) && Listed(was, now, name, Without(Entries(was, name), version))
    requires Descending(Entries(was, name)) && !(Cmp(other, name) == 0 && e.version == version)
    ensures e in Entries(now, other)
  {
    hide Cmp, Entries, Descending, Sorted;
    if Cmp(other, name) == 0 {
      EntriesAlike(was, other, name);
      EntriesAlike(now, other, name);
      WithoutOrders(Entries(was, name), version);
    }
  }

  // The versions of the name to be removed are still in order.
  lemma StillDescending(was: seq<Rec>, now: seq<Rec>, name: seq<Char16>, e: Entry, other: seq<Char16>)
    requires Listed(was, now, name, Insert(Entries(was, name), e)) && Descending(Entries(was, name))
    requires Descending(Entries(was, other))
    requires !Has(Entries(was, name), e.version)
    ensures Descending(Entries(now, other)) && e in Entries(now, name)
    ensures forall x <- Entries(was, other) :: x in Entries(now, other)
  {
    hide Cmp, Entries, Descending, Sorted;
    InsertOrders(Entries(was, name), e);
    if Cmp(other, name) == 0 {
      EntriesAlike(was, other, name);
      EntriesAlike(now, other, name);
    }
  }

  function RenamedVersion(es: seq<Entry>, asked: Option<int>, dir: bool, version: int): int {
    if dir then 1
    else if asked.Some? then asked.value
    else if es == [] || forall e <- es :: e.version != version then version
    else es[0].version + 1
  }

  /** The directories but two list what they did, and the other files hold what
      they did. */
  ghost predicate BesidesTwo(v: nat, d: Disk, now: Disk, n: int, m: int) {
    && (forall g: Fid, c | g.num != n && g.num != m && Maps(d, g, c) :: Maps(now, g, c))
    && (forall k | k != n && k != m && IsDir(v, d, k) :: IsDir(v, now, k) && DirBlocks(v, now, k) == DirBlocks(v, d, k))
  }

  /** The new entry is made, leaving mid in the old one's directory, and the
      old one is removed from it. */
  ghost predicate Moves(v: nat, d: Disk, now: Disk, n: int, name: seq<Char16>, version: int, m: int, to: seq<Char16>,
                        e: Entry, mid: seq<Rec>) {
    && IsDir(v, d, n) && IsDir(v, d, m) && IsDir(v, now, n) && IsDir(v, now, m)
    && (n != m ==> mid == Flat(DirBlocks(v, d, n)))
    && (var was := Flat(DirBlocks(v, d, m));
        Listed(was, if n == m then mid else Flat(DirBlocks(v, now, m)), to, Insert(Entries(was, to), e)))
    && Listed(mid, Flat(DirBlocks(v, now, n)), name, Without(Entries(mid, name), version))
  }

  /** The old entry's directory once the new one is made, which left x. */
  function Onwards(v: nat, d: Disk, n: int, m: int, x: Layout): Layout
    requires IsDir(v, d, n)
  {
    if n == m then x else LayoutOf(v, d, n).(bits := x.bits)
  }

  /** There is no space to make the new entry. */
  predicate NoPlaceIn(v: nat, d: Disk, m: int, to: seq<Char16>, add: Edit)
    requires IsDir(v, d, m) && |to| <= MAX_NAME
  {
    Updated(v, LayoutOf(v, d, m), to, add).None?
  }

  /** There is, and then none to remove the old one. */
  predicate Strands(v: nat, d: Disk, n: int, name: seq<Char16>, version: int, m: int, to: seq<Char16>, add: Edit)
    requires IsDir(v, d, n) && IsDir(v, d, m) && |name| <= MAX_NAME && |to| <= MAX_NAME
  {
    var x := Updated(v, LayoutOf(v, d, m), to, add);
    x.Some? && Updated(v, Onwards(v, d, n, m, x.value), name, Remove(version)).None?
  }

  lemma OnwardsIs(v: nat, d: Disk, now: Disk, n: int, m: int)
    requires DirOnly(v, d, now, m) && IsDir(v, d, n) && IsDir(v, now, n) && IsDir(v, now, m)
    ensures LayoutOf(v, now, n) == Onwards(v, d, n, m, LayoutOf(v, now, m))
  {
    hide DirBlocks, IsDir, Lists, Consistent, Conserved;
    DirSays(v, d, n);
    if n != m { OtherListing(v, d, now, m, n); }
  }

  // A count or back link written changes no layout.
  lemma LinksLayout(v: nat, d: Disk, f: int, back: Fid, links: U16, n: int)
    requires f in d.live && IsDir(v, d, n)
    ensures IsDir(v, WithLinks(d, f, back, links), n)
    ensures LayoutOf(v, WithLinks(d, f, back, links), n) == LayoutOf(v, d, n)
  {
    hide DirBlocks;
    LinksDir(v, d, f, back, links, n);
  }

  datatype Moving = Moved | Taken | NotEntered | BothEntered

  // ---------------------------------------------------------------------
  // The counts
  // ---------------------------------------------------------------------

  // The other files have the entries, counts and back links they had.
  ghost predicate OthersAlike(v: nat, d: Disk, now: Disk, f: Fid) {
    forall g | Named(now, g) && g != f ::
      && Named(d, g) && Places(v, now, g) == Places(v, d, g)
      && now.live[g.num].links == d.live[g.num].links && now.live[g.num].back == d.live[g.num].back
  }

  lemma AlikeTrans(v: nat, a: Disk, b: Disk, c: Disk, f: Fid)
    requires OthersAlike(v, a, b, f) && OthersAlike(v, b, c, f)
    ensures OthersAlike(v, a, c, f)
  {
    hide Places;
  }

  // So the count covers the entries just when it covers the file's own.
  lemma CoveredOne(v: nat, hard: bool, d: Disk, now: Disk, f: Fid)
    requires OthersAlike(v, d, now, f) && Covered(v, hard, d) && Named(now, f)
    ensures Covered(v, hard, now) <==> |Places(v, now, f)| <= Reckoned(hard, now.live[f.num])
  {
    hide Places;
  }

  lemma AlikeLinks(v: nat, d: Disk, f: Fid, back: Fid, links: U16)
    requires Named(d, f)
    ensures OthersAlike(v, d, WithLinks(d, f.num, back, links), f)
    ensures Places(v, WithLinks(d, f.num, back, links), f) == Places(v, d, f)
  {
    hide Places;
    var now := WithLinks(d, f.num, back, links);
    forall g | Named(now, g)
      ensures Named(d, g) && Places(v, now, g) == Places(v, d, g)
    {
      LinksPlaces(v, d, f.num, back, links, g);
    }
  }

  lemma AlikeAdded(v: nat, res: int, d: Disk, now: Disk, n: int, name: seq<Char16>, version: int, f: Fid)
    requires Tidy(v, res, d) && Tidy(v, res, now) && DirOnly(v, d, now, n) && IsDir(v, d, n) && IsDir(v, now, n)
    requires var was := Flat(DirBlocks(v, d, n));
      Listed(was, Flat(DirBlocks(v, now, n)), name, Insert(Entries(was, name), Entry(version, f)))
      && !Has(Entries(was, name), version)
    requires Descending(Entries(Flat(DirBlocks(v, d, n)), name))
    ensures OthersAlike(v, d, now, f)
    ensures var p := Place(n, Fold(name), version); p !in Places(v, d, f) && Places(v, now, f) == Places(v, d, f) + {p}
  {
    hide Tidy, DirOnly, IsDir, DirBlocks, Flat, Places, Fold, Entries, Descending, Insert, Listed, Has;
    DirOnlyKeeps(v, d, now, n);
    DirOnlyLinks(v, d, now, n);
    AddedPlaces(v, res, d, now, n, name, version, f, f);
    forall g | Named(now, g) && g != f
      ensures Places(v, now, g) == Places(v, d, g)
    {
      AddedPlaces(v, res, d, now, n, name, version, f, g);
    }
  }

  lemma AlikeRemoved(v: nat, res: int, d: Disk, now: Disk, n: int, name: seq<Char16>, version: int, f: Fid)
    requires Tidy(v, res, d) && Tidy(v, res, now) && DirOnly(v, d, now, n) && IsDir(v, d, n) && IsDir(v, now, n)
    requires var was := Flat(DirBlocks(v, d, n));
      Listed(was, Flat(DirBlocks(v, now, n)), name, Without(Entries(was, name), version))
      && Entry(version, f) in Entries(was, name)
    requires Descending(Entries(Flat(DirBlocks(v, d, n)), name))
    ensures OthersAlike(v, d, now, f)
    ensures var p := Place(n, Fold(name), version); p in Places(v, d, f) && Places(v, now, f) == Places(v, d, f) - {p}
  {
    hide Tidy, DirOnly, IsDir, DirBlocks, Flat, Places, Fold, Entries, Descending, Without, Listed;
    DirOnlyKeeps(v, d, now, n);
    DirOnlyLinks(v, d, now, n);
    RemovedPlaces(v, res, d, now, n, name, version, f, f);
    forall g | Named(now, g) && g != f
      ensures Places(v, now, g) == Places(v, d, g)
    {
      RemovedPlaces(v, res, d, now, n, name, version, f, g);
    }
  }

  // ---------------------------------------------------------------------
  // The two updates
  // ---------------------------------------------------------------------

  // What stays besides the two directories, however far it got.
  ghost predicate TwoDirs(v: nat, d: Disk, now: Disk, n: int, m: int, f: Fid) {
    && KeepsSpace(d, now) && (forall g :: Named(now, g) <==> Named(d, g)) && BesidesTwo(v, d, now, n, m)
    && OldDirs(d, now, None)
    && OthersAlike(v, d, now, f)
  }

  lemma TwoDirsSelf(v: nat, d: Disk, n: int, m: int, f: Fid)
    ensures TwoDirs(v, d, d, n, m, f)
  {
    hide Places, Maps, IsDir, DirBlocks, HeadsDir, Conserved;
  }

  lemma TwoDirsTrans(v: nat, a: Disk, b: Disk, c: Disk, n: int, m: int, f: Fid)
    requires TwoDirs(v, a, b, n, m, f) && TwoDirs(v, b, c, n, m, f)
    ensures TwoDirs(v, a, c, n, m, f)
  {
    hide Maps, IsDir, DirBlocks, OthersAlike, Conserved, HeadsDir;
    AlikeTrans(v, a, b, c, f);
    OldTrans(a, b, c, None);
  }

  lemma TwoDirsLinks(v: nat, res: int, d: Disk, n: int, m: int, f: Fid, back: Fid, links: U16)
    requires Named(d, f)
    ensures TwoDirs(v, d, WithLinks(d, f.num, back, links), n, m, f)
  {
    hide Maps, IsDir, DirBlocks, OthersAlike, Conserved, Tidy, WithLinks, HeadsDir;
    LinksKeep(v, res, d, f.num, back, links);
    AlikeLinks(v, d, f, back, links);
  }

  lemma TwoDirsOne(v: nat, d: Disk, now: Disk, k: int, n: int, m: int, f: Fid)
    requires DirOnly(v, d, now, k) && IsDir(v, d, k) && (k == n || k == m) && OthersAlike(v, d, now, f)
    ensures TwoDirs(v, d, now, n, m, f)
  {
    hide Maps, IsDir, DirBlocks, OthersAlike, Conserved, DirOnly, HeadsDir;
    DirOnlyKeeps(v, d, now, k);
    DirOnlyFiles(v, d, now, k);
    OnlySpace(v, d, now, k);
    OnlyOld(v, d, now, k);
  }

  /** What the header's back link is to be. */
  function NewBack(d: Disk, n: int, m: int, h: Header): Fid
    requires n in d.live && m in d.live
  {
    if h.back == Fid(n, d.live[n].seqno) then Fid(m, d.live[m].seqno) else h.back
  }

  // A header's count and back link, written over what it has.
  method PutLinks(vol: Volume, f: Fid, h: Header)
    requires vol.Inv() && Tidy(vol.v, vol.reserved, vol.d) && Named(vol.d, f)
    requires h == vol.d.live[f.num].(back := h.back, links := h.links)
    modifies vol
    ensures vol.Inv() && Tidy(vol.v, vol.reserved, vol.d) && vol.d == WithLinks(old(vol.d), f.num, h.back, h.links)
    ensures vol.trace == old(vol.trace) + [vol.d] && SameListings(vol.v, old(vol.d), vol.d)
    ensures old(vol.Counted()) && Covered(vol.v, vol.hard, vol.d) ==> vol.Counted()
  {
    hide Sound, Consistent, Orderly, Covered, SameListings, SameContents, KeepsSpace, OldDirs;
    LinksKeep(vol.v, vol.reserved, vol.d, f.num, h.back, h.links);
    SoundOf(vol.v, WithLinks(vol.d, f.num, h.back, h.links));
    vol.PutHeader(f.num, h);
  }

  // The state between the two updates.
  ghost predicate Halfway(v: nat, res: int, d: Disk, x: Disk, n: int, name: seq<Char16>, version: int, m: int,
                          to: seq<Char16>, e: Entry) {
    && Tidy(v, res, x) && HeadsDir(x, n) && HeadsDir(x, m) && IsDir(v, x, n) && IsDir(v, x, m)
    && TwoDirs(v, d, x, n, m, e.fid)
    && IsDir(v, d, n) && IsDir(v, d, m) && (n != m ==> DirBlocks(v, x, n) == DirBlocks(v, d, n))
    && Entry(version, e.fid) in Entries(Flat(DirBlocks(v, x, n)), name) && e in Entries(Flat(DirBlocks(v, x, m)), to)
    && (var was := Flat(DirBlocks(v, d, m)); Listed(was, Flat(DirBlocks(v, x, m)), to, Insert(Entries(was, to), e)))
    && Place(m, Fold(to), e.version) !in Places(v, d, e.fid)
    && Places(v, x, e.fid) == Places(v, d, e.fid) + {Place(m, Fold(to), e.version)}
    && Knows(v, d, n, e.fid) && Knows(v, x, n, e.fid) && Knows(v, x, m, e.fid)
  }

  lemma HalfwayIf(v: nat, res: int, d: Disk, x: Disk, n: int, name: seq<Char16>, version: int, m: int, to: seq<Char16>,
                  e: Entry)
    requires Tidy(v, res, d) && HeadsDir(d, n) && HeadsDir(d, m) && DirOnly(v, d, x, m) && IsReadable(v, x, m)
    requires e.fid.num != m
    requires IsDir(v, d, n) && IsDir(v, d, m) && Entry(version, e.fid) in Entries(Flat(DirBlocks(v, d, n)), name)
    requires var was := Flat(DirBlocks(v, d, m));
      Listed(was, Flat(DirBlocks(v, x, m)), to, Insert(Entries(was, to), e)) && !Has(Entries(was, to), e.version)
    ensures Halfway(v, res, d, x, n, name, version, m, to, e)
  {
    hide Consistent, Orderly, IsDir, DirBlocks, DirOnly, Flat, Entries, Descending, Listed, Insert, Readable, Knows,
         TwoDirs, Places, Fold, OldDirs, Has, Neat;
    TidySays(v, res, d, n, name);
    TidySays(v, res, d, m, to);
    DirOf(v, x, m);
    TidyEdit(v, res, d, x, m, to, Add(e.version, e.fid, 0, 0));
    StillDescending(Flat(DirBlocks(v, d, m)), Flat(DirBlocks(v, x, m)), to, e, if n == m then name else to);
    if n != m { OtherListing(v, d, x, m, n); }
    DirHeads(v, x, n);
    AlikeAdded(v, res, d, x, m, to, e.version, e.fid);
    TwoDirsOne(v, d, x, m, n, m, e.fid);
    KnowsEntry(v, d, n, name, Entry(version, e.fid));
    KnowsEntry(v, x, n, name, Entry(version, e.fid));
    KnowsEntry(v, x, m, to, e);
  }

  // The header's write between them changes none of it.
  lemma HalfwayLinks(v: nat, res: int, d: Disk, x: Disk, n: int, name: seq<Char16>, version: int, m: int,
                     to: seq<Char16>, e: Entry, back: Fid, links: U16)
    requires Halfway(v, res, d, x, n, name, version, m, to, e) && Named(x, e.fid)
    ensures Halfway(v, res, d, WithLinks(x, e.fid.num, back, links), n, name, version, m, to, e)
  {
    hide Tidy, IsDir, DirBlocks, Flat, Entries, Listed, Insert, TwoDirs, Places, Fold, SameListings, SameContents,
         KeepsSpace, OldDirs, Mentions, HeadsDir, WithLinks;
    LinksKeep(v, res, x, e.fid.num, back, links);
    LinksDir(v, x, e.fid.num, back, links, n);
    LinksDir(v, x, e.fid.num, back, links, m);
    DirHeads(v, WithLinks(x, e.fid.num, back, links), n);
    DirHeads(v, WithLinks(x, e.fid.num, back, links), m);
    LinksPlaces(v, x, e.fid.num, back, links, e.fid);
    TwoDirsLinks(v, res, x, n, m, e.fid, back, links);
    TwoDirsTrans(v, d, x, WithLinks(x, e.fid.num, back, links), n, m, e.fid);
  }

  // And once the old one has gone.
  lemma WholeWay(v: nat, res: int, d: Disk, x: Disk, now: Disk, n: int, name: seq<Char16>, version: int, m: int,
                 to: seq<Char16>, e: Entry)
    requires Halfway(v, res, d, x, n, name, version, m, to, e) && DirOnly(v, x, now, n) && IsReadable(v, now, n)
    requires !(n == m && Cmp(to, name) == 0 && e.version == version)
    requires IsDir(v, x, n)
    requires var was := Flat(DirBlocks(v, x, n));
      Listed(was, Flat(DirBlocks(v, now, n)), name, Without(Entries(was, name), version))
    ensures Tidy(v, res, now) && IsDir(v, now, n) && IsDir(v, now, m) && TwoDirs(v, d, now, n, m, e.fid)
    ensures Knows(v, now, m, e.fid)
    ensures Moves(v, d, now, n, name, version, m, to, e, Flat(DirBlocks(v, x, n)))
    ensures var p, q := Place(n, Fold(name), version), Place(m, Fold(to), e.version);
      q !in Places(v, d, e.fid) && p in Places(v, d, e.fid) && Places(v, now, e.fid) == Places(v, d, e.fid) + {q} - {p}
  {
    hide Consistent, Orderly, IsDir, DirBlocks, DirOnly, Flat, Entries, Descending, Listed, Insert, Without, Readable,
         TwoDirs, Places, Fold, Cmp, OldDirs, HeadsDir, Mentions, Neat;
    TidySays(v, res, x, n, name);
    DirOf(v, now, n);
    TidyEdit(v, res, x, now, n, name, Remove(version));
    MoveWhole(v, x, now, n, name, version, m, to, e);
    AlikeRemoved(v, res, x, now, n, name, version, e.fid);
    TwoDirsOne(v, x, now, n, n, m, e.fid);
    TwoDirsTrans(v, d, x, now, n, m, e.fid);
    PlacesDiffer(n, name, version, m, to, e.version);
  }

  // The blocks are the same, before or after.
  lemma LedSame(v: nat, d: Disk, d': Disk, x: Disk, x': Disk, m: int, to: seq<Char16>, add: Edit)
    requires LedIn(v, d, x, m, to, add) && IsDir(v, d', m) && IsDir(v, x', m)
    requires IsDir(v, d, m) && IsDir(v, x, m)
    requires DirBlocks(v, d', m) == DirBlocks(v, d, m) && DirBlocks(v, x', m) == DirBlocks(v, x, m)
    ensures LedIn(v, d', x', m, to, add)
  {
    hide IsDir, DirBlocks, Flat, Led;
  }

  // The name entered keeps its first record when the old entry goes.
  lemma LedOut(v: nat, res: int, d: Disk, x: Disk, now: Disk, n: int, name: seq<Char16>, version: int, m: int,
               to: seq<Char16>, e: Entry, add: Edit)
    requires Halfway(v, res, d, x, n, name, version, m, to, e) && DirOnly(v, x, now, n) && LedIn(v, d, x, m, to, add)
    requires !(n == m && Cmp(to, name) == 0 && e.version == version) && IsDir(v, now, n) && IsDir(v, now, m)
    requires IsDir(v, x, n) && Descending(Entries(Flat(DirBlocks(v, x, n)), name))
    requires var was := Flat(DirBlocks(v, x, n));
      Listed(was, Flat(DirBlocks(v, now, n)), name, Without(Entries(was, name), version))
    ensures LedIn(v, d, now, m, to, add)
  {
    hide Consistent, IsDir, DirBlocks, DirOnly, Flat, Entries, Descending, Insert, Without, TwoDirs, Places, Fold, Cmp,
         Led, Knows, Tidy, HeadsDir, Sorted, Others, Leads;
    if n != m {
      OtherListing(v, x, now, n, m);
    } else {
      var was, mid, all := Flat(DirBlocks(v, d, m)), Flat(DirBlocks(v, x, m)), Flat(DirBlocks(v, now, m));
      if Cmp(to, name) != 0 {
        LedBeside(was, mid, all, to, add, name);
      } else {
        EntriesAlike(mid, to, name);
        WithoutOrders(Entries(mid, name), version);
        LedWritten(was, mid, all, to, add, name, Without(Entries(mid, name), version), e);
      }
    }
  }

  // The same name, written otherwise.
  lemma LedWritten(was: seq<Rec>, mid: seq<Rec>, now: seq<Rec>, to: seq<Char16>, add: Edit, name: seq<Char16>,
                  es: seq<Entry>, e: Entry)
    requires Led(was, mid, to, add) && Listed(mid, now, name, es) && Cmp(to, name) == 0 && e in es
    ensures Led(was, now, to, add)
  {
    hide Cmp, Entries, Destined, Leads, Sorted, Others;
    forall st | Destined(was, to, add, st)
      ensures Leads(now, to, st)
    {
      LeadsAlike(mid, to, name, st);
      LeadsAlike(now, to, name, st);
    }
  }

  lemma LeadsAlike(recs: seq<Rec>, to: seq<Char16>, name: seq<Char16>, st: Style)
    requires Cmp(to, name) == 0
    ensures Leads(recs, to, st) <==> Leads(recs, name, st)
  {
    hide Cmp;
    forall r: Rec
      ensures Cmp(r.name, to) == 0 <==> Cmp(r.name, name) == 0
    {
      CmpTrans(to, name, r.name);
      CmpAnti(r.name, to);
      CmpAnti(r.name, name);
    }
  }

  lemma PlacesDiffer(n: int, name: seq<Char16>, version: int, m: int, to: seq<Char16>, other: int)
    requires !(n == m && Cmp(to, name) == 0 && other == version)
    ensures Place(n, Fold(name), version) != Place(m, Fold(to), other)
  {
    hide Fold, Cmp;
    CmpFold(to, name);
  }

  lemma MoveWhole(v: nat, x: Disk, now: Disk, n: int, name: seq<Char16>, version: int, m: int, to: seq<Char16>,
                  e: Entry)
    requires DirOnly(v, x, now, n) && IsDir(v, x, n) && IsDir(v, now, n) && IsDir(v, x, m)
    requires e in Entries(Flat(DirBlocks(v, x, m)), to)
    requires Descending(Entries(Flat(DirBlocks(v, x, n)), name))
    requires !(n == m && Cmp(to, name) == 0 && e.version == version)
    requires var was := Flat(DirBlocks(v, x, n));
      Listed(was, Flat(DirBlocks(v, now, n)), name, Without(Entries(was, name), version))
    ensures IsDir(v, now, m) && Knows(v, now, m, e.fid) && (n != m ==> DirBlocks(v, now, m) == DirBlocks(v, x, m))
  {
    hide Consistent, IsDir, DirBlocks, DirOnly, Flat, Entries, Descending, Listed, Without, Knows, Cmp;
    if n == m {
      EntryStays(Flat(DirBlocks(v, x, n)), Flat(DirBlocks(v, now, n)), name, version, to, e);
    } else {
      OtherListing(v, x, now, n, m);
    }
    KnowsEntry(v, now, m, to, e);
  }

  /** The two updates and the header's between them.  h is the header as it was read,
      with the count as it is. */
  method MoveEntry(vol: Volume, n: int, name: seq<Char16>, version: int, m: int, to: seq<Char16>, e: Entry, flags: int,
                   limit: int, h: Header)
    returns (r: Moving, ghost mid: seq<Rec>)
    requires vol.Inv() && Tidy(vol.v, vol.reserved, vol.d) && HeadsDir(vol.d, n) && HeadsDir(vol.d, m)
    requires |name| <= MAX_NAME && |to| <= MAX_NAME
    requires Entry(version, e.fid) in Entries(Flat(DirBlocks(vol.v, vol.d, n)), name)
    requires !(n == m && Cmp(to, name) == 0 && e.version == version)
    requires Named(vol.d, e.fid) && e.fid.num != n && e.fid.num != m && h == vol.d.live[e.fid.num]
    modifies vol
    ensures vol.Inv() && Tidy(vol.v, vol.reserved, vol.d) && old(vol.trace) <= vol.trace
    ensures r.Taken? <==> Has(Entries(Flat(DirBlocks(vol.v, old(vol.d), m)), to), e.version)
    ensures r.Taken? || r.NotEntered? ==> vol.d == old(vol.d) && vol.trace == old(vol.trace)
    ensures TwoDirs(vol.v, old(vol.d), vol.d, n, m, e.fid) && IsDir(vol.v, vol.d, n) && IsDir(vol.v, vol.d, m)
    ensures e.fid.num in vol.d.live
    ensures r.Moved? || r.BothEntered? ==>
      NeverLost(vol.v, vol.trace, |old(vol.trace)|, n, m, e.fid) && Knows(vol.v, vol.d, m, e.fid)
    ensures r.Moved? || r.BothEntered? ==> vol.d.live[e.fid.num] == h.(back := NewBack(old(vol.d), n, m, h))
    ensures r.Moved? ==> Moves(vol.v, old(vol.d), vol.d, n, name, version, m, to, e, mid)
    ensures r.Moved? || r.BothEntered? ==>
      LedIn(vol.v, old(vol.d), vol.d, m, to, Add(e.version, e.fid, flags, limit))
    ensures IsDir(vol.v, old(vol.d), n) && IsDir(vol.v, old(vol.d), m)
    ensures !r.Taken? ==> var add := Add(e.version, e.fid, flags, limit);
      && (r.NotEntered? <==> NoPlaceIn(vol.v, old(vol.d), m, to, add))
      && (r.BothEntered? <==> Strands(vol.v, old(vol.d), n, name, version, m, to, add))
    ensures r.BothEntered? && n != m ==> |DirBlocks(vol.v, old(vol.d), n)| != 1
    ensures r.Moved? || r.BothEntered? ==>
      var p, q, was := Place(n, Fold(name), version), Place(m, Fold(to), e.version), Places(vol.v, old(vol.d), e.fid);
      p in was && q !in was && Places(vol.v, vol.d, e.fid) == if r.Moved? then was + {q} - {p} else was + {q}
    ensures old(vol.Counted()) && |Places(vol.v, old(vol.d), e.fid)| < Reckoned(vol.hard, h) ==> vol.Counted()
  {
    hide Updated, Onwards, Sound, Consistent, Orderly, IsDir, DirBlocks, Flat, Entries, Descending, IsReadable,
         DirOnly, Listed, Without, Insert, Has, Knows, NeverLost, Atomic, TwoDirs, Cmp, HeadsDir, Covered, Places,
         Fold, Moves, Halfway, SameListings, Neat, Tidy, LedIn, Styled;
    mid := [];
    ghost var d0 := vol.d;
    ghost var k := |vol.trace|;
    TidySays(vol.v, vol.reserved, d0, n, name);
    TidySays(vol.v, vol.reserved, d0, m, to);
    DirOf(vol.v, d0, n);
    DirOf(vol.v, d0, m);
    TwoDirsSelf(vol.v, d0, n, m, e.fid);
    var entered := vol.DirUpdate(m, to, Add(e.version, e.fid, flags, limit));
    if !entered.Entered? {
      r := if entered.AlreadyThere? then Taken else NotEntered;
      return;
    }
    ghost var d1 := vol.d;
    ghost var t1 := vol.trace;
    DirOf(vol.v, d1, m);
    HalfwayIf(vol.v, vol.reserved, d0, d1, n, name, version, m, to, e);
    HalfwaySays(vol.v, vol.reserved, d0, d1, n, name, version, m, to, e);
    AtomicKnows(vol.v, t1, k, d0, d1, n, m, e.fid);
    DirOnlyLinks(vol.v, d0, d1, m);
    DirOnlyKeeps(vol.v, d0, d1, m);
    DirSays(vol.v, d0, n);
    DirSays(vol.v, d0, m);
    OnwardsIs(vol.v, d0, d1, n, m);
    LedIf(vol.v, d0, d0, d1, m, to, Add(e.version, e.fid, flags, limit));
    if Covered(vol.v, vol.hard, d0) && |Places(vol.v, d0, e.fid)| < Reckoned(vol.hard, h) {
      AddedCovered(vol.v, vol.hard, vol.reserved, d0, d1, m, to, e.version, e.fid);
    }
    r, mid := MoveRest(vol, d0, n, name, version, m, to, e, h, k, Add(e.version, e.fid, flags, limit));
  }

  lemma HalfwaySays(v: nat, res: int, d: Disk, x: Disk, n: int, name: seq<Char16>, version: int, m: int,
                    to: seq<Char16>, e: Entry)
    requires Halfway(v, res, d, x, n, name, version, m, to, e)
    ensures Tidy(v, res, x) && HeadsDir(x, n) && HeadsDir(x, m) && IsDir(v, x, n) && IsDir(v, x, m)
    ensures TwoDirs(v, d, x, n, m, e.fid)
    ensures Entry(version, e.fid) in Entries(Flat(DirBlocks(v, x, n)), name)
    ensures IsDir(v, d, n) && (n != m ==> DirBlocks(v, x, n) == DirBlocks(v, d, n))
    ensures Place(m, Fold(to), e.version) !in Places(v, d, e.fid)
    ensures Places(v, x, e.fid) == Places(v, d, e.fid) + {Place(m, Fold(to), e.version)}
    ensures Knows(v, d, n, e.fid) && Knows(v, x, n, e.fid) && Knows(v, x, m, e.fid)
  {
    hide Tidy, IsDir, DirBlocks, Flat, Entries, Listed, Insert, TwoDirs, Places, Fold, Knows;
  }

  // From the new entry made on.
  method MoveRest(vol: Volume, ghost d0: Disk, n: int, name: seq<Char16>, version: int, m: int, to: seq<Char16>,
                  e: Entry, h: Header, ghost k: nat, ghost add: Edit)
    returns (r: Moving, ghost mid: seq<Rec>)
    requires vol.Inv() && Halfway(vol.v, vol.reserved, d0, vol.d, n, name, version, m, to, e) && |name| <= MAX_NAME
    requires |to| <= MAX_NAME
    requires Tidy(vol.v, vol.reserved, d0) && HeadsDir(d0, n) && HeadsDir(d0, m) && IsDir(vol.v, d0, n)
    requires IsDir(vol.v, d0, m)
    requires Entry(version, e.fid) in Entries(Flat(DirBlocks(vol.v, d0, n)), name)
    requires !(n == m && Cmp(to, name) == 0 && e.version == version)
    requires Named(vol.d, e.fid) && e.fid.num != n && e.fid.num != m && h == vol.d.live[e.fid.num] && n in vol.d.live
    requires m in vol.d.live
    requires vol.d.live[n].seqno == d0.live[n].seqno && vol.d.live[m].seqno == d0.live[m].seqno
    requires k <= |vol.trace| && NeverLost(vol.v, vol.trace, k, n, m, e.fid) && LedIn(vol.v, d0, vol.d, m, to, add)
    modifies vol
    ensures LedIn(vol.v, d0, vol.d, m, to, add)
    ensures vol.Inv() && Tidy(vol.v, vol.reserved, vol.d) && old(vol.trace) <= vol.trace && (r.Moved? || r.BothEntered?)
    ensures TwoDirs(vol.v, d0, vol.d, n, m, e.fid) && IsDir(vol.v, vol.d, n) && IsDir(vol.v, vol.d, m)
    ensures e.fid.num in vol.d.live
    ensures NeverLost(vol.v, vol.trace, k, n, m, e.fid) && Knows(vol.v, vol.d, m, e.fid)
    ensures vol.d.live[e.fid.num] == h.(back := NewBack(d0, n, m, h))
    ensures r.Moved? ==> IsDir(vol.v, d0, m) && Moves(vol.v, d0, vol.d, n, name, version, m, to, e, mid)
    ensures IsDir(vol.v, old(vol.d), n)
    ensures r.BothEntered? <==> Updated(vol.v, LayoutOf(vol.v, old(vol.d), n), name, Remove(version)).None?
    ensures r.BothEntered? && n != m ==> |DirBlocks(vol.v, d0, n)| != 1
    ensures var p, q, was := Place(n, Fold(name), version), Place(m, Fold(to), e.version), Places(vol.v, d0, e.fid);
      p in was && q !in was && Places(vol.v, vol.d, e.fid) == if r.Moved? then was + {q} - {p} else was + {q}
    ensures old(vol.Counted()) ==> vol.Counted()
  {
    hide Updated, Sound, Consistent, Orderly, IsDir, DirBlocks, Flat, Entries, Descending, IsReadable, DirOnly,
         Listed, Without, Insert, Has, Knows, NeverLost, Atomic, TwoDirs, Cmp, HeadsDir, Covered, Places, Fold, Moves,
         Halfway, SameListings, Neat, Tidy, LedIn;
    ghost var d1 := vol.d;
    DirSays(vol.v, d0, n);
    DirSays(vol.v, d0, m);
    PlaceThere(vol.v, vol.reserved, d0, n, name, version, e.fid);
    HalfwaySays(vol.v, vol.reserved, d0, d1, n, name, version, m, to, e);
    LinksLayout(vol.v, d1, e.fid.num, NewBack(d0, n, m, h), h.links, n);
    LinksLayout(vol.v, d1, e.fid.num, NewBack(d0, n, m, h), h.links, m);
    WriteBack(vol, d0, n, name, version, m, to, e, h, k);
    LedSame(vol.v, d0, d0, d1, vol.d, m, to, add);
    HalfwaySays(vol.v, vol.reserved, d0, vol.d, n, name, version, m, to, e);
    mid := Flat(DirBlocks(vol.v, vol.d, n));
    var moved := MoveOut(vol, d0, n, name, version, m, to, e, k, add);
    r := if moved then Moved else BothEntered;
  }

  // The header, with the name and the back link.
  method WriteBack(vol: Volume, ghost d0: Disk, n: int, ghost name: seq<Char16>, ghost version: int, m: int,
                   ghost to: seq<Char16>, e: Entry, h: Header, ghost k: nat)
    requires vol.Inv() && Halfway(vol.v, vol.reserved, d0, vol.d, n, name, version, m, to, e)
    requires Named(vol.d, e.fid) && h == vol.d.live[e.fid.num] && n in vol.d.live && m in vol.d.live && n in d0.live
    requires m in d0.live
    requires vol.d.live[n].seqno == d0.live[n].seqno && vol.d.live[m].seqno == d0.live[m].seqno
    requires k <= |vol.trace| && NeverLost(vol.v, vol.trace, k, n, m, e.fid)
    modifies vol
    ensures vol.Inv() && Halfway(vol.v, vol.reserved, d0, vol.d, n, name, version, m, to, e)
    ensures old(vol.trace) <= vol.trace
    ensures vol.d == WithLinks(old(vol.d), e.fid.num, NewBack(d0, n, m, h), h.links)
    ensures NeverLost(vol.v, vol.trace, k, n, m, e.fid)
    ensures old(vol.Counted()) ==> vol.Counted()
  {
    hide Sound, Tidy, IsDir, DirBlocks, Flat, Entries, Listed, Insert, Knows, NeverLost, TwoDirs, Covered, Places,
         Fold, Halfway, SameListings;
    ghost var d1, t1 := vol.d, vol.trace;
    HalfwaySays(vol.v, vol.reserved, d0, d1, n, name, version, m, to, e);
    var back := if h.back == Fid(n, vol.d.live[n].seqno) then Fid(m, vol.d.live[m].seqno) else h.back;
    HalfwayLinks(vol.v, vol.reserved, d0, d1, n, name, version, m, to, e, back, h.links);
    if Covered(vol.v, vol.hard, d1) { CoveredBack(vol.v, vol.hard, d1, e.fid, back); }
    PutLinks(vol, e.fid, h.(back := back));
    HalfwaySays(vol.v, vol.reserved, d0, vol.d, n, name, version, m, to, e);
    NeverLostOne(vol.v, t1, vol.trace, vol.d, n, m, e.fid);
    NeverLostJoin(vol.v, t1, vol.trace, k, n, m, e.fid);
  }

  // The old entry goes.
  method MoveOut(vol: Volume, ghost d0: Disk, n: int, name: seq<Char16>, version: int, ghost m: int,
                 ghost to: seq<Char16>, ghost e: Entry, ghost k: nat, ghost add: Edit)
    returns (moved: bool)
    requires vol.Inv() && Halfway(vol.v, vol.reserved, d0, vol.d, n, name, version, m, to, e) && |name| <= MAX_NAME
    requires !(n == m && Cmp(to, name) == 0 && e.version == version) && IsDir(vol.v, d0, m) && IsDir(vol.v, vol.d, n)
    requires IsDir(vol.v, d0, n)
    requires Named(vol.d, e.fid) && e.fid.num != n && k <= |vol.trace| && NeverLost(vol.v, vol.trace, k, n, m, e.fid)
    requires LedIn(vol.v, d0, vol.d, m, to, add)
    modifies vol
    ensures LedIn(vol.v, d0, vol.d, m, to, add)
    ensures vol.Inv() && Tidy(vol.v, vol.reserved, vol.d) && old(vol.trace) <= vol.trace
    ensures !moved ==> vol.d == old(vol.d)
    ensures NeverLost(vol.v, vol.trace, k, n, m, e.fid) && Knows(vol.v, vol.d, m, e.fid) && IsDir(vol.v, vol.d, n)
    ensures IsDir(vol.v, vol.d, m)
    ensures e.fid.num in vol.d.live && vol.d.live[e.fid.num] == old(vol.d).live[e.fid.num]
    ensures TwoDirs(vol.v, d0, vol.d, n, m, e.fid)
    ensures moved ==> Moves(vol.v, d0, vol.d, n, name, version, m, to, e, Flat(DirBlocks(vol.v, old(vol.d), n)))
    ensures moved <==> Updated(vol.v, LayoutOf(vol.v, old(vol.d), n), name, Remove(version)).Some?
    ensures !moved && n != m ==> |DirBlocks(vol.v, d0, n)| != 1
    ensures moved ==>
      var p, q, was := Place(n, Fold(name), version), Place(m, Fold(to), e.version), Places(vol.v, d0, e.fid);
      q !in was && p in was && Places(vol.v, vol.d, e.fid) == was + {q} - {p}
    ensures old(vol.Counted()) ==> vol.Counted()
  {
    hide Updated, Sound, Consistent, Orderly, IsDir, DirBlocks, Flat, Entries, Descending, IsReadable, DirOnly, Listed,
         Without, Insert, Has, Knows, NeverLost, Atomic, TwoDirs, Cmp, HeadsDir, Covered, Places, Fold, Moves, Halfway,
         Neat, Tidy, LedIn;
    ghost var d2 := vol.d;
    ghost var t2 := vol.trace;
    HalfwaySays(vol.v, vol.reserved, d0, d2, n, name, version, m, to, e);
    TidySays(vol.v, vol.reserved, d2, n, name);
    ItHas(Entries(Flat(DirBlocks(vol.v, d2, n)), name), Entry(version, e.fid));
    var removed := vol.DirUpdate(n, name, Remove(version));
    moved := removed.Entered?;
    if moved {
      DirOf(vol.v, vol.d, n);
      WholeWay(vol.v, vol.reserved, d0, d2, vol.d, n, name, version, m, to, e);
      LedOut(vol.v, vol.reserved, d0, d2, vol.d, n, name, version, m, to, e, add);
      DirOnlyLinks(vol.v, d2, vol.d, n);
      AtomicKnows(vol.v, vol.trace, |t2|, d2, vol.d, n, m, e.fid);
      NeverLostJoin(vol.v, t2, vol.trace, k, n, m, e.fid);
      if Covered(vol.v, vol.hard, d2) {
        RemovedCovered(vol.v, vol.hard, vol.reserved, d2, vol.d, n, name, version, e.fid);
      }
    }
  }

  lemma ItHas(es: seq<Entry>, e: Entry)
    requires e in es
    ensures Has(es, e.version)
  {
  }

  lemma CoveredBack(v: nat, hard: bool, d: Disk, f: Fid, back: Fid)
    requires Covered(v, hard, d) && Named(d, f)
    ensures Covered(v, hard, WithLinks(d, f.num, back, d.live[f.num].links))
  {
    hide Places;
    LinksCovered(v, hard, d, f, back, d.live[f.num].links);
  }

  lemma PlaceThere(v: nat, res: int, d: Disk, n: int, name: seq<Char16>, version: int, f: Fid)
    requires Tidy(v, res, d) && HeadsDir(d, n) && IsDir(v, d, n)
    requires Entry(version, f) in Entries(Flat(DirBlocks(v, d, n)), name)
    ensures Place(n, Fold(name), version) in Places(v, d, f)
  {
    hide Tidy, IsDir, DirBlocks, Flat, Places, Fold, Entries;
    TidyPlaces(v, res, d, f, Place(n, Fold(name), version));
    EntriesAt(Flat(DirBlocks(v, d, n)), name, version, f);
  }

  // ---------------------------------------------------------------------
  // rename
  // ---------------------------------------------------------------------

  datatype Renaming =
    | Renamed(version: int)
    | Unmoved | WildVersion | NoSuchEntry | ReservedFile | NotDirName | InsideItself | WrongVersion | TooHigh
    | NameInUse | NotMoved | HalfMoved

  /** It got as far as counting the entry to be made. */
  predicate Counting(r: Renaming) { r.Renamed? || r.NameInUse? || r.NotMoved? || r.HalfMoved? }

  /** One more, as far as the field goes. */
  function OneMore(links: U16): U16 { if links == MAX_LINKS then MAX_LINKS else links + 1 }

  // The count while there may be two entries, and once there is one again.
  function During(hard: bool, links: U16): U16 { if hard then OneMore(links) else links }

  function Afterwards(hard: bool, links: U16): U16 { if hard then OneMore(links) - 1 else links }

  /** The file's header after a rename that ended so. */
  function HeaderAfter(hard: bool, d: Disk, n: int, m: int, h: Header, r: Renaming): Header
    requires n in d.live && m in d.live
  {
    if r.Renamed? then h.(back := NewBack(d, n, m, h), links := Afterwards(hard, h.links))
    else if r.HalfMoved? then h.(back := NewBack(d, n, m, h), links := During(hard, h.links))
    else if r.NameInUse? || r.NotMoved? then h.(links := Afterwards(hard, h.links))
    else h
  }

  // The header again, where the volume counts entries.
  method Recount(vol: Volume, f: Fid, h: Header, links: U16, ghost k: nat, ghost n: int, ghost m: int)
    requires vol.Inv() && Tidy(vol.v, vol.reserved, vol.d) && Named(vol.d, f) && h == vol.d.live[f.num]
    requires !vol.hard ==> links == h.links
    requires k <= |vol.trace| && NeverLost(vol.v, vol.trace, k, n, m, f)
    requires Knows(vol.v, vol.d, n, f) || Knows(vol.v, vol.d, m, f)
    modifies vol
    ensures vol.Inv() && Tidy(vol.v, vol.reserved, vol.d) && vol.d == WithLinks(old(vol.d), f.num, h.back, links)
    ensures old(vol.trace) <= vol.trace && NeverLost(vol.v, vol.trace, k, n, m, f)
    ensures SameListings(vol.v, old(vol.d), vol.d)
    ensures old(vol.Counted()) && Covered(vol.v, vol.hard, vol.d) ==> vol.Counted()
  {
    hide Tidy, Knows, NeverLost, SameListings, Covered, Sound;
    ghost var d, was := vol.d, vol.trace;
    if vol.hard {
      PutLinks(vol, f, h.(links := links));
      KnowsStillOne(vol.v, d, vol.d, n, m, f);
      NeverLostOne(vol.v, was, vol.trace, vol.d, n, m, f);
      NeverLostJoin(vol.v, was, vol.trace, k, n, m, f);
    } else {
      assert WithLinks(d, f.num, h.back, links).live == d.live;
      ListingsSame(vol.v, d, d);
    }
  }

  lemma KnowsStillOne(v: nat, d: Disk, x: Disk, n: int, m: int, f: Fid)
    requires (Knows(v, d, n, f) || Knows(v, d, m, f)) && SameListings(v, d, x)
    ensures Knows(v, x, n, f) || Knows(v, x, m, f)
  {
    hide SameListings, Knows;
    if Knows(v, d, n, f) { KnowsStill(v, d, x, n, f); } else { KnowsStill(v, d, x, m, f); }
  }

  lemma MovesFrom(v: nat, d: Disk, x: Disk, now: Disk, n: int, name: seq<Char16>, version: int, m: int, to: seq<Char16>,
                  e: Entry, mid: seq<Rec>)
    requires Moves(v, x, now, n, name, version, m, to, e, mid) && IsDir(v, d, n) && IsDir(v, d, m)
    requires SameListings(v, d, x)
    ensures Moves(v, d, now, n, name, version, m, to, e, mid)
  {
    hide IsDir, DirBlocks, Flat, Entries, Listed, Insert, Without;
  }

  // Where a count that covers the entries saturates.
  lemma CountsCover(hard: bool, p: nat, links: U16)
    requires p <= if hard then links else 1
    ensures hard ==>
      (p < MAX_LINKS <==> p <= Afterwards(hard, links)) && (p < MAX_LINKS <==> p + 1 <= During(hard, links))
    ensures hard && p < MAX_LINKS ==> p < During(hard, links)
  {
  }

  lemma Swapped(was: set<Place>, p: Place, q: Place)
    requires p in was && q !in was
    ensures |was + {q} - {p}| == |was| && |was + {q}| == |was| + 1
  {
    assert |was + {q}| == |was| + 1;
    assert p in was + {q};
  }

  // What the move has come to, from d, with the count up.
  ghost predicate MovedSo(v: nat, hard: bool, d: Disk, now: Disk, n: int, name: seq<Char16>, version: int, m: int,
                          to: seq<Char16>, e: Entry, done: Moving, mid: seq<Rec>) {
    && TwoDirs(v, d, now, n, m, e.fid) && IsDir(v, d, n) && IsDir(v, d, m) && IsDir(v, now, n) && IsDir(v, now, m)
    && n in d.live && m in d.live && Named(d, e.fid) && Named(now, e.fid)
    && (Knows(v, now, n, e.fid) || Knows(v, now, m, e.fid))
    && (var h, up := d.live[e.fid.num], During(hard, d.live[e.fid.num].links);
        if done.Moved? || done.BothEntered? then now.live[e.fid.num] == h.(back := NewBack(d, n, m, h), links := up)
        else now == WithLinks(d, e.fid.num, h.back, up))
    && |Places(v, now, e.fid)| == |Places(v, d, e.fid)| + (if done.BothEntered? then 1 else 0)
    && Places(v, d, e.fid) != {}
    && (done.Moved? ==> Moves(v, d, now, n, name, version, m, to, e, mid))
  }

  // The count goes down again, unless two entries are left.
  method CountBack(vol: Volume, ghost d0: Disk, ghost n: int, ghost name: seq<Char16>, ghost version: int, ghost m: int,
                   ghost to: seq<Char16>, e: Entry, done: Moving, ghost mid: seq<Rec>, links: U16, ghost k: nat)
    returns (r: Renaming)
    requires vol.Inv() && Tidy(vol.v, vol.reserved, vol.d)
    requires MovedSo(vol.v, vol.hard, d0, vol.d, n, name, version, m, to, e, done, mid)
    requires links == d0.live[e.fid.num].links && k <= |vol.trace| && NeverLost(vol.v, vol.trace, k, n, m, e.fid)
    modifies vol
    ensures vol.Inv() && Tidy(vol.v, vol.reserved, vol.d) && old(vol.trace) <= vol.trace
    ensures r == match done { case Moved => Renamed(e.version) case Taken => NameInUse case NotEntered =>
                             NotMoved case BothEntered => HalfMoved }
    ensures r.HalfMoved? ==> vol.d == old(vol.d)
    ensures IsDir(vol.v, old(vol.d), m) && IsDir(vol.v, vol.d, m)
    ensures DirBlocks(vol.v, vol.d, m) == DirBlocks(vol.v, old(vol.d), m)
    ensures TwoDirs(vol.v, d0, vol.d, n, m, e.fid) && IsDir(vol.v, vol.d, n) && IsDir(vol.v, vol.d, m)
    ensures NeverLost(vol.v, vol.trace, k, n, m, e.fid)
    ensures e.fid.num in vol.d.live && vol.d.live[e.fid.num] == HeaderAfter(vol.hard, d0, n, m, d0.live[e.fid.num], r)
    ensures r.Renamed? ==> Moves(vol.v, d0, vol.d, n, name, version, m, to, e, mid)
    ensures Covered(vol.v, vol.hard, d0) ==>
      (Covered(vol.v, vol.hard, vol.d) <==> if vol.hard then |Places(vol.v, d0, e.fid)| < MAX_LINKS else !r.HalfMoved?)
    ensures old(vol.Counted()) && Covered(vol.v, vol.hard, vol.d) ==> vol.Counted()
  {
    hide Sound, Tidy, IsDir, DirBlocks, Knows, NeverLost, TwoDirs, HeadsDir, Covered, Places, Moves, SameListings,
         OthersAlike;
    ghost var d2 := vol.d;
    r := match done { case Moved => Renamed(e.version) case Taken => NameInUse case NotEntered =>
                     NotMoved case BothEntered => HalfMoved };
    if r.HalfMoved? {
      if Covered(vol.v, vol.hard, d0) { CoveredHalf(vol.v, vol.hard, d0, d2, n, m, e.fid, d0.live[e.fid.num]); }
      return;
    }
    var h, down: U16 := vol.d.live[e.fid.num], Afterwards(vol.hard, links);
    if Covered(vol.v, vol.hard, d0) {
      CoveredDown(vol.v, vol.hard, d0, d2, n, m, e.fid, h.back, d0.live[e.fid.num], down);
    }
    Recount(vol, e.fid, h, down, k, n, m);
    LinkedAlike(vol.v, vol.reserved, d2, n, m, e.fid, h.back, down);
    TwoDirsTrans(vol.v, d0, d2, vol.d, n, m, e.fid);
    if r.Renamed? { MovesTo(vol.v, d0, d2, vol.d, n, name, version, m, to, e, mid); }
  }

  // The count goes up, before there is an entry more.
  method CountUp(vol: Volume, ghost n: int, ghost name: seq<Char16>, ghost version: int, ghost m: int, f: Fid)
    returns (h: Header)
    requires vol.Inv() && Tidy(vol.v, vol.reserved, vol.d) && HeadsDir(vol.d, n) && HeadsDir(vol.d, m)
    requires IsDir(vol.v, vol.d, n)
    requires Entry(version, f) in Entries(Flat(DirBlocks(vol.v, vol.d, n)), name) && Named(vol.d, f)
    modifies vol
    ensures vol.Inv() && Tidy(vol.v, vol.reserved, vol.d) && old(vol.trace) <= vol.trace && h == old(vol.d).live[f.num]
    ensures vol.d == WithLinks(old(vol.d), f.num, h.back, During(vol.hard, h.links)) && n in vol.d.live
    ensures m in vol.d.live
    ensures IsDir(vol.v, old(vol.d), m) && IsDir(vol.v, vol.d, n) && IsDir(vol.v, vol.d, m) && HeadsDir(vol.d, n)
    ensures HeadsDir(vol.d, m)
    ensures DirBlocks(vol.v, vol.d, n) == DirBlocks(vol.v, old(vol.d), n)
    ensures DirBlocks(vol.v, vol.d, m) == DirBlocks(vol.v, old(vol.d), m)
    ensures LayoutOf(vol.v, vol.d, n) == LayoutOf(vol.v, old(vol.d), n)
    ensures LayoutOf(vol.v, vol.d, m) == LayoutOf(vol.v, old(vol.d), m)
    ensures TwoDirs(vol.v, old(vol.d), vol.d, n, m, f) && SameListings(vol.v, old(vol.d), vol.d)
    ensures Places(vol.v, vol.d, f) == Places(vol.v, old(vol.d), f) && Places(vol.v, old(vol.d), f) != {}
    ensures NeverLost(vol.v, vol.trace, |old(vol.trace)|, n, m, f) && Knows(vol.v, vol.d, n, f)
    ensures old(vol.Counted()) ==> vol.Counted()
    ensures vol.hard && Covered(vol.v, vol.hard, old(vol.d)) && |Places(vol.v, old(vol.d), f)| < MAX_LINKS ==>
      |Places(vol.v, old(vol.d), f)| < During(vol.hard, h.links)
  {
    hide Sound, Consistent, Orderly, IsDir, DirBlocks, Flat, Entries, Descending, IsReadable, Knows, NeverLost,
         TwoDirs, HeadsDir, Covered, Places, Fold, SameListings, Neat, Tidy, WithLinks;
    ghost var d0 := vol.d;
    TidySays(vol.v, vol.reserved, d0, m, name);
    DirOf(vol.v, d0, m);
    DirSays(vol.v, d0, n);
    h := vol.d.live[f.num];
    PlaceThere(vol.v, vol.reserved, d0, n, name, version, f);
    KnowsEntry(vol.v, d0, n, name, Entry(version, f));
    NothingLost(vol.v, vol.trace, n, m, f);
    var up: U16 := During(vol.hard, h.links);
    if Covered(vol.v, vol.hard, d0) { CoveredUp(vol.v, vol.hard, d0, f, up); }
    Recount(vol, f, h, up, |vol.trace|, n, m);
    LinkedAlike(vol.v, vol.reserved, d0, n, m, f, h.back, up);
    LinksLayout(vol.v, d0, f.num, h.back, up, n);
    LinksLayout(vol.v, d0, f.num, h.back, up, m);
    KnowsStill(vol.v, d0, vol.d, n, f);
    DirSays(vol.v, vol.d, n);
    DirSays(vol.v, vol.d, m);
  }

  // The move with the counts about it.
  method CountedMove(vol: Volume, n: int, name: seq<Char16>, version: int, m: int, to: seq<Char16>, e: Entry,
                     flags: int, limit: int)
    returns (r: Renaming, ghost mid: seq<Rec>)
    requires vol.Inv() && Tidy(vol.v, vol.reserved, vol.d) && HeadsDir(vol.d, n) && HeadsDir(vol.d, m)
    requires |name| <= MAX_NAME && |to| <= MAX_NAME
    requires Entry(version, e.fid) in Entries(Flat(DirBlocks(vol.v, vol.d, n)), name)
    requires !(n == m && Cmp(to, name) == 0 && e.version == version)
    requires Named(vol.d, e.fid) && e.fid.num != n && e.fid.num != m
    modifies vol
    ensures vol.Inv() && Tidy(vol.v, vol.reserved, vol.d) && old(vol.trace) <= vol.trace && Counting(r)
    ensures r.Renamed? ==> r.version == e.version
    ensures r.NameInUse? <==> Has(Entries(Flat(DirBlocks(vol.v, old(vol.d), m)), to), e.version)
    ensures TwoDirs(vol.v, old(vol.d), vol.d, n, m, e.fid) && IsDir(vol.v, vol.d, n) && IsDir(vol.v, vol.d, m)
    ensures NeverLost(vol.v, vol.trace, |old(vol.trace)|, n, m, e.fid)
    ensures e.fid.num in vol.d.live
    ensures vol.d.live[e.fid.num] == HeaderAfter(vol.hard, old(vol.d), n, m, old(vol.d).live[e.fid.num], r)
    ensures r.Renamed? ==> Moves(vol.v, old(vol.d), vol.d, n, name, version, m, to, e, mid)
    ensures IsDir(vol.v, old(vol.d), n) && IsDir(vol.v, old(vol.d), m)
    ensures !r.NameInUse? ==> var add := Add(e.version, e.fid, flags, limit);
      && (r.NotMoved? <==> NoPlaceIn(vol.v, old(vol.d), m, to, add))
      && (r.HalfMoved? <==> Strands(vol.v, old(vol.d), n, name, version, m, to, add))
      && (r.Renamed? || r.HalfMoved? ==> LedIn(vol.v, old(vol.d), vol.d, m, to, add))
    ensures r.HalfMoved? && n != m ==> |DirBlocks(vol.v, old(vol.d), n)| != 1
    ensures Covered(vol.v, vol.hard, old(vol.d)) ==>
      (Covered(vol.v, vol.hard, vol.d) <==>
       if vol.hard then |Places(vol.v, old(vol.d), e.fid)| < MAX_LINKS else !r.HalfMoved?)
    ensures vol.hard && old(vol.Counted()) && |Places(vol.v, old(vol.d), e.fid)| < MAX_LINKS ==> vol.Counted()
  {
    hide LedIn, Updated, Sound, Consistent, Orderly, IsDir, DirBlocks, Flat, Entries, Descending, IsReadable,
         Has, Knows, NeverLost, TwoDirs, Cmp, HeadsDir, Covered, Places, Fold, Moves, SameListings, Neat, OthersAlike,
         MovedSo, Tidy;
    TidySays(vol.v, vol.reserved, vol.d, n, name);
    DirOf(vol.v, vol.d, n);
    ghost var d0 := vol.d;
    ghost var k := |vol.trace|;
    var h := CountUp(vol, n, name, version, m, e.fid);
    ghost var d1, t1 := vol.d, vol.trace;
    var done: Moving;
    done, mid := MoveEntry(vol, n, name, version, m, to, e, flags, limit, h.(links := During(vol.hard, h.links)));
    if done.Moved? || done.BothEntered? { NeverLostJoin(vol.v, t1, vol.trace, k, n, m, e.fid); }
    MovedSoIf(vol.v, vol.hard, d0, d1, vol.d, n, name, version, m, to, e, done, mid);
    ghost var d2 := vol.d;
    r := CountBack(vol, d0, n, name, version, m, to, e, done, mid, h.links, k);
    if done.Moved? || done.BothEntered? {
      LedSame(vol.v, d1, d0, d2, vol.d, m, to, Add(e.version, e.fid, flags, limit));
    }
  }

  lemma MovedSoIf(v: nat, hard: bool, d: Disk, x: Disk, now: Disk, n: int, name: seq<Char16>, version: int, m: int,
                  to: seq<Char16>, e: Entry, done: Moving, mid: seq<Rec>)
    requires IsDir(v, d, n) && IsDir(v, d, m) && IsDir(v, x, n) && IsDir(v, x, m) && IsDir(v, now, n)
    requires IsDir(v, now, m) && Named(d, e.fid)
    requires x == WithLinks(d, e.fid.num, d.live[e.fid.num].back, During(hard, d.live[e.fid.num].links))
    requires TwoDirs(v, d, x, n, m, e.fid)
    requires TwoDirs(v, x, now, n, m, e.fid) && SameListings(v, d, x) && Places(v, x, e.fid) == Places(v, d, e.fid)
    requires Places(v, d, e.fid) != {}
    requires n in x.live && m in x.live
    requires if done.Moved? || done.BothEntered? then Knows(v, now, m, e.fid) else now == x && Knows(v, now, n, e.fid)
    requires done.Moved? || done.BothEntered? ==>
      e.fid.num in now.live && now.live[e.fid.num] == x.live[e.fid.num].(back := NewBack(x, n, m, x.live[e.fid.num]))
    requires done.Moved? || done.BothEntered? ==>
      var p, q, was := Place(n, Fold(name), version), Place(m, Fold(to), e.version), Places(v, x, e.fid);
      p in was && q !in was && Places(v, now, e.fid) == if done.Moved? then was + {q} - {p} else was + {q}
    requires done.Moved? ==> Moves(v, x, now, n, name, version, m, to, e, mid)
    ensures MovedSo(v, hard, d, now, n, name, version, m, to, e, done, mid)
  {
    hide IsDir, Knows, TwoDirs, Places, Moves, Fold, SameListings;
    DirSays(v, d, n);
    DirSays(v, d, m);
    NamedStill(v, x, now, n, m, e.fid);
    NamedStill(v, d, x, n, m, e.fid);
    TwoDirsTrans(v, d, x, now, n, m, e.fid);
    if done.Moved? || done.BothEntered? {
      Swapped(Places(v, x, e.fid), Place(n, Fold(name), version), Place(m, Fold(to), e.version));
    }
    if done.Moved? { MovesFrom(v, d, x, now, n, name, version, m, to, e, mid); }
  }

  // A header's count written: the directories and the entries are the same.
  lemma LinkedAlike(v: nat, res: int, d: Disk, n: int, m: int, f: Fid, back: Fid, links: U16)
    requires Tidy(v, res, d) && Named(d, f) && IsDir(v, d, n) && IsDir(v, d, m)
    ensures var now := WithLinks(d, f.num, back, links);
      && TwoDirs(v, d, now, n, m, f) && Places(v, now, f) == Places(v, d, f) && SameListings(v, d, now)
      && IsDir(v, now, n) && IsDir(v, now, m) && HeadsDir(now, n) && HeadsDir(now, m)
      && DirBlocks(v, now, n) == DirBlocks(v, d, n) && DirBlocks(v, now, m) == DirBlocks(v, d, m)
  {
    hide Tidy, IsDir, DirBlocks, TwoDirs, Places, WithLinks, SameListings, SameContents, KeepsSpace, OldDirs, HeadsDir;
    LinksKeep(v, res, d, f.num, back, links);
    TwoDirsLinks(v, res, d, n, m, f, back, links);
    LinksPlaces(v, d, f.num, back, links, f);
    LinksDir(v, d, f.num, back, links, n);
    LinksDir(v, d, f.num, back, links, m);
    DirHeads(v, WithLinks(d, f.num, back, links), n);
    DirHeads(v, WithLinks(d, f.num, back, links), m);
  }

  lemma NamedStill(v: nat, d: Disk, now: Disk, n: int, m: int, f: Fid)
    requires TwoDirs(v, d, now, n, m, f) && IsDir(v, d, n) && IsDir(v, d, m)
    ensures forall g :: Named(now, g) <==> Named(d, g)
    ensures n in d.live && m in d.live && n in now.live && m in now.live
    ensures now.live[n].seqno == d.live[n].seqno && now.live[m].seqno == d.live[m].seqno
  {
    hide KeepsSpace, BesidesTwo, OldDirs, OthersAlike, IsDir;
    DirSays(v, d, n);
    DirSays(v, d, m);
    assert Named(now, Fid(n, d.live[n].seqno)) && Named(now, Fid(m, d.live[m].seqno));
  }

  lemma MovesTo(v: nat, d: Disk, x: Disk, now: Disk, n: int, name: seq<Char16>, version: int, m: int, to: seq<Char16>,
                e: Entry, mid: seq<Rec>)
    requires Moves(v, d, x, n, name, version, m, to, e, mid) && SameListings(v, x, now)
    ensures Moves(v, d, now, n, name, version, m, to, e, mid)
  {
    hide IsDir, DirBlocks, Flat, Entries, Listed, Insert, Without;
  }

  // The counts on the way: up, and down again.
  lemma CoveredUp(v: nat, hard: bool, d: Disk, f: Fid, up: U16)
    requires Covered(v, hard, d) && Named(d, f) && up == During(hard, d.live[f.num].links)
    ensures Covered(v, hard, WithLinks(d, f.num, d.live[f.num].back, up))
    ensures hard && |Places(v, d, f)| < MAX_LINKS ==> |Places(v, d, f)| < up
  {
    hide Places;
    CountsCover(hard, |Places(v, d, f)|, d.live[f.num].links);
    LinksCovered(v, hard, d, f, d.live[f.num].back, up);
  }

  lemma CoveredDown(v: nat, hard: bool, d: Disk, x: Disk, n: int, m: int, f: Fid, back: Fid, h: Header, down: U16)
    requires Covered(v, hard, d) && TwoDirs(v, d, x, n, m, f) && Named(d, f) && Named(x, f) && h == d.live[f.num]
    requires down == Afterwards(hard, h.links) && |Places(v, x, f)| == |Places(v, d, f)|
    ensures Covered(v, hard, WithLinks(x, f.num, back, down)) <==> (hard ==> |Places(v, d, f)| < MAX_LINKS)
  {
    hide Places, KeepsSpace, BesidesTwo, OldDirs, OthersAlike;
    CountsCover(hard, |Places(v, d, f)|, h.links);
    AlikeLinks(v, x, f, back, down);
    AlikeTrans(v, d, x, WithLinks(x, f.num, back, down), f);
    CoveredOne(v, hard, d, WithLinks(x, f.num, back, down), f);
  }

  lemma CoveredHalf(v: nat, hard: bool, d: Disk, x: Disk, n: int, m: int, f: Fid, h: Header)
    requires Covered(v, hard, d) && TwoDirs(v, d, x, n, m, f) && Named(d, f) && Named(x, f) && h == d.live[f.num]
    requires x.live[f.num].links == During(hard, h.links) && |Places(v, x, f)| == |Places(v, d, f)| + 1
    requires Places(v, d, f) != {}
    ensures Covered(v, hard, x) <==> hard && |Places(v, d, f)| < MAX_LINKS
  {
    hide Places, KeepsSpace, BesidesTwo, OldDirs, OthersAlike;
    CountsCover(hard, |Places(v, d, f)|, h.links);
    CoveredOne(v, hard, d, x, f);
  }

  lemma NothingLost(v: nat, run: seq<Disk>, n: int, m: int, f: Fid)
    ensures NeverLost(v, run, |run|, n, m, f)
  {
  }

  // The entry's versions in a directory, none where it is no directory.
  ghost function VersionsIn(v: nat, d: Disk, n: int, name: seq<Char16>): seq<Entry> {
    if IsDir(v, d, n) then Entries(Flat(DirBlocks(v, d, n)), name) else []
  }

  ghost function Over(es: seq<Entry>, version: int): set<Entry> { set x | x in es && x.version > version }

  /** The version asked for: the highest, that one, or the one so many below the
      highest. */
  ghost predicate Resolves(es: seq<Entry>, want: N.Version, e: Entry) {
    e in es &&
      match want
      case Highest => forall x <- es :: x.version <= e.version
      case Exact(n) => e.version == n
      case Relative(n) => |Over(es, e.version)| == n
      case All => false
  }

  lemma OverNext(es: seq<Entry>, k: nat)
    requires Descending(es) && k + 1 < |es|
    ensures Over(es, es[k + 1].version) == Over(es, es[k].version) + {es[k]} && es[k] !in Over(es, es[k].version)
  {
    forall i | 0 <= i < |es|
      ensures es[i].version > es[k + 1].version <==> es[i].version > es[k].version || es[i] == es[k]
    {
      if i < k { assert es[i].version > es[k].version; }
    }
  }

  lemma {:induction false} OverCount(es: seq<Entry>, k: nat)
    requires Descending(es) && k < |es|
    ensures |Over(es, es[k].version)| == k
  {
    if k == 0 {
      assert Over(es, es[0].version) == {};
    } else {
      hide Over, Descending;
      OverCount(es, k - 1);
      OverNext(es, k - 1);
    }
  }

  /** lookup: the entry of the version asked for, where there is one. */
  method Lookup(es: seq<Entry>, want: N.Version) returns (e: Option<Entry>)
    requires Descending(es)
    ensures e.Some? ==> Resolves(es, want, e.value)
    ensures forall x :: Resolves(es, want, x) ==> e == Some(x)
  {
    match want {
      case Highest => e := if es == [] then None else Some(es[0]);
      case Exact(n) => e := Find(es, n);
      case Relative(n) =>
        e := if 0 <= n < |es| then Some(es[n]) else None;
        forall k | 0 <= k < |es|
          ensures |Over(es, es[k].version)| == k
        {
          OverCount(es, k);
        }
      case All => e := None;
    }
  }

  lemma ResolvesIn(es: seq<Entry>, want: N.Version, e: Entry)
    requires Resolves(es, want, e)
    ensures e in es
  {
  }

  /** What a rename says before it writes anything. */
  ghost predicate Refused(v: nat, res: int, d: Disk, n: int, name: seq<Char16>, want: N.Version, m: int,
                          to: seq<Char16>, asked: Option<int>, e: Entry, to': int, r: Renaming) {
    && (r.WildVersion? <==> want.All?)
    && (r.NoSuchEntry? <==> !want.All? && forall x :: !Resolves(VersionsIn(v, d, n, name), want, x))
    && (!r.WildVersion? && !r.NoSuchEntry? ==>
          var f, version := e.fid, e.version;
          && Resolves(VersionsIn(v, d, n, name), want, e) && Named(d, f) && m in d.live
          && (r.ReservedFile? <==> f.num <= res)
          && (!r.ReservedFile? ==>
                var dir := d.live[f.num].dir;
                && (r.NotDirName? <==> dir && (!DirType(to) || (asked.Some? && asked.value != 1)))
                && (r.InsideItself? <==> dir && !r.NotDirName? && Reaches(v, d, f, Fid(m, d.live[m].seqno)))
                && (r.WrongVersion? <==> !dir && asked.Some? && !(0 < asked.value <= MAX_VERSION))
                && (!r.NotDirName? && !r.InsideItself? && !r.WrongVersion? ==>
                      && to' == RenamedVersion(VersionsIn(v, d, m, to), asked, dir, version)
                      && (r.TooHigh? <==> asked.None? && !dir && to' != version && to' > MAX_VERSION)
                      && (r.Unmoved? <==> !r.TooHigh? && n == m && Cmp(to, name) == 0 && to' == version))))
  }

  // The entry of that version, in a directory.
  method Sought(vol: Volume, n: int, name: seq<Char16>, want: N.Version) returns (e: Option<Entry>)
    requires vol.Inv() && Tidy(vol.v, vol.reserved, vol.d) && HeadsDir(vol.d, n)
    ensures IsDir(vol.v, vol.d, n) && n in vol.d.live
    ensures e.None? ==> forall x :: !Resolves(VersionsIn(vol.v, vol.d, n, name), want, x)
    ensures e.Some? ==> Resolves(VersionsIn(vol.v, vol.d, n, name), want, e.value) && Named(vol.d, e.value.fid)
    ensures e.Some? && n > vol.reserved ==> e.value.fid.num != n
  {
    hide Sound, Consistent, Orderly, IsDir, DirBlocks, Flat, Entries, Descending, IsReadable, HeadsDir, Neat, Resolves;
    TidySays(vol.v, vol.reserved, vol.d, n, name);
    DirOf(vol.v, vol.d, n);
    DirSays(vol.v, vol.d, n);
    SoundOf(vol.v, vol.d);
    var bs := vol.ReadDir(n);
    e := Lookup(Entries(Flat(bs), name), want);
    if e.Some? {
      ResolvesIn(VersionsIn(vol.v, vol.d, n, name), want, e.value);
      EntryNamed(vol.v, vol.d, n, name, e.value);
    }
  }

  method MayRename(vol: Volume, n: int, name: seq<Char16>, want: N.Version, m: int, to: seq<Char16>, asked: Option<int>)
    returns (r: Renaming, e: Entry, to': int)
    requires vol.Inv() && Tidy(vol.v, vol.reserved, vol.d) && HeadsDir(vol.d, n) && HeadsDir(vol.d, m)
    ensures !Counting(r) || r.NotMoved?
    ensures Refused(vol.v, vol.reserved, vol.d, n, name, want, m, to, asked, e, to', r)
    ensures r.NotMoved? ==> e.fid.num != n && e.fid.num != m && !(n == m && Cmp(to, name) == 0 && to' == e.version)
    ensures IsDir(vol.v, vol.d, n) && IsDir(vol.v, vol.d, m)
  {
    hide Sound, Consistent, Orderly, IsDir, DirBlocks, Flat, Entries, Descending, IsReadable, Has, Cmp, HeadsDir, Neat,
         Reaches, DirType, Resolves;
    e, to' := Entry(0, Fid(0, 0)), 0;
    ghost var d := vol.d;
    TidySays(vol.v, vol.reserved, d, m, to);
    DirOf(vol.v, d, m);
    DirSays(vol.v, d, m);
    var found := Sought(vol, n, name, want);
    if want.All? {
      r := WildVersion;
      return;
    }
    if found.None? {
      r := NoSuchEntry;
      return;
    }
    e := found.value;
    var f, version := e.fid, e.version;
    if f.num <= vol.reserved {
      r := ReservedFile;
      return;
    }
    var dir := vol.d.live[f.num].dir;
    if dir && (!DirType(to) || (asked.Some? && asked.value != 1)) {
      r := NotDirName;
      return;
    }
    var inside := false;
    if dir {
      inside := ContainsDir(vol, f, Fid(m, vol.d.live[m].seqno));
      ReachesSelf(vol.v, d, f);
    }
    if inside {
      r := InsideItself;
      return;
    }
    if !dir && asked.Some? && !(0 < asked.value <= MAX_VERSION) {
      r := WrongVersion;
      return;
    }
    var bs := vol.ReadDir(m);
    to' := RenamedVersion(Entries(Flat(bs), to), asked, dir, version);
    r := if asked.None? && !dir && to' != version && to' > MAX_VERSION then TooHigh
         else if n == m && Cmp(to, name) == 0 && to' == version then Unmoved
         else NotMoved;
  }

  /** rename: the new entry is made, and then the old one removed, so that after every
      write the file has an entry in one of the two directories.  A directory keeps its
      type and is not moved below itself.  Where the volume counts entries the count
      covers both while there are both, just when the file has fewer entries than the
      count can say. */
  method Rename(vol: Volume, n: int, name: seq<Char16>, want: N.Version, m: int, to: seq<Char16>, asked: Option<int>,
                flags: int, limit: int)
    returns (r: Renaming, ghost e: Entry, ghost to': int, ghost mid: seq<Rec>)
    requires vol.Inv() && Tidy(vol.v, vol.reserved, vol.d) && HeadsDir(vol.d, n) && HeadsDir(vol.d, m)
    requires |name| <= MAX_NAME && |to| <= MAX_NAME
    modifies vol
    ensures vol.Inv() && Tidy(vol.v, vol.reserved, vol.d) && old(vol.trace) <= vol.trace
    ensures Refused(vol.v, vol.reserved, old(vol.d), n, name, want, m, to, asked, e, to', r)
    ensures !Counting(r) ==> vol.d == old(vol.d) && vol.trace == old(vol.trace)
    ensures Counting(r) ==>
      NeverLost(vol.v, vol.trace, |old(vol.trace)|, n, m, e.fid)
      && (r.NameInUse? <==> Has(VersionsIn(vol.v, old(vol.d), m, to), to'))
    ensures Counting(r) ==>
      TwoDirs(vol.v, old(vol.d), vol.d, n, m, e.fid) && IsDir(vol.v, vol.d, n) && IsDir(vol.v, vol.d, m)
    ensures Counting(r) ==>
      e.fid.num in vol.d.live
      && vol.d.live[e.fid.num] == HeaderAfter(vol.hard, old(vol.d), n, m, old(vol.d).live[e.fid.num], r)
    ensures IsDir(vol.v, old(vol.d), n) && IsDir(vol.v, old(vol.d), m)
    ensures Counting(r) && !r.NameInUse? ==> var add := Add(to', e.fid, flags, limit);
      && (r.NotMoved? <==> NoPlaceIn(vol.v, old(vol.d), m, to, add))
      && (r.HalfMoved? <==> Strands(vol.v, old(vol.d), n, name, e.version, m, to, add))
      && (r.Renamed? || r.HalfMoved? ==> LedIn(vol.v, old(vol.d), vol.d, m, to, add))
    ensures r.HalfMoved? && n != m ==> IsDir(vol.v, old(vol.d), n) && |DirBlocks(vol.v, old(vol.d), n)| != 1
    ensures r.Renamed? ==>
      r.version == to' && Moves(vol.v, old(vol.d), vol.d, n, name, e.version, m, to, Entry(to', e.fid), mid)
    ensures Counting(r) && Covered(vol.v, vol.hard, old(vol.d)) ==>
      (Covered(vol.v, vol.hard, vol.d) <==>
       if vol.hard then |Places(vol.v, old(vol.d), e.fid)| < MAX_LINKS else !r.HalfMoved?)
    ensures Counting(r) && vol.hard && old(vol.Counted()) && |Places(vol.v, old(vol.d), e.fid)| < MAX_LINKS ==>
      vol.Counted()
  {
    hide LedIn, NoPlaceIn, Strands, Sound, Tidy, IsDir, DirBlocks, Flat, Entries, Has, NeverLost, TwoDirs, Cmp,
         HeadsDir, Covered, Places, Moves, Reaches, DirType, Resolves;
    mid := [];
    var found, v := Entry(0, Fid(0, 0)), 0;
    r, found, v := MayRename(vol, n, name, want, m, to, asked);
    e, to' := found, v;
    if r.NotMoved? {
      ResolvesIn(VersionsIn(vol.v, vol.d, n, name), want, found);
      r, mid := CountedMove(vol, n, name, found.version, m, to, Entry(v, found.fid), flags, limit);
    }
  }
}
