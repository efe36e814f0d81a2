/** Deleting a name's oldest versions, one after another. */
module Purging {
  import opened Wildcards
  import opened Directory
  import opened Disk
  import opened DirDisk
  import opened DirRoom
  import opened Contents
  import opened LinkCount
  import opened Volume
  import opened Operations
  import opened Tidiness
  import opened Deleting

  /** The files gone are gone, the others hold what they did, the other directories
      list what they did, and no space is lost. */
  ghost predicate Loses(v: nat, d: Disk, now: Disk, n: int, gone: set<Fid>) {
    && KeepsSpace(d, now)
    && (forall g :: Named(now, g) <==> Named(d, g) && g !in gone)
    && (forall g: Fid, c | g.num != n && g !in gone && Maps(d, g, c) :: Maps(now, g, c))
    && (forall m | m != n && IsDir(v, d, m) && Fid(m, d.live[m].seqno) !in gone ::
          IsDir(v, now, m) && DirBlocks(v, now, m) == DirBlocks(v, d, m))
  }

  lemma LosesNone(v: nat, d: Disk, n: int)
    ensures Loses(v, d, d, n, {})
  {
  }

  lemma LosesDrops(v: nat, d: Disk, now: Disk, n: int, f: Fid, last: bool)
    requires Drops(v, d, now, n, f, last) && Named(d, f)
    ensures Loses(v, d, now, n, if last then {f} else {})
  {
    hide KeepsSpace, Maps, DirBlocks, Vbn;
  }

  lemma LosesMore(v: nat, a: Disk, b: Disk, c: Disk, n: int, g1: set<Fid>, g2: set<Fid>)
    requires Loses(v, a, b, n, g1) && Loses(v, b, c, n, g2)
    ensures Loses(v, a, c, n, g1 + g2)
  {
    hide KeepsSpace, Maps, IsDir, DirBlocks;
    forall but | Conserved(a, but)
      ensures Conserved(c, but)
    {
      SpaceTwice(a, b, c, but);
    }
    SpaceIf(a, c);
    forall m | m != n && IsDir(v, a, m) && m in a.live && Fid(m, a.live[m].seqno) !in g1 + g2
      ensures IsDir(v, c, m) && DirBlocks(v, c, m) == DirBlocks(v, a, m)
    {
      DirSays(v, a, m);
      DirSays(v, b, m);
      assert Named(b, Fid(m, a.live[m].seqno));
    }
    forall m | m != n && IsDir(v, a, m)
      ensures m in a.live
    {
      DirSays(v, a, m);
    }
  }

  lemma SpaceTwice(a: Disk, b: Disk, c: Disk, but: set<nat>)
    requires KeepsSpace(a, b) && KeepsSpace(b, c) && Conserved(a, but)
    ensures Conserved(c, but)
  {
    hide Conserved;
  }

  lemma SpaceIf(a: Disk, c: Disk)
    requires forall but :: Conserved(a, but) ==> Conserved(c, but)
    ensures KeepsSpace(a, c)
  {
  }

  // ---------------------------------------------------------------------
  // The listing
  // ---------------------------------------------------------------------

  /** The versions with i of those past the first keep gone. */
  function Kept(es: seq<Entry>, keep: nat, i: nat): seq<Entry>
    requires keep + i <= |es|
  {
    es[..keep] + es[keep + i..]
  }

  lemma {:induction false} WithoutAt(a: seq<Entry>, e: Entry, b: seq<Entry>)
    requires forall x <- a :: x.version != e.version
    ensures Without(a + [e] + b, e.version) == a + b
  {
    var s := a + [e] + b;
    if a == [] {
      assert s == [e] + b && s[1..] == b;
    } else {
      assert s[0] == a[0] && s[1..] == a[1..] + [e] + b;
      WithoutAt(a[1..], e, b);
      assert [a[0]] + (a[1..] + b) == a + b;
    }
  }

  lemma KeptNext(es: seq<Entry>, keep: nat, i: nat)
    requires keep + i < |es| && Descending(es)
    ensures var e := es[keep + i];
      && Without(Kept(es, keep, i), e.version) == Kept(es, keep, i + 1)
      && e in Kept(es, keep, i) && Has(Kept(es, keep, i), e.version) && Descending(Kept(es, keep, i))
  {
    var e, s := es[keep + i], Kept(es, keep, i);
    assert es[keep + i..] == [e] + es[keep + i + 1..];
    assert s == es[..keep] + [e] + es[keep + i + 1..];
    WithoutAt(es[..keep], e, es[keep + i + 1..]);
    forall a, b | 0 <= a < b < |s|
      ensures s[a].version > s[b].version
    {
      var a', b' := if a < keep then a else a + i, if b < keep then b else b + i;
      assert s[a] == es[a'] && s[b] == es[b'];
    }
  }

  lemma KeptAt(es: seq<Entry>, keep: nat, i: nat)
    requires keep + i < |es|
    ensures |Kept(es, keep, i)| > keep && Kept(es, keep, i)[keep] == es[keep + i]
  {
  }

  lemma ListedOn(was: seq<Rec>, mid: seq<Rec>, now: seq<Rec>, name: seq<Char16>, es: seq<Entry>, version: int)
    requires Listed(was, mid, name, es) && Listed(mid, now, name, Without(Entries(mid, name), version))
    ensures Listed(was, now, name, Without(es, version))
  {
    hide Entries, Cmp, Sorted, Others, Leads;
  }

  // ---------------------------------------------------------------------
  // The versions, one after another
  // ---------------------------------------------------------------------

  datatype Purge = AllGone | Stopped | Dangles

  /** A version that cannot be deleted: its file is not, or there is no space for the
      directory without it. */
  ghost predicate StopsAt(v: nat, res: int, d: Disk, n: int, name: seq<Char16>, e: Entry)
    requires IsDir(v, d, n) && |name| <= MAX_NAME
  {
    Stays(v, res, d, e.fid) || Updated(v, LayoutOf(v, d, n), name, Remove(e.version)).None?
  }

  // It is the first of those past the limit that are left.
  ghost predicate StopsThere(v: nat, res: int, d: Disk, n: int, name: seq<Char16>, keep: nat)
    requires |name| <= MAX_NAME
  {
    IsDir(v, d, n) && var es := Entries(Flat(DirBlocks(v, d, n)), name);
      keep < |es| && StopsAt(v, res, d, n, name, es[keep])
  }

  // The files of the versions past the first keep, as far as the i-th.
  predicate Past(es: seq<Entry>, keep: nat, i: nat, f: Fid)
    requires keep + i <= |es|
  {
    exists k | keep <= k < keep + i :: es[k].fid == f
  }

  // The counts of the files that had no entry among them are as they were.
  ghost predicate OthersCount(d: Disk, now: Disk, es: seq<Entry>, keep: nat, i: nat)
    requires keep + i <= |es|
  {
    forall g | Named(d, g) && Named(now, g) && !Past(es, keep, i, g) ::
      now.live[g.num].back == d.live[g.num].back && now.live[g.num].links == d.live[g.num].links
  }

  // The files gone are those the headers said would go.
  ghost predicate WentWith(hard: bool, d: Disk, n: int, es: seq<Entry>, keep: nat, i: nat, gone: set<Fid>)
    requires keep + i <= |es| && n in d.live
  {
    && (forall g <- gone :: Past(es, keep, i, g))
    && (forall k | keep <= k < keep + i ::
          OnceIn(es, k) && es[k].fid.num in d.live && GoesWith(hard, d, n, es[k].fid) ==> es[k].fid in gone)
  }

  // The file has one entry of the list.
  predicate OnceIn(es: seq<Entry>, k: nat)
    requires k < |es|
  {
    forall j | 0 <= j < |es| && es[j].fid == es[k].fid :: j == k
  }

  /** The loop of purge, and of a create past the version limit: each version but
      the first keep is deleted, highest first, until one cannot be.  Where the
      volume counts entries nothing is left dangling. */
  method PurgePast(vol: Volume, n: int, name: seq<Char16>, es: seq<Entry>, keep: nat, erase: Fid -> bool)
    returns (r: Purge, i: nat, ghost gone: set<Fid>)
    requires vol.Inv() && Tidy(vol.v, vol.reserved, vol.d) && HeadsDir(vol.d, n) && |name| <= MAX_NAME
    requires es == Entries(Flat(DirBlocks(vol.v, vol.d, n)), name) && keep <= |es|
    modifies vol
    ensures vol.Shape() && old(vol.trace) <= vol.trace && OldDirs(old(vol.d), vol.d, None)
    ensures keep + i <= |es| && (r.AllGone? <==> !r.Dangles? && keep + i == |es|)
    ensures IsDir(vol.v, vol.d, n) && Loses(vol.v, old(vol.d), vol.d, n, gone)
    ensures Listed(Flat(DirBlocks(vol.v, old(vol.d), n)), Flat(DirBlocks(vol.v, vol.d, n)), name, Kept(es, keep, i))
    ensures WentWith(vol.hard, old(vol.d), n, es, keep, i, gone) && forall g <- gone :: g.num > vol.reserved
    ensures OthersCount(old(vol.d), vol.d, es, keep, i)
    ensures r.Stopped? && |DirBlocks(vol.v, old(vol.d), n)| == 1 ==>
      keep + i < |es| && Stays(vol.v, vol.reserved, vol.d, es[keep + i].fid)
    ensures r.Stopped? ==> StopsThere(vol.v, vol.reserved, vol.d, n, name, keep)
    ensures r.Dangles? <==> !Sound(vol.v, vol.d)
    ensures !r.Dangles? ==> vol.Inv() && Tidy(vol.v, vol.reserved, vol.d)
    ensures Covered(vol.v, vol.hard, old(vol.d)) ==> Covered(vol.v, vol.hard, vol.d) && !r.Dangles?
    ensures old(vol.Counted()) ==> vol.Counted()
  {
    hide Sound, Consistent, IsDir, DirBlocks, Flat, Entries, Descending, IsReadable, Listed, Without, Loses, Orderly,
         OldDirs, Neat, Covered, CountsDown, HeadsDir, Drops, OthersCount, WentWith, Has, Kept, Sole, GoesWith, Past,
         OnceIn, Stays, Updated;
    gone, i := {}, 0;
    ghost var d0 := vol.d;
    NoneNew(d0, None);
    TidySays(vol.v, vol.reserved, d0, n, name);
    DirOf(vol.v, d0, n);
    ghost var was := Flat(DirBlocks(vol.v, d0, n));
    DirSays(vol.v, d0, n);
    LosesNone(vol.v, d0, n);
    NonePurged(vol.hard, d0, n, was, name, es, keep);
    while keep + i < |es|
      invariant keep + i <= |es| && vol.Inv() && Tidy(vol.v, vol.reserved, vol.d) && HeadsDir(vol.d, n)
      invariant IsDir(vol.v, vol.d, n)
      invariant old(vol.trace) <= vol.trace && OldDirs(d0, vol.d, None) && Loses(vol.v, d0, vol.d, n, gone)
      invariant Listed(was, Flat(DirBlocks(vol.v, vol.d, n)), name, Kept(es, keep, i))
      invariant WentWith(vol.hard, d0, n, es, keep, i, gone) && (forall g <- gone :: g.num > vol.reserved)
      invariant OthersCount(d0, vol.d, es, keep, i)
      invariant old(vol.Counted()) ==> vol.Counted()
      invariant Covered(vol.v, vol.hard, d0) ==> Covered(vol.v, vol.hard, vol.d)
      invariant |DirBlocks(vol.v, d0, n)| == 1 ==> |DirBlocks(vol.v, vol.d, n)| == 1
    {
      ghost var d1 := vol.d;
      KeptNext(es, keep, i);
      ListedSays(was, Flat(DirBlocks(vol.v, d1, n)), name, Kept(es, keep, i));
      var e := Delete(vol, n, name, es[keep + i].version, erase);
      if !e.Deleted? {
        vol.SoundNow();
        if e.Reserved? || e.NotEmpty? { ThatStays(vol.v, vol.reserved, d1, Kept(es, keep, i), es[keep + i]); }
        KeptAt(es, keep, i);
        r := Stopped;
        return;
      }
      VersionOnce(Kept(es, keep, i), es[keep + i]);
      OldTrans(d0, d1, vol.d, None);
      LosesDrops(vol.v, d1, vol.d, n, e.fid, e.last);
      LosesMore(vol.v, d0, d1, vol.d, n, gone, if e.last then {e.fid} else {});
      ListedOn(was, Flat(DirBlocks(vol.v, d1, n)), Flat(DirBlocks(vol.v, vol.d, n)), name, Kept(es, keep, i),
               es[keep + i].version);
      DirSays(vol.v, d1, n);
      DropsNamed(vol.v, d1, vol.d, n, e.fid, e.last);
      PurgedNext(vol.v, vol.hard, d0, d1, n, es, keep, i, gone, e.last);
      CountsNext(vol.v, d0, d1, vol.d, n, es, keep, i, gone, if vol.hard && !e.last then 1 else 0);
      gone := gone + if e.last then {e.fid} else {};
      i := i + 1;
      DirHeads(vol.v, vol.d, n);
      if e.dangles {
        r := Dangles;
        return;
      }
    }
    vol.SoundNow();
    r := AllGone;
  }

  // The entry that is not deleted.
  lemma ThatStays(v: nat, res: int, d: Disk, es: seq<Entry>, e: Entry)
    requires Descending(es) && e in es && exists x <- es :: x.version == e.version && Stays(v, res, d, x.fid)
    ensures Stays(v, res, d, e.fid)
  {
    hide Stays, Descending;
    VersionOnce(es, e);
  }

  lemma DropsNamed(v: nat, d: Disk, now: Disk, n: int, f: Fid, last: bool)
    requires Drops(v, d, now, n, f, last)
    ensures forall g :: Named(now, g) ==> Named(d, g)
  {
    hide KeepsSpace, Maps, IsDir, DirBlocks, Named;
  }

  lemma ListedSays(was: seq<Rec>, now: seq<Rec>, name: seq<Char16>, es: seq<Entry>)
    requires Listed(was, now, name, es)
    ensures Entries(now, name) == es
  {
  }

  lemma NonePurged(hard: bool, d: Disk, n: int, recs: seq<Rec>, name: seq<Char16>, es: seq<Entry>, keep: nat)
    requires es == Entries(recs, name) && keep <= |es| && n in d.live && Sorted(recs)
    ensures Kept(es, keep, 0) == es && Listed(recs, recs, name, Kept(es, keep, 0))
    ensures WentWith(hard, d, n, es, keep, 0, {}) && OthersCount(d, d, es, keep, 0)
  {
    assert es[..keep] + es[keep..] == es;
  }

  lemma PurgedNext(v: nat, hard: bool, d: Disk, x: Disk, n: int, es: seq<Entry>, keep: nat, i: nat, gone: set<Fid>,
                   last: bool)
    requires keep + i < |es| && n in d.live && n in x.live && x.live[n].seg == 0 && Loses(v, d, x, n, gone)
    requires WentWith(hard, d, n, es, keep, i, gone) && OthersCount(d, x, es, keep, i)
    requires Named(x, es[keep + i].fid) && last == GoesWith(hard, x, n, es[keep + i].fid)
    ensures WentWith(hard, d, n, es, keep, i + 1, gone + if last then {es[keep + i].fid} else {})
  {
    hide KeepsSpace, Maps, IsDir, DirBlocks;
    var f := es[keep + i].fid;
    assert Named(x, Fid(n, x.live[n].seqno));
    assert Named(d, Fid(n, x.live[n].seqno));
    if OnceIn(es, keep + i) {
      assert !Past(es, keep, i, f);
      assert Named(d, f);
    }
    assert forall g | Past(es, keep, i, g) :: Past(es, keep, i + 1, g);
    assert Past(es, keep, i + 1, f);
  }

  lemma CountsNext(v: nat, d: Disk, x: Disk, now: Disk, n: int, es: seq<Entry>, keep: nat, i: nat, gone: set<Fid>,
                   less: nat)
    requires keep + i < |es| && Loses(v, d, x, n, gone) && OthersCount(d, x, es, keep, i)
    requires CountsDown(x, now, es[keep + i].fid, less)
    requires forall g :: Named(now, g) ==> Named(x, g)
    ensures OthersCount(d, now, es, keep, i + 1)
  {
    hide KeepsSpace, Maps, IsDir, DirBlocks;
    assert Past(es, keep, i + 1, es[keep + i].fid);
    forall g | Named(d, g) && Named(now, g) && !Past(es, keep, i + 1, g)
      ensures now.live[g.num].back == d.live[g.num].back && now.live[g.num].links == d.live[g.num].links
    {
      assert !Past(es, keep, i, g);
      assert Named(x, g);
    }
  }

  /** purge: all but the highest versions of the name, of which one at least stays. */
  method PurgeName(vol: Volume, n: int, name: seq<Char16>, keep: nat, erase: Fid -> bool)
    returns (r: Purge, ghost gone: set<Fid>)
    requires vol.Inv() && Tidy(vol.v, vol.reserved, vol.d) && HeadsDir(vol.d, n) && |name| <= MAX_NAME
    modifies vol
    ensures vol.Shape() && old(vol.trace) <= vol.trace && OldDirs(old(vol.d), vol.d, None)
    ensures IsDir(vol.v, vol.d, n) && Loses(vol.v, old(vol.d), vol.d, n, gone)
    ensures forall g <- gone :: g.num > vol.reserved
    ensures r.AllGone? ==> var was := Flat(DirBlocks(vol.v, old(vol.d), n));
      Listed(was, Flat(DirBlocks(vol.v, vol.d, n)), name, First(Entries(was, name), Max(keep, 1)))
    ensures r.Stopped? ==> StopsThere(vol.v, vol.reserved, vol.d, n, name, Max(keep, 1))
    ensures r.Dangles? <==> !Sound(vol.v, vol.d)
    ensures !r.Dangles? ==> vol.Inv() && Tidy(vol.v, vol.reserved, vol.d)
    ensures Covered(vol.v, vol.hard, old(vol.d)) ==> Covered(vol.v, vol.hard, vol.d) && !r.Dangles?
    ensures old(vol.Counted()) ==> vol.Counted()
  {
    hide Sound, Consistent, IsDir, DirBlocks, Flat, Entries, Listed, Loses, Orderly, OldDirs, HeadsDir, WentWith,
         OthersCount, Kept, Covered, StopsThere;
    TidySays(vol.v, vol.reserved, vol.d, n, name);
    DirOf(vol.v, vol.d, n);
    var bs := vol.ReadDir(n);
    var es := Entries(Flat(bs), name);
    var k := if Max(keep, 1) < |es| then Max(keep, 1) else |es|;
    var i: nat;
    r, i, gone := PurgePast(vol, n, name, es, k, erase);
    if r.AllGone? { KeptAll(es, k); }
  }

  function Max(a: nat, b: nat): nat { if a < b then b else a }

  /** The first k, or all of them. */
  function First(es: seq<Entry>, k: nat): seq<Entry> { if k < |es| then es[..k] else es }

  lemma KeptAll(es: seq<Entry>, keep: nat)
    requires keep <= |es|
    ensures Kept(es, keep, |es| - keep) == es[..keep] && es[..|es|] == es
  {
  }
}
