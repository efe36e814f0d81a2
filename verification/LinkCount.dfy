/** Where the entries for a file are, on the whole volume, and the link count
    that is to cover them. */
module LinkCount {
  import opened Wildcards
  import opened Directory
  import opened Disk
  import opened DirDisk
  import E = Extension

  // ---------------------------------------------------------------------
  // Names, whatever their case
  // ---------------------------------------------------------------------

  function Fold(name: seq<Char16>): seq<Char16> {
    seq(|name|, i requires 0 <= i < |name| => Upcase(name[i]))
  }

  lemma {:induction false} CmpFold(a: seq<Char16>, b: seq<Char16>)
    ensures Cmp(a, b) == 0 <==> Fold(a) == Fold(b)
  {
    if a == [] || b == [] {
      assert |Fold(a)| == |a| && |Fold(b)| == |b|;
    } else {
      CmpFold(a[1..], b[1..]);
      assert Fold(a) == [Upcase(a[0])] + Fold(a[1..]);
      assert Fold(b) == [Upcase(b[0])] + Fold(b[1..]);
      assert Fold(a)[1..] == Fold(a[1..]) && Fold(b)[1..] == Fold(b[1..]);
    }
  }

  // ---------------------------------------------------------------------
  // Places
  // ---------------------------------------------------------------------

  /** A directory, a name in it and one of its versions. */
  datatype Place = Place(dir: int, name: seq<Char16>, version: int)

  /** The entry there is for the file. */
  ghost predicate EntryThere(v: nat, d: Disk, p: Place, f: Fid) {
    exists n, r ::
      Lists(v, d, n, r) && n in d.live && d.live[n].file.num == p.dir && Fold(r.name) == p.name
      && Entry(p.version, f) in r.entries
  }

  // What a block has for the file, the block being of directory n.
  function PlacesIn(recs: seq<Rec>, n: int, f: Fid): set<Place> {
    set k, x | 0 <= k < |recs| && 0 <= x < |recs[k].entries| && recs[k].entries[x].fid == f ::
      Place(n, Fold(recs[k].name), recs[k].entries[x].version)
  }

  /** All the places on the volume that have an entry for the file. */
  function Places(v: nat, d: Disk, f: Fid): set<Place> {
    set n, i, j, p | n in d.live && 0 <= i < |d.live[n].at| && 0 <= j < v && Uses(v, d, n, i, j)
                     && p in PlacesIn(BlockAt(d, n, i, j).recs, d.live[n].file.num, f) :: p
  }

  lemma PlacesInAre(recs: seq<Rec>, n: int, f: Fid, p: Place)
    ensures p in PlacesIn(recs, n, f) <==>
      p.dir == n && exists r <- recs :: Fold(r.name) == p.name && Entry(p.version, f) in r.entries
  {
    hide Fold;
    if p.dir == n && exists r <- recs :: Fold(r.name) == p.name && Entry(p.version, f) in r.entries {
      var r :| r in recs && Fold(r.name) == p.name && Entry(p.version, f) in r.entries;
      var k :| 0 <= k < |recs| && recs[k] == r;
      var x :| 0 <= x < |r.entries| && r.entries[x] == Entry(p.version, f);
      assert recs[k].entries[x].fid == f;
    }
  }

  lemma InPlaces(v: nat, d: Disk, f: Fid, p: Place)
    ensures p in Places(v, d, f) <==> EntryThere(v, d, p, f)
  {
    hide Fold, Vbn, PlacesIn;
    if p in Places(v, d, f) {
      var n, i, j :| n in d.live && 0 <= i < |d.live[n].at| && 0 <= j < v && Uses(v, d, n, i, j)
        && p in PlacesIn(BlockAt(d, n, i, j).recs, d.live[n].file.num, f);
      PlacesInAre(BlockAt(d, n, i, j).recs, d.live[n].file.num, f, p);
      var r :| r in BlockAt(d, n, i, j).recs && Fold(r.name) == p.name && Entry(p.version, f) in r.entries;
      assert Lists(v, d, n, r);
    }
    if EntryThere(v, d, p, f) {
      var n, r :| Lists(v, d, n, r) && n in d.live && d.live[n].file.num == p.dir && Fold(r.name) == p.name
        && Entry(p.version, f) in r.entries;
      var i: nat, j: nat :| Uses(v, d, n, i, j) && r in BlockAt(d, n, i, j).recs;
      PlacesInAre(BlockAt(d, n, i, j).recs, d.live[n].file.num, f, p);
    }
  }

  lemma {:induction false} NoMore<T>(a: set<T>, b: set<T>)
    requires a <= b
    ensures |a| <= |b|
  {
    if a != {} {
      var x :| x in a;
      NoMore(a - {x}, b - {x});
    }
  }

  // ---------------------------------------------------------------------
  // The link count covers the entries
  // ---------------------------------------------------------------------

  /** How many entries the code reckons a file with this header has: what the count
      says, or one where the volume does not count them. */
  function Reckoned(hard: bool, h: Header): nat { if hard then h.links else 1 }

  /** No file has more entries than that. */
  ghost predicate Covered(v: nat, hard: bool, d: Disk) {
    forall f | Named(d, f) :: |Places(v, d, f)| <= Reckoned(hard, d.live[f.num])
  }

  lemma CalmPlaces(v: nat, d: Disk, now: Disk, f: Fid)
    requires forall n, r | Lists(v, now, n, r) ::
      Lists(v, d, n, r) && n in now.live && n in d.live && now.live[n].file == d.live[n].file
    ensures Places(v, now, f) <= Places(v, d, f)
  {
    hide Lists, Places, Fold;
    forall p | p in Places(v, now, f)
      ensures p in Places(v, d, f)
    {
      InPlaces(v, now, f, p);
      InPlaces(v, d, f, p);
      var n, r :| Lists(v, now, n, r) && n in now.live && now.live[n].file.num == p.dir && Fold(r.name) == p.name
        && Entry(p.version, f) in r.entries;
      assert Lists(v, d, n, r);
    }
  }

  /** So it stays while nothing is listed anew and no count goes down. */
  lemma CalmCovered(v: nat, hard: bool, d: Disk, now: Disk)
    requires Covered(v, hard, d) && Calm(v, d, now)
    ensures Covered(v, hard, now)
  {
    hide Lists, Places;
    forall f | Named(now, f)
      ensures |Places(v, now, f)| <= Reckoned(hard, now.live[f.num])
    {
      CalmPlaces(v, d, now, f);
      NoMore(Places(v, now, f), Places(v, d, f));
      assert Named(d, f);
    }
  }

  /** The same with a file more that nothing lists. */
  lemma NewCovered(v: nat, hard: bool, d: Disk, now: Disk, f: Fid)
    requires Covered(v, hard, d)
    requires forall g :: Named(now, g) ==> g == f || (Named(d, g) && now.live[g.num].links >= d.live[g.num].links)
    requires forall n, r | Lists(v, now, n, r) ::
      Lists(v, d, n, r) && n in now.live && n in d.live && now.live[n].file == d.live[n].file
    requires Unlisted(v, now, f)
    ensures Covered(v, hard, now)
  {
    hide Lists, Places, Unlisted;
    forall g | Named(now, g)
      ensures |Places(v, now, g)| <= Reckoned(hard, now.live[g.num])
    {
      if g == f {
        UnlistedNowhere(v, now, f);
      } else {
        CalmPlaces(v, d, now, g);
        NoMore(Places(v, now, g), Places(v, d, g));
      }
    }
  }

  lemma UnlistedNowhere(v: nat, d: Disk, f: Fid)
    ensures Unlisted(v, d, f) <==> Places(v, d, f) == {}
  {
    hide Vbn, Fold, Places, BlockAt;
    if Unlisted(v, d, f) {
      forall p
        ensures p !in Places(v, d, f)
      {
        InPlaces(v, d, f, p);
      }
    }
    if Places(v, d, f) == {} {
      forall n, r | Lists(v, d, n, r)
        ensures !NamesFile(r, f)
      {
        ListsLive(v, d, n, r);
        forall e | e in r.entries
          ensures e.fid != f
        {
          var p := Place(d.live[n].file.num, Fold(r.name), e.version);
          InPlaces(v, d, f, p);
          assert e.fid == f ==> e == Entry(p.version, f);
        }
      }
      UnlistedIf(v, d, f);
    }
  }

  // ---------------------------------------------------------------------
  // Writes that list nothing anew
  // ---------------------------------------------------------------------

  lemma CoveredSame(v: nat, hard: bool, d: Disk, now: Disk)
    requires Covered(v, hard, d) && now.live == d.live && now.data == d.data
    ensures Covered(v, hard, now)
  {
    hide Covered, Calm;
    CalmSame(v, d, now);
    CalmCovered(v, hard, d, now);
  }

  // Headers that are gone, or map less of what they did.
  lemma FewerCalm(v: nat, d: Disk, now: Disk)
    requires now.data == d.data && forall n <- now.live ::
      && n in d.live && SameIdentity(d.live[n], now.live[n]) && now.live[n].links == d.live[n].links
      && now.live[n].at <= d.live[n].at && now.live[n].eof <= d.live[n].eof
    ensures Calm(v, d, now)
  {
    hide Vbn;
    forall n, r | Lists(v, now, n, r)
      ensures Lists(v, d, n, r) && n in now.live && n in d.live && now.live[n].file == d.live[n].file
    {
      var i: nat, j: nat :| Uses(v, now, n, i, j) && r in BlockAt(now, n, i, j).recs;
      assert Uses(v, d, n, i, j) && BlockAt(d, n, i, j) == BlockAt(now, n, i, j);
    }
  }

  lemma ErasedCalm(v: nat, d: Disk, c: nat, j: nat)
    ensures Calm(v, d, Put(d, c, j, Block([], 0)))
  {
    hide Vbn;
    var now := Put(d, c, j, Block([], 0));
    forall n, r | Lists(v, now, n, r)
      ensures Lists(v, d, n, r) && n in now.live
    {
      var i: nat, k: nat :| Uses(v, now, n, i, k) && r in BlockAt(now, n, i, k).recs;
      assert Uses(v, d, n, i, k) && BlockAt(d, n, i, k) == BlockAt(now, n, i, k);
    }
  }

  // An extension header goes on: none of its blocks is in use.
  lemma ExtCalm(v: nat, d: Disk, p: E.Plan, i: nat)
    requires E.Ready(v, d, p) && i < |p.chunks| == |p.ids| && p.last in d.live
    ensures Calm(v, E.WithExts(d, p, i + 1), E.WithExts(d, p, i))
  {
    hide Vbn, E.Ready, E.WithExts, E.ExtHeader;
    var x, now, n := E.WithExts(d, p, i + 1), E.WithExts(d, p, i), p.ids[i].num;
    E.ExtStep(d, p, i);
    E.ExtUnused(v, d, p, i);
    ExtIsNew(v, d, p, i);
    forall m, r | Lists(v, now, m, r)
      ensures Lists(v, x, m, r) && m in now.live && m in x.live && now.live[m].file == x.live[m].file
    {
      var k: nat, j: nat :| Uses(v, now, m, k, j) && r in BlockAt(now, m, k, j).recs;
      assert m != n;
      UsesWithout(v, x, n, now.live[n], m, k, j);
    }
  }

  lemma ExtIsNew(v: nat, d: Disk, p: E.Plan, i: nat)
    requires E.Ready(v, d, p) && i < |p.chunks| == |p.ids| && p.last in d.live
    ensures p.ids[i].num !in E.WithExts(d, p, i + 1).live && E.ExtHeader(d, p, i).seg > 0
  {
    hide E.Concat, E.Total, Consistent, E.Fresh, E.WithExts;
    E.ExtsAre(d, p, i + 1);
    E.ExtNew(v, d, p, i, p.last);
  }

  lemma UsesWithout(v: nat, d: Disk, n: int, h: Header, m: int, k: nat, j: nat)
    requires n !in d.live && h.seg > 0 && m != n && Uses(v, d.(live := d.live[n := h]), m, k, j)
    ensures Uses(v, d, m, k, j) && BlockAt(d, m, k, j) == BlockAt(d.(live := d.live[n := h]), m, k, j)
  {
    hide Vbn;
  }

  // The last header maps more, past the end of file of a directory.
  lemma LongerCalm(v: nat, d: Disk, n: int, more: seq<nat>, link: Option<Fid>)
    requires n in d.live && EndsWithin(v, d, d.live[n])
    ensures Calm(v, d, d.(live := d.live[n := d.live[n].(at := d.live[n].at + more, ext := link)]))
  {
    hide Vbn;
    var h := d.live[n];
    var now := d.(live := d.live[n := h.(at := h.at + more, ext := link)]);
    forall m, r | Lists(v, now, m, r)
      ensures Lists(v, d, m, r) && m in now.live && m in d.live && now.live[m].file == d.live[m].file
    {
      var i: nat, j: nat :| Uses(v, now, m, i, j) && r in BlockAt(now, m, i, j).recs;
      if m == n && i >= |h.at| {
        VbnPast(v, h.base + |h.at|, h.base + i, j);
      }
      assert Uses(v, d, m, i, j) && BlockAt(d, m, i, j) == BlockAt(now, m, i, j);
    }
  }

  lemma AppendedCalm(v: nat, d: Disk, p: E.Plan)
    requires E.Ready(v, d, p) && p.last in d.live && |p.chunks| == |p.ids|
    ensures Calm(v, E.WithExts(d, p, 0), E.Appended(d, p))
  {
    hide Sound, Vbn, E.Fresh, E.WithExts, E.Concat, OneLink, Numbered, AllTyped, E.Appended, Calm, E.ExtHeader;
    E.ExtsAre(d, p, 0);
    E.AppendedStep(d, p);
    assert EndsWithin(v, d, d.live[p.last]);
    LongerCalm(v, E.WithExts(d, p, 0), p.last, p.first, E.LinkAt(p, 0));
  }
}
