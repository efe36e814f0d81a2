/** Appending clusters to a file's map, where they may need more headers: the
    new headers go on the disk last to first, each linking to one already
    there, and the file's last header links to them in the end. */
module Extension {
  import opened Disk
  import opened Directory

  /** What is appended: the clusters the file's last header takes, those of
      each new header, and the new headers' IDs. */
  datatype Plan = Plan(f: Fid, last: int, first: seq<nat>, chunks: seq<seq<nat>>, ids: seq<Fid>)

  function Concat(cs: seq<seq<nat>>): seq<nat> {
    if cs == [] then [] else cs[0] + Concat(cs[1..])
  }

  function Total(cs: seq<seq<nat>>, i: nat): nat
    requires i <= |cs|
  {
    if i == 0 then 0 else Total(cs, i - 1) + |cs[i - 1]|
  }

  // Where the i-th new header is linked on to.
  function LinkAt(p: Plan, i: nat): Option<Fid> {
    if i < |p.ids| then Some(p.ids[i]) else None
  }

  function ExtHeader(d: Disk, p: Plan, i: nat): Header
    requires p.last in d.live && i < |p.chunks| == |p.ids|
  {
    var l := d.live[p.last];
    Header(p.ids[i].seqno, l.seg + 1 + i, p.f, l.base + |l.at| + |p.first| + Total(p.chunks, i), p.chunks[i],
           LinkAt(p, i + 1), l.dir, 0, p.f, 0)
  }

  /** The disk with the new headers from the i-th on. */
  function WithExts(d: Disk, p: Plan, i: nat): Disk
    requires p.last in d.live && i <= |p.chunks| == |p.ids|
    decreases |p.chunks| - i
  {
    if i == |p.chunks| then d
    else var x := WithExts(d, p, i + 1); x.(live := x.live[p.ids[i].num := ExtHeader(d, p, i)])
  }

  /** And with the file's last header. */
  function Appended(d: Disk, p: Plan): Disk
    requires p.last in d.live && |p.chunks| == |p.ids|
  {
    var x := WithExts(d, p, 0);
    x.(live := x.live[p.last := d.live[p.last].(at := d.live[p.last].at + p.first, ext := LinkAt(p, 0))])
  }

  // Allocated clusters that no header maps yet, each once.
  ghost predicate Fresh(d: Disk, cs: seq<nat>) {
    Distinct(cs) && forall c <- cs :: c < |d.bits| && !d.bits[c] && !Owned(d, c)
  }

  ghost predicate Ready(v: nat, d: Disk, p: Plan) {
    && Consistent(v, d) && p.last in d.live && d.live[p.last].file == p.f && d.live[p.last].ext.None? && Named(d, p.f)
    && |p.ids| == |p.chunks| && Fresh(d, p.first + Concat(p.chunks))
    && (forall i | 0 <= i < |p.ids| ::
          p.ids[i].num !in d.live && p.ids[i].num in d.used && 0 < p.ids[i].num < d.indexEof)
    && (forall i, j | 0 <= i < j < |p.ids| :: p.ids[i].num != p.ids[j].num)
  }

  // ---------------------------------------------------------------------
  // What the new headers are
  // ---------------------------------------------------------------------

  lemma {:induction false} ExtsAre(d: Disk, p: Plan, i: nat)
    requires p.last in d.live && i <= |p.chunks| == |p.ids|
    requires forall k | 0 <= k < |p.ids| :: p.ids[k].num !in d.live
    requires forall k, l | 0 <= k < l < |p.ids| :: p.ids[k].num != p.ids[l].num
    ensures var x := WithExts(d, p, i);
      && x.bits == d.bits && x.data == d.data && x.used == d.used && x.indexEof == d.indexEof && x.dead == d.dead
      && (forall n <- d.live :: n in x.live && x.live[n] == d.live[n])
      && (forall k | i <= k < |p.ids| :: p.ids[k].num in x.live && x.live[p.ids[k].num] == ExtHeader(d, p, k))
      && (forall n <- x.live :: n in d.live || exists k :: i <= k < |p.ids| && p.ids[k].num == n)
    decreases |p.chunks| - i
  {
    hide ExtHeader;
    if i < |p.chunks| {
      ExtsAre(d, p, i + 1);
      var x, y := WithExts(d, p, i + 1), WithExts(d, p, i);
      forall n | n in y.live
        ensures n in d.live || exists k :: i <= k < |p.ids| && p.ids[k].num == n
      {
        if n == p.ids[i].num {
        } else {
          assert n in x.live;
        }
      }
    }
  }

  lemma {:induction false} InConcat(cs: seq<seq<nat>>, i: nat, c: nat)
    requires i < |cs| && c in cs[i]
    ensures c in Concat(cs)
  {
    if i > 0 { InConcat(cs[1..], i - 1, c); }
  }

  lemma {:induction false} ChunksApart(cs: seq<seq<nat>>, i: nat, j: nat)
    requires i < |cs| && j < |cs| && Distinct(Concat(cs))
    ensures Distinct(cs[i]) && (i != j ==> Apart(cs[i], cs[j]))
  {
    ConcatRest(cs);
    if i > 0 && j > 0 {
      ChunksApart(cs[1..], i - 1, j - 1);
    } else {
      if i > 0 { ChunksApart(cs[1..], i - 1, i - 1); }
      if i != j {
        forall c | c in cs[i]
          ensures c !in cs[j]
        {
          if c in cs[j] {
            InConcat(cs[1..], if i > 0 then i - 1 else j - 1, c);
          }
        }
      }
    }
  }

  lemma ConcatRest(cs: seq<seq<nat>>)
    requires cs != [] && Distinct(Concat(cs))
    ensures Distinct(cs[0]) && Distinct(Concat(cs[1..])) && Apart(cs[0], Concat(cs[1..]))
  {
    SplitDistinct(cs[0], Concat(cs[1..]));
  }

  // ---------------------------------------------------------------------
  // Each write in turn
  // ---------------------------------------------------------------------

  lemma FreshParts(d: Disk, p: Plan, i: nat)
    requires Fresh(d, p.first + Concat(p.chunks)) && i < |p.chunks|
    ensures Fresh(d, p.chunks[i]) && Apart(p.first, p.chunks[i])
    ensures forall k | 0 <= k < |p.chunks| && k != i :: Apart(p.chunks[i], p.chunks[k])
  {
    hide Concat;
    SplitDistinct(p.first, Concat(p.chunks));
    forall c | c in p.chunks[i]
      ensures c in Concat(p.chunks)
    {
      InConcat(p.chunks, i, c);
    }
    ChunksApart(p.chunks, i, i);
    forall k | 0 <= k < |p.chunks| && k != i
      ensures Apart(p.chunks[i], p.chunks[k])
    {
      ChunksApart(p.chunks, i, k);
    }
  }

  lemma UnownedApart(d: Disk, cs: seq<nat>, n: int)
    requires n in d.live && forall c <- cs :: !Owned(d, c)
    ensures Apart(cs, d.live[n].at)
  {
  }

  // The i-th new header's clusters are no other header's.
  lemma ExtFits(v: nat, d: Disk, p: Plan, i: nat)
    requires Ready(v, d, p) && i < |p.chunks|
    ensures Fits(WithExts(d, p, i + 1), p.ids[i].num, ExtHeader(d, p, i))
  {
    hide Concat, Consistent, Fresh, Apart, Distinct, WithExts, Total, Owned;
    ExtsAre(d, p, i + 1);
    FreshParts(d, p, i);
    FreshSays(d, p.chunks[i]);
    var x, h := WithExts(d, p, i + 1), ExtHeader(d, p, i);
    forall m | m in x.live && m != p.ids[i].num
      ensures Apart(h.at, x.live[m].at)
    {
      if m in d.live {
        UnownedApart(d, h.at, m);
      } else {
        var k :| i + 1 <= k < |p.ids| && p.ids[k].num == m;
      }
    }
  }

  lemma FreshSays(d: Disk, cs: seq<nat>)
    requires Fresh(d, cs)
    ensures Distinct(cs) && forall c <- cs :: c < |d.bits| && !d.bits[c] && !Owned(d, c)
  {
  }

  lemma TotalNext(cs: seq<seq<nat>>, i: nat)
    requires i < |cs|
    ensures Total(cs, i + 1) == Total(cs, i) + |cs[i]|
  {
  }

  lemma ExtLinked(v: nat, d: Disk, p: Plan, i: nat)
    requires Ready(v, d, p) && i < |p.chunks|
    ensures Linked(WithExts(d, p, i + 1), ExtHeader(d, p, i))
  {
    hide Concat, Consistent, Fresh, WithExts, Total;
    ExtsAre(d, p, i + 1);
    TotalNext(p.chunks, i);
  }

  // Its clusters come after the directory's end of file, where it is one's.
  lemma ExtUnused(v: nat, d: Disk, p: Plan, i: nat)
    requires Ready(v, d, p) && i < |p.chunks|
    ensures forall k: nat, j: nat :: !Uses(v, WithExts(d, p, i), p.ids[i].num, k, j)
  {
    hide Concat, Sound, OneLink, Numbered, AllTyped, Fresh, WithExts, Total, Vbn, Uses;
    ExtsAre(d, p, i);
    var x, l := WithExts(d, p, i), d.live[p.last];
    assert EndsWithin(v, d, l);
    forall k: nat, j: nat
      ensures !Uses(v, x, p.ids[i].num, k, j)
    {
      PastEnd(v, x, p.ids[i].num, l.base + |l.at|, k, j);
    }
  }

  // A block past the end of a directory is none of its.
  lemma PastEnd(v: nat, d: Disk, n: int, k0: nat, k: nat, j: nat)
    requires n in d.live && k0 <= d.live[n].base
    requires Named(d, d.live[n].file) && d.live[d.live[n].file.num].dir ==>
      d.live[d.live[n].file.num].eof <= Vbn(v, k0, 0)
    ensures !Uses(v, d, n, k, j)
  {
    hide Vbn;
    VbnPast(v, k0, d.live[n].base + k, j);
  }

  // Nothing was the new header's before.
  lemma ExtNew(v: nat, d: Disk, p: Plan, i: nat, m: int)
    requires Ready(v, d, p) && i < |p.chunks| && m in WithExts(d, p, i + 1).live
    ensures WithExts(d, p, i + 1).live[m].file != Fid(p.ids[i].num, p.ids[i].seqno)
    ensures p.ids[i].num !in WithExts(d, p, i + 1).live
  {
    hide Concat, Sound, OneLink, Numbered, Ended, Fresh, WithExts, Total;
    ExtsAre(d, p, i + 1);
    if m in d.live {
      assert Typed(d, m);
    } else {
      var k :| i + 1 <= k < |p.ids| && p.ids[k].num == m;
    }
  }

  /** A new header goes on the disk before anything links to it. */
  lemma ExtSound(v: nat, d: Disk, p: Plan, i: nat)
    requires Ready(v, d, p) && i < |p.chunks| && Sound(v, WithExts(d, p, i + 1))
    ensures Sound(v, WithExts(d, p, i))
  {
    hide Sound, Consistent, Fresh, ExtHeader, Uses, Fits, Linked, Ready;
    ReadySays(v, d, p);
    var x, h, n := WithExts(d, p, i + 1), ExtHeader(d, p, i), p.ids[i].num;
    ExtFits(v, d, p, i);
    ExtLinked(v, d, p, i);
    forall m | m in x.live
      ensures x.live[m].file != Fid(n, h.seqno)
    {
      ExtNew(v, d, p, i, m);
      ExtSeqno(d, p, i);
    }
    ExtsAre(d, p, i + 1);
    ExtNew(v, d, p, i, p.last);
    ExtUnused(v, d, p, i);
    assert WithExts(d, p, i) == x.(live := x.live[n := h]);
    HeaderAdded(v, x, n, h);
  }

  lemma ExtSeqno(d: Disk, p: Plan, i: nat)
    requires p.last in d.live && i < |p.chunks| == |p.ids|
    ensures ExtHeader(d, p, i).seqno == p.ids[i].seqno
  {
  }

  lemma ReadySays(v: nat, d: Disk, p: Plan)
    requires Ready(v, d, p)
    ensures p.last in d.live && |p.ids| == |p.chunks| && Consistent(v, d) && Named(d, p.f)
    ensures forall k | 0 <= k < |p.ids| :: p.ids[k].num !in d.live
    ensures forall k, l | 0 <= k < l < |p.ids| :: p.ids[k].num != p.ids[l].num
  {
  }

  lemma ReadyLens(v: nat, d: Disk, p: Plan)
    requires Ready(v, d, p)
    ensures p.last in d.live && |p.ids| == |p.chunks| && Named(d, p.f)
  {
  }

  // ---------------------------------------------------------------------
  // The last write
  // ---------------------------------------------------------------------

  lemma FirstFresh(d: Disk, p: Plan)
    requires Fresh(d, p.first + Concat(p.chunks))
    ensures Fresh(d, p.first)
  {
    hide Concat;
    SplitDistinct(p.first, Concat(p.chunks));
  }

  lemma LastFits(v: nat, d: Disk, p: Plan)
    requires Ready(v, d, p)
    ensures Fits(WithExts(d, p, 0), p.last, d.live[p.last].(at := d.live[p.last].at + p.first, ext := LinkAt(p, 0)))
  {
    hide Concat, Fresh, Apart, Distinct, WithExts, Total, Shown, Links, OneLink, Numbered, AllTyped, Ended, Owned;
    ExtsAre(d, p, 0);
    FirstFresh(d, p);
    FreshSays(d, p.first);
    var x, l := WithExts(d, p, 0), d.live[p.last];
    UnownedApart(d, p.first, p.last);
    ApartSymmetric(p.first, l.at);
    JoinDistinct(l.at, p.first);
    assert Allocated(d, l);
    forall m | m in x.live && m != p.last
      ensures Apart(l.at + p.first, x.live[m].at)
    {
      if m in d.live {
        UnownedApart(d, p.first, m);
        JoinApart(l.at, p.first, x.live[m].at);
      } else {
        var k :| 0 <= k < |p.ids| && p.ids[k].num == m;
        FreshParts(d, p, k);
        FreshSays(d, p.chunks[k]);
        UnownedApart(d, p.chunks[k], p.last);
        ApartSymmetric(p.chunks[k], l.at);
        JoinApart(l.at, p.first, p.chunks[k]);
      }
    }
  }

  lemma JoinApart(a: seq<nat>, b: seq<nat>, c: seq<nat>)
    requires Apart(a, c) && Apart(b, c)
    ensures Apart(a + b, c)
  {
  }

  /** The file's last header takes its part and links to the rest. */
  lemma AppendedSound(v: nat, d: Disk, p: Plan)
    requires Ready(v, d, p) && Sound(v, WithExts(d, p, 0))
    ensures Sound(v, Appended(d, p))
  {
    hide Sound, Fresh, WithExts, Fits, Vbn, Concat, OneLink, Numbered, AllTyped;
    ExtsAre(d, p, 0);
    LastFits(v, d, p);
    var x := WithExts(d, p, 0);
    assert EndsWithin(v, d, d.live[p.last]);
    HeaderExtended(v, x, p.last, p.first, LinkAt(p, 0));
  }

  // ---------------------------------------------------------------------
  // The file afterwards
  // ---------------------------------------------------------------------

  lemma AppendedIs(v: nat, d: Disk, p: Plan)
    requires Ready(v, d, p)
    ensures var y, l := Appended(d, p), d.live[p.last];
      && y.bits == d.bits && y.data == d.data && y.used == d.used && y.indexEof == d.indexEof && y.dead == d.dead
      && (forall n <- d.live | n != p.last :: n in y.live && y.live[n] == d.live[n])
      && p.last in y.live && y.live[p.last] == l.(at := l.at + p.first, ext := LinkAt(p, 0))
      && (forall k | 0 <= k < |p.ids| :: p.ids[k].num in y.live && y.live[p.ids[k].num] == ExtHeader(d, p, k))
      && (forall n <- y.live :: n in d.live || exists k :: 0 <= k < |p.ids| && p.ids[k].num == n)
  {
    hide Consistent, Fresh, WithExts, Concat, Total, ExtHeader, LinkAt;
    ExtsAre(d, p, 0);
  }

  lemma AppendedNames(v: nat, d: Disk, p: Plan, g: Fid)
    requires Ready(v, d, p)
    ensures Named(Appended(d, p), g) <==> Named(d, g)
  {
    hide Consistent, Fresh, WithExts, Concat, Total, Appended;
    AppendedIs(v, d, p);
    if g.num in Appended(d, p).live && g.num !in d.live {
      var k :| 0 <= k < |p.ids| && p.ids[k].num == g.num;
    }
  }

  lemma AppendedLinks(v: nat, d: Disk, p: Plan, q: int, n: int)
    requires Ready(v, d, p)
    ensures LinksTo(Appended(d, p), q, n) <==>
      || (q != p.last && LinksTo(d, q, n))
      || (q == p.last && p.ids != [] && n == p.ids[0].num)
      || (exists k :: 0 <= k < |p.ids| - 1 && p.ids[k].num == q && p.ids[k + 1].num == n)
  {
    hide Consistent, Fresh, WithExts, Concat, Total, Appended;
    AppendedIs(v, d, p);
    if q in Appended(d, p).live && q !in d.live {
      var k :| 0 <= k < |p.ids| && p.ids[k].num == q;
      if LinksTo(Appended(d, p), q, n) {
        assert k < |p.ids| - 1 && p.ids[k + 1].num == n;
      }
    }
  }

  lemma AppendedLinksOnce(v: nat, d: Disk, p: Plan, a: int, b: int, n: int)
    requires Ready(v, d, p) && LinksTo(Appended(d, p), a, n) && LinksTo(Appended(d, p), b, n)
    ensures a == b
  {
    hide Fresh, WithExts, Concat, Total, Appended, Shown, Held, Disjoint, Ended, AllTyped, Numbered, LinksTo, Linked,
         ExtHeader;
    AppendedLinks(v, d, p, a, n);
    AppendedLinks(v, d, p, b, n);
    OldTarget(d, a, n);
    OldTarget(d, b, n);
  }

  lemma AppendedLinked(v: nat, d: Disk, p: Plan, n: int)
    requires Ready(v, d, p) && n in Appended(d, p).live && Appended(d, p).live[n].seg > 0
    ensures exists q :: LinksTo(Appended(d, p), q, n)
  {
    hide Fresh, WithExts, Concat, Total, Appended, Sound, Ended, AllTyped, Numbered, LinksTo, ExtHeader, OneLink;
    AppendedIs(v, d, p);
    var y := Appended(d, p);
    if n in d.live {
      assert y.live[n].seg == d.live[n].seg;
      LinkExists(d, n);
      var q :| LinksTo(d, q, n);
      NotLast(d, q, n, p.last);
      AppendedLinks(v, d, p, q, n);
      assert LinksTo(y, q, n);
    } else {
      var k :| 0 <= k < |p.ids| && p.ids[k].num == n;
      var q := if k == 0 then p.last else p.ids[k - 1].num;
      if k > 0 { assert p.ids[k - 1].num == q && p.ids[k - 1 + 1].num == n; }
      AppendedLinks(v, d, p, q, n);
      assert LinksTo(y, q, n);
    }
  }

  lemma LinkExists(d: Disk, n: int)
    requires OneLink(d) && n in d.live && d.live[n].seg > 0
    ensures exists q :: LinksTo(d, q, n)
  {
  }

  lemma AppendedOneLink(v: nat, d: Disk, p: Plan)
    requires Ready(v, d, p)
    ensures OneLink(Appended(d, p))
  {
    hide Ready, Appended, LinksTo;
    ReadySays(v, d, p);
    var y := Appended(d, p);
    forall a, b, n | LinksTo(y, a, n) && LinksTo(y, b, n)
      ensures a == b
    {
      AppendedLinksOnce(v, d, p, a, b, n);
    }
    forall n | n in y.live && y.live[n].seg > 0
      ensures exists q :: LinksTo(y, q, n)
    {
      AppendedLinked(v, d, p, n);
    }
  }

  lemma OldTarget(d: Disk, q: int, n: int)
    requires Links(d)
    ensures LinksTo(d, q, n) ==> n in d.live && q in d.live
  {
    if LinksTo(d, q, n) { assert Linked(d, d.live[q]); }
  }

  lemma NotLast(d: Disk, q: int, n: int, last: int)
    requires LinksTo(d, q, n) && last in d.live && d.live[last].ext.None?
    ensures q != last
  {
  }

  lemma AppendedEndsAt(v: nat, d: Disk, p: Plan, n: int)
    requires Ready(v, d, p) && n in Appended(d, p).live && Appended(d, p).live[n].ext.None?
    ensures EndsWithin(v, Appended(d, p), Appended(d, p).live[n])
  {
    hide Fresh, WithExts, Concat, Total, Appended, Sound, OneLink, AllTyped, Numbered, Vbn, LinkAt;
    AppendedIs(v, d, p);
    var y, l := Appended(d, p), d.live[p.last];
    var h := y.live[n];
    AppendedNames(v, d, p, h.file);
    assert EndsWithin(v, d, l);
    if n in d.live && n != p.last {
      assert EndsWithin(v, d, d.live[n]);
    } else {
      if n !in d.live { var k :| 0 <= k < |p.ids| && p.ids[k].num == n; }
      VbnPast(v, l.base + |l.at|, h.base + |h.at|, 0);
    }
  }

  lemma AppendedEnded(v: nat, d: Disk, p: Plan)
    requires Ready(v, d, p)
    ensures Ended(v, Appended(d, p))
  {
    hide Ready, Appended, EndsWithin;
    ReadySays(v, d, p);
    var y := Appended(d, p);
    forall n | n in y.live && y.live[n].ext.None?
      ensures EndsWithin(v, y, y.live[n])
    {
      AppendedEndsAt(v, d, p, n);
    }
  }

  lemma AppendedTyped(v: nat, d: Disk, p: Plan)
    requires Ready(v, d, p)
    ensures AllTyped(Appended(d, p)) && Numbered(Appended(d, p))
  {
    hide Fresh, WithExts, Concat, Total, Appended, Sound, OneLink, Ended;
    AppendedIs(v, d, p);
    var y := Appended(d, p);
    forall n | n in y.live
      ensures Typed(y, n) && n in y.used && 0 < n < y.indexEof
    {
      AppendedNames(v, d, p, y.live[n].file);
      if n in d.live {
        assert Typed(d, n);
      } else {
        var k :| 0 <= k < |p.ids| && p.ids[k].num == n;
      }
    }
  }

  /** The volume is consistent again, and the clusters are the file's. */
  lemma AppendedConsistent(v: nat, d: Disk, p: Plan)
    requires Ready(v, d, p) && Sound(v, Appended(d, p))
    ensures Consistent(v, Appended(d, p))
  {
    hide Sound, Fresh, Appended, OneLink, AllTyped, Numbered, Ended;
    AppendedTyped(v, d, p);
    AppendedOneLink(v, d, p);
    AppendedEnded(v, d, p);
  }

  lemma {:induction false} ConcatHas(cs: seq<seq<nat>>, c: nat)
    requires c in Concat(cs)
    ensures exists i :: 0 <= i < |cs| && c in cs[i]
  {
    if c !in cs[0] {
      ConcatHas(cs[1..], c);
      var i :| 0 <= i < |cs[1..]| && c in cs[1..][i];
      assert c in cs[i + 1];
    }
  }

  lemma AppendedOwns(v: nat, d: Disk, p: Plan, c: nat)
    requires Ready(v, d, p)
    ensures Owned(Appended(d, p), c) <==> Owned(d, c) || c in p.first + Concat(p.chunks)
  {
    hide Consistent, Fresh, WithExts, Concat, Total, Appended;
    AppendedIs(v, d, p);
    var y := Appended(d, p);
    if Owned(y, c) {
      var n :| n in y.live && c in y.live[n].at;
      if n !in d.live {
        var k :| 0 <= k < |p.ids| && p.ids[k].num == n;
        InConcat(p.chunks, k, c);
      }
    }
    if Owned(d, c) {
      var n :| n in d.live && c in d.live[n].at;
      assert c in y.live[n].at;
    }
    if c in p.first { assert c in y.live[p.last].at; }
    if c in Concat(p.chunks) {
      ConcatHas(p.chunks, c);
      var i :| 0 <= i < |p.chunks| && c in p.chunks[i];
      assert c in y.live[p.ids[i].num].at;
    }
  }

  /** The clusters have gone to the end of the file, after numbers were taken
      for the new headers. */
  ghost predicate Appends(v: nat, d: Disk, p: Plan, now: Disk) {
    exists used, eof ::
      Ready(v, d.(used := used, indexEof := eof), p) && now == Appended(d.(used := used, indexEof := eof), p)
  }

  lemma FreshStill(d: Disk, d': Disk, cs: seq<nat>)
    requires Fresh(d, cs) && d'.bits == d.bits && d'.live == d.live
    ensures Fresh(d', cs)
  {
  }

  lemma ReadyIf(v: nat, d: Disk, p: Plan)
    requires Consistent(v, d) && p.last in d.live && d.live[p.last].file == p.f && d.live[p.last].ext.None?
    requires Named(d, p.f)
    requires |p.ids| == |p.chunks| && Fresh(d, p.first + Concat(p.chunks))
    requires forall i | 0 <= i < |p.ids| ::
      p.ids[i].num !in d.live && p.ids[i].num in d.used && 0 < p.ids[i].num < d.indexEof
    requires forall i, j | 0 <= i < j < |p.ids| :: p.ids[i].num != p.ids[j].num
    ensures Ready(v, d, p)
  {
  }

  lemma NoExts(d: Disk, p: Plan)
    requires p.last in d.live && |p.chunks| == |p.ids|
    ensures WithExts(d, p, |p.chunks|) == d && LinkAt(p, |p.chunks|) == None
  {
  }

  lemma ExtStep(d: Disk, p: Plan, i: nat)
    requires p.last in d.live && i < |p.chunks| == |p.ids|
    ensures var x, l := WithExts(d, p, i + 1), d.live[p.last];
      && ExtHeader(d, p, i) ==
         Header(p.ids[i].seqno, l.seg + 1 + i, p.f, l.base + |l.at| + |p.first| + Total(p.chunks, i),
                                      p.chunks[i], LinkAt(p, i + 1), l.dir, 0, p.f, 0)
      && WithExts(d, p, i) == x.(live := x.live[p.ids[i].num := ExtHeader(d, p, i)])
  {
  }

  lemma AppendedData(v: nat, d: Disk, p: Plan)
    requires Ready(v, d, p)
    ensures Appended(d, p).data == d.data
  {
    hide Consistent, Fresh, Concat, Total, ExtHeader, WithExts;
    ExtsAre(d, p, 0);
  }

  lemma AppendedStep(d: Disk, p: Plan)
    requires p.last in d.live && |p.chunks| == |p.ids|
    ensures var x, l := WithExts(d, p, 0), d.live[p.last];
      Appended(d, p) == x.(live := x.live[p.last := l.(at := l.at + p.first, ext := LinkAt(p, 0))])
  {
  }

  lemma AppendedAlone(d: Disk, p: Plan)
    requires p.last in d.live && p.chunks == [] && p.ids == []
    ensures Appended(d, p) ==
      d.(live := d.live[p.last := d.live[p.last].(at := d.live[p.last].at + p.first, ext := None)])
  {
  }
}
