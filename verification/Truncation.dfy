/** Cutting a file short: the header the cut falls in is shortened and links to
    nothing, the headers after it are deleted, and only then are the clusters
    they mapped free. */
module Truncation {
  import opened Disk
  import opened Directory
  import R = Removal

  function Min(a: nat, b: nat): nat { if a < b then a else b }

  // The header the cut falls in, as it is rewritten.
  function CutHeader(v: nat, h: Header, keep: nat): Header
    requires h.base <= keep <= h.base + |h.at|
  {
    h.(at := h.at[..keep - h.base], ext := None, eof := if h.seg == 0 then Min(h.eof, Vbn(v, keep, 0)) else h.eof)
  }

  /** The disk with the header cut, and the end of file with it. */
  function Cut(v: nat, d: Disk, f: Fid, n: int, keep: nat): Disk
    requires n in d.live && d.live[n].base <= keep <= d.live[n].base + |d.live[n].at|
  {
    var x := d.(live := d.live[n := CutHeader(v, d.live[n], keep)]);
    if n == f.num || f.num !in d.live then x
    else x.(live := x.live[f.num := d.live[f.num].(eof := Min(d.live[f.num].eof, Vbn(v, keep, 0)))])
  }

  lemma EofShrunk(v: nat, d: Disk, n: int, eof: nat)
    requires Sound(v, d) && n in d.live && eof <= d.live[n].eof
    ensures Sound(v, d.(live := d.live[n := d.live[n].(eof := eof)]))
  {
    hide Vbn;
    var d' := d.(live := d.live[n := d.live[n].(eof := eof)]);
    forall m, i: nat, j: nat | Uses(v, d', m, i, j)
      ensures Uses(v, d, m, i, j)
    {
    }
    EofMoved(v, d, n, eof);
  }

  /** Both writes leave the disk sound. */
  lemma CutSound(v: nat, d: Disk, f: Fid, n: int, keep: nat)
    requires Sound(v, d) && n in d.live && d.live[n].base <= keep <= d.live[n].base + |d.live[n].at|
    ensures Sound(v, d.(live := d.live[n := CutHeader(v, d.live[n], keep)]))
    ensures Sound(v, Cut(v, d, f, n, keep))
  {
    hide Sound, Vbn;
    var h := d.live[n];
    HeaderCut(v, d, n, keep - h.base, CutHeader(v, h, keep).eof);
    var x := d.(live := d.live[n := CutHeader(v, h, keep)]);
    if n != f.num && f.num in d.live {
      EofShrunk(v, x, f.num, Min(d.live[f.num].eof, Vbn(v, keep, 0)));
    }
  }

  ghost predicate CutsAt(d: Disk, f: Fid, nums: seq<int>, k: nat, keep: nat) {
    Chain(d, f, nums) && k < |nums| && nums[k] in d.live
    && d.live[nums[k]].base <= keep <= d.live[nums[k]].base + |d.live[nums[k]].at|
  }

  lemma CutCounts(v: nat, d: Disk, f: Fid, nums: seq<int>, k: nat, keep: nat)
    requires CutsAt(d, f, nums, k, keep)
    ensures var x := Cut(v, d, f, nums[k], keep);
      forall m <- d.live ::
        m in x.live && x.live[m].back == d.live[m].back && x.live[m].links == d.live[m].links
        && x.live[m].eof <= d.live[m].eof
  {
    hide Vbn;
  }

  // What a cut changes of each header.
  lemma CutIs(v: nat, d: Disk, f: Fid, nums: seq<int>, k: nat, keep: nat)
    requires CutsAt(d, f, nums, k, keep)
    ensures var x, n := Cut(v, d, f, nums[k], keep), nums[k];
      && x.bits == d.bits && x.data == d.data && x.used == d.used && x.indexEof == d.indexEof
      && x.live.Keys == d.live.Keys
      && (forall m <- d.live :: SameIdentity(d.live[m], x.live[m]))
      && (forall m <- d.live | m != n :: x.live[m].at == d.live[m].at && x.live[m].ext == d.live[m].ext)
      && (forall m <- d.live | m != f.num :: m != n ==> x.live[m].eof == d.live[m].eof)
      && x.live[n].at == d.live[n].at[..keep - d.live[n].base] && x.live[n].ext == None
      && f.num in d.live && x.live[f.num].eof == Min(d.live[f.num].eof, Vbn(v, keep, 0))
  {
    hide Vbn;
  }

  lemma CutNames(v: nat, d: Disk, f: Fid, nums: seq<int>, k: nat, keep: nat, g: Fid)
    requires CutsAt(d, f, nums, k, keep)
    ensures Named(Cut(v, d, f, nums[k], keep), g) <==> Named(d, g)
  {
    hide Cut, Chain, Vbn;
    CutIs(v, d, f, nums, k, keep);
  }

  // The headers after the cut have no link to the first of them.
  lemma CutLinks(v: nat, d: Disk, f: Fid, nums: seq<int>, k: nat, keep: nat, q: int, n: int)
    requires CutsAt(d, f, nums, k, keep)
    ensures LinksTo(Cut(v, d, f, nums[k], keep), q, n) <==> LinksTo(d, q, n) && q != nums[k]
  {
    hide Cut, Chain, Vbn;
    CutIs(v, d, f, nums, k, keep);
  }

  lemma CutDetached(v: nat, d: Disk, f: Fid, nums: seq<int>, k: nat, keep: nat)
    requires Consistent(v, d) && CutsAt(d, f, nums, k, keep)
    ensures R.Detached(Cut(v, d, f, nums[k], keep), nums[k + 1..])
  {
    hide Consistent, Cut, Chain, Vbn, LinksTo;
    R.ChainNoRepeats(d, f, nums);
    CutIs(v, d, f, nums, k, keep);
    var x, drop := Cut(v, d, f, nums[k], keep), nums[k + 1..];
    forall i | 0 <= i < |drop|
      ensures drop[i] in x.live && x.live[drop[i]].seg > 0
    {
      assert drop[i] == nums[k + 1 + i];
    }
    forall i, q | 0 <= i < |drop| && LinksTo(x, q, drop[i])
      ensures i > 0 && q == drop[i - 1]
    {
      CutLinks(v, d, f, nums, k, keep, q, drop[i]);
      R.ChainLinks(v, d, f, nums, k + 1 + i, q);
    }
    forall i, j | 0 <= i < j < |drop|
      ensures drop[i] != drop[j]
    {
      assert nums[k + 1 + i] != nums[k + 1 + j];
    }
  }

  lemma CutEnded(v: nat, d: Disk, f: Fid, nums: seq<int>, k: nat, keep: nat)
    requires Consistent(v, d) && CutsAt(d, f, nums, k, keep)
    ensures Ended(v, Cut(v, d, f, nums[k], keep))
  {
    hide Sound, Numbered, OneLink, Cut, Vbn;
    CutIs(v, d, f, nums, k, keep);
    var x, n := Cut(v, d, f, nums[k], keep), nums[k];
    forall m | m in x.live && x.live[m].ext.None?
      ensures EndsWithin(v, x, x.live[m])
    {
      CutNames(v, d, f, nums, k, keep, d.live[m].file);
      if m != n { assert EndsWithin(v, d, d.live[m]); }
      if Named(d, d.live[m].file) { assert Typed(d, d.live[m].file.num); }
      assert Typed(d, n);
      PrimaryOnly(d, f, nums, k);
    }
  }

  // Only its primary header of a chain has its number.
  lemma PrimaryOnly(d: Disk, f: Fid, nums: seq<int>, k: nat)
    requires Chain(d, f, nums) && k < |nums|
    ensures Named(d, f) && d.live[nums[k]].file == f && (nums[k] == f.num <==> k == 0)
  {
  }

  lemma CutRest(v: nat, d: Disk, f: Fid, nums: seq<int>, k: nat, keep: nat, n: int)
    requires Consistent(v, d) && CutsAt(d, f, nums, k, keep)
    requires n in d.live && n !in nums[k + 1..] && d.live[n].seg > 0
    ensures d.live[n].file.num !in nums[k + 1..]
    ensures exists q :: q !in nums[k + 1..] && LinksTo(Cut(v, d, f, nums[k], keep), q, n)
  {
    hide Shown, Held, Disjoint, Ended, Numbered, Cut, Vbn, Chain;
    var drop := nums[k + 1..];
    R.ChainNoRepeats(d, f, nums);
    assert forall i | 0 <= i < |drop| :: drop[i] == nums[k + 1 + i];
    assert Typed(d, n);
    var q :| LinksTo(d, q, n);
    assert Linked(d, d.live[q]);
    if d.live[n].file == f {
      R.InChain(v, d, f, nums, n);
      R.InChain(v, d, f, nums, q);
    }
    CutLinks(v, d, f, nums, k, keep, q, n);
  }

  /** What a cut leaves behind can go. */
  lemma CutSevered(v: nat, d: Disk, f: Fid, nums: seq<int>, k: nat, keep: nat)
    requires Consistent(v, d) && CutsAt(d, f, nums, k, keep)
    ensures R.Severed(v, Cut(v, d, f, nums[k], keep), nums[k + 1..])
  {
    hide Sound, Ended, Cut, Vbn, Chain, LinksTo, R.Detached;
    CutIs(v, d, f, nums, k, keep);
    CutDetached(v, d, f, nums, k, keep);
    CutEnded(v, d, f, nums, k, keep);
    var x, drop := Cut(v, d, f, nums[k], keep), nums[k + 1..];
    forall n | n in x.live
      ensures Typed(x, n)
    {
      assert Typed(d, n);
      CutNames(v, d, f, nums, k, keep, d.live[n].file);
    }
    forall p, q, n | LinksTo(x, p, n) && LinksTo(x, q, n)
      ensures p == q
    {
      CutLinks(v, d, f, nums, k, keep, p, n);
      CutLinks(v, d, f, nums, k, keep, q, n);
    }
    forall n | n in x.live && n !in drop && x.live[n].seg > 0
      ensures x.live[n].file.num !in drop && exists q :: q !in drop && LinksTo(x, q, n)
    {
      CutRest(v, d, f, nums, k, keep, n);
    }
  }

  // ---------------------------------------------------------------------
  // What it frees
  // ---------------------------------------------------------------------

  lemma CutOwns(v: nat, d: Disk, f: Fid, nums: seq<int>, k: nat, keep: nat)
    requires Sound(v, d) && CutsAt(d, f, nums, k, keep)
    ensures var x, h := Cut(v, d, f, nums[k], keep), d.live[nums[k]];
      var tail := h.at[keep - h.base..];
      && Held(x) && Disjoint(x) && Distinct(tail)
      && (forall c <- tail :: c < |x.bits| && !x.bits[c] && !Owned(x, c))
      && (forall c :: Owned(d, c) <==> Owned(x, c) || c in tail)
  {
    hide Sound, Chain, Vbn, Cut;
    CutSound(v, d, f, nums[k], keep);
    CutIs(v, d, f, nums, k, keep);
    var x, n := Cut(v, d, f, nums[k], keep), nums[k];
    var h := d.live[n];
    var head, tail := h.at[..keep - h.base], h.at[keep - h.base..];
    SoundParts(v, d);
    SoundParts(v, x);
    TailOf(d, n, keep - h.base);
    forall c | c in tail
      ensures !Owned(x, c)
    {
      forall m | m in x.live
        ensures c !in x.live[m].at
      {
        assert m == n ==> x.live[m].at == head;
      }
    }
    forall c
      ensures Owned(d, c) <==> Owned(x, c) || c in tail
    {
      if Owned(d, c) {
        var m :| m in d.live && c in d.live[m].at;
        if m != n { assert c in x.live[m].at; } else if c !in tail { assert c in head && c in x.live[n].at; }
      }
      if Owned(x, c) {
        var m :| m in x.live && c in x.live[m].at;
        assert c in d.live[m].at;
      }
      if c in tail { assert c in d.live[n].at; }
    }
  }

  lemma SoundParts(v: nat, d: Disk)
    requires Sound(v, d)
    ensures Held(d) && Disjoint(d)
  {
  }

  // The clusters after a header's first ones are in no header besides.
  lemma TailOf(d: Disk, n: int, keep: nat)
    requires Held(d) && Disjoint(d) && n in d.live && keep <= |d.live[n].at|
    ensures var head, tail := d.live[n].at[..keep], d.live[n].at[keep..];
      && d.live[n].at == head + tail && Distinct(tail)
      && (forall c <- tail :: c in d.live[n].at && c !in head && c < |d.bits| && !d.bits[c])
      && (forall c <- tail, m <- d.live | m != n :: c !in d.live[m].at)
  {
    var at := d.live[n].at;
    var head, tail := at[..keep], at[keep..];
    assert at == head + tail;
    SplitDistinct(head, tail);
    assert Allocated(d, d.live[n]);
    forall c, m | c in tail && m in d.live && m != n
      ensures c !in d.live[m].at
    {
      assert Apart(at, d.live[m].at) && c in at;
    }
    forall c | c in tail
      ensures c !in head
    {
      ApartSymmetric(head, tail);
    }
  }
}
