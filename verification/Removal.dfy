/** Taking headers away: the headers of a file, or those a truncation leaves
    behind, deleted in order so that none that is left links to one that is
    gone. */
module Removal {
  import opened Disk
  import opened Directory

  /** The disk with the first i headers of the list deleted. */
  function Killed(d: Disk, drop: seq<int>, i: nat): Disk
    requires i <= |drop|
  {
    d.(live := map n | n in d.live && n !in drop[..i] :: d.live[n])
  }

  predicate NoRepeats(s: seq<int>) { forall i, j | 0 <= i < j < |s| :: s[i] != s[j] }

  /** Each header of the list is linked to from the one before it, if at all;
      all but a first primary one are extension headers. */
  ghost predicate Detached(d: Disk, drop: seq<int>) {
    && NoRepeats(drop) && (forall i | 0 <= i < |drop| :: drop[i] in d.live)
    && (forall i, q | 0 <= i < |drop| && LinksTo(d, q, drop[i]) :: i > 0 && q == drop[i - 1])
    && (forall i | 0 < i < |drop| :: d.live[drop[i]].seg > 0)
  }

  lemma KilledNext(d: Disk, drop: seq<int>, i: nat)
    requires i < |drop| && NoRepeats(drop) && drop[i] in d.live
    ensures drop[i] in Killed(d, drop, i).live && Killed(d, drop, i).live[drop[i]] == d.live[drop[i]]
    ensures Killed(d, drop, i + 1) == Killed(d, drop, i).(live := Killed(d, drop, i).live - {drop[i]})
  {
    assert drop[..i + 1] == drop[..i] + [drop[i]];
  }

  lemma StillUnlisted(v: nat, d: Disk, d': Disk, f: Fid)
    requires Unlisted(v, d, f) && d'.data == d.data && (forall n <- d'.live :: n in d.live && d'.live[n] == d.live[n])
    ensures Unlisted(v, d', f)
  {
    hide Vbn;
    forall n, i: nat, j: nat | Uses(v, d', n, i, j)
      ensures forall r <- BlockAt(d', n, i, j).recs, e <- r.entries :: e.fid != f
    {
      assert Uses(v, d, n, i, j);
    }
  }

  lemma NotElsewhere(v: nat, d: Disk, f: Fid)
    requires Unlisted(v, d, f)
    ensures UnlistedElsewhere(v, d, f)
  {
  }

  /** Deleting the next one leaves the disk sound. */
  lemma KillSound(v: nat, d: Disk, drop: seq<int>, i: nat)
    requires Detached(d, drop) && i < |drop| && Sound(v, Killed(d, drop, i))
    requires d.live[drop[i]].seg == 0 ==> Unlisted(v, d, Fid(drop[i], d.live[drop[i]].seqno))
    ensures Sound(v, Killed(d, drop, i + 1))
  {
    hide Sound, Unlisted, UnlistedElsewhere;
    KilledNext(d, drop, i);
    var x, n := Killed(d, drop, i), drop[i];
    if d.live[n].seg == 0 {
      StillUnlisted(v, d, x, Fid(n, d.live[n].seqno));
      NotElsewhere(v, x, Fid(n, d.live[n].seqno));
    }
    forall m | m in x.live
      ensures x.live[m].ext.Some? ==> x.live[m].ext.value.num != n
    {
      assert LinksTo(x, m, n) ==> LinksTo(d, m, n);
      assert i > 0 ==> drop[..i][i - 1] == drop[i - 1] && drop[i - 1] in drop[..i];
    }
    HeaderKilled(v, x, n);
  }

  // ---------------------------------------------------------------------
  // What is left
  // ---------------------------------------------------------------------

  /** The headers that stay do without those of the list. */
  ghost predicate Severed(v: nat, d: Disk, drop: seq<int>) {
    && Detached(d, drop) && Numbered(d) && AllTyped(d) && Ended(v, d)
    && (forall p, q, n | LinksTo(d, p, n) && LinksTo(d, q, n) :: p == q)
    && (forall n <- d.live | n !in drop && d.live[n].seg > 0 :: d.live[n].file.num !in drop)
    && (forall n <- d.live | n !in drop && d.live[n].seg > 0 :: exists q :: q !in drop && LinksTo(d, q, n))
  }

  lemma KilledIs(d: Disk, drop: seq<int>)
    ensures var y := Killed(d, drop, |drop|);
      && (forall n :: n in y.live <==> n in d.live && n !in drop) && (forall n <- y.live :: y.live[n] == d.live[n])
      && y.bits == d.bits && y.data == d.data && y.used == d.used && y.indexEof == d.indexEof
  {
    assert drop[..|drop|] == drop;
  }

  lemma KilledConsistent(v: nat, d: Disk, drop: seq<int>)
    requires Severed(v, d, drop) && Sound(v, Killed(d, drop, |drop|))
    ensures Consistent(v, Killed(d, drop, |drop|))
  {
    hide Sound, Vbn, Killed, Detached;
    KilledIs(d, drop);
    var y := Killed(d, drop, |drop|);
    forall n | n in y.live
      ensures Typed(y, n)
    {
      assert Typed(d, n);
    }
    forall p, q, n | LinksTo(y, p, n) && LinksTo(y, q, n)
      ensures p == q
    {
      assert LinksTo(d, p, n) && LinksTo(d, q, n);
    }
    forall n | n in y.live && y.live[n].seg > 0
      ensures exists q :: LinksTo(y, q, n)
    {
      var q :| q !in drop && LinksTo(d, q, n);
      assert LinksTo(y, q, n);
    }
    forall n | n in y.live && y.live[n].ext.None?
      ensures EndsWithin(v, y, y.live[n])
    {
      assert EndsWithin(v, d, d.live[n]);
    }
  }

  // ---------------------------------------------------------------------
  // A whole file
  // ---------------------------------------------------------------------

  /** Every live header of a file is in its chain. */
  lemma {:induction false} InChain(v: nat, d: Disk, f: Fid, nums: seq<int>, n: int)
    requires Consistent(v, d) && Chain(d, f, nums) && n in d.live && d.live[n].file == f
    ensures d.live[n].seg < |nums| && nums[d.live[n].seg] == n
    decreases d.live[n].seg
  {
    hide Shown, Held, Disjoint, Ended, Numbered;
    var s := d.live[n].seg;
    assert Typed(d, n);
    if s > 0 {
      var p :| LinksTo(d, p, n);
      assert Linked(d, d.live[p]);
      InChain(v, d, f, nums, p);
    }
  }

  lemma ChainNoRepeats(d: Disk, f: Fid, nums: seq<int>)
    requires Chain(d, f, nums)
    ensures NoRepeats(nums)
    ensures forall i | 0 <= i < |nums| :: nums[i] in d.live && d.live[nums[i]].file == f && d.live[nums[i]].seg == i
  {
  }

  // What links to a header of the chain is the one before it.
  lemma ChainLinks(v: nat, d: Disk, f: Fid, nums: seq<int>, i: nat, q: int)
    requires Consistent(v, d) && Chain(d, f, nums) && i < |nums| && LinksTo(d, q, nums[i])
    ensures i > 0 && q == nums[i - 1]
  {
    hide Shown, Held, Disjoint, Ended, Numbered, AllTyped;
    assert Linked(d, d.live[q]);
    InChain(v, d, f, nums, q);
  }

  /** A file's whole chain can go. */
  lemma ChainSevered(v: nat, d: Disk, f: Fid, nums: seq<int>)
    requires Consistent(v, d) && Chain(d, f, nums)
    ensures Severed(v, d, nums)
  {
    hide Sound, Ended, Numbered, Chain, LinksTo;
    ChainNoRepeats(d, f, nums);
    forall i, q | 0 <= i < |nums| && LinksTo(d, q, nums[i])
      ensures i > 0 && q == nums[i - 1]
    {
      ChainLinks(v, d, f, nums, i, q);
    }
    ChainStarts(d, f, nums);
    forall n | n in d.live && n !in nums && d.live[n].seg > 0
      ensures d.live[n].file.num !in nums && exists q :: q !in nums && LinksTo(d, q, n)
    {
      OutsideChain(v, d, f, nums, n);
    }
  }

  lemma ChainStarts(d: Disk, f: Fid, nums: seq<int>)
    requires Chain(d, f, nums)
    ensures nums != [] && nums[0] == f.num && Named(d, f)
  {
  }

  lemma OutsideChain(v: nat, d: Disk, f: Fid, nums: seq<int>, n: int)
    requires Consistent(v, d) && Chain(d, f, nums) && n in d.live && n !in nums && d.live[n].seg > 0
    ensures d.live[n].file.num !in nums && exists q :: q !in nums && LinksTo(d, q, n)
  {
    hide Shown, Held, Disjoint, Ended, Numbered;
    if d.live[n].file == f { InChain(v, d, f, nums, n); }
    assert Typed(d, n);
    var q :| LinksTo(d, q, n);
    assert Linked(d, d.live[q]);
    ChainNoRepeats(d, f, nums);
    assert forall k <- nums :: d.live[k].file == f;
    assert Typed(d, d.live[n].file.num);
  }

  predicate AllLive(d: Disk, nums: seq<int>) { forall i | 0 <= i < |nums| :: nums[i] in d.live }

  /** The clusters of headers, in order. */
  function ClustersOf(d: Disk, nums: seq<int>): seq<nat>
    requires AllLive(d, nums)
  {
    if nums == [] then [] else d.live[nums[0]].at + ClustersOf(d, nums[1..])
  }

  lemma {:induction false} InClusters(d: Disk, nums: seq<int>, c: nat)
    requires AllLive(d, nums)
    ensures c in ClustersOf(d, nums) <==> exists n <- nums :: c in d.live[n].at
  {
    if nums != [] {
      InClusters(d, nums[1..], c);
      assert nums == [nums[0]] + nums[1..] && nums[0] in nums;
      if exists n <- nums :: c in d.live[n].at {
        var n :| n in nums && c in d.live[n].at;
        assert n == nums[0] || n in nums[1..];
      }
    }
  }

  lemma {:induction false} ClustersDistinct(d: Disk, nums: seq<int>)
    requires Disjoint(d) && NoRepeats(nums) && AllLive(d, nums)
    ensures Distinct(ClustersOf(d, nums))
  {
    hide Distinct, Apart;
    if nums == [] {
      NoneDistinct();
    } else {
      var n, rest := nums[0], nums[1..];
      RestNoRepeats(nums);
      ClustersDistinct(d, rest);
      forall c | c in d.live[n].at
        ensures c !in ClustersOf(d, rest)
      {
        InClusters(d, rest, c);
        ElsewhereApart(d, n, rest, c);
      }
      ApartIf(d.live[n].at, ClustersOf(d, rest));
      JoinDistinct(d.live[n].at, ClustersOf(d, rest));
    }
  }

  lemma NoneDistinct()
    ensures Distinct([])
  {
  }

  lemma ApartIf(a: seq<nat>, b: seq<nat>)
    requires forall c <- a :: c !in b
    ensures Apart(a, b)
  {
  }

  lemma RestNoRepeats(nums: seq<int>)
    requires NoRepeats(nums) && nums != []
    ensures NoRepeats(nums[1..]) && nums[0] !in nums[1..]
  {
    var rest := nums[1..];
    forall i, j | 0 <= i < j < |rest|
      ensures rest[i] != rest[j]
    {
      assert nums[i + 1] != nums[j + 1];
    }
    forall i | 0 <= i < |rest|
      ensures rest[i] != nums[0]
    {
      assert nums[0] != nums[i + 1];
    }
  }

  lemma ElsewhereApart(d: Disk, n: int, rest: seq<int>, c: nat)
    requires Disjoint(d) && n in d.live && n !in rest && AllLive(d, rest) && c in d.live[n].at
    ensures forall m <- rest :: c !in d.live[m].at
  {
    forall m | m in rest
      ensures c !in d.live[m].at
    {
      assert Apart(d.live[n].at, d.live[m].at);
    }
  }

  /** The clusters of the headers gone are no header's now, and can be freed. */
  lemma KilledFrees(d: Disk, drop: seq<int>)
    requires Held(d) && Disjoint(d) && NoRepeats(drop) && AllLive(d, drop)
    ensures var y, cs := Killed(d, drop, |drop|), ClustersOf(d, drop);
      && Distinct(cs) && (forall c <- cs :: c < |y.bits| && !y.bits[c] && !Owned(y, c))
      && (forall c :: Owned(d, c) <==> Owned(y, c) || c in cs)
  {
    hide Killed, Distinct, Apart, Disjoint;
    KilledIs(d, drop);
    ClustersDistinct(d, drop);
    var y, cs := Killed(d, drop, |drop|), ClustersOf(d, drop);
    forall c | c in cs
      ensures c < |y.bits| && !y.bits[c] && !Owned(y, c)
    {
      InClusters(d, drop, c);
      var n :| n in drop && c in d.live[n].at;
      assert Allocated(d, d.live[n]);
      OnlyThere(d, n, c);
    }
    forall c
      ensures Owned(d, c) <==> Owned(y, c) || c in cs
    {
      InClusters(d, drop, c);
      if Owned(d, c) {
        var n :| n in d.live && c in d.live[n].at;
        if n !in drop { assert c in y.live[n].at; }
      }
    }
  }

  lemma OnlyThere(d: Disk, n: int, c: nat)
    requires Disjoint(d) && n in d.live && c in d.live[n].at
    ensures forall m <- d.live | m != n :: c !in d.live[m].at
  {
    forall m | m in d.live && m != n
      ensures c !in d.live[m].at
    {
      assert Apart(d.live[n].at, d.live[m].at);
    }
  }
}
