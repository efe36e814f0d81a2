/** What a file holds: the clusters its headers map, in order.  An operation on
    one file leaves what every other file holds as it was. */
module Contents {
  import opened Disk
  import opened Directory
  import E = Extension
  import R = Removal
  import T = Truncation

  ghost predicate Maps(d: Disk, f: Fid, cs: seq<nat>) {
    exists nums :: Chain(d, f, nums) && R.ClustersOf(d, nums) == cs
  }

  /** The other files hold what they did. */
  ghost predicate KeepsFiles(d: Disk, now: Disk, f: Fid) {
    forall g, cs | g != f && Maps(d, g, cs) :: Maps(now, g, cs)
  }

  // ---------------------------------------------------------------------
  // A file has one list of headers
  // ---------------------------------------------------------------------

  lemma {:induction false} ChainsAgree(d: Disk, f: Fid, a: seq<int>, b: seq<int>, i: nat)
    requires Chain(d, f, a) && Chain(d, f, b) && i < |a|
    ensures i < |b| && a[i] == b[i]
  {
    if i > 0 {
      ChainsAgree(d, f, a, b, i - 1);
      NextIn(d, f, a, i - 1);
      NextIn(d, f, b, i - 1);
    }
  }

  lemma ChainOnce(d: Disk, f: Fid, a: seq<int>, b: seq<int>)
    requires Chain(d, f, a) && Chain(d, f, b)
    ensures a == b
  {
    hide Chain;
    forall i | 0 <= i < |a|
      ensures i < |b| && a[i] == b[i]
    {
      ChainsAgree(d, f, a, b, i);
    }
    if |a| < |b| { ChainsAgree(d, f, b, a, |a|); }
    if |b| < |a| { ChainsAgree(d, f, a, b, |b|); }
  }

  /** So it holds one list of clusters. */
  lemma MapsOnce(d: Disk, f: Fid, a: seq<nat>, b: seq<nat>)
    requires Maps(d, f, a) && Maps(d, f, b)
    ensures a == b
  {
    var m :| Chain(d, f, m) && R.ClustersOf(d, m) == a;
    var n :| Chain(d, f, n) && R.ClustersOf(d, n) == b;
    ChainOnce(d, f, m, n);
  }

  // ---------------------------------------------------------------------
  // Headers left alone
  // ---------------------------------------------------------------------

  lemma {:induction false} SameClusters(d: Disk, now: Disk, nums: seq<int>)
    requires R.AllLive(d, nums) && R.AllLive(now, nums)
    requires forall i | 0 <= i < |nums| :: now.live[nums[i]].at == d.live[nums[i]].at
    ensures R.ClustersOf(now, nums) == R.ClustersOf(d, nums)
  {
    if nums != [] { SameClusters(d, now, nums[1..]); }
  }

  // A header as it was, but for where a directory ends.
  predicate SameMap(h: Header, h': Header) { h' == h.(eof := h'.eof, back := h'.back, links := h'.links) }

  ghost predicate SameHeaders(d: Disk, now: Disk, f: Fid) {
    forall n | n in d.live && d.live[n].file == f :: n in now.live && SameMap(d.live[n], now.live[n])
  }

  lemma SameChain(d: Disk, now: Disk, f: Fid, nums: seq<int>)
    requires Chain(d, f, nums) && SameHeaders(d, now, f)
    ensures Chain(now, f, nums) && forall i | 0 <= i < |nums| :: now.live[nums[i]].at == d.live[nums[i]].at
  {
    forall i | 0 <= i < |nums|
      ensures nums[i] in now.live && SameMap(d.live[nums[i]], now.live[nums[i]])
    {
      NextIn(d, f, nums, i);
      var n := nums[i];
      assert d.live[n].file == f;
    }
    forall i | 0 <= i < |nums| - 1
      ensures now.live[nums[i]].ext == Some(Fid(nums[i + 1], now.live[nums[i + 1]].seqno))
    {
      NextIn(d, f, nums, i);
      assert SameMap(d.live[nums[i + 1]], now.live[nums[i + 1]]);
    }
  }

  lemma NextIn(d: Disk, f: Fid, nums: seq<int>, i: nat)
    requires Chain(d, f, nums) && i < |nums|
    ensures nums[i] in d.live && d.live[nums[i]].file == f && d.live[nums[i]].seg == i
    ensures i < |nums| - 1 ==>
      nums[i + 1] in d.live && d.live[nums[i]].ext == Some(Fid(nums[i + 1], d.live[nums[i + 1]].seqno))
    ensures d.live[nums[i]].ext.None? <==> i == |nums| - 1
  {
  }

  lemma SameFile(d: Disk, now: Disk, f: Fid, cs: seq<nat>)
    requires Maps(d, f, cs) && SameHeaders(d, now, f)
    ensures Maps(now, f, cs)
  {
    var nums :| Chain(d, f, nums) && R.ClustersOf(d, nums) == cs;
    SameChain(d, now, f, nums);
    SameClusters(d, now, nums);
  }

  lemma KeepsIf(d: Disk, now: Disk, f: Fid)
    requires forall n | n in d.live && d.live[n].file != f :: n in now.live && SameMap(d.live[n], now.live[n])
    ensures KeepsFiles(d, now, f)
  {
    hide Maps;
    forall g, cs | g != f && Maps(d, g, cs)
      ensures Maps(now, g, cs)
    {
      SameFile(d, now, g, cs);
    }
  }

  // ---------------------------------------------------------------------
  // Appending
  // ---------------------------------------------------------------------

  lemma {:induction false} ClustersJoin(d: Disk, a: seq<int>, b: seq<int>)
    requires R.AllLive(d, a) && R.AllLive(d, b)
    ensures R.AllLive(d, a + b) && R.ClustersOf(d, a + b) == R.ClustersOf(d, a) + R.ClustersOf(d, b)
  {
    if a == [] {
      assert a + b == b;
    } else {
      ClustersJoin(d, a[1..], b);
      assert (a + b)[1..] == a[1..] + b;
    }
  }

  lemma JoinThree(a: seq<nat>, b: seq<nat>, c: seq<nat>)
    ensures (a + b) + c == a + (b + c)
  {
  }

  lemma ClustersOne(d: Disk, n: int)
    requires n in d.live
    ensures R.ClustersOf(d, [n]) == d.live[n].at
  {
    assert [n][1..] == [] && d.live[n].at + [] == d.live[n].at;
  }

  function Nums(ids: seq<Fid>): (r: seq<int>)
    ensures |r| == |ids| && forall i | 0 <= i < |ids| :: r[i] == ids[i].num
  {
    seq(|ids|, i requires 0 <= i < |ids| => ids[i].num)
  }

  lemma {:induction false} ChunkClusters(d: Disk, ids: seq<Fid>, chunks: seq<seq<nat>>)
    requires |ids| == |chunks| && R.AllLive(d, Nums(ids))
    requires forall i | 0 <= i < |ids| :: d.live[ids[i].num].at == chunks[i]
    ensures R.ClustersOf(d, Nums(ids)) == E.Concat(chunks)
  {
    if ids != [] {
      assert Nums(ids)[1..] == Nums(ids[1..]);
      ChunkClusters(d, ids[1..], chunks[1..]);
    }
  }

  // The last header of a file is the end of its list.
  lemma LastOf(v: nat, d: Disk, f: Fid, nums: seq<int>, last: int)
    requires Consistent(v, d) && Chain(d, f, nums) && last in d.live && d.live[last].file == f && d.live[last].ext.None?
    ensures nums != [] && nums[|nums| - 1] == last
  {
    hide Consistent;
    R.InChain(v, d, f, nums, last);
    NextIn(d, f, nums, d.live[last].seg);
  }

  lemma OneLast(v: nat, d: Disk, f: Fid, nums: seq<int>)
    requires Consistent(v, d) && Chain(d, f, nums) && nums != []
    ensures forall n <- d.live | d.live[n].file == f && d.live[n].ext.None? :: n == nums[|nums| - 1]
  {
    hide Consistent, Chain;
    forall n <- d.live | d.live[n].file == f && d.live[n].ext.None?
      ensures n == nums[|nums| - 1]
    {
      LastOf(v, d, f, nums, n);
    }
  }

  // The file's headers once there are more.
  function NumAt(nums: seq<int>, ids: seq<Fid>, i: nat): int
    requires i < |nums| + |ids|
  {
    if i < |nums| then nums[i] else ids[i - |nums|].num
  }

  lemma AppendedAt(v: nat, d: Disk, p: E.Plan, nums: seq<int>, i: nat)
    requires E.Ready(v, d, p) && Chain(d, p.f, nums) && i < |nums| + |p.ids|
    ensures var y, n, k := E.Appended(d, p), NumAt(nums, p.ids, i), |nums|;
      && n in y.live && y.live[n].seg == i && y.live[n].file == p.f
      && (i < k ==> n in d.live && y.live[n].seqno == d.live[n].seqno)
      && (i >= k ==> y.live[n].seqno == p.ids[i - k].seqno)
      && (i < k - 1 ==> y.live[n].ext == d.live[n].ext) && (i >= k - 1 ==> y.live[n].ext == E.LinkAt(p, i + 1 - k))
  {
    hide Consistent, E.Fresh, E.Concat, E.Total, E.Appended, E.LinkAt;
    E.ReadySays(v, d, p);
    LastOf(v, d, p.f, nums, p.last);
    if i < |nums| { NextIn(d, p.f, nums, i); }
    NextIn(d, p.f, nums, |nums| - 1);
    E.AppendedIs(v, d, p);
  }

  lemma AppendedNext(v: nat, d: Disk, p: E.Plan, nums: seq<int>, i: nat)
    requires E.Ready(v, d, p) && Chain(d, p.f, nums) && i < |nums| + |p.ids| - 1
    ensures var y, n, m := E.Appended(d, p), NumAt(nums, p.ids, i), NumAt(nums, p.ids, i + 1);
      n in y.live && m in y.live && y.live[n].ext == Some(Fid(m, y.live[m].seqno))
  {
    hide E.Ready, E.Appended, Chain, NumAt, E.LinkAt;
    E.ReadyLens(v, d, p);
    var n, m := NumAt(nums, p.ids, i), NumAt(nums, p.ids, i + 1);
    AppendedAt(v, d, p, nums, i);
    AppendedAt(v, d, p, nums, i + 1);
    if i < |nums| - 1 {
      NumNext(d, p.f, nums, p.ids, i);
      LinkIs(E.Appended(d, p), n, m, Fid(m, d.live[m].seqno));
    } else {
      LinkNext(nums, p, i);
      LinkIs(E.Appended(d, p), n, m, p.ids[i + 1 - |nums|]);
    }
  }

  lemma NumNext(d: Disk, f: Fid, nums: seq<int>, ids: seq<Fid>, i: nat)
    requires Chain(d, f, nums) && i < |nums| - 1
    ensures var n, m := NumAt(nums, ids, i), NumAt(nums, ids, i + 1);
      n in d.live && m in d.live && d.live[n].ext == Some(Fid(m, d.live[m].seqno))
  {
    NextIn(d, f, nums, i);
  }

  lemma LinkNext(nums: seq<int>, p: E.Plan, i: nat)
    requires |nums| - 1 <= i < |nums| + |p.ids| - 1
    ensures E.LinkAt(p, i + 1 - |nums|) == Some(p.ids[i + 1 - |nums|])
    ensures NumAt(nums, p.ids, i + 1) == p.ids[i + 1 - |nums|].num
  {
  }

  lemma LinkIs(d: Disk, n: int, m: int, e: Fid)
    requires n in d.live && m in d.live && d.live[n].ext == Some(e) && m == e.num && d.live[m].seqno == e.seqno
    ensures d.live[n].ext == Some(Fid(m, d.live[m].seqno))
  {
  }

  lemma AppendedChain(v: nat, d: Disk, p: E.Plan, nums: seq<int>)
    requires E.Ready(v, d, p) && Chain(d, p.f, nums)
    ensures Chain(E.Appended(d, p), p.f, nums + Nums(p.ids))
  {
    hide E.Ready, E.Appended, Chain, NumAt;
    E.ReadyLens(v, d, p);
    R.ChainStarts(d, p.f, nums);
    var y, all := E.Appended(d, p), nums + Nums(p.ids);
    forall i | 0 <= i < |all|
      ensures all[i] == NumAt(nums, p.ids, i)
      ensures all[i] in y.live && y.live[all[i]].seg == i && y.live[all[i]].file == p.f
      ensures i == |all| - 1 ==> y.live[all[i]].ext.None?
    {
      NumIs(nums, p.ids, i);
      AppendedAt(v, d, p, nums, i);
    }
    forall i | 0 <= i < |all| - 1
      ensures y.live[all[i]].ext == Some(Fid(all[i + 1], y.live[all[i + 1]].seqno))
    {
      AppendedNext(v, d, p, nums, i);
    }
    E.AppendedNames(v, d, p, p.f);
    ChainIf(y, p.f, all);
  }

  lemma NumIs(nums: seq<int>, ids: seq<Fid>, i: nat)
    requires i < |nums| + |ids|
    ensures (nums + Nums(ids))[i] == NumAt(nums, ids, i)
  {
  }

  lemma ChainIf(d: Disk, f: Fid, nums: seq<int>)
    requires nums != [] && nums[0] == f.num && Named(d, f)
    requires forall i | 0 <= i < |nums| :: nums[i] in d.live && d.live[nums[i]].seg == i && d.live[nums[i]].file == f
    requires forall i | 0 <= i < |nums| - 1 :: d.live[nums[i]].ext == Some(Fid(nums[i + 1], d.live[nums[i + 1]].seqno))
    requires d.live[nums[|nums| - 1]].ext.None?
    ensures Chain(d, f, nums)
  {
  }

  lemma AppendedFirst(v: nat, d: Disk, p: E.Plan, nums: seq<int>)
    requires E.Ready(v, d, p) && Chain(d, p.f, nums)
    ensures R.AllLive(d, nums) && R.AllLive(E.Appended(d, p), nums)
    ensures R.ClustersOf(E.Appended(d, p), nums) == R.ClustersOf(d, nums) + p.first
  {
    hide Sound, OneLink, Numbered, Ended, AllTyped, E.Fresh, E.Concat, E.Total, E.Appended, R.ClustersOf, E.ExtHeader;
    LastOf(v, d, p.f, nums, p.last);
    R.ChainNoRepeats(d, p.f, nums);
    E.AppendedIs(v, d, p);
    var y, head := E.Appended(d, p), nums[..|nums| - 1];
    assert nums == head + [p.last];
    assert forall i | 0 <= i < |head| :: head[i] == nums[i] && nums[i] != p.last;
    SameClusters(d, y, head);
    ClustersJoin(d, head, [p.last]);
    ClustersJoin(y, head, [p.last]);
    ClustersOne(d, p.last);
    ClustersOne(y, p.last);
    JoinThree(R.ClustersOf(d, head), d.live[p.last].at, p.first);
  }

  /** The clusters appended follow those the file had. */
  lemma AppendedMaps(v: nat, d: Disk, p: E.Plan, cs: seq<nat>)
    requires E.Ready(v, d, p) && Maps(d, p.f, cs)
    ensures Maps(E.Appended(d, p), p.f, cs + (p.first + E.Concat(p.chunks)))
  {
    hide E.Ready, E.Concat, E.Total, E.Appended, R.ClustersOf, E.ExtHeader;
    E.ReadySays(v, d, p);
    var nums :| Chain(d, p.f, nums) && R.ClustersOf(d, nums) == cs;
    AppendedWhole(v, d, p, nums);
    AppendedChain(v, d, p, nums);
  }

  lemma AppendedWhole(v: nat, d: Disk, p: E.Plan, nums: seq<int>)
    requires E.Ready(v, d, p) && Chain(d, p.f, nums)
    ensures var y, all := E.Appended(d, p), nums + Nums(p.ids);
      R.AllLive(y, all) && R.ClustersOf(y, all) == R.ClustersOf(d, nums) + (p.first + E.Concat(p.chunks))
  {
    hide E.Ready, E.Concat, E.Total, E.Appended, R.ClustersOf, E.ExtHeader, Chain;
    E.ReadySays(v, d, p);
    var y, more := E.Appended(d, p), Nums(p.ids);
    AppendedFirst(v, d, p, nums);
    ExtChunks(v, d, p);
    ChunkClusters(y, p.ids, p.chunks);
    ClustersJoin(y, nums, more);
    JoinThree(R.ClustersOf(d, nums), p.first, E.Concat(p.chunks));
  }

  lemma ExtChunks(v: nat, d: Disk, p: E.Plan)
    requires E.Ready(v, d, p)
    ensures var y := E.Appended(d, p); R.AllLive(y, Nums(p.ids)) && forall k | 0 <= k < |p.ids| ::
      y.live[p.ids[k].num].at == p.chunks[k]
  {
    hide Consistent, E.Fresh, E.Concat, E.Total, E.Appended, E.LinkAt;
    E.AppendedIs(v, d, p);
  }

  lemma AppendedKeeps(v: nat, d: Disk, p: E.Plan)
    requires E.Ready(v, d, p)
    ensures KeepsFiles(d, E.Appended(d, p), p.f)
  {
    hide Consistent, E.Fresh, E.Concat, E.Total, E.Appended, E.ExtHeader, KeepsFiles;
    E.AppendedIs(v, d, p);
    KeepsIf(d, E.Appended(d, p), p.f);
  }

  // ---------------------------------------------------------------------
  // Cutting short
  // ---------------------------------------------------------------------

  /** A header's place in the file is after all the headers before it map. */
  lemma {:induction false} BaseIs(v: nat, d: Disk, f: Fid, nums: seq<int>, k: nat)
    requires Consistent(v, d) && Chain(d, f, nums) && k < |nums|
    ensures R.AllLive(d, nums[..k]) && |R.ClustersOf(d, nums[..k])| == d.live[nums[k]].base
  {
    hide Shown, Held, Disjoint, Ended, OneLink, Numbered, R.ClustersOf;
    assert Typed(d, nums[0]);
    if k == 0 {
      NoClusters(d);
    } else {
      BaseIs(v, d, f, nums, k - 1);
      var n := nums[k - 1];
      assert nums[..k] == nums[..k - 1] + [n];
      ClustersJoin(d, nums[..k - 1], [n]);
      ClustersOne(d, n);
      NextIn(d, f, nums, k - 1);
      assert Linked(d, d.live[n]);
    }
  }

  lemma NoClusters(d: Disk)
    ensures R.AllLive(d, []) && R.ClustersOf(d, []) == []
  {
  }

  // The disk after a cut: its headers up to it as they were, the one it falls
  // in with its first clusters, and those after it gone.
  ghost predicate IsCut(d: Disk, f: Fid, nums: seq<int>, k: nat, keep: nat, now: Disk) {
    && k < |nums| && R.AllLive(d, nums) && R.AllLive(now, nums[..k + 1]) && nums[k] in now.live
    && d.live[nums[k]].base <= keep <= d.live[nums[k]].base + |d.live[nums[k]].at|
    && (forall i | 0 <= i < k :: nums[i] in now.live && SameMap(d.live[nums[i]], now.live[nums[i]]))
    && SameIdentity(d.live[nums[k]], now.live[nums[k]]) && now.live[nums[k]].ext.None?
    && now.live[nums[k]].at == d.live[nums[k]].at[..keep - d.live[nums[k]].base]
  }

  lemma CutChain(d: Disk, f: Fid, nums: seq<int>, k: nat, keep: nat, now: Disk)
    requires Chain(d, f, nums) && IsCut(d, f, nums, k, keep, now)
    ensures Chain(now, f, nums[..k + 1])
  {
    var some := nums[..k + 1];
    forall i | 0 <= i < |some|
      ensures some[i] in now.live && now.live[some[i]].seg == i && now.live[some[i]].file == f
      ensures now.live[some[i]].seqno == d.live[nums[i]].seqno
    {
    }
    forall i | 0 <= i < |some| - 1
      ensures now.live[some[i]].ext == Some(Fid(some[i + 1], now.live[some[i + 1]].seqno))
    {
      NextIn(d, f, nums, i);
    }
  }

  /** The file holds the first of the clusters it did. */
  lemma CutMaps(v: nat, d: Disk, f: Fid, nums: seq<int>, k: nat, keep: nat, now: Disk)
    requires Consistent(v, d) && Chain(d, f, nums) && IsCut(d, f, nums, k, keep, now)
    ensures keep <= |R.ClustersOf(d, nums)| && Maps(now, f, R.ClustersOf(d, nums)[..keep])
  {
    hide Consistent, Chain, R.ClustersOf;
    CutChain(d, f, nums, k, keep, now);
    BaseIs(v, d, f, nums, k);
    var n, head, tail := nums[k], nums[..k], nums[k + 1..];
    assert nums[..k + 1] == head + [n] && nums == head + [n] + tail;
    SameClusters(d, now, head);
    ClustersOne(d, n);
    ClustersOne(now, n);
    ClustersJoin(now, head, [n]);
    ClustersJoin(d, head, [n]);
    ClustersJoin(d, head + [n], tail);
    TakeWithin(R.ClustersOf(d, head), d.live[n].at, R.ClustersOf(d, tail), keep);
  }

  // The header list of a file that is cut, and the rest.
  lemma CutLeaves(v: nat, d: Disk, f: Fid, nums: seq<int>, k: nat, keep: nat, now: Disk)
    requires T.CutsAt(d, f, nums, k, keep)
    requires now.live == R.Killed(T.Cut(v, d, f, nums[k], keep), nums[k + 1..], |nums[k + 1..]|).live
    ensures IsCut(d, f, nums, k, keep, now)
    ensures forall n | n in d.live && d.live[n].file != f :: n in now.live && SameMap(d.live[n], now.live[n])
  {
    hide T.Cut, R.Killed, Vbn;
    T.CutIs(v, d, f, nums, k, keep);
    R.ChainNoRepeats(d, f, nums);
    var x, drop := T.Cut(v, d, f, nums[k], keep), nums[k + 1..];
    R.KilledIs(x, drop);
    forall i | 0 <= i < |drop|
      ensures drop[i] == nums[k + 1 + i]
    {
    }
    forall i | 0 <= i <= k
      ensures nums[i] in now.live && nums[i] !in drop && now.live[nums[i]] == x.live[nums[i]]
    {
      var n := nums[i];
      assert n !in drop;
    }
    forall n | n in d.live && d.live[n].file != f
      ensures n in now.live && SameMap(d.live[n], now.live[n])
    {
      assert n !in drop;
    }
  }

  lemma TakeWithin(a: seq<nat>, b: seq<nat>, c: seq<nat>, keep: nat)
    requires |a| <= keep <= |a| + |b|
    ensures (a + b + c)[..keep] == a + b[..keep - |a|]
  {
  }

  /** Where the cut is past all of it, the file stays as it is. */
  lemma CutNothing(v: nat, d: Disk, f: Fid, nums: seq<int>, cs: seq<nat>, keep: nat)
    requires Consistent(v, d) && Chain(d, f, nums) && Maps(d, f, cs)
    requires var l := nums[|nums| - 1]; l in d.live && d.live[l].base + |d.live[l].at| <= keep
    ensures |cs| <= keep
  {
    hide Consistent, Chain, R.ClustersOf;
    MapOf(d, f, nums, cs);
    var k := |nums| - 1;
    BaseIs(v, d, f, nums, k);
    assert nums == nums[..k] + [nums[k]];
    ClustersJoin(d, nums[..k], [nums[k]]);
    ClustersOne(d, nums[k]);
  }

  lemma MapOf(d: Disk, f: Fid, nums: seq<int>, cs: seq<nat>)
    requires Chain(d, f, nums) && Maps(d, f, cs)
    ensures nums != [] && R.AllLive(d, nums) && R.ClustersOf(d, nums) == cs
  {
    HasMap(d, f, nums);
    MapsOnce(d, f, cs, R.ClustersOf(d, nums));
  }

  // ---------------------------------------------------------------------
  // New and deleted files
  // ---------------------------------------------------------------------

  lemma FirstMaps(d: Disk, f: Fid)
    requires Named(d, f) && d.live[f.num].file == f && d.live[f.num].ext.None?
    ensures Maps(d, f, d.live[f.num].at)
  {
    assert Chain(d, f, [f.num]);
    ClustersOne(d, f.num);
  }

  lemma MapsNamed(d: Disk, f: Fid, cs: seq<nat>)
    requires Maps(d, f, cs)
    ensures Named(d, f)
  {
  }

  lemma HasMap(d: Disk, f: Fid, nums: seq<int>)
    requires Chain(d, f, nums)
    ensures R.AllLive(d, nums) && Maps(d, f, R.ClustersOf(d, nums))
  {
  }

  /** Deleting a file leaves the others. */
  lemma KilledKeeps(d: Disk, f: Fid, nums: seq<int>, now: Disk)
    requires Chain(d, f, nums) && now.live == R.Killed(d, nums, |nums|).live
    ensures KeepsFiles(d, now, f)
  {
    hide R.Killed, KeepsFiles;
    R.KilledIs(d, nums);
    R.ChainNoRepeats(d, f, nums);
    forall n | n in d.live && d.live[n].file != f
      ensures n in now.live && SameMap(d.live[n], now.live[n])
    {
      assert n !in nums;
    }
    KeepsIf(d, now, f);
  }
}
