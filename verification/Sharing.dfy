/** How clusters appended to a file are divided between its last header and new
    ones: by the retrieval pointers they need and the room each header has. */
module Sharing {
  import opened Numbers
  import F = FileMap
  import E = Extension

  function Times(k: nat, v: nat): nat { k * v }

  lemma TimesMore(k: nat, m: nat, v: nat)
    ensures Times(k + m, v) == Times(k, v) + Times(m, v) && Times(0, v) == 0 && Times(1, v) == v
  {
  }

  lemma {:induction false} TimesRise(k: nat, n: nat, v: nat)
    requires k < n
    ensures Times(k, v) + v <= Times(n, v)
  {
    hide Times;
    TimesMore(n - 1, 1, v);
    if k < n - 1 { TimesRise(k, n - 1, v); }
  }

  lemma NoMoreThan(v: nat, k: nat, n: nat)
    requires v > 0 && Times(k, v) <= Times(n, v)
    ensures k <= n
  {
    hide Times;
    if n < k { TimesRise(n, k, v); }
  }

  // A multiple, as so many times.
  lemma TimesOf(x: nat, v: nat) returns (k: nat)
    requires v > 0 && x % v == 0
    ensures x == Times(k, v)
  {
    k := x / v;
  }

  /** Each cluster as a run of blocks. */
  function Runs(v: nat, cs: seq<nat>): (rs: seq<F.Run>)
    ensures |rs| == |cs| && forall i | 0 <= i < |cs| :: rs[i] == F.Run(cs[i] * v, v)
  {
    seq(|cs|, i requires 0 <= i < |cs| => F.Run(cs[i] * v, v))
  }

  /** The blocks of clusters, in order. */
  function BlocksAt(v: nat, cs: seq<nat>): seq<nat> { F.Lbns(Runs(v, cs)) }

  /** The pointers for them, after those of the last header. */
  function Shared(v: nat, last: F.Seg, cs: seq<nat>): F.Share { F.Spread(last, Runs(v, cs)) }

  /** How many headers it takes besides. */
  function Further(v: nat, last: F.Seg, cs: seq<nat>): nat { |Shared(v, last, cs).chunks| }

  /** The headers of a new file, the first with so much room. */
  function HeadersFor(v: nat, room: nat, cs: seq<nat>): nat { 1 + Further(v, F.Seg([], room), cs) }

  // The clusters that so many blocks reach into.
  function Reached(v: nat, blocks: nat): nat
    requires v > 0
  {
    (blocks + v - 1) / v
  }

  // The clusters from the i-th on, cut where the blocks of each part end.
  function Parts(v: nat, cs: seq<nat>, i: nat, end: nat, chunks: seq<seq<F.Pointer>>): (parts: seq<seq<nat>>)
    requires v > 0 && i <= |cs|
    ensures |parts| == 1 + |chunks|
    decreases |chunks|
  {
    if chunks == [] then [cs[i..]]
    else
      var k := Within(i, Reached(v, end), |cs|);
      [cs[i..k]] + Parts(v, cs, k, end + |F.Blocks(chunks[0])|, chunks[1..])
  }

  function Within(low: nat, x: nat, high: nat): (r: nat)
    requires low <= high
    ensures low <= r <= high
  {
    if x < low then low else if x > high then high else x
  }

  /** The clusters of the last header, and of each new one. */
  function Divided(v: nat, last: F.Seg, cs: seq<nat>): (parts: seq<seq<nat>>)
    requires v > 0
    ensures |parts| == 1 + Further(v, last, cs)
  {
    var s := Shared(v, last, cs);
    Parts(v, cs, 0, Gained(last, s.kept), s.chunks)
  }

  // How many blocks more the last header has.
  function Gained(last: F.Seg, kept: seq<F.Pointer>): nat {
    if |F.Blocks(kept)| < |F.Blocks(last.ptrs)| then 0 else |F.Blocks(kept)| - |F.Blocks(last.ptrs)|
  }

  lemma {:induction false} PartsAll(v: nat, cs: seq<nat>, i: nat, end: nat, chunks: seq<seq<F.Pointer>>)
    requires v > 0 && i <= |cs|
    ensures E.Concat(Parts(v, cs, i, end, chunks)) == cs[i..]
    decreases |chunks|
  {
    hide F.Blocks, Reached;
    var parts := Parts(v, cs, i, end, chunks);
    if chunks == [] {
      assert parts[1..] == [];
    } else {
      var k := Within(i, Reached(v, end), |cs|);
      PartsAll(v, cs, k, end + |F.Blocks(chunks[0])|, chunks[1..]);
      assert parts[1..] == Parts(v, cs, k, end + |F.Blocks(chunks[0])|, chunks[1..]);
      assert cs[i..k] + cs[k..] == cs[i..];
    }
  }

  /** Together they are the clusters. */
  lemma DividedAll(v: nat, last: F.Seg, cs: seq<nat>)
    requires v > 0
    ensures E.Concat(Divided(v, last, cs)) == cs
  {
    hide F.Spread, F.Blocks;
    PartsAll(v, cs, 0, Gained(last, Shared(v, last, cs).kept), Shared(v, last, cs).chunks);
  }

  // ---------------------------------------------------------------------
  // The pointers stand for the clusters
  // ---------------------------------------------------------------------

  /** A header's pointers are of its clusters, and it has room for them. */
  predicate Stands(v: nat, s: F.Seg, at: seq<nat>) { F.Blocks(s.ptrs) == BlocksAt(v, at) && F.Fits(s) }

  // No pointer ends inside a cluster.
  predicate Whole(v: nat, n: nat)
    requires v > 0
  {
    F.MAX_COUNT % v == 0 || Times(n, v) <= F.MAX_COUNT
  }

  lemma {:induction false} BlocksAtSplit(v: nat, a: seq<nat>, b: seq<nat>)
    ensures BlocksAt(v, a + b) == BlocksAt(v, a) + BlocksAt(v, b)
  {
    assert Runs(v, a + b) == Runs(v, a) + Runs(v, b);
    F.LbnsSplit(Runs(v, a), Runs(v, b));
  }

  lemma {:induction false} BlocksAtSize(v: nat, cs: seq<nat>)
    ensures |BlocksAt(v, cs)| == Times(|cs|, v)
  {
    if cs != [] {
      BlocksAtSize(v, cs[1..]);
      assert Runs(v, cs)[1..] == Runs(v, cs[1..]);
      TimesMore(|cs[1..]|, 1, v);
    }
  }

  lemma BlocksAtPart(v: nat, cs: seq<nat>, i: nat, k: nat)
    requires i <= k <= |cs|
    ensures Times(i, v) <= Times(k, v) <= |BlocksAt(v, cs)|
    ensures BlocksAt(v, cs[i..k]) == BlocksAt(v, cs)[Times(i, v)..Times(k, v)]
  {
    hide BlocksAt, Times;
    var a, b, c := cs[..i], cs[i..k], cs[k..];
    assert cs == a + b + c;
    BlocksAtSplit(v, a + b, c);
    BlocksAtSplit(v, a, b);
    BlocksAtSize(v, a);
    BlocksAtSize(v, b);
    TimesMore(i, k - i, v);
  }

  predicate WholePointers(v: nat, ptrs: seq<F.Pointer>)
    requires v > 0
  {
    forall p <- ptrs :: p.Extent? ==> p.count % v == 0
  }

  lemma MultipleMore(a: int, b: int, v: nat)
    requires v > 0 && a % v == 0 && b % v == 0
    ensures (a + b) % v == 0
  {
    var q := b / v;
    assert b == q * v;
    ModAddMultiple(a, q, v);
  }

  lemma {:induction false} WholeBlocks(v: nat, ptrs: seq<F.Pointer>)
    requires v > 0 && WholePointers(v, ptrs)
    ensures |F.Blocks(ptrs)| % v == 0
  {
    if ptrs != [] {
      assert ptrs[0] in ptrs && forall p <- ptrs[1..] :: p in ptrs;
      WholeBlocks(v, ptrs[1..]);
      MultipleMore(|F.BlocksOf(ptrs[0])|, |F.Blocks(ptrs[1..])|, v);
    }
  }

  // Runs of whole clusters that a pointer can be for.
  predicate WholeRuns(v: nat, runs: seq<F.Run>)
    requires v > 0
  {
    forall r <- runs :: r.count % v == 0 && (r.count <= F.MAX_COUNT || F.MAX_COUNT % v == 0)
  }

  lemma {:induction false} RunWhole(v: nat, lbn: nat, count: nat)
    requires v > 0 && count % v == 0 && (count <= F.MAX_COUNT || F.MAX_COUNT % v == 0)
    ensures WholePointers(v, F.RunPointers(lbn, count))
    decreases count
  {
    if count > 0 {
      var n := if count < F.MAX_COUNT then count else F.MAX_COUNT;
      LessMultiple(count, n, v);
      RunWhole(v, lbn + n, count - n);
    }
  }

  lemma LessMultiple(a: int, b: int, v: nat)
    requires v > 0 && a % v == 0 && (b % v == 0 || b == a)
    ensures (a - b) % v == 0
  {
    if b % v == 0 {
      var q := b / v;
      assert b == q * v && a - b == a + (-q) * v;
      ModAddMultiple(a, -q, v);
    }
  }

  lemma {:induction false} PointersWhole(v: nat, runs: seq<F.Run>)
    requires v > 0 && WholeRuns(v, runs)
    ensures WholePointers(v, F.Pointers(runs))
  {
    hide F.RunPointers;
    if runs != [] {
      assert runs[0] in runs && forall r <- runs[1..] :: r in runs;
      RunWhole(v, runs[0].lbn, runs[0].count);
      PointersWhole(v, runs[1..]);
    }
  }

  lemma {:induction false} MergedWhole(v: nat, runs: seq<F.Run>)
    requires v > 0 && forall r <- runs :: r.count % v == 0
    ensures forall r <- F.Merged(runs) :: r.count % v == 0
  {
    if runs != [] {
      var k := |runs| - 1;
      var out, r := F.Merged(runs[..k]), runs[k];
      assert r in runs && forall x <- runs[..k] :: x in runs;
      MergedWhole(v, runs[..k]);
      if out != [] {
        assert out[|out| - 1] in out;
        MultipleMore(out[|out| - 1].count, r.count, v);
      }
    }
  }

  // No run is longer than all of them.
  lemma {:induction false} RunWithin(runs: seq<F.Run>, r: F.Run)
    requires r in runs
    ensures r.count <= |F.Lbns(runs)|
  {
    if r != runs[0] { RunWithin(runs[1..], r); }
  }

  lemma ClusterRunsWhole(v: nat, cs: seq<nat>)
    requires v > 0 && Whole(v, |cs|)
    ensures WholeRuns(v, F.Merged(Runs(v, cs)))
  {
    hide F.Merged, F.Lbns;
    var runs := Runs(v, cs);
    forall r | r in runs
      ensures r.count % v == 0
    {
      DivModUnique(v, 1, 0, v);
    }
    MergedWhole(v, runs);
    F.MergedBlocks(runs);
    BlocksAtSize(v, cs);
    forall r | r in F.Merged(runs)
      ensures r.count <= F.MAX_COUNT || F.MAX_COUNT % v == 0
    {
      RunWithin(F.Merged(runs), r);
    }
  }

  lemma {:induction false} ChunksWhole(v: nat, ptrs: seq<F.Pointer>)
    requires v > 0 && WholePointers(v, ptrs)
    ensures forall c <- F.Chunks(ptrs) :: WholePointers(v, c)
    decreases |ptrs|
  {
    hide F.Fit;
    if ptrs != [] {
      var n := if F.Fit(ptrs, F.EXT_CAP) > 1 then F.Fit(ptrs, F.EXT_CAP) else 1;
      assert forall p <- ptrs[..n] :: p in ptrs;
      assert forall p <- ptrs[n..] :: p in ptrs;
      ChunksWhole(v, ptrs[n..]);
    }
  }

  lemma RunsRest(v: nat, runs: seq<F.Run>)
    requires v > 0 && runs != [] && WholeRuns(v, runs)
    ensures WholeRuns(v, runs[1..]) && runs[0].count % v == 0
  {
    assert runs[0] in runs && forall r <- runs[1..] :: r in runs;
  }

  lemma GrowWhole(v: nat, had: seq<F.Pointer>, cap: nat, runs: seq<F.Run>)
    requires v > 0 && runs != [] && WholeRuns(v, runs)
    ensures var (ptrs, rest) := F.Grow(had, cap, runs);
      && WholeRuns(v, rest) && |F.Blocks(ptrs)| >= |F.Blocks(had)| && (|F.Blocks(ptrs)| - |F.Blocks(had)|) % v == 0
  {
    hide F.Blocks, F.Lbns, F.Encoded, F.Fits, F.ExtentOf, F.Span, WholeRuns;
    F.GrowBlocks(had, cap, runs);
    var (ptrs, rest) := F.Grow(had, cap, runs);
    RunsRest(v, runs);
    if rest != runs {
      assert runs == [runs[0]] + runs[1..];
      F.LbnsSplit([runs[0]], runs[1..]);
      F.LbnsOne(runs[0]);
    } else {
      DivModUnique(0, 0, 0, v);
    }
  }

  lemma SharedWhole(v: nat, last: F.Seg, cs: seq<nat>)
    requires v > 0 && Whole(v, |cs|)
    ensures var s := Shared(v, last, cs);
      && |F.Blocks(s.kept)| >= |F.Blocks(last.ptrs)| && (|F.Blocks(s.kept)| - |F.Blocks(last.ptrs)|) % v == 0
      && forall c <- s.chunks :: WholePointers(v, c)
  {
    hide F.Merged, F.Grow, F.Pointers, F.Chunks, F.Blocks, WholeRuns, F.Fit;
    var runs := F.Merged(Runs(v, cs));
    ClusterRunsWhole(v, cs);
    if runs == [] {
      DivModUnique(0, 0, 0, v);
    } else {
      GrowWhole(v, last.ptrs, last.cap, runs);
      var (ptrs, rest) := F.Grow(last.ptrs, last.cap, runs);
      PointersWhole(v, rest);
      var more := F.Pointers(rest);
      var k := F.Keep(last, ptrs + more);
      assert (ptrs + more)[k..] == more[k - |ptrs|..] && (ptrs + more)[..k] == ptrs + more[..k - |ptrs|];
      assert forall p <- more[k - |ptrs|..] :: p in more;
      assert forall p <- more[..k - |ptrs|] :: p in more;
      ChunksWhole(v, more[k - |ptrs|..]);
      F.BlocksSplit(ptrs, more[..k - |ptrs|]);
      WholeBlocks(v, more[..k - |ptrs|]);
      MultipleMore(|F.Blocks(ptrs)| - |F.Blocks(last.ptrs)|, |F.Blocks(more[..k - |ptrs|])|, v);
    }
  }

  lemma ReachedExactly(v: nat, k: nat)
    requires v > 0
    ensures Reached(v, Times(k, v)) == k
  {
    DivModUnique(k * v + v - 1, k, v - 1, v);
  }

  // Each part is the clusters its pointers are for.
  lemma {:induction false} PartsExact(v: nat, cs: seq<nat>, i: nat, k: nat, chunks: seq<seq<F.Pointer>>)
    requires v > 0 && i <= k <= |cs| && (forall c <- chunks :: WholePointers(v, c))
    requires Times(k, v) <= |BlocksAt(v, cs)| && BlocksAt(v, cs)[Times(k, v)..] == F.Blocks(F.Joined(chunks))
    ensures var parts := Parts(v, cs, i, Times(k, v), chunks);
      && parts[0] == cs[i..k] && forall j | 0 <= j < |chunks| :: BlocksAt(v, parts[j + 1]) == F.Blocks(chunks[j])
    decreases |chunks|
  {
    hide F.Blocks, BlocksAt, WholePointers, Reached, F.Joined, Times;
    BlocksAtSize(v, cs);
    if chunks == [] {
      NoBlocks();
      NoMoreThan(v, |cs|, k);
    } else {
      var c, rest := chunks[0], chunks[1..];
      assert c in chunks && forall x <- rest :: x in chunks;
      ReachedExactly(v, k);
      JoinedBlocks(chunks);
      WholeBlocks(v, c);
      var m := TimesOf(|F.Blocks(c)|, v);
      TimesMore(k, m, v);
      NoMoreThan(v, k + m, |cs|);
      BlocksAtPart(v, cs, k, k + m);
      OnePart(BlocksAt(v, cs), Times(k, v), F.Blocks(c), F.Blocks(F.Joined(rest)));
      PartsExact(v, cs, k, k + m, rest);
      var more := Parts(v, cs, k, Times(k + m, v), rest);
      assert Parts(v, cs, i, Times(k, v), chunks) == [cs[i..k]] + more;
      ShiftParts(v, [cs[i..k]] + more, more, chunks);
    }
  }

  lemma OnePart(all: seq<nat>, k: nat, c: seq<nat>, rest: seq<nat>)
    requires k <= |all| && all[k..] == c + rest
    ensures k + |c| <= |all| && all[k..k + |c|] == c && all[k + |c|..] == rest
  {
    assert all[k..][..|c|] == all[k..k + |c|] && all[k..][|c|..] == all[k + |c|..];
  }

  lemma ShiftParts(v: nat, parts: seq<seq<nat>>, more: seq<seq<nat>>, chunks: seq<seq<F.Pointer>>)
    requires chunks != [] && |parts| == 1 + |more| && parts[1..] == more && |more| == |chunks|
    requires BlocksAt(v, more[0]) == F.Blocks(chunks[0])
    requires forall j | 0 <= j < |chunks[1..]| :: BlocksAt(v, more[j + 1]) == F.Blocks(chunks[1..][j])
    ensures forall j | 0 <= j < |chunks| :: BlocksAt(v, parts[j + 1]) == F.Blocks(chunks[j])
  {
    hide BlocksAt, F.Blocks;
    forall j | 0 <= j < |chunks|
      ensures BlocksAt(v, parts[j + 1]) == F.Blocks(chunks[j])
    {
      assert parts[j + 1] == more[j];
      if j > 0 { assert BlocksAt(v, more[(j - 1) + 1]) == F.Blocks(chunks[1..][j - 1]); }
    }
  }

  lemma NoBlocks()
    ensures F.Blocks(F.Joined([])) == []
  {
  }

  lemma JoinedBlocks(chunks: seq<seq<F.Pointer>>)
    requires chunks != []
    ensures F.Blocks(F.Joined(chunks)) == F.Blocks(chunks[0]) + F.Blocks(F.Joined(chunks[1..]))
  {
    F.BlocksSplit(chunks[0], F.Joined(chunks[1..]));
  }

  /** The pointers of the header that is then the last. */
  function NewLast(v: nat, last: F.Seg, cs: seq<nat>): F.Seg {
    var s := Shared(v, last, cs);
    if s.chunks == [] then F.Seg(s.kept, last.cap) else F.Seg(s.chunks[|s.chunks| - 1], F.EXT_CAP)
  }

  /** Where the last header's pointers stand for its clusters, so do they after it, and
      each new header's for its own: what is written is what the model has. */
  lemma StandsAfter(v: nat, last: F.Seg, at: seq<nat>, cs: seq<nat>)
    requires v > 0 && Stands(v, last, at) && Whole(v, |cs|) && forall c <- cs :: (c + 1) * v <= 0x1_0000_0000
    ensures var s, parts := Shared(v, last, cs), Divided(v, last, cs);
      && Stands(v, F.Seg(s.kept, last.cap), at + parts[0])
      && forall j | 0 <= j < |s.chunks| :: Stands(v, F.Seg(s.chunks[j], F.EXT_CAP), parts[j + 1])
  {
    hide F.Spread, F.Blocks, F.Fits, F.Joined, BlocksAt, WholePointers, Reached, Times, Parts;
    var s := Shared(v, last, cs);
    AllAddressable(v, cs);
    F.SpreadBlocks(last, Runs(v, cs));
    LbnsAre(v, cs);
    SharedWhole(v, last, cs);
    BlocksAtSize(v, cs);
    var had, all, kept := F.Blocks(last.ptrs), BlocksAt(v, cs), F.Blocks(s.kept);
    var k := TimesOf(|kept| - |had|, v);
    KeptOf(kept, F.Blocks(F.Joined(s.chunks)), had, all, Times(k, v));
    NoMoreThan(v, k, |cs|);
    PartsExact(v, cs, 0, k, s.chunks);
    BlocksAtPart(v, cs, 0, k);
    BlocksAtSplit(v, at, cs[0..k]);
    TimesMore(0, 0, v);
    assert all[0..Times(k, v)] == all[..Times(k, v)];
    forall j | 0 <= j < |s.chunks|
      ensures F.Fits(F.Seg(s.chunks[j], F.EXT_CAP))
    {
      assert s.chunks[j] in s.chunks;
    }
  }

  lemma AllAddressable(v: nat, cs: seq<nat>)
    requires v > 0 && forall c <- cs :: (c + 1) * v <= 0x1_0000_0000
    ensures forall r <- Runs(v, cs) :: F.Addressable(r)
  {
    forall r | r in Runs(v, cs)
      ensures F.Addressable(r)
    {
      var i :| 0 <= i < |cs| && Runs(v, cs)[i] == r;
      assert cs[i] in cs && (cs[i] + 1) * v == cs[i] * v + v;
    }
  }

  lemma LbnsAre(v: nat, cs: seq<nat>)
    ensures F.Lbns(Runs(v, cs)) == BlocksAt(v, cs)
  {
  }

  lemma KeptOf(kept: seq<nat>, rest: seq<nat>, had: seq<nat>, all: seq<nat>, k: nat)
    requires kept + rest == had + all && |kept| == |had| + k
    ensures k <= |all| && kept == had + all[..k] && rest == all[k..]
  {
    assert |rest| == |all| - k;
    assert kept == (kept + rest)[..|kept|] && rest == (kept + rest)[|kept|..];
  }

  // ---------------------------------------------------------------------
  // Clusters apart
  // ---------------------------------------------------------------------

  /** None is right after the one before it. */
  predicate Scattered(cs: seq<nat>) { forall i | 0 < i < |cs| :: cs[i - 1] + 1 != cs[i] }

  lemma MergedSame(runs: seq<F.Run>)
    requires F.Maximal(runs) && forall r <- runs :: r.count > 0
    ensures F.Merged(runs) == runs
  {
    hide F.Merged, F.Lbns;
    F.MergedBlocks(runs);
    F.MergedMaximal(runs);
    F.MergedFrom(runs);
    F.OneWay(F.Merged(runs), runs);
  }

  lemma ScatteredRuns(v: nat, cs: seq<nat>)
    requires v > 0 && Scattered(cs)
    ensures F.Maximal(Runs(v, cs))
  {
    forall i | 0 < i < |cs|
      ensures Runs(v, cs)[i - 1].lbn + Runs(v, cs)[i - 1].count != Runs(v, cs)[i].lbn
    {
      var a, b := cs[i - 1] + 1, cs[i];
      assert cs[i - 1] * v + v == Times(a, v) && b * v == Times(b, v);
      if a < b { TimesRise(a, b, v); } else { TimesRise(b, a, v); }
    }
  }

  lemma {:induction false} ShortPointers(runs: seq<F.Run>)
    requires forall r <- runs :: 1 <= r.count <= 256 && r.lbn < 0x40_0000
    ensures |F.Pointers(runs)| == |runs| && F.AllShort(F.Pointers(runs))
  {
    if runs != [] {
      assert runs[0] in runs && forall r <- runs[1..] :: r in runs;
      ShortPointers(runs[1..]);
      assert F.RunPointers(runs[0].lbn, runs[0].count) == [F.Extent(1, runs[0].count, runs[0].lbn)];
    }
  }

  /** A cluster that is apart takes a pointer of four bytes: what the first header has no
      room for needs a header for each 107. */
  lemma ScatteredNeed(v: nat, room: nat, cs: seq<nat>)
    requires 0 < v <= 256 && Scattered(cs) && forall c <- cs :: c * v < 0x40_0000
    ensures Further(v, F.Seg([], room), cs) == if |cs| <= room / 4 then 0 else (|cs| - room / 4 + 106) / 107
  {
    hide F.Pointers, F.Fit, F.Chunks, F.Merged;
    var runs := Runs(v, cs);
    ScatteredRuns(v, cs);
    forall r | r in runs
      ensures 1 <= r.count <= 256 && r.lbn < 0x40_0000
    {
      var i :| 0 <= i < |cs| && runs[i] == r;
      assert cs[i] in cs;
    }
    MergedSame(runs);
    if runs != [] {
      ShortPointers(runs);
      var all := [] + F.Pointers(runs);
      assert all == F.Pointers(runs);
      F.FitShort(all, room);
      var k := F.Keep(F.Seg([], room), all);
      assert forall p <- all[k..] :: p in all;
      F.ChunksShort(all[k..]);
    }
  }
}
