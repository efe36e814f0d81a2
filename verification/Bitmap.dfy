/** The storage bitmap: one bit a cluster, true when the cluster is free.
    Which clusters an allocation takes, what a release gives back, and what a
    repair makes of the bits from the files' maps. */
module Bitmap {

  datatype Option<T> = None | Some(value: T)

  /** Consecutive clusters. */
  datatype Piece = Piece(start: nat, len: nat)

  datatype How = Whole | BestTry | Wherever // contiguous, fewest pieces, any

  predicate In(p: Piece, c: int) { p.start <= c < p.start + p.len }

  predicate InAny(ps: seq<Piece>, c: int) { exists i | 0 <= i < |ps| :: In(ps[i], c) }

  predicate AllFree(bits: seq<bool>, start: int, len: nat) {
    0 <= start && start + len <= |bits| && forall c | start <= c < start + len :: bits[c]
  }

  function Sum(ps: seq<Piece>): nat {
    if ps == [] then 0 else ps[0].len + Sum(ps[1..])
  }

  /** How many clusters are free among the first n. */
  function FreeBelow(bits: seq<bool>, n: nat): nat
    requires n <= |bits|
  {
    if n == 0 then 0 else FreeBelow(bits, n - 1) + if bits[n - 1] then 1 else 0
  }

  // ---------------------------------------------------------------------
  // Free runs
  // ---------------------------------------------------------------------

  /** A free run that cannot be made longer, up to n. */
  predicate IsRun(bits: seq<bool>, p: Piece, n: nat)
    requires n <= |bits|
  {
    && p.len > 0 && p.start + p.len <= n && AllFree(bits, p.start, p.len)
    && (p.start == 0 || !bits[p.start - 1]) && (p.start + p.len == |bits| || !bits[p.start + p.len])
  }

  predicate Ordered(ps: seq<Piece>) {
    forall i, j | 0 <= i < j < |ps| :: ps[i].start + ps[i].len <= ps[j].start
  }

  ghost predicate Runs(bits: seq<bool>, ps: seq<Piece>, n: nat)
    requires n <= |bits|
  {
    && (forall p <- ps :: IsRun(bits, p, n)) && Ordered(ps)
    && (forall c | 0 <= c < n && bits[c] :: InAny(ps, c))
    && Sum(ps) == FreeBelow(bits, n)
  }

  lemma {:induction false} SumMore(ps: seq<Piece>, p: Piece)
    ensures Sum(ps + [p]) == Sum(ps) + p.len
  {
    if ps == [] {
      assert ps + [p] == [p];
    } else {
      assert (ps + [p])[1..] == ps[1..] + [p];
      SumMore(ps[1..], p);
    }
  }

  lemma {:induction false} FreeRun(bits: seq<bool>, start: nat, n: nat)
    requires start <= n && AllFree(bits, start, n - start)
    ensures FreeBelow(bits, n) == FreeBelow(bits, start) + n - start
  {
    if n > start { FreeRun(bits, start, n - 1); }
  }

  lemma MoreIn(ps: seq<Piece>, p: Piece, c: int)
    ensures InAny(ps + [p], c) <==> InAny(ps, c) || In(p, c)
  {
    if InAny(ps, c) {
      var i :| 0 <= i < |ps| && In(ps[i], c);
      assert (ps + [p])[i] == ps[i];
    }
    assert (ps + [p])[|ps|] == p;
    if InAny(ps + [p], c) {
      var i :| 0 <= i < |ps| + 1 && In((ps + [p])[i], c);
      if i < |ps| { assert In(ps[i], c); }
    }
  }

  lemma OrderedMore(ps: seq<Piece>, p: Piece)
    requires Ordered(ps) && forall q <- ps :: q.start + q.len <= p.start
    ensures Ordered(ps + [p])
  {
    forall i, j | 0 <= i < j < |ps + [p]|
      ensures (ps + [p])[i].start + (ps + [p])[i].len <= (ps + [p])[j].start
    {
      assert (ps + [p])[i] == ps[i] && ps[i] in ps;
    }
  }

  lemma RunsMore(bits: seq<bool>, ps: seq<Piece>, p: Piece, n: nat)
    requires p.start <= |bits| && Runs(bits, ps, p.start) && p.start + p.len == n <= |bits| && IsRun(bits, p, n)
    ensures Runs(bits, ps + [p], n)
  {
    hide InAny, AllFree, Ordered;
    SumMore(ps, p);
    FreeRun(bits, p.start, n);
    assert forall q <- ps :: IsRun(bits, q, p.start);
    OrderedMore(ps, p);
    forall c | 0 <= c < n && bits[c]
      ensures InAny(ps + [p], c)
    {
      MoreIn(ps, p, c);
    }
  }

  lemma RunsSkip(bits: seq<bool>, ps: seq<Piece>, n: nat)
    requires n < |bits| && Runs(bits, ps, n) && !bits[n]
    ensures Runs(bits, ps, n + 1)
  {
    forall p | p in ps
      ensures IsRun(bits, p, n + 1)
    {
      assert IsRun(bits, p, n);
    }
  }

  /** The free runs, in order. */
  method Scan(bits: seq<bool>) returns (ps: seq<Piece>)
    ensures Runs(bits, ps, |bits|)
  {
    hide Runs, AllFree;
    ps := [];
    var c := 0;
    NoRuns(bits);
    while c < |bits|
      invariant 0 <= c <= |bits| && Runs(bits, ps, c)
      invariant c == 0 || c == |bits| || !bits[c - 1] || !bits[c]
    {
      if bits[c] {
        var start := c;
        NoneFree(bits, c);
        while c < |bits| && bits[c]
          invariant start <= c <= |bits| && AllFree(bits, start, c - start)
        {
          OneMoreFree(bits, start, c);
          c := c + 1;
        }
        RunsMore(bits, ps, Piece(start, c - start), c);
        ps := ps + [Piece(start, c - start)];
      } else {
        RunsSkip(bits, ps, c);
        c := c + 1;
      }
    }
  }

  lemma NoRuns(bits: seq<bool>)
    ensures Runs(bits, [], 0)
  {
  }

  lemma NoneFree(bits: seq<bool>, c: nat)
    requires c <= |bits|
    ensures AllFree(bits, c, 0)
  {
  }

  lemma OneMoreFree(bits: seq<bool>, start: int, c: int)
    requires 0 <= start <= c < |bits| && AllFree(bits, start, c - start) && bits[c]
    ensures AllFree(bits, start, c + 1 - start)
  {
  }

  // ---------------------------------------------------------------------
  // What an allocation takes
  // ---------------------------------------------------------------------

  /** The pieces of line, in its order, as far as want clusters go. */
  function TakeFrom(line: seq<Piece>, want: nat): seq<Piece>
    decreases |line|
  {
    if want == 0 || line == [] then []
    else if line[0].len >= want then [Piece(line[0].start, want)]
    else [line[0]] + TakeFrom(line[1..], want - line[0].len)
  }

  predicate Within(p: Piece, q: Piece) { q.start <= p.start && p.start + p.len <= q.start + q.len }

  predicate Apart(p: Piece, q: Piece) { p.start + p.len <= q.start || q.start + q.len <= p.start }

  predicate AllApart(ps: seq<Piece>) { forall i, j | 0 <= i < j < |ps| :: Apart(ps[i], ps[j]) }

  /** Each piece taken is of the line's, in its place. */
  lemma {:induction false} TakesWithin(line: seq<Piece>, want: nat)
    ensures |TakeFrom(line, want)| <= |line|
    ensures forall i | 0 <= i < |TakeFrom(line, want)| ::
      Within(TakeFrom(line, want)[i], line[i]) && TakeFrom(line, want)[i].start == line[i].start
    ensures Sum(TakeFrom(line, want)) == if Sum(line) < want then Sum(line) else want
    ensures forall i | 0 <= i < |TakeFrom(line, want)| - 1 :: TakeFrom(line, want)[i] == line[i]
    decreases |line|
  {
    if want != 0 && line != [] && line[0].len < want {
      var rest := TakeFrom(line[1..], want - line[0].len);
      TakesWithin(line[1..], want - line[0].len);
      assert ([line[0]] + rest)[1..] == rest;
    } else if want != 0 && line != [] {
      assert [Piece(line[0].start, want)][1..] == [];
    }
  }

  lemma TakesApart(line: seq<Piece>, want: nat)
    requires AllApart(line)
    ensures AllApart(TakeFrom(line, want))
  {
    TakesWithin(line, want);
    var take := TakeFrom(line, want);
    forall i, j | 0 <= i < j < |take|
      ensures Apart(take[i], take[j])
    {
      assert Within(take[i], line[i]) && Within(take[j], line[j]) && Apart(line[i], line[j]);
    }
  }

  // ---------------------------------------------------------------------
  // Orders
  // ---------------------------------------------------------------------

  // The longer first, and of two as long the one that comes first.
  predicate Before(p: Piece, q: Piece) { p.len > q.len || (p.len == q.len && p.start < q.start) }

  predicate Sorted(ps: seq<Piece>) { forall i, j | 0 <= i < j < |ps| :: Before(ps[i], ps[j]) }

  // A piece more among those of a line, at k.
  function With(line: seq<Piece>, k: nat, p: Piece): seq<Piece>
    requires k <= |line|
  {
    line[..k] + [p] + line[k..]
  }

  lemma {:induction false} SumSplit(a: seq<Piece>, b: seq<Piece>)
    ensures Sum(a + b) == Sum(a) + Sum(b)
  {
    if a == [] {
      assert a + b == b;
    } else {
      assert (a + b)[1..] == a[1..] + b;
      SumSplit(a[1..], b);
    }
  }

  lemma WithSum(line: seq<Piece>, k: nat, p: Piece)
    requires k <= |line|
    ensures Sum(With(line, k, p)) == Sum(line) + p.len
  {
    hide With;
    WithShape(line, k, p);
    SumSplit(line[..k], [p] + line[k..]);
    SumSplit(line[..k], line[k..]);
    SumOne(p, line[k..]);
  }

  lemma WithShape(line: seq<Piece>, k: nat, p: Piece)
    requires k <= |line|
    ensures With(line, k, p) == line[..k] + ([p] + line[k..]) && line == line[..k] + line[k..]
  {
  }

  lemma SumOne(p: Piece, rest: seq<Piece>)
    ensures Sum([p] + rest) == p.len + Sum(rest)
  {
    assert ([p] + rest)[1..] == rest;
  }

  lemma WithMembers(line: seq<Piece>, k: nat, p: Piece)
    requires k <= |line|
    ensures multiset(With(line, k, p)) == multiset(line) + multiset{p}
  {
    assert line == line[..k] + line[k..];
  }

  lemma WithAt(line: seq<Piece>, k: nat, p: Piece, i: nat)
    requires k <= |line| && i <= |line|
    ensures With(line, k, p)[i] == if i < k then line[i] else if i == k then p else line[i - 1]
  {
  }

  lemma WithSorted(line: seq<Piece>, k: nat, p: Piece)
    requires k <= |line| && Sorted(line) && forall j | k <= j < |line| :: Before(p, line[j])
    requires forall j | 0 <= j < k :: Before(line[j], p)
    ensures Sorted(With(line, k, p))
  {
    hide With;
    assert |With(line, k, p)| == |line| + 1 by { WithSize(line, k, p); }
    forall i, j | 0 <= i < j < |line| + 1
      ensures Before(With(line, k, p)[i], With(line, k, p)[j])
    {
      WithAt(line, k, p, i);
      WithAt(line, k, p, j);
    }
  }

  lemma WithSize(line: seq<Piece>, k: nat, p: Piece)
    requires k <= |line|
    ensures |With(line, k, p)| == |line| + 1
  {
  }

  lemma WithApart(line: seq<Piece>, k: nat, p: Piece)
    requires k <= |line| && AllApart(line) && forall q <- line :: Apart(p, q)
    ensures AllApart(With(line, k, p))
  {
    hide With;
    WithSize(line, k, p);
    forall i, j | 0 <= i < j < |line| + 1
      ensures Apart(With(line, k, p)[i], With(line, k, p)[j])
    {
      WithAt(line, k, p, i);
      WithAt(line, k, p, j);
      if i == k { assert line[j - 1] in line; }
      if j == k { assert line[i] in line; }
    }
  }

  // Where a piece goes in a sorted line, all of whose pieces start before it.
  method Place(line: seq<Piece>, p: Piece) returns (k: nat)
    requires Sorted(line) && forall q <- line :: q.start < p.start
    ensures k <= |line| && Sorted(With(line, k, p))
  {
    k := |line|;
    while k > 0 && line[k - 1].len < p.len
      invariant 0 <= k <= |line| && forall j | k <= j < |line| :: Before(p, line[j])
    {
      k := k - 1;
    }
    forall j | 0 <= j < k
      ensures Before(line[j], p)
    {
      assert line[j] in line;
      if j < k - 1 { assert Before(line[j], line[k - 1]); }
    }
    WithSorted(line, k, p);
  }

  /** The same pieces, largest first. */
  method SortLongest(ps: seq<Piece>) returns (line: seq<Piece>)
    requires Ordered(ps) && forall p <- ps :: p.len > 0
    ensures multiset(line) == multiset(ps) && Sorted(line) && Sum(line) == Sum(ps) && AllApart(line)
  {
    hide With, Sum, Apart, Before;
    line := [];
    for i := 0 to |ps|
      invariant multiset(line) == multiset(ps[..i]) && Sorted(line) && Sum(line) == Sum(ps[..i]) && AllApart(line)
    {
      assert ps[..i + 1] == ps[..i] + [ps[i]];
      Earlier(line, ps, i);
      var k := Place(line, ps[i]);
      WithSum(line, k, ps[i]);
      SumMore(ps[..i], ps[i]);
      WithMembers(line, k, ps[i]);
      WithApart(line, k, ps[i]);
      line := With(line, k, ps[i]);
    }
    assert ps[..|ps|] == ps;
  }

  lemma Earlier(line: seq<Piece>, ps: seq<Piece>, i: nat)
    requires i < |ps| && Ordered(ps) && (forall p <- ps :: p.len > 0) && multiset(line) == multiset(ps[..i])
    ensures forall q <- line :: q.start < ps[i].start && Apart(ps[i], q)
  {
    forall q | q in line
      ensures q.start < ps[i].start && Apart(ps[i], q)
    {
      assert q in multiset(line);
      var j :| 0 <= j < i && ps[..i][j] == q;
      assert ps[j] in ps;
    }
  }

  // ---------------------------------------------------------------------
  // Allocation
  // ---------------------------------------------------------------------

  /** want clusters that are free, each in one piece. */
  ghost predicate Chosen(bits: seq<bool>, take: seq<Piece>, want: nat) {
    && (forall p <- take :: p.len > 0 && AllFree(bits, p.start, p.len))
    && AllApart(take) && Sum(take) == want
  }

  // A free run begins at n.
  predicate Begins(bits: seq<bool>, n: int) {
    0 <= n < |bits| && bits[n] && (n == 0 || !bits[n - 1])
  }

  /** Whether there is room: where the file ends, in one piece anywhere, or in
      all. */
  ghost predicate HasRoom(bits: seq<bool>, want: nat, how: How, next: Option<nat>) {
    if !how.Whole? then FreeBelow(bits, |bits|) >= want
    else if next.Some? then Begins(bits, next.value) && AllFree(bits, next.value, want)
    else exists s :: AllFree(bits, s, want)
  }

  // Free space begins where the file ends.
  predicate Adjoins(bits: seq<bool>, next: Option<nat>) { next.Some? && Begins(bits, next.value) }

  /** No choice has fewer pieces. */
  ghost predicate FewestPieces(bits: seq<bool>, take: seq<Piece>, want: nat) {
    forall other: seq<Piece> | Chosen(bits, other, want) :: |take| <= |other|
  }

  /** Nothing free is left below what is taken. */
  ghost predicate LowestFree(bits: seq<bool>, take: seq<Piece>) {
    forall c, x | 0 <= c < x && c < |bits| && bits[c] && InAny(take, x) :: InAny(take, c)
  }

  // The run that starts at n, if one does.
  method RunAt(ps: seq<Piece>, n: nat) returns (i: Option<nat>)
    ensures i.Some? ==> i.value < |ps| && ps[i.value].start == n
    ensures i.None? ==> forall p <- ps :: p.start != n
  {
    for k := 0 to |ps|
      invariant forall j | 0 <= j < k :: ps[j].start != n
    {
      if ps[k].start == n {
        i := Some(k);
        return;
      }
    }
    i := None;
  }

  // The first run long enough.
  method FirstLong(ps: seq<Piece>, want: nat) returns (i: Option<nat>)
    ensures i.Some? ==> i.value < |ps| && ps[i.value].len >= want && forall j | 0 <= j < i.value :: ps[j].len < want
    ensures i.None? ==> forall p <- ps :: p.len < want
  {
    for k := 0 to |ps|
      invariant forall j | 0 <= j < k :: ps[j].len < want
    {
      if ps[k].len >= want {
        i := Some(k);
        return;
      }
    }
    i := None;
  }

  // A free stretch lies in one run.
  lemma InOneRun(bits: seq<bool>, ps: seq<Piece>, s: int, len: nat)
    requires Runs(bits, ps, |bits|) && AllFree(bits, s, len) && len > 0
    ensures exists p <- ps :: Within(Piece(s, len), p)
    ensures Begins(bits, s) ==> exists p <- ps :: p.start == s && p.len >= len
  {
    assert InAny(ps, s);
    var i :| 0 <= i < |ps| && In(ps[i], s);
    var p := ps[i];
    assert p in ps && IsRun(bits, p, |bits|);
    assert p.start + p.len == |bits| || !bits[p.start + p.len];
    assert Within(Piece(s, len), p);
    assert s == 0 || s == p.start || bits[s - 1];
  }

  // No stretch as long begins before the first run long enough.
  lemma FirstFit(bits: seq<bool>, ps: seq<Piece>, i: nat, want: nat)
    requires Runs(bits, ps, |bits|) && i < |ps| && want > 0 && forall j | 0 <= j < i :: ps[j].len < want
    ensures forall s | AllFree(bits, s, want) :: ps[i].start <= s
  {
    forall s | AllFree(bits, s, want)
      ensures ps[i].start <= s
    {
      InOneRun(bits, ps, s, want);
      var p :| p in ps && Within(Piece(s, want), p);
      var k :| 0 <= k < |ps| && ps[k] == p;
    }
  }

  /** In one piece: right after the file where it has one, else the first run
      long enough. */
  method ChooseWhole(bits: seq<bool>, ps: seq<Piece>, want: nat, next: Option<nat>) returns (take: Option<seq<Piece>>)
    requires want > 0 && Runs(bits, ps, |bits|)
    ensures take.Some? <==> HasRoom(bits, want, Whole, next)
    ensures take.Some? ==> Chosen(bits, take.value, want) && |take.value| == 1
    ensures take.Some? && next.Some? ==> take.value[0].start == next.value
    ensures take.Some? && next.None? ==> forall s | AllFree(bits, s, want) :: take.value[0].start <= s
  {
    hide Runs;
    var i: Option<nat>;
    if next.Some? {
      i := RunAt(ps, next.value);
      if i.Some? && ps[i.value].len < want {
        RunIs(bits, ps, i.value);
        i := None;
      }
      if i.None? && Begins(bits, next.value) && AllFree(bits, next.value, want) {
        InOneRun(bits, ps, next.value, want);
      }
    } else {
      i := FirstLong(ps, want);
      if i.None? {
        forall s | AllFree(bits, s, want)
          ensures false
        {
          InOneRun(bits, ps, s, want);
        }
      } else {
        FirstFit(bits, ps, i.value, want);
      }
    }
    if i.None? {
      take := None;
    } else {
      RunIs(bits, ps, i.value);
      OnePiece(bits, ps[i.value], want);
      take := Some([Piece(ps[i.value].start, want)]);
    }
  }

  lemma RunIs(bits: seq<bool>, ps: seq<Piece>, i: nat)
    requires Runs(bits, ps, |bits|) && i < |ps|
    ensures IsRun(bits, ps[i], |bits|) && Begins(bits, ps[i].start)
    ensures forall n | n > ps[i].len :: !AllFree(bits, ps[i].start, n)
  {
    var p := ps[i];
    assert p in ps;
    assert p.start + p.len == |bits| || !bits[p.start + p.len];
  }

  lemma OnePiece(bits: seq<bool>, p: Piece, want: nat)
    requires want > 0 && AllFree(bits, p.start, p.len) && p.len >= want
    ensures Chosen(bits, [Piece(p.start, want)], want) && AllFree(bits, p.start, want)
  {
  }

  // The piece at i goes first.
  function ToFront(line: seq<Piece>, i: nat): seq<Piece>
    requires i < |line|
  {
    [line[i]] + line[..i] + line[i + 1..]
  }

  lemma ToFrontKeeps(line: seq<Piece>, i: nat)
    requires i < |line| && AllApart(line)
    ensures Sum(ToFront(line, i)) == Sum(line) && AllApart(ToFront(line, i))
    ensures forall p <- ToFront(line, i) :: p in line
  {
    hide Apart, With;
    var rest := line[..i] + line[i + 1..];
    FrontShape(line, i);
    WithSum(rest, i, line[i]);
    WithSum(rest, 0, line[i]);
    RestApart(line, i);
    WithApart(rest, 0, line[i]);
  }

  lemma FrontShape(line: seq<Piece>, i: nat)
    requires i < |line|
    ensures var rest := line[..i] + line[i + 1..];
      && line == With(rest, i, line[i]) && ToFront(line, i) == With(rest, 0, line[i])
      && (forall p <- rest :: p in line)
      && (forall p <- ToFront(line, i) :: p in line)
  {
    var rest := line[..i] + line[i + 1..];
    assert forall p :: p in line[..i] || p in line[i + 1..] ==> p in line;
  }

  lemma ApartEither(line: seq<Piece>, i: nat, j: nat)
    requires AllApart(line) && i < |line| && j < |line| && i != j
    ensures Apart(line[i], line[j])
  {
    assert i < j ==> Apart(line[i], line[j]);
    assert j < i ==> Apart(line[j], line[i]);
  }

  lemma RestApart(line: seq<Piece>, i: nat)
    requires AllApart(line) && i < |line|
    ensures AllApart(line[..i] + line[i + 1..])
    ensures forall q <- line[..i] + line[i + 1..] :: Apart(line[i], q)
  {
    hide Apart;
    var rest := line[..i] + line[i + 1..];
    forall j | 0 <= j < |rest|
      ensures Apart(line[i], rest[j])
    {
      ApartEither(line, i, if j < i then j else j + 1);
    }
    forall a, b | 0 <= a < b < |rest|
      ensures Apart(rest[a], rest[b])
    {
      ApartEither(line, if a < i then a else a + 1, if b < i then b else b + 1);
    }
  }

  // Pieces of free runs, in whatever order.
  lemma TakesChosen(bits: seq<bool>, line: seq<Piece>, want: nat)
    requires AllApart(line) && (forall p <- line :: IsRun(bits, p, |bits|)) && Sum(line) >= want
    ensures Chosen(bits, TakeFrom(line, want), want)
  {
    TakesWithin(line, want);
    TakesApart(line, want);
    TakesSome(line, want);
    var take := TakeFrom(line, want);
    forall p | p in take
      ensures p.len > 0 && AllFree(bits, p.start, p.len)
    {
      var i :| 0 <= i < |take| && take[i] == p;
      assert Within(take[i], line[i]) && line[i] in line;
    }
  }

  lemma {:induction false} TakesSome(line: seq<Piece>, want: nat)
    requires forall p <- line :: p.len > 0
    ensures forall p <- TakeFrom(line, want) :: p.len > 0
    decreases |line|
  {
    if want != 0 && line != [] && line[0].len < want {
      TakesSome(line[1..], want - line[0].len);
    }
  }

  /** A choice of free pieces that add up: right after the file first where free
      space begins there, then the others in order, or the largest first. */
  method ChoosePieces(bits: seq<bool>, ps: seq<Piece>, want: nat, how: How, next: Option<nat>)
    returns (take: Option<seq<Piece>>)
    requires !how.Whole? && Runs(bits, ps, |bits|)
    ensures take.Some? <==> HasRoom(bits, want, how, next)
    ensures take.Some? ==> Chosen(bits, take.value, want)
    ensures take.Some? && want > 0 && Adjoins(bits, next) ==> take.value != [] && take.value[0].start == next.value
    ensures take.Some? && how.BestTry? && !Adjoins(bits, next) ==> FewestPieces(bits, take.value, want)
    ensures take.Some? && how.Wherever? && !Adjoins(bits, next) ==> LowestFree(bits, take.value)
  {
    hide Runs, Chosen, Sorted, ToFront, FewestPieces, LowestFree;
    RunsAre(bits, ps);
    var line := ps;
    if how == BestTry {
      line := SortLongest(ps);
      SameMembers(ps, line);
    }
    ghost var order := line;
    if next.Some? {
      var i := RunAt(line, next.value);
      if i.Some? {
        RunBegins(bits, line, i.value);
        ToFrontKeeps(line, i.value);
        FrontIs(line, i.value);
        line := ToFront(line, i.value);
      } else if Begins(bits, next.value) {
        InOneRun(bits, ps, next.value, 1);
      }
    }
    if Sum(line) < want {
      take := None;
      return;
    }
    TakesChosen(bits, line, want);
    TakesWithin(line, want);
    var t := Take(line, want);
    if how == BestTry { TakesFewest(bits, ps, order, want); } else { TakesLowest(bits, order, want); }
    take := Some(t);
  }

  lemma RunBegins(bits: seq<bool>, line: seq<Piece>, i: nat)
    requires i < |line| && forall p <- line :: IsRun(bits, p, |bits|)
    ensures Begins(bits, line[i].start)
  {
    assert line[i] in line;
  }

  lemma TakesLowest(bits: seq<bool>, ps: seq<Piece>, want: nat)
    requires Runs(bits, ps, |bits|)
    ensures LowestFree(bits, TakeFrom(ps, want))
  {
    TakesWithin(ps, want);
    var take := TakeFrom(ps, want);
    forall c, x | 0 <= c < x && c < |bits| && bits[c] && InAny(take, x)
      ensures InAny(take, c)
    {
      var i :| 0 <= i < |take| && In(take[i], x);
      assert InAny(ps, c) && Within(take[i], ps[i]);
      var j :| 0 <= j < |ps| && In(ps[j], c);
      assert j <= i;
      assert j < i ==> take[j] == ps[j];
      assert In(take[j], c);
    }
  }

  // ---------------------------------------------------------------------
  // The largest first are the fewest
  // ---------------------------------------------------------------------

  // The clusters of the pieces of a line whose places are in s, of the first n.
  ghost function Covered(line: seq<Piece>, s: set<nat>, n: nat): (r: set<int>)
    requires n <= |line|
  {
    if n == 0 then {}
    else if n - 1 in s then Covered(line, s, n - 1) + Clusters(line[n - 1])
    else Covered(line, s, n - 1)
  }

  ghost function Clusters(p: Piece): set<int> { set c | p.start <= c < p.start + p.len && In(p, c) }

  ghost function SumAt(line: seq<Piece>, s: set<nat>, n: nat): nat
    requires n <= |line|
  {
    if n == 0 then 0 else SumAt(line, s, n - 1) + if n - 1 in s then line[n - 1].len else 0
  }

  ghost function Count(s: set<nat>, n: nat): (k: nat)
    ensures k <= n
  {
    if n == 0 then 0 else Count(s, n - 1) + if n - 1 in s then 1 else 0
  }

  lemma {:induction false} ClustersSize(p: Piece)
    ensures |Clusters(p)| == p.len
    decreases p.len
  {
    if p.len == 0 {
      assert Clusters(p) == {};
    } else {
      var q := Piece(p.start, p.len - 1);
      ClustersSize(q);
      assert Clusters(p) == Clusters(q) + {p.start + p.len - 1};
    }
  }

  lemma {:induction false} CoveredSize(line: seq<Piece>, s: set<nat>, n: nat)
    requires n <= |line|
    ensures |Covered(line, s, n)| <= SumAt(line, s, n)
  {
    if n > 0 {
      CoveredSize(line, s, n - 1);
      ClustersSize(line[n - 1]);
    }
  }

  lemma {:induction false} CoveredHas(line: seq<Piece>, s: set<nat>, n: nat, i: nat, c: int)
    requires i < n <= |line| && i in s && In(line[i], c)
    ensures c in Covered(line, s, n)
  {
    if i < n - 1 { CoveredHas(line, s, n - 1, i, c); }
  }

  lemma SumTake(line: seq<Piece>, k: nat)
    requires k < |line|
    ensures Sum(line[..k + 1]) == Sum(line[..k]) + line[k].len
  {
    assert line[..k + 1] == line[..k] + [line[k]];
    SumMore(line[..k], line[k]);
  }

  /** So many of a line in order, largest first, are at most the first so many. */
  lemma {:induction false} TopSum(line: seq<Piece>, s: set<nat>, n: nat)
    requires n <= |line| && Sorted(line)
    ensures SumAt(line, s, n) <= Sum(line[..Count(s, n)])
  {
    if n > 0 {
      TopSum(line, s, n - 1);
      var k := Count(s, n - 1);
      if n - 1 in s {
        SumTake(line, k);
        assert k < n - 1 ==> Before(line[k], line[n - 1]);
      }
    }
  }

  lemma {:induction false} CountFew(s: set<nat>, n: nat)
    ensures Count(s, n) <= |s|
  {
    if n > 0 {
      if n - 1 in s {
        CountWithout(s, n - 1, n - 1);
        CountFew(s - {n - 1}, n - 1);
      } else {
        CountFew(s, n - 1);
      }
    }
  }

  lemma {:induction false} CountWithout(s: set<nat>, x: nat, n: nat)
    requires n <= x
    ensures Count(s - {x}, n) == Count(s, n)
  {
    if n > 0 { CountWithout(s, x, n - 1); }
  }

  // All the clusters of the pieces chosen.
  ghost function AllClusters(ps: seq<Piece>): set<int> {
    if ps == [] then {} else Clusters(ps[0]) + AllClusters(ps[1..])
  }

  lemma {:induction false} AllClustersSize(ps: seq<Piece>)
    requires AllApart(ps) && forall i | 0 <= i < |ps| :: ps[i].len > 0
    ensures |AllClusters(ps)| == Sum(ps) && forall c <- AllClusters(ps) :: InAny(ps, c)
  {
    if ps != [] {
      var p, rest := ps[0], ps[1..];
      assert forall i, j | 0 <= i < j < |rest| :: Apart(rest[i], rest[j]) by {
        forall i, j | 0 <= i < j < |rest|
          ensures Apart(rest[i], rest[j])
        {
          assert Apart(ps[i + 1], ps[j + 1]);
        }
      }
      AllClustersSize(rest);
      ClustersSize(p);
      forall c | c in AllClusters(rest)
        ensures c !in Clusters(p) && InAny(ps, c)
      {
        var i :| 0 <= i < |rest| && In(rest[i], c);
        assert Apart(ps[0], ps[i + 1]) && In(ps[i + 1], c);
      }
      assert Clusters(p) !! AllClusters(rest);
      assert forall c <- Clusters(p) :: In(ps[0], c);
    }
  }

  // A run for each piece chosen.
  lemma Homes(bits: seq<bool>, ps: seq<Piece>, line: seq<Piece>, other: seq<Piece>, want: nat) returns (homes: set<nat>)
    requires Runs(bits, ps, |bits|) && (forall p :: p in line <==> p in ps) && Chosen(bits, other, want)
    ensures |homes| <= |other|
    ensures forall i | 0 <= i < |other| :: exists h <- homes :: h < |line| && Within(other[i], line[h])
  {
    hide Runs, AllApart;
    homes := {};
    for k := 0 to |other|
      invariant |homes| <= k && forall i | 0 <= i < k :: exists h <- homes :: h < |line| && Within(other[i], line[h])
    {
      var q := other[k];
      assert q in other;
      InOneRun(bits, ps, q.start, q.len);
      var p :| p in ps && Within(Piece(q.start, q.len), p);
      assert p in line;
      var h: nat :| h < |line| && line[h] == p;
      ghost var was := homes;
      homes := homes + {h};
      forall i | 0 <= i < k + 1
        ensures exists g <- homes :: g < |line| && Within(other[i], line[g])
      {
        if i < k {
          var g :| g in was && g < |line| && Within(other[i], line[g]);
          assert g in homes;
        } else {
          assert h in homes && Within(other[i], line[h]);
        }
      }
    }
  }

  lemma AtMostTop(bits: seq<bool>, ps: seq<Piece>, line: seq<Piece>, other: seq<Piece>, want: nat)
    requires Runs(bits, ps, |bits|) && (forall p :: p in line <==> p in ps) && Sorted(line) && Chosen(bits, other, want)
    ensures exists k :: 0 <= k <= |other| && k <= |line| && want <= Sum(line[..k])
  {
    hide Runs, Sorted;
    var homes := Homes(bits, ps, line, other, want);
    forall i | 0 <= i < |other|
      ensures other[i].len > 0
    {
      assert other[i] in other;
    }
    AllClustersSize(other);
    var n := |line|;
    forall c | c in AllClusters(other)
      ensures c in Covered(line, homes, n)
    {
      var i :| 0 <= i < |other| && In(other[i], c);
      var h :| h in homes && h < |line| && Within(other[i], line[h]);
      CoveredHas(line, homes, n, h, c);
    }
    Fewer(AllClusters(other), Covered(line, homes, n));
    CoveredSize(line, homes, n);
    TopSum(line, homes, n);
    CountFew(homes, n);
    assert 0 <= Count(homes, n) <= |other|;
  }

  lemma Fewer(a: set<int>, b: set<int>)
    requires a <= b
    ensures |a| <= |b|
  {
    assert b == a + (b - a) && a !! (b - a);
  }

  lemma {:induction false} SumGrows(line: seq<Piece>, j: nat, k: nat)
    requires j <= k <= |line|
    ensures Sum(line[..j]) <= Sum(line[..k])
  {
    if j < k {
      SumGrows(line, j, k - 1);
      SumTake(line, k - 1);
    }
  }

  /** Taking the largest runs first takes as few pieces as any choice. */
  lemma TakesFewest(bits: seq<bool>, ps: seq<Piece>, line: seq<Piece>, want: nat)
    requires Runs(bits, ps, |bits|) && (forall p :: p in line <==> p in ps) && Sorted(line)
    ensures FewestPieces(bits, TakeFrom(line, want), want)
  {
    hide Runs, Sorted, Chosen, TakeFrom;
    forall other: seq<Piece> | Chosen(bits, other, want)
      ensures |TakeFrom(line, want)| <= |other|
    {
      AtMostTop(bits, ps, line, other, want);
      var k :| 0 <= k <= |other| && k <= |line| && want <= Sum(line[..k]);
      NoMoreThan(bits, ps, line, want, k);
    }
  }

  // What the first k hold, no more than k are taken for.
  lemma NoMoreThan(bits: seq<bool>, ps: seq<Piece>, line: seq<Piece>, want: nat, k: nat)
    requires Runs(bits, ps, |bits|) && (forall p :: p in line <==> p in ps) && k <= |line| && want <= Sum(line[..k])
    ensures |TakeFrom(line, want)| <= k
  {
    hide TakeFrom;
    var take := TakeFrom(line, want);
    TakesWithin(line, want);
    forall p | p in line
      ensures p.len > 0
    {
      assert p in ps && IsRun(bits, p, |bits|);
    }
    TakesSome(line, want);
    assert take[..|take|] == take && line[..|line|] == line;
    assert forall i | 0 <= i < |take| :: take[i] in take;
    SumGrows(line, k, |line|);
    if |take| > k {
      assert take[..k] == line[..k];
      SumGrows(take, k + 1, |take|);
      SumTake(take, k);
    }
  }

  lemma FrontIs(line: seq<Piece>, i: nat)
    requires i < |line|
    ensures ToFront(line, i) != [] && ToFront(line, i)[0] == line[i]
  {
  }

  lemma SameMembers(ps: seq<Piece>, line: seq<Piece>)
    requires multiset(line) == multiset(ps)
    ensures forall p :: p in line <==> p in ps
  {
    forall p
      ensures p in line <==> p in ps
    {
      assert p in multiset(line) <==> p in multiset(ps);
    }
  }

  lemma RunsAre(bits: seq<bool>, ps: seq<Piece>)
    requires Runs(bits, ps, |bits|)
    ensures Ordered(ps) && AllApart(ps) && Sum(ps) == FreeBelow(bits, |bits|)
    ensures forall p <- ps :: IsRun(bits, p, |bits|) && p.len > 0
  {
  }

  // The loop that takes them.
  method Take(line: seq<Piece>, want: nat) returns (take: seq<Piece>)
    ensures take == TakeFrom(line, want)
  {
    hide TakeFrom;
    take := [];
    var left: nat := want;
    var i := 0;
    assert line[0..] == line;
    while i < |line| && left > 0
      invariant 0 <= i <= |line| && take + TakeFrom(line[i..], left) == TakeFrom(line, want)
    {
      var n := if line[i].len < left then line[i].len else left;
      assert line[i..][1..] == line[i + 1..];
      TakeOne(line[i..], left);
      var p := Piece(line[i].start, n);
      JoinThree(take, [p], TakeFrom(line[i + 1..], left - n));
      take := take + [p];
      left := left - n;
      i := i + 1;
    }
    TakeNone(line[i..], left);
    assert take + [] == take;
  }

  lemma JoinThree(a: seq<Piece>, b: seq<Piece>, c: seq<Piece>)
    ensures a + (b + c) == (a + b) + c
  {
  }

  lemma TakeOne(line: seq<Piece>, want: nat)
    requires want > 0 && line != []
    ensures var n := if line[0].len < want then line[0].len else want;
      TakeFrom(line, want) == [Piece(line[0].start, n)] + TakeFrom(line[1..], want - n)
  {
  }

  lemma TakeNone(line: seq<Piece>, want: nat)
    requires want == 0 || line == []
    ensures TakeFrom(line, want) == []
  {
  }

  /** Which clusters an allocation of want takes, or none where there is no
      room for it. */
  method Choose(bits: seq<bool>, want: nat, how: How, next: Option<nat>) returns (take: Option<seq<Piece>>)
    ensures want == 0 ==> take == Some([])
    ensures want > 0 ==> (take.Some? <==> HasRoom(bits, want, how, next))
    ensures take.Some? ==> Chosen(bits, take.value, want)
    ensures take.Some? && want > 0 && how.Whole? ==>
      |take.value| == 1 && (next.Some? ==> take.value[0].start == next.value)
    ensures take.Some? && want > 0 && how.Whole? && next.None? ==>
      forall s | AllFree(bits, s, want) :: take.value[0].start <= s
    ensures take.Some? && want > 0 && !how.Whole? && Adjoins(bits, next) ==>
      take.value != [] && take.value[0].start == next.value
    ensures take.Some? && how.BestTry? && !Adjoins(bits, next) ==> FewestPieces(bits, take.value, want)
    ensures take.Some? && how.Wherever? && !Adjoins(bits, next) ==> LowestFree(bits, take.value)
  {
    if want == 0 {
      take := Some([]);
      return;
    }
    var ps := Scan(bits);
    if how.Whole? {
      take := ChooseWhole(bits, ps, want, next);
    } else {
      take := ChoosePieces(bits, ps, want, how, next);
    }
  }

  /** Whole clusters for so many blocks. */
  function ClustersFor(blocks: nat, v: nat): (n: nat)
    requires v > 0
    ensures blocks <= n * v < blocks + v
  {
    var n := (blocks + v - 1) / v;
    assert n * v + (blocks + v - 1) % v == blocks + v - 1;
    n
  }

  // The cluster a block begins, if it does.
  function Beginning(after: Option<nat>, v: nat): Option<nat>
    requires v > 0
  {
    if after.Some? && after.value % v == 0 then Some(after.value / v) else None
  }

  /** allocate's choice: enough clusters for so many blocks, next to the file's last
      block where it has one. */
  method ChooseBlocks(bits: seq<bool>, v: nat, blocks: nat, how: How, after: Option<nat>)
    returns (take: Option<seq<Piece>>)
    requires v > 0
    ensures blocks > 0 ==> (take.Some? <==> HasRoom(bits, ClustersFor(blocks, v), how, Beginning(after, v)))
    ensures take.Some? ==>
      Chosen(bits, take.value, ClustersFor(blocks, v)) && blocks <= Sum(take.value) * v < blocks + v
    ensures take.Some? && blocks > 0 && how.Whole? ==> |take.value| == 1
  {
    hide HasRoom, Chosen;
    var want := ClustersFor(blocks, v);
    assert blocks > 0 ==> want > 0;
    take := Choose(bits, want, how, Beginning(after, v));
    if take.Some? { ChosenSum(bits, take.value, want); }
  }

  lemma ChosenSum(bits: seq<bool>, take: seq<Piece>, want: nat)
    requires Chosen(bits, take, want)
    ensures Sum(take) == want
  {
  }

  // ---------------------------------------------------------------------
  // Marking
  // ---------------------------------------------------------------------

  /** The bits with the clusters of ps made free, or taken. */
  function Marked(bits: seq<bool>, ps: seq<Piece>, on: bool): (r: seq<bool>)
    ensures |r| == |bits|
  {
    seq(|bits|, c requires 0 <= c < |bits| => if InAny(ps, c) then on else bits[c])
  }

  lemma MarkedMore(bits: seq<bool>, ps: seq<Piece>, p: Piece, on: bool)
    ensures Marked(bits, ps + [p], on) == Marked(Marked(bits, ps, on), [p], on)
  {
    hide InAny;
    forall c | 0 <= c < |bits|
      ensures Marked(bits, ps + [p], on)[c] == Marked(Marked(bits, ps, on), [p], on)[c]
    {
      MoreIn(ps, p, c);
      MoreIn([], p, c);
      assert [] + [p] == [p];
      NotInNone(c);
    }
  }

  lemma NotInNone(c: int)
    ensures !InAny([], c)
  {
  }

  // One run of bits, one at a time.
  method MarkPiece(bits: seq<bool>, p: Piece, on: bool) returns (r: seq<bool>)
    requires p.start + p.len <= |bits|
    ensures r == Marked(bits, [p], on)
  {
    r := bits;
    for c := p.start to p.start + p.len
      invariant |r| == |bits|
      invariant forall k | 0 <= k < |bits| :: r[k] == if p.start <= k < c then on else bits[k]
    {
      r := r[c := on];
    }
    forall c | 0 <= c < |bits|
      ensures InAny([p], c) <==> In(p, c)
    {
      MoreIn([], p, c);
      assert [] + [p] == [p];
    }
  }

  /** allocate marks what it takes before anything can name it. */
  method Clear(bits: seq<bool>, take: seq<Piece>) returns (r: seq<bool>)
    requires forall p <- take :: p.start + p.len <= |bits|
    ensures r == Marked(bits, take, false)
  {
    hide Marked;
    r := bits;
    MarkedNone(bits, false);
    for i := 0 to |take|
      invariant |r| == |bits| && r == Marked(bits, take[..i], false)
    {
      MarkedMore(bits, take[..i], take[i], false);
      assert take[..i + 1] == take[..i] + [take[i]];
      r := MarkPiece(r, take[i], false);
    }
    assert take[..|take|] == take;
  }

  lemma MarkedNone(bits: seq<bool>, on: bool)
    ensures Marked(bits, [], on) == bits
  {
  }

  /** Every cluster to be freed is in use, and named once. */
  ghost predicate Releasable(bits: seq<bool>, ps: seq<Piece>) {
    && AllApart(ps) && forall p <- ps :: p.start + p.len <= |bits| && forall c | In(p, c) :: !bits[c]
  }

  // A piece whose clusters are all in use becomes free; it fails at the first
  // that already is.
  method ReleasePiece(bits: seq<bool>, p: Piece) returns (ok: bool, r: seq<bool>)
    requires p.start + p.len <= |bits|
    ensures ok <==> forall c | In(p, c) :: !bits[c]
    ensures ok ==> r == Marked(bits, [p], true)
  {
    r := bits;
    for c := p.start to p.start + p.len
      invariant |r| == |bits|
      invariant forall k | p.start <= k < c :: !bits[k]
      invariant forall k | 0 <= k < |bits| :: r[k] == if p.start <= k < c then true else bits[k]
    {
      if r[c] {
        ok := false;
        assert In(p, c);
        return;
      }
      r := r[c := true];
    }
    ok := true;
    forall c | 0 <= c < |bits|
      ensures InAny([p], c) <==> In(p, c)
    {
      MoreIn([], p, c);
      assert [] + [p] == [p];
    }
  }

  /** release: makes the clusters free, or finds one that already was. */
  method Release(bits: seq<bool>, ps: seq<Piece>) returns (ok: bool, r: seq<bool>)
    requires forall p <- ps :: p.len > 0 && p.start + p.len <= |bits|
    ensures ok <==> Releasable(bits, ps)
    ensures ok ==> r == Marked(bits, ps, true)
  {
    hide Marked, Releasable;
    r := bits;
    MarkedNone(bits, true);
    NothingReleasable(bits);
    for i := 0 to |ps|
      invariant |r| == |bits| && r == Marked(bits, ps[..i], true) && Releasable(bits, ps[..i])
    {
      MarkedMore(bits, ps[..i], ps[i], true);
      ReleasableMore(bits, ps, i);
      assert ps[..i + 1] == ps[..i] + [ps[i]];
      var done: bool;
      done, r := ReleasePiece(r, ps[i]);
      if !done {
        if Releasable(bits, ps) { ReleasablePart(bits, ps, i + 1); }
        ok := false;
        return;
      }
    }
    assert ps[..|ps|] == ps;
    ok := true;
  }

  lemma NothingReleasable(bits: seq<bool>)
    ensures Releasable(bits, [])
  {
  }

  lemma ReleasableMore(bits: seq<bool>, ps: seq<Piece>, i: nat)
    requires i < |ps| && Releasable(bits, ps[..i]) && ps[i].len > 0 && ps[i].start + ps[i].len <= |bits|
    requires forall p <- ps :: p.len > 0
    ensures Releasable(bits, ps[..i + 1]) <==> forall c | In(ps[i], c) :: !Marked(bits, ps[..i], true)[c]
  {
    var before, p, now := ps[..i], ps[i], Marked(bits, ps[..i], true);
    assert ps[..i + 1] == before + [p];
    if forall c | In(p, c) :: !now[c] {
      forall j | 0 <= j < i
        ensures Apart(before[j], p)
      {
        if !Apart(before[j], p) {
          var c := if before[j].start > p.start then before[j].start else p.start;
          assert before[j] in ps && In(before[j], c) && In(p, c);
        }
      }
    } else {
      var c :| In(p, c) && now[c];
      assert ps[..i + 1][i] == p && p in ps[..i + 1];
      if !bits[c] {
        var j :| 0 <= j < |before| && In(before[j], c);
        assert !Apart(ps[..i + 1][j], ps[..i + 1][i]);
      }
    }
  }

  lemma ReleasablePart(bits: seq<bool>, ps: seq<Piece>, i: nat)
    requires i <= |ps| && Releasable(bits, ps)
    ensures Releasable(bits, ps[..i])
  {
    var some := ps[..i];
    forall a, b | 0 <= a < b < |some|
      ensures Apart(some[a], some[b])
    {
      assert Apart(ps[a], ps[b]);
    }
    assert forall p <- some :: p in ps;
  }

  /** What was allocated can be released, and that undoes it. */
  lemma ReleaseUndoes(bits: seq<bool>, take: seq<Piece>, want: nat)
    requires Chosen(bits, take, want)
    ensures Releasable(Marked(bits, take, false), take)
    ensures Marked(Marked(bits, take, false), take, true) == bits
  {
    var now := Marked(bits, take, false);
    forall p, c | p in take && In(p, c)
      ensures 0 <= c < |bits| && !now[c] && bits[c]
    {
      var i :| 0 <= i < |take| && take[i] == p;
      assert In(take[i], c) && InAny(take, c);
      assert AllFree(bits, p.start, p.len);
    }
    forall c | 0 <= c < |bits|
      ensures Marked(now, take, true)[c] == bits[c]
    {
      if InAny(take, c) {
        var i :| 0 <= i < |take| && In(take[i], c);
        assert take[i] in take;
      }
    }
  }

  // ---------------------------------------------------------------------
  // Repair
  // ---------------------------------------------------------------------

  /** A file, by its number, and the clusters its headers map. */
  datatype File = File(num: nat, runs: seq<Piece>)

  predicate Maps(f: File, c: int) { InAny(f.runs, c) }

  /** The first file that maps the cluster; 0 if none does. */
  function OwnerOf(files: seq<File>, c: int): nat {
    if files == [] then 0 else if Maps(files[0], c) then files[0].num else OwnerOf(files[1..], c)
  }

  lemma {:induction false} OwnerMore(files: seq<File>, f: File, c: int)
    requires forall g <- files :: g.num > 0
    ensures OwnerOf(files + [f], c) == if OwnerOf(files, c) != 0 then OwnerOf(files, c) else if Maps(f, c) then f.num
      else 0
  {
    if files == [] {
      assert files + [f] == [f];
    } else {
      assert (files + [f])[1..] == files[1..] + [f];
      OwnerMore(files[1..], f, c);
    }
  }

  lemma {:induction false} OwnerIs(files: seq<File>, c: int)
    requires forall g <- files :: g.num > 0
    ensures OwnerOf(files, c) == 0 <==> forall f <- files :: !Maps(f, c)
    ensures OwnerOf(files, c) != 0 ==> exists f <- files :: Maps(f, c) && f.num == OwnerOf(files, c)
  {
    if files != [] && !Maps(files[0], c) {
      OwnerIs(files[1..], c);
      assert files == [files[0]] + files[1..];
    }
  }

  // The clusters of one run go to num, where no file has them yet; those past
  // the end of the volume are passed over.
  method Claim(owner: seq<nat>, p: Piece, num: nat) returns (r: seq<nat>)
    requires num > 0
    ensures |r| == |owner|
    ensures forall c | 0 <= c < |owner| :: r[c] == if owner[c] == 0 && In(p, c) then num else owner[c]
  {
    r := owner;
    var end := if p.start + p.len < |owner| then p.start + p.len else |owner|;
    var c := p.start;
    while c < end
      invariant |r| == |owner| && p.start <= c
      invariant forall k | 0 <= k < |owner| ::
        r[k] == if owner[k] == 0 && p.start <= k < c && k < end then num else owner[k]
    {
      if r[c] == 0 {
        r := r[c := num];
      }
      c := c + 1;
    }
  }

  method ClaimAll(owner: seq<nat>, f: File) returns (r: seq<nat>)
    requires f.num > 0
    ensures |r| == |owner|
    ensures forall c | 0 <= c < |owner| :: r[c] == if owner[c] == 0 && Maps(f, c) then f.num else owner[c]
  {
    hide InAny;
    r := owner;
    assert f.runs[..0] == [];
    forall c
      ensures !InAny([], c)
    {
      NotInNone(c);
    }
    for i := 0 to |f.runs|
      invariant |r| == |owner|
      invariant forall c | 0 <= c < |owner| ::
        r[c] == if owner[c] == 0 && InAny(f.runs[..i], c) then f.num else owner[c]
    {
      var was := r;
      r := Claim(r, f.runs[i], f.num);
      assert f.runs[..i + 1] == f.runs[..i] + [f.runs[i]];
      forall c | 0 <= c < |owner|
        ensures r[c] == if owner[c] == 0 && InAny(f.runs[..i + 1], c) then f.num else owner[c]
      {
        MoreIn(f.runs[..i], f.runs[i], c);
      }
    }
    assert f.runs[..|f.runs|] == f.runs;
  }

  /** The owner pass: each cluster's is the first file that maps it. */
  method Owners(files: seq<File>, clusters: nat) returns (owner: seq<nat>)
    requires forall f <- files :: f.num > 0
    ensures |owner| == clusters && forall c | 0 <= c < clusters :: owner[c] == OwnerOf(files, c)
  {
    hide Maps;
    owner := seq(clusters, i => 0);
    for i := 0 to |files|
      invariant |owner| == clusters && forall c | 0 <= c < clusters :: owner[c] == OwnerOf(files[..i], c)
    {
      var was := owner;
      owner := ClaimAll(owner, files[i]);
      assert files[..i + 1] == files[..i] + [files[i]];
      assert forall f <- files[..i] :: f in files;
      forall c | 0 <= c < clusters
        ensures owner[c] == OwnerOf(files[..i + 1], c)
      {
        assert was[c] == OwnerOf(files[..i], c);
        OwnerMore(files[..i], files[i], c);
      }
    }
    assert files[..|files|] == files;
  }

  /** Every cluster is free or in one file, and in no two. */
  ghost predicate Conserved(bits: seq<bool>, files: seq<File>) {
    && (forall c | 0 <= c < |bits| :: bits[c] <==> forall f <- files :: !Maps(f, c))
    && (forall i, j, c | 0 <= i < j < |files| && 0 <= c < |bits| :: !(Maps(files[i], c) && Maps(files[j], c)))
  }

  /** The repair of the bitmap: the bits the owners say. */
  method Repair(bits: seq<bool>, owner: seq<nat>) returns (r: seq<bool>, changed: nat)
    requires |owner| == |bits|
    ensures |r| == |bits| && forall c | 0 <= c < |bits| :: r[c] == (owner[c] == 0)
    ensures changed == 0 <==> r == bits
  {
    r, changed := bits, 0;
    for c := 0 to |bits|
      invariant |r| == |bits|
      invariant forall k | 0 <= k < |bits| :: r[k] == if k < c then owner[k] == 0 else bits[k]
      invariant changed == 0 <==> r == bits
    {
      var want := owner[c] == 0;
      if r[c] != want {
        assert bits[c] != want;
        r, changed := r[c := want], changed + 1;
      }
    }
  }

  /** Where the maps are disjoint, the repair leaves every cluster free or in
      one file; where they are not, no bits could. */
  lemma RepairConserves(bits: seq<bool>, owner: seq<nat>, r: seq<bool>, files: seq<File>)
    requires forall f <- files :: f.num > 0
    requires |owner| == |bits| == |r|
    requires forall c | 0 <= c < |bits| :: owner[c] == OwnerOf(files, c) && r[c] == (owner[c] == 0)
    ensures Conserved(r, files) <==>
      forall i, j, c | 0 <= i < j < |files| && 0 <= c < |bits| :: !(Maps(files[i], c) && Maps(files[j], c))
    ensures Conserved(bits, files) ==> r == bits
  {
    hide Maps;
    forall c | 0 <= c < |bits|
      ensures r[c] <==> forall f <- files :: !Maps(f, c)
    {
      OwnerIs(files, c);
    }
  }

  /** Two files with one cluster: marked or not, it is not in one file. */
  lemma SharedCluster(bit: bool)
    ensures var files := [File(1, [Piece(0, 1)]), File(2, [Piece(0, 1)])];
      OwnerOf(files, 0) == 1 && !Conserved([bit], files)
  {
    var files := [File(1, [Piece(0, 1)]), File(2, [Piece(0, 1)])];
    assert In(files[0].runs[0], 0) && In(files[1].runs[0], 0);
    assert Maps(files[0], 0) && Maps(files[1], 0);
  }
}
