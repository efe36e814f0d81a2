/** Physical memory the PAL carves into objects: the pieces of its own share,
    the page frames the executive's PFNs get, and the pages of devices.  Objects
    are powers of two in size, and the kernel aligns each to its size. */
module Untyped {
  import opened Numbers

  const PAGE := 4096
  const PAGE_BITS := 12
  const MAX_PFNS := 0xffff_ffff

  lemma PageIs()
    ensures Pow2(PAGE_BITS) == PAGE
  {
    assert Pow2(4) == 16;
    assert Pow2(8) == 256;
  }

  // The next multiple of size.
  function RoundUp(x: nat, size: nat): nat
    requires size > 0
  {
    (x + size - 1) / size * size
  }

  predicate Multiple(x: nat, n: nat)
    requires n > 0
  {
    x % n == 0
  }

  lemma RoundUpIs(x: nat, size: nat)
    requires size > 0
    ensures Multiple(RoundUp(x, size), size) && x <= RoundUp(x, size) < x + size
    ensures RoundUp(x, size) == x <==> Multiple(x, size)
  {
    var q, r := (x + size - 1) / size, (x + size - 1) % size;
    assert x + size - 1 == q * size + r;
    DivModUnique(q * size, q, 0, size);
    if x % size == 0 {
      var k := x / size;
      assert x == k * size;
      DivModUnique(x + size - 1, k, size - 1, size);
    }
  }

  // ---------------------------------------------------------------------
  // An untyped
  // ---------------------------------------------------------------------

  /** Where in its untyped an object is. */
  datatype Object = Object(at: nat, len: nat)

  predicate Aligned(o: Object) { o.len > 0 && Multiple(o.at, o.len) }

  /** Objects in order, each aligned and none over another. */
  predicate Carved(os: seq<Object>, used: nat) {
    && (forall o <- os :: Aligned(o) && o.at + o.len <= used)
    && (forall i, j | 0 <= i < j < |os| :: os[i].at + os[i].len <= os[j].at)
  }

  /** They fill what is used, from an offset on, with nothing between them. */
  predicate Fills(os: seq<Object>, start: nat, end: nat)
    decreases |os|
  {
    if os == [] then start == end
    else os[|os| - 1].at + os[|os| - 1].len == end && Fills(os[..|os| - 1], start, os[|os| - 1].at)
  }

  lemma FillsMore(os: seq<Object>, start: nat, end: nat, o: Object)
    requires Fills(os, start, end) && o.at == end
    ensures Fills(os + [o], start, end + o.len)
  {
    assert (os + [o])[..|os|] == os;
  }

  class Ut {
    const size: nat
    var used: nat
    ghost var objects: seq<Object>

    ghost predicate Valid()
      reads this
    {
      used <= size && Carved(objects, used)
    }

    constructor (bytes: nat)
      ensures Valid() && size == bytes && used == 0 && objects == []
    {
      size, used, objects := bytes, 0, [];
    }

    /** retype: the next object of the size, if there is room for it. */
    method Retype(bits: nat) returns (ok: bool)
      requires Valid()
      modifies this
      ensures Valid()
      ensures ok <==> RoundUp(old(used), Pow2(bits)) + Pow2(bits) <= size
      ensures !ok ==> used == old(used) && objects == old(objects)
      ensures ok ==> objects == old(objects) + [Object(RoundUp(old(used), Pow2(bits)), Pow2(bits))]
      ensures ok ==> used == RoundUp(old(used), Pow2(bits)) + Pow2(bits)
    {
      hide Pow2, RoundUp, Multiple;
      var len := Pow2(bits);
      var at := RoundUp(used, len);
      RoundUpIs(used, len);
      if at + len > size {
        return false;
      }
      objects := objects + [Object(at, len)];
      used := at + len;
      return true;
    }
  }

  // ---------------------------------------------------------------------
  // The PAL's share
  // ---------------------------------------------------------------------

  // All of a number but its low bits.
  function High(x: nat, b: nat): int { x / Pow2(b) * Pow2(b) }

  lemma HalfSteps(x: nat, p: nat, q: nat, r: nat, h: nat, l: nat)
    requires p > 0 && x == q * p + r && r < p && q == 2 * h + l && l < 2
    ensures x == h * (2 * p) + (l * p + r) && l * p + r < 2 * p && q * p == (2 * h) * p + l * p
  {
    assert (2 * h + l) * p == (2 * h) * p + l * p && (2 * h) * p == h * (2 * p);
    assert l == 0 || l == 1;
  }

  lemma HighSteps(x: nat, b: nat)
    ensures High(x, b) == High(x, b + 1) + (if Bit(x, b) then Pow2(b) else 0)
    ensures High(x, b + 1) >= 0 && Multiple(High(x, b + 1), Pow2(b)) && High(x, b) <= x
  {
    var p := Pow2(b);
    HighOf(x, p);
    assert Pow2(b + 1) == 2 * p;
  }

  lemma HighOf(x: nat, p: nat)
    requires p > 0
    ensures x / p * p == x / (2 * p) * (2 * p) + (if x / p % 2 == 1 then p else 0)
    ensures x / (2 * p) * (2 * p) >= 0 && (x / (2 * p) * (2 * p)) % p == 0 && x / p * p <= x
  {
    var q, r := x / p, x % p;
    var h, l := q / 2, q % 2;
    assert x == q * p + r;
    HalfSteps(x, p, q, r, h, l);
    DivModUnique(x, h, l * p + r, 2 * p);
    EvenTimes(h, p);
  }

  lemma EvenTimes(h: nat, p: nat)
    requires p > 0
    ensures h * (2 * p) == (2 * h) * p && (h * (2 * p)) % p == 0
  {
    assert h * (2 * p) == (2 * h) * p;
    DivModUnique((2 * h) * p, 2 * h, 0, p);
  }

  lemma HighAll(x: nat, b: nat)
    requires x < Pow2(b)
    ensures High(x, b) == 0
  {
    DivModUnique(x, 0, x, Pow2(b));
  }

  lemma PartPage(x: nat)
    requires Multiple(x, PAGE) && x < PAGE
    ensures x == 0
  {
  }

  lemma HighPage(x: nat)
    requires Multiple(x, PAGE)
    ensures High(x, PAGE_BITS) == x
  {
    PageIs();
  }

  function Sum(sizes: seq<nat>): nat {
    if sizes == [] then 0 else Sum(sizes[..|sizes| - 1]) + sizes[|sizes| - 1]
  }

  lemma SumMore(sizes: seq<nat>, n: nat)
    ensures Sum(sizes + [n]) == Sum(sizes) + n
  {
    assert (sizes + [n])[..|sizes|] == sizes;
  }

  lemma Above(b: nat, c: nat)
    requires b < c
    ensures Pow2(b) < Pow2(c)
  {
    if c > b + 1 { Above(b, c - 1); }
  }

  // A piece of the untyped that retype can make, no smaller than a page.
  ghost predicate PieceOf(n: nat, sizeBits: nat) { exists b: nat :: PAGE_BITS <= b < sizeBits && n == Pow2(b) }

  /** memory_init's cut: the pieces go end to end from the untyped's start, each at a
      multiple of its size.  They are as much as was asked for, and take up nothing
      else. */
  method CutShare(top: Ut, sizeBits: nat, want: nat) returns (share: seq<nat>)
    requires top.Valid() && top.used == 0 && top.objects == [] && top.size == Pow2(sizeBits) && Multiple(want, PAGE)
    requires want < top.size
    modifies top
    ensures top.Valid() && top.used == want == Sum(share)
    ensures |share| == |top.objects| && (forall i | 0 <= i < |share| :: top.objects[i].len == share[i])
    ensures Fills(top.objects, 0, want)
    ensures forall i, j | 0 <= i < j < |share| :: share[i] > share[j]
    ensures |share| <= sizeBits && forall i | 0 <= i < |share| :: PieceOf(share[i], sizeBits)
  {
    hide Pow2, RoundUp, High, Bit, Fills, Sum, Carved, Multiple;
    share := [];
    HighAll(want, sizeBits);
    NoneFill();
    var bit := sizeBits;
    while bit > PAGE_BITS
      invariant 0 <= bit <= sizeBits && (bit >= PAGE_BITS || bit == sizeBits) && top.Valid()
      invariant top.used == High(want, bit) == Sum(share)
      invariant |share| == |top.objects| <= sizeBits - bit && Fills(top.objects, 0, top.used)
      invariant forall i | 0 <= i < |share| :: top.objects[i].len == share[i] && share[i] >= Pow2(bit)
      invariant forall i, j | 0 <= i < j < |share| :: share[i] > share[j]
      invariant forall i | 0 <= i < |share| :: PieceOf(share[i], sizeBits)
    {
      bit := bit - 1;
      HighSteps(want, bit);
      Above(bit, bit + 1);
      if want / Pow2(bit) % 2 == 1 {
        BitIs(want, bit);
        RoundUpIs(top.used, Pow2(bit));
        ghost var was := top.objects;
        var ok := top.Retype(bit);
        FillsMore(was, 0, top.used - Pow2(bit), Object(top.used - Pow2(bit), Pow2(bit)));
        SumMore(share, Pow2(bit));
        assert PieceOf(Pow2(bit), sizeBits);
        share := share + [Pow2(bit)];
      } else {
        BitIs(want, bit);
      }
    }
    PageIs();
    if sizeBits < PAGE_BITS {
      Above(sizeBits, PAGE_BITS);
      PartPage(want);
    }
    HighPage(want);
  }

  lemma BitIs(x: nat, b: nat)
    ensures Bit(x, b) <==> x / Pow2(b) % 2 == 1
  {
  }

  lemma NoneFill()
    ensures Fills([], 0, 0) && Sum([]) == 0
  {
  }

  // ---------------------------------------------------------------------
  // The executive's page frames
  // ---------------------------------------------------------------------

  /** What is left of an untyped for pages. */
  datatype Rest = Rest(size: nat, used: nat)

  predicate Paged(r: Rest) { r.used <= r.size && r.size % PAGE == 0 && r.used % PAGE == 0 }

  function PagesIn(r: Rest): (n: nat)
    requires Paged(r)
    ensures n == 0 <==> r.used == r.size
    ensures n > 0 <==> r.used + PAGE <= r.size
  {
    (r.size - r.used) / PAGE
  }

  /** The pages left in all of them: as many as there are PFNs, up to what a PTE
      can name. */
  function Left(rs: seq<Rest>): nat
    requires forall r <- rs :: Paged(r)
  {
    if rs == [] then 0 else PagesIn(rs[0]) + Left(rs[1..])
  }

  lemma {:induction false} LeftTaken(rs: seq<Rest>, i: nat)
    requires (forall r <- rs :: Paged(r)) && i < |rs| && PagesIn(rs[i]) > 0
    ensures var now := rs[i := rs[i].(used := rs[i].used + PAGE)];
      (forall r <- now :: Paged(r)) && Left(now) == Left(rs) - 1
  {
    var r := rs[i].(used := rs[i].used + PAGE);
    var now := rs[i := r];
    assert Paged(r) && PagesIn(r) == PagesIn(rs[i]) - 1;
    if i > 0 {
      LeftTaken(rs[1..], i - 1);
      assert now[1..] == rs[1..][i - 1 := r];
    } else {
      assert now[1..] == rs[1..];
    }
  }

  lemma {:induction false} LeftNone(rs: seq<Rest>)
    requires forall r <- rs :: Paged(r) && r.used == r.size
    ensures Left(rs) == 0
  {
    if rs != [] { LeftNone(rs[1..]); }
  }

  lemma {:induction false} FewerThan(s: set<nat>, n: nat)
    requires forall x <- s :: x < n
    ensures |s| <= n
  {
    if n == 0 {
      assert s == {};
    } else {
      FewerThan(s - {n - 1}, n - 1);
    }
  }

  lemma OneMore(s: set<nat>, x: nat, n: nat)
    requires x !in s && x < n && forall y <- s :: y < n
    ensures |s + {x}| == |s| + 1 <= n && forall y <- s + {x} :: y < n
  {
    FewerThan(s + {x}, n);
  }

  /** The page a PFN got: which untyped, and where in it. */
  datatype Place = Place(untyped: nat, at: nat)

  // Those made and the pages left are all there is, and enough for all.
  ghost predicate Tally(rests: seq<Rest>, made: set<nat>, count: nat, total: nat) {
    (forall r <- rests :: Paged(r)) && count <= total == |made| + Left(rests) && forall n <- made :: n < count
  }

  // Those before the next are used up.
  predicate Passed(rests: seq<Rest>, next: nat) {
    next <= |rests| && forall i | 0 <= i < next :: rests[i].used == rests[i].size
  }

  // Each of those made has a page of its own.
  ghost predicate Housed(rests: seq<Rest>, made: set<nat>, places: map<nat, Place>) {
    places.Keys == made && Apart(places) && forall n <- places :: Given(rests, places[n])
  }

  class PageFrames {
    const count: nat // PFNs
    var rests: seq<Rest>
    var next: nat
    var made: set<nat>
    ghost var places: map<nat, Place>
    ghost const total: nat

    /** Each PFN made has a page of its own, of those the untypeds have given;
        those before the next are used up, and made and left are all there is. */
    ghost predicate Valid()
      reads this
    {
      Tally(rests, made, count, total) && Passed(rests, next) && Housed(rests, made, places)
    }

    /** pfn_count: as many pages as are left in all of the untypeds. */
    constructor (untypeds: seq<Rest>)
      requires forall r <- untypeds :: Paged(r)
      ensures Valid() && made == {} && rests == untypeds && next == 0
      ensures count == if Left(untypeds) < MAX_PFNS then Left(untypeds) else MAX_PFNS
    {
      var n := Left(untypeds);
      count, rests, next, made, places, total := if n < MAX_PFNS then n else MAX_PFNS, untypeds, 0, {}, map[], n;
    }

    /** pfn_ptr: the PFN's page, made the first time it is asked for.  There is
        always one left, in whatever order they are asked for. */
    method Touch(pfn: nat) returns (dead: bool)
      requires Valid() && pfn < count
      modifies this
      ensures Valid() && !dead && made == old(made) + {pfn}
      ensures forall n <- old(places) :: n in places && places[n] == old(places)[n]
    {
      hide Tally, Passed, Housed;
      dead := false;
      if pfn in made {
        return;
      }
      var i := Search(rests, next, made, pfn, count, total);
      if i == |rests| {
        dead := true;
        return;
      }
      OneTaken(rests, made, places, i, pfn, count, total);
      var at := rests[i].used;
      next := i;
      rests := rests[i := rests[i].(used := at + PAGE)];
      made := made + {pfn};
      places := places[pfn := Place(i, at)];
    }
  }

  // The next untyped with a page left; those passed over have none.
  method Search(rests: seq<Rest>, next: nat, ghost made: set<nat>, ghost pfn: nat, ghost count: nat, ghost total: nat)
    returns (i: nat)
    requires Tally(rests, made, count, total) && Passed(rests, next) && pfn < count && pfn !in made
    ensures i < |rests| && Passed(rests, i) && Paged(rests[i]) && PagesIn(rests[i]) > 0
  {
    hide Paged, PagesIn, Left;
    i := next;
    while i < |rests| && rests[i].used + PAGE > rests[i].size
      invariant i <= |rests| && Passed(rests, i)
    {
      PageLeft(rests[i]);
      i := i + 1;
    }
    OneMore(made, pfn, count);
    if i == |rests| { LeftNone(rests); } else { PageLeft(rests[i]); }
  }

  lemma OneTaken(rests: seq<Rest>, made: set<nat>, places: map<nat, Place>, i: nat, pfn: nat, count: nat, total: nat)
    requires Tally(rests, made, count, total) && Passed(rests, i) && Housed(rests, made, places) && pfn < count
    requires pfn !in made
    requires i < |rests| && Paged(rests[i]) && PagesIn(rests[i]) > 0
    ensures var now := rests[i := rests[i].(used := rests[i].used + PAGE)];
      && Tally(now, made + {pfn}, count, total) && Passed(now, i)
      && Housed(now, made + {pfn}, places[pfn := Place(i, rests[i].used)]) && pfn !in places
  {
    hide Paged, PagesIn, Left, Apart, Given;
    OneMore(made, pfn, count);
    LeftTaken(rests, i);
    NewPlace(rests, places, i, pfn);
  }

  lemma PageLeft(r: Rest)
    requires Paged(r)
    ensures r.used + PAGE > r.size <==> r.used == r.size
    ensures PagesIn(r) > 0 <==> r.used + PAGE <= r.size
  {
  }

  // A page an untyped has given.
  predicate Given(rs: seq<Rest>, p: Place) { p.untyped < |rs| && p.at % PAGE == 0 && p.at + PAGE <= rs[p.untyped].used }

  ghost predicate Apart(places: map<nat, Place>) {
    forall n <- places, m <- places | n != m :: places[n] != places[m]
  }

  lemma NewPlace(rs: seq<Rest>, places: map<nat, Place>, i: nat, pfn: nat)
    requires Apart(places) && (forall n <- places :: Given(rs, places[n])) && i < |rs| && Paged(rs[i]) && pfn !in places
    ensures var now := places[pfn := Place(i, rs[i].used)];
      Apart(now) && forall n <- now :: Given(rs[i := rs[i].(used := rs[i].used + PAGE)], now[n])
  {
    var p := Place(i, rs[i].used);
    var now := places[pfn := p];
    forall n, m | n in now && m in now && n != m
      ensures now[n] != now[m]
    {
      if n in places && n != pfn { assert Given(rs, places[n]); }
      if m in places && m != pfn { assert Given(rs, places[m]); }
    }
  }

  // ---------------------------------------------------------------------
  // Device pages
  // ---------------------------------------------------------------------

  datatype DevicePage = OutOfOrder | Page(at: nat) | NoPage

  // As large a piece as is aligned and fits before the page.
  ghost predicate Largest(o: Object, off: nat) {
    o.len > 0 && Multiple(o.at, o.len) && !(Multiple(o.at, 2 * o.len) && o.at + 2 * o.len <= off)
  }

  // The size of the next piece.
  method PieceBits(used: nat, off: nat) returns (bit: nat)
    requires Multiple(used, PAGE)
    ensures bit >= PAGE_BITS && Largest(Object(used, Pow2(bit)), off) && (bit > PAGE_BITS ==> used + Pow2(bit) <= off)
  {
    hide Pow2, Multiple;
    PageIs();
    bit := PAGE_BITS;
    while Multiple(used, 2 * Pow2(bit)) && used + 2 * Pow2(bit) <= off
      invariant bit >= PAGE_BITS && Multiple(used, Pow2(bit)) && (bit > PAGE_BITS ==> used + Pow2(bit) <= off)
      decreases off - bit
    {
      Doubles(bit);
      bit := bit + 1;
    }
  }

  /** device_frame, in the device's untyped: filler up to the page, and then the page.
      It is the page at the offset just when that is a whole number of pages. */
  method DeviceFrame(u: Ut, off: nat) returns (r: DevicePage, ghost gap: seq<Object>)
    requires u.Valid() && Multiple(u.used, PAGE) && Multiple(u.size, PAGE) && off < u.size
    modifies u
    ensures u.Valid() && Multiple(u.used, PAGE)
    ensures r.OutOfOrder? <==> off < old(u.used)
    ensures r.OutOfOrder? ==> u.used == old(u.used) && u.objects == old(u.objects)
    ensures r.Page? ==> r.at == RoundUp(off, PAGE) && u.objects == old(u.objects) + gap + [Object(r.at, PAGE)]
    ensures r.Page? ==> Fills(gap, old(u.used), r.at) && u.used == r.at + PAGE && forall o <- gap :: Largest(o, off)
    ensures r.NoPage? <==> old(u.used) <= off && RoundUp(off, PAGE) + PAGE > u.size
    ensures r == Page(off) <==> Multiple(off, PAGE) && old(u.used) <= off
  {
    hide Pow2, RoundUp, Fills, Carved, Multiple, Largest;
    gap := [];
    if off < u.used {
      r := OutOfOrder;
      return;
    }
    PageIs();
    RoundUpIs(off, PAGE);
    ghost var end := RoundUp(off, PAGE);
    ghost var was, start := u.objects, u.used;
    EmptyFills(start);
    assert was == was + gap;
    LastPage(off, end, u.size);
    while u.used < off
      invariant u.Valid() && Multiple(u.used, PAGE) && start <= u.used <= end && u.objects == was + gap
      invariant Fills(gap, start, u.used)
      invariant forall o <- gap :: Largest(o, off)
      decreases end - u.used
    {
      var bit := PieceBits(u.used, off);
      PieceFits(u.used, off, end, u.size, bit);
      LargestAligned(u.used, bit, off);
      RoundUpIs(u.used, Pow2(bit));
      ghost var o := Object(u.used, Pow2(bit));
      FillsMore(gap, start, u.used, o);
      var ok := u.Retype(bit);
      gap := gap + [o];
      assert u.objects == was + gap;
    }
    NoPartPage(u.used, off, end);
    RoundUpIs(u.used, PAGE);
    var at := u.used;
    var ok := u.Retype(PAGE_BITS);
    MorePages(at);
    r := if ok then Page(at) else NoPage;
  }

  /** The second byte of a device of two pages: it is in the first, and the second is
      given. */
  method NextPage() returns (r: DevicePage)
    ensures r == Page(PAGE)
  {
    hide Pow2, Fills, Carved, Largest;
    var u := new Ut(2 * PAGE);
    ghost var gap;
    r, gap := DeviceFrame(u, 1);
  }

  lemma LastPage(x: nat, end: nat, size: nat)
    requires Multiple(size, PAGE) && x < size && end == RoundUp(x, PAGE)
    ensures x <= end <= size && (Multiple(x, PAGE) ==> x + PAGE <= size)
  {
    hide RoundUp;
    RoundUpIs(x, PAGE);
  }

  lemma LargestAligned(used: nat, bit: nat, off: nat)
    requires Largest(Object(used, Pow2(bit)), off)
    ensures Multiple(used, Pow2(bit))
  {
  }

  lemma NoPartPage(used: nat, off: nat, end: nat)
    requires Multiple(used, PAGE) && off <= used <= end && end == RoundUp(off, PAGE)
    ensures used == end
  {
    hide RoundUp;
    RoundUpIs(off, PAGE);
  }

  lemma MorePages(at: nat)
    requires Multiple(at, PAGE)
    ensures Multiple(at + PAGE, PAGE)
  {
  }

  lemma {:induction false} WholePages(b: nat)
    requires b >= PAGE_BITS
    ensures Pow2(b) % PAGE == 0
  {
    if b == PAGE_BITS { PageIs(); } else { WholePages(b - 1); }
  }

  lemma PieceFits(used: nat, off: nat, end: nat, size: nat, b: nat)
    requires Multiple(used, PAGE) && used < off < size && end == RoundUp(off, PAGE) && Multiple(size, PAGE)
    requires b >= PAGE_BITS
    requires b > PAGE_BITS ==> used + Pow2(b) <= off
    ensures used + Pow2(b) <= end <= size && Multiple(used + Pow2(b), PAGE)
  {
    hide Pow2, RoundUp;
    RoundUpIs(off, PAGE);
    WholePages(b);
    PageIs();
  }

  lemma Doubles(b: nat)
    ensures Pow2(b + 1) == 2 * Pow2(b) && Pow2(b) > b
  {
  }

  lemma EmptyFills(start: nat)
    ensures Fills([], start, start)
  {
  }

  // ---------------------------------------------------------------------
  // All of memory
  // ---------------------------------------------------------------------

  const SHARE_DIV := 16
  const SHARE_MIN := 16 * 1024 * 1024

  datatype Desc = Desc(device: bool, sizeBits: nat)

  predicate Ram(d: Desc) { !d.device && d.sizeBits >= PAGE_BITS }

  /** The bytes of RAM in whole pages. */
  function RamIn(ds: seq<Desc>): nat {
    if ds == [] then 0 else RamIn(ds[..|ds| - 1]) + (if Ram(ds[|ds| - 1]) then Pow2(ds[|ds| - 1].sizeBits) else 0)
  }

  lemma RamMore(ds: seq<Desc>, i: nat)
    requires i < |ds|
    ensures RamIn(ds[..i + 1]) == RamIn(ds[..i]) + (if Ram(ds[i]) then Pow2(ds[i].sizeBits) else 0)
  {
    assert ds[..i + 1][..i] == ds[..i];
  }

  lemma {:induction false} LeftJoin(a: seq<Rest>, r: Rest)
    requires (forall x <- a :: Paged(x)) && Paged(r)
    ensures (forall x <- a + [r] :: Paged(x)) && Left(a + [r]) == Left(a) + PagesIn(r)
  {
    if a == [] {
      assert a + [r] == [r] && [r][1..] == [];
    } else {
      LeftJoin(a[1..], r);
      assert (a + [r])[1..] == a[1..] + [r];
    }
  }

  // A whole untyped of RAM.
  lemma WholeRest(b: nat)
    requires b >= PAGE_BITS
    ensures Paged(Rest(Pow2(b), 0)) && PAGE * PagesIn(Rest(Pow2(b), 0)) == Pow2(b)
  {
    WholePages(b);
  }

  datatype Division = NoRam | ShareTooLarge | Divided(share: seq<nat>, rests: seq<Rest>)

  /** memory_init: RAM divided in two, the PAL's share and what PFNs may name.  Every
      page is in one or the other. */
  method MemoryInit(ds: seq<Desc>) returns (r: Division)
    ensures r.NoRam? <==> forall d <- ds :: !Ram(d)
    ensures r.ShareTooLarge? <==> !r.NoRam? && forall d <- ds | Ram(d) :: Pow2(d.sizeBits) <= ShareOf(RamIn(ds))
    ensures r.Divided? ==>
      && (forall x <- r.rests :: Paged(x)) && Sum(r.share) + PAGE * Left(r.rests) == RamIn(ds)
      && Sum(r.share) == ShareOf(RamIn(ds)) && exists d <- ds :: Ram(d) && forall i | 0 <= i < |r.share| ::
         PieceOf(r.share[i], d.sizeBits)
  {
    hide Pow2, Paged, Left, PagesIn, RoundUp, Sum, Multiple, RamIn, PieceOf;
    var ram, big := Survey(ds);
    if big == |ds| {
      return NoRam;
    }
    var want := ShareOf(ram);
    RoundUpIs(if ram / SHARE_DIV > SHARE_MIN then ram / SHARE_DIV else SHARE_MIN, PAGE);
    LargestIs(ds, big);
    assert ds[big] in ds;
    if want >= Pow2(ds[big].sizeBits) {
      return ShareTooLarge;
    }
    var top := new Ut(Pow2(ds[big].sizeBits));
    var share := CutShare(top, ds[big].sizeBits, want);
    var rests := Others(ds, big, Rest(top.size, top.used));
    r := Divided(share, rests);
  }

  lemma LargestIs(ds: seq<Desc>, big: nat)
    requires big < |ds| && forall d <- ds | Ram(d) :: d.sizeBits <= ds[big].sizeBits
    ensures forall d <- ds | Ram(d) :: Pow2(d.sizeBits) <= Pow2(ds[big].sizeBits)
  {
    hide Pow2;
    forall d | d in ds && Ram(d)
      ensures Pow2(d.sizeBits) <= Pow2(ds[big].sizeBits)
    {
      if d.sizeBits < ds[big].sizeBits { Above(d.sizeBits, ds[big].sizeBits); }
    }
  }

  /** The PAL's part of so much RAM, in whole pages. */
  function ShareOf(ram: nat): nat {
    RoundUp(if ram / SHARE_DIV > SHARE_MIN then ram / SHARE_DIV else SHARE_MIN, PAGE)
  }

  /** It is at least the least and at least its part, and no more than a page over. */
  lemma ShareIs(ram: nat)
    ensures ShareOf(ram) >= SHARE_MIN && ShareOf(ram) >= ram / SHARE_DIV && Multiple(ShareOf(ram), PAGE)
    ensures ShareOf(ram) < ram / SHARE_DIV + PAGE || ShareOf(ram) == SHARE_MIN
  {
    hide RoundUp, Multiple;
    RoundUpIs(if ram / SHARE_DIV > SHARE_MIN then ram / SHARE_DIV else SHARE_MIN, PAGE);
    RoundUpIs(SHARE_MIN, PAGE);
  }

  // How much RAM there is, and its largest untyped.
  method Survey(ds: seq<Desc>) returns (ram: nat, big: nat)
    ensures ram == RamIn(ds) && big <= |ds| && (big == |ds| <==> forall d <- ds :: !Ram(d))
    ensures big < |ds| ==> Ram(ds[big]) && forall d <- ds | Ram(d) :: d.sizeBits <= ds[big].sizeBits
  {
    hide Pow2, RamIn;
    ram, big := 0, |ds|;
    NoRamIn(ds);
    for i := 0 to |ds|
      invariant ram == RamIn(ds[..i]) && (big == |ds| || (big < i && Ram(ds[big])))
      invariant big == |ds| <==> forall k | 0 <= k < i :: !Ram(ds[k])
      invariant big < |ds| ==> forall k | 0 <= k < i && Ram(ds[k]) :: ds[k].sizeBits <= ds[big].sizeBits
    {
      RamMore(ds, i);
      if Ram(ds[i]) {
        ram := ram + Pow2(ds[i].sizeBits);
        if big == |ds| || ds[i].sizeBits > ds[big].sizeBits {
          big := i;
        }
      }
    }
    assert ds[..|ds|] == ds;
    assert big < |ds| ==> ds[big] in ds;
  }

  lemma NoRamIn(ds: seq<Desc>)
    ensures RamIn(ds[..0]) == 0
  {
    assert ds[..0] == [];
  }

  // What is left for the PFNs: of the largest untyped, and the others.
  method Others(ds: seq<Desc>, big: nat, top: Rest) returns (rests: seq<Rest>)
    requires big < |ds| && Ram(ds[big]) && top.size == Pow2(ds[big].sizeBits) && top.used < top.size
    requires Multiple(top.used, PAGE)
    ensures (forall x <- rests :: Paged(x)) && top.used + PAGE * Left(rests) == RamIn(ds)
  {
    hide Pow2, Paged, Left, PagesIn, RamIn, Multiple;
    rests := [top];
    TopRest(ds[big].sizeBits, top.used);
    NoRamIn(ds);
    for i := 0 to |ds|
      invariant forall x <- rests :: Paged(x)
      invariant top.used + PAGE * Left(rests) == RamIn(ds[..i]) + (if i <= big then top.size else 0)
    {
      RamMore(ds, i);
      if i != big && Ram(ds[i]) {
        WholeRest(ds[i].sizeBits);
        LeftJoin(rests, Rest(Pow2(ds[i].sizeBits), 0));
        rests := rests + [Rest(Pow2(ds[i].sizeBits), 0)];
      }
    }
    assert ds[..|ds|] == ds;
  }

  lemma TopRest(b: nat, want: nat)
    requires b >= PAGE_BITS && Multiple(want, PAGE) && want < Pow2(b)
    ensures Paged(Rest(Pow2(b), want)) && Left([Rest(Pow2(b), want)]) == PagesIn(Rest(Pow2(b), want))
    ensures want + PAGE * PagesIn(Rest(Pow2(b), want)) == Pow2(b)
  {
    WholePages(b);
    assert [Rest(Pow2(b), want)][1..] == [];
  }
}
