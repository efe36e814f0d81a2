/** The C run-time library's malloc, free and realloc: the free blocks in a
    ring sorted by address, after Kernighan and Ritchie's, with a roving start.
    Memory is counted in units of one 16-byte header; a unit is two quadwords,
    which are `next` and `units` where it is a header and the program's data
    where it is not, so that headers and data share storage. */
module Heap {

  datatype Option<+T> = None | Some(value: T)

  datatype Cell = Cell(next: int, units: int)

  const HEADER := 16
  const PAGE := 4096
  const CHUNK := 16
  const SPAN := 0x1000_0000_0000_0000 // units in a 64-bit address space
  const MAX_SIZE := 0xffff_ffff_ffff_0000

  // ---------------------------------------------------------------------
  // Blocks tile the regions obtained
  // ---------------------------------------------------------------------

  /** Blocks, as units by header address, lie in the region, apart from one
      another, and leave nothing of it uncovered. */
  ghost predicate Tiles(blocks: map<int, int>, region: set<int>) {
    && (forall a <- blocks :: blocks[a] >= 1)
    && (forall a, x | a in blocks && a <= x < a + blocks[a] :: x in region)
    && (forall a, b | a in blocks && b in blocks && a < b :: a + blocks[a] <= b)
    && (forall x <- region :: exists a :: a in blocks && a <= x < a + blocks[a])
  }

  // Two blocks side by side become one, and back.
  lemma TilesMerge(blocks: map<int, int>, region: set<int>, a: int, b: int)
    requires Tiles(blocks, region) && a in blocks && b in blocks && a + blocks[a] == b
    ensures Tiles((blocks - {b})[a := blocks[a] + blocks[b]], region)
  {
    var merged := (blocks - {b})[a := blocks[a] + blocks[b]];
    forall x <- region
      ensures exists c :: c in merged && c <= x < c + merged[c]
    {
      var c :| c in blocks && c <= x < c + blocks[c];
      assert (if c == b then a else c) in merged;
    }
  }

  lemma TilesSplit(blocks: map<int, int>, region: set<int>, a: int, n: int)
    requires Tiles(blocks, region) && a in blocks && 1 <= n < blocks[a]
    ensures Tiles(blocks[a := blocks[a] - n][a + blocks[a] - n := n], region)
    ensures a + blocks[a] - n !in blocks
  {
    var b := a + blocks[a] - n;
    var parts := blocks[a := blocks[a] - n][b := n];
    forall x <- region
      ensures exists c :: c in parts && c <= x < c + parts[c]
    {
      var c :| c in blocks && c <= x < c + blocks[c];
      assert (if c == a && b <= x then b else c) in parts;
    }
  }

  lemma TilesGrow(blocks: map<int, int>, region: set<int>, b: int, n: int, more: set<int>)
    requires Tiles(blocks, region) && n >= 1 && region !! more
    requires forall x :: x in more <==> b <= x < b + n
    ensures b !in blocks && Tiles(blocks[b := n], region + more)
  {
    assert b in more;
    var grown := blocks[b := n];
    forall x <- region + more
      ensures exists c :: c in grown && c <= x < c + grown[c]
    {
      if x in region {
        var c :| c in blocks && c <= x < c + blocks[c];
        assert c in grown;
      } else {
        assert b in grown;
      }
    }
    forall c, d | c in grown && d in grown && c < d
      ensures c + grown[c] <= d
    {
      if d == b {
        assert b !in region;
      } else if c == b {
        assert d in region;
      }
    }
  }

  predicate Within(x: int, a: int, n: int) {
    a <= x < a + n
  }

  function Interval(a: int, n: int): set<int> {
    set x | a <= x < a + n && Within(x, a, n)
  }

  lemma {:induction false} IntervalSize(a: int, n: nat)
    ensures |Interval(a, n)| == n
  {
    if n == 0 {
      assert Interval(a, n) == {};
    } else {
      IntervalSize(a, n - 1);
      assert Interval(a, n) == Interval(a, n - 1) + {a + n - 1};
    }
  }

  ghost function Pick(part: set<int>): (a: int)
    requires part != {}
    ensures a in part
  {
    assert (forall a :: a !in part) ==> part == {};
    var a :| a in part;
    a
  }

  /** The units of some of the blocks. */
  ghost function Sum(blocks: map<int, int>, part: set<int>): int
    requires part <= blocks.Keys
  {
    if part == {} then 0 else blocks[Pick(part)] + Sum(blocks, part - {Pick(part)})
  }

  ghost function Covered(blocks: map<int, int>, part: set<int>): set<int>
    requires part <= blocks.Keys
  {
    if part == {} then {} else Interval(Pick(part), blocks[Pick(part)]) + Covered(blocks, part - {Pick(part)})
  }

  lemma {:induction false} CoveredBy(blocks: map<int, int>, part: set<int>, x: int)
    requires part <= blocks.Keys
    ensures x in Covered(blocks, part) <==> exists a :: a in part && Within(x, a, blocks[a])
    decreases part
  {
    if part != {} {
      var a := Pick(part);
      CoveredBy(blocks, part - {a}, x);
      assert x in Interval(a, blocks[a]) <==> Within(x, a, blocks[a]);
    }
  }

  lemma NotBoth(blocks: map<int, int>, region: set<int>, a: int, b: int, x: int)
    requires Tiles(blocks, region) && a in blocks && b in blocks && a != b
    ensures !(Within(x, a, blocks[a]) && Within(x, b, blocks[b]))
  {
  }

  // Any part of the blocks counts exactly the units it covers.
  lemma {:induction false} PartCounts(blocks: map<int, int>, part: set<int>, region: set<int>)
    requires Tiles(blocks, region) && part <= blocks.Keys
    ensures Sum(blocks, part) == |Covered(blocks, part)|
    decreases part
  {
    if part != {} {
      var a := Pick(part);
      assert blocks[a] >= 1;
      IntervalSize(a, blocks[a]);
      hide Tiles;
      PartCounts(blocks, part - {a}, region);
      var rest, mine := Covered(blocks, part - {a}), Interval(a, blocks[a]);
      forall x | x in rest
        ensures x !in mine
      {
        CoveredBy(blocks, part - {a}, x);
        var b :| b in part - {a} && Within(x, b, blocks[b]);
        NotBoth(blocks, region, a, b, x);
      }
      assert rest !! mine;
    }
  }

  /** Units are conserved: those in use and those free add up to what the
      regions hold. */
  lemma UnitsConserved(blocks: map<int, int>, live: set<int>, region: set<int>)
    requires Tiles(blocks, region) && live <= blocks.Keys
    ensures Sum(blocks, live) + Sum(blocks, blocks.Keys - live) == |region|
  {
    var free := blocks.Keys - live;
    PartCounts(blocks, live, region);
    PartCounts(blocks, free, region);
    var x, y := Covered(blocks, live), Covered(blocks, free);
    forall u
      ensures u in x <==> exists a :: a in live && Within(u, a, blocks[a])
      ensures u in y <==> exists a :: a in free && Within(u, a, blocks[a])
    {
      CoveredBy(blocks, live, u);
      CoveredBy(blocks, free, u);
    }
    hide Sum, Covered;
    InUseOrFree(blocks, live, region, x, y);
  }

  lemma InUseOrFree(blocks: map<int, int>, live: set<int>, region: set<int>, x: set<int>, y: set<int>)
    requires Tiles(blocks, region) && live <= blocks.Keys
    requires forall u :: u in x <==> exists a :: a in live && Within(u, a, blocks[a])
    requires forall u :: u in y <==> exists a :: a in blocks.Keys - live && Within(u, a, blocks[a])
    ensures x !! y && region == x + y
  {
    forall u <- region
      ensures u in x + y
    {
      var a :| a in blocks && a <= u < a + blocks[a];
      assert Within(u, a, blocks[a]);
      assert a in live || a in blocks.Keys - live;
    }
    forall u | u in x
      ensures u in region && u !in y
    {
      var a :| a in live && Within(u, a, blocks[a]);
      if u in y {
        var b :| b in blocks.Keys - live && Within(u, b, blocks[b]);
        NotBoth(blocks, region, a, b, u);
      }
    }
    forall u | u in y
      ensures u in region
    {
      var b :| b in blocks.Keys - live && Within(u, b, blocks[b]);
    }
  }

  // ---------------------------------------------------------------------
  // The circular list, in address order
  // ---------------------------------------------------------------------

  /** n comes after a in the list: the next one up, or, after the highest,
      the lowest. */
  ghost predicate Follows(list: set<int>, a: int, n: int) {
    n in list && forall x <- list :: if a < n then !(a < x < n) else n <= x <= a
  }

  ghost predicate Circular(mem: map<int, Cell>, list: set<int>) {
    list <= mem.Keys && forall a {:trigger mem[a]} | a in list :: Follows(list, a, mem[a].next)
  }

  // How far it is from x up to a, going round the address space.
  function Ahead(x: int, a: int): int {
    if x <= a then a - x else a - x + SPAN
  }

  // A step along the list towards a member comes closer and never passes it.
  lemma StepCloser(list: set<int>, p: int, n: int, a: int)
    requires Follows(list, p, n) && p in list && a in list && p != a
    requires forall x <- list :: 0 <= x < SPAN
    ensures 0 <= Ahead(n, a) < Ahead(p, a)
    ensures forall x <- list :: Ahead(x, a) > Ahead(n, a) ==> x == p || Ahead(x, a) > Ahead(p, a)
  {
    assert n in list;
  }

  // The place of a block that is not in the list: after q, whose next is n.
  predicate Between(q: int, n: int, b: int) {
    (q < b < n) || (n <= q && (q < b || b < n))
  }

  // Short of its place, a step along the list comes closer to a block.
  lemma StepToPlace(list: set<int>, q: int, n: int, b: int)
    requires Follows(list, q, n) && q in list && b !in list && !Between(q, n, b)
    requires forall x <- list :: 0 <= x < SPAN
    requires 0 <= b < SPAN
    ensures 0 <= Ahead(n, b) < Ahead(q, b)
  {
    assert n in list;
  }

  lemma CircularInsert(mem: map<int, Cell>, mem': map<int, Cell>, list: set<int>, q: int, b: int)
    requires Circular(mem, list) && q in list && b !in list && Between(q, mem[q].next, b)
    requires list + {b} <= mem'.Keys
    requires mem'[q].next == b && mem'[b].next == mem[q].next
    requires forall a {:trigger mem'[a]} | a in list && a != q :: mem'[a].next == mem[a].next
    ensures Circular(mem', list + {b})
  {
    var n := mem[q].next;
    assert Follows(list, q, n);
    forall a | a in list + {b}
      ensures Follows(list + {b}, a, mem'[a].next)
    {
      if a in list && a != q {
        assert Follows(list, a, mem[a].next);
        InsertElsewhere(list, q, n, b, a, mem[a].next);
      }
    }
  }

  lemma InsertElsewhere(list: set<int>, q: int, n: int, b: int, a: int, m: int)
    requires Follows(list, q, n) && q in list && b !in list && Between(q, n, b)
    requires Follows(list, a, m) && a in list && a != q
    ensures Follows(list + {b}, a, m)
  {
    assert n in list && m in list;
  }

  lemma CircularRemove(mem: map<int, Cell>, mem': map<int, Cell>, list: set<int>, q: int, n: int)
    requires Circular(mem, list) && q in list && mem[q].next == n && n != q
    requires list - {n} <= mem'.Keys
    requires mem'[q].next == mem[n].next
    requires forall a {:trigger mem'[a]} | a in list && a != q && a != n :: mem'[a].next == mem[a].next
    ensures Circular(mem', list - {n})
  {
    assert Follows(list, q, n) && Follows(list, n, mem[n].next);
    forall a | a in list - {n}
      ensures Follows(list - {n}, a, mem'[a].next)
    {
      if a == q {
        SkipOne(list, q, n, mem[n].next);
      } else {
        assert Follows(list, a, mem[a].next);
        OnlyOneBefore(list, a, q, n, mem[a].next);
      }
    }
  }

  lemma SkipOne(list: set<int>, q: int, n: int, m: int)
    requires q in list && q != n && Follows(list, q, n) && Follows(list, n, m)
    ensures m != n && Follows(list - {n}, q, m)
  {
    assert n in list && m in list;
  }

  lemma OnlyOneBefore(list: set<int>, a: int, q: int, n: int, m: int)
    requires q in list && a in list && q != a && Follows(list, q, n) && Follows(list, a, m)
    ensures m != n
  {
  }

  // A block takes its upper neighbour's place.
  lemma CircularReplace(mem: map<int, Cell>, mem': map<int, Cell>, list: set<int>, q: int, n: int, b: int)
    requires Circular(mem, list) && q in list && mem[q].next == n && n != q
    requires b !in list && Between(q, n, b)
    requires list - {n} + {b} <= mem'.Keys
    requires mem'[q].next == b && mem'[b].next == mem[n].next
    requires forall a {:trigger mem'[a]} | a in list && a != q && a != n :: mem'[a].next == mem[a].next
    ensures Circular(mem', list - {n} + {b})
  {
    var cut := mem[q := Cell(mem[n].next, 0)];
    CircularRemove(mem, cut, list, q, n);
    assert Follows(list, q, n) && Follows(list, n, mem[n].next);
    assert n in list && mem[n].next in list;
    CircularInsert(cut, mem', list - {n}, q, b);
  }

  // ---------------------------------------------------------------------
  // The allocator
  // ---------------------------------------------------------------------

  function UnitsFor(size: nat): int {
    (size + HEADER - 1) / HEADER + 1
  }

  // The units of the pages that more() asks for.
  function RegionFor(units: int): int {
    var pages := (units * HEADER + PAGE - 1) / PAGE;
    (if pages < CHUNK then CHUNK else pages) * PAGE / HEADER
  }

  lemma RegionIsEnough(units: int)
    requires units >= 1
    ensures RegionFor(units) >= units
  {
  }

  /** What the heap's storage holds, on values: every block, as units by
      header address, those in use, and the units obtained. */
  datatype State = State(mem: map<int, Cell>, base: int, blocks: map<int, int>, live: set<int>, region: set<int>) {

    ghost function Free(): set<int> {
      blocks.Keys - live
    }

    ghost function List(): set<int> {
      Free() + {base}
    }

    // The storage: headers say the blocks' sizes.
    ghost predicate Stored() {
      && Tiles(blocks, region) && live <= blocks.Keys
      && (forall x <- region :: 0 <= x < SPAN && x != base && x != base - 1)
      && 0 <= base < SPAN && base in mem && region <= mem.Keys
      && (forall a {:trigger mem[a]} | a in blocks :: a in mem && mem[a].units == blocks[a])
      && mem[base].units == 0
    }

    // No two free blocks side by side.
    ghost predicate Apart() {
      forall a, b | a in Free() && b in Free() :: a + blocks[a] != b
    }

    // The free list: circular and in address order.
    ghost predicate Linked() {
      Circular(mem, List()) && Apart()
    }

    // A unit of a block in use, its header included.
    ghost predicate InUse(x: int) {
      exists a :: a in live && a in blocks && Within(x, a, blocks[a])
    }
  }

  lemma HeadersInRegion(s: State)
    requires s.Stored()
    ensures s.blocks.Keys <= s.region && s.base !in s.blocks && forall x <- s.List() :: 0 <= x < SPAN
  {
    forall a <- s.blocks ensures a in s.region { assert s.blocks[a] >= 1; }
  }

  // Strictly inside a block there is no other header.
  lemma NothingInside(s: State, a: int, x: int)
    requires s.Stored() && a in s.blocks && a < x < a + s.blocks[a]
    ensures x !in s.List() && x !in s.blocks
  {
    assert x in s.region;
  }

  lemma OnlyBelow(s: State, q: int, n: int, b: int, a: int)
    requires s.Stored() && q in s.List() && Follows(s.List(), q, n) && Between(q, n, b)
    requires a in s.Free() && a + s.blocks[a] == b
    ensures a == q
  {
    assert a in s.List() && s.blocks[a] >= 1;
    if a < q < b {
      NothingInside(s, a, q);
    }
  }

  lemma OnlyAbove(s: State, q: int, n: int, b: int, a: int)
    requires s.Stored() && q in s.List() && Follows(s.List(), q, n) && Between(q, n, b)
    requires b in s.blocks && a in s.Free() && b + s.blocks[b] == a
    ensures a == n
  {
    assert a in s.List() && s.blocks[b] >= 1;
    if b < n < a {
      NothingInside(s, b, n);
    }
  }

  lemma NotAtBase(s: State, b: int)
    requires s.Stored() && b in s.blocks
    ensures b + s.blocks[b] != s.base && b != s.base && b in s.region && 0 <= b < SPAN
  {
    assert s.blocks[b] >= 1;
    assert b + s.blocks[b] - 1 in s.region;
    assert b in s.region;
  }

  // ---------------------------------------------------------------------
  // What free() makes of the storage
  // ---------------------------------------------------------------------

  /** b put in the list after q, merged with the block above it if that is
      free. */
  function Inserted(s: State, q: int, b: int): State
    requires q in s.mem && b in s.mem && s.mem[q].next in s.mem
  {
    var n := s.mem[q].next;
    var joins := b + s.mem[b].units == n;
    var header := if joins then Cell(s.mem[n].next, s.mem[b].units + s.mem[n].units) else Cell(n, s.mem[b].units);
    s.(mem := s.mem[b := header][q := Cell(b, s.mem[q].units)],
       blocks := if joins then (s.blocks - {n})[b := header.units] else s.blocks,
       live := s.live - {b})
  }

  lemma NextInList(s: State, q: int)
    requires s.Stored() && s.Linked() && q in s.List()
    ensures q in s.mem && s.mem[q].next in s.mem && s.mem[q].next in s.List()
    ensures Follows(s.List(), q, s.mem[q].next)
    ensures s.mem[q].next == q ==> q == s.base
  {
    assert s.base in s.List();
    HeadersInRegion(s);
  }

  lemma InsertedStored(s: State, q: int, b: int)
    requires s.Stored() && s.Linked() && b in s.live && q in s.List() && Between(q, s.mem[q].next, b)
    ensures s.mem[q].next in s.mem && Inserted(s, q, b).Stored()
  {
    hide Circular, Follows, Tiles;
    NextInList(s, q);
    NotAtBase(s, b);
    HeadersInRegion(s);
    var n := s.mem[q].next;
    if b + s.mem[b].units == n {
      TilesMerge(s.blocks, s.region, b, n);
    }
  }

  lemma InsertedCircular(s: State, q: int, b: int)
    requires s.Stored() && s.Linked() && b in s.live && q in s.List() && Between(q, s.mem[q].next, b)
    ensures s.mem[q].next in s.mem && Circular(Inserted(s, q, b).mem, Inserted(s, q, b).List())
  {
    hide Circular, Follows, Tiles;
    NextInList(s, q);
    NotAtBase(s, b);
    HeadersInRegion(s);
    var n, t := s.mem[q].next, Inserted(s, q, b);
    if b + s.mem[b].units == n {
      assert t.List() == s.List() - {n} + {b};
      CircularReplace(s.mem, t.mem, s.List(), q, n, b);
    } else {
      assert t.List() == s.List() + {b};
      CircularInsert(s.mem, t.mem, s.List(), q, b);
    }
  }

  // The block below may still touch it; nothing else does.
  lemma InsertedApart(s: State, q: int, b: int, x: int, y: int)
    requires s.Stored() && s.Linked() && b in s.live && q in s.List() && Between(q, s.mem[q].next, b)
    requires s.mem[q].next in s.mem
    requires x in Inserted(s, q, b).Free() && y in Inserted(s, q, b).Free()
    requires x + Inserted(s, q, b).blocks[x] == y
    ensures x == q && y == b
  {
    hide Circular, Follows, Tiles;
    NextInList(s, q);
    NotAtBase(s, b);
    var n, t := s.mem[q].next, Inserted(s, q, b);
    BlockSize(s, b);
    var joins := b + s.mem[b].units == n;
    assert t.Free() == if joins then s.Free() - {n} + {b} else s.Free() + {b};
    if joins { BlockSize(s, n); }
    if y == b {
      if x != b { OnlyBelow(s, q, n, b, x); }
    } else if x == b {
      if joins { TouchingIsApart(s, n, y); } else { OnlyAbove(s, q, n, b, y); }
    } else {
      TouchingIsApart(s, x, y);
    }
  }

  lemma BlockSize(s: State, a: int)
    requires s.Stored() && a in s.blocks
    ensures s.mem[a].units == s.blocks[a] >= 1
  {
  }

  lemma InUseSize(s: State, a: int)
    requires s.Stored() && a in s.live
    ensures a in s.blocks && a in s.mem && s.mem[a].units == s.blocks[a] >= 1
  {
  }

  lemma TouchingIsApart(s: State, a: int, b: int)
    requires s.Apart() && a in s.Free() && b in s.Free()
    ensures a + s.blocks[a] != b
  {
  }

  /** b freed: as Inserted, and merged into the block below it if that is
      free. */
  function Freed(s: State, q: int, b: int): State
    requires q in s.mem && b in s.mem && s.mem[q].next in s.mem
  {
    var t := Inserted(s, q, b);
    if q + s.mem[q].units == b then
      var sum := s.mem[q].units + t.mem[b].units;
      t.(mem := t.mem[q := Cell(t.mem[b].next, sum)], blocks := (t.blocks - {b})[q := sum])
    else t
  }

  lemma FreedStored(s: State, q: int, b: int)
    requires s.Stored() && s.Linked() && b in s.live && q in s.List() && Between(q, s.mem[q].next, b)
    ensures s.mem[q].next in s.mem && Freed(s, q, b).Stored() && Freed(s, q, b).Linked()
    ensures q in Freed(s, q, b).List() && b in Inserted(s, q, b).mem
  {
    hide Circular, Follows, Tiles;
    NextInList(s, q);
    InsertedStored(s, q, b);
    InsertedCircular(s, q, b);
    var n, t, u := s.mem[q].next, Inserted(s, q, b), Freed(s, q, b);
    if q + s.mem[q].units == b {
      NotAtBase(s, b);
      assert q != s.base;
      assert q != n || q == s.base;
      TilesMerge(t.blocks, t.region, q, b);
      HeadersInRegion(t);
      assert u.List() == t.List() - {b};
      CircularRemove(t.mem, u.mem, t.List(), q, b);
    }
    forall x, y | x in u.Free() && y in u.Free()
      ensures x + u.blocks[x] != y
    {
      if x + u.blocks[x] == y {
        if u == t {
          InsertedApart(s, q, b, x, y);
        } else if x == q {
          InsertedApart(s, q, b, b, y);
        } else {
          InsertedApart(s, q, b, x, y);
        }
      }
    }
  }

  // Units of other blocks in use are left alone.
  lemma FreedKeeps(s: State, q: int, b: int, x: int)
    requires s.Stored() && s.Linked() && b in s.live && q in s.List() && Between(q, s.mem[q].next, b)
    requires s.mem[q].next in s.mem && Freed(s, q, b).InUse(x)
    ensures s.InUse(x) && x in s.mem && Freed(s, q, b).mem[x] == s.mem[x]
  {
    hide Circular, Follows;
    NextInList(s, q);
    NotAtBase(s, b);
    var u := Freed(s, q, b);
    var a :| a in u.live && a in u.blocks && Within(x, a, u.blocks[a]);
    assert a in s.live && a != b && a != q && u.blocks[a] == s.blocks[a];
    assert x in s.region;
    if q in s.blocks { NotBoth(s.blocks, s.region, a, q, x); BlockSize(s, q); }
    NotBoth(s.blocks, s.region, a, b, x);
    BlockSize(s, b);
  }

  // ---------------------------------------------------------------------
  // What malloc() makes of it
  // ---------------------------------------------------------------------

  // The header of the block malloc() takes from the free block p: p itself,
  // or its tail.
  function TakenAt(s: State, p: int, units: int): int
    requires p in s.mem
  {
    p + s.mem[p].units - units
  }

  function Taken(s: State, prev: int, p: int, units: int): State
    requires prev in s.mem && p in s.mem && TakenAt(s, p, units) in s.mem
  {
    var r := TakenAt(s, p, units);
    if s.mem[p].units == units then
      s.(mem := s.mem[prev := Cell(s.mem[p].next, s.mem[prev].units)], live := s.live + {p})
    else
      var left := s.mem[p].units - units;
      s.(mem := s.mem[p := Cell(s.mem[p].next, left)][r := Cell(s.mem[r].next, units)],
         blocks := s.blocks[p := left][r := units], live := s.live + {r})
  }

  lemma TakenValid(s: State, prev: int, p: int, units: int)
    requires s.Stored() && s.Linked() && prev in s.List() && p == s.mem[prev].next
    requires 1 <= units <= s.mem[p].units
    ensures TakenAt(s, p, units) in s.mem && p in s.Free() && prev != p
    ensures TakenAt(s, p, units) !in s.live
    ensures var t := Taken(s, prev, p, units); t.Stored() && t.Linked() && prev in t.List()
  {
    hide Circular, Follows, Tiles;
    NextInList(s, prev);
    assert p in s.Free();
    HeadersInRegion(s);
    TakenInside(s, p, units);
    var t, r := Taken(s, prev, p, units), TakenAt(s, p, units);
    if s.mem[p].units == units {
      assert t.List() == s.List() - {p};
      CircularRemove(s.mem, t.mem, s.List(), prev, p);
    } else {
      NothingInside(s, p, r);
      TilesSplit(s.blocks, s.region, p, units);
      assert t.List() == s.List();
      CircularSame(s.mem, t.mem, s.List());
      SplitApart(s, t, p, r);
    }
  }

  lemma TakenInside(s: State, p: int, units: int)
    requires s.Stored() && p in s.blocks && 1 <= units <= s.blocks[p]
    ensures p + s.blocks[p] - units in s.region
  {
  }

  lemma CircularSame(mem: map<int, Cell>, mem': map<int, Cell>, list: set<int>)
    requires Circular(mem, list) && list <= mem'.Keys
    requires forall a {:trigger mem'[a]} | a in list :: mem'[a].next == mem[a].next
    ensures Circular(mem', list)
  {
    forall a | a in list
      ensures Follows(list, a, mem'[a].next)
    {
      assert Follows(list, a, mem[a].next);
    }
  }

  lemma SplitApart(s: State, t: State, p: int, r: int)
    requires s.Apart() && p in s.Free() && t.Free() == s.Free() && r !in s.blocks
    requires p + t.blocks[p] == r
    requires forall a | a in s.Free() && a != p :: t.blocks[a] == s.blocks[a]
    ensures t.Apart()
  {
    forall x, y | x in t.Free() && y in t.Free()
      ensures x + t.blocks[x] != y
    {
      TouchingIsApart(s, x, y);
    }
  }

  // Blocks in use are left alone, and the new one is apart from them.
  lemma TakenKeeps(s: State, prev: int, p: int, units: int, x: int)
    requires s.Stored() && s.Linked() && prev in s.List() && p == s.mem[prev].next
    requires 1 <= units <= s.mem[p].units && TakenAt(s, p, units) in s.mem && p in s.Free()
    requires s.InUse(x)
    ensures x in s.mem && Taken(s, prev, p, units).mem[x] == s.mem[x]
    ensures Taken(s, prev, p, units).InUse(x) && !Within(x, TakenAt(s, p, units), units)
  {
    hide Circular, Follows;
    var t, r := Taken(s, prev, p, units), TakenAt(s, p, units);
    var a :| a in s.live && a in s.blocks && Within(x, a, s.blocks[a]);
    assert x in s.region && x != s.base;
    BlockSize(s, p);
    NotBoth(s.blocks, s.region, a, p, x);
    if prev in s.blocks {
      BlockSize(s, prev);
      NotBoth(s.blocks, s.region, a, prev, x);
    }
    assert r in s.region;
    if r in s.blocks && r != p { NothingInside(s, p, r); }
    assert a in t.live && a in t.blocks && t.blocks[a] == s.blocks[a];
  }

  // ---------------------------------------------------------------------
  // What more() makes of it
  // ---------------------------------------------------------------------

  /** The units at b come from the system, n of them, zeroed. */
  ghost predicate Granted(region: set<int>, base: int, b: int, n: int) {
    n >= 1 && forall x | b <= x < b + n :: 0 <= x < SPAN && x !in region && x != base && x != base - 1
  }

  // They join the heap as a block in use, which more() then frees.
  ghost function Grown(s: State, b: int, n: int): State {
    var units := Interval(b, n);
    s.(mem := (s.mem + map x | x in units :: Cell(0, 0))[b := Cell(0, n)],
       blocks := s.blocks[b := n], live := s.live + {b}, region := s.region + units)
  }

  lemma GrownValid(s: State, b: int, n: int)
    requires s.Stored() && s.Linked() && Granted(s.region, s.base, b, n)
    ensures b !in s.blocks && Grown(s, b, n).Stored() && Grown(s, b, n).Linked()
    ensures Grown(s, b, n).List() == s.List()
  {
    hide Circular, Follows, Tiles;
    var t, units := Grown(s, b, n), Interval(b, n);
    assert b in units by { assert Within(b, b, n); }
    HeadersInRegion(s);
    TilesGrow(s.blocks, s.region, b, n, units);
    assert t.Free() == s.Free();
    CircularSame(s.mem, t.mem, s.List());
  }

  lemma GrownKeeps(s: State, b: int, n: int, x: int)
    requires s.Stored() && Granted(s.region, s.base, b, n) && s.InUse(x)
    ensures x in s.mem && Grown(s, b, n).mem[x] == s.mem[x] && x in Grown(s, b, n).mem
    ensures !Within(x, b, n) && Grown(s, b, n).InUse(x)
  {
    var a :| a in s.live && a in s.blocks && Within(x, a, s.blocks[a]);
    assert x in s.region && a in s.region;
    assert a in Grown(s, b, n).live;
  }

  // ---------------------------------------------------------------------
  // The allocator
  // ---------------------------------------------------------------------

  // A block's units, all within one free block.
  ghost predicate Holds(s: State, a: int, b: int, n: int) {
    a in s.Free() && a <= b && b + n <= a + s.blocks[a]
  }

  lemma FreedHolds(s: State, q: int, b: int)
    requires s.Stored() && s.Linked() && b in s.live && q in s.List() && Between(q, s.mem[q].next, b)
    requires s.mem[q].next in s.mem
    ensures exists a :: Holds(Freed(s, q, b), a, b, s.blocks[b])
  {
    hide Circular, Follows, Tiles;
    NextInList(s, q);
    NotAtBase(s, b);
    BlockSize(s, b);
    var u, n := Freed(s, q, b), s.mem[q].next;
    if n != s.base { BlockSize(s, n); }
    if q != s.base { BlockSize(s, q); }
    assert Holds(u, if q + s.mem[q].units == b then q else b, b, s.blocks[b]);
  }

  // Blocks that stay in use keep their sizes and what the program put there.
  ghost predicate Kept(s: State, t: State) {
    && (forall a | a in s.live && a in t.live :: a in s.blocks && a in t.blocks && t.blocks[a] == s.blocks[a])
    && (forall x | s.InUse(x) && t.InUse(x) :: x in s.mem && x in t.mem && t.mem[x] == s.mem[x])
  }

  lemma KeptThrough(s: State, t: State, u: State)
    requires Kept(s, t) && Kept(t, u) && s.live <= t.live
    ensures Kept(s, u)
  {
    forall x | s.InUse(x) && u.InUse(x)
      ensures x in s.mem && x in u.mem && u.mem[x] == s.mem[x]
    {
      var a :| a in s.live && a in s.blocks && Within(x, a, s.blocks[a]);
      assert a in t.live;
      assert t.InUse(x);
    }
  }

  lemma KeptSelf(s: State)
    requires s.Stored()
    ensures Kept(s, s)
  {
    forall x | s.InUse(x) ensures x in s.mem {
      var a :| a in s.live && a in s.blocks && Within(x, a, s.blocks[a]);
      assert x in s.region;
    }
  }

  /** All that free() promises, on values. */
  lemma FreedAll(s: State, q: int, b: int)
    requires s.Stored() && s.Linked() && b in s.live && q in s.List() && Between(q, s.mem[q].next, b)
    ensures b in s.mem && s.mem[q].next in s.mem
    ensures var t := Freed(s, q, b);
      && t.Stored() && t.Linked() && q in t.List()
      && t.live == s.live - {b} && t.base == s.base && t.region == s.region
      && Kept(s, t)
      && exists a :: Holds(t, a, b, s.blocks[b])
  {
    hide Circular, Follows, Tiles;
    FreedStored(s, q, b);
    FreedHolds(s, q, b);
    forall x | Freed(s, q, b).InUse(x)
      ensures s.InUse(x) && x in s.mem && Freed(s, q, b).mem[x] == s.mem[x]
    {
      FreedKeeps(s, q, b, x);
    }
    NextInList(s, q);
  }

  // The stores of free(), once its place is found.
  lemma FreedStores(s: State, q: int, b: int)
    requires q in s.mem && b in s.mem && s.mem[q].next in s.mem && q != b
    ensures var n := s.mem[q].next;
      var first := if b + s.mem[b].units == n
                   then s.mem[b := Cell(s.mem[n].next, s.mem[b].units + s.mem[n].units)]
                   else s.mem[b := Cell(n, s.mem[b].units)];
      Freed(s, q, b).mem == if q + first[q].units == b
                            then first[q := Cell(first[b].next, first[q].units + first[b].units)]
                            else first[q := Cell(b, first[q].units)]
  {
  }

  lemma GrownKept(s: State, b: int, n: int)
    requires s.Stored() && Granted(s.region, s.base, b, n) && b !in s.blocks
    ensures Kept(s, Grown(s, b, n))
  {
    hide Tiles, Interval;
    forall x | s.InUse(x)
      ensures x in s.mem && x in Grown(s, b, n).mem && Grown(s, b, n).mem[x] == s.mem[x]
    {
      GrownKeeps(s, b, n, x);
    }
  }

  lemma TakenKept(s: State, prev: int, p: int, units: int)
    requires s.Stored() && s.Linked() && prev in s.List() && p == s.mem[prev].next
    requires 1 <= units <= s.mem[p].units && TakenAt(s, p, units) in s.mem && p in s.Free()
    requires TakenAt(s, p, units) !in s.live
    ensures Kept(s, Taken(s, prev, p, units))
  {
    hide Tiles, Circular;
    forall x | s.InUse(x)
      ensures x in s.mem && Taken(s, prev, p, units).mem[x] == s.mem[x]
    {
      TakenKeeps(s, prev, p, units, x);
    }
  }

  // What Malloc stores, and where the block it returns is.
  lemma TakenStores(s: State, prev: int, p: int, units: int)
    requires prev in s.mem && p in s.mem && TakenAt(s, p, units) in s.mem && p in s.blocks
    requires s.mem[p].units == s.blocks[p] >= units >= 1
    ensures var t, r, left := Taken(s, prev, p, units), TakenAt(s, p, units), s.mem[p].units - units;
      && t.mem == (if left == 0 then s.mem[prev := Cell(s.mem[p].next, s.mem[prev].units)]
                   else s.mem[p := Cell(s.mem[p].next, left)][r := Cell(s.mem[r].next, units)])
      && t.live == s.live + {r} && r in t.blocks && t.blocks[r] == units
      && t.base == s.base && t.region == s.region
  {
  }

  // The first call's list: base alone.
  lemma FirstList(s: State, t: State)
    requires s.Stored() && s.blocks == map[] && t == s.(mem := s.mem[s.base := Cell(s.base, 0)])
    ensures t.Stored() && t.Linked() && t.base in t.List() && Kept(s, t)
  {
  }

  // The free blocks passed so far, from start round to p, are all too small.
  ghost predicate Searched(s: State, start: int, p: int, units: int) {
    forall a | a in s.Free() && Ahead(a, start) > Ahead(p, start) :: s.blocks[a] < units
  }

  lemma NextIsFirst(s: State, start: int)
    requires s.Stored() && s.Linked() && start in s.List()
    ensures start in s.mem && 0 <= Ahead(s.mem[start].next, start)
    ensures forall units :: Searched(s, start, s.mem[start].next, units)
  {
    HeadersInRegion(s);
    NextInList(s, start);
    forall a | a in s.Free()
      ensures Ahead(a, start) <= Ahead(s.mem[start].next, start)
    {
      assert a in s.List();
    }
  }

  lemma SearchStep(s: State, start: int, p: int, units: int)
    requires s.Stored() && s.Linked() && start in s.List() && p in s.List() && p in s.mem && p != start
    requires Searched(s, start, p, units) && s.mem[p].units < units
    ensures Searched(s, start, s.mem[p].next, units)
    ensures 0 <= Ahead(s.mem[p].next, start) < Ahead(p, start)
  {
    hide Circular, Follows, Tiles;
    HeadersInRegion(s);
    NextInList(s, p);
    StepCloser(s.List(), p, s.mem[p].next, start);
    forall a | a in s.Free() && Ahead(a, start) > Ahead(s.mem[p].next, start)
      ensures s.blocks[a] < units
    {
      assert a in s.List();
      if a == p { BlockSize(s, p); }
    }
  }

  lemma AllSearched(s: State, start: int, units: int)
    requires s.Stored() && start in s.List() && start in s.mem
    requires Searched(s, start, start, units) && s.mem[start].units < units
    ensures forall a | a in s.Free() :: s.blocks[a] < units
  {
    HeadersInRegion(s);
    forall a | a in s.Free()
      ensures s.blocks[a] < units
    {
      if a == start { BlockSize(s, a); }
      assert a in s.List();
    }
  }

  lemma DataStore(s: State, a: int, x: int, cell: Cell)
    requires s.Stored() && a in s.live && a < x < a + s.blocks[a]
    ensures s.(mem := s.mem[x := cell]).Stored()
    ensures s.Linked() ==> s.(mem := s.mem[x := cell]).Linked()
  {
    hide Circular, Follows;
    NothingInside(s, a, x);
    var t := s.(mem := s.mem[x := cell]);
    assert x in s.region;
    if s.Linked() {
      HeadersInRegion(s);
      CircularSame(s.mem, t.mem, s.List());
    }
  }

  lemma DataInUse(s: State, a: int)
    requires s.Stored() && a in s.live
    ensures forall x | a <= x < a + s.blocks[a] :: x in s.mem && s.InUse(x)
  {
    forall x | a <= x < a + s.blocks[a]
      ensures x in s.mem && s.InUse(x)
    {
      assert x in s.region;
      assert Within(x, a, s.blocks[a]);
    }
  }

  // A block in use before and after holds what it held.
  lemma StillHolds(s: State, t: State, b: int)
    requires s.Stored() && t.Stored() && Kept(s, t) && b in s.live && b in t.live
    ensures b in s.blocks && b in t.blocks && s.blocks[b] == t.blocks[b]
    ensures forall x | b <= x < b + s.blocks[b] :: x in s.mem && x in t.mem && t.mem[x] == s.mem[x]
  {
    hide Tiles;
    DataInUse(s, b);
    DataInUse(t, b);
  }

  lemma DataApart(s: State, a: int, b: int)
    requires s.Stored() && a in s.blocks && b in s.blocks && a != b
    ensures a + s.blocks[a] <= b || b + s.blocks[b] <= a
  {
  }

  /** n units of data copied from one block to another, in order. */
  function Copied(mem: map<int, Cell>, from: int, to: int, n: nat): map<int, Cell> {
    if n == 0 then mem
    else
      var m := Copied(mem, from, to, n - 1);
      if from + n in m then m[to + n := m[from + n]] else m
  }

  lemma {:induction false} CopiedData(mem: map<int, Cell>, from: int, to: int, n: nat)
    requires forall x | from < x <= from + n || to < x <= to + n :: x in mem
    requires from + n < to || to + n < from
    ensures Copied(mem, from, to, n).Keys == mem.Keys
    ensures forall x | x in mem && !(to < x <= to + n) :: Copied(mem, from, to, n)[x] == mem[x]
    ensures forall x | to < x <= to + n :: Copied(mem, from, to, n)[x] == mem[from - to + x]
  {
    if n > 0 { CopiedData(mem, from, to, n - 1); }
  }

  lemma {:induction false} CopiedValid(s: State, from: int, to: int, n: nat)
    requires s.Stored() && s.Linked() && from in s.live && to in s.live && from != to
    requires n < s.blocks[from] && n < s.blocks[to]
    ensures s.(mem := Copied(s.mem, from, to, n)).Stored() && s.(mem := Copied(s.mem, from, to, n)).Linked()
  {
    hide Circular, Follows, Tiles;
    if n > 0 {
      CopiedValid(s, from, to, n - 1);
      var t := s.(mem := Copied(s.mem, from, to, n - 1));
      if from + n in t.mem {
        DataStore(t, to, to + n, t.mem[from + n]);
      }
    }
  }

  // Storing into a new block changes no old one.
  lemma CopyKept(s: State, t: State, u: State, to: int)
    requires s.Stored() && t.Stored() && Kept(s, t) && s.live <= t.live && to in t.live && to !in s.live
    requires u == t.(mem := u.mem) && u.mem.Keys == t.mem.Keys
    requires forall x | x in u.mem && !(to <= x < to + t.blocks[to]) :: u.mem[x] == t.mem[x]
    ensures Kept(s, u)
  {
    hide Tiles;
    forall x | s.InUse(x) && u.InUse(x)
      ensures x in s.mem && x in u.mem && u.mem[x] == s.mem[x]
    {
      var a :| a in s.live && a in s.blocks && Within(x, a, s.blocks[a]);
      assert a in t.live && t.blocks[a] == s.blocks[a];
      assert t.InUse(x);
      DataApart(t, a, to);
      assert !(to <= x < to + t.blocks[to]);
    }
  }

  // Unit i after one header and after another, and all up to n.
  ghost predicate SameUnit(m: map<int, Cell>, a: int, m': map<int, Cell>, b: int, i: int) {
    a + i in m && b + i in m' && m'[b + i] == m[a + i]
  }

  ghost predicate SameData(m: map<int, Cell>, a: int, m': map<int, Cell>, b: int, n: int) {
    forall i | 0 < i <= n :: SameUnit(m, a, m', b, i)
  }

  /** realloc's four states: what the old block held is in the new one. */
  lemma Moved(s: State, t: State, u: State, v: State, from: int, to: int, n: nat)
    requires s.Stored() && t.Stored() && u.Stored() && v.Stored()
    requires Kept(s, t) && Kept(u, v) && s.live <= t.live && u.live == t.live
    requires from in s.live && to in t.live && to !in s.live && to in v.live
    requires n + 1 == s.blocks[from] && n < t.blocks[to]
    requires u == t.(mem := Copied(t.mem, from, to, n))
    ensures Kept(s, v) && to in v.blocks && to in t.blocks && v.blocks[to] == t.blocks[to]
    ensures SameData(s.mem, from, v.mem, to, n)
  {
    hide Tiles, Kept, Copied;
    StillHolds(s, t, from);
    StillHolds(u, v, to);
    DataInUse(t, to);
    DataApart(t, from, to);
    CopiedData(t.mem, from, to, n);
    CopyKept(s, t, u, to);
    KeptThrough(s, u, v);
    forall i | 0 < i <= n
      ensures SameUnit(s.mem, from, v.mem, to, i)
    {
      assert t.mem[from + i] == s.mem[from + i] && u.mem[to + i] == t.mem[from + i];
    }
  }

  class Allocator {
    const base: int
    var mem: map<int, Cell>
    var freep: Option<int>
    ghost var blocks: map<int, int>
    ghost var live: set<int>
    ghost var region: set<int>

    ghost function St(): State
      reads this
    {
      State(mem, base, blocks, live, region)
    }

    /** Free and used blocks tile the regions; the free ones are linked in
        address order, and no two of them touch. */
    ghost predicate Valid()
      reads this
    {
      && St().Stored()
      && if freep.None? then blocks == map[] else St().Linked() && freep.value in St().List()
    }

    constructor (at: int)
      requires 0 <= at < SPAN
      ensures Valid() && base == at && live == {} && region == {}
    {
      base := at;
      mem := map[at := Cell(0, 0)];
      freep := None;
      blocks, live, region := map[], {}, {};
    }

    // The walk of free() to b's place in the list: after q.
    method Place(b: int) returns (q: int)
      requires Valid() && freep.Some? && b in live
      ensures q in St().List() && q in mem && Between(q, mem[q].next, b)
    {
      hide Circular, Follows, Tiles;
      ghost var s := St();
      NotAtBase(s, b);
      HeadersInRegion(s);
      q := freep.value;
      NextInList(s, q);
      while !(b > q && b < mem[q].next)
        invariant q in s.List() && q in mem && Follows(s.List(), q, mem[q].next)
        decreases Ahead(q, b)
      {
        if q >= mem[q].next && (b > q || b < mem[q].next) {
          break;
        }
        StepToPlace(s.List(), q, mem[q].next, b);
        NextInList(s, q);
        q := mem[q].next;
        NextInList(s, q);
      }
    }

    /** free: gives a block back, merged with the free blocks on either side
        of it, and leaves every other block in use as it was. */
    method Free(p: Option<int>)
      requires Valid() && (p.Some? ==> p.value - 1 in live)
      modifies this`mem, this`freep, this`blocks, this`live
      ensures Valid()
      ensures p.None? ==> unchanged(this)
      ensures p.Some? ==> freep.Some? && live == old(live) - {p.value - 1}
      ensures p.Some? ==> var b := p.value - 1; exists a :: Holds(St(), a, b, old(blocks)[b])
      ensures Kept(old(St()), St())
    {
      hide Circular, Follows, Tiles, Freed, Holds, Kept;
      if p.None? {
        KeptSelf(St());
        return;
      }
      ghost var s := St();
      var b := p.value - 1;
      var q := Place(b);
      FreedAll(s, q, b);
      FreedStores(s, q, b);
      var n := mem[q].next;
      if b + mem[b].units == n {
        mem := mem[b := Cell(mem[n].next, mem[b].units + mem[n].units)];
      } else {
        mem := mem[b := Cell(n, mem[b].units)];
      }
      if q + mem[q].units == b {
        mem := mem[q := Cell(mem[b].next, mem[q].units + mem[b].units)];
      } else {
        mem := mem[q := Cell(b, mem[q].units)];
      }
      freep := Some(q);
      blocks, live := Freed(s, q, b).blocks, Freed(s, q, b).live;
      assert St() == Freed(s, q, b);
    }

    /** more: a region from the system, at least CHUNK pages, freed into the
        list; None and nothing changed if the system has none to give. */
    method More(units: int, grant: Option<int>) returns (r: Option<int>)
      requires Valid() && freep.Some? && units >= 1
      requires grant.Some? ==> Granted(region, base, grant.value, RegionFor(units))
      modifies this`mem, this`freep, this`blocks, this`live, this`region
      ensures Valid() && freep.Some? && live == old(live) && Kept(old(St()), St())
      ensures grant.None? ==> unchanged(this) && r == None
      ensures grant.Some? ==> r == freep && region == old(region) + Interval(grant.value, RegionFor(units))
      ensures grant.Some? ==> exists a :: a in St().Free() && blocks[a] >= units
    {
      hide Circular, Follows, Tiles, Interval, Freed, Kept, RegionFor;
      if grant.None? {
        KeptSelf(St());
        return None;
      }
      ghost var s := St();
      var b := grant.value;
      var n := RegionFor(units);
      RegionIsEnough(units);
      GrownValid(s, b, n);
      ghost var t := Grown(s, b, n);
      GrownKept(s, b, n);
      mem := (mem + map x | x in Interval(b, n) :: Cell(0, 0))[b := Cell(0, n)];
      blocks, live, region := t.blocks, t.live, t.region;
      assert St() == t;
      Free(Some(b + 1));
      KeptThrough(s, t, St());
      ghost var a :| Holds(St(), a, b, n);
      return freep;
    }

    /** malloc's search: a free block of at least units, with its predecessor in the
        ring, or none where there is none and the system has no more.  It asks the
        system once at most. */
    method Search(units: int, grant: Option<int>) returns (found: bool, prev: int, p: int)
      requires Valid() && freep.Some? && units >= 1
      requires grant.Some? ==> Granted(region, base, grant.value, RegionFor(units))
      modifies this`mem, this`freep, this`blocks, this`live, this`region
      ensures Valid() && freep.Some? && live == old(live) && Kept(old(St()), St())
      ensures region == old(region) ||
              (grant.Some? && region == old(region) + Interval(grant.value, RegionFor(units)))
      ensures region != old(region) ==> forall a | a in old(St()).Free() :: old(blocks)[a] < units
      ensures found ==> prev in St().List() && p in mem && p == mem[prev].next && mem[p].units >= units
      ensures found ==> Searched(St(), freep.value, p, units)
      ensures !found ==> grant.None? && unchanged(this) && forall a | a in St().Free() :: blocks[a] < units
    {
      hide Circular, Follows, Tiles, Interval;
      ghost var grown := false;
      prev := freep.value;
      NextInList(St(), prev);
      NextIsFirst(St(), prev);
      KeptSelf(St());
      p := mem[prev].next;
      while true
        invariant Valid() && freep.Some? && live == old(live) && Kept(old(St()), St())
        invariant if grown then grant.Some? && region == old(region) + Interval(grant.value, RegionFor(units))
                  else unchanged(this)
        invariant grown ==> exists a :: a in St().Free() && blocks[a] >= units
        invariant grown ==> forall a | a in old(St()).Free() :: old(blocks)[a] < units
        invariant prev in St().List() && prev in mem && p in St().List() && p in mem && mem[prev].next == p
        invariant Searched(St(), freep.value, p, units)
        decreases !grown, Ahead(p, freep.value)
      {
        HeadersInRegion(St());
        if mem[p].units >= units {
          return true, prev, p;
        }
        if p == freep.value {
          AllSearched(St(), p, units);
          var m := More(units, grant);
          if m.None? {
            return false, prev, p;
          }
          grown := true;
          p := m.value;
          NextInList(St(), p);
          NextIsFirst(St(), p);
        } else {
          NextInList(St(), p);
          SearchStep(St(), freep.value, p, units);
        }
        prev, p := p, mem[p].next;
      }
    }

    /** malloc: a block of at least size bytes, apart from every other block
        in use, or None if nothing free is large enough and the system has no
        more.  grant is what the system answers if it is asked. */
    method Malloc(size: nat, grant: Option<int>) returns (r: Option<int>)
      requires Valid() && size <= MAX_SIZE
      requires grant.Some? ==> Granted(region, base, grant.value, RegionFor(UnitsFor(size)))
      modifies this`mem, this`freep, this`blocks, this`live, this`region
      ensures Valid() && freep.Some? && Kept(old(St()), St())
      ensures r.Some? ==> r.value - 1 !in old(live) && live == old(live) + {r.value - 1}
      ensures r.Some? ==> blocks[r.value - 1] == UnitsFor(size) && HEADER * (UnitsFor(size) - 1) >= size
      ensures r.None? ==> grant.None? && live == old(live) && blocks == old(blocks) && region == old(region)
      ensures r.None? ==> forall a | a in St().Free() :: blocks[a] < UnitsFor(size)
      ensures region == old(region) ||
              (grant.Some? && region == old(region) + Interval(grant.value, RegionFor(UnitsFor(size))))
      ensures region != old(region) ==> forall a | a in old(St()).Free() :: old(blocks)[a] < UnitsFor(size)
    {
      hide Circular, Follows, Tiles, Interval, Taken, Kept, Granted, RegionFor;
      var units := UnitsFor(size);
      ghost var s0 := St();
      KeptSelf(s0);
      if freep.None? {
        mem := mem[base := Cell(base, 0)];
        freep := Some(base);
        FirstList(s0, St());
      }
      ghost var s1 := St();
      var found, prev, p := Search(units, grant);
      ghost var s := St();
      KeptThrough(s0, s1, s);
      if !found {
        return None;
      }
      var b := Take(prev, p, units);
      KeptThrough(s0, s, St());
      r := Some(b + 1);
    }

    // The end of malloc: the block p, or its tail, leaves the list.
    method Take(prev: int, p: int, units: int) returns (r: int)
      requires Valid() && freep.Some? && prev in St().List() && prev in mem && p in mem && p == mem[prev].next
      requires 1 <= units <= mem[p].units
      modifies this`mem, this`freep, this`blocks, this`live
      ensures Valid() && freep.Some? && Kept(old(St()), St())
      ensures r !in old(live) && live == old(live) + {r} && r in blocks && blocks[r] == units
    {
      hide Circular, Follows, Tiles, Taken, Kept;
      ghost var s := St();
      TakenValid(s, prev, p, units);
      TakenKept(s, prev, p, units);
      TakenStores(s, prev, p, units);
      ghost var t := Taken(s, prev, p, units);
      r := p;
      if mem[p].units == units {
        mem := mem[prev := Cell(mem[p].next, mem[prev].units)];
      } else {
        mem := mem[p := Cell(mem[p].next, mem[p].units - units)];
        r := p + mem[p].units;
        mem := mem[r := Cell(mem[r].next, units)];
      }
      freep := Some(prev);
      blocks, live := t.blocks, t.live;
      assert St() == t;
    }

    /** The program's own store into a block it has: unit i of the data. */
    method Store(p: int, i: int, cell: Cell)
      requires Valid() && p - 1 in live && 0 <= i < blocks[p - 1] - 1
      modifies this`mem
      ensures Valid() && mem == old(mem)[p + i := cell]
    {
      hide Circular, Follows, Tiles;
      DataStore(St(), p - 1, p + i, cell);
      mem := mem[p + i := cell];
    }

    /** realloc: the same block, and nothing done, if it is large enough; else a larger
        one with what the old one held, which is freed; or none where nothing free is
        large enough and the system has no more, and then everything stays. */
    method Realloc(p: Option<int>, size: nat, grant: Option<int>) returns (q: Option<int>)
      requires Valid() && size <= MAX_SIZE && (p.Some? ==> p.value - 1 in live)
      requires grant.Some? ==> Granted(region, base, grant.value, RegionFor(UnitsFor(size)))
      modifies this`mem, this`freep, this`blocks, this`live, this`region
      ensures Valid() && Kept(old(St()), St())
      ensures p.Some? ==>
        (q == p <==> size <= HEADER * (old(blocks)[p.value - 1] - 1)) && (q == p ==> St() == old(St()))
      ensures q.None? ==> grant.None? && live == old(live) && blocks == old(blocks) && region == old(region)
      ensures q.None? ==> forall a | a in St().Free() :: blocks[a] < UnitsFor(size)
      ensures q.Some? ==> q.value - 1 in live && q.value - 1 in blocks && HEADER * (blocks[q.value - 1] - 1) >= size
      ensures q.Some? && p.None? ==> live == old(live) + {q.value - 1}
      ensures q.Some? && p.Some? ==> live == old(live) - {p.value - 1} + {q.value - 1}
      ensures q.Some? && p.Some? ==>
                SameData(old(mem), p.value - 1, mem, q.value - 1, old(blocks)[p.value - 1] - 1)
    {
      hide Circular, Follows, Tiles, Granted, RegionFor, Kept, Copied, State.Stored, State.Linked;
      ghost var s := St();
      if p.None? {
        q := Malloc(size, grant);
        if q.Some? { InUseSize(St(), q.value - 1); }
        return;
      }
      var b := p.value - 1;
      InUseSize(s, b);
      DataInUse(s, b);
      KeptSelf(s);
      var n := mem[b].units - 1;
      if size <= n * HEADER {
        return p;
      }
      q := MoveBlock(b, n, size, grant);
    }

    // The rest of realloc: a new block, the old one's data, the old one freed.
    method MoveBlock(b: int, n: nat, size: nat, grant: Option<int>) returns (q: Option<int>)
      requires Valid() && size <= MAX_SIZE && b in live && blocks[b] == n + 1 && n * HEADER < size
      requires grant.Some? ==> Granted(region, base, grant.value, RegionFor(UnitsFor(size)))
      modifies this`mem, this`freep, this`blocks, this`live, this`region
      ensures Valid() && Kept(old(St()), St())
      ensures q.None? ==> grant.None? && live == old(live) && blocks == old(blocks) && region == old(region)
      ensures q.None? ==> forall a | a in St().Free() :: blocks[a] < UnitsFor(size)
      ensures q.Some? ==> q.value - 1 in live && q.value - 1 in blocks && HEADER * (blocks[q.value - 1] - 1) >= size
      ensures q.Some? ==> live == old(live) - {b} + {q.value - 1} && q.value - 1 != b
      ensures q.Some? ==> SameData(old(mem), b, mem, q.value - 1, n)
    {
      hide Circular, Follows, Tiles, Granted, RegionFor, Kept, Copied, State.Stored, State.Linked;
      ghost var s := St();
      InUseSize(s, b);
      q := Malloc(size, grant);
      if q.None? {
        return;
      }
      var to := q.value - 1;
      ghost var t := St();
      StillHolds(s, t, b);
      CopyData(b, to, n);
      ghost var u := St();
      Free(Some(b + 1));
      Moved(s, t, u, St(), b, to, n);
    }

    // memcpy of n units between two blocks' data.
    method CopyData(from: int, to: int, n: nat)
      requires Valid() && from in live && to in live && from != to
      requires n < blocks[from] && n < blocks[to]
      modifies this`mem
      ensures Valid() && mem == Copied(old(mem), from, to, n)
    {
      hide Circular, Follows, Tiles;
      ghost var s := St();
      DataInUse(s, from);
      DataInUse(s, to);
      DataApart(s, from, to);
      CopiedValid(s, from, to, n);
      var i := 0;
      while i < n
        invariant 0 <= i <= n && St() == s.(mem := Copied(s.mem, from, to, i))
      {
        CopiedData(s.mem, from, to, i);
        i := i + 1;
        mem := mem[to + i := mem[from + i]];
      }
    }
  }
}
