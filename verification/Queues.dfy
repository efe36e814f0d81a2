/** The PAL's queue calls, the VAX's queue instructions: doubly linked rings of
    entries in the executive's memory.  The self-relative ones, INSQHI, INSQTI,
    REMQHI and REMQTI, hold the distance from an entry to its neighbours; the
    absolute ones, INSQUE and REMQUE, their addresses.  Links are longwords or
    quadwords.  Each call is proved to act on a well-formed ring as insertion
    or removal acts on the sequence of its entries, and to leave memory as it
    was whenever it fails. */
module Queues {
  import opened Numbers

  const SPACE_END := 0x8000_0000
  const PAGE := 4096
  const WORD := 0x1_0000_0000_0000_0000

  // ---------------------------------------------------------------------
  // Memory, in longwords, and the links in it
  // ---------------------------------------------------------------------

  type Memory = map<int, int>

  function Modulus(w: int): int {
    if w == 4 then 0x1_0000_0000 else WORD
  }

  // The signed value of w bytes.
  function Signed(x: int, w: int): int {
    if x < Modulus(w) / 2 then x else x - Modulus(w)
  }

  predicate Fits(v: int, w: int) {
    -Modulus(w) / 2 <= v < Modulus(w) / 2
  }

  // The longwords a w-byte link takes.
  predicate Backed(m: Memory, w: int, va: int) {
    va in m && (w != 4 ==> va + 4 in m)
  }

  function Get(m: Memory, w: int, va: int): int
    requires Backed(m, w, va)
  {
    if w == 4 then Signed(m[va] % 0x1_0000_0000, 4)
    else Signed(m[va] % 0x1_0000_0000 + 0x1_0000_0000 * (m[va + 4] % 0x1_0000_0000), 8)
  }

  function Put(m: Memory, w: int, va: int, v: int): Memory {
    var x := v % Modulus(w);
    if w == 4 then m[va := x]
    else m[va := x % 0x1_0000_0000][va + 4 := x / 0x1_0000_0000]
  }

  predicate Aligned(x: int, n: int) {
    if n == 4 then x % 4 == 0 else if n == 8 then x % 8 == 0 else x % 16 == 0
  }

  predicate Width(n: int) {
    n == 4 || n == 8 || n == 16
  }

  lemma AlignedMultiple(k: int, n: int)
    requires Width(n)
    ensures Aligned(k * n, n) && (k * n) % 2 == 0 && (k * n) % 4 == 0
  {
    ModAddMultiple(0, k, n);
    ModAddMultiple(0, k * (n / 2), 2);
    ModAddMultiple(0, k * (n / 4), 4);
  }

  lemma AlignedQuotient(x: int, n: int)
    requires Width(n) && Aligned(x, n)
    ensures x == (x / n) * n
  {
  }

  lemma AlignedMore(x: int, w: int)
    requires w == 4 || w == 8
    requires Aligned(x, 2 * w) || Aligned(x, w)
    ensures Aligned(x, w) && Aligned(x + w, w) && x % 4 == 0
  {
    var n := if Aligned(x, 2 * w) then 2 * w else w;
    AlignedQuotient(x, n);
    var k := x / n;
    hide Aligned;
    if n == w {
      AlignedMultiple(k, w);
      AlignedMultiple(k + 1, w);
      assert (k + 1) * w == x + w;
    } else {
      AlignedMultiple(2 * k, w);
      AlignedMultiple(2 * k + 1, w);
      assert (2 * k) * w == x && (2 * k + 1) * w == x + w;
    }
  }

  // Aligned addresses are the same or at least a link apart.
  lemma AlignedApart(x: int, y: int, n: int)
    requires Width(n) && Aligned(x, n) && Aligned(y, n) && x != y
    ensures x + n <= y || y + n <= x
  {
    AlignedQuotient(x, n);
    AlignedQuotient(y, n);
    hide Aligned;
    var a, b := x / n, y / n;
    assert a < b ==> (a + 1) * n <= b * n;
    assert b < a ==> (b + 1) * n <= a * n;
  }

  lemma SignedBack(v: int, w: int)
    requires Fits(v, w)
    ensures Signed(v % Modulus(w), w) == v
  {
    DivModUnique(v, if v < 0 then -1 else 0, if v < 0 then v + Modulus(w) else v, Modulus(w));
  }

  lemma HalvesBack(x: int)
    requires 0 <= x < WORD
    ensures var lo, hi := x % 0x1_0000_0000, x / 0x1_0000_0000;
      lo % 0x1_0000_0000 + 0x1_0000_0000 * (hi % 0x1_0000_0000) == x
  {
  }

  lemma GetPut(m: Memory, w: int, va: int, v: int)
    requires Fits(v, w)
    ensures Backed(Put(m, w, va, v), w, va) && Get(Put(m, w, va, v), w, va) == v
  {
    SignedBack(v, w);
    HalvesBack(v % WORD);
    hide Signed;
    assert w == 4 ==> v % Modulus(w) % Modulus(w) == v % Modulus(w);
  }

  /** A store at one link and a load at another, both aligned. */
  lemma PutGets(m: Memory, w: int, va: int, v: int, x: int)
    requires w == 4 || w == 8
    requires Aligned(va, w) && Aligned(x, w) && Fits(v, w) && Backed(m, w, x)
    ensures Backed(Put(m, w, va, v), w, x)
    ensures Get(Put(m, w, va, v), w, x) == if x == va then v else Get(m, w, x)
  {
    hide Signed, Aligned;
    if x == va {
      GetPut(m, w, va, v);
    } else {
      AlignedApart(x, va, w);
    }
  }

  // ---------------------------------------------------------------------
  // Rings
  // ---------------------------------------------------------------------

  function Next(nodes: seq<int>, i: int): int
    requires 0 <= i < |nodes|
  {
    if i + 1 == |nodes| then nodes[0] else nodes[i + 1]
  }

  function Previous(nodes: seq<int>, i: int): int
    requires 0 <= i < |nodes|
  {
    if i == 0 then nodes[|nodes| - 1] else nodes[i - 1]
  }

  // What a link at an entry holds for its neighbour: a distance or an address.
  function Code(self: bool, at: int, target: int): int {
    if self then target - at else target
  }

  /** Where entries can be: in memory, aligned, no two over each other. */
  ghost predicate Apart(m: Memory, w: int, self: bool, nodes: seq<int>) {
    && (w == 4 || w == 8)
    && (forall i | 0 <= i < |nodes| ::
          && 0 <= nodes[i] <= SPACE_END - 2 * w && Aligned(nodes[i], if self then 2 * w else w)
          && Backed(m, w, nodes[i]) && Backed(m, w, nodes[i] + w))
    && (forall i, j | 0 <= i < |nodes| && 0 <= j < |nodes| && i != j ::
          nodes[i] + 2 * w <= nodes[j] || nodes[j] + 2 * w <= nodes[i])
  }

  ghost predicate LinksAt(m: Memory, w: int, self: bool, nodes: seq<int>, i: int)
    requires 0 <= i < |nodes|
  {
    && Backed(m, w, nodes[i]) && Get(m, w, nodes[i]) == Code(self, nodes[i], Next(nodes, i))
    && Backed(m, w, nodes[i] + w) && Get(m, w, nodes[i] + w) == Code(self, nodes[i], Previous(nodes, i))
  }

  /** A ring: each node's forward link is the next one's, the last one's the
      first, and backward. */
  ghost predicate Ring(m: Memory, w: int, self: bool, nodes: seq<int>) {
    && |nodes| > 0 && Apart(m, w, self, nodes)
    && forall i | 0 <= i < |nodes| :: LinksAt(m, w, self, nodes, i)
  }

  // Four stores put e between p and s.
  function LinkIn(m: Memory, w: int, self: bool, p: int, e: int, s: int): Memory {
    Put(Put(Put(Put(m, w, e, Code(self, e, s)), w, e + w, Code(self, e, p)),
            w, s + w, Code(self, s, e)), w, p, Code(self, p, e))
  }

  // Two take what is between p and s out.
  function LinkOut(m: Memory, w: int, self: bool, p: int, s: int): Memory {
    Put(Put(m, w, p, Code(self, p, s)), w, s + w, Code(self, s, p))
  }

  // Addresses below 2 GB and their distances fit a longword.
  lemma CodesFit(w: int, self: bool, a: int, b: int)
    requires w == 4 || w == 8
    requires 0 <= a < SPACE_END && 0 <= b < SPACE_END
    ensures Fits(Code(self, a, b), w)
  {
  }

  function Inserted(nodes: seq<int>, k: int, e: int): seq<int>
    requires 0 <= k < |nodes|
  {
    nodes[..k + 1] + [e] + nodes[k + 1..]
  }

  function Removed(nodes: seq<int>, k: int): seq<int>
    requires 0 <= k < |nodes|
  {
    nodes[..k] + nodes[k + 1..]
  }

  // What the four stores leave at a link.
  lemma LinkInGets(m: Memory, w: int, self: bool, p: int, e: int, s: int, x: int)
    requires w == 4 || w == 8
    requires Aligned(p, w) && Aligned(e, w) && Aligned(s, w) && Aligned(x, w) && Backed(m, w, x)
    requires 0 <= p < SPACE_END && 0 <= e < SPACE_END && 0 <= s < SPACE_END
    ensures var m' := LinkIn(m, w, self, p, e, s);
      && Backed(m', w, x)
      && Get(m', w, x) == if x == p then Code(self, p, e) else if x == s + w then Code(self, s, e)
                          else if x == e + w then Code(self, e, p) else if x == e then Code(self, e, s)
                          else Get(m, w, x)
  {
    hide Get, Put, Fits, Code, Aligned;
    AlignedMore(e, w);
    AlignedMore(s, w);
    var m1 := Put(m, w, e, Code(self, e, s));
    var m2 := Put(m1, w, e + w, Code(self, e, p));
    var m3 := Put(m2, w, s + w, Code(self, s, e));
    CodesFit(w, self, e, s);
    CodesFit(w, self, e, p);
    CodesFit(w, self, s, e);
    CodesFit(w, self, p, e);
    PutGets(m, w, e, Code(self, e, s), x);
    PutGets(m1, w, e + w, Code(self, e, p), x);
    PutGets(m2, w, s + w, Code(self, s, e), x);
    PutGets(m3, w, p, Code(self, p, e), x);
  }

  lemma LinkOutGets(m: Memory, w: int, self: bool, p: int, s: int, x: int)
    requires w == 4 || w == 8
    requires Aligned(p, w) && Aligned(s, w) && Aligned(x, w) && Backed(m, w, x)
    requires 0 <= p < SPACE_END && 0 <= s < SPACE_END
    ensures var m' := LinkOut(m, w, self, p, s);
      && Backed(m', w, x)
      && Get(m', w, x) == if x == s + w then Code(self, s, p) else if x == p then Code(self, p, s)
                          else Get(m, w, x)
  {
    hide Get, Put, Fits, Code, Aligned;
    AlignedMore(s, w);
    CodesFit(w, self, p, s);
    CodesFit(w, self, s, p);
    PutGets(m, w, p, Code(self, p, s), x);
    PutGets(Put(m, w, p, Code(self, p, s)), w, s + w, Code(self, s, p), x);
  }

  // A place for a new entry, clear of the ring's.
  ghost predicate Clear(m: Memory, w: int, self: bool, nodes: seq<int>, e: int) {
    Apart(m, w, self, nodes + [e])
  }

  lemma ApartAligned(m: Memory, w: int, self: bool, nodes: seq<int>, i: int)
    requires Apart(m, w, self, nodes) && 0 <= i < |nodes|
    ensures (w == 4 || w == 8) && Aligned(nodes[i], if self then 2 * w else w)
    ensures Aligned(nodes[i], w) && Aligned(nodes[i] + w, w) && 0 <= nodes[i] <= SPACE_END - 2 * w
    ensures Backed(m, w, nodes[i]) && Backed(m, w, nodes[i] + w)
  {
    hide Aligned;
    AlignedMore(nodes[i], w);
  }

  // No link of one node is a link of another.
  lemma Distinct(m: Memory, w: int, self: bool, nodes: seq<int>, i: int, j: int)
    requires Apart(m, w, self, nodes) && 0 <= i < |nodes| && 0 <= j < |nodes|
    ensures nodes[i] + w != nodes[j] && (nodes[i] == nodes[j] <==> i == j)
  {
  }

  lemma ApartInserted(m: Memory, w: int, self: bool, nodes: seq<int>, k: int, e: int)
    requires 0 <= k < |nodes| && Clear(m, w, self, nodes, e)
    ensures Apart(m, w, self, Inserted(nodes, k, e))
  {
    hide Aligned;
    var all, ins := nodes + [e], Inserted(nodes, k, e);
    forall i | 0 <= i < |ins|
      ensures ins[i] == all[Where(k, |nodes|, i)]
    {
    }
  }

  // Where the entry at i of an insertion after k was, the new one last.
  function Where(k: int, n: int, i: int): int {
    if i <= k then i else if i == k + 1 then n else i - 1
  }

  /** Linking e in after the k-th node is insertion in the sequence. */
  lemma RingInsert(m: Memory, w: int, self: bool, nodes: seq<int>, k: int, e: int)
    requires Ring(m, w, self, nodes) && 0 <= k < |nodes| && Clear(m, w, self, nodes, e)
    ensures Ring(LinkIn(m, w, self, nodes[k], e, Next(nodes, k)), w, self, Inserted(nodes, k, e))
  {
    hide Get, LinkIn, Code, Apart;
    var p, s, ins := nodes[k], Next(nodes, k), Inserted(nodes, k, e);
    var m' := LinkIn(m, w, self, p, e, s);
    ApartInserted(m, w, self, nodes, k, e);
    forall i | 0 <= i < |ins|
      ensures LinksAt(m', w, self, ins, i)
    {
      InsertLinks(m, w, self, nodes, k, e, i);
    }
    ApartBacked(m, m', w, self, ins);
  }

  lemma ApartBacked(m: Memory, m': Memory, w: int, self: bool, nodes: seq<int>)
    requires Apart(m, w, self, nodes) && forall i | 0 <= i < |nodes| :: LinksAt(m', w, self, nodes, i)
    ensures Apart(m', w, self, nodes)
  {
    hide Get, Code;
    forall i | 0 <= i < |nodes|
      ensures Backed(m', w, nodes[i]) && Backed(m', w, nodes[i] + w)
    {
      assert LinksAt(m', w, self, nodes, i);
    }
  }

  // Node i's links against node j's.
  lemma Pair(m: Memory, w: int, self: bool, nodes: seq<int>, i: int, j: int)
    requires Apart(m, w, self, nodes) && 0 <= i < |nodes| && 0 <= j < |nodes|
    ensures (w == 4 || w == 8) && 0 <= nodes[j] < SPACE_END
    ensures Aligned(nodes[j], w) && Aligned(nodes[j] + w, w) && Backed(m, w, nodes[j]) && Backed(m, w, nodes[j] + w)
    ensures nodes[j] + w != nodes[i] && nodes[i] + w != nodes[j] && (nodes[i] == nodes[j] <==> i == j)
  {
    hide Aligned;
    ApartAligned(m, w, self, nodes, j);
    Distinct(m, w, self, nodes, i, j);
    Distinct(m, w, self, nodes, j, i);
  }

  lemma NodeLinks(m: Memory, w: int, self: bool, nodes: seq<int>, i: int)
    requires Ring(m, w, self, nodes) && 0 <= i < |nodes|
    ensures LinksAt(m, w, self, nodes, i)
  {
  }

  // A node's neighbours in the ring after an insertion.
  lemma InsertedNeighbours(nodes: seq<int>, k: int, e: int, i: int)
    requires 0 <= k < |nodes| && 0 <= i <= |nodes|
    ensures var ins := Inserted(nodes, k, e);
      && (i == k + 1 ==> ins[i] == e && Next(ins, i) == Next(nodes, k) && Previous(ins, i) == nodes[k])
      && (i != k + 1 ==> var j := if i <= k then i else i - 1;
            && ins[i] == nodes[j] && Next(ins, i) == (if i == k then e else Next(nodes, j))
            && Previous(ins, i) == (if i == (if k + 1 == |nodes| then 0 else k + 2) then e else Previous(nodes, j)))
  {
  }

  // One node of the ring after an insertion.
  lemma InsertLinks(m: Memory, w: int, self: bool, nodes: seq<int>, k: int, e: int, i: int)
    requires Ring(m, w, self, nodes) && 0 <= k < |nodes| && Clear(m, w, self, nodes, e)
    requires 0 <= i <= |nodes|
    ensures LinksAt(LinkIn(m, w, self, nodes[k], e, Next(nodes, k)), w, self, Inserted(nodes, k, e), i)
  {
    hide Get, LinkIn, Code, Apart, Aligned, Ring, Inserted, Clear, Next, Previous;
    var p, s, ins := nodes[k], Next(nodes, k), Inserted(nodes, k, e);
    InsertedSize(nodes, k, e);
    var x := ins[i];
    ApartInserted(m, w, self, nodes, k, e);
    var at := if k + 1 == |nodes| then 0 else k + 2;
    InsertedNeighbours(nodes, k, e, i);
    Pair(m, w, self, ins, i, i);
    Pair(m, w, self, ins, i, k);
    Pair(m, w, self, ins, i, k + 1);
    Pair(m, w, self, ins, i, at);
    LinkInGets(m, w, self, p, e, s, x);
    LinkInGets(m, w, self, p, e, s, x + w);
    if i != k + 1 {
      NodeLinks(m, w, self, nodes, if i <= k then i else i - 1);
    }
  }

  lemma InsertedSize(nodes: seq<int>, k: int, e: int)
    requires 0 <= k < |nodes|
    ensures var ins := Inserted(nodes, k, e);
      |ins| == |nodes| + 1 && ins[k] == nodes[k] && ins[k + 1] == e
      && ins[if k + 1 == |nodes| then 0 else k + 2] == Next(nodes, k)
  {
  }

  lemma ApartRemoved(m: Memory, w: int, self: bool, nodes: seq<int>, k: int)
    requires 0 <= k < |nodes| && Apart(m, w, self, nodes)
    ensures Apart(m, w, self, Removed(nodes, k))
  {
    hide Aligned;
    var rem := Removed(nodes, k);
    forall i | 0 <= i < |rem|
      ensures rem[i] == nodes[if i < k then i else i + 1]
    {
    }
  }

  // A node's neighbours in the ring after a removal.
  lemma RemovedNeighbours(nodes: seq<int>, k: int, i: int)
    requires 0 <= k < |nodes| && 0 <= i < |nodes| - 1
    ensures var rem, n, j := Removed(nodes, k), |nodes|, if i < k then i else i + 1;
      var pi, si := if k == 0 then n - 1 else k - 1, if k + 1 == n then 0 else k + 1;
      && |rem| == n - 1 && rem[i] == nodes[j] && Previous(nodes, k) == nodes[pi] && Next(nodes, k) == nodes[si]
      && Next(rem, i) == (if j == pi then nodes[si] else Next(nodes, j))
      && Previous(rem, i) == (if j == si then nodes[pi] else Previous(nodes, j))
  {
  }

  // One node of the ring after a removal.
  lemma RemoveLinks(m: Memory, w: int, self: bool, nodes: seq<int>, k: int, i: int)
    requires Ring(m, w, self, nodes) && 0 <= k < |nodes| && 0 <= i < |nodes| - 1
    ensures LinksAt(LinkOut(m, w, self, Previous(nodes, k), Next(nodes, k)), w, self, Removed(nodes, k), i)
  {
    hide Get, LinkOut, Code, Apart, Aligned, Removed, Next, Previous;
    RemovedNeighbours(nodes, k, i);
    var n := |nodes|;
    var j, pi, si := if i < k then i else i + 1, if k == 0 then n - 1 else k - 1, if k + 1 == n then 0 else k + 1;
    Pair(m, w, self, nodes, j, j);
    Pair(m, w, self, nodes, j, pi);
    Pair(m, w, self, nodes, j, si);
    LinkOutGets(m, w, self, nodes[pi], nodes[si], nodes[j]);
    LinkOutGets(m, w, self, nodes[pi], nodes[si], nodes[j] + w);
    NodeLinks(m, w, self, nodes, j);
  }

  /** Linking the k-th node out is removal from the sequence. */
  lemma RingRemove(m: Memory, w: int, self: bool, nodes: seq<int>, k: int)
    requires Ring(m, w, self, nodes) && 0 <= k < |nodes| && |nodes| > 1
    ensures Ring(LinkOut(m, w, self, Previous(nodes, k), Next(nodes, k)), w, self, Removed(nodes, k))
  {
    hide Get, LinkOut, Code, Apart;
    var rem, m' := Removed(nodes, k), LinkOut(m, w, self, Previous(nodes, k), Next(nodes, k));
    ApartRemoved(m, w, self, nodes, k);
    forall i | 0 <= i < |rem|
      ensures LinksAt(m', w, self, rem, i)
    {
      RemoveLinks(m, w, self, nodes, k, i);
    }
    ApartBacked(m, m', w, self, rem);
  }

  /** Taking out what was put in gives the ring back, links and all. */
  lemma InsertThenRemove(m: Memory, w: int, self: bool, nodes: seq<int>, k: int, e: int)
    requires Ring(m, w, self, nodes) && 0 <= k < |nodes| && Clear(m, w, self, nodes, e)
    ensures var ins := Inserted(nodes, k, e);
      && Previous(ins, k + 1) == nodes[k] && Next(ins, k + 1) == Next(nodes, k)
      && Removed(ins, k + 1) == nodes
      && Ring(LinkOut(LinkIn(m, w, self, nodes[k], e, Next(nodes, k)), w, self, nodes[k], Next(nodes, k)), w, self,
              nodes)
  {
    hide Ring, LinkIn, LinkOut, Clear;
    var ins := Inserted(nodes, k, e);
    RingInsert(m, w, self, nodes, k, e);
    RingRemove(LinkIn(m, w, self, nodes[k], e, Next(nodes, k)), w, self, ins, k + 1);
    assert Removed(ins, k + 1) == nodes;
  }

  lemma PutsCommute(m: Memory, w: int, a: int, x: int, b: int, y: int)
    requires w == 4 || w == 8
    requires a + w <= b || b + w <= a
    ensures Put(Put(m, w, a, x), w, b, y) == Put(Put(m, w, b, y), w, a, x)
  {
  }

  // ---------------------------------------------------------------------
  // The calls
  // ---------------------------------------------------------------------

  /** How a call ends: a status and R1, or a reserved operand, or an access
      violation at an address. */
  datatype Outcome = Done(v0: int, r1: int) | Roprand | Accvio(va: int)

  predicate Writable(pages: set<int>, va: int) {
    0 <= va < SPACE_END && va / PAGE in pages
  }

  // Every link of the nodes is on a page that may be written.
  ghost predicate Reachable(pages: set<int>, nodes: seq<int>, w: int) {
    forall i | 0 <= i < |nodes| :: Writable(pages, nodes[i]) && Writable(pages, nodes[i] + w)
  }

  // A queue with a header h and entries es that a call can work on.
  ghost predicate Usable(m: Memory, pages: set<int>, w: int, self: bool, nodes: seq<int>) {
    Ring(m, w, self, nodes) && Reachable(pages, nodes, w)
  }

  // A new entry's place that a call can use.
  ghost predicate Room(m: Memory, pages: set<int>, w: int, self: bool, nodes: seq<int>, e: int) {
    Clear(m, w, self, nodes, e) && Reachable(pages, [e], w)
  }

  lemma DistancesAligned(w: int, x: int, y: int)
    requires w == 4 || w == 8
    requires Aligned(x, 2 * w) && Aligned(y, 2 * w)
    ensures Aligned(y - x, 2 * w) && (y - x) % 2 == 0
  {
    AlignedQuotient(x, 2 * w);
    AlignedQuotient(y, 2 * w);
    hide Aligned;
    var a, b := x / (2 * w), y / (2 * w);
    AlignedMultiple(b - a, 2 * w);
    assert (b - a) * (2 * w) == y - x;
  }

  // A node of a usable ring, and what its links lead to.
  lemma NodeFacts(m: Memory, pages: set<int>, w: int, self: bool, nodes: seq<int>, i: int)
    requires Usable(m, pages, w, self, nodes) && 0 <= i < |nodes|
    ensures (w == 4 || w == 8) && Aligned(nodes[i], w) && Aligned(nodes[i] + w, w)
    ensures Aligned(nodes[i], if self then 2 * w else w)
    ensures 0 <= nodes[i] <= SPACE_END - 2 * w
    ensures Writable(pages, nodes[i]) && Writable(pages, nodes[i] + w)
    ensures Backed(m, w, nodes[i]) && Get(m, w, nodes[i]) == Code(self, nodes[i], Next(nodes, i))
    ensures Backed(m, w, nodes[i] + w) && Get(m, w, nodes[i] + w) == Code(self, nodes[i], Previous(nodes, i))
  {
    hide Apart, Get, Aligned, Code;
    ApartAligned(m, w, self, nodes, i);
    assert LinksAt(m, w, self, nodes, i);
  }

  lemma RoomFacts(m: Memory, pages: set<int>, w: int, self: bool, nodes: seq<int>, e: int)
    requires Room(m, pages, w, self, nodes, e)
    ensures (w == 4 || w == 8) && Aligned(e, w) && Aligned(e + w, w)
    ensures Aligned(e, if self then 2 * w else w) && 0 <= e <= SPACE_END - 2 * w
    ensures Writable(pages, e) && Writable(pages, e + w)
    ensures forall i | 0 <= i < |nodes| :: nodes[i] + w != e && e + w != nodes[i] && e != nodes[i]
  {
    var all := nodes + [e];
    hide Apart, Aligned;
    ApartAligned(m, w, self, all, |nodes|);
    assert [e][0] == e;
    forall i | 0 <= i < |nodes|
      ensures nodes[i] + w != e && e + w != nodes[i] && e != nodes[i]
    {
      Distinct(m, w, self, all, i, |nodes|);
      Distinct(m, w, self, all, |nodes|, i);
    }
  }

  // Two nodes of a ring are far enough apart for their links not to overlap.
  lemma LinksApart(m: Memory, w: int, self: bool, nodes: seq<int>, i: int, j: int)
    requires Ring(m, w, self, nodes) && 0 <= i < |nodes| && 0 <= j < |nodes|
    ensures nodes[i] + w <= nodes[j] + w || nodes[j] + w + w <= nodes[i]
  {
  }

  /** The memory after INSQHI or INSQTI, from the neighbour n of the header. */
  function InsertedSelf(m: Memory, w: int, tail: bool, h: int, e: int, n: int): Memory {
    var m1 := Put(m, w, e, (if tail then h else n) - e);
    var m2 := Put(m1, w, e + w, (if tail then n else h) - e);
    var m3 := Put(m2, w, if tail then n else n + w, e - n);
    Put(m3, w, if tail then h + w else h, e - h)
  }

  function Entries(tail: bool, es: seq<int>, e: int): seq<int> {
    if tail then es + [e] else [e] + es
  }

  lemma InsertedSelfRing(m: Memory, pages: set<int>, w: int, tail: bool, h: int, e: int, es: seq<int>)
    requires Usable(m, pages, w, true, [h] + es) && Room(m, pages, w, true, [h] + es, e)
    ensures var nodes := [h] + es; var n := if tail then Previous(nodes, 0) else Next(nodes, 0);
      Ring(InsertedSelf(m, w, tail, h, e, n), w, true, [h] + Entries(tail, es, e))
  {
    hide Apart, Put, Aligned, Ring, Clear;
    var nodes := [h] + es;
    var last := |nodes| - 1;
    var k := if tail then last else 0;
    var n := if tail then Previous(nodes, 0) else Next(nodes, 0);
    NodeFacts(m, pages, w, true, nodes, k);
    RingInsert(m, w, true, nodes, k, e);
    assert Inserted(nodes, k, e) == [h] + Entries(tail, es, e);
    if tail {
      var m2 := Put(Put(m, w, e, h - e), w, e + w, n - e);
      LinksApart(m, w, true, nodes, last, 0);
      PutsCommute(m2, w, n, e - n, h + w, e - h);
    }
  }

  /** The memory after REMQHI or REMQTI, from the new neighbour n of the header. */
  function RemovedSelf(m: Memory, w: int, tail: bool, h: int, n: int): Memory {
    Put(Put(m, w, if tail then h + w else h, n - h), w, if tail then n else n + w, h - n)
  }

  // The entry a removal takes, and those it leaves.
  function Taken(tail: bool, es: seq<int>): int
    requires es != []
  {
    if tail then es[|es| - 1] else es[0]
  }

  function Left(tail: bool, es: seq<int>): seq<int>
    requires es != []
  {
    if tail then es[..|es| - 1] else es[1..]
  }

  lemma RemovedSelfRing(m: Memory, w: int, tail: bool, h: int, es: seq<int>)
    requires Ring(m, w, true, [h] + es) && es != []
    ensures var nodes := [h] + es; var k := if tail then |es| else 1;
      var n := if tail then Previous(nodes, k) else Next(nodes, k);
      Ring(RemovedSelf(m, w, tail, h, n), w, true, [h] + Left(tail, es))
  {
    hide Apart, Put, Aligned;
    var nodes := [h] + es;
    var k := if tail then |es| else 1;
    var n := if tail then Previous(nodes, k) else Next(nodes, k);
    ApartAligned(m, w, true, nodes, 0);
    RingRemove(m, w, true, nodes, k);
    assert Removed(nodes, k) == [h] + Left(tail, es);
    if tail {
      assert nodes[k - 1] == n;
      LinksApart(m, w, true, nodes, k - 1, 0);
      PutsCommute(m, w, n, h - n, h + w, n - h);
    }
  }

  // The entry a removal takes: where it leads, and who is there.
  lemma TakenFacts(m: Memory, pages: set<int>, w: int, h: int, es: seq<int>, tail: bool)
    requires Usable(m, pages, w, true, [h] + es) && es != []
    ensures var nodes := [h] + es; var k := if tail then |es| else 1; var e := nodes[k];
      var n := if tail then Previous(nodes, k) else Next(nodes, k); var l := if tail then e + w else e;
      && (w == 4 || w == 8) && e == Taken(tail, es) && Aligned(l, w) && Writable(pages, l) && Backed(m, w, l)
      && (e + Get(m, w, l)) % WORD == n && Aligned(n, 2 * w)
      && Aligned(n, w) && Aligned(n + w, w) && Writable(pages, n) && Writable(pages, n + w)
      && (n == h <==> |es| == 1)
  {
    hide Get, Aligned, Apart, Ring, Writable;
    var nodes := [h] + es;
    var k := if tail then |es| else 1;
    var i := if tail then k - 1 else if k + 1 == |nodes| then 0 else k + 1;
    NodeFacts(m, pages, w, true, nodes, k);
    NodeFacts(m, pages, w, true, nodes, i);
    DistinctRing(m, w, true, nodes, 0, i);
  }

  // A node of an absolute ring, its neighbours, and when they meet.
  lemma AbsoluteFacts(m: Memory, pages: set<int>, w: int, nodes: seq<int>, k: int)
    requires Usable(m, pages, w, false, nodes) && 0 <= k < |nodes|
    ensures var e, s, p := nodes[k], Next(nodes, k), Previous(nodes, k);
      && (w == 4 || w == 8) && Aligned(e, w) && Aligned(e + w, w) && Writable(pages, e) && Writable(pages, e + w)
      && Backed(m, w, e) && Backed(m, w, e + w)
      && Get(m, w, e) % WORD == s && Get(m, w, e + w) % WORD == p && 0 <= e < SPACE_END
      && Aligned(s + w, w) && Writable(pages, s + w) && Aligned(p, w) && Writable(pages, p)
      && (s == e <==> |nodes| == 1) && (p == e <==> |nodes| == 1) && (s == p <==> |nodes| <= 2)
  {
    hide Get, Aligned, Apart, Ring, Writable;
    var n := |nodes|;
    var pi, si := if k == 0 then n - 1 else k - 1, if k + 1 == n then 0 else k + 1;
    NodeFacts(m, pages, w, false, nodes, k);
    NodeFacts(m, pages, w, false, nodes, pi);
    NodeFacts(m, pages, w, false, nodes, si);
    DistinctRing(m, w, false, nodes, k, pi);
    DistinctRing(m, w, false, nodes, k, si);
    DistinctRing(m, w, false, nodes, pi, si);
  }

  const INSQHIL := 0x87
  const INSQUEL := 0x8b
  const INSQUEQ_D := 0x8e
  const REMQHIL := 0x93
  const REMQUEL := 0x97
  const REMQUEQ_D := 0x9a
  const INSQHILR := 0xa2
  const REMQHILR := 0xa6
  const REMQTIQR := 0xa9

  predicate IsQueueCall(code: int) {
    INSQHIL <= code <= INSQUEQ_D || REMQHIL <= code <= REMQUEQ_D || INSQHILR <= code <= REMQTIQR
  }

  datatype Call = Call(ins: bool, self: bool, w: int, tail: bool, deferred: bool)

  // Which call a code is, by its two low bits within each group.
  function Decode(code: int): Call {
    var ins := code < REMQHIL || INSQHILR <= code < REMQHILR;
    var self := !(INSQUEL <= code <= INSQUEQ_D) && !(REMQUEL <= code <= REMQUEQ_D);
    var j := (code - if code >= INSQHILR then INSQHILR else INSQHIL) % 4;
    var w := if (if self then j / 2 else j) % 2 == 1 then 8 else 4;
    Call(ins, self, w, self && j % 2 == 1, j / 2 == 1)
  }

  /** The codes are the calls the interface names: head and tail, longword
      and quadword, and the resident forms the same as the others. */
  lemma CodeTable()
    ensures Decode(0x87) == Call(true, true, 4, false, false) && Decode(0x88) == Call(true, true, 4, true, false)
    ensures Decode(0x89) == Call(true, true, 8, false, true) && Decode(0x8a) == Call(true, true, 8, true, true)
    ensures Decode(0x93) == Call(false, true, 4, false, false) && Decode(0x94) == Call(false, true, 4, true, false)
    ensures Decode(0x95) == Call(false, true, 8, false, true) && Decode(0x96) == Call(false, true, 8, true, true)
    ensures Decode(0xa2) == Call(true, true, 4, false, false) && Decode(0xa3) == Call(true, true, 4, true, false)
    ensures Decode(0xa4) == Call(true, true, 8, false, true) && Decode(0xa5) == Call(true, true, 8, true, true)
    ensures Decode(0xa6) == Call(false, true, 4, false, false) && Decode(0xa7) == Call(false, true, 4, true, false)
    ensures Decode(0xa8) == Call(false, true, 8, false, true) && Decode(0xa9) == Call(false, true, 8, true, true)
    ensures Decode(0x8b) == Call(true, false, 4, false, false) && Decode(0x8c) == Call(true, false, 8, false, false)
    ensures Decode(0x8d) == Call(true, false, 4, false, true) && Decode(0x8e) == Call(true, false, 8, false, true)
    ensures Decode(0x97) == Call(false, false, 4, false, false) && Decode(0x98) == Call(false, false, 8, false, false)
    ensures Decode(0x99) == Call(false, false, 4, false, true) && Decode(0x9a) == Call(false, false, 8, false, true)
  {
  }

  // ---------------------------------------------------------------------
  // Nothing but links
  // ---------------------------------------------------------------------

  // The longword at x is one of a node's two links.
  ghost predicate Touches(w: int, nodes: seq<int>, x: int) {
    exists i | 0 <= i < |nodes| :: nodes[i] <= x < nodes[i] + 2 * w
  }

  /** Memory outside the nodes' links is as it was. */
  ghost predicate OnlyLinks(m: Memory, now: Memory, w: int, nodes: seq<int>) {
    forall x | x in m && !Touches(w, nodes, x) :: x in now && now[x] == m[x]
  }

  lemma PutOnly(m: Memory, now: Memory, w: int, nodes: seq<int>, va: int, v: int, n: int)
    requires (w == 4 || w == 8) && OnlyLinks(m, now, w, nodes) && n in nodes && (va == n || va == n + w)
    ensures OnlyLinks(m, Put(now, w, va, v), w, nodes)
  {
    var i :| 0 <= i < |nodes| && nodes[i] == n;
    forall x | x in m && !Touches(w, nodes, x)
      ensures x in Put(now, w, va, v) && Put(now, w, va, v)[x] == m[x]
    {
      assert !(nodes[i] <= x < nodes[i] + 2 * w);
    }
  }

  lemma LinkInOnly(m: Memory, w: int, self: bool, p: int, e: int, s: int, nodes: seq<int>)
    requires (w == 4 || w == 8) && p in nodes && e in nodes && s in nodes
    ensures OnlyLinks(m, LinkIn(m, w, self, p, e, s), w, nodes)
  {
    hide Put, OnlyLinks;
    NothingTouched(m, w, nodes);
    var a := Put(m, w, e, Code(self, e, s));
    PutOnly(m, m, w, nodes, e, Code(self, e, s), e);
    var b := Put(a, w, e + w, Code(self, e, p));
    PutOnly(m, a, w, nodes, e + w, Code(self, e, p), e);
    var c := Put(b, w, s + w, Code(self, s, e));
    PutOnly(m, b, w, nodes, s + w, Code(self, s, e), s);
    PutOnly(m, c, w, nodes, p, Code(self, p, e), p);
  }

  lemma LinkOutOnly(m: Memory, w: int, self: bool, p: int, s: int, nodes: seq<int>)
    requires (w == 4 || w == 8) && p in nodes && s in nodes
    ensures OnlyLinks(m, LinkOut(m, w, self, p, s), w, nodes)
  {
    hide Put, OnlyLinks;
    NothingTouched(m, w, nodes);
    PutOnly(m, m, w, nodes, p, Code(self, p, s), p);
    PutOnly(m, Put(m, w, p, Code(self, p, s)), w, nodes, s + w, Code(self, s, p), s);
  }

  lemma InsertedSelfOnly(m: Memory, w: int, tail: bool, h: int, e: int, n: int, nodes: seq<int>)
    requires (w == 4 || w == 8) && h in nodes && e in nodes && n in nodes
    ensures OnlyLinks(m, InsertedSelf(m, w, tail, h, e, n), w, nodes)
  {
    hide Put, OnlyLinks;
    NothingTouched(m, w, nodes);
    var m1 := Put(m, w, e, (if tail then h else n) - e);
    PutOnly(m, m, w, nodes, e, (if tail then h else n) - e, e);
    var m2 := Put(m1, w, e + w, (if tail then n else h) - e);
    PutOnly(m, m1, w, nodes, e + w, (if tail then n else h) - e, e);
    var m3 := Put(m2, w, if tail then n else n + w, e - n);
    PutOnly(m, m2, w, nodes, if tail then n else n + w, e - n, n);
    PutOnly(m, m3, w, nodes, if tail then h + w else h, e - h, h);
  }

  lemma RemovedSelfOnly(m: Memory, w: int, tail: bool, h: int, n: int, nodes: seq<int>)
    requires (w == 4 || w == 8) && h in nodes && n in nodes
    ensures OnlyLinks(m, RemovedSelf(m, w, tail, h, n), w, nodes)
  {
    hide Put, OnlyLinks;
    NothingTouched(m, w, nodes);
    PutOnly(m, m, w, nodes, if tail then h + w else h, n - h, h);
    PutOnly(m, Put(m, w, if tail then h + w else h, n - h), w, nodes, if tail then n else n + w, h - n, n);
  }

  lemma NothingTouched(m: Memory, w: int, nodes: seq<int>)
    ensures OnlyLinks(m, m, w, nodes)
  {
  }

  // The neighbours of a node are nodes.
  lemma Neighbours(nodes: seq<int>, k: int, e: int)
    requires 0 <= k < |nodes|
    ensures Next(nodes, k) in nodes && Previous(nodes, k) in nodes && nodes[k] in nodes
    ensures var ins := Inserted(nodes, k, e); e in ins && forall x <- nodes :: x in ins
  {
    var ins := Inserted(nodes, k, e);
    assert ins[k + 1] == e;
    forall x | x in nodes
      ensures x in ins
    {
      var i :| 0 <= i < |nodes| && nodes[i] == x;
      assert ins[if i <= k then i else i + 1] == x;
    }
  }

  lemma EntriesHave(h: int, tail: bool, es: seq<int>, e: int)
    ensures var now := [h] + Entries(tail, es, e); h in now && e in now && forall x <- [h] + es :: x in now
  {
  }

  lemma InsertedSelfWhole(m: Memory, pages: set<int>, w: int, tail: bool, h: int, e: int, es: seq<int>)
    requires Usable(m, pages, w, true, [h] + es) && Room(m, pages, w, true, [h] + es, e) && (w == 4 || w == 8)
    ensures var nodes := [h] + es;
      var n := if tail then Previous(nodes, 0) else Next(nodes, 0);
      var now := InsertedSelf(m, w, tail, h, e, n);
      Ring(now, w, true, [h] + Entries(tail, es, e)) && OnlyLinks(m, now, w, [h] + Entries(tail, es, e))
  {
    hide Usable, Room, Ring, InsertedSelf, Entries, OnlyLinks;
    InsertedSelfRing(m, pages, w, tail, h, e, es);
    Neighbours([h] + es, 0, e);
    EntriesHave(h, tail, es, e);
    var n := if tail then Previous([h] + es, 0) else Next([h] + es, 0);
    InsertedSelfOnly(m, w, tail, h, e, n, [h] + Entries(tail, es, e));
  }

  lemma RemovedSelfWhole(m: Memory, w: int, tail: bool, h: int, es: seq<int>)
    requires Ring(m, w, true, [h] + es) && es != [] && (w == 4 || w == 8)
    ensures var nodes := [h] + es;
      var k := if tail then |es| else 1;
      var n := if tail then Previous(nodes, k) else Next(nodes, k);
      var now := RemovedSelf(m, w, tail, h, n);
      Ring(now, w, true, [h] + Left(tail, es)) && OnlyLinks(m, now, w, nodes)
  {
    hide Ring, RemovedSelf, Left, OnlyLinks;
    var nodes := [h] + es;
    RemovedSelfRing(m, w, tail, h, es);
    var k := if tail then |es| else 1;
    Neighbours(nodes, k, h);
    assert nodes[0] == h;
    RemovedSelfOnly(m, w, tail, h, if tail then Previous(nodes, k) else Next(nodes, k), nodes);
  }

  class QueueMemory {
    // The executive's memory, and the pages the current mode may write.
    var mem: Memory
    const pages: set<int>

    ghost predicate Valid()
      reads this
    {
      forall va | va % 4 == 0 && Writable(pages, va) :: va in mem
    }

    // A link of w bytes may be used there.
    predicate Accessible(va: int, w: int) {
      Aligned(va, w) && Writable(pages, va)
    }

    function Refusal(va: int, w: int): Outcome {
      if !Aligned(va, w) then Roprand else Accvio(va)
    }

    lemma LinkBacked(va: int, w: int)
      requires Valid() && (w == 4 || w == 8) && Accessible(va, w)
      ensures Backed(mem, w, va)
    {
      assert va % 4 == 0;
      if w == 8 {
        SamePage(va);
      }
    }

    // A store of w bytes at a link.
    method Store(va: int, w: int, v: int)
      requires Valid()
      modifies this`mem
      ensures Valid() && mem == Put(old(mem), w, va, v)
    {
      hide Writable;
      mem := Put(mem, w, va, v);
    }

    /** INSQHI and INSQTI: e goes in front of the entries es of the queue at
        h, or, with tail, behind them. */
    method InsertSelf(w: int, tail: bool, h: int, e: int, ghost es: seq<int>) returns (out: Outcome)
      requires Valid() && (w == 4 || w == 8) && 0 <= h < WORD && 0 <= e < WORD
      modifies this`mem
      ensures Valid() && (!out.Done? ==> mem == old(mem))
      ensures out.Accvio? ==> !Writable(pages, out.va)
      ensures !Aligned(h, 2 * w) || !Aligned(e, 2 * w) ==> out == Roprand
      ensures Aligned(h, 2 * w) && Aligned(e, 2 * w) && !(Accessible(h, w) && Accessible(h + w, w)) ==>
        out == if Accessible(h, w) then Refusal(h + w, w) else Refusal(h, w)
      ensures Aligned(h, 2 * w) && Aligned(e, 2 * w) && Accessible(h, w) && Accessible(h + w, w)
              && Backed(old(mem), w, h) && Get(old(mem), w, h) % 2 == 1
              ==> out == Done(-1, e) && mem == old(mem)
      ensures Usable(old(mem), pages, w, true, [h] + es) && Room(old(mem), pages, w, true, [h] + es, e)
              ==> && out == Done(if es == [] then 1 else 0, e) && Ring(mem, w, true, [h] + Entries(tail, es, e))
                  && OnlyLinks(old(mem), mem, w, [h] + Entries(tail, es, e))
    {
      hide Usable, Room, Ring, Aligned, Writable, Put, Get, OnlyLinks, Entries, InsertedSelf;
      ghost var nodes, m := [h] + es, mem;
      ghost var usable := Usable(m, pages, w, true, nodes) && Room(m, pages, w, true, nodes, e);
      if usable {
        SelfFacts(m, pages, w, nodes, tail);
        RoomFacts(m, pages, w, true, nodes, e);
        InsertedSelfWhole(m, pages, w, tail, h, e, es);
      }
      if !Aligned(h, 2 * w) || !Aligned(e, 2 * w) {
        return Roprand;
      }
      if !Accessible(h, w) {
        return Refusal(h, w);
      }
      if !Accessible(h + w, w) {
        return Refusal(h + w, w);
      }
      LinkBacked(h, w);
      LinkBacked(h + w, w);
      var f, b := Get(mem, w, h), Get(mem, w, h + w);
      if f % 2 == 1 {
        return Done(-1, e);
      }
      if !Aligned(f, 2 * w) || !Aligned(b, 2 * w) {
        return Roprand;
      }
      var n := (h + if tail then b else f) % WORD;
      if !Accessible(e, w) {
        return Refusal(e, w);
      }
      if !Accessible(e + w, w) {
        return Refusal(e + w, w);
      }
      var x := if tail then n else n + w;
      if !Accessible(x, w) {
        return Refusal(x, w);
      }
      LinkSelf(w, tail, h, e, n);
      return Done(if f == 0 then 1 else 0, e);
    }

    // The four stores of an insertion.
    method LinkSelf(w: int, tail: bool, h: int, e: int, n: int)
      requires Valid()
      modifies this`mem
      ensures Valid() && mem == InsertedSelf(old(mem), w, tail, h, e, n)
    {
      hide Put, Writable;
      Store(e, w, (if tail then h else n) - e);
      Store(e + w, w, (if tail then n else h) - e);
      Store(if tail then n else n + w, w, e - n);
      Store(if tail then h + w else h, w, e - h);
    }

    /** REMQHI and REMQTI: takes the first of the entries es, or, with tail,
        the last. */
    method RemoveSelf(w: int, tail: bool, h: int, r1: int, ghost es: seq<int>) returns (out: Outcome)
      requires Valid() && (w == 4 || w == 8) && 0 <= h < WORD
      modifies this`mem
      ensures Valid() && (!out.Done? ==> mem == old(mem))
      ensures out.Accvio? ==> !Writable(pages, out.va)
      ensures !Aligned(h, 2 * w) ==> out == Roprand
      ensures Aligned(h, 2 * w) && !(Accessible(h, w) && Accessible(h + w, w)) ==>
        out == if Accessible(h, w) then Refusal(h + w, w) else Refusal(h, w)
      ensures Aligned(h, 2 * w) && Accessible(h, w) && Accessible(h + w, w)
              && Backed(old(mem), w, h) && Get(old(mem), w, h) % 2 == 1
              ==> out == Done(-1, r1) && mem == old(mem)
      ensures Usable(old(mem), pages, w, true, [h] + es) && es == [] ==> out == Done(0, h) && mem == old(mem)
      ensures Usable(old(mem), pages, w, true, [h] + es) && es != []
              ==> && out == Done(if |es| == 1 then 2 else 1, Taken(tail, es))
                  && Ring(mem, w, true, [h] + Left(tail, es))
                  && OnlyLinks(old(mem), mem, w, [h] + es)
    {
      hide Usable, Ring, Aligned, Writable, Put, Get, Left, OnlyLinks;
      ghost var nodes, m := [h] + es, mem;
      if Usable(m, pages, w, true, nodes) {
        SelfFacts(m, pages, w, nodes, tail);
        if es != [] {
          UsableRing(m, pages, w, true, nodes);
          TakenFacts(m, pages, w, h, es, tail);
          RemovedSelfWhole(m, w, tail, h, es);
        }
      }
      if !Aligned(h, 2 * w) {
        return Roprand;
      }
      if !Accessible(h, w) {
        return Refusal(h, w);
      }
      if !Accessible(h + w, w) {
        return Refusal(h + w, w);
      }
      LinkBacked(h, w);
      LinkBacked(h + w, w);
      var f, b := Get(mem, w, h), Get(mem, w, h + w);
      if f % 2 == 1 {
        return Done(-1, r1);
      }
      if !Aligned(f, 2 * w) || !Aligned(b, 2 * w) {
        return Roprand;
      }
      if f == 0 {
        return Done(0, h);
      }
      var e := (h + if tail then b else f) % WORD;
      var l := if tail then e + w else e;
      if !Accessible(l, w) {
        return Refusal(l, w);
      }
      LinkBacked(l, w);
      var n := (e + Get(mem, w, l)) % WORD;
      if !Aligned(n, 2 * w) {
        return Roprand;
      }
      var x := if tail then n else n + w;
      if !Accessible(x, w) {
        return Refusal(x, w);
      }
      Store(if tail then h + w else h, w, n - h);
      Store(x, w, h - n);
      return Done(if n == h then 2 else 1, e);
    }

    // A deferred form's address, the one at a0, or a0 itself.
    method Deferred(w: int, deferred: bool, a0: int) returns (a: int, out: Outcome)
      requires Valid() && (w == 4 || w == 8)
      ensures deferred && Aligned(a0, w) && Writable(pages, a0) ==>
                out.Done? && Backed(mem, w, a0) && a == Get(mem, w, a0) % WORD
      ensures !deferred ==> out.Done? && a == a0
      ensures out.Accvio? ==> !Writable(pages, out.va)
      ensures deferred && !Accessible(a0, w) ==> out == Refusal(a0, w)
    {
      if !deferred {
        return a0, Done(0, 0);
      }
      if !Accessible(a0, w) {
        return a0, Refusal(a0, w);
      }
      LinkBacked(a0, w);
      return Get(mem, w, a0) % WORD, Done(0, 0);
    }

    // Where a call finds the address it is given: there, or at it.
    ghost predicate Names(w: int, deferred: bool, a0: int, a: int)
      reads this
    {
      if deferred then Aligned(a0, w) && Writable(pages, a0) && Backed(mem, w, a0) && Get(mem, w, a0) % WORD == a
      else a0 == a
    }

    /** INSQUE: e goes after the k-th node of the ring, which a0 names. */
    method InsertAfter(w: int, deferred: bool, a0: int, e: int, ghost nodes: seq<int>, ghost k: int)
      returns (out: Outcome)
      requires Valid() && (w == 4 || w == 8)
      modifies this`mem
      ensures Valid() && (!out.Done? ==> mem == old(mem))
      ensures out.Accvio? ==> !Writable(pages, out.va)
      ensures !Accessible(a0, w) ==> out == Refusal(a0, w)
      ensures Usable(old(mem), pages, w, false, nodes) && Room(old(mem), pages, w, false, nodes, e)
              && 0 <= k < |nodes| && old(Names(w, deferred, a0, nodes[k]))
              ==> && out == Done(if |nodes| == 1 then 1 else 0, e) && Ring(mem, w, false, Inserted(nodes, k, e))
                  && OnlyLinks(old(mem), mem, w, Inserted(nodes, k, e))
    {
      hide Usable, Room, Ring, Aligned, Writable, Put, Get, Inserted, OnlyLinks;
      ghost var m := mem;
      if Usable(m, pages, w, false, nodes) && Room(m, pages, w, false, nodes, e) && 0 <= k < |nodes| {
        AbsoluteFacts(m, pages, w, nodes, k);
        RoomFacts(m, pages, w, false, nodes, e);
        UsableRing(m, pages, w, false, nodes);
        RoomClear(m, pages, w, false, nodes, e);
        RingInsert(m, w, false, nodes, k, e);
        Neighbours(nodes, k, e);
        LinkInOnly(m, w, false, nodes[k], e, Next(nodes, k), Inserted(nodes, k, e));
      }
      var p, found := Deferred(w, deferred, a0);
      if !found.Done? {
        return found;
      }
      if !Accessible(p, w) {
        return Refusal(p, w);
      }
      if !Accessible(e, w) {
        return Refusal(e, w);
      }
      if !Accessible(e + w, w) {
        return Refusal(e + w, w);
      }
      LinkBacked(p, w);
      var s := Get(mem, w, p) % WORD;
      if !Accessible(s + w, w) {
        return Refusal(s + w, w);
      }
      Store(e, w, s);
      Store(e + w, w, p);
      Store(s + w, w, e);
      Store(p, w, e);
      return Done(if s == p then 1 else 0, e);
    }

    /** REMQUE: takes the k-th node, which a0 names, out of the ring. */
    method RemoveEntry(w: int, deferred: bool, a0: int, ghost nodes: seq<int>, ghost k: int) returns (out: Outcome)
      requires Valid() && (w == 4 || w == 8)
      modifies this`mem
      ensures Valid() && (!out.Done? ==> mem == old(mem))
      ensures out.Accvio? ==> !Writable(pages, out.va)
      ensures !Accessible(a0, w) ==> out == Refusal(a0, w)
      ensures Usable(old(mem), pages, w, false, nodes) && 0 <= k < |nodes| && old(Names(w, deferred, a0, nodes[k]))
              ==> if |nodes| == 1 then out == Done(-1, nodes[k]) && mem == old(mem)
                  else
                    && out == Done(if |nodes| == 2 then 0 else 1, nodes[k]) && Ring(mem, w, false, Removed(nodes, k))
                    && OnlyLinks(old(mem), mem, w, nodes)
    {
      hide Usable, Ring, Aligned, Writable, Put, Get, Removed, OnlyLinks;
      ghost var m := mem;
      if Usable(m, pages, w, false, nodes) && 0 <= k < |nodes| {
        AbsoluteFacts(m, pages, w, nodes, k);
        UsableRing(m, pages, w, false, nodes);
        Neighbours(nodes, k, 0);
        LinkOutOnly(m, w, false, Previous(nodes, k), Next(nodes, k), nodes);
        if |nodes| > 1 { RingRemove(m, w, false, nodes, k); }
      }
      var e, found := Deferred(w, deferred, a0);
      if !found.Done? {
        return found;
      }
      if !Accessible(e, w) {
        return Refusal(e, w);
      }
      if !Accessible(e + w, w) {
        return Refusal(e + w, w);
      }
      LinkBacked(e, w);
      LinkBacked(e + w, w);
      var s, p := Get(mem, w, e) % WORD, Get(mem, w, e + w) % WORD;
      if p == e {
        return Done(-1, e);
      }
      if !Accessible(p, w) {
        return Refusal(p, w);
      }
      if !Accessible(s + w, w) {
        return Refusal(s + w, w);
      }
      Store(p, w, s);
      Store(s + w, w, p);
      return Done(if s != p then 1 else 0, e);
    }

    /** A queue call by its PAL function code.  The ghost arguments say which
        queue it is for: the entries es of a self-relative one at a0, or the
        nodes of an absolute one, whose k-th a0 names. */
    method Queue(code: int, a0: int, a1: int, ghost es: seq<int>, ghost nodes: seq<int>, ghost k: int)
      returns (out: Outcome)
      requires Valid() && IsQueueCall(code) && 0 <= a0 < WORD && 0 <= a1 < WORD
      modifies this`mem
      ensures Valid() && (!out.Done? ==> mem == old(mem))
      ensures out.Accvio? ==> !Writable(pages, out.va)
      ensures Decode(code).self && Decode(code).ins && Usable(old(mem), pages, Decode(code).w, true, [a0] + es)
              && Room(old(mem), pages, Decode(code).w, true, [a0] + es, a1)
              ==> && out == Done(if es == [] then 1 else 0, a1)
                  && Ring(mem, Decode(code).w, true, [a0] + Entries(Decode(code).tail, es, a1))
                  && OnlyLinks(old(mem), mem, Decode(code).w, [a0] + Entries(Decode(code).tail, es, a1))
      ensures Decode(code).self && !Decode(code).ins && Usable(old(mem), pages, Decode(code).w, true, [a0] + es)
              ==> if es == [] then out == Done(0, a0) && mem == old(mem)
                  else
                    && out == Done(if |es| == 1 then 2 else 1, Taken(Decode(code).tail, es))
                    && Ring(mem, Decode(code).w, true, [a0] + Left(Decode(code).tail, es))
                    && OnlyLinks(old(mem), mem, Decode(code).w, [a0] + es)
      ensures !Decode(code).self && Decode(code).ins && Usable(old(mem), pages, Decode(code).w, false, nodes)
              && Room(old(mem), pages, Decode(code).w, false, nodes, a1)
              && 0 <= k < |nodes| && old(Names(Decode(code).w, Decode(code).deferred, a0, nodes[k]))
              ==> && out == Done(if |nodes| == 1 then 1 else 0, a1)
                  && Ring(mem, Decode(code).w, false, Inserted(nodes, k, a1))
                  && OnlyLinks(old(mem), mem, Decode(code).w, Inserted(nodes, k, a1))
      ensures !Decode(code).self && !Decode(code).ins && Usable(old(mem), pages, Decode(code).w, false, nodes)
              && 0 <= k < |nodes| && old(Names(Decode(code).w, Decode(code).deferred, a0, nodes[k]))
              ==> if |nodes| == 1 then out == Done(-1, nodes[k]) && mem == old(mem)
                  else
                    && out == Done(if |nodes| == 2 then 0 else 1, nodes[k])
                    && Ring(mem, Decode(code).w, false, Removed(nodes, k))
                    && OnlyLinks(old(mem), mem, Decode(code).w, nodes)
    {
      hide OnlyLinks, Usable, Room, Ring, Inserted, Removed, Left, Entries, Taken, Aligned, Writable, Get, Put;
      var c := Decode(code);
      if c.self && c.ins {
        out := InsertSelf(c.w, c.tail, a0, a1, es);
      } else if c.self {
        out := RemoveSelf(c.w, c.tail, a0, a1, es);
      } else if c.ins {
        out := InsertAfter(c.w, c.deferred, a0, a1, nodes, k);
      } else {
        out := RemoveEntry(c.w, c.deferred, a0, nodes, k);
      }
    }
  }

  lemma UsableRing(m: Memory, pages: set<int>, w: int, self: bool, nodes: seq<int>)
    requires Usable(m, pages, w, self, nodes)
    ensures Ring(m, w, self, nodes)
  {
  }

  lemma RoomClear(m: Memory, pages: set<int>, w: int, self: bool, nodes: seq<int>, e: int)
    requires Room(m, pages, w, self, nodes, e)
    ensures Clear(m, w, self, nodes, e)
  {
  }

  lemma SamePage(va: int)
    requires Aligned(va, 8)
    ensures (va + 4) / PAGE == va / PAGE && (va + 4) % 4 == 0
  {
    var k := va / 8;
    AlignedQuotient(va, 8);
    hide Aligned;
    AlignedMultiple(2 * k + 1, 4);
    var q, r := k / 512, k % 512;
    assert va == q * PAGE + 8 * r;
    DivModUnique(va, q, 8 * r, PAGE);
    DivModUnique(va + 4, q, 8 * r + 4, PAGE);
  }

  // What a self-relative call reads at a usable header, and finds there.
  lemma SelfFacts(m: Memory, pages: set<int>, w: int, nodes: seq<int>, tail: bool)
    requires Usable(m, pages, w, true, nodes)
    ensures (w == 4 || w == 8) && Aligned(nodes[0], 2 * w) && Aligned(nodes[0], w) && Aligned(nodes[0] + w, w)
    ensures Writable(pages, nodes[0]) && Writable(pages, nodes[0] + w)
    ensures Backed(m, w, nodes[0]) && Backed(m, w, nodes[0] + w)
    ensures var h, f, b := nodes[0], Get(m, w, nodes[0]), Get(m, w, nodes[0] + w);
      && f % 2 == 0 && Aligned(f, 2 * w) && Aligned(b, 2 * w) && (f == 0 <==> |nodes| == 1)
      && var n := if tail then Previous(nodes, 0) else Next(nodes, 0);
      && (h + if tail then b else f) % WORD == n
      && Writable(pages, n) && Writable(pages, n + w) && Aligned(n, w) && Aligned(n + w, w)
  {
    hide Get, Aligned, Apart, Ring;
    var last := |nodes| - 1;
    assert |nodes| > 0 by { NonEmpty(m, w, true, nodes); }
    var first := if |nodes| == 1 then 0 else 1;
    NodeFacts(m, pages, w, true, nodes, 0);
    NodeFacts(m, pages, w, true, nodes, last);
    NodeFacts(m, pages, w, true, nodes, first);
    DistancesAligned(w, nodes[0], nodes[first]);
    DistancesAligned(w, nodes[0], nodes[last]);
    DistinctRing(m, w, true, nodes, 0, first);
  }

  lemma NonEmpty(m: Memory, w: int, self: bool, nodes: seq<int>)
    requires Ring(m, w, self, nodes)
    ensures |nodes| > 0
  {
  }

  lemma DistinctRing(m: Memory, w: int, self: bool, nodes: seq<int>, i: int, j: int)
    requires Ring(m, w, self, nodes) && 0 <= i < |nodes| && 0 <= j < |nodes|
    ensures nodes[i] == nodes[j] <==> i == j
  {
  }
}
