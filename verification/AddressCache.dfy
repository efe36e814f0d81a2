/** The PAL's address spaces: for each context and access mode, the pages seL4
    has mapped, which may lag behind the PTEs by being too few but never by being
    wrong.  A mapped page has a record, on the list of its PFN and on the list of
    its context.  WRPTE, faults, evictions and context deletion are proved to
    keep every mapping in step with the PTE it came from. */
module AddressCache {
  import opened Lists
  import Numbers
  import opened Ptes

  const PAGE := 4096
  const P0_END := 0x4000_0000
  const S0_END := 0x6000_0000
  const SPACE_END := 0x8000_0000
  const TABLE := 0x20_0000
  const RECORDS := 73 // records in a page
  const SLACK := 0x10_0000

  predicate IsS0(va: int) {
    P0_END <= va < S0_END
  }

  // ---------------------------------------------------------------------
  // Records
  // ---------------------------------------------------------------------

  /** A page mapped for mode m of context c. */
  datatype Entry = Entry(c: int, m: int, va: int, pfn: int, write: bool, exec: bool)

  /** The records, as C keeps them, and what they stand for: the pages mapped,
      the lists as sequences and the free records. */
  datatype Records = Records(
    links: Links, clinks: Links, free: Option<int>,
    key: map<int, int>, owner: map<int, int>, cap: map<int, int>, slots: set<int>, nextSlot: int, made: int,
    cached: map<int, Entry>, pfns: map<int, seq<int>>, ctxs: map<int, seq<int>>, freeIds: seq<int>)

  ghost predicate FreeChain(next: map<int, Option<int>>, free: Option<int>, ids: seq<int>) {
    && free == Lists.Entry(ids, 0)
    && (forall i | 0 <= i < |ids| :: ids[i] in next && next[ids[i]] == Lists.Entry(ids, i + 1))
    && NoRepeats(ids)
  }

  // The lists hold the mapped pages' records, each on its PFN's and its
  // context's.
  ghost predicate Listed(r: Records) {
    && Forest(r.links, r.pfns) && Forest(r.clinks, r.ctxs)
    && (forall id <- r.cached :: id in ListOf(r.pfns, r.cached[id].pfn) && id in ListOf(r.ctxs, r.cached[id].c))
    && (forall k, id | id in ListOf(r.pfns, k) :: id in r.cached && r.cached[id].pfn == k)
    && (forall k, id | id in ListOf(r.ctxs, k) :: id in r.cached && r.cached[id].c == k)
  }

  // A free record is on no list; its slot is empty.  Every other slot a
  // record has holds its mapping's capability.
  ghost predicate Slotted(r: Records) {
    && (forall id | id in r.cached || id in r.freeIds :: 0 <= id < r.made && id in r.cap)
    && (forall id | 0 <= id < r.made :: id in r.cached || id in r.freeIds)
    && (forall id <- r.cached :: id !in r.freeIds && r.cap[id] in r.slots)
    && (forall id <- r.freeIds :: r.cap[id] == 0 || r.cap[id] !in r.slots)
    && (forall a, b | a in r.cap && b in r.cap && a != b && r.cap[a] != 0 :: r.cap[a] != r.cap[b])
    && (forall id <- r.cap :: 0 <= r.cap[id] < r.nextSlot && 0 <= id < r.made)
    && (forall s <- r.slots :: 0 < s < r.nextSlot) && r.nextSlot > 0 && r.made >= 0
  }

  ghost predicate Recorded(r: Records) {
    forall id <- r.cached ::
      && id in r.key && r.key[id] == r.cached[id].va + r.cached[id].m
      && id in r.owner && r.owner[id] == r.cached[id].c
      && r.cached[id].va % PAGE == 0 && 0 <= r.cached[id].m < 4
  }

  ghost predicate Sound(r: Records) {
    Listed(r) && Slotted(r) && Recorded(r) && FreeChain(r.links.next, r.free, r.freeIds)
  }

  // A record that is on none of the lists can change without them.
  lemma ForestKeeps(l: Links, l': Links, lists: map<int, seq<int>>, p: int)
    requires Forest(l, lists) && Unlisted(lists, p)
    requires l'.head == l.head
    requires l'.next == l.next[p := l'.At(NextOf(p))] && l'.prev == l.prev
    ensures Forest(l', lists)
  {
    forall key
      ensures Chain(l', key, ListOf(lists, key))
    {
      var ids := ListOf(lists, key);
      assert Chain(l, key, ids) && p !in ids;
      forall i | 0 <= i < |ids|
        ensures SameRecord(l, l', ids[i])
      {
        RecordOf(l, key, ids, i);
      }
      SameChain(l, l', key, ids);
    }
  }

  function IndexOf(ids: seq<int>, p: int): (i: int)
    requires p in ids
    ensures 0 <= i < |ids| && ids[i] == p
  {
    if ids[0] == p then 0 else 1 + IndexOf(ids[1..], p)
  }

  function Dropped(lists: map<int, seq<int>>, k: int, p: int): map<int, seq<int>>
    requires p in ListOf(lists, k)
  {
    lists[k := Without(ListOf(lists, k), IndexOf(ListOf(lists, k), p))]
  }

  lemma DroppedMembers(lists: map<int, seq<int>>, k: int, p: int)
    requires Separate(lists) && p in ListOf(lists, k)
    ensures forall j, x :: x in ListOf(Dropped(lists, k, p), j) <==> x in ListOf(lists, j) && x != p
    ensures Unlisted(Dropped(lists, k, p), p)
  {
    var ids, i := ListOf(lists, k), IndexOf(ListOf(lists, k), p);
    var left, after := Without(ids, i), Dropped(lists, k, p);
    forall j, x
      ensures x in ListOf(after, j) <==> x in ListOf(lists, j) && x != p
    {
      if j == k {
        if x in left {
          var b :| 0 <= b < |left| && left[b] == x;
          assert ids[if b < i then b else b + 1] == x;
        }
        if x in ids && x != p {
          var b :| 0 <= b < |ids| && ids[b] == x;
          assert left[if b < i then b else b - 1] == x;
        }
      }
    }
  }

  /** uncache_one: the record leaves both lists and its slot empties. */
  ghost function Uncached(r: Records, p: int): Records
    requires Listed(r) && Slotted(r) && p in r.cached
  {
    RecordLinks(r, p);
    var cut := Unlink(r.links, p);
    r.(links := cut.(next := cut.next[p := r.free]), clinks := Unlink(r.clinks, p), free := Some(p),
       slots := r.slots - {r.cap[p]}, cached := r.cached - {p},
       pfns := Dropped(r.pfns, r.cached[p].pfn, p), ctxs := Dropped(r.ctxs, r.cached[p].c, p),
       freeIds := [p] + r.freeIds)
  }

  lemma RecordLinks(r: Records, p: int)
    requires Listed(r) && p in r.cached
    ensures p in r.links.next && p in r.links.prev && p in r.clinks.next && p in r.clinks.prev
  {
    var e := r.cached[p];
    RecordOf(r.links, e.pfn, ListOf(r.pfns, e.pfn), IndexOf(ListOf(r.pfns, e.pfn), p));
    RecordOf(r.clinks, e.c, ListOf(r.ctxs, e.c), IndexOf(ListOf(r.ctxs, e.c), p));
  }

  lemma UncachedListed(r: Records, p: int)
    requires Listed(r) && Slotted(r) && p in r.cached
    ensures Listed(Uncached(r, p))
  {
    hide Forest, Unlink, Separate, Without;
    var e, t := r.cached[p], Uncached(r, p);
    RecordLinks(r, p);
    ForestSeparate(r.links, r.pfns);
    ForestSeparate(r.clinks, r.ctxs);
    UnlinkRefines(r.links, r.pfns, e.pfn, IndexOf(ListOf(r.pfns, e.pfn), p));
    UnlinkRefines(r.clinks, r.ctxs, e.c, IndexOf(ListOf(r.ctxs, e.c), p));
    DroppedMembers(r.pfns, e.pfn, p);
    DroppedMembers(r.ctxs, e.c, p);
    UnlinkKeepsNext(r.links, p);
    ForestKeeps(Unlink(r.links, p), t.links, t.pfns, p);
  }

  lemma ForestSeparate(l: Links, lists: map<int, seq<int>>)
    requires Forest(l, lists)
    ensures Separate(lists)
  {
  }

  lemma UnlinkKeepsNext(l: Links, p: int)
    requires p in l.next && p in l.prev
    ensures p in Unlink(l, p).next
  {
  }

  lemma UncachedSlotted(r: Records, p: int)
    requires Listed(r) && Slotted(r) && p in r.cached
    ensures Slotted(Uncached(r, p))
  {
    hide Listed;
    var t := Uncached(r, p);
    assert forall id :: id in t.freeIds <==> id == p || id in r.freeIds;
  }

  lemma UncachedFree(r: Records, p: int)
    requires Listed(r) && Slotted(r) && FreeChain(r.links.next, r.free, r.freeIds) && p in r.cached
    ensures var t := Uncached(r, p); FreeChain(t.links.next, t.free, t.freeIds)
  {
    RecordLinks(r, p);
    hide Listed;
    var t, ids := Uncached(r, p), [p] + r.freeIds;
    forall i | 0 <= i < |ids|
      ensures ids[i] in t.links.next && t.links.next[ids[i]] == Lists.Entry(ids, i + 1)
    {
      if i > 0 {
        var x := r.freeIds[i - 1];
        assert x in r.freeIds;
        UnlinkOnlyBefore(r, p, x);
      }
    }
  }

  // Unlinking p changes no free record's next.
  lemma UnlinkOnlyBefore(r: Records, p: int, x: int)
    requires Listed(r) && Slotted(r) && p in r.cached && x in r.freeIds && x in r.links.next
    ensures p in r.links.next && p in r.links.prev
    ensures x in Unlink(r.links, p).next && Unlink(r.links, p).next[x] == r.links.next[x]
  {
    var e := r.cached[p];
    var ids := ListOf(r.pfns, e.pfn);
    var i := IndexOf(ids, p);
    RecordOf(r.links, e.pfn, ids, i);
    if i > 0 {
      assert ids[i - 1] in ids;
    }
  }

  lemma UncachedSound(r: Records, p: int)
    requires Sound(r) && p in r.cached
    ensures Sound(Uncached(r, p))
  {
    hide Listed, Slotted, FreeChain;
    UncachedListed(r, p);
    UncachedSlotted(r, p);
    UncachedFree(r, p);
  }

  // ---------------------------------------------------------------------
  // A new mapping
  // ---------------------------------------------------------------------

  // The first free record, and the slot it keeps or is given.
  ghost function Taken(r: Records): Records
    requires r.freeIds != [] && r.freeIds[0] in r.links.next && r.freeIds[0] in r.cap
  {
    var p := r.freeIds[0];
    var slot := if r.cap[p] != 0 then r.cap[p] else r.nextSlot;
    r.(free := r.links.next[p], cap := r.cap[p := slot], slots := r.slots + {slot},
       nextSlot := if r.cap[p] != 0 then r.nextSlot else r.nextSlot + 1, freeIds := r.freeIds[1..])
  }

  function Pushed(lists: map<int, seq<int>>, k: int, p: int): map<int, seq<int>> {
    lists[k := [p] + ListOf(lists, k)]
  }

  ghost function Entered(r: Records, p: int, k: int, e: Entry): Records {
    r.(links := PushFront(r.links, e.pfn, p), clinks := PushFront(r.clinks, e.c, p),
       key := r.key[p := k], owner := r.owner[p := e.c], cached := r.cached[p := e],
       pfns := Pushed(r.pfns, e.pfn, p), ctxs := Pushed(r.ctxs, e.c, p))
  }

  /** cache: the first free record takes the mapping, at the head of its
      PFN's list and its context's. */
  ghost function Cached(r: Records, e: Entry): Records
    requires r.freeIds != [] && r.freeIds[0] in r.links.next && r.freeIds[0] in r.cap
  {
    Entered(Taken(r), r.freeIds[0], e.va + e.m, e)
  }

  lemma CachedIs(r: Records, e: Entry)
    requires r.freeIds != [] && r.freeIds[0] in r.links.next && r.freeIds[0] in r.cap
    ensures Cached(r, e) == Entered(Taken(r), r.freeIds[0], e.va + e.m, e)
    ensures Cached(r, e).cached == r.cached[r.freeIds[0] := e]
  {
  }

  lemma FreeUnlisted(r: Records, p: int)
    requires Listed(r) && Slotted(r) && p in r.freeIds
    ensures p !in r.cached && Unlisted(r.pfns, p) && Unlisted(r.ctxs, p)
  {
  }

  lemma PushedMembers(lists: map<int, seq<int>>, k: int, p: int)
    ensures forall j, x :: x in ListOf(Pushed(lists, k, p), j) <==> x in ListOf(lists, j) || (j == k && x == p)
  {
  }

  lemma TailMembers(ids: seq<int>)
    requires NoRepeats(ids) && ids != []
    ensures forall x :: x in ids[1..] <==> x in ids && x != ids[0]
  {
    forall x
      ensures x in ids[1..] <==> x in ids && x != ids[0]
    {
      if x in ids[1..] {
        var i :| 0 <= i < |ids| - 1 && ids[1..][i] == x;
        assert ids[i + 1] == x;
      }
      if x in ids && x != ids[0] {
        var i :| 0 <= i < |ids| && ids[i] == x;
        assert ids[1..][i - 1] == x;
      }
    }
  }

  // The record that a new mapping takes.
  lemma FirstFree(r: Records)
    requires Slotted(r) && FreeChain(r.links.next, r.free, r.freeIds) && r.freeIds != []
    ensures var p := r.freeIds[0]; p in r.freeIds && p in r.links.next && p in r.cap && p !in r.cached
  {
    assert r.freeIds[0] in r.freeIds;
  }

  lemma CachedListed(r: Records, e: Entry)
    requires Listed(r) && Slotted(r) && FreeChain(r.links.next, r.free, r.freeIds) && r.freeIds != []
    ensures r.freeIds[0] in r.links.next && r.freeIds[0] in r.cap && Listed(Cached(r, e))
  {
    hide Forest, PushFront, Slotted, FreeChain, ListOf;
    FirstFree(r);
    var p := r.freeIds[0];
    FreeUnlisted(r, p);
    var t := Cached(r, e);
    PushRefines(r.links, r.pfns, e.pfn, p);
    PushRefines(r.clinks, r.ctxs, e.c, p);
    PushedMembers(r.pfns, e.pfn, p);
    PushedMembers(r.ctxs, e.c, p);
    forall k, id | id in ListOf(t.pfns, k)
      ensures id in t.cached && t.cached[id].pfn == k
    {
      assert p !in ListOf(r.pfns, k);
      if id in ListOf(r.pfns, k) { assert id in r.cached && r.cached[id].pfn == k; }
    }
    forall k, id | id in ListOf(t.ctxs, k)
      ensures id in t.cached && t.cached[id].c == k
    {
      assert p !in ListOf(r.ctxs, k);
      if id in ListOf(r.ctxs, k) { assert id in r.cached && r.cached[id].c == k; }
    }
  }

  lemma CachedSlotted(r: Records, e: Entry)
    requires Slotted(r) && FreeChain(r.links.next, r.free, r.freeIds) && r.freeIds != []
    ensures r.freeIds[0] in r.links.next && r.freeIds[0] in r.cap && Slotted(Cached(r, e))
  {
    hide FreeChain, PushFront;
    FirstFree(r);
    FreeOnce(r);
    TailMembers(r.freeIds);
  }

  lemma FreeOnce(r: Records)
    requires FreeChain(r.links.next, r.free, r.freeIds)
    ensures NoRepeats(r.freeIds)
  {
  }

  // The free records but the first, which alone changes.
  lemma FreeTail(next: map<int, Option<int>>, next': map<int, Option<int>>, free: Option<int>, ids: seq<int>)
    requires FreeChain(next, free, ids) && ids != []
    requires forall x <- next | x != ids[0] :: x in next' && next'[x] == next[x]
    ensures ids[0] in next && FreeChain(next', next[ids[0]], ids[1..])
  {
    forall i | 0 <= i < |ids| - 1
      ensures ids[1..][i] in next' && next'[ids[1..][i]] == Lists.Entry(ids[1..], i + 1)
    {
      assert ids[1..][i] == ids[i + 1] != ids[0];
    }
  }

  lemma PushOnlyNext(l: Links, k: int, p: int)
    ensures forall x <- l.next | x != p :: x in PushFront(l, k, p).next && PushFront(l, k, p).next[x] == l.next[x]
  {
  }

  lemma CachedFree(r: Records, e: Entry)
    requires FreeChain(r.links.next, r.free, r.freeIds) && r.freeIds != [] && r.freeIds[0] in r.cap
    ensures r.freeIds[0] in r.links.next
    ensures var t := Cached(r, e); FreeChain(t.links.next, t.free, t.freeIds)
  {
    hide FreeChain, Pushed, PushFront;
    var p := r.freeIds[0];
    PushOnlyNext(r.links, e.pfn, p);
    FreeTail(r.links.next, PushFront(r.links, e.pfn, p).next, r.free, r.freeIds);
  }

  lemma CachedSound(r: Records, e: Entry)
    requires Sound(r) && r.freeIds != [] && e.va % PAGE == 0 && 0 <= e.m < 4
    ensures r.freeIds[0] in r.links.next && r.freeIds[0] in r.cap && r.freeIds[0] !in r.cached
    ensures Sound(Cached(r, e))
  {
    hide Listed, FreeChain;
    CachedListed(r, e);
    CachedSlotted(r, e);
    CachedFree(r, e);
    assert r.freeIds[0] in r.freeIds;
  }

  /** A new record, its slot not yet given, at the head of the free ones. */
  ghost function Fresh(r: Records): Records {
    r.(links := r.links.(next := r.links.next[r.made := r.free]), free := Some(r.made), cap := r.cap[r.made := 0],
       made := r.made + 1, freeIds := [r.made] + r.freeIds)
  }

  lemma FreshFree(r: Records)
    requires Slotted(r) && FreeChain(r.links.next, r.free, r.freeIds)
    ensures var t := Fresh(r); FreeChain(t.links.next, t.free, t.freeIds)
  {
    hide Slotted;
    var t := Fresh(r);
    assert r.made !in r.freeIds by { NotMade(r); }
    forall i | 0 <= i < |t.freeIds|
      ensures t.freeIds[i] in t.links.next && t.links.next[t.freeIds[i]] == Lists.Entry(t.freeIds, i + 1)
    {
      if i > 0 { assert t.freeIds[i] == r.freeIds[i - 1]; }
    }
  }

  lemma NotMade(r: Records)
    requires Slotted(r)
    ensures r.made !in r.freeIds && r.made !in r.cached
  {
  }

  lemma FreshSlotted(r: Records)
    requires Slotted(r)
    ensures Slotted(Fresh(r))
  {
  }

  lemma FreshListed(r: Records)
    requires Listed(r) && r.made !in r.cached
    ensures Listed(Fresh(r))
  {
    hide Forest, ListOf;
    NotListed(r, r.made);
    ForestKeeps(r.links, Fresh(r).links, r.pfns, r.made);
  }

  lemma FreshSound(r: Records)
    requires Sound(r)
    ensures Sound(Fresh(r))
  {
    hide FreeChain, Listed, Slotted;
    FreshFree(r);
    NotMade(r);
    FreshSlotted(r);
    FreshListed(r);
  }

  lemma NotListed(r: Records, p: int)
    requires Listed(r) && p !in r.cached
    ensures Unlisted(r.pfns, p) && Unlisted(r.ctxs, p)
  {
    hide Forest;
  }

  // ---------------------------------------------------------------------
  // PTE tables and coherence
  // ---------------------------------------------------------------------

  /** Whose table a page's PTE is in: everyone's, for S0, or a context's. */
  datatype Owner = Shared | Own(c: int)

  type Tables = map<(Owner, int), int>

  function OwnerOf(c: int, va: int): Owner {
    if IsS0(va) then Shared else Own(c)
  }

  // A page's PTE in its owner's tables; 0 until one is stored.
  function At(ptes: Tables, o: Owner, va: int): int {
    if (o, va) in ptes then ptes[(o, va)] else 0
  }

  function PteOf(ptes: Tables, c: int, va: int): int {
    At(ptes, OwnerOf(c, va), va)
  }

  /** A mapping is exactly what the page's PTE gives its mode. */
  ghost predicate Agrees(e: Entry, ptes: Tables)
    requires 0 <= e.m < 4
  {
    var pte := PteOf(ptes, e.c, e.va);
    && Mapped(pte) && CanRead(pte, e.m) && e.pfn == Pfn(pte)
    && e.write == CanWrite(pte, e.m) && e.exec == !FaultOnExecute(pte)
  }

  ghost predicate Coherent(cached: map<int, Entry>, ptes: Tables) {
    forall id <- cached :: 0 <= cached[id].m < 4 && Agrees(cached[id], ptes)
  }

  predicate SamePlace(a: Entry, b: Entry) {
    a.c == b.c && a.m == b.m && a.va == b.va
  }

  ghost predicate Unique(cached: map<int, Entry>) {
    forall a, b | a in cached && b in cached && SamePlace(cached[a], cached[b]) :: a == b
  }

  // Fewer mappings are as right as they were.
  lemma FewerMappings(cached: map<int, Entry>, fewer: map<int, Entry>, ptes: Tables)
    requires Coherent(cached, ptes) && Unique(cached)
    requires forall id <- fewer :: id in cached && fewer[id] == cached[id]
    ensures Coherent(fewer, ptes) && Unique(fewer)
  {
  }

  // The place of a record in a list, from what is before it.
  lemma DropNext(lists: map<int, seq<int>>, k: int, kept: seq<int>, rest: seq<int>)
    requires Separate(lists) && ListOf(lists, k) == kept + rest && rest != []
    ensures rest[0] in ListOf(lists, k)
    ensures ListOf(Dropped(lists, k, rest[0]), k) == kept + rest[1..]
    ensures forall j | j != k :: ListOf(Dropped(lists, k, rest[0]), j) == ListOf(lists, j)
  {
    var ids := ListOf(lists, k);
    assert ids[|kept|] == rest[0];
    var i := IndexOf(ids, rest[0]);
    assert ids[i] == ids[|kept|];
    assert Without(ids, i) == kept + rest[1..];
  }

  // The record after the one the walk is at.
  lemma WalkNext(l: Links, lists: map<int, seq<int>>, k: int, kept: seq<int>, rest: seq<int>)
    requires Forest(l, lists) && ListOf(lists, k) == kept + rest && rest != []
    ensures rest[0] in l.next && l.next[rest[0]] == Lists.Entry(rest, 1)
  {
    var ids := ListOf(lists, k);
    assert Chain(l, k, ids);
    assert ids[|kept|] == rest[0];
    RecordOf(l, k, ids, |kept|);
  }

  lemma FirstOf(l: Links, lists: map<int, seq<int>>, k: int)
    requires Forest(l, lists)
    ensures l.At(Head(k)) == Lists.Entry(ListOf(lists, k), 0)
  {
    assert Chain(l, k, ListOf(lists, k));
    assert Forward(l, k, ListOf(lists, k), 0);
  }

  /** What a walk unmaps: pfn at va from a context's address spaces, or from
      every context's; or a context's kernel mode's P0 and P1 pages. */
  datatype Want = Page(pfn: int, c: Option<int>, va: int) | Kernel(of: int)

  predicate Hit(e: Entry, w: Want) {
    match w
    case Page(pfn, c, va) => e.pfn == pfn && e.va == va && (c.None? || e.c == c.value)
    case Kernel(c) => e.c == c && e.m == 0 && !IsS0(e.va)
  }

  lemma KeyParts(va: int, m: int)
    requires va % PAGE == 0 && 0 <= m < 4
    ensures (va + m) % 4 == m
  {
    Numbers.DivModUnique(va + m, 1024 * (va / PAGE), m, 4);
  }

  // What a record says, and the lists it is on.
  lemma RecordSays(r: Records, p: int)
    requires Sound(r) && p in r.cached
    ensures var e := r.cached[p];
      && p in r.key && r.key[p] - r.key[p] % 4 == e.va && r.key[p] % 4 == e.m && p in r.owner && r.owner[p] == e.c
      && p in ListOf(r.pfns, e.pfn) && p in ListOf(r.ctxs, e.c) && p in r.cap
      && Separate(r.pfns) && Separate(r.ctxs)
  {
    hide FreeChain;
    KeyParts(r.cached[p].va, r.cached[p].m);
  }

  // A record on a PFN's list maps that PFN, one on a context's that context's.
  lemma ListSays(r: Records, k: int, p: int)
    requires Sound(r)
    ensures p in ListOf(r.pfns, k) ==> p in r.cached && r.cached[p].pfn == k
    ensures p in ListOf(r.ctxs, k) ==> p in r.cached && r.cached[p].c == k
  {
  }

  lemma Forests(r: Records)
    requires Sound(r)
    ensures Forest(r.links, r.pfns) && Forest(r.clinks, r.ctxs)
  {
  }

  /** now holds some of the mappings of was, as they were. */
  ghost predicate Less(was: map<int, Entry>, now: map<int, Entry>) {
    forall id <- now :: id in was && now[id] == was[id]
  }

  lemma LessSelf(was: map<int, Entry>)
    ensures Less(was, was)
  {
  }

  lemma LessSays(was: map<int, Entry>, now: map<int, Entry>)
    requires Less(was, now)
    ensures forall id <- now :: id in was && now[id] == was[id]
  {
  }

  // What a walk over a list has done by its i-th record.
  ghost predicate Walked(was: map<int, Entry>, now: map<int, Entry>, ids: seq<int>, i: int, w: Want)
    requires 0 <= i <= |ids|
  {
    && Less(was, now)
    && (forall id <- was :: id in now || Hit(was[id], w))
    && (forall j | 0 <= j < i :: ids[j] in now ==> !Hit(now[ids[j]], w))
  }

  lemma NotWalked(was: map<int, Entry>, ids: seq<int>, w: Want)
    ensures Walked(was, was, ids, 0, w)
  {
  }

  lemma WalkOn(was: map<int, Entry>, now: map<int, Entry>, after: map<int, Entry>, ids: seq<int>, i: int, w: Want)
    requires 0 <= i < |ids| && Walked(was, now, ids, i, w) && ids[i] in now
    requires after == if Hit(now[ids[i]], w) then now - {ids[i]} else now
    ensures Walked(was, after, ids, i + 1, w)
  {
    hide Hit;
  }

  ghost function WalkOf(r: Records, w: Want): seq<int> {
    match w
    case Page(pfn, _, _) => ListOf(r.pfns, pfn)
    case Kernel(c) => ListOf(r.ctxs, c)
  }

  // A walk over the whole list finds all there is to unmap.
  lemma WalkedAll(r: Records, now: map<int, Entry>, w: Want)
    requires Sound(r) && Walked(r.cached, now, WalkOf(r, w), |WalkOf(r, w)|, w)
    ensures Less(r.cached, now)
    ensures forall id <- r.cached :: id in now <==> !Hit(r.cached[id], w)
  {
    hide Sound;
    var ids := WalkOf(r, w);
    forall id | id in now
      ensures !Hit(r.cached[id], w)
    {
      RecordSays(r, id);
      if id in ids {
        var j :| 0 <= j < |ids| && ids[j] == id;
      }
    }
  }

  // The pages an evicted context loses are all it had.
  ghost predicate Only(was: map<int, Entry>, now: map<int, Entry>, c: int) {
    Less(was, now) && forall id <- was :: id in now || was[id].c == c
  }

  lemma OnlySelf(was: map<int, Entry>, c: int)
    ensures Only(was, was, c)
  {
  }

  lemma OnlyOn(was: map<int, Entry>, now: map<int, Entry>, c: int, p: int)
    requires Only(was, now, c) && p in now && now[p].c == c
    ensures Only(was, now - {p}, c)
  {
  }

  lemma FirstMapping(r: Records, c: int)
    requires Sound(r)
    ensures match r.clinks.At(Head(c))
      case Some(p) => p in r.cached && r.cached[p].c == c
      case None => forall id <- r.cached :: r.cached[id].c != c
  {
    hide Sound, Forest;
    Forests(r);
    FirstOf(r.clinks, r.ctxs, c);
    var ids := ListOf(r.ctxs, c);
    if ids != [] {
      assert ids[0] in ids;
      ListSays(r, c, ids[0]);
    } else {
      forall id | id in r.cached
        ensures r.cached[id].c != c
      {
        RecordSays(r, id);
      }
    }
  }

  // What room() has evicted once it has seen the contexts below k.
  ghost predicate Evicted(was: map<int, Entry>, now: map<int, Entry>, cur: Option<int>, k: int) {
    && Less(was, now)
    && (forall id <- was :: id in now || cur != Some(was[id].c))
    && (forall id <- now | cur != Some(now[id].c) :: k <= now[id].c)
  }

  lemma NotEvicted(was: map<int, Entry>, cur: Option<int>)
    requires forall id <- was :: 0 <= was[id].c
    ensures Evicted(was, was, cur, 0)
  {
  }

  lemma EvictOn(was: map<int, Entry>, now: map<int, Entry>, after: map<int, Entry>, cur: Option<int>, k: int)
    requires Evicted(was, now, cur, k)
    requires if cur == Some(k) then after == now else Only(now, after, k) && forall id <- after :: after[id].c != k
    ensures Evicted(was, after, cur, k + 1)
  {
  }

  lemma EvictedAll(was: map<int, Entry>, now: map<int, Entry>, cur: Option<int>, n: int)
    requires Evicted(was, now, cur, n) && forall id <- was :: 0 <= was[id].c < n
    ensures Less(was, now)
    ensures forall id <- was :: id in now <==> cur == Some(was[id].c)
  {
  }

  /** What a page's PTE gives mode m. */
  function EntryOf(c: int, m: int, va: int, pte: int): Entry
    requires 0 <= m < 4
  {
    Entry.Entry(c, m, va, Pfn(pte), CanWrite(pte, m), !FaultOnExecute(pte))
  }

  lemma EntryPlace(c: int, m: int, va: int, pte: int)
    requires 0 <= m < 4
    ensures var e := EntryOf(c, m, va, pte); e.c == c && e.m == m && e.va == va && e.pfn == Pfn(pte)
  {
  }

  lemma FreeSays(r: Records)
    requires Sound(r)
    ensures r.free == Lists.Entry(r.freeIds, 0)
    ensures r.freeIds != [] ==> r.freeIds[0] in r.links.next && r.freeIds[0] in r.cap
  {
    if r.freeIds != [] { assert r.freeIds[0] in r.freeIds; }
  }

  ghost predicate Maps(cached: map<int, Entry>, e: Entry) {
    exists id <- cached :: cached[id] == e
  }

  // A place mapped once more, as its PTE says.
  lemma OneMore(cached: map<int, Entry>, ptes: Tables, p: int, e: Entry)
    requires Coherent(cached, ptes) && Unique(cached) && p !in cached
    requires 0 <= e.m < 4 && Agrees(e, ptes) && forall id <- cached :: !SamePlace(cached[id], e)
    ensures Coherent(cached[p := e], ptes) && Unique(cached[p := e]) && Maps(cached[p := e], e)
  {
    hide Agrees;
    assert cached[p := e][p] == e;
  }

  /** No address space has va's page of this owner. */
  ghost predicate Clear(cached: map<int, Entry>, o: Owner, va: int) {
    forall id <- cached | cached[id].va == va :: OwnerOf(cached[id].c, va) != o
  }

  // What WRPTE has uncached by the PTE it found is all there was at va.
  lemma Cleared(was: map<int, Entry>, now: map<int, Entry>, ptes: Tables, o: Owner, c: Option<int>, va: int)
    requires Coherent(was, ptes) && Less(was, now) && o == (if c.None? then Shared else Own(c.value))
    requires c.None? <==> IsS0(va)
    requires Mapped(At(ptes, o, va)) ==> forall id <- now :: !Hit(was[id], Page(Pfn(At(ptes, o, va)), c, va))
    ensures Clear(now, o, va)
  {
    hide Mapped, Pfn, CanRead, CanWrite, FaultOnExecute;
    forall id | id in now && now[id].va == va
      ensures OwnerOf(now[id].c, va) != o
    {
      assert Agrees(was[id], ptes);
    }
  }

  lemma Repoint(cached: map<int, Entry>, ptes: Tables, o: Owner, va: int, pte: int)
    requires Coherent(cached, ptes) && Clear(cached, o, va)
    ensures Coherent(cached, ptes[(o, va) := pte])
  {
    hide Mapped, Pfn, CanRead, CanWrite, FaultOnExecute;
    forall id | id in cached
      ensures 0 <= cached[id].m < 4 && Agrees(cached[id], ptes[(o, va) := pte])
    {
      assert Agrees(cached[id], ptes);
    }
  }

  // The current context's modes below m that have run and may read the page
  // have it; nothing else is new.
  ghost predicate Entering(was: map<int, Entry>, now: map<int, Entry>, c: int, va: int, pte: int, modes: set<int>,
                           m: int)
    requires 0 <= m <= 4
  {
    && Less(now, was)
    && (forall id <- now | id !in was :: now[id].c == c && now[id].va == va && now[id].m < m)
    && (forall k | 0 <= k < m && k in modes && CanRead(pte, k) :: Maps(now, EntryOf(c, k, va, pte)))
  }

  lemma EnteringNone(was: map<int, Entry>, c: int, va: int, pte: int, modes: set<int>)
    ensures Entering(was, was, c, va, pte, modes, 0)
  {
  }

  lemma EnteringOn(was: map<int, Entry>, now: map<int, Entry>, c: int, va: int, pte: int, modes: set<int>, m: int,
                   p: int)
    requires 0 <= m < 4 && Entering(was, now, c, va, pte, modes, m)
    ensures m in modes && CanRead(pte, m) && p !in now ==>
      Entering(was, now[p := EntryOf(c, m, va, pte)], c, va, pte, modes, m + 1)
    ensures !(m in modes && CanRead(pte, m)) ==> Entering(was, now, c, va, pte, modes, m + 1)
  {
    hide CanRead, Pfn, CanWrite, FaultOnExecute;
    if m in modes && CanRead(pte, m) && p !in now {
      var e := EntryOf(c, m, va, pte);
      var after := now[p := e];
      assert after[p] == e;
      forall k | 0 <= k < m + 1 && k in modes && CanRead(pte, k)
        ensures Maps(after, EntryOf(c, k, va, pte))
      {
        if k < m {
          var id :| id in now && now[id] == EntryOf(c, k, va, pte);
          assert after[id] == now[id];
        }
      }
    }
  }

  // The page is nowhere in the mode's address space yet.
  lemma NotYet(was: map<int, Entry>, now: map<int, Entry>, c: int, va: int, pte: int, modes: set<int>, m: int)
    requires 0 <= m < 4 && Entering(was, now, c, va, pte, modes, m) && Clear(was, OwnerOf(c, va), va)
    ensures forall id <- now :: !SamePlace(now[id], EntryOf(c, m, va, pte))
  {
    hide CanRead, Pfn, CanWrite, FaultOnExecute;
  }

  lemma EntryAgrees(ptes: Tables, c: int, m: int, va: int, pte: int)
    requires 0 <= m < 4 && PteOf(ptes, c, va) == pte && Mapped(pte) && CanRead(pte, m)
    ensures Agrees(EntryOf(c, m, va, pte), ptes)
  {
  }

  /** What WRPTE turns down: no page of the space, or a PTE that no page table may
      have. */
  predicate Refused(va: int, pte: int, cur: Option<int>, pfnCount: int) {
    || va % PAGE != 0 || va < PAGE || va >= SPACE_END || (!IsS0(va) && cur.None?)
    || (Mapped(pte) && (!WellFormed(pte) || Pfn(pte) >= pfnCount))
  }

  /** By its numbers: what is turned down is an address outside the executive's pages, and a
      valid PTE, readable in some mode, whose frame does not exist or whose enables are no
      protection code's. */
  lemma RefusedIs(va: int, pte: int, cur: Option<int>, pfnCount: int)
    ensures Refused(va, pte, cur, pfnCount) <==>
      || va % 4096 != 0 || va < 4096 || va >= 0x8000_0000
      || (!(0x4000_0000 <= va < 0x6000_0000) && cur.None?)
      || (pte % 2 == 1 && Reads(pte) != 0 && (!Code(Reads(pte), Writes(pte)) || Pfn(pte) >= pfnCount))
  {
    hide Mapped, WellFormed, Code, Reads, Writes, Pfn;
    WellFormedIs(pte);
    MappedIs(pte);
  }

  // Whose page va is when the context cur writes its PTE.
  function Whose(cur: Option<int>, va: int): Owner {
    if IsS0(va) || cur.None? then Shared else Own(cur.value)
  }

  // The PTEs after a page's is written: one that maps nothing is not kept
  // where there is no table for it.
  function Written(ptes: Tables, tables: set<(Owner, int)>, o: Owner, va: int, pte: int): Tables {
    if Mapped(pte) || (o, va / TABLE) in tables then ptes[(o, va) := pte] else ptes
  }

  // The mappings after WRPTE: of those from before, none at the page; and in
  // the current context, the page itself.
  ghost predicate Replaced(was: map<int, Entry>, now: map<int, Entry>, o: Owner, cur: Option<int>, va: int) {
    forall id <- now ::
      || (id in was && now[id] == was[id] && !(now[id].va == va && OwnerOf(now[id].c, va) == o))
      || (cur == Some(now[id].c) && now[id].va == va)
  }

  lemma ReplacedBy(was: map<int, Entry>, mid: map<int, Entry>, now: map<int, Entry>, o: Owner, c: int, va: int,
                   pte: int, modes: set<int>)
    requires Less(was, mid) && Clear(mid, o, va) && Entering(mid, now, c, va, pte, modes, 4)
    ensures Replaced(was, now, o, Some(c), va)
  {
    hide Mapped, CanRead, Maps;
  }

  lemma ReplacedOf(was: map<int, Entry>, left: map<int, Entry>, now: map<int, Entry>, o: Owner, cur: Option<int>,
                   va: int)
    requires Less(was, left) && Replaced(left, now, o, cur, va)
    ensures Replaced(was, now, o, cur, va)
  {
  }

  lemma ReplacedNone(was: map<int, Entry>, now: map<int, Entry>, o: Owner, cur: Option<int>, va: int)
    requires Less(was, now) && Clear(now, o, va)
    ensures Replaced(was, now, o, cur, va)
  {
  }

  // Every PTE kept is in a table that was made.
  ghost predicate Tabled(ptes: Tables, tables: set<(Owner, int)>) {
    forall k <- ptes :: (k.0, k.1 / TABLE) in tables
  }

  lemma TabledWith(ptes: Tables, tables: set<(Owner, int)>, o: Owner, va: int, pte: int)
    requires Tabled(ptes, tables)
    ensures Tabled(ptes, tables + {(o, va / TABLE)})
    ensures (o, va / TABLE) in tables ==> Tabled(ptes[(o, va) := pte], tables)
  {
  }

  lemma TabledWithout(ptes: Tables, tables: set<(Owner, int)>, c: int)
    requires Tabled(ptes, tables)
    ensures Tabled(map k | k in ptes && k.0 != Own(c) :: ptes[k], set t | t in tables && t.0 != Own(c))
  {
  }

  function PageOf(address: int): int {
    address - address % PAGE
  }

  lemma PageAligned(address: int)
    ensures PageOf(address) % PAGE == 0
  {
    Numbers.DivModUnique(PageOf(address), address / PAGE, 0, PAGE);
  }

  predicate IsAt(e: Entry, c: int, m: int, va: int) {
    e.c == c && e.m == m && e.va == va
  }

  /** The page's PTE lets mode m make the access. */
  predicate Permits(ptes: Tables, c: int, m: int, va: int, write: bool, exec: bool)
    requires 0 <= m < 4
  {
    var pte := PteOf(ptes, c, va);
    && va < SPACE_END && Mapped(pte) && CanRead(pte, m)
    && (write ==> CanWrite(pte, m)) && (exec ==> !FaultOnExecute(pte))
  }

  // A page mapped is on the list of the PFN its PTE names.
  lemma OnItsList(cached: map<int, Entry>, ptes: Tables, c: int, m: int, va: int)
    requires Coherent(cached, ptes)
    ensures forall id <- cached | IsAt(cached[id], c, m, va) :: cached[id].pfn == Pfn(PteOf(ptes, c, va))
  {
    hide Mapped, Pfn, CanRead, CanWrite, FaultOnExecute;
    forall id | id in cached && IsAt(cached[id], c, m, va)
      ensures cached[id].pfn == Pfn(PteOf(ptes, c, va))
    {
      assert Agrees(cached[id], ptes);
    }
  }

  lemma StillAbsent(was: map<int, Entry>, now: map<int, Entry>, e: Entry)
    requires forall id <- now :: id in was && now[id] == was[id]
    requires forall id <- was :: !IsAt(was[id], e.c, e.m, e.va)
    ensures IsAt(e, e.c, e.m, e.va) && forall id <- now :: !SamePlace(now[id], e)
  {
  }

  lemma OnlySays(was: map<int, Entry>, now: map<int, Entry>, c: int)
    requires Only(was, now, c)
    ensures forall id <- now :: id in was && now[id] == was[id]
  {
  }

  lemma Disowned(cached: map<int, Entry>, ptes: Tables, c: int)
    requires Coherent(cached, ptes) && forall id <- cached :: cached[id].c != c
    ensures Coherent(cached, map k | k in ptes && k.0 != Own(c) :: ptes[k])
  {
    hide Mapped, Pfn, CanRead, CanWrite, FaultOnExecute;
    forall id | id in cached
      ensures Agrees(cached[id], map k | k in ptes && k.0 != Own(c) :: ptes[k])
    {
      assert Agrees(cached[id], ptes);
    }
  }

  // ---------------------------------------------------------------------
  // Contexts
  // ---------------------------------------------------------------------

  predicate InUse(hwpcb: seq<int>, c: int) { 0 <= c < |hwpcb| && hwpcb[c] != 0 }

  // Each mapping is a context's, in a mode that has run.
  ghost predicate Placed(cached: map<int, Entry>, hwpcb: seq<int>, entered: map<int, set<int>>) {
    forall id <- cached ::
      InUse(hwpcb, cached[id].c) && cached[id].c in entered && cached[id].m in entered[cached[id].c]
  }

  // Each table of P0 and P1 is a context's.
  ghost predicate Homes(tables: set<(Owner, int)>, hwpcb: seq<int>) {
    forall t <- tables | t.0.Own? :: InUse(hwpcb, t.0.c)
  }

  // No two are for one HWPCB, each has run in kernel mode, and one is current.
  ghost predicate Contexts(hwpcb: seq<int>, entered: map<int, set<int>>, cur: Option<int>) {
    && (forall i, j | 0 <= i < j < |hwpcb| && hwpcb[i] == hwpcb[j] :: hwpcb[i] == 0)
    && (forall i | InUse(hwpcb, i) :: i in entered && 0 in entered[i])
    && (cur.Some? ==> InUse(hwpcb, cur.value))
  }

  ghost predicate Housed(cached: map<int, Entry>, tables: set<(Owner, int)>, hwpcb: seq<int>,
                         entered: map<int, set<int>>, cur: Option<int>) {
    Placed(cached, hwpcb, entered) && Homes(tables, hwpcb) && Contexts(hwpcb, entered, cur)
  }

  lemma HousedFewer(cached: map<int, Entry>, fewer: map<int, Entry>, tables: set<(Owner, int)>, hwpcb: seq<int>,
                    entered: map<int, set<int>>, cur: Option<int>)
    requires Housed(cached, tables, hwpcb, entered, cur) && Less(cached, fewer)
    ensures Housed(fewer, tables, hwpcb, entered, cur)
  {
  }

  lemma HousedSays(cached: map<int, Entry>, tables: set<(Owner, int)>, hwpcb: seq<int>, entered: map<int, set<int>>,
                   cur: Option<int>)
    requires Housed(cached, tables, hwpcb, entered, cur)
    ensures (forall id <- cached :: 0 <= cached[id].c < |hwpcb|) && (cur.Some? ==> InUse(hwpcb, cur.value))
  {
  }

  lemma HousedMore(cached: map<int, Entry>, tables: set<(Owner, int)>, hwpcb: seq<int>, entered: map<int, set<int>>,
                   cur: Option<int>, p: int, e: Entry)
    requires Housed(cached, tables, hwpcb, entered, cur) && cur == Some(e.c) && e.c in entered && e.m in entered[e.c]
    ensures Housed(cached[p := e], tables, hwpcb, entered, cur)
  {
  }

  lemma HousedTable(cached: map<int, Entry>, tables: set<(Owner, int)>, hwpcb: seq<int>, entered: map<int, set<int>>,
                    cur: Option<int>, o: Owner, k: int)
    requires Housed(cached, tables, hwpcb, entered, cur) && (o.Own? ==> cur == Some(o.c))
    ensures Housed(cached, tables + {(o, k)}, hwpcb, entered, cur)
  {
  }

  // A slot's context gone, with nothing of it left.
  lemma SlotFree(cached: map<int, Entry>, tables: set<(Owner, int)>, hwpcb: seq<int>, entered: map<int, set<int>>,
                 cur: Option<int>, c: int)
    requires Housed(cached, tables, hwpcb, entered, cur) && InUse(hwpcb, c) && cur != Some(c)
    requires (forall id <- cached :: cached[id].c != c) && forall t <- tables :: t.0 != Own(c)
    ensures Housed(cached, tables, hwpcb[c := 0], entered, cur)
  {
  }

  // A slot for a new context: nothing of another is in it.
  lemma SlotTaken(cached: map<int, Entry>, tables: set<(Owner, int)>, hwpcb: seq<int>, entered: map<int, set<int>>,
                  cur: Option<int>, c: nat, h: int)
    requires Housed(cached, tables, hwpcb, entered, cur) && h != 0 && h !in hwpcb && c <= |hwpcb| && !InUse(hwpcb, c)
    requires c in entered && 0 in entered[c]
    ensures Housed(cached, tables, if c < |hwpcb| then hwpcb[c := h] else hwpcb + [h], entered, cur)
    ensures (forall id <- cached :: cached[id].c != c) && forall t <- tables :: t.0 != Own(c)
  {
    var now := if c < |hwpcb| then hwpcb[c := h] else hwpcb + [h];
    forall i, j | 0 <= i < j < |now| && now[i] == now[j]
      ensures now[i] == 0
    {
      if i != c && j != c { assert hwpcb[i] == hwpcb[j]; }
    }
  }

  lemma NoTable(ptes: Tables, tables: set<(Owner, int)>, c: int)
    requires Tabled(ptes, tables) && forall t <- tables :: t.0 != Own(c)
    ensures forall va :: At(ptes, Own(c), va) == 0
  {
  }

  // Another mode has run.
  lemma ModeEntered(cached: map<int, Entry>, tables: set<(Owner, int)>, hwpcb: seq<int>, entered: map<int, set<int>>,
                    cur: Option<int>, c: int, m: int)
    requires Housed(cached, tables, hwpcb, entered, cur)
    ensures Housed(cached, tables, hwpcb, entered[c := (if c in entered then entered[c] else {}) + {m}], cur)
  {
  }

  // Any context may become current.
  lemma Current(cached: map<int, Entry>, tables: set<(Owner, int)>, hwpcb: seq<int>, entered: map<int, set<int>>,
                cur: Option<int>, c: int)
    requires Housed(cached, tables, hwpcb, entered, cur) && InUse(hwpcb, c)
    ensures Housed(cached, tables, hwpcb, entered, Some(c))
  {
  }

  // There is one slot at most for a HWPCB.
  lemma Named(cached: map<int, Entry>, tables: set<(Owner, int)>, hwpcb: seq<int>, entered: map<int, set<int>>,
              cur: Option<int>, h: int)
    requires Housed(cached, tables, hwpcb, entered, cur)
    ensures forall i, j | InUse(hwpcb, i) && InUse(hwpcb, j) && hwpcb[i] == hwpcb[j] == h :: i == j
  {
  }

  lemma OnlyLess(was: map<int, Entry>, now: map<int, Entry>, c: int)
    requires Only(was, now, c)
    ensures Less(was, now)
  {
  }

  /** What reaches the PAL and concerns address spaces.  Pages left in the share are as
      they are found then. */
  datatype Call =
    | WritePte(va: int, pte: int, shareFree: int, shareSize: int)
    | Fault(m: int, address: int, write: bool, exec: bool, shareFree: int, shareSize: int)
    | EnterMode(m: int)
    | SwitchTo(h: int, ksp: bool)
    | DeleteContext(h: int)

  // The call is about the context of h, if it is not the current one.
  predicate Names(call: Call, h: int) { (call.SwitchTo? || call.DeleteContext?) && call.h == h }

  /** A context that is not current is where it was and has the P0 and P1 it had. */
  ghost predicate LeftAlone(was: seq<int>, wasPtes: Tables, now: seq<int>, nowCur: Option<int>, nowPtes: Tables,
                            c: int) {
    && InUse(was, c) && InUse(now, c) && now[c] == was[c] && nowCur != Some(c)
    && forall va :: At(nowPtes, Own(c), va) == At(wasPtes, Own(c), va)
  }

  lemma LeftOn(a: seq<int>, pa: Tables, b: seq<int>, cb: Option<int>, pb: Tables, d: seq<int>, cd: Option<int>,
               pd: Tables, c: int)
    requires LeftAlone(a, pa, b, cb, pb, c) && LeftAlone(b, pb, d, cd, pd, c)
    ensures LeftAlone(a, pa, d, cd, pd, c)
  {
  }

  lemma WrittenElsewhere(ptes: Tables, tables: set<(Owner, int)>, o: Owner, va: int, pte: int, c: int)
    requires o != Own(c)
    ensures forall x :: At(Written(ptes, tables, o, va, pte), Own(c), x) == At(ptes, Own(c), x)
  {
  }

  class AddressSpaces {
    const pfnCount: int
    // The executive's PTEs, as WRPTE left them, and the tables made for them.
    var ptes: Tables
    var tables: set<(Owner, int)>
    // The current context, each slot's by its HWPCB, 0 where it is free, and the
    // modes that have run in each.
    var cur: Option<int>
    var hwpcb: seq<int>
    var entered: map<int, set<int>>
    // The records, free ones included, and the capability slots in use.
    var links: Links
    var clinks: Links
    var free: Option<int>
    var key: map<int, int>
    var owner: map<int, int>
    var cap: map<int, int>
    var slots: set<int>
    var nextSlot: int
    var made: int
    ghost var cached: map<int, Entry>
    ghost var pfns: map<int, seq<int>>
    ghost var ctxs: map<int, seq<int>>
    ghost var freeIds: seq<int>

    ghost function R(): Records
      reads this
    {
      Records(links, clinks, free, key, owner, cap, slots, nextSlot, made, cached, pfns, ctxs, freeIds)
    }

    /** Every mapping agrees with its PTE, there is one at most for each place and it is
        in an address space there is, a slot that is free has none and no tables, and
        the records are in order. */
    ghost predicate Valid()
      reads this
    {
      && Sound(R()) && Coherent(cached, ptes) && Unique(cached)
      && Tabled(ptes, tables) && Housed(cached, tables, hwpcb, entered, cur)
    }

    /** uncache_one: forgets a mapping, and so unmaps it. */
    method UncacheOne(p: int)
      requires Sound(R()) && p in cached
      modifies this`links, this`clinks, this`free, this`slots, this`cached, this`pfns, this`ctxs, this`freeIds
      ensures Sound(R()) && cached == old(cached) - {p}
      ensures p in ListOf(old(pfns), old(cached)[p].pfn) && pfns == Dropped(old(pfns), old(cached)[p].pfn, p)
      ensures p in ListOf(old(ctxs), old(cached)[p].c) && ctxs == Dropped(old(ctxs), old(cached)[p].c, p)
      ensures freeIds == [p] + old(freeIds) && free == Some(p)
    {
      hide Listed, Slotted, Recorded, FreeChain, Unlink;
      ghost var r := R();
      UncachedSound(r, p);
      RecordLinks(r, p);
      RecordSays(r, p);
      ghost var t := Uncached(r, p);
      slots := slots - {cap[p]};
      links := Unlink(links, p);
      clinks := Unlink(clinks, p);
      links := links.(next := links.next[p := free]);
      free := Some(p);
      cached, pfns, ctxs, freeIds := t.cached, t.pfns, t.ctxs, t.freeIds;
      assert R() == t;
    }

    // One record of a PFN's list, as uncache() looks at it.
    method Visit(p: int, w: Want, ghost kept: seq<int>, ghost rest: seq<int>)
      returns (n: Option<int>, ghost kept': seq<int>)
      requires Sound(R()) && rest != [] && rest[0] == p && w.Page? && ListOf(pfns, w.pfn) == kept + rest
      modifies this`links, this`clinks, this`free, this`slots, this`cached, this`pfns, this`ctxs, this`freeIds
      ensures Sound(R()) && n == Lists.Entry(rest, 1) && ListOf(pfns, w.pfn) == kept' + rest[1..]
      ensures p in old(cached) && cached == if Hit(old(cached)[p], w) then old(cached) - {p} else old(cached)
    {
      hide Sound, Forest, Dropped;
      Forests(R());
      WalkNext(links, pfns, w.pfn, kept, rest);
      assert (kept + rest)[|kept|] == p;
      ListSays(R(), w.pfn, p);
      RecordSays(R(), p);
      n := links.next[p];
      if key[p] - key[p] % 4 == w.va && (w.c.None? || owner[p] == w.c.value) {
        DropNext(pfns, w.pfn, kept, rest);
        UncacheOne(p);
        kept' := kept;
      } else {
        kept' := kept + [p];
        assert kept + rest == kept' + rest[1..];
      }
    }

    /** uncache: of all that is mapped, exactly the matches of this page are no more. */
    method Uncache(pfn: int, c: Option<int>, va: int)
      requires Sound(R())
      modifies this`links, this`clinks, this`free, this`slots, this`cached, this`pfns, this`ctxs, this`freeIds
      ensures Sound(R()) && Less(old(cached), cached)
      ensures forall id <- old(cached) :: id in cached <==> !Hit(old(cached)[id], Page(pfn, c, va))
    {
      hide Sound, Forest, Dropped, Hit, ListOf, Separate, Less, Walked;
      ghost var r, ids := R(), ListOf(pfns, pfn);
      ghost var kept, i := [], 0;
      var w := Page(pfn, c, va);
      Forests(r);
      FirstOf(links, pfns, pfn);
      assert kept + ids[0..] == ids;
      NotWalked(cached, ids, w);
      var p := links.At(Head(pfn));
      while p.Some?
        invariant Sound(R()) && 0 <= i <= |ids| && p == Lists.Entry(ids, i)
        invariant ListOf(pfns, pfn) == kept + ids[i..] && Walked(r.cached, cached, ids, i, w)
        decreases |ids| - i
      {
        assert ids[i..][1..] == ids[i + 1..];
        ghost var was := cached;
        p, kept := Visit(p.value, w, kept, ids[i..]);
        WalkOn(r.cached, was, cached, ids, i, w);
        i := i + 1;
      }
      WalkedAll(r, cached, w);
    }

    // One record of the current context's list, as room() looks at it.
    method VisitKernel(p: int, c: int, ghost kept: seq<int>, ghost rest: seq<int>)
      returns (n: Option<int>, ghost kept': seq<int>)
      requires Sound(R()) && rest != [] && rest[0] == p && ListOf(ctxs, c) == kept + rest
      modifies this`links, this`clinks, this`free, this`slots, this`cached, this`pfns, this`ctxs, this`freeIds
      ensures Sound(R()) && n == Lists.Entry(rest, 1) && ListOf(ctxs, c) == kept' + rest[1..]
      ensures p in old(cached) && cached == if Hit(old(cached)[p], Kernel(c)) then old(cached) - {p} else old(cached)
      ensures cached != old(cached) || old(free).Some? ==> free.Some?
    {
      hide Sound, Forest, Dropped;
      Forests(R());
      WalkNext(clinks, ctxs, c, kept, rest);
      assert (kept + rest)[|kept|] == p;
      ListSays(R(), c, p);
      RecordSays(R(), p);
      n := clinks.next[p];
      if key[p] % 4 == 0 && !IsS0(key[p]) {
        DropNext(ctxs, c, kept, rest);
        UncacheOne(p);
        kept' := kept;
      } else {
        kept' := kept + [p];
        assert kept + rest == kept' + rest[1..];
      }
    }

    // room's second loop: the current kernel mode's P0 and P1 pages go.
    method EvictKernel(c: int)
      requires Sound(R())
      modifies this`links, this`clinks, this`free, this`slots, this`cached, this`pfns, this`ctxs, this`freeIds
      ensures Sound(R()) && Less(old(cached), cached)
      ensures forall id <- old(cached) :: id in cached <==> !Hit(old(cached)[id], Kernel(c))
      ensures cached != old(cached) || old(free).Some? ==> free.Some?
    {
      hide Sound, Forest, Dropped, Hit, ListOf, Separate, Less, Walked;
      ghost var r, ids := R(), ListOf(ctxs, c);
      ghost var kept, i, w := [], 0, Kernel(c);
      Forests(r);
      FirstOf(clinks, ctxs, c);
      assert kept + ids[0..] == ids;
      NotWalked(cached, ids, w);
      var p := clinks.At(Head(c));
      while p.Some?
        invariant Sound(R()) && 0 <= i <= |ids| && p == Lists.Entry(ids, i)
        invariant ListOf(ctxs, c) == kept + ids[i..] && Walked(r.cached, cached, ids, i, w)
        invariant cached != old(cached) || old(free).Some? ==> free.Some?
        decreases |ids| - i
      {
        assert ids[i..][1..] == ids[i + 1..];
        ghost var was := cached;
        p, kept := VisitKernel(p.value, c, kept, ids[i..]);
        WalkOn(r.cached, was, cached, ids, i, w);
        i := i + 1;
      }
      WalkedAll(r, cached, w);
    }

    // Everything a context's address spaces map goes.
    method UncacheAll(c: int)
      requires Sound(R())
      modifies this`links, this`clinks, this`free, this`slots, this`cached, this`pfns, this`ctxs, this`freeIds
      ensures Sound(R()) && Only(old(cached), cached, c)
      ensures forall id <- cached :: cached[id].c != c
      ensures cached != old(cached) || old(free).Some? ==> free.Some?
      ensures cached == old(cached) ==> free == old(free)
    {
      hide Sound, Dropped, Only, ListOf;
      assert Only(cached, cached, c) by { OnlySelf(cached, c); }
      while clinks.At(Head(c)).Some?
        invariant Sound(R()) && Only(old(cached), cached, c)
        invariant cached != old(cached) || old(free).Some? ==> free.Some?
        invariant cached == old(cached) ==> free == old(free)
        decreases |cached|
      {
        var p := clinks.At(Head(c)).value;
        FirstMapping(R(), c);
        OnlyOn(old(cached), cached, c, p);
        UncacheOne(p);
      }
      FirstMapping(R(), c);
    }

    // room's first loop: only what the current context has mapped is left.
    method EvictOthers()
      requires Valid()
      modifies this`links, this`clinks, this`free, this`slots, this`cached, this`pfns, this`ctxs, this`freeIds
      ensures Sound(R()) && Less(old(cached), cached)
      ensures forall id <- old(cached) :: id in cached <==> cur == Some(old(cached)[id].c)
      ensures cached != old(cached) || old(free).Some? ==> free.Some?
    {
      hide Sound, Coherent, Unique, Housed, Tabled, Evicted;
      HousedSays(cached, tables, hwpcb, entered, cur);
      NotEvicted(cached, cur);
      for k := 0 to |hwpcb|
        invariant Sound(R()) && Evicted(old(cached), cached, cur, k)
        invariant cached != old(cached) || old(free).Some? ==> free.Some?
      {
        ghost var was := cached;
        if cur != Some(k) {
          UncacheAll(k);
        }
        EvictOn(old(cached), was, cached, cur, k);
      }
      EvictedAll(old(cached), cached, cur, |hwpcb|);
    }

    /** room: true means that a page can be entered.  Nothing goes while a record is
        free or an eighth of the share is left; then the other contexts' mappings go,
        and only if they had none, the current kernel mode's P0 and P1 pages. */
    method Room(shareFree: int, shareSize: int) returns (ok: bool)
      requires Valid()
      modifies this`links, this`clinks, this`free, this`slots, this`cached, this`pfns, this`ctxs, this`freeIds
      ensures Valid() && ok == (shareFree >= SLACK) && Less(old(cached), cached)
      ensures old(free).Some? || shareFree >= shareSize / 8 ==> cached == old(cached)
      ensures forall id <- old(cached) | cur == Some(old(cached)[id].c) && id !in cached ::
        Hit(old(cached)[id], Kernel(cur.value)) && forall o <- old(cached) :: cur == Some(old(cached)[o].c)
      ensures old(free).None? && shareFree < shareSize / 8 ==>
        free.Some? || forall id <- old(cached) ::
          cur == Some(old(cached)[id].c) && !Hit(old(cached)[id], Kernel(cur.value))
    {
      hide Sound, Coherent, Unique, Housed, Tabled, Hit;
      if free.None? && shareFree < shareSize / 8 {
        EvictOthers();
        if free.None? && cur.Some? {
          assert cached == old(cached);
          EvictKernel(cur.value);
        }
      }
      HousedFewer(old(cached), cached, tables, hwpcb, entered, cur);
      FewerMappings(old(cached), cached, ptes);
      ok := shareFree >= SLACK;
    }

    // A page of new records, the last of them first on the free list.
    method MakeRecords()
      requires Sound(R())
      modifies this`links, this`free, this`cap, this`made, this`freeIds
      ensures Sound(R()) && free.Some? && freeIds != []
    {
      hide Sound;
      for i := 0 to RECORDS
        invariant Sound(R()) && (i > 0 ==> free.Some? && freeIds != [])
      {
        FreshSound(R());
        ghost var t := Fresh(R());
        links, free := links.(next := links.next[made := free]), Some(made);
        cap, made := cap[made := 0], made + 1;
        freeIds := t.freeIds;
        assert R() == t;
      }
    }

    // The first free record, with a slot for its capability.
    method Take() returns (p: int)
      requires free == Lists.Entry(freeIds, 0) && freeIds != [] && freeIds[0] in links.next && freeIds[0] in cap
      modifies this`free, this`cap, this`slots, this`nextSlot, this`freeIds
      ensures p == old(freeIds)[0] && R() == Taken(old(R()))
    {
      p := free.value;
      free, freeIds := links.next[p], freeIds[1..];
      if cap[p] == 0 {
        cap, nextSlot := cap[p := nextSlot], nextSlot + 1;
      }
      slots := slots + {cap[p]};
      assert cap == Taken(old(R())).cap;
    }

    // Fills in record p for a mapping, at the head of both lists.
    method Enter(p: int, c: int, k: int, pfn: int, ghost e: Entry)
      requires e.c == c && e.pfn == pfn
      modifies this`links, this`clinks, this`key, this`owner, this`cached, this`pfns, this`ctxs
      ensures R() == Entered(old(R()), p, k, e)
    {
      hide PushFront, Pushed;
      ghost var t := Entered(R(), p, k, e);
      key, owner := key[p := k], owner[p := c];
      links, clinks := PushFront(links, pfn, p), PushFront(clinks, c, p);
      pfns, ctxs, cached := Pushed(pfns, pfn, p), Pushed(ctxs, c, p), cached[p := e];
      assert R() == t;
    }

    // cache's second half, with a free record at hand.
    method Record(c: int, m: int, va: int, pte: int) returns (p: int)
      requires Sound(R()) && va % PAGE == 0 && 0 <= m < 4 && free.Some?
      modifies this`links, this`clinks, this`free, this`key, this`owner, this`cap, this`slots, this`nextSlot,
        this`cached, this`pfns, this`ctxs, this`freeIds
      ensures Sound(R()) && p !in old(cached) && cached == old(cached)[p := EntryOf(c, m, va, pte)]
    {
      hide Sound, EntryOf, Pfn, Taken, Entered, Cached;
      ghost var r, e := R(), EntryOf(c, m, va, pte);
      EntryPlace(c, m, va, pte);
      FreeSays(r);
      CachedSound(r, e);
      p := Take();
      Enter(p, c, va + m, Pfn(pte), e);
      CachedIs(r, e);
    }

    /** cache: one entry more, the PTE's for that context and mode, and those there
        were unchanged. */
    method Cache(c: int, m: int, va: int, pte: int) returns (p: int)
      requires Sound(R()) && va % PAGE == 0 && 0 <= m < 4
      modifies this`links, this`clinks, this`free, this`key, this`owner, this`cap, this`slots, this`nextSlot, this`made,
        this`cached, this`pfns, this`ctxs, this`freeIds
      ensures Sound(R()) && p !in old(cached) && cached == old(cached)[p := EntryOf(c, m, va, pte)]
    {
      hide Sound, EntryOf;
      if free.None? {
        MakeRecords();
      }
      p := Record(c, m, va, pte);
    }

    // The modes the current context has run in.
    function Ran(): set<int>
      reads this
    {
      if cur.Some? && cur.value in entered then entered[cur.value] else {}
    }

    // WRPTE's last loop: an entry for each mode that could use the new page now.
    method EnterAll(va: int, pte: int)
      requires Valid() && cur.Some? && va % PAGE == 0 && PteOf(ptes, cur.value, va) == pte && Mapped(pte)
      requires Clear(cached, OwnerOf(cur.value, va), va)
      modifies this`links, this`clinks, this`free, this`key, this`owner, this`cap, this`slots, this`nextSlot, this`made,
        this`cached, this`pfns, this`ctxs, this`freeIds
      ensures Valid() && Entering(old(cached), cached, cur.value, va, pte, Ran(), 4)
    {
      hide Sound, Coherent, Unique, Housed, Tabled, Clear, Mapped, CanRead, EntryOf, Entering, Agrees, SamePlace;
      var c := cur.value;
      EnteringNone(cached, c, va, pte, Ran());
      for m := 0 to 4
        invariant Valid() && Entering(old(cached), cached, c, va, pte, Ran(), m)
      {
        ghost var was := cached;
        if m in Ran() && CanRead(pte, m) {
          EntryPlace(c, m, va, pte);
          NotYet(old(cached), was, c, va, pte, Ran(), m);
          EntryAgrees(ptes, c, m, va, pte);
          var p := Cache(c, m, va, pte);
          OneMore(was, ptes, p, EntryOf(c, m, va, pte));
          HousedMore(was, tables, hwpcb, entered, cur, p, EntryOf(c, m, va, pte));
          EnteringOn(old(cached), was, c, va, pte, Ran(), m, p);
        } else {
          EnteringOn(old(cached), was, c, va, pte, Ran(), m, 0);
        }
      }
    }

    // A table for PTEs, of S0 or the current context's.
    method MakeTable(o: Owner, k: int)
      requires Valid() && (o.Own? ==> cur == Some(o.c))
      modifies this`tables
      ensures Valid() && tables == old(tables) + {(o, k)}
    {
      hide Sound, Coherent, Unique, Housed;
      HousedTable(cached, tables, hwpcb, entered, cur, o, k);
      tables := tables + {(o, k)};
    }

    // The PTE changes, with no entry left that came from the old one.
    method Repage(va: int, pte: int) returns (was: int)
      requires Valid() && (IsS0(va) || cur.Some?)
      modifies this`links, this`clinks, this`free, this`slots, this`cached, this`pfns, this`ctxs, this`freeIds,
        this`ptes, this`tables
      ensures Valid() && Less(old(cached), cached) && Clear(cached, Whose(cur, va), va)
      ensures was == At(old(ptes), Whose(cur, va), va)
      ensures ptes == Written(old(ptes), old(tables), Whose(cur, va), va, pte)
      ensures tables == old(tables) + if Mapped(pte) then {(Whose(cur, va), va / TABLE)} else {}
    {
      hide Sound, Coherent, Unique, Clear, Mapped, Hit, Less, Tabled, Pfn, At;
      var o := Whose(cur, va);
      if Mapped(pte) {
        MakeTable(o, va / TABLE);
      }
      was := At(ptes, o, va);
      LessSelf(cached);
      if Mapped(was) {
        Uncache(Pfn(was), if IsS0(va) then None else cur, va);
      }
      LessSays(old(cached), cached);
      Cleared(old(cached), cached, ptes, o, if IsS0(va) then None else cur, va);
      HousedFewer(old(cached), cached, tables, hwpcb, entered, cur);
      FewerMappings(old(cached), cached, ptes);
      if (o, va / TABLE) in tables {
        Repoint(cached, ptes, o, va, pte);
        TabledWith(ptes, tables, o, va, pte);
        ptes := ptes[(o, va) := pte];
      }
    }

    // The new PTE in force: the old page gone, the new one in.
    method Put(va: int, pte: int) returns (was: int)
      requires Valid() && va % PAGE == 0 && (IsS0(va) || cur.Some?)
      modifies this`links, this`clinks, this`free, this`key, this`owner, this`cap, this`slots, this`nextSlot, this`made,
        this`cached, this`pfns, this`ctxs, this`freeIds, this`ptes, this`tables
      ensures Valid() && was == At(old(ptes), Whose(cur, va), va)
      ensures ptes == Written(old(ptes), old(tables), Whose(cur, va), va, pte)
      ensures Replaced(old(cached), cached, Whose(cur, va), cur, va)
      ensures Mapped(pte) && cur.Some? ==>
        forall m | 0 <= m < 4 && m in Ran() && CanRead(pte, m) :: Maps(cached, EntryOf(cur.value, m, va, pte))
    {
      hide Sound, Coherent, Unique, Housed, Tabled, Clear, Mapped, CanRead, EntryOf, Less, Replaced, Maps;
      was := Repage(va, pte);
      ghost var mid := cached;
      if Mapped(pte) && cur.Some? {
        EnterAll(va, pte);
        ReplacedBy(old(cached), mid, cached, Whose(cur, va), cur.value, va, pte, Ran());
      } else {
        ReplacedNone(old(cached), cached, Whose(cur, va), cur, va);
      }
    }

    /** WRPTE: one PTE changed.  It fails with 0, changing nothing, when it refuses,
        and with -1, the PTEs as they were, when there is no room; else no entry of the
        old PTE is left, and the current context has one of the new for each mode that
        has run and may read it. */
    method Wrpte(va: int, pte: int, shareFree: int, shareSize: int) returns (status: int, was: int)
      requires Valid()
      modifies this`links, this`clinks, this`free, this`key, this`owner, this`cap, this`slots, this`nextSlot, this`made,
        this`cached, this`pfns, this`ctxs, this`freeIds, this`ptes, this`tables
      ensures Valid()
      ensures status == if Refused(va, pte, cur, pfnCount) then 0 else if Mapped(pte) && shareFree < SLACK then -1
        else 1
      ensures status == 0 <==>
        || va % 4096 != 0 || va < 4096 || va >= 0x8000_0000
        || (!(0x4000_0000 <= va < 0x6000_0000) && cur.None?)
        || (pte % 2 == 1 && Reads(pte) != 0 && (!Code(Reads(pte), Writes(pte)) || Pfn(pte) >= pfnCount))
      ensures status == 0 ==> cached == old(cached)
      ensures status != 1 ==> ptes == old(ptes) && tables == old(tables) && Less(old(cached), cached)
      ensures status == 1 ==> was == At(old(ptes), Whose(cur, va), va)
      ensures status == 1 ==> ptes == Written(old(ptes), old(tables), Whose(cur, va), va, pte)
      ensures status == 1 ==> Replaced(old(cached), cached, Whose(cur, va), cur, va)
      ensures status == 1 && Mapped(pte) && cur.Some? ==>
        forall m | 0 <= m < 4 && m in Ran() && CanRead(pte, m) :: Maps(cached, EntryOf(cur.value, m, va, pte))
    {
      hide Sound, Coherent, Unique, Housed, Tabled, Mapped, WellFormed, CanRead, EntryOf, Less, Replaced, Maps, Written,
           Code, Reads, Writes, Pfn;
      RefusedIs(va, pte, cur, pfnCount);
      was := 0;
      LessSelf(cached);
      if Refused(va, pte, cur, pfnCount) {
        status := 0;
        return;
      }
      if Mapped(pte) {
        var ok := Room(shareFree, shareSize);
        if !ok {
          status := -1;
          return;
        }
      }
      ghost var left := cached;
      was := Put(va, pte);
      ReplacedOf(old(cached), left, cached, Whose(cur, va), cur, va);
      status := 1;
    }

    // Whether there is an entry for the page, by its PFN's list.
    method Find(pfn: int, c: int, m: int, va: int) returns (found: bool)
      requires Sound(R()) && va % PAGE == 0 && 0 <= m < 4
      ensures found <==> exists id <- cached :: IsAt(cached[id], c, m, va) && cached[id].pfn == pfn
    {
      hide Sound, Forest, Separate, ListOf;
      ghost var ids, i := ListOf(pfns, pfn), 0;
      Forests(R());
      FirstOf(links, pfns, pfn);
      KeyParts(va, m);
      var p := links.At(Head(pfn));
      while p.Some?
        invariant 0 <= i <= |ids| && p == Lists.Entry(ids, i)
        invariant forall j | 0 <= j < i :: ids[j] in cached && !IsAt(cached[ids[j]], c, m, va)
        decreases |ids| - i
      {
        WalkNext(links, pfns, pfn, ids[..i], ids[i..]);
        assert ids == ids[..i] + ids[i..] && ids[i] in ids;
        ListSays(R(), pfn, p.value);
        RecordSays(R(), p.value);
        if key[p.value] == va + m && owner[p.value] == c {
          found := true;
          return;
        }
        p, i := links.next[p.value], i + 1;
      }
      found := false;
      forall id | id in cached && cached[id].pfn == pfn
        ensures !IsAt(cached[id], c, m, va)
      {
        RecordSays(R(), id);
        var j :| 0 <= j < |ids| && ids[j] == id;
      }
    }

    /** fill: a fault is answered by one more entry exactly when the access is allowed,
        the page has no entry for the mode and there is room; otherwise nothing is
        mapped that was not. */
    method Fill(m: int, address: int, write: bool, exec: bool, shareFree: int, shareSize: int) returns (filled: bool)
      requires Valid() && cur.Some? && 0 <= m < 4 && m in Ran()
      modifies this`links, this`clinks, this`free, this`key, this`owner, this`cap, this`slots, this`nextSlot, this`made,
        this`cached, this`pfns, this`ctxs, this`freeIds
      ensures Valid()
      ensures filled <==>
        && Permits(ptes, cur.value, m, PageOf(address), write, exec) && shareFree >= SLACK
        && !exists id <- old(cached) :: IsAt(old(cached)[id], cur.value, m, PageOf(address))
      ensures filled ==> Maps(cached, EntryOf(cur.value, m, PageOf(address), PteOf(ptes, cur.value, PageOf(address))))
      ensures forall id <- cached ::
        || (id in old(cached) && cached[id] == old(cached)[id])
        || (filled && IsAt(cached[id], cur.value, m, PageOf(address)))
    {
      hide Sound, Coherent, Unique, Housed, Tabled, Mapped, CanRead, CanWrite, FaultOnExecute, EntryOf, Less, Maps,
           IsAt, Pfn, Agrees, SamePlace;
      var va, c := PageOf(address), cur.value;
      var pte := PteOf(ptes, c, va);
      filled := false;
      PageAligned(address);
      if !Permits(ptes, c, m, va, write, exec) {
        return;
      }
      var found := Find(Pfn(pte), c, m, va);
      OnItsList(cached, ptes, c, m, va);
      if found {
        return;
      }
      var ok := Room(shareFree, shareSize);
      LessSays(old(cached), cached);
      if !ok {
        return;
      }
      ghost var was := cached;
      EntryPlace(c, m, va, pte);
      EntryAgrees(ptes, c, m, va, pte);
      var p := Cache(c, m, va, pte);
      StillAbsent(old(cached), was, EntryOf(c, m, va, pte));
      OneMore(was, ptes, p, EntryOf(c, m, va, pte));
      HousedMore(was, tables, hwpcb, entered, cur, p, EntryOf(c, m, va, pte));
      filled := true;
    }

    /** free_space: a deleted context's address spaces map nothing, and its P0
        and P1 have no PTEs. */
    method FreeSpace(c: int)
      requires Valid()
      modifies this`links, this`clinks, this`free, this`slots, this`cached, this`pfns, this`ctxs, this`freeIds,
        this`ptes, this`tables
      ensures Valid() && Only(old(cached), cached, c)
      ensures forall id <- cached :: cached[id].c != c
      ensures forall o, va :: At(ptes, o, va) == if o == Own(c) then 0 else At(old(ptes), o, va)
      ensures forall t <- tables :: t.0 != Own(c)
    {
      hide Sound, Coherent, Unique, Only, Tabled;
      UncacheAll(c);
      OnlySays(old(cached), cached, c);
      HousedFewer(old(cached), cached, tables, hwpcb, entered, cur);
      FewerMappings(old(cached), cached, ptes);
      Disowned(cached, ptes, c);
      TabledWithout(ptes, tables, c);
      ptes := map k | k in ptes && k.0 != Own(c) :: ptes[k];
      tables := set t | t in tables && t.0 != Own(c);
    }

    /** find_ctx: the first slot for the HWPCB; with 0, the first that is free. */
    method FindCtx(h: int) returns (c: Option<int>)
      ensures c.Some? ==> 0 <= c.value < |hwpcb| && hwpcb[c.value] == h && forall k | 0 <= k < c.value :: hwpcb[k] != h
      ensures c.None? ==> h !in hwpcb
    {
      for k := 0 to |hwpcb|
        invariant forall j | 0 <= j < k :: hwpcb[j] != h
      {
        if hwpcb[k] == h {
          return Some(k);
        }
      }
      c := None;
    }

    /** mode_thread: the mode has an address space from now on, empty at first. */
    method ModeThread(c: int, m: int)
      requires Valid()
      modifies this`entered
      ensures Valid() && c in entered && m in entered[c]
      ensures entered == old(entered)[c := (if c in old(entered) then old(entered)[c] else {}) + {m}]
    {
      hide Sound, Coherent, Unique, Housed, Tabled;
      ModeEntered(cached, tables, hwpcb, entered, cur, c, m);
      entered := entered[c := (if c in entered then entered[c] else {}) + {m}];
    }

    /** new_ctx: a slot for the HWPCB, a free one if there is one.  Whatever was in it
        before, it has no mapping and no P0 or P1. */
    method NewCtx(h: int) returns (c: int)
      requires Valid() && h != 0 && h !in hwpcb
      modifies this`hwpcb, this`entered
      ensures Valid() && InUse(hwpcb, c) && hwpcb[c] == h && !InUse(old(hwpcb), c)
      ensures hwpcb == if 0 in old(hwpcb) && 0 <= c < |old(hwpcb)| then old(hwpcb)[c := h] else old(hwpcb) + [h]
      ensures (forall id <- cached :: cached[id].c != c) && forall va :: At(ptes, Own(c), va) == 0
    {
      hide Sound, Coherent, Unique, Housed, Tabled, At;
      var slot := FindCtx(0);
      c := if slot.Some? then slot.value else |hwpcb|;
      ModeThread(c, 0);
      SlotTaken(cached, tables, hwpcb, entered, cur, c, h);
      NoTable(ptes, tables, c);
      hwpcb := if c < |hwpcb| then hwpcb[c := h] else hwpcb + [h];
    }

    /** swpctx, as to address spaces: the context of the HWPCB is current, made if there
        was none and its KSP can be read.  No mapping changes, and no PTE. */
    method Switch(h: int, ksp: bool) returns (ok: bool)
      requires Valid() && (ksp ==> h != 0)
      modifies this`cur, this`hwpcb, this`entered
      ensures Valid() && (ok <==> h != 0 && (h in old(hwpcb) || ksp))
      ensures ok ==> cur.Some? && InUse(hwpcb, cur.value) && hwpcb[cur.value] == h
      ensures !ok ==> cur == old(cur) && hwpcb == old(hwpcb) && entered == old(entered)
      ensures forall c | InUse(old(hwpcb), c) :: InUse(hwpcb, c) && hwpcb[c] == old(hwpcb)[c]
    {
      hide Sound, Coherent, Unique, Housed, Tabled, At;
      var to: Option<int> := None;
      if h != 0 {
        to := FindCtx(h);
      }
      if to.None? && ksp {
        var c := NewCtx(h);
        to := Some(c);
      }
      ok := to.Some?;
      if ok {
        Current(cached, tables, hwpcb, entered, cur, to.value);
        cur := to;
      }
    }

    /** DELCTX: refused of the current context; of another, nothing is left. */
    method Delete(h: int) returns (ok: bool)
      requires Valid()
      modifies this`links, this`clinks, this`free, this`slots, this`cached, this`pfns, this`ctxs, this`freeIds,
        this`ptes, this`tables, this`hwpcb
      ensures Valid() && (ok <==> !(h != 0 && cur.Some? && old(hwpcb)[cur.value] == h))
      ensures ok && h != 0 ==> h !in hwpcb
      ensures |hwpcb| == |old(hwpcb)|
      ensures forall c | 0 <= c < |hwpcb| && !(ok && h != 0 && old(hwpcb)[c] == h) :: hwpcb[c] == old(hwpcb)[c]
      ensures forall o, va ::
        At(ptes, o, va) == if ok && h != 0 && o.Own? && 0 <= o.c < |hwpcb| && old(hwpcb)[o.c] == h then 0
          else At(old(ptes), o, va)
      ensures Less(old(cached), cached)
    {
      hide Sound, Coherent, Unique, Housed, Tabled, At, Only, Less;
      HousedSays(cached, tables, hwpcb, entered, cur);
      LessSelf(cached);
      Named(cached, tables, hwpcb, entered, cur, h);
      var c: Option<int> := None;
      if h != 0 {
        c := FindCtx(h);
      }
      if c.None? {
        ok := true;
        return;
      }
      if c == cur {
        ok := false;
        return;
      }
      FreeSpace(c.value);
      OnlyLess(old(cached), cached, c.value);
      SlotFree(cached, tables, hwpcb, entered, cur, c.value);
      hwpcb := hwpcb[c.value := 0];
      ok := true;
    }

    /** Any of them; one that cannot come now does nothing. */
    method Serve(call: Call)
      requires Valid()
      modifies this
      ensures Valid()
      ensures forall c | InUse(old(hwpcb), c) && old(cur) != Some(c) && !Names(call, old(hwpcb)[c]) ::
        LeftAlone(old(hwpcb), old(ptes), hwpcb, cur, ptes, c)
    {
      hide Sound, Coherent, Unique, Housed, Tabled, At, Less, Replaced, Maps, Written, EntryOf, IsAt, Permits, Mapped,
           WellFormed, CanRead;
      HousedSays(cached, tables, hwpcb, entered, cur);
      match call {
        case WritePte(va, pte, shareFree, shareSize) =>
          var status, was := Wrpte(va, pte, shareFree, shareSize);
          forall c | InUse(hwpcb, c) && cur != Some(c)
            ensures LeftAlone(hwpcb, old(ptes), hwpcb, cur, ptes, c)
          {
            if status == 1 { WrittenElsewhere(old(ptes), old(tables), Whose(cur, va), va, pte, c); }
          }
        case Fault(m, address, write, exec, shareFree, shareSize) =>
          if cur.Some? && 0 <= m < 4 && m in Ran() {
            var filled := Fill(m, address, write, exec, shareFree, shareSize);
          }
        case EnterMode(m) =>
          if cur.Some? {
            ModeThread(cur.value, m);
          }
        case SwitchTo(h, ksp) =>
          if ksp ==> h != 0 {
            var ok := Switch(h, ksp);
          }
        case DeleteContext(h) =>
          var ok := Delete(h);
      }
    }

    /** Any calls in any order: the cache is coherent after all of them, and a context that
        was not current and that none of them names has the P0 and P1 it had. */
    method Run(calls: seq<Call>)
      requires Valid()
      modifies this
      ensures Valid()
      ensures forall c | InUse(old(hwpcb), c) && old(cur) != Some(c)
        && (forall k <- calls :: !Names(k, old(hwpcb)[c])) ::
        LeftAlone(old(hwpcb), old(ptes), hwpcb, cur, ptes, c)
    {
      hide Valid, At, Names;
      for i := 0 to |calls|
        invariant Valid()
        invariant forall c | InUse(old(hwpcb), c) && old(cur) != Some(c)
          && (forall k <- calls[..i] :: !Names(k, old(hwpcb)[c])) ::
          LeftAlone(old(hwpcb), old(ptes), hwpcb, cur, ptes, c)
      {
        ghost var hw, now, tabs := hwpcb, cur, ptes;
        Serve(calls[i]);
        assert calls[..i + 1] == calls[..i] + [calls[i]];
        forall c | InUse(old(hwpcb), c) && old(cur) != Some(c)
          && (forall k <- calls[..i + 1] :: !Names(k, old(hwpcb)[c]))
          ensures LeftAlone(old(hwpcb), old(ptes), hwpcb, cur, ptes, c)
        {
          assert forall k <- calls[..i] :: k in calls[..i + 1];
          assert calls[i] in calls[..i + 1];
          LeftOn(old(hwpcb), old(ptes), hw, now, tabs, hwpcb, cur, ptes, c);
        }
      }
      assert calls[..|calls|] == calls;
    }

    /** At boot nothing is mapped and no table is made. */
    constructor (frames: int)
      ensures Valid() && cached == map[] && ptes == map[] && cur == None && pfnCount == frames
    {
      pfnCount := frames;
      ptes, tables, cur, hwpcb, entered := map[], {}, None, [], map[];
      links, clinks := Links(map[], map[], map[]), Links(map[], map[], map[]);
      free, key, owner, cap, slots, nextSlot, made := None, map[], map[], map[], {}, 1, 0;
      cached, pfns, ctxs, freeIds := map[], map[], map[], [];
    }
  }
}
