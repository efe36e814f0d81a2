/** Directory files: records of names with their versions, sorted, in blocks.
    An update of one name's versions is worked out here as a plan of what to
    write; whichever plan it is, the records afterwards are those of the other
    names as they were and the name's own as edited. */
module Directory {
  import opened Wildcards

  const BLOCK := 512
  const MAX_RECORD := 510 // the block, less the -1 word that ends the records
  const FILL := 384
  const MAX_NAME := 236

  datatype Option<T> = None | Some(value: T)

  datatype Fid = Fid(num: int, seqno: int)

  datatype Entry = Entry(version: int, fid: Fid)

  /** A record: versions of one name, in descending order where it is readable. */
  datatype Rec = Rec(name: seq<Char16>, verlimit: int, flags: int, entries: seq<Entry>)

  /** A block's records, and the bytes after them when it was read. */
  datatype Block = Block(recs: seq<Rec>, tail: nat)

  // ---------------------------------------------------------------------
  // Directory order
  // ---------------------------------------------------------------------

  /** Case-blind, character by character. */
  function Cmp(a: seq<Char16>, b: seq<Char16>): int {
    if a == [] then (if b == [] then 0 else -1)
    else if b == [] then 1
    else if Upcase(a[0]) < Upcase(b[0]) then -1
    else if Upcase(a[0]) > Upcase(b[0]) then 1
    else Cmp(a[1..], b[1..])
  }

  // The same up to there, but for case.
  predicate AlikeTo(a: seq<Char16>, b: seq<Char16>, k: nat) {
    k <= |a| && k <= |b| && forall i | 0 <= i < k :: Upcase(a[i]) == Upcase(b[i])
  }

  // The one ends where the other goes on, or has the lower character there.
  predicate LessAt(a: seq<Char16>, b: seq<Char16>, k: nat) {
    AlikeTo(a, b, k) && k < |b| && (k == |a| || Upcase(a[k]) < Upcase(b[k]))
  }

  /** Names are in the order of their first characters that differ, case apart, and what ends
      comes before what goes on. */
  lemma {:induction false} CmpIs(a: seq<Char16>, b: seq<Char16>)
    ensures Cmp(a, b) == 0 <==> |a| == |b| && AlikeTo(a, b, |a|)
    ensures Cmp(a, b) < 0 <==> exists k: nat :: LessAt(a, b, k)
  {
    if a == [] {
      if b != [] { assert LessAt(a, b, 0); }
    } else if b != [] {
      CmpIs(a[1..], b[1..]);
      if Upcase(a[0]) < Upcase(b[0]) { assert LessAt(a, b, 0); }
      if Upcase(a[0]) == Upcase(b[0]) {
        AlikeRest(a, b, |a|);
        if k: nat :| LessAt(a[1..], b[1..], k) {
          AlikeRest(a, b, k + 1);
          assert LessAt(a, b, k + 1);
        }
        if k: nat :| LessAt(a, b, k) {
          AlikeRest(a, b, k);
          assert LessAt(a[1..], b[1..], k - 1);
        }
      }
    }
  }

  lemma AlikeRest(a: seq<Char16>, b: seq<Char16>, k: nat)
    requires a != [] && b != [] && Upcase(a[0]) == Upcase(b[0])
    ensures k > 0 ==> (AlikeTo(a, b, k) <==> AlikeTo(a[1..], b[1..], k - 1))
  {
    hide Upcase;
    if k > 0 && AlikeTo(a[1..], b[1..], k - 1) {
      forall i | 0 <= i < k
        ensures Upcase(a[i]) == Upcase(b[i])
      {
        if i > 0 { assert a[i] == a[1..][i - 1] && b[i] == b[1..][i - 1]; }
      }
    }
  }

  lemma {:induction false} CmpAnti(a: seq<Char16>, b: seq<Char16>)
    ensures Cmp(a, b) == 0 - Cmp(b, a) && Cmp(a, a) == 0
  {
    if a != [] { CmpAnti(a[1..], if b == [] then [] else b[1..]); }
  }

  lemma {:induction false} CmpTrans(a: seq<Char16>, b: seq<Char16>, c: seq<Char16>)
    ensures Cmp(a, b) <= 0 && Cmp(b, c) <= 0 ==> Cmp(a, c) <= 0
    ensures Cmp(a, b) == 0 ==> Cmp(a, c) == Cmp(b, c)
    ensures Cmp(a, b) < 0 && Cmp(b, c) <= 0 ==> Cmp(a, c) < 0
    ensures Cmp(a, b) <= 0 && Cmp(b, c) < 0 ==> Cmp(a, c) < 0
  {
    if a != [] && b != [] && c != [] { CmpTrans(a[1..], b[1..], c[1..]); }
  }

  // ---------------------------------------------------------------------
  // Sizes
  // ---------------------------------------------------------------------

  function Even(n: nat): nat { (n + 1) / 2 * 2 }

  function Size(r: Rec): nat { 6 + Even(|r.name|) + 8 * |r.entries| }

  function Used(recs: seq<Rec>): nat {
    if recs == [] then 0 else Size(recs[0]) + Used(recs[1..])
  }

  lemma {:induction false} UsedSplit(a: seq<Rec>, b: seq<Rec>)
    ensures Used(a + b) == Used(a) + Used(b)
  {
    if a == [] {
      assert a + b == b;
    } else {
      assert (a + b)[1..] == a[1..] + b;
      UsedSplit(a[1..], b);
    }
  }

  /** to_block: the records fit, or end where they did. */
  predicate Encodes(b: Block) {
    Used(b.recs) <= BLOCK && (b.tail == BLOCK - Used(b.recs) || Used(b.recs) <= MAX_RECORD)
  }

  // ---------------------------------------------------------------------
  // Records of a group
  // ---------------------------------------------------------------------

  /** The versions of one name. */
  datatype Group = Group(name: seq<Char16>, flags: int, verlimit: int, entries: seq<Entry>)

  function PerRecord(name: seq<Char16>): (n: nat)
    requires |name| <= MAX_NAME
    ensures 1 <= n && 6 + Even(|name|) + 8 * n <= MAX_RECORD
  {
    (MAX_RECORD - 6 - Even(|name|)) / 8
  }

  /** records: the group cut into as few records as can hold it. */
  function RecordsOf(g: Group): seq<Rec>
    requires |g.name| <= MAX_NAME
    decreases |g.entries|
  {
    var n := PerRecord(g.name);
    if g.entries == [] then []
    else if |g.entries| <= n then [Rec(g.name, g.verlimit, g.flags, g.entries)]
    else [Rec(g.name, g.verlimit, g.flags, g.entries[..n])] + RecordsOf(g.(entries := g.entries[n..]))
  }

  /** The versions a name has in a list of records. */
  function Entries(recs: seq<Rec>, name: seq<Char16>): seq<Entry> {
    if recs == [] then []
    else (if Cmp(recs[0].name, name) == 0 then recs[0].entries else []) + Entries(recs[1..], name)
  }

  lemma {:induction false} EntriesSplit(a: seq<Rec>, b: seq<Rec>, name: seq<Char16>)
    ensures Entries(a + b, name) == Entries(a, name) + Entries(b, name)
  {
    if a == [] {
      assert a + b == b;
    } else {
      assert (a + b)[1..] == a[1..] + b;
      EntriesSplit(a[1..], b, name);
    }
  }

  /** A group's records are its own, hold its versions and no others, and each
      fits a block. */
  lemma {:induction false} RecordsHold(g: Group)
    requires |g.name| <= MAX_NAME
    ensures forall r <- RecordsOf(g) :: r.entries != [] && Size(r) <= MAX_RECORD
    ensures forall r <- RecordsOf(g) :: r.name == g.name && r.verlimit == g.verlimit && r.flags == g.flags
    ensures Entries(RecordsOf(g), g.name) == g.entries
    decreases |g.entries|
  {
    CmpAnti(g.name, g.name);
    var n := PerRecord(g.name);
    if |g.entries| > n {
      var more := g.(entries := g.entries[n..]);
      RecordsHold(more);
      var first := Rec(g.name, g.verlimit, g.flags, g.entries[..n]);
      assert ([first] + RecordsOf(more))[1..] == RecordsOf(more);
      assert g.entries[..n] + g.entries[n..] == g.entries;
    } else if g.entries != [] {
      var first := Rec(g.name, g.verlimit, g.flags, g.entries);
      assert [first][1..] == [];
      assert g.entries + [] == g.entries;
    }
  }

  // ---------------------------------------------------------------------
  // Below, equal and above
  // ---------------------------------------------------------------------

  function Flat(blocks: seq<Block>): seq<Rec> {
    if blocks == [] then [] else blocks[0].recs + Flat(blocks[1..])
  }

  lemma {:induction false} FlatSplit(a: seq<Block>, b: seq<Block>)
    ensures Flat(a + b) == Flat(a) + Flat(b)
  {
    if a == [] {
      assert a + b == b;
    } else {
      assert (a + b)[1..] == a[1..] + b;
      FlatSplit(a[1..], b);
    }
  }

  lemma FlatOne(b: Block)
    ensures Flat([b]) == b.recs
  {
    assert [b][1..] == [];
  }

  // A block among the others.
  lemma FlatAround(blocks: seq<Block>, b: nat, now: Block)
    requires b < |blocks|
    ensures Flat(blocks) == Flat(blocks[..b]) + blocks[b].recs + Flat(blocks[b + 1..])
    ensures Flat(blocks[b := now]) == Flat(blocks[..b]) + now.recs + Flat(blocks[b + 1..])
  {
    hide Flat;
    assert blocks == blocks[..b] + [blocks[b]] + blocks[b + 1..];
    assert blocks[b := now] == blocks[..b] + [now] + blocks[b + 1..];
    FlatSplit(blocks[..b] + [blocks[b]], blocks[b + 1..]);
    FlatSplit(blocks[..b], [blocks[b]]);
    FlatSplit(blocks[..b] + [now], blocks[b + 1..]);
    FlatSplit(blocks[..b], [now]);
    FlatOne(blocks[b]);
    FlatOne(now);
  }

  ghost predicate Sorted(recs: seq<Rec>) {
    forall i, j | 0 <= i < j < |recs| :: Cmp(recs[i].name, recs[j].name) <= 0
  }

  predicate AllBelow(recs: seq<Rec>, name: seq<Char16>) { forall r <- recs :: Cmp(r.name, name) < 0 }

  predicate AllEqual(recs: seq<Rec>, name: seq<Char16>) { forall r <- recs :: Cmp(r.name, name) == 0 }

  predicate AllAbove(recs: seq<Rec>, name: seq<Char16>) { forall r <- recs :: Cmp(r.name, name) > 0 }

  predicate NoneEqual(recs: seq<Rec>, name: seq<Char16>) { forall r <- recs :: Cmp(r.name, name) != 0 }

  predicate NoneAbove(recs: seq<Rec>, name: seq<Char16>) { forall r <- recs :: Cmp(r.name, name) <= 0 }

  function Below(recs: seq<Rec>, name: seq<Char16>): seq<Rec> {
    if recs == [] then [] else (if Cmp(recs[0].name, name) < 0 then [recs[0]] else []) + Below(recs[1..], name)
  }

  function Above(recs: seq<Rec>, name: seq<Char16>): seq<Rec> {
    if recs == [] then [] else (if Cmp(recs[0].name, name) > 0 then [recs[0]] else []) + Above(recs[1..], name)
  }

  /** retain: the records of other names. */
  function Others(recs: seq<Rec>, name: seq<Char16>): seq<Rec> {
    if recs == [] then [] else (if Cmp(recs[0].name, name) != 0 then [recs[0]] else []) + Others(recs[1..], name)
  }

  lemma {:induction false} BelowSplit(a: seq<Rec>, b: seq<Rec>, name: seq<Char16>)
    ensures Below(a + b, name) == Below(a, name) + Below(b, name)
  {
    hide Cmp;
    if a == [] {
      assert a + b == b;
    } else {
      assert (a + b)[1..] == a[1..] + b;
      BelowSplit(a[1..], b, name);
    }
  }

  lemma {:induction false} AboveSplit(a: seq<Rec>, b: seq<Rec>, name: seq<Char16>)
    ensures Above(a + b, name) == Above(a, name) + Above(b, name)
  {
    hide Cmp;
    if a == [] {
      assert a + b == b;
    } else {
      assert (a + b)[1..] == a[1..] + b;
      AboveSplit(a[1..], b, name);
    }
  }

  lemma {:induction false} OthersSplit(a: seq<Rec>, b: seq<Rec>, name: seq<Char16>)
    ensures Others(a + b, name) == Others(a, name) + Others(b, name)
  {
    hide Cmp;
    if a == [] {
      assert a + b == b;
    } else {
      assert (a + b)[1..] == a[1..] + b;
      OthersSplit(a[1..], b, name);
    }
  }

  lemma {:induction false} PartsOf(recs: seq<Rec>, name: seq<Char16>)
    ensures AllBelow(recs, name) ==> Below(recs, name) == recs && Above(recs, name) == [] && Others(recs, name) == recs
    ensures AllEqual(recs, name) ==> Below(recs, name) == [] && Above(recs, name) == [] && Others(recs, name) == []
    ensures AllAbove(recs, name) ==> Below(recs, name) == [] && Above(recs, name) == recs && Others(recs, name) == recs
  {
    if recs != [] {
      assert recs == [recs[0]] + recs[1..];
      PartsOf(recs[1..], name);
    }
  }

  /** Records in three parts: below the name, its own, and above it. */
  lemma Parts(x: seq<Rec>, e: seq<Rec>, y: seq<Rec>, name: seq<Char16>)
    requires AllBelow(x, name) && AllEqual(e, name) && AllAbove(y, name)
    ensures Below(x + e + y, name) == x && Above(x + e + y, name) == y && Others(x + e + y, name) == x + y
  {
    hide Below, Above, Others, Cmp;
    BelowSplit(x + e, y, name);
    BelowSplit(x, e, name);
    AboveSplit(x + e, y, name);
    AboveSplit(x, e, name);
    OthersSplit(x + e, y, name);
    OthersSplit(x, e, name);
    PartsOf(x, name);
    PartsOf(e, name);
    PartsOf(y, name);
  }

  // In sorted records, what comes before one that is not below the name...
  lemma BeforeIt(recs: seq<Rec>, name: seq<Char16>, i: nat)
    requires Sorted(recs) && i < |recs|
    ensures Cmp(recs[i].name, name) <= 0 ==> NoneAbove(recs[..i], name)
    ensures Cmp(recs[i].name, name) < 0 ==> AllBelow(recs[..i], name)
    ensures Cmp(recs[i].name, name) >= 0 ==> forall r <- recs[i..] :: Cmp(r.name, name) >= 0
    ensures Cmp(recs[i].name, name) > 0 ==> AllAbove(recs[i..], name)
  {
    forall j | 0 <= j < i
      ensures Cmp(recs[i].name, name) <= 0 ==> Cmp(recs[j].name, name) <= 0
      ensures Cmp(recs[i].name, name) < 0 ==> Cmp(recs[j].name, name) < 0
    {
      assert Cmp(recs[j].name, recs[i].name) <= 0;
      CmpTrans(recs[j].name, recs[i].name, name);
    }
    forall j | i <= j < |recs|
      ensures Cmp(recs[i].name, name) >= 0 ==> Cmp(recs[j].name, name) >= 0
      ensures Cmp(recs[i].name, name) > 0 ==> Cmp(recs[j].name, name) > 0
    {
      CmpAnti(recs[j].name, name);
      CmpAnti(recs[i].name, name);
      if i < j { assert Cmp(recs[i].name, recs[j].name) <= 0; } else { CmpAnti(recs[i].name, recs[i].name); }
      CmpTrans(name, recs[i].name, recs[j].name);
    }
  }

  // ---------------------------------------------------------------------
  // Where a name is
  // ---------------------------------------------------------------------

  /** The records before the i-th of block b. */
  function Until(blocks: seq<Block>, b: nat, i: nat): seq<Rec>
    requires b < |blocks| && i <= |blocks[b].recs|
  {
    Flat(blocks[..b]) + blocks[b].recs[..i]
  }

  predicate IsPlace(blocks: seq<Block>, p: (nat, nat)) {
    p.0 < |blocks| && p.1 < |blocks[p.0].recs|
  }

  function At(blocks: seq<Block>, p: (nat, nat)): Rec
    requires IsPlace(blocks, p)
  {
    blocks[p.0].recs[p.1]
  }

  // The first record of the name among those seen.
  ghost predicate FirstEqual(blocks: seq<Block>, name: seq<Char16>, p: (nat, nat)) {
    IsPlace(blocks, p) && Cmp(At(blocks, p).name, name) == 0 && NoneEqual(Until(blocks, p.0, p.1), name)
  }

  ghost predicate FirstAbove(blocks: seq<Block>, name: seq<Char16>, p: (nat, nat)) {
    IsPlace(blocks, p) && Cmp(At(blocks, p).name, name) > 0 && NoneAbove(Until(blocks, p.0, p.1), name)
  }

  // No block after a has the name, up to the i-th record of block b.
  ghost predicate NoneLater(blocks: seq<Block>, name: seq<Char16>, a: nat, b: nat, i: nat)
    requires b < |blocks| && i <= |blocks[b].recs|
  {
    && (forall c | a < c < b :: NoneEqual(blocks[c].recs, name))
    && (a < b ==> NoneEqual(blocks[b].recs[..i], name))
  }

  // What the search knows of the records before the i-th of block b: the first
  // of the name, whether those of the name are all in its block, and the first
  // above it.
  ghost predicate Searched(blocks: seq<Block>, name: seq<Char16>, b: nat, i: nat, at: Option<(nat, nat)>, same: bool,
                           insert: Option<(nat, nat)>)
    requires b < |blocks| && i <= |blocks[b].recs|
  {
    && (at.None? ==> NoneEqual(Until(blocks, b, i), name) && same)
    && (at.Some? ==> FirstEqual(blocks, name, at.value) && at.value.0 <= b && |Entries(Until(blocks, b, i), name)| >= 1)
    && (!same ==> |Entries(Until(blocks, b, i), name)| >= 2 && at.Some? && at.value.0 < b)
    && (at.Some? ==> (same <==> NoneLater(blocks, name, at.value.0, b, i)))
    && (insert.None? ==> NoneAbove(Until(blocks, b, i), name))
    && (insert.Some? ==> FirstAbove(blocks, name, insert.value))
  }

  lemma UntilMore(blocks: seq<Block>, b: nat, i: nat)
    requires b < |blocks| && i < |blocks[b].recs|
    ensures Until(blocks, b, i + 1) == Until(blocks, b, i) + [blocks[b].recs[i]]
  {
    assert blocks[b].recs[..i + 1] == blocks[b].recs[..i] + [blocks[b].recs[i]];
  }

  lemma UntilNext(blocks: seq<Block>, b: nat)
    requires b + 1 < |blocks|
    ensures Until(blocks, b + 1, 0) == Until(blocks, b, |blocks[b].recs|)
  {
    hide Flat;
    assert blocks[..b + 1] == blocks[..b] + [blocks[b]];
    FlatSplit(blocks[..b], [blocks[b]]);
    FlatOne(blocks[b]);
    assert blocks[b].recs[..|blocks[b].recs|] == blocks[b].recs;
  }

  // One record more.
  lemma SearchedMore(blocks: seq<Block>, name: seq<Char16>, b: nat, i: nat, at: Option<(nat, nat)>, same: bool,
                     insert: Option<(nat, nat)>)
    requires b < |blocks| && i < |blocks[b].recs| && Searched(blocks, name, b, i, at, same, insert)
    requires blocks[b].recs[i].entries != []
    ensures var order := Cmp(blocks[b].recs[i].name, name);
      Searched(blocks, name, b, i + 1, if order == 0 && at.None? then Some((b, i)) else at,
               if order == 0 && at.Some? then same && at.value.0 == b else same,
               if order > 0 && insert.None? then Some((b, i)) else insert)
  {
    hide Until, Cmp, Entries;
    UntilMore(blocks, b, i);
    EntriesSplit(Until(blocks, b, i), [blocks[b].recs[i]], name);
    EntriesOne(blocks[b].recs[i], name);
    assert blocks[b].recs[..i + 1] == blocks[b].recs[..i] + [blocks[b].recs[i]];
  }

  lemma EntriesOne(r: Rec, name: seq<Char16>)
    ensures Entries([r], name) == if Cmp(r.name, name) == 0 then r.entries else []
  {
    assert [r][1..] == [];
  }

  lemma SearchedNext(blocks: seq<Block>, name: seq<Char16>, b: nat, at: Option<(nat, nat)>, same: bool,
                     insert: Option<(nat, nat)>)
    requires b + 1 < |blocks| && Searched(blocks, name, b, |blocks[b].recs|, at, same, insert)
    ensures Searched(blocks, name, b + 1, 0, at, same, insert)
  {
    hide Until, Cmp;
    UntilNext(blocks, b);
    assert blocks[b].recs[..|blocks[b].recs|] == blocks[b].recs;
  }

  /** A place in one block to edit the name's records at, or that there is none. */
  method Search(blocks: seq<Block>, name: seq<Char16>)
    returns (at: Option<(nat, nat)>, same: bool, insert: Option<(nat, nat)>)
    requires blocks != [] && forall b <- blocks, r <- b.recs :: r.entries != []
    ensures Searched(blocks, name, |blocks| - 1, |blocks[|blocks| - 1].recs|, at, same, insert)
  {
    hide Searched, Cmp;
    at, same, insert := None, true, None;
    SearchedNone(blocks, name);
    for b := 0 to |blocks|
      invariant b < |blocks| ==> Searched(blocks, name, b, 0, at, same, insert)
      invariant b == |blocks| ==> Searched(blocks, name, b - 1, |blocks[b - 1].recs|, at, same, insert)
    {
      for i := 0 to |blocks[b].recs|
        invariant Searched(blocks, name, b, i, at, same, insert)
      {
        assert blocks[b] in blocks && blocks[b].recs[i] in blocks[b].recs;
        SearchedMore(blocks, name, b, i, at, same, insert);
        var order := Cmp(blocks[b].recs[i].name, name);
        if order == 0 {
          if at.None? {
            at := Some((b, i));
          } else {
            same := same && at.value.0 == b;
          }
        } else if order > 0 && insert.None? {
          insert := Some((b, i));
        }
      }
      if b + 1 < |blocks| {
        SearchedNext(blocks, name, b, at, same, insert);
      }
    }
  }

  lemma SearchedNone(blocks: seq<Block>, name: seq<Char16>)
    requires blocks != []
    ensures Searched(blocks, name, 0, 0, None, true, None)
  {
  }

  // ---------------------------------------------------------------------
  // Splitting a directory at a name
  // ---------------------------------------------------------------------

  // The records before a place are below the name, those after it in its block
  // are not, and those of the blocks after are above it.
  ghost predicate SplitsAt(blocks: seq<Block>, name: seq<Char16>, b: nat, i: nat) {
    && b < |blocks| && i <= |blocks[b].recs|
    && AllBelow(Until(blocks, b, i), name)
    && (forall r <- blocks[b].recs[i..] :: Cmp(r.name, name) >= 0)
    && AllAbove(Flat(blocks[b + 1..]), name)
  }

  lemma FlatAt(blocks: seq<Block>, b: nat, i: nat)
    requires b < |blocks| && i <= |blocks[b].recs|
    ensures Flat(blocks) == Until(blocks, b, i) + blocks[b].recs[i..] + Flat(blocks[b + 1..])
  {
    hide Flat;
    FlatAround(blocks, b, blocks[b]);
    assert blocks[b].recs == blocks[b].recs[..i] + blocks[b].recs[i..];
    var x, y, z, w := Flat(blocks[..b]), blocks[b].recs[..i], blocks[b].recs[i..], Flat(blocks[b + 1..]);
    assert x + (y + z) + w == (x + y) + z + w;
  }

  // What sorting says of the records around one of them.
  lemma AroundPlace(blocks: seq<Block>, name: seq<Char16>, p: (nat, nat))
    requires Sorted(Flat(blocks)) && IsPlace(blocks, p)
    ensures Cmp(At(blocks, p).name, name) <= 0 ==> NoneAbove(Until(blocks, p.0, p.1), name)
    ensures Cmp(At(blocks, p).name, name) >= 0 ==>
      (forall r <- blocks[p.0].recs[p.1..] ::
         Cmp(r.name, name) >= 0) && (forall r <- Flat(blocks[p.0 + 1..]) :: Cmp(r.name, name) >= 0)
    ensures Cmp(At(blocks, p).name, name) > 0 ==>
      AllAbove(blocks[p.0].recs[p.1..], name) && AllAbove(Flat(blocks[p.0 + 1..]), name)
  {
    hide Flat, Cmp, Until;
    FlatAt(blocks, p.0, p.1);
    var x, z, w := Until(blocks, p.0, p.1), blocks[p.0].recs[p.1..], Flat(blocks[p.0 + 1..]);
    var f := Flat(blocks);
    assert f[|x|] == z[0] == At(blocks, p);
    BeforeIt(f, name, |x|);
    assert f[..|x|] == x && f[|x|..] == z + w;
  }

  lemma {:induction false} NoneIn(blocks: seq<Block>, name: seq<Char16>)
    requires forall c | 0 <= c < |blocks| :: NoneEqual(blocks[c].recs, name)
    ensures NoneEqual(Flat(blocks), name)
  {
    if blocks != [] {
      assert forall c | 0 <= c < |blocks[1..]| :: blocks[1..][c] == blocks[c + 1];
      NoneIn(blocks[1..], name);
    }
  }

  /** The place an update goes: the name's first record, the first above it or
      the end. */
  function PlaceOf(blocks: seq<Block>, at: Option<(nat, nat)>, insert: Option<(nat, nat)>): (nat, nat)
    requires blocks != []
  {
    if at.Some? then at.value else if insert.Some? then insert.value else (|blocks| - 1, |blocks[|blocks| - 1].recs|)
  }

  lemma PlaceSplits(blocks: seq<Block>, name: seq<Char16>, at: Option<(nat, nat)>, same: bool,
                    insert: Option<(nat, nat)>)
    requires blocks != [] && Sorted(Flat(blocks)) && same
    requires Searched(blocks, name, |blocks| - 1, |blocks[|blocks| - 1].recs|, at, same, insert)
    ensures SplitsAt(blocks, name, PlaceOf(blocks, at, insert).0, PlaceOf(blocks, at, insert).1)
    ensures at.None? ==> NoneEqual(Flat(blocks), name)
    ensures at.None? && insert.None? ==> AllBelow(Flat(blocks), name)
  {
    hide Flat, Cmp;
    var n := |blocks| - 1;
    assert blocks[n].recs[..|blocks[n].recs|] == blocks[n].recs;
    WholeFlat(blocks);
    if at.Some? {
      var p := at.value;
      AroundPlace(blocks, name, p);
      LaterNone(blocks, name, p.0);
    } else if insert.Some? {
      var p := insert.value;
      AroundPlace(blocks, name, p);
      FlatAt(blocks, p.0, p.1);
    } else {
      FlatNone();
      assert blocks[n + 1..] == [];
    }
  }

  lemma FlatNone()
    ensures Flat([]) == []
  {
  }

  lemma WholeFlat(blocks: seq<Block>)
    requires blocks != []
    ensures var n := |blocks| - 1; Until(blocks, n, |blocks[n].recs|) == Flat(blocks)
  {
    hide Flat;
    var n := |blocks| - 1;
    FlatAt(blocks, n, |blocks[n].recs|);
    assert blocks[n + 1..] == [] && blocks[n].recs[|blocks[n].recs|..] == [];
    FlatNone();
  }

  lemma LaterNone(blocks: seq<Block>, name: seq<Char16>, b: nat)
    requires b < |blocks| && forall c | b < c < |blocks| - 1 :: NoneEqual(blocks[c].recs, name)
    requires b < |blocks| - 1 ==> NoneEqual(blocks[|blocks| - 1].recs, name)
    ensures NoneEqual(Flat(blocks[b + 1..]), name)
  {
    var later := blocks[b + 1..];
    assert forall c | 0 <= c < |later| :: later[c] == blocks[b + 1 + c];
    NoneIn(later, name);
  }

  // ---------------------------------------------------------------------
  // Editing
  // ---------------------------------------------------------------------

  /** The records with the name's replaced. */
  function Edited(recs: seq<Rec>, name: seq<Char16>, rs: seq<Rec>): seq<Rec> {
    Below(recs, name) + rs + Above(recs, name)
  }

  lemma {:induction false} OthersAbove(recs: seq<Rec>, name: seq<Char16>)
    requires forall r <- recs :: Cmp(r.name, name) >= 0
    ensures Others(recs, name) == Above(recs, name) && Below(recs, name) == [] && AllAbove(Above(recs, name), name)
  {
    hide Cmp;
    if recs != [] { OthersAbove(recs[1..], name); }
  }

  /** retain, then splice: one block takes the name's records in place of those
      it had. */
  lemma Spliced(blocks: seq<Block>, name: seq<Char16>, b: nat, i: nat, rs: seq<Rec>)
    requires SplitsAt(blocks, name, b, i)
    ensures |Others(blocks[b].recs, name)| >= i
    ensures var kept := Others(blocks[b].recs, name);
      && Flat(blocks[b := Block(kept[..i] + rs + kept[i..], blocks[b].tail)]) == Edited(Flat(blocks), name, rs)
      && kept[..i] + rs + kept[i..] == Edited(blocks[b].recs, name, rs)
  {
    hide Flat, Cmp, Below, Above, Others;
    var head, z, later := blocks[b].recs[..i], blocks[b].recs[i..], Flat(blocks[b + 1..]);
    var x := Until(blocks, b, i);
    var kept := Others(blocks[b].recs, name);
    assert blocks[b].recs == head + z;
    OthersSplit(head, z, name);
    assert AllBelow(head, name);
    PartsOf(head, name);
    OthersAbove(z, name);
    assert kept == head + Above(z, name) && kept[..i] == head && kept[i..] == Above(z, name);
    BelowSplit(head, z, name);
    AboveSplit(head, z, name);
    FlatAt(blocks, b, i);
    BelowSplit(x + z, later, name);
    BelowSplit(x, z, name);
    AboveSplit(x + z, later, name);
    AboveSplit(x, z, name);
    PartsOf(x, name);
    PartsOf(later, name);
    var now := Block(kept[..i] + rs + kept[i..], blocks[b].tail);
    FlatAround(blocks, b, now);
    Regroup(Flat(blocks[..b]), head, rs, Above(z, name), later);
  }

  lemma Regroup(a: seq<Rec>, b: seq<Rec>, c: seq<Rec>, d: seq<Rec>, e: seq<Rec>)
    ensures a + (b + c + d) + e == (a + b) + c + (d + e)
  {
  }

  // ---------------------------------------------------------------------
  // Packing
  // ---------------------------------------------------------------------

  lemma SizeEven(r: Rec)
    ensures Size(r) % 2 == 0
  {
  }

  lemma UsedOne(r: Rec)
    ensures Used([r]) == Size(r)
  {
    assert [r][1..] == [];
  }

  // Where a block is ended before the next record.
  predicate Full(cur: seq<Rec>, r: Rec) {
    cur != [] && (Used(cur) + Size(r) > FILL || Used(cur) + Size(r) > MAX_RECORD)
  }

  // The blocks for the rest of the records, after those already in the first of them.
  function PackFrom(cur: seq<Rec>, rest: seq<Rec>): seq<Block>
    decreases |rest|
  {
    if rest == [] then [Block(cur, 0)]
    else if Full(cur, rest[0]) then [Block(cur, 0)] + PackFrom([rest[0]], rest[1..])
    else PackFrom(cur + [rest[0]], rest[1..])
  }

  /** The records one after another, a block ended before it is too full. */
  function Packed(all: seq<Rec>): seq<Block> { PackFrom([], all) }

  /** pack: the records given, in order and none lost, in blocks that can each be
      written. */
  method Pack(all: seq<Rec>) returns (out: seq<Block>)
    requires forall r <- all :: Size(r) <= BLOCK
    ensures Flat(out) == all && out != [] && out == Packed(all) && forall b <- out :: Encodes(b)
  {
    hide Flat, Used, Size;
    out := [];
    var cur: seq<Rec> := [];
    FlatNone();
    UsedNone();
    assert all[0..] == all;
    for k := 0 to |all|
      invariant Flat(out) + cur == all[..k] && out + PackFrom(cur, all[k..]) == Packed(all)
      invariant (forall b <- out :: Encodes(b)) && Encodes(Block(cur, 0))
    {
      var r := all[k];
      assert all[..k + 1] == all[..k] + [r] && r in all;
      assert all[k..][1..] == all[k + 1..] && all[k..][0] == r;
      SizeEven(r);
      UsedOne(r);
      UsedSplit(cur, [r]);
      if Full(cur, r) {
        FlatSplit(out, [Block(cur, 0)]);
        FlatOne(Block(cur, 0));
        out, cur := out + [Block(cur, 0)], [r];
      } else {
        assert cur == [] ==> cur + [r] == [r];
        cur := cur + [r];
      }
    }
    FlatSplit(out, [Block(cur, 0)]);
    FlatOne(Block(cur, 0));
    assert all[..|all|] == all;
    out := out + [Block(cur, 0)];
  }

  lemma UsedNone()
    ensures Used([]) == 0
  {
  }

  // dir_rewrite's own way: the name's records out, the new ones before the
  // first that is above.
  method Merge(all: seq<Rec>, name: seq<Char16>, rs: seq<Rec>) returns (r: seq<Rec>)
    requires Sorted(all)
    ensures r == Edited(all, name, rs)
  {
    hide Cmp, Below, Above, Others;
    var kept := Others(all, name);
    KeptAt(all, name);
    var pos := 0;
    while pos < |kept| && Cmp(kept[pos].name, name) <= 0
      invariant 0 <= pos <= |kept| && pos <= |Below(all, name)|
    {
      pos := pos + 1;
    }
    r := kept[..pos] + rs + kept[pos..];
  }

  lemma KeptAt(all: seq<Rec>, name: seq<Char16>)
    requires Sorted(all)
    ensures Others(all, name) == Below(all, name) + Above(all, name)
    ensures forall i | 0 <= i < |Others(all, name)| ::
      if i < |Below(all, name)| then Cmp(Others(all, name)[i].name, name) < 0
        else Cmp(Others(all, name)[i].name, name) > 0
  {
    hide Cmp, Below, Above, Others, Same;
    SortedParts(all, name);
    OthersParts(all, name);
    var b, a := Below(all, name), Above(all, name);
    var both: seq<Rec> := b + a;
    forall i | 0 <= i < |both|
      ensures if i < |b| then Cmp(both[i].name, name) < 0 else Cmp(both[i].name, name) > 0
    {
      if i < |b| { assert both[i] == b[i] && b[i] in b; } else { assert both[i] == a[i - |b|] && a[i - |b|] in a; }
    }
  }

  function Same(recs: seq<Rec>, name: seq<Char16>): seq<Rec> {
    if recs == [] then [] else (if Cmp(recs[0].name, name) == 0 then [recs[0]] else []) + Same(recs[1..], name)
  }

  lemma {:induction false} PartsMembers(recs: seq<Rec>, name: seq<Char16>)
    ensures AllBelow(Below(recs, name), name) && AllEqual(Same(recs, name), name) && AllAbove(Above(recs, name), name)
  {
    hide Cmp;
    if recs != [] { PartsMembers(recs[1..], name); }
  }

  /** Sorted records are those below a name, its own and those above it. */
  lemma {:induction false} SortedParts(recs: seq<Rec>, name: seq<Char16>)
    requires Sorted(recs)
    ensures recs == Below(recs, name) + Same(recs, name) + Above(recs, name)
    ensures AllBelow(Below(recs, name), name) && AllEqual(Same(recs, name), name) && AllAbove(Above(recs, name), name)
  {
    hide Cmp, Below, Same, Above, Sorted, AllBelow, AllEqual, AllAbove;
    PartsStart(recs, name);
    PartsMembers(recs, name);
    if recs != [] {
      var r, rest := recs[0], recs[1..];
      SortedRest(recs, name);
      SortedParts(rest, name);
      Joins(r, Below(rest, name), Same(rest, name), Above(rest, name));
      if Cmp(r.name, name) >= 0 { OthersAbove(rest, name); }
      if Cmp(r.name, name) > 0 { NoSame(rest, name); }
      assert recs == [r] + rest;
    }
  }

  lemma Joins(r: Rec, b: seq<Rec>, s: seq<Rec>, a: seq<Rec>)
    ensures [r] + (b + s + a) == ([r] + b) + ([] + s) + ([] + a)
    ensures [r] + ([] + s + a) == ([] + []) + ([r] + s) + ([] + a)
    ensures [r] + ([] + [] + a) == ([] + []) + ([] + []) + ([r] + a)
  {
  }

  lemma SortedRest(recs: seq<Rec>, name: seq<Char16>)
    requires Sorted(recs) && recs != []
    ensures Sorted(recs[1..])
    ensures Cmp(recs[0].name, name) >= 0 ==> forall r <- recs[1..] :: Cmp(r.name, name) >= 0
    ensures Cmp(recs[0].name, name) > 0 ==> AllAbove(recs[1..], name)
  {
    hide Cmp;
    BeforeIt(recs, name, 0);
    assert recs[0..] == recs;
    assert forall q <- recs[1..] :: q in recs;
  }

  lemma PartsStart(recs: seq<Rec>, name: seq<Char16>)
    ensures recs == [] ==> Below(recs, name) == [] && Same(recs, name) == [] && Above(recs, name) == []
    ensures recs != [] ==> var order, one := Cmp(recs[0].name, name), [recs[0]];
      && Below(recs, name) == (if order < 0 then one else []) + Below(recs[1..], name)
      && Same(recs, name) == (if order == 0 then one else []) + Same(recs[1..], name)
      && Above(recs, name) == (if order > 0 then one else []) + Above(recs[1..], name)
  {
  }

  lemma {:induction false} NoSame(recs: seq<Rec>, name: seq<Char16>)
    requires AllAbove(recs, name)
    ensures Same(recs, name) == []
  {
    hide Cmp;
    if recs != [] { NoSame(recs[1..], name); }
  }

  lemma OthersParts(recs: seq<Rec>, name: seq<Char16>)
    requires Sorted(recs)
    ensures Others(recs, name) == Below(recs, name) + Above(recs, name)
  {
    hide Cmp, Below, Above, Same, Others;
    SortedParts(recs, name);
    Parts(Below(recs, name), Same(recs, name), Above(recs, name), name);
  }

  // ---------------------------------------------------------------------
  // Plans
  // ---------------------------------------------------------------------

  /** What an update writes: one block; the end of file, before the last block;
      one block more; or all of it, to a new place. */
  datatype Plan =
    | InPlace(b: nat, blk: Block)
    | CutLast
    | AppendBlock(blk: Block)
    | Rewrite(blocks: seq<Block>)

  predicate Applies(blocks: seq<Block>, plan: Plan) {
    (plan.InPlace? ==> plan.b < |blocks|) && (plan.CutLast? ==> blocks != [])
  }

  function After(blocks: seq<Block>, plan: Plan): seq<Block>
    requires Applies(blocks, plan)
  {
    match plan
    case InPlace(b, blk) => blocks[b := blk]
    case CutLast => blocks[..|blocks| - 1]
    case AppendBlock(blk) => blocks + [blk]
    case Rewrite(all) => all
  }

  /** Several blocks have records of the name. */
  predicate Across(blocks: seq<Block>, name: seq<Char16>) {
    exists b, c | 0 <= b < c < |blocks| :: !NoneEqual(blocks[b].recs, name) && !NoneEqual(blocks[c].recs, name)
  }

  /** The first block with a record that is not below the name, or the last. */
  function Where(blocks: seq<Block>, name: seq<Char16>): (b: nat)
    requires blocks != []
    ensures b < |blocks| && (b == |blocks| - 1 || !AllBelow(blocks[b].recs, name))
    ensures forall c | 0 <= c < b :: AllBelow(blocks[c].recs, name)
  {
    if |blocks| == 1 || !AllBelow(blocks[0].recs, name) then 0
    else
      assert forall c | 0 <= c < |blocks| - 1 :: blocks[1..][c] == blocks[c + 1];
      1 + Where(blocks[1..], name)
  }

  /** How the name's new records are written: in the one block they belong in if they fit
      there, as a last block of their own after all others where there is room for one,
      and else all of it anew. */
  function PlanFor(blocks: seq<Block>, name: seq<Char16>, rs: seq<Rec>, room: bool): Plan {
    var all := Rewrite(Packed(Edited(Flat(blocks), name, rs)));
    if blocks == [] || Across(blocks, name) then all
    else
      var b, last := Where(blocks, name), |blocks| - 1;
      var blk := Block(Edited(blocks[b].recs, name, rs), blocks[b].tail);
      if Encodes(blk) then if blk.recs != [] || last == 0 then InPlace(b, blk) else if b == last then CutLast else all
      else if room && AllBelow(Flat(blocks), name) && Encodes(Block(rs, 0)) then AppendBlock(Block(rs, 0))
      else all
  }

  // A block whose records are some of all.
  lemma BlockFrom(blocks: seq<Block>, b: nat, i: nat, c: nat)
    requires b < |blocks| && i <= |blocks[b].recs| && c < b
    ensures forall r <- blocks[c].recs :: r in Until(blocks, b, i)
  {
    forall r | r in blocks[c].recs
      ensures r in Until(blocks, b, i)
    {
      FlatIn(blocks[..b], r);
      assert blocks[..b][c] == blocks[c];
    }
  }

  // What the search found says which it is.
  lemma FoundSame(blocks: seq<Block>, name: seq<Char16>, at: Option<(nat, nat)>, same: bool,
                  insert: Option<(nat, nat)>)
    requires blocks != []
    requires Searched(blocks, name, |blocks| - 1, |blocks[|blocks| - 1].recs|, at, same, insert)
    ensures same <==> !Across(blocks, name)
  {
    hide Cmp, Flat, Until, Entries;
    var n := |blocks| - 1;
    assert blocks[n].recs[..|blocks[n].recs|] == blocks[n].recs;
    if at.None? {
      WholeFlat(blocks);
      forall c | 0 <= c < |blocks|
        ensures NoneEqual(blocks[c].recs, name)
      {
        BlockIn(blocks, c);
      }
    } else {
      var a := at.value.0;
      assert blocks[a].recs[at.value.1] in blocks[a].recs && !NoneEqual(blocks[a].recs, name);
      forall c | 0 <= c < a
        ensures NoneEqual(blocks[c].recs, name)
      {
        BlockFrom(blocks, a, at.value.1, c);
      }
    }
  }

  lemma BlockIn(blocks: seq<Block>, c: nat)
    requires c < |blocks|
    ensures forall r <- blocks[c].recs :: r in Flat(blocks)
  {
    forall r | r in blocks[c].recs
      ensures r in Flat(blocks)
    {
      FlatIn(blocks, r);
    }
  }

  lemma FoundWhere(blocks: seq<Block>, name: seq<Char16>, b: nat, i: nat)
    requires SplitsAt(blocks, name, b, i) && (i < |blocks[b].recs| || b == |blocks| - 1)
    ensures b == Where(blocks, name)
  {
    hide Cmp, Until, Flat;
    forall c | 0 <= c < b
      ensures AllBelow(blocks[c].recs, name)
    {
      BlockFrom(blocks, b, i, c);
    }
    if i < |blocks[b].recs| {
      assert blocks[b].recs[i..][0] == blocks[b].recs[i] && blocks[b].recs[i] in blocks[b].recs;
      assert !AllBelow(blocks[b].recs, name);
    }
  }

  lemma FoundPlace(blocks: seq<Block>, name: seq<Char16>, at: Option<(nat, nat)>, same: bool,
                   insert: Option<(nat, nat)>)
    requires blocks != []
    requires Searched(blocks, name, |blocks| - 1, |blocks[|blocks| - 1].recs|, at, same, insert)
    ensures var p := PlaceOf(blocks, at, insert); p.0 < |blocks| && (p.1 < |blocks[p.0].recs| || p.0 == |blocks| - 1)
  {
    hide Cmp, Flat, Until, Entries, NoneLater;
  }

  lemma FoundEnd(blocks: seq<Block>, name: seq<Char16>, at: Option<(nat, nat)>, same: bool,
                 insert: Option<(nat, nat)>)
    requires blocks != [] && AllBelow(Flat(blocks), name)
    requires Searched(blocks, name, |blocks| - 1, |blocks[|blocks| - 1].recs|, at, same, insert)
    ensures at.None? && insert.None?
  {
    hide Cmp, Flat, Until, Entries, NoneLater;
    if at.Some? {
      BlockIn(blocks, at.value.0);
    }
    if insert.Some? {
      BlockIn(blocks, insert.value.0);
    }
  }

  /** A directory as it is read: every record has versions, and every block
      ends where its records do. */
  ghost predicate Readable(blocks: seq<Block>) {
    && Sorted(Flat(blocks))
    && (forall b <- blocks, r <- b.recs :: r.entries != [])
    && (forall b <- blocks :: Used(b.recs) <= BLOCK && b.tail == BLOCK - Used(b.recs))
  }

  lemma {:induction false} SizeWithin(recs: seq<Rec>)
    ensures forall r <- recs :: Size(r) <= Used(recs)
  {
    if recs != [] { SizeWithin(recs[1..]); }
  }

  lemma {:induction false} SizesFit(blocks: seq<Block>)
    requires forall b <- blocks :: Used(b.recs) <= BLOCK
    ensures forall r <- Flat(blocks) :: Size(r) <= BLOCK
  {
    hide Size;
    if blocks != [] {
      SizeWithin(blocks[0].recs);
      assert blocks[0] in blocks;
      SizesFit(blocks[1..]);
    }
  }

  lemma {:induction false} PartSizes(recs: seq<Rec>, name: seq<Char16>, n: nat)
    requires forall r <- recs :: Size(r) <= n
    ensures forall r <- Below(recs, name) :: Size(r) <= n
    ensures forall r <- Above(recs, name) :: Size(r) <= n
  {
    hide Cmp, Size;
    if recs != [] { PartSizes(recs[1..], name, n); }
  }

  lemma EditedSizes(blocks: seq<Block>, name: seq<Char16>, rs: seq<Rec>)
    requires (forall b <- blocks :: Used(b.recs) <= BLOCK) && forall r <- rs :: Size(r) <= MAX_RECORD
    ensures forall r <- Edited(Flat(blocks), name, rs) :: Size(r) <= BLOCK
  {
    hide Size, Below, Above, Flat;
    SizesFit(blocks);
    PartSizes(Flat(blocks), name, BLOCK);
  }

  // The last block emptied: the file just ends before it.
  lemma CutFlat(blocks: seq<Block>, blk: Block)
    requires blocks != [] && blk.recs == []
    ensures Flat(blocks[..|blocks| - 1]) == Flat(blocks[|blocks| - 1 := blk])
  {
    hide Flat;
    var n := |blocks| - 1;
    FlatAround(blocks, n, blk);
    assert blocks[n + 1..] == [];
    FlatNone();
  }

  lemma AppendFlat(blocks: seq<Block>, name: seq<Char16>, rs: seq<Rec>)
    requires AllBelow(Flat(blocks), name)
    ensures Flat(blocks + [Block(rs, 0)]) == Edited(Flat(blocks), name, rs)
  {
    hide Flat, Below, Above, Cmp;
    FlatSplit(blocks, [Block(rs, 0)]);
    FlatOne(Block(rs, 0));
    PartsOf(Flat(blocks), name);
  }

  /** dir_update's ways to write the name's new records, rs: whichever it is,
      the directory afterwards is the old one with the name's records replaced
      by them, and every block can be written.  room says whether the file can be
      one block longer. */
  method Work(blocks: seq<Block>, name: seq<Char16>, rs: seq<Rec>, room: bool) returns (plan: Plan)
    requires Readable(blocks) && forall r <- rs :: Size(r) <= MAX_RECORD
    requires rs != [] || |Entries(Flat(blocks), name)| < 2
    ensures Applies(blocks, plan) && Flat(After(blocks, plan)) == Edited(Flat(blocks), name, rs)
    ensures forall b <- After(blocks, plan) :: Encodes(b)
    ensures plan == PlanFor(blocks, name, rs, room)
    ensures |blocks| == 1 && Used(Edited(Flat(blocks), name, rs)) <= MAX_RECORD ==> plan.InPlace?
  {
    hide Packed, Flat, Cmp, Size, Used, Below, Above, Others, Searched, Sorted, Entries, Where, Across, SplitsAt;
    EditedSizes(blocks, name, rs);
    if blocks == [] {
      NothingEdited(name, rs);
      FlatNone();
      var packed := Pack(rs);
      return Rewrite(packed);
    }
    var at, same, insert := Search(blocks, name);
    FoundSame(blocks, name, at, same, insert);
    if !same {
      SpreadHasTwo(blocks, name, at, same, insert);
      var all := Merge(Flat(blocks), name, rs);
      var packed := Pack(all);
      return Rewrite(packed);
    }
    PlaceSplits(blocks, name, at, same, insert);
    var p := PlaceOf(blocks, at, insert);
    FoundPlace(blocks, name, at, same, insert);
    FoundWhere(blocks, name, p.0, p.1);
    if AllBelow(Flat(blocks), name) { FoundEnd(blocks, name, at, same, insert); }
    plan := WorkAt(blocks, name, rs, room, p.0, p.1, at.None? && insert.None?);
  }

  lemma NothingEdited(name: seq<Char16>, rs: seq<Rec>)
    ensures Edited([], name, rs) == rs
  {
  }

  lemma SpreadHasTwo(blocks: seq<Block>, name: seq<Char16>, at: Option<(nat, nat)>, same: bool,
                     insert: Option<(nat, nat)>)
    requires blocks != [] && !same
    requires Searched(blocks, name, |blocks| - 1, |blocks[|blocks| - 1].recs|, at, same, insert)
    ensures |Entries(Flat(blocks), name)| >= 2 && |blocks| > 1
  {
    hide Flat, Cmp, Entries;
    WholeFlat(blocks);
  }

  method WorkAt(blocks: seq<Block>, name: seq<Char16>, rs: seq<Rec>, room: bool, b: nat, i: nat, appending: bool)
    returns (plan: Plan)
    requires Readable(blocks) && SplitsAt(blocks, name, b, i)
    requires forall r <- Edited(Flat(blocks), name, rs) :: Size(r) <= BLOCK
    requires b == Where(blocks, name) && !Across(blocks, name) && (appending <==> AllBelow(Flat(blocks), name))
    ensures Applies(blocks, plan) && Flat(After(blocks, plan)) == Edited(Flat(blocks), name, rs)
    ensures forall b <- After(blocks, plan) :: Encodes(b)
    ensures plan == PlanFor(blocks, name, rs, room)
    ensures |blocks| == 1 && Used(Edited(Flat(blocks), name, rs)) <= MAX_RECORD ==> plan.InPlace?
  {
    hide Packed, Flat, Cmp, Size, Used, Below, Above, Others, Sorted, SplitsAt, Where, Across;
    InBlocks(blocks, name, b, i);
    Spliced(blocks, name, b, i, rs);
    var kept, last := Others(blocks[b].recs, name), |blocks| - 1;
    var blk := Block(kept[..i] + rs + kept[i..], blocks[b].tail);
    if |blocks| == 1 {
      assert blocks[b := blk] == [blk];
      FlatOne(blk);
    }
    if Encodes(blk) {
      if blk.recs != [] || |blocks| == 1 {
        return InPlace(b, blk);
      }
      if b == last {
        CutFlat(blocks, blk);
        return CutLast;
      }
    } else if appending && room && Encodes(Block(rs, 0)) {
      AppendFlat(blocks, name, rs);
      return AppendBlock(Block(rs, 0));
    }
    var packed := Pack(Flat(blocks[b := blk]));
    plan := Rewrite(packed);
  }

  lemma InBlocks(blocks: seq<Block>, name: seq<Char16>, b: nat, i: nat)
    requires SplitsAt(blocks, name, b, i)
    ensures b < |blocks| && i <= |blocks[b].recs|
  {
  }

  // ---------------------------------------------------------------------
  // Updates
  // ---------------------------------------------------------------------

  predicate Descending(es: seq<Entry>) { forall i, j | 0 <= i < j < |es| :: es[i].version > es[j].version }

  /** Versions in order with one more. */
  function Insert(es: seq<Entry>, e: Entry): seq<Entry> {
    if es == [] || es[0].version < e.version then [e] + es else [es[0]] + Insert(es[1..], e)
  }

  // In descending order, from the first down.
  lemma DescendingFrom(e: Entry, es: seq<Entry>)
    requires Descending(es) && forall x <- es :: x.version < e.version
    ensures Descending([e] + es)
  {
    var r := [e] + es;
    forall i, j | 0 <= i < j < |r|
      ensures r[i].version > r[j].version
    {
      assert r[j] == es[j - 1] && es[j - 1] in es;
    }
  }

  lemma DescendingRest(es: seq<Entry>)
    requires Descending(es) && es != []
    ensures Descending(es[1..]) && forall x <- es[1..] :: x.version < es[0].version
  {
    var rest := es[1..];
    forall i, j | 0 <= i < j < |rest|
      ensures rest[i].version > rest[j].version
    {
      assert rest[i] == es[i + 1] && rest[j] == es[j + 1];
    }
    forall i | 0 <= i < |rest|
      ensures rest[i].version < es[0].version
    {
      assert rest[i] == es[i + 1];
    }
  }

  lemma {:induction false} InsertOrders(es: seq<Entry>, e: Entry)
    requires Descending(es) && forall x <- es :: x.version != e.version
    ensures Descending(Insert(es, e)) && forall x :: x in Insert(es, e) <==> x in es || x == e
  {
    hide Descending;
    if es == [] {
      OneDescending(e);
    } else {
      DescendingRest(es);
      assert es == [es[0]] + es[1..];
      if es[0].version > e.version {
        InsertOrders(es[1..], e);
        DescendingFrom(es[0], Insert(es[1..], e));
      } else {
        DescendingFrom(e, es);
      }
    }
  }

  lemma OneDescending(e: Entry)
    ensures Descending([]) && Descending([e]) && [e] + [] == [e]
  {
  }

  /** A version entered or removed. */
  datatype Edit =
    | Add(version: int, fid: Fid, flags: int, limit: int)
    | Remove(version: int)

  datatype Outcome = Done(plan: Plan) | Exists | NotFound

  ghost predicate Has(es: seq<Entry>, version: int) { exists e <- es :: e.version == version }

  /** The versions after the edit. */
  function Changed(es: seq<Entry>, edit: Edit): seq<Entry> {
    match edit
    case Add(version, fid, _, _) => Insert(es, Entry(version, fid))
    case Remove(version) => Without(es, version)
  }

  function Without(es: seq<Entry>, version: int): seq<Entry> {
    if es == [] then [] else if es[0].version == version then es[1..] else [es[0]] + Without(es[1..], version)
  }

  lemma {:induction false} WithoutOrders(es: seq<Entry>, version: int)
    requires Descending(es)
    ensures Descending(Without(es, version))
    ensures forall x :: x in Without(es, version) <==> x in es && x.version != version
    ensures Has(es, version) ==> |Without(es, version)| == |es| - 1
  {
    hide Descending;
    if es == [] {
      OneDescending(Entry(0, Fid(0, 0)));
    } else {
      DescendingRest(es);
      assert es == [es[0]] + es[1..];
      if es[0].version != version {
        WithoutOrders(es[1..], version);
        DescendingFrom(es[0], Without(es[1..], version));
      }
    }
  }

  /** What the name's first record says of it, or what it starts with, and the versions
      there are. */
  function GroupIn(recs: seq<Rec>, name: seq<Char16>, edit: Edit): Group {
    var i := FirstOf(recs, name);
    var es := Entries(recs, name);
    if i.Some? then Group(recs[i.value].name, recs[i.value].flags, recs[i.value].verlimit, es)
    else if edit.Add? then Group(name, edit.flags, edit.limit, es)
    else Group(name, 0, 0, es)
  }

  function FirstOf(recs: seq<Rec>, name: seq<Char16>): (i: Option<nat>)
    ensures i.Some? ==> i.value < |recs| && Cmp(recs[i.value].name, name) == 0
  {
    if recs == [] then None
    else if Cmp(recs[0].name, name) == 0 then Some(0)
    else
      var i := FirstOf(recs[1..], name);
      if i.None? then None else Some(i.value + 1)
  }

  lemma {:induction false} FirstSplit(a: seq<Rec>, b: seq<Rec>, name: seq<Char16>)
    ensures FirstOf(a + b, name) ==
      if FirstOf(a, name).Some? || FirstOf(b, name).None? then FirstOf(a, name)
      else Some(|a| + FirstOf(b, name).value)
  {
    hide Cmp;
    if a == [] {
      assert a + b == b;
    } else {
      assert (a + b)[1..] == a[1..] + b;
      FirstSplit(a[1..], b, name);
    }
  }

  /** The name's records once it has one version more or fewer. */
  function NewRecords(recs: seq<Rec>, name: seq<Char16>, edit: Edit): seq<Rec>
    requires |name| <= MAX_NAME
  {
    var g := GroupIn(recs, name, edit);
    GroupName(recs, name, edit);
    RecordsOf(g.(entries := Changed(g.entries, edit)))
  }

  lemma GroupName(recs: seq<Rec>, name: seq<Char16>, edit: Edit)
    ensures var g := GroupIn(recs, name, edit); Cmp(g.name, name) == 0 && |g.name| == |name|
  {
    CmpAnti(name, name);
    CmpLength(GroupIn(recs, name, edit).name, name);
  }

  lemma GroupStyle(recs: seq<Rec>, name: seq<Char16>, edit: Edit)
    ensures var g := GroupIn(recs, name, edit);
      && (forall st | Leads(recs, name, st) :: st == Style(g.name, g.verlimit, g.flags))
      && (forall st | Destined(recs, name, edit, st) :: st == Style(g.name, g.verlimit, g.flags))
  {
    hide Cmp, Entries, Leads;
    LeadsOne(recs, name);
  }

  // One record more.
  lemma GroupMore(recs: seq<Rec>, r: Rec, name: seq<Char16>, edit: Edit)
    ensures var g, more := GroupIn(recs, name, edit), GroupIn(recs + [r], name, edit);
      more == if Cmp(r.name, name) != 0 then g
              else if FirstOf(recs, name).Some? then g.(entries := g.entries + r.entries)
              else Group(r.name, r.flags, r.verlimit, g.entries + r.entries)
  {
    hide Cmp;
    EntriesSplit(recs, [r], name);
    EntriesOne(r, name);
    FirstSplit(recs, [r], name);
    assert FirstOf([r], name) == if Cmp(r.name, name) == 0 then Some(0) else None;
  }

  // Records of the name have versions, so there is one just when it has some.
  lemma {:induction false} FirstHas(recs: seq<Rec>, name: seq<Char16>)
    requires forall r <- recs :: r.entries != []
    ensures FirstOf(recs, name).Some? <==> Entries(recs, name) != []
  {
    hide Cmp;
    if recs != [] { FirstHas(recs[1..], name); }
  }

  // What the name's records say of it, or what it starts with.
  method Gather(blocks: seq<Block>, name: seq<Char16>, edit: Edit) returns (g: Group)
    requires forall b <- blocks, r <- b.recs :: r.entries != []
    ensures g == GroupIn(Flat(blocks), name, edit)
  {
    hide Flat, Cmp, Entries, FirstOf, GroupIn;
    g := if edit.Add? then Group(name, edit.flags, edit.limit, []) else Group(name, 0, 0, []);
    FlatNone();
    GroupNone(name, edit);
    assert blocks[..0] == [];
    for b := 0 to |blocks|
      invariant g == GroupIn(Flat(blocks[..b]), name, edit) && forall r <- Flat(blocks[..b]) :: r.entries != []
    {
      var recs := blocks[b].recs;
      assert blocks[..b + 1] == blocks[..b] + [blocks[b]] && blocks[b] in blocks;
      FlatSplit(blocks[..b], [blocks[b]]);
      FlatOne(blocks[b]);
      ghost var before := Flat(blocks[..b]);
      assert before + recs[..0] == before;
      for i := 0 to |recs|
        invariant g == GroupIn(before + recs[..i], name, edit)
      {
        var r := recs[i];
        assert before + recs[..i + 1] == (before + recs[..i]) + [r] && r in recs;
        GroupMore(before + recs[..i], r, name, edit);
        GroupHas(before + recs[..i], name, edit);
        if Cmp(r.name, name) == 0 {
          if g.entries == [] {
            g := Group(r.name, r.flags, r.verlimit, []);
          }
          g := g.(entries := g.entries + r.entries);
        }
      }
      assert recs[..|recs|] == recs;
    }
    assert blocks[..|blocks|] == blocks;
  }

  lemma GroupNone(name: seq<Char16>, edit: Edit)
    ensures GroupIn([], name, edit) ==
      if edit.Add? then Group(name, edit.flags, edit.limit, []) else Group(name, 0, 0, [])
  {
  }

  lemma GroupHas(recs: seq<Rec>, name: seq<Char16>, edit: Edit)
    requires forall r <- recs :: r.entries != []
    ensures GroupIn(recs, name, edit).entries == [] <==> FirstOf(recs, name).None?
  {
    hide Cmp, Entries, FirstOf;
    FirstHas(recs, name);
  }

  lemma EntriesNone(name: seq<Char16>)
    ensures Entries([], name) == []
  {
  }

  /** A directory of one block, in which so many versions of the name would fit. */
  ghost predicate Roomy(blocks: seq<Block>, name: seq<Char16>, k: nat) {
    |blocks| == 1 && forall g: Group | Cmp(g.name, name) == 0 && |g.name| <= MAX_NAME && |g.entries| == k ::
      Used(Edited(Flat(blocks), name, RecordsOf(g))) <= MAX_RECORD
  }

  lemma RoomyOne(blocks: seq<Block>, name: seq<Char16>, k: nat)
    requires Roomy(blocks, name, k)
    ensures |blocks| == 1
  {
  }

  lemma {:induction false} CmpLength(a: seq<Char16>, b: seq<Char16>)
    requires Cmp(a, b) == 0
    ensures |a| == |b|
  {
    if a != [] { CmpLength(a[1..], b[1..]); }
  }

  // What records of one name take up at least.
  lemma {:induction false} UsedOf(recs: seq<Rec>, name: seq<Char16>)
    requires AllEqual(recs, name) && forall r <- recs :: r.entries != []
    ensures Entries(recs, name) != [] ==> Used(recs) >= 6 + Even(|name|) + 8 * |Entries(recs, name)|
  {
    hide Cmp, Even;
    if recs == [] {
      EntriesNone(name);
    } else {
      assert recs[0] in recs && forall r <- recs[1..] :: r in recs;
      UsedOf(recs[1..], name);
      CmpLength(recs[0].name, name);
    }
  }

  lemma FewRecords(g: Group)
    requires |g.name| <= MAX_NAME && 6 + Even(|g.name|) + 8 * |g.entries| <= BLOCK - 8
    ensures Used(RecordsOf(g)) == if g.entries == [] then 0 else 6 + Even(|g.name|) + 8 * |g.entries|
  {
    var rs := RecordsOf(g);
    if g.entries != [] { assert rs == [Rec(g.name, g.verlimit, g.flags, g.entries)] && rs[1..] == []; }
  }

  /** One version fewer always fits in the block. */
  lemma RemovalFits(blocks: seq<Block>, name: seq<Char16>)
    requires Readable(blocks) && |blocks| == 1 && Entries(Flat(blocks), name) != []
    ensures Roomy(blocks, name, |Entries(Flat(blocks), name)| - 1)
  {
    hide Cmp, Entries, Below, Above, Same, RecordsOf, Size, Even, Used, Sorted, AllEqual, AllBelow, AllAbove;
    var recs := blocks[0].recs;
    assert blocks == [blocks[0]] && blocks[0] in blocks;
    FlatOne(blocks[0]);
    SortedParts(recs, name);
    var x, s, y := Below(recs, name), Same(recs, name), Above(recs, name);
    forall r | r in s
      ensures r.entries != []
    {
      assert r in recs;
    }
    EntriesParts(x, s, y, name);
    NotItsOwn(x, name);
    NotItsOwn(y, name);
    UsedSplit(x + s, y);
    UsedSplit(x, s);
    UsedOf(s, name);
    forall g: Group | Cmp(g.name, name) == 0 && |g.name| <= MAX_NAME && |g.entries| == |Entries(recs, name)| - 1
      ensures Used(Edited(recs, name, RecordsOf(g))) <= MAX_RECORD
    {
      CmpLength(g.name, name);
      FewRecords(g);
      UsedSplit(x + RecordsOf(g), y);
      UsedSplit(x, RecordsOf(g));
    }
  }

  lemma NotItsOwn(recs: seq<Rec>, name: seq<Char16>)
    requires AllBelow(recs, name) || AllAbove(recs, name)
    ensures Entries(recs, name) == []
  {
    hide Cmp, Entries;
    EntriesAbsent(recs, name);
  }

  /** dir_update with one version entered or removed.  It fails where the
      version is there already, or is not; else the listing changes exactly by
      that edit, names stay in order and every block can be written. */
  method Update(blocks: seq<Block>, name: seq<Char16>, edit: Edit, room: bool) returns (r: Outcome)
    requires Readable(blocks) && |name| <= MAX_NAME && forall b <- blocks, q <- b.recs :: |q.name| <= MAX_NAME
    requires Descending(Entries(Flat(blocks), name))
    ensures r.Exists? <==> edit.Add? && Has(Entries(Flat(blocks), name), edit.version)
    ensures r.NotFound? <==> edit.Remove? && !Has(Entries(Flat(blocks), name), edit.version)
    ensures r.Done? ==> r.plan == PlanFor(blocks, name, NewRecords(Flat(blocks), name, edit), room)
    ensures r.Done? ==> Applies(blocks, r.plan) && forall b <- After(blocks, r.plan) :: Encodes(b) && Proper(b)
    ensures r.Done? ==>
      Listed(Flat(blocks), Flat(After(blocks, r.plan)), name, Changed(Entries(Flat(blocks), name), edit))
    ensures r.Done? ==> Styled(Flat(blocks), Flat(After(blocks, r.plan)), name, edit)
    ensures r.Done? && Roomy(blocks, name, |Changed(Entries(Flat(blocks), name), edit)|) ==> r.plan.InPlace?
  {
    hide Leads, HasStyle, Packed, Flat, Cmp, Entries, Sorted, Used, Size, RecordsOf, Edited, Listed, FirstOf, PlanFor;
    var g := Gather(blocks, name, edit);
    GroupName(Flat(blocks), name, edit);
    var has := HasVersion(g.entries, edit.version);
    if edit.Add? && has {
      return Exists;
    }
    if edit.Remove? && !has {
      return NotFound;
    }
    ghost var es := g.entries;
    if edit.Remove? { WithoutOrders(es, edit.version); }
    g := g.(entries := Changed(g.entries, edit));
    RecordsHold(g);
    RecordsSome(g);
    assert edit.Add? ==> g.entries != [];
    assert g.entries == [] ==> |es| < 2;
    var plan := Work(blocks, name, RecordsOf(g), room);
    GroupStyle(Flat(blocks), name, edit);
    ListedBy(Flat(blocks), name, g);
    EditedProper(blocks, After(blocks, plan), name, g);
    r := Done(plan);
  }

  // Every record has a name that may be and some versions.
  predicate Proper(b: Block) { forall r <- b.recs :: r.entries != [] && |r.name| <= MAX_NAME }

  lemma {:induction false} FlatIn(bs: seq<Block>, r: Rec)
    ensures r in Flat(bs) <==> exists k | 0 <= k < |bs| :: r in bs[k].recs
  {
    if bs != [] {
      FlatIn(bs[1..], r);
      if exists k | 0 <= k < |bs| :: r in bs[k].recs {
        var k :| 0 <= k < |bs| && r in bs[k].recs;
        if k > 0 { assert bs[1..][k - 1] == bs[k]; }
      }
      if exists k | 0 <= k < |bs[1..]| :: r in bs[1..][k].recs {
        var k :| 0 <= k < |bs[1..]| && r in bs[1..][k].recs;
        assert bs[1..][k] == bs[k + 1];
      }
    }
  }

  lemma {:induction false} PartFrom(recs: seq<Rec>, name: seq<Char16>, r: Rec)
    requires r in Below(recs, name) || r in Above(recs, name)
    ensures r in recs
  {
    hide Cmp;
    if recs != [] && r != recs[0] { PartFrom(recs[1..], name, r); }
  }

  lemma EditedProper(blocks: seq<Block>, now: seq<Block>, name: seq<Char16>, g: Group)
    requires |g.name| <= MAX_NAME && Flat(now) == Edited(Flat(blocks), name, RecordsOf(g))
    requires forall b <- blocks, r <- b.recs :: r.entries != []
    requires forall b <- blocks, r <- b.recs :: |r.name| <= MAX_NAME
    ensures forall b <- now :: Proper(b)
  {
    hide Flat, Below, Above, RecordsOf, Cmp, Entries;
    RecordsHold(g);
    forall b, r | b in now && r in b.recs
      ensures r.entries != [] && |r.name| <= MAX_NAME
    {
      var k :| 0 <= k < |now| && now[k] == b;
      FlatIn(now, r);
      if r !in RecordsOf(g) {
        PartFrom(Flat(blocks), name, r);
        FlatIn(blocks, r);
        var j :| 0 <= j < |blocks| && r in blocks[j].recs;
        assert blocks[j] in blocks;
      }
    }
  }

  method HasVersion(es: seq<Entry>, version: int) returns (has: bool)
    ensures has <==> Has(es, version)
  {
    for i := 0 to |es|
      invariant forall j | 0 <= j < i :: es[j].version != version
    {
      if es[i].version == version {
        assert es[i] in es;
        return true;
      }
    }
    has := false;
  }

  lemma RecordsSome(g: Group)
    requires |g.name| <= MAX_NAME
    ensures RecordsOf(g) == [] <==> g.entries == []
  {
  }

  /** How a name is written, how many versions are kept and what kind of name it is. */
  datatype Style = Style(name: seq<Char16>, verlimit: int, flags: int)

  predicate Wears(r: Rec, st: Style) { r.name == st.name && r.verlimit == st.verlimit && r.flags == st.flags }

  /** The name's first record is of the style. */
  ghost predicate Leads(recs: seq<Rec>, name: seq<Char16>, st: Style) {
    exists i | 0 <= i < |recs| :: Cmp(recs[i].name, name) == 0 && NoneEqual(recs[..i], name) && Wears(recs[i], st)
  }

  /** All its records are. */
  ghost predicate HasStyle(recs: seq<Rec>, name: seq<Char16>, st: Style) {
    forall r <- recs | Cmp(r.name, name) == 0 :: Wears(r, st)
  }

  /** What the name's records are to be: as the first there was, or as it is entered. */
  ghost predicate Destined(was: seq<Rec>, name: seq<Char16>, edit: Edit, st: Style) {
    if NoneEqual(was, name) then edit.Add? && st == Style(name, edit.limit, edit.flags) else Leads(was, name, st)
  }

  /** And are. */
  ghost predicate Styled(was: seq<Rec>, now: seq<Rec>, name: seq<Char16>, edit: Edit) {
    forall st | Destined(was, name, edit, st) :: HasStyle(now, name, st)
  }

  /** Names in order, the name's versions as given, its first record written as it was, and
      the records of every other name the same. */
  ghost predicate Listed(was: seq<Rec>, now: seq<Rec>, name: seq<Char16>, es: seq<Entry>) {
    && Sorted(now) && Entries(now, name) == es
    && (forall other | Cmp(other, name) != 0 :: Entries(now, other) == Entries(was, other))
    && Others(now, name) == Others(was, name)
    && (es != [] ==> forall st | Leads(was, name, st) :: Leads(now, name, st))
  }

  /** The name's first record is as it was to be. */
  ghost predicate Led(was: seq<Rec>, now: seq<Rec>, name: seq<Char16>, edit: Edit) {
    forall st | Destined(was, name, edit, st) :: Leads(now, name, st)
  }

  lemma StyledLeads(was: seq<Rec>, now: seq<Rec>, name: seq<Char16>, edit: Edit)
    requires Styled(was, now, name, edit) && Entries(now, name) != []
    ensures Led(was, now, name, edit)
  {
    hide Cmp, Entries, Destined;
    LeadsOne(now, name);
    if NoneEqual(now, name) { EntriesAbsent(now, name); }
    forall st | Destined(was, name, edit, st)
      ensures Leads(now, name, st)
    {
      var i := FirstOf(now, name).value;
      assert now[i] in now;
    }
  }

  // So it is after more has been done to the name's versions.
  lemma LedStill(was: seq<Rec>, mid: seq<Rec>, now: seq<Rec>, name: seq<Char16>, edit: Edit, es: seq<Entry>)
    requires Led(was, mid, name, edit) && Listed(mid, now, name, es) && es != []
    ensures Led(was, now, name, edit)
  {
    hide Cmp, Entries, Destined, Leads, Sorted, Others;
  }

  // Or to another name's.
  lemma LedBeside(was: seq<Rec>, mid: seq<Rec>, now: seq<Rec>, name: seq<Char16>, edit: Edit, other: seq<Char16>)
    requires Led(was, mid, name, edit) && Others(now, other) == Others(mid, other) && Cmp(name, other) != 0
    ensures Led(was, now, name, edit)
  {
    hide Cmp, Destined, Leads, Others;
    forall st | Destined(was, name, edit, st)
      ensures Leads(now, name, st)
    {
      LeadsBeside(mid, name, st, other);
      LeadsBeside(now, name, st, other);
    }
  }

  lemma {:induction false} LeadsBeside(recs: seq<Rec>, name: seq<Char16>, st: Style, other: seq<Char16>)
    requires Cmp(name, other) != 0
    ensures Leads(recs, name, st) <==> Leads(Others(recs, other), name, st)
  {
    hide Cmp, Leads;
    LeadsOne(recs, name);
    LeadsOne(Others(recs, other), name);
    if recs != [] {
      var r, rest := recs[0], recs[1..];
      LeadsOne(rest, name);
      LeadsBeside(rest, name, st, other);
      LeadsOne(Others(rest, other), name);
      if Cmp(r.name, other) != 0 {
        assert Others(recs, other)[1..] == Others(rest, other);
      } else {
        CmpTrans(name, r.name, other);
        CmpAnti(r.name, name);
        assert Others(recs, other) == Others(rest, other);
      }
    }
  }

  lemma ListedBy(recs: seq<Rec>, name: seq<Char16>, g: Group)
    requires Sorted(recs) && |g.name| <= MAX_NAME && Cmp(g.name, name) == 0
    requires forall st | Leads(recs, name, st) :: st == Style(g.name, g.verlimit, g.flags)
    ensures Listed(recs, Edited(recs, name, RecordsOf(g)), name, g.entries)
    ensures HasStyle(Edited(recs, name, RecordsOf(g)), name, Style(g.name, g.verlimit, g.flags))
  {
    hide Cmp, Entries, Below, Above, Same, RecordsOf, Others, Leads;
    RecordsHold(g);
    var rs := RecordsOf(g);
    SortedParts(recs, name);
    var b, s, a := Below(recs, name), Same(recs, name), Above(recs, name);
    EditedSorted(recs, b, s, rs, a, name);
    EntriesParts(b, rs, a, name);
    EntriesAlike(rs, g.name, name);
    EntriesAbsent(b, name);
    EntriesAbsent(a, name);
    forall other | Cmp(other, name) != 0
      ensures Entries(b + rs + a, other) == Entries(recs, other)
    {
      EntriesParts(b, rs, a, other);
      EntriesParts(b, s, a, other);
      EntriesEqual(rs, name, other);
      EntriesEqual(s, name, other);
    }
    AllOfIt(rs, g, name);
    Parts(b, rs, a, name);
    Parts(b, s, a, name);
    InParts(b, rs, a, name, Style(g.name, g.verlimit, g.flags));
    if g.entries != [] {
      RecordsSome(g);
      LeadsFirst(b, rs, a, name, Style(g.name, g.verlimit, g.flags));
    }
  }

  lemma AllOfIt(rs: seq<Rec>, g: Group, name: seq<Char16>)
    requires Cmp(g.name, name) == 0 && forall r <- rs :: r.name == g.name
    ensures AllEqual(rs, name)
  {
  }

  lemma InParts(b: seq<Rec>, rs: seq<Rec>, a: seq<Rec>, name: seq<Char16>, st: Style)
    requires AllBelow(b, name) && AllAbove(a, name) && forall r <- rs :: Wears(r, st)
    ensures HasStyle(b + rs + a, name, st)
  {
    hide Cmp;
  }

  lemma LeadsFirst(b: seq<Rec>, rs: seq<Rec>, a: seq<Rec>, name: seq<Char16>, st: Style)
    requires AllBelow(b, name) && AllEqual(rs, name) && rs != [] && Wears(rs[0], st)
    ensures Leads(b + rs + a, name, st)
  {
    hide Cmp;
    var all := b + rs + a;
    assert all[..|b|] == b && all[|b|] == rs[0] && rs[0] in rs;
  }

  /** There is such a style, and one only. */
  lemma LeadsOne(recs: seq<Rec>, name: seq<Char16>)
    ensures NoneEqual(recs, name) <==> FirstOf(recs, name).None?
    ensures forall st :: Leads(recs, name, st) <==>
      FirstOf(recs, name).Some? && Wears(recs[FirstOf(recs, name).value], st)
  {
    hide Cmp;
    FirstIs(recs, name);
    forall st | Leads(recs, name, st)
      ensures FirstOf(recs, name).Some? && Wears(recs[FirstOf(recs, name).value], st)
    {
      var i :| 0 <= i < |recs| && Cmp(recs[i].name, name) == 0 && NoneEqual(recs[..i], name) && Wears(recs[i], st);
      assert recs[i] in recs;
      SameFirst(recs, name, i);
    }
  }

  lemma {:induction false} SameFirst(recs: seq<Rec>, name: seq<Char16>, i: nat)
    requires i < |recs| && Cmp(recs[i].name, name) == 0 && NoneEqual(recs[..i], name)
    ensures FirstOf(recs, name) == Some(i)
  {
    hide Cmp;
    if i > 0 {
      assert recs[..i] == [recs[0]] + recs[1..][..i - 1];
      SameFirst(recs[1..], name, i - 1);
    }
  }

  lemma {:induction false} FirstIs(recs: seq<Rec>, name: seq<Char16>)
    ensures var i := FirstOf(recs, name);
      if i.None? then NoneEqual(recs, name) else !NoneEqual(recs, name) && NoneEqual(recs[..i.value], name)
  {
    hide Cmp;
    if recs != [] {
      FirstIs(recs[1..], name);
      var i := FirstOf(recs, name);
      if i.Some? {
        assert recs[i.value] in recs;
        if i.value > 0 { assert recs[..i.value] == [recs[0]] + recs[1..][..i.value - 1]; }
      } else {
        assert recs == [recs[0]] + recs[1..];
      }
    }
  }

  lemma EntriesParts(x: seq<Rec>, y: seq<Rec>, z: seq<Rec>, name: seq<Char16>)
    ensures Entries(x + y + z, name) == Entries(x, name) + Entries(y, name) + Entries(z, name)
  {
    hide Cmp, Entries;
    EntriesSplit(x + y, z, name);
    EntriesSplit(x, y, name);
  }

  lemma {:induction false} EntriesAbsent(recs: seq<Rec>, name: seq<Char16>)
    ensures NoneEqual(recs, name) ==> Entries(recs, name) == []
  {
    hide Cmp;
    if recs != [] { EntriesAbsent(recs[1..], name); }
  }

  // Records of a name are no other name's.
  lemma EntriesEqual(recs: seq<Rec>, name: seq<Char16>, other: seq<Char16>)
    requires AllEqual(recs, name) && Cmp(other, name) != 0
    ensures Entries(recs, other) == []
  {
    forall r | r in recs
      ensures Cmp(r.name, other) != 0
    {
      CmpTrans(r.name, name, other);
      CmpAnti(other, name);
    }
    EntriesAbsent(recs, other);
  }

  lemma EditedSorted(recs: seq<Rec>, b: seq<Rec>, s: seq<Rec>, rs: seq<Rec>, a: seq<Rec>, name: seq<Char16>)
    requires Sorted(recs) && recs == b + s + a
    requires AllBelow(b, name) && AllAbove(a, name) && AllEqual(rs, name)
    ensures Sorted(b + rs + a)
  {
    var now := b + rs + a;
    forall i, j | 0 <= i < j < |now|
      ensures Cmp(now[i].name, now[j].name) <= 0
    {
      var x, y := now[i].name, now[j].name;
      CmpTrans(x, name, y);
      CmpAnti(name, y);
      if j < |b| {
        assert recs[i] == now[i] && recs[j] == now[j];
      } else if i >= |b| + |rs| {
        var d := |s| - |rs|;
        assert recs[i + d] == now[i] && recs[j + d] == now[j];
      } else {
        assert i < |b| ==> now[i] in b;
        assert |b| <= i ==> now[i] in rs;
        assert j < |b| + |rs| ==> now[j] in rs;
        assert |b| + |rs| <= j ==> now[j] in a;
      }
    }
  }

  // ---------------------------------------------------------------------
  // Entries
  // ---------------------------------------------------------------------

  /** The records have the entry. */
  predicate HasEntry(recs: seq<Rec>, e: Entry) { exists i | 0 <= i < |recs| :: e in recs[i].entries }

  lemma {:induction false} EntryIn(recs: seq<Rec>, i: nat, e: Entry)
    requires i < |recs| && e in recs[i].entries
    ensures e in Entries(recs, recs[i].name)
  {
    if i == 0 {
      CmpAnti(recs[0].name, recs[0].name);
    } else {
      EntryIn(recs[1..], i - 1, e);
    }
  }

  lemma {:induction false} EntriesFrom(recs: seq<Rec>, name: seq<Char16>, e: Entry)
    requires e in Entries(recs, name)
    ensures exists i | 0 <= i < |recs| :: e in recs[i].entries && Cmp(recs[i].name, name) == 0
  {
    hide Cmp;
    if Cmp(recs[0].name, name) == 0 && e in recs[0].entries {
    } else {
      EntriesFrom(recs[1..], name, e);
      var i :| 0 <= i < |recs[1..]| && e in recs[1..][i].entries && Cmp(recs[1..][i].name, name) == 0;
      assert recs[1..][i] == recs[i + 1];
    }
  }

  lemma {:induction false} InsertedOr(es: seq<Entry>, e: Entry, x: Entry)
    requires x in Insert(es, e)
    ensures x in es || x == e
  {
    if es != [] && es[0].version >= e.version && x != es[0] { InsertedOr(es[1..], e, x); }
  }

  lemma {:induction false} WithoutFrom(es: seq<Entry>, version: int, x: Entry)
    requires x in Without(es, version)
    ensures x in es
  {
    if es != [] && es[0].version != version && x != es[0] { WithoutFrom(es[1..], version, x); }
  }

  /** An update brings in no entry but the one it adds. */
  lemma NoStrangers(was: seq<Rec>, now: seq<Rec>, name: seq<Char16>, edit: Edit, e: Entry)
    requires Listed(was, now, name, Changed(Entries(was, name), edit)) && HasEntry(now, e)
    ensures HasEntry(was, e) || (edit.Add? && e == Entry(edit.version, edit.fid))
  {
    hide Cmp, Entries, Sorted;
    var i :| 0 <= i < |now| && e in now[i].entries;
    EntryIn(now, i, e);
    var r := now[i];
    if Cmp(r.name, name) == 0 {
      EntriesAlike(now, r.name, name);
      if edit.Add? { InsertedOr(Entries(was, name), Entry(edit.version, edit.fid), e); } else {
        WithoutFrom(Entries(was, name), edit.version, e);
      }
      if e in Entries(was, name) { EntriesFrom(was, name, e); }
    } else {
      EntriesFrom(was, r.name, e);
    }
  }

  // Names that compare equal have the same versions.
  lemma {:induction false} EntriesAlike(recs: seq<Rec>, a: seq<Char16>, b: seq<Char16>)
    requires Cmp(a, b) == 0
    ensures Entries(recs, a) == Entries(recs, b)
  {
    if recs != [] {
      CmpAnti(a, b);
      CmpAnti(recs[0].name, a);
      CmpAnti(recs[0].name, b);
      CmpTrans(a, b, recs[0].name);
      EntriesAlike(recs[1..], a, b);
    }
  }

  /** The records name the file. */
  predicate Mentions(recs: seq<Rec>, f: Fid) { exists i, e | 0 <= i < |recs| && e in recs[i].entries :: e.fid == f }

  // Every name's versions are in order after one name's have changed.
  lemma NamesInOrder(was: seq<Rec>, now: seq<Rec>, name: seq<Char16>, edit: Edit)
    requires forall other :: Descending(Entries(was, other))
    requires Listed(was, now, name, Changed(Entries(was, name), edit))
    requires edit.Add? ==> !Has(Entries(was, name), edit.version)
    ensures forall other :: Descending(Entries(now, other))
  {
    hide Cmp, Entries, Descending, Sorted;
    var es := Entries(was, name);
    if edit.Add? { InsertOrders(es, Entry(edit.version, edit.fid)); } else { WithoutOrders(es, edit.version); }
    forall other
      ensures Descending(Entries(now, other))
    {
      if Cmp(other, name) == 0 { EntriesAlike(now, other, name); }
    }
  }
}
