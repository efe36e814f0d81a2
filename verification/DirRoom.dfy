/** Where a directory update finds its space: the blocks it is to write, the clusters the
    directory has and the free ones say whether it can be done, and what they are after
    it. */
module DirRoom {
  import opened Wildcards
  import opened Directory
  import opened Disk
  import opened DirDisk
  import Bitmap

  /** The free clusters, the directory's own and its blocks. */
  datatype Layout = Layout(bits: seq<bool>, at: seq<nat>, bs: seq<Block>)

  function LayoutOf(v: nat, d: Disk, n: int): Layout
    requires IsDir(v, d, n)
  {
    Layout(d.bits, d.live[n].at, DirBlocks(v, d, n))
  }

  // ---------------------------------------------------------------------
  // Runs of clusters
  // ---------------------------------------------------------------------

  /** The clusters for so many blocks and a quarter more. */
  function Clusters(v: nat, n: nat): nat
    requires v > 0
  {
    ((if n + n / 4 > 1 then n + n / 4 else 1) + v - 1) / v
  }

  lemma SomeClusters(v: nat, n: nat)
    requires v > 0
    ensures Clusters(v, n) > 0
  {
  }

  /** The lowest place from i on with so many free clusters, one after another. */
  function RunFrom(bits: seq<bool>, want: nat, i: nat): (s: Option<nat>)
    ensures s.Some? ==> Bitmap.AllFree(bits, s.value, want) && s.value >= i
    ensures s.Some? ==> forall k: nat | i <= k < s.value :: !Bitmap.AllFree(bits, k, want)
    ensures s.None? ==> forall k: nat | i <= k :: !Bitmap.AllFree(bits, k, want)
    decreases |bits| - i
  {
    if Bitmap.AllFree(bits, i, want) then Some(i)
    else if i >= |bits| then None
    else RunFrom(bits, want, i + 1)
  }

  lemma RunIs(bits: seq<bool>, want: nat, s: nat)
    requires Bitmap.AllFree(bits, s, want) && forall k | Bitmap.AllFree(bits, k, want) :: s <= k
    ensures RunFrom(bits, want, 0) == Some(s)
  {
    hide Bitmap.AllFree;
  }

  function Span(s: nat, n: nat): seq<nat> { seq(n, i requires 0 <= i => s + i) }

  /** The free clusters once those of the new place are taken and the old ones given back. */
  function Relocated(bits: seq<bool>, s: nat, n: nat, was: seq<nat>): (r: seq<bool>)
    ensures |r| == |bits|
  {
    seq(|bits|, c requires 0 <= c < |bits| => c in was || (bits[c] && !(s <= c < s + n)))
  }

  /** The free clusters without some. */
  function Minus(bits: seq<bool>, cs: seq<nat>): (r: seq<bool>)
    ensures |r| == |bits|
  {
    seq(|bits|, c requires 0 <= c < |bits| => bits[c] && c !in cs)
  }

  lemma MinusIs(bits: seq<bool>, now: seq<bool>, cs: seq<nat>)
    requires |now| == |bits| && (forall c <- cs :: c < |bits| && !now[c])
    requires forall c | 0 <= c < |bits| && c !in cs :: now[c] == bits[c]
    ensures now == Minus(bits, cs)
  {
  }

  // ---------------------------------------------------------------------
  // The update
  // ---------------------------------------------------------------------

  /** The directory with room for a block more: what it has, or a cluster right after its
      last where free space begins there. */
  function Stretched(v: nat, t: Layout): Option<Layout> {
    if |t.bs| < Vbn(v, |t.at|, 0) then Some(t)
    else
      var c := if t.at == [] then RunFrom(t.bits, 1, 0)
               else if Bitmap.Begins(t.bits, t.at[|t.at| - 1] + 1) then Some(t.at[|t.at| - 1] + 1)
               else None;
      if c.None? then None else Some(t.(bits := t.bits[c.value := false], at := t.at + [c.value]))
  }

  function Carried(v: nat, t: Layout, plan: Plan): Option<Layout>
    requires v > 0 && Applies(t.bs, plan)
  {
    var bs := ParsedAll(After(t.bs, plan));
    match plan
    case InPlace(_, _) => Some(t.(bs := bs))
    case CutLast => Some(t.(bs := bs))
    case AppendBlock(_) => if Stretched(v, t).None? then None else Some(Stretched(v, t).value.(bs := bs))
    case Rewrite(all) =>
      var n := Clusters(v, |all|);
      var s := RunFrom(t.bits, n, 0);
      if s.None? then None else Some(Layout(Relocated(t.bits, s.value, n, t.at), Span(s.value, n), bs))
  }

  lemma PlanApplies(blocks: seq<Block>, name: seq<Char16>, rs: seq<Rec>, room: bool)
    ensures Applies(blocks, PlanFor(blocks, name, rs, room))
  {
    hide Cmp, Flat, Edited, Packed, Encodes, AllBelow, Across;
  }

  // Whether there is room for a block more matters only to where one is written.
  lemma PlanEither(blocks: seq<Block>, name: seq<Char16>, rs: seq<Rec>)
    ensures !PlanFor(blocks, name, rs, true).AppendBlock? ==>
      PlanFor(blocks, name, rs, true) == PlanFor(blocks, name, rs, false)
    ensures !PlanFor(blocks, name, rs, false).AppendBlock?
  {
    hide Cmp, Flat, Edited, Packed, Encodes, AllBelow, Across;
  }

  /** dir_update, where the version may be entered or removed: what it makes of the
      directory and the free clusters, or nothing where it finds no space. */
  function Updated(v: nat, t: Layout, name: seq<Char16>, edit: Edit): Option<Layout>
    requires v > 0 && |name| <= MAX_NAME
  {
    var rs := NewRecords(Flat(t.bs), name, edit);
    PlanApplies(t.bs, name, rs, Stretched(v, t).Some?);
    Carried(v, t, PlanFor(t.bs, name, rs, Stretched(v, t).Some?))
  }

  /** The name's new records neither fit their block, nor empty it where it is the last,
      nor can follow all others in a block of their own. */
  predicate Anew(v: nat, t: Layout, name: seq<Char16>, rs: seq<Rec>) {
    t.bs == [] || Across(t.bs, name) ||
    var b := Where(t.bs, name);
    var now := Edited(t.bs[b].recs, name, rs);
    if Encodes(Block(now, t.bs[b].tail)) then now == [] && b < |t.bs| - 1
    else !(AllBelow(Flat(t.bs), name) && Encodes(Block(rs, 0)) && Stretched(v, t).Some?)
  }

  /** An update finds no space just when all of the directory has to be written anew, and
      nowhere is there a run of free clusters for its records packed and a quarter more. */
  lemma UpdateFails(v: nat, t: Layout, name: seq<Char16>, edit: Edit)
    requires v > 0 && |name| <= MAX_NAME
    ensures var rs := NewRecords(Flat(t.bs), name, edit);
      var n := Clusters(v, |Packed(Edited(Flat(t.bs), name, rs))|);
      Updated(v, t, name, edit).None? <==>
      Anew(v, t, name, rs) && forall s: nat :: !Bitmap.AllFree(t.bits, s, n)
  {
    hide Cmp, Flat, Edited, Packed, Encodes, AllBelow, Across, NewRecords, Bitmap.AllFree, Clusters, Stretched;
    PlanApplies(t.bs, name, NewRecords(Flat(t.bs), name, edit), Stretched(v, t).Some?);
  }

  /** There is always space in a directory of one block in which the versions fit. */
  lemma RoomyFits(v: nat, t: Layout, name: seq<Char16>, edit: Edit)
    requires v > 0 && |name| <= MAX_NAME
    requires Roomy(t.bs, name, |Changed(Entries(Flat(t.bs), name), edit)|)
    ensures Updated(v, t, name, edit).Some?
  {
    hide Cmp, Edited, Packed, RecordsOf, Used, Bitmap.AllFree, Clusters, Stretched, Entries;
    var g := GroupIn(Flat(t.bs), name, edit);
    GroupName(Flat(t.bs), name, edit);
    var rs := RecordsOf(g.(entries := Changed(g.entries, edit)));
    assert t.bs == [t.bs[0]];
    FlatOne(t.bs[0]);
    assert Used(Edited(Flat(t.bs), name, rs)) <= MAX_RECORD;
    UpdateFails(v, t, name, edit);
  }

  // ---------------------------------------------------------------------
  // Only sizes matter
  // ---------------------------------------------------------------------

  ghost predicate Alike(a: seq<Rec>, b: seq<Rec>) { |a| == |b| && forall i | 0 <= i < |a| :: Size(a[i]) == Size(b[i]) }

  lemma {:induction false} AlikeUsed(a: seq<Rec>, b: seq<Rec>)
    requires Alike(a, b)
    ensures Used(a) == Used(b)
  {
    hide Size;
    if a != [] {
      assert forall i | 0 <= i < |a| - 1 :: a[1..][i] == a[i + 1] && b[1..][i] == b[i + 1];
      AlikeUsed(a[1..], b[1..]);
    }
  }

  lemma AlikeJoin(a: seq<Rec>, b: seq<Rec>, c: seq<Rec>, e: seq<Rec>)
    requires Alike(a, b) && Alike(c, e)
    ensures Alike(a + c, b + e)
  {
    hide Size;
  }

  lemma AlikeSelf(a: seq<Rec>)
    ensures Alike(a, a)
  {
  }

  lemma {:induction false} AlikePacked(cur: seq<Rec>, cur': seq<Rec>, rest: seq<Rec>, rest': seq<Rec>)
    requires Alike(cur, cur') && Alike(rest, rest')
    ensures |PackFrom(cur, rest)| == |PackFrom(cur', rest')|
    decreases |rest|
  {
    hide Size, Used;
    if rest != [] {
      AlikeUsed(cur, cur');
      assert forall i | 0 <= i < |rest| - 1 :: rest[1..][i] == rest[i + 1] && rest'[1..][i] == rest'[i + 1];
      if Full(cur, rest[0]) {
        AlikePacked([rest[0]], [rest'[0]], rest[1..], rest'[1..]);
      } else {
        AlikeJoin(cur, cur', [rest[0]], [rest'[0]]);
        AlikePacked(cur + [rest[0]], cur' + [rest'[0]], rest[1..], rest'[1..]);
      }
    }
  }

  lemma {:induction false} AlikeRecords(g: Group, h: Group)
    requires |g.name| == |h.name| <= MAX_NAME && |g.entries| == |h.entries|
    ensures Alike(RecordsOf(g), RecordsOf(h))
    decreases |g.entries|
  {
    hide Even;
    var n := PerRecord(g.name);
    if |g.entries| > n {
      AlikeRecords(g.(entries := g.entries[n..]), h.(entries := h.entries[n..]));
      AlikeJoin([Rec(g.name, g.verlimit, g.flags, g.entries[..n])], [Rec(h.name, h.verlimit, h.flags, h.entries[..n])],
                RecordsOf(g.(entries := g.entries[n..])), RecordsOf(h.(entries := h.entries[n..])));
    }
  }

  lemma AlikeEdited(recs: seq<Rec>, name: seq<Char16>, rs: seq<Rec>, rs': seq<Rec>)
    requires Alike(rs, rs')
    ensures Alike(Edited(recs, name, rs), Edited(recs, name, rs'))
    ensures Used(Edited(recs, name, rs)) == Used(Edited(recs, name, rs'))
    ensures |Packed(Edited(recs, name, rs))| == |Packed(Edited(recs, name, rs'))|
  {
    hide Below, Above, Used, Alike, PackFrom;
    AlikeSelf(Below(recs, name));
    AlikeSelf(Above(recs, name));
    AlikeSelf([]);
    AlikeJoin(Below(recs, name), Below(recs, name), rs, rs');
    AlikeJoin(Below(recs, name) + rs, Below(recs, name) + rs', Above(recs, name), Above(recs, name));
    AlikeUsed(Edited(recs, name, rs), Edited(recs, name, rs'));
    AlikePacked([], [], Edited(recs, name, rs), Edited(recs, name, rs'));
  }

  /** There is no space to enter a version of the name. */
  predicate NoPlaceFor(v: nat, t: Layout, name: seq<Char16>, version: int)
    requires v > 0 && |name| <= MAX_NAME
  {
    Updated(v, t, name, Add(version, Fid(0, 0), 0, 0)).None?
  }

  /** Whether there is space for an entry is the same whichever file it is for. */
  lemma AddAlike(v: nat, t: Layout, name: seq<Char16>, version: int, f: Fid, flags: int, limit: int)
    requires v > 0 && |name| <= MAX_NAME
    ensures Updated(v, t, name, Add(version, f, flags, limit)).None? <==> NoPlaceFor(v, t, name, version)
  {
    hide Edited, Packed, Flat, NewRecords, Updated, Bitmap.AllFree, Clusters;
    var e, z := Add(version, f, flags, limit), Add(version, Fid(0, 0), 0, 0);
    var recs := Flat(t.bs);
    NewAlike(recs, name, e, z);
    var rs, rs' := NewRecords(recs, name, e), NewRecords(recs, name, z);
    AlikeEdited(recs, name, rs, rs');
    AnewAlike(v, t, name, rs, rs');
    UpdateFails(v, t, name, e);
    UpdateFails(v, t, name, z);
  }

  lemma NewAlike(recs: seq<Rec>, name: seq<Char16>, e: Edit, z: Edit)
    requires e.Add? && z.Add? && e.version == z.version && |name| <= MAX_NAME
    ensures Alike(NewRecords(recs, name, e), NewRecords(recs, name, z))
  {
    hide RecordsOf, Alike, Entries, Cmp;
    GroupName(recs, name, e);
    GroupName(recs, name, z);
    InsertSize(Entries(recs, name), Entry(e.version, e.fid));
    InsertSize(Entries(recs, name), Entry(z.version, z.fid));
    var g, h := GroupIn(recs, name, e), GroupIn(recs, name, z);
    AlikeRecords(g.(entries := Changed(g.entries, e)), h.(entries := Changed(h.entries, z)));
  }

  lemma {:induction false} InsertSize(es: seq<Entry>, e: Entry)
    ensures |Insert(es, e)| == |es| + 1
  {
    if es != [] && es[0].version >= e.version { InsertSize(es[1..], e); }
  }

  lemma AnewAlike(v: nat, t: Layout, name: seq<Char16>, rs: seq<Rec>, rs': seq<Rec>)
    requires Alike(rs, rs')
    ensures Anew(v, t, name, rs) <==> Anew(v, t, name, rs')
  {
    hide Edited, Flat, Used, Packed, Across, AllBelow, Stretched, Where;
    AlikeUsed(rs, rs');
    if t.bs != [] {
      var b := Where(t.bs, name);
      AlikeEdited(t.bs[b].recs, name, rs, rs');
    }
  }
}
