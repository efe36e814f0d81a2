/** A file's map: retrieval pointers in a chain of headers.  What a map stands
    for is the sequence of logical blocks the file's virtual blocks are at. */
module FileMap {
  import opened Numbers

  const MAX_COUNT := 0x4000_0000
  const EXT_CAP := 430 // a block, less its checksum and the fields of a header

  datatype Option<T> = None | Some(value: T)

  /** Consecutive logical blocks. */
  datatype Run = Run(lbn: nat, count: nat)

  datatype Pointer = Placement(w: nat) | Extent(format: nat, count: nat, lbn: nat)

  // ---------------------------------------------------------------------
  // What they stand for
  // ---------------------------------------------------------------------

  function Span(lbn: nat, count: nat): (r: seq<nat>)
    ensures |r| == count
  {
    seq(count, i requires 0 <= i => lbn + i)
  }

  function Lbns(runs: seq<Run>): seq<nat> {
    if runs == [] then [] else Span(runs[0].lbn, runs[0].count) + Lbns(runs[1..])
  }

  function BlocksOf(p: Pointer): seq<nat> {
    if p.Extent? then Span(p.lbn, p.count) else []
  }

  function Blocks(ptrs: seq<Pointer>): seq<nat> {
    if ptrs == [] then [] else BlocksOf(ptrs[0]) + Blocks(ptrs[1..])
  }

  lemma {:induction false} LbnsSplit(a: seq<Run>, b: seq<Run>)
    ensures Lbns(a + b) == Lbns(a) + Lbns(b)
  {
    if a == [] {
      assert a + b == b;
    } else {
      assert (a + b)[1..] == a[1..] + b;
      LbnsSplit(a[1..], b);
    }
  }

  lemma {:induction false} BlocksSplit(a: seq<Pointer>, b: seq<Pointer>)
    ensures Blocks(a + b) == Blocks(a) + Blocks(b)
  {
    if a == [] {
      assert a + b == b;
    } else {
      assert (a + b)[1..] == a[1..] + b;
      BlocksSplit(a[1..], b);
    }
  }

  lemma LbnsOne(r: Run)
    ensures Lbns([r]) == Span(r.lbn, r.count)
  {
    assert [r][1..] == [];
  }

  lemma BlocksOne(p: Pointer)
    ensures Blocks([p]) == BlocksOf(p)
  {
    assert [p][1..] == [];
  }

  lemma SpanSplit(lbn: nat, a: nat, b: nat)
    ensures Span(lbn, a + b) == Span(lbn, a) + Span(lbn + a, b)
  {
  }

  /** The runs with each joined to the one before it where it continues that. */
  function Merged(runs: seq<Run>): seq<Run> {
    if runs == [] then []
    else
      var out, r := Merged(runs[..|runs| - 1]), runs[|runs| - 1];
      if out != [] && out[|out| - 1].lbn + out[|out| - 1].count == r.lbn then
        out[..|out| - 1] + [Run(out[|out| - 1].lbn, out[|out| - 1].count + r.count)]
      else out + [r]
  }

  // No run continues the one before it.
  predicate Maximal(runs: seq<Run>) {
    forall i | 0 < i < |runs| :: runs[i - 1].lbn + runs[i - 1].count != runs[i].lbn
  }

  lemma {:induction false} MergedBlocks(runs: seq<Run>)
    ensures Lbns(Merged(runs)) == Lbns(runs)
  {
    hide Lbns, Span;
    if runs != [] {
      var k := |runs| - 1;
      var out, r := Merged(runs[..k]), runs[k];
      MergedBlocks(runs[..k]);
      assert runs == runs[..k] + [r];
      LbnsSplit(runs[..k], [r]);
      LbnsOne(r);
      if out != [] && out[|out| - 1].lbn + out[|out| - 1].count == r.lbn {
        assert out == out[..|out| - 1] + [out[|out| - 1]];
        MergeLast(out[..|out| - 1], out[|out| - 1], r);
      } else {
        LbnsSplit(out, [r]);
      }
    }
  }

  lemma {:induction false} MergedMaximal(runs: seq<Run>)
    ensures Maximal(Merged(runs))
  {
    if runs != [] {
      var out := Merged(runs[..|runs| - 1]);
      MergedMaximal(runs[..|runs| - 1]);
      if out != [] { assert out == out[..|out| - 1] + [out[|out| - 1]]; }
    }
  }

  lemma {:induction false} MergedFrom(runs: seq<Run>)
    ensures (forall r <- runs :: Addressable(r)) ==> forall r <- Merged(runs) :: Addressable(r)
    ensures (forall r <- runs :: r.count > 0) ==> forall r <- Merged(runs) :: r.count > 0
  {
    if runs != [] {
      var out, r := Merged(runs[..|runs| - 1]), runs[|runs| - 1];
      MergedFrom(runs[..|runs| - 1]);
      assert r in runs && forall x <- runs[..|runs| - 1] :: x in runs;
      if out != [] { assert out[|out| - 1] in out; }
    }
  }

  /** merge_runs: the same blocks, and no run continues the one before it. */
  method MergeRuns(runs: seq<Run>) returns (out: seq<Run>)
    ensures out == Merged(runs) && Lbns(out) == Lbns(runs) && Maximal(out)
  {
    out := [];
    assert runs[..0] == [];
    for k := 0 to |runs|
      invariant out == Merged(runs[..k])
    {
      var r := runs[k];
      assert runs[..k + 1] == runs[..k] + [r] && runs[..k + 1][..k] == runs[..k];
      if out != [] && out[|out| - 1].lbn + out[|out| - 1].count == r.lbn {
        out := out[..|out| - 1] + [Run(out[|out| - 1].lbn, out[|out| - 1].count + r.count)];
      } else {
        out := out + [r];
      }
    }
    assert runs[..|runs|] == runs;
    MergedBlocks(runs);
    MergedMaximal(runs);
  }

  /** What they are merged into depends on the blocks alone. */
  lemma MergedOnly(a: seq<Run>, b: seq<Run>)
    requires (forall r <- a :: r.count > 0) && (forall r <- b :: r.count > 0) && Lbns(a) == Lbns(b)
    ensures Merged(a) == Merged(b)
  {
    MergedBlocks(a);
    MergedBlocks(b);
    MergedMaximal(a);
    MergedMaximal(b);
    MergedFrom(a);
    MergedFrom(b);
    OneWay(Merged(a), Merged(b));
  }

  lemma {:induction false} OneWay(a: seq<Run>, b: seq<Run>)
    requires Maximal(a) && Maximal(b) && (forall r <- a :: r.count > 0) && (forall r <- b :: r.count > 0)
    requires Lbns(a) == Lbns(b)
    ensures a == b
  {
    SomeBlocks(a);
    SomeBlocks(b);
    if a != [] && b != [] {
      assert a[0] in a && b[0] in b;
      FirstBlocks(a);
      FirstBlocks(b);
      FirstBreaks(a);
      FirstBreaks(b);
      assert Lbns(a)[0] == a[0].lbn && Lbns(b)[0] == b[0].lbn;
      assert Lbns(a)[a[0].count..] == Lbns(a[1..]) && Lbns(b)[b[0].count..] == Lbns(b[1..]);
      MaximalRest(a);
      MaximalRest(b);
      OneWay(a[1..], b[1..]);
      assert a == [a[0]] + a[1..] && b == [b[0]] + b[1..];
    }
  }

  lemma SomeBlocks(a: seq<Run>)
    requires forall r <- a :: r.count > 0
    ensures a == [] <==> Lbns(a) == []
  {
    if a != [] { assert a[0] in a; }
  }

  lemma MaximalRest(a: seq<Run>)
    requires a != [] && Maximal(a) && forall r <- a :: r.count > 0
    ensures Maximal(a[1..]) && forall r <- a[1..] :: r.count > 0
  {
    forall i | 0 < i < |a[1..]|
      ensures a[1..][i - 1].lbn + a[1..][i - 1].count != a[1..][i].lbn
    {
      assert a[1..][i - 1] == a[i] && a[1..][i] == a[i + 1];
    }
  }

  lemma FirstBlocks(a: seq<Run>)
    requires a != []
    ensures |Lbns(a)| == a[0].count + |Lbns(a[1..])| && Lbns(a)[a[0].count..] == Lbns(a[1..])
    ensures forall i | 0 <= i < a[0].count :: Lbns(a)[i] == a[0].lbn + i
  {
  }

  // The blocks do not go on where the first of maximal runs ends.
  lemma FirstBreaks(a: seq<Run>)
    requires a != [] && Maximal(a) && forall r <- a :: r.count > 0
    ensures |Lbns(a)| > a[0].count ==> Lbns(a)[a[0].count] != a[0].lbn + a[0].count
  {
    FirstBlocks(a);
    if |a| > 1 {
      assert a[1] in a && a[1..][0] == a[1];
      FirstBlocks(a[1..]);
      assert Lbns(a)[a[0].count..][0] == a[1].lbn;
    }
  }

  lemma LbnsNone()
    ensures Lbns([]) == []
  {
  }

  lemma MergeLast(init: seq<Run>, l: Run, r: Run)
    requires l.lbn + l.count == r.lbn
    ensures Lbns(init + [Run(l.lbn, l.count + r.count)]) == Lbns(init + [l]) + Span(r.lbn, r.count)
  {
    hide Lbns, Span;
    LbnsSplit(init, [l]);
    LbnsSplit(init, [Run(l.lbn, l.count + r.count)]);
    LbnsOne(l);
    LbnsOne(Run(l.lbn, l.count + r.count));
    SpanSplit(l.lbn, l.count, r.count);
    assert Lbns(init) + (Span(l.lbn, l.count) + Span(r.lbn, r.count)) ==
      Lbns(init) + Span(l.lbn, l.count) + Span(r.lbn, r.count);
  }

  /** map_vbn: the block a virtual block is at, and how far its run goes on; none
      for block 0 and past the map. */
  method MapVbn(runs: seq<Run>, vbn: nat) returns (at: Option<(nat, nat)>)
    ensures at.Some? <==> 1 <= vbn <= |Lbns(runs)|
    ensures at.Some? ==> at.value.1 > 0 && vbn - 1 + at.value.1 <= |Lbns(runs)|
    ensures at.Some? ==> Lbns(runs)[vbn - 1..vbn - 1 + at.value.1] == Span(at.value.0, at.value.1)
  {
    hide Lbns, Span;
    var first := 1;
    assert runs[..0] == [];
    LbnsNone();
    for k := 0 to |runs|
      invariant first == 1 + |Lbns(runs[..k])| && (vbn == 0 || first <= vbn)
    {
      var r := runs[k];
      LbnsAt(runs, k);
      if vbn < first + r.count {
        if vbn < first {
          return None;
        }
        SpanPart(r.lbn, r.count, vbn - first);
        return Some((r.lbn + (vbn - first), r.count - (vbn - first)));
      }
      first := first + r.count;
    }
    assert runs[..|runs|] == runs;
    at := None;
  }

  // The run at k comes after the blocks of those before it.
  lemma LbnsAt(runs: seq<Run>, k: nat)
    requires k < |runs|
    ensures |Lbns(runs[..k + 1])| == |Lbns(runs[..k])| + runs[k].count <= |Lbns(runs)|
    ensures Lbns(runs)[|Lbns(runs[..k])|..|Lbns(runs[..k + 1])|] == Span(runs[k].lbn, runs[k].count)
  {
    assert runs[..k + 1] == runs[..k] + [runs[k]] && runs == runs[..k + 1] + runs[k + 1..];
    LbnsSplit(runs[..k], [runs[k]]);
    LbnsOne(runs[k]);
    LbnsSplit(runs[..k + 1], runs[k + 1..]);
  }

  lemma SpanPart(lbn: nat, count: nat, off: nat)
    requires off <= count
    ensures Span(lbn, count)[off..] == Span(lbn + off, count - off)
  {
  }

  // ---------------------------------------------------------------------
  // Retrieval pointers
  // ---------------------------------------------------------------------

  /** The smallest format that holds an extent: 4, 6 or 8 bytes. */
  function ExtentOf(count: nat, lbn: nat): (p: Option<Pointer>)
    ensures p.Some? <==> 1 <= count <= MAX_COUNT
  {
    if 1 <= count <= 256 && lbn < 0x40_0000 then Some(Extent(1, count, lbn))
    else if 1 <= count <= 0x4000 then Some(Extent(2, count, lbn))
    else if 1 <= count <= MAX_COUNT then Some(Extent(3, count, lbn))
    else None
  }

  function Size(p: Pointer): nat {
    match p
    case Placement(_) => 2
    case Extent(format, _, _) => 2 + 2 * format
  }

  function Encoded(ptrs: seq<Pointer>): nat {
    if ptrs == [] then 0 else Size(ptrs[0]) + Encoded(ptrs[1..])
  }

  /** A pointer its format holds. */
  predicate Holds(p: Pointer) {
    match p
    case Placement(w) => w < 0x4000
    case Extent(format, count, lbn) =>
      || (format == 1 && 1 <= count <= 256 && lbn < 0x40_0000)
      || (format == 2 && 1 <= count <= 0x4000 && lbn < 0x1_0000_0000)
      || (format == 3 && 1 <= count <= MAX_COUNT && lbn < 0x1_0000_0000)
  }

  lemma ExtentHolds(count: nat, lbn: nat)
    requires 1 <= count <= MAX_COUNT && lbn < 0x1_0000_0000
    ensures ExtentOf(count, lbn).Some? && Holds(ExtentOf(count, lbn).value)
    ensures BlocksOf(ExtentOf(count, lbn).value) == Span(lbn, count) && Size(ExtentOf(count, lbn).value) <= 8
  {
  }

  // A shorter extent at the same place needs no more bytes.
  lemma ExtentShorter(p: Pointer, count: nat)
    requires p.Extent? && Holds(p) && 1 <= count <= p.count
    ensures ExtentOf(count, p.lbn).Some? && Size(ExtentOf(count, p.lbn).value) <= Size(p)
    ensures Holds(ExtentOf(count, p.lbn).value) && BlocksOf(ExtentOf(count, p.lbn).value) == Span(p.lbn, count)
  {
  }

  lemma {:induction false} EncodedSplit(a: seq<Pointer>, b: seq<Pointer>)
    ensures Encoded(a + b) == Encoded(a) + Encoded(b)
  {
    if a == [] {
      assert a + b == b;
    } else {
      assert (a + b)[1..] == a[1..] + b;
      EncodedSplit(a[1..], b);
    }
  }

  // ---------------------------------------------------------------------
  // As words in a header
  // ---------------------------------------------------------------------

  /** encode_map, in 16-bit words. */
  function Words(p: Pointer): seq<nat>
    requires Holds(p)
  {
    match p
    case Placement(w) => [w]
    case Extent(format, count, lbn) =>
      var n := count - 1;
      if format == 1 then [0x4000 + lbn / 0x1_0000 % 64 * 256 + n % 256, lbn % 0x1_0000]
      else if format == 2 then [0x8000 + n % 0x4000, lbn % 0x1_0000, lbn / 0x1_0000 % 0x1_0000]
      else [0xc000 + n / 0x1_0000 % 0x4000, n % 0x1_0000, lbn % 0x1_0000, lbn / 0x1_0000 % 0x1_0000]
  }

  /** The three formats: their number in the top two bits, the count less one, and the block
      number, in the words it is in. */
  lemma WordsAre(n: nat, m: nat, low: nat, high: nat)
    requires n < 0x1_0000 && m < 0x4000 && low < 0x1_0000 && high < 0x1_0000
    ensures n < 0x100 && high < 0x40 ==>
      Words(Extent(1, n + 1, 0x1_0000 * high + low)) == [0x4000 + 0x100 * high + n, low]
    ensures m < 0x4000 ==> Words(Extent(2, m + 1, 0x1_0000 * high + low)) == [0x8000 + m, low, high]
    ensures Words(Extent(3, 0x1_0000 * m + n + 1, 0x1_0000 * high + low)) == [0xc000 + m, n, low, high]
  {
    var lbn := 0x1_0000 * high + low;
    DivModUnique(lbn, high, low, 0x1_0000);
    DivModUnique(high, 0, high, 0x1_0000);
    DivModUnique(0x1_0000 * m + n, m, n, 0x1_0000);
    DivModUnique(m, 0, m, 0x4000);
    if n < 0x100 && high < 0x40 {
      DivModUnique(high, 0, high, 64);
      DivModUnique(n, 0, n, 256);
    }
  }

  function EncodeMap(ptrs: seq<Pointer>): seq<nat>
    requires forall p <- ptrs :: Holds(p)
  {
    if ptrs == [] then [] else Words(ptrs[0]) + EncodeMap(ptrs[1..])
  }

  /** decode_map's next pointer, and how many words it takes; none where it is
      cut short. */
  function DecodeOne(m: seq<nat>): Option<(Pointer, nat)>
    requires m != []
  {
    var w := m[0];
    var kind := w / 0x4000 % 4;
    if kind == 0 then Some((Placement(w), 1))
    else if |m| < kind + 1 then None
    else if kind == 1 then Some((Extent(1, w % 256 + 1, w / 256 % 64 * 0x1_0000 + m[1]), 2))
    else if kind == 2 then Some((Extent(2, w % 0x4000 + 1, m[1] + m[2] * 0x1_0000), 3))
    else Some((Extent(3, w % 0x4000 * 0x1_0000 + m[1] + 1, m[2] + m[3] * 0x1_0000), 4))
  }

  function DecodeMap(m: seq<nat>): Option<seq<Pointer>>
    decreases |m|
  {
    if m == [] then Some([])
    else
      var one := DecodeOne(m);
      if one.None? then None
      else
        var rest := DecodeMap(m[one.value.1..]);
        if rest.None? then None else Some([one.value.0] + rest.value)
  }

  lemma FirstFormat(n: nat, lbn: nat)
    requires n < 256 && lbn < 0x40_0000
    ensures var w := 0x4000 + lbn / 0x1_0000 % 64 * 256 + n % 256;
      w / 0x4000 % 4 == 1 && w % 256 == n && w / 256 % 64 * 0x1_0000 + lbn % 0x1_0000 == lbn
  {
    var high := lbn / 0x1_0000;
    DivModUnique(high, 0, high, 64);
    DivModUnique(n, 0, n, 256);
    var w := 0x4000 + high * 256 + n;
    DivModUnique(w, 1, high * 256 + n, 0x4000);
    DivModUnique(w, 64 + high, n, 256);
    DivModUnique(64 + high, 1, high, 64);
  }

  lemma SecondFormat(n: nat)
    requires n < 0x4000
    ensures var w := 0x8000 + n % 0x4000; w / 0x4000 % 4 == 2 && w % 0x4000 == n
  {
    DivModUnique(0x8000 + n, 2, n, 0x4000);
  }

  lemma ThirdFormat(n: nat)
    requires n < MAX_COUNT
    ensures var w := 0xc000 + n / 0x1_0000 % 0x4000;
      w / 0x4000 % 4 == 3 && w % 0x4000 * 0x1_0000 + n % 0x1_0000 == n
  {
    var top := n / 0x1_0000;
    DivModUnique(top, 0, top, 0x4000);
    DivModUnique(0xc000 + top, 3, top, 0x4000);
  }

  lemma LongLbn(lbn: nat)
    requires lbn < 0x1_0000_0000
    ensures lbn % 0x1_0000 + lbn / 0x1_0000 % 0x1_0000 * 0x1_0000 == lbn
  {
    DivModUnique(lbn / 0x1_0000, 0, lbn / 0x1_0000, 0x1_0000);
  }

  lemma WordsDecode(p: Pointer, rest: seq<nat>)
    requires Holds(p)
    ensures var m := Words(p) + rest;
      DecodeOne(m) == Some((p, |Words(p)|)) && 2 * |Words(p)| == Size(p)
  {
    hide DecodeOne;
    match p {
      case Placement(w) => DecodesPlacement(w, rest);
      case Extent(format, count, lbn) =>
        if format == 1 {
          DecodesFirst(count, lbn, rest);
        } else if format == 2 {
          DecodesSecond(count, lbn, rest);
        } else {
          DecodesThird(count, lbn, rest);
        }
    }
  }

  lemma DecodesPlacement(w: nat, rest: seq<nat>)
    requires w < 0x4000
    ensures DecodeOne([w] + rest) == Some((Placement(w), 1))
  {
    DivModUnique(w, 0, w, 0x4000);
    assert ([w] + rest)[0] == w;
  }

  lemma DecodesFirst(count: nat, lbn: nat, rest: seq<nat>)
    requires Holds(Extent(1, count, lbn))
    ensures DecodeOne(Words(Extent(1, count, lbn)) + rest) == Some((Extent(1, count, lbn), 2))
  {
    FirstFormat(count - 1, lbn);
    var m := Words(Extent(1, count, lbn));
    assert (m + rest)[0] == m[0] && (m + rest)[1] == m[1];
  }

  lemma DecodesSecond(count: nat, lbn: nat, rest: seq<nat>)
    requires Holds(Extent(2, count, lbn))
    ensures DecodeOne(Words(Extent(2, count, lbn)) + rest) == Some((Extent(2, count, lbn), 3))
  {
    SecondFormat(count - 1);
    LongLbn(lbn);
    var m := Words(Extent(2, count, lbn));
    assert (m + rest)[0] == m[0] && (m + rest)[1] == m[1] && (m + rest)[2] == m[2];
  }

  lemma DecodesThird(count: nat, lbn: nat, rest: seq<nat>)
    requires Holds(Extent(3, count, lbn))
    ensures DecodeOne(Words(Extent(3, count, lbn)) + rest) == Some((Extent(3, count, lbn), 4))
  {
    ThirdFormat(count - 1);
    LongLbn(lbn);
    var m := Words(Extent(3, count, lbn));
    assert (m + rest)[0] == m[0] && (m + rest)[1] == m[1] && (m + rest)[2] == m[2] && (m + rest)[3] == m[3];
  }

  /** Reading a map back gives the pointers that were written. */
  lemma {:induction false} MapRoundTrip(ptrs: seq<Pointer>)
    requires forall p <- ptrs :: Holds(p)
    ensures DecodeMap(EncodeMap(ptrs)) == Some(ptrs) && 2 * |EncodeMap(ptrs)| == Encoded(ptrs)
  {
    hide Words, DecodeOne;
    if ptrs != [] {
      var rest := EncodeMap(ptrs[1..]);
      MapRoundTrip(ptrs[1..]);
      assert ptrs[0] in ptrs;
      WordsDecode(ptrs[0], rest);
      WordsSome(ptrs[0]);
      assert (Words(ptrs[0]) + rest)[|Words(ptrs[0])|..] == rest;
      assert [ptrs[0]] + ptrs[1..] == ptrs;
    }
  }

  lemma WordsSome(p: Pointer)
    requires Holds(p)
    ensures Words(p) != []
  {
  }

  // ---------------------------------------------------------------------
  // Pointers for runs
  // ---------------------------------------------------------------------

  predicate Addressable(r: Run) { r.count > 0 && r.lbn + r.count <= 0x1_0000_0000 }

  /** The pointers of one run, cut where it is too long for one. */
  function RunPointers(lbn: nat, count: nat): seq<Pointer>
    decreases count
  {
    if count == 0 then []
    else
      var n := if count < MAX_COUNT then count else MAX_COUNT;
      [ExtentOf(n, lbn).value] + RunPointers(lbn + n, count - n)
  }

  function Pointers(runs: seq<Run>): seq<Pointer> {
    if runs == [] then [] else RunPointers(runs[0].lbn, runs[0].count) + Pointers(runs[1..])
  }

  lemma {:induction false} RunPointersBlocks(lbn: nat, count: nat)
    ensures Blocks(RunPointers(lbn, count)) == Span(lbn, count)
    ensures lbn + count <= 0x1_0000_0000 ==> forall p <- RunPointers(lbn, count) :: Holds(p)
    decreases count
  {
    hide Blocks, Span;
    if count == 0 {
      BlocksNone();
      SpanNone(lbn);
    } else {
      var n := if count < MAX_COUNT then count else MAX_COUNT;
      var p := ExtentOf(n, lbn).value;
      RunPointersBlocks(lbn + n, count - n);
      BlocksSplit([p], RunPointers(lbn + n, count - n));
      BlocksOne(p);
      SpanSplit(lbn, n, count - n);
    }
  }

  lemma {:induction false} PointersBlocks(runs: seq<Run>)
    ensures Blocks(Pointers(runs)) == Lbns(runs)
    ensures (forall r <- runs :: Addressable(r)) ==> forall p <- Pointers(runs) :: Holds(p)
  {
    hide Blocks, Span, RunPointers, Holds;
    if runs == [] {
      BlocksNone();
    } else {
      var r := runs[0];
      RunPointersBlocks(r.lbn, r.count);
      PointersBlocks(runs[1..]);
      BlocksSplit(RunPointers(r.lbn, r.count), Pointers(runs[1..]));
      assert r in runs && forall x <- runs[1..] :: x in runs;
    }
  }

  lemma {:induction false} PointersSplit(a: seq<Run>, b: seq<Run>)
    ensures Pointers(a + b) == Pointers(a) + Pointers(b)
  {
    hide RunPointers;
    if a == [] {
      assert a + b == b;
    } else {
      assert (a + b)[1..] == a[1..] + b;
      PointersSplit(a[1..], b);
    }
  }

  lemma BlocksNone()
    ensures Blocks([]) == []
  {
  }

  lemma SpanNone(lbn: nat)
    ensures Span(lbn, 0) == []
  {
  }

  // A run's pointers, from the front.
  method PointersOf(r: Run) returns (out: seq<Pointer>)
    ensures out == RunPointers(r.lbn, r.count)
  {
    hide ExtentOf;
    out := [];
    var lbn, left := r.lbn, r.count;
    while left > 0
      invariant left >= 0 && lbn >= 0 && out + RunPointers(lbn, left) == RunPointers(r.lbn, r.count)
      decreases left
    {
      var n := if left < MAX_COUNT then left else MAX_COUNT;
      var p := ExtentOf(n, lbn).value;
      OneOn(out, p, RunPointers(lbn + n, left - n));
      out := out + [p];
      lbn, left := lbn + n, left - n;
    }
  }

  lemma OneOn<T>(a: seq<T>, p: T, b: seq<T>)
    ensures a + ([p] + b) == a + [p] + b && a + [] == a
  {
  }

  /** pointers: the smallest that hold the runs, in order. */
  method PointersFor(runs: seq<Run>) returns (out: seq<Pointer>)
    requires forall r <- runs :: Addressable(r)
    ensures out == Pointers(runs) && Blocks(out) == Lbns(runs) && forall p <- out :: Holds(p)
  {
    hide Blocks, Lbns, Holds, RunPointers;
    out := [];
    assert runs[..0] == [];
    for k := 0 to |runs|
      invariant out == Pointers(runs[..k])
    {
      assert runs[..k + 1] == runs[..k] + [runs[k]] && [runs[k]][1..] == [];
      PointersSplit(runs[..k], [runs[k]]);
      var ps := PointersOf(runs[k]);
      assert Pointers([runs[k]]) == ps + [];
      out := out + ps;
    }
    assert runs[..|runs|] == runs;
    PointersBlocks(runs);
  }

  /** The longest prefix of the pointers that takes no more than cap bytes. */
  function Fit(ptrs: seq<Pointer>, cap: nat): (k: nat)
    ensures k <= |ptrs|
  {
    if ptrs == [] || Size(ptrs[0]) > cap then 0 else 1 + Fit(ptrs[1..], cap - Size(ptrs[0]))
  }

  lemma {:induction false} FitFits(ptrs: seq<Pointer>, cap: nat)
    ensures Encoded(ptrs[..Fit(ptrs, cap)]) <= cap
    ensures forall k | 0 <= k <= |ptrs| && Encoded(ptrs[..k]) <= cap :: k <= Fit(ptrs, cap)
  {
    if ptrs != [] && Size(ptrs[0]) <= cap {
      var left := cap - Size(ptrs[0]);
      FitFits(ptrs[1..], left);
      assert ptrs[..Fit(ptrs, cap)][1..] == ptrs[1..][..Fit(ptrs[1..], left)];
      forall k | 0 <= k <= |ptrs| && Encoded(ptrs[..k]) <= cap
        ensures k <= Fit(ptrs, cap)
      {
        if k > 0 {
          assert ptrs[..k][1..] == ptrs[1..][..k - 1];
          assert Encoded(ptrs[1..][..k - 1]) <= left;
        }
      }
    } else if ptrs != [] {
      forall k | 0 < k <= |ptrs|
        ensures Encoded(ptrs[..k]) > cap
      {
        assert ptrs[..k][0] == ptrs[0];
      }
    }
  }

  // ---------------------------------------------------------------------
  // A chain of headers
  // ---------------------------------------------------------------------

  /** The bytes a file's first header has for pointers, after an ident area for a name
      of so many bytes. */
  function MapRoom(ods5: bool, name: nat): nat {
    var ident := if ods5 && 76 + name > 120 then 76 + name else 120;
    var start := 40 + (ident + 1) / 2; // in words
    if start <= 255 then 510 - 2 * start else 0
  }

  /** Forty words, the ident area in whole words and the room fill a header up to its
      checksum; the ident area is 120 bytes, or on an ODS-5 volume as long as the name needs. */
  lemma MapRoomIs(ods5: bool, name: nat)
    ensures !ods5 || name <= 44 ==> MapRoom(ods5, name) == 310
    ensures ods5 && 44 < name <= 354 ==> 80 + (76 + name + (76 + name) % 2) + MapRoom(ods5, name) == 510
  {
  }

  /** A header's pointers, and the bytes it has for them. */
  datatype Seg = Seg(ptrs: seq<Pointer>, cap: nat)

  predicate Fits(s: Seg) { Encoded(s.ptrs) <= s.cap && forall p <- s.ptrs :: Holds(p) }

  function FileBlocks(segs: seq<Seg>): seq<nat> {
    if segs == [] then [] else Blocks(segs[0].ptrs) + FileBlocks(segs[1..])
  }

  lemma {:induction false} FileSplit(a: seq<Seg>, b: seq<Seg>)
    ensures FileBlocks(a + b) == FileBlocks(a) + FileBlocks(b)
  {
    if a == [] {
      assert a + b == b;
    } else {
      assert (a + b)[1..] == a[1..] + b;
      FileSplit(a[1..], b);
    }
  }

  lemma FileOne(s: Seg)
    ensures FileBlocks([s]) == Blocks(s.ptrs)
  {
    assert [s][1..] == [];
  }

  /** The pointers that did not fit, as full as extension headers hold them. */
  function Chunks(ptrs: seq<Pointer>): seq<seq<Pointer>>
    decreases |ptrs|
  {
    if ptrs == [] then []
    else
      var n := if Fit(ptrs, EXT_CAP) > 1 then Fit(ptrs, EXT_CAP) else 1;
      [ptrs[..n]] + Chunks(ptrs[n..])
  }

  function Joined(parts: seq<seq<Pointer>>): seq<Pointer> {
    if parts == [] then [] else parts[0] + Joined(parts[1..])
  }

  lemma {:induction false} ChunksJoin(ptrs: seq<Pointer>)
    ensures Joined(Chunks(ptrs)) == ptrs && forall c <- Chunks(ptrs) :: c != []
    decreases |ptrs|
  {
    hide Fit;
    if ptrs != [] {
      var n := if Fit(ptrs, EXT_CAP) > 1 then Fit(ptrs, EXT_CAP) else 1;
      ChunksJoin(ptrs[n..]);
      assert ptrs == ptrs[..n] + ptrs[n..];
    }
  }

  lemma {:induction false} ChunksFit(ptrs: seq<Pointer>)
    requires forall p <- ptrs :: Holds(p)
    ensures forall c <- Chunks(ptrs) :: Fits(Seg(c, EXT_CAP))
    decreases |ptrs|
  {
    hide Fit, Encoded, Holds;
    if ptrs != [] {
      FitFits(ptrs, EXT_CAP);
      FitsOne(ptrs);
      ChunksFit(ptrs[Fit(ptrs, EXT_CAP)..]);
    }
  }

  /** No other way of dividing them, in order, needs fewer headers. */
  lemma ChunksFewest(ptrs: seq<Pointer>, parts: seq<seq<Pointer>>)
    requires Joined(parts) == ptrs && forall c <- parts :: Encoded(c) <= EXT_CAP
    ensures |Chunks(ptrs)| <= |parts|
  {
    assert ptrs[0..] == ptrs;
    TailFewest(ptrs, 0, parts);
  }

  lemma {:induction false} TailFewest(ptrs: seq<Pointer>, k: nat, parts: seq<seq<Pointer>>)
    requires Joined(parts) == ptrs && k <= |ptrs| && forall c <- parts :: Encoded(c) <= EXT_CAP
    ensures |Chunks(ptrs[k..])| <= |parts|
    decreases |parts|
  {
    hide Fit, Encoded;
    var q := ptrs[k..];
    if q != [] {
      var first, rest := parts[0], Joined(parts[1..]);
      assert ptrs == first + rest && first in parts && forall c <- parts[1..] :: c in parts;
      if k >= |first| {
        assert q == rest[k - |first|..];
        TailFewest(rest, k - |first|, parts[1..]);
      } else {
        var n := if Fit(q, EXT_CAP) > 1 then Fit(q, EXT_CAP) else 1;
        var m := |first| - k;
        assert q[..m] == first[k..] && first == first[..k] + first[k..];
        EncodedSplit(first[..k], first[k..]);
        FitFits(q, EXT_CAP);
        assert q[n..] == rest[n - m..];
        TailFewest(rest, n - m, parts[1..]);
      }
    }
  }

  // Pointers of the first format.
  predicate AllShort(ptrs: seq<Pointer>) { forall p <- ptrs :: Size(p) == 4 }

  lemma {:induction false} FitShort(ptrs: seq<Pointer>, cap: nat)
    requires AllShort(ptrs)
    ensures Fit(ptrs, cap) == if |ptrs| <= cap / 4 then |ptrs| else cap / 4
  {
    if ptrs != [] {
      assert ptrs[0] in ptrs && forall p <- ptrs[1..] :: p in ptrs;
      if cap >= 4 { FitShort(ptrs[1..], cap - 4); }
    }
  }

  /** Of those a header holds 107. */
  lemma {:induction false} ChunksShort(ptrs: seq<Pointer>)
    requires AllShort(ptrs)
    ensures |Chunks(ptrs)| == (|ptrs| + 106) / 107
    decreases |ptrs|
  {
    hide Fit, Size;
    if ptrs != [] {
      FitShort(ptrs, EXT_CAP);
      var n := Fit(ptrs, EXT_CAP);
      assert n == if |ptrs| <= 107 then |ptrs| else 107;
      assert forall p <- ptrs[n..] :: p in ptrs;
      ChunksShort(ptrs[n..]);
    }
  }

  // As headers.
  function ExtSegs(chunks: seq<seq<Pointer>>): (segs: seq<Seg>)
    ensures |segs| == |chunks| && forall i | 0 <= i < |chunks| :: segs[i] == Seg(chunks[i], EXT_CAP)
  {
    seq(|chunks|, i requires 0 <= i < |chunks| => Seg(chunks[i], EXT_CAP))
  }

  lemma {:induction false} ExtBlocks(chunks: seq<seq<Pointer>>)
    ensures FileBlocks(ExtSegs(chunks)) == Blocks(Joined(chunks))
  {
    hide Blocks;
    if chunks == [] {
      BlocksNone();
    } else {
      ExtBlocks(chunks[1..]);
      assert ExtSegs(chunks)[1..] == ExtSegs(chunks[1..]);
      BlocksSplit(chunks[0], Joined(chunks[1..]));
    }
  }

  // New extension headers for the pointers that did not fit.
  method Overflow(ptrs: seq<Pointer>) returns (segs: seq<Seg>)
    ensures segs == ExtSegs(Chunks(ptrs))
  {
    hide Fit;
    segs := [];
    var o := ptrs;
    ghost var done: seq<seq<Pointer>> := [];
    while o != []
      invariant done + Chunks(o) == Chunks(ptrs) && segs == ExtSegs(done)
      decreases |o|
    {
      var n := if Fit(o, EXT_CAP) > 1 then Fit(o, EXT_CAP) else 1;
      OneOn(done, o[..n], Chunks(o[n..]));
      segs, o, done := segs + [Seg(o[..n], EXT_CAP)], o[n..], done + [o[..n]];
    }
    assert done + [] == done;
  }

  lemma FileNone()
    ensures FileBlocks([]) == []
  {
  }

  lemma FitsOne(o: seq<Pointer>)
    requires o != [] && Holds(o[0])
    ensures Fit(o, EXT_CAP) >= 1
  {
  }

  /** The last pointer grown, where the new space continues it and the old pointers
      still fit, and the runs that are left. */
  function Grow(had: seq<Pointer>, cap: nat, runs: seq<Run>): (r: (seq<Pointer>, seq<Run>))
    requires runs != []
    ensures |r.0| == |had|
  {
    if had == [] || !had[|had| - 1].Extent? then (had, runs)
    else
      var l := had[|had| - 1];
      var total := l.count + runs[0].count;
      if l.lbn + l.count != runs[0].lbn || total == 0 || total > MAX_COUNT then (had, runs)
      else
        var merged := had[..|had| - 1] + [ExtentOf(total, l.lbn).value];
        if Encoded(merged) <= cap then (merged, runs[1..]) else (had, runs)
  }

  lemma GrowBlocks(had: seq<Pointer>, cap: nat, runs: seq<Run>)
    requires runs != []
    ensures var (ptrs, rest) := Grow(had, cap, runs); Blocks(ptrs) + Lbns(rest) == Blocks(had) + Lbns(runs)
    ensures Fits(Seg(had, cap)) && (forall r <- runs :: Addressable(r)) ==>
      var (ptrs, rest) := Grow(had, cap, runs); Fits(Seg(ptrs, cap)) && forall r <- rest :: Addressable(r)
  {
    hide Blocks, Lbns, Span, BlocksOf, Encoded;
    var (ptrs, rest) := Grow(had, cap, runs);
    if ptrs != had || rest != runs {
      var init, l := had[..|had| - 1], had[|had| - 1];
      Grown(init, l, runs[0], runs[1..]);
      assert had == init + [l] && runs == [runs[0]] + runs[1..] && l in had && runs[0] in runs;
      if Holds(l) && Addressable(runs[0]) { ExtentHolds(l.count + runs[0].count, l.lbn); }
    }
  }

  lemma Grown(init: seq<Pointer>, l: Pointer, r: Run, rest: seq<Run>)
    requires l.Extent? && l.lbn + l.count == r.lbn && 0 < l.count + r.count <= MAX_COUNT
    ensures Blocks(init + [ExtentOf(l.count + r.count, l.lbn).value]) + Lbns(rest) ==
      Blocks(init + [l]) + Lbns([r] + rest)
  {
    hide Blocks, Lbns, Span;
    var g := ExtentOf(l.count + r.count, l.lbn).value;
    BlocksSplit(init, [g]);
    BlocksSplit(init, [l]);
    BlocksOne(g);
    BlocksOne(l);
    SpanSplit(l.lbn, l.count, r.count);
    LbnsSplit([r], rest);
    LbnsOne(r);
    var a, x, y, z := Blocks(init), Span(l.lbn, l.count), Span(r.lbn, r.count), Lbns(rest);
    assert (a + (x + y)) + z == (a + x) + (y + z);
  }

  /** What the last header keeps, and what goes to new ones. */
  datatype Share = Share(kept: seq<Pointer>, chunks: seq<seq<Pointer>>)

  function Spread(last: Seg, added: seq<Run>): Share {
    var runs := Merged(added);
    if runs == [] then Share(last.ptrs, [])
    else
      var (ptrs, rest) := Grow(last.ptrs, last.cap, runs);
      Share(KeptOf(last, ptrs + Pointers(rest)), Chunks((ptrs + Pointers(rest))[Keep(last, ptrs + Pointers(rest))..]))
  }

  // As many as fit, and never fewer than there were.
  function Keep(last: Seg, all: seq<Pointer>): (k: nat)
    requires |last.ptrs| <= |all|
    ensures |last.ptrs| <= k <= |all|
  {
    if Fit(all, last.cap) > |last.ptrs| then Fit(all, last.cap) else |last.ptrs|
  }

  function KeptOf(last: Seg, all: seq<Pointer>): seq<Pointer>
    requires |last.ptrs| <= |all|
  {
    all[..Keep(last, all)]
  }

  /** The same blocks, and headers that hold their pointers. */
  lemma SpreadBlocks(last: Seg, added: seq<Run>)
    ensures var s := Spread(last, added); Blocks(s.kept) + Blocks(Joined(s.chunks)) == Blocks(last.ptrs) + Lbns(added)
    ensures Fits(last) && (forall r <- added :: Addressable(r)) ==>
      var s := Spread(last, added); Fits(Seg(s.kept, last.cap)) && forall c <- s.chunks :: Fits(Seg(c, EXT_CAP))
  {
    hide Blocks, Lbns, Encoded, Fit, Holds, Merged, Grow, Chunks, Pointers;
    var runs := Merged(added);
    MergedBlocks(added);
    MergedFrom(added);
    if runs == [] {
      LbnsNone();
      BlocksNone();
      assert Blocks(last.ptrs) + [] == Blocks(last.ptrs);
    } else {
      GrowBlocks(last.ptrs, last.cap, runs);
      var (ptrs, rest) := Grow(last.ptrs, last.cap, runs);
      var all := ptrs + Pointers(rest);
      PointersBlocks(rest);
      BlocksSplit(ptrs, Pointers(rest));
      var k := Keep(last, all);
      assert all == all[..k] + all[k..] && all[..|ptrs|] == ptrs;
      BlocksSplit(all[..k], all[k..]);
      ChunksJoin(all[k..]);
      FitFits(all, last.cap);
      if Fits(last) && forall r <- added :: Addressable(r) {
        KeptFits(last, ptrs, all);
        ChunksFit(all[k..]);
      }
    }
  }

  lemma KeptFits(last: Seg, ptrs: seq<Pointer>, all: seq<Pointer>)
    requires Fits(Seg(ptrs, last.cap)) && |ptrs| == |last.ptrs| && ptrs <= all && forall p <- all :: Holds(p)
    ensures Fits(Seg(KeptOf(last, all), last.cap)) && forall p <- all[Keep(last, all)..] :: Holds(p)
  {
    hide Encoded, Fit, Holds;
    FitFits(all, last.cap);
    assert all[..|ptrs|] == ptrs;
  }

  /** append_runs: the file's blocks are what they were and then the new ones;
      all but its last header stay, there are as many more as the spread has, and
      every header's pointers fit it. */
  method Append(segs: seq<Seg>, added: seq<Run>) returns (after: seq<Seg>)
    requires segs != [] && (forall s <- segs :: Fits(s)) && forall r <- added :: Addressable(r)
    ensures FileBlocks(after) == FileBlocks(segs) + Lbns(added)
    ensures var n, s := |segs| - 1, Spread(segs[|segs| - 1], added);
      after == segs[..n] + [Seg(s.kept, segs[n].cap)] + ExtSegs(s.chunks)
    ensures forall s <- after :: Fits(s)
  {
    hide FileBlocks, Blocks, Lbns, Holds, Encoded, Fit, Merged, Pointers, Chunks;
    var runs := MergeRuns(added);
    MergedFrom(added);
    var n := |segs| - 1;
    var last := segs[n];
    assert last in segs && segs == segs[..n] + [last];
    SpreadBlocks(last, added);
    ghost var s := Spread(last, added);
    ExtBlocks(s.chunks);
    Appended(segs[..n], last, Seg(s.kept, last.cap), ExtSegs(s.chunks), Lbns(added));
    if runs == [] {
      after := segs;
      assert segs[..n] + [last] + ExtSegs([]) == segs;
      return;
    }
    var ptrs, rest := last.ptrs, runs;
    if last.ptrs != [] && last.ptrs[|last.ptrs| - 1].Extent? {
      var l := last.ptrs[|last.ptrs| - 1];
      var total := l.count + rest[0].count;
      if l.lbn + l.count == rest[0].lbn && 0 < total <= MAX_COUNT {
        var merged := last.ptrs[..|last.ptrs| - 1] + [ExtentOf(total, l.lbn).value];
        if Encoded(merged) <= last.cap {
          ptrs, rest := merged, rest[1..];
        }
      }
    }
    assert (ptrs, rest) == Grow(last.ptrs, last.cap, runs);
    GrowBlocks(last.ptrs, last.cap, runs);
    var more := PointersFor(rest);
    var all := ptrs + more;
    var keep := if Fit(all, last.cap) > |last.ptrs| then Fit(all, last.cap) else |last.ptrs|;
    var ext := Overflow(all[keep..]);
    after := segs[..n] + [Seg(all[..keep], last.cap)] + ext;
  }

  lemma Appended(init: seq<Seg>, last: Seg, kept: Seg, ext: seq<Seg>, added: seq<nat>)
    requires Blocks(kept.ptrs) + FileBlocks(ext) == Blocks(last.ptrs) + added
    ensures FileBlocks(init + [kept] + ext) == FileBlocks(init + [last]) + added
  {
    hide FileBlocks, Blocks;
    FileSplit(init + [kept], ext);
    FileSplit(init, [kept]);
    FileSplit(init, [last]);
    FileOne(kept);
    FileOne(last);
    var a := FileBlocks(init);
    assert (a + Blocks(kept.ptrs)) + FileBlocks(ext) == a + (Blocks(kept.ptrs) + FileBlocks(ext));
    assert a + (Blocks(last.ptrs) + added) == (a + Blocks(last.ptrs)) + added;
  }

  // ---------------------------------------------------------------------
  // Truncation
  // ---------------------------------------------------------------------

  // The pointers of the first left blocks, and the runs of the rest.
  method Cut(ptrs: seq<Pointer>, left: nat) returns (kept: seq<Pointer>, freed: seq<Run>)
    requires forall p <- ptrs :: Holds(p)
    requires left <= |Blocks(ptrs)|
    ensures Blocks(kept) == Blocks(ptrs)[..left] && Lbns(freed) == Blocks(ptrs)[left..]
    ensures Encoded(kept) <= Encoded(ptrs) && forall p <- kept :: Holds(p)
  {
    hide Blocks, Lbns, Encoded, Span, BlocksOf;
    kept, freed := [], [];
    var more := left;
    CutNone();
    assert ptrs[..0] == [];
    for k := 0 to |ptrs|
      invariant 0 <= more <= left && left <= |Blocks(ptrs)|
      invariant Blocks(kept) + Lbns(freed) == Blocks(ptrs[..k]) && |Blocks(kept)| == left - more
      invariant more > 0 ==> freed == []
      invariant Encoded(kept) <= Encoded(ptrs[..k]) && forall p <- kept :: Holds(p)
    {
      var p := ptrs[k];
      assert ptrs[..k + 1] == ptrs[..k] + [p] && p in ptrs;
      BlocksSplit(ptrs[..k], [p]);
      BlocksOne(p);
      EncodedSplit(ptrs[..k], [p]);
      EncodedOne(p);
      if p.Extent? && more < p.count {
        CutExtent(kept, freed, p, more);
        if more > 0 {
          ExtentShorter(p, more);
          EncodedSplit(kept, [ExtentOf(more, p.lbn).value]);
          EncodedOne(ExtentOf(more, p.lbn).value);
          kept := kept + [ExtentOf(more, p.lbn).value];
        }
        freed := freed + [Run(p.lbn + more, p.count - more)];
        more := 0;
      } else {
        KeepWhole(kept, freed, p, more);
        BlocksSplit(kept, [p]);
        EncodedSplit(kept, [p]);
        if p.Extent? {
          more := more - p.count;
        }
        kept := kept + [p];
      }
    }
    assert ptrs[..|ptrs|] == ptrs;
    CutAt(Blocks(kept), Lbns(freed), Blocks(ptrs), left, more, freed);
  }

  lemma CutNone()
    ensures Blocks([]) == [] && Lbns([]) == [] && Encoded([]) == 0
  {
  }

  lemma EncodedOne(p: Pointer)
    ensures Encoded([p]) == Size(p)
  {
    assert [p][1..] == [];
  }

  lemma CutExtent(kept: seq<Pointer>, freed: seq<Run>, p: Pointer, more: nat)
    requires p.Extent? && Holds(p) && more < p.count && (more > 0 ==> freed == [])
    ensures more > 0 ==> ExtentOf(more, p.lbn).Some?
    ensures var now := if more > 0 then kept + [ExtentOf(more, p.lbn).value] else kept;
      && Blocks(now) + Lbns(freed + [Run(p.lbn + more, p.count - more)]) == Blocks(kept) + Lbns(freed) + BlocksOf(p)
      && |Blocks(now)| == |Blocks(kept)| + more
  {
    hide Blocks, Lbns, Span;
    var r := Run(p.lbn + more, p.count - more);
    LbnsSplit(freed, [r]);
    LbnsOne(r);
    SpanSplit(p.lbn, more, p.count - more);
    if more > 0 {
      ExtentShorter(p, more);
      var q := ExtentOf(more, p.lbn).value;
      BlocksSplit(kept, [q]);
      BlocksOne(q);
      LbnsNone();
      var a, x, y := Blocks(kept), Span(p.lbn, more), Span(p.lbn + more, p.count - more);
      assert (a + x) + ([] + y) == a + [] + (x + y);
    } else {
      SpanNone(p.lbn);
      assert Span(p.lbn, 0) + Span(p.lbn, p.count) == Span(p.lbn, p.count);
      assert Blocks(kept) + (Lbns(freed) + Span(p.lbn, p.count)) == Blocks(kept) + Lbns(freed) + Span(p.lbn, p.count);
    }
  }

  lemma KeepWhole(kept: seq<Pointer>, freed: seq<Run>, p: Pointer, more: nat)
    requires Holds(p) && (p.Extent? ==> more >= p.count) && (more > 0 ==> freed == [])
    ensures Blocks(kept + [p]) + Lbns(freed) == Blocks(kept) + Lbns(freed) + BlocksOf(p)
    ensures |Blocks(kept + [p])| == |Blocks(kept)| + if p.Extent? then p.count else 0
  {
    hide Blocks, Lbns;
    BlocksSplit(kept, [p]);
    BlocksOne(p);
    if p.Extent? {
      LbnsNone();
      assert (Blocks(kept) + BlocksOf(p)) + [] == Blocks(kept) + [] + BlocksOf(p);
    } else {
      assert (Blocks(kept) + []) + Lbns(freed) == Blocks(kept) + Lbns(freed) + [];
    }
  }

  lemma CutAt(a: seq<nat>, b: seq<nat>, all: seq<nat>, left: nat, more: nat, freed: seq<Run>)
    requires a + b == all && |a| == left - more && more <= left <= |all| && (more > 0 ==> freed == [])
    requires b == Lbns(freed)
    ensures a == all[..left] && b == all[left..]
  {
    if more > 0 { LbnsNone(); }
  }

  // header_runs: the runs of a header's extents.
  method RunsOf(ptrs: seq<Pointer>) returns (runs: seq<Run>)
    ensures Lbns(runs) == Blocks(ptrs)
  {
    hide Blocks, Lbns, Span;
    runs := [];
    CutNone();
    assert ptrs[..0] == [];
    for k := 0 to |ptrs|
      invariant Lbns(runs) == Blocks(ptrs[..k])
    {
      var p := ptrs[k];
      assert ptrs[..k + 1] == ptrs[..k] + [p];
      BlocksSplit(ptrs[..k], [p]);
      BlocksOne(p);
      if p.Extent? {
        LbnsSplit(runs, [Run(p.lbn, p.count)]);
        LbnsOne(Run(p.lbn, p.count));
        runs := runs + [Run(p.lbn, p.count)];
      }
    }
    assert ptrs[..|ptrs|] == ptrs;
  }

  // The header the cut falls in, and how many blocks it keeps of it.
  method FindCut(segs: seq<Seg>, keep: nat) returns (k: nat, left: nat)
    ensures k <= |segs| && (k == |segs| <==> |FileBlocks(segs)| <= keep)
    ensures k < |segs| ==> left < |Blocks(segs[k].ptrs)| && |FileBlocks(segs[..k])| + left == keep
  {
    hide FileBlocks, Blocks;
    var vbn := 0;
    k, left := 0, 0;
    FileNone();
    assert segs[..0] == [];
    while k < |segs|
      invariant k <= |segs| && vbn == |FileBlocks(segs[..k])| <= keep
    {
      FileAt(segs, k);
      var n := |Blocks(segs[k].ptrs)|;
      if vbn + n > keep {
        left := keep - vbn;
        return;
      }
      vbn := vbn + n;
      k := k + 1;
    }
    assert segs[..|segs|] == segs;
  }

  lemma FileAt(segs: seq<Seg>, k: nat)
    requires k < |segs|
    ensures FileBlocks(segs[..k + 1]) == FileBlocks(segs[..k]) + Blocks(segs[k].ptrs)
    ensures FileBlocks(segs) == FileBlocks(segs[..k]) + Blocks(segs[k].ptrs) + FileBlocks(segs[k + 1..])
  {
    hide FileBlocks, Blocks;
    Around(segs, k);
    FileSplit(segs[..k], [segs[k]]);
    FileOne(segs[k]);
    FileSplit(segs[..k] + [segs[k]], segs[k + 1..]);
  }

  lemma Around(segs: seq<Seg>, k: nat)
    requires k < |segs|
    ensures segs[..k + 1] == segs[..k] + [segs[k]] && segs == segs[..k] + [segs[k]] + segs[k + 1..]
  {
  }

  /** truncate: the file keeps its first keep blocks and the rest are freed, in
      order; nothing changes where it has no more.  Every header's pointers
      still fit it. */
  method Truncate(segs: seq<Seg>, keep: nat) returns (after: seq<Seg>, freed: seq<Run>)
    requires forall s <- segs :: Fits(s)
    ensures |FileBlocks(segs)| <= keep ==> after == segs && freed == []
    ensures |FileBlocks(segs)| > keep ==>
      FileBlocks(after) == FileBlocks(segs)[..keep] && Lbns(freed) == FileBlocks(segs)[keep..]
    ensures (forall s <- after :: Fits(s)) && |after| <= |segs|
  {
    hide FileBlocks, Blocks, Lbns, Holds, Encoded;
    var k, left := FindCut(segs, keep);
    if k == |segs| {
      after, freed := segs, [];
      return;
    }
    assert segs[k] in segs;
    var kept: seq<Pointer>;
    kept, freed := Cut(segs[k].ptrs, left);
    after := segs[..k] + [Seg(kept, segs[k].cap)];
    FileSplit(segs[..k], [Seg(kept, segs[k].cap)]);
    FileOne(Seg(kept, segs[k].cap));
    FileAt(segs, k);
    ghost var first := Lbns(freed);
    assert segs[k + 1..k + 1] == [];
    FileNone();
    for j := k + 1 to |segs|
      invariant Lbns(freed) == first + FileBlocks(segs[k + 1..j])
    {
      var runs := RunsOf(segs[j].ptrs);
      LbnsSplit(freed, runs);
      assert segs[k + 1..j + 1] == segs[k + 1..j] + [segs[j]];
      FileSplit(segs[k + 1..j], [segs[j]]);
      FileOne(segs[j]);
      freed := freed + runs;
    }
    assert segs[k + 1..|segs|] == segs[k + 1..];
    Parts(FileBlocks(segs[..k]), Blocks(segs[k].ptrs), FileBlocks(segs[k + 1..]), left);
  }

  lemma Parts(a: seq<nat>, b: seq<nat>, c: seq<nat>, left: nat)
    requires left <= |b|
    ensures (a + b + c)[..|a| + left] == a + b[..left] && (a + b + c)[|a| + left..] == b[left..] + c
  {
  }

  /** Truncating to the old length undoes an extension and frees what it
      added. */
  method AppendUndone(segs: seq<Seg>, added: seq<Run>) returns (back: seq<Seg>, freed: seq<Run>)
    requires segs != [] && (forall s <- segs :: Fits(s)) && forall r <- added :: Addressable(r)
    ensures FileBlocks(back) == FileBlocks(segs) && Lbns(freed) == Lbns(added)
  {
    hide FileBlocks, Lbns;
    var longer := Append(segs, added);
    LbnsNone();
    back, freed := Truncate(longer, |FileBlocks(segs)|);
  }

  // ---------------------------------------------------------------------
  // Transfers
  // ---------------------------------------------------------------------

  const BLOCK := 512

  datatype Failure = NotWholeBlocks | BeyondEof

  datatype Transfer = Transfer(lbn: nat, from: nat, blocks: nat)

  function Moved(ts: seq<Transfer>): seq<nat> {
    if ts == [] then [] else Span(ts[0].lbn, ts[0].blocks) + Moved(ts[1..])
  }

  lemma {:induction false} MovedMore(ts: seq<Transfer>, t: Transfer)
    ensures Moved(ts + [t]) == Moved(ts) + Span(t.lbn, t.blocks)
  {
    if ts == [] {
      assert ts + [t] == [t];
      assert [t][1..] == [];
    } else {
      assert (ts + [t])[1..] == ts[1..] + [t];
      MovedMore(ts[1..], t);
    }
  }

  /** pieces: a transfer of len bytes from vbn as one for each run, each from
      where the one before it ends in the buffer. */
  method Pieces(runs: seq<Run>, vbn: nat, len: nat) returns (ts: seq<Transfer>, failed: Option<Failure>)
    ensures failed == (if len % BLOCK != 0 || vbn == 0 then Some(NotWholeBlocks)
                       else if len > 0 && vbn - 1 + len / BLOCK > |Lbns(runs)| then Some(BeyondEof)
                       else None)
    ensures failed.None? && len > 0 ==> Moved(ts) == Lbns(runs)[vbn - 1..vbn - 1 + len / BLOCK]
    ensures failed.None? ==> forall i | 0 <= i < |ts| :: ts[i].from == BLOCK * |Moved(ts[..i])|
  {
    hide Lbns, Span, Moved;
    ts, failed := [], None;
    if len % BLOCK != 0 || vbn == 0 {
      failed := Some(NotWholeBlocks);
      return;
    }
    var blocks := len / BLOCK;
    var done := 0;
    MovedNone();
    while done < blocks
      invariant 0 <= done <= blocks && (done > 0 ==> vbn - 1 + done <= |Lbns(runs)|)
      invariant |Moved(ts)| == done && (done > 0 ==> Moved(ts) == Lbns(runs)[vbn - 1..vbn - 1 + done])
      invariant forall i | 0 <= i < |ts| :: ts[i].from == BLOCK * |Moved(ts[..i])|
      decreases blocks - done
    {
      var at := MapVbn(runs, vbn + done);
      if at.None? {
        failed := Some(BeyondEof);
        return;
      }
      var n := if at.value.1 < blocks - done then at.value.1 else blocks - done;
      SpanPrefix(at.value.0, at.value.1, n);
      var t := Transfer(at.value.0, BLOCK * done, n);
      MovedMore(ts, t);
      Slices(Lbns(runs), vbn - 1, vbn - 1 + done, at.value.1, n);
      Froms(ts, t);
      ts := ts + [t];
      done := done + n;
    }
  }

  lemma Slices(l: seq<nat>, a: nat, k: nat, m: nat, n: nat)
    requires a <= k && n <= m && k + m <= |l|
    ensures l[k..k + m][..n] == l[k..k + n] && l[a..k] + l[k..k + n] == l[a..k + n]
  {
  }

  lemma MovedNone()
    ensures Moved([]) == []
  {
  }

  lemma SpanPrefix(lbn: nat, count: nat, n: nat)
    requires n <= count
    ensures Span(lbn, count)[..n] == Span(lbn, n)
  {
  }

  lemma Froms(ts: seq<Transfer>, t: Transfer)
    requires t.from == BLOCK * |Moved(ts)| && forall i | 0 <= i < |ts| :: ts[i].from == BLOCK * |Moved(ts[..i])|
    ensures forall i | 0 <= i <= |ts| :: (ts + [t])[i].from == BLOCK * |Moved((ts + [t])[..i])|
  {
    forall i | 0 <= i <= |ts|
      ensures (ts + [t])[i].from == BLOCK * |Moved((ts + [t])[..i])|
    {
      assert (ts + [t])[..i] == ts[..i];
      if i == |ts| { assert ts[..i] == ts; }
    }
  }
}
